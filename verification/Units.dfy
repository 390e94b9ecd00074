/** Fixed-point units shared by every component: prices are ticks (1/10000 dollar), quantities are
    centi-contracts, and their product is an exact number of micro-dollars. */
module Units {
  const PRICE_SCALE: int := 10_000

  type Price = int
  type Qty = int
  type Ticker = string

  datatype Option<+T> = None | Some(value: T)

  datatype Side = YES | NO {
    function Opposite(): Side {
      if this.YES? then NO else YES
    }
  }

  datatype Contract = Contract(ticker: Ticker, side: Side)

  datatype Level = Level(price: Price, qty: Qty)

  /** A quantity bought at one price. */
  datatype Fill = Fill(price: Price, qty: Qty)

  /** What one contract of a side pays when YES settles at `yes` ticks. */
  function Payoff(side: Side, yes: Price): Price {
    if side.YES? then yes else PRICE_SCALE - yes
  }

  function Min(a: int, b: int): int {
    if a <= b then a else b
  }

  function Max(a: int, b: int): int {
    if a >= b then a else b
  }

  /** `min(xs)` of a non-empty sequence. */
  function MinOf(xs: seq<int>): (m: int)
    requires xs != []
    ensures m in xs
    ensures forall x | x in xs :: m <= x
  {
    assert xs == [xs[0]] + xs[1..];
    if |xs| == 1 then xs[0] else Min(xs[0], MinOf(xs[1..]))
  }

  function SumInts(xs: seq<int>): int {
    if xs == [] then 0 else SumInts(xs[..|xs| - 1]) + xs[|xs| - 1]
  }
}

/** The total of a dictionary's values, in whatever order they are visited. */
module MapSums {
  ghost function MapSum<K(!new)>(m: map<K, int>): int
    decreases |m|
  {
    if m == map[] then 0
    else
      var k :| k in m;
      m[k] + MapSum(m - {k})
  }

  /** The order of visiting does not matter: any key may be taken out first. */
  lemma {:induction false} TakeOut<K(!new)>(m: map<K, int>, k: K)
    requires k in m
    ensures MapSum(m) == m[k] + MapSum(m - {k})
    decreases |m|
  {
    var j :| j in m && MapSum(m) == m[j] + MapSum(m - {j});
    if j != k {
      TakeOut(m - {j}, k);
      TakeOut(m - {k}, j);
      assert m - {j} - {k} == m - {k} - {j};
    }
  }

  lemma {:induction false} Put<K(!new)>(m: map<K, int>, k: K, v: int)
    ensures MapSum(m[k := v]) == MapSum(m) - (if k in m then m[k] else 0) + v
  {
    TakeOut(m[k := v], k);
    assert m[k := v] - {k} == m - {k};
    if k in m {
      TakeOut(m, k);
    } else {
      assert m - {k} == m;
    }
  }

  lemma {:induction false} Drop<K(!new)>(m: map<K, int>, k: K)
    ensures MapSum(m - {k}) == MapSum(m) - (if k in m then m[k] else 0)
  {
    if k in m {
      TakeOut(m, k);
    } else {
      assert m - {k} == m;
    }
  }

  lemma {:induction false} NonNegative<K(!new)>(m: map<K, int>)
    requires forall k | k in m :: m[k] >= 0
    ensures MapSum(m) >= 0
    ensures forall k | k in m :: m[k] <= MapSum(m)
    decreases |m|
  {
    forall k | k in m
      ensures m[k] <= MapSum(m) && MapSum(m) >= 0
    {
      TakeOut(m, k);
      NonNegative(m - {k});
    }
  }
}
