/** arbitrage/execution.py, `optimize`: the sizes worth evaluating, the best of them, and the
    break-even size.  Profit is not concave in size, so what carries the argument is that it is
    linear between neighbouring candidates. */
module Sizing {
  import opened Units
  import opened OrderBooks
  import opened Fees
  import opened Fills
  import opened Relationships
  import opened Execution

  // ---------------------------------------------------------------- linear between level boundaries

  /** Exact outlay per centi-contract at a price: the price and its unrounded fee. */
  function Toll(f: FeeSchedule, p: Price): real {
    p as real + f.Rate(p, false)
  }

  ghost function Outlay(asks: seq<Level>, f: FeeSchedule, q: Qty): real {
    if asks == [] || q <= 0 then 0.0
    else
      var take := Min(q, asks[0].qty);
      Times(take, Toll(f, asks[0].price)) + Outlay(asks[1..], f, q - take)
  }

  function Times(n: int, x: real): real {
    n as real * x
  }

  lemma TimesAdd(a: int, b: int, x: real)
    ensures Times(a + b, x) == Times(a, x) + Times(b, x)
    ensures Times(0, x) == 0.0
  {
  }

  lemma TimesTimes(a: int, b: int, x: real)
    ensures Times(a * b, x) == Times(b, Times(a, x))
  {
    assert (a * b) as real == a as real * b as real;
  }

  lemma {:induction false} ExactTotalCons(f: FeeSchedule, x: Fill, rest: seq<Fill>)
    ensures f.ExactTotal([x] + rest, false) == f.ExactFee(x.price, x.qty, false) + f.ExactTotal(rest, false)
  {
    hide FeeSchedule.ExactFee;
    if rest == [] {
      assert [x] + rest == [x] && [x][..0] == [];
    } else {
      ExactTotalCons(f, x, rest[..|rest| - 1]);
      assert ([x] + rest)[..|rest|] == [x] + rest[..|rest| - 1];
    }
  }

  lemma {:induction false} OutlayIsSpend(asks: seq<Level>, f: FeeSchedule, q: Qty)
    ensures SumCost(Walk(asks, q)) as real + f.ExactTotal(Walk(asks, q), false) == Outlay(asks, f, q)
  {
    if asks != [] && q > 0 {
      var p, take := asks[0].price, Min(q, asks[0].qty);
      OutlayIsSpend(asks[1..], f, q - take);
      var rest := Walk(asks[1..], q - take);
      assert Walk(asks, q) == [Fill(p, take)] + rest && Walk(asks, q)[1..] == rest;
      ExactTotalCons(f, Fill(p, take), rest);
      TollSplit(f, p, take);
    }
  }

  lemma TollSplit(f: FeeSchedule, p: Price, take: Qty)
    ensures Times(take, Toll(f, p)) == (p * take) as real + f.ExactFee(p, take, false)
  {
    hide FeeSchedule.Rate;
    assert (p * take) as real == p as real * take as real;
  }

  /** No price level ends strictly between x and y contracts. */
  ghost predicate NoStep(asks: seq<Level>, x: Qty, y: Qty) {
    forall j | 1 <= j <= |asks| :: !(x < DepthOf(asks[..j]) < y)
  }

  lemma NoStepTail(asks: seq<Level>, x: Qty, y: Qty)
    requires asks != [] && NoStep(asks, x, y)
    ensures !(x < asks[0].qty < y)
    ensures NoStep(asks[1..], x - asks[0].qty, y - asks[0].qty)
  {
    assert asks[..1] == [asks[0]] && DepthOf([asks[0]]) == asks[0].qty + DepthOf([asks[0]][1..]);
    forall j | 1 <= j <= |asks[1..]|
      ensures !(x - asks[0].qty < DepthOf(asks[1..][..j]) < y - asks[0].qty)
    {
      assert asks[..j + 1][1..] == asks[1..][..j];
    }
  }

  /** Between level boundaries the outlay is linear. */
  lemma {:induction false} OutlayLinear(asks: seq<Level>, f: FeeSchedule, x: Qty, y: Qty) returns (slope: real)
    requires Sized(asks) && 0 <= x <= y <= DepthOf(asks) && NoStep(asks, x, y)
    ensures forall z | x <= z <= y :: Outlay(asks, f, z) == Outlay(asks, f, x) + Times(z - x, slope)
  {
    hide Times, Toll;
    if asks == [] {
      slope := 0.0;
      TimesAdd(0, 0, slope);
    } else {
      var n, toll := asks[0].qty, Toll(f, asks[0].price);
      NoStepTail(asks, x, y);
      TimesAdd(0, 0, toll);
      if y <= n {
        slope := toll;
        forall z | x <= z <= y
          ensures Outlay(asks, f, z) == Outlay(asks, f, x) + Times(z - x, slope)
        {
          TimesAdd(x, z - x, toll);
        }
      } else {
        slope := OutlayLinear(asks[1..], f, x - n, y - n);
        forall z | x <= z <= y
          ensures Outlay(asks, f, z) == Outlay(asks, f, x) + Times(z - x, slope)
        {
          assert Outlay(asks, f, z) == Times(n, toll) + Outlay(asks[1..], f, z - n);
          assert Outlay(asks, f, x) == Times(n, toll) + Outlay(asks[1..], f, x - n);
          assert (z - n) - (x - n) == z - x;
        }
      }
    }
  }

  ghost predicate NoSteps(vs: seq<LegView>, a: Qty, b: Qty) {
    forall i | 0 <= i < |vs| :: NoStep(vs[i].asks, vs[i].qty * a, vs[i].qty * b)
  }

  lemma MulOrder(k: int, a: int, s: int, b: int)
    requires k >= 1 && a <= s <= b
    ensures k * a <= k * s <= k * b
    ensures k * s - k * a == (s - a) * k
  {
  }

  lemma LegLinear(v: LegView, a: Qty, b: Qty) returns (slope: real)
    requires v.Valid() && 0 <= a <= b && v.qty * b <= DepthOf(v.asks)
    requires NoStep(v.asks, v.qty * a, v.qty * b)
    ensures forall s | a <= s <= b :: v.ExactSpend(s) == v.ExactSpend(a) + Times(s - a, slope)
  {
    hide Times, Outlay, NoStep;
    MulOrder(v.qty, 0, a, b);
    var c := OutlayLinear(v.asks, v.fee, v.qty * a, v.qty * b);
    slope := Times(v.qty, c);
    forall s | a <= s <= b
      ensures v.ExactSpend(s) == v.ExactSpend(a) + Times(s - a, slope)
    {
      MulOrder(v.qty, a, s, b);
      OutlayIsSpend(v.asks, v.fee, v.qty * s);
      OutlayIsSpend(v.asks, v.fee, v.qty * a);
      TimesTimes(v.qty, s - a, c);
      assert v.qty * s - v.qty * a == v.qty * (s - a);
    }
  }

  lemma {:induction false} SpendLinear(vs: seq<LegView>, a: Qty, b: Qty) returns (slope: real)
    requires AllValid(vs) && 0 <= a <= b && Deep(vs, b) && NoSteps(vs, a, b)
    ensures forall s | a <= s <= b :: ExactSpend(vs, s) == ExactSpend(vs, a) + Times(s - a, slope)
  {
    hide Times, LegView.ExactSpend, NoStep;
    if vs == [] {
      slope := 0.0;
      ZeroSlope();
    } else {
      var n := |vs| - 1;
      var front := SpendLinear(vs[..n], a, b);
      var leg := LegLinear(vs[n], a, b);
      slope := front + leg;
      forall s | a <= s <= b
        ensures ExactSpend(vs, s) == ExactSpend(vs, a) + Times(s - a, slope)
      {
        SlopeAdd(s - a, front, leg);
      }
    }
  }

  lemma ZeroSlope()
    ensures forall n :: Times(n, 0.0) == 0.0
  {
  }

  lemma SlopeAdd(n: int, x: real, y: real)
    ensures Times(n, x + y) == Times(n, x) + Times(n, y)
  {
  }

  /** Between level boundaries the exact profit is linear too. */
  lemma NetLinear(vs: seq<LegView>, bound: Price, a: Qty, b: Qty) returns (slope: real)
    requires AllValid(vs) && 0 <= a <= b && Deep(vs, b) && NoSteps(vs, a, b)
    ensures forall s | a <= s <= b :: ExactNet(vs, bound, s) == ExactNet(vs, bound, a) + Times(s - a, slope)
  {
    hide Times, ExactSpend;
    var c := SpendLinear(vs, a, b);
    slope := bound as real - c;
    forall s | a <= s <= b
      ensures ExactNet(vs, bound, s) == ExactNet(vs, bound, a) + Times(s - a, slope)
    {
      BoundTimes(bound, a, s);
      SlopeAdd(s - a, slope, c);
    }
  }

  lemma BoundTimes(bound: int, a: int, s: int)
    ensures (bound * s) as real == (bound * a) as real + Times(s - a, bound as real)
  {
    assert bound * s == bound * a + (s - a) * bound;
  }

  // ---------------------------------------------------------------- candidate sizes

  predicate Multiple(s: int, lot: int)
    requires lot > 0
  {
    s % lot == 0
  }

  function Down(b: int, lot: int): int
    requires lot > 0
  {
    b / lot * lot
  }

  /** A size at which some price level of some leg is exhausted, or one of the two ends. */
  ghost predicate IsBound(vs: seq<LegView>, lot: Qty, cap: Qty, b: Qty)
    requires forall i | 0 <= i < |vs| :: vs[i].qty >= 1
  {
    b == lot || b == cap || exists i, j :: 0 <= i < |vs| && LevelEnd(vs[i], j, b)
  }

  ghost predicate LevelEnd(v: LegView, j: int, b: Qty)
    requires v.qty >= 1
  {
    1 <= j <= |v.asks| && b == DepthOf(v.asks[..j]) / v.qty
  }

  /** The lot multiples on either side of a boundary. */
  ghost predicate Beside(b: Qty, lot: Qty, cap: Qty, s: Qty)
    requires lot > 0
  {
    lot <= s <= cap && (s == Down(Min(b, cap), lot) || s == Down(Min(b, cap), lot) + lot)
  }

  ghost predicate Candidate(vs: seq<LegView>, lot: Qty, cap: Qty, s: Qty)
    requires lot > 0 && forall i | 0 <= i < |vs| :: vs[i].qty >= 1
  {
    exists b :: IsBound(vs, lot, cap, b) && Beside(b, lot, cap, s)
  }

  lemma Cancel(x: int, y: int, d: int)
    requires d > 0
    ensures x * d < y * d <==> x < y
  {
    if x < y {
      assert x * d < y * d;
    } else {
      assert x * d >= y * d;
    }
  }

  lemma DivUnique(a: int, d: int, q: int)
    requires d > 0 && q * d <= a < (q + 1) * d
    ensures a / d == q
  {
    var p := a / d;
    assert p * d <= a < (p + 1) * d;
    Cancel(p, q + 1, d);
    Cancel(q, p + 1, d);
  }

  lemma MultipleOf(k: int, lot: int)
    requires lot > 0
    ensures Multiple(k * lot, lot)
  {
    DivUnique(k * lot, lot, k);
  }

  lemma DownBounds(b: int, lot: int)
    requires lot > 0
    ensures Down(b, lot) <= b < Down(b, lot) + lot
    ensures Multiple(Down(b, lot), lot) && Multiple(Down(b, lot) + lot, lot)
  {
    MultipleOf(b / lot, lot);
    MultipleOf(b / lot + 1, lot);
    assert (b / lot + 1) * lot == Down(b, lot) + lot;
  }

  /** Two multiples of the lot differ by at least a lot. */
  lemma MultiplesApart(a: int, b: int, lot: int)
    requires lot > 0 && Multiple(a, lot) && Multiple(b, lot) && a < b
    ensures a + lot <= b
  {
    var x, y := a / lot, b / lot;
    Cancel(x, y, lot);
    Cancel(y, x + 1, lot);
  }

  lemma DownLeast(a: int, b: int, lot: int)
    requires lot > 0 && Multiple(a, lot) && a <= b
    ensures a <= Down(b, lot)
  {
    DownBounds(b, lot);
    if Down(b, lot) < a {
      MultiplesApart(Down(b, lot), a, lot);
    }
  }

  lemma CandidatesAreMultiples(vs: seq<LegView>, lot: Qty, cap: Qty, s: Qty)
    requires lot > 0 && (forall i | 0 <= i < |vs| :: vs[i].qty >= 1) && Candidate(vs, lot, cap, s)
    ensures Multiple(s, lot) && lot <= s <= cap
  {
    var b :| IsBound(vs, lot, cap, b) && Beside(b, lot, cap, s);
    DownBounds(Min(b, cap), lot);
  }

  /** The sizing problem: one lot fits, the cap is a whole number of lots and every leg is that deep. */
  ghost predicate Problem(vs: seq<LegView>, lot: Qty, cap: Qty) {
    && lot > 0 && lot <= cap && Multiple(cap, lot)
    && AllValid(vs) && Deep(vs, cap)
  }

  ghost predicate Neighbours(vs: seq<LegView>, lot: Qty, cap: Qty, a: Qty, b: Qty)
    requires Problem(vs, lot, cap)
  {
    && a < b && Candidate(vs, lot, cap, a) && Candidate(vs, lot, cap, b)
    && forall s | a < s < b :: !Candidate(vs, lot, cap, s)
  }

  lemma EndsAreCandidates(vs: seq<LegView>, lot: Qty, cap: Qty)
    requires Problem(vs, lot, cap)
    ensures Candidate(vs, lot, cap, lot) && Candidate(vs, lot, cap, cap)
  {
    DownBounds(lot, lot);
    DownLeast(lot, lot, lot);
    DownLeast(cap, cap, lot);
    DownBounds(cap, lot);
    MultipleOf(1, lot);
    assert IsBound(vs, lot, cap, lot) && Beside(lot, lot, cap, lot);
    assert IsBound(vs, lot, cap, cap) && Beside(cap, lot, cap, cap);
  }

  lemma FloorBetween(cum: int, k: int, a: int, b: int)
    requires k >= 1 && k * a < cum < k * b
    ensures a <= cum / k < b
  {
    var q := cum / k;
    assert q * k <= cum < (q + 1) * k;
    Cancel(a, q + 1, k);
    Cancel(q, b, k);
  }

  /** Neighbouring candidates are one lot apart, or no level of any leg ends between them. */
  lemma NeighboursNoStep(vs: seq<LegView>, lot: Qty, cap: Qty, a: Qty, b: Qty)
    requires Problem(vs, lot, cap) && Neighbours(vs, lot, cap, a, b) && b != a + lot
    ensures NoSteps(vs, a, b)
  {
    CandidatesAreMultiples(vs, lot, cap, a);
    CandidatesAreMultiples(vs, lot, cap, b);
    forall i, j | 0 <= i < |vs| && 1 <= j <= |vs[i].asks|
      ensures !(vs[i].qty * a < DepthOf(vs[i].asks[..j]) < vs[i].qty * b)
    {
      var cum, k := DepthOf(vs[i].asks[..j]), vs[i].qty;
      if k * a < cum < k * b {
        FloorBetween(cum, k, a, b);
        var end := cum / k;
        assert LevelEnd(vs[i], j, end);
        assert IsBound(vs, lot, cap, end);
        StepBeside(vs, lot, cap, a, b, end);
      }
    }
  }

  lemma StepBeside(vs: seq<LegView>, lot: Qty, cap: Qty, a: Qty, b: Qty, end: Qty)
    requires Problem(vs, lot, cap) && Neighbours(vs, lot, cap, a, b)
    requires Multiple(a, lot) && Multiple(b, lot) && lot <= a && b <= cap
    requires IsBound(vs, lot, cap, end) && a <= end < b
    ensures b == a + lot
  {
    DownBounds(end, lot);
    DownLeast(a, end, lot);
    var down := Down(end, lot);
    assert Beside(end, lot, cap, down);
    assert Candidate(vs, lot, cap, down);
    assert down == a;
    MultiplesApart(a, b, lot);
    assert Beside(end, lot, cap, a + lot);
    assert Candidate(vs, lot, cap, a + lot);
  }

  // ---------------------------------------------------------------- the best candidate is the best size

  /** The neighbouring candidates around a size. */
  lemma Around(vs: seq<LegView>, lot: Qty, cap: Qty, s: Qty) returns (a: Qty, b: Qty)
    requires Problem(vs, lot, cap) && lot <= s <= cap && !Candidate(vs, lot, cap, s)
    ensures a < s < b && Neighbours(vs, lot, cap, a, b)
  {
    hide Candidate;
    EndsAreCandidates(vs, lot, cap);
    a, b := s, s;
    while !Candidate(vs, lot, cap, a)
      invariant lot <= a <= s
      invariant forall z | a < z <= s :: !Candidate(vs, lot, cap, z)
      decreases a
    {
      a := a - 1;
    }
    while !Candidate(vs, lot, cap, b)
      invariant s <= b <= cap
      invariant forall z | s <= z < b :: !Candidate(vs, lot, cap, z)
      decreases cap - b
    {
      b := b + 1;
    }
  }

  lemma LineBelowEnds(x: real, slope: real, i: int, n: int)
    requires 0 <= i <= n
    ensures x + Times(i, slope) <= x || x + Times(i, slope) <= x + Times(n, slope)
  {
  }

  /** Whatever the size, some candidate's exact profit is at least as good, although profit is not
      concave in size. */
  lemma CandidatesSuffice(vs: seq<LegView>, bound: Price, lot: Qty, cap: Qty, s: Qty) returns (c: Qty)
    requires Problem(vs, lot, cap) && lot <= s <= cap && Multiple(s, lot)
    ensures Candidate(vs, lot, cap, c) && ExactNet(vs, bound, c) >= ExactNet(vs, bound, s)
    ensures forall d | Candidate(vs, lot, cap, d) && d <= s :: d <= c
  {
    hide ExactNet, Candidate, Times;
    if Candidate(vs, lot, cap, s) {
      c := s;
    } else {
      var a, b := Around(vs, lot, cap, s);
      CandidatesAreMultiples(vs, lot, cap, a);
      CandidatesAreMultiples(vs, lot, cap, b);
      MultiplesApart(a, s, lot);
      MultiplesApart(s, b, lot);
      NeighboursNoStep(vs, lot, cap, a, b);
      DeepBelow(vs, b, cap);
      var slope := NetLinear(vs, bound, a, b);
      LineBelowEnds(ExactNet(vs, bound, a), slope, s - a, b - a);
      c := if ExactNet(vs, bound, s) <= ExactNet(vs, bound, a) then a else b;
    }
  }

  lemma DeepBelow(vs: seq<LegView>, s: Qty, cap: Qty)
    requires AllValid(vs) && Deep(vs, cap) && 0 <= s <= cap
    ensures Deep(vs, s)
  {
    forall i | 0 <= i < |vs|
      ensures vs[i].qty * s <= DepthOf(vs[i].asks)
    {
      MulOrder(vs[i].qty, 0, s, cap);
    }
  }

  /** Some candidate has the greatest exact profit of all lot multiples. */
  ghost predicate ExactOptimal(vs: seq<LegView>, bound: Price, lot: Qty, cap: Qty, c: Qty)
    requires Problem(vs, lot, cap)
  {
    && Candidate(vs, lot, cap, c)
    && forall s | lot <= s <= cap && Multiple(s, lot) :: ExactNet(vs, bound, s) <= ExactNet(vs, bound, c)
  }

  lemma ExactOptimumExists(vs: seq<LegView>, bound: Price, lot: Qty, cap: Qty) returns (c: Qty)
    requires Problem(vs, lot, cap)
    ensures ExactOptimal(vs, bound, lot, cap, c)
  {
    hide ExactNet, Candidate;
    EndsAreCandidates(vs, lot, cap);
    c := lot;
    var i := lot;
    while i < cap
      invariant lot <= i <= cap
      invariant Candidate(vs, lot, cap, c)
      invariant forall z | lot <= z <= i && Candidate(vs, lot, cap, z) :: ExactNet(vs, bound, z) <= ExactNet(vs, bound, c)
    {
      i := i + 1;
      if Candidate(vs, lot, cap, i) && ExactNet(vs, bound, i) > ExactNet(vs, bound, c) {
        c := i;
      }
    }
    forall s | lot <= s <= cap && Multiple(s, lot)
      ensures ExactNet(vs, bound, s) <= ExactNet(vs, bound, c)
    {
      var d := CandidatesSuffice(vs, bound, lot, cap, s);
      CandidatesAreMultiples(vs, lot, cap, d);
    }
  }

  /** best of the candidates, by net profit then smaller size. */
  ghost predicate BestCandidate(vs: seq<LegView>, bound: Price, lot: Qty, cap: Qty, c: Qty)
    requires Problem(vs, lot, cap)
  {
    && Candidate(vs, lot, cap, c)
    && forall d | Candidate(vs, lot, cap, d) ::
         Net(vs, bound, d) < Net(vs, bound, c) || (Net(vs, bound, d) == Net(vs, bound, c) && c <= d)
  }

  /** Without fees the best candidate is the best size outright. */
  lemma BestIsBest(vs: seq<LegView>, bound: Price, lot: Qty, cap: Qty, c: Qty, s: Qty)
    requires Problem(vs, lot, cap) && BestCandidate(vs, bound, lot, cap, c)
    requires RoundingFree(vs, bound, lot, cap)
    requires lot <= s <= cap && Multiple(s, lot)
    ensures Net(vs, bound, s) <= Net(vs, bound, c)
  {
    hide ExactNet, Net, Candidate;
    var d := CandidatesSuffice(vs, bound, lot, cap, s);
    CandidatesAreMultiples(vs, lot, cap, d);
    CandidatesAreMultiples(vs, lot, cap, c);
  }

  /** No fee of any size is changed by rounding. */
  ghost predicate RoundingFree(vs: seq<LegView>, bound: Price, lot: Qty, cap: Qty)
    requires lot > 0
  {
    forall s | lot <= s <= cap && Multiple(s, lot) :: Net(vs, bound, s) as real == ExactNet(vs, bound, s)
  }

  lemma FeeFreeRoundingFree(vs: seq<LegView>, bound: Price, lot: Qty, cap: Qty)
    requires lot > 0 && FeeFree(vs)
    ensures RoundingFree(vs, bound, lot, cap)
  {
    forall s | lot <= s <= cap && Multiple(s, lot)
      ensures Net(vs, bound, s) as real == ExactNet(vs, bound, s)
    {
      FeeFreeIsExact(vs, s);
    }
  }

  /** With per-fill micro-dollar ceilings, no size beats the chosen one by as much as the number of
      fills in the exact-fee-optimal candidate's bundle. */
  lemma BestWithinFills(vs: seq<LegView>, bound: Price, lot: Qty, cap: Qty, best: Qty, c: Qty, s: Qty)
    requires Problem(vs, lot, cap) && vs != [] && SixDecimals(vs)
    requires BestCandidate(vs, bound, lot, cap, best) && ExactOptimal(vs, bound, lot, cap, c)
    requires lot <= s <= cap && Multiple(s, lot)
    ensures Net(vs, bound, s) < Net(vs, bound, best) + FillCount(vs, c)
  {
    hide Candidate, ExactSpend, Spend, FillCount;
    CandidatesAreMultiples(vs, lot, cap, c);
    DeepBelow(vs, s, cap);
    DeepBelow(vs, c, cap);
    RoundingCost(vs, s);
    RoundingCost(vs, c);
  }

  // ---------------------------------------------------------------- break-even

  lemma LineStaysDown(x: real, slope: real, i: int, j: int)
    requires 0 < i <= j && x > 0.0 && x + Times(i, slope) <= 0.0
    ensures x + Times(j, slope) <= 0.0
  {
    SlopeSign(i, slope);
    assert Times(j, slope) <= Times(i, slope);
  }

  lemma SlopeSign(i: int, slope: real)
    requires i > 0
    ensures Times(i, slope) < 0.0 <==> slope < 0.0
  {
    if slope < 0.0 {
      assert Times(i, slope) < 0.0;
    } else {
      assert Times(i, slope) >= 0.0;
    }
  }

  /** Between neighbouring candidates, profit that has been lost is not regained. */
  lemma LossPersists(vs: seq<LegView>, bound: Price, lot: Qty, cap: Qty, lo: Qty, hi: Qty, s: Qty, t: Qty)
    requires Problem(vs, lot, cap) && Neighbours(vs, lot, cap, lo, hi) && RoundingFree(vs, bound, lot, cap)
    requires Multiple(s, lot) && Multiple(t, lot) && lo <= s <= t <= hi
    requires Net(vs, bound, lo) > 0 && Net(vs, bound, s) <= 0
    ensures Net(vs, bound, t) <= 0
  {
    hide Net, ExactNet, Candidate, Times;
    CandidatesAreMultiples(vs, lot, cap, lo);
    CandidatesAreMultiples(vs, lot, cap, hi);
    if hi == lo + lot {
      MultiplesApart(lo, s, lot);
    } else {
      NeighboursNoStep(vs, lot, cap, lo, hi);
      DeepBelow(vs, hi, cap);
      var slope := NetLinear(vs, bound, lo, hi);
      LineStaysDown(ExactNet(vs, bound, lo), slope, s - lo, t - lo);
    }
  }

  /** Past the last profitable candidate's neighbour nothing is profitable. */
  lemma NothingLater(vs: seq<LegView>, bound: Price, lot: Qty, cap: Qty, hi: Qty, s: Qty)
    requires Problem(vs, lot, cap) && RoundingFree(vs, bound, lot, cap) && Candidate(vs, lot, cap, hi)
    requires forall d | Candidate(vs, lot, cap, d) && d >= hi :: Net(vs, bound, d) <= 0
    requires hi <= s <= cap && Multiple(s, lot)
    ensures Net(vs, bound, s) <= 0
  {
    hide Net, ExactNet, Candidate;
    CandidatesAreMultiples(vs, lot, cap, hi);
    var c := CandidatesSuffice(vs, bound, lot, cap, s);
    CandidatesAreMultiples(vs, lot, cap, c);
  }

  // ---------------------------------------------------------------- the methods

  method Sort(xs: set<int>) returns (out: seq<int>)
    ensures forall i, j | 0 <= i < j < |out| :: out[i] < out[j]
    ensures forall x :: x in out <==> x in xs
  {
    out := [];
    var rest := xs;
    while |rest| > 0
      invariant rest <= xs
      invariant forall i, j | 0 <= i < j < |out| :: out[i] < out[j]
      invariant forall x :: x in out <==> x in xs && x !in rest
      invariant forall x, y | x in rest && y in out :: x < y
      decreases |rest|
    {
      var k := MaxKey(rest);
      assert forall y | y in out :: k < y;
      assert forall i | 0 <= i < |out| :: out[i] in out;
      out := [k] + out;
      rest := rest - {k};
    }
    assert rest == {};
  }

  ghost predicate EndsOf(vs: seq<LegView>, lot: Qty, cap: Qty, i: nat, j: nat, b: Qty)
    requires i <= |vs| && forall k | 0 <= k < |vs| :: vs[k].qty >= 1
  {
    || b == lot || b == cap
    || (exists k, l :: 0 <= k < i && LevelEnd(vs[k], l, b))
    || (i < |vs| && exists l :: l <= j && LevelEnd(vs[i], l, b))
  }

  /** `_candidate_sizes`. */
  method CandidateSizes(vs: seq<LegView>, lot: Qty, cap: Qty) returns (sizes: seq<Qty>)
    requires Problem(vs, lot, cap)
    ensures forall i, j | 0 <= i < j < |sizes| :: sizes[i] < sizes[j]
    ensures forall s :: s in sizes <==> Candidate(vs, lot, cap, s)
  {
    var bounds := Bounds(vs, lot, cap);
    var found: set<Qty> := {};
    var rest := bounds;
    while |rest| > 0
      invariant rest <= bounds
      invariant forall s :: s in found <==> exists b :: b in bounds && b !in rest && Beside(b, lot, cap, s)
      decreases |rest|
    {
      var b := MaxKey(rest);
      ghost var before, was := found, rest;
      var down := Down(Min(b, cap), lot);
      if lot <= down <= cap {
        found := found + {down};
      }
      if lot <= down + lot <= cap {
        found := found + {down + lot};
      }
      rest := rest - {b};
      forall s
        ensures s in found <==> exists c :: c in bounds && c !in rest && Beside(c, lot, cap, s)
      {
        assert s in found <==> s in before || Beside(b, lot, cap, s);
        if c :| c in bounds && c !in rest && Beside(c, lot, cap, s) {
          assert c == b || c !in was;
        }
      }
    }
    assert rest == {};
    sizes := Sort(found);
  }

  method Bounds(vs: seq<LegView>, lot: Qty, cap: Qty) returns (bounds: set<Qty>)
    requires forall i | 0 <= i < |vs| :: vs[i].qty >= 1
    ensures forall b :: b in bounds <==> IsBound(vs, lot, cap, b)
  {
    bounds := {lot, cap};
    for i := 0 to |vs|
      invariant forall b :: b in bounds <==> EndsOf(vs, lot, cap, i, 0, b)
    {
      bounds := BoundsOfLeg(vs, lot, cap, i, bounds);
    }
    forall b
      ensures b in bounds <==> IsBound(vs, lot, cap, b)
    {
    }
  }

  method BoundsOfLeg(vs: seq<LegView>, lot: Qty, cap: Qty, i: nat, before: set<Qty>) returns (bounds: set<Qty>)
    requires i < |vs| && forall k | 0 <= k < |vs| :: vs[k].qty >= 1
    requires forall b :: b in before <==> EndsOf(vs, lot, cap, i, 0, b)
    ensures forall b :: b in bounds <==> EndsOf(vs, lot, cap, i + 1, 0, b)
  {
    bounds := before;
    var asks, cum := vs[i].asks, 0;
    for j := 0 to |asks|
      invariant cum == DepthOf(asks[..j])
      invariant forall b :: b in bounds <==> b in before || exists l :: l <= j && LevelEnd(vs[i], l, b)
    {
      DepthSnoc(asks, j);
      cum := cum + asks[j].qty;
      ghost var was := bounds;
      bounds := bounds + {cum / vs[i].qty};
      forall b
        ensures b in bounds <==> b in before || exists l :: l <= j + 1 && LevelEnd(vs[i], l, b)
      {
        assert b == cum / vs[i].qty <==> LevelEnd(vs[i], j + 1, b);
      }
    }
    forall b
      ensures b in bounds <==> EndsOf(vs, lot, cap, i + 1, 0, b)
    {
    }
  }

  lemma {:induction false} DepthSnoc(asks: seq<Level>, j: nat)
    requires j < |asks|
    ensures DepthOf(asks[..j + 1]) == DepthOf(asks[..j]) + asks[j].qty
  {
    if j == 0 {
      assert asks[..1] == [asks[0]] && [asks[0]][1..] == [];
    } else {
      DepthSnoc(asks[1..], j - 1);
      assert asks[..j + 1][1..] == asks[1..][..j] && asks[..j][1..] == asks[1..][..j - 1];
    }
  }

  function MaxBundles(vs: seq<LegView>): Qty
    requires forall i | 0 <= i < |vs| :: vs[i].qty >= 1
  {
    if vs == [] then 0
    else
      var last := DepthOf(vs[|vs| - 1].asks) / vs[|vs| - 1].qty;
      if |vs| == 1 then last else Min(MaxBundles(vs[..|vs| - 1]), last)
  }

  lemma FloorFits(depth: int, k: int, s: int)
    requires k >= 1
    ensures k * s <= depth <==> s <= depth / k
  {
    var q := depth / k;
    assert q * k <= depth < (q + 1) * k;
    Cancel(s, q + 1, k);
    if k * s <= depth {
      assert s * k < (q + 1) * k;
    } else {
      Cancel(q, s, k);
    }
  }

  /** The books hold s bundles exactly when s is no more than `max_bundles`. */
  lemma {:induction false} MaxBundlesIsDepth(vs: seq<LegView>, s: Qty)
    requires AllValid(vs) && vs != []
    ensures Deep(vs, s) <==> s <= MaxBundles(vs)
  {
    var n := |vs| - 1;
    FloorFits(DepthOf(vs[n].asks), vs[n].qty, s);
    if n > 0 {
      MaxBundlesIsDepth(vs[..n], s);
      assert Deep(vs, s) <==> Deep(vs[..n], s) && vs[n].qty * s <= DepthOf(vs[n].asks);
    }
  }

  method DeepestBundle(c: Constraint, books: Books, fees: FeeBook) returns (n: Qty)
    requires forall i | 0 <= i < |c.legs| :: c.legs[i].qty >= 1
    ensures n == if Booked(c.legs, books) then MaxBundles(Views(c.legs, books, fees)) else 0
  {
    var out: Option<Qty> := None;
    for i := 0 to |c.legs|
      invariant Booked(c.legs[..i], books)
      invariant out == if i == 0 then None else Some(MaxBundles(Views(c.legs[..i], books, fees)))
    {
      var leg := c.legs[i];
      if leg.contract.ticker !in books {
        return 0;
      }
      var asks := books[leg.contract.ticker].AskLevels(leg.contract.side);
      var m := DepthOf(asks) / leg.qty;
      out := if out.None? then Some(m) else Some(Min(out.value, m));
      ghost var vs := Views(c.legs[..i + 1], books, fees);
      assert vs[..i] == Views(c.legs[..i], books, fees);
      assert vs[i] == View(leg, books, fees);
    }
    assert c.legs[..|c.legs|] == c.legs;
    n := if out.None? then 0 else out.value;
  }

  datatype SizeResult = SizeResult(best: PricedBundle, breakeven: PricedBundle)

  /** Whole lots within the depth of the books and the caller's cap. */
  ghost function Deepest(c: Constraint, books: Books, fees: FeeBook, lot: Qty, cap: Option<Qty>): Qty
    requires lot > 0 && forall i | 0 <= i < |c.legs| :: c.legs[i].qty >= 1
  {
    var all := Down(if Booked(c.legs, books) then MaxBundles(Views(c.legs, books, fees)) else 0, lot);
    if cap.None? then all else Min(all, Down(cap.value, lot))
  }

  ghost predicate Tradable(c: Constraint, books: Books, fees: FeeBook) {
    && c.Valid() && fees.Valid() && forall t | t in books :: books[t].Valid()
  }

  /** What `optimize` promises of the sizes it returns. */
  ghost predicate Optimized(c: Constraint, books: Books, fees: FeeBook, lot: Qty, cap: Qty, r: SizeResult)
    requires lot > 0 && Booked(c.legs, books) && Problem(Views(c.legs, books, fees), lot, cap)
  {
    var vs := Views(c.legs, books, fees);
    && PriceBundle(c, books, r.best.bundles, fees) == Some(r.best)
    && PriceBundle(c, books, r.breakeven.bundles, fees) == Some(r.breakeven)
    && BestCandidate(vs, c.bound, lot, cap, r.best.bundles)
    && Breakeven(vs, c.bound, lot, cap, r.best.bundles, r.breakeven.bundles)
  }

  ghost predicate Profitable(vs: seq<LegView>, bound: Price, lot: Qty, cap: Qty)
    requires Problem(vs, lot, cap)
  {
    exists d :: Candidate(vs, lot, cap, d) && Net(vs, bound, d) > 0
  }

  /** A profitable size no smaller than any profitable candidate, when there is one; and when rounding
      changes no fee, the largest profitable size of all. */
  ghost predicate Breakeven(vs: seq<LegView>, bound: Price, lot: Qty, cap: Qty, best: Qty, b: Qty)
    requires Problem(vs, lot, cap)
  {
    && lot <= b <= cap && Multiple(b, lot)
    && (!Profitable(vs, bound, lot, cap) ==> b == best)
    && (Profitable(vs, bound, lot, cap) ==> Net(vs, bound, b) > 0)
    && (forall d | Candidate(vs, lot, cap, d) && Net(vs, bound, d) > 0 :: d <= b)
    && (Profitable(vs, bound, lot, cap) && RoundingFree(vs, bound, lot, cap) ==>
          forall s | b < s <= cap && Multiple(s, lot) :: Net(vs, bound, s) <= 0)
  }

  lemma ProblemHere(c: Constraint, books: Books, fees: FeeBook, lot: Qty, cap: Option<Qty>)
    requires lot > 0 && Tradable(c, books, fees) && Deepest(c, books, fees, lot, cap) >= lot
    ensures Booked(c.legs, books) && Problem(Views(c.legs, books, fees), lot, Deepest(c, books, fees, lot, cap))
  {
    DownBounds(0, lot);
    assert Down(0, lot) == 0;
    var vs := Views(c.legs, books, fees);
    ViewsValid(c.legs, books, fees);
    DownBounds(MaxBundles(vs), lot);
    if cap.Some? {
      DownBounds(cap.value, lot);
    }
    MaxBundlesIsDepth(vs, Deepest(c, books, fees, lot, cap));
  }

  /** Without fees what `optimize` returns is best over every size, and its break-even is exactly the
      largest size that pays: nothing beyond it does. */
  lemma FreeOptimum(c: Constraint, books: Books, fees: FeeBook, lot: Qty, cap: Qty, r: SizeResult, s: Qty)
    requires lot > 0 && Booked(c.legs, books) && Problem(Views(c.legs, books, fees), lot, cap)
    requires Optimized(c, books, fees, lot, cap, r) && FeeFree(Views(c.legs, books, fees))
    requires lot <= s <= cap && Multiple(s, lot)
    ensures
      var vs := Views(c.legs, books, fees);
      && Net(vs, c.bound, s) <= Net(vs, c.bound, r.best.bundles)
      && (Net(vs, c.bound, s) > 0 ==> s <= r.breakeven.bundles && Net(vs, c.bound, r.breakeven.bundles) > 0)
  {
    hide Candidate, Net, PriceBundle, Problem, FeeFree, RoundingFree;
    var vs := Views(c.legs, books, fees);
    FeeFreeRoundingFree(vs, c.bound, lot, cap);
    BestIsBest(vs, c.bound, lot, cap, r.best.bundles, s);
  }

  method Optimize(c: Constraint, books: Books, fees: FeeBook, lot: Qty, cap: Option<Qty>)
    returns (r: Option<SizeResult>)
    requires lot > 0 && Tradable(c, books, fees)
    ensures r.Some? <==> Deepest(c, books, fees, lot, cap) >= lot
    ensures r.Some? ==>
              && Booked(c.legs, books)
              && Problem(Views(c.legs, books, fees), lot, Deepest(c, books, fees, lot, cap))
              && Optimized(c, books, fees, lot, Deepest(c, books, fees, lot, cap), r.value)
  {
    var most := DeepestBundle(c, books, fees);
    var deepest := Down(most, lot);
    if cap.Some? {
      deepest := Min(deepest, Down(cap.value, lot));
    }
    if deepest < lot {
      return None;
    }
    ProblemHere(c, books, fees, lot, cap);
    var vs := Views(c.legs, books, fees);
    var priced := PriceCandidates(c, books, fees, vs, lot, deepest);
    var best := ChooseBest(c, vs, lot, deepest, priced);
    var breakeven := FindBreakeven(c, books, fees, vs, lot, deepest, priced, best);
    return Some(SizeResult(best, breakeven));
  }

  /** The priced candidates, in ascending size. */
  ghost predicate Prices(c: Constraint, books: Books, fees: FeeBook, vs: seq<LegView>, lot: Qty, cap: Qty,
                         priced: seq<PricedBundle>)
    requires Problem(vs, lot, cap)
  {
    && (forall i, j | 0 <= i < j < |priced| :: priced[i].bundles < priced[j].bundles)
    && (forall i | 0 <= i < |priced| ::
          && Candidate(vs, lot, cap, priced[i].bundles)
          && PriceBundle(c, books, priced[i].bundles, fees) == Some(priced[i])
          && priced[i].NetMicro() == Net(vs, c.bound, priced[i].bundles))
    && (forall d | Candidate(vs, lot, cap, d) :: exists i :: 0 <= i < |priced| && priced[i].bundles == d)
  }

  lemma PricesAt(c: Constraint, books: Books, fees: FeeBook, lot: Qty, cap: Qty, s: Qty)
    requires Booked(c.legs, books) && Problem(Views(c.legs, books, fees), lot, cap) && 0 < s <= cap
    ensures var p := PriceBundle(c, books, s, fees);
            p.Some? && p.value.bundles == s && p.value.NetMicro() == Net(Views(c.legs, books, fees), c.bound, s)
  {
    DeepBelow(Views(c.legs, books, fees), s, cap);
    PricedAsViewed(c, books, s, fees);
  }

  method PriceCandidates(c: Constraint, books: Books, fees: FeeBook, vs: seq<LegView>, lot: Qty, cap: Qty)
    returns (priced: seq<PricedBundle>)
    requires Booked(c.legs, books) && vs == Views(c.legs, books, fees) && Problem(vs, lot, cap)
    ensures Prices(c, books, fees, vs, lot, cap, priced)
  {
    LotPositive(vs, lot, cap);
    hide Candidate, Net, PriceBundle, Problem;
    var sizes := CandidateSizes(vs, lot, cap);
    priced := [];
    for i := 0 to |sizes|
      invariant |priced| == i
      invariant forall k | 0 <= k < i ::
        && priced[k].bundles == sizes[k]
        && PriceBundle(c, books, sizes[k], fees) == Some(priced[k])
        && priced[k].NetMicro() == Net(vs, c.bound, sizes[k])
    {
      assert sizes[i] in sizes;
      CandidatesAreMultiples(vs, lot, cap, sizes[i]);
      PricesAt(c, books, fees, lot, cap, sizes[i]);
      var p := PriceBundleLoop(c, books, sizes[i], fees);
      if p.Some? {
        priced := priced + [p.value];
      }
    }
    forall d | Candidate(vs, lot, cap, d)
      ensures exists i :: 0 <= i < |priced| && priced[i].bundles == d
    {
      assert d in sizes;
      var i :| 0 <= i < |sizes| && sizes[i] == d;
      assert priced[i].bundles == d;
    }
  }

  lemma LotPositive(vs: seq<LegView>, lot: Qty, cap: Qty)
    requires Problem(vs, lot, cap)
    ensures 0 < lot <= cap && forall i | 0 <= i < |vs| :: vs[i].qty >= 1
  {
  }

  method ChooseBest(c: Constraint, vs: seq<LegView>, lot: Qty, cap: Qty, priced: seq<PricedBundle>)
    returns (best: PricedBundle)
    requires Problem(vs, lot, cap) && exists books, fees :: Prices(c, books, fees, vs, lot, cap, priced)
    ensures best in priced && BestCandidate(vs, c.bound, lot, cap, best.bundles)
  {
    hide Candidate, Net, PriceBundle, PricedBundle.NetMicro;
    EndsAreCandidates(vs, lot, cap);
    best := priced[0];
    for i := 1 to |priced|
      invariant best in priced[..i]
      invariant forall k | 0 <= k < i ::
        priced[k].NetMicro() < best.NetMicro()
        || (priced[k].NetMicro() == best.NetMicro() && best.bundles <= priced[k].bundles)
    {
      var net, top := priced[i].NetMicro(), best.NetMicro();
      if net > top || (net == top && priced[i].bundles < best.bundles) {
        best := priced[i];
      }
    }
  }

  method FindBreakeven(c: Constraint, books: Books, fees: FeeBook, vs: seq<LegView>, lot: Qty, cap: Qty,
                       priced: seq<PricedBundle>, best: PricedBundle)
    returns (last: PricedBundle)
    requires Booked(c.legs, books) && vs == Views(c.legs, books, fees) && Problem(vs, lot, cap)
    requires Prices(c, books, fees, vs, lot, cap, priced)
    requires best in priced && BestCandidate(vs, c.bound, lot, cap, best.bundles)
    ensures PriceBundle(c, books, last.bundles, fees) == Some(last)
    ensures Breakeven(vs, c.bound, lot, cap, best.bundles, last.bundles)
  {
    hide Candidate, Net, PriceBundle, PricedBundle.NetMicro, Problem, BestCandidate, Breakeven, Prices;
    var n := LastPaying(priced);
    if n == 0 {
      NothingPays(c, books, fees, vs, lot, cap, priced, best);
      return best;
    }
    last := priced[n - 1];
    PayingAndNext(c, books, fees, vs, lot, cap, priced, n);
    if n < |priced| {
      last := Bisect(c, books, fees, vs, lot, cap, last, priced[n].bundles);
    }
    BreakevenFrom(c, books, fees, vs, lot, cap, priced, n, best, last);
  }

  method LastPaying(priced: seq<PricedBundle>) returns (n: nat)
    ensures n <= |priced|
    ensures n > 0 ==> priced[n - 1].NetMicro() > 0
    ensures forall k | n <= k < |priced| :: priced[k].NetMicro() <= 0
  {
    hide PricedBundle.NetMicro;
    n := |priced|;
    while n > 0 && priced[n - 1].NetMicro() <= 0
      invariant n <= |priced|
      invariant forall k | n <= k < |priced| :: priced[k].NetMicro() <= 0
    {
      n := n - 1;
    }
  }

  /** The last profitable priced candidate and the one after it are neighbours. */
  lemma PayingAndNext(c: Constraint, books: Books, fees: FeeBook, vs: seq<LegView>, lot: Qty, cap: Qty,
                      priced: seq<PricedBundle>, n: nat)
    requires Problem(vs, lot, cap) && Prices(c, books, fees, vs, lot, cap, priced)
    requires 0 < n <= |priced| && priced[n - 1].NetMicro() > 0
    requires forall k | n <= k < |priced| :: priced[k].NetMicro() <= 0
    ensures var from := priced[n - 1];
            && Net(vs, c.bound, from.bundles) > 0 && PriceBundle(c, books, from.bundles, fees) == Some(from)
            && Multiple(from.bundles, lot) && from.bundles <= cap
    ensures n == |priced| ==> priced[n - 1].bundles == cap
    ensures n < |priced| ==>
              && Neighbours(vs, lot, cap, priced[n - 1].bundles, priced[n].bundles) && priced[n].bundles <= cap
              && forall d | Candidate(vs, lot, cap, d) && d >= priced[n].bundles :: Net(vs, c.bound, d) <= 0
  {
    hide Candidate, Net, PriceBundle, PricedBundle.NetMicro;
    CandidatesAreMultiples(vs, lot, cap, priced[n - 1].bundles);
    if n < |priced| {
      CandidatesAreMultiples(vs, lot, cap, priced[n].bundles);
      forall d | Candidate(vs, lot, cap, d)
        ensures d <= priced[n - 1].bundles || (d >= priced[n].bundles && Net(vs, c.bound, d) <= 0)
      {
        var i :| 0 <= i < |priced| && priced[i].bundles == d;
      }
    } else {
      EndsAreCandidates(vs, lot, cap);
      var i :| 0 <= i < |priced| && priced[i].bundles == cap;
    }
  }

  lemma NothingPays(c: Constraint, books: Books, fees: FeeBook, vs: seq<LegView>, lot: Qty, cap: Qty,
                    priced: seq<PricedBundle>, best: PricedBundle)
    requires Problem(vs, lot, cap) && Prices(c, books, fees, vs, lot, cap, priced) && best in priced
    requires forall k | 0 <= k < |priced| :: priced[k].NetMicro() <= 0
    ensures Breakeven(vs, c.bound, lot, cap, best.bundles, best.bundles)
    ensures PriceBundle(c, books, best.bundles, fees) == Some(best)
  {
    hide Candidate, Net, PriceBundle, PricedBundle.NetMicro, RoundingFree;
    CandidatesAreMultiples(vs, lot, cap, best.bundles);
    forall d | Candidate(vs, lot, cap, d)
      ensures Net(vs, c.bound, d) <= 0
    {
      var i :| 0 <= i < |priced| && priced[i].bundles == d;
    }
  }

  lemma BreakevenFrom(c: Constraint, books: Books, fees: FeeBook, vs: seq<LegView>, lot: Qty, cap: Qty,
                      priced: seq<PricedBundle>, n: nat, best: PricedBundle, last: PricedBundle)
    requires Problem(vs, lot, cap) && Prices(c, books, fees, vs, lot, cap, priced)
    requires 0 < n <= |priced| && forall k | n <= k < |priced| :: priced[k].NetMicro() <= 0
    requires priced[n - 1].bundles <= last.bundles <= cap && Multiple(last.bundles, lot)
    requires Net(vs, c.bound, last.bundles) > 0 && Net(vs, c.bound, priced[n - 1].bundles) > 0
    requires RoundingFree(vs, c.bound, lot, cap) ==>
               forall s | last.bundles < s <= cap && Multiple(s, lot) :: Net(vs, c.bound, s) <= 0
    ensures Breakeven(vs, c.bound, lot, cap, best.bundles, last.bundles)
  {
    hide Candidate, Net, PriceBundle, PricedBundle.NetMicro, RoundingFree;
    CandidatesAreMultiples(vs, lot, cap, priced[n - 1].bundles);
    assert Profitable(vs, c.bound, lot, cap);
    forall d | Candidate(vs, lot, cap, d) && Net(vs, c.bound, d) > 0
      ensures d <= last.bundles
    {
      var i :| 0 <= i < |priced| && priced[i].bundles == d;
    }
  }

  /** The bisection between the last profitable candidate and its unprofitable neighbour. */
  method Bisect(c: Constraint, books: Books, fees: FeeBook, vs: seq<LegView>, lot: Qty, cap: Qty,
                from: PricedBundle, to: Qty)
    returns (last: PricedBundle)
    requires Booked(c.legs, books) && vs == Views(c.legs, books, fees) && Problem(vs, lot, cap)
    requires PriceBundle(c, books, from.bundles, fees) == Some(from)
    requires Neighbours(vs, lot, cap, from.bundles, to) && Net(vs, c.bound, from.bundles) > 0
    requires forall d | Candidate(vs, lot, cap, d) && d >= to :: Net(vs, c.bound, d) <= 0
    ensures PriceBundle(c, books, last.bundles, fees) == Some(last)
    ensures from.bundles <= last.bundles < to && Multiple(last.bundles, lot)
    ensures Net(vs, c.bound, last.bundles) > 0
    ensures RoundingFree(vs, c.bound, lot, cap) ==>
              forall s | last.bundles < s <= cap && Multiple(s, lot) :: Net(vs, c.bound, s) <= 0
  {
    hide Candidate, Net, PriceBundle, PricedBundle.NetMicro;
    last := from;
    var lo, hi := from.bundles, to;
    CandidatesAreMultiples(vs, lot, cap, lo);
    CandidatesAreMultiples(vs, lot, cap, hi);
    while hi - lo > lot
      invariant from.bundles <= lo < hi <= to && Multiple(lo, lot) && Multiple(hi, lot)
      invariant last.bundles == lo && PriceBundle(c, books, lo, fees) == Some(last)
      invariant Net(vs, c.bound, lo) > 0
      invariant RoundingFree(vs, c.bound, lot, cap) ==> Net(vs, c.bound, hi) <= 0
      decreases hi - lo
    {
      var half := (hi - lo) / (2 * lot);
      var mid := lo + (if half == 0 then 1 else half) * lot;
      Midway(lo, hi, lot);
      PricesAt(c, books, fees, lot, cap, mid);
      var probe := PriceBundleLoop(c, books, mid, fees);
      if probe.Some? && probe.value.NetMicro() > 0 {
        lo, last := mid, probe.value;
      } else {
        hi := mid;
      }
    }
    MultiplesApart(lo, hi, lot);
    if RoundingFree(vs, c.bound, lot, cap) {
      forall s | lo < s <= cap && Multiple(s, lot)
        ensures Net(vs, c.bound, s) <= 0
      {
        MultiplesApart(lo, s, lot);
        if s <= to {
          LossPersists(vs, c.bound, lot, cap, from.bundles, to, hi, s);
        } else {
          NothingLater(vs, c.bound, lot, cap, to, s);
        }
      }
    }
  }

  lemma HalfwayIn(n: int, lot: int)
    requires lot > 0 && n >= 2 * lot
    ensures n / (2 * lot) >= 1
    ensures 0 < n / (2 * lot) * lot < n
  {
    var half := n / (2 * lot);
    assert half * (2 * lot) <= n < (half + 1) * (2 * lot);
    Cancel(1, half + 1, 2 * lot);
    Cancel(0, half, lot);
    assert half * (2 * lot) == 2 * (half * lot);
  }

  lemma Shift(a: int, k: int, lot: int)
    requires lot > 0 && Multiple(a, lot)
    ensures Multiple(a + k * lot, lot)
  {
    MultipleOf(a / lot + k, lot);
    assert (a / lot + k) * lot == a + k * lot;
  }

  /** The probe lies strictly inside, on the lot grid: the bisection always makes progress. */
  lemma Midway(lo: int, hi: int, lot: int)
    requires lot > 0 && Multiple(lo, lot) && Multiple(hi, lot) && hi - lo > lot
    ensures var half := (hi - lo) / (2 * lot);
            && half >= 1
            && lo < lo + half * lot < hi && Multiple(lo + half * lot, lot)
  {
    Shift(lo, 1, lot);
    MultiplesApart(lo + lot, hi, lot);
    HalfwayIn(hi - lo, lot);
    Shift(lo, (hi - lo) / (2 * lot), lot);
  }
}
