/** arbitrage/execution.py: walking the asks, pricing a bundle, and choosing its size. */
module Execution {
  import opened Units
  import opened OrderBooks
  import opened Fees
  import opened Fills
  import opened Relationships

  type Books = map<Ticker, Book>

  /** Buy `qty` from the asks, best price first. */
  function Walk(asks: seq<Level>, qty: Qty): seq<Fill> {
    if asks == [] || qty <= 0 then []
    else
      var take := Min(qty, asks[0].qty);
      [Fill(asks[0].price, take)] + Walk(asks[1..], qty - take)
  }

  function Unfilled(asks: seq<Level>, qty: Qty): Qty {
    if asks == [] || qty <= 0 then Max(qty, 0) else Unfilled(asks[1..], qty - Min(qty, asks[0].qty))
  }

  function DepthOf(asks: seq<Level>): Qty {
    if asks == [] then 0 else asks[0].qty + DepthOf(asks[1..])
  }

  predicate Sized(asks: seq<Level>) {
    forall i | 0 <= i < |asks| :: asks[i].qty > 0
  }

  method WalkAsks(asks: seq<Level>, qty: Qty) returns (fills: seq<Fill>, unfilled: Qty)
    ensures fills == Walk(asks, qty) && unfilled == Unfilled(asks, qty)
  {
    fills := [];
    var remaining := qty;
    var i := 0;
    assert asks[0..] == asks;
    while i < |asks|
      invariant 0 <= i <= |asks|
      invariant fills + Walk(asks[i..], remaining) == Walk(asks, qty)
      invariant Unfilled(asks[i..], remaining) == Unfilled(asks, qty)
    {
      assert asks[i..][0] == asks[i] && asks[i..][1..] == asks[i + 1..];
      if remaining <= 0 {
        break;
      }
      var take := Min(remaining, asks[i].qty);
      fills := fills + [Fill(asks[i].price, take)];
      remaining := remaining - take;
      i := i + 1;
    }
    unfilled := Max(remaining, 0);
  }

  /** The walk buys everything there is, up to the quantity asked for. */
  lemma {:induction false} WalkFills(asks: seq<Level>, qty: Qty)
    requires Sized(asks) && qty >= 0
    ensures SumQty(Walk(asks, qty)) == Min(qty, DepthOf(asks))
    ensures Unfilled(asks, qty) == qty - Min(qty, DepthOf(asks))
    ensures AllPositive(Walk(asks, qty))
    ensures DepthOf(asks) >= 0
    ensures qty > 0 && asks != [] ==> Walk(asks, qty) != [] && Walk(asks, qty)[0].price == asks[0].price
  {
    if asks != [] {
      WalkFills(asks[1..], qty - Min(qty, asks[0].qty));
      if qty > 0 {
        var rest := Walk(asks[1..], qty - Min(qty, asks[0].qty));
        assert Walk(asks, qty)[1..] == rest;
      } else {
        WalkFills(asks[1..], 0);
      }
    }
  }

  // ---------------------------------------------------------------- minimum cost

  /** Some way of taking quantities from the levels. */
  ghost predicate Takes(asks: seq<Level>, take: seq<Qty>) {
    |take| == |asks| && forall i | 0 <= i < |asks| :: 0 <= take[i] <= asks[i].qty
  }

  function TakeQty(take: seq<Qty>): Qty {
    if take == [] then 0 else take[0] + TakeQty(take[1..])
  }

  function TakeCost(asks: seq<Level>, take: seq<Qty>): int
    requires |take| == |asks|
  {
    if asks == [] then 0 else asks[0].price * take[0] + TakeCost(asks[1..], take[1..])
  }

  /** Ticks times contracts, kept whole. */
  function Costs(p: Price, q: Qty): int {
    p * q
  }

  lemma CostsSplit(p: Price, a: Qty, b: Qty)
    ensures Costs(p, a + b) == Costs(p, a) + Costs(p, b)
  {
  }

  lemma CostsOrder(p: Price, q: Price, n: Qty)
    requires p <= q && n >= 0
    ensures Costs(p, n) <= Costs(q, n)
  {
  }

  lemma FirstFill(asks: seq<Level>, q: Qty)
    requires asks != [] && q >= 0 && asks[0].qty > 0
    ensures var first := Min(q, asks[0].qty);
            SumCost(Walk(asks, q)) == Costs(asks[0].price, first) + SumCost(Walk(asks[1..], q - first))
  {
    var first := Min(q, asks[0].qty);
    var fills := Walk(asks[1..], q - first);
    if q > 0 {
      assert Walk(asks, q) == [Fill(asks[0].price, first)] + fills && Walk(asks, q)[1..] == fills;
    }
  }

  /** d more contracts cost at least d times any price no ask undercuts. */
  lemma {:induction false} WalkMarginal(asks: seq<Level>, qty: Qty, d: Qty, floor: Price)
    requires Sized(asks) && qty >= 0 && d >= 0 && qty + d <= DepthOf(asks)
    requires forall l | l in asks :: l.price >= floor
    ensures SumCost(Walk(asks, qty + d)) >= SumCost(Walk(asks, qty)) + Costs(floor, d)
  {
    hide Walk, SumCost, Costs;
    CostsSplit(floor, 0, 0);
    if asks != [] {
      var take, take' := Min(qty, asks[0].qty), Min(qty + d, asks[0].qty);
      var p, rest := asks[0].price, asks[1..];
      assert asks[0] in asks && DepthOf(asks) == asks[0].qty + DepthOf(rest);
      DepthNonNegative(rest);
      WalkMarginal(rest, qty - take, d - (take' - take), floor);
      FirstFill(asks, qty);
      FirstFill(asks, qty + d);
      CostsSplit(p, take, take' - take);
      CostsOrder(floor, p, take' - take);
      CostsSplit(floor, take' - take, d - (take' - take));
    }
  }

  lemma {:induction false} DepthNonNegative(asks: seq<Level>)
    requires Sized(asks)
    ensures DepthOf(asks) >= 0
  {
    if asks != [] {
      DepthNonNegative(asks[1..]);
    }
  }

  lemma {:induction false} TakeBounds(asks: seq<Level>, take: seq<Qty>)
    requires Sized(asks) && Takes(asks, take)
    ensures 0 <= TakeQty(take) <= DepthOf(asks)
    ensures TakeQty(take) == 0 ==> TakeCost(asks, take) == 0
  {
    if asks != [] {
      TakeBounds(asks[1..], take[1..]);
    }
  }

  /** `walk_asks` buys its quantity at the least cost any selection from the book could. */
  lemma {:induction false} WalkCheapest(asks: seq<Level>, take: seq<Qty>)
    requires Sized(asks) && Takes(asks, take)
    requires forall i, j | 0 <= i < j < |asks| :: asks[i].price <= asks[j].price
    ensures SumCost(Walk(asks, TakeQty(take))) <= TakeCost(asks, take)
  {
    TakeBounds(asks, take);
    if TakeQty(take) > 0 {
      hide Walk, SumCost, Costs;
      var p, rest := asks[0].price, asks[1..];
      WalkCheapest(rest, take[1..]);
      TakeBounds(rest, take[1..]);
      var q := TakeQty(take);
      var first := Min(q, asks[0].qty);
      forall l | l in rest
        ensures l.price >= p
      {
        var i :| 0 <= i < |rest| && rest[i] == l;
        assert asks[0].price <= asks[i + 1].price;
      }
      WalkMarginal(rest, q - first, first - take[0], p);
      FirstFill(asks, q);
      CostsSplit(p, take[0], first - take[0]);
      CostsIs(p, take[0]);
    } else {
      assert Walk(asks, 0) == [];
    }
  }

  lemma CostsIs(p: Price, q: Qty)
    ensures Costs(p, q) == p * q
  {
  }

  // ---------------------------------------------------------------- bundles

  datatype LegExecution = LegExecution(
    contract: Contract, qty: Qty, fills: seq<Fill>, cost: int, fee: int, topPrice: Price)

  datatype PricedBundle = PricedBundle(constraint: Constraint, bundles: Qty, legs: seq<LegExecution>) {
    function PayoffMicro(): int {
      constraint.bound * bundles
    }

    function CostMicro(): int {
      SumOver(legs, (l: LegExecution) => l.cost)
    }

    function FeeMicro(): int {
      SumOver(legs, (l: LegExecution) => l.fee)
    }

    function TopCostMicro(): int {
      SumOver(legs, (l: LegExecution) => l.topPrice * l.qty)
    }

    function GrossMicro(): int {
      PayoffMicro() - TopCostMicro()
    }

    function SlippageMicro(): int {
      CostMicro() - TopCostMicro()
    }

    function NetMicro(): int {
      PayoffMicro() - CostMicro() - FeeMicro()
    }
  }

  function SumOver<T>(s: seq<T>, f: T -> int): int {
    if s == [] then 0 else SumOver(s[..|s| - 1], f) + f(s[|s| - 1])
  }

  function PriceLeg(leg: Leg, book: Book, bundles: Qty, fees: FeeSchedule): Option<LegExecution> {
    var asks := book.AskLevels(leg.contract.side);
    var qty := leg.qty * bundles;
    var fills := Walk(asks, qty);
    if Unfilled(asks, qty) != 0 || fills == [] then None
    else
      Some(LegExecution(leg.contract, qty, fills, SumCost(fills), fees.OrderFee(fills, false), fills[0].price))
  }

  function PriceLegs(legs: seq<Leg>, books: Books, bundles: Qty, fees: FeeBook): (r: Option<seq<LegExecution>>)
    ensures r.Some? ==> |r.value| == |legs|
  {
    if legs == [] then Some([])
    else
      var front := PriceLegs(legs[..|legs| - 1], books, bundles, fees);
      var leg := legs[|legs| - 1];
      if front.None? || leg.contract.ticker !in books then None
      else
        var last := PriceLeg(leg, books[leg.contract.ticker], bundles, fees.For(leg.contract.ticker));
        if last.None? then None else Some(front.value + [last.value])
  }

  function PriceBundle(c: Constraint, books: Books, bundles: Qty, fees: FeeBook): Option<PricedBundle> {
    match PriceLegs(c.legs, books, bundles, fees)
    case None => None
    case Some(legs) => Some(PricedBundle(c, bundles, legs))
  }

  lemma NextLeg(legs: seq<Leg>, books: Books, bundles: Qty, fees: FeeBook, i: nat)
    requires i < |legs| && PriceLegs(legs[..i], books, bundles, fees).Some?
    ensures
      var leg, front := legs[i], PriceLegs(legs[..i], books, bundles, fees).value;
      PriceLegs(legs[..i + 1], books, bundles, fees)
      == if leg.contract.ticker !in books then None
         else
           var last := PriceLeg(leg, books[leg.contract.ticker], bundles, fees.For(leg.contract.ticker));
           if last.None? then None else Some(front + [last.value])
  {
    hide PriceLeg;
    assert legs[..i + 1][..i] == legs[..i];
  }

  method PriceBundleLoop(c: Constraint, books: Books, bundles: Qty, fees: FeeBook) returns (r: Option<PricedBundle>)
    ensures r == PriceBundle(c, books, bundles, fees)
  {
    hide PriceLegs, Walk, Unfilled, SumCost, FeeSchedule.OrderFee;
    var legs := [];
    NoLegs(books, bundles, fees);
    assert c.legs[..0] == [];
    for i := 0 to |c.legs|
      invariant PriceLegs(c.legs[..i], books, bundles, fees) == Some(legs)
    {
      NextLeg(c.legs, books, bundles, fees, i);
      var leg := c.legs[i];
      if leg.contract.ticker !in books {
        LaterLegsFail(c.legs, books, bundles, fees, i + 1);
        return None;
      }
      var asks := books[leg.contract.ticker].AskLevels(leg.contract.side);
      var fills, unfilled := WalkAsks(asks, leg.qty * bundles);
      if unfilled != 0 || fills == [] {
        LaterLegsFail(c.legs, books, bundles, fees, i + 1);
        return None;
      }
      legs := legs + [LegExecution(leg.contract, leg.qty * bundles, fills, SumCost(fills),
                                   fees.For(leg.contract.ticker).OrderFee(fills, false), fills[0].price)];
    }
    assert c.legs[..|c.legs|] == c.legs;
    return Some(PricedBundle(c, bundles, legs));
  }

  lemma NoLegs(books: Books, bundles: Qty, fees: FeeBook)
    ensures PriceLegs([], books, bundles, fees) == Some([])
  {
  }

  lemma {:induction false} LaterLegsFail(legs: seq<Leg>, books: Books, bundles: Qty, fees: FeeBook, i: nat)
    requires i <= |legs| && PriceLegs(legs[..i], books, bundles, fees).None?
    ensures PriceLegs(legs, books, bundles, fees).None?
    decreases |legs| - i
  {
    if i < |legs| {
      assert legs[..i + 1][..i] == legs[..i];
      LaterLegsFail(legs, books, bundles, fees, i + 1);
    } else {
      assert legs[..i] == legs;
    }
  }

  // ---------------------------------------------------------------- one leg, abstractly

  /** A leg as sizing sees it: contracts per bundle, the asks, and the fee schedule. */
  datatype LegView = LegView(qty: Qty, asks: seq<Level>, fee: FeeSchedule) {
    ghost predicate Valid() {
      qty >= 1 && Sized(asks) && fee.Valid()
      && forall i | 0 <= i < |asks| :: 0 < asks[i].price < PRICE_SCALE
    }

    function Fills(s: Qty): seq<Fill> {
      Walk(asks, qty * s)
    }

    /** The book holds s bundles of this leg. */
    predicate Deep(s: Qty) {
      qty * s <= DepthOf(asks)
    }

    /** What s bundles of this leg are charged. */
    function Spend(s: Qty): int {
      SumCost(Fills(s)) + fee.OrderFee(Fills(s), false)
    }

    /** The same without rounding. */
    ghost function ExactSpend(s: Qty): real {
      SumCost(Fills(s)) as real + fee.ExactTotal(Fills(s), false)
    }
  }

  function View(leg: Leg, books: Books, fees: FeeBook): LegView
    requires leg.contract.ticker in books
  {
    LegView(leg.qty, books[leg.contract.ticker].AskLevels(leg.contract.side), fees.For(leg.contract.ticker))
  }

  ghost predicate Booked(legs: seq<Leg>, books: Books) {
    forall i | 0 <= i < |legs| :: legs[i].contract.ticker in books
  }

  function Views(legs: seq<Leg>, books: Books, fees: FeeBook): seq<LegView>
    requires forall i | 0 <= i < |legs| :: legs[i].contract.ticker in books
  {
    seq(|legs|, i requires 0 <= i < |legs| => View(legs[i], books, fees))
  }

  ghost predicate AllValid(vs: seq<LegView>) {
    forall i | 0 <= i < |vs| :: vs[i].Valid()
  }

  /** Every leg has the depth for s bundles. */
  ghost predicate Deep(vs: seq<LegView>, s: Qty) {
    forall i | 0 <= i < |vs| :: vs[i].Deep(s)
  }

  function Spend(vs: seq<LegView>, s: Qty): int {
    if vs == [] then 0 else Spend(vs[..|vs| - 1], s) + vs[|vs| - 1].Spend(s)
  }

  ghost function ExactSpend(vs: seq<LegView>, s: Qty): real {
    if vs == [] then 0.0 else ExactSpend(vs[..|vs| - 1], s) + vs[|vs| - 1].ExactSpend(s)
  }

  function Net(vs: seq<LegView>, bound: Price, s: Qty): int {
    bound * s - Spend(vs, s)
  }

  ghost function ExactNet(vs: seq<LegView>, bound: Price, s: Qty): real {
    (bound * s) as real - ExactSpend(vs, s)
  }

  lemma ViewsValid(legs: seq<Leg>, books: Books, fees: FeeBook)
    requires Booked(legs, books) && fees.Valid()
    requires forall i | 0 <= i < |legs| :: legs[i].qty >= 1
    requires forall t | t in books :: books[t].Valid()
    ensures AllValid(Views(legs, books, fees))
  {
    forall i | 0 <= i < |legs|
      ensures View(legs[i], books, fees).Valid()
    {
      var b, side := books[legs[i].contract.ticker], legs[i].contract.side;
      AsksSorted(b, side);
      assert forall k | 0 <= k < |b.AskLevels(side)| :: b.AskLevels(side)[k] in b.AskLevels(side);
    }
  }

  /** A bundle prices exactly when the books hold every leg's quantity, and then at the views' net. */
  lemma PricedAsViewed(c: Constraint, books: Books, s: Qty, fees: FeeBook)
    requires Booked(c.legs, books) && s > 0 && AllValid(Views(c.legs, books, fees))
    ensures PriceBundle(c, books, s, fees).Some? <==> Deep(Views(c.legs, books, fees), s)
    ensures PriceBundle(c, books, s, fees).Some? ==>
              var p := PriceBundle(c, books, s, fees).value;
              p.bundles == s && p.NetMicro() == Net(Views(c.legs, books, fees), c.bound, s)
  {
    LegsAsViewed(c.legs, books, s, fees);
  }

  /** What priced legs come to. */
  function Charged(ls: seq<LegExecution>): int {
    SumOver(ls, (l: LegExecution) => l.cost) + SumOver(ls, (l: LegExecution) => l.fee)
  }

  lemma ChargedMore(ls: seq<LegExecution>, l: LegExecution)
    ensures Charged([]) == 0 && Charged(ls + [l]) == Charged(ls) + l.cost + l.fee
  {
    assert (ls + [l])[..|ls|] == ls;
  }

  lemma DeepMore(vs: seq<LegView>, s: Qty)
    requires vs != []
    ensures Deep(vs, s) <==> Deep(vs[..|vs| - 1], s) && vs[|vs| - 1].Deep(s)
  {
    hide LegView.Deep;
  }

  lemma {:induction false} LegsAsViewed(legs: seq<Leg>, books: Books, s: Qty, fees: FeeBook)
    requires Booked(legs, books) && s > 0 && AllValid(Views(legs, books, fees))
    ensures PriceLegs(legs, books, s, fees).Some? <==> Deep(Views(legs, books, fees), s)
    ensures PriceLegs(legs, books, s, fees).Some? ==>
              Charged(PriceLegs(legs, books, s, fees).value) == Spend(Views(legs, books, fees), s)
  {
    hide PriceLeg, View, LegView.Spend, LegView.Deep, LegView.Valid, Charged, Deep;
    if legs != [] {
      var n := |legs| - 1;
      var vs := Views(legs, books, fees);
      assert vs[..n] == Views(legs[..n], books, fees) && vs[n] == View(legs[n], books, fees);
      LegsAsViewed(legs[..n], books, s, fees);
      LegAsViewed(legs[n], books, s, fees);
      DeepMore(vs, s);
      var front := PriceLegs(legs[..n], books, s, fees);
      var last := PriceLeg(legs[n], books[legs[n].contract.ticker], s, fees.For(legs[n].contract.ticker));
      if front.Some? && last.Some? {
        ChargedMore(front.value, last.value);
      }
    } else {
      ChargedMore([], LegExecution(Contract("", YES), 0, [], 0, 0, 0));
      NoLegsDeep(s);
      assert Views(legs, books, fees) == [];
    }
  }

  lemma NoLegsDeep(s: Qty)
    ensures Deep([], s)
  {
  }

  lemma LegAsViewed(leg: Leg, books: Books, s: Qty, fees: FeeBook)
    requires leg.contract.ticker in books && s > 0 && View(leg, books, fees).Valid()
    ensures var v, p := View(leg, books, fees),
                        PriceLeg(leg, books[leg.contract.ticker], s, fees.For(leg.contract.ticker));
            && (p.Some? <==> v.Deep(s))
            && (p.Some? ==> p.value.cost + p.value.fee == v.Spend(s))
  {
    var v := View(leg, books, fees);
    PositiveProduct(v.qty, s);
    WalkFills(v.asks, v.qty * s);
  }

  lemma PositiveProduct(a: int, b: int)
    requires a >= 1 && b > 0
    ensures a * b > 0
  {
  }

  // ---------------------------------------------------------------- rounding

  function FillCount(vs: seq<LegView>, s: Qty): nat {
    if vs == [] then 0 else FillCount(vs[..|vs| - 1], s) + |vs[|vs| - 1].Fills(s)|
  }

  lemma {:induction false} WalkSane(asks: seq<Level>, qty: Qty)
    requires Sized(asks) && forall i | 0 <= i < |asks| :: 0 < asks[i].price < PRICE_SCALE
    ensures Sane(Walk(asks, qty))
  {
    if asks != [] && qty > 0 {
      WalkSane(asks[1..], qty - Min(qty, asks[0].qty));
    }
  }

  ghost predicate SixDecimals(vs: seq<LegView>) {
    forall i | 0 <= i < |vs| :: vs[i].fee.rounding.EXACT_6DP?
  }

  /** Rounding only costs money, and with per-fill micro-dollar ceilings less than one a fill. */
  lemma {:induction false} RoundingCost(vs: seq<LegView>, s: Qty)
    requires AllValid(vs) && s > 0 && Deep(vs, s)
    ensures ExactSpend(vs, s) <= Spend(vs, s) as real
    ensures SixDecimals(vs) ==> Spend(vs, s) as real <= ExactSpend(vs, s) + FillCount(vs, s) as real
    ensures SixDecimals(vs) && vs != [] ==> (Spend(vs, s) as real) < ExactSpend(vs, s) + FillCount(vs, s) as real
  {
    if vs != [] {
      var n := |vs| - 1;
      RoundingCost(vs[..n], s);
      var v := vs[n];
      WalkSane(v.asks, v.qty * s);
      hide Walk, FeeSchedule.OrderFee, FeeSchedule.ExactTotal, SumCost;
      OrderFeeBounds(v.fee, v.Fills(s), false);
      PositiveProduct(v.qty, s);
      WalkFills(v.asks, v.qty * s);
      assert v.Fills(s) != [];
    }
  }

  /** Schedules that charge nothing. */
  ghost predicate FeeFree(vs: seq<LegView>) {
    forall i | 0 <= i < |vs| :: vs[i].fee.multiplier == 0.0
  }

  lemma {:induction false} FeeFreeIsExact(vs: seq<LegView>, s: Qty)
    requires FeeFree(vs)
    ensures ExactSpend(vs, s) == Spend(vs, s) as real
  {
    if vs != [] {
      FeeFreeIsExact(vs[..|vs| - 1], s);
      FreeSchedule(vs[|vs| - 1].fee, vs[|vs| - 1].Fills(s), false);
    }
  }
}
