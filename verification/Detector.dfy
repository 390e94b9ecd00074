/** arbitrage/detector.py and arbitrage/opportunity.py: from violated constraints to classified,
    sized opportunities with a guaranteed settlement. */
module Detector {
  import opened Units
  import opened Sorting
  import opened OrderBooks
  import opened Fees
  import opened Fills
  import opened Relationships
  import opened LadderScan
  import opened Execution
  import opened Sizing

  datatype Classification = THEORETICAL | UNPROFITABLE | PARTIAL | EXECUTABLE

  datatype RelationSpec = RelationSpec(relation: Relation, level: nat)

  datatype DetectorParams = DetectorParams(
    fees: FeeBook, lot: Qty, minQty: Qty, target: Qty, maxSize: Option<Qty>, minLevel: nat)

  datatype Opportunity = Opportunity(
    spec: RelationSpec, constraint: Constraint, cls: Classification, topMargin: Price, topQty: Qty,
    liquid: bool, feeOk: bool, depthOk: bool, priced: Option<PricedBundle>, breakeven: Qty, target: Qty)

  function AskOf(books: Books): AskFn {
    (c: Contract) => if c.ticker in books then books[c.ticker].BestAsk(c.side) else None
  }

  // ---------------------------------------------------------------- settlement

  function LegPays(l: LegExecution, w: World): int {
    (if w(l.contract.ticker) == l.contract.side.YES? then PRICE_SCALE else 0) * l.qty
  }

  /** Realised profit, fees included, if the markets settle as w. */
  function SettleMicro(p: PricedBundle, w: World): int {
    SumOver(p.legs, (l: LegExecution) => LegPays(l, w)) - p.CostMicro() - p.FeeMicro()
  }

  method SettleLoop(p: PricedBundle, w: World) returns (pnl: int)
    ensures pnl == SettleMicro(p, w)
  {
    var payoff := 0;
    for i := 0 to |p.legs|
      invariant payoff == SumOver(p.legs[..i], (l: LegExecution) => LegPays(l, w))
    {
      assert p.legs[..i + 1][..i] == p.legs[..i];
      var yes := if w(p.legs[i].contract.ticker) then 1 else 0;
      var wins := if p.legs[i].contract.side == YES then yes else 1 - yes;
      payoff := payoff + wins * PRICE_SCALE * p.legs[i].qty;
    }
    assert p.legs[..|p.legs|] == p.legs;
    return payoff - p.CostMicro() - p.FeeMicro();
  }

  function Times(s: int, x: int): int {
    s * x
  }

  lemma TimesAdd(s: int, a: int, b: int)
    ensures Times(s, a + b) == Times(s, a) + Times(s, b) && Times(s, 0) == 0
  {
  }

  lemma OneLegPays(leg: Leg, l: LegExecution, s: Qty, w: World)
    requires l.contract == leg.contract && l.qty == leg.qty * s
    ensures LegPays(l, w) == Times(s, leg.qty * Payoff(leg.contract.side, Ticks(w)(leg.contract.ticker)))
  {
    var unit := Payoff(leg.contract.side, Ticks(w)(leg.contract.ticker));
    assert LegPays(l, w) == unit * (leg.qty * s);
    assert unit * (leg.qty * s) == s * (leg.qty * unit);
  }

  lemma {:induction false} LegsPayBundle(legs: seq<Leg>, books: Books, s: Qty, fees: FeeBook, w: World)
    requires PriceLegs(legs, books, s, fees).Some?
    ensures SumOver(PriceLegs(legs, books, s, fees).value, (l: LegExecution) => LegPays(l, w))
         == Times(s, BundlePayoff(legs, Ticks(w)))
  {
    hide Times, PriceLeg, LegPays, Payoff;
    if legs == [] {
      TimesAdd(s, 0, 0);
    } else {
      var n := |legs| - 1;
      var leg := legs[n];
      LegsPayBundle(legs[..n], books, s, fees, w);
      var front := PriceLegs(legs[..n], books, s, fees).value;
      var last := PriceLeg(leg, books[leg.contract.ticker], s, fees.For(leg.contract.ticker)).value;
      assert (front + [last])[..n] == front;
      PricedLegShape(leg, books[leg.contract.ticker], s, fees.For(leg.contract.ticker));
      OneLegPays(leg, last, s, w);
      TimesAdd(s, BundlePayoff(legs[..n], Ticks(w)), leg.qty * Payoff(leg.contract.side, Ticks(w)(leg.contract.ticker)));
    }
  }

  lemma PricedLegShape(leg: Leg, book: Book, s: Qty, fee: FeeSchedule)
    requires PriceLeg(leg, book, s, fee).Some?
    ensures PriceLeg(leg, book, s, fee).value.contract == leg.contract
    ensures PriceLeg(leg, book, s, fee).value.qty == leg.qty * s
  {
  }

  /** The guarantee: in every admissible world the bundle settles at its net edge or better. */
  lemma SettlesAtLeastNet(r: Relation, c: Constraint, books: Books, s: Qty, fees: FeeBook, w: World)
    requires r.Valid() && c in r.Constraints() && r.Admissible(w) && s >= 0
    requires PriceBundle(c, books, s, fees).Some?
    ensures var p := PriceBundle(c, books, s, fees).value; SettleMicro(p, w) >= p.NetMicro()
  {
    hide Relation.Constraints, Relation.Admissible, BundlePayoff, SumOver;
    Sound(r, w, c);
    LegsPayBundle(c.legs, books, s, fees, w);
    Scaled(s, c.bound, c.WorldPayoff(w));
  }

  lemma Scaled(s: int, a: int, b: int)
    requires s >= 0 && a <= b
    ensures a * s <= s * b
  {
  }

  /** ... and in some admissible world at exactly its net edge: the floor is the best possible. */
  lemma SettlesAtNetSomewhere(r: Relation, c: Constraint, books: Books, s: Qty, fees: FeeBook)
    requires r.Valid() && c in r.Constraints() && PriceBundle(c, books, s, fees).Some?
    ensures var p := PriceBundle(c, books, s, fees).value;
            exists w: World :: r.Admissible(w) && SettleMicro(p, w) == p.NetMicro()
  {
    hide Relation.Constraints, Relation.Admissible, BundlePayoff, SumOver;
    Tight(r, c);
    var w: World :| Attains(r, c, w);
    LegsPayBundle(c.legs, books, s, fees, w);
    assert SettleMicro(PriceBundle(c, books, s, fees).value, w) == PriceBundle(c, books, s, fees).value.NetMicro();
  }

  // ---------------------------------------------------------------- the accounting of an edge

  ghost predicate BooksValid(books: Books) {
    forall t | t in books :: books[t].Valid()
  }

  /** A leg at its best ask, and what walking past it costs more. */
  lemma LegDecomposed(leg: Leg, book: Book, s: Qty, fee: FeeSchedule)
    requires book.Valid() && fee.Valid() && leg.qty >= 1 && s > 0 && PriceLeg(leg, book, s, fee).Some?
    ensures var l := PriceLeg(leg, book, s, fee).value;
            && book.BestAsk(leg.contract.side).Some?
            && l.topPrice * l.qty == Times(s, leg.qty * book.BestAsk(leg.contract.side).value.price)
            && l.topPrice * l.qty <= l.cost && l.fee >= 0
  {
    var asks, qty := book.AskLevels(leg.contract.side), leg.qty * s;
    PositiveQty(leg.qty, s);
    AsksSorted(book, leg.contract.side);
    hide Book.AskLevels, Book.BestAsk, Book.Valid, FeeSchedule.OrderFee, Walk, SumCost, DepthOf, Times;
    PricedDeep(leg, book, s, fee);
    WalkSane(asks, qty);
    OrderFeeBounds(fee, Walk(asks, qty), false);
    FirstIsBest(asks, qty);
    TopTimes(asks[0].price, leg.qty, s);
  }

  lemma PricedDeep(leg: Leg, book: Book, s: Qty, fee: FeeSchedule)
    requires book.Valid() && leg.qty * s > 0 && PriceLeg(leg, book, s, fee).Some?
    ensures var asks := book.AskLevels(leg.contract.side);
            Sized(asks) && asks != [] && leg.qty * s <= DepthOf(asks)
  {
    var asks := book.AskLevels(leg.contract.side);
    AsksSorted(book, leg.contract.side);
    hide Book.AskLevels, Book.Valid, FeeSchedule.OrderFee, SumCost;
    assert Sized(asks);
    WalkFills(asks, leg.qty * s);
  }

  lemma TopTimes(price: Price, q: Qty, s: Qty)
    ensures price * (q * s) == Times(s, q * price)
  {
    assert price * (q * s) == s * (q * price);
  }

  lemma PositiveQty(q: Qty, s: Qty)
    requires q >= 1 && s > 0
    ensures q * s > 0
  {
  }

  lemma FirstIsBest(asks: seq<Level>, qty: Qty)
    requires Sized(asks) && asks != [] && 0 < qty <= DepthOf(asks)
    requires forall i, j | 0 <= i < j < |asks| :: asks[i].price < asks[j].price
    ensures Walk(asks, qty) != [] && Walk(asks, qty)[0].price == asks[0].price
    ensures asks[0].price * qty <= SumCost(Walk(asks, qty))
  {
    forall l | l in asks
      ensures l.price >= asks[0].price
    {
      var i :| 0 <= i < |asks| && asks[i] == l;
    }
    WalkMarginal(asks, 0, qty, asks[0].price);
    CostsIs(asks[0].price, qty);
  }

  lemma {:induction false} LegsDecomposed(legs: seq<Leg>, books: Books, s: Qty, fees: FeeBook)
    requires BooksValid(books) && fees.Valid() && s > 0 && (forall i | 0 <= i < |legs| :: legs[i].qty >= 1)
    requires PriceLegs(legs, books, s, fees).Some?
    ensures
      var priced := PriceLegs(legs, books, s, fees).value;
      && (forall i | 0 <= i < |legs| :: AskOf(books)(legs[i].contract).Some?)
      && SumOver(priced, (l: LegExecution) => l.topPrice * l.qty) == Times(s, TopCost(legs, AskOf(books)))
      && SumOver(priced, (l: LegExecution) => l.topPrice * l.qty) <= SumOver(priced, (l: LegExecution) => l.cost)
      && SumOver(priced, (l: LegExecution) => l.fee) >= 0
  {
    hide Times, PriceLeg, Book.BestAsk, Book.Valid;
    if legs == [] {
      TimesAdd(s, 0, 0);
    } else {
      var n := |legs| - 1;
      var leg := legs[n];
      LegsDecomposed(legs[..n], books, s, fees);
      var front := PriceLegs(legs[..n], books, s, fees).value;
      var last := PriceLeg(leg, books[leg.contract.ticker], s, fees.For(leg.contract.ticker)).value;
      assert (front + [last])[..n] == front;
      assert forall i | 0 <= i < n :: legs[..n][i] == legs[i];
      LegDecomposed(leg, books[leg.contract.ticker], s, fees.For(leg.contract.ticker));
      TimesAdd(s, TopCost(legs[..n], AskOf(books)), leg.qty * AskOf(books)(leg.contract).value.price);
    }
  }

  /** The net edge, decomposed: what the top of the book promised for that many bundles, less slippage
      and fees, neither of which is ever negative. */
  lemma NetDecomposed(c: Constraint, books: Books, s: Qty, fees: FeeBook)
    requires c.Valid() && BooksValid(books) && fees.Valid() && s > 0 && PriceBundle(c, books, s, fees).Some?
    ensures
      var p, check := PriceBundle(c, books, s, fees).value, c.Check(AskOf(books));
      && check.Some? && p.GrossMicro() == check.value.margin * s
      && p.SlippageMicro() >= 0 && p.FeeMicro() >= 0
      && p.NetMicro() == p.GrossMicro() - p.SlippageMicro() - p.FeeMicro()
  {
    hide Book.BestAsk, Book.Valid, PriceLegs, TopCost;
    LegsDecomposed(c.legs, books, s, fees);
    assert c.bound * s - Times(s, TopCost(c.legs, AskOf(books))) == (c.bound - TopCost(c.legs, AskOf(books))) * s;
  }

  // ---------------------------------------------------------------- classification

  ghost predicate Sane(books: Books, params: DetectorParams) {
    && params.lot > 0 && params.fees.Valid() && forall t | t in books :: books[t].Valid()
  }

  ghost predicate Guaranteed(r: Relation, p: PricedBundle) {
    p.NetMicro() > 0 && forall w: World | r.Admissible(w) :: SettleMicro(p, w) >= p.NetMicro()
  }

  /** No size of the bundle pays: none at all where rounding changes no fee; with per-fill micro-dollar
      ceilings none by as much as the fills of the size that is best before rounding; and whatever the
      rounding no candidate size. */
  ghost predicate NothingPays(vs: seq<LegView>, bound: Price, lot: Qty, cap: Qty)
    requires Problem(vs, lot, cap)
  {
    && !Profitable(vs, bound, lot, cap)
    && (RoundingFree(vs, bound, lot, cap) ==> forall s | lot <= s <= cap && Multiple(s, lot) :: Net(vs, bound, s) <= 0)
    && (SixDecimals(vs) ==>
          forall x, s | ExactOptimal(vs, bound, lot, cap, x) && lot <= s <= cap && Multiple(s, lot) ::
            Net(vs, bound, s) < FillCount(vs, x))
  }

  ghost predicate NoProfit(c: Constraint, books: Books, params: DetectorParams)
    requires Sane(books, params) && c.Valid()
  {
    var deepest := Deepest(c, books, params.fees, params.lot, params.maxSize);
    deepest >= params.lot ==>
      && Booked(c.legs, books) && Problem(Views(c.legs, books, params.fees), params.lot, deepest)
      && NothingPays(Views(c.legs, books, params.fees), c.bound, params.lot, deepest)
  }

  ghost predicate Classified(op: Opportunity, books: Books, params: DetectorParams)
    requires Sane(books, params) && op.constraint.Valid()
  {
    && op.target == params.target && (op.liquid <==> op.topQty >= params.minQty)
    && (op.feeOk <==> op.liquid && PaysSmall(op.constraint, books, params))
    && (op.depthOk <==> op.cls.PARTIAL? || op.cls.EXECUTABLE?)
    && match op.cls
       case THEORETICAL => !op.liquid && op.priced.None? && op.breakeven == 0
       case UNPROFITABLE =>
         && op.liquid && NoProfit(op.constraint, books, params)
         && op.priced == PriceBundle(op.constraint, books, params.minQty, params.fees) && op.breakeven == 0
       case _ =>
         && op.liquid && op.priced.Some? && Guaranteed(op.spec.relation, op.priced.value)
         && BestSized(op.constraint, books, params, op.priced.value, op.breakeven)
         && (op.cls.EXECUTABLE? <==> op.priced.value.bundles >= params.target)
  }

  /** The smallest size worth trading is profitable. */
  predicate PaysSmall(c: Constraint, books: Books, params: DetectorParams) {
    var p := PriceBundle(c, books, params.minQty, params.fees);
    p.Some? && p.value.NetMicro() > 0
  }

  /** The bundle is the best candidate up to the depth and the caller's cap, priced on the books, and the
      break-even the one that goes with it. */
  ghost predicate BestSized(c: Constraint, books: Books, params: DetectorParams, p: PricedBundle, breakeven: Qty)
    requires Sane(books, params) && c.Valid()
  {
    Booked(c.legs, books) &&
    var vs, d := Views(c.legs, books, params.fees), Deepest(c, books, params.fees, params.lot, params.maxSize);
    && Problem(vs, params.lot, d)
    && PriceBundle(c, books, p.bundles, params.fees) == Some(p)
    && BestCandidate(vs, c.bound, params.lot, d, p.bundles)
    && Breakeven(vs, c.bound, params.lot, d, p.bundles, breakeven)
  }

  /** No size the depth and the cap allow would have netted more than a reported one where rounding changes
      no fee, nor as much more as the fills of the size best before rounding under per-fill micro-dollar
      ceilings; and where rounding changes no fee nothing beyond the reported break-even pays. */
  lemma ReportedSizeIsBest(op: Opportunity, books: Books, params: DetectorParams, s: Qty)
    requires Sane(books, params) && op.constraint.Valid() && Classified(op, books, params)
    requires op.cls.PARTIAL? || op.cls.EXECUTABLE?
    requires params.lot <= s <= Deepest(op.constraint, books, params.fees, params.lot, params.maxSize)
    requires Multiple(s, params.lot)
    ensures Booked(op.constraint.legs, books)
    ensures
      var c, d := op.constraint, Deepest(op.constraint, books, params.fees, params.lot, params.maxSize);
      var vs, net := Views(c.legs, books, params.fees), op.priced.value.NetMicro();
      && Problem(vs, params.lot, d)
      && (RoundingFree(vs, c.bound, params.lot, d) ==>
            Net(vs, c.bound, s) <= net && (s > op.breakeven ==> Net(vs, c.bound, s) <= 0))
      && (SixDecimals(vs) ==>
            forall x | ExactOptimal(vs, c.bound, params.lot, d, x) :: Net(vs, c.bound, s) < net + FillCount(vs, x))
  {
    var c, d := op.constraint, Deepest(op.constraint, books, params.fees, params.lot, params.maxSize);
    var vs, best := Views(c.legs, books, params.fees), op.priced.value.bundles;
    hide Candidate, Net, PriceBundle, RoundingFree, FillCount, Deepest, SixDecimals, ExactOptimal;
    assert PriceBundle(c, books, best, params.fees) == op.priced;
    SizedNets(c, books, params, best, d);
    assert Profitable(vs, c.bound, params.lot, d);
    hide Problem, BestCandidate, Breakeven;
    if RoundingFree(vs, c.bound, params.lot, d) {
      BestIsBest(vs, c.bound, params.lot, d, best, s);
    }
    if SixDecimals(vs) {
      forall x | ExactOptimal(vs, c.bound, params.lot, d, x)
        ensures Net(vs, c.bound, s) < op.priced.value.NetMicro() + FillCount(vs, x)
      {
        BestWithinFills(vs, c.bound, params.lot, d, best, x, s);
      }
    }
  }

  lemma SizedNets(c: Constraint, books: Books, params: DetectorParams, best: Qty, d: Qty)
    requires Sane(books, params) && c.Valid() && Booked(c.legs, books)
    requires Problem(Views(c.legs, books, params.fees), params.lot, d)
    requires BestCandidate(Views(c.legs, books, params.fees), c.bound, params.lot, d, best)
    ensures PriceBundle(c, books, best, params.fees).Some?
    ensures PriceBundle(c, books, best, params.fees).value.NetMicro() == Net(Views(c.legs, books, params.fees), c.bound, best)
    ensures Views(c.legs, books, params.fees) != []
  {
    hide Candidate, Net, PricedBundle.NetMicro, PriceBundle;
    CandidatesAreMultiples(Views(c.legs, books, params.fees), params.lot, d, best);
    PricesAt(c, books, params.fees, params.lot, d, best);
  }

  method Evaluate(spec: RelationSpec, c: Constraint, chk: Priced, books: Books, params: DetectorParams)
    returns (op: Opportunity)
    requires Sane(books, params) && spec.relation.Valid() && c in spec.relation.Constraints() && c.Valid()
    ensures op.spec == spec && op.constraint == c && op.topMargin == chk.margin && op.topQty == chk.topQty
    ensures Classified(op, books, params)
  {
    hide Relation.Constraints, Relation.Valid, Deepest, Problem, Optimized, Profitable, PriceBundle, BestSized, NothingPays;
    if chk.topQty < params.minQty {
      return Opportunity(spec, c, THEORETICAL, chk.margin, chk.topQty, false, false, false, None, 0, params.target);
    }
    var top := PriceBundleLoop(c, books, params.minQty, params.fees);
    var feeOk := top.Some? && top.value.NetMicro() > 0;
    var sized := Optimize(c, books, params.fees, params.lot, params.maxSize);
    if sized.None? || sized.value.best.NetMicro() <= 0 {
      if sized.Some? {
        BestUnprofitable(c, books, params, sized.value);
      }
      return Opportunity(spec, c, UNPROFITABLE, chk.margin, chk.topQty, true, feeOk, false, top, 0, params.target);
    }
    var best := sized.value.best;
    BestGuaranteed(spec.relation, c, books, params, sized.value);
    OptimizedIsBest(c, books, params, sized.value);
    return Opportunity(spec, c, if best.bundles >= params.target then EXECUTABLE else PARTIAL,
                       chk.margin, chk.topQty, true, feeOk, true, Some(best),
                       sized.value.breakeven.bundles, params.target);
  }

  lemma BestUnprofitable(c: Constraint, books: Books, params: DetectorParams, r: SizeResult)
    requires Sane(books, params) && c.Valid() && Booked(c.legs, books)
    requires var d := Deepest(c, books, params.fees, params.lot, params.maxSize);
             && Problem(Views(c.legs, books, params.fees), params.lot, d)
             && Optimized(c, books, params.fees, params.lot, d, r)
    requires r.best.NetMicro() <= 0
    ensures NoProfit(c, books, params)
  {
    hide Candidate, Net, PricedBundle.NetMicro, PriceBundle, Breakeven, Problem, BestCandidate, NothingPays;
    var d := Deepest(c, books, params.fees, params.lot, params.maxSize);
    var vs := Views(c.legs, books, params.fees);
    BestNets(c, books, params, r, d);
    BestPaysNothing(vs, c.bound, params.lot, d, r.best.bundles);
  }

  lemma BestNets(c: Constraint, books: Books, params: DetectorParams, r: SizeResult, d: Qty)
    requires Sane(books, params) && c.Valid() && Booked(c.legs, books)
    requires Problem(Views(c.legs, books, params.fees), params.lot, d)
    requires Optimized(c, books, params.fees, params.lot, d, r)
    ensures BestCandidate(Views(c.legs, books, params.fees), c.bound, params.lot, d, r.best.bundles)
    ensures r.best.NetMicro() == Net(Views(c.legs, books, params.fees), c.bound, r.best.bundles)
    ensures Views(c.legs, books, params.fees) != []
  {
    hide Candidate, Net, PricedBundle.NetMicro, PriceBundle, Breakeven;
    CandidatesAreMultiples(Views(c.legs, books, params.fees), params.lot, d, r.best.bundles);
    PricesAt(c, books, params.fees, params.lot, d, r.best.bundles);
  }

  lemma BestPaysNothing(vs: seq<LegView>, bound: Price, lot: Qty, cap: Qty, best: Qty)
    requires Problem(vs, lot, cap) && vs != [] && BestCandidate(vs, bound, lot, cap, best) && Net(vs, bound, best) <= 0
    ensures NothingPays(vs, bound, lot, cap)
  {
    assert !Profitable(vs, bound, lot, cap) by { hide Candidate, Net, RoundingFree, FillCount; }
    hide Candidate, Net, RoundingFree, FillCount, Problem, BestCandidate, ExactOptimal, SixDecimals;
    if RoundingFree(vs, bound, lot, cap) {
      forall s | lot <= s <= cap && Multiple(s, lot)
        ensures Net(vs, bound, s) <= 0
      {
        BestIsBest(vs, bound, lot, cap, best, s);
      }
    }
    if SixDecimals(vs) {
      forall x, s | ExactOptimal(vs, bound, lot, cap, x) && lot <= s <= cap && Multiple(s, lot)
        ensures Net(vs, bound, s) < FillCount(vs, x)
      {
        BestWithinFills(vs, bound, lot, cap, best, x, s);
      }
    }
  }

  lemma OptimizedIsBest(c: Constraint, books: Books, params: DetectorParams, r: SizeResult)
    requires Sane(books, params) && c.Valid() && Booked(c.legs, books)
    requires var d := Deepest(c, books, params.fees, params.lot, params.maxSize);
             && Problem(Views(c.legs, books, params.fees), params.lot, d)
             && Optimized(c, books, params.fees, params.lot, d, r)
    ensures BestSized(c, books, params, r.best, r.breakeven.bundles)
  {
    hide Deepest, Problem, BestCandidate, Breakeven, PriceBundle;
  }

  lemma BestGuaranteed(rel: Relation, c: Constraint, books: Books, params: DetectorParams, r: SizeResult)
    requires Sane(books, params) && rel.Valid() && c in rel.Constraints() && c.Valid() && Booked(c.legs, books)
    requires var d := Deepest(c, books, params.fees, params.lot, params.maxSize);
             && Problem(Views(c.legs, books, params.fees), params.lot, d)
             && Optimized(c, books, params.fees, params.lot, d, r)
    requires r.best.NetMicro() > 0
    ensures Guaranteed(rel, r.best)
  {
    hide Candidate, Net, PricedBundle.NetMicro, PriceBundle, SettleMicro, Relation.Constraints;
    var d := Deepest(c, books, params.fees, params.lot, params.maxSize);
    CandidatesAreMultiples(Views(c.legs, books, params.fees), params.lot, d, r.best.bundles);
    forall w: World | rel.Admissible(w)
      ensures SettleMicro(r.best, w) >= r.best.NetMicro()
    {
      SettlesAtLeastNet(rel, c, books, r.best.bundles, params.fees, w);
    }
  }

  // ---------------------------------------------------------------- identity of a trade

  /** The dedupe key: the legs, in any order, and the bound. */
  datatype Key = Key(legs: multiset<Leg>, bound: Price)

  function KeyOf(c: Constraint): Key {
    Key(multiset(c.legs), c.bound)
  }

  /** Two constraints have one key exactly if they buy the same legs, in whatever order, for the same bound. */
  lemma KeyIsTrade(c: Constraint, d: Constraint)
    ensures KeyOf(c) == KeyOf(d) <==> multiset(c.legs) == multiset(d.legs) && c.bound == d.bound
  {
  }

  function Without(legs: seq<Leg>, i: nat): (r: seq<Leg>)
    requires i < |legs|
    ensures |r| == |legs| - 1
    ensures forall k | 0 <= k < |r| :: r[k] in legs
  {
    legs[..i] + legs[i + 1..]
  }

  ghost predicate AllQuoted(legs: seq<Leg>, ask: AskFn) {
    forall l | l in legs :: ask(l.contract).Some?
  }

  lemma {:induction false} CostOfRest(legs: seq<Leg>, ask: AskFn, i: nat)
    requires i < |legs| && AllQuoted(legs, ask)
    ensures AllQuoted(Without(legs, i), ask)
    ensures TopCost(legs, ask)
         == legs[i].qty * ask(legs[i].contract).value.price + TopCost(Without(legs, i), ask)
  {
    var n := |legs| - 1;
    if i == n {
      assert Without(legs, i) == legs[..n];
    } else {
      CostOfRest(legs[..n], ask, i);
      WithoutFront(legs, i);
    }
  }

  lemma WithoutFront(legs: seq<Leg>, i: nat)
    requires i < |legs| - 1
    ensures Without(legs, i)[..|legs| - 2] == Without(legs[..|legs| - 1], i)
    ensures Without(legs, i)[|legs| - 2] == legs[|legs| - 1]
  {
  }

  lemma TakeOne(legs: seq<Leg>, l: Leg) returns (i: nat)
    requires l in multiset(legs)
    ensures i < |legs| && legs[i] == l && multiset(Without(legs, i)) == multiset(legs) - multiset{l}
  {
    assert l in legs;
    i :| 0 <= i < |legs| && legs[i] == l;
    assert legs == legs[..i] + [legs[i]] + legs[i + 1..];
  }

  lemma SameLegsQuoted(a: seq<Leg>, b: seq<Leg>, ask: AskFn)
    requires multiset(a) == multiset(b) && AllQuoted(a, ask)
    ensures AllQuoted(b, ask)
  {
    forall l | l in b
      ensures ask(l.contract).Some?
    {
      assert l in multiset(b);
      assert l in a;
    }
  }

  lemma {:induction false} CostAnyOrder(a: seq<Leg>, b: seq<Leg>, ask: AskFn)
    requires multiset(a) == multiset(b) && AllQuoted(a, ask)
    ensures AllQuoted(b, ask) && TopCost(a, ask) == TopCost(b, ask)
  {
    SameLegsQuoted(a, b, ask);
    if a == [] {
      assert |multiset(b)| == 0;
    } else {
      hide TopCost;
      var n := |a| - 1;
      var i := TakeOne(b, a[n]);
      assert a == a[..n] + [a[n]];
      CostOfRest(b, ask, i);
      CostOfRest(a, ask, n);
      assert Without(a, n) == a[..n];
      CostAnyOrder(a[..n], Without(b, i), ask);
    }
  }

  /** Equal keys are the same trade: valid, priced and violated alike. */
  lemma SameKeySameVerdict(c: Constraint, d: Constraint, ask: AskFn)
    requires KeyOf(c) == KeyOf(d) && Underpriced(c, ask)
    ensures Underpriced(d, ask)
  {
    CostAnyOrder(c.legs, d.legs, ask);
    assert |multiset(c.legs)| == |multiset(d.legs)|;
    forall i | 0 <= i < |d.legs|
      ensures d.legs[i].qty >= 1
    {
      assert d.legs[i] in multiset(d.legs);
      assert d.legs[i] in c.legs;
    }
  }

  // ---------------------------------------------------------------- detect

  function Stronger(): (RelationSpec, RelationSpec) -> bool {
    (a: RelationSpec, b: RelationSpec) => a.level >= b.level
  }

  /** The constraints `detect` looks at: ladders go through the lossless pre-filter. */
  function Candidates(r: Relation, ask: AskFn): seq<Constraint> {
    if r.Chain? then Violated(r.markets, ask, |r.markets|) else r.Constraints()
  }

  lemma CandidatesComplete(r: Relation, ask: AskFn)
    requires r.Valid()
    ensures forall c | c in Candidates(r, ask) :: c in r.Constraints()
    ensures forall c | c in r.Constraints() && Underpriced(c, ask) :: c in Candidates(r, ask)
  {
    if r.Chain? {
      forall c | c in Candidates(r, ask)
        ensures c in r.Constraints()
      {
        PrefilterLossless(r.markets, ask, c);
      }
      forall c | c in r.Constraints() && Underpriced(c, ask)
        ensures c in Candidates(r, ask)
      {
        PrefilterLossless(r.markets, ask, c);
      }
    }
  }

  ghost predicate Eligible(spec: RelationSpec, specs: seq<RelationSpec>, params: DetectorParams) {
    spec in specs && spec.level >= params.minLevel
  }

  ghost predicate Credited(op: Opportunity, specs: seq<RelationSpec>, ask: AskFn, params: DetectorParams) {
    && Eligible(op.spec, specs, params)
    && op.constraint in op.spec.relation.Constraints()
    && Underpriced(op.constraint, ask)
    && op.topMargin == op.constraint.Check(ask).value.margin && op.topQty == op.constraint.Check(ask).value.topQty
  }

  ghost predicate Has(found: seq<Opportunity>, key: Key, level: nat) {
    exists i :: 0 <= i < |found| && KeyOf(found[i].constraint) == key && found[i].spec.level >= level
  }

  ghost predicate OncePerKey(found: seq<Opportunity>) {
    forall i, j | 0 <= i < j < |found| :: KeyOf(found[i].constraint) != KeyOf(found[j].constraint)
  }

  /** Every key looked at is either not a violation or already found with at least this evidence. */
  ghost predicate Answered(seen: set<Key>, found: seq<Opportunity>, ask: AskFn, level: nat) {
    forall c: Constraint | KeyOf(c) in seen && Underpriced(c, ask) :: Has(found, KeyOf(c), level)
  }

  ghost predicate Consistent(found: seq<Opportunity>, seen: set<Key>, specs: seq<RelationSpec>, books: Books,
                         params: DetectorParams, level: nat)
    requires Sane(books, params)
  {
    && OncePerKey(found)
    && Answered(seen, found, AskOf(books), level)
    && forall i | 0 <= i < |found| ::
         && Credited(found[i], specs, AskOf(books), params)
         && found[i].spec.level >= level
         && KeyOf(found[i].constraint) in seen
         && found[i].constraint.Valid() && Classified(found[i], books, params)
  }

  lemma Weaken(found: seq<Opportunity>, seen: set<Key>, specs: seq<RelationSpec>, books: Books,
               params: DetectorParams, hi: nat, lo: nat)
    requires Sane(books, params) && lo <= hi && Consistent(found, seen, specs, books, params, hi)
    ensures Consistent(found, seen, specs, books, params, lo)
  {
    hide Classified, Credited;
    forall c: Constraint | KeyOf(c) in seen && Underpriced(c, AskOf(books))
      ensures Has(found, KeyOf(c), lo)
    {
      assert Has(found, KeyOf(c), hi);
    }
  }

  lemma NoteUnviolated(found: seq<Opportunity>, seen: set<Key>, specs: seq<RelationSpec>, books: Books,
                       params: DetectorParams, level: nat, c: Constraint)
    requires Sane(books, params) && Consistent(found, seen, specs, books, params, level)
    requires !Underpriced(c, AskOf(books))
    ensures Consistent(found, seen + {KeyOf(c)}, specs, books, params, level)
  {
    hide Classified, Credited, Underpriced;
    forall d: Constraint | KeyOf(d) in seen + {KeyOf(c)} && Underpriced(d, AskOf(books))
      ensures Has(found, KeyOf(d), level)
    {
      if KeyOf(d) == KeyOf(c) {
        SameKeySameVerdict(d, c, AskOf(books));
      }
    }
  }

  lemma NoteFound(found: seq<Opportunity>, seen: set<Key>, specs: seq<RelationSpec>, books: Books,
                  params: DetectorParams, level: nat, op: Opportunity)
    requires Sane(books, params) && Consistent(found, seen, specs, books, params, level)
    requires KeyOf(op.constraint) !in seen && op.spec.level == level && op.constraint.Valid()
    requires Credited(op, specs, AskOf(books), params) && Classified(op, books, params)
    ensures Consistent(found + [op], seen + {KeyOf(op.constraint)}, specs, books, params, level)
  {
    hide Classified, Credited, Underpriced;
    var more := found + [op];
    forall d: Constraint | KeyOf(d) in seen + {KeyOf(op.constraint)} && Underpriced(d, AskOf(books))
      ensures Has(more, KeyOf(d), level)
    {
      if KeyOf(d) in seen {
        var i :| 0 <= i < |found| && KeyOf(found[i].constraint) == KeyOf(d) && found[i].spec.level >= level;
        assert more[i] == found[i];
      } else {
        assert more[|found|] == op;
      }
    }
  }

  /** One candidate: a known key is a duplicate, a new one is checked and, if violated, evaluated. */
  method Consider(spec: RelationSpec, ghost specs: seq<RelationSpec>, books: Books, params: DetectorParams,
                  c: Constraint, before: seq<Opportunity>, known: set<Key>)
    returns (found: seq<Opportunity>, seen: set<Key>)
    requires Sane(books, params) && spec.relation.Valid() && Eligible(spec, specs, params)
    requires Consistent(before, known, specs, books, params, spec.level)
    requires c in Candidates(spec.relation, AskOf(books)) && c in spec.relation.Constraints()
    ensures Consistent(found, seen, specs, books, params, spec.level)
    ensures before <= found && seen == known + {KeyOf(c)}
    ensures KeyOf(c) in known ==> found == before
    ensures KeyOf(c) !in known ==>
              if Underpriced(c, AskOf(books))
              then |found| == |before| + 1 && found[|before|].spec == spec && found[|before|].constraint == c
              else found == before
  {
    hide Consistent, Candidates, Classified, Underpriced, Constraint.Valid, Relation.Constraints;
    var ask, key := AskOf(books), KeyOf(c);
    found, seen := before, known;
    if key !in seen {
      LegsOfRelation(spec.relation, c);
      var chk := CheckLoop(c, ask);
      if chk.None? || chk.value.margin <= 0 {
        assert !Underpriced(c, ask) by { Unviolated(c, ask); }
        NoteUnviolated(found, seen, specs, books, params, spec.level, c);
      } else {
        var op := Evaluate(spec, c, chk.value, books, params);
        assert Underpriced(c, ask) by { IsViolated(c, ask); }
        NoteFound(found, seen, specs, books, params, spec.level, op);
        found := found + [op];
      }
      seen := seen + {key};
    }
  }

  /** One relation's candidates: new keys are evaluated, known keys are duplicates. */
  method DetectSpec(spec: RelationSpec, ghost specs: seq<RelationSpec>, books: Books, params: DetectorParams,
                    before: seq<Opportunity>, known: set<Key>)
    returns (found: seq<Opportunity>, seen: set<Key>)
    requires Sane(books, params) && spec.relation.Valid() && Eligible(spec, specs, params)
    requires Consistent(before, known, specs, books, params, spec.level)
    ensures Consistent(found, seen, specs, books, params, spec.level)
    ensures before <= found
    ensures forall c | c in Candidates(spec.relation, AskOf(books)) :: KeyOf(c) in seen
  {
    hide Consistent, Candidates, Classified, Underpriced, Constraint.Valid, Relation.Constraints;
    var candidates := Candidates(spec.relation, AskOf(books));
    CandidatesComplete(spec.relation, AskOf(books));
    found, seen := before, known;
    for i := 0 to |candidates|
      invariant Consistent(found, seen, specs, books, params, spec.level)
      invariant before <= found
      invariant forall k | 0 <= k < i :: KeyOf(candidates[k]) in seen
    {
      assert candidates[i] in candidates;
      found, seen := Consider(spec, specs, books, params, candidates[i], found, seen);
    }
  }

  lemma Unviolated(c: Constraint, ask: AskFn)
    requires c.Valid() && (c.Check(ask).None? || c.Check(ask).value.margin <= 0)
    ensures !Underpriced(c, ask)
  {
  }

  lemma IsViolated(c: Constraint, ask: AskFn)
    requires c.Valid() && c.Check(ask).Some? && c.Check(ask).value.margin > 0
    ensures Underpriced(c, ask)
  {
  }

  /** Every violation of an eligible relation is found once, credited to evidence at least as strong
      as any relation's that contains it; nothing else is reported, and every report is classified. */
  method Detect(specs: seq<RelationSpec>, books: Books, params: DetectorParams) returns (found: seq<Opportunity>)
    requires Sane(books, params) && forall s | s in specs :: s.relation.Valid()
    ensures OncePerKey(found)
    ensures forall i | 0 <= i < |found| ::
              && Credited(found[i], specs, AskOf(books), params)
              && found[i].constraint.Valid() && Classified(found[i], books, params)
    ensures forall s, c | Eligible(s, specs, params) && c in s.relation.Constraints() && Underpriced(c, AskOf(books)) ::
              Has(found, KeyOf(c), s.level)
  {
    hide Candidates, Classified, Underpriced, Sane, KeyOf, Credited, Consistent;
    var order := StableSort(specs, Stronger());
    SortSorts(specs, Stronger());
    var seen: set<Key> := {};
    found := [];
    NothingYet(specs, books, params, LevelAt(order, 0));
    for i := 0 to |order|
      invariant Consistent(found, seen, specs, books, params, LevelAt(order, i))
      invariant forall k | 0 <= k < i && order[k].level >= params.minLevel :: Covered(order[k], books, found)
    {
      var spec := order[i];
      assert spec in order;
      if spec.level >= params.minLevel {
        ghost var before := found;
        found, seen := DetectSpec(spec, specs, books, params, found, seen);
        CoversSpec(spec, specs, books, params, found, seen);
        forall k | 0 <= k < i && order[k].level >= params.minLevel
          ensures Covered(order[k], books, found)
        {
          StaysCovered(order[k], books, before, found);
        }
      }
      if i + 1 < |order| {
        assert Stronger()(spec, order[i + 1]);
      }
      Weaken(found, seen, specs, books, params, spec.level, LevelAt(order, i + 1));
    }
    Summary(found, seen, specs, books, params, LevelAt(order, |order|));
    forall s, c | Eligible(s, specs, params) && c in s.relation.Constraints() && Underpriced(c, AskOf(books))
      ensures Has(found, KeyOf(c), s.level)
    {
      assert s in order;
      var k :| 0 <= k < |order| && order[k] == s;
      assert Covered(order[k], books, found);
      CandidatesComplete(s.relation, AskOf(books));
    }
  }

  function LevelAt(order: seq<RelationSpec>, i: nat): nat {
    if i < |order| then order[i].level else 0
  }

  ghost predicate Covered(spec: RelationSpec, books: Books, found: seq<Opportunity>) {
    forall c | c in Candidates(spec.relation, AskOf(books)) && Underpriced(c, AskOf(books)) ::
      Has(found, KeyOf(c), spec.level)
  }

  lemma NothingYet(specs: seq<RelationSpec>, books: Books, params: DetectorParams, level: nat)
    requires Sane(books, params)
    ensures Consistent([], {}, specs, books, params, level)
  {
  }

  lemma Summary(found: seq<Opportunity>, seen: set<Key>, specs: seq<RelationSpec>, books: Books,
                params: DetectorParams, level: nat)
    requires Sane(books, params) && Consistent(found, seen, specs, books, params, level)
    ensures OncePerKey(found)
    ensures forall i | 0 <= i < |found| ::
              && Credited(found[i], specs, AskOf(books), params)
              && found[i].constraint.Valid() && Classified(found[i], books, params)
  {
    hide Classified, Credited, Constraint.Valid;
  }

  lemma CoversSpec(spec: RelationSpec, specs: seq<RelationSpec>, books: Books, params: DetectorParams,
                   found: seq<Opportunity>, seen: set<Key>)
    requires Sane(books, params) && Consistent(found, seen, specs, books, params, spec.level)
    requires forall c | c in Candidates(spec.relation, AskOf(books)) :: KeyOf(c) in seen
    ensures Covered(spec, books, found)
  {
    hide Classified, Credited, Candidates, Underpriced;
  }

  lemma StaysCovered(spec: RelationSpec, books: Books, before: seq<Opportunity>, after: seq<Opportunity>)
    requires Covered(spec, books, before) && before <= after
    ensures Covered(spec, books, after)
  {
    hide Candidates, Underpriced;
    forall c | c in Candidates(spec.relation, AskOf(books)) && Underpriced(c, AskOf(books))
      ensures Has(after, KeyOf(c), spec.level)
    {
      var i :| 0 <= i < |before| && KeyOf(before[i].constraint) == KeyOf(c) && before[i].spec.level >= spec.level;
      assert after[i] == before[i];
    }
  }
}
