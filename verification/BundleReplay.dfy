/** backtest/strategies.py: a detected bundle sent to the engine.  With no latency and enough cash the
    engine buys exactly the fills the detector priced, leaves exactly the asks it left, and realises
    exactly its settlement profit. */
module BundleReplay {
  import opened Units
  import opened MapSums
  import opened OrderBooks
  import opened Fees
  import opened Fills
  import opened Ledger
  import opened Engine
  import opened EngineGrowth
  import opened EngineInvariant
  import opened EngineSafety
  import opened EngineTurns
  import opened SafeRuns
  import opened TakerLeg
  import Relationships
  import Execution
  import Detector

  // ---------------------------------------------------------------- the two walks agree

  const PLAIN_TAKER: TakerModel := TakerModel(None, 0, 1.0)

  ghost predicate Within(fills: seq<Fill>, limit: Price) {
    forall i | 0 <= i < |fills| :: fills[i].price <= limit
  }

  lemma WholeShare(q: Qty)
    ensures Share(1.0, q) == q
  {
  }

  /** Without haircuts, a limit that every fill respects changes nothing. */
  lemma {:induction false} LimitedWalk(asks: seq<Level>, limit: Price, qty: Qty)
    requires Execution.Sized(asks) && Within(Execution.Walk(asks, qty), limit)
    ensures PLAIN_TAKER.Walk(asks, limit, qty) == Execution.Walk(asks, qty)
  {
    hide Share;
    if asks != [] && qty > 0 {
      var take, rest := Min(qty, asks[0].qty), Execution.Walk(asks[1..], qty - Min(qty, asks[0].qty));
      WholeShare(asks[0].qty);
      WalkFront(asks, qty);
      WithinRest(Fill(asks[0].price, take), rest, limit);
      LimitedWalk(asks[1..], limit, qty - take);
    }
  }

  lemma WalkFront(asks: seq<Level>, qty: Qty)
    requires asks != [] && qty > 0
    ensures Execution.Walk(asks, qty)
         == [Fill(asks[0].price, Min(qty, asks[0].qty))] + Execution.Walk(asks[1..], qty - Min(qty, asks[0].qty))
  {
  }

  lemma WithinRest(f: Fill, rest: seq<Fill>, limit: Price)
    requires Within([f] + rest, limit)
    ensures f.price <= limit && Within(rest, limit)
  {
    var all := [f] + rest;
    assert all[0] == f;
    assert forall i | 0 <= i < |rest| :: rest[i] == all[i + 1];
  }

  lemma {:induction false} WalkFrom(asks: seq<Level>, qty: Qty, floor: Price)
    requires forall l | l in asks :: floor <= l.price
    ensures forall i | 0 <= i < |Execution.Walk(asks, qty)| :: floor <= Execution.Walk(asks, qty)[i].price
  {
    if asks != [] && qty > 0 {
      WalkFrom(asks[1..], qty - Min(qty, asks[0].qty), floor);
    }
  }

  /** The last fill of a walk is its dearest, and no smaller walk pays more: the limit sent for a leg lets
      through everything the leg was priced on, also when the size is capped afterwards. */
  lemma {:induction false} LastFillLimits(asks: seq<Level>, qty: Qty, less: Qty)
    requires Execution.Sized(asks) && Ascending(asks) && less <= qty && Execution.Walk(asks, qty) != []
    ensures var fills := Execution.Walk(asks, qty);
            Within(Execution.Walk(asks, less), fills[|fills| - 1].price)
  {
    var fills := Execution.Walk(asks, qty);
    var take := Min(qty, asks[0].qty);
    var rest := Execution.Walk(asks[1..], qty - take);
    assert fills == [Fill(asks[0].price, take)] + rest;
    forall l | l in asks
      ensures asks[0].price <= l.price
    {
      var i :| 0 <= i < |asks| && asks[i] == l;
    }
    WalkFrom(asks, qty, asks[0].price);
    if less > 0 {
      var take' := Min(less, asks[0].qty);
      if rest != [] {
        LastFillLimits(asks[1..], qty - take, less - take');
      }
    }
  }

  // ---------------------------------------------------------------- what is left of the book

  /** The asks after a walk: whole levels gone from the front, at most one cut down. */
  function Residue(asks: seq<Level>, qty: Qty): seq<Level> {
    if asks == [] || qty <= 0 then asks
    else if qty < asks[0].qty then [Level(asks[0].price, asks[0].qty - qty)] + asks[1..]
    else Residue(asks[1..], qty - asks[0].qty)
  }

  lemma FlipFront(k: Price, q: Qty, rest: seq<Level>)
    ensures Flip([Level(k, q)] + rest) == [Level(Complement(k), q)] + Flip(rest)
  {
    var all := [Level(k, q)] + rest;
    assert forall i | 0 < i < |all| :: all[i] == rest[i - 1];
  }

  /** A book's asks, best first, in terms of its greatest opposite bid. */
  lemma AsksFront(b: Book, side: Side)
    requires b.On(side.Opposite()) != map[]
    ensures var m := b.On(side.Opposite());
            var k := MaxKey(m.Keys);
            && b.AskLevels(side) == [Level(Complement(k), m[k])] + b.With(side.Opposite(), m - {k}).AskLevels(side)
  {
    var m := b.On(side.Opposite());
    var k := MaxKey(m.Keys);
    FlipFront(k, m[k], Levels(m - {k}));
  }

  lemma SameFront(m: Bids, k: Price, q: Qty)
    requires k in m && MaxKey(m.Keys) == k
    ensures Levels(m[k := q]) == [Level(k, q)] + Levels(m - {k})
  {
    assert m[k := q].Keys == m.Keys;
    assert m[k := q] - {k} == m - {k};
  }

  lemma AsksEmpty(b: Book, side: Side)
    ensures b.AskLevels(side) == [] <==> b.On(side.Opposite()) == map[]
  {
    LevelsSorted(b.On(side.Opposite()));
  }

  lemma CutFront(b: Book, side: Side, k: Price, take: Qty)
    requires b.Valid() && b.On(side.Opposite()) != map[] && k == MaxKey(b.On(side.Opposite()).Keys)
    requires 0 < take < b.On(side.Opposite())[k]
    ensures var m, opp := b.On(side.Opposite()), side.Opposite();
            var after := b.With(opp, m[k := m[k] - take]);
            && Delta(b, opp, Complement(Complement(k)), -take) == Some(after) && after.Valid()
            && after.AskLevels(side) == [Level(Complement(k), m[k] - take)] + b.With(opp, m - {k}).AskLevels(side)
            && after.AskLevels(opp) == b.AskLevels(opp)
  {
    var m := b.On(side.Opposite());
    SameFront(m, k, m[k] - take);
    FlipFront(k, m[k] - take, Levels(m - {k}));
  }

  lemma OtherAsks(b: Book, side: Side, m: Bids)
    ensures b.With(side.Opposite(), m).AskLevels(side.Opposite()) == b.AskLevels(side.Opposite())
  {
  }

  lemma DepleteFront(b: Book, side: Side, f: Fill, rest: seq<Fill>)
    requires b.Valid()
    ensures var next := Delta(b, side.Opposite(), Complement(f.price), -f.qty);
            Deplete(b, side, [f] + rest) == Deplete(if next.Some? then next.value else b, side, rest)
  {
    hide Delta, Book.Valid;
    assert ([f] + rest)[1..] == rest;
  }

  lemma WholeLevel(b: Book, side: Side, k: Price)
    requires b.Valid() && k in b.On(side.Opposite())
    ensures var m, opp := b.On(side.Opposite()), side.Opposite();
            Delta(b, opp, Complement(Complement(k)), -m[k]) == Some(b.With(opp, m - {k})) && b.With(opp, m - {k}).Valid()
            && m[k] > 0
  {
  }

  /** Taking a walk's fills off the displayed book leaves exactly the residual asks, and the other side's
      asks as they were. */
  lemma {:induction false} DepletedToResidue(b: Book, side: Side, qty: Qty)
    requires b.Valid()
    ensures var after := Deplete(b, side, Execution.Walk(b.AskLevels(side), qty));
            after.AskLevels(side) == Residue(b.AskLevels(side), qty)
            && after.AskLevels(side.Opposite()) == b.AskLevels(side.Opposite())
    decreases |b.On(side.Opposite())|
  {
    hide Levels, Flip, Book.AskLevels, Book.Valid, Delta, Deplete, Execution.Walk;
    var asks, opp, m := b.AskLevels(side), side.Opposite(), b.On(side.Opposite());
    AsksEmpty(b, side);
    WalkNothing(asks, qty);
    DepleteNothing(b, side);
    if asks != [] && qty > 0 {
      AsksFront(b, side);
      var k := MaxKey(m.Keys);
      WholeLevel(b, side, k);
      var b' := b.With(opp, m - {k});
      WalkFront(asks, qty);
      DepleteFront(b, side, Fill(Complement(k), Min(qty, m[k])), Execution.Walk(asks[1..], qty - Min(qty, m[k])));
      if qty < m[k] {
        CutFront(b, side, k, qty);
        WalkNothing(asks[1..], 0);
        DepleteNothing(b.With(opp, m[k := m[k] - qty]), side);
      } else {
        OnWith(b, opp, m - {k});
        DepletedToResidue(b', side, qty - m[k]);
        OtherAsks(b, side, m - {k});
      }
    }
  }

  lemma OnWith(b: Book, side: Side, m: Bids)
    ensures b.With(side, m).On(side) == m
  {
  }

  lemma WalkNothing(asks: seq<Level>, qty: Qty)
    ensures asks == [] || qty <= 0 ==> Execution.Walk(asks, qty) == []
  {
  }

  lemma DepleteNothing(b: Book, side: Side)
    requires b.Valid()
    ensures Deplete(b, side, []) == b
  {
  }

  // ---------------------------------------------------------------- one leg arrives

  type Leg = Execution.LegExecution

  function LegFees(l: Leg): (fees: seq<int>)
    ensures |fees| == |l.fills|
  {
    FeeShares(l.fee, l.fee, l.fills, SumQty(l.fills))
  }

  function BuyLeg(a: Account, l: Leg): Account {
    BoughtAll(a, l.contract.ticker, l.contract.side, l.fills, LegFees(l))
  }

  function BuyLegs(a: Account, legs: seq<Leg>): Account
    decreases |legs|
  {
    if legs == [] then a else BuyLegs(BuyLeg(a, legs[0]), legs[1..])
  }

  /** The order sent for a leg asks for all of it at a limit no fill of it exceeds, and the book shown is
      the one it was priced on. */
  ghost predicate SentFor(cfg: Config, b: Book, o: Order, l: Leg) {
    && o.ticker == l.contract.ticker && o.side == l.contract.side && o.qty == l.qty > 0 && o.tif.IOC?
    && ValidPrice(o.price) && Within(l.fills, o.price)
    && l.fills == Execution.Walk(b.AskLevels(o.side), l.qty) && SumQty(l.fills) == l.qty
    && l.cost == SumCost(l.fills) && l.fee == cfg.fees.For(o.ticker).OrderFee(l.fills, false)
  }

  ghost predicate Shown<S>(cfg: Config, c: Core<S>, o: Order, l: Leg) {
    && o.ticker in c.markets && c.markets[o.ticker].Open()
    && c.markets[o.ticker].book.Some? && c.markets[o.ticker].bookTs.Some?
    && SentFor(cfg, c.markets[o.ticker].book.value, o, l)
  }

  lemma BookSized(b: Book, side: Side)
    requires b.Valid()
    ensures Execution.Sized(b.AskLevels(side)) && Ascending(b.AskLevels(side))
    ensures b.BestAsk(side) == if b.AskLevels(side) == [] then None else Some(b.AskLevels(side)[0])
  {
    AsksSorted(b, side);
    assert forall i | 0 <= i < |b.AskLevels(side)| :: b.AskLevels(side)[i] in b.AskLevels(side);
  }

  /** The engine's taker model gives the leg's own fills. */
  lemma SameFills<S>(cfg: Config, c: Core<S>, o: Order, l: Leg)
    requires cfg.taker == PLAIN_TAKER && Shown(cfg, c, o, l) && c.markets[o.ticker].book.value.Valid()
    ensures Marketable(c.markets[o.ticker], o) && TakerFills(cfg, c, o) == l.fills
  {
    hide Book.AskLevels, Book.BestAsk, Book.Valid, Share;
    var b := c.markets[o.ticker].book.value;
    var asks := b.AskLevels(o.side);
    BookSized(b, o.side);
    NoFills();
    LimitedWalk(asks, o.price, o.qty);
    WalkNothing(asks, o.qty);
    WalkFront(asks, o.qty);
    assert l.fills[0].price <= o.price;
  }

  /** What one leg's arrival does, in full. */
  lemma LegArrives<S>(cfg: Config, c: Core<S>, id: nat, o: Order, l: Leg)
    requires ValidConfig(cfg) && Inv(cfg, c) && c.error.None? && Arrived(c, id, o)
    requires cfg.taker == PLAIN_TAKER && Shown(cfg, c, o, l) && Available(c) >= Notional(o.price, o.qty)
    ensures Dispatchable(c, Arrival(id, o))
    ensures
      var b, m := OnArrival(cfg, c, id, o), c.markets[o.ticker];
      && m.book.value.Valid()
      && b.error.None? && b.now == c.now && b.account == BuyLeg(c.account, l) && b.reserved == c.reserved
      && b.markets == c.markets[o.ticker := m.(book := Some(Deplete(m.book.value, o.side, l.fills)))]
      && b.fillLog == c.fillLog + Entries(c.now, id, o, l.fills, LegFees(l))
      && OnlyFillNotices(c.heap, b.heap, c.now)
  {
    hide Inv, Available, Notional, Take, Rest, TakerFills, SumQty, Book.Valid, Book.BestAsk, Book.AskLevels, FeeSchedule.OrderFee;
    hide NotPending, OnArrival, Dispatchable, Execution.Walk, BoughtAll, FeeShares, Entries, OnlyFillNotices, Deplete, Within, SumCost, Marketable;
    Listed(cfg, c, id, o);
    SameFills(cfg, c, o, l);
    LegTaken(cfg, c, id, o, l);
    AcceptedIs(cfg, c, id, o);
    FilledParts(cfg, Take(cfg, c, id, o, l.fills), id, o);
  }

  lemma FilledParts<S>(cfg: Config, c: Core<S>, id: nat, o: Order)
    requires id in c.records && o.ticker in c.markets
    ensures Rest(cfg, c, id, o, 0) == c.(records := Rest(cfg, c, id, o, 0).records)
  {
  }

  lemma LegTaken<S>(cfg: Config, c: Core<S>, id: nat, o: Order, l: Leg)
    requires ValidConfig(cfg) && c.error.None? && id in c.records && o.ticker !in c.account.settled
    requires Shown(cfg, c, o, l) && c.markets[o.ticker].book.value.Valid()
    ensures
      var b, m := Take(cfg, c, id, o, l.fills), c.markets[o.ticker];
      && b.error.None? && b.now == c.now && b.account == BuyLeg(c.account, l) && b.reserved == c.reserved
      && b.markets == c.markets[o.ticker := m.(book := Some(Deplete(m.book.value, o.side, l.fills)))]
      && b.fillLog == c.fillLog + Entries(c.now, id, o, l.fills, LegFees(l))
      && OnlyFillNotices(c.heap, b.heap, c.now) && id in b.records
  {
    hide SumQty, Book.Valid, Book.AskLevels, FeeSchedule.OrderFee, RecordFills, Execution.Walk, BoughtAll, FeeShares, Entries;
    hide OnlyFillNotices, Deplete, Within, SumCost;
    NoFills();
    RecordFillsIs(cfg, c, id, o, l.fills, l.fee, l.fee, SumQty(l.fills));
  }

  // ---------------------------------------------------------------- the ledger's side

  lemma HeldNonNegative(a: Account, t: Ticker)
    requires Sound(a)
    ensures a.At(t).yes >= 0 && a.At(t).no >= 0
  {
  }

  lemma {:induction false} BoughtAllEquity(a: Account, t: Ticker, side: Side, fills: seq<Fill>, fees: seq<int>, v: Ticker -> Price)
    requires |fees| == |fills| && Sound(a) && Sane(fills)
    ensures var b := BoughtAll(a, t, side, fills, fees);
            && Sound(b) && b.cash >= a.cash - SumCost(fills) - SumInts(fees)
            && Equity(b, v) == Equity(a, v) - SumCost(fills) - SumInts(fees) + Notional(Payoff(side, v(t)), SumQty(fills))
    decreases |fills|
  {
    hide Bought, SumInts, Sound, Equity, Payoff, Notional;
    NotionalSplit(Payoff(side, v(t)), 0, 0);
    if fills == [] {
      NoInts();
    } else {
      var f, next := fills[0], Bought(a, t, side, fills[0].price, fills[0].qty, fees[0]);
      assert fees == [fees[0]] + fees[1..];
      SumFront(fees[0], fees[1..]);
      HeldNonNegative(a, t);
      BuyEquity(a, t, side, f.price, f.qty, fees[0], v);
      BuyStaysSound(a, t, side, f.price, f.qty, fees[0]);
      BoughtAllEquity(next, t, side, fills[1..], fees[1..], v);
      NotionalSplit(Payoff(side, v(t)), f.qty, SumQty(fills[1..]));
      assert Notional(f.price, f.qty) == f.price * f.qty by { NotionalIs(f.price, f.qty); }
    }
  }

  lemma NotionalIs(p: Price, q: Qty)
    ensures Notional(p, q) == p * q
  {
  }

  /** A leg as priced: its totals are its fills', and its fee is split over them without loss. */
  ghost predicate Sums(l: Leg) {
    && l.fills != [] && AllPositive(l.fills) && Sane(l.fills) && l.fee >= 0
    && SumQty(l.fills) == l.qty && SumCost(l.fills) == l.cost
  }

  lemma BuyLegEquity(a: Account, l: Leg, v: Ticker -> Price)
    requires Sound(a) && Sums(l)
    ensures var b := BuyLeg(a, l);
            && Sound(b) && b.cash >= a.cash - l.cost - l.fee
            && Equity(b, v) == Equity(a, v) - l.cost - l.fee + Notional(Payoff(l.contract.side, v(l.contract.ticker)), l.qty)
  {
    hide BoughtAll, Sound, Equity, Payoff, Notional, FeeShares, SumQty, SumCost;
    FeeSplit(l.fee, l.fills);
    BoughtAllEquity(a, l.contract.ticker, l.contract.side, l.fills, LegFees(l), v);
  }

  /** What the legs of a bundle settle for, over what they cost. */
  function LegsProfit(legs: seq<Leg>, v: Ticker -> Price): int {
    if legs == [] then 0
    else
      Notional(Payoff(legs[0].contract.side, v(legs[0].contract.ticker)), legs[0].qty) - legs[0].cost - legs[0].fee
      + LegsProfit(legs[1..], v)
  }

  lemma {:induction false} BuyLegsEquity(a: Account, legs: seq<Leg>, v: Ticker -> Price)
    requires Sound(a) && forall i | 0 <= i < |legs| :: Sums(legs[i])
    ensures Sound(BuyLegs(a, legs)) && Equity(BuyLegs(a, legs), v) == Equity(a, v) + LegsProfit(legs, v)
    decreases |legs|
  {
    hide BuyLeg, Sound, Equity, Payoff, Notional, Sums;
    if legs != [] {
      BuyLegEquity(a, legs[0], v);
      BuyLegsEquity(BuyLeg(a, legs[0]), legs[1..], v);
    }
  }

  lemma {:induction false} ProfitAppend(legs: seq<Leg>, l: Leg, v: Ticker -> Price)
    ensures LegsProfit(legs + [l], v) == LegsProfit(legs, v) + LegsProfit([l], v)
  {
    hide Payoff, Notional;
    if legs != [] {
      assert (legs + [l])[1..] == legs[1..] + [l];
      ProfitAppend(legs[1..], l, v);
    }
  }

  lemma LegSettles(l: Leg, w: Relationships.World)
    ensures LegsProfit([l], Relationships.Ticks(w)) == Detector.LegPays(l, w) - l.cost - l.fee
  {
    assert [l][1..] == [];
  }

  /** The legs' profit in a world is the detector's settlement of the bundle there. */
  lemma {:induction false} ProfitIsSettlement(p: Execution.PricedBundle, w: Relationships.World)
    ensures LegsProfit(p.legs, Relationships.Ticks(w)) == Detector.SettleMicro(p, w)
    decreases |p.legs|
  {
    hide LegsProfit, Detector.LegPays;
    if p.legs == [] {
      assert LegsProfit([], Relationships.Ticks(w)) == 0 by { NoLegs(Relationships.Ticks(w)); }
    } else {
      var n := |p.legs| - 1;
      var front := p.(legs := p.legs[..n]);
      assert p.legs == p.legs[..n] + [p.legs[n]];
      ProfitIsSettlement(front, w);
      ProfitAppend(p.legs[..n], p.legs[n], Relationships.Ticks(w));
      LegSettles(p.legs[n], w);
    }
  }

  lemma NoLegs(v: Ticker -> Price)
    ensures LegsProfit([], v) == 0
  {
  }

  // ---------------------------------------------------------------- the engine's turns

  /** The next messages are these arrivals, in this order, all at the present instant. */
  ghost predicate InLine<S>(c: Core<S>, line: seq<Message>) {
    && (forall i | 0 <= i < |line| ::
          line[i] in c.heap && line[i].ts == c.now && line[i].priority == ORDER_ARRIVAL && line[i].payload.Arrival?)
    && (forall i, j | 0 <= i < j < |line| :: line[i].sequence < line[j].sequence)
    && forall m | m in c.heap && m !in line :: m.ts > c.now || (m.ts == c.now && m.priority > ORDER_ARRIVAL)
  }

  lemma NextInLine<S>(c: Core<S>, line: seq<Message>)
    requires InLine(c, line) && line != [] && HeapOk(c.heap, c.sequence, c.now)
    ensures c.heap != {} && Next(c.heap) == line[0]
  {
    var m := Next(c.heap);
    assert Before(m, line[0]);
    var i :| 0 <= i < |line| && line[i] == m;
    assert line[0].sequence <= line[i].sequence;
  }

  lemma LineMoves<S>(c: Core<S>, b: Core<S>, line: seq<Message>)
    requires InLine(c, line) && line != [] && b.now == c.now
    requires OnlyFillNotices(c.heap - {line[0]}, b.heap, c.now)
    ensures InLine(b, line[1..])
  {
    var rest := line[1..];
    assert line == [line[0]] + rest;
    forall i | 0 <= i < |rest|
      ensures rest[i] in b.heap
    {
      assert rest[i] == line[i + 1] && line[0].sequence < line[i + 1].sequence;
    }
  }

  ghost function AsksAt<S>(c: Core<S>, k: Contract): seq<Level> {
    if k.ticker in c.markets && c.markets[k.ticker].book.Some? then c.markets[k.ticker].book.value.AskLevels(k.side) else []
  }

  ghost predicate Waiting<S>(cfg: Config, c: Core<S>, line: seq<Message>, legs: seq<Leg>) {
    && |line| == |legs|
    && (forall i | 0 <= i < |line| :: line[i].payload.Arrival? && Shown(cfg, c, line[i].payload.order, legs[i]) && Sums(legs[i]))
    && forall i, j | 0 <= i < j < |legs| :: legs[i].contract != legs[j].contract
  }

  /** Money that certainly suffices for what is in line: every order at its limit, and the fees. */
  ghost function Need(line: seq<Message>, legs: seq<Leg>): int
    requires |line| == |legs| && forall i | 0 <= i < |line| :: line[i].payload.Arrival?
  {
    if line == [] then 0
    else Notional(line[0].payload.order.price, line[0].payload.order.qty) + legs[0].fee + Need(line[1..], legs[1..])
  }

  lemma {:induction false} NeedNonNegative<S>(cfg: Config, c: Core<S>, line: seq<Message>, legs: seq<Leg>)
    requires Waiting(cfg, c, line, legs)
    ensures Need(line, legs) >= 0
  {
    if line != [] {
      var o := line[0].payload.order;
      assert Shown(cfg, c, o, legs[0]) && Sums(legs[0]);
      NotionalOrder(o.price, o.price, o.qty);
      hide Notional, Shown, Sums;
      NeedNonNegative(cfg, c, line[1..], legs[1..]);
    }
  }

  lemma {:induction false} CostLimit(fills: seq<Fill>, limit: Price)
    requires AllPositive(fills) && Within(fills, limit)
    ensures SumCost(fills) <= Notional(limit, SumQty(fills))
  {
    hide Notional;
    NotionalSplit(limit, 0, 0);
    if fills != [] {
      var f, rest := fills[0], fills[1..];
      assert fills == [f] + rest;
      WithinRest(f, rest, limit);
      assert AllPositive(rest);
      CostLimit(rest, limit);
      NotionalSplit(limit, f.qty, SumQty(rest));
      Dearer(f.price, limit, f.qty);
    }
  }

  lemma Dearer(p: Price, q: Price, qty: Qty)
    requires p <= q && qty >= 0
    ensures p * qty <= Notional(q, qty)
  {
  }

  /** One leg's book after another leg's fills have come off. */
  lemma OthersShown<S>(cfg: Config, c: Core<S>, b: Core<S>, k: Contract, qty: Qty)
    requires k.ticker in c.markets && c.markets[k.ticker].book.Some? && c.markets[k.ticker].book.value.Valid()
    requires
      var m := c.markets[k.ticker];
      b.markets == c.markets[k.ticker := m.(book := Some(Deplete(m.book.value, k.side, Execution.Walk(m.book.value.AskLevels(k.side), qty))))]
    ensures forall other: Contract :: other != k ==> AsksAt(b, other) == AsksAt(c, other)
    ensures AsksAt(b, k) == Residue(AsksAt(c, k), qty)
  {
    hide Deplete, Execution.Walk, Book.AskLevels, Residue, Book.Valid;
    DepletedToResidue(c.markets[k.ticker].book.value, k.side, qty);
    forall other: Contract | other != k
      ensures AsksAt(b, other) == AsksAt(c, other)
    {
      assert other.ticker == k.ticker ==> other.side == k.side.Opposite();
    }
  }

  /** Being shown depends on the book only through the leg's own asks. */
  lemma StillShown<S>(cfg: Config, c: Core<S>, b: Core<S>, o: Order, l: Leg, k: Contract, m: MarketState)
    requires Shown(cfg, c, o, l) && k.ticker in c.markets && c.markets[k.ticker].book.Some?
    requires b.markets == c.markets[k.ticker := m]
    requires m.Open() == c.markets[k.ticker].Open() && m.bookTs == c.markets[k.ticker].bookTs && m.book.Some?
    requires AsksAt(b, l.contract) == AsksAt(c, l.contract)
    ensures Shown(cfg, b, o, l)
  {
    hide Book.AskLevels, Execution.Walk, Within, SumQty, SumCost, FeeSchedule.OrderFee;
  }

  lemma WaitingRest<S>(cfg: Config, c: Core<S>, b: Core<S>, line: seq<Message>, legs: seq<Leg>)
    requires Waiting(cfg, c, line, legs) && line != []
    requires
      var k := legs[0].contract;
      && k.ticker in c.markets && c.markets[k.ticker].book.Some? && c.markets[k.ticker].book.value.Valid()
      && var m := c.markets[k.ticker];
         b.markets == c.markets[k.ticker := m.(book := Some(Deplete(m.book.value, k.side, legs[0].fills)))]
         && legs[0].fills == Execution.Walk(m.book.value.AskLevels(k.side), legs[0].qty)
    ensures Waiting(cfg, b, line[1..], legs[1..])
  {
    hide Shown, Sums, Deplete, Execution.Walk, Book.AskLevels, AsksAt, Book.Valid;
    var k := legs[0].contract;
    OthersShown(cfg, c, b, k, legs[0].qty);
    forall i | 0 <= i < |line[1..]|
      ensures Shown(cfg, b, line[1..][i].payload.order, legs[1..][i]) && Sums(legs[1..][i])
    {
      assert legs[0].contract != legs[i + 1].contract;
      StillShown(cfg, c, b, line[i + 1].payload.order, legs[i + 1], k, b.markets[k.ticker]);
    }
  }

  lemma ShownParts<S>(cfg: Config, c: Core<S>, o: Order, l: Leg)
    requires Inv(cfg, c) && Shown(cfg, c, o, l)
    ensures o.ticker == l.contract.ticker && o.side == l.contract.side && o.ticker in c.markets
    ensures c.markets[o.ticker].book.Some? && c.markets[o.ticker].book.value.Valid()
    ensures l.fills == Execution.Walk(c.markets[o.ticker].book.value.AskLevels(o.side), l.qty)
    ensures Sums(l) ==> l.cost <= Notional(o.price, o.qty)
  {
    InvBase(cfg, c);
    BookOf(cfg, c, o.ticker);
    hide Inv, Execution.Walk, Book.AskLevels, Book.Valid, Notional, SumCost, SumQty, FeeSchedule.OrderFee;
    if Sums(l) {
      CostLimit(l.fills, o.price);
    }
  }

  ghost predicate LaterFeed(feed: seq<FeedEvent>, now: int) {
    feed != [] ==> feed[0].ts > now
  }

  lemma InvHeap<S>(cfg: Config, c: Core<S>)
    requires Inv(cfg, c)
    ensures HeapOk(c.heap, c.sequence, c.now) && Sound(c.account)
  {
  }

  lemma ShownAlike<S>(cfg: Config, c: Core<S>, b: Core<S>, o: Order, l: Leg)
    requires Shown(cfg, c, o, l) && b.markets == c.markets
    ensures Shown(cfg, b, o, l)
  {
  }

  /** The engine's turn when the first of the line is next. */
  lemma LineStep<S>(cfg: Config, strat: Strategy<S>, w: World<S>, m: Message)
    requires w.core.error.None? && LaterFeed(w.feed, w.core.now) && m.ts == w.core.now
    requires w.core.heap != {} && Next(w.core.heap) == m && m.payload.Arrival?
    requires Dispatchable(w.core.(now := m.ts, heap := w.core.heap - {m}), m.payload)
    ensures Step(cfg, strat, w)
         == World(OnArrival(cfg, w.core.(now := m.ts, heap := w.core.heap - {m}), m.payload.orderId, m.payload.order), w.feed)
  {
    hide OnArrival, Book.Valid;
  }

  lemma NeedFirst<S>(cfg: Config, c: Core<S>, line: seq<Message>, legs: seq<Leg>)
    requires Waiting(cfg, c, line, legs) && line != []
    ensures var o := line[0].payload.order;
            && Shown(cfg, c, o, legs[0]) && Sums(legs[0]) && legs[0].fee >= 0
            && Need(line, legs) == Notional(o.price, o.qty) + legs[0].fee + Need(line[1..], legs[1..])
            && Need(line[1..], legs[1..]) >= 0
  {
    hide Shown, Notional, Execution.Walk, Book.AskLevels;
    assert Waiting(cfg, c, line[1..], legs[1..]) by {
      forall i, j | 0 <= i < j < |legs[1..]|
        ensures legs[1..][i].contract != legs[1..][j].contract
      {
        assert legs[i + 1].contract != legs[j + 1].contract;
      }
    }
    NeedNonNegative(cfg, c, line[1..], legs[1..]);
  }

  /** One leg's arrival, and what is left for the others. */
  lemma FirstArrives<S>(cfg: Config, c: Core<S>, id: nat, line: seq<Message>, legs: seq<Leg>)
    requires ValidConfig(cfg) && cfg.taker == PLAIN_TAKER && Inv(cfg, c) && c.error.None?
    requires line != [] && Waiting(cfg, c, line, legs) && Available(c) >= Need(line, legs)
    requires Arrived(c, id, line[0].payload.order) && c.records[id].filled == 0
    ensures Dispatchable(c, Arrival(id, line[0].payload.order))
    ensures
      var b := OnArrival(cfg, c, id, line[0].payload.order);
      && Inv(cfg, b) && b.error.None? && b.now == c.now && b.account == BuyLeg(c.account, legs[0])
      && OnlyFillNotices(c.heap, b.heap, c.now)
      && Waiting(cfg, b, line[1..], legs[1..]) && Available(b) >= Need(line[1..], legs[1..])
      && b.fillLog == c.fillLog + Entries(c.now, id, line[0].payload.order, legs[0].fills, LegFees(legs[0]))
      && AsksAt(b, legs[0].contract) == Residue(AsksAt(c, legs[0].contract), legs[0].qty)
      && forall k: Contract :: k != legs[0].contract ==> AsksAt(b, k) == AsksAt(c, k)
  {
    var o, l := line[0].payload.order, legs[0];
    hide Inv, Waiting, Shown, Sums, OnArrival, Arrived, Need, Entries, LegFees, BuyLeg, AsksAt, Residue, Notional, MapSum;
    hide OnlyFillNotices, Deplete, Execution.Walk, Book.AskLevels, Book.Valid, Dispatchable;
    NeedFirst(cfg, c, line, legs);
    LegArrives(cfg, c, id, o, l);
    ArrivalKeeps(cfg, c, id, o);
    var b := OnArrival(cfg, c, id, o);
    ShownParts(cfg, c, o, l);
    OthersShown(cfg, c, b, l.contract, l.qty);
    WaitingRest(cfg, c, b, line, legs);
    InvHeap(cfg, c);
    BuyLegEquity(c.account, l, (t: Ticker) => 0);
  }

  /** One turn of the loop with a line waiting: the first order arrives, fills as priced, and leaves. */
  lemma LineTurn<S>(cfg: Config, strat: Strategy<S>, w: World<S>, line: seq<Message>, legs: seq<Leg>)
    requires ValidConfig(cfg) && cfg.taker == PLAIN_TAKER && Inv(cfg, w.core) && w.core.error.None?
    requires LaterFeed(w.feed, w.core.now) && line != []
    requires InLine(w.core, line) && Waiting(cfg, w.core, line, legs) && Available(w.core) >= Need(line, legs)
    ensures
      var c, b := w.core, Step(cfg, strat, w).core;
      && Step(cfg, strat, w).feed == w.feed && Inv(cfg, b) && b.error.None? && b.now == c.now
      && InLine(b, line[1..]) && Waiting(cfg, b, line[1..], legs[1..]) && Available(b) >= Need(line[1..], legs[1..])
      && b.account == BuyLeg(c.account, legs[0])
      && b.fillLog == c.fillLog + Entries(c.now, line[0].payload.orderId, line[0].payload.order, legs[0].fills, LegFees(legs[0]))
      && AsksAt(b, legs[0].contract) == Residue(AsksAt(c, legs[0].contract), legs[0].qty)
      && forall k: Contract :: k != legs[0].contract ==> AsksAt(b, k) == AsksAt(c, k)
  {
    hide Inv, Shown, Sums, OnArrival, Arrived, Need, Entries, LegFees, BuyLeg, AsksAt, Residue;
    hide OnlyFillNotices, InLine, Dispatchable, Step, HeapOk;
    var c, m := w.core, line[0];
    var popped := c.(now := m.ts, heap := c.heap - {m});
    InvHeap(cfg, c);
    NextInLine(c, line);
    FirstInLine(c, line);
    Pop(cfg, c, m);
    WaitingAlike(cfg, c, popped, line, legs);
    hide Waiting;
    FirstArrives(cfg, popped, m.payload.orderId, line, legs);
    LineStep(cfg, strat, w, m);
    AsksAlike(c, popped);
    LineMoves(c, Step(cfg, strat, w).core, line);
  }

  lemma FirstInLine<S>(c: Core<S>, line: seq<Message>)
    requires InLine(c, line) && line != []
    ensures line[0].ts == c.now && line[0].payload.Arrival?
  {
  }

  lemma WaitingAlike<S>(cfg: Config, c: Core<S>, b: Core<S>, line: seq<Message>, legs: seq<Leg>)
    requires Waiting(cfg, c, line, legs) && b.markets == c.markets
    ensures Waiting(cfg, b, line, legs)
  {
    hide Shown, Sums;
    forall i | 0 <= i < |line|
      ensures Shown(cfg, b, line[i].payload.order, legs[i])
    {
      ShownAlike(cfg, c, b, line[i].payload.order, legs[i]);
    }
  }

  lemma AsksAlike<S>(c: Core<S>, b: Core<S>)
    requires b.markets == c.markets
    ensures forall k: Contract :: AsksAt(b, k) == AsksAt(c, k)
  {
    hide Book.AskLevels;
  }

  lemma {:induction false} RunFront<S>(cfg: Config, strat: Strategy<S>, w: World<S>, n: nat)
    requires n > 0
    ensures Run(cfg, strat, w, n) == Run(cfg, strat, Step(cfg, strat, w), n - 1)
  {
    hide Step;
    if n > 1 {
      RunFront(cfg, strat, w, n - 1);
    }
  }

  /** Everything the fills of a line of orders add to the log. */
  function LineEntries(now: int, line: seq<Message>, legs: seq<Leg>): seq<FillRecord>
    requires |line| == |legs| && forall i | 0 <= i < |line| :: line[i].payload.Arrival?
  {
    if line == [] then []
    else
      Entries(now, line[0].payload.orderId, line[0].payload.order, legs[0].fills, LegFees(legs[0]))
      + LineEntries(now, line[1..], legs[1..])
  }

  /** The whole line: as many turns as there are orders. */
  lemma {:induction false} LineRuns<S>(cfg: Config, strat: Strategy<S>, w: World<S>, line: seq<Message>, legs: seq<Leg>)
    requires ValidConfig(cfg) && cfg.taker == PLAIN_TAKER && Inv(cfg, w.core) && w.core.error.None?
    requires LaterFeed(w.feed, w.core.now)
    requires InLine(w.core, line) && Waiting(cfg, w.core, line, legs) && Available(w.core) >= Need(line, legs)
    ensures
      var c, b := w.core, Run(cfg, strat, w, |line|).core;
      && b.error.None? && b.now == c.now && b.account == BuyLegs(c.account, legs)
      && b.fillLog == c.fillLog + LineEntries(c.now, line, legs)
      && (forall i | 0 <= i < |legs| :: AsksAt(b, legs[i].contract) == Residue(AsksAt(c, legs[i].contract), legs[i].qty))
      && forall k: Contract :: (forall i | 0 <= i < |legs| :: legs[i].contract != k) ==> AsksAt(b, k) == AsksAt(c, k)
    decreases |line|
  {
    hide Inv, Shown, Sums, Need, Entries, LegFees, BuyLeg, AsksAt, Residue, InLine, Step, Available;
    if line != [] {
      var next := Step(cfg, strat, w);
      LineTurn(cfg, strat, w, line, legs);
      LineRuns(cfg, strat, next, line[1..], legs[1..]);
      RunFront(cfg, strat, w, |line|);
      var c, b := w.core, Run(cfg, strat, w, |line|).core;
      assert Run(cfg, strat, next, |line[1..]|).core == b;
      forall i | 0 <= i < |legs|
        ensures AsksAt(b, legs[i].contract) == Residue(AsksAt(c, legs[i].contract), legs[i].qty)
      {
        if i > 0 {
          assert legs[i] == legs[1..][i - 1];
          assert legs[0].contract != legs[i].contract;
        } else {
          assert forall j | 0 <= j < |legs[1..]| :: legs[1..][j].contract != legs[0].contract by {
            assert forall j | 0 <= j < |legs[1..]| :: legs[1..][j] == legs[j + 1];
          }
        }
      }
      forall k: Contract | forall i | 0 <= i < |legs| :: legs[i].contract != k
        ensures AsksAt(b, k) == AsksAt(c, k)
      {
        assert forall j | 0 <= j < |legs[1..]| :: legs[1..][j] == legs[j + 1];
        assert legs[0].contract != k;
      }
    }
  }

  // ---------------------------------------------------------------- sending a bundle

  /** The limit for a contract: the last, dearest fill of the first priced leg on it. */
  function LimitFor(legs: seq<Leg>, k: Contract): Price {
    if legs == [] then 0
    else if legs[0].contract == k && legs[0].fills != [] then legs[0].fills[|legs[0].fills| - 1].price
    else LimitFor(legs[1..], k)
  }

  /** `ArbitrageTaker`: one immediate-or-cancel order a leg, sized for s bundles. */
  function BundleOrders(priced: Execution.PricedBundle, s: Qty, tag: string): (orders: seq<Order>)
    ensures |orders| == |priced.constraint.legs|
  {
    var legs := priced.constraint.legs;
    seq(|legs|, i requires 0 <= i < |legs| =>
      Order(legs[i].contract.ticker, legs[i].contract.side, LimitFor(priced.legs, legs[i].contract),
            legs[i].qty * s, IOC, tag))
  }

  function Places(orders: seq<Order>): seq<Action> {
    seq(|orders|, i requires 0 <= i < |orders| => Place(orders[i]))
  }

  function SentLine<S>(c: Core<S>, orders: seq<Order>): (line: seq<Message>)
    ensures |line| == |orders|
    ensures forall i | 0 <= i < |line| :: line[i].payload == Arrival(c.nextId + i, orders[i])
  {
    seq(|orders|, i requires 0 <= i < |orders| =>
      Message(c.now, ORDER_ARRIVAL, c.sequence + 1 + i, Arrival(c.nextId + i, orders[i])))
  }

  /** Sending orders without latency only queues their arrivals. */
  lemma {:induction false} Sent<S>(cfg: Config, c: Core<S>, orders: seq<Order>)
    requires cfg.latencySubmit == 0 && c.error.None? && forall i | 0 <= i < |orders| :: orders[i].ticker in c.markets
    ensures
      var b := PerformAll(cfg, c, Places(orders));
      && b.error.None? && b.markets == c.markets && b.account == c.account && b.reserved == c.reserved && b.now == c.now
      && b.fillLog == c.fillLog
      && (forall m | m in b.heap :: m in c.heap || m in SentLine(c, orders))
      && (forall m | m in c.heap :: m in b.heap)
      && forall i | 0 <= i < |orders| :: SentLine(c, orders)[i] in b.heap
    decreases |orders|
  {
    var acts := Places(orders);
    if orders != [] {
      var next := Submit(cfg, c, orders[0]);
      var line, rest := SentLine(c, orders), SentLine(next, orders[1..]);
      assert acts[1..] == Places(orders[1..]);
      assert next.heap == c.heap + {line[0]} && next.markets == c.markets && next.error.None?;
      assert line == [line[0]] + rest;
      hide Submit, SentLine, Places;
      Sent(cfg, next, orders[1..]);
      var b := PerformAll(cfg, next, acts[1..]);
      assert PerformAll(cfg, c, acts) == b;
      forall i | 0 <= i < |orders|
        ensures line[i] in b.heap
      {
        assert i > 0 ==> line[i] == rest[i - 1];
      }
    }
  }

  /** Nothing else is due before orders sent now would arrive. */
  ghost predicate NothingDue<S>(c: Core<S>) {
    forall m | m in c.heap :: m.ts > c.now || (m.ts == c.now && m.priority > ORDER_ARRIVAL)
  }

  lemma SentInLine<S>(cfg: Config, c: Core<S>, orders: seq<Order>)
    requires cfg.latencySubmit == 0 && c.error.None? && NothingDue(c)
    requires forall i | 0 <= i < |orders| :: orders[i].ticker in c.markets
    ensures InLine(PerformAll(cfg, c, Places(orders)), SentLine(c, orders))
  {
    Sent(cfg, c, orders);
    hide PerformAll, Places;
  }

  /** The legs of a priced bundle, one by one. */
  lemma {:induction false} LegAt(legs: seq<Relationships.Leg>, books: Execution.Books, s: Qty, fees: FeeBook, i: nat)
    requires Execution.PriceLegs(legs, books, s, fees).Some? && i < |legs|
    ensures legs[i].contract.ticker in books
    ensures var p := Execution.PriceLeg(legs[i], books[legs[i].contract.ticker], s, fees.For(legs[i].contract.ticker));
            p.Some? && Execution.PriceLegs(legs, books, s, fees).value[i] == p.value
  {
    hide Execution.PriceLeg;
    var n := |legs| - 1;
    if i < n {
      LegAt(legs[..n], books, s, fees, i);
    }
  }

  lemma LimitIs(legs: seq<Leg>, i: nat)
    requires i < |legs| && legs[i].fills != [] && forall j, k | 0 <= j < k < |legs| :: legs[j].contract != legs[k].contract
    ensures LimitFor(legs, legs[i].contract) == legs[i].fills[|legs[i].fills| - 1].price
    decreases |legs|
  {
    if i > 0 {
      assert legs[0].contract != legs[i].contract;
      forall j, k | 0 <= j < k < |legs[1..]|
        ensures legs[1..][j].contract != legs[1..][k].contract
      {
        assert legs[j + 1].contract != legs[k + 1].contract;
      }
      LimitIs(legs[1..], i - 1);
    }
  }

  lemma {:induction false} WalkPrices(asks: seq<Level>, qty: Qty)
    requires forall l | l in asks :: ValidPrice(l.price)
    ensures forall i | 0 <= i < |Execution.Walk(asks, qty)| :: ValidPrice(Execution.Walk(asks, qty)[i].price)
  {
    if asks != [] && qty > 0 {
      WalkPrices(asks[1..], qty - Min(qty, asks[0].qty));
    }
  }

  /** A leg priced on a valid book is one an order limited at its last fill, or beyond, is sent for. */
  lemma PricedLegSent(cfg: Config, leg: Relationships.Leg, b: Book, s: Qty, most: Qty, o: Order)
    requires ValidConfig(cfg) && b.Valid() && leg.qty >= 1 && 0 < s <= most
    requires Execution.PriceLeg(leg, b, s, cfg.fees.For(leg.contract.ticker)).Some?
    requires Execution.PriceLeg(leg, b, most, cfg.fees.For(leg.contract.ticker)).Some?
    requires
      var fills := Execution.PriceLeg(leg, b, most, cfg.fees.For(leg.contract.ticker)).value.fills;
      fills != [] && o == Order(leg.contract.ticker, leg.contract.side, fills[|fills| - 1].price, leg.qty * s, IOC, o.tag)
    ensures var l := Execution.PriceLeg(leg, b, s, cfg.fees.For(leg.contract.ticker)).value;
            SentFor(cfg, b, o, l) && Sums(l) && l.contract == leg.contract && l.qty == leg.qty * s
  {
    hide Book.AskLevels, Book.Valid, Execution.Walk, SumQty, SumCost, FeeSchedule.OrderFee, Within, Execution.Unfilled;
    var asks := b.AskLevels(leg.contract.side);
    BookSized(b, leg.contract.side);
    AsksSorted(b, leg.contract.side);
    Larger(leg.qty, s, most);
    Execution.WalkFills(asks, leg.qty * s);
    Execution.WalkFills(asks, leg.qty * most);
    WalkPrices(asks, leg.qty * s);
    WalkPrices(asks, leg.qty * most);
    LastFillLimits(asks, leg.qty * most, leg.qty * s);
    FeeNonNegative(cfg.fees, leg.contract.ticker, Execution.Walk(asks, leg.qty * s), false);
  }

  lemma Larger(q: Qty, s: Qty, most: Qty)
    requires q >= 1 && 0 < s <= most
    ensures 0 < q * s <= q * most
  {
  }

  /** The engine shows, open and dated, the books the bundle was priced on. */
  ghost predicate Seen<S>(c: Core<S>, legs: seq<Relationships.Leg>, books: Execution.Books) {
    forall i | 0 <= i < |legs| ::
      var t := legs[i].contract.ticker;
      t in books && t in c.markets && c.markets[t].Open() && c.markets[t].book == Some(books[t]) && c.markets[t].bookTs.Some?
  }

  ghost predicate Distinct(legs: seq<Relationships.Leg>) {
    && (forall i | 0 <= i < |legs| :: legs[i].qty >= 1)
    && forall i, j | 0 <= i < j < |legs| :: legs[i].contract != legs[j].contract
  }

  predicate Priced(cfg: Config, k: Relationships.Constraint, books: Execution.Books, s: Qty) {
    Execution.PriceBundle(k, books, s, cfg.fees).Some?
  }

  function LegsOf(cfg: Config, k: Relationships.Constraint, books: Execution.Books, s: Qty): (legs: seq<Leg>)
    requires Priced(cfg, k, books, s)
    ensures |legs| == |k.legs|
  {
    Execution.PriceBundle(k, books, s, cfg.fees).value.legs
  }

  /** The orders for s bundles when `most` were detected. */
  function OrdersOf(cfg: Config, k: Relationships.Constraint, books: Execution.Books, s: Qty, most: Qty): (orders: seq<Order>)
    requires Priced(cfg, k, books, most)
    ensures |orders| == |k.legs|
  {
    BundleOrders(Execution.PriceBundle(k, books, most, cfg.fees).value, s, "")
  }

  lemma LegWaits<S>(
    cfg: Config, c: Core<S>, k: Relationships.Constraint, books: Execution.Books, s: Qty, most: Qty, i: nat)
    requires ValidConfig(cfg) && Inv(cfg, c) && Seen(c, k.legs, books) && Distinct(k.legs) && 0 < s <= most && i < |k.legs|
    requires Priced(cfg, k, books, s) && Priced(cfg, k, books, most)
    ensures
      var l := LegsOf(cfg, k, books, s)[i];
      var o := OrdersOf(cfg, k, books, s, most)[i];
      Shown(cfg, c, o, l) && Sums(l) && l.contract == k.legs[i].contract && o.ticker in c.markets && l.qty == k.legs[i].qty * s
  {
    hide Execution.PriceLeg, Sums, SentFor, Book.Valid, LimitFor;
    var leg := k.legs[i];
    var t := leg.contract.ticker;
    var b := books[t];
    InvBase(cfg, c);
    BookOf(cfg, c, t);
    hide Inv;
    LegAt(k.legs, books, s, cfg.fees, i);
    LegAt(k.legs, books, most, cfg.fees, i);
    var priced := LegsOf(cfg, k, books, most);
    forall j | 0 <= j < |priced|
      ensures priced[j].contract == k.legs[j].contract && priced[j].fills != []
    {
      LegAt(k.legs, books, most, cfg.fees, j);
      PricedShape(k.legs[j], books[k.legs[j].contract.ticker], most, cfg.fees.For(k.legs[j].contract.ticker));
    }
    LimitIs(priced, i);
    PricedLegSent(cfg, leg, b, s, most, OrdersOf(cfg, k, books, s, most)[i]);
  }

  lemma PricedShape(leg: Relationships.Leg, b: Book, s: Qty, fee: FeeSchedule)
    requires Execution.PriceLeg(leg, b, s, fee).Some?
    ensures Execution.PriceLeg(leg, b, s, fee).value.contract == leg.contract
    ensures Execution.PriceLeg(leg, b, s, fee).value.fills != []
  {
  }

  /** Enough cash: every order at its limit, and every fee. */
  ghost function Outlay(orders: seq<Order>, legs: seq<Leg>): int
    requires |orders| == |legs|
  {
    if orders == [] then 0
    else Notional(orders[0].price, orders[0].qty) + legs[0].fee + Outlay(orders[1..], legs[1..])
  }

  lemma {:induction false} OutlayIsNeed<S>(c: Core<S>, orders: seq<Order>, legs: seq<Leg>, line: seq<Message>)
    requires |orders| == |legs| == |line|
    requires forall i | 0 <= i < |line| :: line[i].payload.Arrival? && line[i].payload.order == orders[i]
    ensures Need(line, legs) == Outlay(orders, legs)
  {
    hide Notional;
    if line != [] {
      OutlayIsNeed(c, orders[1..], legs[1..], line[1..]);
    }
  }

  /** Everything that has to hold for a detected bundle to be replayed exactly: default taker model, no
      submission latency, nothing else due, the books it was priced on, and cash for its limits and fees. */
  ghost predicate Sendable<S>(
    cfg: Config, c: Core<S>, feed: seq<FeedEvent>, k: Relationships.Constraint, books: Execution.Books, s: Qty, most: Qty)
  {
    && ValidConfig(cfg) && cfg.taker == PLAIN_TAKER && cfg.latencySubmit == 0
    && Inv(cfg, c) && c.error.None? && NothingDue(c) && LaterFeed(feed, c.now)
    && Seen(c, k.legs, books) && 0 < s <= most
    && Priced(cfg, k, books, s) && Priced(cfg, k, books, most)
    && Available(c) >= Outlay(OrdersOf(cfg, k, books, s, most), LegsOf(cfg, k, books, s))
  }

  /** ... of a constraint that buys no contract in two legs: every compiled one. */
  ghost predicate Replayable<S>(
    cfg: Config, c: Core<S>, feed: seq<FeedEvent>, k: Relationships.Constraint, books: Execution.Books, s: Qty, most: Qty)
  {
    Sendable(cfg, c, feed, k, books, s, most) && Distinct(k.legs)
  }

  lemma CompiledDistinct(r: Relationships.Relation, k: Relationships.Constraint)
    requires r.Valid() && k in r.Constraints()
    ensures Distinct(k.legs)
  {
    hide Relationships.Relation.Constraints;
    Relationships.LegsOfRelation(r, k);
    Relationships.SeparateLegs(r, k);
  }

  /** The state after the strategy has sent the bundle's orders and they have all arrived. */
  ghost function Executed<S>(
    cfg: Config, strat: Strategy<S>, c: Core<S>, feed: seq<FeedEvent>, k: Relationships.Constraint, books: Execution.Books, s: Qty, most: Qty): Core<S>
    requires Priced(cfg, k, books, most)
  {
    Run(cfg, strat, World(Dispatched(cfg, c, k, books, s, most), feed), |k.legs|).core
  }

  lemma AvailableAlike<S>(c: Core<S>, b: Core<S>)
    requires b.account == c.account && b.reserved == c.reserved
    ensures Available(b) == Available(c)
  {
  }

  lemma InvAfter<S>(cfg: Config, c: Core<S>, orders: seq<Order>)
    requires ValidConfig(cfg) && Inv(cfg, c)
    ensures Inv(cfg, PerformAll(cfg, c, Places(orders)))
  {
    hide Base, LiveOk, OpenOk, PerformAll;
    PerformAllKeeps(cfg, c, Places(orders));
  }

  lemma AllWait<S>(cfg: Config, c: Core<S>, k: Relationships.Constraint, books: Execution.Books, s: Qty, most: Qty)
    requires ValidConfig(cfg) && Inv(cfg, c) && Seen(c, k.legs, books) && Distinct(k.legs) && 0 < s <= most
    requires Priced(cfg, k, books, s) && Priced(cfg, k, books, most)
    ensures
      var orders, legs := OrdersOf(cfg, k, books, s, most), LegsOf(cfg, k, books, s);
      && (forall i | 0 <= i < |legs| :: Shown(cfg, c, orders[i], legs[i]) && Sums(legs[i]))
      && (forall i | 0 <= i < |legs| :: legs[i].contract == k.legs[i].contract)
      && (forall i | 0 <= i < |orders| :: orders[i].ticker in c.markets)
  {
    hide Inv, Shown, Sums, OrdersOf, LegsOf, Seen, Priced;
    forall i | 0 <= i < |k.legs|
      ensures Shown(cfg, c, OrdersOf(cfg, k, books, s, most)[i], LegsOf(cfg, k, books, s)[i]) && Sums(LegsOf(cfg, k, books, s)[i])
      ensures LegsOf(cfg, k, books, s)[i].contract == k.legs[i].contract && OrdersOf(cfg, k, books, s, most)[i].ticker in c.markets
    {
      LegWaits(cfg, c, k, books, s, most, i);
    }
  }

  lemma BundleWaits<S>(cfg: Config, c: Core<S>, k: Relationships.Constraint, books: Execution.Books, s: Qty, most: Qty)
    requires ValidConfig(cfg) && Inv(cfg, c) && Seen(c, k.legs, books) && Distinct(k.legs) && 0 < s <= most
    requires Priced(cfg, k, books, s) && Priced(cfg, k, books, most)
    ensures
      var orders, legs := OrdersOf(cfg, k, books, s, most), LegsOf(cfg, k, books, s);
      && Waiting(cfg, c, SentLine(c, orders), legs) && (forall i | 0 <= i < |orders| :: orders[i].ticker in c.markets)
      && (forall i | 0 <= i < |legs| :: Sums(legs[i])) && Need(SentLine(c, orders), legs) == Outlay(orders, legs)
  {
    hide Inv, Shown, Sums, OrdersOf, LegsOf, Seen, Priced, Outlay, Need, SentLine;
    AllWait(cfg, c, k, books, s, most);
    OutlayIsNeed(c, OrdersOf(cfg, k, books, s, most), LegsOf(cfg, k, books, s), SentLine(c, OrdersOf(cfg, k, books, s, most)));
  }

  /** The state with the bundle's orders sent. */
  ghost function Dispatched<S>(
    cfg: Config, c: Core<S>, k: Relationships.Constraint, books: Execution.Books, s: Qty, most: Qty): Core<S>
    requires Priced(cfg, k, books, most)
  {
    PerformAll(cfg, c, Places(OrdersOf(cfg, k, books, s, most)))
  }

  lemma BundleSent<S>(
    cfg: Config, c: Core<S>, feed: seq<FeedEvent>, k: Relationships.Constraint, books: Execution.Books, s: Qty, most: Qty)
    requires Replayable(cfg, c, feed, k, books, s, most)
    ensures
      var b, legs := Dispatched(cfg, c, k, books, s, most), LegsOf(cfg, k, books, s);
      var line := SentLine(c, OrdersOf(cfg, k, books, s, most));
      && Inv(cfg, b) && b.error.None? && LaterFeed(feed, b.now) && InLine(b, line) && Waiting(cfg, b, line, legs)
      && Available(b) >= Need(line, legs)
      && b.account == c.account && b.fillLog == c.fillLog && b.now == c.now && b.markets == c.markets
  {
    var orders := OrdersOf(cfg, k, books, s, most);
    var legs := LegsOf(cfg, k, books, s);
    hide Inv, Shown, Sums, OrdersOf, LegsOf, SentLine, Available, Seen, Execution.PriceLegs, NothingDue, InLine, Places, Outlay, Need, Waiting;
    hide PerformAll;
    BundleWaits(cfg, c, k, books, s, most);
    Sent(cfg, c, orders);
    SentInLine(cfg, c, orders);
    InvAfter(cfg, c, orders);
    var b := PerformAll(cfg, c, Places(orders));
    WaitingAlike(cfg, c, b, SentLine(c, orders), legs);
    AvailableAlike(c, b);
  }

  /** A bundle detected on the engine's own books and sent at any size up to the detected one is bought
      exactly as priced: the ledger buys the detector's fills at its fees, the log shows just those, and
      each leg's asks are what its walk leaves. */
  lemma BundleFillsAsPriced<S>(
    cfg: Config, strat: Strategy<S>, c: Core<S>, feed: seq<FeedEvent>, k: Relationships.Constraint, books: Execution.Books, s: Qty, most: Qty)
    requires Replayable(cfg, c, feed, k, books, s, most)
    ensures
      var b, legs := Executed(cfg, strat, c, feed, k, books, s, most), LegsOf(cfg, k, books, s);
      && b.error.None? && b.account == BuyLegs(c.account, legs)
      && (forall i | 0 <= i < |legs| :: Sums(legs[i]) && AsksAt(b, legs[i].contract) == Residue(AsksAt(c, legs[i].contract), legs[i].qty))
      && (forall x: Contract :: (forall i | 0 <= i < |legs| :: legs[i].contract != x) ==> AsksAt(b, x) == AsksAt(c, x))
      && b.fillLog == c.fillLog + LineEntries(c.now, SentLine(c, OrdersOf(cfg, k, books, s, most)), legs)
  {
    var legs := LegsOf(cfg, k, books, s);
    var line := SentLine(c, OrdersOf(cfg, k, books, s, most));
    var sent := Dispatched(cfg, c, k, books, s, most);
    assert forall i | 0 <= i < |legs| :: Sums(legs[i]) by {
      hide Inv, Seen;
      BundleWaits(cfg, c, k, books, s, most);
    }
    hide Inv, Sums, OrdersOf, LegsOf, Priced, SentLine, Available, Execution.PriceLegs, InLine, AsksAt, Residue, Waiting, Need, Dispatched;
    BundleSent(cfg, c, feed, k, books, s, most);
    hide Replayable;
    AsksAlike(c, sent);
    LineRuns(cfg, strat, World(sent, feed), line, legs);
  }

  /** Detector and engine agree: in every world the bundle's realised profit, however its inventory nets
      against what was held, is the detector's settlement of it. */
  lemma RealisedIsPredicted<S>(
    cfg: Config, strat: Strategy<S>, c: Core<S>, feed: seq<FeedEvent>, k: Relationships.Constraint, books: Execution.Books, s: Qty, most: Qty,
    w: Relationships.World)
    requires Replayable(cfg, c, feed, k, books, s, most)
    ensures
      Equity(Executed(cfg, strat, c, feed, k, books, s, most).account, Relationships.Ticks(w))
      == Equity(c.account, Relationships.Ticks(w)) + Detector.SettleMicro(Execution.PriceBundle(k, books, s, cfg.fees).value, w)
  {
    BundleFillsAsPriced(cfg, strat, c, feed, k, books, s, most);
    InvHeap(cfg, c);
    hide Replayable, Executed, Equity, Sums, BuyLegs, Detector.SettleMicro, LegsProfit, Sound, AsksAt, Residue;
    var p := Execution.PriceBundle(k, books, s, cfg.fees).value;
    BuyLegsEquity(c.account, p.legs, Relationships.Ticks(w));
    ProfitIsSettlement(p, w);
  }

  /** ... so in every world its relation admits it realises at least the net edge the detector reported. */
  lemma RealisesTheEdge<S>(
    cfg: Config, strat: Strategy<S>, c: Core<S>, feed: seq<FeedEvent>, r: Relationships.Relation, k: Relationships.Constraint,
    books: Execution.Books, s: Qty, most: Qty, w: Relationships.World)
    requires Sendable(cfg, c, feed, k, books, s, most)
    requires r.Valid() && k in r.Constraints() && r.Admissible(w)
    ensures
      Equity(Executed(cfg, strat, c, feed, k, books, s, most).account, Relationships.Ticks(w))
      >= Equity(c.account, Relationships.Ticks(w)) + Execution.PriceBundle(k, books, s, cfg.fees).value.NetMicro()
  {
    CompiledDistinct(r, k);
    hide Executed, Equity, Relationships.Relation.Constraints, Relationships.Relation.Admissible;
    RealisedIsPredicted(cfg, strat, c, feed, k, books, s, most, w);
    Detector.SettlesAtLeastNet(r, k, books, s, cfg.fees, w);
  }

  // ---------------------------------------------------------------- one such state

  const REPLAY: Config := PLAIN.(initialCash := 5_000_000)
  const RULE: Relationships.Relation := Relationships.Implies("A", "C")
  const BUNDLE: Relationships.Constraint := Relationships.ImpliesConstraint("A", "C")
  const SIXTY: Book := Book(map[6_000 := 100], map[])
  const FORTY: Book := Book(map[], map[6_000 := 100])
  const SHOWN: Execution.Books := map["A" := SIXTY, "C" := FORTY]

  function Showing(): Core<int> {
    var c := Initial<int>(REPLAY, {"A", "C"}, 0);
    InMarket(InMarket(c, "A", MarketState(Some(SIXTY), Some(0), None, [], false, None)),
             "C", MarketState(Some(FORTY), Some(0), None, [], false, None))
  }

  lemma Names()
    ensures "A" != "C"
  {
    assert "A"[0] != "C"[0];
  }

  lemma ShowingInv()
    ensures ValidConfig(REPLAY) && Inv(REPLAY, Showing())
  {
    Names();
    InitialInv(REPLAY, {"A", "C"}, 0);
    Opened(REPLAY);
    hide Inv, Initial;
    var c := Initial<int>(REPLAY, {"A", "C"}, 0);
    var a := MarketState(Some(SIXTY), Some(0), None, [], false, None);
    DataKeeps(REPLAY, c, "A", a);
    DataKeeps(REPLAY, InMarket(c, "A", a), "C", MarketState(Some(FORTY), Some(0), None, [], false, None));
  }

  lemma ShowingSeen()
    ensures Showing().error.None? && NothingDue(Showing()) && Showing().now == 0
    ensures Available(Showing()) == 5_000_000 && Seen(Showing(), BUNDLE.legs, SHOWN)
  {
    Names();
    Opened(REPLAY);
  }

  lemma Opened(cfg: Config)
    ensures var c := Initial<int>(cfg, {"A", "C"}, 0);
            && "A" in c.markets && "C" in c.markets && c.heap == {} && c.reserved == map[] && c.error.None?
            && c.account.cash == cfg.initialCash
            && c.markets["A"] == c.markets["C"] == MarketState(None, None, None, [], false, None)
  {
  }

  lemma ShownAsks()
    ensures SIXTY.AskLevels(NO) == [Level(4_000, 100)] && FORTY.AskLevels(YES) == [Level(4_000, 100)]
  {
    var m: Bids := map[6_000 := 100];
    assert m.Keys == {6_000} && MaxKey(m.Keys) == 6_000;
    assert m - {6_000} == map[];
    assert Levels(m) == [Level(6_000, 100)] + Levels(map[]);
  }

  lemma ShownLeg(leg: Relationships.Leg, b: Book)
    requires leg.qty == 1 && b.AskLevels(leg.contract.side) == [Level(4_000, 100)]
    ensures Execution.PriceLeg(leg, b, 100, FeeSchedule(false, 1.0, EXACT_6DP, true))
         == Some(Execution.LegExecution(leg.contract, 100, [Fill(4_000, 100)], 400_000, 16_800, 4_000))
  {
    var f := FeeSchedule(false, 1.0, EXACT_6DP, true);
    OneFill(f, Fill(4_000, 100));
    assert f.FillFee(4_000, 100, false) == 16_800;
    hide FeeSchedule.FillFee, Book.AskLevels;
    assert Execution.Walk([Level(4_000, 100)], 100) == [Fill(4_000, 100)];
  }

  lemma ShownPriced()
    ensures Priced(REPLAY, BUNDLE, SHOWN, 100)
    ensures LegsOf(REPLAY, BUNDLE, SHOWN, 100)
         == [Execution.LegExecution(Contract("C", YES), 100, [Fill(4_000, 100)], 400_000, 16_800, 4_000),
             Execution.LegExecution(Contract("A", NO), 100, [Fill(4_000, 100)], 400_000, 16_800, 4_000)]
  {
    Names();
    ShownAsks();
    var legs := BUNDLE.legs;
    ShownLeg(legs[0], FORTY);
    ShownLeg(legs[1], SIXTY);
    hide Execution.PriceLeg, Book.AskLevels;
    assert legs[..1] == [legs[0]] && legs[..1][..0] == [];
    Execution.NextLeg(legs, SHOWN, 100, REPLAY.fees, 0);
    Execution.NextLeg(legs, SHOWN, 100, REPLAY.fees, 1);
    assert legs[..2] == legs;
  }

  /** A concrete state, bundle and edge all of this applies to: a rule whose two markets offer its legs at
      forty cents each, replayed for sixteen cents and a little more. */
  lemma ReplayExample()
    ensures RULE.Valid() && BUNDLE in RULE.Constraints()
    ensures Sendable(REPLAY, Showing(), [], BUNDLE, SHOWN, 100, 100)
    ensures Execution.PriceBundle(BUNDLE, SHOWN, 100, REPLAY.fees).value.NetMicro() == 166_400
  {
    Names();
    ShowingInv();
    ShowingSeen();
    ShownPriced();
    hide Inv, Showing, Available, Seen, NothingDue, Execution.PriceLegs, LimitFor;
    var legs := LegsOf(REPLAY, BUNDLE, SHOWN, 100);
    var orders := OrdersOf(REPLAY, BUNDLE, SHOWN, 100, 100);
    LimitIs(legs, 0);
    LimitIs(legs, 1);
    assert orders[0].price == 4_000 && orders[0].qty == 100 && orders[1].price == 4_000 && orders[1].qty == 100;
    TwoOrders(orders, legs);
    var p := Execution.PriceBundle(BUNDLE, SHOWN, 100, REPLAY.fees).value;
    assert p.legs == legs && p.legs == [legs[0], legs[1]];
    TwoLegs(p.legs);
    assert p.CostMicro() == 800_000 && p.FeeMicro() == 33_600;
  }

  lemma TwoOrders(orders: seq<Order>, legs: seq<Leg>)
    requires |orders| == |legs| == 2
    ensures Outlay(orders, legs)
         == Notional(orders[0].price, orders[0].qty) + legs[0].fee + Notional(orders[1].price, orders[1].qty) + legs[1].fee
  {
    hide Notional;
    assert Outlay(orders[1..][1..], legs[1..][1..]) == 0;
    assert Outlay(orders[1..], legs[1..]) == Notional(orders[1].price, orders[1].qty) + legs[1].fee;
  }

  lemma TwoLegs(legs: seq<Leg>)
    requires |legs| == 2
    ensures forall f: Leg -> int :: Execution.SumOver(legs, f) == f(legs[0]) + f(legs[1])
  {
    forall f: Leg -> int
      ensures Execution.SumOver(legs, f) == f(legs[0]) + f(legs[1])
    {
      assert legs[..1][..0] == [];
      assert Execution.SumOver(legs[..1], f) == f(legs[0]);
    }
  }
}
