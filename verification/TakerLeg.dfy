/** The taker leg of an arriving order in full: how the fee is split over its fills, what the ledger and
    the log take, and what exactly happens to buying power. */
module TakerLeg {
  import opened Units
  import opened MapSums
  import opened OrderBooks
  import opened Fees
  import opened Fills
  import opened Ledger
  import opened Engine
  import opened EngineGrowth
  import opened EngineInvariant
  import opened EngineSafety
  import opened EngineTurns
  import opened SafeRuns

  // ---------------------------------------------------------------- the fee, split

  /** What each fill in turn is charged. */
  function FeeShares(total: int, left: int, fills: seq<Fill>, all: Qty): (shares: seq<int>)
    ensures |shares| == |fills|
    decreases |fills|
  {
    if fills == [] then []
    else
      var fee := FeeShare(total, left, fills[0].qty, all, |fills| == 1);
      [fee] + FeeShares(total, left - fee, fills[1..], all)
  }

  lemma SumFront(x: int, xs: seq<int>)
    ensures SumInts([x] + xs) == x + SumInts(xs)
  {
    if xs == [] {
      assert [x] + xs == [x];
      assert SumInts([x]) == SumInts([]) + x;
    } else {
      var all := [x] + xs;
      assert all[..|all| - 1] == [x] + xs[..|xs| - 1];
      SumFront(x, xs[..|xs| - 1]);
    }
  }

  /** Whatever is still to be charged is charged, and no share is negative. */
  lemma {:induction false} SharesAddUp(total: int, left: int, fills: seq<Fill>, all: Qty)
    requires total >= 0 && all > 0 && fills != [] && AllPositive(fills) && Covers(left, all, total, SumQty(fills))
    ensures SumInts(FeeShares(total, left, fills, all)) == left
    ensures forall i | 0 <= i < |fills| :: FeeShares(total, left, fills, all)[i] >= 0
    decreases |fills|
  {
    hide Covers, FloorDiv, SumInts;
    var rest := fills[1..];
    assert AllPositive(rest);
    SumPositive(rest);
    FeeStep(total, left, fills[0].qty, all, SumQty(rest));
    FeeShareStep(total, left, fills, all);
    var fee := FeeShare(total, left, fills[0].qty, all, |fills| == 1);
    SumFront(fee, FeeShares(total, left - fee, rest, all));
    if rest != [] {
      SharesAddUp(total, left - fee, rest, all);
    } else {
      assert SumInts([]) == 0 by { NoInts(); }
    }
  }

  lemma NoInts()
    ensures SumInts([]) == 0
  {
  }

  lemma {:induction false} SumPositive(fills: seq<Fill>)
    requires AllPositive(fills)
    ensures SumQty(fills) >= 0 && (fills != [] ==> SumQty(fills) > 0)
  {
    if fills != [] {
      SumPositive(fills[1..]);
    }
  }

  /** Proportional, floored, the rest on the last fill: the split is non-negative and loses nothing. */
  lemma FeeSplit(total: int, fills: seq<Fill>)
    requires total >= 0 && fills != [] && AllPositive(fills)
    ensures
      var shares := FeeShares(total, total, fills, SumQty(fills));
      && SumInts(shares) == total && SumQty(fills) > 0
      && (forall i | 0 <= i < |shares| :: shares[i] >= 0)
      && forall i | 0 <= i < |shares| - 1 :: shares[i] == FloorDiv(total * fills[i].qty, SumQty(fills))
  {
    SumPositive(fills);
    CoversAll(total, SumQty(fills));
    SharesAddUp(total, total, fills, SumQty(fills));
    SharesFloored(total, total, fills, SumQty(fills));
  }

  lemma {:induction false} SharesFloored(total: int, left: int, fills: seq<Fill>, all: Qty)
    requires all > 0
    ensures forall i | 0 <= i < |fills| - 1 ::
              FeeShares(total, left, fills, all)[i] == FloorDiv(total * fills[i].qty, all)
    decreases |fills|
  {
    hide FloorDiv;
    if |fills| > 1 {
      var fee := FeeShare(total, left, fills[0].qty, all, false);
      SharesFloored(total, left - fee, fills[1..], all);
      forall i | 0 < i < |fills| - 1
        ensures FeeShares(total, left, fills, all)[i] == FloorDiv(total * fills[i].qty, all)
      {
        assert FeeShares(total, left, fills, all)[i] == FeeShares(total, left - fee, fills[1..], all)[i - 1];
        assert fills[1..][i - 1] == fills[i];
      }
    }
  }

  // ---------------------------------------------------------------- what booking the fills leaves

  /** The ledger after buying the fills one by one. */
  function BoughtAll(a: Account, t: Ticker, side: Side, fills: seq<Fill>, fees: seq<int>): Account
    requires |fees| == |fills|
    decreases |fills|
  {
    if fills == [] then a
    else BoughtAll(Bought(a, t, side, fills[0].price, fills[0].qty, fees[0]), t, side, fills[1..], fees[1..])
  }

  function Entries(now: int, id: nat, o: Order, fills: seq<Fill>, fees: seq<int>): seq<FillRecord>
    requires |fees| == |fills|
  {
    seq(|fills|, i requires 0 <= i < |fills| =>
      FillRecord(now, id, o.ticker, o.side, fills[i].price, fills[i].qty, fees[i], false, o.tag))
  }

  /** Of the messages, only fill notices from now on are new. */
  ghost predicate OnlyFillNotices(a: set<Message>, b: set<Message>, now: int) {
    a <= b && forall m | m in b && m !in a :: m.priority == FILL_NOTICE && m.payload.Notify? && m.ts >= now
  }

  lemma BoughtSettled(a: Account, t: Ticker, side: Side, price: Price, qty: Qty, fee: int)
    ensures Bought(a, t, side, price, qty, fee).settled == a.settled
  {
    hide Notional, ShareOfCost;
  }

  /** With the market unsettled, every fill is bought and logged with its share of the fee. */
  lemma {:induction false} RecordFillsIs<S>(
    cfg: Config, c: Core<S>, id: nat, o: Order, fills: seq<Fill>, total: int, left: int, all: Qty)
    requires id in c.records && c.error.None? && o.ticker !in c.account.settled && cfg.latencyAck >= 0
    ensures
      var b := RecordFills(cfg, c, id, o, fills, total, left, all);
      var fees := FeeShares(total, left, fills, all);
      && b.error.None?
      && b.account == BoughtAll(c.account, o.ticker, o.side, fills, fees)
      && b.fillLog == c.fillLog + Entries(c.now, id, o, fills, fees)
      && b.reserved == c.reserved && b.orders == c.orders && b.queues == c.queues && b.markets == c.markets
      && id in b.records && b.now == c.now && b.account.settled == c.account.settled
      && OnlyFillNotices(c.heap, b.heap, c.now)
    decreases |fills|
  {
    hide Bought, FeeShare, LogFill, OnlyFillNotices, Entries, NoticeOf;
    NoticesSame(c.heap, c.now);
    if fills == [] {
      NoEntries(c.now, id, o);
    } else {
      var fee := FeeShare(total, left, fills[0].qty, all, |fills| == 1);
      var f := FillOf(c.now, id, o, fills[0].price, fills[0].qty, fee, false);
      LoggedParts(cfg, c, f);
      BoughtSettled(c.account, o.ticker, o.side, f.price, f.qty, fee);
      var next := LogFill(cfg, c, f);
      RecordFillsIs(cfg, next, id, o, fills[1..], total, left - fee, all);
      NoticesMore(c.heap, RecordFills(cfg, c, id, o, fills, total, left, all).heap, c.now,
                  Message(c.now + cfg.latencyAck, FILL_NOTICE, c.sequence + 1, Notify(NoticeOf(f))));
      EntriesFront(c.now, id, o, fills, FeeShares(total, left, fills, all));
    }
  }

  lemma NoEntries(now: int, id: nat, o: Order)
    ensures Entries(now, id, o, [], []) == []
  {
  }

  lemma NoticesSame(h: set<Message>, now: int)
    ensures OnlyFillNotices(h, h, now)
  {
  }

  lemma NoticesMore(a: set<Message>, b: set<Message>, now: int, m: Message)
    requires OnlyFillNotices(a + {m}, b, now) && m.priority == FILL_NOTICE && m.payload.Notify? && m.ts >= now
    ensures OnlyFillNotices(a, b, now)
  {
  }

  lemma EntriesFront(now: int, id: nat, o: Order, fills: seq<Fill>, fees: seq<int>)
    requires |fees| == |fills| && fills != []
    ensures Entries(now, id, o, fills, fees)
         == [FillOf(now, id, o, fills[0].price, fills[0].qty, fees[0], false)] + Entries(now, id, o, fills[1..], fees[1..])
  {
  }

  // ---------------------------------------------------------------- buying power

  /** Cash not spoken for by resting orders: `available_cash`. */
  ghost function Available<S>(c: Core<S>): int {
    c.account.cash - MapSum(c.reserved)
  }

  function Held(a: Account, t: Ticker, side: Side): Qty {
    if side.YES? then a.At(t).yes else a.At(t).no
  }

  /** What netting pays back when so many of the side are bought. */
  function NettedBack(a: Account, t: Ticker, side: Side, qty: Qty): int {
    Notional(PRICE_SCALE, Min(Held(a, t, side.Opposite()), qty))
  }

  lemma BuyCash(a: Account, t: Ticker, side: Side, price: Price, qty: Qty, fee: int)
    requires Sound(a) && qty >= 0
    ensures var b := Bought(a, t, side, price, qty, fee);
            && b.cash == a.cash - Notional(price, qty) - fee + NettedBack(a, t, side, qty)
            && Held(b, t, side.Opposite()) == Held(a, t, side.Opposite()) - Min(Held(a, t, side.Opposite()), qty)
            && Held(a, t, side.Opposite()) >= 0
  {
    assert a.At(t).Valid() by { EmptyValid(a, t); }
    hide Sound, ShareOfCost;
    NotionalSplit(PRICE_SCALE, 0, 0);
    hide Notional;
  }

  lemma EmptyValid(a: Account, t: Ticker)
    requires Sound(a)
    ensures a.At(t).Valid()
  {
  }

  lemma BuyStaysSound(a: Account, t: Ticker, side: Side, price: Price, qty: Qty, fee: int)
    requires Sound(a) && 0 <= price <= PRICE_SCALE && qty >= 0
    ensures Sound(Bought(a, t, side, price, qty, fee))
    ensures Bought(a, t, side, price, qty, fee).cash >= a.cash - Notional(price, qty) - fee
  {
    hide Bought, Notional, OpenCost, Sound;
    BuyKeeps(a, t, side, price, qty, fee, a.cash + OpenCost(a.positions) - a.realised + a.fees);
  }

  lemma NettedTwice(h: Qty, first: Qty, rest: Qty)
    requires h >= 0 && first >= 0 && rest >= 0
    ensures Notional(PRICE_SCALE, Min(h, first)) + Notional(PRICE_SCALE, Min(h - Min(h, first), rest))
         == Notional(PRICE_SCALE, Min(h, first + rest))
  {
    NotionalSplit(PRICE_SCALE, Min(h, first), Min(h - Min(h, first), rest));
    hide Notional;
  }

  lemma {:induction false} BuyAllCash(a: Account, t: Ticker, side: Side, fills: seq<Fill>, fees: seq<int>)
    requires |fees| == |fills| && Sound(a) && Fits(fills, PRICE_SCALE)
    ensures BoughtAll(a, t, side, fills, fees).cash
         == a.cash - SumCost(fills) - SumInts(fees) + NettedBack(a, t, side, SumQty(fills))
    decreases |fills|
  {
    hide Bought, SumInts, Held, Sound, Notional;
    NoInts();
    EmptyHeld(a, t, side);
    if fills == [] {
      NotionalSplit(PRICE_SCALE, 0, 0);
    } else {
      var f, rest := fills[0], fills[1..];
      var next := Bought(a, t, side, f.price, f.qty, fees[0]);
      assert fees == [fees[0]] + fees[1..];
      SumFront(fees[0], fees[1..]);
      BuyCash(a, t, side, f.price, f.qty, fees[0]);
      BuyStaysSound(a, t, side, f.price, f.qty, fees[0]);
      FitsSum(rest, PRICE_SCALE);
      BuyAllCash(next, t, side, rest, fees[1..]);
      NettedTwice(Held(a, t, side.Opposite()), f.qty, SumQty(rest));
      CostOf(f);
    }
  }

  lemma EmptyHeld(a: Account, t: Ticker, side: Side)
    requires Sound(a)
    ensures Held(a, t, side.Opposite()) >= 0
  {
    EmptyValid(a, t);
  }

  lemma CostOf(f: Fill)
    ensures Notional(f.price, f.qty) == f.price * f.qty
  {
  }

  /** The checks an arriving order passes. */
  ghost predicate Accepted<S>(c: Core<S>, o: Order) {
    && o.ticker in c.markets && c.markets[o.ticker].Open() && o.qty > 0 && ValidPrice(o.price)
    && Available(c) >= Notional(o.price, o.qty)
    && !(Marketable(c.markets[o.ticker], o) && o.tif.POST_ONLY?)
  }

  ghost function FillsOf<S>(cfg: Config, c: Core<S>, o: Order): seq<Fill>
    requires o.ticker in c.markets
  {
    if Marketable(c.markets[o.ticker], o) then TakerFills(cfg, c, o) else []
  }

  function FeeOf(cfg: Config, o: Order, fills: seq<Fill>): int {
    if fills == [] then 0 else cfg.fees.For(o.ticker).OrderFee(fills, false)
  }

  function RestedOf(o: Order, fills: seq<Fill>): int {
    if o.tif.IOC? || o.qty <= SumQty(fills) then 0 else Notional(o.price, o.qty - SumQty(fills))
  }

  lemma RestReserves<S>(cfg: Config, c: Core<S>, id: nat, o: Order, remaining: Qty)
    requires id in c.records && o.ticker in c.markets && id !in c.reserved
    ensures Available(Rest(cfg, c, id, o, remaining))
         == Available(c) - (if o.tif.IOC? || remaining <= 0 then 0 else Notional(o.price, remaining))
  {
    hide Notional, LevelSize, Share;
    Put(c.reserved, id, Notional(o.price, remaining));
    hide MapSum;
  }

  lemma TakeSpends<S>(cfg: Config, c: Core<S>, id: nat, o: Order, fills: seq<Fill>)
    requires ValidConfig(cfg) && id in c.records && c.error.None? && o.ticker !in c.account.settled
    requires o.ticker in c.markets && c.markets[o.ticker].book.Some? && c.markets[o.ticker].book.value.Valid()
    requires Fits(fills, o.price) && o.price <= PRICE_SCALE && Sound(c.account)
    ensures var b := Take(cfg, c, id, o, fills);
            && Available(b) == Available(c) - SumCost(fills) - FeeOf(cfg, o, fills)
                               + NettedBack(c.account, o.ticker, o.side, SumQty(fills))
            && b.error.None? && id in b.records && b.markets.Keys == c.markets.Keys && b.reserved == c.reserved
  {
    hide MapSum, RecordFills, FeeSchedule.OrderFee, Book.Valid, Deplete, Held, SumInts, FeeShares, Sound, NettedBack, SumQty;
    NothingBack(c.account, o.ticker, o.side);
    if fills != [] {
      var fee, all := FeeOf(cfg, o, fills), SumQty(fills);
      FitsSane(fills, o.price);
      FeeNonNegative(cfg.fees, o.ticker, fills, false);
      RecordFillsIs(cfg, c, id, o, fills, fee, fee, all);
      FeeSplit(fee, fills);
      BuyAllCash(c.account, o.ticker, o.side, fills, FeeShares(fee, fee, fills, all));
    }
  }

  lemma NothingBack(a: Account, t: Ticker, side: Side)
    requires Sound(a)
    ensures NettedBack(a, t, side, SumQty([])) == 0 && SumCost([]) == 0
  {
    EmptyHeld(a, t, side);
    NotionalSplit(PRICE_SCALE, 0, 0);
    hide Notional;
  }

  /** An accepted order takes what it can and rests what is left. */
  lemma AcceptedIs<S>(cfg: Config, c: Core<S>, id: nat, o: Order)
    requires Dispatchable(c, Arrival(id, o)) && Accepted(c, o) && c.error.None?
    requires Marketable(c.markets[o.ticker], o) ==>
               Take(cfg, c, id, o, TakerFills(cfg, c, o)).error.None?
               && id in Take(cfg, c, id, o, TakerFills(cfg, c, o)).records
               && o.ticker in Take(cfg, c, id, o, TakerFills(cfg, c, o)).markets
    ensures OnArrival(cfg, c, id, o)
         == if Marketable(c.markets[o.ticker], o)
            then Rest(cfg, Take(cfg, c, id, o, TakerFills(cfg, c, o)), id, o, o.qty - SumQty(TakerFills(cfg, c, o)))
            else Rest(cfg, c, id, o, o.qty)
  {
    hide Rest, Take, TakerFills, SumQty, Notional, MapSum, Book.Valid, Book.BestAsk;
  }

  lemma Listed<S>(cfg: Config, c: Core<S>, id: nat, o: Order)
    requires Inv(cfg, c) && Arrived(c, id, o) && o.ticker in c.markets && c.markets[o.ticker].Open()
    ensures Dispatchable(c, Arrival(id, o)) && o.ticker !in c.account.settled && id !in c.reserved
    ensures c.markets[o.ticker].book.Some? ==> c.markets[o.ticker].book.value.Valid()
  {
    InvBase(cfg, c);
    OpenUnsettled(cfg, c, o.ticker);
    ReservedApart(cfg, c, id);
    BookOf(cfg, c, o.ticker);
  }

  /** What an accepted order does to buying power: its fills, their fee, the reservation of what rests,
      and the dollars that netting against the other side pays back. */
  lemma ArrivalSpends<S>(cfg: Config, c: Core<S>, id: nat, o: Order)
    requires ValidConfig(cfg) && Inv(cfg, c) && c.error.None? && Arrived(c, id, o) && Accepted(c, o)
    ensures Dispatchable(c, Arrival(id, o))
    ensures var fills := FillsOf(cfg, c, o);
            Available(OnArrival(cfg, c, id, o))
            == Available(c) - SumCost(fills) - FeeOf(cfg, o, fills) - RestedOf(o, fills)
               + NettedBack(c.account, o.ticker, o.side, SumQty(fills))
  {
    hide Inv, MapSum, Available, Notional, Rest, Take, TakerFills, Held, SumQty, SumCost, Book.Valid, Book.BestAsk;
    hide NotPending, FeeSchedule.OrderFee, OnArrival, Dispatchable, NettedBack, Sound;
    InvSound(cfg, c);
    Listed(cfg, c, id, o);
    PriceInside(o.price);
    NothingBack(c.account, o.ticker, o.side);
    if Marketable(c.markets[o.ticker], o) {
      var fills := TakerFills(cfg, c, o);
      InvBase(cfg, c);
      TakenParts(cfg, c, o);
      TakeSpends(cfg, c, id, o, fills);
      AcceptedIs(cfg, c, id, o);
      RestReserves(cfg, Take(cfg, c, id, o, fills), id, o, o.qty - SumQty(fills));
    } else {
      NoFills();
      AcceptedIs(cfg, c, id, o);
      RestReserves(cfg, c, id, o, o.qty);
    }
  }

  lemma InvSound<S>(cfg: Config, c: Core<S>)
    requires Inv(cfg, c)
    ensures Sound(c.account)
  {
  }

  lemma NoFills()
    ensures SumQty([]) == 0 && SumCost([]) == 0
  {
  }

  lemma PriceInside(p: Price)
    requires ValidPrice(p)
    ensures 0 < p <= PRICE_SCALE
  {
  }

  lemma ReservedApart<S>(cfg: Config, c: Core<S>, id: nat)
    requires Base(cfg, c) && id !in c.orders
    ensures id !in c.reserved
  {
  }

  /** The claim that no order outruns the account, exactly: after an accepted order there is no shortfall
      if and only if what the order leaves of the available cash also covers the fee, which the purchase
      check leaves out. */
  lemma BuyingPowerExactly<S>(cfg: Config, c: Core<S>, id: nat, o: Order)
    requires ValidConfig(cfg) && Inv(cfg, c) && c.error.None? && Arrived(c, id, o) && Accepted(c, o)
    ensures
      var fills := FillsOf(cfg, c, o);
      var left := Available(c) - SumCost(fills) - RestedOf(o, fills) + NettedBack(c.account, o.ticker, o.side, SumQty(fills));
      && Dispatchable(c, Arrival(id, o)) && left >= 0
      && (Available(OnArrival(cfg, c, id, o)) >= 0 <==> FeeOf(cfg, o, fills) <= left)
  {
    hide Inv, Available, Notional, TakerFills, Held, SumQty, SumCost, Book.BestAsk, NettedBack, Sound;
    hide NotPending, FeeSchedule.OrderFee, OnArrival, Dispatchable;
    InvSound(cfg, c);
    ArrivalSpends(cfg, c, id, o);
    PriceInside(o.price);
    NoFills();
    if Marketable(c.markets[o.ticker], o) {
      var fills := TakerFills(cfg, c, o);
      CostWithin(cfg, c, o);
      BackNonNegative(c.account, o.ticker, o.side, fills);
      NotionalOrder(o.price, o.price, o.qty - SumQty(fills));
      NotionalSplit(o.price, o.qty, SumQty(fills));
    } else {
      BackNonNegative(c.account, o.ticker, o.side, []);
      NotionalOrder(o.price, o.price, o.qty);
    }
  }

  lemma BackNonNegative(a: Account, t: Ticker, side: Side, fills: seq<Fill>)
    requires Sound(a) && SumQty(fills) >= 0
    ensures NettedBack(a, t, side, SumQty(fills)) >= 0
  {
    EmptyHeld(a, t, side);
    NotionalOrder(0, PRICE_SCALE, Min(Held(a, t, side.Opposite()), SumQty(fills)));
    hide Notional, Sound;
  }

  lemma CostWithin<S>(cfg: Config, c: Core<S>, o: Order)
    requires o.ticker in c.markets && o.qty > 0
    ensures SumCost(TakerFills(cfg, c, o)) <= Notional(o.price, SumQty(TakerFills(cfg, c, o)))
    ensures 0 <= SumQty(TakerFills(cfg, c, o)) <= o.qty
  {
    hide TakerModel.Walk, Book.AskLevels, SumQty, SumCost;
    NoFills();
    var m := c.markets[o.ticker];
    if m.book.Some? {
      TakerWithinLimit(cfg.taker, m.book.value.AskLevels(o.side), o.price, o.qty);
    }
  }

  // ---------------------------------------------------------------- a shortfall

  const M: Ticker := "M"
  const ONE_ORDER: Order := Order(M, YES, 5_000, 100, IOC, "")
  const PLAIN: Config := Config(
    500_000, 0, 0, 0, TakerModel(None, 0, 1.0), Queue(1.0, 0.5),
    FeeBook(map[], FeeSchedule(false, 1.0, EXACT_6DP, true)), 64)

  const ONE_ASK: Book := Book(map[], map[5_000 := 100])

  /** Fifty cents in the account, one contract offered at fifty cents, and an order for it just arrived. */
  function Strapped(): Core<int> {
    var c := Initial<int>(PLAIN, {M}, 0);
    Noted(PLAIN, InMarket(c, M, MarketState(Some(ONE_ASK), Some(0), None, [], false, None)), ONE_ORDER)
  }

  lemma NotedInv<S>(cfg: Config, c: Core<S>, o: Order)
    requires Inv(cfg, c) && c.heap == {} && c.orders == map[]
    ensures Inv(cfg, Noted(cfg, c, o)) && Arrived(Noted(cfg, c, o), c.nextId, o)
  {
    hide QueuesOk, ReservedOk, LogOk, MoneyOk, BooksOk, SettledOk, RestsAs, Numbered;
    var rec := OrderRecord(c.now, c.now + cfg.latencySubmit, o, SUBMITTED, 0);
    AddRecord(c.records, c.nextId, rec, c.now);
    LogNote(c.records, c.fillLog, c.nextId, rec);
  }

  lemma StrappedInv()
    ensures ValidConfig(PLAIN) && Inv(PLAIN, Strapped()) && Arrived(Strapped(), 1, ONE_ORDER) && Strapped().error.None?
  {
    var c := Initial<int>(PLAIN, {M}, 0);
    var m := MarketState(Some(ONE_ASK), Some(0), None, [], false, None);
    InitialInv(PLAIN, {M}, 0);
    hide Inv;
    DataKeeps(PLAIN, c, M, m);
    NotedInv(PLAIN, InMarket(c, M, m), ONE_ORDER);
  }

  lemma OneAskLevels()
    ensures ONE_ASK.AskLevels(YES) == [Level(5_000, 100)]
    ensures ONE_ASK.BestAsk(YES) == Some(Level(5_000, 100))
  {
    var m: Bids := map[5_000 := 100];
    assert m.Keys == {5_000} && MaxKey(m.Keys) == 5_000;
    assert m - {5_000} == map[];
    assert Levels(m) == [Level(5_000, 100)] + Levels(map[]);
  }

  lemma StrappedBook()
    ensures Strapped().markets[M].book == Some(ONE_ASK)
    ensures Strapped().markets[M].book.value.AskLevels(YES) == [Level(5_000, 100)]
    ensures Strapped().markets[M].book.value.BestAsk(YES) == Some(Level(5_000, 100))
  {
    hide Book.BestAsk, Book.AskLevels;
    OneAskLevels();
  }

  lemma StrappedAccepted()
    ensures Accepted(Strapped(), ONE_ORDER) && Marketable(Strapped().markets[M], ONE_ORDER)
    ensures Available(Strapped()) == 500_000 && Held(Strapped().account, M, NO) == 0
  {
    StrappedBook();
    hide Book.BestAsk, Book.AskLevels;
  }

  lemma OneFill(f: FeeSchedule, x: Fill)
    ensures f.RoundedTotal([x], false) == f.FillFee(x.price, x.qty, false)
  {
    assert f.RoundedTotal([], false) == 0;
    hide FeeSchedule.FillFee;
  }

  lemma StrappedFee()
    ensures FillsOf(PLAIN, Strapped(), ONE_ORDER) == [Fill(5_000, 100)]
    ensures FeeOf(PLAIN, ONE_ORDER, [Fill(5_000, 100)]) == 17_500 && SumCost([Fill(5_000, 100)]) == 500_000
  {
    StrappedBook();
    StrappedAccepted();
    hide Book.BestAsk, Book.AskLevels, Accepted;
    assert Share(1.0, 100) == 100;
    var f := FeeSchedule(false, 1.0, EXACT_6DP, true);
    OneFill(f, Fill(5_000, 100));
    assert f.FillFee(5_000, 100, false) == 17_500;
  }

  /** The fee takes the account below zero: the claim fails here, by exactly the fee. */
  lemma FeesOutrunCash(strat: Strategy<int>)
    ensures Available(Strapped()) == Notional(5_000, 100)
    ensures Available(Dispatch(PLAIN, strat, Strapped(), Arrival(1, ONE_ORDER))) == -17_500
  {
    hide Inv, OnArrival, Available, Accepted, Strapped, FeeOf, FillsOf, SumCost, Dispatchable, Arrived, Held;
    StrappedInv();
    StrappedAccepted();
    StrappedFee();
    ArrivalSpends(PLAIN, Strapped(), 1, ONE_ORDER);
    NotionalSplit(PRICE_SCALE, 0, 0);
  }
}
