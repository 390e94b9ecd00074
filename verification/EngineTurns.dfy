/** The invariant over feed events, arriving orders and whole turns of the main loop. */
module EngineTurns {
  import opened Units
  import opened MapSums
  import opened OrderBooks
  import opened Fees
  import opened Fills
  import opened Ledger
  import opened Engine
  import opened EngineGrowth
  import opened EngineInvariant
  import opened EngineSafety
  import FillDominance

  // ---------------------------------------------------------------- feed events

  ghost predicate ValidEvent(ev: FeedEvent) {
    ev.Settlement? ==> 0 <= ev.value <= PRICE_SCALE
  }

  /** New data for a market that stays as open or closed as it was. */
  lemma DataKeeps<S>(cfg: Config, c: Core<S>, t: Ticker, m: MarketState)
    requires Inv(cfg, c) && t in c.markets
    requires m.closed == c.markets[t].closed && m.outcome == c.markets[t].outcome
    requires m.book.Some? ==> m.book.value.Valid()
    ensures Inv(cfg, InMarket(c, t, m))
  {
    hide Numbered, HeapOk, PendingOk, QueuesOk, ReservedOk, RestingOk, LogOk, MoneyOk, LiveOk, Book.Valid;
    assert c.markets[t := m].Keys == c.markets.Keys;
  }

  lemma ConfirmKeeps<S>(cfg: Config, c: Core<S>, ts: int, ticker: Ticker)
    requires Inv(cfg, c)
    ensures Inv(cfg, c.(markets := Confirm(c.markets, ts, ticker)))
  {
    hide Numbered, HeapOk, PendingOk, QueuesOk, ReservedOk, RestingOk, LogOk, MoneyOk, LiveOk, Book.Valid;
    ConfirmKeys(c.markets, ts, ticker);
  }

  lemma ClosedBase<S>(cfg: Config, c: Core<S>, t: Ticker, m: MarketState)
    requires Base(cfg, c) && t in c.markets && m.book == c.markets[t].book
    requires c.markets[t].outcome.Some? ==> m.outcome.Some?
    ensures Base(cfg, InMarket(c, t, m))
  {
    hide Numbered, HeapOk, PendingOk, QueuesOk, ReservedOk, RestingOk, LogOk, MoneyOk, Book.Valid;
    assert c.markets[t := m].Keys == c.markets.Keys;
  }

  lemma QueueIsAll<S>(cfg: Config, c: Core<S>, t: Ticker)
    requires Base(cfg, c)
    ensures forall id | id in c.orders :: c.orders[id].ticker == t <==> id in c.Queue(t)
  {
    hide Numbered, HeapOk, PendingOk, ReservedOk, RestingOk, LogOk, MoneyOk, BooksOk, SettledOk;
  }

  lemma OpenElsewhere(orders: Orders, left: Orders, markets: Markets, t: Ticker, m: MarketState)
    requires OpenOk(orders, markets) && LiveOk(orders) && left.Keys <= orders.Keys
    requires forall id | id in left :: left[id] == orders[id] && left[id].ticker != t
    ensures OpenOk(left, markets[t := m]) && LiveOk(left)
  {
  }

  /** A closing market sheds all its resting orders and only those. */
  lemma CloseKeeps<S>(cfg: Config, c: Core<S>, t: Ticker, m: MarketState)
    requires Inv(cfg, c) && t in c.markets && m.book == c.markets[t].book
    requires c.markets[t].outcome.Some? ==> m.outcome.Some?
    ensures var b := DropAll(InMarket(c, t, m), c.Queue(t));
            && Inv(cfg, b) && b.error == c.error && b.markets == c.markets[t := m] && b.account == c.account
            && forall id | id in b.orders :: b.orders[id].ticker != t
  {
    hide Base, DropAll, LiveOk, OpenOk, Core.Queue;
    QueueIsAll(cfg, c, t);
    ClosedBase(cfg, c, t, m);
    DropAllKeeps(cfg, InMarket(c, t, m), c.Queue(t));
    OpenElsewhere(c.orders, DropAll(InMarket(c, t, m), c.Queue(t)).orders, c.markets, t, m);
  }

  lemma SettleInv<S>(cfg: Config, c: Core<S>, t: Ticker, v: Price)
    requires Inv(cfg, c) && 0 <= v <= PRICE_SCALE
    requires t in c.markets && c.markets[t].outcome.Some?
    ensures Inv(cfg, c.(account := Settled(c.account, t, v)))
  {
    hide Numbered, HeapOk, PendingOk, QueuesOk, ReservedOk, RestingOk, LogOk, MoneyOk, BooksOk, LiveOk, OpenOk;
    MoneySettle(c.account, c.reserved, cfg.initialCash, t, v);
    hide Notional;
  }

  lemma EventKeeps<S>(cfg: Config, c: Core<S>, ev: FeedEvent)
    requires ValidConfig(cfg) && Inv(cfg, c) && c.error.None? && ValidEvent(ev)
    ensures Inv(cfg, ApplyEvent(cfg, c, ev))
    ensures ApplyEvent(cfg, c, ev).error in {None, Some(BadSnapshot)}
  {
    hide Base, LiveOk, OpenOk, ShowBook, MatchResting, DropAll, Settled, InMarket, Confirm, Snapshot, Remember;
    if ev.BookConfirm? {
      ConfirmKeeps(cfg, c, ev.ts, ev.ticker);
    } else if ev.ticker in c.markets {
      var t, st := ev.ticker, c.markets[ev.ticker];
      match ev
      case BookUpdate(ts, _, yes, no) =>
        var book := Snapshot(yes, no);
        if book.Some? {
          var m := st.(book := book, bookTs := Some(ts));
          DataKeeps(cfg, c, t, m);
          InMarketParts(c, t, m);
          ShowKeeps(cfg, InMarket(c, t, m), c.Queue(t), book.value);
        } else {
          assert Base(cfg, Fail(c, BadSnapshot)) by { FailKeeps(cfg, c, BadSnapshot); }
        }
      case TradeTick(_, _, trade) =>
        var m := st.(lastTrade := Some(trade), trades := Remember(st.trades, trade, cfg.tradeHistory));
        BookOf(cfg, c, t);
        DataKeeps(cfg, c, t, m);
        InMarketParts(c, t, m);
        MatchKeeps(cfg, InMarket(c, t, m), c.Queue(t), trade, map[]);
      case MarketClose(_, _) =>
        CloseKeeps(cfg, c, t, st.(closed := true));
      case Settlement(_, _, value) =>
        var m := st.(closed := true, outcome := Some(value));
        CloseKeeps(cfg, c, t, m);
        SettleInv(cfg, DropAll(InMarket(c, t, m), c.Queue(t)), t, value);
    }
  }

  lemma FailKeeps<S>(cfg: Config, c: Core<S>, e: Error)
    requires Base(cfg, c)
    ensures Base(cfg, Fail(c, e))
  {
  }

  lemma BookOf<S>(cfg: Config, c: Core<S>, t: Ticker)
    requires Base(cfg, c) && t in c.markets
    ensures c.markets[t].book.Some? ==> c.markets[t].book.value.Valid()
  {
    hide Book.Valid;
  }

  lemma InMarketParts<S>(c: Core<S>, t: Ticker, m: MarketState)
    ensures InMarket(c, t, m).error == c.error && InMarket(c, t, m).orders == c.orders
  {
  }

  lemma {:induction false} ApplyAllKeeps<S>(cfg: Config, c: Core<S>, batch: seq<FeedEvent>)
    requires ValidConfig(cfg) && Inv(cfg, c) && c.error in {None, Some(BadSnapshot)}
    requires forall i | 0 <= i < |batch| :: ValidEvent(batch[i])
    ensures Inv(cfg, ApplyAll(cfg, c, batch))
    ensures ApplyAll(cfg, c, batch).error in {None, Some(BadSnapshot)}
    decreases |batch|
  {
    hide Inv, ApplyEvent, ValidEvent;
    if batch != [] && c.error.None? {
      EventKeeps(cfg, c, batch[0]);
      ApplyAllKeeps(cfg, ApplyEvent(cfg, c, batch[0]), batch[1..]);
    }
  }

  // ---------------------------------------------------------------- the taker leg of an arrival

  /** An order that has just arrived: on record, no longer under way, and not resting. */
  ghost predicate Arrived<S>(c: Core<S>, id: nat, o: Order) {
    && id in c.records && c.records[id].order == o && id !in c.orders && NotPending(c.heap, id)
  }

  /** Fills an order may be given: sized, and within its limit. */
  ghost predicate Fits(fills: seq<Fill>, limit: Price) {
    forall i | 0 <= i < |fills| :: fills[i].qty > 0 && 0 < fills[i].price <= limit
  }

  lemma LoggedParts<S>(cfg: Config, c: Core<S>, f: FillRecord)
    requires f.orderId in c.records && f.ticker !in c.account.settled && cfg.latencyAck >= 0
    ensures
      var rec := c.records[f.orderId];
      LogFill(cfg, c, f)
      == c.(sequence := c.sequence + 1,
            heap := c.heap + {Message(c.now + cfg.latencyAck, FILL_NOTICE, c.sequence + 1, Notify(NoticeOf(f)))},
            account := Bought(c.account, f.ticker, f.side, f.price, f.qty, f.fee),
            records := c.records[f.orderId := rec.(filled := rec.filled + f.qty)],
            fillLog := c.fillLog + [f])
  {
    hide Bought;
  }

  lemma RestingElsewhere(orders: Orders, r: Records, id: nat, rec: OrderRecord)
    requires RestingOk(orders, r) && id in r && id !in orders
    ensures RestingOk(orders, r[id := rec])
  {
    hide RestsAs;
  }

  /** One taker fill out of `slack` set aside for it. */
  lemma TakerFillKeeps<S>(cfg: Config, c: Core<S>, id: nat, o: Order, f: FillRecord, slack: int)
    requires ValidConfig(cfg) && Inv(cfg, c) && Arrived(c, id, o)
    requires o.ticker !in c.account.settled && f.orderId == id && FillsOrder(f, o) && f.price <= PRICE_SCALE
    requires c.records[id].filled + f.qty <= o.qty
    requires MoneyOk(c.account, c.reserved, cfg.initialCash, slack) && Notional(f.price, f.qty) <= slack
    ensures
      var b := LogFill(cfg, c, f);
      && Inv(cfg, b) && b.error == c.error && Arrived(b, id, o)
      && b.records[id].filled == c.records[id].filled + f.qty
      && MoneyOk(b.account, b.reserved, cfg.initialCash, slack - Notional(f.price, f.qty))
      && b.account.settled == c.account.settled && b.markets == c.markets && b.orders == c.orders && b.now == c.now
  {
    hide Numbered, HeapOk, PendingOk, QueuesOk, ReservedOk, RestingOk, LogOk, BooksOk, SettledOk, LiveOk, OpenOk;
    hide Notional, Bought, LogFill, NotPending;
    var rec := c.records[id].(filled := c.records[id].filled + f.qty);
    var m := Message(c.now + cfg.latencyAck, FILL_NOTICE, c.sequence + 1, Notify(NoticeOf(f)));
    LoggedParts(cfg, c, f);
    TouchRecord(c.records, c.nextId, id, rec, c.now);
    HeapAdd(c.heap, c.sequence, c.now, m);
    PendingTouch(c.heap, c.records, c.markets.Keys, c.orders.Keys, cfg.latencySubmit, id, rec);
    PendingNotice(c.heap, c.records[id := rec], c.markets.Keys, c.orders.Keys, cfg.latencySubmit, m);
    RestingElsewhere(c.orders, c.records, id, rec);
    LogAppend(c.records, c.fillLog, f, rec);
    MoneyBuy(c.account, c.reserved, cfg.initialCash, slack, f.ticker, f.side, f.price, f.qty, f.fee);
    hide Sound, Balanced;
  }

  /** The share of the fee still to be charged covers the shares of the fills still to be booked. */
  ghost predicate Covers(left: int, all: Qty, total: int, rest: Qty) {
    Mul(left, all) >= Mul(total, rest)
  }

  lemma FeeStep(total: int, left: int, qty: Qty, all: Qty, rest: Qty)
    requires total >= 0 && all > 0 && qty > 0 && rest >= 0 && Covers(left, all, total, qty + rest)
    ensures FloorDiv(total * qty, all) >= 0 && Covers(left - FloorDiv(total * qty, all), all, total, rest)
    ensures left >= 0
  {
    hide Mul, FloorDiv;
    var n := Mul(total, qty);
    MulStep(total, qty);
    FloorNonNegative(n, all);
    FloorDivRange(n, all);
    MulSpread(left, FloorDiv(n, all), all, total, qty, rest);
    MulStep(total, rest);
    MulStep(total, qty + rest);
    MulSign(left, all);
  }

  lemma FloorNonNegative(n: int, d: int)
    requires n >= 0 && d > 0
    ensures FloorDiv(n, d) >= 0
  {
  }

  lemma MulSign(a: int, b: int)
    requires b > 0 && Mul(a, b) >= 0
    ensures a >= 0
  {
  }

  lemma MulStep(a: int, b: int)
    requires a >= 0 && b >= 0
    ensures Mul(a, b) == a * b >= 0
  {
  }

  lemma MulSpread(left: int, fee: int, all: int, total: int, qty: int, rest: int)
    ensures Mul(left - fee, all) == Mul(left, all) - Mul(all, fee)
    ensures Mul(total, qty + rest) == Mul(total, qty) + Mul(total, rest)
  {
  }

  lemma TakenFits(o: Order, f: Fill, now: int, id: nat, fee: int, slack: int, rest: Qty)
    requires f.qty > 0 && 0 < f.price <= o.price <= PRICE_SCALE && fee >= 0
    requires Notional(o.price, f.qty + rest) <= slack && rest >= 0
    ensures FillsOrder(FillOf(now, id, o, f.price, f.qty, fee, false), o)
    ensures Notional(f.price, f.qty) <= Notional(o.price, f.qty) <= slack
    ensures Notional(o.price, rest) <= slack - Notional(f.price, f.qty)
  {
    NotionalSplit(o.price, f.qty, rest);
    NotionalOrder(f.price, o.price, f.qty);
    NotionalOrder(o.price, o.price, rest);
    hide Notional;
  }

  lemma {:induction false} FitsSum(fills: seq<Fill>, limit: Price)
    requires Fits(fills, limit)
    ensures SumQty(fills) >= 0
  {
    if fills != [] {
      FitsSum(fills[1..], limit);
    }
  }

  lemma MoneyLess(a: Account, reserved: map<nat, int>, initial: int, slack: int, less: int)
    requires MoneyOk(a, reserved, initial, slack) && 0 <= less <= slack
    ensures MoneyOk(a, reserved, initial, less)
  {
    hide Sound, Balanced;
  }

  /** Booking the fills of an arriving order, out of the money set aside for its whole quantity. */
  lemma {:induction false} RecordFillsKeeps<S>(
    cfg: Config, c: Core<S>, id: nat, o: Order, fills: seq<Fill>, total: int, left: int, all: Qty, slack: int)
    requires ValidConfig(cfg) && Inv(cfg, c) && c.error.None? && Arrived(c, id, o)
    requires o.ticker !in c.account.settled && Fits(fills, o.price) && o.price <= PRICE_SCALE
    requires c.records[id].filled + SumQty(fills) <= o.qty
    requires MoneyOk(c.account, c.reserved, cfg.initialCash, slack) && Notional(o.price, SumQty(fills)) <= slack
    requires all > 0 && total >= 0 && Covers(left, all, total, SumQty(fills))
    ensures
      var b := RecordFills(cfg, c, id, o, fills, total, left, all);
      && Inv(cfg, b) && b.error.None? && Arrived(b, id, o)
      && b.records[id].filled == c.records[id].filled + SumQty(fills)
      && MoneyOk(b.account, b.reserved, cfg.initialCash, slack - Notional(o.price, SumQty(fills)))
      && b.account.settled == c.account.settled && b.markets == c.markets && b.orders == c.orders && b.now == c.now
    decreases |fills|
  {
    hide Inv, MoneyOk, Notional, LogFill, Covers, FillsOrder, NotPending;
    if fills == [] {
      assert Notional(o.price, 0) == 0 by { NotionalSplit(o.price, 0, 0); }
    } else {
      var rest := fills[1..];
      FitsSum(rest, o.price);
      FeeStep(total, left, fills[0].qty, all, SumQty(rest));
      FeeShareStep(total, left, fills, all);
      var fee := FeeShare(total, left, fills[0].qty, all, |fills| == 1);
      var f := FillOf(c.now, id, o, fills[0].price, fills[0].qty, fee, false);
      TakenFits(o, fills[0], c.now, id, fee, slack, SumQty(rest));
      TakerFillKeeps(cfg, c, id, o, f, slack);
      var next := LogFill(cfg, c, f);
      assert Fits(rest, o.price);
      RecordFillsKeeps(cfg, next, id, o, rest, total, left - fee, all, slack - Notional(f.price, f.qty));
      var b := RecordFills(cfg, next, id, o, rest, total, left - fee, all);
      NotionalSplit(o.price, fills[0].qty, SumQty(rest));
      MoneyLess(b.account, b.reserved, cfg.initialCash, slack - Notional(f.price, f.qty) - Notional(o.price, SumQty(rest)),
                slack - Notional(o.price, SumQty(fills)));
    }
  }

  lemma FeeShareStep(total: int, left: int, fills: seq<Fill>, all: Qty)
    requires total >= 0 && all > 0 && fills != [] && fills[0].qty > 0 && left >= 0
    requires Covers(left - FloorDiv(total * fills[0].qty, all), all, total, SumQty(fills[1..]))
    requires FloorDiv(total * fills[0].qty, all) >= 0
    ensures var fee := FeeShare(total, left, fills[0].qty, all, |fills| == 1);
            fee >= 0 && Covers(left - fee, all, total, SumQty(fills[1..]))
  {
    hide FloorDiv;
  }

  lemma TakenParts<S>(cfg: Config, c: Core<S>, o: Order)
    requires Base(cfg, c) && cfg.taker.slippage >= 0 && o.ticker in c.markets && o.qty > 0
    ensures Fits(TakerFills(cfg, c, o), o.price) && SumQty(TakerFills(cfg, c, o)) <= o.qty
  {
    BookOf(cfg, c, o.ticker);
    hide Base, TakerModel.Walk, Book.AskLevels, SumQty, SumCost, Book.Valid;
    var m := c.markets[o.ticker];
    if m.book.Some? {
      var asks := m.book.value.AskLevels(o.side);
      AsksSorted(m.book.value, o.side);
      TakerWithinLimit(cfg.taker, asks, o.price, o.qty);
      TakerPrices(cfg.taker, asks, o.price, o.qty);
    }
  }

  lemma FitsSane(fills: seq<Fill>, limit: Price)
    requires Fits(fills, limit) && limit <= PRICE_SCALE
    ensures Sane(fills)
  {
  }

  /** The taker leg: fills booked, and what they took gone from the displayed book. */
  lemma TakeKeeps<S>(cfg: Config, c: Core<S>, id: nat, o: Order, fills: seq<Fill>, slack: int)
    requires ValidConfig(cfg) && Inv(cfg, c) && c.error.None? && Arrived(c, id, o)
    requires o.ticker in c.markets && c.markets[o.ticker].book.Some? && c.markets[o.ticker].book.value.Valid()
    requires o.ticker !in c.account.settled && Fits(fills, o.price) && o.price <= PRICE_SCALE
    requires c.records[id].filled == 0 && SumQty(fills) <= o.qty
    requires MoneyOk(c.account, c.reserved, cfg.initialCash, slack) && Notional(o.price, o.qty) <= slack
    requires o.price > 0
    ensures
      var b := Take(cfg, c, id, o, fills);
      && Inv(cfg, b) && b.error.None? && Arrived(b, id, o)
      && b.records[id].filled == SumQty(fills)
      && MoneyOk(b.account, b.reserved, cfg.initialCash, slack - Notional(o.price, SumQty(fills)))
      && b.markets.Keys == c.markets.Keys && b.orders == c.orders && b.now == c.now
      && b.markets[o.ticker].Open() == c.markets[o.ticker].Open()
  {
    hide Inv, MoneyOk, Notional, Covers, RecordFills, NotPending, FeeSchedule.OrderFee, Book.Valid, Deplete;
    FitsSum(fills, o.price);
    NotionalOrder(o.price, o.price, o.qty - SumQty(fills));
    NotionalSplit(o.price, o.qty, SumQty(fills));
    if fills == [] {
      assert Notional(o.price, 0) == 0 by { NotionalSplit(o.price, 0, 0); }
    } else {
      var fee, all := cfg.fees.For(o.ticker).OrderFee(fills, false), SumQty(fills);
      FitsSane(fills, o.price);
      FeeNonNegative(cfg.fees, o.ticker, fills, false);
      FitsSum(fills[1..], o.price);
      assert Covers(fee, all, fee, all) by { CoversAll(fee, all); }
      RecordFillsKeeps(cfg, c, id, o, fills, fee, fee, all, slack);
      var booked := RecordFills(cfg, c, id, o, fills, fee, fee, all);
      var m := c.markets[o.ticker];
      DataKeeps(cfg, booked, o.ticker, m.(book := Some(Deplete(m.book.value, o.side, fills))));
    }
  }

  lemma CoversAll(total: int, all: Qty)
    ensures Covers(total, all, total, all)
  {
  }

  lemma InvStatus<S>(cfg: Config, c: Core<S>, id: nat, s: Status)
    requires Inv(cfg, c) && id in c.records
    ensures Inv(cfg, WithStatus(c, id, s))
  {
    StatusKeeps(cfg, c, id, s);
    hide Base, LiveOk, OpenOk;
  }

  lemma StatusParts<S>(c: Core<S>, id: nat, s: Status)
    requires id in c.records
    ensures WithStatus(c, id, s).error == c.error && WithStatus(c, id, s).now == c.now
  {
  }

  lemma RejectKeeps<S>(cfg: Config, c: Core<S>, id: nat)
    requires ValidConfig(cfg) && Inv(cfg, c) && id in c.records
    ensures Inv(cfg, Reject(cfg, c, id)) && Reject(cfg, c, id).error == c.error
  {
    hide Base, LiveOk, OpenOk, Schedule, WithStatus;
    InvStatus(cfg, c, id, REJECTED);
    StatusParts(c, id, REJECTED);
    ScheduleKeeps(cfg, WithStatus(c, id, REJECTED), c.now + cfg.latencyAck, FILL_NOTICE,
                  Notify(Rejected(id, c.records[id].order.tag)));
  }

  lemma OrdersRest(orders: Orders, r: Records, markets: Markets, reserved: map<nat, int>, o: Resting)
    requires RestingOk(orders, r) && OpenOk(orders, markets) && LiveOk(orders) && ReservedOk(orders, reserved)
    requires o.id in r && RestsAs(o, r[o.id]) && o.qty > 0 && o.ticker in markets && markets[o.ticker].Open()
    ensures RestingOk(orders[o.id := o], r) && OpenOk(orders[o.id := o], markets) && LiveOk(orders[o.id := o])
    ensures ReservedOk(orders[o.id := o], reserved[o.id := Notional(o.price, o.qty)])
  {
    hide Notional, RestsAs;
  }

  lemma EnqueueKeeps<S>(cfg: Config, c: Core<S>, r: Resting, o: Order, slack: int)
    requires Inv(cfg, c) && Arrived(c, r.id, o) && RestsAs(r, c.records[r.id]) && r.qty > 0
    requires r.ticker in c.markets && c.markets[r.ticker].Open()
    requires MoneyOk(c.account, c.reserved, cfg.initialCash, slack) && Notional(r.price, r.qty) <= slack
    ensures Inv(cfg, Enqueue(c, r))
  {
    hide Numbered, HeapOk, PendingOk, QueuesOk, ReservedOk, RestingOk, LogOk, MoneyOk, BooksOk, SettledOk, LiveOk, OpenOk;
    hide Notional, NotPending, RestsAs;
    OrdersRest(c.orders, c.records, c.markets, c.reserved, r);
    QueuesEnqueue(c.orders, c.queues, r.id, r);
    PendingRest(c.heap, c.records, c.markets.Keys, c.orders.Keys, cfg.latencySubmit, r.id);
    assert c.orders[r.id := r].Keys == c.orders.Keys + {r.id};
    assert r.id !in c.reserved by { KeysAgree(c.orders, c.reserved); }
    MoneyReserve(c.account, c.reserved, cfg.initialCash, slack, r.id, Notional(r.price, r.qty));
  }

  lemma KeysAgree(orders: Orders, reserved: map<nat, int>)
    requires ReservedOk(orders, reserved)
    ensures reserved.Keys == orders.Keys
  {
  }

  lemma PlacedBehind<S>(cfg: Config, c: Core<S>, t: Ticker, o: Resting)
    requires ValidConfig(cfg) && Base(cfg, c) && t in c.markets
    ensures cfg.maker.OnPlace(o, c.markets[t].book).ahead >= 0
  {
    BookOf(cfg, c, t);
    FillDominance.SizeNonNegative(c.markets[t].book, o.side, o.price);
    hide Base, LevelSize, Share;
    FillDominance.ShareBounds(cfg.maker.alpha, LevelSize(c.markets[t].book, o.side, o.price));
  }

  /** What is left of an accepted order, rested out of the money still set aside for it. */
  lemma RestKeeps<S>(cfg: Config, c: Core<S>, id: nat, o: Order, remaining: Qty, slack: int)
    requires ValidConfig(cfg) && Inv(cfg, c) && Arrived(c, id, o) && o.ticker in c.markets && c.markets[o.ticker].Open()
    requires ValidPrice(o.price) && remaining == o.qty - c.records[id].filled
    requires MoneyOk(c.account, c.reserved, cfg.initialCash, slack)
    requires remaining > 0 ==> Notional(o.price, remaining) <= slack
    ensures Inv(cfg, Rest(cfg, c, id, o, remaining)) && Rest(cfg, c, id, o, remaining).error == c.error
  {
    hide Inv, MoneyOk, Notional, NotPending, WithStatus, Enqueue, LevelSize, Share;
    if remaining <= 0 {
      InvStatus(cfg, c, id, FILLED);
      StatusParts(c, id, FILLED);
    } else if o.tif.IOC? {
      var s := if c.records[id].filled != 0 then PARTIAL else EXPIRED;
      InvStatus(cfg, c, id, s);
      StatusParts(c, id, s);
    } else {
      var bare := Resting(id, o.ticker, o.side, o.price, remaining, o.qty, c.now, o.tag, 0, 0, 0, o.qty - remaining);
      var placed := cfg.maker.OnPlace(bare, c.markets[o.ticker].book);
      var s := if c.records[id].filled == 0 then RESTING else PARTIAL;
      InvBase(cfg, c);
      PlacedBehind(cfg, c, o.ticker, bare);
      EnqueueKeeps(cfg, c, placed, o, slack);
      EnqueueParts(c, placed);
      InvStatus(cfg, Enqueue(c, placed), id, s);
      StatusParts(Enqueue(c, placed), id, s);
    }
  }

  lemma EnqueueParts<S>(c: Core<S>, r: Resting)
    ensures Enqueue(c, r).error == c.error && Enqueue(c, r).records == c.records
  {
  }

  /** The purchase check leaves enough, fees aside, for the whole quantity at the limit. */
  lemma SetAside<S>(cfg: Config, c: Core<S>, o: Order)
    requires Inv(cfg, c) && c.account.cash - MapSum(c.reserved) >= Notional(o.price, o.qty) >= 0
    ensures MoneyOk(c.account, c.reserved, cfg.initialCash, Notional(o.price, o.qty))
  {
    hide Sound, Balanced, Notional;
  }

  lemma OpenUnsettled<S>(cfg: Config, c: Core<S>, t: Ticker)
    requires Base(cfg, c) && t in c.markets && c.markets[t].Open()
    ensures t !in c.account.settled
  {
  }

  lemma ArrivalKeeps<S>(cfg: Config, c: Core<S>, id: nat, o: Order)
    requires ValidConfig(cfg) && Inv(cfg, c) && c.error.None? && Arrived(c, id, o) && c.records[id].filled == 0
    requires Dispatchable(c, Arrival(id, o))
    ensures Inv(cfg, OnArrival(cfg, c, id, o)) && OnArrival(cfg, c, id, o).error.None?
  {
    hide Inv, Notional, NotPending, Reject, Rest, Take, TakerFills, SumQty, Book.BestAsk, MoneyOk, Fits, Book.Valid;
    var m := c.markets[o.ticker];
    RejectKeeps(cfg, c, id);
    if m.Open() && o.qty > 0 && ValidPrice(o.price) && c.account.cash - MapSum(c.reserved) >= Notional(o.price, o.qty) {
      NotionalOrder(o.price, o.price, o.qty);
      SetAside(cfg, c, o);
      RestKeeps(cfg, c, id, o, o.qty, Notional(o.price, o.qty));
      if Marketable(m, o) && !o.tif.POST_ONLY? {
        var fills := TakerFills(cfg, c, o);
        assert Base(cfg, c) by { InvBase(cfg, c); }
        TakenParts(cfg, c, o);
        OpenUnsettled(cfg, c, o.ticker);
        TakeKeeps(cfg, c, id, o, fills, Notional(o.price, o.qty));
        NotionalSplit(o.price, o.qty, SumQty(fills));
        RestKeeps(cfg, Take(cfg, c, id, o, fills), id, o, o.qty - SumQty(fills),
                  Notional(o.price, o.qty) - Notional(o.price, SumQty(fills)));
      }
    }
  }

  lemma InvBase<S>(cfg: Config, c: Core<S>)
    requires Inv(cfg, c)
    ensures Base(cfg, c)
  {
  }
}
