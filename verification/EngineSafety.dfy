/** Every operation of the engine keeps the invariant, whatever the strategy asks for and whatever the
    market data say. */
module EngineSafety {
  import opened Units
  import opened OrderBooks
  import opened Fees
  import opened Fills
  import opened Ledger
  import opened Engine
  import opened EngineGrowth
  import opened EngineInvariant

  // ---------------------------------------------------------------- what the strategy asks for

  /** Nothing on the exchange's side has moved. */
  ghost predicate SameExchange<S>(a: Core<S>, b: Core<S>) {
    && b.now == a.now && b.markets == a.markets && b.account == a.account && b.orders == a.orders
    && b.queues == a.queues && b.desks == a.desks && b.reserved == a.reserved && b.fillLog == a.fillLog
  }

  lemma ScheduleKeeps<S>(cfg: Config, c: Core<S>, ts: int, priority: int, p: Payload)
    requires Base(cfg, c) && !p.Arrival?
    ensures Base(cfg, Schedule(c, ts, priority, p)) && SameExchange(c, Schedule(c, ts, priority, p))
    ensures Schedule(c, ts, priority, p).records == c.records
    ensures Schedule(c, ts, priority, p).error == if ts >= c.now then c.error else Some(PastSchedule)
  {
    hide Numbered, HeapOk, PendingOk, QueuesOk, ReservedOk, RestingOk, LogOk, MoneyOk, BooksOk, SettledOk;
    var m := Message(ts, priority, c.sequence + 1, p);
    if ts >= c.now {
      HeapAdd(c.heap, c.sequence, c.now, m);
      PendingNotice(c.heap, c.records, c.markets.Keys, c.orders.Keys, cfg.latencySubmit, m);
    }
  }

  lemma RestingNote(orders: Orders, r: Records, next: nat, rec: OrderRecord)
    requires RestingOk(orders, r) && Numbered(r, next)
    ensures RestingOk(orders, r[next := rec]) && orders.Keys <= r.Keys
  {
    hide RestsAs;
  }

  lemma SubmitKeeps<S>(cfg: Config, c: Core<S>, o: Order)
    requires ValidConfig(cfg) && Base(cfg, c)
    ensures Base(cfg, Submit(cfg, c, o)) && SameExchange(c, Submit(cfg, c, o))
    ensures Submit(cfg, c, o).error == if o.ticker in c.markets then c.error else Some(UnknownMarket)
  {
    hide Numbered, HeapOk, PendingOk, QueuesOk, ReservedOk, RestingOk, LogOk, MoneyOk, BooksOk, SettledOk;
    if o.ticker in c.markets {
      var rec := OrderRecord(c.now, c.now + cfg.latencySubmit, o, SUBMITTED, 0);
      var m := Message(c.now + cfg.latencySubmit, ORDER_ARRIVAL, c.sequence + 1, Arrival(c.nextId, o));
      AddRecord(c.records, c.nextId, rec, c.now);
      HeapAdd(c.heap, c.sequence, c.now, m);
      RestingNote(c.orders, c.records, c.nextId, rec);
      PendingSubmit(c.heap, c.records, c.markets.Keys, c.orders.Keys, cfg.latencySubmit, c.nextId, rec, m);
      LogNote(c.records, c.fillLog, c.nextId, rec);
    }
  }

  /** What a strategy can get wrong. */
  ghost predicate AskedWrong(before: Option<Error>, after: Option<Error>) {
    after == before || after == Some(PastSchedule) || after == Some(UnknownMarket)
  }

  lemma PerformKeeps<S>(cfg: Config, c: Core<S>, a: Action)
    requires ValidConfig(cfg) && Base(cfg, c)
    ensures Base(cfg, Perform(cfg, c, a)) && SameExchange(c, Perform(cfg, c, a))
    ensures AskedWrong(c.error, Perform(cfg, c, a).error)
  {
    hide Base, SameExchange, Submit, Schedule;
    match a
    case Place(o) => SubmitKeeps(cfg, c, o);
    case Cancel(id) => ScheduleKeeps(cfg, c, c.now + cfg.latencyCancel, CANCEL_ARRIVAL, Cancellation(id));
    case WakeAt(ts, tag, ticker) => ScheduleKeeps(cfg, c, ts, WAKE, Notify(Wake(tag, ticker)));
  }

  lemma {:induction false} PerformAllKeeps<S>(cfg: Config, c: Core<S>, acts: seq<Action>)
    requires ValidConfig(cfg) && Base(cfg, c)
    ensures Base(cfg, PerformAll(cfg, c, acts)) && SameExchange(c, PerformAll(cfg, c, acts))
    ensures AskedWrong(c.error, PerformAll(cfg, c, acts).error)
    decreases |acts|
  {
    hide Base, Perform;
    if acts != [] && c.error.None? {
      PerformKeeps(cfg, c, acts[0]);
      PerformAllKeeps(cfg, Perform(cfg, c, acts[0]), acts[1..]);
    }
  }

  lemma TellKeeps<S>(cfg: Config, strat: Strategy<S>, c: Core<S>, s: Stimulus)
    requires ValidConfig(cfg) && Inv(cfg, c)
    ensures Inv(cfg, Tell(cfg, strat, c, s)) && SameExchange(c, Tell(cfg, strat, c, s))
    ensures AskedWrong(c.error, Tell(cfg, strat, c, s).error)
  {
    var (next, acts) := strat(c.strategy, ViewOf(c), s);
    assert Base(cfg, c.(strategy := next));
    hide Base, PerformAll, LiveOk, OpenOk;
    PerformAllKeeps(cfg, c.(strategy := next), acts);
  }

  lemma {:induction false} NotifyAllKeeps<S>(cfg: Config, strat: Strategy<S>, c: Core<S>, batch: seq<FeedEvent>)
    requires ValidConfig(cfg) && Inv(cfg, c)
    ensures Inv(cfg, NotifyAll(cfg, strat, c, batch)) && SameExchange(c, NotifyAll(cfg, strat, c, batch))
    ensures AskedWrong(c.error, NotifyAll(cfg, strat, c, batch).error)
    decreases |batch|
  {
    hide Inv, Tell;
    if batch != [] && c.error.None? {
      TellKeeps(cfg, strat, c, Feed(batch[0]));
      NotifyAllKeeps(cfg, strat, NotifyFeed(cfg, strat, c, batch[0]), batch[1..]);
    }
  }

  // ---------------------------------------------------------------- resting orders come off

  lemma ReservedRemove(orders: Orders, reserved: map<nat, int>, r: Records, id: nat)
    requires ReservedOk(orders, reserved) && RestingOk(orders, r) && id in orders
    ensures ReservedOk(orders - {id}, reserved - {id}) && id in reserved && reserved[id] >= 0
  {
    NotionalOrder(0, orders[id].price, orders[id].qty);
    hide Notional;
  }

  lemma RestingRemove(orders: Orders, r: Records, id: nat)
    requires RestingOk(orders, r)
    ensures RestingOk(orders - {id}, r)
  {
    hide RestsAs;
  }

  lemma RemoveKeeps<S>(cfg: Config, c: Core<S>, id: nat)
    requires Base(cfg, c) && id in c.orders
    ensures Base(cfg, RemoveResting(c, id))
  {
    hide Numbered, HeapOk, PendingOk, QueuesOk, ReservedOk, RestingOk, LogOk, MoneyOk, BooksOk, SettledOk, Without;
    QueuesRemove(c.orders, c.queues, id);
    ReservedRemove(c.orders, c.reserved, c.records, id);
    RestingRemove(c.orders, c.records, id);
    MoneyRelease(c.account, c.reserved, cfg.initialCash, id);
    PendingShrink(c.heap, c.records, c.markets.Keys, c.orders.Keys, (c.orders - {id}).Keys, cfg.latencySubmit);
  }

  lemma RestingTouch(orders: Orders, r: Records, id: nat, rec: OrderRecord)
    requires RestingOk(orders, r) && id in r && StubOf(rec) == StubOf(r[id])
    requires id in orders ==> rec.filled == r[id].filled
    ensures RestingOk(orders, r[id := rec])
  {
  }

  lemma StatusKeeps<S>(cfg: Config, c: Core<S>, id: nat, s: Status)
    requires Base(cfg, c) && id in c.records
    ensures Base(cfg, WithStatus(c, id, s))
  {
    hide Numbered, HeapOk, PendingOk, QueuesOk, ReservedOk, RestingOk, LogOk, MoneyOk, BooksOk, SettledOk;
    var rec := c.records[id].(status := s);
    TouchRecord(c.records, c.nextId, id, rec, c.now);
    PendingTouch(c.heap, c.records, c.markets.Keys, c.orders.Keys, cfg.latencySubmit, id, rec);
    RestingTouch(c.orders, c.records, id, rec);
    LogTouch(c.records, c.fillLog, id, s);
  }

  lemma DropKeeps<S>(cfg: Config, c: Core<S>, id: nat)
    requires Base(cfg, c) && id in c.orders && id in c.records
    ensures Base(cfg, DropResting(c, id))
  {
    var s := if c.records[id].filled != 0 then PARTIAL else CANCELLED;
    StatusKeeps(cfg, c, id, s);
    RemoveKeeps(cfg, WithStatus(c, id, s), id);
    hide Base;
  }

  lemma OnRecord<S>(cfg: Config, c: Core<S>, id: nat)
    requires Base(cfg, c) && id in c.orders
    ensures id in c.records && RestsAs(c.orders[id], c.records[id])
  {
  }

  lemma {:induction false} DropAllKeeps<S>(cfg: Config, c: Core<S>, ids: seq<nat>)
    requires Base(cfg, c)
    ensures Base(cfg, DropAll(c, ids)) && DropAll(c, ids).orders.Keys <= c.orders.Keys
    ensures forall id | id in c.orders :: id in DropAll(c, ids).orders <==> id !in ids
    ensures forall id | id in DropAll(c, ids).orders :: DropAll(c, ids).orders[id] == c.orders[id]
    ensures DropAll(c, ids).markets == c.markets && DropAll(c, ids).account == c.account
    ensures DropAll(c, ids).error == c.error
    decreases |ids|
  {
    hide Base, DropResting;
    if ids != [] {
      if ids[0] in c.orders {
        OnRecord(cfg, c, ids[0]);
        DropKeeps(cfg, c, ids[0]);
        DropParts(c, ids[0]);
        DropAllKeeps(cfg, DropResting(c, ids[0]), ids[1..]);
      } else {
        DropAllKeeps(cfg, c, ids[1..]);
      }
      assert ids == [ids[0]] + ids[1..];
    }
  }

  lemma DropParts<S>(c: Core<S>, id: nat)
    requires id in c.orders && id in c.records
    ensures DropResting(c, id).orders == c.orders - {id} && DropResting(c, id).markets == c.markets
    ensures DropResting(c, id).account == c.account && DropResting(c, id).error == c.error
    ensures DropResting(c, id).heap == c.heap && DropResting(c, id).fillLog == c.fillLog
  {
  }

  lemma OpenShrink(orders: Orders, markets: Markets, ids: set<nat>)
    requires OpenOk(orders, markets) && LiveOk(orders)
    ensures OpenOk(orders - ids, markets) && LiveOk(orders - ids)
  {
  }

  lemma CancelKeeps<S>(cfg: Config, c: Core<S>, id: nat)
    requires Inv(cfg, c)
    ensures Inv(cfg, OnCancel(c, id)) && OnCancel(c, id).error == c.error
  {
    if id in c.orders && id in c.records {
      DropKeeps(cfg, c, id);
      OpenShrink(c.orders, c.markets, {id});
      hide Base, OpenOk, LiveOk;
    }
  }

  // ---------------------------------------------------------------- maker fills

  /** The queue models move an order in its queue; they never touch what it is or what it has left. */
  ghost predicate SameHolding(a: Resting, b: Resting) {
    SameFace(a, b) && b.qty == a.qty && b.filled == a.filled && (a.ahead >= 0 ==> b.ahead >= 0)
  }

  lemma MoveKeeps<S>(cfg: Config, c: Core<S>, id: nat, o: Resting)
    requires Inv(cfg, c) && id in c.orders && SameHolding(c.orders[id], o)
    ensures Inv(cfg, c.(orders := c.orders[id := o]))
  {
    hide Numbered, HeapOk, PendingOk, QueuesOk, LogOk, MoneyOk, BooksOk, SettledOk;
    QueuesMove(c.orders, c.queues, id, o);
    assert c.orders[id := o].Keys == c.orders.Keys;
    hide Notional, RestsAs;
    assert RestsAs(o, c.records[id]) by {
      RestsMove(c.orders[id], o, c.records[id]);
    }
  }

  lemma RestsMove(a: Resting, b: Resting, rec: OrderRecord)
    requires RestsAs(a, rec) && SameHolding(a, b)
    ensures RestsAs(b, rec)
  {
  }

  lemma FeeNonNegative(fees: FeeBook, t: Ticker, fills: seq<Fill>, maker: bool)
    requires fees.Valid() && Sane(fills)
    ensures fees.For(t).OrderFee(fills, maker) >= 0
  {
    OrderFeeBounds(fees.For(t), fills, maker);
  }

  lemma ReservedPut(orders: Orders, reserved: map<nat, int>, id: nat, o: Resting)
    requires ReservedOk(orders, reserved)
    ensures ReservedOk(orders[id := o], reserved[id := Notional(o.price, o.qty)])
  {
    hide Notional;
  }

  lemma RestingFill(orders: Orders, r: Records, id: nat, o: Resting, rec: OrderRecord)
    requires RestingOk(orders, r) && id in orders && RestsAs(o, rec)
    ensures RestingOk(orders[id := o], r[id := rec])
  {
    hide RestsAs;
  }

  function FilledRecord<S>(c: Core<S>, id: nat, qty: Qty): OrderRecord
    requires id in c.orders && id in c.records
  {
    c.records[id].(filled := c.records[id].filled + qty, status := if c.orders[id].qty == qty then FILLED else PARTIAL)
  }

  /** The record, order and log entry of one maker fill. */
  lemma MakerRecordFits<S>(cfg: Config, c: Core<S>, id: nat, qty: Qty)
    requires ValidConfig(cfg) && Base(cfg, c) && id in c.orders && 0 < qty <= c.orders[id].qty
    ensures id in c.records
    ensures var o, rec := c.orders[id], c.records[id];
            var f := MakerRecord(cfg, c, id, o, qty);
            && FillsOrder(f, rec.order) && 0 <= f.price <= PRICE_SCALE && f.fee >= 0 && rec.filled + qty <= rec.order.qty
            && RestsAs(o.(qty := o.qty - qty, filled := o.filled + qty), FilledRecord(c, id, qty))
  {
    OnRecord(cfg, c, id);
    hide Base, FeeSchedule.OrderFee;
    var o := c.orders[id];
    FeeNonNegative(cfg.fees, o.ticker, [Fill(o.price, qty)], true);
  }

  /** The state right after a maker fill, the order object still in place. */
  function AfterFill<S>(cfg: Config, c: Core<S>, id: nat, qty: Qty): Core<S>
    requires id in c.orders && id in c.records
  {
    var o := c.orders[id];
    Reduce(LogFill(cfg, c, MakerRecord(cfg, c, id, o, qty)), id, o.(qty := o.qty - qty, filled := o.filled + qty))
  }

  lemma AfterFillParts<S>(cfg: Config, c: Core<S>, id: nat, qty: Qty)
    requires id in c.orders && id in c.records && c.orders[id].ticker !in c.account.settled && cfg.latencyAck >= 0
    ensures
      var o := c.orders[id];
      var f := MakerRecord(cfg, c, id, o, qty);
      AfterFill(cfg, c, id, qty)
      == c.(sequence := c.sequence + 1,
            heap := c.heap + {Message(c.now + cfg.latencyAck, FILL_NOTICE, c.sequence + 1, Notify(NoticeOf(f)))},
            account := Bought(c.account, o.ticker, o.side, o.price, qty, f.fee),
            orders := c.orders[id := o.(qty := o.qty - qty, filled := o.filled + qty)],
            reserved := c.reserved[id := Notional(o.price, o.qty - qty)],
            records := c.records[id := FilledRecord(c, id, qty)],
            fillLog := c.fillLog + [f])
  {
    hide Bought, FeeSchedule.OrderFee, Notional;
  }

  lemma AfterFillBase<S>(cfg: Config, c: Core<S>, id: nat, qty: Qty)
    requires ValidConfig(cfg) && Base(cfg, c) && id in c.orders && 0 < qty <= c.orders[id].qty
    requires c.orders[id].ticker !in c.account.settled
    ensures id in c.records && Base(cfg, AfterFill(cfg, c, id, qty))
    ensures AfterFill(cfg, c, id, qty).error == c.error && AfterFill(cfg, c, id, qty).markets == c.markets
    ensures AfterFill(cfg, c, id, qty).orders
         == c.orders[id := c.orders[id].(qty := c.orders[id].qty - qty, filled := c.orders[id].filled + qty)]
  {
    hide Numbered, HeapOk, PendingOk, QueuesOk, ReservedOk, RestingOk, LogOk, MoneyOk, BooksOk, SettledOk;
    hide Bought, FeeSchedule.OrderFee, Notional, FillsOrder, RestsAs, AfterFill;
    MakerRecordFits(cfg, c, id, qty);
    var o := c.orders[id];
    var f, rec := MakerRecord(cfg, c, id, o, qty), FilledRecord(c, id, qty);
    var left := o.(qty := o.qty - qty, filled := o.filled + qty);
    var m := Message(c.now + cfg.latencyAck, FILL_NOTICE, c.sequence + 1, Notify(NoticeOf(f)));
    AfterFillParts(cfg, c, id, qty);
    TouchRecord(c.records, c.nextId, id, rec, c.now);
    HeapAdd(c.heap, c.sequence, c.now, m);
    PendingShrink(c.heap, c.records, c.markets.Keys, c.orders.Keys, c.orders.Keys, cfg.latencySubmit);
    PendingTouch(c.heap, c.records, c.markets.Keys, c.orders.Keys, cfg.latencySubmit, id, rec);
    PendingNotice(c.heap, c.records[id := rec], c.markets.Keys, c.orders.Keys, cfg.latencySubmit, m);
    assert c.orders[id := left].Keys == c.orders.Keys;
    QueuesMove(c.orders, c.queues, id, left);
    ReservedPut(c.orders, c.reserved, id, left);
    RestingFill(c.orders, c.records, id, left, rec);
    LogAppend(c.records, c.fillLog, f, rec);
    ReservedIs(c.orders, c.reserved, id);
    MoneyMaker(c.account, c.reserved, cfg.initialCash, id, f, o.qty);
  }

  lemma ReservedIs(orders: Orders, reserved: map<nat, int>, id: nat)
    requires ReservedOk(orders, reserved) && id in orders
    ensures id in reserved && reserved[id] == Notional(orders[id].price, orders[id].qty)
  {
  }

  lemma OpenNotSettled<S>(cfg: Config, c: Core<S>, id: nat)
    requires Inv(cfg, c) && id in c.orders
    ensures c.orders[id].ticker !in c.account.settled
  {
  }

  lemma OpenMove(orders: Orders, markets: Markets, id: nat, o: Resting)
    requires OpenOk(orders, markets) && LiveOk(orders) && id in orders && o.ticker == orders[id].ticker
    ensures OpenOk(orders[id := o], markets)
    ensures o.qty > 0 ==> LiveOk(orders[id := o])
    ensures LiveOk(orders[id := o] - {id})
  {
  }

  lemma OpenRemove(orders: Orders, markets: Markets, id: nat)
    requires OpenOk(orders, markets)
    ensures OpenOk(orders - {id}, markets)
  {
  }

  lemma RemoveParts<S>(c: Core<S>, id: nat)
    requires id in c.orders
    ensures RemoveResting(c, id).orders == c.orders - {id} && RemoveResting(c, id).markets == c.markets
    ensures RemoveResting(c, id).error == c.error
  {
    hide Without;
  }

  lemma AfterFillOpen<S>(cfg: Config, c: Core<S>, id: nat, qty: Qty)
    requires ValidConfig(cfg) && Inv(cfg, c) && id in c.orders && 0 < qty <= c.orders[id].qty
    ensures id in c.records && id in AfterFill(cfg, c, id, qty).orders
    ensures var b := AfterFill(cfg, c, id, qty);
            && Base(cfg, b) && OpenOk(b.orders, b.markets) && LiveOk(b.orders - {id}) && OpenOk(b.orders - {id}, b.markets)
            && (qty < c.orders[id].qty ==> LiveOk(b.orders)) && b.error == c.error
  {
    OpenNotSettled(cfg, c, id);
    hide Base, LiveOk, OpenOk, AfterFill;
    AfterFillBase(cfg, c, id, qty);
    var left := c.orders[id].(qty := c.orders[id].qty - qty, filled := c.orders[id].filled + qty);
    OpenMove(c.orders, c.markets, id, left);
    OpenRemove(c.orders[id := left], c.markets, id);
  }

  lemma MakerFillKeeps<S>(cfg: Config, c: Core<S>, id: nat, fill: Qty)
    requires ValidConfig(cfg) && Inv(cfg, c) && c.error.None? && id in c.orders && id in c.records
    ensures Inv(cfg, MakerFill(cfg, c, id, fill)) && MakerFill(cfg, c, id, fill).error.None?
  {
    var o := c.orders[id];
    var qty := Min(fill, o.qty);
    if qty > 0 {
      OpenNotSettled(cfg, c, id);
      hide Base, LiveOk, OpenOk, AfterFill, MakerFill, RemoveResting;
      AfterFillOpen(cfg, c, id, qty);
      MakerFillIs(cfg, c, id, fill);
      if o.qty == qty {
        RemoveKeeps(cfg, AfterFill(cfg, c, id, qty), id);
        RemoveParts(AfterFill(cfg, c, id, qty), id);
      }
    }
  }

  lemma MakerFillIs<S>(cfg: Config, c: Core<S>, id: nat, fill: Qty)
    requires id in c.orders && id in c.records && cfg.latencyAck >= 0 && c.error.None?
    requires c.orders[id].ticker !in c.account.settled && Min(fill, c.orders[id].qty) > 0
    ensures
      var qty := Min(fill, c.orders[id].qty);
      id in AfterFill(cfg, c, id, qty).orders
      && MakerFill(cfg, c, id, fill)
         == if c.orders[id].qty == qty then RemoveResting(AfterFill(cfg, c, id, qty), id) else AfterFill(cfg, c, id, qty)
  {
    hide Bought, FeeSchedule.OrderFee, Notional, RemoveResting;
  }

  lemma HitKeeps<S>(cfg: Config, c: Core<S>, id: nat, o: Resting, fill: Qty)
    requires ValidConfig(cfg) && Inv(cfg, c) && c.error.None? && id in c.orders && id in c.records
    requires SameHolding(c.orders[id], o)
    ensures Inv(cfg, Hit(cfg, c, id, o, fill)) && Hit(cfg, c, id, o, fill).error.None?
  {
    hide Inv, MakerFill, SameHolding;
    MoveKeeps(cfg, c, id, o);
    if fill != 0 {
      MakerFillKeeps(cfg, c.(orders := c.orders[id := o]), id, fill);
    }
  }

  lemma HoldingOnTrade(m: QueueModel, o: Resting, t: Trade)
    ensures SameHolding(o, m.OnTrade(o, t).0)
  {
  }

  lemma HoldingOnBook(m: QueueModel, o: Resting, b: Book)
    ensures SameHolding(o, m.OnBook(o, b).0)
  {
  }

  lemma HoldingPrintOn(cfg: Config, o: Resting, trade: Trade, budget: Budget)
    ensures SameHolding(o, PrintOn(cfg, o, trade, budget).0)
  {
    hide QueueModel.OnTrade, SameHolding;
    HoldingOnTrade(cfg.maker, o, trade);
    HoldingOnTrade(cfg.maker, o, trade.(count := Left(budget, (o.side, TradePrice(o.side, trade)), trade.count)));
  }

  lemma {:induction false} MatchKeeps<S>(cfg: Config, c: Core<S>, ids: seq<nat>, trade: Trade, budget: Budget)
    requires ValidConfig(cfg) && Inv(cfg, c) && c.error.None?
    ensures Inv(cfg, MatchResting(cfg, c, ids, trade, budget))
    ensures MatchResting(cfg, c, ids, trade, budget).error.None?
    decreases |ids|
  {
    hide Inv, Hit, PrintOn, SameHolding;
    if ids == [] {
    } else if ids[0] in c.orders && ids[0] in c.records {
      var (after, fill, budget') := PrintOn(cfg, c.orders[ids[0]], trade, budget);
      HoldingPrintOn(cfg, c.orders[ids[0]], trade, budget);
      HitKeeps(cfg, c, ids[0], after, fill);
      MatchKeeps(cfg, Hit(cfg, c, ids[0], after, fill), ids[1..], trade, budget');
    } else {
      MatchKeeps(cfg, c, ids[1..], trade, budget);
    }
  }

  lemma {:induction false} ShowKeeps<S>(cfg: Config, c: Core<S>, ids: seq<nat>, book: Book)
    requires ValidConfig(cfg) && Inv(cfg, c) && c.error.None?
    ensures Inv(cfg, ShowBook(cfg, c, ids, book))
    ensures ShowBook(cfg, c, ids, book).error.None?
    decreases |ids|
  {
    hide Inv, Hit, QueueModel.OnBook, SameHolding;
    if ids == [] {
    } else if ids[0] in c.orders && ids[0] in c.records {
      var (after, fill) := cfg.maker.OnBook(c.orders[ids[0]], book);
      HoldingOnBook(cfg.maker, c.orders[ids[0]], book);
      HitKeeps(cfg, c, ids[0], after, fill);
      ShowKeeps(cfg, Hit(cfg, c, ids[0], after, fill), ids[1..], book);
    } else {
      ShowKeeps(cfg, c, ids[1..], book);
    }
  }
}
