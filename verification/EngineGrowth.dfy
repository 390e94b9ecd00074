/** What every operation of the engine leaves alone: the clock, the orders and fills already on record,
    and the messages already scheduled. */
module EngineGrowth {
  import opened Units
  import opened OrderBooks
  import opened Fees
  import opened Fills
  import opened Ledger
  import opened Engine

  /** The part of an order record that is fixed when the order is submitted. */
  datatype Stub = Stub(submittedTs: int, arrivalTs: int, order: Order)

  function StubOf(r: OrderRecord): Stub {
    Stub(r.submittedTs, r.arrivalTs, r.order)
  }

  type Records = map<nat, OrderRecord>

  ghost predicate Numbered(r: Records, next: nat) {
    forall id | id in r :: id < next
  }

  /** Records are only added, under fresh numbers and stamped with the present. */
  ghost predicate RecordsGrow(a: Records, m: nat, b: Records, n: nat, now: int) {
    && Numbered(b, n) && m <= n
    && (forall id | id in a :: id in b && StubOf(b[id]) == StubOf(a[id]))
    && forall id | id in b && id !in a :: m <= id && b[id].submittedTs == now
  }

  ghost predicate FillsGrow(a: seq<FillRecord>, b: seq<FillRecord>, now: int) {
    a <= b && forall i | |a| <= i < |b| :: b[i].execTs == now
  }

  ghost predicate HeapGrows(a: set<Message>, b: set<Message>, now: int) {
    a <= b && forall m | m in b && m !in a :: m.ts >= now
  }

  ghost predicate Extends<S>(a: Core<S>, b: Core<S>) {
    && b.now == a.now
    && RecordsGrow(a.records, a.nextId, b.records, b.nextId, a.now)
    && FillsGrow(a.fillLog, b.fillLog, a.now)
    && HeapGrows(a.heap, b.heap, a.now)
  }

  ghost predicate Counted<S>(c: Core<S>) {
    Numbered(c.records, c.nextId)
  }

  lemma Same<S>(a: Core<S>, b: Core<S>)
    requires Counted(a)
    requires b.now == a.now && b.records == a.records && b.nextId == a.nextId
    requires b.fillLog == a.fillLog && b.heap == a.heap
    ensures Extends(a, b)
  {
  }

  lemma Chain<S>(a: Core<S>, b: Core<S>, c: Core<S>)
    requires Extends(a, b) && Extends(b, c)
    ensures Extends(a, c)
  {
  }

  lemma Counts<S>(a: Core<S>, b: Core<S>)
    requires Extends(a, b)
    ensures Counted(b)
  {
  }

  lemma AddRecord(r: Records, next: nat, rec: OrderRecord, now: int)
    requires Numbered(r, next) && rec.submittedTs == now
    ensures RecordsGrow(r, next, r[next := rec], next + 1, now)
  {
  }

  lemma TouchRecord(r: Records, next: nat, id: nat, rec: OrderRecord, now: int)
    requires Numbered(r, next) && id in r && StubOf(rec) == StubOf(r[id])
    ensures RecordsGrow(r, next, r[id := rec], next, now)
  {
  }

  lemma SameRecords(r: Records, next: nat, now: int)
    requires Numbered(r, next)
    ensures RecordsGrow(r, next, r, next, now)
  {
  }

  lemma ScheduleGrows<S>(c: Core<S>, ts: int, priority: int, p: Payload)
    requires Counted(c)
    ensures Extends(c, Schedule(c, ts, priority, p))
  {
    SameRecords(c.records, c.nextId, c.now);
    hide RecordsGrow;
  }

  lemma SubmitGrows<S>(cfg: Config, c: Core<S>, o: Order)
    requires Counted(c)
    ensures Extends(c, Submit(cfg, c, o))
  {
    hide Extends, Schedule, Noted;
    if o.ticker in c.markets {
      var noted := Noted(cfg, c, o);
      NotedGrows(cfg, c, o);
      ScheduleGrows(noted, c.now + cfg.latencySubmit, ORDER_ARRIVAL, Arrival(c.nextId, o));
      Chain(c, noted, Submit(cfg, c, o));
    } else {
      Same(c, Submit(cfg, c, o));
    }
  }

  lemma NotedGrows<S>(cfg: Config, c: Core<S>, o: Order)
    requires Counted(c)
    ensures Extends(c, Noted(cfg, c, o)) && Counted(Noted(cfg, c, o)) && Noted(cfg, c, o).now == c.now
  {
    AddRecord(c.records, c.nextId, OrderRecord(c.now, c.now + cfg.latencySubmit, o, SUBMITTED, 0), c.now);
  }

  lemma PerformGrows<S>(cfg: Config, c: Core<S>, a: Action)
    requires Counted(c)
    ensures Extends(c, Perform(cfg, c, a))
  {
    hide Extends, Schedule, Counted, Submit;
    match a
    case Place(o) => SubmitGrows(cfg, c, o);
    case Cancel(id) => ScheduleGrows(c, c.now + cfg.latencyCancel, CANCEL_ARRIVAL, Cancellation(id));
    case WakeAt(ts, tag, ticker) => ScheduleGrows(c, ts, WAKE, Notify(Wake(tag, ticker)));
  }

  lemma {:induction false} PerformAllGrows<S>(cfg: Config, c: Core<S>, acts: seq<Action>)
    requires Counted(c)
    ensures Extends(c, PerformAll(cfg, c, acts))
    decreases |acts|
  {
    hide Extends, Perform, Counted;
    if acts == [] || c.error.Some? {
      Same(c, c);
    } else {
      var next := Perform(cfg, c, acts[0]);
      PerformGrows(cfg, c, acts[0]);
      Counts(c, next);
      PerformAllGrows(cfg, next, acts[1..]);
      Chain(c, next, PerformAll(cfg, next, acts[1..]));
    }
  }

  // ---------------------------------------------------------------- between strategy calls

  /** What a resting order is, as opposed to how far it has got. */
  ghost predicate SameFace(a: Resting, b: Resting) {
    a.ticker == b.ticker && a.side == b.side && a.price == b.price && a.tag == b.tag && a.original == b.original
  }

  ghost predicate OrdersShrink(a: map<nat, Resting>, b: map<nat, Resting>) {
    b.Keys <= a.Keys && forall id | id in b :: SameFace(a[id], b[id])
  }

  /** Of the messages, only notices are new. */
  ghost predicate OnlyNotices(a: set<Message>, b: set<Message>) {
    forall m | m in b && m !in a :: m.payload.Notify?
  }

  /** No order or cancel is sent and none starts to rest: all the engine does on its own account. */
  ghost predicate Quietly<S>(a: Core<S>, b: Core<S>) {
    && Extends(a, b)
    && b.nextId == a.nextId && b.strategy == a.strategy && b.markets.Keys == a.markets.Keys
    && b.records.Keys == a.records.Keys
    && OrdersShrink(a.orders, b.orders)
    && OnlyNotices(a.heap, b.heap)
  }

  lemma QuietSame<S>(a: Core<S>, b: Core<S>)
    requires Counted(a)
    requires b.now == a.now && b.records == a.records && b.nextId == a.nextId
    requires b.fillLog == a.fillLog && b.heap == a.heap && b.strategy == a.strategy
    requires b.markets.Keys == a.markets.Keys && OrdersShrink(a.orders, b.orders)
    ensures Quietly(a, b)
  {
    Same(a, b);
    hide Extends, OrdersShrink;
  }

  lemma QuietRecord<S>(a: Core<S>, b: Core<S>, id: nat, rec: OrderRecord)
    requires Counted(a) && id in a.records && StubOf(rec) == StubOf(a.records[id])
    requires b.now == a.now && b.records == a.records[id := rec] && b.nextId == a.nextId
    requires b.fillLog == a.fillLog && b.heap == a.heap && b.strategy == a.strategy
    requires b.markets.Keys == a.markets.Keys && OrdersShrink(a.orders, b.orders)
    ensures Quietly(a, b)
  {
    TouchRecord(a.records, a.nextId, id, rec, a.now);
    hide RecordsGrow, OrdersShrink, Numbered;
  }

  lemma QuietChain<S>(a: Core<S>, b: Core<S>, c: Core<S>)
    requires Quietly(a, b) && Quietly(b, c)
    ensures Quietly(a, c)
  {
    Chain(a, b, c);
    hide Extends;
  }

  lemma QuietCounts<S>(a: Core<S>, b: Core<S>)
    requires Quietly(a, b)
    ensures Counted(b) && Extends(a, b)
  {
    Counts(a, b);
  }

  lemma NoticeQuiet<S>(c: Core<S>, ts: int, priority: int, n: Notice)
    requires Counted(c)
    ensures Quietly(c, Schedule(c, ts, priority, Notify(n)))
  {
    ScheduleGrows(c, ts, priority, Notify(n));
    hide Extends;
  }

  lemma RemoveQuiet<S>(c: Core<S>, id: nat)
    requires Counted(c) && id in c.orders
    ensures Quietly(c, RemoveResting(c, id))
  {
    QuietSame(c, RemoveResting(c, id));
    hide Quietly;
  }

  lemma DropQuiet<S>(c: Core<S>, id: nat)
    requires Counted(c) && id in c.orders && id in c.records
    ensures Quietly(c, DropResting(c, id))
  {
    var rec := c.records[id].(status := if c.records[id].filled != 0 then PARTIAL else CANCELLED);
    QuietRecord(c, DropResting(c, id), id, rec);
    hide Quietly;
  }

  lemma {:induction false} DropAllQuiet<S>(c: Core<S>, ids: seq<nat>)
    requires Counted(c)
    ensures Quietly(c, DropAll(c, ids))
    decreases |ids|
  {
    hide Quietly, DropResting, Counted;
    QuietSame(c, c);
    if ids != [] {
      var next := if ids[0] in c.orders && ids[0] in c.records then DropResting(c, ids[0]) else c;
      if ids[0] in c.orders && ids[0] in c.records {
        DropQuiet(c, ids[0]);
      }
      QuietCounts(c, next);
      DropAllQuiet(next, ids[1..]);
      QuietChain(c, next, DropAll(next, ids[1..]));
    }
  }

  lemma BookQuiet<S>(c: Core<S>, f: FillRecord)
    requires Counted(c) && f.orderId in c.records && f.execTs == c.now
    ensures Quietly(c, BookFill(c, f))
  {
    var rec := c.records[f.orderId];
    TouchRecord(c.records, c.nextId, f.orderId, rec.(filled := rec.filled + f.qty), c.now);
    hide RecordsGrow, Numbered, Bought;
  }

  lemma LogFillQuiet<S>(cfg: Config, c: Core<S>, f: FillRecord)
    requires Counted(c) && f.orderId in c.records && f.execTs == c.now
    ensures Quietly(c, LogFill(cfg, c, f))
  {
    hide Quietly, Schedule, Counted, BookFill;
    if f.ticker in c.account.settled {
      QuietSame(c, Fail(c, MarketSettled));
    } else {
      var booked := BookFill(c, f);
      BookQuiet(c, f);
      QuietCounts(c, booked);
      QuietNow(c, booked);
      NoticeQuiet(booked, c.now + cfg.latencyAck, FILL_NOTICE, NoticeOf(f));
      QuietChain(c, booked, LogFill(cfg, c, f));
    }
  }

  lemma QuietNow<S>(a: Core<S>, b: Core<S>)
    requires Quietly(a, b)
    ensures b.now == a.now && b.records.Keys == a.records.Keys && b.markets.Keys == a.markets.Keys
    ensures b.strategy == a.strategy && b.nextId == a.nextId
  {
  }

  lemma StatusQuiet<S>(c: Core<S>, id: nat, s: Status)
    requires Counted(c) && id in c.records
    ensures Quietly(c, WithStatus(c, id, s))
  {
    QuietRecord(c, WithStatus(c, id, s), id, c.records[id].(status := s));
    hide Quietly;
  }

  lemma MarketQuiet<S>(c: Core<S>, t: Ticker, m: MarketState)
    requires Counted(c) && t in c.markets
    ensures Quietly(c, InMarket(c, t, m))
  {
    QuietSame(c, InMarket(c, t, m));
    hide Quietly;
  }

  lemma ReduceQuiet<S>(c: Core<S>, id: nat, left: Resting)
    requires Counted(c) && id in c.orders && id in c.records && SameFace(c.orders[id], left)
    ensures Quietly(c, Reduce(c, id, left))
  {
    var s := if left.qty == 0 then FILLED else PARTIAL;
    QuietRecord(c, Reduce(c, id, left), id, c.records[id].(status := s));
    hide Quietly;
  }

  lemma MakerFillQuiet<S>(cfg: Config, c: Core<S>, id: nat, fill: Qty)
    requires Counted(c) && id in c.orders && id in c.records
    ensures Quietly(c, MakerFill(cfg, c, id, fill))
  {
    hide Quietly, LogFill, Counted, Reduce, RemoveResting;
    var o := c.orders[id];
    var qty := Min(fill, o.qty);
    QuietSame(c, c);
    if qty > 0 {
      var logged := LogFill(cfg, c, MakerRecord(cfg, c, id, o, qty));
      LogFillQuiet(cfg, c, MakerRecord(cfg, c, id, o, qty));
      QuietCounts(c, logged);
      QuietNow(c, logged);
      LogFillOrders(cfg, c, MakerRecord(cfg, c, id, o, qty));
      if logged.error.None? {
        var left := Reduce(logged, id, o.(qty := o.qty - qty, filled := o.filled + qty));
        ReduceQuiet(logged, id, o.(qty := o.qty - qty, filled := o.filled + qty));
        QuietChain(c, logged, left);
        ReduceOrders(logged, id, o.(qty := o.qty - qty, filled := o.filled + qty));
        if o.qty == qty {
          QuietCounts(c, left);
          RemoveQuiet(left, id);
          QuietChain(c, left, RemoveResting(left, id));
        }
      }
    }
  }

  lemma LogFillOrders<S>(cfg: Config, c: Core<S>, f: FillRecord)
    requires f.orderId in c.records
    ensures LogFill(cfg, c, f).orders == c.orders && LogFill(cfg, c, f).queues == c.queues
  {
  }

  lemma ReduceOrders<S>(c: Core<S>, id: nat, left: Resting)
    requires id in c.records
    ensures Reduce(c, id, left).orders == c.orders[id := left]
  {
  }

  lemma HitQuiet<S>(cfg: Config, c: Core<S>, id: nat, o: Resting, fill: Qty)
    requires Counted(c) && id in c.orders && id in c.records && SameFace(c.orders[id], o)
    ensures Quietly(c, Hit(cfg, c, id, o, fill))
  {
    hide Quietly, MakerFill, Counted;
    var moved := c.(orders := c.orders[id := o]);
    QuietSame(c, moved);
    QuietCounts(c, moved);
    if fill != 0 {
      MakerFillQuiet(cfg, moved, id, fill);
      QuietChain(c, moved, MakerFill(cfg, moved, id, fill));
    }
  }

  lemma FaceOnTrade(m: QueueModel, o: Resting, t: Trade)
    ensures SameFace(o, m.OnTrade(o, t).0)
  {
  }

  lemma FaceOnBook(m: QueueModel, o: Resting, b: Book)
    ensures SameFace(o, m.OnBook(o, b).0)
  {
  }

  lemma FacePrintOn(cfg: Config, o: Resting, trade: Trade, budget: Budget)
    ensures SameFace(o, PrintOn(cfg, o, trade, budget).0)
  {
    hide QueueModel.OnTrade;
    FaceOnTrade(cfg.maker, o, trade);
    FaceOnTrade(cfg.maker, o, trade.(count := Left(budget, (o.side, TradePrice(o.side, trade)), trade.count)));
  }

  lemma {:induction false} MatchQuiet<S>(cfg: Config, c: Core<S>, ids: seq<nat>, trade: Trade, budget: Budget)
    requires Counted(c)
    ensures Quietly(c, MatchResting(cfg, c, ids, trade, budget))
    decreases |ids|
  {
    hide Quietly, Hit, Counted, PrintOn;
    QuietSame(c, c);
    if ids == [] || c.error.Some? {
    } else if ids[0] in c.orders && ids[0] in c.records {
      var (after, fill, budget') := PrintOn(cfg, c.orders[ids[0]], trade, budget);
      FacePrintOn(cfg, c.orders[ids[0]], trade, budget);
      HitQuiet(cfg, c, ids[0], after, fill);
      var next := Hit(cfg, c, ids[0], after, fill);
      QuietCounts(c, next);
      MatchQuiet(cfg, next, ids[1..], trade, budget');
      QuietChain(c, next, MatchResting(cfg, next, ids[1..], trade, budget'));
    } else {
      MatchQuiet(cfg, c, ids[1..], trade, budget);
    }
  }

  lemma {:induction false} ShowQuiet<S>(cfg: Config, c: Core<S>, ids: seq<nat>, book: Book)
    requires Counted(c)
    ensures Quietly(c, ShowBook(cfg, c, ids, book))
    decreases |ids|
  {
    hide Quietly, Hit, Counted, QueueModel.OnBook;
    QuietSame(c, c);
    if ids == [] || c.error.Some? {
    } else if ids[0] in c.orders && ids[0] in c.records {
      var (after, fill) := cfg.maker.OnBook(c.orders[ids[0]], book);
      FaceOnBook(cfg.maker, c.orders[ids[0]], book);
      HitQuiet(cfg, c, ids[0], after, fill);
      var next := Hit(cfg, c, ids[0], after, fill);
      QuietCounts(c, next);
      ShowQuiet(cfg, next, ids[1..], book);
      QuietChain(c, next, ShowBook(cfg, next, ids[1..], book));
    } else {
      ShowQuiet(cfg, c, ids[1..], book);
    }
  }

  // ---------------------------------------------------------------- feed events

  lemma EventQuiet<S>(cfg: Config, c: Core<S>, ev: FeedEvent)
    requires Counted(c)
    ensures Quietly(c, ApplyEvent(cfg, c, ev))
  {
    hide Quietly, Counted, ShowBook, MatchResting, DropAll, Settled, InMarket, Confirm, Snapshot;
    if ev.BookConfirm? {
      ConfirmKeys(c.markets, ev.ts, ev.ticker);
      QuietSame(c, ApplyEvent(cfg, c, ev));
    } else if ev.ticker !in c.markets {
      QuietSame(c, c);
    } else {
      var t, st := ev.ticker, c.markets[ev.ticker];
      match ev
      case BookUpdate(ts, _, yes, no) =>
        var book := Snapshot(yes, no);
        if book.None? {
          QuietSame(c, ApplyEvent(cfg, c, ev));
        } else {
          var shown := InMarket(c, t, st.(book := book, bookTs := Some(ts)));
          MarketQuiet(c, t, st.(book := book, bookTs := Some(ts)));
          QuietCounts(c, shown);
          ShowQuiet(cfg, shown, c.Queue(t), book.value);
          QuietChain(c, shown, ApplyEvent(cfg, c, ev));
        }
      case TradeTick(_, _, trade) =>
        var m := st.(lastTrade := Some(trade), trades := Remember(st.trades, trade, cfg.tradeHistory));
        MarketQuiet(c, t, m);
        QuietCounts(c, InMarket(c, t, m));
        MatchQuiet(cfg, InMarket(c, t, m), c.Queue(t), trade, map[]);
        QuietChain(c, InMarket(c, t, m), ApplyEvent(cfg, c, ev));
      case MarketClose(_, _) =>
        ClosingQuiet(c, t, st.(closed := true));
      case Settlement(_, _, value) =>
        var m := st.(closed := true, outcome := Some(value));
        ClosingQuiet(c, t, m);
        var closed := DropAll(InMarket(c, t, m), c.Queue(t));
        QuietCounts(c, closed);
        QuietSame(closed, ApplyEvent(cfg, c, ev));
        QuietChain(c, closed, ApplyEvent(cfg, c, ev));
    }
  }

  lemma ConfirmKeys(markets: map<Ticker, MarketState>, ts: int, ticker: Ticker)
    ensures Confirm(markets, ts, ticker).Keys == markets.Keys
  {
  }

  lemma ClosingQuiet<S>(c: Core<S>, t: Ticker, m: MarketState)
    requires Counted(c) && t in c.markets
    ensures Quietly(c, DropAll(InMarket(c, t, m), c.Queue(t)))
  {
    hide Quietly, Counted, DropAll, InMarket;
    MarketQuiet(c, t, m);
    QuietCounts(c, InMarket(c, t, m));
    DropAllQuiet(InMarket(c, t, m), c.Queue(t));
    QuietChain(c, InMarket(c, t, m), DropAll(InMarket(c, t, m), c.Queue(t)));
  }

  lemma {:induction false} ApplyAllQuiet<S>(cfg: Config, c: Core<S>, batch: seq<FeedEvent>)
    requires Counted(c)
    ensures Quietly(c, ApplyAll(cfg, c, batch))
    decreases |batch|
  {
    hide Quietly, Counted, ApplyEvent;
    if batch == [] || c.error.Some? {
      QuietSame(c, c);
    } else {
      var next := ApplyEvent(cfg, c, batch[0]);
      EventQuiet(cfg, c, batch[0]);
      QuietCounts(c, next);
      ApplyAllQuiet(cfg, next, batch[1..]);
      QuietChain(c, next, ApplyAll(cfg, next, batch[1..]));
    }
  }

  // ---------------------------------------------------------------- arrivals and cancels

  lemma RejectQuiet<S>(cfg: Config, c: Core<S>, id: nat)
    requires Counted(c) && id in c.records
    ensures Quietly(c, Reject(cfg, c, id))
  {
    hide Quietly, Counted, WithStatus, Schedule;
    var marked := WithStatus(c, id, REJECTED);
    StatusQuiet(c, id, REJECTED);
    QuietCounts(c, marked);
    QuietNow(c, marked);
    NoticeQuiet(marked, c.now + cfg.latencyAck, FILL_NOTICE, Rejected(id, c.records[id].order.tag));
    QuietChain(c, marked, Reject(cfg, c, id));
  }

  lemma {:induction false} RecordFillsQuiet<S>(
    cfg: Config, c: Core<S>, id: nat, o: Order, fills: seq<Fill>, total: int, left: int, all: Qty)
    requires Counted(c)
    ensures Quietly(c, RecordFills(cfg, c, id, o, fills, total, left, all))
    decreases |fills|
  {
    hide Quietly, Counted, LogFill, FeeShare;
    if fills == [] || c.error.Some? || id !in c.records {
      QuietSame(c, c);
    } else {
      var fee := FeeShare(total, left, fills[0].qty, all, |fills| == 1);
      var f := FillOf(c.now, id, o, fills[0].price, fills[0].qty, fee, false);
      var next := LogFill(cfg, c, f);
      LogFillQuiet(cfg, c, f);
      QuietCounts(c, next);
      RecordFillsQuiet(cfg, next, id, o, fills[1..], total, left - fee, all);
      QuietChain(c, next, RecordFills(cfg, next, id, o, fills[1..], total, left - fee, all));
    }
  }

  lemma TakeQuiet<S>(cfg: Config, c: Core<S>, id: nat, o: Order, fills: seq<Fill>)
    requires Counted(c) && o.ticker in c.markets && c.markets[o.ticker].book.Some?
    requires c.markets[o.ticker].book.value.Valid()
    ensures Quietly(c, Take(cfg, c, id, o, fills))
  {
    hide Quietly, Counted, RecordFills, InMarket, FeeSchedule.OrderFee, SumQty, Book.Valid;
    if fills == [] {
      QuietSame(c, c);
    } else {
      var fee := cfg.fees.For(o.ticker).OrderFee(fills, false);
      var booked := RecordFills(cfg, c, id, o, fills, fee, fee, SumQty(fills));
      RecordFillsQuiet(cfg, c, id, o, fills, fee, fee, SumQty(fills));
      QuietCounts(c, booked);
      QuietNow(c, booked);
      var m := c.markets[o.ticker];
      if booked.error.None? {
        MarketQuiet(booked, o.ticker, m.(book := Some(Deplete(m.book.value, o.side, fills))));
        QuietChain(c, booked, Take(cfg, c, id, o, fills));
      }
    }
  }

  lemma CancelQuiet<S>(c: Core<S>, id: nat)
    requires Counted(c)
    ensures Quietly(c, OnCancel(c, id))
  {
    hide Quietly, Counted, DropResting;
    QuietSame(c, c);
    if id in c.orders && id in c.records {
      DropQuiet(c, id);
    }
  }

  /** An order's arrival may also leave that one order resting. */
  ghost predicate Arriving<S>(a: Core<S>, b: Core<S>, id: nat, o: Order) {
    && Extends(a, b)
    && b.nextId == a.nextId && b.strategy == a.strategy && b.markets.Keys == a.markets.Keys
    && b.records.Keys == a.records.Keys
    && OnlyNotices(a.heap, b.heap)
    && forall k | k in b.orders ::
         || (k in a.orders && SameFace(a.orders[k], b.orders[k]))
         || (k == id && b.orders[k].ticker == o.ticker && b.orders[k].side == o.side && b.orders[k].tag == o.tag)
  }

  lemma QuietArriving<S>(a: Core<S>, b: Core<S>, id: nat, o: Order)
    requires Quietly(a, b)
    ensures Arriving(a, b, id, o)
  {
    hide Extends;
  }

  lemma ThenArriving<S>(a: Core<S>, b: Core<S>, c: Core<S>, id: nat, o: Order)
    requires Quietly(a, b) && Arriving(b, c, id, o)
    ensures Arriving(a, c, id, o)
  {
    Chain(a, b, c);
    hide Extends;
  }

  lemma EnqueueArriving<S>(c: Core<S>, r: Resting, id: nat, o: Order, s: Status)
    requires Counted(c) && id in c.records && r.id == id
    requires r.ticker == o.ticker && r.side == o.side && r.tag == o.tag
    ensures Arriving(c, WithStatus(Enqueue(c, r), id, s), id, o)
  {
    TouchRecord(c.records, c.nextId, id, c.records[id].(status := s), c.now);
    hide RecordsGrow, Numbered;
  }

  lemma RestArriving<S>(cfg: Config, c: Core<S>, id: nat, o: Order, remaining: Qty)
    requires Counted(c) && id in c.records && o.ticker in c.markets
    ensures Arriving(c, Rest(cfg, c, id, o, remaining), id, o)
  {
    hide Quietly, Arriving, Counted, WithStatus, Enqueue, LevelSize;
    var s := if remaining <= 0 then FILLED else if c.records[id].filled != 0 then PARTIAL else EXPIRED;
    StatusQuiet(c, id, s);
    QuietArriving(c, WithStatus(c, id, s), id, o);
    if remaining > 0 && !o.tif.IOC? {
      var placed := cfg.maker.OnPlace(
        Resting(id, o.ticker, o.side, o.price, remaining, o.qty, c.now, o.tag, 0, 0, 0, o.qty - remaining),
        c.markets[o.ticker].book);
      EnqueueArriving(c, placed, id, o, if c.records[id].filled == 0 then RESTING else PARTIAL);
    }
  }

  lemma ArrivalArriving<S>(cfg: Config, c: Core<S>, id: nat, o: Order)
    requires Counted(c) && Dispatchable(c, Arrival(id, o))
    ensures Arriving(c, OnArrival(cfg, c, id, o), id, o)
  {
    hide Quietly, Arriving, Counted, Reject, Rest, Take, TakerFills, SumQty, Notional, Book.BestAsk;
    var m := c.markets[o.ticker];
    RejectQuiet(cfg, c, id);
    QuietArriving(c, Reject(cfg, c, id), id, o);
    RestArriving(cfg, c, id, o, o.qty);
    if Marketable(m, o) {
      var fills := TakerFills(cfg, c, o);
      var taken := Take(cfg, c, id, o, fills);
      TakeQuiet(cfg, c, id, o, fills);
      QuietCounts(c, taken);
      QuietNow(c, taken);
      QuietArriving(c, taken, id, o);
      RestArriving(cfg, taken, id, o, o.qty - SumQty(fills));
      ThenArriving(c, taken, Rest(cfg, taken, id, o, o.qty - SumQty(fills)), id, o);
    }
  }

  lemma ArrivingCounts<S>(a: Core<S>, b: Core<S>, id: nat, o: Order)
    requires Arriving(a, b, id, o)
    ensures Extends(a, b) && Counted(b)
  {
    Counts(a, b);
  }

  // ---------------------------------------------------------------- strategy calls and turns

  lemma TellGrows<S>(cfg: Config, strat: Strategy<S>, c: Core<S>, s: Stimulus)
    requires Counted(c)
    ensures Extends(c, Tell(cfg, strat, c, s))
  {
    hide Extends, PerformAll;
    var (next, acts) := strat(c.strategy, ViewOf(c), s);
    var moved := c.(strategy := next);
    Same(c, moved);
    PerformAllGrows(cfg, moved, acts);
    Chain(c, moved, Tell(cfg, strat, c, s));
  }

  lemma {:induction false} NotifyAllGrows<S>(cfg: Config, strat: Strategy<S>, c: Core<S>, batch: seq<FeedEvent>)
    requires Counted(c)
    ensures Extends(c, NotifyAll(cfg, strat, c, batch))
    decreases |batch|
  {
    hide Extends, Counted, Tell;
    Same(c, c);
    if batch != [] && c.error.None? {
      var next := NotifyFeed(cfg, strat, c, batch[0]);
      TellGrows(cfg, strat, c, Feed(batch[0]));
      Counts(c, next);
      NotifyAllGrows(cfg, strat, next, batch[1..]);
      Chain(c, next, NotifyAll(cfg, strat, next, batch[1..]));
    }
  }

  lemma FeedTurnGrows<S>(cfg: Config, strat: Strategy<S>, c: Core<S>, ts: int, batch: seq<FeedEvent>)
    requires Counted(c)
    ensures Extends(c.(now := ts), FeedTurn(cfg, strat, c, ts, batch))
  {
    var at := c.(now := ts);
    assert Counted(at);
    hide Extends, Counted, Quietly, NotifyAll, ApplyAll;
    var applied := ApplyAll(cfg, at, batch);
    ApplyAllQuiet(cfg, at, batch);
    QuietCounts(at, applied);
    NotifyAllGrows(cfg, strat, applied, batch);
    Chain(at, applied, NotifyAll(cfg, strat, applied, batch));
  }

  lemma DispatchGrows<S>(cfg: Config, strat: Strategy<S>, c: Core<S>, p: Payload)
    requires Counted(c)
    ensures Extends(c, Dispatch(cfg, strat, c, p))
  {
    hide Extends, Counted, Quietly, Arriving, OnArrival, OnCancel, Tell;
    Same(c, c);
    match p
    case Arrival(id, o) =>
      if Dispatchable(c, p) {
        ArrivalArriving(cfg, c, id, o);
        ArrivingCounts(c, OnArrival(cfg, c, id, o), id, o);
      }
    case Cancellation(id) =>
      CancelQuiet(c, id);
      QuietCounts(c, OnCancel(c, id));
    case Notify(n) => TellGrows(cfg, strat, c, Noticed(n));
  }

  lemma HeapTurnGrows<S>(cfg: Config, strat: Strategy<S>, c: Core<S>, m: Message)
    requires Counted(c)
    ensures Extends(c.(now := m.ts, heap := c.heap - {m}), HeapTurn(cfg, strat, c, m))
  {
    var popped := c.(now := m.ts, heap := c.heap - {m});
    assert Counted(popped);
    hide Extends, Dispatch;
    DispatchGrows(cfg, strat, popped, m.payload);
  }
}
