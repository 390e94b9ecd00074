/** backtest/engine.py: price-time priority among our own orders.  In every reachable state the orders resting
    in a market stand in the order they were submitted, and every market they stand in is known to the
    strategy. */
module Standing {
  import opened Units
  import opened MapSums
  import opened Sorting
  import opened OrderBooks
  import opened Fees
  import opened Fills
  import opened Ledger
  import opened Engine
  import opened EngineGrowth
  import opened EngineInvariant
  import opened EngineTurns
  import opened SafeRuns
  import opened Notices

  ghost predicate Rising(q: seq<nat>) {
    forall i, j | 0 <= i < j < |q| :: q[i] < q[j]
  }

  // ---------------------------------------------------------------- orders leave, none joins

  /** q is what is left of p. */
  ghost predicate LeftOf(p: seq<nat>, q: seq<nat>) {
    (forall x | x in q :: x in p) && (Rising(p) ==> Rising(q))
  }

  ghost predicate QueuesThin(a: map<Ticker, seq<nat>>, b: map<Ticker, seq<nat>>, desks: seq<Ticker>) {
    forall t | t in b :: (t in a && LeftOf(a[t], b[t])) || (b[t] == [] && t in desks)
  }

  /** No order is sent, none starts to rest, and the lists only lose orders. */
  ghost predicate Thins<S>(a: Core<S>, b: Core<S>) {
    && b.desks == a.desks && b.nextId == a.nextId && b.now == a.now && a.sequence <= b.sequence
    && (forall m | m in b.heap && m.payload.Arrival? :: m in a.heap)
    && (forall id | id in b.orders :: id in a.orders && b.orders[id].ticker == a.orders[id].ticker)
    && ((forall id | id in a.orders :: a.orders[id].ticker in a.desks) ==> QueuesThin(a.queues, b.queues, a.desks))
  }

  lemma SameThins<S>(a: Core<S>, b: Core<S>)
    requires b.desks == a.desks && b.nextId == a.nextId && b.now == a.now && a.sequence <= b.sequence
    requires (forall m | m in b.heap && m.payload.Arrival? :: m in a.heap) && b.queues == a.queues
    requires forall id | id in b.orders :: id in a.orders && b.orders[id].ticker == a.orders[id].ticker
    ensures Thins(a, b)
  {
  }

  lemma ThinsChain<S>(a: Core<S>, b: Core<S>, c: Core<S>)
    requires Thins(a, b) && Thins(b, c)
    ensures Thins(a, c)
  {
    hide Rising, LeftOf;
    if forall id | id in a.orders :: a.orders[id].ticker in a.desks {
      assert forall id | id in b.orders :: b.orders[id].ticker in b.desks;
      QueuesChain(a.queues, b.queues, c.queues, a.desks);
    }
  }

  lemma QueuesChain(a: map<Ticker, seq<nat>>, b: map<Ticker, seq<nat>>, c: map<Ticker, seq<nat>>, desks: seq<Ticker>)
    requires QueuesThin(a, b, desks) && QueuesThin(b, c, desks)
    ensures QueuesThin(a, c, desks)
  {
    forall t | t in c
      ensures (t in a && LeftOf(a[t], c[t])) || (c[t] == [] && t in desks)
    {
      if !(c[t] == [] && t in desks) && b[t] == [] {
        assert LeftOf(b[t], c[t]);
        assert c[t] == [] || c[t][0] in c[t];
      }
    }
  }

  lemma {:induction false} WithoutRises(q: seq<nat>, id: nat)
    ensures LeftOf(q, Without(q, id))
  {
    FilterKeeps(q, OtherThan(id));
    if q != [] {
      var front, last := q[..|q| - 1], q[|q| - 1];
      WithoutRises(front, id);
      FilterKeeps(front, OtherThan(id));
      if Rising(q) {
        assert Rising(front);
        var less := Without(front, id);
        forall i | 0 <= i < |less|
          ensures less[i] < last
        {
          assert less[i] in front;
        }
        assert Without(q, id) == if last != id then less + [last] else less;
      }
    }
  }

  lemma RemoveThins<S>(c: Core<S>, id: nat)
    requires id in c.orders
    ensures Thins(c, RemoveResting(c, id))
  {
    var t := c.orders[id].ticker;
    WithoutRises(c.Queue(t), id);
    forall u | u in c.queues
      ensures LeftOf(c.queues[u], c.queues[u])
    {
    }
    hide Without, Rising;
    if t !in c.queues {
      assert c.Queue(t) == [] && forall x :: x !in Without([], id);
    }
  }

  lemma LogFillThins<S>(cfg: Config, c: Core<S>, f: FillRecord)
    requires f.orderId in c.records
    ensures Thins(c, LogFill(cfg, c, f))
  {
    hide Bought;
    var b := LogFill(cfg, c, f);
    assert forall m | m in b.heap && m.payload.Arrival? :: m in c.heap;
    SameThins(c, b);
  }

  lemma HitThins<S>(cfg: Config, c: Core<S>, id: nat, o: Resting, fill: Qty)
    requires id in c.orders && id in c.records && o.ticker == c.orders[id].ticker
    ensures Thins(c, Hit(cfg, c, id, o, fill))
  {
    var moved := c.(orders := c.orders[id := o]);
    SameThins(c, moved);
    hide Thins;
    if fill != 0 {
      MakerThins(cfg, moved, id, fill);
      ThinsChain(c, moved, MakerFill(cfg, moved, id, fill));
    }
    hide MakerFill;
  }

  lemma MakerThins<S>(cfg: Config, c: Core<S>, id: nat, fill: Qty)
    requires id in c.orders && id in c.records
    ensures Thins(c, MakerFill(cfg, c, id, fill))
  {
    hide Thins, LogFill, RemoveResting, FeeSchedule.OrderFee;
    NothingThins(c);
    var o := c.orders[id];
    var qty := Min(fill, o.qty);
    if qty > 0 {
      var f := MakerRecord(cfg, c, id, o, qty);
      var logged := LogFill(cfg, c, f);
      LogFillThins(cfg, c, f);
      if logged.error.None? {
        LogFillOrders(cfg, c, f);
        LogFillKeepsRecord(cfg, c, f);
        var left := Reduce(logged, id, o.(qty := o.qty - qty, filled := o.filled + qty));
        ReduceThins(logged, id, o.(qty := o.qty - qty, filled := o.filled + qty));
        ThinsChain(c, logged, left);
        if o.qty == qty {
          ReduceOrders(logged, id, o.(qty := o.qty - qty, filled := o.filled + qty));
          RemoveThins(left, id);
          ThinsChain(c, left, RemoveResting(left, id));
        }
      }
    }
  }

  lemma NothingThins<S>(c: Core<S>)
    ensures Thins(c, c)
  {
    SameThins(c, c);
  }

  lemma LogFillKeepsRecord<S>(cfg: Config, c: Core<S>, f: FillRecord)
    requires f.orderId in c.records
    ensures f.orderId in LogFill(cfg, c, f).records
  {
    hide Bought;
  }

  lemma ReduceThins<S>(c: Core<S>, id: nat, left: Resting)
    requires id in c.orders && id in c.records && left.ticker == c.orders[id].ticker
    ensures Thins(c, Reduce(c, id, left))
  {
    SameThins(c, Reduce(c, id, left));
  }

  lemma {:induction false} MatchThins<S>(cfg: Config, c: Core<S>, ids: seq<nat>, trade: Trade, budget: Budget)
    ensures Thins(c, MatchResting(cfg, c, ids, trade, budget))
    decreases |ids|
  {
    hide Thins, Hit, PrintOn;
    NothingThins(c);
    if ids == [] || c.error.Some? {
    } else if ids[0] in c.orders && ids[0] in c.records {
      var (after, fill, next) := PrintOn(cfg, c.orders[ids[0]], trade, budget);
      FacePrintOn(cfg, c.orders[ids[0]], trade, budget);
      HitThins(cfg, c, ids[0], after, fill);
      var mid := Hit(cfg, c, ids[0], after, fill);
      MatchThins(cfg, mid, ids[1..], trade, next);
      ThinsChain(c, mid, MatchResting(cfg, mid, ids[1..], trade, next));
    } else {
      MatchThins(cfg, c, ids[1..], trade, budget);
    }
  }

  lemma {:induction false} ShowThins<S>(cfg: Config, c: Core<S>, ids: seq<nat>, book: Book)
    ensures Thins(c, ShowBook(cfg, c, ids, book))
    decreases |ids|
  {
    hide Thins, Hit, QueueModel.OnBook;
    NothingThins(c);
    if ids == [] || c.error.Some? {
    } else if ids[0] in c.orders && ids[0] in c.records {
      var (after, fill) := cfg.maker.OnBook(c.orders[ids[0]], book);
      FaceOnBook(cfg.maker, c.orders[ids[0]], book);
      HitThins(cfg, c, ids[0], after, fill);
      var mid := Hit(cfg, c, ids[0], after, fill);
      ShowThins(cfg, mid, ids[1..], book);
      ThinsChain(c, mid, ShowBook(cfg, mid, ids[1..], book));
    } else {
      ShowThins(cfg, c, ids[1..], book);
    }
  }

  lemma DropThins<S>(c: Core<S>, id: nat)
    requires id in c.orders && id in c.records
    ensures Thins(c, DropResting(c, id))
  {
    var rec := c.records[id];
    var marked := c.(records := c.records[id := rec.(status := if rec.filled != 0 then PARTIAL else CANCELLED)]);
    SameThins(c, marked);
    RemoveThins(marked, id);
    hide Thins, RemoveResting;
    ThinsChain(c, marked, RemoveResting(marked, id));
  }

  lemma {:induction false} DropAllThins<S>(c: Core<S>, ids: seq<nat>)
    ensures Thins(c, DropAll(c, ids))
    decreases |ids|
  {
    hide Thins, DropResting;
    NothingThins(c);
    if ids != [] {
      if ids[0] in c.orders && ids[0] in c.records {
        DropThins(c, ids[0]);
        DropAllThins(DropResting(c, ids[0]), ids[1..]);
        ThinsChain(c, DropResting(c, ids[0]), DropAll(DropResting(c, ids[0]), ids[1..]));
      } else {
        DropAllThins(c, ids[1..]);
      }
    }
  }

  lemma EventThins<S>(cfg: Config, c: Core<S>, ev: FeedEvent)
    ensures Thins(c, ApplyEvent(cfg, c, ev))
  {
    hide Thins, ShowBook, MatchResting, DropAll, Settled, Confirm, Snapshot, Remember;
    if ev.BookConfirm? || ev.ticker !in c.markets {
      SameThins(c, ApplyEvent(cfg, c, ev));
    } else {
      var t, st := ev.ticker, c.markets[ev.ticker];
      match ev
      case BookUpdate(ts, _, yes, no) =>
        var book := Snapshot(yes, no);
        var shown := InMarket(c, t, st.(book := book, bookTs := Some(ts)));
        SameThins(c, if book.Some? then shown else ApplyEvent(cfg, c, ev));
        if book.Some? {
          ShowThins(cfg, shown, c.Queue(t), book.value);
          ThinsChain(c, shown, ApplyEvent(cfg, c, ev));
        }
      case TradeTick(_, _, trade) =>
        var shown := InMarket(c, t, st.(lastTrade := Some(trade), trades := Remember(st.trades, trade, cfg.tradeHistory)));
        SameThins(c, shown);
        MatchThins(cfg, shown, c.Queue(t), trade, map[]);
        ThinsChain(c, shown, ApplyEvent(cfg, c, ev));
      case MarketClose(_, _) =>
        var shut := InMarket(c, t, st.(closed := true));
        SameThins(c, shut);
        DropAllThins(shut, c.Queue(t));
        ThinsChain(c, shut, ApplyEvent(cfg, c, ev));
      case Settlement(_, _, value) =>
        var shut := InMarket(c, t, st.(closed := true, outcome := Some(value)));
        SameThins(c, shut);
        DropAllThins(shut, c.Queue(t));
        ThinsChain(c, shut, DropAll(shut, c.Queue(t)));
        SameThins(DropAll(shut, c.Queue(t)), ApplyEvent(cfg, c, ev));
        ThinsChain(c, DropAll(shut, c.Queue(t)), ApplyEvent(cfg, c, ev));
    }
  }

  lemma {:induction false} BatchThins<S>(cfg: Config, c: Core<S>, batch: seq<FeedEvent>)
    ensures Thins(c, ApplyAll(cfg, c, batch))
    decreases |batch|
  {
    hide Thins, ApplyEvent;
    NothingThins(c);
    if batch != [] && c.error.None? {
      EventThins(cfg, c, batch[0]);
      BatchThins(cfg, ApplyEvent(cfg, c, batch[0]), batch[1..]);
      ThinsChain(c, ApplyEvent(cfg, c, batch[0]), ApplyAll(cfg, ApplyEvent(cfg, c, batch[0]), batch[1..]));
    }
  }

  lemma {:induction false} RecordFillsThins<S>(
    cfg: Config, c: Core<S>, id: nat, o: Order, fills: seq<Fill>, total: int, left: int, all: Qty)
    ensures Thins(c, RecordFills(cfg, c, id, o, fills, total, left, all))
    decreases |fills|
  {
    hide Thins, LogFill, FeeShare;
    NothingThins(c);
    if fills != [] && c.error.None? && id in c.records {
      var fee := FeeShare(total, left, fills[0].qty, all, |fills| == 1);
      var f := FillOf(c.now, id, o, fills[0].price, fills[0].qty, fee, false);
      LogFillThins(cfg, c, f);
      RecordFillsThins(cfg, LogFill(cfg, c, f), id, o, fills[1..], total, left - fee, all);
      ThinsChain(c, LogFill(cfg, c, f), RecordFills(cfg, c, id, o, fills, total, left, all));
    }
  }

  lemma TakeThins<S>(cfg: Config, c: Core<S>, id: nat, o: Order, fills: seq<Fill>)
    requires o.ticker in c.markets && c.markets[o.ticker].book.Some? && c.markets[o.ticker].book.value.Valid()
    ensures Thins(c, Take(cfg, c, id, o, fills))
  {
    hide Thins, RecordFills, FeeSchedule.OrderFee, SumQty, Book.Valid, Deplete;
    NothingThins(c);
    if fills != [] {
      var fee := cfg.fees.For(o.ticker).OrderFee(fills, false);
      var booked := RecordFills(cfg, c, id, o, fills, fee, fee, SumQty(fills));
      RecordFillsThins(cfg, c, id, o, fills, fee, fee, SumQty(fills));
      SameThins(booked, Take(cfg, c, id, o, fills));
      ThinsChain(c, booked, Take(cfg, c, id, o, fills));
    }
  }

  lemma RejectThins<S>(cfg: Config, c: Core<S>, id: nat)
    requires id in c.records
    ensures Thins(c, Reject(cfg, c, id))
  {
    var b := Reject(cfg, c, id);
    assert forall m | m in b.heap && m.payload.Arrival? :: m in c.heap;
    SameThins(c, b);
  }

  // ---------------------------------------------------------------- the standing of orders

  /** Orders under way were submitted, and will arrive, in the order of their numbers. */
  ghost predicate ComingInOrder(h: set<Message>, nextId: nat, latest: int, sequence: nat) {
    && (forall m | m in h && m.payload.Arrival? :: m.payload.orderId < nextId && m.ts <= latest && m.sequence <= sequence)
    && forall m, n | m in h && n in h && m.payload.Arrival? && n.payload.Arrival? && m.payload.orderId < n.payload.orderId ::
         m.ts <= n.ts && m.sequence < n.sequence
  }

  /** What rests came before what is under way. */
  ghost predicate CameBefore(queues: map<Ticker, seq<nat>>, h: set<Message>, nextId: nat) {
    && (forall t, x | t in queues && x in queues[t] :: x < nextId)
    && forall t, x, m | t in queues && x in queues[t] && m in h && m.payload.Arrival? :: x < m.payload.orderId
  }

  ghost predicate InStanding<S>(cfg: Config, c: Core<S>) {
    && (forall t | t in c.queues :: Rising(c.queues[t]) && t in c.desks)
    && (forall id | id in c.orders :: c.orders[id].ticker in c.desks)
    && ComingInOrder(c.heap, c.nextId, c.now + cfg.latencySubmit, c.sequence)
    && CameBefore(c.queues, c.heap, c.nextId)
  }

  lemma ThinStanding<S>(cfg: Config, a: Core<S>, b: Core<S>)
    requires InStanding(cfg, a) && Thins(a, b)
    ensures InStanding(cfg, b)
  {
    assert QueuesThin(a.queues, b.queues, a.desks);
    forall t | t in b.queues
      ensures Rising(b.queues[t]) && t in b.desks
    {
    }
    assert forall t, x | t in b.queues && x in b.queues[t] :: t in a.queues && x in a.queues[t];
    hide Rising;
  }

  // ---------------------------------------------------------------- requests

  lemma SendInOrder(h: set<Message>, nextId: nat, latest: int, sequence: nat, o: Order)
    requires ComingInOrder(h, nextId, latest, sequence)
    ensures ComingInOrder(h + {Message(latest, ORDER_ARRIVAL, sequence + 1, Arrival(nextId, o))}, nextId + 1, latest, sequence + 1)
  {
  }

  lemma PerformStanding<S>(cfg: Config, c: Core<S>, a: Action)
    requires cfg.latencySubmit >= 0 && InStanding(cfg, c)
    ensures InStanding(cfg, Perform(cfg, c, a))
  {
    hide InStanding, Schedule, Submit, Thins;
    match a
    case Place(o) =>
      SubmitStanding(cfg, c, o);
    case Cancel(id) =>
      OtherIs(c, c.now + cfg.latencyCancel, CANCEL_ARRIVAL, Cancellation(id));
      ThinStanding(cfg, c, Perform(cfg, c, a));
    case WakeAt(ts, tag, t) =>
      OtherIs(c, ts, WAKE, Notify(Wake(tag, t)));
      ThinStanding(cfg, c, Perform(cfg, c, a));
  }

  lemma SubmitStanding<S>(cfg: Config, c: Core<S>, o: Order)
    requires cfg.latencySubmit >= 0 && InStanding(cfg, c)
    ensures InStanding(cfg, Submit(cfg, c, o))
  {
    if o.ticker in c.markets {
      SendInOrder(c.heap, c.nextId, c.now + cfg.latencySubmit, c.sequence, o);
      SubmitIs(cfg, c, o);
      hide Submit, ComingInOrder, Rising;
    } else {
      FailStanding(cfg, c);
      hide InStanding;
    }
  }

  lemma FailStanding<S>(cfg: Config, c: Core<S>)
    requires InStanding(cfg, c)
    ensures InStanding(cfg, Fail(c, UnknownMarket))
  {
  }

  lemma SubmitIs<S>(cfg: Config, c: Core<S>, o: Order)
    requires cfg.latencySubmit >= 0 && o.ticker in c.markets
    ensures
      var b := Submit(cfg, c, o);
      && b.heap == c.heap + {Message(c.now + cfg.latencySubmit, ORDER_ARRIVAL, c.sequence + 1, Arrival(c.nextId, o))}
      && b.nextId == c.nextId + 1 && b.sequence == c.sequence + 1 && b.now == c.now
      && b.queues == c.queues && b.orders == c.orders && b.desks == c.desks
  {
  }

  lemma OtherIs<S>(c: Core<S>, ts: int, priority: int, p: Payload)
    requires !p.Arrival?
    ensures Thins(c, Schedule(c, ts, priority, p))
  {
    ScheduleLeaves(c, ts, priority, p);
    hide Schedule, Thins;
    SameThins(c, Schedule(c, ts, priority, p));
  }

  lemma ScheduleLeaves<S>(c: Core<S>, ts: int, priority: int, p: Payload)
    ensures
      var b := Schedule(c, ts, priority, p);
      && b.desks == c.desks && b.nextId == c.nextId && b.now == c.now && c.sequence <= b.sequence
      && b.queues == c.queues && b.orders == c.orders
      && b.heap <= c.heap + {Message(ts, priority, c.sequence + 1, p)}
  {
  }

  lemma {:induction false} PerformAllStanding<S>(cfg: Config, c: Core<S>, acts: seq<Action>)
    requires cfg.latencySubmit >= 0 && InStanding(cfg, c)
    ensures InStanding(cfg, PerformAll(cfg, c, acts))
    decreases |acts|
  {
    hide InStanding, Perform;
    if acts != [] && c.error.None? {
      PerformStanding(cfg, c, acts[0]);
      PerformAllStanding(cfg, Perform(cfg, c, acts[0]), acts[1..]);
    }
  }

  lemma TellStanding<S>(cfg: Config, strat: Strategy<S>, c: Core<S>, s: Stimulus)
    requires cfg.latencySubmit >= 0 && InStanding(cfg, c)
    ensures InStanding(cfg, Tell(cfg, strat, c, s))
  {
    var (next, acts) := strat(c.strategy, ViewOf(c), s);
    PerformAllStanding(cfg, c.(strategy := next), acts);
    hide PerformAll;
  }

  lemma {:induction false} NotifyStanding<S>(cfg: Config, strat: Strategy<S>, c: Core<S>, batch: seq<FeedEvent>)
    requires cfg.latencySubmit >= 0 && InStanding(cfg, c)
    ensures InStanding(cfg, NotifyAll(cfg, strat, c, batch))
    decreases |batch|
  {
    hide InStanding, Tell;
    if batch != [] && c.error.None? {
      TellStanding(cfg, strat, c, Feed(batch[0]));
      NotifyStanding(cfg, strat, NotifyFeed(cfg, strat, c, batch[0]), batch[1..]);
    }
  }

  // ---------------------------------------------------------------- arrivals

  /** The order just arrived comes after all that rest and before all still under way. */
  ghost predicate Between(queues: map<Ticker, seq<nat>>, h: set<Message>, nextId: nat, id: nat) {
    && id < nextId && (forall t, x | t in queues && x in queues[t] :: x < id)
    && forall m | m in h && m.payload.Arrival? :: id < m.payload.orderId
  }

  lemma StatusStanding<S>(cfg: Config, c: Core<S>, id: nat, s: Status)
    requires InStanding(cfg, c) && id in c.records
    ensures InStanding(cfg, WithStatus(c, id, s))
  {
  }

  lemma RiseMore(q: seq<nat>, id: nat)
    requires Rising(q) && forall x | x in q :: x < id
    ensures Rising(q + [id])
  {
    forall i, j | 0 <= i < j < |q + [id]|
      ensures (q + [id])[i] < (q + [id])[j]
    {
      assert q[i] in q;
    }
  }

  lemma EnqueueStanding<S>(cfg: Config, c: Core<S>, r: Resting)
    requires InStanding(cfg, c) && Between(c.queues, c.heap, c.nextId, r.id)
    ensures InStanding(cfg, Enqueue(c, r))
  {
    var q := c.Queue(r.ticker);
    RiseMore(q, r.id);
    hide Rising, ComingInOrder, Notional;
    var b := Enqueue(c, r);
    assert b.queues[r.ticker] == q + [r.id];
    assert r.ticker in b.desks by { DeskThere(c, r); }
    assert forall t | t in c.desks :: t in b.desks;
  }

  lemma DeskThere<S>(c: Core<S>, r: Resting)
    requires r.ticker in c.queues ==> r.ticker in c.desks
    ensures r.ticker in Enqueue(c, r).desks && forall t | t in c.desks :: t in Enqueue(c, r).desks
  {
  }

  lemma RestStanding<S>(cfg: Config, c: Core<S>, id: nat, o: Order, remaining: Qty)
    requires InStanding(cfg, c) && id in c.records && o.ticker in c.markets && Between(c.queues, c.heap, c.nextId, id)
    ensures InStanding(cfg, Rest(cfg, c, id, o, remaining))
  {
    hide InStanding, Between, WithStatus, Enqueue, LevelSize, Share;
    if remaining <= 0 {
      StatusStanding(cfg, c, id, FILLED);
    } else if o.tif.IOC? {
      StatusStanding(cfg, c, id, if c.records[id].filled != 0 then PARTIAL else EXPIRED);
    } else {
      var placed := cfg.maker.OnPlace(
        Resting(id, o.ticker, o.side, o.price, remaining, o.qty, c.now, o.tag, 0, 0, 0, o.qty - remaining), c.markets[o.ticker].book);
      EnqueueStanding(cfg, c, placed);
      EnqueueRecords(c, placed);
      StatusStanding(cfg, Enqueue(c, placed), id, if c.records[id].filled == 0 then RESTING else PARTIAL);
    }
  }

  lemma EnqueueRecords<S>(c: Core<S>, r: Resting)
    ensures Enqueue(c, r).records == c.records
  {
  }

  lemma ThinBetween<S>(cfg: Config, a: Core<S>, b: Core<S>, id: nat)
    requires InStanding(cfg, a) && Thins(a, b) && Between(a.queues, a.heap, a.nextId, id)
    ensures Between(b.queues, b.heap, b.nextId, id)
  {
    assert QueuesThin(a.queues, b.queues, a.desks);
    assert forall t, x | t in b.queues && x in b.queues[t] :: t in a.queues && x in a.queues[t];
    hide Rising, ComingInOrder;
  }

  lemma ArrivalStanding<S>(cfg: Config, c: Core<S>, id: nat, o: Order)
    requires Dispatchable(c, Arrival(id, o)) && InStanding(cfg, c) && Between(c.queues, c.heap, c.nextId, id)
    ensures InStanding(cfg, OnArrival(cfg, c, id, o))
  {
    hide InStanding, Between, Reject, Rest, Take, TakerFills, SumQty, Notional, MapSum, Book.BestAsk, Book.Valid, Thins;
    RejectThins(cfg, c, id);
    ThinStanding(cfg, c, Reject(cfg, c, id));
    RestStanding(cfg, c, id, o, o.qty);
    if Marketable(c.markets[o.ticker], o) {
      var fills := TakerFills(cfg, c, o);
      var taken := Take(cfg, c, id, o, fills);
      TakeThins(cfg, c, id, o, fills);
      ThinStanding(cfg, c, taken);
      ThinBetween(cfg, c, taken, id);
      if id in taken.records && o.ticker in taken.markets {
        RestStanding(cfg, taken, id, o, o.qty - SumQty(fills));
      }
    }
  }

  // ---------------------------------------------------------------- whole runs

  lemma PopStanding<S>(cfg: Config, c: Core<S>, m: Message, at: Core<S>)
    requires cfg.latencySubmit >= 0 && InStanding(cfg, c) && HeapOk(c.heap, c.sequence, c.now) && IsNext(c.heap, m)
    requires (forall n | n in c.heap :: n.priority == Rank(n.payload)) && at == c.(now := m.ts, heap := c.heap - {m})
    requires forall x, y | x in c.heap && y in c.heap && x.payload.Arrival? && y.payload.Arrival?
                           && x.payload.orderId == y.payload.orderId :: x == y
    ensures InStanding(cfg, at)
    ensures m.payload.Arrival? ==> Between(at.queues, at.heap, at.nextId, m.payload.orderId)
  {
    assert c.now <= m.ts;
    if m.payload.Arrival? {
      forall n | n in at.heap && n.payload.Arrival?
        ensures m.payload.orderId < n.payload.orderId
      {
        assert Before(m, n);
      }
    }
    hide Rising;
  }

  lemma PendingOnce<S>(cfg: Config, c: Core<S>)
    requires Inv(cfg, c)
    ensures HeapOk(c.heap, c.sequence, c.now)
    ensures forall x, y | x in c.heap && y in c.heap && x.payload.Arrival? && y.payload.Arrival?
                          && x.payload.orderId == y.payload.orderId :: x == y
  {
  }

  lemma RanksAre<S>(cfg: Config, c: Core<S>)
    requires HeardIn(cfg, c)
    ensures forall n | n in c.heap :: n.priority == Rank(n.payload)
  {
  }

  lemma HeapTurnStanding<S>(cfg: Config, strat: Strategy<S>, c: Core<S>, m: Message)
    requires ValidConfig(cfg) && Inv(cfg, c) && HeardIn(cfg, c) && InStanding(cfg, c) && IsNext(c.heap, m)
    ensures InStanding(cfg, HeapTurn(cfg, strat, c, m))
  {
    var at := c.(now := m.ts, heap := c.heap - {m});
    PendingOnce(cfg, c);
    RanksAre(cfg, c);
    PopStanding(cfg, c, m, at);
    hide Inv, HeardIn, InStanding, Between, OnArrival, DropResting, Tell, Dispatchable, IsNext;
    match m.payload
    case Arrival(id, o) =>
      if Dispatchable(at, m.payload) {
        ArrivalStanding(cfg, at, id, o);
      }
    case Cancellation(id) =>
      if id in at.orders && id in at.records {
        DropThins(at, id);
        ThinStanding(cfg, at, DropResting(at, id));
      }
    case Notify(n) => TellStanding(cfg, strat, at, Noticed(n));
  }

  lemma LaterStanding<S>(cfg: Config, c: Core<S>, ts: int)
    requires InStanding(cfg, c) && c.now <= ts
    ensures InStanding(cfg, c.(now := ts))
  {
  }

  lemma FeedTurnStanding<S>(cfg: Config, strat: Strategy<S>, c: Core<S>, ts: int, batch: seq<FeedEvent>)
    requires cfg.latencySubmit >= 0 && InStanding(cfg, c) && c.now <= ts
    ensures InStanding(cfg, FeedTurn(cfg, strat, c, ts, batch))
  {
    var at := c.(now := ts);
    LaterStanding(cfg, c, ts);
    hide InStanding, ApplyAll, NotifyAll, Thins;
    BatchThins(cfg, at, batch);
    ThinStanding(cfg, at, ApplyAll(cfg, at, batch));
    NotifyStanding(cfg, strat, ApplyAll(cfg, at, batch), batch);
  }

  lemma StepStanding<S>(cfg: Config, strat: Strategy<S>, w: World<S>)
    requires ValidConfig(cfg) && Good(cfg, w) && HeardIn(cfg, w.core) && InStanding(cfg, w.core)
    ensures InStanding(cfg, Step(cfg, strat, w).core)
  {
    hide Inv, HeardIn, FeedTurn, HeapTurn, ValidEvent;
    var c := w.core;
    if !Finished(w) {
      if TakesFeed(w) {
        var ts := w.feed[0].ts;
        hide InStanding;
        FeedTurnStanding(cfg, strat, c, ts, w.feed[..Simultaneous(w.feed, ts)]);
      } else {
        hide InStanding;
        HeapTurnStanding(cfg, strat, c, Next(c.heap));
      }
    }
  }

  lemma {:induction false} RunStanding<S>(
    cfg: Config, strat: Strategy<S>, tickers: set<Ticker>, s: S, feed: seq<FeedEvent>, n: nat)
    requires ValidConfig(cfg) && ValidFeed(feed) && Ahead(feed, 0)
    ensures InStanding(cfg, Reached(cfg, strat, tickers, s, feed, n))
  {
    hide InStanding, Step, Tell, Initial, Good, HeardIn;
    if n == 0 {
      NoneStanding(cfg, tickers, s);
      TellStanding(cfg, strat, Initial(cfg, tickers, s), Start);
    } else {
      RunStanding(cfg, strat, tickers, s, feed, n - 1);
      HeardRun(cfg, strat, tickers, s, feed, n - 1);
      RunKeeps(cfg, strat, tickers, s, feed, n - 1);
      StepStanding(cfg, strat, Run(cfg, strat, Begin(cfg, strat, tickers, s, feed), n - 1));
    }
  }

  lemma NoneStanding<S>(cfg: Config, tickers: set<Ticker>, s: S)
    ensures InStanding(cfg, Initial(cfg, tickers, s))
  {
  }

  /** In every reachable state each market's resting orders stand in the order they were submitted, before
      all that are still on their way; and the strategy is shown every market it has an order in. */
  lemma OldestFirst<S>(
    cfg: Config, strat: Strategy<S>, tickers: set<Ticker>, s: S, feed: seq<FeedEvent>, n: nat)
    requires ValidConfig(cfg) && ValidFeed(feed) && Ahead(feed, 0)
    ensures
      var c := Reached(cfg, strat, tickers, s, feed, n);
      && (forall t, i, j | t in c.queues && 0 <= i < j < |c.queues[t]| :: c.queues[t][i] < c.queues[t][j])
      && (forall t, x, m | t in c.queues && x in c.queues[t] && m in c.heap && m.payload.Arrival? :: x < m.payload.orderId)
      && forall id | id in c.orders ::
           c.orders[id].ticker in c.desks && c.orders[id].ticker in c.queues && id in c.queues[c.orders[id].ticker]
  {
    RunStanding(cfg, strat, tickers, s, feed, n);
    RunKeeps(cfg, strat, tickers, s, feed, n);
    hide Reached, Numbered, HeapOk, PendingOk, ReservedOk, RestingOk, LogOk, MoneyOk, BooksOk, SettledOk, LiveOk, OpenOk;
    hide ComingInOrder, ValidFeed;
  }
}
