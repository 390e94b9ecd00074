/** backtest/engine.py: what becomes of what a strategy asks for.  Every request is put on the queue for its
    time, nothing on the queue is lost, and a cancel that comes up takes its order off the book. */
module Requests {
  import opened Units
  import opened Engine
  import opened EngineGrowth
  import opened EngineInvariant
  import opened SafeRuns
  import Sorting

  // ---------------------------------------------------------------- what is put on the queue

  ghost predicate Queued(h: set<Message>, ts: int, p: Payload) {
    exists m :: m in h && m.ts == ts && m.payload == p
  }

  /** How many of the first k requests are orders. */
  function OrdersAmong(acts: seq<Action>, k: nat): nat
    requires k <= |acts|
  {
    if k == 0 then 0 else OrdersAmong(acts, k - 1) + (if acts[k - 1].Place? then 1 else 0)
  }

  /** The number an order asked for k-th gets: they are numbered as they come. */
  function Number<S>(c: Core<S>, acts: seq<Action>, k: nat): nat
    requires k <= |acts|
  {
    c.nextId + OrdersAmong(acts, k)
  }

  /** What one request leaves: an order on record as sent and on its way for the submission latency, a cancel
      on its way for the cancel latency, a wake for its time. */
  ghost predicate Honoured<S>(cfg: Config, now: int, a: Action, id: nat, b: Core<S>) {
    match a
    case Place(o) =>
      && id in b.records && b.records[id] == OrderRecord(now, now + cfg.latencySubmit, o, SUBMITTED, 0)
      && Queued(b.heap, now + cfg.latencySubmit, Arrival(id, o))
    case Cancel(x) => Queued(b.heap, now + cfg.latencyCancel, Cancellation(x))
    case WakeAt(ts, tag, t) => Queued(b.heap, ts, Notify(Wake(tag, t)))
  }

  lemma QueuedMore(h: set<Message>, more: set<Message>, ts: int, p: Payload)
    requires Queued(h, ts, p) && h <= more
    ensures Queued(more, ts, p)
  {
    var m :| m in h && m.ts == ts && m.payload == p;
    assert m in more;
  }

  lemma ScheduleAdds<S>(c: Core<S>, ts: int, priority: int, p: Payload)
    ensures
      var b, m := Schedule(c, ts, priority, p), Message(ts, priority, c.sequence + 1, p);
      && b.heap == (if ts < c.now then c.heap else c.heap + {m}) && b.records == c.records && b.now == c.now && b.nextId == c.nextId
      && (b.error.None? ==> ts >= c.now && m in b.heap && Queued(b.heap, ts, p))
  {
    var m := Message(ts, priority, c.sequence + 1, p);
    if ts >= c.now {
      assert m in Schedule(c, ts, priority, p).heap;
    }
  }

  lemma NotedIs<S>(cfg: Config, c: Core<S>, o: Order)
    ensures
      var b := Noted(cfg, c, o);
      && b.heap == c.heap && b.now == c.now && b.nextId == c.nextId + 1 && b.sequence == c.sequence
      && b.records == c.records[c.nextId := OrderRecord(c.now, c.now + cfg.latencySubmit, o, SUBMITTED, 0)]
  {
  }

  lemma OneHonoured<S>(cfg: Config, c: Core<S>, a: Action)
    requires Perform(cfg, c, a).error.None?
    ensures
      var b := Perform(cfg, c, a);
      && Honoured(cfg, c.now, a, c.nextId, b) && b.now == c.now
      && b.nextId == c.nextId + (if a.Place? then 1 else 0)
  {
    match a
    case Place(o) =>
      NotedIs(cfg, c, o);
      ScheduleAdds(Noted(cfg, c, o), c.now + cfg.latencySubmit, ORDER_ARRIVAL, Arrival(c.nextId, o));
      hide Schedule, Noted, Queued;
    case Cancel(id) =>
      ScheduleAdds(c, c.now + cfg.latencyCancel, CANCEL_ARRIVAL, Cancellation(id));
      hide Schedule, Queued;
    case WakeAt(ts, tag, t) =>
      ScheduleAdds(c, ts, WAKE, Notify(Wake(tag, t)));
      hide Schedule, Queued;
  }

  /** What is on record and on the queue stays so while the other requests are carried out. */
  lemma HonouredStays<S>(cfg: Config, now: int, a: Action, id: nat, c: Core<S>, acts: seq<Action>)
    requires Counted(c) && Honoured(cfg, now, a, id, c)
    ensures Honoured(cfg, now, a, id, PerformAll(cfg, c, acts))
  {
    var b := PerformAll(cfg, c, acts);
    PerformAllGrows(cfg, c, acts);
    assert c.heap <= b.heap;
    hide PerformAll, Extends;
    match a
    case Place(o) =>
      RecordStays(cfg, c, acts, id);
      QueuedMore(c.heap, b.heap, now + cfg.latencySubmit, Arrival(id, o));
    case Cancel(x) => QueuedMore(c.heap, b.heap, now + cfg.latencyCancel, Cancellation(x));
    case WakeAt(ts, tag, t) => QueuedMore(c.heap, b.heap, ts, Notify(Wake(tag, t)));
  }

  lemma {:induction false} RecordStays<S>(cfg: Config, c: Core<S>, acts: seq<Action>, id: nat)
    requires Counted(c) && id in c.records
    ensures id in PerformAll(cfg, c, acts).records && PerformAll(cfg, c, acts).records[id] == c.records[id]
    decreases |acts|
  {
    if acts != [] && c.error.None? {
      PerformGrows(cfg, c, acts[0]);
      Counts(c, Perform(cfg, c, acts[0]));
      OneRecordStays(cfg, c, acts[0], id);
      hide Perform, Extends, Counted;
      RecordStays(cfg, Perform(cfg, c, acts[0]), acts[1..], id);
    }
  }

  lemma OneRecordStays<S>(cfg: Config, c: Core<S>, a: Action, id: nat)
    requires Counted(c) && id in c.records
    ensures id in Perform(cfg, c, a).records && Perform(cfg, c, a).records[id] == c.records[id]
  {
    match a
    case Place(o) =>
      NotedIs(cfg, c, o);
      ScheduleAdds(Noted(cfg, c, o), c.now + cfg.latencySubmit, ORDER_ARRIVAL, Arrival(c.nextId, o));
      hide Schedule, Noted, Queued;
    case Cancel(x) =>
      ScheduleAdds(c, c.now + cfg.latencyCancel, CANCEL_ARRIVAL, Cancellation(x));
      hide Schedule, Queued;
    case WakeAt(ts, tag, t) =>
      ScheduleAdds(c, ts, WAKE, Notify(Wake(tag, t)));
      hide Schedule, Queued;
  }

  lemma {:induction false} Renumbered(acts: seq<Action>, k: nat)
    requires acts != [] && k < |acts|
    ensures OrdersAmong(acts, k + 1) == (if acts[0].Place? then 1 else 0) + OrdersAmong(acts[1..], k)
  {
    if k > 0 {
      Renumbered(acts, k - 1);
      assert acts[k] == acts[1..][k - 1];
    }
  }

  lemma {:induction false} ErrorStays<S>(cfg: Config, c: Core<S>, acts: seq<Action>)
    requires c.error.Some?
    ensures PerformAll(cfg, c, acts) == c
  {
  }

  lemma FirstPerforms<S>(cfg: Config, c: Core<S>, acts: seq<Action>)
    requires acts != [] && PerformAll(cfg, c, acts).error.None?
    ensures c.error.None? && Perform(cfg, c, acts[0]).error.None?
    ensures PerformAll(cfg, c, acts) == PerformAll(cfg, Perform(cfg, c, acts[0]), acts[1..])
  {
    if c.error.Some? {
      ErrorStays(cfg, c, acts);
    }
    hide Perform;
    var next := Perform(cfg, c, acts[0]);
    if next.error.Some? {
      ErrorStays(cfg, next, acts[1..]);
    }
  }

  /** Every request of a call that met no error is honoured. */
  lemma {:induction false} AllHonoured<S>(cfg: Config, c: Core<S>, acts: seq<Action>, k: nat)
    requires Counted(c) && PerformAll(cfg, c, acts).error.None? && k < |acts|
    ensures Honoured(cfg, c.now, acts[k], Number(c, acts, k), PerformAll(cfg, c, acts))
    decreases |acts|
  {
    hide Perform, Honoured, Counted, Extends;
    FirstPerforms(cfg, c, acts);
    var next := Perform(cfg, c, acts[0]);
    OneHonoured(cfg, c, acts[0]);
    PerformGrows(cfg, c, acts[0]);
    Counts(c, next);
    if k == 0 {
      HonouredStays(cfg, c.now, acts[0], c.nextId, next, acts[1..]);
    } else {
      AllHonoured(cfg, next, acts[1..], k - 1);
      Renumbered(acts, k - 1);
    }
  }

  /** A strategy's call that meets no error has every request honoured. */
  lemma CallHonoured<S>(cfg: Config, strat: Strategy<S>, c: Core<S>, s: Stimulus, k: nat)
    requires Counted(c) && Tell(cfg, strat, c, s).error.None? && k < |strat(c.strategy, ViewOf(c), s).1|
    ensures
      var acts := strat(c.strategy, ViewOf(c), s).1;
      Honoured(cfg, c.now, acts[k], Number(c, acts, k), Tell(cfg, strat, c, s))
  {
    var (next, acts) := strat(c.strategy, ViewOf(c), s);
    AllHonoured(cfg, c.(strategy := next), acts, k);
    hide PerformAll, Honoured, OrdersAmong;
  }

  /** Nothing goes on the queue for orders and cancels but what was asked for. */
  lemma {:induction false} NothingUnasked<S>(cfg: Config, c: Core<S>, acts: seq<Action>, m: Message)
    requires m in PerformAll(cfg, c, acts).heap && m !in c.heap
    ensures exists k :: 0 <= k < |acts| &&
              match m.payload
              case Arrival(_, o) => acts[k] == Place(o) && m.ts == c.now + cfg.latencySubmit
              case Cancellation(id) => acts[k] == Cancel(id) && m.ts == c.now + cfg.latencyCancel
              case Notify(n) => n.Wake? && acts[k] == WakeAt(m.ts, n.tag, n.ticker)
    decreases |acts|
  {
    var next := Perform(cfg, c, acts[0]);
    if m in next.heap {
      OneAsked(cfg, c, acts[0], m);
    } else {
      SameClock(cfg, c, acts[0]);
      hide Perform;
      NothingUnasked(cfg, next, acts[1..], m);
      var k :| 0 <= k < |acts[1..]| &&
        match m.payload
        case Arrival(_, o) => acts[1..][k] == Place(o) && m.ts == c.now + cfg.latencySubmit
        case Cancellation(id) => acts[1..][k] == Cancel(id) && m.ts == c.now + cfg.latencyCancel
        case Notify(n) => n.Wake? && acts[1..][k] == WakeAt(m.ts, n.tag, n.ticker);
      assert acts[k + 1] == acts[1..][k];
    }
  }

  lemma SameClock<S>(cfg: Config, c: Core<S>, a: Action)
    ensures Perform(cfg, c, a).now == c.now
  {
    match a
    case Place(o) =>
      NotedIs(cfg, c, o);
      ScheduleAdds(Noted(cfg, c, o), c.now + cfg.latencySubmit, ORDER_ARRIVAL, Arrival(c.nextId, o));
      hide Schedule, Noted, Queued;
    case Cancel(id) =>
      ScheduleAdds(c, c.now + cfg.latencyCancel, CANCEL_ARRIVAL, Cancellation(id));
      hide Schedule, Queued;
    case WakeAt(ts, tag, t) =>
      ScheduleAdds(c, ts, WAKE, Notify(Wake(tag, t)));
      hide Schedule, Queued;
  }

  lemma OneAsked<S>(cfg: Config, c: Core<S>, a: Action, m: Message)
    requires m in Perform(cfg, c, a).heap && m !in c.heap
    ensures match m.payload
            case Arrival(_, o) => a == Place(o) && m.ts == c.now + cfg.latencySubmit
            case Cancellation(id) => a == Cancel(id) && m.ts == c.now + cfg.latencyCancel
            case Notify(n) => n.Wake? && a == WakeAt(m.ts, n.tag, n.ticker)
  {
    match a
    case Place(o) =>
      NotedIs(cfg, c, o);
      ScheduleAdds(Noted(cfg, c, o), c.now + cfg.latencySubmit, ORDER_ARRIVAL, Arrival(c.nextId, o));
      hide Schedule, Noted, Queued;
    case Cancel(id) =>
      ScheduleAdds(c, c.now + cfg.latencyCancel, CANCEL_ARRIVAL, Cancellation(id));
      hide Schedule, Queued;
    case WakeAt(ts, tag, t) =>
      ScheduleAdds(c, ts, WAKE, Notify(Wake(tag, t)));
      hide Schedule, Queued;
  }

  // ---------------------------------------------------------------- nothing on the queue is lost

  /** The turn takes this message off the queue and acts on it. */
  ghost predicate Takes<S>(w: World<S>, m: Message) {
    !Finished(w) && !TakesFeed(w) && Next(w.core.heap) == m
  }

  lemma StepLoses<S>(cfg: Config, strat: Strategy<S>, w: World<S>, m: Message)
    requires Counted(w.core) && m in w.core.heap && m !in Step(cfg, strat, w).core.heap
    ensures Takes(w, m)
  {
    var c := w.core;
    if TakesFeed(w) {
      if w.feed[0].ts >= c.now {
        FeedTurnGrows(cfg, strat, c, w.feed[0].ts, w.feed[..Simultaneous(w.feed, w.feed[0].ts)]);
      }
    } else {
      HeapTurnGrows(cfg, strat, c, Next(c.heap));
    }
    hide FeedTurn, HeapTurn;
  }

  lemma {:induction false} Delivered<S>(
    cfg: Config, strat: Strategy<S>, tickers: set<Ticker>, s: S, feed: seq<FeedEvent>, n: nat, k: nat, m: Message)
    requires ValidConfig(cfg) && ValidFeed(feed) && Ahead(feed, 0) && n <= k
    requires m in Reached(cfg, strat, tickers, s, feed, n).heap && m !in Reached(cfg, strat, tickers, s, feed, k).heap
    ensures exists j :: n <= j < k && Takes(Run(cfg, strat, Begin(cfg, strat, tickers, s, feed), j), m)
    decreases k
  {
    hide Step, Begin, Takes;
    var w := Run(cfg, strat, Begin(cfg, strat, tickers, s, feed), k - 1);
    if m in w.core.heap {
      RunKeeps(cfg, strat, tickers, s, feed, k - 1);
      InvCounted(cfg, w.core);
      StepLoses(cfg, strat, w, m);
    } else {
      Delivered(cfg, strat, tickers, s, feed, n, k - 1, m);
    }
  }

  /** Once the clock is past its time a message that was on the queue has been taken off it, in a turn of its
      own: an order has arrived, a cancel has been tried, a notice or a wake has been told. */
  lemma DeliveredByThen<S>(
    cfg: Config, strat: Strategy<S>, tickers: set<Ticker>, s: S, feed: seq<FeedEvent>, n: nat, k: nat, m: Message)
    requires ValidConfig(cfg) && ValidFeed(feed) && Ahead(feed, 0) && n <= k
    requires m in Reached(cfg, strat, tickers, s, feed, n).heap && m.ts < Reached(cfg, strat, tickers, s, feed, k).now
    ensures exists j :: n <= j < k && Takes(Run(cfg, strat, Begin(cfg, strat, tickers, s, feed), j), m)
  {
    RunKeeps(cfg, strat, tickers, s, feed, k);
    assert m !in Reached(cfg, strat, tickers, s, feed, k).heap;
    hide Run, Begin, Takes, Inv;
    Delivered(cfg, strat, tickers, s, feed, n, k, m);
  }

  /** In its turn a wake or a notice is told to the strategy with the clock at its own time, and a cancel
      leaves its order nowhere on the book and every other order as it was. */
  lemma TakenMeans<S>(cfg: Config, strat: Strategy<S>, w: World<S>, m: Message)
    requires Takes(w, m)
    ensures
      var at, b := w.core.(now := m.ts, heap := w.core.heap - {m}), Step(cfg, strat, w).core;
      && (m.payload.Notify? ==> b == Tell(cfg, strat, at, Noticed(m.payload.notice)))
      && (m.payload.Cancellation? && m.payload.orderId in w.core.records ==>
            && b.orders == w.core.orders - {m.payload.orderId} && b.reserved.Keys <= w.core.reserved.Keys
            && (m.payload.orderId in w.core.orders ==> m.payload.orderId !in b.reserved && m.payload.orderId !in b.Queue(w.core.orders[m.payload.orderId].ticker))
            && b.account == w.core.account && b.fillLog == w.core.fillLog && b.markets == w.core.markets)
  {
    if m.payload.Cancellation? && m.payload.orderId in w.core.records {
      CancelMeans(w.core.(now := m.ts, heap := w.core.heap - {m}), m.payload.orderId);
    }
    hide Tell, TakesFeed, OnArrival, OnCancel, Core.Queue;
  }

  lemma CancelMeans<S>(c: Core<S>, id: nat)
    requires id in c.records
    ensures
      var b := OnCancel(c, id);
      && b.orders == c.orders - {id} && b.reserved.Keys <= c.reserved.Keys
      && (id in c.orders ==> id !in b.reserved && id !in b.Queue(c.orders[id].ticker))
      && b.account == c.account && b.fillLog == c.fillLog && b.markets == c.markets
  {
    if id in c.orders {
      NotWithin(c.Queue(c.orders[id].ticker), id);
      hide Without;
    } else {
      assert c.orders - {id} == c.orders;
    }
  }

  lemma NotWithin(q: seq<nat>, id: nat)
    ensures id !in Without(q, id)
  {
    Sorting.FilterKeeps(q, OtherThan(id));
  }
}
