/** backtest/engine.py's latency claim: an order takes effect exactly its submission latency after the
    decision, in every reachable state. */
module Latency {
  import opened Units
  import opened Fills
  import opened Engine
  import opened EngineGrowth
  import opened EngineInvariant
  import opened EngineTurns
  import opened SafeRuns

  /** Whatever is no longer under way was due by now. */
  ghost predicate DueOk<S>(cfg: Config, c: Core<S>) {
    forall id | id in c.records && NotPending(c.heap, id) :: c.records[id].submittedTs + cfg.latencySubmit <= c.now
  }

  lemma DueGrows<S>(cfg: Config, a: Core<S>, b: Core<S>)
    requires DueOk(cfg, a) && Extends(a, b) && b.records.Keys == a.records.Keys
    ensures DueOk(cfg, b)
  {
    forall id | id in b.records && NotPending(b.heap, id)
      ensures b.records[id].submittedTs + cfg.latencySubmit <= b.now
    {
      assert StubOf(b.records[id]) == StubOf(a.records[id]);
      assert NotPending(a.heap, id);
    }
  }

  lemma DueSubmit<S>(cfg: Config, c: Core<S>, o: Order)
    requires ValidConfig(cfg) && Counted(c) && DueOk(cfg, c)
    ensures DueOk(cfg, Submit(cfg, c, o))
  {
    var b := Submit(cfg, c, o);
    if o.ticker in c.markets {
      var m := Message(c.now + cfg.latencySubmit, ORDER_ARRIVAL, c.sequence + 1, Arrival(c.nextId, o));
      assert m in b.heap && c.heap <= b.heap;
      forall id | id in b.records && NotPending(b.heap, id)
        ensures b.records[id].submittedTs + cfg.latencySubmit <= b.now
      {
        assert id != c.nextId;
        assert NotPending(c.heap, id);
      }
    }
  }

  lemma DuePerform<S>(cfg: Config, c: Core<S>, a: Action)
    requires ValidConfig(cfg) && Counted(c) && DueOk(cfg, c)
    ensures DueOk(cfg, Perform(cfg, c, a))
  {
    PerformGrows(cfg, c, a);
    if a.Place? {
      DueSubmit(cfg, c, a.order);
    } else {
      hide DueOk, Extends, Counted;
      PerformRecords(cfg, c, a);
      DueGrows(cfg, c, Perform(cfg, c, a));
    }
  }

  lemma PerformRecords<S>(cfg: Config, c: Core<S>, a: Action)
    requires !a.Place?
    ensures Perform(cfg, c, a).records == c.records
  {
  }

  lemma {:induction false} DuePerformAll<S>(cfg: Config, c: Core<S>, acts: seq<Action>)
    requires ValidConfig(cfg) && Counted(c) && DueOk(cfg, c)
    ensures DueOk(cfg, PerformAll(cfg, c, acts))
    decreases |acts|
  {
    hide Perform, DueOk, Counted, Extends;
    if acts != [] && c.error.None? {
      DuePerform(cfg, c, acts[0]);
      PerformGrows(cfg, c, acts[0]);
      Counts(c, Perform(cfg, c, acts[0]));
      DuePerformAll(cfg, Perform(cfg, c, acts[0]), acts[1..]);
    }
  }

  lemma DueTell<S>(cfg: Config, strat: Strategy<S>, c: Core<S>, s: Stimulus)
    requires ValidConfig(cfg) && Counted(c) && DueOk(cfg, c)
    ensures DueOk(cfg, Tell(cfg, strat, c, s))
  {
    var (next, acts) := strat(c.strategy, ViewOf(c), s);
    DuePerformAll(cfg, c.(strategy := next), acts);
  }

  lemma {:induction false} DueNotify<S>(cfg: Config, strat: Strategy<S>, c: Core<S>, batch: seq<FeedEvent>)
    requires ValidConfig(cfg) && Counted(c) && DueOk(cfg, c)
    ensures DueOk(cfg, NotifyAll(cfg, strat, c, batch))
    decreases |batch|
  {
    hide DueOk, Counted, Tell, Extends;
    if batch != [] && c.error.None? {
      var next := NotifyFeed(cfg, strat, c, batch[0]);
      DueTell(cfg, strat, c, Feed(batch[0]));
      TellGrows(cfg, strat, c, Feed(batch[0]));
      Counts(c, Tell(cfg, strat, c, Feed(batch[0])));
      DueNotify(cfg, strat, next, batch[1..]);
    }
  }

  lemma DueFeedTurn<S>(cfg: Config, strat: Strategy<S>, c: Core<S>, ts: int, batch: seq<FeedEvent>)
    requires ValidConfig(cfg) && Counted(c) && DueOk(cfg, c) && c.now <= ts
    ensures DueOk(cfg, FeedTurn(cfg, strat, c, ts, batch))
  {
    var at := c.(now := ts);
    assert DueOk(cfg, at) && Counted(at);
    hide DueOk, Counted, ApplyAll, NotifyAll, Quietly;
    ApplyAllQuiet(cfg, at, batch);
    QuietCounts(at, ApplyAll(cfg, at, batch));
    QuietNow(at, ApplyAll(cfg, at, batch));
    DueGrows(cfg, at, ApplyAll(cfg, at, batch));
    DueNotify(cfg, strat, ApplyAll(cfg, at, batch), batch);
  }

  /** A message leaves the queue at its own time, which for an order is its submission plus the latency. */
  lemma DuePop<S>(cfg: Config, c: Core<S>, m: Message)
    requires Inv(cfg, c) && DueOk(cfg, c) && IsNext(c.heap, m)
    ensures DueOk(cfg, c.(now := m.ts, heap := c.heap - {m}))
  {
    Pop(cfg, c, m);
    hide Numbered, HeapOk, QueuesOk, ReservedOk, RestingOk, LogOk, MoneyOk, BooksOk, SettledOk, LiveOk, OpenOk;
    forall id | id in c.records && NotPending(c.heap - {m}, id)
      ensures c.records[id].submittedTs + cfg.latencySubmit <= m.ts
    {
      if m.payload.Arrival? && m.payload.orderId == id {
        assert UnderWay(m, c.records, c.markets.Keys, c.orders.Keys, cfg.latencySubmit);
      } else {
        assert NotPending(c.heap, id);
      }
    }
  }

  lemma DueHeapTurn<S>(cfg: Config, strat: Strategy<S>, c: Core<S>, m: Message)
    requires ValidConfig(cfg) && Inv(cfg, c) && DueOk(cfg, c) && IsNext(c.heap, m)
    ensures DueOk(cfg, HeapTurn(cfg, strat, c, m))
  {
    var at := c.(now := m.ts, heap := c.heap - {m});
    DuePop(cfg, c, m);
    InvCounted(cfg, c);
    hide DueOk, Inv, OnArrival, OnCancel, Tell, Dispatchable, Quietly, Arriving;
    match m.payload
    case Arrival(id, o) =>
      if Dispatchable(at, m.payload) {
        ArrivalArriving(cfg, at, id, o);
        ArrivingCounts(at, OnArrival(cfg, at, id, o), id, o);
        ArrivingRecords(at, OnArrival(cfg, at, id, o), id, o);
        DueGrows(cfg, at, OnArrival(cfg, at, id, o));
      }
    case Cancellation(id) =>
      CancelQuiet(at, id);
      QuietCounts(at, OnCancel(at, id));
      QuietNow(at, OnCancel(at, id));
      DueGrows(cfg, at, OnCancel(at, id));
    case Notify(n) =>
      DueTell(cfg, strat, at, Noticed(n));
  }

  lemma ArrivingRecords<S>(a: Core<S>, b: Core<S>, id: nat, o: Order)
    requires Arriving(a, b, id, o)
    ensures b.records.Keys == a.records.Keys
  {
  }

  lemma DueStep<S>(cfg: Config, strat: Strategy<S>, w: World<S>)
    requires ValidConfig(cfg) && Good(cfg, w) && DueOk(cfg, w.core)
    ensures DueOk(cfg, Step(cfg, strat, w).core)
  {
    InvCounted(cfg, w.core);
    hide Inv, DueOk, FeedTurn, HeapTurn, Counted, ValidEvent;
    if !Finished(w) {
      if TakesFeed(w) {
        var ts := w.feed[0].ts;
        DueFeedTurn(cfg, strat, w.core, ts, w.feed[..Simultaneous(w.feed, ts)]);
      } else {
        DueHeapTurn(cfg, strat, w.core, Next(w.core.heap));
      }
    }
  }

  lemma {:induction false} DueRun<S>(
    cfg: Config, strat: Strategy<S>, tickers: set<Ticker>, s: S, feed: seq<FeedEvent>, n: nat)
    requires ValidConfig(cfg) && ValidFeed(feed) && Ahead(feed, 0)
    ensures DueOk(cfg, Reached(cfg, strat, tickers, s, feed, n))
  {
    hide DueOk, Step, Tell, Initial, Good;
    if n == 0 {
      assert DueOk(cfg, Initial(cfg, tickers, s)) && Counted(Initial(cfg, tickers, s)) by { NothingDue(cfg, tickers, s); }
      DueTell(cfg, strat, Initial(cfg, tickers, s), Start);
    } else {
      DueRun(cfg, strat, tickers, s, feed, n - 1);
      RunKeeps(cfg, strat, tickers, s, feed, n - 1);
      DueStep(cfg, strat, Run(cfg, strat, Begin(cfg, strat, tickers, s, feed), n - 1));
    }
  }

  lemma NothingDue<S>(cfg: Config, tickers: set<Ticker>, s: S)
    ensures DueOk(cfg, Initial(cfg, tickers, s)) && Counted(Initial(cfg, tickers, s))
  {
  }

  /** Until its latency has passed an order is under way, as sent, and has no effect at all; once the clock
      is beyond it the order has arrived. */
  lemma OrdersTakeEffectOnTime<S>(
    cfg: Config, strat: Strategy<S>, tickers: set<Ticker>, s: S, feed: seq<FeedEvent>, n: nat, id: nat)
    requires ValidConfig(cfg) && ValidFeed(feed) && Ahead(feed, 0)
    requires id in Reached(cfg, strat, tickers, s, feed, n).records
    ensures
      var c := Reached(cfg, strat, tickers, s, feed, n);
      var due := c.records[id].submittedTs + cfg.latencySubmit;
      && (c.now < due ==> !NotPending(c.heap, id) && Logged(c.fillLog, id) == 0 && id !in c.orders)
      && (due < c.now ==> NotPending(c.heap, id))
  {
    DueRun(cfg, strat, tickers, s, feed, n);
    RunKeeps(cfg, strat, tickers, s, feed, n);
    hide Reached, Numbered, QueuesOk, ReservedOk, RestingOk, MoneyOk, BooksOk, SettledOk, LiveOk, OpenOk, Logged, ValidFeed;
    var c := Reached(cfg, strat, tickers, s, feed, n);
    if !NotPending(c.heap, id) {
      var m :| m in c.heap && m.payload.Arrival? && m.payload.orderId == id;
      assert UnderWay(m, c.records, c.markets.Keys, c.orders.Keys, cfg.latencySubmit);
    }
  }
}
