/** backtest/engine.py's other latency claim: the strategy hears of every fill exactly the acknowledgement
    latency after it happened, in every reachable state. */
module Notices {
  import opened Units
  import opened OrderBooks
  import opened Fees
  import opened Fills
  import opened Ledger
  import opened Engine
  import opened EngineGrowth
  import opened EngineInvariant
  import opened EngineTurns
  import opened SafeRuns

  ghost predicate FillNotice(m: Message) {
    m.payload.Notify? && m.payload.notice.Filled?
  }

  /** What the strategy is told of a fill: all of it. */
  function ToldAs(f: FillRecord): Notice {
    Filled(f.execTs, f.orderId, f.ticker, f.side, f.price, f.qty, f.fee, f.maker, f.tag)
  }

  /** A notice of this fill waits for this instant. */
  ghost predicate Waits(h: set<Message>, f: FillRecord, ts: int) {
    exists m :: m in h && m.ts == ts && m.priority == FILL_NOTICE && m.payload == Notify(ToldAs(f))
  }

  ghost predicate InLog(log: seq<FillRecord>, n: Notice) {
    exists i :: 0 <= i < |log| && ToldAs(log[i]) == n
  }

  /** At one instant orders reach the exchange first, then cancels, then notices, then wakes. */
  function Rank(p: Payload): int {
    match p
    case Arrival(_, _) => 4
    case Cancellation(_) => 5
    case Notify(n) => if n.Wake? then 7 else 6
  }

  /** Every fill notice under way is of a logged fill and due the latency after it; every fill younger than
      the latency has its notice under way; and every message has the priority of its kind. */
  ghost predicate Heard(h: set<Message>, log: seq<FillRecord>, now: int, latency: int) {
    && (forall m | m in h :: m.priority == Rank(m.payload))
    && (forall m | m in h && FillNotice(m) :: m.ts == m.payload.notice.execTs + latency && InLog(log, m.payload.notice))
    && forall i | 0 <= i < |log| && now < log[i].execTs + latency :: Waits(h, log[i], log[i].execTs + latency)
  }

  ghost predicate HeardIn<S>(cfg: Config, c: Core<S>) {
    Heard(c.heap, c.fillLog, c.now, cfg.latencyAck)
  }

  lemma HeardMessage(h: set<Message>, log: seq<FillRecord>, now: int, latency: int, m: Message)
    requires Heard(h, log, now, latency) && !FillNotice(m) && m.priority == Rank(m.payload)
    ensures Heard(h + {m}, log, now, latency)
  {
    forall i | 0 <= i < |log| && now < log[i].execTs + latency
      ensures Waits(h + {m}, log[i], log[i].execTs + latency)
    {
      WaitsMore(h, m, log[i], log[i].execTs + latency);
    }
  }

  lemma WaitsMore(h: set<Message>, m: Message, f: FillRecord, ts: int)
    requires Waits(h, f, ts)
    ensures Waits(h + {m}, f, ts)
  {
    var n :| n in h && n.ts == ts && n.priority == FILL_NOTICE && n.payload == Notify(ToldAs(f));
    assert n in h + {m};
  }

  lemma InMore(log: seq<FillRecord>, f: FillRecord)
    ensures forall n | InLog(log, n) :: InLog(log + [f], n)
    ensures InLog(log + [f], ToldAs(f))
  {
    forall n | InLog(log, n)
      ensures InLog(log + [f], n)
    {
      var i :| 0 <= i < |log| && ToldAs(log[i]) == n;
      assert (log + [f])[i] == log[i];
    }
    assert (log + [f])[|log|] == f;
  }

  /** A fill is logged and its notice scheduled together. */
  lemma HeardFill(h: set<Message>, log: seq<FillRecord>, now: int, latency: int, f: FillRecord, sequence: nat)
    requires Heard(h, log, now, latency) && f.execTs == now
    ensures Heard(h + {Message(now + latency, FILL_NOTICE, sequence, Notify(ToldAs(f)))}, log + [f], now, latency)
  {
    var m := Message(now + latency, FILL_NOTICE, sequence, Notify(ToldAs(f)));
    InMore(log, f);
    hide InLog;
    forall i | 0 <= i < |log + [f]| && now < (log + [f])[i].execTs + latency
      ensures Waits(h + {m}, (log + [f])[i], (log + [f])[i].execTs + latency)
    {
      if i < |log| {
        assert (log + [f])[i] == log[i];
        WaitsMore(h, m, log[i], log[i].execTs + latency);
      } else {
        assert m in h + {m};
      }
    }
  }

  /** Time passes, to the next message or the next event. */
  lemma HeardLater(h: set<Message>, log: seq<FillRecord>, now: int, latency: int, ts: int)
    requires Heard(h, log, now, latency) && now <= ts
    ensures Heard(h, log, ts, latency)
  {
    hide Waits, InLog;
  }

  lemma HeardPop(h: set<Message>, log: seq<FillRecord>, now: int, latency: int, m: Message)
    requires Heard(h, log, now, latency) && now <= m.ts
    ensures Heard(h - {m}, log, m.ts, latency)
  {
    forall i | 0 <= i < |log| && m.ts < log[i].execTs + latency
      ensures Waits(h - {m}, log[i], log[i].execTs + latency)
    {
      assert Waits(h, log[i], log[i].execTs + latency);
      var n :| n in h && n.ts == log[i].execTs + latency && n.priority == FILL_NOTICE && n.payload == Notify(ToldAs(log[i]));
      assert n in h - {m};
    }
  }

  // ---------------------------------------------------------------- operation by operation

  /** What the claim is about has not moved. */
  ghost predicate Silent<S>(a: Core<S>, b: Core<S>) {
    b.heap == a.heap && b.fillLog == a.fillLog && b.now == a.now
  }

  lemma HeardSchedule<S>(cfg: Config, c: Core<S>, ts: int, priority: int, p: Payload)
    requires HeardIn(cfg, c) && !(p.Notify? && p.notice.Filled?) && priority == Rank(p)
    ensures HeardIn(cfg, Schedule(c, ts, priority, p))
  {
    hide Heard;
    HeardMessage(c.heap, c.fillLog, c.now, cfg.latencyAck, Message(ts, priority, c.sequence + 1, p));
  }

  lemma HeardLogFill<S>(cfg: Config, c: Core<S>, f: FillRecord)
    requires cfg.latencyAck >= 0 && HeardIn(cfg, c) && f.orderId in c.records && f.execTs == c.now
    ensures HeardIn(cfg, LogFill(cfg, c, f)) && LogFill(cfg, c, f).now == c.now
  {
    hide Heard;
    HeardFill(c.heap, c.fillLog, c.now, cfg.latencyAck, f, c.sequence + 1);
  }

  lemma SilentKeeps<S>(cfg: Config, a: Core<S>, b: Core<S>)
    requires HeardIn(cfg, a) && Silent(a, b)
    ensures HeardIn(cfg, b)
  {
  }

  lemma HeardHit<S>(cfg: Config, c: Core<S>, id: nat, o: Resting, fill: Qty)
    requires cfg.latencyAck >= 0 && HeardIn(cfg, c) && id in c.orders && id in c.records
    ensures HeardIn(cfg, Hit(cfg, c, id, o, fill))
  {
    hide HeardIn;
    var moved := c.(orders := c.orders[id := o]);
    SilentKeeps(cfg, c, moved);
    var qty := Min(fill, o.qty);
    if fill != 0 && qty > 0 {
      var f := MakerRecord(cfg, moved, id, o, qty);
      HeardLogFill(cfg, moved, f);
      hide LogFill, FeeSchedule.OrderFee, Without;
      var logged := LogFill(cfg, moved, f);
      SilentKeeps(cfg, logged, Hit(cfg, c, id, o, fill));
    }
  }

  lemma {:induction false} HeardMatch<S>(cfg: Config, c: Core<S>, ids: seq<nat>, trade: Trade, budget: Budget)
    requires cfg.latencyAck >= 0 && HeardIn(cfg, c)
    ensures HeardIn(cfg, MatchResting(cfg, c, ids, trade, budget))
    decreases |ids|
  {
    hide HeardIn, Hit, PrintOn;
    if ids == [] || c.error.Some? {
    } else if ids[0] in c.orders && ids[0] in c.records {
      var (after, fill, next) := PrintOn(cfg, c.orders[ids[0]], trade, budget);
      HeardHit(cfg, c, ids[0], after, fill);
      HeardMatch(cfg, Hit(cfg, c, ids[0], after, fill), ids[1..], trade, next);
    } else {
      HeardMatch(cfg, c, ids[1..], trade, budget);
    }
  }

  lemma {:induction false} HeardShow<S>(cfg: Config, c: Core<S>, ids: seq<nat>, book: Book)
    requires cfg.latencyAck >= 0 && HeardIn(cfg, c)
    ensures HeardIn(cfg, ShowBook(cfg, c, ids, book))
    decreases |ids|
  {
    hide HeardIn, Hit, QueueModel.OnBook;
    if ids == [] || c.error.Some? {
    } else if ids[0] in c.orders && ids[0] in c.records {
      var (after, fill) := cfg.maker.OnBook(c.orders[ids[0]], book);
      HeardHit(cfg, c, ids[0], after, fill);
      HeardShow(cfg, Hit(cfg, c, ids[0], after, fill), ids[1..], book);
    } else {
      HeardShow(cfg, c, ids[1..], book);
    }
  }

  lemma {:induction false} DropAllSilent<S>(c: Core<S>, ids: seq<nat>)
    ensures Silent(c, DropAll(c, ids))
    decreases |ids|
  {
    if ids != [] {
      DropAllSilent(if ids[0] in c.orders && ids[0] in c.records then DropResting(c, ids[0]) else c, ids[1..]);
      hide Without;
    }
  }

  lemma HeardEvent<S>(cfg: Config, c: Core<S>, ev: FeedEvent)
    requires cfg.latencyAck >= 0 && HeardIn(cfg, c)
    ensures HeardIn(cfg, ApplyEvent(cfg, c, ev))
  {
    hide HeardIn, ShowBook, MatchResting, DropAll, Settled, Confirm, Snapshot, Remember;
    SilentKeeps(cfg, c, c);
    if ev.BookConfirm? || ev.ticker !in c.markets {
      SilentKeeps(cfg, c, ApplyEvent(cfg, c, ev));
    } else {
      var t, st := ev.ticker, c.markets[ev.ticker];
      match ev
      case BookUpdate(ts, _, yes, no) =>
        var book := Snapshot(yes, no);
        var shown := InMarket(c, t, st.(book := book, bookTs := Some(ts)));
        if book.Some? {
          SilentKeeps(cfg, c, shown);
          HeardShow(cfg, shown, c.Queue(t), book.value);
        } else {
          SilentKeeps(cfg, c, ApplyEvent(cfg, c, ev));
        }
      case TradeTick(_, _, trade) =>
        var shown := InMarket(c, t, st.(lastTrade := Some(trade), trades := Remember(st.trades, trade, cfg.tradeHistory)));
        SilentKeeps(cfg, c, shown);
        HeardMatch(cfg, shown, c.Queue(t), trade, map[]);
      case MarketClose(_, _) =>
        DropAllSilent(InMarket(c, t, st.(closed := true)), c.Queue(t));
        SilentKeeps(cfg, c, ApplyEvent(cfg, c, ev));
      case Settlement(_, _, value) =>
        DropAllSilent(InMarket(c, t, st.(closed := true, outcome := Some(value))), c.Queue(t));
        SilentKeeps(cfg, c, ApplyEvent(cfg, c, ev));
    }
  }

  lemma {:induction false} HeardBatch<S>(cfg: Config, c: Core<S>, batch: seq<FeedEvent>)
    requires cfg.latencyAck >= 0 && HeardIn(cfg, c)
    ensures HeardIn(cfg, ApplyAll(cfg, c, batch))
    decreases |batch|
  {
    hide HeardIn, ApplyEvent;
    if batch != [] && c.error.None? {
      HeardEvent(cfg, c, batch[0]);
      HeardBatch(cfg, ApplyEvent(cfg, c, batch[0]), batch[1..]);
    }
  }

  // ---------------------------------------------------------------- arrivals

  lemma {:induction false} HeardRecordFills<S>(
    cfg: Config, c: Core<S>, id: nat, o: Order, fills: seq<Fill>, total: int, left: int, all: Qty)
    requires cfg.latencyAck >= 0 && HeardIn(cfg, c)
    ensures HeardIn(cfg, RecordFills(cfg, c, id, o, fills, total, left, all))
    decreases |fills|
  {
    hide HeardIn, LogFill, FeeShare;
    if fills != [] && c.error.None? && id in c.records {
      var fee := FeeShare(total, left, fills[0].qty, all, |fills| == 1);
      var f := FillOf(c.now, id, o, fills[0].price, fills[0].qty, fee, false);
      HeardLogFill(cfg, c, f);
      HeardRecordFills(cfg, LogFill(cfg, c, f), id, o, fills[1..], total, left - fee, all);
    }
  }

  lemma HeardTake<S>(cfg: Config, c: Core<S>, id: nat, o: Order, fills: seq<Fill>)
    requires cfg.latencyAck >= 0 && HeardIn(cfg, c)
    requires o.ticker in c.markets && c.markets[o.ticker].book.Some? && c.markets[o.ticker].book.value.Valid()
    ensures HeardIn(cfg, Take(cfg, c, id, o, fills))
  {
    hide HeardIn, RecordFills, FeeSchedule.OrderFee, SumQty, Book.Valid, Deplete;
    if fills != [] {
      var fee := cfg.fees.For(o.ticker).OrderFee(fills, false);
      HeardRecordFills(cfg, c, id, o, fills, fee, fee, SumQty(fills));
      SilentKeeps(cfg, RecordFills(cfg, c, id, o, fills, fee, fee, SumQty(fills)), Take(cfg, c, id, o, fills));
    }
  }

  lemma RestSilent<S>(cfg: Config, c: Core<S>, id: nat, o: Order, remaining: Qty)
    requires id in c.records && o.ticker in c.markets
    ensures Silent(c, Rest(cfg, c, id, o, remaining))
  {
    hide LevelSize, Share, Notional;
  }

  lemma HeardReject<S>(cfg: Config, c: Core<S>, id: nat)
    requires HeardIn(cfg, c) && id in c.records
    ensures HeardIn(cfg, Reject(cfg, c, id))
  {
    hide HeardIn, Schedule;
    SilentKeeps(cfg, c, WithStatus(c, id, REJECTED));
    HeardSchedule(cfg, WithStatus(c, id, REJECTED), c.now + cfg.latencyAck, FILL_NOTICE,
                  Notify(Rejected(id, c.records[id].order.tag)));
  }

  lemma HeardArrival<S>(cfg: Config, c: Core<S>, id: nat, o: Order)
    requires cfg.latencyAck >= 0 && HeardIn(cfg, c) && Dispatchable(c, Arrival(id, o))
    ensures HeardIn(cfg, OnArrival(cfg, c, id, o))
  {
    hide HeardIn, Reject, Rest, Take, TakerFills, SumQty, Notional, Book.BestAsk, Book.Valid, Silent;
    HeardReject(cfg, c, id);
    RestSilent(cfg, c, id, o, o.qty);
    SilentKeeps(cfg, c, Rest(cfg, c, id, o, o.qty));
    if Marketable(c.markets[o.ticker], o) {
      var fills := TakerFills(cfg, c, o);
      var taken := Take(cfg, c, id, o, fills);
      HeardTake(cfg, c, id, o, fills);
      if id in taken.records && o.ticker in taken.markets {
        RestSilent(cfg, taken, id, o, o.qty - SumQty(fills));
        SilentKeeps(cfg, taken, Rest(cfg, taken, id, o, o.qty - SumQty(fills)));
      }
    }
  }

  // ---------------------------------------------------------------- strategy calls and turns

  lemma HeardPerform<S>(cfg: Config, c: Core<S>, a: Action)
    requires HeardIn(cfg, c)
    ensures HeardIn(cfg, Perform(cfg, c, a))
  {
    hide HeardIn, Schedule;
    match a
    case Place(o) =>
      if o.ticker in c.markets {
        SilentKeeps(cfg, c, Noted(cfg, c, o));
        HeardSchedule(cfg, Noted(cfg, c, o), c.now + cfg.latencySubmit, ORDER_ARRIVAL, Arrival(c.nextId, o));
      } else {
        SilentKeeps(cfg, c, Fail(c, UnknownMarket));
      }
    case Cancel(id) => HeardSchedule(cfg, c, c.now + cfg.latencyCancel, CANCEL_ARRIVAL, Cancellation(id));
    case WakeAt(ts, tag, ticker) => HeardSchedule(cfg, c, ts, WAKE, Notify(Wake(tag, ticker)));
  }

  lemma {:induction false} HeardPerformAll<S>(cfg: Config, c: Core<S>, acts: seq<Action>)
    requires HeardIn(cfg, c)
    ensures HeardIn(cfg, PerformAll(cfg, c, acts))
    decreases |acts|
  {
    hide HeardIn, Perform;
    if acts != [] && c.error.None? {
      HeardPerform(cfg, c, acts[0]);
      HeardPerformAll(cfg, Perform(cfg, c, acts[0]), acts[1..]);
    }
  }

  lemma HeardTell<S>(cfg: Config, strat: Strategy<S>, c: Core<S>, s: Stimulus)
    requires HeardIn(cfg, c)
    ensures HeardIn(cfg, Tell(cfg, strat, c, s))
  {
    var (next, acts) := strat(c.strategy, ViewOf(c), s);
    SilentKeeps(cfg, c, c.(strategy := next));
    hide HeardIn, PerformAll;
    HeardPerformAll(cfg, c.(strategy := next), acts);
  }

  lemma {:induction false} HeardNotify<S>(cfg: Config, strat: Strategy<S>, c: Core<S>, batch: seq<FeedEvent>)
    requires HeardIn(cfg, c)
    ensures HeardIn(cfg, NotifyAll(cfg, strat, c, batch))
    decreases |batch|
  {
    hide HeardIn, Tell;
    if batch != [] && c.error.None? {
      HeardTell(cfg, strat, c, Feed(batch[0]));
      HeardNotify(cfg, strat, NotifyFeed(cfg, strat, c, batch[0]), batch[1..]);
    }
  }

  lemma HeardFeedTurn<S>(cfg: Config, strat: Strategy<S>, c: Core<S>, ts: int, batch: seq<FeedEvent>)
    requires cfg.latencyAck >= 0 && HeardIn(cfg, c) && c.now <= ts
    ensures HeardIn(cfg, FeedTurn(cfg, strat, c, ts, batch))
  {
    var at := c.(now := ts);
    HeardLater(c.heap, c.fillLog, c.now, cfg.latencyAck, ts);
    assert HeardIn(cfg, at);
    hide HeardIn, Heard, ApplyAll, NotifyAll;
    HeardBatch(cfg, at, batch);
    HeardNotify(cfg, strat, ApplyAll(cfg, at, batch), batch);
  }

  lemma HeardHeapTurn<S>(cfg: Config, strat: Strategy<S>, c: Core<S>, m: Message)
    requires cfg.latencyAck >= 0 && HeardIn(cfg, c) && c.now <= m.ts
    ensures HeardIn(cfg, HeapTurn(cfg, strat, c, m))
  {
    var at := c.(now := m.ts, heap := c.heap - {m});
    HeardPop(c.heap, c.fillLog, c.now, cfg.latencyAck, m);
    assert HeardIn(cfg, at);
    hide HeardIn, Heard, OnArrival, DropResting, Tell, Dispatchable;
    match m.payload
    case Arrival(id, o) =>
      if Dispatchable(at, m.payload) {
        HeardArrival(cfg, at, id, o);
      }
    case Cancellation(id) =>
      if id in at.orders && id in at.records {
        CancelSilent(at, id);
        SilentKeeps(cfg, at, OnCancel(at, id));
      }
    case Notify(n) =>
      HeardTell(cfg, strat, at, Noticed(n));
  }

  lemma CancelSilent<S>(c: Core<S>, id: nat)
    ensures Silent(c, OnCancel(c, id))
  {
    hide Without;
  }

  lemma HeardStep<S>(cfg: Config, strat: Strategy<S>, w: World<S>)
    requires ValidConfig(cfg) && Good(cfg, w) && HeardIn(cfg, w.core)
    ensures HeardIn(cfg, Step(cfg, strat, w).core)
  {
    hide HeardIn, FeedTurn, HeapTurn, ValidEvent;
    var c := w.core;
    if !Finished(w) {
      if TakesFeed(w) {
        var ts := w.feed[0].ts;
        if ts < c.now {
          SilentKeeps(cfg, c, Fail(c, FeedBackwards));
        } else {
          HeardFeedTurn(cfg, strat, c, ts, w.feed[..Simultaneous(w.feed, ts)]);
        }
      } else {
        Pop(cfg, c, Next(c.heap));
        hide Inv;
        HeardHeapTurn(cfg, strat, c, Next(c.heap));
      }
    }
  }

  lemma {:induction false} HeardRun<S>(
    cfg: Config, strat: Strategy<S>, tickers: set<Ticker>, s: S, feed: seq<FeedEvent>, n: nat)
    requires ValidConfig(cfg) && ValidFeed(feed) && Ahead(feed, 0)
    ensures HeardIn(cfg, Reached(cfg, strat, tickers, s, feed, n))
  {
    hide HeardIn, Step, Tell, Initial, Good;
    if n == 0 {
      NothingHeard(cfg, tickers, s);
      HeardTell(cfg, strat, Initial(cfg, tickers, s), Start);
    } else {
      HeardRun(cfg, strat, tickers, s, feed, n - 1);
      RunKeeps(cfg, strat, tickers, s, feed, n - 1);
      HeardStep(cfg, strat, Run(cfg, strat, Begin(cfg, strat, tickers, s, feed), n - 1));
    }
  }

  lemma NothingHeard<S>(cfg: Config, tickers: set<Ticker>, s: S)
    ensures HeardIn(cfg, Initial(cfg, tickers, s))
  {
  }

  // ---------------------------------------------------------------- what it means

  /** In every reachable state: a fill's notice is under way until the latency has passed, due exactly
      then; once the clock is beyond that it has been delivered; and the strategy is told of nothing that
      did not happen. */
  lemma FillsHeardOnTime<S>(
    cfg: Config, strat: Strategy<S>, tickers: set<Ticker>, s: S, feed: seq<FeedEvent>, n: nat)
    requires ValidConfig(cfg) && ValidFeed(feed) && Ahead(feed, 0)
    ensures
      var c := Reached(cfg, strat, tickers, s, feed, n);
      && (forall i | 0 <= i < |c.fillLog| ::
            var f, due := c.fillLog[i], c.fillLog[i].execTs + cfg.latencyAck;
            && (c.now < due ==> Waits(c.heap, f, due))
            && (forall m | m in c.heap && m.payload == Notify(ToldAs(f)) :: m.ts == due)
            && (due < c.now ==> forall m | m in c.heap :: m.payload != Notify(ToldAs(f))))
      && forall m | m in c.heap && FillNotice(m) :: InLog(c.fillLog, m.payload.notice)
  {
    HeardRun(cfg, strat, tickers, s, feed, n);
    RunKeeps(cfg, strat, tickers, s, feed, n);
    hide Reached, Numbered, PendingOk, QueuesOk, ReservedOk, RestingOk, LogOk, MoneyOk, BooksOk, SettledOk, LiveOk, OpenOk;
    hide ValidFeed, Waits, InLog;
    var c := Reached(cfg, strat, tickers, s, feed, n);
    forall i, m | 0 <= i < |c.fillLog| && m in c.heap && m.payload == Notify(ToldAs(c.fillLog[i]))
      ensures m.ts == c.fillLog[i].execTs + cfg.latencyAck && c.now <= m.ts
    {
      assert FillNotice(m);
    }
  }

  /** Everything at one instant in its order: with a feed in order, the events of an instant come before all
      messages, and of the messages each turn takes the least by time, then kind, then age. */
  lemma TurnsInOrder<S>(cfg: Config, strat: Strategy<S>, tickers: set<Ticker>, s: S, feed: seq<FeedEvent>, n: nat)
    requires ValidConfig(cfg) && ValidFeed(feed) && Ahead(feed, 0)
    requires !Finished(Run(cfg, strat, Begin(cfg, strat, tickers, s, feed), n))
    ensures
      var w, b := Run(cfg, strat, Begin(cfg, strat, tickers, s, feed), n), Run(cfg, strat, Begin(cfg, strat, tickers, s, feed), n + 1);
      if TakesFeed(w) then
        && (forall m | m in w.core.heap :: w.feed[0].ts <= m.ts)
        && b.feed == w.feed[Simultaneous(w.feed, w.feed[0].ts)..] && (b.feed != [] ==> b.feed[0].ts > w.feed[0].ts)
      else
        var m := Next(w.core.heap);
        && (w.feed != [] ==> m.ts < w.feed[0].ts) && b.feed == w.feed
        && forall x | x in w.core.heap && x != m ::
             || m.ts < x.ts || (m.ts == x.ts && Rank(m.payload) < Rank(x.payload))
             || (m.ts == x.ts && Rank(m.payload) == Rank(x.payload) && m.sequence < x.sequence)
  {
    var w := Run(cfg, strat, Begin(cfg, strat, tickers, s, feed), n);
    HeardRun(cfg, strat, tickers, s, feed, n);
    RunKeeps(cfg, strat, tickers, s, feed, n);
    hide Run, Begin, PendingOk, QueuesOk, ReservedOk, RestingOk, LogOk, MoneyOk, BooksOk, SettledOk, LiveOk, OpenOk, Numbered;
    hide InLog, Waits, FeedTurn, HeapTurn;
    if TakesFeed(w) {
      forall m | m in w.core.heap
        ensures w.feed[0].ts <= m.ts
      {
        assert Before(Next(w.core.heap), m);
      }
      LaterRemain(w.feed);
    } else {
      var m := Next(w.core.heap);
      forall x | x in w.core.heap && x != m
        ensures Before(m, x) && m.sequence != x.sequence
      {
      }
    }
  }

  lemma LaterRemain(feed: seq<FeedEvent>)
    requires feed != [] && InOrder(feed)
    ensures var n := Simultaneous(feed, feed[0].ts);
            n > 0 && forall i | n <= i < |feed| :: feed[i].ts > feed[0].ts
  {
    var n := Simultaneous(feed, feed[0].ts);
    forall i | n <= i < |feed|
      ensures feed[i].ts > feed[0].ts
    {
      assert FeedLe()(feed[0], feed[n]);
      if n < i {
        assert FeedLe()(feed[n], feed[i]);
      }
    }
  }

  /** A fill notice reaches the strategy in the turn that takes it off the queue, at its own time. */
  lemma HeardAtItsTime<S>(cfg: Config, strat: Strategy<S>, tickers: set<Ticker>, s: S, feed: seq<FeedEvent>, n: nat)
    requires ValidConfig(cfg) && ValidFeed(feed) && Ahead(feed, 0)
    requires var w := Run(cfg, strat, Begin(cfg, strat, tickers, s, feed), n);
             !Finished(w) && !TakesFeed(w) && FillNotice(Next(w.core.heap))
    ensures
      var w := Run(cfg, strat, Begin(cfg, strat, tickers, s, feed), n);
      var m := Next(w.core.heap);
      var at := w.core.(now := m.payload.notice.execTs + cfg.latencyAck, heap := w.core.heap - {m});
      Step(cfg, strat, w) == World(Tell(cfg, strat, at, Noticed(m.payload.notice)), w.feed)
  {
    HeardRun(cfg, strat, tickers, s, feed, n);
    hide Run, Begin, Tell, InLog, Waits;
  }
}
