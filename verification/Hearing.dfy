/** backtest/engine.py: what a strategy is told and shown, over whole runs: every event of the feed it can
    hear, once, in order and at its time, and each time the markets exactly as the feed has them. */
module Hearing {
  import opened Units
  import opened Sorting
  import opened OrderBooks
  import opened Engine
  import opened EngineGrowth
  import opened EngineInvariant
  import opened EngineTurns
  import opened SafeRuns
  import opened Notices
  import opened FedMarkets

  // ---------------------------------------------------------------- a strategy that remembers everything

  datatype Entry = Entry(view: View, stimulus: Stimulus, asked: seq<Action>)

  type History = seq<Entry>

  /** Any strategy at all, asking whatever it likes given all it has been told, and keeping a record. */
  function Recorder(choose: (History, View, Stimulus) -> seq<Action>): Strategy<History> {
    (h: History, v: View, s: Stimulus) => (h + [Entry(v, s, choose(h, v, s))], choose(h, v, s))
  }

  /** Poll confirmations, and whatever is about a listed market. */
  function Audible(tickers: set<Ticker>): FeedEvent -> bool {
    (e: FeedEvent) => e.BookConfirm? || e.ticker in tickers
  }

  /** The feed events a history was told of, in order. */
  function FeedTold(h: History): seq<FeedEvent> {
    if h == [] then []
    else
      var s := h[|h| - 1].stimulus;
      FeedTold(h[..|h| - 1]) + (if s.Feed? then [s.event] else [])
  }

  // ---------------------------------------------------------------- one call

  /** The view shows the state as it is, but for the number the next order will get. */
  ghost predicate ShownAs<S>(v: View, c: Core<S>) {
    && v.now == c.now && v.markets == c.markets && v.positions == c.account.positions && v.cash == c.account.cash
    && v.orders == c.orders && v.queues == c.queues && v.desks == c.desks && v.reserved == c.reserved
  }

  ghost predicate SameSights<S>(a: Core<S>, b: Core<S>) {
    && b.now == a.now && b.markets == a.markets && b.account == a.account
    && b.orders == a.orders && b.queues == a.queues && b.desks == a.desks && b.reserved == a.reserved
  }

  lemma {:induction false} RequestsUnseen<S>(cfg: Config, c: Core<S>, acts: seq<Action>)
    ensures SameSights(c, PerformAll(cfg, c, acts)) && PerformAll(cfg, c, acts).strategy == c.strategy
    decreases |acts|
  {
    hide Perform;
    if acts != [] && c.error.None? {
      OneUnseen(cfg, c, acts[0]);
      RequestsUnseen(cfg, Perform(cfg, c, acts[0]), acts[1..]);
    }
  }

  lemma ScheduleUnseen<S>(c: Core<S>, ts: int, priority: int, p: Payload)
    ensures SameSights(c, Schedule(c, ts, priority, p)) && Schedule(c, ts, priority, p).strategy == c.strategy
  {
  }

  lemma NotedUnseen<S>(cfg: Config, c: Core<S>, o: Order)
    ensures SameSights(c, Noted(cfg, c, o)) && Noted(cfg, c, o).strategy == c.strategy
    ensures SameSights(c, Fail(c, UnknownMarket)) && Fail(c, UnknownMarket).strategy == c.strategy
  {
  }

  lemma OneUnseen<S>(cfg: Config, c: Core<S>, a: Action)
    ensures SameSights(c, Perform(cfg, c, a)) && Perform(cfg, c, a).strategy == c.strategy
  {
    hide Schedule, Noted, Fail;
    match a
    case Place(o) =>
      NotedUnseen(cfg, c, o);
      ScheduleUnseen(Noted(cfg, c, o), c.now + cfg.latencySubmit, ORDER_ARRIVAL, Arrival(c.nextId, o));
    case Cancel(id) => ScheduleUnseen(c, c.now + cfg.latencyCancel, CANCEL_ARRIVAL, Cancellation(id));
    case WakeAt(ts, tag, ticker) => ScheduleUnseen(c, ts, WAKE, Notify(Wake(tag, ticker)));
  }

  lemma OneCall(cfg: Config, choose: (History, View, Stimulus) -> seq<Action>, c: Core<History>, s: Stimulus)
    ensures var b := Tell(cfg, Recorder(choose), c, s);
            && SameSights(c, b) && |b.strategy| == |c.strategy| + 1 && b.strategy[..|c.strategy|] == c.strategy
            && b.strategy[|c.strategy|].stimulus == s && ShownAs(b.strategy[|c.strategy|].view, c)
  {
    var (next, acts) := Recorder(choose)(c.strategy, ViewOf(c), s);
    RequestsUnseen(cfg, c.(strategy := next), acts);
    hide PerformAll;
  }

  /** These events, and nothing else, were told one by one, the state unchanged in between. */
  ghost predicate Told(a: Core<History>, b: Core<History>, events: seq<FeedEvent>) {
    && SameSights(a, b) && |b.strategy| == |a.strategy| + |events| && b.strategy[..|a.strategy|] == a.strategy
    && forall k | 0 <= k < |events| ::
         var e := b.strategy[|a.strategy| + k]; e.stimulus == Feed(events[k]) && ShownAs(e.view, a)
  }

  lemma ToldMore(a: Core<History>, mid: Core<History>, b: Core<History>, e: FeedEvent, rest: seq<FeedEvent>)
    requires Told(a, mid, [e]) && Told(mid, b, rest)
    ensures Told(a, b, [e] + rest)
  {
    var n := |a.strategy|;
    assert b.strategy[..n] == mid.strategy[..n];
    forall k | 0 <= k < |[e] + rest|
      ensures var x := b.strategy[n + k]; x.stimulus == Feed(([e] + rest)[k]) && ShownAs(x.view, a)
    {
      if k == 0 {
        assert b.strategy[n] == mid.strategy[n];
      } else {
        assert b.strategy[|mid.strategy| + (k - 1)].stimulus == Feed(rest[k - 1]);
      }
    }
  }

  lemma {:induction false} ErrorStops<S>(cfg: Config, strat: Strategy<S>, c: Core<S>, batch: seq<FeedEvent>)
    requires c.error.Some?
    ensures NotifyAll(cfg, strat, c, batch) == c
  {
  }

  /** Told of a batch without an error, the strategy hears of exactly its audible events, in order. */
  lemma {:induction false} BatchTold(cfg: Config, choose: (History, View, Stimulus) -> seq<Action>, c: Core<History>, batch: seq<FeedEvent>)
    requires NotifyAll(cfg, Recorder(choose), c, batch).error.None?
    ensures Told(c, NotifyAll(cfg, Recorder(choose), c, batch), Filter(batch, Audible(c.markets.Keys)))
    decreases |batch|
  {
    var p := Audible(c.markets.Keys);
    if batch != [] {
      assert batch == [batch[0]] + batch[1..];
      FilterAppend([batch[0]], batch[1..], p);
      FilterOne(batch[0], p);
      if c.error.Some? {
        ErrorStops(cfg, Recorder(choose), c, batch);
      }
      OneCall(cfg, choose, c, Feed(batch[0]));
      hide Recorder, Tell, ShownAs, SameSights;
      var next := NotifyFeed(cfg, Recorder(choose), c, batch[0]);
      assert next.markets == c.markets by { SightsMarkets(c, Tell(cfg, Recorder(choose), c, Feed(batch[0]))); }
      BatchTold(cfg, choose, next, batch[1..]);
      if p(batch[0]) {
        ToldOne(c, next, batch[0]);
        ToldMore(c, next, NotifyAll(cfg, Recorder(choose), next, batch[1..]), batch[0], Filter(batch[1..], p));
      }
    } else {
      NothingTold(c);
    }
  }

  lemma FilterOne<T>(x: T, p: T -> bool)
    ensures Filter([x], p) == if p(x) then [x] else []
  {
    assert [x][..0] == [];
  }

  lemma SightsMarkets<S>(a: Core<S>, b: Core<S>)
    requires SameSights(a, b)
    ensures b.markets == a.markets
  {
  }

  lemma NothingTold(c: Core<History>)
    ensures Told(c, c, [])
  {
  }

  lemma ToldOne(a: Core<History>, b: Core<History>, e: FeedEvent)
    requires SameSights(a, b) && |b.strategy| == |a.strategy| + 1 && b.strategy[..|a.strategy|] == a.strategy
    requires b.strategy[|a.strategy|].stimulus == Feed(e) && ShownAs(b.strategy[|a.strategy|].view, a)
    ensures Told(a, b, [e])
  {
    hide SameSights, ShownAs;
  }

  // ---------------------------------------------------------------- one batch

  /** Every market these events updated at ts displays the last of those updates. */
  ghost predicate Fresh(markets: map<Ticker, MarketState>, events: seq<FeedEvent>, ts: int) {
    forall t | t in markets && Update(events, t).Some? && Update(events, t).value.ts == ts :: Displays(markets[t], Update(events, t).value)
  }

  lemma EventFresh<S>(cfg: Config, c: Core<S>, events: seq<FeedEvent>, e: FeedEvent, ts: int)
    requires Fresh(c.markets, events, ts) && AllFed(c.markets, events, cfg.tradeHistory)
    requires c.error.None? && ApplyEvent(cfg, c, e).error.None?
    ensures Fresh(ApplyEvent(cfg, c, e).markets, events + [e], ts)
  {
    EventFed(cfg, c, events, e);
    BadSnapshotStops(cfg, c, e);
    EventMarkets(cfg, c, e);
    hide ApplyEvent, AllFed, AsFed, Snapshot, Shows;
    var b := ApplyEvent(cfg, c, e);
    forall t | t in b.markets && Update(events + [e], t).Some? && Update(events + [e], t).value.ts == ts
      ensures Displays(b.markets[t], Update(events + [e], t).value)
    {
      OneMore(events, e, t);
      assert b.markets[t] == MarketAfter(c.markets[t], e, t, cfg.tradeHistory);
    }
  }

  lemma {:induction false} BatchFed<S>(cfg: Config, c: Core<S>, events: seq<FeedEvent>, batch: seq<FeedEvent>, ts: int)
    requires Fresh(c.markets, events, ts) && AllFed(c.markets, events, cfg.tradeHistory)
    requires c.error.None? && ApplyAll(cfg, c, batch).error.None?
    ensures var b := ApplyAll(cfg, c, batch);
            && b.markets.Keys == c.markets.Keys && Fresh(b.markets, events + batch, ts)
            && AllFed(b.markets, events + batch, cfg.tradeHistory)
    decreases |batch|
  {
    if batch == [] {
      assert events + batch == events;
    } else {
      hide Fresh, AllFed, ApplyEvent;
      var next := ApplyEvent(cfg, c, batch[0]);
      assert next.error.None?;
      EventFed(cfg, c, events, batch[0]);
      EventFresh(cfg, c, events, batch[0], ts);
      BatchFed(cfg, next, events + [batch[0]], batch[1..], ts);
      assert events + batch == events + [batch[0]] + batch[1..];
    }
  }

  // ---------------------------------------------------------------- whole runs

  /** What has come out of the feed, this much being left. */
  function Consumed(feed: seq<FeedEvent>, rest: seq<FeedEvent>): seq<FeedEvent>
    requires |rest| <= |feed|
  {
    feed[..|feed| - |rest|]
  }

  ghost predicate IsRest(feed: seq<FeedEvent>, rest: seq<FeedEvent>) {
    |rest| <= |feed| && rest == feed[|feed| - |rest|..]
  }

  /** The events up to a time. */
  ghost function Until(feed: seq<FeedEvent>, ts: int): seq<FeedEvent> {
    Filter(feed, UpTo(ts))
  }

  /** A call shows the markets exactly as the feed up to that instant has them; one about an event comes at
      the event's own time, with every book updated at that instant just as it was sent. */
  ghost predicate TrueSight(feed: seq<FeedEvent>, e: Entry, limit: nat) {
    && AllFed(e.view.markets, Until(feed, e.view.now), limit)
    && (e.stimulus.Feed? ==>
          e.stimulus.event.ts == e.view.now && Fresh(e.view.markets, Until(feed, e.view.now), e.view.now))
  }

  /** In a feed in order, what lies before a point and what lies after it. */
  lemma {:induction false} FrontIsUntil(front: seq<FeedEvent>, rest: seq<FeedEvent>, ts: int)
    requires forall i | 0 <= i < |front| :: front[i].ts <= ts
    requires forall i | 0 <= i < |rest| :: rest[i].ts > ts
    ensures Until(front + rest, ts) == front
  {
    FilterAppend(front, rest, UpTo(ts));
    FilterAll(front, UpTo(ts));
    FilterNone(rest, UpTo(ts));
  }

  lemma {:induction false} FilterAll<T>(s: seq<T>, p: T -> bool)
    requires forall i | 0 <= i < |s| :: p(s[i])
    ensures Filter(s, p) == s
  {
    if s != [] {
      FilterAll(s[..|s| - 1], p);
    }
  }

  lemma {:induction false} FilterNone<T>(s: seq<T>, p: T -> bool)
    requires forall i | 0 <= i < |s| :: !p(s[i])
    ensures Filter(s, p) == []
  {
    if s != [] {
      FilterNone(s[..|s| - 1], p);
    }
  }

  lemma {:induction false} ToldAdds(h: History, more: History)
    ensures FeedTold(h + more) == FeedTold(h) + FeedTold(more)
  {
    if more == [] {
      assert h + more == h;
    } else {
      var n := |more| - 1;
      assert (h + more)[..|h + more| - 1] == h + more[..n];
      ToldAdds(h, more[..n]);
    }
  }

  lemma {:induction false} ToldAre(more: History, events: seq<FeedEvent>)
    requires |more| == |events| && forall k | 0 <= k < |events| :: more[k].stimulus == Feed(events[k])
    ensures FeedTold(more) == events
  {
    if more != [] {
      ToldAre(more[..|more| - 1], events[..|events| - 1]);
    }
  }

  /** What is left of the feed is its end, all of it later than what has come out. */
  ghost predicate Ordered(feed: seq<FeedEvent>, rest: seq<FeedEvent>, now: int) {
    && IsRest(feed, rest)
    && (forall i | 0 <= i < |Consumed(feed, rest)| :: Consumed(feed, rest)[i].ts <= now)
    && forall i, j | 0 <= i < |Consumed(feed, rest)| && 0 <= j < |rest| :: Consumed(feed, rest)[i].ts < rest[j].ts
  }

  /** Every audible event so far has been told, and nothing else; and every call since the first saw the
      markets truly. */
  ghost predicate ToldSoFar(cfg: Config, tickers: set<Ticker>, feed: seq<FeedEvent>, c: Core<History>, done: seq<FeedEvent>) {
    && c.markets.Keys == tickers && |c.strategy| >= 1
    && (c.error.None? ==>
          && AllFed(c.markets, done, cfg.tradeHistory)
          && FeedTold(c.strategy) == Filter(done, Audible(tickers)))
    && forall k | 1 <= k < |c.strategy| :: TrueSight(feed, c.strategy[k], cfg.tradeHistory)
  }

  ghost predicate ToldAll(cfg: Config, tickers: set<Ticker>, feed: seq<FeedEvent>, w: World<History>) {
    Ordered(feed, w.feed, w.core.now) && ToldSoFar(cfg, tickers, feed, w.core, Consumed(feed, w.feed))
  }

  /** Told of a batch, whatever happens, each new call is about one of its events, the state as it was. */
  lemma {:induction false} BatchEntries(cfg: Config, choose: (History, View, Stimulus) -> seq<Action>, c: Core<History>, batch: seq<FeedEvent>)
    ensures
      var b := NotifyAll(cfg, Recorder(choose), c, batch);
      && SameSights(c, b) && c.strategy <= b.strategy
      && forall k | |c.strategy| <= k < |b.strategy| ::
           b.strategy[k].stimulus.Feed? && b.strategy[k].stimulus.event in batch && ShownAs(b.strategy[k].view, c)
    decreases |batch|
  {
    NothingTold(c);
    if batch != [] && c.error.None? {
      OneCall(cfg, choose, c, Feed(batch[0]));
      hide Recorder, Tell;
      var next := NotifyFeed(cfg, Recorder(choose), c, batch[0]);
      BatchEntries(cfg, choose, next, batch[1..]);
    }
  }

  lemma RestOrder(feed: seq<FeedEvent>, rest: seq<FeedEvent>)
    requires InOrder(feed) && IsRest(feed, rest)
    ensures InOrder(rest)
  {
  }

  lemma QuietParts<S>(a: Core<S>, b: Core<S>)
    requires Quietly(a, b)
    ensures b.now == a.now && b.strategy == a.strategy && b.markets.Keys == a.markets.Keys && Counted(b)
  {
    QuietCounts(a, b);
  }

  lemma {:induction false} UpdateIsOne(events: seq<FeedEvent>, t: Ticker)
    requires Update(events, t).Some?
    ensures Update(events, t).value in events
  {
    if !(events[|events| - 1].BookUpdate? && events[|events| - 1].ticker == t) {
      UpdateIsOne(events[..|events| - 1], t);
    }
  }

  /** Before a batch nothing has been updated at its instant. */
  lemma StaleBefore(markets: map<Ticker, MarketState>, events: seq<FeedEvent>, ts: int)
    requires forall i | 0 <= i < |events| :: events[i].ts < ts
    ensures Fresh(markets, events, ts)
  {
    forall t | t in markets && Update(events, t).Some?
      ensures Update(events, t).value.ts < ts
    {
      UpdateIsOne(events, t);
    }
  }

  /** The calls of a batch see truly, its events having all been applied. */
  lemma BatchSight(
    cfg: Config, choose: (History, View, Stimulus) -> seq<Action>, feed: seq<FeedEvent>, c: Core<History>, batch: seq<FeedEvent>)
    requires AllFed(c.markets, Until(feed, c.now), cfg.tradeHistory) && Fresh(c.markets, Until(feed, c.now), c.now)
    requires forall i | 0 <= i < |batch| :: batch[i].ts == c.now
    requires forall k | 1 <= k < |c.strategy| :: TrueSight(feed, c.strategy[k], cfg.tradeHistory)
    ensures var b := NotifyAll(cfg, Recorder(choose), c, batch);
            forall k | 1 <= k < |b.strategy| :: TrueSight(feed, b.strategy[k], cfg.tradeHistory)
  {
    BatchEntries(cfg, choose, c, batch);
    hide NotifyAll, Recorder, AllFed, Fresh;
  }

  lemma BatchAdds(
    cfg: Config, choose: (History, View, Stimulus) -> seq<Action>, c: Core<History>, batch: seq<FeedEvent>, done: seq<FeedEvent>)
    requires NotifyAll(cfg, Recorder(choose), c, batch).error.None?
    requires FeedTold(c.strategy) == Filter(done, Audible(c.markets.Keys))
    ensures FeedTold(NotifyAll(cfg, Recorder(choose), c, batch).strategy) == Filter(done + batch, Audible(c.markets.Keys))
  {
    var p := Audible(c.markets.Keys);
    var b, events := NotifyAll(cfg, Recorder(choose), c, batch), Filter(batch, p);
    BatchTold(cfg, choose, c, batch);
    FilterAppend(done, batch, p);
    hide NotifyAll, Recorder, Filter, FeedTold;
    var more := b.strategy[|c.strategy|..];
    assert b.strategy == c.strategy + more;
    forall k | 0 <= k < |events|
      ensures more[k].stimulus == Feed(events[k])
    {
      assert more[k] == b.strategy[|c.strategy| + k];
    }
    ToldAdds(c.strategy, more);
    ToldAre(more, events);
  }

  lemma NextInstant(feed: seq<FeedEvent>, rest: seq<FeedEvent>, now: int)
    requires InOrder(feed) && Ordered(feed, rest, now) && rest != [] && rest[0].ts >= now
    ensures
      var ts, n := rest[0].ts, Simultaneous(rest, rest[0].ts);
      var done, batch, left := Consumed(feed, rest), rest[..n], rest[n..];
      && Ordered(feed, left, ts) && Consumed(feed, left) == done + batch && feed == (done + batch) + left
      && (forall i | 0 <= i < |done| :: done[i].ts < ts) && AllAt(batch, ts) && AllAfter(left, ts)
  {
    hide *;
    RestIsEnd(feed, rest, now);
    RestOrder(feed, rest);
    InstantParts(rest);
    OrderedSplit(feed, rest, now);
    var ts, n := rest[0].ts, Simultaneous(rest, rest[0].ts);
    var done, batch, left := Consumed(feed, rest), rest[..n], rest[n..];
    BothBy(done, batch, ts);
    Regrouped(done, rest, n);
    OrderedAt(done + batch, left, ts);
  }

  lemma RestIsEnd(feed: seq<FeedEvent>, rest: seq<FeedEvent>, now: int)
    requires Ordered(feed, rest, now)
    ensures IsRest(feed, rest) && |rest| <= |feed|
  {
  }

  lemma InstantParts(rest: seq<FeedEvent>)
    requires InOrder(rest) && rest != []
    ensures var ts, n := rest[0].ts, Simultaneous(rest, rest[0].ts);
            AllAt(rest[..n], ts) && AllAfter(rest[n..], ts)
  {
    LaterRemain(rest);
    hide InOrder;
  }

  ghost predicate AllAt(events: seq<FeedEvent>, ts: int) {
    forall i | 0 <= i < |events| :: events[i].ts == ts
  }

  ghost predicate AllAfter(events: seq<FeedEvent>, ts: int) {
    forall i | 0 <= i < |events| :: events[i].ts > ts
  }

  lemma BothBy(done: seq<FeedEvent>, batch: seq<FeedEvent>, ts: int)
    requires (forall i | 0 <= i < |done| :: done[i].ts < ts) && AllAt(batch, ts)
    ensures forall i | 0 <= i < |done + batch| :: (done + batch)[i].ts <= ts
  {
  }

  lemma Regrouped<T>(done: seq<T>, rest: seq<T>, n: nat)
    requires n <= |rest|
    ensures done + rest == (done + rest[..n]) + rest[n..]
  {
  }

  lemma OrderedAt(done: seq<FeedEvent>, left: seq<FeedEvent>, ts: int)
    requires (forall i | 0 <= i < |done| :: done[i].ts <= ts) && AllAfter(left, ts)
    ensures Ordered(done + left, left, ts) && Consumed(done + left, left) == done
  {
    assert Consumed(done + left, left) == done;
  }

  lemma BatchTurn(
    cfg: Config, choose: (History, View, Stimulus) -> seq<Action>, tickers: set<Ticker>, feed: seq<FeedEvent>, c: Core<History>,
    done: seq<FeedEvent>, batch: seq<FeedEvent>, left: seq<FeedEvent>, ts: int)
    requires Counted(c) && ToldSoFar(cfg, tickers, feed, c, done) && c.error.None? && feed == (done + batch) + left
    requires (forall i | 0 <= i < |done| :: done[i].ts < ts) && AllAt(batch, ts) && AllAfter(left, ts)
    ensures var b := FeedTurn(cfg, Recorder(choose), c, ts, batch);
            b.now == ts && ToldSoFar(cfg, tickers, feed, b, done + batch)
  {
    var at := c.(now := ts);
    FrontIsUntil(done + batch, left, ts);
    StaleBefore(at.markets, done, ts);
    assert Counted(at);
    hide Recorder, Filter, Quietly, ApplyAll, NotifyAll, Update, AllFed, TrueSight, Fresh, FeedTold, Counted;
    ApplyAllQuiet(cfg, at, batch);
    var applied := ApplyAll(cfg, at, batch);
    QuietParts(at, applied);
    var b := NotifyAll(cfg, Recorder(choose), applied, batch);
    BatchEntries(cfg, choose, applied, batch);
    if applied.error.None? {
      BatchFed(cfg, at, done, batch, ts);
      BatchSight(cfg, choose, feed, applied, batch);
      if b.error.None? {
        BatchAdds(cfg, choose, applied, batch, done);
      }
    } else {
      ErrorStops(cfg, Recorder(choose), applied, batch);
    }
  }

  lemma CallTurn(
    cfg: Config, choose: (History, View, Stimulus) -> seq<Action>, tickers: set<Ticker>, feed: seq<FeedEvent>, c: Core<History>,
    done: seq<FeedEvent>, left: seq<FeedEvent>, s: Stimulus)
    requires ToldSoFar(cfg, tickers, feed, c, done) && c.error.None? && feed == done + left && s.Noticed?
    requires (forall i | 0 <= i < |done| :: done[i].ts <= c.now) && forall i | 0 <= i < |left| :: left[i].ts > c.now
    ensures var b := Tell(cfg, Recorder(choose), c, s);
            b.now == c.now && ToldSoFar(cfg, tickers, feed, b, done)
  {
    FrontIsUntil(done, left, c.now);
    OneCall(cfg, choose, c, s);
    hide Recorder, Filter, AllFed, FeedTold, Tell;
    var b := Tell(cfg, Recorder(choose), c, s);
    NotFeed(c.strategy, b.strategy);
  }

  lemma NotFeed(h: History, more: History)
    requires |more| == |h| + 1 && more[..|h|] == h && !more[|h|].stimulus.Feed?
    ensures FeedTold(more) == FeedTold(h)
  {
  }

  lemma ToldHeapTurn(
    cfg: Config, choose: (History, View, Stimulus) -> seq<Action>, tickers: set<Ticker>, feed: seq<FeedEvent>, c: Core<History>,
    done: seq<FeedEvent>, left: seq<FeedEvent>, m: Message)
    requires Counted(c) && ToldSoFar(cfg, tickers, feed, c, done) && c.error.None? && feed == done + left && c.now <= m.ts
    requires (forall i | 0 <= i < |done| :: done[i].ts <= c.now) && forall i | 0 <= i < |left| :: left[i].ts > m.ts
    ensures var b := HeapTurn(cfg, Recorder(choose), c, m);
            b.now == m.ts && ToldSoFar(cfg, tickers, feed, b, done)
  {
    var at := c.(now := m.ts, heap := c.heap - {m});
    assert Counted(at);
    hide Recorder, Filter, FeedTold, AllFed, OnArrival, OnCancel, Tell, Dispatchable, Quietly, Arriving, TrueSight, Counted;
    match m.payload
    case Arrival(id, o) =>
      if Dispatchable(at, m.payload) {
        if OnArrival(cfg, at, id, o).error.None? {
          ArrivalFed(cfg, at, id, o, done);
        }
        ArrivalArriving(cfg, at, id, o);
        ArrivingParts(at, OnArrival(cfg, at, id, o), id, o);
      }
    case Cancellation(id) =>
      CancelMarkets(at, id);
      CancelQuiet(at, id);
      QuietParts(at, OnCancel(at, id));
    case Notify(n) =>
      CallTurn(cfg, choose, tickers, feed, at, done, left, Noticed(n));
  }

  lemma ArrivingParts<S>(a: Core<S>, b: Core<S>, id: nat, o: Order)
    requires Arriving(a, b, id, o)
    ensures b.now == a.now && b.strategy == a.strategy && b.markets.Keys == a.markets.Keys
  {
  }

  lemma CancelMarkets<S>(c: Core<S>, id: nat)
    ensures OnCancel(c, id).markets == c.markets && OnCancel(c, id).error == c.error
  {
    hide Without;
  }

  lemma StillOrdered(feed: seq<FeedEvent>, rest: seq<FeedEvent>, now: int, later: int)
    requires Ordered(feed, rest, now) && now <= later
    ensures Ordered(feed, rest, later)
  {
  }

  lemma ToldStep(
    cfg: Config, choose: (History, View, Stimulus) -> seq<Action>, tickers: set<Ticker>, feed: seq<FeedEvent>, w: World<History>)
    requires ValidConfig(cfg) && InOrder(feed) && Good(cfg, w) && HeardIn(cfg, w.core) && ToldAll(cfg, tickers, feed, w)
    ensures ToldAll(cfg, tickers, feed, Step(cfg, Recorder(choose), w))
  {
    InvCounted(cfg, w.core);
    hide ToldSoFar, Ordered, Recorder, Step, ValidEvent, HeardIn, Inv, Counted, InOrder;
    if Finished(w) {
      StepIs(cfg, Recorder(choose), w);
    } else if TakesFeed(w) {
      ToldFeedStep(cfg, choose, tickers, feed, w);
    } else {
      RestInOrder(cfg, w);
      MessageFirst(cfg, w);
      NextMessage(cfg, w);
      ToldHeapStep(cfg, choose, tickers, feed, w);
    }
  }

  lemma StepIs<S>(cfg: Config, strat: Strategy<S>, w: World<S>)
    requires Finished(w)
    ensures Step(cfg, strat, w) == w
  {
  }

  lemma RestInOrder<S>(cfg: Config, w: World<S>)
    requires Good(cfg, w)
    ensures InOrder(w.feed)
  {
  }

  lemma NextMessage<S>(cfg: Config, w: World<S>)
    requires Good(cfg, w) && w.core.heap != {}
    ensures w.core.now <= Next(w.core.heap).ts
  {
    Pop(cfg, w.core, Next(w.core.heap));
  }

  lemma ToldFeedStep(
    cfg: Config, choose: (History, View, Stimulus) -> seq<Action>, tickers: set<Ticker>, feed: seq<FeedEvent>, w: World<History>)
    requires InOrder(feed) && Ahead(w.feed, w.core.now) && Counted(w.core) && ToldAll(cfg, tickers, feed, w)
    requires !Finished(w) && TakesFeed(w)
    ensures ToldAll(cfg, tickers, feed, Step(cfg, Recorder(choose), w))
  {
    hide ToldSoFar, Ordered, Recorder, FeedTurn, InOrder, Counted;
    NextInstant(feed, w.feed, w.core.now);
    var ts, n := w.feed[0].ts, Simultaneous(w.feed, w.feed[0].ts);
    BatchTurn(cfg, choose, tickers, feed, w.core, Consumed(feed, w.feed), w.feed[..n], w.feed[n..], ts);
  }

  lemma ToldHeapStep(
    cfg: Config, choose: (History, View, Stimulus) -> seq<Action>, tickers: set<Ticker>, feed: seq<FeedEvent>, w: World<History>)
    requires Counted(w.core) && ToldAll(cfg, tickers, feed, w) && !Finished(w) && !TakesFeed(w)
    requires w.core.now <= Next(w.core.heap).ts && forall j | 0 <= j < |w.feed| :: w.feed[j].ts > Next(w.core.heap).ts
    ensures ToldAll(cfg, tickers, feed, Step(cfg, Recorder(choose), w))
  {
    hide ToldSoFar, Ordered, Recorder, HeapTurn, Counted;
    var c, m := w.core, Next(w.core.heap);
    OrderedSplit(feed, w.feed, c.now);
    ToldHeapTurn(cfg, choose, tickers, feed, c, Consumed(feed, w.feed), w.feed, m);
    StillOrdered(feed, w.feed, c.now, m.ts);
  }

  lemma OrderedSplit(feed: seq<FeedEvent>, rest: seq<FeedEvent>, now: int)
    requires Ordered(feed, rest, now)
    ensures feed == Consumed(feed, rest) + rest
    ensures forall i | 0 <= i < |Consumed(feed, rest)| :: Consumed(feed, rest)[i].ts <= now
    ensures forall i | 0 <= i < |Consumed(feed, rest)| && rest != [] :: Consumed(feed, rest)[i].ts < rest[0].ts
  {
  }

  /** A message is only taken before the feed's next event if it is due strictly before it. */
  lemma MessageFirst<S>(cfg: Config, w: World<S>)
    requires HeardIn(cfg, w.core) && InOrder(w.feed) && !TakesFeed(w) && w.core.heap != {}
    ensures forall j | 0 <= j < |w.feed| :: w.feed[j].ts > Next(w.core.heap).ts
  {
    hide InLog, Waits;
    forall j | 0 <= j < |w.feed|
      ensures w.feed[j].ts > Next(w.core.heap).ts
    {
      if j > 0 {
        assert FeedLe()(w.feed[0], w.feed[j]);
      }
    }
  }

  // ---------------------------------------------------------------- what it means

  /** The run after n turns, with everything the strategy was told on record. */
  ghost function Recorded(
    cfg: Config, choose: (History, View, Stimulus) -> seq<Action>, tickers: set<Ticker>, feed: seq<FeedEvent>, n: nat): World<History> {
    Run(cfg, Recorder(choose), Begin(cfg, Recorder(choose), tickers, [], feed), n)
  }

  lemma ToldStart(cfg: Config, choose: (History, View, Stimulus) -> seq<Action>, tickers: set<Ticker>, feed: seq<FeedEvent>)
    ensures ToldAll(cfg, tickers, feed, Recorded(cfg, choose, tickers, feed, 0))
    ensures var h := Recorded(cfg, choose, tickers, feed, 0).core.strategy; |h| == 1 && h[0].stimulus == Start
  {
    var c := Initial<History>(cfg, tickers, []);
    OneCall(cfg, choose, c, Start);
    NothingFed(cfg, tickers);
    hide Recorder, Tell, Initial;
    var b := Tell(cfg, Recorder(choose), c, Start);
    NotFeed([], b.strategy);
    assert Filter([], Audible(tickers)) == [];
    assert Consumed(feed, feed) == [];
  }

  lemma NothingFed(cfg: Config, tickers: set<Ticker>)
    ensures var c := Initial<History>(cfg, tickers, []);
            AllFed(c.markets, [], cfg.tradeHistory) && c.markets.Keys == tickers && c.strategy == [] && c.now == 0
  {
  }

  lemma {:induction false} ToldRun(
    cfg: Config, choose: (History, View, Stimulus) -> seq<Action>, tickers: set<Ticker>, feed: seq<FeedEvent>, n: nat)
    requires ValidConfig(cfg) && ValidFeed(feed) && Ahead(feed, 0)
    ensures ToldAll(cfg, tickers, feed, Recorded(cfg, choose, tickers, feed, n))
  {
    hide ToldAll, Step, Begin, Recorder, HeardIn, Good;
    if n == 0 {
      ToldStart(cfg, choose, tickers, feed);
    } else {
      ToldRun(cfg, choose, tickers, feed, n - 1);
      HeardRun(cfg, Recorder(choose), tickers, [], feed, n - 1);
      RunKeeps(cfg, Recorder(choose), tickers, [], feed, n - 1);
      hide ValidFeed;
      assert InOrder(feed) by { FeedInOrder(feed); }
      ToldStep(cfg, choose, tickers, feed, Recorded(cfg, choose, tickers, feed, n - 1));
    }
  }

  lemma FeedInOrder(feed: seq<FeedEvent>)
    requires ValidFeed(feed)
    ensures InOrder(feed)
  {
  }

  /** Over any run that has met no error, the strategy has been told of exactly the events that have come
      out of the feed and that it can hear, each once and in the feed's order. */
  lemma StrategyHearsFeed(
    cfg: Config, choose: (History, View, Stimulus) -> seq<Action>, tickers: set<Ticker>, feed: seq<FeedEvent>, n: nat)
    requires ValidConfig(cfg) && ValidFeed(feed) && Ahead(feed, 0)
    requires Recorded(cfg, choose, tickers, feed, n).core.error.None?
    ensures
      var w := Recorded(cfg, choose, tickers, feed, n);
      && IsRest(feed, w.feed)
      && FeedTold(w.core.strategy) == Filter(Consumed(feed, w.feed), Audible(tickers))
  {
    hide Recorded, AllFed, TrueSight;
    ToldRun(cfg, choose, tickers, feed, n);
  }

  /** Every call after the first shows the markets exactly as the feed up to that instant has them: closed,
      settled, last print and recent prints, when the book was last heard of, and no more on the book than
      was last sent; and a call about an event comes at its time, with all its instant's books as sent. */
  lemma StrategySeesTruly(
    cfg: Config, choose: (History, View, Stimulus) -> seq<Action>, tickers: set<Ticker>, feed: seq<FeedEvent>, n: nat, k: nat)
    requires ValidConfig(cfg) && ValidFeed(feed) && Ahead(feed, 0)
    requires 1 <= k < |Recorded(cfg, choose, tickers, feed, n).core.strategy|
    ensures TrueSight(feed, Recorded(cfg, choose, tickers, feed, n).core.strategy[k], cfg.tradeHistory)
  {
    hide Recorded, TrueSight;
    ToldRun(cfg, choose, tickers, feed, n);
  }
}
