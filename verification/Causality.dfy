/** backtest/engine.py's causality claim, as a statement about two runs: what a strategy does and gets up
    to a time is the same whether or not the feed goes on after it. */
module Causality {
  import opened Units
  import opened Sorting
  import opened Engine
  import opened EngineGrowth

  /** The orders on record that had been submitted by the cut, as submitted. */
  ghost function OrdersBy<S>(c: Core<S>, cut: int): map<nat, Stub> {
    map id | id in c.records && c.records[id].submittedTs <= cut :: StubOf(c.records[id])
  }

  function ExecutedBy(cut: int): FillRecord -> bool {
    (f: FillRecord) => f.execTs <= cut
  }

  function FillsBy<S>(c: Core<S>, cut: int): seq<FillRecord> {
    Filter(c.fillLog, ExecutedBy(cut))
  }

  /** The two runs so far are one: same engine state, and the second feed is the first one cut short. */
  ghost predicate Together<S>(w: World<S>, v: World<S>, cut: int) {
    && v.core == w.core && v.feed == Filter(w.feed, UpTo(cut))
    && InOrder(w.feed) && Counted(w.core)
  }

  ghost predicate FeedAfter(feed: seq<FeedEvent>, cut: int) {
    forall i | 0 <= i < |feed| :: feed[i].ts > cut
  }

  ghost predicate HeapAfter(heap: set<Message>, cut: int) {
    forall m | m in heap :: m.ts > cut
  }

  /** Whatever this run still does, it does after the cut. */
  ghost predicate Past<S>(w: World<S>, cut: int) {
    Counted(w.core) && (w.core.error.Some? || (FeedAfter(w.feed, cut) && HeapAfter(w.core.heap, cut)))
  }

  lemma {:induction false} NoneBy(s: seq<FillRecord>, cut: int)
    requires forall i | 0 <= i < |s| :: s[i].execTs > cut
    ensures Filter(s, ExecutedBy(cut)) == []
  {
    if s != [] {
      NoneBy(s[..|s| - 1], cut);
    }
  }

  /** Growth at a later time does not touch what had happened by the cut. */
  lemma LaterGrowth<S>(a: Core<S>, b: Core<S>, cut: int)
    requires Extends(a, b) && a.now > cut
    ensures OrdersBy(b, cut) == OrdersBy(a, cut) && FillsBy(b, cut) == FillsBy(a, cut)
    ensures HeapAfter(a.heap, cut) ==> HeapAfter(b.heap, cut)
  {
    var more := b.fillLog[|a.fillLog|..];
    assert b.fillLog == a.fillLog + more;
    NoneBy(more, cut);
    FilterAppend(a.fillLog, more, ExecutedBy(cut));
  }

  lemma PastStep<S>(cfg: Config, strat: Strategy<S>, w: World<S>, cut: int)
    requires Past(w, cut)
    ensures Past(Step(cfg, strat, w), cut)
    ensures OrdersBy(Step(cfg, strat, w).core, cut) == OrdersBy(w.core, cut)
    ensures FillsBy(Step(cfg, strat, w).core, cut) == FillsBy(w.core, cut)
  {
    hide Extends, FeedTurn, HeapTurn, Numbered;
    var c := w.core;
    if Finished(w) {
    } else if TakesFeed(w) {
      var ts := w.feed[0].ts;
      if ts >= c.now {
        var batch := w.feed[..Simultaneous(w.feed, ts)];
        var at, after := c.(now := ts), FeedTurn(cfg, strat, c, ts, batch);
        FeedTurnGrows(cfg, strat, c, ts, batch);
        Counts(at, after);
        LaterGrowth(at, after, cut);
      }
    } else {
      var m := Next(c.heap);
      var at, after := c.(now := m.ts, heap := c.heap - {m}), HeapTurn(cfg, strat, c, m);
      HeapTurnGrows(cfg, strat, c, m);
      Counts(at, after);
      LaterGrowth(at, after, cut);
    }
  }

  // ---------------------------------------------------------------- while the next thing is by the cut

  /** A feed in order, cut short, is its own front part: everything before the cut. */
  lemma {:induction false} CutIsPrefix(feed: seq<FeedEvent>, cut: int)
    requires InOrder(feed)
    ensures Filter(feed, UpTo(cut)) <= feed
    ensures forall i | 0 <= i < |Filter(feed, UpTo(cut))| :: feed[i].ts <= cut
    ensures forall i | |Filter(feed, UpTo(cut))| <= i < |feed| :: feed[i].ts > cut
  {
    hide StableSort;
    if feed != [] {
      var front, last := feed[..|feed| - 1], feed[|feed| - 1];
      assert feed == front + [last];
      if last.ts <= cut {
        forall i | 0 <= i < |feed|
          ensures feed[i].ts <= cut
        {
          assert i < |front| ==> FeedLe()(feed[i], last);
        }
        KeepAll(feed, cut);
      } else {
        CutIsPrefix(front, cut);
        assert forall i | 0 <= i < |front| :: front[i] == feed[i];
      }
    }
  }

  /** Dropping the same leading events from both keeps one feed the cut of the other. */
  lemma CutTail(feed: seq<FeedEvent>, cut: int, n: nat)
    requires InOrder(feed) && n <= |feed|
    requires forall i | 0 <= i < n :: feed[i].ts <= cut
    ensures n <= |Filter(feed, UpTo(cut))|
    ensures Filter(feed, UpTo(cut))[..n] == feed[..n]
    ensures Filter(feed, UpTo(cut))[n..] == Filter(feed[n..], UpTo(cut))
    ensures InOrder(feed[n..])
  {
    var front, tail := feed[..n], feed[n..];
    assert feed == front + tail;
    FilterAppend(front, tail, UpTo(cut));
    KeepAll(front, cut);
  }

  lemma {:induction false} KeepAll(s: seq<FeedEvent>, cut: int)
    requires forall i | 0 <= i < |s| :: s[i].ts <= cut
    ensures Filter(s, UpTo(cut)) == s
  {
    if s != [] {
      KeepAll(s[..|s| - 1], cut);
      assert s == s[..|s| - 1] + [s[|s| - 1]];
    }
  }

  /** The batch of one instant is the same in a feed and in its cut at or after that instant. */
  lemma {:induction false} SameBatch(feed: seq<FeedEvent>, cut: int, ts: int)
    requires InOrder(feed) && ts <= cut
    ensures Simultaneous(Filter(feed, UpTo(cut)), ts) == Simultaneous(feed, ts)
    decreases |feed|
  {
    CutIsPrefix(feed, cut);
    var short := Filter(feed, UpTo(cut));
    if feed != [] && feed[0].ts == ts {
      assert short != [];
      CutTail(feed, cut, 1);
      SameBatch(feed[1..], cut, ts);
    }
  }

  lemma LaterFeed(feed: seq<FeedEvent>, cut: int)
    requires InOrder(feed) && feed != [] && feed[0].ts > cut
    ensures FeedAfter(feed, cut) && Filter(feed, UpTo(cut)) == []
  {
    CutIsPrefix(feed, cut);
  }

  lemma HeapFrom(heap: set<Message>, m: Message, cut: int)
    requires IsNext(heap, m) && m.ts > cut
    ensures HeapAfter(heap, cut)
  {
  }

  /** The heart of the matter: with the same state and feeds that agree up to the cut, either the two
      runs take the same turn, or both have only the time after the cut ahead of them. */
  lemma TogetherStep<S>(cfg: Config, strat: Strategy<S>, w: World<S>, v: World<S>, cut: int)
    requires Together(w, v, cut)
    ensures Together(Step(cfg, strat, w), Step(cfg, strat, v), cut) || (Past(w, cut) && Past(v, cut))
  {
    hide Extends, FeedTurn, HeapTurn, Numbered, Filter, StableSort;
    var c := w.core;
    CutIsPrefix(w.feed, cut);
    if c.error.Some? || (w.feed == [] && c.heap == {}) {
    } else if TakesFeed(w) {
      FeedTogether(cfg, strat, w, v, cut);
    } else {
      HeapTogether(cfg, strat, w, v, cut);
    }
  }

  lemma FeedTogether<S>(cfg: Config, strat: Strategy<S>, w: World<S>, v: World<S>, cut: int)
    requires Together(w, v, cut) && !Finished(w) && TakesFeed(w)
    ensures Together(Step(cfg, strat, w), Step(cfg, strat, v), cut) || (Past(w, cut) && Past(v, cut))
  {
    hide Extends, FeedTurn, HeapTurn, Numbered, Filter, StableSort;
    var c, ts := w.core, w.feed[0].ts;
    if ts > cut {
      LaterFeed(w.feed, cut);
      if c.heap != {} {
        HeapFrom(c.heap, Next(c.heap), cut);
      }
    } else {
      var n := Simultaneous(w.feed, ts);
      SameBatch(w.feed, cut, ts);
      CutTail(w.feed, cut, n);
      CutTail(w.feed, cut, 1);
      assert v.feed[0] == v.feed[..1][0] == w.feed[0];
      if ts >= c.now {
        FeedTurnGrows(cfg, strat, c, ts, w.feed[..n]);
        Counts(c.(now := ts), FeedTurn(cfg, strat, c, ts, w.feed[..n]));
      }
    }
  }

  lemma HeapTogether<S>(cfg: Config, strat: Strategy<S>, w: World<S>, v: World<S>, cut: int)
    requires Together(w, v, cut) && !Finished(w) && !TakesFeed(w)
    ensures Together(Step(cfg, strat, w), Step(cfg, strat, v), cut) || (Past(w, cut) && Past(v, cut))
  {
    hide Extends, FeedTurn, HeapTurn, Numbered, Filter, StableSort;
    var c := w.core;
    var m := Next(c.heap);
    CutIsPrefix(w.feed, cut);
    if m.ts > cut {
      HeapFrom(c.heap, m, cut);
      if w.feed != [] {
        LaterFeed(w.feed, cut);
      }
    } else {
      HeapTurnGrows(cfg, strat, c, m);
      Counts(c.(now := m.ts, heap := c.heap - {m}), HeapTurn(cfg, strat, c, m));
      assert !TakesFeed(v);
    }
  }

  lemma {:induction false} Lockstep<S>(cfg: Config, strat: Strategy<S>, w: World<S>, v: World<S>, cut: int, n: nat)
    requires Together(w, v, cut)
    ensures
      var wn, vn := Run(cfg, strat, w, n), Run(cfg, strat, v, n);
      || Together(wn, vn, cut)
      || (Past(wn, cut) && Past(vn, cut)
          && OrdersBy(vn.core, cut) == OrdersBy(wn.core, cut) && FillsBy(vn.core, cut) == FillsBy(wn.core, cut))
  {
    hide Together, Past, Step, OrdersBy, FillsBy;
    if n > 0 {
      var wp, vp := Run(cfg, strat, w, n - 1), Run(cfg, strat, v, n - 1);
      Lockstep(cfg, strat, w, v, cut, n - 1);
      if Together(wp, vp, cut) {
        TogetherCores(wp, vp, cut);
        TogetherStep(cfg, strat, wp, vp, cut);
      }
      if Past(wp, cut) && Past(vp, cut) {
        PastStep(cfg, strat, wp, cut);
        PastStep(cfg, strat, vp, cut);
      }
    }
  }

  lemma TogetherCores<S>(w: World<S>, v: World<S>, cut: int)
    requires Together(w, v, cut)
    ensures v.core == w.core
  {
  }

  /** No look-ahead: for every list of events, every deterministic strategy and every cut, the run on the
      whole feed and the run on the feed truncated at the cut have, after any number of turns, submitted
      the same orders and executed the same fills up to the cut. */
  lemma NoLookAhead<S>(
    cfg: Config, strat: Strategy<S>, tickers: set<Ticker>, s: S, events: seq<FeedEvent>, cut: int, n: nat)
    ensures
      var feed := ListFeed(events);
      var full := Run(cfg, strat, Begin(cfg, strat, tickers, s, feed), n).core;
      var short := Run(cfg, strat, Begin(cfg, strat, tickers, s, Truncated(feed, cut)), n).core;
      OrdersBy(short, cut) == OrdersBy(full, cut) && FillsBy(short, cut) == FillsBy(full, cut)
  {
    hide Extends, Run, Tell, OrdersBy, FillsBy;
    var feed := ListFeed(events);
    ListFeedLaws(events, cut);
    var w, v := Begin(cfg, strat, tickers, s, feed), Begin(cfg, strat, tickers, s, Truncated(feed, cut));
    var c := Initial(cfg, tickers, s);
    TellGrows(cfg, strat, c, Start);
    Counts(c, Tell(cfg, strat, c, Start));
    assert Together(w, v, cut);
    Lockstep(cfg, strat, w, v, cut, n);
    var wn, vn := Run(cfg, strat, w, n), Run(cfg, strat, v, n);
    if Together(wn, vn, cut) {
      TogetherCores(wn, vn, cut);
    }
  }
}
