/** The maker's cancels as the exchange sees them: over a whole run the engine is given at most one for any
    order, whatever the latencies. */
module CancelOnce {
  import opened Units
  import opened Sorting
  import opened Engine
  import opened EngineGrowth
  import opened MarketMaker
  import opened QuoteProtocol

  ghost predicate IsCancel(m: Message, id: nat) {
    m.payload == Cancellation(id)
  }

  ghost predicate NoCancel(h: set<Message>, id: nat) {
    forall m | m in h :: !IsCancel(m, id)
  }

  ghost predicate WasWithdrawn(log: seq<QuoteEvent>, id: nat) {
    exists i :: 0 <= i < |log| && log[i].Withdrawn? && log[i].id == id
  }

  /** Every cancel under way is one the maker logged, and it is the only one for its order. */
  ghost predicate CancelsOk(h: set<Message>, log: seq<QuoteEvent>) {
    && (forall m, id | m in h && IsCancel(m, id) :: WasWithdrawn(log, id))
    && forall m, n, id | m in h && n in h && IsCancel(m, id) && IsCancel(n, id) :: m == n
  }

  /** The order's one cancel has come and gone. */
  ghost predicate Spent(h: set<Message>, log: seq<QuoteEvent>, id: nat) {
    WasWithdrawn(log, id) && NoCancel(h, id)
  }

  // ---------------------------------------------------------------- what a call asks for

  lemma {:induction false} KeptOnce<T>(s: seq<T>, p: T -> bool, i: nat, j: nat)
    requires i < j < |s| && p(s[i])
    requires forall a, b | 0 <= a < b < |Filter(s, p)| && Filter(s, p)[a] == s[i] :: Filter(s, p)[b] != s[i]
    ensures s[j] != s[i]
  {
    var n := |s| - 1;
    var front := Filter(s[..n], p);
    assert forall a | 0 <= a < |front| :: Filter(s, p)[a] == front[a];
    if j < n {
      KeptOnce(s[..n], p, i, j);
    } else if p(s[n]) {
      FilterKeeps(s[..n], p);
      assert s[..n][i] in s[..n];
      var a :| 0 <= a < |front| && front[a] == s[i];
      assert Filter(s, p)[|front|] == s[n];
    }
  }

  /** The cancels among these requests are for different orders, logged now and not before. */
  ghost predicate NewCancels(acts: seq<Action>, before: seq<QuoteEvent>, after: seq<QuoteEvent>) {
    && before <= after
    && (forall i | 0 <= i < |acts| && acts[i].Cancel? ::
          WasWithdrawn(after, acts[i].orderId) && !WasWithdrawn(before, acts[i].orderId))
    && forall i, j | 0 <= i < j < |acts| && acts[i].Cancel? && acts[j].Cancel? :: acts[i].orderId != acts[j].orderId
  }

  lemma CancelLogged(acts: seq<Action>, before: seq<QuoteEvent>, after: seq<QuoteEvent>, i: nat) returns (k: nat)
    requires before <= after && Filter(acts, IsRequest()) == AsActions(after[|before|..])
    requires i < |acts| && acts[i].Cancel?
    ensures |before| <= k < |after| && after[k].Withdrawn? && after[k].id == acts[i].orderId
  {
    FilterKeeps(acts, IsRequest());
    assert acts[i] in Filter(acts, IsRequest());
    var added := after[|before|..];
    var a :| 0 <= a < |added| && AsActions(added)[a] == acts[i];
    k := |before| + a;
    assert after[k] == added[a];
  }

  lemma CancelsNew(m: Maker, r: Call)
    requires Booked(m.log, r) && WithdrawnOnce(r.maker)
    ensures NewCancels(r.sent, m.log, r.maker.log)
  {
    var before, after, acts := m.log, r.maker.log, r.sent;
    forall i | 0 <= i < |acts| && acts[i].Cancel?
      ensures WasWithdrawn(after, acts[i].orderId) && !WasWithdrawn(before, acts[i].orderId)
    {
      var k := CancelLogged(acts, before, after, i);
      forall q | 0 <= q < |before| && before[q].Withdrawn?
        ensures before[q].id != acts[i].orderId
      {
        assert after[q] == before[q];
      }
    }
    var added := after[|before|..];
    forall i, j | 0 <= i < j < |acts| && acts[i].Cancel? && acts[j].Cancel?
      ensures acts[i].orderId != acts[j].orderId
    {
      forall a, b | 0 <= a < b < |added| && AsActions(added)[a] == acts[i]
        ensures AsActions(added)[b] != acts[i]
      {
        assert after[|before| + a] == added[a] && after[|before| + b] == added[b];
      }
      KeptOnce(acts, IsRequest(), i, j);
    }
  }
  // ---------------------------------------------------------------- carrying the requests out

  /** After an action, the cancels under way are those before and, for a cancel, one more for its order. */
  lemma OneAction<S>(cfg: Config, c: Core<S>, a: Action)
    ensures var b := Perform(cfg, c, a);
            forall m, id | IsCancel(m, id) && m in b.heap && m !in c.heap :: a == Cancel(id)
    ensures var b := Perform(cfg, c, a);
            forall m, n, id | IsCancel(m, id) && IsCancel(n, id) && m in b.heap && n in b.heap && NoCancel(c.heap, id) :: m == n
  {
  }

  lemma {:induction false} AllActions<S>(cfg: Config, c: Core<S>, acts: seq<Action>, before: seq<QuoteEvent>, after: seq<QuoteEvent>, done: seq<Action>)
    requires NewCancels(done + acts, before, after)
    requires forall m, id | m in c.heap && IsCancel(m, id) :: WasWithdrawn(before, id) || Cancel(id) in done
    requires forall m, n, id | m in c.heap && n in c.heap && IsCancel(m, id) && IsCancel(n, id) :: m == n
    ensures var b := PerformAll(cfg, c, acts);
            && (forall m, id | m in b.heap && IsCancel(m, id) :: WasWithdrawn(before, id) || Cancel(id) in done + acts)
            && (forall m, n, id | m in b.heap && n in b.heap && IsCancel(m, id) && IsCancel(n, id) :: m == n)
            && forall id | NoCancel(c.heap, id) && Cancel(id) !in acts :: NoCancel(b.heap, id)
    decreases |acts|
  {
    if acts != [] && c.error.None? {
      var a, next := acts[0], Perform(cfg, c, acts[0]);
      OneAction(cfg, c, a);
      assert acts == [a] + acts[1..] && done + acts == (done + [a]) + acts[1..];
      assert (done + acts)[|done|] == a;
      hide Perform, WasWithdrawn;
      forall m, n, id | m in next.heap && n in next.heap && IsCancel(m, id) && IsCancel(n, id)
        ensures m == n
      {
        if a == Cancel(id) {
          NotAgain(done, acts, before, after);
        }
      }
      AllActions(cfg, next, acts[1..], before, after, done + [a]);
    }
  }

  lemma NotAgain(done: seq<Action>, acts: seq<Action>, before: seq<QuoteEvent>, after: seq<QuoteEvent>)
    requires NewCancels(done + acts, before, after) && acts != [] && acts[0].Cancel?
    ensures acts[0] !in done && !WasWithdrawn(before, acts[0].orderId)
  {
    var all := done + acts;
    assert all[|done|] == acts[0];
    forall i | 0 <= i < |done|
      ensures done[i] != acts[0]
    {
      assert all[i] == done[i];
    }
  }

  // ---------------------------------------------------------------- calls and turns

  ghost predicate Kept(a: Core<Maker>, b: Core<Maker>) {
    CancelsOk(a.heap, a.strategy.log) ==>
      && CancelsOk(b.heap, b.strategy.log)
      && forall id | Spent(a.heap, a.strategy.log, id) :: Spent(b.heap, b.strategy.log, id)
  }

  lemma KeptChain(a: Core<Maker>, b: Core<Maker>, c: Core<Maker>)
    requires Kept(a, b) && Kept(b, c)
    ensures Kept(a, c)
  {
    hide CancelsOk, Spent;
  }

  lemma QuietKept(a: Core<Maker>, b: Core<Maker>)
    requires b.strategy == a.strategy && OnlyNotices(a.heap, b.heap)
    ensures Kept(a, b)
  {
    assert forall m, id | m in b.heap && IsCancel(m, id) :: m in a.heap;
    hide WasWithdrawn;
  }

  lemma LaterLog(before: seq<QuoteEvent>, after: seq<QuoteEvent>, id: nat)
    requires before <= after && WasWithdrawn(before, id)
    ensures WasWithdrawn(after, id)
  {
    var i :| 0 <= i < |before| && before[i].Withdrawn? && before[i].id == id;
    assert after[i] == before[i];
  }

  lemma TellKept(cfg: Config, p: Params, d: Desk, c: Core<Maker>, s: Stimulus)
    requires Steady(c)
    ensures Kept(c, Tell(cfg, Quoter(p, d), c, s))
  {
    var r := Respond(p, d, c.strategy, ViewOf(c), s);
    LogIsExact(p, d, c.strategy, ViewOf(c), s);
    RespondOk(p, d, c.strategy, ViewOf(c), s);
    var start := c.(strategy := r.maker);
    var b := PerformAll(cfg, start, r.sent);
    assert b == Tell(cfg, Quoter(p, d), c, s);
    PerformStrategy(cfg, start, r.sent);
    assert WithdrawnOnce(r.maker);
    hide Respond, WithdrawnOnce, PlacesOk, Stamped, LastMoves, NoPlaces, Booked, PerformAll, Quoter, Tell;
    CancelsNew(c.strategy, r);
    if CancelsOk(c.heap, c.strategy.log) {
      SentKept(cfg, start, r.sent, c.strategy.log, r.maker.log);
    }
  }

  lemma SentLogged(acts: seq<Action>, before: seq<QuoteEvent>, after: seq<QuoteEvent>, id: nat)
    requires NewCancels(acts, before, after)
    ensures Cancel(id) in acts ==> WasWithdrawn(after, id) && !WasWithdrawn(before, id)
  {
    hide WasWithdrawn;
    if Cancel(id) in acts {
      var i :| 0 <= i < |acts| && acts[i] == Cancel(id);
    }
  }

  lemma SentKept<S>(cfg: Config, c: Core<S>, acts: seq<Action>, before: seq<QuoteEvent>, after: seq<QuoteEvent>)
    requires NewCancels(acts, before, after) && CancelsOk(c.heap, before)
    ensures var b := PerformAll(cfg, c, acts);
            CancelsOk(b.heap, after) && forall id | Spent(c.heap, before, id) :: Spent(b.heap, after, id)
  {
    assert [] + acts == acts;
    AllActions(cfg, c, acts, before, after, []);
    hide PerformAll, WasWithdrawn;
    var b := PerformAll(cfg, c, acts);
    forall m, id | m in b.heap && IsCancel(m, id)
      ensures WasWithdrawn(after, id)
    {
      if WasWithdrawn(before, id) {
        LaterLog(before, after, id);
      } else {
        SentLogged(acts, before, after, id);
      }
    }
    forall id | Spent(c.heap, before, id)
      ensures Spent(b.heap, after, id)
    {
      LaterLog(before, after, id);
      SentLogged(acts, before, after, id);
    }
  }

  lemma {:induction false} NotifyKept(cfg: Config, p: Params, d: Desk, c: Core<Maker>, batch: seq<FeedEvent>)
    requires Steady(c)
    ensures Kept(c, NotifyAll(cfg, Quoter(p, d), c, batch))
    decreases |batch|
  {
    hide Steady, Tell, Quoter, Kept;
    NothingKept(c);
    if batch != [] && c.error.None? {
      var next := NotifyFeed(cfg, Quoter(p, d), c, batch[0]);
      SteadyTell(cfg, p, d, c, Feed(batch[0]));
      TellKept(cfg, p, d, c, Feed(batch[0]));
      NotifyKept(cfg, p, d, next, batch[1..]);
      KeptChain(c, next, NotifyAll(cfg, Quoter(p, d), next, batch[1..]));
    }
  }

  lemma NothingKept(c: Core<Maker>)
    ensures Kept(c, c)
  {
  }

  lemma FeedTurnKept(cfg: Config, p: Params, d: Desk, c: Core<Maker>, ts: int, batch: seq<FeedEvent>)
    requires Steady(c)
    ensures Kept(c, FeedTurn(cfg, Quoter(p, d), c, ts, batch))
  {
    var at := c.(now := ts);
    var applied := ApplyAll(cfg, at, batch);
    hide WithdrawnOnce, ApplyAll, NotifyAll, Quoter, Kept;
    ApplyAllQuiet(cfg, at, batch);
    QuietCounts(at, applied);
    QuietKept(c, applied);
    NotifyKept(cfg, p, d, applied, batch);
    KeptChain(c, applied, NotifyAll(cfg, Quoter(p, d), applied, batch));
  }

  /** Taking a cancel off the queue spends it. */
  lemma PopKept(c: Core<Maker>, m: Message, at: Core<Maker>)
    requires m in c.heap && at == c.(now := m.ts, heap := c.heap - {m})
    ensures Kept(c, at)
    ensures CancelsOk(c.heap, c.strategy.log) && m.payload.Cancellation? ==>
              Spent(at.heap, at.strategy.log, m.payload.orderId)
  {
    hide WasWithdrawn;
    if CancelsOk(c.heap, c.strategy.log) && m.payload.Cancellation? {
      assert IsCancel(m, m.payload.orderId);
    }
  }

  lemma HeapTurnKept(cfg: Config, p: Params, d: Desk, c: Core<Maker>, m: Message)
    requires Steady(c) && m in c.heap
    ensures Kept(c, HeapTurn(cfg, Quoter(p, d), c, m))
    ensures CancelsOk(c.heap, c.strategy.log) && m.payload.Cancellation? ==>
              var b := HeapTurn(cfg, Quoter(p, d), c, m); Spent(b.heap, b.strategy.log, m.payload.orderId)
  {
    var at := c.(now := m.ts, heap := c.heap - {m});
    var b := HeapTurn(cfg, Quoter(p, d), c, m);
    PopKept(c, m, at);
    assert Steady(at);
    assert Kept(at, b) by {
      hide Kept, OnArrival, OnCancel, Tell, Quoter, Dispatchable, Steady, CancelsOk, Spent;
      NothingKept(at);
      match m.payload
      case Arrival(id, o) =>
        if Dispatchable(at, m.payload) {
          assert Counted(at) by { SteadyCounted(at); }
          ArrivalArriving(cfg, at, id, o);
          QuietKept(at, b);
        }
      case Cancellation(id) =>
        assert Counted(at) by { SteadyCounted(at); }
        CancelQuiet(at, id);
        QuietKept(at, b);
      case Notify(n) => TellKept(cfg, p, d, at, Noticed(n));
    }
    hide HeapTurn, CancelsOk, Spent;
  }

  lemma SteadyCounted(c: Core<Maker>)
    requires Steady(c)
    ensures Counted(c)
  {
  }

  /** The engine takes this order's cancel off its queue in this turn. */
  ghost predicate ReceivesCancel<S>(w: World<S>, id: nat) {
    !Finished(w) && !TakesFeed(w) && Next(w.core.heap).payload == Cancellation(id)
  }

  lemma StepKept(cfg: Config, p: Params, d: Desk, w: World<Maker>)
    requires Steady(w.core) && CancelsOk(w.core.heap, w.core.strategy.log)
    ensures var b := Step(cfg, Quoter(p, d), w).core;
            && Kept(w.core, b) && CancelsOk(b.heap, b.strategy.log)
            && forall id | ReceivesCancel(w, id) :: Spent(b.heap, b.strategy.log, id)
  {
    hide Steady, FeedTurn, HeapTurn, CancelsOk, Spent, Quoter;
    var c := w.core;
    if !Finished(w) {
      if TakesFeed(w) {
        var ts := w.feed[0].ts;
        FeedTurnKept(cfg, p, d, c, ts, w.feed[..Simultaneous(w.feed, ts)]);
      } else {
        HeapTurnKept(cfg, p, d, c, Next(c.heap));
      }
    }
  }

  // ---------------------------------------------------------------- whole runs

  /** The run after n turns. */
  ghost function At(cfg: Config, p: Params, d: Desk, tickers: set<Ticker>, feed: seq<FeedEvent>, n: nat): World<Maker> {
    Run(cfg, Quoter(p, d), Begin(cfg, Quoter(p, d), tickers, Fresh(), feed), n)
  }

  lemma {:induction false} RunKept(cfg: Config, p: Params, d: Desk, tickers: set<Ticker>, feed: seq<FeedEvent>, n: nat)
    ensures var c := At(cfg, p, d, tickers, feed, n).core; Steady(c) && CancelsOk(c.heap, c.strategy.log)
  {
    SteadyRun(cfg, p, d, tickers, feed, n, n);
    hide Steady, Step, Tell, Quoter, Initial, CancelsOk, Kept;
    if n == 0 {
      var c := Initial(cfg, tickers, Fresh());
      SteadyStart(cfg, tickers);
      assert CancelsOk(c.heap, c.strategy.log) by { StartsOk(cfg, tickers); }
      TellKept(cfg, p, d, c, Start);
      FromKept(c, Tell(cfg, Quoter(p, d), c, Start));
    } else {
      RunKept(cfg, p, d, tickers, feed, n - 1);
      StepKept(cfg, p, d, At(cfg, p, d, tickers, feed, n - 1));
    }
  }

  lemma StartsOk(cfg: Config, tickers: set<Ticker>)
    ensures var c := Initial(cfg, tickers, Fresh()); CancelsOk(c.heap, c.strategy.log)
  {
  }

  lemma FromKept(a: Core<Maker>, b: Core<Maker>)
    requires Kept(a, b) && CancelsOk(a.heap, a.strategy.log)
    ensures CancelsOk(b.heap, b.strategy.log)
    ensures forall id | Spent(a.heap, a.strategy.log, id) :: Spent(b.heap, b.strategy.log, id)
  {
  }

  lemma {:induction false} StaysSpent(
    cfg: Config, p: Params, d: Desk, tickers: set<Ticker>, feed: seq<FeedEvent>, m: nat, n: nat, id: nat)
    requires m <= n
    requires var c := At(cfg, p, d, tickers, feed, m).core; Spent(c.heap, c.strategy.log, id)
    ensures var c := At(cfg, p, d, tickers, feed, n).core; Spent(c.heap, c.strategy.log, id)
    decreases n
  {
    hide Steady, Step, Begin, Quoter, CancelsOk, Spent, Kept;
    if m < n {
      StaysSpent(cfg, p, d, tickers, feed, m, n - 1, id);
      RunKept(cfg, p, d, tickers, feed, n - 1);
      var w := At(cfg, p, d, tickers, feed, n - 1);
      StepKept(cfg, p, d, w);
      FromKept(w.core, Step(cfg, Quoter(p, d), w).core);
    }
  }

  /** Over any run the engine receives at most one cancel for each order: no two turns take one off the
      queue, and no two wait in it at once. */
  lemma EngineCancelsOnce(
    cfg: Config, p: Params, d: Desk, tickers: set<Ticker>, feed: seq<FeedEvent>, m: nat, n: nat, id: nat)
    requires m <= n && ReceivesCancel(At(cfg, p, d, tickers, feed, m), id)
    requires ReceivesCancel(At(cfg, p, d, tickers, feed, n), id)
    ensures m == n
    ensures forall x, y | x in At(cfg, p, d, tickers, feed, n).core.heap && y in At(cfg, p, d, tickers, feed, n).core.heap
                          && IsCancel(x, id) && IsCancel(y, id) :: x == y
  {
    hide Steady, Step, Begin, Quoter, Kept, At;
    RunKept(cfg, p, d, tickers, feed, n);
    var w := At(cfg, p, d, tickers, feed, n);
    assert Next(w.core.heap) in w.core.heap && IsCancel(Next(w.core.heap), id);
    assert !Spent(w.core.heap, w.core.strategy.log, id);
    if m < n {
      Received(cfg, p, d, tickers, feed, m, id);
      StaysSpent(cfg, p, d, tickers, feed, m + 1, n, id);
    }
  }

  lemma Received(cfg: Config, p: Params, d: Desk, tickers: set<Ticker>, feed: seq<FeedEvent>, m: nat, id: nat)
    requires ReceivesCancel(At(cfg, p, d, tickers, feed, m), id)
    ensures var c := At(cfg, p, d, tickers, feed, m + 1).core; Spent(c.heap, c.strategy.log, id)
  {
    hide Steady, Step, Begin, Quoter, Kept, ReceivesCancel, CancelsOk, Spent;
    RunKept(cfg, p, d, tickers, feed, m);
    StepKept(cfg, p, d, At(cfg, p, d, tickers, feed, m));
  }
}
