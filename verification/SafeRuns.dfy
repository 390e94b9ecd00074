/** What holds of every state the engine reaches, for any strategy, on any feed in order. */
module SafeRuns {
  import opened Units
  import opened MapSums
  import opened OrderBooks
  import opened Fills
  import opened Ledger
  import opened Engine
  import opened EngineGrowth
  import opened EngineInvariant
  import opened EngineSafety
  import opened EngineTurns

  ghost predicate ValidFeed(feed: seq<FeedEvent>) {
    InOrder(feed) && forall i | 0 <= i < |feed| :: ValidEvent(feed[i])
  }

  /** The feed has nothing from before the present. */
  ghost predicate Ahead(feed: seq<FeedEvent>, now: int) {
    feed != [] ==> feed[0].ts >= now
  }

  /** What can stop a run: the strategy's own requests, or a malformed snapshot. */
  ghost predicate Outside(e: Option<Error>) {
    e in {None, Some(PastSchedule), Some(UnknownMarket), Some(BadSnapshot)}
  }

  ghost predicate Good<S>(cfg: Config, w: World<S>) {
    Inv(cfg, w.core) && ValidFeed(w.feed) && Ahead(w.feed, w.core.now) && Outside(w.core.error)
  }

  lemma Advance<S>(cfg: Config, c: Core<S>, ts: int)
    requires Inv(cfg, c) && c.now <= ts && forall m | m in c.heap :: ts <= m.ts
    ensures Inv(cfg, c.(now := ts))
  {
    hide Numbered, PendingOk, QueuesOk, ReservedOk, RestingOk, LogOk, MoneyOk, BooksOk, SettledOk, LiveOk, OpenOk;
  }

  lemma Pop<S>(cfg: Config, c: Core<S>, m: Message)
    requires Inv(cfg, c) && IsNext(c.heap, m)
    ensures Inv(cfg, c.(now := m.ts, heap := c.heap - {m})) && c.now <= m.ts
    ensures m.payload.Arrival? ==>
              var b := c.(now := m.ts, heap := c.heap - {m});
              Arrived(b, m.payload.orderId, m.payload.order) && b.records[m.payload.orderId].filled == 0
              && Dispatchable(b, m.payload)
  {
    HeapPop(c.heap, c.sequence, c.now, m);
    assert c.now <= m.ts;
    PendingPop(c.heap, c.records, c.markets.Keys, c.orders.Keys, cfg.latencySubmit, m);
    hide Numbered, HeapOk, PendingOk, QueuesOk, ReservedOk, RestingOk, LogOk, MoneyOk, SettledOk, LiveOk, OpenOk;
    hide NotPending, Book.Valid;
  }

  lemma FeedTurnKeeps<S>(cfg: Config, strat: Strategy<S>, c: Core<S>, ts: int, batch: seq<FeedEvent>)
    requires ValidConfig(cfg) && Inv(cfg, c) && c.error.None?
    requires c.now <= ts && forall m | m in c.heap :: ts <= m.ts
    requires forall i | 0 <= i < |batch| :: ValidEvent(batch[i])
    ensures Inv(cfg, FeedTurn(cfg, strat, c, ts, batch)) && Outside(FeedTurn(cfg, strat, c, ts, batch).error)
  {
    hide Inv, ApplyAll, NotifyAll, ValidEvent;
    Advance(cfg, c, ts);
    ApplyAllKeeps(cfg, c.(now := ts), batch);
    NotifyAllKeeps(cfg, strat, ApplyAll(cfg, c.(now := ts), batch), batch);
  }

  lemma HeapTurnKeeps<S>(cfg: Config, strat: Strategy<S>, c: Core<S>, m: Message)
    requires ValidConfig(cfg) && Inv(cfg, c) && c.error.None? && IsNext(c.heap, m)
    ensures Inv(cfg, HeapTurn(cfg, strat, c, m)) && Outside(HeapTurn(cfg, strat, c, m).error)
  {
    hide Inv, OnArrival, OnCancel, Tell, Dispatchable;
    Pop(cfg, c, m);
    var b := c.(now := m.ts, heap := c.heap - {m});
    match m.payload
    case Arrival(id, o) => ArrivalKeeps(cfg, b, id, o);
    case Cancellation(id) => CancelKeeps(cfg, b, id);
    case Notify(n) => TellKeeps(cfg, strat, b, Noticed(n));
  }

  lemma RestOfFeed(feed: seq<FeedEvent>, n: nat)
    requires ValidFeed(feed) && n <= |feed|
    ensures ValidFeed(feed[n..])
  {
  }

  /** One turn keeps everything, and the clock does not run backwards. */
  lemma StepKeeps<S>(cfg: Config, strat: Strategy<S>, w: World<S>)
    requires ValidConfig(cfg) && Good(cfg, w)
    ensures Good(cfg, Step(cfg, strat, w)) && Step(cfg, strat, w).core.now >= w.core.now
  {
    hide Inv, FeedTurn, HeapTurn, Extends, ValidEvent;
    var c := w.core;
    assert Counted(c) by { InvCounted(cfg, c); }
    if Finished(w) {
    } else if TakesFeed(w) {
      FeedStepKeeps(cfg, strat, w);
    } else {
      var m := Next(c.heap);
      Pop(cfg, c, m);
      HeapTurnKeeps(cfg, strat, c, m);
      HeapTurnGrows(cfg, strat, c, m);
      ExtendsNow(c.(now := m.ts, heap := c.heap - {m}), HeapTurn(cfg, strat, c, m));
    }
  }

  lemma FeedStepKeeps<S>(cfg: Config, strat: Strategy<S>, w: World<S>)
    requires ValidConfig(cfg) && Good(cfg, w) && !Finished(w) && TakesFeed(w)
    ensures Good(cfg, Step(cfg, strat, w)) && Step(cfg, strat, w).core.now >= w.core.now
  {
    hide Inv, FeedTurn, HeapTurn, Extends, ValidEvent;
    var c, ts := w.core, w.feed[0].ts;
    InvCounted(cfg, c);
    var n := Simultaneous(w.feed, ts);
    forall m | m in c.heap
      ensures ts <= m.ts
    {
      assert Before(Next(c.heap), m);
    }
    FeedTurnKeeps(cfg, strat, c, ts, w.feed[..n]);
    FeedTurnGrows(cfg, strat, c, ts, w.feed[..n]);
    ExtendsNow(c.(now := ts), FeedTurn(cfg, strat, c, ts, w.feed[..n]));
    RestOfFeed(w.feed, n);
    if n < |w.feed| {
      assert FeedLe()(w.feed[0], w.feed[n]);
    }
  }

  lemma InvCounted<S>(cfg: Config, c: Core<S>)
    requires Inv(cfg, c)
    ensures Counted(c)
  {
  }

  lemma ExtendsNow<S>(a: Core<S>, b: Core<S>)
    requires Extends(a, b)
    ensures b.now == a.now
  {
  }

  lemma InitialInv<S>(cfg: Config, tickers: set<Ticker>, s: S)
    requires ValidConfig(cfg)
    ensures Inv(cfg, Initial(cfg, tickers, s))
  {
    assert Costs(map[]) == map[];
  }

  /** Every state of every run. */
  lemma {:induction false} RunKeeps<S>(
    cfg: Config, strat: Strategy<S>, tickers: set<Ticker>, s: S, feed: seq<FeedEvent>, n: nat)
    requires ValidConfig(cfg) && ValidFeed(feed) && Ahead(feed, 0)
    ensures Good(cfg, Run(cfg, strat, Begin(cfg, strat, tickers, s, feed), n))
  {
    hide Inv, Step, Tell, ValidFeed, Initial;
    if n == 0 {
      InitialInv(cfg, tickers, s);
      TellKeeps(cfg, strat, Initial(cfg, tickers, s), Start);
      assert Initial(cfg, tickers, s).now == 0 && Initial(cfg, tickers, s).error.None? by { InitialParts(cfg, tickers, s); }
    } else {
      RunKeeps(cfg, strat, tickers, s, feed, n - 1);
      StepKeeps(cfg, strat, Run(cfg, strat, Begin(cfg, strat, tickers, s, feed), n - 1));
    }
  }

  lemma InitialParts<S>(cfg: Config, tickers: set<Ticker>, s: S)
    ensures Initial(cfg, tickers, s).now == 0 && Initial(cfg, tickers, s).error.None?
  {
  }

  // ---------------------------------------------------------------- what it means

  /** A state some run reaches after n turns. */
  ghost function Reached<S>(cfg: Config, strat: Strategy<S>, tickers: set<Ticker>, s: S, feed: seq<FeedEvent>, n: nat): Core<S> {
    Run(cfg, strat, Begin(cfg, strat, tickers, s, feed), n).core
  }

  /** Solvency: what is reserved is price times remainder for exactly the resting orders, and cash plus
      the fees paid covers it, so the cash still available falls short of zero by fees alone. */
  lemma Solvency<S>(cfg: Config, strat: Strategy<S>, tickers: set<Ticker>, s: S, feed: seq<FeedEvent>, n: nat)
    requires ValidConfig(cfg) && ValidFeed(feed) && Ahead(feed, 0)
    ensures
      var c := Reached(cfg, strat, tickers, s, feed, n);
      && c.reserved.Keys == c.orders.Keys
      && (forall id | id in c.orders :: c.reserved[id] == Notional(c.orders[id].price, c.orders[id].qty) > 0)
      && c.account.cash + c.account.fees >= MapSum(c.reserved) >= 0
      && c.account.cash - MapSum(c.reserved) >= -c.account.fees
  {
    hide Run, Begin, Balanced, Sound, QueuesOk, PendingOk, HeapOk, LogOk, BooksOk, SettledOk, OpenOk;
    RunKeeps(cfg, strat, tickers, s, feed, n);
    var c := Reached(cfg, strat, tickers, s, feed, n);
    forall id | id in c.orders
      ensures c.reserved[id] == Notional(c.orders[id].price, c.orders[id].qty) > 0
    {
      NotionalPositive(c.orders[id].price, c.orders[id].qty);
    }
    NonNegative(c.reserved);
  }

  lemma NotionalPositive(price: Price, qty: Qty)
    requires price > 0 && qty > 0
    ensures Notional(price, qty) > 0
  {
  }

  /** The ledger's identity holds with at most one side held at between nothing and $1 a contract. */
  lemma LedgerBalances<S>(cfg: Config, strat: Strategy<S>, tickers: set<Ticker>, s: S, feed: seq<FeedEvent>, n: nat)
    requires ValidConfig(cfg) && ValidFeed(feed) && Ahead(feed, 0)
    ensures
      var a := Reached(cfg, strat, tickers, s, feed, n).account;
      && a.cash + OpenCost(a.positions) == cfg.initialCash + a.realised - a.fees && a.fees >= 0
      && forall t | t in a.positions :: a.positions[t].Valid()
  {
    hide Run, Begin, QueuesOk, PendingOk, HeapOk, LogOk, BooksOk, SettledOk, OpenOk, OpenCost, RestingOk, ReservedOk;
    RunKeeps(cfg, strat, tickers, s, feed, n);
  }

  /** No order is overfilled: what the log gave it and what still rests never exceed what it asked for,
      and no fill is outside its limit. */
  lemma NeverOverfilled<S>(
    cfg: Config, strat: Strategy<S>, tickers: set<Ticker>, s: S, feed: seq<FeedEvent>, n: nat, id: nat)
    requires ValidConfig(cfg) && ValidFeed(feed) && Ahead(feed, 0)
    requires id in Reached(cfg, strat, tickers, s, feed, n).records
    ensures
      var c := Reached(cfg, strat, tickers, s, feed, n);
      var o := c.records[id].order;
      && c.records[id].filled == Logged(c.fillLog, id) >= 0
      && Logged(c.fillLog, id) + (if id in c.orders then c.orders[id].qty else 0) <= Max(0, o.qty)
      && (id in c.orders ==> Logged(c.fillLog, id) + c.orders[id].qty == o.qty)
      && forall i | 0 <= i < |c.fillLog| && c.fillLog[i].orderId == id ::
           c.fillLog[i].ticker == o.ticker && c.fillLog[i].side == o.side && 0 < c.fillLog[i].price <= o.price
  {
    hide Run, Begin, QueuesOk, PendingOk, HeapOk, BooksOk, SettledOk, OpenOk, MoneyOk, ReservedOk, Logged;
    RunKeeps(cfg, strat, tickers, s, feed, n);
  }

  /** A market that has closed or settled has no resting order, and nothing is listed twice. */
  lemma ClosedMeansEmpty<S>(
    cfg: Config, strat: Strategy<S>, tickers: set<Ticker>, s: S, feed: seq<FeedEvent>, n: nat, t: Ticker)
    requires ValidConfig(cfg) && ValidFeed(feed) && Ahead(feed, 0)
    requires t in Reached(cfg, strat, tickers, s, feed, n).markets
    ensures
      var c := Reached(cfg, strat, tickers, s, feed, n);
      && (!c.markets[t].Open() ==> c.Queue(t) == [] && forall id | id in c.orders :: c.orders[id].ticker != t)
      && NoRepeats(c.Queue(t))
      && forall id | id in c.orders :: id in c.Queue(t) <==> c.orders[id].ticker == t
  {
    hide Run, Begin, PendingOk, HeapOk, BooksOk, SettledOk, MoneyOk, ReservedOk, LogOk, RestingOk;
    RunKeeps(cfg, strat, tickers, s, feed, n);
    var c := Reached(cfg, strat, tickers, s, feed, n);
    QueueIsAll(cfg, c, t);
    assert c.Queue(t) != [] ==> c.Queue(t)[0] in c.orders;
  }

  /** The clock never runs backwards. */
  lemma {:induction false} ClockForward<S>(
    cfg: Config, strat: Strategy<S>, tickers: set<Ticker>, s: S, feed: seq<FeedEvent>, m: nat, n: nat)
    requires ValidConfig(cfg) && ValidFeed(feed) && Ahead(feed, 0) && m <= n
    ensures Reached(cfg, strat, tickers, s, feed, m).now <= Reached(cfg, strat, tickers, s, feed, n).now
    decreases n
  {
    hide Step, Begin, Good;
    if m < n {
      ClockForward(cfg, strat, tickers, s, feed, m, n - 1);
      RunKeeps(cfg, strat, tickers, s, feed, n - 1);
      StepKeeps(cfg, strat, Run(cfg, strat, Begin(cfg, strat, tickers, s, feed), n - 1));
    }
  }

  /** A valid run is only ever stopped from outside: by a request of the strategy's or by a malformed
      snapshot.  The portfolio never refuses a purchase, and the feed never goes backwards. */
  lemma StoppedFromOutside<S>(cfg: Config, strat: Strategy<S>, tickers: set<Ticker>, s: S, feed: seq<FeedEvent>, n: nat)
    requires ValidConfig(cfg) && ValidFeed(feed) && Ahead(feed, 0)
    ensures
      var e := Reached(cfg, strat, tickers, s, feed, n).error;
      e != Some(MarketSettled) && e != Some(FeedBackwards) && Outside(e)
  {
    hide Run, Begin, Inv;
    RunKeeps(cfg, strat, tickers, s, feed, n);
  }

  /** The engine starts its clock at zero, so a feed in order goes backwards exactly when it opens before. */
  lemma FeedBackwardsExactly<S>(cfg: Config, strat: Strategy<S>, tickers: set<Ticker>, s: S, feed: seq<FeedEvent>)
    requires ValidConfig(cfg) && ValidFeed(feed) && Reached(cfg, strat, tickers, s, feed, 0).error.None?
    ensures (exists n: nat :: Reached(cfg, strat, tickers, s, feed, n).error == Some(FeedBackwards))
       <==> feed != [] && feed[0].ts < 0
  {
    hide Inv, Tell, FeedTurn, HeapTurn;
    if feed != [] && feed[0].ts < 0 {
      var w := Begin(cfg, strat, tickers, s, feed);
      FirstIsEarly(cfg, strat, tickers, s, feed);
      assert Run(cfg, strat, w, 0) == w;
      assert Reached(cfg, strat, tickers, s, feed, 1).error == Some(FeedBackwards);
    } else {
      forall n: nat
        ensures Reached(cfg, strat, tickers, s, feed, n).error != Some(FeedBackwards)
      {
        StoppedFromOutside(cfg, strat, tickers, s, feed, n);
      }
    }
  }

  lemma FirstIsEarly<S>(cfg: Config, strat: Strategy<S>, tickers: set<Ticker>, s: S, feed: seq<FeedEvent>)
    requires ValidConfig(cfg) && feed != [] && feed[0].ts < 0
    ensures var w := Begin(cfg, strat, tickers, s, feed);
            TakesFeed(w) && w.core.now == 0 && w.feed == feed
  {
    hide Tell;
    var c := Initial(cfg, tickers, s);
    InitialInv(cfg, tickers, s);
    TellKeeps(cfg, strat, c, Start);
    hide Numbered, PendingOk, QueuesOk, ReservedOk, RestingOk, LogOk, MoneyOk, BooksOk, SettledOk, LiveOk, OpenOk;
  }
}
