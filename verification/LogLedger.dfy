/** The engine's account and its fill log tell one story: in every reachable state the account is worth, at any
    settlement values the feed agrees with, exactly what the logged fills paid, cost and will pay. */
module LogLedger {
  import opened Units
  import opened MapSums
  import opened OrderBooks
  import opened Fees
  import opened Fills
  import opened Ledger
  import opened Engine
  import opened SafeRuns

  /** What the logged fills come to, held to settlement at these values: payoffs less prices and fees. */
  function LogProfit(log: seq<FillRecord>, v: Ticker -> Price): int {
    if log == [] then 0
    else
      var f := log[|log| - 1];
      LogProfit(log[..|log| - 1], v) + (Payoff(f.side, v(f.ticker)) - f.price) * f.qty - f.fee
  }

  function LogFees(log: seq<FillRecord>): int {
    if log == [] then 0 else LogFees(log[..|log| - 1]) + log[|log| - 1].fee
  }

  ghost predicate NonNegative(a: Account) {
    forall t | t in a.positions :: a.positions[t].yes >= 0 && a.positions[t].no >= 0
  }

  /** The account is the opening cash and what the log made of it. */
  ghost predicate Tallies<S>(cfg: Config, c: Core<S>, v: Ticker -> Price) {
    && NonNegative(c.account) && Equity(c.account, v) == cfg.initialCash + LogProfit(c.fillLog, v)
    && c.account.fees == LogFees(c.fillLog)
  }

  ghost predicate SameBooks<S>(a: Core<S>, b: Core<S>) {
    b.account == a.account && b.fillLog == a.fillLog
  }

  lemma SameTallies<S>(cfg: Config, a: Core<S>, b: Core<S>, v: Ticker -> Price)
    requires Tallies(cfg, a, v) && SameBooks(a, b)
    ensures Tallies(cfg, b, v)
  {
  }

  // ---------------------------------------------------------------- fills and settlements

  lemma BoughtNonNegative(a: Account, t: Ticker, side: Side, price: Price, qty: Qty, fee: int)
    requires NonNegative(a) && qty >= 0
    ensures NonNegative(Bought(a, t, side, price, qty, fee)) && Bought(a, t, side, price, qty, fee).fees == a.fees + fee
  {
    hide Notional, ShareOfCost;
  }

  lemma ProfitMore(log: seq<FillRecord>, f: FillRecord, v: Ticker -> Price)
    ensures LogProfit(log + [f], v)
         == LogProfit(log, v) - (Notional(f.price, f.qty) + f.fee) + Notional(Payoff(f.side, v(f.ticker)), f.qty)
    ensures LogFees(log + [f]) == LogFees(log) + f.fee
  {
    assert (log + [f])[..|log|] == log;
    hide Payoff;
    assert (Payoff(f.side, v(f.ticker)) - f.price) * f.qty == Payoff(f.side, v(f.ticker)) * f.qty - f.price * f.qty;
  }

  lemma FillTallies<S>(cfg: Config, c: Core<S>, f: FillRecord, v: Ticker -> Price)
    requires Tallies(cfg, c, v) && f.orderId in c.records && f.qty >= 0
    ensures Tallies(cfg, LogFill(cfg, c, f), v)
  {
    hide Bought, Equity, Payoff, LogProfit, LogFees, Notional;
    if f.ticker !in c.account.settled {
      BoughtNonNegative(c.account, f.ticker, f.side, f.price, f.qty, f.fee);
      BuyEquity(c.account, f.ticker, f.side, f.price, f.qty, f.fee, v);
      ProfitMore(c.fillLog, f, v);
    }
  }

  lemma SettleTallies<S>(cfg: Config, c: Core<S>, t: Ticker, v: Ticker -> Price)
    requires Tallies(cfg, c, v)
    ensures Tallies(cfg, c.(account := Settled(c.account, t, v(t))), v)
  {
    SettleEquity(c.account, t, v);
    hide Equity, Notional;
  }

  // ---------------------------------------------------------------- operation by operation

  lemma HitTallies<S>(cfg: Config, c: Core<S>, id: nat, o: Resting, fill: Qty, v: Ticker -> Price)
    requires Tallies(cfg, c, v) && id in c.orders && id in c.records
    ensures Tallies(cfg, Hit(cfg, c, id, o, fill), v)
  {
    hide Tallies;
    var moved := c.(orders := c.orders[id := o]);
    SameTallies(cfg, c, moved, v);
    var qty := Min(fill, o.qty);
    if fill != 0 && qty > 0 {
      var f := MakerRecord(cfg, moved, id, o, qty);
      FillTallies(cfg, moved, f, v);
      hide LogFill, FeeSchedule.OrderFee, Without;
      SameTallies(cfg, LogFill(cfg, moved, f), Hit(cfg, c, id, o, fill), v);
    }
  }

  lemma {:induction false} MatchTallies<S>(cfg: Config, c: Core<S>, ids: seq<nat>, trade: Trade, budget: Budget, v: Ticker -> Price)
    requires Tallies(cfg, c, v)
    ensures Tallies(cfg, MatchResting(cfg, c, ids, trade, budget), v)
    decreases |ids|
  {
    hide Tallies, Hit, PrintOn;
    if ids == [] || c.error.Some? {
    } else if ids[0] in c.orders && ids[0] in c.records {
      var (after, fill, next) := PrintOn(cfg, c.orders[ids[0]], trade, budget);
      HitTallies(cfg, c, ids[0], after, fill, v);
      MatchTallies(cfg, Hit(cfg, c, ids[0], after, fill), ids[1..], trade, next, v);
    } else {
      MatchTallies(cfg, c, ids[1..], trade, budget, v);
    }
  }

  lemma {:induction false} ShowTallies<S>(cfg: Config, c: Core<S>, ids: seq<nat>, book: Book, v: Ticker -> Price)
    requires Tallies(cfg, c, v)
    ensures Tallies(cfg, ShowBook(cfg, c, ids, book), v)
    decreases |ids|
  {
    hide Tallies, Hit, QueueModel.OnBook;
    if ids == [] || c.error.Some? {
    } else if ids[0] in c.orders && ids[0] in c.records {
      var (after, fill) := cfg.maker.OnBook(c.orders[ids[0]], book);
      HitTallies(cfg, c, ids[0], after, fill, v);
      ShowTallies(cfg, Hit(cfg, c, ids[0], after, fill), ids[1..], book, v);
    } else {
      ShowTallies(cfg, c, ids[1..], book, v);
    }
  }

  lemma {:induction false} DropAllBooks<S>(c: Core<S>, ids: seq<nat>)
    ensures SameBooks(c, DropAll(c, ids))
    decreases |ids|
  {
    if ids != [] {
      DropAllBooks(if ids[0] in c.orders && ids[0] in c.records then DropResting(c, ids[0]) else c, ids[1..]);
      hide Without;
    }
  }

  /** The event settles nothing at any other value. */
  ghost predicate SettlesAs(ev: FeedEvent, v: Ticker -> Price) {
    ev.Settlement? ==> v(ev.ticker) == ev.value
  }

  lemma EventTallies<S>(cfg: Config, c: Core<S>, ev: FeedEvent, v: Ticker -> Price)
    requires Tallies(cfg, c, v) && SettlesAs(ev, v)
    ensures Tallies(cfg, ApplyEvent(cfg, c, ev), v)
  {
    hide Tallies, ShowBook, MatchResting, DropAll, Settled, Confirm, Snapshot, Remember;
    if ev.BookConfirm? || ev.ticker !in c.markets {
      SameTallies(cfg, c, ApplyEvent(cfg, c, ev), v);
    } else {
      var t, st := ev.ticker, c.markets[ev.ticker];
      match ev
      case BookUpdate(ts, _, yes, no) =>
        var book := Snapshot(yes, no);
        var shown := InMarket(c, t, st.(book := book, bookTs := Some(ts)));
        if book.Some? {
          SameTallies(cfg, c, shown, v);
          ShowTallies(cfg, shown, c.Queue(t), book.value, v);
        } else {
          SameTallies(cfg, c, ApplyEvent(cfg, c, ev), v);
        }
      case TradeTick(_, _, trade) =>
        var shown := InMarket(c, t, st.(lastTrade := Some(trade), trades := Remember(st.trades, trade, cfg.tradeHistory)));
        SameTallies(cfg, c, shown, v);
        MatchTallies(cfg, shown, c.Queue(t), trade, map[], v);
      case MarketClose(_, _) =>
        DropAllBooks(InMarket(c, t, st.(closed := true)), c.Queue(t));
        SameTallies(cfg, c, ApplyEvent(cfg, c, ev), v);
      case Settlement(_, _, value) =>
        var shut := DropAll(InMarket(c, t, st.(closed := true, outcome := Some(value))), c.Queue(t));
        DropAllBooks(InMarket(c, t, st.(closed := true, outcome := Some(value))), c.Queue(t));
        SameTallies(cfg, c, shut, v);
        SettleTallies(cfg, shut, t, v);
    }
  }

  lemma {:induction false} BatchTallies<S>(cfg: Config, c: Core<S>, batch: seq<FeedEvent>, v: Ticker -> Price)
    requires Tallies(cfg, c, v) && forall i | 0 <= i < |batch| :: SettlesAs(batch[i], v)
    ensures Tallies(cfg, ApplyAll(cfg, c, batch), v)
    decreases |batch|
  {
    hide Tallies, ApplyEvent, SettlesAs;
    if batch != [] && c.error.None? {
      EventTallies(cfg, c, batch[0], v);
      BatchTallies(cfg, ApplyEvent(cfg, c, batch[0]), batch[1..], v);
    }
  }

  lemma {:induction false} RecordFillsTallies<S>(
    cfg: Config, c: Core<S>, id: nat, o: Order, fills: seq<Fill>, total: int, left: int, all: Qty, v: Ticker -> Price)
    requires Tallies(cfg, c, v) && AllPositive(fills)
    ensures Tallies(cfg, RecordFills(cfg, c, id, o, fills, total, left, all), v)
    decreases |fills|
  {
    hide Tallies, LogFill, FeeShare;
    if fills != [] && c.error.None? && id in c.records {
      var fee := FeeShare(total, left, fills[0].qty, all, |fills| == 1);
      var f := FillOf(c.now, id, o, fills[0].price, fills[0].qty, fee, false);
      FillTallies(cfg, c, f, v);
      RecordFillsTallies(cfg, LogFill(cfg, c, f), id, o, fills[1..], total, left - fee, all, v);
    }
  }

  lemma TakeTallies<S>(cfg: Config, c: Core<S>, id: nat, o: Order, v: Ticker -> Price)
    requires Tallies(cfg, c, v)
    requires o.ticker in c.markets && c.markets[o.ticker].book.Some? && c.markets[o.ticker].book.value.Valid()
    ensures Tallies(cfg, Take(cfg, c, id, o, TakerFills(cfg, c, o)), v)
  {
    hide Tallies, RecordFills, FeeSchedule.OrderFee, SumQty, Book.Valid, Deplete, Book.AskLevels, TakerModel.Walk;
    var fills := TakerFills(cfg, c, o);
    TakerWithinLimit(cfg.taker, c.markets[o.ticker].book.value.AskLevels(o.side), o.price, o.qty);
    if fills != [] {
      var fee := cfg.fees.For(o.ticker).OrderFee(fills, false);
      RecordFillsTallies(cfg, c, id, o, fills, fee, fee, SumQty(fills), v);
      SameTallies(cfg, RecordFills(cfg, c, id, o, fills, fee, fee, SumQty(fills)), Take(cfg, c, id, o, fills), v);
    }
  }

  lemma RestBooks<S>(cfg: Config, c: Core<S>, id: nat, o: Order, remaining: Qty)
    requires id in c.records && o.ticker in c.markets
    ensures SameBooks(c, Rest(cfg, c, id, o, remaining))
  {
    hide LevelSize, Share, Notional;
  }

  lemma RejectBooks<S>(cfg: Config, c: Core<S>, id: nat)
    requires id in c.records
    ensures SameBooks(c, Reject(cfg, c, id))
  {
  }

  lemma ArrivalTallies<S>(cfg: Config, c: Core<S>, id: nat, o: Order, v: Ticker -> Price)
    requires Tallies(cfg, c, v) && Dispatchable(c, Arrival(id, o))
    ensures Tallies(cfg, OnArrival(cfg, c, id, o), v)
  {
    hide Tallies, Reject, Rest, Take, TakerFills, SumQty, Notional, MapSum, Book.BestAsk, Book.Valid, SameBooks;
    RejectBooks(cfg, c, id);
    SameTallies(cfg, c, Reject(cfg, c, id), v);
    RestBooks(cfg, c, id, o, o.qty);
    SameTallies(cfg, c, Rest(cfg, c, id, o, o.qty), v);
    if Marketable(c.markets[o.ticker], o) {
      var fills := TakerFills(cfg, c, o);
      var taken := Take(cfg, c, id, o, fills);
      TakeTallies(cfg, c, id, o, v);
      if id in taken.records && o.ticker in taken.markets {
        RestBooks(cfg, taken, id, o, o.qty - SumQty(fills));
        SameTallies(cfg, taken, Rest(cfg, taken, id, o, o.qty - SumQty(fills)), v);
      }
    }
  }

  // ---------------------------------------------------------------- calls and turns

  lemma PerformBooks<S>(cfg: Config, c: Core<S>, a: Action)
    ensures SameBooks(c, Perform(cfg, c, a))
  {
  }

  lemma {:induction false} PerformAllBooks<S>(cfg: Config, c: Core<S>, acts: seq<Action>)
    ensures SameBooks(c, PerformAll(cfg, c, acts))
    decreases |acts|
  {
    hide Perform;
    if acts != [] && c.error.None? {
      PerformBooks(cfg, c, acts[0]);
      PerformAllBooks(cfg, Perform(cfg, c, acts[0]), acts[1..]);
    }
  }

  lemma TellBooks<S>(cfg: Config, strat: Strategy<S>, c: Core<S>, s: Stimulus)
    ensures SameBooks(c, Tell(cfg, strat, c, s))
  {
    var (next, acts) := strat(c.strategy, ViewOf(c), s);
    PerformAllBooks(cfg, c.(strategy := next), acts);
    hide PerformAll;
  }

  lemma {:induction false} NotifyBooks<S>(cfg: Config, strat: Strategy<S>, c: Core<S>, batch: seq<FeedEvent>)
    ensures SameBooks(c, NotifyAll(cfg, strat, c, batch))
    decreases |batch|
  {
    hide Tell;
    if batch != [] && c.error.None? {
      TellBooks(cfg, strat, c, Feed(batch[0]));
      NotifyBooks(cfg, strat, NotifyFeed(cfg, strat, c, batch[0]), batch[1..]);
    }
  }

  lemma CancelBooks<S>(c: Core<S>, id: nat)
    ensures SameBooks(c, OnCancel(c, id))
  {
    hide Without;
  }

  lemma HeapTurnTallies<S>(cfg: Config, strat: Strategy<S>, c: Core<S>, m: Message, v: Ticker -> Price)
    requires Tallies(cfg, c, v)
    ensures Tallies(cfg, HeapTurn(cfg, strat, c, m), v)
  {
    var at := c.(now := m.ts, heap := c.heap - {m});
    SameTallies(cfg, c, at, v);
    hide Tallies, OnArrival, OnCancel, Tell, Dispatchable;
    match m.payload
    case Arrival(id, o) =>
      if Dispatchable(at, m.payload) {
        ArrivalTallies(cfg, at, id, o, v);
      }
    case Cancellation(id) =>
      CancelBooks(at, id);
      SameTallies(cfg, at, OnCancel(at, id), v);
    case Notify(n) =>
      TellBooks(cfg, strat, at, Noticed(n));
      SameTallies(cfg, at, Tell(cfg, strat, at, Noticed(n)), v);
  }

  lemma FeedTurnTallies<S>(cfg: Config, strat: Strategy<S>, c: Core<S>, ts: int, batch: seq<FeedEvent>, v: Ticker -> Price)
    requires Tallies(cfg, c, v) && forall i | 0 <= i < |batch| :: SettlesAs(batch[i], v)
    ensures Tallies(cfg, FeedTurn(cfg, strat, c, ts, batch), v)
  {
    var at := c.(now := ts);
    SameTallies(cfg, c, at, v);
    hide Tallies, ApplyAll, NotifyAll;
    BatchTallies(cfg, at, batch, v);
    NotifyBooks(cfg, strat, ApplyAll(cfg, at, batch), batch);
    SameTallies(cfg, ApplyAll(cfg, at, batch), NotifyAll(cfg, strat, ApplyAll(cfg, at, batch), batch), v);
  }

  lemma StepTallies<S>(cfg: Config, strat: Strategy<S>, w: World<S>, v: Ticker -> Price)
    requires Tallies(cfg, w.core, v) && forall i | 0 <= i < |w.feed| :: SettlesAs(w.feed[i], v)
    ensures var b := Step(cfg, strat, w);
            Tallies(cfg, b.core, v) && forall i | 0 <= i < |b.feed| :: SettlesAs(b.feed[i], v)
  {
    hide Tallies, FeedTurn, HeapTurn, SettlesAs;
    var c := w.core;
    if !Finished(w) {
      if TakesFeed(w) {
        var ts, n := w.feed[0].ts, Simultaneous(w.feed, w.feed[0].ts);
        SameTallies(cfg, c, Fail(c, FeedBackwards), v);
        FeedTurnTallies(cfg, strat, c, ts, w.feed[..n], v);
      } else {
        HeapTurnTallies(cfg, strat, c, Next(c.heap), v);
      }
    }
  }

  lemma {:induction false} RunTallies<S>(
    cfg: Config, strat: Strategy<S>, tickers: set<Ticker>, s: S, feed: seq<FeedEvent>, n: nat, v: Ticker -> Price)
    requires forall i | 0 <= i < |feed| :: SettlesAs(feed[i], v)
    ensures var w := Run(cfg, strat, Begin(cfg, strat, tickers, s, feed), n);
            Tallies(cfg, w.core, v) && forall i | 0 <= i < |w.feed| :: SettlesAs(w.feed[i], v)
  {
    hide Tallies, Step, Tell, Initial, SettlesAs;
    if n == 0 {
      var c := Initial(cfg, tickers, s);
      NothingTallies(cfg, tickers, s, v);
      TellBooks(cfg, strat, c, Start);
      SameTallies(cfg, c, Tell(cfg, strat, c, Start), v);
    } else {
      RunTallies(cfg, strat, tickers, s, feed, n - 1, v);
      StepTallies(cfg, strat, Run(cfg, strat, Begin(cfg, strat, tickers, s, feed), n - 1), v);
    }
  }

  lemma NothingTallies<S>(cfg: Config, tickers: set<Ticker>, s: S, v: Ticker -> Price)
    ensures Tallies(cfg, Initial(cfg, tickers, s), v)
  {
    assert Worths(Opening(cfg.initialCash), v) == map[];
  }

  // ---------------------------------------------------------------- what it means

  /** In every reachable state, and at any settlement values that agree with the feed's settlements, cash and
      holdings are worth exactly the opening cash and what the logged fills come to; and the fees paid are
      the fees logged. */
  lemma AccountIsTheLog<S>(
    cfg: Config, strat: Strategy<S>, tickers: set<Ticker>, s: S, feed: seq<FeedEvent>, n: nat, v: Ticker -> Price)
    requires forall i | 0 <= i < |feed| && feed[i].Settlement? :: v(feed[i].ticker) == feed[i].value
    ensures
      var c := Reached(cfg, strat, tickers, s, feed, n);
      && Equity(c.account, v) == cfg.initialCash + LogProfit(c.fillLog, v)
      && c.account.fees == LogFees(c.fillLog)
  {
    RunTallies(cfg, strat, tickers, s, feed, n, v);
    hide Run, Begin;
  }
}
