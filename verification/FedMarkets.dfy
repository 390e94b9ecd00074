/** backtest/engine.py: what the engine knows of each market is what the feed has said so far, read off the
    feed itself. */
module FedMarkets {
  import opened Units
  import opened OrderBooks
  import opened Fees
  import opened Fills
  import opened Ledger
  import opened Engine
  import opened MapSums

  // ---------------------------------------------------------------- read off the events

  predicate Closes(e: FeedEvent, t: Ticker) {
    (e.MarketClose? || e.Settlement?) && e.ticker == t
  }

  predicate ClosedBy(events: seq<FeedEvent>, t: Ticker) {
    exists i :: 0 <= i < |events| && Closes(events[i], t)
  }

  /** The last settlement value. */
  function SettledAt(events: seq<FeedEvent>, t: Ticker): Option<Price> {
    if events == [] then None
    else
      var e := events[|events| - 1];
      if e.Settlement? && e.ticker == t then Some(e.value) else SettledAt(events[..|events| - 1], t)
  }

  /** The prints, in order. */
  function Tape(events: seq<FeedEvent>, t: Ticker): seq<Trade> {
    if events == [] then []
    else
      var e := events[|events| - 1];
      Tape(events[..|events| - 1], t) + (if e.TradeTick? && e.ticker == t then [e.trade] else [])
  }

  function Latest<T>(s: seq<T>): Option<T> {
    if s == [] then None else Some(s[|s| - 1])
  }

  function Newest<T>(s: seq<T>, n: nat): seq<T> {
    if |s| <= n then s else s[|s| - n..]
  }

  /** The last book update. */
  function Update(events: seq<FeedEvent>, t: Ticker): (r: Option<FeedEvent>)
    ensures r.Some? ==> r.value.BookUpdate?
  {
    if events == [] then None
    else
      var e := events[|events| - 1];
      if e.BookUpdate? && e.ticker == t then Some(e) else Update(events[..|events| - 1], t)
  }

  /** When the book was last received or confirmed. */
  function DatedAt(events: seq<FeedEvent>, t: Ticker): Option<int> {
    if events == [] then None
    else
      var e, before := events[|events| - 1], events[..|events| - 1];
      if e.BookUpdate? && e.ticker == t then Some(e.ts)
      else if e.BookConfirm? && (e.ticker == "" || e.ticker == t) && Update(before, t).Some? then Some(e.ts)
      else DatedAt(before, t)
  }

  /** No level displays more than was sent. */
  ghost predicate AtMost(m: Bids, levels: seq<(Price, Qty)>) {
    forall p | p in m :: exists l :: l in levels && l.0 == p && m[p] <= l.1
  }

  /** A market is as these events leave it; of its last book our own fills may have taken something. */
  ghost predicate AsFed(m: MarketState, events: seq<FeedEvent>, t: Ticker, limit: nat) {
    && (m.closed <==> ClosedBy(events, t)) && m.outcome == SettledAt(events, t)
    && m.lastTrade == Latest(Tape(events, t)) && m.trades == Newest(Tape(events, t), limit)
    && m.bookTs == DatedAt(events, t)
    && (m.book.Some? <==> Update(events, t).Some?)
    && (m.book.Some? ==>
          var u := Update(events, t).value;
          m.book.value.Valid() && AtMost(m.book.value.yes, u.yes) && AtMost(m.book.value.no, u.no))
  }

  /** The book displays exactly what this update sent. */
  ghost predicate Displays(m: MarketState, u: FeedEvent)
    requires u.BookUpdate?
  {
    m.book.Some? && Shows(m.book.value.yes, u.yes) && Shows(m.book.value.no, u.no)
  }

  ghost predicate AllFed(markets: map<Ticker, MarketState>, events: seq<FeedEvent>, limit: nat) {
    forall t | t in markets :: AsFed(markets[t], events, t, limit)
  }

  // ---------------------------------------------------------------- one event

  lemma NewestMore<T>(s: seq<T>, x: T, n: nat)
    ensures Newest(s + [x], n) == (var all := Newest(s, n) + [x]; if |all| > n then all[|all| - n..] else all)
  {
    if |s| > n {
      assert s + [x] == s[..|s| - n] + (s[|s| - n..] + [x]);
    }
  }

  lemma ShownAtMost(m: Bids, levels: seq<(Price, Qty)>)
    requires Shows(m, levels)
    ensures AtMost(m, levels)
  {
    forall p | p in m
      ensures exists l :: l in levels && l.0 == p && m[p] <= l.1
    {
      assert (p, m[p]) in levels;
    }
  }

  /** What an event leaves in one market's state, its resting orders apart. */
  function MarketAfter(m: MarketState, e: FeedEvent, t: Ticker, limit: nat): MarketState {
    match e
    case BookUpdate(ts, u, yes, no) => if u == t then m.(book := Snapshot(yes, no), bookTs := Some(ts)) else m
    case BookConfirm(ts, u) => if m.book.Some? && (u == "" || u == t) then m.(bookTs := Some(ts)) else m
    case TradeTick(_, u, trade) =>
      if u == t then m.(lastTrade := Some(trade), trades := Remember(m.trades, trade, limit)) else m
    case MarketClose(_, u) => if u == t then m.(closed := true) else m
    case Settlement(_, u, value) => if u == t then m.(closed := true, outcome := Some(value)) else m
  }

  lemma OneMore(events: seq<FeedEvent>, e: FeedEvent, t: Ticker)
    ensures var all := events + [e];
            && (ClosedBy(all, t) <==> ClosedBy(events, t) || Closes(e, t))
            && SettledAt(all, t) == (if e.Settlement? && e.ticker == t then Some(e.value) else SettledAt(events, t))
            && Tape(all, t) == Tape(events, t) + (if e.TradeTick? && e.ticker == t then [e.trade] else [])
            && Update(all, t) == (if e.BookUpdate? && e.ticker == t then Some(e) else Update(events, t))
            && DatedAt(all, t) == (if e.BookUpdate? && e.ticker == t then Some(e.ts)
                                   else if e.BookConfirm? && (e.ticker == "" || e.ticker == t) && Update(events, t).Some? then Some(e.ts)
                                   else DatedAt(events, t))
  {
    var all := events + [e];
    assert all[..|all| - 1] == events && all[|all| - 1] == e;
    if ClosedBy(events, t) {
      var i :| 0 <= i < |events| && Closes(events[i], t);
      assert all[i] == events[i];
    }
    if Closes(e, t) {
      assert Closes(all[|events|], t);
    }
    if ClosedBy(all, t) && !Closes(e, t) {
      var i :| 0 <= i < |all| && Closes(all[i], t);
      assert i < |events| && events[i] == all[i];
    }
  }

  lemma NextFed(m: MarketState, events: seq<FeedEvent>, e: FeedEvent, t: Ticker, limit: nat)
    requires AsFed(m, events, t, limit) && (e.BookUpdate? && e.ticker == t ==> Snapshot(e.yes, e.no).Some?)
    ensures AsFed(MarketAfter(m, e, t, limit), events + [e], t, limit)
    ensures e.BookUpdate? && e.ticker == t ==> Displays(MarketAfter(m, e, t, limit), e)
  {
    OneMore(events, e, t);
    hide ClosedBy, SettledAt, Tape, Update, DatedAt, Snapshot, Shows, AtMost, Book.Valid;
    if e.TradeTick? && e.ticker == t {
      NewestMore(Tape(events, t), e.trade, limit);
    }
    if e.BookUpdate? && e.ticker == t {
      SnapshotShows(e.yes, e.no);
      ShownAtMost(Snapshot(e.yes, e.no).value.yes, e.yes);
      ShownAtMost(Snapshot(e.yes, e.no).value.no, e.no);
    }
  }

  // ---------------------------------------------------------------- the engine does just that

  lemma LogFillMarkets<S>(cfg: Config, c: Core<S>, f: FillRecord)
    requires f.orderId in c.records
    ensures LogFill(cfg, c, f).markets == c.markets
  {
    hide Bought;
  }

  lemma HitMarkets<S>(cfg: Config, c: Core<S>, id: nat, o: Resting, fill: Qty)
    requires id in c.orders && id in c.records
    ensures Hit(cfg, c, id, o, fill).markets == c.markets
  {
    var moved := c.(orders := c.orders[id := o]);
    LogFillMarkets(cfg, moved, MakerRecord(cfg, moved, id, o, Min(fill, o.qty)));
    hide LogFill, FeeSchedule.OrderFee, Notional, Without;
  }

  lemma {:induction false} MatchMarkets<S>(cfg: Config, c: Core<S>, ids: seq<nat>, trade: Trade, budget: Budget)
    ensures MatchResting(cfg, c, ids, trade, budget).markets == c.markets
    decreases |ids|
  {
    hide Hit, PrintOn;
    if ids == [] || c.error.Some? {
    } else if ids[0] in c.orders && ids[0] in c.records {
      var (after, fill, next) := PrintOn(cfg, c.orders[ids[0]], trade, budget);
      HitMarkets(cfg, c, ids[0], after, fill);
      MatchMarkets(cfg, Hit(cfg, c, ids[0], after, fill), ids[1..], trade, next);
    } else {
      MatchMarkets(cfg, c, ids[1..], trade, budget);
    }
  }

  lemma {:induction false} ShowMarkets<S>(cfg: Config, c: Core<S>, ids: seq<nat>, book: Book)
    ensures ShowBook(cfg, c, ids, book).markets == c.markets
    decreases |ids|
  {
    hide Hit, QueueModel.OnBook;
    if ids == [] || c.error.Some? {
    } else if ids[0] in c.orders && ids[0] in c.records {
      var (after, fill) := cfg.maker.OnBook(c.orders[ids[0]], book);
      HitMarkets(cfg, c, ids[0], after, fill);
      ShowMarkets(cfg, Hit(cfg, c, ids[0], after, fill), ids[1..], book);
    } else {
      ShowMarkets(cfg, c, ids[1..], book);
    }
  }

  lemma {:induction false} DropMarkets<S>(c: Core<S>, ids: seq<nat>)
    ensures DropAll(c, ids).markets == c.markets
    decreases |ids|
  {
    if ids != [] {
      DropMarkets(if ids[0] in c.orders && ids[0] in c.records then DropResting(c, ids[0]) else c, ids[1..]);
      hide Without;
    }
  }

  /** Unless it is a malformed snapshot, an event changes each listed market just as it says. */
  lemma EventMarkets<S>(cfg: Config, c: Core<S>, e: FeedEvent)
    requires e.BookUpdate? && e.ticker in c.markets ==> Snapshot(e.yes, e.no).Some?
    ensures var b := ApplyEvent(cfg, c, e);
            b.markets == map t | t in c.markets :: MarketAfter(c.markets[t], e, t, cfg.tradeHistory)
  {
    hide ShowBook, MatchResting, DropAll, Settled, Snapshot, Remember;
    if !e.BookConfirm? && e.ticker in c.markets {
      var t, st := e.ticker, c.markets[e.ticker];
      match e
      case BookUpdate(ts, _, yes, no) =>
        ShowMarkets(cfg, InMarket(c, t, st.(book := Snapshot(yes, no), bookTs := Some(ts))), c.Queue(t), Snapshot(yes, no).value);
      case TradeTick(_, _, trade) =>
        MatchMarkets(cfg, InMarket(c, t, st.(lastTrade := Some(trade), trades := Remember(st.trades, trade, cfg.tradeHistory))),
                     c.Queue(t), trade, map[]);
      case MarketClose(_, _) => DropMarkets(InMarket(c, t, st.(closed := true)), c.Queue(t));
      case Settlement(_, _, value) => DropMarkets(InMarket(c, t, st.(closed := true, outcome := Some(value))), c.Queue(t));
    }
  }

  /** Each event leaves every market as the events so far and it say; a market whose book it updates then
      displays the YES levels it sends as YES bids and the NO levels as NO bids. */
  lemma EventFed<S>(cfg: Config, c: Core<S>, events: seq<FeedEvent>, e: FeedEvent)
    requires AllFed(c.markets, events, cfg.tradeHistory) && c.error.None? && ApplyEvent(cfg, c, e).error.None?
    ensures AllFed(ApplyEvent(cfg, c, e).markets, events + [e], cfg.tradeHistory)
    ensures ApplyEvent(cfg, c, e).markets.Keys == c.markets.Keys
    ensures e.BookUpdate? && e.ticker in c.markets ==> Displays(ApplyEvent(cfg, c, e).markets[e.ticker], e)
  {
    BadSnapshotStops(cfg, c, e);
    EventMarkets(cfg, c, e);
    hide ApplyEvent, AsFed, Displays, MarketAfter, Snapshot;
    forall t | t in c.markets
      ensures AsFed(MarketAfter(c.markets[t], e, t, cfg.tradeHistory), events + [e], t, cfg.tradeHistory)
      ensures e.BookUpdate? && e.ticker == t ==> Displays(MarketAfter(c.markets[t], e, t, cfg.tradeHistory), e)
    {
      NextFed(c.markets[t], events, e, t, cfg.tradeHistory);
    }
  }

  lemma BadSnapshotStops<S>(cfg: Config, c: Core<S>, e: FeedEvent)
    ensures e.BookUpdate? && e.ticker in c.markets && Snapshot(e.yes, e.no).None? ==> ApplyEvent(cfg, c, e).error.Some?
  {
    hide ShowBook, MatchResting, DropAll, Settled, Snapshot, Remember;
  }

  // ---------------------------------------------------------------- arriving orders

  lemma DeltaAtMost(b: Book, side: Side, price: Price, qty: Qty, yes: seq<(Price, Qty)>, no: seq<(Price, Qty)>)
    requires b.Valid() && qty > 0 && Delta(b, side, price, -qty).Some? && AtMost(b.yes, yes) && AtMost(b.no, no)
    ensures AtMost(Delta(b, side, price, -qty).value.yes, yes) && AtMost(Delta(b, side, price, -qty).value.no, no)
  {
    var d := Delta(b, side, price, -qty).value;
    LessAtMost(b.yes, d.yes, yes);
    LessAtMost(b.no, d.no, no);
  }

  lemma LessAtMost(m: Bids, n: Bids, levels: seq<(Price, Qty)>)
    requires AtMost(m, levels) && forall p | p in n :: p in m && n[p] <= m[p]
    ensures AtMost(n, levels)
  {
    forall p | p in n
      ensures exists l :: l in levels && l.0 == p && n[p] <= l.1
    {
      var l :| l in levels && l.0 == p && m[p] <= l.1;
    }
  }

  lemma {:induction false} DepleteAtMost(b: Book, side: Side, fills: seq<Fill>, yes: seq<(Price, Qty)>, no: seq<(Price, Qty)>)
    requires b.Valid() && AllPositive(fills) && AtMost(b.yes, yes) && AtMost(b.no, no)
    ensures AtMost(Deplete(b, side, fills).yes, yes) && AtMost(Deplete(b, side, fills).no, no)
    decreases |fills|
  {
    if fills != [] {
      hide AtMost, Delta, Book.Valid;
      var next := Delta(b, side.Opposite(), Complement(fills[0].price), -fills[0].qty);
      if next.Some? {
        DeltaAtMost(b, side.Opposite(), Complement(fills[0].price), fills[0].qty, yes, no);
      }
      DepleteAtMost(if next.Some? then next.value else b, side, fills[1..], yes, no);
    }
  }

  lemma {:induction false} RecordFillsMarkets<S>(
    cfg: Config, c: Core<S>, id: nat, o: Order, fills: seq<Fill>, total: int, left: int, all: Qty)
    ensures RecordFills(cfg, c, id, o, fills, total, left, all).markets == c.markets
    decreases |fills|
  {
    hide LogFill, FeeShare;
    if fills != [] && c.error.None? && id in c.records {
      var fee := FeeShare(total, left, fills[0].qty, all, |fills| == 1);
      var f := FillOf(c.now, id, o, fills[0].price, fills[0].qty, fee, false);
      LogFillMarkets(cfg, c, f);
      RecordFillsMarkets(cfg, LogFill(cfg, c, f), id, o, fills[1..], total, left - fee, all);
    }
  }

  lemma RestMarkets<S>(cfg: Config, c: Core<S>, id: nat, o: Order, remaining: Qty)
    requires id in c.records && o.ticker in c.markets
    ensures Rest(cfg, c, id, o, remaining).markets == c.markets
  {
    hide LevelSize, Share, Notional;
  }

  /** Only the book of its own market can change when an order arrives, and only by what it takes. */
  lemma ArrivalMarkets<S>(cfg: Config, c: Core<S>, id: nat, o: Order)
    requires Dispatchable(c, Arrival(id, o))
    ensures
      var b, fills := OnArrival(cfg, c, id, o), TakerFills(cfg, c, o);
      || b.markets == c.markets
      || (c.markets[o.ticker].book.Some? && c.markets[o.ticker].book.value.Valid()
          && b.markets == c.markets[o.ticker := c.markets[o.ticker].(book := Some(Deplete(c.markets[o.ticker].book.value, o.side, fills)))])
  {
    hide RecordFills, Rest, TakerFills, SumQty, Notional, MapSum, Book.BestAsk, FeeSchedule.OrderFee, Deplete, Book.Valid;
    RestMarkets(cfg, c, id, o, o.qty);
    if Marketable(c.markets[o.ticker], o) {
      var fills := TakerFills(cfg, c, o);
      var fee := cfg.fees.For(o.ticker).OrderFee(fills, false);
      RecordFillsMarkets(cfg, c, id, o, fills, fee, fee, SumQty(fills));
      var taken := Take(cfg, c, id, o, fills);
      if id in taken.records && o.ticker in taken.markets {
        RestMarkets(cfg, taken, id, o, o.qty - SumQty(fills));
      }
    }
  }

  lemma ArrivalFed<S>(cfg: Config, c: Core<S>, id: nat, o: Order, events: seq<FeedEvent>)
    requires AllFed(c.markets, events, cfg.tradeHistory) && Dispatchable(c, Arrival(id, o))
    ensures AllFed(OnArrival(cfg, c, id, o).markets, events, cfg.tradeHistory)
    ensures OnArrival(cfg, c, id, o).markets.Keys == c.markets.Keys
  {
    ArrivalMarkets(cfg, c, id, o);
    hide OnArrival, Dispatchable, ClosedBy, SettledAt, Tape, DatedAt, Deplete, AtMost, Book.Valid, Book.AskLevels, TakerModel.Walk;
    var m := c.markets[o.ticker];
    if m.book.Some? && m.book.value.Valid() {
      var fills := TakerFills(cfg, c, o);
      TakerWithinLimit(cfg.taker, m.book.value.AskLevels(o.side), o.price, o.qty);
      assert AsFed(m, events, o.ticker, cfg.tradeHistory);
      var u := Update(events, o.ticker).value;
      DepleteAtMost(m.book.value, o.side, fills, u.yes, u.no);
    }
  }
}
