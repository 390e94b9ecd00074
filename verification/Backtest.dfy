/** backtest/engine.py as the program runs it: an object whose methods update its fields, each proved to
    do what the step relation of Engine.dfy says. */
module Backtester {
  import opened Units
  import opened MapSums
  import opened OrderBooks
  import opened Fees
  import opened Fills
  import opened Ledger
  import opened Engine
  import opened EngineGrowth
  import opened EngineInvariant
  import opened EngineSafety
  import opened EngineTurns
  import opened SafeRuns

  /** The scheduled messages as a priority queue: least first, all different. */
  ghost predicate InQueueOrder(q: seq<Message>) {
    forall i, j | 0 <= i < j < |q| :: Before(q[i], q[j]) && q[i] != q[j]
  }

  /** Sequence numbers handed out so far. */
  ghost predicate Numbers(q: seq<Message>, sequence: nat) {
    forall i | 0 <= i < |q| :: q[i].sequence <= sequence
  }

  function Scheduled(q: seq<Message>): set<Message> {
    set m | m in q
  }

  lemma FrontIsNext(q: seq<Message>, sequence: nat, now: int)
    requires InQueueOrder(q) && q != [] && HeapOk(Scheduled(q), sequence, now)
    ensures Scheduled(q) != {} && Next(Scheduled(q)) == q[0]
    ensures InQueueOrder(q[1..]) && Scheduled(q[1..]) == Scheduled(q) - {q[0]}
  {
    assert q[0] in Scheduled(q);
    var m := Next(Scheduled(q));
    assert Before(m, q[0]) && Before(q[0], m);
    assert q == [q[0]] + q[1..];
    assert forall i | 0 <= i < |q[1..]| :: q[1..][i] == q[i + 1];
  }

  lemma InsertAt(q: seq<Message>, i: nat, m: Message)
    requires InQueueOrder(q) && i <= |q| && m !in q
    requires i > 0 ==> Before(q[i - 1], m)
    requires forall j | i <= j < |q| :: Before(m, q[j])
    ensures InQueueOrder(q[..i] + [m] + q[i..])
    ensures Scheduled(q[..i] + [m] + q[i..]) == Scheduled(q) + {m}
  {
    var r := q[..i] + [m] + q[i..];
    forall a, b | 0 <= a < b < |r|
      ensures Before(r[a], r[b]) && r[a] != r[b]
    {
      assert r[a] == if a < i then q[a] else if a == i then m else q[a - 1];
      assert r[b] == if b < i then q[b] else if b == i then m else q[b - 1];
      if a < i {
        assert a < i - 1 ==> Before(q[a], q[i - 1]);
        assert Before(q[a], m);
      }
    }
    forall n
      ensures n in r <==> n in q || n == m
    {
      assert q == q[..i] + q[i..];
      assert r[i] == m;
    }
  }

  lemma LogFillRecords<S>(cfg: Config, c: Core<S>, f: FillRecord)
    requires f.orderId in c.records
    ensures f.orderId in LogFill(cfg, c, f).records && LogFill(cfg, c, f).orders == c.orders
  {
    hide Bought, Engine.Schedule;
    ScheduleRecords(BookFill(c, f), c.now + cfg.latencyAck, FILL_NOTICE, Notify(NoticeOf(f)));
  }

  lemma ScheduleRecords<S>(c: Core<S>, ts: int, priority: int, p: Payload)
    ensures var b := Engine.Schedule(c, ts, priority, p); b.records == c.records && b.orders == c.orders
  {
  }

  /** The fills an accepted order takes can be booked, without exception. */
  lemma ArrivalTakes<S>(cfg: Config, c: Core<S>, id: nat, o: Order)
    requires ValidConfig(cfg) && Inv(cfg, c) && c.error.None? && Arrived(c, id, o) && c.records[id].filled == 0
    requires o.ticker in c.markets && c.markets[o.ticker].Open() && o.qty > 0 && ValidPrice(o.price)
    requires c.account.cash - MapSum(c.reserved) >= Notional(o.price, o.qty) && Marketable(c.markets[o.ticker], o)
    ensures Sane(TakerFills(cfg, c, o)) && c.markets[o.ticker].book.value.Valid()
    ensures var b := Take(cfg, c, id, o, TakerFills(cfg, c, o));
            b.error.None? && id in b.records && o.ticker in b.markets
  {
    hide Inv, Notional, NotPending, Take, TakerFills, SumQty, Book.BestAsk, MoneyOk, Book.Valid;
    InvBase(cfg, c);
    BookOf(cfg, c, o.ticker);
    OpenUnsettled(cfg, c, o.ticker);
    TakenParts(cfg, c, o);
    NotionalOrder(o.price, o.price, o.qty);
    SetAside(cfg, c, o);
    TakeKeeps(cfg, c, id, o, TakerFills(cfg, c, o), Notional(o.price, o.qty));
  }

  lemma InvHeapOk<S>(cfg: Config, c: Core<S>)
    requires Inv(cfg, c)
    ensures HeapOk(c.heap, c.sequence, c.now)
  {
  }

  /** A state and a feed the engine can be run on. */
  ghost predicate Fit<S>(cfg: Config, w: World<S>) {
    Inv(cfg, w.core) && ValidFeed(w.feed)
  }

  lemma StepFits<S>(cfg: Config, strat: Strategy<S>, w: World<S>)
    requires ValidConfig(cfg) && Fit(cfg, w)
    ensures Fit(cfg, Step(cfg, strat, w))
  {
    hide Inv, FeedTurn, HeapTurn, ValidEvent;
    if !Finished(w) {
      if Ahead(w.feed, w.core.now) {
        StepKeeps(cfg, strat, w);
      } else if TakesFeed(w) {
        FailInv(cfg, w.core, FeedBackwards);
        RestOfFeed(w.feed, 1);
      } else {
        HeapTurnKeeps(cfg, strat, w.core, Next(w.core.heap));
      }
    }
  }

  lemma FailInv<S>(cfg: Config, c: Core<S>, e: Error)
    requires Inv(cfg, c)
    ensures Inv(cfg, Fail(c, e))
  {
    FailKeeps(cfg, c, e);
    hide Base;
  }

  lemma TurnIs<S>(cfg: Config, strat: Strategy<S>, c: Core<S>, m: Message)
    ensures HeapTurn(cfg, strat, c, m) == Dispatch(cfg, strat, c.(now := m.ts, heap := c.heap - {m}), m.payload)
  {
  }

  class Backtest<S> {
    const cfg: Config
    const strategy: Strategy<S>
    const portfolio: Portfolio
    var now: int
    var sequence: nat
    var heap: seq<Message>
    var markets: map<Ticker, MarketState>
    var orders: map<nat, Resting>
    var queues: map<Ticker, seq<nat>>
    var desks: seq<Ticker>
    var reserved: map<nat, int>
    var records: map<nat, OrderRecord>
    var fillLog: seq<FillRecord>
    var nextId: nat
    var state: S
    var error: Option<Error>

    ghost function Value(): Core<S>
      reads this, portfolio
    {
      Core(now, sequence, Scheduled(heap), markets, portfolio.Value(), orders, queues, desks, reserved, records,
           fillLog, nextId, state, error)
    }

    ghost predicate Valid()
      reads this, portfolio
    {
      InQueueOrder(heap) && Numbers(heap, sequence) && portfolio.Valid()
    }

    constructor (cfg: Config, tickers: set<Ticker>, strategy: Strategy<S>, initial: S)
      ensures this.cfg == cfg && this.strategy == strategy && fresh(portfolio)
      ensures Valid() && Value() == Initial(cfg, tickers, initial)
    {
      this.cfg, this.strategy := cfg, strategy;
      portfolio := new Portfolio(cfg.initialCash);
      now, sequence, heap := 0, 0, [];
      markets := map t | t in tickers :: MarketState(None, None, None, [], false, None);
      orders, queues, desks, reserved := map[], map[], [], map[];
      records, fillLog, nextId := map[], [], 1;
      state, error := initial, None;
    }

    // -------------------------------------------------------------- scheduling

    method Push(m: Message)
      requires InQueueOrder(heap) && m !in heap
      modifies this`heap
      ensures InQueueOrder(heap) && Scheduled(heap) == Scheduled(old(heap)) + {m}
      ensures forall n :: n in heap <==> n in old(heap) || n == m
    {
      var i := |heap|;
      while i > 0 && !Before(heap[i - 1], m)
        invariant 0 <= i <= |heap|
        invariant forall j | i <= j < |heap| :: Before(m, heap[j])
      {
        i := i - 1;
      }
      InsertAt(heap, i, m);
      heap := heap[..i] + [m] + heap[i..];
    }

    method Schedule(ts: int, priority: int, payload: Payload)
      requires Valid()
      modifies this
      ensures Valid() && Value() == Engine.Schedule(old(Value()), ts, priority, payload)
    {
      if ts < now {
        error := Some(PastSchedule);
        return;
      }
      sequence := sequence + 1;
      Push(Message(ts, priority, sequence, payload));
      assert forall i | 0 <= i < |heap| :: heap[i] in heap;
    }

    method Submit(o: Order)
      requires Valid()
      modifies this
      ensures Valid() && Value() == Engine.Submit(cfg, old(Value()), o)
    {
      if o.ticker !in markets {
        error := Some(UnknownMarket);
        return;
      }
      var id := nextId;
      nextId := nextId + 1;
      var arrival := now + cfg.latencySubmit;
      records := records[id := OrderRecord(now, arrival, o, SUBMITTED, 0)];
      Schedule(arrival, ORDER_ARRIVAL, Arrival(id, o));
    }

    method RequestCancel(id: nat)
      requires Valid()
      modifies this
      ensures Valid() && Value() == Perform(cfg, old(Value()), Cancel(id))
    {
      Schedule(now + cfg.latencyCancel, CANCEL_ARRIVAL, Cancellation(id));
    }

    /** The strategy's requests in turn; the first exception leaves the rest undone. */
    method Carry(acts: seq<Action>)
      requires Valid()
      modifies this
      ensures Valid() && Value() == PerformAll(cfg, old(Value()), acts)
    {
      hide Perform, Engine.Submit, Engine.Schedule;
      var i := 0;
      assert acts[0..] == acts;
      while i < |acts| && error.None?
        invariant 0 <= i <= |acts| && Valid()
        invariant PerformAll(cfg, Value(), acts[i..]) == PerformAll(cfg, old(Value()), acts)
      {
        assert acts[i..][0] == acts[i] && acts[i..][1..] == acts[i + 1..];
        CarryOne(acts[i]);
        i := i + 1;
      }
    }

    method CarryOne(a: Action)
      requires Valid()
      modifies this
      ensures Valid() && Value() == Perform(cfg, old(Value()), a)
    {
      hide Engine.Submit, Engine.Schedule;
      match a
      case Place(o) => Submit(o);
      case Cancel(id) => RequestCancel(id);
      case WakeAt(ts, tag, t) => Schedule(ts, WAKE, Notify(Wake(tag, t)));
    }

    /** `strategy.on_event(ctx, ...)`. */
    method CallStrategy(s: Stimulus)
      requires Valid()
      modifies this
      ensures Valid() && Value() == Tell(cfg, strategy, old(Value()), s)
    {
      var view := View(now, markets, portfolio.positions, portfolio.cash, orders, queues, desks, reserved, nextId);
      var (next, acts) := strategy(state, view, s);
      state := next;
      Carry(acts);
    }

    // -------------------------------------------------------------- resting orders

    method RemoveResting(id: nat)
      requires Valid() && id in orders
      modifies this
      ensures Valid() && Value() == Engine.RemoveResting(old(Value()), id)
    {
      var t := orders[id].ticker;
      var kept := Keep(if t in queues then queues[t] else [], id);
      queues := queues[t := kept];
      orders, reserved := orders - {id}, reserved - {id};
    }

    /** The list comprehension that drops one order. */
    method Keep(q: seq<nat>, id: nat) returns (kept: seq<nat>)
      ensures kept == Without(q, id)
    {
      kept := [];
      for i := 0 to |q|
        invariant kept == Without(q[..i], id)
      {
        assert q[..i + 1][..i] == q[..i];
        if q[i] != id {
          kept := kept + [q[i]];
        }
      }
      assert q[..|q|] == q;
    }

    method DropResting(id: nat)
      requires Valid() && id in orders && id in records
      modifies this
      ensures Valid() && Value() == Engine.DropResting(old(Value()), id)
    {
      hide Engine.RemoveResting;
      var rec := records[id];
      records := records[id := rec.(status := if rec.filled != 0 then PARTIAL else CANCELLED)];
      RemoveResting(id);
    }

    method DropListed(ids: seq<nat>)
      requires Valid()
      modifies this
      ensures Valid() && Value() == DropAll(old(Value()), ids)
    {
      hide Engine.DropResting;
      var i := 0;
      assert ids[0..] == ids;
      while i < |ids|
        invariant 0 <= i <= |ids| && Valid()
        invariant DropAll(Value(), ids[i..]) == DropAll(old(Value()), ids)
      {
        assert ids[i..][0] == ids[i] && ids[i..][1..] == ids[i + 1..];
        if ids[i] in orders && ids[i] in records {
          DropResting(ids[i]);
        }
        i := i + 1;
      }
      assert ids[i..] == [];
    }

    method SumReserved() returns (total: int)
      ensures total == MapSum(reserved)
    {
      total := 0;
      var rest := reserved;
      while rest != map[]
        invariant total + MapSum(rest) == MapSum(reserved)
        decreases |rest|
      {
        var id :| id in rest;
        TakeOut(rest, id);
        total := total + rest[id];
        rest := rest - {id};
      }
    }

    // -------------------------------------------------------------- fills

    method BookFill(f: FillRecord)
      requires Valid() && f.orderId in records && 0 <= f.price <= PRICE_SCALE && f.qty >= 0
      modifies this, portfolio
      ensures Valid() && Value() == LogFill(cfg, old(Value()), f)
    {
      hide Bought, Engine.Schedule;
      var ok := portfolio.Buy(f.ticker, f.side, f.price, f.qty, f.fee);
      if !ok {
        error := Some(MarketSettled);
        return;
      }
      fillLog := fillLog + [f];
      var rec := records[f.orderId];
      records := records[f.orderId := rec.(filled := rec.filled + f.qty)];
      Schedule(now + cfg.latencyAck, FILL_NOTICE, Notify(NoticeOf(f)));
    }

    /** The engine's own loop over an arriving order's fills: floored shares of the fee, the rest last. */
    method RecordFills(id: nat, o: Order, fills: seq<Fill>, total: int)
      requires Valid() && id in records && Sane(fills) && error.None?
      modifies this, portfolio
      ensures Valid()
      ensures Value() == Engine.RecordFills(cfg, old(Value()), id, o, fills, total, total, SumQty(fills))
    {
      hide LogFill, FeeShare;
      var all, left := SumQty(fills), total;
      var i := 0;
      assert fills[0..] == fills;
      while i < |fills| && error.None?
        invariant 0 <= i <= |fills| && Valid() && id in records
        invariant Engine.RecordFills(cfg, Value(), id, o, fills[i..], total, left, all)
               == Engine.RecordFills(cfg, old(Value()), id, o, fills, total, total, all)
      {
        assert fills[i..][0] == fills[i] && fills[i..][1..] == fills[i + 1..];
        var fee := FeeShare(total, left, fills[i].qty, all, i == |fills| - 1);
        left := left - fee;
        LogFillRecords(cfg, Value(), FillOf(now, id, o, fills[i].price, fills[i].qty, fee, false));
        BookFill(FillOf(now, id, o, fills[i].price, fills[i].qty, fee, false));
        i := i + 1;
      }
    }

    method FillMaker(id: nat, fill: Qty)
      requires Valid() && id in orders && id in records && ValidPrice(orders[id].price) && error.None?
      modifies this, portfolio
      ensures Valid() && Value() == MakerFill(cfg, old(Value()), id, fill)
    {
      hide LogFill, Engine.RemoveResting, FeeSchedule.OrderFee, Notional;
      var o := orders[id];
      var qty := Min(fill, o.qty);
      if qty <= 0 {
        return;
      }
      var fee := cfg.fees.For(o.ticker).OrderFee([Fill(o.price, qty)], true);
      LogFillRecords(cfg, Value(), MakerRecord(cfg, Value(), id, o, qty));
      BookFill(FillRecord(now, id, o.ticker, o.side, o.price, qty, fee, true, o.tag));
      if error.Some? {
        return;
      }
      o := o.(qty := o.qty - qty, filled := o.filled + qty);
      orders := orders[id := o];
      reserved := reserved[id := Notional(o.price, o.qty)];
      records := records[id := records[id].(status := if o.qty == 0 then FILLED else PARTIAL)];
      if o.qty == 0 {
        RemoveResting(id);
      }
    }

    /** Each resting order in turn sees the print; orders at its price share its count. */
    method MatchResting(t: Ticker, trade: Trade)
      requires Valid() && ValidConfig(cfg) && Inv(cfg, Value()) && error.None?
      modifies this, portfolio
      ensures Valid() && Value() == Engine.MatchResting(cfg, old(Value()), old(Value()).Queue(t), trade, map[])
    {
      hide Inv, MakerFill, QueueModel.OnTrade;
      var ids := if t in queues then queues[t] else [];
      var budget: Budget := map[];
      var i := 0;
      assert ids[0..] == ids;
      while i < |ids|
        invariant 0 <= i <= |ids| && Valid() && Inv(cfg, Value()) && error.None?
        invariant Engine.MatchResting(cfg, Value(), ids[i..], trade, budget)
               == Engine.MatchResting(cfg, old(Value()), ids, trade, map[])
      {
        assert ids[i..][0] == ids[i] && ids[i..][1..] == ids[i + 1..];
        if ids[i] in orders && ids[i] in records {
          var o := orders[ids[i]];
          var px := TradePrice(o.side, trade);
          HoldingPrintOn(cfg, o, trade, budget);
          var hit;
          if px == o.price {
            var key := (o.side, px);
            var b := if key in budget then budget[key] else trade.count;
            hit := cfg.maker.OnTrade(o, trade.(count := b));
            budget := budget[key := Max(0, b - hit.1 - (o.ahead - hit.0.ahead))];
          } else {
            hit := cfg.maker.OnTrade(o, trade);
          }
          HitOrder(ids[i], hit.0, hit.1);
        }
        i := i + 1;
      }
    }

    /** The order object's new queue position, and its fill if the model gave one. */
    method HitOrder(id: nat, o: Resting, fill: Qty)
      requires Valid() && ValidConfig(cfg) && Inv(cfg, Value()) && error.None?
      requires id in orders && id in records && SameHolding(orders[id], o)
      modifies this, portfolio
      ensures Valid() && Value() == Hit(cfg, old(Value()), id, o, fill)
      ensures Inv(cfg, Value()) && error.None?
    {
      HitKeeps(cfg, Value(), id, o, fill);
      OnRecord(cfg, Value(), id);
      hide Inv, MakerFill;
      orders := orders[id := o];
      if fill != 0 {
        FillMaker(id, fill);
      }
    }

    // -------------------------------------------------------------- feed events

    method ShowBook(t: Ticker, book: Book)
      requires Valid() && ValidConfig(cfg) && Inv(cfg, Value()) && error.None?
      modifies this, portfolio
      ensures Valid() && Value() == Engine.ShowBook(cfg, old(Value()), old(Value()).Queue(t), book)
    {
      hide Inv, MakerFill, Hit, QueueModel.OnBook;
      var ids := if t in queues then queues[t] else [];
      var i := 0;
      assert ids[0..] == ids;
      while i < |ids|
        invariant 0 <= i <= |ids| && Valid() && Inv(cfg, Value()) && error.None?
        invariant Engine.ShowBook(cfg, Value(), ids[i..], book) == Engine.ShowBook(cfg, old(Value()), ids, book)
      {
        assert ids[i..][0] == ids[i] && ids[i..][1..] == ids[i + 1..];
        if ids[i] in orders && ids[i] in records {
          var hit := cfg.maker.OnBook(orders[ids[i]], book);
          HoldingOnBook(cfg.maker, orders[ids[i]], book);
          HitOrder(ids[i], hit.0, hit.1);
        }
        i := i + 1;
      }
    }

    /** Every book a poll found unchanged is current as of now. */
    method ConfirmBooks(ts: int, t: Ticker)
      requires Valid()
      modifies this
      ensures Valid() && Value() == old(Value()).(markets := Confirm(old(markets), ts, t))
    {
      var rest := markets.Keys;
      ghost var before := markets;
      while rest != {}
        invariant rest <= markets.Keys == before.Keys && Valid()
        invariant forall k | k in before :: markets[k] == if k in rest then before[k] else Confirm(before, ts, t)[k]
        invariant Value() == old(Value()).(markets := markets)
        decreases |rest|
      {
        var k :| k in rest;
        if markets[k].book.Some? && (t == "" || t == k) {
          markets := markets[k := markets[k].(bookTs := Some(ts))];
        }
        rest := rest - {k};
      }
      assert markets == Confirm(before, ts, t);
    }

    method ApplyFeed(ev: FeedEvent)
      requires Valid() && ValidConfig(cfg) && Inv(cfg, Value()) && error.None? && ValidEvent(ev)
      modifies this, portfolio
      ensures Valid() && Value() == ApplyEvent(cfg, old(Value()), ev)
    {
      hide Inv, Engine.ShowBook, Engine.MatchResting, DropAll, Settled, Confirm, Snapshot, Remember;
      if ev.BookConfirm? {
        ConfirmBooks(ev.ts, ev.ticker);
        return;
      }
      if ev.ticker !in markets {
        return;
      }
      var t := ev.ticker;
      var st := markets[t];
      ghost var before := Value();
      match ev
      case BookUpdate(ts, _, yes, no) =>
        var shown := new OrderBook();
        var ok := shown.ApplySnapshot(yes, no);
        if !ok {
          error := Some(BadSnapshot);
          return;
        }
        var m := st.(book := Some(Book(shown.bids[YES], shown.bids[NO])), bookTs := Some(ts));
        DataKeeps(cfg, before, t, m);
        markets := markets[t := m];
        assert Value() == InMarket(before, t, m);
        ShowBook(t, m.book.value);
      case TradeTick(_, _, trade) =>
        var m := st.(lastTrade := Some(trade), trades := Remember(st.trades, trade, cfg.tradeHistory));
        InvBase(cfg, before);
        BookOf(cfg, before, t);
        DataKeeps(cfg, before, t, m);
        markets := markets[t := m];
        assert Value() == InMarket(before, t, m);
        MatchResting(t, trade);
      case MarketClose(_, _) =>
        markets := markets[t := st.(closed := true)];
        assert Value() == InMarket(before, t, st.(closed := true));
        DropListed(if t in queues then queues[t] else []);
      case Settlement(_, _, value) =>
        markets := markets[t := st.(closed := true, outcome := Some(value))];
        assert Value() == InMarket(before, t, st.(closed := true, outcome := Some(value)));
        DropListed(if t in queues then queues[t] else []);
        var pnl := portfolio.Settle(t, value);
    }

    method NotifyFeed(ev: FeedEvent)
      requires Valid()
      modifies this
      ensures Valid() && Value() == Engine.NotifyFeed(cfg, strategy, old(Value()), ev)
    {
      if ev.BookConfirm? || ev.ticker in markets {
        CallStrategy(Feed(ev));
      }
    }

    // -------------------------------------------------------------- scheduled messages

    method Refuse(id: nat)
      requires Valid() && id in records
      modifies this
      ensures Valid() && Value() == Reject(cfg, old(Value()), id)
    {
      hide Engine.Schedule;
      var rec := records[id];
      records := records[id := rec.(status := REJECTED)];
      Schedule(now + cfg.latencyAck, FILL_NOTICE, Notify(Rejected(id, rec.order.tag)));
    }

    /** What a marketable order takes from the book as it now stands. */
    method TakeFrom(m: MarketState, o: Order) returns (fills: seq<Fill>)
      requires o.ticker in markets && m == markets[o.ticker]
      ensures fills == TakerFills(cfg, Value(), o)
    {
      if m.book.None? || m.bookTs.None? {
        return [];
      }
      if cfg.taker.maxStaleness.Some? && now - m.bookTs.value > cfg.taker.maxStaleness.value {
        return [];
      }
      fills := cfg.taker.ExecuteLoop(m.book.value.AskLevels(o.side), o.price, o.qty);
    }

    /** `apply_taker_fills_to_book`: a fill the book does not show is passed over. */
    method TakeOff(b: Book, side: Side, fills: seq<Fill>) returns (left: Book)
      requires b.Valid()
      ensures left == Deplete(b, side, fills)
    {
      hide Delta, Book.Valid;
      left := b;
      var i := 0;
      assert fills[0..] == fills;
      while i < |fills|
        invariant 0 <= i <= |fills| && left.Valid()
        invariant Deplete(left, side, fills[i..]) == Deplete(b, side, fills)
      {
        assert fills[i..][0] == fills[i] && fills[i..][1..] == fills[i + 1..];
        var next := Delta(left, side.Opposite(), Complement(fills[i].price), -fills[i].qty);
        if next.Some? {
          left := next.value;
        }
        i := i + 1;
      }
    }

    method Mark(id: nat, status: Status)
      requires Valid() && id in records
      modifies this
      ensures Valid() && Value() == WithStatus(old(Value()), id, status)
    {
      records := records[id := records[id].(status := status)];
    }

    method Enlist(r: Resting)
      requires Valid()
      modifies this
      ensures Valid() && Value() == Enqueue(old(Value()), r)
    {
      hide Notional;
      orders := orders[r.id := r];
      desks := if r.ticker in queues then desks else desks + [r.ticker];
      queues := queues[r.ticker := (if r.ticker in queues then queues[r.ticker] else []) + [r.id]];
      reserved := reserved[r.id := Notional(r.price, r.qty)];
    }

    method RestOrder(id: nat, o: Order, remaining: Qty)
      requires Valid() && id in records && o.ticker in markets
      modifies this
      ensures Valid() && Value() == Rest(cfg, old(Value()), id, o, remaining)
    {
      hide QueueModel.OnPlace, WithStatus, Enqueue;
      if remaining <= 0 {
        Mark(id, FILLED);
      } else if o.tif.IOC? {
        Mark(id, if records[id].filled != 0 then PARTIAL else EXPIRED);
      } else {
        var s := if records[id].filled == 0 then RESTING else PARTIAL;
        EnqueueParts(Value(), cfg.maker.OnPlace(
          Resting(id, o.ticker, o.side, o.price, remaining, o.qty, now, o.tag, 0, 0, 0, o.qty - remaining),
          markets[o.ticker].book));
        Enlist(cfg.maker.OnPlace(
          Resting(id, o.ticker, o.side, o.price, remaining, o.qty, now, o.tag, 0, 0, 0, o.qty - remaining),
          markets[o.ticker].book));
        Mark(id, s);
      }
    }

    /** The fills of an arriving order, booked and taken off the displayed book. */
    method TakeFills(id: nat, o: Order, fills: seq<Fill>)
      requires Valid() && id in records && Sane(fills) && error.None?
      requires o.ticker in markets && markets[o.ticker].book.Some? && markets[o.ticker].book.value.Valid()
      modifies this, portfolio
      ensures Valid() && Value() == Take(cfg, old(Value()), id, o, fills)
    {
      hide Engine.RecordFills, FeeSchedule.OrderFee, Deplete, Book.Valid, SumQty;
      if fills == [] {
        return;
      }
      var m := markets[o.ticker];
      RecordFills(id, o, fills, cfg.fees.For(o.ticker).OrderFee(fills, false));
      if error.Some? {
        return;
      }
      var left := TakeOff(m.book.value, o.side, fills);
      markets := markets[o.ticker := m.(book := Some(left))];
    }

    method Arrive(id: nat, o: Order)
      requires Valid() && ValidConfig(cfg) && Inv(cfg, Value()) && error.None?
      requires Arrived(Value(), id, o) && records[id].filled == 0 && Dispatchable(Value(), Arrival(id, o))
      modifies this, portfolio
      ensures Valid() && Value() == OnArrival(cfg, old(Value()), id, o)
    {
      hide Inv, Reject, Rest, Take, TakerFills, MapSum, Notional, NotPending, Book.Valid, Book.BestAsk, SumQty;
      ghost var before := Value();
      var m := markets[o.ticker];
      if m.closed || m.outcome.Some? {
        Refuse(id);
        return;
      }
      if o.qty <= 0 || !ValidPrice(o.price) {
        Refuse(id);
        return;
      }
      var held := SumReserved();
      if portfolio.cash - held < Notional(o.price, o.qty) {
        Refuse(id);
        return;
      }
      var remaining := o.qty;
      if m.book.Some? && m.book.value.BestAsk(o.side).Some? && m.book.value.BestAsk(o.side).value.price <= o.price {
        if o.tif.POST_ONLY? {
          Refuse(id);
          return;
        }
        var fills := TakeFrom(m, o);
        ArrivalTakes(cfg, before, id, o);
        TakeFills(id, o, fills);
        remaining := remaining - SumQty(fills);
      }
      RestOrder(id, o, remaining);
    }

    method DispatchScheduled(p: Payload)
      requires Valid() && ValidConfig(cfg) && Inv(cfg, Value()) && error.None?
      requires p.Arrival? ==>
                 Arrived(Value(), p.orderId, p.order) && records[p.orderId].filled == 0 && Dispatchable(Value(), p)
      modifies this, portfolio
      ensures Valid() && Value() == Dispatch(cfg, strategy, old(Value()), p)
    {
      hide Inv, OnArrival, Tell, Engine.DropResting, Dispatchable, Arrived;
      match p
      case Arrival(id, o) => Arrive(id, o);
      case Cancellation(id) =>
        if id in orders && id in records {
          DropResting(id);
        }
      case Notify(n) => CallStrategy(Noticed(n));
    }

    // -------------------------------------------------------------- the main loop

    /** All events stamped with the instant of the first: applied before the strategy sees any. */
    method FeedBatch(batch: seq<FeedEvent>, ts: int)
      requires Valid() && ValidConfig(cfg) && Inv(cfg, Value()) && error.None?
      requires now <= ts && forall m | m in heap :: ts <= m.ts
      requires forall i | 0 <= i < |batch| :: ValidEvent(batch[i])
      modifies this, portfolio
      ensures Valid() && Value() == FeedTurn(cfg, strategy, old(Value()), ts, batch)
    {
      ghost var before := Value();
      Advance(cfg, before, ts);
      hide Inv, ApplyEvent, Engine.NotifyFeed, ValidEvent;
      now := ts;
      ghost var at := Value();
      var i := 0;
      assert batch[0..] == batch;
      while i < |batch| && error.None?
        invariant 0 <= i <= |batch| && Valid() && Inv(cfg, Value())
        invariant error in {None, Some(BadSnapshot)}
        invariant ApplyAll(cfg, Value(), batch[i..]) == ApplyAll(cfg, at, batch)
      {
        assert batch[i..][0] == batch[i] && batch[i..][1..] == batch[i + 1..];
        EventKeeps(cfg, Value(), batch[i]);
        ApplyFeed(batch[i]);
        i := i + 1;
      }
      ghost var applied := Value();
      assert applied == ApplyAll(cfg, at, batch);
      i := 0;
      while i < |batch| && error.None?
        invariant 0 <= i <= |batch| && Valid()
        invariant NotifyAll(cfg, strategy, Value(), batch[i..]) == NotifyAll(cfg, strategy, applied, batch)
      {
        assert batch[i..][0] == batch[i] && batch[i..][1..] == batch[i + 1..];
        NotifyFeed(batch[i]);
        i := i + 1;
      }
    }

    method Instant(feed: seq<FeedEvent>, ts: int) returns (n: nat)
      ensures n == Simultaneous(feed, ts) <= |feed|
    {
      n := 0;
      assert feed[0..] == feed;
      while n < |feed| && feed[n].ts == ts
        invariant n <= |feed| && n + Simultaneous(feed[n..], ts) == Simultaneous(feed, ts)
      {
        assert feed[n..][0] == feed[n] && feed[n..][1..] == feed[n + 1..];
        n := n + 1;
      }
    }

    /** The earliest instant of the feed, or the exception it raises if that is in the past. */
    method TakeFeed(feed: seq<FeedEvent>) returns (rest: seq<FeedEvent>)
      requires Valid() && ValidConfig(cfg) && Fit(cfg, World(Value(), feed)) && !Finished(World(Value(), feed))
      requires TakesFeed(World(Value(), feed))
      modifies this, portfolio
      ensures Valid() && World(Value(), rest) == Step(cfg, strategy, World(old(Value()), feed))
    {
      hide Inv, FeedTurn, HeapTurn, ValidEvent;
      var ts := feed[0].ts;
      if ts < now {
        error := Some(FeedBackwards);
        return feed[1..];
      }
      var n := Instant(feed, ts);
      assert forall m | m in heap :: ts <= m.ts by {
        forall m | m in heap
          ensures ts <= m.ts
        {
          assert m in Scheduled(heap) && Before(Next(Scheduled(heap)), m);
        }
      }
      FeedBatch(feed[..n], ts);
      return feed[n..];
    }

    method TakeMessage(ghost feed: seq<FeedEvent>)
      requires Valid() && ValidConfig(cfg) && Fit(cfg, World(Value(), feed)) && !Finished(World(Value(), feed))
      requires !TakesFeed(World(Value(), feed)) && heap != [] && Next(Scheduled(heap)) == heap[0]
      requires InQueueOrder(heap[1..]) && Scheduled(heap[1..]) == Scheduled(heap) - {heap[0]}
      modifies this, portfolio
      ensures Valid() && World(Value(), feed) == Step(cfg, strategy, World(old(Value()), feed))
    {
      hide Inv, FeedTurn, HeapTurn, ValidEvent, Dispatch, Dispatchable, Arrived;
      ghost var c := Value();
      var m := heap[0];
      Pop(cfg, c, m);
      heap := heap[1..];
      now := m.ts;
      assert Value() == c.(now := m.ts, heap := c.heap - {m});
      assert HeapTurn(cfg, strategy, c, m) == Dispatch(cfg, strategy, Value(), m.payload) by { TurnIs(cfg, strategy, c, m); }
      DispatchScheduled(m.payload);
    }

    /** One turn: the next instant of the feed, or the next scheduled message. */
    method Turn(feed: seq<FeedEvent>) returns (rest: seq<FeedEvent>)
      requires Valid() && ValidConfig(cfg) && Fit(cfg, World(Value(), feed)) && !Finished(World(Value(), feed))
      modifies this, portfolio
      ensures Valid() && World(Value(), rest) == Step(cfg, strategy, World(old(Value()), feed))
    {
      InvHeapOk(cfg, Value());
      hide Inv, Step, ValidFeed, HeapOk;
      if heap != [] {
        FrontIsNext(heap, sequence, now);
      } else {
        assert Scheduled(heap) == {};
      }
      if feed != [] && (heap == [] || feed[0].ts < heap[0].ts
                        || (feed[0].ts == heap[0].ts && feed[0].Priority() <= heap[0].priority)) {
        rest := TakeFeed(feed);
      } else {
        TakeMessage(feed);
        rest := feed;
      }
    }

    /** The replay, for up to `limit` turns: a strategy may keep waking itself for ever. */
    method Run(feed: seq<FeedEvent>, limit: nat) returns (rest: seq<FeedEvent>, turns: nat)
      requires Valid() && ValidConfig(cfg) && Fit(cfg, World(Value(), feed))
      modifies this, portfolio
      ensures Valid() && turns <= limit
      ensures World(Value(), rest) == Engine.Run(cfg, strategy, World(old(Value()), feed), turns)
      ensures turns == limit || Finished(World(Value(), rest))
    {
      hide Fit, Step;
      ghost var w := World(Value(), feed);
      rest, turns := feed, 0;
      while turns < limit && error.None? && (rest != [] || heap != [])
        invariant turns <= limit && Valid() && Fit(cfg, World(Value(), rest))
        invariant World(Value(), rest) == Engine.Run(cfg, strategy, w, turns)
      {
        assert heap != [] ==> heap[0] in Scheduled(heap);
        StepFits(cfg, strategy, World(Value(), rest));
        rest := Turn(rest);
        turns := turns + 1;
      }
      assert heap == [] ==> Scheduled(heap) == {};
    }

    /** The whole run from a new engine: the strategy's start, then the replay. */
    method Start()
      requires Valid() && ValidConfig(cfg) && Inv(cfg, Value())
      modifies this
      ensures Valid() && Value() == Tell(cfg, strategy, old(Value()), Stimulus.Start) && Inv(cfg, Value())
    {
      TellKeeps(cfg, strategy, Value(), Stimulus.Start);
      hide Inv, Tell;
      CallStrategy(Stimulus.Start);
    }
  }

  /** `run_backtest`: a new engine replays a feed; its state is the one the step relation reaches. */
  method RunBacktest<S>(cfg: Config, tickers: set<Ticker>, strategy: Strategy<S>, initial: S, feed: seq<FeedEvent>, limit: nat)
    returns (engine: Backtest<S>, turns: nat)
    requires ValidConfig(cfg) && ValidFeed(feed)
    ensures fresh(engine) && fresh(engine.portfolio) && turns <= limit
    ensures engine.Value() == Reached(cfg, strategy, tickers, initial, feed, turns)
    ensures turns < limit ==> Finished(Engine.Run(cfg, strategy, Begin(cfg, strategy, tickers, initial, feed), turns))
  {
    hide Inv, Tell, Engine.Run, ValidFeed, Initial;
    engine := new Backtest(cfg, tickers, strategy, initial);
    InitialInv(cfg, tickers, initial);
    engine.Start();
    var rest;
    rest, turns := engine.Run(feed, limit);
  }
}
