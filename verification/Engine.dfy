/** backtest/engine.py (with feed.py and events.py): the replay as a step relation over the engine's
    state, for an arbitrary deterministic strategy.  The imperative engine is in Backtest.dfy. */
module Engine {
  import opened Units
  import opened MapSums
  import opened Sorting
  import opened OrderBooks
  import opened Fees
  import opened Fills
  import opened Ledger

  // ---------------------------------------------------------------- events and messages

  datatype FeedEvent =
    | BookUpdate(ts: int, ticker: Ticker, yes: seq<(Price, Qty)>, no: seq<(Price, Qty)>)
    | BookConfirm(ts: int, ticker: Ticker)
    | TradeTick(ts: int, ticker: Ticker, trade: Trade)
    | MarketClose(ts: int, ticker: Ticker)
    | Settlement(ts: int, ticker: Ticker, value: Price)
  {
    function Priority(): int {
      match this
      case Settlement(_, _, _) => 0
      case MarketClose(_, _) => 1
      case BookUpdate(_, _, _, _) => 2
      case BookConfirm(_, _) => 2
      case TradeTick(_, _, _) => 3
    }
  }

  const ORDER_ARRIVAL: int := 4
  const CANCEL_ARRIVAL: int := 5
  const FILL_NOTICE: int := 6
  const WAKE: int := 7

  datatype Tif = IOC | GTC | POST_ONLY

  datatype Order = Order(ticker: Ticker, side: Side, price: Price, qty: Qty, tif: Tif, tag: string)

  datatype Notice =
    | Filled(execTs: int, orderId: nat, ticker: Ticker, side: Side, price: Price, qty: Qty, fee: int, maker: bool, tag: string)
    | Rejected(orderId: nat, tag: string)
    | Wake(tag: string, ticker: Ticker)

  datatype Payload = Arrival(orderId: nat, order: Order) | Cancellation(orderId: nat) | Notify(notice: Notice)

  datatype Message = Message(ts: int, priority: int, sequence: nat, payload: Payload)

  datatype Status = SUBMITTED | REJECTED | FILLED | PARTIAL | RESTING | CANCELLED | EXPIRED

  datatype OrderRecord = OrderRecord(submittedTs: int, arrivalTs: int, order: Order, status: Status, filled: Qty)

  datatype FillRecord = FillRecord(
    execTs: int, orderId: nat, ticker: Ticker, side: Side, price: Price, qty: Qty, fee: int, maker: bool, tag: string)

  datatype MarketState = MarketState(
    book: Option<Book>, bookTs: Option<int>, lastTrade: Option<Trade>, trades: seq<Trade>,
    closed: bool, outcome: Option<Price>)
  {
    predicate Open() {
      !closed && outcome.None?
    }
  }

  datatype Config = Config(
    initialCash: int, latencySubmit: int, latencyAck: int, latencyCancel: int,
    taker: TakerModel, maker: QueueModel, fees: FeeBook, tradeHistory: nat)

  /** What stops a run: the exceptions the engine and its parts raise. */
  datatype Error = PastSchedule | UnknownMarket | BadSnapshot | FeedBackwards | MarketSettled

  /** The engine's state.  `orders` holds the resting-order objects by identity, `queues` each market's
      list of them in arrival order, `desks` the markets that ever had one, oldest first, and `heap`
      the scheduled messages. */
  datatype Core<S> = Core(
    now: int, sequence: nat, heap: set<Message>, markets: map<Ticker, MarketState>, account: Account,
    orders: map<nat, Resting>, queues: map<Ticker, seq<nat>>, desks: seq<Ticker>, reserved: map<nat, int>,
    records: map<nat, OrderRecord>, fillLog: seq<FillRecord>, nextId: nat, strategy: S, error: Option<Error>)
  {
    function Queue(t: Ticker): seq<nat> {
      if t in queues then queues[t] else []
    }
  }

  // ---------------------------------------------------------------- the strategy's window

  /** Everything `Context` exposes: state as of `now`, never the heap, the feed, the logs or results. */
  datatype View = View(
    now: int, markets: map<Ticker, MarketState>, positions: map<Ticker, Position>, cash: int,
    orders: map<nat, Resting>, queues: map<Ticker, seq<nat>>, desks: seq<Ticker>, reserved: map<nat, int>,
    nextId: nat)

  datatype Stimulus = Start | Feed(event: FeedEvent) | Noticed(notice: Notice)

  datatype Action = Place(order: Order) | Cancel(orderId: nat) | WakeAt(ts: int, tag: string, ticker: Ticker)

  type Strategy<!S> = (S, View, Stimulus) -> (S, seq<Action>)

  function ViewOf<S>(c: Core<S>): View {
    View(c.now, c.markets, c.account.positions, c.account.cash, c.orders, c.queues, c.desks, c.reserved,
         c.nextId)
  }

  // ---------------------------------------------------------------- scheduling

  predicate Before(m: Message, n: Message) {
    m.ts < n.ts || (m.ts == n.ts && (m.priority < n.priority || (m.priority == n.priority && m.sequence <= n.sequence)))
  }

  function Fail<S>(c: Core<S>, e: Error): Core<S> {
    c.(error := Some(e))
  }

  function Schedule<S>(c: Core<S>, ts: int, priority: int, payload: Payload): Core<S> {
    if ts < c.now then Fail(c, PastSchedule)
    else
      c.(sequence := c.sequence + 1, heap := c.heap + {Message(ts, priority, c.sequence + 1, payload)})
  }

  function Noted<S>(cfg: Config, c: Core<S>, o: Order): Core<S> {
    c.(nextId := c.nextId + 1, records := c.records[c.nextId := OrderRecord(c.now, c.now + cfg.latencySubmit, o, SUBMITTED, 0)])
  }

  function Submit<S>(cfg: Config, c: Core<S>, o: Order): Core<S> {
    if o.ticker !in c.markets then Fail(c, UnknownMarket)
    else Schedule(Noted(cfg, c, o), c.now + cfg.latencySubmit, ORDER_ARRIVAL, Arrival(c.nextId, o))
  }

  function Perform<S>(cfg: Config, c: Core<S>, a: Action): Core<S> {
    match a
    case Place(o) => Submit(cfg, c, o)
    case Cancel(id) => Schedule(c, c.now + cfg.latencyCancel, CANCEL_ARRIVAL, Cancellation(id))
    case WakeAt(ts, tag, ticker) => Schedule(c, ts, WAKE, Notify(Wake(tag, ticker)))
  }

  /** Carry out what the strategy asked for; the first exception ends the run. */
  function PerformAll<S>(cfg: Config, c: Core<S>, acts: seq<Action>): Core<S>
    decreases |acts|
  {
    if acts == [] || c.error.Some? then c else PerformAll(cfg, Perform(cfg, c, acts[0]), acts[1..])
  }

  function Tell<S>(cfg: Config, strat: Strategy<S>, c: Core<S>, s: Stimulus): Core<S> {
    var (next, acts) := strat(c.strategy, ViewOf(c), s);
    PerformAll(cfg, c.(strategy := next), acts)
  }

  // ---------------------------------------------------------------- resting orders

  function OtherThan(id: nat): nat -> bool {
    (x: nat) => x != id
  }

  function Without(q: seq<nat>, id: nat): seq<nat> {
    Filter(q, OtherThan(id))
  }

  function RemoveResting<S>(c: Core<S>, id: nat): Core<S>
    requires id in c.orders
  {
    var t := c.orders[id].ticker;
    c.(queues := c.queues[t := Without(c.Queue(t), id)], orders := c.orders - {id}, reserved := c.reserved - {id})
  }

  function DropResting<S>(c: Core<S>, id: nat): Core<S>
    requires id in c.orders && id in c.records
  {
    var rec := c.records[id];
    RemoveResting(c.(records := c.records[id := rec.(status := if rec.filled != 0 then PARTIAL else CANCELLED)]), id)
  }

  /** `for o in list(resting): _drop_resting(o, ...)`. */
  function DropAll<S>(c: Core<S>, ids: seq<nat>): Core<S>
    decreases |ids|
  {
    if ids == [] then c
    else DropAll(if ids[0] in c.orders && ids[0] in c.records then DropResting(c, ids[0]) else c, ids[1..])
  }

  function FillOf(c: int, id: nat, o: Order, price: Price, qty: Qty, fee: int, maker: bool): FillRecord {
    FillRecord(c, id, o.ticker, o.side, price, qty, fee, maker, o.tag)
  }

  function NoticeOf(f: FillRecord): Notice {
    Filled(f.execTs, f.orderId, f.ticker, f.side, f.price, f.qty, f.fee, f.maker, f.tag)
  }

  /** One fill on the books: bought, logged and counted. */
  function BookFill<S>(c: Core<S>, f: FillRecord): Core<S>
    requires f.orderId in c.records
  {
    var rec := c.records[f.orderId];
    c.(account := Bought(c.account, f.ticker, f.side, f.price, f.qty, f.fee),
       fillLog := c.fillLog + [f],
       records := c.records[f.orderId := rec.(filled := rec.filled + f.qty)])
  }

  /** Book a fill and schedule its notice. */
  function LogFill<S>(cfg: Config, c: Core<S>, f: FillRecord): Core<S>
    requires f.orderId in c.records
  {
    if f.ticker in c.account.settled then Fail(c, MarketSettled)
    else Schedule(BookFill(c, f), c.now + cfg.latencyAck, FILL_NOTICE, Notify(NoticeOf(f)))
  }

  function WithStatus<S>(c: Core<S>, id: nat, s: Status): Core<S>
    requires id in c.records
  {
    c.(records := c.records[id := c.records[id].(status := s)])
  }

  function MakerRecord<S>(cfg: Config, c: Core<S>, id: nat, o: Resting, qty: Qty): FillRecord {
    FillRecord(c.now, id, o.ticker, o.side, o.price, qty,
               cfg.fees.For(o.ticker).OrderFee([Fill(o.price, qty)], true), true, o.tag)
  }

  /** The order object, its reservation and its status after a fill. */
  function Reduce<S>(c: Core<S>, id: nat, left: Resting): Core<S>
    requires id in c.records
  {
    WithStatus(c.(orders := c.orders[id := left], reserved := c.reserved[id := Notional(left.price, left.qty)]),
               id, if left.qty == 0 then FILLED else PARTIAL)
  }

  function MakerFill<S>(cfg: Config, c: Core<S>, id: nat, fill: Qty): Core<S>
    requires id in c.orders && id in c.records
  {
    var o := c.orders[id];
    var qty := Min(fill, o.qty);
    if qty <= 0 then c
    else
      var logged := LogFill(cfg, c, MakerRecord(cfg, c, id, o, qty));
      if logged.error.Some? then logged
      else
        var left := Reduce(logged, id, o.(qty := o.qty - qty, filled := o.filled + qty));
        if o.qty == qty then RemoveResting(left, id) else left
  }

  /** Store the order object's new queue state, then book its fill. */
  function Hit<S>(cfg: Config, c: Core<S>, id: nat, o: Resting, fill: Qty): Core<S>
    requires id in c.orders && id in c.records
  {
    var moved := c.(orders := c.orders[id := o]);
    if fill == 0 then moved else MakerFill(cfg, moved, id, fill)
  }

  type Budget = map<(Side, Price), Qty>

  function Left(budget: Budget, key: (Side, Price), count: Qty): Qty {
    if key in budget then budget[key] else count
  }

  /** How one print reaches one order: at our level the orders share the print's count. */
  function PrintOn(cfg: Config, o: Resting, trade: Trade, budget: Budget): (Resting, Qty, Budget) {
    var px := TradePrice(o.side, trade);
    if px == o.price then
      var key := (o.side, px);
      var b := Left(budget, key, trade.count);
      var (after, fill) := cfg.maker.OnTrade(o, trade.(count := b));
      (after, fill, budget[key := Max(0, b - fill - (o.ahead - after.ahead))])
    else
      var (after, fill) := cfg.maker.OnTrade(o, trade);
      (after, fill, budget)
  }

  function MatchResting<S>(cfg: Config, c: Core<S>, ids: seq<nat>, trade: Trade, budget: Budget): Core<S>
    decreases |ids|
  {
    if ids == [] || c.error.Some? then c
    else if ids[0] !in c.orders || ids[0] !in c.records then MatchResting(cfg, c, ids[1..], trade, budget)
    else
      var (after, fill, budget') := PrintOn(cfg, c.orders[ids[0]], trade, budget);
      MatchResting(cfg, Hit(cfg, c, ids[0], after, fill), ids[1..], trade, budget')
  }

  function ShowBook<S>(cfg: Config, c: Core<S>, ids: seq<nat>, book: Book): Core<S>
    decreases |ids|
  {
    if ids == [] || c.error.Some? then c
    else if ids[0] !in c.orders || ids[0] !in c.records then ShowBook(cfg, c, ids[1..], book)
    else
      var (after, fill) := cfg.maker.OnBook(c.orders[ids[0]], book);
      ShowBook(cfg, Hit(cfg, c, ids[0], after, fill), ids[1..], book)
  }

  // ---------------------------------------------------------------- feed events

  function Remember(trades: seq<Trade>, t: Trade, limit: nat): seq<Trade> {
    var all := trades + [t];
    if |all| > limit then all[|all| - limit..] else all
  }

  function InMarket<S>(c: Core<S>, t: Ticker, m: MarketState): Core<S> {
    c.(markets := c.markets[t := m])
  }

  function Confirm(markets: map<Ticker, MarketState>, ts: int, ticker: Ticker): map<Ticker, MarketState> {
    map t | t in markets ::
      if markets[t].book.Some? && (ticker == "" || ticker == t) then markets[t].(bookTs := Some(ts)) else markets[t]
  }

  function ApplyEvent<S>(cfg: Config, c: Core<S>, ev: FeedEvent): Core<S> {
    if ev.BookConfirm? then c.(markets := Confirm(c.markets, ev.ts, ev.ticker))
    else if ev.ticker !in c.markets then c
    else
      var t, st := ev.ticker, c.markets[ev.ticker];
      match ev
      case BookUpdate(ts, _, yes, no) =>
        var book := Snapshot(yes, no);
        if book.None? then Fail(c, BadSnapshot)
        else ShowBook(cfg, InMarket(c, t, st.(book := book, bookTs := Some(ts))), c.Queue(t), book.value)
      case TradeTick(_, _, trade) =>
        MatchResting(cfg, InMarket(c, t, st.(lastTrade := Some(trade), trades := Remember(st.trades, trade, cfg.tradeHistory))),
                     c.Queue(t), trade, map[])
      case MarketClose(_, _) =>
        DropAll(InMarket(c, t, st.(closed := true)), c.Queue(t))
      case Settlement(_, _, value) =>
        var closed := DropAll(InMarket(c, t, st.(closed := true, outcome := Some(value))), c.Queue(t));
        closed.(account := Settled(closed.account, t, value))
      case BookConfirm(_, _) => c
  }

  function ApplyAll<S>(cfg: Config, c: Core<S>, batch: seq<FeedEvent>): Core<S>
    decreases |batch|
  {
    if batch == [] || c.error.Some? then c else ApplyAll(cfg, ApplyEvent(cfg, c, batch[0]), batch[1..])
  }

  function NotifyFeed<S>(cfg: Config, strat: Strategy<S>, c: Core<S>, ev: FeedEvent): Core<S> {
    if ev.BookConfirm? || ev.ticker in c.markets then Tell(cfg, strat, c, Feed(ev)) else c
  }

  function NotifyAll<S>(cfg: Config, strat: Strategy<S>, c: Core<S>, batch: seq<FeedEvent>): Core<S>
    decreases |batch|
  {
    if batch == [] || c.error.Some? then c
    else NotifyAll(cfg, strat, NotifyFeed(cfg, strat, c, batch[0]), batch[1..])
  }

  // ---------------------------------------------------------------- scheduled messages

  function Reject<S>(cfg: Config, c: Core<S>, id: nat): Core<S>
    requires id in c.records
  {
    Schedule(WithStatus(c, id, REJECTED), c.now + cfg.latencyAck, FILL_NOTICE, Notify(Rejected(id, c.records[id].order.tag)))
  }

  predicate Marketable(m: MarketState, o: Order) {
    m.book.Some? && m.book.value.BestAsk(o.side).Some? && m.book.value.BestAsk(o.side).value.price <= o.price
  }

  function TakerFills<S>(cfg: Config, c: Core<S>, o: Order): seq<Fill>
    requires o.ticker in c.markets
  {
    var m := c.markets[o.ticker];
    cfg.taker.Execute(m.book, if m.bookTs.None? then None else Some(c.now - m.bookTs.value), o.side, o.price, o.qty)
  }

  /** Each fill but the last is charged its floored share of the order's fee; the last takes the rest. */
  function FeeShare(total: int, left: int, qty: Qty, all: Qty, last: bool): int {
    if last || all <= 0 then left else FloorDiv(total * qty, all)
  }

  function RecordFills<S>(cfg: Config, c: Core<S>, id: nat, o: Order, fills: seq<Fill>, total: int, left: int, all: Qty): Core<S>
    decreases |fills|
  {
    if fills == [] || c.error.Some? || id !in c.records then c
    else
      var fee := FeeShare(total, left, fills[0].qty, all, |fills| == 1);
      RecordFills(cfg, LogFill(cfg, c, FillOf(c.now, id, o, fills[0].price, fills[0].qty, fee, false)),
                  id, o, fills[1..], total, left - fee, all)
  }

  /** The taker leg of an arriving order: fills are booked and leave the displayed book. */
  function Take<S>(cfg: Config, c: Core<S>, id: nat, o: Order, fills: seq<Fill>): Core<S>
    requires o.ticker in c.markets && c.markets[o.ticker].book.Some? && c.markets[o.ticker].book.value.Valid()
  {
    if fills == [] then c
    else
      var fee := cfg.fees.For(o.ticker).OrderFee(fills, false);
      var booked := RecordFills(cfg, c, id, o, fills, fee, fee, SumQty(fills));
      if booked.error.Some? then booked
      else
        var m := c.markets[o.ticker];
        InMarket(booked, o.ticker, m.(book := Some(Deplete(m.book.value, o.side, fills))))
  }

  /** The remainder as a new resting order, at the back of its market's list. */
  function Enqueue<S>(c: Core<S>, o: Resting): Core<S> {
    c.(orders := c.orders[o.id := o],
       queues := c.queues[o.ticker := c.Queue(o.ticker) + [o.id]],
       desks := if o.ticker in c.queues then c.desks else c.desks + [o.ticker],
       reserved := c.reserved[o.id := Notional(o.price, o.qty)])
  }

  /** What an accepted order leaves on the book. */
  function Rest<S>(cfg: Config, c: Core<S>, id: nat, o: Order, remaining: Qty): Core<S>
    requires id in c.records && o.ticker in c.markets
  {
    if remaining <= 0 then WithStatus(c, id, FILLED)
    else if o.tif.IOC? then WithStatus(c, id, if c.records[id].filled != 0 then PARTIAL else EXPIRED)
    else
      var placed := cfg.maker.OnPlace(
        Resting(id, o.ticker, o.side, o.price, remaining, o.qty, c.now, o.tag, 0, 0, 0, o.qty - remaining),
        c.markets[o.ticker].book);
      WithStatus(Enqueue(c, placed), id, if c.records[id].filled == 0 then RESTING else PARTIAL)
  }

  ghost function OnArrival<S>(cfg: Config, c: Core<S>, id: nat, o: Order): Core<S>
    requires id in c.records && o.ticker in c.markets
    requires forall t | t in c.markets && c.markets[t].book.Some? :: c.markets[t].book.value.Valid()
  {
    var m := c.markets[o.ticker];
    if !m.Open() then Reject(cfg, c, id)
    else if o.qty <= 0 || !ValidPrice(o.price) then Reject(cfg, c, id)
    else if c.account.cash - MapSum(c.reserved) < Notional(o.price, o.qty) then Reject(cfg, c, id)
    else if !Marketable(m, o) then Rest(cfg, c, id, o, o.qty)
    else if o.tif.POST_ONLY? then Reject(cfg, c, id)
    else
      var fills := TakerFills(cfg, c, o);
      var taken := Take(cfg, c, id, o, fills);
      if taken.error.Some? || id !in taken.records || o.ticker !in taken.markets then taken
      else Rest(cfg, taken, id, o, o.qty - SumQty(fills))
  }

  function OnCancel<S>(c: Core<S>, id: nat): Core<S> {
    if id in c.orders && id in c.records then DropResting(c, id) else c
  }

  /** Books of listed markets are always well-formed; an order names a listed market. */
  ghost predicate Dispatchable<S>(c: Core<S>, p: Payload) {
    p.Arrival? ==>
      && p.orderId in c.records && p.order.ticker in c.markets
      && forall t | t in c.markets && c.markets[t].book.Some? :: c.markets[t].book.value.Valid()
  }

  ghost function Dispatch<S>(cfg: Config, strat: Strategy<S>, c: Core<S>, p: Payload): Core<S> {
    match p
    case Arrival(id, o) => if Dispatchable(c, p) then OnArrival(cfg, c, id, o) else c
    case Cancellation(id) => OnCancel(c, id)
    case Notify(n) => Tell(cfg, strat, c, Noticed(n))
  }

  // ---------------------------------------------------------------- the run

  ghost predicate IsNext(heap: set<Message>, m: Message) {
    m in heap && forall n | n in heap :: Before(m, n)
  }

  lemma {:induction false} HasNext(heap: set<Message>)
    requires heap != {}
    ensures exists m :: IsNext(heap, m)
    decreases |heap|
  {
    var m :| m in heap;
    var rest := heap - {m};
    if rest == {} {
      assert forall n | n in heap && n != m :: n in rest;
      assert IsNext(heap, m);
    } else {
      HasNext(rest);
      var k :| IsNext(rest, k);
      var first := if Before(m, k) then m else k;
      assert forall n | n in heap :: n == m || n in rest;
      assert IsNext(heap, first);
    }
  }

  /** `heapq.heappop`: the least message by (time, priority, sequence). */
  ghost function Next(heap: set<Message>): (m: Message)
    requires heap != {}
    ensures IsNext(heap, m)
  {
    HasNext(heap);
    var m :| IsNext(heap, m);
    m
  }

  /** A run in progress: the engine and what is left of the feed. */
  datatype World<S> = World(core: Core<S>, feed: seq<FeedEvent>)

  /** Everything stamped with the instant of the first event. */
  function Simultaneous(feed: seq<FeedEvent>, ts: int): (n: nat)
    ensures n <= |feed|
    ensures forall i | 0 <= i < n :: feed[i].ts == ts
    ensures n < |feed| ==> feed[n].ts != ts
  {
    if feed == [] || feed[0].ts != ts then 0 else 1 + Simultaneous(feed[1..], ts)
  }

  ghost predicate TakesFeed<S>(w: World<S>) {
    w.feed != [] &&
    (w.core.heap == {} ||
     var m, e := Next(w.core.heap), w.feed[0];
     e.ts < m.ts || (e.ts == m.ts && e.Priority() <= m.priority))
  }

  ghost predicate Finished<S>(w: World<S>) {
    w.core.error.Some? || (w.feed == [] && w.core.heap == {})
  }

  /** One turn of the main loop. */
  ghost function Step<S>(cfg: Config, strat: Strategy<S>, w: World<S>): World<S> {
    if Finished(w) then w
    else if TakesFeed(w) then
      var ts := w.feed[0].ts;
      if ts < w.core.now then World(Fail(w.core, FeedBackwards), w.feed[1..])
      else
        var n := Simultaneous(w.feed, ts);
        World(FeedTurn(cfg, strat, w.core, ts, w.feed[..n]), w.feed[n..])
    else
      var m := Next(w.core.heap);
      World(HeapTurn(cfg, strat, w.core, m), w.feed)
  }

  ghost function FeedTurn<S>(cfg: Config, strat: Strategy<S>, c: Core<S>, ts: int, batch: seq<FeedEvent>): Core<S> {
    NotifyAll(cfg, strat, ApplyAll(cfg, c.(now := ts), batch), batch)
  }

  ghost function HeapTurn<S>(cfg: Config, strat: Strategy<S>, c: Core<S>, m: Message): Core<S> {
    Dispatch(cfg, strat, c.(now := m.ts, heap := c.heap - {m}), m.payload)
  }

  function Initial<S>(cfg: Config, tickers: set<Ticker>, s: S): Core<S> {
    Core(0, 0, {}, map t | t in tickers :: MarketState(None, None, None, [], false, None), Opening(cfg.initialCash),
         map[], map[], [], map[], map[], [], 1, s, None)
  }

  ghost function Begin<S>(cfg: Config, strat: Strategy<S>, tickers: set<Ticker>, s: S, feed: seq<FeedEvent>): World<S> {
    World(Tell(cfg, strat, Initial(cfg, tickers, s), Start), feed)
  }

  /** The state after n turns. */
  ghost function Run<S>(cfg: Config, strat: Strategy<S>, w: World<S>, n: nat): World<S> {
    if n == 0 then w else Step(cfg, strat, Run(cfg, strat, w, n - 1))
  }

  // ---------------------------------------------------------------- the feed

  function FeedLe(): (FeedEvent, FeedEvent) -> bool {
    (a: FeedEvent, b: FeedEvent) => a.ts < b.ts || (a.ts == b.ts && a.Priority() <= b.Priority())
  }

  function UpTo(until: int): FeedEvent -> bool {
    (e: FeedEvent) => e.ts <= until
  }

  /** `ListFeed`: sorted by time and priority, ties in the order given. */
  function ListFeed(events: seq<FeedEvent>): seq<FeedEvent> {
    StableSort(events, FeedLe())
  }

  /** `ListFeed.truncated`: only what had arrived by then, through the constructor again. */
  function Truncated(feed: seq<FeedEvent>, until: int): seq<FeedEvent> {
    ListFeed(Filter(feed, UpTo(until)))
  }

  lemma FeedOrders()
    ensures TotalPreorder(FeedLe())
  {
  }

  ghost predicate InOrder(feed: seq<FeedEvent>) {
    Sorted(feed, FeedLe())
  }

  /** A list feed is in order and holds exactly the given events; truncating it just drops the later
      ones, and is the same as feeding only the earlier events in the first place. */
  lemma ListFeedLaws(events: seq<FeedEvent>, until: int)
    ensures InOrder(ListFeed(events)) && multiset(ListFeed(events)) == multiset(events)
    ensures Truncated(ListFeed(events), until) == Filter(ListFeed(events), UpTo(until))
    ensures Truncated(ListFeed(events), until) == ListFeed(Filter(events, UpTo(until)))
  {
    FeedOrders();
    SortSorts(events, FeedLe());
    FilterSorted(ListFeed(events), UpTo(until), FeedLe());
    SortIdentity(Filter(ListFeed(events), UpTo(until)), FeedLe());
    SortStable(events, UpTo(until), FeedLe());
  }

  /** What happens first at one instant: settlements, then closes, then books and polls, then prints. */
  function Turn(e: FeedEvent): nat {
    if e.Settlement? then 1 else if e.MarketClose? then 2 else if e.TradeTick? then 4 else 3
  }

  lemma InstantOrder(events: seq<FeedEvent>, i: nat, j: nat)
    requires i < j < |ListFeed(events)|
    ensures ListFeed(events)[i].ts <= ListFeed(events)[j].ts
    ensures ListFeed(events)[i].ts == ListFeed(events)[j].ts ==> Turn(ListFeed(events)[i]) <= Turn(ListFeed(events)[j])
  {
    FeedOrders();
    SortSorts(events, FeedLe());
    assert FeedLe()(ListFeed(events)[i], ListFeed(events)[j]);
  }
}
