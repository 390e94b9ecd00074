/** The invariant of the engine's state, one predicate per concern, each over just the fields it is
    about, with the field updates that keep it. */
module EngineInvariant {
  import opened Units
  import opened MapSums
  import opened Sorting
  import opened OrderBooks
  import opened Fees
  import opened Fills
  import opened Ledger
  import opened Engine
  import opened EngineGrowth

  type Orders = map<nat, Resting>
  type Queues = map<Ticker, seq<nat>>
  type Markets = map<Ticker, MarketState>

  // ---------------------------------------------------------------- scheduled messages

  /** Nothing is scheduled in the past, and no two messages share a sequence number. */
  ghost predicate HeapOk(h: set<Message>, sequence: nat, now: int) {
    && (forall m | m in h :: now <= m.ts && m.sequence <= sequence)
    && forall m, n | m in h && n in h && m.sequence == n.sequence :: m == n
  }

  lemma HeapAdd(h: set<Message>, sequence: nat, now: int, m: Message)
    requires HeapOk(h, sequence, now) && m.ts >= now && m.sequence == sequence + 1
    ensures HeapOk(h + {m}, sequence + 1, now)
  {
  }

  lemma HeapPop(h: set<Message>, sequence: nat, now: int, m: Message)
    requires HeapOk(h, sequence, now) && IsNext(h, m)
    ensures HeapOk(h - {m}, sequence, m.ts)
  {
  }

  /** An order under way: on record exactly as sent, not filled and not resting. */
  ghost predicate UnderWay(m: Message, r: Records, known: set<Ticker>, resting: set<nat>, latency: int)
    requires m.payload.Arrival?
  {
    var id := m.payload.orderId;
    && id in r && r[id].order == m.payload.order && r[id].filled == 0
    && m.ts == r[id].submittedTs + latency
    && m.payload.order.ticker in known && id !in resting
  }

  ghost predicate PendingOk(h: set<Message>, r: Records, known: set<Ticker>, resting: set<nat>, latency: int) {
    && (forall m | m in h && m.payload.Arrival? :: UnderWay(m, r, known, resting, latency))
    && forall m, n | m in h && n in h && m.payload.Arrival? && n.payload.Arrival?
                     && m.payload.orderId == n.payload.orderId :: m == n
  }

  ghost predicate NotPending(h: set<Message>, id: nat) {
    forall m | m in h && m.payload.Arrival? :: m.payload.orderId != id
  }

  lemma PendingNotice(h: set<Message>, r: Records, known: set<Ticker>, resting: set<nat>, latency: int, m: Message)
    requires PendingOk(h, r, known, resting, latency) && !m.payload.Arrival?
    ensures PendingOk(h + {m}, r, known, resting, latency)
    ensures forall id | NotPending(h, id) :: NotPending(h + {m}, id)
  {
  }

  lemma PendingTouch(h: set<Message>, r: Records, known: set<Ticker>, resting: set<nat>, latency: int, id: nat, rec: OrderRecord)
    requires PendingOk(h, r, known, resting, latency) && id in r && StubOf(rec) == StubOf(r[id])
    requires rec.filled == r[id].filled || NotPending(h, id)
    ensures PendingOk(h, r[id := rec], known, resting, latency)
  {
  }

  lemma PendingShrink(h: set<Message>, r: Records, known: set<Ticker>, resting: set<nat>, fewer: set<nat>, latency: int)
    requires PendingOk(h, r, known, resting, latency) && fewer <= resting
    ensures PendingOk(h, r, known, fewer, latency)
    ensures forall id | id in resting :: NotPending(h, id)
  {
  }

  lemma PendingRest(h: set<Message>, r: Records, known: set<Ticker>, resting: set<nat>, latency: int, id: nat)
    requires PendingOk(h, r, known, resting, latency) && NotPending(h, id)
    ensures PendingOk(h, r, known, resting + {id}, latency)
  {
  }

  lemma PendingSubmit(
    h: set<Message>, r: Records, known: set<Ticker>, resting: set<nat>, latency: int, next: nat, rec: OrderRecord, m: Message)
    requires PendingOk(h, r, known, resting, latency) && Numbered(r, next) && resting <= r.Keys
    requires m.payload == Arrival(next, rec.order) && rec.filled == 0 && rec.order.ticker in known
    requires m.ts == rec.submittedTs + latency
    ensures PendingOk(h + {m}, r[next := rec], known, resting, latency)
  {
  }

  lemma PendingPop(h: set<Message>, r: Records, known: set<Ticker>, resting: set<nat>, latency: int, m: Message)
    requires PendingOk(h, r, known, resting, latency) && m in h
    ensures PendingOk(h - {m}, r, known, resting, latency)
    ensures m.payload.Arrival? ==>
              NotPending(h - {m}, m.payload.orderId) && UnderWay(m, r, known, resting, latency)
  {
  }

  // ---------------------------------------------------------------- resting orders

  /** The markets' lists hold exactly the resting orders, each once and in its own market's list. */
  ghost predicate QueuesOk(orders: Orders, queues: Queues) {
    && (forall id | id in orders :: orders[id].ticker in queues && id in queues[orders[id].ticker])
    && (forall t, i | t in queues && 0 <= i < |queues[t]| :: queues[t][i] in orders && orders[queues[t][i]].ticker == t)
    && forall t, i, j | t in queues && 0 <= i < j < |queues[t]| :: queues[t][i] != queues[t][j]
  }

  ghost predicate NoRepeats(q: seq<nat>) {
    forall i, j | 0 <= i < j < |q| :: q[i] != q[j]
  }

  lemma {:induction false} WithoutKeeps(q: seq<nat>, id: nat)
    requires NoRepeats(q)
    ensures NoRepeats(Without(q, id))
    ensures forall k :: k in Without(q, id) <==> (k in q && k != id)
  {
    FilterKeeps(q, OtherThan(id));
    if q != [] {
      var front, last := q[..|q| - 1], q[|q| - 1];
      WithoutKeeps(front, id);
      FilterKeeps(front, OtherThan(id));
      assert forall k | k in front :: k != last;
    }
  }

  lemma QueuesRemove(orders: Orders, queues: Queues, id: nat)
    requires QueuesOk(orders, queues) && id in orders
    ensures var t := orders[id].ticker;
            t in queues && QueuesOk(orders - {id}, queues[t := Without(queues[t], id)])
  {
    var t := orders[id].ticker;
    assert NoRepeats(queues[t]);
    WithoutKeeps(queues[t], id);
    hide Without;
    var q := Without(queues[t], id);
    forall k | k in orders - {id}
      ensures k in (if orders[k].ticker == t then q else queues[orders[k].ticker])
    {
    }
    forall i | 0 <= i < |q|
      ensures q[i] in orders - {id} && orders[q[i]].ticker == t
    {
      assert q[i] in q;
    }
  }

  lemma QueuesMove(orders: Orders, queues: Queues, id: nat, o: Resting)
    requires QueuesOk(orders, queues) && id in orders && o.ticker == orders[id].ticker
    ensures QueuesOk(orders[id := o], queues)
  {
  }

  lemma QueuesEnqueue(orders: Orders, queues: Queues, id: nat, o: Resting)
    requires QueuesOk(orders, queues) && id !in orders
    ensures QueuesOk(orders[id := o], queues[o.ticker := (if o.ticker in queues then queues[o.ticker] else []) + [id]])
  {
    var q := if o.ticker in queues then queues[o.ticker] else [];
    assert forall i | 0 <= i < |q| :: q[i] in orders;
    assert forall i | 0 <= i < |q| :: (q + [id])[i] == q[i];
    assert (q + [id])[|q|] == id;
  }

  /** Each resting order reserves exactly its price times what remains of it. */
  ghost predicate ReservedOk(orders: Orders, reserved: map<nat, int>) {
    && reserved.Keys == orders.Keys
    && forall id | id in orders :: reserved[id] == Notional(orders[id].price, orders[id].qty)
  }

  /** Orders rest at prices inside (0, $1), and what rests is the unfilled rest of the order on record. */
  ghost predicate RestsAs(o: Resting, rec: OrderRecord) {
    && o.ticker == rec.order.ticker && o.side == rec.order.side && o.price == rec.order.price && o.tag == rec.order.tag
    && o.original == rec.order.qty && o.filled == rec.filled && o.qty == rec.order.qty - rec.filled
    && ValidPrice(o.price) && o.qty >= 0 && o.ahead >= 0
  }

  ghost predicate RestingOk(orders: Orders, r: Records) {
    orders.Keys <= r.Keys && forall id | id in orders :: RestsAs(orders[id], r[id])
  }

  ghost predicate LiveOk(orders: Orders) {
    forall id | id in orders :: orders[id].qty > 0
  }

  ghost predicate OpenOk(orders: Orders, markets: Markets) {
    forall id | id in orders :: orders[id].ticker in markets && markets[orders[id].ticker].Open()
  }

  // ---------------------------------------------------------------- the fill log

  /** What the log says an order got. */
  function Logged(log: seq<FillRecord>, id: nat): Qty {
    if log == [] then 0
    else Logged(log[..|log| - 1], id) + (if log[|log| - 1].orderId == id then log[|log| - 1].qty else 0)
  }

  lemma LoggedMore(log: seq<FillRecord>, f: FillRecord)
    ensures forall id :: Logged(log + [f], id) == Logged(log, id) + (if f.orderId == id then f.qty else 0)
  {
    assert (log + [f])[..|log|] == log;
  }

  /** A fill of this order, within its limit. */
  ghost predicate FillsOrder(f: FillRecord, o: Order) {
    && f.ticker == o.ticker && f.side == o.side && f.tag == o.tag
    && f.qty > 0 && 0 < f.price <= o.price && f.fee >= 0
  }

  ghost predicate LogOk(r: Records, log: seq<FillRecord>) {
    && (forall id | id in r :: r[id].filled == Logged(log, id) && 0 <= r[id].filled <= Max(0, r[id].order.qty))
    && (forall i | 0 <= i < |log| :: log[i].orderId in r && FillsOrder(log[i], r[log[i].orderId].order))
  }

  lemma LogTouch(r: Records, log: seq<FillRecord>, id: nat, s: Status)
    requires LogOk(r, log) && id in r
    ensures LogOk(r[id := r[id].(status := s)], log)
  {
    hide Logged;
  }

  lemma LogNote(r: Records, log: seq<FillRecord>, next: nat, rec: OrderRecord)
    requires LogOk(r, log) && Numbered(r, next) && rec.filled == 0
    ensures LogOk(r[next := rec], log)
  {
    NeverLogged(r, log, next);
    hide Logged;
  }

  lemma {:induction false} NeverLogged(r: Records, log: seq<FillRecord>, next: nat)
    requires Numbered(r, next) && forall i | 0 <= i < |log| :: log[i].orderId in r
    ensures Logged(log, next) == 0
  {
    if log != [] {
      NeverLogged(r, log[..|log| - 1], next);
      assert log[|log| - 1].orderId in r;
    }
  }

  lemma LogAppend(r: Records, log: seq<FillRecord>, f: FillRecord, rec: OrderRecord)
    requires LogOk(r, log) && f.orderId in r && FillsOrder(f, r[f.orderId].order)
    requires StubOf(rec) == StubOf(r[f.orderId]) && rec.filled == r[f.orderId].filled + f.qty <= rec.order.qty
    ensures LogOk(r[f.orderId := rec], log + [f])
  {
    LoggedMore(log, f);
    assert f.qty > 0;
    hide Logged, FillsOrder;
    var more := r[f.orderId := rec];
    assert rec.order == r[f.orderId].order;
    assert forall i | 0 <= i < |log| :: log[i].orderId in more && more[log[i].orderId].order == r[log[i].orderId].order;
    forall i | 0 <= i < |log + [f]|
      ensures (log + [f])[i].orderId in more && FillsOrder((log + [f])[i], more[(log + [f])[i].orderId].order)
    {
      assert i < |log| ==> (log + [f])[i] == log[i];
    }
  }

  // ---------------------------------------------------------------- money

  /** The ledger balances, and cash plus the fees paid so far covers all reservations and `slack` more. */
  ghost predicate MoneyOk(a: Account, reserved: map<nat, int>, initial: int, slack: int) {
    && Sound(a) && Balanced(a, initial) && a.fees >= 0 && slack >= 0
    && a.cash + a.fees >= MapSum(reserved) + slack
  }

  lemma MoneyBuy(a: Account, reserved: map<nat, int>, initial: int, slack: int, t: Ticker, side: Side, price: Price, qty: Qty, fee: int)
    requires MoneyOk(a, reserved, initial, slack) && 0 <= price <= PRICE_SCALE && qty >= 0 && fee >= 0
    requires Notional(price, qty) <= slack
    ensures MoneyOk(Bought(a, t, side, price, qty, fee), reserved, initial, slack - Notional(price, qty))
    ensures Bought(a, t, side, price, qty, fee).settled == a.settled
  {
    BuyKeeps(a, t, side, price, qty, fee, initial);
    hide Bought, Notional, Sound, Balanced;
  }

  lemma NotionalSplit(price: Price, a: Qty, b: Qty)
    ensures Notional(price, a + b) == Notional(price, a) + Notional(price, b)
    ensures Notional(price, a - b) == Notional(price, a) - Notional(price, b)
  {
  }

  lemma NotionalOrder(p: Price, q: Price, qty: Qty)
    requires 0 <= p <= q && qty >= 0
    ensures 0 <= Notional(p, qty) <= Notional(q, qty)
  {
  }

  /** A maker fill pays from its own reservation. */
  lemma MoneyMaker(a: Account, reserved: map<nat, int>, initial: int, id: nat, f: FillRecord, held: Qty)
    requires MoneyOk(a, reserved, initial, 0) && 0 <= f.price <= PRICE_SCALE && 0 <= f.qty <= held && f.fee >= 0
    requires id in reserved && reserved[id] == Notional(f.price, held)
    ensures MoneyOk(Bought(a, f.ticker, f.side, f.price, f.qty, f.fee),
                    reserved[id := Notional(f.price, held - f.qty)], initial, 0)
    ensures Bought(a, f.ticker, f.side, f.price, f.qty, f.fee).settled == a.settled
  {
    BuyKeeps(a, f.ticker, f.side, f.price, f.qty, f.fee, initial);
    Put(reserved, id, Notional(f.price, held - f.qty));
    NotionalSplit(f.price, held, f.qty);
    hide Bought, Notional, Sound, Balanced;
  }

  lemma MoneyRelease(a: Account, reserved: map<nat, int>, initial: int, id: nat)
    requires MoneyOk(a, reserved, initial, 0) && id in reserved && reserved[id] >= 0
    ensures MoneyOk(a, reserved - {id}, initial, 0)
  {
    Drop(reserved, id);
    hide Sound, Balanced;
  }

  lemma MoneyReserve(a: Account, reserved: map<nat, int>, initial: int, slack: int, id: nat, amount: int)
    requires MoneyOk(a, reserved, initial, slack) && id !in reserved && amount <= slack
    ensures MoneyOk(a, reserved[id := amount], initial, 0)
  {
    Put(reserved, id, amount);
    hide Sound, Balanced;
  }

  lemma MoneySettle(a: Account, reserved: map<nat, int>, initial: int, t: Ticker, v: Price)
    requires MoneyOk(a, reserved, initial, 0) && 0 <= v <= PRICE_SCALE
    ensures MoneyOk(Settled(a, t, v), reserved, initial, 0)
  {
    SettleKeeps(a, t, v, initial);
    hide Settled, Sound, Balanced;
  }

  // ---------------------------------------------------------------- markets

  ghost predicate BooksOk(markets: Markets) {
    forall t | t in markets && markets[t].book.Some? :: markets[t].book.value.Valid()
  }

  /** The portfolio counts as settled only what the exchange has settled. */
  ghost predicate SettledOk(settled: map<Ticker, Price>, markets: Markets) {
    forall t | t in settled && t in markets :: markets[t].outcome.Some?
  }

  // ---------------------------------------------------------------- the whole

  ghost predicate ValidConfig(cfg: Config) {
    && cfg.initialCash >= 0 && cfg.latencySubmit >= 0 && cfg.latencyAck >= 0 && cfg.latencyCancel >= 0
    && cfg.taker.slippage >= 0 && cfg.maker.Valid() && cfg.fees.Valid()
  }

  /** All but what an operation may break for a moment. */
  ghost predicate Base<S>(cfg: Config, c: Core<S>) {
    && Numbered(c.records, c.nextId)
    && HeapOk(c.heap, c.sequence, c.now)
    && PendingOk(c.heap, c.records, c.markets.Keys, c.orders.Keys, cfg.latencySubmit)
    && QueuesOk(c.orders, c.queues)
    && ReservedOk(c.orders, c.reserved)
    && RestingOk(c.orders, c.records)
    && LogOk(c.records, c.fillLog)
    && MoneyOk(c.account, c.reserved, cfg.initialCash, 0)
    && BooksOk(c.markets)
    && SettledOk(c.account.settled, c.markets)
  }

  ghost predicate Inv<S>(cfg: Config, c: Core<S>) {
    Base(cfg, c) && LiveOk(c.orders) && OpenOk(c.orders, c.markets)
  }
}
