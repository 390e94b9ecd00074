/** backtest/engine.py: what an order meets on arrival, rejected or accepted, taken from the book or rested;
    and what a taker is given. */
module Arrivals {
  import opened Units
  import opened MapSums
  import opened OrderBooks
  import opened Fees
  import opened Fills
  import opened Ledger
  import opened Engine
  import opened EngineInvariant
  import opened EngineTurns
  import opened TakerLeg
  import QueueTape

  // ---------------------------------------------------------------- what a taker is given

  /** What a level is worth to a taker: its share of the size, rounded down, if it is not negative. */
  function Takeable(m: TakerModel, l: Level): Qty {
    Max(0, (m.depthFraction * l.qty as real).Floor)
  }

  /** All that can be had at up to so much a contract, slippage included. */
  function TakeableWithin(m: TakerModel, asks: seq<Level>, price: Price): Qty {
    if asks == [] then 0
    else (if asks[0].price + m.slippage <= price then Takeable(m, asks[0]) else 0) + TakeableWithin(m, asks[1..], price)
  }

  function FilledWithin(fills: seq<Fill>, price: Price): Qty {
    if fills == [] then 0
    else (if fills[0].price <= price then fills[0].qty else 0) + FilledWithin(fills[1..], price)
  }

  ghost predicate CheapestFirst(asks: seq<Level>) {
    forall i, j | 0 <= i < j < |asks| :: asks[i].price < asks[j].price
  }

  lemma {:induction false} NothingWithin(m: TakerModel, asks: seq<Level>, price: Price)
    requires CheapestFirst(asks) && asks != [] && asks[0].price + m.slippage > price
    ensures TakeableWithin(m, asks, price) == 0
  {
    if |asks| > 1 {
      assert asks[1..][0] == asks[1];
      NothingWithin(m, asks[1..], price);
    }
  }

  lemma {:induction false} TakeableGrows(m: TakerModel, asks: seq<Level>, p: Price, q: Price)
    requires p <= q
    ensures 0 <= TakeableWithin(m, asks, p) <= TakeableWithin(m, asks, q)
  {
    if asks != [] {
      TakeableGrows(m, asks[1..], p, q);
    }
  }

  lemma FirstFill(f: Fill, rest: seq<Fill>, price: Price)
    ensures FilledWithin([f] + rest, price) == (if f.price <= price then f.qty else 0) + FilledWithin(rest, price)
  {
    assert ([f] + rest)[1..] == rest;
  }

  /** A taker is given all it asked for or all there is, whichever is less, at every price up to its limit:
      its fills at up to p a contract come to exactly what can be had at up to p. */
  lemma {:induction false} TakerGets(m: TakerModel, asks: seq<Level>, limit: Price, qty: Qty, p: Price)
    requires CheapestFirst(asks) && m.slippage >= 0 && qty >= 0
    ensures FilledWithin(m.Walk(asks, limit, qty), p) == Min(qty, TakeableWithin(m, asks, Min(limit, p)))
    ensures forall i | 0 <= i < |m.Walk(asks, limit, qty)| :: m.Walk(asks, limit, qty)[i].qty > 0
  {
    TakeableGrows(m, asks, Min(limit, p), Min(limit, p));
    if asks == [] || qty == 0 {
    } else if asks[0].price + m.slippage > limit {
      NothingWithin(m, asks, Min(limit, p));
    } else {
      var rest := asks[1..];
      assert forall i, j | 0 <= i < j < |rest| :: rest[i].price < rest[j].price;
      var take := Min(qty, Share(m.depthFraction, asks[0].qty));
      hide Share;
      TakerGets(m, rest, limit, if take > 0 then qty - take else qty, p);
      TakeableGrows(m, rest, Min(limit, p), Min(limit, p));
      if asks[0].price + m.slippage > p {
        NothingWithin(m, asks, Min(limit, p));
        if rest != [] {
          NothingWithin(m, rest, Min(limit, p));
        }
      }
      if take > 0 {
        FirstFill(Fill(asks[0].price + m.slippage, take), m.Walk(rest, limit, qty - take), p);
      }
      ShareIs(m, asks[0]);
    }
  }

  lemma ShareIs(m: TakerModel, l: Level)
    ensures Takeable(m, l) == Max(0, Share(m.depthFraction, l.qty))
  {
  }

  /** A taker gets nothing from a market whose book it has never seen, or has not heard of for longer than
      the model allows; otherwise it walks the asks the book displays. */
  lemma TakerNeedsBook(m: TakerModel, book: Option<Book>, age: Option<int>, side: Side, limit: Price, qty: Qty, p: Price)
    requires m.slippage >= 0 && qty >= 0
    ensures
      var usable := book.Some? && age.Some? && (m.maxStaleness.Some? ==> age.value <= m.maxStaleness.value);
      FilledWithin(m.Execute(book, age, side, limit, qty), p)
      == if usable then Min(qty, TakeableWithin(m, book.value.AskLevels(side), Min(limit, p))) else 0
  {
    if book.Some? {
      AsksSorted(book.value, side);
      hide Book.AskLevels;
      TakerGets(m, book.value.AskLevels(side), limit, qty, p);
    }
  }

  /** On arrival a taker walks its market's own book, whose age is the time since it was last heard of. */
  lemma ArrivalTakes<S>(cfg: Config, c: Core<S>, o: Order, p: Price)
    requires o.ticker in c.markets && cfg.taker.slippage >= 0 && o.qty >= 0
    ensures
      var m, k := c.markets[o.ticker], cfg.taker;
      var usable := m.book.Some? && m.bookTs.Some? && (k.maxStaleness.Some? ==> c.now - m.bookTs.value <= k.maxStaleness.value);
      FilledWithin(TakerFills(cfg, c, o), p)
      == if usable then Min(o.qty, TakeableWithin(k, m.book.value.AskLevels(o.side), Min(o.price, p))) else 0
  {
    var m := c.markets[o.ticker];
    TakerNeedsBook(cfg.taker, m.book, if m.bookTs.None? then None else Some(c.now - m.bookTs.value), o.side, o.price, o.qty, p);
    hide TakerModel.Execute, Book.AskLevels;
  }

  /** An order is marketable exactly if some ask is displayed within its limit. */
  lemma MarketableMeans(m: MarketState, o: Order)
    ensures Marketable(m, o) <==> m.book.Some? && exists l :: l in m.book.value.AskLevels(o.side) && l.price <= o.price
  {
    if m.book.Some? {
      QueueTape.CrossesIsBestAsk(o.side, o.price, m.book.value);
      hide Book.BestAsk, Book.AskLevels;
    }
  }

  // ---------------------------------------------------------------- rejected

  /** The strategy is to hear at this instant that its order was rejected. */
  ghost predicate RejectionDue(h: set<Message>, ts: int, id: nat, tag: string) {
    exists m :: m in h && m.ts == ts && m.priority == FILL_NOTICE && m.payload == Notify(Rejected(id, tag))
  }

  /** An order is turned away if its market is not open, if its size or price makes no sense, if the cash
      available does not cover its limit in full, or if it must not take and would; then its record says so,
      the strategy will hear of it the acknowledgement latency later, and nothing else happens. */
  lemma TurnedAwayOutcome<S>(cfg: Config, c: Core<S>, id: nat, o: Order)
    requires Dispatchable(c, Arrival(id, o)) && cfg.latencyAck >= 0 && c.records[id].order == o && !Accepted(c, o)
    ensures
      var b := OnArrival(cfg, c, id, o);
      && b.records == c.records[id := c.records[id].(status := REJECTED)]
      && RejectionDue(b.heap, c.now + cfg.latencyAck, id, o.tag) && c.heap <= b.heap
      && b.orders == c.orders && b.queues == c.queues && b.account == c.account && b.fillLog == c.fillLog
      && b.markets == c.markets && b.reserved == c.reserved && b.error == c.error
  {
    hide Rest, Take, TakerFills, SumQty, Notional, MapSum, Book.Valid, Book.BestAsk, Schedule;
    assert OnArrival(cfg, c, id, o) == Reject(cfg, c, id);
    hide OnArrival;
    RejectIs(cfg, c, id, o.tag);
  }

  lemma RejectIs<S>(cfg: Config, c: Core<S>, id: nat, tag: string)
    requires id in c.records && cfg.latencyAck >= 0 && c.records[id].order.tag == tag
    ensures
      var b := Reject(cfg, c, id);
      && b.records == c.records[id := c.records[id].(status := REJECTED)]
      && RejectionDue(b.heap, c.now + cfg.latencyAck, id, tag) && c.heap <= b.heap
      && b.orders == c.orders && b.queues == c.queues && b.account == c.account && b.fillLog == c.fillLog
      && b.markets == c.markets && b.reserved == c.reserved && b.error == c.error
  {
    var m := Message(c.now + cfg.latencyAck, FILL_NOTICE, c.sequence + 1, Notify(Rejected(id, tag)));
    assert m in Reject(cfg, c, id).heap;
  }

  // ---------------------------------------------------------------- accepted

  /** The remainder as it joins its queue. */
  ghost predicate RestedBehind(cfg: Config, r: Resting, id: nat, o: Order, left: Qty, now: int, book: Option<Book>) {
    var shown := if book.None? then 0 else SizeAt(book.value, o.side, o.price);
    && QueueTape.Floors(r.ahead, cfg.maker.alpha * shown as real)
    && r == Resting(id, o.ticker, o.side, o.price, left, o.qty, now, o.tag, r.ahead, shown, 0, o.qty - left)
  }

  /** What an accepted order has got and what becomes of the rest: booked and logged fill by fill with their
      shares of the fee; a remainder that may rest is at the back of its market's list, in full, behind the
      share of the displayed size the queue model puts ahead of it; one that may not is gone. */
  ghost predicate AcceptedOutcome<S>(cfg: Config, c: Core<S>, id: nat, o: Order, b: Core<S>)
    requires o.ticker in c.markets
  {
    var fills := FillsOf(cfg, c, o);
    var fees := FeeShares(FeeOf(cfg, o, fills), FeeOf(cfg, o, fills), fills, SumQty(fills));
    var left := o.qty - SumQty(fills);
    && b.fillLog == c.fillLog + Entries(c.now, id, o, fills, fees)
    && b.account == BoughtAll(c.account, o.ticker, o.side, fills, fees)
    && (forall k | k != id :: k in b.orders <==> k in c.orders) && (forall k | k in c.orders && k != id :: b.orders[k] == c.orders[k])
    && if left > 0 && o.tif != IOC then
         && id in b.orders && b.Queue(o.ticker) == c.Queue(o.ticker) + [id]
         && (forall t | t != o.ticker :: b.Queue(t) == c.Queue(t))
         && RestedBehind(cfg, b.orders[id], id, o, left, c.now, if o.ticker in b.markets then b.markets[o.ticker].book else None)
       else id !in b.orders && b.queues == c.queues
  }

  lemma EnqueueOutcome<S>(c: Core<S>, r: Resting, s: Status)
    requires r.id in c.records && r.id !in c.orders
    ensures
      var b := WithStatus(Enqueue(c, r), r.id, s);
      && b.fillLog == c.fillLog && b.account == c.account && b.error == c.error && b.markets == c.markets
      && b.orders == c.orders[r.id := r] && b.Queue(r.ticker) == c.Queue(r.ticker) + [r.id]
      && forall t | t != r.ticker :: b.Queue(t) == c.Queue(t)
  {
    hide Notional;
  }

  lemma PlacedBehind(m: QueueModel, r: Resting, book: Option<Book>)
    ensures
      var shown := if book.None? then 0 else SizeAt(book.value, r.side, r.price);
      var p := m.OnPlace(r, book);
      QueueTape.Floors(p.ahead, m.alpha * shown as real) && p == r.(ahead := p.ahead, lastLevel := shown, traded := 0)
  {
  }

  lemma RestOutcome<S>(cfg: Config, c: Core<S>, id: nat, o: Order, remaining: Qty)
    requires id in c.records && o.ticker in c.markets && id !in c.orders
    ensures
      var b := Rest(cfg, c, id, o, remaining);
      && b.fillLog == c.fillLog && b.account == c.account && b.error == c.error && b.markets == c.markets
      && (forall k | k != id :: k in b.orders <==> k in c.orders) && (forall k | k in c.orders && k != id :: b.orders[k] == c.orders[k])
      && if remaining > 0 && o.tif != IOC then
           && id in b.orders && b.Queue(o.ticker) == c.Queue(o.ticker) + [id]
           && (forall t | t != o.ticker :: b.Queue(t) == c.Queue(t))
           && RestedBehind(cfg, b.orders[id], id, o, remaining, c.now, b.markets[o.ticker].book)
         else id !in b.orders && b.queues == c.queues
  {
    var bare := Resting(id, o.ticker, o.side, o.price, remaining, o.qty, c.now, o.tag, 0, 0, 0, o.qty - remaining);
    PlacedBehind(cfg.maker, bare, c.markets[o.ticker].book);
    var placed := cfg.maker.OnPlace(bare, c.markets[o.ticker].book);
    assert placed.id == id && placed.ticker == o.ticker;
    hide LevelSize, Share, Notional, QueueModel.OnPlace, RestedBehind;
    EnqueueOutcome(c, placed, if c.records[id].filled == 0 then RESTING else PARTIAL);
    assert RestedBehind(cfg, placed, id, o, remaining, c.now, c.markets[o.ticker].book) by {
      BehindIs(cfg, placed, bare, id, o, remaining, c.now, c.markets[o.ticker].book);
    }
    StatusLeaves(c, id, if remaining <= 0 then FILLED else if c.records[id].filled != 0 then PARTIAL else EXPIRED);
    hide Enqueue, Core.Queue, WithStatus;
  }

  lemma StatusLeaves<S>(c: Core<S>, id: nat, s: Status)
    requires id in c.records
    ensures
      var b := WithStatus(c, id, s);
      && b.fillLog == c.fillLog && b.account == c.account && b.error == c.error && b.markets == c.markets
      && b.orders == c.orders && b.queues == c.queues
  {
  }

  lemma BehindIs(cfg: Config, placed: Resting, bare: Resting, id: nat, o: Order, left: Qty, now: int, book: Option<Book>)
    requires bare == Resting(id, o.ticker, o.side, o.price, left, o.qty, now, o.tag, 0, 0, 0, o.qty - left)
    requires var shown := if book.None? then 0 else SizeAt(book.value, bare.side, bare.price);
             QueueTape.Floors(placed.ahead, cfg.maker.alpha * shown as real)
             && placed == bare.(ahead := placed.ahead, lastLevel := shown, traded := 0)
    ensures RestedBehind(cfg, placed, id, o, left, now, book)
  {
  }

  lemma TakeOutcome<S>(cfg: Config, c: Core<S>, id: nat, o: Order, fills: seq<Fill>)
    requires ValidConfig(cfg) && id in c.records && c.error.None? && o.ticker !in c.account.settled
    requires o.ticker in c.markets && c.markets[o.ticker].book.Some? && c.markets[o.ticker].book.value.Valid()
    ensures
      var b := Take(cfg, c, id, o, fills);
      var fees := FeeShares(FeeOf(cfg, o, fills), FeeOf(cfg, o, fills), fills, SumQty(fills));
      && b.error.None? && id in b.records && b.markets.Keys == c.markets.Keys
      && b.orders == c.orders && b.queues == c.queues && b.now == c.now
      && b.fillLog == c.fillLog + Entries(c.now, id, o, fills, fees)
      && b.account == BoughtAll(c.account, o.ticker, o.side, fills, fees)
  {
    hide RecordFills, FeeSchedule.OrderFee, Book.Valid, Deplete, BoughtAll, Entries, SumQty;
    if fills == [] {
      NothingBought(c.account, o.ticker, o.side);
      NoEntries(c.now, id, o);
      assert FeeShares(0, 0, [], SumQty([])) == [];
    } else {
      var fee := cfg.fees.For(o.ticker).OrderFee(fills, false);
      RecordFillsIs(cfg, c, id, o, fills, fee, fee, SumQty(fills));
    }
  }

  lemma NothingBought(a: Account, t: Ticker, side: Side)
    ensures BoughtAll(a, t, side, [], []) == a
  {
  }

  lemma AcceptedMeans<S>(cfg: Config, c: Core<S>, id: nat, o: Order)
    requires ValidConfig(cfg) && Inv(cfg, c) && c.error.None? && Arrived(c, id, o) && Accepted(c, o)
    ensures Dispatchable(c, Arrival(id, o)) && AcceptedOutcome(cfg, c, id, o, OnArrival(cfg, c, id, o))
    ensures OnArrival(cfg, c, id, o).error.None?
  {
    hide Inv, MapSum, Notional, Rest, Take, TakerFills, SumQty, Book.Valid, Book.BestAsk, NotPending, FeeSchedule.OrderFee, OnArrival;
    hide Dispatchable, BoughtAll, Entries, RestedBehind, FeeShares;
    Listed(cfg, c, id, o);
    if Marketable(c.markets[o.ticker], o) {
      var fills := TakerFills(cfg, c, o);
      TakeOutcome(cfg, c, id, o, fills);
      AcceptedIs(cfg, c, id, o);
      RestOutcome(cfg, Take(cfg, c, id, o, fills), id, o, o.qty - SumQty(fills));
    } else {
      NoFills();
      NothingBought(c.account, o.ticker, o.side);
      NoEntries(c.now, id, o);
      assert FeeShares(0, 0, [], SumQty([])) == [] by { NoShares(); }
      assert c.fillLog + [] == c.fillLog;
      AcceptedIs(cfg, c, id, o);
      RestOutcome(cfg, c, id, o, o.qty);
    }
  }

  lemma NoShares()
    ensures FeeShares(0, 0, [], SumQty([])) == []
  {
  }
}
