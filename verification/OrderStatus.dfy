/** backtest/engine.py: what the status on an order's record says is true of the order, in every reachable
    state; and what an order meets on arrival. */
module OrderStatus {
  import opened Units
  import opened MapSums
  import opened OrderBooks
  import opened Fees
  import opened Fills
  import opened Ledger
  import opened Engine
  import opened EngineGrowth
  import opened EngineInvariant
  import opened EngineSafety
  import opened EngineTurns
  import opened SafeRuns
  import opened PrintBudget
  import Requests

  /** What each status says of an order that is under way, resting, or done with. */
  ghost predicate Fitting(r: OrderRecord, pending: bool, resting: bool) {
    if pending then r.status == SUBMITTED && r.filled == 0
    else if resting then r.order.tif != IOC && r.status == (if r.filled == 0 then RESTING else PARTIAL)
    else
      match r.status
      case SUBMITTED => false
      case RESTING => false
      case FILLED => r.filled == r.order.qty > 0
      case PARTIAL => 0 < r.filled < r.order.qty
      case REJECTED => r.filled == 0
      case CANCELLED => r.filled == 0 && r.order.tif != IOC
      case EXPIRED => r.filled == 0 && r.order.tif == IOC
  }

  ghost predicate FitsIn<S>(c: Core<S>, id: nat)
    requires id in c.records
  {
    Fitting(c.records[id], !NotPending(c.heap, id), id in c.orders)
  }

  ghost predicate AllFit<S>(c: Core<S>) {
    forall id | id in c.records :: FitsIn(c, id)
  }

  ghost predicate OthersFit<S>(c: Core<S>, but: nat) {
    forall id | id in c.records && id != but :: FitsIn(c, id)
  }

  // ---------------------------------------------------------------- what one operation touches

  /** No order is sent, and nothing happens to any other order than this one. */
  ghost predicate OnlyTouches<S>(a: Core<S>, b: Core<S>, id: nat) {
    && a.heap <= b.heap && OnlyNotices(a.heap, b.heap) && b.records.Keys == a.records.Keys
    && (forall k | k in a.records && k != id :: b.records[k] == a.records[k])
    && forall k | k != id :: k in b.orders <==> k in a.orders
  }

  lemma OthersStillFit<S>(a: Core<S>, b: Core<S>, id: nat)
    requires OthersFit(a, id) && OnlyTouches(a, b, id)
    ensures OthersFit(b, id)
    ensures NotPending(a.heap, id) <==> NotPending(b.heap, id)
  {
    forall k
      ensures NotPending(a.heap, k) <==> NotPending(b.heap, k)
    {
    }
    hide NotPending, Fitting;
  }

  lemma TheOneFits<S>(c: Core<S>, id: nat)
    requires OthersFit(c, id) && (id in c.records ==> FitsIn(c, id))
    ensures AllFit(c)
  {
  }

  lemma FitElsewhere<S>(c: Core<S>, id: nat)
    requires AllFit(c)
    ensures OthersFit(c, id)
  {
  }

  // ---------------------------------------------------------------- fills while resting

  lemma HitTouches<S>(cfg: Config, c: Core<S>, id: nat, o: Resting, fill: Qty)
    requires ValidConfig(cfg) && Inv(cfg, c) && c.error.None? && id in c.orders && id in c.records
    requires SameHolding(c.orders[id], o)
    ensures OnlyTouches(c, Hit(cfg, c, id, o, fill), id)
  {
    InvCounted(cfg, c);
    assert o.qty > 0;
    hide Inv, Hit;
    HitEffect(cfg, c, id, o, fill);
    HitQuiet(cfg, c, id, o, fill);
    QuietHeap(c, Hit(cfg, c, id, o, fill));
    hide SameHolding, Quietly;
  }

  lemma QuietHeap<S>(a: Core<S>, b: Core<S>)
    requires Quietly(a, b)
    ensures a.heap <= b.heap && OnlyNotices(a.heap, b.heap) && b.records.Keys == a.records.Keys && b.orders.Keys <= a.orders.Keys
  {
  }

  lemma HitFits<S>(cfg: Config, c: Core<S>, id: nat, o: Resting, fill: Qty)
    requires ValidConfig(cfg) && Inv(cfg, c) && c.error.None? && id in c.orders && id in c.records
    requires SameHolding(c.orders[id], o) && AllFit(c)
    ensures AllFit(Hit(cfg, c, id, o, fill))
  {
    var b := Hit(cfg, c, id, o, fill);
    var moved := c.(orders := c.orders[id := o]);
    HitTouches(cfg, c, id, o, fill);
    MoveKeeps(cfg, c, id, o);
    OnRecord(cfg, c, id);
    RestingNotPending(cfg, c, id);
    assert o.qty > 0 && o.qty == c.orders[id].qty;
    assert FitsIn(c, id);
    hide Inv, Hit, MakerFill, SameHolding, NotPending;
    FitElsewhere(c, id);
    OthersStillFit(c, b, id);
    MakerEffect(cfg, moved, id, fill);
    HitIs(cfg, c, id, o, fill);
    TheOneFits(b, id);
  }

  lemma RestingNotPending<S>(cfg: Config, c: Core<S>, id: nat)
    requires Inv(cfg, c) && id in c.orders
    ensures NotPending(c.heap, id)
  {
    PendingShrink(c.heap, c.records, c.markets.Keys, c.orders.Keys, c.orders.Keys, cfg.latencySubmit);
  }

  lemma {:induction false} MatchFits<S>(cfg: Config, c: Core<S>, ids: seq<nat>, trade: Trade, budget: Budget)
    requires ValidConfig(cfg) && Inv(cfg, c) && c.error.None? && AllFit(c)
    ensures AllFit(MatchResting(cfg, c, ids, trade, budget))
    decreases |ids|
  {
    hide Inv, Hit, PrintOn, SameHolding, AllFit;
    if ids == [] {
    } else if ids[0] in c.orders && ids[0] in c.records {
      var (after, fill, next) := PrintOn(cfg, c.orders[ids[0]], trade, budget);
      HoldingPrintOn(cfg, c.orders[ids[0]], trade, budget);
      HitKeeps(cfg, c, ids[0], after, fill);
      HitFits(cfg, c, ids[0], after, fill);
      MatchFits(cfg, Hit(cfg, c, ids[0], after, fill), ids[1..], trade, next);
    } else {
      MatchFits(cfg, c, ids[1..], trade, budget);
    }
  }

  lemma {:induction false} ShowFits<S>(cfg: Config, c: Core<S>, ids: seq<nat>, book: Book)
    requires ValidConfig(cfg) && Inv(cfg, c) && c.error.None? && AllFit(c)
    ensures AllFit(ShowBook(cfg, c, ids, book))
    decreases |ids|
  {
    hide Inv, Hit, QueueModel.OnBook, SameHolding, AllFit;
    if ids == [] {
    } else if ids[0] in c.orders && ids[0] in c.records {
      var (after, fill) := cfg.maker.OnBook(c.orders[ids[0]], book);
      HoldingOnBook(cfg.maker, c.orders[ids[0]], book);
      HitKeeps(cfg, c, ids[0], after, fill);
      HitFits(cfg, c, ids[0], after, fill);
      ShowFits(cfg, Hit(cfg, c, ids[0], after, fill), ids[1..], book);
    } else {
      ShowFits(cfg, c, ids[1..], book);
    }
  }

  // ---------------------------------------------------------------- orders that come off

  lemma DropFits<S>(cfg: Config, c: Core<S>, id: nat)
    requires Base(cfg, c) && LiveOk(c.orders) && id in c.orders && id in c.records && AllFit(c)
    ensures AllFit(DropResting(c, id))
  {
    DropReady(cfg, c, id);
    DropIs(c, id);
    hide Base, LiveOk, NotPending, DropResting, RestsAs, FitsIn, OnlyTouches, AllFit, OthersFit;
    var b := DropResting(c, id);
    FitElsewhere(c, id);
    assert OnlyTouches(c, b, id) by { DropTouches(c, id); }
    OthersStillFit(c, b, id);
    assert FitsIn(b, id) by { DroppedFits(c, id); }
    TheOneFits(b, id);
  }

  lemma DropReady<S>(cfg: Config, c: Core<S>, id: nat)
    requires Base(cfg, c) && LiveOk(c.orders) && id in c.orders && id in c.records && AllFit(c)
    ensures NotPending(c.heap, id) && FitsIn(c, id)
    ensures c.orders[id].qty > 0 && RestsAs(c.orders[id], c.records[id]) && c.records[id].filled >= 0
  {
    assert LogOk(c.records, c.fillLog);
    PendingShrink(c.heap, c.records, c.markets.Keys, c.orders.Keys, c.orders.Keys, cfg.latencySubmit);
    OnRecord(cfg, c, id);
  }

  lemma DropTouches<S>(c: Core<S>, id: nat)
    requires id in c.orders && id in c.records
    ensures OnlyTouches(c, DropResting(c, id), id)
  {
    DropIs(c, id);
    hide DropResting;
  }

  lemma DroppedFits<S>(c: Core<S>, id: nat)
    requires id in c.orders && id in c.records && NotPending(c.heap, id) && FitsIn(c, id)
    requires c.orders[id].qty > 0 && RestsAs(c.orders[id], c.records[id]) && c.records[id].filled >= 0
    ensures id in DropResting(c, id).records && FitsIn(DropResting(c, id), id)
  {
    DropIs(c, id);
    hide DropResting, NotPending;
  }

  /** An order taken off is no longer there, its record says whether it got anything, and nothing else has
      changed but the reservation and its market's list. */
  lemma DropIs<S>(c: Core<S>, id: nat)
    requires id in c.orders && id in c.records
    ensures
      var b, rec := DropResting(c, id), c.records[id];
      && b.orders == c.orders - {id} && b.heap == c.heap && b.fillLog == c.fillLog && b.account == c.account
      && b.records == c.records[id := rec.(status := if rec.filled == 0 then CANCELLED else PARTIAL)]
      && b.reserved == c.reserved - {id} && b.markets == c.markets && b.now == c.now && b.error == c.error
  {
    hide Without;
  }

  // ---------------------------------------------------------------- feed events

  lemma SameFits<S>(a: Core<S>, b: Core<S>)
    requires AllFit(a) && b.heap == a.heap && b.records == a.records && b.orders == a.orders
    ensures AllFit(b)
  {
    hide Fitting, NotPending;
  }

  lemma EventFits<S>(cfg: Config, c: Core<S>, ev: FeedEvent)
    requires ValidConfig(cfg) && Inv(cfg, c) && c.error.None? && ValidEvent(ev) && AllFit(c)
    ensures AllFit(ApplyEvent(cfg, c, ev))
  {
    InvBase(cfg, c);
    hide Base, LiveOk, OpenOk, ShowBook, MatchResting, DropAll, Settled, Confirm, Snapshot, Remember, AllFit;
    if ev.BookConfirm? {
      SameFits(c, ApplyEvent(cfg, c, ev));
    } else if ev.ticker in c.markets {
      var t, st := ev.ticker, c.markets[ev.ticker];
      match ev
      case BookUpdate(ts, _, yes, no) =>
        var book := Snapshot(yes, no);
        if book.Some? {
          var m := st.(book := book, bookTs := Some(ts));
          DataKeeps(cfg, c, t, m);
          SameFits(c, InMarket(c, t, m));
          ShowFits(cfg, InMarket(c, t, m), c.Queue(t), book.value);
        } else {
          SameFits(c, ApplyEvent(cfg, c, ev));
        }
      case TradeTick(_, _, trade) =>
        var m := st.(lastTrade := Some(trade), trades := Remember(st.trades, trade, cfg.tradeHistory));
        BookOf(cfg, c, t);
        DataKeeps(cfg, c, t, m);
        SameFits(c, InMarket(c, t, m));
        MatchFits(cfg, InMarket(c, t, m), c.Queue(t), trade, map[]);
      case MarketClose(_, _) =>
        ClosingFits(cfg, c, t, st.(closed := true));
      case Settlement(_, _, value) =>
        var m := st.(closed := true, outcome := Some(value));
        ClosingFits(cfg, c, t, m);
        SameFits(DropAll(InMarket(c, t, m), c.Queue(t)), ApplyEvent(cfg, c, ev));
    }
  }

  lemma ClosingFits<S>(cfg: Config, c: Core<S>, t: Ticker, m: MarketState)
    requires Inv(cfg, c) && t in c.markets && m.book == c.markets[t].book && AllFit(c)
    requires c.markets[t].outcome.Some? ==> m.outcome.Some?
    ensures AllFit(DropAll(InMarket(c, t, m), c.Queue(t)))
  {
    InvBase(cfg, c);
    ClosedBase(cfg, c, t, m);
    SameFits(c, InMarket(c, t, m));
    assert LiveOk(InMarket(c, t, m).orders);
    hide Base, DropAll, AllFit, Inv, LiveOk;
    DropAllFits(cfg, InMarket(c, t, m), c.Queue(t));
  }

  lemma {:induction false} BatchFits<S>(cfg: Config, c: Core<S>, batch: seq<FeedEvent>)
    requires ValidConfig(cfg) && Inv(cfg, c) && c.error in {None, Some(BadSnapshot)} && AllFit(c)
    requires forall i | 0 <= i < |batch| :: ValidEvent(batch[i])
    ensures AllFit(ApplyAll(cfg, c, batch))
    decreases |batch|
  {
    hide Inv, ApplyEvent, ValidEvent, AllFit;
    if batch != [] && c.error.None? {
      EventKeeps(cfg, c, batch[0]);
      EventFits(cfg, c, batch[0]);
      BatchFits(cfg, ApplyEvent(cfg, c, batch[0]), batch[1..]);
    }
  }

  // ---------------------------------------------------------------- requests

  lemma SubmitFits<S>(cfg: Config, c: Core<S>, o: Order)
    requires cfg.latencySubmit >= 0 && Counted(c) && AllFit(c) && (forall m | m in c.heap && m.payload.Arrival? :: m.payload.orderId in c.records)
    requires c.orders.Keys <= c.records.Keys
    ensures AllFit(Submit(cfg, c, o))
  {
    var b := Submit(cfg, c, o);
    if o.ticker in c.markets {
      var m := Message(c.now + cfg.latencySubmit, ORDER_ARRIVAL, c.sequence + 1, Arrival(c.nextId, o));
      assert m in b.heap && !NotPending(b.heap, c.nextId);
      assert forall id | id != c.nextId :: NotPending(c.heap, id) <==> NotPending(b.heap, id);
    }
  }

  lemma {:induction false} DropAllFits<S>(cfg: Config, c: Core<S>, ids: seq<nat>)
    requires Base(cfg, c) && LiveOk(c.orders) && AllFit(c)
    ensures AllFit(DropAll(c, ids))
    decreases |ids|
  {
    hide Base, DropResting, AllFit;
    if ids != [] {
      if ids[0] in c.orders {
        OnRecord(cfg, c, ids[0]);
        DropKeeps(cfg, c, ids[0]);
        DropParts(c, ids[0]);
        DropFits(cfg, c, ids[0]);
        DropAllFits(cfg, DropResting(c, ids[0]), ids[1..]);
      } else {
        DropAllFits(cfg, c, ids[1..]);
      }
    }
  }

  lemma PerformFits<S>(cfg: Config, c: Core<S>, a: Action)
    requires ValidConfig(cfg) && Base(cfg, c) && AllFit(c)
    ensures AllFit(Perform(cfg, c, a))
  {
    if a.Place? {
      BaseFacts(cfg, c);
      hide Base, AllFit;
      SubmitFits(cfg, c, a.order);
    } else {
      hide Base, Fitting;
      NoneSent(cfg, c, a);
      hide Perform, NotPending;
    }
  }

  lemma NoneSent<S>(cfg: Config, c: Core<S>, a: Action)
    requires !a.Place?
    ensures var b := Perform(cfg, c, a);
            && b.records == c.records && b.orders == c.orders
            && forall id :: NotPending(c.heap, id) <==> NotPending(b.heap, id)
  {
    match a
    case Cancel(id) => NoneScheduled(c, c.now + cfg.latencyCancel, CANCEL_ARRIVAL, Cancellation(id));
    case WakeAt(ts, tag, t) => NoneScheduled(c, ts, WAKE, Notify(Wake(tag, t)));
    hide Schedule, NotPending;
  }

  lemma NoneScheduled<S>(c: Core<S>, ts: int, priority: int, p: Payload)
    requires !p.Arrival?
    ensures var b := Schedule(c, ts, priority, p);
            && b.records == c.records && b.orders == c.orders
            && forall id :: NotPending(c.heap, id) <==> NotPending(b.heap, id)
  {
    Requests.ScheduleAdds(c, ts, priority, p);
    assert Schedule(c, ts, priority, p).orders == c.orders;
    hide Schedule, Requests.Queued;
  }

  lemma BaseFacts<S>(cfg: Config, c: Core<S>)
    requires Base(cfg, c)
    ensures Counted(c) && c.orders.Keys <= c.records.Keys
    ensures forall m | m in c.heap && m.payload.Arrival? :: m.payload.orderId in c.records
  {
  }

  lemma {:induction false} PerformAllFits<S>(cfg: Config, c: Core<S>, acts: seq<Action>)
    requires ValidConfig(cfg) && Base(cfg, c) && AllFit(c)
    ensures AllFit(PerformAll(cfg, c, acts))
    decreases |acts|
  {
    hide Base, Perform, AllFit;
    if acts != [] && c.error.None? {
      PerformFits(cfg, c, acts[0]);
      PerformKeeps(cfg, c, acts[0]);
      PerformAllFits(cfg, Perform(cfg, c, acts[0]), acts[1..]);
    }
  }

  lemma TellFits<S>(cfg: Config, strat: Strategy<S>, c: Core<S>, s: Stimulus)
    requires ValidConfig(cfg) && Inv(cfg, c) && AllFit(c)
    ensures AllFit(Tell(cfg, strat, c, s))
  {
    var (next, acts) := strat(c.strategy, ViewOf(c), s);
    assert Base(cfg, c.(strategy := next));
    hide Base, PerformAll, LiveOk, OpenOk;
    assert AllFit(c.(strategy := next)) by { SameFitsOther(c, c.(strategy := next)); }
    PerformAllFits(cfg, c.(strategy := next), acts);
  }

  lemma SameFitsOther<S>(a: Core<S>, b: Core<S>)
    requires AllFit(a) && b.heap == a.heap && b.records == a.records && b.orders == a.orders
    ensures AllFit(b)
  {
    SameFits(a, b);
  }

  lemma {:induction false} NotifyFits<S>(cfg: Config, strat: Strategy<S>, c: Core<S>, batch: seq<FeedEvent>)
    requires ValidConfig(cfg) && Inv(cfg, c) && AllFit(c)
    ensures AllFit(NotifyAll(cfg, strat, c, batch))
    decreases |batch|
  {
    hide Inv, Tell, AllFit;
    if batch != [] && c.error.None? {
      TellKeeps(cfg, strat, c, Feed(batch[0]));
      TellFits(cfg, strat, c, Feed(batch[0]));
      NotifyFits(cfg, strat, NotifyFeed(cfg, strat, c, batch[0]), batch[1..]);
    }
  }

  // ---------------------------------------------------------------- arrivals

  lemma TouchesChain<S>(a: Core<S>, b: Core<S>, c: Core<S>, id: nat)
    requires OnlyTouches(a, b, id) && OnlyTouches(b, c, id)
    ensures OnlyTouches(a, c, id)
  {
  }

  lemma TouchesSame<S>(a: Core<S>, b: Core<S>, id: nat)
    requires b.heap == a.heap && b.records == a.records && b.orders == a.orders
    ensures OnlyTouches(a, b, id)
  {
  }

  lemma LogFillTouches<S>(cfg: Config, c: Core<S>, f: FillRecord)
    requires f.orderId in c.records
    ensures OnlyTouches(c, LogFill(cfg, c, f), f.orderId)
  {
    hide Bought;
  }

  lemma {:induction false} RecordFillsTouches<S>(
    cfg: Config, c: Core<S>, id: nat, o: Order, fills: seq<Fill>, total: int, left: int, all: Qty)
    ensures OnlyTouches(c, RecordFills(cfg, c, id, o, fills, total, left, all), id)
    decreases |fills|
  {
    hide LogFill, FeeShare, OnlyTouches;
    TouchesSame(c, c, id);
    if fills != [] && c.error.None? && id in c.records {
      var fee := FeeShare(total, left, fills[0].qty, all, |fills| == 1);
      var f := FillOf(c.now, id, o, fills[0].price, fills[0].qty, fee, false);
      var next := LogFill(cfg, c, f);
      LogFillTouches(cfg, c, f);
      RecordFillsTouches(cfg, next, id, o, fills[1..], total, left - fee, all);
      TouchesChain(c, next, RecordFills(cfg, next, id, o, fills[1..], total, left - fee, all), id);
    }
  }

  lemma TakeTouches<S>(cfg: Config, c: Core<S>, id: nat, o: Order, fills: seq<Fill>)
    requires o.ticker in c.markets && c.markets[o.ticker].book.Some? && c.markets[o.ticker].book.value.Valid()
    ensures OnlyTouches(c, Take(cfg, c, id, o, fills), id)
  {
    hide RecordFills, FeeSchedule.OrderFee, SumQty, Book.Valid, Deplete, OnlyTouches;
    TouchesSame(c, c, id);
    if fills != [] {
      var fee := cfg.fees.For(o.ticker).OrderFee(fills, false);
      var booked := RecordFills(cfg, c, id, o, fills, fee, fee, SumQty(fills));
      RecordFillsTouches(cfg, c, id, o, fills, fee, fee, SumQty(fills));
      TouchesSame(booked, Take(cfg, c, id, o, fills), id);
      TouchesChain(c, booked, Take(cfg, c, id, o, fills), id);
    }
  }

  lemma RestTouches<S>(cfg: Config, c: Core<S>, id: nat, o: Order, remaining: Qty)
    requires id in c.records && o.ticker in c.markets
    ensures OnlyTouches(c, Rest(cfg, c, id, o, remaining), id)
    ensures var b, rec := Rest(cfg, c, id, o, remaining), c.records[id];
            && (id in b.orders <==> id in c.orders || (remaining > 0 && o.tif != IOC))
            && b.records[id] == rec.(status := if remaining <= 0 then FILLED
                                               else if o.tif == IOC then (if rec.filled == 0 then EXPIRED else PARTIAL)
                                               else if rec.filled == 0 then RESTING else PARTIAL)
  {
    hide LevelSize, Share, Notional;
  }

  lemma RejectTouches<S>(cfg: Config, c: Core<S>, id: nat)
    requires id in c.records && cfg.latencyAck >= 0
    ensures OnlyTouches(c, Reject(cfg, c, id), id)
    ensures var b := Reject(cfg, c, id);
            b.records[id] == c.records[id].(status := REJECTED) && b.orders == c.orders
  {
  }

  /** What is left of an order that got so much: resting, or done with as its record says. */
  lemma RestFits<S>(cfg: Config, c: Core<S>, id: nat, o: Order, remaining: Qty)
    requires OthersFit(c, id) && id in c.records && o.ticker in c.markets && id !in c.orders && NotPending(c.heap, id)
    requires c.records[id].order == o && o.qty > 0 && 0 <= c.records[id].filled && remaining == o.qty - c.records[id].filled >= 0
    ensures AllFit(Rest(cfg, c, id, o, remaining))
  {
    RestTouches(cfg, c, id, o, remaining);
    hide Rest, NotPending;
    OthersStillFit(c, Rest(cfg, c, id, o, remaining), id);
    TheOneFits(Rest(cfg, c, id, o, remaining), id);
  }

  lemma RejectFits<S>(cfg: Config, c: Core<S>, id: nat)
    requires OthersFit(c, id) && id in c.records && cfg.latencyAck >= 0 && id !in c.orders && NotPending(c.heap, id)
    requires c.records[id].filled == 0
    ensures AllFit(Reject(cfg, c, id))
  {
    RejectTouches(cfg, c, id);
    hide Reject, NotPending;
    OthersStillFit(c, Reject(cfg, c, id), id);
    TheOneFits(Reject(cfg, c, id), id);
  }

  lemma ArrivalFits<S>(cfg: Config, c: Core<S>, id: nat, o: Order)
    requires ValidConfig(cfg) && Inv(cfg, c) && c.error.None? && Arrived(c, id, o) && c.records[id].filled == 0
    requires Dispatchable(c, Arrival(id, o)) && OthersFit(c, id)
    ensures AllFit(OnArrival(cfg, c, id, o))
  {
    hide Inv, Notional, NotPending, Reject, Rest, Take, TakerFills, SumQty, Book.BestAsk, MoneyOk, Fits, Book.Valid, OthersFit, AllFit;
    var m := c.markets[o.ticker];
    RejectFits(cfg, c, id);
    if m.Open() && o.qty > 0 && ValidPrice(o.price) && c.account.cash - MapSum(c.reserved) >= Notional(o.price, o.qty) {
      RestFits(cfg, c, id, o, o.qty);
      if Marketable(m, o) && !o.tif.POST_ONLY? {
        NotionalOrder(o.price, o.price, o.qty);
        TakenFits(cfg, c, id, o);
      }
    }
  }

  lemma TakenFits<S>(cfg: Config, c: Core<S>, id: nat, o: Order)
    requires ValidConfig(cfg) && Inv(cfg, c) && c.error.None? && Arrived(c, id, o) && c.records[id].filled == 0
    requires Dispatchable(c, Arrival(id, o)) && OthersFit(c, id) && c.markets[o.ticker].Open() && Marketable(c.markets[o.ticker], o)
    requires o.qty > 0 && ValidPrice(o.price) && c.account.cash - MapSum(c.reserved) >= Notional(o.price, o.qty) >= 0
    ensures var taken := Take(cfg, c, id, o, TakerFills(cfg, c, o));
            && id in taken.records && o.ticker in taken.markets && taken.error.None?
            && AllFit(Rest(cfg, taken, id, o, o.qty - SumQty(TakerFills(cfg, c, o))))
  {
    hide Inv, Notional, NotPending, Rest, Take, TakerFills, SumQty, Book.BestAsk, MoneyOk, Fits, Book.Valid, OthersFit, AllFit, OnlyTouches;
    var fills := TakerFills(cfg, c, o);
    SetAside(cfg, c, o);
    assert Base(cfg, c) by { InvBase(cfg, c); }
    hide Base;
    TakenParts(cfg, c, o);
    OpenUnsettled(cfg, c, o.ticker);
    TakeKeeps(cfg, c, id, o, fills, Notional(o.price, o.qty));
    FitsSum(fills, o.price);
    var taken := Take(cfg, c, id, o, fills);
    TakeTouches(cfg, c, id, o, fills);
    OthersStillFit(c, taken, id);
    RestFits(cfg, taken, id, o, o.qty - SumQty(fills));
  }

  // ---------------------------------------------------------------- whole runs

  lemma PopFits<S>(c: Core<S>, m: Message, at: Core<S>)
    requires AllFit(c) && m in c.heap && at == c.(now := m.ts, heap := c.heap - {m})
    ensures m.payload.Arrival? ==> OthersFit(at, m.payload.orderId)
    ensures !m.payload.Arrival? ==> AllFit(at)
  {
    forall id | !m.payload.Arrival? || id != m.payload.orderId
      ensures NotPending(c.heap, id) <==> NotPending(at.heap, id)
    {
    }
    hide NotPending, Fitting;
  }

  lemma HeapTurnFits<S>(cfg: Config, strat: Strategy<S>, c: Core<S>, m: Message)
    requires ValidConfig(cfg) && Inv(cfg, c) && c.error.None? && IsNext(c.heap, m) && AllFit(c)
    ensures AllFit(HeapTurn(cfg, strat, c, m))
  {
    hide Inv, OnArrival, DropResting, Tell, Dispatchable, AllFit, OthersFit, Arrived;
    Pop(cfg, c, m);
    var at := c.(now := m.ts, heap := c.heap - {m});
    PopFits(c, m, at);
    match m.payload
    case Arrival(id, o) => ArrivalFits(cfg, at, id, o);
    case Cancellation(id) =>
      if id in at.orders && id in at.records {
        InvBase(cfg, at);
        AllLive(cfg, at);
        DropFits(cfg, at, id);
      }
    case Notify(n) => TellFits(cfg, strat, at, Noticed(n));
  }

  lemma AllLive<S>(cfg: Config, c: Core<S>)
    requires Inv(cfg, c)
    ensures LiveOk(c.orders)
  {
  }

  lemma FeedTurnFits<S>(cfg: Config, strat: Strategy<S>, c: Core<S>, ts: int, batch: seq<FeedEvent>)
    requires ValidConfig(cfg) && Inv(cfg, c) && c.error.None? && AllFit(c)
    requires c.now <= ts && forall m | m in c.heap :: ts <= m.ts
    requires forall i | 0 <= i < |batch| :: ValidEvent(batch[i])
    ensures AllFit(FeedTurn(cfg, strat, c, ts, batch))
  {
    var at := c.(now := ts);
    Advance(cfg, c, ts);
    SameFits(c, at);
    hide Inv, ApplyAll, NotifyAll, ValidEvent, AllFit;
    BatchFits(cfg, at, batch);
    ApplyAllKeeps(cfg, at, batch);
    NotifyFits(cfg, strat, ApplyAll(cfg, at, batch), batch);
  }

  lemma StepFits<S>(cfg: Config, strat: Strategy<S>, w: World<S>)
    requires ValidConfig(cfg) && Good(cfg, w) && AllFit(w.core)
    ensures AllFit(Step(cfg, strat, w).core)
  {
    hide Inv, FeedTurn, HeapTurn, ValidEvent, AllFit;
    var c := w.core;
    if !Finished(w) {
      if TakesFeed(w) {
        var ts := w.feed[0].ts;
        forall m | m in c.heap
          ensures ts <= m.ts
        {
          assert Before(Next(c.heap), m);
        }
        if ts < c.now {
          SameFits(c, Fail(c, FeedBackwards));
        } else {
          FeedTurnFits(cfg, strat, c, ts, w.feed[..Simultaneous(w.feed, ts)]);
        }
      } else {
        HeapTurnFits(cfg, strat, c, Next(c.heap));
      }
    }
  }

  lemma {:induction false} RunFits<S>(
    cfg: Config, strat: Strategy<S>, tickers: set<Ticker>, s: S, feed: seq<FeedEvent>, n: nat)
    requires ValidConfig(cfg) && ValidFeed(feed) && Ahead(feed, 0)
    ensures AllFit(Reached(cfg, strat, tickers, s, feed, n))
  {
    hide AllFit, Step, Tell, Initial, Good, Inv;
    if n == 0 {
      InitialInv(cfg, tickers, s);
      NothingToFit(cfg, tickers, s);
      TellFits(cfg, strat, Initial(cfg, tickers, s), Start);
    } else {
      RunFits(cfg, strat, tickers, s, feed, n - 1);
      RunKeeps(cfg, strat, tickers, s, feed, n - 1);
      StepFits(cfg, strat, Run(cfg, strat, Begin(cfg, strat, tickers, s, feed), n - 1));
    }
  }

  lemma NothingToFit<S>(cfg: Config, tickers: set<Ticker>, s: S)
    ensures AllFit(Initial(cfg, tickers, s))
  {
  }

  /** In every reachable state the status on each record is true of its order: submitted while under way;
      resting, or partially filled, while on the book; and once done with, filled in full, filled in part,
      or not at all and then rejected, cancelled if it could rest, expired if it could not. */
  lemma StatusTellsTruth<S>(
    cfg: Config, strat: Strategy<S>, tickers: set<Ticker>, s: S, feed: seq<FeedEvent>, n: nat, id: nat)
    requires ValidConfig(cfg) && ValidFeed(feed) && Ahead(feed, 0)
    requires id in Reached(cfg, strat, tickers, s, feed, n).records
    ensures
      var c := Reached(cfg, strat, tickers, s, feed, n);
      Fitting(c.records[id], !NotPending(c.heap, id), id in c.orders)
  {
    RunFits(cfg, strat, tickers, s, feed, n);
    hide Reached, Fitting, NotPending;
    var c := Reached(cfg, strat, tickers, s, feed, n);
    assert FitsIn(c, id);
  }
}
