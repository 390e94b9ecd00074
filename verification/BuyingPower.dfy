/** The claim that reserving cash keeps every order within the account, over whole runs: what each step
    does to the cash still available, and exactly which runs ever fall short. */
module BuyingPower {
  import opened Units
  import opened MapSums
  import opened OrderBooks
  import opened Fees
  import opened Fills
  import opened Ledger
  import opened Engine
  import opened EngineInvariant
  import opened EngineSafety
  import opened EngineTurns
  import opened SafeRuns
  import opened TakerLeg

  // ---------------------------------------------------------------- a maker fill

  function MakerFee(cfg: Config, o: Resting, qty: Qty): int {
    cfg.fees.For(o.ticker).OrderFee([Fill(o.price, qty)], true)
  }

  lemma AfterFillSpends<S>(cfg: Config, c: Core<S>, id: nat, qty: Qty)
    requires ValidConfig(cfg) && Inv(cfg, c) && id in c.orders && id in c.records && 0 < qty <= c.orders[id].qty
    ensures
      var o, b := c.orders[id], AfterFill(cfg, c, id, qty);
      && Available(b) == Available(c) - MakerFee(cfg, o, qty) + NettedBack(c.account, o.ticker, o.side, qty)
      && id in b.orders && (o.qty == qty ==> id in b.reserved && b.reserved[id] == 0)
  {
    var o, b := c.orders[id], AfterFill(cfg, c, id, qty);
    hide *;
    FillReady(cfg, c, id);
    LatencyPositive(cfg);
    AfterFillMoney(cfg, c, id, qty);
    BuyCash(c.account, o.ticker, o.side, o.price, qty, MakerFee(cfg, o, qty));
    ReserveShrinks(c.reserved, id, o.price, o.qty, qty);
    AvailableMoves(c, b, MakerFee(cfg, o, qty), NettedBack(c.account, o.ticker, o.side, qty), Notional(o.price, qty));
  }

  lemma LatencyPositive(cfg: Config)
    requires ValidConfig(cfg)
    ensures cfg.latencyAck >= 0
  {
  }

  lemma AvailableMoves<S>(c: Core<S>, b: Core<S>, fee: int, back: int, spent: int)
    requires b.account.cash == c.account.cash - spent - fee + back && MapSum(b.reserved) == MapSum(c.reserved) - spent
    ensures Available(b) == Available(c) - fee + back
  {
    hide MapSum;
  }

  lemma FillReady<S>(cfg: Config, c: Core<S>, id: nat)
    requires Inv(cfg, c) && id in c.orders
    ensures Sound(c.account) && c.orders[id].ticker !in c.account.settled
    ensures id in c.reserved && c.reserved[id] == Notional(c.orders[id].price, c.orders[id].qty)
  {
    InvSound(cfg, c);
    OpenNotSettled(cfg, c, id);
    ReservedIs(c.orders, c.reserved, id);
  }

  lemma AfterFillMoney<S>(cfg: Config, c: Core<S>, id: nat, qty: Qty)
    requires id in c.orders && id in c.records && c.orders[id].ticker !in c.account.settled && cfg.latencyAck >= 0
    ensures
      var o, b := c.orders[id], AfterFill(cfg, c, id, qty);
      && b.account == Bought(c.account, o.ticker, o.side, o.price, qty, MakerFee(cfg, o, qty))
      && b.reserved == c.reserved[id := Notional(o.price, o.qty - qty)] && id in b.orders
  {
    AfterFillParts(cfg, c, id, qty);
    hide AfterFill, Bought, FeeSchedule.OrderFee, Notional;
  }

  lemma ReserveShrinks(reserved: map<nat, int>, id: nat, price: Price, held: Qty, qty: Qty)
    requires id in reserved && reserved[id] == Notional(price, held)
    ensures MapSum(reserved[id := Notional(price, held - qty)]) == MapSum(reserved) - Notional(price, qty)
    ensures Notional(price, 0) == 0
  {
    Put(reserved, id, Notional(price, held - qty));
    NotionalSplit(price, held, qty);
  }

  lemma RemoveReleases<S>(c: Core<S>, id: nat)
    requires id in c.orders
    ensures Available(RemoveResting(c, id)) == Available(c) + (if id in c.reserved then c.reserved[id] else 0)
  {
    hide Without;
    Drop(c.reserved, id);
  }

  /** A maker fill is paid from its own reservation, so all it takes from the cash still available is its
      fee, and all it adds is what netting pays back. */
  lemma MakerFillSpends<S>(cfg: Config, c: Core<S>, id: nat, fill: Qty)
    requires ValidConfig(cfg) && Inv(cfg, c) && c.error.None? && id in c.orders && id in c.records
    ensures
      var o, qty := c.orders[id], Min(fill, c.orders[id].qty);
      Available(MakerFill(cfg, c, id, fill))
      == if qty <= 0 then Available(c)
         else Available(c) - MakerFee(cfg, o, qty) + NettedBack(c.account, o.ticker, o.side, qty)
  {
    var o := c.orders[id];
    var qty := Min(fill, o.qty);
    if qty > 0 {
      hide Inv;
      FillReady(cfg, c, id);
      hide Sound, Notional, AfterFill, MakerFill, RemoveResting, Available, MakerFee, NettedBack;
      MakerFillIs(cfg, c, id, fill);
      AfterFillSpends(cfg, c, id, qty);
      if o.qty == qty {
        RemoveReleases(AfterFill(cfg, c, id, qty), id);
      }
    }
  }

  /** A maker fill is bought and logged once, at the order's own price, flagged as a maker's, with the maker's
      fee. */
  lemma MakerFillLogs<S>(cfg: Config, c: Core<S>, id: nat, fill: Qty)
    requires ValidConfig(cfg) && Inv(cfg, c) && c.error.None? && id in c.orders && id in c.records
    ensures
      var o, qty := c.orders[id], Min(fill, c.orders[id].qty);
      var b := MakerFill(cfg, c, id, fill);
      if qty <= 0 then b == c
      else
        && b.fillLog == c.fillLog + [FillRecord(c.now, id, o.ticker, o.side, o.price, qty, MakerFee(cfg, o, qty), true, o.tag)]
        && b.account == Bought(c.account, o.ticker, o.side, o.price, qty, MakerFee(cfg, o, qty))
  {
    var o, qty := c.orders[id], Min(fill, c.orders[id].qty);
    if qty > 0 {
      hide Inv;
      FillReady(cfg, c, id);
      AfterFillParts(cfg, c, id, qty);
      hide Sound, Notional, AfterFill, MakerFill, RemoveResting, Bought, FeeSchedule.OrderFee;
      MakerFillIs(cfg, c, id, fill);
      if o.qty == qty {
        RemoveBooks(AfterFill(cfg, c, id, qty), id);
      }
    }
  }

  lemma RemoveBooks<S>(c: Core<S>, id: nat)
    requires id in c.orders
    ensures RemoveResting(c, id).fillLog == c.fillLog && RemoveResting(c, id).account == c.account
  {
    hide Without;
  }

  /** The fee of a maker fill is covered by the cash available and what netting pays back. */
  ghost predicate HitAfforded<S>(cfg: Config, c: Core<S>, id: nat, fill: Qty)
    requires id in c.orders
  {
    var o, qty := c.orders[id], Min(fill, c.orders[id].qty);
    qty > 0 ==> MakerFee(cfg, o, qty) <= Available(c) + NettedBack(c.account, o.ticker, o.side, qty)
  }

  lemma HitSpends<S>(cfg: Config, c: Core<S>, id: nat, o: Resting, fill: Qty)
    requires ValidConfig(cfg) && Inv(cfg, c) && c.error.None? && id in c.orders && id in c.records
    requires SameHolding(c.orders[id], o)
    ensures
      var was, qty := c.orders[id], Min(fill, c.orders[id].qty);
      Available(Hit(cfg, c, id, o, fill))
      == if qty <= 0 then Available(c)
         else Available(c) - MakerFee(cfg, was, qty) + NettedBack(c.account, was.ticker, was.side, qty)
  {
    var moved := c.(orders := c.orders[id := o]);
    assert o.qty > 0;
    MoveKeeps(cfg, c, id, o);
    SameAvailable(c, moved);
    SameFee(cfg, c.orders[id], o, Min(fill, o.qty));
    hide Inv, MakerFill, MakerFee, NettedBack, Available;
    MakerFillSpends(cfg, moved, id, fill);
  }

  lemma SameFee(cfg: Config, a: Resting, b: Resting, qty: Qty)
    requires SameHolding(a, b)
    ensures MakerFee(cfg, b, qty) == MakerFee(cfg, a, qty)
  {
  }

  /** A maker fill leaves a shortfall exactly if its fee is not covered. */
  lemma HitExactly<S>(cfg: Config, c: Core<S>, id: nat, o: Resting, fill: Qty)
    requires ValidConfig(cfg) && Inv(cfg, c) && c.error.None? && id in c.orders && id in c.records
    requires SameHolding(c.orders[id], o) && Available(c) >= 0
    ensures Available(Hit(cfg, c, id, o, fill)) >= 0 <==> HitAfforded(cfg, c, id, fill)
  {
    hide Inv, Hit, MakerFee, NettedBack, Available;
    HitSpends(cfg, c, id, o, fill);
  }

  // ---------------------------------------------------------------- resting orders come off

  lemma DropReleases<S>(cfg: Config, c: Core<S>, id: nat)
    requires Base(cfg, c) && id in c.orders && id in c.records
    ensures Available(DropResting(c, id)) >= Available(c)
  {
    ReservedRemove(c.orders, c.reserved, c.records, id);
    hide Base, Without;
    Drop(c.reserved, id);
  }

  /** Taking orders off only ever frees cash. */
  lemma {:induction false} DropAllReleases<S>(cfg: Config, c: Core<S>, ids: seq<nat>)
    requires Base(cfg, c)
    ensures Available(DropAll(c, ids)) >= Available(c)
    decreases |ids|
  {
    hide Base, DropResting, Available;
    if ids != [] {
      if ids[0] in c.orders {
        OnRecord(cfg, c, ids[0]);
        DropKeeps(cfg, c, ids[0]);
        DropReleases(cfg, c, ids[0]);
        DropAllReleases(cfg, DropResting(c, ids[0]), ids[1..]);
      } else {
        DropAllReleases(cfg, c, ids[1..]);
      }
    }
  }

  lemma SettleReleases<S>(cfg: Config, c: Core<S>, t: Ticker, v: Price)
    requires Inv(cfg, c) && 0 <= v <= PRICE_SCALE
    ensures Available(c.(account := Settled(c.account, t, v))) >= Available(c)
  {
    SettleKeeps(c.account, t, v, cfg.initialCash);
    hide Settled, Sound, Balanced, MapSum;
  }

  lemma SameAvailable<S>(a: Core<S>, b: Core<S>)
    requires b.account == a.account && b.reserved == a.reserved
    ensures Available(b) == Available(a)
  {
  }

  // ---------------------------------------------------------------- instant by instant

  /** Over a print shown to these orders in turn, no maker fill ever leaves a shortfall ... */
  ghost predicate MatchClear<S>(cfg: Config, c: Core<S>, ids: seq<nat>, trade: Trade, budget: Budget)
    decreases |ids|
  {
    Available(c) >= 0 &&
    if ids == [] || c.error.Some? then true
    else if ids[0] !in c.orders || ids[0] !in c.records then MatchClear(cfg, c, ids[1..], trade, budget)
    else
      var (after, fill, next) := PrintOn(cfg, c.orders[ids[0]], trade, budget);
      MatchClear(cfg, Hit(cfg, c, ids[0], after, fill), ids[1..], trade, next)
  }

  /** ... and: every one of them can pay its fee. */
  ghost predicate MatchAfforded<S>(cfg: Config, c: Core<S>, ids: seq<nat>, trade: Trade, budget: Budget)
    decreases |ids|
  {
    if ids == [] || c.error.Some? then true
    else if ids[0] !in c.orders || ids[0] !in c.records then MatchAfforded(cfg, c, ids[1..], trade, budget)
    else
      var (after, fill, next) := PrintOn(cfg, c.orders[ids[0]], trade, budget);
      HitAfforded(cfg, c, ids[0], fill) && MatchAfforded(cfg, Hit(cfg, c, ids[0], after, fill), ids[1..], trade, next)
  }

  lemma {:induction false} MatchExactly<S>(cfg: Config, c: Core<S>, ids: seq<nat>, trade: Trade, budget: Budget)
    requires ValidConfig(cfg) && Inv(cfg, c) && c.error.None? && Available(c) >= 0
    ensures MatchClear(cfg, c, ids, trade, budget) <==> MatchAfforded(cfg, c, ids, trade, budget)
    ensures MatchClear(cfg, c, ids, trade, budget) ==> Available(MatchResting(cfg, c, ids, trade, budget)) >= 0
    decreases |ids|
  {
    hide Inv, Hit, PrintOn, SameHolding, HitAfforded, Available;
    if ids == [] {
    } else if ids[0] in c.orders && ids[0] in c.records {
      var (after, fill, next) := PrintOn(cfg, c.orders[ids[0]], trade, budget);
      HoldingPrintOn(cfg, c.orders[ids[0]], trade, budget);
      HitKeeps(cfg, c, ids[0], after, fill);
      HitExactly(cfg, c, ids[0], after, fill);
      var b := Hit(cfg, c, ids[0], after, fill);
      if Available(b) >= 0 {
        MatchExactly(cfg, b, ids[1..], trade, next);
      } else {
        assert !MatchClear(cfg, b, ids[1..], trade, next);
      }
    } else {
      MatchExactly(cfg, c, ids[1..], trade, budget);
    }
  }

  ghost predicate ShowClear<S>(cfg: Config, c: Core<S>, ids: seq<nat>, book: Book)
    decreases |ids|
  {
    Available(c) >= 0 &&
    if ids == [] || c.error.Some? then true
    else if ids[0] !in c.orders || ids[0] !in c.records then ShowClear(cfg, c, ids[1..], book)
    else
      var (after, fill) := cfg.maker.OnBook(c.orders[ids[0]], book);
      ShowClear(cfg, Hit(cfg, c, ids[0], after, fill), ids[1..], book)
  }

  ghost predicate ShowAfforded<S>(cfg: Config, c: Core<S>, ids: seq<nat>, book: Book)
    decreases |ids|
  {
    if ids == [] || c.error.Some? then true
    else if ids[0] !in c.orders || ids[0] !in c.records then ShowAfforded(cfg, c, ids[1..], book)
    else
      var (after, fill) := cfg.maker.OnBook(c.orders[ids[0]], book);
      HitAfforded(cfg, c, ids[0], fill) && ShowAfforded(cfg, Hit(cfg, c, ids[0], after, fill), ids[1..], book)
  }

  lemma {:induction false} ShowExactly<S>(cfg: Config, c: Core<S>, ids: seq<nat>, book: Book)
    requires ValidConfig(cfg) && Inv(cfg, c) && c.error.None? && Available(c) >= 0
    ensures ShowClear(cfg, c, ids, book) <==> ShowAfforded(cfg, c, ids, book)
    ensures ShowClear(cfg, c, ids, book) ==> Available(ShowBook(cfg, c, ids, book)) >= 0
    decreases |ids|
  {
    hide Inv, Hit, QueueModel.OnBook, SameHolding, HitAfforded, Available;
    if ids == [] {
    } else if ids[0] in c.orders && ids[0] in c.records {
      var (after, fill) := cfg.maker.OnBook(c.orders[ids[0]], book);
      HoldingOnBook(cfg.maker, c.orders[ids[0]], book);
      HitKeeps(cfg, c, ids[0], after, fill);
      HitExactly(cfg, c, ids[0], after, fill);
      var b := Hit(cfg, c, ids[0], after, fill);
      if Available(b) >= 0 {
        ShowExactly(cfg, b, ids[1..], book);
      } else {
        assert !ShowClear(cfg, b, ids[1..], book);
      }
    } else {
      ShowExactly(cfg, c, ids[1..], book);
    }
  }

  // ---------------------------------------------------------------- feed events

  /** The state with an event's data in its market, before any resting order has seen it. */
  function Received<S>(cfg: Config, c: Core<S>, ev: FeedEvent): Core<S>
    requires ev.ticker in c.markets
  {
    var st := c.markets[ev.ticker];
    match ev
    case BookUpdate(ts, t, yes, no) => InMarket(c, t, st.(book := Snapshot(yes, no), bookTs := Some(ts)))
    case TradeTick(_, t, trade) =>
      InMarket(c, t, st.(lastTrade := Some(trade), trades := Remember(st.trades, trade, cfg.tradeHistory)))
    case _ => c
  }

  /** Through one feed event no maker fill leaves a shortfall ... */
  ghost predicate EventClear<S>(cfg: Config, c: Core<S>, ev: FeedEvent) {
    && Available(ApplyEvent(cfg, c, ev)) >= 0
    && (ev.ticker in c.markets ==>
          && (ev.TradeTick? ==> MatchClear(cfg, Received(cfg, c, ev), c.Queue(ev.ticker), ev.trade, map[]))
          && (ev.BookUpdate? && Snapshot(ev.yes, ev.no).Some? ==>
                ShowClear(cfg, Received(cfg, c, ev), c.Queue(ev.ticker), Snapshot(ev.yes, ev.no).value)))
  }

  /** ... and: every maker fill it brings can pay its fee. */
  ghost predicate EventAfforded<S>(cfg: Config, c: Core<S>, ev: FeedEvent) {
    ev.ticker in c.markets ==>
      && (ev.TradeTick? ==> MatchAfforded(cfg, Received(cfg, c, ev), c.Queue(ev.ticker), ev.trade, map[]))
      && (ev.BookUpdate? && Snapshot(ev.yes, ev.no).Some? ==>
            ShowAfforded(cfg, Received(cfg, c, ev), c.Queue(ev.ticker), Snapshot(ev.yes, ev.no).value))
  }

  lemma ReceivedKeeps<S>(cfg: Config, c: Core<S>, ev: FeedEvent)
    requires Inv(cfg, c) && ev.ticker in c.markets
    requires ev.TradeTick? || (ev.BookUpdate? && Snapshot(ev.yes, ev.no).Some?)
    ensures Inv(cfg, Received(cfg, c, ev)) && Received(cfg, c, ev).error == c.error
    ensures Available(Received(cfg, c, ev)) == Available(c)
    ensures ev.TradeTick? ==>
              ApplyEvent(cfg, c, ev) == MatchResting(cfg, Received(cfg, c, ev), c.Queue(ev.ticker), ev.trade, map[])
    ensures ev.BookUpdate? ==>
              ApplyEvent(cfg, c, ev)
              == ShowBook(cfg, Received(cfg, c, ev), c.Queue(ev.ticker), Snapshot(ev.yes, ev.no).value)
  {
    InvBase(cfg, c);
    hide Inv, Base, MatchResting, ShowBook, Snapshot, Remember;
    BookOf(cfg, c, ev.ticker);
    var b := Received(cfg, c, ev);
    DataKeeps(cfg, c, ev.ticker, b.markets[ev.ticker]);
    assert b == InMarket(c, ev.ticker, b.markets[ev.ticker]);
  }

  /** Events that bring no fills never lower what is available. */
  lemma OtherEvents<S>(cfg: Config, c: Core<S>, ev: FeedEvent)
    requires Inv(cfg, c) && ValidEvent(ev)
    requires ev.ticker in c.markets ==> !ev.TradeTick? && (ev.BookUpdate? ==> Snapshot(ev.yes, ev.no).None?)
    ensures Available(ApplyEvent(cfg, c, ev)) >= Available(c)
  {
    InvBase(cfg, c);
    hide Inv, Base, DropAll, Snapshot, Settled, MapSum;
    if !ev.BookConfirm? && ev.ticker in c.markets {
      var t, st := ev.ticker, c.markets[ev.ticker];
      if ev.MarketClose? {
        ClosingReleases(cfg, c, t, st.(closed := true));
      } else if ev.Settlement? {
        var m := st.(closed := true, outcome := Some(ev.value));
        ClosingReleases(cfg, c, t, m);
        CloseKeeps(cfg, c, t, m);
        SettleReleases(cfg, DropAll(InMarket(c, t, m), c.Queue(t)), t, ev.value);
      }
    }
  }

  lemma ClosingReleases<S>(cfg: Config, c: Core<S>, t: Ticker, m: MarketState)
    requires Inv(cfg, c) && t in c.markets && m.book == c.markets[t].book
    requires c.markets[t].outcome.Some? ==> m.outcome.Some?
    ensures Available(DropAll(InMarket(c, t, m), c.Queue(t))) >= Available(c)
  {
    InvBase(cfg, c);
    ClosedBase(cfg, c, t, m);
    DropAllReleases(cfg, InMarket(c, t, m), c.Queue(t));
    hide Inv, Base, DropAll, MapSum;
  }

  lemma EventExactly<S>(cfg: Config, c: Core<S>, ev: FeedEvent)
    requires ValidConfig(cfg) && Inv(cfg, c) && c.error.None? && ValidEvent(ev) && Available(c) >= 0
    ensures EventClear(cfg, c, ev) <==> EventAfforded(cfg, c, ev)
  {
    hide Inv, Available, ApplyEvent, MatchClear, MatchAfforded, ShowClear, ShowAfforded, Received, Snapshot, Core.Queue, ValidEvent;
    if ev.ticker in c.markets && ev.TradeTick? {
      ReceivedKeeps(cfg, c, ev);
      MatchExactly(cfg, Received(cfg, c, ev), c.Queue(ev.ticker), ev.trade, map[]);
    } else if ev.ticker in c.markets && ev.BookUpdate? && Snapshot(ev.yes, ev.no).Some? {
      ReceivedKeeps(cfg, c, ev);
      ShowExactly(cfg, Received(cfg, c, ev), c.Queue(ev.ticker), Snapshot(ev.yes, ev.no).value);
    } else {
      OtherEvents(cfg, c, ev);
    }
  }

  ghost predicate BatchClear<S>(cfg: Config, c: Core<S>, batch: seq<FeedEvent>)
    decreases |batch|
  {
    batch != [] && c.error.None? ==>
      EventClear(cfg, c, batch[0]) && BatchClear(cfg, ApplyEvent(cfg, c, batch[0]), batch[1..])
  }

  ghost predicate BatchAfforded<S>(cfg: Config, c: Core<S>, batch: seq<FeedEvent>)
    decreases |batch|
  {
    batch != [] && c.error.None? ==>
      EventAfforded(cfg, c, batch[0]) && BatchAfforded(cfg, ApplyEvent(cfg, c, batch[0]), batch[1..])
  }

  lemma {:induction false} BatchExactly<S>(cfg: Config, c: Core<S>, batch: seq<FeedEvent>)
    requires ValidConfig(cfg) && Inv(cfg, c) && c.error in {None, Some(BadSnapshot)} && Available(c) >= 0
    requires forall i | 0 <= i < |batch| :: ValidEvent(batch[i])
    ensures BatchClear(cfg, c, batch) <==> BatchAfforded(cfg, c, batch)
    ensures BatchClear(cfg, c, batch) ==> Available(ApplyAll(cfg, c, batch)) >= 0
    decreases |batch|
  {
    hide Inv, ApplyEvent, ValidEvent, EventAfforded, Available, EventClear;
    if batch != [] && c.error.None? {
      EventKeeps(cfg, c, batch[0]);
      EventExactly(cfg, c, batch[0]);
      if EventClear(cfg, c, batch[0]) {
        ClearAfter(cfg, c, batch[0]);
        BatchExactly(cfg, ApplyEvent(cfg, c, batch[0]), batch[1..]);
      }
    }
  }

  lemma ClearAfter<S>(cfg: Config, c: Core<S>, ev: FeedEvent)
    requires EventClear(cfg, c, ev)
    ensures Available(ApplyEvent(cfg, c, ev)) >= 0
  {
  }

  // ---------------------------------------------------------------- arriving orders

  /** What an accepted order leaves of the cash available, its fee aside. */
  ghost function LeftFor<S>(cfg: Config, c: Core<S>, o: Order): int
    requires o.ticker in c.markets
  {
    var fills := FillsOf(cfg, c, o);
    Available(c) - SumCost(fills) - RestedOf(o, fills) + NettedBack(c.account, o.ticker, o.side, SumQty(fills))
  }

  /** The fee an order is charged on arrival, if it is accepted, is covered by what it leaves. */
  ghost predicate ArrivalAfforded<S>(cfg: Config, c: Core<S>, o: Order)
    requires o.ticker in c.markets
  {
    Accepted(c, o) ==> FeeOf(cfg, o, FillsOf(cfg, c, o)) <= LeftFor(cfg, c, o)
  }

  /** An order the checks turn away costs nothing. */
  lemma TurnedAway<S>(cfg: Config, c: Core<S>, id: nat, o: Order)
    requires Dispatchable(c, Arrival(id, o)) && !Accepted(c, o)
    ensures Available(OnArrival(cfg, c, id, o)) == Available(c)
  {
    hide Rest, Take, TakerFills, SumQty, Notional, MapSum, Book.Valid, Book.BestAsk;
  }

  lemma ArrivalExactly<S>(cfg: Config, c: Core<S>, id: nat, o: Order)
    requires ValidConfig(cfg) && Inv(cfg, c) && c.error.None? && Arrived(c, id, o) && Dispatchable(c, Arrival(id, o))
    requires o.ticker in c.markets && Available(c) >= 0
    ensures Available(OnArrival(cfg, c, id, o)) >= 0 <==> ArrivalAfforded(cfg, c, o)
  {
    hide Inv, Available, Accepted, FillsOf, FeeOf, RestedOf, NettedBack, SumQty, SumCost, OnArrival, Arrived, Dispatchable;
    if Accepted(c, o) {
      BuyingPowerExactly(cfg, c, id, o);
    } else {
      TurnedAway(cfg, c, id, o);
    }
  }

  // ---------------------------------------------------------------- whole turns

  ghost predicate TurnClear<S>(cfg: Config, strat: Strategy<S>, w: World<S>) {
    && Available(w.core) >= 0 && Available(Step(cfg, strat, w).core) >= 0
    && (!Finished(w) && TakesFeed(w) && w.feed[0].ts >= w.core.now ==>
          BatchClear(cfg, w.core.(now := w.feed[0].ts), w.feed[..Simultaneous(w.feed, w.feed[0].ts)]))
  }

  ghost predicate TurnAfforded<S>(cfg: Config, w: World<S>) {
    !Finished(w) ==>
      if TakesFeed(w) then
        w.feed[0].ts >= w.core.now ==>
          BatchAfforded(cfg, w.core.(now := w.feed[0].ts), w.feed[..Simultaneous(w.feed, w.feed[0].ts)])
      else
        var m := Next(w.core.heap);
        m.payload.Arrival? && m.payload.order.ticker in w.core.markets ==>
          ArrivalAfforded(cfg, w.core.(now := m.ts, heap := w.core.heap - {m}), m.payload.order)
  }

  /** Cancels, notices and strategy calls never lower what is available. */
  lemma OtherMessages<S>(cfg: Config, strat: Strategy<S>, c: Core<S>, m: Message)
    requires ValidConfig(cfg) && Inv(cfg, c) && IsNext(c.heap, m) && !m.payload.Arrival?
    ensures Available(HeapTurn(cfg, strat, c, m)) >= Available(c)
  {
    hide Inv, OnCancel, Tell, MapSum;
    Pop(cfg, c, m);
    var b := c.(now := m.ts, heap := c.heap - {m});
    match m.payload
    case Cancellation(id) => CancelReleases(cfg, b, id);
    case Notify(n) => TellKeeps(cfg, strat, b, Noticed(n));
  }

  lemma CancelReleases<S>(cfg: Config, c: Core<S>, id: nat)
    requires Inv(cfg, c)
    ensures Available(OnCancel(c, id)) >= Available(c)
  {
    InvBase(cfg, c);
    hide Inv, Base, DropResting, Available;
    if id in c.orders && id in c.records {
      DropReleases(cfg, c, id);
    }
  }

  lemma HeapTurnExactly<S>(cfg: Config, strat: Strategy<S>, c: Core<S>, m: Message)
    requires ValidConfig(cfg) && Inv(cfg, c) && c.error.None? && IsNext(c.heap, m) && Available(c) >= 0
    ensures
      var b := c.(now := m.ts, heap := c.heap - {m});
      Available(HeapTurn(cfg, strat, c, m)) >= 0
      <==> (m.payload.Arrival? && m.payload.order.ticker in c.markets ==> ArrivalAfforded(cfg, b, m.payload.order))
  {
    var b := c.(now := m.ts, heap := c.heap - {m});
    SameAvailable(c, b);
    hide Inv, OnArrival, Arrived, Available, ArrivalAfforded, IsNext;
    if m.payload.Arrival? {
      Pop(cfg, c, m);
      ListedOrder(b, m.payload);
      ArrivalExactly(cfg, b, m.payload.orderId, m.payload.order);
    } else {
      OtherMessages(cfg, strat, c, m);
    }
  }

  lemma ListedOrder<S>(c: Core<S>, p: Payload)
    requires p.Arrival? && Dispatchable(c, p)
    ensures p.order.ticker in c.markets
  {
  }

  lemma FeedTurnExactly<S>(cfg: Config, strat: Strategy<S>, c: Core<S>, ts: int, batch: seq<FeedEvent>)
    requires ValidConfig(cfg) && Inv(cfg, c) && c.error.None? && Available(c) >= 0
    requires c.now <= ts && forall m | m in c.heap :: ts <= m.ts
    requires forall i | 0 <= i < |batch| :: ValidEvent(batch[i])
    ensures BatchClear(cfg, c.(now := ts), batch) <==> BatchAfforded(cfg, c.(now := ts), batch)
    ensures BatchClear(cfg, c.(now := ts), batch) ==> Available(FeedTurn(cfg, strat, c, ts, batch)) >= 0
  {
    var at := c.(now := ts);
    Advance(cfg, c, ts);
    SameAvailable(c, at);
    hide Inv, ApplyAll, NotifyAll, ValidEvent, Available, BatchClear, BatchAfforded;
    ApplyAllKeeps(cfg, at, batch);
    BatchExactly(cfg, at, batch);
    var applied := ApplyAll(cfg, at, batch);
    NotifyAllKeeps(cfg, strat, applied, batch);
    SameAvailable(applied, NotifyAll(cfg, strat, applied, batch));
  }

  /** A turn that begins without a shortfall has none at any instant if and only if every fee it charges is
      covered when it is charged. */
  lemma TurnExactly<S>(cfg: Config, strat: Strategy<S>, w: World<S>)
    requires ValidConfig(cfg) && Good(cfg, w) && Available(w.core) >= 0
    ensures TurnClear(cfg, strat, w) <==> TurnAfforded(cfg, w)
  {
    hide Inv, FeedTurn, HeapTurn, ValidEvent, Available, BatchClear, BatchAfforded, ArrivalAfforded;
    var c := w.core;
    if Finished(w) {
    } else if TakesFeed(w) {
      var ts := w.feed[0].ts;
      NothingSooner(w);
      if ts >= c.now {
        FeedTurnExactly(cfg, strat, c, ts, w.feed[..Simultaneous(w.feed, ts)]);
      }
    } else {
      HeapTurnExactly(cfg, strat, c, Next(c.heap));
    }
  }

  lemma NothingSooner<S>(w: World<S>)
    requires TakesFeed(w)
    ensures forall m | m in w.core.heap :: w.feed[0].ts <= m.ts
  {
    forall m | m in w.core.heap
      ensures w.feed[0].ts <= m.ts
    {
      assert Before(Next(w.core.heap), m);
    }
  }

  // ---------------------------------------------------------------- whole runs

  /** The run after n turns. */
  ghost function At<S>(
    cfg: Config, strat: Strategy<S>, tickers: set<Ticker>, s: S, feed: seq<FeedEvent>, n: nat): World<S> {
    Run(cfg, strat, Begin(cfg, strat, tickers, s, feed), n)
  }

  lemma OpensClear<S>(cfg: Config, strat: Strategy<S>, tickers: set<Ticker>, s: S, feed: seq<FeedEvent>)
    requires ValidConfig(cfg)
    ensures Available(At(cfg, strat, tickers, s, feed, 0).core) == cfg.initialCash >= 0
  {
    hide Inv, Tell;
    var c := Initial(cfg, tickers, s);
    InitialInv(cfg, tickers, s);
    TellKeeps(cfg, strat, c, Start);
  }

  lemma {:induction false} AffordedIsClear<S>(
    cfg: Config, strat: Strategy<S>, tickers: set<Ticker>, s: S, feed: seq<FeedEvent>, n: nat)
    requires ValidConfig(cfg) && ValidFeed(feed) && Ahead(feed, 0)
    requires forall k: nat | k < n :: TurnAfforded(cfg, At(cfg, strat, tickers, s, feed, k))
    ensures Available(At(cfg, strat, tickers, s, feed, n).core) >= 0
    ensures forall k: nat | k < n :: TurnClear(cfg, strat, At(cfg, strat, tickers, s, feed, k))
  {
    hide TurnAfforded, Good, Available, Step, Begin, ValidFeed;
    if n == 0 {
      OpensClear(cfg, strat, tickers, s, feed);
    } else {
      AffordedIsClear(cfg, strat, tickers, s, feed, n - 1);
      RunKeeps(cfg, strat, tickers, s, feed, n - 1);
      TurnExactly(cfg, strat, At(cfg, strat, tickers, s, feed, n - 1));
    }
  }

  /** Buying power over whole runs: at no instant of the run's first n turns is there less than nothing
      available if and only if every fee charged in them, on arrival or on a maker fill, is covered by what
      was available when it was charged. */
  lemma BuyingPowerOverRuns<S>(
    cfg: Config, strat: Strategy<S>, tickers: set<Ticker>, s: S, feed: seq<FeedEvent>, n: nat)
    requires ValidConfig(cfg) && ValidFeed(feed) && Ahead(feed, 0)
    ensures (forall k: nat | k < n :: TurnClear(cfg, strat, At(cfg, strat, tickers, s, feed, k)))
       <==> (forall k: nat | k < n :: TurnAfforded(cfg, At(cfg, strat, tickers, s, feed, k)))
  {
    if forall k: nat | k < n :: TurnAfforded(cfg, At(cfg, strat, tickers, s, feed, k)) {
      hide TurnAfforded, TurnClear, At, ValidFeed;
      AffordedIsClear(cfg, strat, tickers, s, feed, n);
    } else {
      var k: nat :| k < n && !TurnAfforded(cfg, At(cfg, strat, tickers, s, feed, k));
      hide TurnAfforded, Good, Available, Step, Begin, ValidFeed;
      RunKeeps(cfg, strat, tickers, s, feed, k);
      if TurnClear(cfg, strat, At(cfg, strat, tickers, s, feed, k)) {
        TurnExactly(cfg, strat, At(cfg, strat, tickers, s, feed, k));
      }
    }
  }

  // ---------------------------------------------------------------- a shortfall

  const POSTED: Order := Order(M, YES, 5_000, 100, POST_ONLY, "")
  const MAKERS: Config := PLAIN.(fees := FeeBook(map[], FeeSchedule(true, 1.0, EXACT_6DP, true)))
  const SWEEP: FeedEvent := TradeTick(0, M, Trade(4_000, 6_000, 100, Some(NO)))

  /** Fifty cents in the account, and an order to rest a contract at fifty cents just arrived. */
  function Posting(): Core<int> {
    Noted(MAKERS, Initial<int>(MAKERS, {M}, 0), POSTED)
  }

  ghost function After<S>(cfg: Config, c: Core<S>, id: nat, o: Order): Core<S> {
    if Dispatchable(c, Arrival(id, o)) then OnArrival(cfg, c, id, o) else c
  }

  ghost function Posted(): Core<int> {
    After(MAKERS, Posting(), 1, POSTED)
  }

  lemma PostingInv()
    ensures ValidConfig(MAKERS) && Inv(MAKERS, Posting()) && Arrived(Posting(), 1, POSTED)
    ensures Posting().error.None? && Posting().records[1].filled == 0
    ensures Dispatchable(Posting(), Arrival(1, POSTED))
  {
    InitialInv(MAKERS, {M}, 0);
    hide Inv;
    NotedInv(MAKERS, Initial<int>(MAKERS, {M}, 0), POSTED);
  }

  lemma PostingAccepted()
    ensures Accepted(Posting(), POSTED) && FillsOf(MAKERS, Posting(), POSTED) == []
    ensures Available(Posting()) == 500_000
  {
  }

  lemma PostedRests()
    ensures Posted().orders.Keys == {1} && Posted().Queue(M) == [1] && 1 in Posted().records
    ensures var o := Posted().orders[1]; o.ticker == M && o.side == YES && o.price == 5_000 && o.qty == 100
    ensures Posted().error.None? && M in Posted().markets && Posted().account == Posting().account
  {
    PostingInv();
    hide Inv, Arrived;
    PostingAccepted();
    hide Accepted, FillsOf;
    AcceptedIs(MAKERS, Posting(), 1, POSTED);
  }

  lemma PostedInv()
    ensures Inv(MAKERS, Posted()) && Available(Posted()) == 0
    ensures ArrivalAfforded(MAKERS, Posting(), POSTED)
  {
    PostingInv();
    PostingAccepted();
    hide Inv, Accepted, Posting, OnArrival, Dispatchable, Arrived;
    ArrivalKeeps(MAKERS, Posting(), 1, POSTED);
    ArrivalSpends(MAKERS, Posting(), 1, POSTED);
    InvSound(MAKERS, Posting());
    NothingBack(Posting().account, M, YES);
    NoFills();
  }

  lemma SweepHits(o: Resting)
    requires o.side == YES && o.price == 5_000 && o.qty == 100
    ensures PrintOn(MAKERS, o, SWEEP.trade, map[]).0 == o && PrintOn(MAKERS, o, SWEEP.trade, map[]).1 == 100
  {
  }

  lemma SweepFee(o: Resting)
    requires o.ticker == M && o.price == 5_000
    ensures MakerFee(MAKERS, o, 100) == 4_375
  {
    var f := FeeSchedule(true, 1.0, EXACT_6DP, true);
    assert f.RoundedTotal([], true) == 0;
    assert f.FillFee(5_000, 100, true) == 4_375;
    assert [Fill(5_000, 100)][..0] == [];
    hide FeeSchedule.FillFee;
    assert f.RoundedTotal([Fill(5_000, 100)], true) == 4_375;
  }

  /** An order may meet its own condition and still break the claim: it rests with all the cash there is
      reserved for it, is charged nothing, and when a print sweeps it the maker fee is paid out of
      nothing. */
  lemma MakerFeesOutrunCash()
    ensures Inv(MAKERS, Posting()) && Available(Posting()) == Notional(5_000, 100)
    ensures Accepted(Posting(), POSTED) && ArrivalAfforded(MAKERS, Posting(), POSTED) && Available(Posted()) == 0
    ensures Available(ApplyEvent(MAKERS, Posted(), SWEEP)) == -4_375
  {
    PostingInv();
    PostingAccepted();
    PostedInv();
    PostedRests();
    hide Inv, Accepted, Posting, Posted, ArrivalAfforded, Arrived, Available, Hit, PrintOn, MakerFee, FillsOf, Dispatchable;
    ReceivedKeeps(MAKERS, Posted(), SWEEP);
    SweepReceived(MAKERS, Posted());
    var b := Received(MAKERS, Posted(), SWEEP);
    var o := b.orders[1];
    SweepHits(o);
    HoldingPrintOn(MAKERS, o, SWEEP.trade, map[]);
    HitSpends(MAKERS, b, 1, o, 100);
    SweepFee(o);
    FreshPosition();
    HitsOnce(MAKERS, b, o);
  }

  lemma SweepReceived<S>(cfg: Config, c: Core<S>)
    requires M in c.markets
    ensures var b := Received(cfg, c, SWEEP);
            b.orders == c.orders && b.records == c.records && b.account == c.account && b.error == c.error
  {
  }

  lemma FreshPosition()
    ensures NettedBack(Posting().account, M, YES, 100) == 0
  {
    NotionalSplit(PRICE_SCALE, 0, 0);
  }

  lemma HitsOnce<S>(cfg: Config, b: Core<S>, o: Resting)
    requires 1 in b.orders && 1 in b.records && b.error.None? && b.orders[1] == o
    requires PrintOn(cfg, o, SWEEP.trade, map[]).0 == o && PrintOn(cfg, o, SWEEP.trade, map[]).1 == 100
    ensures MatchResting(cfg, b, [1], SWEEP.trade, map[]) == Hit(cfg, b, 1, o, 100)
  {
    hide Hit, PrintOn;
    assert [1][1..] == [];
  }
}
