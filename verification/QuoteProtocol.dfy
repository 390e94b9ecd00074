/** The maker's cancel/replace protocol on top of the engine, in every reachable state: one order a side,
    no order cancelled twice, nothing placed once the kill-switch has tripped. */
module QuoteProtocol {
  import opened Units
  import opened Sorting
  import opened OrderBooks
  import opened Fills
  import opened Engine
  import opened EngineGrowth
  import opened EngineInvariant
  import opened EngineSafety
  import opened EngineTurns
  import opened SafeRuns
  import opened MarketMaker

  function OrderKey(o: Order): Key {
    (o.ticker, o.side)
  }

  // ---------------------------------------------------------------- what one call asks for

  function PlacedKeys(acts: seq<Action>): set<Key> {
    if acts == [] then {}
    else (if acts[0].Place? then {OrderKey(acts[0].order)} else {}) + PlacedKeys(acts[1..])
  }

  /** New orders of one call: each on a key of its own, where nothing of ours rests and the last order is
      old enough. */
  ghost predicate PlacesOk(p: Params, v: View, m: Maker, acts: seq<Action>) {
    && (forall i | 0 <= i < |acts| && acts[i].Place? ::
          var o := acts[i].order;
          && o.tag == TAG && Live(v, o.ticker, o.side).None? && v.now - m.LastPlace(OrderKey(o)) >= p.minRequote)
    && forall i, j | 0 <= i < j < |acts| && acts[i].Place? && acts[j].Place? ::
         OrderKey(acts[i].order) != OrderKey(acts[j].order)
  }

  /** Cancels so far: every one logged and remembered, none twice. */
  ghost predicate WithdrawnOnce(m: Maker) {
    && (forall i | 0 <= i < |m.log| && m.log[i].Withdrawn? :: m.log[i].id in m.cancelling)
    && forall i, j | 0 <= i < j < |m.log| && m.log[i].Withdrawn? && m.log[j].Withdrawn? :: m.log[i].id != m.log[j].id
  }

  /** Only cancels were added. */
  ghost predicate OnlyCancels(a: Call, b: Call) {
    && b.maker.lastPlace == a.maker.lastPlace && b.maker.killed == a.maker.killed && b.nextId == a.nextId
    && a.sent <= b.sent && (forall i | |a.sent| <= i < |b.sent| :: b.sent[i].Cancel?)
    && (WithdrawnOnce(a.maker) ==> WithdrawnOnce(b.maker))
  }

  lemma CancelOneAdds(p: Params, v: View, c: Call, id: nat)
    requires id in v.orders
    ensures OnlyCancels(c, CancelOne(p, v, c, id))
  {
    var b := CancelOne(p, v, c, id);
    if WithdrawnOnce(c.maker) && id !in c.maker.cancelling {
      forall i | 0 <= i < |b.maker.log| && b.maker.log[i].Withdrawn?
        ensures b.maker.log[i].id in b.maker.cancelling
      {
        assert i < |c.maker.log| ==> b.maker.log[i] == c.maker.log[i];
      }
    }
  }

  lemma CancelsChain(a: Call, b: Call, c: Call)
    requires OnlyCancels(a, b) && OnlyCancels(b, c)
    ensures OnlyCancels(a, c)
  {
    hide WithdrawnOnce;
  }

  lemma {:induction false} CancelListedAdds(p: Params, v: View, c: Call, ids: seq<nat>)
    ensures OnlyCancels(c, CancelListed(p, v, c, ids))
    decreases |ids|
  {
    if ids != [] {
      hide OnlyCancels, CancelOne;
      var next := if ids[0] in v.orders && v.orders[ids[0]].tag == TAG then CancelOne(p, v, c, ids[0]) else c;
      assert OnlyCancels(c, next) by {
        NoneAdded(c);
        if ids[0] in v.orders {
          CancelOneAdds(p, v, c, ids[0]);
        }
      }
      CancelListedAdds(p, v, next, ids[1..]);
      CancelsChain(c, next, CancelListed(p, v, next, ids[1..]));
    }
  }

  lemma NoneAdded(c: Call)
    ensures OnlyCancels(c, c)
  {
  }

  lemma {:induction false} CancelDesksAdds(p: Params, v: View, c: Call, desks: seq<Ticker>)
    ensures OnlyCancels(c, CancelDesks(p, v, c, desks))
    decreases |desks|
  {
    if desks != [] {
      hide OnlyCancels;
      var next := CancelListed(p, v, c, Listed(v, desks[0]));
      CancelListedAdds(p, v, c, Listed(v, desks[0]));
      CancelDesksAdds(p, v, next, desks[1..]);
      CancelsChain(c, next, CancelDesks(p, v, next, desks[1..]));
    }
  }

  /** The risk check places nothing, and can only set the kill-switch. */
  lemma RiskAdds(p: Params, d: Desk, v: View, c: Call)
    ensures var b := RiskCheck(p, d, v, c);
            && b.maker.lastPlace == c.maker.lastPlace && (c.maker.killed ==> b.maker.killed) && b.nextId == c.nextId
            && c.sent <= b.sent && (forall i | |c.sent| <= i < |b.sent| :: b.sent[i].Cancel?)
            && (WithdrawnOnce(c.maker) ==> WithdrawnOnce(b.maker))
  {
    if v.now >= c.maker.nextRisk {
      var m := c.maker.(nextRisk := v.now + p.riskEvery);
      CancelDesksAdds(p, v, c.(maker := m), v.desks);
      var peak := NewPeak(m, d.equity(v));
      CancelDesksAdds(p, v, c.(maker := m.(peak := Some(peak), killed := true)), v.desks);
    }
  }

  /** One side's management: at most one request, a placement only on its own free key. */
  ghost predicate SideAdds(p: Params, v: View, t: Ticker, side: Side, a: Call, b: Call) {
    && b.maker.killed == a.maker.killed
    && (WithdrawnOnce(a.maker) ==> WithdrawnOnce(b.maker))
    && (|| (OnlyCancels(a, b))
        || (&& |b.sent| == |a.sent| + 1 && a.sent <= b.sent && b.sent[|a.sent|].Place?
            && var o := b.sent[|a.sent|].order;
               && OrderKey(o) == (t, side) && o.tag == TAG && Live(v, t, side).None?
               && v.now - a.maker.LastPlace((t, side)) >= p.minRequote
               && b.maker.lastPlace == a.maker.lastPlace[(t, side) := v.now]))
  }

  lemma SideOk(p: Params, v: View, t: Ticker, target: Target, c: Call, side: Side)
    ensures SideAdds(p, v, t, side, c, ManageSide(p, v, t, target, c, side).0)
    ensures target == map[] ==> OnlyCancels(c, ManageSide(p, v, t, target, c, side).0)
  {
    NoneAdded(c);
    var cur := Live(v, t, side);
    if cur.Some? && cur.value in v.orders {
      CancelOneAdds(p, v, c, cur.value);
      hide CancelOne, Live, Moved, WithdrawnOnce;
    } else if side in target {
      PlaceAdds(p, v, c, (t, side), target[side].0, target[side].1);
      hide Live, WithdrawnOnce;
    } else {
      hide Live, WithdrawnOnce;
    }
  }

  lemma PlaceAdds(p: Params, v: View, c: Call, k: Key, price: Price, qty: Qty)
    ensures WithdrawnOnce(c.maker) ==> WithdrawnOnce(PlaceOne(p, v, c, k, price, qty).maker)
  {
    var b := PlaceOne(p, v, c, k, price, qty);
    if WithdrawnOnce(c.maker) {
      forall i | 0 <= i < |b.maker.log| && b.maker.log[i].Withdrawn?
        ensures b.maker.log[i].id in b.maker.cancelling
      {
        assert b.maker.log[i] == c.maker.log[i];
      }
    }
  }

  ghost predicate NoPlaces(acts: seq<Action>) {
    forall i | 0 <= i < |acts| :: !acts[i].Place?
  }

  /** How the times of the last placements move in one call. */
  ghost predicate LastMoves(a: map<Key, int>, b: map<Key, int>, now: int) {
    && (forall k | k in a :: k in b)
    && forall k | k in b :: b[k] == now || (k in a && a[k] == b[k])
  }

  ghost predicate Stamped(acts: seq<Action>, last: map<Key, int>, now: int) {
    forall i | 0 <= i < |acts| && acts[i].Place? :: OrderKey(acts[i].order) in last && last[OrderKey(acts[i].order)] == now
  }

  lemma OneSide(p: Params, v: View, t: Ticker, side: Side, m: Maker, a: Call, b: Call)
    requires SideAdds(p, v, t, side, a, b) && PlacesOk(p, v, m, a.sent) && Stamped(a.sent, a.maker.lastPlace, v.now)
    requires LastMoves(m.lastPlace, a.maker.lastPlace, v.now) && a.maker.LastPlace((t, side)) == m.LastPlace((t, side))
    requires forall i | 0 <= i < |a.sent| && a.sent[i].Place? :: OrderKey(a.sent[i].order) != (t, side)
    ensures PlacesOk(p, v, m, b.sent) && Stamped(b.sent, b.maker.lastPlace, v.now)
    ensures LastMoves(m.lastPlace, b.maker.lastPlace, v.now)
    ensures forall k | k != (t, side) :: b.maker.LastPlace(k) == a.maker.LastPlace(k)
    ensures forall i | 0 <= i < |b.sent| && b.sent[i].Place? ::
              OrderKey(b.sent[i].order) == (t, side) || (i < |a.sent| && b.sent[i] == a.sent[i])
  {
    hide Live, WithdrawnOnce;
    assert forall i | 0 <= i < |a.sent| :: b.sent[i] == a.sent[i];
  }

  /** What a call can ask for, whatever the desk wants. */
  ghost predicate GoodCall(p: Params, v: View, m: Maker, r: Call) {
    && PlacesOk(p, v, m, r.sent) && Stamped(r.sent, r.maker.lastPlace, v.now)
    && LastMoves(m.lastPlace, r.maker.lastPlace, v.now)
    && (WithdrawnOnce(m) ==> WithdrawnOnce(r.maker))
    && (m.killed ==> r.maker.killed) && (r.maker.killed ==> NoPlaces(r.sent))
  }

  lemma StillNoPlaces(a: Call, b: Call)
    requires NoPlaces(a.sent) && OnlyCancels(a, b)
    ensures NoPlaces(b.sent)
  {
    hide WithdrawnOnce;
    assert forall i | 0 <= i < |a.sent| :: b.sent[i] == a.sent[i];
  }

  lemma ManageOk(p: Params, d: Desk, v: View, t: Ticker, m: Maker, c: Call)
    requires NoPlaces(c.sent) && c.maker.lastPlace == m.lastPlace
    requires (WithdrawnOnce(m) ==> WithdrawnOnce(c.maker)) && (m.killed ==> c.maker.killed)
    ensures GoodCall(p, v, m, Manage(p, d, v, t, c))
  {
    hide ManageSide, Live, WithdrawnOnce, OnlyCancels, NoPlaces;
    var target := Wanted(d, v, c.maker, t);
    var (yes, again1) := ManageSide(p, v, t, target, c, YES);
    var (no, again2) := ManageSide(p, v, t, target, yes, NO);
    SideOk(p, v, t, target, c, YES);
    SideOk(p, v, t, target, yes, NO);
    NonePlaced(p, v, m, c);
    OneSide(p, v, t, YES, m, c, yes);
    OneSide(p, v, t, NO, m, yes, no);
    if target == map[] {
      StillNoPlaces(c, yes);
      StillNoPlaces(yes, no);
    }
    WakeAdds(p, v, m, no, WakeAt(v.now + p.recheck, TAG, t));
  }

  lemma NonePlaced(p: Params, v: View, m: Maker, c: Call)
    requires NoPlaces(c.sent) && c.maker.lastPlace == m.lastPlace
    ensures PlacesOk(p, v, m, c.sent) && Stamped(c.sent, c.maker.lastPlace, v.now)
    ensures LastMoves(m.lastPlace, c.maker.lastPlace, v.now)
    ensures forall i | 0 <= i < |c.sent| :: !c.sent[i].Place?
  {
  }

  lemma WakeAdds(p: Params, v: View, m: Maker, c: Call, a: Action)
    requires a.WakeAt?
    ensures PlacesOk(p, v, m, c.sent) ==> PlacesOk(p, v, m, c.sent + [a])
    ensures Stamped(c.sent, c.maker.lastPlace, v.now) ==> Stamped(c.sent + [a], c.maker.lastPlace, v.now)
    ensures NoPlaces(c.sent) ==> NoPlaces(c.sent + [a])
  {
    hide Live;
  }

  lemma RespondOk(p: Params, d: Desk, m: Maker, v: View, s: Stimulus)
    ensures GoodCall(p, v, m, Respond(p, d, m, v, s))
  {
    hide RiskCheck, Manage, WithdrawnOnce;
    var c := Call(Hold(m, s), [], v.nextId);
    assert WithdrawnOnce(m) ==> WithdrawnOnce(c.maker) by { HoldKeeps(m, s); }
    if Todo(p, s).Some? {
      RiskAdds(p, d, v, c);
      hide GoodCall;
      ManageOk(p, d, v, Todo(p, s).value, m, RiskCheck(p, d, v, c));
    }
  }

  lemma HoldKeeps(m: Maker, s: Stimulus)
    ensures WithdrawnOnce(m) ==> WithdrawnOnce(Hold(m, s))
  {
  }

  // ---------------------------------------------------------------- orders that are out

  /** Sent and not yet done with: under way to the exchange, or resting there. */
  ghost predicate Out<S>(c: Core<S>, id: nat) {
    id in c.records && (id in c.orders || !NotPending(c.heap, id))
  }

  function KeyOf<S>(c: Core<S>, id: nat): Key
    requires id in c.records
  {
    OrderKey(c.records[id].order)
  }

  ghost predicate OneEach<S>(c: Core<S>) {
    forall a, b | Out(c, a) && Out(c, b) && KeyOf(c, a) == KeyOf(c, b) :: a == b
  }

  ghost predicate Vacant<S>(c: Core<S>, k: Key) {
    forall id | Out(c, id) :: KeyOf(c, id) != k
  }

  /** No order that is out was sent later than the maker's last placement on its key. */
  ghost predicate Dated<S>(c: Core<S>, last: map<Key, int>) {
    forall id | Out(c, id) :: KeyOf(c, id) in last && c.records[id].submittedTs <= last[KeyOf(c, id)]
  }

  ghost predicate Ours<S>(c: Core<S>) {
    forall id | id in c.records :: c.records[id].order.tag == TAG
  }

  /** Nothing new is out, and what is on record stays as sent. */
  ghost predicate FewerOut<S>(a: Core<S>, b: Core<S>) {
    && b.records.Keys == a.records.Keys
    && (forall id | id in a.records :: StubOf(b.records[id]) == StubOf(a.records[id]))
    && forall id | Out(b, id) :: Out(a, id)
  }

  lemma FewerKeeps<S>(a: Core<S>, b: Core<S>, last: map<Key, int>)
    requires FewerOut(a, b)
    ensures OneEach(a) ==> OneEach(b)
    ensures Dated(a, last) ==> Dated(b, last)
    ensures Ours(a) ==> Ours(b)
  {
    hide NotPending;
    assert forall id | id in a.records :: KeyOf(b, id) == KeyOf(a, id) && b.records[id].submittedTs == a.records[id].submittedTs by {
      assert forall id | id in a.records :: StubOf(b.records[id]) == StubOf(a.records[id]);
    }
  }

  lemma QuietFewer<S>(a: Core<S>, b: Core<S>)
    requires Quietly(a, b)
    ensures FewerOut(a, b)
  {
  }

  /** An arrival takes its order from under way to resting, or ends it. */
  lemma ArrivalFewer<S>(c: Core<S>, b: Core<S>, m: Message)
    requires m in c.heap && m.payload.Arrival? && m.payload.orderId in c.records
    requires Arriving(c.(now := m.ts, heap := c.heap - {m}), b, m.payload.orderId, m.payload.order)
    ensures FewerOut(c, b)
  {
  }

  // ---------------------------------------------------------------- carrying the requests out

  lemma SubmitOut<S>(cfg: Config, c: Core<S>, o: Order)
    requires ValidConfig(cfg) && Base(cfg, c) && o.ticker in c.markets
    ensures
      var b := Submit(cfg, c, o);
      && (forall id | id in c.records :: id in b.records && b.records[id] == c.records[id])
      && b.records.Keys == c.records.Keys + {c.nextId} && c.nextId !in c.records
      && b.records[c.nextId].order == o && b.records[c.nextId].submittedTs == c.now
      && (forall id | Out(b, id) :: Out(c, id) || id == c.nextId)
  {
    hide HeapOk, PendingOk, QueuesOk, ReservedOk, RestingOk, LogOk, MoneyOk, BooksOk, SettledOk;
  }

  lemma SubmitVacant<S>(cfg: Config, c: Core<S>, o: Order)
    requires ValidConfig(cfg) && Base(cfg, c) && OneEach(c) && Vacant(c, OrderKey(o)) && o.ticker in c.markets
    ensures OneEach(Submit(cfg, c, o))
    ensures forall k | k != OrderKey(o) && Vacant(c, k) :: Vacant(Submit(cfg, c, o), k)
  {
    SubmitOut(cfg, c, o);
    hide Submit, Base, NotPending;
    var b := Submit(cfg, c, o);
    assert forall id | id in c.records :: KeyOf(b, id) == KeyOf(c, id);
    assert KeyOf(b, c.nextId) == OrderKey(o);
  }

  lemma NoArrival<S>(c: Core<S>, ts: int, priority: int, x: Payload)
    requires !x.Arrival?
    ensures var b := Schedule(c, ts, priority, x);
            b.records == c.records && b.orders == c.orders && forall id :: NotPending(c.heap, id) ==> NotPending(b.heap, id)
  {
  }

  lemma OtherAction<S>(cfg: Config, c: Core<S>, a: Action)
    requires !a.Place? || a.order.ticker !in c.markets
    ensures Perform(cfg, c, a).records == c.records && Perform(cfg, c, a).orders == c.orders
    ensures forall id :: NotPending(c.heap, id) ==> NotPending(Perform(cfg, c, a).heap, id)
  {
    hide Schedule, NotPending;
    match a
    case Place(_) =>
    case Cancel(id) => NoArrival(c, c.now + cfg.latencyCancel, CANCEL_ARRIVAL, Cancellation(id));
    case WakeAt(ts, tag, t) => NoArrival(c, ts, WAKE, Notify(Wake(tag, t)));
  }

  lemma OtherFewer<S>(cfg: Config, c: Core<S>, a: Action)
    requires !a.Place? || a.order.ticker !in c.markets
    ensures FewerOut(c, Perform(cfg, c, a))
    ensures forall k | Vacant(c, k) :: Vacant(Perform(cfg, c, a), k)
  {
    OtherAction(cfg, c, a);
    hide Perform, NotPending;
  }

  /** What is out after a call's requests was out before, or is one of its placements, sent now. */
  ghost predicate Sent<S>(a: Core<S>, b: Core<S>, acts: seq<Action>) {
    && (forall id | id in a.records :: id in b.records && b.records[id].order == a.records[id].order
                                      && b.records[id].submittedTs == a.records[id].submittedTs)
    && (forall id | Out(b, id) && id in a.records :: Out(a, id))
    && forall id | id in b.records && id !in a.records ::
         b.records[id].submittedTs == a.now
         && exists i :: 0 <= i < |acts| && acts[i].Place? && acts[i].order == b.records[id].order
  }

  lemma OneSends<S>(cfg: Config, c: Core<S>, a: Action)
    requires ValidConfig(cfg) && Base(cfg, c)
    ensures Sent(c, Perform(cfg, c, a), [a])
  {
    if a.Place? && a.order.ticker in c.markets {
      SubmitOut(cfg, c, a.order);
      PlaceIs(cfg, c, a);
      hide Base, NotPending, Perform, Submit;
      assert [a][0] == a;
    } else {
      OtherAction(cfg, c, a);
      hide Base, NotPending, Perform;
    }
  }

  lemma SendsChain<S>(a: Core<S>, b: Core<S>, c: Core<S>, acts: seq<Action>)
    requires acts != [] && b.now == a.now && Sent(a, b, [acts[0]]) && Sent(b, c, acts[1..])
    ensures Sent(a, c, acts)
  {
    hide Out;
    forall id | id in c.records && id !in a.records
      ensures c.records[id].submittedTs == a.now
      ensures exists i :: 0 <= i < |acts| && acts[i].Place? && acts[i].order == c.records[id].order
    {
      if id in b.records {
        assert acts[0].Place? && acts[0].order == c.records[id].order;
      } else {
        var i :| 0 <= i < |acts[1..]| && acts[1..][i].Place? && acts[1..][i].order == c.records[id].order;
        assert acts[i + 1] == acts[1..][i];
      }
    }
  }

  lemma {:induction false} PerformSends<S>(cfg: Config, c: Core<S>, acts: seq<Action>)
    requires ValidConfig(cfg) && Base(cfg, c)
    ensures Sent(c, PerformAll(cfg, c, acts), acts)
    decreases |acts|
  {
    if acts != [] && c.error.None? {
      hide Base, Sent, Perform;
      var next := Perform(cfg, c, acts[0]);
      PerformKeeps(cfg, c, acts[0]);
      OneSends(cfg, c, acts[0]);
      PerformSends(cfg, next, acts[1..]);
      SendsChain(c, next, PerformAll(cfg, next, acts[1..]), acts);
    }
  }

  lemma {:induction false} PerformOneEach<S>(cfg: Config, c: Core<S>, acts: seq<Action>)
    requires ValidConfig(cfg) && Base(cfg, c) && OneEach(c)
    requires forall i | 0 <= i < |acts| && acts[i].Place? :: Vacant(c, OrderKey(acts[i].order))
    requires forall i, j | 0 <= i < j < |acts| && acts[i].Place? && acts[j].Place? ::
               OrderKey(acts[i].order) != OrderKey(acts[j].order)
    ensures OneEach(PerformAll(cfg, c, acts))
    decreases |acts|
  {
    if acts != [] && c.error.None? {
      hide Base, NotPending, Vacant, OneEach, FewerOut, Perform;
      var next, rest := Perform(cfg, c, acts[0]), acts[1..];
      PerformKeeps(cfg, c, acts[0]);
      assert forall i | 0 <= i < |rest| :: rest[i] == acts[i + 1];
      if acts[0].Place? && acts[0].order.ticker in c.markets {
        SubmitVacant(cfg, c, acts[0].order);
        assert next == Submit(cfg, c, acts[0].order) by { PlaceIs(cfg, c, acts[0]); }
      } else {
        OtherFewer(cfg, c, acts[0]);
        FewerKeeps(c, next, map[]);
      }
      PerformOneEach(cfg, next, rest);
    }
  }

  lemma PlaceIs<S>(cfg: Config, c: Core<S>, a: Action)
    requires a.Place?
    ensures Perform(cfg, c, a) == Submit(cfg, c, a.order)
  {
  }

  // ---------------------------------------------------------------- every reachable state

  ghost predicate PlacedBefore(last: map<Key, int>, now: int) {
    forall k | k in last :: last[k] <= now
  }

  /** The maker and the engine together. */
  ghost predicate Protocol(cfg: Config, c: Core<Maker>) {
    && Inv(cfg, c) && OneEach(c) && Dated(c, c.strategy.lastPlace) && Ours(c)
    && PlacedBefore(c.strategy.lastPlace, c.now) && WithdrawnOnce(c.strategy)
  }

  /** An order resting on a key shows up among the open orders of its market and side. */
  lemma {:induction false} LastOnNone(v: View, ids: seq<nat>, side: Side, id: nat)
    requires LastOn(v, ids, side).None? && id in ids && id in v.orders
    ensures v.orders[id].side != side || v.orders[id].tag != TAG
  {
    if ids[|ids| - 1] != id {
      LastOnNone(v, ids[..|ids| - 1], side, id);
    }
  }

  lemma RestingFacts<S>(cfg: Config, c: Core<S>, id: nat)
    requires Inv(cfg, c) && id in c.orders && Ours(c)
    ensures id in c.records && id in c.Queue(c.orders[id].ticker) && c.orders[id].tag == TAG
    ensures OrderKey(c.records[id].order) == (c.orders[id].ticker, c.orders[id].side)
  {
    hide Numbered, HeapOk, PendingOk, ReservedOk, LogOk, MoneyOk, BooksOk, SettledOk, LiveOk, OpenOk;
  }

  lemma UnderWayFacts<S>(cfg: Config, c: Core<S>, id: nat)
    requires Inv(cfg, c) && id in c.records && !NotPending(c.heap, id)
    ensures c.now <= c.records[id].submittedTs + cfg.latencySubmit
  {
    hide Numbered, QueuesOk, ReservedOk, RestingOk, LogOk, MoneyOk, BooksOk, SettledOk, LiveOk, OpenOk;
    var m :| m in c.heap && m.payload.Arrival? && m.payload.orderId == id;
    assert UnderWay(m, c.records, c.markets.Keys, c.orders.Keys, cfg.latencySubmit);
  }

  /** Where nothing of ours rests and the last placement is older than the submission latency, nothing is
      out at all: whatever was sent has arrived, and what arrived no longer rests. */
  lemma FreeKey(cfg: Config, p: Params, c: Core<Maker>, k: Key)
    requires Protocol(cfg, c) && cfg.latencySubmit < p.minRequote
    requires Live(ViewOf(c), k.0, k.1).None? && c.now - c.strategy.LastPlace(k) >= p.minRequote
    ensures Vacant(c, k)
  {
    forall id | Out(c, id)
      ensures KeyOf(c, id) != k
    {
      if id in c.orders {
        RestingFacts(cfg, c, id);
        if KeyOf(c, id) == k {
          LastOnNone(ViewOf(c), c.Queue(k.0), k.1, id);
        }
      } else {
        UnderWayFacts(cfg, c, id);
      }
    }
  }

  lemma DatedAfter(a: Core<Maker>, b: Core<Maker>, acts: seq<Action>, last: map<Key, int>)
    requires Sent(a, b, acts) && Dated(a, a.strategy.lastPlace) && PlacedBefore(a.strategy.lastPlace, a.now)
    requires LastMoves(a.strategy.lastPlace, last, a.now) && Stamped(acts, last, a.now)
    ensures Dated(b, last) && PlacedBefore(last, a.now)
  {
    forall id | Out(b, id)
      ensures KeyOf(b, id) in last && b.records[id].submittedTs <= last[KeyOf(b, id)]
    {
      if id in a.records {
        assert Out(a, id) && KeyOf(a, id) == KeyOf(b, id);
      } else {
        var i :| 0 <= i < |acts| && acts[i].Place? && acts[i].order == b.records[id].order;
      }
    }
  }

  lemma OursAfter<S>(a: Core<S>, b: Core<S>, acts: seq<Action>)
    requires Sent(a, b, acts) && Ours(a) && forall i | 0 <= i < |acts| && acts[i].Place? :: acts[i].order.tag == TAG
    ensures Ours(b)
  {
    hide Out;
  }

  lemma ProtocolTell(cfg: Config, p: Params, d: Desk, c: Core<Maker>, s: Stimulus)
    requires ValidConfig(cfg) && cfg.latencySubmit < p.minRequote && Protocol(cfg, c)
    ensures Protocol(cfg, Tell(cfg, Quoter(p, d), c, s))
  {
    var v, m := ViewOf(c), c.strategy;
    var r := Respond(p, d, m, v, s);
    RespondOk(p, d, m, v, s);
    forall i | 0 <= i < |r.sent| && r.sent[i].Place?
      ensures Vacant(c, OrderKey(r.sent[i].order))
    {
      FreeKey(cfg, p, c, OrderKey(r.sent[i].order));
    }
    TellKeeps(cfg, Quoter(p, d), c, s);
    var start := c.(strategy := r.maker);
    var b := PerformAll(cfg, start, r.sent);
    StrategyAlone(cfg, c, r.maker);
    hide Inv, Base, Respond, WithdrawnOnce, Live, OneEach, Vacant, Out, Dated, Ours, LastMoves, Stamped, Sent, PlacedBefore;
    PerformSends(cfg, start, r.sent);
    PerformOneEach(cfg, start, r.sent);
    assert b == Tell(cfg, Quoter(p, d), c, s);
    PerformStrategy(cfg, start, r.sent);
    SentAlike(c, start, b, r.sent);
    DatedAfter(c, b, r.sent, r.maker.lastPlace);
    OursAfter(c, b, r.sent);
  }

  lemma StrategyAlone<S>(cfg: Config, c: Core<S>, s: S)
    requires Inv(cfg, c)
    ensures Base(cfg, c.(strategy := s))
    ensures OneEach(c) ==> OneEach(c.(strategy := s))
    ensures forall k | Vacant(c, k) :: Vacant(c.(strategy := s), k)
  {
    assert forall id :: Out(c.(strategy := s), id) <==> Out(c, id);
    hide Out;
  }

  lemma SentAlike<S>(c: Core<S>, start: Core<S>, b: Core<S>, acts: seq<Action>)
    requires Sent(start, b, acts) && start == c.(strategy := start.strategy)
    ensures Sent(c, b, acts)
  {
    assert forall id :: Out(start, id) <==> Out(c, id);
    hide Out;
  }

  lemma ScheduleStrategy<S>(c: Core<S>, ts: int, priority: int, x: Payload)
    ensures var b := Schedule(c, ts, priority, x); b.strategy == c.strategy && b.now == c.now
  {
  }

  lemma OneStrategy<S>(cfg: Config, c: Core<S>, a: Action)
    ensures Perform(cfg, c, a).strategy == c.strategy && Perform(cfg, c, a).now == c.now
  {
    hide Schedule;
    match a
    case Place(o) => ScheduleStrategy(Noted(cfg, c, o), c.now + cfg.latencySubmit, ORDER_ARRIVAL, Arrival(c.nextId, o));
    case Cancel(id) => ScheduleStrategy(c, c.now + cfg.latencyCancel, CANCEL_ARRIVAL, Cancellation(id));
    case WakeAt(ts, tag, t) => ScheduleStrategy(c, ts, WAKE, Notify(Wake(tag, t)));
  }

  lemma {:induction false} PerformStrategy<S>(cfg: Config, c: Core<S>, acts: seq<Action>)
    ensures PerformAll(cfg, c, acts).strategy == c.strategy && PerformAll(cfg, c, acts).now == c.now
    decreases |acts|
  {
    hide Perform;
    if acts != [] && c.error.None? {
      OneStrategy(cfg, c, acts[0]);
      PerformStrategy(cfg, Perform(cfg, c, acts[0]), acts[1..]);
    }
  }

  lemma {:induction false} ProtocolNotify(cfg: Config, p: Params, d: Desk, c: Core<Maker>, batch: seq<FeedEvent>)
    requires ValidConfig(cfg) && cfg.latencySubmit < p.minRequote && Protocol(cfg, c)
    ensures Protocol(cfg, NotifyAll(cfg, Quoter(p, d), c, batch))
    decreases |batch|
  {
    hide Protocol, Tell, Quoter;
    if batch != [] && c.error.None? {
      ProtocolTell(cfg, p, d, c, Feed(batch[0]));
      ProtocolNotify(cfg, p, d, NotifyFeed(cfg, Quoter(p, d), c, batch[0]), batch[1..]);
    }
  }

  /** Everything the engine does by itself. */
  lemma ProtocolQuiet(cfg: Config, c: Core<Maker>, b: Core<Maker>)
    requires Protocol(cfg, c) && FewerOut(c, b) && Inv(cfg, b) && b.strategy == c.strategy && b.now >= c.now
    ensures Protocol(cfg, b)
  {
    FewerKeeps(c, b, c.strategy.lastPlace);
    hide Inv, OneEach, Dated, Ours, WithdrawnOnce, FewerOut;
  }

  lemma ProtocolAt(cfg: Config, c: Core<Maker>, b: Core<Maker>)
    requires Protocol(cfg, c) && Inv(cfg, b) && b.strategy == c.strategy && b.now >= c.now
    requires b.records == c.records && b.orders == c.orders && b.heap <= c.heap
    ensures Protocol(cfg, b)
  {
    assert FewerOut(c, b) by { hide Inv; }
    ProtocolQuiet(cfg, c, b);
  }

  lemma ProtocolFeedTurn(cfg: Config, p: Params, d: Desk, c: Core<Maker>, ts: int, batch: seq<FeedEvent>)
    requires ValidConfig(cfg) && cfg.latencySubmit < p.minRequote && Protocol(cfg, c) && c.error.None?
    requires c.now <= ts && forall m | m in c.heap :: ts <= m.ts
    requires forall i | 0 <= i < |batch| :: ValidEvent(batch[i])
    ensures Protocol(cfg, FeedTurn(cfg, Quoter(p, d), c, ts, batch))
  {
    var at := c.(now := ts);
    assert Inv(cfg, c);
    Advance(cfg, c, ts);
    ProtocolAt(cfg, c, at);
    InvCounted(cfg, at);
    hide Protocol, Inv, ApplyAll, Quietly, FewerOut, NotifyAll, Counted;
    ApplyAllKeeps(cfg, at, batch);
    ApplyAllQuiet(cfg, at, batch);
    QuietNow(at, ApplyAll(cfg, at, batch));
    QuietFewer(at, ApplyAll(cfg, at, batch));
    ProtocolQuiet(cfg, at, ApplyAll(cfg, at, batch));
    ProtocolNotify(cfg, p, d, ApplyAll(cfg, at, batch), batch);
  }

  lemma ProtocolHeapTurn(cfg: Config, p: Params, d: Desk, c: Core<Maker>, m: Message)
    requires ValidConfig(cfg) && cfg.latencySubmit < p.minRequote && Protocol(cfg, c) && c.error.None? && IsNext(c.heap, m)
    ensures Protocol(cfg, HeapTurn(cfg, Quoter(p, d), c, m))
  {
    var at := c.(now := m.ts, heap := c.heap - {m});
    assert Inv(cfg, c);
    Pop(cfg, c, m);
    ProtocolAt(cfg, c, at);
    InvCounted(cfg, at);
    hide Protocol, Inv, OnArrival, OnCancel, Tell, Dispatchable, Quietly, Arriving, FewerOut, Counted;
    match m.payload
    case Arrival(id, o) =>
      ArrivalKeeps(cfg, at, id, o);
      ArrivalArriving(cfg, at, id, o);
      ArrivingParts(at, OnArrival(cfg, at, id, o), id, o);
      ArrivalFewer(c, OnArrival(cfg, at, id, o), m);
      ProtocolQuiet(cfg, c, OnArrival(cfg, at, id, o));
    case Cancellation(id) =>
      CancelKeeps(cfg, at, id);
      CancelQuiet(at, id);
      QuietNow(at, OnCancel(at, id));
      QuietFewer(at, OnCancel(at, id));
      ProtocolQuiet(cfg, at, OnCancel(at, id));
    case Notify(n) =>
      ProtocolTell(cfg, p, d, at, Noticed(n));
  }

  lemma ArrivingParts<S>(a: Core<S>, b: Core<S>, id: nat, o: Order)
    requires Arriving(a, b, id, o)
    ensures b.strategy == a.strategy && b.now == a.now
  {
  }

  /** One turn keeps the protocol. */
  lemma ProtocolStep(cfg: Config, p: Params, d: Desk, w: World<Maker>)
    requires ValidConfig(cfg) && cfg.latencySubmit < p.minRequote && Protocol(cfg, w.core) && Good(cfg, w)
    ensures Protocol(cfg, Step(cfg, Quoter(p, d), w).core)
  {
    hide Protocol, Inv, FeedTurn, HeapTurn, ValidEvent, Quoter;
    var c := w.core;
    if Finished(w) {
    } else if TakesFeed(w) {
      var ts := w.feed[0].ts;
      forall m | m in c.heap
        ensures ts <= m.ts
      {
        assert Before(Next(c.heap), m);
      }
      ProtocolFeedTurn(cfg, p, d, c, ts, w.feed[..Simultaneous(w.feed, ts)]);
    } else {
      ProtocolHeapTurn(cfg, p, d, c, Next(c.heap));
    }
  }

  lemma ProtocolStart(cfg: Config, tickers: set<Ticker>)
    requires ValidConfig(cfg)
    ensures Protocol(cfg, Initial(cfg, tickers, Fresh()))
  {
    InitialInv(cfg, tickers, Fresh());
    hide Inv;
  }

  lemma {:induction false} ProtocolRun(cfg: Config, p: Params, d: Desk, tickers: set<Ticker>, feed: seq<FeedEvent>, n: nat)
    requires ValidConfig(cfg) && cfg.latencySubmit < p.minRequote && ValidFeed(feed) && Ahead(feed, 0)
    ensures Protocol(cfg, Reached(cfg, Quoter(p, d), tickers, Fresh(), feed, n))
  {
    hide Protocol, Step, Tell, Quoter, ValidFeed, Initial, Good;
    if n == 0 {
      ProtocolStart(cfg, tickers);
      ProtocolTell(cfg, p, d, Initial(cfg, tickers, Fresh()), Start);
    } else {
      ProtocolRun(cfg, p, d, tickers, feed, n - 1);
      RunKeeps(cfg, Quoter(p, d), tickers, Fresh(), feed, n - 1);
      ProtocolStep(cfg, p, d, Run(cfg, Quoter(p, d), Begin(cfg, Quoter(p, d), tickers, Fresh(), feed), n - 1));
    }
  }

  // ---------------------------------------------------------------- what it means

  /** With the requote interval longer than the submission latency, in every reachable state at most one of
      the maker's orders on each side of each market is under way or resting. */
  lemma OneOrderASide(cfg: Config, p: Params, d: Desk, tickers: set<Ticker>, feed: seq<FeedEvent>, n: nat, a: nat, b: nat)
    requires ValidConfig(cfg) && cfg.latencySubmit < p.minRequote && ValidFeed(feed) && Ahead(feed, 0)
    requires var c := Reached(cfg, Quoter(p, d), tickers, Fresh(), feed, n);
             Out(c, a) && Out(c, b) && KeyOf(c, a) == KeyOf(c, b)
    ensures a == b
  {
    ProtocolRun(cfg, p, d, tickers, feed, n);
    hide Reached, Out, Inv;
  }

  // ---------------------------------------------------------------- cancels and the kill-switch

  /** The requests a call made, timers aside. */
  function IsRequest(): Action -> bool {
    (a: Action) => !a.WakeAt?
  }

  function AsAction(e: QuoteEvent): Action {
    match e
    case Quoted(_, k, price, qty, _) => Place(Order(k.0, k.1, price, qty, POST_ONLY, TAG))
    case Withdrawn(_, _, _, _, id) => Cancel(id)
  }

  function AsActions(log: seq<QuoteEvent>): seq<Action> {
    seq(|log|, i requires 0 <= i < |log| => AsAction(log[i]))
  }

  /** What was asked for since `base` is what was logged since. */
  ghost predicate Booked(base: seq<QuoteEvent>, c: Call) {
    base <= c.maker.log && Filter(c.sent, IsRequest()) == AsActions(c.maker.log[|base|..])
  }

  lemma BookedMore(base: seq<QuoteEvent>, a: Call, b: Call, e: QuoteEvent)
    requires Booked(base, a) && b.maker.log == a.maker.log + [e] && b.sent == a.sent + [AsAction(e)]
    ensures Booked(base, b)
  {
    assert b.sent[..|b.sent| - 1] == a.sent;
    assert b.maker.log[|base|..] == a.maker.log[|base|..] + [e];
  }

  lemma BookedCancel(p: Params, v: View, base: seq<QuoteEvent>, c: Call, id: nat)
    requires Booked(base, c) && id in v.orders
    ensures Booked(base, CancelOne(p, v, c, id))
  {
    hide Booked;
    var o := v.orders[id];
    if id !in c.maker.cancelling {
      BookedMore(base, c, CancelOne(p, v, c, id), Withdrawn(v.now, (o.ticker, o.side), o.price, o.qty, id));
    }
  }

  lemma {:induction false} BookedListed(p: Params, v: View, base: seq<QuoteEvent>, c: Call, ids: seq<nat>)
    requires Booked(base, c)
    ensures Booked(base, CancelListed(p, v, c, ids))
    decreases |ids|
  {
    hide Booked, CancelOne;
    if ids != [] {
      if ids[0] in v.orders {
        BookedCancel(p, v, base, c, ids[0]);
      }
      BookedListed(p, v, base, if ids[0] in v.orders && v.orders[ids[0]].tag == TAG then CancelOne(p, v, c, ids[0]) else c, ids[1..]);
    }
  }

  lemma {:induction false} BookedDesks(p: Params, v: View, base: seq<QuoteEvent>, c: Call, desks: seq<Ticker>)
    requires Booked(base, c)
    ensures Booked(base, CancelDesks(p, v, c, desks))
    decreases |desks|
  {
    hide Booked, CancelListed;
    if desks != [] {
      BookedListed(p, v, base, c, Listed(v, desks[0]));
      BookedDesks(p, v, base, CancelListed(p, v, c, Listed(v, desks[0])), desks[1..]);
    }
  }

  lemma BookedSide(p: Params, v: View, t: Ticker, target: Target, base: seq<QuoteEvent>, c: Call, side: Side)
    requires Booked(base, c)
    ensures Booked(base, ManageSide(p, v, t, target, c, side).0)
  {
    hide Booked, CancelOne, Live, Moved;
    var cur := Live(v, t, side);
    if cur.Some? && cur.value in v.orders {
      BookedCancel(p, v, base, c, cur.value);
    }
    if side in target {
      BookedMore(base, c, PlaceOne(p, v, c, (t, side), target[side].0, target[side].1),
                 Quoted(v.now, (t, side), target[side].0, target[side].1, c.nextId));
    }
  }

  lemma BookedRisk(p: Params, d: Desk, v: View, base: seq<QuoteEvent>, c: Call)
    requires Booked(base, c)
    ensures Booked(base, RiskCheck(p, d, v, c))
  {
    if v.now >= c.maker.nextRisk {
      var m := c.maker.(nextRisk := v.now + p.riskEvery);
      BookedDesks(p, v, base, c.(maker := m), v.desks);
      var peak := NewPeak(m, d.equity(v));
      BookedDesks(p, v, base, c.(maker := m.(peak := Some(peak), killed := true)), v.desks);
    }
  }

  lemma BookedWake(base: seq<QuoteEvent>, c: Call, a: Action)
    requires Booked(base, c) && a.WakeAt?
    ensures Booked(base, c.(sent := c.sent + [a]))
  {
    assert (c.sent + [a])[..|c.sent|] == c.sent;
  }

  lemma BookedManage(p: Params, d: Desk, v: View, t: Ticker, base: seq<QuoteEvent>, c: Call)
    requires Booked(base, c)
    ensures Booked(base, Manage(p, d, v, t, c))
  {
    hide Booked, ManageSide, Wanted;
    var target := Wanted(d, v, c.maker, t);
    var yes := ManageSide(p, v, t, target, c, YES).0;
    BookedSide(p, v, t, target, base, c, YES);
    BookedSide(p, v, t, target, base, yes, NO);
    BookedWake(base, ManageSide(p, v, t, target, yes, NO).0, WakeAt(v.now + p.recheck, TAG, t));
  }

  lemma BookedNone(m: Maker, next: nat)
    ensures Booked(m.log, Call(m, [], next))
  {
  }

  /** The maker's log is exactly what it asked the engine for. */
  lemma LogIsExact(p: Params, d: Desk, m: Maker, v: View, s: Stimulus)
    ensures Booked(m.log, Respond(p, d, m, v, s))
  {
    hide Booked, RiskCheck, Manage;
    BookedNone(Hold(m, s), v.nextId);
    var c := Call(Hold(m, s), [], v.nextId);
    BookedRisk(p, d, v, m.log, c);
    if Todo(p, s).Some? {
      BookedManage(p, d, v, Todo(p, s).value, m.log, RiskCheck(p, d, v, c));
    }
  }

  /** What survives any turn, whatever the configuration and the feed. */
  ghost predicate Steady(c: Core<Maker>) {
    Counted(c) && WithdrawnOnce(c.strategy)
  }

  /** Once killed, still killed and nothing new on record. */
  ghost predicate Stopped(a: Core<Maker>, b: Core<Maker>) {
    a.strategy.killed ==> b.strategy.killed && b.records.Keys == a.records.Keys
  }

  lemma {:induction false} NothingPlaced<S>(cfg: Config, c: Core<S>, acts: seq<Action>)
    requires NoPlaces(acts)
    ensures PerformAll(cfg, c, acts).records == c.records
    decreases |acts|
  {
    if acts != [] && c.error.None? {
      OtherAction(cfg, c, acts[0]);
      hide Perform;
      NothingPlaced(cfg, Perform(cfg, c, acts[0]), acts[1..]);
    }
  }

  lemma SteadyTell(cfg: Config, p: Params, d: Desk, c: Core<Maker>, s: Stimulus)
    requires Steady(c)
    ensures Steady(Tell(cfg, Quoter(p, d), c, s)) && Stopped(c, Tell(cfg, Quoter(p, d), c, s))
  {
    var r := Respond(p, d, c.strategy, ViewOf(c), s);
    RespondOk(p, d, c.strategy, ViewOf(c), s);
    hide Respond, WithdrawnOnce, PlacesOk, Stamped, LastMoves, NoPlaces, Numbered;
    var start := c.(strategy := r.maker);
    var b := PerformAll(cfg, start, r.sent);
    assert b == Tell(cfg, Quoter(p, d), c, s);
    PerformStrategy(cfg, start, r.sent);
    PerformAllGrows(cfg, start, r.sent);
    Counts(start, b);
    if r.maker.killed {
      NothingPlaced(cfg, start, r.sent);
    }
  }

  lemma {:induction false} SteadyNotify(cfg: Config, p: Params, d: Desk, c: Core<Maker>, batch: seq<FeedEvent>)
    requires Steady(c)
    ensures Steady(NotifyAll(cfg, Quoter(p, d), c, batch)) && Stopped(c, NotifyAll(cfg, Quoter(p, d), c, batch))
    decreases |batch|
  {
    hide Steady, Tell, Quoter;
    if batch != [] && c.error.None? {
      SteadyTell(cfg, p, d, c, Feed(batch[0]));
      var next := NotifyFeed(cfg, Quoter(p, d), c, batch[0]);
      SteadyNotify(cfg, p, d, next, batch[1..]);
    }
  }

  lemma SteadyQuiet(a: Core<Maker>, b: Core<Maker>)
    requires Steady(a) && Counted(b) && b.strategy == a.strategy && b.records.Keys == a.records.Keys
    ensures Steady(b) && Stopped(a, b)
  {
  }

  lemma SteadyStep(cfg: Config, p: Params, d: Desk, w: World<Maker>)
    requires Steady(w.core)
    ensures Steady(Step(cfg, Quoter(p, d), w).core) && Stopped(w.core, Step(cfg, Quoter(p, d), w).core)
  {
    var c := w.core;
    if !Finished(w) {
      if TakesFeed(w) {
        if w.feed[0].ts >= c.now {
          var ts := w.feed[0].ts;
          SteadyFeedTurn(cfg, p, d, c, ts, w.feed[..Simultaneous(w.feed, ts)]);
        }
      } else {
        SteadyHeapTurn(cfg, p, d, c, Next(c.heap));
      }
    }
    hide FeedTurn, HeapTurn, WithdrawnOnce, Numbered, Quoter;
  }

  lemma SteadyFeedTurn(cfg: Config, p: Params, d: Desk, c: Core<Maker>, ts: int, batch: seq<FeedEvent>)
    requires Steady(c)
    ensures Steady(FeedTurn(cfg, Quoter(p, d), c, ts, batch)) && Stopped(c, FeedTurn(cfg, Quoter(p, d), c, ts, batch))
  {
    var at := c.(now := ts);
    SteadyQuiet(c, at);
    hide WithdrawnOnce, Numbered, Quietly, ApplyAll, NotifyAll, Quoter;
    var applied := ApplyAll(cfg, at, batch);
    ApplyAllQuiet(cfg, at, batch);
    QuietCounts(at, applied);
    QuietNow(at, applied);
    SteadyQuiet(at, applied);
    SteadyNotify(cfg, p, d, applied, batch);
  }

  lemma SteadyHeapTurn(cfg: Config, p: Params, d: Desk, c: Core<Maker>, m: Message)
    requires Steady(c)
    ensures Steady(HeapTurn(cfg, Quoter(p, d), c, m)) && Stopped(c, HeapTurn(cfg, Quoter(p, d), c, m))
  {
    var at := c.(now := m.ts, heap := c.heap - {m});
    SteadyQuiet(c, at);
    hide WithdrawnOnce, Numbered, Quietly, Arriving, OnArrival, OnCancel, Tell, Dispatchable, Quoter;
    match m.payload
    case Arrival(id, o) =>
      if Dispatchable(at, m.payload) {
        ArrivalArriving(cfg, at, id, o);
        ArrivingCounts(at, OnArrival(cfg, at, id, o), id, o);
        ArrivingKeys(at, OnArrival(cfg, at, id, o), id, o);
        SteadyQuiet(at, OnArrival(cfg, at, id, o));
      }
    case Cancellation(id) =>
      CancelQuiet(at, id);
      QuietCounts(at, OnCancel(at, id));
      QuietNow(at, OnCancel(at, id));
      SteadyQuiet(at, OnCancel(at, id));
    case Notify(n) =>
      SteadyTell(cfg, p, d, at, Noticed(n));
  }

  lemma ArrivingKeys<S>(a: Core<S>, b: Core<S>, id: nat, o: Order)
    requires Arriving(a, b, id, o)
    ensures b.strategy == a.strategy && b.records.Keys == a.records.Keys
  {
  }

  lemma {:induction false} SteadyRun(cfg: Config, p: Params, d: Desk, tickers: set<Ticker>, feed: seq<FeedEvent>, m: nat, n: nat)
    requires m <= n
    ensures var q := Quoter(p, d);
            && Steady(Reached(cfg, q, tickers, Fresh(), feed, n))
            && Stopped(Reached(cfg, q, tickers, Fresh(), feed, m), Reached(cfg, q, tickers, Fresh(), feed, n))
    decreases n
  {
    hide Steady, Step, Tell, Quoter, Initial;
    if n == 0 {
      assert Steady(Initial(cfg, tickers, Fresh())) by { SteadyStart(cfg, tickers); }
      SteadyTell(cfg, p, d, Initial(cfg, tickers, Fresh()), Start);
    } else if m < n {
      SteadyRun(cfg, p, d, tickers, feed, m, n - 1);
      SteadyStep(cfg, p, d, Run(cfg, Quoter(p, d), Begin(cfg, Quoter(p, d), tickers, Fresh(), feed), n - 1));
    } else {
      SteadyRun(cfg, p, d, tickers, feed, n - 1, n - 1);
      SteadyStep(cfg, p, d, Run(cfg, Quoter(p, d), Begin(cfg, Quoter(p, d), tickers, Fresh(), feed), n - 1));
    }
  }

  lemma SteadyStart(cfg: Config, tickers: set<Ticker>)
    ensures Steady(Initial(cfg, tickers, Fresh()))
  {
  }

  /** In every reachable state no order has been cancelled twice, whatever the latencies. */
  lemma CancelledAtMostOnce(cfg: Config, p: Params, d: Desk, tickers: set<Ticker>, feed: seq<FeedEvent>, n: nat, i: nat, j: nat)
    requires var log := Reached(cfg, Quoter(p, d), tickers, Fresh(), feed, n).strategy.log;
             i < j < |log| && log[i].Withdrawn? && log[j].Withdrawn?
    ensures var log := Reached(cfg, Quoter(p, d), tickers, Fresh(), feed, n).strategy.log;
            log[i].id != log[j].id
  {
    hide Reached, Counted;
    SteadyRun(cfg, p, d, tickers, feed, n, n);
  }

  /** From any state in which the kill-switch has tripped, it stays tripped and no order is ever sent again. */
  lemma NothingAfterKill(cfg: Config, p: Params, d: Desk, tickers: set<Ticker>, feed: seq<FeedEvent>, m: nat, n: nat)
    requires m <= n && Reached(cfg, Quoter(p, d), tickers, Fresh(), feed, m).strategy.killed
    ensures var q := Quoter(p, d);
            var now, later := Reached(cfg, q, tickers, Fresh(), feed, m), Reached(cfg, q, tickers, Fresh(), feed, n);
            later.strategy.killed && later.records.Keys == now.records.Keys
  {
    hide Reached, Steady;
    SteadyRun(cfg, p, d, tickers, feed, m, n);
  }
}
