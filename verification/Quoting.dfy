/** market_making/baseline.py: what a decision of the maker's comes to on each side of a market, and what
    makes it decide at all. */
module Quoting {
  import opened Units
  import opened Engine
  import opened EngineGrowth
  import opened EngineInvariant
  import opened MarketMaker
  import opened QuoteProtocol
  import opened CancelOnce
  import opened KillSwitch
  import opened Standing
  import opened Requests

  // ---------------------------------------------------------------- our order on a side

  /** The order at this place of the market's list is ours, on this side. */
  ghost predicate OursAt(v: View, t: Ticker, side: Side, i: nat) {
    t in v.queues && i < |v.queues[t]| && v.queues[t][i] in v.orders
    && v.orders[v.queues[t][i]].side == side && v.orders[v.queues[t][i]].tag == "mm"
  }

  ghost predicate OursInList(v: View, ids: seq<nat>, side: Side, i: nat) {
    i < |ids| && ids[i] in v.orders && v.orders[ids[i]].side == side && v.orders[ids[i]].tag == "mm"
  }

  lemma {:induction false} LastOnMeans(v: View, ids: seq<nat>, side: Side)
    ensures LastOn(v, ids, side).None? ==> forall i: nat :: !OursInList(v, ids, side, i)
    ensures LastOn(v, ids, side).Some? ==>
              exists i: nat :: OursInList(v, ids, side, i) && ids[i] == LastOn(v, ids, side).value
                               && forall j: nat | i < j :: !OursInList(v, ids, side, j)
  {
    if ids != [] {
      var n := |ids| - 1;
      LastOnMeans(v, ids[..n], side);
      forall i: nat
        ensures OursInList(v, ids, side, i) <==> OursInList(v, ids[..n], side, i) || (i == n && OursInList(v, ids, side, n))
      {
      }
      if !OursInList(v, ids, side, n) && LastOn(v, ids, side).Some? {
        var i: nat :| OursInList(v, ids[..n], side, i) && ids[..n][i] == LastOn(v, ids[..n], side).value
                      && forall j: nat | i < j :: !OursInList(v, ids[..n], side, j);
        assert OursInList(v, ids, side, i) && ids[i] == ids[..n][i];
      }
    }
  }

  /** The maker looks at the last of our orders listed on the side. */
  lemma LiveMeans(v: View, t: Ticker, side: Side)
    ensures Live(v, t, side).None? <==> forall i: nat :: !OursAt(v, t, side, i)
    ensures Live(v, t, side).Some? ==>
              exists i: nat :: OursAt(v, t, side, i) && v.queues[t][i] == Live(v, t, side).value
                          && forall j: nat | i < j :: !OursAt(v, t, side, j)
  {
    LastOnMeans(v, Listed(v, t), side);
    hide LastOn;
    forall i: nat
      ensures OursInList(v, Listed(v, t), side, i) <==> OursAt(v, t, side, i)
    {
    }
    if Live(v, t, side).Some? {
      var i: nat :| OursInList(v, Listed(v, t), side, i) && Listed(v, t)[i] == Live(v, t, side).value
                    && forall j: nat | i < j :: !OursInList(v, Listed(v, t), side, j);
      assert OursAt(v, t, side, i);
    }
  }

  // ---------------------------------------------------------------- one side

  /** Close enough to what is wanted to be left alone: less than a step away, no bigger, and at least half. */
  ghost predicate InLine(p: Params, target: Target, side: Side, price: Price, qty: Qty) {
    && side in target
    && -p.step < target[side].0 - price < p.step
    && qty <= target[side].1 <= qty + qty
  }

  /** The side has to wait: a request of ours is too recent, or our order's cancel is on its way. */
  ghost predicate Waiting(v: View, m: Maker, t: Ticker, side: Side) {
    || ((t, side) in m.busy && m.busy[(t, side)] > v.now)
    || ((t, side) !in m.busy && v.now < 0)
    || (Live(v, t, side).Some? && Live(v, t, side).value in m.cancelling)
  }

  /** The last order on the side is old enough for another. */
  ghost predicate MayPlace(p: Params, v: View, m: Maker, t: Ticker, side: Side) {
    if (t, side) in m.lastPlace then m.lastPlace[(t, side)] + p.minRequote <= v.now
    else v.now + 1_000_000_000_000_000_000 >= p.minRequote
  }

  /** The one new request of b, if any, and nothing else the maker remembers but what goes with it. */
  ghost predicate Asks(p: Params, v: View, t: Ticker, side: Side, a: Call, b: Call, request: Option<Action>) {
    match request
    case None => b == a
    case Some(r) =>
      && b.sent == a.sent + [r] && b.nextId == a.nextId + (if r.Place? then 1 else 0)
      && (r.Place? ==> b.maker.log == a.maker.log + [Quoted(v.now, (t, side), r.order.price, r.order.qty, a.nextId)])
      && (r.Cancel? ==>
            && r.orderId in v.orders
            && b.maker.log == a.maker.log + [Withdrawn(v.now, (t, side), v.orders[r.orderId].price, v.orders[r.orderId].qty, r.orderId)])
      && b.maker.busy == a.maker.busy[(t, side) := v.now + p.busyFor]
      && b.maker.killed == a.maker.killed && b.maker.held == a.maker.held && b.maker.peak == a.maker.peak
      && b.maker.lastPlace == (if r.Place? then a.maker.lastPlace[(t, side) := v.now] else a.maker.lastPlace)
      && b.maker.cancelling == (if r.Cancel? then a.maker.cancelling + {r.orderId} else a.maker.cancelling)
  }

  /** What one side's decision asks for, and whether the side is to be looked at again.  `cur` is our order
      there: left alone while in line, cancelled when not; where there is none, one is placed exactly as
      wanted once the last is old enough. */
  ghost function Decision(p: Params, v: View, t: Ticker, target: Target, m: Maker, side: Side): (Option<Action>, bool) {
    var cur := Live(v, t, side);
    if Waiting(v, m, t, side) then (None, true)
    else if cur.Some? && cur.value in v.orders then
      if InLine(p, target, side, v.orders[cur.value].price, v.orders[cur.value].qty) then (None, false)
      else (Some(Cancel(cur.value)), true)
    else if side !in target then (None, false)
    else if MayPlace(p, v, m, t, side) then
      (Some(Place(Order(t, side, target[side].0, target[side].1, POST_ONLY, "mm"))), false)
    else (None, true)
  }

  /** Each market's list holds orders on that market. */
  ghost predicate WellListed(v: View) {
    forall t, i | t in v.queues && 0 <= i < |v.queues[t]| && v.queues[t][i] in v.orders :: v.orders[v.queues[t][i]].ticker == t
  }

  lemma SideMeans(p: Params, v: View, t: Ticker, target: Target, c: Call, side: Side)
    requires WellListed(v)
    ensures Asks(p, v, t, side, c, ManageSide(p, v, t, target, c, side).0, Decision(p, v, t, target, c.maker, side).0)
    ensures ManageSide(p, v, t, target, c, side).1 == Decision(p, v, t, target, c.maker, side).1
  {
    LiveMeans(v, t, side);
    hide LastOn;
    var cur := Live(v, t, side);
    if cur.Some? {
      var i: nat :| OursAt(v, t, side, i) && v.queues[t][i] == cur.value;
    }
  }

  // ---------------------------------------------------------------- both sides

  function Asked(r: Option<Action>): seq<Action> {
    if r.None? then [] else [r.value]
  }

  /** What is wanted: nothing once the switch has tripped or while the market is not open, otherwise what the
      desk quotes. */
  function Goal(d: Desk, v: View, m: Maker, t: Ticker): Target {
    if m.killed || t !in v.markets || v.markets[t].closed || v.markets[t].outcome.Some? then map[] else d.quotes(v, m.held, t)
  }

  /** What one side asks for does not change what the other decides. */
  lemma SidesApart(p: Params, v: View, t: Ticker, target: Target, a: Call, b: Call)
    requires WellListed(v) && Asks(p, v, t, YES, a, b, Decision(p, v, t, target, a.maker, YES).0)
    ensures Decision(p, v, t, target, b.maker, NO) == Decision(p, v, t, target, a.maker, NO)
  {
    LiveMeans(v, t, YES);
    LiveMeans(v, t, NO);
    hide Live;
    if Live(v, t, YES).Some? && Live(v, t, NO).Some? {
      var i: nat :| OursAt(v, t, YES, i) && v.queues[t][i] == Live(v, t, YES).value;
      var j: nat :| OursAt(v, t, NO, j) && v.queues[t][j] == Live(v, t, NO).value;
    }
  }

  /** A decision sends what each side asks for, YES first, and wakes again if a side is to be looked at. */
  lemma ManageMeans(p: Params, d: Desk, v: View, t: Ticker, c: Call)
    requires WellListed(v)
    ensures
      var target := Goal(d, v, c.maker, t);
      var (yes, again) := Decision(p, v, t, target, c.maker, YES);
      var (no, more) := Decision(p, v, t, target, c.maker, NO);
      Manage(p, d, v, t, c).sent
      == c.sent + Asked(yes) + Asked(no) + (if again || more then [WakeAt(v.now + p.recheck, "mm", t)] else [])
  {
    var target := Goal(d, v, c.maker, t);
    assert target == Wanted(d, v, c.maker, t);
    SideMeans(p, v, t, target, c, YES);
    hide ManageSide, Decision;
    var mid := ManageSide(p, v, t, target, c, YES).0;
    SideMeans(p, v, t, target, mid, NO);
    SidesApart(p, v, t, target, c, mid);
  }

  /** What rests on the side after the decision's own requests, if nothing is on its way to be cancelled. */
  ghost predicate Settled(p: Params, v: View, t: Ticker, target: Target, m: Maker, side: Side) {
    var cur := Live(v, t, side);
    if cur.Some? && cur.value in v.orders then
      cur.value !in m.cancelling && InLine(p, target, side, v.orders[cur.value].price, v.orders[cur.value].qty)
    else
      side in target ==>
        Decision(p, v, t, target, m, side).0 == Some(Place(Order(t, side, target[side].0, target[side].1, POST_ONLY, "mm")))
  }

  /** A decision that asks for no wake leaves each side as wanted: our order in line, or one just sent exactly
      as wanted, or none wanted and none there. */
  lemma NoWakeNoWork(p: Params, d: Desk, v: View, t: Ticker, c: Call)
    requires WellListed(v) && c.sent == [] && forall i | 0 <= i < |Manage(p, d, v, t, c).sent| :: !Manage(p, d, v, t, c).sent[i].WakeAt?
    ensures Settled(p, v, t, Goal(d, v, c.maker, t), c.maker, YES)
    ensures Settled(p, v, t, Goal(d, v, c.maker, t), c.maker, NO)
  {
    ManageMeans(p, d, v, t, c);
    var target, sent := Goal(d, v, c.maker, t), Manage(p, d, v, t, c).sent;
    var (yes, again) := Decision(p, v, t, target, c.maker, YES);
    var (no, more) := Decision(p, v, t, target, c.maker, NO);
    hide Manage, Live, Decision;
    if again || more {
      LastNoWake(c.sent + Asked(yes) + Asked(no), WakeAt(v.now + p.recheck, "mm", t));
    }
    SettledBy(p, v, t, target, c.maker, YES);
    SettledBy(p, v, t, target, c.maker, NO);
  }

  lemma LastNoWake(front: seq<Action>, last: Action)
    requires forall i | 0 <= i < |front + [last]| :: !(front + [last])[i].WakeAt?
    ensures !last.WakeAt?
  {
    assert (front + [last])[|front|] == last;
  }

  lemma SettledBy(p: Params, v: View, t: Ticker, target: Target, m: Maker, side: Side)
    requires !Decision(p, v, t, target, m, side).1
    ensures Settled(p, v, t, target, m, side)
  {
    hide Live;
  }

  // ---------------------------------------------------------------- what makes it decide

  /** The market a stimulus is about, for the maker: its own fills, its own wakes, and new books of its
      markets. */
  function About(p: Params, s: Stimulus): Option<Ticker> {
    if s.Noticed? && s.notice.Filled? then Some(s.notice.ticker)
    else if s.Noticed? && s.notice.Wake? && s.notice.tag == "mm" && s.notice.ticker != "" then Some(s.notice.ticker)
    else if s.Feed? && s.event.BookUpdate? && s.event.ticker in p.universe then Some(s.event.ticker)
    else None
  }

  function Remembering(m: Maker, s: Stimulus): Maker {
    if s.Noticed? && s.notice.Filled? then m.(held := m.held + {s.notice.ticker}) else m
  }

  /** A stimulus about none of the maker's business is only remembered; any other brings the risk check and
      then the decision on its market. */
  lemma RespondMeans(p: Params, d: Desk, m: Maker, v: View, s: Stimulus)
    ensures
      var start := Call(Remembering(m, s), [], v.nextId);
      Respond(p, d, m, v, s)
      == if About(p, s).None? then start else Manage(p, d, v, About(p, s).value, RiskCheck(p, d, v, start))
  {
    hide Manage, RiskCheck;
  }

  lemma ManageAdds(p: Params, d: Desk, v: View, t: Ticker, c: Call)
    requires WellListed(v)
    ensures c.sent <= Manage(p, d, v, t, c).sent && c.maker.cancelling <= Manage(p, d, v, t, c).maker.cancelling
    ensures Manage(p, d, v, t, c).maker.killed == c.maker.killed
  {
    var target := Goal(d, v, c.maker, t);
    assert target == Wanted(d, v, c.maker, t);
    SideMeans(p, v, t, target, c, YES);
    hide ManageSide, Decision, Asks;
    var yes := ManageSide(p, v, t, target, c, YES).0;
    SideMeans(p, v, t, target, yes, NO);
    AsksAdds(p, v, t, YES, c, yes, Decision(p, v, t, target, c.maker, YES).0);
    AsksAdds(p, v, t, NO, yes, ManageSide(p, v, t, target, yes, NO).0, Decision(p, v, t, target, yes.maker, NO).0);
  }

  lemma AsksAdds(p: Params, v: View, t: Ticker, side: Side, a: Call, b: Call, request: Option<Action>)
    requires Asks(p, v, t, side, a, b, request)
    ensures a.sent <= b.sent && a.maker.cancelling <= b.maker.cancelling && b.maker.killed == a.maker.killed
  {
  }

  /** Told of something at a time a check is due, with the switch tripped by then, the maker asks the engine
      to cancel every open order of its own that it has not asked about before, each exactly once. */
  lemma TrippedWithdrawsAll(p: Params, d: Desk, m: Maker, v: View, s: Stimulus, id: nat)
    requires WellListed(v) && WithdrawnOnce(m) && About(p, s).Some? && v.now >= m.nextRisk
    requires Respond(p, d, m, v, s).maker.killed && OpenOfOurs(v, id)
    ensures id in Respond(p, d, m, v, s).maker.cancelling
    ensures id !in m.cancelling ==>
              var sent := Respond(p, d, m, v, s).sent;
              exists i :: 0 <= i < |sent| && sent[i] == Cancel(id) && forall j | 0 <= j < |sent| && j != i :: sent[j] != Cancel(id)
  {
    assert id in OpenOnes(v);
    hide *;
    var r := Respond(p, d, m, v, s);
    WithdrawnInCall(p, d, m, v, s);
    RespondCancels(p, d, m, v, s);
    if id !in m.cancelling {
      var i :| 0 <= i < |r.sent| && r.sent[i] == Cancel(id);
      OnlyOne(r.sent, m.log, r.maker.log, i);
    }
  }

  /** The cancels of one call are for different orders. */
  lemma RespondCancels(p: Params, d: Desk, m: Maker, v: View, s: Stimulus)
    requires WithdrawnOnce(m)
    ensures NewCancels(Respond(p, d, m, v, s).sent, m.log, Respond(p, d, m, v, s).maker.log)
  {
    RespondOk(p, d, m, v, s);
    LogIsExact(p, d, m, v, s);
    hide Respond, WithdrawnOnce, PlacesOk, Stamped, LastMoves, NoPlaces, Booked;
    CancelsNew(m, Respond(p, d, m, v, s));
  }

  lemma OnlyOne(sent: seq<Action>, before: seq<QuoteEvent>, after: seq<QuoteEvent>, i: nat)
    requires NewCancels(sent, before, after) && i < |sent| && sent[i].Cancel?
    ensures forall j | 0 <= j < |sent| && j != i :: sent[j] != sent[i]
  {
    hide WasWithdrawn;
  }

  lemma WithdrawnInCall(p: Params, d: Desk, m: Maker, v: View, s: Stimulus)
    requires WellListed(v) && About(p, s).Some? && v.now >= m.nextRisk && Respond(p, d, m, v, s).maker.killed
    ensures forall id | id in OpenOnes(v) :: id in Respond(p, d, m, v, s).maker.cancelling
    ensures forall id | id in OpenOnes(v) && id !in m.cancelling ::
              exists i :: 0 <= i < |Respond(p, d, m, v, s).sent| && Respond(p, d, m, v, s).sent[i] == Cancel(id)
  {
    var start := Call(Remembering(m, s), [], v.nextId);
    RespondMeans(p, d, m, v, s);
    CheckWithdraws(p, d, v, start);
    hide RiskCheck, Manage, Respond, OpenOnes, About, WellListed;
    var checked, r := RiskCheck(p, d, v, start), Respond(p, d, m, v, s);
    ManageAdds(p, d, v, About(p, s).value, checked);
    forall id | id in OpenOnes(v) && id !in m.cancelling
      ensures exists i :: 0 <= i < |r.sent| && r.sent[i] == Cancel(id)
    {
      var i :| |start.sent| <= i < |checked.sent| && checked.sent[i] == Cancel(id);
      assert r.sent[i] == Cancel(id);
    }
  }

  // ---------------------------------------------------------------- on the engine

  lemma BookIsOpen(cfg: Config, c: Core<Maker>, id: nat)
    requires Inv(cfg, c) && InStanding(cfg, c) && Ours(c) && id in c.orders
    ensures WellListed(ViewOf(c)) && OpenOfOurs(ViewOf(c), id) && Counted(c)
  {
    hide HeapOk, PendingOk, ReservedOk, LogOk, MoneyOk, BooksOk, SettledOk, LiveOk, OpenOk, ComingInOrder, CameBefore, Rising;
    assert RestsAs(c.orders[id], c.records[id]);
  }

  /** Called with a check due and the switch tripped by then, the maker has a cancel on its way, the cancel
      latency from now, for every order it has on the engine's book and has not cancelled before. */
  lemma TrippedClearsBook(cfg: Config, p: Params, d: Desk, c: Core<Maker>, s: Stimulus, id: nat)
    requires Inv(cfg, c) && InStanding(cfg, c) && Ours(c) && Steady(c) && id in c.orders
    requires About(p, s).Some? && c.now >= c.strategy.nextRisk
    requires Tell(cfg, Quoter(p, d), c, s).error.None? && Respond(p, d, c.strategy, ViewOf(c), s).maker.killed
    ensures id !in c.strategy.cancelling ==> Queued(Tell(cfg, Quoter(p, d), c, s).heap, c.now + cfg.latencyCancel, Cancellation(id))
  {
    BookIsOpen(cfg, c, id);
    OnceSoFar(c);
    hide *;
    TrippedWithdrawsAll(p, d, c.strategy, ViewOf(c), s, id);
    if id !in c.strategy.cancelling {
      var sent := Respond(p, d, c.strategy, ViewOf(c), s).sent;
      var i :| 0 <= i < |sent| && sent[i] == Cancel(id);
      CancelQueued(cfg, p, d, c, s, i);
    }
  }

  lemma OnceSoFar(c: Core<Maker>)
    requires Steady(c)
    ensures WithdrawnOnce(c.strategy)
  {
  }

  lemma CancelQueued(cfg: Config, p: Params, d: Desk, c: Core<Maker>, s: Stimulus, i: nat)
    requires Counted(c) && Tell(cfg, Quoter(p, d), c, s).error.None?
    requires i < |Respond(p, d, c.strategy, ViewOf(c), s).sent| && Respond(p, d, c.strategy, ViewOf(c), s).sent[i].Cancel?
    ensures Queued(Tell(cfg, Quoter(p, d), c, s).heap, c.now + cfg.latencyCancel,
                   Cancellation(Respond(p, d, c.strategy, ViewOf(c), s).sent[i].orderId))
  {
    hide Respond, Counted, Tell, Queued;
    CallHonoured(cfg, Quoter(p, d), c, s, i);
  }
}
