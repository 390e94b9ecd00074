/** market_making/baseline.py: what the risk check does.  When the switch has tripped, every order of ours
    that is open is withdrawn. */
module KillSwitch {
  import opened Units
  import opened Engine
  import opened MarketMaker

  /** An order of ours that the strategy can see resting. */
  ghost predicate OpenOfOurs(v: View, id: nat) {
    && (exists t :: t in v.desks && t in v.queues && id in v.queues[t])
    && id in v.orders && v.orders[id].tag == "mm"
  }

  ghost predicate ListedOfOurs(v: View, ids: seq<nat>, id: nat) {
    id in ids && id in v.orders && v.orders[id].tag == "mm"
  }

  /** The cancels b sends beyond a: each of these orders that had none before gets one, once, and no other
      order gets any. */
  ghost predicate Withdraws(a: Call, b: Call, due: set<nat>) {
    && b.maker.cancelling == a.maker.cancelling + due && a.sent <= b.sent
    && (forall i | |a.sent| <= i < |b.sent| ::
          b.sent[i].Cancel? && b.sent[i].orderId in due && b.sent[i].orderId !in a.maker.cancelling)
    && (forall i, j | |a.sent| <= i < j < |b.sent| :: b.sent[i] != b.sent[j])
    && (forall id | id in due && id !in a.maker.cancelling :: exists i :: |a.sent| <= i < |b.sent| && b.sent[i] == Cancel(id))
  }

  lemma WithdrawsNone(a: Call)
    ensures Withdraws(a, a, {})
  {
  }

  lemma WithdrawsOne(p: Params, v: View, c: Call, id: nat)
    requires id in v.orders
    ensures Withdraws(c, CancelOne(p, v, c, id), {id})
  {
    var b := CancelOne(p, v, c, id);
    if id !in c.maker.cancelling {
      assert b.sent[|c.sent|] == Cancel(id);
    }
  }

  lemma WithdrawsChain(a: Call, b: Call, c: Call, first: set<nat>, second: set<nat>)
    requires Withdraws(a, b, first) && Withdraws(b, c, second)
    ensures Withdraws(a, c, first + second)
  {
    assert forall i | |a.sent| <= i < |b.sent| :: c.sent[i] == b.sent[i];
    forall i, j | |a.sent| <= i < j < |c.sent|
      ensures c.sent[i] != c.sent[j]
    {
      if i < |b.sent| <= j {
        assert b.sent[i].orderId in first;
      }
    }
    forall id | id in first + second && id !in a.maker.cancelling
      ensures exists i :: |a.sent| <= i < |c.sent| && c.sent[i] == Cancel(id)
    {
      if id in first {
        var i :| |a.sent| <= i < |b.sent| && b.sent[i] == Cancel(id);
        assert c.sent[i] == Cancel(id);
      } else {
        var i :| |b.sent| <= i < |c.sent| && c.sent[i] == Cancel(id);
      }
    }
  }

  ghost function OursIn(v: View, ids: seq<nat>): set<nat> {
    set id | id in ids && ListedOfOurs(v, ids, id)
  }

  lemma {:induction false} ListedWithdrawn(p: Params, v: View, c: Call, ids: seq<nat>)
    ensures Withdraws(c, CancelListed(p, v, c, ids), OursIn(v, ids))
    decreases |ids|
  {
    hide Withdraws, CancelOne;
    WithdrawsNone(c);
    if ids == [] {
      assert OursIn(v, []) == {};
    } else {
      var ours := ids[0] in v.orders && v.orders[ids[0]].tag == TAG;
      var next := if ours then CancelOne(p, v, c, ids[0]) else c;
      var first := if ours then {ids[0]} else {};
      if ours {
        WithdrawsOne(p, v, c, ids[0]);
      }
      ListedWithdrawn(p, v, next, ids[1..]);
      WithdrawsChain(c, next, CancelListed(p, v, next, ids[1..]), first, OursIn(v, ids[1..]));
      assert ids == [ids[0]] + ids[1..];
      assert OursIn(v, ids) == first + OursIn(v, ids[1..]);
    }
  }

  ghost function OursOn(v: View, desks: seq<Ticker>): set<nat> {
    set id | id in v.orders && exists t :: t in desks && ListedOfOurs(v, Listed(v, t), id)
  }

  lemma {:induction false} DesksWithdrawn(p: Params, v: View, c: Call, desks: seq<Ticker>)
    ensures Withdraws(c, CancelDesks(p, v, c, desks), OursOn(v, desks))
    decreases |desks|
  {
    hide Withdraws, CancelListed;
    WithdrawsNone(c);
    if desks == [] {
      assert OursOn(v, []) == {};
    } else {
      var next := CancelListed(p, v, c, Listed(v, desks[0]));
      ListedWithdrawn(p, v, c, Listed(v, desks[0]));
      DesksWithdrawn(p, v, next, desks[1..]);
      WithdrawsChain(c, next, CancelDesks(p, v, next, desks[1..]), OursIn(v, Listed(v, desks[0])), OursOn(v, desks[1..]));
      assert desks == [desks[0]] + desks[1..];
      assert OursOn(v, desks) == OursIn(v, Listed(v, desks[0])) + OursOn(v, desks[1..]);
    }
  }

  ghost function OpenOnes(v: View): set<nat> {
    set id | id in v.orders && OpenOfOurs(v, id)
  }

  lemma SeenOpen(v: View)
    ensures OursOn(v, v.desks) == OpenOnes(v)
  {
    forall id
      ensures id in OursOn(v, v.desks) <==> OpenOfOurs(v, id)
    {
      if OpenOfOurs(v, id) {
        var t :| t in v.desks && t in v.queues && id in v.queues[t];
        assert ListedOfOurs(v, Listed(v, t), id);
      }
    }
  }

  /** The value the account has reached at most, this check included. */
  function Peak(m: Maker, equity: int): int {
    if m.peak.Some? && m.peak.value > equity then m.peak.value else equity
  }

  /** A risk check that is not yet due does nothing.  A due one trips the switch exactly if the desk calls
      the fall from the peak, or the exposure, a breach; if the switch has tripped, now or before, it
      withdraws every open order of ours that was not withdrawn before, each once and no other; and if it
      has not, nothing is sent. */
  lemma CheckWithdraws(p: Params, d: Desk, v: View, c: Call)
    ensures
      var b := RiskCheck(p, d, v, c);
      if v.now < c.maker.nextRisk then b == c
      else
        && b.maker.nextRisk == v.now + p.riskEvery && b.maker.held == c.maker.held
        && (b.maker.killed <==> c.maker.killed || d.breach(Peak(c.maker, d.equity(v)), d.equity(v), v, c.maker.held))
        && (!c.maker.killed ==> b.maker.peak == Some(Peak(c.maker, d.equity(v))))
        && if b.maker.killed then Withdraws(c, b, OpenOnes(v))
           else b.sent == c.sent && b.maker.cancelling == c.maker.cancelling
  {
    SeenOpen(v);
    if v.now >= c.maker.nextRisk {
      var m := c.maker.(nextRisk := v.now + p.riskEvery);
      var peak := NewPeak(m, d.equity(v));
      var start := if m.killed then c.(maker := m) else c.(maker := m.(peak := Some(peak), killed := true));
      DesksWithdrawn(p, v, start, v.desks);
      DesksOnlyCancel(p, v, start, v.desks);
      var b := RiskCheck(p, d, v, c);
      if b.maker.killed {
        assert Withdraws(c, b, OursOn(v, v.desks));
      }
    }
  }

  lemma {:induction false} DesksOnlyCancel(p: Params, v: View, c: Call, desks: seq<Ticker>)
    ensures var b := CancelDesks(p, v, c, desks).maker;
            b.killed == c.maker.killed && b.peak == c.maker.peak && b.nextRisk == c.maker.nextRisk && b.held == c.maker.held
    decreases |desks|
  {
    if desks != [] {
      ListedOnlyCancel(p, v, c, Listed(v, desks[0]));
      DesksOnlyCancel(p, v, CancelListed(p, v, c, Listed(v, desks[0])), desks[1..]);
    }
  }

  lemma {:induction false} ListedOnlyCancel(p: Params, v: View, c: Call, ids: seq<nat>)
    ensures var b := CancelListed(p, v, c, ids).maker;
            b.killed == c.maker.killed && b.peak == c.maker.peak && b.nextRisk == c.maker.nextRisk && b.held == c.maker.held
    decreases |ids|
  {
    if ids != [] {
      ListedOnlyCancel(p, v, if ids[0] in v.orders && v.orders[ids[0]].tag == TAG then CancelOne(p, v, c, ids[0]) else c, ids[1..]);
    }
  }
}
