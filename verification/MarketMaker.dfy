/** market_making/baseline.py: how the maker turns targets into orders and cancels.  What to quote and
    when a limit is breached is left to the desk; how the quotes are managed is the module's subject. */
module MarketMaker {
  import opened Units
  import opened OrderBooks
  import opened Fills
  import opened Engine

  const TAG: string := "mm"
  const NEVER: int := -1_000_000_000_000_000_000

  type Key = (Ticker, Side)
  type Target = map<Side, (Price, Qty)>

  /** Durations in nanoseconds; `step` is the price move, in ticks, that makes a quote worth replacing. */
  datatype Params = Params(
    universe: set<Ticker>, minRequote: int, busyFor: int, recheck: int, riskEvery: int, step: int)

  /** The desk's judgement, from what the strategy can see and the markets it has traded: the quotes it
      wants, what the account is worth, and whether a fall from the peak or the exposure is too much. */
  datatype Desk = Desk(
    quotes: (View, set<Ticker>, Ticker) -> Target,
    equity: View -> int,
    breach: (int, int, View, set<Ticker>) -> bool)

  datatype QuoteEvent =
    | Quoted(ts: int, key: Key, price: Price, qty: Qty, id: nat)
    | Withdrawn(ts: int, key: Key, price: Price, qty: Qty, id: nat)

  datatype Maker = Maker(
    held: set<Ticker>, busy: map<Key, int>, cancelling: set<nat>, lastPlace: map<Key, int>,
    nextRisk: int, peak: Option<int>, killed: bool, log: seq<QuoteEvent>)
  {
    function BusyUntil(k: Key): int {
      if k in busy then busy[k] else 0
    }

    function LastPlace(k: Key): int {
      if k in lastPlace then lastPlace[k] else NEVER
    }
  }

  function Fresh(): Maker {
    Maker({}, map[], {}, map[], 0, None, false, [])
  }

  /** A strategy call in progress: the maker's own state and what it has asked the engine for. */
  datatype Call = Call(maker: Maker, sent: seq<Action>, nextId: nat)

  // ---------------------------------------------------------------- what is open

  function Listed(v: View, t: Ticker): seq<nat> {
    if t in v.queues then v.queues[t] else []
  }

  /** Of a list of orders, the last of ours on the side. */
  function LastOn(v: View, ids: seq<nat>, side: Side): Option<nat> {
    if ids == [] then None
    else
      var id := ids[|ids| - 1];
      if id in v.orders && v.orders[id].side == side && v.orders[id].tag == TAG then Some(id)
      else LastOn(v, ids[..|ids| - 1], side)
  }

  function Live(v: View, t: Ticker, side: Side): Option<nat> {
    LastOn(v, Listed(v, t), side)
  }

  predicate IsOpen(v: View, t: Ticker) {
    t in v.markets && v.markets[t].Open()
  }

  function Wanted(d: Desk, v: View, m: Maker, t: Ticker): Target {
    if m.killed || !IsOpen(v, t) then map[] else d.quotes(v, m.held, t)
  }

  // ---------------------------------------------------------------- single requests

  function PlaceOne(p: Params, v: View, c: Call, k: Key, price: Price, qty: Qty): Call {
    Call(c.maker.(lastPlace := c.maker.lastPlace[k := v.now],
                  busy := c.maker.busy[k := v.now + p.busyFor],
                  log := c.maker.log + [Quoted(v.now, k, price, qty, c.nextId)]),
         c.sent + [Place(Order(k.0, k.1, price, qty, POST_ONLY, TAG))],
         c.nextId + 1)
  }

  function CancelOne(p: Params, v: View, c: Call, id: nat): Call
    requires id in v.orders
  {
    var o := v.orders[id];
    if id in c.maker.cancelling then c
    else
      c.(maker := c.maker.(cancelling := c.maker.cancelling + {id},
                           busy := c.maker.busy[(o.ticker, o.side) := v.now + p.busyFor],
                           log := c.maker.log + [Withdrawn(v.now, (o.ticker, o.side), o.price, o.qty, id)]),
         sent := c.sent + [Cancel(id)])
  }

  function CancelListed(p: Params, v: View, c: Call, ids: seq<nat>): Call
    decreases |ids|
  {
    if ids == [] then c
    else
      CancelListed(p, v, if ids[0] in v.orders && v.orders[ids[0]].tag == TAG then CancelOne(p, v, c, ids[0]) else c, ids[1..])
  }

  /** Every open order of ours, market by market. */
  function CancelDesks(p: Params, v: View, c: Call, desks: seq<Ticker>): Call
    decreases |desks|
  {
    if desks == [] then c else CancelDesks(p, v, CancelListed(p, v, c, Listed(v, desks[0])), desks[1..])
  }

  // ---------------------------------------------------------------- one decision

  /** One side of a market, and whether to look again later. */
  function ManageSide(p: Params, v: View, t: Ticker, target: Target, c: Call, side: Side): (Call, bool) {
    var k, cur := (t, side), Live(v, t, side);
    if c.maker.BusyUntil(k) > v.now then (c, true)
    else if cur.Some? && cur.value in c.maker.cancelling then (c, true)
    else if cur.None? then
      if side !in target then (c, false)
      else if v.now - c.maker.LastPlace(k) >= p.minRequote then (PlaceOne(p, v, c, k, target[side].0, target[side].1), false)
      else (c, true)
    else if cur.value !in v.orders then (c, false)
    else
      var o := v.orders[cur.value];
      if side !in target then (CancelOne(p, v, c, cur.value), true)
      else if Moved(target[side].0, o.price, p.step) || target[side].1 < o.qty || 2 * o.qty < target[side].1 then
        (CancelOne(p, v, c, cur.value), true)
      else (c, false)
  }

  predicate Moved(want: Price, cur: Price, step: int) {
    want - cur >= step || cur - want >= step
  }

  function Manage(p: Params, d: Desk, v: View, t: Ticker, c: Call): Call {
    var target := Wanted(d, v, c.maker, t);
    var (yes, again1) := ManageSide(p, v, t, target, c, YES);
    var (no, again2) := ManageSide(p, v, t, target, yes, NO);
    if again1 || again2 then no.(sent := no.sent + [WakeAt(v.now + p.recheck, TAG, t)]) else no
  }

  function NewPeak(m: Maker, equity: int): int {
    if m.peak.None? then equity else Max(m.peak.value, equity)
  }

  /** At most every so often; a breach, once and for all, stops the maker and withdraws everything. */
  function RiskCheck(p: Params, d: Desk, v: View, c: Call): Call {
    if v.now < c.maker.nextRisk then c
    else
      var m := c.maker.(nextRisk := v.now + p.riskEvery);
      if m.killed then CancelDesks(p, v, c.(maker := m), v.desks)
      else
        var equity := d.equity(v);
        var peak := NewPeak(m, equity);
        if d.breach(peak, equity, v, m.held) then
          CancelDesks(p, v, c.(maker := m.(peak := Some(peak), killed := true)), v.desks)
        else c.(maker := m.(peak := Some(peak)))
  }

  /** The market an event calls for a decision on. */
  function Todo(p: Params, s: Stimulus): Option<Ticker> {
    match s
    case Noticed(Filled(_, _, t, _, _, _, _, _, _)) => Some(t)
    case Noticed(Wake(tag, t)) => if tag == TAG && t != "" then Some(t) else None
    case Feed(BookUpdate(_, t, _, _)) => if t in p.universe then Some(t) else None
    case _ => None
  }

  function Hold(m: Maker, s: Stimulus): Maker {
    if s.Noticed? && s.notice.Filled? then m.(held := m.held + {s.notice.ticker}) else m
  }

  function Respond(p: Params, d: Desk, m: Maker, v: View, s: Stimulus): Call {
    var c := Call(Hold(m, s), [], v.nextId);
    match Todo(p, s)
    case None => c
    case Some(t) => Manage(p, d, v, t, RiskCheck(p, d, v, c))
  }

  /** The maker as the engine calls it. */
  function Quoter(p: Params, d: Desk): Strategy<Maker> {
    (m: Maker, v: View, s: Stimulus) => (Respond(p, d, m, v, s).maker, Respond(p, d, m, v, s).sent)
  }

  // ---------------------------------------------------------------- as the program runs it

  /** The engine's end of a strategy call: it shows the view and takes the requests. */
  class Context {
    const view: View
    var sent: seq<Action>
    var nextId: nat

    constructor (view: View)
      ensures this.view == view && sent == [] && nextId == view.nextId
    {
      this.view, sent, nextId := view, [], view.nextId;
    }

    method Place(o: Order) returns (id: nat)
      modifies this
      ensures id == old(nextId) && nextId == old(nextId) + 1 && sent == old(sent) + [Action.Place(o)]
    {
      id := nextId;
      sent, nextId := sent + [Action.Place(o)], nextId + 1;
    }

    method Cancel(id: nat)
      modifies this
      ensures nextId == old(nextId) && sent == old(sent) + [Action.Cancel(id)]
    {
      sent := sent + [Action.Cancel(id)];
    }

    method WakeAt(ts: int, tag: string, t: Ticker)
      modifies this
      ensures nextId == old(nextId) && sent == old(sent) + [Action.WakeAt(ts, tag, t)]
    {
      sent := sent + [Action.WakeAt(ts, tag, t)];
    }
  }

  class BinaryMarketMaker {
    const p: Params
    const d: Desk
    var held: set<Ticker>
    var busy: map<Key, int>
    var cancelling: set<nat>
    var lastPlace: map<Key, int>
    var nextRisk: int
    var peak: Option<int>
    var killed: bool
    var log: seq<QuoteEvent>

    ghost function Value(): Maker
      reads this
    {
      Maker(held, busy, cancelling, lastPlace, nextRisk, peak, killed, log)
    }

    ghost function InCall(ctx: Context): Call
      reads this, ctx
    {
      Call(Value(), ctx.sent, ctx.nextId)
    }

    constructor (p: Params, d: Desk)
      ensures this.p == p && this.d == d && Value() == Fresh()
    {
      this.p, this.d := p, d;
      held, busy, cancelling, lastPlace := {}, map[], {}, map[];
      nextRisk, peak, killed, log := 0, None, false, [];
    }

    method PlaceQuote(ctx: Context, k: Key, price: Price, qty: Qty)
      modifies this, ctx
      ensures InCall(ctx) == PlaceOne(p, ctx.view, old(InCall(ctx)), k, price, qty)
    {
      var id := ctx.Place(Order(k.0, k.1, price, qty, POST_ONLY, TAG));
      lastPlace := lastPlace[k := ctx.view.now];
      busy := busy[k := ctx.view.now + p.busyFor];
      log := log + [Quoted(ctx.view.now, k, price, qty, id)];
    }

    method Withdraw(ctx: Context, id: nat)
      requires id in ctx.view.orders
      modifies this, ctx
      ensures InCall(ctx) == CancelOne(p, ctx.view, old(InCall(ctx)), id)
    {
      if id in cancelling {
        return;
      }
      var o := ctx.view.orders[id];
      ctx.Cancel(id);
      cancelling := cancelling + {id};
      busy := busy[(o.ticker, o.side) := ctx.view.now + p.busyFor];
      log := log + [Withdrawn(ctx.view.now, (o.ticker, o.side), o.price, o.qty, id)];
    }

    method WithdrawListed(ctx: Context, ids: seq<nat>)
      modifies this, ctx
      ensures InCall(ctx) == CancelListed(p, ctx.view, old(InCall(ctx)), ids)
    {
      var i := 0;
      assert ids[0..] == ids;
      while i < |ids|
        invariant 0 <= i <= |ids|
        invariant CancelListed(p, ctx.view, InCall(ctx), ids[i..]) == CancelListed(p, ctx.view, old(InCall(ctx)), ids)
      {
        assert ids[i..][0] == ids[i] && ids[i..][1..] == ids[i + 1..];
        if ids[i] in ctx.view.orders && ctx.view.orders[ids[i]].tag == TAG {
          Withdraw(ctx, ids[i]);
        }
        i := i + 1;
      }
      assert ids[i..] == [];
    }

    method WithdrawEverything(ctx: Context)
      modifies this, ctx
      ensures InCall(ctx) == CancelDesks(p, ctx.view, old(InCall(ctx)), ctx.view.desks)
    {
      var desks := ctx.view.desks;
      var i := 0;
      assert desks[0..] == desks;
      while i < |desks|
        invariant 0 <= i <= |desks|
        invariant CancelDesks(p, ctx.view, InCall(ctx), desks[i..]) == CancelDesks(p, ctx.view, old(InCall(ctx)), desks)
      {
        assert desks[i..][0] == desks[i] && desks[i..][1..] == desks[i + 1..];
        WithdrawListed(ctx, Listed(ctx.view, desks[i]));
        i := i + 1;
      }
      assert desks[i..] == [];
    }

    method CheckRisk(ctx: Context)
      modifies this, ctx
      ensures InCall(ctx) == RiskCheck(p, d, ctx.view, old(InCall(ctx)))
    {
      if ctx.view.now < nextRisk {
        return;
      }
      nextRisk := ctx.view.now + p.riskEvery;
      if !killed {
        var equity := d.equity(ctx.view);
        var top := if peak.None? then equity else Max(peak.value, equity);
        peak := Some(top);
        if d.breach(top, equity, ctx.view, held) {
          killed := true;
        }
      }
      if killed {
        WithdrawEverything(ctx);
      }
    }

    method ManageOne(ctx: Context, t: Ticker, target: Target, side: Side) returns (retry: bool)
      modifies this, ctx
      ensures (InCall(ctx), retry) == ManageSide(p, ctx.view, t, target, old(InCall(ctx)), side)
    {
      var k, now := (t, side), ctx.view.now;
      if (if k in busy then busy[k] else 0) > now {
        return true;
      }
      var cur := Live(ctx.view, t, side);
      if cur.Some? && cur.value in cancelling {
        return true;
      }
      if cur.None? {
        if side in target && now - (if k in lastPlace then lastPlace[k] else NEVER) >= p.minRequote {
          PlaceQuote(ctx, k, target[side].0, target[side].1);
          return false;
        }
        return side in target;
      }
      if cur.value !in ctx.view.orders {
        return false;
      }
      var o := ctx.view.orders[cur.value];
      if side !in target || Moved(target[side].0, o.price, p.step) || target[side].1 < o.qty || 2 * o.qty < target[side].1 {
        Withdraw(ctx, cur.value);
        return true;
      }
      return false;
    }

    method ManageMarket(ctx: Context, t: Ticker)
      modifies this, ctx
      ensures InCall(ctx) == Manage(p, d, ctx.view, t, old(InCall(ctx)))
    {
      var target := if killed || !IsOpen(ctx.view, t) then map[] else d.quotes(ctx.view, held, t);
      var again1 := ManageOne(ctx, t, target, YES);
      var again2 := ManageOne(ctx, t, target, NO);
      if again1 || again2 {
        ctx.WakeAt(ctx.view.now + p.recheck, TAG, t);
      }
    }

    method OnEvent(ctx: Context, s: Stimulus)
      requires ctx.sent == [] && ctx.nextId == ctx.view.nextId
      modifies this, ctx
      ensures (Value(), ctx.sent) == Quoter(p, d)(old(Value()), ctx.view, s)
    {
      if s.Noticed? && s.notice.Filled? {
        held := held + {s.notice.ticker};
      }
      var todo := Todo(p, s);
      if todo.Some? {
        CheckRisk(ctx);
        ManageMarket(ctx, todo.value);
      }
    }
  }
}
