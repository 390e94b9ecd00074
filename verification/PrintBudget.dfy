/** One print shared by several of our own orders: at their level, fills and queue positions together
    never use more than the print's count. */
module PrintBudget {
  import opened Units
  import opened Fees
  import opened Fills
  import opened Ledger
  import opened Engine
  import opened EngineGrowth
  import opened EngineInvariant
  import opened EngineSafety

  /** What one order got out of a stretch of the run: contracts filled, and places gained in the queue. */
  ghost function Got<S>(a: Core<S>, b: Core<S>, id: nat): int
    requires id in a.orders && id in a.records && id in b.records
  {
    b.records[id].filled - a.records[id].filled
    + a.orders[id].ahead - (if id in b.orders then b.orders[id].ahead else 0)
  }

  ghost predicate Traced<S>(a: Core<S>, b: Core<S>, ids: seq<nat>) {
    forall i | 0 <= i < |ids| :: ids[i] in a.orders && ids[i] in a.records && ids[i] in b.records
  }

  /** ... summed over those of the orders that bid for `side` at `px`. */
  ghost function GotAt<S>(a: Core<S>, b: Core<S>, ids: seq<nat>, side: Side, px: Price): int
    requires Traced(a, b, ids)
  {
    if ids == [] then 0
    else
      assert Traced(a, b, ids[1..]);
      (if a.orders[ids[0]].side == side && a.orders[ids[0]].price == px then Got(a, b, ids[0]) else 0)
      + GotAt(a, b, ids[1..], side, px)
  }

  /** One order's turn with the print, seen from one level's budget. */
  lemma OneTurn(cfg: Config, o: Resting, trade: Trade, budget: Budget, side: Side)
    requires o.qty > 0 && o.ahead >= 0
    requires Left(budget, (side, TradePrice(side, trade)), trade.count) >= 0
    ensures
      var px := TradePrice(side, trade);
      var (after, fill, next) := PrintOn(cfg, o, trade, budget);
      var b := Left(budget, (side, px), trade.count);
      var used := fill + o.ahead - after.ahead;
      if o.side == side && o.price == px then
        && 0 <= fill <= o.qty && 0 <= used <= b && Left(next, (side, px), trade.count) == b - used
        && (fill == o.qty ==> after.ahead == 0)
      else
        Left(next, (side, px), trade.count) == b
  {
  }

  lemma AfterFillEffect<S>(cfg: Config, c: Core<S>, id: nat, qty: Qty)
    requires id in c.orders && id in c.records && c.orders[id].ticker !in c.account.settled && cfg.latencyAck >= 0
    ensures
      var b, o := AfterFill(cfg, c, id, qty), c.orders[id];
      && b.orders == c.orders[id := o.(qty := o.qty - qty, filled := o.filled + qty)]
      && b.records == c.records[id := FilledRecord(c, id, qty)]
      && FilledRecord(c, id, qty).filled == c.records[id].filled + qty
  {
    AfterFillParts(cfg, c, id, qty);
    hide AfterFill, Bought, FeeSchedule.OrderFee, Notional;
  }

  lemma RemoveEffect<S>(c: Core<S>, id: nat)
    requires id in c.orders
    ensures RemoveResting(c, id).orders == c.orders - {id} && RemoveResting(c, id).records == c.records
  {
    hide Without;
  }

  ghost predicate Elsewhere(a: Orders, b: Orders, id: nat) {
    && (forall k | k in a && k != id :: k in b && b[k] == a[k])
    && (forall k | k in b && k != id :: k in a)
  }

  ghost predicate RecordsElsewhere(a: Records, b: Records, id: nat) {
    forall k | k in a && k != id :: k in b && b[k] == a[k]
  }

  /** The orders and records a maker fill of qty leaves. */
  ghost predicate Served<S>(a: Core<S>, b: Core<S>, id: nat, qty: Qty)
    requires id in a.orders && id in a.records
  {
    var o := a.orders[id];
    && b.records == a.records[id := FilledRecord(a, id, qty)]
    && b.orders == if qty == o.qty then a.orders - {id} else a.orders[id := o.(qty := o.qty - qty, filled := o.filled + qty)]
  }

  lemma MakerEffect<S>(cfg: Config, c: Core<S>, id: nat, fill: Qty)
    requires ValidConfig(cfg) && Inv(cfg, c) && c.error.None? && id in c.orders && id in c.records
    ensures
      var qty := Min(fill, c.orders[id].qty);
      if qty <= 0 then MakerFill(cfg, c, id, fill) == c else Served(c, MakerFill(cfg, c, id, fill), id, qty)
  {
    var o := c.orders[id];
    var qty := Min(fill, o.qty);
    if qty > 0 {
      OpenNotSettled(cfg, c, id);
      hide Inv, AfterFill, MakerFill, RemoveResting, FilledRecord, Served;
      MakerFillIs(cfg, c, id, fill);
      AfterFillEffect(cfg, c, id, qty);
      RemoveEffect(AfterFill(cfg, c, id, qty), id);
      ServedBy(c, AfterFill(cfg, c, id, qty), MakerFill(cfg, c, id, fill), id, qty);
    }
  }

  lemma ServedBy<S>(a: Core<S>, mid: Core<S>, b: Core<S>, id: nat, qty: Qty)
    requires id in a.orders && id in a.records && id in mid.orders
    requires var o := a.orders[id];
             && mid.orders == a.orders[id := o.(qty := o.qty - qty, filled := o.filled + qty)]
             && mid.records == a.records[id := FilledRecord(a, id, qty)]
    requires if qty == a.orders[id].qty then b.orders == mid.orders - {id} && b.records == mid.records else b == mid
    ensures Served(a, b, id, qty)
  {
    var o := a.orders[id];
    TakenOut(a.orders, id, o.(qty := o.qty - qty, filled := o.filled + qty));
  }

  lemma TakenOut(m: Orders, id: nat, o: Resting)
    ensures m[id := o] - {id} == m - {id}
  {
  }

  lemma ServedElsewhere<S>(a: Core<S>, b: Core<S>, id: nat, qty: Qty)
    requires id in a.orders && id in a.records && Served(a, b, id, qty)
    ensures Elsewhere(a.orders, b.orders, id) && RecordsElsewhere(a.records, b.records, id)
    ensures id in b.records && b.records[id].filled == a.records[id].filled + qty
    ensures if qty == a.orders[id].qty then id !in b.orders else id in b.orders && b.orders[id].ahead == a.orders[id].ahead
  {
  }

  lemma ElsewhereChain(a: Orders, b: Orders, id: nat, o: Resting)
    requires id in a && Elsewhere(a[id := o], b, id)
    ensures Elsewhere(a, b, id)
  {
  }

  lemma HitIs<S>(cfg: Config, c: Core<S>, id: nat, o: Resting, fill: Qty)
    requires id in c.orders && id in c.records
    ensures Hit(cfg, c, id, o, fill) == MakerFill(cfg, c.(orders := c.orders[id := o]), id, fill)
  {
    hide LogFill, Reduce, RemoveResting, MakerRecord;
  }

  /** What a hit does to the order it hits, and that it does nothing to the others. */
  lemma HitEffect<S>(cfg: Config, c: Core<S>, id: nat, o: Resting, fill: Qty)
    requires ValidConfig(cfg) && Inv(cfg, c) && c.error.None? && id in c.orders && id in c.records
    requires SameHolding(c.orders[id], o) && o.qty > 0
    ensures
      var b := Hit(cfg, c, id, o, fill);
      var qty := Max(0, Min(fill, o.qty));
      && Elsewhere(c.orders, b.orders, id) && RecordsElsewhere(c.records, b.records, id)
      && id in b.records && b.records[id].filled == c.records[id].filled + qty
      && (if qty == o.qty then id !in b.orders else id in b.orders && b.orders[id].ahead == o.ahead)
  {
    var moved := c.(orders := c.orders[id := o]);
    MoveKeeps(cfg, c, id, o);
    hide Inv, SameHolding, MakerFill, Served, Elsewhere, RecordsElsewhere, Hit;
    var qty := Min(fill, o.qty);
    MakerEffect(cfg, moved, id, fill);
    HitIs(cfg, c, id, o, fill);
    if qty > 0 {
      ServedElsewhere(moved, MakerFill(cfg, moved, id, fill), id, qty);
      ElsewhereChain(c.orders, MakerFill(cfg, moved, id, fill).orders, id, o);
    } else {
      MovedElsewhere(c.orders, c.records, id, o);
    }
  }

  lemma MovedElsewhere(a: Orders, r: Records, id: nat, o: Resting)
    ensures Elsewhere(a, a[id := o], id) && RecordsElsewhere(r, r, id)
  {
  }

  /** A whole print leaves every order alone that is not among those it is shown to. */
  lemma {:induction false} MatchElsewhere<S>(cfg: Config, c: Core<S>, ids: seq<nat>, trade: Trade, budget: Budget, id: nat)
    requires ValidConfig(cfg) && Inv(cfg, c) && c.error.None? && id !in ids && id in c.records
    ensures
      var b := MatchResting(cfg, c, ids, trade, budget);
      && id in b.records && b.records[id] == c.records[id]
      && (id in b.orders <==> id in c.orders) && (id in c.orders ==> b.orders[id] == c.orders[id])
    decreases |ids|
  {
    hide Inv, Hit, PrintOn, SameHolding;
    if ids == [] {
    } else if ids[0] in c.orders && ids[0] in c.records {
      var (after, fill, next) := PrintOn(cfg, c.orders[ids[0]], trade, budget);
      HoldingPrintOn(cfg, c.orders[ids[0]], trade, budget);
      HitKeeps(cfg, c, ids[0], after, fill);
      HitElsewhere(cfg, c, ids[0], after, fill, id);
      MatchElsewhere(cfg, Hit(cfg, c, ids[0], after, fill), ids[1..], trade, next, id);
    } else {
      MatchElsewhere(cfg, c, ids[1..], trade, budget, id);
    }
  }

  lemma HitElsewhere<S>(cfg: Config, c: Core<S>, id: nat, o: Resting, fill: Qty, k: nat)
    requires ValidConfig(cfg) && Inv(cfg, c) && c.error.None? && id in c.orders && id in c.records
    requires SameHolding(c.orders[id], o) && k != id && k in c.records
    ensures
      var b := Hit(cfg, c, id, o, fill);
      && k in b.records && b.records[k] == c.records[k]
      && (k in b.orders <==> k in c.orders) && (k in c.orders ==> b.orders[k] == c.orders[k])
  {
    assert o.qty > 0;
    hide Inv, SameHolding, Hit;
    HitEffect(cfg, c, id, o, fill);
  }

  /** The orders of a stretch are as another state has them, so what they get from there is the same. */
  lemma {:induction false} SameStart<S>(a: Core<S>, a': Core<S>, b: Core<S>, ids: seq<nat>, side: Side, px: Price)
    requires Traced(a, b, ids) && Traced(a', b, ids)
    requires forall i | 0 <= i < |ids| :: a'.orders[ids[i]] == a.orders[ids[i]] && a'.records[ids[i]] == a.records[ids[i]]
    ensures GotAt(a, b, ids, side, px) == GotAt(a', b, ids, side, px)
  {
    if ids != [] {
      SameStart(a, a', b, ids[1..], side, px);
    }
  }

  lemma {:induction false} MatchTraced<S>(cfg: Config, c: Core<S>, ids: seq<nat>, trade: Trade, budget: Budget)
    requires ValidConfig(cfg) && Inv(cfg, c) && c.error.None?
    requires forall i | 0 <= i < |ids| :: ids[i] in c.orders && ids[i] in c.records
    ensures Traced(c, MatchResting(cfg, c, ids, trade, budget), ids)
  {
    assert Counted(c);
    MatchQuiet(cfg, c, ids, trade, budget);
    hide Extends, OnlyNotices, OrdersShrink, Inv, MatchResting, Numbered;
  }

  lemma OneGot<S>(cfg: Config, c: Core<S>, id: nat, trade: Trade, budget: Budget, side: Side)
    requires ValidConfig(cfg) && Inv(cfg, c) && c.error.None? && id in c.orders && id in c.records
    requires Left(budget, (side, TradePrice(side, trade)), trade.count) >= 0
    ensures
      var px := TradePrice(side, trade);
      var (after, fill, next) := PrintOn(cfg, c.orders[id], trade, budget);
      var b := Hit(cfg, c, id, after, fill);
      && SameHolding(c.orders[id], after) && id in b.records
      && Elsewhere(c.orders, b.orders, id) && RecordsElsewhere(c.records, b.records, id)
      && 0 <= Left(next, (side, px), trade.count) <= Left(budget, (side, px), trade.count)
      && (if c.orders[id].side == side && c.orders[id].price == px then Got(c, b, id) else 0)
         == Left(budget, (side, px), trade.count) - Left(next, (side, px), trade.count)
  {
    var o := c.orders[id];
    assert o.qty > 0 && o.ahead >= 0 by { hide Numbered, HeapOk, PendingOk, QueuesOk, ReservedOk, LogOk, MoneyOk, OpenOk; }
    hide Inv, PrintOn, Hit, SameHolding, Elsewhere, RecordsElsewhere, Left;
    var (after, fill, next) := PrintOn(cfg, o, trade, budget);
    HoldingPrintOn(cfg, o, trade, budget);
    HoldingQty(o, after);
    OneTurn(cfg, o, trade, budget, side);
    HitEffect(cfg, c, id, after, fill);
  }

  lemma HoldingQty(a: Resting, b: Resting)
    requires SameHolding(a, b)
    ensures b.qty == a.qty
  {
  }

  /** Over the whole list, what our orders at one level get is covered by the level's budget. */
  lemma {:induction false} MatchWithin<S>(cfg: Config, c: Core<S>, ids: seq<nat>, trade: Trade, budget: Budget, side: Side)
    requires ValidConfig(cfg) && Inv(cfg, c) && c.error.None? && NoRepeats(ids)
    requires forall i | 0 <= i < |ids| :: ids[i] in c.orders && ids[i] in c.records
    requires Left(budget, (side, TradePrice(side, trade)), trade.count) >= 0
    ensures
      var b := MatchResting(cfg, c, ids, trade, budget);
      && Traced(c, b, ids)
      && 0 <= GotAt(c, b, ids, side, TradePrice(side, trade)) <= Left(budget, (side, TradePrice(side, trade)), trade.count)
    decreases |ids|
  {
    MatchTraced(cfg, c, ids, trade, budget);
    if ids != [] {
      hide Inv, PrintOn, Hit, SameHolding, Left, Got;
      var id, rest, px := ids[0], ids[1..], TradePrice(side, trade);
      var (after, fill, next) := PrintOn(cfg, c.orders[id], trade, budget);
      var mid := Hit(cfg, c, id, after, fill);
      OneGot(cfg, c, id, trade, budget, side);
      HitKeeps(cfg, c, id, after, fill);
      RestElsewhere(c, mid, ids);
      MatchWithin(cfg, mid, rest, trade, next, side);
      var b := MatchResting(cfg, mid, rest, trade, next);
      MatchElsewhere(cfg, mid, rest, trade, next, id);
      SameStart(c, mid, b, rest, side, px);
      SameGot(c, mid, b, id);
    }
  }

  lemma RestElsewhere<S>(a: Core<S>, b: Core<S>, ids: seq<nat>)
    requires ids != [] && NoRepeats(ids) && Elsewhere(a.orders, b.orders, ids[0]) && RecordsElsewhere(a.records, b.records, ids[0])
    requires forall i | 0 <= i < |ids| :: ids[i] in a.orders && ids[i] in a.records
    ensures NoRepeats(ids[1..]) && ids[0] !in ids[1..]
    ensures forall i | 0 <= i < |ids[1..]| :: ids[1..][i] in b.orders && ids[1..][i] in b.records
    ensures forall i | 0 <= i < |ids[1..]| ::
              b.orders[ids[1..][i]] == a.orders[ids[1..][i]] && b.records[ids[1..][i]] == a.records[ids[1..][i]]
  {
    var rest := ids[1..];
    assert forall i | 0 <= i < |rest| :: rest[i] == ids[i + 1] && ids[i + 1] != ids[0];
  }

  lemma SameGot<S>(a: Core<S>, mid: Core<S>, b: Core<S>, id: nat)
    requires id in a.orders && id in a.records && id in mid.records && id in b.records && b.records[id] == mid.records[id]
    requires (id in b.orders <==> id in mid.orders) && (id in mid.orders ==> b.orders[id] == mid.orders[id])
    ensures Got(a, b, id) == Got(a, mid, id)
  {
  }

  /** One print's contracts are handed out at most once: over all our orders resting at its price, the
      fills it gives and the places in the queue it clears come to no more than its count. */
  lemma PrintSharedOnce<S>(cfg: Config, c: Core<S>, t: Ticker, trade: Trade, side: Side)
    requires ValidConfig(cfg) && Inv(cfg, c) && c.error.None? && trade.count >= 0
    ensures
      var b := MatchResting(cfg, c, c.Queue(t), trade, map[]);
      && Traced(c, b, c.Queue(t))
      && 0 <= GotAt(c, b, c.Queue(t), side, TradePrice(side, trade)) <= trade.count
  {
    assert NoRepeats(c.Queue(t)) && forall i | 0 <= i < |c.Queue(t)| :: c.Queue(t)[i] in c.orders && c.Queue(t)[i] in c.records by {
      hide Numbered, HeapOk, PendingOk, ReservedOk, LogOk, MoneyOk, OpenOk, LiveOk, RestsAs;
    }
    hide Inv, GotAt, Traced;
    MatchWithin(cfg, c, c.Queue(t), trade, map[], side);
  }
}
