/** backtest/fills.py: what the recorded market lets a taker or a resting order have. */
module Fills {
  import opened Units
  import opened OrderBooks

  datatype Trade = Trade(yesPrice: Price, noPrice: Price, count: Qty, takerSide: Option<Side>)

  function TradePrice(side: Side, t: Trade): Price {
    if side.YES? then t.yesPrice else t.noPrice
  }

  /** Did this print consume liquidity resting as a bid on the side? */
  predicate HitsSide(side: Side, t: Trade) {
    t.takerSide == Some(side.Opposite())
  }

  function Depth(m: Bids, price: Price): Qty {
    if price in m then m[price] else 0
  }

  function LevelSize(book: Option<Book>, side: Side, price: Price): Qty {
    if book.None? then 0 else Depth(book.value.On(side), price)
  }

  /** The scan of `level_size`: down the best-first list, stopping once below the price. */
  method ScanLevelSize(book: Option<Book>, side: Side, price: Price) returns (size: Qty)
    ensures size == LevelSize(book, side, price)
  {
    if book.None? {
      return 0;
    }
    size := Scan(book.value.On(side), price);
  }

  method Scan(m: Bids, price: Price) returns (size: Qty)
    ensures size == Depth(m, price)
  {
    hide Levels;
    var levels := Levels(m);
    LevelsSorted(m);
    ghost var target := Level(price, Depth(m, price));
    assert price in m ==> target in levels;
    for i := 0 to |levels|
      invariant forall k | 0 <= k < i :: levels[k] != target
    {
      assert levels[i] in levels;
      if levels[i].price == price {
        return levels[i].qty;
      }
      if levels[i].price < price {
        assert forall k | i <= k < |levels| :: levels[k].price < price;
        assert target !in levels;
        return 0;
      }
    }
    return 0;
  }

  // ---------------------------------------------------------------- taker

  function Share(fraction: real, qty: Qty): Qty {
    (fraction * qty as real).Floor
  }

  datatype TakerModel = TakerModel(maxStaleness: Option<int>, slippage: int, depthFraction: real) {
    /** Fills of a marketable buy walking these asks, at most `limit` a contract. */
    function Walk(asks: seq<Level>, limit: Price, remaining: Qty): seq<Fill> {
      if asks == [] || remaining <= 0 then []
      else if asks[0].price > limit || asks[0].price + slippage > limit then []
      else
        var take := Min(remaining, Share(depthFraction, asks[0].qty));
        if take <= 0 then Walk(asks[1..], limit, remaining)
        else [Fill(asks[0].price + slippage, take)] + Walk(asks[1..], limit, remaining - take)
    }

    function Execute(book: Option<Book>, age: Option<int>, side: Side, limit: Price, qty: Qty): seq<Fill> {
      if book.None? || age.None? then []
      else if maxStaleness.Some? && age.value > maxStaleness.value then []
      else Walk(book.value.AskLevels(side), limit, qty)
    }

    lemma WalkFrom(asks: seq<Level>, i: nat, limit: Price, remaining: Qty)
      requires i <= |asks|
      ensures i == |asks| ==> Walk(asks[i..], limit, remaining) == []
      ensures i < |asks| && (remaining <= 0 || asks[i].price > limit || asks[i].price + slippage > limit) ==>
                Walk(asks[i..], limit, remaining) == []
      ensures i < |asks| && remaining > 0 && asks[i].price <= limit && asks[i].price + slippage <= limit ==>
                var take := Min(remaining, Share(depthFraction, asks[i].qty));
                Walk(asks[i..], limit, remaining)
                == if take <= 0 then Walk(asks[i + 1..], limit, remaining)
                   else [Fill(asks[i].price + slippage, take)] + Walk(asks[i + 1..], limit, remaining - take)
    {
      hide Share;
      if i < |asks| {
        assert asks[i..][0] == asks[i] && asks[i..][1..] == asks[i + 1..];
      }
    }

    method ExecuteLoop(asks: seq<Level>, limit: Price, qty: Qty) returns (fills: seq<Fill>)
      ensures fills == Walk(asks, limit, qty)
    {
      hide Share, Walk;
      fills := [];
      var remaining := qty;
      var i := 0;
      assert asks[0..] == asks;
      while i < |asks|
        invariant 0 <= i <= |asks|
        invariant fills + Walk(asks[i..], limit, remaining) == Walk(asks, limit, qty)
      {
        WalkFrom(asks, i, limit, remaining);
        if remaining <= 0 {
          break;
        }
        var px := asks[i].price + slippage;
        if asks[i].price > limit || px > limit {
          break;
        }
        var take := Min(remaining, Share(depthFraction, asks[i].qty));
        if take > 0 {
          fills := fills + [Fill(px, take)];
          remaining := remaining - take;
        }
        i := i + 1;
      }
      WalkFrom(asks, i, limit, remaining);
    }
  }

  function SumQty(fills: seq<Fill>): Qty {
    if fills == [] then 0 else fills[0].qty + SumQty(fills[1..])
  }

  function SumCost(fills: seq<Fill>): int {
    if fills == [] then 0 else fills[0].price * fills[0].qty + SumCost(fills[1..])
  }

  ghost predicate AllPositive(fills: seq<Fill>) {
    forall i | 0 <= i < |fills| :: fills[i].qty > 0
  }

  lemma DearerAtLimit(p: Price, limit: Price, q: Qty, more: Qty)
    requires p <= limit && q >= 0
    ensures p * q + limit * more <= limit * (q + more)
  {
    assert p * q <= limit * q;
  }

  /** Whatever the haircuts, a taker never gets more than it asked for and never pays above its limit. */
  lemma {:induction false} TakerWithinLimit(m: TakerModel, asks: seq<Level>, limit: Price, qty: Qty)
    ensures AllPositive(m.Walk(asks, limit, qty))
    ensures 0 <= SumQty(m.Walk(asks, limit, qty)) <= Max(qty, 0)
    ensures forall i | 0 <= i < |m.Walk(asks, limit, qty)| :: m.Walk(asks, limit, qty)[i].price <= limit
    ensures SumCost(m.Walk(asks, limit, qty)) <= limit * SumQty(m.Walk(asks, limit, qty))
  {
    hide Share;
    if asks != [] && qty > 0 && asks[0].price <= limit && asks[0].price + m.slippage <= limit {
      var take := Min(qty, Share(m.depthFraction, asks[0].qty));
      TakerWithinLimit(m, asks[1..], limit, if take > 0 then qty - take else qty);
      if take > 0 {
        var rest := m.Walk(asks[1..], limit, qty - take);
        var px := asks[0].price + m.slippage;
        var all := [Fill(px, take)] + rest;
        assert m.Walk(asks, limit, qty) == all && all[1..] == rest;
        DearerAtLimit(px, limit, take, SumQty(rest));
      }
    }
  }

  /** Every price a taker pays is some ask's price plus the slippage. */
  lemma {:induction false} TakerPrices(m: TakerModel, asks: seq<Level>, limit: Price, qty: Qty)
    requires forall l | l in asks :: 0 < l.price
    requires m.slippage >= 0
    ensures forall i | 0 <= i < |m.Walk(asks, limit, qty)| :: 0 < m.Walk(asks, limit, qty)[i].price
  {
    if asks != [] && qty > 0 && asks[0].price <= limit && asks[0].price + m.slippage <= limit {
      var take := Min(qty, Share(m.depthFraction, asks[0].qty));
      TakerPrices(m, asks[1..], limit, if take > 0 then qty - take else qty);
    }
  }

  /** `apply_taker_fills_to_book`: inconsistent deltas are swallowed. */
  function Deplete(b: Book, side: Side, fills: seq<Fill>): (r: Book)
    requires b.Valid()
    ensures r.Valid()
    decreases |fills|
  {
    if fills == [] then b
    else
      var next := Delta(b, side.Opposite(), Complement(fills[0].price), -fills[0].qty);
      Deplete(if next.Some? then next.value else b, side, fills[1..])
  }

  // ---------------------------------------------------------------- resting orders

  datatype Resting = Resting(
    id: nat, ticker: Ticker, side: Side, price: Price,
    qty: Qty, original: Qty, placedTs: int, tag: string,
    ahead: Qty, lastLevel: Qty, traded: Qty, filled: Qty)

  /** `alpha` of the displayed level is ahead on arrival; `cancelShare` of an unexplained decrease is
      taken to have been ahead; `throughOnly` ignores prints at our own price. */
  datatype QueueModel = QueueModel(alpha: real, cancelShare: real, throughOnly: bool) {
    function OnPlace(o: Resting, book: Option<Book>): Resting {
      var size := LevelSize(book, o.side, o.price);
      o.(lastLevel := size, ahead := Share(alpha, size), traded := 0)
    }

    /** The order after the print, and how many contracts the print fills. */
    function OnTrade(o: Resting, t: Trade): (Resting, Qty) {
      var px := TradePrice(o.side, t);
      if !HitsSide(o.side, t) || o.qty <= 0 then (o, 0)
      else if px > o.price then (o, 0)
      else if px < o.price then (o, o.qty)
      else if throughOnly then (o, 0)
      else
        var consumed := Min(o.ahead, t.count);
        (o.(traded := o.traded + t.count, ahead := o.ahead - consumed), Min(o.qty, t.count - consumed))
    }

    function OnBook(o: Resting, book: Book): (Resting, Qty) {
      var ask := book.BestAsk(o.side);
      if ask.Some? && ask.value.price <= o.price then (o, o.qty)
      else
        var size := LevelSize(Some(book), o.side, o.price);
        var expected := Max(0, o.lastLevel - o.traded);
        var ahead := if size < expected then o.ahead - Share(cancelShare, expected - size) else o.ahead;
        (o.(ahead := Max(0, Min(ahead, size)), lastLevel := size, traded := 0), 0)
    }

    predicate Valid() {
      0.0 <= alpha <= 1.0 && 0.0 <= cancelShare <= 1.0
    }
  }

  const OPTIMISTIC: QueueModel := QueueModel(0.0, 0.0, false)
  const PESSIMISTIC: QueueModel := QueueModel(1.0, 0.0, true)

  function Queue(alpha: real, cancelShare: real): QueueModel {
    QueueModel(alpha, cancelShare, false)
  }

  /** A resting order as the model's methods mutate it. */
  class RestingOrder {
    const id: nat
    const ticker: Ticker
    const side: Side
    const price: Price
    const original: Qty
    const placedTs: int
    const tag: string
    var qty: Qty
    var ahead: Qty
    var lastLevel: Qty
    var traded: Qty
    var filled: Qty

    ghost function Value(): Resting
      reads this
    {
      Resting(id, ticker, side, price, qty, original, placedTs, tag, ahead, lastLevel, traded, filled)
    }

    constructor (id: nat, ticker: Ticker, side: Side, price: Price, qty: Qty, original: Qty,
                 placedTs: int, tag: string)
      ensures Value() == Resting(id, ticker, side, price, qty, original, placedTs, tag, 0, 0, 0, 0)
    {
      this.id, this.ticker, this.side, this.price := id, ticker, side, price;
      this.original, this.placedTs, this.tag := original, placedTs, tag;
      this.qty, ahead, lastLevel, traded, filled := qty, 0, 0, 0, 0;
    }

    method Place(model: QueueModel, book: Option<Book>)
      modifies this
      ensures Value() == model.OnPlace(old(Value()), book)
    {
      var size := ScanLevelSize(book, side, price);
      lastLevel := size;
      ahead := Share(model.alpha, size);
      traded := 0;
    }

    method Trade(model: QueueModel, t: Trade) returns (fill: Qty)
      modifies this
      ensures (Value(), fill) == model.OnTrade(old(Value()), t)
    {
      if !HitsSide(side, t) || qty <= 0 {
        return 0;
      }
      var px := TradePrice(side, t);
      if px > price {
        return 0;
      }
      if px < price {
        return qty;
      }
      if model.throughOnly {
        return 0;
      }
      traded := traded + t.count;
      var consumed := Min(ahead, t.count);
      ahead := ahead - consumed;
      return Min(qty, t.count - consumed);
    }

    method Book(model: QueueModel, book: Book) returns (fill: Qty)
      modifies this
      ensures (Value(), fill) == model.OnBook(old(Value()), book)
    {
      var ask := book.BestAsk(side);
      if ask.Some? && ask.value.price <= price {
        return qty;
      }
      var size := ScanLevelSize(Some(book), side, price);
      var expected := Max(0, lastLevel - traded);
      if size < expected {
        ahead := ahead - Share(model.cancelShare, expected - size);
      }
      ahead := Max(0, Min(ahead, size));
      lastLevel, traded := size, 0;
      return 0;
    }
  }
}

/** The ordering of the fill models, for one resting order under every sequence of market data. */
module FillDominance {
  import opened Units
  import opened OrderBooks
  import opened Fills

  datatype Observation = Print(trade: Trade) | Snap(book: Book) {
    predicate Valid() {
      (Print? ==> trade.count >= 0) && (Snap? ==> book.Valid())
    }
  }

  /** One observation reaching the order, with the engine's bookkeeping of the fill; a completely
      filled order has left the book. */
  function Observe(m: QueueModel, o: Resting, obs: Observation): Resting {
    if o.qty <= 0 then o
    else
      var (after, fill) := if obs.Print? then m.OnTrade(o, obs.trade) else m.OnBook(o, obs.book);
      var got := Max(0, Min(fill, o.qty));
      after.(qty := o.qty - got, filled := o.filled + got)
  }

  function After(m: QueueModel, o: Resting, book: Option<Book>, tape: seq<Observation>): Resting {
    if tape == [] then m.OnPlace(o, book)
    else Observe(m, After(m, o, book, tape[..|tape| - 1]), tape[|tape| - 1])
  }

  /** Cumulative fills of a newly placed order. */
  function Filled(m: QueueModel, o: Resting, book: Option<Book>, tape: seq<Observation>): Qty {
    After(m, o, book, tape).filled
  }

  ghost predicate Fresh(o: Resting, book: Option<Book>, tape: seq<Observation>) {
    && o.qty > 0 && o.filled == 0
    && (book.Some? ==> book.value.Valid())
    && forall i | 0 <= i < |tape| :: tape[i].Valid()
  }

  lemma ShareMonotone(a: real, b: real, q: Qty)
    requires a <= b && q >= 0
    ensures Share(a, q) <= Share(b, q)
  {
    assert a * q as real <= b * q as real;
  }

  lemma ShareBounds(a: real, q: Qty)
    requires a >= 0.0 && q >= 0
    ensures Share(a, q) >= 0
    ensures a == 0.0 ==> Share(a, q) == 0
  {
    assert a * q as real >= 0.0;
  }

  /** The part of the order the models never change, and the split of its quantity. */
  ghost predicate SameOrder(o: Resting, p: Resting, total: Qty) {
    && o.side == p.side && o.price == p.price
    && o.qty >= 0 && p.qty >= 0
    && o.qty + o.filled == total && p.qty + p.filled == total
  }

  /** Either the generous copy is done, or it is level with the strict one on what the market showed
      and not behind it in the queue. */
  ghost predicate Leads(strict: Resting, generous: Resting, total: Qty) {
    && SameOrder(strict, generous, total)
    && strict.filled <= generous.filled
    && strict.ahead >= 0 && generous.ahead >= 0
    && (generous.qty == 0
        || (strict.lastLevel == generous.lastLevel && strict.traded == generous.traded
            && generous.ahead <= strict.ahead))
  }

  /** `generous` is at least as generous as `strict`: it joins further forward, and either credits
      itself with more of the cancellations or has nobody ahead to begin with. */
  ghost predicate MoreGenerous(strict: QueueModel, generous: QueueModel) {
    && strict.Valid() && generous.Valid()
    && !strict.throughOnly && !generous.throughOnly
    && generous.alpha <= strict.alpha
    && (strict.cancelShare <= generous.cancelShare || generous.alpha == 0.0)
  }

  ghost predicate Front(m: QueueModel, o: Resting) {
    m.alpha == 0.0 ==> o.ahead == 0
  }

  lemma SizeNonNegative(book: Option<Book>, side: Side, price: Price)
    requires book.Some? ==> book.value.Valid()
    ensures LevelSize(book, side, price) >= 0
  {
  }

  lemma OnTradeLeads(ms: QueueModel, mg: QueueModel, s: Resting, g: Resting, obs: Observation, total: Qty)
    requires MoreGenerous(ms, mg) && obs.Valid() && obs.Print? && Leads(s, g, total) && Front(mg, g)
    ensures Leads(Observe(ms, s, obs), Observe(mg, g, obs), total) && Front(mg, Observe(mg, g, obs))
  {
  }

  lemma AheadAfterBook(cs: real, cg: real, s: Qty, g: Qty, missing: Qty, size: Qty)
    requires 0.0 <= cs <= 1.0 && 0.0 <= cg <= 1.0 && 0 <= g <= s && missing >= 0 && size >= 0
    requires cs <= cg || g == 0
    ensures Max(0, Min(g - Share(cg, missing), size)) <= Max(0, Min(s - Share(cs, missing), size))
    ensures g == 0 ==> Max(0, Min(g - Share(cg, missing), size)) == 0
  {
    ShareBounds(cg, missing);
    if cs <= cg {
      ShareMonotone(cs, cg, missing);
    }
  }

  lemma OnBookLeads(ms: QueueModel, mg: QueueModel, s: Resting, g: Resting, obs: Observation, total: Qty)
    requires MoreGenerous(ms, mg) && obs.Valid() && obs.Snap? && Leads(s, g, total) && Front(mg, g)
    ensures Leads(Observe(ms, s, obs), Observe(mg, g, obs), total) && Front(mg, Observe(mg, g, obs))
  {
    hide Share, Book.BestAsk;
    var size := LevelSize(Some(obs.book), g.side, g.price);
    SizeNonNegative(Some(obs.book), g.side, g.price);
    if g.qty > 0 {
      var missing := Max(0, Max(0, g.lastLevel - g.traded) - size);
      AheadAfterBook(ms.cancelShare, mg.cancelShare, s.ahead, g.ahead, missing, size);
    }
  }

  lemma {:induction false} StaysAhead(ms: QueueModel, mg: QueueModel, o: Resting, book: Option<Book>, tape: seq<Observation>)
    requires MoreGenerous(ms, mg) && Fresh(o, book, tape)
    ensures Leads(After(ms, o, book, tape), After(mg, o, book, tape), o.qty)
    ensures Front(mg, After(mg, o, book, tape))
  {
    if tape == [] {
      var size := LevelSize(book, o.side, o.price);
      SizeNonNegative(book, o.side, o.price);
      ShareMonotone(mg.alpha, ms.alpha, size);
      ShareBounds(mg.alpha, size);
      ShareBounds(ms.alpha, size);
    } else {
      var n := |tape| - 1;
      StaysAhead(ms, mg, o, book, tape[..n]);
      var s, g := After(ms, o, book, tape[..n]), After(mg, o, book, tape[..n]);
      if tape[n].Print? {
        OnTradeLeads(ms, mg, s, g, tape[n], o.qty);
      } else {
        OnBookLeads(ms, mg, s, g, tape[n], o.qty);
      }
    }
  }

  /** Cumulative fills are monotone: smaller `alpha` and larger `cancelShare` never fill less. */
  lemma FillsMonotone(ms: QueueModel, mg: QueueModel, o: Resting, book: Option<Book>, tape: seq<Observation>)
    requires ms.Valid() && mg.Valid() && !ms.throughOnly && !mg.throughOnly
    requires mg.alpha <= ms.alpha && ms.cancelShare <= mg.cancelShare
    requires Fresh(o, book, tape)
    ensures Filled(ms, o, book, tape) <= Filled(mg, o, book, tape)
  {
    StaysAhead(ms, mg, o, book, tape);
  }

  /** The pessimistic copy has filled all at once or not at all, and no more than the other. */
  ghost predicate Trails(p: Resting, q: Resting, total: Qty) {
    && SameOrder(p, q, total) && 0 <= p.filled <= q.filled
    && (p.filled == 0 || p.filled == total) && q.ahead >= 0
  }

  lemma OnTradeTrails(m: QueueModel, p: Resting, q: Resting, obs: Observation, total: Qty)
    requires m.Valid() && !m.throughOnly && obs.Valid() && obs.Print? && Trails(p, q, total)
    ensures Trails(Observe(PESSIMISTIC, p, obs), Observe(m, q, obs), total)
  {
  }

  lemma OnBookTrails(m: QueueModel, p: Resting, q: Resting, obs: Observation, total: Qty)
    requires m.Valid() && obs.Valid() && obs.Snap? && Trails(p, q, total)
    ensures Trails(Observe(PESSIMISTIC, p, obs), Observe(m, q, obs), total)
  {
    hide Share, Book.BestAsk, LevelSize;
  }

  lemma {:induction false} TrailsOn(m: QueueModel, o: Resting, book: Option<Book>, tape: seq<Observation>)
    requires m.Valid() && !m.throughOnly && Fresh(o, book, tape)
    ensures Trails(After(PESSIMISTIC, o, book, tape), After(m, o, book, tape), o.qty)
  {
    if tape == [] {
      SizeNonNegative(book, o.side, o.price);
      ShareBounds(m.alpha, LevelSize(book, o.side, o.price));
    } else {
      hide Trails, Observe;
      var n := |tape| - 1;
      TrailsOn(m, o, book, tape[..n]);
      var p, q := After(PESSIMISTIC, o, book, tape[..n]), After(m, o, book, tape[..n]);
      if tape[n].Print? {
        OnTradeTrails(m, p, q, tape[n], o.qty);
      } else {
        OnBookTrails(m, p, q, tape[n], o.qty);
      }
    }
  }

  /** The pessimistic order fills all at once or not at all, and never before a queue model's does. */
  lemma PessimisticTrails(m: QueueModel, o: Resting, book: Option<Book>, tape: seq<Observation>)
    requires m.Valid() && !m.throughOnly && Fresh(o, book, tape)
    ensures Filled(PESSIMISTIC, o, book, tape) <= Filled(m, o, book, tape) <= o.qty
    ensures Filled(PESSIMISTIC, o, book, tape) == 0 || Filled(PESSIMISTIC, o, book, tape) == o.qty
  {
    hide After;
    TrailsOn(m, o, book, tape);
  }

  /** pessimistic <= queue(1, 0) <= queue(a, c) <= optimistic, at every instant. */
  lemma ModelsOrdered(a: real, c: real, o: Resting, book: Option<Book>, tape: seq<Observation>, n: nat)
    requires 0.0 <= a <= 1.0 && 0.0 <= c <= 1.0 && Fresh(o, book, tape) && n <= |tape|
    ensures Filled(PESSIMISTIC, o, book, tape[..n]) <= Filled(Queue(1.0, 0.0), o, book, tape[..n])
    ensures Filled(Queue(1.0, 0.0), o, book, tape[..n]) <= Filled(Queue(a, c), o, book, tape[..n])
    ensures Filled(Queue(a, c), o, book, tape[..n]) <= Filled(OPTIMISTIC, o, book, tape[..n])
    ensures Filled(OPTIMISTIC, o, book, tape[..n]) <= o.qty
  {
    PessimisticTrails(Queue(1.0, 0.0), o, book, tape[..n]);
    StaysAhead(Queue(1.0, 0.0), Queue(a, c), o, book, tape[..n]);
    StaysAhead(Queue(a, c), OPTIMISTIC, o, book, tape[..n]);
  }
}
