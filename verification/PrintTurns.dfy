/** backtest/engine.py: what a print and a new book make of each of our orders resting in the market, in the
    order they stand. */
module PrintTurns {
  import opened Units
  import opened OrderBooks
  import opened Fills
  import opened Engine
  import opened EngineGrowth
  import opened EngineInvariant
  import opened EngineSafety
  import opened PrintBudget
  import opened QueueTape

  // ---------------------------------------------------------------- one hit

  /** After a fill of so much the order is o less that, gone if that is all, and its record has it. */
  ghost predicate Has<S>(a: Core<S>, b: Core<S>, id: nat, o: Resting, qty: Qty)
    requires id in a.records
  {
    && id in b.records && b.records[id].filled == a.records[id].filled + qty
    && (if qty == o.qty then id !in b.orders
        else id in b.orders && b.orders[id] == o.(qty := o.qty - qty, filled := o.filled + qty))
  }

  lemma HitGot<S>(cfg: Config, c: Core<S>, id: nat, o: Resting, fill: Qty)
    requires ValidConfig(cfg) && Inv(cfg, c) && c.error.None? && id in c.orders && id in c.records
    requires SameHolding(c.orders[id], o) && fill <= o.qty
    ensures Has(c, Hit(cfg, c, id, o, fill), id, o, Max(0, fill))
  {
    var moved := c.(orders := c.orders[id := o]);
    assert o.qty > 0;
    MoveKeeps(cfg, c, id, o);
    hide Inv, SameHolding, MakerFill, Hit, Has, Served;
    MakerEffect(cfg, moved, id, fill);
    HitIs(cfg, c, id, o, fill);
    if fill > 0 {
      ServedHas(c, moved, Hit(cfg, c, id, o, fill), id, o, fill);
    } else {
      MovedHas(c, id, o);
    }
  }

  lemma ServedHas<S>(c: Core<S>, moved: Core<S>, b: Core<S>, id: nat, o: Resting, qty: Qty)
    requires id in c.orders && id in c.records && moved == c.(orders := c.orders[id := o]) && Served(moved, b, id, qty)
    ensures Has(c, b, id, o, qty)
  {
  }

  lemma MovedHas<S>(c: Core<S>, id: nat, o: Resting)
    requires id in c.orders && id in c.records && o.qty > 0
    ensures Has(c, c.(orders := c.orders[id := o]), id, o, 0)
  {
  }

  // ---------------------------------------------------------------- a print

  /** What one print makes of an order, so much of it being left for its level: sold below its price it is
      filled whole; at its price it is served what is left beyond those ahead of it; otherwise it stays as
      it was. */
  ghost predicate PrintDoes<S>(throughOnly: bool, a: Core<S>, b: Core<S>, id: nat, t: Trade, left: Qty)
    requires id in a.orders && id in a.records
  {
    var o := a.orders[id];
    var sold := SoldAt(o.side, t);
    if sold.Some? && sold.value < o.price then Has(a, b, id, o, o.qty)
    else if sold == Some(o.price) && !throughOnly then
      Has(a, b, id, o.(ahead := Max(0, o.ahead - left), traded := o.traded + left), Min(o.qty, Max(0, left - o.ahead)))
    else Has(a, b, id, o, 0)
  }

  /** What an order at the print's price uses of what is left: the places it gains and the contracts it gets. */
  ghost function Used(throughOnly: bool, o: Resting, t: Trade, left: Qty): Qty {
    if SoldAt(o.side, t) == Some(o.price) && !throughOnly then
      Min(o.ahead, left) + Min(o.qty, Max(0, left - o.ahead))
    else 0
  }

  /** What the orders standing before leave of the print for this level. */
  ghost function LeftFor<S>(throughOnly: bool, a: Core<S>, ids: seq<nat>, t: Trade, side: Side, price: Price): Qty
    requires forall i | 0 <= i < |ids| :: ids[i] in a.orders
  {
    if ids == [] then t.count
    else
      var left, o := LeftFor(throughOnly, a, ids[..|ids| - 1], t, side, price), a.orders[ids[|ids| - 1]];
      if o.side == side && o.price == price then left - Used(throughOnly, o, t, left) else left
  }

  /** The budget holds exactly what is left for each level the print is at. */
  ghost predicate BudgetIs<S>(throughOnly: bool, a: Core<S>, ids: seq<nat>, t: Trade, budget: Budget)
    requires forall i | 0 <= i < |ids| :: ids[i] in a.orders
  {
    forall side: Side ::
      Left(budget, (side, TradePrice(side, t)), t.count) == LeftFor(throughOnly, a, ids, t, side, TradePrice(side, t)) >= 0
  }

  /** The order object after its turn, so much being left of the print, and what it is filled. */
  ghost predicate Turned(throughOnly: bool, o: Resting, t: Trade, left: Qty, after: Resting, fill: Qty) {
    var sold := SoldAt(o.side, t);
    if sold.Some? && sold.value < o.price then after == o && fill == o.qty
    else if sold == Some(o.price) && !throughOnly then
      after == o.(ahead := Max(0, o.ahead - left), traded := o.traded + left) && Max(0, fill) == Min(o.qty, Max(0, left - o.ahead))
    else after == o && fill == 0
  }

  lemma TurnMeans(cfg: Config, o: Resting, t: Trade, budget: Budget)
    requires o.qty > 0 && o.ahead >= 0
    requires TradePrice(o.side, t) == o.price ==> Left(budget, (o.side, o.price), t.count) >= 0
    ensures
      var (after, fill, next) := PrintOn(cfg, o, t, budget);
      fill <= o.qty && Turned(cfg.maker.throughOnly, o, t, Left(budget, (o.side, o.price), t.count), after, fill)
  {
  }

  lemma TurnUses(cfg: Config, o: Resting, t: Trade, budget: Budget, side: Side)
    requires o.qty > 0 && o.ahead >= 0
    requires TradePrice(o.side, t) == o.price ==> Left(budget, (o.side, o.price), t.count) >= 0
    ensures
      var left, price := Left(budget, (o.side, o.price), t.count), TradePrice(side, t);
      Left(PrintOn(cfg, o, t, budget).2, (side, price), t.count)
      == Left(budget, (side, price), t.count)
         - (if o.side == side && o.price == price then Used(cfg.maker.throughOnly, o, t, left) else 0)
  {
  }

  lemma {:induction false} SameLeft<S>(throughOnly: bool, a: Core<S>, ids: seq<nat>, id: nat, t: Trade, side: Side, price: Price)
    requires (forall i | 0 <= i < |ids| :: ids[i] in a.orders) && id in a.orders
    ensures
      var left, o := LeftFor(throughOnly, a, ids, t, side, price), a.orders[id];
      LeftFor(throughOnly, a, ids + [id], t, side, price)
      == if o.side == side && o.price == price then left - Used(throughOnly, o, t, left) else left
  {
    assert (ids + [id])[..|ids|] == ids;
    hide Used;
  }

  lemma UsedWithin(throughOnly: bool, o: Resting, t: Trade, left: Qty)
    requires o.qty > 0 && o.ahead >= 0 && left >= 0
    ensures 0 <= Used(throughOnly, o, t, left) <= left
  {
  }

  /** The budget after one order's turn. */
  lemma BudgetMore<S>(cfg: Config, a: Core<S>, done: seq<nat>, id: nat, t: Trade, budget: Budget)
    requires (forall i | 0 <= i < |done| :: done[i] in a.orders) && id in a.orders
    requires a.orders[id].qty > 0 && a.orders[id].ahead >= 0 && BudgetIs(cfg.maker.throughOnly, a, done, t, budget)
    ensures BudgetIs(cfg.maker.throughOnly, a, done + [id], t, PrintOn(cfg, a.orders[id], t, budget).2)
  {
    var o := a.orders[id];
    hide PrintOn, Left, LeftFor, Used;
    forall side: Side
      ensures Left(PrintOn(cfg, o, t, budget).2, (side, TradePrice(side, t)), t.count)
           == LeftFor(cfg.maker.throughOnly, a, done + [id], t, side, TradePrice(side, t)) >= 0
    {
      TurnUses(cfg, o, t, budget, side);
      SameLeft(cfg.maker.throughOnly, a, done, id, t, side, TradePrice(side, t));
      UsedWithin(cfg.maker.throughOnly, o, t, Left(budget, (side, TradePrice(side, t)), t.count));
    }
  }

  /** One order's turn does to it what the print does. */
  lemma OneTurnDoes<S>(cfg: Config, c: Core<S>, id: nat, t: Trade, budget: Budget, left: Qty)
    requires ValidConfig(cfg) && Inv(cfg, c) && c.error.None? && id in c.orders && id in c.records
    requires var o := c.orders[id]; TradePrice(o.side, t) == o.price ==> Left(budget, (o.side, o.price), t.count) == left >= 0
    ensures
      var (after, fill, next) := PrintOn(cfg, c.orders[id], t, budget);
      PrintDoes(cfg.maker.throughOnly, c, Hit(cfg, c, id, after, fill), id, t, left)
  {
    var o := c.orders[id];
    RestingSound(cfg, c, id);
    hide *;
    var (after, fill, next) := PrintOn(cfg, o, t, budget);
    HoldingPrintOn(cfg, o, t, budget);
    HoldingQty(o, after);
    TurnMeans(cfg, o, t, budget);
    HitGot(cfg, c, id, after, fill);
    TurnDoes(cfg.maker.throughOnly, c, Hit(cfg, c, id, after, fill), id, after, fill, t, left, Left(budget, (o.side, o.price), t.count));
  }

  lemma TurnDoes<S>(throughOnly: bool, c: Core<S>, b: Core<S>, id: nat, after: Resting, fill: Qty, t: Trade, left: Qty, had: Qty)
    requires id in c.orders && id in c.records && Has(c, b, id, after, Max(0, fill)) && c.orders[id].qty > 0
    requires var o := c.orders[id]; TradePrice(o.side, t) == o.price ==> had == left
    requires Turned(throughOnly, c.orders[id], t, had, after, fill)
    ensures PrintDoes(throughOnly, c, b, id, t, left)
  {
    SoldIsPrice(c.orders[id].side, t);
    hide Has, SoldAt;
  }

  lemma SoldIsPrice(side: Side, t: Trade)
    ensures SoldAt(side, t).Some? ==> SoldAt(side, t).value == TradePrice(side, t)
  {
  }

  lemma RestingSound<S>(cfg: Config, c: Core<S>, id: nat)
    requires Inv(cfg, c) && id in c.orders
    ensures c.orders[id].qty > 0 && c.orders[id].ahead >= 0
  {
    hide Numbered, HeapOk, PendingOk, QueuesOk, ReservedOk, LogOk, MoneyOk, BooksOk, SettledOk, OpenOk;
  }

  /** The order is as it was at the start, and as the print leaves it at the end. */
  lemma DoesSame<S>(throughOnly: bool, a: Core<S>, c: Core<S>, mid: Core<S>, b: Core<S>, id: nat, t: Trade, left: Qty)
    requires id in a.orders && id in a.records && id in c.orders && id in c.records
    requires c.orders[id] == a.orders[id] && c.records[id] == a.records[id] && PrintDoes(throughOnly, c, mid, id, t, left)
    requires id in mid.records && id in b.records && b.records[id] == mid.records[id]
    requires (id in b.orders <==> id in mid.orders) && (id in mid.orders ==> b.orders[id] == mid.orders[id])
    ensures PrintDoes(throughOnly, a, b, id, t, left)
  {
  }

  ghost predicate Untouched<S>(a: Core<S>, c: Core<S>, ids: seq<nat>) {
    forall i | 0 <= i < |ids| ::
      && ids[i] in a.orders && ids[i] in a.records && ids[i] in c.orders && ids[i] in c.records
      && c.orders[ids[i]] == a.orders[ids[i]] && c.records[ids[i]] == a.records[ids[i]]
  }

  lemma FirstUntouched<S>(a: Core<S>, c: Core<S>, ids: seq<nat>)
    requires Untouched(a, c, ids) && ids != []
    ensures ids[0] in a.orders && ids[0] in a.records && ids[0] in c.orders && ids[0] in c.records
    ensures c.orders[ids[0]] == a.orders[ids[0]] && c.records[ids[0]] == a.records[ids[0]]
  {
  }

  /** A hit on the first order leaves the others as they were. */
  lemma FirstHit<S>(cfg: Config, a: Core<S>, c: Core<S>, ids: seq<nat>, o: Resting, fill: Qty)
    requires ValidConfig(cfg) && Inv(cfg, c) && c.error.None? && NoRepeats(ids) && Untouched(a, c, ids) && ids != []
    requires ids[0] in c.orders && ids[0] in c.records && SameHolding(c.orders[ids[0]], o)
    ensures
      var mid := Hit(cfg, c, ids[0], o, fill);
      && Inv(cfg, mid) && mid.error.None? && Untouched(a, mid, ids[1..]) && NoRepeats(ids[1..])
      && ids[0] !in ids[1..] && ids[0] in mid.records
  {
    RestingSound(cfg, c, ids[0]);
    hide *;
    HitKeeps(cfg, c, ids[0], o, fill);
    HoldingQty(c.orders[ids[0]], o);
    HitEffect(cfg, c, ids[0], o, fill);
    UntouchedRest(a, c, Hit(cfg, c, ids[0], o, fill), ids);
  }

  lemma UntouchedRest<S>(a: Core<S>, c: Core<S>, mid: Core<S>, ids: seq<nat>)
    requires ids != [] && NoRepeats(ids) && Elsewhere(c.orders, mid.orders, ids[0]) && RecordsElsewhere(c.records, mid.records, ids[0])
    requires Untouched(a, c, ids)
    ensures Untouched(a, mid, ids[1..]) && NoRepeats(ids[1..]) && ids[0] !in ids[1..]
  {
    RestElsewhere(c, mid, ids);
    ElsewhereIn(c, mid, ids);
    var rest := ids[1..];
    hide Elsewhere, RecordsElsewhere;
    forall i | 0 <= i < |rest|
      ensures rest[i] == ids[i + 1] && mid.orders[rest[i]] == a.orders[rest[i]] && mid.records[rest[i]] == a.records[rest[i]]
    {
    }
  }

  lemma ElsewhereIn<S>(c: Core<S>, mid: Core<S>, ids: seq<nat>)
    requires ids != [] && NoRepeats(ids) && Elsewhere(c.orders, mid.orders, ids[0]) && RecordsElsewhere(c.records, mid.records, ids[0])
    requires forall i | 0 <= i < |ids| :: ids[i] in c.orders && ids[i] in c.records
    ensures forall i | 0 <= i < |ids[1..]| :: ids[1..][i] in mid.orders && ids[1..][i] in mid.records
  {
    forall i | 0 <= i < |ids[1..]|
      ensures ids[1..][i] in mid.orders && ids[1..][i] in mid.records
    {
      assert ids[1..][i] == ids[i + 1] != ids[0];
    }
  }

  ghost predicate EachDone<S>(throughOnly: bool, a: Core<S>, b: Core<S>, done: seq<nat>, ids: seq<nat>, t: Trade)
    requires (forall i | 0 <= i < |done| :: done[i] in a.orders) && forall i | 0 <= i < |ids| :: ids[i] in a.orders && ids[i] in a.records
  {
    forall k | 0 <= k < |ids| ::
      PrintDoes(throughOnly, a, b, ids[k], t,
                LeftFor(throughOnly, a, done + ids[..k], t, a.orders[ids[k]].side, a.orders[ids[k]].price))
  }

  lemma {:induction false} MatchEach<S>(
    cfg: Config, a: Core<S>, c: Core<S>, done: seq<nat>, ids: seq<nat>, t: Trade, budget: Budget)
    requires ValidConfig(cfg) && Inv(cfg, c) && c.error.None? && NoRepeats(ids)
    requires (forall i | 0 <= i < |done| :: done[i] in a.orders) && Untouched(a, c, ids)
    requires BudgetIs(cfg.maker.throughOnly, a, done, t, budget) && forall i | 0 <= i < |ids| :: ids[i] in a.orders && ids[i] in a.records
    ensures EachDone(cfg.maker.throughOnly, a, MatchResting(cfg, c, ids, t, budget), done, ids, t)
    decreases |ids|
  {
    if ids != [] {
      var id, rest := ids[0], ids[1..];
      var (after, fill, next) := PrintOn(cfg, c.orders[id], t, budget);
      var mid := Hit(cfg, c, id, after, fill);
      var b := MatchResting(cfg, mid, rest, t, next);
      RestingSound(cfg, c, id);
      FirstUntouched(a, c, ids);
      MatchFirst(cfg, c, ids, t, budget);
      hide *;
      HoldingPrintOn(cfg, c.orders[id], t, budget);
      FirstHit(cfg, a, c, ids, after, fill);
      BudgetMore(cfg, a, done, id, t, budget);
      DoneMore(a, done, id);
      MatchEach(cfg, a, mid, done + [id], rest, t, next);
      MatchElsewhere(cfg, mid, rest, t, next, id);
      var left := LeftFor(cfg.maker.throughOnly, a, done, t, a.orders[id].side, a.orders[id].price);
      BudgetAt(cfg.maker.throughOnly, a, done, t, budget, a.orders[id]);
      OneTurnDoes(cfg, c, id, t, budget, left);
      DoesSame(cfg.maker.throughOnly, a, c, mid, b, id, t, left);
      EachMore(cfg.maker.throughOnly, a, b, done, ids, t);
    }
  }

  lemma MatchFirst<S>(cfg: Config, c: Core<S>, ids: seq<nat>, t: Trade, budget: Budget)
    requires ids != [] && c.error.None? && ids[0] in c.orders && ids[0] in c.records
    ensures
      var (after, fill, next) := PrintOn(cfg, c.orders[ids[0]], t, budget);
      MatchResting(cfg, c, ids, t, budget) == MatchResting(cfg, Hit(cfg, c, ids[0], after, fill), ids[1..], t, next)
  {
    hide Hit, PrintOn;
  }

  lemma DoneMore<S>(a: Core<S>, done: seq<nat>, id: nat)
    requires (forall i | 0 <= i < |done| :: done[i] in a.orders) && id in a.orders
    ensures forall i | 0 <= i < |done + [id]| :: (done + [id])[i] in a.orders
  {
  }

  lemma BudgetAt<S>(throughOnly: bool, a: Core<S>, done: seq<nat>, t: Trade, budget: Budget, o: Resting)
    requires (forall i | 0 <= i < |done| :: done[i] in a.orders) && BudgetIs(throughOnly, a, done, t, budget)
    ensures TradePrice(o.side, t) == o.price ==>
              Left(budget, (o.side, o.price), t.count) == LeftFor(throughOnly, a, done, t, o.side, o.price) >= 0
  {
    hide Left, LeftFor;
  }

  lemma EachMore<S>(throughOnly: bool, a: Core<S>, b: Core<S>, done: seq<nat>, ids: seq<nat>, t: Trade)
    requires (forall i | 0 <= i < |done| :: done[i] in a.orders) && forall i | 0 <= i < |ids| :: ids[i] in a.orders && ids[i] in a.records
    requires ids != [] && EachDone(throughOnly, a, b, done + [ids[0]], ids[1..], t)
    requires PrintDoes(throughOnly, a, b, ids[0], t, LeftFor(throughOnly, a, done, t, a.orders[ids[0]].side, a.orders[ids[0]].price))
    ensures EachDone(throughOnly, a, b, done, ids, t)
  {
    hide PrintDoes, LeftFor;
    forall k | 0 <= k < |ids|
      ensures PrintDoes(throughOnly, a, b, ids[k], t,
                        LeftFor(throughOnly, a, done + ids[..k], t, a.orders[ids[k]].side, a.orders[ids[k]].price))
    {
      if k == 0 {
        assert done + ids[..0] == done;
      } else {
        assert ids[1..][k - 1] == ids[k];
        assert done + ids[..k] == done + [ids[0]] + ids[1..][..k - 1];
      }
    }
  }

  /** Every order resting in the market has its turn with a print, in the order they stand: sold below its
      price it is filled whole, at its price it is served what those before it have left of the print's
      count, and otherwise it stays as it was. */
  lemma PrintReachesEach<S>(cfg: Config, c: Core<S>, ticker: Ticker, t: Trade, k: nat)
    requires ValidConfig(cfg) && Inv(cfg, c) && c.error.None? && t.count >= 0 && k < |c.Queue(ticker)|
    ensures forall i | 0 <= i < |c.Queue(ticker)| :: c.Queue(ticker)[i] in c.orders && c.Queue(ticker)[i] in c.records
    ensures
      var ids, id := c.Queue(ticker), c.Queue(ticker)[k];
      PrintDoes(cfg.maker.throughOnly, c, MatchResting(cfg, c, ids, t, map[]), id, t,
                LeftFor(cfg.maker.throughOnly, c, ids[..k], t, c.orders[id].side, c.orders[id].price))
  {
    QueueSound(cfg, c, ticker);
    hide *;
    var ids := c.Queue(ticker);
    FullBudget(cfg.maker.throughOnly, c, t);
    AllUntouched(c, ids);
    MatchEach(cfg, c, c, [], ids, t, map[]);
    EachDoneAt(cfg.maker.throughOnly, c, MatchResting(cfg, c, ids, t, map[]), ids, t, k);
  }

  lemma FullBudget<S>(throughOnly: bool, c: Core<S>, t: Trade)
    requires t.count >= 0
    ensures BudgetIs(throughOnly, c, [], t, map[])
  {
  }

  lemma AllUntouched<S>(c: Core<S>, ids: seq<nat>)
    requires forall i | 0 <= i < |ids| :: ids[i] in c.orders && ids[i] in c.records
    ensures Untouched(c, c, ids)
  {
  }

  lemma EachDoneAt<S>(throughOnly: bool, a: Core<S>, b: Core<S>, ids: seq<nat>, t: Trade, k: nat)
    requires forall i | 0 <= i < |ids| :: ids[i] in a.orders && ids[i] in a.records
    requires EachDone(throughOnly, a, b, [], ids, t) && k < |ids|
    ensures PrintDoes(throughOnly, a, b, ids[k], t, LeftFor(throughOnly, a, ids[..k], t, a.orders[ids[k]].side, a.orders[ids[k]].price))
  {
    hide PrintDoes, LeftFor;
    assert [] + ids[..k] == ids[..k];
  }

  lemma QueueSound<S>(cfg: Config, c: Core<S>, t: Ticker)
    requires Inv(cfg, c)
    ensures NoRepeats(c.Queue(t))
    ensures forall i | 0 <= i < |c.Queue(t)| :: c.Queue(t)[i] in c.orders && c.Queue(t)[i] in c.records
  {
    hide Numbered, HeapOk, PendingOk, ReservedOk, LogOk, MoneyOk, OpenOk, LiveOk, RestsAs, BooksOk, SettledOk;
  }

  // ---------------------------------------------------------------- a new book

  /** What a new book makes of an order: one that crosses it fills it whole; any other fills nothing and
      only moves it up. */
  ghost predicate BookDoes<S>(m: QueueModel, a: Core<S>, b: Core<S>, id: nat, shown: Book)
    requires id in a.orders && id in a.records
  {
    var o := a.orders[id];
    if Crosses(o.side, o.price, shown) then Has(a, b, id, o, o.qty)
    else
      && id in b.orders && Snapped(m.cancelShare, o, o.lastLevel, o.traded, shown, b.orders[id])
      && id in b.records && b.records[id].filled == a.records[id].filled
  }

  lemma OneBookDoes<S>(cfg: Config, c: Core<S>, id: nat, shown: Book)
    requires ValidConfig(cfg) && Inv(cfg, c) && c.error.None? && id in c.orders && id in c.records && shown.Valid()
    ensures
      var (after, fill) := cfg.maker.OnBook(c.orders[id], shown);
      BookDoes(cfg.maker, c, Hit(cfg, c, id, after, fill), id, shown)
  {
    var o := c.orders[id];
    RestingSound(cfg, c, id);
    CrossesIsBestAsk(o.side, o.price, shown);
    BookOnOrder(cfg.maker, o, shown);
    hide Inv, Hit, QueueModel.OnBook, SameHolding, Crosses, Book.BestAsk, Snapped, Book.Valid;
    var (after, fill) := cfg.maker.OnBook(o, shown);
    HoldingOnBook(cfg.maker, o, shown);
    HoldingQty(o, after);
    HitGot(cfg, c, id, after, fill);
  }

  lemma BookOnOrder(m: QueueModel, o: Resting, shown: Book)
    requires o.qty > 0 && shown.Valid()
    ensures var (after, fill) := m.OnBook(o, shown);
            if Crosses(o.side, o.price, shown) then after == o && fill == o.qty
            else fill == 0 && Snapped(m.cancelShare, o, o.lastLevel, o.traded, shown, after)
  {
    ObserveSnap(m, o, shown);
    CrossesIsBestAsk(o.side, o.price, shown);
    hide Book.BestAsk, Crosses, Snapped;
    assert m.OnBook(o, shown).0.(qty := o.qty, filled := o.filled) == m.OnBook(o, shown).0;
  }

  lemma {:induction false} ShowEach<S>(cfg: Config, a: Core<S>, c: Core<S>, ids: seq<nat>, shown: Book)
    requires ValidConfig(cfg) && Inv(cfg, c) && c.error.None? && NoRepeats(ids) && Untouched(a, c, ids) && shown.Valid()
    requires forall i | 0 <= i < |ids| :: ids[i] in a.orders && ids[i] in a.records
    ensures var b := ShowBook(cfg, c, ids, shown);
            forall k | 0 <= k < |ids| :: BookDoes(cfg.maker, a, b, ids[k], shown)
    decreases |ids|
  {
    if ids != [] {
      var id, rest := ids[0], ids[1..];
      var (after, fill) := cfg.maker.OnBook(c.orders[id], shown);
      var mid := Hit(cfg, c, id, after, fill);
      var b := ShowBook(cfg, mid, rest, shown);
      RestingSound(cfg, c, id);
      hide Inv, Hit, QueueModel.OnBook, SameHolding, BookDoes, Book.Valid, NoRepeats, Untouched;
      FirstUntouched(a, c, ids);
      HoldingOnBook(cfg.maker, c.orders[id], shown);
      FirstHit(cfg, a, c, ids, after, fill);
      ShowEach(cfg, a, mid, rest, shown);
      ShowElsewhere(cfg, mid, rest, shown, id);
      OneBookDoes(cfg, c, id, shown);
      BookDoesSame(cfg.maker, a, c, mid, b, id, shown);
      forall k | 0 <= k < |ids|
        ensures BookDoes(cfg.maker, a, b, ids[k], shown)
      {
        assert k > 0 ==> ids[k] == rest[k - 1];
      }
    }
  }

  lemma BookDoesSame<S>(m: QueueModel, a: Core<S>, c: Core<S>, mid: Core<S>, b: Core<S>, id: nat, shown: Book)
    requires id in a.orders && id in a.records && id in c.orders && id in c.records
    requires c.orders[id] == a.orders[id] && c.records[id] == a.records[id] && BookDoes(m, c, mid, id, shown)
    requires id in mid.records && id in b.records && b.records[id] == mid.records[id]
    requires (id in b.orders <==> id in mid.orders) && (id in mid.orders ==> b.orders[id] == mid.orders[id])
    ensures BookDoes(m, a, b, id, shown)
  {
    hide Crosses, Snapped;
  }

  lemma {:induction false} ShowElsewhere<S>(cfg: Config, c: Core<S>, ids: seq<nat>, shown: Book, id: nat)
    requires ValidConfig(cfg) && Inv(cfg, c) && c.error.None? && id !in ids && id in c.records
    ensures
      var b := ShowBook(cfg, c, ids, shown);
      && id in b.records && b.records[id] == c.records[id]
      && (id in b.orders <==> id in c.orders) && (id in c.orders ==> b.orders[id] == c.orders[id])
    decreases |ids|
  {
    hide Inv, Hit, QueueModel.OnBook, SameHolding;
    if ids == [] {
    } else if ids[0] in c.orders && ids[0] in c.records {
      var (after, fill) := cfg.maker.OnBook(c.orders[ids[0]], shown);
      HoldingOnBook(cfg.maker, c.orders[ids[0]], shown);
      HitKeeps(cfg, c, ids[0], after, fill);
      HitElsewhere(cfg, c, ids[0], after, fill, id);
      ShowElsewhere(cfg, Hit(cfg, c, ids[0], after, fill), ids[1..], shown, id);
    } else {
      ShowElsewhere(cfg, c, ids[1..], shown, id);
    }
  }

  /** Every order resting in the market is shown a new book: filled whole if it crosses the order, and
      otherwise left with what it had, moved up as its queue allows. */
  lemma BookReachesEach<S>(cfg: Config, c: Core<S>, ticker: Ticker, shown: Book, k: nat)
    requires ValidConfig(cfg) && Inv(cfg, c) && c.error.None? && shown.Valid() && k < |c.Queue(ticker)|
    ensures c.Queue(ticker)[k] in c.orders && c.Queue(ticker)[k] in c.records
    ensures BookDoes(cfg.maker, c, ShowBook(cfg, c, c.Queue(ticker), shown), c.Queue(ticker)[k], shown)
  {
    QueueSound(cfg, c, ticker);
    hide Inv, BookDoes, Book.Valid;
    ShowEach(cfg, c, c, c.Queue(ticker), shown);
  }
}
