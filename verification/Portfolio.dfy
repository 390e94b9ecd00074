/** backtest/portfolio.py: buy-only accounting in exact micro-dollars, with YES/NO pairs netted
    eagerly into $1 of cash. */
module Ledger {
  import opened Units
  import opened MapSums

  datatype Position = Position(yes: Qty, yesCost: int, no: Qty, noCost: int) {
    predicate Flat() {
      yes == 0 && no == 0
    }

    function Cost(): int {
      yesCost + noCost
    }

    /** At most one side is held, and each side's cost lies between nothing and $1 a contract. */
    ghost predicate Valid() {
      && yes >= 0 && no >= 0 && (yes == 0 || no == 0)
      && 0 <= yesCost <= Notional(PRICE_SCALE, yes)
      && 0 <= noCost <= Notional(PRICE_SCALE, no)
    }

    /** What the position pays if YES settles at v. */
    function Worth(v: Price): int {
      Notional(v, yes) + Notional(PRICE_SCALE - v, no)
    }
  }

  const EMPTY: Position := Position(0, 0, 0, 0)

  datatype Account = Account(
    cash: int,
    positions: map<Ticker, Position>,
    realised: int,
    fees: int,
    settled: map<Ticker, Price>)
  {
    function At(t: Ticker): Position {
      if t in positions then positions[t] else EMPTY
    }
  }

  function Opening(cash: int): Account {
    Account(cash, map[], 0, 0, map[])
  }

  /** Ticks times centi-contracts are micro-dollars. */
  function Notional(price: Price, qty: Qty): int {
    price * qty
  }

  /** Python's floor division, for a positive divisor. */
  function FloorDiv(a: int, b: int): int
    requires b > 0
  {
    a / b
  }

  function ShareOfCost(cost: int, pairs: Qty, held: Qty): int
    requires 0 < pairs <= held
  {
    if pairs < held then FloorDiv(cost * pairs, held) else cost
  }

  function Add(pos: Position, side: Side, qty: Qty, cost: int): Position {
    if side.YES? then pos.(yes := pos.yes + qty, yesCost := pos.yesCost + cost)
    else pos.(no := pos.no + qty, noCost := pos.noCost + cost)
  }

  /** The account after `_net` works on position t; quantities are never negative there. */
  function NetAt(a: Account, t: Ticker): Account {
    var pos := a.At(t);
    var pairs := Min(pos.yes, pos.no);
    if pairs <= 0 then a
    else
      var costYes := ShareOfCost(pos.yesCost, pairs, pos.yes);
      var costNo := ShareOfCost(pos.noCost, pairs, pos.no);
      a.(cash := a.cash + Notional(PRICE_SCALE, pairs),
         realised := a.realised + Notional(PRICE_SCALE, pairs) - costYes - costNo,
         positions := a.positions[t := Position(pos.yes - pairs, pos.yesCost - costYes,
                                                pos.no - pairs, pos.noCost - costNo)])
  }

  ghost predicate Sound(a: Account) {
    forall t | t in a.positions :: a.positions[t].Valid()
  }

  /** `buy` once the settled guard has passed. */
  function Bought(a: Account, t: Ticker, side: Side, price: Price, qty: Qty, fee: int): Account {
    NetAt(Booked(a, t, side, price, qty, fee), t)
  }

  /** `buy` up to the call of `_net`. */
  function Booked(a: Account, t: Ticker, side: Side, price: Price, qty: Qty, fee: int): Account {
    a.(cash := a.cash - (Notional(price, qty) + fee),
       fees := a.fees + fee,
       positions := a.positions[t := Add(a.At(t), side, qty, Notional(price, qty))])
  }

  function Settled(a: Account, t: Ticker, v: Price): Account {
    var pos := a.At(t);
    if pos.Flat() then a.(settled := a.settled[t := v])
    else
      a.(settled := a.settled[t := v],
         cash := a.cash + pos.Worth(v),
         realised := a.realised + pos.Worth(v) - pos.Cost(),
         positions := a.positions[t := EMPTY])
  }

  // ---------------------------------------------------------------- netting

  lemma FloorDivRange(n: int, h: int)
    requires h > 0
    ensures Mul(h, FloorDiv(n, h)) <= n < Mul(h, FloorDiv(n, h) + 1)
  {
  }

  lemma MulFacts(c: int, p: int, h: int)
    requires 0 <= p <= h && 0 <= c <= Notional(PRICE_SCALE, h)
    ensures 0 <= c * p <= Mul(h, c)
    ensures c * p <= Mul(h, Notional(PRICE_SCALE, p))
    ensures Mul(h, c) - c * p <= Mul(h, Notional(PRICE_SCALE, h - p))
  {
    assert c * p <= c * h;
    assert c * p <= PRICE_SCALE * h * p;
    assert c * (h - p) <= PRICE_SCALE * h * (h - p);
    assert c * h - c * p == c * (h - p);
  }

  lemma MulSplit(h: int, a: int, b: int)
    ensures Mul(h, a - b) == Mul(h, a) - Mul(h, b)
    ensures Mul(h, a + 1) == Mul(h, a) + h
  {
  }

  lemma FloorShare(cost: int, pairs: int, held: int)
    requires 0 < pairs < held && 0 <= cost <= Notional(PRICE_SCALE, held)
    ensures 0 <= FloorDiv(cost * pairs, held) <= Notional(PRICE_SCALE, pairs)
    ensures 0 <= cost - FloorDiv(cost * pairs, held) <= Notional(PRICE_SCALE, held - pairs)
  {
    hide Mul, FloorDiv, Notional;
    var share := FloorDiv(cost * pairs, held);
    MulFacts(cost, pairs, held);
    FloorDivRange(cost * pairs, held);
    MulSplit(held, share, 0);
    MulSplit(held, cost, share);
    MulSplit(held, Notional(PRICE_SCALE, held - pairs), 0);
    MulSplit(held, 0, 0);
    CancelStrict(held, 0, share + 1);
    Cancel(held, share, Notional(PRICE_SCALE, pairs));
    Cancel(held, share, cost);
    CancelStrict(held, cost - share, Notional(PRICE_SCALE, held - pairs) + 1);
  }

  function Mul(a: int, b: int): int {
    a * b
  }

  lemma Cancel(h: int, a: int, b: int)
    requires h > 0 && Mul(h, a) <= Mul(h, b)
    ensures a <= b
  {
  }

  lemma CancelStrict(h: int, a: int, b: int)
    requires h > 0 && Mul(h, a) < Mul(h, b)
    ensures a < b
  {
  }

  lemma ShareBounds(cost: int, pairs: int, held: int)
    requires 0 < pairs <= held && 0 <= cost <= Notional(PRICE_SCALE, held)
    ensures 0 <= cost - ShareOfCost(cost, pairs, held) <= Notional(PRICE_SCALE, held - pairs)
    ensures 0 <= ShareOfCost(cost, pairs, held)
  {
    if pairs < held {
      FloorShare(cost, pairs, held);
    }
  }

  // ---------------------------------------------------------------- the accounting identity

  ghost function Costs(positions: map<Ticker, Position>): map<Ticker, int> {
    map t | t in positions :: positions[t].Cost()
  }

  /** Cost of everything still held. */
  ghost function OpenCost(positions: map<Ticker, Position>): int {
    MapSum(Costs(positions))
  }

  ghost predicate Balanced(a: Account, initial: int) {
    a.cash + OpenCost(a.positions) == initial + a.realised - a.fees
  }

  lemma CostsPut(a: Account, b: Account, t: Ticker, pos: Position)
    requires b.positions == a.positions[t := pos]
    ensures OpenCost(b.positions) == OpenCost(a.positions) - a.At(t).Cost() + pos.Cost()
  {
    assert Costs(b.positions) == Costs(a.positions)[t := pos.Cost()];
    Put(Costs(a.positions), t, pos.Cost());
  }

  /** Netting conserves cash + open cost - realised, at whatever cost share the floor division
      picks, and leaves at most one side. */
  lemma NetKeeps(a: Account, t: Ticker, initial: int)
    requires a.At(t).yes >= 0 && a.At(t).no >= 0 && Balanced(a, initial)
    requires 0 <= a.At(t).yesCost <= Notional(PRICE_SCALE, a.At(t).yes)
    requires 0 <= a.At(t).noCost <= Notional(PRICE_SCALE, a.At(t).no)
    requires forall s | s in a.positions && s != t :: a.positions[s].Valid()
    ensures Sound(NetAt(a, t)) && Balanced(NetAt(a, t), initial)
    ensures NetAt(a, t).cash >= a.cash && NetAt(a, t).fees == a.fees
    ensures NetAt(a, t).settled == a.settled
  {
    var pos := a.At(t);
    var pairs := Min(pos.yes, pos.no);
    if pairs > 0 {
      ShareBounds(pos.yesCost, pairs, pos.yes);
      ShareBounds(pos.noCost, pairs, pos.no);
      var b := NetAt(a, t);
      CostsPut(a, b, t, b.positions[t]);
    }
  }

  /** Netting turns exactly the YES/NO pairs into dollars, and takes each side's cost out in proportion,
      the fraction of a micro-dollar staying with what is left. */
  lemma NetTakesPairs(a: Account, t: Ticker)
    requires a.At(t).yes >= 0 && a.At(t).no >= 0 && a.At(t).yesCost >= 0 && a.At(t).noCost >= 0
    ensures
      var had, has, pairs := a.At(t), NetAt(a, t).At(t), Min(a.At(t).yes, a.At(t).no);
      && has.yes == had.yes - pairs && has.no == had.no - pairs
      && (pairs > 0 ==>
            && 0 <= had.yesCost * pairs - (had.yesCost - has.yesCost) * had.yes < had.yes
            && 0 <= had.noCost * pairs - (had.noCost - has.noCost) * had.no < had.no)
      && NetAt(a, t).cash == a.cash + PRICE_SCALE * pairs && NetAt(a, t).fees == a.fees
      && forall u | u != t :: NetAt(a, t).At(u) == a.At(u)
  {
    var had, pairs := a.At(t), Min(a.At(t).yes, a.At(t).no);
    if pairs > 0 {
      ShareRemainder(had.yesCost, pairs, had.yes);
      ShareRemainder(had.noCost, pairs, had.no);
    }
  }

  lemma ShareRemainder(cost: int, pairs: Qty, held: Qty)
    requires 0 < pairs <= held
    ensures 0 <= cost * pairs - ShareOfCost(cost, pairs, held) * held < held
  {
    if pairs < held {
      var n := cost * pairs;
      assert n == (n / held) * held + n % held;
    }
  }

  lemma CostInRange(price: Price, qty: Qty)
    requires 0 <= price <= PRICE_SCALE && qty >= 0
    ensures 0 <= Notional(price, qty) <= Notional(PRICE_SCALE, qty)
  {
  }

  lemma AddBounds(pos: Position, side: Side, price: Price, qty: Qty)
    requires pos.Valid() || pos == EMPTY
    requires 0 <= price <= PRICE_SCALE && qty >= 0
    ensures var p := Add(pos, side, qty, Notional(price, qty));
            && p.yes >= 0 && p.no >= 0 && p.Cost() == pos.Cost() + Notional(price, qty)
            && 0 <= p.yesCost <= Notional(PRICE_SCALE, p.yes)
            && 0 <= p.noCost <= Notional(PRICE_SCALE, p.no)
  {
    hide Notional;
    CostInRange(price, qty);
    AddedWorth(PRICE_SCALE, pos.yes, qty);
    AddedWorth(PRICE_SCALE, pos.no, qty);
  }

  lemma BookKeeps(a: Account, t: Ticker, side: Side, price: Price, qty: Qty, fee: int, initial: int)
    requires Sound(a) && Balanced(a, initial)
    requires 0 <= price <= PRICE_SCALE && qty >= 0
    ensures var b := Booked(a, t, side, price, qty, fee);
            && Balanced(b, initial)
            && b.At(t).yes >= 0 && b.At(t).no >= 0
            && 0 <= b.At(t).yesCost <= Notional(PRICE_SCALE, b.At(t).yes)
            && 0 <= b.At(t).noCost <= Notional(PRICE_SCALE, b.At(t).no)
            && (forall s | s in b.positions && s != t :: b.positions[s].Valid())
            && b.cash + b.fees == a.cash + a.fees - Notional(price, qty)
            && b.fees == a.fees + fee && b.settled == a.settled
  {
    hide Notional, OpenCost, Add;
    AddBounds(a.At(t), side, price, qty);
    CostsPut(a, Booked(a, t, side, price, qty, fee), t, Add(a.At(t), side, qty, Notional(price, qty)));
  }

  /** Every purchase keeps the identity and the one-sided, cost-bounded inventory. */
  lemma BuyKeeps(a: Account, t: Ticker, side: Side, price: Price, qty: Qty, fee: int, initial: int)
    requires Sound(a) && Balanced(a, initial)
    requires 0 <= price <= PRICE_SCALE && qty >= 0
    ensures var b := Bought(a, t, side, price, qty, fee);
            && Sound(b) && Balanced(b, initial)
            && b.cash + b.fees >= a.cash + a.fees - Notional(price, qty)
            && b.fees == a.fees + fee && b.settled == a.settled
  {
    hide NetAt, Booked, Notional, Balanced;
    BookKeeps(a, t, side, price, qty, fee, initial);
    NetKeeps(Booked(a, t, side, price, qty, fee), t, initial);
  }

  lemma SettleKeeps(a: Account, t: Ticker, v: Price, initial: int)
    requires Sound(a) && Balanced(a, initial)
    ensures var b := Settled(a, t, v);
            && Sound(b) && Balanced(b, initial) && b.fees == a.fees
            && (0 <= v <= PRICE_SCALE ==> b.cash >= a.cash)
            && b.settled == a.settled[t := v] && b.At(t).Flat()
  {
    hide Notional, OpenCost;
    var pos := a.At(t);
    if !pos.Flat() {
      CostsPut(a, Settled(a, t, v), t, EMPTY);
      if 0 <= v <= PRICE_SCALE {
        CostInRange(v, pos.yes);
        CostInRange(PRICE_SCALE - v, pos.no);
      }
    }
  }

  // ---------------------------------------------------------------- refinement of the un-netted log

  /** What the inventory would pay under settlement values v. */
  ghost function Worths(a: Account, v: Ticker -> Price): map<Ticker, int> {
    map t | t in a.positions :: a.positions[t].Worth(v(t))
  }

  /** Cash plus inventory at those values: what the account comes to once everything settles. */
  ghost function Equity(a: Account, v: Ticker -> Price): int {
    a.cash + MapSum(Worths(a, v))
  }

  lemma WorthsPut(a: Account, b: Account, v: Ticker -> Price, t: Ticker, pos: Position)
    requires b.positions == a.positions[t := pos]
    ensures MapSum(Worths(b, v)) == MapSum(Worths(a, v)) - a.At(t).Worth(v(t)) + pos.Worth(v(t))
  {
    assert Worths(b, v) == Worths(a, v)[t := pos.Worth(v(t))];
    Put(Worths(a, v), t, pos.Worth(v(t)));
  }

  lemma PairPaysADollar(v: Price, yes: Qty, no: Qty, pairs: Qty)
    ensures Notional(v, yes - pairs) + Notional(PRICE_SCALE - v, no - pairs)
         == Notional(v, yes) + Notional(PRICE_SCALE - v, no) - Notional(PRICE_SCALE, pairs)
  {
  }

  lemma AddedWorth(v: Price, a: Qty, b: Qty)
    ensures Notional(v, a + b) == Notional(v, a) + Notional(v, b)
    ensures Notional(v, 0) == 0
  {
  }

  /** Netting is invisible to settlement: a YES and a NO pay $1 either way. */
  lemma NetPreservesEquity(a: Account, t: Ticker, v: Ticker -> Price)
    requires a.At(t).yes >= 0 && a.At(t).no >= 0
    ensures Equity(NetAt(a, t), v) == Equity(a, v)
  {
    hide Notional, ShareOfCost;
    var pos := a.At(t);
    var pairs := Min(pos.yes, pos.no);
    if pairs > 0 {
      var b := NetAt(a, t);
      WorthsPut(a, b, v, t, b.positions[t]);
      PairPaysADollar(v(t), pos.yes, pos.no, pairs);
    }
  }

  lemma BuyEquity(a: Account, t: Ticker, side: Side, price: Price, qty: Qty, fee: int, v: Ticker -> Price)
    requires a.At(t).yes >= 0 && a.At(t).no >= 0 && qty >= 0
    ensures Equity(Bought(a, t, side, price, qty, fee), v)
         == Equity(a, v) - (Notional(price, qty) + fee) + Notional(Payoff(side, v(t)), qty)
  {
    hide Notional, NetAt;
    var pos := Add(a.At(t), side, qty, Notional(price, qty));
    var booked := Booked(a, t, side, price, qty, fee);
    WorthsPut(a, booked, v, t, pos);
    NetPreservesEquity(booked, t, v);
    AddedWorth(v(t), a.At(t).yes, qty);
    AddedWorth(PRICE_SCALE - v(t), a.At(t).no, qty);
  }

  lemma SettleEquity(a: Account, t: Ticker, v: Ticker -> Price)
    ensures Equity(Settled(a, t, v(t)), v) == Equity(a, v)
  {
    hide Notional;
    AddedWorth(v(t), 0, 0);
    AddedWorth(PRICE_SCALE - v(t), 0, 0);
    if !a.At(t).Flat() {
      WorthsPut(a, Settled(a, t, v(t)), v, t, EMPTY);
    }
  }

  // ---------------------------------------------------------------- whole histories

  datatype Entry =
    | Purchase(ticker: Ticker, side: Side, price: Price, qty: Qty, fee: int)
    | Settle(ticker: Ticker, value: Price)
  {
    ghost predicate Valid() {
      match this
      case Purchase(_, _, price, qty, _) => 0 <= price <= PRICE_SCALE && qty >= 0
      case Settle(_, value) => 0 <= value <= PRICE_SCALE
    }
  }

  /** The ledger after a list of operations; buying a settled market is refused (the source raises). */
  function Replay(initial: int, log: seq<Entry>): Option<Account>
    requires forall i | 0 <= i < |log| :: log[i].Valid()
    ensures Replay(initial, log).Some? ==> Sound(Replay(initial, log).value)
  {
    if log == [] then Some(Opening(initial))
    else
      var prev := Replay(initial, log[..|log| - 1]);
      if prev.None? then None else Post(prev.value, log[|log| - 1])
  }

  function Post(a: Account, e: Entry): (r: Option<Account>)
    requires Sound(a) && e.Valid()
    ensures r.Some? ==> Sound(r.value)
  {
    match e
    case Purchase(t, side, price, qty, fee) =>
      if t in a.settled then None
      else
        BuyKeeps(a, t, side, price, qty, fee, a.cash + OpenCost(a.positions) - a.realised + a.fees);
        Some(Bought(a, t, side, price, qty, fee))
    case Settle(t, value) =>
      SettleKeeps(a, t, value, a.cash + OpenCost(a.positions) - a.realised + a.fees);
      Some(Settled(a, t, value))
  }

  /** The un-netted reference: every purchase pays its price and fee and is worth its own payoff. */
  function Unnetted(log: seq<Entry>, v: Ticker -> Price): int {
    if log == [] then 0
    else
      Unnetted(log[..|log| - 1], v) +
      match log[|log| - 1]
      case Purchase(t, side, price, qty, fee) => Notional(Payoff(side, v(t)), qty) - (Notional(price, qty) + fee)
      case Settle(_, _) => 0
  }

  ghost predicate SettlesAt(log: seq<Entry>, v: Ticker -> Price) {
    forall i | 0 <= i < |log| && log[i].Settle? :: log[i].value == v(log[i].ticker)
  }

  ghost predicate Settles(log: seq<Entry>, t: Ticker) {
    exists i :: 0 <= i < |log| && log[i].Settle? && log[i].ticker == t
  }

  /** After every operation: cash + open cost = initial + realised - fees, one side held at most. */
  lemma {:induction false} ReplayBalanced(initial: int, log: seq<Entry>)
    requires forall i | 0 <= i < |log| :: log[i].Valid()
    requires Replay(initial, log).Some?
    ensures Balanced(Replay(initial, log).value, initial)
    ensures Sound(Replay(initial, log).value)
  {
    if log == [] {
      assert Costs(Opening(initial).positions) == map[];
    } else {
      ReplayBalanced(initial, log[..|log| - 1]);
      var a := Replay(initial, log[..|log| - 1]).value;
      match log[|log| - 1]
      case Purchase(t, side, price, qty, fee) =>
        BuyKeeps(a, t, side, price, qty, fee, initial);
      case Settle(t, value) =>
        SettleKeeps(a, t, value, initial);
    }
  }

  lemma {:induction false} ReplayEquity(initial: int, log: seq<Entry>, v: Ticker -> Price)
    requires forall i | 0 <= i < |log| :: log[i].Valid()
    requires Replay(initial, log).Some? && SettlesAt(log, v)
    ensures Equity(Replay(initial, log).value, v) == initial + Unnetted(log, v)
  {
    if log == [] {
      assert Worths(Opening(initial), v) == map[];
    } else {
      var n := |log| - 1;
      ReplayEquity(initial, log[..n], v);
      var a := Replay(initial, log[..n]).value;
      match log[n]
      case Purchase(t, side, price, qty, fee) =>
        BuyEquity(a, t, side, price, qty, fee, v);
      case Settle(t, value) =>
        SettleEquity(a, t, v);
    }
  }

  lemma {:induction false} FlatEquity(a: Account, v: Ticker -> Price)
    requires forall t | t in a.positions :: a.positions[t].Flat()
    ensures Equity(a, v) == a.cash
  {
    AllZero(Worths(a, v));
  }

  lemma {:induction false} AllZero(m: map<Ticker, int>)
    requires forall t | t in m :: m[t] == 0
    ensures MapSum(m) == 0
    decreases |m|
  {
    if m != map[] {
      var t :| t in m;
      TakeOut(m, t);
      AllZero(m - {t});
    }
  }

  lemma {:induction false} SettledIsFlat(initial: int, log: seq<Entry>, t: Ticker)
    requires forall i | 0 <= i < |log| :: log[i].Valid()
    requires Replay(initial, log).Some?
    ensures t in Replay(initial, log).value.settled ==> Replay(initial, log).value.At(t).Flat()
    ensures Settles(log, t) ==> t in Replay(initial, log).value.settled
    ensures t in Replay(initial, log).value.positions
            ==> exists i :: 0 <= i < |log| && log[i].ticker == t
  {
    if log != [] {
      var n := |log| - 1;
      SettledIsFlat(initial, log[..n], t);
      var a := Replay(initial, log[..n]).value;
      var b := Replay(initial, log).value;
      if t in b.positions && t in a.positions {
        var i :| 0 <= i < n && log[..n][i].ticker == t;
        assert log[i].ticker == t;
      }
      if i :| 0 <= i < n && log[i].Settle? && log[i].ticker == t {
        assert log[..n][i] == log[i];
      }
    }
  }

  /** The netted ledger refines the fill log: once every traded market has settled, cash is the
      opening cash less every fill's price and fee plus every fill's own payoff. */
  lemma FinalCash(initial: int, log: seq<Entry>, v: Ticker -> Price)
    requires forall i | 0 <= i < |log| :: log[i].Valid()
    requires Replay(initial, log).Some? && SettlesAt(log, v)
    requires forall i | 0 <= i < |log| :: Settles(log, log[i].ticker)
    ensures Replay(initial, log).value.cash == initial + Unnetted(log, v)
    ensures Replay(initial, log).value.cash
         == initial + Replay(initial, log).value.realised - Replay(initial, log).value.fees
  {
    var a := Replay(initial, log).value;
    forall t | t in a.positions
      ensures a.positions[t].Flat()
    {
      SettledIsFlat(initial, log, t);
    }
    ReplayEquity(initial, log, v);
    FlatEquity(a, v);
    ReplayBalanced(initial, log);
    AllZero(Costs(a.positions));
  }

  // ---------------------------------------------------------------- valuation

  /** Best (YES, NO) bids of a market; without a bid the inventory is carried at cost. */
  type Marks = map<Ticker, (Option<Price>, Option<Price>)>

  function MarkOf(marks: Marks, t: Ticker): (Option<Price>, Option<Price>) {
    if t in marks then marks[t] else (None, None)
  }

  function Marked(bid: Option<Price>, qty: Qty, cost: int): int {
    if bid.None? then cost else Notional(bid.value, qty)
  }

  function Holding(pos: Position, mark: (Option<Price>, Option<Price>)): int {
    Marked(mark.0, pos.yes, pos.yesCost) + Marked(mark.1, pos.no, pos.noCost)
  }

  ghost function Holdings(positions: map<Ticker, Position>, marks: Marks): map<Ticker, int> {
    map t | t in positions :: Holding(positions[t], MarkOf(marks, t))
  }

  ghost function Gains(positions: map<Ticker, Position>, marks: Marks): map<Ticker, int> {
    map t | t in positions :: Holding(positions[t], MarkOf(marks, t)) - positions[t].Cost()
  }

  lemma TakePosition(positions: map<Ticker, Position>, marks: Marks, t: Ticker)
    requires t in positions
    ensures MapSum(Holdings(positions, marks))
         == Holding(positions[t], MarkOf(marks, t)) + MapSum(Holdings(positions - {t}, marks))
    ensures MapSum(Gains(positions, marks))
         == Holding(positions[t], MarkOf(marks, t)) - positions[t].Cost()
            + MapSum(Gains(positions - {t}, marks))
    ensures OpenCost(positions) == positions[t].Cost() + OpenCost(positions - {t})
  {
    hide Holding, MapSum;
    TakeOut(Holdings(positions, marks), t);
    assert Holdings(positions, marks) - {t} == Holdings(positions - {t}, marks);
    TakeOut(Gains(positions, marks), t);
    assert Gains(positions, marks) - {t} == Gains(positions - {t}, marks);
    TakeOut(Costs(positions), t);
    assert Costs(positions) - {t} == Costs(positions - {t});
  }

  lemma NothingHeld(marks: Marks)
    ensures MapSum(Holdings(map[], marks)) == MapSum(Gains(map[], marks)) == OpenCost(map[]) == 0
  {
    assert Holdings(map[], marks) == map[] && Gains(map[], marks) == map[] && Costs(map[]) == map[];
  }

  lemma {:induction false} GainsAreHoldingsLessCost(positions: map<Ticker, Position>, marks: Marks)
    ensures MapSum(Gains(positions, marks)) == MapSum(Holdings(positions, marks)) - OpenCost(positions)
    decreases |positions|
  {
    hide Holding, MapSum, Holdings, Gains, OpenCost;
    if positions == map[] {
      NothingHeld(marks);
    } else {
      var t :| t in positions;
      TakePosition(positions, marks, t);
      GainsAreHoldingsLessCost(positions - {t}, marks);
    }
  }

  /** equity = initial + realised + unrealised - fees, exactly, at any marks. */
  lemma ConservationAtMarks(a: Account, marks: Marks, initial: int)
    requires Balanced(a, initial)
    ensures a.cash + MapSum(Holdings(a.positions, marks))
         == initial + a.realised + MapSum(Gains(a.positions, marks)) - a.fees
  {
    GainsAreHoldingsLessCost(a.positions, marks);
  }

  /** Marked at bids that agree with a settlement, the account is worth what it is at that settlement. */
  lemma MarkedAtSettlement(a: Account, marks: Marks, v: Ticker -> Price)
    requires forall t | t in a.positions :: MarkOf(marks, t) == (Some(v(t)), Some(PRICE_SCALE - v(t)))
    ensures a.cash + MapSum(Holdings(a.positions, marks)) == Equity(a, v)
  {
    assert Holdings(a.positions, marks) == Worths(a, v);
  }

  /** Without bids everything is carried at cost. */
  lemma CarriedAtCost(positions: map<Ticker, Position>, marks: Marks)
    requires forall t | t in positions :: MarkOf(marks, t) == (None, None)
    ensures MapSum(Holdings(positions, marks)) == OpenCost(positions)
  {
    assert Holdings(positions, marks) == Costs(positions);
  }

  lemma FlatAddsNothing(pos: Position, mark: (Option<Price>, Option<Price>))
    requires pos.Valid() && pos.Flat()
    ensures Holding(pos, mark) == 0 && pos.Cost() == 0
  {
  }

  // ---------------------------------------------------------------- the portfolio object

  class Portfolio {
    var cash: int
    var positions: map<Ticker, Position>
    var realised: int
    var fees: int
    var settled: map<Ticker, Price>

    ghost function Value(): Account
      reads this
    {
      Account(cash, positions, realised, fees, settled)
    }

    ghost predicate Valid()
      reads this
    {
      Sound(Value())
    }

    constructor (initial: int)
      ensures Value() == Opening(initial) && Valid()
    {
      cash, positions, realised, fees, settled := initial, map[], 0, 0, map[];
    }

    /** Buying a settled market is refused and changes nothing. */
    method Buy(t: Ticker, side: Side, price: Price, qty: Qty, fee: int) returns (ok: bool)
      requires Valid() && 0 <= price <= PRICE_SCALE && qty >= 0
      modifies this
      ensures ok == (t !in old(settled)) && Valid()
      ensures Value() == if ok then Bought(old(Value()), t, side, price, qty, fee) else old(Value())
    {
      if t in settled {
        return false;
      }
      hide NetAt, Notional, OpenCost, Sound, Position.Valid;
      ghost var before, initial := Value(), cash + OpenCost(positions) - realised + fees;
      BuyKeeps(before, t, side, price, qty, fee, initial);
      BookKeeps(before, t, side, price, qty, fee, initial);
      var pos := if t in positions then positions[t] else EMPTY;
      var cost := Notional(price, qty);
      cash := cash - (cost + fee);
      fees := fees + fee;
      if side == YES {
        pos := pos.(yes := pos.yes + qty, yesCost := pos.yesCost + cost);
      } else {
        pos := pos.(no := pos.no + qty, noCost := pos.noCost + cost);
      }
      assert pos == Add(before.At(t), side, qty, cost);
      hide Add, Account.At;
      positions := positions[t := pos];
      assert Value() == Booked(before, t, side, price, qty, fee);
      Net(t);
      return true;
    }

    method Net(t: Ticker)
      requires t in positions && positions[t].yes >= 0 && positions[t].no >= 0
      modifies this
      ensures Value() == NetAt(old(Value()), t)
    {
      var pos := positions[t];
      var pairs := Min(pos.yes, pos.no);
      if pairs == 0 {
        return;
      }
      var costYes := if pairs < pos.yes then FloorDiv(pos.yesCost * pairs, pos.yes) else pos.yesCost;
      var costNo := if pairs < pos.no then FloorDiv(pos.noCost * pairs, pos.no) else pos.noCost;
      cash := cash + Notional(PRICE_SCALE, pairs);
      realised := realised + (Notional(PRICE_SCALE, pairs) - costYes - costNo);
      positions := positions[t := Position(pos.yes - pairs, pos.yesCost - costYes,
                                           pos.no - pairs, pos.noCost - costNo)];
    }

    method Settle(t: Ticker, v: Price) returns (pnl: int)
      requires Valid()
      modifies this
      ensures Valid() && Value() == Settled(old(Value()), t, v)
      ensures pnl == realised - old(realised)
    {
      ghost var before := Value();
      SettleKeeps(before, t, v, cash + OpenCost(positions) - realised + fees);
      settled := settled[t := v];
      if t !in positions || positions[t].Flat() {
        return 0;
      }
      var pos := positions[t];
      var payoff := Notional(v, pos.yes) + Notional(PRICE_SCALE - v, pos.no);
      pnl := payoff - pos.yesCost - pos.noCost;
      cash := cash + payoff;
      realised := realised + pnl;
      positions := positions[t := EMPTY];
    }

    method Equity(marks: Marks) returns (equity: int)
      requires Valid()
      ensures equity == cash + MapSum(Holdings(positions, marks))
    {
      hide Notional, Holding, MapSum, Holdings, Gains;
      NothingHeld(marks);
      var holdings := 0;
      var rest := positions;
      while rest != map[]
        invariant rest.Keys <= positions.Keys && forall t | t in rest :: rest[t] == positions[t]
        invariant holdings + MapSum(Holdings(rest, marks)) == MapSum(Holdings(positions, marks))
        decreases |rest|
      {
        var t :| t in rest;
        TakePosition(rest, marks, t);
        assert positions[t].Valid();
        if rest[t].Flat() {
          FlatAddsNothing(rest[t], MarkOf(marks, t));
        } else {
          holdings := holdings + Holding(rest[t], MarkOf(marks, t));
        }
        rest := rest - {t};
      }
      return cash + holdings;
    }

    method Unrealised(marks: Marks) returns (total: int)
      requires Valid()
      ensures total == MapSum(Gains(positions, marks))
    {
      hide Notional, Holding, MapSum, Holdings, Gains;
      NothingHeld(marks);
      total := 0;
      var rest := positions;
      while rest != map[]
        invariant rest.Keys <= positions.Keys && forall t | t in rest :: rest[t] == positions[t]
        invariant total + MapSum(Gains(rest, marks)) == MapSum(Gains(positions, marks))
        decreases |rest|
      {
        var t :| t in rest;
        TakePosition(rest, marks, t);
        assert positions[t].Valid();
        if rest[t].Flat() {
          FlatAddsNothing(rest[t], MarkOf(marks, t));
        } else {
          total := total + (Holding(rest[t], MarkOf(marks, t)) - rest[t].Cost());
        }
        rest := rest - {t};
      }
    }
  }
}
