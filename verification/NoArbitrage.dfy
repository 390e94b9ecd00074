/** The linear-programming reading of market/relationships.py: a relation's constraints are all
    unviolated exactly when some probability distribution over its admissible worlds has every
    marginal inside the quoted bid/ask. */
module NoArbitrage {
  import opened Units
  import opened Relationships

  /** A world with its probability, in ticks. */
  datatype Draw = Draw(world: World, weight: real)

  ghost function Weight(d: seq<Draw>): real {
    if d == [] then 0.0 else Weight(d[..|d| - 1]) + d[|d| - 1].weight
  }

  /** The probability, in ticks, that the contract wins. */
  ghost function Marginal(d: seq<Draw>, c: Contract): real {
    if d == [] then 0.0
    else Marginal(d[..|d| - 1], c) + (if Wins(c, d[|d| - 1].world) then d[|d| - 1].weight else 0.0)
  }

  predicate Wins(c: Contract, w: World) {
    w(c.ticker) == c.side.YES?
  }

  ghost predicate Distribution(r: Relation, d: seq<Draw>) {
    && Weight(d) == PRICE_SCALE as real
    && forall i | 0 <= i < |d| :: d[i].weight >= 0.0 && r.Admissible(d[i].world)
  }

  function Ask(ask: AskFn, t: Ticker): Price {
    match ask(Contract(t, YES))
    case Some(l) => l.price
    case None => 0
  }

  /** The best YES bid is what the NO ask leaves of a dollar. */
  function Bid(ask: AskFn, t: Ticker): Price {
    match ask(Contract(t, NO))
    case Some(l) => PRICE_SCALE - l.price
    case None => 0
  }

  /** Both sides quoted, inside (0, $1), and not crossed. */
  predicate QuotedAt(ask: AskFn, t: Ticker) {
    && ask(Contract(t, YES)).Some? && ask(Contract(t, NO)).Some?
    && 0 < Bid(ask, t) <= Ask(ask, t) < PRICE_SCALE
  }

  predicate FullyQuoted(r: Relation, ask: AskFn) {
    forall t | t in r.Tickers() :: QuotedAt(ask, t)
  }

  ghost predicate Fits(ask: AskFn, t: Ticker, d: seq<Draw>)
    requires QuotedAt(ask, t)
  {
    Bid(ask, t) as real <= Marginal(d, Contract(t, YES)) <= Ask(ask, t) as real
  }

  ghost predicate Coherent(r: Relation, ask: AskFn, d: seq<Draw>)
    requires FullyQuoted(r, ask)
  {
    Distribution(r, d) && forall t | t in r.Tickers() :: Fits(ask, t, d)
  }

  ghost predicate Unviolated(r: Relation, ask: AskFn)
    requires r.Valid()
  {
    forall c | c in r.Constraints() :: !(c.Valid() && c.Check(ask).Some? && c.Check(ask).value.margin > 0)
  }

  // ---------------------------------------------------------------- a distribution rules out arbitrage

  lemma {:induction false} SidesComplement(d: seq<Draw>, t: Ticker)
    ensures Marginal(d, Contract(t, NO)) == Weight(d) - Marginal(d, Contract(t, YES))
  {
    if d != [] {
      SidesComplement(d[..|d| - 1], t);
    }
  }

  /** Expected number of winning contracts in the bundle, in ticks. */
  ghost function Expected(legs: seq<Leg>, d: seq<Draw>): real {
    if legs == [] then 0.0
    else Expected(legs[..|legs| - 1], d) + Part(legs[|legs| - 1], d)
  }

  ghost function Part(l: Leg, d: seq<Draw>): real {
    l.qty as real * Marginal(d, l.contract)
  }

  function Won(legs: seq<Leg>, w: World): int {
    if legs == [] then 0
    else Won(legs[..|legs| - 1], w)
         + (if Wins(legs[|legs| - 1].contract, w) then legs[|legs| - 1].qty else 0)
  }

  lemma {:induction false} PayoffIsWon(legs: seq<Leg>, w: World)
    ensures BundlePayoff(legs, Ticks(w)) == PRICE_SCALE * Won(legs, w)
  {
    if legs != [] {
      PayoffIsWon(legs[..|legs| - 1], w);
    }
  }

  function Weighed(n: int, weight: real): real {
    n as real * weight
  }

  lemma PartOneMore(l: Leg, d: seq<Draw>, x: Draw)
    ensures Part(l, d + [x]) == Part(l, d) + Weighed(if Wins(l.contract, x.world) then l.qty else 0, x.weight)
  {
    assert (d + [x])[..|d|] == d;
    var q, m, w := l.qty as real, Marginal(d, l.contract), x.weight;
    assert Marginal(d + [x], l.contract) == m + (if Wins(l.contract, x.world) then w else 0.0);
    hide Marginal;
    assert q * (m + w) == q * m + q * w;
  }

  lemma WeighedSum(a: int, b: int, weight: real)
    ensures Weighed(a + b, weight) == Weighed(a, weight) + Weighed(b, weight)
    ensures Weighed(0, weight) == 0.0
  {
  }

  lemma {:induction false} ExpectedOneMore(legs: seq<Leg>, d: seq<Draw>, x: Draw)
    ensures Expected(legs, d + [x]) == Expected(legs, d) + Weighed(Won(legs, x.world), x.weight)
  {
    hide Part, Weighed, Wins;
    WeighedSum(0, 0, x.weight);
    if legs != [] {
      var l, front := legs[|legs| - 1], legs[..|legs| - 1];
      ExpectedOneMore(front, d, x);
      PartOneMore(l, d, x);
      WeighedSum(Won(front, x.world), if Wins(l.contract, x.world) then l.qty else 0, x.weight);
    }
  }

  lemma {:induction false} ExpectedNothing(legs: seq<Leg>)
    ensures Expected(legs, []) == 0.0
  {
    if legs != [] {
      ExpectedNothing(legs[..|legs| - 1]);
    }
  }

  /** If every drawn world pays at least `floor` contracts, so does the expectation. */
  lemma {:induction false} ExpectedAtLeast(legs: seq<Leg>, d: seq<Draw>, floor: int)
    requires forall i | 0 <= i < |d| :: d[i].weight >= 0.0 && Won(legs, d[i].world) >= floor
    ensures Expected(legs, d) >= floor as real * Weight(d)
  {
    hide Expected, Won;
    if d == [] {
      ExpectedNothing(legs);
    } else {
      var n := |d| - 1;
      ExpectedAtLeast(legs, d[..n], floor);
      ExpectedOneMore(legs, d[..n], d[n]);
      assert d == d[..n] + [d[n]];
      Scale(Won(legs, d[n].world), floor, d[n].weight);
      Distribute(floor as real, Weight(d[..n]), d[n].weight);
    }
  }

  lemma Distribute(a: real, b: real, c: real)
    ensures a * (b + c) == a * b + a * c
  {
  }

  lemma Scale(a: int, b: int, x: real)
    requires a >= b && x >= 0.0
    ensures a as real * x >= b as real * x
  {
  }

  /** The bundle costs at least its expectation: each ask is no lower than its marginal. */
  lemma {:induction false} CostAtLeastExpected(legs: seq<Leg>, ask: AskFn, d: seq<Draw>)
    requires forall i | 0 <= i < |legs| ::
      && legs[i].qty >= 1 && ask(legs[i].contract).Some?
      && Marginal(d, legs[i].contract) <= ask(legs[i].contract).value.price as real
    ensures TopCost(legs, ask) as real >= Expected(legs, d)
  {
    if legs != [] {
      var l := legs[|legs| - 1];
      CostAtLeastExpected(legs[..|legs| - 1], ask, d);
      var q, p, m := l.qty as real, ask(l.contract).value.price, Marginal(d, l.contract);
      assert q * m <= q * p as real;
      assert (l.qty * p) as real == q * p as real;
    }
  }

  lemma LegWithinQuote(r: Relation, ask: AskFn, d: seq<Draw>, l: Leg)
    requires r.Valid() && FullyQuoted(r, ask) && Coherent(r, ask, d)
    requires l.contract.ticker in r.Tickers()
    ensures ask(l.contract).Some?
    ensures Marginal(d, l.contract) <= ask(l.contract).value.price as real
  {
    hide Marginal, Weight;
    var t := l.contract.ticker;
    SidesComplement(d, t);
    assert QuotedAt(ask, t) && Fits(ask, t, d);
    match l.contract.side
    case YES => assert l.contract == Contract(t, YES);
    case NO => assert l.contract == Contract(t, NO);
  }

  /** None invented: coherent quotes violate nothing. */
  lemma CoherentIsUnviolated(r: Relation, ask: AskFn, d: seq<Draw>)
    requires r.Valid() && FullyQuoted(r, ask) && Coherent(r, ask, d)
    ensures Unviolated(r, ask)
  {
    forall c | c in r.Constraints()
      ensures c.Valid() && c.Quoted(ask) && c.Check(ask).value.margin <= 0
    {
      NoPositiveMargin(r, ask, d, c);
    }
  }

  lemma NoPositiveMargin(r: Relation, ask: AskFn, d: seq<Draw>, c: Constraint)
    requires r.Valid() && FullyQuoted(r, ask) && Coherent(r, ask, d) && c in r.Constraints()
    ensures c.Valid() && c.Quoted(ask) && c.Check(ask).value.margin <= 0
  {
    hide Relation.Constraints, Relation.Admissible, Expected, Won, Marginal, TopCost, TopSizes, BundlePayoff;
    LegsOfRelation(r, c);
    forall i | 0 <= i < |c.legs|
      ensures ask(c.legs[i].contract).Some?
      ensures Marginal(d, c.legs[i].contract) <= ask(c.legs[i].contract).value.price as real
    {
      assert c.legs[i] in c.legs;
      LegWithinQuote(r, ask, d, c.legs[i]);
    }
    CostAtLeastExpected(c.legs, ask, d);
    var floor := c.bound / PRICE_SCALE;
    forall i | 0 <= i < |d|
      ensures Won(c.legs, d[i].world) >= floor
    {
      Sound(r, d[i].world, c);
      PayoffIsWon(c.legs, d[i].world);
    }
    ExpectedAtLeast(c.legs, d, floor);
    assert floor as real * PRICE_SCALE as real == c.bound as real;
  }

  // ---------------------------------------------------------------- worlds laid out along the dollar

  /** Give each tick of the dollar one world: market t wins on the ticks of its own interval. */
  datatype Layout = Layout(lo: Ticker -> int, hi: Ticker -> int) {
    function At(tick: int): World {
      t => lo(t) <= tick < hi(t)
    }

    ghost function Draws(n: nat): seq<Draw> {
      seq(n, i => Draw(At(i), 1.0))
    }
  }

  lemma {:induction false} LayoutWeight(l: Layout, n: nat)
    ensures Weight(l.Draws(n)) == n as real
  {
    if n > 0 {
      LayoutWeight(l, n - 1);
      assert l.Draws(n)[..n - 1] == l.Draws(n - 1);
    }
  }

  lemma {:induction false} LayoutMarginal(l: Layout, t: Ticker, n: nat)
    requires 0 <= l.lo(t) <= l.hi(t)
    ensures Marginal(l.Draws(n), Contract(t, YES)) == Max(0, Min(l.hi(t), n) - l.lo(t)) as real
  {
    if n > 0 {
      LayoutMarginal(l, t, n - 1);
      assert l.Draws(n)[..n - 1] == l.Draws(n - 1);
    }
  }

  /** A layout whose ticks are all admissible and whose interval lengths fit the quotes is coherent. */
  lemma LayoutCoherent(r: Relation, ask: AskFn, l: Layout)
    requires FullyQuoted(r, ask)
    requires forall i | 0 <= i < PRICE_SCALE :: r.Admissible(l.At(i))
    requires forall t | t in r.Tickers() ::
      0 <= l.lo(t) <= l.hi(t) <= PRICE_SCALE && Bid(ask, t) <= l.hi(t) - l.lo(t) <= Ask(ask, t)
    ensures Coherent(r, ask, l.Draws(PRICE_SCALE))
  {
    LayoutWeight(l, PRICE_SCALE);
    forall t | t in r.Tickers()
      ensures Fits(ask, t, l.Draws(PRICE_SCALE))
    {
      LayoutMarginal(l, t, PRICE_SCALE);
    }
  }

  // ---------------------------------------------------------------- sums along a list of markets

  type Lengths = Ticker -> int

  function Total(ms: seq<Ticker>, m: Lengths): int {
    if ms == [] then 0 else Total(ms[..|ms| - 1], m) + m(ms[|ms| - 1])
  }

  function IndexOf(ms: seq<Ticker>, t: Ticker): (i: nat)
    requires t in ms
    ensures i < |ms| && ms[i] == t
  {
    if ms[0] == t then 0 else IndexOf(ms[1..], t) + 1
  }

  lemma {:induction false} TotalMono(ms: seq<Ticker>, m: Lengths, i: nat, j: nat)
    requires i <= j <= |ms| && forall t | t in ms :: m(t) >= 0
    ensures 0 <= Total(ms[..i], m) <= Total(ms[..j], m)
    decreases j
  {
    if j > 0 {
      assert ms[..j][..j - 1] == ms[..j - 1];
      assert ms[j - 1] in ms;
      if i < j {
        TotalMono(ms, m, i, j - 1);
      } else {
        TotalMono(ms, m, i - 1, j - 1);
      }
    }
  }

  lemma {:induction false} TotalLe(ms: seq<Ticker>, m: Lengths, n: Lengths)
    requires forall t | t in ms :: m(t) <= n(t)
    ensures Total(ms, m) <= Total(ms, n)
  {
    if ms != [] {
      TotalLe(ms[..|ms| - 1], m, n);
    }
  }

  lemma {:induction false} TotalSame(ms: seq<Ticker>, m: Lengths, n: Lengths)
    requires forall t | t in ms :: m(t) == n(t)
    ensures Total(ms, m) == Total(ms, n)
  {
    if ms != [] {
      TotalSame(ms[..|ms| - 1], m, n);
    }
  }

  /** Greedy fill: raise the lengths from lo to hi, last market first, until they add up to `target`. */
  function Greedy(ms: seq<Ticker>, lo: Lengths, hi: Lengths, target: int): map<Ticker, int> {
    if ms == [] then map[]
    else
      var n := |ms| - 1;
      var last := Min(hi(ms[n]), target - Total(ms[..n], lo));
      Greedy(ms[..n], lo, hi, target - last)[ms[n] := last]
  }

  function From(m: map<Ticker, int>): Lengths {
    t => if t in m then m[t] else 0
  }

  lemma {:induction false} GreedyFills(ms: seq<Ticker>, lo: Lengths, hi: Lengths, target: int)
    requires Distinct(ms) && forall t | t in ms :: lo(t) <= hi(t)
    requires Total(ms, lo) <= target <= Total(ms, hi)
    ensures var m := From(Greedy(ms, lo, hi, target));
            && Total(ms, m) == target
            && forall t | t in ms :: lo(t) <= m(t) <= hi(t)
  {
    if ms != [] {
      var n := |ms| - 1;
      var last := Min(hi(ms[n]), target - Total(ms[..n], lo));
      assert ms == ms[..n] + [ms[n]];
      TotalLe(ms[..n], lo, hi);
      GreedyFills(ms[..n], lo, hi, target - last);
      var m, rest := From(Greedy(ms, lo, hi, target)), From(Greedy(ms[..n], lo, hi, target - last));
      forall t | t in ms[..n]
        ensures m(t) == rest(t)
      {
      }
      TotalSame(ms[..n], m, rest);
    }
  }

  // ---------------------------------------------------------------- end-to-end intervals

  /** Intervals of the given lengths end to end, each pushed back to stay below `width`. */
  function StackLo(ms: seq<Ticker>, m: Lengths, width: int): Lengths {
    t => if t in ms then Min(Total(ms[..IndexOf(ms, t)], m), width - m(t)) else 0
  }

  function Stack(ms: seq<Ticker>, m: Lengths, width: int): Layout {
    Layout(StackLo(ms, m, width), t => if t in ms then StackLo(ms, m, width)(t) + m(t) else 0)
  }

  lemma {:induction false} IndexIs(ms: seq<Ticker>, i: nat)
    requires Distinct(ms) && i < |ms|
    ensures IndexOf(ms, ms[i]) == i
  {
    if i > 0 {
      IndexIs(ms[1..], i - 1);
    }
  }

  lemma {:induction false} StackStart(ms: seq<Ticker>, m: Lengths, width: int, i: nat)
    requires Distinct(ms) && i < |ms|
    ensures ms[i] in ms
    ensures StackLo(ms, m, width)(ms[i]) == Min(Total(ms[..i], m), width - m(ms[i]))
  {
    IndexIs(ms, i);
  }

  /** When everything fits, each market covers just its own stretch. */
  lemma StackAt(ms: seq<Ticker>, m: Lengths, width: int, tick: int, i: nat)
    requires Distinct(ms) && i < |ms| && tick >= 0 && Total(ms, m) <= width
    requires forall t | t in ms :: m(t) >= 0
    ensures Stack(ms, m, width).At(tick)(ms[i]) <==> Total(ms[..i], m) <= tick < Total(ms[..i + 1], m)
  {
    StackStart(ms, m, width, i);
    TotalMono(ms, m, i + 1, |ms|);
    assert ms[..|ms|] == ms && ms[..i + 1][..i] == ms[..i];
    hide StackLo;
  }

  /** ... so a tick below the total is covered exactly once. */
  lemma {:induction false} StackCounts(ms: seq<Ticker>, m: Lengths, width: int, tick: int, k: nat)
    requires Distinct(ms) && k <= |ms| && tick >= 0 && Total(ms, m) <= width
    requires forall t | t in ms :: m(t) >= 0
    ensures Count(ms[..k], Stack(ms, m, width).At(tick)) == if tick < Total(ms[..k], m) then 1 else 0
  {
    if k > 0 {
      StackCounts(ms, m, width, tick, k - 1);
      StackAt(ms, m, width, tick, k - 1);
      TotalMono(ms, m, k - 1, k);
      assert ms[..k][..k - 1] == ms[..k - 1];
      hide Stack, Layout.At, Total;
    }
  }

  /** When the lengths add up to at least the width, every tick below the width is covered. */
  lemma {:induction false} StackCovers(ms: seq<Ticker>, m: Lengths, width: int, tick: int, k: nat)
    requires Distinct(ms) && k <= |ms| && 0 <= tick < width && tick < Total(ms[..k], m)
    requires forall t | t in ms :: 0 <= m(t) <= width
    ensures exists i :: 0 <= i < |ms| && Stack(ms, m, width).At(tick)(ms[i])
  {
    if k > 0 {
      assert ms[..k][..k - 1] == ms[..k - 1];
      if tick < Total(ms[..k - 1], m) {
        StackCovers(ms, m, width, tick, k - 1);
      } else {
        StackStart(ms, m, width, k - 1);
        assert Stack(ms, m, width).At(tick)(ms[k - 1]);
      }
    }
  }

  // ---------------------------------------------------------------- margins in terms of bids and asks

  function Bids(ask: AskFn): Lengths {
    t => Bid(ask, t)
  }

  function Asks(ask: AskFn): Lengths {
    t => Ask(ask, t)
  }

  lemma {:induction false} TopCostAppend(a: seq<Leg>, b: seq<Leg>, ask: AskFn)
    requires forall i | 0 <= i < |a| :: ask(a[i].contract).Some?
    requires forall i | 0 <= i < |b| :: ask(b[i].contract).Some?
    ensures TopCost(a + b, ask) == TopCost(a, ask) + TopCost(b, ask)
  {
    if b == [] {
      assert a + b == a;
    } else {
      assert (a + b)[..|a + b| - 1] == a + b[..|b| - 1];
      TopCostAppend(a, b[..|b| - 1], ask);
    }
  }

  lemma LegsQuoted(ms: seq<Ticker>, ask: AskFn)
    requires forall t | t in ms :: QuotedAt(ask, t)
    ensures forall i | 0 <= i < |ms| :: ask(YesLegs(ms)[i].contract).Some? && ask(NoLegs(ms)[i].contract).Some?
  {
    forall i | 0 <= i < |ms|
      ensures ask(YesLegs(ms)[i].contract).Some? && ask(NoLegs(ms)[i].contract).Some?
    {
      assert QuotedAt(ask, ms[i]);
    }
  }

  lemma {:induction false} SideCosts(ms: seq<Ticker>, ask: AskFn)
    requires forall t | t in ms :: QuotedAt(ask, t)
    ensures forall i | 0 <= i < |ms| :: ask(YesLegs(ms)[i].contract).Some? && ask(NoLegs(ms)[i].contract).Some?
    ensures TopCost(YesLegs(ms), ask) == Total(ms, Asks(ask))
    ensures TopCost(NoLegs(ms), ask) == PRICE_SCALE * |ms| - Total(ms, Bids(ask))
  {
    LegsQuoted(ms, ask);
    if ms != [] {
      var n := |ms| - 1;
      assert QuotedAt(ask, ms[n]);
      SideCosts(ms[..n], ask);
      assert YesLegs(ms)[..n] == YesLegs(ms[..n]) && NoLegs(ms)[..n] == NoLegs(ms[..n]);
    }
  }

  lemma OneCost(l: Leg, ask: AskFn)
    requires ask(l.contract).Some?
    ensures TopCost([l], ask) == l.qty * ask(l.contract).value.price
  {
    assert [l][..0] == [];
  }

  lemma PairCost(a: Ticker, c: Ticker, ask: AskFn)
    requires QuotedAt(ask, a) && QuotedAt(ask, c)
    ensures ImpliesConstraint(a, c).Quoted(ask)
    ensures ImpliesConstraint(a, c).Check(ask).value.margin == Bid(ask, a) - Ask(ask, c)
  {
    TopCostAppend([Yes(c)], [No(a)], ask);
    OneCost(Yes(c), ask);
    OneCost(No(a), ask);
    assert [Yes(c)] + [No(a)] == [Yes(c), No(a)];
  }

  lemma MutexCost(ms: seq<Ticker>, ask: AskFn)
    requires ms != [] && forall t | t in ms :: QuotedAt(ask, t)
    ensures MutexConstraint(ms).Quoted(ask)
    ensures MutexConstraint(ms).Check(ask).value.margin == Total(ms, Bids(ask)) - PRICE_SCALE
  {
    SideCosts(ms, ask);
  }

  lemma CoverCost(ms: seq<Ticker>, ask: AskFn)
    requires ms != [] && forall t | t in ms :: QuotedAt(ask, t)
    ensures CoverConstraint(ms).Quoted(ask)
    ensures CoverConstraint(ms).Check(ask).value.margin == PRICE_SCALE - Total(ms, Asks(ask))
  {
    SideCosts(ms, ask);
  }

  lemma CheckMargin(c: Constraint, ask: AskFn)
    requires c.Valid() && c.Quoted(ask)
    ensures c.Check(ask).Some? && c.Check(ask).value.margin == c.bound - TopCost(c.legs, ask)
  {
    hide TopCost, TopSizes;
  }

  lemma OneMoreLeg(l: Leg, rest: seq<Leg>, ask: AskFn, kind: Kind, bound: Price)
    requires l.qty == 1 && ask(l.contract).Some?
    requires forall i | 0 <= i < |rest| :: rest[i].qty == 1 && ask(rest[i].contract).Some?
    ensures var c := Constraint(kind, [l] + rest, bound);
            && c.Valid() && c.Quoted(ask)
            && c.Check(ask).value.margin == bound - ask(l.contract).value.price - TopCost(rest, ask)
  {
    hide TopCost, TopSizes, Constraint.Check;
    TopCostAppend([l], rest, ask);
    OneCost(l, ask);
    CheckMargin(Constraint(kind, [l] + rest, bound), ask);
  }

  lemma UnionCosts(ps: seq<Ticker>, whole: Ticker, ask: AskFn)
    requires (forall t | t in ps :: QuotedAt(ask, t)) && QuotedAt(ask, whole)
    ensures var c := UnionCover(ps, whole);
            c.Quoted(ask) && c.Valid() && c.Check(ask).value.margin == Bid(ask, whole) - Total(ps, Asks(ask))
    ensures var c := UnionCap(ps, whole);
            c.Quoted(ask) && c.Valid() && c.Check(ask).value.margin == Total(ps, Bids(ask)) - Ask(ask, whole)
  {
    hide TopCost, Total, TopSizes, Constraint.Check, Constraint.Quoted, Constraint.Valid, YesLegs, NoLegs;
    SideCosts(ps, ask);
    SideQty(ps);
    OneMoreLeg(No(whole), YesLegs(ps), ask, UNION, PRICE_SCALE);
    OneMoreLeg(Yes(whole), NoLegs(ps), ask, UNION, |ps| * PRICE_SCALE);
  }

  lemma SideQty(ms: seq<Ticker>)
    ensures |YesLegs(ms)| == |NoLegs(ms)| == |ms|
    ensures forall i | 0 <= i < |ms| :: YesLegs(ms)[i].qty == 1 && NoLegs(ms)[i].qty == 1
  {
  }

  lemma Unbeaten(r: Relation, ask: AskFn, c: Constraint)
    requires r.Valid() && Unviolated(r, ask) && c in r.Constraints() && c.Valid() && c.Quoted(ask)
    ensures c.Check(ask).value.margin <= 0
  {
  }

  // ---------------------------------------------------------------- the constructions

  lemma MutexLayout(ms: seq<Ticker>, ask: AskFn)
    requires MutuallyExclusive(ms).Valid() && FullyQuoted(MutuallyExclusive(ms), ask)
    requires Unviolated(MutuallyExclusive(ms), ask)
    ensures Coherent(MutuallyExclusive(ms), ask, Stack(ms, Bids(ask), PRICE_SCALE).Draws(PRICE_SCALE))
  {
    var r, m := MutuallyExclusive(ms), Bids(ask);
    MutexCost(ms, ask);
    Unbeaten(r, ask, MutexConstraint(ms));
    StackFits(ms, ask, m, PRICE_SCALE);
    forall i | 0 <= i < PRICE_SCALE
      ensures r.Admissible(Stack(ms, m, PRICE_SCALE).At(i))
    {
      StackCounts(ms, m, PRICE_SCALE, i, |ms|);
      assert ms[..|ms|] == ms;
    }
    LayoutCoherent(r, ask, Stack(ms, m, PRICE_SCALE));
  }

  lemma StackFits(ms: seq<Ticker>, ask: AskFn, m: Lengths, width: int)
    requires Distinct(ms) && forall t | t in ms :: QuotedAt(ask, t)
    requires 0 <= width <= PRICE_SCALE
    requires forall t | t in ms :: Bid(ask, t) <= m(t) <= Ask(ask, t) && m(t) <= width
    ensures var l := Stack(ms, m, width);
            forall t | t in ms :: 0 <= l.lo(t) <= l.hi(t) <= PRICE_SCALE && l.hi(t) - l.lo(t) == m(t)
  {
    forall t | t in ms
      ensures 0 <= StackLo(ms, m, width)(t) && StackLo(ms, m, width)(t) + m(t) <= width
    {
      var i := IndexOf(ms, t);
      TotalMono(ms, m, 0, i);
    }
  }

  lemma ExhaustiveLayout(ms: seq<Ticker>, ask: AskFn)
    requires Exhaustive(ms).Valid() && FullyQuoted(Exhaustive(ms), ask) && Unviolated(Exhaustive(ms), ask)
    ensures Coherent(Exhaustive(ms), ask, Stack(ms, Asks(ask), PRICE_SCALE).Draws(PRICE_SCALE))
  {
    var r, m := Exhaustive(ms), Asks(ask);
    CoverCost(ms, ask);
    Unbeaten(r, ask, CoverConstraint(ms));
    StackFits(ms, ask, m, PRICE_SCALE);
    forall i | 0 <= i < PRICE_SCALE
      ensures r.Admissible(Stack(ms, m, PRICE_SCALE).At(i))
    {
      assert ms[..|ms|] == ms;
      StackCovers(ms, m, PRICE_SCALE, i, |ms|);
      CountAny(ms, Stack(ms, m, PRICE_SCALE).At(i));
    }
    LayoutCoherent(r, ask, Stack(ms, m, PRICE_SCALE));
  }

  lemma PartitionLayout(ms: seq<Ticker>, ask: AskFn) returns (l: Layout)
    requires Partition(ms).Valid() && FullyQuoted(Partition(ms), ask) && Unviolated(Partition(ms), ask)
    ensures Coherent(Partition(ms), ask, l.Draws(PRICE_SCALE))
  {
    var r := Partition(ms);
    MutexCost(ms, ask);
    CoverCost(ms, ask);
    Unbeaten(r, ask, MutexConstraint(ms));
    Unbeaten(r, ask, CoverConstraint(ms));
    var m := From(Greedy(ms, Bids(ask), Asks(ask), PRICE_SCALE));
    GreedyFills(ms, Bids(ask), Asks(ask), PRICE_SCALE);
    StackFits(ms, ask, m, PRICE_SCALE);
    l := Stack(ms, m, PRICE_SCALE);
    forall i | 0 <= i < PRICE_SCALE
      ensures r.Admissible(l.At(i))
    {
      StackCounts(ms, m, PRICE_SCALE, i, |ms|);
      assert ms[..|ms|] == ms;
    }
    LayoutCoherent(r, ask, l);
  }

  /** Running maximum of the bids. */
  function Crest(ms: seq<Ticker>, b: Lengths): int {
    if ms == [] then 0 else Max(Crest(ms[..|ms| - 1], b), b(ms[|ms| - 1]))
  }

  function ChainHi(ms: seq<Ticker>, b: Lengths): Lengths {
    t => if t in ms then Crest(ms[..IndexOf(ms, t) + 1], b) else 0
  }

  lemma {:induction false} CrestBounds(ms: seq<Ticker>, b: Lengths, cap: int)
    requires forall t | t in ms :: b(t) <= cap
    requires cap >= 0
    ensures 0 <= Crest(ms, b) <= cap
    ensures forall t | t in ms :: b(t) <= Crest(ms, b)
  {
    if ms != [] {
      CrestBounds(ms[..|ms| - 1], b, cap);
      assert ms == ms[..|ms| - 1] + [ms[|ms| - 1]];
    }
  }

  lemma PairWithin(ms: seq<Ticker>, ask: AskFn, i: nat, j: nat)
    requires Chain(ms).Valid() && FullyQuoted(Chain(ms), ask) && Unviolated(Chain(ms), ask)
    requires i <= j < |ms|
    ensures Bid(ask, ms[i]) <= Ask(ask, ms[j])
  {
    hide AllPairs;
    assert ms[i] in Chain(ms).Tickers() && ms[j] in Chain(ms).Tickers();
    assert QuotedAt(ask, ms[i]) && QuotedAt(ask, ms[j]);
    if i < j {
      PairIn(ms, i, j);
      PairCost(ms[i], ms[j], ask);
      Unbeaten(Chain(ms), ask, ImpliesConstraint(ms[i], ms[j]));
    }
  }

  lemma CrestFits(ms: seq<Ticker>, ask: AskFn, t: Ticker)
    requires Chain(ms).Valid() && FullyQuoted(Chain(ms), ask) && Unviolated(Chain(ms), ask) && t in ms
    ensures Bid(ask, t) <= ChainHi(ms, Bids(ask))(t) <= Ask(ask, t) < PRICE_SCALE
    ensures ChainHi(ms, Bids(ask))(t) >= 0
  {
    hide Crest;
    var j := IndexOf(ms, t);
    assert t in Chain(ms).Tickers();
    assert QuotedAt(ask, t);
    var prefix := ms[..j + 1];
    forall s | s in prefix
      ensures Bids(ask)(s) <= Ask(ask, t)
    {
      var i :| 0 <= i < j + 1 && ms[i] == s;
      PairWithin(ms, ask, i, j);
    }
    assert t == prefix[j];
    assert t in prefix;
    CrestBounds(prefix, Bids(ask), Ask(ask, t));
  }

  lemma ChainNested(ms: seq<Ticker>, b: Lengths, i: nat)
    requires Distinct(ms) && i + 1 < |ms|
    ensures ChainHi(ms, b)(ms[i]) <= ChainHi(ms, b)(ms[i + 1])
  {
    IndexIs(ms, i);
    IndexIs(ms, i + 1);
    assert ms[..i + 2][..i + 1] == ms[..i + 1];
  }

  lemma ChainLayout(ms: seq<Ticker>, ask: AskFn)
    requires Chain(ms).Valid() && FullyQuoted(Chain(ms), ask) && Unviolated(Chain(ms), ask)
    ensures Coherent(Chain(ms), ask, Layout(_ => 0, ChainHi(ms, Bids(ask))).Draws(PRICE_SCALE))
  {
    hide ChainHi, Unviolated, Coherent;
    var r, b := Chain(ms), Bids(ask);
    var l := Layout(_ => 0, ChainHi(ms, b));
    forall t | t in ms
      ensures Bid(ask, t) <= l.hi(t) <= Ask(ask, t) && 0 <= l.hi(t) <= PRICE_SCALE
    {
      CrestFits(ms, ask, t);
    }
    forall k | 0 <= k < PRICE_SCALE
      ensures r.Admissible(l.At(k))
    {
      forall i | 0 <= i < |ms| - 1
        ensures l.At(k)(ms[i]) ==> l.At(k)(ms[i + 1])
      {
        ChainNested(ms, b, i);
      }
    }
    LayoutCoherent(r, ask, l);
  }

  lemma ImpliesLayout(a: Ticker, c: Ticker, ask: AskFn)
    requires Implies(a, c).Valid() && FullyQuoted(Implies(a, c), ask) && Unviolated(Implies(a, c), ask)
    ensures Coherent(Implies(a, c), ask,
              Layout(_ => 0, t => if t == a then Bid(ask, a) else Max(Bid(ask, a), Bid(ask, c))).Draws(PRICE_SCALE))
  {
    var r := Implies(a, c);
    assert QuotedAt(ask, a) && QuotedAt(ask, c) by {
      assert a in r.Tickers() && c in r.Tickers();
    }
    PairCost(a, c, ask);
    Unbeaten(r, ask, ImpliesConstraint(a, c));
    LayoutCoherent(r, ask, Layout(_ => 0, t => if t == a then Bid(ask, a) else Max(Bid(ask, a), Bid(ask, c))));
  }

  lemma ComplementLayout(t: Ticker, ask: AskFn)
    requires FullyQuoted(Complement(t), ask)
    ensures Coherent(Complement(t), ask, Layout(_ => 0, _ => Bid(ask, t)).Draws(PRICE_SCALE))
  {
    assert QuotedAt(ask, t) by {
      assert t in Complement(t).Tickers();
    }
    LayoutCoherent(Complement(t), ask, Layout(_ => 0, _ => Bid(ask, t)));
  }

  /** The parts' layout, and the whole on the first `width` ticks. */
  function UnionStack(ps: seq<Ticker>, whole: Ticker, m: Lengths, width: int): Layout {
    var l := Stack(ps, m, width);
    Layout(t => if t == whole then 0 else l.lo(t), t => if t == whole then width else l.hi(t))
  }

  lemma UnionStackAgrees(ps: seq<Ticker>, whole: Ticker, m: Lengths, width: int, tick: int)
    requires whole !in ps
    ensures Count(ps, UnionStack(ps, whole, m, width).At(tick)) == Count(ps, Stack(ps, m, width).At(tick))
    ensures forall t | t in ps :: UnionStack(ps, whole, m, width).At(tick)(t) == Stack(ps, m, width).At(tick)(t)
  {
    CountSame(ps, UnionStack(ps, whole, m, width).At(tick), Stack(ps, m, width).At(tick));
  }

  lemma QuotedParts(ps: seq<Ticker>, whole: Ticker, disjoint: bool, ask: AskFn)
    requires FullyQuoted(Union(ps, whole, disjoint), ask)
    ensures QuotedAt(ask, whole) && forall t | t in ps :: QuotedAt(ask, t)
  {
    var r := Union(ps, whole, disjoint);
    assert r.Tickers()[|ps|] == whole;
    forall t | t in ps
      ensures QuotedAt(ask, t)
    {
      assert t in r.Tickers();
    }
  }

  /** Nothing of the stack reaches the width or beyond. */
  lemma StackEmptyAbove(ps: seq<Ticker>, m: Lengths, width: int, tick: int)
    requires tick >= width
    ensures forall i | 0 <= i < |ps| :: !Stack(ps, m, width).At(tick)(ps[i])
  {
  }

  /** What the three constraints of a disjoint union say about the bids and asks. */
  lemma DisjointUnionBounds(ps: seq<Ticker>, whole: Ticker, ask: AskFn)
    requires var r := Union(ps, whole, true); r.Valid() && FullyQuoted(r, ask) && Unviolated(r, ask)
    ensures Bid(ask, whole) <= Total(ps, Asks(ask))
    ensures Total(ps, Bids(ask)) <= Ask(ask, whole)
    ensures Total(ps, Bids(ask)) <= PRICE_SCALE
  {
    hide Total, TopCost;
    var r := Union(ps, whole, true);
    var cs := r.Constraints();
    QuotedParts(ps, whole, true, ask);
    UnionCosts(ps, whole, ask);
    MutexCost(ps, ask);
    assert cs[0] in cs && cs[1] in cs && cs[2] in cs;
    Unbeaten(r, ask, cs[0]);
    Unbeaten(r, ask, cs[1]);
    Unbeaten(r, ask, cs[2]);
  }

  lemma PartWithinTotal(ps: seq<Ticker>, m: Lengths, t: Ticker)
    requires t in ps && forall s | s in ps :: m(s) >= 0
    ensures m(t) <= Total(ps, m)
  {
    var i := IndexOf(ps, t);
    TotalMono(ps, m, 0, i);
    TotalMono(ps, m, i + 1, |ps|);
    assert ps[..i + 1][..i] == ps[..i] && ps[..|ps|] == ps;
  }

  lemma DisjointUnionLayout(ps: seq<Ticker>, whole: Ticker, ask: AskFn) returns (l: Layout)
    requires var r := Union(ps, whole, true); r.Valid() && FullyQuoted(r, ask) && Unviolated(r, ask)
    ensures Coherent(Union(ps, whole, true), ask, l.Draws(PRICE_SCALE))
  {
    hide Unviolated, Coherent, Total, Greedy, Stack, Count;
    var r := Union(ps, whole, true);
    QuotedParts(ps, whole, true, ask);
    DisjointUnionBounds(ps, whole, ask);
    TotalLe(ps, Bids(ask), Asks(ask));
    var width := Max(Bid(ask, whole), Total(ps, Bids(ask)));
    GreedyFills(ps, Bids(ask), Asks(ask), width);
    var m := From(Greedy(ps, Bids(ask), Asks(ask), width));
    forall t | t in ps
      ensures m(t) <= width
    {
      PartWithinTotal(ps, m, t);
    }
    StackFits(ps, ask, m, width);
    l := UnionStack(ps, whole, m, width);
    forall k | 0 <= k < PRICE_SCALE
      ensures r.Admissible(l.At(k))
    {
      StackCounts(ps, m, width, k, |ps|);
      assert ps[..|ps|] == ps;
      UnionStackAgrees(ps, whole, m, width, k);
      CountAny(ps, l.At(k));
    }
    LayoutCoherent(r, ask, l);
  }

  /** What the constraints of an overlapping union say about the bids and asks. */
  lemma OverlapUnionBounds(ps: seq<Ticker>, whole: Ticker, ask: AskFn)
    requires var r := Union(ps, whole, false); r.Valid() && FullyQuoted(r, ask) && Unviolated(r, ask)
    ensures Bid(ask, whole) <= Total(ps, Asks(ask))
    ensures forall t | t in ps :: Bid(ask, t) <= Ask(ask, whole)
  {
    hide Total, TopCost, TopSizes, Relation.Constraints, UnionCover, ImpliesConstraint, Constraint.Check, Unviolated;
    var r := Union(ps, whole, false);
    QuotedParts(ps, whole, false, ask);
    UnionCosts(ps, whole, ask);
    UnionShapes(r, UnionCover(ps, whole));
    Unbeaten(r, ask, UnionCover(ps, whole));
    forall t | t in ps
      ensures Bid(ask, t) <= Ask(ask, whole)
    {
      var i := IndexOf(ps, t);
      PairCost(t, whole, ask);
      UnionShapes(r, ImpliesConstraint(ps[i], whole));
      LegsOfRelation(r, ImpliesConstraint(t, whole));
      Unbeaten(r, ask, ImpliesConstraint(t, whole));
    }
  }

  lemma OverlapUnionLayout(ps: seq<Ticker>, whole: Ticker, ask: AskFn) returns (l: Layout)
    requires var r := Union(ps, whole, false); r.Valid() && FullyQuoted(r, ask) && Unviolated(r, ask)
    ensures Coherent(Union(ps, whole, false), ask, l.Draws(PRICE_SCALE))
  {
    hide Unviolated, Coherent, Total, Crest;
    var r := Union(ps, whole, false);
    QuotedParts(ps, whole, false, ask);
    OverlapUnionBounds(ps, whole, ask);
    CrestBounds(ps, Bids(ask), Ask(ask, whole));
    var width := Max(Bid(ask, whole), Crest(ps, Bids(ask)));
    var m: Lengths := t => Min(Ask(ask, t), width);
    WideEnough(ps, whole, ask, m, width);
    StackFits(ps, ask, m, width);
    l := UnionStack(ps, whole, m, width);
    forall k | 0 <= k < PRICE_SCALE
      ensures r.Admissible(l.At(k))
    {
      OverlapAdmits(ps, whole, m, width, k);
    }
    LayoutCoherent(r, ask, l);
  }

  lemma OverlapAdmits(ps: seq<Ticker>, whole: Ticker, m: Lengths, width: int, k: int)
    requires Distinct(ps) && whole !in ps && k >= 0 && width <= Total(ps, m)
    requires forall t | t in ps :: 0 <= m(t) <= width
    ensures Union(ps, whole, false).Admissible(UnionStack(ps, whole, m, width).At(k))
  {
    hide Total, Stack;
    UnionStackAgrees(ps, whole, m, width, k);
    if k < width {
      assert ps[..|ps|] == ps;
      StackCovers(ps, m, width, k, |ps|);
      var i :| 0 <= i < |ps| && Stack(ps, m, width).At(k)(ps[i]);
      assert UnionStack(ps, whole, m, width).At(k)(ps[i]);
    } else {
      StackEmptyAbove(ps, m, width, k);
    }
  }

  /** Cut to the width of the union, the asks still cover it. */
  lemma WideEnough(ps: seq<Ticker>, whole: Ticker, ask: AskFn, m: Lengths, width: int)
    requires ps != [] && (forall t | t in ps :: QuotedAt(ask, t)) && QuotedAt(ask, whole)
    requires width == Max(Bid(ask, whole), Crest(ps, Bids(ask)))
    requires Bid(ask, whole) <= Total(ps, Asks(ask))
    requires forall t :: m(t) == Min(Ask(ask, t), width)
    ensures Total(ps, m) >= width
  {
    CrestReached(ps, Bids(ask));
    if t :| t in ps && Ask(ask, t) >= width {
      PartWithinTotal(ps, m, t);
    } else {
      TotalSame(ps, m, Asks(ask));
      assert forall i | 0 <= i < |ps| :: ps[i] in ps && QuotedAt(ask, ps[i]);
    }
  }

  lemma {:induction false} CrestReached(ms: seq<Ticker>, b: Lengths)
    ensures Crest(ms, b) == 0 || exists i :: 0 <= i < |ms| && b(ms[i]) == Crest(ms, b)
  {
    if ms != [] {
      var n := |ms| - 1;
      CrestReached(ms[..n], b);
      if Crest(ms, b) == b(ms[n]) {
      } else if Crest(ms[..n], b) != 0 {
        var i :| 0 <= i < n && b(ms[..n][i]) == Crest(ms[..n], b);
        assert b(ms[i]) == Crest(ms, b);
      }
    }
  }

  // ---------------------------------------------------------------- the oracle

  /** No arbitrage is missed and none invented: with every leg quoted and no book crossed, no
      constraint shows a positive margin exactly when some distribution over the admissible worlds
      fits inside every bid/ask. */
  lemma NoneMissedNoneInvented(r: Relation, ask: AskFn)
    requires r.Valid() && FullyQuoted(r, ask)
    ensures Unviolated(r, ask) <==> exists d: seq<Draw> :: Coherent(r, ask, d)
  {
    if Unviolated(r, ask) {
      match r
      case Complement(t) => ComplementLayout(t, ask);
      case MutuallyExclusive(ms) => MutexLayout(ms, ask);
      case Exhaustive(ms) => ExhaustiveLayout(ms, ask);
      case Partition(ms) => var l := PartitionLayout(ms, ask);
      case Implies(a, c) => ImpliesLayout(a, c, ask);
      case Chain(ms) => ChainLayout(ms, ask);
      case Union(ps, whole, disjoint) =>
        if disjoint {
          var l := DisjointUnionLayout(ps, whole, ask);
        } else {
          var l := OverlapUnionLayout(ps, whole, ask);
        }
    }
    if d: seq<Draw> :| Coherent(r, ask, d) {
      CoherentIsUnviolated(r, ask, d);
    }
  }

  function Ladder(c: Contract): Option<Level> {
    if c.ticker == "a" then Some(Level(if c.side.YES? then 6_000 else 5_000, 100))
    else if c.ticker == "b" then Some(Level(9_000, 100))
    else Some(Level(if c.side.YES? then 2_000 else 9_000, 100))
  }

  /** Neighbours alone do not suffice: a three-rung ladder whose adjacent pairs are all consistent
      and which no distribution fits. */
  lemma AdjacentPairsMiss()
    ensures var r := Chain(["a", "b", "c"]);
            && r.Valid() && FullyQuoted(r, Ladder)
            && !exists d: seq<Draw> :: Coherent(r, Ladder, d)
    ensures Unviolated(Implies("a", "b"), Ladder) && Unviolated(Implies("b", "c"), Ladder)
  {
    hide AllPairs, TopCost, Coherent;
    var ms := ["a", "b", "c"];
    assert "a"[0] != "b"[0] && "b"[0] != "c"[0] && "a"[0] != "c"[0];
    PairCost("a", "b", Ladder);
    PairCost("b", "c", Ladder);
    LadderViolated(ms);
    NoneMissedNoneInvented(Chain(ms), Ladder);
  }

  lemma LadderViolated(ms: seq<Ticker>)
    requires ms == ["a", "b", "c"] && Chain(ms).Valid()
    ensures !Unviolated(Chain(ms), Ladder)
  {
    hide AllPairs, TopCost;
    PairIn(ms, 0, 2);
    assert "a"[0] != "b"[0] && "b"[0] != "c"[0] && "a"[0] != "c"[0];
    PairCost("a", "c", Ladder);
    var skip := ImpliesConstraint("a", "c");
    assert skip in Chain(ms).Constraints();
    assert skip.Valid() && skip.Check(Ladder).Some? && skip.Check(Ladder).value.margin > 0;
  }
}
