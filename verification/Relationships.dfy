/** market/relationships.py: logical relations between markets, compiled to buy-only constraints. */
module Relationships {
  import opened Units

  /** Which markets resolve YES. */
  type World = Ticker -> bool

  datatype Leg = Leg(contract: Contract, qty: Qty)

  datatype Kind = COMPLEMENT | MUTEX | EXHAUSTIVE | IMPLIES | UNION

  type AskFn = Contract -> Option<Level>

  datatype Priced = Priced(cost: Price, margin: Price, topQty: Qty)

  function Yes(t: Ticker): Leg {
    Leg(Contract(t, YES), 1)
  }

  function No(t: Ticker): Leg {
    Leg(Contract(t, NO), 1)
  }

  function YesLegs(ms: seq<Ticker>): seq<Leg> {
    seq(|ms|, i requires 0 <= i < |ms| => Yes(ms[i]))
  }

  function NoLegs(ms: seq<Ticker>): seq<Leg> {
    seq(|ms|, i requires 0 <= i < |ms| => No(ms[i]))
  }

  /** Buying `qty` of each leg pays at least `bound` ticks in every admissible world. */
  datatype Constraint = Constraint(kind: Kind, legs: seq<Leg>, bound: Price) {
    function WorldPayoff(w: World): int {
      BundlePayoff(legs, t => if w(t) then PRICE_SCALE else 0)
    }

    predicate Quoted(ask: AskFn) {
      forall i | 0 <= i < |legs| :: ask(legs[i].contract).Some?
    }

    /** Price the bundle at the best asks; None when a leg has nothing to buy. */
    function Check(ask: AskFn): Option<Priced>
      requires legs != [] && forall i | 0 <= i < |legs| :: legs[i].qty >= 1
    {
      if Quoted(ask) then
        var cost := TopCost(legs, ask);
        Some(Priced(cost, bound - cost, MinOf(TopSizes(legs, ask))))
      else None
    }

    predicate Valid() {
      legs != [] && forall i | 0 <= i < |legs| :: legs[i].qty >= 1
    }
  }

  function BundlePayoff(legs: seq<Leg>, settlement: Ticker -> Price): int {
    if legs == [] then 0
    else BundlePayoff(legs[..|legs| - 1], settlement)
         + legs[|legs| - 1].qty * Payoff(legs[|legs| - 1].contract.side, settlement(legs[|legs| - 1].contract.ticker))
  }

  function TopCost(legs: seq<Leg>, ask: AskFn): Price
    requires forall i | 0 <= i < |legs| :: ask(legs[i].contract).Some?
  {
    if legs == [] then 0
    else TopCost(legs[..|legs| - 1], ask)
         + legs[|legs| - 1].qty * ask(legs[|legs| - 1].contract).value.price
  }

  function TopSizes(legs: seq<Leg>, ask: AskFn): seq<Qty>
    requires forall i | 0 <= i < |legs| :: legs[i].qty >= 1 && ask(legs[i].contract).Some?
  {
    seq(|legs|, i requires 0 <= i < |legs| => ask(legs[i].contract).value.qty / legs[i].qty)
  }

  /** The quantity a check reports is the greatest number of bundles the best asks alone can fill. */
  lemma TopQtyMeans(c: Constraint, ask: AskFn, n: Qty)
    requires c.Valid() && c.Quoted(ask)
    ensures c.Check(ask).Some?
    ensures n <= c.Check(ask).value.topQty
       <==> forall i | 0 <= i < |c.legs| :: c.legs[i].qty * n <= ask(c.legs[i].contract).value.qty
  {
    var sizes := TopSizes(c.legs, ask);
    forall i | 0 <= i < |c.legs|
      ensures c.legs[i].qty * n <= ask(c.legs[i].contract).value.qty <==> n <= sizes[i]
    {
      FloorAtMost(ask(c.legs[i].contract).value.qty, c.legs[i].qty, n);
    }
    if forall i | 0 <= i < |c.legs| :: c.legs[i].qty * n <= ask(c.legs[i].contract).value.qty {
      var i :| 0 <= i < |sizes| && sizes[i] == MinOf(sizes);
    } else {
      var i :| 0 <= i < |c.legs| && !(c.legs[i].qty * n <= ask(c.legs[i].contract).value.qty);
      assert sizes[i] in sizes;
    }
  }

  lemma FloorAtMost(size: Qty, per: Qty, n: Qty)
    requires per >= 1
    ensures per * n <= size <==> n <= size / per
  {
    var q := size / per;
    assert q * per <= size < q * per + per;
    if n <= q {
      assert per * n <= per * q;
    } else {
      assert per * n >= per * (q + 1);
    }
  }

  /** `Constraint.payoff`: the accumulating loop. */
  method PayoffLoop(c: Constraint, settlement: Ticker -> Price) returns (total: int)
    ensures total == BundlePayoff(c.legs, settlement)
  {
    total := 0;
    for i := 0 to |c.legs|
      invariant total == BundlePayoff(c.legs[..i], settlement)
    {
      assert c.legs[..i + 1][..i] == c.legs[..i];
      var yes := settlement(c.legs[i].contract.ticker);
      total := total + c.legs[i].qty * (if c.legs[i].contract.side == YES then yes else PRICE_SCALE - yes);
    }
    assert c.legs[..|c.legs|] == c.legs;
  }

  /** `Constraint.check`: collect the best asks, give up on the first leg without an offer. */
  method CheckLoop(c: Constraint, ask: AskFn) returns (r: Option<Priced>)
    requires c.Valid()
    ensures r == c.Check(ask)
  {
    var prices: seq<Level> := [];
    for i := 0 to |c.legs|
      invariant |prices| == i
      invariant forall j | 0 <= j < i :: ask(c.legs[j].contract) == Some(prices[j])
    {
      var lv := ask(c.legs[i].contract);
      if lv.None? {
        return None;
      }
      prices := prices + [lv.value];
    }
    var cost, sizes := 0, [];
    for i := 0 to |c.legs|
      invariant cost == TopCost(c.legs[..i], ask)
      invariant |sizes| == i && forall j | 0 <= j < i :: sizes[j] == prices[j].qty / c.legs[j].qty
    {
      assert c.legs[..i + 1][..i] == c.legs[..i];
      cost := cost + c.legs[i].qty * prices[i].price;
      sizes := sizes + [prices[i].qty / c.legs[i].qty];
    }
    assert c.legs[..|c.legs|] == c.legs;
    assert sizes == TopSizes(c.legs, ask);
    return Some(Priced(cost, c.bound - cost, MinOf(sizes)));
  }

  // ---------------------------------------------------------------- relations

  predicate Distinct(ms: seq<Ticker>) {
    forall i, j | 0 <= i < j < |ms| :: ms[i] != ms[j]
  }

  function Count(ms: seq<Ticker>, w: World): nat {
    if ms == [] then 0 else Count(ms[..|ms| - 1], w) + (if w(ms[|ms| - 1]) then 1 else 0)
  }

  function MutexConstraint(ms: seq<Ticker>): Constraint {
    Constraint(MUTEX, NoLegs(ms), (|ms| - 1) * PRICE_SCALE)
  }

  function CoverConstraint(ms: seq<Ticker>): Constraint {
    Constraint(EXHAUSTIVE, YesLegs(ms), PRICE_SCALE)
  }

  function ImpliesConstraint(a: Ticker, c: Ticker): Constraint {
    Constraint(IMPLIES, [Yes(c), No(a)], PRICE_SCALE)
  }

  /** The pair constraints of m against each later market. */
  function PairsWith(m: Ticker, later: seq<Ticker>): seq<Constraint> {
    seq(|later|, i requires 0 <= i < |later| => ImpliesConstraint(m, later[i]))
  }

  /** `itertools.combinations(markets, 2)`, compiled. */
  function AllPairs(ms: seq<Ticker>): seq<Constraint> {
    if ms == [] then [] else PairsWith(ms[0], ms[1..]) + AllPairs(ms[1..])
  }

  /** The whole is worth at most its parts together. */
  function UnionCover(parts: seq<Ticker>, whole: Ticker): Constraint {
    Constraint(UNION, [No(whole)] + YesLegs(parts), PRICE_SCALE)
  }

  /** Disjoint parts together are worth at most the whole. */
  function UnionCap(parts: seq<Ticker>, whole: Ticker): Constraint {
    Constraint(UNION, [Yes(whole)] + NoLegs(parts), |parts| * PRICE_SCALE)
  }

  function EachImplies(parts: seq<Ticker>, whole: Ticker): seq<Constraint> {
    seq(|parts|, i requires 0 <= i < |parts| => ImpliesConstraint(parts[i], whole))
  }

  datatype Relation =
    | Complement(market: Ticker)
    | MutuallyExclusive(markets: seq<Ticker>)
    | Exhaustive(markets: seq<Ticker>)
    | Partition(markets: seq<Ticker>)
    | Implies(antecedent: Ticker, consequent: Ticker)
    | Chain(markets: seq<Ticker>)
    | Union(parts: seq<Ticker>, whole: Ticker, disjoint: bool)
  {
    /** What the constructors insist on. */
    predicate Valid() {
      match this
      case Complement(_) => true
      case MutuallyExclusive(ms) => Distinct(ms) && |ms| >= 2
      case Exhaustive(ms) => Distinct(ms) && |ms| >= 2
      case Partition(ms) => Distinct(ms) && |ms| >= 2
      case Implies(a, c) => a != c
      case Chain(ms) => Distinct(ms) && |ms| >= 2
      case Union(ps, whole, _) => Distinct(ps) && |ps| >= 2 && whole !in ps
    }

    function Tickers(): seq<Ticker> {
      match this
      case Complement(t) => [t]
      case MutuallyExclusive(ms) => ms
      case Exhaustive(ms) => ms
      case Partition(ms) => ms
      case Implies(a, c) => [a, c]
      case Chain(ms) => ms
      case Union(ps, whole, _) => ps + [whole]
    }

    function Constraints(): seq<Constraint> {
      match this
      case Complement(t) => [Constraint(COMPLEMENT, [Yes(t), No(t)], PRICE_SCALE)]
      case MutuallyExclusive(ms) => [MutexConstraint(ms)]
      case Exhaustive(ms) => [CoverConstraint(ms)]
      case Partition(ms) => [MutexConstraint(ms), CoverConstraint(ms)]
      case Implies(a, c) => [ImpliesConstraint(a, c)]
      case Chain(ms) => AllPairs(ms)
      case Union(ps, whole, disjoint) =>
        if disjoint then [UnionCover(ps, whole), UnionCap(ps, whole), MutexConstraint(ps)]
        else [UnionCover(ps, whole)] + EachImplies(ps, whole)
    }

    predicate Admissible(w: World) {
      match this
      case Complement(_) => true
      case MutuallyExclusive(ms) => Count(ms, w) <= 1
      case Exhaustive(ms) => Count(ms, w) >= 1
      case Partition(ms) => Count(ms, w) == 1
      case Implies(a, c) => !(w(a) && !w(c))
      case Chain(ms) => forall i | 0 <= i < |ms| - 1 :: w(ms[i]) ==> w(ms[i + 1])
      case Union(ps, whole, disjoint) =>
        && (w(whole) <==> exists i :: 0 <= i < |ps| && w(ps[i]))
        && (disjoint ==> Count(ps, w) <= 1)
    }
  }

  // ---------------------------------------------------------------- what the legs pay

  lemma {:induction false} PayoffAppend(a: seq<Leg>, b: seq<Leg>, s: Ticker -> Price)
    ensures BundlePayoff(a + b, s) == BundlePayoff(a, s) + BundlePayoff(b, s)
  {
    if b == [] {
      assert a + b == a;
    } else {
      assert (a + b)[..|a + b| - 1] == a + b[..|b| - 1];
      PayoffAppend(a, b[..|b| - 1], s);
    }
  }

  function Ticks(w: World): Ticker -> Price {
    t => if w(t) then PRICE_SCALE else 0
  }

  lemma {:induction false} SidePayoffs(ms: seq<Ticker>, w: World)
    ensures BundlePayoff(YesLegs(ms), Ticks(w)) == PRICE_SCALE * Count(ms, w)
    ensures BundlePayoff(NoLegs(ms), Ticks(w)) == PRICE_SCALE * (|ms| - Count(ms, w))
  {
    if ms != [] {
      var n := |ms| - 1;
      SidePayoffs(ms[..n], w);
      assert YesLegs(ms)[..n] == YesLegs(ms[..n]);
      assert NoLegs(ms)[..n] == NoLegs(ms[..n]);
    }
  }

  lemma OneLeg(l: Leg, s: Ticker -> Price)
    ensures BundlePayoff([l], s) == l.qty * Payoff(l.contract.side, s(l.contract.ticker))
  {
    assert [l][..0] == [];
  }

  lemma PairPayoff(a: Ticker, c: Ticker, w: World)
    ensures ImpliesConstraint(a, c).WorldPayoff(w)
         == PRICE_SCALE * ((if w(c) then 1 else 0) + (if w(a) then 0 else 1))
  {
    PayoffAppend([Yes(c)], [No(a)], Ticks(w));
    OneLeg(Yes(c), Ticks(w));
    OneLeg(No(a), Ticks(w));
    assert [Yes(c)] + [No(a)] == [Yes(c), No(a)];
  }

  lemma UnionPayoffs(ps: seq<Ticker>, whole: Ticker, w: World)
    ensures BundlePayoff([No(whole)] + YesLegs(ps), Ticks(w))
         == PRICE_SCALE * ((if w(whole) then 0 else 1) + Count(ps, w))
    ensures BundlePayoff([Yes(whole)] + NoLegs(ps), Ticks(w))
         == PRICE_SCALE * ((if w(whole) then 1 else 0) + |ps| - Count(ps, w))
  {
    PayoffAppend([No(whole)], YesLegs(ps), Ticks(w));
    PayoffAppend([Yes(whole)], NoLegs(ps), Ticks(w));
    OneLeg(No(whole), Ticks(w));
    OneLeg(Yes(whole), Ticks(w));
    SidePayoffs(ps, w);
  }

  lemma {:induction false} CountAny(ms: seq<Ticker>, w: World)
    ensures Count(ms, w) >= 1 <==> exists i :: 0 <= i < |ms| && w(ms[i])
    ensures Count(ms, w) <= |ms|
  {
    if ms != [] {
      var n := |ms| - 1;
      CountAny(ms[..n], w);
      if i :| 0 <= i < n && w(ms[i]) {
        assert ms[..n][i] == ms[i];
      }
      if Count(ms[..n], w) >= 1 {
        var i :| 0 <= i < n && w(ms[..n][i]);
        assert w(ms[i]);
      }
    }
  }

  // ---------------------------------------------------------------- pairs of a chain

  lemma {:induction false} PairIn(ms: seq<Ticker>, i: nat, j: nat)
    requires i < j < |ms|
    ensures ImpliesConstraint(ms[i], ms[j]) in AllPairs(ms)
    decreases |ms|
  {
    var tail := ms[1..];
    if i == 0 {
      assert PairsWith(ms[0], tail)[j - 1] == ImpliesConstraint(ms[0], ms[j]);
    } else {
      PairIn(tail, i - 1, j - 1);
    }
  }

  lemma {:induction false} OnlyPairs(ms: seq<Ticker>, c: Constraint)
    requires c in AllPairs(ms)
    ensures IsPair(c, ms)
  {
    var tail := ms[1..];
    if c in PairsWith(ms[0], tail) {
      var k :| 0 <= k < |tail| && PairsWith(ms[0], tail)[k] == c;
      assert c == ImpliesConstraint(ms[0], ms[k + 1]);
    } else {
      OnlyPairs(tail, c);
      var i, j :| 0 <= i < j < |tail| && c == ImpliesConstraint(tail[i], tail[j]);
      assert c == ImpliesConstraint(ms[i + 1], ms[j + 1]);
    }
  }

  ghost predicate IsPair(c: Constraint, ms: seq<Ticker>) {
    exists i, j :: 0 <= i < j < |ms| && c == ImpliesConstraint(ms[i], ms[j])
  }

  lemma {:induction false} ChainClimbs(ms: seq<Ticker>, w: World, i: nat, j: nat)
    requires Chain(ms).Admissible(w) && i <= j < |ms| && w(ms[i])
    ensures w(ms[j])
    decreases j - i
  {
    if i < j {
      ChainClimbs(ms, w, i + 1, j);
    }
  }

  // ---------------------------------------------------------------- the compilation is correct

  ghost predicate Holds(c: Constraint, w: World) {
    c.WorldPayoff(w) >= c.bound
  }

  /** Soundness: an admissible world satisfies every constraint. */
  lemma Sound(r: Relation, w: World, c: Constraint)
    requires r.Valid() && r.Admissible(w) && c in r.Constraints()
    ensures Holds(c, w)
  {
    CompiledMeaning(r, w, c);
  }

  /** Each compiled constraint says, in every world, exactly one conjunct of the relation. */
  ghost predicate Meaning(r: Relation, w: World, c: Constraint) {
    match r
    case Complement(_) => Holds(c, w)
    case MutuallyExclusive(ms) => Holds(c, w) <==> Count(ms, w) <= 1
    case Exhaustive(ms) => Holds(c, w) <==> Count(ms, w) >= 1
    case Partition(ms) =>
      if c == MutexConstraint(ms) then Holds(c, w) <==> Count(ms, w) <= 1
      else Holds(c, w) <==> Count(ms, w) >= 1
    case Implies(a, b) => Holds(c, w) <==> (w(a) ==> w(b))
    case Chain(ms) =>
      exists i, j :: 0 <= i < j < |ms| && c == ImpliesConstraint(ms[i], ms[j])
                     && (Holds(c, w) <==> (w(ms[i]) ==> w(ms[j])))
    case Union(ps, whole, disjoint) =>
      if c == UnionCover(ps, whole) then
        Holds(c, w) <==> (w(whole) ==> Count(ps, w) >= 1)
      else if c == MutexConstraint(ps) then Holds(c, w) <==> Count(ps, w) <= 1
      else if c == UnionCap(ps, whole) then
        Holds(c, w) <==> Count(ps, w) <= (if w(whole) then 1 else 0)
      else
        exists i :: 0 <= i < |ps| && c == ImpliesConstraint(ps[i], whole)
                    && (Holds(c, w) <==> (w(ps[i]) ==> w(whole)))
  }

  lemma CompiledMeaning(r: Relation, w: World, c: Constraint)
    requires r.Valid() && c in r.Constraints()
    ensures Meaning(r, w, c)
    ensures r.Admissible(w) ==> Holds(c, w)
  {
    hide BundlePayoff, Count, YesLegs, NoLegs;
    match r
    case Complement(t) => ComplementPays(t, w);
    case MutuallyExclusive(ms) => SidePayoffs(ms, w);
    case Exhaustive(ms) => SidePayoffs(ms, w);
    case Partition(ms) => SidePayoffs(ms, w);
    case Implies(a, b) => PairPayoff(a, b, w);
    case Chain(ms) => ChainMeaning(ms, w, c);
    case Union(ps, whole, disjoint) => UnionMeaning(r, w, c);
  }

  lemma ComplementPays(t: Ticker, w: World)
    ensures Constraint(COMPLEMENT, [Yes(t), No(t)], PRICE_SCALE).WorldPayoff(w) == PRICE_SCALE
  {
    PayoffAppend([Yes(t)], [No(t)], Ticks(w));
    OneLeg(Yes(t), Ticks(w));
    OneLeg(No(t), Ticks(w));
    assert [Yes(t)] + [No(t)] == [Yes(t), No(t)];
  }

  lemma ChainMeaning(ms: seq<Ticker>, w: World, c: Constraint)
    requires Chain(ms).Valid() && c in AllPairs(ms)
    ensures Meaning(Chain(ms), w, c)
    ensures Chain(ms).Admissible(w) ==> Holds(c, w)
  {
    hide BundlePayoff;
    OnlyPairs(ms, c);
    var i, j :| 0 <= i < j < |ms| && c == ImpliesConstraint(ms[i], ms[j]);
    PairPayoff(ms[i], ms[j], w);
    if Chain(ms).Admissible(w) && w(ms[i]) {
      ChainClimbs(ms, w, i, j);
    }
  }

  lemma EachMeans(ps: seq<Ticker>, whole: Ticker, c: Constraint)
    ensures c in EachImplies(ps, whole) <==> exists i :: 0 <= i < |ps| && c == ImpliesConstraint(ps[i], whole)
  {
    hide ImpliesConstraint;
    var each := EachImplies(ps, whole);
    if i :| 0 <= i < |ps| && c == ImpliesConstraint(ps[i], whole) {
      assert each[i] == c;
    }
  }

  lemma UnionShapes(r: Relation, c: Constraint)
    requires r.Valid() && r.Union?
    ensures c in r.Constraints() <==>
            || c == UnionCover(r.parts, r.whole)
            || (r.disjoint && (c == UnionCap(r.parts, r.whole) || c == MutexConstraint(r.parts)))
            || (!r.disjoint && exists i :: 0 <= i < |r.parts| && c == ImpliesConstraint(r.parts[i], r.whole))
  {
    EachMeans(r.parts, r.whole, c);
    hide UnionCover, UnionCap, MutexConstraint, ImpliesConstraint, EachImplies;
    if r.disjoint {
      var cs := r.Constraints();
      assert cs[0] in cs && cs[1] in cs && cs[2] in cs;
    }
  }

  /** The four kinds of union constraint, told apart and read off in one world. */
  lemma UnionKinds(ps: seq<Ticker>, whole: Ticker, part: Ticker)
    ensures UnionCap(ps, whole) != UnionCover(ps, whole)
    ensures UnionCover(ps, whole) != MutexConstraint(ps) && UnionCap(ps, whole) != MutexConstraint(ps)
    ensures ImpliesConstraint(part, whole) != UnionCap(ps, whole)
    ensures ImpliesConstraint(part, whole) != UnionCover(ps, whole) && ImpliesConstraint(part, whole) != MutexConstraint(ps)
  {
    assert UnionCap(ps, whole).legs[0] != UnionCover(ps, whole).legs[0];
    assert UnionCover(ps, whole).kind != MutexConstraint(ps).kind;
  }

  lemma UnionHolds(ps: seq<Ticker>, whole: Ticker, part: Ticker, w: World)
    ensures Holds(UnionCover(ps, whole), w) <==> (w(whole) ==> Count(ps, w) >= 1)
    ensures Holds(UnionCap(ps, whole), w) <==> Count(ps, w) <= (if w(whole) then 1 else 0)
    ensures Holds(MutexConstraint(ps), w) <==> Count(ps, w) <= 1
    ensures Holds(ImpliesConstraint(part, whole), w) <==> (w(part) ==> w(whole))
  {
    hide BundlePayoff, Count, YesLegs, NoLegs;
    UnionPayoffs(ps, whole, w);
    SidePayoffs(ps, w);
    PairPayoff(part, whole, w);
    assert ImpliesConstraint(part, whole).bound == PRICE_SCALE;
  }

  lemma UnionMeaning(r: Relation, w: World, c: Constraint)
    requires r.Valid() && r.Union? && c in r.Constraints()
    ensures Meaning(r, w, c)
    ensures r.Admissible(w) ==> Holds(c, w)
  {
    hide Holds, Count, UnionCover, UnionCap, MutexConstraint, ImpliesConstraint, Relation.Constraints;
    var ps, whole := r.parts, r.whole;
    UnionShapes(r, c);
    CountAny(ps, w);
    UnionKinds(ps, whole, ps[0]);
    UnionHolds(ps, whole, ps[0], w);
    if !r.disjoint && c != UnionCover(ps, whole) {
      var i :| 0 <= i < |ps| && c == ImpliesConstraint(ps[i], whole);
      UnionKinds(ps, whole, ps[i]);
      UnionHolds(ps, whole, ps[i], w);
    }
  }

  lemma ChainRefutes(r: Relation, w: World)
    requires r.Valid() && r.Chain? && !r.Admissible(w)
    ensures exists c :: c in r.Constraints() && !Holds(c, w)
  {
    var ms := r.markets;
    var i :| 0 <= i < |ms| - 1 && w(ms[i]) && !w(ms[i + 1]);
    PairIn(ms, i, i + 1);
    hide AllPairs;
    PairPayoff(ms[i], ms[i + 1], w);
    assert ImpliesConstraint(ms[i], ms[i + 1]) in r.Constraints();
  }

  lemma UnionRefutes(r: Relation, w: World)
    requires r.Valid() && r.Union? && !r.Admissible(w)
    ensures exists c :: c in r.Constraints() && !Holds(c, w)
  {
    hide Holds, Count, UnionCover, UnionCap, MutexConstraint, ImpliesConstraint, Relation.Constraints;
    var ps, whole := r.parts, r.whole;
    CountAny(ps, w);
    UnionHolds(ps, whole, ps[0], w);
    UnionShapes(r, UnionCover(ps, whole));
    UnionShapes(r, UnionCap(ps, whole));
    UnionShapes(r, MutexConstraint(ps));
    if !(w(whole) && Count(ps, w) == 0) && !r.disjoint {
      var i :| 0 <= i < |ps| && w(ps[i]);
      UnionHolds(ps, whole, ps[i], w);
      UnionShapes(r, ImpliesConstraint(ps[i], whole));
    }
  }

  /** Characterisation: an inadmissible world violates some constraint. */
  lemma Characterises(r: Relation, w: World)
    requires r.Valid() && !r.Admissible(w)
    ensures exists c :: c in r.Constraints() && !Holds(c, w)
  {
    match r
    case Complement(_) =>
    case MutuallyExclusive(ms) =>
      Refutes(r, w, MutexConstraint(ms));
    case Exhaustive(ms) =>
      Refutes(r, w, CoverConstraint(ms));
    case Partition(ms) =>
      hide BundlePayoff;
      SidePayoffs(ms, w);
      Refutes(r, w, if Count(ms, w) > 1 then MutexConstraint(ms) else CoverConstraint(ms));
    case Implies(a, b) =>
      Refutes(r, w, ImpliesConstraint(a, b));
    case Chain(_) =>
      ChainRefutes(r, w);
    case Union(_, _, _) =>
      UnionRefutes(r, w);
  }

  lemma Refutes(r: Relation, w: World, c: Constraint)
    requires r.Valid() && c in r.Constraints() && !r.Admissible(w)
    requires r.MutuallyExclusive? || r.Exhaustive? || r.Implies?
             || (r.Partition? && (Count(r.markets, w) > 1 <==> c == MutexConstraint(r.markets)))
    ensures !Holds(c, w)
  {
    CompiledMeaning(r, w, c);
  }

  // ---------------------------------------------------------------- tightness

  function Only(t: Ticker): World {
    s => s == t
  }

  lemma {:induction false} CountOnly(ms: seq<Ticker>, t: Ticker)
    requires Distinct(ms)
    ensures Count(ms, Only(t)) == if t in ms then 1 else 0
  {
    if ms != [] {
      var n := |ms| - 1;
      CountOnly(ms[..n], t);
      assert ms == ms[..n] + [ms[n]];
    }
  }

  lemma {:induction false} CountNone(ms: seq<Ticker>, w: World)
    requires forall t | t in ms :: !w(t)
    ensures Count(ms, w) == 0
  {
    if ms != [] {
      CountNone(ms[..|ms| - 1], w);
    }
  }

  ghost predicate Attains(r: Relation, c: Constraint, w: World) {
    r.Admissible(w) && c.WorldPayoff(w) == c.bound
  }

  /** Tightness: some admissible world pays each constraint exactly its bound. */
  lemma Tight(r: Relation, c: Constraint)
    requires r.Valid() && c in r.Constraints()
    ensures exists w: World :: Attains(r, c, w)
  {
    hide BundlePayoff, Count, AllPairs;
    var none: World := _ => false;
    match r
    case Complement(t) =>
      ComplementPays(t, none);
      assert Attains(r, c, none);
    case MutuallyExclusive(ms) => OneWins(r, ms, c);
    case Exhaustive(ms) => OneWins(r, ms, c);
    case Partition(ms) => OneWins(r, ms, c);
    case Implies(a, b) =>
      PairPayoff(a, b, none);
      assert Attains(r, c, none);
    case Chain(ms) =>
      OnlyPairs(ms, c);
      var i, j :| 0 <= i < j < |ms| && c == ImpliesConstraint(ms[i], ms[j]);
      PairPayoff(ms[i], ms[j], none);
      assert Attains(r, c, none);
    case Union(ps, whole, disjoint) =>
      UnionTight(r, c);
  }

  lemma OneWins(r: Relation, ms: seq<Ticker>, c: Constraint)
    requires r.Valid() && c in r.Constraints()
    requires r == MutuallyExclusive(ms) || r == Exhaustive(ms) || r == Partition(ms)
    ensures exists w: World :: Attains(r, c, w)
  {
    var w := Only(ms[0]);
    CountOnly(ms, ms[0]);
    SidePayoffs(ms, w);
    assert Attains(r, c, w);
  }

  lemma UnionTight(r: Relation, c: Constraint)
    requires r.Valid() && r.Union? && c in r.Constraints()
    ensures exists w: World :: Attains(r, c, w)
  {
    var ps, whole := r.parts, r.whole;
    var none: World := _ => false;
    var one: World := t => t == ps[0] || t == whole;
    CountNone(ps, none);
    CountAny(ps, none);
    CountFirst(ps, whole);
    CountAny(ps, one);
    UnionShapes(r, c);
    UnionPays(ps, whole, none);
    UnionPays(ps, whole, one);
    hide Count, UnionCover, UnionCap, MutexConstraint, ImpliesConstraint, Relation.Constraints, Constraint.WorldPayoff;
    if c == MutexConstraint(ps) {
      assert Attains(r, c, one);
    } else if !r.disjoint && c != UnionCover(ps, whole) {
      var i :| 0 <= i < |ps| && c == ImpliesConstraint(ps[i], whole);
      PairPayoff(ps[i], whole, none);
      assert ImpliesConstraint(ps[i], whole).bound == PRICE_SCALE by { ImpliesBound(ps[i], whole); }
      assert Attains(r, c, none);
    } else {
      assert Attains(r, c, none);
    }
  }

  lemma ImpliesBound(a: Ticker, b: Ticker)
    ensures ImpliesConstraint(a, b).bound == PRICE_SCALE
  {
  }

  lemma UnionPays(ps: seq<Ticker>, whole: Ticker, w: World)
    ensures UnionCover(ps, whole).bound == PRICE_SCALE
    ensures UnionCover(ps, whole).WorldPayoff(w) == PRICE_SCALE * ((if w(whole) then 0 else 1) + Count(ps, w))
    ensures UnionCap(ps, whole).bound == PRICE_SCALE * |ps|
    ensures UnionCap(ps, whole).WorldPayoff(w) == PRICE_SCALE * ((if w(whole) then 1 else 0) + |ps| - Count(ps, w))
    ensures MutexConstraint(ps).bound == PRICE_SCALE * (|ps| - 1)
    ensures MutexConstraint(ps).WorldPayoff(w) == PRICE_SCALE * (|ps| - Count(ps, w))
  {
    hide BundlePayoff, Count, YesLegs, NoLegs;
    UnionPayoffs(ps, whole, w);
    SidePayoffs(ps, w);
  }

  lemma CountFirst(ps: seq<Ticker>, whole: Ticker)
    requires Distinct(ps) && ps != [] && whole !in ps
    ensures Count(ps, t => t == ps[0] || t == whole) == 1
  {
    CountOnly(ps, ps[0]);
    CountSame(ps, Only(ps[0]), t => t == ps[0] || t == whole);
  }

  lemma {:induction false} CountSame(ms: seq<Ticker>, v: World, w: World)
    requires forall t | t in ms :: v(t) == w(t)
    ensures Count(ms, v) == Count(ms, w)
  {
    if ms != [] {
      CountSame(ms[..|ms| - 1], v, w);
    }
  }

  // ---------------------------------------------------------------- shape of the compiled constraints

  /** A relation's constraints only ever trade its own markets, and their bounds are whole dollars. */
  lemma LegsOfRelation(r: Relation, c: Constraint)
    requires r.Valid() && c in r.Constraints()
    ensures c.Valid()
    ensures forall l | l in c.legs :: l.contract.ticker in r.Tickers()
    ensures c.bound % PRICE_SCALE == 0
  {
    hide AllPairs;
    match r
    case Complement(_) =>
    case MutuallyExclusive(ms) =>
    case Exhaustive(ms) =>
    case Partition(ms) =>
    case Implies(_, _) =>
    case Chain(ms) =>
      OnlyPairs(ms, c);
    case Union(ps, whole, disjoint) =>
      UnionLegs(r, c);
  }

  lemma UnionLegs(r: Relation, c: Constraint)
    requires r.Valid() && r.Union? && c in r.Constraints()
    ensures c.Valid()
    ensures forall l | l in c.legs :: l.contract.ticker in r.Tickers()
    ensures c.bound % PRICE_SCALE == 0
  {
    UnionShapes(r, c);
    var ps, whole := r.parts, r.whole;
    PartsLegs(ps, whole);
    assert r.Tickers() == ps + [whole];
    hide Relation.Constraints, UnionCover, UnionCap, MutexConstraint, ImpliesConstraint, Relation.Tickers;
    if c != UnionCover(ps, whole) && !r.disjoint {
      var i :| 0 <= i < |ps| && c == ImpliesConstraint(ps[i], whole);
      PairLegs(ps, whole, i);
    }
  }

  ghost predicate LegsWithin(c: Constraint, ts: seq<Ticker>) {
    c.Valid() && (forall l | l in c.legs :: l.contract.ticker in ts) && c.bound % PRICE_SCALE == 0
  }

  lemma PartsLegs(ps: seq<Ticker>, whole: Ticker)
    requires |ps| >= 2
    ensures LegsWithin(UnionCover(ps, whole), ps + [whole]) && LegsWithin(UnionCap(ps, whole), ps + [whole])
    ensures LegsWithin(MutexConstraint(ps), ps + [whole])
  {
    SideLegs(ps, whole);
    hide YesLegs, NoLegs;
  }

  lemma PairLegs(ps: seq<Ticker>, whole: Ticker, i: nat)
    requires i < |ps|
    ensures LegsWithin(ImpliesConstraint(ps[i], whole), ps + [whole])
  {
  }

  lemma SideLegs(ps: seq<Ticker>, whole: Ticker)
    ensures forall l | l in YesLegs(ps) || l in NoLegs(ps) :: l.contract.ticker in ps && l.qty == 1
    ensures |YesLegs(ps)| == |NoLegs(ps)| == |ps|
  {
  }

  ghost predicate Separate(legs: seq<Leg>) {
    forall i, j | 0 <= i < j < |legs| :: legs[i].contract != legs[j].contract
  }

  lemma SidesSeparate(ps: seq<Ticker>, whole: Ticker)
    requires Distinct(ps) && whole !in ps
    ensures Separate(YesLegs(ps)) && Separate(NoLegs(ps))
    ensures Separate([No(whole)] + YesLegs(ps)) && Separate([Yes(whole)] + NoLegs(ps))
  {
  }

  /** No compiled constraint buys one contract in two legs. */
  lemma SeparateLegs(r: Relation, c: Constraint)
    requires r.Valid() && c in r.Constraints()
    ensures Separate(c.legs)
  {
    hide AllPairs, YesLegs, NoLegs;
    match r
    case Complement(_) =>
    case MutuallyExclusive(ms) => OwnSeparate(ms);
    case Exhaustive(ms) => OwnSeparate(ms);
    case Partition(ms) => OwnSeparate(ms);
    case Implies(_, _) =>
    case Chain(ms) => PairsSeparate(ms, c);
    case Union(ps, whole, _) =>
      UnionShapes(r, c);
      SidesSeparate(ps, whole);
      OwnSeparate(ps);
      hide Relation.Constraints;
  }

  lemma OwnSeparate(ms: seq<Ticker>)
    requires Distinct(ms)
    ensures Separate(YesLegs(ms)) && Separate(NoLegs(ms))
  {
  }

  lemma {:induction false} PairsSeparate(ms: seq<Ticker>, c: Constraint)
    requires c in AllPairs(ms)
    ensures Separate(c.legs)
  {
    if ms != [] && c !in PairsWith(ms[0], ms[1..]) {
      PairsSeparate(ms[1..], c);
    }
  }
}
