/** market/semantics.py: which relations between numeric markets follow from their strikes, and that
    they hold whatever the markets settle at. */
module InferredRelations {
  import opened Units
  import opened Sorting
  import opened Intervals
  import opened Relationships

  /** `interval` is the exchange's strike, `text` what the rules text says.  They describe the same
      set, or (`exact` false) agree on the grid of `step`. */
  datatype NumericMarket = NumericMarket(ticker: Ticker, interval: Interval, text: Interval, exact: bool, step: real) {
    ghost predicate Valid() {
      && step > 0.0
      && (exact ==> text == interval)
      && (!exact ==> LatticeRange(interval, step) == LatticeRange(text, step))
    }
  }

  ghost predicate Trusted(n: NumericMarket, v: real) {
    n.exact || OnGrid(v, n.step)
  }

  /** Where a market is trusted, settling by the text is settling by the strike. */
  lemma TextIsStrike(n: NumericMarket, v: real)
    requires n.Valid() && Trusted(n, v)
    ensures n.text.Contains(v) <==> n.interval.Contains(v)
  {
    if !n.exact {
      var k: int :| v == GridPoint(k, n.step);
      LatticeExact(n.interval, n.step, k);
      LatticeExact(n.text, n.step, k);
    }
  }

  /** `numeric_view`, given the grid both intervals share: a market is used only if its strike and its
      text settle alike wherever it is trusted, and everywhere if they are the same interval. */
  function NumericView(ticker: Ticker, strike: Interval, text: Interval, step: real): (r: Option<NumericMarket>)
    requires step > 0.0
    ensures r.Some? ==>
              && r.value.Valid() && r.value.ticker == ticker && r.value.interval == strike && r.value.text == text
              && (r.value.exact || r.value.step == step)
              && forall v: real | r.value.exact || OnGrid(v, step) :: text.Contains(v) <==> strike.Contains(v)
    ensures text == strike ==> r.Some? && r.value.exact
  {
    var same := NumericMarket(ticker, strike, text, true, step);
    var alike := same.(exact := false);
    if text == strike then Some(same)
    else if LatticeRange(strike, step).Some? && LatticeRange(strike, step) == LatticeRange(text, step) then
      assert forall v: real | OnGrid(v, step) :: text.Contains(v) <==> strike.Contains(v) by {
        forall v: real | OnGrid(v, step)
          ensures text.Contains(v) <==> strike.Contains(v)
        {
          TextIsStrike(alike, v);
        }
      }
      Some(alike)
    else None
  }

  // ---------------------------------------------------------------- worlds induced by a settlement value

  type Family = seq<NumericMarket>

  ghost predicate WellFormed(fam: Family) {
    && (forall i | 0 <= i < |fam| :: fam[i].Valid())
    && (forall i, j | 0 <= i < j < |fam| :: fam[i].ticker != fam[j].ticker)
  }

  function TickersOf(ns: Family): seq<Ticker> {
    seq(|ns|, i requires 0 <= i < |ns| => ns[i].ticker)
  }

  function IntervalsOf(ns: Family): seq<Interval> {
    seq(|ns|, i requires 0 <= i < |ns| => ns[i].interval)
  }

  /** The outcome of every market when the variable settles at v, by the rules text. */
  function InducedWorld(fam: Family, v: real): World {
    t => exists i :: 0 <= i < |fam| && fam[i].ticker == t && fam[i].text.Contains(v)
  }

  ghost predicate AllTrusted(fam: Family, v: real) {
    forall i | 0 <= i < |fam| :: Trusted(fam[i], v)
  }

  lemma Settles(fam: Family, v: real, n: NumericMarket)
    requires WellFormed(fam) && n in fam && Trusted(n, v)
    ensures InducedWorld(fam, v)(n.ticker) <==> n.interval.Contains(v)
  {
    TextIsStrike(n, v);
    var k :| 0 <= k < |fam| && fam[k] == n;
  }

  lemma {:induction false} WinnersCounted(fam: Family, ns: Family, v: real)
    requires WellFormed(fam) && forall n | n in ns :: n in fam && Trusted(n, v)
    ensures Count(TickersOf(ns), InducedWorld(fam, v)) == CountIn(IntervalsOf(ns), v)
  {
    if ns != [] {
      var k := |ns| - 1;
      WinnersCounted(fam, ns[..k], v);
      assert TickersOf(ns)[..k] == TickersOf(ns[..k]);
      assert IntervalsOf(ns)[..k] == IntervalsOf(ns[..k]);
      CountSnoc(IntervalsOf(ns), v);
      Settles(fam, v, ns[k]);
    }
  }

  // ---------------------------------------------------------------- nested half-lines

  predicate StrLe(a: string, b: string) {
    a == "" || (b != "" && (a[0] < b[0] || (a[0] == b[0] && StrLe(a[1..], b[1..]))))
  }

  lemma {:induction false} StrLeTotal(a: string, b: string)
    ensures StrLe(a, b) || StrLe(b, a)
  {
    if a != "" && b != "" && a[0] == b[0] {
      StrLeTotal(a[1..], b[1..]);
    }
  }

  lemma {:induction false} StrLeTransitive(a: string, b: string, c: string)
    requires StrLe(a, b) && StrLe(b, c)
    ensures StrLe(a, c)
  {
    if a != "" && a[0] == b[0] == c[0] {
      StrLeTransitive(a[1..], b[1..], c[1..]);
    }
  }

  function End(b: Bound): real {
    if b.Some? then b.value else 0.0
  }

  /** (k, inf): a larger k is narrower; at equal k the open end is narrower. */
  predicate UpLe(a: NumericMarket, b: NumericMarket) {
    var x, y := End(a.interval.lo), End(b.interval.lo);
    x > y || (x == y && ((!a.interval.loClosed && b.interval.loClosed)
                         || (a.interval.loClosed == b.interval.loClosed && StrLe(a.ticker, b.ticker))))
  }

  /** (-inf, k): a smaller k is narrower.  The tie key is the source's: at equal k the closed end
      comes first. */
  predicate DownLe(a: NumericMarket, b: NumericMarket) {
    var x, y := End(a.interval.hi), End(b.interval.hi);
    x < y || (x == y && ((a.interval.hiClosed && !b.interval.hiClosed)
                         || (a.interval.hiClosed == b.interval.hiClosed && StrLe(a.ticker, b.ticker))))
  }

  function Narrower(upward: bool): (NumericMarket, NumericMarket) -> bool {
    (a: NumericMarket, b: NumericMarket) => if upward then UpLe(a, b) else DownLe(a, b)
  }

  function NarrowestFirst(group: Family, upward: bool): Family {
    StableSort(group, Narrower(upward))
  }

  lemma NarrowerOrders(upward: bool)
    ensures TotalPreorder(Narrower(upward))
  {
    forall a, b
      ensures Narrower(upward)(a, b) || Narrower(upward)(b, a)
    {
      StrLeTotal(a.ticker, b.ticker);
    }
    forall a, b, c | Narrower(upward)(a, b) && Narrower(upward)(b, c)
      ensures Narrower(upward)(a, c)
    {
      if StrLe(a.ticker, b.ticker) && StrLe(b.ticker, c.ticker) {
        StrLeTransitive(a.ticker, b.ticker, c.ticker);
      }
    }
  }

  predicate IsUp(n: NumericMarket) {
    n.interval.hi.None? && n.interval.lo.Some?
  }

  predicate IsDown(n: NumericMarket) {
    n.interval.lo.None? && n.interval.hi.Some?
  }

  function Half(upward: bool): NumericMarket -> bool {
    (n: NumericMarket) => if upward then IsUp(n) else IsDown(n)
  }

  /** The value's outcomes climb along the order: once YES, YES from there on. */
  ghost predicate NestedAt(order: Family, v: real) {
    forall i | 0 <= i < |order| - 1 :: order[i].interval.Contains(v) ==> order[i + 1].interval.Contains(v)
  }

  /** Two upper bounds at the same strike, one including it and one not. */
  ghost predicate MixedTie(group: Family) {
    exists m, n :: m in group && n in group
      && m.interval.hi == n.interval.hi && m.interval.hiClosed && !n.interval.hiClosed
  }

  lemma SortedGroup(group: Family, upward: bool)
    ensures var order := NarrowestFirst(group, upward);
            && Sorted(order, Narrower(upward)) && |order| == |group|
            && (forall n :: n in order <==> n in group) && multiset(order) == multiset(group)
  {
    NarrowerOrders(upward);
    SortSorts(group, Narrower(upward));
  }

  /** Upward half-lines are always nested in the order given. */
  lemma UpNested(group: Family, v: real)
    requires forall n | n in group :: IsUp(n)
    ensures NestedAt(NarrowestFirst(group, true), v)
  {
    SortedGroup(group, true);
    var order := NarrowestFirst(group, true);
    forall i | 0 <= i < |order| - 1
      ensures order[i].interval.Contains(v) ==> order[i + 1].interval.Contains(v)
    {
      assert Narrower(true)(order[i], order[i + 1]);
      assert order[i] in order && order[i + 1] in order;
    }
  }

  lemma {:induction false} NestedClimbs(order: Family, v: real, i: nat, j: nat)
    requires NestedAt(order, v) && i <= j < |order| && order[i].interval.Contains(v)
    ensures order[j].interval.Contains(v)
    decreases j - i
  {
    if i < j {
      NestedClimbs(order, v, i + 1, j);
    }
  }

  /** Where nesting fails, a tie sits. */
  lemma FailsAtTie(group: Family, v: real) returns (m: NumericMarket, n: NumericMarket)
    requires (forall x | x in group :: IsDown(x)) && !NestedAt(NarrowestFirst(group, false), v)
    ensures m in group && n in group && m.interval.hi == n.interval.hi == Some(v)
    ensures m.interval.hiClosed && !n.interval.hiClosed
  {
    SortedGroup(group, false);
    var order := NarrowestFirst(group, false);
    var i :| 0 <= i < |order| - 1 && order[i].interval.Contains(v) && !order[i + 1].interval.Contains(v);
    m, n := order[i], order[i + 1];
    assert Narrower(false)(m, n);
    assert m in order && n in order;
  }

  /** A tie breaks the nesting at its strike. */
  lemma TieBreaksHere(group: Family, m: NumericMarket, n: NumericMarket, v: real)
    requires (forall x | x in group :: IsDown(x)) && m in group && n in group
    requires m.interval.hi == n.interval.hi == Some(v) && m.interval.hiClosed && !n.interval.hiClosed
    ensures !NestedAt(NarrowestFirst(group, false), v)
  {
    SortedGroup(group, false);
    var order := NarrowestFirst(group, false);
    assert m in order && n in order;
    var i :| 0 <= i < |order| && order[i] == m;
    var j :| 0 <= j < |order| && order[j] == n;
    assert !Narrower(false)(order[j], order[i]);
    if NestedAt(order, v) {
      NestedClimbs(order, v, i, j);
    }
  }

  /** Downward half-lines, sorted as the source sorts them, are nested at every value exactly when no
      strike is used with both an included and an excluded end. */
  lemma DownNestedExactly(group: Family)
    requires forall n | n in group :: IsDown(n)
    ensures (forall v: real :: NestedAt(NarrowestFirst(group, false), v)) <==> !MixedTie(group)
  {
    if MixedTie(group) {
      var m, n :| m in group && n in group
        && m.interval.hi == n.interval.hi && m.interval.hiClosed && !n.interval.hiClosed;
      TieBreaksHere(group, m, n, m.interval.hi.value);
    } else {
      forall v: real
        ensures NestedAt(NarrowestFirst(group, false), v)
      {
        if !NestedAt(NarrowestFirst(group, false), v) {
          var m, n := FailsAtTie(group, v);
        }
      }
    }
  }

  // ---------------------------------------------------------------- what is emitted

  datatype EvidenceLevel = LATTICE | PROVEN

  /** A relation with its evidence: at LATTICE inexact markets are only trusted on their grids, and
      `grid` names the grid the relation itself assumes, if any. */
  datatype Assessment = Assessment(relation: Relation, level: EvidenceLevel, grid: Option<real>)

  function Least(a: EvidenceLevel, b: EvidenceLevel): EvidenceLevel {
    if a.LATTICE? then a else b
  }

  /** The settlement values the assessment speaks of: every real at PROVEN, on-grid ones at LATTICE. */
  ghost predicate Assumed(a: Assessment, fam: Family, v: real) {
    && (a.level.LATTICE? ==> AllTrusted(fam, v))
    && (a.grid.Some? ==> OnGrid(v, a.grid.value))
  }

  ghost predicate Truthful(a: Assessment, fam: Family) {
    && a.relation.Valid()
    && (a.level.PROVEN? ==> a.grid.None?)
    && forall v: real | Assumed(a, fam, v) :: a.relation.Admissible(InducedWorld(fam, v))
  }

  function Inexact(fam: Family): Family {
    Filter(fam, (n: NumericMarket) => !n.exact)
  }

  function Cap(fam: Family): EvidenceLevel {
    if Inexact(fam) == [] then PROVEN else LATTICE
  }

  lemma CapTrusts(a: Assessment, fam: Family, v: real)
    requires Assumed(a, fam, v) && a.level == Least(a.level, Cap(fam))
    ensures AllTrusted(fam, v)
  {
    if a.level.PROVEN? {
      FilterKeeps(fam, (n: NumericMarket) => !n.exact);
      forall i | 0 <= i < |fam|
        ensures fam[i].exact
      {
        assert fam[i] in fam;
      }
    }
  }

  lemma {:induction false} SubTickersDistinct(fam: Family, ns: Family)
    requires WellFormed(fam) && (forall n | n in ns :: n in fam)
    requires forall i, j | 0 <= i < j < |ns| :: ns[i] != ns[j]
    ensures Distinct(TickersOf(ns))
  {
    forall i, j | 0 <= i < j < |ns|
      ensures ns[i].ticker != ns[j].ticker
    {
      assert ns[i] in fam && ns[j] in fam;
    }
  }

  ghost predicate AllDifferent<T>(s: seq<T>) {
    forall i, j | 0 <= i < j < |s| :: s[i] != s[j]
  }

  lemma DifferentFront<T>(s: seq<T>)
    requires AllDifferent(s) && s != []
    ensures AllDifferent(s[..|s| - 1]) && s[|s| - 1] !in s[..|s| - 1]
  {
  }

  lemma DifferentMore<T>(s: seq<T>, x: T)
    requires AllDifferent(s) && x !in s
    ensures AllDifferent(s + [x])
  {
  }

  lemma {:induction false} FilterDistinct(fam: Family, p: NumericMarket -> bool)
    requires AllDifferent(fam)
    ensures AllDifferent(Filter(fam, p))
  {
    if fam != [] {
      hide AllDifferent;
      var front, last := fam[..|fam| - 1], fam[|fam| - 1];
      DifferentFront(fam);
      FilterDistinct(front, p);
      FilterKeeps(front, p);
      if p(last) {
        DifferentMore(Filter(front, p), last);
      } else {
        assert Filter(fam, p) == Filter(front, p);
      }
    }
  }

  lemma {:induction false} Once<T>(s: seq<T>, e: T)
    requires forall i, j | 0 <= i < j < |s| :: s[i] != s[j]
    ensures multiset(s)[e] <= 1
  {
    if s != [] {
      Once(s[..|s| - 1], e);
      assert s == s[..|s| - 1] + [s[|s| - 1]];
      if e == s[|s| - 1] {
        assert e !in s[..|s| - 1];
      }
    }
  }

  lemma ShuffledDistinct<T>(s: seq<T>, t: seq<T>)
    requires multiset(s) == multiset(t)
    requires forall i, j | 0 <= i < j < |s| :: s[i] != s[j]
    ensures forall i, j | 0 <= i < j < |t| :: t[i] != t[j]
  {
    forall i, j | 0 <= i < j < |t|
      ensures t[i] != t[j]
    {
      Once(s, t[j]);
      assert t == t[..j] + [t[j]] + t[j + 1..];
      assert t[i] in t[..j];
    }
  }

  /** The chain of upward half-lines is true of every value it speaks of. */
  lemma UpChainTruth(fam: Family)
    requires WellFormed(fam) && |Filter(fam, Half(true))| >= 2
    ensures Truthful(ChainOf(fam, true), fam)
  {
    var group, a := Filter(fam, Half(true)), ChainOf(fam, true);
    FilterKeeps(fam, Half(true));
    SortedGroup(group, true);
    ChainShape(fam, true);
    forall v: real | Assumed(a, fam, v)
      ensures a.relation.Admissible(InducedWorld(fam, v))
    {
      CapTrusts(a, fam, v);
      UpNested(group, v);
      ChainAdmits(fam, NarrowestFirst(group, true), v);
    }
  }

  lemma ChainAdmits(fam: Family, order: Family, v: real)
    requires WellFormed(fam) && AllTrusted(fam, v) && NestedAt(order, v) && forall n | n in order :: n in fam
    ensures Chain(TickersOf(order)).Admissible(InducedWorld(fam, v))
  {
    forall i | 0 <= i < |order| - 1
      ensures InducedWorld(fam, v)(order[i].ticker) ==> InducedWorld(fam, v)(order[i + 1].ticker)
    {
      assert order[i] in fam && order[i + 1] in fam;
      Settles(fam, v, order[i]);
      Settles(fam, v, order[i + 1]);
    }
  }

  lemma AllTickersDistinct(fam: Family)
    requires WellFormed(fam)
    ensures Distinct(TickersOf(fam))
  {
  }

  lemma MutexTruth(fam: Family)
    requires WellFormed(fam) && |fam| >= 2 && PairwiseDisjoint(IntervalsOf(fam))
    ensures Truthful(Assessment(MutuallyExclusive(TickersOf(fam)), Cap(fam), None), fam)
  {
    var a := Assessment(MutuallyExclusive(TickersOf(fam)), Cap(fam), None);
    AllTickersDistinct(fam);
    forall v: real | Assumed(a, fam, v)
      ensures a.relation.Admissible(InducedWorld(fam, v))
    {
      CapTrusts(a, fam, v);
      WinnersCounted(fam, fam, v);
      DisjointCount(IntervalsOf(fam), v);
    }
  }

  lemma PartitionTruth(fam: Family, step: real, level: EvidenceLevel)
    requires WellFormed(fam) && |fam| >= 2 && step > 0.0
    requires level.PROVEN? ==> TilesLine(IntervalsOf(fam))
    requires level.LATTICE? ==> TilesGrid(IntervalsOf(fam), step)
    ensures Truthful(Assessment(Partition(TickersOf(fam)), Least(level, Cap(fam)),
                                if level.LATTICE? then Some(step) else None), fam)
  {
    var a := Assessment(Partition(TickersOf(fam)), Least(level, Cap(fam)), if level.LATTICE? then Some(step) else None);
    AllTickersDistinct(fam);
    forall v: real | Assumed(a, fam, v)
      ensures a.relation.Admissible(InducedWorld(fam, v))
    {
      CapTrusts(a, fam, v);
      WinnersCounted(fam, fam, v);
      if level.LATTICE? {
        var k: int :| v == GridPoint(k, step);
        assert CountIn(IntervalsOf(fam), GridPoint(k, step)) == 1;
      } else {
        assert CountIn(IntervalsOf(fam), v) == 1;
      }
    }
  }

  function ChainOf(fam: Family, upward: bool): Assessment {
    Assessment(Chain(TickersOf(NarrowestFirst(Filter(fam, Half(upward)), upward))), Cap(fam), None)
  }

  /** Two downward half-lines of the family share a strike, one including it and one not, and the chain
      speaks of that value: the markets are all exact, or it lies on every inexact one's grid. */
  ghost predicate SpokenTie(fam: Family) {
    exists m, n :: m in fam && n in fam && IsDown(m) && IsDown(n)
      && m.interval.hi == n.interval.hi && m.interval.hiClosed && !n.interval.hiClosed
      && Assumed(ChainOf(fam, false), fam, m.interval.hi.value)
  }

  /** A chain's world is inadmissible wherever its trusted markets are not nested. */
  lemma ChainRejects(fam: Family, order: Family, v: real)
    requires WellFormed(fam) && AllTrusted(fam, v) && !NestedAt(order, v) && forall n | n in order :: n in fam
    ensures !Chain(TickersOf(order)).Admissible(InducedWorld(fam, v))
  {
    var i :| 0 <= i < |order| - 1 && order[i].interval.Contains(v) && !order[i + 1].interval.Contains(v);
    assert order[i] in fam && order[i + 1] in fam;
    Settles(fam, v, order[i]);
    Settles(fam, v, order[i + 1]);
    var ts := TickersOf(order);
    assert InducedWorld(fam, v)(ts[i]) && !InducedWorld(fam, v)(ts[i + 1]);
  }

  /** The downward chain is true of every value it speaks of if and only if no tie is among them. */
  lemma DownChainExactly(fam: Family)
    requires WellFormed(fam) && |Filter(fam, Half(false))| >= 2
    ensures Truthful(ChainOf(fam, false), fam) <==> !SpokenTie(fam)
  {
    var group, a := Filter(fam, Half(false)), ChainOf(fam, false);
    var order := NarrowestFirst(group, false);
    FilterKeeps(fam, Half(false));
    SortedGroup(group, false);
    if SpokenTie(fam) {
      var m, n :| m in fam && n in fam && IsDown(m) && IsDown(n)
        && m.interval.hi == n.interval.hi && m.interval.hiClosed && !n.interval.hiClosed
        && Assumed(a, fam, m.interval.hi.value);
      var v := m.interval.hi.value;
      TieBreaksHere(group, m, n, v);
      CapTrusts(a, fam, v);
      ChainRejects(fam, order, v);
      assert !Truthful(a, fam);
    } else {
      ChainShape(fam, false);
      forall v: real | Assumed(a, fam, v)
        ensures a.relation.Admissible(InducedWorld(fam, v))
      {
        CapTrusts(a, fam, v);
        if !NestedAt(order, v) {
          var m, n := FailsAtTie(group, v);
        }
        ChainAdmits(fam, order, v);
      }
    }
  }

  lemma ChainShape(fam: Family, upward: bool)
    requires WellFormed(fam) && |Filter(fam, Half(upward))| >= 2
    ensures ChainOf(fam, upward).relation.Valid()
  {
    var group := Filter(fam, Half(upward));
    FilterKeeps(fam, Half(upward));
    FilterDistinct(fam, Half(upward));
    SortedGroup(group, upward);
    ShuffledDistinct(group, NarrowestFirst(group, upward));
    SubTickersDistinct(fam, NarrowestFirst(group, upward));
  }

  const AT_MOST: NumericMarket :=
    NumericMarket("L", Interval(None, false, Some(40.0), true), Interval(None, false, Some(40.0), true), true, 1.0)
  const BELOW: NumericMarket :=
    NumericMarket("M", Interval(None, false, Some(40.0), false), Interval(None, false, Some(40.0), false), true, 1.0)

  /** A concrete ladder whose emitted chain is wrong: "at most 40" is put before "below 40", and the
      world in which the variable settles at 40 is one the chain rejects. */
  lemma TieExample()
    ensures WellFormed([BELOW, AT_MOST]) && |Filter([BELOW, AT_MOST], Half(false))| == 2
    ensures ChainOf([BELOW, AT_MOST], false).level == PROVEN
    ensures !ChainOf([BELOW, AT_MOST], false).relation.Admissible(InducedWorld([BELOW, AT_MOST], 40.0))
  {
    var fam := [BELOW, AT_MOST];
    TiedFamily();
    SortedGroup(fam, false);
    assert fam[0] == BELOW && fam[1] == AT_MOST;
    hide NarrowestFirst, NestedAt, WellFormed, InducedWorld, Filter, IsDown, Relation.Admissible;
    TieBreaksHere(fam, AT_MOST, BELOW, 40.0);
    ChainRejects(fam, NarrowestFirst(fam, false), 40.0);
  }

  lemma TiedFamily()
    ensures var fam := [BELOW, AT_MOST];
            && WellFormed(fam) && Filter(fam, Half(false)) == fam && Inexact(fam) == []
            && AllTrusted(fam, 40.0) && IsDown(BELOW) && IsDown(AT_MOST)
  {
    assert "L"[0] != "M"[0];
    KeepsBoth(BELOW, AT_MOST, Half(false));
    DropsBoth(BELOW, AT_MOST, (n: NumericMarket) => !n.exact);
  }

  lemma KeepsBoth(m: NumericMarket, n: NumericMarket, p: NumericMarket -> bool)
    requires p(m) && p(n)
    ensures Filter([m, n], p) == [m, n]
  {
    assert [m, n][..1] == [m] && [m][..0] == [];
    assert Filter([m], p) == Filter([], p) + [m];
  }

  lemma DropsBoth(m: NumericMarket, n: NumericMarket, p: NumericMarket -> bool)
    requires !p(m) && !p(n)
    ensures Filter([m, n], p) == []
  {
    assert [m, n][..1] == [m] && [m][..0] == [];
    assert Filter([m], p) == Filter([], p);
  }

  /** Exactly what is emitted about one family: a chain for two or more half-lines of a direction,
      exclusivity for disjoint intervals, and a partition if they also cover the whole event. */
  ghost function FamilyRelations(fam: Family, wholeEvent: bool, step: real): seq<Assessment>
    requires step > 0.0
  {
    (if |Filter(fam, Half(true))| >= 2 then [ChainOf(fam, true)] else [])
    + (if |Filter(fam, Half(false))| >= 2 then [ChainOf(fam, false)] else [])
    + (if |fam| >= 2 && PairwiseDisjoint(IntervalsOf(fam)) then
         [Assessment(MutuallyExclusive(TickersOf(fam)), Cap(fam), None)] + Coverage(fam, wholeEvent, step)
       else [])
  }

  ghost function Coverage(fam: Family, wholeEvent: bool, step: real): seq<Assessment>
    requires fam != [] && step > 0.0
  {
    var tiling := Tiling(IntervalsOf(fam), step);
    if !wholeEvent then []
    else if tiling.onRealLine then [Assessment(Partition(TickersOf(fam)), Least(PROVEN, Cap(fam)), None)]
    else if tiling.onLattice then [Assessment(Partition(TickersOf(fam)), Least(LATTICE, Cap(fam)), Some(step))]
    else []
  }

  /** True of every settlement value it speaks of, but for the downward chain with a tie among them:
      that one is false. */
  ghost predicate TrueButForTies(a: Assessment, fam: Family) {
    Truthful(a, fam) <==> !(a == ChainOf(fam, false) && SpokenTie(fam))
  }

  /** `_numeric_family`: everything emitted about one family is true of every settlement value it
      speaks of, but for the downward chain exactly when a tie is among those values. */
  method NumericFamily(fam: Family, wholeEvent: bool, step: real) returns (out: seq<Assessment>)
    requires WellFormed(fam) && step > 0.0
    ensures out == FamilyRelations(fam, wholeEvent, step)
    ensures forall i | 0 <= i < |out| :: TrueButForTies(out[i], fam)
  {
    hide Truthful, TrueButForTies, ChainOf, Tiling, PairwiseDisjoint, WellFormed, Filter, TickersOf, Cap, Coverage;
    out := [];
    var cap := Cap(fam);
    var ups, downs := Filter(fam, Half(true)), Filter(fam, Half(false));
    if |ups| >= 2 {
      UpChainJudged(fam);
      out := out + [ChainOf(fam, true)];
    }
    if |downs| >= 2 {
      DownChainJudged(fam);
      out := out + [ChainOf(fam, false)];
    }
    if |fam| < 2 {
      return;
    }
    var tiling := AnalyseTiling(IntervalsOf(fam), step);
    if !tiling.disjoint {
      return;
    }
    MutexTruth(fam);
    OtherJudged(Assessment(MutuallyExclusive(TickersOf(fam)), cap, None), fam);
    out := out + [Assessment(MutuallyExclusive(TickersOf(fam)), cap, None)];
    CoverageIs(fam, wholeEvent, step);
    if !wholeEvent {
      return;
    }
    if tiling.onRealLine {
      PartitionTruth(fam, step, PROVEN);
      OtherJudged(Assessment(Partition(TickersOf(fam)), Least(PROVEN, cap), None), fam);
      out := out + [Assessment(Partition(TickersOf(fam)), Least(PROVEN, cap), None)];
    } else if tiling.onLattice {
      PartitionTruth(fam, step, LATTICE);
      OtherJudged(Assessment(Partition(TickersOf(fam)), Least(LATTICE, cap), Some(step)), fam);
      out := out + [Assessment(Partition(TickersOf(fam)), Least(LATTICE, cap), Some(step))];
    }
  }

  lemma CoverageIs(fam: Family, wholeEvent: bool, step: real)
    requires fam != [] && step > 0.0
    ensures
      var tiling := Tiling(IntervalsOf(fam), step);
      Coverage(fam, wholeEvent, step)
      == if !wholeEvent then []
         else if tiling.onRealLine then [Assessment(Partition(TickersOf(fam)), Least(PROVEN, Cap(fam)), None)]
         else if tiling.onLattice then [Assessment(Partition(TickersOf(fam)), Least(LATTICE, Cap(fam)), Some(step))]
         else []
  {
    hide Tiling, TickersOf, IntervalsOf, Cap;
  }

  lemma OtherJudged(a: Assessment, fam: Family)
    requires !a.relation.Chain? && Truthful(a, fam)
    ensures TrueButForTies(a, fam)
  {
  }

  lemma DownChainJudged(fam: Family)
    requires WellFormed(fam) && |Filter(fam, Half(false))| >= 2
    ensures TrueButForTies(ChainOf(fam, false), fam)
  {
    hide Truthful, SpokenTie;
    DownChainExactly(fam);
  }

  /** The upward chain is never the tied one. */
  lemma UpChainJudged(fam: Family)
    requires WellFormed(fam) && |Filter(fam, Half(true))| >= 2
    ensures TrueButForTies(ChainOf(fam, true), fam)
  {
    UpChainTruth(fam);
    if SpokenTie(fam) && ChainOf(fam, true) == ChainOf(fam, false) {
      SortedGroup(Filter(fam, Half(true)), true);
      SortedGroup(Filter(fam, Half(false)), false);
      assert |TickersOf(NarrowestFirst(Filter(fam, Half(true)), true))| == |Filter(fam, Half(true))|;
      assert |TickersOf(NarrowestFirst(Filter(fam, Half(false)), false))| == |Filter(fam, Half(false))|;
      hide Truthful, SpokenTie;
      DownChainExactly(fam);
    }
  }

  // ---------------------------------------------------------------- unions across events

  function Inside(target: NumericMarket): NumericMarket -> bool {
    (t: NumericMarket) => t.ticker != target.ticker && t.interval.SubsetOf(target.interval)
  }

  /** The source's sort key: the lower index, with -1 standing for an unbounded one. */
  function ByLowIndex(step: real): (NumericMarket, NumericMarket) -> bool {
    (a: NumericMarket, b: NumericMarket) => LowIndex(a, step) <= LowIndex(b, step)
  }

  function LowIndex(n: NumericMarket, step: real): int {
    if step > 0.0 && LatticeRange(n.interval, step).Some? && LatticeRange(n.interval, step).value.lo.Some?
    then LatticeRange(n.interval, step).value.lo.value else -1
  }

  predicate Tiled(want: Range, ranges: seq<Option<Range>>) {
    && ranges != [] && (forall i | 0 <= i < |ranges| :: ranges[i].Some?)
    && ranges[0].value.lo == want.lo && ranges[|ranges| - 1].value.hi == want.hi
    && forall i | 0 <= i < |ranges| - 1 :: Follows(ranges[i].value, ranges[i + 1].value)
  }

  /** `exact_union`. */
  function ExactUnion(target: NumericMarket, tiles: Family, step: real): Option<Family>
    requires step > 0.0
  {
    var inside := Filter(tiles, Inside(target));
    var have := StableSort(inside, ByLowIndex(step));
    var want := LatticeRange(target.interval, step);
    if |inside| < 2 || want.None? then None
    else if Tiled(want.value, RangesOf(IntervalsOf(have), step)) then Some(have)
    else None
  }

  lemma LowIndexOrders(step: real)
    ensures TotalPreorder(ByLowIndex(step))
  {
  }

  lemma UnionTiles(target: NumericMarket, tiles: Family, step: real)
    requires step > 0.0 && ExactUnion(target, tiles, step).Some?
    ensures var ts := ExactUnion(target, tiles, step).value;
            && |ts| >= 2
            && (forall t | t in ts :: t in tiles && t.ticker != target.ticker && t.interval.SubsetOf(target.interval))
            && multiset(ts) == multiset(Filter(tiles, Inside(target)))
  {
    LowIndexOrders(step);
    SortSorts(Filter(tiles, Inside(target)), ByLowIndex(step));
    FilterKeeps(tiles, Inside(target));
  }

  /** A successful `exact_union` is exact on the grid: a grid value is in the target if and only if it
      is in exactly one returned tile, and it is never in two. */
  lemma UnionOnGrid(target: NumericMarket, tiles: Family, step: real, k: int)
    requires step > 0.0 && ExactUnion(target, tiles, step).Some?
    ensures var ivs := IntervalsOf(ExactUnion(target, tiles, step).value);
            && (target.interval.Contains(GridPoint(k, step)) <==> CountIn(ivs, GridPoint(k, step)) == 1)
            && CountIn(ivs, GridPoint(k, step)) <= 1
  {
    var ivs := IntervalsOf(ExactUnion(target, tiles, step).value);
    LatticeExact(target.interval, step, k);
    CountOnGrid(ivs, step, k);
    RunCounts(RangesOf(ivs, step), k);
  }

  lemma {:induction false} FilterStaysDisjoint(tiles: Family, p: NumericMarket -> bool, v: real)
    requires PairwiseDisjoint(IntervalsOf(tiles))
    ensures CountIn(IntervalsOf(Filter(tiles, p)), v) <= CountIn(IntervalsOf(tiles), v) <= 1
  {
    DisjointCount(IntervalsOf(tiles), v);
    FilterCountsFewer(tiles, p, v);
  }

  lemma {:induction false} FilterCountsFewer(tiles: Family, p: NumericMarket -> bool, v: real)
    ensures CountIn(IntervalsOf(Filter(tiles, p)), v) <= CountIn(IntervalsOf(tiles), v)
  {
    if tiles != [] {
      var k := |tiles| - 1;
      FilterCountsFewer(tiles[..k], p, v);
      assert IntervalsOf(tiles)[..k] == IntervalsOf(tiles[..k]);
      CountSnoc(IntervalsOf(tiles), v);
      var kept := Filter(tiles, p);
      if p(tiles[k]) {
        CountSnoc(IntervalsOf(kept), v);
        assert IntervalsOf(kept)[..|kept| - 1] == IntervalsOf(Filter(tiles[..k], p));
      } else {
        assert kept == Filter(tiles[..k], p);
      }
    }
  }

  lemma {:induction false} CountAnyOrder(a: Family, b: Family, v: real)
    requires multiset(a) == multiset(b)
    ensures CountIn(IntervalsOf(a), v) == CountIn(IntervalsOf(b), v)
  {
    CountIsMultiset(a, v);
    CountIsMultiset(b, v);
    HoldersAnyOrder(a, b, v);
  }

  function Holders(ns: Family, v: real): Family {
    Filter(ns, (n: NumericMarket) => n.interval.Contains(v))
  }

  lemma {:induction false} CountIsMultiset(ns: Family, v: real)
    ensures CountIn(IntervalsOf(ns), v) == |Holders(ns, v)|
  {
    if ns != [] {
      var k := |ns| - 1;
      CountIsMultiset(ns[..k], v);
      assert IntervalsOf(ns)[..k] == IntervalsOf(ns[..k]);
      CountSnoc(IntervalsOf(ns), v);
    }
  }

  lemma {:induction false} HoldersAnyOrder(a: Family, b: Family, v: real)
    requires multiset(a) == multiset(b)
    ensures |Holders(a, v)| == |Holders(b, v)|
  {
    if a == [] {
      assert |multiset(b)| == 0;
    } else {
      var k := |a| - 1;
      assert a == a[..k] + [a[k]];
      assert a[k] in multiset(b);
      var i :| 0 <= i < |b| && b[i] == a[k];
      assert b == b[..i] + [b[i]] + b[i + 1..];
      var rest := b[..i] + b[i + 1..];
      assert multiset(rest) == multiset(b) - multiset{b[i]};
      HoldersAnyOrder(a[..k], rest, v);
      var p := (n: NumericMarket) => n.interval.Contains(v);
      FilterAppend(b[..i], b[i + 1..], p);
      FilterAppend(b[..i] + [b[i]], b[i + 1..], p);
      FilterAppend(b[..i], [b[i]], p);
      assert [b[i]][..0] == [];
    }
  }

  /** Disjoint tiles that abut from edge to edge are exact on the whole line. */
  lemma UnionOnReals(target: NumericMarket, tiles: Family, step: real, v: real)
    requires step > 0.0 && ExactUnion(target, tiles, step).Some? && PairwiseDisjoint(IntervalsOf(tiles))
    requires ExactOnRealLine(target.interval, IntervalsOf(ExactUnion(target, tiles, step).value))
    ensures var ivs := IntervalsOf(ExactUnion(target, tiles, step).value);
            && (target.interval.Contains(v) <==> CountIn(ivs, v) == 1)
            && CountIn(ivs, v) <= 1
  {
    var ts := ExactUnion(target, tiles, step).value;
    UnionTiles(target, tiles, step);
    FilterStaysDisjoint(tiles, Inside(target), v);
    CountAnyOrder(ts, Filter(tiles, Inside(target)), v);
    assert forall i | 0 <= i < |ts| :: ts[i] in ts;
    UnionOnLine(target.interval, IntervalsOf(ts), v);
  }

  lemma UnionAdmits(fam: Family, ts: Family, target: NumericMarket, v: real)
    requires WellFormed(fam) && target in fam && Trusted(target, v)
    requires forall t | t in ts :: t in fam && Trusted(t, v)
    requires target.interval.Contains(v) <==> CountIn(IntervalsOf(ts), v) == 1
    requires CountIn(IntervalsOf(ts), v) <= 1
    ensures Union(TickersOf(ts), target.ticker, true).Admissible(InducedWorld(fam, v))
  {
    WinnersCounted(fam, ts, v);
    Settles(fam, v, target);
    CountAny(TickersOf(ts), InducedWorld(fam, v));
  }

  function AllExact(ns: Family): bool {
    forall i | 0 <= i < |ns| :: ns[i].exact
  }

  /** The assessment `find_unions` appends for a target and the tiles found for it. */
  function UnionAssessment(target: NumericMarket, ts: Family, step: real): Assessment {
    var r := Union(TickersOf(ts), target.ticker, true);
    if target.exact && AllExact(ts) && ExactOnRealLine(target.interval, IntervalsOf(ts))
    then Assessment(r, PROVEN, None) else Assessment(r, LATTICE, Some(step))
  }

  /** Of a family, the markets a union is about. */
  ghost predicate InUnion(n: NumericMarket, a: Assessment)
    requires a.relation.Union?
  {
    n.ticker == a.relation.whole || n.ticker in a.relation.parts
  }

  /** True of every settlement value of the family's variable that the assessment speaks of: only the
      markets of the union itself need trusting. */
  ghost predicate UnionTruth(a: Assessment, fam: Family) {
    && a.relation.Union? && a.relation.Valid()
    && (forall t | t in a.relation.Tickers() :: t in TickersOf(fam))
    && (a.level.PROVEN? ==> a.grid.None?)
    && forall v: real | (a.level.LATTICE? ==> forall n | n in fam && InUnion(n, a) :: Trusted(n, v))
                        && (a.grid.Some? ==> OnGrid(v, a.grid.value)) ::
         a.relation.Admissible(InducedWorld(fam, v))
  }

  /** The union emitted for a target and its tiles is true in the world the whole family settles to. */
  lemma UnionHolds(fam: Family, target: NumericMarket, group: Family, step: real)
    requires step > 0.0 && ExactUnion(target, group, step).Some? && PairwiseDisjoint(IntervalsOf(group))
    requires WellFormed(fam) && WellFormed(group) && target in fam && forall n | n in group :: n in fam
    ensures UnionTruth(UnionAssessment(target, ExactUnion(target, group, step).value, step), fam)
  {
    var ts := ExactUnion(target, group, step).value;
    var a := UnionAssessment(target, ts, step);
    UnionTiles(target, group, step);
    UnionShape(fam, target, group, step);
    forall v: real | (a.level.LATTICE? ==> forall n | n in fam && InUnion(n, a) :: Trusted(n, v))
                     && (a.grid.Some? ==> OnGrid(v, a.grid.value))
      ensures a.relation.Admissible(InducedWorld(fam, v))
    {
      hide PairwiseDisjoint, ExactUnion, WellFormed, ExactOnRealLine;
      MembersTrusted(fam, target, ts, step, v);
      if a.level.PROVEN? {
        UnionOnReals(target, group, step, v);
      } else {
        var k: int :| v == GridPoint(k, step);
        UnionOnGrid(target, group, step, k);
      }
      UnionAdmits(fam, ts, target, v);
    }
  }

  lemma MembersTrusted(fam: Family, target: NumericMarket, ts: Family, step: real, v: real)
    requires target in fam && forall t | t in ts :: t in fam
    requires var a := UnionAssessment(target, ts, step);
             a.level.LATTICE? ==> forall n | n in fam && InUnion(n, a) :: Trusted(n, v)
    ensures Trusted(target, v) && forall t | t in ts :: Trusted(t, v)
  {
    forall t | t in ts
      ensures Trusted(t, v) && t.ticker in TickersOf(ts)
    {
      var i :| 0 <= i < |ts| && ts[i] == t;
      assert TickersOf(ts)[i] == t.ticker;
    }
  }

  lemma UnionShape(fam: Family, target: NumericMarket, group: Family, step: real)
    requires step > 0.0 && ExactUnion(target, group, step).Some?
    requires WellFormed(group) && target in fam && forall n | n in group :: n in fam
    ensures var r := Union(TickersOf(ExactUnion(target, group, step).value), target.ticker, true);
            r.Valid() && forall t | t in r.Tickers() :: t in TickersOf(fam)
  {
    var ts := ExactUnion(target, group, step).value;
    UnionTiles(target, group, step);
    FilterDistinct(group, Inside(target));
    ShuffledDistinct(Filter(group, Inside(target)), ts);
    SubTickersDistinct(group, ts);
    forall n | n in ts || n == target
      ensures n.ticker in TickersOf(fam)
    {
      var i :| 0 <= i < |fam| && fam[i] == n;
      assert TickersOf(fam)[i] == n.ticker;
    }
    forall i | 0 <= i < |ts|
      ensures TickersOf(ts)[i] != target.ticker && TickersOf(ts)[i] in TickersOf(fam)
    {
      assert ts[i] in ts;
    }
  }

  /** Is this market the ladder side of a union of the group's buckets? */
  predicate LadderSide(target: NumericMarket, group: Family) {
    && (forall k | 0 <= k < |group| :: group[k].ticker != target.ticker)
    && !(target.interval.lo.Some? && target.interval.hi.Some?)
  }

  /** Exactly the unions found for one group of disjoint buckets: one for each half-line, outside the
      group, that some of its buckets tile. */
  function UnionsFound(candidates: Family, group: Family, step: real): seq<Assessment>
    requires step > 0.0
  {
    if candidates == [] then []
    else
      var target, rest := candidates[|candidates| - 1], UnionsFound(candidates[..|candidates| - 1], group, step);
      var res := ExactUnion(target, group, step);
      if LadderSide(target, group) && res.Some? then rest + [UnionAssessment(target, res.value, step)] else rest
  }

  /** The inner loops of `find_unions` for one group of disjoint buckets of the family: every union it
      emits is true in the world the family itself settles to. */
  method FindUnions(fam: Family, group: Family, step: real) returns (out: seq<Assessment>)
    requires step > 0.0 && WellFormed(group) && WellFormed(fam) && forall n | n in group :: n in fam
    requires PairwiseDisjoint(IntervalsOf(group))
    ensures out == UnionsFound(fam, group, step)
    ensures forall i | 0 <= i < |out| :: UnionTruth(out[i], fam)
  {
    hide ExactUnion, UnionAssessment, WellFormed, UnionTruth, PairwiseDisjoint;
    out := [];
    for i := 0 to |fam|
      invariant out == UnionsFound(fam[..i], group, step)
      invariant forall k | 0 <= k < |out| :: UnionTruth(out[k], fam)
    {
      assert fam[..i + 1][..i] == fam[..i];
      var target := fam[i];
      if LadderSide(target, group) {
        var res := ExactUnion(target, group, step);
        if res.Some? {
          UnionHolds(fam, target, group, step);
          out := out + [UnionAssessment(target, res.value, step)];
        }
      }
    }
    assert fam[..|fam|] == fam;
  }
}
