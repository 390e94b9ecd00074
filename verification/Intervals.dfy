/** market/semantics.py: intervals of settlement values, on the real line and on a grid.  Strikes are
    exact reals; the grid step is any positive real. */
module Intervals {
  import opened Units
  import opened Sorting

  type Bound = Option<real>

  datatype Interval = Interval(lo: Bound, loClosed: bool, hi: Bound, hiClosed: bool) {
    predicate Above(v: real) {
      lo.None? || v > lo.value || (v == lo.value && loClosed)
    }

    predicate Below(v: real) {
      hi.None? || v < hi.value || (v == hi.value && hiClosed)
    }

    predicate Contains(v: real) {
      Above(v) && Below(v)
    }

    predicate IsEmpty() {
      lo.Some? && hi.Some? && (lo.value > hi.value || (lo.value == hi.value && !(loClosed && hiClosed)))
    }

    predicate LowerWithin(b: Interval) {
      if b.lo.None? then true
      else if lo.None? then false
      else lo.value > b.lo.value || (lo.value == b.lo.value && (b.loClosed || !loClosed))
    }

    predicate UpperWithin(b: Interval) {
      if b.hi.None? then true
      else if hi.None? then false
      else hi.value < b.hi.value || (hi.value == b.hi.value && (b.hiClosed || !hiClosed))
    }

    predicate SubsetOf(b: Interval) {
      IsEmpty() || (LowerWithin(b) && UpperWithin(b))
    }

    predicate EndsBefore(b: Interval) {
      if hi.None? || b.lo.None? then false
      else hi.value < b.lo.value || (hi.value == b.lo.value && !(hiClosed && b.loClosed))
    }

    predicate Disjoint(b: Interval) {
      EndsBefore(b) || b.EndsBefore(this)
    }
  }

  // ---------------------------------------------------------------- the tests mean what they say

  /** A point of a non-empty interval. */
  function Witness(a: Interval): (v: real)
    requires !a.IsEmpty()
    ensures a.Contains(v)
  {
    match (a.lo, a.hi)
    case (None, None) => 0.0
    case (None, Some(h)) => h - 1.0
    case (Some(l), None) => l + 1.0
    case (Some(l), Some(h)) => if l == h then l else (l + h) / 2.0
  }

  lemma EmptyMeans(a: Interval)
    ensures a.IsEmpty() <==> forall v :: !a.Contains(v)
  {
    if !a.IsEmpty() {
      assert a.Contains(Witness(a));
    }
  }

  /** The part of a not above b's lower end, or not below its upper end. */
  function Outside(a: Interval, b: Interval): Interval
    requires !a.SubsetOf(b)
  {
    if !a.LowerWithin(b) then
      if a.hi.None? || a.hi.value > b.lo.value || (a.hi.value == b.lo.value && a.hiClosed)
      then Interval(a.lo, a.loClosed, b.lo, !b.loClosed) else a
    else if a.lo.None? || a.lo.value < b.hi.value || (a.lo.value == b.hi.value && a.loClosed)
      then Interval(b.hi, !b.hiClosed, a.hi, a.hiClosed) else a
  }

  /** `subset_of` is exactly inclusion of the point sets. */
  lemma SubsetMeans(a: Interval, b: Interval)
    ensures a.SubsetOf(b) <==> forall v :: a.Contains(v) ==> b.Contains(v)
  {
    if !a.SubsetOf(b) {
      var o := Outside(a, b);
      var v := Witness(o);
      assert a.Contains(v) && !b.Contains(v);
    } else if a.IsEmpty() {
      EmptyMeans(a);
    }
  }

  function Intersection(a: Interval, b: Interval): Interval {
    var low := if a.LowerWithin(b) then a else b;
    var high := if a.UpperWithin(b) then a else b;
    Interval(low.lo, low.loClosed, high.hi, high.hiClosed)
  }

  /** `disjoint` rules out a common point, and for non-empty intervals it is exactly that. */
  lemma DisjointMeans(a: Interval, b: Interval)
    ensures a.Disjoint(b) ==> forall v :: !(a.Contains(v) && b.Contains(v))
    ensures !a.IsEmpty() && !b.IsEmpty() && (forall v :: !(a.Contains(v) && b.Contains(v))) ==> a.Disjoint(b)
  {
    if !a.IsEmpty() && !b.IsEmpty() && !a.Disjoint(b) {
      var v := Witness(Intersection(a, b));
      assert a.Contains(v) && b.Contains(v);
    }
  }

  // ---------------------------------------------------------------- the grid

  /** Inclusive index range; None is unbounded. */
  datatype Range = Range(lo: Option<int>, hi: Option<int>) {
    predicate Has(k: int) {
      (lo.None? || lo.value <= k) && (hi.None? || k <= hi.value)
    }
  }

  function Ceil(x: real): int {
    -((-x).Floor)
  }

  function GridPoint(k: int, step: real): real {
    k as real * step
  }

  /** The grid points inside the interval, None if there are none. */
  function LatticeRange(iv: Interval, step: real): Option<Range>
    requires step > 0.0
  {
    var lo, hi := LatticeLo(iv, step), LatticeHi(iv, step);
    if lo.Some? && hi.Some? && lo.value > hi.value then None else Some(Range(lo, hi))
  }

  lemma Quotient(k: int, x: real, step: real)
    requires step > 0.0
    ensures GridPoint(k, step) < x <==> (k as real) < x / step
    ensures GridPoint(k, step) == x <==> k as real == x / step
  {
    var q := x / step;
    assert q * step == x;
    if (k as real) < q {
      assert k as real * step < q * step;
    } else if k as real > q {
      assert k as real * step > q * step;
    }
  }

  lemma Rounds(x: real, k: int)
    ensures (k as real) >= x <==> k >= Ceil(x)
    ensures (k as real) > x <==> k >= x.Floor + 1
    ensures (k as real) <= x <==> k <= x.Floor
    ensures (k as real) < x <==> k <= Ceil(x) - 1
  {
  }

  function LatticeLo(iv: Interval, step: real): Option<int>
    requires step > 0.0
  {
    match iv.lo
    case None => None
    case Some(l) => Some(if iv.loClosed then Ceil(l / step) else (l / step).Floor + 1)
  }

  function LatticeHi(iv: Interval, step: real): Option<int>
    requires step > 0.0
  {
    match iv.hi
    case None => None
    case Some(h) => Some(if iv.hiClosed then (h / step).Floor else Ceil(h / step) - 1)
  }

  lemma LatticeEnds(iv: Interval, step: real, k: int)
    requires step > 0.0
    ensures iv.Above(GridPoint(k, step)) <==> LatticeLo(iv, step).None? || LatticeLo(iv, step).value <= k
    ensures iv.Below(GridPoint(k, step)) <==> LatticeHi(iv, step).None? || k <= LatticeHi(iv, step).value
  {
    hide GridPoint, Ceil;
    if iv.lo.Some? {
      Quotient(k, iv.lo.value, step);
      Rounds(iv.lo.value / step, k);
    }
    if iv.hi.Some? {
      Quotient(k, iv.hi.value, step);
      Rounds(iv.hi.value / step, k);
    }
  }

  /** `lattice_range` is precisely the grid points in the interval. */
  lemma LatticeExact(iv: Interval, step: real, k: int)
    requires step > 0.0
    ensures iv.Contains(GridPoint(k, step)) <==> LatticeRange(iv, step).Some? && LatticeRange(iv, step).value.Has(k)
  {
    hide GridPoint, LatticeLo, LatticeHi, Interval.Above, Interval.Below;
    LatticeEnds(iv, step, k);
  }

  ghost predicate OnGrid(v: real, step: real) {
    exists k: int :: v == GridPoint(k, step)
  }

  // ---------------------------------------------------------------- how many intervals hold a value

  function Holding(v: real): Interval -> bool {
    (iv: Interval) => iv.Contains(v)
  }

  function CountIn(ivs: seq<Interval>, v: real): nat {
    |Filter(ivs, Holding(v))|
  }

  lemma CountSnoc(ivs: seq<Interval>, v: real)
    requires ivs != []
    ensures CountIn(ivs, v) == CountIn(ivs[..|ivs| - 1], v) + (if ivs[|ivs| - 1].Contains(v) then 1 else 0)
  {
  }

  ghost predicate PairwiseDisjoint(ivs: seq<Interval>) {
    forall i, j | 0 <= i < j < |ivs| :: ivs[i].Disjoint(ivs[j])
  }

  lemma {:induction false} NobodyHolds(ivs: seq<Interval>, v: real)
    ensures CountIn(ivs, v) == 0 <==> forall i | 0 <= i < |ivs| :: !ivs[i].Contains(v)
  {
    if ivs != [] {
      CountSnoc(ivs, v);
      NobodyHolds(ivs[..|ivs| - 1], v);
    }
  }

  lemma {:induction false} AtMostOneHolds(ivs: seq<Interval>, v: real)
    requires forall i, j | 0 <= i < j < |ivs| :: !(ivs[i].Contains(v) && ivs[j].Contains(v))
    ensures CountIn(ivs, v) <= 1
  {
    if ivs != [] {
      var n := |ivs| - 1;
      CountSnoc(ivs, v);
      AtMostOneHolds(ivs[..n], v);
      if ivs[n].Contains(v) {
        NobodyHolds(ivs[..n], v);
      }
    }
  }

  lemma DisjointCount(ivs: seq<Interval>, v: real)
    requires PairwiseDisjoint(ivs)
    ensures CountIn(ivs, v) <= 1
  {
    forall i, j | 0 <= i < j < |ivs|
      ensures !(ivs[i].Contains(v) && ivs[j].Contains(v))
    {
      DisjointMeans(ivs[i], ivs[j]);
    }
    AtMostOneHolds(ivs, v);
  }

  // ---------------------------------------------------------------- tilings of the line

  /** Sort by lower end; at an equal bound the closed end comes first. */
  function ByLowerEnd(): (Interval, Interval) -> bool {
    (a: Interval, b: Interval) =>
      if a.lo.None? then true
      else if b.lo.None? then false
      else a.lo.value < b.lo.value || (a.lo.value == b.lo.value && (a.loClosed || !b.loClosed))
  }

  /** The next interval starts exactly where this one stops, and one of the two has the point. */
  predicate Abuts(a: Interval, b: Interval) {
    a.hi.Some? && b.lo.Some? && a.hi.value == b.lo.value && (a.hiClosed || b.loClosed)
  }

  predicate CoversLine(order: seq<Interval>) {
    && order != [] && order[0].lo.None? && order[|order| - 1].hi.None?
    && forall i | 0 <= i < |order| - 1 :: Abuts(order[i], order[i + 1])
  }

  lemma {:induction false} FirstBelow(order: seq<Interval>, v: real, n: nat)
    requires order != [] && order[0].Above(v) && n < |order| && order[n].Below(v)
    requires forall i | 0 <= i < |order| - 1 :: Abuts(order[i], order[i + 1])
    ensures exists i :: 0 <= i < |order| && order[i].Contains(v)
  {
    if n > 0 && order[n - 1].Below(v) {
      FirstBelow(order, v, n - 1);
    } else {
      assert n > 0 ==> Abuts(order[n - 1], order[n]);
      assert order[n].Contains(v);
    }
  }

  /** Disjoint, and abutting from minus to plus infinity: every real lies in exactly one interval. */
  lemma LineTiled(order: seq<Interval>, v: real)
    requires PairwiseDisjoint(order) && CoversLine(order)
    ensures CountIn(order, v) == 1
  {
    FirstBelow(order, v, |order| - 1);
    NobodyHolds(order, v);
    DisjointCount(order, v);
  }

  predicate ContiguousCover(ranges: seq<Option<Range>>) {
    && ranges != [] && (forall i | 0 <= i < |ranges| :: ranges[i].Some?)
    && ranges[0].value.lo.None? && ranges[|ranges| - 1].value.hi.None?
    && forall i | 0 <= i < |ranges| - 1 :: Follows(ranges[i].value, ranges[i + 1].value)
  }

  predicate Follows(p: Range, q: Range) {
    p.hi.Some? && q.lo.Some? && q.lo.value == p.hi.value + 1
  }

  function RangeCount(ranges: seq<Option<Range>>, k: int): nat {
    if ranges == [] then 0
    else RangeCount(ranges[..|ranges| - 1], k)
         + (if ranges[|ranges| - 1].Some? && ranges[|ranges| - 1].value.Has(k) then 1 else 0)
  }

  ghost predicate Consistent(r: Range) {
    r.lo.Some? && r.hi.Some? ==> r.lo.value <= r.hi.value
  }

  /** Consecutive ranges following on from one another hold each index from the first's lower end up
      to the last's upper end exactly once, and no other index. */
  lemma {:induction false} RunCounts(ranges: seq<Option<Range>>, k: int)
    requires ranges != [] && forall i | 0 <= i < |ranges| :: ranges[i].Some? && Consistent(ranges[i].value)
    requires forall i | 0 <= i < |ranges| - 1 :: Follows(ranges[i].value, ranges[i + 1].value)
    ensures var first, last := ranges[0].value, ranges[|ranges| - 1].value;
            && RangeCount(ranges, k) == (if Range(first.lo, last.hi).Has(k) then 1 else 0)
            && Consistent(Range(first.lo, last.hi))
  {
    var n := |ranges| - 1;
    if n == 0 {
      assert RangeCount(ranges[..0], k) == 0;
    } else {
      RunCounts(ranges[..n], k);
      assert Follows(ranges[n - 1].value, ranges[n].value);
    }
  }

  /** `_contiguous_cover`: every integer lies in exactly one of the ranges. */
  lemma IntegersTiled(ranges: seq<Option<Range>>, k: int)
    requires ContiguousCover(ranges)
    requires forall i | 0 <= i < |ranges| :: Consistent(ranges[i].value)
    ensures RangeCount(ranges, k) == 1
  {
    RunCounts(ranges, k);
  }

  function RangesOf(ivs: seq<Interval>, step: real): seq<Option<Range>>
    requires step > 0.0
  {
    seq(|ivs|, i requires 0 <= i < |ivs| => LatticeRange(ivs[i], step))
  }

  lemma {:induction false} CountOnGrid(ivs: seq<Interval>, step: real, k: int)
    requires step > 0.0
    ensures CountIn(ivs, GridPoint(k, step)) == RangeCount(RangesOf(ivs, step), k)
  {
    if ivs != [] {
      var n := |ivs| - 1;
      CountSnoc(ivs, GridPoint(k, step));
      CountOnGrid(ivs[..n], step, k);
      LatticeExact(ivs[n], step, k);
      assert RangesOf(ivs, step)[..n] == RangesOf(ivs[..n], step);
    }
  }

  lemma SortedCount(ivs: seq<Interval>, v: real)
    ensures CountIn(StableSort(ivs, ByLowerEnd()), v) == CountIn(ivs, v)
  {
    LowerEndOrders();
    SortStable(ivs, Holding(v), ByLowerEnd());
    SortSorts(Filter(ivs, Holding(v)), ByLowerEnd());
  }

  lemma LowerEndOrders()
    ensures TotalPreorder(ByLowerEnd())
  {
  }

  datatype TileResult = TileResult(disjoint: bool, onRealLine: bool, onLattice: bool)

  ghost predicate TilesLine(ivs: seq<Interval>) {
    forall v :: CountIn(ivs, v) == 1
  }

  ghost predicate TilesGrid(ivs: seq<Interval>, step: real) {
    forall k: int :: CountIn(ivs, GridPoint(k, step)) == 1
  }

  /** What the analysis looks at, sorted by lower end: do the intervals run from end to end of the line,
      do their grid ranges follow on from one another. */
  ghost function Tiling(ivs: seq<Interval>, step: real): TileResult
    requires ivs != [] && step > 0.0
  {
    var order := StableSort(ivs, ByLowerEnd());
    if PairwiseDisjoint(ivs) then TileResult(true, CoversLine(order), ContiguousCover(RangesOf(order, step)))
    else TileResult(false, false, false)
  }

  /** `analyse_tiling`. */
  method AnalyseTiling(ivs: seq<Interval>, step: real) returns (r: TileResult)
    requires ivs != [] && step > 0.0
    ensures r == Tiling(ivs, step)
    ensures r.disjoint <==> PairwiseDisjoint(ivs)
    ensures r.onRealLine ==> TilesLine(ivs)
    ensures r.onLattice ==> TilesGrid(ivs, step)
  {
    var disjoint := true;
    for i := 0 to |ivs|
      invariant disjoint <==> forall a, b | 0 <= a < b < |ivs| && a < i :: ivs[a].Disjoint(ivs[b])
    {
      for j := i + 1 to |ivs|
        invariant disjoint <==>
          && (forall a, b | 0 <= a < b < |ivs| && a < i :: ivs[a].Disjoint(ivs[b]))
          && (forall b | i < b < j :: ivs[i].Disjoint(ivs[b]))
      {
        disjoint := disjoint && ivs[i].Disjoint(ivs[j]);
      }
    }
    if !disjoint {
      return TileResult(false, false, false);
    }
    var order := StableSort(ivs, ByLowerEnd());
    LowerEndOrders();
    SortSorts(ivs, ByLowerEnd());
    var real_ := order[0].lo.None? && order[|order| - 1].hi.None?;
    for i := 0 to |order| - 1
      invariant real_ <==> order[0].lo.None? && order[|order| - 1].hi.None?
                           && forall k | 0 <= k < i :: Abuts(order[k], order[k + 1])
    {
      if !Abuts(order[i], order[i + 1]) {
        real_ := false;
      }
    }
    var lattice := ContiguousCover(RangesOf(order, step));
    TilingMeans(ivs, step, real_, lattice);
    return TileResult(true, real_, lattice);
  }

  lemma TilingMeans(ivs: seq<Interval>, step: real, onLine: bool, onGrid: bool)
    requires ivs != [] && step > 0.0 && PairwiseDisjoint(ivs)
    requires onLine ==> CoversLine(StableSort(ivs, ByLowerEnd()))
    requires onGrid ==> ContiguousCover(RangesOf(StableSort(ivs, ByLowerEnd()), step))
    ensures onLine ==> TilesLine(ivs)
    ensures onGrid ==> TilesGrid(ivs, step)
  {
    var order := StableSort(ivs, ByLowerEnd());
    if onLine {
      forall v
        ensures CountIn(ivs, v) == 1
      {
        FirstBelow(order, v, |order| - 1);
        NobodyHolds(order, v);
        SortedCount(ivs, v);
        DisjointCount(ivs, v);
      }
    }
    if onGrid {
      forall k: int
        ensures CountIn(ivs, GridPoint(k, step)) == 1
      {
        IntegersTiled(RangesOf(order, step), k);
        CountOnGrid(order, step, k);
        SortedCount(ivs, GridPoint(k, step));
      }
    }
  }

  // ---------------------------------------------------------------- unions

  /** `_exact_on_real_line`: the tiles start where the target starts, stop where it stops, and abut. */
  predicate ExactOnRealLine(target: Interval, tiles: seq<Interval>) {
    && tiles != []
    && tiles[0].lo == target.lo && tiles[0].loClosed == target.loClosed
    && tiles[|tiles| - 1].hi == target.hi && tiles[|tiles| - 1].hiClosed == target.hiClosed
    && forall i | 0 <= i < |tiles| - 1 :: Abuts(tiles[i], tiles[i + 1])
  }

  /** Then, if the tiles are disjoint and inside the target, a real is in the target exactly when it is
      in exactly one tile. */
  lemma UnionOnLine(target: Interval, tiles: seq<Interval>, v: real)
    requires ExactOnRealLine(target, tiles)
    requires CountIn(tiles, v) <= 1
    requires forall i | 0 <= i < |tiles| :: tiles[i].SubsetOf(target)
    ensures target.Contains(v) <==> CountIn(tiles, v) == 1
  {
    NobodyHolds(tiles, v);
    if target.Contains(v) {
      FirstBelow(tiles, v, |tiles| - 1);
    } else {
      forall i | 0 <= i < |tiles|
        ensures !tiles[i].Contains(v)
      {
        SubsetMeans(tiles[i], target);
      }
    }
  }
}
