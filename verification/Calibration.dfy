/** pricing/calibration.py: isotonic recalibration by pool-adjacent-violators.  Forecasts and
    outcomes are exact reals. */
module Calibration {
  import opened Sorting

  datatype Block = Block(sumY: real, weight: nat, sumP: real) {
    function Mean(): real
      requires weight > 0
    {
      sumY / weight as real
    }

    function Centre(): real
      requires weight > 0
    {
      sumP / weight as real
    }
  }

  // ---------------------------------------------------------------- sums and squared error

  function Sum(s: seq<real>): real {
    if s == [] then 0.0 else Sum(s[..|s| - 1]) + s[|s| - 1]
  }

  function Sq(x: real): real {
    x * x
  }

  function SqErr(y: seq<real>, f: seq<real>): real
    requires |y| == |f|
  {
    if y == [] then 0.0 else SqErr(y[..|y| - 1], f[..|f| - 1]) + Sq(y[|y| - 1] - f[|f| - 1])
  }

  ghost predicate NonDecreasing(f: seq<real>) {
    forall i, j | 0 <= i < j < |f| :: f[i] <= f[j]
  }

  lemma {:induction false} SumAppend(a: seq<real>, b: seq<real>)
    ensures Sum(a + b) == Sum(a) + Sum(b)
  {
    if b == [] {
      assert a + b == a;
    } else {
      assert (a + b)[..|a + b| - 1] == a + b[..|b| - 1];
      SumAppend(a, b[..|b| - 1]);
    }
  }

  lemma {:induction false} SqErrAppend(y1: seq<real>, f1: seq<real>, y2: seq<real>, f2: seq<real>)
    requires |y1| == |f1| && |y2| == |f2|
    ensures SqErr(y1 + y2, f1 + f2) == SqErr(y1, f1) + SqErr(y2, f2)
  {
    if y2 == [] {
      assert y1 + y2 == y1 && f1 + f2 == f1;
    } else {
      assert (y1 + y2)[..|y1 + y2| - 1] == y1 + y2[..|y2| - 1];
      assert (f1 + f2)[..|f1 + f2| - 1] == f1 + f2[..|f2| - 1];
      SqErrAppend(y1, f1, y2[..|y2| - 1], f2[..|f2| - 1]);
    }
  }

  // ---------------------------------------------------------------- one block

  function Repeat(v: real, n: nat): seq<real> {
    seq(n, _ => v)
  }

  /** How far the total of s exceeds level m. */
  ghost function Excess(s: seq<real>, m: real): real {
    if s == [] then 0.0 else Excess(s[..|s| - 1], m) + (s[|s| - 1] - m)
  }

  /** Every prefix of the block averages at least the level m. */
  ghost predicate PrefixHeavy(s: seq<real>, m: real) {
    forall k | 0 <= k <= |s| :: Excess(s[..k], m) >= 0.0
  }

  /** Sum of (s[i] - m) * g[i]. */
  ghost function Tilt(s: seq<real>, m: real, g: seq<real>): real
    requires |s| == |g|
  {
    if s == [] then 0.0
    else Tilt(s[..|s| - 1], m, g[..|g| - 1]) + Mul(s[|s| - 1] - m, g[|g| - 1])
  }

  function Mul(a: real, b: real): real {
    a * b
  }

  lemma MulAdd(a: real, b: real, c: real)
    ensures Mul(a + b, c) == Mul(a, c) + Mul(b, c)
    ensures Mul(c, a + b) == Mul(c, a) + Mul(c, b)
  {
  }

  lemma MulMono(a: real, b: real, c: real)
    requires a >= 0.0 && b <= c
    ensures Mul(a, b) <= Mul(a, c)
  {
  }

  lemma {:induction false} ExcessAppend(s: seq<real>, t: seq<real>, m: real)
    ensures Excess(s + t, m) == Excess(s, m) + Excess(t, m)
  {
    if t == [] {
      assert s + t == s;
    } else {
      assert (s + t)[..|s + t| - 1] == s + t[..|t| - 1];
      ExcessAppend(s, t[..|t| - 1], m);
    }
  }

  lemma {:induction false} ExcessShift(s: seq<real>, a: real, m: real)
    ensures Excess(s, m) == Excess(s, a) + Mul(|s| as real, a - m)
  {
    if s != [] {
      ExcessShift(s[..|s| - 1], a, m);
      MulAdd((|s| - 1) as real, 1.0, a - m);
      assert |s| as real == (|s| - 1) as real + 1.0;
    }
  }

  lemma {:induction false} ExcessSum(s: seq<real>)
    ensures Excess(s, 0.0) == Sum(s)
  {
    if s != [] {
      ExcessSum(s[..|s| - 1]);
    }
  }

  /** Summation by parts: against a non-decreasing g, a prefix-heavy block tilts at most by its
      total excess at the last value of g. */
  lemma {:induction false} TiltBound(s: seq<real>, m: real, g: seq<real>)
    requires |s| == |g| > 0 && PrefixHeavy(s, m) && NonDecreasing(g)
    ensures Tilt(s, m, g) <= Mul(Excess(s, m), g[|g| - 1])
  {
    hide Mul;
    var n := |s| - 1;
    var s', g' := s[..n], g[..n];
    if n == 0 {
      assert Excess(s', m) == 0.0 && Tilt(s', m, g') == 0.0;
    } else {
      assert PrefixHeavy(s', m) by {
        forall k | 0 <= k <= |s'|
          ensures Excess(s'[..k], m) >= 0.0
        {
          assert s'[..k] == s[..k];
        }
      }
      TiltBound(s', m, g');
      MulMono(Excess(s', m), g[n - 1], g[n]);
      MulAdd(Excess(s', m), s[n] - m, g[n]);
    }
  }

  lemma SquareSplit(a: real, m: real, b: real)
    ensures Sq(a - b) == Sq(a - m) + Sq(m - b) + 2.0 * (Mul(m, a - m) - Mul(a - m, b))
  {
  }

  lemma {:induction false} SqErrExpand(s: seq<real>, m: real, g: seq<real>)
    requires |s| == |g|
    ensures SqErr(s, g) == SqErr(s, Repeat(m, |s|)) + SqErr(Repeat(m, |s|), g)
                           + 2.0 * (Mul(m, Excess(s, m)) - Tilt(s, m, g))
  {
    if s == [] {
    } else {
      hide Mul, Sq;
      var n := |s| - 1;
      var r := Repeat(m, |s|);
      SqErrExpand(s[..n], m, g[..n]);
      assert r[..n] == Repeat(m, n);
      SquareSplit(s[n], m, g[n]);
      MulAdd(Excess(s[..n], m), s[n] - m, m);
    }
  }

  /** The block's own level beats any non-decreasing assignment g, by at least their distance. */
  lemma BlockBest(s: seq<real>, m: real, g: seq<real>)
    requires |s| == |g| > 0 && PrefixHeavy(s, m) && NonDecreasing(g)
    requires Excess(s, m) == 0.0
    ensures SqErr(s, g) >= SqErr(s, Repeat(m, |s|)) + SqErr(Repeat(m, |s|), g)
  {
    TiltBound(s, m, g);
    SqErrExpand(s, m, g);
    assert Mul(m, 0.0) == 0.0 && Mul(0.0, g[|g| - 1]) == 0.0;
  }

  // ---------------------------------------------------------------- the stack of blocks

  /** The block carries the run's totals, and no prefix of the run averages below it. */
  ghost predicate IsRun(b: Block, ys: seq<real>, ps: seq<real>) {
    && b.weight == |ys| == |ps| > 0
    && b.sumY == Sum(ys)
    && b.sumP == Sum(ps)
    && PrefixHeavy(ys, b.Mean())
  }

  /** The blocks cut the sample into consecutive runs. */
  ghost predicate Tiles(blocks: seq<Block>, ys: seq<real>, ps: seq<real>)
    requires |ys| == |ps|
  {
    if blocks == [] then ys == []
    else
      var b, n := blocks[|blocks| - 1], |ys| - blocks[|blocks| - 1].weight;
      && 0 <= n < |ys|
      && IsRun(b, ys[n..], ps[n..])
      && Tiles(blocks[..|blocks| - 1], ys[..n], ps[..n])
  }

  ghost predicate MeansOrdered(blocks: seq<Block>) {
    && (forall i | 0 <= i < |blocks| :: blocks[i].weight > 0)
    && (forall i | 0 < i < |blocks| :: blocks[i - 1].Mean() <= blocks[i].Mean())
  }

  function Step(blocks: seq<Block>): (f: seq<real>)
    requires forall b | b in blocks :: b.weight > 0
  {
    if blocks == [] then []
    else
      var b := blocks[|blocks| - 1];
      Step(blocks[..|blocks| - 1]) + Repeat(b.Mean(), b.weight)
  }

  lemma {:induction false} TilesWeights(blocks: seq<Block>, ys: seq<real>, ps: seq<real>)
    requires |ys| == |ps| && Tiles(blocks, ys, ps)
    ensures forall b | b in blocks :: b.weight > 0
    ensures |Step(blocks)| == |ys|
  {
    if blocks != [] {
      var n := |ys| - blocks[|blocks| - 1].weight;
      assert blocks == blocks[..|blocks| - 1] + [blocks[|blocks| - 1]];
      TilesWeights(blocks[..|blocks| - 1], ys[..n], ps[..n]);
    }
  }

  lemma MeanTimesWeight(b: Block, s: seq<real>)
    requires b.weight == |s| > 0 && b.sumY == Sum(s)
    ensures Excess(s, b.Mean()) == 0.0
  {
    ExcessSum(s);
    ExcessShift(s, 0.0, b.Mean());
    assert b.Mean() * |s| as real == b.sumY;
  }

  lemma SignOf(p: real, x: real)
    requires p > 0.0
    ensures x > 0.0 ==> Mul(p, x) > 0.0
    ensures x < 0.0 ==> Mul(p, x) < 0.0
    ensures x == 0.0 ==> Mul(p, x) == 0.0
  {
  }

  lemma PoolLevel(p: real, q: real, a: real, b: real, m: real)
    requires p > 0.0 && q > 0.0 && a > b
    requires Mul(p, a - m) + Mul(q, b - m) == 0.0
    ensures b < m < a
  {
    SignOf(p, a - m);
    SignOf(q, b - m);
  }

  /** Pooling two adjacent runs whose means are out of order keeps the run prefix-heavy. */
  lemma PoolHeavy(s: seq<real>, t: seq<real>, a: real, b: real, m: real)
    requires |s| > 0 && |t| > 0 && a > b
    requires PrefixHeavy(s, a) && PrefixHeavy(t, b)
    requires Excess(s, a) == 0.0 && Excess(t, b) == 0.0 && Excess(s + t, m) == 0.0
    ensures PrefixHeavy(s + t, m)
  {
    hide Mul;
    var p, q := |s| as real, |t| as real;
    ExcessAppend(s, t, m);
    ExcessShift(s, a, m);
    ExcessShift(t, b, m);
    PoolLevel(p, q, a, b, m);
    forall k | 0 <= k <= |s + t|
      ensures Excess((s + t)[..k], m) >= 0.0
    {
      if k <= |s| {
        assert (s + t)[..k] == s[..k];
        ExcessShift(s[..k], a, m);
        Positive(k as real, a - m);
      } else {
        var j := k - |s|;
        assert (s + t)[..k] == s + t[..j];
        ExcessAppend(s, t[..j], m);
        ExcessShift(t[..j], b, m);
        MulAdd(q - j as real, j as real, b - m);
        NegativeSlope(q - j as real, b - m);
      }
    }
  }

  lemma Positive(a: real, b: real)
    requires a >= 0.0 && b >= 0.0
    ensures Mul(a, b) >= 0.0
  {
  }

  lemma NegativeSlope(a: real, b: real)
    requires a >= 0.0 && b <= 0.0
    ensures Mul(a, b) <= 0.0
  {
  }

  function Pool(a: Block, b: Block): Block {
    Block(a.sumY + b.sumY, a.weight + b.weight, a.sumP + b.sumP)
  }

  lemma PoolRun(a: Block, b: Block, ys: seq<real>, ps: seq<real>, ys': seq<real>, ps': seq<real>)
    requires IsRun(a, ys, ps) && IsRun(b, ys', ps') && a.Mean() > b.Mean()
    ensures IsRun(Pool(a, b), ys + ys', ps + ps')
  {
    hide Block.Mean, Sum, Excess, PrefixHeavy, Mul;
    SumAppend(ys, ys');
    SumAppend(ps, ps');
    MeanTimesWeight(a, ys);
    MeanTimesWeight(b, ys');
    MeanTimesWeight(Pool(a, b), ys + ys');
    PoolHeavy(ys, ys', a.Mean(), b.Mean(), Pool(a, b).Mean());
  }

  lemma PushRun(blocks: seq<Block>, ys: seq<real>, ps: seq<real>, b: Block, ys': seq<real>, ps': seq<real>)
    requires |ys| == |ps| && Tiles(blocks, ys, ps) && IsRun(b, ys', ps')
    ensures Tiles(blocks + [b], ys + ys', ps + ps')
  {
    hide Block.Mean, Sum, PrefixHeavy;
    var n := |ys|;
    assert (blocks + [b])[..|blocks|] == blocks;
    assert (ys + ys')[..n] == ys && (ys + ys')[n..] == ys';
    assert (ps + ps')[..n] == ps && (ps + ps')[n..] == ps';
  }

  lemma PopRun(blocks: seq<Block>, b: Block, ys: seq<real>, ps: seq<real>) returns (n: nat)
    requires |ys| == |ps| && Tiles(blocks + [b], ys, ps)
    ensures n <= |ys| && Tiles(blocks, ys[..n], ps[..n]) && IsRun(b, ys[n..], ps[n..])
  {
    hide IsRun;
    n := |ys| - b.weight;
    assert (blocks + [b])[..|blocks|] == blocks;
  }

  lemma PoolTiles(blocks: seq<Block>, a: Block, b: Block, ys: seq<real>, ps: seq<real>)
    requires |ys| == |ps| && Tiles(blocks + [a] + [b], ys, ps)
    requires a.weight > 0 && b.weight > 0 && a.Mean() > b.Mean()
    ensures Tiles(blocks + [Pool(a, b)], ys, ps)
  {
    hide Block.Mean, IsRun, Tiles;
    var n := PopRun(blocks + [a], b, ys, ps);
    var k := PopRun(blocks, a, ys[..n], ps[..n]);
    PoolRun(a, b, ys[..n][k..], ps[..n][k..], ys[n..], ps[n..]);
    PushRun(blocks, ys[..n][..k], ps[..n][..k], Pool(a, b), ys[..n][k..] + ys[n..], ps[..n][k..] + ps[n..]);
    Rejoin(ys, n, k);
    Rejoin(ps, n, k);
  }

  lemma Rejoin(s: seq<real>, n: nat, k: nat)
    requires k <= n <= |s|
    ensures s[..n][..k] + (s[..n][k..] + s[n..]) == s
  {
  }

  lemma RunOfOne(y: real, p: real)
    ensures IsRun(Block(y, 1, p), [y], [p])
  {
    assert Block(y, 1, p).Mean() == y;
    assert [y][..0] == [] && [y][..1] == [y] && [p][..0] == [];
  }

  lemma {:induction false} StepNonDecreasing(blocks: seq<Block>)
    requires MeansOrdered(blocks)
    ensures NonDecreasing(Step(blocks))
    ensures blocks != [] ==> forall v | v in Step(blocks) :: v <= blocks[|blocks| - 1].Mean()
  {
    hide Block.Mean;
    if blocks != [] {
      var front := blocks[..|blocks| - 1];
      StepNonDecreasing(front);
      var b := blocks[|blocks| - 1];
      assert forall v | v in Step(front) :: v <= b.Mean() by {
        if front != [] {
          assert front[|front| - 1].Mean() <= b.Mean();
        }
      }
      var f := Step(blocks);
      forall i, j | 0 <= i < j < |f|
        ensures f[i] <= f[j]
      {
        if j >= |Step(front)| {
          assert f[j] == b.Mean();
          assert i < |Step(front)| ==> f[i] in Step(front);
        }
      }
    }
  }

  /** The step function has the least squared error among all non-decreasing sequences, and any
      competitor pays at least its own squared distance from it on top. */
  lemma {:induction false} StepOptimal(blocks: seq<Block>, ys: seq<real>, ps: seq<real>, g: seq<real>)
    requires |ys| == |ps| == |g| && Tiles(blocks, ys, ps) && NonDecreasing(g)
    ensures (forall b | b in blocks :: b.weight > 0) && |Step(blocks)| == |ys|
    ensures SqErr(ys, g) >= SqErr(ys, Step(blocks)) + SqErr(Step(blocks), g)
  {
    hide Block.Mean;
    TilesWeights(blocks, ys, ps);
    if blocks != [] {
      var b := blocks[|blocks| - 1];
      var n := |ys| - b.weight;
      var front := blocks[..|blocks| - 1];
      TilesWeights(front, ys[..n], ps[..n]);
      StepOptimal(front, ys[..n], ps[..n], g[..n]);
      MeanTimesWeight(b, ys[n..]);
      BlockBest(ys[n..], b.Mean(), g[n..]);
      assert ys == ys[..n] + ys[n..] && g == g[..n] + g[n..];
      SqErrAppend(ys[..n], g[..n], ys[n..], g[n..]);
      SqErrAppend(ys[..n], Step(front), ys[n..], Repeat(b.Mean(), b.weight));
      SqErrAppend(Step(front), g[..n], Repeat(b.Mean(), b.weight), g[n..]);
    }
  }

  lemma SquareZero(x: real)
    ensures Sq(x) >= 0.0
    ensures Sq(x) == 0.0 ==> x == 0.0
  {
    if x > 0.0 {
      SignOf(x, x);
      assert Sq(x) == Mul(x, x);
    } else if x < 0.0 {
      SignOf(-x, -x);
      assert Sq(x) == Mul(-x, -x);
    }
  }

  lemma {:induction false} SqErrZero(f: seq<real>, g: seq<real>)
    requires |f| == |g|
    ensures SqErr(f, g) >= 0.0
    ensures SqErr(f, g) == 0.0 ==> f == g
  {
    if f != [] {
      var n := |f| - 1;
      SqErrZero(f[..n], g[..n]);
      SquareZero(f[n] - g[n]);
      if SqErr(f, g) == 0.0 {
        assert f == f[..n] + [f[n]] && g == g[..n] + [g[n]];
      }
    }
  }

  /** The minimiser is unique: a non-decreasing sequence that does as well is the step function. */
  lemma StepUnique(blocks: seq<Block>, ys: seq<real>, ps: seq<real>, g: seq<real>)
    requires |ys| == |ps| == |g| && Tiles(blocks, ys, ps) && NonDecreasing(g)
    requires forall b | b in blocks :: b.weight > 0
    requires |Step(blocks)| == |ys| && SqErr(ys, g) <= SqErr(ys, Step(blocks))
    ensures g == Step(blocks)
  {
    StepOptimal(blocks, ys, ps, g);
    SqErrZero(Step(blocks), g);
  }

  // ---------------------------------------------------------------- argsort

  function At(p: seq<real>, i: nat): real {
    if i < |p| then p[i] else 0.0
  }

  function Along(p: seq<real>, order: seq<nat>): seq<real> {
    seq(|order|, i requires 0 <= i < |order| => At(p, order[i]))
  }

  function ByForecast(p: seq<real>): (nat, nat) -> bool {
    (i: nat, j: nat) => At(p, i) <= At(p, j)
  }

  function Indices(n: nat): seq<nat> {
    seq(n, i => i)
  }

  /** `np.argsort(p, kind="stable")`. */
  function ArgSort(p: seq<real>): seq<nat> {
    StableSort(Indices(|p|), ByForecast(p))
  }

  lemma ArgSortOrders(p: seq<real>)
    ensures |ArgSort(p)| == |p|
    ensures multiset(ArgSort(p)) == multiset(Indices(|p|))
    ensures forall i | i in ArgSort(p) :: 0 <= i < |p|
    ensures NonDecreasing(Along(p, ArgSort(p)))
    ensures forall i, j | 0 <= i < j < |p| :: ArgSort(p)[i] != ArgSort(p)[j]
  {
    SortSorts(Indices(|p|), ByForecast(p));
    Distinct(Indices(|p|), ArgSort(p));
  }

  /** A rearrangement of distinct elements has distinct elements. */
  lemma Distinct<T>(s: seq<T>, t: seq<T>)
    requires multiset(s) == multiset(t)
    requires forall i, j | 0 <= i < j < |s| :: s[i] != s[j]
    ensures forall i, j | 0 <= i < j < |t| :: t[i] != t[j]
  {
    forall i, j | 0 <= i < j < |t|
      ensures t[i] != t[j]
    {
      var e := t[i];
      if e == t[j] {
        assert t == t[..j] + [e] + t[j + 1..];
        assert e in t[..j];
        assert multiset(t)[e] >= 2;
        OnceOnly(s, e);
      }
    }
  }

  lemma {:induction false} OnceOnly<T>(s: seq<T>, e: T)
    requires forall i, j | 0 <= i < j < |s| :: s[i] != s[j]
    ensures multiset(s)[e] <= 1
  {
    if s != [] {
      OnceOnly(s[..|s| - 1], e);
      assert s == s[..|s| - 1] + [s[|s| - 1]];
      if e == s[|s| - 1] {
        assert e !in s[..|s| - 1];
      }
    }
  }

  // ---------------------------------------------------------------- the calibrator

  ghost predicate LeastSquares(ys: seq<real>, f: seq<real>)
    requires |ys| == |f|
  {
    && NonDecreasing(f)
    && (forall g: seq<real> | |g| == |ys| && NonDecreasing(g) :: SqErr(ys, f) <= SqErr(ys, g))
  }

  /** The fitted points are the pooled blocks': their mean forecasts, their mean outcomes, and the step
      function the means make over the sorted sample. */
  ghost predicate FromBlocks(blocks: seq<Block>, ys: seq<real>, ps: seq<real>, x: seq<real>, v: seq<real>, step: seq<real>) {
    && |ys| == |ps| && Tiles(blocks, ys, ps) && MeansOrdered(blocks) && |x| == |v| == |blocks|
    && (forall k | 0 <= k < |blocks| :: x[k] == blocks[k].Centre() && v[k] == blocks[k].Mean())
    && step == Step(blocks)
  }

  class IsotonicCalibrator {
    var x: seq<real>
    var v: seq<real>
    var fitted: seq<real>

    constructor ()
      ensures x == [0.0, 1.0] && v == [0.5, 0.5] && fitted == []
    {
      x, v, fitted := [0.0, 1.0], [0.5, 0.5], [];
    }

    /** After fitting, `fitted` is the non-decreasing (in the forecast) sequence closest to the
        outcomes, in the caller's order, and the block levels come out non-decreasing. */
    method Fit(p: seq<real>, y: seq<real>)
      requires |p| == |y|
      modifies this
      ensures |fitted| == |p|
      ensures LeastSquares(Along(y, ArgSort(p)), Along(fitted, ArgSort(p)))
      ensures exists blocks ::
                FromBlocks(blocks, Along(y, ArgSort(p)), Along(p, ArgSort(p)), x, v, Along(fitted, ArgSort(p)))
      ensures NonDecreasing(v)
      ensures p != [] ==> v != []
    {
      hide Block.Mean, Block.Centre, ArgSort, LeastSquares, Tiles;
      var order := ArgSort(p);
      ArgSortOrders(p);
      var ps, ys := Along(p, order), Along(y, order);
      var blocks := PoolAdjacentViolators(ps, ys);
      TilesWeights(blocks, ys, ps);
      x := seq(|blocks|, k requires 0 <= k < |blocks| => blocks[k].Centre());
      v := seq(|blocks|, k requires 0 <= k < |blocks| => blocks[k].Mean());
      Climb(blocks);
      var step := Step(blocks);
      assert forall k | 0 <= k < |order| :: order[k] in order;
      fitted := Scatter(step, order);
      StepLeastSquares(blocks, ys, ps);
      assert Along(fitted, order) == step;
      assert FromBlocks(blocks, ys, ps, x, v, step);
    }
  }

  /** The stack loop of `fit`: push each point, then pool while the last two means are out of order. */
  method PoolAdjacentViolators(ps: seq<real>, ys: seq<real>) returns (blocks: seq<Block>)
    requires |ps| == |ys|
    ensures Tiles(blocks, ys, ps) && MeansOrdered(blocks)
    ensures ps != [] ==> blocks != []
  {
    hide Block.Mean, IsRun;
    blocks := [];
    for i := 0 to |ps|
      invariant Tiles(blocks, ys[..i], ps[..i])
      invariant MeansOrdered(blocks)
      invariant i > 0 ==> blocks != []
    {
      assert ys[..i + 1] == ys[..i] + [ys[i]] && ps[..i + 1] == ps[..i] + [ps[i]];
      RunOfOne(ys[i], ps[i]);
      PushRun(blocks, ys[..i], ps[..i], Block(ys[i], 1, ps[i]), [ys[i]], [ps[i]]);
      blocks := blocks + [Block(ys[i], 1, ps[i])];
      blocks := PoolTop(blocks, ys[..i + 1], ps[..i + 1]);
    }
    assert ys[..|ps|] == ys && ps[..|ps|] == ps;
  }

  method PoolTop(pushed: seq<Block>, ghost ys: seq<real>, ghost ps: seq<real>) returns (blocks: seq<Block>)
    requires |ys| == |ps| && pushed != [] && Tiles(pushed, ys, ps)
    requires pushed[|pushed| - 1].weight > 0 && MeansOrdered(pushed[..|pushed| - 1])
    ensures blocks != [] && Tiles(blocks, ys, ps) && MeansOrdered(blocks)
  {
    hide Block.Mean, Tiles;
    blocks := pushed;
    while |blocks| > 1 && blocks[|blocks| - 2].Mean() > blocks[|blocks| - 1].Mean()
      invariant |blocks| > 0 && Tiles(blocks, ys, ps)
      invariant blocks[|blocks| - 1].weight > 0 && MeansOrdered(blocks[..|blocks| - 1])
      invariant forall k | 0 <= k < |blocks| :: blocks[k].weight > 0
      decreases |blocks|
    {
      ghost var below := blocks[..|blocks| - 2];
      var a, b := blocks[|blocks| - 2], blocks[|blocks| - 1];
      assert blocks == below + [a] + [b];
      PoolTiles(below, a, b, ys, ps);
      blocks := blocks[..|blocks| - 2] + [Pool(a, b)];
    }
  }

  lemma StepLeastSquares(blocks: seq<Block>, ys: seq<real>, ps: seq<real>)
    requires |ys| == |ps| && Tiles(blocks, ys, ps) && MeansOrdered(blocks)
    ensures |Step(blocks)| == |ys| && LeastSquares(ys, Step(blocks))
  {
    hide Block.Mean, SqErr, Tiles, Step;
    TilesWeights(blocks, ys, ps);
    StepNonDecreasing(blocks);
    forall g: seq<real> | |g| == |ys| && NonDecreasing(g)
      ensures SqErr(ys, Step(blocks)) <= SqErr(ys, g)
    {
      StepOptimal(blocks, ys, ps, g);
      SqErrZero(Step(blocks), g);
    }
  }

  lemma Climb(blocks: seq<Block>)
    requires MeansOrdered(blocks)
    ensures forall i, j | 0 <= i < j < |blocks| :: blocks[i].Mean() <= blocks[j].Mean()
  {
    hide Block.Mean;
    if blocks != [] {
      Climb(blocks[..|blocks| - 1]);
      forall i | 0 <= i < |blocks| - 1
        ensures blocks[i].Mean() <= blocks[|blocks| - 1].Mean()
      {
        assert blocks[..|blocks| - 1][i].Mean() <= blocks[..|blocks| - 1][|blocks| - 2].Mean();
      }
    }
  }

  /** `out[order] = step`: element k of the step function lands at the caller's index order[k]. */
  method Scatter(step: seq<real>, order: seq<nat>) returns (out: seq<real>)
    requires |step| == |order|
    requires forall k | 0 <= k < |order| :: order[k] < |order|
    requires forall i, j | 0 <= i < j < |order| :: order[i] != order[j]
    ensures |out| == |order|
    ensures forall k | 0 <= k < |order| :: out[order[k]] == step[k]
  {
    out := Repeat(0.0, |order|);
    for k := 0 to |order|
      invariant |out| == |order|
      invariant forall j | 0 <= j < k :: out[order[j]] == step[j]
    {
      out := out[order[k] := step[k]];
    }
  }
}
