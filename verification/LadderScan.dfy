/** market/relationships.py, `Chain.candidate_constraints`: the running-minimum pre-filter of a
    nested ladder loses nothing and invents nothing, whatever is or is not quoted. */
module LadderScan {
  import opened Units
  import opened Relationships

  predicate PairViolated(a: Ticker, b: Ticker, ask: AskFn) {
    && ask(Contract(a, NO)).Some? && ask(Contract(b, YES)).Some?
    && ask(Contract(a, NO)).value.price + ask(Contract(b, YES)).value.price < PRICE_SCALE
  }

  /** The violated pairs (i, j) of a fixed j, over the first n narrower markets. */
  function ViolatedAt(ms: seq<Ticker>, ask: AskFn, j: nat, n: nat): seq<Constraint>
    requires n <= j < |ms|
  {
    if n == 0 then []
    else ViolatedAt(ms, ask, j, n - 1)
         + (if PairViolated(ms[n - 1], ms[j], ask) then [ImpliesConstraint(ms[n - 1], ms[j])] else [])
  }

  /** All violated pairs, one wider market after the other. */
  function Violated(ms: seq<Ticker>, ask: AskFn, k: nat): seq<Constraint>
    requires k <= |ms|
  {
    if k == 0 then [] else Violated(ms, ask, k - 1) + ViolatedAt(ms, ask, k - 1, k - 1)
  }

  ghost predicate Underpriced(c: Constraint, ask: AskFn) {
    c.Valid() && c.Check(ask).Some? && c.Check(ask).value.margin > 0
  }

  lemma PairMargin(a: Ticker, b: Ticker, ask: AskFn)
    ensures Underpriced(ImpliesConstraint(a, b), ask) <==> PairViolated(a, b, ask)
  {
    var c := ImpliesConstraint(a, b);
    assert c.legs[0] == Yes(b) && c.legs[1] == No(a);
    if ask(Contract(a, NO)).Some? && ask(Contract(b, YES)).Some? {
      assert c.legs[..1] == [Yes(b)] && [Yes(b)][..0] == [];
      assert TopCost(c.legs[..1], ask) == ask(Contract(b, YES)).value.price;
      assert TopCost(c.legs, ask) == TopCost(c.legs[..1], ask) + ask(Contract(a, NO)).value.price;
    }
  }

  lemma PairInjective(a: Ticker, b: Ticker, c: Ticker, d: Ticker)
    ensures ImpliesConstraint(a, b) == ImpliesConstraint(c, d) ==> a == c && b == d
  {
    assert ImpliesConstraint(a, b).legs[0] == Yes(b) && ImpliesConstraint(a, b).legs[1] == No(a);
    assert ImpliesConstraint(c, d).legs[0] == Yes(d) && ImpliesConstraint(c, d).legs[1] == No(c);
  }

  lemma {:induction false} NoneViolated(ms: seq<Ticker>, ask: AskFn, j: nat, n: nat)
    requires n <= j < |ms|
    requires forall i | 0 <= i < n :: !PairViolated(ms[i], ms[j], ask)
    ensures ViolatedAt(ms, ask, j, n) == []
  {
    if n > 0 {
      NoneViolated(ms, ask, j, n - 1);
    }
  }

  /** The scan of the source: pairs are only looked at when the cheapest NO so far could still
      combine with this YES. */
  method CandidateConstraints(ms: seq<Ticker>, ask: AskFn) returns (out: seq<Constraint>)
    ensures out == Violated(ms, ask, |ms|)
  {
    out := [];
    var noAsks: seq<Option<Price>> := [];
    var cheapest: Option<Price> := None;
    for j := 0 to |ms|
      invariant |noAsks| == j && out == Violated(ms, ask, j)
      invariant forall i | 0 <= i < j ::
        noAsks[i] == (match ask(Contract(ms[i], NO)) case Some(l) => Some(l.price) case None => None)
      invariant forall i | 0 <= i < j && noAsks[i].Some? ::
        cheapest.Some? && cheapest.value <= noAsks[i].value
    {
      var yes := ask(Contract(ms[j], YES));
      if yes.Some? && cheapest.Some? && cheapest.value + yes.value.price < PRICE_SCALE {
        ghost var before := out;
        for i := 0 to j
          invariant out == before + ViolatedAt(ms, ask, j, i)
        {
          var n := noAsks[i];
          if n.Some? && n.value + yes.value.price < PRICE_SCALE {
            out := out + [ImpliesConstraint(ms[i], ms[j])];
          }
        }
      } else {
        NoneViolated(ms, ask, j, j);
      }
      var no := ask(Contract(ms[j], NO));
      noAsks := noAsks + [match no case Some(l) => Some(l.price) case None => None];
      if no.Some? && (cheapest.None? || no.value.price < cheapest.value) {
        cheapest := Some(no.value.price);
      }
    }
  }

  lemma {:induction false} ViolatedAtMeans(ms: seq<Ticker>, ask: AskFn, j: nat, n: nat)
    requires n <= j < |ms|
    ensures forall i | 0 <= i < n && PairViolated(ms[i], ms[j], ask) ::
              ImpliesConstraint(ms[i], ms[j]) in ViolatedAt(ms, ask, j, n)
    ensures forall c | c in ViolatedAt(ms, ask, j, n) ::
              exists i :: 0 <= i < n && PairViolated(ms[i], ms[j], ask) && c == ImpliesConstraint(ms[i], ms[j])
  {
    if n > 0 {
      ViolatedAtMeans(ms, ask, j, n - 1);
    }
  }

  ghost predicate FoundBelow(ms: seq<Ticker>, ask: AskFn, k: nat, c: Constraint)
    requires k <= |ms|
  {
    exists i, j :: 0 <= i < j < k && PairViolated(ms[i], ms[j], ask) && c == ImpliesConstraint(ms[i], ms[j])
  }

  lemma {:induction false} ViolatedMeans(ms: seq<Ticker>, ask: AskFn, k: nat, c: Constraint)
    requires k <= |ms|
    ensures c in Violated(ms, ask, k) <==> FoundBelow(ms, ask, k, c)
  {
    if k > 0 {
      ViolatedMeans(ms, ask, k - 1, c);
      ViolatedAtMeans(ms, ask, k - 1, k - 1);
    }
  }

  /** Lossless: a pair constraint of the ladder is kept exactly when its check shows a margin. */
  lemma PrefilterLossless(ms: seq<Ticker>, ask: AskFn, c: Constraint)
    ensures c in Violated(ms, ask, |ms|) <==> c in AllPairs(ms) && Underpriced(c, ask)
  {
    ViolatedMeans(ms, ask, |ms|, c);
    if c in AllPairs(ms) && Underpriced(c, ask) {
      OnlyPairs(ms, c);
      var i, j :| 0 <= i < j < |ms| && c == ImpliesConstraint(ms[i], ms[j]);
      PairMargin(ms[i], ms[j], ask);
    }
    if FoundBelow(ms, ask, |ms|, c) {
      var i, j :| 0 <= i < j < |ms| && PairViolated(ms[i], ms[j], ask) && c == ImpliesConstraint(ms[i], ms[j]);
      PairMargin(ms[i], ms[j], ask);
      PairIn(ms, i, j);
    }
  }

  ghost predicate NoRepeats(cs: seq<Constraint>) {
    forall i, j | 0 <= i < j < |cs| :: cs[i] != cs[j]
  }

  lemma {:induction false} ViolatedAtOnce(ms: seq<Ticker>, ask: AskFn, j: nat, n: nat)
    requires n <= j < |ms| && Distinct(ms)
    ensures NoRepeats(ViolatedAt(ms, ask, j, n))
  {
    if n > 0 {
      ViolatedAtOnce(ms, ask, j, n - 1);
      ViolatedAtMeans(ms, ask, j, n - 1);
      var earlier := ViolatedAt(ms, ask, j, n - 1);
      forall x | 0 <= x < |earlier|
        ensures earlier[x] != ImpliesConstraint(ms[n - 1], ms[j])
      {
        var c := earlier[x];
        assert c in earlier;
        var i :| 0 <= i < n - 1 && c == ImpliesConstraint(ms[i], ms[j]);
        PairInjective(ms[i], ms[j], ms[n - 1], ms[j]);
      }
    }
  }

  lemma NewUpperEnd(ms: seq<Ticker>, ask: AskFn, k: nat, x: nat, y: nat)
    requires 0 < k <= |ms| && Distinct(ms)
    requires x < |Violated(ms, ask, k - 1)| && y < |ViolatedAt(ms, ask, k - 1, k - 1)|
    ensures Violated(ms, ask, k - 1)[x] != ViolatedAt(ms, ask, k - 1, k - 1)[y]
  {
    hide Violated, ViolatedAt, PairViolated, ImpliesConstraint;
    ViolatedAtMeans(ms, ask, k - 1, k - 1);
    var c, d := Violated(ms, ask, k - 1)[x], ViolatedAt(ms, ask, k - 1, k - 1)[y];
    assert c in Violated(ms, ask, k - 1) && d in ViolatedAt(ms, ask, k - 1, k - 1);
    ViolatedMeans(ms, ask, k - 1, c);
    var i, j :| 0 <= i < j < k - 1 && c == ImpliesConstraint(ms[i], ms[j]);
    var h :| 0 <= h < k - 1 && d == ImpliesConstraint(ms[h], ms[k - 1]);
    PairInjective(ms[i], ms[j], ms[h], ms[k - 1]);
  }

  /** Each violated pair is reported once. */
  lemma {:induction false} PrefilterOnce(ms: seq<Ticker>, ask: AskFn, k: nat)
    requires k <= |ms| && Distinct(ms)
    ensures NoRepeats(Violated(ms, ask, k))
  {
    if k > 0 {
      hide ViolatedAt;
      PrefilterOnce(ms, ask, k - 1);
      ViolatedAtOnce(ms, ask, k - 1, k - 1);
      var earlier, last := Violated(ms, ask, k - 1), ViolatedAt(ms, ask, k - 1, k - 1);
      forall x, y | 0 <= x < |earlier| && 0 <= y < |last|
        ensures earlier[x] != last[y]
      {
        NewUpperEnd(ms, ask, k, x, y);
      }
    }
  }
}
