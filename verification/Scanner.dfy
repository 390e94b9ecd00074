/** research/scanner.py: the incremental index of violated constraints, and exactly when it agrees with
    re-pricing every relation from scratch. */
module ScanIndex {
  import opened Units
  import opened OrderBooks
  import opened Fees
  import Fills
  import opened Relationships
  import opened LadderScan
  import opened Execution
  import opened Detector

  datatype Event =
    | BookUpdate(ticker: Ticker, book: Book)
    | BookConfirm
    | TradeTick(ticker: Ticker, trade: Fills.Trade)
    | MarketClose(ticker: Ticker)
    | Settlement(ticker: Ticker, value: Price)

  datatype Index = Index(books: Books, closed: set<Ticker>, open: set<Key>, lastLive: Option<int>)

  // ---------------------------------------------------------------- a batch

  predicate ObservesBooks(batch: seq<Event>) {
    exists i :: 0 <= i < |batch| && (batch[i].BookUpdate? || batch[i].BookConfirm?)
  }

  function Apply(books: Books, batch: seq<Event>): Books {
    if batch == [] then books
    else
      var before := Apply(books, batch[..|batch| - 1]);
      match batch[|batch| - 1]
      case BookUpdate(t, b) => before[t := b]
      case _ => before
  }

  function Changed(batch: seq<Event>): set<Ticker> {
    set i | 0 <= i < |batch| && batch[i].BookUpdate? :: batch[i].ticker
  }

  function ClosedNow(batch: seq<Event>): set<Ticker> {
    set i | 0 <= i < |batch| && (batch[i].MarketClose? || batch[i].Settlement?) :: batch[i].ticker
  }

  predicate IsGap(idx: Index, ts: int, batch: seq<Event>, gap: int) {
    ObservesBooks(batch) && idx.lastLive.Some? && ts - idx.lastLive.value > gap
  }

  // ---------------------------------------------------------------- evaluation

  /** The markets a trade's legs are on. */
  function KeyTickers(k: Key): set<Ticker> {
    set l | l in k.legs :: l.contract.ticker
  }

  predicate Active(s: RelationSpec, books: Books, closed: set<Ticker>) {
    forall t | t in s.relation.Tickers() :: t in books && t !in closed
  }

  predicate Touches(s: RelationSpec, changed: set<Ticker>) {
    exists t :: t in s.relation.Tickers() && t in changed
  }

  /** The relation compiles to this trade. */
  ghost predicate Carries(s: RelationSpec, k: Key) {
    exists c :: c in s.relation.Constraints() && KeyOf(c) == k
  }

  ghost predicate Violates(s: RelationSpec, k: Key, books: Books) {
    exists c :: c in s.relation.Constraints() && KeyOf(c) == k && Underpriced(c, AskOf(books))
  }

  ghost predicate Rescanned(specs: seq<RelationSpec>, books: Books, closed: set<Ticker>, k: Key) {
    exists i :: 0 <= i < |specs| && Active(specs[i], books, closed) && Violates(specs[i], k, books)
  }

  ghost predicate FoundNow(specs: seq<RelationSpec>, books: Books, closed: set<Ticker>, changed: set<Ticker>, k: Key) {
    exists i :: 0 <= i < |specs| && Active(specs[i], books, closed) && Touches(specs[i], changed)
                && Violates(specs[i], k, books)
  }

  /** The open episodes are exactly the violated constraints of a full rescan. */
  ghost predicate InSync(specs: seq<RelationSpec>, idx: Index) {
    forall k: Key :: k in idx.open <==> Rescanned(specs, idx.books, idx.closed, k)
  }

  ghost predicate Untouched(k: Key, ts: set<Ticker>) {
    KeyTickers(k) !! ts
  }

  /** What `_process` does to the index: after is the next index. */
  ghost predicate Step(specs: seq<RelationSpec>, gap: int, idx: Index, ts: int, batch: seq<Event>, after: Index) {
    var changed, newly := Changed(batch), ClosedNow(batch) - idx.closed;
    && after.books == Apply(idx.books, batch)
    && after.closed == idx.closed + ClosedNow(batch)
    && after.lastLive == (if ObservesBooks(batch) then Some(ts) else idx.lastLive)
    && forall k: Key :: k in after.open <==>
         || FoundNow(specs, after.books, after.closed, changed, k)
         || (!IsGap(idx, ts, batch, gap) && k in idx.open && Untouched(k, newly) && Untouched(k, changed))
  }

  ghost predicate SpecsValid(specs: seq<RelationSpec>) {
    forall i | 0 <= i < |specs| :: specs[i].relation.Valid()
  }

  // ---------------------------------------------------------------- what a batch leaves alone

  lemma {:induction false} ApplyKeeps(books: Books, batch: seq<Event>)
    ensures books.Keys <= Apply(books, batch).Keys <= books.Keys + Changed(batch)
    ensures Changed(batch) <= Apply(books, batch).Keys
    ensures forall t | t in books && t !in Changed(batch) :: Apply(books, batch)[t] == books[t]
  {
    if batch != [] {
      var n := |batch| - 1;
      ApplyKeeps(books, batch[..n]);
      assert forall i | 0 <= i < n :: batch[..n][i] == batch[i];
      assert Changed(batch) == Changed(batch[..n]) + (if batch[n].BookUpdate? then {batch[n].ticker} else {});
    }
  }

  lemma LegsInKey(c: Constraint)
    ensures forall l | l in c.legs :: l.contract.ticker in KeyTickers(KeyOf(c))
    ensures forall t | t in KeyTickers(KeyOf(c)) :: exists l :: l in c.legs && l.contract.ticker == t
  {
    forall l | l in c.legs
      ensures l.contract.ticker in KeyTickers(KeyOf(c))
    {
      assert l in KeyOf(c).legs;
    }
    forall t | t in KeyTickers(KeyOf(c))
      ensures exists l :: l in c.legs && l.contract.ticker == t
    {
      var l :| l in KeyOf(c).legs && l.contract.ticker == t;
      assert l in c.legs;
    }
  }

  lemma {:induction false} SameCost(legs: seq<Leg>, a: AskFn, b: AskFn)
    requires forall i | 0 <= i < |legs| :: a(legs[i].contract) == b(legs[i].contract)
    requires forall i | 0 <= i < |legs| :: a(legs[i].contract).Some?
    ensures TopCost(legs, a) == TopCost(legs, b)
  {
    if legs != [] {
      SameCost(legs[..|legs| - 1], a, b);
    }
  }

  /** A trade whose legs' books did not change keeps its verdict. */
  lemma VerdictKept(c: Constraint, books: Books, after: Books)
    requires forall t | t in KeyTickers(KeyOf(c)) :: t in books && t in after && books[t] == after[t]
    ensures Underpriced(c, AskOf(books)) <==> Underpriced(c, AskOf(after))
  {
    LegsInKey(c);
    var a, b := AskOf(books), AskOf(after);
    forall i | 0 <= i < |c.legs|
      ensures a(c.legs[i].contract) == b(c.legs[i].contract)
    {
      assert c.legs[i] in c.legs;
    }
    if c.Valid() && c.Quoted(a) {
      SameCost(c.legs, a, b);
    }
  }

  lemma CarriersTickers(s: RelationSpec, c: Constraint)
    requires s.relation.Valid() && c in s.relation.Constraints()
    ensures forall t | t in KeyTickers(KeyOf(c)) :: t in s.relation.Tickers()
  {
    LegsOfRelation(s.relation, c);
    LegsInKey(c);
  }

  // ---------------------------------------------------------------- when the index agrees

  /** Some relation still observable after the batch compiles to the trade. */
  ghost predicate Carried(specs: seq<RelationSpec>, after: Index, k: Key) {
    exists i :: 0 <= i < |specs| && Active(specs[i], after.books, after.closed) && Carries(specs[i], k)
  }

  ghost predicate CarriedTouched(specs: seq<RelationSpec>, after: Index, changed: set<Ticker>, k: Key) {
    exists i :: 0 <= i < |specs| && Active(specs[i], after.books, after.closed)
                && Touches(specs[i], changed) && Carries(specs[i], k)
  }

  /** Without a recording gap: no open episode, untouched by the batch, loses its last observable
      relation.  Across a gap: every open episode that is untouched and still observable belongs to
      some relation the batch re-prices. */
  ghost predicate Condition(specs: seq<RelationSpec>, gap: int, idx: Index, ts: int, batch: seq<Event>, after: Index) {
    var changed, newly := Changed(batch), ClosedNow(batch) - idx.closed;
    forall k | k in idx.open && Untouched(k, newly) && Untouched(k, changed) ::
      if IsGap(idx, ts, batch, gap) then Carried(specs, after, k) ==> CarriedTouched(specs, after, changed, k)
      else Carried(specs, after, k)
  }

  /** An untouched open episode is still violated for every relation that carries it. */
  lemma StillViolated(specs: seq<RelationSpec>, idx: Index, batch: seq<Event>, k: Key, s: RelationSpec)
    requires SpecsValid(specs) && InSync(specs, idx) && k in idx.open && Untouched(k, Changed(batch))
    requires s.relation.Valid() && Carries(s, k)
    ensures Violates(s, k, Apply(idx.books, batch))
  {
    var i :| 0 <= i < |specs| && Active(specs[i], idx.books, idx.closed) && Violates(specs[i], k, idx.books);
    var c :| c in specs[i].relation.Constraints() && KeyOf(c) == k && Underpriced(c, AskOf(idx.books));
    var d :| d in s.relation.Constraints() && KeyOf(d) == k;
    CarriersTickers(specs[i], c);
    ApplyKeeps(idx.books, batch);
    SameKeySameVerdict(c, d, AskOf(idx.books));
    VerdictKept(d, idx.books, Apply(idx.books, batch));
  }

  /** A violation of a relation the batch does not touch was open before, and is untouched itself. */
  lemma WasOpen(specs: seq<RelationSpec>, idx: Index, batch: seq<Event>, k: Key, i: nat)
    requires SpecsValid(specs) && InSync(specs, idx) && i < |specs|
    requires Active(specs[i], Apply(idx.books, batch), idx.closed + ClosedNow(batch))
    requires !Touches(specs[i], Changed(batch)) && Violates(specs[i], k, Apply(idx.books, batch))
    ensures k in idx.open && Untouched(k, Changed(batch)) && Untouched(k, ClosedNow(batch))
  {
    var after := Apply(idx.books, batch);
    var c :| c in specs[i].relation.Constraints() && KeyOf(c) == k && Underpriced(c, AskOf(after));
    CarriersTickers(specs[i], c);
    ApplyKeeps(idx.books, batch);
    VerdictKept(c, idx.books, after);
    assert Active(specs[i], idx.books, idx.closed);
    assert Violates(specs[i], k, idx.books);
  }

  /** The incremental index equals a full rescan after a batch exactly when the condition holds. */
  lemma IncrementalExactly(specs: seq<RelationSpec>, gap: int, idx: Index, ts: int, batch: seq<Event>, after: Index)
    requires SpecsValid(specs) && InSync(specs, idx) && Step(specs, gap, idx, ts, batch, after)
    ensures InSync(specs, after) <==> Condition(specs, gap, idx, ts, batch, after)
  {
    hide Violates, Active, Touches, Untouched, Carries;
    if Condition(specs, gap, idx, ts, batch, after) {
      forall k: Key
        ensures k in after.open <==> Rescanned(specs, after.books, after.closed, k)
      {
        ConditionSuffices(specs, gap, idx, ts, batch, after, k);
      }
    }
    if InSync(specs, after) {
      ConditionNeeded(specs, gap, idx, ts, batch, after);
    }
  }

  lemma ConditionSuffices(specs: seq<RelationSpec>, gap: int, idx: Index, ts: int, batch: seq<Event>, after: Index, k: Key)
    requires SpecsValid(specs) && InSync(specs, idx) && Step(specs, gap, idx, ts, batch, after)
    requires Condition(specs, gap, idx, ts, batch, after)
    ensures k in after.open <==> Rescanned(specs, after.books, after.closed, k)
  {
    hide Violates, Active, Touches, Untouched;
    var changed, newly := Changed(batch), ClosedNow(batch) - idx.closed;
    if k in after.open && !FoundNow(specs, after.books, after.closed, changed, k) {
      assert Carried(specs, after, k);
      var i :| 0 <= i < |specs| && Active(specs[i], after.books, after.closed) && Carries(specs[i], k);
      StillViolated(specs, idx, batch, k, specs[i]);
    }
    if Rescanned(specs, after.books, after.closed, k) {
      var i :| 0 <= i < |specs| && Active(specs[i], after.books, after.closed) && Violates(specs[i], k, after.books);
      if !Touches(specs[i], changed) {
        WasOpen(specs, idx, batch, k, i);
        UntouchedFewer(k, ClosedNow(batch), newly);
        ViolatesCarries(specs[i], k, after.books);
        if IsGap(idx, ts, batch, gap) {
          assert Carried(specs, after, k);
          var j :| 0 <= j < |specs| && Active(specs[j], after.books, after.closed)
                   && Touches(specs[j], changed) && Carries(specs[j], k);
          StillViolated(specs, idx, batch, k, specs[j]);
        }
      }
    }
  }

  lemma UntouchedFewer(k: Key, all: set<Ticker>, some: set<Ticker>)
    requires Untouched(k, all) && some <= all
    ensures Untouched(k, some)
  {
  }

  lemma ViolatesCarries(s: RelationSpec, k: Key, books: Books)
    requires Violates(s, k, books)
    ensures Carries(s, k)
  {
  }

  lemma ConditionNeeded(specs: seq<RelationSpec>, gap: int, idx: Index, ts: int, batch: seq<Event>, after: Index)
    requires SpecsValid(specs) && InSync(specs, idx) && Step(specs, gap, idx, ts, batch, after)
    requires InSync(specs, after)
    ensures Condition(specs, gap, idx, ts, batch, after)
  {
    hide Violates, Active, Touches, Untouched, Carries;
    var changed, newly := Changed(batch), ClosedNow(batch) - idx.closed;
    forall k | k in idx.open && Untouched(k, newly) && Untouched(k, changed)
      ensures if IsGap(idx, ts, batch, gap) then Carried(specs, after, k) ==> CarriedTouched(specs, after, changed, k)
              else Carried(specs, after, k)
    {
      if IsGap(idx, ts, batch, gap) {
        if Carried(specs, after, k) {
          var i :| 0 <= i < |specs| && Active(specs[i], after.books, after.closed) && Carries(specs[i], k);
          StillViolated(specs, idx, batch, k, specs[i]);
          assert Rescanned(specs, after.books, after.closed, k);
          var j :| 0 <= j < |specs| && Active(specs[j], after.books, after.closed) && Touches(specs[j], changed)
                   && Violates(specs[j], k, after.books);
          ViolatesCarries(specs[j], k, after.books);
        }
      } else {
        assert k in after.open;
        var i :| 0 <= i < |specs| && Active(specs[i], after.books, after.closed) && Violates(specs[i], k, after.books);
        ViolatesCarries(specs[i], k, after.books);
      }
    }
  }

  // ---------------------------------------------------------------- runs without gaps or closes

  lemma StaysActive(s: RelationSpec, idx: Index, batch: seq<Event>)
    requires Active(s, idx.books, idx.closed) && ClosedNow(batch) <= idx.closed
    ensures Active(s, Apply(idx.books, batch), idx.closed + ClosedNow(batch))
  {
    ApplyKeeps(idx.books, batch);
  }

  /** Nothing newly closed and no gap: the index stays exact, also for relations that only become
      priceable through a market outside the violated constraint. */
  lemma QuietStep(specs: seq<RelationSpec>, gap: int, idx: Index, ts: int, batch: seq<Event>, after: Index)
    requires SpecsValid(specs) && InSync(specs, idx) && Step(specs, gap, idx, ts, batch, after)
    requires !IsGap(idx, ts, batch, gap) && ClosedNow(batch) <= idx.closed
    ensures InSync(specs, after)
  {
    hide Violates, Active, Touches, Untouched;
    forall k | k in idx.open
      ensures Carried(specs, after, k)
    {
      var i :| 0 <= i < |specs| && Active(specs[i], idx.books, idx.closed) && Violates(specs[i], k, idx.books);
      StaysActive(specs[i], idx, batch);
      ViolatesCarries(specs[i], k, idx.books);
    }
    IncrementalExactly(specs, gap, idx, ts, batch, after);
  }

  datatype Batch = Batch(ts: int, events: seq<Event>)

  const START: Index := Index(map[], {}, {}, None)

  /** A run: states[0] is the empty index and each batch makes one step. */
  ghost predicate Run(specs: seq<RelationSpec>, gap: int, feed: seq<Batch>, states: seq<Index>) {
    && |states| == |feed| + 1 && states[0] == START
    && forall i | 0 <= i < |feed| :: Step(specs, gap, states[i], feed[i].ts, feed[i].events, states[i + 1])
  }

  /** Every batch has its step, so every feed has its run. */
  lemma {:induction false} RunExists(specs: seq<RelationSpec>, gap: int, feed: seq<Batch>) returns (states: seq<Index>)
    ensures Run(specs, gap, feed, states)
  {
    hide Step;
    if feed == [] {
      states := [START];
    } else {
      var n := |feed| - 1;
      var front := RunExists(specs, gap, feed[..n]);
      var after := NextIndex(specs, gap, front[n], feed[n].ts, feed[n].events);
      states := front + [after];
      forall i | 0 <= i < |feed|
        ensures Step(specs, gap, states[i], feed[i].ts, feed[i].events, states[i + 1])
      {
        if i < n {
          assert feed[..n][i] == feed[i];
          assert Step(specs, gap, front[i], feed[..n][i].ts, feed[..n][i].events, front[i + 1]);
        }
      }
    }
  }

  lemma NextIndex(specs: seq<RelationSpec>, gap: int, idx: Index, ts: int, batch: seq<Event>) returns (after: Index)
    ensures Step(specs, gap, idx, ts, batch, after)
  {
    var books, closed, changed := Apply(idx.books, batch), idx.closed + ClosedNow(batch), Changed(batch);
    var kept := set k | k in idx.open && !IsGap(idx, ts, batch, gap)
                        && Untouched(k, ClosedNow(batch) - idx.closed) && Untouched(k, changed);
    var found := set s, c | s in specs && Active(s, books, closed) && Touches(s, changed)
                            && c in s.relation.Constraints() && Underpriced(c, AskOf(books)) :: KeyOf(c);
    after := Index(books, closed, kept + found, if ObservesBooks(batch) then Some(ts) else idx.lastLive);
    forall k: Key
      ensures k in found <==> FoundNow(specs, books, closed, changed, k)
    {
      if FoundNow(specs, books, closed, changed, k) {
        var i :| 0 <= i < |specs| && Active(specs[i], books, closed) && Touches(specs[i], changed) && Violates(specs[i], k, books);
        var c :| c in specs[i].relation.Constraints() && KeyOf(c) == k && Underpriced(c, AskOf(books));
      }
      if k in found {
        var s, c :| s in specs && Active(s, books, closed) && Touches(s, changed)
                    && c in s.relation.Constraints() && Underpriced(c, AskOf(books)) && KeyOf(c) == k;
        var i :| 0 <= i < |specs| && specs[i] == s;
        assert Violates(specs[i], k, books);
      }
    }
  }

  /** Over any run without gaps or closes, after each batch the open episodes are exactly the violated
      constraints of all relations whose books are all present. */
  lemma {:induction false} IncrementalEqualsRescan(specs: seq<RelationSpec>, gap: int, feed: seq<Batch>, states: seq<Index>, n: nat)
    requires SpecsValid(specs) && Run(specs, gap, feed, states) && n <= |feed|
    requires forall i | 0 <= i < |feed| :: !IsGap(states[i], feed[i].ts, feed[i].events, gap)
    requires forall i | 0 <= i < |feed| :: ClosedNow(feed[i].events) == {}
    ensures InSync(specs, states[n]) && states[n].closed == {}
  {
    if n == 0 {
      StartInSync(specs);
    } else {
      IncrementalEqualsRescan(specs, gap, feed, states, n - 1);
      QuietStep(specs, gap, states[n - 1], feed[n - 1].ts, feed[n - 1].events, states[n]);
    }
  }

  lemma StartInSync(specs: seq<RelationSpec>)
    requires SpecsValid(specs)
    ensures InSync(specs, START)
  {
    forall k: Key
      ensures !Rescanned(specs, START.books, START.closed, k)
    {
      forall i | 0 <= i < |specs|
        ensures !Active(specs[i], START.books, START.closed)
      {
        HasMarkets(specs[i].relation);
      }
    }
  }

  lemma HasMarkets(r: Relation)
    requires r.Valid()
    ensures r.Tickers() != [] && r.Tickers()[0] in r.Tickers()
  {
  }

  // ---------------------------------------------------------------- the two ways it drifts

  const LADDER: RelationSpec := RelationSpec(Chain(["a", "b", "c"]), 4)

  const BOOKS: Books := map[
    "a" := Book(map[6_000 := 100], map[]),
    "b" := Book(map[], map[6_000 := 100]),
    "c" := Book(map[], map[])]

  function Violated(): Key {
    KeyOf(ImpliesConstraint("a", "b"))
  }

  lemma NamesDiffer()
    ensures "a" != "b" && "b" != "c" && "a" != "c"
  {
    assert "a"[0] != "b"[0] && "b"[0] != "c"[0] && "a"[0] != "c"[0];
  }

  lemma LadderBooks()
    ensures AskOf(BOOKS)(Contract("a", NO)) == Some(Level(4_000, 100))
    ensures AskOf(BOOKS)(Contract("b", YES)) == Some(Level(4_000, 100))
    ensures BOOKS.Keys == {"a", "b", "c"}
  {
    NamesDiffer();
    assert BOOKS["a"].yes == map[6_000 := 100];
    assert MaxKey(BOOKS["a"].yes.Keys) == 6_000;
    assert BOOKS["b"].no == map[6_000 := 100];
    assert MaxKey(BOOKS["b"].no.Keys) == 6_000;
  }

  lemma LadderFacts()
    ensures LADDER.relation.Valid() && Active(LADDER, BOOKS, {})
    ensures Violates(LADDER, Violated(), BOOKS)
    ensures KeyTickers(Violated()) == {"a", "b"}
  {
    hide BOOKS, Violates;
    NamesDiffer();
    LadderBooks();
    LadderViolates();
    var c := ImpliesConstraint("a", "b");
    LegsInKey(c);
    assert c.legs[0] == Yes("b") && c.legs[1] == No("a");
    assert Yes("b") in c.legs && No("a") in c.legs;
  }

  lemma LadderViolates()
    ensures Violates(LADDER, Violated(), BOOKS)
  {
    hide BOOKS, Underpriced, AskOf, AllPairs;
    LadderBooks();
    PairIn(["a", "b", "c"], 0, 1);
    PairMargin("a", "b", AskOf(BOOKS));
    assert ImpliesConstraint("a", "b") in LADDER.relation.Constraints();
  }

  /** The three books as they first arrive. */
  const LOAD: seq<Event> := [
    BookUpdate("a", Book(map[6_000 := 100], map[])),
    BookUpdate("b", Book(map[], map[6_000 := 100])),
    BookUpdate("c", Book(map[], map[]))]

  lemma ApplyMore(books: Books, batch: seq<Event>, i: nat)
    requires i < |batch| && batch[i].BookUpdate?
    ensures Apply(books, batch[..i + 1]) == Apply(books, batch[..i])[batch[i].ticker := batch[i].book]
    ensures Apply(books, batch[..0]) == books
  {
    assert batch[..i + 1][..i] == batch[..i];
  }

  lemma LoadedBooks()
    ensures Apply(map[], LOAD) == BOOKS && ClosedNow(LOAD) == {} && ObservesBooks(LOAD)
  {
    assert LOAD[0].BookUpdate?;
    NamesDiffer();
    ApplyMore(map[], LOAD, 0);
    ApplyMore(map[], LOAD, 1);
    ApplyMore(map[], LOAD, 2);
    assert LOAD[..3] == LOAD;
  }

  /** Loading the books from the empty start opens the ladder's one episode, and the index is exact. */
  lemma Loaded(gap: int, ts: int, idx: Index)
    requires Step([LADDER], gap, START, ts, LOAD, idx)
    ensures idx.books == BOOKS && idx.closed == {} && idx.lastLive == Some(ts) && InSync([LADDER], idx)
    ensures Violated() in idx.open
  {
    LoadedBooks();
    LadderFacts();
    StartInSync([LADDER]);
    hide Violates, Active, BOOKS, LOAD, InSync, Apply, ClosedNow;
    QuietStep([LADDER], gap, START, ts, LOAD, idx);
    LadderOpen(idx);
  }

  lemma LadderOpen(idx: Index)
    requires idx.books == BOOKS && idx.closed == {} && InSync([LADDER], idx)
    ensures Violated() in idx.open
  {
    LadderFacts();
    hide Violates, Active, BOOKS;
    assert [LADDER][0] == LADDER;
    assert Rescanned([LADDER], BOOKS, {}, Violated());
  }

  /** A close on a market of the relation that is not in the violated constraint leaves the episode
      open although no observable relation supports it any more. */
  lemma CloseDrifts(gap: int, from: int, ts: int, states: seq<Index>)
    requires Run([LADDER], gap, [Batch(from, LOAD), Batch(ts, [MarketClose("c")])], states)
    ensures InSync([LADDER], states[1])
    ensures Violated() in states[2].open && !InSync([LADDER], states[2])
  {
    var idx, after := states[1], states[2];
    var feed := [Batch(from, LOAD), Batch(ts, [MarketClose("c")])];
    assert Step([LADDER], gap, states[0], feed[0].ts, feed[0].events, states[0 + 1]);
    assert Step([LADDER], gap, states[1], feed[1].ts, feed[1].events, states[1 + 1]);
    hide Step;
    Loaded(gap, from, idx);
    LadderFacts();
    NamesDiffer();
    CloseSets();
    hide Violates, BOOKS, InSync, KeyTickers, FoundNow, ClosedNow, Changed, ObservesBooks, Violated;
    QuietlyKept([LADDER], gap, idx, ts, [MarketClose("c")], after, Violated());
    ClosesLadder(after);
    NoneActive(after, Violated());
  }

  lemma CloseSets()
    ensures var batch := [MarketClose("c")];
            ClosedNow(batch) == {"c"} && Changed(batch) == {} && !ObservesBooks(batch)
  {
    var batch := [MarketClose("c")];
    assert batch[0].MarketClose? && batch[0].ticker == "c";
  }

  lemma QuietlyKept(specs: seq<RelationSpec>, gap: int, idx: Index, ts: int, batch: seq<Event>, after: Index, k: Key)
    requires Step(specs, gap, idx, ts, batch, after) && k in idx.open && !ObservesBooks(batch)
    requires Untouched(k, ClosedNow(batch) - idx.closed) && Untouched(k, Changed(batch))
    ensures k in after.open
  {
  }

  lemma ClosesLadder(after: Index)
    requires "c" in after.closed
    ensures !Active(LADDER, after.books, after.closed)
  {
    assert LADDER.relation.Tickers()[2] == "c";
  }

  lemma NoneActive(idx: Index, k: Key)
    requires !Active(LADDER, idx.books, idx.closed) && k in idx.open
    ensures !InSync([LADDER], idx)
  {
    hide Violates, Active;
  }

  /** After a recording gap, a quiet poll leaves a standing violation unreported. */
  lemma GapDrifts(gap: int, from: int, ts: int, states: seq<Index>)
    requires Run([LADDER], gap, [Batch(from, LOAD), Batch(ts, [BookConfirm])], states) && ts - from > gap
    ensures InSync([LADDER], states[1]) && Violated() in states[1].open
    ensures Violated() !in states[2].open && !InSync([LADDER], states[2])
  {
    var feed := [Batch(from, LOAD), Batch(ts, [BookConfirm])];
    assert Step([LADDER], gap, states[0], feed[0].ts, feed[0].events, states[0 + 1]);
    assert Step([LADDER], gap, states[1], feed[1].ts, feed[1].events, states[1 + 1]);
    assert states[0] == START;
    hide Run, LOAD;
    Loaded(gap, from, states[1]);
    ConfirmDrifts(states[1], gap, ts, from, states[2]);
  }

  lemma ConfirmDrifts(idx: Index, gap: int, ts: int, last: int, after: Index)
    requires idx.books == BOOKS && idx.closed == {} && idx.lastLive == Some(last) && ts - last > gap
    requires Step([LADDER], gap, idx, ts, [BookConfirm], after)
    ensures Violated() !in after.open && !InSync([LADDER], after)
  {
    LadderFacts();
    hide Violates, Active, BOOKS;
    var batch := [BookConfirm];
    assert batch[0].BookConfirm? && ObservesBooks(batch) && Changed(batch) == {} && ClosedNow(batch) == {};
    assert Apply(BOOKS, batch[..0]) == BOOKS;
    assert after.books == BOOKS && after.closed == {};
    assert [LADDER][0] == LADDER;
    assert Rescanned([LADDER], after.books, after.closed, Violated());
  }

  // ---------------------------------------------------------------- what the scanner object needs

  const FREE: FeeSchedule := FeeSchedule(false, 0.0, EXACT_6DP, false)

  /** Prices every evidence level without fees: only top-of-book margins drive the index. */
  const DRIVER: DetectorParams := DetectorParams(FeeBook(map[], FREE), 100, 100, 10_000, None, 0)

  ghost predicate ValidBooks(books: Books) {
    forall t | t in books :: books[t].Valid()
  }

  ghost predicate ValidBatch(batch: seq<Event>) {
    forall i | 0 <= i < |batch| && batch[i].BookUpdate? :: batch[i].book.Valid()
  }

  lemma SetsGrow(batch: seq<Event>, i: nat)
    requires i < |batch|
    ensures Changed(batch[..i + 1]) == Changed(batch[..i]) + (if batch[i].BookUpdate? then {batch[i].ticker} else {})
    ensures ClosedNow(batch[..i + 1])
         == ClosedNow(batch[..i]) + (if batch[i].MarketClose? || batch[i].Settlement? then {batch[i].ticker} else {})
  {
    assert forall k | 0 <= k < i :: batch[..i][k] == batch[..i + 1][k] == batch[k];
  }

  lemma AllUntouched()
    ensures forall k :: Untouched(k, {})
  {
  }

  /** The stages of one batch make one step: the gap check, the closes, then the evaluation. */
  lemma Stepped(specs: seq<RelationSpec>, gap: int, before: Index, ts: int, batch: seq<Event>, after: Index,
                kept: set<Key>, standing: set<Key>)
    requires after.books == Apply(before.books, batch) && after.closed == before.closed + ClosedNow(batch)
    requires after.lastLive == if ObservesBooks(batch) then Some(ts) else before.lastLive
    requires kept == if IsGap(before, ts, batch, gap) then {} else before.open
    requires forall k :: k in standing <==> k in kept && Untouched(k, ClosedNow(batch) - before.closed)
    requires forall k :: k in after.open <==>
               || FoundNow(specs, after.books, after.closed, Changed(batch), k)
               || (k in standing && Untouched(k, Changed(batch)))
    ensures Step(specs, gap, before, ts, batch, after)
  {
    hide FoundNow, Untouched, Apply, Changed, ClosedNow, IsGap;
  }

  lemma NothingChanged(specs: seq<RelationSpec>, books: Books, closed: set<Ticker>)
    ensures forall k :: !FoundNow(specs, books, closed, {}, k)
    ensures forall k :: Untouched(k, {})
  {
  }

  /** What the detector reports for the touched, observable relations is what they violate. */
  lemma FoundKeys(specs: seq<RelationSpec>, books: Books, closed: set<Ticker>, changed: set<Ticker>,
                  active: seq<RelationSpec>, found: seq<Opportunity>)
    requires forall s :: s in active <==> s in specs && Active(s, books, closed) && Touches(s, changed)
    requires forall i | 0 <= i < |found| :: Credited(found[i], active, AskOf(books), DRIVER)
    requires forall s, c | Eligible(s, active, DRIVER) && c in s.relation.Constraints() && Underpriced(c, AskOf(books)) ::
               Has(found, KeyOf(c), s.level)
    ensures forall k :: FoundNow(specs, books, closed, changed, k)
                        <==> exists j :: 0 <= j < |found| && KeyOf(found[j].constraint) == k
  {
    hide Active, Touches, Underpriced, KeyOf, Credited, Has;
    forall k
      ensures FoundNow(specs, books, closed, changed, k)
              <==> exists j :: 0 <= j < |found| && KeyOf(found[j].constraint) == k
    {
      if FoundNow(specs, books, closed, changed, k) {
        FoundIsReported(specs, books, closed, changed, active, found, k);
      }
      if j :| 0 <= j < |found| && KeyOf(found[j].constraint) == k {
        ReportedIsFound(specs, books, closed, changed, active, found[j]);
      }
    }
  }

  lemma FoundIsReported(specs: seq<RelationSpec>, books: Books, closed: set<Ticker>, changed: set<Ticker>,
                        active: seq<RelationSpec>, found: seq<Opportunity>, k: Key)
    requires forall s :: s in active <==> s in specs && Active(s, books, closed) && Touches(s, changed)
    requires forall s, c | Eligible(s, active, DRIVER) && c in s.relation.Constraints() && Underpriced(c, AskOf(books)) ::
               Has(found, KeyOf(c), s.level)
    requires FoundNow(specs, books, closed, changed, k)
    ensures exists j :: 0 <= j < |found| && KeyOf(found[j].constraint) == k
  {
    hide Active, Touches, Underpriced, KeyOf, Relation.Constraints;
    var i :| 0 <= i < |specs| && Active(specs[i], books, closed) && Touches(specs[i], changed)
             && Violates(specs[i], k, books);
    assert specs[i] in active;
    assert Eligible(specs[i], active, DRIVER);
    var c :| c in specs[i].relation.Constraints() && KeyOf(c) == k && Underpriced(c, AskOf(books));
    assert Has(found, KeyOf(c), specs[i].level);
  }

  lemma ReportedIsFound(specs: seq<RelationSpec>, books: Books, closed: set<Ticker>, changed: set<Ticker>,
                        active: seq<RelationSpec>, op: Opportunity)
    requires forall s :: s in active <==> s in specs && Active(s, books, closed) && Touches(s, changed)
    requires Credited(op, active, AskOf(books), DRIVER)
    ensures FoundNow(specs, books, closed, changed, KeyOf(op.constraint))
  {
    hide Active, Touches, Underpriced, KeyOf, Relation.Constraints;
    var s := op.spec;
    assert s in active && s in specs;
    var i :| 0 <= i < |specs| && specs[i] == s;
    assert Violates(specs[i], KeyOf(op.constraint), books);
  }
}
