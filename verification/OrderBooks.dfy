/** Every non-empty finite set of integers has a greatest element. */
module Maximum {
  lemma {:induction false} HasMax(s: set<int>)
    requires |s| > 0
    ensures exists k :: k in s && forall x | x in s :: x <= k
    decreases |s|
  {
    if forall k :: k !in s {
      assert false;
    }
    var k :| k in s;
    var rest := s - {k};
    if |rest| > 0 {
      HasMax(rest);
      var m :| m in rest && forall x | x in rest :: x <= m;
      var top := if m > k then m else k;
      assert forall x | x in s :: x == k || x in rest;
      assert top in s && forall x | x in s :: x <= top;
    } else {
      assert forall x | x in s && x != k :: x in rest;
    }
  }
}

/** market/order_book.py: a book of bids on both sides, from which the asks are derived. */
module OrderBooks {
  import opened Units
  import opened Maximum

  type Bids = map<Price, Qty>

  /** A NO bid at q is a YES ask at $1 - q. */
  function Complement(p: Price): Price {
    PRICE_SCALE - p
  }

  predicate ValidPrice(p: Price) {
    0 < p < PRICE_SCALE
  }

  predicate ValidBids(m: Bids) {
    forall p | p in m :: ValidPrice(p) && m[p] > 0
  }

  datatype Book = Book(yes: Bids, no: Bids) {
    function On(side: Side): Bids {
      if side.YES? then yes else no
    }

    function With(side: Side, m: Bids): Book {
      if side.YES? then this.(yes := m) else this.(no := m)
    }

    predicate Valid() {
      ValidBids(yes) && ValidBids(no)
    }

    function AskLevels(side: Side): seq<Level> {
      Flip(Levels(On(side.Opposite())))
    }

    function BestBid(side: Side): Option<Level> {
      var m := On(side);
      if m == map[] then None else Some(Level(MaxKey(m.Keys), m[MaxKey(m.Keys)]))
    }

    function BestAsk(side: Side): Option<Level> {
      match BestBid(side.Opposite())
      case None => None
      case Some(b) => Some(Level(Complement(b.price), b.qty))
    }
  }

  /** `max(book)` of a non-empty dictionary. */
  function MaxKey(s: set<int>): (k: int)
    requires |s| > 0
    ensures k in s && forall x | x in s :: x <= k
  {
    HasMax(s);
    var k :| k in s && forall x | x in s :: x <= k;
    k
  }

  /** `sorted(m.items(), reverse=True)`: best price first. */
  function Levels(m: Bids): seq<Level>
    decreases |m|
  {
    if m == map[] then []
    else
      var k := MaxKey(m.Keys);
      [Level(k, m[k])] + Levels(m - {k})
  }

  function Flip(levels: seq<Level>): (r: seq<Level>)
    ensures |r| == |levels|
    ensures forall i | 0 <= i < |r| :: r[i] == Level(Complement(levels[i].price), levels[i].qty)
  {
    seq(|levels|, i requires 0 <= i < |levels| => Level(Complement(levels[i].price), levels[i].qty))
  }

  ghost predicate Descending(levels: seq<Level>) {
    forall i, j | 0 <= i < j < |levels| :: levels[i].price > levels[j].price
  }

  ghost predicate Ascending(levels: seq<Level>) {
    forall i, j | 0 <= i < j < |levels| :: levels[i].price < levels[j].price
  }

  /** These levels are the entries of the dictionary. */
  ghost predicate LevelsOf(levels: seq<Level>, m: Bids) {
    && (forall l | l in levels :: l.price in m && m[l.price] == l.qty)
    && forall p | p in m :: Level(p, m[p]) in levels
  }

  lemma LevelsMore(levels: seq<Level>, m: Bids, k: Price)
    requires k in m && LevelsOf(levels, m - {k}) && Descending(levels) && forall p | p in m :: p <= k
    ensures LevelsOf([Level(k, m[k])] + levels, m) && Descending([Level(k, m[k])] + levels)
  {
    var all := [Level(k, m[k])] + levels;
    forall i, j | 0 <= i < j < |all|
      ensures all[i].price > all[j].price
    {
      assert all[j] == levels[j - 1] && levels[j - 1] in levels;
    }
    forall p | p in m
      ensures Level(p, m[p]) in all
    {
      assert p == k ==> all[0] == Level(p, m[p]);
      assert p != k ==> p in m - {k} && Level(p, m[p]) in levels;
    }
  }

  /** The level list holds exactly the book's entries, strictly best first. */
  lemma {:induction false} LevelsSorted(m: Bids)
    ensures Descending(Levels(m))
    ensures forall l | l in Levels(m) :: l.price in m && m[l.price] == l.qty
    ensures forall p | p in m :: Level(p, m[p]) in Levels(m)
    ensures |Levels(m)| == |m|
    ensures m != map[] ==> Levels(m)[0] == Level(MaxKey(m.Keys), m[MaxKey(m.Keys)])
    decreases |m|
  {
    if m != map[] {
      var k := MaxKey(m.Keys);
      LevelsSorted(m - {k});
      assert Levels(m) == [Level(k, m[k])] + Levels(m - {k});
      hide Levels, Descending;
      LevelsMore(Levels(m - {k}), m, k);
    }
  }

  /** Asks come cheapest first, carry the opposite bids' sizes, and start at `best_ask`. */
  lemma AsksSorted(b: Book, side: Side)
    ensures Ascending(b.AskLevels(side))
    ensures forall l | l in b.AskLevels(side) ::
              Complement(l.price) in b.On(side.Opposite()) && b.On(side.Opposite())[Complement(l.price)] == l.qty
    ensures b.BestAsk(side) == if b.AskLevels(side) == [] then None else Some(b.AskLevels(side)[0])
    ensures b.Valid() ==> forall l | l in b.AskLevels(side) :: ValidPrice(l.price) && l.qty > 0
  {
    var m := b.On(side.Opposite());
    LevelsSorted(m);
    forall l | l in b.AskLevels(side)
      ensures Complement(l.price) in m && m[Complement(l.price)] == l.qty
    {
      var i :| 0 <= i < |b.AskLevels(side)| && b.AskLevels(side)[i] == l;
      assert Levels(m)[i] in Levels(m);
    }
  }

  /** The size a book displays for a bid. */
  function SizeAt(b: Book, side: Side, price: Price): Qty {
    if side.YES? then (if price in b.yes then b.yes[price] else 0)
    else if price in b.no then b.no[price] else 0
  }

  /** The asks of a side are the other side's bids seen from it: one at p for each bid at $1 - p, and of its
      size. */
  lemma AsksAreBids(b: Book, side: Side, p: Price, q: Qty)
    requires b.Valid() && q > 0
    ensures Level(p, q) in b.AskLevels(side) <==> SizeAt(b, if side.YES? then NO else YES, 10_000 - p) == q
  {
    var m := if side.YES? then b.no else b.yes;
    LevelsSorted(m);
    var asks := b.AskLevels(side);
    assert m == b.On(side.Opposite());
    if Level(p, q) in asks {
      var i :| 0 <= i < |asks| && asks[i] == Level(p, q);
      assert Levels(m)[i] in Levels(m);
    }
    if 10_000 - p in m && m[10_000 - p] == q {
      var i :| 0 <= i < |Levels(m)| && Levels(m)[i] == Level(10_000 - p, q);
      assert asks[i] == Level(p, q);
    }
  }

  // ---------------------------------------------------------------- mutation

  /** One level of `_validated`: None stands for the exception it raises. */
  function Admit(out: Bids, price: Price, qty: Qty): (r: Option<Bids>)
    requires ValidBids(out)
    ensures r.Some? ==> ValidBids(r.value)
  {
    if !ValidPrice(price) || qty < 0 || price in out then None
    else if qty == 0 then Some(out)
    else Some(out[price := qty])
  }

  function Validated(levels: seq<(Price, Qty)>): (r: Option<Bids>)
    ensures r.Some? ==> ValidBids(r.value)
  {
    if levels == [] then Some(map[])
    else
      var prev := Validated(levels[..|levels| - 1]);
      if prev.None? then None else Admit(prev.value, levels[|levels| - 1].0, levels[|levels| - 1].1)
  }

  /** The bids are the sized levels, neither more nor fewer. */
  ghost predicate Shows(m: Bids, levels: seq<(Price, Qty)>) {
    && (forall p | p in m :: m[p] != 0 && (p, m[p]) in levels)
    && (forall l | l in levels && l.1 != 0 :: l.0 in m && m[l.0] == l.1)
  }

  predicate Wellformed(levels: seq<(Price, Qty)>) {
    && (forall i | 0 <= i < |levels| :: ValidPrice(levels[i].0) && levels[i].1 >= 0)
    && (forall i, j | 0 <= i < j < |levels| :: levels[i].0 == levels[j].0 ==> levels[i].1 == 0)
  }

  lemma AdmitMeaning(front: seq<(Price, Qty)>, out: Bids, last: (Price, Qty))
    requires Wellformed(front) && ValidBids(out) && Shows(out, front)
    ensures Admit(out, last.0, last.1).Some? <==> Wellformed(front + [last])
    ensures Admit(out, last.0, last.1).Some? ==> Shows(Admit(out, last.0, last.1).value, front + [last])
  {
    var levels, n := front + [last], |front|;
    if last.0 in out {
      assert (last.0, out[last.0]) in front;
      var i :| 0 <= i < n && front[i] == (last.0, out[last.0]);
      assert levels[i].0 == levels[n].0 && levels[i].1 != 0;
    } else {
      forall i | 0 <= i < n && levels[i].0 == last.0
        ensures levels[i].1 == 0
      {
        assert front[i] in front;
      }
      if Admit(out, last.0, last.1).Some? {
        forall i, j | 0 <= i < j < |levels| && levels[i].0 == levels[j].0
          ensures levels[i].1 == 0
        {
          assert levels[i] == front[i];
          assert j < n ==> levels[j] == front[j];
        }
      } else {
        assert levels[n] == last;
      }
    }
  }

  /** A snapshot is accepted exactly when every price is inside (0, $1), no size is negative and no
      level repeats one that has size; the accepted book shows exactly the sized levels. */
  lemma {:induction false} SnapshotMeaning(levels: seq<(Price, Qty)>)
    ensures Validated(levels).Some? <==> Wellformed(levels)
    ensures Validated(levels).Some? ==> Shows(Validated(levels).value, levels)
  {
    if levels != [] {
      var n := |levels| - 1;
      var front := levels[..n];
      assert levels == front + [levels[n]];
      SnapshotMeaning(front);
      if Validated(front).Some? {
        AdmitMeaning(front, Validated(front).value, levels[n]);
      } else {
        assert forall i | 0 <= i < n :: front[i] == levels[i];
      }
    }
  }

  function Snapshot(yes: seq<(Price, Qty)>, no: seq<(Price, Qty)>): (r: Option<Book>)
    ensures r.Some? ==> r.value.Valid()
  {
    var y, n := Validated(yes), Validated(no);
    if y.Some? && n.Some? then Some(Book(y.value, n.value)) else None
  }

  /** What the two lists of a snapshot become: accepted exactly if both are well formed, and then the YES
      bids are the YES list's sized levels and the NO bids the NO list's. */
  lemma SnapshotShows(yes: seq<(Price, Qty)>, no: seq<(Price, Qty)>)
    ensures Snapshot(yes, no).Some? <==> Wellformed(yes) && Wellformed(no)
    ensures Snapshot(yes, no).Some? ==> Shows(Snapshot(yes, no).value.yes, yes) && Shows(Snapshot(yes, no).value.no, no)
  {
    SnapshotMeaning(yes);
    SnapshotMeaning(no);
  }

  function Delta(b: Book, side: Side, price: Price, delta: Qty): (r: Option<Book>)
    requires b.Valid()
    ensures r.Some? ==> r.value.Valid()
  {
    var m := b.On(side);
    var qty := (if price in m then m[price] else 0) + delta;
    if !ValidPrice(price) || qty < 0 then None
    else if qty == 0 then Some(b.With(side, m - {price}))
    else Some(b.With(side, m[price := qty]))
  }

  /** A delta is refused exactly if its price is outside (0, $1) or it takes more than is there; otherwise
      the one level it names moves by just that much, and no other level on either side. */
  lemma DeltaMeaning(b: Book, side: Side, price: Price, delta: Qty)
    requires b.Valid()
    ensures Delta(b, side, price, delta).Some? <==> ValidPrice(price) && SizeAt(b, side, price) + delta >= 0
    ensures Delta(b, side, price, delta).Some? ==>
              forall s, p :: SizeAt(Delta(b, side, price, delta).value, s, p)
                             == SizeAt(b, s, p) + (if s == side && p == price then delta else 0)
  {
  }

  /** A delta and its opposite cancel out, whether or not a level appears or disappears. */
  lemma DeltaUndo(b: Book, side: Side, price: Price, delta: Qty)
    requires b.Valid() && Delta(b, side, price, delta).Some?
    ensures Delta(Delta(b, side, price, delta).value, side, price, -delta) == Some(b)
  {
    var m := b.On(side);
    var c := Delta(b, side, price, delta).value;
    if price in m {
      assert (m - {price})[price := m[price]] == m;
      assert m[price := m[price] + delta][price := m[price]] == m;
    } else {
      assert m - {price} == m;
      assert m[price := delta] - {price} == m;
    }
  }

  class OrderBook {
    var bids: map<Side, Bids>

    ghost predicate Valid()
      reads this
    {
      YES in bids && NO in bids && bids.Keys == {YES, NO} && Value().Valid()
    }

    ghost function Value(): Book
      requires YES in bids && NO in bids
      reads this
    {
      Book(bids[YES], bids[NO])
    }

    constructor ()
      ensures Valid() && Value() == Book(map[], map[])
    {
      bids := map[YES := map[], NO := map[]];
    }

    /** Atomic: invalid input keeps the old state. */
    method ApplySnapshot(yes: seq<(Price, Qty)>, no: seq<(Price, Qty)>) returns (ok: bool)
      requires Valid()
      modifies this
      ensures Valid()
      ensures ok == Snapshot(yes, no).Some?
      ensures Value() == if ok then Snapshot(yes, no).value else old(Value())
      ensures ok <==> Wellformed(yes) && Wellformed(no)
      ensures ok ==> Shows(Value().On(YES), yes) && Shows(Value().On(NO), no)
    {
      SnapshotShows(yes, no);
      var y := Check(yes);
      var n := Check(no);
      if y.None? || n.None? {
        return false;
      }
      bids := map[YES := y.value, NO := n.value];
      return true;
    }

    method Check(levels: seq<(Price, Qty)>) returns (r: Option<Bids>)
      ensures r == Validated(levels)
    {
      var out: Bids := map[];
      for i := 0 to |levels|
        invariant Validated(levels[..i]) == Some(out)
      {
        var (price, qty) := levels[i];
        assert levels[..i + 1][..i] == levels[..i];
        if !ValidPrice(price) || qty < 0 || price in out {
          Stuck(levels, i + 1);
          return None;
        }
        if qty != 0 {
          out := out[price := qty];
        }
      }
      assert levels[..|levels|] == levels;
      return Some(out);
    }

    method ApplyDelta(side: Side, price: Price, delta: Qty) returns (ok: bool)
      requires Valid()
      modifies this
      ensures Valid()
      ensures ok == Delta(old(Value()), side, price, delta).Some?
      ensures Value() == if ok then Delta(old(Value()), side, price, delta).value else old(Value())
      ensures ok <==> ValidPrice(price) && SizeAt(old(Value()), side, price) + delta >= 0
      ensures ok ==> forall s, p :: SizeAt(Value(), s, p)
                                    == SizeAt(old(Value()), s, p) + (if s == side && p == price then delta else 0)
    {
      DeltaMeaning(Value(), side, price, delta);
      if !ValidPrice(price) {
        return false;
      }
      assert side in bids by { assert side == YES || side == NO; }
      var book := bids[side];
      var qty := (if price in book then book[price] else 0) + delta;
      if qty < 0 {
        return false;
      }
      book := if qty == 0 then book - {price} else book[price := qty];
      bids := bids[side := book];
      return true;
    }
  }

  lemma {:induction false} Stuck(levels: seq<(Price, Qty)>, i: nat)
    requires i <= |levels| && Validated(levels[..i]).None?
    ensures Validated(levels).None?
    decreases |levels| - i
  {
    if i < |levels| {
      assert levels[..i + 1][..i] == levels[..i];
      Stuck(levels, i + 1);
    } else {
      assert levels[..i] == levels;
    }
  }
}
