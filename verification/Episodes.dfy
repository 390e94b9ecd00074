/** research/scanner.py: the scanner object and the life of an episode: when it opens, how long it was last
    seen alive, and when and why it ends. */
module Episodes {
  import opened Units
  import opened Relationships
  import opened Execution
  import opened Detector
  import opened ScanIndex
  import Fills

  /** A leg's contract and the best ask it was last recorded with, if any. */
  datatype Top = Top(contract: Contract, price: Option<Price>)

  datatype Episode = Episode(key: Key, constraint: Constraint, firstSeen: int, lastAlive: int, tops: seq<Top>,
                             ended: Option<int>, reason: string)

  /** The prints kept of each market, with the time of their batch. */
  type Tapes = map<Ticker, seq<(int, Fills.Trade)>>

  // ---------------------------------------------------------------- how an episode changes

  function TopsOf(c: Constraint, books: Books): (tops: seq<Top>)
    ensures |tops| == |c.legs|
    ensures forall i | 0 <= i < |tops| ::
              && tops[i].contract == c.legs[i].contract
              && (tops[i].price.Some? <==> AskOf(books)(c.legs[i].contract).Some?)
              && (tops[i].price.Some? ==> tops[i].price.value == AskOf(books)(c.legs[i].contract).value.price)
  {
    seq(|c.legs|, i requires 0 <= i < |c.legs| =>
      Top(c.legs[i].contract, match AskOf(books)(c.legs[i].contract) case None => None case Some(l) => Some(l.price)))
  }

  /** A buyer of the leg's side traded at its recorded ask or above, after the episode was last seen alive. */
  predicate TookLeg(top: Top, x: (int, Fills.Trade), since: int, ts: int) {
    && top.price.Some? && since < x.0 <= ts && x.1.takerSide == Some(top.contract.side)
    && (if top.contract.side.YES? then x.1.yesPrice else x.1.noPrice) >= top.price.value
  }

  ghost predicate Consumed(e: Episode, tapes: Tapes, ts: int) {
    exists i, j :: 0 <= i < |e.tops| && e.tops[i].contract.ticker in tapes
      && 0 <= j < |tapes[e.tops[i].contract.ticker]| && TookLeg(e.tops[i], tapes[e.tops[i].contract.ticker][j], e.lastAlive, ts)
  }

  ghost function WhyGone(e: Episode, tapes: Tapes, ts: int): string {
    if Consumed(e, tapes, ts) then "consumed" else "quote_change"
  }

  /** The end of an episode: only one that was watched to the end is given a time. */
  function Closing(e: Episode, ts: int, reason: string): Episode {
    e.(reason := reason, ended := if reason == "gap" || reason == "closed" || reason == "end_of_data" then None else Some(ts))
  }

  /** One batch as the episodes see it. */
  datatype Scene = Scene(
    ts: int, gap: bool, newly: set<Ticker>, changed: set<Ticker>, confirm: bool, books: Books, tapes: Tapes)

  /** Why an episode ends in a batch, if it does: a recording gap ends all; a market of its own that closes
      ends it; a change in one of its books ends it unless it is still violated. */
  ghost function Fate(e: Episode, found: set<Key>, sc: Scene): Option<string> {
    if sc.gap then Some("gap")
    else if !Untouched(e.key, sc.newly) then Some("closed")
    else if !Untouched(e.key, sc.changed) && e.key !in found then Some(WhyGone(e, sc.tapes, sc.ts))
    else None
  }

  /** An episode that goes on: seen alive now if it was found again or the books were confirmed, and its legs'
      asks noted again if it was found. */
  function GoesOn(e: Episode, found: set<Key>, sc: Scene): Episode {
    e.(lastAlive := if e.key in found || sc.confirm then sc.ts else e.lastAlive,
       tops := if e.key in found then TopsOf(e.constraint, sc.books) else e.tops)
  }

  ghost predicate Opened(e: Episode, k: Key, sc: Scene) {
    && e.key == k && KeyOf(e.constraint) == k && e.firstSeen == sc.ts && e.lastAlive == sc.ts
    && e.tops == TopsOf(e.constraint, sc.books) && e.ended == None && e.reason == "open"
  }

  /** Each of these keys once. */
  ghost predicate Once(order: seq<Key>, keys: set<Key>) {
    && (forall k | k in order :: k in keys) && (forall k | k in keys :: k in order)
    && forall i, j | 0 <= i < j < |order| :: order[i] != order[j]
  }

  ghost predicate Closed(e: Episode, was: map<Key, Episode>, why: map<Key, string>, ts: int, k: Key) {
    k in was && k in why && e == Closing(was[k], ts, why[k])
  }

  ghost predicate EndsIn(was: map<Key, Episode>, doneWas: seq<Episode>, done: seq<Episode>, why: map<Key, string>, ts: int, order: seq<Key>) {
    && Once(order, why.Keys) && |done| == |doneWas| + |order| && doneWas <= done
    && forall i | 0 <= i < |order| :: Closed(done[|doneWas| + i], was, why, ts, order[i])
  }

  /** These episodes, and no others, have ended since: each once, for its own reason. */
  ghost predicate Ends(was: map<Key, Episode>, doneWas: seq<Episode>, done: seq<Episode>, why: map<Key, string>, ts: int) {
    exists order :: EndsIn(was, doneWas, done, why, ts, order)
  }

  /** These are the episodes whose fate it is to end, and the reasons. */
  ghost predicate Fated(was: map<Key, Episode>, why: map<Key, string>, found: set<Key>, sc: Scene) {
    forall k | k in was ::
      if Fate(was[k], found, sc).Some? then k in why && why[k] == Fate(was[k], found, sc).value else k !in why
  }

  ghost predicate Endings(was: map<Key, Episode>, doneWas: seq<Episode>, done: seq<Episode>, found: set<Key>, sc: Scene) {
    exists why :: Ends(was, doneWas, done, why, sc.ts) && Fated(was, why, found, sc)
  }

  ghost predicate Staying(was: map<Key, Episode>, open: map<Key, Episode>, found: set<Key>, sc: Scene) {
    forall k | k in was && Fate(was[k], found, sc).None? :: k in open && open[k] == GoesOn(was[k], found, sc)
  }

  ghost predicate Newcomers(was: map<Key, Episode>, open: map<Key, Episode>, found: set<Key>, sc: Scene) {
    forall k | k in open :: (k in was && Fate(was[k], found, sc).None?) || (k in found && Opened(open[k], k, sc))
  }

  /** The whole life of the episodes over one batch: which end and why, which go on and how, and that all
      others open are new. */
  ghost predicate Chronicle(was: map<Key, Episode>, doneWas: seq<Episode>, open: map<Key, Episode>, done: seq<Episode>,
                            found: set<Key>, sc: Scene)
  {
    Endings(was, doneWas, done, found, sc) && Staying(was, open, found, sc) && Newcomers(was, open, found, sc)
  }

  // ---------------------------------------------------------------- the stages of a batch, put together

  ghost predicate Keyed(m: map<Key, Episode>) {
    forall k | k in m :: m[k].key == k
  }

  lemma EndsNone(was: map<Key, Episode>, doneWas: seq<Episode>, ts: int)
    ensures Ends(was, doneWas, doneWas, map[], ts)
  {
    assert EndsIn(was, doneWas, doneWas, map[], ts, []);
  }

  lemma OnceMore(order: seq<Key>, keys: set<Key>, k: Key)
    requires Once(order, keys) && k !in keys
    ensures Once(order + [k], keys + {k})
  {
  }

  lemma EndsMore(was: map<Key, Episode>, doneWas: seq<Episode>, done: seq<Episode>, why: map<Key, string>, ts: int, k: Key, r: string)
    requires Ends(was, doneWas, done, why, ts) && k in was && k !in why
    ensures Ends(was, doneWas, done + [Closing(was[k], ts, r)], why[k := r], ts)
  {
    var order :| EndsIn(was, doneWas, done, why, ts, order);
    var more, all, longer := done + [Closing(was[k], ts, r)], why[k := r], order + [k];
    OnceMore(order, why.Keys, k);
    assert all.Keys == why.Keys + {k};
    hide Once, Closing;
    forall i | 0 <= i < |longer|
      ensures Closed(more[|doneWas| + i], was, all, ts, longer[i])
    {
      if i < |order| {
        assert Closed(done[|doneWas| + i], was, why, ts, order[i]);
        assert order[i] in why;
      }
    }
    assert EndsIn(was, doneWas, more, all, ts, longer);
  }

  lemma OnceBoth(first: seq<Key>, second: seq<Key>, a: set<Key>, b: set<Key>)
    requires Once(first, a) && Once(second, b) && a !! b
    ensures Once(first + second, a + b)
  {
    var all := first + second;
    forall i, j | 0 <= i < j < |all|
      ensures all[i] != all[j]
    {
      if i < |first| <= j {
        assert first[i] in a && second[j - |first|] in b;
      }
    }
    assert forall k | k in all :: k in first || k in second;
  }

  lemma EndsChain(was: map<Key, Episode>, doneWas: seq<Episode>, mid: seq<Episode>, done: seq<Episode>,
                  first: map<Key, string>, later: map<Key, Episode>, second: map<Key, string>, ts: int)
    requires Ends(was, doneWas, mid, first, ts) && Ends(later, mid, done, second, ts)
    requires first.Keys !! second.Keys && forall k | k in second && k in later :: k in was && later[k] == was[k]
    ensures Ends(was, doneWas, done, first + second, ts)
  {
    var o1 :| EndsIn(was, doneWas, mid, first, ts, o1);
    var o2 :| EndsIn(later, mid, done, second, ts, o2);
    var all := first + second;
    OnceBoth(o1, o2, first.Keys, second.Keys);
    assert all.Keys == first.Keys + second.Keys;
    hide Once, Closed, Ends;
    forall i | 0 <= i < |o1 + o2|
      ensures Closed(done[|doneWas| + i], was, all, ts, (o1 + o2)[i])
    {
      if i < |o1| {
        ClosedFirst(was, doneWas, mid, done, first, second, ts, o1, i);
      } else {
        ClosedSecond(was, mid, done, first, later, second, ts, o2, i - |o1|);
        assert |mid| + (i - |o1|) == |doneWas| + i;
      }
    }
    assert EndsIn(was, doneWas, done, all, ts, o1 + o2);
    EndsBy(was, doneWas, done, all, ts, o1 + o2);
  }

  lemma EndsBy(was: map<Key, Episode>, doneWas: seq<Episode>, done: seq<Episode>, why: map<Key, string>, ts: int, order: seq<Key>)
    requires EndsIn(was, doneWas, done, why, ts, order)
    ensures Ends(was, doneWas, done, why, ts)
  {
    hide EndsIn;
  }

  lemma ClosedFirst(was: map<Key, Episode>, doneWas: seq<Episode>, mid: seq<Episode>, done: seq<Episode>,
                    first: map<Key, string>, second: map<Key, string>, ts: int, order: seq<Key>, i: nat)
    requires EndsIn(was, doneWas, mid, first, ts, order) && mid <= done && i < |order| && first.Keys !! second.Keys
    ensures Closed(done[|doneWas| + i], was, first + second, ts, order[i])
  {
    assert Closed(mid[|doneWas| + i], was, first, ts, order[i]);
    assert done[|doneWas| + i] == mid[|doneWas| + i];
    hide Once, Closing;
  }

  lemma ClosedSecond(was: map<Key, Episode>, mid: seq<Episode>, done: seq<Episode>,
                     first: map<Key, string>, later: map<Key, Episode>, second: map<Key, string>, ts: int, order: seq<Key>, i: nat)
    requires EndsIn(later, mid, done, second, ts, order) && i < |order|
    requires forall k | k in second && k in later :: k in was && later[k] == was[k]
    ensures Closed(done[|mid| + i], was, first + second, ts, order[i])
  {
    assert Closed(done[|mid| + i], later, second, ts, order[i]);
    hide Once, Closing;
  }

  // ---------------------------------------------------------------- the prints kept

  function Pruned(q: seq<(int, Fills.Trade)>, from: int): seq<(int, Fills.Trade)> {
    if q == [] || q[0].0 >= from then q else Pruned(q[1..], from)
  }

  /** Pruning drops only what is older than the memory, from the front. */
  lemma {:induction false} PrunedKeeps(q: seq<(int, Fills.Trade)>, from: int)
    ensures |Pruned(q, from)| <= |q| && Pruned(q, from) == q[|q| - |Pruned(q, from)|..]
    ensures forall i | 0 <= i < |q| - |Pruned(q, from)| :: q[i].0 < from
    ensures Pruned(q, from) != [] ==> Pruned(q, from)[0].0 >= from
  {
    if q != [] && q[0].0 < from {
      PrunedKeeps(q[1..], from);
      var kept := Pruned(q[1..], from);
      assert forall i | 1 <= i < |q| :: q[i] == q[1..][i - 1];
    }
  }

  function Taped(tapes: Tapes, ts: int, memory: int, batch: seq<Event>): Tapes {
    if batch == [] then tapes
    else
      var before := Taped(tapes, ts, memory, batch[..|batch| - 1]);
      match batch[|batch| - 1]
      case TradeTick(t, tr) => before[t := Pruned((if t in before then before[t] else []) + [(ts, tr)], ts - memory)]
      case _ => before
  }

  predicate Confirms(batch: seq<Event>) {
    exists i :: 0 <= i < |batch| && batch[i].BookConfirm?
  }

  lemma OneLess(was: map<Key, Episode>, why: map<Key, string>, rest: set<Key>, k: Key)
    requires k in rest && rest <= why.Keys <= was.Keys
    ensures (why - rest)[k := why[k]] == why - (rest - {k}) && k !in why - rest
    ensures was - (why.Keys - rest) - {k} == was - (why.Keys - (rest - {k}))
    ensures k in was - (why.Keys - rest) && (was - (why.Keys - rest))[k] == was[k]
  {
  }

  lemma KeyedLess(m: map<Key, Episode>, k: Key)
    requires Keyed(m)
    ensures Keyed(m - {k})
  {
  }

  lemma NothingRead()
    ensures Changed([]) == {} && ClosedNow([]) == {}
  {
  }

  // ---------------------------------------------------------------- the scanner object

  class Scanner {
    const specs: seq<RelationSpec>
    const gap: int
    const memory: int
    var books: Books
    var closed: set<Ticker>
    var open: map<Key, Episode>
    var done: seq<Episode>
    var lastLive: Option<int>
    var tapes: Tapes

    ghost function Value(): Index
      reads this
    {
      Index(books, closed, open.Keys, lastLive)
    }

    ghost predicate Valid()
      reads this
    {
      SpecsValid(specs) && ValidBooks(books) && Keyed(open)
    }

    constructor (specs: seq<RelationSpec>, gap: int, memory: int)
      requires SpecsValid(specs)
      ensures Valid() && Value() == START && done == [] && tapes == map[]
      ensures this.specs == specs && this.gap == gap && this.memory == memory
    {
      this.specs, this.gap, this.memory := specs, gap, memory;
      books, closed, open, done, lastLive, tapes := map[], {}, map[], [], None, map[];
    }

    /** What the batch finds violated among the relations it re-prices. */
    ghost predicate IsFound(found: set<Key>, batch: seq<Event>)
      reads this
    {
      forall k: Key :: k in found <==> FoundNow(specs, books, closed, Changed(batch), k)
    }

    method EndSome(ts: int, why: map<Key, string>)
      requires Valid() && why.Keys <= open.Keys
      modifies this`open, this`done
      ensures Valid() && open == old(open) - why.Keys && Ends(old(open), old(done), done, why, ts)
    {
      hide Ends, Closing, SpecsValid, ValidBooks, Keyed;
      var rest := why.Keys;
      ghost var was, doneWas := open, done;
      EndsNone(was, doneWas, ts);
      assert why - rest == map[] && was - (why.Keys - rest) == was;
      while rest != {}
        invariant rest <= why.Keys && Keyed(open)
        invariant open == was - (why.Keys - rest) && Ends(was, doneWas, done, why - rest, ts)
        decreases |rest|
      {
        var k :| k in rest;
        EndsMore(was, doneWas, done, why - rest, ts, k, why[k]);
        OneLess(was, why, rest, k);
        KeyedLess(open, k);
        done := done + [Closing(open[k], ts, why[k])];
        open := open - {k};
        rest := rest - {k};
      }
      assert why - rest == why;
    }

    /** A recording gap ends everything. */
    method CheckGap(ts: int) returns (ghost why: map<Key, string>)
      requires Valid()
      modifies this`open, this`done
      ensures Valid() && Ends(old(open), old(done), done, why, ts) && open == old(open) - why.Keys
      ensures why == if lastLive.Some? && ts - lastLive.value > gap then map k | k in old(open) :: "gap" else map[]
    {
      hide Ends, SpecsValid, ValidBooks;
      why := map[];
      EndsNone(open, done, ts);
      if lastLive.Some? && ts - lastLive.value > gap {
        var all := map k | k in open :: "gap";
        why := all;
        EndSome(ts, all);
      }
    }

    /** A market that closes ends the episodes with a leg on it. */
    method CloseForMarket(ts: int, tickers: set<Ticker>) returns (ghost why: map<Key, string>)
      requires Valid()
      modifies this`open, this`done
      ensures Valid() && Ends(old(open), old(done), done, why, ts) && open == old(open) - why.Keys
      ensures why == map k | k in old(open) && !Untouched(k, tickers) :: "closed"
    {
      hide Ends, SpecsValid, ValidBooks;
      var all := map k | k in open && !(KeyTickers(k) !! tickers) :: "closed";
      why := all;
      EndSome(ts, all);
    }

    method ReadBatch(ts: int, batch: seq<Event>) returns (changed: set<Ticker>, closedNow: set<Ticker>, confirm: bool)
      requires Valid() && ValidBatch(batch)
      modifies this`books, this`tapes
      ensures Valid() && books == Apply(old(books), batch) && tapes == Taped(old(tapes), ts, memory, batch)
      ensures changed == Changed(batch) && closedNow == ClosedNow(batch) && (confirm <==> Confirms(batch))
    {
      hide SpecsValid, Keyed, Changed, ClosedNow;
      changed, closedNow, confirm := {}, {}, false;
      ghost var was, tapesWas := books, tapes;
      NothingRead();
      assert batch[..0] == [];
      for i := 0 to |batch|
        invariant ValidBooks(books) && books == Apply(was, batch[..i]) && tapes == Taped(tapesWas, ts, memory, batch[..i])
        invariant SpecsValid(specs) && Keyed(open)
        invariant changed == Changed(batch[..i]) && closedNow == ClosedNow(batch[..i])
        invariant confirm <==> exists k :: 0 <= k < i && batch[k].BookConfirm?
      {
        assert batch[..i + 1][..i] == batch[..i];
        SetsGrow(batch, i);
        match batch[i]
        case BookUpdate(t, b) =>
          books := books[t := b];
          changed := changed + {t};
        case TradeTick(t, tr) =>
          var q := (if t in tapes then tapes[t] else []) + [(ts, tr)];
          var from := Prune(q, ts - memory);
          tapes := tapes[t := from];
        case BookConfirm =>
          confirm := true;
        case MarketClose(t) =>
          closedNow := closedNow + {t};
        case Settlement(t, _) =>
          closedNow := closedNow + {t};
      }
      assert batch[..|batch|] == batch;
    }

    method Prune(q: seq<(int, Fills.Trade)>, from: int) returns (kept: seq<(int, Fills.Trade)>)
      ensures kept == Pruned(q, from)
    {
      kept := q;
      while kept != [] && kept[0].0 < from
        invariant Pruned(kept, from) == Pruned(q, from)
        decreases |kept|
      {
        kept := kept[1..];
      }
    }

    /** `_why_gone`: down the legs and the prints kept of each. */
    method Attribute(e: Episode, ts: int) returns (reason: string)
      ensures reason == WhyGone(e, tapes, ts)
    {
      for i := 0 to |e.tops|
        invariant forall k, j | 0 <= k < i && e.tops[k].contract.ticker in tapes && 0 <= j < |tapes[e.tops[k].contract.ticker]| ::
          !TookLeg(e.tops[k], tapes[e.tops[k].contract.ticker][j], e.lastAlive, ts)
      {
        var t := e.tops[i].contract.ticker;
        if e.tops[i].price.Some? && t in tapes {
          for j := 0 to |tapes[t]|
            invariant forall l | 0 <= l < j :: !TookLeg(e.tops[i], tapes[t][l], e.lastAlive, ts)
          {
            if TookLeg(e.tops[i], tapes[t][j], e.lastAlive, ts) {
              return "consumed";
            }
          }
        }
      }
      return "quote_change";
    }

    method ActiveTouched(changed: set<Ticker>) returns (active: seq<RelationSpec>)
      requires Valid()
      ensures forall s :: s in active <==> s in specs && Active(s, books, closed) && Touches(s, changed)
      ensures forall s | s in active :: s.relation.Valid()
    {
      hide Active, Touches;
      active := [];
      for i := 0 to |specs|
        invariant forall s :: s in active <==> s in specs[..i] && Active(s, books, closed) && Touches(s, changed)
      {
        assert specs[..i + 1] == specs[..i] + [specs[i]];
        if Active(specs[i], books, closed) && Touches(specs[i], changed) {
          active := active + [specs[i]];
        }
      }
      assert specs[..|specs|] == specs;
    }

    /** Open an episode for each new key, note the known ones alive. */
    method Report(ts: int, found: seq<Opportunity>) returns (keys: set<Key>)
      requires Valid()
      modifies this`open
      ensures Valid() && Reported(old(open), open, keys, ts, books)
      ensures forall k :: k in keys <==> exists j :: 0 <= j < |found| && KeyOf(found[j].constraint) == k
    {
      hide SpecsValid, ValidBooks, KeyOf, Reported;
      keys := {};
      ghost var was := open;
      ReportedNone(open, ts, books);
      for i := 0 to |found|
        invariant forall k :: k in keys <==> exists j :: 0 <= j < i && KeyOf(found[j].constraint) == k
        invariant Reported(was, open, keys, ts, books) && Keyed(open) && Keyed(was)
      {
        var c, key := found[i].constraint, KeyOf(found[i].constraint);
        ReportedMore(was, open, keys, ts, books, c);
        open := open[key := Seen(open, key, c, ts, books)];
        keys := keys + {key};
      }
    }

    /** Re-price the observable relations the changed books touch; open, keep or end episodes. */
    method Evaluate(ts: int, changed: set<Ticker>) returns (ghost keys: set<Key>, ghost why: map<Key, string>)
      requires Valid()
      modifies this`open, this`done
      ensures Valid() && Ends(old(open), old(done), done, why, ts)
      ensures forall k :: k in keys <==> FoundNow(specs, books, closed, changed, k)
      ensures why == map k | k in old(open) && !Untouched(k, changed) && k !in keys :: WhyGone(old(open)[k], tapes, ts)
      ensures exists noted :: Reported(old(open), noted, keys, ts, books) && open == noted - why.Keys
    {
      hide SpecsValid, FoundNow, Untouched, KeyTickers, Credited, Ends, Reported, WhyGone, Keyed;
      ghost var was, doneWas := open, done;
      var active := ActiveTouched(changed);
      var found := Detect(active, books, DRIVER);
      FoundKeys(specs, books, closed, changed, active, found);
      var seen := Report(ts, found);
      keys := seen;
      ghost var noted := open;
      var gone := Reasons(ts, seen, changed);
      ReportedOld(was, noted, keys, ts, books);
      why := gone;
      EndSome(ts, gone);
      EndsNone(was, doneWas, ts);
      EndsChain(was, doneWas, doneWas, done, map[], noted, gone, ts);
      assert map[] + gone == gone;
    }

    /** The open episodes that were not found again although a leg's book changed, with the reason. */
    method Reasons(ts: int, found: set<Key>, changed: set<Ticker>) returns (why: map<Key, string>)
      ensures why == map k | k in open && !Untouched(k, changed) && k !in found :: WhyGone(open[k], tapes, ts)
    {
      why := map[];
      var rest := open.Keys;
      while rest != {}
        invariant rest <= open.Keys
        invariant why == map k | k in open && k !in rest && !Untouched(k, changed) && k !in found :: WhyGone(open[k], tapes, ts)
        decreases |rest|
      {
        var k :| k in rest;
        if !(KeyTickers(k) !! changed) && k !in found {
          var reason := Attribute(open[k], ts);
          why := why[k := reason];
        }
        rest := rest - {k};
      }
    }

    /** Everything open is alive when the books are confirmed. */
    method Confirm(ts: int)
      requires Valid()
      modifies this`open
      ensures Valid() && open == map k | k in old(open) :: old(open)[k].(lastAlive := ts)
    {
      hide SpecsValid, ValidBooks;
      ghost var was := open;
      var rest := open.Keys;
      while rest != {}
        invariant rest <= was.Keys
        invariant open == map k | k in was :: if k in rest then was[k] else was[k].(lastAlive := ts)
        decreases |rest|
      {
        var k :| k in rest;
        open := open[k := open[k].(lastAlive := ts)];
        rest := rest - {k};
      }
    }

    /** `_process` makes exactly one step of the index, and writes the episodes' chronicle for the batch. */
    method Process(ts: int, batch: seq<Event>) returns (ghost found: set<Key>)
      requires Valid() && ValidBatch(batch)
      modifies this
      ensures Valid() && ScanIndex.Step(specs, gap, old(Value()), ts, batch, Value())
      ensures IsFound(found, batch) && tapes == Taped(old(tapes), ts, memory, batch)
      ensures Chronicle(old(open), old(done), open, done, found,
                        Scene(ts, IsGap(old(Value()), ts, batch, gap), ClosedNow(batch) - old(closed), Changed(batch),
                              Confirms(batch), books, tapes))
    {
      hide FoundNow, SpecsValid, ValidBooks, Untouched, ScanIndex.Step, Apply, Changed, ClosedNow, Ends, Endings, Staying, Newcomers, Reported, WhyGone, Taped, Confirms, IsGap;
      ghost var before, was, doneWas := Value(), open, done;
      var newly, changed, confirm;
      ghost var kept, doneGap, gapWhy, shutWhy;
      newly, changed, confirm, kept, doneGap, gapWhy, shutWhy := Prepare(ts, batch);
      ghost var standing, doneShut := open, done;
      ghost var evalWhy: map<Key, string> := map[];
      EndsNone(open, done, ts);
      found := {};
      if changed + newly != {} {
        found, evalWhy := Evaluate(ts, changed);
      } else {
        NothingChanged(specs, books, closed);
        ReportedNone(open, ts, books);
        NoneGone(open, changed, tapes, ts);
        assert open - evalWhy.Keys == open;
      }
      ghost var noted :| Reported(standing, noted, found, ts, books) && open == noted - evalWhy.Keys;
      ghost var doneEval, settled := done, open;
      if confirm {
        Confirm(ts);
      }
      ghost var sc := Scene(ts, IsGap(before, ts, batch, gap), newly, changed, confirm, books, tapes);
      ghost var p := Passage(was, kept, standing, noted, open, gapWhy, shutWhy, evalWhy);
      hide Staged, Keyed, KeyTickers;
      StagedFrom(p, found, sc, settled);
      Stages(p, doneWas, doneGap, doneShut, doneEval, found, sc);
      OpenKeys(p, found, sc);
      Stepped(specs, gap, before, ts, batch, Value(), kept.Keys, standing.Keys);
    }

    /** The gap check, the batch's own data, and the closes. */
    method Prepare(ts: int, batch: seq<Event>)
      returns (newly: set<Ticker>, changed: set<Ticker>, confirm: bool, ghost kept: map<Key, Episode>, ghost doneGap: seq<Episode>,
               ghost gapWhy: map<Key, string>, ghost shutWhy: map<Key, string>)
      requires Valid() && ValidBatch(batch)
      modifies this
      ensures Valid() && books == Apply(old(books), batch) && tapes == Taped(old(tapes), ts, memory, batch)
      ensures closed == old(closed) + ClosedNow(batch) && newly == ClosedNow(batch) - old(closed) && changed == Changed(batch)
      ensures (confirm <==> Confirms(batch)) && lastLive == if ObservesBooks(batch) then Some(ts) else old(lastLive)
      ensures gapWhy == (if IsGap(old(Value()), ts, batch, gap) then map k | k in old(open) :: "gap" else map[])
      ensures kept == old(open) - gapWhy.Keys && open == kept - shutWhy.Keys
      ensures shutWhy == map k | k in kept && !Untouched(k, newly) :: "closed"
      ensures Ends(old(open), old(done), doneGap, gapWhy, ts) && Ends(kept, doneGap, done, shutWhy, ts)
    {
      hide SpecsValid, ValidBooks, Keyed, Untouched, Apply, Changed, ClosedNow, Ends, Taped, Confirms;
      gapWhy := map[];
      EndsNone(open, done, ts);
      if ObservesBooks(batch) {
        gapWhy := CheckGap(ts);
      } else {
        assert open - gapWhy.Keys == open;
      }
      kept, doneGap := open, done;
      var closedNow;
      changed, closedNow, confirm := ReadBatch(ts, batch);
      newly := closedNow - closed;
      closed := closed + closedNow;
      if ObservesBooks(batch) {
        lastLive := Some(ts);
      }
      shutWhy := map[];
      EndsNone(open, done, ts);
      if newly != {} {
        shutWhy := CloseForMarket(ts, newly);
      } else {
        NoneTouched(open, newly);
        assert open - shutWhy.Keys == open;
      }
    }
  }

  // ---------------------------------------------------------------- what a report changes

  function Seen(open: map<Key, Episode>, k: Key, c: Constraint, ts: int, books: Books): Episode {
    if k in open then open[k].(lastAlive := ts, tops := TopsOf(open[k].constraint, books))
    else Episode(k, c, ts, ts, TopsOf(c, books), None, "open")
  }

  /** The keys found are noted alive, or opened; nothing else changes. */
  ghost predicate Reported(was: map<Key, Episode>, noted: map<Key, Episode>, keys: set<Key>, ts: int, books: Books) {
    && noted.Keys == was.Keys + keys && (Keyed(was) ==> Keyed(noted))
    && (forall k | k in was ::
          noted[k] == if k in keys then was[k].(lastAlive := ts, tops := TopsOf(was[k].constraint, books)) else was[k])
    && forall k | k in keys && k !in was ::
         && noted[k].key == k && KeyOf(noted[k].constraint) == k && noted[k].firstSeen == ts && noted[k].lastAlive == ts
         && noted[k].tops == TopsOf(noted[k].constraint, books) && noted[k].ended == None && noted[k].reason == "open"
  }

  lemma ReportedNone(open: map<Key, Episode>, ts: int, books: Books)
    ensures Reported(open, open, {}, ts, books)
  {
  }

  lemma ReportedMore(was: map<Key, Episode>, open: map<Key, Episode>, keys: set<Key>, ts: int, books: Books, c: Constraint)
    requires Keyed(was) && Keyed(open) && Reported(was, open, keys, ts, books)
    ensures Keyed(open[KeyOf(c) := Seen(open, KeyOf(c), c, ts, books)])
    ensures Reported(was, open[KeyOf(c) := Seen(open, KeyOf(c), c, ts, books)], keys + {KeyOf(c)}, ts, books)
  {
    hide KeyOf;
  }

  lemma ReportedOld(was: map<Key, Episode>, noted: map<Key, Episode>, keys: set<Key>, ts: int, books: Books)
    requires Reported(was, noted, keys, ts, books)
    ensures was.Keys <= noted.Keys && forall k | k in noted && k !in keys :: k in was && noted[k] == was[k]
  {
  }

  lemma NoneTouched(open: map<Key, Episode>, tickers: set<Ticker>)
    requires tickers == {}
    ensures forall k: Key :: Untouched(k, tickers)
    ensures (map k | k in open && !Untouched(k, tickers) :: "closed") == map[]
  {
  }

  lemma NoneGone(open: map<Key, Episode>, tickers: set<Ticker>, tapes: Tapes, ts: int)
    requires tickers == {}
    ensures (map k | k in open && !Untouched(k, tickers) && k !in {} :: WhyGone(open[k], tapes, ts)) == map[]
  {
    hide WhyGone;
  }

  /** The open episodes after each stage of a batch, and why they ended in it. */
  datatype Passage = Passage(
    was: map<Key, Episode>, kept: map<Key, Episode>, standing: map<Key, Episode>, noted: map<Key, Episode>, open: map<Key, Episode>,
    gapWhy: map<Key, string>, shutWhy: map<Key, string>, evalWhy: map<Key, string>)

  ghost predicate Staged(p: Passage, found: set<Key>, sc: Scene) {
    && Keyed(p.was)
    && p.gapWhy == (if sc.gap then map k | k in p.was :: "gap" else map[]) && p.kept == p.was - p.gapWhy.Keys
    && p.shutWhy == (map k | k in p.kept && !Untouched(k, sc.newly) :: "closed") && p.standing == p.kept - p.shutWhy.Keys
    && p.evalWhy == (map k | k in p.standing && !Untouched(k, sc.changed) && k !in found :: WhyGone(p.standing[k], sc.tapes, sc.ts))
    && Reported(p.standing, p.noted, found, sc.ts, sc.books)
    && p.open == if sc.confirm then map k | k in p.noted - p.evalWhy.Keys :: p.noted[k].(lastAlive := sc.ts) else p.noted - p.evalWhy.Keys
  }

  lemma StagedFrom(p: Passage, found: set<Key>, sc: Scene, settled: map<Key, Episode>)
    requires Keyed(p.was) && p.kept == p.was - p.gapWhy.Keys && p.standing == p.kept - p.shutWhy.Keys
    requires p.gapWhy == if sc.gap then map k | k in p.was :: "gap" else map[]
    requires p.shutWhy == map k | k in p.kept && !Untouched(k, sc.newly) :: "closed"
    requires p.evalWhy == map k | k in p.standing && !Untouched(k, sc.changed) && k !in found :: WhyGone(p.standing[k], sc.tapes, sc.ts)
    requires Reported(p.standing, p.noted, found, sc.ts, sc.books) && settled == p.noted - p.evalWhy.Keys
    requires p.open == if sc.confirm then map k | k in settled :: settled[k].(lastAlive := sc.ts) else settled
    ensures Staged(p, found, sc)
  {
    hide Untouched, WhyGone, Reported, Keyed;
  }

  lemma StagedFate(p: Passage, found: set<Key>, sc: Scene, k: Key)
    requires Staged(p, found, sc) && k in p.was
    ensures var why := p.gapWhy + p.shutWhy + p.evalWhy;
            if Fate(p.was[k], found, sc).Some? then k in why && why[k] == Fate(p.was[k], found, sc).value else k !in why
    ensures Fate(p.was[k], found, sc).None? ==> k in p.standing && p.standing[k] == p.was[k] && k !in p.evalWhy
  {
    hide Untouched, WhyGone, Reported;
    if sc.gap {
      assert k in p.gapWhy && k !in p.kept;
    } else {
      assert p.kept == p.was;
    }
  }

  lemma StagedStays(p: Passage, found: set<Key>, sc: Scene, k: Key)
    requires Staged(p, found, sc) && k in p.was && Fate(p.was[k], found, sc).None?
    ensures k in p.open && p.open[k] == GoesOn(p.was[k], found, sc)
  {
    StagedFate(p, found, sc, k);
    hide Untouched, WhyGone, Fate;
  }

  lemma StagedNew(p: Passage, found: set<Key>, sc: Scene, k: Key)
    requires Staged(p, found, sc) && k in p.open && !(k in p.was && Fate(p.was[k], found, sc).None?)
    ensures k in found && Opened(p.open[k], k, sc)
  {
    assert k !in p.standing by { NotStanding(p, found, sc, k); }
    hide Untouched, WhyGone, Fate;
  }

  lemma NotStanding(p: Passage, found: set<Key>, sc: Scene, k: Key)
    requires Staged(p, found, sc) && k in p.open && !(k in p.was && Fate(p.was[k], found, sc).None?)
    ensures k !in p.standing
  {
    hide Untouched, WhyGone;
  }

  /** Which keys are open after which stage. */
  lemma OpenKeys(p: Passage, found: set<Key>, sc: Scene)
    requires Staged(p, found, sc)
    ensures p.kept.Keys == if sc.gap then {} else p.was.Keys
    ensures forall k :: k in p.standing.Keys <==> k in p.kept.Keys && Untouched(k, sc.newly)
    ensures forall k :: k in p.open.Keys <==> k in found || (k in p.standing.Keys && Untouched(k, sc.changed))
  {
    hide Untouched, WhyGone;
  }

  lemma StagedApart(p: Passage, found: set<Key>, sc: Scene)
    requires Staged(p, found, sc)
    ensures p.gapWhy.Keys !! p.shutWhy.Keys && (p.gapWhy + p.shutWhy).Keys !! p.evalWhy.Keys
    ensures forall k | k in p.kept :: k in p.was && p.kept[k] == p.was[k]
    ensures forall k | k in p.standing :: k in p.was && p.standing[k] == p.was[k]
  {
    hide Untouched, WhyGone, Reported;
  }

  lemma AllFated(p: Passage, found: set<Key>, sc: Scene)
    requires Staged(p, found, sc)
    ensures Fated(p.was, p.gapWhy + p.shutWhy + p.evalWhy, found, sc)
  {
    hide Staged, Fate;
    forall k | k in p.was
      ensures var why := p.gapWhy + p.shutWhy + p.evalWhy;
              if Fate(p.was[k], found, sc).Some? then k in why && why[k] == Fate(p.was[k], found, sc).value else k !in why
    {
      StagedFate(p, found, sc, k);
    }
  }

  lemma AllStay(p: Passage, found: set<Key>, sc: Scene)
    requires Staged(p, found, sc)
    ensures Staying(p.was, p.open, found, sc) && Newcomers(p.was, p.open, found, sc)
  {
    hide Staged, Fate, GoesOn, Opened;
    forall k | k in p.was && Fate(p.was[k], found, sc).None?
      ensures k in p.open && p.open[k] == GoesOn(p.was[k], found, sc)
    {
      StagedStays(p, found, sc, k);
    }
    forall k | k in p.open && !(k in p.was && Fate(p.was[k], found, sc).None?)
      ensures k in found && Opened(p.open[k], k, sc)
    {
      StagedNew(p, found, sc, k);
    }
  }

  lemma EndingsAre(p: Passage, doneWas: seq<Episode>, done: seq<Episode>, found: set<Key>, sc: Scene, why: map<Key, string>)
    requires Ends(p.was, doneWas, done, why, sc.ts) && Fated(p.was, why, found, sc)
    ensures Endings(p.was, doneWas, done, found, sc)
  {
    hide Ends, Fated;
  }

  /** The stages of one batch, put together. */
  lemma Stages(p: Passage, doneWas: seq<Episode>, doneGap: seq<Episode>, doneShut: seq<Episode>, done: seq<Episode>,
               found: set<Key>, sc: Scene)
    requires Staged(p, found, sc) && Ends(p.was, doneWas, doneGap, p.gapWhy, sc.ts)
    requires Ends(p.kept, doneGap, doneShut, p.shutWhy, sc.ts) && Ends(p.standing, doneShut, done, p.evalWhy, sc.ts)
    ensures Endings(p.was, doneWas, done, found, sc) && Staying(p.was, p.open, found, sc) && Newcomers(p.was, p.open, found, sc)
  {
    hide *;
    StagedApart(p, found, sc);
    EndsChain(p.was, doneWas, doneGap, doneShut, p.gapWhy, p.kept, p.shutWhy, sc.ts);
    EndsChain(p.was, doneWas, doneShut, done, p.gapWhy + p.shutWhy, p.standing, p.evalWhy, sc.ts);
    AllFated(p, found, sc);
    EndingsAre(p, doneWas, done, found, sc, p.gapWhy + p.shutWhy + p.evalWhy);
    AllStay(p, found, sc);
  }
}
