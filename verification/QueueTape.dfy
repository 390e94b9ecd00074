/** backtest/fills.py: what a resting order's place in the queue comes to over a tape of prints and
    snapshots, read off the tape itself. */
module QueueTape {
  import opened Units
  import opened OrderBooks
  import opened Fills
  import opened FillDominance

  // ---------------------------------------------------------------- read off the tape

  /** A print that sells into bids on our side: at what price on our scale, if it does. */
  function SoldAt(side: Side, t: Trade): Option<Price> {
    match (side, t.takerSide)
    case (YES, Some(NO)) => Some(t.yesPrice)
    case (NO, Some(YES)) => Some(t.noPrice)
    case _ => None
  }

  /** Contracts sold at our price since the last snapshot. */
  function TradedSince(side: Side, price: Price, tape: seq<Observation>): Qty {
    if tape == [] || tape[|tape| - 1].Snap? then 0
    else
      var t := tape[|tape| - 1].trade;
      TradedSince(side, price, tape[..|tape| - 1]) + (if SoldAt(side, t) == Some(price) then t.count else 0)
  }

  /** What the last snapshot, or the book we joined, displays at our price. */
  function LastShown(side: Side, price: Price, book: Option<Book>, tape: seq<Observation>): Qty {
    if tape == [] then (if book.None? then 0 else SizeAt(book.value, side, price))
    else if tape[|tape| - 1].Snap? then SizeAt(tape[|tape| - 1].book, side, price)
    else LastShown(side, price, book, tape[..|tape| - 1])
  }

  /** The market offers at or below our bid. */
  ghost predicate Crosses(side: Side, price: Price, book: Book) {
    exists l :: l in book.AskLevels(side) && l.price <= price
  }

  lemma CrossesIsBestAsk(side: Side, price: Price, book: Book)
    ensures Crosses(side, price, book) <==> book.BestAsk(side).Some? && book.BestAsk(side).value.price <= price
  {
    AsksSorted(book, side);
    hide Book.BestAsk, Book.AskLevels;
    var asks := book.AskLevels(side);
    if Crosses(side, price, book) {
      var l :| l in asks && l.price <= price;
      var i :| 0 <= i < |asks| && asks[i] == l;
    }
    if asks != [] && asks[0].price <= price {
      assert asks[0] in asks;
    }
  }

  // ---------------------------------------------------------------- the queue model agrees

  /** An order is as it was sent but for its fills and its place. */
  lemma {:induction false} SameAsSent(m: QueueModel, o: Resting, book: Option<Book>, tape: seq<Observation>)
    ensures After(m, o, book, tape).side == o.side && After(m, o, book, tape).price == o.price
  {
    if tape != [] {
      SameAsSent(m, o, book, tape[..|tape| - 1]);
      hide LevelSize, Share, Book.BestAsk;
    }
  }

  lemma StillOpen(m: QueueModel, o: Resting, book: Option<Book>, tape: seq<Observation>)
    requires tape != [] && After(m, o, book, tape).qty > 0
    ensures After(m, o, book, tape[..|tape| - 1]).qty > 0
  {
    hide LevelSize, Share, Book.BestAsk;
  }

  /** While an order is open its counters are what the tape says: the contracts sold at its price since the
      last snapshot, and the size that snapshot displayed. */
  lemma {:induction false} CountersReadTape(m: QueueModel, o: Resting, book: Option<Book>, tape: seq<Observation>)
    requires After(m, o, book, tape).qty > 0 && !m.throughOnly
    ensures After(m, o, book, tape).traded == TradedSince(o.side, o.price, tape)
    ensures After(m, o, book, tape).lastLevel == LastShown(o.side, o.price, book, tape)
  {
    if tape != [] {
      var n := |tape| - 1;
      SameAsSent(m, o, book, tape[..n]);
      StillOpen(m, o, book, tape);
      CountersReadTape(m, o, book, tape[..n]);
      hide Share, Book.BestAsk;
    }
  }

  /** n is x rounded down. */
  ghost predicate Floors(n: int, x: real) {
    n as real <= x < n as real + 1.0
  }

  /** Joining the queue: the floored share of what is displayed at our price is ahead of us. */
  lemma JoinsBehind(m: QueueModel, o: Resting, book: Option<Book>)
    ensures var shown := LastShown(o.side, o.price, book, []);
            var a := After(m, o, book, []);
            Floors(a.ahead, m.alpha * shown as real) && a == o.(ahead := a.ahead, lastLevel := shown, traded := 0)
  {
  }

  lemma AfterMore(m: QueueModel, o: Resting, book: Option<Book>, tape: seq<Observation>, obs: Observation)
    ensures After(m, o, book, tape + [obs]) == Observe(m, After(m, o, book, tape), obs)
  {
    assert (tape + [obs])[..|tape|] == tape;
    hide Observe;
  }

  /** What a print makes of an open order: sold below its price it is filled whole; at its price it gets
      what the print has left beyond those ahead of it, who are served first; otherwise nothing changes. */
  ghost predicate Printed(throughOnly: bool, a: Resting, t: Trade, b: Resting) {
    var sold := SoldAt(a.side, t);
    if sold.Some? && sold.value < a.price then b == a.(qty := 0, filled := a.filled + a.qty)
    else if sold == Some(a.price) && !throughOnly then
      var got := Min(a.qty, Max(0, t.count - a.ahead));
      b == a.(qty := a.qty - got, filled := a.filled + got, ahead := Max(0, a.ahead - t.count), traded := a.traded + t.count)
    else b == a
  }

  lemma ObservePrint(m: QueueModel, a: Resting, t: Trade)
    requires a.qty > 0 && a.ahead >= 0 && t.count >= 0
    ensures Printed(m.throughOnly, a, t, Observe(m, a, Print(t)))
  {
  }

  lemma PrintMeans(m: QueueModel, o: Resting, book: Option<Book>, tape: seq<Observation>, t: Trade)
    requires After(m, o, book, tape).qty > 0 && After(m, o, book, tape).ahead >= 0 && t.count >= 0
    ensures Printed(m.throughOnly, After(m, o, book, tape), t, After(m, o, book, tape + [Print(t)]))
  {
    AfterMore(m, o, book, tape, Print(t));
    ObservePrint(m, After(m, o, book, tape), t);
    hide After, Observe, Printed;
  }

  /** What a snapshot makes of an open order with this size shown before and so many sold since: one that
      crosses it fills it whole; any other fills nothing, and moves it up by the floored cancel share of the
      fall in the displayed size that prints do not explain, if there is one, never past the front and
      never behind more than is displayed. */
  ghost predicate Snapped(cancelShare: real, a: Resting, was: Qty, sold: Qty, shown: Book, b: Resting) {
    var size := SizeAt(shown, a.side, a.price);
    if Crosses(a.side, a.price, shown) then b == a.(qty := 0, filled := a.filled + a.qty)
    else b == a.(ahead := b.ahead, lastLevel := size, traded := 0) && MovedUp(cancelShare, a.ahead, was - sold - size, size, b.ahead)
  }

  /** The place after so much of a fall that prints do not explain, with so much displayed now. */
  ghost predicate MovedUp(cancelShare: real, place: Qty, unexplained: Qty, size: Qty, after: Qty) {
    if unexplained <= 0 then after == Max(0, Min(place, size))
    else exists credit: int :: Credited(credit, cancelShare, unexplained) && after == Max(0, Min(place - credit, size))
  }

  /** The floored share of so many cancellations. */
  ghost predicate Credited(credit: int, cancelShare: real, unexplained: Qty) {
    Floors(credit, cancelShare * unexplained as real)
  }

  lemma ObserveSnap(m: QueueModel, a: Resting, shown: Book)
    requires a.qty > 0 && shown.Valid()
    ensures Snapped(m.cancelShare, a, a.lastLevel, a.traded, shown, Observe(m, a, Snap(shown)))
  {
    CrossesIsBestAsk(a.side, a.price, shown);
    if !Crosses(a.side, a.price, shown) {
      MovesUp(m, a, shown);
      hide Book.BestAsk, Observe;
    }
  }

  lemma MovesUp(m: QueueModel, a: Resting, shown: Book)
    requires a.qty > 0 && shown.Valid() && !Crosses(a.side, a.price, shown)
    requires !(shown.BestAsk(a.side).Some? && shown.BestAsk(a.side).value.price <= a.price)
    ensures Snapped(m.cancelShare, a, a.lastLevel, a.traded, shown, Observe(m, a, Snap(shown)))
  {
    hide Book.BestAsk, Crosses;
    var size, b := SizeAt(shown, a.side, a.price), Observe(m, a, Snap(shown));
    assert size >= 0 && size == LevelSize(Some(shown), a.side, a.price);
    var unexplained := a.lastLevel - a.traded - size;
    var credit := if unexplained > 0 then Share(m.cancelShare, unexplained) else 0;
    assert b == a.(ahead := Max(0, Min(a.ahead - credit, size)), lastLevel := size, traded := 0);
    hide Observe, SizeAt;
    CreditMoves(m.cancelShare, a.ahead, unexplained, size);
  }

  lemma CreditMoves(cancelShare: real, place: Qty, unexplained: Qty, size: Qty)
    ensures MovedUp(cancelShare, place, unexplained, size,
                    Max(0, Min(place - (if unexplained > 0 then Share(cancelShare, unexplained) else 0), size)))
  {
    if unexplained > 0 {
      assert Credited(Share(cancelShare, unexplained), cancelShare, unexplained);
    }
  }

  lemma SnapshotMeans(m: QueueModel, o: Resting, book: Option<Book>, tape: seq<Observation>, shown: Book)
    requires !m.throughOnly && After(m, o, book, tape).qty > 0 && shown.Valid()
    ensures Snapped(m.cancelShare, After(m, o, book, tape), LastShown(o.side, o.price, book, tape),
                    TradedSince(o.side, o.price, tape), shown, After(m, o, book, tape + [Snap(shown)]))
  {
    CountersReadTape(m, o, book, tape);
    AfterMore(m, o, book, tape, Snap(shown));
    ObserveSnap(m, After(m, o, book, tape), shown);
    hide After, Observe, Snapped, LastShown, TradedSince;
  }

  /** Only prints since the last snapshot. */
  ghost predicate OnlyPrints(tape: seq<Observation>) {
    forall i | 0 <= i < |tape| :: tape[i].Print? && tape[i].trade.count >= 0
  }

  lemma TradedMore(side: Side, price: Price, tape: seq<Observation>, t: Trade)
    ensures TradedSince(side, price, tape + [Print(t)])
         == TradedSince(side, price, tape) + (if SoldAt(side, t) == Some(price) then t.count else 0)
  {
    assert (tape + [Print(t)])[..|tape|] == tape;
  }

  lemma PrintedPlace(a: Resting, t: Trade, b: Resting)
    requires Printed(false, a, t, b) && b.qty > 0 && a.ahead >= 0 && t.count >= 0
    ensures b.ahead == Max(0, a.ahead - (if SoldAt(a.side, t) == Some(a.price) then t.count else 0))
  {
  }

  lemma OnePrintOn(m: QueueModel, o: Resting, book: Option<Book>, tape: seq<Observation>, t: Trade)
    requires !m.throughOnly && t.count >= 0 && After(m, o, book, tape).ahead >= 0
    requires After(m, o, book, tape).qty > 0 && After(m, o, book, tape + [Print(t)]).qty > 0
    ensures var sold := if SoldAt(o.side, t) == Some(o.price) then t.count else 0;
            && After(m, o, book, tape + [Print(t)]).ahead == Max(0, After(m, o, book, tape).ahead - sold)
            && TradedSince(o.side, o.price, tape + [Print(t)]) == TradedSince(o.side, o.price, tape) + sold
  {
    SameAsSent(m, o, book, tape);
    PrintMeans(m, o, book, tape, t);
    TradedMore(o.side, o.price, tape, t);
    hide After, Observe, TradedSince, SoldAt, Printed;
    PrintedPlace(After(m, o, book, tape), t, After(m, o, book, tape + [Print(t)]));
  }

  lemma LastPrint(tape: seq<Observation>, prints: seq<Observation>)
    requires prints != [] && prints[|prints| - 1].Print?
    ensures tape + prints == (tape + prints[..|prints| - 1]) + [Print(prints[|prints| - 1].trade)]
  {
  }

  lemma LessTwice(place: int, first: int, second: int)
    requires second >= 0
    ensures Max(0, Max(0, place - first) - second) == Max(0, place - (first + second)) && Max(0, place - first) >= 0
  {
  }

  /** Between snapshots the place ahead is the last place less the contracts sold at our price. */
  lemma {:induction false} PlaceLessPrints(m: QueueModel, o: Resting, book: Option<Book>, tape: seq<Observation>, prints: seq<Observation>)
    requires !m.throughOnly && OnlyPrints(prints) && (tape == [] || tape[|tape| - 1].Snap?)
    requires After(m, o, book, tape).ahead >= 0 && After(m, o, book, tape + prints).qty > 0
    ensures After(m, o, book, tape + prints).ahead
         == Max(0, After(m, o, book, tape).ahead - TradedSince(o.side, o.price, tape + prints))
    ensures TradedSince(o.side, o.price, tape + prints) >= 0
    decreases |prints|
  {
    hide *;
    if prints == [] {
      NothingSince(m, o, book, tape);
      assert tape + prints == tape;
    } else {
      var n := |prints| - 1;
      FewerPrints(prints);
      var front, t := tape + prints[..n], prints[n].trade;
      LastPrint(tape, prints);
      OpenBefore(m, o, book, front, Print(t));
      PlaceLessPrints(m, o, book, tape, prints[..n]);
      LessTwice(After(m, o, book, tape).ahead, TradedSince(o.side, o.price, front), if SoldAt(o.side, t) == Some(o.price) then t.count else 0);
      OnePrintOn(m, o, book, front, t);
    }
  }

  lemma OpenBefore(m: QueueModel, o: Resting, book: Option<Book>, tape: seq<Observation>, obs: Observation)
    requires After(m, o, book, tape + [obs]).qty > 0
    ensures After(m, o, book, tape).qty > 0
  {
    StillOpen(m, o, book, tape + [obs]);
    assert (tape + [obs])[..|tape|] == tape;
    hide After;
  }

  lemma FewerPrints(prints: seq<Observation>)
    requires OnlyPrints(prints) && prints != []
    ensures OnlyPrints(prints[..|prints| - 1])
    ensures prints[|prints| - 1].Print? && prints[|prints| - 1].trade.count >= 0
  {
  }

  lemma NothingSince(m: QueueModel, o: Resting, book: Option<Book>, tape: seq<Observation>)
    requires tape == [] || tape[|tape| - 1].Snap?
    requires After(m, o, book, tape).ahead >= 0
    ensures TradedSince(o.side, o.price, tape) == 0
    ensures After(m, o, book, tape).ahead == Max(0, After(m, o, book, tape).ahead)
  {
    hide After;
  }

  /** So where prints explain the whole fall in the displayed size, a snapshot credits no cancellations: the
      place ahead is the last place less the contracts sold, as far as that much is still displayed. */
  lemma ExplainedFall(m: QueueModel, o: Resting, book: Option<Book>, tape: seq<Observation>, prints: seq<Observation>, shown: Book)
    requires !m.throughOnly && OnlyPrints(prints) && (tape == [] || tape[|tape| - 1].Snap?) && shown.Valid()
    requires After(m, o, book, tape).ahead >= 0 && After(m, o, book, tape + prints).qty > 0
    requires !Crosses(o.side, o.price, shown)
    requires LastShown(o.side, o.price, book, tape + prints) - SizeAt(shown, o.side, o.price)
             <= TradedSince(o.side, o.price, tape + prints)
    ensures After(m, o, book, tape + prints + [Snap(shown)]).ahead
         == Max(0, Min(After(m, o, book, tape).ahead - TradedSince(o.side, o.price, tape + prints),
                       SizeAt(shown, o.side, o.price)))
  {
    assert SizeAt(shown, o.side, o.price) >= 0;
    hide *;
    PlaceLessPrints(m, o, book, tape, prints);
    SnapshotMeans(m, o, book, tape + prints, shown);
    SameAsSent(m, o, book, tape + prints);
    NoCredit(m.cancelShare, After(m, o, book, tape + prints), LastShown(o.side, o.price, book, tape + prints),
             TradedSince(o.side, o.price, tape + prints), shown, After(m, o, book, tape + prints + [Snap(shown)]),
             After(m, o, book, tape).ahead);
  }

  lemma NoCredit(cancelShare: real, a: Resting, was: Qty, sold: Qty, shown: Book, b: Resting, place: Qty)
    requires Snapped(cancelShare, a, was, sold, shown, b) && !Crosses(a.side, a.price, shown)
    requires was - SizeAt(shown, a.side, a.price) <= sold && a.ahead == Max(0, place - sold) && SizeAt(shown, a.side, a.price) >= 0
    ensures b.ahead == Max(0, Min(place - sold, SizeAt(shown, a.side, a.price)))
  {
    hide Crosses, Credited, SizeAt;
  }
}
