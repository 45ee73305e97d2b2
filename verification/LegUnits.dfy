/** The true units of a multi-leg lot that is closed in parts. */
module LegUnits {
  import opened Prelude
  import opened ByteLines
  import opened Settlement

  /** A trip carries the lot's units in proportion to the part of the lot it matched. */
  lemma UnitsOfTrip(lot: Lot, f: Fill, matched: pos)
    ensures var x := TripOf(lot, f, matched);
            && (x.units.Some? <==> lot.units.Some?)
            && (lot.units.Some? ==> x.units.value * lot.qty == lot.units.value * matched)
  {
    Ratio(matched, lot.qty);
    if lot.units.Some? { Share(lot.units.value, matched / lot.qty, lot.qty); }
  }

  function UnitsOf(trips: seq<Trip>): real {
    if trips == [] then 0.0
    else UnitsOf(Front(trips)) + (if Last(trips).units.Some? then Last(trips).units.value else 0.0)
  }

  lemma {:induction false} UnitsConcat(a: seq<Trip>, b: seq<Trip>)
    ensures UnitsOf(a + b) == UnitsOf(a) + UnitsOf(b)
  {
    if b == [] {
      assert a + b == a;
    } else {
      FrontOfConcat(a, b);
      UnitsConcat(a, Front(b));
    }
  }

  /** Exits of the bucket, none too early, that use up `left` exactly, and leave more than dust
      until the last. */
  predicate Closes(exits: seq<Fill>, b: Bucket, side: Side, since: int, left: real)
    decreases |exits|
  {
    && exits != []
    && (var f := exits[0];
        && f.bucket == b && f.side != side && f.asof >= since && f.qty > DUST
        && if |exits| == 1 then f.qty as real == left
           else left - f.qty > DUST && Closes(exits[1..], b, side, since, left - f.qty))
  }

  /** The units the parts carry, as multiples of the lot's: each part is a share of what is left. */
  function Shares(exits: seq<Fill>, left: real): real {
    if exits == [] || left <= 0.0 then 0.0
    else exits[0].qty / left + Shares(exits[1..], left - exits[0].qty)
  }

  lemma WholeShare(x: real)
    requires x > 0.0
    ensures x / x == 1.0
  {
  }

  /** One part is the whole; more parts are more than the whole. */
  lemma {:induction false} SharesExceed(exits: seq<Fill>, b: Bucket, side: Side, since: int, left: real)
    requires Closes(exits, b, side, since, left)
    ensures |exits| == 1 ==> Shares(exits, left) == 1.0
    ensures |exits| > 1 ==> Shares(exits, left) > 1.0
    decreases |exits|
  {
    if |exits| == 1 {
      WholeShare(left);
    } else {
      SharesExceed(exits[1..], b, side, since, left - exits[0].qty);
      Ratio(exits[0].qty, left);
    }
  }

  function OneLot(b: Bucket, lot: Lot): Book {
    Book(map[b := [lot]], map[])
  }

  lemma PartCloses(b: Bucket, lot: Lot, f: Fill)
    requires f.bucket == b && f.side != lot.side && f.asof >= lot.asof && f.qty > DUST && f.qty <= lot.qty
    requires f.qty == lot.qty || lot.qty - f.qty > DUST
    ensures Settle(OneLot(b, lot), f).1 == [TripOf(lot, f, f.qty)]
    ensures f.qty < lot.qty ==> Settle(OneLot(b, lot), f).0 == OneLot(b, lot.(qty := lot.qty - f.qty))
  {
    hide TripOf, LotOf;
    var queue := [lot];
    assert queue[1..] == [];
    var c := Close(queue, f, f.qty);
    if f.qty < lot.qty {
      assert c == Closing([lot.(qty := lot.qty - f.qty)] + [], 0.0, [TripOf(lot, f, f.qty)], false);
      assert [lot.(qty := lot.qty - f.qty)] + [] == [lot.(qty := lot.qty - f.qty)];
      assert map[b := [lot]][b := c.queue] == map[b := c.queue];
    } else {
      assert Close([], f, 0.0) == Closing([], 0.0, [], false);
      assert [TripOf(lot, f, f.qty)] + [] == [TripOf(lot, f, f.qty)];
    }
  }

  lemma FoldOne(book: Book, f: Fill)
    ensures Fold(book, [f]) == Settle(book, f)
  {
    assert Front([f]) == [] && Last([f]) == f;
    assert [] + Settle(book, f).1 == Settle(book, f).1;
    hide Settle;
  }

  lemma UnitsOfOne(x: Trip)
    ensures UnitsOf([x]) == if x.units.Some? then x.units.value else 0.0
  {
    assert Front([x]) == [];
  }

  lemma UnitsOfFirst(lot: Lot, f: Fill)
    requires lot.units.Some?
    ensures UnitsOf([TripOf(lot, f, f.qty)]) == lot.units.value * (f.qty / lot.qty)
  {
    UnitsOfOne(TripOf(lot, f, f.qty));
    assert TripOf(lot, f, f.qty).units == Prorated(lot.units, f.qty, lot.qty);
    hide UnitsOf, TripOf;
  }

  lemma ClosesFirst(exits: seq<Fill>, b: Bucket, side: Side, since: int, left: real)
    requires Closes(exits, b, side, since, left)
    ensures exits != []
    ensures var f := exits[0];
            && f.bucket == b && f.side != side && f.asof >= since && f.qty > DUST
            && (|exits| == 1 ==> f.qty as real == left && exits == [f])
            && (|exits| > 1 ==> left - f.qty > DUST && Closes(exits[1..], b, side, since, left - f.qty))
            && exits == [f] + exits[1..]
  {
  }

  lemma SharesFirst(exits: seq<Fill>, left: real, u: real)
    requires exits != [] && left > 0.0
    ensures u * Shares(exits, left) == u * (exits[0].qty / left) + u * Shares(exits[1..], left - exits[0].qty)
    ensures |exits| == 1 ==> Shares(exits[1..], left - exits[0].qty) == 0.0
  {
    var x, y := exits[0].qty / left, Shares(exits[1..], left - exits[0].qty);
    assert Shares(exits, left) == x + y;
    assert u * (x + y) == u * x + u * y;
  }

  /** What the parts of a lot carry together. */
  lemma {:induction false} PartsCarry(b: Bucket, lot: Lot, exits: seq<Fill>)
    requires lot.units.Some? && Closes(exits, b, lot.side, lot.asof, lot.qty)
    ensures UnitsOf(Fold(OneLot(b, lot), exits).1) == lot.units.value * Shares(exits, lot.qty)
    decreases |exits|
  {
    hide Settle, TripOf, Fold, UnitsOf, Shares, Closes, OneLot;
    ClosesFirst(exits, b, lot.side, lot.asof, lot.qty);
    var f := exits[0];
    PartCloses(b, lot, f);
    UnitsOfFirst(lot, f);
    FoldOne(OneLot(b, lot), f);
    SharesFirst(exits, lot.qty, lot.units.value);
    if |exits| > 1 {
      PartsCarry(b, lot.(qty := lot.qty - f.qty), exits[1..]);
      FoldConcat(OneLot(b, lot), [f], exits[1..]);
      UnitsConcat([TripOf(lot, f, f.qty)], Fold(OneLot(b, lot.(qty := lot.qty - f.qty)), exits[1..]).1);
    }
  }

  /** A lot that is closed in parts: the units of its round trips add up to its own iff it is closed
      at one stroke, or has none. Each further part is a share of what is left of the quantity,
      but of all of the units. */
  lemma {:induction false} UnitsKeptIff(b: Bucket, lot: Lot, exits: seq<Fill>)
    requires lot.units.Some? && Closes(exits, b, lot.side, lot.asof, lot.qty)
    ensures UnitsOf(Fold(OneLot(b, lot), exits).1) == lot.units.value <==> |exits| == 1 || lot.units.value == 0.0
    ensures |exits| > 1 && lot.units.value != 0.0 ==>
              Abs(UnitsOf(Fold(OneLot(b, lot), exits).1)) > Abs(lot.units.value)
  {
    hide Fold, UnitsOf, Shares, Closes, OneLot;
    PartsCarry(b, lot, exits);
    SharesExceed(exits, b, lot.side, lot.asof, lot.qty);
    ClosesFirst(exits, b, lot.side, lot.asof, lot.qty);
    MoreThanOne(lot.units.value, Shares(exits, lot.qty));
  }

  lemma MoreThanOne(u: real, s: real)
    requires s >= 1.0
    ensures u * s == u <==> s == 1.0 || u == 0.0
    ensures s > 1.0 && u != 0.0 ==> Abs(u * s) > Abs(u)
  {
    var d := u * (s - 1.0);
    assert u * s - u == d;
    if u > 0.0 && s > 1.0 { assert d > 0.0; }
    if u < 0.0 && s > 1.0 { assert -u * (s - 1.0) > 0.0; assert d < 0.0; }
  }
}
