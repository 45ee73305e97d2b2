/** FIFO lot matching of execution records: normalise, sort by time, fold. */
module Settlement {
  import opened Prelude
  import opened ByteLines
  import opened StableSort

  const DUST := 0.000000000001

  type pos = x: real | x > 0.0 witness 1.0

  datatype Side = Buy | Sell

  /** A time field: absent, falsy (an empty string or a zero, which may still parse), text
      that does not parse, or an instant. */
  datatype Stamp = NoStamp | FalsyStamp(at: Option<int>) | BadStamp | Stamp(ns: int)

  datatype Bucket = Bucket(account: string, assetClass: string, asset: string)

  /** One line of the executions bus. `shares` is the reactor's true quantity, `absolute`
      says the size is a target and not a traded amount, `execOrder` ranks the text of the
      execution time. */
  datatype Rec = Rec(
    bucket: Bucket,
    side: Option<Side>,
    qty: Field,
    fillSize: Field,
    target: Field,
    price: Field,
    asof: Stamp,
    asofExecution: Stamp,
    execOrder: int,
    fees: real,
    multiLeg: bool,
    shares: Field,
    absolute: bool)

  // ---------------------------------------------------------------- times

  function Coerced(s: Stamp): Option<int> {
    match s
    case NoStamp => None
    case FalsyStamp(at) => at
    case BadStamp => None
    case Stamp(ns) => Some(ns)
  }

  predicate Truthy(s: Stamp) {
    s.BadStamp? || s.Stamp?
  }

  /** The time the matcher sorts by: `asof`, unless it is null. */
  function SortKey(r: Rec): Option<int> {
    Coerced(if r.asof.NoStamp? then r.asofExecution else r.asof)
  }

  /** The time the checkpoint guard compares: `asof_execution`, unless it is falsy. */
  function GuardKey(r: Rec): Option<int> {
    Coerced(if Truthy(r.asofExecution) then r.asofExecution else r.asof)
  }

  // ---------------------------------------------------------------- fills

  datatype Fill = Fill(bucket: Bucket, side: Side, qty: pos, price: pos, asof: int, fees: real,
                       units: Option<real>, redrained: bool)

  function SizeField(r: Rec): Field {
    if Absent(r.fillSize) then r.target else r.fillSize
  }

  /** `_normalize_exec_record`: a record that is not a well-formed fill is dropped. */
  function Normalise(r: Rec): Option<Fill> {
    var size := SizeField(r);
    if r.bucket.assetClass == "multi_leg" then None
    else if (r.side.None? || Absent(r.qty)) && (!size.Num? || size.v == 0.0) then None
    else
      var side := if r.side.Some? then r.side.value else if size.v > 0.0 then Buy else Sell;
      var qty := if Absent(r.qty) then Num(Abs(size.v)) else r.qty;
      if !qty.Num? || !r.price.Num? || qty.v <= 0.0 || r.price.v <= 0.0 || SortKey(r).None? then None
      else
        var units := if r.multiLeg && r.shares.Num? then Some(r.shares.v) else None;
        Some(Fill(r.bucket, side, qty.v, r.price.v, SortKey(r).value, r.fees, units, false))
  }

  /** Which records are fills, and of what: never a multi-leg parent; with a positive quantity of
      its own, or the magnitude of its size; on its own side, or the one its size points to. */
  lemma FillOfRecord(r: Rec)
    ensures var own := !r.qty.Missing? && !r.qty.Null?;
            var size := if r.fillSize.Missing? || r.fillSize.Null? then r.target else r.fillSize;
            var sized := size.Num? && size.v != 0.0;
            && (Normalise(r).Some? <==>
                  && r.bucket.assetClass != "multi_leg" && r.price.Num? && r.price.v > 0.0 && SortKey(r).Some?
                  && (if own then r.qty.Num? && r.qty.v > 0.0 && (r.side.Some? || sized) else sized))
            && (Normalise(r).Some? ==>
                  var f := Normalise(r).value;
                  && f.bucket == r.bucket && f.price as real == r.price.v && SortKey(r) == Some(f.asof) && f.fees == r.fees
                  && (own ==> f.qty as real == r.qty.v) && (r.side.Some? ==> f.side == r.side.value)
                  && (!own ==> f.qty as real == Abs(size.v)) && (r.side.None? ==> (f.side == Buy <==> size.v > 0.0))
                  && (f.units.Some? <==> r.multiLeg && r.shares.Num?) && (f.units.Some? ==> f.units.value == r.shares.v)
                  && !f.redrained)
  {
  }

  function Fills(records: seq<Rec>): seq<Fill> {
    if records == [] then []
    else
      var f := Normalise(Last(records));
      if f.Some? then Fills(Front(records)) + [f.value] else Fills(Front(records))
  }

  lemma {:induction false} FillsConcat(a: seq<Rec>, b: seq<Rec>)
    ensures Fills(a + b) == Fills(a) + Fills(b)
  {
    if b == [] {
      assert a + b == a;
    } else {
      FrontOfConcat(a, b);
      FillsConcat(a, Front(b));
    }
  }

  lemma {:induction false} FillsFrom(records: seq<Rec>)
    ensures forall f :: f in Fills(records) ==> !f.redrained && exists r :: r in records && Normalise(r) == Some(f)
  {
    if records != [] {
      FillsFrom(Front(records));
      assert records == Front(records) + [Last(records)];
    }
  }

  // ---------------------------------------------------------------- matching

  datatype Lot = Lot(side: Side, qty: pos, price: pos, asof: int, feePerUnit: real, units: Option<real>)

  /** A settled round trip. */
  datatype Trip = Trip(bucket: Bucket, side: Side, qty: pos, entry: pos, exit: pos, asofEntry: int, asofExit: int,
                       fees: real, ret: real, units: Option<real>)

  /** Open lots by bucket, oldest first, and exits held back because the lots they face
      opened later. */
  datatype Book = Book(open: map<Bucket, seq<Lot>>, deferred: map<Bucket, seq<Lot>>)

  const FLAT := Book(map[], map[])

  function Of(m: map<Bucket, seq<Lot>>, b: Bucket): seq<Lot> {
    if b in m then m[b] else []
  }

  /** A bucket left without lots is dropped from the map. */
  function Put(m: map<Bucket, seq<Lot>>, b: Bucket, lots: seq<Lot>): map<Bucket, seq<Lot>> {
    if lots == [] then m - {b} else m[b := lots]
  }

  function LotOf(f: Fill, qty: pos): Lot {
    Lot(f.side, qty, f.price, f.asof, f.fees / f.qty, Prorated(f.units, qty, f.qty))
  }

  function Prorated(units: Option<real>, part: pos, whole: pos): Option<real> {
    if units.Some? then Some(units.value * (part / whole)) else None
  }

  /** Gross return on the entry price, less the fees of both sides over the entry notional. */
  function TripOf(lot: Lot, f: Fill, matched: pos): Trip {
    var gross := if lot.side == Buy then (f.price - lot.price) / lot.price else (lot.price - f.price) / lot.price;
    var fees := lot.feePerUnit * matched + f.fees / f.qty * matched;
    var notional := lot.price * matched;
    Trip(f.bucket, lot.side, matched, lot.price, f.price, lot.asof, f.asof, fees,
         gross - (if notional > 0.0 then fees / notional else 0.0), Prorated(lot.units, matched, lot.qty))
  }

  /** The money a round trip made: the move in the held direction on the matched quantity, less
      the fees of both sides. */
  function Profit(x: Trip): real {
    (if x.side == Buy then x.exit - x.entry else x.entry - x.exit) * x.qty - x.fees
  }

  /** The return is the profit over the money put in, whichever way the lot was held; and each
      side's fees are charged in proportion to the quantity matched. */
  lemma ReturnIsProfit(lot: Lot, f: Fill, matched: pos)
    ensures var x := TripOf(lot, f, matched);
            && x.ret * (x.entry * x.qty) == Profit(x)
            && x.fees * f.qty == lot.feePerUnit * matched * f.qty + f.fees * matched
  {
    var x := TripOf(lot, f, matched);
    var e, q := lot.price as real, matched as real;
    var move := if lot.side == Buy then f.price - lot.price else lot.price - f.price;
    PositiveProduct(e, q);
    Ratio(x.fees, e * q);
    Ratio(move, e);
    assert x.ret == move / e - x.fees / (e * q);
    Spread(move / e, x.fees / (e * q), e, q);
    Ratio(f.fees, f.qty);
    Share(f.fees / f.qty, matched, f.qty);
    assert x.fees * f.qty == (lot.feePerUnit * matched) * f.qty + (f.fees / f.qty * matched) * f.qty;
  }

  lemma PositiveProduct(x: real, y: real)
    requires x > 0.0 && y > 0.0
    ensures x * y > 0.0
  {
  }

  lemma Spread(g: real, d: real, e: real, q: real)
    ensures (g - d) * (e * q) == g * e * q - d * (e * q)
  {
  }

  lemma Share(a: real, m: real, q: real)
    ensures (a * m) * q == (a * q) * m
  {
  }

  /** What closing against a queue leaves: the queue, the unmatched quantity, the round trips,
      and whether matching stopped at a lot that opened later. */
  datatype Closing = Closing(queue: seq<Lot>, remaining: real, trips: seq<Trip>, early: bool)

  function Close(queue: seq<Lot>, f: Fill, remaining: real): (c: Closing)
    ensures c.remaining <= remaining
    ensures !c.early && c.remaining > DUST ==> c.queue == []
  {
    if remaining <= DUST || queue == [] then Closing(queue, remaining, [], false)
    else
      var lot := queue[0];
      if lot.asof > f.asof then Closing(queue, remaining, [], true)
      else
        var matched := Min(lot.qty, remaining);
        if lot.qty - matched <= DUST then
          var c := Close(queue[1..], f, remaining - matched);
          c.(trips := [TripOf(lot, f, matched)] + c.trips)
        else
          Closing([lot.(qty := lot.qty - matched)] + queue[1..], remaining - matched, [TripOf(lot, f, matched)], false)
  }

  /** One fill: open or add, close first-in-first-out, flip with the residual, or defer. */
  function Settle(book: Book, f: Fill): (Book, seq<Trip>) {
    var queue := Of(book.open, f.bucket);
    var held := Of(book.deferred, f.bucket);
    if queue == [] || queue[0].side == f.side then
      if f.redrained then
        (Book(Put(book.open, f.bucket, queue), book.deferred[f.bucket := held + [LotOf(f, f.qty)]]), [])
      else (Book(Put(book.open, f.bucket, queue + [LotOf(f, f.qty)]), book.deferred), [])
    else
      var c := Close(queue, f, f.qty);
      if c.remaining <= DUST then (Book(Put(book.open, f.bucket, c.queue), book.deferred), c.trips)
      else if c.early then
        (Book(Put(book.open, f.bucket, c.queue), book.deferred[f.bucket := held + [LotOf(f, c.remaining)]]), c.trips)
      else (Book(Put(book.open, f.bucket, [LotOf(f, c.remaining)]), book.deferred), c.trips)
  }

  function Fold(book: Book, fills: seq<Fill>): (Book, seq<Trip>) {
    if fills == [] then (book, [])
    else
      var (b, t) := Fold(book, Front(fills));
      var (b2, t2) := Settle(b, Last(fills));
      (b2, t + t2)
  }

  lemma {:induction false} FoldConcat(book: Book, a: seq<Fill>, b: seq<Fill>)
    ensures var (m, t) := Fold(book, a);
            var (n, u) := Fold(m, b);
            Fold(book, a + b) == (n, t + u)
  {
    hide Settle;
    if b == [] {
      assert a + b == a;
      assert Fold(book, a).1 + [] == Fold(book, a).1;
    } else {
      FrontOfConcat(a, b);
      FoldConcat(book, a, Front(b));
      var (m, t) := Fold(book, a);
      var (n, u) := Fold(m, Front(b));
      var (p, v) := Settle(n, Last(b));
      assert (t + u) + v == t + (u + v);
    }
  }

  // ---------------------------------------------------------------- invariants of the book

  predicate OneSided(lots: seq<Lot>) {
    forall i, j :: 0 <= i < j < |lots| ==> lots[i].side == lots[j].side
  }

  predicate UpTo(lots: seq<Lot>, t: int) {
    forall l :: l in lots ==> l.asof <= t
  }

  lemma TripFields(lot: Lot, f: Fill, matched: pos)
    ensures var x := TripOf(lot, f, matched);
            x.qty == matched && x.asofEntry == lot.asof && x.asofExit == f.asof && x.bucket == f.bucket
  {
  }

  lemma {:induction false} CloseFacts(queue: seq<Lot>, f: Fill, remaining: real, t: int)
    requires OneSided(queue)
    ensures var c := Close(queue, f, remaining);
            && OneSided(c.queue)
            && (c.queue != [] ==> queue != [] && c.queue[0].side == queue[0].side)
            && (UpTo(queue, t) ==> UpTo(c.queue, t))
            && (forall x :: x in c.trips ==> x.asofEntry <= x.asofExit)
            && (UpTo(queue, f.asof) ==> !c.early)
  {
    hide TripOf;
    if remaining > DUST && queue != [] && queue[0].asof <= f.asof {
      var lot := queue[0];
      var matched := Min(lot.qty, remaining);
      TripFields(lot, f, matched);
      if lot.qty - matched <= DUST {
        CloseFacts(queue[1..], f, remaining - matched, t);
      }
    }
  }

  /** No bucket ever holds lots of both directions. */
  predicate BookOneSided(book: Book) {
    forall b :: b in book.open ==> OneSided(book.open[b])
  }

  predicate BookUpTo(book: Book, t: int) {
    forall b :: b in book.open ==> UpTo(book.open[b], t)
  }

  /** A fill changes one bucket, and defers only a re-drained exit or one facing later lots. */
  lemma SettleFacts(book: Book, f: Fill)
    requires BookOneSided(book)
    ensures var (n, trips) := Settle(book, f);
            && BookOneSided(n)
            && (forall x :: x in trips ==> x.asofEntry <= x.asofExit)
            && (BookUpTo(book, f.asof) ==> BookUpTo(n, f.asof))
            && (BookUpTo(book, f.asof) && !f.redrained ==> n.deferred == book.deferred)
  {
    var queue, n := Of(book.open, f.bucket), Settle(book, f).0;
    CloseFacts(queue, f, f.qty, f.asof);
    var lots := SettledLots(book, f);
    hide Close, Prorated, Settle, OneSided, UpTo;
    if BookUpTo(book, f.asof) { PutUpTo(book, f.bucket, lots, f.asof); }
  }

  /** The lots the fill leaves in its bucket. */
  lemma SettledLots(book: Book, f: Fill) returns (lots: seq<Lot>)
    requires OneSided(Of(book.open, f.bucket))
    requires var c := Close(Of(book.open, f.bucket), f, f.qty);
             OneSided(c.queue) && (UpTo(Of(book.open, f.bucket), f.asof) ==> UpTo(c.queue, f.asof) && !c.early)
    ensures Settle(book, f).0.open == Put(book.open, f.bucket, lots) && OneSided(lots)
    ensures UpTo(Of(book.open, f.bucket), f.asof) ==> UpTo(lots, f.asof)
    ensures UpTo(Of(book.open, f.bucket), f.asof) && !f.redrained ==> Settle(book, f).0.deferred == book.deferred
    ensures Settle(book, f).1 == [] || Settle(book, f).1 == Close(Of(book.open, f.bucket), f, f.qty).trips
  {
    hide Prorated, Close;
    var queue := Of(book.open, f.bucket);
    var c := Close(queue, f, f.qty);
    if queue == [] || queue[0].side == f.side {
      lots := if f.redrained then queue else queue + [LotOf(f, f.qty)];
    } else {
      lots := if c.remaining <= DUST || c.early then c.queue else [LotOf(f, c.remaining)];
    }
  }

  lemma PutUpTo(book: Book, b: Bucket, lots: seq<Lot>, t: int)
    requires BookUpTo(book, t) && UpTo(lots, t)
    ensures BookUpTo(Book(Put(book.open, b, lots), book.deferred), t)
  {
    hide UpTo;
  }

  /** The matcher's own assertion holds over every stream, and no round trip pairs an exit
      with a later entry. */
  lemma {:induction false} FoldFacts(book: Book, fills: seq<Fill>)
    requires BookOneSided(book)
    ensures var (n, trips) := Fold(book, fills);
            BookOneSided(n) && forall x :: x in trips ==> x.asofEntry <= x.asofExit
  {
    if fills != [] {
      FoldFacts(book, Front(fills));
      SettleFacts(Fold(book, Front(fills)).0, Last(fills));
    }
  }

  /** A stream in time order, on a book no later than it, defers nothing. */
  lemma {:induction false} SortedNeverDefers(book: Book, fills: seq<Fill>)
    requires BookOneSided(book) && Sorted(fills, (f: Fill) => f.asof)
    requires forall f :: f in fills ==> !f.redrained && BookUpTo(book, f.asof)
    ensures Fold(book, fills).0.deferred == book.deferred
    ensures fills != [] ==> BookUpTo(Fold(book, fills).0, Last(fills).asof)
  {
    if fills != [] {
      assert forall f :: f in Front(fills) ==> f in fills;
      SortedNeverDefers(book, Front(fills));
      FoldFacts(book, Front(fills));
      var m := Fold(book, Front(fills)).0;
      assert Last(fills) in fills;
      if Front(fills) != [] {
        assert Last(Front(fills)).asof <= Last(fills).asof;
      }
      SettleFacts(m, Last(fills));
    }
  }

  // ---------------------------------------------------------------- first in, first out

  /** What closing leaves of the queue: its lots from the `n`-th on, the one before perhaps still
      there with less. */
  predicate Drops(queue: seq<Lot>, left: seq<Lot>, n: nat)
    requires n <= |queue|
  {
    left == queue[n..]
    || (n > 0 && |left| == |queue| - n + 1 && left[1..] == queue[n..] && left[0].qty < queue[n - 1].qty
        && left[0] == queue[n - 1].(qty := left[0].qty))
  }

  /** Round trip `i` is with lot `i`, at its price, and every lot but the last one touched is used
      up to dust. */
  predicate Oldest(queue: seq<Lot>, trips: seq<Trip>, exit: real) {
    && |trips| <= |queue|
    && (forall i :: 0 <= i < |trips| ==> trips[i].asofEntry == queue[i].asof && trips[i].entry == queue[i].price
                                         && trips[i].side == queue[i].side && trips[i].exit as real == exit)
    && (forall i :: 0 <= i < |trips| - 1 ==> queue[i].qty - DUST <= trips[i].qty <= queue[i].qty)
  }

  lemma OldestCons(queue: seq<Lot>, x: Trip, trips: seq<Trip>, left: seq<Lot>, exit: real)
    requires queue != [] && Oldest(queue[1..], trips, exit) && Drops(queue[1..], left, |trips|)
    requires x.asofEntry == queue[0].asof && x.entry == queue[0].price && x.side == queue[0].side && x.exit as real == exit
    requires queue[0].qty - DUST <= x.qty <= queue[0].qty
    ensures Oldest(queue, [x] + trips, exit) && Drops(queue, left, |trips| + 1)
  {
    var all := [x] + trips;
    assert queue[1..][|trips|..] == queue[|trips| + 1..];
    forall i | 0 <= i < |trips| ensures all[i + 1] == trips[i] && queue[1..][i] == queue[i + 1] {
    }
  }

  /** The oldest lots are closed first. */
  lemma {:induction false} ClosesOldestFirst(queue: seq<Lot>, f: Fill, remaining: real)
    ensures var c := Close(queue, f, remaining); Oldest(queue, c.trips, f.price) && Drops(queue, c.queue, |c.trips|)
  {
    hide TripOf, Oldest, Drops;
    NothingDropped(queue, f.price);
    if remaining > DUST && queue != [] && queue[0].asof <= f.asof {
      var matched := Min(queue[0].qty, remaining);
      var x := TripOf(queue[0], f, matched);
      TripFields(queue[0], f, matched);
      TripPrices(queue[0], f, matched);
      if queue[0].qty - matched <= DUST {
        var d := Close(queue[1..], f, remaining - matched);
        ClosesOldestFirst(queue[1..], f, remaining - matched);
        OldestCons(queue, x, d.trips, d.queue, f.price);
      } else {
        PartDropped(queue, x, queue[0].(qty := queue[0].qty - matched), f.price);
      }
    }
  }

  lemma NothingDropped(queue: seq<Lot>, exit: real)
    ensures Oldest(queue, [], exit) && Drops(queue, queue, 0)
  {
  }

  lemma PartDropped(queue: seq<Lot>, x: Trip, part: Lot, exit: real)
    requires queue != [] && part == queue[0].(qty := part.qty) && part.qty < queue[0].qty
    requires x.asofEntry == queue[0].asof && x.entry == queue[0].price && x.side == queue[0].side && x.exit as real == exit
    ensures Oldest(queue, [x], exit) && Drops(queue, [part] + queue[1..], 1)
  {
  }

  lemma TripPrices(lot: Lot, f: Fill, matched: pos)
    ensures var x := TripOf(lot, f, matched); x.entry == lot.price && x.exit == f.price && x.side == lot.side
  {
  }

  predicate Aged(lots: seq<Lot>) {
    forall i, j :: 0 <= i < j < |lots| ==> lots[i].asof <= lots[j].asof
  }

  predicate BookAged(book: Book) {
    forall b :: b in book.open ==> Aged(book.open[b])
  }

  lemma {:induction false} CloseAged(queue: seq<Lot>, f: Fill, remaining: real)
    requires Aged(queue)
    ensures Aged(Close(queue, f, remaining).queue)
  {
    ClosesOldestFirst(queue, f, remaining);
    hide Close;
  }

  lemma SettleAged(book: Book, f: Fill)
    requires BookAged(book) && BookUpTo(book, f.asof)
    ensures BookAged(Settle(book, f).0)
  {
    CloseAged(Of(book.open, f.bucket), f, f.qty);
    hide Close, Prorated;
  }

  /** A stream in time order keeps every queue oldest first. */
  lemma {:induction false} QueuesStayAged(book: Book, fills: seq<Fill>)
    requires BookOneSided(book) && BookAged(book) && Sorted(fills, (f: Fill) => f.asof)
    requires forall f :: f in fills ==> !f.redrained && BookUpTo(book, f.asof)
    ensures BookAged(Fold(book, fills).0)
  {
    hide Settle, BookAged, BookUpTo, BookOneSided;
    if fills != [] {
      assert forall f :: f in Front(fills) ==> f in fills;
      assert Last(fills) in fills;
      QueuesStayAged(book, Front(fills));
      UpToLast(book, fills);
      SettleAged(Fold(book, Front(fills)).0, Last(fills));
    }
  }

  lemma UpToLast(book: Book, fills: seq<Fill>)
    requires BookOneSided(book) && Sorted(fills, (f: Fill) => f.asof) && fills != []
    requires forall f :: f in fills ==> !f.redrained && BookUpTo(book, f.asof)
    ensures BookUpTo(Fold(book, Front(fills)).0, Last(fills).asof)
  {
    assert forall f :: f in Front(fills) ==> f in fills;
    assert Last(fills) in fills;
    SortedNeverDefers(book, Front(fills));
    hide Settle, BookOneSided;
    if Front(fills) != [] { assert Last(Front(fills)).asof <= Last(fills).asof; }
  }

  // ---------------------------------------------------------------- conservation

  function Signed(side: Side, qty: real): real {
    if side == Buy then qty else -qty
  }

  function Net(lots: seq<Lot>): real {
    if lots == [] then 0.0 else Signed(lots[0].side, lots[0].qty) + Net(lots[1..])
  }

  function Matched(trips: seq<Trip>): real {
    if trips == [] then 0.0 else trips[0].qty + Matched(trips[1..])
  }

  lemma {:induction false} NetSnoc(lots: seq<Lot>, l: Lot)
    ensures Net(lots + [l]) == Net(lots) + Signed(l.side, l.qty)
  {
    if lots != [] {
      NetSnoc(lots[1..], l);
      assert (lots + [l])[1..] == lots[1..] + [l];
    }
  }

  /** The most that `n` dropped remainders can hide. */
  function Dust(n: nat): real {
    if n == 0 then 0.0 else Dust(n - 1) + DUST
  }

  lemma {:induction false} DustAdds(m: nat, n: nat)
    ensures Dust(m) + Dust(n) == Dust(m + n)
    ensures Dust(m) == DUST * m as real
  {
    if m > 0 {
      DustAdds(m - 1, n);
    }
  }

  predicate Near(x: real, y: real, dust: real) {
    -dust <= x - y <= dust
  }

  /** The round trips account for exactly the quantity the fill lost. */
  lemma {:induction false} CloseMatches(queue: seq<Lot>, f: Fill, remaining: real)
    ensures var c := Close(queue, f, remaining);
            Matched(c.trips) == remaining - c.remaining && (remaining > 0.0 ==> c.remaining >= 0.0)
  {
    hide TripOf;
    if remaining > DUST && queue != [] && queue[0].asof <= f.asof {
      var lot := queue[0];
      var matched := Min(lot.qty, remaining);
      TripFields(lot, f, matched);
      if lot.qty - matched <= DUST {
        CloseMatches(queue[1..], f, remaining - matched);
        MatchedCons(TripOf(lot, f, matched), Close(queue[1..], f, remaining - matched).trips);
      } else {
        MatchedCons(TripOf(lot, f, matched), []);
        assert [TripOf(lot, f, matched)] + [] == [TripOf(lot, f, matched)];
      }
    }
  }

  /** Closing moves the same quantity out of the queue, but for the dust of the lots it drops. */
  lemma {:induction false} CloseConserves(queue: seq<Lot>, f: Fill, remaining: real)
    requires forall l :: l in queue ==> l.side != f.side
    ensures var c := Close(queue, f, remaining);
            Near(Net(c.queue) + Signed(f.side, c.remaining), Net(queue) + Signed(f.side, remaining), Dust(|c.trips|))
  {
    hide TripOf, Near, Dust, Matched, Net, Signed;
    if remaining > DUST && queue != [] && queue[0].asof <= f.asof {
      var lot := queue[0];
      var matched := Min(lot.qty, remaining);
      var c := Close(queue, f, remaining);
      if lot.qty - matched <= DUST {
        CloseConserves(queue[1..], f, remaining - matched);
        var d := Close(queue[1..], f, remaining - matched);
        assert |c.trips| == |d.trips| + 1;
        PopNear(queue, f.side, remaining, matched, Net(d.queue) + Signed(f.side, d.remaining), |d.trips|);
      } else {
        PartNet(queue, f.side, matched);
        assert c.remaining == remaining - matched;
        SignedLess(f.side, remaining, matched);
        NearItself(Net(queue) + Signed(f.side, remaining), 1);
      }
    } else {
      NearItself(Net(queue) + Signed(f.side, remaining), 0);
    }
  }

  lemma NearItself(x: real, n: nat)
    ensures Near(x, x, Dust(n))
  {
    DustAdds(n, 0);
  }

  lemma MatchedCons(x: Trip, trips: seq<Trip>)
    ensures Matched([x] + trips) == x.qty + Matched(trips)
  {
    assert ([x] + trips)[1..] == trips;
  }

  lemma PartNet(queue: seq<Lot>, side: Side, matched: pos)
    requires queue != [] && queue[0].side != side && queue[0].qty - matched > DUST
    ensures Net([queue[0].(qty := queue[0].qty - matched)] + queue[1..]) == Net(queue) + Signed(side, matched)
  {
    assert ([queue[0].(qty := queue[0].qty - matched)] + queue[1..])[1..] == queue[1..];
  }

  lemma SignedLess(side: Side, x: real, y: real)
    ensures Signed(side, x - y) == Signed(side, x) - Signed(side, y)
  {
  }

  /** A popped lot drops at most one dust. */
  lemma PopNear(queue: seq<Lot>, side: Side, remaining: real, matched: pos, after: real, n: nat)
    requires queue != [] && queue[0].side != side
    requires 0.0 <= queue[0].qty - matched <= DUST
    requires Near(after, Net(queue[1..]) + Signed(side, remaining - matched), Dust(n))
    ensures Near(after, Net(queue) + Signed(side, remaining), Dust(n + 1))
  {
  }

  /** The bucket's open and held-back quantity. */
  function Position(book: Book, b: Bucket): real {
    Net(Of(book.open, b)) + Net(Of(book.deferred, b))
  }

  lemma OpenConserves(book: Book, f: Fill)
    requires var queue := Of(book.open, f.bucket); queue == [] || queue[0].side == f.side
    ensures var (n, trips) := Settle(book, f);
            Position(n, f.bucket) == Position(book, f.bucket) + Signed(f.side, f.qty) && trips == []
  {
    NetSnoc(Of(book.open, f.bucket), LotOf(f, f.qty));
    NetSnoc(Of(book.deferred, f.bucket), LotOf(f, f.qty));
    hide Net, Prorated;
  }

  lemma CloserConserves(book: Book, f: Fill)
    requires BookOneSided(book)
    requires var queue := Of(book.open, f.bucket); queue != [] && queue[0].side != f.side
    ensures var (n, trips) := Settle(book, f);
            Near(Position(n, f.bucket), Position(book, f.bucket) + Signed(f.side, f.qty), Dust(|trips| + 1))
  {
    var queue := Of(book.open, f.bucket);
    CloseConserves(queue, f, f.qty);
    CloseMatches(queue, f, f.qty);
    var c := Close(queue, f, f.qty);
    if c.remaining > DUST {
      NetSnoc(Of(book.deferred, f.bucket), LotOf(f, c.remaining));
      NetSnoc([], LotOf(f, c.remaining));
      assert [] + [LotOf(f, c.remaining)] == [LotOf(f, c.remaining)];
      assert Net([]) == 0.0;
    }
    hide Net, Prorated, Close;
  }

  lemma SettleElsewhere(book: Book, f: Fill, b: Bucket)
    requires b != f.bucket
    ensures var (n, _) := Settle(book, f); Position(n, b) == Position(book, b)
  {
    hide Net, Close, LotOf;
  }

  /** A fill moves its bucket by its signed size, up to the dust of the lots it drops and its
      own, and leaves the others alone. */
  lemma SettleConserves(book: Book, f: Fill, b: Bucket)
    requires BookOneSided(book)
    ensures var (n, trips) := Settle(book, f);
            Near(Position(n, b), Position(book, b) + (if b == f.bucket then Signed(f.side, f.qty) else 0.0),
                 Dust(|trips| + 1))
  {
    hide Settle, Position, BookOneSided;
    var queue := Of(book.open, f.bucket);
    if b != f.bucket {
      SettleElsewhere(book, f, b);
      NearItself(Position(book, b), |Settle(book, f).1| + 1);
    } else if queue == [] || queue[0].side == f.side {
      OpenConserves(book, f);
    } else {
      CloserConserves(book, f);
    }
  }

  function Traded(fills: seq<Fill>, b: Bucket): real {
    if fills == [] then 0.0
    else Traded(Front(fills), b) + (if Last(fills).bucket == b then Signed(Last(fills).side, Last(fills).qty) else 0.0)
  }

  /** Over any stream: what is open or held back is what was traded, up to a dust bound that
      grows with the number of round trips and fills. */
  lemma {:induction false} FoldConserves(book: Book, fills: seq<Fill>, b: Bucket)
    requires BookOneSided(book)
    ensures var (n, trips) := Fold(book, fills);
            Near(Position(n, b), Position(book, b) + Traded(fills, b), Dust(|trips| + |fills|))
  {
    hide Settle, Position;
    if fills != [] {
      FoldConserves(book, Front(fills), b);
      FoldFacts(book, Front(fills));
      var (m, t) := Fold(book, Front(fills));
      SettleConserves(m, Last(fills), b);
      DustAdds(|t| + |Front(fills)|, |Settle(m, Last(fills)).1| + 1);
    }
  }
}
