/** `join_exit_fills` with its carry-in and carry-out, and the P&L it adds up to. */
module JoinFills {
  import opened Prelude
  import opened ByteLines
  import opened StableSort
  import opened Settlement

  /** A key of the carried lot dictionary: a position bucket, or the held-back exits of one. */
  datatype Key = Open(bucket: Bucket) | Deferred(bucket: Bucket)

  /** The dictionary as the checkpoint stores it: a list of entries. */
  datatype Entry = Entry(key: Key, lots: seq<Lot>)

  type Carry = seq<Entry>

  // ---------------------------------------------------------------- carry-out

  predicate Holds(book: Book, e: Entry) {
    match e.key
    case Open(b) => b in book.open && book.open[b] == e.lots
    case Deferred(b) => b in book.deferred && book.deferred[b] == e.lots
  }

  /** The list spells the book: each key once, in some order. */
  ghost predicate IsCarryOf(es: Carry, book: Book) {
    && (forall e :: e in es ==> Holds(book, e))
    && (forall b :: b in book.open ==> Entry(Open(b), book.open[b]) in es)
    && (forall b :: b in book.deferred ==> Entry(Deferred(b), book.deferred[b]) in es)
    && forall i, j :: 0 <= i < j < |es| ==> es[i].key != es[j].key
  }

  method Serialise(book: Book) returns (es: Carry)
    ensures IsCarryOf(es, book)
  {
    es := [];
    var todo := book.open.Keys;
    while todo != {}
      invariant todo <= book.open.Keys
      invariant forall e :: e in es ==> e.key.Open? && e.key.bucket !in todo && Holds(book, e)
      invariant forall b :: b in book.open.Keys - todo ==> Entry(Open(b), book.open[b]) in es
      invariant forall i, j :: 0 <= i < j < |es| ==> es[i].key != es[j].key
    {
      var b :| b in todo;
      es, todo := es + [Entry(Open(b), book.open[b])], todo - {b};
    }
    ghost var opens := es;
    todo := book.deferred.Keys;
    while todo != {}
      invariant todo <= book.deferred.Keys
      invariant forall e :: e in es ==> Holds(book, e) && (e.key.Deferred? ==> e.key.bucket !in todo)
      invariant opens <= es
      invariant forall b :: b in book.deferred.Keys - todo ==> Entry(Deferred(b), book.deferred[b]) in es
      invariant forall i, j :: 0 <= i < j < |es| ==> es[i].key != es[j].key
    {
      var b :| b in todo;
      es, todo := es + [Entry(Deferred(b), book.deferred[b])], todo - {b};
    }
    forall b | b in book.open ensures Entry(Open(b), book.open[b]) in es {
      assert Entry(Open(b), book.open[b]) in opens;
    }
  }

  // ---------------------------------------------------------------- carry-in

  function DeferredBuckets(es: Carry): set<Bucket> {
    set e | e in es && e.key.Deferred? :: e.key.bucket
  }

  /** Lots of buckets without a held-back exit are loaded as they are. */
  function Loaded(es: Carry, held: set<Bucket>): map<Bucket, seq<Lot>> {
    if es == [] then map[]
    else
      var m := Loaded(Front(es), held);
      var e := Last(es);
      if e.key.Deferred? || e.key.bucket in held then m else m[e.key.bucket := e.lots]
  }

  /** A carried lot as a fill again; a held-back exit may not open a position. */
  function Again(b: Bucket, l: Lot, exit: bool): Fill {
    Fill(b, l.side, l.qty, l.price, l.asof, l.feePerUnit * l.qty, None, exit)
  }

  function AgainAll(b: Bucket, lots: seq<Lot>, exit: bool): seq<Fill> {
    if lots == [] then [] else [Again(b, lots[0], exit)] + AgainAll(b, lots[1..], exit)
  }

  /** Lots of the other buckets rejoin the stream, ahead of the new records. */
  function Redrained(es: Carry, held: set<Bucket>): seq<Fill> {
    if es == [] then []
    else
      var e := Last(es);
      Redrained(Front(es), held)
      + (if e.key.Deferred? || e.key.bucket in held then AgainAll(e.key.bucket, e.lots, e.key.Deferred?) else [])
  }

  function ByTime(fills: seq<Fill>): seq<Fill> {
    Sort(fills, (f: Fill) => f.asof)
  }

  /** The whole join: sort what is new and what was held back, fold it onto what is open. */
  function Join(records: seq<Rec>, es: Carry): (Book, seq<Trip>) {
    var held := DeferredBuckets(es);
    Fold(Book(Loaded(es, held), map[]), ByTime(Redrained(es, held) + Fills(records)))
  }

  /** Closes lots from the oldest on until the fill is used up or meets a lot that opened later. */
  method CloseLoop(queue: seq<Lot>, f: Fill) returns (c: Closing)
    ensures c == Close(queue, f, f.qty)
  {
    hide TripOf;
    var q, remaining, trips, early := queue, f.qty as real, [], false;
    while remaining > DUST && q != [] && !early
      invariant var c := Close(queue, f, f.qty);
                if early then c == Closing(q, remaining, trips, true)
                else var d := Close(q, f, remaining); c == d.(trips := trips + d.trips)
      decreases !early, |q|, remaining > DUST
    {
      var lot := q[0];
      if lot.asof > f.asof {
        early := true;
        assert trips + [] == trips;
      } else {
        var matched := Min(lot.qty, remaining);
        ghost var d := Close(q, f, remaining);
        ghost var before := trips;
        trips := trips + [TripOf(lot, f, matched)];
        assert forall ts: seq<Trip> :: before + ([TripOf(lot, f, matched)] + ts) == trips + ts;
        remaining := remaining - matched;
        if lot.qty - matched <= DUST {
          q := q[1..];
        } else {
          q := [lot.(qty := lot.qty - matched)] + q[1..];
          assert before + [TripOf(lot, f, matched)] == trips + [];
        }
      }
    }
    assert trips + [] == trips;
    c := Closing(q, remaining, trips, early);
  }

  /** One fill: it moves its own bucket by its signed size, up to dust, and no other. */
  method SettleOne(book: Book, f: Fill) returns (n: Book, trips: seq<Trip>)
    ensures (n, trips) == Settle(book, f)
    ensures forall b :: b != f.bucket ==> Of(n.open, b) == Of(book.open, b) && Of(n.deferred, b) == Of(book.deferred, b)
    ensures BookOneSided(book) ==>
              && BookOneSided(n)
              && Near(Position(n, f.bucket), Position(book, f.bucket) + Signed(f.side, f.qty), Dust(|trips| + 1))
              && forall x :: x in trips ==> x.bucket == f.bucket && x.asofEntry <= x.asofExit
  {
    if BookOneSided(book) {
      SettleConserves(book, f, f.bucket);
      SettleFacts(book, f);
      SettledTrips(book, f);
    }
    hide BookOneSided, Near, Position, Dust, Signed;
    var queue, held := Of(book.open, f.bucket), Of(book.deferred, f.bucket);
    if queue == [] || queue[0].side == f.side {
      if f.redrained {
        return Book(Put(book.open, f.bucket, queue), book.deferred[f.bucket := held + [LotOf(f, f.qty)]]), [];
      }
      return Book(Put(book.open, f.bucket, queue + [LotOf(f, f.qty)]), book.deferred), [];
    }
    var c := CloseLoop(queue, f);
    trips := c.trips;
    var q, deferred := c.queue, book.deferred;
    if c.remaining > DUST {
      if c.early {
        deferred := deferred[f.bucket := held + [LotOf(f, c.remaining)]];
      } else {
        q := q + [LotOf(f, c.remaining)];
        assert q == [LotOf(f, c.remaining)];
      }
    }
    n := Book(Put(book.open, f.bucket, q), deferred);
  }

  lemma {:induction false} ClosedTrips(queue: seq<Lot>, f: Fill, remaining: real)
    ensures forall x :: x in Close(queue, f, remaining).trips ==> x.bucket == f.bucket
  {
    hide TripOf;
    if remaining > DUST && queue != [] && queue[0].asof <= f.asof {
      TripFields(queue[0], f, Min(queue[0].qty, remaining));
      ClosedTrips(queue[1..], f, remaining - Min(queue[0].qty, remaining));
    }
  }

  lemma SettledTrips(book: Book, f: Fill)
    ensures forall x :: x in Settle(book, f).1 ==> x.bucket == f.bucket
  {
    ClosedTrips(Of(book.open, f.bucket), f, f.qty);
    hide Close, LotOf;
  }

  /** `join_exit_fills`. */
  method JoinExitFills(records: seq<Rec>, es: Carry) returns (book: Book, trips: seq<Trip>)
    ensures (book, trips) == Join(records, es)
  {
    hide Settle, Loaded, Redrained, Fills, DeferredBuckets;
    var held := DeferredBuckets(es);
    var ordered := ByTime(Redrained(es, held) + Fills(records));
    book, trips := Book(Loaded(es, held), map[]), [];
    ghost var start := book;
    for i := 0 to |ordered|
      invariant (book, trips) == Fold(start, ordered[..i])
    {
      assert Front(ordered[..i + 1]) == ordered[..i];
      var t: seq<Trip>;
      book, t := SettleOne(book, ordered[i]);
      trips := trips + t;
    }
    assert ordered[..|ordered|] == ordered;
  }

  // ---------------------------------------------------------------- the batch law

  lemma {:induction false} LoadedHolds(es: Carry, book: Book)
    requires forall e :: e in es ==> Holds(book, e) && e.key.Open?
    ensures forall b :: b in Loaded(es, {}) ==> b in book.open && Loaded(es, {})[b] == book.open[b]
    ensures forall e :: e in es ==> e.key.bucket in Loaded(es, {})
    ensures Redrained(es, {}) == []
  {
    if es != [] {
      assert es == Front(es) + [Last(es)];
      LoadedHolds(Front(es), book);
    }
  }

  /** Writing the lots out and reading them back gives the same matching, in whatever order
      the dictionary was listed. */
  lemma CarryRoundTrip(records: seq<Rec>, es: Carry, book: Book)
    requires IsCarryOf(es, book) && book.deferred == map[]
    ensures Join(records, es) == Fold(book, ByTime(Fills(records)))
  {
    LoadedHolds(es, book);
    assert DeferredBuckets(es) == {};
    assert Loaded(es, {}) == book.open;
    assert Redrained(es, {}) + Fills(records) == Fills(records);
  }

  /** Every time in `a` is at most every time in `b`. */
  predicate NotAfter(a: seq<Fill>, b: seq<Fill>) {
    forall f, g :: f in a && g in b ==> f.asof <= g.asof
  }

  /** Joining all records at once, from nothing, defers nothing. */
  lemma FreshDefersNothing(records: seq<Rec>)
    ensures var (book, _) := Fold(FLAT, ByTime(Fills(records)));
            book.deferred == map[] && BookOneSided(book)
            && Join(records, []) == Fold(FLAT, ByTime(Fills(records)))
  {
    SortIsStable(Fills(records), (f: Fill) => f.asof);
    SortMembers(Fills(records), (f: Fill) => f.asof);
    FillsFrom(records);
    SortedNeverDefers(FLAT, ByTime(Fills(records)));
    FoldFacts(FLAT, ByTime(Fills(records)));
    assert IsCarryOf([], FLAT);
    CarryRoundTrip(records, [], FLAT);
  }

  /** Joining a batch onto the carried book is joining everything, if no fill of the batch is
      earlier than one already settled. */
  lemma JoinInBatches(a: seq<Rec>, b: seq<Rec>, es: Carry)
    requires IsCarryOf(es, Join(a, []).0)
    requires NotAfter(Fills(a), Fills(b))
    ensures Join(a + b, []).0 == Join(b, es).0
    ensures Join(a + b, []).1 == Join(a, []).1 + Join(b, es).1
  {
    FreshDefersNothing(a);
    FreshDefersNothing(a + b);
    CarryRoundTrip(b, es, Join(a, []).0);
    FillsConcat(a, b);
    SortConcat(Fills(a), Fills(b), (f: Fill) => f.asof);
    FoldConcat(FLAT, ByTime(Fills(a)), ByTime(Fills(b)));
  }

  // ---------------------------------------------------------------- what the carry conserves

  lemma {:induction false} TradedConcat(a: seq<Fill>, b: seq<Fill>, k: Bucket)
    ensures Traded(a + b, k) == Traded(a, k) + Traded(b, k)
  {
    if b == [] {
      assert a + b == a;
    } else {
      FrontOfConcat(a, b);
      TradedConcat(a, Front(b), k);
    }
  }

  lemma {:induction false} TradedInsert(t: seq<Fill>, f: Fill, key: Fill -> int, k: Bucket)
    ensures Traded(Insert(t, f, key), k) == Traded(t, k) + (if f.bucket == k then Signed(f.side, f.qty) else 0.0)
  {
    if t != [] && key(Last(t)) > key(f) {
      TradedInsert(Front(t), f, key, k);
      FrontLast(Insert(Front(t), f, key), Last(t));
    } else {
      FrontLast(t, f);
    }
  }

  lemma {:induction false} TradedSort(fills: seq<Fill>, key: Fill -> int, k: Bucket)
    ensures Traded(Sort(fills, key), k) == Traded(fills, k)
  {
    if fills != [] {
      TradedSort(Front(fills), key, k);
      TradedInsert(Sort(Front(fills), key), Last(fills), key, k);
    }
  }

  /** Carried lots that rejoin the stream trade what they were. */
  lemma {:induction false} AgainTrades(b: Bucket, lots: seq<Lot>, exit: bool, k: Bucket)
    ensures Traded(AgainAll(b, lots, exit), k) == if b == k then Net(lots) else 0.0
  {
    if lots != [] {
      AgainTrades(b, lots[1..], exit, k);
      TradedConcat([Again(b, lots[0], exit)], AgainAll(b, lots[1..], exit), k);
      assert Front([Again(b, lots[0], exit)]) == [] && Last([Again(b, lots[0], exit)]) == Again(b, lots[0], exit);
    }
  }

  /** The quantity a carry holds of a bucket, open or held back. */
  function CarriedNet(es: Carry, k: Bucket): real {
    if es == [] then 0.0 else CarriedNet(Front(es), k) + (if Last(es).key.bucket == k then Net(Last(es).lots) else 0.0)
  }

  predicate DistinctKeys(es: Carry) {
    forall i, j :: 0 <= i < j < |es| ==> es[i].key != es[j].key
  }

  lemma {:induction false} LoadedKeys(es: Carry, held: set<Bucket>)
    ensures forall b :: b in Loaded(es, held) ==> exists e :: e in es && e.key == Open(b) && e.lots == Loaded(es, held)[b]
  {
    if es != [] {
      LoadedKeys(Front(es), held);
      assert es == Front(es) + [Last(es)];
    }
  }

  lemma FreshKey(es: Carry, held: set<Bucket>, k: Bucket)
    requires es != [] && DistinctKeys(es) && Last(es).key == Open(k)
    ensures k !in Loaded(Front(es), held)
  {
    LoadedKeys(Front(es), held);
    forall e | e in Front(es) ensures e.key != Last(es).key {
      var i :| 0 <= i < |es| - 1 && es[i] == e;
    }
  }

  /** Loaded as they are or rejoining the stream, the lots of a bucket are all there. */
  lemma {:induction false} CarrySplits(es: Carry, held: set<Bucket>, k: Bucket)
    requires DistinctKeys(es) && forall e :: e in es && e.key.Deferred? ==> e.key.bucket in held
    ensures Net(Of(Loaded(es, held), k)) + Traded(Redrained(es, held), k) == CarriedNet(es, k)
  {
    hide AgainAll;
    if es != [] {
      var f, e := Front(es), Last(es);
      assert es == f + [e];
      CarrySplits(f, held, k);
      hide Traded, Net;
      if e.key.Deferred? || e.key.bucket in held {
        AgainTrades(e.key.bucket, e.lots, e.key.Deferred?, k);
        TradedConcat(Redrained(f, held), AgainAll(e.key.bucket, e.lots, e.key.Deferred?), k);
      } else {
        assert Redrained(es, held) == Redrained(f, held);
        EmptyNet();
        if k == e.key.bucket { FreshKey(es, held, k); }
      }
    }
  }

  lemma EmptyNet()
    ensures Net([]) == 0.0
  {
  }

  /** Any join, of any records onto any carry, held-back exits included: what is open or held back of
      a bucket afterwards is what the carry held and the records traded, up to dust. */
  lemma JoinConserves(records: seq<Rec>, es: Carry, k: Bucket)
    requires DistinctKeys(es) && forall e :: e in es ==> OneSided(e.lots)
    ensures var (book, trips) := Join(records, es);
            Near(Position(book, k), CarriedNet(es, k) + Traded(Fills(records), k),
                 Dust(|trips| + |Redrained(es, DeferredBuckets(es)) + Fills(records)|))
  {
    hide Fold, Loaded, Redrained, Fills, Traded, Net, Sort, Near, Dust, CarriedNet, OneSided;
    var held := DeferredBuckets(es);
    var stream := Redrained(es, held) + Fills(records);
    CarrySplits(es, held, k);
    LoadedKeys(es, held);
    TradedConcat(Redrained(es, held), Fills(records), k);
    TradedSort(stream, (f: Fill) => f.asof, k);
    EmptyNet();
    var start := Book(Loaded(es, held), map[]);
    FoldConserves(start, ByTime(stream), k);
  }

  // ---------------------------------------------------------------- the fraction

  /** One round trip's share of the paper-default account's realised fraction. */
  function Term(x: Trip, nav: Option<real>): real {
    if x.bucket.account != "paper-default" then 0.0
    else if x.units.Some? && nav.Some? && nav.value > 0.0 then
      x.ret * (Abs(x.units.value) * x.entry * (if x.bucket.assetClass == "us_option" then 100.0 else 1.0) / nav.value)
    else x.ret * x.qty
  }

  function Total(trips: seq<Trip>, nav: Option<real>): real {
    if trips == [] then 0.0 else Total(Front(trips), nav) + Term(Last(trips), nav)
  }

  lemma {:induction false} TotalConcat(a: seq<Trip>, b: seq<Trip>, nav: Option<real>)
    ensures Total(a + b, nav) == Total(a, nav) + Total(b, nav)
  {
    hide Term;
    if b == [] {
      assert a + b == a;
    } else {
      FrontOfConcat(a, b);
      TotalConcat(a, Front(b), nav);
    }
  }

  method SumTrips(trips: seq<Trip>, nav: Option<real>) returns (frac: real)
    ensures frac == Total(trips, nav)
  {
    hide Term;
    frac := 0.0;
    for i := 0 to |trips|
      invariant frac == Total(trips[..i], nav)
    {
      assert Front(trips[..i + 1]) == trips[..i];
      frac := frac + Term(trips[i], nav);
    }
    assert trips[..|trips|] == trips;
  }
}
