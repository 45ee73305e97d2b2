/** How much of the realised fraction depends on the account's NAV. */
module NavShare {
  import opened Prelude
  import opened ByteLines
  import opened StableSort
  import opened Settlement
  import opened JoinFills

  /** The money a multi-leg round trip of the account made on its true notional. */
  function LegMoney(x: Trip): real {
    if x.bucket.account != "paper-default" || x.units.None? then 0.0
    else x.ret * (Abs(x.units.value) * x.entry * (if x.bucket.assetClass == "us_option" then 100.0 else 1.0))
  }

  function LegsMoney(trips: seq<Trip>): real {
    if trips == [] then 0.0 else LegsMoney(Front(trips)) + LegMoney(Last(trips))
  }

  /** The round trips whose fraction is their own. */
  function OwnFraction(trips: seq<Trip>): real {
    if trips == [] then 0.0
    else OwnFraction(Front(trips)) + (if Last(trips).units.None? then Term(Last(trips), None) else 0.0)
  }

  lemma Scaled(x: real, y: real, n: real)
    requires n > 0.0
    ensures x * (y / n) == x * y / n
  {
    Ratio(y, n);
    Ratio(x * y, n);
    Share(x, y / n, n);
  }

  lemma SumOver(x: real, y: real, n: real)
    requires n > 0.0
    ensures (x + y) / n == x / n + y / n
  {
  }

  lemma TermShare(x: Trip, n: real)
    requires n > 0.0
    ensures Term(x, Some(n)) == (if x.units.None? then Term(x, None) else 0.0) + LegMoney(x) / n
  {
    if x.units.Some? && x.bucket.account == "paper-default" {
      Scaled(x.ret, Abs(x.units.value) * x.entry * (if x.bucket.assetClass == "us_option" then 100.0 else 1.0), n);
    }
  }

  lemma {:induction false} TotalAtNav(trips: seq<Trip>, n: real)
    requires n > 0.0
    ensures Total(trips, Some(n)) == OwnFraction(trips) + LegsMoney(trips) / n
  {
    hide Term, LegMoney;
    if trips != [] {
      TotalAtNav(Front(trips), n);
      TermShare(Last(trips), n);
      SumOver(LegsMoney(Front(trips)), LegMoney(Last(trips)), n);
    }
  }

  lemma SameShareIff(l: real, m: real, n: real)
    requires m > 0.0 && n > 0.0
    ensures l / m == l / n <==> m == n || l == 0.0
  {
    Ratio(l, m);
    Ratio(l, n);
    var q := l / m;
    if q == l / n {
      assert q * m == q * n;
      ZeroFactor(q, m - n);
    }
  }

  /** The same round trips are worth the same at two NAVs iff those are one or the multi-leg
      money nets to nothing. */
  lemma NavMattersIff(trips: seq<Trip>, m: real, n: real)
    requires m > 0.0 && n > 0.0
    ensures Total(trips, Some(m)) == Total(trips, Some(n)) <==> m == n || LegsMoney(trips) == 0.0
  {
    hide Total, LegsMoney, OwnFraction;
    TotalAtNav(trips, m);
    TotalAtNav(trips, n);
    SameShareIff(LegsMoney(trips), m, n);
  }

  lemma ZeroFactor(x: real, y: real)
    requires x * y == 0.0
    ensures x == 0.0 || y == 0.0
  {
  }

  /** No record carries a multi-leg quantity. */
  predicate SingleLeg(records: seq<Rec>) {
    forall r :: r in records ==> !(r.multiLeg && r.shares.Num?)
  }

  predicate LotsPlain(lots: seq<Lot>) {
    forall l :: l in lots ==> l.units.None?
  }

  predicate BookPlain(book: Book) {
    forall b :: b in book.open ==> LotsPlain(book.open[b])
  }

  predicate TripsPlain(trips: seq<Trip>) {
    forall x :: x in trips ==> x.units.None?
  }

  lemma {:induction false} ClosePlain(queue: seq<Lot>, f: Fill, remaining: real)
    requires LotsPlain(queue)
    ensures var c := Close(queue, f, remaining); LotsPlain(c.queue) && TripsPlain(c.trips)
  {
    if remaining > DUST && queue != [] && queue[0].asof <= f.asof {
      var matched := Min(queue[0].qty, remaining);
      assert TripOf(queue[0], f, matched).units.None?;
      hide TripOf;
      if queue[0].qty - matched <= DUST {
        ClosePlain(queue[1..], f, remaining - matched);
      }
    }
  }

  lemma SettlePlain(book: Book, f: Fill)
    requires BookPlain(book) && f.units.None?
    ensures var (n, trips) := Settle(book, f); BookPlain(n) && TripsPlain(trips)
  {
    ClosePlain(Of(book.open, f.bucket), f, f.qty);
    hide Close;
  }

  lemma {:induction false} FoldPlain(book: Book, fills: seq<Fill>)
    requires BookPlain(book) && forall f :: f in fills ==> f.units.None?
    ensures var (n, trips) := Fold(book, fills); BookPlain(n) && TripsPlain(trips)
  {
    hide Settle, BookPlain;
    if fills != [] {
      assert forall f :: f in Front(fills) ==> f in fills;
      FoldPlain(book, Front(fills));
      SettlePlain(Fold(book, Front(fills)).0, Last(fills));
    }
  }

  lemma {:induction false} PlainTotal(trips: seq<Trip>, m: Option<real>, n: Option<real>)
    requires TripsPlain(trips)
    ensures Total(trips, m) == Total(trips, n)
  {
    if trips != [] {
      assert forall x :: x in Front(trips) ==> x in trips;
      PlainTotal(Front(trips), m, n);
      assert Last(trips).units.None?;
    }
  }

  /** Records of single-leg trades are worth the same fraction at every NAV. */
  lemma SingleLegNeedsNoNav(records: seq<Rec>, m: Option<real>, n: Option<real>)
    requires SingleLeg(records)
    ensures Total(Join(records, []).1, m) == Total(Join(records, []).1, n)
  {
    FreshDefersNothing(records);
    SortMembers(Fills(records), (f: Fill) => f.asof);
    FillsFrom(records);
    hide Join, Fills, Fold, Total;
    forall f | f in ByTime(Fills(records)) ensures f.units.None? {
      var r :| r in records && Normalise(r) == Some(f);
    }
    FoldPlain(FLAT, ByTime(Fills(records)));
    PlainTotal(Join(records, []).1, m, n);
  }
}
