/** Buckets do not touch each other: what the replay makes of some of them is what it makes of
    their records alone, so other accounts count for nothing. */
module BucketFilter {
  import opened Prelude
  import opened ByteLines
  import opened StableSort
  import opened Settlement
  import opened JoinFills
  import opened DeltaNormalizer
  import opened KillSwitchTrail

  type Choice = Bucket -> bool

  function Kept<T>(s: seq<T>, keep: T -> bool): seq<T> {
    if s == [] then []
    else if keep(Last(s)) then Kept(Front(s), keep) + [Last(s)] else Kept(Front(s), keep)
  }

  lemma {:induction false} KeptConcat<T>(a: seq<T>, b: seq<T>, keep: T -> bool)
    ensures Kept(a + b, keep) == Kept(a, keep) + Kept(b, keep)
  {
    if b == [] {
      assert a + b == a;
    } else {
      FrontOfConcat(a, b);
      KeptConcat(a, Front(b), keep);
    }
  }

  lemma {:induction false} KeptMembers<T(!new)>(s: seq<T>, keep: T -> bool)
    ensures forall x :: x in Kept(s, keep) <==> x in s && keep(x)
  {
    if s != [] {
      KeptMembers(Front(s), keep);
      assert s == Front(s) + [Last(s)];
    }
  }

  function OfRecs(choice: Choice): Rec -> bool {
    (r: Rec) => choice(r.bucket)
  }

  function OfFills(choice: Choice): Fill -> bool {
    (f: Fill) => choice(f.bucket)
  }

  function OfTrips(choice: Choice): Trip -> bool {
    (x: Trip) => choice(x.bucket)
  }

  // ---------------------------------------------------------------- sorting

  lemma {:induction false} KeptInsert<T(!new)>(t: seq<T>, x: T, key: T -> int, keep: T -> bool)
    requires Sorted(t, key)
    ensures Kept(Insert(t, x, key), keep) == if keep(x) then Insert(Kept(t, keep), x, key) else Kept(t, keep)
  {
    if t == [] || key(Last(t)) <= key(x) {
      FrontLast(t, x);
      KeptMembers(t, keep);
      var u := Kept(t, keep);
      if u != [] {
        assert Last(u) in u;
        var i :| 0 <= i < |t| && t[i] == Last(u);
        assert key(t[i]) <= key(Last(t));
      }
    } else {
      KeptInsert(Front(t), x, key, keep);
      FrontLast(Insert(Front(t), x, key), Last(t));
      var u := Kept(Front(t), keep);
      FrontLast(u, Last(t));
    }
  }

  /** Sorting some of the elements is some of the sorted ones. */
  lemma {:induction false} KeptSort<T(!new)>(s: seq<T>, key: T -> int, keep: T -> bool)
    ensures Kept(Sort(s, key), keep) == Sort(Kept(s, keep), key)
  {
    if s != [] {
      KeptSort(Front(s), key, keep);
      SortIsStable(Front(s), key);
      KeptInsert(Sort(Front(s), key), Last(s), key, keep);
      if keep(Last(s)) { FrontLast(Kept(Front(s), keep), Last(s)); }
    }
  }

  // ---------------------------------------------------------------- the pre-pass

  lemma {:induction false} KeptNets(records: seq<Rec>, choice: Choice, b: Bucket)
    requires choice(b)
    ensures NetOf(AfterAll(map[], records), b) == NetOf(AfterAll(map[], Kept(records, OfRecs(choice))), b)
  {
    if records != [] {
      var f, r := Front(records), Last(records);
      KeptNets(f, choice, b);
      if choice(r.bucket) { FrontLast(Kept(f, OfRecs(choice)), r); }
    }
  }

  lemma {:induction false} KeptDeltas(records: seq<Rec>, choice: Choice)
    ensures Kept(DeltasFrom(map[], records), OfRecs(choice)) == DeltasFrom(map[], Kept(records, OfRecs(choice)))
  {
    if records != [] {
      var f, r := Front(records), Last(records);
      KeptDeltas(f, choice);
      FrontLast(DeltasFrom(map[], f), r.(fillSize := Num(DeltaFor(AfterAll(map[], f), r))));
      if choice(r.bucket) {
        KeptNets(f, choice, r.bucket);
        FrontLast(Kept(f, OfRecs(choice)), r);
      }
    }
  }

  lemma KeptPrepared(flag: string, records: seq<Rec>, choice: Choice)
    ensures Kept(Prepared(flag, records), OfRecs(choice)) == Prepared(flag, Kept(records, OfRecs(choice)))
  {
    if flag == "1" {
      KeptSort(records, ExecOrder, OfRecs(choice));
      KeptDeltas(Sort(records, ExecOrder), choice);
    }
  }

  // ---------------------------------------------------------------- the fills

  lemma NormaliseKeepsBucket(r: Rec)
    ensures Normalise(r).Some? ==> Normalise(r).value.bucket == r.bucket
  {
  }

  lemma {:induction false} KeptFills(records: seq<Rec>, choice: Choice)
    ensures Kept(Fills(records), OfFills(choice)) == Fills(Kept(records, OfRecs(choice)))
  {
    hide Normalise;
    if records != [] {
      var f, r := Front(records), Last(records);
      KeptFills(f, choice);
      NormaliseKeepsBucket(r);
      if Normalise(r).Some? { FrontLast(Fills(f), Normalise(r).value); }
      if choice(r.bucket) { FrontLast(Kept(f, OfRecs(choice)), r); }
    }
  }

  // ---------------------------------------------------------------- the matching

  /** Two books agree on the chosen buckets. */
  ghost predicate Same(m: Book, n: Book, choice: Choice) {
    forall b :: choice(b) ==> Of(m.open, b) == Of(n.open, b) && Of(m.deferred, b) == Of(n.deferred, b)
  }

  lemma SettleSame(m: Book, n: Book, f: Fill, choice: Choice)
    requires Same(m, n, choice) && choice(f.bucket)
    ensures Settle(m, f).1 == Settle(n, f).1 && Same(Settle(m, f).0, Settle(n, f).0, choice)
  {
    hide Close, LotOf;
  }

  lemma SettleOther(m: Book, n: Book, f: Fill, choice: Choice)
    requires Same(m, n, choice) && !choice(f.bucket)
    ensures Same(Settle(m, f).0, n, choice)
  {
    hide Close, LotOf;
  }

  lemma {:induction false} KeptAll<T(!new)>(s: seq<T>, keep: T -> bool)
    ensures (forall x :: x in s ==> keep(x)) ==> Kept(s, keep) == s
    ensures (forall x :: x in s ==> !keep(x)) ==> Kept(s, keep) == []
  {
    if s != [] {
      KeptAll(Front(s), keep);
      assert s == Front(s) + [Last(s)];
    }
  }

  lemma {:induction false} KeptFold(m: Book, n: Book, fills: seq<Fill>, choice: Choice)
    requires Same(m, n, choice)
    ensures var (p, t) := Fold(m, fills);
            var (q, u) := Fold(n, Kept(fills, OfFills(choice)));
            Same(p, q, choice) && Kept(t, OfTrips(choice)) == u
  {
    hide Settle, Same;
    if fills != [] {
      var f := Last(fills);
      KeptFold(m, n, Front(fills), choice);
      var (p, t) := Fold(m, Front(fills));
      var (q, u) := Fold(n, Kept(Front(fills), OfFills(choice)));
      var more := Settle(p, f).1;
      SettledTrips(p, f);
      KeptConcat(t, more, OfTrips(choice));
      KeptAll(more, OfTrips(choice));
      if choice(f.bucket) {
        SettleSame(p, q, f, choice);
        FrontLast(Kept(Front(fills), OfFills(choice)), f);
      } else {
        SettleOther(p, q, f, choice);
      }
    }
  }

  /** The round trips of the chosen buckets are the round trips of their records. */
  lemma KeptJoin(flag: string, records: seq<Rec>, choice: Choice)
    ensures Kept(Join(Prepared(flag, records), []).1, OfTrips(choice))
         == Join(Prepared(flag, Kept(records, OfRecs(choice))), []).1
  {
    var p := Prepared(flag, records);
    KeptPrepared(flag, records, choice);
    KeptFills(p, choice);
    KeptSort(Fills(p), (f: Fill) => f.asof, OfFills(choice));
    FreshDefersNothing(p);
    FreshDefersNothing(Kept(p, OfRecs(choice)));
    hide Join, Fold, Prepared, Fills, Sort, Kept;
    assert Same(FLAT, FLAT, choice);
    KeptFold(FLAT, FLAT, ByTime(Fills(p)), choice);
  }

  // ---------------------------------------------------------------- the account

  function OfAccount(account: string): Choice {
    (b: Bucket) => b.account == account
  }

  /** The account whose fractions the kill switch adds up. */
  const OWN := "paper-default"

  lemma {:induction false} TotalOfOwn(trips: seq<Trip>, nav: Option<real>)
    ensures Total(trips, nav) == Total(Kept(trips, OfTrips(OfAccount(OWN))), nav)
  {
    if trips != [] {
      TotalOfOwn(Front(trips), nav);
      if Last(trips).bucket.account == OWN {
        FrontLast(Kept(Front(trips), OfTrips(OfAccount(OWN))), Last(trips));
      }
    }
  }

  /** Deleting every record of the other accounts changes no answer, under either flag and at
      any NAV. */
  lemma OtherAccountsCountNothing(flag: string, records: seq<Rec>, nav: Option<real>)
    ensures Replay(flag, records, nav) == Replay(flag, Kept(records, OfRecs(OfAccount(OWN))), nav)
  {
    hide Join, Prepared, Kept, Total;
    KeptJoin(flag, records, OfAccount(OWN));
    TotalOfOwn(Join(Prepared(flag, records), []).1, nav);
  }

  function NoParents(b: Bucket): bool {
    b.assetClass != "multi_leg"
  }

  lemma {:induction false} NoParentFills(records: seq<Rec>)
    ensures forall f :: f in Fills(records) ==> NoParents(f.bucket)
  {
    FillsFrom(records);
    forall f | f in Fills(records) ensures NoParents(f.bucket) {
      var r :| r in records && Normalise(r) == Some(f);
    }
  }

  lemma {:induction false} FoldBuckets(book: Book, fills: seq<Fill>, choice: Choice)
    requires forall f :: f in fills ==> choice(f.bucket)
    ensures forall x :: x in Fold(book, fills).1 ==> choice(x.bucket)
  {
    hide Settle;
    if fills != [] {
      assert fills == Front(fills) + [Last(fills)];
      FoldBuckets(book, Front(fills), choice);
      SettledTrips(Fold(book, Front(fills)).0, Last(fills));
    }
  }

  /** The parent record of a multi-leg family counts for nothing: the legs are the trade. */
  lemma ParentsCountNothing(flag: string, records: seq<Rec>, nav: Option<real>)
    ensures Replay(flag, records, nav) == Replay(flag, Kept(records, OfRecs(NoParents)), nav)
  {
    var p := Prepared(flag, records);
    KeptJoin(flag, records, NoParents);
    FreshDefersNothing(p);
    NoParentFills(p);
    SortMembers(Fills(p), (f: Fill) => f.asof);
    hide Join, Prepared, Kept, Total, Fills;
    FoldBuckets(FLAT, ByTime(Fills(p)), NoParents);
    KeptAll(Join(p, []).1, OfTrips(NoParents));
  }

  // ---------------------------------------------------------------- in money

  /** The round trip's return is its profit over the money put in. */
  predicate Pays(x: Trip) {
    x.ret * (x.entry * x.qty) == Profit(x)
  }

  lemma {:induction false} ClosePays(queue: seq<Lot>, f: Fill, remaining: real)
    ensures forall x :: x in Close(queue, f, remaining).trips ==> Pays(x)
  {
    hide TripOf, Pays;
    if remaining > DUST && queue != [] && queue[0].asof <= f.asof {
      TripPays(queue[0], f, Min(queue[0].qty, remaining));
      ClosePays(queue[1..], f, remaining - Min(queue[0].qty, remaining));
    }
  }

  lemma TripPays(lot: Lot, f: Fill, matched: pos)
    ensures Pays(TripOf(lot, f, matched))
  {
    ReturnIsProfit(lot, f, matched);
    hide TripOf, Profit;
  }

  lemma {:induction false} FoldPays(book: Book, fills: seq<Fill>)
    ensures forall x :: x in Fold(book, fills).1 ==> Pays(x)
  {
    hide Pays, Close, LotOf;
    if fills != [] {
      FoldPays(book, Front(fills));
      ClosePays(Of(Fold(book, Front(fills)).0.open, Last(fills).bucket), Last(fills), Last(fills).qty);
    }
  }

  /** The money a unit of the asset stands for. */
  function Multiplier(x: Trip): real {
    if x.bucket.assetClass == "us_option" then 100.0 else 1.0
  }

  /** What one round trip counts for: nothing in another account; with true units and a NAV, the
      profit per unit of quantity times those units, over NAV; else the profit over the entry
      price. */
  lemma TermIsMoney(x: Trip, nav: Option<real>)
    requires Pays(x)
    ensures x.bucket.account != OWN ==> Term(x, nav) == 0.0
    ensures x.bucket.account == OWN && x.units.Some? && nav.Some? && nav.value > 0.0 ==>
              Term(x, nav) * nav.value * x.qty == Profit(x) * (Abs(x.units.value) * Multiplier(x))
    ensures x.bucket.account == OWN && (x.units.None? || nav.None? || nav.value <= 0.0) ==>
              Term(x, nav) * x.entry == Profit(x)
  {
    hide Profit;
    if x.bucket.account == OWN {
      if x.units.Some? && nav.Some? && nav.value > 0.0 {
        var u, n := Abs(x.units.value) * x.entry * Multiplier(x), nav.value;
        Ratio(u, n);
        assert Term(x, nav) == x.ret * (u / n);
        Products(x.ret, u / n, n, x.qty, u);
        Regroup(x.ret, Abs(x.units.value), x.entry, Multiplier(x), x.qty);
      } else {
        Regroup(x.ret, 1.0, x.entry, 1.0, x.qty);
      }
    }
  }

  lemma Products(r: real, q: real, n: real, m: real, u: real)
    requires q * n == u
    ensures r * q * n * m == r * u * m
  {
    assert r * q * n == r * (q * n);
  }

  lemma Regroup(r: real, u: real, e: real, m: real, q: real)
    ensures r * (u * e * m) * q == r * (e * q) * (u * m)
  {
    assert u * e * m == e * (u * m);
    assert r * (e * (u * m)) * q == r * e * (u * m) * q == r * e * q * (u * m);
    assert r * e * q == r * (e * q);
  }
}
