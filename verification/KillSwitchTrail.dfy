/** What the kill-switch basis compares: the replay of everything, and the sum a sequence of
    batches adds up to. */
module KillSwitchTrail {
  import opened Prelude
  import opened ByteLines
  import opened Settlement
  import opened JoinFills
  import opened NavShare
  import opened DeltaNormalizer

  // ---------------------------------------------------------------- full replay

  /** The normaliser pre-pass runs under flag "1" only. */
  function Prepared(flag: string, records: seq<Rec>): seq<Rec> {
    if flag == "1" then Deltas(records) else records
  }

  /** What a full, sorted replay makes of the records. */
  function Replay(flag: string, records: seq<Rec>, nav: Option<real>): real {
    Total(Join(Prepared(flag, records), []).1, nav)
  }

  lemma NothingIsZero(flag: string, nav: Option<real>)
    ensures Prepared(flag, []) == [] && Replay(flag, [], nav) == 0.0
  {
  }

  // ---------------------------------------------------------------- the guard

  /** Least and greatest guard time of the records that have one. */
  function Lower(a: Option<int>, b: Option<int>): Option<int> {
    if a.None? then b else if b.None? || a.value <= b.value then a else b
  }

  function Upper(a: Option<int>, b: Option<int>): Option<int> {
    if a.None? then b else if b.None? || b.value <= a.value then a else b
  }

  function Earliest(records: seq<Rec>): Option<int> {
    if records == [] then None else Lower(Earliest(Front(records)), GuardKey(Last(records)))
  }

  function Latest(records: seq<Rec>): Option<int> {
    if records == [] then None else Upper(Latest(Front(records)), GuardKey(Last(records)))
  }

  method Bounds(records: seq<Rec>) returns (lo: Option<int>, hi: Option<int>)
    ensures lo == Earliest(records) && hi == Latest(records)
  {
    lo, hi := None, None;
    for i := 0 to |records|
      invariant lo == Earliest(records[..i]) && hi == Latest(records[..i])
    {
      assert Front(records[..i + 1]) == records[..i];
      var key := GuardKey(records[i]);
      if key.Some? {
        lo := if lo.None? || key.value < lo.value then key else lo;
        hi := if hi.None? || key.value > hi.value then key else hi;
      }
    }
    assert records[..|records|] == records;
  }

  lemma {:induction false} BoundsBound(records: seq<Rec>, r: Rec)
    requires r in records && GuardKey(r).Some?
    ensures Earliest(records).Some? && Earliest(records).value <= GuardKey(r).value
    ensures Latest(records).Some? && GuardKey(r).value <= Latest(records).value
  {
    if r != Last(records) {
      assert records == Front(records) + [Last(records)];
      BoundsBound(Front(records), r);
    }
  }

  lemma {:induction false} LatestConcat(a: seq<Rec>, b: seq<Rec>)
    ensures Latest(a + b) == Upper(Latest(a), Latest(b))
  {
    if b == [] {
      assert a + b == a;
    } else {
      FrontOfConcat(a, b);
      LatestConcat(a, Front(b));
    }
  }

  /** The batch holds nothing the guard can see to be earlier than the checkpoint. */
  predicate Passes(seen: Option<int>, batch: seq<Rec>) {
    seen.None? || Earliest(batch).None? || seen.value <= Earliest(batch).value
  }

  /** The guard compares the time the matcher sorts by. */
  predicate KeysAgree(r: Rec) {
    Normalise(r).Some? ==> GuardKey(r) == SortKey(r)
  }

  predicate Honest(records: seq<Rec>) {
    forall r :: r in records ==> KeysAgree(r)
  }

  /** The pre-pass leaves every record's two times alone. */
  lemma PreparedFrom(flag: string, records: seq<Rec>, p: Rec) returns (r: Rec)
    requires p in Prepared(flag, records)
    ensures r in records && Resized(p, r)
  {
    if flag == "1" {
      r := DeltaOf(records, p);
    } else {
      r := p;
    }
  }

  /** Where the two keys agree, a batch that passes the guard holds no earlier fill. */
  lemma GuardIsSound(flag: string, a: seq<Rec>, b: seq<Rec>)
    requires Honest(Prepared(flag, a)) && Honest(Prepared(flag, b)) && Passes(Latest(a), b)
    ensures NotAfter(Fills(Prepared(flag, a)), Fills(Prepared(flag, b)))
  {
    var x, y := Prepared(flag, a), Prepared(flag, b);
    FillsFrom(x);
    FillsFrom(y);
    hide Prepared, Fills;
    forall f, g | f in Fills(x) && g in Fills(y) ensures f.asof <= g.asof {
      var q :| q in x && Normalise(q) == Some(f);
      var r :| r in y && Normalise(r) == Some(g);
      var c := PreparedFrom(flag, a, q);
      var d := PreparedFrom(flag, b, r);
      BoundsBound(a, c);
      BoundsBound(b, d);
    }
  }

  // ---------------------------------------------------------------- batches

  /** The records one tick consumed, and the account's NAV at that tick. */
  datatype Batch = Batch(records: seq<Rec>, nav: Option<real>)

  function RecordsOf(trail: seq<Batch>): seq<Rec> {
    if trail == [] then [] else RecordsOf(Front(trail)) + Last(trail).records
  }

  /** The pre-pass makes of the batch what it makes of it in the whole stream. */
  predicate Additive(flag: string, a: seq<Rec>, b: seq<Rec>) {
    Prepared(flag, a + b) == Prepared(flag, a) + Prepared(flag, b)
  }

  /** Under flag "1" that is the normaliser's condition; without it, no condition at all. */
  lemma AdditiveIff(flag: string, a: seq<Rec>, b: seq<Rec>)
    ensures Additive(flag, a, b) <==> (flag == "1" ==> Ordered(a, b) && RetargetsFlat(a, b))
  {
    FreshNormaliserIff(a, b);
  }

  predicate Smooth(flag: string, trail: seq<Batch>) {
    trail == [] || (Smooth(flag, Front(trail)) && Additive(flag, RecordsOf(Front(trail)), Last(trail).records))
  }

  lemma {:induction false} SmoothWithoutFlag(flag: string, trail: seq<Batch>)
    requires flag != "1"
    ensures Smooth(flag, trail)
  {
    if trail != [] {
      SmoothWithoutFlag(flag, Front(trail));
    }
  }

  /** Each batch's round trips at the NAV of the tick that consumed it. */
  function Frozen(flag: string, trail: seq<Batch>): real {
    if trail == [] then 0.0
    else
      var all, b := RecordsOf(trail), Last(trail);
      Frozen(flag, Front(trail)) + (Replay(flag, all, b.nav) - Replay(flag, RecordsOf(Front(trail)), b.nav))
  }

  /** One batch stands for itself; several need agreeing times and a smooth pre-pass. */
  predicate Sound(flag: string, trail: seq<Batch>) {
    |trail| <= 1 || (Honest(Prepared(flag, RecordsOf(trail))) && Smooth(flag, trail))
  }

  lemma OneBatch(flag: string, b: Batch)
    ensures RecordsOf([b]) == b.records && Sound(flag, [b]) && Frozen(flag, [b]) == Replay(flag, b.records, b.nav)
  {
    assert Front([b]) == [] && RecordsOf([]) == [] && [] + b.records == b.records;
    NothingIsZero(flag, b.nav);
    hide Replay;
  }

  lemma RecordsOfNext(trail: seq<Batch>, b: Batch)
    ensures RecordsOf(trail + [b]) == RecordsOf(trail) + b.records
  {
    FrontLast(trail, b);
  }

  lemma SoundBefore(flag: string, trail: seq<Batch>, b: Batch)
    requires trail != [] && Sound(flag, trail + [b])
    ensures Sound(flag, trail) && Additive(flag, RecordsOf(trail), b.records)
    ensures Honest(Prepared(flag, RecordsOf(trail))) && Honest(Prepared(flag, b.records))
  {
    FrontLast(trail, b);
    hide Prepared, RecordsOf, KeysAgree;
    RecordsOfNext(trail, b);
    var x, y := Prepared(flag, RecordsOf(trail)), Prepared(flag, b.records);
    assert forall r :: r in x ==> r in x + y;
    assert forall r :: r in y ==> r in x + y;
  }

  /** Consuming a batch that passes the guard adds to the sum what it adds to the replay. */
  lemma {:induction false} TrailGrows(flag: string, trail: seq<Batch>, b: Batch, es: Carry)
    requires trail != [] && Sound(flag, trail + [b]) && Passes(Latest(RecordsOf(trail)), b.records)
    requires IsCarryOf(es, Join(Prepared(flag, RecordsOf(trail)), []).0)
    ensures var (book, trips) := Join(Prepared(flag, b.records), es);
            && Join(Prepared(flag, RecordsOf(trail + [b])), []).0 == book
            && Frozen(flag, trail + [b]) == Frozen(flag, trail) + Total(trips, b.nav)
  {
    hide Prepared, Join, Total, IsCarryOf, Honest, Fills, Passes, Smooth, RecordsOf;
    SoundBefore(flag, trail, b);
    RecordsOfNext(trail, b);
    GuardIsSound(flag, RecordsOf(trail), b.records);
    var x, y := Prepared(flag, RecordsOf(trail)), Prepared(flag, b.records);
    JoinInBatches(x, y, es);
    TotalConcat(Join(x, []).1, Join(y, es).1, b.nav);
    FrontLast(trail, b);
  }

  // ---------------------------------------------------------------- when the sum is the replay

  predicate SteadyNav(trail: seq<Batch>, nav: Option<real>) {
    forall b :: b in trail ==> b.nav == nav
  }

  lemma {:induction false} SteadyIsReplay(flag: string, trail: seq<Batch>, nav: Option<real>)
    requires SteadyNav(trail, nav)
    ensures Frozen(flag, trail) == Replay(flag, RecordsOf(trail), nav)
  {
    if trail == [] {
      NothingIsZero(flag, nav);
    } else {
      assert forall b :: b in Front(trail) ==> b in trail;
      assert Last(trail) in trail;
      SteadyIsReplay(flag, Front(trail), nav);
    }
    hide Replay;
  }

  lemma PreparedSingleLeg(flag: string, records: seq<Rec>)
    requires SingleLeg(records)
    ensures SingleLeg(Prepared(flag, records))
  {
    forall p | p in Prepared(flag, records) ensures !(p.multiLeg && p.shares.Num?) {
      var r := PreparedFrom(flag, records, p);
    }
  }

  lemma {:induction false} SingleLegIsReplay(flag: string, trail: seq<Batch>, nav: Option<real>)
    requires SingleLeg(RecordsOf(trail))
    ensures Frozen(flag, trail) == Replay(flag, RecordsOf(trail), nav)
  {
    if trail == [] {
      NothingIsZero(flag, nav);
    } else {
      var all, b := RecordsOf(trail), Last(trail);
      assert forall r :: r in RecordsOf(Front(trail)) ==> r in all;
      SingleLegIsReplay(flag, Front(trail), b.nav);
      PreparedSingleLeg(flag, all);
      SingleLegNeedsNoNav(Prepared(flag, all), b.nav, nav);
    }
    hide Prepared, Join, Total;
  }

  /** Either NAV never moved, or nothing depends on it. */
  predicate NavFits(trail: seq<Batch>, nav: Option<real>) {
    SteadyNav(trail, nav) || SingleLeg(RecordsOf(trail))
  }

  lemma FrozenIsReplay(flag: string, trail: seq<Batch>, nav: Option<real>)
    requires NavFits(trail, nav)
    ensures Frozen(flag, trail) == Replay(flag, RecordsOf(trail), nav)
  {
    hide Frozen, Replay, RecordsOf;
    if SteadyNav(trail, nav) {
      SteadyIsReplay(flag, trail, nav);
    } else {
      SingleLegIsReplay(flag, trail, nav);
    }
  }

  /** Batches consumed at one NAV are worth the replay at another iff the two are one or the
      settled multi-leg money nets to nothing. */
  lemma {:induction false} FrozenAtOldNavIff(flag: string, trail: seq<Batch>, m: real, n: real)
    requires m > 0.0 && n > 0.0 && SteadyNav(trail, Some(m))
    ensures Frozen(flag, trail) == Replay(flag, RecordsOf(trail), Some(n))
            <==> m == n || LegsMoney(Join(Prepared(flag, RecordsOf(trail)), []).1) == 0.0
  {
    SteadyIsReplay(flag, trail, Some(m));
    hide Frozen, Prepared, RecordsOf, Join, Total, LegsMoney;
    NavMattersIff(Join(Prepared(flag, RecordsOf(trail)), []).1, m, n);
  }

  /** The multi-leg money the replay of the batches has settled. */
  function LegsSettled(flag: string, trail: seq<Batch>): real {
    LegsMoney(Join(Prepared(flag, RecordsOf(trail)), []).1)
  }

  /** Money as a fraction of a NAV, where there is one. */
  function Over(x: real, nav: Option<real>): real {
    if nav.Some? && nav.value > 0.0 then x / nav.value else 0.0
  }

  predicate Readable(nav: Option<real>) {
    nav.Some? && nav.value > 0.0
  }

  /** Each batch was consumed at a readable NAV. */
  predicate Priced(trail: seq<Batch>) {
    forall b :: b in trail ==> Readable(b.nav)
  }

  /** What the batches' own NAVs make of their multi-leg money, beyond what one NAV makes of it. */
  function Drift(flag: string, trail: seq<Batch>, nav: Option<real>): real {
    if trail == [] then 0.0
    else
      var money := LegsSettled(flag, trail) - LegsSettled(flag, Front(trail));
      Drift(flag, Front(trail), nav) + (Over(money, Last(trail).nav) - Over(money, nav))
  }

  lemma ReplayAtNav(flag: string, trail: seq<Batch>, nav: Option<real>)
    requires Readable(nav)
    ensures Replay(flag, RecordsOf(trail), nav)
         == OwnFraction(Join(Prepared(flag, RecordsOf(trail)), []).1) + Over(LegsSettled(flag, trail), nav)
  {
    assert nav == Some(nav.value);
    hide Join, Prepared, RecordsOf, Total, OwnFraction, LegsMoney;
    TotalAtNav(Join(Prepared(flag, RecordsOf(trail)), []).1, nav.value);
  }

  lemma LessOver(x: real, y: real, nav: Option<real>)
    ensures Over(x - y, nav) == Over(x, nav) - Over(y, nav)
  {
  }

  /** What moving from one NAV to another does to the difference of two replays. */
  lemma DifferenceDrifts(flag: string, x: seq<Batch>, y: seq<Batch>, m: Option<real>, n: Option<real>)
    requires Readable(m) && Readable(n)
    ensures var money := LegsSettled(flag, x) - LegsSettled(flag, y);
            Replay(flag, RecordsOf(x), m) - Replay(flag, RecordsOf(y), m)
            == Replay(flag, RecordsOf(x), n) - Replay(flag, RecordsOf(y), n) + (Over(money, m) - Over(money, n))
  {
    hide Replay, LegsSettled, RecordsOf, Over, OwnFraction, Join, Prepared, Readable;
    ReplayAtNav(flag, x, m);
    ReplayAtNav(flag, x, n);
    ReplayAtNav(flag, y, m);
    ReplayAtNav(flag, y, n);
    LessOver(LegsSettled(flag, x), LegsSettled(flag, y), m);
    LessOver(LegsSettled(flag, x), LegsSettled(flag, y), n);
  }

  lemma PricedFront(trail: seq<Batch>)
    requires Priced(trail) && trail != []
    ensures Priced(Front(trail)) && Readable(Last(trail).nav)
  {
    assert trail == Front(trail) + [Last(trail)];
    hide Readable;
  }

  lemma {:induction false} FrozenDrifts(flag: string, trail: seq<Batch>, nav: Option<real>)
    requires Priced(trail) && Readable(nav)
    ensures Frozen(flag, trail) == Replay(flag, RecordsOf(trail), nav) + Drift(flag, trail, nav)
  {
    if trail == [] {
      NothingIsZero(flag, nav);
    } else {
      PricedFront(trail);
      hide Replay, LegsSettled, RecordsOf, Over, Priced, Readable;
      FrozenDrifts(flag, Front(trail), nav);
      DifferenceDrifts(flag, trail, Front(trail), Last(trail).nav, nav);
    }
  }

  /** Batches consumed at any NAVs are worth the replay at one NAV iff that drift nets to nothing. */
  lemma FrozenIsReplayIff(flag: string, trail: seq<Batch>, nav: Option<real>)
    requires Priced(trail) && Readable(nav)
    ensures Frozen(flag, trail) == Replay(flag, RecordsOf(trail), nav) <==> Drift(flag, trail, nav) == 0.0
  {
    FrozenDrifts(flag, trail, nav);
    hide Frozen, Replay, Drift;
  }
}
