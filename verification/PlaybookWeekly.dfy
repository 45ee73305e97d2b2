/** The weekly exit playbook: which fill established a held position, and once-only closes. */
module PlaybookWeekly {
  import opened Prelude
  import opened ByteLines

  // ---------------------------------------------------------------- the establishing leg

  /** An execution record; an empty `side` stands for a missing or non-string one. */
  datatype Rec = Rec(asset: string, account: string, side: string, target: Field, fill: Field)

  function SideOf(r: Rec): string {
    if r.side != "" then r.side
    else
      var f := if Absent(r.target) then r.fill else r.target;
      if !f.Num? || f.v == 0.0 then "" else if f.v > 0.0 then "buy" else "sell"
  }

  datatype Query = Query(asset: string, account: string, qty: real)

  function HeldSide(q: Query): string {
    if q.qty < 0.0 then "sell" else "buy"
  }

  predicate Ours(r: Rec, q: Query) {
    r.asset == q.asset && r.account == q.account
  }

  /** A fill of ours on the held side. */
  predicate Held(r: Rec, q: Query) {
    Ours(r, q) && SideOf(r) == HeldSide(q)
  }

  /** A fill is held-side iff it is ours and buys into a long or sells into a short: by its own side,
      or where it has none by the sign of its target, or of its size where the target is absent. */
  lemma HeldTells(r: Rec, q: Query)
    ensures var size := if r.target.Missing? || r.target.Null? then r.fill else r.target;
            Held(r, q) <==>
              && r.asset == q.asset && r.account == q.account
              && (if q.qty < 0.0 then r.side == "sell" || (r.side == "" && size.Num? && size.v < 0.0)
                  else r.side == "buy" || (r.side == "" && size.Num? && size.v > 0.0))
  {
  }

  /** Fill `i` is our last one before `k`. */
  ghost predicate JustBefore(recs: seq<Rec>, q: Query, i: int, k: int) {
    0 <= i < k <= |recs| && Ours(recs[i], q) && forall j :: i < j < k ==> !Ours(recs[j], q)
  }

  /** Fill `k` is the first of a block of held-side fills: our fill just before it, if there is
      one, is a flat or a flip. */
  ghost predicate Opens(recs: seq<Rec>, q: Query, k: int) {
    0 <= k < |recs| && Held(recs[k], q) && forall i :: JustBefore(recs, q, i, k) ==> !Held(recs[i], q)
  }

  /** The first fill of the last block; none if no fill of ours is on the held side. */
  ghost predicate Establishes(recs: seq<Rec>, q: Query, leg: Option<nat>) {
    match leg
    case None => forall k :: 0 <= k < |recs| ==> !Held(recs[k], q)
    case Some(k) => Opens(recs, q, k) && forall j :: k < j < |recs| ==> !Opens(recs, q, j)
  }

  /** Whether our last fill is a flat or a flip. */
  ghost predicate EndsAway(recs: seq<Rec>, q: Query) {
    exists i :: JustBefore(recs, q, i, |recs|) && !Held(recs[i], q)
  }

  lemma JustBeforeUnique(recs: seq<Rec>, q: Query, i: int, j: int, k: int)
    requires JustBefore(recs, q, i, k) && JustBefore(recs, q, j, k)
    ensures i == j
  {
  }

  /** One more fill: only one that opens a block moves the answer. */
  lemma OneMoreFill(recs: seq<Rec>, r: Rec, q: Query, leg: Option<nat>)
    requires Establishes(recs, q, leg)
    ensures Establishes(recs + [r], q, if Held(r, q) && (leg.None? || EndsAway(recs, q)) then Some(|recs|) else leg)
  {
    var all := recs + [r];
    forall k | 0 <= k < |recs| ensures Opens(all, q, k) <==> Opens(recs, q, k) {
      forall i ensures JustBefore(all, q, i, k) <==> JustBefore(recs, q, i, k) {
        assert forall j :: 0 <= j < k ==> all[j] == recs[j];
      }
    }
    forall i ensures JustBefore(all, q, i, |recs|) <==> JustBefore(recs, q, i, |recs|) {
      assert forall j :: 0 <= j < |recs| ==> all[j] == recs[j];
    }
    if Held(r, q) && !(leg.None? || EndsAway(recs, q)) {
      BlockGoesOn(recs, q, leg.value);
    }
  }

  /** A held-side fill does not open a block when our last fill before it is held-side. */
  lemma BlockGoesOn(recs: seq<Rec>, q: Query, k: nat)
    requires Opens(recs, q, k) && !EndsAway(recs, q)
    ensures exists i :: JustBefore(recs, q, i, |recs|) && Held(recs[i], q)
  {
    var i := LastOurs(recs, q, k);
  }

  lemma LastOurs(recs: seq<Rec>, q: Query, k: nat) returns (i: nat)
    requires k < |recs| && Ours(recs[k], q)
    ensures k <= i && JustBefore(recs, q, i, |recs|)
  {
    i := k;
    for j := k + 1 to |recs|
      invariant k <= i < j && JustBefore(recs, q, i, j)
    {
      if Ours(recs[j], q) { i := j; }
    }
  }

  lemma NextEndsAway(recs: seq<Rec>, r: Rec, q: Query)
    ensures EndsAway(recs + [r], q) <==> if Ours(r, q) then !Held(r, q) else EndsAway(recs, q)
  {
    var all := recs + [r];
    assert all[|recs|] == r;
    if Ours(r, q) {
      assert JustBefore(all, q, |recs|, |all|);
      forall i | JustBefore(all, q, i, |all|) ensures i == |recs| {
        JustBeforeUnique(all, q, i, |recs|, |all|);
      }
    } else {
      forall i ensures JustBefore(all, q, i, |all|) <==> JustBefore(recs, q, i, |recs|) {
        assert forall j :: 0 <= j < |recs| ==> all[j] == recs[j];
      }
    }
  }

  /** `_establishing_leg`. */
  method EstablishingLeg(recs: seq<Rec>, q: Query) returns (leg: Option<nat>)
    ensures Establishes(recs, q, leg)
    ensures leg.Some? ==> Held(recs[leg.value], q)
  {
    hide Establishes, EndsAway, Held, SideOf;
    leg := None;
    var boundary := false;
    NothingYet(q);
    assert recs[..0] == [];
    for i := 0 to |recs|
      invariant Establishes(recs[..i], q, leg)
      invariant leg.Some? ==> boundary == EndsAway(recs[..i], q)
    {
      assert recs[..i + 1] == recs[..i] + [recs[i]];
      OneMoreFill(recs[..i], recs[i], q, leg);
      NextEndsAway(recs[..i], recs[i], q);
      HeldIs(recs[i], q);
      if recs[i].asset != q.asset || recs[i].account != q.account {
        continue;
      }
      if SideOf(recs[i]) == HeldSide(q) {
        if leg.None? || boundary {
          leg := Some(i);
          boundary := false;
        }
      } else {
        boundary := true;
      }
    }
    assert recs[..|recs|] == recs;
    if leg.Some? { EstablishedIsHeld(recs, q, leg.value); }
  }

  lemma EstablishedIsHeld(recs: seq<Rec>, q: Query, k: nat)
    requires Establishes(recs, q, Some(k))
    ensures k < |recs| && Held(recs[k], q)
  {
  }

  lemma HeldIs(r: Rec, q: Query)
    ensures Held(r, q) <==> r.asset == q.asset && r.account == q.account && SideOf(r) == HeldSide(q)
    ensures Ours(r, q) <==> r.asset == q.asset && r.account == q.account
  {
    hide SideOf;
  }

  lemma NothingYet(q: Query)
    ensures Establishes([], q, None) && !EndsAway([], q)
  {
  }

  /** There is one answer. */
  lemma EstablishingUnique(recs: seq<Rec>, q: Query, a: Option<nat>, b: Option<nat>)
    requires Establishes(recs, q, a) && Establishes(recs, q, b)
    ensures a == b
  {
  }

  /** Adds, flats, flips and other books' fills never move the anchor; a re-open after a flat or
      a flip always does. */
  lemma AnchorMovesIffReopened(recs: seq<Rec>, r: Rec, q: Query, before: nat, after: Option<nat>)
    requires Establishes(recs, q, Some(before)) && Establishes(recs + [r], q, after)
    ensures after == (if Held(r, q) && EndsAway(recs, q) then Some(|recs|) else Some(before))
  {
    OneMoreFill(recs, r, q, Some(before));
    EstablishingUnique(recs + [r], q, after, if Held(r, q) && EndsAway(recs, q) then Some(|recs|) else Some(before));
  }

  // ---------------------------------------------------------------- once-only closes

  datatype Key = Key(symbol: string, play: string, monday: string)

  datatype Act = Close | CloseFailed | DryRunClose | Hold | SkipIdempotent | SkipNoMark | Fault | OptionsTodo

  datatype Entry = Entry(key: Key, act: Act, armed: bool)

  /** What a run finds for one position: an option, no opening fill, no mark, or a rule's
      verdict and, if it closes, whether the order fills. */
  datatype Find = OptionLeg | NoOpening | NoMark | Holds | Closes(fills: bool)

  /** `readable` says the journal could be read down to a close on record, `kept` that the
      journal write worked; a failure of either is only logged. */
  datatype Position = Position(symbol: string, play: string, find: Find, readable: bool, kept: bool)

  datatype Run = Run(monday: string, armed: bool, positions: seq<Position>)

  /** One position of one run. */
  datatype Visit = Visit(key: Key, armed: bool, find: Find, readable: bool, kept: bool)

  predicate Fired(journal: seq<Entry>, key: Key) {
    exists e :: e in journal && e.key == key && e.act == Close && e.armed
  }

  /** A journal that cannot be read has no close on record. */
  method FiredThisWeek(journal: Option<seq<Entry>>, key: Key) returns (yes: bool)
    ensures yes <==> journal.Some? && Fired(journal.value, key)
  {
    if journal.None? {
      return false;
    }
    var rows := journal.value;
    for i := 0 to |rows|
      invariant forall e :: e in rows[..i] ==> !(e.key == key && e.act == Close && e.armed)
    {
      if rows[i].key == key && rows[i].act == Close && rows[i].armed {
        return true;
      }
    }
    assert rows[..|rows|] == rows;
    yes := false;
  }

  /** What the run does about one position. */
  function Verdict(journal: seq<Entry>, v: Visit): Act {
    if v.find.OptionLeg? then OptionsTodo
    else if v.find.NoOpening? then Fault
    else if v.armed && v.readable && Fired(journal, v.key) then SkipIdempotent
    else if v.find.NoMark? then SkipNoMark
    else if v.find.Holds? then Hold
    else if !v.armed then DryRunClose
    else if v.find.fills then Close else CloseFailed
  }

  /** The verdict by what the run finds. Only an armed run acts, and it neither acts nor looks further
      where a readable journal shows an armed close of the key. */
  lemma VerdictTells(journal: seq<Entry>, v: Visit)
    ensures var act := Verdict(journal, v);
            var done := v.armed && v.readable && exists e :: e in journal && e == Entry(v.key, Close, true);
            && (act == OptionsTodo <==> v.find.OptionLeg?)
            && (act == Fault <==> v.find.NoOpening?)
            && (act == SkipIdempotent <==> done && !v.find.OptionLeg? && !v.find.NoOpening?)
            && (act == SkipNoMark <==> !done && v.find.NoMark?)
            && (act == Hold <==> !done && v.find.Holds?)
            && (act == DryRunClose <==> !v.armed && v.find.Closes?)
            && (act == Close <==> !done && v.armed && v.find == Closes(true))
            && (act == CloseFailed <==> !done && v.armed && v.find == Closes(false))
  {
    assert Fired(journal, v.key) <==> exists e :: e in journal && e == Entry(v.key, Close, true);
    hide Fired;
  }

  /** The journal and the close orders that filled. */
  datatype Ledger = Ledger(journal: seq<Entry>, filled: seq<Key>)

  const EMPTY := Ledger([], [])

  function Visited(l: Ledger, v: Visit): Ledger {
    var act := Verdict(l.journal, v);
    Ledger(if v.kept then l.journal + [Entry(v.key, act, v.armed)] else l.journal,
           if act == Close then l.filled + [v.key] else l.filled)
  }

  function After(l: Ledger, vs: seq<Visit>): Ledger {
    if vs == [] then l else Visited(After(l, Front(vs)), Last(vs))
  }

  function VisitOf(run: Run, p: Position): Visit {
    Visit(Key(p.symbol, if p.find.OptionLeg? then "options" else p.play, run.monday), run.armed, p.find, p.readable, p.kept)
  }

  function VisitsOf(run: Run): seq<Visit> {
    seq(|run.positions|, i requires 0 <= i < |run.positions| => VisitOf(run, run.positions[i]))
  }

  /** The visits of sequential runs, in order. */
  function AllVisits(runs: seq<Run>): seq<Visit> {
    if runs == [] then [] else AllVisits(Front(runs)) + VisitsOf(Last(runs))
  }

  /** The per-position part of `run_weekly`. */
  method RunWeekly(start: Ledger, run: Run) returns (l: Ledger)
    ensures l == After(start, VisitsOf(run))
  {
    hide Visited, VisitOf;
    var vs := VisitsOf(run);
    l := start;
    for i := 0 to |run.positions|
      invariant l == After(start, vs[..i])
    {
      assert Front(vs[..i + 1]) == vs[..i];
      l := VisitOne(l, VisitOf(run, run.positions[i]));
    }
    assert vs[..|vs|] == vs;
  }

  method VisitOne(start: Ledger, v: Visit) returns (l: Ledger)
    ensures l == Visited(start, v)
  {
    l := start;
    var act := Hold;
    if v.find.OptionLeg? {
      act := OptionsTodo;
    } else if v.find.NoOpening? {
      act := Fault;
    } else {
      var fired := false;
      if v.armed {
        fired := FiredThisWeek(if v.readable then Some(l.journal) else None, v.key);
      }
      if fired {
        act := SkipIdempotent;
      } else if v.find.NoMark? {
        act := SkipNoMark;
      } else if v.find.Closes? {
        if !v.armed {
          act := DryRunClose;
        } else if v.find.fills {
          act := Close;
          l := l.(filled := l.filled + [v.key]);
        } else {
          act := CloseFailed;
        }
      }
    }
    if v.kept {
      l := l.(journal := l.journal + [Entry(v.key, act, v.armed)]);
    }
  }

  function Count<T(==)>(s: seq<T>, x: T): nat {
    if s == [] then 0 else Count(Front(s), x) + (if Last(s) == x then 1 else 0)
  }

  lemma CountSnoc<T>(s: seq<T>, y: T, x: T)
    ensures Count(s + [y], x) == Count(s, x) + (if y == x then 1 else 0)
  {
    FrontLast(s, y);
  }

  lemma {:induction false} CountIn<T>(s: seq<T>, x: T)
    ensures Count(s, x) > 0 <==> x in s
  {
    if s != [] {
      CountIn(Front(s), x);
      assert s == Front(s) + [Last(s)];
    }
  }

  function Record(key: Key): Entry {
    Entry(key, Close, true)
  }

  /** An armed visit that finds the key's close due, and whose order would fill. */
  predicate Closing(v: Visit, key: Key) {
    v.key == key && v.armed && v.find == Closes(true)
  }

  predicate AnyClosing(vs: seq<Visit>, key: Key) {
    exists i :: 0 <= i < |vs| && Closing(vs[i], key)
  }

  /** One of the visits closed the key and its journal write worked. */
  predicate KeptClosing(vs: seq<Visit>, key: Key) {
    exists i :: 0 <= i < |vs| && Closing(vs[i], key) && vs[i].kept
  }

  lemma AnyClosingSnoc(vs: seq<Visit>, v: Visit, key: Key)
    ensures AnyClosing(vs + [v], key) <==> AnyClosing(vs, key) || Closing(v, key)
    ensures KeptClosing(vs + [v], key) <==> KeptClosing(vs, key) || (Closing(v, key) && v.kept)
  {
    var all := vs + [v];
    assert all[|vs|] == v;
    assert forall i :: 0 <= i < |vs| ==> all[i] == vs[i];
  }

  /** A visit due after another one of its key is covered when the journal can be read and a
      close before it was written down. */
  predicate Covered(vs: seq<Visit>, j: int, key: Key)
    requires 0 <= j < |vs|
  {
    vs[j].readable && KeptClosing(vs[..j], key)
  }

  /** Every due close of the key after the first is covered. */
  predicate FillsGuarded(vs: seq<Visit>, key: Key) {
    forall j :: 0 <= j < |vs| && Closing(vs[j], key) && AnyClosing(vs[..j], key) ==> Covered(vs, j, key)
  }

  /** No due close is written down under an unreadable journal after another one was. */
  predicate RecordsGuarded(vs: seq<Visit>, key: Key) {
    forall j :: 0 <= j < |vs| && Closing(vs[j], key) && vs[j].kept && KeptClosing(vs[..j], key) ==> vs[j].readable
  }

  lemma GuardedSnoc(vs: seq<Visit>, v: Visit, key: Key)
    ensures FillsGuarded(vs + [v], key) <==>
              FillsGuarded(vs, key) && (Closing(v, key) && AnyClosing(vs, key) ==> v.readable && KeptClosing(vs, key))
    ensures RecordsGuarded(vs + [v], key) <==>
              RecordsGuarded(vs, key) && (Closing(v, key) && v.kept && KeptClosing(vs, key) ==> v.readable)
  {
    hide KeptClosing, AnyClosing;
    var all := vs + [v];
    assert all[..|vs|] == vs && all[|vs|] == v;
    forall j | 0 <= j < |vs| ensures all[j] == vs[j] && all[..j] == vs[..j] {
    }
  }

  /** What the ledger knows of a key, from the visits alone. */
  lemma {:induction false} LedgerOf(vs: seq<Visit>, key: Key)
    ensures var l := After(EMPTY, vs);
            && (Count(l.filled, key) > 0 <==> AnyClosing(vs, key))
            && (Count(l.journal, Record(key)) > 0 <==> KeptClosing(vs, key))
            && (Count(l.filled, key) <= 1 <==> FillsGuarded(vs, key))
            && (Count(l.journal, Record(key)) <= 1 <==> RecordsGuarded(vs, key))
  {
    if vs != [] {
      var u, v := Front(vs), Last(vs);
      assert vs == u + [v];
      LedgerOf(u, key);
      AnyClosingSnoc(u, v, key);
      GuardedSnoc(u, v, key);
      VisitCounts(After(EMPTY, u), v, key);
      hide Visited, Count, AnyClosing, KeptClosing, FillsGuarded, RecordsGuarded;
    }
  }

  /** One visit adds a fill, and a record of it if the write is kept, iff its close is due and no
      readable journal shows one. */
  lemma VisitCounts(l: Ledger, v: Visit, key: Key)
    ensures var w := Visited(l, v);
            var fills := Closing(v, key) && !(v.readable && Count(l.journal, Record(key)) > 0);
            && Count(w.filled, key) == Count(l.filled, key) + (if fills then 1 else 0)
            && Count(w.journal, Record(key)) == Count(l.journal, Record(key)) + (if fills && v.kept then 1 else 0)
  {
    FiredIsCounted(l.journal, v.key);
    CountSnoc(l.journal, Entry(v.key, Verdict(l.journal, v), v.armed), Record(key));
    CountSnoc(l.filled, v.key, key);
    hide Count, Fired;
  }

  lemma FiredIsCounted(journal: seq<Entry>, key: Key)
    ensures Fired(journal, key) <==> Count(journal, Record(key)) > 0
  {
    CountIn(journal, Record(key));
    assert Fired(journal, key) <==> Record(key) in journal;
  }

  /** Over any sequence of sequential runs, armed or not, at most one close order fills per
      symbol, play and Monday iff every later due close finds a readable journal and an earlier
      close written in it. */
  lemma FillsOnceIff(runs: seq<Run>, key: Key)
    ensures Count(After(EMPTY, AllVisits(runs)).filled, key) <= 1 <==> FillsGuarded(AllVisits(runs), key)
  {
    LedgerOf(AllVisits(runs), key);
  }

  /** And the journal records at most one iff none is written, under an unreadable journal, after
      another one was. */
  lemma RecordedOnceIff(runs: seq<Run>, key: Key)
    ensures Count(After(EMPTY, AllVisits(runs)).journal, Record(key)) <= 1 <==> RecordsGuarded(AllVisits(runs), key)
  {
    LedgerOf(AllVisits(runs), key);
  }

  /** No journal access failed. */
  predicate JournalSound(runs: seq<Run>) {
    forall r, p :: r in runs && p in r.positions ==> p.kept && p.readable
  }

  lemma {:induction false} SoundVisits(runs: seq<Run>)
    requires JournalSound(runs)
    ensures forall v :: v in AllVisits(runs) ==> v.kept && v.readable
  {
    if runs != [] {
      assert runs == Front(runs) + [Last(runs)];
      assert Last(runs) in runs;
      SoundVisits(Front(runs));
      forall v | v in VisitsOf(Last(runs)) ensures v.kept && v.readable {
        var i :| 0 <= i < |Last(runs).positions| && v == VisitOf(Last(runs), Last(runs).positions[i]);
      }
    }
  }

  /** With every journal access sound, at most one close fills per key and the journal shows it. */
  lemma ClosedOncePerWeek(runs: seq<Run>, key: Key)
    requires JournalSound(runs)
    ensures var l := After(EMPTY, AllVisits(runs));
            Count(l.filled, key) <= 1 && Count(l.journal, Record(key)) <= 1
            && (Count(l.filled, key) == 1 <==> Count(l.journal, Record(key)) == 1)
  {
    var vs := AllVisits(runs);
    SoundVisits(runs);
    forall j | 0 <= j < |vs| ensures vs[j].kept && vs[j].readable && (AnyClosing(vs[..j], key) ==> KeptClosing(vs[..j], key)) {
      assert vs[j] in vs;
      if AnyClosing(vs[..j], key) {
        var i :| 0 <= i < j && Closing(vs[..j][i], key);
        assert vs[i] in vs && vs[..j][i] == vs[i];
      }
    }
    if AnyClosing(vs, key) {
      var i :| 0 <= i < |vs| && Closing(vs[i], key);
      assert vs[i] in vs && KeptClosing(vs, key);
    }
    LedgerOf(vs, key);
  }

  /** Two armed runs in one week that both find the close due: it fills twice iff the first
      write was lost or the second read failed. */
  lemma ClosesTwiceIff(p: Position, q: Position, monday: string)
    requires p.find == q.find == Closes(true) && p.symbol == q.symbol && p.play == q.play
    ensures var l := After(EMPTY, AllVisits([Run(monday, true, [p]), Run(monday, true, [q])]));
            var key := Key(p.symbol, p.play, monday);
            && (Count(l.filled, key) > 1 <==> !p.kept || !q.readable)
            && (Count(l.journal, Record(key)) > 1 <==> p.kept && q.kept && !q.readable)
  {
    var a, b := Run(monday, true, [p]), Run(monday, true, [q]);
    var key, v, w := Key(p.symbol, p.play, monday), VisitOf(a, p), VisitOf(b, q);
    assert Front([a, b]) == [a] && Front([a]) == [];
    assert VisitsOf(a) == [v] && VisitsOf(b) == [w];
    assert Last([a]) == a && Last([a, b]) == b && AllVisits([]) == [];
    assert [] + [v] == [v] && [v] + [w] == [v, w];
    assert AllVisits([a]) == [v];
    assert AllVisits([a, b]) == [v, w];
    LedgerOf([v, w], key);
    hide AllVisits, After, Count;
    TwoVisits(v, w, key);
  }

  lemma TwoVisits(v: Visit, w: Visit, key: Key)
    requires Closing(v, key) && Closing(w, key)
    ensures FillsGuarded([v, w], key) <==> v.kept && w.readable
    ensures RecordsGuarded([v, w], key) <==> (v.kept && w.kept ==> w.readable)
  {
    assert [] + [v] == [v] && [v] + [w] == [v, w];
    GuardedSnoc([], v, key);
    GuardedSnoc([v], w, key);
    AnyClosingSnoc([], v, key);
  }

  /** A close that failed, or was never written down, stays retryable: after any visits, the next
      armed due one is tried again iff no earlier close was written down or the journal cannot
      be read. */
  lemma {:induction false} RetriedUntilClosed(vs: seq<Visit>, v: Visit)
    requires v.armed && v.find.Closes?
    ensures var act := Verdict(After(EMPTY, vs).journal, v);
            (act == Close || act == CloseFailed) <==> !v.readable || !KeptClosing(vs, v.key)
  {
    LedgerOf(vs, v.key);
    FiredIsCounted(After(EMPTY, vs).journal, v.key);
    hide Count, Fired, KeptClosing;
  }
}
