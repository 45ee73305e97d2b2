/** What the approval protocol guarantees over every interleaving, with crashes. */
module ApprovalSafety {
  import opened Prelude
  import opened ProposalRecords
  import opened ApprovalProtocol
  import opened ApprovalInvariant

  // ---------------------------------------------------------------- money

  /** At most one reactor call moves capital, over every run in which no append lands on a
      torn tail, whatever crashes, index losses and recoveries it contains. */
  lemma {:induction false} NoDoubleFire(n: nat, actions: seq<Action>)
    requires CleanRun(Init(n), actions)
    ensures Run(Init(n), actions).sh.moved <= 1
  {
    RunInv(n, actions);
  }

  /** Whoever is about to fire owns the claim: the row and the last bus line are the record
      it wrote, no capital has moved, and nobody else is between claim and finish. */
  lemma {:induction false} FireOwnsClaim(n: nat, actions: seq<Action>, pid: nat, other: nat)
    requires CleanRun(Init(n), actions)
    requires var s := Run(Init(n), actions); pid < |s.procs| && s.procs[pid].Fire? && other < |s.procs|
    ensures var s := Run(Init(n), actions);
            && s.sh.row == Some(Row(Approved, s.procs[pid].upd))
            && LastRec(s.sh, s.procs[pid].upd)
            && s.sh.moved == 0
            && (other != pid ==> !Holder(s.procs[other]))
  {
    RunInv(n, actions);
    var s := Run(Init(n), actions);
    hide Run, Init, SharedOk, Agrees;
    assert PcOk(s.sh, s.procs[pid]);
    if other != pid { OthersHoldNothing(s, pid, other); }
  }

  lemma LastDecides(h: Shared)
    requires SharedOk(h)
    ensures Replayable(h.bus, h.tail)
    ensures h.moved > 0 ==> LastEvent(h.bus).Some? && LastEvent(h.bus).value.state == Approved && !RowPending(h)
  {
    hide PhaseOf;
    if h.created.Some? {
      assert forall k :: 0 <= k < |h.bus| ==> LineOk(h.created.value, h.bus[k]);
    }
  }

  /** Rebuilding the index from the bus in any reachable state, mid-crash or not, never
      yields a pending row once capital has moved, and never refuses to rebuild. */
  lemma {:induction false} RecoveryNeverReopens(n: nat, actions: seq<Action>)
    requires CleanRun(Init(n), actions)
    ensures var h := Run(Init(n), actions).sh;
            && Replayable(h.bus, h.tail)
            && (h.moved > 0 ==> LastEvent(h.bus).Some? && LastEvent(h.bus).value.state == Approved)
            && (h.moved > 0 ==> !RowPending(h) && !RowPending(Reindexed(h)))
  {
    RunInv(n, actions);
    LastDecides(Run(Init(n), actions).sh);
  }

  /** A compare-and-set is won only on a pending row nobody owns, which it takes away; and no
      more are won than the row has become pending. */
  lemma {:induction false} OneWinnerPerEpoch(n: nat, actions: seq<Action>, a: Action)
    requires CleanRun(Init(n), actions)
    ensures var s := Run(Init(n), actions);
            var t := Apply(s, a);
            && s.sh.wins + (if RowPending(s.sh) then 1 else 0) <= s.sh.epochs
            && (t.sh.wins != s.sh.wins ==>
                  RowPending(s.sh) && Unheld(s) && !RowPending(t.sh) && t.sh.wins == s.sh.wins + 1)
  {
    RunInv(n, actions);
    WinStep(Run(Init(n), actions), a);
    hide Run, Init, Apply, PcOk, PhaseOf;
  }

  lemma WinStep(s: System, a: Action)
    requires Inv(s)
    ensures var t := Apply(s, a);
            t.sh.wins != s.sh.wins ==>
              RowPending(s.sh) && Unheld(s) && !RowPending(t.sh) && t.sh.wins == s.sh.wins + 1
  {
    hide Goto, SharedOk, Agrees, LastEvent, Effect, PcOk;
    if a.Step? && a.pid < |s.procs| { WinEffect(s, a.pid, a.input); }
  }

  lemma WinEffect(s: System, pid: nat, i: Input)
    requires Inv(s) && pid < |s.procs|
    ensures var t := Effect(s.sh, s.procs[pid], i);
            t.wins != s.sh.wins ==>
              RowPending(s.sh) && Unheld(s) && !RowPending(t) && t.wins == s.sh.wins + 1
  {
    assert PcOk(s.sh, s.procs[pid]);
    if IsCas(s.procs[pid]) { CasUpdate(s.sh, s.procs[pid]); }
    hide SharedOk, PcOk, Agrees;
  }

  // ---------------------------------------------------------------- closed for good

  /** Nobody owns the row, it is not pending, and the bus does not end in a create line. */
  predicate Settled(s: System) {
    Unheld(s) && Closed(s.sh)
  }

  predicate Closed(h: Shared) {
    !RowPending(h) && (PhaseOf(h.bus) == Held || PhaseOf(h.bus) == Spent)
  }

  /** Nothing of the proposal's history has changed. */
  predicate Frozen(g: Shared, h: Shared) {
    h.bus == g.bus && h.moved == g.moved && h.wins == g.wins && h.created == g.created
  }

  /** An ambiguous reactor failure settles the proposal: it stays claimed. */
  lemma AmbiguousSettles(s: System, pid: nat, i: Input)
    requires Inv(s) && pid < |s.procs| && s.procs[pid].Fire? && i.outcome.Ambiguous?
    ensures Settled(StepPc(s, pid, i)) && Inv(StepPc(s, pid, i))
  {
    assert PcOk(s.sh, s.procs[pid]);
    var t := StepPc(s, pid, i);
    hide Inv, PhaseOf;
    ApplyKeepsInv(s, Step(pid, i));
    assert t.procs[pid] == Idle;
    forall k | 0 <= k < |t.procs| ensures !Holder(t.procs[k]) {
      if k != pid { OthersHoldNothing(s, pid, k); }
    }
  }

  /** A process that owns nothing, facing a row that is not pending, changes nothing shared
      and gains nothing. */
  lemma BystanderStep(h: Shared, pc: Pc, i: Input)
    requires SharedOk(h) && PcOk(h, pc) && !Holder(pc) && !RowPending(h)
    ensures Effect(h, pc, i) == h && !Holder(Goto(h, pc, i))
  {
    hide SharedOk, PcOk;
    if IsRead(pc) {
      ReadFacts(h, pc, i);
      hide AfterRead;
    }
  }

  lemma UnheldAfter(s: System, pid: nat, h: Shared, pc: Pc)
    requires Unheld(s) && pid < |s.procs| && !Holder(pc)
    ensures Unheld(Moved(s, pid, h, pc))
  {
  }

  lemma ClosedRecover(h: Shared)
    requires SharedOk(h) && Closed(h)
    ensures Closed(Reindexed(h)) && Frozen(h, Reindexed(h))
  {
    var last := h.bus[|h.bus| - 1];
    assert LineOk(h.created.value, last);
    assert PhaseOf(h.bus) == NextPhase(PhaseOf(h.bus[..|h.bus| - 1]), last);
    assert LastEvent(h.bus) == Some(last.rec);
    hide PhaseOf, LastEvent;
  }

  lemma SettledStart(s: System, pid: nat, op: Op)
    requires Inv(s) && Settled(s) && pid < |s.procs|
    ensures Settled(StartOp(s, pid, op)) && Frozen(s.sh, StartOp(s, pid, op).sh)
  {
    assert s.sh.created.Some?;
    hide Inv, Closed;
    var t := StartOp(s, pid, op);
    if t != s {
      assert t == Moved(s, pid, s.sh, t.procs[pid]);
      UnheldAfter(s, pid, s.sh, t.procs[pid]);
    }
  }

  lemma ClosedStays(g: Shared, h: Shared)
    requires Closed(g) && h.row == g.row && h.bus == g.bus
    ensures Closed(h)
  {
    hide PhaseOf;
  }

  lemma SettledStep(s: System, a: Action)
    requires Inv(s) && Settled(s)
    ensures Settled(Apply(s, a)) && Frozen(s.sh, Apply(s, a).sh)
  {
    assert SharedOk(s.sh);
    hide SharedOk, PcOk, Effect, Goto, StartOp, Reindexed, Closed, Inv;
    match a
    case Start(pid, op) => if pid < |s.procs| { SettledStart(s, pid, op); }
    case Step(pid, i) =>
      if pid < |s.procs| {
        InvParts(s, pid);
        RowIsClosed(s.sh);
        BystanderStep(s.sh, s.procs[pid], i);
        UnheldAfter(s, pid, s.sh, Goto(s.sh, s.procs[pid], i));
      }
    case Crash(pid, m) =>
      if pid < |s.procs| {
        ClosedStays(s.sh, Crashed(s.sh, s.procs[pid], m));
        UnheldAfter(s, pid, Crashed(s.sh, s.procs[pid], m), Idle);
      }
    case TornCrash(pid, _) => assert pid < |s.procs| ==> !IsAppend(s.procs[pid]);
    case LoseIndex => LoseStaysClosed(s.sh);
    case Recover => ClosedRecover(s.sh);
    case Trim => ClosedStays(s.sh, s.sh.(tail := Ended));
  }

  lemma RowIsClosed(h: Shared)
    requires Closed(h)
    ensures !RowPending(h)
  {
  }

  lemma LoseStaysClosed(h: Shared)
    requires Closed(h)
    ensures Closed(h.(row := None, dirty := true))
  {
    hide PhaseOf;
  }

  lemma {:induction false} SettledForever(s: System, actions: seq<Action>)
    requires Inv(s) && Settled(s) && CleanRun(s, actions)
    ensures var t := Run(s, actions); Inv(t) && Settled(t) && Frozen(s.sh, t.sh)
  {
    hide Inv, Settled, Apply;
    if actions != [] {
      var before := actions[..|actions| - 1];
      SettledForever(s, before);
      SettledStep(Run(s, before), actions[|actions| - 1]);
      ApplyKeepsInv(Run(s, before), actions[|actions| - 1]);
    }
  }

  /** An ambiguous failure is never re-pended: whatever happens afterwards, nobody wins the
      row again, nothing more is appended for it and no further capital moves. */
  lemma {:induction false} AmbiguousNeverReopens(n: nat, before: seq<Action>, pid: nat, i: Input, after: seq<Action>)
    requires CleanRun(Init(n), before)
    requires var s := Run(Init(n), before);
             pid < |s.procs| && s.procs[pid].Fire? && i.outcome.Ambiguous? && CleanRun(StepPc(s, pid, i), after)
    ensures var t := StepPc(Run(Init(n), before), pid, i);
            var u := Run(t, after);
            !RowPending(u.sh) && !RowPending(Reindexed(u.sh)) && Frozen(t.sh, u.sh)
  {
    RunInv(n, before);
    var s := Run(Init(n), before);
    hide Run, Init, StepPc, SharedOk, Reindexed, PhaseOf;
    AmbiguousSettles(s, pid, i);
    SettledForever(StepPc(s, pid, i), after);
    ClosedRecover(Run(StepPc(s, pid, i), after).sh);
  }

  // ---------------------------------------------------------------- the two stores

  /** When nobody owns the row and no method has crashed since the last recovery, the index
      row is what the bus says; in particular when no method is in flight. */
  lemma {:induction false} RestAgreement(n: nat, actions: seq<Action>)
    requires CleanRun(Init(n), actions)
    requires Unheld(Run(Init(n), actions)) && !Run(Init(n), actions).sh.dirty
    ensures var h := Run(Init(n), actions).sh;
            h.row == match LastEvent(h.bus) case None => None case Some(rec) => Some(Row(rec.state, rec))
  {
    RunInv(n, actions);
    hide Run, Init, SharedOk, PcOk;
  }

  /** Every row and every line carries what `propose` wrote, and a pending row or create
      line is exactly that record, however stale the read an update was built from. */
  lemma {:induction false} PayloadNeverDrifts(n: nat, actions: seq<Action>)
    requires CleanRun(Init(n), actions)
    ensures var h := Run(Init(n), actions).sh;
            && (h.row.Some? || h.bus != [] ==> h.created.Some?)
            && (h.row.Some? ==> Origin(h.row.value.rec) == h.created.value && h.row.value.state == h.row.value.rec.state)
            && (RowPending(h) ==> h.row.value.rec == h.created.value)
            && forall k :: 0 <= k < |h.bus| ==> LineOk(h.created.value, h.bus[k])
  {
    RunInv(n, actions);
    hide Run, Init, PcOk, PhaseOf;
  }

  /** Only the owner of the row writes to the bus: a contender that lost its
      compare-and-set appends nothing. */
  lemma {:induction false} OnlyOwnersAppend(n: nat, actions: seq<Action>, a: Action)
    requires CleanRun(Init(n), actions)
    ensures var s := Run(Init(n), actions);
            Apply(s, a).sh.bus != s.sh.bus ==>
              (a.Step? || a.TornCrash?) && a.pid < |s.procs| && Holder(s.procs[a.pid]) && !RowPending(s.sh)
  {
    RunInv(n, actions);
    var s := Run(Init(n), actions);
    if (a.Step? || a.TornCrash?) && a.pid < |s.procs| { InvParts(s, a.pid); }
    hide Run, Init, Inv, SharedOk, PcOk, Goto;
  }

  // ---------------------------------------------------------------- the bus language

  function Cycles(k: nat): seq<Kind> {
    if k == 0 then [Create] else Cycles(k - 1) + [Approve, Create]
  }

  predicate Spells(bus: seq<Line>, ks: seq<Kind>) {
    |bus| == |ks| && forall k :: 0 <= k < |bus| ==> bus[k].Event? && bus[k].kind == ks[k]
  }

  /** A prefix of `create (approve create)^k (approve approve? | reject | expire)`. */
  ghost predicate InLanguage(bus: seq<Line>) {
    bus == []
    || exists k: nat ::
         || Spells(bus, Cycles(k))
         || Spells(bus, Cycles(k) + [Approve])
         || Spells(bus, Cycles(k) + [Approve, Approve])
         || Spells(bus, Cycles(k) + [Reject])
         || Spells(bus, Cycles(k) + [Expire])
  }

  lemma SpellsInit(bus: seq<Line>, ks: seq<Kind>)
    requires Spells(bus, ks) && bus != []
    ensures Spells(bus[..|bus| - 1], ks[..|ks| - 1])
  {
  }

  lemma {:induction false} CyclesAreOpen(bus: seq<Line>, k: nat)
    requires Spells(bus, Cycles(k))
    ensures PhaseOf(bus) == Open
  {
    var n := |bus|;
    if k == 0 {
      assert bus[..n - 1] == [];
    } else {
      assert bus[..n - 1][..n - 2] == bus[..n - 2];
      assert Spells(bus[..n - 2], Cycles(k - 1)) by {
        assert Cycles(k)[..n - 2] == Cycles(k - 1);
        forall j | 0 <= j < n - 2 ensures bus[j].Event? && bus[j].kind == Cycles(k - 1)[j] {
          assert Cycles(k)[j] == Cycles(k - 1)[j];
        }
      }
      CyclesAreOpen(bus[..n - 2], k - 1);
      assert bus[n - 2].kind == Approve && bus[n - 1].kind == Create;
    }
  }

  lemma {:induction false} OpenIsCycles(bus: seq<Line>) returns (k: nat)
    requires PhaseOf(bus) == Open || PhaseOf(bus) == Held
    ensures PhaseOf(bus) == Open ==> Spells(bus, Cycles(k))
    ensures PhaseOf(bus) == Held ==> Spells(bus, Cycles(k) + [Approve])
  {
    var n := |bus|;
    var p := PhaseOf(bus[..n - 1]);
    if p == Fresh {
      assert n == 1;
      k := 0;
    } else {
      var j := OpenIsCycles(bus[..n - 1]);
      k := if PhaseOf(bus) == Open then j + 1 else j;
    }
  }

  /** A closed word: an open or held one and its last line. */
  lemma SpentHasWord(bus: seq<Line>) returns (k: nat)
    requires PhaseOf(bus) == Spent
    ensures || Spells(bus, Cycles(k) + [Approve, Approve])
            || Spells(bus, Cycles(k) + [Reject]) || Spells(bus, Cycles(k) + [Expire])
  {
    var b := bus[..|bus| - 1];
    k := OpenIsCycles(b);
    if PhaseOf(b) == Open {
      assert bus[|bus| - 1].kind == Reject || bus[|bus| - 1].kind == Expire;
    }
  }

  lemma PhaseHasWord(bus: seq<Line>)
    requires PhaseOf(bus) != Bad
    ensures InLanguage(bus)
  {
    if PhaseOf(bus) == Spent {
      var k := SpentHasWord(bus);
    } else if bus != [] {
      var k := OpenIsCycles(bus);
    }
  }

  /** A word of cycles followed by one more line. */
  lemma WordPhase(bus: seq<Line>, k: nat, last: Kind)
    requires Spells(bus, Cycles(k) + [last])
    ensures PhaseOf(bus) == NextPhase(Open, bus[|bus| - 1])
  {
    SpellsInit(bus, Cycles(k) + [last]);
    assert (Cycles(k) + [last])[..|bus| - 1] == Cycles(k);
    CyclesAreOpen(bus[..|bus| - 1], k);
  }

  lemma WordHasPhase(bus: seq<Line>, k: nat)
    requires || Spells(bus, Cycles(k)) || Spells(bus, Cycles(k) + [Approve])
             || Spells(bus, Cycles(k) + [Approve, Approve])
             || Spells(bus, Cycles(k) + [Reject]) || Spells(bus, Cycles(k) + [Expire])
    ensures PhaseOf(bus) != Bad
  {
    var n := |bus|;
    if Spells(bus, Cycles(k)) {
      CyclesAreOpen(bus, k);
    } else if Spells(bus, Cycles(k) + [Approve, Approve]) {
      var c := Cycles(k) + [Approve, Approve];
      SpellsInit(bus, c);
      assert c[..n - 1] == Cycles(k) + [Approve];
      WordPhase(bus[..n - 1], k, Approve);
    } else if Spells(bus, Cycles(k) + [Approve]) {
      WordPhase(bus, k, Approve);
    } else if Spells(bus, Cycles(k) + [Reject]) {
      WordPhase(bus, k, Reject);
    } else {
      WordPhase(bus, k, Expire);
    }
  }

  /** The automaton accepts exactly the words of the language. */
  lemma LanguageIsPhase(bus: seq<Line>)
    ensures PhaseOf(bus) != Bad <==> InLanguage(bus)
  {
    if PhaseOf(bus) != Bad {
      PhaseHasWord(bus);
    }
    if InLanguage(bus) && bus != [] {
      var k: nat :| || Spells(bus, Cycles(k)) || Spells(bus, Cycles(k) + [Approve])
                    || Spells(bus, Cycles(k) + [Approve, Approve])
                    || Spells(bus, Cycles(k) + [Reject]) || Spells(bus, Cycles(k) + [Expire]);
      WordHasPhase(bus, k);
    }
  }

  /** The events of one id, in every reachable state. */
  lemma {:induction false} BusLanguage(n: nat, actions: seq<Action>)
    requires CleanRun(Init(n), actions)
    ensures InLanguage(Run(Init(n), actions).sh.bus)
  {
    RunInv(n, actions);
    LanguageIsPhase(Run(Init(n), actions).sh.bus);
  }
}
