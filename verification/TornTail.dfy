/** Why a torn fragment must be trimmed before the next append: replay tolerates the
    fragment itself, but not what the next append makes of it. */
module TornTail {
  import opened Prelude
  import opened ProposalRecords
  import opened ApprovalProtocol
  import opened ApprovalInvariant
  import ApprovalSafety

  // ---------------------------------------------------------------- one append

  predicate OnBus(bus: seq<Line>, u: Proposal) {
    exists k :: 0 <= k < |bus| && bus[k].Event? && bus[k].rec == u
  }

  lemma {:induction false} LastIsOnBus(bus: seq<Line>)
    ensures LastEvent(bus).Some? ==> OnBus(bus, LastEvent(bus).value)
  {
    if bus != [] && !bus[|bus| - 1].Event? {
      LastIsOnBus(bus[..|bus| - 1]);
    }
  }

  /** What replay finds last after an append. */
  lemma AppendReplayed(h: Shared, kind: Kind, u: Proposal)
    ensures h.tail == Ended ==> LastEvent(Append(h, kind, u).bus) == Some(u)
    ensures h.tail == Cut ==> LastEvent(Append(h, kind, u).bus) == LastEvent(h.bus)
    ensures h.tail == Unended && h.bus != [] ==> LastEvent(Append(h, kind, u).bus) == LastEvent(h.bus[..|h.bus| - 1])
    ensures h.tail == Unended && h.bus == [] ==> LastEvent(Append(h, kind, u).bus) == None
  {
    var t := Append(h, kind, u);
    if h.tail == Unended && h.bus != [] {
      assert t.bus[..|t.bus| - 1] == h.bus[..|h.bus| - 1];
    } else {
      assert t.bus[..|t.bus| - 1] == h.bus;
    }
  }

  /** A new record is what replay finds last iff it was appended after a newline. Glued to a
      fragment it is lost, and glued to a line without its newline that line is lost too. */
  lemma AppendReplayedIffEnded(h: Shared, kind: Kind, u: Proposal)
    requires !OnBus(h.bus, u)
    ensures LastEvent(Append(h, kind, u).bus) == Some(u) <==> h.tail == Ended
  {
    AppendReplayed(h, kind, u);
    LastIsOnBus(h.bus);
    if h.bus != [] {
      LastIsOnBus(h.bus[..|h.bus| - 1]);
    }
  }

  // ---------------------------------------------------------------- runs

  lemma {:induction false} RunSplit(s: System, a: seq<Action>, b: seq<Action>)
    ensures Run(s, a + b) == Run(Run(s, a), b)
  {
    if b == [] {
      assert a + b == a;
    } else {
      RunSplit(s, a, b[..|b| - 1]);
      assert (a + b)[..|a + b| - 1] == a + b[..|b| - 1];
    }
  }

  lemma RunOne(s: System, a: Action)
    ensures Run(s, [a]) == Apply(s, a)
  {
    assert [a][..0] == [];
  }

  lemma RunThree(s: System, a: Action, b: Action, c: Action)
    ensures Run(s, [a, b]) == Apply(Apply(s, a), b) && Run(s, [a, b, c]) == Apply(Apply(Apply(s, a), b), c)
  {
    hide Apply;
    RunOne(s, a);
    assert [a, b][..1] == [a];
    assert [a, b, c][..2] == [a, b];
  }

  /** In time, sized, and the reactor moves capital before it raises. */
  const MOVES_THEN_RAISES := Input(false, "", None, None, true, Ambiguous(true))

  function Tick(pid: nat): Action {
    Step(pid, MOVES_THEN_RAISES)
  }

  function ToFire(pid: nat): seq<Action> {
    [Start(pid, QuantApprove), Tick(pid), Tick(pid)]
  }

  function ApproveFires(pid: nat): seq<Action> {
    ToFire(pid) + [Tick(pid), Tick(pid), Tick(pid)]
  }

  function ApproveTears(pid: nat): seq<Action> {
    ToFire(pid) + [Tick(pid), TornCrash(pid, false), Recover]
  }

  function Crashes(k: nat): seq<Action> {
    if k == 0 then [] else Crashes(k - 1) + [Crash(k - 1, false)]
  }

  /** The process is idle and the row is the pending record `r`. */
  predicate OpenRow(s: System, pid: nat, r: Proposal) {
    pid < |s.procs| && s.procs[pid] == Idle && s.sh.row == Some(Row(Pending, r)) && r.state == Pending
  }

  lemma StepMoved(s: System, pid: nat, h: Shared, pc: Pc, i: Input)
    requires pid < |s.procs|
    ensures Apply(Moved(s, pid, h, pc), Step(pid, i)) == Moved(s, pid, Effect(h, pc, i), Goto(h, pc, i))
  {
    hide Effect, Goto;
    assert s.procs[pid := pc][pid := Goto(h, pc, i)] == s.procs[pid := Goto(h, pc, i)];
  }

  lemma LiveReads(h: Shared, r: Proposal)
    requires h.row == Some(Row(Pending, r)) && r.state == Pending
    ensures var i := MOVES_THEN_RAISES;
            && Effect(h, Get, i) == h && Goto(h, Get, i) == ClaimRead
            && Effect(h, ClaimRead, i) == h && Goto(h, ClaimRead, i) == ClaimCas(Claimed(r, "", None, None))
  {
  }

  lemma WonStep(h: Shared, u: Proposal)
    requires RowPending(h)
    ensures var i := MOVES_THEN_RAISES;
            Effect(h, ClaimCas(u), i) == CasWin(h, u) && Goto(h, ClaimCas(u), i) == ClaimAppend(u)
  {
    hide CasWin;
  }

  lemma FireSteps(h: Shared, u: Proposal)
    ensures var i := MOVES_THEN_RAISES;
            && Effect(h, ClaimAppend(u), i) == Append(h, Approve, u) && Goto(h, ClaimAppend(u), i) == Fire(u)
            && Effect(h, Fire(u), i) == h.(moved := h.moved + 1) && Goto(h, Fire(u), i) == Idle
  {
    hide Append;
  }

  lemma CreateSteps(h: Shared, r: Proposal)
    ensures var i := MOVES_THEN_RAISES;
            && Effect(h, CreateAppend(r), i) == Append(h, Create, r) && Goto(h, CreateAppend(r), i) == CreateUpsert(r)
            && Effect(h, CreateUpsert(r), i) == Upsert(h, r) && Goto(h, CreateUpsert(r), i) == Idle
  {
    hide Append, Upsert;
  }

  lemma ReadsUpToClaim(s: System, pid: nat, r: Proposal)
    requires OpenRow(s, pid, r)
    ensures Run(s, ToFire(pid)) == Moved(s, pid, s.sh, ClaimCas(Claimed(r, "", None, None)))
  {
    RunThree(s, Start(pid, QuantApprove), Tick(pid), Tick(pid));
    assert Apply(s, Start(pid, QuantApprove)) == Moved(s, pid, s.sh, Get);
    LiveReads(s.sh, r);
    hide Apply, Run, Effect, Goto, Claimed, Moved;
    StepMoved(s, pid, s.sh, Get, MOVES_THEN_RAISES);
    StepMoved(s, pid, s.sh, ClaimRead, MOVES_THEN_RAISES);
  }

  /** From a won claim on: its line is appended and the reactor moves capital, then raises. */
  lemma AppendAndFire(s: System, pid: nat, h: Shared, u: Proposal)
    requires pid < |s.procs|
    ensures var g := Append(h, Approve, u);
            Run(Moved(s, pid, h, ClaimAppend(u)), [Tick(pid), Tick(pid)])
            == Moved(s, pid, g.(moved := g.moved + 1), Idle)
  {
    var i := MOVES_THEN_RAISES;
    RunThree(Moved(s, pid, h, ClaimAppend(u)), Tick(pid), Tick(pid), Tick(pid));
    FireSteps(h, u);
    FireSteps(Append(h, Approve, u), u);
    hide Apply, Run, Append, Effect, Goto, Moved;
    StepMoved(s, pid, h, ClaimAppend(u), i);
    StepMoved(s, pid, Append(h, Approve, u), Fire(u), i);
  }

  /** The claim wins, is appended and fires. */
  lemma ClaimAndFire(s: System, pid: nat, h: Shared, u: Proposal)
    requires RowPending(h) && pid < |s.procs|
    ensures var g := Append(CasWin(h, u), Approve, u);
            Run(Moved(s, pid, h, ClaimCas(u)), [Tick(pid), Tick(pid), Tick(pid)])
            == Moved(s, pid, g.(moved := g.moved + 1), Idle)
  {
    assert [Tick(pid), Tick(pid), Tick(pid)] == [Tick(pid)] + [Tick(pid), Tick(pid)];
    RunSplit(Moved(s, pid, h, ClaimCas(u)), [Tick(pid)], [Tick(pid), Tick(pid)]);
    RunOne(Moved(s, pid, h, ClaimCas(u)), Tick(pid));
    WonStep(h, u);
    hide Apply, Run, CasWin, Append, Effect, Goto, Moved;
    StepMoved(s, pid, h, ClaimCas(u), MOVES_THEN_RAISES);
    AppendAndFire(s, pid, CasWin(h, u), u);
  }

  /** One approve whose reactor call moves capital and then raises. */
  lemma ApproveFiresOnce(s: System, pid: nat, r: Proposal)
    requires OpenRow(s, pid, r)
    ensures var t := Run(s, ApproveFires(pid));
            && t.sh.moved == s.sh.moved + 1 && t.procs == s.procs
            && (s.sh.tail == Cut ==> t.sh.tail == Ended && t.sh.bus == s.sh.bus + [Garbled])
  {
    var u := Claimed(r, "", None, None);
    RunSplit(s, ToFire(pid), [Tick(pid), Tick(pid), Tick(pid)]);
    ReadsUpToClaim(s, pid, r);
    ClaimAndFire(s, pid, s.sh, u);
    hide Run;
  }

  lemma CrashedOne(s: System, pid: nat)
    requires pid < |s.procs|
    ensures var t := Apply(s, Crash(pid, false));
            t.sh == s.sh.(dirty := t.sh.dirty) && t.procs == s.procs[pid := Idle]
  {
  }

  lemma {:induction false} CrashedAll(s: System, k: nat)
    requires k <= |s.procs|
    ensures var t := Run(s, Crashes(k));
            && t.sh == s.sh.(dirty := t.sh.dirty)
            && |t.procs| == |s.procs| && forall j :: 0 <= j < k ==> t.procs[j] == Idle
  {
    hide Apply;
    if k > 0 {
      CrashedAll(s, k - 1);
      CrashedOne(Run(s, Crashes(k - 1)), k - 1);
      RunSplit(s, Crashes(k - 1), [Crash(k - 1, false)]);
      RunOne(Run(s, Crashes(k - 1)), Crash(k - 1, false));
    }
  }

  /** Once everything has crashed, a rebuild takes the row from the last line it can read. */
  lemma ReopenedBy(h: Shared, r: Proposal)
    requires h.tail == Ended && LastEvent(h.bus) == Some(r) && r.state == Pending
    requires forall k :: 0 <= k < |h.bus| - 1 ==> h.bus[k].Event?
    ensures var t := Reindexed(h); t.row == Some(Row(Pending, r)) && t.moved == h.moved
  {
  }

  /** The row's last readable line is a create line, with a lost line after it. */
  predicate Lost(h: Shared, r: Proposal) {
    && h.tail == Ended && |h.bus| > 1 && LastEvent(h.bus) == Some(r) && r.state == Pending
    && forall k :: 0 <= k < |h.bus| - 1 ==> h.bus[k].Event?
  }

  /** From there everything crashes, the index is rebuilt, and one approve moves capital. */
  lemma FiresAgain(s: System, pid: nat, r: Proposal) returns (more: seq<Action>)
    requires pid < |s.procs| && Lost(s.sh, r)
    ensures Run(s, more).sh.moved == s.sh.moved + 1
  {
    var n := |s.procs|;
    CrashedAll(s, n);
    ReopenedBy(Run(s, Crashes(n)).sh, r);
    var t := Run(s, Crashes(n));
    RunSplit(s, Crashes(n), [Recover]);
    RunOne(t, Recover);
    assert Quiet(t);
    hide Run, Reindexed;
    var v := Run(s, Crashes(n) + [Recover]);
    assert OpenRow(v, pid, r);
    ApproveFiresOnce(v, pid, r);
    RunSplit(s, Crashes(n) + [Recover], ApproveFires(pid));
    more := Crashes(n) + [Recover] + ApproveFires(pid);
  }

  lemma CreateIsLast(h: Shared)
    requires SharedOk(h) && PhaseOf(h.bus) == Open
    ensures h.created.Some? && h.bus != [] && LastEvent(h.bus) == h.created && h.created.value.state == Pending
    ensures forall k :: 0 <= k < |h.bus| ==> h.bus[k].Event?
  {
    var c, last := h.created.value, h.bus[|h.bus| - 1];
    assert LineOk(c, last);
    assert PhaseOf(h.bus) == NextPhase(PhaseOf(h.bus[..|h.bus| - 1]), last);
    forall k | 0 <= k < |h.bus| ensures h.bus[k].Event? {
      assert LineOk(c, h.bus[k]);
    }
  }

  /** From any clean run: a claim about to be appended after a fragment has a continuation in
      which two reactor calls move capital. */
  lemma {:induction false} TornClaimFiresTwice(n: nat, actions: seq<Action>, pid: nat) returns (more: seq<Action>)
    requires CleanRun(Init(n), actions)
    requires var s := Run(Init(n), actions);
             pid < |s.procs| && s.procs[pid].ClaimAppend? && s.sh.tail == Cut
    ensures Run(Init(n), actions + more).sh.moved == 2
  {
    RunInv(n, actions);
    var s := Run(Init(n), actions);
    var u := s.procs[pid].upd;
    assert PcOk(s.sh, s.procs[pid]);
    CreateIsLast(s.sh);
    assert s == Moved(s, pid, s.sh, ClaimAppend(u)) by { assert s.procs[pid := ClaimAppend(u)] == s.procs; }
    AppendAndFire(s, pid, s.sh, u);
    AppendReplayed(s.sh, Approve, u);
    hide Run, Inv, PcOk, CleanRun;
    var t := Run(s, [Tick(pid), Tick(pid)]);
    var again := FiresAgain(t, pid, s.sh.created.value);
    more := [Tick(pid), Tick(pid)] + again;
    RunSplit(Init(n), actions, more);
    RunSplit(s, [Tick(pid), Tick(pid)], again);
  }

  // ---------------------------------------------------------------- such a run exists

  lemma WonThenTorn(s: System, pid: nat, h: Shared, u: Proposal)
    requires h.tail == Ended && pid < |s.procs|
    ensures Apply(Moved(s, pid, h, ClaimAppend(u)), TornCrash(pid, false))
         == Moved(s, pid, h.(dirty := true, tail := Cut), Idle)
  {
  }

  lemma ReopenedCut(h: Shared, r: Proposal)
    requires h.tail == Cut && h.bus == [Event(Create, r)] && r.state == Pending
    ensures var t := Apply(System(h, [Idle]), Recover);
            t.procs == [Idle] && t.sh.row == Some(Row(Pending, r)) && t.sh.bus == h.bus && t.sh.tail == Cut
            && t.sh.moved == h.moved
  {
    assert LastEvent(h.bus) == Some(r);
  }

  /** One approve that crashes in the middle of its append; recovery reopens the row. */
  lemma ApproveTearsBack(s: System, r: Proposal)
    requires OpenRow(s, 0, r) && s.procs == [Idle] && s.sh.tail == Ended && s.sh.bus == [Event(Create, r)]
    ensures var t := Run(s, ApproveTears(0));
            t.sh.moved == s.sh.moved && OpenRow(t, 0, r) && t.procs == [Idle] && t.sh.tail == Cut && t.sh.bus == s.sh.bus
  {
    var u := Claimed(r, "", None, None);
    var h := CasWin(s.sh, u);
    var g := h.(dirty := true, tail := Cut);
    RunSplit(s, ToFire(0), [Tick(0), TornCrash(0, false), Recover]);
    ReadsUpToClaim(s, 0, r);
    RunThree(Moved(s, 0, s.sh, ClaimCas(u)), Tick(0), TornCrash(0, false), Recover);
    WonStep(s.sh, u);
    ReopenedCut(g, r);
    assert Moved(s, 0, g, Idle) == System(g, [Idle]);
    hide Run, Apply, Claimed, Effect, Goto, CasWin, Moved;
    StepMoved(s, 0, s.sh, ClaimCas(u), MOVES_THEN_RAISES);
    WonThenTorn(s, 0, h, u);
  }

  lemma Proposed(r: Proposal)
    requires IsNew(r)
    ensures var t := Run(Init(1), [Start(0, Propose(r)), Tick(0), Tick(0)]);
            OpenRow(t, 0, r) && t.procs == [Idle] && t.sh.tail == Ended && t.sh.bus == [Event(Create, r)] && t.sh.moved == 0
  {
    var i := MOVES_THEN_RAISES;
    RunThree(Init(1), Start(0, Propose(r)), Tick(0), Tick(0));
    var h := Init(1).sh.(created := Some(r));
    var g := Append(h, Create, r);
    assert Apply(Init(1), Start(0, Propose(r))) == Moved(Init(1), 0, h, CreateAppend(r));
    assert Moved(Init(1), 0, Upsert(g, r), Idle) == System(Upsert(g, r), [Idle]);
    CreateSteps(h, r);
    CreateSteps(g, r);
    CreatedRow(h, r);
    hide Apply, Run, Effect, Goto, Append, Upsert, Moved, IsNew;
    StepMoved(Init(1), 0, h, CreateAppend(r), i);
    StepMoved(Init(1), 0, g, CreateUpsert(r), i);
  }

  lemma CreatedRow(h: Shared, r: Proposal)
    requires IsNew(r) && h.tail == Ended && h.bus == []
    ensures var t := Upsert(Append(h, Create, r), r);
            t.row == Some(Row(Pending, r)) && t.bus == [Event(Create, r)] && t.tail == Ended && t.moved == h.moved
    ensures r.state == Pending
  {
  }

  /** Two reactor calls move capital on one proposal: a torn approve line, a recovery that
      rightly skips it, an approve line glued onto the fragment, and a second recovery that
      skips the glued line as if it were torn. The run is not clean. */
  lemma TornTailDoubleFires(r: Proposal) returns (actions: seq<Action>)
    requires IsNew(r)
    ensures Run(Init(1), actions).sh.moved == 2 && !CleanRun(Init(1), actions)
  {
    var create := [Start(0, Propose(r)), Tick(0), Tick(0)];
    Proposed(r);
    hide Run, Tick, ApproveFires, ApproveTears, Init, CleanRun;
    var s1 := Run(Init(1), create);
    ApproveTearsBack(s1, r);
    var s2 := Run(s1, ApproveTears(0));
    ApproveFiresOnce(s2, 0, r);
    var s3 := Run(s2, ApproveFires(0));
    assert s3.sh.bus[..1] == [Event(Create, r)] && LastEvent(s3.sh.bus[..1]) == Some(r);
    assert LastEvent(s3.sh.bus) == LastEvent(s3.sh.bus[..1]);
    var again := FiresAgain(s3, 0, r);
    actions := create + ApproveTears(0) + ApproveFires(0) + again;
    RunSplit(Init(1), create, ApproveTears(0));
    RunSplit(Init(1), create + ApproveTears(0), ApproveFires(0));
    RunSplit(Init(1), create + ApproveTears(0) + ApproveFires(0), again);
    CleanIsSafe(actions);
  }

  lemma CleanIsSafe(actions: seq<Action>)
    ensures CleanRun(Init(1), actions) ==> Run(Init(1), actions).sh.moved <= 1
  {
    if CleanRun(Init(1), actions) {
      ApprovalSafety.NoDoubleFire(1, actions);
    }
  }
}
