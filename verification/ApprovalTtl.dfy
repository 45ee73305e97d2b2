/** The TTL of an approval over every interleaving: what a process that fires had checked, and
    the one way past it. */
module ApprovalTtl {
  import opened Prelude
  import opened ProposalRecords
  import opened ApprovalProtocol
  import opened ApprovalInvariant
  import opened SoloApproval
  import TornTail

  /** Past its claim's read, up to the fire. */
  predicate InClaim(pc: Pc) {
    pc.ClaimCas? || pc.ClaimAppend? || pc.Fire?
  }

  /** At step `j` the process read the row inside its claim, and has read nothing since. */
  ghost predicate LastReadAt(s: System, actions: seq<Action>, pid: nat, j: nat) {
    && j < |actions| && actions[j].Step? && actions[j].pid == pid
    && (var t := Run(s, actions[..j]); pid < |t.procs| && t.procs[pid] == ClaimRead)
    && forall k :: j < k <= |actions| ==>
         var t := Run(s, actions[..k]); pid < |t.procs| && !IsRead(t.procs[pid])
  }

  /** What the process saw then: a row, and if it was pending, in time. */
  ghost predicate SawLive(s: System, actions: seq<Action>, j: nat)
    requires j < |actions| && actions[j].Step?
  {
    var row := Run(s, actions[..j]).sh.row;
    row.Some? && (row.value.rec.state == Pending ==> !actions[j].input.late)
  }

  lemma ProcsKept(s: System, a: Action)
    ensures |Apply(s, a).procs| == |s.procs|
  {
    hide Effect, Goto, Reindexed;
  }

  lemma {:induction false} RunProcs(s: System, actions: seq<Action>)
    ensures |Run(s, actions).procs| == |s.procs|
  {
    hide Apply;
    if actions != [] {
      RunProcs(s, actions[..|actions| - 1]);
      ProcsKept(Run(s, actions[..|actions| - 1]), actions[|actions| - 1]);
    }
  }

  /** A claim is entered only by its own read of a row that is there and, if pending, in time. */
  lemma EntersClaim(s: System, a: Action, pid: nat)
    requires pid < |s.procs| && !InClaim(s.procs[pid]) && InClaim(Apply(s, a).procs[pid])
    ensures a.Step? && a.pid == pid && s.procs[pid] == ClaimRead && s.sh.row.Some?
    ensures s.sh.row.value.rec.state == Pending ==> !a.input.late
  {
    hide Effect, Reindexed, Crashed, Torn;
  }

  lemma PrefixOf(actions: seq<Action>, k: nat)
    requires k < |actions|
    ensures actions[..|actions| - 1][..k] == actions[..k]
  {
  }

  /** Over every run, crashes and torn appends included: a process that fires read the row once
      inside its claim, and that read saw either a pending row in time, or a row that was not
      pending. */
  lemma {:induction false} FireWasChecked(s: System, actions: seq<Action>, pid: nat) returns (j: nat)
    requires pid < |s.procs| && !InClaim(s.procs[pid]) && |Run(s, actions).procs| == |s.procs|
    requires InClaim(Run(s, actions).procs[pid])
    ensures LastReadAt(s, actions, pid, j) && SawLive(s, actions, j)
  {
    hide Apply;
    if actions == [] {
      assert false;
    } else {
      var front, a := actions[..|actions| - 1], actions[|actions| - 1];
      RunProcs(s, front);
      assert actions[..|actions|] == actions;
      if InClaim(Run(s, front).procs[pid]) {
        j := FireWasChecked(s, front, pid);
        forall k | 0 <= k < |actions| ensures front[..k] == actions[..k] {
          PrefixOf(actions, k);
        }
        assert front[j] == actions[j];
      } else {
        EntersClaim(Run(s, front), a, pid);
        j := |front|;
      }
    }
  }

  // ---------------------------------------------------------------- the way past

  predicate OnlySteps(actions: seq<Action>) {
    forall a :: a in actions ==> a.Step?
  }

  lemma StepKeepsEnded(s: System, a: Action)
    requires a.Step? && s.sh.tail == Ended
    ensures Apply(s, a).sh.tail == Ended && CleanStep(s, a)
  {
    hide Goto;
  }

  /** Steps alone, from a file that ends in a newline, are clean. */
  lemma {:induction false} StepsAreClean(s: System, actions: seq<Action>)
    requires OnlySteps(actions) && s.sh.tail == Ended
    ensures CleanRun(s, actions) && Run(s, actions).sh.tail == Ended
  {
    hide Apply, CleanStep;
    if actions != [] {
      var front, a := actions[..|actions| - 1], actions[|actions| - 1];
      assert forall x :: x in front ==> x in actions;
      assert a in actions;
      StepsAreClean(s, front);
      StepKeepsEnded(Run(s, front), a);
    }
  }

  lemma {:induction false} CleanConcat(s: System, a: seq<Action>, b: seq<Action>)
    requires CleanRun(s, a) && CleanRun(Run(s, a), b)
    ensures CleanRun(s, a + b)
  {
    hide Apply, CleanStep;
    if b == [] {
      assert a + b == a;
    } else {
      CleanConcat(s, a, b[..|b| - 1]);
      TornTail.RunSplit(s, a, b[..|b| - 1]);
      assert (a + b)[..|a + b| - 1] == a + b[..|b| - 1];
    }
  }

  const LATE_REFUSED := Input(true, "", None, None, true, Refused)

  function LateStep(pid: nat): Action {
    Step(pid, LATE_REFUSED)
  }

  /** A claim reads another's claim, that one is released, and the first goes on. */
  function PastTheTtl(p: nat, q: nat): seq<Action> {
    [LateStep(p)] + seq(4, _ => LateStep(q)) + seq(2, _ => LateStep(p))
  }

  lemma TwoSteps(g: Shared, p: Pc, i: Input, g1: Shared, p1: Pc, g2: Shared, p2: Pc)
    requires Steps(g, p, i, g1, p1) && Steps(g1, p1, i, g2, p2)
    ensures Solo(g, p, i, 2) == (g2, p2)
  {
    hide Effect, Goto;
    assert Solo(g, p, i, 0) == (g, p);
    assert Solo(g, p, i, 1) == (g1, p1);
  }

  lemma LateReads(h: Shared, u: Proposal)
    requires h.row == Some(Row(Approved, u)) && u.state == Approved
    ensures Effect(h, ClaimRead, LATE_REFUSED) == h
    ensures Goto(h, ClaimRead, LATE_REFUSED) == ClaimCas(Claimed(u, "", None, None))
  {
  }

  lemma LateWins(h: Shared, c: Proposal)
    requires RowPending(h) && h.tail == Ended
    ensures Solo(h, ClaimCas(c), LATE_REFUSED, 2).1 == Fire(c)
  {
    hide Solo, Steps;
    var g := CasWin(h, c);
    WinSteps(h, ClaimCas(c), LATE_REFUSED);
    AppendSteps(g, ClaimAppend(c), LATE_REFUSED);
    TwoSteps(h, ClaimCas(c), LATE_REFUSED, g, ClaimAppend(c), g.(bus := g.bus + [Event(Approve, c)]), Fire(c));
  }

  /** One process stands at its claim's read while another is about to fire. */
  predicate Overlap(s: System, p: nat, q: nat) {
    && p < |s.procs| && q < |s.procs| && p != q && s.procs[p] == ClaimRead && s.procs[q].Fire?
    && s.sh.row == Some(Row(Approved, s.procs[q].upd)) && s.procs[q].upd.state == Approved
    && s.procs[q].upd.execution.None? && s.sh.tail == Ended
  }

  /** Every step the first takes from there is too late, and it fires. */
  lemma LateRunFires(s: System, p: nat, q: nat)
    requires Overlap(s, p, q)
    ensures var t := Run(s, PastTheTtl(p, q)); |t.procs| == |s.procs| && t.procs[p].Fire?
  {
    hide Run, Solo, Claimed, Effect, Goto;
    var h, u := s.sh, s.procs[q].upd;
    var c := Claimed(u, "", None, None);
    var four, two := seq(4, _ => LateStep(q)), seq(2, _ => LateStep(p));
    LateReads(h, u);
    var s1 := Moved(s, p, h, ClaimCas(c));
    assert Apply(s, LateStep(p)) == s1;
    TornTail.RunOne(s, LateStep(p));
    ReleaseSteps(h, u, LATE_REFUSED);
    var g := SettledStores(h, u, Refused);
    assert RowPending(g) && g.tail == Ended;
    SoloIsRun(s1, q, LATE_REFUSED, 4);
    var s2 := Moved(s1, q, g, Idle);
    LateWins(g, c);
    SoloIsRun(s2, p, LATE_REFUSED, 2);
    TornTail.RunSplit(s, [LateStep(p)], four);
    TornTail.RunSplit(s, [LateStep(p)] + four, two);
  }

  lemma OverlapFacts(s: System, p: nat, q: nat)
    requires Inv(s) && p < |s.procs| && q < |s.procs| && s.procs[p] == ClaimRead && s.procs[q].Fire? && s.sh.tail == Ended
    ensures Overlap(s, p, q)
  {
    assert PcOk(s.sh, s.procs[q]);
    hide SharedOk, Agrees, PhaseOf;
  }

  /** From every clean run that has reached such an overlap there is a clean continuation in
      which the process fires although its one read came too late: the row it read was not
      pending, so no clock was looked at. */
  lemma {:induction false} LateClaimFires(n: nat, actions: seq<Action>, p: nat, q: nat) returns (more: seq<Action>)
    requires CleanRun(Init(n), actions)
    requires var s := Run(Init(n), actions);
             p < |s.procs| && q < |s.procs| && s.procs[p] == ClaimRead && s.procs[q].Fire? && s.sh.tail == Ended
    ensures CleanRun(Init(n), actions + more)
    ensures var t := Run(Init(n), actions + more); p < |t.procs| && t.procs[p].Fire?
    ensures more != [] && (forall k :: 0 <= k < |more| ==> more[k].Step? && more[k].input.late)
    ensures Run(Init(n), (actions + more)[..|actions|]).procs[p] == ClaimRead && more[0].pid == p
  {
    hide Run, CleanRun, Inv, Overlap, PcOk;
    RunInv(n, actions);
    var s := Run(Init(n), actions);
    OverlapFacts(s, p, q);
    more := PastTheTtl(p, q);
    assert (actions + more)[..|actions|] == actions;
    LateRunFires(s, p, q);
    StepsAreClean(s, more);
    CleanConcat(Init(n), actions, more);
    TornTail.RunSplit(Init(n), actions, more);
  }

  // ---------------------------------------------------------------- such a run exists

  const IN_TIME := Input(false, "", None, None, true, Refused)

  function Timely(pid: nat, k: nat): seq<Action> {
    seq(k, _ => Step(pid, IN_TIME))
  }

  /** Proposed by the second process, which then claims it while the first looks it up. */
  function Overlapping(r: Proposal): seq<Action> {
    [Start(1, Propose(r))] + Timely(1, 2) + [Start(0, QuantApprove)] + Timely(0, 1)
    + [Start(1, QuantApprove)] + Timely(1, 4)
  }

  /** The stores once the proposal is there. */
  function Created(r: Proposal): Shared {
    Shared(Some(Row(Pending, r)), [Event(Create, r)], Ended, Some(r), 0, 0, 1, false)
  }

  lemma CreateTwo(r: Proposal)
    requires IsNew(r)
    ensures var h := Init(2).sh.(created := Some(r)); Solo(h, CreateAppend(r), IN_TIME, 2) == (Created(r), Idle)
  {
    hide Solo, Steps;
    var h := Init(2).sh.(created := Some(r));
    var g := h.(bus := h.bus + [Event(Create, r)]);
    AppendSteps(h, CreateAppend(r), IN_TIME);
    UpsertSteps(g, CreateUpsert(r), IN_TIME);
    assert Upsert(g, r) == Created(r);
    TwoSteps(h, CreateAppend(r), IN_TIME, g, CreateUpsert(r), Created(r), Idle);
  }

  lemma LooksUp(r: Proposal)
    requires IsNew(r)
    ensures Solo(Created(r), Get, IN_TIME, 1) == (Created(r), ClaimRead)
  {
    assert Solo(Created(r), Get, IN_TIME, 0) == (Created(r), Get);
  }

  /** Steps and starts of a two-process system, by what they do. */
  lemma Then(actions: seq<Action>, s: System, pid: nat, k: nat, h: Shared, pc: Pc)
    requires Run(Init(2), actions) == s && pid < |s.procs| && s.sh.tail == Ended && CleanRun(Init(2), actions)
    requires Solo(s.sh, s.procs[pid], IN_TIME, k) == (h, pc)
    ensures Run(Init(2), actions + Timely(pid, k)) == Moved(s, pid, h, pc)
    ensures CleanRun(Init(2), actions + Timely(pid, k))
  {
    hide Solo, Run, CleanRun;
    SoloIsRun(s, pid, IN_TIME, k);
    TornTail.RunSplit(Init(2), actions, Timely(pid, k));
    StepsAreClean(s, Timely(pid, k));
    CleanConcat(Init(2), actions, Timely(pid, k));
  }

  lemma ThenStart(actions: seq<Action>, s: System, a: Action)
    requires Run(Init(2), actions) == s && CleanRun(Init(2), actions) && a.Start?
    ensures Run(Init(2), actions + [a]) == Apply(s, a) && CleanRun(Init(2), actions + [a])
  {
    assert (actions + [a])[..|actions|] == actions;
    hide Apply;
  }

  lemma StartsApprove(g: Shared, pc: Pc)
    ensures Apply(System(g, [Idle, pc]), Start(0, QuantApprove)) == System(g, [Get, pc])
    ensures Apply(System(g, [pc, Idle]), Start(1, QuantApprove)) == System(g, [pc, Get])
  {
    assert [Idle, pc][0 := Get] == [Get, pc] && [pc, Idle][1 := Get] == [pc, Get];
  }

  lemma StartsPropose(r: Proposal)
    requires IsNew(r)
    ensures Run(Init(2), []) == Init(2) && CleanRun(Init(2), [])
    ensures Apply(Init(2), Start(1, Propose(r))) == System(Init(2).sh.(created := Some(r)), [Idle, CreateAppend(r)])
  {
    assert Init(2).procs[1 := CreateAppend(r)] == [Idle, CreateAppend(r)];
  }

  lemma MovedTwo(g: Shared, p0: Pc, p1: Pc, h: Shared, pc: Pc)
    ensures Moved(System(g, [p0, p1]), 0, h, pc) == System(h, [pc, p1])
    ensures Moved(System(g, [p0, p1]), 1, h, pc) == System(h, [p0, pc])
  {
    assert [p0, p1][0 := pc] == [pc, p1] && [p0, p1][1 := pc] == [p0, pc];
  }

  lemma Proposed(r: Proposal)
    requires IsNew(r)
    ensures var a := [Start(1, Propose(r))] + Timely(1, 2);
            Run(Init(2), a) == System(Created(r), [Idle, Idle]) && CleanRun(Init(2), a)
  {
    var h := Init(2).sh.(created := Some(r));
    StartsPropose(r);
    CreateTwo(r);
    hide Run, Solo, CleanRun, Created, IsNew, Apply, Moved;
    var a := [Start(1, Propose(r))];
    assert [] + a == a;
    ThenStart([], Init(2), a[0]);
    Then(a, System(h, [Idle, CreateAppend(r)]), 1, 2, Created(r), Idle);
    MovedTwo(h, Idle, CreateAppend(r), Created(r), Idle);
  }

  lemma LookedUp(r: Proposal)
    requires IsNew(r)
    ensures var a := [Start(1, Propose(r))] + Timely(1, 2) + [Start(0, QuantApprove)] + Timely(0, 1);
            Run(Init(2), a) == System(Created(r), [ClaimRead, Idle]) && CleanRun(Init(2), a)
  {
    var g := Created(r);
    Proposed(r);
    LooksUp(r);
    StartsApprove(g, Idle);
    assert g.tail == Ended;
    hide Run, Solo, CleanRun, Created, IsNew, Apply, Moved, Timely;
    var a := [Start(1, Propose(r))] + Timely(1, 2);
    ThenStart(a, System(g, [Idle, Idle]), Start(0, QuantApprove));
    Then(a + [Start(0, QuantApprove)], System(g, [Get, Idle]), 0, 1, g, ClaimRead);
    MovedTwo(g, Get, Idle, g, ClaimRead);
  }

  lemma OverlapReached(r: Proposal)
    requires IsNew(r)
    ensures var s := Run(Init(2), Overlapping(r));
            |s.procs| == 2 && s.procs[0] == ClaimRead && s.procs[1].Fire? && s.sh.tail == Ended
    ensures CleanRun(Init(2), Overlapping(r))
  {
    var g, u := Created(r), Claimed(r, "", None, None);
    LookedUp(r);
    UpToFire(g, r, IN_TIME);
    StartsApprove(g, ClaimRead);
    assert g.tail == Ended && ClaimedStores(g, u).tail == Ended;
    hide Run, Solo, CleanRun, Created, Claimed, ClaimedStores, IsNew, Apply, Moved, Timely;
    var a := [Start(1, Propose(r))] + Timely(1, 2) + [Start(0, QuantApprove)] + Timely(0, 1);
    ThenStart(a, System(g, [ClaimRead, Idle]), Start(1, QuantApprove));
    Then(a + [Start(1, QuantApprove)], System(g, [ClaimRead, Get]), 1, 4, ClaimedStores(g, u), Fire(u));
    MovedTwo(g, ClaimRead, Get, ClaimedStores(g, u), Fire(u));
  }

  /** Such a run exists for every proposal: a clean one, without a crash, in which a process fires
      although its one read inside the claim came too late. */
  lemma TtlSlips(r: Proposal) returns (before: seq<Action>, more: seq<Action>)
    requires IsNew(r)
    ensures CleanRun(Init(2), before + more)
    ensures var t := Run(Init(2), before); |t.procs| == 2 && t.procs[0] == ClaimRead
    ensures var t := Run(Init(2), before + more); |t.procs| == 2 && t.procs[0].Fire?
    ensures forall k :: 0 <= k < |more| ==> more[k].Step? && more[k].input.late
  {
    before := Overlapping(r);
    OverlapReached(r);
    hide Run, CleanRun, Overlapping;
    more := LateClaimFires(2, before, 0, 1);
    assert (before + more)[..|before|] == before;
    RunProcs(Init(2), before + more);
  }

  // ---------------------------------------------------------------- no size, no claim

  /** Where a process is that looked up a proposal it has no size for. */
  predicate Away(pc: Pc) {
    pc == Idle || pc == ExpireRead(Done) || (pc.ExpireCas? && pc.back == Done) || pc.ExpireAppend?
  }

  lemma AwayStep(s: System, a: Action, pid: nat)
    requires pid < |s.procs| && Away(s.procs[pid]) && !(a.Start? && a.pid == pid)
    ensures |Apply(s, a).procs| == |s.procs| && Away(Apply(s, a).procs[pid])
  {
    hide Effect, Reindexed, Crashed, Torn;
  }

  /** An approval whose size resolves to zero at the lookup reaches no claim in any run, whatever the
      row, the clock and the others do, until the process starts another operation. */
  lemma {:induction false} UnsizedNeverClaims(s: System, pid: nat, i: Input, actions: seq<Action>)
    requires pid < |s.procs| && s.procs[pid] == Get && !i.sized
    requires forall a :: a in actions ==> !(a.Start? && a.pid == pid)
    ensures var t := Run(Apply(s, Step(pid, i)), actions);
            |t.procs| == |s.procs| && Away(t.procs[pid]) && t.procs[pid] != ClaimRead && !InClaim(t.procs[pid])
  {
    hide Apply;
    if actions == [] {
      UnsizedLeaves(s, pid, i);
    } else {
      var front, a := actions[..|actions| - 1], actions[|actions| - 1];
      assert a in actions && forall x :: x in front ==> x in actions;
      UnsizedNeverClaims(s, pid, i, front);
      AwayStep(Run(Apply(s, Step(pid, i)), front), a, pid);
    }
  }

  lemma UnsizedLeaves(s: System, pid: nat, i: Input)
    requires pid < |s.procs| && s.procs[pid] == Get && !i.sized
    ensures |Apply(s, Step(pid, i)).procs| == |s.procs| && Away(Apply(s, Step(pid, i)).procs[pid])
  {
    hide Effect;
  }
}
