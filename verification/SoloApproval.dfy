/** One `quant_approve` running undisturbed: the step machine leaves what the store's own
    operation leaves. */
module SoloApproval {
  import opened Prelude
  import opened ProposalRecords
  import opened ApprovalProtocol

  /** `k` steps of one process, all under one input. */
  function Solo(h: Shared, pc: Pc, i: Input, k: nat): (Shared, Pc) {
    if k == 0 then (h, pc)
    else
      var (g, p) := Solo(h, pc, i, k - 1);
      (Effect(g, p, i), Goto(g, p, i))
  }

  lemma {:induction false} SoloIsRun(s: System, pid: nat, i: Input, k: nat)
    requires pid < |s.procs|
    ensures var (g, p) := Solo(s.sh, s.procs[pid], i, k);
            Run(s, seq(k, _ => Step(pid, i))) == Moved(s, pid, g, p)
  {
    hide Effect, Goto;
    var steps := seq(k, _ => Step(pid, i));
    if k == 0 {
      assert s.procs[pid := s.procs[pid]] == s.procs;
    } else {
      SoloIsRun(s, pid, i, k - 1);
      assert steps[..k - 1] == seq(k - 1, _ => Step(pid, i));
      var (g, p) := Solo(s.sh, s.procs[pid], i, k - 1);
      assert s.procs[pid := p][pid := Goto(g, p, i)] == s.procs[pid := Goto(g, p, i)];
    }
  }

  function Events(lines: seq<(Kind, Proposal)>): seq<Line> {
    if lines == [] then [] else [Event(lines[0].0, lines[0].1)] + Events(lines[1..])
  }

  /** The stores once the claim has won and its line is on the bus. */
  function ClaimedStores(h: Shared, u: Proposal): Shared {
    h.(row := Some(Row(Approved, u)), wins := h.wins + 1, bus := h.bus + [Event(Approve, u)])
  }

  /** What settling leaves, by outcome. */
  function SettledStores(g: Shared, u: Proposal, outcome: Outcome): Shared
    requires g.row.Some?
  {
    match outcome
    case Filled(e) =>
      var x := Executed(u, Some(e));
      g.(row := Some(Row(Approved, x)), bus := g.bus + [Event(Approve, x)], moved := g.moved + 1)
    case Ambiguous(m) => if m then g.(moved := g.moved + 1) else g
    case _ =>
      var x := Released(u);
      g.(row := Some(Row(Pending, x)), bus := g.bus + [Event(Create, x)], epochs := g.epochs + 1)
  }

  predicate Steps(g: Shared, p: Pc, i: Input, h: Shared, q: Pc) {
    Effect(g, p, i) == h && Goto(g, p, i) == q
  }

  /** Four steps in a row. */
  lemma FourSteps(g: Shared, p: Pc, i: Input, g1: Shared, p1: Pc, g2: Shared, p2: Pc,
                  g3: Shared, p3: Pc, g4: Shared, p4: Pc)
    requires Steps(g, p, i, g1, p1) && Steps(g1, p1, i, g2, p2) && Steps(g2, p2, i, g3, p3) && Steps(g3, p3, i, g4, p4)
    ensures Solo(g, p, i, 4) == (g4, p4)
  {
    hide Effect, Goto;
    assert Solo(g, p, i, 0) == (g, p);
    assert Solo(g, p, i, 1) == (g1, p1);
    assert Solo(g, p, i, 2) == (g2, p2);
    assert Solo(g, p, i, 3) == (g3, p3);
  }

  lemma ReadSteps(h: Shared, p: Pc, i: Input)
    requires IsRead(p)
    ensures Steps(h, p, i, h, AfterRead(h, p, i))
  {
    hide AfterRead;
  }

  lemma WinSteps(h: Shared, p: Pc, i: Input)
    requires IsCas(p) && RowPending(h)
    ensures Steps(h, p, i, CasWin(h, p.upd), AfterCas(p, true))
  {
    hide AfterCas, CasWin;
  }

  lemma AppendSteps(h: Shared, p: Pc, i: Input)
    requires IsAppend(p) && h.tail == Ended
    ensures Steps(h, p, i, h.(bus := h.bus + [Event(AppendedKind(p), p.upd)]), AfterAppend(p))
  {
    hide AfterAppend, AppendedKind;
  }

  lemma UpsertSteps(h: Shared, p: Pc, i: Input)
    requires IsUpsert(p)
    ensures Steps(h, p, i, Upsert(h, p.upd), Idle)
  {
    hide Upsert;
  }

  lemma FireSteps(h: Shared, u: Proposal, i: Input)
    ensures Steps(h, Fire(u), i, if Moves(i.outcome) then h.(moved := h.moved + 1) else h, AfterFire(i.outcome))
  {
    hide AfterFire, Moves;
  }

  lemma RecordSteps(g: Shared, u: Proposal, i: Input, e: string)
    requires g.row == Some(Row(Approved, u)) && u.state == Approved && g.tail == Ended && i.outcome == Filled(e)
    ensures Solo(g, Fire(u), i, 4) == (SettledStores(g, u, i.outcome), Idle)
  {
    hide Solo, Steps;
    var x := Executed(u, Some(e));
    var m := g.(moved := g.moved + 1);
    var a := m.(bus := m.bus + [Event(Approve, x)]);
    FireSteps(g, u, i);
    ReadSteps(m, RecordRead(e), i);
    AppendSteps(m, RecordAppend(x), i);
    UpsertSteps(a, RecordUpsert(x), i);
    FourSteps(g, Fire(u), i, m, RecordRead(e), m, RecordAppend(x), a, RecordUpsert(x), Upsert(a, x), Idle);
  }

  lemma ReleaseSteps(g: Shared, u: Proposal, i: Input)
    requires g.row == Some(Row(Approved, u)) && u.state == Approved && u.execution.None? && g.tail == Ended
    requires i.outcome.Refused? || i.outcome.NoCapital?
    ensures Solo(g, Fire(u), i, 4) == (SettledStores(g, u, i.outcome), Idle)
  {
    hide Solo, Steps;
    var x := Released(u);
    var a := g.(bus := g.bus + [Event(Create, x)]);
    FireSteps(g, u, i);
    ReadSteps(g, ReleaseRead, i);
    AppendSteps(g, ReleaseAppend(x), i);
    UpsertSteps(a, ReleaseUpsert(x), i);
    FourSteps(g, Fire(u), i, g, ReleaseRead, g, ReleaseAppend(x), a, ReleaseUpsert(x), Upsert(a, x), Idle);
  }

  lemma IdleSteps(h: Shared, i: Input)
    ensures Steps(h, Idle, i, h, Idle)
  {
  }

  lemma StopSteps(g: Shared, u: Proposal, i: Input)
    requires g.row == Some(Row(Approved, u)) && i.outcome.Ambiguous?
    ensures Solo(g, Fire(u), i, 4) == (SettledStores(g, u, i.outcome), Idle)
  {
    hide Solo, Steps;
    var m := SettledStores(g, u, i.outcome);
    FireSteps(g, u, i);
    IdleSteps(m, i);
    FourSteps(g, Fire(u), i, m, Idle, m, Idle, m, Idle, m, Idle);
  }

  lemma UpToFire(h: Shared, r: Proposal, i: Input)
    requires h.row == Some(Row(Pending, r)) && IsNew(r) && h.tail == Ended && !i.late && i.sized
    ensures var u := Claimed(r, i.at, i.who, i.size);
            Solo(h, Get, i, 4) == (ClaimedStores(h, u), Fire(u))
  {
    hide Solo, Steps;
    var u := Claimed(r, i.at, i.who, i.size);
    ReadSteps(h, Get, i);
    ReadSteps(h, ClaimRead, i);
    WinSteps(h, ClaimCas(u), i);
    AppendSteps(CasWin(h, u), ClaimAppend(u), i);
    FourSteps(h, Get, i, h, ClaimRead, h, ClaimCas(u), CasWin(h, u), ClaimAppend(u), ClaimedStores(h, u), Fire(u));
  }

  lemma FromFire(g: Shared, u: Proposal, i: Input)
    requires g.row == Some(Row(Approved, u)) && u.state == Approved && u.execution.None? && g.tail == Ended
    ensures Solo(g, Fire(u), i, 4) == (SettledStores(g, u, i.outcome), Idle)
  {
    hide Solo;
    match i.outcome {
      case Filled(e) => RecordSteps(g, u, i, e);
      case Ambiguous(_) => StopSteps(g, u, i);
      case _ => ReleaseSteps(g, u, i);
    }
  }

  lemma {:induction false} SoloSplits(h: Shared, pc: Pc, i: Input, j: nat, k: nat)
    ensures var (g, p) := Solo(h, pc, i, j); Solo(h, pc, i, j + k) == Solo(g, p, i, k)
  {
    hide Effect, Goto;
    if k > 0 { SoloSplits(h, pc, i, j, k - 1); }
  }

  lemma EightSteps(h: Shared, r: Proposal, i: Input)
    requires h.row == Some(Row(Pending, r)) && IsNew(r) && h.tail == Ended && !i.late && i.sized
    ensures var u := Claimed(r, i.at, i.who, i.size);
            Solo(h, Get, i, 8) == (SettledStores(ClaimedStores(h, u), u, i.outcome), Idle)
  {
    hide Solo, SettledStores;
    var u := Claimed(r, i.at, i.who, i.size);
    SoloSplits(h, Get, i, 4, 4);
    UpToFire(h, r, i);
    FromFire(ClaimedStores(h, u), u, i);
  }

  /** Eight steps of a process among any number, undisturbed by the others, leave the record,
      the bus lines and the capital that the store's `quant_approve` specifies. */
  lemma SoloApproveIsApproval(s: System, pid: nat, r: Proposal, i: Input)
    requires pid < |s.procs| && s.procs[pid] == Get
    requires s.sh.row == Some(Row(Pending, r)) && IsNew(r) && s.sh.tail == Ended && !i.late && i.sized
    ensures var t := Run(s, seq(8, _ => Step(pid, i)));
            var p := Approval(r, i.at, i.who, i.size, i.outcome);
            && t.procs == s.procs[pid := Idle]
            && t.sh.row == Some(Row(p.state, p))
            && t.sh.bus == s.sh.bus + Events(ApprovalLines(r, i.at, i.who, i.size, i.outcome))
            && t.sh.moved == s.sh.moved + (if Moves(i.outcome) then 1 else 0)
  {
    var h, u := s.sh, Claimed(r, i.at, i.who, i.size);
    SoloIsRun(s, pid, i, 8);
    EightSteps(h, r, i);
    hide Solo, Run, ApprovalLines, Events, SettledStores, ClaimedStores, Approval, Claimed, IsNew;
    LinesOf(h.bus, r, i.at, i.who, i.size, i.outcome);
    StoresOf(h, r, i);
  }

  lemma StoresOf(h: Shared, r: Proposal, i: Input)
    requires IsNew(r) && h.row == Some(Row(Pending, r))
    ensures var u := Claimed(r, i.at, i.who, i.size);
            var t := SettledStores(ClaimedStores(h, u), u, i.outcome);
            var p := Approval(r, i.at, i.who, i.size, i.outcome);
            && t.row == Some(Row(p.state, p))
            && t.moved == h.moved + (if Moves(i.outcome) then 1 else 0)
            && t.bus == match i.outcome
                        case Filled(e) => h.bus + [Event(Approve, u)] + [Event(Approve, Executed(u, Some(e)))]
                        case Ambiguous(_) => h.bus + [Event(Approve, u)]
                        case _ => h.bus + [Event(Approve, u)] + [Event(Create, Released(u))]
  {
    assert Released(Claimed(r, i.at, i.who, i.size)) == r;
  }

  // ---------------------------------------------------------------- the other ways it can go

  lemma {:induction false} SoloRests(h: Shared, i: Input, k: nat)
    ensures Solo(h, Idle, i, k) == (h, Idle)
  {
    IdleSteps(h, i);
    hide Effect, Goto;
    if k > 0 { SoloRests(h, i, k - 1); }
  }

  /** A process that rests by then still rests after eight steps. */
  lemma RestsByEight(s: System, pid: nat, i: Input, h: Shared, k: nat)
    requires pid < |s.procs| && k <= 8 && Solo(s.sh, s.procs[pid], i, k) == (h, Idle)
    ensures Run(s, seq(8, _ => Step(pid, i))) == Moved(s, pid, h, Idle)
  {
    hide Solo, Run;
    SoloIsRun(s, pid, i, 8);
    SoloSplits(s.sh, s.procs[pid], i, k, 8 - k);
    SoloRests(h, i, 8 - k);
  }

  /** A read that decides to take a pending row, the compare-and-set, and the line. */
  lemma TakeSteps(h: Shared, p: Pc, i: Input)
    requires IsRead(p) && RowPending(h) && h.tail == Ended
    requires var c := AfterRead(h, p, i); IsCas(c) && IsAppend(AfterCas(c, true)) && AfterAppend(AfterCas(c, true)) == Idle
    ensures var c := AfterRead(h, p, i);
            var a := AfterCas(c, true);
            Solo(h, p, i, 4) == (CasWin(h, c.upd).(bus := h.bus + [Event(AppendedKind(a), a.upd)]), Idle)
  {
    hide Solo, Steps, AfterRead, AfterCas, AfterAppend, AppendedKind;
    var c := AfterRead(h, p, i);
    var a := AfterCas(c, true);
    var g := CasWin(h, c.upd).(bus := h.bus + [Event(AppendedKind(a), a.upd)]);
    ReadSteps(h, p, i);
    WinSteps(h, c, i);
    AppendSteps(CasWin(h, c.upd), a, i);
    IdleSteps(g, i);
    FourSteps(h, p, i, h, c, CasWin(h, c.upd), a, g, Idle, g, Idle);
  }

  /** Where the TTL is looked at. */
  predicate TestsTtl(p: Pc) {
    p.Get? || p.ClaimRead? || p.LostRead? || p.RejectRead? || p.LegacyRead?
  }

  lemma LateGoesToExpire(h: Shared, p: Pc, r: Proposal, i: Input)
    requires TestsTtl(p) && h.row == Some(Row(Pending, r)) && r.state == Pending && i.late
    ensures IsRead(p) && AfterRead(h, p, i).ExpireRead?
  {
  }

  lemma ExpireSteps(h: Shared, back: Back, r: Proposal, i: Input)
    requires h.row == Some(Row(Pending, r)) && r.state == Pending && h.tail == Ended
    ensures var x := ExpiredAs(r, i.at);
            Solo(h, ExpireRead(back), i, 4)
            == (h.(row := Some(Row(Expired, x)), wins := h.wins + 1, bus := h.bus + [Event(Expire, x)]), Idle)
  {
    hide Solo;
    assert AfterRead(h, ExpireRead(back), i) == ExpireCas(ExpiredAs(r, i.at), back);
    TakeSteps(h, ExpireRead(back), i);
  }

  /** What is left of an expired proposal: the row and one line say so, and no capital moved. */
  predicate ExpiredBy(g: Shared, h: Shared, r: Proposal, at: string) {
    && h.row.Some? && h.row.value.state == Expired && h.row.value.rec == ExpiredAs(r, at)
    && h.bus == g.bus + [Event(Expire, ExpiredAs(r, at))] && h.moved == g.moved && h.tail == g.tail
  }

  /** An approval at its lookup, its claim or its lost claim, a rejection or a legacy approval:
      if the TTL has run out, the proposal is expired and nothing else happens. */
  lemma SoloLateExpires(s: System, pid: nat, r: Proposal, i: Input)
    requires pid < |s.procs| && TestsTtl(s.procs[pid]) && i.late
    requires s.sh.row == Some(Row(Pending, r)) && r.state == Pending && s.sh.tail == Ended
    ensures var t := Run(s, seq(8, _ => Step(pid, i)));
            t.procs == s.procs[pid := Idle] && ExpiredBy(s.sh, t.sh, r, i.at)
  {
    hide Solo, Run, ExpiredAs, AfterRead, Steps;
    var h, p := s.sh, s.procs[pid];
    LateGoesToExpire(h, p, r, i);
    OneRead(h, p, i);
    ExpireSteps(h, AfterRead(h, p, i).back, r, i);
    SoloSplits(h, p, i, 1, 4);
    RestsByEight(s, pid, i, Solo(h, p, i, 5).0, 5);
  }

  lemma OneRead(h: Shared, p: Pc, i: Input)
    requires IsRead(p)
    ensures Solo(h, p, i, 1) == (h, AfterRead(h, p, i))
  {
    ReadSteps(h, p, i);
    hide Effect, Goto, AfterRead;
    assert Solo(h, p, i, 0) == (h, p);
  }

  /** An approval that looked in time and reaches its claim too late expires the proposal. */
  lemma SoloLateAtClaim(s: System, pid: nat, r: Proposal, early: Input, i: Input)
    requires pid < |s.procs| && s.procs[pid] == Get && !early.late && early.sized && i.late
    requires s.sh.row == Some(Row(Pending, r)) && r.state == Pending && s.sh.tail == Ended
    ensures var t := Run(Apply(s, Step(pid, early)), seq(8, _ => Step(pid, i)));
            t.procs == s.procs[pid := Idle] && ExpiredBy(s.sh, t.sh, r, i.at)
  {
    var u := Apply(s, Step(pid, early));
    assert u.sh == s.sh && u.procs == s.procs[pid := ClaimRead];
    assert u.procs[pid := Idle] == s.procs[pid := Idle];
    hide Run, Apply, ExpiredBy;
    SoloLateExpires(u, pid, r, i);
  }

  /** What the operator's own transitions make of a live proposal, with the line they write. */
  function Transition(p: Pc, r: Proposal, i: Input): (Kind, Proposal)
    requires p.RejectRead? || p.LegacyRead?
  {
    if p.RejectRead? then (Kind.Reject, RejectedAs(r, i.at, p.reason))
    else (Approve, LegacyApproved(r, i.at, i.who, i.size, p.exec))
  }

  lemma TransitionRead(h: Shared, p: Pc, r: Proposal, i: Input)
    requires (p.RejectRead? || p.LegacyRead?) && h.row == Some(Row(Pending, r)) && r.state == Pending && !i.late
    ensures IsRead(p)
    ensures var (kind, x) := Transition(p, r, i);
            AfterRead(h, p, i) == (if p.RejectRead? then RejectCas(x) else LegacyCas(x))
            && kind == if p.RejectRead? then Kind.Reject else Approve
  {
  }

  lemma TransitionSteps(h: Shared, p: Pc, r: Proposal, i: Input)
    requires (p.RejectRead? || p.LegacyRead?) && h.row == Some(Row(Pending, r)) && r.state == Pending
    requires h.tail == Ended && !i.late
    ensures var (kind, x) := Transition(p, r, i);
            Solo(h, p, i, 4)
            == (h.(row := Some(Row(x.state, x)), wins := h.wins + 1, bus := h.bus + [Event(kind, x)]), Idle)
  {
    hide Solo, AfterRead, Transition;
    TransitionRead(h, p, r, i);
    TakeSteps(h, p, i);
  }

  /** In time, a rejection and a legacy approval do what the store's operations do. */
  lemma SoloTransitions(s: System, pid: nat, r: Proposal, i: Input)
    requires pid < |s.procs| && (s.procs[pid].RejectRead? || s.procs[pid].LegacyRead?) && !i.late
    requires s.sh.row == Some(Row(Pending, r)) && r.state == Pending && s.sh.tail == Ended
    ensures var t := Run(s, seq(8, _ => Step(pid, i)));
            var (kind, x) := Transition(s.procs[pid], r, i);
            && t.procs == s.procs[pid := Idle] && t.sh.row == Some(Row(x.state, x))
            && t.sh.bus == s.sh.bus + [Event(kind, x)] && t.sh.moved == s.sh.moved
  {
    hide Solo, Run, Transition;
    TransitionSteps(s.sh, s.procs[pid], r, i);
    RestsByEight(s, pid, i, Solo(s.sh, s.procs[pid], i, 4).0, 4);
  }

  /** The sweep expires whatever is pending, without a look at the clock of its own. */
  lemma SoloSweeps(s: System, pid: nat, r: Proposal, i: Input)
    requires pid < |s.procs| && s.procs[pid] == ExpireRead(Done)
    requires s.sh.row == Some(Row(Pending, r)) && r.state == Pending && s.sh.tail == Ended
    ensures var t := Run(s, seq(8, _ => Step(pid, i)));
            t.procs == s.procs[pid := Idle] && ExpiredBy(s.sh, t.sh, r, i.at)
  {
    hide Solo, Run;
    ExpireSteps(s.sh, Done, r, i);
    RestsByEight(s, pid, i, Solo(s.sh, s.procs[pid], i, 4).0, 4);
  }

  /** Nothing to do: no row, a row that is not pending, or a live one without a size. */
  predicate Refuses(h: Shared, p: Pc, i: Input) {
    && (p.Get? || p.RejectRead? || p.LegacyRead? || p == ExpireRead(Done))
    && (h.row.None? || h.row.value.rec.state != Pending || (p.Get? && !i.late && !i.sized))
  }

  lemma SoloRefuses(s: System, pid: nat, i: Input)
    requires pid < |s.procs| && Refuses(s.sh, s.procs[pid], i)
    ensures Run(s, seq(8, _ => Step(pid, i))) == System(s.sh, s.procs[pid := Idle])
  {
    var h, p := s.sh, s.procs[pid];
    ReadSteps(h, p, i);
    assert Solo(h, p, i, 1) == (h, Idle) by {
      assert Solo(h, p, i, 0) == (h, p);
    }
    hide Solo, Run;
    RestsByEight(s, pid, i, h, 1);
  }

  lemma OneEvent(k: Kind, p: Proposal)
    ensures Events([(k, p)]) == [Event(k, p)]
  {
  }

  lemma TwoEvents(k: Kind, p: Proposal, l: Kind, q: Proposal)
    ensures Events([(k, p), (l, q)]) == [Event(k, p)] + [Event(l, q)]
  {
    assert [(k, p), (l, q)][1..] == [(l, q)];
    OneEvent(l, q);
  }

  lemma LinesOf(bus: seq<Line>, r: Proposal, at: string, who: Option<string>, size: Option<Double>, outcome: Outcome)
    requires IsNew(r)
    ensures var u := Claimed(r, at, who, size);
            bus + Events(ApprovalLines(r, at, who, size, outcome))
            == match outcome
               case Filled(e) => bus + [Event(Approve, u)] + [Event(Approve, Executed(u, Some(e)))]
               case Ambiguous(_) => bus + [Event(Approve, u)]
               case _ => bus + [Event(Approve, u)] + [Event(Create, Released(u))]
  {
    var u := Claimed(r, at, who, size);
    assert Released(u) == r;
    hide Events;
    OneEvent(Approve, u);
    TwoEvents(Approve, u, Create, r);
    if outcome.Filled? { TwoEvents(Approve, u, Approve, Executed(u, Some(outcome.execution))); }
  }
}
