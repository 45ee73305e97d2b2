/** The inductive invariant of the approval protocol: every clean step keeps it. */
module ApprovalInvariant {
  import opened Prelude
  import opened ProposalRecords
  import opened ApprovalProtocol

  // ---------------------------------------------------------------- the invariant

  /** Processes that own the row: between a won compare-and-set (or the create) and the end
      of the method that won it. */
  predicate Holder(pc: Pc) {
    pc.CreateAppend? || pc.CreateUpsert? || pc.ExpireAppend? || pc.ClaimAppend? || pc.Fire?
    || pc.ReleaseRead? || pc.ReleaseAppend? || pc.ReleaseUpsert? || pc.RecordRead?
    || pc.RecordAppend? || pc.RecordUpsert? || pc.RejectAppend? || pc.LegacyAppend?
  }

  predicate KindFits(kind: Kind, st: State) {
    match kind
    case Create => st == Pending
    case Approve => st == Approved
    case Reject => st == Rejected
    case Expire => st == Expired
  }

  predicate LineOk(c: Proposal, l: Line) {
    l.Event? && Origin(l.rec) == c && KindFits(l.kind, l.rec.state) && (l.kind == Create ==> l.rec == c)
  }

  predicate LinesOk(c: Proposal, bus: seq<Line>) {
    forall k :: 0 <= k < |bus| ==> LineOk(c, bus[k])
  }

  predicate RowOk(c: Proposal, r: Row) {
    r.state == r.rec.state && Origin(r.rec) == c && (r.state == Pending ==> r.rec == c)
  }

  predicate SharedOk(h: Shared) {
    && (h.created.None? ==> h.bus == [] && h.row.None?)
    && (h.created.Some? ==>
          && IsNew(h.created.value)
          && LinesOk(h.created.value, h.bus)
          && (h.row.Some? ==> RowOk(h.created.value, h.row.value)))
    && PhaseOf(h.bus) != Bad
    && (RowPending(h) ==> PhaseOf(h.bus) == Open && h.moved == 0)
    && h.moved <= 1
    && (h.moved == 1 ==> LastIs(h, Approved))
    && h.wins + (if RowPending(h) then 1 else 0) <= h.epochs
  }

  predicate LastIs(h: Shared, st: State) {
    |h.bus| > 0 && h.bus[|h.bus| - 1].Event? && h.bus[|h.bus| - 1].rec.state == st
  }

  predicate LastRec(h: Shared, rec: Proposal) {
    |h.bus| > 0 && h.bus[|h.bus| - 1].Event? && h.bus[|h.bus| - 1].rec == rec
  }

  /** The row and the last bus line say the same. */
  predicate Agrees(h: Shared) {
    match h.row
    case None => h.bus == []
    case Some(r) => LastRec(h, r.rec) && r.state == r.rec.state
  }

  predicate RowMarked(h: Shared) {
    h.row.Some? && Marked(h.row.value.rec)
  }

  /** The row is an unexecuted claim whose approve line is the last on the bus. */
  predicate ClaimOnBus(h: Shared) {
    h.row.Some? && h.row.value.state == Approved && !RowMarked(h)
    && LastRec(h, h.row.value.rec) && PhaseOf(h.bus) == Held
  }

  /** The row was just taken from pending by `u`, whose line is not yet on the bus. */
  predicate JustTaken(h: Shared, u: Proposal, st: State) {
    h.row == Some(Row(st, u)) && u.state == st && PhaseOf(h.bus) == Open && h.moved == 0
  }

  predicate PcOk(h: Shared, pc: Pc) {
    match pc
    case CreateAppend(u) => h.created == Some(u) && h.bus == [] && h.row.None? && h.moved == 0
    case CreateUpsert(u) =>
      h.created == Some(u) && h.row.None? && h.moved == 0 && PhaseOf(h.bus) == Open && LastRec(h, u)
    case ExpireCas(u, _) => h.created == Some(Origin(u)) && u.state == Expired
    case RejectCas(u) => h.created == Some(Origin(u)) && u.state == Rejected
    case LegacyCas(u) => h.created == Some(Origin(u)) && u.state == Approved
    case ClaimCas(u) => h.created == Some(Origin(u)) && u.state == Approved && (Marked(u) ==> RowMarked(h))
    case ExpireAppend(u) => JustTaken(h, u, Expired)
    case RejectAppend(u) => JustTaken(h, u, Rejected)
    case LegacyAppend(u) => JustTaken(h, u, Approved)
    case ClaimAppend(u) => JustTaken(h, u, Approved) && !Marked(u)
    case Fire(u) => ClaimOnBus(h) && h.row == Some(Row(Approved, u)) && h.moved == 0
    case ReleaseRead => ClaimOnBus(h) && h.moved == 0
    case ReleaseAppend(u) => ClaimOnBus(h) && h.moved == 0 && h.created == Some(u)
    case ReleaseUpsert(u) =>
      && h.row.Some? && h.row.value.state == Approved && !RowMarked(h)
      && h.moved == 0 && h.created == Some(u) && PhaseOf(h.bus) == Open && LastRec(h, u)
    case RecordRead(_) => ClaimOnBus(h) && h.moved == 1
    case RecordAppend(u) =>
      ClaimOnBus(h) && h.moved == 1 && h.created == Some(Origin(u)) && u.state == Approved && Marked(u)
    case RecordUpsert(u) =>
      && h.row.Some? && h.row.value.state == Approved
      && h.moved == 1 && h.created == Some(Origin(u)) && u.state == Approved && Marked(u)
      && PhaseOf(h.bus) == Spent && LastRec(h, u)
    case _ => true
  }

  predicate Unheld(s: System) {
    forall k :: 0 <= k < |s.procs| ==> !Holder(s.procs[k])
  }

  predicate Local(s: System) {
    forall k :: 0 <= k < |s.procs| ==> PcOk(s.sh, s.procs[k])
  }

  predicate OneHolder(s: System) {
    forall j, k :: 0 <= j < k < |s.procs| && Holder(s.procs[j]) ==> !Holder(s.procs[k])
  }

  predicate Inv(s: System) {
    && SharedOk(s.sh)
    && Local(s)
    && OneHolder(s)
    && (RowPending(s.sh) ==> Unheld(s))
    && (Unheld(s) && !s.sh.dirty ==> Agrees(s.sh))
  }

  // ---------------------------------------------------------------- one process moves

  /** Two stores that differ at most in the file's tail and the crash flag. */
  predicate SameStores(g: Shared, h: Shared) {
    h == g.(dirty := h.dirty, tail := h.tail) && (g.dirty ==> h.dirty)
  }

  /** What a move of one process from `(g, pc)` to `(h, next)` owes the others. */
  predicate GoodMove(g: Shared, pc: Pc, h: Shared, next: Pc) {
    && SharedOk(h) && PcOk(h, next)
    && (h.created == g.created || g.created.None?)
    && (RowMarked(g) ==> RowMarked(h))
    && (g.dirty ==> h.dirty)
    && (!Holder(pc) ==> if Holder(next) then RowPending(g) || g.created.None? else SameStores(g, h))
    && (RowPending(h) ==> !Holder(next))
    && (Holder(pc) && !Holder(next) && !h.dirty ==> Agrees(h))
  }

  /** A process that holds nothing keeps its facts while the row's marks survive. */
  lemma BystanderKept(g: Shared, h: Shared, pc: Pc)
    requires PcOk(g, pc) && !Holder(pc)
    requires h.created == g.created || g.created.None?
    requires RowMarked(g) ==> RowMarked(h)
    ensures PcOk(h, pc)
  {
    hide RowMarked, Marked;
  }

  lemma SameFacts(g: Shared, h: Shared, pc: Pc)
    requires SameStores(g, h)
    ensures PcOk(h, pc) == PcOk(g, pc) && Agrees(h) == Agrees(g) && SharedOk(h) == SharedOk(g)
    ensures RowPending(h) == RowPending(g) && RowMarked(h) == RowMarked(g)
  {
    hide PhaseOf, LinesOk, RowOk;
  }

  /** Nobody else can own the row while one process does, nor before a row exists. */
  lemma OthersHoldNothing(s: System, pid: nat, k: nat)
    requires Inv(s) && pid < |s.procs| && k < |s.procs| && k != pid
    requires Holder(s.procs[pid]) || RowPending(s.sh) || s.sh.created.None?
    ensures !Holder(s.procs[k])
  {
    hide SharedOk, Agrees, PhaseOf;
    assert k < pid || pid < k;
    assert PcOk(s.sh, s.procs[k]);
    if s.sh.created.None? { NothingBeforeCreate(s.sh, s.procs[k]); }
  }

  lemma NothingBeforeCreate(h: Shared, pc: Pc)
    requires SharedOk(h) && PcOk(h, pc) && h.created.None?
    ensures !Holder(pc)
  {
  }

  lemma OtherKept(s: System, pid: nat, h: Shared, next: Pc, k: nat)
    requires Inv(s) && pid < |s.procs| && GoodMove(s.sh, s.procs[pid], h, next)
    requires k < |s.procs| && k != pid
    ensures PcOk(h, s.procs[k]) && (Holder(next) ==> !Holder(s.procs[k]))
    ensures RowPending(h) ==> !Holder(s.procs[k])
  {
    assert PcOk(s.sh, s.procs[k]);
    hide SharedOk, PcOk, Agrees, Marked, IsNew;
    if Holder(s.procs[pid]) || Holder(next) {
      OthersHoldNothing(s, pid, k);
      BystanderKept(s.sh, h, s.procs[k]);
    } else {
      SameFacts(s.sh, h, s.procs[k]);
    }
  }

  lemma AgreementKept(s: System, pid: nat, h: Shared, next: Pc)
    requires Inv(s) && pid < |s.procs| && GoodMove(s.sh, s.procs[pid], h, next)
    requires Unheld(Moved(s, pid, h, next)) && !h.dirty
    ensures Agrees(h)
  {
    hide SharedOk, PcOk, Agrees, RowMarked;
    var t := Moved(s, pid, h, next);
    assert t.procs[pid] == next;
    if !Holder(s.procs[pid]) {
      forall k | 0 <= k < |s.procs| ensures !Holder(s.procs[k]) {
        if k != pid { assert t.procs[k] == s.procs[k]; }
      }
      SameFacts(s.sh, h, next);
    }
  }

  /** A good move of one process keeps the invariant. */
  lemma MoveKeepsInv(s: System, pid: nat, h: Shared, next: Pc)
    requires Inv(s) && pid < |s.procs| && GoodMove(s.sh, s.procs[pid], h, next)
    ensures Inv(Moved(s, pid, h, next))
  {
    hide SharedOk, PcOk, Agrees, RowMarked;
    var t := Moved(s, pid, h, next);
    forall k | 0 <= k < |s.procs| && k != pid
      ensures PcOk(h, t.procs[k]) && (Holder(next) ==> !Holder(t.procs[k]))
      ensures RowPending(h) ==> !Holder(t.procs[k])
    {
      OtherKept(s, pid, h, next, k);
    }
    if Unheld(t) && !h.dirty { AgreementKept(s, pid, h, next); }
  }

  // ---------------------------------------------------------------- every step is good

  lemma QuietMove(g: Shared, pc: Pc, h: Shared, next: Pc)
    requires SharedOk(g) && PcOk(g, next) && SameStores(g, h)
    requires Holder(next) ==> Holder(pc)
    requires RowPending(g) ==> !Holder(pc)
    requires Holder(pc) && !Holder(next) && !h.dirty ==> Agrees(g)
    ensures GoodMove(g, pc, h, next)
  {
    SameFacts(g, h, next);
    hide SharedOk, PcOk, Agrees;
  }

  lemma ReadFacts(h: Shared, pc: Pc, i: Input)
    requires SharedOk(h) && PcOk(h, pc) && IsRead(pc)
    ensures PcOk(h, AfterRead(h, pc, i))
    ensures Holder(AfterRead(h, pc, i)) <==> Holder(pc)
  {
    hide PhaseOf, LinesOk;
  }

  lemma TakeFacts(h: Shared, u: Proposal)
    requires SharedOk(h) && RowPending(h) && h.created == Some(Origin(u)) && u.state != Pending
    ensures SharedOk(CasWin(h, u)) && JustTaken(CasWin(h, u), u, u.state)
    ensures !RowMarked(h) && !RowPending(CasWin(h, u))
  {
    hide PhaseOf, LinesOk;
  }

  lemma CasUpdate(h: Shared, pc: Pc)
    requires PcOk(h, pc) && IsCas(pc)
    ensures h.created == Some(Origin(pc.upd)) && pc.upd.state != Pending
  {
    hide RowMarked, Marked;
  }

  lemma WonPc(h: Shared, t: Shared, pc: Pc)
    requires PcOk(h, pc) && IsCas(pc) && !RowMarked(h) && JustTaken(t, pc.upd, pc.upd.state)
    ensures PcOk(t, AfterCas(pc, true)) && Holder(AfterCas(pc, true)) && !Holder(pc)
  {
    hide JustTaken, RowMarked, ClaimOnBus, LastRec, Marked;
  }

  /** A won compare-and-set: the row was pending, so nobody held it. */
  lemma WinIsGood(h: Shared, pc: Pc)
    requires SharedOk(h) && PcOk(h, pc) && IsCas(pc) && RowPending(h)
    ensures GoodMove(h, pc, CasWin(h, pc.upd), AfterCas(pc, true))
  {
    CasUpdate(h, pc);
    TakeFacts(h, pc.upd);
    WonPc(h, CasWin(h, pc.upd), pc);
    hide SharedOk, PcOk, JustTaken, RowMarked, Agrees, PhaseOf, Holder;
  }

  lemma LossIsGood(h: Shared, pc: Pc)
    requires SharedOk(h) && PcOk(h, pc) && IsCas(pc)
    ensures GoodMove(h, pc, h, AfterCas(pc, false))
  {
    hide SharedOk, Agrees, RowMarked;
  }

  /** A line the automaton allows, appended while the row is not pending. */
  lemma LineFacts(h: Shared, kind: Kind, u: Proposal)
    requires SharedOk(h) && h.tail == Ended && !RowPending(h)
    requires h.created.Some? && LineOk(h.created.value, Event(kind, u))
    requires NextPhase(PhaseOf(h.bus), Event(kind, u)) != Bad
    requires h.moved == 1 ==> u.state == Approved
    ensures var t := Append(h, kind, u);
            SharedOk(t) && LastRec(t, u) && PhaseOf(t.bus) == NextPhase(PhaseOf(h.bus), Event(kind, u))
  {
    var t := Append(h, kind, u);
    assert t.bus[..|t.bus| - 1] == h.bus;
    hide LineOk, RowOk, IsNew;
  }

  /** What an owner about to append has to say about its line. */
  lemma LineAllowed(h: Shared, pc: Pc)
    requires SharedOk(h) && PcOk(h, pc) && IsAppend(pc)
    ensures var l := Event(AppendedKind(pc), pc.upd);
            && Holder(pc) && !RowPending(h) && h.created.Some? && LineOk(h.created.value, l)
            && NextPhase(PhaseOf(h.bus), l) != Bad && (h.moved == 1 ==> pc.upd.state == Approved)
  {
    hide LinesOk;
  }

  lemma AppendedPc(h: Shared, t: Shared, pc: Pc)
    requires PcOk(h, pc) && IsAppend(pc) && LastRec(t, pc.upd)
    requires t.row == h.row && t.created == h.created && t.moved == h.moved
    requires PhaseOf(t.bus) == NextPhase(PhaseOf(h.bus), Event(AppendedKind(pc), pc.upd))
    ensures PcOk(t, AfterAppend(pc)) && (!Holder(AfterAppend(pc)) ==> Agrees(t))
  {
    hide PhaseOf;
    PhaseOfNone();
    assert pc.CreateAppend? ==> PhaseOf(h.bus) == Fresh;
  }

  lemma PhaseOfNone()
    ensures PhaseOf([]) == Fresh
  {
  }

  lemma AppendIsGood(h: Shared, pc: Pc)
    requires SharedOk(h) && PcOk(h, pc) && IsAppend(pc) && h.tail == Ended
    ensures GoodMove(h, pc, Append(h, AppendedKind(pc), pc.upd), AfterAppend(pc)) && Holder(pc)
  {
    LineAllowed(h, pc);
    LineFacts(h, AppendedKind(pc), pc.upd);
    AppendedPc(h, Append(h, AppendedKind(pc), pc.upd), pc);
    hide SharedOk, PcOk, Agrees, LastRec, PhaseOf, LineOk;
  }

  /** The unconditional upsert writes exactly the last bus line. */
  lemma UpsertFacts(h: Shared, u: Proposal)
    requires SharedOk(h) && h.created == Some(Origin(u)) && LastRec(h, u) && PhaseOf(h.bus) != Bad
    requires u.state == Pending ==> PhaseOf(h.bus) == Open && h.moved == 0 && h.created == Some(u)
    ensures SharedOk(Upsert(h, u)) && Agrees(Upsert(h, u))
  {
    hide PhaseOf, LinesOk;
  }

  lemma UpsertIsGood(h: Shared, pc: Pc)
    requires SharedOk(h) && PcOk(h, pc) && IsUpsert(pc)
    ensures GoodMove(h, pc, Upsert(h, pc.upd), Idle) && Holder(pc)
  {
    hide PhaseOf, LinesOk;
    UpsertFacts(h, pc.upd);
    hide SharedOk, Agrees, LastRec;
  }

  lemma FireIsGood(h: Shared, u: Proposal, outcome: Outcome)
    requires SharedOk(h) && PcOk(h, Fire(u))
    ensures GoodMove(h, Fire(u), if Moves(outcome) then h.(moved := h.moved + 1) else h, AfterFire(outcome))
  {
    hide PhaseOf, LinesOk, Marked;
  }

  lemma {:induction false} StepIsGood(h: Shared, pc: Pc, i: Input)
    requires SharedOk(h) && PcOk(h, pc) && (RowPending(h) ==> !Holder(pc)) && (IsAppend(pc) ==> h.tail == Ended)
    ensures GoodMove(h, pc, Effect(h, pc, i), Goto(h, pc, i))
  {
    hide SharedOk, PcOk, GoodMove, AfterRead, AfterCas, AfterAppend, AfterFire, Append, Upsert, CasWin;
    if IsRead(pc) {
      ReadFacts(h, pc, i);
      QuietMove(h, pc, h, AfterRead(h, pc, i));
    } else if IsCas(pc) {
      if RowPending(h) { WinIsGood(h, pc); } else { LossIsGood(h, pc); }
    } else if IsAppend(pc) {
      AppendIsGood(h, pc);
    } else if IsUpsert(pc) {
      UpsertIsGood(h, pc);
    } else if pc.Fire? {
      FireIsGood(h, pc.upd, i.outcome);
    } else {
      IdleIsGood(h, pc);
      assert pc == Idle;
    }
  }

  lemma IdleIsGood(h: Shared, pc: Pc)
    requires SharedOk(h)
    ensures PcOk(h, Idle) && (!Holder(pc) ==> GoodMove(h, pc, h, Idle))
  {
    hide SharedOk, Agrees;
  }

  // ---------------------------------------------------------------- crashes and recovery

  lemma CrashIsGood(h: Shared, pc: Pc, m: bool)
    requires SharedOk(h) && PcOk(h, pc) && (RowPending(h) ==> !Holder(pc))
    ensures GoodMove(h, pc, Crashed(h, pc, m), Idle)
  {
    hide PhaseOf, LinesOk, RowOk;
    if pc.Fire? {
      FireIsGood(h, pc.upd, Ambiguous(m));
      SameFacts(if m then h.(moved := h.moved + 1) else h, Crashed(h, pc, m), Idle);
    } else {
      IdleIsGood(h, pc);
      QuietMove(h, pc, Crashed(h, pc, m), Idle);
    }
  }

  lemma {:induction false} TornIsGood(h: Shared, pc: Pc, whole: bool)
    requires SharedOk(h) && PcOk(h, pc) && IsAppend(pc) && h.tail == Ended
    ensures GoodMove(h, pc, Torn(h, pc, whole), Idle)
  {
    AppendIsGood(h, pc);
    LineAllowed(h, pc);
    IdleIsGood(h, pc);
    hide SharedOk, PcOk, Agrees, PhaseOf, LineOk;
    if whole {
      SameFacts(Append(h, AppendedKind(pc), pc.upd), Torn(h, pc, whole), Idle);
    } else {
      SameFacts(h, Torn(h, pc, whole), Idle);
    }
  }

  /** With no garbled line, replay leaves the last line's record in the index. */
  lemma ReindexFacts(h: Shared)
    requires SharedOk(h)
    ensures var t := Reindexed(h);
            SharedOk(t) && Agrees(t) && t.created == h.created && t.moved == h.moved && t.bus == h.bus
  {
    if |h.bus| > 0 {
      var last := h.bus[|h.bus| - 1];
      assert LineOk(h.created.value, last);
      assert PhaseOf(h.bus) == NextPhase(PhaseOf(h.bus[..|h.bus| - 1]), last);
      assert LastEvent(h.bus) == Some(last.rec);
      hide PhaseOf, LastEvent, LinesOk;
      if last.rec.state == Pending { PendingLine(PhaseOf(h.bus[..|h.bus| - 1]), last); }
      UpsertFacts(h, last.rec);
      SameFacts(Upsert(h, last.rec), Upsert(h, last.rec).(dirty := h.dirty), Idle);
      UncrashedFacts(Upsert(h, last.rec));
    }
  }

  lemma PendingLine(p: Phase, l: Line)
    requires l.Event? && KindFits(l.kind, Pending) && NextPhase(p, l) != Bad
    ensures NextPhase(p, l) == Open
  {
  }

  lemma UncrashedFacts(h: Shared)
    requires SharedOk(h) && Agrees(h)
    ensures SharedOk(h.(dirty := false)) && Agrees(h.(dirty := false))
  {
    hide PhaseOf, LinesOk, RowOk;
  }

  lemma IdleInv(s: System, h: Shared)
    requires Quiet(s) && SharedOk(h) && (!h.dirty ==> Agrees(h))
    ensures Inv(System(h, s.procs))
  {
    hide SharedOk, Agrees;
  }

  lemma NoIndexFacts(h: Shared)
    requires SharedOk(h)
    ensures SharedOk(h.(row := None, dirty := true))
  {
    hide PhaseOf, LinesOk;
  }

  // ---------------------------------------------------------------- all runs

  lemma InitInv(n: nat)
    ensures Inv(Init(n))
  {
  }

  lemma {:induction false} StartKeepsInv(s: System, pid: nat, op: Op)
    requires Inv(s) && pid < |s.procs| && s.procs[pid] == Idle
    ensures Inv(StartOp(s, pid, op))
  {
    assert PcOk(s.sh, s.procs[pid]);
    if op.Propose? && s.sh.created.None? && IsNew(op.rec) {
      CreateFacts(s.sh, op.rec);
      MoveKeepsInv(s, pid, s.sh.(created := Some(op.rec)), CreateAppend(op.rec));
    } else if !op.Propose? {
      var next := StartOp(s, pid, op).procs[pid];
      hide SharedOk, PcOk, Inv;
      ReaderFacts(s.sh, next);
      MoveKeepsInv(s, pid, s.sh, next) by { assert Inv(s); }
    }
  }

  lemma CreateFacts(h: Shared, rec: Proposal)
    requires SharedOk(h) && h.created.None? && IsNew(rec)
    ensures GoodMove(h, Idle, h.(created := Some(rec)), CreateAppend(rec))
  {
  }

  lemma ReaderFacts(h: Shared, pc: Pc)
    requires SharedOk(h) && (pc.Get? || pc.RejectRead? || pc.LegacyRead? || pc.ExpireRead?)
    ensures GoodMove(h, Idle, h, pc)
  {
    hide SharedOk, Agrees, RowMarked;
  }

  lemma InvParts(s: System, pid: nat)
    requires Inv(s) && pid < |s.procs|
    ensures SharedOk(s.sh) && PcOk(s.sh, s.procs[pid]) && (RowPending(s.sh) ==> !Holder(s.procs[pid]))
  {
    hide SharedOk, PcOk;
  }

  lemma {:induction false} ApplyKeepsInv(s: System, a: Action)
    requires Inv(s) && CleanStep(s, a)
    ensures Inv(Apply(s, a))
  {
    assert SharedOk(s.sh);
    hide Inv, SharedOk, PcOk, GoodMove, Effect, Goto, StartOp, Crashed, Torn, Reindexed, Moved;
    match a
    case Start(pid, op) => if pid < |s.procs| && s.procs[pid] == Idle { StartKeepsInv(s, pid, op); }
    case Step(pid, i) =>
      if pid < |s.procs| {
        InvParts(s, pid);
        StepIsGood(s.sh, s.procs[pid], i);
        MoveKeepsInv(s, pid, Effect(s.sh, s.procs[pid], i), Goto(s.sh, s.procs[pid], i));
      }
    case Crash(pid, m) =>
      if pid < |s.procs| && s.procs[pid] != Idle {
        InvParts(s, pid);
        CrashIsGood(s.sh, s.procs[pid], m);
        MoveKeepsInv(s, pid, Crashed(s.sh, s.procs[pid], m), Idle);
      }
    case TornCrash(pid, whole) =>
      if pid < |s.procs| && IsAppend(s.procs[pid]) {
        InvParts(s, pid);
        TornIsGood(s.sh, s.procs[pid], whole);
        MoveKeepsInv(s, pid, Torn(s.sh, s.procs[pid], whole), Idle);
      }
    case LoseIndex => if Quiet(s) { NoIndexFacts(s.sh); IdleInv(s, s.sh.(row := None, dirty := true)); }
    case Recover => if Quiet(s) { ReindexFacts(s.sh); IdleInv(s, Reindexed(s.sh)); }
    case Trim => if Quiet(s) { TrimKeepsInv(s); }
  }

  lemma TrimKeepsInv(s: System)
    requires Inv(s) && Quiet(s)
    ensures Inv(s.(sh := s.sh.(tail := Ended)))
  {
    SameFacts(s.sh, s.sh.(tail := Ended), Idle);
    hide SharedOk, Agrees;
    assert Unheld(s);
    IdleInv(s, s.sh.(tail := Ended));
  }

  lemma {:induction false} RunInv(n: nat, actions: seq<Action>)
    requires CleanRun(Init(n), actions)
    ensures Inv(Run(Init(n), actions))
  {
    if actions == [] {
      InitInv(n);
    } else {
      RunInv(n, actions[..|actions| - 1]);
      ApplyKeepsInv(Run(Init(n), actions[..|actions| - 1]), actions[|actions| - 1]);
    }
  }
}
