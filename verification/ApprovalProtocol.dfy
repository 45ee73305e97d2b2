/** The cross-process approval protocol on one proposal id.

    Any number of processes run `quant_approve`, `quant_reject`, the legacy `approve`, the
    TTL sweep and `get` against two shared stores: the SQLite row (the compare-and-set
    arbiter) and the JSONL bus (the truth). Every SQL statement and every bus append is one
    step; any process may crash between two steps, and a crash may tear an append. */
module ApprovalProtocol {
  import opened Prelude
  import opened ProposalRecords

  // ---------------------------------------------------------------- shared state

  /** A complete bus line. `Garbled` is a torn fragment with the next line glued to it. */
  datatype Line = Event(kind: Kind, rec: Proposal) | Garbled

  /** How the file ends: in a newline, in a fragment that does not decode, or in a last line
      that lost only its newline to a crash. */
  datatype Tail = Ended | Cut | Unended

  /** Where `expire_one` returns to: its caller is finished, or it was the lazy expiry
      inside the `get` that opens `quant_approve`. */
  datatype Back = Done | ToClaim

  datatype Pc =
    | Idle
    | CreateAppend(upd: Proposal)
    | CreateUpsert(upd: Proposal)
    | ExpireRead(back: Back)
    | ExpireCas(upd: Proposal, back: Back)
    | ExpireAppend(upd: Proposal)
    | Get
    | ClaimRead
    | ClaimCas(upd: Proposal)
    | ClaimAppend(upd: Proposal)
    | Fire(upd: Proposal)
    | ReleaseRead
    | ReleaseAppend(upd: Proposal)
    | ReleaseUpsert(upd: Proposal)
    | RecordRead(execution: string)
    | RecordAppend(upd: Proposal)
    | RecordUpsert(upd: Proposal)
    | RejectRead(reason: string)
    | RejectCas(upd: Proposal)
    | RejectAppend(upd: Proposal)
    | LegacyRead(exec: Option<string>)
    | LegacyCas(upd: Proposal)
    | LegacyAppend(upd: Proposal)
    | LostRead

  /** What the processes share. `moved` counts reactor calls that moved capital, `wins` won
      compare-and-sets and `epochs` the times the row became pending; `dirty` says a method
      crashed since the last recovery. These four are history, read by no step. */
  datatype Shared = Shared(
    row: Option<Row>,
    bus: seq<Line>,
    tail: Tail,
    created: Option<Proposal>,
    moved: nat,
    wins: nat,
    epochs: nat,
    dirty: bool)

  datatype System = System(sh: Shared, procs: seq<Pc>)

  /** The environment's choices for one step: the clock test, the timestamp, the operator's
      arguments, whether the resolved size is non-zero, and the reactor's outcome. */
  datatype Input = Input(late: bool, at: string, who: Option<string>, size: Option<Double>,
                         sized: bool, outcome: Outcome)

  datatype Op =
    | Propose(rec: Proposal)
    | QuantApprove
    | QuantReject(reason: string)
    | LegacyApprove(exec: Option<string>)
    | Sweep

  datatype Action =
    | Start(pid: nat, op: Op)
    | Step(pid: nat, input: Input)
    | Crash(pid: nat, moved: bool)
    | TornCrash(pid: nat, whole: bool)
    | LoseIndex
    | Recover
    | Trim

  // ---------------------------------------------------------------- one step

  predicate RowPending(h: Shared) {
    h.row.Some? && h.row.value.state == Pending
  }

  /** Appending to a file without its last newline glues the new line onto what is there. */
  function Append(h: Shared, kind: Kind, rec: Proposal): Shared {
    match h.tail
    case Ended => h.(bus := h.bus + [Event(kind, rec)])
    case Cut => h.(bus := h.bus + [Garbled], tail := Ended)
    case Unended => h.(bus := (if h.bus == [] then [] else h.bus[..|h.bus| - 1]) + [Garbled], tail := Ended)
  }

  /** `UPDATE ... WHERE state='pending'`, when it matches. */
  function CasWin(h: Shared, upd: Proposal): Shared {
    h.(row := Some(Row(upd.state, upd)), wins := h.wins + 1)
  }

  function Upsert(h: Shared, rec: Proposal): Shared {
    h.(row := Some(Row(rec.state, rec)),
       epochs := if rec.state == Pending && !RowPending(h) then h.epochs + 1 else h.epochs)
  }

  predicate Moves(outcome: Outcome) {
    outcome.Filled? || (outcome.Ambiguous? && outcome.moved)
  }

  predicate IsRead(pc: Pc) {
    pc.Get? || pc.ExpireRead? || pc.ClaimRead? || pc.LostRead? || pc.ReleaseRead?
    || pc.RecordRead? || pc.RejectRead? || pc.LegacyRead?
  }

  predicate IsCas(pc: Pc) {
    pc.ExpireCas? || pc.ClaimCas? || pc.RejectCas? || pc.LegacyCas?
  }

  predicate IsAppend(pc: Pc) {
    pc.CreateAppend? || pc.ExpireAppend? || pc.ClaimAppend? || pc.ReleaseAppend?
    || pc.RecordAppend? || pc.RejectAppend? || pc.LegacyAppend?
  }

  predicate IsUpsert(pc: Pc) {
    pc.CreateUpsert? || pc.ReleaseUpsert? || pc.RecordUpsert?
  }

  function AppendedKind(pc: Pc): Kind
    requires IsAppend(pc)
  {
    match pc
    case CreateAppend(_) => Create
    case ReleaseAppend(_) => Create
    case RejectAppend(_) => Reject
    case ExpireAppend(_) => Expire
    case _ => Approve
  }

  /** What one step of a process at `pc` does to the shared stores. */
  function Effect(h: Shared, pc: Pc, i: Input): Shared {
    if IsCas(pc) && RowPending(h) then CasWin(h, pc.upd)
    else if IsAppend(pc) then Append(h, AppendedKind(pc), pc.upd)
    else if IsUpsert(pc) then Upsert(h, pc.upd)
    else if pc.Fire? && Moves(i.outcome) then h.(moved := h.moved + 1)
    else h
  }

  /** Where a step that only reads the row goes next. */
  function AfterRead(h: Shared, pc: Pc, i: Input): Pc
    requires IsRead(pc)
  {
    if h.row.None? then (if pc == ExpireRead(ToClaim) then ClaimRead else Idle)
    else
      var cur := h.row.value.rec;
      match pc
      case Get =>
        if cur.state == Pending && i.late then ExpireRead(if i.sized then ToClaim else Done)
        else if cur.state != Pending || !i.sized then Idle
        else ClaimRead
      case ExpireRead(back) =>
        if cur.state == Pending then ExpireCas(ExpiredAs(cur, i.at), back)
        else if back == ToClaim then ClaimRead else Idle
      case ClaimRead =>
        if cur.state == Pending && i.late then ExpireRead(Done)
        else ClaimCas(Claimed(cur, i.at, i.who, i.size))
      case LostRead => if cur.state == Pending && i.late then ExpireRead(Done) else Idle
      case ReleaseRead =>
        if cur.state != Approved || cur.execution.Some? then Idle else ReleaseAppend(Released(cur))
      case RecordRead(execution) => RecordAppend(Executed(cur, Some(execution)))
      case RejectRead(reason) =>
        if cur.state == Pending && i.late then ExpireRead(Done)
        else if cur.state != Pending then Idle
        else RejectCas(RejectedAs(cur, i.at, reason))
      case LegacyRead(exec) =>
        if cur.state == Pending && i.late then ExpireRead(Done)
        else if cur.state != Pending then Idle
        else LegacyCas(LegacyApproved(cur, i.at, i.who, i.size, exec))
  }

  function AfterCas(pc: Pc, won: bool): Pc
    requires IsCas(pc)
  {
    match pc
    case ExpireCas(u, back) => if won then ExpireAppend(u) else if back == ToClaim then ClaimRead else Idle
    case ClaimCas(u) => if won then ClaimAppend(u) else LostRead
    case RejectCas(u) => if won then RejectAppend(u) else LostRead
    case LegacyCas(u) => if won then LegacyAppend(u) else LostRead
  }

  function AfterAppend(pc: Pc): Pc
    requires IsAppend(pc)
  {
    match pc
    case CreateAppend(u) => CreateUpsert(u)
    case ClaimAppend(u) => Fire(u)
    case ReleaseAppend(u) => ReleaseUpsert(u)
    case RecordAppend(u) => RecordUpsert(u)
    case _ => Idle
  }

  function AfterFire(outcome: Outcome): Pc {
    match outcome
    case Refused => ReleaseRead
    case NoCapital => ReleaseRead
    case Ambiguous(_) => Idle
    case Filled(e) => RecordRead(e)
  }

  /** Where the process goes. */
  function Goto(h: Shared, pc: Pc, i: Input): Pc {
    if IsRead(pc) then AfterRead(h, pc, i)
    else if IsCas(pc) then AfterCas(pc, RowPending(h))
    else if IsAppend(pc) then AfterAppend(pc)
    else if pc.Fire? then AfterFire(i.outcome)
    else Idle
  }

  function Moved(s: System, pid: nat, h: Shared, pc: Pc): System
    requires pid < |s.procs|
  {
    System(h, s.procs[pid := pc])
  }

  function StepPc(s: System, pid: nat, i: Input): System
    requires pid < |s.procs|
  {
    Moved(s, pid, Effect(s.sh, s.procs[pid], i), Goto(s.sh, s.procs[pid], i))
  }

  function StartOp(s: System, pid: nat, op: Op): System
    requires pid < |s.procs|
  {
    match op
    case Propose(rec) =>
      if s.sh.created.None? && IsNew(rec)
      then Moved(s, pid, s.sh.(created := Some(rec)), CreateAppend(rec)) else s
    case QuantApprove => Moved(s, pid, s.sh, Get)
    case QuantReject(reason) => Moved(s, pid, s.sh, RejectRead(reason))
    case LegacyApprove(exec) => Moved(s, pid, s.sh, LegacyRead(exec))
    case Sweep => Moved(s, pid, s.sh, ExpireRead(Done))
  }

  // ---------------------------------------------------------------- recovery

  /** The last decodable line; what replay leaves in the index for this id. */
  function LastEvent(bus: seq<Line>): Option<Proposal> {
    if bus == [] then None
    else if bus[|bus| - 1].Event? then Some(bus[|bus| - 1].rec)
    else LastEvent(bus[..|bus| - 1])
  }

  /** Only the last non-empty line of the file may be malformed. */
  predicate Replayable(bus: seq<Line>, tail: Tail) {
    forall k :: 0 <= k < |bus| && bus[k].Garbled? ==> tail == Ended && k == |bus| - 1
  }

  function Reindexed(h: Shared): Shared {
    if !Replayable(h.bus, h.tail) then h
    else
      match LastEvent(h.bus)
      case None => h.(row := None, dirty := false)
      case Some(rec) => Upsert(h, rec).(dirty := false)
  }

  predicate Quiet(s: System) {
    forall k :: 0 <= k < |s.procs| ==> s.procs[k] == Idle
  }

  /** The stores after a process dies at `pc`; at `Fire` the reactor may still have moved. */
  function Crashed(h: Shared, pc: Pc, moved: bool): Shared {
    h.(dirty := true, moved := if moved && pc.Fire? then h.moved + 1 else h.moved)
  }

  /** The stores after a process dies inside an append, its line written but for the newline
      or cut shorter. A second fragment only lengthens the first. */
  function Torn(h: Shared, pc: Pc, whole: bool): Shared
    requires IsAppend(pc)
  {
    if whole && h.tail == Ended then Append(h, AppendedKind(pc), pc.upd).(dirty := true, tail := Unended)
    else if h.tail == Unended && h.bus != [] then h.(bus := h.bus[..|h.bus| - 1], dirty := true, tail := Cut)
    else h.(dirty := true, tail := Cut)
  }

  /** One step of the whole system. An action that is not enabled changes nothing. */
  function Apply(s: System, a: Action): System {
    match a
    case Start(pid, op) => if pid < |s.procs| && s.procs[pid] == Idle then StartOp(s, pid, op) else s
    case Step(pid, i) => if pid < |s.procs| then StepPc(s, pid, i) else s
    case Crash(pid, m) =>
      if pid < |s.procs| && s.procs[pid] != Idle then Moved(s, pid, Crashed(s.sh, s.procs[pid], m), Idle) else s
    case TornCrash(pid, whole) =>
      if pid < |s.procs| && IsAppend(s.procs[pid]) then Moved(s, pid, Torn(s.sh, s.procs[pid], whole), Idle) else s
    case LoseIndex => if Quiet(s) then s.(sh := s.sh.(row := None, dirty := true)) else s
    case Recover => if Quiet(s) then s.(sh := Reindexed(s.sh)) else s
    case Trim => if Quiet(s) then s.(sh := s.sh.(tail := Ended)) else s
  }

  function Init(n: nat): System {
    System(Shared(None, [], Ended, None, 0, 0, 0, false), seq(n, k => Idle))
  }

  function Run(s: System, actions: seq<Action>): System {
    if actions == [] then s else Apply(Run(s, actions[..|actions| - 1]), actions[|actions| - 1])
  }

  /** No append starts while a torn line is still at the end of the file. */
  predicate CleanStep(s: System, a: Action) {
    (a.Step? || a.TornCrash?) && a.pid < |s.procs| && IsAppend(s.procs[a.pid]) ==> s.sh.tail == Ended
  }

  predicate CleanRun(s: System, actions: seq<Action>) {
    actions == []
    || (CleanRun(s, actions[..|actions| - 1])
        && CleanStep(Run(s, actions[..|actions| - 1]), actions[|actions| - 1]))
  }

  // ---------------------------------------------------------------- bus language

  datatype Phase = Fresh | Open | Held | Spent | Bad

  /** The automaton of `create (approve create)* (approve approve? | reject | expire)`. */
  function NextPhase(p: Phase, l: Line): Phase {
    if l.Garbled? then Bad
    else
      match (p, l.kind)
      case (Fresh, Create) => Open
      case (Open, Approve) => Held
      case (Open, Reject) => Spent
      case (Open, Expire) => Spent
      case (Held, Create) => Open
      case (Held, Approve) => Spent
      case _ => Bad
  }

  function PhaseOf(bus: seq<Line>): Phase {
    if bus == [] then Fresh else NextPhase(PhaseOf(bus[..|bus| - 1]), bus[|bus| - 1])
  }
}
