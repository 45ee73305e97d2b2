/** The proposal store: a SQLite index and an append-only byte bus, kept in step. */
module ProposalStore {
  import opened Prelude
  import opened ByteLines
  import opened IsoTime
  import opened ProposalRecords
  import opened ProposalBus

  datatype StoreError = NotFound | Late | NotPending(state: State) | NoReason | CorruptLog(line: nat)

  /** What the state and TTL checks make of an id. */
  datatype Standing = Unlisted | PastTtl(rec: Proposal) | Closed(rec: Proposal) | Live(rec: Proposal)

  function StandingOf(index: Index, id: string, now: Instant): Standing {
    if id !in index then Unlisted
    else
      var rec := index[id].rec;
      if rec.state != Pending then Closed(rec)
      else if InPast(rec.terms.expiresAt, now) then PastTtl(rec)
      else Live(rec)
  }

  /** What a refused operation answers, and the only change it may make: expiring a late row. */
  function Refusal(st: Standing): StoreError
    requires !st.Live?
  {
    match st
    case Unlisted => NotFound
    case PastTtl(_) => Late
    case Closed(rec) => NotPending(rec.state)
  }

  /** A proposal is live iff it is there, pending and not past its TTL; each refusal has its own
      error, looked at in that order: not there, not pending, late. */
  lemma StandingTells(index: Index, id: string, now: Instant)
    ensures var st := StandingOf(index, id, now);
            && (st.Live? <==> id in index && index[id].rec.state == Pending && !InPast(index[id].rec.terms.expiresAt, now))
            && (st.Live? || st.PastTtl? || st.Closed? ==> st.rec == index[id].rec)
            && (!st.Live? && id !in index ==> Refusal(st) == NotFound)
            && (!st.Live? && id in index && index[id].rec.state != Pending ==> Refusal(st) == NotPending(index[id].rec.state))
            && (!st.Live? && id in index && index[id].rec.state == Pending ==> st.PastTtl? && Refusal(st) == Late)
  {
    hide InPast;
  }

  /** What the transitions write down, and that they touch nothing else. */
  lemma TransitionsTell(p: Proposal, at: string, who: Option<string>, size: Option<Double>, reason: string, execution: string)
    requires IsNew(p)
    ensures var c := Claimed(p, at, who, size);
            && c.state == Approved && c.approvedAt == Some(at) && c.approver == who && c.sizeOverride == size
            && c.execution == None && Origin(c) == p && Released(c) == p
            && Executed(c, Some(execution)) == c.(execution := Some(execution))
    ensures var x := RejectedAs(p, at, reason);
            x.state == Rejected && x.rejectedAt == Some(at) && x.rejectionReason == Some(reason) && Origin(x) == p
            && x.approvedAt == None && x.execution == None && x.expiredAt == None
    ensures var x := ExpiredAs(p, at);
            x.state == Expired && x.expiredAt == Some(at) && Origin(x) == p
            && x.approvedAt == None && x.execution == None && x.rejectedAt == None
  {
  }

  /** The answers of `quant_approve`. */
  datatype Answer = Unknown | Mismatch | ZeroSize | Unfilled | Failed | Booked(rec: Proposal)

  function AnswerTo(outcome: Outcome, p: Proposal): Answer {
    match outcome
    case Ambiguous(_) => Failed
    case Filled(_) => Booked(p)
    case _ => Unfilled
  }

  /** The client is told of a booking iff the reactor filled, and then of the record that carries the
      execution; of a failure iff capital may have moved; and else that nothing was filled. */
  lemma AnswersTell(rec: Proposal, at: string, who: Option<string>, size: Option<Double>, outcome: Outcome)
    ensures var p := Approval(rec, at, who, size, outcome);
            var a := AnswerTo(outcome, p);
            && (a.Booked? <==> outcome.Filled?) && (a.Booked? ==> a.rec == p && p.execution == Some(outcome.execution))
            && (a == Failed <==> outcome.Ambiguous?) && (a == Unfilled <==> outcome.Refused? || outcome.NoCapital?)
            && (outcome.Filled? || outcome.Ambiguous? ==> p.state == Approved)
  {
  }

  /** What the JSON codec owes: a record becomes one line, which decodes to the record. */
  ghost predicate Lawful(encode: (Kind, string, Proposal) -> seq<byte>, parse: Parser) {
    forall kind, at, p ::
      var l := encode(kind, at, p); !HasNewline(l) && Decodes(l, parse) && parse(l).value == p
  }

  class Store {
    var bus: seq<byte>
    var index: Index
    const encode: (Kind, string, Proposal) -> seq<byte>
    const parse: Parser

    ghost predicate CodecOk() {
      Lawful(encode, parse)
    }

    /** The index is the replay of the bus. */
    ghost predicate InStep(file: seq<byte>, rows: Index) {
      Clean(file, parse) && rows == Rows(Latest(Split(file), parse))
    }

    /** Pending rows are as `propose` wrote them, and a claim without an execution carries no
        other mark. */
    ghost predicate Tidy(rows: Index) {
      && (forall id :: id in rows && rows[id].state == Pending ==> IsNew(rows[id].rec))
      && forall id :: id in rows && rows[id].state == Approved && Marked(rows[id].rec) ==> rows[id].rec.execution.Some?
    }

    ghost predicate Valid()
      reads this
    {
      CodecOk() && InStep(bus, index) && Tidy(index)
    }

    /** Replacing one record in both stores keeps them in step. */
    lemma StaysInStep(file: seq<byte>, rows: Index, longer: seq<byte>, p: Proposal)
      requires InStep(file, rows) && Clean(longer, parse)
      requires Latest(Split(longer), parse) == Latest(Split(file), parse)[p.id := p]
      ensures InStep(longer, rows[p.id := Row(p.state, p)])
    {
      hide Clean, Latest, Split;
    }

    /** A new pending record, a claim that is unmarked or executed, or a closed record keeps the
        rows tidy. */
    predicate TidyRecord(p: Proposal) {
      (p.state == Pending ==> IsNew(p)) && (p.state == Approved && Marked(p) ==> p.execution.Some?)
    }

    lemma StaysTidy(rows: Index, p: Proposal)
      requires Tidy(rows) && TidyRecord(p)
      ensures Tidy(rows[p.id := Row(p.state, p)])
    {
      hide IsNew, Marked;
    }

    /** The bytes of a sequence of events. */
    function Lines(at: string, events: seq<(Kind, Proposal)>): seq<byte> {
      if events == [] then [] else encode(events[0].0, at, events[0].1) + [NL] + Lines(at, events[1..])
    }

    lemma RowsMatch()
      requires Valid()
      ensures CodecOk() && InStep(bus, index) && Clean(bus, parse)
      ensures forall id :: id in index ==> index[id].rec.id == id && index[id].state == index[id].rec.state
      ensures forall id :: id in index && index[id].state == Pending ==> IsNew(index[id].rec)
      ensures forall id :: id in index && index[id].state == Approved && Marked(index[id].rec) ==> index[id].rec.execution.Some?
    {
      LatestKeys(Split(bus), parse);
    }

    constructor (encode: (Kind, string, Proposal) -> seq<byte>, parse: Parser)
      requires Lawful(encode, parse)
      ensures Valid() && index == map[] && bus == []
      ensures this.encode == encode && this.parse == parse
    {
      this.encode := encode;
      this.parse := parse;
      bus := [];
      index := map[];
      assert Latest([[]], parse) == Latest([], parse);
    }

    // ---------------------------------------------------------------- the two writes

    method AppendAudit(kind: Kind, p: Proposal, now: Instant)
      requires CodecOk() && Clean(bus, parse)
      modifies this`bus
      ensures bus == old(bus) + Lines(Iso(now), [(kind, p)])
      ensures Clean(bus, parse)
      ensures Latest(Split(bus), parse) == Latest(Split(old(bus)), parse)[p.id := p]
    {
      var line := encode(kind, Iso(now), p);
      AppendUpdatesOne(bus, line, parse);
      assert Lines(Iso(now), [(kind, p)]) == line + [NL];
      assert bus + (line + [NL]) == bus + line + [NL];
      bus := bus + line + [NL];
    }

    /** Bus first, then the unconditional upsert, whatever the record. */
    method Persist(kind: Kind, p: Proposal, now: Instant)
      requires Valid()
      modifies this
      ensures CodecOk() && InStep(bus, index)
      ensures TidyRecord(p) ==> Valid()
      ensures index == old(index)[p.id := Row(p.state, p)]
      ensures bus == old(bus) + Lines(Iso(now), [(kind, p)])
    {
      RowsMatch();
      hide InStep, Lines, CodecOk, Clean, Latest, Split, Tidy, TidyRecord;
      AppendAudit(kind, p, now);
      StaysInStep(old(bus), old(index), bus, p);
      if TidyRecord(p) { StaysTidy(old(index), p); }
      index := index[p.id := Row(p.state, p)];
    }

    /** Compare-and-set first; the line only on a win. */
    method CasFromPending(id: string, upd: Proposal) returns (won: bool)
      modifies this`index
      ensures won <==> id in old(index) && old(index)[id].state == Pending
      ensures index == if won then old(index)[id := Row(upd.state, upd)] else old(index)
    {
      won := id in index && index[id].state == Pending;
      if won {
        index := index[id := Row(upd.state, upd)];
      }
    }

    // ---------------------------------------------------------------- lifecycle

    method Propose(id: string, terms: Terms, now: Instant) returns (p: Proposal)
      requires Valid()
      modifies this
      ensures Valid()
      ensures p.id == id && p.terms == terms && IsNew(p)
      ensures index == old(index)[id := Row(Pending, p)]
      ensures bus == old(bus) + Lines(Iso(now), [(Create, p)])
    {
      p := Proposal(id, Pending, terms, None, None, None, None, None, None, None);
      Persist(Create, p, now);
    }

    method ExpireOne(id: string, now: Instant) returns (r: Option<Proposal>)
      requires Valid()
      modifies this
      ensures Valid()
      ensures r.Some? <==> id in old(index) && old(index)[id].state == Pending
      ensures r.Some? ==>
                && r.value == ExpiredAs(old(index)[id].rec, Iso(now))
                && index == old(index)[id := Row(Expired, r.value)]
                && bus == old(bus) + Lines(Iso(now), [(Expire, r.value)])
      ensures r.None? ==> index == old(index) && bus == old(bus)
    {
      RowsMatch();
      hide InStep, Lines, CodecOk, Clean, Latest, Split;
      if id !in index || index[id].rec.state != Pending {
        return None;
      }
      var upd := ExpiredAs(index[id].rec, Iso(now));
      var won := CasFromPending(id, upd);
      if !won {
        return None;
      }
      AppendAudit(Expire, upd, now);
      StaysInStep(old(bus), old(index), bus, upd);
      StaysTidy(old(index), upd);
      r := Some(upd);
    }

    /** The two effects a refused operation can have. */
    twostate predicate RefusedAs(st: Standing, now: Instant)
      reads this
    {
      if st.PastTtl? then
        && index == old(index)[st.rec.id := Row(Expired, ExpiredAs(st.rec, Iso(now)))]
        && bus == old(bus) + Lines(Iso(now), [(Expire, ExpiredAs(st.rec, Iso(now)))])
      else index == old(index) && bus == old(bus)
    }

    /** `_reject_if_expired`. */
    method RejectIfExpired(cur: Proposal, now: Instant) returns (late: bool)
      requires Valid() && cur.id in index && index[cur.id].rec == cur
      modifies this
      ensures Valid()
      ensures late <==> cur.state == Pending && InPast(cur.terms.expiresAt, now)
      ensures RefusedAs(if late then PastTtl(cur) else Unlisted, now)
    {
      RowsMatch();
      hide Valid, Lines, InPast;
      late := cur.state == Pending && InPast(cur.terms.expiresAt, now);
      if late {
        var _ := ExpireOne(cur.id, now);
      }
    }

    /** Lookup with lazy expiry. */
    method Get(id: string, now: Instant) returns (r: Option<Proposal>)
      requires Valid()
      modifies this
      ensures Valid()
      ensures RefusedAs(StandingOf(old(index), id, now), now)
      ensures r == match StandingOf(old(index), id, now)
                   case Unlisted => None
                   case PastTtl(rec) => Some(ExpiredAs(rec, Iso(now)))
                   case Closed(rec) => Some(rec)
                   case Live(rec) => Some(rec)
    {
      RowsMatch();
      hide Valid, InStep, Lines, InPast;
      if id !in index {
        return None;
      }
      var cur := index[id].rec;
      if cur.state == Pending && InPast(cur.terms.expiresAt, now) {
        var e := ExpireOne(id, now);
        if e.Some? { cur := e.value; }
      }
      r := Some(cur);
    }

    method ClaimForApproval(id: string, who: Option<string>, size: Option<Double>, now: Instant)
      returns (r: Result<Proposal, StoreError>)
      requires Valid()
      modifies this
      ensures Valid()
      ensures var st := StandingOf(old(index), id, now);
              if st.Live? then
                && r == Ok(Claimed(st.rec, Iso(now), who, size))
                && index == old(index)[id := Row(Approved, r.value)]
                && bus == old(bus) + Lines(Iso(now), [(Approve, r.value)])
              else r == Err(Refusal(st)) && RefusedAs(st, now)
    {
      RowsMatch();
      hide InStep, Lines, CodecOk, Clean, Latest, Split, InPast;
      if id !in index {
        return Err(NotFound);
      }
      var cur := index[id].rec;
      var late := RejectIfExpired(cur, now);
      if late {
        return Err(Late);
      }
      var upd := Claimed(cur, Iso(now), who, size);
      var won := CasFromPending(id, upd);
      if !won {
        return Err(NotPending(index[id].rec.state));
      }
      AppendAudit(Approve, upd, now);
      StaysInStep(old(bus), old(index), bus, upd);
      StaysTidy(old(index), upd);
      r := Ok(upd);
    }

    /** Writes whatever the state; only an execution on a pending row, which its one caller never
        asks for, leaves a row the other operations do not expect. */
    method RecordExecution(id: string, execution: string, now: Instant) returns (r: Result<Proposal, StoreError>)
      requires Valid()
      modifies this
      ensures CodecOk() && InStep(bus, index)
      ensures Valid() <==> id !in old(index) || old(index)[id].state != Pending
      ensures if id in old(index) then
                && r == Ok(Executed(old(index)[id].rec, Some(execution)))
                && index == old(index)[id := Row(r.value.state, r.value)]
                && bus == old(bus) + Lines(Iso(now), [(Approve, r.value)])
              else r == Err(NotFound) && index == old(index) && bus == old(bus)
    {
      RowsMatch();
      hide Valid, InStep, Lines, CodecOk, Clean;
      if id !in index {
        return Err(NotFound);
      }
      var upd := Executed(index[id].rec, Some(execution));
      Persist(Approve, upd, now);
      ExecutedIsTidy(old(index), id, execution);
      r := Ok(upd);
    }

    lemma ExecutedIsTidy(rows: Index, id: string, execution: string)
      requires Tidy(rows) && id in rows && rows[id].state == rows[id].rec.state
      ensures var p := Executed(rows[id].rec, Some(execution));
              && (p.state != Pending ==> TidyRecord(p))
              && (p.state == Pending ==> !Tidy(rows[id := Row(p.state, p)]))
    {
      var p := Executed(rows[id].rec, Some(execution));
      var after := rows[id := Row(p.state, p)];
      if p.state == Pending {
        assert Origin(p).execution == None && p.execution.Some?;
        assert id in after && after[id].state == Pending && !IsNew(after[id].rec);
      }
    }

    /** Re-pends a claim without an execution; anything else is left alone. */
    method ReleaseClaim(id: string, now: Instant) returns (r: Option<Proposal>)
      requires Valid()
      modifies this
      ensures Valid()
      ensures r.Some? <==> id in old(index) && old(index)[id].state == Approved && old(index)[id].rec.execution.None?
      ensures r.Some? ==>
                && r.value == Origin(old(index)[id].rec)
                && index == old(index)[id := Row(Pending, r.value)]
                && bus == old(bus) + Lines(Iso(now), [(Create, r.value)])
      ensures r.None? ==> index == old(index) && bus == old(bus)
    {
      RowsMatch();
      hide Valid, InStep, Lines, CodecOk, Clean;
      if id !in index || index[id].rec.state != Approved || index[id].rec.execution.Some? {
        return None;
      }
      var upd := Released(index[id].rec);
      Persist(Create, upd, now);
      r := Some(upd);
    }

    /** The legacy transition, now guarded by the same compare-and-set. */
    method LegacyApprove(id: string, who: Option<string>, size: Option<Double>, execution: Option<string>, now: Instant)
      returns (r: Result<Proposal, StoreError>)
      requires Valid()
      modifies this
      ensures Valid()
      ensures var st := StandingOf(old(index), id, now);
              if st.Live? then
                && r == Ok(LegacyApproved(st.rec, Iso(now), who, size, execution))
                && index == old(index)[id := Row(Approved, r.value)]
                && bus == old(bus) + Lines(Iso(now), [(Approve, r.value)])
              else r == Err(Refusal(st)) && RefusedAs(st, now)
    {
      RowsMatch();
      hide InStep, Lines, CodecOk, Clean, Latest, Split, InPast;
      if id !in index {
        return Err(NotFound);
      }
      var cur := index[id].rec;
      var late := RejectIfExpired(cur, now);
      if late {
        return Err(Late);
      }
      if cur.state != Pending {
        return Err(NotPending(cur.state));
      }
      var upd := LegacyApproved(cur, Iso(now), who, size, execution);
      var won := CasFromPending(id, upd);
      AppendAudit(Approve, upd, now);
      StaysInStep(old(bus), old(index), bus, upd);
      StaysTidy(old(index), upd);
      r := Ok(upd);
    }

    /** `reason` arrives stripped; an empty one is refused before anything is read. */
    method Reject(id: string, reason: string, now: Instant) returns (r: Result<Proposal, StoreError>)
      requires Valid()
      modifies this
      ensures Valid()
      ensures reason == "" ==> r == Err(NoReason) && index == old(index) && bus == old(bus)
      ensures var st := StandingOf(old(index), id, now);
              reason != "" ==>
                if st.Live? then
                  && r == Ok(RejectedAs(st.rec, Iso(now), reason))
                  && index == old(index)[id := Row(Rejected, r.value)]
                  && bus == old(bus) + Lines(Iso(now), [(ProposalRecords.Reject, r.value)])
                else r == Err(Refusal(st)) && RefusedAs(st, now)
    {
      if reason == "" {
        return Err(NoReason);
      }
      RowsMatch();
      hide InStep, Lines, CodecOk, Clean, Latest, Split, InPast;
      if id !in index {
        return Err(NotFound);
      }
      var cur := index[id].rec;
      var late := RejectIfExpired(cur, now);
      if late {
        return Err(Late);
      }
      if cur.state != Pending {
        return Err(NotPending(cur.state));
      }
      var upd := RejectedAs(cur, Iso(now), reason);
      var won := CasFromPending(id, upd);
      AppendAudit(ProposalRecords.Reject, upd, now);
      StaysInStep(old(bus), old(index), bus, upd);
      StaysTidy(old(index), upd);
      r := Ok(upd);
    }

    // ---------------------------------------------------------------- the sweep

    predicate Stale(row: Row, now: Instant) {
      row.state == Pending && TextLeq(row.rec.terms.expiresAt, Iso(now))
    }

    function Swept(was: Index, done: set<string>, now: Instant): Index {
      map id | id in was :: if id in done then Row(Expired, ExpiredAs(was[id].rec, Iso(now))) else was[id]
    }

    lemma SweptNone(was: Index, now: Instant)
      ensures Swept(was, {}, now) == was
    {
    }

    lemma SweptMore(was: Index, done: set<string>, id: string, now: Instant)
      requires id in was
      ensures Swept(was, done + {id}, now) == Swept(was, done, now)[id := Row(Expired, ExpiredAs(was[id].rec, Iso(now)))]
      ensures id !in done ==> id in Swept(was, done, now) && Swept(was, done, now)[id] == was[id]
    {
    }

    lemma SweptRows(was: Index, now: Instant)
      ensures var rows := Swept(was, (set id | id in was && Stale(was[id], now)), now);
              && rows.Keys == was.Keys
              && forall id :: id in was ==>
                   var late := was[id].state == Pending && TextLeq(was[id].rec.terms.expiresAt, Iso(now));
                   rows[id] == if late then Row(Expired, ExpiredAs(was[id].rec, Iso(now))) else was[id]
    {
      hide TextLeq;
    }

    /** Expires exactly the rows the SQL test selects, and counts them. */
    method SweepExpired(now: Instant) returns (n: nat)
      requires Valid()
      modifies this
      ensures Valid()
      ensures index == Swept(old(index), (set id | id in old(index) && Stale(old(index)[id], now)), now)
      ensures n == |set id | id in old(index) && Stale(old(index)[id], now)|
      ensures index.Keys == old(index).Keys
      ensures forall id :: id in old(index) ==>
                var row := old(index)[id];
                var late := row.state == Pending && TextLeq(row.rec.terms.expiresAt, Iso(now));
                index[id] == if late then Row(Expired, ExpiredAs(row.rec, Iso(now))) else row
    {
      hide Valid, InStep, CodecOk, Lines, Swept, Split, Latest, TextLeq, Clean, IsNew;
      var picked := set id | id in index && Stale(index[id], now);
      ghost var was := index;
      ghost var done: set<string> := {};
      var todo := picked;
      n := 0;
      SweptNone(was, now);
      while todo != {}
        invariant Valid()
        invariant todo + done == picked && todo !! done && n == |done|
        invariant index == Swept(was, done, now)
        decreases |todo|
      {
        var id :| id in todo;
        SweptMore(was, done, id, now);
        var e := ExpireOne(id, now);
        if e.Some? { n := n + 1; }
        todo, done := todo - {id}, done + {id};
      }
      assert done == picked;
      SweptRows(was, now);
    }

    // ---------------------------------------------------------------- recovery

    /** Rebuilds the index from the bus, whatever state the index was left in. */
    method ReconcileIndex() returns (r: Result<nat, StoreError>)
      modifies this`index
      ensures r.Err? <==> Corrupt(Split(bus), parse)
      ensures r.Err? ==> index == old(index)
      ensures r.Ok? ==> index == Rows(Latest(Split(bus), parse)) && r.value == |index|
      ensures old(Valid()) ==> r.Ok? && index == old(index)
    {
      var m := Replay(bus, parse);
      if m.Err? {
        return Err(CorruptLog(m.error));
      }
      index := Rows(m.value);
      assert index.Keys == m.value.Keys;
      r := Ok(|m.value|);
    }

    // ---------------------------------------------------------------- the client

    /** The tail of `quant_approve` once the claim is won: fire, then release or record. */
    method FireAndSettle(id: string, rec: Proposal, who: Option<string>, size: Option<Double>, outcome: Outcome,
                         claimed: Instant, now: Instant)
      returns (a: Answer)
      requires Valid() && IsNew(rec) && rec.id == id
      requires id in index && index[id] == Row(Approved, Claimed(rec, Iso(claimed), who, size))
      modifies this
      ensures Valid()
      ensures var p := Approval(rec, Iso(claimed), who, size, outcome);
              && index == old(index)[id := Row(p.state, p)]
              && bus == old(bus) + Lines(Iso(now), ApprovalLines(rec, Iso(claimed), who, size, outcome)[1..])
              && a == AnswerTo(outcome, p)
    {
      ghost var mine := Claimed(rec, Iso(claimed), who, size);
      match outcome {
        case Ambiguous(_) =>
          assert [(Approve, mine)][1..] == [];
          a := Failed;
        case Filled(e) =>
          var done := RecordExecution(id, e, now);
          assert [(Approve, mine), (Approve, done.value)][1..] == [(Approve, done.value)];
          a := Booked(done.value);
        case _ =>
          var back := ReleaseClaim(id, now);
          assert [(Approve, mine), (Create, rec)][1..] == [(Create, rec)];
          a := Unfilled;
      }
    }

    /** The bytes of an approval: the claim's line at one time, what settles it at another. */
    function Written(rec: Proposal, who: Option<string>, size: Option<Double>, outcome: Outcome,
                     claimed: Instant, settled: Instant): seq<byte>
    {
      var lines := ApprovalLines(rec, Iso(claimed), who, size, outcome);
      Lines(Iso(claimed), lines[..1]) + Lines(Iso(settled), lines[1..])
    }

    /** What a claim that won leaves once it is settled. */
    twostate predicate SettledAs(id: string, rec: Proposal, who: Option<string>, size: Option<Double>, outcome: Outcome,
                                 claimed: Instant, settled: Instant, a: Answer)
      reads this
    {
      var p := Approval(rec, Iso(claimed), who, size, outcome);
      && index == old(index)[id := Row(p.state, p)]
      && bus == old(bus) + Written(rec, who, size, outcome, claimed, settled)
      && a == AnswerTo(outcome, p)
      && (outcome.Refused? || outcome.NoCapital? ==> index == old(index))
    }

    /** The part of `quant_approve` past its checks: claim, fire, settle. */
    method ClaimAndFire(id: string, rec: Proposal, who: Option<string>, size: Option<Double>, outcome: Outcome,
                        claimed: Instant, settled: Instant)
      returns (a: Answer)
      requires Valid() && id in index && index[id].rec == rec && rec.state == Pending
      modifies this
      ensures Valid()
      ensures if InPast(rec.terms.expiresAt, claimed) then a == Mismatch && RefusedAs(PastTtl(rec), claimed)
              else SettledAs(id, rec, who, size, outcome, claimed, settled, a)
    {
      assert IsNew(rec) && rec.id == id && index[id] == Row(Pending, rec) by { RowsMatch(); }
      ghost var late := InPast(rec.terms.expiresAt, claimed);
      assert StandingOf(index, id, claimed) == if late then PastTtl(rec) else Live(rec);
      hide Valid, InStep, CodecOk, Clean, Lines, ApprovalLines, Approval, InPast, Split, Latest, IsNew, Origin, AnswerTo,
        StandingOf, Refusal, RefusedAs, Claimed, Written;
      var claim := ClaimForApproval(id, who, size, claimed);
      if claim.Err? {
        return Mismatch;
      }
      ghost var mid, midIndex := bus, index;
      a := FireAndSettle(id, rec, who, size, outcome, claimed, settled);
      TwoWrites(old(bus), old(index), mid, midIndex, bus, index, id, rec, who, size, outcome, claimed, settled);
    }

    /** `quant_approve`: check, claim, fire, then release or record. The clock is read at the
        lookup, again at the claim and again when it settles; a proposal whose time runs out
        between the first two is expired by the claim and nothing fires. */
    method QuantApprove(id: string, who: Option<string>, override: Option<Double>, kelly: Double, outcome: Outcome,
                        lookup: Instant, claimed: Instant, settled: Instant)
      returns (a: Answer)
      requires Valid()
      modifies this
      ensures Valid()
      ensures var st := StandingOf(old(index), id, lookup);
              !st.Live? ==> a == (if st.Unlisted? then Unknown else Mismatch) && RefusedAs(st, lookup)
      ensures var st := StandingOf(old(index), id, lookup);
              st.Live? && IsZero(if override.Some? then override.value else kelly) ==>
                a == ZeroSize && index == old(index) && bus == old(bus)
      ensures var st := StandingOf(old(index), id, lookup);
              st.Live? && !IsZero(if override.Some? then override.value else kelly) ==>
                if InPast(st.rec.terms.expiresAt, claimed) then a == Mismatch && RefusedAs(PastTtl(st.rec), claimed)
                else SettledAs(id, st.rec, who, override, outcome, claimed, settled, a)
    {
      RowsMatch();
      hide Valid, InStep, CodecOk, Clean, Lines, ApprovalLines, Approval, InPast, Written, SettledAs, IsNew;
      var p := Get(id, lookup);
      if p.None? {
        return Unknown;
      }
      if p.value.state != Pending {
        return Mismatch;
      }
      var size := if override.Some? then override.value else kelly;
      if IsZero(size) {
        return ZeroSize;
      }
      a := ClaimAndFire(id, p.value, who, override, outcome, claimed, settled);
    }

    /** The claim's write followed by the settling write; a claim that is released leaves the
        index as it was. */
    lemma TwoWrites(b: seq<byte>, x: Index, b1: seq<byte>, x1: Index, b2: seq<byte>, x2: Index, id: string,
                    rec: Proposal, who: Option<string>, size: Option<Double>, outcome: Outcome,
                    claimed: Instant, settled: Instant)
      requires id in x && x[id] == Row(rec.state, rec)
      requires b1 == b + Lines(Iso(claimed), [(Approve, Claimed(rec, Iso(claimed), who, size))])
      requires b2 == b1 + Lines(Iso(settled), ApprovalLines(rec, Iso(claimed), who, size, outcome)[1..])
      requires x1 == x[id := Row(Approved, Claimed(rec, Iso(claimed), who, size))]
      requires var p := Approval(rec, Iso(claimed), who, size, outcome); x2 == x1[id := Row(p.state, p)]
      ensures b2 == b + Written(rec, who, size, outcome, claimed, settled)
      ensures var p := Approval(rec, Iso(claimed), who, size, outcome); x2 == x[id := Row(p.state, p)]
      ensures outcome.Refused? || outcome.NoCapital? ==> x2 == x
    {
      var lines := ApprovalLines(rec, Iso(claimed), who, size, outcome);
      assert lines[..1] == [(Approve, Claimed(rec, Iso(claimed), who, size))];
      hide Lines;
    }
  }
}
