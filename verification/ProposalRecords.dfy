/** The proposal record and the field updates each lifecycle transition makes to it. */
module ProposalRecords {
  import opened Prelude

  type Exponent = x: int | 0 <= x < 2047

  type Fraction = x: int | 0 <= x < 0x10_0000_0000_0000

  /** A finite 64-bit float, by its bits: what a JSON number reads back as, exactly. */
  datatype Double = Double(negative: bool, exponent: Exponent, fraction: Fraction)

  /** Both zeros compare equal to zero. */
  predicate IsZero(d: Double) {
    d.exponent == 0 && d.fraction == 0
  }

  datatype State = Pending | Approved | Rejected | Expired

  /** The fields no transition touches. The advisor result and the multi-leg payload are
      opaque serialised text. */
  datatype Terms = Terms(
    symbol: string,
    assetClass: string,
    timeframe: string,
    createdAt: string,
    expiresAt: string,
    advisor: string,
    kind: string,
    multiLeg: Option<string>)

  /** One record as stored in `record_json` and on the bus. */
  datatype Proposal = Proposal(
    id: string,
    state: State,
    terms: Terms,
    approvedAt: Option<string>,
    approver: Option<string>,
    sizeOverride: Option<Double>,
    rejectedAt: Option<string>,
    rejectionReason: Option<string>,
    expiredAt: Option<string>,
    execution: Option<string>)

  /** The `_event` tag of a bus line. */
  datatype Kind = Create | Approve | Reject | Expire

  /** An index row: the `state` column the compare-and-set tests, and `record_json`, which
      reads decode. */
  datatype Row = Row(state: State, rec: Proposal)

  /** What the reactor does. `Refused` and `NoCapital` are the proven no-capital outcomes;
      `Ambiguous` is any other exception, with or without a fill behind it. */
  datatype Outcome = Refused | NoCapital | Ambiguous(moved: bool) | Filled(execution: string)

  function Claimed(cur: Proposal, at: string, who: Option<string>, size: Option<Double>): Proposal {
    cur.(state := Approved, approvedAt := Some(at), approver := who, sizeOverride := size)
  }

  function Released(cur: Proposal): Proposal {
    cur.(state := Pending, approvedAt := None, approver := None, sizeOverride := None)
  }

  function Executed(cur: Proposal, execution: Option<string>): Proposal {
    cur.(execution := execution)
  }

  function LegacyApproved(cur: Proposal, at: string, who: Option<string>, size: Option<Double>,
                          execution: Option<string>): Proposal {
    Claimed(cur, at, who, size).(execution := execution)
  }

  function RejectedAs(cur: Proposal, at: string, reason: string): Proposal {
    cur.(state := Rejected, rejectedAt := Some(at), rejectionReason := Some(reason))
  }

  function ExpiredAs(cur: Proposal, at: string): Proposal {
    cur.(state := Expired, expiredAt := Some(at))
  }

  /** The record with every transition field cleared: what `propose` wrote. */
  function Origin(p: Proposal): Proposal {
    p.(state := Pending, approvedAt := None, approver := None, sizeOverride := None,
       rejectedAt := None, rejectionReason := None, expiredAt := None, execution := None)
  }

  /** A record as `propose` writes it. */
  predicate IsNew(p: Proposal) {
    p == Origin(p)
  }

  /** Marks that a release does not clear: an execution, a rejection or an expiry. */
  predicate Marked(p: Proposal) {
    p.execution.Some? || p.rejectedAt.Some? || p.rejectionReason.Some? || p.expiredAt.Some?
  }

  /** The record one undisturbed `quant_approve` leaves on a live proposal. */
  function Approval(rec: Proposal, at: string, who: Option<string>, size: Option<Double>, outcome: Outcome): Proposal {
    var claimed := Claimed(rec, at, who, size);
    match outcome
    case Refused => rec
    case NoCapital => rec
    case Ambiguous(_) => claimed
    case Filled(e) => Executed(claimed, Some(e))
  }

  /** The bus lines it appends: always the claim, then the release or the execution. */
  function ApprovalLines(rec: Proposal, at: string, who: Option<string>, size: Option<Double>, outcome: Outcome)
    : seq<(Kind, Proposal)>
  {
    var claimed := Claimed(rec, at, who, size);
    match outcome
    case Refused => [(Approve, claimed), (Create, rec)]
    case NoCapital => [(Approve, claimed), (Create, rec)]
    case Ambiguous(_) => [(Approve, claimed)]
    case Filled(e) => [(Approve, claimed), (Approve, Executed(claimed, Some(e)))]
  }
}
