/** The incremental kill-switch basis: a checkpoint that stands for a consumed prefix. */
module KillSwitchBasis {
  import opened Prelude
  import opened ByteLines
  import opened Settlement
  import opened JoinFills
  import opened TextLines
  import opened NavShare
  import opened KillSwitchTrail

  /** What the decoder makes of one text line: nothing, a value the matcher chokes on (a JSON
      scalar or list), or a record. */
  datatype Parsed = Skip | Bad | Good(rec: Rec)

  type LineParser = seq<byte> -> Parsed

  predicate AnyBad(lines: seq<seq<byte>>, parse: LineParser) {
    exists l :: l in lines && parse(l).Bad?
  }

  function Records(lines: seq<seq<byte>>, parse: LineParser): seq<Rec> {
    if lines == [] then []
    else
      var p := parse(Last(lines));
      if p.Good? then Records(Front(lines), parse) + [p.rec] else Records(Front(lines), parse)
  }

  lemma {:induction false} RecordsConcat(a: seq<seq<byte>>, b: seq<seq<byte>>, parse: LineParser)
    ensures Records(a + b, parse) == Records(a, parse) + Records(b, parse)
  {
    if b == [] {
      assert a + b == a;
    } else {
      FrontOfConcat(a, b);
      RecordsConcat(a, Front(b), parse);
    }
  }

  method ReadLines(lines: seq<seq<byte>>, parse: LineParser) returns (records: seq<Rec>, bad: bool)
    ensures bad <==> AnyBad(lines, parse)
    ensures records == Records(lines, parse)
  {
    records, bad := [], false;
    for i := 0 to |lines|
      invariant bad <==> AnyBad(lines[..i], parse)
      invariant records == Records(lines[..i], parse)
    {
      assert Front(lines[..i + 1]) == lines[..i];
      var p := parse(lines[i]);
      if p.Bad? {
        assert lines[i] in lines[..i + 1];
        bad := true;
      } else if p.Good? {
        records := records + [p.rec];
      }
    }
    assert lines[..|lines|] == lines;
  }

  // ---------------------------------------------------------------- the bus

  /** The complete lines of the bus: everything up to its last newline. */
  function Seen(bus: seq<byte>): seq<seq<byte>> {
    Pieces(Consumed(bus))
  }

  function History(bus: seq<byte>, parse: LineParser): seq<Rec> {
    Records(Seen(bus), parse)
  }

  /** The records of the complete lines past an offset. */
  function Past(bus: seq<byte>, offset: nat, parse: LineParser): seq<Rec>
    requires offset <= |bus|
  {
    Records(Pieces(Consumed(bus[offset..])), parse)
  }

  // ---------------------------------------------------------------- the checkpoint

  const WINDOW := 4096

  /** The last 4096 consumed bytes, standing for their digest. */
  function Fingerprint(bus: seq<byte>, offset: nat): seq<byte>
    requires offset <= |bus|
  {
    bus[if offset <= WINDOW then 0 else offset - WINDOW..offset]
  }

  datatype Checkpoint = Checkpoint(offset: nat, inode: nat, prefix: seq<byte>, cum: real, lots: Carry,
                                   latest: Option<int>, flag: string)

  /** The checks that let a checkpoint be used: same file, not shrunk, same tail. */
  predicate Usable(c: Checkpoint, bus: seq<byte>, inode: nat) {
    c.inode == inode && c.offset <= |bus| && Fingerprint(bus, c.offset) == c.prefix
  }

  /** The checkpoint is the summary of the bytes it consumed, batch by batch. */
  ghost predicate Summarises(c: Checkpoint, bytes: seq<byte>, parse: LineParser, trail: seq<Batch>) {
    && Whole(bytes) && !AnyBad(Pieces(bytes), parse)
    && trail != [] && RecordsOf(trail) == Records(Pieces(bytes), parse) && c.latest == Latest(RecordsOf(trail))
    && (Sound(c.flag, trail) ==>
          && IsCarryOf(c.lots, Join(Prepared(c.flag, RecordsOf(trail)), []).0)
          && c.cum == Frozen(c.flag, trail))
  }

  /** Consuming a batch that passes the guard carries the summary forward. */
  lemma SummaryGrows(c: Checkpoint, d: Checkpoint, bytes: seq<byte>, chunk: seq<byte>, parse: LineParser,
                     trail: seq<Batch>, nav: Option<real>)
    requires Summarises(c, bytes, parse, trail) && Whole(chunk) && !AnyBad(Pieces(chunk), parse)
    requires var batch := Records(Pieces(chunk), parse);
             && Passes(c.latest, batch) && d.flag == c.flag
             && d.latest == Upper(c.latest, Latest(batch))
             && IsCarryOf(d.lots, Join(Prepared(c.flag, batch), c.lots).0)
             && d.cum == c.cum + Total(Join(Prepared(c.flag, batch), c.lots).1, nav)
    ensures Summarises(d, bytes + chunk, parse, trail + [Batch(Records(Pieces(chunk), parse), nav)])
  {
    hide Join, Records, Pieces, RecordsOf, Sound, Prepared, Total, IsCarryOf, Frozen, Latest;
    var b := Batch(Records(Pieces(chunk), parse), nav);
    PiecesConcat(bytes, chunk);
    RecordsConcat(Pieces(bytes), Pieces(chunk), parse);
    BadConcat(Pieces(bytes), Pieces(chunk), parse);
    WholeConcat(bytes, chunk);
    RecordsOfNext(trail, b);
    LatestConcat(RecordsOf(trail), b.records);
    if Sound(c.flag, trail + [b]) {
      SoundBefore(c.flag, trail, b);
      TrailGrows(c.flag, trail, b, c.lots);
    }
  }

  lemma GrownPrefix(bus: seq<byte>, x: seq<byte>, k: nat)
    requires k <= |bus|
    ensures (bus + x)[..k] == bus[..k] && Fingerprint(bus + x, k) == Fingerprint(bus, k)
  {
  }

  /** Reading on past consumed bytes is reading the bus. */
  lemma ReadPast(bus: seq<byte>, k: nat, parse: LineParser)
    requires k <= |bus| && Whole(bus[..k]) && !AnyBad(Pieces(bus[..k]), parse)
    ensures var chunk := Consumed(bus[k..]);
            && Whole(chunk) && Consumed(bus) == bus[..k] + chunk && k + |chunk| <= |bus|
            && bus[..k + |chunk|] == bus[..k] + chunk
            && (AnyBad(Seen(bus), parse) <==> AnyBad(Pieces(chunk), parse))
            && History(bus, parse) == Records(Pieces(bus[..k]), parse) + Past(bus, k, parse)
  {
    hide Pieces, Records, AnyBad;
    var chunk := Consumed(bus[k..]);
    ConsumedAfter(bus[..k], bus[k..]);
    ConsumedIsPrefix(bus[k..]);
    assert bus == bus[..k] + bus[k..];
    PiecesConcat(bus[..k], chunk);
    RecordsConcat(Pieces(bus[..k]), Pieces(chunk), parse);
    BadConcat(Pieces(bus[..k]), Pieces(chunk), parse);
  }

  // ---------------------------------------------------------------- what a tick continues

  /** A checkpoint as the batches it stands for. */
  datatype Mark = Mark(flag: string, offset: nat, trail: seq<Batch>)

  /** A tick reads only past the mark if the flag is unchanged and the guard lets the batch. */
  predicate Resumes(m: Option<Mark>, flag: string, bus: seq<byte>, parse: LineParser) {
    m.Some? && m.value.flag == flag && m.value.offset <= |bus|
    && Passes(Latest(RecordsOf(m.value.trail)), Past(bus, m.value.offset, parse))
  }

  /** The batches the tick's answer adds up: one more, or everything again as one. */
  function TrailOf(m: Option<Mark>, flag: string, nav: Option<real>, bus: seq<byte>, parse: LineParser): seq<Batch> {
    if Resumes(m, flag, bus, parse) then m.value.trail + [Batch(Past(bus, m.value.offset, parse), nav)]
    else [Batch(History(bus, parse), nav)]
  }

  /** The mark a tick leaves. A fault, a failed write or a replay of nothing leaves the old one. */
  function MarkNext(m: Option<Mark>, flag: string, nav: Option<real>, saved: bool, bus: seq<byte>, parse: LineParser)
    : Option<Mark>
  {
    if AnyBad(Seen(bus), parse) || !saved || (!Resumes(m, flag, bus, parse) && History(bus, parse) == []) then m
    else Some(Mark(flag, |Consumed(bus)|, TrailOf(m, flag, nav, bus, parse)))
  }

  class Basis {
    var present: bool
    var bus: seq<byte>
    var inode: nat
    var checkpoint: Option<Checkpoint>
    var lastKnown: Option<real>
    const parse: LineParser

    /** The batches the checkpoint's sum was added up over. */
    ghost var trail: seq<Batch>

    ghost predicate Valid()
      reads this
    {
      && (!present ==> bus == [] && checkpoint == None)
      && (checkpoint.Some? && checkpoint.value.inode == inode ==>
            && checkpoint.value.offset <= |bus|
            && (Usable(checkpoint.value, bus, inode) ==>
                  Summarises(checkpoint.value, bus[..checkpoint.value.offset], parse, trail)))
    }

    ghost function Marked(): Option<Mark>
      reads this
    {
      if checkpoint.Some? && Usable(checkpoint.value, bus, inode) then
        Some(Mark(checkpoint.value.flag, checkpoint.value.offset, trail))
      else None
    }

    constructor (parse: LineParser)
      ensures Valid() && !present && bus == [] && checkpoint == None && lastKnown == None
      ensures this.parse == parse
    {
      this.parse := parse;
      present, bus, inode, checkpoint, lastKnown, trail := false, [], 0, None, None, [];
    }

    // -------------------------------------------------------------- the environment

    /** Anything may be appended, a whole line or part of one. */
    method Append(x: seq<byte>)
      requires Valid()
      modifies this`bus, this`present
      ensures Valid() && bus == old(bus) + x && present && Marked() == old(Marked())
    {
      if checkpoint.Some? && checkpoint.value.inode == inode {
        GrownPrefix(bus, x, checkpoint.value.offset);
      }
      bus, present := bus + x, true;
    }

    /** The checks can see the rewrite, or it keeps the consumed bytes. */
    ghost predicate Noticed(newBus: seq<byte>, newInode: nat)
      reads this
    {
      checkpoint.Some? && checkpoint.value.inode == newInode ==>
        && checkpoint.value.offset <= |newBus|
        && (Fingerprint(newBus, checkpoint.value.offset) == checkpoint.value.prefix ==>
              && Usable(checkpoint.value, bus, inode)
              && newBus[..checkpoint.value.offset] == bus[..checkpoint.value.offset])
    }

    /** The file may be replaced by any other. A new inode, a different tail before the offset or
        the same consumed bytes keep the checkpoint honest. */
    method Replace(newBus: seq<byte>, newInode: nat)
      requires Valid()
      modifies this`bus, this`inode, this`present
      ensures bus == newBus && inode == newInode && present
      ensures old(Noticed(newBus, newInode)) ==> Valid()
      ensures old(checkpoint.Some? && checkpoint.value.inode != newInode) ==> Marked() == None
    {
      bus, inode, present := newBus, newInode, true;
    }

    /** The sidecar is lost or no longer parses. */
    method LoseCheckpoint()
      requires Valid()
      modifies this`checkpoint
      ensures Valid() && checkpoint == None
    {
      checkpoint := None;
    }

    // -------------------------------------------------------------- the tick

    /** What the batch past the checkpoint adds to the carried sum. */
    ghost function Carried(flag: string, nav: Option<real>): real
      requires checkpoint.Some? && checkpoint.value.offset <= |bus|
      reads this
    {
      var c := checkpoint.value;
      c.cum + Total(Join(Prepared(flag, Past(bus, c.offset, parse)), c.lots).1, nav)
    }

    /** What a successful compute leaves in the two sidecars. */
    twostate predicate Stored(flag: string, saved: bool, stored: bool, r: real)
      reads this
    {
      && lastKnown == (if stored then Some(r) else old(lastKnown))
      && (if saved then checkpoint.Some? && checkpoint.value.cum == r else checkpoint == old(checkpoint))
    }

    /** A line the matcher chokes on gives the last stored answer and changes nothing. */
    twostate predicate Faulted(r: real)
      reads this
    {
      r == (if old(lastKnown).Some? then old(lastKnown).value else 0.0)
      && checkpoint == old(checkpoint) && lastKnown == old(lastKnown) && trail == old(trail)
    }

    /** `compute_cumulative_realized_pnl_pct`. A tick that does not resume a checkpoint answers
        the full replay; one that does answers its batches, each at its own NAV, if they are
        sound. */
    method Compute(flag: string, nav: Option<real>, saved: bool, stored: bool) returns (r: real)
      requires Valid()
      modifies this`checkpoint, this`lastKnown, this`trail
      ensures Valid()
      ensures !present ==> r == 0.0
      ensures present && AnyBad(Seen(bus), parse) ==> Faulted(r)
      ensures present && !AnyBad(Seen(bus), parse) ==>
                var m := old(Marked());
                && (!Resumes(m, flag, bus, parse) ==> r == Replay(flag, History(bus, parse), nav))
                && (Resumes(m, flag, bus, parse) ==> r == old(Carried(flag, nav)))
                && RecordsOf(TrailOf(m, flag, nav, bus, parse)) == History(bus, parse)
                && (Sound(flag, TrailOf(m, flag, nav, bus, parse)) ==> r == Frozen(flag, TrailOf(m, flag, nav, bus, parse)))
      ensures Marked() == MarkNext(old(Marked()), flag, nav, saved, bus, parse)
      ensures present && !AnyBad(Seen(bus), parse) && History(bus, parse) != [] ==> Stored(flag, saved, stored, r)
      ensures lastKnown == old(lastKnown) || lastKnown == Some(r)
      ensures checkpoint == old(checkpoint) || (checkpoint.Some? && checkpoint.value.inode == inode)
    {
      hide Join, Records, Pieces, Consumed, Replay, IsCarryOf, Sound, Frozen, RecordsOf, Passes, Latest, Summarises,
        Past, History;
      if !present {
        NothingThere(parse);
        return 0.0;
      }
      var c := checkpoint;
      if c.Some? && c.value.flag != flag { c := None; }
      if c.Some? && !Usable(c.value, bus, inode) { c := None; }
      if c.Some? {
        var full: bool;
        full, r := TryIncremental(c.value, flag, nav, saved, stored);
        if !full {
          return;
        }
      }
      r := FullReplay(flag, nav, saved, stored);
      OneBatch(flag, Batch(History(bus, parse), nav));
    }

    /** The incremental half. `full` asks for the replay instead. */
    method TryIncremental(c: Checkpoint, flag: string, nav: Option<real>, saved: bool, stored: bool)
      returns (full: bool, r: real)
      requires Valid() && present && checkpoint == Some(c) && c.flag == flag && Usable(c, bus, inode)
      modifies this`checkpoint, this`lastKnown, this`trail
      ensures Valid()
      ensures full ==> !Resumes(old(Marked()), flag, bus, parse) && !AnyBad(Seen(bus), parse)
      ensures full ==> checkpoint == old(checkpoint) && lastKnown == old(lastKnown) && trail == old(trail)
      ensures !full && AnyBad(Seen(bus), parse) ==> Faulted(r)
      ensures !full && !AnyBad(Seen(bus), parse) ==>
                var m := old(Marked());
                && Resumes(m, flag, bus, parse)
                && r == old(Carried(flag, nav))
                && RecordsOf(TrailOf(m, flag, nav, bus, parse)) == History(bus, parse)
                && (Sound(flag, TrailOf(m, flag, nav, bus, parse)) ==> r == Frozen(flag, TrailOf(m, flag, nav, bus, parse)))
                && Stored(flag, saved, stored, r)
      ensures !full ==> Marked() == MarkNext(old(Marked()), flag, nav, saved, bus, parse)
      ensures lastKnown == old(lastKnown) || lastKnown == Some(r)
      ensures checkpoint == old(checkpoint) || (checkpoint.Some? && checkpoint.value.inode == inode)
    {
      hide Join, Records, Pieces, Consumed, Replay, IsCarryOf, Sound, Frozen, RecordsOf, Latest, Prepared, Total, Whole;
      var chunk := Consumed(bus[c.offset..]);
      ReadPast(bus, c.offset, parse);
      var batch, bad := ReadLines(Pieces(chunk), parse);
      if bad {
        return false, if lastKnown.Some? then lastKnown.value else 0.0;
      }
      var lo, hi := Bounds(batch);
      if lo.Some? && c.latest.Some? && lo.value < c.latest.value {
        return true, 0.0;
      }
      var latest := Upper(c.latest, hi);
      var book, trips := JoinExitFills(Prepared(flag, batch), c.lots);
      var sum := SumTrips(trips, nav);
      r := c.cum + sum;
      full := false;
      var lots := Serialise(book);
      var d := Checkpoint(c.offset + |chunk|, inode, Fingerprint(bus, c.offset + |chunk|), r, lots, latest, flag);
      SummaryGrows(c, d, bus[..c.offset], chunk, parse, trail, nav);
      RecordsOfNext(trail, Batch(batch, nav));
      if saved { checkpoint, trail := Some(d), trail + [Batch(batch, nav)]; }
      if stored { lastKnown := Some(r); }
    }

    method FullReplay(flag: string, nav: Option<real>, saved: bool, stored: bool) returns (r: real)
      requires Valid() && present
      modifies this`checkpoint, this`lastKnown, this`trail
      ensures Valid()
      ensures AnyBad(Seen(bus), parse) ==> Faulted(r)
      ensures !AnyBad(Seen(bus), parse) ==> r == Replay(flag, History(bus, parse), nav)
      ensures Marked() == (if AnyBad(Seen(bus), parse) || !saved || History(bus, parse) == [] then old(Marked())
                           else Some(Mark(flag, |Consumed(bus)|, [Batch(History(bus, parse), nav)])))
      ensures !AnyBad(Seen(bus), parse) && History(bus, parse) != [] ==> Stored(flag, saved, stored, r)
      ensures lastKnown == old(lastKnown) || lastKnown == Some(r)
      ensures checkpoint == old(checkpoint) || (checkpoint.Some? && checkpoint.value.inode == inode)
    {
      hide Join, Records, Pieces, IsCarryOf, Honest, Frozen, RecordsOf, Sound, Latest;
      var chunk := Consumed(bus);
      ConsumedIsPrefix(bus);
      var records, bad := ReadLines(Pieces(chunk), parse);
      if bad {
        return if lastKnown.Some? then lastKnown.value else 0.0;
      }
      var lo, hi := Bounds(records);
      if records == [] {
        NothingIsZero(flag, nav);
        return 0.0;
      }
      var book, trips := JoinExitFills(Prepared(flag, records), []);
      r := SumTrips(trips, nav);
      var lots := Serialise(book);
      OneBatch(flag, Batch(records, nav));
      if saved {
        checkpoint := Some(Checkpoint(|chunk|, inode, Fingerprint(bus, |chunk|), r, lots, hi, flag));
        trail := [Batch(records, nav)];
        assert bus[..|chunk|] == chunk;
      }
      if stored { lastKnown := Some(r); }
    }
  }

  lemma BadConcat(a: seq<seq<byte>>, b: seq<seq<byte>>, parse: LineParser)
    ensures AnyBad(a + b, parse) <==> AnyBad(a, parse) || AnyBad(b, parse)
  {
    forall l | l in a + b ensures l in a || l in b {
    }
    assert forall l :: l in a ==> l in a + b;
    assert forall l :: l in b ==> l in a + b;
  }

  lemma NothingThere(parse: LineParser)
    ensures History([], parse) == [] && !AnyBad(Seen([]), parse)
  {
  }

  // ---------------------------------------------------------------- over a schedule

  /** Bytes arrive, the file is replaced under a new inode, the checkpoint is lost, or a tick asks
      for the basis at the NAV of that moment; its two sidecar writes may each fail. */
  datatype Event =
    | Arrive(bytes: seq<byte>)
    | Rotate(bytes: seq<byte>)
    | Lose
    | Tick(flag: string, nav: Option<real>, saved: bool, stored: bool)

  function BusAfter(events: seq<Event>): seq<byte> {
    if events == [] then []
    else
      match Last(events)
      case Arrive(bytes) => BusAfter(Front(events)) + bytes
      case Rotate(bytes) => bytes
      case _ => BusAfter(Front(events))
  }

  function MarkAfter(events: seq<Event>, parse: LineParser): Option<Mark> {
    if events == [] then None
    else
      match Last(events)
      case Arrive(_) => MarkAfter(Front(events), parse)
      case Rotate(_) => None
      case Lose => None
      case Tick(flag, nav, saved, _) =>
        MarkNext(MarkAfter(Front(events), parse), flag, nav, saved, BusAfter(Front(events)), parse)
  }

  /** The batches behind the answer of a tick that comes after the events. */
  function TrailAt(events: seq<Event>, flag: string, nav: Option<real>, parse: LineParser): seq<Batch> {
    TrailOf(MarkAfter(events, parse), flag, nav, BusAfter(events), parse)
  }

  /** What a tick after the events should answer. */
  predicate Answers(r: real, events: seq<Event>, flag: string, nav: Option<real>, parse: LineParser) {
    !AnyBad(Seen(BusAfter(events)), parse) ==>
      var trail := TrailAt(events, flag, nav, parse);
      && RecordsOf(trail) == History(BusAfter(events), parse)
      && (Sound(flag, trail) ==> r == Frozen(flag, trail))
      && (Sound(flag, trail) && NavFits(trail, nav) ==> r == Replay(flag, History(BusAfter(events), parse), nav))
  }

  /** For every schedule of appends (of whole or partial lines, in any time order), rotations,
      lost checkpoints, failed writes, flag changes and NAV moves. */
  method Drive(events: seq<Event>, parse: LineParser) returns (answers: seq<real>)
    ensures |answers| == |events|
    ensures forall i :: 0 <= i < |events| && events[i].Tick? ==>
              Answers(answers[i], events[..i], events[i].flag, events[i].nav, parse)
  {
    hide Answers, Replay, History, Summarises, MarkNext, TrailOf, RecordsOf, Sound, Frozen;
    var basis := new Basis(parse);
    answers := [];
    for i := 0 to |events|
      invariant fresh(basis) && basis.Valid() && basis.parse == parse
      invariant basis.bus == BusAfter(events[..i])
      invariant basis.Marked() == MarkAfter(events[..i], parse)
      invariant basis.checkpoint.Some? ==> basis.checkpoint.value.inode <= basis.inode
      invariant |answers| == i
      invariant forall j :: 0 <= j < i && events[j].Tick? ==>
                  Answers(answers[j], events[..j], events[j].flag, events[j].nav, parse)
    {
      assert Front(events[..i + 1]) == events[..i];
      var r := 0.0;
      match events[i] {
        case Arrive(bytes) => basis.Append(bytes);
        case Rotate(bytes) => basis.Replace(bytes, basis.inode + 1);
        case Lose => basis.LoseCheckpoint();
        case Tick(flag, nav, saved, stored) =>
          r := basis.Compute(flag, nav, saved, stored);
          TickAnswers(r, events[..i], flag, nav, basis.present, parse);
      }
      answers := answers + [r];
    }
  }

  lemma TickAnswers(r: real, events: seq<Event>, flag: string, nav: Option<real>, there: bool, parse: LineParser)
    requires !there ==> r == 0.0 && BusAfter(events) == [] && MarkAfter(events, parse) == None
    requires there && !AnyBad(Seen(BusAfter(events)), parse) ==>
               var trail := TrailAt(events, flag, nav, parse);
               && RecordsOf(trail) == History(BusAfter(events), parse)
               && (Sound(flag, trail) ==> r == Frozen(flag, trail))
    ensures Answers(r, events, flag, nav, parse)
  {
    var trail := TrailAt(events, flag, nav, parse);
    if !there {
      NothingThere(parse);
      NothingIsZero(flag, nav);
      OneBatch(flag, trail[0]);
    }
    hide Replay, Frozen, Sound, RecordsOf, History;
    if NavFits(trail, nav) {
      FrozenIsReplay(flag, trail, nav);
    }
  }

  /** Every tick of the schedule saw the same NAV. */
  predicate OneNav(events: seq<Event>, nav: Option<real>) {
    forall e :: e in events && e.Tick? ==> e.nav == nav
  }

  lemma {:induction false} MarkIsSteady(events: seq<Event>, nav: Option<real>, parse: LineParser)
    requires OneNav(events, nav)
    ensures MarkAfter(events, parse).Some? ==> SteadyNav(MarkAfter(events, parse).value.trail, nav)
  {
    if events != [] {
      assert events == Front(events) + [Last(events)];
      MarkIsSteady(Front(events), nav, parse);
      hide History, Past, Passes, Consumed, Seen;
      match Last(events)
      case Arrive(_) =>
      case Rotate(_) =>
      case Lose =>
      case Tick(_, _, _, _) =>
    }
  }

  /** Without the normaliser, and with NAV still or every trade single-leg, each tick answers
      the full replay where every record's two times agree. */
  lemma PlainTickIsReplay(r: real, events: seq<Event>, flag: string, nav: Option<real>, parse: LineParser)
    requires Answers(r, events, flag, nav, parse) && flag != "1"
    requires var bus := BusAfter(events);
             && !AnyBad(Seen(bus), parse) && Honest(History(bus, parse))
             && (OneNav(events, nav) || SingleLeg(History(bus, parse)))
    ensures r == Replay(flag, History(BusAfter(events), parse), nav)
  {
    SmoothWithoutFlag(flag, TrailAt(events, flag, nav, parse));
    if OneNav(events, nav) {
      MarkIsSteady(events, nav, parse);
    }
    hide History, Replay, Smooth, RecordsOf, KeysAgree, Frozen, MarkAfter, Past, Passes, SingleLeg;
  }
}
