/** The proposal bus as bytes, and the rebuild of the index from it. */
module ProposalBus {
  import opened Prelude
  import opened ByteLines
  import opened ProposalRecords

  type Index = map<string, Row>

  /** `json.loads` plus the required fields; `None` for any line that fails to decode. */
  type Parser = seq<byte> -> Option<Proposal>

  predicate IsSpace(c: byte) {
    c == 32 || 9 <= c <= 13
  }

  predicate Blank(line: seq<byte>) {
    forall c :: c in line ==> IsSpace(c)
  }

  predicate Malformed(line: seq<byte>, parse: Parser) {
    !Blank(line) && parse(line).None?
  }

  predicate Decodes(line: seq<byte>, parse: Parser) {
    !Blank(line) && parse(line).Some?
  }

  /** A malformed line that is not the last non-blank one. */
  predicate Corrupt(lines: seq<seq<byte>>, parse: Parser) {
    exists i, j :: 0 <= i < j < |lines| && Malformed(lines[i], parse) && !Blank(lines[j])
  }

  predicate NoneMalformed(lines: seq<seq<byte>>, parse: Parser) {
    forall l :: l in lines ==> !Malformed(l, parse)
  }

  /** Last-wins: the record of each id's latest decodable line. */
  function Latest(lines: seq<seq<byte>>, parse: Parser): map<string, Proposal> {
    if lines == [] then map[]
    else Superseded(Latest(Front(lines), parse), Last(lines), parse)
  }

  function Superseded(m: map<string, Proposal>, line: seq<byte>, parse: Parser): map<string, Proposal> {
    if Decodes(line, parse) then m[parse(line).value.id := parse(line).value] else m
  }

  function Rows(m: map<string, Proposal>): Index {
    map id | id in m :: Row(m[id].state, m[id])
  }

  lemma OneMore(lines: seq<seq<byte>>, line: seq<byte>, parse: Parser)
    ensures Latest(lines + [line], parse) == Superseded(Latest(lines, parse), line, parse)
  {
    FrontLast(lines, line);
  }

  lemma {:induction false} LatestKeys(lines: seq<seq<byte>>, parse: Parser)
    ensures forall id :: id in Latest(lines, parse) ==> Latest(lines, parse)[id].id == id
  {
    if lines != [] {
      LatestKeys(Front(lines), parse);
    }
  }

  /** Line `k` decodes to a record of `id` and no later line does. */
  predicate IsLastLineOf(lines: seq<seq<byte>>, parse: Parser, id: string, k: int) {
    && 0 <= k < |lines| && Decodes(lines[k], parse) && parse(lines[k]).value.id == id
    && forall j :: k < j < |lines| && Decodes(lines[j], parse) ==> parse(lines[j]).value.id != id
  }

  lemma LastLineWithoutNew(lines: seq<seq<byte>>, parse: Parser, id: string, k: int)
    requires lines != [] && !(Decodes(Last(lines), parse) && parse(Last(lines)).value.id == id)
    ensures IsLastLineOf(lines, parse, id, k) <==> IsLastLineOf(Front(lines), parse, id, k)
  {
    assert forall j :: 0 <= j < |Front(lines)| ==> Front(lines)[j] == lines[j];
  }

  /** The rebuilt map holds exactly the ids with a decodable line, each with its last one. */
  lemma {:induction false} LatestIsLastLine(lines: seq<seq<byte>>, parse: Parser, id: string)
    ensures id in Latest(lines, parse) <==> exists k :: IsLastLineOf(lines, parse, id, k)
    ensures forall k :: IsLastLineOf(lines, parse, id, k) ==> Latest(lines, parse)[id] == parse(lines[k]).value
  {
    if lines != [] {
      LatestIsLastLine(Front(lines), parse, id);
      if Decodes(Last(lines), parse) && parse(Last(lines)).value.id == id {
        assert IsLastLineOf(lines, parse, id, |lines| - 1);
      } else {
        forall k ensures IsLastLineOf(lines, parse, id, k) <==> IsLastLineOf(Front(lines), parse, id, k) {
          LastLineWithoutNew(lines, parse, id, k);
        }
      }
    }
  }

  /** No line of the file fails to decode, and none is in progress. */
  predicate Clean(bus: seq<byte>, parse: Parser) {
    Whole(bus) && NoneMalformed(Complete(bus), parse)
  }

  /** The blank piece after the last newline says nothing. */
  lemma WholeLatest(bus: seq<byte>, parse: Parser)
    requires Whole(bus)
    ensures Latest(Split(bus), parse) == Latest(Complete(bus), parse)
  {
    WholeHasNoFragment(bus);
    SplitIs(bus);
    OneMore(Complete(bus), [], parse);
    assert Blank([]);
  }

  lemma CleanIsNotCorrupt(bus: seq<byte>, parse: Parser)
    requires NoneMalformed(Complete(bus), parse)
    ensures !Corrupt(Split(bus), parse)
  {
    SplitIs(bus);
    var all := Split(bus);
    forall i, j | 0 <= i < j < |all| && !Blank(all[j]) ensures !Malformed(all[i], parse) {
      assert all[i] in Complete(bus);
    }
  }

  /** Appending one encoded line to a clean file updates exactly its id. */
  lemma AppendUpdatesOne(bus: seq<byte>, line: seq<byte>, parse: Parser)
    requires Clean(bus, parse) && !HasNewline(line) && Decodes(line, parse)
    ensures Clean(bus + line + [NL], parse)
    ensures Latest(Split(bus + line + [NL]), parse)
         == Latest(Split(bus), parse)[parse(line).value.id := parse(line).value]
  {
    WholeHasNoFragment(bus);
    LineAppended(bus, line);
    assert [] + line == line;
    WholeLatest(bus, parse);
    WholeLatest(bus + line + [NL], parse);
    OneMore(Complete(bus), line, parse);
  }

  /** A torn fragment after a clean file is skipped by the rebuild. */
  lemma TornTailSkipped(bus: seq<byte>, frag: seq<byte>, parse: Parser)
    requires Clean(bus, parse) && !HasNewline(frag) && Malformed(frag, parse)
    ensures !Corrupt(Split(bus + frag), parse)
    ensures Latest(Split(bus + frag), parse) == Latest(Split(bus), parse)
  {
    WholeHasNoFragment(bus);
    TextExtends(bus, frag);
    assert [] + frag == frag;
    CleanIsNotCorrupt(bus + frag, parse);
    WholeLatest(bus, parse);
    SplitIs(bus + frag);
    OneMore(Complete(bus), frag, parse);
  }

  /** The next append loses its own record: the rebuild still succeeds, without it. One
      append later the rebuild refuses the whole file. */
  lemma GluedLineIsLost(bus: seq<byte>, frag: seq<byte>, line: seq<byte>, next: seq<byte>, parse: Parser)
    requires Clean(bus, parse) && !HasNewline(frag) && !HasNewline(line) && !HasNewline(next)
    requires Malformed(frag + line, parse) && Decodes(next, parse)
    ensures var glued := bus + frag + line + [NL];
            && !Corrupt(Split(glued), parse)
            && Latest(Split(glued), parse) == Latest(Split(bus), parse)
            && Corrupt(Split(glued + next + [NL]), parse)
  {
    var glued := bus + frag + line + [NL];
    WholeHasNoFragment(bus);
    TextExtends(bus, frag);
    assert [] + frag == frag;
    LineAppended(bus + frag, line);
    WholeLatest(bus, parse);
    WholeLatest(glued, parse);
    OneMore(Complete(bus), frag + line, parse);
    GluedOnce(bus, frag + line, glued, parse);
    LineAppended(glued, next);
    assert [] + next == next;
    SplitIs(glued + next + [NL]);
    var all := Split(glued + next + [NL]);
    var n := |Complete(bus)|;
    assert all[n] == frag + line && all[n + 1] == next;
  }

  lemma GluedOnce(bus: seq<byte>, l: seq<byte>, glued: seq<byte>, parse: Parser)
    requires NoneMalformed(Complete(bus), parse)
    requires Complete(glued) == Complete(bus) + [l] && Fragment(glued) == []
    ensures !Corrupt(Split(glued), parse)
  {
    SplitIs(glued);
    assert Blank([]);
    var all := Split(glued);
    forall i, j | 0 <= i < j < |all| && !Blank(all[j]) ensures !Malformed(all[i], parse) {
      assert all[i] in Complete(bus);
    }
  }

  /** The index of the last non-blank line, or -1. */
  predicate IsLastNonblank(lines: seq<seq<byte>>, k: int) {
    && -1 <= k < |lines|
    && (k >= 0 ==> !Blank(lines[k]))
    && forall j :: k < j < |lines| ==> Blank(lines[j])
  }

  method LastNonblank(lines: seq<seq<byte>>) returns (k: int)
    ensures IsLastNonblank(lines, k)
  {
    k := -1;
    for i := 0 to |lines|
      invariant -1 <= k < i
      invariant k >= 0 ==> !Blank(lines[k])
      invariant forall j :: k < j < i ==> Blank(lines[j])
    {
      if !Blank(lines[i]) { k := i; }
    }
  }

  /** The first malformed line, if it is not the last non-blank one; else the rebuilt map. */
  method Scan(lines: seq<seq<byte>>, last: int, parse: Parser) returns (r: Result<map<string, Proposal>, nat>)
    requires IsLastNonblank(lines, last)
    ensures r.Err? ==> 0 < r.error <= last && Malformed(lines[r.error - 1], parse)
    ensures r.Ok? ==> r.value == Latest(lines, parse)
    ensures r.Ok? ==> forall k :: 0 <= k < |lines| && Malformed(lines[k], parse) ==> k == last
  {
    hide Latest, Blank;
    var latest: map<string, Proposal> := map[];
    NoLines(parse);
    assert lines[..0] == [];
    for i := 0 to |lines|
      invariant latest == Latest(lines[..i], parse)
      invariant forall k :: 0 <= k < i && Malformed(lines[k], parse) ==> k == last
    {
      assert lines[..i + 1] == lines[..i] + [lines[i]];
      OneMore(lines[..i], lines[i], parse);
      if !Blank(lines[i]) {
        var p := parse(lines[i]);
        if p.None? {
          if i != last {
            return Err(i + 1);
          }
        } else {
          latest := latest[p.value.id := p.value];
        }
      }
    }
    assert lines[..|lines|] == lines;
    r := Ok(latest);
  }

  lemma NoLines(parse: Parser)
    ensures Latest([], parse) == map[]
  {
  }

  /** The replay half of `_reconcile_index`. */
  method Replay(file: seq<byte>, parse: Parser) returns (r: Result<map<string, Proposal>, nat>)
    ensures r.Err? <==> Corrupt(Split(file), parse)
    ensures r.Err? ==> 0 < r.error <= |Split(file)| && Malformed(Split(file)[r.error - 1], parse)
    ensures r.Ok? ==> r.value == Latest(Split(file), parse)
  {
    var last := LastNonblank(Split(file));
    r := Scan(Split(file), last, parse);
    if r.Err? {
      assert !Blank(Split(file)[last]);
    }
  }
}
