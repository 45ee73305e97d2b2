/** A codec that keeps the law the store asks of one: every record becomes one line and is read
    back. It stands for the JSON codec only in meeting that law. */
module ProposalCodec {
  import opened Prelude
  import opened ByteLines
  import opened ProposalRecords
  import opened ProposalBus
  import opened ProposalStore

  // ---------------------------------------------------------------- numbers as bytes

  const ONE: byte := 49
  const STOP: byte := 48
  const COMMA: byte := 44

  /** A field is a list of numbers, a line a list of fields. */
  type Field = seq<nat>

  function Ones(n: nat): seq<byte> {
    if n == 0 then [] else [ONE] + Ones(n - 1)
  }

  function FieldBytes(f: Field): seq<byte> {
    if f == [] then [] else Ones(f[0]) + [STOP] + FieldBytes(f[1..])
  }

  function LineBytes(fs: seq<Field>): seq<byte> {
    if fs == [] then [] else FieldBytes(fs[0]) + [COMMA] + LineBytes(fs[1..])
  }

  /** Reads on with `n` ones and the numbers `f` of a field already seen. */
  function Read(b: seq<byte>, n: nat, f: Field): seq<Field>
    decreases |b|
  {
    if b == [] then []
    else if b[0] == ONE then Read(b[1..], n + 1, f)
    else if b[0] == STOP then Read(b[1..], 0, f + [n])
    else [f] + Read(b[1..], 0, [])
  }

  lemma ReadCons(c: byte, rest: seq<byte>, n: nat, f: Field)
    ensures Read([c] + rest, n, f) == if c == ONE then Read(rest, n + 1, f)
                                      else if c == STOP then Read(rest, 0, f + [n]) else [f] + Read(rest, 0, [])
  {
    assert ([c] + rest)[1..] == rest;
  }

  lemma {:induction false} ReadOnes(k: nat, rest: seq<byte>, n: nat, f: Field)
    ensures Read(Ones(k) + rest, n, f) == Read(rest, n + k, f)
  {
    if k == 0 {
      assert [] + rest == rest;
    } else {
      assert Ones(k) + rest == [ONE] + (Ones(k - 1) + rest);
      ReadCons(ONE, Ones(k - 1) + rest, n, f);
      ReadOnes(k - 1, rest, n + 1, f);
    }
  }

  lemma {:induction false} ReadField(g: Field, rest: seq<byte>, f: Field)
    ensures Read(FieldBytes(g) + rest, 0, f) == Read(rest, 0, f + g)
  {
    if g == [] {
      assert [] + rest == rest && f + [] == f;
    } else {
      var tail := FieldBytes(g[1..]) + rest;
      assert FieldBytes(g) + rest == Ones(g[0]) + ([STOP] + tail);
      ReadOnes(g[0], [STOP] + tail, 0, f);
      ReadCons(STOP, tail, g[0], f);
      ReadField(g[1..], rest, f + [g[0]]);
      assert f + [g[0]] + g[1..] == f + g;
    }
  }

  lemma {:induction false} ReadLine(fs: seq<Field>)
    ensures Read(LineBytes(fs), 0, []) == fs
  {
    if fs != [] {
      var tail := [COMMA] + LineBytes(fs[1..]);
      assert LineBytes(fs) == FieldBytes(fs[0]) + tail;
      ReadField(fs[0], tail, []);
      assert [] + fs[0] == fs[0];
      ReadCons(COMMA, LineBytes(fs[1..]), 0, fs[0]);
      ReadLine(fs[1..]);
      assert [fs[0]] + fs[1..] == fs;
    }
  }

  predicate Plain(b: seq<byte>) {
    forall c :: c in b ==> c == ONE || c == STOP || c == COMMA
  }

  lemma {:induction false} OnesPlain(n: nat)
    ensures Plain(Ones(n))
  {
    if n > 0 { OnesPlain(n - 1); }
  }

  lemma {:induction false} FieldPlain(f: Field)
    ensures Plain(FieldBytes(f))
  {
    if f != [] {
      OnesPlain(f[0]);
      FieldPlain(f[1..]);
    }
  }

  lemma {:induction false} LinePlain(fs: seq<Field>)
    ensures Plain(LineBytes(fs)) && (fs != [] ==> COMMA in LineBytes(fs))
  {
    if fs != [] {
      FieldPlain(fs[0]);
      LinePlain(fs[1..]);
    }
  }

  // ---------------------------------------------------------------- values as numbers

  function Code(c: char): nat {
    c as int
  }

  function Char(n: nat): char {
    if n < 0xD800 || 0xE000 <= n < 0x11_0000 then n as char else 'x'
  }

  function Text(s: string): Field {
    seq(|s|, i requires 0 <= i < |s| => Code(s[i]))
  }

  function Untext(f: Field): string {
    seq(|f|, i requires 0 <= i < |f| => Char(f[i]))
  }

  lemma TextBack(s: string)
    ensures Untext(Text(s)) == s
  {
  }

  function Maybe(o: Option<string>): Field {
    if o.None? then [] else [1] + Text(o.value)
  }

  function Unmaybe(f: Field): Option<string> {
    if f == [] then None else Some(Untext(f[1..]))
  }

  lemma MaybeBack(o: Option<string>)
    ensures Unmaybe(Maybe(o)) == o
  {
    if o.Some? {
      assert Maybe(o)[1..] == Text(o.value);
      TextBack(o.value);
    }
  }

  function Size(o: Option<Double>): Field {
    if o.None? then [] else [if o.value.negative then 1 else 0, o.value.exponent, o.value.fraction]
  }

  function Unsize(f: Field): Option<Double> {
    if |f| == 3 && f[1] < 2047 && f[2] < 0x10_0000_0000_0000 then Some(Double(f[0] == 1, f[1], f[2])) else None
  }

  lemma SizeBack(o: Option<Double>)
    ensures Unsize(Size(o)) == o
  {
  }

  function StateField(s: State): Field {
    match s
    case Pending => []
    case Approved => [0]
    case Rejected => [0, 0]
    case Expired => [0, 0, 0]
  }

  function Unstate(f: Field): State {
    if |f| == 0 then Pending else if |f| == 1 then Approved else if |f| == 2 then Rejected else Expired
  }

  function KindField(k: Kind): Field {
    match k
    case Create => []
    case Approve => [0]
    case Reject => [0, 0]
    case Expire => [0, 0, 0]
  }

  // ---------------------------------------------------------------- the codec

  function TermFields(t: Terms): seq<Field> {
    [Text(t.symbol), Text(t.assetClass), Text(t.timeframe), Text(t.createdAt), Text(t.expiresAt), Text(t.advisor),
     Text(t.kind), Maybe(t.multiLeg)]
  }

  function Unterms(fs: seq<Field>): Terms
    requires |fs| == 8
  {
    Terms(Untext(fs[0]), Untext(fs[1]), Untext(fs[2]), Untext(fs[3]), Untext(fs[4]), Untext(fs[5]), Untext(fs[6]),
          Unmaybe(fs[7]))
  }

  lemma TermsBack(t: Terms)
    ensures Unterms(TermFields(t)) == t
  {
    TextBack(t.symbol);
    TextBack(t.assetClass);
    TextBack(t.timeframe);
    TextBack(t.createdAt);
    TextBack(t.expiresAt);
    TextBack(t.advisor);
    TextBack(t.kind);
    MaybeBack(t.multiLeg);
    hide Text, Untext, Maybe, Unmaybe;
  }

  function RecordFields(p: Proposal): seq<Field> {
    [Text(p.id), StateField(p.state), Maybe(p.approvedAt), Maybe(p.approver), Size(p.sizeOverride), Maybe(p.rejectedAt),
     Maybe(p.rejectionReason), Maybe(p.expiredAt), Maybe(p.execution)]
  }

  function Unrecord(fs: seq<Field>, t: Terms): Proposal
    requires |fs| == 9
  {
    Proposal(Untext(fs[0]), Unstate(fs[1]), t, Unmaybe(fs[2]), Unmaybe(fs[3]), Unsize(fs[4]), Unmaybe(fs[5]),
             Unmaybe(fs[6]), Unmaybe(fs[7]), Unmaybe(fs[8]))
  }

  lemma RecordBack(p: Proposal)
    ensures Unrecord(RecordFields(p), p.terms) == p
  {
    TextBack(p.id);
    MaybeBack(p.approvedAt);
    MaybeBack(p.approver);
    SizeBack(p.sizeOverride);
    MaybeBack(p.rejectedAt);
    MaybeBack(p.rejectionReason);
    MaybeBack(p.expiredAt);
    MaybeBack(p.execution);
    hide Text, Untext, Maybe, Unmaybe, Size, Unsize;
  }

  /** The event tag, the event time, the terms and the rest of the record. */
  function Fields(kind: Kind, at: string, p: Proposal): seq<Field> {
    [KindField(kind), Text(at)] + TermFields(p.terms) + RecordFields(p)
  }

  function Encode(kind: Kind, at: string, p: Proposal): seq<byte> {
    LineBytes(Fields(kind, at, p))
  }

  function Parse(line: seq<byte>): Option<Proposal> {
    var fs := Read(line, 0, []);
    if |fs| != 19 then None else Some(Unrecord(fs[10..], Unterms(fs[2..10])))
  }

  lemma ParseBack(kind: Kind, at: string, p: Proposal)
    ensures Parse(Encode(kind, at, p)) == Some(p)
  {
    var fs := Fields(kind, at, p);
    ReadLine(fs);
    TermsBack(p.terms);
    RecordBack(p);
    FieldsSplit([KindField(kind), Text(at)], TermFields(p.terms), RecordFields(p));
    hide Read, LineBytes, Text, Unterms, Unrecord;
  }

  lemma FieldsSplit(a: seq<Field>, b: seq<Field>, c: seq<Field>)
    requires |a| == 2 && |b| == 8 && |c| == 9
    ensures |a + b + c| == 19 && (a + b + c)[2..10] == b && (a + b + c)[10..] == c
  {
  }

  /** The law can be met. */
  lemma LawIsMet()
    ensures Lawful(Encode, Parse)
  {
    forall kind, at, p
      ensures var l := Encode(kind, at, p); !HasNewline(l) && Decodes(l, Parse) && Parse(l).value == p
    {
      ParseBack(kind, at, p);
      LinePlain(Fields(kind, at, p));
      hide Encode, Parse;
      assert Plain(Encode(kind, at, p)) && COMMA in Encode(kind, at, p) by { EncodeIs(kind, at, p); }
      assert !IsSpace(COMMA);
    }
  }

  lemma EncodeIs(kind: Kind, at: string, p: Proposal)
    ensures Encode(kind, at, p) == LineBytes(Fields(kind, at, p))
  {
    hide LineBytes, Fields;
  }

  /** A store that is in step exists. */
  method OpenStore() returns (s: Store)
    ensures fresh(s) && s.Valid() && s.index == map[] && s.bus == []
    ensures s.encode == Encode && s.parse == Parse
  {
    LawIsMet();
    s := new Store(Encode, Parse);
  }
}
