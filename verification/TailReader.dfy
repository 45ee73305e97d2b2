/** Reading the last records of a bus file from a bounded window at its end. */
module TailReader {
  import opened Prelude
  import opened ByteLines

  const WINDOW := 1048576

  /** What decoding makes of a line: bytes that are no text raise, and what is no JSON object
      is skipped. */
  datatype Outcome<R> = Raises | Skipped | Record(value: R)

  type Decoder<!R> = seq<byte> -> Outcome<R>

  /** The records among some lines; empty lines are never decoded. */
  function Decoded<R>(lines: seq<seq<byte>>, decode: Decoder<R>): seq<R> {
    if lines == [] then []
    else
      var l := Last(lines);
      if l == [] || !decode(l).Record? then Decoded(Front(lines), decode)
      else Decoded(Front(lines), decode) + [decode(l).value]
  }

  predicate AnyRaises<R>(lines: seq<seq<byte>>, decode: Decoder<R>) {
    exists l :: l in lines && l != [] && decode(l).Raises?
  }

  lemma {:induction false} DecodedConcat<R>(a: seq<seq<byte>>, b: seq<seq<byte>>, decode: Decoder<R>)
    ensures Decoded(a + b, decode) == Decoded(a, decode) + Decoded(b, decode)
  {
    if b == [] {
      assert a + b == a;
    } else {
      FrontOfConcat(a, b);
      DecodedConcat(a, Front(b), decode);
    }
  }

  function Records<R>(file: seq<byte>, decode: Decoder<R>): seq<R> {
    Decoded(Split(file), decode)
  }

  function LastN<R>(s: seq<R>, n: nat): seq<R> {
    if n <= |s| then s[|s| - n..] else s
  }

  function Start(file: seq<byte>): nat {
    if |file| <= WINDOW then 0 else |file| - WINDOW
  }

  /** `chunk.find(b"\\n")`. */
  method FindNewline(b: seq<byte>) returns (k: int)
    ensures k == -1 ==> !HasNewline(b)
    ensures k != -1 ==> 0 <= k < |b| && b[k] == NL && !HasNewline(b[..k])
  {
    for i := 0 to |b|
      invariant !HasNewline(b[..i])
    {
      if b[i] == NL {
        return i;
      }
    }
    assert b[..|b|] == b;
    k := -1;
  }

  /** What follows a newline splits on its own. */
  lemma RecordsAfterNewline<R>(file: seq<byte>, k: nat, decode: Decoder<R>)
    requires k < |file| && file[k] == NL
    ensures Records(file, decode) == Records(file[..k], decode) + Records(file[k + 1..], decode)
  {
    assert file == file[..k] + [NL] + file[k + 1..];
    SplitAt(file[..k], file[k + 1..]);
    DecodedConcat(Split(file[..k]), Split(file[k + 1..]), decode);
  }

  /** The part of the file the reader keeps starts the file or follows a newline. */
  predicate Aligned(file: seq<byte>, kept: seq<byte>) {
    kept == file || exists k :: 0 <= k < |file| && file[k] == NL && kept == file[k + 1..]
  }

  /** What the reader keeps: the whole of a small file, else what follows the window's first
      newline. */
  ghost predicate IsKept(file: seq<byte>, kept: seq<byte>) {
    if |file| <= WINDOW then kept == file
    else exists k: nat :: FirstNewline(file, k) && kept == file[k + 1..]
  }

  predicate FirstNewline(file: seq<byte>, k: nat) {
    Start(file) <= k < |file| && file[k] == NL && !HasNewline(file[Start(file)..k])
  }

  lemma KeptIsOne(file: seq<byte>, kept: seq<byte>, other: seq<byte>)
    requires IsKept(file, kept) && IsKept(file, other)
    ensures kept == other && Aligned(file, kept) && |kept| <= WINDOW && (|file| <= WINDOW ==> kept == file)
  {
    if |file| > WINDOW {
      var j: nat :| FirstNewline(file, j) && kept == file[j + 1..];
      var k: nat :| FirstNewline(file, k) && other == file[k + 1..];
    }
  }

  /** `_read_jsonl_tail`: the last `n` records of the window, less its partial first line; or an
      exception, exactly when a line of it does not decode as text. */
  method ReadTail<R>(file: Option<seq<byte>>, n: nat, decode: Decoder<R>) returns (r: Result<seq<R>, ()>)
    requires n > 0
    ensures file.None? ==> r == Ok([])
    ensures file.Some? ==> (r.Err? <==> exists kept :: IsKept(file.value, kept) && AnyRaises(Split(kept), decode))
    ensures file.Some? && r.Ok? ==> |r.value| <= n && r.value == LastN(Records(file.value, decode), |r.value|)
    ensures file.Some? && r.Ok? && |file.value| <= WINDOW ==> r.value == LastN(Records(file.value, decode), n)
    ensures file.Some? && r.Ok? && |r.value| < n && HasNewline(file.value[Start(file.value)..]) ==>
              exists kept :: IsKept(file.value, kept) && r.value == Records(kept, decode)
  {
    hide Decoded, Split, Aligned, HasNewline, IsKept, AnyRaises, Records, LastN, Start;
    if file.None? {
      return Ok([]);
    }
    var chunk := Window(file.value);
    if chunk.None? {
      NothingLast(Records(file.value, decode));
      return Ok([]);
    }
    assert Records(chunk.value, decode) == Decoded(Split(chunk.value), decode) by { RecordsAre(chunk.value, decode); }
    forall other | IsKept(file.value, other) ensures other == chunk.value {
      KeptIsOne(file.value, chunk.value, other);
    }
    KeptIsOne(file.value, chunk.value, chunk.value);
    WindowIsSuffix(file.value, chunk.value, decode);
    var all, raised := DecodeLines(Split(chunk.value), decode);
    if raised {
      return Err(());
    }
    SuffixOfSuffix(Records(file.value, decode), all, n);
    r := Ok(LastN(all, n));
  }

  /** The bytes the reader keeps: the window, less a first line it may have entered midway. */
  method Window(file: seq<byte>) returns (chunk: Option<seq<byte>>)
    ensures chunk.None? <==> |file| > WINDOW && !HasNewline(file[Start(file)..])
    ensures chunk.None? ==> forall kept :: !IsKept(file, kept)
    ensures chunk.Some? ==> IsKept(file, chunk.value)
  {
    var start := Start(file);
    var window := file[start..];
    if start > 0 {
      var k := FindNewline(window);
      if k < 0 {
        forall j: nat ensures !FirstNewline(file, j) {
          assert start <= j < |file| ==> window[j - start] == file[j];
        }
        return None;
      }
      assert file[start + k] == NL && window[k + 1..] == file[start + k + 1..] && window[..k] == file[start..start + k];
      assert FirstNewline(file, start + k);
      return Some(window[k + 1..]);
    }
    chunk := Some(window);
  }

  lemma WindowIsSuffix<R>(file: seq<byte>, kept: seq<byte>, decode: Decoder<R>)
    requires Aligned(file, kept)
    ensures var s, t := Records(file, decode), Records(kept, decode); |t| <= |s| && t == s[|s| - |t|..]
  {
    if kept != file {
      var k :| 0 <= k < |file| && file[k] == NL && kept == file[k + 1..];
      RecordsAfterNewline(file, k, decode);
    }
  }

  lemma RecordsAre<R>(file: seq<byte>, decode: Decoder<R>)
    ensures Records(file, decode) == Decoded(Split(file), decode)
  {
  }

  lemma NothingLast<R>(s: seq<R>)
    ensures LastN(s, 0) == []
  {
  }

  lemma SuffixOfSuffix<R>(s: seq<R>, t: seq<R>, n: nat)
    requires |t| <= |s| && t == s[|s| - |t|..]
    ensures LastN(t, n) == LastN(s, |LastN(t, n)|) && |LastN(t, n)| <= n
    ensures |LastN(t, n)| < n ==> LastN(t, n) == t
  {
  }

  method DecodeLines<R>(lines: seq<seq<byte>>, decode: Decoder<R>) returns (records: seq<R>, raised: bool)
    ensures raised <==> AnyRaises(lines, decode)
    ensures !raised ==> records == Decoded(lines, decode)
  {
    records, raised := [], false;
    for i := 0 to |lines|
      invariant records == Decoded(lines[..i], decode)
      invariant !AnyRaises(lines[..i], decode)
    {
      assert Front(lines[..i + 1]) == lines[..i];
      if lines[i] != [] {
        var out := decode(lines[i]);
        match out {
          case Raises =>
            assert lines[i] in lines;
            return records, true;
          case Skipped =>
          case Record(rec) => records := records + [rec];
        }
      }
    }
    assert lines[..|lines|] == lines;
  }
}
