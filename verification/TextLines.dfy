/** Text lines of an appended byte file, as a reader that stops at the last newline sees them. */
module TextLines {
  import opened ByteLines

  /** Everything up to and including the last newline. */
  function Consumed(b: seq<byte>): seq<byte> {
    if b == [] || Last(b) == NL then b else Consumed(Front(b))
  }

  lemma {:induction false} ConsumedIsPrefix(b: seq<byte>)
    ensures Whole(Consumed(b)) && Consumed(b) <= b
    ensures !HasNewline(b[|Consumed(b)|..])
  {
    if b != [] && Last(b) != NL {
      ConsumedIsPrefix(Front(b));
      var k := |Consumed(Front(b))|;
      assert b[k..] == Front(b)[k..] + [Last(b)];
    }
  }

  lemma WholeConcat(a: seq<byte>, b: seq<byte>)
    requires Whole(a) && Whole(b)
    ensures Whole(a + b)
  {
    if b == [] { assert a + b == a; }
  }

  /** Reading on from a consumed prefix consumes exactly the rest. */
  lemma {:induction false} ConsumedAfter(a: seq<byte>, b: seq<byte>)
    requires Whole(a)
    ensures Consumed(a + b) == a + Consumed(b)
    ensures Whole(Consumed(b)) && Consumed(b) <= b && |Consumed(b)| <= |b|
  {
    ConsumedIsPrefix(b);
    if b == [] {
      assert a + b == a;
    } else {
      FrontOfConcat(a, b);
      if Last(b) != NL {
        ConsumedAfter(a, Front(b));
      }
    }
  }

  /** The length of the line separator at the head of `b`, or 0. These are the separators of
      `str.splitlines`, in UTF-8. */
  function Separator(b: seq<byte>): (n: nat)
    ensures n <= |b|
  {
    if b == [] then 0
    else if b[0] == 13 then (if |b| > 1 && b[1] == NL then 2 else 1)
    else if 10 <= b[0] <= 12 || 28 <= b[0] <= 30 then 1
    else if b[0] == 0xC2 && |b| > 1 && b[1] == 0x85 then 2
    else if b[0] == 0xE2 && |b| > 2 && b[1] == 0x80 && (b[2] == 0xA8 || b[2] == 0xA9) then 3
    else 0
  }

  /** `splitlines` of `b` when `line` is the line in progress. */
  function PiecesFrom(line: seq<byte>, b: seq<byte>): seq<seq<byte>>
    decreases |b|
  {
    if b == [] then (if line == [] then [] else [line])
    else if Separator(b) > 0 then [line] + PiecesFrom([], b[Separator(b)..])
    else PiecesFrom(line + [b[0]], b[1..])
  }

  function Pieces(b: seq<byte>): seq<seq<byte>> {
    PiecesFrom([], b)
  }

  lemma SeparatorOfWhole(a: seq<byte>, b: seq<byte>)
    requires Whole(a) && a != []
    ensures Separator(a + b) == Separator(a)
    ensures Separator(a) == 0 ==> a[1..] != []
    ensures Whole(a[1..]) && Whole(a[Separator(a)..])
  {
  }

  lemma PiecesCut(line: seq<byte>, b: seq<byte>, n: nat, rest: seq<byte>)
    requires n == Separator(b) && n > 0 && rest == b[n..]
    ensures PiecesFrom(line, b) == [line] + PiecesFrom([], rest)
  {
    hide Separator;
  }

  lemma PiecesByte(line: seq<byte>, b: seq<byte>, c: byte, rest: seq<byte>)
    requires b == [c] + rest && Separator(b) == 0
    ensures PiecesFrom(line, b) == PiecesFrom(line + [c], rest)
  {
    hide Separator;
    assert b[1..] == rest;
  }

  lemma Regroup<T>(p: seq<T>, q: seq<T>, r: seq<T>)
    ensures p + (q + r) == (p + q) + r
  {
  }

  lemma {:induction false} PiecesFromConcat(line: seq<byte>, a: seq<byte>, b: seq<byte>)
    requires Whole(a) && a != []
    ensures PiecesFrom(line, a + b) == PiecesFrom(line, a) + Pieces(b)
    decreases |a|
  {
    SeparatorOfWhole(a, b);
    var n := Separator(a);
    hide Separator, Whole, PiecesFrom, Pieces;
    if n > 0 {
      var rest := a[n..];
      assert (a + b)[n..] == rest + b;
      PiecesCut(line, a + b, n, rest + b);
      PiecesCut(line, a, n, rest);
      if rest == [] {
        assert rest + b == b;
        NoPieces(b);
      } else {
        PiecesFromConcat([], rest, b);
      }
      Regroup([line], PiecesFrom([], rest), Pieces(b));
    } else {
      var rest := a[1..];
      assert a == [a[0]] + rest;
      Regroup([a[0]], rest, b);
      PiecesByte(line, a + b, a[0], rest + b);
      PiecesByte(line, a, a[0], rest);
      PiecesFromConcat(line + [a[0]], rest, b);
    }
  }

  lemma NoPieces(b: seq<byte>)
    ensures PiecesFrom([], b) == PiecesFrom([], []) + Pieces(b)
  {
  }

  /** Chunks that end in a newline split on their own: no line is lost, doubled or joined at a
      chunk boundary. */
  lemma PiecesConcat(a: seq<byte>, b: seq<byte>)
    requires Whole(a)
    ensures Pieces(a + b) == Pieces(a) + Pieces(b)
  {
    if a == [] {
      assert a + b == b;
    } else {
      PiecesFromConcat([], a, b);
    }
  }

  // ---------------------------------------------------------------- over a run of reads

  /** Successive contents of an append-only file. */
  predicate Growing(files: seq<seq<byte>>) {
    forall i, j :: 0 <= i < j < |files| ==> files[i] <= files[j]
  }

  /** The bytes each read consumes: from the last offset to the last newline. */
  function Chunks(files: seq<seq<byte>>): seq<seq<byte>> {
    if files == [] then []
    else
      var before := Chunks(Front(files));
      var offset := |Flat(before)|;
      before + [if offset <= |Last(files)| then Consumed(Last(files)[offset..]) else []]
  }

  function Flat<T>(parts: seq<seq<T>>): seq<T> {
    if parts == [] then [] else Flat(Front(parts)) + Last(parts)
  }

  function AllPieces(chunks: seq<seq<byte>>): seq<seq<byte>> {
    if chunks == [] then [] else AllPieces(Front(chunks)) + Pieces(Last(chunks))
  }

  lemma NoChunks()
    ensures Pieces([]) == [] && Consumed([]) == []
  {
  }

  /** The chunks read so far are exactly the bytes up to the last newline seen, and the lines
      delivered are exactly the lines of those bytes, each once and in order. */
  lemma {:induction false} EveryLineOnce(files: seq<seq<byte>>)
    requires Growing(files) && files != []
    ensures Flat(Chunks(files)) == Consumed(Last(files))
    ensures AllPieces(Chunks(files)) == Pieces(Consumed(Last(files)))
  {
    NoChunks();
    hide Pieces, Consumed;
    var f, before := Last(files), Chunks(Front(files));
    var done: seq<byte> := [];
    if Front(files) != [] {
      EveryLineOnce(Front(files));
      done := Consumed(Last(Front(files)));
      ConsumedIsPrefix(Last(Front(files)));
      assert Last(Front(files)) <= f;
    }
    assert Flat(before) == done && AllPieces(before) == Pieces(done) && done <= f && Whole(done);
    var chunk := Consumed(f[|done|..]);
    FrontLast(before, chunk);
    assert f == done + f[|done|..];
    ConsumedAfter(done, f[|done|..]);
    PiecesConcat(done, chunk);
  }
}
