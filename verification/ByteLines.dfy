/** Newline-delimited byte files. */
module ByteLines {
  type byte = x: int | 0 <= x < 256

  const NL: byte := 10

  predicate HasNewline(b: seq<byte>) {
    NL in b
  }

  /** A file no append can glue onto: empty, or ending in a newline. */
  predicate Whole(b: seq<byte>) {
    b == [] || b[|b| - 1] == NL
  }

  function Front<T>(s: seq<T>): seq<T>
    requires s != []
  {
    s[..|s| - 1]
  }

  function Last<T>(s: seq<T>): T
    requires s != []
  {
    s[|s| - 1]
  }

  lemma FrontLast<T>(s: seq<T>, x: T)
    ensures Front(s + [x]) == s && Last(s + [x]) == x
  {
  }

  /** `bytes.split(b"\n")`: always at least one piece, the last one unterminated. */
  function Split(b: seq<byte>): (r: seq<seq<byte>>)
    ensures r != []
  {
    if b == [] then [[]]
    else
      var r := Split(Front(b));
      if Last(b) == NL then r + [[]] else Front(r) + [Last(r) + [Last(b)]]
  }

  /** The complete lines of a file. */
  function Complete(b: seq<byte>): seq<seq<byte>> {
    Front(Split(b))
  }

  /** What follows the last newline. */
  function Fragment(b: seq<byte>): seq<byte> {
    Last(Split(b))
  }

  lemma SplitIs(b: seq<byte>)
    ensures Split(b) == Complete(b) + [Fragment(b)]
  {
  }

  /** A newline completes the line in progress. */
  lemma NewlineCompletes(b: seq<byte>)
    ensures Complete(b + [NL]) == Split(b) && Fragment(b + [NL]) == []
  {
    FrontLast(b, NL);
    FrontLast(Split(b), []);
  }

  /** Other bytes only extend the line in progress. */
  lemma {:induction false} TextExtends(b: seq<byte>, x: seq<byte>)
    requires !HasNewline(x)
    ensures Complete(b + x) == Complete(b) && Fragment(b + x) == Fragment(b) + x
  {
    if x == [] {
      assert b + x == b;
    } else {
      TextExtends(b, Front(x));
      assert b + x == (b + Front(x)) + [Last(x)];
      FrontLast(b + Front(x), Last(x));
      FrontLast(Complete(b), Fragment(b) + Front(x) + [Last(x)]);
      assert Fragment(b) + x == Fragment(b) + Front(x) + [Last(x)];
    }
  }

  lemma WholeHasNoFragment(b: seq<byte>)
    requires Whole(b)
    ensures Fragment(b) == []
  {
    if b != [] {
      assert b == Front(b) + [NL];
      NewlineCompletes(Front(b));
    }
  }

  /** Appending a line completes it, glued onto whatever fragment was there. */
  lemma LineAppended(b: seq<byte>, line: seq<byte>)
    requires !HasNewline(line)
    ensures Complete(b + line + [NL]) == Complete(b) + [Fragment(b) + line]
    ensures Fragment(b + line + [NL]) == [] && Whole(b + line + [NL])
  {
    TextExtends(b, line);
    NewlineCompletes(b + line);
    SplitIs(b + line);
  }

  function Joined(pieces: seq<seq<byte>>): seq<byte>
    requires pieces != []
  {
    if |pieces| == 1 then pieces[0] else Joined(Front(pieces)) + [NL] + Last(pieces)
  }

  lemma JoinedStep(r: seq<seq<byte>>, c: byte)
    requires r != []
    ensures Joined(Front(r) + [Last(r) + [c]]) == Joined(r) + [c]
  {
    FrontLast(Front(r), Last(r) + [c]);
  }

  /** Splitting loses nothing and leaves no newline inside a piece. */
  lemma {:induction false} SplitJoins(b: seq<byte>)
    ensures Joined(Split(b)) == b
    ensures forall p :: p in Split(b) ==> !HasNewline(p)
  {
    if b != [] {
      SplitJoins(Front(b));
      var r := Split(Front(b));
      assert b == Front(b) + [Last(b)];
      if Last(b) == NL {
        FrontLast(r, []);
      } else {
        JoinedStep(r, Last(b));
        assert forall p :: p in Front(r) ==> p in r;
        assert Last(r) in r;
      }
    }
  }

  /** One more byte. */
  function Grown(r: seq<seq<byte>>, c: byte): seq<seq<byte>>
    requires r != []
  {
    if c == NL then r + [[]] else Front(r) + [Last(r) + [c]]
  }

  lemma SplitSnoc(b: seq<byte>, c: byte)
    ensures Split(b + [c]) == Grown(Split(b), c)
  {
    FrontLast(b, c);
  }

  lemma GrownAfter(s: seq<seq<byte>>, r: seq<seq<byte>>, c: byte)
    requires r != []
    ensures Grown(s + r, c) == s + Grown(r, c)
  {
    FrontOfConcat(s, r);
  }

  /** A newline separates: what precedes it and what follows split on their own. */
  lemma {:induction false} SplitAt(a: seq<byte>, b: seq<byte>)
    ensures Split(a + [NL] + b) == Split(a) + Split(b)
  {
    if b == [] {
      assert a + [NL] + b == a + [NL];
      SplitSnoc(a, NL);
    } else {
      SplitAt(a, Front(b));
      assert a + [NL] + b == (a + [NL] + Front(b)) + [Last(b)];
      assert b == Front(b) + [Last(b)];
      hide Split, Grown;
      SplitSnoc(a + [NL] + Front(b), Last(b));
      SplitSnoc(Front(b), Last(b));
      GrownAfter(Split(a), Split(Front(b)), Last(b));
    }
  }

  lemma FrontOfConcat<T>(s: seq<T>, t: seq<T>)
    requires t != []
    ensures Front(s + t) == s + Front(t) && Last(s + t) == Last(t)
  {
  }
}
