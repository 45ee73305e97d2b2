/** The symbol-keyed book the concurrent cap reads from the executions bus. */
module OpenBook {
  import opened Prelude
  import opened ByteLines

  /** One execution record, as the book's fold reads it. `at` ranks the text of the execution
      time; a record without a symbol or a time has none. */
  datatype Line = Line(asset: Option<string>, target: Field, at: Option<int>, price: Field, size: Field, noFill: bool)

  /** The record says something: it is complete, numeric, and no refusal to fill. */
  predicate Counts(l: Line) {
    l.asset.Some? && l.target.Num? && l.at.Some? && !l.noFill && !(l.price == Num(0.0) && l.size == Num(0.0))
  }

  /** The latest target of each symbol, with its time. */
  datatype Held = Held(at: int, target: real)

  type Targets = map<string, Held>

  predicate Takes(m: Targets, l: Line) {
    Counts(l) && (l.asset.value in m ==> l.at.value >= m[l.asset.value].at)
  }

  function Taken(m: Targets, l: Line): Targets {
    if Takes(m, l) then m[l.asset.value := Held(l.at.value, l.target.v)] else m
  }

  function TargetsOf(lines: seq<Line>): Targets {
    if lines == [] then map[] else Taken(TargetsOf(Front(lines)), Last(lines))
  }

  /** A target of zero is no position. */
  function Shown(lines: seq<Line>): set<string> {
    var m := TargetsOf(lines);
    set a | a in m && m[a].target != 0.0
  }

  /** `reconstruct_portfolio_state`. */
  method Reconstruct(lines: seq<Line>) returns (positions: map<string, real>)
    ensures positions.Keys == Shown(lines)
    ensures forall a :: a in positions ==> positions[a] == TargetsOf(lines)[a].target
  {
    var m: Targets := map[];
    for i := 0 to |lines|
      invariant m == TargetsOf(lines[..i])
    {
      assert Front(lines[..i + 1]) == lines[..i];
      var l := lines[i];
      if l.asset.None? || !l.target.Num? || l.at.None? {
        continue;
      }
      if l.noFill || (l.price == Num(0.0) && l.size == Num(0.0)) {
        continue;
      }
      if l.asset.value !in m || l.at.value >= m[l.asset.value].at {
        m := m[l.asset.value := Held(l.at.value, l.target.v)];
      }
    }
    assert lines[..|lines|] == lines;
    positions := map a | a in m && m[a].target != 0.0 :: m[a].target;
  }

  /** Record `k` has the last word on a symbol: none that counts is later, or as late and after it. */
  predicate Decides(lines: seq<Line>, k: int, a: string) {
    && 0 <= k < |lines| && Counts(lines[k]) && lines[k].asset == Some(a)
    && forall j :: 0 <= j < |lines| && Counts(lines[j]) && lines[j].asset == Some(a) ==>
         lines[j].at.value < lines[k].at.value || (lines[j].at == lines[k].at && j <= k)
  }

  lemma DecidesNext(lines: seq<Line>, l: Line, k: int, a: string)
    requires Decides(lines, k, a)
    ensures !Counts(l) || l.asset != Some(a) || l.at.value < lines[k].at.value ==> Decides(lines + [l], k, a)
    ensures Counts(l) && l.asset == Some(a) && l.at.value >= lines[k].at.value ==> Decides(lines + [l], |lines|, a)
  {
    assert forall j :: 0 <= j < |lines| ==> (lines + [l])[j] == lines[j];
    assert (lines + [l])[|lines|] == l;
    hide Counts;
  }

  lemma FirstDecides(lines: seq<Line>, l: Line)
    requires Counts(l) && forall j :: 0 <= j < |lines| && Counts(lines[j]) ==> lines[j].asset != l.asset
    ensures Decides(lines + [l], |lines|, l.asset.value)
  {
    assert forall j :: 0 <= j < |lines| ==> (lines + [l])[j] == lines[j];
    assert (lines + [l])[|lines|] == l;
    hide Counts;
  }

  /** The fold keeps the deciding record of every symbol that any record counts for. */
  lemma {:induction false} TargetsAreDecided(lines: seq<Line>, a: string) returns (k: int)
    ensures a !in TargetsOf(lines) ==> forall j :: 0 <= j < |lines| && Counts(lines[j]) ==> lines[j].asset != Some(a)
    ensures a in TargetsOf(lines) ==>
              Decides(lines, k, a) && TargetsOf(lines)[a] == Held(lines[k].at.value, lines[k].target.v)
  {
    k := 0;
    if lines != [] {
      var f, l := Front(lines), Last(lines);
      assert lines == f + [l];
      k := TargetsAreDecided(f, a);
      hide Decides;
      if a in TargetsOf(f) {
        DecidesAt(f, k, a);
        DecidesNext(f, l, k, a);
        if Counts(l) && l.asset == Some(a) && l.at.value >= f[k].at.value { k := |f|; }
      } else if Counts(l) && l.asset == Some(a) {
        FirstDecides(f, l);
        k := |f|;
      }
    }
  }

  lemma DecidesAt(lines: seq<Line>, k: int, a: string)
    requires Decides(lines, k, a)
    ensures 0 <= k < |lines| && Counts(lines[k]) && lines[k].asset == Some(a)
  {
  }

  // ---------------------------------------------------------------- what one record does

  lemma ShownNext(lines: seq<Line>, l: Line)
    ensures !Takes(TargetsOf(lines), l) ==> Shown(lines + [l]) == Shown(lines)
    ensures Takes(TargetsOf(lines), l) ==>
              Shown(lines + [l]) == (if l.target.v == 0.0 then Shown(lines) - {l.asset.value} else Shown(lines) + {l.asset.value})
  {
    FrontLast(lines, l);
    assert TargetsOf(lines + [l]) == Taken(TargetsOf(lines), l);
  }

  /** No record of the bus is later. */
  predicate UpToDate(lines: seq<Line>, at: int) {
    forall j :: 0 <= j < |lines| && lines[j].at.Some? ==> lines[j].at.value <= at
  }

  lemma NowTakes(lines: seq<Line>, l: Line)
    requires Counts(l) && UpToDate(lines, l.at.value)
    ensures Takes(TargetsOf(lines), l)
  {
    if l.asset.value in TargetsOf(lines) {
      var k := TargetsAreDecided(lines, l.asset.value);
    }
  }

  /** A fill of a non-zero target shows its symbol, one of a zero target hides it. */
  lemma FillShows(lines: seq<Line>, l: Line)
    requires Counts(l) && UpToDate(lines, l.at.value)
    ensures Shown(lines + [l]) == (if l.target.v == 0.0 then Shown(lines) - {l.asset.value} else Shown(lines) + {l.asset.value})
  {
    NowTakes(lines, l);
    ShownNext(lines, l);
  }

  /** A refusal to fill, by its flag or by a zero price with a zero size, and an incomplete or
      unreadable record leave the book alone; so does a record older than the one that holds the
      symbol. */
  lemma NoFillShowsNothing(lines: seq<Line>, l: Line)
    requires l.noFill || (l.price == Num(0.0) && l.size == Num(0.0)) || l.asset.None? || l.at.None? || !l.target.Num?
             || exists k :: 0 <= k < |lines| && Decides(lines, k, l.asset.value) && l.at.value < lines[k].at.value
    ensures Shown(lines + [l]) == Shown(lines)
  {
    ShownNext(lines, l);
    if l.asset.Some? && l.at.Some? {
      var j := TargetsAreDecided(lines, l.asset.value);
      if k :| 0 <= k < |lines| && Decides(lines, k, l.asset.value) && l.at.value < lines[k].at.value {
        assert Counts(lines[k]) && lines[k].asset == l.asset;
      }
    }
    hide Shown, TargetsOf;
  }

  /** A complete record of a fill, no older than any other, shows its symbol unless its target is
      zero, and then hides it. */
  lemma LatestFillDecides(lines: seq<Line>, asset: string, target: real, at: int, price: Field, size: Field)
    requires UpToDate(lines, at) && !(price == Num(0.0) && size == Num(0.0))
    ensures var l := Line(Some(asset), Num(target), Some(at), price, size, false);
            (asset in Shown(lines + [l]) <==> target != 0.0)
            && forall other :: other != asset ==> (other in Shown(lines + [l]) <==> other in Shown(lines))
  {
    FillShows(lines, Line(Some(asset), Num(target), Some(at), price, size, false));
    hide Shown;
  }

  // ---------------------------------------------------------------- an options family

  /** One fired leg. */
  datatype LegFill = LegFill(symbol: string, bought: bool, price: real)

  /** What the multi-leg reactor writes for one structure: a parent under the underlying, its legs,
      and its share leg, all with the size the caller passed for a target. */
  datatype Family = Family(underlying: string, net: real, legs: seq<LegFill>, shares: Option<real>, at: int, size: real)

  function LegLine(f: Family, l: LegFill): Line {
    Line(Some(l.symbol), Num(if l.bought then Abs(f.size) else -Abs(f.size)), Some(f.at), Num(l.price),
         Num(if l.bought then Abs(f.size) else -Abs(f.size)), false)
  }

  function LegLines(f: Family, legs: seq<LegFill>): seq<Line> {
    if legs == [] then [] else LegLines(f, Front(legs)) + [LegLine(f, Last(legs))]
  }

  function OwnLine(f: Family, price: real): Line {
    Line(Some(f.underlying), Num(f.size), Some(f.at), Num(price), Num(f.size), false)
  }

  function FamilyLines(f: Family): seq<Line> {
    [OwnLine(f, f.net)] + LegLines(f, f.legs) + (if f.shares.Some? then [OwnLine(f, f.shares.value)] else [])
  }

  /** The symbols whose records count. */
  function Names(lines: seq<Line>): set<string> {
    set l | l in lines && Counts(l) :: l.asset.value
  }

  predicate AllZero(lines: seq<Line>, at: int) {
    forall l :: l in lines ==> l.target == Num(0.0) && l.at == Some(at)
  }

  lemma {:induction false} LegLinesZero(f: Family, legs: seq<LegFill>)
    requires f.size == 0.0
    ensures AllZero(LegLines(f, legs), f.at)
  {
    if legs != [] {
      LegLinesZero(f, Front(legs));
    }
  }

  lemma NamesNext(lines: seq<Line>, l: Line)
    ensures Names(lines + [l]) == Names(lines) + (if Counts(l) then {l.asset.value} else {})
  {
    hide Counts;
    assert forall x :: x in lines + [l] <==> x in lines || x == l;
  }

  /** Records of a zero target hide what they name and show nothing, even if they come late. */
  lemma {:induction false} ZerosHide(lines: seq<Line>, more: seq<Line>, at: int)
    requires AllZero(more, at)
    ensures Shown(lines + more) <= Shown(lines)
    ensures UpToDate(lines, at) ==> UpToDate(lines + more, at) && Shown(lines + more) == Shown(lines) - Names(more)
  {
    if more == [] {
      assert lines + more == lines;
    } else {
      var f, l := Front(more), Last(more);
      assert more == f + [l] && lines + more == (lines + f) + [l];
      assert l in more && forall x :: x in f ==> x in more;
      ZerosHide(lines, f, at);
      NamesNext(f, l);
      hide Shown, Names, Counts;
      ShownNext(lines + f, l);
      if UpToDate(lines, at) {
        if Counts(l) { NowTakes(lines + f, l); } else { assert !Takes(TargetsOf(lines + f), l); }
      }
    }
  }

  /** A family sized zero, which is what the tick asks for, adds nothing to the book: it hides the
      underlying, if the net or the share price is not zero, and its own contracts. */
  lemma {:induction false} FamilyOnlyHides(lines: seq<Line>, f: Family)
    requires f.size == 0.0
    ensures Shown(lines + FamilyLines(f)) <= Shown(lines)
    ensures UpToDate(lines, f.at) ==> Shown(lines + FamilyLines(f)) == Shown(lines) - Names(FamilyLines(f))
    ensures f.underlying in Names(FamilyLines(f)) <== f.net != 0.0 || (f.shares.Some? && f.shares.value != 0.0)
  {
    LegLinesZero(f, f.legs);
    assert AllZero(FamilyLines(f), f.at);
    ZerosHide(lines, FamilyLines(f), f.at);
    hide Shown, LegLines;
    if f.net != 0.0 {
      assert OwnLine(f, f.net) in FamilyLines(f);
    }
    if f.shares.Some? && f.shares.value != 0.0 {
      assert OwnLine(f, f.shares.value) in FamilyLines(f);
    }
  }
}
