/** Which records the checkpoint's answer is safe with: those whose two times agree, and no other. */
module KillSwitchTimes {
  import opened Prelude
  import opened ByteLines
  import opened StableSort
  import opened Settlement
  import opened JoinFills
  import opened KillSwitchTrail

  /** The answer in two ticks: the prefix settled first, the batch matched onto what it left. */
  function InTwo(a: seq<Rec>, b: seq<Rec>): real {
    Total(Join(a, []).1, None) + Total(Fold(Join(a, []).0, ByTime(Fills(b))).1, None)
  }

  /** That is what the carried lots give, however the dictionary was listed. */
  lemma {:induction false} InTwoIsCarried(a: seq<Rec>, b: seq<Rec>, es: Carry)
    requires IsCarryOf(es, Join(a, []).0)
    ensures InTwo(a, b) == Total(Join(a, []).1, None) + Total(Join(b, es).1, None)
  {
    FreshDefersNothing(a);
    CarryRoundTrip(b, es, Join(a, []).0);
  }

  /** Where the guard lets the batch pass, the two ticks answer the full replay. */
  predicate Agrees(a: seq<Rec>, b: seq<Rec>) {
    Passes(KillSwitchTrail.Latest(a), b) ==> InTwo(a, b) == Replay("0", a + b, None)
  }

  /** Of the records only `r` may have two times that disagree. */
  predicate HonestBut(records: seq<Rec>, r: Rec) {
    forall x :: x in records ==> x == r || KeysAgree(x)
  }

  /** A plain fill against or beside `r`, in the same bucket and quantity. */
  function Plain(r: Rec, side: Side, price: pos, at: int): Rec
    requires Normalise(r).Some?
  {
    Rec(r.bucket, Some(side), Num(Normalise(r).value.qty), Missing, Missing, Num(price), NoStamp, Stamp(at),
        0, 0.0, false, Missing, true)
  }

  function FillOf(r: Rec): Fill
    requires Normalise(r).Some?
  {
    Normalise(r).value
  }

  function Opposite(side: Side): Side {
    if side == Buy then Sell else Buy
  }

  // ---------------------------------------------------------------- small streams

  lemma OneFill(r: Rec)
    ensures Fills([r]) == match Normalise(r) case None => [] case Some(f) => [f]
    ensures KillSwitchTrail.Latest([r]) == GuardKey(r) && Earliest([r]) == GuardKey(r)
  {
    assert Front([r]) == [] && Last([r]) == r;
  }

  lemma TwoFills(q: Rec, r: Rec)
    requires Normalise(q).Some? && Normalise(r).Some?
    ensures Fills([q, r]) == [FillOf(q), FillOf(r)]
    ensures KillSwitchTrail.Latest([q, r]) == Upper(GuardKey(q), GuardKey(r))
  {
    OneFill(q);
    OneFill(r);
    assert [q, r] == [q] + [r];
    FillsConcat([q], [r]);
    LatestConcat([q], [r]);
    hide Normalise, GuardKey, Fills;
  }

  lemma ThreeFills(p: Rec, q: Rec, r: Rec)
    requires Normalise(p).Some? && Normalise(q).Some? && Normalise(r).Some?
    ensures Fills([p, q] + [r]) == [FillOf(p), FillOf(q), FillOf(r)]
  {
    TwoFills(p, q);
    OneFill(r);
    FillsConcat([p, q], [r]);
    hide Normalise, Fills;
  }

  lemma FoldNext(book: Book, fills: seq<Fill>, f: Fill)
    ensures var (m, t) := Fold(book, fills);
            var (n, u) := Settle(m, f);
            Fold(book, fills + [f]) == (n, t + u)
    ensures Fold(book, []) == (book, [])
  {
    hide Settle;
    FrontLast(fills, f);
  }

  lemma TwoInOrder(a: Fill, b: Fill)
    requires a.asof <= b.asof
    ensures ByTime([a, b]) == [a, b] && ByTime([a]) == [a]
  {
    var key := (f: Fill) => f.asof;
    assert Front([a, b]) == [a] && Front([a]) == [];
    assert Sort([a], key) == [a];
  }

  /** The third goes before the second, or before both. */
  lemma ThirdSlips(a: Fill, b: Fill, c: Fill)
    requires c.asof < b.asof
    ensures a.asof <= c.asof ==> ByTime([a, b, c]) == [a, c, b]
    ensures c.asof < a.asof <= b.asof ==> ByTime([a, b, c]) == [c, a, b]
  {
    var key := (f: Fill) => f.asof;
    if a.asof <= b.asof {
      TwoInOrder(a, b);
      assert Front([a, b, c]) == [a, b] && Last([a, b, c]) == c;
      assert Sort([a, b, c], key) == Insert([a, b], c, key);
      assert Front([a, b]) == [a] && Front([a]) == [];
      assert Insert([a, b], c, key) == Insert([a], c, key) + [b];
      assert Insert([], c, key) == [c];
    }
  }

  /** Open, close it whole, then open again. */
  lemma OpenCloseOpen(a: Fill, b: Fill, c: Fill)
    requires a.bucket == b.bucket == c.bucket && a.side != b.side
    requires a.qty == b.qty == c.qty && a.qty > DUST && a.asof <= b.asof
    requires !a.redrained && !b.redrained && !c.redrained
    ensures var t := TripOf(LotOf(a, a.qty), b, a.qty);
            Fold(FLAT, [a]).1 == [] && Fold(FLAT, [a, b]) == (FLAT, [t]) && Fold(FLAT, [a, b, c]).1 == [t]
    ensures Fold(FLAT, [c]).1 == []
  {
    hide TripOf;
    var l, t := LotOf(a, a.qty), TripOf(LotOf(a, a.qty), b, a.qty);
    var m := Book(map[a.bucket := [l]], map[]);
    assert [] + [l] == [l];
    assert Settle(FLAT, a) == (m, []);
    CloseWhole(l, b);
    assert Settle(m, b) == (FLAT, [t]);
    assert Settle(FLAT, c).1 == [];
    hide Settle, Fold;
    FoldNext(FLAT, [], a);
    FoldNext(FLAT, [a], b);
    FoldNext(FLAT, [a, b], c);
    FoldNext(FLAT, [], c);
    assert [] + [a] == [a] && [a] + [b] == [a, b] && [a, b] + [c] == [a, b, c] && [] + [c] == [c];
    assert [] + [t] == [t] && [t] + [] == [t];
  }

  lemma CloseWhole(l: Lot, f: Fill)
    requires l.qty == f.qty && f.qty > DUST && l.asof <= f.asof
    ensures Close([l], f, f.qty) == Closing([], 0.0, [TripOf(l, f, f.qty)], false)
  {
    hide TripOf;
    var t := TripOf(l, f, f.qty);
    assert [t] + [] == [t] && [l][1..] == [];
    assert Close([], f, 0.0) == Closing([], 0.0, [], false);
  }

  lemma TwoTotal(x: Trip, y: Trip)
    ensures Total([x, y], None) == Total([x], None) + Term(y, None)
  {
    assert Front([x, y]) == [x] && Last([x, y]) == y;
    hide Term;
  }

  lemma OneTotal(x: Trip)
    ensures Total([x], None) == Term(x, None) && Total([], None) == 0.0
  {
    assert Front([x]) == [] && Last([x]) == x;
  }

  // ---------------------------------------------------------------- agreeing times

  lemma HonestAgrees(a: seq<Rec>, b: seq<Rec>)
    requires Honest(a) && Honest(b)
    ensures Agrees(a, b)
  {
    hide Fills, Fold, Total, Passes, KeysAgree;
    if Passes(KillSwitchTrail.Latest(a), b) {
      GuardIsSound("0", a, b);
      FreshDefersNothing(a);
      FreshDefersNothing(a + b);
      FillsConcat(a, b);
      SortConcat(Fills(a), Fills(b), (f: Fill) => f.asof);
      FoldConcat(FLAT, ByTime(Fills(a)), ByTime(Fills(b)));
      TotalConcat(Join(a, []).1, Fold(Join(a, []).0, ByTime(Fills(b))).1, None);
    }
  }

  // ---------------------------------------------------------------- disagreeing times

  /** A closing price that gives the round trip another return than a given one. */
  lemma OtherReturn(x: Fill, v: real) returns (price: pos)
    requires x.fees == 0.0 && x.price == 1.0 && x.bucket.account == "paper-default" && x.units == None
    ensures forall y: Fill :: y.price == price && y.fees == 0.0 && y.bucket == x.bucket ==>
              Term(TripOf(LotOf(x, x.qty), y, x.qty), None) != v
  {
    price := if v == 0.0 then 2.0 else 1.0;
    forall y: Fill | y.price == price && y.fees == 0.0 && y.bucket == x.bucket
      ensures Term(TripOf(LotOf(x, x.qty), y, x.qty), None) != v
    {
      PlainReturn(x, y);
    }
  }

  lemma PlainReturn(x: Fill, y: Fill)
    requires x.fees == 0.0 && y.fees == 0.0 && x.price == 1.0 && x.bucket.account == "paper-default"
    requires y.bucket == x.bucket
    ensures Term(TripOf(LotOf(x, x.qty), y, x.qty), None)
         == (if x.side == Buy then y.price - 1.0 else 1.0 - y.price) * x.qty
  {
    var l := LotOf(x, x.qty);
    assert l.feePerUnit == 0.0;
    var t := TripOf(l, y, x.qty);
    assert t.fees == 0.0;
    assert t.ret == if x.side == Buy then y.price - 1.0 else 1.0 - y.price;
  }

  lemma PlainFill(r: Rec, side: Side, price: pos, at: int)
    requires Normalise(r).Some?
    ensures var x := Plain(r, side, price, at);
            && Normalise(x) == Some(Fill(r.bucket, side, FillOf(r).qty, price, at, 0.0, None, false))
            && GuardKey(x) == Some(at) && KeysAgree(x)
  {
  }

  lemma OwnFill(r: Rec)
    requires Normalise(r).Some?
    ensures FillOf(r).bucket == r.bucket && SortKey(r) == Some(FillOf(r).asof) && !FillOf(r).redrained
  {
  }

  /** The guard reads a later time than the matcher sorts by, or none: the fill slips past. */
  lemma LateSlips(r: Rec) returns (a: seq<Rec>, b: seq<Rec>)
    requires Normalise(r).Some? && r.bucket.account == "paper-default" && FillOf(r).qty > DUST
    requires GuardKey(r).None? || SortKey(r).value < GuardKey(r).value
    ensures HonestBut(a + b, r) && !Agrees(a, b)
  {
    OwnFill(r);
    var f, at := FillOf(r), SortKey(r).value + 1;
    var x := Plain(r, Opposite(f.side), 1.0, at);
    PlainFill(r, Opposite(f.side), 1.0, at);
    assert Opposite(f.side) != f.side;
    hide Normalise, SortKey, GuardKey, Plain, Fills, KillSwitchTrail.Latest, Earliest, ByTime, Term, TripOf, LotOf,
      Replay, InTwo, KeysAgree, Opposite;
    var v := Term(TripOf(LotOf(f, f.qty), FillOf(x), f.qty), None);
    var price := OtherReturn(FillOf(x), v);
    var y := Plain(r, f.side, price, at);
    PlainFill(r, f.side, price, at);
    a, b := [x, y], [r];
    OneFill(r);
    TwoFills(x, y);
    ThreeFills(x, y, r);
    ThirdSlips(FillOf(x), FillOf(y), f);
    Drifted(a, b, FillOf(x), FillOf(y), f, f, FillOf(x), FillOf(y));
  }

  /** The guard reads an earlier time than the matcher sorts by: a later fill slips before it. */
  lemma EarlySlips(r: Rec) returns (a: seq<Rec>, b: seq<Rec>)
    requires Normalise(r).Some? && r.bucket.account == "paper-default" && FillOf(r).qty > DUST
    requires GuardKey(r).Some? && GuardKey(r).value < SortKey(r).value
    ensures HonestBut(a + b, r) && !Agrees(a, b)
  {
    OwnFill(r);
    var f, at := FillOf(r), GuardKey(r).value;
    var x := Plain(r, Opposite(f.side), 1.0, at);
    PlainFill(r, Opposite(f.side), 1.0, at);
    assert Opposite(f.side) != f.side;
    hide Normalise, SortKey, GuardKey, Plain, Fills, KillSwitchTrail.Latest, Earliest, ByTime, Term, TripOf, LotOf,
      Replay, InTwo, KeysAgree, Opposite;
    var v := Term(TripOf(LotOf(FillOf(x), f.qty), f, f.qty), None);
    var price := OtherReturn(FillOf(x), v);
    var y := Plain(r, f.side, price, at);
    PlainFill(r, f.side, price, at);
    a, b := [x, r], [y];
    OneFill(y);
    TwoFills(x, r);
    ThreeFills(x, r, y);
    ThirdSlips(FillOf(x), f, FillOf(y));
    Drifted(a, b, FillOf(x), f, FillOf(y), FillOf(x), FillOf(y), f);
  }

  /** A bus whose prefix closes one round trip and whose replay closes another. */
  lemma Drifted(a: seq<Rec>, b: seq<Rec>, f: Fill, g: Fill, h: Fill, k: Fill, l: Fill, m: Fill)
    requires Fills(a) == [f, g] && Fills(b) == [h] && Fills(a + b) == [f, g, h]
    requires f.asof <= g.asof && ByTime([f, g, h]) == [k, l, m]
    requires f.bucket == g.bucket == h.bucket == k.bucket == l.bucket == m.bucket
    requires f.side != g.side && k.side != l.side && k.asof <= l.asof
    requires f.qty == g.qty == h.qty == k.qty == l.qty == m.qty && f.qty > DUST
    requires !f.redrained && !g.redrained && !h.redrained && !k.redrained && !l.redrained && !m.redrained
    requires Term(TripOf(LotOf(f, f.qty), g, f.qty), None) != Term(TripOf(LotOf(k, k.qty), l, k.qty), None)
    ensures InTwo(a, b) != Replay("0", a + b, None)
  {
    hide Fills, Fold, ByTime, Total, Term, TripOf, LotOf, Join;
    FreshDefersNothing(a);
    FreshDefersNothing(a + b);
    TwoInOrder(f, g);
    TwoInOrder(h, h);
    OpenCloseOpen(f, g, h);
    OpenCloseOpen(k, l, m);
    OneTotal(TripOf(LotOf(f, f.qty), g, f.qty));
    OneTotal(TripOf(LotOf(k, k.qty), l, k.qty));
  }

  /** A fill of the account is safe with every well-timed bus, in either batch, iff the guard
      compares the time the matcher sorts it by. */
  lemma AnswerSafeIff(r: Rec)
    requires Normalise(r).Some? && r.bucket.account == "paper-default" && FillOf(r).qty > DUST
    ensures KeysAgree(r) <==> forall a, b :: HonestBut(a + b, r) ==> Agrees(a, b)
  {
    hide Agrees;
    if KeysAgree(r) {
      forall a, b | HonestBut(a + b, r) ensures Agrees(a, b) {
        assert forall x :: x in a ==> x in a + b;
        assert forall x :: x in b ==> x in a + b;
        HonestAgrees(a, b);
      }
    } else {
      var a, b: seq<Rec>;
      if GuardKey(r).None? || SortKey(r).value < GuardKey(r).value {
        a, b := LateSlips(r);
      } else {
        a, b := EarlySlips(r);
      }
      assert HonestBut(a + b, r) && !Agrees(a, b);
    }
  }
}
