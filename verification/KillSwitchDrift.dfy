/** Where the incremental basis and the full replay part, and exactly why. */
module KillSwitchDrift {
  import opened Prelude
  import opened ByteLines
  import opened StableSort
  import opened Settlement
  import opened JoinFills
  import opened DeltaNormalizer
  import opened KillSwitchTrail
  import opened KillSwitchTimes

  // ---------------------------------------------------------------- the guard's key

  /** A record consumed before another, the guard letting it, leaves no earlier fill behind. */
  predicate SafeAfter(q: Rec, r: Rec) {
    Passes(KillSwitchTrail.Latest([q]), [r]) ==> NotAfter(Fills([q]), Fills([r]))
  }

  /** A plain fill at a given time. */
  function At(side: Side, price: pos, asof: Stamp, execution: Stamp): Rec {
    Rec(Bucket("paper-default", "equity", "X"), Some(side), Num(1.0), Missing, Missing, Num(price), asof, execution,
        0, 0.0, false, Missing, true)
  }

  /** The guard protects a fill against every well-keyed one, in either order of arrival, iff
      it compares the time the matcher sorts the fill by. */
  lemma GuardSoundIff(r: Rec)
    requires Normalise(r).Some?
    ensures KeysAgree(r) <==> forall q :: KeysAgree(q) ==> SafeAfter(q, r) && SafeAfter(r, q)
  {
    OneFill(r);
    if KeysAgree(r) {
      forall q | KeysAgree(q) ensures SafeAfter(q, r) && SafeAfter(r, q) {
        OneFill(q);
      }
    } else {
      var s := SortKey(r).value;
      var k := if GuardKey(r).None? then s + 1 else GuardKey(r).value;
      var q := At(Buy, 1.0, NoStamp, Stamp(k));
      OneFill(q);
      assert Normalise(q).Some? && KeysAgree(q);
      if GuardKey(r).None? || s < k {
        assert !SafeAfter(q, r);
      } else {
        assert !SafeAfter(r, q);
      }
    }
  }

  function Bought(): Rec { At(Buy, 100.0, NoStamp, Stamp(10)) }

  /** Sorted at 30, but the guard sees 10. */
  function SoldLate(): Rec { At(Sell, 50.0, Stamp(30), Stamp(10)) }

  function SoldEarly(): Rec { At(Sell, 200.0, NoStamp, Stamp(20)) }

  lemma FirstFills()
    ensures Fills([Bought(), SoldLate()]) == [FillOf(Bought()), FillOf(SoldLate())]
    ensures KillSwitchTrail.Latest([Bought(), SoldLate()]) == Some(10)
  {
    TwoFills(Bought(), SoldLate());
  }

  lemma AllFills()
    ensures Fills([Bought(), SoldLate()] + [SoldEarly()]) == [FillOf(Bought()), FillOf(SoldLate()), FillOf(SoldEarly())]
    ensures Fills([SoldEarly()]) == [FillOf(SoldEarly())] && Earliest([SoldEarly()]) == Some(20)
  {
    OneFill(SoldEarly());
    ThreeFills(Bought(), SoldLate(), SoldEarly());
  }

  lemma DriftedReplay()
    ensures Replay("0", [Bought(), SoldLate()] + [SoldEarly()], None) == 1.0
  {
    var a, b, c := FillOf(Bought()), FillOf(SoldLate()), FillOf(SoldEarly());
    Shapes();
    hide Fills, Fold, ByTime, Total, FillOf, TripOf, LotOf, Bought, SoldLate, SoldEarly, Join;
    AllFills();
    ThirdSlips(a, b, c);
    OpenCloseOpen(a, c, b);
    Returns();
    FreshDefersNothing([Bought(), SoldLate()] + [SoldEarly()]);
  }

  lemma FirstReplay()
    ensures Join([Bought(), SoldLate()], []).0 == FLAT
    ensures Replay("0", [Bought(), SoldLate()], None) == -0.5
  {
    var a, b, c := FillOf(Bought()), FillOf(SoldLate()), FillOf(SoldEarly());
    Shapes();
    hide Fills, Fold, ByTime, Total, FillOf, TripOf, LotOf, Bought, SoldLate, SoldEarly, Join;
    FirstFills();
    TwoInOrder(a, b);
    TwoInOrder(c, c);
    OpenCloseOpen(a, b, c);
    Returns();
    FreshDefersNothing([Bought(), SoldLate()]);
  }

  lemma LateBatch(es: Carry)
    requires IsCarryOf(es, FLAT)
    ensures Total(Join([SoldEarly()], es).1, None) == 0.0
  {
    var a, b, c := FillOf(Bought()), FillOf(SoldLate()), FillOf(SoldEarly());
    Shapes();
    hide Fills, Fold, ByTime, FillOf, TripOf, LotOf, Bought, SoldLate, SoldEarly, Join, IsCarryOf;
    AllFills();
    TwoInOrder(a, b);
    TwoInOrder(c, c);
    OpenCloseOpen(a, b, c);
    CarryRoundTrip([SoldEarly()], es, FLAT);
  }

  /** With two times on one record the checkpoint path passes its guard and answers -50% where
      the full replay answers +100%. */
  lemma {:induction false} TwoTimesDrift(es: Carry)
    requires IsCarryOf(es, Join([Bought(), SoldLate()], []).0)
    ensures Passes(KillSwitchTrail.Latest([Bought(), SoldLate()]), [SoldEarly()])
    ensures Replay("0", [Bought(), SoldLate()], None) + Total(Join([SoldEarly()], es).1, None) == -0.5
    ensures Replay("0", [Bought(), SoldLate()] + [SoldEarly()], None) == 1.0
  {
    hide Replay, Join, IsCarryOf, Total;
    FirstReplay();
    DriftedReplay();
    LateBatch(es);
    FirstFills();
    AllFills();
  }

  lemma Shapes()
    ensures var a, b, c := FillOf(Bought()), FillOf(SoldLate()), FillOf(SoldEarly());
            && a.bucket == b.bucket == c.bucket && a.side == Buy && b.side == c.side == Sell
            && a.qty == b.qty == c.qty == 1.0 && a.asof < c.asof < b.asof
            && !a.redrained && !b.redrained && !c.redrained
  {
  }

  lemma Returns()
    ensures var a, b, c := FillOf(Bought()), FillOf(SoldLate()), FillOf(SoldEarly());
            && Total([TripOf(LotOf(a, 1.0), b, 1.0)], None) == -0.5
            && Total([TripOf(LotOf(a, 1.0), c, 1.0)], None) == 1.0
  {
    var a, b, c := FillOf(Bought()), FillOf(SoldLate()), FillOf(SoldEarly());
    OneTotal(TripOf(LotOf(a, 1.0), b, 1.0));
    OneTotal(TripOf(LotOf(a, 1.0), c, 1.0));
  }

  // ---------------------------------------------------------------- the fresh normaliser

  /** An absolute target of the account's fraction. */
  function Target(fraction: real, price: pos, at: int): Rec {
    Rec(Bucket("paper-default", "equity", "X"), None, Missing, Num(fraction), Missing, Num(price), NoStamp, Stamp(at),
        at, 0.0, false, Missing, true)
  }

  lemma DeltasNext(nets: Nets, records: seq<Rec>, r: Rec)
    ensures DeltasFrom(nets, records + [r])
         == DeltasFrom(nets, records) + [r.(fillSize := Num(DeltaFor(AfterAll(nets, records), r)))]
    ensures DeltasFrom(nets, []) == []
  {
    FrontLast(records, r);
  }

  lemma OneDelta(r: Rec)
    ensures Deltas([r]) == [r.(fillSize := Num(DeltaFor(map[], r)))]
  {
    assert Front([r]) == [] && Last([r]) == r;
    assert Sort([r], ExecOrder) == [r];
    assert AfterAll(map[], []) == map[];
    DeltasNext(map[], [], r);
  }

  lemma TwoDeltas(q: Rec, r: Rec)
    requires q.execOrder < r.execOrder
    ensures Deltas([q] + [r]) == [q.(fillSize := Num(DeltaFor(map[], q)))]
                               + [r.(fillSize := Num(DeltaFor(Advanced(map[], q), r)))]
  {
    FrontLast([q], r);
    assert Front([q]) == [] && Last([q]) == q;
    assert Sort([q], ExecOrder) == [q];
    assert Sort([q] + [r], ExecOrder) == [q] + [r];
    OneDelta(q);
    assert AfterAll(map[], [q]) == Advanced(map[], q) by { assert AfterAll(map[], []) == map[]; }
    DeltasNext(map[], [q], r);
  }

  function Close50(): Rec { Target(-0.05, 50.0, 20) }

  function Flattened(): Rec { Target(0.0, 50.0, 20) }

  function Open100(): Rec { Target(0.05, 100.0, 10) }

  lemma ClosingReturn()
    ensures var a, b := FillOf(Open100()), FillOf(Close50());
            && a.bucket == b.bucket && a.side == Buy && b.side == Sell && a.qty == b.qty == 0.05
            && a.asof < b.asof && !a.redrained && !b.redrained
            && Total([TripOf(LotOf(a, a.qty), b, a.qty)], None) == -0.025
  {
    var a, b := FillOf(Open100()), FillOf(Close50());
    var x := Bucket("paper-default", "equity", "X");
    assert a == Fill(x, Buy, 0.05, 100.0, 10, 0.0, None, false);
    assert b == Fill(x, Sell, 0.05, 50.0, 20, 0.0, None, false);
    hide FillOf;
    HalfLost(a, b);
    OneTotal(TripOf(LotOf(a, a.qty), b, a.qty));
  }

  lemma HalfLost(a: Fill, b: Fill)
    requires a == Fill(Bucket("paper-default", "equity", "X"), Buy, 0.05, 100.0, 10, 0.0, None, false)
    requires b == Fill(Bucket("paper-default", "equity", "X"), Sell, 0.05, 50.0, 20, 0.0, None, false)
    ensures Term(TripOf(LotOf(a, a.qty), b, a.qty), None) == -0.025
  {
    var l := LotOf(a, a.qty);
    assert l == Lot(Buy, 0.05, 100.0, 10, 0.0, None);
    var t := TripOf(l, b, 0.05);
    assert t.fees == 0.0;
    assert t.ret == -0.5;
  }

  lemma LongThenFlat()
    ensures Total(Join([Open100()] + [Close50()], []).1, None) == -0.025
    ensures Total(Join([Open100()], []).1, None) == 0.0
  {
    var a, b := FillOf(Open100()), FillOf(Close50());
    OneFill(Open100());
    OneFill(Close50());
    ClosingReturn();
    hide Fills, Fold, ByTime, FillOf, TripOf, LotOf, Join, Open100, Close50, Normalise;
    FillsConcat([Open100()], [Close50()]);
    assert [a] + [b] == [a, b];
    FreshDefersNothing([Open100()] + [Close50()]);
    FreshDefersNothing([Open100()]);
    TwoInOrder(a, b);
    OpenCloseOpen(a, b, a);
  }

  /** Under flag "1" a position opened in one tick and flattened in a later one is never seen
      to close: the fresh normaliser reads the flat target as no trade. A replay books the loss. */
  lemma {:induction false} CloseIsMissed(es: Carry)
    requires IsCarryOf(es, Join(Prepared("1", [Open100()]), []).0)
    ensures var flat := Flattened();
            && Passes(KillSwitchTrail.Latest([Open100()]), [flat]) && Honest([Open100()] + [flat])
            && Replay("1", [Open100()], None) + Total(Join(Prepared("1", [flat]), es).1, None) == 0.0
            && Replay("1", [Open100()] + [flat], None) == -0.025
  {
    var flat := Flattened();
    FlatDeltas();
    FlatPasses();
    LongThenFlat();
    hide Join, Total, Deltas, IsCarryOf, Open100, Close50, Flattened, Passes, Honest;
    FreshDefersNothing([Open100()]);
    NoFillNoTrip(flat, es, Join([Open100()], []).0);
  }

  lemma FlatPasses()
    ensures var flat := Flattened();
            Passes(KillSwitchTrail.Latest([Open100()]), [flat]) && Honest([Open100()] + [flat])
  {
    OneFill(Open100());
    OneFill(Flattened());
    hide Fills;
  }

  lemma NoFillNoTrip(r: Rec, es: Carry, book: Book)
    requires IsCarryOf(es, book) && book.deferred == map[] && Normalise(r).None?
    ensures Total(Join([r], es).1, None) == 0.0
  {
    OneFill(r);
    CarryRoundTrip([r], es, book);
  }

  lemma FlatDeltas()
    ensures var flat := Flattened();
            && Deltas([Open100()]) == [Open100()] && Deltas([flat]) == [flat]
            && Deltas([Open100()] + [flat]) == [Open100()] + [Close50()]
            && Normalise(flat).None?
  {
    var flat := Flattened();
    OneDelta(Open100());
    OneDelta(flat);
    TwoDeltas(Open100(), flat);
    assert DeltaFor(Advanced(map[], Open100()), flat) == -0.05;
    assert DeltaFor(map[], Open100()) == 0.05 && DeltaFor(map[], flat) == 0.0;
  }

  // ---------------------------------------------------------------- the pre-pass order

  /** A target whose execution time is missing, so that it sorts before every other. */
  function Undated(): Rec {
    Target(0.03, 50.0, 0).(asof := Stamp(30), asofExecution := NoStamp)
  }

  /** The delta of the opening target, once the undated one has been read first. */
  function Topped(): Rec { Target(0.02, 100.0, 10) }

  lemma UndatedFirst(a: Rec, b: Rec, c: Rec)
    requires c.execOrder < a.execOrder < b.execOrder
    ensures Sort([a] + [b], ExecOrder) == [a] + [b]
    ensures Sort([a] + [b] + [c], ExecOrder) == [c] + [a] + [b]
  {
    FrontLast([a], b);
    FrontLast([a] + [b], c);
    assert Front([a]) == [] && Last([a]) == a;
    assert Sort([a], ExecOrder) == [a];
    assert Insert([a], b, ExecOrder) == [a] + [b];
    assert Insert([], c, ExecOrder) == [c];
    assert Insert([a], c, ExecOrder) == [c] + [a];
    assert Insert([a] + [b], c, ExecOrder) == [c] + [a] + [b];
  }

  lemma UndatedDeltas()
    ensures Deltas([Undated()]) == [Undated()]
    ensures Deltas([Open100()] + [Flattened()] + [Undated()]) == [Undated()] + [Topped()] + [Close50()]
    ensures RetargetsFlat([Open100()] + [Flattened()], [Undated()])
    ensures !Ordered([Open100()] + [Flattened()], [Undated()])
  {
    var o, f, u := Open100(), Flattened(), Undated();
    UndatedFirst(o, f, u);
    OneDelta(u);
    var x := Advanced(map[], u);
    var y := Advanced(x, o);
    DeltasNext(map[], [], u);
    DeltasNext(map[], [u], o);
    DeltasNext(map[], [u] + [o], f);
    NetsNext([], u);
    NetsNext([u], o);
    NetsNext([], o);
    NetsNext([o], f);
    assert [] + [u] == [u] && [] + [o] == [o] && AfterAll(map[], []) == map[];
    assert NetAfter([o] + [f], u.bucket) == 0.0;
    assert o in [o] + [f] && u in [u] && ExecOrder(u) < ExecOrder(o);
  }

  lemma NetsNext(records: seq<Rec>, r: Rec)
    ensures AfterAll(map[], records + [r]) == Advanced(AfterAll(map[], records), r)
  {
    FrontLast(records, r);
  }

  lemma ToppedTrips(a: Fill, b: Fill, c: Fill)
    requires a.bucket == b.bucket == c.bucket && a.side == c.side == Buy && b.side == Sell
    requires a.qty == 0.02 && b.qty == 0.05 && c.qty == 0.03 && a.asof <= b.asof <= c.asof
    requires !a.redrained && !b.redrained && !c.redrained
    ensures Fold(FLAT, [a, b, c]).1 == [TripOf(LotOf(a, a.qty), b, a.qty), TripOf(LotOf(b, c.qty), c, c.qty)]
  {
    hide TripOf;
    var l, k := LotOf(a, a.qty), LotOf(b, c.qty);
    var t, u := TripOf(l, b, a.qty), TripOf(k, c, c.qty);
    var m, n := Book(map[a.bucket := [l]], map[]), Book(map[a.bucket := [k]], map[]);
    assert [] + [l] == [l] && [l][1..] == [] && [t] + [] == [t];
    assert Settle(FLAT, a) == (m, []);
    assert Close([], b, c.qty) == Closing([], c.qty, [], false);
    assert Close([l], b, b.qty) == Closing([], c.qty, [t], false);
    assert Of(m.open, b.bucket) == [l] && Put(m.open, b.bucket, [k]) == n.open;
    assert Settle(m, b) == (n, [t]);
    CloseWhole(k, c);
    assert Settle(n, c).1 == [u];
    hide Settle, Fold;
    FoldNext(FLAT, [], a);
    FoldNext(FLAT, [a], b);
    FoldNext(FLAT, [a, b], c);
    assert [] + [a] == [a] && [a] + [b] == [a, b] && [a, b] + [c] == [a, b, c];
    assert [] + [t] == [t] && [t] + [u] == [t, u];
  }

  lemma ToppedReturns(a: Fill, b: Fill, c: Fill)
    requires var x := Bucket("paper-default", "equity", "X");
             && a == Fill(x, Buy, 0.02, 100.0, 10, 0.0, None, false)
             && b == Fill(x, Sell, 0.05, 50.0, 20, 0.0, None, false)
             && c == Fill(x, Buy, 0.03, 50.0, 30, 0.0, None, false)
    ensures Total([TripOf(LotOf(a, a.qty), b, a.qty), TripOf(LotOf(b, c.qty), c, c.qty)], None) == -0.01
  {
    hide TripOf, LotOf, Term, Total;
    var t, u := TripOf(LotOf(a, a.qty), b, a.qty), TripOf(LotOf(b, c.qty), c, c.qty);
    PlainTrip(a, b, a.qty);
    PlainTrip(b, c, c.qty);
    OneTotal(t);
    TwoTotal(t, u);
    assert Front([t, u]) == [t] && Last([t, u]) == u;
  }

  lemma PlainTrip(a: Fill, b: Fill, qty: pos)
    requires a.bucket == b.bucket && a.bucket.account == "paper-default" && a.fees == b.fees == 0.0 && a.units == None
    ensures Term(TripOf(LotOf(a, qty), b, qty), None)
         == (if a.side == Buy then (b.price - a.price) / a.price else (a.price - b.price) / a.price) * qty
  {
    var l := LotOf(a, qty);
    assert l.feePerUnit == 0.0;
    assert TripOf(l, b, qty).fees == 0.0;
  }

  lemma ReplayTopped()
    ensures Total(Join([Undated()] + [Topped()] + [Close50()], []).1, None) == -0.01
  {
    var u, o, c := FillOf(Undated()), FillOf(Topped()), FillOf(Close50());
    var x := Bucket("paper-default", "equity", "X");
    assert o == Fill(x, Buy, 0.02, 100.0, 10, 0.0, None, false);
    assert c == Fill(x, Sell, 0.05, 50.0, 20, 0.0, None, false);
    assert u == Fill(x, Buy, 0.03, 50.0, 30, 0.0, None, false);
    assert [Undated()] + [Topped()] == [Undated(), Topped()];
    ThreeFills(Undated(), Topped(), Close50());
    hide Fills, Fold, ByTime, FillOf, TripOf, LotOf, Join, Undated, Topped, Close50, Normalise, Total;
    FreshDefersNothing([Undated()] + [Topped()] + [Close50()]);
    LastSlips(u, o, c);
    ToppedTrips(o, c, u);
    ToppedReturns(o, c, u);
  }

  lemma LastSlips(a: Fill, b: Fill, c: Fill)
    requires b.asof < c.asof < a.asof
    ensures ByTime([a, b, c]) == [b, c, a]
  {
    var key := (f: Fill) => f.asof;
    assert Front([a, b, c]) == [a, b] && Front([a, b]) == [a] && Front([a]) == [];
    assert Insert([], b, key) == [b];
    assert Sort([a, b], key) == [b, a];
    assert Front([b, a]) == [b];
    assert Insert([b], c, key) == [b, c];
    assert Insert([b, a], c, key) == [b, c, a];
  }

  /** Under flag "1" even a flat bucket is not enough: a target without an execution time that
      arrives late is first in the pre-pass order. The guard lets it, and the answers part. */
  lemma {:induction false} UndatedTargetDrift(es: Carry)
    requires IsCarryOf(es, Join(Prepared("1", [Open100()] + [Flattened()]), []).0)
    ensures var (a, b) := ([Open100()] + [Flattened()], [Undated()]);
            && Passes(KillSwitchTrail.Latest(a), b) && Honest(a + b) && RetargetsFlat(a, b) && !Ordered(a, b)
            && Replay("1", a, None) + Total(Join(Prepared("1", b), es).1, None) == -0.025
            && Replay("1", a + b, None) == -0.01
  {
    UndatedPasses();
    UndatedDeltas();
    FlatDeltas();
    LongThenFlat();
    ReplayTopped();
    ClosedFlat();
    hide Join, Total, Deltas, IsCarryOf, Open100, Close50, Target, Passes, Honest, Undated, Topped, RetargetsFlat, Ordered,
      Flattened, Normalise, KillSwitchTrail.Latest;
    OpenerAlone(Undated(), es);
  }

  lemma UndatedPasses()
    ensures var (a, b) := ([Open100()] + [Flattened()], [Undated()]);
            Passes(KillSwitchTrail.Latest(a), b) && Honest(a + b)
    ensures Normalise(Undated()).Some? && Normalise(Undated()).value.qty > DUST
  {
    LatestConcat([Open100()], [Flattened()]);
    OneFill(Open100());
    OneFill(Flattened());
    OneFill(Undated());
    hide Fills, KillSwitchTrail.Latest, Earliest;
  }

  lemma ClosedFlat()
    ensures Join([Open100()] + [Close50()], []).0 == FLAT
  {
    var a, b := FillOf(Open100()), FillOf(Close50());
    ClosingReturn();
    TwoFills(Open100(), Close50());
    assert [Open100()] + [Close50()] == [Open100(), Close50()];
    hide Fills, Fold, ByTime, FillOf, TripOf, LotOf, Join, Open100, Close50, Normalise;
    FreshDefersNothing([Open100()] + [Close50()]);
    TwoInOrder(a, b);
    OpenCloseOpen(a, b, a);
  }

  lemma OpenerAlone(r: Rec, es: Carry)
    requires IsCarryOf(es, FLAT) && Normalise(r).Some? && Normalise(r).value.qty > DUST
    ensures Total(Join([r], es).1, None) == 0.0
  {
    var f := FillOf(r);
    OneFill(r);
    OwnFill(r);
    hide Normalise, Fills, Join, IsCarryOf, Fold, ByTime, Total;
    CarryRoundTrip([r], es, FLAT);
    TwoInOrder(f, f);
    FoldNext(FLAT, [], f);
    assert Settle(FLAT, f).1 == [];
    assert [] + [f] == [f];
    OneTotal(TripOf(LotOf(f, f.qty), f, f.qty));
  }
}
