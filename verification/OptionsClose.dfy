/** Marking, judging and closing open options composites. */
module OptionsClose {
  import opened Prelude
  import opened ByteLines
  import opened StableSort

  /** A stored leg. An empty symbol stands for a missing one. */
  datatype Leg = Leg(symbol: string, side: string, intent: string)

  /** The mark of a symbol, if the chain has a finite one. */
  type Marks = string -> Option<real>

  predicate Markable(l: Leg, marks: Marks) {
    l.symbol != "" && marks(l.symbol).Some?
  }

  // ---------------------------------------------------------------- what closing costs

  /** Closing reverses the open side: a sold leg is bought back, any other is sold. */
  function ClosingDebit(side: string, m: real): real {
    if side == "sell" then m else -m
  }

  /** The net debit per share to close; nothing at all if one leg cannot be marked. */
  function CloseCost(legs: seq<Leg>, marks: Marks): Option<real> {
    if legs == [] then Some(0.0)
    else
      var rest, l := CloseCost(Front(legs), marks), Last(legs);
      if rest.None? || !Markable(l, marks) then None else Some(rest.value + ClosingDebit(l.side, marks(l.symbol).value))
  }

  function NetCloseCost(legs: seq<Leg>, marks: Option<Marks>): Option<real> {
    if marks.None? || legs == [] then None else CloseCost(legs, marks.value)
  }

  method NetCloseCostLoop(legs: seq<Leg>, marks: Option<Marks>) returns (cost: Option<real>)
    ensures cost == NetCloseCost(legs, marks)
  {
    if marks.None? || legs == [] {
      return None;
    }
    var total := 0.0;
    for i := 0 to |legs|
      invariant CloseCost(legs[..i], marks.value) == Some(total)
    {
      assert Front(legs[..i + 1]) == legs[..i];
      var l := legs[i];
      if l.symbol == "" || marks.value(l.symbol).None? {
        UnmarkableSinks(legs, i, marks.value);
        return None;
      }
      total := total + ClosingDebit(l.side, marks.value(l.symbol).value);
    }
    assert legs[..|legs|] == legs;
    cost := Some(total);
  }

  lemma {:induction false} UnmarkableSinks(legs: seq<Leg>, i: nat, marks: Marks)
    requires i < |legs| && !Markable(legs[i], marks)
    ensures CloseCost(legs, marks) == None
  {
    if i < |legs| - 1 {
      UnmarkableSinks(Front(legs), i, marks);
    }
  }

  lemma {:induction false} CostIfMarkable(legs: seq<Leg>, marks: Marks)
    ensures CloseCost(legs, marks).Some? <==> forall l :: l in legs ==> Markable(l, marks)
  {
    if legs != [] {
      CostIfMarkable(Front(legs), marks);
      assert legs == Front(legs) + [Last(legs)];
    }
  }

  /** Taking one leg out, wherever it stands, takes out its signed mark. */
  lemma {:induction false} CostWithout(legs: seq<Leg>, i: nat, marks: Marks)
    requires i < |legs|
    ensures CloseCost(legs, marks)
         == (var rest := CloseCost(legs[..i] + legs[i + 1..], marks);
             if rest.None? || !Markable(legs[i], marks) then None
             else Some(rest.value + ClosingDebit(legs[i].side, marks(legs[i].symbol).value)))
  {
    if i == |legs| - 1 {
      assert legs[..i] + legs[i + 1..] == Front(legs);
    } else {
      CostWithout(Front(legs), i, marks);
      var f := Front(legs);
      var w := legs[..i] + legs[i + 1..];
      assert Front(w) == f[..i] + f[i + 1..] && Last(w) == Last(legs);
    }
  }

  lemma MultisetWithout(b: seq<Leg>, i: nat)
    requires i < |b|
    ensures multiset(b) == multiset(b[..i] + b[i + 1..]) + multiset{b[i]}
  {
    assert b == b[..i] + [b[i]] + b[i + 1..];
  }

  lemma Cancel(x: multiset<Leg>, y: multiset<Leg>, l: Leg)
    requires x + multiset{l} == y + multiset{l}
    ensures x == y
  {
    assert x == (x + multiset{l}) - multiset{l};
    assert y == (y + multiset{l}) - multiset{l};
  }

  /** The order of the legs does not matter, not even to whether they can be marked. */
  lemma {:induction false} CostIgnoresOrder(a: seq<Leg>, b: seq<Leg>, marks: Marks)
    requires multiset(a) == multiset(b)
    ensures CloseCost(a, marks) == CloseCost(b, marks)
  {
    if a == [] {
      assert |multiset(b)| == 0;
    } else {
      var l := Last(a);
      assert a == Front(a) + [l];
      assert l in multiset(b);
      var i :| 0 <= i < |b| && b[i] == l;
      assert multiset(a) == multiset(Front(a)) + multiset{l};
      MultisetWithout(b, i);
      Cancel(multiset(Front(a)), multiset(b[..i] + b[i + 1..]), l);
      CostIgnoresOrder(Front(a), b[..i] + b[i + 1..], marks);
      CostWithout(b, i, marks);
    }
  }

  function ShortRank(l: Leg): int {
    if l.side == "sell" then 0 else 1
  }

  function ShortFirst(legs: seq<Leg>): seq<Leg> {
    Sort(legs, ShortRank)
  }

  lemma {:induction false} InsertMultiset(t: seq<Leg>, x: Leg)
    ensures multiset(Insert(t, x, ShortRank)) == multiset(t) + multiset{x}
  {
    if t != [] && ShortRank(Last(t)) > ShortRank(x) {
      InsertMultiset(Front(t), x);
      assert t == Front(t) + [Last(t)];
    }
  }

  lemma {:induction false} SortMultiset(s: seq<Leg>)
    ensures multiset(ShortFirst(s)) == multiset(s)
  {
    if s != [] {
      SortMultiset(Front(s));
      InsertMultiset(ShortFirst(Front(s)), Last(s));
      assert s == Front(s) + [Last(s)];
    }
  }

  /** Short legs come first, each kind in stored order, and the cost is what the stored order gives. */
  lemma ShortFirstKeepsCost(legs: seq<Leg>, marks: Option<Marks>)
    ensures NetCloseCost(ShortFirst(legs), marks) == NetCloseCost(legs, marks)
    ensures IsStableSort(ShortFirst(legs), legs, ShortRank)
    ensures forall i, j :: 0 <= i < j < |legs| && ShortFirst(legs)[j].side == "sell" ==> ShortFirst(legs)[i].side == "sell"
  {
    SortIsStable(legs, ShortRank);
    SortMultiset(legs);
    if marks.Some? { CostIgnoresOrder(ShortFirst(legs), legs, marks.value); }
    forall i, j | 0 <= i < j < |legs| && ShortFirst(legs)[j].side == "sell" ensures ShortFirst(legs)[i].side == "sell" {
      assert ShortRank(ShortFirst(legs)[i]) <= ShortRank(ShortFirst(legs)[j]);
    }
  }

  // ---------------------------------------------------------------- the order that is built

  /** The side a leg is closed on: by its open intent, else by its side. */
  function ClosingSide(l: Leg): Option<string> {
    if l.intent == "sell_to_open" || l.intent == "buy_to_close" then Some("buy")
    else if l.intent == "buy_to_open" || l.intent == "sell_to_close" then Some("sell")
    else if l.side == "sell" then Some("buy")
    else if l.side == "buy" then Some("sell")
    else None
  }

  function ClosingLeg(l: Leg): Option<Leg> {
    var side := ClosingSide(l);
    if l.symbol == "" || side.None? then None
    else Some(Leg(l.symbol, side.value, if side.value == "buy" then "buy_to_close" else "sell_to_close"))
  }

  function ClosingLegs(legs: seq<Leg>): Option<seq<Leg>> {
    if legs == [] then Some([])
    else
      var rest, l := ClosingLegs(Front(legs)), ClosingLeg(Last(legs));
      if rest.None? || l.None? then None else Some(rest.value + [l.value])
  }

  /** A leg is closed on its own contract, on the side against its open intent, or against its side
      where it has none, and always to close; a leg without a symbol, or without either, is not. */
  lemma ClosingLegTells(l: Leg)
    ensures ClosingLeg(l).Some? ==>
              var c := ClosingLeg(l).value;
              && c.symbol == l.symbol && l.symbol != ""
              && ((c.side == "buy" && c.intent == "buy_to_close") || (c.side == "sell" && c.intent == "sell_to_close"))
              && (l.intent == "sell_to_open" ==> c.side == "buy") && (l.intent == "buy_to_open" ==> c.side == "sell")
    ensures l.intent == "" && l.symbol != "" ==>
              (ClosingLeg(l).None? <==> l.side != "buy" && l.side != "sell")
              && (l.side == "sell" ==> ClosingLeg(l).value.side == "buy")
              && (l.side == "buy" ==> ClosingLeg(l).value.side == "sell")
  {
  }

  /** What the order costs at given marks: bought legs are paid for, sold legs pay. */
  function OrderDebit(order: seq<Leg>, marks: Marks): real {
    if order == [] then 0.0
    else
      var l := Last(order);
      var m := if marks(l.symbol).Some? then marks(l.symbol).value else 0.0;
      OrderDebit(Front(order), marks) + (if l.side == "buy" then m else -m)
  }

  /** The sweep and the order agree which way the leg is closed. */
  predicate SideFitsIntent(l: Leg) {
    ClosingSide(l) == Some(if l.side == "sell" then "buy" else "sell")
  }

  predicate AllFit(legs: seq<Leg>) {
    forall l :: l in legs ==> SideFitsIntent(l)
  }

  predicate Distinct(legs: seq<Leg>) {
    forall i, j :: 0 <= i < j < |legs| ==> legs[i].symbol != legs[j].symbol
  }

  lemma {:induction false} OrderCostsWhatWasSwept(legs: seq<Leg>, marks: Marks)
    requires AllFit(legs) && CloseCost(legs, marks).Some?
    ensures ClosingLegs(legs).Some? && OrderDebit(ClosingLegs(legs).value, marks) == CloseCost(legs, marks).value
    ensures |ClosingLegs(legs).value| == |legs|
  {
    if legs != [] {
      assert Last(legs) in legs;
      assert forall l :: l in Front(legs) ==> l in legs;
      OrderCostsWhatWasSwept(Front(legs), marks);
      FrontLast(ClosingLegs(Front(legs)).value, ClosingLeg(Last(legs)).value);
    }
  }

  /** A mark of one dollar on one symbol and nothing on the others. */
  function OnlyMark(symbol: string): Marks {
    s => Some(if s == symbol then 1.0 else 0.0)
  }

  lemma {:induction false} CostOfOne(legs: seq<Leg>, i: nat)
    requires i < |legs| && Distinct(legs) && forall l :: l in legs ==> l.symbol != ""
    ensures CloseCost(legs, OnlyMark(legs[i].symbol)) == Some(ClosingDebit(legs[i].side, 1.0))
  {
    var marks := OnlyMark(legs[i].symbol);
    var f := Front(legs);
    assert forall l :: l in f ==> l in legs;
    assert Last(legs) in legs;
    if i == |legs| - 1 {
      CostOfNone(f, legs[i].symbol);
    } else {
      CostOfOne(f, i);
      assert legs[i].symbol != Last(legs).symbol;
    }
  }

  lemma {:induction false} CostOfNone(legs: seq<Leg>, symbol: string)
    requires forall l :: l in legs ==> l.symbol != "" && l.symbol != symbol
    ensures CloseCost(legs, OnlyMark(symbol)) == Some(0.0)
  {
    if legs != [] {
      assert forall l :: l in Front(legs) ==> l in legs;
      assert Last(legs) in legs;
      CostOfNone(Front(legs), symbol);
    }
  }

  lemma {:induction false} DebitOfOne(legs: seq<Leg>, i: nat)
    requires i < |legs| && Distinct(legs) && ClosingLegs(legs).Some?
    ensures OrderDebit(ClosingLegs(legs).value, OnlyMark(legs[i].symbol))
         == if ClosingSide(legs[i]) == Some("buy") then 1.0 else -1.0
  {
    var f := Front(legs);
    FrontLast(ClosingLegs(f).value, ClosingLeg(Last(legs)).value);
    if i == |legs| - 1 {
      assert forall l :: l in f ==> l.symbol != legs[i].symbol;
      DebitOfNone(f, legs[i].symbol);
    } else {
      DebitOfOne(f, i);
      assert legs[i].symbol != Last(legs).symbol;
    }
  }

  lemma {:induction false} DebitOfNone(legs: seq<Leg>, symbol: string)
    requires ClosingLegs(legs).Some? && forall l :: l in legs ==> l.symbol != symbol
    ensures OrderDebit(ClosingLegs(legs).value, OnlyMark(symbol)) == 0.0
  {
    if legs != [] {
      var f := Front(legs);
      assert forall l :: l in f ==> l in legs;
      assert Last(legs) in legs;
      DebitOfNone(f, symbol);
      FrontLast(ClosingLegs(f).value, ClosingLeg(Last(legs)).value);
    }
  }

  /** The swept cost is the built order's debit at every set of marks. */
  ghost predicate CostIsDebit(legs: seq<Leg>) {
    && ClosingLegs(legs).Some?
    && forall marks: Marks :: CloseCost(legs, marks).Some? ==>
         OrderDebit(ClosingLegs(legs).value, marks) == CloseCost(legs, marks).value
  }

  /** For legs on distinct contracts, that holds iff every leg's side matches its intent. */
  lemma CostIsDebitIff(legs: seq<Leg>)
    requires Distinct(legs) && forall l :: l in legs ==> l.symbol != ""
    ensures CostIsDebit(legs) <==> AllFit(legs)
  {
    if AllFit(legs) {
      OrderExists(legs);
      forall marks: Marks | CloseCost(legs, marks).Some?
        ensures OrderDebit(ClosingLegs(legs).value, marks) == CloseCost(legs, marks).value
      {
        OrderCostsWhatWasSwept(legs, marks);
      }
    }
    if CostIsDebit(legs) {
      forall l | l in legs ensures SideFitsIntent(l) {
        var i :| 0 <= i < |legs| && legs[i] == l;
        CostOfOne(legs, i);
        DebitOfOne(legs, i);
        SidesOfOrder(legs, i);
      }
    }
  }

  lemma {:induction false} OrderExists(legs: seq<Leg>)
    requires AllFit(legs) && forall l :: l in legs ==> l.symbol != ""
    ensures ClosingLegs(legs).Some?
  {
    if legs != [] {
      assert Last(legs) in legs;
      assert forall l :: l in Front(legs) ==> l in legs;
      OrderExists(Front(legs));
    }
  }

  lemma {:induction false} SidesOfOrder(legs: seq<Leg>, i: nat)
    requires i < |legs| && ClosingLegs(legs).Some?
    ensures ClosingSide(legs[i]) == Some("buy") || ClosingSide(legs[i]) == Some("sell")
  {
    if i < |legs| - 1 {
      SidesOfOrder(Front(legs), i);
    }
  }

  // ---------------------------------------------------------------- loss and gain

  function Positive(x: real): real {
    if x > 0.0 then x else 0.0
  }

  /** The loss as a fraction of the credit received or the debit paid. */
  function LossPct(entry: real, cost: real): Option<real> {
    if entry < 0.0 then Some(Positive(-(-entry - cost) / -entry))
    else if entry > 0.0 then Some(Positive(-(-cost - entry) / entry))
    else None
  }

  /** The fraction of the credit captured; a debit structure has no bounded gain here. */
  function GainPct(entry: real, cost: real): Option<real> {
    if entry < 0.0 then Some(Positive((-entry - cost) / -entry)) else None
  }

  /** What opening the legs cost at given marks. */
  function OpenDebit(legs: seq<Leg>, marks: Marks): real {
    if legs == [] then 0.0
    else
      var l := Last(legs);
      var m := if marks(l.symbol).Some? then marks(l.symbol).value else 0.0;
      OpenDebit(Front(legs), marks) - ClosingDebit(l.side, m)
  }

  lemma {:induction false} CloseUndoesOpen(legs: seq<Leg>, marks: Marks)
    requires CloseCost(legs, marks).Some?
    ensures CloseCost(legs, marks).value == -OpenDebit(legs, marks)
  {
    if legs != [] {
      CloseUndoesOpen(Front(legs), marks);
    }
  }

  /** At the marks a structure was opened at, nothing is lost and nothing is gained. */
  lemma UnchangedMarksAreFlat(legs: seq<Leg>, marks: Marks)
    requires CloseCost(legs, marks).Some? && OpenDebit(legs, marks) != 0.0
    ensures LossPct(OpenDebit(legs, marks), CloseCost(legs, marks).value) == Some(0.0)
    ensures OpenDebit(legs, marks) < 0.0 ==> GainPct(OpenDebit(legs, marks), CloseCost(legs, marks).value) == Some(0.0)
  {
    CloseUndoesOpen(legs, marks);
  }

  /** What closing now makes per share on top of what opening paid or received. */
  function ProfitPerShare(entry: real, cost: real): real {
    -(entry + cost)
  }

  lemma Quotient(x: real, y: real)
    requires y > 0.0
    ensures Positive(x / y) * y == Positive(x)
  {
    Ratio(x, y);
  }

  /** Loss and gain are the two sides of one profit, as fractions of what was paid or received;
      a gain is judged for credits only. */
  lemma LossAndGainAreProfit(entry: real, cost: real)
    requires entry != 0.0
    ensures LossPct(entry, cost).Some? && LossPct(entry, cost).value * Abs(entry) == Positive(-ProfitPerShare(entry, cost))
    ensures GainPct(entry, cost).Some? <==> entry < 0.0
    ensures GainPct(entry, cost).Some? ==> GainPct(entry, cost).value * Abs(entry) == Positive(ProfitPerShare(entry, cost))
  {
    if entry < 0.0 {
      Quotient(-(-entry - cost), -entry);
      Quotient(-entry - cost, -entry);
    } else {
      Quotient(-(-cost - entry), entry);
    }
  }

  predicate Stops(entry: real, cost: real, stop: real) {
    LossPct(entry, cost).Some? && LossPct(entry, cost).value >= Abs(stop)
  }

  predicate Takes(entry: real, cost: real, take: real) {
    GainPct(entry, cost).Some? && GainPct(entry, cost).value >= Abs(take)
  }

  /** Loss and gain of a credit are the two sides of one number, so with thresholds other than
      zero at most one rail fires; with both at zero both always do. */
  lemma OneRailAtATime(entry: real, cost: real, stop: real, take: real)
    requires entry < 0.0
    ensures LossPct(entry, cost).value == 0.0 || GainPct(entry, cost).value == 0.0
    ensures stop != 0.0 && take != 0.0 ==> !(Stops(entry, cost, stop) && Takes(entry, cost, take))
    ensures stop == 0.0 && take == 0.0 ==> Stops(entry, cost, stop) && Takes(entry, cost, take)
  {
    Ratio(-entry - cost, -entry);
    assert -(-entry - cost) / -entry == -((-entry - cost) / -entry);
  }

  // ---------------------------------------------------------------- the sweeps

  /** What raises while a row is judged: nothing, reading its entry price, or resolving its marks. */
  datatype Fault = Sound | EntryRaises | MarksRaise

  /** An open composite. An empty id or underlying stands for a missing one. */
  datatype Row = Row(id: string, entry: Option<real>, legs: seq<Leg>, underlying: string, marks: Option<Marks>,
                     fault: Fault)

  /** How acting on a row ended: decomposed or filled, refused, or an exception anywhere in it. */
  datatype Close = Closed | Refused | Broke

  datatype Tally = Tally(fires: nat, silences: nat, errors: nat)

  /** What the stop sweep can compute about a row. */
  predicate Judged(row: Row) {
    Listed(row) && row.fault.Sound? && NetCloseCost(row.legs, row.marks).Some?
  }

  /** The row has all a close needs but its marks. */
  predicate Listed(row: Row) {
    row.id != "" && row.entry.Some? && row.legs != [] && row.underlying != ""
  }

  /** Judging the row raises. */
  predicate Raises(row: Row) {
    (row.id != "" && row.fault.EntryRaises?) || (Listed(row) && row.fault.MarksRaise?)
  }

  predicate StopDue(row: Row, stop: real) {
    Judged(row) && Stops(row.entry.value, NetCloseCost(row.legs, row.marks).value, stop)
  }

  predicate TakeDue(row: Row, take: real) {
    Judged(row) && Takes(row.entry.value, NetCloseCost(row.legs, row.marks).value, take)
  }

  function StopTest(stop: real): Row -> bool {
    (row: Row) => StopDue(row, stop)
  }

  function TakeTest(take: real, already: set<string>): Row -> bool {
    (row: Row) => row.id !in already && TakeDue(row, take)
  }

  function RaiseTest(already: set<string>): Row -> bool {
    (row: Row) => row.id !in already && Raises(row)
  }

  /** Ids of the rows that were due and closed. */
  function ClosedIds(rows: seq<Row>, ends: seq<Close>, due: Row -> bool): set<string>
    requires |rows| == |ends|
  {
    set i | 0 <= i < |rows| && due(rows[i]) && ends[i].Closed? :: rows[i].id
  }

  // ---------------------------------------------------------------- the thresholds, in money

  /** The row has an entry price other than zero, and all its legs can be marked without trouble. */
  predicate Priced(row: Row) {
    && row.id != "" && row.entry.Some? && row.entry.value != 0.0 && row.legs != [] && row.underlying != ""
    && row.fault.Sound? && row.marks.Some? && forall l :: l in row.legs ==> Markable(l, row.marks.value)
  }

  /** Closing a priced row costs this much per share. */
  function CostOf(row: Row): real
    requires Priced(row)
  {
    CostIfMarkable(row.legs, row.marks.value);
    CloseCost(row.legs, row.marks.value).value
  }

  /** The row has lost at least the fraction of its credit or debit; a fraction of zero is always
      reached. */
  predicate LosesAtLeast(row: Row, fraction: real) {
    Priced(row)
    && (fraction == 0.0 || -ProfitPerShare(row.entry.value, CostOf(row)) >= Abs(fraction) * Abs(row.entry.value))
  }

  /** The row is a credit and has kept at least the fraction of it. */
  predicate KeepsAtLeast(row: Row, fraction: real) {
    Priced(row) && row.entry.value < 0.0
    && (fraction == 0.0 || ProfitPerShare(row.entry.value, CostOf(row)) >= Abs(fraction) * Abs(row.entry.value))
  }

  lemma NegativeProduct(x: real, y: real)
    requires x < 0.0 && y > 0.0
    ensures x * y < 0.0
  {
  }

  lemma AtLeast(part: real, whole: real, money: real, fraction: real)
    requires whole > 0.0 && part * whole == Positive(money)
    ensures part >= Abs(fraction) <==> fraction == 0.0 || money >= Abs(fraction) * whole
  {
    var f := Abs(fraction);
    assert (part - f) * whole == part * whole - f * whole;
    if part < f { NegativeProduct(part - f, whole); }
    if part < 0.0 { NegativeProduct(part, whole); }
    if f > 0.0 { NegativeProduct(-f, whole); }
    if part > f { NegativeProduct(f - part, whole); }
  }

  lemma PricedIsJudged(row: Row)
    ensures Priced(row) <==> Judged(row) && row.entry.value != 0.0
    ensures Priced(row) ==> NetCloseCost(row.legs, row.marks) == Some(CostOf(row))
  {
    if row.marks.Some? { CostIfMarkable(row.legs, row.marks.value); }
    hide CloseCost;
  }

  /** What the sweeps test is that loss, and that gain. */
  lemma DueIff(row: Row, fraction: real)
    ensures StopDue(row, fraction) <==> LosesAtLeast(row, fraction)
    ensures TakeDue(row, fraction) <==> KeepsAtLeast(row, fraction)
  {
    PricedIsJudged(row);
    hide Priced, CostOf, NetCloseCost;
    if Judged(row) && row.entry.value != 0.0 {
      var entry, cost := row.entry.value, NetCloseCost(row.legs, row.marks).value;
      LossAndGainAreProfit(entry, cost);
      hide LossPct, GainPct;
      AtLeast(LossPct(entry, cost).value, Abs(entry), -ProfitPerShare(entry, cost), fraction);
      if entry < 0.0 { AtLeast(GainPct(entry, cost).value, Abs(entry), ProfitPerShare(entry, cost), fraction); }
    }
  }

  /** Reading the row's entry or resolving its marks raises before it can be judged. */
  predicate Troubled(row: Row) {
    row.id != ""
    && (row.fault.EntryRaises? || (row.fault.MarksRaise? && row.entry.Some? && row.legs != [] && row.underlying != ""))
  }

  /** The rows among which an end is counted. */
  function Ending(rows: seq<Row>, ends: seq<Close>, due: Row -> bool, end: Close): set<int>
    requires |rows| == |ends|
  {
    set i | 0 <= i < |rows| && due(rows[i]) && ends[i] == end
  }

  function Raising(rows: seq<Row>, raises: Row -> bool): set<int> {
    set i | 0 <= i < |rows| && raises(rows[i])
  }

  lemma EndingNext(rows: seq<Row>, ends: seq<Close>, due: Row -> bool, end: Close)
    requires |rows| == |ends| && rows != []
    ensures Ending(rows, ends, due, end)
         == Ending(Front(rows), Front(ends), due, end) + (if due(Last(rows)) && Last(ends) == end then {|rows| - 1} else {})
  {
  }

  lemma RaisingNext(rows: seq<Row>, raises: Row -> bool)
    requires rows != []
    ensures Raising(rows, raises) == Raising(Front(rows), raises) + (if raises(Last(rows)) then {|rows| - 1} else {})
  {
  }

  /** Each due row counts once for how it ended, each raising one as an error. */
  lemma {:induction false} TallyCounts(rows: seq<Row>, ends: seq<Close>, due: Row -> bool, raises: Row -> bool)
    requires |rows| == |ends| && forall row :: !(due(row) && raises(row))
    ensures var t := Tallied(rows, ends, due, raises);
            && t.fires == |Ending(rows, ends, due, Closed)| && t.silences == |Ending(rows, ends, due, Refused)|
            && t.errors == |Ending(rows, ends, due, Broke)| + |Raising(rows, raises)|
  {
    if rows != [] {
      TallyCounts(Front(rows), Front(ends), due, raises);
      EndingNext(rows, ends, due, Closed);
      EndingNext(rows, ends, due, Refused);
      EndingNext(rows, ends, due, Broke);
      RaisingNext(rows, raises);
    }
  }

  /** The sweep closes, for every loss past the threshold whose order fills, and tallies each row
      it acts on or that raises once. */
  ghost predicate Swept(rows: seq<Row>, ends: seq<Close>, past: Row -> bool, troubled: Row -> bool,
                        closed: set<string>, tally: Tally)
    requires |rows| == |ends|
  {
    && (forall id :: id in closed <==> exists i :: 0 <= i < |rows| && rows[i].id == id && ends[i].Closed? && past(rows[i]))
    && tally.fires == |set i | 0 <= i < |rows| && past(rows[i]) && ends[i].Closed?|
    && tally.silences == |set i | 0 <= i < |rows| && past(rows[i]) && ends[i].Refused?|
    && tally.errors == |set i | 0 <= i < |rows| && past(rows[i]) && ends[i].Broke?|
                       + |set i | 0 <= i < |rows| && troubled(rows[i])|
  }

  lemma SweptAs(rows: seq<Row>, ends: seq<Close>, due: Row -> bool, raises: Row -> bool, past: Row -> bool,
                troubled: Row -> bool)
    requires |rows| == |ends|
    requires forall row :: due(row) == past(row) && raises(row) == troubled(row) && !(due(row) && raises(row))
    ensures Swept(rows, ends, past, troubled, ClosedIds(rows, ends, due), Tallied(rows, ends, due, raises))
  {
    TallyCounts(rows, ends, due, raises);
    assert Ending(rows, ends, due, Closed) == set i | 0 <= i < |rows| && past(rows[i]) && ends[i].Closed?;
    assert Ending(rows, ends, due, Refused) == set i | 0 <= i < |rows| && past(rows[i]) && ends[i].Refused?;
    assert Ending(rows, ends, due, Broke) == set i | 0 <= i < |rows| && past(rows[i]) && ends[i].Broke?;
    assert Raising(rows, raises) == set i | 0 <= i < |rows| && troubled(rows[i]);
    hide Tallied;
  }

  lemma StopSwept(rows: seq<Row>, ends: seq<Close>, stop: real)
    requires |rows| == |ends|
    ensures Swept(rows, ends, (row: Row) => LosesAtLeast(row, stop), Troubled,
                  ClosedIds(rows, ends, StopTest(stop)), Tallied(rows, ends, StopTest(stop), RaiseTest({})))
  {
    forall row: Row ensures StopTest(stop)(row) == LosesAtLeast(row, stop) && RaiseTest({})(row) == Troubled(row) {
      DueIff(row, stop);
      hide LosesAtLeast, StopDue;
    }
    DueNeverRaises(stop, 0.0);
    hide Swept, Tallied, ClosedIds, LosesAtLeast, Troubled;
    SweptAs(rows, ends, StopTest(stop), RaiseTest({}), (row: Row) => LosesAtLeast(row, stop), Troubled);
  }

  lemma DueNeverRaises(stop: real, take: real)
    ensures forall row :: !(StopDue(row, stop) && Raises(row)) && !(TakeDue(row, take) && Raises(row))
  {
    hide Stops, Takes, NetCloseCost;
  }

  lemma TakeSwept(rows: seq<Row>, ends: seq<Close>, take: real, already: set<string>)
    requires |rows| == |ends|
    ensures Swept(rows, ends, (row: Row) => row.id !in already && KeepsAtLeast(row, take),
                  (row: Row) => row.id !in already && Troubled(row),
                  ClosedIds(rows, ends, TakeTest(take, already)),
                  Tallied(rows, ends, TakeTest(take, already), RaiseTest(already)))
  {
    forall row: Row ensures TakeDue(row, take) == KeepsAtLeast(row, take) && Raises(row) == Troubled(row) {
      DueIff(row, take);
      hide KeepsAtLeast, TakeDue;
    }
    DueNeverRaises(0.0, take);
    hide Swept, Tallied, ClosedIds, KeepsAtLeast, Troubled, TakeDue, Raises;
    SweptAs(rows, ends, TakeTest(take, already), RaiseTest(already),
            (row: Row) => row.id !in already && KeepsAtLeast(row, take), (row: Row) => row.id !in already && Troubled(row));
  }

  method StopSweep(rows: seq<Row>, ends: seq<Close>, stop: real) returns (closed: set<string>, tally: Tally)
    requires |rows| == |ends|
    ensures closed == ClosedIds(rows, ends, StopTest(stop))
    ensures tally == Tallied(rows, ends, StopTest(stop), RaiseTest({}))
    ensures Swept(rows, ends, (row: Row) => LosesAtLeast(row, stop), Troubled, closed, tally)
  {
    hide Swept, LosesAtLeast, Troubled, KeepsAtLeast, Positive;
    var due, raises := StopTest(stop), RaiseTest({});
    closed, tally := {}, Tally(0, 0, 0);
    for i := 0 to |rows|
      invariant closed == ClosedIds(rows[..i], ends[..i], due)
      invariant tally == Tallied(rows[..i], ends[..i], due, raises)
    {
      assert Front(rows[..i + 1]) == rows[..i] && Front(ends[..i + 1]) == ends[..i];
      MoreIds(rows, ends, i, due);
      var row := rows[i];
      if row.id == "" {
        continue;
      }
      if row.fault.EntryRaises? {
        tally := tally.(errors := tally.errors + 1);
        continue;
      }
      if row.entry.None? || row.legs == [] || row.underlying == "" {
        continue;
      }
      if row.fault.MarksRaise? {
        tally := tally.(errors := tally.errors + 1);
        continue;
      }
      var cost := NetCloseCostLoop(row.legs, row.marks);
      if cost.None? {
        continue;
      }
      var loss := LossPct(row.entry.value, cost.value);
      if loss.None? || loss.value < Abs(stop) {
        continue;
      }
      match ends[i] {
        case Closed => closed, tally := closed + {row.id}, tally.(fires := tally.fires + 1);
        case Refused => tally := tally.(silences := tally.silences + 1);
        case Broke => tally := tally.(errors := tally.errors + 1);
      }
    }
    assert rows[..|rows|] == rows && ends[..|ends|] == ends;
    StopSwept(rows, ends, stop);
  }

  /** The take-profit sweep skips whatever the stop sweep closed. */
  method TakeSweep(rows: seq<Row>, ends: seq<Close>, take: real, already: set<string>)
    returns (closed: set<string>, tally: Tally)
    requires |rows| == |ends|
    ensures closed == ClosedIds(rows, ends, TakeTest(take, already))
    ensures tally == Tallied(rows, ends, TakeTest(take, already), RaiseTest(already))
    ensures Swept(rows, ends, (row: Row) => row.id !in already && KeepsAtLeast(row, take),
                  (row: Row) => row.id !in already && Troubled(row), closed, tally)
  {
    hide Swept, KeepsAtLeast, Troubled, LosesAtLeast, Positive;
    var due, raises := TakeTest(take, already), RaiseTest(already);
    closed, tally := {}, Tally(0, 0, 0);
    for i := 0 to |rows|
      invariant closed == ClosedIds(rows[..i], ends[..i], due)
      invariant tally == Tallied(rows[..i], ends[..i], due, raises)
    {
      assert Front(rows[..i + 1]) == rows[..i] && Front(ends[..i + 1]) == ends[..i];
      MoreIds(rows, ends, i, due);
      var row := rows[i];
      if row.id == "" || row.id in already {
        continue;
      }
      if row.fault.EntryRaises? {
        tally := tally.(errors := tally.errors + 1);
        continue;
      }
      if row.entry.None? || row.legs == [] || row.underlying == "" {
        continue;
      }
      if row.fault.MarksRaise? {
        tally := tally.(errors := tally.errors + 1);
        continue;
      }
      ShortFirstKeepsCost(row.legs, row.marks);
      var cost := NetCloseCostLoop(ShortFirst(row.legs), row.marks);
      if cost.None? {
        continue;
      }
      var gain := GainPct(row.entry.value, cost.value);
      if gain.None? || gain.value < Abs(take) {
        continue;
      }
      match ends[i] {
        case Closed => closed, tally := closed + {row.id}, tally.(fires := tally.fires + 1);
        case Refused => tally := tally.(silences := tally.silences + 1);
        case Broke => tally := tally.(errors := tally.errors + 1);
      }
    }
    assert rows[..|rows|] == rows && ends[..|ends|] == ends;
    TakeSwept(rows, ends, take, already);
  }

  /** One count per row that raised or was due, and none for a row that is held. */
  function Tallied(rows: seq<Row>, ends: seq<Close>, due: Row -> bool, raises: Row -> bool): Tally
    requires |rows| == |ends|
  {
    if rows == [] then Tally(0, 0, 0)
    else
      var t := Tallied(Front(rows), Front(ends), due, raises);
      if raises(Last(rows)) then t.(errors := t.errors + 1)
      else if !due(Last(rows)) then t
      else
        match Last(ends)
        case Closed => t.(fires := t.fires + 1)
        case Refused => t.(silences := t.silences + 1)
        case Broke => t.(errors := t.errors + 1)
  }

  lemma MoreIds(rows: seq<Row>, ends: seq<Close>, i: nat, due: Row -> bool)
    requires |rows| == |ends| && i < |rows|
    ensures ClosedIds(rows[..i + 1], ends[..i + 1], due)
         == ClosedIds(rows[..i], ends[..i], due) + (if due(rows[i]) && ends[i].Closed? then {rows[i].id} else {})
  {
    assert rows[..i + 1][i] == rows[i] && ends[..i + 1][i] == ends[i];
    forall k | 0 <= k < i ensures rows[..i + 1][k] == rows[..i][k] && ends[..i + 1][k] == ends[..i][k] {
    }
  }

  /** How often a sweep closes the composite. */
  function Closes(rows: seq<Row>, ends: seq<Close>, due: Row -> bool, id: string): nat
    requires |rows| == |ends|
  {
    if rows == [] then 0
    else
      Closes(Front(rows), Front(ends), due, id)
      + (if Last(rows).id == id && due(Last(rows)) && Last(ends).Closed? then 1 else 0)
  }

  /** `list_open` gives each composite once. */
  predicate DistinctIds(rows: seq<Row>) {
    forall i, j :: 0 <= i < j < |rows| ==> rows[i].id != rows[j].id
  }

  lemma {:induction false} ClosesOnce(rows: seq<Row>, ends: seq<Close>, due: Row -> bool, id: string)
    requires |rows| == |ends|
    ensures DistinctIds(rows) ==> Closes(rows, ends, due, id) <= 1
    ensures Closes(rows, ends, due, id) > 0 <==> id in ClosedIds(rows, ends, due)
    ensures Closes(rows, ends, due, id) > 0 ==> exists r :: r in rows && r.id == id && due(r)
  {
    if rows != [] {
      ClosesOnce(Front(rows), Front(ends), due, id);
      MoreIds(rows, ends, |rows| - 1, due);
      assert rows[..|rows|] == rows && ends[..|ends|] == ends;
      assert rows == Front(rows) + [Last(rows)];
    }
  }

  /** One tick's two sweeps close a composite at most once between them, whatever the second
      reads of it; and what the stop closes could be fully marked. */
  lemma {:induction false} NeverClosedTwice(rows: seq<Row>, ends: seq<Close>, stop: real,
                                            later: seq<Row>, laterEnds: seq<Close>, take: real, id: string)
    requires |rows| == |ends| && |later| == |laterEnds| && DistinctIds(rows) && DistinctIds(later)
    ensures var stopped := ClosedIds(rows, ends, StopTest(stop));
            Closes(rows, ends, StopTest(stop), id) + Closes(later, laterEnds, TakeTest(take, stopped), id) <= 1
    ensures Closes(rows, ends, StopTest(stop), id) > 0 ==>
              exists r :: r in rows && r.id == id && Judged(r) && forall l :: l in r.legs ==> Markable(l, r.marks.value)
  {
    var stopped := ClosedIds(rows, ends, StopTest(stop));
    ClosesOnce(rows, ends, StopTest(stop), id);
    ClosesOnce(later, laterEnds, TakeTest(take, stopped), id);
    if Closes(rows, ends, StopTest(stop), id) > 0 {
      var r :| r in rows && r.id == id && StopDue(r, stop);
      CostIfMarkable(r.legs, r.marks.value);
    }
  }
}
