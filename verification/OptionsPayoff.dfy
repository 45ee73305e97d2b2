/** What a built structure can lose at expiry, against the loss the gate sizes it by. */
module OptionsPayoff {
  import opened Prelude
  import opened OptionsGate
  import opened OptionsRecipes

  function Intrinsic(right: Right, strike: real, price: real): real {
    NonNegative(if right == Put then strike - price else price - strike)
  }

  /** Profit per share of a contract sold or bought at its mid and held to expiry. */
  function SoldPnl(right: Right, q: Quote, price: real): real {
    q.mid - Intrinsic(right, q.strike, price)
  }

  function BoughtPnl(right: Right, q: Quote, price: real): real {
    Intrinsic(right, q.strike, price) - q.mid
  }

  /** The profit per share of a whole structure of options when the underlying ends at a price. */
  function Pnl(s: Structure, price: real): real
    requires Defined(s)
  {
    match s
    case PutSpread(short, long) => SoldPnl(Put, short, price) + BoughtPnl(Put, long, price)
    case CallSpread(short, long) => SoldPnl(Call, short, price) + BoughtPnl(Call, long, price)
    case Condor(sp, lp, sc, lc) =>
      SoldPnl(Put, sp, price) + BoughtPnl(Put, lp, price) + SoldPnl(Call, sc, price) + BoughtPnl(Call, lc, price)
  }

  predicate Defined(s: Structure) {
    s.PutSpread? || s.CallSpread? || s.Condor?
  }

  /** The loss per share is never more than `m`, and reaches it. */
  ghost predicate WorstCase(s: Structure, m: real)
    requires Defined(s)
  {
    (forall price :: -Pnl(s, price) <= m) && exists price :: -Pnl(s, price) == m
  }

  lemma OneWorstCase(s: Structure, m: real, n: real)
    requires Defined(s) && WorstCase(s, m) && WorstCase(s, n)
    ensures m == n
  {
    var x :| -Pnl(s, x) == m;
    var y :| -Pnl(s, y) == n;
  }

  /** The gate's loss per share of one unit. */
  function GateLoss(o: Offer): real
    requires Build(o).Ready?
  {
    var q := Build(o).order;
    if q.netDebit > 0.0 then q.netDebit else q.width - q.netCredit
  }

  /** The gate's loss is that much for each of a hundred shares of each contract. */
  lemma GateLossScales(o: Offer, n: int)
    requires Build(o).Ready? && n >= 1
    ensures MaxLoss(Build(o).order, n) == GateLoss(o) * 100.0 * n as real
  {
    hide Build;
  }

  /** A spread loses at most its width less what was received, or plus what was paid. */
  lemma SpreadWorst(o: Offer)
    requires Build(o).Ready? && (o.structure.PutSpread? || o.structure.CallSpread?)
    ensures var s := o.structure;
            var width := if s.PutSpread? then s.short.strike - s.long.strike else s.long.strike - s.short.strike;
            width > 0.0 && WorstCase(s, width - (s.short.mid - s.long.mid))
  {
    var s := o.structure;
    var width := if s.PutSpread? then s.short.strike - s.long.strike else s.long.strike - s.short.strike;
    assert -Pnl(s, s.long.strike) == width - (s.short.mid - s.long.mid);
  }

  /** The loss the gate sizes a spread by is the most it can lose iff it was sold for no less than
      its protection cost. Quoted the other way round it can lose its width as well as what was paid,
      and the gate counts only what was paid. */
  lemma SpreadLossIff(o: Offer)
    requires Build(o).Ready? && (o.structure.PutSpread? || o.structure.CallSpread?)
    ensures WorstCase(o.structure, GateLoss(o)) <==> o.structure.short.mid >= o.structure.long.mid
  {
    var s := o.structure;
    SpreadWorst(o);
    var width := if s.PutSpread? then s.short.strike - s.long.strike else s.long.strike - s.short.strike;
    var credit := s.short.mid - s.long.mid;
    assert GateLoss(o) == if credit < 0.0 then -credit else width - credit;
    hide WorstCase, GateLoss, Build;
    if WorstCase(s, GateLoss(o)) { OneWorstCase(s, GateLoss(o), width - credit); }
  }

  /** What the two sides of a condor lose at a price, credit aside. */
  function SideLosses(s: Structure, price: real): real
    requires s.Condor?
  {
    Intrinsic(Put, s.shortPut.strike, price) - Intrinsic(Put, s.longPut.strike, price)
    + (Intrinsic(Call, s.shortCall.strike, price) - Intrinsic(Call, s.longCall.strike, price))
  }

  function Credit(s: Structure): real
    requires s.Condor?
  {
    s.shortPut.mid - s.longPut.mid + (s.shortCall.mid - s.longCall.mid)
  }

  lemma CondorOrder(o: Offer)
    requires Build(o).Ready? && o.structure.Condor?
    ensures var s := o.structure;
            var puts, calls := s.shortPut.strike - s.longPut.strike, s.longCall.strike - s.shortCall.strike;
            && puts > 0.0 && calls > 0.0 && GateLoss(o) == (if puts < calls then calls else puts) - Credit(s)
  {
  }

  lemma CondorPnl(s: Structure, price: real)
    requires s.Condor?
    ensures -Pnl(s, price) == SideLosses(s, price) - Credit(s)
  {
  }

  /** Each side is inside out past the other: the long put above the short call, and the short put
      above the long call. */
  predicate InsideOut(s: Structure)
    requires s.Condor?
  {
    s.longPut.strike > s.shortCall.strike && s.shortPut.strike > s.longCall.strike
  }

  lemma CondorSides(s: Structure)
    requires s.Condor? && s.shortPut.strike > s.longPut.strike && s.longCall.strike > s.shortCall.strike
    ensures var puts, calls := s.shortPut.strike - s.longPut.strike, s.longCall.strike - s.shortCall.strike;
            var wider := if puts < calls then calls else puts;
            && (!InsideOut(s) ==> forall price :: SideLosses(s, price) <= wider)
            && (!InsideOut(s) ==> SideLosses(s, if puts < calls then s.longCall.strike else s.longPut.strike) == wider)
            && (InsideOut(s) ==> SideLosses(s, s.longPut.strike) > wider || SideLosses(s, s.longCall.strike) > wider)
  {
  }

  /** The two sides of a condor never lose more together than the wider one, as the builder says,
      iff they are not inside out; nothing in the builder looks at that. */
  lemma CondorLossIff(o: Offer)
    requires Build(o).Ready? && o.structure.Condor?
    ensures WorstCase(o.structure, GateLoss(o)) <==> !InsideOut(o.structure)
  {
    var s := o.structure;
    CondorOrder(o);
    CondorSides(s);
    forall price ensures -Pnl(s, price) == SideLosses(s, price) - Credit(s) {
      CondorPnl(s, price);
    }
    hide Build, GateLoss, Pnl, SideLosses, Credit;
    var puts, calls := s.shortPut.strike - s.longPut.strike, s.longCall.strike - s.shortCall.strike;
    if !InsideOut(s) {
      assert -Pnl(s, if puts < calls then s.longCall.strike else s.longPut.strike) == GateLoss(o);
    } else {
      assert -Pnl(s, s.longPut.strike) > GateLoss(o) || -Pnl(s, s.longCall.strike) > GateLoss(o);
    }
  }
}
