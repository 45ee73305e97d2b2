/** The structures the producer builds, and which funds let any of them through the gate. */
module OptionsRecipes {
  import opened Prelude
  import opened ByteLines
  import opened OptionsGate

  // ---------------------------------------------------------------- building

  /** One chosen contract of the chain; all contracts of a structure share their expiry. */
  datatype Quote = Quote(strike: real, mid: real, greeks: Option<Greeks>)

  datatype Structure =
    | Covered(call: Quote, wheel: bool)
    | Secured(put: Quote)
    | PutSpread(short: Quote, long: Quote)
    | CallSpread(short: Quote, long: Quote)
    | Condor(shortPut: Quote, longPut: Quote, shortCall: Quote, longCall: Quote)

  /** A structure in its market, for an account of some NAV. */
  datatype Offer = Offer(structure: Structure, underlying: string, expiry: int, dte: int, spot: real, nav: real)

  /** A builder raises on a degenerate market, refuses one without a loss to define, or hands an
      order to the gate. */
  datatype Built = Degenerate | Refused | Ready(order: Order)

  function Sold(o: Offer, right: Right, q: Quote): Leg {
    Contract(true, right, o.underlying, o.expiry, 1, q.greeks)
  }

  function Bought(o: Offer, right: Right, q: Quote): Leg {
    Contract(false, right, o.underlying, o.expiry, 1, q.greeks)
  }

  function Base(o: Offer, legs: seq<Leg>, strike: real): Order {
    Order(false, false, legs, o.spot, o.nav, strike, 0.0, 0.0, 0.0, 0.0, 0.0, None, Some(o.dte), 0.0, Clear)
  }

  function Vertical(o: Offer, legs: seq<Leg>, strike: real, width: real, credit: real): Built {
    if width <= 0.0 then Degenerate
    else if width - NonNegative(credit) <= 0.0 then Refused
    else
      Ready(Base(o, legs, strike).(width := width, netCredit := NonNegative(credit), netDebit := NonNegative(-credit),
                                   premiumReceived := NonNegative(credit) * 100.0,
                                   premiumPaid := NonNegative(-credit) * 100.0))
  }

  function Build(o: Offer): Built {
    if o.spot <= 0.0 then Degenerate
    else
      match o.structure
      case Covered(call, wheel) =>
        Ready(Base(o, [Shares, Sold(o, Call, call)], call.strike).(wheel := wheel, basis := Some(o.spot),
                                                                    premiumReceived := call.mid * 100.0))
      case Secured(put) => Ready(Base(o, [Sold(o, Put, put)], put.strike).(premiumReceived := put.mid * 100.0))
      case PutSpread(short, long) =>
        Vertical(o, [Sold(o, Put, short), Bought(o, Put, long)], short.strike, short.strike - long.strike,
                 short.mid - long.mid)
      case CallSpread(short, long) =>
        Vertical(o, [Sold(o, Call, short), Bought(o, Call, long)], short.strike, long.strike - short.strike,
                 short.mid - long.mid)
      case Condor(sp, lp, sc, lc) =>
        var puts, calls := sp.strike - lp.strike, lc.strike - sc.strike;
        var credit := sp.mid - lp.mid + (sc.mid - lc.mid);
        var width := if puts < calls then calls else puts;
        if puts <= 0.0 || calls <= 0.0 then Degenerate
        else if credit <= 0.0 || width - credit <= 0.0 then Refused
        else
          Ready(Base(o, [Sold(o, Put, sp), Bought(o, Put, lp), Sold(o, Call, sc), Bought(o, Call, lc)], sp.strike)
                .(condor := true, width := width, netCredit := credit, premiumReceived := credit * 100.0))
  }

  // ---------------------------------------------------------------- the caller's funds

  /** What a caller passes of its account: options buying power and shares of the underlying. */
  datatype Funds = Funds(buyingPower: real, shares: int)

  /** The tick's own call: no live source for the one, the builder's default for the other. */
  const UNFUNDED := Funds(0.0, 0)

  /** The spread builders take no shares. */
  function AccountFor(f: Funds, s: Structure): Account {
    Account(f.buyingPower, if s.Covered? || s.Secured? then f.shares else 0, ZERO, 0.0, 0, 0.0)
  }

  predicate Admits(f: Funds, o: Offer) {
    Build(o).Ready? && Gate(AccountFor(f, o.structure), Build(o).order).Ok?
  }

  predicate Funded(f: Funds) {
    f.buyingPower > 0.0 || f.shares >= 100
  }

  function Flat(strike: real, mid: real): Quote {
    Quote(strike, mid, Some(ZERO))
  }

  /** A put spread that one contract of fits the buying power, and the size target. */
  function SmallSpread(power: real): Offer {
    Offer(PutSpread(Flat(power / 50.0, 1.0 + power / 200.0), Flat(power / 100.0, 1.0)), "X", 0, 30, 1.0, 30.0 * power)
  }

  lemma TwoLegs(x: Leg, y: Leg, n: int)
    ensures ShortRatio([x, y]) == (if Short(x) then x.ratio else 0) + (if Short(y) then y.ratio else 0)
    ensures NetGreeks([x, y], n) == Plus(Plus(ZERO, LegGreeks(x, n)), LegGreeks(y, n))
  {
    hide LegGreeks, Plus;
    assert Front([x, y]) == [x] && Last([x, y]) == y && Front([x]) == [] && Last([x]) == x;
    assert ShortRatio([x]) == ShortRatio([]) + (if Short(x) then x.ratio else 0);
    assert NetGreeks([x], n) == Plus(NetGreeks([], n), LegGreeks(x, n));
  }

  /** A leg at rest adds nothing. */
  lemma FlatLeg(l: Leg, n: int)
    requires l.Contract? && l.greeks == Some(ZERO)
    ensures LegGreeks(l, n) == ZERO
  {
  }

  function Wing(sold: bool, right: Right): Leg {
    Contract(sold, right, "X", 0, 1, Some(ZERO))
  }

  /** Its order, in figures. */
  lemma SmallSpreadOrder(p: real)
    requires p > 0.0
    ensures Build(SmallSpread(p)).Ready?
    ensures var q := Build(SmallSpread(p)).order;
            && q.legs == [Wing(true, Put), Wing(false, Put)] && q.width == p / 100.0 && q.netCredit == p / 200.0
            && q.netDebit == 0.0 && q.spot == 1.0 && q.nav == 30.0 * p && q.dte == Some(30) && q.edge == 0.0
            && q.event == Clear && !q.wheel && !q.condor
  {
  }

  lemma SmallSpreadAdmitted(f: Funds)
    requires f.buyingPower > 0.0
    ensures Admits(f, SmallSpread(f.buyingPower))
  {
    var p, o := f.buyingPower, SmallSpread(f.buyingPower);
    SmallSpreadOrder(p);
    assert AccountFor(f, o.structure) == Account(p, 0, ZERO, 0.0, 0, 0.0);
    hide Build, SmallSpread, Gate;
    SpreadPasses(AccountFor(f, o.structure), Build(o).order, p);
  }

  lemma SpreadPasses(a: Account, q: Order, p: real)
    requires a == Account(p, 0, ZERO, 0.0, 0, 0.0) && p > 0.0
    requires q.legs == [Wing(true, Put), Wing(false, Put)] && q.width == p / 100.0 && q.netCredit == p / 200.0
    requires q.netDebit == 0.0 && q.spot == 1.0 && q.nav == 30.0 * p && q.dte == Some(30) && q.edge == 0.0
    requires q.event == Clear && !q.wheel && !q.condor
    ensures Gate(a, q) == Ok(Admission(DefinedRisk, 1))
  {
    SpreadShape(a, q, 1);
    SpreadMoney(q, p);
    hide Units, MaxLoss, Bpr, NetGreeks, Classify, HasGreeks, Gate, GreekRefusal, Risk, Target, AllCovered;
    SpreadChecks(a, q, p);
    SpreadSize(a, q, p);
    hide Refusal, RefusalAtSize, Contracts;
    assert AssignmentCash(DefinedRisk, q, 1) == 0.0;
    Passes(a, q, DefinedRisk, 1);
  }

  lemma SpreadShape(a: Account, q: Order, n: nat)
    requires q.legs == [Wing(true, Put), Wing(false, Put)] && !q.condor
    ensures Units(q) == 1 && NetGreeks(q.legs, n) == Greeks(0.0, 0.0, 0.0, 0.0) && HasGreeks(q.legs)
    ensures Classify(a, q) == Some(DefinedRisk)
    ensures forall l :: l in q.legs && Short(l) ==> l.greeks == Some(ZERO)
  {
    var s, l := Wing(true, Put), Wing(false, Put);
    TwoLegs(s, l, n);
    FlatLeg(s, n);
    FlatLeg(l, n);
    assert l in q.legs && Covers(l, s);
    assert AllCovered(q.legs);
    hide AllCovered, NetGreeks, LegGreeks;
  }

  lemma SpreadMoney(q: Order, p: real)
    requires p > 0.0 && q.width == p / 100.0 && q.netCredit == p / 200.0 && q.netDebit == 0.0
    ensures MaxLoss(q, 1) == Bpr(DefinedRisk, q, 1) == p / 2.0
  {
  }

  lemma SpreadChecks(a: Account, q: Order, p: real)
    requires a == Account(p, 0, ZERO, 0.0, 0, 0.0) && p > 0.0 && q.nav == 30.0 * p && q.dte == Some(30) && q.event == Clear
    requires Units(q) == 1 && MaxLoss(q, 1) == Bpr(DefinedRisk, q, 1) == p / 2.0 && q.spot == 1.0
    requires NetGreeks(q.legs, 1) == Greeks(0.0, 0.0, 0.0, 0.0)
    requires forall l :: l in q.legs && Short(l) ==> l.greeks == Some(ZERO)
    ensures Refusal(a, q, DefinedRisk).None?
  {
    hide Units, MaxLoss, Bpr, NetGreeks, GreekRefusal;
    Tilted(a, q, 1, 0.0);
  }

  lemma SpreadSize(a: Account, q: Order, p: real)
    requires p > 0.0 && q.nav == 30.0 * p && q.edge == 0.0 && Units(q) == 1 && MaxLoss(q, 1) == p / 2.0
    ensures Contracts(a, q, DefinedRisk) == 1
  {
    assert MaxLoss(q, Units(q)) / Units(q) as real == p / 2.0 by { hide MaxLoss, Units; }
    assert Risk(DefinedRisk, q) == Some(p / 2.0) by { hide MaxLoss, Units; }
    TargetIs(q);
    hide Risk, Target, MaxLoss, Units;
    assert Abs(Target(q)) == 0.75 * p;
    FitsTimes(Target(q), p / 2.0, 1);
    hide Times;
  }

  lemma FitsTimes(target: real, x: real, n: int)
    requires x > 0.0 && Cost(n, x) <= Abs(target) < Cost(n + 1, x)
    ensures Times(target, x) == n
  {
    Fits(target, x);
    var m := Times(target, x);
    hide Times, Cost;
    if m < n { CostGrows(m + 1, n, x); }
    if n < m { CostGrows(n + 1, m, x); }
  }

  // ---------------------------------------------------------------- covered calls of any size

  /** A covered call whose size target is half a contract past `n`. */
  function Calls(n: nat): Offer {
    Offer(Covered(Flat(2.0, 1.0), false), "X", 0, 30, 1.0, 4000.0 * n as real + 2000.0)
  }

  lemma CallsOrder(n: nat)
    requires n >= 1
    ensures Build(Calls(n)).Ready?
    ensures var q := Build(Calls(n)).order;
            && q.legs == [Shares, Wing(true, Call)] && q.spot == 1.0 && q.nav == 4000.0 * n as real + 2000.0
            && q.dte == Some(30) && q.edge == 0.0 && q.event == Clear && !q.wheel && !q.condor && q.basis == Some(1.0)
  {
  }

  lemma CallsAdmitted(f: Funds, n: nat)
    requires f.shares >= 100 && n >= 1
    ensures Admits(f, Calls(n))
    ensures Gate(AccountFor(f, Calls(n).structure), Build(Calls(n)).order) == Ok(Admission(CoveredCall, n))
  {
    CallsOrder(n);
    assert AccountFor(f, Calls(n).structure) == Account(f.buyingPower, f.shares, ZERO, 0.0, 0, 0.0);
    hide Build, Calls, Gate;
    CallsPass(AccountFor(f, Calls(n).structure), Build(Calls(n)).order, n);
  }

  lemma CallsPass(a: Account, q: Order, n: nat)
    requires a == Account(a.buyingPower, a.shares, ZERO, 0.0, 0, 0.0) && a.shares >= 100 && n >= 1
    requires q.legs == [Shares, Wing(true, Call)] && q.spot == 1.0 && q.nav == 4000.0 * n as real + 2000.0
    requires q.dte == Some(30) && q.edge == 0.0 && q.event == Clear && !q.wheel && !q.condor && q.basis == Some(1.0)
    ensures Gate(a, q) == Ok(Admission(CoveredCall, n))
  {
    CallShape(a, q, 1);
    CallShape(a, q, n);
    assert AssignmentCash(CoveredCall, q, n) == 100.0 * n as real;
    hide Units, NetGreeks, Classify, HasGreeks, Gate, GreekRefusal, Risk, Target, AssignmentCash;
    CallChecks(a, q, n);
    CallSize(a, q, n);
    hide Refusal, RefusalAtSize, Contracts;
    Passes(a, q, CoveredCall, n);
  }

  lemma CallShape(a: Account, q: Order, n: nat)
    requires q.legs == [Shares, Wing(true, Call)] && !q.condor && n >= 1 && a.shares >= 100
    ensures Units(q) == 1 && NetGreeks(q.legs, n) == Greeks(100.0 * n as real, 0.0, 0.0, 0.0) && HasGreeks(q.legs)
    ensures Classify(a, q) == Some(CoveredCall)
    ensures forall l :: l in q.legs && Short(l) ==> l.greeks == Some(ZERO)
  {
    var c := Wing(true, Call);
    TwoLegs(Shares, c, n);
    FlatLeg(c, n);
    assert !AllCovered(q.legs) by { assert c in q.legs && Short(c); }
    assert AllShort(q.legs, Call);
    hide AllCovered, AllShort, NetGreeks;
  }

  lemma CallChecks(a: Account, q: Order, n: nat)
    requires a.held == ZERO && a.bpr == 0.0 && n >= 1 && q.spot == 1.0 && q.nav == 4000.0 * n as real + 2000.0
    requires q.dte == Some(30) && q.event == Clear && Units(q) == 1
    requires NetGreeks(q.legs, 1) == Greeks(100.0, 0.0, 0.0, 0.0)
    requires NetGreeks(q.legs, n) == Greeks(100.0 * n as real, 0.0, 0.0, 0.0)
    requires forall l :: l in q.legs && Short(l) ==> l.greeks == Some(ZERO)
    ensures Refusal(a, q, CoveredCall).None? && RefusalAtSize(a, q, CoveredCall, n).None?
  {
    hide Units, NetGreeks, GreekRefusal, Lot;
    Tilted(a, q, 1, 100.0);
    Tilted(a, q, n, 100.0 * n as real);
  }

  lemma Tilted(a: Account, q: Order, n: int, delta: real)
    requires a.held == ZERO && NetGreeks(q.legs, n) == Greeks(delta, 0.0, 0.0, 0.0) && q.spot == 1.0
    requires 0.0 <= delta <= 0.50 * q.nav
    ensures GreekRefusal(a, q, n).None?
  {
    hide NetGreeks, GammaMoney, DeltaMoney;
    DeltaAlone(delta);
    assert Plus(ZERO, Greeks(delta, 0.0, 0.0, 0.0)) == Greeks(delta, 0.0, 0.0, 0.0);
  }

  lemma DeltaAlone(delta: real)
    requires delta >= 0.0
    ensures var g := Greeks(delta, 0.0, 0.0, 0.0); GammaMoney(g, 1.0) == 0.0 && DeltaMoney(g, 1.0) == delta
  {
  }

  lemma CallSize(a: Account, q: Order, n: nat)
    requires n >= 1 && q.nav == 4000.0 * n as real + 2000.0 && q.edge == 0.0 && q.basis == Some(1.0) && !q.wheel
    ensures Contracts(a, q, CoveredCall) == n
  {
    TargetIs(q);
    assert Risk(CoveredCall, q) == Some(100.0);
    hide Risk, Target;
    assert Abs(Target(q)) == 100.0 * n as real + 50.0;
    FitsTimes(Target(q), 100.0, n);
    hide Times;
  }

  // ---------------------------------------------------------------- what funds decide

  /** The gate lets some structure of the producer through iff the caller has buying power or a
      lot of shares to show. */
  lemma FundedIff(f: Funds)
    ensures Funded(f) <==> exists o :: Admits(f, o)
  {
    if f.buyingPower > 0.0 {
      SmallSpreadAdmitted(f);
      assert Admits(f, SmallSpread(f.buyingPower));
    } else if f.shares >= 100 {
      CallsAdmitted(f, 1);
      assert Admits(f, Calls(1));
    } else {
      forall o | Admits(f, o) ensures false {
        UnfundedAdmitsNothing(AccountFor(f, o.structure), Build(o).order);
      }
    }
  }

  /** Some offer for any funds that let one through. */
  function Sample(f: Funds): (o: Offer)
    requires Funded(f)
  {
    if f.buyingPower > 0.0 then SmallSpread(f.buyingPower) else Calls(1)
  }

  lemma SampleAdmitted(f: Funds)
    requires Funded(f)
    ensures Admits(f, Sample(f))
  {
    if f.buyingPower > 0.0 {
      SmallSpreadAdmitted(f);
    } else {
      CallsAdmitted(f, 1);
    }
  }

  /** However many shares are held, some covered call is admitted at a size they do not cover: the
      shares are counted against the structural contract, not the admitted ones. */
  lemma CallsOutrunShares(f: Funds)
    requires f.shares >= 100
    ensures exists o :: Admits(f, o) && o.structure.Covered? && !o.structure.wheel
                        && 100 * Gate(AccountFor(f, o.structure), Build(o).order).value.contracts > f.shares
  {
    CallsAdmitted(f, f.shares);
    assert Admits(f, Calls(f.shares));
  }

  // ---------------------------------------------------------------- debit spreads of any size

  /** A put spread bought for the whole buying power a contract, with a size target of `n`. */
  function DebitSpread(power: real, n: nat): Offer {
    Offer(PutSpread(Flat(2.0, 1.0), Flat(1.0, 1.0 + power / 100.0)), "X", 0, 30, 1.0, 40.0 * Cost(n, power) + 20.0 * power)
  }

  lemma DebitOrder(power: real, n: nat)
    requires power > 0.0
    ensures Build(DebitSpread(power, n)).Ready?
    ensures var q := Build(DebitSpread(power, n)).order;
            && q.legs == [Wing(true, Put), Wing(false, Put)] && q.netCredit == 0.0 && q.netDebit == power / 100.0
            && q.premiumPaid == power && q.spot == 1.0 && q.nav == 40.0 * Cost(n, power) + 20.0 * power
            && q.dte == Some(30) && q.edge == 0.0 && q.event == Clear && !q.wheel && !q.condor
  {
    hide Cost;
  }

  lemma DebitMoney(q: Order, power: real, n: nat)
    requires power > 0.0 && n >= 1 && q.netCredit == 0.0 && q.netDebit == power / 100.0 && q.premiumPaid == power
    ensures MaxLoss(q, 1) == Bpr(DefinedRisk, q, 1) == Bpr(DefinedRisk, q, n) == power
    ensures Cost(n, power) >= power
  {
    CostGrows(1, n, power);
  }

  lemma DebitPasses(a: Account, q: Order, power: real, n: nat)
    requires a == Account(power, 0, ZERO, 0.0, 0, 0.0) && power > 0.0 && n >= 1
    requires q.legs == [Wing(true, Put), Wing(false, Put)] && q.netCredit == 0.0 && q.netDebit == power / 100.0
    requires q.premiumPaid == power && q.spot == 1.0 && q.nav == 40.0 * Cost(n, power) + 20.0 * power
    requires q.dte == Some(30) && q.edge == 0.0 && q.event == Clear && !q.wheel && !q.condor
    ensures Gate(a, q) == Ok(Admission(DefinedRisk, n))
  {
    hide Units, MaxLoss, Bpr, NetGreeks, Classify, HasGreeks, Gate, GreekRefusal, Risk, Target, AllCovered, Cost, Refusal,
      RefusalAtSize, Contracts, Wing, Lot;
    SpreadShape(a, q, 1);
    SpreadShape(a, q, n);
    DebitMoney(q, power, n);
    DebitChecks(a, q, power, n);
    DebitSize(a, q, power, n);
    Passes(a, q, DefinedRisk, n);
  }

  lemma DebitChecks(a: Account, q: Order, power: real, n: nat)
    requires a == Account(power, 0, ZERO, 0.0, 0, 0.0) && power > 0.0 && q.spot == 1.0 && q.nav >= 60.0 * power
    requires q.dte == Some(30) && q.event == Clear && Units(q) == 1
    requires MaxLoss(q, 1) == Bpr(DefinedRisk, q, 1) == Bpr(DefinedRisk, q, n) == power
    requires NetGreeks(q.legs, 1) == NetGreeks(q.legs, n) == Greeks(0.0, 0.0, 0.0, 0.0)
    requires forall l :: l in q.legs && Short(l) ==> l.greeks == Some(ZERO)
    ensures Refusal(a, q, DefinedRisk).None? && RefusalAtSize(a, q, DefinedRisk, n).None?
  {
    hide Units, MaxLoss, Bpr, NetGreeks, GreekRefusal;
    Tilted(a, q, 1, 0.0);
    Tilted(a, q, n, 0.0);
  }

  lemma DebitSize(a: Account, q: Order, power: real, n: nat)
    requires power > 0.0 && q.nav == 40.0 * Cost(n, power) + 20.0 * power && q.nav > 0.0 && q.edge == 0.0
    requires Units(q) == 1 && MaxLoss(q, 1) == power
    ensures Contracts(a, q, DefinedRisk) == n
  {
    assert MaxLoss(q, Units(q)) / Units(q) as real == power by { hide MaxLoss, Units; }
    assert Risk(DefinedRisk, q) == Some(power) by { hide MaxLoss, Units; }
    TargetIs(q);
    assert Cost(n + 1, power) == Cost(n, power) + power && Cost(n, power) >= 0.0 by { OneMore(n, power); }
    hide Risk, Target, MaxLoss, Units, Cost;
    FitsTimes(Target(q), power, n);
    hide Times;
  }

  lemma OneMore(n: nat, x: real)
    requires x > 0.0
    ensures Cost(n + 1, x) == Cost(n, x) + x && Cost(n, x) >= 0.0
  {
    CostGrows(0, n, x);
  }

  /** Any number of bought spreads is admitted on the price of one: the power a debit structure is
      held against does not grow with its size. */
  lemma DebitsOutrunPower(power: real, n: nat)
    requires power > 0.0 && n >= 1
    ensures exists o :: Build(o).Ready? && Build(o).order.premiumPaid == power
                        && Gate(AccountFor(Funds(power, 0), o.structure), Build(o).order) == Ok(Admission(DefinedRisk, n))
  {
    var o := DebitSpread(power, n);
    DebitOrder(power, n);
    assert AccountFor(Funds(power, 0), o.structure) == Account(power, 0, ZERO, 0.0, 0, 0.0);
    hide Build, Gate, Cost;
    DebitPasses(AccountFor(Funds(power, 0), o.structure), Build(o).order, power, n);
  }
}
