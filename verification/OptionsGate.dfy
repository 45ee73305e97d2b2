/** The deterministic options gate: what it admits, at what size, and on what collateral. */
module OptionsGate {
  import opened Prelude
  import opened ByteLines

  // ---------------------------------------------------------------- orders

  datatype Right = Call | Put

  datatype Greeks = Greeks(delta: real, gamma: real, theta: real, vega: real)

  const ZERO := Greeks(0.0, 0.0, 0.0, 0.0)

  function Plus(g: Greeks, h: Greeks): Greeks {
    Greeks(g.delta + h.delta, g.gamma + h.gamma, g.theta + h.theta, g.vega + h.vega)
  }

  /** A share cover, or an option contract; `None` stands for missing, incomplete or unusable
      greeks. */
  datatype Leg =
    | Shares
    | Contract(sold: bool, right: Right, underlying: string, expiry: int, ratio: nat, greeks: Option<Greeks>)

  /** The earnings guard's view: off or clear, a payload without a decision time, or an imminent
      print. */
  datatype Event = Clear | Unanchored | Imminent

  datatype Order = Order(
    condor: bool,
    wheel: bool,
    legs: seq<Leg>,
    spot: real,
    nav: real,
    strike: real,
    width: real,
    netCredit: real,
    netDebit: real,
    premiumReceived: real,
    premiumPaid: real,
    basis: Option<real>,
    dte: Option<int>,
    edge: real,
    event: Event)

  /** What the account brings: broker options buying power, shares of the underlying, the open
      greeks, and what is already reserved. */
  datatype Account = Account(buyingPower: real, shares: int, held: Greeks, bpr: real, strategies: nat,
                             assignmentCash: real)

  datatype Bucket = CoveredCall | CashSecuredPut | DefinedRisk

  datatype Reason =
    | NoGreeks | DoubleUp | TooManyStrategies | Naked | MaxLossCap | BuyingPower | ShortDelta | Gamma | Theta | Vega
    | NetDelta | BprBuffer | UnknownDte | PinRisk | TooShort | Earnings | TooSmall | AssignmentRisk

  datatype Admission = Admission(bucket: Bucket, contracts: int)

  // ---------------------------------------------------------------- classification

  predicate Short(l: Leg) {
    l.Contract? && l.sold
  }

  function ShortRatio(legs: seq<Leg>): nat {
    if legs == [] then 0 else ShortRatio(Front(legs)) + (if Short(Last(legs)) then Last(legs).ratio else 0)
  }

  function ShortLegs(legs: seq<Leg>): nat {
    if legs == [] then 0 else ShortLegs(Front(legs)) + (if Short(Last(legs)) then 1 else 0)
  }

  /** The structural contract count: the short ratios, or one; a balanced condor counts once. */
  function Units(o: Order): (n: nat)
    ensures n >= 1
  {
    var sum := ShortRatio(o.legs);
    if o.condor && ShortLegs(o.legs) == 2 && sum % 2 == 0 then (if sum / 2 == 0 then 1 else sum / 2)
    else if sum == 0 then 1 else sum
  }

  /** A bought leg caps a sold one: same underlying and right, expiring no earlier. */
  predicate Covers(long: Leg, short: Leg)
    requires Short(short)
  {
    long.Contract? && !long.sold && long.underlying == short.underlying && long.right == short.right
    && long.expiry >= short.expiry
  }

  predicate AllCovered(legs: seq<Leg>) {
    forall s :: s in legs && Short(s) ==> exists l :: l in legs && Covers(l, s)
  }

  predicate AllShort(legs: seq<Leg>, right: Right) {
    forall s :: s in legs && Short(s) ==> s.right == right
  }

  /** `None` is the naked terminal. A structure that sells nothing is defined-risk. */
  function Classify(a: Account, o: Order): Option<Bucket> {
    if AllCovered(o.legs) then Some(DefinedRisk)
    else if AllShort(o.legs, Call) then (if a.shares >= 100 * Units(o) then Some(CoveredCall) else None)
    else if AllShort(o.legs, Put) then
      (if a.buyingPower >= Lot(o.strike, Units(o)) then Some(CashSecuredPut) else None)
    else None
  }

  // ---------------------------------------------------------------- money at risk

  /** The money in `n` contracts of a hundred at a price per share. */
  function Lot(x: real, n: int): real {
    x * 100.0 * n as real
  }

  function Cost(n: int, x: real): real {
    n as real * x
  }

  function AtLeastOne(n: int): nat {
    if n < 1 then 1 else n
  }

  /** The closed-form loss of a defined-risk structure. */
  function MaxLoss(o: Order, n: int): real {
    Lot(if o.netDebit > 0.0 then o.netDebit else o.width - o.netCredit, AtLeastOne(n))
  }

  function NonNegative(x: real): real {
    if x < 0.0 then 0.0 else x
  }

  /** What the broker reserves. A debit structure's is what was paid, whatever the size. */
  function Bpr(b: Bucket, o: Order, n: int): real {
    match b
    case CoveredCall => 0.0
    case CashSecuredPut => NonNegative(Lot(o.strike, AtLeastOne(n)) - o.premiumReceived)
    case DefinedRisk =>
      if o.netCredit > 0.0 then NonNegative(Lot(o.width - o.netCredit, AtLeastOne(n))) else o.premiumPaid
  }

  function AssignmentCash(b: Bucket, o: Order, n: int): real {
    match b
    case CashSecuredPut => Lot(o.strike, n)
    case CoveredCall => Lot(if o.basis.Some? then o.basis.value else 0.0, n)
    case DefinedRisk => 0.0
  }

  // ---------------------------------------------------------------- greeks

  predicate HasGreeks(legs: seq<Leg>) {
    forall l :: l in legs && l.Contract? ==> l.greeks.Some?
  }

  /** One leg's share of the net, the share cover rebuilt to the size of the order. */
  function LegGreeks(l: Leg, n: int): Greeks {
    if l.Shares? then Greeks(100.0 * AtLeastOne(n) as real, 0.0, 0.0, 0.0)
    else if l.greeks.None? then ZERO
    else
      var g, units := l.greeks.value, (if l.sold then -1.0 else 1.0) * 100.0 * (l.ratio * AtLeastOne(n)) as real;
      Greeks(g.delta * units, g.gamma * units, g.theta * units, g.vega * units)
  }

  function NetGreeks(legs: seq<Leg>, n: int): Greeks {
    if legs == [] then ZERO else Plus(NetGreeks(Front(legs), n), LegGreeks(Last(legs), n))
  }

  /** What a move of the underlying does to the position, in money. */
  function GammaMoney(g: Greeks, spot: real): (m: real)
    ensures m >= 0.0
  {
    Abs(g.gamma * spot * spot)
  }

  function DeltaMoney(g: Greeks, spot: real): real {
    Abs(g.delta * spot)
  }

  /** The caps that scale with size: portfolio gamma, vega and delta after the order, and its own
      decay. */
  function GreekRefusal(a: Account, o: Order, n: int): Option<Reason> {
    var net := NetGreeks(o.legs, n);
    var after := Plus(a.held, net);
    if GammaMoney(after, o.spot) > 0.05 * o.nav then Some(Gamma)
    else if net.theta < 0.0 && -net.theta > 0.02 * o.nav then Some(Theta)
    else if Abs(after.vega) > 0.10 * o.nav / 100.0 then Some(Vega)
    else if DeltaMoney(after, o.spot) > 0.50 * o.nav then Some(NetDelta)
    else None
  }

  /** The same as bounds. */
  predicate WithinCaps(held: Greeks, net: Greeks, spot: real, nav: real) {
    var after := Plus(held, net);
    && GammaMoney(after, spot) <= 0.05 * nav && Abs(after.vega) <= 0.10 * nav / 100.0
    && DeltaMoney(after, spot) <= 0.50 * nav && -net.theta <= 0.02 * nav
  }

  predicate ShortDeltaTooLarge(legs: seq<Leg>) {
    exists l :: l in legs && Short(l) && l.greeks.Some? && Abs(l.greeks.value.delta) > 0.30
  }

  // ---------------------------------------------------------------- the sequence

  /** The options buying power does not cover a required margin. */
  predicate Underfunded(a: Account, bpr: real) {
    a.buyingPower <= 0.0 || a.buyingPower < bpr
  }

  function DteRefusal(o: Order): Option<Reason> {
    if o.dte.None? then Some(UnknownDte)
    else if o.strike > 0.0 && o.spot > 0.0 && o.dte.value <= 3 && Abs(o.spot - o.strike) / o.spot <= 0.02 then Some(PinRisk)
    else if o.dte.value < 7 then Some(TooShort)
    else None
  }

  predicate LongPremium(net: Greeks) {
    net.theta < 0.0 && net.vega > 0.0
  }

  /** Every check at the structural size. */
  function Refusal(a: Account, o: Order, b: Bucket): Option<Reason> {
    var n := Units(o);
    var bpr, greeks, dte := Bpr(b, o, n), GreekRefusal(a, o, n), DteRefusal(o);
    if b.DefinedRisk? && MaxLoss(o, n) > 0.10 * o.nav then Some(MaxLossCap)
    else if b.DefinedRisk? && Underfunded(a, bpr) then Some(BuyingPower)
    else if ShortDeltaTooLarge(o.legs) then Some(ShortDelta)
    else if greeks.Some? then greeks
    else if a.bpr + bpr > 0.80 * o.nav then Some(BprBuffer)
    else if dte.Some? then dte
    else if o.event.Unanchored? || (o.event.Imminent? && LongPremium(NetGreeks(o.legs, n))) then Some(Earnings)
    else None
  }

  /** What is checked again when the size is not the structural one. */
  function RefusalAtSize(a: Account, o: Order, b: Bucket, n: int): Option<Reason> {
    var bpr, greeks := Bpr(b, o, n), GreekRefusal(a, o, n);
    if greeks.Some? then greeks
    else if a.bpr + bpr > 0.80 * o.nav then Some(BprBuffer)
    else if b.CashSecuredPut? && a.buyingPower < Lot(o.strike, n) then Some(BuyingPower)
    else if b.DefinedRisk? && Underfunded(a, bpr) then Some(BuyingPower)
    else None
  }

  /** An edge may only tighten the quarter. */
  function Kelly(nav: real, edge: real): real {
    nav * (if edge > 0.0 && edge < 0.25 then edge else 0.25) * 0.10
  }

  /** `_round_to_step`. */
  function Stepped(x: real, step: real): real {
    if step <= 0.0 then x else Cost((x / step).Floor, step)
  }

  /** The money the sizing may put at risk: a Kelly fraction of the position cap, stepped down
      unless the step would make it nothing. */
  function Target(o: Order): real {
    var kelly := Kelly(o.nav, o.edge);
    var stepped := Stepped(kelly, 0.05 * o.nav);
    if stepped <= 0.0 then kelly else stepped
  }

  /** What one contract puts at risk, if that is a positive amount. */
  function Risk(b: Bucket, o: Order): Option<real> {
    var x := match b
             case CoveredCall => (if o.basis.Some? then o.basis.value * 100.0 else 0.0)
             case CashSecuredPut => o.strike * 100.0
             case DefinedRisk => MaxLoss(o, Units(o)) / Units(o) as real;
    if x > 0.0 then Some(x) else None
  }

  /** How many times `x` goes into the target, whole. */
  function Times(target: real, x: real): int
    requires x > 0.0
  {
    (Abs(target) / x).Floor
  }

  function Contracts(a: Account, o: Order, b: Bucket): int {
    var risk := Risk(b, o);
    if risk.None? then 0
    else
      var n := Times(Target(o), risk.value);
      if b.CoveredCall? && o.wheel && a.shares / 100 < n then a.shares / 100 else n
  }

  function Gate(a: Account, o: Order): Result<Admission, Reason> {
    if !HasGreeks(o.legs) then Err(NoGreeks)
    else if o.wheel && a.strategies >= 2 then Err(DoubleUp)
    else if !o.wheel && a.strategies >= 1 then Err(TooManyStrategies)
    else
      var b := Classify(a, o);
      if b.None? then Err(Naked)
      else
        var early, n := Refusal(a, o, b.value), Contracts(a, o, b.value);
        if early.Some? then Err(early.value)
        else if n < 1 then Err(TooSmall)
        else
          var late := if n == Units(o) then None else RefusalAtSize(a, o, b.value, n);
          if late.Some? then Err(late.value)
          else if a.assignmentCash + AssignmentCash(b.value, o, n) > 0.20 * o.nav then Err(AssignmentRisk)
          else Ok(Admission(b.value, n))
  }

  // ---------------------------------------------------------------- what an admission means

  /** What every admission has passed. */
  lemma Admitted(a: Account, o: Order)
    requires Gate(a, o).Ok?
    ensures var (b, n) := (Gate(a, o).value.bucket, Gate(a, o).value.contracts);
            && HasGreeks(o.legs) && (!o.wheel ==> a.strategies < 1)
            && Classify(a, o) == Some(b) && n == Contracts(a, o, b) && n >= 1 && Refusal(a, o, b).None?
            && (n == Units(o) || RefusalAtSize(a, o, b, n).None?)
            && a.assignmentCash + AssignmentCash(b, o, n) <= 0.20 * o.nav
  {
    hide Classify, Refusal, RefusalAtSize, Contracts, AssignmentCash, HasGreeks, Units;
  }

  lemma Product(x: real, y: real, z: real)
    requires x <= y && z > 0.0
    ensures x * z <= y * z
  {
  }

  lemma StrictProduct(x: real, y: real, z: real)
    requires x < y && z > 0.0
    ensures x * z < y * z
  {
  }

  /** What an order that passed its checks owes the funds, bucket by bucket. */
  lemma FundsChecked(a: Account, o: Order, b: Bucket)
    requires Refusal(a, o, b).None?
    ensures b.DefinedRisk? ==> !Underfunded(a, Bpr(b, o, Units(o))) && MaxLoss(o, Units(o)) <= 0.10 * o.nav
    ensures GreekRefusal(a, o, Units(o)).None?
  {
    hide GreekRefusal, DteRefusal, MaxLoss, Bpr, Units, Underfunded, ShortDeltaTooLarge, LongPremium, NetGreeks;
  }

  lemma FundsCheckedAtSize(a: Account, o: Order, b: Bucket, n: int)
    requires RefusalAtSize(a, o, b, n).None?
    ensures b.DefinedRisk? ==> !Underfunded(a, Bpr(b, o, n))
    ensures b.CashSecuredPut? ==> a.buyingPower >= Lot(o.strike, n)
    ensures GreekRefusal(a, o, n).None?
  {
    hide GreekRefusal, Bpr, Underfunded;
  }

  lemma Classified(a: Account, o: Order)
    ensures Classify(a, o) == Some(CoveredCall) ==> a.shares >= 100 * Units(o)
    ensures Classify(a, o) == Some(CashSecuredPut) ==> a.buyingPower >= Lot(o.strike, Units(o))
  {
    hide AllCovered, AllShort, Units;
  }

  lemma Worthless(a: Account, o: Order)
    requires a.buyingPower <= 0.0 && a.buyingPower >= Lot(o.strike, Units(o))
    ensures Contracts(a, o, CashSecuredPut) == 0
  {
    if o.strike > 0.0 {
      StrictProduct(0.0, o.strike * 100.0, Units(o) as real);
    }
    hide Units;
  }

  /** Without buying power and a lot of shares nothing is admitted, whatever the structure. */
  lemma UnfundedAdmitsNothing(a: Account, o: Order)
    requires a.buyingPower <= 0.0 && a.shares < 100
    ensures Gate(a, o).Err?
  {
    Classified(a, o);
    if Classify(a, o) == Some(CashSecuredPut) { Worthless(a, o); }
    if Refusal(a, o, DefinedRisk).None? { FundsChecked(a, o, DefinedRisk); }
    assert Classify(a, o) != Some(CoveredCall);
    hide Classify, Refusal, RefusalAtSize, Contracts, AssignmentCash, HasGreeks, Units;
  }

  /** Gamma, vega, delta and decay are within their caps at the size admitted. */
  lemma WithinCapsAtSize(a: Account, o: Order)
    requires Gate(a, o).Ok?
    ensures WithinCaps(a.held, NetGreeks(o.legs, Gate(a, o).value.contracts), o.spot, o.nav)
  {
    Admitted(a, o);
    var (b, n) := (Gate(a, o).value.bucket, Gate(a, o).value.contracts);
    FundsChecked(a, o, b);
    if n != Units(o) { FundsCheckedAtSize(a, o, b, n); }
    hide Gate, WithinCaps, GreekRefusal, Refusal, RefusalAtSize, Classify, Contracts, Units, AssignmentCash;
    GreeksWithin(a, o, n);
  }

  lemma GreeksWithin(a: Account, o: Order, n: int)
    requires GreekRefusal(a, o, n).None?
    ensures WithinCaps(a.held, NetGreeks(o.legs, n), o.spot, o.nav) && o.nav >= 0.0
  {
    hide NetGreeks, GammaMoney, DeltaMoney;
  }

  lemma Whole(x: real)
    ensures x.Floor as real <= x < (x.Floor + 1) as real
  {
  }

  lemma Fits(target: real, x: real)
    requires x > 0.0
    ensures Cost(Times(target, x), x) <= Abs(target) < Cost(Times(target, x) + 1, x)
  {
    Ratio(Abs(target), x);
    WholeFits(Abs(target) / x, x);
    hide Cost;
  }

  lemma WholeFits(q: real, x: real)
    requires x > 0.0
    ensures Cost(q.Floor, x) <= q * x < Cost(q.Floor + 1, x)
  {
    Whole(q);
    Between(q, q.Floor, q.Floor + 1, x);
  }

  lemma Between(q: real, m: int, n: int, x: real)
    requires m as real <= q < n as real && x > 0.0
    ensures Cost(m, x) <= q * x < Cost(n, x)
  {
    Product(m as real, q, x);
    StrictProduct(q, n as real, x);
  }

  lemma KellyIsSmall(nav: real, edge: real)
    requires nav >= 0.0
    ensures 0.0 <= Kelly(nav, edge) <= 0.025 * nav
  {
    var fraction := if edge > 0.0 && edge < 0.25 then edge else 0.25;
    if nav > 0.0 {
      Product(fraction, 0.25, nav);
      StrictProduct(0.0, fraction, nav);
    }
    assert nav * fraction == fraction * nav;
    assert Kelly(nav, edge) == nav * fraction * 0.10;
  }

  lemma SteppedDown(x: real, step: real)
    ensures Stepped(x, step) <= x
  {
    if step > 0.0 {
      Ratio(x, step);
      WholeFits(x / step, step);
    }
  }

  lemma TargetIsSmall(o: Order)
    requires o.nav >= 0.0
    ensures 0.0 <= Target(o) <= 0.025 * o.nav
  {
    KellyIsSmall(o.nav, o.edge);
    SteppedDown(Kelly(o.nav, o.edge), 0.05 * o.nav);
    hide Kelly, Stepped;
  }

  lemma ContractsFit(a: Account, o: Order, b: Bucket)
    requires Contracts(a, o, b) >= 1
    ensures Risk(b, o).Some? && Contracts(a, o, b) <= Times(Target(o), Risk(b, o).value)
    ensures b.CoveredCall? && o.wheel ==> Contracts(a, o, b) <= a.shares / 100
    ensures !(b.CoveredCall? && o.wheel) ==> Contracts(a, o, b) == Times(Target(o), Risk(b, o).value)
  {
    hide Times, Target, Risk;
  }

  /** The gate never sizes up: what the admitted contracts put at risk together is at most a
      quarter of the ten percent position cap. An account without equity is admitted nothing. */
  lemma {:induction false} NeverSizesUp(a: Account, o: Order)
    requires Gate(a, o).Ok?
    ensures var adm := Gate(a, o).value;
            && o.nav > 0.0 && Risk(adm.bucket, o).Some?
            && Cost(adm.contracts, Risk(adm.bucket, o).value) <= 0.025 * o.nav
  {
    Admitted(a, o);
    WithinCapsAtSize(a, o);
    var (b, n) := (Gate(a, o).value.bucket, Gate(a, o).value.contracts);
    ContractsFit(a, o, b);
    var x := Risk(b, o).value;
    assert x > 0.0;
    NavNotNegative(a, o);
    TargetIsSmall(o);
    Fits(Target(o), x);
    assert Cost(1, x) == x;
    hide Gate, Target, Risk, Times, Cost, WithinCaps, Contracts, Classify, Refusal, RefusalAtSize, AssignmentCash, Units,
      NetGreeks;
    CostGrows(n, Times(Target(o), x), x);
    CostGrows(1, n, x);
  }

  lemma NavNotNegative(a: Account, o: Order)
    requires Gate(a, o).Ok?
    ensures o.nav >= 0.0
  {
    Admitted(a, o);
    FundsChecked(a, o, Gate(a, o).value.bucket);
    GreeksWithin(a, o, Units(o));
    hide Gate;
  }

  /** What secures an admitted order at the size admitted: the whole assignment cash, the whole
      loss of a credit structure, the price of one unit of a debit structure, or shares for the
      structural count. */
  lemma AdmittedIsSecured(a: Account, o: Order)
    requires Gate(a, o).Ok?
    ensures var (b, n) := (Gate(a, o).value.bucket, Gate(a, o).value.contracts);
            match b
            case CashSecuredPut => a.buyingPower >= Lot(o.strike, n)
            case CoveredCall => a.shares >= 100 * Units(o) && (o.wheel ==> a.shares >= 100 * n)
            case DefinedRisk =>
              && a.buyingPower > 0.0
              && (o.netCredit > 0.0 ==> a.buyingPower >= Lot(o.width - o.netCredit, n))
              && (o.netCredit <= 0.0 ==> a.buyingPower >= o.premiumPaid)
  {
    Admitted(a, o);
    var (b, n) := (Gate(a, o).value.bucket, Gate(a, o).value.contracts);
    Classified(a, o);
    FundsChecked(a, o, b);
    ContractsFit(a, o, b);
    if n != Units(o) { FundsCheckedAtSize(a, o, b, n); }
    hide Gate, Classify, Refusal, RefusalAtSize, Contracts, Units, Times, Target, Risk, GreekRefusal, Lot, MaxLoss,
      AssignmentCash, HasGreeks;
  }

  /** A covered call is covered at its admitted size iff it is the wheel's, or the sizing target
      does not reach one contract past the shares. */
  lemma CoveredAtSizeIff(a: Account, o: Order)
    requires Gate(a, o).Ok? && Gate(a, o).value.bucket.CoveredCall?
    ensures o.basis.Some? && o.basis.value > 0.0
    ensures a.shares >= 100 * Gate(a, o).value.contracts
            <==> o.wheel || Target(o) < Cost(a.shares / 100 + 1, o.basis.value * 100.0)
  {
    Admitted(a, o);
    AdmittedIsSecured(a, o);
    NavNotNegative(a, o);
    TargetIsSmall(o);
    ContractsFit(a, o, CoveredCall);
    var x, lots, n := o.basis.value * 100.0, a.shares / 100, Gate(a, o).value.contracts;
    assert Risk(CoveredCall, o) == Some(x) && x > 0.0;
    Fits(Target(o), x);
    hide Gate, Contracts, Target, Risk, Units, Times, Cost, Classify, Refusal, RefusalAtSize, AssignmentCash, NetGreeks, Lot;
    if !o.wheel {
      Reaches(Target(o), n, lots, x);
    }
  }

  lemma Reaches(target: real, n: int, lots: int, x: real)
    requires x > 0.0 && Cost(n, x) <= target < Cost(n + 1, x)
    ensures n <= lots <==> target < Cost(lots + 1, x)
  {
    hide Cost;
    if n <= lots {
      CostGrows(n + 1, lots + 1, x);
    } else {
      CostGrows(lots + 1, n, x);
    }
  }

  lemma CostGrows(m: int, n: int, x: real)
    requires m <= n && x > 0.0
    ensures Cost(m, x) <= Cost(n, x)
  {
    Product(m as real, n as real, x);
  }

  /** But for the wheel, whose size follows the shares, more funds change nothing about an
      order that is admitted. */
  lemma MoreFundsSameOrder(a: Account, o: Order, buyingPower: real, shares: int)
    requires Gate(a, o).Ok? && !o.wheel && buyingPower >= a.buyingPower && shares >= a.shares
    ensures Gate(a.(buyingPower := buyingPower, shares := shares), o) == Gate(a, o)
  {
    Admitted(a, o);
    var (b, n) := (Gate(a, o).value.bucket, Gate(a, o).value.contracts);
    var c := a.(buyingPower := buyingPower, shares := shares);
    SameChecks(a, c, o, b, n);
    hide Gate;
    hide Classify, Refusal, RefusalAtSize, Contracts, AssignmentCash, Units;
    Passes(c, o, b, n);
    Passes(a, o, b, n);
  }

  lemma Passes(a: Account, o: Order, b: Bucket, n: int)
    requires HasGreeks(o.legs) && !o.wheel && a.strategies < 1 && Classify(a, o) == Some(b) && n == Contracts(a, o, b)
    requires n >= 1 && Refusal(a, o, b).None? && (n == Units(o) || RefusalAtSize(a, o, b, n).None?)
    requires a.assignmentCash + AssignmentCash(b, o, n) <= 0.20 * o.nav
    ensures Gate(a, o) == Ok(Admission(b, n))
  {
    hide Classify, Refusal, RefusalAtSize, Contracts, AssignmentCash, HasGreeks, Units;
  }

  lemma SameChecks(a: Account, c: Account, o: Order, b: Bucket, n: int)
    requires c == a.(buyingPower := c.buyingPower, shares := c.shares) && !o.wheel
    requires c.buyingPower >= a.buyingPower && c.shares >= a.shares
    requires Classify(a, o) == Some(b) && Refusal(a, o, b).None?
    ensures Classify(c, o) == Some(b) && Refusal(c, o, b).None? && Contracts(c, o, b) == Contracts(a, o, b)
    ensures RefusalAtSize(a, o, b, n).None? ==> RefusalAtSize(c, o, b, n).None?
  {
    assert GreekRefusal(c, o, Units(o)) == GreekRefusal(a, o, Units(o)) && GreekRefusal(c, o, n) == GreekRefusal(a, o, n);
    hide GreekRefusal, DteRefusal, MaxLoss, Bpr, Units, AllCovered, AllShort, Target, Risk, Times, NetGreeks, LongPremium,
      ShortDeltaTooLarge, Lot;
  }

  // ---------------------------------------------------------------- the gate as one condition

  /** The collateral that admits an order to its bucket. A short option that a bought one does not
      cover needs the shares, or the cash to be assigned. */
  predicate Collateralised(a: Account, o: Order, b: Bucket) {
    var covered := forall s :: s in o.legs && s.Contract? && s.sold ==>
                     exists l :: l in o.legs && l.Contract? && !l.sold && l.underlying == s.underlying
                                 && l.right == s.right && l.expiry >= s.expiry;
    var calls := forall s :: s in o.legs && s.Contract? && s.sold ==> s.right == Call;
    var puts := forall s :: s in o.legs && s.Contract? && s.sold ==> s.right == Put;
    match b
    case DefinedRisk => covered
    case CoveredCall => !covered && calls && a.shares >= 100 * Units(o)
    case CashSecuredPut => !covered && !calls && puts && a.buyingPower >= o.strike * 100.0 * Units(o) as real
  }

  /** The funds, the reserve and the greeks at a size. */
  predicate FitsAt(a: Account, o: Order, b: Bucket, n: int) {
    && (b.DefinedRisk? ==> a.buyingPower > 0.0 && a.buyingPower >= Bpr(b, o, n))
    && (b.CashSecuredPut? ==> a.buyingPower >= o.strike * 100.0 * n as real)
    && a.bpr + Bpr(b, o, n) <= 0.80 * o.nav
    && WithinCaps(a.held, NetGreeks(o.legs, n), o.spot, o.nav)
  }

  /** Every short contract is far from the money, the order has a week to go, and no print is near
      that would take the premium it pays for. */
  predicate WellTimed(o: Order) {
    && (forall l :: l in o.legs && l.Contract? && l.sold && l.greeks.Some? ==> -0.30 <= l.greeks.value.delta <= 0.30)
    && o.dte.Some? && o.dte.value >= 7
    && !o.event.Unanchored?
    && (o.event.Imminent? ==> var net := NetGreeks(o.legs, Units(o)); net.theta >= 0.0 || net.vega <= 0.0)
  }

  predicate Admissible(a: Account, o: Order, b: Bucket, n: int) {
    && (forall l :: l in o.legs && l.Contract? ==> l.greeks.Some?)
    && a.strategies <= (if o.wheel then 1 else 0)
    && Collateralised(a, o, b) && WellTimed(o)
    && (b.DefinedRisk? ==> MaxLoss(o, Units(o)) <= 0.10 * o.nav)
    && FitsAt(a, o, b, Units(o)) && FitsAt(a, o, b, n)
    && n == Contracts(a, o, b) && n >= 1
    && a.assignmentCash + AssignmentCash(b, o, n) <= 0.20 * o.nav
  }

  lemma CollateralIff(a: Account, o: Order, b: Bucket)
    ensures Classify(a, o) == Some(b) <==> Collateralised(a, o, b)
  {
    assert AllCovered(o.legs) <==> forall s :: s in o.legs && s.Contract? && s.sold ==>
        exists l :: l in o.legs && l.Contract? && !l.sold && l.underlying == s.underlying && l.right == s.right
                    && l.expiry >= s.expiry by {
      forall s | s in o.legs && Short(s)
        ensures (exists l :: l in o.legs && Covers(l, s))
           <==> exists l :: l in o.legs && l.Contract? && !l.sold && l.underlying == s.underlying && l.right == s.right
                            && l.expiry >= s.expiry
      {
        if l :| l in o.legs && Covers(l, s) {
          assert l.Contract? && !l.sold;
        }
        if l :| l in o.legs && l.Contract? && !l.sold && l.underlying == s.underlying && l.right == s.right
                && l.expiry >= s.expiry {
          assert Covers(l, s);
        }
      }
    }
    assert AllShort(o.legs, Call) <==> forall s :: s in o.legs && s.Contract? && s.sold ==> s.right == Call;
    assert AllShort(o.legs, Put) <==> forall s :: s in o.legs && s.Contract? && s.sold ==> s.right == Put;
    hide AllCovered, AllShort, Units;
  }

  lemma CapsIff(a: Account, o: Order, n: int)
    ensures GreekRefusal(a, o, n).None? <==> WithinCaps(a.held, NetGreeks(o.legs, n), o.spot, o.nav)
  {
    if GreekRefusal(a, o, n).None? { GreeksWithin(a, o, n); }
    hide NetGreeks;
    NavFromCaps(a.held, NetGreeks(o.legs, n), o.spot, o.nav);
  }

  lemma NavFromCaps(held: Greeks, net: Greeks, spot: real, nav: real)
    ensures WithinCaps(held, net, spot, nav) ==> nav >= 0.0
  {
    hide GammaMoney, DeltaMoney;
  }

  lemma RefusalIff(a: Account, o: Order, b: Bucket)
    requires Collateralised(a, o, b)
    ensures Refusal(a, o, b).None? <==>
              WellTimed(o) && (b.DefinedRisk? ==> MaxLoss(o, Units(o)) <= 0.10 * o.nav) && FitsAt(a, o, b, Units(o))
  {
    CapsIff(a, o, Units(o));
    TimedIff(o);
    hide GreekRefusal, DteRefusal, MaxLoss, Bpr, Units, ShortDeltaTooLarge, LongPremium, NetGreeks, WithinCaps, WellTimed;
  }

  lemma TimedIff(o: Order)
    ensures WellTimed(o) <==>
              && !ShortDeltaTooLarge(o.legs) && DteRefusal(o).None?
              && !(o.event.Unanchored? || (o.event.Imminent? && LongPremium(NetGreeks(o.legs, Units(o)))))
  {
    hide NetGreeks, Units;
  }

  lemma RefusalAtSizeIff(a: Account, o: Order, b: Bucket, n: int)
    ensures RefusalAtSize(a, o, b, n).None? <==> FitsAt(a, o, b, n)
  {
    CapsIff(a, o, n);
    hide GreekRefusal, Bpr, NetGreeks, WithinCaps;
  }

  lemma GateIff(a: Account, o: Order, b: Bucket, n: int)
    ensures Gate(a, o) == Ok(Admission(b, n)) <==>
              && HasGreeks(o.legs) && a.strategies <= (if o.wheel then 1 else 0)
              && Classify(a, o) == Some(b) && Refusal(a, o, b).None? && n == Contracts(a, o, b) && n >= 1
              && (n == Units(o) || RefusalAtSize(a, o, b, n).None?)
              && a.assignmentCash + AssignmentCash(b, o, n) <= 0.20 * o.nav
  {
    hide Classify, Refusal, RefusalAtSize, Contracts, AssignmentCash, HasGreeks, Units;
  }

  /** The gate admits exactly what meets every one of its rules, at the structural size and at the
      size admitted, whatever the order in which it looks. */
  lemma AdmittedIff(a: Account, o: Order, b: Bucket, n: int)
    ensures Gate(a, o) == Ok(Admission(b, n)) <==> Admissible(a, o, b, n)
  {
    hide Gate, Classify, Refusal, RefusalAtSize, Contracts, Units, AssignmentCash, MaxLoss, FitsAt, WellTimed, Collateralised;
    GateIff(a, o, b, n);
    CollateralIff(a, o, b);
    if Collateralised(a, o, b) {
      RefusalIff(a, o, b);
      RefusalAtSizeIff(a, o, b, n);
    }
  }

  /** The money put at risk is a tenth of NAV times the edge, or times a quarter where the edge is
      none or wider: the step it is rounded down to is wider than that, so it never rounds. */
  lemma TargetIs(o: Order)
    requires o.nav > 0.0
    ensures Target(o) == o.nav * 0.10 * (if 0.0 < o.edge < 0.25 then o.edge else 0.25)
  {
    var f := if 0.0 < o.edge < 0.25 then o.edge else 0.25;
    var k, step := Kelly(o.nav, o.edge), 0.05 * o.nav;
    KellyIsSmall(o.nav, o.edge);
    LessThanAStep(k, step);
    assert k == o.nav * f * 0.10;
    Commutes(o.nav, f);
    hide Kelly, Stepped;
  }

  lemma Commutes(x: real, y: real)
    ensures x * y * 0.10 == x * 0.10 * y
  {
  }

  lemma LessThanAStep(x: real, step: real)
    requires 0.0 <= x < step
    ensures Stepped(x, step) == 0.0
  {
    Ratio(x, step);
    var q := x / step;
    if q >= 1.0 { Product(1.0, q, step); }
    Whole(q);
    assert Cost(0, step) == 0.0;
  }

  /** The admitted number is the largest the target pays for; the wheel's is also held to its
      shares. */
  lemma ContractsAreLargest(a: Account, o: Order, b: Bucket)
    requires o.nav > 0.0 && Risk(b, o).Some?
    ensures var n, x := Contracts(a, o, b), Risk(b, o).value;
            && Cost(n, x) <= Target(o)
            && (b.CoveredCall? && o.wheel ==> n <= a.shares / 100)
            && (Target(o) < Cost(n + 1, x) || (b.CoveredCall? && o.wheel && n == a.shares / 100))
  {
    var x := Risk(b, o).value;
    assert x > 0.0;
    TargetIsSmall(o);
    Fits(Target(o), x);
    hide Target, Risk, Times, Cost;
    var n := Contracts(a, o, b);
    if n < Times(Target(o), x) { CostGrows(n, Times(Target(o), x), x); }
  }

  // ---------------------------------------------------------------- margins, greeks and counts

  /** What the broker holds: nothing for covered calls, the strike less the premium for a put, the
      width less the credit for a credit structure, the price of one unit for a debit one. */
  lemma MarginTells(o: Order, n: int)
    requires n >= 1
    ensures Bpr(CoveredCall, o, n) == 0.0
    ensures o.strike * 100.0 * n as real >= o.premiumReceived ==>
              Bpr(CashSecuredPut, o, n) + o.premiumReceived == o.strike * 100.0 * n as real
    ensures o.netCredit > 0.0 && o.width >= o.netCredit ==>
              Bpr(DefinedRisk, o, n) == (o.width - o.netCredit) * 100.0 * n as real
    ensures o.netCredit <= 0.0 ==> Bpr(DefinedRisk, o, n) == o.premiumPaid
    ensures AssignmentCash(CashSecuredPut, o, n) == o.strike * 100.0 * n as real && AssignmentCash(DefinedRisk, o, n) == 0.0
    ensures o.basis.Some? ==> AssignmentCash(CoveredCall, o, n) == o.basis.value * 100.0 * n as real
  {
    if o.width >= o.netCredit { CreditPart(o.width - o.netCredit, n); }
  }

  lemma CreditPart(x: real, n: int)
    requires x >= 0.0 && n >= 1
    ensures x * 100.0 * n as real >= 0.0
  {
  }

  lemma {:induction false} GreeksAdd(a: seq<Leg>, b: seq<Leg>, n: int)
    ensures NetGreeks(a + b, n) == Plus(NetGreeks(a, n), NetGreeks(b, n))
  {
    hide LegGreeks;
    if b == [] {
      assert a + b == a;
    } else {
      FrontOfConcat(a, b);
      GreeksAdd(a, Front(b), n);
    }
  }

  /** A contract counts a hundred times its ratio and the size, against the account when it is sold;
      a share cover counts a hundred shares a contract and nothing else. */
  lemma LegTells(l: Leg, n: int)
    requires n >= 1
    ensures l.Shares? ==> LegGreeks(l, n) == Greeks(100.0 * n as real, 0.0, 0.0, 0.0)
    ensures l.Contract? && l.greeks.Some? ==>
              var g, u, s := l.greeks.value, 100.0 * (l.ratio * n) as real, if l.sold then -1.0 else 1.0;
              LegGreeks(l, n) == Greeks(s * (g.delta * u), s * (g.gamma * u), s * (g.theta * u), s * (g.vega * u))
  {
    if l.Contract? && l.greeks.Some? {
      var g, u, s := l.greeks.value, 100.0 * (l.ratio * n) as real, if l.sold then -1.0 else 1.0;
      Turned(g.delta, u, s);
      Turned(g.gamma, u, s);
      Turned(g.theta, u, s);
      Turned(g.vega, u, s);
    }
  }

  lemma Turned(g: real, u: real, s: real)
    ensures g * (s * u) == s * (g * u)
  {
  }

  /** The structural count is the number of contracts sold; one where none is sold, and half where a
      condor sells two legs that make an even number. */
  lemma UnitsTell(o: Order)
    ensures var sold := ShortRatio(o.legs);
            && (sold == 0 ==> Units(o) == 1)
            && (o.condor && ShortLegs(o.legs) == 2 && sold % 2 == 0 && sold > 0 ==> 2 * Units(o) == sold)
            && (sold > 0 && !(o.condor && ShortLegs(o.legs) == 2 && sold % 2 == 0) ==> Units(o) == sold)
  {
  }
}
