/** One autonomous tick past its lock: size each signal, enforce the rails, fire, account. */
module TickRails {
  import opened Prelude
  import opened ByteLines
  import opened OptionsRecipes

  // ---------------------------------------------------------------- configuration

  datatype Caps = Caps(gross: real, net: real, cashReserve: real)

  /** The operator's rails after their guards: counts at least one, thresholds positive. `funds` is
      what the tick shows the options gate, `UNFUNDED` in the code. */
  datatype Rails = Rails(
    perTick: nat,
    concurrent: nat,
    requireStop: bool,
    stoplessLimit: real,
    silenceStopless: bool,
    caps: Option<Caps>,
    variance: bool,
    admissibility: bool,
    options: bool,
    funds: Funds,
    dryRun: bool)

  predicate RailsOk(r: Rails) {
    r.perTick >= 1 && r.concurrent >= 1 && r.stoplessLimit > 0.0
    && (r.caps.Some? ==> r.caps.value.gross > 0.0 && r.caps.value.net >= 0.0 && 0.0 <= r.caps.value.cashReserve < 1.0)
  }

  // ---------------------------------------------------------------- what the tick is told

  /** How an admitted structure ended: not filled, booked, or an exception after it was. What is
      booked hides symbols from the book the cap reads. */
  datatype Ending = Declined | Booked(hidden: set<string>) | Broken(hidden: set<string>)

  /** The options attempt: nothing to offer, or a structure and how it ends if the gate admits it. */
  datatype Attempt = Abstains | Offers(offer: Offer, ending: Ending)

  /** What the attempt comes to. */
  datatype Origination = Abstained(hidden: set<string>) | Rejected | Unfilled | Originated(hidden: set<string>)

  /** How the reactor ended. An exception may have a fill behind it; the size invariant is refused
      before anything happens. */
  datatype React = NoFill | Invariant | Raised(hidden: bool) | Filled(realized: Option<real>)

  datatype Look =
    | AdvisorFailed
    | Seen(attempt: Attempt, fired: bool, kelly: real, haircut: Option<real>, stopless: bool,
           verdict: Option<real>, react: React)

  datatype View = View(symbol: string, look: Look)

  datatype Gate =
    | AdvisorError | OptionsReject | OptionsNoFill | OptionsFired | GateSilence | PerTickCap | ConcurrentCap
    | NoStopLoss | PortfolioCap | Admissibility | ReactorNoFill | FillSizeInvariant | ReactError | Fired

  type Book = map<string, real>

  /** The tick's own variables. */
  datatype Tick = Tick(
    firesThisTick: nat,
    fires: nat,
    silences: nat,
    errors: nat,
    decisions: seq<(string, Gate)>,
    openSymbols: set<string>,
    openCount: nat,
    readFailed: bool,
    stopped: set<string>,
    headroom: Book)

  // ---------------------------------------------------------------- exposure

  ghost function Gross(b: Book): real
    decreases |b|
  {
    if b == map[] then 0.0
    else
      var k :| k in b;
      Abs(b[k]) + Gross(b - {k})
  }

  ghost function NetOf(b: Book): real
    decreases |b|
  {
    if b == map[] then 0.0
    else
      var k :| k in b;
      b[k] + NetOf(b - {k})
  }

  lemma {:induction false} GrossWithout(b: Book, k: string)
    requires k in b
    ensures Gross(b) == Abs(b[k]) + Gross(b - {k})
    decreases |b|
  {
    var c :| c in b && Gross(b) == Abs(b[c]) + Gross(b - {c});
    if c != k {
      GrossWithout(b - {c}, k);
      GrossWithout(b - {k}, c);
      assert b - {c} - {k} == b - {k} - {c};
    }
  }

  /** Setting one target adds at most its magnitude. */
  lemma GrossSet(b: Book, k: string, x: real)
    ensures Gross(b[k := x]) <= Gross(b) + Abs(x)
  {
    GrossWithout(b[k := x], k);
    assert b[k := x] - {k} == b - {k};
    if k in b {
      GrossWithout(b, k);
    } else {
      assert b - {k} == b;
    }
  }

  // ---------------------------------------------------------------- sizing

  /** The portfolio de-lever: taken only if it does not enlarge. */
  function DeLevered(r: Rails, kelly: real, haircut: Option<real>): real {
    if r.variance && kelly != 0.0 && haircut.Some? && Abs(haircut.value) <= Abs(kelly) then haircut.value else kelly
  }

  /** The backstop against a stopless full-size fire. */
  function Backstop(r: Rails, stopless: bool, size: real): Option<real> {
    if !r.requireStop || !stopless || Abs(size) <= r.stoplessLimit then Some(size)
    else if r.silenceStopless then None
    else Some(if size < 0.0 then -r.stoplessLimit else r.stoplessLimit)
  }

  /** `clip_one_to_remaining_headroom`, on the running gross and net. */
  function Clip(caps: Caps, gross: real, net: real, target: real): Option<real> {
    var sign := if target > 0.0 then 1.0 else -1.0;
    var gRoom, cRoom := caps.gross - gross, 1.0 - caps.cashReserve - gross;
    if target == 0.0 || gRoom <= 0.0 || cRoom <= 0.0 then None
    else
      var bound := Abs(net + target) > caps.net;
      var room := sign * caps.net - net;
      if bound && room * sign <= 0.0 then None
      else
        var requested := if bound then Min(Abs(target), Abs(room)) else Abs(target);
        var accepted := Min(requested, Min(gRoom, cRoom));
        if accepted <= 0.0 then None else Some(sign * accepted)
  }

  /** The room a pick in a direction has under each cap. */
  function Room(caps: Caps, gross: real, net: real, sign: real): real {
    Min(Min(caps.gross - gross, 1.0 - caps.cashReserve - gross), caps.net - sign * net)
  }

  /** The clip is the largest size in the target's direction that breaks no cap: it is silenced
      iff there is none, and shrunk only onto a cap. */
  lemma ClipIsMaximal(caps: Caps, gross: real, net: real, target: real)
    requires target != 0.0
    ensures var c := Clip(caps, gross, net, target);
            var room := Room(caps, gross, net, if target > 0.0 then 1.0 else -1.0);
            && (c.None? <==> room <= 0.0)
            && (c.Some? ==> Abs(c.value) == Min(Abs(target), room) && (c.value > 0.0 <==> target > 0.0))
  {
  }

  lemma ClipFacts(caps: Caps, gross: real, net: real, target: real)
    ensures var c := Clip(caps, gross, net, target);
            c.Some? ==>
              && 0.0 < Abs(c.value) <= Abs(target)
              && gross + Abs(c.value) <= caps.gross && gross + Abs(c.value) <= 1.0 - caps.cashReserve
              && (c.value > 0.0 <==> target > 0.0)
  {
  }

  /** The size that reaches the reactor, or the gate that silences it. */
  ghost function SizeFor(r: Rails, headroom: Book, l: Look): Result<real, Gate>
    requires l.Seen?
  {
    var backed := Backstop(r, l.stopless, DeLevered(r, l.kelly, l.haircut));
    if backed.None? then Err(NoStopLoss)
    else
      var clipped := if r.caps.None? then backed else Clip(r.caps.value, Gross(headroom), NetOf(headroom), backed.value);
      if clipped.None? then Err(PortfolioCap)
      else if !r.admissibility || clipped.value >= 0.0 then Ok(clipped.value)
      else if l.verdict.None? then Err(Admissibility)
      else Ok(l.verdict.value)
  }

  /** The admissibility check may only shrink what it admits. */
  predicate VerdictShrinks(l: Look, size: real)
    requires l.Seen?
  {
    l.verdict.Some? ==> Abs(l.verdict.value) <= Abs(size)
  }

  ghost predicate LookOk(r: Rails, headroom: Book, l: Look)
    requires l.Seen?
  {
    var backed := Backstop(r, l.stopless, DeLevered(r, l.kelly, l.haircut));
    r.admissibility && backed.Some? ==>
      var clipped := if r.caps.None? then backed else Clip(r.caps.value, Gross(headroom), NetOf(headroom), backed.value);
      clipped.Some? ==> VerdictShrinks(l, clipped.value)
  }

  ghost predicate SizeBounded(r: Rails, headroom: Book, l: Look, size: real)
    requires l.Seen?
  {
    && Abs(size) <= Abs(l.kelly)
    && (r.requireStop && l.stopless ==> Abs(size) <= r.stoplessLimit)
    && (r.caps.Some? ==> Gross(headroom) + Abs(size) <= Min(r.caps.value.gross, 1.0 - r.caps.value.cashReserve))
  }

  /** No stage enlarges: the size is within the advisor's, within the stopless band when the
      stop is missing and required, and within the headroom when the caps are on. */
  lemma SizeWithinBounds(r: Rails, headroom: Book, l: Look)
    requires l.Seen? && RailsOk(r) && LookOk(r, headroom, l)
    ensures SizeFor(r, headroom, l).Ok? ==> SizeBounded(r, headroom, l, SizeFor(r, headroom, l).value)
  {
    var backed := Backstop(r, l.stopless, DeLevered(r, l.kelly, l.haircut));
    if backed.Some? && r.caps.Some? {
      ClipFacts(r.caps.value, Gross(headroom), NetOf(headroom), backed.value);
    }
  }

  /** The advisor's size, or the portfolio's smaller one. */
  predicate Delevers(r: Rails, l: Look)
    requires l.Seen?
  {
    r.variance && l.kelly != 0.0 && l.haircut.Some? && Abs(l.haircut.value) <= Abs(l.kelly)
  }

  /** Where the caps bind: the largest size towards the target that breaks none, if there is one. */
  ghost predicate Capped(r: Rails, headroom: Book, target: real, size: Option<real>) {
    if r.caps.None? then size == Some(target)
    else
      var sign := if target > 0.0 then 1.0 else -1.0;
      var room := Room(r.caps.value, Gross(headroom), NetOf(headroom), sign);
      if target == 0.0 || room <= 0.0 then size == None
      else size == Some(sign * Min(Abs(target), room))
  }

  /** Only a sale asks the admissibility check, which refuses it or has the last word on its size. */
  predicate Checked(r: Rails, l: Look, size: real, s: Result<real, Gate>)
    requires l.Seen?
  {
    if !r.admissibility || size >= 0.0 then s == Ok(size)
    else if l.verdict.None? then s == Err(Admissibility)
    else s == Ok(l.verdict.value)
  }

  /** Every stage says exactly what it does: what it takes, what it refuses and with what gate. */
  ghost predicate Staged(r: Rails, headroom: Book, l: Look, s: Result<real, Gate>)
    requires l.Seen?
  {
    var want := if Delevers(r, l) then l.haircut.value else l.kelly;
    var over := r.requireStop && l.stopless && Abs(want) > r.stoplessLimit;
    if over && r.silenceStopless then s == Err(NoStopLoss)
    else
      var target := if !over then want else if want < 0.0 then -r.stoplessLimit else r.stoplessLimit;
      && (Capped(r, headroom, target, None) ==> s == Err(PortfolioCap))
      && forall size :: Capped(r, headroom, target, Some(size)) ==> Checked(r, l, size, s)
  }

  lemma ClipIsCapped(r: Rails, headroom: Book, target: real)
    ensures var size := if r.caps.None? then Some(target) else Clip(r.caps.value, Gross(headroom), NetOf(headroom), target);
            Capped(r, headroom, target, size) && forall other :: Capped(r, headroom, target, other) ==> other == size
  {
    hide Gross, NetOf, Room;
    if r.caps.Some? && target != 0.0 {
      ClipIsMaximal(r.caps.value, Gross(headroom), NetOf(headroom), target);
    }
  }

  lemma SizeIsStaged(r: Rails, headroom: Book, l: Look)
    requires l.Seen?
    ensures Staged(r, headroom, l, SizeFor(r, headroom, l))
  {
    hide Capped, Clip, Gross, NetOf, Abs;
    var backed := Backstop(r, l.stopless, DeLevered(r, l.kelly, l.haircut));
    if backed.Some? { ClipIsCapped(r, headroom, backed.value); }
  }

  /** A stage that has nothing to object leaves the advisor's size alone. */
  lemma SizeIsKellyUnlessBound(r: Rails, headroom: Book, l: Look)
    requires l.Seen? && RailsOk(r) && (r.variance ==> l.haircut.None? || l.haircut == Some(l.kelly))
    requires r.requireStop && l.stopless ==> Abs(l.kelly) <= r.stoplessLimit
    requires r.caps.Some? ==>
               && l.kelly != 0.0
               && Abs(l.kelly) <= Room(r.caps.value, Gross(headroom), NetOf(headroom), if l.kelly > 0.0 then 1.0 else -1.0)
    requires r.admissibility && l.kelly < 0.0 ==> l.verdict == Some(l.kelly)
    ensures SizeFor(r, headroom, l) == Ok(l.kelly)
  {
    hide Gross, NetOf, Clip, Room;
    if r.caps.Some? { ClipIsMaximal(r.caps.value, Gross(headroom), NetOf(headroom), l.kelly); }
  }

  // ---------------------------------------------------------------- one signal

  /** What the reactor's realised size is worth to the running headroom. */
  function Charged(size: real, realized: Option<real>): real {
    if realized.Some? && Abs(realized.value) <= Abs(size) then realized.value else size
  }

  function Silenced(t: Tick, symbol: string, gate: Gate): Tick {
    t.(silences := t.silences + 1, decisions := t.decisions + [(symbol, gate)])
  }

  function Failed(t: Tick, symbol: string, gate: Gate): Tick {
    t.(errors := t.errors + 1, decisions := t.decisions + [(symbol, gate)])
  }

  function FiredAt(r: Rails, t: Tick, symbol: string, size: real): Tick {
    t.(firesThisTick := t.firesThisTick + 1, fires := t.fires + 1, decisions := t.decisions + [(symbol, Fired)],
       headroom := if r.caps.Some? then t.headroom[symbol := size] else t.headroom)
  }

  function AfterReact(r: Rails, t: Tick, symbol: string, size: real, react: React): Tick {
    if r.dryRun then FiredAt(r, t, symbol, size)
    else
      match react
      case NoFill => Silenced(t, symbol, ReactorNoFill)
      case Invariant => Silenced(t, symbol, FillSizeInvariant)
      case Raised(_) => Failed(t, symbol, ReactError)
      case Filled(realized) => FiredAt(r, t, symbol, Charged(size, realized))
  }

  predicate IsNew(t: Tick, symbol: string) {
    symbol !in t.openSymbols
  }

  predicate AtConcurrentCap(r: Rails, t: Tick) {
    t.readFailed || t.openCount + t.firesThisTick >= r.concurrent
  }

  /** Whether a gated signal may go on to sizing. */
  function Admission(r: Rails, t: Tick, symbol: string, fired: bool): Option<Gate> {
    if !fired then Some(GateSilence)
    else if t.firesThisTick >= r.perTick then Some(PerTickCap)
    else if IsNew(t, symbol) && AtConcurrentCap(r, t) then Some(ConcurrentCap)
    else None
  }

  ghost function AfterEquity(r: Rails, t: Tick, symbol: string, l: Look): Tick
    requires l.Seen?
  {
    var stop := Admission(r, t, symbol, l.fired);
    if stop.Some? then Silenced(t, symbol, stop.value)
    else
      match SizeFor(r, t.headroom, l)
      case Err(gate) => Silenced(t, symbol, gate)
      case Ok(size) => AfterReact(r, t, symbol, size, l.react)
  }

  /** Options are tried first, live only, and under the per-tick cap alone. */
  predicate TriesOptions(r: Rails, t: Tick) {
    r.options && !r.dryRun && t.firesThisTick < r.perTick
  }

  /** The builder may raise or refuse, the gate decides, and the ending is what it is. */
  function OriginationOf(r: Rails, a: Attempt): Origination {
    if a.Abstains? || Build(a.offer).Degenerate? then Abstained({})
    else if !Admits(r.funds, a.offer) then Rejected
    else
      match a.ending
      case Declined => Unfilled
      case Booked(hidden) => Originated(hidden)
      case Broken(hidden) => Abstained(hidden)
  }

  /** Without funds to show, nothing is originated and nothing hidden, whatever is offered. */
  lemma UnfundedOriginatesNothing(r: Rails, a: Attempt)
    requires !Funded(r.funds)
    ensures OriginationOf(r, a) == Abstained({}) || OriginationOf(r, a) == Rejected
  {
    FundedIff(r.funds);
    hide Admits, Build;
  }

  function AfterOptions(t: Tick, symbol: string, o: Origination): Tick {
    match o
    case Abstained(_) => t
    case Rejected => t.(decisions := t.decisions + [(symbol, OptionsReject)])
    case Unfilled => Silenced(t, symbol, OptionsNoFill)
    case Originated(_) =>
      t.(firesThisTick := t.firesThisTick + 1, fires := t.fires + 1, openSymbols := t.openSymbols + {symbol},
         decisions := t.decisions + [(symbol, OptionsFired)])
  }

  ghost function Step(r: Rails, t: Tick, v: View): Tick {
    if v.symbol in t.stopped then t
    else if v.look.AdvisorFailed? then Failed(t, v.symbol, AdvisorError)
    else if TriesOptions(r, t) then
      var u := AfterOptions(t, v.symbol, OriginationOf(r, v.look.attempt));
      if OriginationOf(r, v.look.attempt).Originated? then u else AfterEquity(r, u, v.symbol, v.look)
    else AfterEquity(r, t, v.symbol, v.look)
  }

  ghost function Steps(r: Rails, t: Tick, views: seq<View>): Tick {
    if views == [] then t else Step(r, Steps(r, t, Front(views)), Last(views))
  }

  // ---------------------------------------------------------------- what one signal puts in the book

  /** Symbols that enter the real book, and those of them the rails did not count. */
  datatype Entered = Entered(all: set<string>, uncounted: set<string>)

  const NOTHING := Entered({}, {})

  function ReactEnters(r: Rails, symbol: string, react: React): Entered {
    if r.dryRun then NOTHING
    else
      match react
      case NoFill => NOTHING
      case Invariant => NOTHING
      case Raised(hidden) => if hidden then Entered({symbol}, {symbol}) else NOTHING
      case Filled(_) => Entered({symbol}, {})
  }

  ghost function EquityEnters(r: Rails, t: Tick, symbol: string, l: Look): Entered
    requires l.Seen?
  {
    if Admission(r, t, symbol, l.fired).Some? || SizeFor(r, t.headroom, l).Err? then NOTHING
    else ReactEnters(r, symbol, l.react)
  }

  /** A fired family adds nothing, but exempts its symbol from the concurrent cap. */
  ghost function Enters(r: Rails, t: Tick, v: View): Entered {
    if v.symbol in t.stopped || v.look.AdvisorFailed? then NOTHING
    else if TriesOptions(r, t) && OriginationOf(r, v.look.attempt).Originated? then Entered({}, {v.symbol})
    else if TriesOptions(r, t) then EquityEnters(r, AfterOptions(t, v.symbol, OriginationOf(r, v.look.attempt)), v.symbol, v.look)
    else EquityEnters(r, t, v.symbol, v.look)
  }

  /** What one signal hides from the book that the cap reads. */
  function Hidden(r: Rails, t: Tick, v: View): set<string> {
    if v.symbol in t.stopped || v.look.AdvisorFailed? || !TriesOptions(r, t) then {}
    else
      match OriginationOf(r, v.look.attempt)
      case Abstained(hidden) => hidden
      case Originated(hidden) => hidden
      case _ => {}
  }

  // ---------------------------------------------------------------- summing the positions

  lemma {:induction false} NetWithout(b: Book, k: string)
    requires k in b
    ensures NetOf(b) == b[k] + NetOf(b - {k})
    decreases |b|
  {
    var c :| c in b && NetOf(b) == b[c] + NetOf(b - {c});
    if c != k {
      NetWithout(b - {c}, k);
      NetWithout(b - {k}, c);
      assert b - {c} - {k} == b - {k} - {c};
    }
  }

  /** The two exposures, in whatever order the positions are listed. */
  method Exposure(b: Book) returns (gross: real, net: real)
    ensures gross == Gross(b) && net == NetOf(b)
  {
    gross, net := 0.0, 0.0;
    var left := b;
    while left != map[]
      invariant gross + Gross(left) == Gross(b)
      invariant net + NetOf(left) == NetOf(b)
      decreases |left|
    {
      var k :| k in left;
      GrossWithout(left, k);
      NetWithout(left, k);
      gross, net := gross + Abs(left[k]), net + left[k];
      left := left - {k};
    }
  }

  // ---------------------------------------------------------------- accounting

  function Rejections(decisions: seq<(string, Gate)>): nat {
    if decisions == [] then 0
    else Rejections(Front(decisions)) + (if Last(decisions).1 == OptionsReject then 1 else 0)
  }

  lemma RejectionsSnoc(decisions: seq<(string, Gate)>, d: (string, Gate))
    ensures Rejections(decisions + [d]) == Rejections(decisions) + (if d.1 == OptionsReject then 1 else 0)
  {
    FrontLast(decisions, d);
  }

  /** Every decision is a fire, a silence or an error, except an options structure the gate
      rejected, which only appears in the list. */
  predicate Balanced(t: Tick) {
    t.fires + t.silences + t.errors + Rejections(t.decisions) == |t.decisions|
  }

  /** One decision was recorded under one counter. */
  predicate Counted(t: Tick, u: Tick) {
    && u.fires + u.silences + u.errors == t.fires + t.silences + t.errors + 1
    && |u.decisions| == |t.decisions| + 1 && u.decisions[..|t.decisions|] == t.decisions
    && Last(u.decisions).1 != OptionsReject
  }

  lemma CountedBalanced(t: Tick, u: Tick)
    requires Counted(t, u)
    ensures Rejections(u.decisions) == Rejections(t.decisions)
    ensures Balanced(t) ==> Balanced(u)
  {
    assert u.decisions == t.decisions + [Last(u.decisions)];
    RejectionsSnoc(t.decisions, Last(u.decisions));
  }

  lemma SizeGates(r: Rails, headroom: Book, l: Look)
    requires l.Seen?
    ensures SizeFor(r, headroom, l).Err? ==>
              SizeFor(r, headroom, l).error != OptionsReject && SizeFor(r, headroom, l).error != Fired
  {
  }

  lemma ReactCounted(r: Rails, t: Tick, symbol: string, size: real, react: React)
    ensures Counted(t, AfterReact(r, t, symbol, size, react))
  {
  }

  lemma EquityCounted(r: Rails, t: Tick, symbol: string, l: Look)
    requires l.Seen?
    ensures Counted(t, AfterEquity(r, t, symbol, l))
  {
    SizeGates(r, t.headroom, l);
    hide SizeFor, AfterReact;
    if SizeFor(r, t.headroom, l).Ok? { ReactCounted(r, t, symbol, SizeFor(r, t.headroom, l).value, l.react); }
  }

  lemma OptionsBalanced(t: Tick, symbol: string, o: Origination)
    requires Balanced(t)
    ensures Balanced(AfterOptions(t, symbol, o))
  {
    RejectionsSnoc(t.decisions, (symbol, OptionsReject));
    RejectionsSnoc(t.decisions, (symbol, OptionsNoFill));
    RejectionsSnoc(t.decisions, (symbol, OptionsFired));
    hide Rejections;
  }

  lemma ErrorCounted(t: Tick, symbol: string)
    ensures Counted(t, Failed(t, symbol, AdvisorError))
  {
  }

  lemma StepBalanced(r: Rails, t: Tick, v: View)
    requires Balanced(t)
    ensures Balanced(Step(r, t, v))
    ensures !r.options && v.symbol !in t.stopped ==> |Step(r, t, v).decisions| == |t.decisions| + 1
    ensures !r.options ==> Rejections(Step(r, t, v).decisions) == Rejections(t.decisions)
  {
    hide OriginationOf;
    ErrorCounted(t, v.symbol);
    CountedBalanced(t, Failed(t, v.symbol, AdvisorError));
    if v.look.Seen? {
      EquityCounted(r, t, v.symbol, v.look);
      CountedBalanced(t, AfterEquity(r, t, v.symbol, v.look));
      var u := AfterOptions(t, v.symbol, OriginationOf(r, v.look.attempt));
      OptionsBalanced(t, v.symbol, OriginationOf(r, v.look.attempt));
      EquityCounted(r, u, v.symbol, v.look);
      CountedBalanced(u, AfterEquity(r, u, v.symbol, v.look));
    }
    hide Balanced, AfterEquity, AfterOptions, Failed, Rejections;
  }

  function Considered(views: seq<View>, stopped: set<string>): nat {
    if views == [] then 0
    else Considered(Front(views), stopped) + (if Last(views).symbol in stopped then 0 else 1)
  }

  lemma StepKeepsStopped(r: Rails, t: Tick, v: View)
    ensures Step(r, t, v).stopped == t.stopped
  {
    hide OriginationOf;
    if v.look.Seen? {
      EquityFires(r, t, v.symbol, v.look);
      EquityFires(r, AfterOptions(t, v.symbol, OriginationOf(r, v.look.attempt)), v.symbol, v.look);
    }
    hide AfterEquity;
  }

  /** Fires, silences, errors and rejected structures add up to the decisions. With options off
      no structure is rejected, and every signal the sweep did not close is decided once. */
  lemma {:induction false} EverySignalDecided(r: Rails, t: Tick, views: seq<View>)
    requires Balanced(t)
    ensures Balanced(Steps(r, t, views)) && Steps(r, t, views).stopped == t.stopped
    ensures !r.options ==> |Steps(r, t, views).decisions| == |t.decisions| + Considered(views, t.stopped)
    ensures !r.options ==> Rejections(Steps(r, t, views).decisions) == Rejections(t.decisions)
    ensures !r.options && Rejections(t.decisions) == 0 ==>
              var u := Steps(r, t, views); u.fires + u.silences + u.errors == |u.decisions|
  {
    hide Step, Rejections;
    if views != [] {
      EverySignalDecided(r, t, Front(views));
      StepBalanced(r, Steps(r, t, Front(views)), Last(views));
      StepKeepsStopped(r, Steps(r, t, Front(views)), Last(views));
      StoppedSignal(r, Steps(r, t, Front(views)), Last(views));
    }
  }

  lemma StoppedSignal(r: Rails, t: Tick, v: View)
    ensures v.symbol in t.stopped ==> Step(r, t, v) == t
  {
  }

  /** Fires counted in one tick, equity and options together, never exceed the per-tick cap. */
  lemma {:induction false} PerTickCapHolds(r: Rails, t: Tick, views: seq<View>)
    requires t.firesThisTick <= r.perTick
    ensures Steps(r, t, views).firesThisTick <= r.perTick
  {
    hide Step;
    if views != [] {
      PerTickCapHolds(r, t, Front(views));
      StepFires(r, Steps(r, t, Front(views)), Last(views));
    }
  }

  lemma EquityFires(r: Rails, t: Tick, symbol: string, l: Look)
    requires l.Seen?
    ensures var u := AfterEquity(r, t, symbol, l);
            u.firesThisTick == t.firesThisTick || (t.firesThisTick < r.perTick && u.firesThisTick == t.firesThisTick + 1)
    ensures AfterEquity(r, t, symbol, l).stopped == t.stopped
  {
    hide SizeFor, Charged;
  }

  lemma StepFires(r: Rails, t: Tick, v: View)
    requires t.firesThisTick <= r.perTick
    ensures Step(r, t, v).firesThisTick <= r.perTick && Step(r, t, v).stopped == t.stopped
  {
    hide OriginationOf;
    if v.look.Seen? {
      EquityFires(r, t, v.symbol, v.look);
      EquityFires(r, AfterOptions(t, v.symbol, OriginationOf(r, v.look.attempt)), v.symbol, v.look);
    }
    hide AfterEquity;
  }

  // ---------------------------------------------------------------- the running headroom

  /** What a fire may do to the headroom book. */
  ghost predicate ChargedWithin(r: Rails, t: Tick, u: Tick, symbol: string, kelly: real) {
    u.headroom != t.headroom ==>
      && r.caps.Some? && u.firesThisTick == t.firesThisTick + 1
      && symbol in u.headroom && u.headroom == t.headroom[symbol := u.headroom[symbol]]
      && Abs(u.headroom[symbol]) <= Abs(kelly)
      && Gross(t.headroom) + Abs(u.headroom[symbol]) <= Min(r.caps.value.gross, 1.0 - r.caps.value.cashReserve)
  }

  lemma ReactCharges(r: Rails, t: Tick, symbol: string, size: real, react: React)
    ensures var u := AfterReact(r, t, symbol, size, react);
            u.headroom != t.headroom ==>
              && r.caps.Some? && u.firesThisTick == t.firesThisTick + 1
              && symbol in u.headroom && u.headroom == t.headroom[symbol := u.headroom[symbol]]
              && Abs(u.headroom[symbol]) <= Abs(size)
  {
  }

  lemma EquityCharges(r: Rails, t: Tick, symbol: string, l: Look)
    requires l.Seen? && RailsOk(r) && LookOk(r, t.headroom, l)
    ensures ChargedWithin(r, t, AfterEquity(r, t, symbol, l), symbol, l.kelly)
  {
    SizeWithinBounds(r, t.headroom, l);
    hide SizeFor, LookOk, AfterReact, Gross;
    if SizeFor(r, t.headroom, l).Ok? { ReactCharges(r, t, symbol, SizeFor(r, t.headroom, l).value, l.react); }
  }

  /** One signal changes the headroom book only by a fire under its own symbol, and charges no
      more than the size it asked for, which no stage enlarged. */
  lemma {:induction false} StepCharges(r: Rails, t: Tick, v: View)
    requires RailsOk(r) && (v.look.Seen? ==> LookOk(r, t.headroom, v.look))
    ensures v.look.Seen? ==> ChargedWithin(r, t, Step(r, t, v), v.symbol, v.look.kelly)
    ensures !v.look.Seen? ==> Step(r, t, v).headroom == t.headroom
  {
    hide OriginationOf;
    if v.look.Seen? {
      EquityCharges(r, t, v.symbol, v.look);
      EquityCharges(r, AfterOptions(t, v.symbol, OriginationOf(r, v.look.attempt)), v.symbol, v.look);
    }
    hide AfterEquity, Gross, LookOk;
  }

  ghost predicate LooksOk(r: Rails, t: Tick, views: seq<View>) {
    views == []
    || (LooksOk(r, t, Front(views))
        && (Last(views).look.Seen? ==> LookOk(r, Steps(r, t, Front(views)).headroom, Last(views).look)))
  }

  /** The running gross exposure never passes the tighter of the gross and cash caps, unless it
      started there. */
  lemma {:induction false} GrossStaysCapped(r: Rails, t: Tick, views: seq<View>)
    requires RailsOk(r) && r.caps.Some? && LooksOk(r, t, views)
    ensures var cap := Min(r.caps.value.gross, 1.0 - r.caps.value.cashReserve);
            Gross(Steps(r, t, views).headroom) <= (if Gross(t.headroom) <= cap then cap else Gross(t.headroom))
  {
    hide Step, Gross, LookOk;
    if views != [] {
      GrossStaysCapped(r, t, Front(views));
      var u, v := Steps(r, t, Front(views)), Last(views);
      StepCharges(r, u, v);
      var w := Step(r, u, v);
      if w.headroom != u.headroom { GrossSet(u.headroom, v.symbol, w.headroom[v.symbol]); }
    }
  }

  // ---------------------------------------------------------------- how one signal ends

  /** Nothing but the counters and the list of decisions moved. */
  predicate OnlyCounted(t: Tick, u: Tick) {
    && u.firesThisTick == t.firesThisTick && u.fires == t.fires && u.headroom == t.headroom
    && u.openSymbols == t.openSymbols && u.openCount == t.openCount && u.readFailed == t.readFailed && u.stopped == t.stopped
  }

  /** The decisions grew by what the options attempt left, and then by one of the symbol's. */
  predicate EndsIn(t: Tick, u: Tick, symbol: string, tried: seq<Gate>, gate: Gate) {
    u.decisions == t.decisions + Tagged(symbol, tried) + [(symbol, gate)]
  }

  function Tagged(symbol: string, gates: seq<Gate>): seq<(string, Gate)> {
    seq(|gates|, i requires 0 <= i < |gates| => (symbol, gates[i]))
  }

  /** What an options attempt that originates nothing leaves among the decisions. */
  function Tried(r: Rails, t: Tick, v: View): seq<Gate>
    requires v.look.Seen?
  {
    if !TriesOptions(r, t) then []
    else
      match OriginationOf(r, v.look.attempt)
      case Rejected => [OptionsReject]
      case Unfilled => [OptionsNoFill]
      case _ => []
  }

  /** A silence: nothing moved, one silence more, and one for an options attempt without a fill. */
  predicate SilencedBy(t: Tick, u: Tick, symbol: string, tried: seq<Gate>, gate: Gate) {
    && OnlyCounted(t, u) && EndsIn(t, u, symbol, tried, gate) && u.errors == t.errors
    && u.silences == t.silences + 1 + (if tried == [OptionsNoFill] then 1 else 0)
  }

  /** An error: nothing moved, one error more. */
  predicate FailedBy(t: Tick, u: Tick, symbol: string, tried: seq<Gate>, gate: Gate) {
    && OnlyCounted(t, u) && EndsIn(t, u, symbol, tried, gate) && u.errors == t.errors + 1
    && u.silences == t.silences + (if tried == [OptionsNoFill] then 1 else 0)
  }

  /** A fire: both fire counters by one, and under caps the headroom carries the charged size. */
  predicate FiredBy(r: Rails, t: Tick, u: Tick, symbol: string, tried: seq<Gate>, charged: real) {
    && u.firesThisTick == t.firesThisTick + 1 && u.fires == t.fires + 1 && EndsIn(t, u, symbol, tried, Fired)
    && u.headroom == (if r.caps.Some? then t.headroom[symbol := charged] else t.headroom)
    && u.openSymbols == t.openSymbols && u.openCount == t.openCount && u.readFailed == t.readFailed && u.stopped == t.stopped
    && u.errors == t.errors && u.silences == t.silences + (if tried == [OptionsNoFill] then 1 else 0)
  }

  /** The signal is considered and no structure takes its place. */
  predicate Considers(r: Rails, t: Tick, v: View) {
    v.symbol !in t.stopped && v.look.Seen? && !(TriesOptions(r, t) && OriginationOf(r, v.look.attempt).Originated?)
  }

  /** The gate fired, the tick has a fire left, and a new symbol has a slot under a good read. */
  predicate Proceeds(r: Rails, t: Tick, v: View) {
    && v.look.Seen? && v.look.fired && t.firesThisTick < r.perTick
    && (v.symbol in t.openSymbols || (!t.readFailed && t.openCount + t.firesThisTick < r.concurrent))
  }

  /** What a held-back signal leaves, by the first of the three rails that holds it. */
  predicate HeldBack(r: Rails, t: Tick, u: Tick, v: View)
    requires v.look.Seen?
  {
    var tried := Tried(r, t, v);
    && (!v.look.fired ==> SilencedBy(t, u, v.symbol, tried, GateSilence))
    && (v.look.fired && t.firesThisTick >= r.perTick ==> SilencedBy(t, u, v.symbol, tried, PerTickCap))
    && (v.look.fired && t.firesThisTick < r.perTick ==> SilencedBy(t, u, v.symbol, tried, ConcurrentCap))
  }

  /** What an admitted signal leaves, by its size and by the reactor's answer. */
  ghost predicate Reacted(r: Rails, t: Tick, u: Tick, v: View)
    requires v.look.Seen?
  {
    var tried, size := Tried(r, t, v), SizeFor(r, t.headroom, v.look);
    if size.Err? then SilencedBy(t, u, v.symbol, tried, size.error)
    else if r.dryRun then FiredBy(r, t, u, v.symbol, tried, size.value)
    else
      match v.look.react
      case NoFill => SilencedBy(t, u, v.symbol, tried, ReactorNoFill)
      case Invariant => SilencedBy(t, u, v.symbol, tried, FillSizeInvariant)
      case Raised(_) => FailedBy(t, u, v.symbol, tried, ReactError)
      case Filled(x) =>
        FiredBy(r, t, u, v.symbol, tried, if x.Some? && Abs(x.value) <= Abs(size.value) then x.value else size.value)
  }

  /** What the options attempt left behind of the tick. */
  predicate Left(t: Tick, u: Tick, symbol: string, tried: seq<Gate>) {
    && OnlyCounted(t, u) && u.errors == t.errors && u.decisions == t.decisions + Tagged(symbol, tried)
    && u.silences == t.silences + (if tried == [OptionsNoFill] then 1 else 0)
  }

  lemma OptionsLeave(r: Rails, t: Tick, v: View) returns (u: Tick)
    requires Considers(r, t, v)
    ensures Left(t, u, v.symbol, Tried(r, t, v)) && Step(r, t, v) == AfterEquity(r, u, v.symbol, v.look)
  {
    hide OriginationOf, AfterEquity;
    u := if TriesOptions(r, t) then AfterOptions(t, v.symbol, OriginationOf(r, v.look.attempt)) else t;
    assert Tagged(v.symbol, []) == [] && t.decisions + [] == t.decisions;
    assert Tagged(v.symbol, [OptionsReject]) == [(v.symbol, OptionsReject)];
    assert Tagged(v.symbol, [OptionsNoFill]) == [(v.symbol, OptionsNoFill)];
  }

  lemma LeftThen(r: Rails, t: Tick, u: Tick, symbol: string, tried: seq<Gate>, gate: Gate, charged: real)
    requires Left(t, u, symbol, tried)
    ensures SilencedBy(t, Silenced(u, symbol, gate), symbol, tried, gate)
    ensures FailedBy(t, Failed(u, symbol, gate), symbol, tried, gate)
    ensures FiredBy(r, t, FiredAt(r, u, symbol, charged), symbol, tried, charged)
  {
  }

  lemma EquityHeldBack(r: Rails, u: Tick, v: View)
    requires v.look.Seen? && !Proceeds(r, u, v)
    ensures AfterEquity(r, u, v.symbol, v.look)
         == Silenced(u, v.symbol, if !v.look.fired then GateSilence
                                  else if u.firesThisTick >= r.perTick then PerTickCap else ConcurrentCap)
  {
    hide SizeFor, AfterReact;
  }

  lemma EquityReacts(r: Rails, u: Tick, v: View)
    requires v.look.Seen? && Proceeds(r, u, v)
    ensures var size := SizeFor(r, u.headroom, v.look);
            && (size.Err? ==> AfterEquity(r, u, v.symbol, v.look) == Silenced(u, v.symbol, size.error))
            && (size.Ok? ==> AfterEquity(r, u, v.symbol, v.look) == AfterReact(r, u, v.symbol, size.value, v.look.react))
  {
    hide SizeFor, AfterReact;
  }

  /** A considered signal ends as its gate, the two caps, its size and the reactor say, in that
      order. */
  lemma SignalEnds(r: Rails, t: Tick, v: View)
    requires Considers(r, t, v)
    ensures !Proceeds(r, t, v) ==> HeldBack(r, t, Step(r, t, v), v)
    ensures Proceeds(r, t, v) ==> Reacted(r, t, Step(r, t, v), v)
  {
    hide Step, SizeFor, OriginationOf, Tried, Tagged, AfterEquity, TriesOptions, AfterOptions, SilencedBy, FailedBy, FiredBy,
      Silenced, Failed, FiredAt, Abs;
    var u := OptionsLeave(r, t, v);
    var tried := Tried(r, t, v);
    if !Proceeds(r, t, v) {
      EquityHeldBack(r, u, v);
      LeftThen(r, t, u, v.symbol, tried, GateSilence, 0.0);
      LeftThen(r, t, u, v.symbol, tried, PerTickCap, 0.0);
      LeftThen(r, t, u, v.symbol, tried, ConcurrentCap, 0.0);
    } else {
      EquityReacts(r, u, v);
      ReactsAs(r, t, u, v, tried);
    }
  }

  lemma ReactsAs(r: Rails, t: Tick, u: Tick, v: View, tried: seq<Gate>)
    requires v.look.Seen? && Left(t, u, v.symbol, tried) && tried == Tried(r, t, v)
    ensures var size := SizeFor(r, t.headroom, v.look);
            && (size.Err? ==> Reacted(r, t, Silenced(u, v.symbol, size.error), v))
            && (size.Ok? ==> Reacted(r, t, AfterReact(r, u, v.symbol, size.value, v.look.react), v))
  {
    hide SizeFor, Tried, SilencedBy, FailedBy, FiredBy, Silenced, Failed, FiredAt, Abs, Left;
    var size, react := SizeFor(r, t.headroom, v.look), v.look.react;
    if size.Err? {
      LeftThen(r, t, u, v.symbol, tried, size.error, 0.0);
    } else if r.dryRun {
      LeftThen(r, t, u, v.symbol, tried, Fired, size.value);
    } else if react.Filled? {
      LeftThen(r, t, u, v.symbol, tried, Fired, Charged(size.value, react.realized));
    } else {
      LeftThen(r, t, u, v.symbol, tried, ReactorNoFill, 0.0);
      LeftThen(r, t, u, v.symbol, tried, FillSizeInvariant, 0.0);
      LeftThen(r, t, u, v.symbol, tried, ReactError, 0.0);
    }
  }

  /** A stopped symbol and an advisor that fails. */
  lemma SignalUnseen(r: Rails, t: Tick, v: View)
    ensures v.symbol in t.stopped ==> Step(r, t, v) == t
    ensures v.symbol !in t.stopped && v.look.AdvisorFailed? ==> FailedBy(t, Step(r, t, v), v.symbol, [], AdvisorError)
  {
    assert Tagged(v.symbol, []) == [] && t.decisions + [] == t.decisions;
  }

  /** A structure that takes the signal's place. */
  lemma SignalOriginates(r: Rails, t: Tick, v: View)
    requires v.symbol !in t.stopped && v.look.Seen? && !Considers(r, t, v)
    ensures var u := Step(r, t, v);
            && u.decisions == t.decisions + [(v.symbol, OptionsFired)] && u.headroom == t.headroom
            && u.fires == t.fires + 1 && u.firesThisTick == t.firesThisTick + 1 && u.openSymbols == t.openSymbols + {v.symbol}
            && u.silences == t.silences && u.errors == t.errors
  {
    hide OriginationOf;
  }

  // ---------------------------------------------------------------- which signals fire

  /** The view fires its symbol: its gate fired, and the order was dry or filled. */
  predicate FiresFor(r: Rails, v: View, symbol: string) {
    v.symbol == symbol && v.look.Seen? && v.look.fired && (r.dryRun || v.look.react.Filled?)
  }

  lemma FiredWasGated(r: Rails, t: Tick, v: View)
    ensures var u := Step(r, t, v);
            && t.decisions <= u.decisions
            && forall k :: |t.decisions| <= k < |u.decisions| && u.decisions[k].1 == Fired ==>
                 FiresFor(r, v, u.decisions[k].0)
  {
    hide Step, SizeFor, OriginationOf, Tried, Considers, TriesOptions;
    SignalUnseen(r, t, v);
    if Considers(r, t, v) {
      SignalEnds(r, t, v);
      SizeGates(r, t.headroom, v.look);
      TriedIsNoFire(r, t, v);
      ConsideredFires(r, t, v, Step(r, t, v));
    } else if v.symbol !in t.stopped && v.look.Seen? {
      SignalOriginates(r, t, v);
    }
  }

  lemma OnlyLastFires(t: Tick, u: Tick, symbol: string, tried: seq<Gate>, gate: Gate)
    requires EndsIn(t, u, symbol, tried, gate) && forall g :: g in tried ==> g != Fired
    ensures t.decisions <= u.decisions
    ensures forall k :: |t.decisions| <= k < |u.decisions| && u.decisions[k].1 == Fired ==>
              gate == Fired && u.decisions[k].0 == symbol
  {
    var n := |t.decisions|;
    forall k | n <= k < |u.decisions| - 1 ensures u.decisions[k].1 != Fired {
      assert u.decisions[k] == (symbol, tried[k - n]) && tried[k - n] in tried;
    }
  }

  /** The gate a considered signal ends in. */
  ghost function EndOf(r: Rails, t: Tick, v: View): Gate
    requires v.look.Seen?
  {
    if !Proceeds(r, t, v) then
      (if !v.look.fired then GateSilence else if t.firesThisTick >= r.perTick then PerTickCap else ConcurrentCap)
    else if SizeFor(r, t.headroom, v.look).Err? then SizeFor(r, t.headroom, v.look).error
    else if r.dryRun then Fired
    else
      match v.look.react
      case NoFill => ReactorNoFill
      case Invariant => FillSizeInvariant
      case Raised(_) => ReactError
      case Filled(_) => Fired
  }

  lemma ConsideredFires(r: Rails, t: Tick, v: View, u: Tick)
    requires v.look.Seen? && (forall g :: g in Tried(r, t, v) ==> g != Fired)
    requires SizeFor(r, t.headroom, v.look).Err? ==> SizeFor(r, t.headroom, v.look).error != Fired
    requires if Proceeds(r, t, v) then Reacted(r, t, u, v) else HeldBack(r, t, u, v)
    ensures t.decisions <= u.decisions
    ensures forall k :: |t.decisions| <= k < |u.decisions| && u.decisions[k].1 == Fired ==> FiresFor(r, v, u.decisions[k].0)
  {
    hide SizeFor, Tried, OnlyCounted, EndsIn;
    assert EndsIn(t, u, v.symbol, Tried(r, t, v), EndOf(r, t, v));
    OnlyLastFires(t, u, v.symbol, Tried(r, t, v), EndOf(r, t, v));
  }

  lemma TriedIsNoFire(r: Rails, t: Tick, v: View)
    requires v.look.Seen?
    ensures forall g :: g in Tried(r, t, v) ==> g != Fired
  {
    hide OriginationOf;
  }

  /** Every equity fire of a tick is of a view whose own gate fired, in the order of the list. */
  lemma {:induction false} FiresWereGated(r: Rails, t: Tick, views: seq<View>)
    ensures var u := Steps(r, t, views);
            && t.decisions <= u.decisions
            && forall k :: |t.decisions| <= k < |u.decisions| && u.decisions[k].1 == Fired ==>
                 exists i :: 0 <= i < |views| && FiresFor(r, views[i], u.decisions[k].0)
  {
    hide Step, FiresFor;
    if views != [] {
      var m := Steps(r, t, Front(views));
      FiresWereGated(r, t, Front(views));
      FiredWasGated(r, m, Last(views));
      var u := Step(r, m, Last(views));
      forall k | |t.decisions| <= k < |u.decisions| && u.decisions[k].1 == Fired
        ensures exists i :: 0 <= i < |views| && FiresFor(r, views[i], u.decisions[k].0)
      {
        if k < |m.decisions| {
          assert m.decisions[k] == u.decisions[k];
          var i :| 0 <= i < |Front(views)| && FiresFor(r, Front(views)[i], m.decisions[k].0);
          assert views[i] == Front(views)[i];
        } else {
          assert FiresFor(r, views[|views| - 1], u.decisions[k].0);
        }
      }
    }
  }

  // ---------------------------------------------------------------- the loop

  /** The watchlist loop. */
  method RunWatchlist(r: Rails, start: Tick, views: seq<View>) returns (t: Tick)
    ensures t == Steps(r, start, views)
    ensures start.decisions <= t.decisions
    ensures forall k :: |start.decisions| <= k < |t.decisions| && t.decisions[k].1 == Fired ==>
              exists i :: 0 <= i < |views| && FiresFor(r, views[i], t.decisions[k].0)
  {
    FiresWereGated(r, start, views);
    hide Step, FiresFor;
    t := start;
    for i := 0 to |views|
      invariant t == Steps(r, start, views[..i])
    {
      assert Front(views[..i + 1]) == views[..i];
      t := OneSignal(r, t, views[i]);
    }
    assert views[..|views|] == views;
  }

  /** One signal: at most one fire, within both caps, charged no more than it may; the earlier
      decisions stand. */
  method OneSignal(r: Rails, start: Tick, v: View) returns (t: Tick)
    ensures t == Step(r, start, v)
    ensures start.firesThisTick <= r.perTick ==> t.firesThisTick <= r.perTick
    ensures t.firesThisTick <= start.firesThisTick + 1 && t.fires - start.fires == t.firesThisTick - start.firesThisTick
    ensures t.fires > start.fires && v.symbol !in t.openSymbols ==>
              !start.readFailed && start.openCount + start.firesThisTick < r.concurrent
    ensures start.decisions <= t.decisions
    ensures RailsOk(r) && v.look.Seen? && LookOk(r, start.headroom, v.look) ==>
              ChargedWithin(r, start, t, v.symbol, v.look.kelly)
    ensures v.symbol in start.stopped ==> t == start
    ensures v.symbol !in start.stopped && v.look.AdvisorFailed? ==> FailedBy(start, t, v.symbol, [], AdvisorError)
    ensures Considers(r, start, v) && !Proceeds(r, start, v) ==> HeldBack(r, start, t, v)
    ensures Considers(r, start, v) && Proceeds(r, start, v) ==> Reacted(r, start, t, v)
  {
    SignalFacts(r, start, v);
    SignalUnseen(r, start, v);
    if Considers(r, start, v) { SignalEnds(r, start, v); }
    hide HeldBack, Reacted, Considers, FailedBy, Proceeds;
    hide SizeFor, AfterReact, AfterOptions, ChargedWithin, LookOk, RailsOk, OriginationOf;
    t := start;
    if v.symbol in t.stopped {
      return;
    }
    if v.look.AdvisorFailed? {
      t := t.(errors := t.errors + 1, decisions := t.decisions + [(v.symbol, AdvisorError)]);
      return;
    }
    var l := v.look;
    if r.options && !r.dryRun && t.firesThisTick < r.perTick {
      t := AfterOptions(t, v.symbol, OriginationOf(r, l.attempt));
      if OriginationOf(r, l.attempt).Originated? {
        return;
      }
    }
    if !l.fired {
      t := Silenced(t, v.symbol, GateSilence);
      return;
    }
    if t.firesThisTick >= r.perTick {
      t := Silenced(t, v.symbol, PerTickCap);
      return;
    }
    if v.symbol !in t.openSymbols && (t.readFailed || t.openCount + t.firesThisTick >= r.concurrent) {
      t := Silenced(t, v.symbol, ConcurrentCap);
      return;
    }
    var size := SizeSignal(r, t.headroom, l);
    if size.Err? {
      t := Silenced(t, v.symbol, size.error);
      return;
    }
    t := AfterReact(r, t, v.symbol, size.value, l.react);
  }

  /** The size a signal may ask for: never more than the advisor's, in the stopless band when a
      stop is required and missing, and within the headroom under caps. */
  method SizeSignal(r: Rails, headroom: Book, l: Look) returns (s: Result<real, Gate>)
    requires l.Seen?
    ensures s == SizeFor(r, headroom, l)
    ensures Staged(r, headroom, l, s)
    ensures s.Ok? && RailsOk(r) && LookOk(r, headroom, l) ==> SizeBounded(r, headroom, l, s.value)
  {
    hide Clip, Gross, NetOf, LookOk, RailsOk, SizeBounded, Abs, Staged;
    SizeIsStaged(r, headroom, l);
    if RailsOk(r) && LookOk(r, headroom, l) { SizeWithinBounds(r, headroom, l); }
    var size := l.kelly;
    if r.variance && size != 0.0 && l.haircut.Some? && Abs(l.haircut.value) <= Abs(size) {
      size := l.haircut.value;
    }
    if r.requireStop && l.stopless && Abs(size) > r.stoplessLimit {
      if r.silenceStopless {
        return Err(NoStopLoss);
      }
      size := if size < 0.0 then -r.stoplessLimit else r.stoplessLimit;
    }
    if r.caps.Some? {
      var gross, net := Exposure(headroom);
      var clipped := Clip(r.caps.value, gross, net, size);
      if clipped.None? {
        return Err(PortfolioCap);
      }
      size := clipped.value;
    }
    if r.admissibility && size < 0.0 {
      if l.verdict.None? {
        return Err(Admissibility);
      }
      size := l.verdict.value;
    }
    s := Ok(size);
  }

  lemma EquityFacts(r: Rails, t: Tick, symbol: string, l: Look)
    requires l.Seen?
    ensures var u := AfterEquity(r, t, symbol, l);
            && t.firesThisTick <= u.firesThisTick <= t.firesThisTick + 1
            && u.fires - t.fires == u.firesThisTick - t.firesThisTick
            && t.decisions <= u.decisions && u.openSymbols == t.openSymbols
            && (u.fires > t.fires && IsNew(t, symbol) ==> !AtConcurrentCap(r, t))
  {
    hide SizeFor, Charged;
  }

  lemma SignalFacts(r: Rails, t: Tick, v: View)
    ensures var u := Step(r, t, v);
            && (t.firesThisTick <= r.perTick ==> u.firesThisTick <= r.perTick)
            && u.firesThisTick <= t.firesThisTick + 1 && u.fires - t.fires == u.firesThisTick - t.firesThisTick
            && (u.fires > t.fires && v.symbol !in u.openSymbols ==> !AtConcurrentCap(r, t))
            && t.decisions <= u.decisions
    ensures RailsOk(r) && v.look.Seen? && LookOk(r, t.headroom, v.look) ==>
              ChargedWithin(r, t, Step(r, t, v), v.symbol, v.look.kelly)
  {
    hide OriginationOf;
    if t.firesThisTick <= r.perTick { StepFires(r, t, v); }
    if RailsOk(r) && v.look.Seen? && LookOk(r, t.headroom, v.look) { StepCharges(r, t, v); }
    if v.look.Seen? {
      EquityFacts(r, t, v.symbol, v.look);
      EquityFacts(r, AfterOptions(t, v.symbol, OriginationOf(r, v.look.attempt)), v.symbol, v.look);
    }
    hide AfterEquity, ChargedWithin, LookOk, RailsOk;
  }
}
