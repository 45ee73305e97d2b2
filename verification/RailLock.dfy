/** Overlapping ticks on one account: the kill switch, the rail lock and the shared book.

    Each tick checks the kill switch outside the lock, then reads the book, decides and fires
    inside it. Every read, decision and fire is one step; ticks interleave freely, may time
    out on the lock, and may die at any step, which releases the lock. */
module RailLock {
  import opened Prelude
  import opened ByteLines
  import opened OptionsRecipes
  import opened TickRails

  /** The kill-switch file. */
  datatype SwitchFile = NoFile | Unparseable | Stored(tripped: bool)

  predicate Halts(f: SwitchFile) {
    f.Unparseable? || (f.Stored? && f.tripped)
  }

  /** The configured threshold; an invalid one falls back to ten percent. */
  function Threshold(raw: Option<real>): real {
    if raw.None? || raw.value <= 0.0 then 0.10 else raw.value
  }

  /** A tick in the locked region. `counted` is the book its rails start from, `news` the new
      symbols it fired on, `extra` what entered the book uncounted; these three are history. */
  datatype Region = Region(tick: Tick, counted: set<string>, news: set<string>, extra: set<string>)

  datatype Proc = Outside | Waiting | Inside(region: Region)

  /** `book` is what is held, `masked` the part of it that the rail's read of the bus does not show.
      `passed`, `fired` and `uncounted` are history: the margin each process's last check saw, its
      fires, and how many symbols a tick could not count or did not have to. */
  datatype System = System(book: set<string>, masked: set<string>, switch: SwitchFile, lock: Option<nat>, procs: seq<Proc>,
                           passed: seq<Option<real>>, fired: seq<nat>, uncounted: nat)

  datatype Read = Good | FailsEarly | FailsLate

  /** How the sweep's exit of a symbol, a fire with target zero, came back, and whether the position
      is gone. */
  datatype Exit = Answered(realized: Option<real>, flat: bool) | Threw(flat: bool)

  /** A realised size of zero is no fill, so the sweep reports the symbol stopped iff it is another
      one or missing. */
  predicate Reported(e: Exit) {
    e.Answered? && e.realized != Some(0.0)
  }

  function Stopped(exits: map<string, Exit>): set<string> {
    set x | x in exits && Reported(exits[x])
  }

  function Flattened(exits: map<string, Exit>): set<string> {
    set x | x in exits && exits[x].flat
  }

  /** A reactor that answers a zero target with a realised zero, or raises, has the sweep report
      nothing, whatever became of the positions. */
  lemma ZeroExitsStopNothing(exits: map<string, Exit>)
    requires forall x :: x in exits ==> exits[x].Threw? || exits[x].realized == Some(0.0)
    ensures Stopped(exits) == {}
  {
  }

  datatype Action =
    | Check(pid: nat, basis: real, raw: Option<real>)
    | Acquire(pid: nat, read: Read, exits: map<string, Exit>, headroom: Book)
    | GiveUp(pid: nat)
    | Decide(pid: nat, view: View)
    | Leave(pid: nat)
    | Die(pid: nat, during: Option<View>)
    | Trip
    | Reset
    | Scribble

  // ---------------------------------------------------------------- steps

  function At(s: System, pid: nat, p: Proc): System
    requires pid < |s.procs|
  {
    s.(procs := s.procs[pid := p])
  }

  /** The stored state first, then the live basis; a breach writes the file. */
  function CheckStep(s: System, r: Rails, pid: nat, basis: real, raw: Option<real>): System
    requires pid < |s.procs| == |s.passed|
  {
    if Halts(s.switch) then s
    else if basis <= -Threshold(raw) then (if r.dryRun then s else s.(switch := Stored(true)))
    else At(s, pid, Waiting).(passed := s.passed[pid := Some(basis + Threshold(raw))])
  }

  /** Read the book under the lock, run the stop sweep, and drop what it stopped from the count. */
  function Entry(s: System, read: Read, stopped: set<string>, flattened: set<string>, headroom: Book): Region {
    var shown := s.book - s.masked - stopped;
    var symbols := if read.FailsEarly? then {} else shown;
    var count := if read.FailsEarly? then 0 else |shown|;
    var tick := Tick(0, 0, 0, 0, [], symbols, count, !read.Good?, stopped, headroom);
    if read.FailsEarly? then Region(tick, s.book - flattened, {}, {})
    else Region(tick, shown, {}, (s.book - flattened) - shown)
  }

  function AcquireStep(s: System, pid: nat, read: Read, stopped: set<string>, flattened: set<string>,
                       headroom: Book): System
    requires pid < |s.procs|
  {
    var e := Entry(s, read, stopped, flattened, headroom);
    At(s, pid, Inside(e)).(book := s.book - flattened, masked := s.masked - flattened, lock := Some(pid),
                           uncounted := s.uncounted + |e.extra|)
  }

  ghost function DecideStep(s: System, r: Rails, pid: nat, v: View): System
    requires pid < |s.procs| == |s.fired| && s.procs[pid].Inside?
  {
    var g := s.procs[pid].region;
    var u, e := Step(r, g.tick, v), Enters(r, g.tick, v);
    var arrivals := e.all - e.uncounted - g.tick.openSymbols;
    var extra := g.extra + e.uncounted;
    At(s, pid, Inside(Region(u, g.counted, g.news + arrivals, extra)))
      .(book := s.book + e.all, masked := s.masked + Hidden(r, g.tick, v) - e.all, uncounted := s.uncounted + |extra - g.extra|,
        fired := s.fired[pid := s.fired[pid] + (if e.all == {} then 0 else 1)])
  }

  /** A tick dies between two signals, or over one whose order already reached the book. */
  ghost function DieStep(s: System, r: Rails, pid: nat, during: Option<View>): System
    requires pid < |s.procs| == |s.fired|
  {
    Released(if during.Some? && s.procs[pid].Inside? then DecideStep(s, r, pid, during.value) else s, pid)
  }

  function Released(s: System, pid: nat): System
    requires pid < |s.procs|
  {
    At(s, pid, Outside).(lock := if s.lock == Some(pid) then None else s.lock)
  }

  ghost function Apply(s: System, r: Rails, a: Action): System
    requires |s.passed| == |s.procs| == |s.fired|
    ensures var t := Apply(s, r, a); |t.passed| == |t.procs| == |t.fired| == |s.procs|
  {
    match a
    case Check(pid, basis, raw) =>
      if pid < |s.procs| && s.procs[pid].Outside? then CheckStep(s, r, pid, basis, raw) else s
    case Acquire(pid, read, exits, headroom) =>
      if pid < |s.procs| && s.procs[pid].Waiting? && s.lock.None?
      then AcquireStep(s, pid, read, if r.dryRun then {} else Stopped(exits), if r.dryRun then {} else Flattened(exits), headroom)
      else s
    case GiveUp(pid) => if pid < |s.procs| && s.procs[pid].Waiting? then At(s, pid, Outside) else s
    case Decide(pid, v) => if pid < |s.procs| && s.procs[pid].Inside? then DecideStep(s, r, pid, v) else s
    case Leave(pid) => if pid < |s.procs| && s.procs[pid].Inside? then Released(s, pid) else s
    case Die(pid, during) => if pid < |s.procs| then DieStep(s, r, pid, during) else s
    case Trip => s.(switch := Stored(true))
    case Reset => s.(switch := NoFile)
    case Scribble => if s.switch == NoFile then s else s.(switch := Unparseable)
  }

  ghost function Run(s: System, r: Rails, actions: seq<Action>): System
    requires |s.passed| == |s.procs| == |s.fired|
    ensures var t := Run(s, r, actions); |t.passed| == |t.procs| == |t.fired| == |s.procs|
  {
    if actions == [] then s else Apply(Run(s, r, Front(actions)), r, Last(actions))
  }

  function Init(n: nat, book: set<string>, f: SwitchFile): System {
    System(book, {}, f, None, seq(n, _ => Outside), seq(n, _ => None), seq(n, _ => 0), 0)
  }

  // ---------------------------------------------------------------- the concurrent cap

  function Max(x: nat, y: nat): nat {
    if x <= y then y else x
  }

  /** What a tick in the region knows about the book it will leave. */
  predicate RegionOk(r: Rails, g: Region, book: set<string>) {
    && book <= g.counted + g.news + g.extra
    && g.tick.openSymbols <= g.counted + g.extra
    && |g.news| <= g.tick.firesThisTick
    && (g.news != {} ==> !g.tick.readFailed && |g.counted| + |g.news| <= r.concurrent)
    && (!g.tick.readFailed ==> g.tick.openCount == |g.counted|)
  }

  /** `base` bounds every settled book; a region's own surplus is already in `uncounted`. */
  predicate RegionBound(r: Rails, s: System, g: Region, base: nat) {
    |g.counted| + |g.extra| <= base + s.uncounted && |g.extra| <= s.uncounted
  }

  predicate Locked(s: System) {
    forall p :: 0 <= p < |s.procs| && s.procs[p].Inside? ==> s.lock == Some(p)
  }

  predicate Inv(r: Rails, s: System, base: nat) {
    && Locked(s)
    && |s.book| <= base + s.uncounted
    && forall p :: 0 <= p < |s.procs| && s.procs[p].Inside? ==>
         RegionOk(r, s.procs[p].region, s.book) && RegionBound(r, s, s.procs[p].region, base)
  }

  lemma UnionSize(a: set<string>, b: set<string>)
    ensures |a + b| <= |a| + |b|
    ensures |(a + b) - a| <= |b|
    ensures |a + b| == |a| + |(a + b) - a|
  {
    assert a + b == a + (b - a);
    assert (a + b) - a == b - a;
    SubsetSize(b - a, b);
  }

  lemma {:induction false} SubsetSize(a: set<string>, b: set<string>)
    requires a <= b
    ensures |a| <= |b|
    decreases |a|
  {
    if a != {} {
      var x :| x in a;
      SubsetSize(a - {x}, b - {x});
    }
  }

  /** A region's facts bound the book. */
  lemma BookBound(r: Rails, s: System, g: Region, base: nat)
    requires RegionOk(r, g, s.book) && RegionBound(r, s, g, base) && base >= r.concurrent
    ensures |s.book| <= base + s.uncounted
  {
    SubsetSize(s.book, g.counted + g.news + g.extra);
    UnionSize(g.counted + g.news, g.extra);
    UnionSize(g.counted, g.news);
  }

  /** What one signal may add: nothing, one counted new symbol under both caps, or uncounted ones. */
  lemma EntersFacts(r: Rails, t: Tick, v: View)
    ensures var e, u := Enters(r, t, v), Step(r, t, v);
            var arrivals := e.all - e.uncounted - t.openSymbols;
            && u.firesThisTick >= t.firesThisTick
            && u.readFailed == t.readFailed && u.openCount == t.openCount
            && u.openSymbols <= t.openSymbols + e.uncounted
            && arrivals <= {v.symbol}
            && (arrivals != {} ==>
                  !t.readFailed && t.openCount + t.firesThisTick < r.concurrent && u.firesThisTick == t.firesThisTick + 1)
  {
    hide OriginationOf;
    if v.look.Seen? {
      EquityEntersFacts(r, t, v.symbol, v.look);
      EquityEntersFacts(r, AfterOptions(t, v.symbol, OriginationOf(r, v.look.attempt)), v.symbol, v.look);
      hide AfterEquity, EquityEnters;
    }
  }

  lemma EquityEntersFacts(r: Rails, t: Tick, symbol: string, l: Look)
    requires l.Seen?
    ensures var e, u := EquityEnters(r, t, symbol, l), AfterEquity(r, t, symbol, l);
            var arrivals := e.all - e.uncounted - t.openSymbols;
            && u.firesThisTick >= t.firesThisTick
            && u.readFailed == t.readFailed && u.openCount == t.openCount && u.openSymbols == t.openSymbols
            && e.all <= {symbol} && e.uncounted <= e.all
            && (arrivals != {} ==>
                  !t.readFailed && t.openCount + t.firesThisTick < r.concurrent && u.firesThisTick == t.firesThisTick + 1)
  {
    hide SizeFor, Charged;
  }

  lemma DecideRegion(r: Rails, g: Region, book: set<string>, v: View)
    requires RegionOk(r, g, book)
    ensures var u, e := Step(r, g.tick, v), Enters(r, g.tick, v);
            var arrivals := e.all - e.uncounted - g.tick.openSymbols;
            RegionOk(r, Region(u, g.counted, g.news + arrivals, g.extra + e.uncounted), book + e.all)
  {
    EntersFacts(r, g.tick, v);
    hide Step, Enters;
    var e := Enters(r, g.tick, v);
    var arrivals := e.all - e.uncounted - g.tick.openSymbols;
    UnionSize(g.news, arrivals);
    SubsetSize(arrivals, {v.symbol});
  }

  lemma DecideKeepsInv(r: Rails, s: System, pid: nat, v: View, base: nat)
    requires Inv(r, s, base) && base >= r.concurrent && |s.passed| == |s.procs| == |s.fired|
    requires pid < |s.procs| && s.procs[pid].Inside?
    ensures Inv(r, DecideStep(s, r, pid, v), base)
  {
    hide Step, Enters, RegionOk, Hidden;
    var g := s.procs[pid].region;
    var e := Enters(r, g.tick, v);
    DecideRegion(r, g, s.book, v);
    UnionSize(g.extra, e.uncounted);
    var t := DecideStep(s, r, pid, v);
    assert RegionBound(r, t, t.procs[pid].region, base);
    BookBound(r, t, t.procs[pid].region, base);
    forall p | 0 <= p < |t.procs| && t.procs[p].Inside? ensures p == pid {
      assert s.procs[p].Inside?;
    }
  }

  lemma EntryFacts(r: Rails, s: System, read: Read, stopped: set<string>, flattened: set<string>, headroom: Book)
    ensures var g := Entry(s, read, stopped, flattened, headroom);
            RegionOk(r, g, s.book - flattened) && |g.counted| <= |s.book|
  {
    SubsetSize(s.book - s.masked - stopped, s.book);
    SubsetSize(s.book - flattened, s.book);
  }

  lemma AcquireKeepsInv(r: Rails, s: System, pid: nat, read: Read, stopped: set<string>, flattened: set<string>,
                        headroom: Book, base: nat)
    requires Inv(r, s, base) && base >= r.concurrent && pid < |s.procs| && s.lock.None?
    ensures Inv(r, AcquireStep(s, pid, read, stopped, flattened, headroom), base)
  {
    EntryFacts(r, s, read, stopped, flattened, headroom);
    SubsetSize(s.book - flattened, s.book);
    OnlyInside(r, s, AcquireStep(s, pid, read, stopped, flattened, headroom), pid, base) by {
      hide Entry, RegionOk;
    }
  }

  /** With nobody inside before, the invariant rests on the one who is now. */
  lemma OnlyInside(r: Rails, s: System, t: System, pid: nat, base: nat)
    requires Locked(s) && s.lock.None? && pid < |s.procs| == |t.procs| && t.lock == Some(pid)
    requires t.procs == s.procs[pid := t.procs[pid]] && t.procs[pid].Inside?
    requires RegionOk(r, t.procs[pid].region, t.book) && RegionBound(r, t, t.procs[pid].region, base)
    requires |t.book| <= base + t.uncounted
    ensures Inv(r, t, base)
  {
    hide RegionOk, RegionBound;
  }

  /** The one holder leaves or dies. */
  lemma HolderGone(r: Rails, s: System, pid: nat, base: nat)
    requires Inv(r, s, base) && pid < |s.procs| && s.procs[pid].Inside?
    ensures Inv(r, Released(s, pid), base)
  {
    hide RegionOk, RegionBound;
    var t := Released(s, pid);
    forall p | 0 <= p < |t.procs| ensures !t.procs[p].Inside? {
      if p != pid { assert s.procs[p].Inside? ==> s.lock == Some(p); }
    }
  }

  lemma BystanderGone(r: Rails, s: System, pid: nat, base: nat)
    requires Inv(r, s, base) && pid < |s.procs| && !s.procs[pid].Inside?
    ensures Inv(r, At(s, pid, Outside), base)
  {
    SameRegions(r, s, At(s, pid, Outside), base);
  }

  lemma ApplyKeepsInv(r: Rails, s: System, a: Action, base: nat)
    requires Inv(r, s, base) && base >= r.concurrent && |s.passed| == |s.procs| == |s.fired| && Orderly(s)
    ensures Inv(r, Apply(s, r, a), base) && Orderly(Apply(s, r, a))
  {
    assert Locked(s);
    OrderlyKept(r, s, a);
    hide Apply, Inv, Locked, Orderly, Max;
    match a
    case Check(pid, basis, raw) => CheckCase(r, s, pid, basis, raw, base);
    case Acquire(pid, read, exits, headroom) => AcquireCase(r, s, pid, read, exits, headroom, base);
    case GiveUp(pid) => GiveUpCase(r, s, pid, base);
    case Decide(pid, v) => DecideCase(r, s, pid, v, base);
    case Leave(pid) => LeaveCase(r, s, pid, base);
    case Die(pid, during) => DieCase(r, s, pid, during, base);
    case Trip => SwitchCase(r, s, a, base);
    case Reset => SwitchCase(r, s, a, base);
    case Scribble => SwitchCase(r, s, a, base);
  }

  lemma CheckCase(r: Rails, s: System, pid: nat, basis: real, raw: Option<real>, base: nat)
    requires Inv(r, s, base) && |s.passed| == |s.procs| == |s.fired|
    ensures Inv(r, Apply(s, r, Check(pid, basis, raw)), base)
  {
    hide Inv, CheckStep;
    if pid < |s.procs| && s.procs[pid].Outside? { CheckKeepsInv(r, s, pid, basis, raw, base); }
  }

  lemma AcquireCase(r: Rails, s: System, pid: nat, read: Read, exits: map<string, Exit>, headroom: Book, base: nat)
    requires Inv(r, s, base) && base >= r.concurrent && |s.passed| == |s.procs| == |s.fired|
    ensures Inv(r, Apply(s, r, Acquire(pid, read, exits, headroom)), base)
  {
    hide Inv, AcquireStep, Stopped, Flattened;
    if pid < |s.procs| && s.procs[pid].Waiting? && s.lock.None? {
      AcquireKeepsInv(r, s, pid, read, if r.dryRun then {} else Stopped(exits),
                      if r.dryRun then {} else Flattened(exits), headroom, base);
    }
  }

  lemma GiveUpCase(r: Rails, s: System, pid: nat, base: nat)
    requires Inv(r, s, base) && |s.passed| == |s.procs| == |s.fired|
    ensures Inv(r, Apply(s, r, GiveUp(pid)), base)
  {
    hide Inv, At;
    if pid < |s.procs| && s.procs[pid].Waiting? { BystanderGone(r, s, pid, base); }
  }

  lemma DecideCase(r: Rails, s: System, pid: nat, v: View, base: nat)
    requires Inv(r, s, base) && base >= r.concurrent && |s.passed| == |s.procs| == |s.fired|
    ensures Inv(r, Apply(s, r, Decide(pid, v)), base)
  {
    hide Inv, DecideStep;
    if pid < |s.procs| && s.procs[pid].Inside? { DecideKeepsInv(r, s, pid, v, base); }
  }

  lemma LeaveCase(r: Rails, s: System, pid: nat, base: nat)
    requires Inv(r, s, base) && |s.passed| == |s.procs| == |s.fired|
    ensures Inv(r, Apply(s, r, Leave(pid)), base)
  {
    hide Inv;
    if pid < |s.procs| && s.procs[pid].Inside? { HolderGone(r, s, pid, base); }
  }

  lemma DieCase(r: Rails, s: System, pid: nat, during: Option<View>, base: nat)
    requires Inv(r, s, base) && base >= r.concurrent && |s.passed| == |s.procs| == |s.fired| && Orderly(s)
    ensures Inv(r, Apply(s, r, Die(pid, during)), base)
  {
    hide Inv, Released, At;
    if pid < |s.procs| {
      if !s.procs[pid].Inside? {
        FreeOfLock(s, pid);
        BystanderGone(r, s, pid, base);
      } else if during.Some? {
        DecideKeepsInv(r, s, pid, during.value, base);
        StillInside(r, s, pid, during.value);
        hide DecideStep;
        HolderGone(r, DecideStep(s, r, pid, during.value), pid, base);
      } else {
        HolderGone(r, s, pid, base);
      }
    }
  }

  lemma StillInside(r: Rails, s: System, pid: nat, v: View)
    requires pid < |s.procs| == |s.fired| && s.procs[pid].Inside?
    ensures var t := DecideStep(s, r, pid, v);
            |t.procs| == |s.procs| && t.procs[pid].Inside? && t.lock == s.lock
  {
    hide Step, Enters;
  }

  lemma SwitchCase(r: Rails, s: System, a: Action, base: nat)
    requires Inv(r, s, base) && |s.passed| == |s.procs| == |s.fired| && (a.Trip? || a.Reset? || a.Scribble?)
    ensures Inv(r, Apply(s, r, a), base)
  {
    hide Inv;
    SwitchKeepsInv(r, s, Apply(s, r, a).switch, base);
  }

  lemma SwitchKeepsInv(r: Rails, s: System, f: SwitchFile, base: nat)
    requires Inv(r, s, base)
    ensures Inv(r, s.(switch := f), base)
  {
    SameRegions(r, s, s.(switch := f), base);
  }

  lemma CheckKeepsInv(r: Rails, s: System, pid: nat, basis: real, raw: Option<real>, base: nat)
    requires Inv(r, s, base) && pid < |s.procs| == |s.passed| && s.procs[pid].Outside?
    ensures Inv(r, CheckStep(s, r, pid, basis, raw), base)
  {
    SameRegions(r, s, CheckStep(s, r, pid, basis, raw), base);
  }

  /** The lock is held only from inside. */
  predicate Orderly(s: System) {
    s.lock.Some? ==> s.lock.value < |s.procs| && s.procs[s.lock.value].Inside?
  }

  lemma FreeOfLock(s: System, pid: nat)
    requires Orderly(s) && pid < |s.procs| && !s.procs[pid].Inside?
    ensures Released(s, pid) == At(s, pid, Outside)
  {
  }

  lemma OrderlyKept(r: Rails, s: System, a: Action)
    requires Orderly(s) && Locked(s) && |s.passed| == |s.procs| == |s.fired|
    ensures Orderly(Apply(s, r, a))
  {
    hide Enters, Step, Entry;
  }

  lemma SameRegions(r: Rails, s: System, t: System, base: nat)
    requires Inv(r, s, base) && t.book == s.book && t.lock == s.lock && t.uncounted == s.uncounted
    requires |t.procs| == |s.procs|
    requires forall p :: 0 <= p < |t.procs| && t.procs[p].Inside? ==> t.procs[p] == s.procs[p]
    ensures Inv(r, t, base)
  {
    hide RegionOk;
  }

  /** Over any number of overlapping ticks, deaths, timeouts and book-read failures: the book
      never holds more symbols than it began with or the cap allows, beyond those that entered
      uncounted. */
  lemma {:induction false} ConcurrentCapHolds(r: Rails, n: nat, book: set<string>, f: SwitchFile, actions: seq<Action>)
    ensures var s := Run(Init(n, book, f), r, actions);
            && Inv(r, s, Max(|book|, r.concurrent)) && Orderly(s)
            && |s.book| <= Max(|book|, r.concurrent) + s.uncounted
  {
    hide Apply, RegionOk, RegionBound;
    if actions != [] {
      ConcurrentCapHolds(r, n, book, f, Front(actions));
      ApplyKeepsInv(r, Run(Init(n, book, f), r, Front(actions)), Last(actions), Max(|book|, r.concurrent));
    }
  }

  // ---------------------------------------------------------------- when nothing goes uncounted

  /** What the surroundings may do: a reactor exception may hide a fill, and a symbol the sweep
      reports stopped may stay in the book. */
  datatype Env = Env(hides: bool, lingers: bool)

  predicate Hides(v: View) {
    v.look.Seen? && v.look.react == Raised(true)
  }

  predicate Permitted(r: Rails, env: Env, s: System, a: Action) {
    match a
    case Acquire(_, read, exits, _) =>
      env.lingers || r.dryRun || read.FailsEarly? || s.book * Stopped(exits) <= Flattened(exits)
    case Decide(_, v) => env.hides || !Hides(v)
    case Die(_, during) => env.hides || during.None? || !Hides(during.value)
    case _ => true
  }

  ghost predicate PermittedRun(r: Rails, env: Env, s: System, actions: seq<Action>)
    requires |s.passed| == |s.procs| == |s.fired|
  {
    actions == []
    || (PermittedRun(r, env, s, Front(actions)) && Permitted(r, env, Run(s, r, Front(actions)), Last(actions)))
  }

  /** Nothing can enter uncounted. */
  predicate CapSafe(r: Rails, env: Env) {
    r.dryRun || (!(r.options && Funded(r.funds)) && !env.hides && !env.lingers)
  }

  lemma SafeEnters(r: Rails, env: Env, t: Tick, v: View)
    requires CapSafe(r, env) && (env.hides || !Hides(v))
    ensures Enters(r, t, v).uncounted == {} && Hidden(r, t, v) == {}
  {
    hide SizeFor, OriginationOf;
    if v.look.Seen? && !r.dryRun && r.options { UnfundedOriginatesNothing(r, v.look.attempt); }
  }

  lemma SafeDecide(r: Rails, env: Env, s: System, pid: nat, v: View)
    requires CapSafe(r, env) && (env.hides || !Hides(v))
    requires pid < |s.procs| == |s.fired| && s.procs[pid].Inside?
    ensures DecideStep(s, r, pid, v).uncounted == s.uncounted && DecideStep(s, r, pid, v).masked <= s.masked
  {
    hide Enters, Step, Hidden;
    SafeEnters(r, env, s.procs[pid].region.tick, v);
    assert s.procs[pid].region.extra + {} == s.procs[pid].region.extra;
  }

  lemma SafeStep(r: Rails, env: Env, s: System, a: Action)
    requires |s.passed| == |s.procs| == |s.fired| && CapSafe(r, env) && Permitted(r, env, s, a) && s.masked == {}
    ensures Apply(s, r, a).uncounted == s.uncounted && Apply(s, r, a).masked == {}
  {
    hide DecideStep, CapSafe, Hides, Stopped, Flattened;
    if a.Decide? && a.pid < |s.procs| && s.procs[a.pid].Inside? { SafeDecide(r, env, s, a.pid, a.view); }
    if a.Die? && a.during.Some? && a.pid < |s.procs| && s.procs[a.pid].Inside? {
      SafeDecide(r, env, s, a.pid, a.during.value);
    }
    if a.Acquire? { SafeAcquire(r, env, s, a.exits, a.read); }
  }

  lemma SafeAcquire(r: Rails, env: Env, s: System, exits: map<string, Exit>, read: Read)
    requires CapSafe(r, env) && s.masked == {}
    requires env.lingers || r.dryRun || read.FailsEarly? || s.book * Stopped(exits) <= Flattened(exits)
    ensures !read.FailsEarly? ==>
              var stopped, flattened := if r.dryRun then {} else Stopped(exits), if r.dryRun then {} else Flattened(exits);
              (s.book - flattened) - (s.book - s.masked - stopped) == {}
  {
    hide Stopped, Flattened;
  }

  /** With nothing uncounted the cap is exact: overlapping ticks together never hold more than
      the larger of the starting book and `max_concurrent_positions`. */
  lemma {:induction false} ConcurrentCapExact(r: Rails, env: Env, n: nat, book: set<string>, f: SwitchFile,
                                              actions: seq<Action>)
    requires CapSafe(r, env) && PermittedRun(r, env, Init(n, book, f), actions)
    ensures var s := Run(Init(n, book, f), r, actions);
            s.uncounted == 0 && s.masked == {} && |s.book| <= Max(|book|, r.concurrent)
  {
    hide Apply, Inv, Permitted, CapSafe;
    if actions != [] {
      ConcurrentCapExact(r, env, n, book, f, Front(actions));
      SafeStep(r, env, Run(Init(n, book, f), r, Front(actions)), Last(actions));
    }
    ConcurrentCapHolds(r, n, book, f, actions);
  }

  /** A tick whose book read failed counts no new symbol: all it can leave in the book was
      there at entry, or entered uncounted. */
  lemma {:induction false} FailedReadOpensNothing(r: Rails, n: nat, book: set<string>, f: SwitchFile,
                                                  actions: seq<Action>, pid: nat)
    requires var s := Run(Init(n, book, f), r, actions);
             pid < |s.procs| && s.procs[pid].Inside? && s.procs[pid].region.tick.readFailed
    ensures var s := Run(Init(n, book, f), r, actions);
            s.book <= s.procs[pid].region.counted + s.procs[pid].region.extra
  {
    ConcurrentCapHolds(r, n, book, f, actions);
    hide Run;
  }

  // ---------------------------------------------------------------- where the cap gives way

  /** Distinct symbols. */
  function Name(k: nat): string {
    if k == 0 then "" else Name(k - 1) + "A"
  }

  function Names(k: nat): set<string> {
    if k == 0 then {} else Names(k - 1) + {Name(k)}
  }

  lemma {:induction false} NamesFacts(k: nat)
    ensures |Name(k)| == k && |Names(k)| == k && forall x :: x in Names(k) ==> 0 < |x| <= k
  {
    if k > 0 {
      NamesFacts(k - 1);
      NameLength(k);
    }
  }

  lemma {:induction false} NameLength(k: nat)
    ensures |Name(k)| == k
  {
    if k > 0 { NameLength(k - 1); }
  }

  lemma Snoc(r: Rails, env: Env, s: System, actions: seq<Action>, a: Action)
    requires |s.passed| == |s.procs| == |s.fired|
    ensures Run(s, r, actions + [a]) == Apply(Run(s, r, actions), r, a)
    ensures PermittedRun(r, env, s, actions + [a]) <==>
              PermittedRun(r, env, s, actions) && Permitted(r, env, Run(s, r, actions), a)
  {
    hide Apply, Permitted;
    FrontLast(actions, a);
  }

  function Look1(kelly: real, a: Attempt, react: React): Look {
    Seen(a, true, kelly, None, false, None, react)
  }

  lemma OneHeld(h: real)
    requires h > 0.0
    ensures Gross(map["" := -h]) == h && NetOf(map["" := -h]) == -h
  {
    var m := map["" := -h];
    GrossWithout(m, "");
    NetWithout(m, "");
    assert m - {""} == map[];
  }

  /** Whatever the rails, some headroom lets some size through. */
  lemma Fireable(r: Rails) returns (headroom: Book, kelly: real)
    requires RailsOk(r)
    ensures forall a, react :: SizeFor(r, headroom, Look1(kelly, a, react)).Ok?
  {
    headroom, kelly := map[], 1.0;
    if r.caps.Some? {
      var h := Min(r.caps.value.gross, 1.0 - r.caps.value.cashReserve) / 4.0;
      headroom, kelly := map["" := -h], h / 2.0;
      OneHeld(h);
      assert Clip(r.caps.value, h, -h, kelly).Some?;
      hide Clip, Gross, NetOf;
    }
  }

  function Enter(headroom: Book, exits: map<string, Exit>): seq<Action> {
    [Check(0, 0.0, None), Acquire(0, Good, exits, headroom)]
  }

  /** One process, out of the region, the switch unset. */
  predicate Idle(s: System) {
    s.procs == [Outside] && |s.passed| == |s.fired| == 1 && s.lock.None? && s.switch == NoFile
  }

  /** One process in the region. */
  predicate Busy(s: System) {
    |s.procs| == |s.passed| == |s.fired| == 1 && s.procs[0].Inside? && s.lock == Some(0) && s.switch == NoFile
  }

  lemma SameEntry(s: System, t: System, read: Read, stopped: set<string>, flattened: set<string>, headroom: Book)
    requires s.book == t.book && s.masked == t.masked
    ensures Entry(s, read, stopped, flattened, headroom) == Entry(t, read, stopped, flattened, headroom)
  {
  }

  lemma CheckEffect(r: Rails, s: System)
    requires Idle(s)
    ensures Apply(s, r, Check(0, 0.0, None)) == s.(procs := [Waiting], passed := [Some(0.10)])
  {
    assert s.passed[0 := Some(0.10)] == [Some(0.10)] && s.procs[0 := Waiting] == [Waiting];
  }

  lemma AcquireEffect(r: Rails, s: System, headroom: Book, exits: map<string, Exit>)
    requires s.procs == [Waiting] && |s.passed| == |s.fired| == 1 && s.lock.None? && s.switch == NoFile
    requires !r.dryRun && Flattened(exits) == {}
    ensures var t := Apply(s, r, Acquire(0, Good, exits, headroom));
            && Busy(t) && t.procs == [Inside(Entry(s, Good, Stopped(exits), {}, headroom))]
            && t.book == s.book && t.masked == s.masked
  {
    hide Stopped, Flattened, Entry;
    assert s.book - {} == s.book && s.masked - {} == s.masked;
  }

  lemma EnterFacts(r: Rails, env: Env, s: System, headroom: Book, exits: map<string, Exit>)
    requires Idle(s) && !r.dryRun && Flattened(exits) == {}
    requires env.lingers || Stopped(exits) == {}
    ensures var t := Run(s, r, Enter(headroom, exits));
            && Busy(t) && t.procs == [Inside(Entry(s, Good, Stopped(exits), {}, headroom))]
            && t.book == s.book && t.masked == s.masked
    ensures PermittedRun(r, env, s, Enter(headroom, exits))
  {
    var a, b := Check(0, 0.0, None), Acquire(0, Good, exits, headroom);
    CheckEffect(r, s);
    var u := Apply(s, r, a);
    AcquireEffect(r, u, headroom, exits);
    SameEntry(s, u, Good, Stopped(exits), {}, headroom);
    hide Stopped, Flattened, Entry, Apply, Busy;
    assert Enter(headroom, exits) == ([] + [a]) + [b];
    Snoc(r, env, s, [], a);
    Snoc(r, env, s, [] + [a], b);
  }

  /** What a tick begins with. */
  lemma FreshTick(s: System, stopped: set<string>, headroom: Book)
    ensures var t := Entry(s, Good, stopped, {}, headroom).tick;
            && t.firesThisTick == 0 && !t.readFailed && t.stopped == stopped && t.headroom == headroom
            && t.openSymbols == s.book - s.masked - stopped && t.openCount == |s.book - s.masked - stopped|
  {
  }

  lemma AtStart(book: set<string>)
    ensures var s := Init(1, book, NoFile); Idle(s) && s.book == book && s.masked == {}
  {
  }

  lemma DecideEffect(r: Rails, s: System, v: View)
    requires Busy(s)
    ensures var t := Apply(s, r, Decide(0, v));
            && Busy(t) && t.procs[0].region.tick == Step(r, s.procs[0].region.tick, v)
            && t.book == s.book + Enters(r, s.procs[0].region.tick, v).all
            && t.masked == s.masked + Hidden(r, s.procs[0].region.tick, v) - Enters(r, s.procs[0].region.tick, v).all
  {
    hide Step, Enters, Hidden;
  }

  lemma LeaveEffect(r: Rails, s: System)
    requires Busy(s)
    ensures var t := Apply(s, r, Leave(0)); Idle(t) && t.book == s.book && t.masked == s.masked
  {
  }

  /** A tick inside whose counters have not moved, over a book of `k` symbols. */
  predicate Unmoved(s: System, k: nat, headroom: Book) {
    && Busy(s) && s.book == Names(k)
    && var t := s.procs[0].region.tick;
       t.firesThisTick == 0 && t.openSymbols == {} && t.openCount == 0 && !t.readFailed && t.stopped == {}
       && t.headroom == headroom
  }

  lemma HiddenStep(r: Rails, t: Tick, symbol: string, kelly: real)
    requires RailsOk(r) && !r.dryRun && SizeFor(r, t.headroom, Look1(kelly, Abstains, Raised(true))).Ok?
    requires t.firesThisTick == 0 && t.openSymbols == {} && t.openCount == 0 && !t.readFailed && t.stopped == {}
    ensures var v := View(symbol, Look1(kelly, Abstains, Raised(true)));
            Step(r, t, v) == Failed(t, symbol, ReactError) && Enters(r, t, v) == Entered({symbol}, {symbol})
  {
    hide SizeFor;
  }

  function HiddenRun(headroom: Book, kelly: real, k: nat): seq<Action> {
    if k == 0 then Enter(headroom, map[])
    else HiddenRun(headroom, kelly, k - 1) + [Decide(0, HiddenView(kelly, k))]
  }

  function HiddenView(kelly: real, k: nat): View {
    View(Name(k), Look1(kelly, Abstains, Raised(true)))
  }

  /** Fills hidden behind exceptions pile up in one tick without moving a counter. */
  lemma {:induction false} HiddenFillsPile(r: Rails, env: Env, headroom: Book, kelly: real, k: nat)
    requires RailsOk(r) && !r.dryRun && env.hides
    requires SizeFor(r, headroom, Look1(kelly, Abstains, Raised(true))).Ok?
    ensures PermittedRun(r, env, Init(1, {}, NoFile), HiddenRun(headroom, kelly, k))
    ensures Unmoved(Run(Init(1, {}, NoFile), r, HiddenRun(headroom, kelly, k)), k, headroom)
  {
    AtStart({});
    hide Run, PermittedRun, SizeFor, Apply, Unmoved, HiddenView, Init, Enter, Permitted;
    var s := Init(1, {}, NoFile);
    if k == 0 {
      HiddenStart(r, env, headroom);
    } else {
      HiddenFillsPile(r, env, headroom, kelly, k - 1);
      var before, a := HiddenRun(headroom, kelly, k - 1), Decide(0, HiddenView(kelly, k));
      UnmovedSizes(Run(s, r, before), k - 1, headroom);
      HiddenMore(r, env, Run(s, r, before), k - 1, headroom, kelly);
      Snoc(r, env, s, before, a);
    }
  }

  lemma UnmovedSizes(s: System, k: nat, headroom: Book)
    requires Unmoved(s, k, headroom)
    ensures |s.passed| == |s.procs| == |s.fired|
  {
  }

  lemma HiddenStart(r: Rails, env: Env, headroom: Book)
    requires !r.dryRun
    ensures var s := Init(1, {}, NoFile);
            PermittedRun(r, env, s, Enter(headroom, map[])) && Unmoved(Run(s, r, Enter(headroom, map[])), 0, headroom)
  {
    var s := Init(1, {}, NoFile);
    AtStart({});
    NoExits();
    EnterFacts(r, env, s, headroom, map[]);
    hide Init, Run, PermittedRun, Enter;
    var none: set<string> := {};
    assert none - {} - {} == {} && |none - {} - {}| == 0;
  }

  lemma HiddenMore(r: Rails, env: Env, s: System, k: nat, headroom: Book, kelly: real)
    requires RailsOk(r) && !r.dryRun && Unmoved(s, k, headroom)
    requires SizeFor(r, headroom, Look1(kelly, Abstains, Raised(true))).Ok?
    ensures Unmoved(Apply(s, r, Decide(0, HiddenView(kelly, k + 1))), k + 1, headroom)
    ensures env.hides ==> Permitted(r, env, s, Decide(0, HiddenView(kelly, k + 1)))
  {
    HiddenStep(r, s.procs[0].region.tick, Name(k + 1), kelly);
    DecideEffect(r, s, HiddenView(kelly, k + 1));
    hide Step, Enters, SizeFor, Apply;
  }

  lemma NoExits()
    ensures Stopped(map[]) == {} && Flattened(map[]) == {}
  {
  }

  lemma {:induction false} RunConcat(r: Rails, env: Env, s: System, a: seq<Action>, b: seq<Action>)
    requires |s.passed| == |s.procs| == |s.fired|
    ensures Run(s, r, a + b) == Run(Run(s, r, a), r, b)
    ensures PermittedRun(r, env, s, a) && PermittedRun(r, env, Run(s, r, a), b) ==> PermittedRun(r, env, s, a + b)
  {
    hide Apply, Permitted;
    if b == [] {
      assert a + b == a;
    } else {
      FrontOfConcat(a, b);
      RunConcat(r, env, s, a, Front(b));
    }
  }

  // ---------------------------------------------------------------- a new symbol over a full book

  function NewView(symbol: string, kelly: real): View {
    View(symbol, Look1(kelly, Abstains, Filled(None)))
  }

  lemma NewStep(r: Rails, t: Tick, symbol: string, kelly: real)
    requires RailsOk(r) && !r.dryRun && SizeFor(r, t.headroom, Look1(kelly, Abstains, Filled(None))).Ok?
    requires t.firesThisTick < r.perTick && symbol !in t.stopped
    requires symbol in t.openSymbols || (!t.readFailed && t.openCount + t.firesThisTick < r.concurrent)
    ensures Enters(r, t, NewView(symbol, kelly)).all == {symbol}
  {
    hide SizeFor;
  }

  /** Where the rail sees room, or exempts the symbol, a new one enters. */
  lemma OneMore(r: Rails, env: Env, s: System, symbol: string, kelly: real)
    requires RailsOk(r) && !r.dryRun && Busy(s)
    requires var t := s.procs[0].region.tick;
             && SizeFor(r, t.headroom, Look1(kelly, Abstains, Filled(None))).Ok?
             && t.firesThisTick < r.perTick && symbol !in t.stopped
             && (symbol in t.openSymbols || (!t.readFailed && t.openCount + t.firesThisTick < r.concurrent))
    ensures var a := Decide(0, NewView(symbol, kelly));
            Apply(s, r, a).book == s.book + {symbol} && symbol !in Apply(s, r, a).masked && Permitted(r, env, s, a)
  {
    NewStep(r, s.procs[0].region.tick, symbol, kelly);
    hide Enters, Step, SizeFor, Apply, Hidden;
    DecideEffect(r, s, NewView(symbol, kelly));
  }

  /** A full book, a symbol the sweep reports stopped but that stays, and one new fire. */
  lemma LingeringPasses(r: Rails, env: Env, headroom: Book, kelly: real) returns (actions: seq<Action>)
    requires RailsOk(r) && !r.dryRun && env.lingers
    requires SizeFor(r, headroom, Look1(kelly, Abstains, Filled(None))).Ok?
    ensures var s := Init(1, Names(r.concurrent), NoFile);
            PermittedRun(r, env, s, actions) && Run(s, r, actions).book == Names(r.concurrent + 1)
  {
    hide Run, PermittedRun, SizeFor, Init, Apply, Stopped, Flattened, Permitted, Entry, RailsOk;
    var c := r.concurrent;
    var s := Init(1, Names(c), NoFile);
    var exits := map[Name(1) := Answered(None, false)];
    OneLingers(Name(1));
    AtStart(Names(c));
    EnterFacts(r, env, s, headroom, exits);
    FreshTick(s, {Name(1)}, headroom);
    AtLeastOneSlot(r);
    FullLessOne(c);
    assert Names(c) - {} - {Name(1)} == Names(c) - {Name(1)};
    var e, a := Enter(headroom, exits), Decide(0, NewView(Name(c + 1), kelly));
    OneMore(r, env, Run(s, r, e), Name(c + 1), kelly);
    Snoc(r, env, s, e, a);
    actions := e + [a];
  }

  lemma OneLingers(symbol: string)
    ensures var exits := map[symbol := Answered(None, false)]; Stopped(exits) == {symbol} && Flattened(exits) == {}
  {
  }

  lemma AtLeastOneSlot(r: Rails)
    requires RailsOk(r)
    ensures r.concurrent >= 1 && r.perTick >= 1
  {
  }

  // ---------------------------------------------------------------- families of a funded gate

  /** A structure the gate admits, booked, hiding its underlying. */
  function FamilyView(r: Rails, symbol: string): View
    requires Funded(r.funds)
  {
    View(symbol, Look1(0.0, Offers(Sample(r.funds), Booked({symbol})), NoFill))
  }

  lemma FamilyStep(r: Rails, t: Tick, symbol: string)
    requires RailsOk(r) && !r.dryRun && r.options && Funded(r.funds) && t.firesThisTick < r.perTick && symbol !in t.stopped
    ensures var v := FamilyView(r, symbol);
            && Enters(r, t, v) == Entered({}, {symbol}) && Hidden(r, t, v) == {symbol}
            && Step(r, t, v).firesThisTick == t.firesThisTick + 1 && Step(r, t, v).openSymbols == t.openSymbols + {symbol}
            && Step(r, t, v).stopped == t.stopped && Step(r, t, v).headroom == t.headroom
  {
    hide Admits, Build, Sample;
    SampleAdmitted(r.funds);
    assert Build(Sample(r.funds)).Ready? by { AdmitsReady(r.funds, Sample(r.funds)); }
  }

  lemma AdmitsReady(f: Funds, o: Offer)
    requires Admits(f, o)
    ensures Build(o).Ready?
  {
  }

  /** A family fires inside a tick. */
  lemma FamilyFires(r: Rails, env: Env, s: System, symbol: string)
    requires RailsOk(r) && !r.dryRun && r.options && Funded(r.funds) && Busy(s)
    requires var t := s.procs[0].region.tick; t.firesThisTick < r.perTick && symbol !in t.stopped
    ensures var a := Decide(0, FamilyView(r, symbol));
            && Busy(Apply(s, r, a)) && Apply(s, r, a).book == s.book && Apply(s, r, a).masked == s.masked + {symbol}
            && Permitted(r, env, s, a)
    ensures var t, u := s.procs[0].region.tick, Apply(s, r, Decide(0, FamilyView(r, symbol))).procs[0].region.tick;
            && u.firesThisTick == t.firesThisTick + 1 && u.openSymbols == t.openSymbols + {symbol}
            && u.stopped == t.stopped && u.headroom == t.headroom
  {
    FamilyStep(r, s.procs[0].region.tick, symbol);
    hide Enters, Step, Hidden, Apply;
    DecideEffect(r, s, FamilyView(r, symbol));
    assert s.book + {} == s.book && s.masked + {symbol} - {} == s.masked + {symbol};
  }

  /** A family on a held symbol hides it, and the next tick counts one slot too few. */
  lemma MaskedPasses(r: Rails, env: Env, headroom: Book, kelly: real) returns (actions: seq<Action>)
    requires RailsOk(r) && !r.dryRun && r.options && Funded(r.funds)
    requires SizeFor(r, headroom, Look1(kelly, Abstains, Filled(None))).Ok?
    ensures var s := Init(1, Names(r.concurrent), NoFile);
            PermittedRun(r, env, s, actions) && Run(s, r, actions).book == Names(r.concurrent + 1)
  {
    hide SizeFor, Init, Apply, Stopped, Flattened, Permitted, Run, PermittedRun, Entry, RailsOk;
    var c := r.concurrent;
    var s := Init(1, Names(c), NoFile);
    AtStart(Names(c));
    NoExits();
    AtLeastOneSlot(r);
    FullLessOne(c);
    var first := FamilyTick(r, env, s, Name(1));
    var u, e, a := Run(s, r, first), Enter(headroom, map[]), Decide(0, NewView(Name(c + 1), kelly));
    EnterFacts(r, env, u, headroom, map[]);
    FreshTick(u, {}, headroom);
    assert Names(c) - ({} + {Name(1)}) - {} == Names(c) - {Name(1)};
    OneMore(r, env, Run(u, r, e), Name(c + 1), kelly);
    Snoc(r, env, u, e, a);
    RunConcat(r, env, s, first, e + [a]);
    actions := first + (e + [a]);
  }

  /** A whole tick that fires one family and nothing else. */
  lemma FamilyTick(r: Rails, env: Env, s: System, symbol: string) returns (actions: seq<Action>)
    requires RailsOk(r) && !r.dryRun && r.options && Funded(r.funds) && Idle(s)
    ensures var t := Run(s, r, actions); Idle(t) && t.book == s.book && t.masked == s.masked + {symbol}
    ensures PermittedRun(r, env, s, actions)
  {
    hide Run, PermittedRun, Apply, Entry, Stopped, Flattened, RailsOk;
    NoExits();
    EnterFacts(r, env, s, map[], map[]);
    FreshTick(s, {}, map[]);
    AtLeastOneSlot(r);
    var e, a := Enter(map[], map[]), Decide(0, FamilyView(r, symbol));
    var t := Run(s, r, e);
    FamilyFires(r, env, t, symbol);
    LeaveEffect(r, Apply(t, r, a));
    Snoc(r, env, s, e, a);
    Snoc(r, env, s, e + [a], Leave(0));
    actions := e + [a] + [Leave(0)];
  }

  /** With two fires a tick even the book the rail reads passes the cap: a family exempts its
      symbol, and a second signal on it fires as if it were held. */
  lemma ExemptPasses(r: Rails, env: Env, headroom: Book, kelly: real) returns (actions: seq<Action>)
    requires RailsOk(r) && !r.dryRun && r.options && Funded(r.funds) && r.perTick >= 2
    requires SizeFor(r, headroom, Look1(kelly, Abstains, Filled(None))).Ok?
    ensures var s := Init(1, Names(r.concurrent), NoFile);
            var t := Run(s, r, actions);
            PermittedRun(r, env, s, actions) && t.book == Names(r.concurrent + 1) && |t.book - t.masked| == r.concurrent + 1
  {
    hide Run, PermittedRun, Apply, Permitted, Entry, Stopped, Flattened, SizeFor, Init, RailsOk;
    var c := r.concurrent;
    var s := Init(1, Names(c), NoFile);
    AtStart(Names(c));
    NoExits();
    EnterFacts(r, env, s, headroom, map[]);
    FreshTick(s, {}, headroom);
    var e, a, b := Enter(headroom, map[]), Decide(0, FamilyView(r, Name(c + 1))), Decide(0, NewView(Name(c + 1), kelly));
    var t := Run(s, r, e);
    AtLeastOneSlot(r);
    FamilyFires(r, env, t, Name(c + 1));
    var u := Apply(t, r, a);
    OneMore(r, env, u, Name(c + 1), kelly);
    StillHidden(r, u, Name(c + 1), kelly);
    Snoc(r, env, s, e, a);
    Snoc(r, env, s, e + [a], b);
    actions := e + [a] + [b];
    NamesFacts(c + 1);
    assert Apply(u, r, b).book - Apply(u, r, b).masked == Names(c + 1);
  }

  /** A plain fire hides nothing more. */
  lemma StillHidden(r: Rails, s: System, symbol: string, kelly: real)
    requires Busy(s)
    ensures Apply(s, r, Decide(0, NewView(symbol, kelly))).masked <= s.masked
  {
    hide Enters, Step, Apply;
    DecideEffect(r, s, NewView(symbol, kelly));
  }

  lemma FullLessOne(c: nat)
    requires c >= 1
    ensures |Names(c) - {Name(1)}| == c - 1 && Name(c + 1) !in Names(c) && Name(c + 1) != Name(1)
  {
    NamesFacts(c);
    NameLength(c + 1);
    NameLength(1);
    NamesStart(c);
  }

  lemma {:induction false} NamesStart(k: nat)
    requires k >= 1
    ensures Name(1) in Names(k)
  {
    if k > 1 { NamesStart(k - 1); }
  }

  /** The cap holds on every run the surroundings permit. */
  ghost predicate CapHolds(r: Rails, env: Env) {
    forall n: nat, book, f, actions ::
      PermittedRun(r, env, Init(n, book, f), actions) ==>
        |Run(Init(n, book, f), r, actions).book| <= Max(|book|, r.concurrent)
  }

  /** The cap holds on every run iff the ticks are dry, or no funds reach the options gate, no
      reactor exception hides a fill and nothing the sweep reports stopped lingers. */
  lemma {:induction false} CapHoldsIff(r: Rails, env: Env)
    requires RailsOk(r)
    ensures CapHolds(r, env) <==> CapSafe(r, env)
  {
    if CapSafe(r, env) {
      forall n: nat, book, f, actions | PermittedRun(r, env, Init(n, book, f), actions)
        ensures |Run(Init(n, book, f), r, actions).book| <= Max(|book|, r.concurrent)
      {
        ConcurrentCapExact(r, env, n, book, f, actions);
      }
    } else {
      CapBreaks(r, env);
    }
  }

  /** As the tick is written, with nothing to show the options gate: the cap holds iff ticks are dry
      or exceptions hide nothing and nothing lingers, whether options are on or not. */
  lemma {:induction false} CapAsWritten(r: Rails, env: Env)
    requires RailsOk(r) && r.funds == UNFUNDED
    ensures CapHolds(r, env) <==> r.dryRun || (!env.hides && !env.lingers)
  {
    CapHoldsIff(r, env);
    hide CapHolds;
  }

  lemma {:induction false} CapBreaks(r: Rails, env: Env)
    requires RailsOk(r) && !CapSafe(r, env)
    ensures !CapHolds(r, env)
  {
    hide Run, PermittedRun, SizeFor, Unmoved;
    var c := r.concurrent;
    var headroom, kelly := Fireable(r);
    NamesFacts(c);
    NamesFacts(c + 1);
    if env.hides {
      HiddenFillsPile(r, env, headroom, kelly, c + 1);
      UnmovedBook(Run(Init(1, {}, NoFile), r, HiddenRun(headroom, kelly, c + 1)), c + 1, headroom);
      Breaks(r, env, {}, HiddenRun(headroom, kelly, c + 1));
    } else if env.lingers {
      var actions := LingeringPasses(r, env, headroom, kelly);
      Breaks(r, env, Names(c), actions);
    } else {
      var actions := MaskedPasses(r, env, headroom, kelly);
      Breaks(r, env, Names(c), actions);
    }
  }

  lemma UnmovedBook(s: System, k: nat, headroom: Book)
    requires Unmoved(s, k, headroom)
    ensures s.book == Names(k)
  {
  }

  /** One permitted run over the cap. */
  lemma {:induction false} Breaks(r: Rails, env: Env, book: set<string>, actions: seq<Action>)
    requires PermittedRun(r, env, Init(1, book, NoFile), actions)
    requires |Run(Init(1, book, NoFile), r, actions).book| > Max(|book|, r.concurrent)
    ensures !CapHolds(r, env)
  {
    hide Run, PermittedRun;
  }

  // ---------------------------------------------------------------- the kill switch over runs

  /** Every tick past its check saw a basis above minus the threshold. */
  predicate Cleared(s: System) {
    |s.passed| == |s.procs|
    && forall p :: 0 <= p < |s.procs| && !s.procs[p].Outside? ==> s.passed[p].Some? && s.passed[p].value > 0.0
  }

  lemma ClearedKept(r: Rails, s: System, a: Action)
    requires Cleared(s) && |s.procs| == |s.fired|
    ensures Cleared(Apply(s, r, a))
  {
    hide Step, Enters, Entry;
  }

  /** A tick that is deciding, in any reachable state, was cleared by its own check: the switch
      did not halt it, and the basis it saw was above minus the threshold. */
  lemma {:induction false} DecidersWereCleared(r: Rails, n: nat, book: set<string>, f: SwitchFile, actions: seq<Action>)
    ensures Cleared(Run(Init(n, book, f), r, actions))
  {
    hide Apply;
    if actions != [] {
      DecidersWereCleared(r, n, book, f, Front(actions));
      ClearedKept(r, Run(Init(n, book, f), r, Front(actions)), Last(actions));
    }
  }

  lemma HaltedStep(r: Rails, s: System, a: Action, pid: nat)
    requires |s.passed| == |s.procs| == |s.fired| && Halts(s.switch) && a != Reset
    requires pid < |s.procs| && s.procs[pid].Outside?
    ensures var t := Apply(s, r, a);
            Halts(t.switch) && t.procs[pid].Outside? && t.fired[pid] == s.fired[pid]
  {
    hide Step, Enters, Entry;
  }

  /** From a trip (or an unreadable file) until a reset, a tick that had not begun its check
      never gets in and never fires, whatever the others do. */
  lemma {:induction false} TrippedFiresNothing(r: Rails, s: System, actions: seq<Action>, pid: nat)
    requires |s.passed| == |s.procs| == |s.fired| && Halts(s.switch) && Reset !in actions
    requires pid < |s.procs| && s.procs[pid].Outside?
    ensures var t := Run(s, r, actions);
            Halts(t.switch) && t.procs[pid].Outside? && t.fired[pid] == s.fired[pid]
  {
    hide Apply;
    if actions != [] {
      assert actions == Front(actions) + [Last(actions)];
      TrippedFiresNothing(r, s, Front(actions), pid);
      HaltedStep(r, Run(s, r, Front(actions)), Last(actions), pid);
    }
  }

  /** The configured threshold if it is positive, else ten percent. */
  predicate IsThreshold(raw: Option<real>, t: real) {
    if raw.Some? && raw.value > 0.0 then t == raw.value else t == 0.10
  }

  /** A check that finds the switch set, or the file unreadable, changes nothing. Else a basis at or
      below minus the threshold sets the switch, unless the tick is dry, and keeps the tick out; a
      better one lets it go on to the lock and leaves the switch alone. */
  lemma CheckDecides(r: Rails, s: System, pid: nat, basis: real, raw: Option<real>, t: real)
    requires |s.passed| == |s.procs| == |s.fired| && pid < |s.procs| && s.procs[pid].Outside? && IsThreshold(raw, t)
    ensures var u := Apply(s, r, Check(pid, basis, raw));
            && (s.switch == Unparseable || s.switch == Stored(true) ==> u == s)
            && (s.switch == NoFile || s.switch == Stored(false) ==>
                  && (basis <= -t ==> u == s.(switch := if r.dryRun then s.switch else Stored(true)))
                  && (basis > -t ==> u.procs == s.procs[pid := Waiting] && u.switch == s.switch && u.book == s.book
                                     && u.lock == s.lock && u.fired == s.fired))
  {
  }

  /** From a live check that finds a breach, over every run without a reset, no process that was
      outside its check, the checking one included, enters or fires. */
  lemma BreachHaltsAll(r: Rails, s: System, pid: nat, basis: real, raw: Option<real>, t: real, actions: seq<Action>,
                       other: nat)
    requires |s.passed| == |s.procs| == |s.fired| && pid < |s.procs| && s.procs[pid].Outside? && IsThreshold(raw, t)
    requires !r.dryRun && basis <= -t && Reset !in actions && other < |s.procs| && s.procs[other].Outside?
    ensures var u := Run(Apply(s, r, Check(pid, basis, raw)), r, actions);
            Halts(u.switch) && u.procs[other].Outside? && u.fired[other] == s.fired[other]
  {
    CheckDecides(r, s, pid, basis, raw, t);
    hide Apply, Run;
    TrippedFiresNothing(r, Apply(s, r, Check(pid, basis, raw)), actions, other);
  }

  /** Dry ticks leave the switch alone, whatever they find. */
  lemma {:induction false} DryTicksLeaveTheSwitch(r: Rails, s: System, actions: seq<Action>)
    requires |s.passed| == |s.procs| == |s.fired| && r.dryRun
    requires forall a :: a in actions ==> !a.Trip? && !a.Reset? && !a.Scribble?
    ensures Run(s, r, actions).switch == s.switch
  {
    hide Apply;
    if actions != [] {
      assert actions == Front(actions) + [Last(actions)];
      DryTicksLeaveTheSwitch(r, s, Front(actions));
      DryStepKeepsSwitch(r, Run(s, r, Front(actions)), Last(actions));
    }
  }

  lemma DryStepKeepsSwitch(r: Rails, s: System, a: Action)
    requires |s.passed| == |s.procs| == |s.fired| && r.dryRun && !a.Trip? && !a.Reset? && !a.Scribble?
    ensures Apply(s, r, a).switch == s.switch
  {
    hide Step, Enters, Entry, Hidden;
  }

  /** The same from the operator's trip and from damage to the file; and after a reset the next check
      that finds no breach goes on to the lock. */
  lemma HandsOnTheSwitch(r: Rails, s: System, actions: seq<Action>, other: nat, basis: real, raw: Option<real>, t: real)
    requires |s.passed| == |s.procs| == |s.fired| && other < |s.procs| && s.procs[other].Outside? && IsThreshold(raw, t)
    ensures Reset !in actions ==>
              var u := Run(Apply(s, r, Trip), r, actions);
              Halts(u.switch) && u.procs[other].Outside? && u.fired[other] == s.fired[other]
    ensures Reset !in actions && s.switch != NoFile ==>
              var u := Run(Apply(s, r, Scribble), r, actions);
              Halts(u.switch) && u.procs[other].Outside? && u.fired[other] == s.fired[other]
    ensures basis > -t ==> Apply(Apply(s, r, Reset), r, Check(other, basis, raw)).procs == s.procs[other := Waiting]
  {
    var trip, scribble, reset := Apply(s, r, Trip), Apply(s, r, Scribble), Apply(s, r, Reset);
    assert Halts(trip.switch) && (s.switch != NoFile ==> Halts(scribble.switch)) && reset.switch == NoFile;
    CheckDecides(r, reset, other, basis, raw, t);
    hide Run, Apply;
    if Reset !in actions {
      TrippedFiresNothing(r, trip, actions, other);
      if s.switch != NoFile { TrippedFiresNothing(r, scribble, actions, other); }
    }
  }

  /** A read of the book that fails, before or after the count, marks the tick, and then no new
      symbol may open. */
  lemma FailedReadIsMarked(r: Rails, s: System, read: Read, stopped: set<string>, flattened: set<string>, headroom: Book)
    ensures Entry(s, read, stopped, flattened, headroom).tick.readFailed <==> read != Good
    ensures read != FailsEarly ==>
              var t := Entry(s, read, stopped, flattened, headroom).tick;
              t.openSymbols == s.book - s.masked - stopped && t.openCount == |s.book - s.masked - stopped|
  {
  }
}
