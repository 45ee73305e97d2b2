/** The quarterly review: positions and cash from the executions log, and the metrics on them. */
module PlaybookQuarterly {
  import opened Prelude
  import opened ByteLines

  const INITIAL := 100000.0

  // ---------------------------------------------------------------- the log

  /** One decoded record that the loader admits. A target record carries its size, its time's
      rank in text order and the price it was entered at, if usable; a legacy one is a trade. */
  datatype Rec =
    | Target(asset: string, at: int, fraction: Option<real>, entry: Option<real>, shares: Option<real>)
    | Trade(asset: string, buy: bool, qty: real, price: real, fees: real)

  predicate TargetOf(r: Rec, asset: string) {
    r.Target? && r.asset == asset
  }

  /** Record `k` is the asset's target of greatest time, the last of an equal run. */
  predicate IsLatest(log: seq<Rec>, asset: string, k: int) {
    && 0 <= k < |log| && TargetOf(log[k], asset)
    && forall j :: 0 <= j < |log| && TargetOf(log[j], asset) ==> log[j].at < log[k].at || (log[j].at == log[k].at && j <= k)
  }

  /** Another target of the same asset is later, or as late and further down. */
  predicate Superseded(log: seq<Rec>, i: int) {
    && 0 <= i < |log| && log[i].Target?
    && exists j :: 0 <= j < |log| && TargetOf(log[j], log[i].asset)
                   && (log[j].at > log[i].at || (log[j].at == log[i].at && j > i))
  }

  function Targets(log: seq<Rec>): map<string, Rec> {
    if log == [] then map[] else Retargeted(Targets(Front(log)), Last(log))
  }

  function Retargeted(m: map<string, Rec>, r: Rec): map<string, Rec> {
    if r.Target? && (r.asset !in m || (m[r.asset].Target? ==> r.at >= m[r.asset].at)) then m[r.asset := r] else m
  }

  /** One more record: a target takes the latest place iff it is no earlier than the holder. */
  lemma LatestNext(log: seq<Rec>, r: Rec, asset: string, k: int)
    requires IsLatest(log, asset, k)
    ensures IsLatest(log + [r], asset, if TargetOf(r, asset) && r.at >= log[k].at then |log| else k)
  {
    var all := log + [r];
    assert forall j :: 0 <= j < |log| ==> all[j] == log[j];
  }

  lemma LatestFirst(log: seq<Rec>, r: Rec, asset: string)
    requires TargetOf(r, asset) && forall j :: 0 <= j < |log| ==> !TargetOf(log[j], asset)
    ensures IsLatest(log + [r], asset, |log|)
  {
    var all := log + [r];
    assert forall j :: 0 <= j < |log| ==> all[j] == log[j];
  }

  /** The loop keeps exactly the assets with a target, each with its latest one. */
  lemma {:induction false} TargetsAreLatest(log: seq<Rec>, asset: string)
    ensures asset in Targets(log) <==> exists k :: 0 <= k < |log| && TargetOf(log[k], asset)
    ensures asset in Targets(log) ==> exists k :: IsLatest(log, asset, k) && Targets(log)[asset] == log[k]
  {
    if log != [] {
      var f, r := Front(log), Last(log);
      assert log == f + [r];
      TargetsAreLatest(f, asset);
      if asset in Targets(f) {
        var k :| IsLatest(f, asset, k) && Targets(f)[asset] == f[k];
        LatestNext(f, r, asset, k);
        hide IsLatest;
        LatestIsTarget(f, asset, k);
        assert log[k] == f[k] && TargetOf(log[k], asset);
      } else if TargetOf(r, asset) {
        LatestFirst(f, r, asset);
        hide IsLatest;
        assert log[|f|] == r;
      } else {
        assert forall j :: 0 <= j < |f| ==> log[j] == f[j];
      }
    }
  }

  lemma LatestIsTarget(log: seq<Rec>, asset: string, k: int)
    requires IsLatest(log, asset, k)
    ensures 0 <= k < |log| && TargetOf(log[k], asset)
  {
  }

  lemma LatestUnique(log: seq<Rec>, asset: string, j: int, k: int)
    requires IsLatest(log, asset, j) && IsLatest(log, asset, k)
    ensures j == k
  {
  }

  function Without(log: seq<Rec>, i: nat): seq<Rec>
    requires i < |log|
  {
    log[..i] + log[i + 1..]
  }

  /** Where record `k` stands once record `i` is gone. */
  function Shifted(k: int, i: int): int {
    if k < i then k else k - 1
  }

  lemma LatestSurvives(log: seq<Rec>, i: nat, asset: string, k: int)
    requires i < |log| && k != i && IsLatest(log, asset, k)
    ensures IsLatest(Without(log, i), asset, Shifted(k, i)) && Without(log, i)[Shifted(k, i)] == log[k]
  {
    var w := Without(log, i);
    forall j | 0 <= j < |w| ensures w[j] == log[if j < i then j else j + 1] {
    }
  }

  lemma LatestIndex(log: seq<Rec>, asset: string) returns (k: nat)
    requires asset in Targets(log)
    ensures k < |log| && IsLatest(log, asset, k) && Targets(log)[asset] == log[k]
  {
    TargetsAreLatest(log, asset);
    k :| IsLatest(log, asset, k) && Targets(log)[asset] == log[k];
  }

  lemma HasTarget(log: seq<Rec>, asset: string, k: nat)
    requires k < |log| && TargetOf(log[k], asset)
    ensures asset in Targets(log)
  {
    TargetsAreLatest(log, asset);
  }

  lemma NoNewTarget(log: seq<Rec>, i: nat, asset: string)
    requires i < |log| && asset in Targets(Without(log, i))
    ensures asset in Targets(log)
  {
    var m := LatestIndex(Without(log, i), asset);
    hide Targets;
    HasTarget(log, asset, if m < i then m else m + 1);
  }

  lemma KeptTarget(log: seq<Rec>, i: nat, asset: string)
    requires Superseded(log, i) && asset in Targets(log)
    ensures asset in Targets(Without(log, i)) && Targets(Without(log, i))[asset] == Targets(log)[asset]
  {
    var w := Without(log, i);
    var k := LatestIndex(log, asset);
    NotTheSuperseded(log, i, asset, k);
    LatestSurvives(log, i, asset, k);
    hide Targets, Superseded, Without;
    HasTarget(w, asset, Shifted(k, i));
    var m := LatestIndex(w, asset);
    LatestUnique(w, asset, m, Shifted(k, i));
  }

  lemma NotTheSuperseded(log: seq<Rec>, i: nat, asset: string, k: int)
    requires Superseded(log, i) && IsLatest(log, asset, k)
    ensures k != i
  {
  }

  /** Deleting a superseded target changes no asset's latest target. */
  lemma SupersededIsDeadWeight(log: seq<Rec>, i: nat)
    requires Superseded(log, i)
    ensures Targets(Without(log, i)) == Targets(log)
  {
    hide Targets;
    forall asset | asset in Targets(log)
      ensures asset in Targets(Without(log, i)) && Targets(Without(log, i))[asset] == Targets(log)[asset]
    {
      KeptTarget(log, i, asset);
    }
    forall asset | asset in Targets(Without(log, i)) ensures asset in Targets(log) {
      NoNewTarget(log, i, asset);
    }
  }

  // ---------------------------------------------------------------- positions and cash

  datatype Holding = Holding(qty: real, cost: real, mark: real)

  /** The trades folded: cash, and per symbol the quantity and the signed cost. */
  datatype Book = Book(cash: real, qty: map<string, real>, cost: map<string, real>, fees: real)

  function At(m: map<string, real>, k: string): real {
    if k in m then m[k] else 0.0
  }

  function QtyOf(r: Rec): real
    requires r.Trade?
  {
    if r.buy then r.qty else -r.qty
  }

  function Notional(r: Rec): real
    requires r.Trade?
  {
    QtyOf(r) * r.price
  }

  function Traded(b: Book, r: Rec): Book {
    if r.Target? then b
    else
      Book(b.cash - Notional(r) - r.fees, b.qty[r.asset := At(b.qty, r.asset) + QtyOf(r)],
           b.cost[r.asset := At(b.cost, r.asset) + Notional(r)], b.fees + r.fees)
  }

  function Trades(log: seq<Rec>): Book {
    if log == [] then Book(INITIAL, map[], map[], 0.0) else Traded(Trades(Front(log)), Last(log))
  }

  /** The position a latest target stands for; none if flat, unpriced or empty. */
  function Held(r: Rec): Option<Holding>
    requires r.Target?
  {
    if r.fraction.None? || Abs(r.fraction.value) < 0.000000000001 || r.entry.None? || r.entry.value <= 0.0 then None
    else
      var qty := if r.shares.Some? then r.shares.value else r.fraction.value * INITIAL / r.entry.value;
      if Abs(qty) < 0.000000001 then None else Some(Holding(qty, qty * r.entry.value, r.entry.value))
  }

  /** Without a share count a position costs its fraction of the initial cash; with one it costs
      the shares at entry. It is marked at entry. */
  lemma TargetCost(r: Rec)
    requires r.Target? && Held(r).Some?
    ensures var h := Held(r).value;
            && h.mark == r.entry.value
            && h.cost == (if r.shares.Some? then r.shares.value * r.entry.value else r.fraction.value * INITIAL)
  {
    if r.shares.None? { Ratio(r.fraction.value * INITIAL, r.entry.value); }
  }

  /** A target is a position iff its fraction is not flat, its entry is usable and the quantity is
      not nothing. */
  lemma HeldIff(r: Rec)
    requires r.Target?
    ensures Held(r).Some? <==>
              && r.fraction.Some? && Abs(r.fraction.value) >= 0.000000000001
              && r.entry.Some? && r.entry.value > 0.0
              && Abs(if r.shares.Some? then r.shares.value else r.fraction.value * INITIAL / r.entry.value) >= 0.000000001
  {
  }

  /** The quantity, or the money, of a buy or a sell of an asset (or of any). */
  function Part(r: Rec, asset: Option<string>, buys: bool, money: bool): real {
    if r.Trade? && r.buy == buys && (asset.None? || asset.value == r.asset) then (if money then r.qty * r.price else r.qty)
    else 0.0
  }

  function Bought(log: seq<Rec>, asset: Option<string>, buys: bool, money: bool): real {
    if log == [] then 0.0 else Bought(Front(log), asset, buys, money) + Part(Last(log), asset, buys, money)
  }

  function FeesOf(log: seq<Rec>): real {
    if log == [] then 0.0 else FeesOf(Front(log)) + (if Last(log).Trade? then Last(log).fees else 0.0)
  }

  /** What one record moves. */
  lemma TradeMoves(b: Book, r: Rec, asset: string)
    ensures var n := Traded(b, r);
            && n.cash == b.cash - Part(r, None, true, true) + Part(r, None, false, true) - (if r.Trade? then r.fees else 0.0)
            && n.fees == b.fees + (if r.Trade? then r.fees else 0.0)
            && At(n.qty, asset) == At(b.qty, asset) + Part(r, Some(asset), true, false) - Part(r, Some(asset), false, false)
            && At(n.cost, asset) == At(b.cost, asset) + Part(r, Some(asset), true, true) - Part(r, Some(asset), false, true)
  {
    if r.Trade? { assert -r.qty * r.price == -(r.qty * r.price); }
  }

  /** A buy takes its money out of cash and adds to the quantity and the cost, a sell does the
      reverse, and each pays its fees. */
  lemma {:induction false} TradesAddUp(log: seq<Rec>, asset: string)
    ensures var b := Trades(log);
            && b.cash == INITIAL - Bought(log, None, true, true) + Bought(log, None, false, true) - FeesOf(log)
            && b.fees == FeesOf(log)
            && At(b.qty, asset) == Bought(log, Some(asset), true, false) - Bought(log, Some(asset), false, false)
            && At(b.cost, asset) == Bought(log, Some(asset), true, true) - Bought(log, Some(asset), false, true)
  {
    if log != [] {
      TradesAddUp(Front(log), asset);
      TradeMoves(Trades(Front(log)), Last(log), asset);
      hide Traded, Part, At;
    }
  }

  // ---------------------------------------------------------------- sums over maps

  ghost function Sum(m: map<string, real>): real
    decreases |m|
  {
    if m == map[] then 0.0
    else
      var k :| k in m;
      m[k] + Sum(m - {k})
  }

  lemma {:induction false} SumWithout(m: map<string, real>, k: string)
    requires k in m
    ensures Sum(m) == m[k] + Sum(m - {k})
    decreases |m|
  {
    var c :| c in m && Sum(m) == m[c] + Sum(m - {c});
    if c != k {
      SumWithout(m - {c}, k);
      SumWithout(m - {k}, c);
      assert m - {c} - {k} == m - {k} - {c};
    }
  }

  lemma SumSet(m: map<string, real>, k: string, x: real)
    ensures Sum(m[k := x]) == Sum(m) - At(m, k) + x
  {
    SumWithout(m[k := x], k);
    assert m[k := x] - {k} == m - {k};
    if k in m {
      SumWithout(m, k);
    } else {
      assert m - {k} == m;
    }
  }

  function Costs(held: map<string, Holding>): map<string, real> {
    map k | k in held :: held[k].cost
  }

  /** Cash, what is tied up in positions of either kind, and fees paid make up the initial cash. */
  ghost predicate Conserved(cash: real, b: Book, held: map<string, Holding>) {
    cash + Sum(b.cost) + b.fees + Sum(Costs(held)) == INITIAL
  }

  lemma TradedConserves(b: Book, r: Rec)
    requires b.cash + Sum(b.cost) + b.fees == INITIAL
    ensures Traded(b, r).cash + Sum(Traded(b, r).cost) + Traded(b, r).fees == INITIAL
  {
    hide Sum, Notional;
    if r.Trade? {
      SumSet(b.cost, r.asset, At(b.cost, r.asset) + Notional(r));
    }
  }

  lemma CostsGrow(held: map<string, Holding>, k: string, h: Holding)
    requires k !in held
    ensures Sum(Costs(held[k := h])) == Sum(Costs(held)) + h.cost
  {
    assert Costs(held[k := h]) == Costs(held)[k := h.cost];
    SumSet(Costs(held), k, h.cost);
  }

  predicate TargetMap(m: map<string, Rec>) {
    forall a :: a in m ==> m[a].Target? && m[a].asset == a
  }

  lemma {:induction false} TargetsShape(log: seq<Rec>)
    ensures TargetMap(Targets(log))
  {
    if log != [] { TargetsShape(Front(log)); }
  }

  /** Latest targets that are positions. */
  function HeldOf(m: map<string, Rec>): map<string, Holding>
    requires TargetMap(m)
  {
    map a | a in m && Held(m[a]).Some? :: Held(m[a]).value
  }

  /** `load_positions_from_executions`: fold the log, then turn latest targets into positions. */
  method LoadPositions(log: seq<Rec>) returns (cash: real, book: Book, held: map<string, Holding>)
    ensures book == Trades(log)
    ensures TargetMap(Targets(log)) && held == HeldOf(Targets(log))
    ensures Conserved(cash, book, held)
  {
    hide Held, Sum;
    book := Book(INITIAL, map[], map[], 0.0);
    var latest: map<string, Rec> := map[];
    NoCosts();
    for i := 0 to |log|
      invariant book == Trades(log[..i]) && latest == Targets(log[..i])
      invariant book.cash + Sum(book.cost) + book.fees == INITIAL
    {
      assert Front(log[..i + 1]) == log[..i];
      TargetsShape(log[..i]);
      TradedConserves(book, log[i]);
      if log[i].Target? {
        if log[i].asset !in latest || log[i].at >= latest[log[i].asset].at {
          latest := latest[log[i].asset := log[i]];
        }
      } else {
        book := Traded(book, log[i]);
      }
    }
    assert log[..|log|] == log;
    TargetsShape(log);
    cash, held := book.cash, map[];
    var todo := latest.Keys;
    while todo != {}
      invariant todo <= latest.Keys
      invariant held == map a | a in latest && a !in todo && Held(latest[a]).Some? :: Held(latest[a]).value
      invariant Conserved(cash, book, held)
    {
      var a :| a in todo;
      var h := Held(latest[a]);
      if h.Some? {
        CostsGrow(held, a, h.value);
        cash := cash - h.value.cost;
        held := held[a := h.value];
      }
      todo := todo - {a};
    }
  }

  lemma NoCosts()
    ensures Sum(map[]) == 0.0
    ensures Sum(Costs(map[])) == 0.0
  {
    assert Costs(map[]) == map[];
  }

  function Values(held: map<string, Holding>): map<string, real> {
    map k | k in held :: held[k].qty * held[k].mark
  }

  lemma {:induction false} NoTrades(log: seq<Rec>)
    requires forall r :: r in log ==> r.Target?
    ensures Trades(log) == Book(INITIAL, map[], map[], 0.0)
  {
    if log != [] {
      assert log == Front(log) + [Last(log)];
      NoTrades(Front(log));
    }
  }

  lemma MarkedAtEntry(r: Rec)
    requires r.Target?
    ensures Held(r).Some? ==> Held(r).value.qty * Held(r).value.mark == Held(r).value.cost
  {
  }

  /** A log of targets alone, marked at entry, is worth exactly the initial cash. */
  lemma {:induction false} TargetsAloneAreWorthInitial(log: seq<Rec>, cash: real, held: map<string, Holding>)
    requires forall r :: r in log ==> r.Target?
    requires TargetMap(Targets(log)) && held == HeldOf(Targets(log)) && Conserved(cash, Trades(log), held)
    ensures cash + Sum(Values(held)) == INITIAL
  {
    NoTrades(log);
    NoCosts();
    ValuesAreCosts(Targets(log));
    hide HeldOf, Values, Costs, Targets, TargetMap, Trades;
  }

  lemma ValuesAreCosts(m: map<string, Rec>)
    requires TargetMap(m)
    ensures Values(HeldOf(m)) == Costs(HeldOf(m))
  {
    hide Held;
    forall k | k in HeldOf(m) ensures HeldOf(m)[k].qty * HeldOf(m)[k].mark == HeldOf(m)[k].cost {
      assert HeldOf(m)[k] == Held(m[k]).value;
      MarkedAtEntry(m[k]);
    }
    forall k ensures k in Values(HeldOf(m)) <==> k in Costs(HeldOf(m)) {
    }
    assert forall k :: k in HeldOf(m) ==> Values(HeldOf(m))[k] == Costs(HeldOf(m))[k];
  }

  lemma {:induction false} TradesWithout(log: seq<Rec>, i: nat)
    requires i < |log| && log[i].Target?
    ensures Trades(Without(log, i)) == Trades(log)
  {
    if i == |log| - 1 {
      assert Without(log, i) == Front(log);
    } else {
      TradesWithout(Front(log), i);
      var w := Without(log, i);
      assert Front(w) == Without(Front(log), i) && Last(w) == Last(log);
    }
  }

  /** Deleting a superseded target, in any log, changes neither the positions nor the cash. */
  lemma {:induction false} SupersededChangesNothing(log: seq<Rec>, i: nat, cash: real, held: map<string, Holding>,
                                 cash2: real, held2: map<string, Holding>)
    requires Superseded(log, i)
    requires TargetMap(Targets(log)) && held == HeldOf(Targets(log)) && Conserved(cash, Trades(log), held)
    requires var w := Without(log, i);
             TargetMap(Targets(w)) && held2 == HeldOf(Targets(w)) && Conserved(cash2, Trades(w), held2)
    ensures Trades(Without(log, i)) == Trades(log) && held2 == held && cash2 == cash
  {
    SupersededIsDeadWeight(log, i);
    TradesWithout(log, i);
  }

  // ---------------------------------------------------------------- metrics

  datatype Position = Position(symbol: string, sector: string, value: real, beta: real)

  function NetExposure(ps: seq<Position>): real {
    if ps == [] then 0.0 else NetExposure(Front(ps)) + Last(ps).value
  }

  function Gross(ps: seq<Position>): real {
    if ps == [] then 0.0 else Gross(Front(ps)) + Abs(Last(ps).value)
  }

  function WeightedBeta(p: Position): real {
    Abs(p.value) * p.beta
  }

  function BetaSum(ps: seq<Position>): real {
    if ps == [] then 0.0 else BetaSum(Front(ps)) + WeightedBeta(Last(ps))
  }

  function Sectors(ps: seq<Position>): map<string, real> {
    if ps == [] then map[]
    else
      var m, p := Sectors(Front(ps)), Last(ps);
      m[p.sector := At(m, p.sector) + p.value]
  }

  /** What the sector totals add up to. */
  lemma {:induction false} SectorsSumToNet(ps: seq<Position>)
    ensures Sum(Sectors(ps)) == NetExposure(ps)
  {
    if ps == [] {
      NoCosts();
    } else {
      SectorsSumToNet(Front(ps));
      var m, p := Sectors(Front(ps)), Last(ps);
      SumSet(m, p.sector, At(m, p.sector) + p.value);
    }
  }

  function InSector(ps: seq<Position>, sector: string): real {
    if ps == [] then 0.0
    else InSector(Front(ps), sector) + (if Last(ps).sector == sector then Last(ps).value else 0.0)
  }

  /** Each sector's total is that of its own positions, and there is one iff it has any. */
  lemma {:induction false} SectorTotals(ps: seq<Position>, sector: string)
    ensures At(Sectors(ps), sector) == InSector(ps, sector)
    ensures sector in Sectors(ps) <==> exists p :: p in ps && p.sector == sector
  {
    if ps != [] {
      SectorTotals(Front(ps), sector);
      assert ps == Front(ps) + [Last(ps)];
    }
  }

  /** The value of the long, or of the short, positions. */
  function Side(ps: seq<Position>, long: bool): real {
    if ps == [] then 0.0
    else Side(Front(ps), long) + (if (Last(ps).value > 0.0) == long then Last(ps).value else 0.0)
  }

  /** Gross is longs less shorts, net is both together. */
  lemma {:induction false} GrossAndNet(ps: seq<Position>)
    ensures Gross(ps) == Side(ps, true) - Side(ps, false) && NetExposure(ps) == Side(ps, true) + Side(ps, false)
    ensures Side(ps, true) >= 0.0 >= Side(ps, false)
  {
    if ps != [] { GrossAndNet(Front(ps)); }
  }

  lemma Between(w: real, lo: real, x: real, hi: real)
    requires w >= 0.0 && lo <= x <= hi
    ensures w * lo <= w * x <= w * hi
  {
    Ordered(w, lo, x);
    Ordered(w, x, hi);
  }

  lemma Ordered(w: real, x: real, y: real)
    requires w >= 0.0 && x <= y
    ensures w * x <= w * y
  {
    assert w * y - w * x == w * (y - x);
  }

  /** The weighted sum `s` of total weight `g` lies between `lo` and `hi` on average. */
  predicate Averages(g: real, s: real, lo: real, hi: real) {
    g * lo <= s <= g * hi
  }

  lemma AveragesMore(g: real, s: real, p: Position, lo: real, hi: real)
    requires Averages(g, s, lo, hi) && lo <= p.beta <= hi
    ensures Averages(g + Abs(p.value), s + WeightedBeta(p), lo, hi)
  {
    var w := Abs(p.value);
    Between(w, lo, p.beta, hi);
    assert (g + w) * lo == g * lo + w * lo;
    assert (g + w) * hi == g * hi + w * hi;
  }

  lemma {:induction false} BetaSumBetween(ps: seq<Position>, lo: real, hi: real)
    requires forall p :: p in ps ==> lo <= p.beta <= hi
    ensures Averages(Gross(ps), BetaSum(ps), lo, hi)
  {
    if ps != [] {
      assert ps == Front(ps) + [Last(ps)];
      assert Last(ps) in ps && forall p :: p in Front(ps) ==> p in ps;
      BetaSumBetween(Front(ps), lo, hi);
      hide Abs, Averages, WeightedBeta;
      AveragesMore(Gross(Front(ps)), BetaSum(Front(ps)), Last(ps), lo, hi);
    }
  }

  predicate BetasWithin(ps: seq<Position>, lo: real, hi: real) {
    forall p :: p in ps ==> lo <= p.beta <= hi
  }

  datatype Metrics = Metrics(nav: real, gross: real, net: real, beta: real, sectors: map<string, real>,
                             top: Option<Position>)

  /** `compute_metrics` up to its flags. */
  method ComputeMetrics(cash: real, ps: seq<Position>) returns (m: Metrics)
    ensures m.nav == cash + NetExposure(ps)
    ensures ps == [] || m.nav <= 0.0 ==> m == Metrics(m.nav, 0.0, 0.0, 0.0, map[], None)
    ensures ps != [] && m.nav > 0.0 ==>
              && m.gross == Gross(ps) && m.net == NetExposure(ps) && m.sectors == Sectors(ps) && Sum(m.sectors) == m.net
              && m.top.Some? && m.top.value in ps
              && forall p :: p in ps ==> Abs(p.value) <= Abs(m.top.value.value)
    ensures ps != [] && m.nav > 0.0 && m.gross > 0.0 ==>
              forall lo, hi :: BetasWithin(ps, lo, hi) ==> lo <= m.beta <= hi
  {
    hide BetasWithin, Sum, Abs;
    var net := 0.0;
    for i := 0 to |ps|
      invariant net == NetExposure(ps[..i])
    {
      assert Front(ps[..i + 1]) == ps[..i];
      net := net + ps[i].value;
    }
    assert ps[..|ps|] == ps;
    m := Metrics(cash + net, 0.0, 0.0, 0.0, map[], None);
    if ps == [] || m.nav <= 0.0 {
      return;
    }
    var gross, beta := Weights(ps);
    var sectors: map<string, real> := map[];
    for i := 0 to |ps|
      invariant sectors == Sectors(ps[..i])
    {
      assert Front(ps[..i + 1]) == ps[..i];
      sectors := sectors[ps[i].sector := At(sectors, ps[i].sector) + ps[i].value];
    }
    SectorsSumToNet(ps);
    var top := Largest(ps);
    m := Metrics(m.nav, gross, net, beta, sectors, Some(top));
  }

  method Weights(ps: seq<Position>) returns (gross: real, beta: real)
    ensures gross == Gross(ps)
    ensures gross > 0.0 ==> forall lo, hi :: BetasWithin(ps, lo, hi) ==> lo <= beta <= hi
  {
    hide BetasWithin, Abs;
    gross, beta := 0.0, 0.0;
    var betaSum := 0.0;
    for i := 0 to |ps|
      invariant gross == Gross(ps[..i]) && betaSum == BetaSum(ps[..i])
    {
      assert Front(ps[..i + 1]) == ps[..i];
      gross := gross + Abs(ps[i].value);
      betaSum := betaSum + WeightedBeta(ps[i]);
    }
    assert ps[..|ps|] == ps;
    if gross > 0.0 {
      beta := betaSum / gross;
      WeightedBetween(ps, gross, betaSum);
    }
  }

  method Largest(ps: seq<Position>) returns (top: Position)
    requires ps != []
    ensures top in ps && forall p :: p in ps ==> Abs(p.value) <= Abs(top.value)
  {
    top := ps[0];
    for i := 0 to |ps|
      invariant top in ps && forall j :: 0 <= j < i ==> Abs(ps[j].value) <= Abs(top.value)
    {
      if Abs(ps[i].value) > Abs(top.value) { top := ps[i]; }
    }
  }

  lemma WeightedBetween(ps: seq<Position>, gross: real, betaSum: real)
    requires gross == Gross(ps) > 0.0 && betaSum == BetaSum(ps)
    ensures forall lo, hi :: BetasWithin(ps, lo, hi) ==> lo <= betaSum / gross <= hi
  {
    forall lo, hi | BetasWithin(ps, lo, hi) ensures lo <= betaSum / gross <= hi {
      BetaSumBetween(ps, lo, hi);
      hide Gross, BetaSum, BetasWithin, Averages;
      Quotient(betaSum, gross, lo, hi);
    }
  }

  lemma Quotient(x: real, g: real, lo: real, hi: real)
    requires g > 0.0 && Averages(g, x, lo, hi)
    ensures lo <= x / g <= hi
  {
    Ratio(x, g);
    FactorAtLeast(x / g, lo, g);
    FactorAtLeast(hi, x / g, g);
  }

  lemma FactorAtLeast(x: real, y: real, w: real)
    requires w > 0.0 && w * x >= w * y
    ensures x >= y
  {
    if x < y { Strict(w, x, y); }
  }

  lemma Strict(w: real, x: real, y: real)
    requires w > 0.0 && x < y
    ensures w * x < w * y
  {
    assert w * y - w * x == w * (y - x);
  }
}
