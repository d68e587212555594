/** Probe ranking and survivor admission (src/orchestrator/hf_eval.rs).

    Every scanned cycle is probed once.  Cycles whose probe clears gas are admitted first, best net
    first; then the underwater ones that come closest; then rescues; then a score-ranked fallback.
    The gates, the profit model and the flash-loan model are arbitrary functions. */
module Admission {

  import opened Prelude
  import opened ProbeRank
  import opened Routes
  import opened Sorting
  import Hydration = TickHydration

  /** Whether a flash loan was found, and if not whether the start is proven dry. */
  datatype FlashVerdict = Sourced | Unsourced(provenDry: bool)

  /** Why a route did not walk at some size. */
  datatype WalkFailure = ClTickless | ShallowCl | ClSynthetic | OtherWalkFailure

  datatype World = World(
    flashStart: Cycle -> Cycle,
    hopBroken: Edges -> bool,
    fitsExecutor: Edges -> bool,
    tokenCooled: Edges -> bool,
    reliableRate: nat -> bool,
    knownDecimals: Cycle -> bool,
    flashFeasible: Cycle -> bool,
    flashContext: Cycle -> bool,
    deadState: Edges -> bool,
    ladder: Cycle -> seq<Amount>,
    economicFloor: Cycle -> Amount,
    spotProbe: Cycle -> Amount,
    sanity: (Cycle, Amount, nat) -> Option<SanityReason>,
    simulate: (nat, Edges, Amount) -> Option<SimResult>,
    revision: Edges -> nat,
    fingerprint: Edges -> nat,
    walkFailures: Cycle -> seq<WalkFailure>,
    flashSource: (Cycle, Amount) -> FlashVerdict,
    tooDeep: (Cycle, Amount, SimResult) -> bool,
    netMatic: (Cycle, Amount, SimResult) -> nat,
    coverMatic: (Cycle, Amount, SimResult) -> nat,
    flashEvaluable: Cycle -> bool,
    arena: Hydration.Arena,
    metas: Hydration.Metas,
    hops: Edges -> Hydration.Cycle,
    clock: Cycle -> nat)

  function ProbeOf(w: World, c: Cycle): Probe {
    Probe(w.ladder(c), w.economicFloor(c), w.spotProbe(c),
          (a: Amount) => w.simulate(w.revision(c.edges), c.edges, a),
          (a: Amount, profit: nat) => w.sanity(c, a, profit))
  }

  type SeedMap = map<Edges, (Amount, SimResult)>

  /** A cycle with its fingerprint, and for ranked cycles the MATIC value it is ranked by. */
  datatype Entry = Entry(fp: nat, cycle: Cycle)
  datatype Scored = Scored(value: nat, entry: Entry)
  {
    function Edges(): Edges { entry.cycle.edges }
  }

  datatype Partial = Partial(profitable: seq<Scored>, rescue: seq<Entry>, nearNet: seq<Scored>, seeds: SeedMap)
  {
    function Merge(other: Partial): Partial {
      Partial(profitable + other.profitable, rescue + other.rescue, nearNet + other.nearNet, seeds + other.seeds)
    }
  }

  function EntryFor(w: World, c: Cycle): Entry { Entry(w.fingerprint(c.edges), c) }

  /** The seed is the probe's answer for a cycle with these edges. */
  ghost predicate SeedFor(w: World, e: Edges, seed: (Amount, SimResult)) {
    exists c: Cycle :: c.edges == e && IsResult(ProbeOf(w, c), Best(seed.0, seed.1))
  }

  ghost predicate SeedsOk(w: World, seeds: SeedMap) {
    forall e :: e in seeds ==> SeedFor(w, e, seeds[e])
  }

  ghost predicate ScoredOk(seeds: SeedMap, xs: seq<Scored>) {
    forall i :: 0 <= i < |xs| ==> xs[i].value > 0 && xs[i].Edges() in seeds
  }

  /** What ranking guarantees: every ranked cycle has a seed, and nothing is put up for rescue. */
  ghost predicate PartialOk(w: World, p: Partial) {
    SeedsOk(w, p.seeds) && ScoredOk(p.seeds, p.profitable) && ScoredOk(p.seeds, p.nearNet) && p.rescue == []
  }

  lemma MergeOk(w: World, p: Partial, q: Partial)
    requires PartialOk(w, p) && PartialOk(w, q)
    ensures PartialOk(w, p.Merge(q))
  {
  }

  /** A seed always carries a profit. */
  lemma SeedHasProfit(w: World, e: Edges, seed: (Amount, SimResult))
    requires SeedFor(w, e, seed)
    ensures seed.1.profit > 0
  {
    var c: Cycle :| c.edges == e && IsResult(ProbeOf(w, c), Best(seed.0, seed.1));
    SuccessHasProfit(ProbeOf(w, c), Best(seed.0, seed.1));
  }

  // ---------------------------------------------------------------- ranking one cycle

  /** The flash-preferred start, unless rotating there breaks a sound chain of hops. */
  function StartFor(w: World, c: Cycle): Cycle {
    var rotated := w.flashStart(c);
    if w.hopBroken(rotated.edges) && !w.hopBroken(c.edges) then c else rotated
  }

  /** A broken chain of hops is ranked only if the scanned cycle was broken already, and a sound flash start is
      always taken. */
  lemma StartIsSound(w: World, c: Cycle)
    ensures StartFor(w, c) == c || StartFor(w, c) == w.flashStart(c)
    ensures w.hopBroken(StartFor(w, c).edges) ==> w.hopBroken(c.edges)
    ensures !w.hopBroken(w.flashStart(c).edges) || w.hopBroken(c.edges) ==> StartFor(w, c) == w.flashStart(c)
  {
  }

  predicate PassesGates(w: World, cooled: set<Edges>, c: Cycle) {
    && w.fitsExecutor(c.edges) && !Quarantined(cooled, c.edges) && !w.tokenCooled(c.edges)
    && w.reliableRate(c.startToken) && w.knownDecimals(c) && w.flashFeasible(c) && w.flashContext(c)
    && !w.deadState(c.edges)
  }

  /** The probe succeeds, is financed and not too deep: the cycle gets a seed. */
  ghost predicate Seeded(w: World, cooled: set<Edges>, c: Cycle, amount: Amount, sim: SimResult) {
    && PassesGates(w, cooled, c) && IsResult(ProbeOf(w, c), Best(amount, sim))
    && w.flashSource(c, amount).Sourced? && !w.tooDeep(c, amount, sim)
  }

  /** `should_rescue_probe_reject`. */
  function ShouldRescue(reject: Reject): bool {
    match reject
    case ZeroProfit => false
    case SanityReject(_) => false
    case NoSimulation => false
  }

  /** A failed probe cools the route when it would fail the same way next tick. */
  function CoolsPhantom(w: World, c: Cycle, reject: Reject): bool {
    match reject
    case ZeroProfit => true
    case NoSimulation => w.walkFailures(c) != []
    case SanityReject(_) => false
  }

  /** A probe that never walked, for lack of liquidity ranges only and at some size for lack of ticks, arms the probe
      miss of the cycle's tickless hops. */
  predicate MissesTicks(w: World, c: Cycle, r: ProbeResult) {
    && r == Rejected(NoSimulation) && ClTickless in w.walkFailures(c)
    && OtherWalkFailure !in w.walkFailures(c)
  }

  /** Ranking cools a route whose next probe would be as useless: phantoms, proven-dry starts, and underwater
      trades below the economic floor or with nothing to cover. */
  function CoolsRoute(w: World, c: Cycle, r: ProbeResult): bool {
    match r
    case Rejected(why) => CoolsPhantom(w, c, why)
    case Best(amount, sim) =>
      match w.flashSource(c, amount)
      case Unsourced(provenDry) => provenDry
      case Sourced =>
        && !w.tooDeep(c, amount, sim) && w.netMatic(c, amount, sim) == 0
        && (amount < w.economicFloor(c) || w.coverMatic(c, amount, sim) == 0)
  }

  /** `cycle_simulatable`: exactly when the uncached probe succeeds. */
  method CycleSimulatable(w: World, c: Cycle) returns (r: bool)
    ensures r <==> Simulatable(w, c)
  {
    if !w.knownDecimals(c) || !w.reliableRate(c.startToken) {
      return false;
    }
    var probe := MinimalRankProbe(ProbeOf(w, c), null, Route(0, 0, c.edges), w.simulate);
    forall q | IsResult(ProbeOf(w, c), q)
      ensures q == probe
    {
      ResultUnique(ProbeOf(w, c), q, probe);
    }
    return probe.Best?;
  }

  ghost predicate Simulatable(w: World, c: Cycle) {
    && w.knownDecimals(c) && w.reliableRate(c.startToken)
    && exists r :: IsResult(ProbeOf(w, c), r) && r.Best?
  }

  /** What probing a cycle leaves: a seed when the probe is good and financed, with the cycle ranked by
      its net when it clears gas, and by its cover when it does not but trades at an economic size. */
  ghost predicate RankedAs(w: World, cooled: set<Edges>, c: Cycle, out: Partial) {
    var entry := EntryFor(w, c);
    && ((forall amount: Amount, sim: SimResult :: !Seeded(w, cooled, c, amount, sim)) ==>
          out == Partial([], [], [], map[]))
    && (forall amount: Amount, sim: SimResult :: Seeded(w, cooled, c, amount, sim) ==>
          var net, cover := w.netMatic(c, amount, sim), w.coverMatic(c, amount, sim);
          && out.seeds == map[c.edges := (amount, sim)] && out.rescue == []
          && out.profitable == (if net > 0 then [Scored(net, entry)] else [])
          && out.nearNet == (if net == 0 && amount >= w.economicFloor(c) && cover > 0
                             then [Scored(cover, entry)] else []))
  }

  lemma RankedNone(w: World, cooled: set<Edges>, c: Cycle, r: ProbeResult)
    requires PassesGates(w, cooled, c) ==> IsResult(ProbeOf(w, c), r)
    requires PassesGates(w, cooled, c) && r.Best? ==>
      w.flashSource(c, r.amount).Unsourced? || w.tooDeep(c, r.amount, r.sim)
    ensures RankedAs(w, cooled, c, Partial([], [], [], map[]))
  {
    forall amount: Amount, sim: SimResult | Seeded(w, cooled, c, amount, sim)
      ensures r == Best(amount, sim)
    {
      ResultUnique(ProbeOf(w, c), r, Best(amount, sim));
    }
  }

  lemma RankedSome(w: World, cooled: set<Edges>, c: Cycle, amount: Amount, sim: SimResult, out: Partial)
    requires Seeded(w, cooled, c, amount, sim)
    requires var net, cover, entry := w.netMatic(c, amount, sim), w.coverMatic(c, amount, sim), EntryFor(w, c);
      && out.seeds == map[c.edges := (amount, sim)] && out.rescue == []
      && out.profitable == (if net > 0 then [Scored(net, entry)] else [])
      && out.nearNet == (if net == 0 && amount >= w.economicFloor(c) && cover > 0
                         then [Scored(cover, entry)] else [])
    ensures RankedAs(w, cooled, c, out) && PartialOk(w, out)
  {
    assert SeedFor(w, c.edges, (amount, sim));
    forall a: Amount, s: SimResult | Seeded(w, cooled, c, a, s)
      ensures a == amount && s == sim
    {
      ResultUnique(ProbeOf(w, c), Best(a, s), Best(amount, sim));
    }
  }

  /** The routes ranking `c` adds to the cooled ones. */
  ghost function CooledBy(w: World, cooled: set<Edges>, c: Cycle): set<Edges> {
    if PassesGates(w, cooled, c) && exists r :: IsResult(ProbeOf(w, c), r) && CoolsRoute(w, c, r)
    then Rotations(c.edges) else {}
  }

  lemma CooledByResult(w: World, cooled: set<Edges>, c: Cycle, r: ProbeResult)
    requires PassesGates(w, cooled, c) && IsResult(ProbeOf(w, c), r)
    ensures CooledBy(w, cooled, c) == if CoolsRoute(w, c, r) then Rotations(c.edges) else {}
  {
    forall q | IsResult(ProbeOf(w, c), q)
      ensures q == r
    {
      ResultUnique(ProbeOf(w, c), q, r);
    }
  }

  /** The tick cooldowns after ranking `c`. */
  ghost function ArmedBy(w: World, cooled: set<Edges>, tables: Hydration.Cooldowns, c: Cycle): Hydration.Cooldowns {
    if PassesGates(w, cooled, c) && exists r :: IsResult(ProbeOf(w, c), r) && MissesTicks(w, c, r)
    then Hydration.ArmCycle(tables, w.arena, w.metas, w.hops(c.edges), w.clock(c)) else tables
  }

  lemma ArmedByResult(w: World, cooled: set<Edges>, tables: Hydration.Cooldowns, c: Cycle, r: ProbeResult)
    requires PassesGates(w, cooled, c) && IsResult(ProbeOf(w, c), r)
    ensures ArmedBy(w, cooled, tables, c)
         == if MissesTicks(w, c, r) then Hydration.ArmCycle(tables, w.arena, w.metas, w.hops(c.edges), w.clock(c)) else tables
  {
    forall q | IsResult(ProbeOf(w, c), q)
      ensures q == r
    {
      ResultUnique(ProbeOf(w, c), q, r);
    }
  }

  /** `rank_one_cycle_probe`. */
  method RankOneCycleProbe(w: World, original: Cycle, quarantine: RouteQuarantine, misses: Hydration.CooldownTables,
                           cache: RouteSimCache)
    returns (out: Partial)
    requires cache.Valid() && Sound(cache.shards, w.simulate)
    modifies quarantine, misses, cache
    ensures cache.Valid() && Sound(cache.shards, w.simulate)
    ensures PartialOk(w, out)
    ensures RankedAs(w, old(quarantine.cooled), StartFor(w, original), out)
    ensures quarantine.cooled == old(quarantine.cooled) + CooledBy(w, old(quarantine.cooled), StartFor(w, original))
    ensures misses.tables == ArmedBy(w, old(quarantine.cooled), old(misses.tables), StartFor(w, original))
  {
    out := Partial([], [], [], map[]);
    var c := StartFor(w, original);
    var entry := EntryFor(w, c);
    var p := ProbeOf(w, c);
    var cool := quarantine.IsQuarantined(c.edges);
    if !w.fitsExecutor(c.edges) || cool || w.tokenCooled(c.edges) || !w.reliableRate(c.startToken)
       || !w.knownDecimals(c) || !w.flashFeasible(c) || !w.flashContext(c) || w.deadState(c.edges) {
      return;
    }
    var probe := MinimalRankProbe(p, cache, Route(w.revision(c.edges), entry.fp, c.edges), w.simulate);
    CooledByResult(w, quarantine.cooled, c, probe);
    ArmedByResult(w, quarantine.cooled, misses.tables, c, probe);
    if probe.Rejected? {
      RankedNone(w, quarantine.cooled, c, probe);
      if MissesTicks(w, c, probe) {
        var _ := misses.MarkProbeMiss(w.arena, w.metas, w.hops(c.edges), w.clock(c));
      }
      if CoolsPhantom(w, c, probe.why) {
        quarantine.CoolAllRotations(c.edges);
      }
      if ShouldRescue(probe.why) {
        out := out.(rescue := [entry]);
      }
      return;
    }
    var amount, sim := probe.amount, probe.sim;
    var flash := w.flashSource(c, amount);
    if flash.Unsourced? || w.tooDeep(c, amount, sim) {
      RankedNone(w, quarantine.cooled, c, probe);
      if flash.Unsourced? && flash.provenDry {
        quarantine.CoolAllRotations(c.edges);
      }
      return;
    }
    ghost var cooled := quarantine.cooled;
    SuccessHasProfit(p, probe);
    var net := w.netMatic(c, amount, sim);
    out := out.(seeds := map[c.edges := (amount, sim)]);
    if net > 0 {
      out := out.(profitable := [Scored(net, entry)]);
    } else {
      var simulatable := CycleSimulatable(w, c);
      if sim.profit > 0 && simulatable {
        var cover := w.coverMatic(c, amount, sim);
        if amount < w.economicFloor(c) || cover == 0 {
          quarantine.CoolAllRotations(c.edges);
        } else {
          out := out.(nearNet := [Scored(cover, entry)]);
        }
      }
    }
    RankedSome(w, cooled, c, amount, sim, out);
  }

  // ---------------------------------------------------------------- admission

  ghost predicate DistinctEdges(kept: seq<Entry>) {
    forall i, j :: 0 <= i < j < |kept| ==> kept[i].cycle.edges != kept[j].cycle.edges
  }

  ghost predicate HasEdges(kept: seq<Entry>, e: Edges) {
    exists i :: 0 <= i < |kept| && kept[i].cycle.edges == e
  }

  /** Ranked entry `s` is not displaced: its edges are kept, or all `n` slots went to ranked cycles at
      least as valuable. */
  ghost predicate Undisplaced(ranked: seq<Scored>, kept: seq<Entry>, n: nat, s: Scored) {
    || HasEdges(kept, s.Edges())
    || (|kept| == n && forall k :: 0 <= k < n ==> exists t :: t in ranked && t.entry == kept[k] && t.value >= s.value)
  }

  ghost predicate BestFirst(ranked: seq<Scored>, kept: seq<Entry>, n: nat) {
    forall s :: s in ranked ==> Undisplaced(ranked, kept, n, s)
  }

  /** Both are ranked, the first with a larger value, or with the same and no worse by execution rank. */
  ghost predicate Outranks(ranked: seq<Scored>, a: Entry, b: Entry) {
    exists s, t :: s in ranked && t in ranked && s.entry == a && t.entry == b
      && (s.value > t.value || (s.value == t.value && a.cycle.execRank <= b.cycle.execRank))
  }

  /** From `base` on, the list is in order of descending value. */
  ghost predicate InValueOrder(ranked: seq<Scored>, base: nat, kept: seq<Entry>) {
    forall i, j :: base <= i < j < |kept| ==> Outranks(ranked, kept[i], kept[j])
  }

  ghost predicate AllRanked(ranked: seq<Scored>, kept: seq<Entry>) {
    forall k :: 0 <= k < |kept| ==> IsRanked(ranked, kept[k])
  }

  ghost predicate IsRanked(ranked: seq<Scored>, e: Entry) { exists t :: t in ranked && t.entry == e }

  /** Higher value first, then execution rank. */
  function ByValue(s: Scored): Rank { (-(s.value as int), s.entry.cycle.execRank) }

  function ByExecution(e: Entry): Rank { (e.cycle.execRank, 0) }

  /** No two kept cycles share their edges, and `seen` covers them all. */
  ghost predicate Room(kept: seq<Entry>, seen: set<Edges>) {
    DistinctEdges(kept) && forall e :: HasEdges(kept, e) ==> e in seen
  }

  lemma KeepOne(kept: seq<Entry>, seen: set<Edges>, e: Entry)
    requires Room(kept, seen) && e.cycle.edges !in seen
    ensures Room(kept + [e], seen + {e.cycle.edges})
    ensures forall x :: HasEdges(kept + [e], x) <==> HasEdges(kept, x) || x == e.cycle.edges
  {
    assert (kept + [e])[|kept|] == e;
    forall i | 0 <= i < |kept|
      ensures kept[i].cycle.edges != e.cycle.edges
    {
      assert HasEdges(kept, kept[i].cycle.edges);
    }
    forall x | HasEdges(kept, x)
      ensures HasEdges(kept + [e], x)
    {
      var i :| 0 <= i < |kept| && kept[i].cycle.edges == x;
      assert (kept + [e])[i].cycle.edges == x;
    }
  }

  /** Cutting a value-sorted list after its first `i` items displaces nothing from what was kept. */
  lemma CutIsBestFirst(profitable: seq<Scored>, sorted: seq<Scored>, i: nat, kept: seq<Entry>, at: seq<nat>, n: nat)
    requires sorted == StableSort(profitable, ByValue) && i <= |sorted|
    requires |at| == |kept| && forall k :: 0 <= k < |kept| ==> at[k] < i && kept[k] == sorted[at[k]].entry
    requires forall k, l :: 0 <= k < l < |at| ==> at[k] < at[l]
    requires forall j :: 0 <= j < i ==> HasEdges(kept, sorted[j].Edges())
    requires i < |sorted| ==> |kept| == n
    ensures BestFirst(profitable, kept, n)
    ensures AllRanked(profitable, kept) && InValueOrder(profitable, 0, kept)
    ensures i == |sorted| ==> forall s :: s in profitable ==> HasEdges(kept, s.Edges())
  {
    SortMeans(profitable, ByValue);
    SortKeepsMembers(profitable, ByValue);
    forall s | s in profitable
      ensures Undisplaced(profitable, kept, n, s)
    {
      var j :| 0 <= j < |sorted| && sorted[j] == s;
      forall k | 0 <= k < |kept| && j >= i
        ensures exists t :: t in profitable && t.entry == kept[k] && t.value >= s.value
      {
        assert AtMost(ByValue(sorted[at[k]]), ByValue(sorted[j]));
        assert sorted[at[k]] in profitable;
      }
    }
    forall k | 0 <= k < |kept|
      ensures IsRanked(profitable, kept[k])
    {
      assert sorted[at[k]] in profitable;
    }
    forall k, l | 0 <= k < l < |kept|
      ensures Outranks(profitable, kept[k], kept[l])
    {
      assert AtMost(ByValue(sorted[at[k]]), ByValue(sorted[at[l]]));
      assert sorted[at[k]] in profitable && sorted[at[l]] in profitable;
    }
  }

  /** The ranked tier of `select_probe_survivors`. */
  method TakeProfitable(profitable: seq<Scored>, maxKeep: nat) returns (kept: seq<Entry>, seen: set<Edges>)
    ensures |kept| <= maxKeep && Room(kept, seen) && (forall e :: e in seen ==> HasEdges(kept, e))
    ensures BestFirst(profitable, kept, maxKeep)
    ensures AllRanked(profitable, kept) && InValueOrder(profitable, 0, kept)
    ensures |kept| < maxKeep ==> forall s :: s in profitable ==> HasEdges(kept, s.Edges())
  {
    var sorted := StableSort(profitable, ByValue);
    ghost var at: seq<nat> := [];
    kept, seen := [], {};
    var i := 0;
    while i < |sorted| && |kept| < maxKeep
      invariant 0 <= i <= |sorted| && |kept| <= maxKeep && Room(kept, seen)
      invariant |at| == |kept| && forall k :: 0 <= k < |kept| ==> at[k] < i && kept[k] == sorted[at[k]].entry
      invariant forall k, l :: 0 <= k < l < |at| ==> at[k] < at[l]
      invariant forall e :: e in seen ==> HasEdges(kept, e)
      invariant forall j :: 0 <= j < i ==> HasEdges(kept, sorted[j].Edges())
    {
      var s := sorted[i];
      if s.Edges() !in seen {
        KeepOne(kept, seen, s.entry);
        kept, seen, at := kept + [s.entry], seen + {s.Edges()}, at + [i];
      }
      i := i + 1;
    }
    CutIsBestFirst(profitable, sorted, i, kept, at, maxKeep);
  }

  /** `select_probe_survivors`: the most valuable ranked cycles, then rescues while slots last. */
  method SelectProbeSurvivors(profitable: seq<Scored>, rescue: seq<Entry>, maxKeep: nat, rescueCap: nat)
    returns (kept: seq<Entry>, ghost ranked: nat)
    ensures |kept| <= maxKeep && DistinctEdges(kept)
    ensures ranked <= |kept| <= ranked + rescueCap && ranked + |rescue| >= |kept|
    ensures BestFirst(profitable, kept[..ranked], maxKeep)
    ensures AllRanked(profitable, kept[..ranked]) && InValueOrder(profitable, 0, kept[..ranked])
    ensures forall k :: ranked <= k < |kept| ==> kept[k] in rescue
    ensures InExecutionOrder(kept, ranked, |kept|)
    ensures |kept| == maxKeep || |kept| == ranked + rescueCap || forall e :: e in rescue ==> HasEdges(kept, e.cycle.edges)
    ensures forall e, k :: e in rescue && !HasEdges(kept, e.cycle.edges) && ranked <= k < |kept| ==>
      kept[k].cycle.execRank <= e.cycle.execRank
    ensures ranked < maxKeep ==> forall s :: s in profitable ==> HasEdges(kept[..ranked], s.Edges())
  {
    var first, seen := TakeProfitable(profitable, maxKeep);
    kept, ranked := first, |first|;
    if |first| < maxKeep {
      var remaining := maxKeep - |first|;
      kept := AppendRescue(first, seen, rescue, if rescueCap < remaining then rescueCap else remaining);
    }
    assert kept[..ranked] == first;
  }

  ghost predicate InExecutionOrder(kept: seq<Entry>, from: nat, to: nat)
    requires to <= |kept|
  {
    forall i, j :: from <= i < j < to ==> kept[i].cycle.execRank <= kept[j].cycle.execRank
  }

  /** One of the first `i` rescues in execution order. */
  ghost predicate ExecutedFirst(sorted: seq<Entry>, i: nat, e: Entry) {
    exists j :: 0 <= j < i && j < |sorted| && sorted[j] == e
  }

  /** An entry among the first `i` ranks no lower than anything from there on. */
  lemma ExecutedFirstRanks(rescue: seq<Entry>, i: nat, e: Entry, f: Entry)
    requires var sorted := StableSort(rescue, ByExecution);
      i <= |sorted| && ExecutedFirst(sorted, i, e) && f in sorted[i..]
    ensures e.cycle.execRank <= f.cycle.execRank && e in rescue
  {
    var sorted := StableSort(rescue, ByExecution);
    SortMeans(rescue, ByExecution);
    SortKeepsMembers(rescue, ByExecution);
    var j :| 0 <= j < i && j < |sorted| && sorted[j] == e;
    var m :| i <= m < |sorted| && sorted[m] == f;
    assert AtMost(ByExecution(sorted[j]), ByExecution(sorted[m]));
  }

  method AppendRescue(kept0: seq<Entry>, seen0: set<Edges>, rescue: seq<Entry>, take: nat) returns (kept: seq<Entry>)
    requires Room(kept0, seen0) && forall e :: e in seen0 ==> HasEdges(kept0, e)
    ensures |kept0| <= |kept| <= |kept0| + take && kept[..|kept0|] == kept0 && |kept| <= |kept0| + |rescue|
    ensures DistinctEdges(kept)
    ensures forall k :: |kept0| <= k < |kept| ==> kept[k] in rescue
    ensures InExecutionOrder(kept, |kept0|, |kept|)
    ensures |kept| == |kept0| + take || forall e :: e in rescue ==> HasEdges(kept, e.cycle.edges)
    ensures forall e, k :: e in rescue && !HasEdges(kept, e.cycle.edges) && |kept0| <= k < |kept| ==>
      kept[k].cycle.execRank <= e.cycle.execRank
  {
    var sorted := StableSort(rescue, ByExecution);
    SortKeepsMembers(rescue, ByExecution);
    var seen, i := seen0, 0;
    kept := kept0;
    while i < |sorted| && |kept| < |kept0| + take
      invariant 0 <= i <= |sorted| && |kept0| <= |kept| <= |kept0| + take && |kept| <= |kept0| + i
      invariant kept[..|kept0|] == kept0 && Room(kept, seen) && forall e :: e in seen ==> HasEdges(kept, e)
      invariant forall k :: |kept0| <= k < |kept| ==> ExecutedFirst(sorted, i, kept[k])
      invariant forall j :: 0 <= j < i ==> HasEdges(kept, sorted[j].cycle.edges)
      invariant InExecutionOrder(kept, |kept0|, |kept|)
    {
      var e := sorted[i];
      if e.cycle.edges !in seen {
        AppendInOrder(rescue, i, |kept0|, kept);
        KeepOne(kept, seen, e);
        kept, seen := kept + [e], seen + {e.cycle.edges};
      }
      i := i + 1;
    }
    forall e, k | e in rescue && !HasEdges(kept, e.cycle.edges) && |kept0| <= k < |kept|
      ensures kept[k].cycle.execRank <= e.cycle.execRank
    {
      LeftLater(sorted, i, e);
      ExecutedFirstRanks(rescue, i, kept[k], e);
    }
  }

  lemma AppendInOrder(rescue: seq<Entry>, i: nat, base: nat, kept: seq<Entry>)
    requires var sorted := StableSort(rescue, ByExecution);
      i < |sorted| && forall k :: base <= k < |kept| ==> ExecutedFirst(sorted, i, kept[k])
    requires InExecutionOrder(kept, base, |kept|)
    ensures var e := StableSort(rescue, ByExecution)[i];
      InExecutionOrder(kept + [e], base, |kept| + 1)
  {
    var sorted := StableSort(rescue, ByExecution);
    forall k | base <= k < |kept|
      ensures kept[k].cycle.execRank <= sorted[i].cycle.execRank
    {
      ExecutedFirstRanks(rescue, i, kept[k], sorted[i]);
    }
  }

  lemma LeftLater(sorted: seq<Entry>, i: nat, e: Entry)
    requires i <= |sorted| && e in sorted && forall j :: 0 <= j < i ==> sorted[j].cycle.edges != e.cycle.edges
    ensures e in sorted[i..]
  {
    var m :| 0 <= m < |sorted| && sorted[m] == e;
    assert sorted[i..][m - i] == e;
  }

  /** Every kept cycle is uncooled, and seeded unless it came from the rescue list. */
  ghost predicate Admissible(cooled: set<Edges>, seeds: SeedMap, rescue: seq<Entry>, kept: seq<Entry>) {
    forall k :: 0 <= k < |kept| ==>
      && !Quarantined(cooled, kept[k].cycle.edges)
      && (kept[k].cycle.edges in seeds || kept[k] in rescue)
  }

  /** Edges already looked at: some item up to position `i` has them and was kept, or is not evaluable. */
  ghost predicate LookedAt(w: World, sorted: seq<Scored>, i: nat, kept: seq<Entry>, e: Edges) {
    exists m :: 0 <= m < i && m < |sorted| && sorted[m].Edges() == e
                && (sorted[m].entry in kept || !w.flashEvaluable(sorted[m].entry.cycle))
  }

  /** Item `s` of the near-net tier got its turn: an item with its edges and at least its cover was kept or
      is not evaluable, or every slot went to items with at least its cover. */
  ghost predicate HadTurn(w: World, nearNet: seq<Scored>, base: nat, kept: seq<Entry>, full: bool, s: Scored) {
    || (exists t :: t in nearNet && t.Edges() == s.Edges() && t.value >= s.value
                    && (t.entry in kept || !w.flashEvaluable(t.entry.cycle)))
    || (full && forall k :: base <= k < |kept| ==> exists t :: t in nearNet && t.entry == kept[k] && t.value >= s.value)
  }

  lemma LookedAtLasts(w: World, sorted: seq<Scored>, i: nat, kept: seq<Entry>, e: Edges, j: nat, more: seq<Entry>)
    requires LookedAt(w, sorted, i, kept, e) && i <= j
    ensures LookedAt(w, sorted, j, kept + more, e)
  {
    var m :| 0 <= m < i && m < |sorted| && sorted[m].Edges() == e
             && (sorted[m].entry in kept || !w.flashEvaluable(sorted[m].entry.cycle));
    assert sorted[m].entry in kept ==> sorted[m].entry in kept + more;
  }

  /** Neither the route nor a token on it is cooled. */
  predicate Uncooled(w: World, cooled: set<Edges>, e: Edges) { !Quarantined(cooled, e) && !w.tokenCooled(e) }

  /** Everything kept after the first `base` entries is one of the first `i` items. */
  ghost predicate Placed(sorted: seq<Scored>, i: nat, base: nat, kept: seq<Entry>) {
    forall k :: base <= k < |kept| ==> AmongFirst(sorted, i, kept[k])
  }

  ghost predicate AmongFirst(sorted: seq<Scored>, i: nat, e: Entry) {
    exists m :: 0 <= m < i && m < |sorted| && sorted[m].entry == e
  }

  /** An underwater cycle fit for admission. */
  ghost predicate IsNear(w: World, cooled: set<Edges>, nearNet: seq<Scored>, e: Entry) {
    IsRanked(nearNet, e) && Uncooled(w, cooled, e.cycle.edges) && w.flashEvaluable(e.cycle)
  }

  ghost predicate AllNear(w: World, cooled: set<Edges>, nearNet: seq<Scored>, base: nat, kept: seq<Entry>) {
    forall k :: base <= k < |kept| ==> IsNear(w, cooled, nearNet, kept[k])
  }

  lemma PlacedStep(sorted: seq<Scored>, i: nat, base: nat, kept: seq<Entry>, more: seq<Entry>)
    requires i < |sorted| && Placed(sorted, i, base, kept) && (more == [] || more == [sorted[i].entry])
    ensures Placed(sorted, i + 1, base, kept + more)
  {
    forall k | base <= k < |kept + more|
      ensures AmongFirst(sorted, i + 1, (kept + more)[k])
    {
      if k < |kept| {
        assert AmongFirst(sorted, i, kept[k]);
      } else {
        assert (kept + more)[k] == sorted[i].entry;
      }
    }
  }

  lemma LookedAtHadTurn(w: World, nearNet: seq<Scored>, sorted: seq<Scored>, j: nat, base: nat, kept: seq<Entry>, full: bool)
    requires sorted == StableSort(nearNet, ByValue) && j < |sorted|
    requires LookedAt(w, sorted, j + 1, kept, sorted[j].Edges())
    ensures HadTurn(w, nearNet, base, kept, full, sorted[j])
  {
    SortMeans(nearNet, ByValue);
    SortKeepsMembers(nearNet, ByValue);
    var m :| 0 <= m < j + 1 && sorted[m].Edges() == sorted[j].Edges()
             && (sorted[m].entry in kept || !w.flashEvaluable(sorted[m].entry.cycle));
    assert m < j ==> AtMost(ByValue(sorted[m]), ByValue(sorted[j]));
    assert sorted[m] in nearNet;
  }

  lemma CutHadTurn(w: World, nearNet: seq<Scored>, sorted: seq<Scored>, i: nat, j: nat, base: nat, kept: seq<Entry>)
    requires sorted == StableSort(nearNet, ByValue) && i <= j < |sorted| && Placed(sorted, i, base, kept)
    ensures HadTurn(w, nearNet, base, kept, true, sorted[j])
  {
    SortMeans(nearNet, ByValue);
    SortKeepsMembers(nearNet, ByValue);
    forall k | base <= k < |kept|
      ensures exists t :: t in nearNet && t.entry == kept[k] && t.value >= sorted[j].value
    {
      assert AmongFirst(sorted, i, kept[k]);
      var m :| 0 <= m < i && m < |sorted| && sorted[m].entry == kept[k];
      assert AtMost(ByValue(sorted[m]), ByValue(sorted[j]));
      assert sorted[m] in nearNet;
    }
  }

  /** Every uncooled item before `i` has been looked at, and so have all edges newly seen. */
  ghost predicate Turns(w: World, cooled: set<Edges>, sorted: seq<Scored>, i: nat, kept: seq<Entry>,
                        seen0: set<Edges>, seen: set<Edges>)
    requires i <= |sorted|
  {
    && seen0 <= seen
    && (forall e :: e in seen && e !in seen0 ==> LookedAt(w, sorted, i, kept, e))
    && (forall j :: 0 <= j < i && sorted[j].Edges() !in seen0 && Uncooled(w, cooled, sorted[j].Edges()) ==>
          LookedAt(w, sorted, j + 1, kept, sorted[j].Edges()))
  }

  lemma SeenStep(w: World, cooled: set<Edges>, sorted: seq<Scored>, i: nat, kept: seq<Entry>, more: seq<Entry>,
                 seen0: set<Edges>, seen: set<Edges>, seen': set<Edges>)
    requires i < |sorted| && forall e :: e in seen && e !in seen0 ==> LookedAt(w, sorted, i, kept, e)
    requires seen' <= seen + {sorted[i].Edges()}
    requires sorted[i].Edges() in seen' && sorted[i].Edges() !in seen ==>
      w.flashEvaluable(sorted[i].entry.cycle) ==> more == [sorted[i].entry]
    ensures forall e :: e in seen' && e !in seen0 ==> LookedAt(w, sorted, i + 1, kept + more, e)
  {
    forall e | e in seen' && e !in seen0
      ensures LookedAt(w, sorted, i + 1, kept + more, e)
    {
      if e in seen {
        LookedAtLasts(w, sorted, i, kept, e, i + 1, more);
      } else {
        assert e == sorted[i].Edges();
      }
    }
  }

  lemma TurnsStep(w: World, cooled: set<Edges>, sorted: seq<Scored>, i: nat, kept: seq<Entry>, more: seq<Entry>,
                  seen0: set<Edges>, seen: set<Edges>, seen': set<Edges>)
    requires i < |sorted| && Turns(w, cooled, sorted, i, kept, seen0, seen)
    requires var e := sorted[i].Edges();
      if Uncooled(w, cooled, e) && e !in seen
      then seen' == seen + {e} && (w.flashEvaluable(sorted[i].entry.cycle) ==> more == [sorted[i].entry])
      else seen' == seen
    ensures Turns(w, cooled, sorted, i + 1, kept + more, seen0, seen')
  {
    SeenStep(w, cooled, sorted, i, kept, more, seen0, seen, seen');
    forall j | 0 <= j < i && LookedAt(w, sorted, j + 1, kept, sorted[j].Edges())
      ensures LookedAt(w, sorted, j + 1, kept + more, sorted[j].Edges())
    {
      LookedAtLasts(w, sorted, j + 1, kept, sorted[j].Edges(), j + 1, more);
    }
  }

  lemma TurnsReachAll(w: World, cooled: set<Edges>, nearNet: seq<Scored>, i: nat, base: nat, kept: seq<Entry>,
                      seen0: set<Edges>, seen: set<Edges>, full: bool)
    requires var sorted := StableSort(nearNet, ByValue);
      && i <= |sorted| && (i < |sorted| ==> full)
      && Turns(w, cooled, sorted, i, kept, seen0, seen) && Placed(sorted, i, base, kept)
    ensures forall s :: s in nearNet && s.Edges() !in seen0 && Uncooled(w, cooled, s.Edges()) ==>
      HadTurn(w, nearNet, base, kept, full, s)
  {
    var sorted := StableSort(nearNet, ByValue);
    SortKeepsMembers(nearNet, ByValue);
    forall s | s in nearNet && s.Edges() !in seen0 && Uncooled(w, cooled, s.Edges())
      ensures HadTurn(w, nearNet, base, kept, full, s)
    {
      var j :| 0 <= j < |sorted| && sorted[j] == s;
      if j < i {
        LookedAtHadTurn(w, nearNet, sorted, j, base, kept, full);
      } else {
        CutHadTurn(w, nearNet, sorted, i, j, base, kept);
      }
    }
  }

  /** The kept list of the near-net loop, whatever the order. */
  ghost predicate KeptInv(cooled: set<Edges>, seeds: SeedMap, rescue: seq<Entry>, kept0: seq<Entry>,
                          kept: seq<Entry>, seen: set<Edges>) {
    Room(kept, seen) && Admissible(cooled, seeds, rescue, kept) && kept0 <= kept
  }

  lemma KeptStep(w: World, cooled: set<Edges>, seeds: SeedMap, rescue: seq<Entry>, kept0: seq<Entry>, kept: seq<Entry>,
                 seen: set<Edges>, e: Entry)
    requires KeptInv(cooled, seeds, rescue, kept0, kept, seen) && e.cycle.edges in seeds
    ensures KeptInv(cooled, seeds, rescue, kept0, kept + NearAdded(w, cooled, seen, e), NearSeen(w, cooled, seen, e))
  {
    if Uncooled(w, cooled, e.cycle.edges) && e.cycle.edges !in seen {
      KeepOne(kept, seen, e);
    }
    assert kept + [] == kept;
  }

  /** What one item adds to the kept list and to the seen edges. */
  function NearAdded(w: World, cooled: set<Edges>, seen: set<Edges>, e: Entry): seq<Entry> {
    if Uncooled(w, cooled, e.cycle.edges) && e.cycle.edges !in seen && w.flashEvaluable(e.cycle) then [e] else []
  }

  function NearSeen(w: World, cooled: set<Edges>, seen: set<Edges>, e: Entry): set<Edges> {
    if Uncooled(w, cooled, e.cycle.edges) then seen + {e.cycle.edges} else seen
  }

  lemma NearStep(w: World, cooled: set<Edges>, nearNet: seq<Scored>, base: nat, kept: seq<Entry>, seen: set<Edges>, s: Scored)
    requires AllNear(w, cooled, nearNet, base, kept) && s in nearNet
    ensures AllNear(w, cooled, nearNet, base, kept + NearAdded(w, cooled, seen, s.entry))
  {
    assert IsRanked(nearNet, s.entry);
  }

  /** Appending the next item keeps the tier in order of cover. */
  lemma ValueOrderStep(nearNet: seq<Scored>, sorted: seq<Scored>, i: nat, base: nat, kept: seq<Entry>, more: seq<Entry>)
    requires sorted == StableSort(nearNet, ByValue) && i < |sorted| && Placed(sorted, i, base, kept)
    requires InValueOrder(nearNet, base, kept) && (more == [] || more == [sorted[i].entry])
    ensures InValueOrder(nearNet, base, kept + more)
  {
    SortMeans(nearNet, ByValue);
    SortKeepsMembers(nearNet, ByValue);
    forall k, l | base <= k < l < |kept + more|
      ensures Outranks(nearNet, (kept + more)[k], (kept + more)[l])
    {
      assert AmongFirst(sorted, i, kept[k]);
      var m :| 0 <= m < i && sorted[m].entry == kept[k];
      assert AtMost(ByValue(sorted[m]), ByValue(sorted[i]));
      assert sorted[m] in nearNet && sorted[i] in nearNet;
      if l < |kept| {
        assert Outranks(nearNet, kept[k], kept[l]);
      }
    }
  }

  /** Which items the near-net loop has placed and looked at, after `i` of them. */
  ghost predicate OrderInv(w: World, cooled: set<Edges>, sorted: seq<Scored>, i: nat, base: nat, kept: seq<Entry>,
                           seen0: set<Edges>, seen: set<Edges>)
    requires i <= |sorted|
  {
    Placed(sorted, i, base, kept) && Turns(w, cooled, sorted, i, kept, seen0, seen)
  }

  lemma OrderStep(w: World, cooled: set<Edges>, sorted: seq<Scored>, i: nat, base: nat, kept: seq<Entry>,
                  seen0: set<Edges>, seen: set<Edges>)
    requires i < |sorted| && OrderInv(w, cooled, sorted, i, base, kept, seen0, seen)
    ensures var e := sorted[i].entry;
      OrderInv(w, cooled, sorted, i + 1, base, kept + NearAdded(w, cooled, seen, e), seen0, NearSeen(w, cooled, seen, e))
  {
    var e := sorted[i].entry;
    PlacedStep(sorted, i, base, kept, NearAdded(w, cooled, seen, e));
    TurnsStep(w, cooled, sorted, i, kept, NearAdded(w, cooled, seen, e), seen0, seen, NearSeen(w, cooled, seen, e));
  }

  /** Edges are seen because a kept cycle has them, or a near-net cycle that is not evaluable does. */
  ghost predicate SeenOk(w: World, nearNet: seq<Scored>, kept: seq<Entry>, seen: set<Edges>) {
    forall e :: e in seen ==> HasEdges(kept, e) || Spoiled(w, nearNet, e)
  }

  ghost predicate Spoiled(w: World, nearNet: seq<Scored>, e: Edges) {
    exists t :: t in nearNet && t.Edges() == e && !w.flashEvaluable(t.entry.cycle)
  }

  lemma SeenGrows(w: World, nearNet: seq<Scored>, kept: seq<Entry>, seen: set<Edges>, e: Entry)
    requires SeenOk(w, nearNet, kept, seen) && Room(kept, seen) && e.cycle.edges !in seen
    ensures SeenOk(w, nearNet, kept + [e], seen + {e.cycle.edges})
  {
    KeepOne(kept, seen, e);
  }

  lemma TurnsExplainSeen(w: World, cooled: set<Edges>, nearNet: seq<Scored>, i: nat, kept0: seq<Entry>, kept: seq<Entry>,
                         seen0: set<Edges>, seen: set<Edges>)
    requires SeenOk(w, nearNet, kept0, seen0) && kept0 <= kept && i <= |StableSort(nearNet, ByValue)|
    requires Turns(w, cooled, StableSort(nearNet, ByValue), i, kept, seen0, seen)
    ensures SeenOk(w, nearNet, kept, seen)
  {
    var sorted := StableSort(nearNet, ByValue);
    SortKeepsMembers(nearNet, ByValue);
    forall e | e in seen
      ensures HasEdges(kept, e) || Spoiled(w, nearNet, e)
    {
      if e in seen0 && HasEdges(kept0, e) {
        var k :| 0 <= k < |kept0| && kept0[k].cycle.edges == e;
        assert kept[k].cycle.edges == e;
      } else if e !in seen0 {
        assert LookedAt(w, sorted, i, kept, e);
        var m :| 0 <= m < i && m < |sorted| && sorted[m].Edges() == e
                 && (sorted[m].entry in kept || !w.flashEvaluable(sorted[m].entry.cycle));
        assert sorted[m] in nearNet;
      }
    }
  }

  /** The near-net tier: underwater cycles in order of cover, while slots last. */
  method AdmitNearNet(w: World, cooled: set<Edges>, seeds: SeedMap, ghost rescue: seq<Entry>, nearNet: seq<Scored>,
                      kept0: seq<Entry>, seen0: set<Edges>, maxKeep: nat, slots: nat)
    returns (kept: seq<Entry>, seen: set<Edges>)
    requires ScoredOk(seeds, nearNet)
    requires Room(kept0, seen0) && Admissible(cooled, seeds, rescue, kept0) && |kept0| <= maxKeep
    requires SeenOk(w, nearNet, kept0, seen0)
    ensures SeenOk(w, nearNet, kept, seen)
    ensures Room(kept, seen) && Admissible(cooled, seeds, rescue, kept) && |kept| <= maxKeep
    ensures |kept0| <= |kept| <= |kept0| + slots && kept[..|kept0|] == kept0
    ensures AllNear(w, cooled, nearNet, |kept0|, kept) && InValueOrder(nearNet, |kept0|, kept)
    ensures forall s :: s in nearNet && s.Edges() !in seen0 && Uncooled(w, cooled, s.Edges()) ==>
      HadTurn(w, nearNet, |kept0|, kept, |kept| == maxKeep || |kept| == |kept0| + slots, s)
  {
    var sorted := StableSort(nearNet, ByValue);
    SortKeepsMembers(nearNet, ByValue);
    kept, seen := kept0, seen0;
    var i := 0;
    while i < |sorted| && |kept| < maxKeep && |kept| - |kept0| < slots
      invariant 0 <= i <= |sorted| && |kept0| <= |kept| <= maxKeep && |kept| <= |kept0| + slots
      invariant KeptInv(cooled, seeds, rescue, kept0, kept, seen)
      invariant OrderInv(w, cooled, sorted, i, |kept0|, kept, seen0, seen)
      invariant AllNear(w, cooled, nearNet, |kept0|, kept) && InValueOrder(nearNet, |kept0|, kept)
    {
      var s := sorted[i];
      assert s in nearNet;
      ValueOrderStep(nearNet, sorted, i, |kept0|, kept, NearAdded(w, cooled, seen, s.entry));
      NearStep(w, cooled, nearNet, |kept0|, kept, seen, s);
      KeptStep(w, cooled, seeds, rescue, kept0, kept, seen, s.entry);
      OrderStep(w, cooled, sorted, i, |kept0|, kept, seen0, seen);
      kept, seen, i := kept + NearAdded(w, cooled, seen, s.entry), NearSeen(w, cooled, seen, s.entry), i + 1;
    }
    TurnsReachAll(w, cooled, nearNet, i, |kept0|, kept, seen0, seen, |kept| == maxKeep || |kept| == |kept0| + slots);
    TurnsExplainSeen(w, cooled, nearNet, i, kept0, kept, seen0, seen);
  }

  /** What the rescue loop has done after the first `i` rescues in execution order: each uncooled one of them is
      kept or its edges were already seen, and only they were added, in that order. */
  ghost predicate Rescued(w: World, cooled: set<Edges>, rescue: seq<Entry>, nearNet: seq<Scored>, i: nat, base: nat,
                          kept: seq<Entry>) {
    var sorted := StableSort(rescue, ByExecution);
    && i <= |sorted|
    && (forall k :: base <= k < |kept| ==> ExecutedFirst(sorted, i, kept[k]))
    && InExecutionOrder(kept, base, |kept|)
    && (forall j :: 0 <= j < i && !Quarantined(cooled, sorted[j].cycle.edges) ==>
          HasEdges(kept, sorted[j].cycle.edges) || Spoiled(w, nearNet, sorted[j].cycle.edges))
  }

  lemma RescuedStep(w: World, cooled: set<Edges>, rescue: seq<Entry>, nearNet: seq<Scored>, i: nat, base: nat,
                    kept: seq<Entry>, seen: set<Edges>)
    requires i < |StableSort(rescue, ByExecution)| && Rescued(w, cooled, rescue, nearNet, i, base, kept)
    requires Room(kept, seen) && SeenOk(w, nearNet, kept, seen)
    ensures var e := StableSort(rescue, ByExecution)[i];
      Rescued(w, cooled, rescue, nearNet, i + 1, base,
              if !Quarantined(cooled, e.cycle.edges) && e.cycle.edges !in seen then kept + [e] else kept)
  {
    var sorted := StableSort(rescue, ByExecution);
    var e := sorted[i];
    if !Quarantined(cooled, e.cycle.edges) && e.cycle.edges !in seen {
      AppendInOrder(rescue, i, base, kept);
      KeepOne(kept, seen, e);
    }
  }

  /** The rescue tier: the allowance is spent on the best rescues by execution rank. */
  method AdmitRescue(ghost w: World, cooled: set<Edges>, ghost seeds: SeedMap, rescue: seq<Entry>, ghost nearNet: seq<Scored>,
                     take: nat, kept0: seq<Entry>, seen0: set<Edges>)
    returns (kept: seq<Entry>, seen: set<Edges>)
    requires Room(kept0, seen0) && Admissible(cooled, seeds, rescue, kept0) && SeenOk(w, nearNet, kept0, seen0)
    ensures SeenOk(w, nearNet, kept, seen)
    ensures Room(kept, seen) && Admissible(cooled, seeds, rescue, kept)
    ensures |kept0| <= |kept| <= |kept0| + Min(take, |rescue|) && kept[..|kept0|] == kept0
    ensures Rescued(w, cooled, rescue, nearNet, Min(take, |rescue|), |kept0|, kept)
  {
    var sorted := StableSort(rescue, ByExecution);
    SortKeepsMembers(rescue, ByExecution);
    kept, seen := kept0, seen0;
    for i := 0 to Min(take, |sorted|)
      invariant Room(kept, seen) && Admissible(cooled, seeds, rescue, kept) && SeenOk(w, nearNet, kept, seen)
      invariant |kept0| <= |kept| <= |kept0| + i && kept[..|kept0|] == kept0
      invariant Rescued(w, cooled, rescue, nearNet, i, |kept0|, kept)
    {
      var e := sorted[i];
      assert e in rescue;
      RescuedStep(w, cooled, rescue, nearNet, i, |kept0|, kept, seen);
      if !Quarantined(cooled, e.cycle.edges) && e.cycle.edges !in seen {
        KeepOne(kept, seen, e);
        SeenGrows(w, nearNet, kept, seen, e);
        kept, seen := kept + [e], seen + {e.cycle.edges};
      }
    }
  }

  function ByCycleExecution(c: Cycle): Rank { (c.execRank, 0) }

  ghost predicate Eligible(w: World, c: Cycle) { Simulatable(w, c) && w.flashEvaluable(c) }

  /** The eligible flash starts of the first `n` scanned cycles, in scan order. */
  ghost function EligibleStarts(w: World, scanned: seq<Cycle>, n: nat): seq<Cycle>
    requires n <= |scanned|
  {
    if n == 0 then []
    else
      var start := w.flashStart(scanned[n - 1]);
      EligibleStarts(w, scanned, n - 1) + if Eligible(w, start) then [start] else []
  }

  lemma {:induction false} EligibleStartsMembers(w: World, scanned: seq<Cycle>, n: nat, c: Cycle)
    requires n <= |scanned|
    ensures c in EligibleStarts(w, scanned, n)
       <==> Eligible(w, c) && exists i :: 0 <= i < n && c == w.flashStart(scanned[i])
  {
    if n == 0 {
    } else {
      EligibleStartsMembers(w, scanned, n - 1, c);
    }
  }

  method FindEligible(w: World, scanned: seq<Cycle>, n: nat) returns (found: seq<Cycle>)
    requires n <= |scanned|
    ensures found == EligibleStarts(w, scanned, n)
  {
    found := [];
    for i := 0 to n
      invariant found == EligibleStarts(w, scanned, i)
    {
      var ready := w.flashStart(scanned[i]);
      var simulatable := CycleSimulatable(w, ready);
      if simulatable && w.flashEvaluable(ready) {
        found := found + [ready];
      }
    }
  }

  /** `r` is the best `cap` of the eligible starts in the window, each as often as it occurs there, in execution
      order: an occurrence left out ranks no better than anything in `r`. */
  ghost predicate BestStarts(w: World, scanned: seq<Cycle>, cap: nat, r: seq<Cycle>) {
    var found := EligibleStarts(w, scanned, Min(|scanned|, 2 * cap));
    && |r| == Min(|found|, cap) && multiset(r) <= multiset(found)
    && Ascending(r, ByCycleExecution)
    && (forall c, k :: multiset(r)[c] < multiset(found)[c] && 0 <= k < |r| ==> r[k].execRank <= c.execRank)
  }

  /** `simulatable_score_fallback`: of the eligible starts in the window, the best-ranked ones. */
  method SimulatableScoreFallback(w: World, scanned: seq<Cycle>, maxKeep: nat) returns (r: seq<Cycle>)
    ensures BestStarts(w, scanned, maxKeep, r)
  {
    var eligible := FindEligible(w, scanned, Min(|scanned|, 2 * maxKeep));
    var sorted := StableSort(eligible, ByCycleExecution);
    SortMeans(eligible, ByCycleExecution);
    SortKeepsMembers(eligible, ByCycleExecution);
    r := sorted[..Min(|sorted|, maxKeep)];
    CutKeepsBest(sorted, |r|);
  }

  lemma CutKeepsBest(sorted: seq<Cycle>, n: nat)
    requires n <= |sorted| && Ascending(sorted, ByCycleExecution)
    ensures Ascending(sorted[..n], ByCycleExecution) && multiset(sorted[..n]) <= multiset(sorted)
    ensures forall c, k :: multiset(sorted[..n])[c] < multiset(sorted)[c] && 0 <= k < n ==> sorted[k].execRank <= c.execRank
  {
    assert sorted == sorted[..n] + sorted[n..];
    forall c, k | multiset(sorted[..n])[c] < multiset(sorted)[c] && 0 <= k < n
      ensures sorted[k].execRank <= c.execRank
    {
      assert c in multiset(sorted[n..]);
      var j :| 0 <= j < |sorted[n..]| && sorted[n..][j] == c;
      assert AtMost(ByCycleExecution(sorted[k]), ByCycleExecution(sorted[n + j]));
    }
  }

  /** The fallback tier may admit this cycle: uncooled, and the probe seeds it at an economic size. */
  ghost predicate Open(w: World, cooled: set<Edges>, c: Cycle) {
    && Uncooled(w, cooled, c.edges)
    && exists r :: IsResult(ProbeOf(w, c), r) && r.Best? && r.amount >= w.economicFloor(c)
  }

  /** The entry of an open cycle of the list. */
  ghost predicate IsOpen(w: World, cooled: set<Edges>, cycles: seq<Cycle>, e: Entry) {
    e.cycle in cycles && Open(w, cooled, e.cycle) && e == EntryFor(w, e.cycle)
  }

  lemma NotOpen(w: World, cooled: set<Edges>, c: Cycle, probe: ProbeResult)
    requires IsResult(ProbeOf(w, c), probe)
    requires !(probe.Best? && probe.sim.profit > 0 && probe.amount >= w.economicFloor(c))
    ensures !Open(w, cooled, c)
  {
    if Open(w, cooled, c) {
      var r :| IsResult(ProbeOf(w, c), r) && r.Best? && r.amount >= w.economicFloor(c);
      ResultUnique(ProbeOf(w, c), r, probe);
      SuccessHasProfit(ProbeOf(w, c), r);
    }
  }

  /** What the fallback loop keeps. */
  ghost predicate FallbackInv(w: World, cooled: set<Edges>, fallback: seq<Cycle>, rescue: seq<Entry>, kept0: seq<Entry>,
                              kept: seq<Entry>, seen: set<Edges>, seeds: SeedMap) {
    && KeptInv(cooled, seeds, rescue, kept0, kept, seen) && SeedsOk(w, seeds)
    && forall k :: |kept0| <= k < |kept| ==> IsOpen(w, cooled, fallback, kept[k])
  }

  lemma FallbackStep(w: World, cooled: set<Edges>, fallback: seq<Cycle>, rescue: seq<Entry>, kept0: seq<Entry>,
                     kept: seq<Entry>, seen: set<Edges>, seeds: SeedMap, c: Cycle, amount: Amount, sim: SimResult)
    requires FallbackInv(w, cooled, fallback, rescue, kept0, kept, seen, seeds)
    requires c in fallback && Uncooled(w, cooled, c.edges) && c.edges !in seen
    requires IsResult(ProbeOf(w, c), Best(amount, sim)) && amount >= w.economicFloor(c)
    ensures FallbackInv(w, cooled, fallback, rescue, kept0, kept + [EntryFor(w, c)], seen + {c.edges},
                        seeds[c.edges := (amount, sim)])
  {
    assert SeedFor(w, c.edges, (amount, sim));
    KeepOne(kept, seen, EntryFor(w, c));
  }

  /** The fallback loop after the first `i` cycles of its list. */
  ghost predicate FallbackLoop(w: World, cooled: set<Edges>, fallback: seq<Cycle>, i: nat, rescue: seq<Entry>,
                               nearNet: seq<Scored>, kept0: seq<Entry>, kept: seq<Entry>, seen: set<Edges>, seeds: SeedMap)
    requires i <= |fallback|
  {
    && FallbackInv(w, cooled, fallback[..i], rescue, kept0, kept, seen, seeds) && SeenOk(w, nearNet, kept, seen)
    && (forall j :: 0 <= j < i && Open(w, cooled, fallback[j]) ==> fallback[j].edges in seen)
    && (Ascending(fallback, ByCycleExecution) ==> InExecutionOrder(kept, |kept0|, |kept|))
  }

  lemma FallbackSkips(w: World, cooled: set<Edges>, fallback: seq<Cycle>, i: nat, rescue: seq<Entry>,
                      nearNet: seq<Scored>, kept0: seq<Entry>, kept: seq<Entry>, seen: set<Edges>, seeds: SeedMap)
    requires i < |fallback| && FallbackLoop(w, cooled, fallback, i, rescue, nearNet, kept0, kept, seen, seeds)
    requires fallback[i].edges in seen || !Open(w, cooled, fallback[i])
    ensures FallbackLoop(w, cooled, fallback, i + 1, rescue, nearNet, kept0, kept, seen, seeds)
  {
    FallbackGrows(w, cooled, fallback, i, i + 1, rescue, kept0, kept, seen, seeds);
  }

  lemma FallbackTakes(w: World, cooled: set<Edges>, fallback: seq<Cycle>, i: nat, rescue: seq<Entry>,
                      nearNet: seq<Scored>, kept0: seq<Entry>, kept: seq<Entry>, seen: set<Edges>, seeds: SeedMap,
                      amount: Amount, sim: SimResult)
    requires i < |fallback| && FallbackLoop(w, cooled, fallback, i, rescue, nearNet, kept0, kept, seen, seeds)
    requires var c := fallback[i];
      && Uncooled(w, cooled, c.edges) && c.edges !in seen
      && IsResult(ProbeOf(w, c), Best(amount, sim)) && amount >= w.economicFloor(c)
    ensures var c := fallback[i];
      FallbackLoop(w, cooled, fallback, i + 1, rescue, nearNet, kept0, kept + [EntryFor(w, c)], seen + {c.edges},
                   seeds[c.edges := (amount, sim)])
  {
    var c := fallback[i];
    FallbackGrows(w, cooled, fallback, i, i + 1, rescue, kept0, kept, seen, seeds);
    assert c in fallback[..i + 1];
    SeenGrows(w, nearNet, kept, seen, EntryFor(w, c));
    FallbackStep(w, cooled, fallback[..i + 1], rescue, kept0, kept, seen, seeds, c, amount, sim);
    if Ascending(fallback, ByCycleExecution) {
      FallbackRanks(w, cooled, fallback, i, rescue, kept0, kept, seen, seeds);
    }
  }

  /** The fallback tier: admit only what the probe seeds at an economic size. */
  method AdmitFallback(w: World, cooled: set<Edges>, fallback: seq<Cycle>, ghost rescue: seq<Entry>,
                       ghost nearNet: seq<Scored>, totalCap: nat, kept0: seq<Entry>, seen0: set<Edges>, seeds0: SeedMap)
    returns (kept: seq<Entry>, seen: set<Edges>, seeds: SeedMap)
    requires Room(kept0, seen0) && Admissible(cooled, seeds0, rescue, kept0) && SeedsOk(w, seeds0)
    requires SeenOk(w, nearNet, kept0, seen0)
    requires |kept0| <= totalCap
    ensures FallbackInv(w, cooled, fallback, rescue, kept0, kept, seen, seeds)
    ensures |kept0| <= |kept| <= totalCap && kept[..|kept0|] == kept0
    ensures seeds0.Keys <= seeds.Keys
    ensures |kept| == totalCap || forall i :: 0 <= i < |fallback| && Open(w, cooled, fallback[i]) ==>
      HasEdges(kept, fallback[i].edges) || Spoiled(w, nearNet, fallback[i].edges)
    ensures InOrder(w, cooled, fallback, nearNet, |kept0|, kept)
    ensures Ascending(fallback, ByCycleExecution) ==> InExecutionOrder(kept, |kept0|, |kept|)
  {
    kept, seen, seeds := kept0, seen0, seeds0;
    var i := 0;
    while i < |fallback| && |kept| < totalCap
      invariant 0 <= i <= |fallback| && |kept0| <= |kept| <= totalCap && seeds0.Keys <= seeds.Keys
      invariant FallbackLoop(w, cooled, fallback, i, rescue, nearNet, kept0, kept, seen, seeds)
    {
      var c := fallback[i];
      var taken: Option<(Amount, SimResult)> := None;
      if Uncooled(w, cooled, c.edges) && c.edges !in seen {
        var probe := MinimalRankProbe(ProbeOf(w, c), null, Route(0, 0, c.edges), w.simulate);
        if probe.Best? && probe.sim.profit > 0 && probe.amount >= w.economicFloor(c) {
          taken := Some((probe.amount, probe.sim));
        } else {
          NotOpen(w, cooled, c, probe);
        }
      }
      if taken.Some? {
        FallbackTakes(w, cooled, fallback, i, rescue, nearNet, kept0, kept, seen, seeds, taken.value.0, taken.value.1);
        kept, seen, seeds := kept + [EntryFor(w, c)], seen + {c.edges}, seeds[c.edges := taken.value];
      } else {
        FallbackSkips(w, cooled, fallback, i, rescue, nearNet, kept0, kept, seen, seeds);
      }
      i := i + 1;
    }
    FallbackInOrder(w, cooled, fallback, i, nearNet, rescue, kept0, kept, seen, seeds);
    FallbackGrows(w, cooled, fallback, i, |fallback|, rescue, kept0, kept, seen, seeds);
    assert fallback[..|fallback|] == fallback;
  }

  /** Where an open cycle was left out, everything admitted comes before it in the list. */
  ghost predicate InOrder(w: World, cooled: set<Edges>, fallback: seq<Cycle>, nearNet: seq<Scored>, base: nat,
                          kept: seq<Entry>) {
    forall m, k :: 0 <= m < |fallback| && base <= k < |kept| && Open(w, cooled, fallback[m])
      && !HasEdges(kept, fallback[m].edges) && !Spoiled(w, nearNet, fallback[m].edges)
      ==> kept[k].cycle in fallback[..m]
  }

  lemma FallbackGrows(w: World, cooled: set<Edges>, fallback: seq<Cycle>, i: nat, j: nat, rescue: seq<Entry>,
                      kept0: seq<Entry>, kept: seq<Entry>, seen: set<Edges>, seeds: SeedMap)
    requires i <= j <= |fallback| && FallbackInv(w, cooled, fallback[..i], rescue, kept0, kept, seen, seeds)
    ensures FallbackInv(w, cooled, fallback[..j], rescue, kept0, kept, seen, seeds)
  {
    assert forall c :: c in fallback[..i] ==> c in fallback[..j];
  }

  lemma FallbackRanks(w: World, cooled: set<Edges>, fallback: seq<Cycle>, i: nat, rescue: seq<Entry>,
                      kept0: seq<Entry>, kept: seq<Entry>, seen: set<Edges>, seeds: SeedMap)
    requires i < |fallback| && FallbackInv(w, cooled, fallback[..i], rescue, kept0, kept, seen, seeds)
    requires Ascending(fallback, ByCycleExecution)
    ensures forall k :: |kept0| <= k < |kept| ==> kept[k].cycle.execRank <= fallback[i].execRank
  {
    forall k | |kept0| <= k < |kept|
      ensures kept[k].cycle.execRank <= fallback[i].execRank
    {
      assert IsOpen(w, cooled, fallback[..i], kept[k]);
      var j :| 0 <= j < i && fallback[..i][j] == kept[k].cycle;
      assert AtMost(ByCycleExecution(fallback[j]), ByCycleExecution(fallback[i]));
    }
  }

  lemma FallbackInOrder(w: World, cooled: set<Edges>, fallback: seq<Cycle>, i: nat, nearNet: seq<Scored>,
                        rescue: seq<Entry>, kept0: seq<Entry>, kept: seq<Entry>, seen: set<Edges>, seeds: SeedMap)
    requires i <= |fallback| && FallbackInv(w, cooled, fallback[..i], rescue, kept0, kept, seen, seeds)
    requires SeenOk(w, nearNet, kept, seen)
    requires forall j :: 0 <= j < i && Open(w, cooled, fallback[j]) ==> fallback[j].edges in seen
    ensures InOrder(w, cooled, fallback, nearNet, |kept0|, kept)
  {
    forall m, k | 0 <= m < |fallback| && |kept0| <= k < |kept| && i <= m
      ensures kept[k].cycle in fallback[..m]
    {
      FallbackGrows(w, cooled, fallback, i, m, rescue, kept0, kept, seen, seeds);
      assert IsOpen(w, cooled, fallback[..m], kept[k]);
    }
  }

  /** The entry of an open, eligible flash start of a scanned cycle. */
  ghost predicate FromScan(w: World, cooled: set<Edges>, scanned: seq<Cycle>, e: Entry) {
    && Open(w, cooled, e.cycle) && Eligible(w, e.cycle) && e == EntryFor(w, e.cycle)
    && exists i :: 0 <= i < |scanned| && e.cycle == w.flashStart(scanned[i])
  }

  /** Where a kept cycle comes from: one of the four tiers. */
  ghost predicate FromTier(w: World, cooled: set<Edges>, scanned: seq<Cycle>, partial: Partial, e: Entry) {
    || IsRanked(Live(cooled, partial.profitable), e)
    || IsNear(w, cooled, partial.nearNet, e)
    || e in partial.rescue
    || FromScan(w, cooled, scanned, e)
  }

  /** What admission promises of its result. */
  ghost predicate AdmissionOk(w: World, cooled: set<Edges>, scanned: seq<Cycle>, partial: Partial, maxKeep: nat,
                              kept: seq<Entry>, seeds: SeedMap) {
    var live := Live(cooled, partial.profitable);
    && DistinctEdges(kept) && |kept| <= maxKeep
    && SeedsOk(w, seeds) && Admissible(cooled, seeds, partial.rescue, kept)
    && (forall k :: 0 <= k < |kept| ==> FromTier(w, cooled, scanned, partial, kept[k]))
    && BestFirst(live, kept, maxKeep)
    && (live == [] ==> |kept| <= 6)
    && (live == [] && partial.nearNet == [] ==> |kept| <= Min(4, |partial.rescue|))
  }

  /** Slots for underwater cycles: few while nothing clears gas. */
  function NearNetSlots(maxKeep: nat, hadNet: bool): nat { if hadNet then maxKeep else Max(1, Min(maxKeep, 4)) }

  /** The first `ranked` kept cycles are the ranked tier and those up to `near` the near-net tier, each in order of
      descending value; every uncooled near-net cycle outside the ranked tier had its turn there. */
  ghost predicate NearTier(w: World, cooled: set<Edges>, nearNet: seq<Scored>, live: seq<Scored>, maxKeep: nat,
                           kept: seq<Entry>, ranked: nat, near: nat) {
    && ranked <= near <= |kept| && near <= ranked + NearNetSlots(maxKeep, live != [])
    && AllRanked(live, kept[..ranked]) && InValueOrder(live, 0, kept[..ranked])
    && AllNear(w, cooled, nearNet, ranked, kept[..near]) && InValueOrder(nearNet, ranked, kept[..near])
    && forall s :: s in nearNet && !HasEdges(kept[..ranked], s.Edges()) && Uncooled(w, cooled, s.Edges()) ==>
         HadTurn(w, nearNet, ranked, kept[..near],
                 near == maxKeep || near == ranked + NearNetSlots(maxKeep, live != []), s)
  }

  /** What follows the near-net tier, each part in execution order: up to `rescued` the best rescues, as many as
      allowed; then open starts, from the best starts of the scan, until the cap is reached or none is left. */
  ghost predicate RestTier(w: World, cooled: set<Edges>, scanned: seq<Cycle>, nearNet: seq<Scored>, rescue: seq<Entry>,
                           maxKeep: nat, hadNet: bool, kept: seq<Entry>, near: nat, rescued: nat, fallback: seq<Cycle>) {
    var cap := TotalCap(maxKeep, hadNet, |nearNet|, rescued);
    && near <= rescued <= |kept| && near <= maxKeep
    && Rescued(w, cooled, rescue, nearNet, if near < maxKeep then Min(RescueTake(maxKeep, hadNet, |nearNet|, near), |rescue|) else 0,
               near, kept[..rescued])
    && (forall k :: rescued <= k < |kept| ==> FromScan(w, cooled, scanned, kept[k]))
    && InExecutionOrder(kept, rescued, |kept|)
    && (rescued < maxKeep ==>
          && BestStarts(w, scanned, cap, fallback) && |kept| <= cap
          && InOrder(w, cooled, fallback, nearNet, rescued, kept)
          && (|kept| == cap || forall i :: 0 <= i < |fallback| && Open(w, cooled, fallback[i]) ==>
                HasEdges(kept, fallback[i].edges) || Spoiled(w, nearNet, fallback[i].edges)))
  }

  /** The ranked cycles that no sibling cooled meanwhile. */
  function Live(cooled: set<Edges>, xs: seq<Scored>): (r: seq<Scored>)
    ensures forall s :: s in r <==> s in xs && !Quarantined(cooled, s.Edges())
  {
    if xs == [] then []
    else
      var rest := Live(cooled, xs[..|xs| - 1]);
      if Quarantined(cooled, xs[|xs| - 1].Edges()) then rest else rest + [xs[|xs| - 1]]
  }

  /** `graph_negative_rescue_cap`. */
  function RescueCap(maxKeep: nat): nat {
    Min(if maxKeep / 4 < 32 then 32 else if maxKeep / 4 > 256 then 256 else maxKeep / 4, maxKeep)
  }

  /** The tiers after the ranked one.  `kept0` holds the ranked tier. */
  method FillTiers(w: World, scanned: seq<Cycle>, cooled: set<Edges>, partial: Partial, live: seq<Scored>, maxKeep: nat,
                   kept0: seq<Entry>)
    returns (kept: seq<Entry>, seen: set<Edges>, seeds: SeedMap, ghost near: nat, ghost rescued: nat,
             ghost fallback: seq<Cycle>)
    requires SeedsOk(w, partial.seeds) && ScoredOk(partial.seeds, partial.nearNet)
    requires Room(kept0, EdgeSet(kept0)) && Admissible(cooled, partial.seeds, partial.rescue, kept0)
    requires |kept0| < maxKeep && AllRanked(live, kept0) && InValueOrder(live, 0, kept0) && (live == [] ==> kept0 == [])
    ensures Room(kept, seen) && Admissible(cooled, seeds, partial.rescue, kept) && SeedsOk(w, seeds)
    ensures |kept0| <= |kept| <= maxKeep && kept[..|kept0|] == kept0
    ensures live == [] ==> |kept| <= 6
    ensures live == [] && partial.nearNet == [] ==> |kept| <= Min(4, |partial.rescue|)
    ensures NearTier(w, cooled, partial.nearNet, live, maxKeep, kept, |kept0|, near)
    ensures RestTier(w, cooled, scanned, partial.nearNet, partial.rescue, maxKeep, live != [], kept, near, rescued, fallback)
  {
    kept, seen, seeds := kept0, EdgeSet(kept0), partial.seeds;
    if |partial.nearNet| > 0 {
      kept, seen := AdmitNearNet(w, cooled, seeds, partial.rescue, partial.nearNet, kept, seen, maxKeep,
                                 NearNetSlots(maxKeep, live != []));
    }
    near := |kept|;
    ghost var nearKept := kept;
    kept, seen, seeds, rescued, fallback := FillRest(w, scanned, cooled, partial, maxKeep, live != [], kept, seen);
    assert kept[..near] == nearKept && kept[..|kept0|] == nearKept[..|kept0|];
  }

  /** How many cycles the list may hold after the fallback tier, when the tiers before it left `n`. */
  function TotalCap(maxKeep: nat, hadNet: bool, nearNet: nat, n: nat): nat {
    if hadNet then maxKeep else if nearNet > 0 then Max(Min(maxKeep, 6), Max(n, 1)) else n
  }

  function RescueTake(maxKeep: nat, hadNet: bool, nearNet: nat, n: nat): nat
    requires n <= maxKeep
  {
    if hadNet then Min(RescueCap(maxKeep), maxKeep - n)
    else if nearNet > 0 then 0
    else Min(Min(RescueCap(maxKeep), maxKeep - n), 4)
  }

  /** The rescue and fallback tiers. */
  method FillRest(w: World, scanned: seq<Cycle>, cooled: set<Edges>, partial: Partial, maxKeep: nat, hadNet: bool,
                  kept0: seq<Entry>, seen0: set<Edges>)
    returns (kept: seq<Entry>, seen: set<Edges>, seeds: SeedMap, ghost rescued: nat, ghost fallback: seq<Cycle>)
    requires SeedsOk(w, partial.seeds)
    requires Room(kept0, seen0) && Admissible(cooled, partial.seeds, partial.rescue, kept0)
    requires SeenOk(w, partial.nearNet, kept0, seen0)
    requires |kept0| <= maxKeep && maxKeep > 0
    requires !hadNet ==> |kept0| <= 4 && (partial.nearNet == [] ==> kept0 == [])
    ensures Room(kept, seen) && Admissible(cooled, seeds, partial.rescue, kept) && SeedsOk(w, seeds)
    ensures |kept0| <= |kept| <= maxKeep && kept[..|kept0|] == kept0
    ensures !hadNet ==> |kept| <= 6
    ensures !hadNet && partial.nearNet == [] ==> |kept| <= Min(4, |partial.rescue|)
    ensures RestTier(w, cooled, scanned, partial.nearNet, partial.rescue, maxKeep, hadNet, kept, |kept0|, rescued, fallback)
  {
    kept, seen, seeds, fallback := kept0, seen0, partial.seeds, [];
    if |kept| < maxKeep {
      var take := RescueTake(maxKeep, hadNet, |partial.nearNet|, |kept|);
      kept, seen := AdmitRescue(w, cooled, seeds, partial.rescue, partial.nearNet, take, kept, seen);
    }
    rescued := |kept|;
    ghost var before := kept;
    if |kept| < maxKeep {
      var totalCap := TotalCap(maxKeep, hadNet, |partial.nearNet|, |kept|);
      var starts := SimulatableScoreFallback(w, scanned, totalCap);
      fallback := starts;
      kept, seen, seeds :=
        AdmitFallback(w, cooled, starts, partial.rescue, partial.nearNet, totalCap, kept, seen, seeds);
      FallbackIsFromScan(w, cooled, scanned, totalCap, fallback, rescued, kept);
    }
    assert kept[..|kept0|] == before[..|kept0|];
    RestIsTier(w, cooled, scanned, partial.nearNet, partial.rescue, maxKeep, hadNet, |kept0|, before, kept, fallback);
  }

  lemma RestIsTier(w: World, cooled: set<Edges>, scanned: seq<Cycle>, nearNet: seq<Scored>, rescue: seq<Entry>,
                   maxKeep: nat, hadNet: bool, near: nat, before: seq<Entry>, kept: seq<Entry>, fallback: seq<Cycle>)
    requires near <= |before| <= |kept| && near <= maxKeep && kept[..|before|] == before
    requires Rescued(w, cooled, rescue, nearNet,
                     if near < maxKeep then Min(RescueTake(maxKeep, hadNet, |nearNet|, near), |rescue|) else 0, near, before)
    requires if |before| < maxKeep
             then var cap := TotalCap(maxKeep, hadNet, |nearNet|, |before|);
               && (forall k :: |before| <= k < |kept| ==> FromScan(w, cooled, scanned, kept[k]))
               && InExecutionOrder(kept, |before|, |kept|)
               && BestStarts(w, scanned, cap, fallback) && |kept| <= cap
               && InOrder(w, cooled, fallback, nearNet, |before|, kept)
               && (|kept| == cap || forall i :: 0 <= i < |fallback| && Open(w, cooled, fallback[i]) ==>
                     HasEdges(kept, fallback[i].edges) || Spoiled(w, nearNet, fallback[i].edges))
             else kept == before
    ensures RestTier(w, cooled, scanned, nearNet, rescue, maxKeep, hadNet, kept, near, |before|, fallback)
  {
  }

  lemma FallbackIsFromScan(w: World, cooled: set<Edges>, scanned: seq<Cycle>, cap: nat, fallback: seq<Cycle>,
                           base: nat, kept: seq<Entry>)
    requires BestStarts(w, scanned, cap, fallback)
    requires forall k :: base <= k < |kept| ==> IsOpen(w, cooled, fallback, kept[k])
    ensures forall k :: base <= k < |kept| ==> FromScan(w, cooled, scanned, kept[k])
  {
    forall k | base <= k < |kept|
      ensures FromScan(w, cooled, scanned, kept[k])
    {
      assert IsOpen(w, cooled, fallback, kept[k]);
      assert kept[k].cycle in multiset(fallback);
      var n := Min(|scanned|, 2 * cap);
      assert kept[k].cycle in multiset(EligibleStarts(w, scanned, n));
      EligibleStartsMembers(w, scanned, n, kept[k].cycle);
    }
  }

  function EdgeSet(kept: seq<Entry>): (r: set<Edges>)
    ensures forall e :: e in r <==> HasEdges(kept, e)
  {
    set i | 0 <= i < |kept| :: kept[i].cycle.edges
  }

  /** `rescue.retain(…)`. */
  function Evaluable(w: World, rescue: seq<Entry>): (r: seq<Entry>)
    ensures |r| <= |rescue| && forall e :: e in r <==> e in rescue && w.flashEvaluable(e.cycle)
  {
    if rescue == [] then []
    else
      var rest := Evaluable(w, rescue[..|rescue| - 1]);
      if w.flashEvaluable(rescue[|rescue| - 1].cycle) then rest + [rescue[|rescue| - 1]] else rest
  }

  /** A longer list displaces no one, provided the ranked tier left slots only when it was complete. */
  lemma BestFirstSurvives(ranked: seq<Scored>, first: seq<Entry>, kept: seq<Entry>, n: nat)
    requires BestFirst(ranked, first, n) && |first| <= |kept| <= n && kept[..|first|] == first
    ensures BestFirst(ranked, kept, n)
  {
    if |first| == |kept| {
      assert kept == first;
    } else {
      forall s | s in ranked
        ensures HasEdges(kept, s.Edges())
      {
        assert Undisplaced(ranked, first, n, s);
        var i :| 0 <= i < |first| && first[i].cycle.edges == s.Edges();
        assert kept[..|first|][i] == kept[i];
      }
    }
  }

  /** The ranked tier, as admission calls it: no rescues yet. */
  method AdmitRanked(cooled: set<Edges>, partial: Partial, live: seq<Scored>, maxKeep: nat) returns (first: seq<Entry>)
    requires ScoredOk(partial.seeds, partial.profitable) && live == Live(cooled, partial.profitable)
    ensures |first| <= maxKeep && Room(first, EdgeSet(first)) && (live == [] ==> first == [])
    ensures Admissible(cooled, partial.seeds, partial.rescue, first)
    ensures BestFirst(live, first, maxKeep) && AllRanked(live, first) && InValueOrder(live, 0, first)
  {
    var kept, ranked := SelectProbeSurvivors(live, [], maxKeep, 0);
    assert kept[..ranked] == kept;
    RankedIsAdmissible(cooled, partial, live, kept);
    first := kept;
  }

  lemma RankedIsAdmissible(cooled: set<Edges>, partial: Partial, live: seq<Scored>, kept: seq<Entry>)
    requires ScoredOk(partial.seeds, partial.profitable) && live == Live(cooled, partial.profitable)
    requires AllRanked(live, kept)
    ensures Admissible(cooled, partial.seeds, partial.rescue, kept)
    ensures live == [] ==> kept == []
  {
    assert kept != [] ==> IsRanked(live, kept[0]);
  }

  /** Keeping the seeds of everything seen keeps those of everything kept. */
  lemma RetainKeepsSeeds(w: World, cooled: set<Edges>, seeds: SeedMap, retained: SeedMap, rescue: seq<Entry>,
                         kept: seq<Entry>, seen: set<Edges>)
    requires Room(kept, seen) && Admissible(cooled, seeds, rescue, kept) && SeedsOk(w, seeds)
    requires retained == map e | e in seeds && e in seen :: seeds[e]
    ensures Admissible(cooled, retained, rescue, kept) && SeedsOk(w, retained)
  {
    forall k | 0 <= k < |kept|
      ensures kept[k].cycle.edges in seen
    {
      assert HasEdges(kept, kept[k].cycle.edges);
    }
  }

  /** A full ranked tier leaves nothing to the near-net one. */
  lemma FullTier(w: World, cooled: set<Edges>, nearNet: seq<Scored>, live: seq<Scored>, maxKeep: nat, kept: seq<Entry>)
    requires |kept| == maxKeep && AllRanked(live, kept) && InValueOrder(live, 0, kept)
    ensures NearTier(w, cooled, nearNet, live, maxKeep, kept, maxKeep, maxKeep)
  {
    assert kept[..maxKeep] == kept;
  }

  /** Where the tiers of a kept list end, and what the fallback tier chose from. */
  datatype Tiers = Tiers(ranked: nat, near: nat, rescued: nat, fallback: seq<Cycle>)

  ghost predicate TiersOk(w: World, cooled: set<Edges>, scanned: seq<Cycle>, partial: Partial, maxKeep: nat,
                          kept: seq<Entry>, tiers: Tiers) {
    var live := Live(cooled, partial.profitable);
    && NearTier(w, cooled, partial.nearNet, live, maxKeep, kept, tiers.ranked, tiers.near)
    && RestTier(w, cooled, scanned, partial.nearNet, Evaluable(w, partial.rescue), maxKeep, live != [], kept, tiers.near,
                tiers.rescued, tiers.fallback)
  }

  lemma TiersGiveOrigin(w: World, cooled: set<Edges>, scanned: seq<Cycle>, partial: Partial, maxKeep: nat,
                        kept: seq<Entry>, tiers: Tiers)
    requires TiersOk(w, cooled, scanned, partial, maxKeep, kept, tiers)
    ensures forall k :: 0 <= k < |kept| ==> FromTier(w, cooled, scanned, partial, kept[k])
  {
    var rescue := Evaluable(w, partial.rescue);
    SortKeepsMembers(rescue, ByExecution);
    forall k | 0 <= k < |kept|
      ensures FromTier(w, cooled, scanned, partial, kept[k])
    {
      if k < tiers.ranked {
        assert kept[..tiers.ranked][k] == kept[k];
      } else if k < tiers.near {
        assert kept[..tiers.near][k] == kept[k];
      } else if k < tiers.rescued {
        assert kept[..tiers.rescued][k] == kept[k];
        assert kept[k] in StableSort(rescue, ByExecution);
      }
    }
  }

  lemma FewerRescues(cooled: set<Edges>, seeds: SeedMap, some: seq<Entry>, all: seq<Entry>, kept: seq<Entry>)
    requires Admissible(cooled, seeds, some, kept) && forall e :: e in some ==> e in all
    ensures Admissible(cooled, seeds, all, kept)
  {
  }

  /** A full ranked tier leaves nothing to the tiers after it. */
  lemma FullRest(w: World, cooled: set<Edges>, scanned: seq<Cycle>, nearNet: seq<Scored>, rescue: seq<Entry>,
                 maxKeep: nat, hadNet: bool, kept: seq<Entry>)
    requires |kept| == maxKeep
    ensures RestTier(w, cooled, scanned, nearNet, rescue, maxKeep, hadNet, kept, maxKeep, maxKeep, [])
  {
  }

  /** The four tiers, with the rescues already retained. */
  method AdmitTiers(w: World, scanned: seq<Cycle>, cooled: set<Edges>, p: Partial, live: seq<Scored>, maxKeep: nat)
    returns (kept: seq<Entry>, seen: set<Edges>, seeds: SeedMap, ghost tiers: Tiers)
    requires SeedsOk(w, p.seeds) && ScoredOk(p.seeds, p.profitable) && ScoredOk(p.seeds, p.nearNet)
    requires live == Live(cooled, p.profitable)
    ensures Room(kept, seen) && Admissible(cooled, seeds, p.rescue, kept) && SeedsOk(w, seeds)
    ensures |kept| <= maxKeep && BestFirst(live, kept, maxKeep) && (live == [] ==> |kept| <= 6)
    ensures live == [] && p.nearNet == [] ==> |kept| <= Min(4, |p.rescue|)
    ensures NearTier(w, cooled, p.nearNet, live, maxKeep, kept, tiers.ranked, tiers.near)
    ensures RestTier(w, cooled, scanned, p.nearNet, p.rescue, maxKeep, live != [], kept, tiers.near, tiers.rescued,
                     tiers.fallback)
  {
    var first := AdmitRanked(cooled, p, live, maxKeep);
    kept, seen, seeds := first, EdgeSet(first), p.seeds;
    ghost var near, rescued, fallback: seq<Cycle> := |first|, |first|, [];
    if |first| < maxKeep {
      kept, seen, seeds, near, rescued, fallback := FillTiers(w, scanned, cooled, p, live, maxKeep, first);
    } else {
      FullTier(w, cooled, p.nearNet, live, maxKeep, first);
      FullRest(w, cooled, scanned, p.nearNet, p.rescue, maxKeep, live != [], first);
    }
    tiers := Tiers(|first|, near, rescued, fallback);
    BestFirstSurvives(live, first, kept, maxKeep);
  }

  /** The admission half of `rank_cycles_by_probe_net`, for whatever ranking found. */
  method AdmitSurvivors(w: World, scanned: seq<Cycle>, cooled: set<Edges>, partial: Partial, maxKeep: nat)
    returns (kept: seq<Entry>, seeds: SeedMap, ghost tiers: Tiers)
    requires SeedsOk(w, partial.seeds)
    requires ScoredOk(partial.seeds, partial.profitable) && ScoredOk(partial.seeds, partial.nearNet)
    ensures AdmissionOk(w, cooled, scanned, partial, maxKeep, kept, seeds)
    ensures TiersOk(w, cooled, scanned, partial, maxKeep, kept, tiers)
  {
    var p := partial.(rescue := Evaluable(w, partial.rescue));
    var live := Live(cooled, p.profitable);
    var seen, all;
    kept, seen, all, tiers := AdmitTiers(w, scanned, cooled, p, live, maxKeep);
    seeds := map e | e in all && e in seen :: all[e];
    Concludes(w, cooled, scanned, partial, p, live, maxKeep, kept, seen, all, seeds, tiers);
  }

  lemma Concludes(w: World, cooled: set<Edges>, scanned: seq<Cycle>, partial: Partial, p: Partial, live: seq<Scored>,
                  maxKeep: nat, kept: seq<Entry>, seen: set<Edges>, all: SeedMap, seeds: SeedMap, tiers: Tiers)
    requires p == partial.(rescue := Evaluable(w, partial.rescue)) && live == Live(cooled, p.profitable)
    requires Room(kept, seen) && Admissible(cooled, all, p.rescue, kept) && SeedsOk(w, all)
    requires seeds == map e | e in all && e in seen :: all[e]
    requires |kept| <= maxKeep && BestFirst(live, kept, maxKeep) && (live == [] ==> |kept| <= 6)
    requires live == [] && p.nearNet == [] ==> |kept| <= Min(4, |p.rescue|)
    requires NearTier(w, cooled, p.nearNet, live, maxKeep, kept, tiers.ranked, tiers.near)
    requires RestTier(w, cooled, scanned, p.nearNet, p.rescue, maxKeep, live != [], kept, tiers.near, tiers.rescued,
                      tiers.fallback)
    ensures AdmissionOk(w, cooled, scanned, partial, maxKeep, kept, seeds)
    ensures TiersOk(w, cooled, scanned, partial, maxKeep, kept, tiers)
  {
    RetainKeepsSeeds(w, cooled, all, seeds, p.rescue, kept, seen);
    FewerRescues(cooled, seeds, p.rescue, partial.rescue, kept);
    TiersGiveOrigin(w, cooled, scanned, partial, maxKeep, kept, tiers);
  }

  // ---------------------------------------------------------------- the whole ranking

  /** The routes cooled before the cycle at `i` is ranked: those cooled at the start, and what the cycles ahead cool. */
  ghost function CooledBefore(w: World, cooled: set<Edges>, scanned: seq<Cycle>, i: nat): set<Edges>
    requires i <= |scanned|
  {
    Accumulated((before, c) => CooledBy(w, before, StartFor(w, c)), cooled, scanned, i)
  }

  /** What is there before item `i`, when each item adds to what it finds. */
  ghost function Accumulated(adds: (set<Edges>, Cycle) -> set<Edges>, start: set<Edges>, items: seq<Cycle>, i: nat): set<Edges>
    requires i <= |items|
  {
    if i == 0 then start
    else
      var before := Accumulated(adds, start, items, i - 1);
      before + adds(before, items[i - 1])
  }

  lemma {:induction false} AccumulatedGrows(adds: (set<Edges>, Cycle) -> set<Edges>, start: set<Edges>, items: seq<Cycle>,
                                            i: nat, j: nat)
    requires i <= j <= |items|
    ensures Accumulated(adds, start, items, i) <= Accumulated(adds, start, items, j)
  {
    if i == j {
    } else {
      AccumulatedGrows(adds, start, items, i, j - 1);
    }
  }

  /** The tick cooldowns before the cycle at `i` is ranked. */
  ghost function ArmedBefore(w: World, cooled: set<Edges>, tables: Hydration.Cooldowns, scanned: seq<Cycle>, i: nat):
      Hydration.Cooldowns
    requires i <= |scanned|
  {
    if i == 0 then tables
    else
      ArmedBy(w, CooledBefore(w, cooled, scanned, i - 1), ArmedBefore(w, cooled, tables, scanned, i - 1),
              StartFor(w, scanned[i - 1]))
  }

  /** What each cycle finds cooled when they are ranked one after the other. */
  ghost function CooledTrail(w: World, cooled: set<Edges>, scanned: seq<Cycle>): seq<set<Edges>> {
    seq(|scanned|, i requires 0 <= i < |scanned| => CooledBefore(w, cooled, scanned, i))
  }

  /** Each part is the ranking of its cycle, with the routes of `at` cooled when it started. */
  ghost predicate RankedEach(w: World, at: seq<set<Edges>>, scanned: seq<Cycle>, parts: seq<Partial>) {
    && |parts| == |at| == |scanned|
    && forall i :: 0 <= i < |parts| ==> RankedAs(w, at[i], StartFor(w, scanned[i]), parts[i])
  }

  /** The first parts are the rankings of their cycles, with the routes of `at` cooled when they started. */
  ghost predicate RankedFirst(w: World, at: seq<set<Edges>>, scanned: seq<Cycle>, parts: seq<Partial>) {
    && |parts| <= |at| == |scanned|
    && forall j :: 0 <= j < |parts| ==> RankedAs(w, at[j], StartFor(w, scanned[j]), parts[j])
  }

  lemma RankedNext(w: World, at: seq<set<Edges>>, scanned: seq<Cycle>, parts: seq<Partial>, more: seq<Partial>)
    requires RankedFirst(w, at, scanned, parts) && parts <= more && |more| == |parts| + 1 <= |scanned|
    requires RankedAs(w, at[|parts|], StartFor(w, scanned[|parts|]), more[|parts|])
    ensures RankedFirst(w, at, scanned, more)
  {
  }

  lemma MergedNext(parts: seq<Partial>, out: Partial)
    ensures Merged(parts + [out]) == Merged(parts).Merge(out)
  {
    assert (parts + [out])[..|parts|] == parts;
  }

  /** The ranking half of `rank_cycles_by_probe_net`, one cycle after the other. */
  method RankAll(w: World, scanned: seq<Cycle>, quarantine: RouteQuarantine, misses: Hydration.CooldownTables,
                 cache: RouteSimCache)
    returns (total: Partial, ghost parts: seq<Partial>)
    requires cache.Valid() && Sound(cache.shards, w.simulate)
    modifies quarantine, misses, cache
    ensures cache.Valid() && Sound(cache.shards, w.simulate)
    ensures RankedEach(w, CooledTrail(w, old(quarantine.cooled), scanned), scanned, parts)
    ensures total == Merged(parts) && PartialOk(w, total)
    ensures quarantine.cooled == CooledBefore(w, old(quarantine.cooled), scanned, |scanned|)
    ensures misses.tables == ArmedBefore(w, old(quarantine.cooled), old(misses.tables), scanned, |scanned|)
  {
    total, parts := Partial([], [], [], map[]), [];
    ghost var start, tables := quarantine.cooled, misses.tables;
    ghost var at := CooledTrail(w, start, scanned);
    for i := 0 to |scanned|
      invariant cache.Valid() && Sound(cache.shards, w.simulate)
      invariant |parts| == i && RankedFirst(w, at, scanned, parts)
      invariant total == Merged(parts) && PartialOk(w, total)
      invariant quarantine.cooled == CooledBefore(w, start, scanned, i)
      invariant misses.tables == ArmedBefore(w, start, tables, scanned, i)
    {
      var out := RankOneCycleProbe(w, scanned[i], quarantine, misses, cache);
      RankedNext(w, at, scanned, parts, parts + [out]);
      MergedNext(parts, out);
      MergeOk(w, total, out);
      total, parts := total.Merge(out), parts + [out];
    }
  }

  /** The cycle at `i` clears gas with `net` when these routes are cooled. */
  ghost predicate ClearsGas(w: World, cooled: set<Edges>, scanned: seq<Cycle>, i: nat, net: nat)
    requires i < |scanned|
  {
    exists amount: Amount, sim: SimResult ::
      Seeded(w, cooled, StartFor(w, scanned[i]), amount, sim) && 0 < net == w.netMatic(StartFor(w, scanned[i]), amount, sim)
  }

  /** `e` is a scanned cycle that cleared gas with at least `net` when it was ranked. */
  ghost predicate NetsAtLeast(w: World, at: seq<set<Edges>>, scanned: seq<Cycle>, e: Entry, net: nat)
    requires |at| == |scanned|
  {
    exists j: nat, m: nat :: j < |scanned| && e == EntryFor(w, StartFor(w, scanned[j])) && net <= m
                             && ClearsGas(w, at[j], scanned, j, m)
  }

  /** End to end: every scanned cycle that clears gas and whose route is not cooled at the end is kept, unless all
      slots went to scanned cycles that each net at least as much. */
  ghost predicate KeepsBest(w: World, at: seq<set<Edges>>, final: set<Edges>, scanned: seq<Cycle>, maxKeep: nat,
                            kept: seq<Entry>)
    requires |at| == |scanned|
  {
    forall i: nat, net: nat :: i < |scanned| && ClearsGas(w, final, scanned, i, net) ==>
      || HasEdges(kept, StartFor(w, scanned[i]).edges)
      || (|kept| == maxKeep && forall k :: 0 <= k < maxKeep ==> NetsAtLeast(w, at, scanned, kept[k], net))
  }

  /** Every kept cycle is the start of a scanned cycle, ranked or open. */
  ghost predicate FromScanned(w: World, cooled: set<Edges>, scanned: seq<Cycle>, e: Entry) {
    (exists i :: 0 <= i < |scanned| && e == EntryFor(w, StartFor(w, scanned[i]))) || FromScan(w, cooled, scanned, e)
  }

  /** `rank_cycles_by_probe_net`: the cycles kept for Brent and the probe seeds handed on with them. */
  method RankCyclesByProbeNet(w: World, cycles: seq<Cycle>, maxKeep: nat, quarantine: RouteQuarantine,
                              misses: Hydration.CooldownTables, cache: RouteSimCache)
    returns (kept: seq<Entry>, seeds: SeedMap, ghost parts: seq<Partial>, ghost tiers: Tiers)
    requires cache.Valid() && Sound(cache.shards, w.simulate)
    modifies quarantine, misses, cache
    ensures cache.Valid() && Sound(cache.shards, w.simulate)
    ensures var scanned := cycles[..Min(2 * maxKeep, |cycles|)];
      var at := CooledTrail(w, old(quarantine.cooled), scanned);
      && RankedEach(w, at, scanned, parts) && PartialOk(w, Merged(parts))
      && quarantine.cooled == CooledBefore(w, old(quarantine.cooled), scanned, |scanned|)
      && misses.tables == ArmedBefore(w, old(quarantine.cooled), old(misses.tables), scanned, |scanned|)
      && AdmissionOk(w, quarantine.cooled, scanned, Merged(parts), maxKeep, kept, seeds)
      && TiersOk(w, quarantine.cooled, scanned, Merged(parts), maxKeep, kept, tiers)
      && KeepsBest(w, at, quarantine.cooled, scanned, maxKeep, kept)
      && (forall k :: 0 <= k < |kept| ==> FromScanned(w, quarantine.cooled, scanned, kept[k]))
  {
    kept, seeds, parts, tiers := [], map[], [], Tiers(0, 0, 0, []);
    if cycles == [] || maxKeep == 0 {
      return;
    }
    var scanned := cycles[..Min(2 * maxKeep, |cycles|)];
    ghost var at := CooledTrail(w, quarantine.cooled, scanned);
    TrailGrows(w, quarantine.cooled, scanned);
    var total;
    total, parts := RankAll(w, scanned, quarantine, misses, cache);
    kept, seeds, tiers := AdmitSurvivors(w, scanned, quarantine.cooled, total, maxKeep);
    ProfitableIsUndisplaced(w, scanned, at, quarantine.cooled, parts, maxKeep, kept, seeds);
    KeptAreScanned(w, scanned, at, quarantine.cooled, parts, maxKeep, kept, seeds);
  }

  ghost function Merged(parts: seq<Partial>): Partial {
    if parts == [] then Partial([], [], [], map[]) else Merged(parts[..|parts| - 1]).Merge(parts[|parts| - 1])
  }

  /** Merging loses no ranked cycle and invents none. */
  lemma {:induction false} MergedHolds(parts: seq<Partial>, s: Scored)
    ensures s in Merged(parts).profitable <==> exists i :: 0 <= i < |parts| && s in parts[i].profitable
    ensures s in Merged(parts).nearNet <==> exists i :: 0 <= i < |parts| && s in parts[i].nearNet
  {
    if parts == [] {
    } else {
      var n := |parts| - 1;
      MergedHolds(parts[..n], s);
      assert forall i :: 0 <= i < n ==> parts[..n][i] == parts[i];
    }
  }

  /** What a kept list means to the caller: every kept cycle is uncooled and carries a seed with a profit. */
  lemma KeptHasSeed(w: World, cooled: set<Edges>, scanned: seq<Cycle>, partial: Partial, maxKeep: nat, kept: seq<Entry>,
                    seeds: SeedMap, k: nat)
    requires PartialOk(w, partial) && AdmissionOk(w, cooled, scanned, partial, maxKeep, kept, seeds) && k < |kept|
    ensures kept[k].cycle.edges in seeds && seeds[kept[k].cycle.edges].1.profit > 0
    ensures !Quarantined(cooled, kept[k].cycle.edges)
  {
    SeedHasProfit(w, kept[k].cycle.edges, seeds[kept[k].cycle.edges]);
  }

  /** The probe of a cycle depends on its edges alone: its start token is where they start. */
  ghost predicate StartIsImplied(w: World) {
    forall c: Cycle, d: Cycle, r :: c.edges == d.edges && IsResult(ProbeOf(w, c), r) ==> IsResult(ProbeOf(w, d), r)
  }

  /** Then the seed handed on with a kept cycle is the probe's answer for that very cycle. */
  lemma SeedIsOwn(w: World, cooled: set<Edges>, scanned: seq<Cycle>, partial: Partial, maxKeep: nat, kept: seq<Entry>,
                  seeds: SeedMap, k: nat)
    requires StartIsImplied(w)
    requires PartialOk(w, partial) && AdmissionOk(w, cooled, scanned, partial, maxKeep, kept, seeds) && k < |kept|
    ensures var seed := seeds[kept[k].cycle.edges];
      IsResult(ProbeOf(w, kept[k].cycle), Best(seed.0, seed.1))
  {
    var e := kept[k].cycle.edges;
    assert SeedFor(w, e, seeds[e]);
    var c: Cycle :| c.edges == e && IsResult(ProbeOf(w, c), Best(seeds[e].0, seeds[e].1));
  }

  /** One after the other, nothing a cycle found cooled is warm at the end. */
  lemma TrailGrows(w: World, cooled: set<Edges>, scanned: seq<Cycle>)
    ensures var at := CooledTrail(w, cooled, scanned);
      forall i :: 0 <= i < |at| ==> at[i] <= CooledBefore(w, cooled, scanned, |scanned|)
  {
    forall i | 0 <= i < |scanned|
      ensures CooledBefore(w, cooled, scanned, i) <= CooledBefore(w, cooled, scanned, |scanned|)
    {
      AccumulatedGrows((before, c) => CooledBy(w, before, StartFor(w, c)), cooled, scanned, i, |scanned|);
    }
  }

  lemma FewerCooled(some: set<Edges>, all: set<Edges>, e: Edges)
    requires some <= all && !Quarantined(all, e)
    ensures !Quarantined(some, e)
  {
  }

  /** A ranked or near-net entry of a part is its cycle's, and a ranked one cleared gas. */
  lemma PartIsOfCycle(w: World, cooled: set<Edges>, scanned: seq<Cycle>, i: nat, part: Partial, s: Scored)
    requires i < |scanned| && RankedAs(w, cooled, StartFor(w, scanned[i]), part)
    requires s in part.profitable || s in part.nearNet
    ensures s.entry == EntryFor(w, StartFor(w, scanned[i]))
    ensures s in part.profitable ==> ClearsGas(w, cooled, scanned, i, s.value)
  {
    var c := StartFor(w, scanned[i]);
    var amount: Amount, sim: SimResult :| Seeded(w, cooled, c, amount, sim);
  }

  lemma ClearedIsRanked(w: World, cooled: set<Edges>, final: set<Edges>, scanned: seq<Cycle>, i: nat, part: Partial, net: nat)
    requires i < |scanned| && RankedAs(w, cooled, StartFor(w, scanned[i]), part)
    requires cooled <= final && ClearsGas(w, final, scanned, i, net)
    ensures Scored(net, EntryFor(w, StartFor(w, scanned[i]))) in part.profitable
    ensures !Quarantined(final, StartFor(w, scanned[i]).edges)
  {
    var c := StartFor(w, scanned[i]);
    var amount: Amount, sim: SimResult :| Seeded(w, final, c, amount, sim) && 0 < net == w.netMatic(c, amount, sim);
    FewerCooled(cooled, final, c.edges);
    assert Seeded(w, cooled, c, amount, sim);
  }

  /** The best scanned cycles are kept, in whatever order or interleaving they were ranked: it is enough that what a
      cycle found cooled when it started is still cooled at the end. */
  lemma ProfitableIsUndisplaced(w: World, scanned: seq<Cycle>, at: seq<set<Edges>>, final: set<Edges>, parts: seq<Partial>,
                                maxKeep: nat, kept: seq<Entry>, seeds: SeedMap)
    requires RankedEach(w, at, scanned, parts) && forall i :: 0 <= i < |at| ==> at[i] <= final
    requires AdmissionOk(w, final, scanned, Merged(parts), maxKeep, kept, seeds)
    ensures KeepsBest(w, at, final, scanned, maxKeep, kept)
  {
    var live := Live(final, Merged(parts).profitable);
    forall i: nat, net: nat | i < |scanned| && ClearsGas(w, final, scanned, i, net)
      ensures HasEdges(kept, StartFor(w, scanned[i]).edges)
        || (|kept| == maxKeep && forall k :: 0 <= k < maxKeep ==> NetsAtLeast(w, at, scanned, kept[k], net))
    {
      var s := Scored(net, EntryFor(w, StartFor(w, scanned[i])));
      ClearedIsRanked(w, at[i], final, scanned, i, parts[i], net);
      MergedHolds(parts, s);
      assert Undisplaced(live, kept, maxKeep, s);
      if !HasEdges(kept, s.Edges()) {
        forall k | 0 <= k < maxKeep
          ensures NetsAtLeast(w, at, scanned, kept[k], net)
        {
          var t :| t in live && t.entry == kept[k] && t.value >= s.value;
          RankedNets(w, scanned, at, parts, t, net);
        }
      }
    }
  }

  lemma RankedNets(w: World, scanned: seq<Cycle>, at: seq<set<Edges>>, parts: seq<Partial>, t: Scored, net: nat)
    requires RankedEach(w, at, scanned, parts) && t in Merged(parts).profitable && net <= t.value
    ensures NetsAtLeast(w, at, scanned, t.entry, net)
  {
    MergedHolds(parts, t);
    var j: nat :| j < |parts| && t in parts[j].profitable;
    PartIsOfCycle(w, at[j], scanned, j, parts[j], t);
  }

  lemma RankedIsScanned(w: World, scanned: seq<Cycle>, at: seq<set<Edges>>, parts: seq<Partial>, t: Scored)
    requires RankedEach(w, at, scanned, parts)
    requires t in Merged(parts).profitable || t in Merged(parts).nearNet
    ensures exists i :: 0 <= i < |scanned| && t.entry == EntryFor(w, StartFor(w, scanned[i]))
  {
    MergedHolds(parts, t);
    var j: nat :| j < |parts| && (t in parts[j].profitable || t in parts[j].nearNet);
    PartIsOfCycle(w, at[j], scanned, j, parts[j], t);
  }

  /** Nothing is kept that was not scanned, likewise for any interleaving. */
  lemma KeptAreScanned(w: World, scanned: seq<Cycle>, at: seq<set<Edges>>, final: set<Edges>, parts: seq<Partial>,
                       maxKeep: nat, kept: seq<Entry>, seeds: SeedMap)
    requires RankedEach(w, at, scanned, parts) && PartialOk(w, Merged(parts))
    requires AdmissionOk(w, final, scanned, Merged(parts), maxKeep, kept, seeds)
    ensures forall k :: 0 <= k < |kept| ==> FromScanned(w, final, scanned, kept[k])
  {
    forall k | 0 <= k < |kept|
      ensures FromScanned(w, final, scanned, kept[k])
    {
      assert FromTier(w, final, scanned, Merged(parts), kept[k]);
      if IsRanked(Live(final, Merged(parts).profitable), kept[k]) {
        var t :| t in Live(final, Merged(parts).profitable) && t.entry == kept[k];
        RankedIsScanned(w, scanned, at, parts, t);
      } else if IsNear(w, final, Merged(parts).nearNet, kept[k]) {
        var t :| t in Merged(parts).nearNet && t.entry == kept[k];
        RankedIsScanned(w, scanned, at, parts, t);
      }
    }
  }

  // ---------------------------------------------------------------- what the tiers and gates come to

  /** While something clears gas, a near-miss is left out only for want of slots: it is kept, or spoiled by one that
      cannot be financed, or the list is full and everything after the ranked tier covers at least as much. */
  lemma NearNetFills(w: World, cooled: set<Edges>, scanned: seq<Cycle>, partial: Partial, maxKeep: nat, kept: seq<Entry>,
                     tiers: Tiers, s: Scored)
    requires TiersOk(w, cooled, scanned, partial, maxKeep, kept, tiers) && |kept| <= maxKeep
    requires Live(cooled, partial.profitable) != []
    requires s in partial.nearNet && !Quarantined(cooled, s.Edges()) && !w.tokenCooled(s.Edges())
    ensures || HasEdges(kept, s.Edges())
            || Spoiled(w, partial.nearNet, s.Edges())
            || (|kept| == maxKeep && forall k :: tiers.ranked <= k < maxKeep ==>
                  exists t :: t in partial.nearNet && t.entry == kept[k] && t.value >= s.value)
  {
    NearNetTurn(w, cooled, scanned, partial, maxKeep, kept, tiers, s);
  }

  /** While nothing does, at most four near-misses are kept, and one is left out only for four that cover at least as
      much. */
  lemma FourNearMisses(w: World, cooled: set<Edges>, scanned: seq<Cycle>, partial: Partial, maxKeep: nat, kept: seq<Entry>,
                       tiers: Tiers)
    requires TiersOk(w, cooled, scanned, partial, maxKeep, kept, tiers) && |kept| <= maxKeep
    requires Live(cooled, partial.profitable) == []
    ensures tiers.ranked == 0 && tiers.near <= 4
    ensures forall s :: s in partial.nearNet && !Quarantined(cooled, s.Edges()) && !w.tokenCooled(s.Edges()) ==>
      || HasEdges(kept, s.Edges())
      || Spoiled(w, partial.nearNet, s.Edges())
      || ((tiers.near == 4 || tiers.near == maxKeep) && forall k :: 0 <= k < tiers.near ==>
            exists t :: t in partial.nearNet && t.entry == kept[k] && t.value >= s.value)
  {
    RankedIsNone(kept[..tiers.ranked]);
    forall s | s in partial.nearNet && !Quarantined(cooled, s.Edges()) && !w.tokenCooled(s.Edges())
      ensures || HasEdges(kept, s.Edges())
              || Spoiled(w, partial.nearNet, s.Edges())
              || ((tiers.near == 4 || tiers.near == maxKeep) && forall k :: 0 <= k < tiers.near ==>
                    exists t :: t in partial.nearNet && t.entry == kept[k] && t.value >= s.value)
    {
      NearNetTurn(w, cooled, scanned, partial, maxKeep, kept, tiers, s);
    }
  }

  lemma RankedIsNone(kept: seq<Entry>)
    requires AllRanked([], kept)
    ensures kept == []
  {
    assert kept != [] ==> IsRanked([], kept[0]);
  }

  lemma NearNetTurn(w: World, cooled: set<Edges>, scanned: seq<Cycle>, partial: Partial, maxKeep: nat, kept: seq<Entry>,
                    tiers: Tiers, s: Scored)
    requires TiersOk(w, cooled, scanned, partial, maxKeep, kept, tiers) && |kept| <= maxKeep
    requires s in partial.nearNet && Uncooled(w, cooled, s.Edges())
    ensures var slots := NearNetSlots(maxKeep, Live(cooled, partial.profitable) != []);
      || HasEdges(kept, s.Edges())
      || Spoiled(w, partial.nearNet, s.Edges())
      || ((tiers.near == maxKeep || tiers.near == tiers.ranked + slots)
          && forall k :: tiers.ranked <= k < tiers.near ==>
               exists t :: t in partial.nearNet && t.entry == kept[k] && t.value >= s.value)
  {
    var head := kept[..tiers.ranked];
    if HasEdges(head, s.Edges()) {
      var i :| 0 <= i < |head| && head[i].cycle.edges == s.Edges();
      assert kept[i].cycle.edges == s.Edges();
    } else {
      var tier := kept[..tiers.near];
      assert forall k :: 0 <= k < |tier| ==> tier[k] == kept[k];
      if t :| t in partial.nearNet && t.Edges() == s.Edges() && t.value >= s.value
              && (t.entry in tier || !w.flashEvaluable(t.entry.cycle)) {
        if t.entry in tier {
          var i :| 0 <= i < |tier| && tier[i] == t.entry;
          assert kept[i].cycle.edges == s.Edges();
        }
      }
    }
  }

  /** The fallback tier fills the list while something clears gas, fills it up to six while only near-misses are
      there, and is empty otherwise: below that count every open start among the best is kept or spoiled. */
  lemma FallbackFills(w: World, cooled: set<Edges>, scanned: seq<Cycle>, partial: Partial, maxKeep: nat, kept: seq<Entry>,
                      tiers: Tiers)
    requires TiersOk(w, cooled, scanned, partial, maxKeep, kept, tiers) && |kept| <= maxKeep && 0 < maxKeep
    ensures var hadNet := Live(cooled, partial.profitable) != [];
      var limit: nat := if hadNet || maxKeep <= 6 then maxKeep else 6;
      && (hadNet || partial.nearNet != [] ==>
            |kept| >= limit || (BestStarts(w, scanned, limit, tiers.fallback)
                                && forall c :: c in tiers.fallback && Open(w, cooled, c) ==>
                                     HasEdges(kept, c.edges) || Spoiled(w, partial.nearNet, c.edges)))
      && (!hadNet && partial.nearNet == [] ==> |kept| == tiers.rescued || tiers.rescued == maxKeep)
  {
    if Live(cooled, partial.profitable) == [] {
      FourNearMisses(w, cooled, scanned, partial, maxKeep, kept, tiers);
      if partial.nearNet != [] {
        RescuedCount(w, cooled, scanned, partial, maxKeep, kept, tiers);
      }
    }
  }

  lemma RescuedCount(w: World, cooled: set<Edges>, scanned: seq<Cycle>, partial: Partial, maxKeep: nat, kept: seq<Entry>,
                     tiers: Tiers)
    requires TiersOk(w, cooled, scanned, partial, maxKeep, kept, tiers) && |kept| <= maxKeep
    requires Live(cooled, partial.profitable) == [] && partial.nearNet != []
    ensures tiers.rescued == tiers.near
  {
    var rescue := Evaluable(w, partial.rescue);
    FirstRescued(w, cooled, rescue, partial.nearNet, 0, tiers.near, kept[..tiers.rescued]);
  }

  lemma FirstRescued(w: World, cooled: set<Edges>, rescue: seq<Entry>, nearNet: seq<Scored>, i: nat, base: nat, kept: seq<Entry>)
    requires Rescued(w, cooled, rescue, nearNet, i, base, kept)
    ensures |kept| <= base || ExecutedFirst(StableSort(rescue, ByExecution), i, kept[base])
  {
  }

  /** How many rescues are considered: a quarter of the list, but at least 32 and at most 256, as far as there is
      room; none beside near-misses, and at most four, while nothing clears gas. */
  lemma RescueAllowance(maxKeep: nat, nearNet: nat, n: nat)
    requires n <= maxKeep
    ensures var take := RescueTake(maxKeep, true, nearNet, n);
      && take <= maxKeep - n && take <= 256
      && (take == maxKeep - n || take == 256 || (32 <= take && 4 * take <= maxKeep < 4 * take + 4) || (take == 32 && maxKeep < 128))
    ensures nearNet > 0 ==> RescueTake(maxKeep, false, nearNet, n) == 0
    ensures RescueTake(maxKeep, false, 0, n) == if maxKeep - n < 4 then maxKeep - n else 4
  {
  }

  /** The conditions under which a cycle gets a seed, one by one: the executor budget, no cooled route or token, a
      known price and decimals, a feasible and listed flash loan, live states, a probe that is financed and not too
      deep. */
  lemma SeededExactly(w: World, cooled: set<Edges>, c: Cycle, amount: Amount, sim: SimResult)
    ensures Seeded(w, cooled, c, amount, sim) <==>
      && w.fitsExecutor(c.edges)
      && (forall k :: 0 <= k < |c.edges| ==> c.edges[k..] + c.edges[..k] !in cooled)
      && !w.tokenCooled(c.edges) && w.reliableRate(c.startToken) && w.knownDecimals(c)
      && w.flashFeasible(c) && w.flashContext(c) && !w.deadState(c.edges)
      && IsResult(ProbeOf(w, c), Best(amount, sim))
      && w.flashSource(c, amount) == Sourced && !w.tooDeep(c, amount, sim)
  {
    if forall k :: 0 <= k < |c.edges| ==> c.edges[k..] + c.edges[..k] !in cooled {
      forall k | 0 <= k < |c.edges|
        ensures Rotated(c.edges, k) !in cooled
      {
        assert Rotated(c.edges, k) == c.edges[k..] + c.edges[..k];
      }
    }
    if !Quarantined(cooled, c.edges) {
      forall k | 0 <= k < |c.edges|
        ensures c.edges[k..] + c.edges[..k] !in cooled
      {
        assert Rotated(c.edges, k) == c.edges[k..] + c.edges[..k];
      }
    }
  }

  /** What a successful probe of a cycle is: a size of its own ladder, no dust, simulated on its edges at their
      revision, with a profit its own sanity check lets pass, and the largest such. */
  lemma ProbeIsOwn(w: World, c: Cycle, amount: Amount, sim: SimResult, a: Amount, other: SimResult)
    requires IsResult(ProbeOf(w, c), Best(amount, sim))
    ensures amount in w.ladder(c) && (amount >= w.economicFloor(c) || amount >= w.spotProbe(c))
    ensures w.simulate(w.revision(c.edges), c.edges, amount) == Some(sim)
    ensures sim.profit > 0 && w.sanity(c, amount, sim.profit) == None
    ensures a in w.ladder(c) && (a >= w.economicFloor(c) || a >= w.spotProbe(c))
            && w.simulate(w.revision(c.edges), c.edges, a) == Some(other) && w.sanity(c, a, other.profit) == None ==>
      other.profit <= sim.profit
  {
    var p := ProbeOf(w, c);
    SuccessHasProfit(p, Best(amount, sim));
    if a in w.ladder(c) && p.Considered(a) && p.simulate(a) == Some(other) && p.sanity(a, other.profit) == None && other.profit > 0 {
      var j: nat :| j < |p.ladder| && p.ladder[j] == a;
      assert p.Good(j) && p.ProfitAt(j) == other.profit;
    }
  }

  /** What the ranked and the near-net entries of a part are. */
  lemma RankedExactly(w: World, cooled: set<Edges>, c: Cycle, part: Partial, s: Scored)
    requires RankedAs(w, cooled, c, part)
    ensures s in part.profitable <==> exists amount: Amount, sim: SimResult ::
      Seeded(w, cooled, c, amount, sim)
      && w.netMatic(c, amount, sim) > 0 && s == Scored(w.netMatic(c, amount, sim), EntryFor(w, c))
    ensures s in part.nearNet <==> exists amount: Amount, sim: SimResult ::
      Seeded(w, cooled, c, amount, sim)
      && w.netMatic(c, amount, sim) == 0 && amount >= w.economicFloor(c) && w.coverMatic(c, amount, sim) > 0
      && s == Scored(w.coverMatic(c, amount, sim), EntryFor(w, c))
  {
  }

  /** Which flash starts the fallback tier may take: priced, with known decimals, financed, not cooled, and with a
      profitable probe of an economic size. */
  lemma OpenExactly(w: World, cooled: set<Edges>, c: Cycle)
    ensures Open(w, cooled, c) && Eligible(w, c) <==>
      && !Quarantined(cooled, c.edges) && !w.tokenCooled(c.edges)
      && w.knownDecimals(c) && w.reliableRate(c.startToken) && w.flashEvaluable(c)
      && exists amount: Amount, sim: SimResult :: IsResult(ProbeOf(w, c), Best(amount, sim)) && amount >= w.economicFloor(c)
    ensures Eligible(w, c) <==>
      && w.knownDecimals(c) && w.reliableRate(c.startToken) && w.flashEvaluable(c)
      && exists amount: Amount, sim: SimResult :: IsResult(ProbeOf(w, c), Best(amount, sim))
    ensures Open(w, cooled, c) <==>
      && !Quarantined(cooled, c.edges) && !w.tokenCooled(c.edges)
      && exists amount: Amount, sim: SimResult :: IsResult(ProbeOf(w, c), Best(amount, sim)) && amount >= w.economicFloor(c)
  {
    if r :| IsResult(ProbeOf(w, c), r) && r.Best? {
      assert IsResult(ProbeOf(w, c), Best(r.amount, r.sim));
    }
    if r :| IsResult(ProbeOf(w, c), r) && r.Best? && r.amount >= w.economicFloor(c) {
      assert IsResult(ProbeOf(w, c), Best(r.amount, r.sim));
    }
  }

  /** Every cycle of the last tiers is fit to be tried: no token on it is cooled and its flash loan can be had; one from
      the fallback tier carries its own fingerprint and has a profitable probe of an economic size. */
  lemma KeptIsFit(w: World, cooled: set<Edges>, scanned: seq<Cycle>, partial: Partial, maxKeep: nat, kept: seq<Entry>,
                  tiers: Tiers, k: nat)
    requires TiersOk(w, cooled, scanned, partial, maxKeep, kept, tiers) && k < |kept|
    ensures tiers.ranked <= k < tiers.near || tiers.rescued <= k ==>
      !w.tokenCooled(kept[k].cycle.edges) && w.flashEvaluable(kept[k].cycle)
    ensures tiers.rescued <= k ==>
      && kept[k].fp == w.fingerprint(kept[k].cycle.edges)
      && exists amount: Amount, sim: SimResult ::
           IsResult(ProbeOf(w, kept[k].cycle), Best(amount, sim)) && amount >= w.economicFloor(kept[k].cycle)
  {
    if tiers.ranked <= k < tiers.near {
      assert kept[..tiers.near][k] == kept[k];
      assert IsNear(w, cooled, partial.nearNet, kept[..tiers.near][k]);
    }
    if tiers.rescued <= k {
      assert FromScan(w, cooled, scanned, kept[k]);
      OpenExactly(w, cooled, kept[k].cycle);
    }
  }

  /** Whatever is kept goes on under the fingerprint of its own edges. */
  lemma KeptHasOwnFingerprint(w: World, cooled: set<Edges>, scanned: seq<Cycle>, e: Entry)
    requires FromScanned(w, cooled, scanned, e)
    ensures e.fp == w.fingerprint(e.cycle.edges)
  {
  }

  /** A cycle that ranks is not cooled by its own ranking; one that gets no rank is cooled exactly when it would get
      none next time either: no size walks or profits, its start is proven dry, or its edge is below the economic
      floor or covers nothing. */
  lemma CoolingIsWarranted(w: World, cooled: set<Edges>, c: Cycle, part: Partial, r: ProbeResult)
    requires RankedAs(w, cooled, c, part) && PassesGates(w, cooled, c) && IsResult(ProbeOf(w, c), r)
    ensures part.profitable != [] || part.nearNet != [] ==> CooledBy(w, cooled, c) == {}
    ensures r == Rejected(ZeroProfit) ==> CooledBy(w, cooled, c) == Rotations(c.edges)
    ensures r == Rejected(NoSimulation) ==>
      CooledBy(w, cooled, c) == if w.walkFailures(c) == [] then {} else Rotations(c.edges)
    ensures r.Rejected? && r.why.SanityReject? ==> CooledBy(w, cooled, c) == {}
    ensures r.Best? && w.flashSource(c, r.amount) == Unsourced(true) ==> CooledBy(w, cooled, c) == Rotations(c.edges)
    ensures r.Best? && w.flashSource(c, r.amount) == Unsourced(false) ==> CooledBy(w, cooled, c) == {}
    ensures r.Best? && w.flashSource(c, r.amount) == Sourced && w.tooDeep(c, r.amount, r.sim) ==> CooledBy(w, cooled, c) == {}
    ensures r.Best? && w.flashSource(c, r.amount) == Sourced && !w.tooDeep(c, r.amount, r.sim) ==>
      CooledBy(w, cooled, c) == if part.profitable == [] && part.nearNet == [] then Rotations(c.edges) else {}
    ensures forall tables: Hydration.Cooldowns ::
      ArmedBy(w, cooled, tables, c) == if r == Rejected(NoSimulation) && ClTickless in w.walkFailures(c)
                                          && OtherWalkFailure !in w.walkFailures(c)
                                       then Hydration.ArmCycle(tables, w.arena, w.metas, w.hops(c.edges), w.clock(c)) else tables
  {
    CooledByResult(w, cooled, c, r);
    forall tables: Hydration.Cooldowns
      ensures ArmedBy(w, cooled, tables, c) == if MissesTicks(w, c, r)
              then Hydration.ArmCycle(tables, w.arena, w.metas, w.hops(c.edges), w.clock(c)) else tables
    {
      ArmedByResult(w, cooled, tables, c, r);
    }
    if r.Best? && Seeded(w, cooled, c, r.amount, r.sim) {
    } else {
      forall amount: Amount, sim: SimResult
        ensures !Seeded(w, cooled, c, amount, sim)
      {
        if Seeded(w, cooled, c, amount, sim) {
          ResultUnique(ProbeOf(w, c), r, Best(amount, sim));
        }
      }
    }
  }

  /** Each part keeps the promises of a ranking, whatever the cooldowns it started from; so the merged parts do,
      and admission may be called with them. */
  lemma {:induction false} MergedPartsOk(w: World, scanned: seq<Cycle>, at: seq<set<Edges>>, parts: seq<Partial>)
    requires RankedEach(w, at, scanned, parts)
    ensures PartialOk(w, Merged(parts))
  {
    if parts == [] {
    } else {
      var n := |parts| - 1;
      MergedPartsOk(w, scanned[..n], at[..n], parts[..n]);
      PartIsOk(w, at[n], StartFor(w, scanned[n]), parts[n]);
      MergeOk(w, Merged(parts[..n]), parts[n]);
    }
  }

  lemma PartIsOk(w: World, cooled: set<Edges>, c: Cycle, part: Partial)
    requires RankedAs(w, cooled, c, part)
    ensures PartialOk(w, part)
  {
    if amount: Amount, sim: SimResult :| Seeded(w, cooled, c, amount, sim) {
      RankedSome(w, cooled, c, amount, sim, part);
    }
  }

  /** `rank_cycles_by_probe_net` after a parallel ranking: `at` and `final` are what an interleaving of the workers
      gives, and the promises are those of the sequential one. */
  method AdmitAfterParallelRank(w: World, scanned: seq<Cycle>, ghost at: seq<set<Edges>>, final: set<Edges>,
                                ghost parts: seq<Partial>, total: Partial, maxKeep: nat)
    returns (kept: seq<Entry>, seeds: SeedMap, ghost tiers: Tiers)
    requires RankedEach(w, at, scanned, parts) && total == Merged(parts)
    requires forall i :: 0 <= i < |at| ==> at[i] <= final
    ensures AdmissionOk(w, final, scanned, total, maxKeep, kept, seeds)
    ensures TiersOk(w, final, scanned, total, maxKeep, kept, tiers)
    ensures KeepsBest(w, at, final, scanned, maxKeep, kept)
    ensures forall k :: 0 <= k < |kept| ==> FromScanned(w, final, scanned, kept[k])
  {
    MergedPartsOk(w, scanned, at, parts);
    kept, seeds, tiers := AdmitSurvivors(w, scanned, final, total, maxKeep);
    ProfitableIsUndisplaced(w, scanned, at, final, parts, maxKeep, kept, seeds);
    KeptAreScanned(w, scanned, at, final, parts, maxKeep, kept, seeds);
  }
}
