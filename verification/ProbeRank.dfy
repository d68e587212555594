/** The cached rank probe of the HF evaluator (src/orchestrator/hf_eval.rs) and the route
    simulation cache behind it (src/pipeline/route_sim_cache.rs).

    The route simulator and the sanity check are arbitrary functions. */
module ProbeRank {

  import opened Prelude
  import opened Routes

  type Amount = nat

  datatype SimResult = SimResult(profit: nat, amountOut: nat, gas: nat)

  datatype SanityReason =
    | InsaneProfitRatio
    | InsaneProfitMatic
    | AmountBelowEconomicFloor
    | UnsupportedTokenDecimals
    | OptimizerPinnedAtFloor

  datatype Reject = NoSimulation | ZeroProfit | SanityReject(reason: SanityReason)

  datatype ProbeResult = Best(amount: Amount, sim: SimResult) | Rejected(why: Reject)

  // ---------------------------------------------------------------- the route simulation cache

  const SHARDS: nat := 16
  const SHARD_CAPACITY: nat := 1024

  datatype RouteKey = RouteKey(revision: nat, edges: Edges, amount: Amount)

  type Shard = map<RouteKey, SimResult>

  /** What the simulator yields for a route at a state revision. */
  type Simulator = (nat, Edges, Amount) -> Option<SimResult>

  /** Every cached entry is what the simulator yields at its revision. */
  ghost predicate Sound(shards: seq<Shard>, simulate: Simulator) {
    forall i, k :: 0 <= i < |shards| && k in shards[i] ==>
      simulate(k.revision, k.edges, k.amount) == Some(shards[i][k])
  }

  class RouteSimCache {
    var shards: seq<Shard>

    ghost predicate Valid()
      reads this
    {
      |shards| == SHARDS && forall i :: 0 <= i < SHARDS ==> |shards[i]| <= SHARD_CAPACITY
    }

    constructor ()
      ensures Valid() && |shards| == 16 && forall simulate :: Sound(shards, simulate)
    {
      shards := seq(SHARDS, i => map[]);
    }

    method Get(revision: nat, fp: nat, edges: Edges, amount: Amount) returns (r: Option<SimResult>)
      requires Valid()
      ensures var k, shard := RouteKey(revision, edges, amount), shards[fp % SHARDS];
        r == if k in shard then Some(shard[k]) else None
    {
      var key := RouteKey(revision, edges, amount);
      var shard := shards[fp % SHARDS];
      return if key in shard then Some(shard[key]) else None;
    }

    /** Insert: the shard stays within capacity, holds the new entry, and beside it exactly what the
        eviction left. */
    method Insert(revision: nat, fp: nat, edges: Edges, amount: Amount, sim: SimResult) returns (ghost kept: Shard)
      requires Valid()
      modifies this
      ensures Valid()
      ensures var k, i := RouteKey(revision, edges, amount), fp % SHARDS;
        && Evicts(old(shards)[i], revision, kept)
        && shards == old(shards)[i := kept[k := sim]]
    {
      var index, key := fp % SHARDS, RouteKey(revision, edges, amount);
      var entries := Evict(shards[index], revision);
      kept := entries;
      shards := shards[index := entries[key := sim]];
    }
  }

  /** The entries of one revision. */
  function OfRevision(entries: Shard, revision: nat): Shard {
    map k | k in entries && k.revision == revision :: entries[k]
  }

  ghost predicate SubMap(a: Shard, b: Shard) { forall k :: k in a ==> k in b && a[k] == b[k] }

  /** Below capacity nothing goes; at capacity the stale revisions go; and when that is not enough, half a
      shard of the present revision stays. */
  ghost predicate Evicts(entries: Shard, revision: nat, kept: Shard) {
    var same := OfRevision(entries, revision);
    if |entries| < SHARD_CAPACITY then kept == entries
    else if |same| < SHARD_CAPACITY then kept == same
    else SubMap(kept, same) && |kept| == SHARD_CAPACITY / 2
  }

  method Evict(entries: Shard, revision: nat) returns (kept: Shard)
    ensures Evicts(entries, revision, kept)
    ensures |kept| < 1024 && SubMap(kept, entries)
    ensures |entries| < 1024 ==> kept == entries
    ensures forall k :: k in entries && k.revision == revision && k !in kept ==> |kept| == 512
    ensures |entries| >= 1024 ==> forall k :: k in kept ==> k.revision == revision
  {
    kept := entries;
    if |entries| >= SHARD_CAPACITY {
      kept := OfRevision(entries, revision);
      if |kept| >= SHARD_CAPACITY {
        ghost var same := kept;
        while |kept| > SHARD_CAPACITY / 2
          invariant SubMap(kept, same) && SHARD_CAPACITY / 2 <= |kept|
        {
          var victim :| victim in kept;
          kept := kept - {victim};
        }
      }
    }
  }

  // ---------------------------------------------------------------- the probe

  /** One probe: the ladder of trade sizes, the two floors, and what simulating and checking a
      size yields. */
  datatype Probe = Probe(
    ladder: seq<Amount>,
    economicFloor: Amount,
    spotProbe: Amount,
    simulate: Amount -> Option<SimResult>,
    sanity: (Amount, nat) -> Option<SanityReason>)
  {
    /** Sizes below the economic floor are tried only from the spot probe upward. */
    predicate Considered(a: Amount) {
      !(a < economicFloor && !(a >= spotProbe && a < economicFloor))
    }

    predicate Simulates(i: nat)
      requires i < |ladder|
    {
      Considered(ladder[i]) && simulate(ladder[i]).Some?
    }

    predicate Profits(i: nat)
      requires i < |ladder|
    {
      Simulates(i) && simulate(ladder[i]).value.profit > 0
    }

    /** A candidate: it simulates with a profit that passes the sanity check. */
    predicate Good(i: nat)
      requires i < |ladder|
    {
      Profits(i) && sanity(ladder[i], simulate(ladder[i]).value.profit).None?
    }

    function ProfitAt(i: nat): nat
      requires i < |ladder| && Simulates(i)
    {
      simulate(ladder[i]).value.profit
    }
  }

  /** The first `n` ladder sizes make `i` the first candidate of maximal profit. */
  ghost predicate FirstMax(p: Probe, n: nat, i: nat)
    requires n <= |p.ladder|
  {
    && i < n && p.Good(i)
    && (forall j: nat :: j < n && p.Good(j) ==> p.ProfitAt(j) <= p.ProfitAt(i))
    && (forall j: nat :: j < i && p.Good(j) ==> p.ProfitAt(j) < p.ProfitAt(i))
  }

  /** The last profitable size among the first `n` that failed the sanity check. */
  ghost predicate LastInsane(p: Probe, n: nat, i: nat)
    requires n <= |p.ladder|
  {
    && i < n && p.Profits(i) && !p.Good(i)
    && (forall j: nat :: i < j < n && p.Profits(j) ==> p.Good(j))
  }

  /** What the probe means: a success is the first maximum-profit admissible size, and a
      failure names the furthest stage any size reached. */
  ghost predicate IsResult(p: Probe, r: ProbeResult) {
    var n := |p.ladder|;
    match r
    case Best(amount, sim) =>
      exists i: nat :: FirstMax(p, n, i) && amount == p.ladder[i] && p.simulate(amount) == Some(sim)
    case Rejected(NoSimulation) => forall i: nat :: i < n ==> !p.Simulates(i)
    case Rejected(ZeroProfit) =>
      (exists i: nat :: i < n && p.Simulates(i)) && (forall i: nat :: i < n ==> !p.Profits(i))
    case Rejected(SanityReject(reason)) =>
      && (forall i: nat :: i < n ==> !p.Good(i))
      && exists i: nat :: LastInsane(p, n, i) && p.sanity(p.ladder[i], p.ProfitAt(i)) == Some(reason)
  }

  /** The meaning determines the result, so two probes that meet it agree: with a cache or
      without. */
  lemma ResultUnique(p: Probe, r: ProbeResult, q: ProbeResult)
    requires IsResult(p, r) && IsResult(p, q)
    ensures r == q
  {
    var n := |p.ladder|;
    if r.Best? && q.Best? {
      var i: nat :| FirstMax(p, n, i) && r.amount == p.ladder[i] && p.simulate(r.amount) == Some(r.sim);
      var j: nat :| FirstMax(p, n, j) && q.amount == p.ladder[j] && p.simulate(q.amount) == Some(q.sim);
      assert i == j;
    } else if r.Rejected? && q.Rejected? && r.why.SanityReject? && q.why.SanityReject? {
      var i: nat :| LastInsane(p, n, i) && p.sanity(p.ladder[i], p.ProfitAt(i)) == Some(r.why.reason);
      var j: nat :| LastInsane(p, n, j) && p.sanity(p.ladder[j], p.ProfitAt(j)) == Some(q.why.reason);
      assert i == j;
    }
  }

  /** A successful probe always carries a profit. */
  lemma SuccessHasProfit(p: Probe, r: ProbeResult)
    requires IsResult(p, r) && r.Best?
    ensures r.sim.profit > 0 && r.amount in p.ladder && p.simulate(r.amount) == Some(r.sim)
    ensures r.amount >= p.economicFloor || r.amount >= p.spotProbe
    ensures p.sanity(r.amount, r.sim.profit) == None
  {
  }

  /** The sizes tried are those from the economic floor or the spot probe upward. */
  lemma ConsideredExactly(p: Probe, a: Amount)
    ensures p.Considered(a) <==> a >= p.economicFloor || a >= p.spotProbe
  {
  }

  /** The cache key of a probe, as carried by `route_sim_cache: Option<(&cache, revision, fp)>`. */
  datatype Route = Route(revision: nat, fp: nat, edges: Edges)

  /** Look up, else simulate and remember: the answer is the simulator's either way. */
  method CachedSimulate(cache: RouteSimCache?, route: Route, amount: Amount, simulate: Amount -> Option<SimResult>,
                        ghost world: Simulator)
    returns (r: Option<SimResult>)
    requires cache != null ==> cache.Valid() && Sound(cache.shards, world)
    requires cache != null ==> forall a :: simulate(a) == world(route.revision, route.edges, a)
    modifies cache
    ensures r == simulate(amount)
    ensures cache != null ==> cache.Valid() && Sound(cache.shards, world)
  {
    r := None;
    if cache != null {
      r := cache.Get(route.revision, route.fp, route.edges, amount);
    }
    if r.None? {
      r := simulate(amount);
      if r.Some? && cache != null {
        ghost var _ := cache.Insert(route.revision, route.fp, route.edges, amount, r.value);
      }
    }
  }

  /** The ladder loop's variables after `n` sizes. */
  datatype Fold = Fold(best: Option<(Amount, SimResult)>, sawSimulation: bool, sawProfit: bool,
                       lastSanity: Option<SanityReason>)

  ghost predicate BestSoFar(p: Probe, n: nat, best: Option<(Amount, SimResult)>)
    requires n <= |p.ladder|
  {
    match best
    case None => forall i: nat :: i < n ==> !p.Good(i)
    case Some(b) =>
      exists i: nat :: FirstMax(p, n, i) && b.0 == p.ladder[i] && p.simulate(b.0) == Some(b.1)
  }

  ghost predicate LastSoFar(p: Probe, n: nat, last: Option<SanityReason>)
    requires n <= |p.ladder|
  {
    match last
    case None => forall i: nat :: i < n && p.Profits(i) ==> p.Good(i)
    case Some(_) => exists i: nat :: LastInsane(p, n, i) && p.sanity(p.ladder[i], p.ProfitAt(i)) == last
  }

  ghost predicate Seen(p: Probe, n: nat, f: Fold)
    requires n <= |p.ladder|
  {
    && (f.sawSimulation <==> exists i: nat :: i < n && p.Simulates(i))
    && (f.sawProfit <==> exists i: nat :: i < n && p.Profits(i))
    && BestSoFar(p, n, f.best) && LastSoFar(p, n, f.lastSanity)
  }

  lemma BestSkips(p: Probe, n: nat, best: Option<(Amount, SimResult)>)
    requires n < |p.ladder| && BestSoFar(p, n, best) && !p.Good(n)
    ensures BestSoFar(p, n + 1, best)
  {
    if best.Some? {
      var b := best.value;
      var i: nat :| FirstMax(p, n, i) && b.0 == p.ladder[i] && p.simulate(b.0) == Some(b.1);
      assert FirstMax(p, n + 1, i);
    }
  }

  lemma BestTakes(p: Probe, n: nat, best: Option<(Amount, SimResult)>, sim: SimResult)
    requires n < |p.ladder| && BestSoFar(p, n, best)
    requires p.Good(n) && p.simulate(p.ladder[n]) == Some(sim)
    ensures BestSoFar(p, n + 1, Better(best, p.ladder[n], sim))
  {
    if best.Some? {
      var b := best.value;
      var i: nat :| FirstMax(p, n, i) && b.0 == p.ladder[i] && p.simulate(b.0) == Some(b.1);
      assert FirstMax(p, n + 1, if sim.profit > b.1.profit then n else i);
    } else {
      assert FirstMax(p, n + 1, n);
    }
  }

  /** The incumbent, unless the newcomer's profit is strictly larger. */
  function Better(best: Option<(Amount, SimResult)>, amount: Amount, sim: SimResult): Option<(Amount, SimResult)> {
    if best.None? || sim.profit > best.value.1.profit then Some((amount, sim)) else best
  }

  lemma LastSkips(p: Probe, n: nat, last: Option<SanityReason>)
    requires n < |p.ladder| && LastSoFar(p, n, last) && (p.Profits(n) ==> p.Good(n))
    ensures LastSoFar(p, n + 1, last)
  {
    if last.Some? {
      var i: nat :| LastInsane(p, n, i) && p.sanity(p.ladder[i], p.ProfitAt(i)) == last;
      assert LastInsane(p, n + 1, i);
    }
  }

  lemma LastTakes(p: Probe, n: nat, last: Option<SanityReason>)
    requires n < |p.ladder| && LastSoFar(p, n, last) && p.Profits(n) && !p.Good(n)
    ensures LastSoFar(p, n + 1, p.sanity(p.ladder[n], p.ProfitAt(n)))
  {
    assert LastInsane(p, n + 1, n);
  }

  /** What one more ladder size does to the loop's variables. */
  lemma SeenStep(p: Probe, n: nat, f: Fold)
    requires n < |p.ladder| && Seen(p, n, f)
    ensures !p.Profits(n) ==> Seen(p, n + 1, f.(sawSimulation := f.sawSimulation || p.Simulates(n)))
    ensures p.Profits(n) && !p.Good(n) ==>
      Seen(p, n + 1, Fold(f.best, true, true, p.sanity(p.ladder[n], p.ProfitAt(n))))
    ensures p.Good(n) ==>
      Seen(p, n + 1, Fold(Better(f.best, p.ladder[n], p.simulate(p.ladder[n]).value), true, true, f.lastSanity))
  {
    if p.Good(n) {
      BestTakes(p, n, f.best, p.simulate(p.ladder[n]).value);
      LastSkips(p, n, f.lastSanity);
    } else {
      BestSkips(p, n, f.best);
      if p.Profits(n) {
        LastTakes(p, n, f.lastSanity);
      } else {
        LastSkips(p, n, f.lastSanity);
      }
    }
  }

  /** `best.ok_or(…)`: what the variables give once the ladder is exhausted. */
  function Verdict(f: Fold): ProbeResult {
    if f.best.Some? then Best(f.best.value.0, f.best.value.1)
    else if !f.sawSimulation then Rejected(NoSimulation)
    else if !f.sawProfit then Rejected(ZeroProfit)
    else Rejected(SanityReject(if f.lastSanity.Some? then f.lastSanity.value else InsaneProfitRatio))
  }

  lemma VerdictMeans(p: Probe, f: Fold)
    requires Seen(p, |p.ladder|, f)
    ensures IsResult(p, Verdict(f))
  {
  }

  /** `minimal_rank_probe`: whether or not a cache is passed, and whatever a sound cache holds,
      the result is the one `IsResult` determines, and the cache stays sound. */
  method MinimalRankProbe(p: Probe, cache: RouteSimCache?, route: Route, ghost world: Simulator)
    returns (r: ProbeResult)
    requires cache != null ==> cache.Valid() && Sound(cache.shards, world)
    requires cache != null ==> forall a :: p.simulate(a) == world(route.revision, route.edges, a)
    modifies cache
    ensures IsResult(p, r)
    ensures cache != null ==> cache.Valid() && Sound(cache.shards, world)
  {
    var f := Fold(None, false, false, None);
    for n := 0 to |p.ladder|
      invariant Seen(p, n, f)
      invariant cache != null ==> cache.Valid() && Sound(cache.shards, world)
    {
      var amount := p.ladder[n];
      SeenStep(p, n, f);
      if p.Considered(amount) {
        var tried := CachedSimulate(cache, route, amount, p.simulate, world);
        if tried.Some? {
          var sim := tried.value;
          f := f.(sawSimulation := true);
          if sim.profit > 0 {
            f := f.(sawProfit := true);
            var insane := p.sanity(amount, sim.profit);
            f := if insane.Some? then f.(lastSanity := insane) else f.(best := Better(f.best, amount, sim));
          }
        }
      }
    }
    VerdictMeans(p, f);
    return Verdict(f);
  }

  // ---------------------------------------------------------------- Brent warm-start seeds

  const BRENT_SEED_CACHE_SLOTS: nat := 48

  type Seeds = seq<(Amount, SimResult)>

  /** One seeding: the ladder, the simulator and the fast sanity check. */
  datatype Seeding = Seeding(ladder: seq<Amount>, simulate: Amount -> Option<SimResult>, sane: (Amount, nat) -> bool)
  {
    predicate Good(a: Amount) {
      simulate(a).Some? && simulate(a).value.profit > 0 && sane(a, simulate(a).value.profit)
    }
  }

  predicate HasAmount(seeds: Seeds, a: Amount) { exists i :: 0 <= i < |seeds| && seeds[i].0 == a }

  ghost predicate DistinctAmounts(seeds: Seeds) {
    forall i, j :: 0 <= i < j < |seeds| ==> seeds[i].0 != seeds[j].0
  }

  /** `seeds` is the caller's seed followed by the first good sizes of the ladder: each once, with its
      own simulation, in ladder order, leaving out a good size only when the slots are full. */
  ghost predicate IsSeeding(p: Seeding, n: nat, start: Seeds, seeds: Seeds, at: seq<nat>)
    requires n <= |p.ladder|
  {
    && |seeds| == |start| + |at| && seeds[..|start|] == start
    && |seeds| <= BRENT_SEED_CACHE_SLOTS
    && DistinctAmounts(seeds)
    && (forall k :: 0 <= k < |at| ==>
          && at[k] < n && p.Good(p.ladder[at[k]])
          && seeds[|start| + k] == (p.ladder[at[k]], p.simulate(p.ladder[at[k]]).value))
    && (forall k, l :: 0 <= k < l < |at| ==> at[k] < at[l])
    && (forall i, k :: 0 <= k < |at| && 0 <= i < at[k] ==> p.ladder[i] != p.ladder[at[k]])
    && (forall i :: 0 <= i < n && p.Good(p.ladder[i]) ==>
          HasAmount(seeds, p.ladder[i])
          || (|seeds| == BRENT_SEED_CACHE_SLOTS && forall k :: 0 <= k < |at| ==> at[k] < i))
  }

  /** What a seed is good for: it is a ladder size that walks with a profit the fast check lets pass. */
  lemma SeedsAreGood(p: Seeding, n: nat, start: Seeds, seeds: Seeds, at: seq<nat>, i: nat)
    requires n <= |p.ladder| && IsSeeding(p, n, start, seeds, at) && |start| <= i < |seeds|
    ensures seeds[i].0 in p.ladder && p.simulate(seeds[i].0) == Some(seeds[i].1)
    ensures seeds[i].1.profit > 0 && p.sane(seeds[i].0, seeds[i].1.profit)
  {
    SeedAt(p, n, start, seeds, at, i);
  }

  /** And every such size of the ladder is a seed, unless all 48 slots are taken. */
  lemma GoodSizesAreSeeds(p: Seeding, start: Seeds, seeds: Seeds, at: seq<nat>, a: Amount, sim: SimResult)
    requires IsSeeding(p, |p.ladder|, start, seeds, at) && |seeds| < 48
    requires a in p.ladder && p.simulate(a) == Some(sim) && sim.profit > 0 && p.sane(a, sim.profit)
    ensures HasAmount(seeds, a)
  {
    var i :| 0 <= i < |p.ladder| && p.ladder[i] == a;
  }

  lemma SeedingSkips(p: Seeding, n: nat, start: Seeds, seeds: Seeds, at: seq<nat>)
    requires n < |p.ladder| && IsSeeding(p, n, start, seeds, at)
    requires |seeds| == BRENT_SEED_CACHE_SLOTS || HasAmount(seeds, p.ladder[n]) || !p.Good(p.ladder[n])
    ensures IsSeeding(p, n + 1, start, seeds, at)
  {
  }

  lemma HasAmountGrows(seeds: Seeds, s: (Amount, SimResult), a: Amount)
    ensures HasAmount(seeds + [s], a) <==> HasAmount(seeds, a) || s.0 == a
  {
    assert (seeds + [s])[|seeds|] == s;
    if HasAmount(seeds, a) {
      var i :| 0 <= i < |seeds| && seeds[i].0 == a;
      assert (seeds + [s])[i].0 == a;
    }
  }

  lemma SeedingTakes(p: Seeding, n: nat, start: Seeds, seeds: Seeds, at: seq<nat>)
    requires n < |p.ladder| && IsSeeding(p, n, start, seeds, at)
    requires |seeds| < BRENT_SEED_CACHE_SLOTS && !HasAmount(seeds, p.ladder[n]) && p.Good(p.ladder[n])
    ensures IsSeeding(p, n + 1, start, seeds + [(p.ladder[n], p.simulate(p.ladder[n]).value)], at + [n])
  {
    var s := (p.ladder[n], p.simulate(p.ladder[n]).value);
    assert (seeds + [s])[..|start|] == start;
    forall i | 0 <= i <= n && p.Good(p.ladder[i])
      ensures HasAmount(seeds + [s], p.ladder[i])
    {
      HasAmountGrows(seeds, s, p.ladder[i]);
    }
  }

  /** `build_brent_probe_seeds`. */
  method BuildBrentProbeSeeds(p: Seeding, probeSeed: Option<(Amount, SimResult)>, cache: RouteSimCache?,
                              route: Route, ghost world: Simulator)
    returns (seeds: Seeds, ghost at: seq<nat>)
    requires cache != null ==> cache.Valid() && Sound(cache.shards, world)
    requires cache != null ==> forall a :: p.simulate(a) == world(route.revision, route.edges, a)
    modifies cache
    ensures IsSeeding(p, |p.ladder|, if probeSeed.Some? then [probeSeed.value] else [], seeds, at)
    ensures |seeds| <= 48 && (|seeds| < 48 ==> forall a :: a in p.ladder && p.Good(a) ==> HasAmount(seeds, a))
    ensures cache != null ==> cache.Valid() && Sound(cache.shards, world)
  {
    ghost var start := if probeSeed.Some? then [probeSeed.value] else [];
    seeds, at := if probeSeed.Some? then [probeSeed.value] else [], [];
    for n := 0 to |p.ladder|
      invariant IsSeeding(p, n, start, seeds, at)
      invariant cache != null ==> cache.Valid() && Sound(cache.shards, world)
    {
      var amount := p.ladder[n];
      var good := false;
      if |seeds| < BRENT_SEED_CACHE_SLOTS && !HasAmount(seeds, amount) {
        var tried := CachedSimulate(cache, route, amount, p.simulate, world);
        if tried.Some? && tried.value.profit > 0 && p.sane(amount, tried.value.profit) {
          SeedingTakes(p, n, start, seeds, at);
          seeds, at := seeds + [(amount, tried.value)], at + [n];
          good := true;
        }
      }
      if !good {
        SeedingSkips(p, n, start, seeds, at);
      }
    }
  }

  lemma SeedAt(p: Seeding, n: nat, start: Seeds, seeds: Seeds, at: seq<nat>, i: nat)
    requires n <= |p.ladder| && IsSeeding(p, n, start, seeds, at) && i < |seeds|
    ensures i < |start| ==> seeds[i] == start[i]
    ensures i >= |start| ==>
      var a := p.ladder[at[i - |start|]];
      seeds[i] == (a, p.simulate(a).value)
  {
    if i < |start| {
      assert seeds[..|start|][i] == start[i];
    } else {
      var k := i - |start|;
      assert seeds[|start| + k] == (p.ladder[at[k]], p.simulate(p.ladder[at[k]]).value);
    }
  }

  lemma SharedPrefix(p: Seeding, n: nat, start: Seeds, a: Seeds, at: seq<nat>, b: Seeds, bt: seq<nat>, k: nat)
    requires n <= |p.ladder| && IsSeeding(p, n, start, a, at) && IsSeeding(p, n, start, b, bt)
    requires k <= |at| && k <= |bt| && forall j :: 0 <= j < k ==> at[j] == bt[j]
    ensures forall i :: 0 <= i < |start| + k ==> a[i] == b[i]
  {
    forall i | 0 <= i < |start| + k
      ensures a[i] == b[i]
    {
      SeedAt(p, n, start, a, at, i);
      SeedAt(p, n, start, b, bt, i);
    }
  }

  /** Where two seedings of a ladder agree so far, the second takes its next size no later. */
  lemma NextNoLater(p: Seeding, n: nat, start: Seeds, a: Seeds, at: seq<nat>, b: Seeds, bt: seq<nat>, k: nat)
    requires n <= |p.ladder| && IsSeeding(p, n, start, a, at) && IsSeeding(p, n, start, b, bt)
    requires k < |at| && k <= |bt| && forall j :: 0 <= j < k ==> at[j] == bt[j]
    ensures k < |bt| && bt[k] <= at[k]
  {
    var x := p.ladder[at[k]];
    assert a[|start| + k].0 == x;
    SharedPrefix(p, n, start, a, at, b, bt, k);
    if HasAmount(b, x) {
      var i :| 0 <= i < |b| && b[i].0 == x;
      SeedAt(p, n, start, b, bt, i);
    }
  }

  lemma {:induction false} TakesAgree(p: Seeding, n: nat, start: Seeds, a: Seeds, at: seq<nat>, b: Seeds, bt: seq<nat>, k: nat)
    requires n <= |p.ladder| && IsSeeding(p, n, start, a, at) && IsSeeding(p, n, start, b, bt)
    requires k <= |at|
    ensures k <= |bt| && forall j :: 0 <= j < k ==> at[j] == bt[j]
  {
    if k == 0 {
    } else {
      TakesAgree(p, n, start, a, at, b, bt, k - 1);
      NextNoLater(p, n, start, a, at, b, bt, k - 1);
      NextNoLater(p, n, start, b, bt, a, at, k - 1);
    }
  }

  /** Any two seedings of the same ladder agree: a cache never changes what Brent starts from. */
  lemma SeedingUnique(p: Seeding, n: nat, start: Seeds, a: Seeds, at: seq<nat>, b: Seeds, bt: seq<nat>)
    requires n <= |p.ladder| && IsSeeding(p, n, start, a, at) && IsSeeding(p, n, start, b, bt)
    ensures a == b
  {
    TakesAgree(p, n, start, a, at, b, bt, |at|);
    TakesAgree(p, n, start, b, bt, a, at, |bt|);
    SharedPrefix(p, n, start, a, at, b, bt, |at|);
  }
}
