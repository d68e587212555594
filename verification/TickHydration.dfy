/** The tick-hydration planner for concentrated-liquidity hops (src/orchestrator/hf_execute.rs,
    cooldown tables from src/pipeline/tick_fetch.rs).

    A CL hop is tickless while its pool's tick array is empty, and a cycle with a tickless hop
    cannot be priced.  The planner ranks tickless pools by how many cycles each would unlock
    alone, splits a shared fetch cap between Uniswap V3 and V4 pools, and after the fetch arms
    cooldowns and drains the cycles that stayed stuck. */
module TickHydration {

  import opened Prelude

  type Pool = nat
  type Address = nat
  type PoolId = nat

  const U32_MAX: nat := 0xffff_ffff
  const PROBE_NARROW_MISS_COOLDOWN_MS: nat := 30_000
  const ZERO_ADDRESS: Address := 0

  datatype Protocol = UniswapV3 | UniswapV4 | OtherProtocol

  datatype PoolState =
    | V3(ticksEmpty: bool, liquidity: nat)
    | V4(ticksEmpty: bool, liquidity: nat)
    | OtherState

  datatype Edge = Edge(pool: Pool, protocol: Protocol)

  type Cycle = seq<Edge>

  /** Pool states and addresses by pool index. */
  datatype Arena = Arena(states: map<Pool, PoolState>, addresses: map<Pool, Address>)

  /** Pool ids of V4 pools, where the metadata has one. */
  type Metas = map<Pool, PoolId>

  // ---------------------------------------------------------------- tickless hops and cycles

  predicate TicklessV3(arena: Arena, e: Edge) {
    && e.protocol == UniswapV3 && e.pool in arena.states
    && arena.states[e.pool].V3? && arena.states[e.pool].ticksEmpty
  }

  predicate TicklessV4(arena: Arena, e: Edge) {
    && e.protocol == UniswapV4 && e.pool in arena.states
    && arena.states[e.pool].V4? && arena.states[e.pool].ticksEmpty
  }

  predicate Tickless(arena: Arena, e: Edge) { TicklessV3(arena, e) || TicklessV4(arena, e) }

  /** `cycle_has_tickless_cl`. */
  predicate HasTickless(arena: Arena, cycle: Cycle) {
    exists i :: 0 <= i < |cycle| && Tickless(arena, cycle[i])
  }

  /** `count_tickless_cl_cycles`. */
  function CountTickless(arena: Arena, cycles: seq<Cycle>): nat {
    if cycles == [] then 0
    else
      var n := |cycles| - 1;
      CountTickless(arena, cycles[..n]) + if HasTickless(arena, cycles[n]) then 1 else 0
  }

  /** The arena after the ticks of one pool were loaded. */
  function Hydrated(arena: Arena, p: Pool): Arena {
    if p !in arena.states || arena.states[p].OtherState? then arena
    else arena.(states := arena.states[p := arena.states[p].(ticksEmpty := false)])
  }

  /** The arena keeps an address-to-pool map: an address names one pool. */
  predicate AddressesIdentify(arena: Arena) {
    forall p, q :: p in arena.addresses && q in arena.addresses && arena.addresses[p] == arena.addresses[q] ==> p == q
  }

  /** The arena of src/pipeline/arena.rs: the pool states and their addresses are parallel vectors. */
  ghost predicate ArenaOk(arena: Arena) {
    && AddressesIdentify(arena)
    && IsVector(arena.states) && arena.addresses.Keys == arena.states.Keys
  }

  /** The keys are the indices of a vector. */
  ghost predicate IsVector<V(!new)>(m: map<nat, V>) { forall p: nat :: p in m <==> p < |m| }

  lemma VectorGrows<V(!new)>(m: map<nat, V>, v: V)
    requires IsVector(m)
    ensures IsVector(m[|m| := v]) && |m| !in m
  {
    var n, m' := |m|, m[|m| := v];
    assert n !in m;
    assert |m'| == n + 1;
    forall p: nat
      ensures p in m' <==> p < n + 1
    {
      assert p in m' <==> p in m || p == n;
    }
  }

  lemma VectorUpdates<V(!new)>(m: map<nat, V>, p: nat, v: V)
    requires IsVector(m) && p in m
    ensures IsVector(m[p := v])
  {
    assert m[p := v].Keys == m.Keys;
    assert |m[p := v]| == |m[p := v].Keys| == |m|;
  }

  /** `register_pool`: replace the state of a known address, or push both a state and an address. */
  function Register(arena: Arena, address: Address, state: PoolState, index: Pool): Arena {
    if index in arena.addresses && arena.addresses[index] == address
    then arena.(states := arena.states[index := state])
    else Arena(arena.states[|arena.states| := state], arena.addresses[|arena.states| := address])
  }

  /** Every arena the program builds is of this kind: it starts empty, and registering and loading keep it so. */
  lemma RegisterKeepsArena(arena: Arena, address: Address, state: PoolState, index: Pool)
    requires ArenaOk(arena)
    // the lookup in `address_to_pool`
    requires forall p :: p in arena.addresses && arena.addresses[p] == address ==> p == index
    ensures ArenaOk(Register(arena, address, state, index))
    ensures var after := Register(arena, address, state, index);
      exists p :: p in after.states && after.states[p] == state && after.addresses[p] == address
  {
    if index in arena.addresses && arena.addresses[index] == address {
      assert index in arena.states.Keys;
      VectorUpdates(arena.states, index, state);
      assert Register(arena, address, state, index).states[index] == state;
    } else {
      VectorGrows(arena.states, state);
      assert Register(arena, address, state, index).states[|arena.states|] == state;
    }
  }

  /** What the program does to an arena. */
  datatype ArenaStep = RegisterPool(address: Address, state: PoolState) | LoadTicks(pool: Pool)

  /** The index `address_to_pool` has for an address, or none in use. */
  ghost function IndexOf(arena: Arena, address: Address): Pool {
    if p :| p in arena.addresses && arena.addresses[p] == address then p else |arena.states|
  }

  ghost function Built(steps: seq<ArenaStep>): Arena {
    if steps == [] then Arena(map[], map[])
    else
      var before := Built(steps[..|steps| - 1]);
      match steps[|steps| - 1]
      case RegisterPool(address, state) => Register(before, address, state, IndexOf(before, address))
      case LoadTicks(pool) => Hydrated(before, pool)
  }

  /** Whatever is registered and loaded, in any order, the arena is of this kind. */
  lemma {:induction false} BuiltArenaOk(steps: seq<ArenaStep>)
    ensures ArenaOk(Built(steps))
  {
    if steps == [] {
      var none := Built(steps).states;
      assert none.Keys == {} && |none| == |none.Keys|;
    } else {
      var n := |steps| - 1;
      var before := Built(steps[..n]);
      BuiltArenaOk(steps[..n]);
      match steps[n]
      case RegisterPool(address, state) => RegisterKeepsArena(before, address, state, IndexOf(before, address));
      case LoadTicks(pool) => HydratingKeepsArena(before, pool);
    }
  }

  lemma HydratingKeepsArena(arena: Arena, p: Pool)
    requires ArenaOk(arena)
    ensures ArenaOk(Hydrated(arena, p))
  {
    if p in arena.states && !arena.states[p].OtherState? {
      VectorUpdates(arena.states, p, arena.states[p].(ticksEmpty := false));
    }
  }

  /** No hop is hidden in an arena the program builds. */
  lemma ArenaHidesNothing(arena: Arena, cycle: Cycle)
    requires ArenaOk(arena)
    ensures !HidesV3(arena, cycle) && TicklessAddressed(arena, cycle)
  {
    assert forall e :: Tickless(arena, e) ==> e.pool in arena.states.Keys;
  }

  /** A tickless V3 hop whose pool has no address: the planner does not see it. */
  predicate HidesV3(arena: Arena, cycle: Cycle) {
    exists i :: 0 <= i < |cycle| && TicklessV3(arena, cycle[i]) && cycle[i].pool !in arena.addresses
  }

  // ---------------------------------------------------------------- cooldowns

  /** Deadlines in milliseconds, by address and by V4 pool id. */
  datatype Cooldowns = Cooldowns(
    emptyTick: map<Address, nat>,
    narrowMiss: map<Address, nat>,
    emptyV4: map<PoolId, nat>,
    narrowMissV4: map<PoolId, nat>)

  predicate On<K>(m: map<K, nat>, k: K, now: nat) { k in m && now < m[k] }

  /** `is_cl_tick_on_hydrate_cooldown`: the pool is proven empty. */
  predicate OnHydrateCooldown(c: Cooldowns, addr: Address, id: Option<PoolId>, now: nat) {
    On(c.emptyTick, addr, now) || (id.Some? && On(c.emptyV4, id.value, now))
  }

  /** `is_cl_tick_on_probe_cooldown`: proven empty, or missed by a narrow probe. */
  predicate OnProbeCooldown(c: Cooldowns, addr: Address, id: Option<PoolId>, now: nat) {
    || On(c.emptyTick, addr, now)
    || On(c.narrowMiss, addr, now)
    || (id.Some? && (On(c.emptyV4, id.value, now) || On(c.narrowMissV4, id.value, now)))
  }

  // ---------------------------------------------------------------- scores

  /** The ranking triple of a pool. */
  datatype Score = Score(sole: nat, hits: nat, liquidity: nat)

  predicate Better(a: Score, b: Score) {
    || a.sole > b.sole
    || (a.sole == b.sole && a.hits > b.hits)
    || (a.sole == b.sole && a.hits == b.hits && a.liquidity > b.liquidity)
  }

  function Saturate(n: nat): nat { if n > U32_MAX then U32_MAX else n }

  function SaturatingAdd(n: nat, k: nat): nat { Saturate(n + k) }

  /** The cycle's tickless V3 pools that may be fetched now, by address. */
  function FetchableV3(arena: Arena, c: Cooldowns, now: nat, cycle: Cycle): set<Address> {
    set i | 0 <= i < |cycle| && TicklessV3(arena, cycle[i]) && cycle[i].pool in arena.addresses
            && !OnHydrateCooldown(c, arena.addresses[cycle[i].pool], None, now)
         :: arena.addresses[cycle[i].pool]
  }

  /** Something other than a fetchable V3 pool keeps the cycle tickless. */
  predicate BlockedV3(arena: Arena, c: Cooldowns, now: nat, cycle: Cycle) {
    exists i :: 0 <= i < |cycle| &&
      (TicklessV4(arena, cycle[i])
       || (TicklessV3(arena, cycle[i]) && cycle[i].pool in arena.addresses
           && OnHydrateCooldown(c, arena.addresses[cycle[i].pool], None, now)))
  }

  predicate SoleV3(arena: Arena, c: Cooldowns, now: nat, cycle: Cycle, a: Address) {
    !BlockedV3(arena, c, now, cycle) && FetchableV3(arena, c, now, cycle) == {a}
  }

  predicate CooledV4(arena: Arena, metas: Metas, c: Cooldowns, now: nat, p: Pool)
    requires p in metas
  {
    OnHydrateCooldown(c, if p in arena.addresses then arena.addresses[p] else ZERO_ADDRESS, Some(metas[p]), now)
  }

  function FetchableV4(arena: Arena, metas: Metas, c: Cooldowns, now: nat, cycle: Cycle): set<Pool> {
    set i | 0 <= i < |cycle| && TicklessV4(arena, cycle[i]) && cycle[i].pool in metas
            && !CooledV4(arena, metas, c, now, cycle[i].pool) :: cycle[i].pool
  }

  predicate BlockedV4(arena: Arena, metas: Metas, c: Cooldowns, now: nat, cycle: Cycle) {
    exists i :: 0 <= i < |cycle| &&
      (TicklessV3(arena, cycle[i])
       || (TicklessV4(arena, cycle[i])
           && (cycle[i].pool !in metas || CooledV4(arena, metas, c, now, cycle[i].pool))))
  }

  predicate SoleV4(arena: Arena, metas: Metas, c: Cooldowns, now: nat, cycle: Cycle, p: Pool) {
    !BlockedV4(arena, metas, c, now, cycle) && FetchableV4(arena, metas, c, now, cycle) == {p}
  }

  // ---------------------------------------------------------------- sole unlock is exact

  /** Loading a V3 pool's ticks alone turns a cycle from tickless to priceable exactly when the
      cycle counts as a sole unlock of the pool and hides no tickless hop. */
  lemma SoleV3IsUnlock(arena: Arena, c: Cooldowns, now: nat, cycle: Cycle, p: Pool)
    requires AddressesIdentify(arena)
    requires p in arena.states && arena.states[p].V3? && p in arena.addresses
    requires !OnHydrateCooldown(c, arena.addresses[p], None, now)
    ensures SoleV3(arena, c, now, cycle, arena.addresses[p]) && !HidesV3(arena, cycle)
       <==> HasTickless(arena, cycle) && !HasTickless(Hydrated(arena, p), cycle)
  {
    var a, after := arena.addresses[p], Hydrated(arena, p);
    assert forall e :: Tickless(after, e) <==> Tickless(arena, e) && e.pool != p;
    if SoleV3(arena, c, now, cycle, a) && !HidesV3(arena, cycle) {
      assert a in FetchableV3(arena, c, now, cycle);
      forall i | 0 <= i < |cycle| && Tickless(arena, cycle[i])
        ensures cycle[i].pool == p
      {
        assert arena.addresses[cycle[i].pool] in FetchableV3(arena, c, now, cycle);
      }
    }
    if HasTickless(arena, cycle) && !HasTickless(after, cycle) {
      forall i | 0 <= i < |cycle| && Tickless(arena, cycle[i])
        ensures cycle[i].pool == p && TicklessV3(arena, cycle[i])
      {
        assert !Tickless(after, cycle[i]);
      }
      var i :| 0 <= i < |cycle| && Tickless(arena, cycle[i]);
      assert a in FetchableV3(arena, c, now, cycle);
    }
  }

  lemma SoleV4IsUnlock(arena: Arena, metas: Metas, c: Cooldowns, now: nat, cycle: Cycle, p: Pool)
    requires p in arena.states && arena.states[p].V4? && p in metas
    requires !CooledV4(arena, metas, c, now, p)
    ensures SoleV4(arena, metas, c, now, cycle, p)
       <==> HasTickless(arena, cycle) && !HasTickless(Hydrated(arena, p), cycle)
  {
    var after := Hydrated(arena, p);
    assert forall e :: Tickless(after, e) <==> Tickless(arena, e) && e.pool != p;
    if SoleV4(arena, metas, c, now, cycle, p) {
      assert p in FetchableV4(arena, metas, c, now, cycle);
      forall i | 0 <= i < |cycle| && Tickless(arena, cycle[i])
        ensures cycle[i].pool == p
      {
        assert cycle[i].pool in FetchableV4(arena, metas, c, now, cycle);
      }
    }
    if HasTickless(arena, cycle) && !HasTickless(after, cycle) {
      forall i | 0 <= i < |cycle| && Tickless(arena, cycle[i])
        ensures cycle[i].pool == p && TicklessV4(arena, cycle[i])
      {
        assert !Tickless(after, cycle[i]);
      }
      var i :| 0 <= i < |cycle| && Tickless(arena, cycle[i]);
      assert p in FetchableV4(arena, metas, c, now, cycle);
    }
  }

  function SoleCountV3(arena: Arena, c: Cooldowns, now: nat, cycles: seq<Cycle>, a: Address): nat {
    if cycles == [] then 0
    else
      var n := |cycles| - 1;
      SoleCountV3(arena, c, now, cycles[..n], a) + if SoleV3(arena, c, now, cycles[n], a) then 1 else 0
  }

  function HitCountV3(arena: Arena, c: Cooldowns, now: nat, cycles: seq<Cycle>, a: Address): nat {
    if cycles == [] then 0
    else
      var n := |cycles| - 1;
      HitCountV3(arena, c, now, cycles[..n], a) + if a in FetchableV3(arena, c, now, cycles[n]) then 1 else 0
  }

  function SoleCountV4(arena: Arena, metas: Metas, c: Cooldowns, now: nat, cycles: seq<Cycle>, p: Pool): nat {
    if cycles == [] then 0
    else
      var n := |cycles| - 1;
      SoleCountV4(arena, metas, c, now, cycles[..n], p)
      + if SoleV4(arena, metas, c, now, cycles[n], p) then 1 else 0
  }

  function HitCountV4(arena: Arena, metas: Metas, c: Cooldowns, now: nat, cycles: seq<Cycle>, p: Pool): nat {
    if cycles == [] then 0
    else
      var n := |cycles| - 1;
      HitCountV4(arena, metas, c, now, cycles[..n], p)
      + if p in FetchableV4(arena, metas, c, now, cycles[n]) then 1 else 0
  }

  lemma HydratingOnlyHelps(arena: Arena, p: Pool, cycle: Cycle)
    ensures HasTickless(Hydrated(arena, p), cycle) ==> HasTickless(arena, cycle)
  {
    if HasTickless(Hydrated(arena, p), cycle) {
      var i :| 0 <= i < |cycle| && Tickless(Hydrated(arena, p), cycle[i]);
      assert Tickless(arena, cycle[i]);
    }
  }

  /** Sole unlocks that a hidden hop makes void. */
  function VoidCountV3(arena: Arena, c: Cooldowns, now: nat, cycles: seq<Cycle>, a: Address): nat {
    if cycles == [] then 0
    else
      var n := |cycles| - 1;
      VoidCountV3(arena, c, now, cycles[..n], a)
      + if SoleV3(arena, c, now, cycles[n], a) && HidesV3(arena, cycles[n]) then 1 else 0
  }

  /** Exact unlock count, V3: for every mix of V3, V4, cooled and id-less hops, the sole-unlock
      count of a fetchable pool is the drop in tickless cycles that loading it alone causes, plus
      the void ones. */
  lemma {:induction false} SoleCountV3IsDrop(arena: Arena, c: Cooldowns, now: nat, cycles: seq<Cycle>, p: Pool)
    requires AddressesIdentify(arena)
    requires p in arena.states && arena.states[p].V3? && p in arena.addresses
    requires !OnHydrateCooldown(c, arena.addresses[p], None, now)
    ensures SoleCountV3(arena, c, now, cycles, arena.addresses[p])
         == CountTickless(arena, cycles) - CountTickless(Hydrated(arena, p), cycles)
            + VoidCountV3(arena, c, now, cycles, arena.addresses[p])
  {
    if cycles == [] {
    } else {
      var n := |cycles| - 1;
      SoleCountV3IsDrop(arena, c, now, cycles[..n], p);
      SoleV3IsUnlock(arena, c, now, cycles[n], p);
      HydratingOnlyHelps(arena, p, cycles[n]);
    }
  }

  /** The V3 count is exact if and only if no sole unlock of the pool hides a tickless hop. */
  lemma {:induction false} VoidCountV3Zero(arena: Arena, c: Cooldowns, now: nat, cycles: seq<Cycle>, a: Address)
    ensures VoidCountV3(arena, c, now, cycles, a) == 0
       <==> forall x :: x in cycles && SoleV3(arena, c, now, x, a) ==> !HidesV3(arena, x)
  {
    if cycles == [] {
    } else {
      var n := |cycles| - 1;
      VoidCountV3Zero(arena, c, now, cycles[..n], a);
      assert forall x :: x in cycles <==> x in cycles[..n] || x == cycles[n];
    }
  }

  /** In an arena the program builds, the V3 count is the drop. */
  lemma SoleCountV3Exact(arena: Arena, c: Cooldowns, now: nat, cycles: seq<Cycle>, p: Pool)
    requires ArenaOk(arena) && p in arena.states && arena.states[p].V3?
    requires !OnHydrateCooldown(c, arena.addresses[p], None, now)
    ensures SoleCountV3(arena, c, now, cycles, arena.addresses[p])
         == CountTickless(arena, cycles) - CountTickless(Hydrated(arena, p), cycles)
  {
    SoleCountV3IsDrop(arena, c, now, cycles, p);
    forall x | x in cycles
      ensures !HidesV3(arena, x)
    {
      ArenaHidesNothing(arena, x);
    }
    VoidCountV3Zero(arena, c, now, cycles, arena.addresses[p]);
  }

  /** Exact unlock count, V4; here no assumption on addresses is needed. */
  lemma {:induction false} SoleCountV4IsDrop(arena: Arena, metas: Metas, c: Cooldowns, now: nat, cycles: seq<Cycle>, p: Pool)
    requires p in arena.states && arena.states[p].V4? && p in metas
    requires !CooledV4(arena, metas, c, now, p)
    ensures CountTickless(Hydrated(arena, p), cycles)
         == CountTickless(arena, cycles) - SoleCountV4(arena, metas, c, now, cycles, p)
  {
    if cycles == [] {
    } else {
      var n := |cycles| - 1;
      SoleCountV4IsDrop(arena, metas, c, now, cycles[..n], p);
      SoleV4IsUnlock(arena, metas, c, now, cycles[n], p);
      HydratingOnlyHelps(arena, p, cycles[n]);
    }
  }

  /** The planner itself relies on that: it does not see a tickless V3 hop without an address as a blocker,
      so without the arena's invariant a pool could score an unlock it does not deliver. */
  lemma MissingAddressOvercounts()
    ensures exists arena, c, now, cycle, p ::
      && AddressesIdentify(arena) && p in arena.states && arena.states[p].V3? && p in arena.addresses
      && !OnHydrateCooldown(c, arena.addresses[p], None, now)
      && SoleV3(arena, c, now, cycle, arena.addresses[p])
      && HasTickless(Hydrated(arena, p), cycle)
  {
    var arena := Arena(map[1 := V3(true, 5), 2 := V3(true, 5)], map[1 := 11]);
    var c := Cooldowns(map[], map[], map[], map[]);
    var cycle := [Edge(1, UniswapV3), Edge(2, UniswapV3)];
    assert 11 in FetchableV3(arena, c, 0, cycle) by {
      assert TicklessV3(arena, cycle[0]);
    }
    assert FetchableV3(arena, c, 0, cycle) == {11};
    assert Tickless(Hydrated(arena, 1), cycle[1]);
    assert SoleV3(arena, c, 0, cycle, arena.addresses[1]);
  }

  // ---------------------------------------------------------------- scanning one cycle

  predicate DistinctKeys<K(==)>(xs: seq<(K, nat)>) {
    forall i, j :: 0 <= i < j < |xs| ==> xs[i].0 != xs[j].0
  }

  function KeysOf<K>(xs: seq<(K, nat)>): set<K> { set i | 0 <= i < |xs| :: xs[i].0 }

  lemma KeysOfAppend<K>(xs: seq<(K, nat)>, x: (K, nat))
    ensures KeysOf(xs + [x]) == KeysOf(xs) + {x.0}
  {
    assert (xs + [x])[|xs|] == x;
    assert forall i :: 0 <= i < |xs| ==> (xs + [x])[i] == xs[i];
  }

  lemma FetchableV3Step(arena: Arena, c: Cooldowns, now: nat, cycle: Cycle, i: nat)
    requires i < |cycle|
    ensures var e := cycle[i];
      FetchableV3(arena, c, now, cycle[..i + 1])
      == FetchableV3(arena, c, now, cycle[..i])
         + (if TicklessV3(arena, e) && e.pool in arena.addresses
               && !OnHydrateCooldown(c, arena.addresses[e.pool], None, now)
            then {arena.addresses[e.pool]} else {})
  {
    assert forall k :: 0 <= k < i ==> cycle[..i + 1][k] == cycle[..i][k];
    assert cycle[..i + 1][i] == cycle[i];
  }

  lemma BlockedV3Step(arena: Arena, c: Cooldowns, now: nat, cycle: Cycle, i: nat)
    requires i < |cycle|
    ensures var e := cycle[i];
      BlockedV3(arena, c, now, cycle[..i + 1])
      <==> BlockedV3(arena, c, now, cycle[..i])
           || TicklessV4(arena, e)
           || (TicklessV3(arena, e) && e.pool in arena.addresses
               && OnHydrateCooldown(c, arena.addresses[e.pool], None, now))
  {
    var head, longer := cycle[..i], cycle[..i + 1];
    assert forall k :: 0 <= k < i ==> longer[k] == head[k];
    assert longer[i] == cycle[i];
  }

  /** The liquidity listed for an address is that of its pool. */
  predicate LiquidityV3(arena: Arena, a: Address, liquidity: nat) {
    forall p :: p in arena.addresses && arena.addresses[p] == a && p in arena.states && arena.states[p].V3?
                ==> liquidity == arena.states[p].liquidity
  }

  /** The edge loop of `tickless_v3_addresses_prioritized`. */
  method ScanCycleV3(arena: Arena, c: Cooldowns, now: nat, cycle: Cycle)
    returns (fetchable: seq<(Address, nat)>, blocked: bool)
    requires AddressesIdentify(arena)
    ensures blocked == BlockedV3(arena, c, now, cycle)
    ensures DistinctKeys(fetchable) && KeysOf(fetchable) == FetchableV3(arena, c, now, cycle)
    ensures forall i :: 0 <= i < |fetchable| ==> LiquidityV3(arena, fetchable[i].0, fetchable[i].1)
  {
    fetchable, blocked := [], false;
    var seen: set<Address> := {};
    for i := 0 to |cycle|
      invariant blocked == BlockedV3(arena, c, now, cycle[..i])
      invariant DistinctKeys(fetchable) && KeysOf(fetchable) == FetchableV3(arena, c, now, cycle[..i])
      invariant forall k :: 0 <= k < |fetchable| ==> LiquidityV3(arena, fetchable[k].0, fetchable[k].1)
      invariant KeysOf(fetchable) <= seen
      invariant forall a :: a in seen && a !in KeysOf(fetchable) ==> blocked && OnHydrateCooldown(c, a, None, now)
    {
      FetchableV3Step(arena, c, now, cycle, i);
      BlockedV3Step(arena, c, now, cycle, i);
      var e := cycle[i];
      if TicklessV4(arena, e) {
        blocked := true;
      } else if TicklessV3(arena, e) && e.pool in arena.addresses {
        var addr := arena.addresses[e.pool];
        if addr !in seen {
          seen := seen + {addr};
          if OnHydrateCooldown(c, addr, None, now) {
            blocked := true;
          } else {
            KeysOfAppend(fetchable, (addr, arena.states[e.pool].liquidity));
            fetchable := fetchable + [(addr, arena.states[e.pool].liquidity)];
          }
        }
      }
    }
    assert cycle[..|cycle|] == cycle;
  }

  // ---------------------------------------------------------------- accumulating scores

  function Initial<K>(freq: map<K, Score>, k: K, liquidity: nat): Score {
    if k in freq then freq[k] else Score(0, 0, liquidity)
  }

  function Bumped(score: Score, sole: bool, liquidity: nat): Score {
    Score(SaturatingAdd(score.sole, if sole then 1 else 0), SaturatingAdd(score.hits, 1),
          if liquidity > score.liquidity then liquidity else score.liquidity)
  }

  /** The entry update shared by both planners: every fetchable pool of one cycle. */
  method AddCycle<K(==)>(freq: map<K, Score>, fetchable: seq<(K, nat)>, sole: bool) returns (out: map<K, Score>)
    requires DistinctKeys(fetchable)
    ensures out.Keys == freq.Keys + KeysOf(fetchable)
    ensures forall k :: k in freq && k !in KeysOf(fetchable) ==> out[k] == freq[k]
    ensures forall i :: 0 <= i < |fetchable| ==>
              out[fetchable[i].0] == Bumped(Initial(freq, fetchable[i].0, fetchable[i].1), sole, fetchable[i].1)
  {
    out := freq;
    for i := 0 to |fetchable|
      invariant out.Keys == freq.Keys + KeysOf(fetchable[..i])
      invariant forall k :: k in freq && k !in KeysOf(fetchable[..i]) ==> out[k] == freq[k]
      invariant forall j :: 0 <= j < i ==>
                  fetchable[j].0 in out
                  && out[fetchable[j].0] == Bumped(Initial(freq, fetchable[j].0, fetchable[j].1), sole, fetchable[j].1)
    {
      var (k, liquidity) := fetchable[i];
      assert k !in KeysOf(fetchable[..i]);
      KeysOfAppend(fetchable[..i], fetchable[i]);
      assert fetchable[..i] + [fetchable[i]] == fetchable[..i + 1];
      out := out[k := Bumped(Initial(freq, k, liquidity), sole, liquidity)];
    }
    assert fetchable[..|fetchable|] == fetchable;
  }

  // ---------------------------------------------------------------- ranking

  ghost predicate IsRanking<K(!new)>(scores: map<K, Score>, ranked: seq<K>) {
    && (forall i, j :: 0 <= i < j < |ranked| ==> ranked[i] != ranked[j])
    && (forall k :: k in ranked <==> k in scores)
    && |ranked| == |scores|
    && (forall i, j :: 0 <= i < j < |ranked| ==> !Better(scores[ranked[j]], scores[ranked[i]]))
  }

  lemma {:induction false} BestExists<K(!new)>(scores: map<K, Score>, ks: set<K>)
    requires ks != {} && ks <= scores.Keys
    ensures exists k :: k in ks && forall x :: x in ks ==> !Better(scores[x], scores[k])
  {
    var k :| k in ks;
    if ks == {k} {
      assert forall x :: x in ks ==> !Better(scores[x], scores[k]);
    } else {
      BestExists(scores, ks - {k});
      var m :| m in ks - {k} && forall x :: x in ks - {k} ==> !Better(scores[x], scores[m]);
      var best := if Better(scores[k], scores[m]) then k else m;
      assert forall x :: x in ks ==> !Better(scores[x], scores[best]);
    }
  }

  /** `sort_unstable_by` on (sole, hits, liquidity), descending; ties in any order. */
  method Rank<K(==, !new)>(scores: map<K, Score>) returns (ranked: seq<K>)
    ensures IsRanking(scores, ranked)
  {
    ranked := [];
    var rest := scores.Keys;
    while rest != {}
      invariant rest <= scores.Keys
      invariant forall k :: k in scores ==> (k in rest <==> k !in ranked)
      invariant forall k :: k in ranked ==> k in scores
      invariant |ranked| + |rest| == |scores.Keys|
      invariant forall i, j :: 0 <= i < j < |ranked| ==> ranked[i] != ranked[j]
      invariant forall i, j :: 0 <= i < j < |ranked| ==> !Better(scores[ranked[j]], scores[ranked[i]])
      invariant forall k, i :: k in rest && 0 <= i < |ranked| ==> !Better(scores[k], scores[ranked[i]])
      decreases rest
    {
      BestExists(scores, rest);
      var k :| k in rest && forall x :: x in rest ==> !Better(scores[x], scores[k]);
      ranked, rest := ranked + [k], rest - {k};
    }
    assert |scores.Keys| == |scores|;
  }

  lemma SoleMeansOneKey<K>(xs: seq<(K, nat)>, i: nat)
    requires DistinctKeys(xs) && i < |xs|
    ensures |xs| == 1 <==> KeysOf(xs) == {xs[i].0}
  {
    assert forall k :: 0 <= k < |xs| ==> xs[k].0 in KeysOf(xs);
    assert |xs| > 1 ==> xs[if i == 0 then 1 else 0].0 in KeysOf(xs);
  }

  // ---------------------------------------------------------------- the V3 planner

  /** What a score of the V3 planner means. */
  predicate ScoreV3(arena: Arena, c: Cooldowns, now: nat, cycles: seq<Cycle>, a: Address, s: Score) {
    && s.sole == Saturate(SoleCountV3(arena, c, now, cycles, a))
    && s.hits == Saturate(HitCountV3(arena, c, now, cycles, a))
    && LiquidityV3(arena, a, s.liquidity)
  }

  ghost predicate ScoresV3(arena: Arena, c: Cooldowns, now: nat, cycles: seq<Cycle>, freq: map<Address, Score>) {
    && (forall a :: a in freq <==> HitCountV3(arena, c, now, cycles, a) > 0)
    && (forall a :: a in freq ==> ScoreV3(arena, c, now, cycles, a, freq[a]))
  }

  lemma CountsStepV3(arena: Arena, c: Cooldowns, now: nat, cycles: seq<Cycle>, i: nat, a: Address)
    requires i < |cycles|
    ensures SoleCountV3(arena, c, now, cycles[..i + 1], a)
         == SoleCountV3(arena, c, now, cycles[..i], a) + if SoleV3(arena, c, now, cycles[i], a) then 1 else 0
    ensures HitCountV3(arena, c, now, cycles[..i + 1], a)
         == HitCountV3(arena, c, now, cycles[..i], a) + if a in FetchableV3(arena, c, now, cycles[i]) then 1 else 0
    ensures SoleCountV3(arena, c, now, cycles[..i], a) <= HitCountV3(arena, c, now, cycles[..i], a)
  {
    assert cycles[..i + 1][..i] == cycles[..i];
    SoleNeedsHit(arena, c, now, cycles[..i], a);
  }

  lemma BumpedScoreV3(arena: Arena, c: Cooldowns, now: nat, cycles: seq<Cycle>, i: nat, a: Address,
                      s: Score, liquidity: nat, sole: bool)
    requires i < |cycles| && a in FetchableV3(arena, c, now, cycles[i]) && LiquidityV3(arena, a, liquidity)
    requires sole <==> SoleV3(arena, c, now, cycles[i], a)
    requires ScoreV3(arena, c, now, cycles[..i], a, s)
          || (HitCountV3(arena, c, now, cycles[..i], a) == 0 && s == Score(0, 0, liquidity))
    ensures ScoreV3(arena, c, now, cycles[..i + 1], a, Bumped(s, sole, liquidity))
  {
    CountsStepV3(arena, c, now, cycles, i, a);
  }

  lemma KeptScoreV3(arena: Arena, c: Cooldowns, now: nat, cycles: seq<Cycle>, i: nat, a: Address, s: Score)
    requires i < |cycles| && a !in FetchableV3(arena, c, now, cycles[i])
    requires ScoreV3(arena, c, now, cycles[..i], a, s)
    ensures ScoreV3(arena, c, now, cycles[..i + 1], a, s)
  {
    CountsStepV3(arena, c, now, cycles, i, a);
  }

  lemma AddCycleV3(arena: Arena, c: Cooldowns, now: nat, cycles: seq<Cycle>, i: nat, freq: map<Address, Score>,
                   fetchable: seq<(Address, nat)>, sole: bool, out: map<Address, Score>)
    requires i < |cycles| && ScoresV3(arena, c, now, cycles[..i], freq)
    requires DistinctKeys(fetchable) && KeysOf(fetchable) == FetchableV3(arena, c, now, cycles[i])
    requires forall k :: 0 <= k < |fetchable| ==> LiquidityV3(arena, fetchable[k].0, fetchable[k].1)
    requires sole <==> !BlockedV3(arena, c, now, cycles[i]) && |fetchable| == 1
    requires out.Keys == freq.Keys + KeysOf(fetchable)
    requires forall k :: k in freq && k !in KeysOf(fetchable) ==> out[k] == freq[k]
    requires forall k :: 0 <= k < |fetchable| ==>
      out[fetchable[k].0] == Bumped(Initial(freq, fetchable[k].0, fetchable[k].1), sole, fetchable[k].1)
    ensures ScoresV3(arena, c, now, cycles[..i + 1], out)
  {
    forall a: Address
      ensures a in out <==> HitCountV3(arena, c, now, cycles[..i + 1], a) > 0
    {
      CountsStepV3(arena, c, now, cycles, i, a);
    }
    forall a | a in out
      ensures ScoreV3(arena, c, now, cycles[..i + 1], a, out[a])
    {
      if a in KeysOf(fetchable) {
        var k :| 0 <= k < |fetchable| && fetchable[k].0 == a;
        SoleMeansOneKey(fetchable, k);
        BumpedScoreV3(arena, c, now, cycles, i, a, Initial(freq, a, fetchable[k].1), fetchable[k].1, sole);
      } else {
        KeptScoreV3(arena, c, now, cycles, i, a, freq[a]);
      }
    }
  }

  lemma {:induction false} SoleNeedsHit(arena: Arena, c: Cooldowns, now: nat, cycles: seq<Cycle>, a: Address)
    ensures SoleCountV3(arena, c, now, cycles, a) <= HitCountV3(arena, c, now, cycles, a)
  {
    if cycles == [] {
    } else {
      SoleNeedsHit(arena, c, now, cycles[..|cycles| - 1], a);
    }
  }

  /** The cycle loop of the V3 planner. */
  method ScoreV3Targets(arena: Arena, c: Cooldowns, now: nat, cycles: seq<Cycle>) returns (freq: map<Address, Score>)
    requires AddressesIdentify(arena)
    ensures ScoresV3(arena, c, now, cycles, freq)
  {
    freq := map[];
    for i := 0 to |cycles|
      invariant ScoresV3(arena, c, now, cycles[..i], freq)
    {
      var fetchable, blocked := ScanCycleV3(arena, c, now, cycles[i]);
      var sole := !blocked && |fetchable| == 1;
      var next := AddCycle(freq, fetchable, sole);
      AddCycleV3(arena, c, now, cycles, i, freq, fetchable, sole, next);
      freq := next;
    }
    assert cycles[..|cycles|] == cycles;
  }

  /** `tickless_v3_addresses_prioritized`: the fetchable tickless V3 pools of the cycles, ranked
      by exact unlock count, then membership, then liquidity, cut at `cap`. */
  method TicklessV3Prioritized(arena: Arena, c: Cooldowns, now: nat, cycles: seq<Cycle>, cap: nat)
    returns (total: nat, out: seq<Address>, ghost scores: map<Address, Score>, ghost ranking: seq<Address>)
    requires AddressesIdentify(arena)
    ensures ScoresV3(arena, c, now, cycles, scores) && total == |scores|
    ensures IsRanking(scores, ranking) && out == ranking[..Min(cap, total)]
    ensures |out| == Min(cap, total) && forall i, j :: 0 <= i < j < |out| ==> out[i] != out[j]
    ensures ArenaOk(arena) && |cycles| <= 0xffff_ffff ==> BestTargetsV3(arena, c, now, cycles, out)
  {
    var freq := ScoreV3Targets(arena, c, now, cycles);
    total := |freq|;
    var ranked := Rank(freq);
    scores, ranking := freq, ranked;
    out := ranked[..Min(cap, total)];
    if ArenaOk(arena) && |cycles| <= 0xffff_ffff {
      CutIsBestV3(arena, map[], c, now, cycles, scores, ranking, |out|);
    }
  }

  // ---------------------------------------------------------------- the V4 planner

  lemma FetchableV4Step(arena: Arena, metas: Metas, c: Cooldowns, now: nat, cycle: Cycle, i: nat)
    requires i < |cycle|
    ensures var e := cycle[i];
      FetchableV4(arena, metas, c, now, cycle[..i + 1])
      == FetchableV4(arena, metas, c, now, cycle[..i])
         + (if TicklessV4(arena, e) && e.pool in metas && !CooledV4(arena, metas, c, now, e.pool)
            then {e.pool} else {})
  {
    assert forall k :: 0 <= k < i ==> cycle[..i + 1][k] == cycle[..i][k];
    assert cycle[..i + 1][i] == cycle[i];
  }

  lemma BlockedV4Step(arena: Arena, metas: Metas, c: Cooldowns, now: nat, cycle: Cycle, i: nat)
    requires i < |cycle|
    ensures var e := cycle[i];
      BlockedV4(arena, metas, c, now, cycle[..i + 1])
      <==> BlockedV4(arena, metas, c, now, cycle[..i])
           || TicklessV3(arena, e)
           || (TicklessV4(arena, e) && (e.pool !in metas || CooledV4(arena, metas, c, now, e.pool)))
  {
    var head, longer := cycle[..i], cycle[..i + 1];
    assert forall k :: 0 <= k < i ==> longer[k] == head[k];
    assert longer[i] == cycle[i];
  }

  predicate LiquidityV4(arena: Arena, p: Pool, liquidity: nat) {
    p in arena.states && arena.states[p].V4? ==> liquidity == arena.states[p].liquidity
  }

  method ScanCycleV4(arena: Arena, metas: Metas, c: Cooldowns, now: nat, cycle: Cycle)
    returns (fetchable: seq<(Pool, nat)>, blocked: bool)
    ensures blocked == BlockedV4(arena, metas, c, now, cycle)
    ensures DistinctKeys(fetchable) && KeysOf(fetchable) == FetchableV4(arena, metas, c, now, cycle)
    ensures forall i :: 0 <= i < |fetchable| ==> LiquidityV4(arena, fetchable[i].0, fetchable[i].1)
  {
    fetchable, blocked := [], false;
    var seen: set<Pool> := {};
    for i := 0 to |cycle|
      invariant blocked == BlockedV4(arena, metas, c, now, cycle[..i])
      invariant DistinctKeys(fetchable) && KeysOf(fetchable) == FetchableV4(arena, metas, c, now, cycle[..i])
      invariant forall k :: 0 <= k < |fetchable| ==> LiquidityV4(arena, fetchable[k].0, fetchable[k].1)
      invariant KeysOf(fetchable) <= seen
      invariant forall p :: p in seen && p !in KeysOf(fetchable) ==>
                  blocked && (p !in metas || CooledV4(arena, metas, c, now, p))
    {
      FetchableV4Step(arena, metas, c, now, cycle, i);
      BlockedV4Step(arena, metas, c, now, cycle, i);
      var e := cycle[i];
      if TicklessV3(arena, e) {
        blocked := true;
      } else if TicklessV4(arena, e) && e.pool !in seen {
        seen := seen + {e.pool};
        if e.pool !in metas || CooledV4(arena, metas, c, now, e.pool) {
          blocked := true;
        } else {
          KeysOfAppend(fetchable, (e.pool, arena.states[e.pool].liquidity));
          fetchable := fetchable + [(e.pool, arena.states[e.pool].liquidity)];
        }
      }
    }
    assert cycle[..|cycle|] == cycle;
  }

  predicate ScoreV4(arena: Arena, metas: Metas, c: Cooldowns, now: nat, cycles: seq<Cycle>, p: Pool, s: Score) {
    && s.sole == Saturate(SoleCountV4(arena, metas, c, now, cycles, p))
    && s.hits == Saturate(HitCountV4(arena, metas, c, now, cycles, p))
    && LiquidityV4(arena, p, s.liquidity)
  }

  ghost predicate ScoresV4(arena: Arena, metas: Metas, c: Cooldowns, now: nat, cycles: seq<Cycle>, freq: map<Pool, Score>) {
    && (forall p :: p in freq <==> HitCountV4(arena, metas, c, now, cycles, p) > 0)
    && (forall p :: p in freq ==> p in metas && ScoreV4(arena, metas, c, now, cycles, p, freq[p]))
  }

  lemma {:induction false} SoleNeedsHitV4(arena: Arena, metas: Metas, c: Cooldowns, now: nat, cycles: seq<Cycle>, p: Pool)
    ensures SoleCountV4(arena, metas, c, now, cycles, p) <= HitCountV4(arena, metas, c, now, cycles, p)
  {
    if cycles == [] {
    } else {
      SoleNeedsHitV4(arena, metas, c, now, cycles[..|cycles| - 1], p);
    }
  }

  lemma CountsStepV4(arena: Arena, metas: Metas, c: Cooldowns, now: nat, cycles: seq<Cycle>, i: nat, p: Pool)
    requires i < |cycles|
    ensures SoleCountV4(arena, metas, c, now, cycles[..i + 1], p)
         == SoleCountV4(arena, metas, c, now, cycles[..i], p) + if SoleV4(arena, metas, c, now, cycles[i], p) then 1 else 0
    ensures HitCountV4(arena, metas, c, now, cycles[..i + 1], p)
         == HitCountV4(arena, metas, c, now, cycles[..i], p) + if p in FetchableV4(arena, metas, c, now, cycles[i]) then 1 else 0
    ensures SoleCountV4(arena, metas, c, now, cycles[..i], p) <= HitCountV4(arena, metas, c, now, cycles[..i], p)
  {
    assert cycles[..i + 1][..i] == cycles[..i];
    SoleNeedsHitV4(arena, metas, c, now, cycles[..i], p);
  }

  lemma BumpedScoreV4(arena: Arena, metas: Metas, c: Cooldowns, now: nat, cycles: seq<Cycle>, i: nat, p: Pool,
                      s: Score, liquidity: nat, sole: bool)
    requires i < |cycles| && p in FetchableV4(arena, metas, c, now, cycles[i]) && LiquidityV4(arena, p, liquidity)
    requires sole <==> SoleV4(arena, metas, c, now, cycles[i], p)
    requires ScoreV4(arena, metas, c, now, cycles[..i], p, s)
          || (HitCountV4(arena, metas, c, now, cycles[..i], p) == 0 && s == Score(0, 0, liquidity))
    ensures ScoreV4(arena, metas, c, now, cycles[..i + 1], p, Bumped(s, sole, liquidity))
  {
    CountsStepV4(arena, metas, c, now, cycles, i, p);
  }

  lemma KeptScoreV4(arena: Arena, metas: Metas, c: Cooldowns, now: nat, cycles: seq<Cycle>, i: nat, p: Pool, s: Score)
    requires i < |cycles| && p !in FetchableV4(arena, metas, c, now, cycles[i])
    requires ScoreV4(arena, metas, c, now, cycles[..i], p, s)
    ensures ScoreV4(arena, metas, c, now, cycles[..i + 1], p, s)
  {
    CountsStepV4(arena, metas, c, now, cycles, i, p);
  }

  lemma AddCycleV4(arena: Arena, metas: Metas, c: Cooldowns, now: nat, cycles: seq<Cycle>, i: nat, freq: map<Pool, Score>,
                   fetchable: seq<(Pool, nat)>, sole: bool, out: map<Pool, Score>)
    requires i < |cycles| && ScoresV4(arena, metas, c, now, cycles[..i], freq)
    requires DistinctKeys(fetchable) && KeysOf(fetchable) == FetchableV4(arena, metas, c, now, cycles[i])
    requires forall k :: 0 <= k < |fetchable| ==> LiquidityV4(arena, fetchable[k].0, fetchable[k].1)
    requires sole <==> !BlockedV4(arena, metas, c, now, cycles[i]) && |fetchable| == 1
    requires out.Keys == freq.Keys + KeysOf(fetchable)
    requires forall k :: k in freq && k !in KeysOf(fetchable) ==> out[k] == freq[k]
    requires forall k :: 0 <= k < |fetchable| ==>
      out[fetchable[k].0] == Bumped(Initial(freq, fetchable[k].0, fetchable[k].1), sole, fetchable[k].1)
    ensures ScoresV4(arena, metas, c, now, cycles[..i + 1], out)
  {
    forall p: Pool
      ensures p in out <==> HitCountV4(arena, metas, c, now, cycles[..i + 1], p) > 0
    {
      CountsStepV4(arena, metas, c, now, cycles, i, p);
    }
    forall p | p in out
      ensures p in metas && ScoreV4(arena, metas, c, now, cycles[..i + 1], p, out[p])
    {
      if p in KeysOf(fetchable) {
        var k :| 0 <= k < |fetchable| && fetchable[k].0 == p;
        SoleMeansOneKey(fetchable, k);
        BumpedScoreV4(arena, metas, c, now, cycles, i, p, Initial(freq, p, fetchable[k].1), fetchable[k].1, sole);
      } else {
        KeptScoreV4(arena, metas, c, now, cycles, i, p, freq[p]);
      }
    }
  }

  /** The cycle loop of the V4 planner. */
  method ScoreV4Targets(arena: Arena, metas: Metas, c: Cooldowns, now: nat, cycles: seq<Cycle>) returns (freq: map<Pool, Score>)
    ensures ScoresV4(arena, metas, c, now, cycles, freq)
  {
    freq := map[];
    for i := 0 to |cycles|
      invariant ScoresV4(arena, metas, c, now, cycles[..i], freq)
    {
      var fetchable, blocked := ScanCycleV4(arena, metas, c, now, cycles[i]);
      var sole := !blocked && |fetchable| == 1;
      var next := AddCycle(freq, fetchable, sole);
      AddCycleV4(arena, metas, c, now, cycles, i, freq, fetchable, sole, next);
      freq := next;
    }
    assert cycles[..|cycles|] == cycles;
  }

  /** `tickless_v4_targets_prioritized`. */
  method TicklessV4Prioritized(arena: Arena, metas: Metas, c: Cooldowns, now: nat, cycles: seq<Cycle>, cap: nat)
    returns (total: nat, out: seq<(Pool, PoolId)>, ghost scores: map<Pool, Score>, ghost ranking: seq<Pool>)
    ensures ScoresV4(arena, metas, c, now, cycles, scores) && total == |scores|
    ensures IsRanking(scores, ranking) && |out| == Min(cap, total)
    ensures forall i :: 0 <= i < |out| ==> ranking[i] in metas && out[i] == (ranking[i], metas[ranking[i]])
    ensures |cycles| <= 0xffff_ffff ==> BestTargetsV4(arena, metas, c, now, cycles, Pools(out))
  {
    var freq := ScoreV4Targets(arena, metas, c, now, cycles);
    total := |freq|;
    var ranked := Rank(freq);
    scores, ranking := freq, ranked;
    out := [];
    for i := 0 to Min(cap, total)
      invariant |out| == i
      invariant forall k :: 0 <= k < i ==> ranked[k] in metas && out[k] == (ranked[k], metas[ranked[k]])
    {
      assert ranked[i] in ranked;
      out := out + [(ranked[i], metas[ranked[i]])];
    }
    assert Pools(out) == ranking[..|out|];
    if |cycles| <= 0xffff_ffff {
      CutIsBestV4(arena, metas, c, now, cycles, scores, ranking, |out|);
    }
  }

  // ---------------------------------------------------------------- the shared cap

  /** `tickless_cl_targets_shared_cap`: both lists are cut rankings, together they use the whole
      cap as far as there is work, and V4 gets a slot whenever both families need work and the
      cap allows two. */
  method SharedCapTargets(arena: Arena, metas: Metas, c: Cooldowns, now: nat, cycles: seq<Cycle>, cap: nat)
    returns (v3Total: nat, v3: seq<Address>, v4Total: nat, v4: seq<(Pool, PoolId)>,
             ghost scores3: map<Address, Score>, ghost ranking3: seq<Address>,
             ghost scores4: map<Pool, Score>, ghost ranking4: seq<Pool>)
    requires AddressesIdentify(arena)
    ensures ScoresV3(arena, c, now, cycles, scores3) && v3Total == |scores3|
    ensures ScoresV4(arena, metas, c, now, cycles, scores4) && v4Total == |scores4|
    ensures IsRanking(scores3, ranking3) && v3 <= ranking3
    ensures IsRanking(scores4, ranking4) && |v4| <= |ranking4|
    ensures forall i :: 0 <= i < |v4| ==> ranking4[i] in metas && v4[i] == (ranking4[i], metas[ranking4[i]])
    ensures |v3| + |v4| == Min(cap, v3Total + v4Total)
    ensures v3Total > 0 && v4Total > 0 && cap >= 2 ==> |v4| >= 1 && |v3| >= 1
    ensures |v3| == Min(v3Total, if v4Total > 0 && cap >= 2 then cap - 1 else cap)
    ensures ArenaOk(arena) && |cycles| <= 0xffff_ffff ==> BestTargetsV3(arena, c, now, cycles, v3)
    ensures |cycles| <= 0xffff_ffff ==> BestTargetsV4(arena, metas, c, now, cycles, Pools(v4))
  {
    v3Total, v3, scores3, ranking3 := TicklessV3Prioritized(arena, c, now, cycles, cap);
    v4Total, v4, scores4, ranking4 := TicklessV4Prioritized(arena, metas, c, now, cycles, cap);
    var v4Reserve := if v4Total > 0 && v3Total > 0 && cap >= 2 then 1 else 0;
    v3 := v3[..Min(|v3|, cap - v4Reserve)];
    v4 := v4[..Min(|v4|, cap - |v3|)];
    if |cycles| <= 0xffff_ffff {
      PrefixIsBestV3(arena, metas, c, now, cycles, scores3, ranking3, v3);
      PrefixIsBestV4(arena, metas, c, now, cycles, scores4, ranking4, v4);
    }
  }

  lemma PrefixIsBestV3(arena: Arena, metas: Metas, c: Cooldowns, now: nat, cycles: seq<Cycle>, scores: map<Address, Score>,
                       ranking: seq<Address>, out: seq<Address>)
    requires |cycles| <= 0xffff_ffff && ScoresV3(arena, c, now, cycles, scores)
    requires IsRanking(scores, ranking) && out <= ranking
    ensures ArenaOk(arena) ==> BestTargetsV3(arena, c, now, cycles, out)
  {
    if ArenaOk(arena) {
      assert out == ranking[..|out|];
      CutIsBestV3(arena, metas, c, now, cycles, scores, ranking, |out|);
    }
  }

  lemma PrefixIsBestV4(arena: Arena, metas: Metas, c: Cooldowns, now: nat, cycles: seq<Cycle>, scores: map<Pool, Score>,
                       ranking: seq<Pool>, out: seq<(Pool, PoolId)>)
    requires |cycles| <= 0xffff_ffff && ScoresV4(arena, metas, c, now, cycles, scores)
    requires IsRanking(scores, ranking) && |out| <= |ranking|
    requires forall i :: 0 <= i < |out| ==> ranking[i] in metas && out[i] == (ranking[i], metas[ranking[i]])
    ensures BestTargetsV4(arena, metas, c, now, cycles, Pools(out))
  {
    assert Pools(out) == ranking[..|out|];
    CutIsBestV4(arena, metas, c, now, cycles, scores, ranking, |out|);
  }

  lemma {:induction false} HitIsFetchableV3(arena: Arena, c: Cooldowns, now: nat, cycles: seq<Cycle>, a: Address)
    requires HitCountV3(arena, c, now, cycles, a) > 0
    ensures exists p :: p in arena.states && arena.states[p].V3? && p in arena.addresses && arena.addresses[p] == a
    ensures !OnHydrateCooldown(c, a, None, now)
  {
    var n := |cycles| - 1;
    if a !in FetchableV3(arena, c, now, cycles[n]) {
      HitIsFetchableV3(arena, c, now, cycles[..n], a);
    } else {
      var i :| 0 <= i < |cycles[n]| && TicklessV3(arena, cycles[n][i]) && cycles[n][i].pool in arena.addresses
               && arena.addresses[cycles[n][i].pool] == a;
    }
  }

  /** Every score the V3 planner ranks by is the exact number of cycles its pool unlocks, when no
      sole unlock hides a hop. */
  lemma ScoresV3AreUnlockDrops(arena: Arena, c: Cooldowns, now: nat, cycles: seq<Cycle>, scores: map<Address, Score>, p: Pool)
    requires AddressesIdentify(arena)
    requires ScoresV3(arena, c, now, cycles, scores)
    requires p in arena.addresses && arena.addresses[p] in scores
    ensures CountTickless(Hydrated(arena, p), cycles) <= CountTickless(arena, cycles)
    ensures var a, drop := arena.addresses[p], CountTickless(arena, cycles) - CountTickless(Hydrated(arena, p), cycles);
      && scores[a].sole == Saturate(drop + VoidCountV3(arena, c, now, cycles, a))
      && ((forall x :: x in cycles && SoleV3(arena, c, now, x, a) ==> !HidesV3(arena, x)) ==>
            scores[a].sole == Saturate(drop))
      && (ArenaOk(arena) ==> scores[a].sole == Saturate(drop))
  {
    if ArenaOk(arena) {
      forall x | x in cycles
        ensures !HidesV3(arena, x)
      {
        ArenaHidesNothing(arena, x);
      }
    }
    HitIsFetchableV3(arena, c, now, cycles, arena.addresses[p]);
    SoleCountV3IsDrop(arena, c, now, cycles, p);
    VoidCountV3Zero(arena, c, now, cycles, arena.addresses[p]);
    DropIsNatural(arena, p, cycles);
  }

  lemma {:induction false} DropIsNatural(arena: Arena, p: Pool, cycles: seq<Cycle>)
    ensures CountTickless(Hydrated(arena, p), cycles) <= CountTickless(arena, cycles)
  {
    if cycles == [] {
    } else {
      DropIsNatural(arena, p, cycles[..|cycles| - 1]);
      HydratingOnlyHelps(arena, p, cycles[|cycles| - 1]);
    }
  }

  lemma {:induction false} HitIsFetchableV4(arena: Arena, metas: Metas, c: Cooldowns, now: nat, cycles: seq<Cycle>, p: Pool)
    requires HitCountV4(arena, metas, c, now, cycles, p) > 0
    ensures p in arena.states && arena.states[p].V4? && p in metas && !CooledV4(arena, metas, c, now, p)
  {
    var n := |cycles| - 1;
    if p !in FetchableV4(arena, metas, c, now, cycles[n]) {
      HitIsFetchableV4(arena, metas, c, now, cycles[..n], p);
    }
  }

  /** Every score the V4 planner ranks by is the exact number of cycles its pool unlocks. */
  lemma ScoresV4AreUnlockDrops(arena: Arena, metas: Metas, c: Cooldowns, now: nat, cycles: seq<Cycle>,
                               scores: map<Pool, Score>, p: Pool)
    requires ScoresV4(arena, metas, c, now, cycles, scores) && p in scores
    ensures CountTickless(Hydrated(arena, p), cycles) <= CountTickless(arena, cycles)
    ensures scores[p].sole == Saturate(CountTickless(arena, cycles) - CountTickless(Hydrated(arena, p), cycles))
  {
    HitIsFetchableV4(arena, metas, c, now, cycles, p);
    SoleCountV4IsDrop(arena, metas, c, now, cycles, p);
  }

  // ---------------------------------------------------------------- what the order means

  /** Loading the pool at `a` first is the better choice: fewer cycles stay tickless, or as few and more cycles have it
      as a fetchable hop, or as many and it is at least as liquid. */
  ghost predicate UnlocksFirstV3(arena: Arena, c: Cooldowns, now: nat, cycles: seq<Cycle>, a: Address, b: Address) {
    forall p, q :: PoolAt(arena, p, a) && PoolAt(arena, q, b) ==>
      && p in arena.states && q in arena.states && arena.states[p].V3? && arena.states[q].V3?
      && var x, y := CountTickless(Hydrated(arena, p), cycles), CountTickless(Hydrated(arena, q), cycles);
         var hitsA, hitsB := HitCountV3(arena, c, now, cycles, a), HitCountV3(arena, c, now, cycles, b);
         x < y || (x == y && (hitsA > hitsB
                              || (hitsA == hitsB && arena.states[p].liquidity >= arena.states[q].liquidity)))
  }

  predicate PoolAt(arena: Arena, p: Pool, a: Address) { p in arena.addresses && arena.addresses[p] == a }

  ghost predicate UnlocksFirstV4(arena: Arena, metas: Metas, c: Cooldowns, now: nat, cycles: seq<Cycle>, p: Pool, q: Pool) {
    && p in arena.states && q in arena.states && arena.states[p].V4? && arena.states[q].V4?
    && var x, y := CountTickless(Hydrated(arena, p), cycles), CountTickless(Hydrated(arena, q), cycles);
       var hitsP, hitsQ := HitCountV4(arena, metas, c, now, cycles, p), HitCountV4(arena, metas, c, now, cycles, q);
       x < y || (x == y && (hitsP > hitsQ
                            || (hitsP == hitsQ && arena.states[p].liquidity >= arena.states[q].liquidity)))
  }

  /** The targets are fetchable pools in that order, and no fetchable pool left out should have come before one. */
  ghost predicate BestTargetsV3(arena: Arena, c: Cooldowns, now: nat, cycles: seq<Cycle>, out: seq<Address>) {
    && (forall i :: 0 <= i < |out| ==> HitCountV3(arena, c, now, cycles, out[i]) > 0)
    && (forall i, j :: 0 <= i < j < |out| ==> UnlocksFirstV3(arena, c, now, cycles, out[i], out[j]))
    && (forall i, b :: 0 <= i < |out| && HitCountV3(arena, c, now, cycles, b) > 0 && b !in out ==>
          UnlocksFirstV3(arena, c, now, cycles, out[i], b))
  }

  ghost predicate BestTargetsV4(arena: Arena, metas: Metas, c: Cooldowns, now: nat, cycles: seq<Cycle>, out: seq<Pool>) {
    && (forall i :: 0 <= i < |out| ==> HitCountV4(arena, metas, c, now, cycles, out[i]) > 0)
    && (forall i, j :: 0 <= i < j < |out| ==> UnlocksFirstV4(arena, metas, c, now, cycles, out[i], out[j]))
    && (forall i, q :: 0 <= i < |out| && HitCountV4(arena, metas, c, now, cycles, q) > 0 && q !in out ==>
          UnlocksFirstV4(arena, metas, c, now, cycles, out[i], q))
  }

  lemma {:induction false} CountsFit(arena: Arena, metas: Metas, c: Cooldowns, now: nat, cycles: seq<Cycle>, a: Address, p: Pool)
    ensures CountTickless(arena, cycles) <= |cycles|
    ensures HitCountV3(arena, c, now, cycles, a) <= |cycles| && HitCountV4(arena, metas, c, now, cycles, p) <= |cycles|
  {
    if cycles == [] {
    } else {
      CountsFit(arena, metas, c, now, cycles[..|cycles| - 1], a, p);
    }
  }

  /** A pool proven empty is not fetched before its deadline. */
  lemma EmptyIsNotFetched(arena: Arena, metas: Metas, c: Cooldowns, now: nat, cycle: Cycle, p: Pool)
    requires p in arena.addresses
    ensures arena.addresses[p] in c.emptyTick && now < c.emptyTick[arena.addresses[p]] ==>
      arena.addresses[p] !in FetchableV3(arena, c, now, cycle) && p !in FetchableV4(arena, metas, c, now, cycle)
    ensures p in metas && metas[p] in c.emptyV4 && now < c.emptyV4[metas[p]] ==> p !in FetchableV4(arena, metas, c, now, cycle)
  {
  }

  /** And from the deadline on, any tickless pool with an address, or for V4 an id, is. */
  lemma ExpiredIsFetched(arena: Arena, metas: Metas, c: Cooldowns, now: nat, cycle: Cycle, i: nat)
    requires i < |cycle| && cycle[i].pool in arena.addresses
    requires forall a :: a in c.emptyTick ==> c.emptyTick[a] <= now
    requires forall d :: d in c.emptyV4 ==> c.emptyV4[d] <= now
    ensures TicklessV3(arena, cycle[i]) ==> arena.addresses[cycle[i].pool] in FetchableV3(arena, c, now, cycle)
    ensures TicklessV4(arena, cycle[i]) && cycle[i].pool in metas ==> cycle[i].pool in FetchableV4(arena, metas, c, now, cycle)
  {
  }

  /** A score no worse means the pool unlocks first. */
  lemma NoWorseUnlocksV3(arena: Arena, metas: Metas, c: Cooldowns, now: nat, cycles: seq<Cycle>, scores: map<Address, Score>,
                         a: Address, b: Address)
    requires ArenaOk(arena) && |cycles| <= 0xffff_ffff && ScoresV3(arena, c, now, cycles, scores)
    requires a in scores && b in scores && !Better(scores[b], scores[a])
    ensures UnlocksFirstV3(arena, c, now, cycles, a, b)
  {
    CountsFit(arena, metas, c, now, cycles, a, 0);
    CountsFit(arena, metas, c, now, cycles, b, 0);
    HitIsFetchableV3(arena, c, now, cycles, a);
    HitIsFetchableV3(arena, c, now, cycles, b);
    forall p, q | PoolAt(arena, p, a) && PoolAt(arena, q, b)
      ensures CountTickless(Hydrated(arena, p), cycles) + scores[a].sole == CountTickless(arena, cycles)
      ensures CountTickless(Hydrated(arena, q), cycles) + scores[b].sole == CountTickless(arena, cycles)
    {
      ScoresV3AreUnlockDrops(arena, c, now, cycles, scores, p);
      ScoresV3AreUnlockDrops(arena, c, now, cycles, scores, q);
    }
  }

  lemma NoWorseUnlocksV4(arena: Arena, metas: Metas, c: Cooldowns, now: nat, cycles: seq<Cycle>, scores: map<Pool, Score>,
                         p: Pool, q: Pool)
    requires |cycles| <= 0xffff_ffff && ScoresV4(arena, metas, c, now, cycles, scores)
    requires p in scores && q in scores && !Better(scores[q], scores[p])
    ensures UnlocksFirstV4(arena, metas, c, now, cycles, p, q)
  {
    CountsFit(arena, metas, c, now, cycles, 0, p);
    CountsFit(arena, metas, c, now, cycles, 0, q);
    HitIsFetchableV4(arena, metas, c, now, cycles, p);
    HitIsFetchableV4(arena, metas, c, now, cycles, q);
    ScoresV4AreUnlockDrops(arena, metas, c, now, cycles, scores, p);
    ScoresV4AreUnlockDrops(arena, metas, c, now, cycles, scores, q);
  }

  /** A hop whose pool cannot be fetched because it is proven empty, is stuck for the drain as well. */
  lemma EmptyIsStuck(arena: Arena, metas: Metas, c: Cooldowns, now: nat, e: Edge)
    requires e.pool in arena.addresses
    ensures TicklessV3(arena, e) && OnHydrateCooldown(c, arena.addresses[e.pool], None, now) ==>
      StuckHop(arena, metas, c, now, e)
    ensures TicklessV4(arena, e) && e.pool in metas && CooledV4(arena, metas, c, now, e.pool) ==>
      StuckHop(arena, metas, c, now, e)
    ensures TicklessV4(arena, e) && e.pool !in metas ==> StuckHop(arena, metas, c, now, e)
  {
  }

  /** Every cut of a ranking is the best choice of that many targets. */
  lemma CutIsBestV3(arena: Arena, metas: Metas, c: Cooldowns, now: nat, cycles: seq<Cycle>, scores: map<Address, Score>,
                    ranking: seq<Address>, n: nat)
    requires ArenaOk(arena) && |cycles| <= 0xffff_ffff && ScoresV3(arena, c, now, cycles, scores)
    requires IsRanking(scores, ranking) && n <= |ranking|
    ensures BestTargetsV3(arena, c, now, cycles, ranking[..n])
  {
    var out := ranking[..n];
    assert forall i :: 0 <= i < |ranking| ==> ranking[i] in ranking && ranking[i] in scores;
    forall i, j | 0 <= i < j < |ranking|
      ensures UnlocksFirstV3(arena, c, now, cycles, ranking[i], ranking[j])
    {
      NoWorseUnlocksV3(arena, metas, c, now, cycles, scores, ranking[i], ranking[j]);
    }
    forall i, b | 0 <= i < |out| && HitCountV3(arena, c, now, cycles, b) > 0 && b !in out
      ensures UnlocksFirstV3(arena, c, now, cycles, out[i], b)
    {
      LeftOutIsLater(scores, ranking, n, b);
      var j :| n <= j < |ranking| && ranking[j] == b;
    }
  }

  lemma LeftOutIsLater<K(!new)>(scores: map<K, Score>, ranking: seq<K>, n: nat, k: K)
    requires IsRanking(scores, ranking) && n <= |ranking| && k in scores && k !in ranking[..n]
    ensures exists j :: n <= j < |ranking| && ranking[j] == k
  {
    var j :| 0 <= j < |ranking| && ranking[j] == k;
    assert forall i :: 0 <= i < n ==> ranking[i] in ranking[..n];
  }

  lemma CutIsBestV4(arena: Arena, metas: Metas, c: Cooldowns, now: nat, cycles: seq<Cycle>, scores: map<Pool, Score>,
                    ranking: seq<Pool>, n: nat)
    requires |cycles| <= 0xffff_ffff && ScoresV4(arena, metas, c, now, cycles, scores)
    requires IsRanking(scores, ranking) && n <= |ranking|
    ensures BestTargetsV4(arena, metas, c, now, cycles, ranking[..n])
  {
    var out := ranking[..n];
    assert forall i :: 0 <= i < |ranking| ==> ranking[i] in ranking && ranking[i] in scores;
    forall i, j | 0 <= i < j < |ranking|
      ensures UnlocksFirstV4(arena, metas, c, now, cycles, ranking[i], ranking[j])
    {
      NoWorseUnlocksV4(arena, metas, c, now, cycles, scores, ranking[i], ranking[j]);
    }
    forall i, q | 0 <= i < |out| && HitCountV4(arena, metas, c, now, cycles, q) > 0 && q !in out
      ensures UnlocksFirstV4(arena, metas, c, now, cycles, out[i], q)
    {
      LeftOutIsLater(scores, ranking, n, q);
      var j :| n <= j < |ranking| && ranking[j] == q;
    }
  }

  function Pools(targets: seq<(Pool, PoolId)>): seq<Pool> {
    seq(|targets|, i requires 0 <= i < |targets| => targets[i].0)
  }

  // ---------------------------------------------------------------- arming and draining

  /** `cycle_tickless_cl_hf_hydrate_exhausted`: there is a tickless hop, and no tickless hop can
      be hydrated in this cooldown window. */
  predicate Exhausted(arena: Arena, metas: Metas, c: Cooldowns, now: nat, cycle: Cycle) {
    && HasTickless(arena, cycle)
    && forall i :: 0 <= i < |cycle| && Tickless(arena, cycle[i]) ==> StuckHop(arena, metas, c, now, cycle[i])
  }

  predicate StuckHop(arena: Arena, metas: Metas, c: Cooldowns, now: nat, e: Edge) {
    && e.pool in arena.addresses
    && (if e.protocol == UniswapV3 then OnProbeCooldown(c, arena.addresses[e.pool], None, now)
        else e.pool !in metas || OnProbeCooldown(c, arena.addresses[e.pool], Some(metas[e.pool]), now))
  }

  /** The edge loop of `cycle_tickless_cl_hf_hydrate_exhausted`, with its early exits. */
  method CycleExhausted(arena: Arena, metas: Metas, c: Cooldowns, now: nat, cycle: Cycle) returns (r: bool)
    ensures r == Exhausted(arena, metas, c, now, cycle)
  {
    var sawTickless := false;
    for i := 0 to |cycle|
      invariant sawTickless <==> exists k :: 0 <= k < i && Tickless(arena, cycle[k])
      invariant forall k :: 0 <= k < i && Tickless(arena, cycle[k]) ==> StuckHop(arena, metas, c, now, cycle[k])
    {
      var e := cycle[i];
      if TicklessV3(arena, e) {
        sawTickless := true;
        if e.pool !in arena.addresses || !OnProbeCooldown(c, arena.addresses[e.pool], None, now) {
          return false;
        }
      } else if TicklessV4(arena, e) {
        sawTickless := true;
        if e.pool !in arena.addresses {
          return false;
        }
        if e.pool in metas && !OnProbeCooldown(c, arena.addresses[e.pool], Some(metas[e.pool]), now) {
          return false;
        }
      }
    }
    return sawTickless;
  }

  /** `m'` is `m` after marking `keys` at `now`: each key lasts until `until`, or longer if it already did; every
      other entry still running is as it was; and nothing else is there. */
  ghost predicate Marked<K(!new)>(m: map<K, nat>, keys: set<K>, now: nat, until: nat, m': map<K, nat>) {
    && (forall k :: k in m' <==> k in keys || (k in m && m[k] > now))
    && (forall k :: k in m' ==> m'[k] == if k in keys then (if k in m then Max(m[k], until) else until) else m[k])
  }

  /** `mark_tick_cooldown`. */
  function Mark<K(==, !new)>(m: map<K, nat>, keys: set<K>, now: nat, cooldown: nat): (r: map<K, nat>)
    ensures Marked(m, keys, now, now + cooldown, r)
  {
    map k | k in m.Keys + keys && (k in keys || m[k] > now) ::
      if k !in keys then m[k]
      else if k in m && m[k] > now + cooldown then m[k]
      else now + cooldown
  }

  /** The addresses its tickless V3 hops are armed under, and the ids its tickless V4 hops are. */
  ghost function AddressesToArm(arena: Arena, cycle: Cycle): set<Address> {
    set i | 0 <= i < |cycle| && TicklessV3(arena, cycle[i]) && cycle[i].pool in arena.addresses
      :: arena.addresses[cycle[i].pool]
  }

  ghost function IdsToArm(arena: Arena, metas: Metas, cycle: Cycle): set<PoolId> {
    set i | 0 <= i < |cycle| && TicklessV4(arena, cycle[i]) && cycle[i].pool in metas :: metas[cycle[i].pool]
  }

  /** Every tickless hop's pool has an address. */
  predicate TicklessAddressed(arena: Arena, cycle: Cycle) {
    forall i :: 0 <= i < |cycle| && Tickless(arena, cycle[i]) ==> cycle[i].pool in arena.addresses
  }

  predicate Armable(arena: Arena, metas: Metas, e: Edge) {
    (TicklessV3(arena, e) && e.pool in arena.addresses) || (TicklessV4(arena, e) && e.pool in metas)
  }

  function CountArmable(arena: Arena, metas: Metas, cycle: Cycle): nat {
    if cycle == [] then 0
    else
      var n := |cycle| - 1;
      CountArmable(arena, metas, cycle[..n]) + if Armable(arena, metas, cycle[n]) then 1 else 0
  }

  /** The hops of `cycle` are armed: their cooldown outlasts `until`. */
  ghost predicate Armed(arena: Arena, metas: Metas, c: Cooldowns, cycle: Cycle, until: nat) {
    && (forall a :: a in AddressesToArm(arena, cycle) ==> a in c.narrowMiss && c.narrowMiss[a] >= until)
    && (forall d :: d in IdsToArm(arena, metas, cycle) ==> d in c.narrowMissV4 && c.narrowMissV4[d] >= until)
  }

  /** Later deadlines only: what was running at `now` still runs, at least as long. */
  ghost predicate Extends(c: Cooldowns, c': Cooldowns, now: nat) {
    && c'.emptyTick == c.emptyTick && c'.emptyV4 == c.emptyV4
    && (forall a :: On(c.narrowMiss, a, now) ==> a in c'.narrowMiss && c'.narrowMiss[a] >= c.narrowMiss[a])
    && (forall d :: On(c.narrowMissV4, d, now) ==> d in c'.narrowMissV4 && c'.narrowMissV4[d] >= c.narrowMissV4[d])
  }

  /** Arming by hand what arming promises: exhausted, exactly unless a tickless hop's pool has
      no address. */
  lemma ArmedIsExhausted(arena: Arena, metas: Metas, c: Cooldowns, cycle: Cycle, until: nat, t: nat)
    requires Armed(arena, metas, c, cycle, until) && t < until && HasTickless(arena, cycle)
    ensures Exhausted(arena, metas, c, t, cycle)
       <==> TicklessAddressed(arena, cycle)
  {
    forall i | 0 <= i < |cycle| && Tickless(arena, cycle[i]) && cycle[i].pool in arena.addresses
      ensures StuckHop(arena, metas, c, t, cycle[i])
    {
      if TicklessV3(arena, cycle[i]) {
        assert arena.addresses[cycle[i].pool] in AddressesToArm(arena, cycle);
      } else if cycle[i].pool in metas {
        assert metas[cycle[i].pool] in IdsToArm(arena, metas, cycle);
      }
    }
  }

  lemma ArmedExtends(arena: Arena, metas: Metas, c: Cooldowns, c': Cooldowns, cycle: Cycle, until: nat, now: nat)
    requires Armed(arena, metas, c, cycle, until) && Extends(c, c', now) && now < until
    ensures Armed(arena, metas, c', cycle, until)
  {
  }

  /** The edge loop of `mark_cycle_tickless_cl_probe_miss`. */
  method CollectMisses(arena: Arena, metas: Metas, cycle: Cycle)
    returns (v3: set<Address>, v4: set<PoolId>, marked: nat)
    ensures forall a :: a in v3 <==> a in AddressesToArm(arena, cycle)
    ensures forall d :: d in v4 <==> d in IdsToArm(arena, metas, cycle)
    ensures marked == CountArmable(arena, metas, cycle)
  {
    v3, v4, marked := {}, {}, 0;
    for i := 0 to |cycle|
      invariant forall k :: 0 <= k < i && TicklessV3(arena, cycle[k]) && cycle[k].pool in arena.addresses ==>
                  arena.addresses[cycle[k].pool] in v3
      invariant forall k :: 0 <= k < i && TicklessV4(arena, cycle[k]) && cycle[k].pool in metas ==>
                  metas[cycle[k].pool] in v4
      invariant forall a :: a in v3 ==> a in AddressesToArm(arena, cycle)
      invariant forall d :: d in v4 ==> d in IdsToArm(arena, metas, cycle)
      invariant marked == CountArmable(arena, metas, cycle[..i])
    {
      assert cycle[..i + 1][..i] == cycle[..i];
      var e := cycle[i];
      if TicklessV3(arena, e) {
        if e.pool in arena.addresses {
          v3, marked := v3 + {arena.addresses[e.pool]}, marked + 1;
        }
      } else if TicklessV4(arena, e) {
        if e.pool in metas {
          v4, marked := v4 + {metas[e.pool]}, marked + 1;
        }
      }
    }
    assert cycle[..|cycle|] == cycle;
  }

  /** The tables after arming one cycle at `now`. */
  ghost function ArmCycle(c: Cooldowns, arena: Arena, metas: Metas, cycle: Cycle, now: nat): Cooldowns {
    var v3, v4 := AddressesToArm(arena, cycle), IdsToArm(arena, metas, cycle);
    c.(narrowMiss := if v3 == {} then c.narrowMiss else Mark(c.narrowMiss, v3, now, PROBE_NARROW_MISS_COOLDOWN_MS),
       narrowMissV4 := if v4 == {} then c.narrowMissV4 else Mark(c.narrowMissV4, v4, now, PROBE_NARROW_MISS_COOLDOWN_MS))
  }

  /** The tables after arming the still-tickless ones of the first `n` cycles. */
  ghost function ArmAll(c: Cooldowns, arena: Arena, metas: Metas, cycles: seq<Cycle>, clock: seq<nat>, n: nat): Cooldowns
    requires n <= |cycles| == |clock|
  {
    if n == 0 then c
    else
      var before := ArmAll(c, arena, metas, cycles, clock, n - 1);
      if HasTickless(arena, cycles[n - 1]) then ArmCycle(before, arena, metas, cycles[n - 1], clock[n - 1]) else before
  }

  /** The miss lasts 30 seconds: armed at `now` and not before, a hop is stuck until then and free again from then on. */
  lemma MissLasts30Seconds(c: Cooldowns, arena: Arena, metas: Metas, cycle: Cycle, now: nat, t: nat, i: nat)
    requires c == Cooldowns(map[], map[], map[], map[]) && i < |cycle| && now <= t
    requires cycle[i].pool in arena.addresses
    requires TicklessV3(arena, cycle[i]) || (TicklessV4(arena, cycle[i]) && cycle[i].pool in metas)
    ensures StuckHop(arena, metas, ArmCycle(c, arena, metas, cycle, now), t, cycle[i]) <==> t < now + 30_000
  {
    var e, after := cycle[i], ArmCycle(c, arena, metas, cycle, now);
    if TicklessV3(arena, e) {
      assert arena.addresses[e.pool] in AddressesToArm(arena, cycle);
      assert after.narrowMiss[arena.addresses[e.pool]] == now + 30_000;
    } else {
      assert metas[e.pool] in IdsToArm(arena, metas, cycle);
      assert after.narrowMissV4[metas[e.pool]] == now + 30_000;
    }
  }

  /** A deadline after arming is the one from before, or one cooldown after the reading taken for a tickless cycle
      that has the hop. */
  ghost predicate DeadlineV3(c: Cooldowns, arena: Arena, cycles: seq<Cycle>, clock: seq<nat>, n: nat, a: Address, d: nat)
    requires n <= |cycles| == |clock|
  {
    || (a in c.narrowMiss && d == c.narrowMiss[a])
    || exists i :: 0 <= i < n && a in AddressesToArm(arena, cycles[i]) && d == clock[i] + PROBE_NARROW_MISS_COOLDOWN_MS
  }

  ghost predicate DeadlineV4(c: Cooldowns, arena: Arena, metas: Metas, cycles: seq<Cycle>, clock: seq<nat>, n: nat,
                             id: PoolId, d: nat)
    requires n <= |cycles| == |clock|
  {
    || (id in c.narrowMissV4 && d == c.narrowMissV4[id])
    || exists i :: 0 <= i < n && id in IdsToArm(arena, metas, cycles[i]) && d == clock[i] + PROBE_NARROW_MISS_COOLDOWN_MS
  }

  /** Arming a cycle arms its hops and shortens nothing. */
  lemma ArmCycleArms(c: Cooldowns, arena: Arena, metas: Metas, cycle: Cycle, now: nat)
    ensures Armed(arena, metas, ArmCycle(c, arena, metas, cycle, now), cycle, now + PROBE_NARROW_MISS_COOLDOWN_MS)
    ensures Extends(c, ArmCycle(c, arena, metas, cycle, now), now)
  {
  }

  /** Marking at `now` leaves alone, or extends, what is armed beyond it. */
  lemma ArmingKeepsArmed(c: Cooldowns, arena: Arena, metas: Metas, cycle: Cycle, other: Cycle, now: nat, until: nat)
    requires Armed(arena, metas, c, other, until) && now < until
    ensures Armed(arena, metas, ArmCycle(c, arena, metas, cycle, now), other, until)
  {
    ArmCycleArms(c, arena, metas, cycle, now);
    ArmedExtends(arena, metas, c, ArmCycle(c, arena, metas, cycle, now), other, until, now);
  }

  lemma ArmedSooner(c: Cooldowns, arena: Arena, metas: Metas, cycle: Cycle, until: nat, sooner: nat)
    requires Armed(arena, metas, c, cycle, until) && sooner <= until
    ensures Armed(arena, metas, c, cycle, sooner)
  {
  }

  lemma {:induction false} ArmAllArms(c: Cooldowns, arena: Arena, metas: Metas, cycles: seq<Cycle>, clock: seq<nat>, n: nat,
                                      k: nat, start: nat)
    requires k < n <= |cycles| == |clock| && HasTickless(arena, cycles[k])
    requires forall i :: 0 <= i < n ==> start <= clock[i] < start + PROBE_NARROW_MISS_COOLDOWN_MS
    ensures Armed(arena, metas, ArmAll(c, arena, metas, cycles, clock, n), cycles[k], start + PROBE_NARROW_MISS_COOLDOWN_MS)
  {
    var before, until := ArmAll(c, arena, metas, cycles, clock, n - 1), start + PROBE_NARROW_MISS_COOLDOWN_MS;
    var last, now := cycles[n - 1], clock[n - 1];
    if k == n - 1 {
      ArmCycleArms(before, arena, metas, last, now);
      ArmedSooner(ArmCycle(before, arena, metas, last, now), arena, metas, last, now + PROBE_NARROW_MISS_COOLDOWN_MS, until);
      assert ArmAll(c, arena, metas, cycles, clock, n) == ArmCycle(before, arena, metas, last, now);
    } else {
      ArmAllArms(c, arena, metas, cycles, clock, n - 1, k, start);
      if HasTickless(arena, last) {
        ArmingKeepsArmed(before, arena, metas, last, cycles[k], now, until);
        assert ArmAll(c, arena, metas, cycles, clock, n) == ArmCycle(before, arena, metas, last, now);
      } else {
        assert ArmAll(c, arena, metas, cycles, clock, n) == before;
      }
    }
  }

  lemma {:induction false} DeadlinesV3Explained(c: Cooldowns, arena: Arena, metas: Metas, cycles: seq<Cycle>, clock: seq<nat>,
                                                n: nat, a: Address)
    requires n <= |cycles| == |clock|
    ensures var after := ArmAll(c, arena, metas, cycles, clock, n);
      && (a in after.narrowMiss ==> DeadlineV3(c, arena, cycles, clock, n, a, after.narrowMiss[a]))
      && (a in c.narrowMiss && (forall i :: 0 <= i < n ==> c.narrowMiss[a] > clock[i]) ==>
            a in after.narrowMiss && after.narrowMiss[a] >= c.narrowMiss[a])
  {
    if n == 0 {
    } else {
      DeadlinesV3Explained(c, arena, metas, cycles, clock, n - 1, a);
    }
  }

  lemma {:induction false} DeadlinesV4Explained(c: Cooldowns, arena: Arena, metas: Metas, cycles: seq<Cycle>, clock: seq<nat>,
                                                n: nat, id: PoolId)
    requires n <= |cycles| == |clock|
    ensures var after := ArmAll(c, arena, metas, cycles, clock, n);
      && (id in after.narrowMissV4 ==> DeadlineV4(c, arena, metas, cycles, clock, n, id, after.narrowMissV4[id]))
      && (id in c.narrowMissV4 && (forall i :: 0 <= i < n ==> c.narrowMissV4[id] > clock[i]) ==>
            id in after.narrowMissV4 && after.narrowMissV4[id] >= c.narrowMissV4[id])
  {
    if n == 0 {
    } else {
      DeadlinesV4Explained(c, arena, metas, cycles, clock, n - 1, id);
    }
  }

  /** The shared cooldown tables. */
  class CooldownTables {
    var tables: Cooldowns

    constructor ()
      ensures tables == Cooldowns(map[], map[], map[], map[])
    {
      tables := Cooldowns(map[], map[], map[], map[]);
    }

    /** `mark_cycle_tickless_cl_probe_miss`: arm every tickless hop of the cycle. */
    method MarkProbeMiss(arena: Arena, metas: Metas, cycle: Cycle, now: nat) returns (marked: nat)
      modifies this
      ensures tables == ArmCycle(old(tables), arena, metas, cycle, now)
      ensures marked == CountArmable(arena, metas, cycle)
    {
      var v3, v4;
      v3, v4, marked := CollectMisses(arena, metas, cycle);
      assert v3 == AddressesToArm(arena, cycle) && v4 == IdsToArm(arena, metas, cycle);
      if v3 != {} {
        tables := tables.(narrowMiss := Mark(tables.narrowMiss, v3, now, PROBE_NARROW_MISS_COOLDOWN_MS));
      }
      if v4 != {} {
        tables := tables.(narrowMissV4 := Mark(tables.narrowMissV4, v4, now, PROBE_NARROW_MISS_COOLDOWN_MS));
      }
    }

    /** The tail of `hydrate_tickless_cl_for_cycles`: arm every cycle that is still tickless.
        `clock[i]` is the reading taken for cycle `i`; all lie within one cooldown. */
    method ArmStillTickless(arena: Arena, metas: Metas, cycles: seq<Cycle>, clock: seq<nat>, start: nat)
      requires |clock| == |cycles|
      requires forall i :: 0 <= i < |clock| ==> start <= clock[i] < start + PROBE_NARROW_MISS_COOLDOWN_MS
      modifies this
      ensures tables == ArmAll(old(tables), arena, metas, cycles, clock, |cycles|)
      ensures forall i :: 0 <= i < |cycles| && HasTickless(arena, cycles[i]) ==>
                Armed(arena, metas, tables, cycles[i], start + PROBE_NARROW_MISS_COOLDOWN_MS)
    {
      for i := 0 to |cycles|
        invariant tables == ArmAll(old(tables), arena, metas, cycles, clock, i)
      {
        if HasTickless(arena, cycles[i]) {
          var _ := MarkProbeMiss(arena, metas, cycles[i], clock[i]);
        }
      }
      forall k | 0 <= k < |cycles| && HasTickless(arena, cycles[k])
        ensures Armed(arena, metas, tables, cycles[k], start + PROBE_NARROW_MISS_COOLDOWN_MS)
      {
        ArmAllArms(old(tables), arena, metas, cycles, clock, |cycles|, k, start);
      }
    }
  }

  /** `retain` on a predicate, in order. */
  function Kept(arena: Arena, metas: Metas, c: Cooldowns, now: nat, cycles: seq<Cycle>): seq<Cycle> {
    if cycles == [] then []
    else
      var n := |cycles| - 1;
      var head := Kept(arena, metas, c, now, cycles[..n]);
      if Exhausted(arena, metas, c, now, cycles[n]) then head else head + [cycles[n]]
  }

  /** `drain_cooldown_stuck_tickless_cycles`: keeps the order, removes exactly the exhausted
      cycles, and never one without a tickless hop. */
  method DrainStuck(arena: Arena, metas: Metas, c: Cooldowns, now: nat, cycles: seq<Cycle>)
    returns (kept: seq<Cycle>, removed: nat)
    ensures kept == Kept(arena, metas, c, now, cycles) && |kept| + removed == |cycles|
    ensures forall x :: x in kept <==> x in cycles && !Exhausted(arena, metas, c, now, x)
    ensures forall x :: x in cycles && !HasTickless(arena, x) ==> x in kept
  {
    kept, removed := [], 0;
    for i := 0 to |cycles|
      invariant kept == Kept(arena, metas, c, now, cycles[..i]) && |kept| + removed == i
      invariant forall x :: x in kept <==> x in cycles[..i] && !Exhausted(arena, metas, c, now, x)
    {
      assert cycles[..i + 1][..i] == cycles[..i];
      assert cycles[..i + 1] == cycles[..i] + [cycles[i]];
      var stuck := CycleExhausted(arena, metas, c, now, cycles[i]);
      if stuck {
        removed := removed + 1;
      } else {
        kept := kept + [cycles[i]];
      }
    }
    assert cycles[..|cycles|] == cycles;
  }

  /** After a pass that attempted at least one pool, whatever the fetches loaded: arming the
      still-tickless cycles and draining leaves a tickless cycle exactly when one of its
      tickless hops has a pool without an address, and drains no priceable cycle. */
  method ArmAndDrain(t: CooldownTables, arena: Arena, metas: Metas, cycles: seq<Cycle>,
                     attempted: nat, clock: seq<nat>, start: nat, now: nat)
    returns (kept: seq<Cycle>)
    requires |clock| == |cycles|
    requires forall i :: 0 <= i < |clock| ==> start <= clock[i] <= now
    requires start <= now < start + PROBE_NARROW_MISS_COOLDOWN_MS
    modifies t
    ensures attempted >= 1 ==>
              forall x :: x in kept <==> x in cycles && (HasTickless(arena, x) ==> !TicklessAddressed(arena, x))
    ensures forall x :: x in cycles && !HasTickless(arena, x) ==> x in kept
    ensures attempted >= 1 && ArenaOk(arena) ==> forall x :: x in kept <==> x in cycles && !HasTickless(arena, x)
    ensures attempted == 0 ==> t.tables == old(t.tables)
  {
    var ticklessAfter := CountTickless(arena, cycles);
    if ticklessAfter > 0 && attempted > 0 {
      t.ArmStillTickless(arena, metas, cycles, clock, start);
    }
    var removed;
    kept, removed := DrainStuck(arena, metas, t.tables, now, cycles);
    if attempted >= 1 {
      forall x | x in cycles && HasTickless(arena, x)
        ensures Exhausted(arena, metas, t.tables, now, x) <==> TicklessAddressed(arena, x)
      {
        CountSees(arena, cycles, x);
        ArmedIsExhausted(arena, metas, t.tables, x, start + PROBE_NARROW_MISS_COOLDOWN_MS, now);
      }
    }
    if ArenaOk(arena) {
      forall x | x in cycles
        ensures TicklessAddressed(arena, x)
      {
        ArenaHidesNothing(arena, x);
      }
    }
  }

  lemma {:induction false} CountSees(arena: Arena, cycles: seq<Cycle>, x: Cycle)
    requires x in cycles && HasTickless(arena, x)
    ensures CountTickless(arena, cycles) > 0
  {
    var n := |cycles| - 1;
    if cycles[n] != x {
      assert x in cycles[..n];
      CountSees(arena, cycles[..n], x);
    }
  }
}
