/** The HF selection pass (`select_cycles_for_rescore` in src/orchestrator/hf.rs).

    Every snapshot cycle goes through a cascade of gates, which skips it under one of seven reasons,
    lists it as active, or lists it as inactive.  Active cycles get a few slots in execution order and the
    inactive ones rotate through the rest.  The gates are arbitrary functions. */
module Selection {

  import opened Prelude
  import opened Routes
  import opened Rotation
  import opened Sorting

  type Address = nat

  datatype FloorFailure = BalancerMaxInRatio | V2ReserveExhausted | OtherFailure

  datatype Gates = Gates(
    activity: Cycle -> nat,
    emptyExhausted: Cycle -> bool,
    reliableStart: Cycle -> Option<Cycle>,
    realignMulti: Cycle -> Option<Cycle>,
    heal: Cycle -> Option<Cycle>,
    realignUni: Cycle -> Option<Cycle>,
    hopBroken: Edges -> bool,
    matchesArena: Edges -> bool,
    matchesMeta: Edges -> bool,
    dustReserves: Edges -> bool,
    hasTickless: Cycle -> bool,
    microProfit: Cycle -> Option<nat>,
    floorProfit: Cycle -> Option<nat>,
    insaneGross: Cycle -> bool,
    belowReserve: Cycle -> bool,
    microDead: Cycle -> bool,
    floorDead: Cycle -> Option<FloorFailure>,
    needsTicks: Cycle -> bool,
    poolAddress: nat -> Option<Address>)

  datatype Reason =
    | Quarantine | Rate | TicklessStuck | ProtocolMismatch | V2Dead | MicroDead | BalFloorDead

  /** A skip may cool a route, and may anchor a live route's pools in the hot set; `[]` is neither. */
  datatype Verdict =
    | Skipped(why: Reason, cool: Edges, anchor: Edges)
    | Active(ready: Cycle, score: nat)
    | Inactive(ready: Cycle)

  // ---------------------------------------------------------------- the gates

  /** `anchor` for a live cycle, `cool` for one that is not. */
  function Mismatch(live: bool, e: Edges): Verdict {
    if live then Skipped(ProtocolMismatch, [], e) else Skipped(ProtocolMismatch, e, [])
  }

  function QuarantineSkip(live: bool, e: Edges): Verdict { Skipped(Quarantine, [], if live then e else []) }

  /** The gates on the raw snapshot cycle. */
  function Judge(g: Gates, cooled: set<Edges>, c: Cycle): Verdict {
    var live := g.activity(c) > 0;
    if g.emptyExhausted(c) && !live then Skipped(TicklessStuck, [], [])
    else if Quarantined(cooled, c.edges) then QuarantineSkip(live, c.edges)
    else
      match g.reliableStart(c)
      case None => Skipped(Rate, [], [])
      case Some(start) =>
        match g.realignMulti(start)
        case Some(ready) => JudgeShape(g, cooled, c, live, ready)
        case None =>
          if live then JudgeShape(g, cooled, c, live, start) else Skipped(MicroDead, start.edges, [])
  }

  /** The gates on protocols, metadata and hop continuity. */
  function JudgeShape(g: Gates, cooled: set<Edges>, c: Cycle, live: bool, aligned: Cycle): Verdict {
    match g.heal(aligned)
    case None => Mismatch(live, c.edges)
    case Some(healed) =>
      var sound := live && !g.hopBroken(healed.edges) && g.matchesArena(healed.edges);
      match g.realignUni(healed)
      case None => if sound then JudgeReady(g, cooled, live, healed) else Mismatch(live, healed.edges)
      case Some(ready) => JudgeReady(g, cooled, live, ready)
  }

  /** The gates on the remapped cycle. */
  function JudgeReady(g: Gates, cooled: set<Edges>, live: bool, ready: Cycle): Verdict {
    var e := ready.edges;
    if !g.matchesArena(e) || !g.matchesMeta(e) || g.hopBroken(e) then Mismatch(live, e)
    else if Quarantined(cooled, e) then QuarantineSkip(live, e)
    else if g.dustReserves(e) then Skipped(V2Dead, [], [])
    else if ZeroAtFloor(g, ready) then Skipped(MicroDead, e, [])
    else if g.activity(ready) > 0 then Active(ready, g.activity(ready))
    else if g.insaneGross(ready) then Skipped(MicroDead, [], [])
    else if g.belowReserve(ready) then Skipped(V2Dead, [], [])
    else if g.microDead(ready) then Skipped(MicroDead, [], [])
    else
      match g.floorDead(ready)
      case Some(BalancerMaxInRatio) => Skipped(BalFloorDead, [], [])
      case Some(V2ReserveExhausted) => Skipped(V2Dead, [], [])
      case Some(OtherFailure) => Skipped(MicroDead, [], [])
      case None => Inactive(ready)
  }

  /** A closed path that walks at micro size and yields nothing at the economic floor. */
  predicate ZeroAtFloor(g: Gates, c: Cycle) {
    && |c.edges| >= 2 && !g.hasTickless(c) && g.microProfit(c).Some?
    && (g.floorProfit(c).None? || g.floorProfit(c).value == 0)
  }

  /** What an admitted cycle is known to satisfy. */
  ghost predicate Sound(g: Gates, cooled: set<Edges>, ready: Cycle) {
    && g.matchesArena(ready.edges) && g.matchesMeta(ready.edges) && !g.hopBroken(ready.edges)
    && !Quarantined(cooled, ready.edges) && !g.dustReserves(ready.edges) && !ZeroAtFloor(g, ready)
  }

  /** Admission is sound whatever the route through the gates; a skip cools or anchors, never both; and a live
      cycle is cooled only when the floor walk shows it worthless. */
  lemma JudgeIsSound(g: Gates, cooled: set<Edges>, c: Cycle)
    ensures var v := Judge(g, cooled, c);
      match v
      case Active(ready, score) => Sound(g, cooled, ready) && score == g.activity(ready) > 0
      case Inactive(ready) => Sound(g, cooled, ready) && g.activity(ready) == 0
      case Skipped(why, cool, anchor) =>
        && (cool == [] || anchor == []) && (anchor != [] ==> g.activity(c) > 0)
        && (cool != [] && g.activity(c) > 0 ==> why == MicroDead && !Quarantined(cooled, cool))
  {
  }

  /** `ready` is what realigning and healing make of `c`; a live cycle survives a failed vault realignment, and
      a failed Uniswap one if its hops already fit. */
  ghost predicate Becomes(g: Gates, c: Cycle, ready: Cycle) {
    var live := g.activity(c) > 0;
    exists start: Cycle, aligned: Cycle, healed: Cycle ::
      && g.reliableStart(c) == Some(start)
      && (g.realignMulti(start) == Some(aligned) || (g.realignMulti(start).None? && live && aligned == start))
      && g.heal(aligned) == Some(healed)
      && (g.realignUni(healed) == Some(ready)
          || (g.realignUni(healed).None? && live && ready == healed
              && !g.hopBroken(ready.edges) && g.matchesArena(ready.edges)))
  }

  /** The gates admit exactly the cycles that are not stuck, not cooled, become a sound cycle, and are either
      active or liquid. */
  lemma JudgeAdmitsExactly(g: Gates, cooled: set<Edges>, c: Cycle, ready: Cycle)
    ensures var v := Judge(g, cooled, c);
      !v.Skipped? && v.ready == ready
      <==> (&& (g.emptyExhausted(c) ==> g.activity(c) > 0) && !Quarantined(cooled, c.edges)
            && Becomes(g, c, ready)
            && g.matchesArena(ready.edges) && g.matchesMeta(ready.edges) && !g.hopBroken(ready.edges)
            && !Quarantined(cooled, ready.edges) && !g.dustReserves(ready.edges)
            && !(|ready.edges| >= 2 && !g.hasTickless(ready) && g.microProfit(ready).Some?
                 && (g.floorProfit(ready).None? || g.floorProfit(ready).value == 0))
            && (g.activity(ready) > 0
                || (!g.insaneGross(ready) && !g.belowReserve(ready) && !g.microDead(ready) && g.floorDead(ready).None?)))
  {
    var v := Judge(g, cooled, c);
    if !v.Skipped? && v.ready == ready {
      var start := g.reliableStart(c).value;
      var aligned := if g.realignMulti(start).Some? then g.realignMulti(start).value else start;
      var healed := g.heal(aligned).value;
      assert g.realignUni(healed) == Some(ready) || g.realignUni(healed).None?;
    }
  }

  /** Which skip a raw cycle gets, and what goes with it. */
  lemma RawSkips(g: Gates, cooled: set<Edges>, c: Cycle)
    ensures var live, v := g.activity(c) > 0, Judge(g, cooled, c);
      && (v.Skipped? && v.why == TicklessStuck <==> g.emptyExhausted(c) && !live)
      && ((g.emptyExhausted(c) ==> live) && Quarantined(cooled, c.edges) ==>
            v == Skipped(Quarantine, [], if live then c.edges else []))
      && (v.Skipped? && v.why == Rate <==>
            (g.emptyExhausted(c) ==> live) && !Quarantined(cooled, c.edges) && g.reliableStart(c).None?)
      && ((g.emptyExhausted(c) ==> live) && !Quarantined(cooled, c.edges) && g.reliableStart(c).Some?
          && g.realignMulti(g.reliableStart(c).value).None? && !live ==>
            v == Skipped(MicroDead, g.reliableStart(c).value.edges, []))
      && (v.Skipped? && v.why in [TicklessStuck, Rate, V2Dead, BalFloorDead] ==> v.cool == [] && v.anchor == [])
      && (v.Skipped? && v.why == ProtocolMismatch ==> if live then v.cool == [] else v.anchor == [])
  {
  }

  /** A cycle that cannot be healed is a mismatch of its own pools; one whose tokens cannot be realigned is one of the
      healed pools, unless it is live and its hops fit as they are. */
  lemma ShapeSkips(g: Gates, cooled: set<Edges>, c: Cycle, live: bool, aligned: Cycle)
    ensures var v := JudgeShape(g, cooled, c, live, aligned);
      match g.heal(aligned)
      case None => v == if live then Skipped(ProtocolMismatch, [], c.edges) else Skipped(ProtocolMismatch, c.edges, [])
      case Some(healed) =>
        var e := healed.edges;
        g.realignUni(healed).None? && !(live && !g.hopBroken(e) && g.matchesArena(e)) ==>
          v == if live then Skipped(ProtocolMismatch, [], e) else Skipped(ProtocolMismatch, e, [])
  {
  }

  /** Which skip a remapped cycle gets, in the order of the gates, and what goes with it. */
  lemma ReadySkips(g: Gates, cooled: set<Edges>, live: bool, ready: Cycle)
    ensures var v, e := JudgeReady(g, cooled, live, ready), ready.edges;
      var fits := g.matchesArena(e) && g.matchesMeta(e) && !g.hopBroken(e);
      var walks := |e| >= 2 && !g.hasTickless(ready) && g.microProfit(ready).Some?
                   && (g.floorProfit(ready).None? || g.floorProfit(ready).value == 0);
      var known := fits && !Quarantined(cooled, e) && !g.dustReserves(e) && !walks && g.activity(ready) == 0;
      && (v.Skipped? && v.why == ProtocolMismatch <==> !fits)
      && (!fits ==> v.cool == (if live then [] else e) && v.anchor == (if live then e else []))
      && (v.Skipped? && v.why == Quarantine <==> fits && Quarantined(cooled, e))
      && (fits && Quarantined(cooled, e) ==> v.cool == [] && v.anchor == if live then e else [])
      && (fits && !Quarantined(cooled, e) && g.dustReserves(e) ==> v == Skipped(V2Dead, [], []))
      && (fits && !Quarantined(cooled, e) && !g.dustReserves(e) && walks ==> v == Skipped(MicroDead, e, []))
      && (known && g.insaneGross(ready) ==> v == Skipped(MicroDead, [], []))
      && (known && !g.insaneGross(ready) && g.belowReserve(ready) ==> v == Skipped(V2Dead, [], []))
      && (known && !g.insaneGross(ready) && !g.belowReserve(ready) && g.microDead(ready) ==> v == Skipped(MicroDead, [], []))
      && (known && !g.insaneGross(ready) && !g.belowReserve(ready) && !g.microDead(ready) ==>
            match g.floorDead(ready)
            case Some(BalancerMaxInRatio) => v == Skipped(BalFloorDead, [], [])
            case Some(V2ReserveExhausted) => v == Skipped(V2Dead, [], [])
            case Some(OtherFailure) => v == Skipped(MicroDead, [], [])
            case None => v == Inactive(ready))
  {
  }

  // ---------------------------------------------------------------- counting

  datatype Counters = Counters(quarantine: nat, rate: nat, ticklessStuck: nat, protocolMismatch: nat, v2Dead: nat,
                               microDead: nat, balFloorDead: nat)
  {
    function Bump(why: Reason): Counters {
      match why
      case Quarantine => this.(quarantine := quarantine + 1)
      case Rate => this.(rate := rate + 1)
      case TicklessStuck => this.(ticklessStuck := ticklessStuck + 1)
      case ProtocolMismatch => this.(protocolMismatch := protocolMismatch + 1)
      case V2Dead => this.(v2Dead := v2Dead + 1)
      case MicroDead => this.(microDead := microDead + 1)
      case BalFloorDead => this.(balFloorDead := balFloorDead + 1)
    }

    function Of(why: Reason): nat {
      match why
      case Quarantine => quarantine
      case Rate => rate
      case TicklessStuck => ticklessStuck
      case ProtocolMismatch => protocolMismatch
      case V2Dead => v2Dead
      case MicroDead => microDead
      case BalFloorDead => balFloorDead
    }

    function Total(): nat {
      quarantine + rate + ticklessStuck + protocolMismatch + v2Dead + microDead + balFloorDead
    }
  }

  function NoSkips(): Counters { Counters(0, 0, 0, 0, 0, 0, 0) }

  /** How many of the verdicts skip for this reason. */
  ghost function Tally(vs: seq<Verdict>, why: Reason): nat {
    if vs == [] then 0
    else
      var v := vs[|vs| - 1];
      Tally(vs[..|vs| - 1], why) + if v.Skipped? && v.why == why then 1 else 0
  }

  ghost function Actives(vs: seq<Verdict>): seq<(Cycle, nat)> {
    if vs == [] then []
    else
      var v := vs[|vs| - 1];
      Actives(vs[..|vs| - 1]) + if v.Active? then [(v.ready, v.score)] else []
  }

  ghost function Inactives(vs: seq<Verdict>): seq<Cycle> {
    if vs == [] then []
    else
      var v := vs[|vs| - 1];
      Inactives(vs[..|vs| - 1]) + if v.Inactive? then [v.ready] else []
  }

  /** Conservation: the seven skip counts and the two lists account for every verdict. */
  lemma VerdictsConserved(vs: seq<Verdict>, k: Counters)
    requires forall why: Reason :: k.Of(why) == Tally(vs, why)
    ensures k.Total() + |Actives(vs)| + |Inactives(vs)| == |vs|
  {
    TalliesSum(vs);
    assert k.Of(Quarantine) + k.Of(Rate) + k.Of(TicklessStuck) + k.Of(ProtocolMismatch) + k.Of(V2Dead)
           + k.Of(MicroDead) + k.Of(BalFloorDead) == k.Total();
  }

  lemma {:induction false} TalliesSum(vs: seq<Verdict>)
    ensures Tally(vs, Quarantine) + Tally(vs, Rate) + Tally(vs, TicklessStuck) + Tally(vs, ProtocolMismatch)
            + Tally(vs, V2Dead) + Tally(vs, MicroDead) + Tally(vs, BalFloorDead)
            + |Actives(vs)| + |Inactives(vs)| == |vs|
  {
    if vs == [] {
    } else {
      TalliesSum(vs[..|vs| - 1]);
    }
  }

  // ---------------------------------------------------------------- hot pools

  /** The addresses of the addressable pools on these edges. */
  ghost function PoolsOf(g: Gates, e: Edges): set<Address> {
    set i | 0 <= i < |e| && g.poolAddress(e[i]).Some? :: g.poolAddress(e[i]).value
  }

  method AddPools(g: Gates, hot: set<Address>, e: Edges) returns (r: set<Address>)
    ensures r == hot + PoolsOf(g, e)
  {
    r := hot;
    for i := 0 to |e|
      invariant r == hot + PoolsOf(g, e[..i])
    {
      var addr := g.poolAddress(e[i]);
      assert PoolsOf(g, e[..i + 1]) == PoolsOf(g, e[..i]) + if addr.Some? then {addr.value} else {} by {
        assert forall k :: 0 <= k < i ==> e[..i + 1][k] == e[..i][k];
        assert e[..i + 1][i] == e[i];
      }
      if addr.Some? {
        r := r + {addr.value};
      }
    }
    assert e[..|e|] == e;
  }

  ghost function Anchored(g: Gates, vs: seq<Verdict>): set<Address> {
    if vs == [] then {}
    else
      var v := vs[|vs| - 1];
      Anchored(g, vs[..|vs| - 1]) + if v.Skipped? then PoolsOf(g, v.anchor) else {}
  }

  ghost function PoolsOfAll(g: Gates, cycles: seq<Cycle>): set<Address> {
    if cycles == [] then {}
    else PoolsOfAll(g, cycles[..|cycles| - 1]) + PoolsOf(g, cycles[|cycles| - 1].edges)
  }

  // ---------------------------------------------------------------- the gate loop

  /** The cooled routes after these verdicts. */
  ghost function CooledAfter(cooled: set<Edges>, vs: seq<Verdict>): set<Edges> {
    if vs == [] then cooled
    else
      var v := vs[|vs| - 1];
      CooledAfter(cooled, vs[..|vs| - 1]) + if v.Skipped? then Rotations(v.cool) else {}
  }

  /** Each cycle is judged against the routes cooled before the pass and by the cycles ahead of it. */
  ghost function Verdicts(g: Gates, cooled: set<Edges>, snapshot: seq<Cycle>): (vs: seq<Verdict>)
    ensures |vs| == |snapshot|
  {
    if snapshot == [] then []
    else
      var vs := Verdicts(g, cooled, snapshot[..|snapshot| - 1]);
      vs + [Judge(g, CooledAfter(cooled, vs), snapshot[|snapshot| - 1])]
  }

  ghost predicate Counts(k: Counters, vs: seq<Verdict>) { forall why: Reason :: k.Of(why) == Tally(vs, why) }

  /** What one more verdict does to the loop's variables. */
  lemma VerdictAdds(g: Gates, cooled: set<Edges>, vs: seq<Verdict>, v: Verdict, k: Counters)
    requires Counts(k, vs)
    ensures Counts(if v.Skipped? then k.Bump(v.why) else k, vs + [v])
    ensures Actives(vs + [v]) == Actives(vs) + if v.Active? then [(v.ready, v.score)] else []
    ensures Inactives(vs + [v]) == Inactives(vs) + if v.Inactive? then [v.ready] else []
    ensures Anchored(g, vs + [v]) == Anchored(g, vs) + if v.Skipped? then PoolsOf(g, v.anchor) else {}
    ensures CooledAfter(cooled, vs + [v]) == CooledAfter(cooled, vs) + if v.Skipped? then Rotations(v.cool) else {}
  {
    assert (vs + [v])[..|vs|] == vs;
    forall why: Reason
      ensures (if v.Skipped? then k.Bump(v.why) else k).Of(why) == Tally(vs + [v], why)
    {
      assert k.Of(why) == Tally(vs, why);
    }
  }

  /** The variables of the gate loop. */
  datatype Lists = Lists(active: seq<(Cycle, nat)>, inactive: seq<Cycle>, skips: Counters, hot: set<Address>)
  {
    function Accounted(): nat { |active| + |inactive| + skips.Total() }
  }

  function NoLists(): Lists { Lists([], [], NoSkips(), {}) }

  /** What a verdict does to them. */
  ghost predicate Records(g: Gates, l: Lists, v: Verdict, l': Lists) {
    match v
    case Skipped(why, _, anchor) => l' == l.(skips := l.skips.Bump(why), hot := l.hot + PoolsOf(g, anchor))
    case Active(ready, score) => l' == l.(active := l.active + [(ready, score)])
    case Inactive(ready) => l' == l.(inactive := l.inactive + [ready])
  }

  ghost predicate Cools(cooled: set<Edges>, v: Verdict, cooled': set<Edges>) {
    cooled' == cooled + if v.Skipped? then Rotations(v.cool) else {}
  }

  lemma NothingToDo(g: Gates)
    ensures PoolsOf(g, []) == {} && Rotations([]) == {}
  {
  }

  /** A protocol mismatch: a live cycle is anchored, another is cooled. */
  method GateMismatch(g: Gates, live: bool, e: Edges, quarantine: RouteQuarantine, l: Lists) returns (r: Lists)
    modifies quarantine
    ensures Records(g, l, Mismatch(live, e), r) && r.Accounted() == l.Accounted() + 1
    ensures Cools(old(quarantine.cooled), Mismatch(live, e), quarantine.cooled)
  {
    NothingToDo(g);
    r := l.(skips := l.skips.(protocolMismatch := l.skips.protocolMismatch + 1));
    if live {
      var hot := AddPools(g, r.hot, e);
      r := r.(hot := hot);
    } else {
      quarantine.CoolAllRotations(e);
    }
  }

  /** A cooled route: counted, and anchored when live. */
  method GateQuarantined(g: Gates, live: bool, e: Edges, l: Lists) returns (r: Lists)
    ensures Records(g, l, QuarantineSkip(live, e), r) && r.Accounted() == l.Accounted() + 1
  {
    NothingToDo(g);
    r := l.(skips := l.skips.(quarantine := l.skips.quarantine + 1));
    if live {
      var hot := AddPools(g, r.hot, e);
      r := r.(hot := hot);
    }
  }

  /** The gates on the remapped cycle. */
  method GateReady(g: Gates, live: bool, ready: Cycle, quarantine: RouteQuarantine, l: Lists) returns (r: Lists)
    modifies quarantine
    ensures var v := JudgeReady(g, old(quarantine.cooled), live, ready);
      Records(g, l, v, r) && r.Accounted() == l.Accounted() + 1 && Cools(old(quarantine.cooled), v, quarantine.cooled)
  {
    NothingToDo(g);
    var e, k := ready.edges, l.skips;
    var quarantined := quarantine.IsQuarantined(e);
    if !g.matchesArena(e) {
      r := GateMismatch(g, live, e, quarantine, l);
    } else if !g.matchesMeta(e) {
      r := GateMismatch(g, live, e, quarantine, l);
    } else if g.hopBroken(e) {
      r := GateMismatch(g, live, e, quarantine, l);
    } else if quarantined {
      r := GateQuarantined(g, live, e, l);
    } else if g.dustReserves(e) {
      r := l.(skips := k.(v2Dead := k.v2Dead + 1));
    } else if ZeroAtFloor(g, ready) {
      quarantine.CoolAllRotations(e);
      r := l.(skips := k.(microDead := k.microDead + 1));
    } else if g.activity(ready) > 0 {
      r := l.(active := l.active + [(ready, g.activity(ready))]);
    } else if g.insaneGross(ready) {
      r := l.(skips := k.(microDead := k.microDead + 1));
    } else if g.belowReserve(ready) {
      r := l.(skips := k.(v2Dead := k.v2Dead + 1));
    } else if g.microDead(ready) {
      r := l.(skips := k.(microDead := k.microDead + 1));
    } else {
      match g.floorDead(ready)
      case Some(BalancerMaxInRatio) => r := l.(skips := k.(balFloorDead := k.balFloorDead + 1));
      case Some(V2ReserveExhausted) => r := l.(skips := k.(v2Dead := k.v2Dead + 1));
      case Some(OtherFailure) => r := l.(skips := k.(microDead := k.microDead + 1));
      case None => r := l.(inactive := l.inactive + [ready]);
    }
  }

  /** The gates on protocols and metadata. */
  method GateShape(g: Gates, c: Cycle, live: bool, aligned: Cycle, quarantine: RouteQuarantine, l: Lists)
    returns (r: Lists)
    modifies quarantine
    ensures var v := JudgeShape(g, old(quarantine.cooled), c, live, aligned);
      Records(g, l, v, r) && r.Accounted() == l.Accounted() + 1 && Cools(old(quarantine.cooled), v, quarantine.cooled)
  {
    match g.heal(aligned)
    case None => r := GateMismatch(g, live, c.edges, quarantine, l);
    case Some(healed) =>
      match g.realignUni(healed)
      case Some(ready) => r := GateReady(g, live, ready, quarantine, l);
      case None =>
        if live && !g.hopBroken(healed.edges) && g.matchesArena(healed.edges) {
          r := GateReady(g, live, healed, quarantine, l);
        } else {
          r := GateMismatch(g, live, healed.edges, quarantine, l);
        }
  }

  /** A cycle went through the gates: it is accounted for once, as judged. */
  ghost predicate Gated(g: Gates, c: Cycle, l: Lists, cooled: set<Edges>, l': Lists, cooled': set<Edges>) {
    var v := Judge(g, cooled, c);
    Records(g, l, v, l') && l'.Accounted() == l.Accounted() + 1 && Cools(cooled, v, cooled')
  }

  /** The body of the gate loop. */
  method GateOne(g: Gates, c: Cycle, quarantine: RouteQuarantine, l: Lists) returns (r: Lists)
    modifies quarantine
    ensures Gated(g, c, l, old(quarantine.cooled), r, quarantine.cooled)
  {
    NothingToDo(g);
    var live, k := g.activity(c) > 0, l.skips;
    if g.emptyExhausted(c) && !live {
      return l.(skips := k.(ticklessStuck := k.ticklessStuck + 1));
    }
    var quarantined := quarantine.IsQuarantined(c.edges);
    if quarantined {
      r := GateQuarantined(g, live, c.edges, l);
      return;
    }
    match g.reliableStart(c)
    case None => r := l.(skips := k.(rate := k.rate + 1));
    case Some(start) =>
      match g.realignMulti(start)
      case Some(ready) => r := GateShape(g, c, live, ready, quarantine, l);
      case None =>
        if live {
          r := GateShape(g, c, live, start, quarantine, l);
        } else {
          r := l.(skips := k.(microDead := k.microDead + 1));
          quarantine.CoolAllRotations(start.edges);
        }
  }

  /** The loop's variables after these verdicts. */
  ghost predicate ListsOf(g: Gates, vs: seq<Verdict>, l: Lists) {
    l.active == Actives(vs) && l.inactive == Inactives(vs) && Counts(l.skips, vs) && l.hot == Anchored(g, vs)
  }

  lemma ListsStep(g: Gates, cooled: set<Edges>, vs: seq<Verdict>, v: Verdict, l: Lists, l': Lists)
    requires ListsOf(g, vs, l) && Records(g, l, v, l')
    ensures ListsOf(g, vs + [v], l')
  {
    VerdictAdds(g, cooled, vs, v, l.skips);
  }

  lemma CooledStep(g: Gates, cooled: set<Edges>, vs: seq<Verdict>, v: Verdict, cooled': set<Edges>)
    requires Cools(CooledAfter(cooled, vs), v, cooled')
    ensures cooled' == CooledAfter(cooled, vs + [v])
  {
    assert (vs + [v])[..|vs|] == vs;
  }

  /** After the first `i` snapshot cycles. */
  ghost predicate LoopInv(g: Gates, cooled: set<Edges>, snapshot: seq<Cycle>, i: nat, l: Lists, now: set<Edges>)
    requires i <= |snapshot|
  {
    var vs := Verdicts(g, cooled, snapshot[..i]);
    l.Accounted() == i && ListsOf(g, vs, l) && now == CooledAfter(cooled, vs)
  }

  lemma LoopStart(g: Gates, cooled: set<Edges>, snapshot: seq<Cycle>)
    ensures LoopInv(g, cooled, snapshot, 0, NoLists(), cooled)
  {
    var vs := Verdicts(g, cooled, snapshot[..0]);
    assert vs == [];
    assert Actives(vs) == [] && Inactives(vs) == [] && Anchored(g, vs) == {} && CooledAfter(cooled, vs) == cooled;
    forall why: Reason
      ensures NoSkips().Of(why) == Tally(vs, why)
    {
      assert Tally(vs, why) == 0;
    }
  }

  lemma LoopStep(g: Gates, cooled: set<Edges>, snapshot: seq<Cycle>, i: nat, l: Lists, now: set<Edges>, l': Lists,
                 now': set<Edges>)
    requires i < |snapshot| && LoopInv(g, cooled, snapshot, i, l, now)
    requires Gated(g, snapshot[i], l, now, l', now')
    ensures LoopInv(g, cooled, snapshot, i + 1, l', now')
  {
    var vs, v := Verdicts(g, cooled, snapshot[..i]), Judge(g, now, snapshot[i]);
    VerdictsStep(g, cooled, snapshot, i);
    ListsStep(g, cooled, vs, v, l, l');
    CooledStep(g, cooled, vs, v, now');
  }

  lemma VerdictsStep(g: Gates, cooled: set<Edges>, snapshot: seq<Cycle>, i: nat)
    requires i < |snapshot|
    ensures var vs := Verdicts(g, cooled, snapshot[..i]);
      Verdicts(g, cooled, snapshot[..i + 1]) == vs + [Judge(g, CooledAfter(cooled, vs), snapshot[i])]
  {
    assert snapshot[..i + 1][..i] == snapshot[..i];
  }

  /** The gate loop: it accounts for every cycle, and its variables are those of judging each cycle in turn. */
  method GateAll(g: Gates, snapshot: seq<Cycle>, quarantine: RouteQuarantine) returns (l: Lists)
    modifies quarantine
    ensures l.Accounted() == |snapshot|
    ensures var vs := Verdicts(g, old(quarantine.cooled), snapshot);
      ListsOf(g, vs, l) && quarantine.cooled == CooledAfter(old(quarantine.cooled), vs)
  {
    l := NoLists();
    LoopStart(g, quarantine.cooled, snapshot);
    for i := 0 to |snapshot|
      invariant LoopInv(g, old(quarantine.cooled), snapshot, i, l, quarantine.cooled)
    {
      ghost var cooled := quarantine.cooled;
      var l' := GateOne(g, snapshot[i], quarantine, l);
      LoopStep(g, old(quarantine.cooled), snapshot, i, l, cooled, l', quarantine.cooled);
      l := l';
    }
    assert snapshot[..|snapshot|] == snapshot;
  }

  // ---------------------------------------------------------------- slots

  /** `hf_activity_slot_cap`. */
  function ActivitySlotCap(cap: nat): nat {
    Min(if cap / 5 < 4 then 4 else if cap / 5 > 16 then 16 else cap / 5, cap)
  }

  function ActivitySelected(cap: nat, active: nat): nat { Min(active, ActivitySlotCap(cap)) }

  function InactiveSelected(cap: nat, active: nat, inactive: nat): nat {
    var left := if cap <= ActivitySelected(cap, active) then 0 else cap - ActivitySelected(cap, active);
    Min(left, inactive)
  }

  /** Active cycles never fill more than the cap, and they starve the inactive ones exactly when the cap is
      at most four and there are that many of them. */
  lemma InactiveStarved(cap: nat, active: nat, inactive: nat)
    requires inactive > 0
    ensures ActivitySelected(cap, active) + InactiveSelected(cap, active, inactive) <= cap
    ensures InactiveSelected(cap, active, inactive) == 0 <==> cap <= 4 && active >= cap
    ensures ActivitySelected(cap, active) <= 16
  {
  }

  /** The shares in numbers: up to 4 slots may all go to active cycles; from 5 on 4 of them may, from 25 on a fifth,
      and from 80 on 16; the inactive cycles get all that is left. */
  lemma SlotShares(cap: nat, active: nat, inactive: nat)
    ensures var most: nat := if cap <= 4 then cap else if cap < 25 then 4 else if cap < 80 then cap / 5 else 16;
      var a := if active <= most then active else most;
      && ActivitySelected(cap, active) == a
      && InactiveSelected(cap, active, inactive) == if inactive <= cap - a then inactive else cap - a
  {
  }

  // ---------------------------------------------------------------- the selection

  datatype RescoreSelection = RescoreSelection(
    cycles: seq<Cycle>, hotPools: set<Address>, skips: Counters,
    activityCandidates: nat, activitySelected: nat, inactiveLen: nat, inactiveSelected: nat)

  function ByActivity(a: (Cycle, nat)): Rank { (a.0.execRank, -(a.1 as int)) }

  function ByTicks(g: Gates): Cycle -> Rank {
    (c: Cycle) => (if g.needsTicks(c) then 1 else 0, c.execRank)
  }

  function Firsts(xs: seq<(Cycle, nat)>): seq<Cycle> { seq(|xs|, i requires 0 <= i < |xs| => xs[i].0) }

  function At(xs: seq<Cycle>, indices: seq<nat>): seq<Cycle>
    requires forall i :: 0 <= i < |indices| ==> indices[i] < |xs|
  {
    seq(|indices|, i requires 0 <= i < |indices| => xs[indices[i]])
  }

  lemma IndicesInRange(offset: nat, n: nat, take: nat)
    requires n > 0 || take == 0
    ensures |InactiveIndices(offset, n, take)| == Min(take, n)
    ensures forall i :: 0 <= i < |InactiveIndices(offset, n, take)| ==> InactiveIndices(offset, n, take)[i] < n
  {
  }

  /** What a selection is, given the verdicts: counts that account for the snapshot, active cycles by execution
      rank, inactive ones by rotation, and the pools of both hot. */
  ghost predicate IsSelection(g: Gates, vs: seq<Verdict>, cap: nat, offset: nat, r: RescoreSelection) {
    var active, inactive := Actives(vs), StableSort(Inactives(vs), ByTicks(g));
    var a, n := ActivitySelected(cap, |active|), InactiveSelected(cap, |active|, |inactive|);
    var indices := InactiveIndices(offset, |inactive|, n);
    && Counts(r.skips, vs) && r.activityCandidates == |active| && r.inactiveLen == |Inactives(vs)|
    && r.activitySelected == a && r.inactiveSelected == n
    && (forall i :: 0 <= i < |indices| ==> indices[i] < |inactive|)
    && a <= |StableSort(active, ByActivity)|
    && r.cycles == Firsts(StableSort(active, ByActivity)[..a]) + At(inactive, indices)
    && r.hotPools == PoolsOfAll(g, r.cycles) + Anchored(g, vs)
  }

  method HotPools(g: Gates, cycles: seq<Cycle>) returns (hot: set<Address>)
    ensures hot == PoolsOfAll(g, cycles)
  {
    hot := {};
    for i := 0 to |cycles|
      invariant hot == PoolsOfAll(g, cycles[..i])
    {
      assert cycles[..i + 1][..i] == cycles[..i];
      hot := AddPools(g, hot, cycles[i].edges);
    }
    assert cycles[..|cycles|] == cycles;
  }

  /** `select_cycles_for_rescore`. */
  method SelectCyclesForRescore(g: Gates, snapshot: seq<Cycle>, quarantine: RouteQuarantine, cap: nat, offset: nat)
    returns (r: RescoreSelection)
    modifies quarantine
    ensures cap == 0 ==> r == RescoreSelection([], {}, NoSkips(), 0, 0, 0, 0)
                         && quarantine.cooled == old(quarantine.cooled)
    ensures cap > 0 ==>
      var vs := Verdicts(g, old(quarantine.cooled), snapshot);
      IsSelection(g, vs, cap, offset, r) && quarantine.cooled == CooledAfter(old(quarantine.cooled), vs)
  {
    if cap == 0 {
      return RescoreSelection([], {}, NoSkips(), 0, 0, 0, 0);
    }
    var l := GateAll(g, snapshot, quarantine);
    var active, inactive := l.active, l.inactive;
    var first := StableSort(active, ByActivity);
    var rest := StableSort(inactive, ByTicks(g));
    SortKeepsMembers(active, ByActivity);
    SortKeepsMembers(inactive, ByTicks(g));
    var a, n := ActivitySelected(cap, |active|), InactiveSelected(cap, |active|, |inactive|);
    IndicesInRange(offset, |rest|, n);
    var cycles := Firsts(first[..a]) + At(rest, InactiveIndices(offset, |rest|, n));
    var hot := HotPools(g, cycles);
    r := RescoreSelection(cycles, hot + l.hot, l.skips, |active|, a, |inactive|, n);
  }

  // ---------------------------------------------------------------- what a selection guarantees

  /** Conservation, the cap, and the inactive share. */
  lemma SelectionConserves(g: Gates, vs: seq<Verdict>, cap: nat, offset: nat, r: RescoreSelection)
    requires IsSelection(g, vs, cap, offset, r)
    ensures r.skips.Total() + r.activityCandidates + r.inactiveLen == |vs|
    ensures |r.cycles| == r.activitySelected + r.inactiveSelected <= cap
    ensures r.inactiveLen > 0 ==> (r.inactiveSelected == 0 <==> cap <= 4 && r.activityCandidates >= cap)
  {
    VerdictsConserved(vs, r.skips);
    SortKeepsMembers(Inactives(vs), ByTicks(g));
    IndicesInRange(offset, r.inactiveLen, r.inactiveSelected);
  }

  lemma {:induction false} PoolIsHot(g: Gates, cycles: seq<Cycle>, i: nat, j: nat)
    requires i < |cycles| && j < |cycles[i].edges| && g.poolAddress(cycles[i].edges[j]).Some?
    ensures g.poolAddress(cycles[i].edges[j]).value in PoolsOfAll(g, cycles)
  {
    if i < |cycles| - 1 {
      PoolIsHot(g, cycles[..|cycles| - 1], i, j);
    }
  }

  /** Every addressable pool of a selected cycle is hot. */
  lemma SelectedPoolsAreHot(g: Gates, vs: seq<Verdict>, cap: nat, offset: nat, r: RescoreSelection, i: nat, j: nat)
    requires IsSelection(g, vs, cap, offset, r)
    requires i < |r.cycles| && j < |r.cycles[i].edges| && g.poolAddress(r.cycles[i].edges[j]).Some?
    ensures g.poolAddress(r.cycles[i].edges[j]).value in r.hotPools
  {
    PoolIsHot(g, r.cycles, i, j);
  }

  /** `k` items from position `o` on, wrapping around. */
  function RingSlice(xs: seq<Cycle>, o: nat, k: nat): seq<Cycle>
    requires o < |xs| && k <= |xs|
  {
    if o + k <= |xs| then xs[o..o + k] else xs[o..] + xs[..o + k - |xs|]
  }

  /** The inactive cycles served are a slice of the ring. */
  lemma RotatedSlice(xs: seq<Cycle>, offset: nat, k: nat)
    requires 0 < |xs| && k <= |xs|
    requires forall i :: 0 <= i < k ==> InactiveIndices(offset, |xs|, k)[i] < |xs|
    ensures At(xs, InactiveIndices(offset, |xs|, k)) == RingSlice(xs, offset % |xs|, k)
  {
    var o, n := offset % |xs|, |xs|;
    var indices := InactiveIndices(offset, n, k);
    forall i | 0 <= i < k
      ensures indices[i] == if o + i < n then o + i else o + i - n
    {
      ModAdd(offset, i, n);
      if o + i < n {
        ModUnique(o + i, 0, o + i, n);
      } else {
        ModUnique(o + i, 1, o + i - n, n);
      }
    }
  }

  /** A rotated slice repeats nothing. */
  lemma SliceRepeatsNothing(xs: seq<Cycle>, offset: nat, k: nat)
    requires k <= |xs|
    requires forall i :: 0 <= i < k ==> InactiveIndices(offset, |xs|, k)[i] < |xs|
    ensures multiset(At(xs, InactiveIndices(offset, |xs|, k))) <= multiset(xs)
  {
    if xs != [] {
      RotatedSlice(xs, offset, k);
      WrappedSlice(xs, offset % |xs|, k);
    }
  }

  lemma WrappedSlice(xs: seq<Cycle>, o: nat, k: nat)
    requires o < |xs| && k <= |xs|
    ensures multiset(RingSlice(xs, o, k)) <= multiset(xs)
  {
    if o + k <= |xs| {
      assert xs == xs[..o] + xs[o..o + k] + xs[o + k..];
    } else {
      var m := o + k - |xs|;
      assert xs == xs[..m] + xs[m..o] + xs[o..];
    }
  }

  lemma FirstsOfParts(xs: seq<(Cycle, nat)>, a: nat)
    requires a <= |xs|
    ensures multiset(Firsts(xs[..a])) <= multiset(Firsts(xs))
  {
    assert Firsts(xs) == Firsts(xs[..a]) + Firsts(xs[a..]);
  }

  /** The selection lists no cycle more often than the gates admitted it, on either side. */
  lemma SelectionRepeatsNothing(g: Gates, vs: seq<Verdict>, cap: nat, offset: nat, r: RescoreSelection)
    requires IsSelection(g, vs, cap, offset, r)
    ensures multiset(r.cycles[..r.activitySelected]) <= multiset(Firsts(StableSort(Actives(vs), ByActivity)))
    ensures multiset(r.cycles[r.activitySelected..]) <= multiset(Inactives(vs))
  {
    var first, rest := StableSort(Actives(vs), ByActivity), StableSort(Inactives(vs), ByTicks(g));
    SortMeans(Inactives(vs), ByTicks(g));
    SortKeepsMembers(Inactives(vs), ByTicks(g));
    FirstsOfParts(first, r.activitySelected);
    IndicesInRange(offset, |rest|, r.inactiveSelected);
    SliceRepeatsNothing(rest, offset, r.inactiveSelected);
    assert r.cycles[..r.activitySelected] == Firsts(first[..r.activitySelected]);
    assert r.cycles[r.activitySelected..] == At(rest, InactiveIndices(offset, |rest|, r.inactiveSelected));
  }

  /** An active cycle left out ranks no better than any active one selected, and all active slots are used. */
  lemma ActivesBestFirst(g: Gates, vs: seq<Verdict>, cap: nat, offset: nat, r: RescoreSelection, c: (Cycle, nat), i: nat)
    requires IsSelection(g, vs, cap, offset, r) && c in Actives(vs)
    requires c.0 !in r.cycles[..r.activitySelected]
    ensures r.activitySelected == ActivitySlotCap(cap)
    ensures i < r.activitySelected ==> r.cycles[i].execRank <= c.0.execRank
  {
    var first := StableSort(Actives(vs), ByActivity);
    SortMeans(Actives(vs), ByActivity);
    SortKeepsMembers(Actives(vs), ByActivity);
    assert forall m :: 0 <= m < r.activitySelected ==> r.cycles[..r.activitySelected][m] == first[m].0;
    var j :| 0 <= j < |first| && first[j] == c;
    if i < r.activitySelected {
      assert r.cycles[i] == first[i].0;
      assert AtMost(ByActivity(first[i]), ByActivity(first[j]));
    }
  }

  /** The active cycles are taken by execution rank and then by activity; the ring of inactive ones has those that
      need no ticks first, and each of the two parts by execution rank. */
  lemma ListsInOrder(g: Gates, vs: seq<Verdict>, i: nat, j: nat)
    requires i < j
    ensures var first := StableSort(Actives(vs), ByActivity);
      j < |first| ==> first[i].0.execRank < first[j].0.execRank
                      || (first[i].0.execRank == first[j].0.execRank && first[i].1 >= first[j].1)
    ensures var ring := StableSort(Inactives(vs), ByTicks(g));
      j < |ring| ==> (!g.needsTicks(ring[i]) && g.needsTicks(ring[j]))
                     || (g.needsTicks(ring[i]) == g.needsTicks(ring[j]) && ring[i].execRank <= ring[j].execRank)
  {
    SortMeans(Actives(vs), ByActivity);
    SortMeans(Inactives(vs), ByTicks(g));
    var first, ring := StableSort(Actives(vs), ByActivity), StableSort(Inactives(vs), ByTicks(g));
    if j < |first| {
      assert AtMost(ByActivity(first[i]), ByActivity(first[j]));
    }
    if j < |ring| {
      assert AtMost(ByTicks(g)(ring[i]), ByTicks(g)(ring[j]));
    }
  }

  // ---------------------------------------------------------------- soundness of what is selected

  /** `c` was admitted by the verdict on some snapshot cycle, and was sound when judged. */
  ghost predicate Admitted(g: Gates, cooled: set<Edges>, vs: seq<Verdict>, c: Cycle) {
    exists i :: 0 <= i < |vs| && !vs[i].Skipped? && vs[i].ready == c && Sound(g, CooledAfter(cooled, vs[..i]), c)
  }

  lemma {:induction false} VerdictAt(g: Gates, cooled: set<Edges>, snapshot: seq<Cycle>, i: nat)
    requires i < |snapshot|
    ensures var vs := Verdicts(g, cooled, snapshot);
      vs[i] == Judge(g, CooledAfter(cooled, vs[..i]), snapshot[i])
  {
    var n, vs := |snapshot| - 1, Verdicts(g, cooled, snapshot);
    var before := Verdicts(g, cooled, snapshot[..n]);
    assert vs == before + [vs[n]];
    assert vs[..n] == before;
    if i < n {
      VerdictAt(g, cooled, snapshot[..n], i);
      assert vs[..i] == before[..i];
    }
  }

  lemma {:induction false} ActiveFrom(vs: seq<Verdict>, a: (Cycle, nat))
    requires a in Actives(vs)
    ensures exists i :: 0 <= i < |vs| && vs[i].Active? && vs[i].ready == a.0
  {
    var n := |vs| - 1;
    if a in Actives(vs[..n]) {
      ActiveFrom(vs[..n], a);
      var i :| 0 <= i < n && vs[..n][i].Active? && vs[..n][i].ready == a.0;
      assert vs[i].Active? && vs[i].ready == a.0;
    } else {
      assert vs[n].Active? && vs[n].ready == a.0;
    }
  }

  lemma {:induction false} InactiveFrom(vs: seq<Verdict>, c: Cycle)
    requires c in Inactives(vs)
    ensures exists i :: 0 <= i < |vs| && vs[i].Inactive? && vs[i].ready == c
  {
    var n := |vs| - 1;
    if c in Inactives(vs[..n]) {
      InactiveFrom(vs[..n], c);
      var i :| 0 <= i < n && vs[..n][i].Inactive? && vs[..n][i].ready == c;
      assert vs[i].Inactive? && vs[i].ready == c;
    } else {
      assert vs[n].Inactive? && vs[n].ready == c;
    }
  }

  /** Every selected cycle passed the gates: it matches the pool states and metadata, its hops connect, and no
      rotation of it was cooled when it was judged. */
  lemma SelectedAreSound(g: Gates, cooled: set<Edges>, snapshot: seq<Cycle>, cap: nat, offset: nat, r: RescoreSelection,
                         k: nat)
    requires IsSelection(g, Verdicts(g, cooled, snapshot), cap, offset, r) && k < |r.cycles|
    ensures Admitted(g, cooled, Verdicts(g, cooled, snapshot), r.cycles[k])
  {
    var vs := Verdicts(g, cooled, snapshot);
    var c, i := r.cycles[k], 0;
    if k < r.activitySelected {
      var first := StableSort(Actives(vs), ByActivity);
      SortKeepsMembers(Actives(vs), ByActivity);
      assert first[k].0 == c && first[k] in Actives(vs);
      ActiveFrom(vs, first[k]);
      i :| 0 <= i < |vs| && vs[i].Active? && vs[i].ready == c;
    } else {
      SortKeepsMembers(Inactives(vs), ByTicks(g));
      assert c in StableSort(Inactives(vs), ByTicks(g));
      InactiveFrom(vs, c);
      i :| 0 <= i < |vs| && vs[i].Inactive? && vs[i].ready == c;
    }
    VerdictAt(g, cooled, snapshot, i);
    JudgeIsSound(g, CooledAfter(cooled, vs[..i]), snapshot[i]);
  }
}
