/** Candidate cycles and their route cooldowns (src/services/execution/service/risk.rs).

    A route is a ring of edges, so the same route has one edge list per start token. A cooldown
    is stamped on every start rotation, and a route counts as cooled when any rotation is. */
module Routes {

  type Edges = seq<nat>

  /** `execRank` is the cycle's position under `compare_cycle_execution`. */
  datatype Cycle = Cycle(edges: Edges, startToken: nat, execRank: int)

  function Rotated(e: Edges, k: nat): (r: Edges)
    requires k <= |e|
    ensures |r| == |e|
  {
    e[k..] + e[..k]
  }

  /** Some start rotation of `e` is cooled. */
  predicate Quarantined(cooled: set<Edges>, e: Edges) {
    exists k :: 0 <= k < |e| && Rotated(e, k) in cooled
  }

  /** An index below twice the length, brought back onto the ring. */
  function Wrap(i: nat, n: nat): nat { if i < n then i else i - n }

  /** Rotating on from rotation `k` gives the next one. */
  lemma RotatedStep(e: Edges, k: nat)
    requires k < |e|
    ensures Rotated(Rotated(e, k), 1) == if k + 1 == |e| then e else Rotated(e, k + 1)
  {
  }

  /** A rotation of a rotation is a rotation. */
  lemma RotatedTwice(e: Edges, j: nat, k: nat)
    requires j < |e| && k < |e|
    ensures Rotated(Rotated(e, j), k) == Rotated(e, Wrap(j + k, |e|))
  {
    var n := |e|;
    if j + k < n {
      assert Rotated(e, j)[k..] == e[j + k..] + e[..j];
      assert Rotated(e, j)[..k] == e[j..j + k];
    } else {
      var m := j + k - n;
      assert Rotated(e, j)[k..] == e[m..j];
      assert Rotated(e, j)[..k] == e[j..] + e[..m];
    }
  }

  /** Whether a route is cooled does not depend on the rotation asked about. */
  lemma QuarantineIgnoresStart(cooled: set<Edges>, e: Edges, j: nat)
    requires j < |e|
    ensures Quarantined(cooled, Rotated(e, j)) <==> Quarantined(cooled, e)
  {
    if Quarantined(cooled, Rotated(e, j)) {
      var k :| 0 <= k < |e| && Rotated(Rotated(e, j), k) in cooled;
      RotatedTwice(e, j, k);
    }
    if Quarantined(cooled, e) {
      var k :| 0 <= k < |e| && Rotated(e, k) in cooled;
      var back := Wrap(k + |e| - j, |e|);
      RotatedTwice(e, j, back);
      assert Rotated(Rotated(e, j), back) in cooled;
    }
  }

  ghost function Rotations(e: Edges): set<Edges> {
    set k | 0 <= k < |e| :: Rotated(e, k)
  }

  /** Cooling the rotations of a route cools the route at every start, and touches no other route. */
  lemma CoolingIsExact(cooled: set<Edges>, e: Edges, f: Edges)
    ensures Quarantined(cooled + Rotations(e), f) <==> Quarantined(cooled, f) || (f != [] && f in Rotations(e))
  {
    if Quarantined(cooled + Rotations(e), f) && !Quarantined(cooled, f) {
      var k :| 0 <= k < |f| && Rotated(f, k) in cooled + Rotations(e);
      var j :| 0 <= j < |e| && Rotated(f, k) == Rotated(e, j);
      var back := Wrap(|f| - k, |f|);
      RotatedTwice(f, k, back);
      assert Rotated(f, 0) == f;
      RotatedTwice(e, j, back);
    }
    if f != [] && f in Rotations(e) {
      assert Rotated(f, 0) == f;
    }
    if Quarantined(cooled, f) {
      var k :| 0 <= k < |f| && Rotated(f, k) in cooled;
      assert Rotated(f, k) in cooled + Rotations(e);
    }
  }

  class RouteQuarantine {
    var cooled: set<Edges>

    constructor ()
      ensures cooled == {}
    {
      cooled := {};
    }

    /** `cycle_edges_quarantined`. */
    method IsQuarantined(e: Edges) returns (r: bool)
      ensures r <==> Quarantined(cooled, e)
    {
      var rotated, k := e, 0;
      assert Rotated(e, 0) == e;
      while k < |e|
        invariant 0 <= k <= |e|
        invariant k < |e| ==> rotated == Rotated(e, k)
        invariant forall j :: 0 <= j < k ==> Rotated(e, j) !in cooled
      {
        if rotated in cooled {
          return true;
        }
        RotatedStep(e, k);
        rotated := Rotated(rotated, 1);
        k := k + 1;
      }
      return false;
    }

    /** `quarantine_all_edge_rotations`. */
    method CoolAllRotations(e: Edges)
      modifies this
      ensures cooled == old(cooled) + Rotations(e)
    {
      var rotated, k := e, 0;
      assert Rotated(e, 0) == e;
      while k < |e|
        invariant 0 <= k <= |e|
        invariant k < |e| ==> rotated == Rotated(e, k)
        invariant cooled == old(cooled) + set j | 0 <= j < k :: Rotated(e, j)
      {
        cooled := cooled + {rotated};
        RotatedStep(e, k);
        rotated := Rotated(rotated, 1);
        k := k + 1;
      }
    }
  }
}
