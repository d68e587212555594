/** The lock-free log throttle (`every_ms` in src/log.rs).

    Any number of callers share one atomic slot.  A call reads the clock, loads the slot, gives up when the
    interval has not passed, and otherwise tries to exchange the loaded time for its own.  Clock readings are
    arbitrary: callers may be late, and clocks may disagree or run backward. */
module LogThrottle {

  type Caller = nat

  /** Where a call stands.  `wins` is history: how many times had been stored when it loaded. */
  datatype Call =
    | Timed(now: nat)
    | Loaded(now: nat, prev: nat, wins: nat)

  /** The slot, the calls under way, and every time stored so far, the initial one first. */
  datatype State = State(slot: nat, calls: map<Caller, Call>, stored: seq<nat>)

  datatype Action =
    | ReadClock(who: Caller, now: nat)
    | LoadSlot(who: Caller)
    | Decide(who: Caller)

  predicate Init(s: State) { s.calls == map[] && s.stored == [s.slot] }

  predicate Enabled(s: State, a: Action) {
    match a
    case ReadClock(who, _) => who !in s.calls
    case LoadSlot(who) => who in s.calls && s.calls[who].Timed?
    case Decide(who) => who in s.calls && s.calls[who].Loaded?
  }

  /** `now.saturating_sub(prev)`. */
  function Since(now: nat, prev: nat): nat { if now <= prev then 0 else now - prev }

  /** The call returns true: the interval has passed and the exchange finds the loaded time still there. */
  predicate Fires(s: State, interval: nat, who: Caller)
    requires Enabled(s, Decide(who))
  {
    var c := s.calls[who];
    Since(c.now, c.prev) >= interval && s.slot == c.prev
  }

  function Apply(s: State, interval: nat, a: Action): State
    requires Enabled(s, a)
  {
    match a
    case ReadClock(who, now) => s.(calls := s.calls[who := Timed(now)])
    case LoadSlot(who) => s.(calls := s.calls[who := Loaded(s.calls[who].now, s.slot, |s.stored|)])
    case Decide(who) =>
      var s' := s.(calls := s.calls - {who});
      if Fires(s, interval, who)
      then s'.(slot := s.calls[who].now, stored := s.stored + [s.calls[who].now])
      else s'
  }

  /** Each stored time is at least `interval` after all those before it. */
  ghost predicate Chain(stored: seq<nat>, interval: nat) {
    forall i, j :: 0 <= i < j < |stored| ==> stored[i] + interval <= stored[j]
  }

  ghost predicate Inv(s: State, interval: nat) {
    && s.stored != [] && s.slot == s.stored[|s.stored| - 1]
    && Chain(s.stored, interval)
    && forall who :: who in s.calls && s.calls[who].Loaded? ==>
         var c := s.calls[who];
         1 <= c.wins <= |s.stored| && c.prev == s.stored[c.wins - 1]
  }

  lemma NextInv(s: State, interval: nat, a: Action)
    requires interval >= 1 && Inv(s, interval) && Enabled(s, a)
    ensures Inv(Apply(s, interval, a), interval)
  {
    if a.Decide? && Fires(s, interval, a.who) {
      var n, t := |s.stored|, s.calls[a.who].now;
      assert s.stored[n - 1] + interval <= t;
      assert Chain(s.stored + [t], interval);
    }
  }

  ghost predicate IsRun(states: seq<State>, actions: seq<Action>, interval: nat) {
    && |states| == |actions| + 1 && Init(states[0])
    && forall i: nat :: i < |actions| ==> StepAt(states, actions, interval, i)
  }

  predicate StepAt(states: seq<State>, actions: seq<Action>, interval: nat, i: nat)
    requires |states| == |actions| + 1 && i < |actions|
  {
    Enabled(states[i], actions[i]) && states[i + 1] == Apply(states[i], interval, actions[i])
  }

  lemma {:induction false} RunInv(states: seq<State>, actions: seq<Action>, interval: nat, i: nat)
    requires interval >= 1 && IsRun(states, actions, interval) && i < |states|
    ensures Inv(states[i], interval)
  {
    if i == 0 {
    } else {
      RunInv(states, actions, interval, i - 1);
      assert StepAt(states, actions, interval, i - 1);
      NextInv(states[i - 1], interval, actions[i - 1]);
    }
  }

  /** In every interleaving, the stored times form a chain with steps of at least the interval. */
  lemma StoredTimesChain(states: seq<State>, actions: seq<Action>, interval: nat, i: nat)
    requires interval >= 1 && IsRun(states, actions, interval) && i < |states|
    ensures Chain(states[i].stored, interval)
  {
    RunInv(states, actions, interval, i);
  }

  /** How many of the stored times lie in [lo, hi]. */
  function Within(stored: seq<nat>, lo: int, hi: int): nat {
    if stored == [] then 0
    else
      var t := stored[|stored| - 1];
      Within(stored[..|stored| - 1], lo, hi) + if lo <= t <= hi then 1 else 0
  }

  /** Only what is stored matters: a window may be cut down to it. */
  lemma {:induction false} WithinCut(stored: seq<nat>, lo: int, hi: int, top: int)
    requires top <= hi && forall i :: 0 <= i < |stored| ==> stored[i] <= top
    ensures Within(stored, lo, hi) == Within(stored, lo, top)
    ensures top < lo ==> Within(stored, lo, hi) == 0
  {
    if stored == [] {
    } else {
      WithinCut(stored[..|stored| - 1], lo, hi, top);
    }
  }

  /** `k * interval`, by repeated addition. */
  function Scaled(k: nat, interval: nat): nat { if k == 0 then 0 else Scaled(k - 1, interval) + interval }

  lemma {:induction false} ScaledIsProduct(k: nat, interval: nat)
    ensures Scaled(k, interval) == k * interval
  {
    if k == 0 {
    } else {
      ScaledIsProduct(k - 1, interval);
      assert k * interval == (k - 1) * interval + interval;
    }
  }

  lemma {:induction false} ChainIsSparse(stored: seq<nat>, interval: nat, lo: int, hi: int)
    requires Chain(stored, interval) && lo <= hi
    ensures Scaled(Within(stored, lo, hi), interval) <= hi - lo + interval
  {
    if stored == [] {
    } else {
      var n := |stored| - 1;
      var before, t := stored[..n], stored[n];
      if lo <= t <= hi {
        forall i: nat | i < n
          ensures before[i] <= t - interval
        {
          assert stored[i] + interval <= stored[n];
        }
        WithinCut(before, lo, hi, t - interval);
        if lo <= t - interval {
          ChainIsSparse(before, interval, lo, t - interval);
        }
        assert Scaled(Within(stored, lo, hi), interval) == Scaled(Within(before, lo, hi), interval) + interval;
      } else {
        ChainIsSparse(before, interval, lo, hi);
      }
    }
  }

  /** In every interleaving, at most `(hi - lo) / interval + 1` stored times lie in [lo, hi]: that many calls
      return true with a clock reading in that window. */
  lemma FiresInWindow(states: seq<State>, actions: seq<Action>, interval: nat, i: nat, lo: int, hi: int)
    requires interval >= 1 && IsRun(states, actions, interval) && i < |states| && lo <= hi
    ensures Within(states[i].stored, lo, hi) * interval <= hi - lo + interval
  {
    StoredTimesChain(states, actions, interval, i);
    ChainIsSparse(states[i].stored, interval, lo, hi);
    ScaledIsProduct(Within(states[i].stored, lo, hi), interval);
  }

  /** The exchange is exact: a call past its interval fires if and only if no other call has fired since it
      loaded the slot.  A stored time never comes back, so the slot cannot look unchanged when it is not. */
  lemma FiresExactly(states: seq<State>, actions: seq<Action>, interval: nat, i: nat, who: Caller)
    requires interval >= 1 && IsRun(states, actions, interval) && i < |states| && Enabled(states[i], Decide(who))
    ensures var c := states[i].calls[who];
      Fires(states[i], interval, who) <==> c.prev + interval <= c.now && c.wins == |states[i].stored|
  {
    RunInv(states, actions, interval, i);
    var s, c := states[i], states[i].calls[who];
    if c.wins < |s.stored| {
      assert s.stored[c.wins - 1] + interval <= s.stored[|s.stored| - 1];
    }
  }

  /** Interval zero is outside the promise: with disagreeing clocks the slot goes backward. */
  lemma ZeroIntervalGoesBack(states: seq<State>, actions: seq<Action>)
    requires actions == [ReadClock(0, 5), LoadSlot(0), Decide(0)]
    requires states == [
      State(9, map[], [9]),
      State(9, map[0 := Timed(5)], [9]),
      State(9, map[0 := Loaded(5, 9, 1)], [9]),
      State(5, map[], [9, 5])]
    ensures IsRun(states, actions, 0) && !Chain(states[3].stored, 0)
  {
    assert Apply(states[0], 0, actions[0]) == states[1];
    assert Apply(states[1], 0, actions[1]) == states[2];
    assert Apply(states[2], 0, actions[2]) == states[3];
    assert StepAt(states, actions, 0, 0) && StepAt(states, actions, 0, 1) && StepAt(states, actions, 0, 2);
    var stored := states[3].stored;
    assert stored[0] == 9 && stored[1] == 5;
  }

  /** The slot with its callers, one method per atomic step. */
  class ThrottleSlot {
    var slot: nat
    var calls: map<Caller, Call>
    // history, kept for the specification
    var stored: seq<nat>
    const interval: nat

    ghost function View(): State
      reads this
    {
      State(slot, calls, stored)
    }

    constructor (start: nat, interval: nat)
      ensures Init(View()) && slot == start && this.interval == interval && Inv(View(), interval)
    {
      this.interval := interval;
      slot, calls, stored := start, map[], [start];
    }

    method ReadClockNow(who: Caller, now: nat)
      requires Enabled(View(), ReadClock(who, now))
      modifies this
      ensures View() == Apply(old(View()), interval, ReadClock(who, now))
      ensures interval >= 1 && Inv(old(View()), interval) ==> Inv(View(), interval)
    {
      if interval >= 1 && Inv(View(), interval) {
        NextInv(View(), interval, ReadClock(who, now));
      }
      calls := calls[who := Timed(now)];
    }

    method Load(who: Caller)
      requires Enabled(View(), LoadSlot(who))
      modifies this
      ensures View() == Apply(old(View()), interval, LoadSlot(who))
      ensures interval >= 1 && Inv(old(View()), interval) ==> Inv(View(), interval)
    {
      if interval >= 1 && Inv(View(), interval) {
        NextInv(View(), interval, LoadSlot(who));
      }
      calls := calls[who := Loaded(calls[who].now, slot, |stored|)];
    }

    /** The interval test and the compare-exchange: `fired` is what the call returns. */
    method CompareExchange(who: Caller) returns (fired: bool)
      requires Enabled(View(), Decide(who))
      modifies this
      ensures View() == Apply(old(View()), interval, Decide(who))
      ensures fired == old(Fires(View(), interval, who))
      ensures interval >= 1 && Inv(old(View()), interval) ==> Inv(View(), interval)
    {
      if interval >= 1 && Inv(View(), interval) {
        NextInv(View(), interval, Decide(who));
      }
      var c := calls[who];
      calls := calls - {who};
      fired := false;
      if Since(c.now, c.prev) >= interval {
        fired := slot == c.prev;
        if fired {
          slot, stored := c.now, stored + [c.now];
        }
      }
    }
  }
}
