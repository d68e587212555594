/** Per-host RPC request budgets: a token bucket with lazy refill and a temporary punishment
    (src/infra/rpc_budget.rs).

    Tokens, rates and times are exact reals (seconds); the clock readings of one bucket never
    decrease. */
module RpcBudget {

  import opened Prelude

  const PUNISHED_RATE: real := 4.0
  const PUNISH_SECONDS: real := 60.0

  datatype Bucket = Bucket(
    tokens: real,
    capacity: real,
    rate: real,
    base: real,
    last: real,
    punishUntil: Option<real>)

  function Smaller(a: real, b: real): real { if a <= b then a else b }

  function Larger(a: real, b: real): real { if a <= b then b else a }

  function NewBucket(rps: real, now: real): Bucket {
    var r := Larger(rps, 1.0);
    Bucket(r, r, r, r, now, None)
  }

  /** Tokens earned in `t` seconds at `rate`. */
  function Earned(t: real, rate: real): real { t * rate }

  /** Restore the base rate once the punishment is over, then credit the elapsed time. */
  function Refill(b: Bucket, now: real): Bucket {
    var b1 := if b.punishUntil.Some? && now >= b.punishUntil.value && b.rate < b.base
              then b.(rate := b.base, punishUntil := None) else b;
    if now > b.last
    then b1.(tokens := Smaller(b.tokens + Earned(now - b.last, b1.rate), b.capacity), last := now)
    else b1
  }

  function Clamp(x: real, lo: real, hi: real): real { if x < lo then lo else if x > hi then hi else x }

  /** The bucket after `try_take`, and `None` for a token taken or the delay to wait. */
  function TryTake(b: Bucket, now: real): (Bucket, Option<real>) {
    var b1 := Refill(b, now);
    if b1.tokens >= 1.0 then (b1.(tokens := b1.tokens - 1.0), None)
    else (b1, Some(Clamp((1.0 - b1.tokens) / Larger(b1.rate, 0.1), 0.005, 2.0)))
  }

  /** `punish` reads the clock twice: in `refill`, and for the deadline. */
  function Punish(b: Bucket, now: real, later: real): Bucket {
    Refill(b, now).(rate := PUNISHED_RATE, tokens := 0.0, punishUntil := Some(later + PUNISH_SECONDS))
  }

  /** The fastest rate this bucket ever runs at. */
  function TopRate(b: Bucket): real { Larger(b.base, PUNISHED_RATE) }

  predicate Valid(b: Bucket) {
    && 1.0 <= b.capacity && 1.0 <= b.base
    && 0.0 <= b.tokens <= b.capacity
    && (b.rate == b.base || b.rate == PUNISHED_RATE)
  }

  lemma EarnedMonotone(t: real, t': real, rate: real)
    requires t <= t' && 0.0 <= rate
    ensures Earned(t, rate) <= Earned(t', rate)
  {
    assert (t' - t) * rate >= 0.0;
  }

  lemma EarnedFaster(t: real, rate: real, rate': real)
    requires 0.0 <= t && rate <= rate'
    ensures Earned(t, rate) <= Earned(t, rate')
  {
    assert t * (rate' - rate) >= 0.0;
  }

  lemma EarnedBetween(t: real, t': real, rate: real)
    ensures Earned(t' - t, rate) == Earned(t', rate) - Earned(t, rate)
  {
  }

  lemma RefillKeeps(b: Bucket, now: real)
    requires Valid(b) && b.last <= now
    ensures var r := Refill(b, now);
      && Valid(r) && r.last == now && r.capacity == b.capacity && r.base == b.base
      && b.rate <= r.rate <= TopRate(b)
      && (now > b.last ==> r.tokens == Smaller(b.tokens + Earned(now - b.last, r.rate), b.capacity))
      && (now == b.last ==> r.tokens == b.tokens)
  {
    EarnedMonotone(0.0, now - b.last, Refill(b, now).rate);
  }

  /** A refill credits at most the elapsed time at any rate `top` the bucket does not exceed,
      and at least the elapsed time at its present rate. */
  lemma RefillCredit(b: Bucket, now: real, top: real)
    requires Valid(b) && b.last <= now && Refill(b, now).rate <= top
    ensures var r := Refill(b, now);
      && b.tokens <= r.tokens <= b.tokens + (Earned(now, top) - Earned(b.last, top))
      && r.tokens >= Smaller(b.tokens + (Earned(now, b.rate) - Earned(b.last, b.rate)), b.capacity)
  {
    var r := Refill(b, now);
    var dt := now - b.last;
    RefillKeeps(b, now);
    EarnedFaster(dt, r.rate, top);
    EarnedFaster(dt, b.rate, r.rate);
    EarnedBetween(b.last, now, top);
    EarnedBetween(b.last, now, b.rate);
    EarnedMonotone(0.0, dt, r.rate);
  }

  // ---------------------------------------------------------------- runs of one bucket

  datatype Event =
    | Take(at: real)
    | Status(at: real)
    | RateLimited(at: real, deadlineRead: real)

  function Apply(b: Bucket, e: Event): Bucket {
    match e
    case Take(t) => TryTake(b, t).0
    case Status(t) => Refill(b, t)
    case RateLimited(t, later) => Punish(b, t, later)
  }

  predicate Admits(b: Bucket, e: Event) { e.Take? && TryTake(b, e.at).1.None? }

  function EndOf(e: Event): real { if e.RateLimited? then e.deadlineRead else e.at }

  /** Clock readings never decrease, starting at `now`. */
  predicate Clocked(now: real, events: seq<Event>)
    decreases |events|
  {
    events == [] ||
    (now <= events[0].at <= EndOf(events[0]) && Clocked(EndOf(events[0]), events[1..]))
  }

  /** What an observer of the run sees: when, how many tokens are left, and whether a request
      was admitted. */
  datatype Obs = Obs(at: real, left: real, admitted: bool)

  function Trace(b: Bucket, events: seq<Event>): seq<Obs>
    decreases |events|
  {
    if events == [] then []
    else
      var b' := Apply(b, events[0]);
      [Obs(events[0].at, b'.tokens, Admits(b, events[0]))] + Trace(b', events[1..])
  }

  /** Admissions with a clock reading in [lo, hi]. */
  function Count(obs: seq<Obs>, lo: real, hi: real): nat {
    if obs == [] then 0
    else (if obs[0].admitted && lo <= obs[0].at <= hi then 1 else 0) + Count(obs[1..], lo, hi)
  }

  function Admitted(b: Bucket, events: seq<Event>, lo: real, hi: real): nat {
    Count(Trace(b, events), lo, hi)
  }

  function Spent(o: Obs): real { if o.admitted then 1.0 else 0.0 }

  /** A trace whose tokens are earned at `rate` at most, starting with `tokens` at `last`, as
      long as its clock stays within `horizon`. */
  predicate Paced(obs: seq<Obs>, tokens: real, last: real, rate: real, horizon: real)
    decreases |obs|
  {
    obs == [] || obs[0].at > horizon ||
    (&& last <= obs[0].at && 0.0 <= obs[0].left
     && obs[0].left + Spent(obs[0]) <= tokens + (Earned(obs[0].at, rate) - Earned(last, rate))
     && Paced(obs[1..], obs[0].left, obs[0].at, rate, horizon))
  }

  predicate Ordered(obs: seq<Obs>) {
    forall i, j :: 0 <= i < j < |obs| ==> obs[i].at <= obs[j].at
  }

  lemma {:induction false} NothingAfter(obs: seq<Obs>, lo: real, hi: real)
    requires forall i :: 0 <= i < |obs| ==> hi < obs[i].at
    ensures Count(obs, lo, hi) == 0
  {
    if obs == [] {
    } else {
      NothingAfter(obs[1..], lo, hi);
    }
  }

  /** A paced trace admits at most what it starts with plus what the time to `hi` earns. */
  lemma {:induction false} PacedBound(obs: seq<Obs>, tokens: real, last: real, rate: real, lo: real, hi: real)
    requires Paced(obs, tokens, last, rate, hi) && Ordered(obs)
    requires 0.0 <= tokens && 0.0 <= rate && last <= hi
    ensures Count(obs, lo, hi) as real <= tokens + (Earned(hi, rate) - Earned(last, rate))
    decreases |obs|
  {
    EarnedMonotone(last, hi, rate);
    if obs == [] {
    } else if obs[0].at > hi {
      NothingAfter(obs, lo, hi);
    } else {
      PacedBound(obs[1..], obs[0].left, obs[0].at, rate, lo, hi);
    }
  }

  /** Over a window: at most the capacity plus what the window earns. */
  lemma {:induction false} PacedWindow(obs: seq<Obs>, tokens: real, last: real, rate: real, cap: real, lo: real, hi: real)
    requires Paced(obs, tokens, last, rate, hi) && Ordered(obs) && 0.0 <= rate && lo <= hi && 0.0 <= cap
    requires forall i :: 0 <= i < |obs| ==> obs[i].left + Spent(obs[i]) <= cap
    ensures Count(obs, lo, hi) as real <= cap + (Earned(hi, rate) - Earned(lo, rate))
    decreases |obs|
  {
    EarnedMonotone(lo, hi, rate);
    if obs == [] {
    } else if obs[0].at > hi {
      NothingAfter(obs, lo, hi);
    } else if obs[0].at < lo {
      PacedWindow(obs[1..], obs[0].left, obs[0].at, rate, cap, lo, hi);
    } else {
      PacedBound(obs[1..], obs[0].left, obs[0].at, rate, lo, hi);
      EarnedMonotone(lo, obs[0].at, rate);
    }
  }

  // ---------------------------------------------------------------- what every run of the bucket keeps

  lemma ApplyKeeps(b: Bucket, e: Event, top: real)
    requires Valid(b) && b.last <= e.at && Refill(b, e.at).rate <= top
    ensures var r := Apply(b, e);
      var o := Obs(e.at, r.tokens, Admits(b, e));
      && Valid(r) && r.last == e.at && r.capacity == b.capacity && r.base == b.base
      && o.left + Spent(o) <= b.tokens + (Earned(e.at, top) - Earned(b.last, top))
      && o.left + Spent(o) <= b.capacity
  {
    RefillKeeps(b, e.at);
    RefillCredit(b, e.at, top);
  }

  lemma ClockedFrom(now: real, earlier: real, events: seq<Event>)
    requires Clocked(now, events) && earlier <= now
    ensures Clocked(earlier, events)
  {
  }

  lemma {:induction false} TraceOrdered(b: Bucket, events: seq<Event>, now: real)
    requires Clocked(now, events)
    ensures Ordered(Trace(b, events))
    ensures forall i :: 0 <= i < |Trace(b, events)| ==> now <= Trace(b, events)[i].at
    decreases |events|
  {
    if events == [] {
    } else {
      TraceOrdered(Apply(b, events[0]), events[1..], EndOf(events[0]));
    }
  }

  lemma {:induction false} TracePaced(b: Bucket, events: seq<Event>, horizon: real)
    requires Valid(b) && Clocked(b.last, events)
    ensures Paced(Trace(b, events), b.tokens, b.last, TopRate(b), horizon)
    ensures forall i :: 0 <= i < |Trace(b, events)| ==>
              Trace(b, events)[i].left + Spent(Trace(b, events)[i]) <= b.capacity
    decreases |events|
  {
    if events == [] {
    } else {
      var e := events[0];
      RefillKeeps(b, e.at);
      ApplyKeeps(b, e, TopRate(b));
      ClockedFrom(EndOf(e), e.at, events[1..]);
      TracePaced(Apply(b, e), events[1..], horizon);
    }
  }

  /** Window bound: for every run of takes, status reads and punishments and every window
      [lo, hi], the admissions in the window are at most the capacity plus the window's length
      at the top rate, despite lazy refill and late restoration of the base rate. */
  lemma WindowBound(b: Bucket, events: seq<Event>, lo: real, hi: real)
    requires Valid(b) && Clocked(b.last, events) && lo <= hi
    ensures Admitted(b, events, lo, hi) as real <= b.capacity + Earned(hi - lo, TopRate(b))
  {
    TraceOrdered(b, events, b.last);
    TracePaced(b, events, hi);
    PacedWindow(Trace(b, events), b.tokens, b.last, TopRate(b), b.capacity, lo, hi);
    EarnedBetween(lo, hi, TopRate(b));
  }

  /** While the punishment lasts the bucket earns at the punished rate. */
  lemma {:induction false} PunishedPaced(b: Bucket, events: seq<Event>, horizon: real)
    requires Valid(b) && Clocked(b.last, events)
    requires b.rate == PUNISHED_RATE && b.punishUntil.Some?
    requires horizon < b.punishUntil.value && horizon < b.last + PUNISH_SECONDS
    ensures Paced(Trace(b, events), b.tokens, b.last, PUNISHED_RATE, horizon)
    decreases |events|
  {
    if events != [] && events[0].at <= horizon {
      var e := events[0];
      ApplyKeeps(b, e, PUNISHED_RATE);
      ClockedFrom(EndOf(e), e.at, events[1..]);
      PunishedPaced(Apply(b, e), events[1..], horizon);
    }
  }

  /** After a punishment at `p`, whatever happens next, at most `4 * d` requests are admitted by
      `p + d`, for every `d` below 60 seconds. */
  lemma PunishmentBound(b: Bucket, p: real, later: real, events: seq<Event>, d: real)
    requires Valid(b) && b.last <= p <= later && Clocked(later, events)
    requires 0.0 <= d < 60.0
    ensures Admitted(Punish(b, p, later), events, p, p + d) as real <= 4.0 * d
  {
    var b' := Punish(b, p, later);
    RefillKeeps(b, p);
    ClockedFrom(later, p, events);
    TraceOrdered(b', events, p);
    PunishedPaced(b', events, p + d);
    PacedBound(Trace(b', events), 0.0, p, PUNISHED_RATE, p, p + d);
  }

  /** With a base rate of at least 4 the window bound holds at the base rate itself. */
  lemma BaseWindowBound(b: Bucket, events: seq<Event>, lo: real, hi: real)
    requires Valid(b) && PUNISHED_RATE <= b.base && Clocked(b.last, events) && lo <= hi
    ensures Admitted(b, events, lo, hi) as real <= b.capacity + Earned(hi - lo, b.base)
  {
    WindowBound(b, events, lo, hi);
  }

  // ---------------------------------------------------------------- the base-rate bound needs four

  function Quarter(k: nat): real { k as real / 4.0 }

  /** `n` takes, a quarter of a second apart, after the first `k` quarters. */
  function QuarterTakes(k: nat, n: nat): seq<Event>
    decreases n
  {
    if n == 0 then [] else [Take(Quarter(k + 1))] + QuarterTakes(k + 1, n - 1)
  }

  /** A slow bucket `k` quarters after it was punished, with nothing left.  Its rate is never restored,
      because the punished rate is not below the base rate. */
  function PunishedSlow(base: real, k: nat): Bucket {
    Bucket(0.0, base, PUNISHED_RATE, base, Quarter(k), Some(PUNISH_SECONDS))
  }

  lemma QuarterEarnsOne(base: real, k: nat)
    requires 1.0 <= base < PUNISHED_RATE
    ensures TryTake(PunishedSlow(base, k), Quarter(k + 1)) == (PunishedSlow(base, k + 1), None)
  {
    assert Quarter(k + 1) - Quarter(k) == 0.25;
    assert Earned(0.25, PUNISHED_RATE) == 1.0;
  }

  lemma {:induction false} SlowAdmitsAll(base: real, k: nat, n: nat, lo: real, hi: real)
    requires 1.0 <= base < PUNISHED_RATE && lo <= Quarter(k + 1) && Quarter(k + n) <= hi
    ensures Admitted(PunishedSlow(base, k), QuarterTakes(k, n), lo, hi) == n
    ensures Clocked(Quarter(k), QuarterTakes(k, n))
    decreases n
  {
    if n == 0 {
    } else {
      var events := QuarterTakes(k, n);
      QuarterEarnsOne(base, k);
      SlowAdmitsAll(base, k + 1, n - 1, lo, hi);
      assert events[1..] == QuarterTakes(k + 1, n - 1);
      var rest := Trace(PunishedSlow(base, k + 1), events[1..]);
      assert Trace(PunishedSlow(base, k), events) == [Obs(Quarter(k + 1), 0.0, true)] + rest;
      assert ([Obs(Quarter(k + 1), 0.0, true)] + rest)[1..] == rest;
    }
  }

  /** So many quarters that the punished rate has made up for the capacity. */
  predicate Enough(base: real, n: nat) { Earned(n as real, PUNISHED_RATE - base) > 3.0 * base }

  lemma EnoughExists(base: real) returns (n: nat)
    requires 1.0 <= base < PUNISHED_RATE
    ensures n > 0 && Enough(base, n)
  {
    var gap := PUNISHED_RATE - base;
    var q := 3.0 * base / gap;
    Quotient(3.0 * base, gap);
    n := if q < 0.0 then 1 else q.Floor + 1;
    EarnedGrows(q, n as real, gap);
  }

  lemma Quotient(x: real, y: real)
    requires y > 0.0
    ensures Earned(x / y, y) == x
  {
  }

  lemma EarnedGrows(t: real, t': real, rate: real)
    requires t < t' && 0.0 < rate
    ensures Earned(t, rate) < Earned(t', rate)
  {
    assert (t' - t) * rate > 0.0;
  }

  lemma ManyQuartersBeat(base: real, n: nat)
    requires n > 0 && Enough(base, n)
    ensures n as real > base + Earned(Quarter(n) - Quarter(1), base)
  {
    var m := n as real;
    assert Quarter(n) - Quarter(1) == (m - 1.0) / 4.0;
    assert Earned((m - 1.0) / 4.0, base) == (m * base - base) / 4.0;
    assert Earned(m, PUNISHED_RATE - base) == 4.0 * m - m * base;
  }

  /** A slow bucket that is punished at once admits every quarter-second take. */
  lemma SlowRun(base: real, n: nat)
    requires 1.0 <= base < PUNISHED_RATE && n > 0
    ensures Clocked(0.0, [RateLimited(0.0, 0.0)] + QuarterTakes(0, n))
    ensures Admitted(NewBucket(base, 0.0), [RateLimited(0.0, 0.0)] + QuarterTakes(0, n), Quarter(1), Quarter(n)) == n
  {
    var b, punish, takes := NewBucket(base, 0.0), RateLimited(0.0, 0.0), QuarterTakes(0, n);
    SlowAdmitsAll(base, 0, n, Quarter(1), Quarter(n));
    assert Apply(b, punish) == PunishedSlow(base, 0);
    assert ([punish] + takes)[1..] == takes;
    var rest := Trace(PunishedSlow(base, 0), takes);
    assert Trace(b, [punish] + takes) == [Obs(0.0, 0.0, false)] + rest;
    assert ([Obs(0.0, 0.0, false)] + rest)[1..] == rest;
  }

  /** Below 4 the bound at the base rate fails: one punishment raises the rate for good, and a long enough
      window holds more admissions than capacity plus base rate allow.  So for a new bucket the bound at the
      base rate holds in every run exactly when the base rate is at least 4. */
  lemma PunishmentSpeedsUpSlowBucket(base: real) returns (events: seq<Event>, lo: real, hi: real)
    requires 1.0 <= base < PUNISHED_RATE
    ensures Valid(NewBucket(base, 0.0)) && Clocked(0.0, events) && lo <= hi
    ensures Admitted(NewBucket(base, 0.0), events, lo, hi) as real > base + Earned(hi - lo, base)
  {
    var n := EnoughExists(base);
    events, lo, hi := [RateLimited(0.0, 0.0)] + QuarterTakes(0, n), Quarter(1), Quarter(n);
    SlowRun(base, n);
    ManyQuartersBeat(base, n);
  }

  // ---------------------------------------------------------------- a punishment ends

  /** The bucket after a run. */
  function After(b: Bucket, events: seq<Event>): Bucket
    decreases |events|
  {
    if events == [] then b else After(Apply(b, events[0]), events[1..])
  }

  /** Punished until `until`, or restored since. */
  predicate Serving(b: Bucket, until: real) {
    && Valid(b) && PUNISHED_RATE <= b.base
    && if b.last < until then b.rate == PUNISHED_RATE && b.punishUntil == Some(until) else b.rate == b.base
  }

  lemma ServingStep(b: Bucket, e: Event, until: real)
    requires Serving(b, until) && b.last <= e.at && !e.RateLimited?
    ensures Serving(Apply(b, e), until) && Apply(b, e).last == e.at && Apply(b, e).base == b.base
  {
    ApplyKeeps(b, e, TopRate(b));
  }

  lemma {:induction false} ServingRun(b: Bucket, events: seq<Event>, until: real)
    requires Serving(b, until) && Clocked(b.last, events)
    requires forall i :: 0 <= i < |events| ==> !events[i].RateLimited?
    ensures Serving(After(b, events), until) && After(b, events).base == b.base
    ensures events == [] ==> After(b, events).last == b.last
    ensures events != [] ==> After(b, events).last == events[|events| - 1].at
    decreases |events|
  {
    if events == [] {
    } else {
      ServingStep(b, events[0], until);
      ServingRun(Apply(b, events[0]), events[1..], until);
    }
  }

  /** In every run without a further 429, the punished rate of 4 per second holds at each reading before the 60
      seconds are over, and the base rate from the first reading after them. */
  lemma PunishmentEnds(b: Bucket, p: real, later: real, events: seq<Event>)
    requires Valid(b) && 4.0 <= b.base && b.last <= p <= later && Clocked(later, events) && events != []
    requires forall i :: 0 <= i < |events| ==> !events[i].RateLimited?
    ensures var end, t := After(Punish(b, p, later), events), events[|events| - 1].at;
      end.rate == if t < later + 60.0 then 4.0 else b.base
  {
    var b' := Punish(b, p, later);
    RefillKeeps(b, p);
    ClockedFrom(later, p, events);
    ServingRun(b', events, later + 60.0);
  }

  /** A restored bucket earns at its base rate again: left alone for `d` seconds it has `base * d` tokens more, up to
      its capacity. */
  lemma RestoredEarns(b: Bucket, t: real, d: real)
    requires Valid(b) && b.rate == b.base && 4.0 <= b.base && b.last == t && 0.0 < d
    ensures Refill(b, t + d).tokens == (if b.tokens + b.base * d <= b.capacity then b.tokens + b.base * d else b.capacity)
  {
    assert Earned(t + d - t, b.base) == b.base * d;
  }

  /** A new bucket admits its whole burst at once. */
  lemma {:induction false} BurstAdmitted(b: Bucket, n: nat)
    requires Valid(b) && n as real <= b.tokens
    ensures Admitted(b, seq(n, i => Take(b.last)), b.last, b.last) == n
    decreases n
  {
    var events := seq(n, i => Take(b.last));
    if n == 0 {
    } else {
      var b' := Apply(b, events[0]);
      assert events[1..] == seq(n - 1, i => Take(b'.last));
      BurstAdmitted(b', n - 1);
      var rest := Trace(b', events[1..]);
      assert Trace(b, events) == [Obs(b.last, b'.tokens, true)] + rest;
      assert ([Obs(b.last, b'.tokens, true)] + rest)[1..] == rest;
    }
  }

  /** The rates the program promises its hosts, and their bursts. */
  lemma PublishedRates(host: string, now: real)
    ensures var b := NewBucket(DefaultRps(TierOf(host)), now);
      var free := Contains(host, "publicnode") || Contains(host, "allnodes");
      var paid := Contains(host, "alchemy") || Contains(host, "ankr.com") || Contains(host, "chainstack")
        || Contains(host, "quicknode") || Contains(host, "quiknode") || Contains(host, "infura");
      && Valid(b) && b.last == now && b.tokens == b.capacity == b.rate == b.base
      && b.base == if !free && Contains(host, "drpc") then 10.0 else if !free && paid then 40.0 else 16.0
  {
  }

  // ---------------------------------------------------------------- waiting

  /** From here on a token is certain at `t`: the bucket has it, or earns it in time. */
  predicate ReadyBy(b: Bucket, t: real) {
    Valid(b) && b.last <= t && b.tokens + (Earned(t, b.rate) - Earned(b.last, b.rate)) >= 1.0
  }

  /** The delay `try_take` returns is always enough for a caller nobody competes with. */
  lemma DelayIsEnough(b: Bucket, now: real, t: real)
    requires Valid(b) && b.last <= now && TryTake(b, now).1.Some? && now + TryTake(b, now).1.value <= t
    ensures ReadyBy(TryTake(b, now).0, t)
  {
    RefillKeeps(b, now);
    var b1 := Refill(b, now);
    var need := 1.0 - b1.tokens;
    var wait := need / b1.rate;
    WaitTime(need, b1.rate);
    assert TryTake(b, now).1.value >= wait;
    EarnedMonotone(wait, t - now, b1.rate);
    EarnedBetween(now, t, b1.rate);
  }

  /** And it is no longer than needed: it is 5 milliseconds, or exactly what the missing part of a token takes. */
  lemma DelayIsTight(b: Bucket, now: real)
    requires Valid(b) && b.last <= now && TryTake(b, now).1.Some?
    ensures var r, delay := Refill(b, now), TryTake(b, now).1.value;
      && TryTake(b, now).0 == r && r.tokens < 1.0 && 0.005 <= delay <= 1.0
      && (delay == 0.005 || r.tokens + delay * r.rate == 1.0)
  {
    RefillKeeps(b, now);
    var b1 := Refill(b, now);
    WaitTime(1.0 - b1.tokens, b1.rate);
    assert Earned((1.0 - b1.tokens) / b1.rate, b1.rate) == (1.0 - b1.tokens) / b1.rate * b1.rate;
  }

  lemma WaitTime(need: real, rate: real)
    requires 0.0 <= need <= 1.0 && 1.0 <= rate
    ensures 0.0 <= need / rate <= 1.0 && Earned(need / rate, rate) == need
  {
    assert need / rate * rate == need;
  }

  /** Status reads while waiting do not spoil it. */
  lemma StatusKeepsReady(b: Bucket, now: real, t: real)
    requires ReadyBy(b, t) && b.last <= now <= t
    ensures ReadyBy(Refill(b, now), t)
  {
    RefillKeeps(b, now);
    var r := Refill(b, now);
    RefillCredit(b, now, r.rate);
    EarnedMonotone(now, t, r.rate);
    EarnedFaster(t - now, b.rate, r.rate);
    EarnedBetween(now, t, r.rate);
    EarnedBetween(now, t, b.rate);
  }

  lemma ReadyTakes(b: Bucket, t: real)
    requires ReadyBy(b, t)
    ensures TryTake(b, t).1.None?
  {
    RefillCredit(b, t, Refill(b, t).rate);
    RefillKeeps(b, t);
  }

  /** Sleeping the returned delay, with any number of status reads meanwhile, always ends in an
      admission. */
  lemma {:induction false} SleepOnceThenAdmitted(b: Bucket, looks: seq<real>, t: real)
    requires ReadyBy(b, t)
    requires forall i :: 0 <= i < |looks| ==> b.last <= looks[i] <= t
    requires forall i, j :: 0 <= i < j < |looks| ==> looks[i] <= looks[j]
    ensures TryTake(AfterReads(b, looks), t).1.None?
    decreases |looks|
  {
    if looks == [] {
      ReadyTakes(b, t);
    } else {
      StatusKeepsReady(b, looks[0], t);
      RefillKeeps(b, looks[0]);
      SleepOnceThenAdmitted(Refill(b, looks[0]), looks[1..], t);
    }
  }

  function AfterReads(b: Bucket, looks: seq<real>): Bucket
    decreases |looks|
  {
    if looks == [] then b else AfterReads(Refill(b, looks[0]), looks[1..])
  }

  // ---------------------------------------------------------------- the bucket object

  /** `TokenBucket`, updated in place; clock readings are arguments. */
  class TokenBucket {
    var tokens: real
    const capacity: real
    var refillPerSec: real
    const baseRefillPerSec: real
    var last: real
    var punishUntil: Option<real>

    ghost function View(): Bucket
      reads this
    {
      Bucket(tokens, capacity, refillPerSec, baseRefillPerSec, last, punishUntil)
    }

    constructor (rps: real, now: real)
      ensures View() == NewBucket(rps, now) && Valid(View())
    {
      var r := Larger(rps, 1.0);
      tokens, capacity, refillPerSec, baseRefillPerSec := r, r, r, r;
      last, punishUntil := now, None;
    }

    method RefillNow(now: real)
      requires Valid(View()) && last <= now
      modifies this
      ensures View() == Refill(old(View()), now) && Valid(View()) && last == now
    {
      RefillKeeps(View(), now);
      if punishUntil.Some? && now >= punishUntil.value && refillPerSec < baseRefillPerSec {
        refillPerSec := baseRefillPerSec;
        punishUntil := None;
      }
      var elapsed := now - last;
      if elapsed > 0.0 {
        tokens := Smaller(tokens + Earned(elapsed, refillPerSec), capacity);
        last := now;
      }
    }

    method Take(now: real) returns (wait: Option<real>)
      requires Valid(View()) && last <= now
      modifies this
      ensures (View(), wait) == TryTake(old(View()), now) && Valid(View()) && last == now
    {
      RefillNow(now);
      if tokens >= 1.0 {
        tokens := tokens - 1.0;
        return None;
      }
      var need := 1.0 - tokens;
      return Some(Clamp(need / Larger(refillPerSec, 0.1), 0.005, 2.0));
    }

    method PunishNow(now: real, later: real)
      requires Valid(View()) && last <= now <= later
      modifies this
      ensures View() == Punish(old(View()), now, later) && Valid(View())
    {
      RefillNow(now);
      refillPerSec := PUNISHED_RATE;
      tokens := 0.0;
      punishUntil := Some(later + PUNISH_SECONDS);
    }
  }

  /** `admit_url` for a caller alone on its bucket: it is admitted after at most one sleep.
      `overshoot` is how much longer than asked a sleep lasts. */
  method AdmitUrl(bucket: TokenBucket, start: real, overshoot: real) returns (sleeps: nat, admittedAt: real)
    requires Valid(bucket.View()) && bucket.last <= start && 0.0 <= overshoot
    modifies bucket
    ensures sleeps <= 1 && start <= admittedAt && bucket.last == admittedAt
    ensures sleeps == 0 <==> TryTake(old(bucket.View()), start).1.None?
    ensures sleeps == 0 ==> admittedAt == start && bucket.View() == TryTake(old(bucket.View()), start).0
    ensures sleeps == 1 ==>
      var (waiting, delay) := TryTake(old(bucket.View()), start);
      && delay.Some? && admittedAt == start + delay.value + overshoot
      && TryTake(waiting, admittedAt) == (bucket.View(), None)
    ensures Valid(bucket.View())
  {
    sleeps, admittedAt := 0, start;
    var waiting := true;
    while waiting
      invariant sleeps <= 1 && start <= admittedAt && Valid(bucket.View()) && bucket.last <= admittedAt
      invariant sleeps == 0 && waiting ==> bucket.View() == old(bucket.View()) && admittedAt == start
      invariant sleeps == 1 ==>
        var delay := TryTake(old(bucket.View()), start).1;
        delay.Some? && admittedAt == start + delay.value + overshoot
      invariant sleeps == 1 && waiting ==> ReadyBy(bucket.View(), admittedAt)
      invariant sleeps == 1 && waiting ==> bucket.View() == TryTake(old(bucket.View()), start).0
      invariant !waiting ==> bucket.last == admittedAt
      invariant !waiting && sleeps == 0 ==>
                  admittedAt == start && TryTake(old(bucket.View()), start) == (bucket.View(), None)
      invariant !waiting && sleeps == 1 ==>
                  TryTake(TryTake(old(bucket.View()), start).0, admittedAt) == (bucket.View(), None)
      decreases waiting, 1 - sleeps
    {
      if sleeps == 1 {
        ReadyTakes(bucket.View(), admittedAt);
      }
      ghost var before := bucket.View();
      var wait := bucket.Take(admittedAt);
      match wait {
        case None => waiting := false;
        case Some(delay) =>
          DelayIsEnough(before, admittedAt, admittedAt + delay + overshoot);
          sleeps, admittedAt := sleeps + 1, admittedAt + delay + overshoot;
      }
    }
  }

  // ---------------------------------------------------------------- host tiers

  datatype HostTier = Paid | Drpc | FreePublic

  predicate Contains(host: string, part: string) {
    exists i :: 0 <= i <= |host| && part <= host[i..]
  }

  /** `host_tier`, on a lower-cased host label. */
  function TierOf(host: string): HostTier {
    if Contains(host, "publicnode") || Contains(host, "allnodes") then FreePublic
    else if Contains(host, "drpc") then Drpc
    else if Contains(host, "alchemy") || Contains(host, "ankr.com") || Contains(host, "chainstack")
            || Contains(host, "quicknode") || Contains(host, "quiknode") || Contains(host, "infura") then Paid
    else FreePublic
  }

  function DefaultRps(tier: HostTier): real {
    match tier
    case FreePublic => 16.0
    case Drpc => 10.0
    case Paid => 40.0
  }

  /** Every bucket the program creates obeys the window bound at its own published rate: at
      most `rps` plus `rps` per second, whatever 429s arrive. */
  lemma HostWindowBound(host: string, start: real, events: seq<Event>, lo: real, hi: real)
    requires Clocked(start, events) && lo <= hi
    ensures var rps := DefaultRps(TierOf(host));
      Admitted(NewBucket(rps, start), events, lo, hi) as real <= rps + Earned(hi - lo, rps)
  {
    WindowBound(NewBucket(DefaultRps(TierOf(host)), start), events, lo, hi);
  }
}
