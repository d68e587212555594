/** The HF tick scheduler (src/orchestrator/pass_loop.rs).

    The pass loop and every spawned HF task share a one-permit semaphore, the flags `pending`
    and `stream_pending`, the WSS latch and the shutdown flag.  A finishing task may schedule
    its own successor, so several threads can be inside `schedule_hf_tick` at once.  One
    `Action` is one atomic step; all interleavings are runs of the machine.

    Every stream signal (a WSS notify, or a wake of the watch arm) and every tick request has
    an identity.  The `Books` say which flag currently stands for which of them: whenever the
    code copies, stores, swaps or drops a flag, the identities it stands for move or vanish
    with it.  Conservation is then the theorem that none vanishes before shutdown. */
module HfSchedule {

  import opened Prelude

  type Tid = nat

  const PASS_LOOP: Tid := 0

  /** Program points. */
  datatype At =
    | Idle              // the pass loop, waiting in select!
    | TimerPeek         // schedule_timer_tick: stream_pending swapped, latch not yet peeked
    | CheckShutdown     // entry of schedule_hf_tick
    | ClearPending      // shutdown seen: two stores, then return
    | ClearStream
    | Acquire           // try_acquire_owned
    | StorePending      // refused
    | PeekLatch
    | StoreStream
    | ResetPending      // permit held from here ...
    | TakeLatch
    | TakeStream
    | Spawn
    | TaskCheck         // the spawned task
    | TaskClearPending
    | TaskClearStream
    | TaskDropPermit
    | Begin             // shutdown check passed, run_hf_tick not yet called
    | Relatch           // run_hf_tick: take the latch
    | Ticking           // ... to here
    | TakePending       // permit dropped
    | RescheduleCheck
    | Done

  /** One thread: where it is, its `stream_triggered` local, and what it stands for. */
  datatype Thread = Thread(at: At, flag: bool, signals: set<nat>, requests: set<nat>)

  datatype Books = Books(
    inLatch: set<nat>,
    inStreamPending: set<nat>,
    inPending: set<nat>,
    servedSignals: set<nat>,
    servedRequests: set<nat>,
    begunAfterShutdown: nat)

  datatype Shared = Shared(
    permitFree: bool,
    pending: bool,
    streamPending: bool,
    latch: nat,
    shutdown: bool,
    books: Books)

  datatype State = State(
    shared: Shared,
    threads: map<Tid, Thread>,
    lastStreamAt: nat,
    signals: set<nat>,
    requests: set<nat>)

  datatype Action =
    | Notify(signal: nat)
    | Shutdown
    | TimerTick(request: nat)
    | StreamWake(now: nat, signal: nat, request: nat)
    | Step(tid: Tid, now: nat, child: Tid)

  datatype Effect = Effect(shared: Shared, thread: Thread, spawned: Option<Thread>)

  function Home(tid: Tid): At { if tid == PASS_LOOP then Idle else Done }

  /** A thread at `at` holding no flag, no signal and no request. */
  function Bare(at: At): Thread { Thread(at, false, {}, {}) }

  predicate Caller(at: At) {
    at.TimerPeek? || at.CheckShutdown? || at.ClearPending? || at.ClearStream? || at.Acquire?
    || at.StorePending? || at.PeekLatch? || at.StoreStream?
  }

  predicate Holder(at: At) { at.ResetPending? || at.TakeLatch? || at.TakeStream? || at.Spawn? }

  predicate InTick(at: At) { at.Begin? || at.Relatch? || at.Ticking? }

  /** The caller's part of the scheduler: the two shutdown stores, the acquire, the refusal. */
  function AdvanceCaller(g: Shared, p: Thread, home: At): Effect
    requires Caller(p.at)
  {
    var b := g.books;
    match p.at
    case TimerPeek => Effect(g, p.(at := CheckShutdown, flag := p.flag || g.latch > 0), None)
    case CheckShutdown =>
      Effect(g, if g.shutdown then Bare(ClearPending) else p.(at := Acquire), None)
    case ClearPending =>
      Effect(g.(pending := false, books := b.(inPending := {})), Bare(ClearStream), None)
    case ClearStream =>
      Effect(g.(streamPending := false, books := b.(inStreamPending := {})), Bare(home), None)
    case Acquire =>
      if g.permitFree then Effect(g.(permitFree := false), p.(at := ResetPending), None)
      else Effect(g, p.(at := StorePending), None)
    case StorePending =>
      Effect(g.(pending := true, books := b.(inPending := b.inPending + p.requests)),
             p.(at := PeekLatch, requests := {}), None)
    case PeekLatch =>
      Effect(g, if p.flag || g.latch > 0 then p.(at := StoreStream) else Bare(home), None)
    case StoreStream =>
      Effect(g.(streamPending := true, books := b.(inStreamPending := b.inStreamPending + p.signals)),
             Bare(home), None)
  }

  /** With the permit: reset `pending`, take the latch and `stream_pending`, spawn the task. */
  function AdvanceHolder(g: Shared, p: Thread, home: At): Effect
    requires Holder(p.at)
  {
    var b := g.books;
    match p.at
    case ResetPending =>
      // the tick this permit is for answers every request `pending` stood for
      Effect(g.(pending := false, books := b.(inPending := {})),
             p.(at := TakeLatch, requests := p.requests + b.inPending), None)
    case TakeLatch =>
      var taken := if g.latch > 0 then b.inLatch else {};
      Effect(g.(latch := 0, books := b.(inLatch := {})),
             p.(at := TakeStream, flag := p.flag || g.latch > 0, signals := p.signals + taken), None)
    case TakeStream =>
      var taken := if g.streamPending then b.inStreamPending else {};
      Effect(g.(streamPending := false, books := b.(inStreamPending := {})),
             p.(at := Spawn, flag := p.flag || g.streamPending, signals := p.signals + taken), None)
    case Spawn => Effect(g, Bare(home), Some(p.(at := TaskCheck)))
  }

  /** The spawned task: its own shutdown check, the tick, and the reschedule. */
  function AdvanceTask(g: Shared, p: Thread, home: At): Effect
    requires !Caller(p.at) && !Holder(p.at) && !InTick(p.at)
  {
    var b := g.books;
    match p.at
    case TaskCheck =>
      Effect(g, if g.shutdown then Bare(TaskClearPending) else p.(at := Begin), None)
    case TaskClearPending =>
      Effect(g.(pending := false, books := b.(inPending := {})), Bare(TaskClearStream), None)
    case TaskClearStream =>
      Effect(g.(streamPending := false, books := b.(inStreamPending := {})), Bare(TaskDropPermit), None)
    case TaskDropPermit => Effect(g.(permitFree := true), Bare(home), None)
    case TakePending =>
      Effect(g.(pending := false, books := b.(inPending := {})),
             if g.pending then Thread(RescheduleCheck, false, {}, b.inPending) else Bare(home), None)
    case RescheduleCheck =>
      Effect(g, if g.shutdown then Bare(ClearPending) else p.(at := CheckShutdown), None)
    case Idle => Effect(g, p, None)
    case Done => Effect(g, p, None)
  }

  /** `run_hf_tick`: from the call to the drop of the permit. */
  function AdvanceTick(g: Shared, p: Thread): Effect
    requires InTick(p.at)
  {
    var b := g.books;
    match p.at
    case Begin =>
      var b' := b.(servedRequests := b.servedRequests + p.requests,
                   servedSignals := b.servedSignals + if p.flag then p.signals else {},
                   begunAfterShutdown := b.begunAfterShutdown + if g.shutdown then 1 else 0);
      Effect(g.(books := b'), Thread(Relatch, p.flag, {}, {}), None)
    case Relatch =>
      var flag := p.flag || g.latch > 0;
      var b' := b.(inLatch := {}, servedSignals := b.servedSignals + if flag then b.inLatch else {});
      Effect(g.(latch := 0, books := b'), Thread(Ticking, flag, {}, {}), None)
    case Ticking => Effect(g.(permitFree := true), Bare(TakePending), None)
  }

  /** One step of a thread. */
  function Advance(g: Shared, p: Thread, home: At): Effect {
    if Caller(p.at) then AdvanceCaller(g, p, home)
    else if Holder(p.at) then AdvanceHolder(g, p, home)
    else if InTick(p.at) then AdvanceTick(g, p)
    else AdvanceTask(g, p, home)
  }

  function Elapsed(now: nat, last: nat): nat { if now < last then 0 else now - last }

  predicate PassLoopIdle(s: State) { PASS_LOOP in s.threads && s.threads[PASS_LOOP].at.Idle? }

  predicate Enabled(s: State, a: Action) {
    match a
    case Notify(x) => x !in s.signals
    case Shutdown => true
    case TimerTick(r) => PassLoopIdle(s) && r !in s.requests
    case StreamWake(_, x, r) => PassLoopIdle(s) && x !in s.signals && r !in s.requests
    case Step(t, _, child) => t in s.threads && child !in s.threads && !s.threads[t].at.Idle?
  }

  /** `minInterval` is `stream_min_interval`. */
  function Apply(s: State, a: Action, minInterval: nat): State
    requires Enabled(s, a)
  {
    var g, b := s.shared, s.shared.books;
    match a
    case Notify(x) =>
      s.(shared := g.(latch := g.latch + 1, books := b.(inLatch := b.inLatch + {x})),
         signals := s.signals + {x})
    case Shutdown => s.(shared := g.(shutdown := true))
    case TimerTick(r) =>
      var p := Thread(TimerPeek, g.streamPending, if g.streamPending then b.inStreamPending else {}, {r});
      s.(shared := g.(streamPending := false, books := b.(inStreamPending := {})),
         threads := s.threads[PASS_LOOP := p],
         requests := s.requests + {r})
    case StreamWake(now, x, r) =>
      if Elapsed(now, s.lastStreamAt) < minInterval then
        // rate-limited: the signal is parked for the timer or the finishing task
        s.(shared := g.(streamPending := true, books := b.(inStreamPending := b.inStreamPending + {x})),
           signals := s.signals + {x})
      else
        s.(threads := s.threads[PASS_LOOP := Thread(CheckShutdown, true, {x}, {r})],
           lastStreamAt := now,
           signals := s.signals + {x},
           requests := s.requests + {r})
    case Step(t, now, child) => StepThread(s, t, now, child)
  }

  function StepThread(s: State, t: Tid, now: nat, child: Tid): State
    requires t in s.threads && child !in s.threads
  {
    var e := Advance(s.shared, s.threads[t], Home(t));
    var threads := s.threads[t := e.thread];
    s.(shared := e.shared,
       threads := if e.spawned.Some? then threads[child := e.spawned.value] else threads,
       lastStreamAt := if s.threads[t].at.TimerPeek? && e.thread.flag then now else s.lastStreamAt)
  }

  predicate Init(s: State) {
    s == State(Shared(true, false, false, 0, false, Books({}, {}, {}, {}, {}, 0)),
               map[PASS_LOOP := Bare(Idle)], s.lastStreamAt, {}, {})
  }

  predicate Next(s: State, a: Action, s': State, minInterval: nat) {
    Enabled(s, a) && s' == Apply(s, a, minInterval)
  }

  predicate StepAt(states: seq<State>, actions: seq<Action>, minInterval: nat, i: nat)
    requires |states| == |actions| + 1 && i < |actions|
  {
    Next(states[i], actions[i], states[i + 1], minInterval)
  }

  ghost predicate IsRun(states: seq<State>, actions: seq<Action>, minInterval: nat) {
    && |states| == |actions| + 1
    && Init(states[0])
    && forall i: nat :: i < |actions| ==> StepAt(states, actions, minInterval, i)
  }

  /** A permit holder that has not begun its tick. */
  predicate Preparing(at: At) {
    Holder(at) || at.TaskCheck? || at.Begin?
  }

  predicate TickRunning(at: At) { at.Relatch? || at.Ticking? }

  predicate HoldsPermit(at: At) {
    Preparing(at) || TickRunning(at) || at.TaskClearPending? || at.TaskClearStream? || at.TaskDropPermit?
  }

  /** A caller inside the scheduler whose answer is still open. */
  predicate Calling(at: At) { at.TimerPeek? || at.CheckShutdown? || at.Acquire? || at.StorePending? }

  /** Where a thread's `stream_triggered` local is still on its way to a tick or a flag. */
  predicate CarriesSignal(at: At) { Calling(at) || at.PeekLatch? || at.StoreStream? || Preparing(at) }

  predicate CarriesRequest(at: At) { Calling(at) || at.RescheduleCheck? || Preparing(at) }

  predicate Clearing(at: At) {
    at.ClearPending? || at.ClearStream? || at.TaskClearPending? || at.TaskClearStream? || at.TaskDropPermit?
  }

  // ---------------------------------------------------------------- the inductive invariant

  ghost predicate OnePermit(s: State) {
    && (s.shared.permitFree <==> forall t :: t in s.threads ==> !HoldsPermit(s.threads[t].at))
    && (forall t, u | t in s.threads && u in s.threads ::
          HoldsPermit(s.threads[t].at) && HoldsPermit(s.threads[u].at) ==> t == u)
  }

  /** Identities sit only where a raised flag stands for them. */
  predicate FlagsStand(g: Shared) {
    && (forall x :: x in g.books.inLatch ==> g.latch > 0)
    && (forall x :: x in g.books.inStreamPending ==> g.streamPending)
    && (forall r :: r in g.books.inPending ==> g.pending)
  }

  predicate ThreadStands(p: Thread) {
    && (forall x :: x in p.signals ==> p.flag && CarriesSignal(p.at))
    && (forall r :: r in p.requests ==> CarriesRequest(p.at))
  }

  predicate SignalAccounted(s: State, x: nat) {
    var b := s.shared.books;
    x in b.servedSignals || x in b.inLatch || x in b.inStreamPending
    || exists t :: t in s.threads && x in s.threads[t].signals
  }

  predicate RequestAccounted(s: State, r: nat) {
    var b := s.shared.books;
    r in b.servedRequests || r in b.inPending
    || exists t :: t in s.threads && r in s.threads[t].requests
  }

  ghost predicate Conserved(s: State) {
    && (forall x :: x in s.signals ==> SignalAccounted(s, x))
    && (forall r :: r in s.requests ==> RequestAccounted(s, r))
  }

  /** At most one tick begins after shutdown: either it has begun, or it is the only thread
      past its shutdown check. */
  ghost predicate ShutdownSafe(s: State) {
    var n := s.shared.books.begunAfterShutdown;
    && n <= 1
    && (!s.shared.shutdown ==> n == 0)
    && (n == 1 ==> forall t :: t in s.threads ==> !s.threads[t].at.Begin?)
  }

  ghost predicate Inv(s: State) {
    && OnePermit(s)
    && FlagsStand(s.shared)
    && (forall t :: t in s.threads ==> ThreadStands(s.threads[t]))
    && (forall t :: t in s.threads && Clearing(s.threads[t].at) ==> s.shared.shutdown)
    && (!s.shared.shutdown ==> Conserved(s))
    && ShutdownSafe(s)
  }

  lemma InitInv(s: State)
    requires Init(s)
    ensures Inv(s)
  {
  }

  // ---------------------------------------------------------------- one thread step

  predicate SpawnedHolds(e: Effect) { e.spawned.Some? && HoldsPermit(e.spawned.value.at) }

  /** A permit is handed on, given back, or taken when free. */
  predicate PermitMoves(g: Shared, p: Thread, e: Effect) {
    if HoldsPermit(p.at) then
      (e.shared.permitFree == g.permitFree && HoldsPermit(e.thread.at) != SpawnedHolds(e))
      || (e.shared.permitFree && !HoldsPermit(e.thread.at) && !SpawnedHolds(e))
    else
      && e.spawned.None?
      && if HoldsPermit(e.thread.at) then g.permitFree && !e.shared.permitFree
         else e.shared.permitFree == g.permitFree
  }

  ghost predicate EffectStands(e: Effect) {
    FlagsStand(e.shared) && ThreadStands(e.thread) && (e.spawned.Some? ==> ThreadStands(e.spawned.value))
  }

  predicate HasSignal(b: Books, p: Thread, x: nat) {
    x in b.servedSignals || x in b.inLatch || x in b.inStreamPending || x in p.signals
  }

  predicate HasRequest(b: Books, p: Thread, r: nat) {
    r in b.servedRequests || r in b.inPending || r in p.requests
  }

  /** A step loses no identity. */
  ghost predicate Conserves(g: Shared, p: Thread, e: Effect) {
    && (forall x :: HasSignal(g.books, p, x) ==>
          HasSignal(e.shared.books, e.thread, x) || (e.spawned.Some? && x in e.spawned.value.signals))
    && (forall r :: HasRequest(g.books, p, r) ==>
          HasRequest(e.shared.books, e.thread, r) || (e.spawned.Some? && r in e.spawned.value.requests))
  }

  lemma CallerStands(g: Shared, p: Thread, home: At)
    requires (home.Idle? || home.Done?) && Caller(p.at) && FlagsStand(g) && ThreadStands(p)
    ensures PermitMoves(g, p, AdvanceCaller(g, p, home)) && EffectStands(AdvanceCaller(g, p, home))
  {
  }

  lemma HolderStands(g: Shared, p: Thread, home: At)
    requires (home.Idle? || home.Done?) && Holder(p.at) && FlagsStand(g) && ThreadStands(p)
    ensures PermitMoves(g, p, AdvanceHolder(g, p, home)) && EffectStands(AdvanceHolder(g, p, home))
  {
  }

  lemma TickStands(g: Shared, p: Thread)
    requires InTick(p.at) && FlagsStand(g) && ThreadStands(p)
    ensures PermitMoves(g, p, AdvanceTick(g, p)) && EffectStands(AdvanceTick(g, p))
  {
  }

  lemma TaskPermit(g: Shared, p: Thread, home: At)
    requires (home.Idle? || home.Done?) && !Caller(p.at) && !Holder(p.at) && !InTick(p.at)
    ensures PermitMoves(g, p, AdvanceTask(g, p, home))
  {
  }

  lemma TaskStands(g: Shared, p: Thread, home: At)
    requires (home.Idle? || home.Done?) && !Caller(p.at) && !Holder(p.at) && !InTick(p.at)
    requires FlagsStand(g) && ThreadStands(p)
    ensures EffectStands(AdvanceTask(g, p, home))
  {
  }

  lemma AdvanceStands(g: Shared, p: Thread, home: At)
    requires (home.Idle? || home.Done?) && FlagsStand(g) && ThreadStands(p)
    ensures PermitMoves(g, p, Advance(g, p, home)) && EffectStands(Advance(g, p, home))
  {
    if Caller(p.at) {
      CallerStands(g, p, home);
    } else if Holder(p.at) {
      HolderStands(g, p, home);
    } else if InTick(p.at) {
      TickStands(g, p);
    } else {
      TaskPermit(g, p, home);
      TaskStands(g, p, home);
    }
  }

  lemma CallerConserves(g: Shared, p: Thread, home: At)
    requires FlagsStand(g) && ThreadStands(p) && !g.shutdown && !Clearing(p.at) && Caller(p.at)
    ensures Conserves(g, p, AdvanceCaller(g, p, home))
  {
  }

  lemma HolderConserves(g: Shared, p: Thread, home: At)
    requires FlagsStand(g) && ThreadStands(p) && Holder(p.at)
    ensures Conserves(g, p, AdvanceHolder(g, p, home))
  {
  }

  lemma TickConserves(g: Shared, p: Thread)
    requires InTick(p.at) && FlagsStand(g) && ThreadStands(p)
    ensures Conserves(g, p, AdvanceTick(g, p))
  {
  }

  lemma TaskConserves(g: Shared, p: Thread, home: At)
    requires FlagsStand(g) && ThreadStands(p) && !g.shutdown && !Clearing(p.at)
    requires !Caller(p.at) && !Holder(p.at) && !InTick(p.at)
    ensures Conserves(g, p, AdvanceTask(g, p, home))
  {
  }

  lemma AdvanceConserves(g: Shared, p: Thread, home: At)
    requires FlagsStand(g) && ThreadStands(p) && !g.shutdown && !Clearing(p.at)
    ensures Conserves(g, p, Advance(g, p, home))
  {
    if Caller(p.at) {
      CallerConserves(g, p, home);
    } else if Holder(p.at) {
      HolderConserves(g, p, home);
    } else if InTick(p.at) {
      TickConserves(g, p);
    } else {
      TaskConserves(g, p, home);
    }
  }

  /** Shutdown is never unset, nobody passes its check afterwards, and the stores that clear
      the flags happen only under it. */
  predicate ShutdownMoves(g: Shared, p: Thread, e: Effect) {
    && e.shared.shutdown == g.shutdown
    && (g.shutdown ==> !e.thread.at.Begin?)
    && (Clearing(e.thread.at) ==> g.shutdown || Clearing(p.at))
    && (e.spawned.Some? ==> e.spawned.value.at.TaskCheck?)
    && (!InTick(p.at) ==> e.shared.books.servedSignals == g.books.servedSignals
                          && e.shared.books.servedRequests == g.books.servedRequests)
    && e.shared.books.begunAfterShutdown
       == g.books.begunAfterShutdown + (if p.at.Begin? && g.shutdown then 1 else 0)
  }

  lemma CallerShutdown(g: Shared, p: Thread, home: At)
    requires (home.Idle? || home.Done?) && Caller(p.at)
    ensures ShutdownMoves(g, p, AdvanceCaller(g, p, home))
  {
  }

  lemma HolderShutdown(g: Shared, p: Thread, home: At)
    requires (home.Idle? || home.Done?) && Holder(p.at)
    ensures ShutdownMoves(g, p, AdvanceHolder(g, p, home))
  {
  }

  lemma TickShutdown(g: Shared, p: Thread)
    requires InTick(p.at)
    ensures ShutdownMoves(g, p, AdvanceTick(g, p))
  {
  }

  lemma TaskShutdown(g: Shared, p: Thread, home: At)
    requires (home.Idle? || home.Done?) && !Caller(p.at) && !Holder(p.at) && !InTick(p.at)
    ensures ShutdownMoves(g, p, AdvanceTask(g, p, home))
  {
  }

  lemma AdvanceShutdown(g: Shared, p: Thread, home: At)
    requires home.Idle? || home.Done?
    ensures ShutdownMoves(g, p, Advance(g, p, home))
  {
    if Caller(p.at) {
      CallerShutdown(g, p, home);
    } else if Holder(p.at) {
      HolderShutdown(g, p, home);
    } else if InTick(p.at) {
      TickShutdown(g, p);
    } else {
      TaskShutdown(g, p, home);
    }
  }

  // ---------------------------------------------------------------- every action keeps the invariant

  lemma StepPermit(s: State, t: Tid, now: nat, child: Tid)
    requires Inv(s) && Enabled(s, Step(t, now, child))
    ensures OnePermit(StepThread(s, t, now, child))
  {
    var s' := StepThread(s, t, now, child);
    var e := Advance(s.shared, s.threads[t], Home(t));
    AdvanceStands(s.shared, s.threads[t], Home(t));
    assert PermitMoves(s.shared, s.threads[t], e);
    if HoldsPermit(s.threads[t].at) {
      assert !s.shared.permitFree;
    }
    if !s'.shared.permitFree && !(HoldsPermit(e.thread.at) || SpawnedHolds(e)) {
      var x :| x in s.threads && HoldsPermit(s.threads[x].at);
      assert x in s'.threads && HoldsPermit(s'.threads[x].at);
    }
    if HoldsPermit(e.thread.at) {
      assert t in s'.threads && HoldsPermit(s'.threads[t].at);
    }
    if SpawnedHolds(e) {
      assert child in s'.threads && HoldsPermit(s'.threads[child].at);
    }
  }

  lemma StepConserved(s: State, t: Tid, now: nat, child: Tid)
    requires Inv(s) && Enabled(s, Step(t, now, child)) && !s.shared.shutdown
    ensures Conserved(StepThread(s, t, now, child))
  {
    var s' := StepThread(s, t, now, child);
    var e := Advance(s.shared, s.threads[t], Home(t));
    AdvanceConserves(s.shared, s.threads[t], Home(t));
    forall x | x in s'.signals
      ensures SignalAccounted(s', x)
    {
      assert SignalAccounted(s, x);
      if HasSignal(s.shared.books, s.threads[t], x) {
        assert t in s'.threads && s'.threads[t] == e.thread;
        assert e.spawned.Some? ==> child in s'.threads && s'.threads[child] == e.spawned.value;
      } else {
        var u :| u in s.threads && x in s.threads[u].signals;
        assert u in s'.threads && x in s'.threads[u].signals;
      }
    }
    forall r | r in s'.requests
      ensures RequestAccounted(s', r)
    {
      assert RequestAccounted(s, r);
      if HasRequest(s.shared.books, s.threads[t], r) {
        assert t in s'.threads && s'.threads[t] == e.thread;
        assert e.spawned.Some? ==> child in s'.threads && s'.threads[child] == e.spawned.value;
      } else {
        var u :| u in s.threads && r in s.threads[u].requests;
        assert u in s'.threads && r in s'.threads[u].requests;
      }
    }
  }

  lemma StepInv(s: State, t: Tid, now: nat, child: Tid)
    requires Inv(s) && Enabled(s, Step(t, now, child))
    ensures Inv(StepThread(s, t, now, child))
  {
    var s' := StepThread(s, t, now, child);
    AdvanceStands(s.shared, s.threads[t], Home(t));
    AdvanceShutdown(s.shared, s.threads[t], Home(t));
    StepPermit(s, t, now, child);
    if !s.shared.shutdown {
      StepConserved(s, t, now, child);
    }
    assert HoldsPermit(Begin);
    assert ShutdownSafe(s');
  }

  /** Adding an issued identity to some holder accounts for it; nobody else loses anything. */
  lemma Reaccount(s: State, s': State)
    requires Inv(s) && !s.shared.shutdown
    requires s'.threads == s.threads
    requires var b, b' := s.shared.books, s'.shared.books;
      && b.servedSignals <= b'.servedSignals && b.inLatch <= b'.inLatch
      && b.inStreamPending <= b'.inStreamPending
      && b.servedRequests <= b'.servedRequests && b.inPending <= b'.inPending
    ensures forall x :: x in s.signals ==> SignalAccounted(s', x)
    ensures forall r :: r in s.requests ==> RequestAccounted(s', r)
  {
    forall x | x in s.signals
      ensures SignalAccounted(s', x)
    {
      assert SignalAccounted(s, x);
    }
    forall r | r in s.requests
      ensures RequestAccounted(s', r)
    {
      assert RequestAccounted(s, r);
    }
  }

  lemma NotifyInv(s: State, x: nat, k: nat)
    requires Inv(s) && Enabled(s, Notify(x))
    ensures Inv(Apply(s, Notify(x), k))
  {
    var s' := Apply(s, Notify(x), k);
    if !s.shared.shutdown {
      Reaccount(s, s');
    }
    assert forall t :: t in s'.threads ==> s'.threads[t] == s.threads[t];
  }

  lemma ShutdownInv(s: State, k: nat)
    requires Inv(s)
    ensures Inv(Apply(s, Shutdown, k))
  {
    var s' := Apply(s, Shutdown, k);
    assert forall t :: t in s'.threads ==> s'.threads[t] == s.threads[t];
  }

  /** The pass loop leaves `select!` with what it took from `stream_pending`, or with a wake. */
  lemma PassLoopStarts(s: State, s': State, p: Thread)
    requires Inv(s) && PassLoopIdle(s) && s'.threads == s.threads[PASS_LOOP := p]
    requires !HoldsPermit(p.at) && !Clearing(p.at) && !p.at.Begin? && ThreadStands(p)
    requires FlagsStand(s'.shared)
    requires s'.shared == s.shared.(streamPending := s'.shared.streamPending, books := s'.shared.books)
    requires s'.shared.books == s.shared.books.(inStreamPending := s'.shared.books.inStreamPending)
    requires s.shared.books.inStreamPending <= s'.shared.books.inStreamPending + p.signals
    requires s'.signals <= s.signals + p.signals && s'.requests <= s.requests + p.requests
    ensures Inv(s')
  {
    assert s'.threads[PASS_LOOP] == p;
    if !s.shared.permitFree {
      var x :| x in s.threads && HoldsPermit(s.threads[x].at);
      assert x in s'.threads && HoldsPermit(s'.threads[x].at);
    }
    if !s.shared.shutdown {
      forall x | x in s'.signals
        ensures SignalAccounted(s', x)
      {
        if x !in p.signals {
          assert SignalAccounted(s, x);
          if t :| t in s.threads && x in s.threads[t].signals {
            assert t != PASS_LOOP ==> x in s'.threads[t].signals;
          }
        }
      }
      forall r | r in s'.requests
        ensures RequestAccounted(s', r)
      {
        if r !in p.requests {
          assert RequestAccounted(s, r);
          if t :| t in s.threads && r in s.threads[t].requests {
            assert t != PASS_LOOP ==> r in s'.threads[t].requests;
          }
        }
      }
    }
  }

  lemma TimerInv(s: State, r: nat, k: nat)
    requires Inv(s) && Enabled(s, TimerTick(r))
    ensures Inv(Apply(s, TimerTick(r), k))
  {
    var s' := Apply(s, TimerTick(r), k);
    PassLoopStarts(s, s', s'.threads[PASS_LOOP]);
  }

  lemma WakeInv(s: State, now: nat, x: nat, r: nat, k: nat)
    requires Inv(s) && Enabled(s, StreamWake(now, x, r))
    ensures Inv(Apply(s, StreamWake(now, x, r), k))
  {
    var s' := Apply(s, StreamWake(now, x, r), k);
    if Elapsed(now, s.lastStreamAt) < k {
      if !s.shared.shutdown {
        Reaccount(s, s');
      }
      assert forall t :: t in s'.threads ==> s'.threads[t] == s.threads[t];
    } else {
      PassLoopStarts(s, s', s'.threads[PASS_LOOP]);
    }
  }

  lemma NextInv(s: State, a: Action, s': State, k: nat)
    requires Inv(s) && Next(s, a, s', k)
    ensures Inv(s')
  {
    match a
    case Notify(x) => NotifyInv(s, x, k);
    case Shutdown => ShutdownInv(s, k);
    case TimerTick(r) => TimerInv(s, r, k);
    case StreamWake(now, x, r) => WakeInv(s, now, x, r, k);
    case Step(t, now, child) => StepInv(s, t, now, child);
  }

  // ---------------------------------------------------------------- theorems over whole runs

  lemma {:induction false} RunInv(states: seq<State>, actions: seq<Action>, k: nat, i: nat)
    requires IsRun(states, actions, k) && i < |states|
    ensures Inv(states[i])
  {
    if i == 0 {
      InitInv(states[0]);
    } else {
      RunInv(states, actions, k, i - 1);
      assert StepAt(states, actions, k, i - 1);
      NextInv(states[i - 1], actions[i - 1], states[i], k);
    }
  }

  /** Single flight: at most one HF tick runs at a time, and the permit is out exactly when
      some thread holds it. */
  lemma SingleFlight(states: seq<State>, actions: seq<Action>, k: nat, i: nat, t: Tid, u: Tid)
    requires IsRun(states, actions, k) && i < |states|
    requires t in states[i].threads && u in states[i].threads
    requires TickRunning(states[i].threads[t].at) && HoldsPermit(states[i].threads[u].at)
    ensures t == u && !states[i].shared.permitFree
  {
    RunInv(states, actions, k, i);
  }

  /** Stream-signal conservation: before shutdown, a WSS signal no stream-flagged tick has
      served is still behind the raised flag that stands for it: the latch, `stream_pending`, or
      the local of a scheduler step or of a spawned task that has not begun. */
  lemma StreamSignalsConserved(states: seq<State>, actions: seq<Action>, k: nat, i: nat, x: nat)
    requires IsRun(states, actions, k) && i < |states| && !states[i].shared.shutdown
    requires x in states[i].signals && x !in states[i].shared.books.servedSignals
    ensures var s := states[i];
      || (x in s.shared.books.inLatch && s.shared.latch > 0)
      || (x in s.shared.books.inStreamPending && s.shared.streamPending)
      || exists t :: t in s.threads && x in s.threads[t].signals && s.threads[t].flag && CarriesSignal(s.threads[t].at)
  {
    RunInv(states, actions, k, i);
    var s := states[i];
    assert SignalAccounted(s, x);
    if t :| t in s.threads && x in s.threads[t].signals {
      assert ThreadStands(s.threads[t]);
    }
  }

  /** Request conservation: before shutdown, a tick request no tick has begun for is held by
      `pending`, by a caller or rescheduler mid-step, or by a permit holder that has not
      begun. */
  lemma TickRequestsConserved(states: seq<State>, actions: seq<Action>, k: nat, i: nat, r: nat)
    requires IsRun(states, actions, k) && i < |states| && !states[i].shared.shutdown
    requires r in states[i].requests && r !in states[i].shared.books.servedRequests
    ensures var s := states[i];
      || (r in s.shared.books.inPending && s.shared.pending)
      || exists t :: t in s.threads && r in s.threads[t].requests && CarriesRequest(s.threads[t].at)
  {
    RunInv(states, actions, k, i);
    var s := states[i];
    assert RequestAccounted(s, r);
    if t :| t in s.threads && r in s.threads[t].requests {
      assert ThreadStands(s.threads[t]);
    }
  }

  // ---------------------------------------------------------------- the stream rate limit

  /** The reading that an action stores as the time of the last stream tick, if it stores one. */
  function Stamp(s: State, a: Action, k: nat): Option<nat> {
    match a
    case StreamWake(now, _, _) => if Elapsed(now, s.lastStreamAt) >= k then Some(now) else None
    case Step(t, now, _) =>
      if t in s.threads && s.threads[t].at.TimerPeek? && (s.threads[t].flag || s.shared.latch > 0) then Some(now) else None
    case _ => None
  }

  /** Every stream tick the pass loop schedules, by a wake or by a timer tick that promotes, is remembered as the last
      one; nothing else is. */
  lemma StampIsKept(s: State, a: Action, s': State, k: nat)
    requires Next(s, a, s', k)
    ensures s'.lastStreamAt == match Stamp(s, a, k) { case Some(now) => now case None => s.lastStreamAt }
  {
  }

  /** The clock does not run backward from action `i` on, up to `j`. */
  ghost predicate ClockSince(actions: seq<Action>, i: nat, j: nat, from: nat) {
    forall n :: i <= n < j && n < |actions| ==> (actions[n].StreamWake? || actions[n].Step?) ==> actions[n].now >= from
  }

  lemma {:induction false} LastStampHolds(states: seq<State>, actions: seq<Action>, k: nat, i: nat, j: nat)
    requires IsRun(states, actions, k) && i < j < |states| && Stamp(states[i], actions[i], k).Some?
    requires ClockSince(actions, i, j, Stamp(states[i], actions[i], k).value)
    ensures states[j].lastStreamAt >= Stamp(states[i], actions[i], k).value
  {
    assert StepAt(states, actions, k, j - 1);
    StampIsKept(states[j - 1], actions[j - 1], states[j], k);
    if j == i + 1 {
    } else {
      LastStampHolds(states, actions, k, i, j - 1);
    }
  }

  /** A wake schedules its tick only when the interval has passed since every earlier stream tick the pass loop
      scheduled. */
  lemma WakesAreSpaced(states: seq<State>, actions: seq<Action>, k: nat, i: nat, j: nat)
    requires IsRun(states, actions, k) && i < j < |actions| && Stamp(states[i], actions[i], k).Some?
    requires ClockSince(actions, i, j + 1, Stamp(states[i], actions[i], k).value)
    requires actions[j].StreamWake? && Enters(states[j], actions[j], k)
    ensures actions[j].now >= Stamp(states[i], actions[i], k).value + k
  {
    LastStampHolds(states, actions, k, i, j);
  }

  /** What is remembered is such a tick, or the start-up value. */
  lemma {:induction false} LastStampExists(states: seq<State>, actions: seq<Action>, k: nat, j: nat)
    requires IsRun(states, actions, k) && j < |states|
    ensures states[j].lastStreamAt == states[0].lastStreamAt
      || exists i: nat :: i < j && Stamp(states[i], actions[i], k) == Some(states[j].lastStreamAt)
  {
    if j == 0 {
    } else {
      assert StepAt(states, actions, k, j - 1);
      StampIsKept(states[j - 1], actions[j - 1], states[j], k);
      LastStampExists(states, actions, k, j - 1);
    }
  }

  /** And a wake that comes the interval after all of them is never turned away. */
  lemma LateWakeEnters(states: seq<State>, actions: seq<Action>, k: nat, j: nat)
    requires IsRun(states, actions, k) && j < |actions| && actions[j].StreamWake?
    requires states[0].lastStreamAt + k <= actions[j].now
    requires forall i: nat :: i < j && Stamp(states[i], actions[i], k).Some? ==>
      Stamp(states[i], actions[i], k).value + k <= actions[j].now
    ensures Enters(states[j], actions[j], k) && PASS_LOOP in states[j + 1].threads
    ensures states[j + 1].threads[PASS_LOOP].at.CheckShutdown? && states[j + 1].threads[PASS_LOOP].flag
  {
    LastStampExists(states, actions, k, j);
    assert StepAt(states, actions, k, j);
  }

  // ---------------------------------------------------------------- no tick without cause

  predicate Begins(s: State, a: Action) { a.Step? && a.tid in s.threads && s.threads[a.tid].at.Begin? }

  /** Before the first signal no flag stands for one. */
  predicate Silent(s: State) {
    && s.signals == {} && s.shared.latch == 0 && !s.shared.streamPending
    && forall t :: t in s.threads ==> SilentThread(s.threads[t])
  }

  predicate SilentThread(p: Thread) { !p.flag && !p.at.StoreStream? }

  predicate EffectSilent(e: Effect) {
    && e.shared.latch == 0 && !e.shared.streamPending && SilentThread(e.thread)
    && (e.spawned.Some? ==> SilentThread(e.spawned.value))
  }

  lemma CallerSilent(g: Shared, p: Thread, home: At)
    requires Caller(p.at) && g.latch == 0 && !g.streamPending && SilentThread(p) && (home.Idle? || home.Done?)
    ensures EffectSilent(AdvanceCaller(g, p, home))
  {
  }

  lemma HolderSilent(g: Shared, p: Thread, home: At)
    requires Holder(p.at) && g.latch == 0 && !g.streamPending && SilentThread(p) && (home.Idle? || home.Done?)
    ensures EffectSilent(AdvanceHolder(g, p, home))
  {
  }

  lemma SilentAdvance(g: Shared, p: Thread, home: At)
    requires g.latch == 0 && !g.streamPending && SilentThread(p) && (home.Idle? || home.Done?)
    ensures EffectSilent(Advance(g, p, home))
  {
    if Caller(p.at) {
      CallerSilent(g, p, home);
    } else if Holder(p.at) {
      HolderSilent(g, p, home);
    }
  }

  lemma {:induction false} NoSpuriousStream(states: seq<State>, actions: seq<Action>, k: nat, i: nat)
    requires IsRun(states, actions, k) && i < |states| && states[i].signals == {}
    ensures Silent(states[i])
  {
    if i == 0 {
    } else {
      assert StepAt(states, actions, k, i - 1);
      assert states[i - 1].signals <= states[i].signals;
      NoSpuriousStream(states, actions, k, i - 1);
      var s, a := states[i - 1], actions[i - 1];
      if a.Step? {
        SilentAdvance(s.shared, s.threads[a.tid], Home(a.tid));
      }
    }
  }

  /** `pending` and every thread on its way to a tick stand for at least one request. */
  ghost predicate Requested(s: State) {
    && (s.shared.pending ==> s.shared.books.inPending != {})
    && forall t :: t in s.threads && CarriesRequest(s.threads[t].at) ==> s.threads[t].requests != {}
  }

  /** The flag, a thread and what it spawns stand for a request where they should. */
  predicate Stands(g: Shared, p: Thread) {
    (g.pending ==> g.books.inPending != {}) && (CarriesRequest(p.at) ==> p.requests != {})
  }

  predicate EffectRequested(e: Effect) {
    Stands(e.shared, e.thread) && (e.spawned.Some? ==> Stands(e.shared, e.spawned.value))
  }

  lemma CallerRequested(g: Shared, p: Thread, home: At)
    requires Caller(p.at) && Stands(g, p) && (home.Idle? || home.Done?)
    ensures EffectRequested(AdvanceCaller(g, p, home))
  {
    if p.at.StorePending? {
      var r :| r in p.requests;
      assert r in AdvanceCaller(g, p, home).shared.books.inPending;
    }
  }

  lemma HolderRequested(g: Shared, p: Thread, home: At)
    requires Holder(p.at) && Stands(g, p) && (home.Idle? || home.Done?)
    ensures EffectRequested(AdvanceHolder(g, p, home))
  {
    if p.at.ResetPending? {
      var r :| r in p.requests;
      assert r in AdvanceHolder(g, p, home).thread.requests;
    }
  }

  lemma TickRequested(g: Shared, p: Thread)
    requires InTick(p.at) && Stands(g, p)
    ensures EffectRequested(AdvanceTick(g, p))
  {
  }

  lemma TaskRequested(g: Shared, p: Thread, home: At)
    requires !Caller(p.at) && !Holder(p.at) && !InTick(p.at) && Stands(g, p) && (home.Idle? || home.Done?)
    ensures EffectRequested(AdvanceTask(g, p, home))
  {
  }

  lemma RequestedStep(g: Shared, p: Thread, home: At)
    requires Stands(g, p) && (home.Idle? || home.Done?)
    ensures EffectRequested(Advance(g, p, home))
  {
    if Caller(p.at) {
      CallerRequested(g, p, home);
    } else if Holder(p.at) {
      HolderRequested(g, p, home);
    } else if InTick(p.at) {
      TickRequested(g, p);
    } else {
      TaskRequested(g, p, home);
    }
  }

  lemma {:induction false} RunRequested(states: seq<State>, actions: seq<Action>, k: nat, i: nat)
    requires IsRun(states, actions, k) && i < |states|
    ensures Requested(states[i])
  {
    if i == 0 {
    } else {
      RunRequested(states, actions, k, i - 1);
      assert StepAt(states, actions, k, i - 1);
      var s, a := states[i - 1], actions[i - 1];
      if a.Step? {
        RequestedStep(s.shared, s.threads[a.tid], Home(a.tid));
      }
    }
  }

  /** Every tick that begins answers a request. */
  lemma TicksAreRequested(states: seq<State>, actions: seq<Action>, k: nat, i: nat)
    requires IsRun(states, actions, k) && i < |actions| && Begins(states[i], actions[i])
    ensures exists r :: r in states[i].threads[actions[i].tid].requests && r in states[i + 1].shared.books.servedRequests
  {
    RunRequested(states, actions, k, i);
    assert StepAt(states, actions, k, i);
    var r :| r in states[i].threads[actions[i].tid].requests;
  }

  /** How many steps a thread has left at most before it is idle or done. */
  function StepsLeft(at: At): nat {
    match at
    case Idle => 0
    case Done => 0
    case TaskCheck => 18
    case Begin => 17
    case Relatch => 16
    case Ticking => 15
    case TakePending => 14
    case RescheduleCheck => 13
    case TimerPeek => 12
    case CheckShutdown => 11
    case Acquire => 10
    case ResetPending => 9
    case TakeLatch => 8
    case TakeStream => 7
    case Spawn => 6
    case StorePending => 5
    case PeekLatch => 4
    case StoreStream => 3
    case ClearPending => 3
    case ClearStream => 2
    case TaskClearPending => 3
    case TaskClearStream => 2
    case TaskDropPermit => 1
  }

  /** No thread is ever stuck inside the scheduler: every step brings it closer to its end, and what it spawns is a
      task at its start. */
  lemma ThreadProgress(g: Shared, p: Thread, home: At)
    requires !p.at.Idle? && !p.at.Done? && (home.Idle? || home.Done?)
    ensures var e := Advance(g, p, home);
      StepsLeft(e.thread.at) < StepsLeft(p.at) <= 18 && (e.spawned.Some? ==> e.spawned.value.at == TaskCheck)
  {
  }

  /** A caller that finds the permit free, outside shutdown, gets it; and a task outside shutdown begins its tick. */
  lemma PermitIsTaken(g: Shared, p: Thread, home: At)
    requires !g.shutdown
    ensures p.at.CheckShutdown? || p.at.RescheduleCheck? ==> Advance(g, p, home).thread.at in [Acquire, CheckShutdown]
    ensures p.at.Acquire? ==>
      Advance(g, p, home).thread.at == (if g.permitFree then ResetPending else StorePending)
      && !Advance(g, p, home).shared.permitFree
    ensures p.at.TaskCheck? ==> Advance(g, p, home).thread.at == Begin
    ensures p.at.TakePending? && g.pending ==> Advance(g, p, home).thread.at == RescheduleCheck
  {
  }

  /** A permit holder collects everything parked so far: requests, latched signals and parked signals all travel with
      the task it spawns, whose flag is up if any of the two stream flags was. */
  lemma HolderCollects(g: Shared, p: Thread, home: At)
    requires Holder(p.at)
    ensures var e := AdvanceHolder(g, p, home);
      && (p.at.ResetPending? ==>
            e.thread.at == TakeLatch && !e.shared.pending && g.books.inPending + p.requests <= e.thread.requests)
      && (p.at.TakeLatch? && g.latch > 0 ==>
            && e.thread.at == TakeStream && e.shared.latch == 0 && e.thread.flag
            && g.books.inLatch + p.signals <= e.thread.signals)
      && (p.at.TakeStream? && g.streamPending ==>
            && e.thread.at == Spawn && !e.shared.streamPending && e.thread.flag
            && g.books.inStreamPending + p.signals <= e.thread.signals)
      && (p.at.Spawn? ==> e.spawned == Some(Thread(TaskCheck, p.flag, p.signals, p.requests)))
  {
  }

  /** A tick serves what it was called for, and at once whatever was latched before its first step. */
  lemma TickServesAll(g: Shared, p: Thread)
    requires InTick(p.at)
    ensures var e := AdvanceTick(g, p);
      && (p.at.Begin? ==>
            && p.requests <= e.shared.books.servedRequests && (p.flag ==> p.signals <= e.shared.books.servedSignals)
            && e.thread.flag == p.flag)
      && (p.at.Relatch? && g.latch > 0 ==>
            e.shared.latch == 0 && e.thread.flag && g.books.inLatch <= e.shared.books.servedSignals)
      && (p.at.Ticking? ==> e.shared.permitFree)
  {
  }

  /** A refused caller leaves word: its request behind `pending`, and a raised latch or its own flag behind
      `stream_pending`. */
  lemma RefusalIsRecorded(g: Shared, p: Thread, home: At)
    requires Caller(p.at)
    ensures var e := AdvanceCaller(g, p, home);
      && (p.at.StorePending? ==> e.thread.at == PeekLatch && e.shared.pending && p.requests <= e.shared.books.inPending)
      && (p.at.PeekLatch? ==> e.thread.at == if p.flag || g.latch > 0 then StoreStream else home)
      && (p.at.StoreStream? ==>
            e.shared.streamPending && p.signals <= e.shared.books.inStreamPending && e.thread.at == home)
  {
  }

  /** After shutdown, a caller that looks clears both flags and leaves. */
  lemma ShutdownClearsCaller(g: Shared, p: Thread, home: At)
    requires g.shutdown && Caller(p.at)
    ensures var e := AdvanceCaller(g, p, home);
      && (p.at.CheckShutdown? ==> e.thread.at == ClearPending)
      && (p.at.ClearPending? ==> !e.shared.pending && e.thread.at == ClearStream)
      && (p.at.ClearStream? ==> !e.shared.streamPending && e.thread.at == home)
  {
  }

  /** So does a task, and gives the permit back. */
  lemma ShutdownClearsTask(g: Shared, p: Thread, home: At)
    requires g.shutdown && !Caller(p.at) && !Holder(p.at) && !InTick(p.at)
    ensures var e := AdvanceTask(g, p, home);
      && (p.at.RescheduleCheck? ==> e.thread.at == ClearPending)
      && (p.at.TaskCheck? ==> e.thread.at == TaskClearPending)
      && (p.at.TaskClearPending? ==> !e.shared.pending && e.thread.at == TaskClearStream)
      && (p.at.TaskClearStream? ==> !e.shared.streamPending && e.thread.at == TaskDropPermit)
      && (p.at.TaskDropPermit? ==> e.shared.permitFree && e.thread.at == home)
  {
  }

  // ---------------------------------------------------------------- orphaned requests

  /** A thread that will still look at `pending`: it holds the permit, is about to take `pending`, or is on its way
      to the permit. */
  predicate Attends(at: At) {
    HoldsPermit(at) || at.TakePending? || at.TimerPeek? || at.CheckShutdown? || at.Acquire? || at.RescheduleCheck?
  }

  predicate Attended(s: State) { exists t :: t in s.threads && Attends(s.threads[t].at) }

  /** `pending` is raised and nobody inside the scheduler will look at it. */
  predicate Orphaned(s: State) { s.shared.pending && !Attended(s) }

  /** An action by which the pass loop enters the scheduler. */
  predicate Enters(s: State, a: Action, k: nat) {
    a.TimerTick? || (a.StreamWake? && Elapsed(a.now, s.lastStreamAt) >= k)
  }

  /** A refused caller that is about to store `pending`, with nobody left to see it. */
  predicate StoresTooLate(s: State, a: Action) {
    a.Step? && a.tid in s.threads && s.threads[a.tid].at.StorePending? && !Attended(s) && !s.shared.pending
  }

  /** A thread step ends attention only by clearing `pending`, by handing it to the spawned task, or by finding the
      permit held. */
  lemma AttentionMoves(g: Shared, p: Thread, home: At)
    requires !g.shutdown && !Clearing(p.at)
    requires home.Idle? || home.Done?
    ensures var e := Advance(g, p, home);
      && (Attends(p.at) ==> Attends(e.thread.at) || (e.spawned.Some? && Attends(e.spawned.value.at))
                            || !e.shared.pending || (p.at.Acquire? && !g.permitFree))
      && (!Attends(p.at) ==> !Attends(e.thread.at) && e.spawned.None?)
      && (e.shared.pending && !g.pending ==> p.at.StorePending?)
      && (p.at.StorePending? ==> e.shared.pending) && (g.pending && !e.shared.pending ==> Attends(p.at))
  {
  }

  lemma StillAttended(s: State, t: Tid, now: nat, child: Tid)
    requires Inv(s) && !s.shared.shutdown && t in s.threads && child !in s.threads && !s.threads[t].at.Idle?
    requires Attended(s) && StepThread(s, t, now, child).shared.pending
    ensures Attended(StepThread(s, t, now, child))
  {
    var s' := StepThread(s, t, now, child);
    AttentionMoves(s.shared, s.threads[t], Home(t));
    var u :| u in s.threads && Attends(s.threads[u].at);
    if u != t {
      assert s'.threads[u] == s.threads[u];
    } else if s.threads[t].at.Acquire? && !s.shared.permitFree {
      var h :| h in s.threads && HoldsPermit(s.threads[h].at);
      assert s'.threads[h] == s.threads[h];
    } else if Attends(s'.threads[t].at) {
    } else {
      assert child in s'.threads && Attends(s'.threads[child].at);
    }
  }

  lemma StillUnattended(s: State, t: Tid, now: nat, child: Tid)
    requires Inv(s) && !s.shared.shutdown && t in s.threads && child !in s.threads && !s.threads[t].at.Idle?
    requires !Attended(s)
    ensures !Attended(StepThread(s, t, now, child))
    ensures StepThread(s, t, now, child).shared.pending == (s.shared.pending || s.threads[t].at.StorePending?)
  {
    AttentionMoves(s.shared, s.threads[t], Home(t));
  }

  /** Exactly when a refused tick request is left for the next entry of the pass loop: before shutdown `pending`
      becomes orphaned in precisely those steps in which a refused caller stores it after the task that held the
      permit has already taken it; and it stays orphaned until precisely a timer tick or a wake that is not
      rate-limited. */
  lemma OrphanedExactly(s: State, a: Action, s': State, k: nat)
    requires Inv(s) && Next(s, a, s', k) && !s'.shared.shutdown
    ensures Orphaned(s') <==> (Orphaned(s) && !Enters(s, a, k)) || StoresTooLate(s, a)
  {
    if a.Step? {
      OrphanedByStep(s, a.tid, a.now, a.child);
    } else if Enters(s, a, k) {
      assert Attends(s'.threads[PASS_LOOP].at);
    } else {
      assert s'.threads == s.threads;
    }
  }

  lemma OrphanedByStep(s: State, t: Tid, now: nat, child: Tid)
    requires Inv(s) && !s.shared.shutdown && t in s.threads && child !in s.threads && !s.threads[t].at.Idle?
    ensures Orphaned(StepThread(s, t, now, child))
       <==> Orphaned(s) || (s.threads[t].at.StorePending? && !Attended(s) && !s.shared.pending)
  {
    if Attended(s) {
      if StepThread(s, t, now, child).shared.pending {
        StillAttended(s, t, now, child);
      }
    } else {
      StillUnattended(s, t, now, child);
    }
  }

  /** So in every run before shutdown, an orphaned request stays exactly until the pass loop enters again. */
  lemma {:induction false} OrphanWaits(states: seq<State>, actions: seq<Action>, k: nat, i: nat, j: nat)
    requires IsRun(states, actions, k) && i <= j < |states| && !states[j].shared.shutdown && Orphaned(states[i])
    requires forall n: nat :: i <= n < j ==> !Enters(states[n], actions[n], k)
    ensures Orphaned(states[j])
  {
    if i == j {
    } else {
      RunInv(states, actions, k, j - 1);
      assert StepAt(states, actions, k, j - 1);
      BeginCounts(states[j - 1], actions[j - 1], states[j], k);
      OrphanWaits(states, actions, k, i, j - 1);
      OrphanedExactly(states[j - 1], actions[j - 1], states[j], k);
    }
  }

  lemma Extend(states: seq<State>, actions: seq<Action>, k: nat, a: Action, s': State)
    returns (states': seq<State>, actions': seq<Action>)
    requires IsRun(states, actions, k) && Next(states[|actions|], a, s', k)
    ensures IsRun(states', actions', k) && states'[|actions'|] == s'
  {
    states', actions' := states + [s'], actions + [a];
    forall i: nat | i < |actions'|
      ensures StepAt(states', actions', k, i)
    {
      assert i < |actions| ==> StepAt(states, actions, k, i);
    }
  }

  /** The pass loop at `at` for request 2 (1 before it), and task 1 at `task`, with request 1 being served. */
  function TwoThreads(free: bool, pending: bool, loop: Thread, task: Thread, waiting: set<nat>): State {
    State(Shared(free, pending, false, 0, false, Books({}, {}, waiting, {}, {1}, 0)),
          map[PASS_LOOP := loop, 1 := task], 0, {}, {1, 2})
  }

  /** One request through the scheduler, up to the running tick; then a second one, refused but not yet stored. */
  lemma RunToRefusal(k: nat) returns (states: seq<State>, actions: seq<Action>)
    ensures IsRun(states, actions, k)
    ensures states[|actions|]
         == TwoThreads(false, false, Thread(StorePending, false, {}, {2}), Bare(Ticking), {})
  {
    states, actions := RunToTick(k);
    var s := TwoThreads(false, false, Thread(TimerPeek, false, {}, {2}), Bare(Ticking), {});
    states, actions := Extend(states, actions, k, TimerTick(2), s);
    s := TwoThreads(false, false, Thread(CheckShutdown, false, {}, {2}), Bare(Ticking), {});
    states, actions := Extend(states, actions, k, Step(0, 0, 2), s);
    s := TwoThreads(false, false, Thread(Acquire, false, {}, {2}), Bare(Ticking), {});
    states, actions := Extend(states, actions, k, Step(0, 0, 2), s);
    s := TwoThreads(false, false, Thread(StorePending, false, {}, {2}), Bare(Ticking), {});
    states, actions := Extend(states, actions, k, Step(0, 0, 2), s);
  }

  /** The pass loop alone in the scheduler with request 1. */
  function Alone(free: bool, loop: Thread): State {
    State(Shared(free, false, false, 0, false, Books({}, {}, {}, {}, {}, 0)), map[PASS_LOOP := loop], 0, {}, {1})
  }

  lemma LoopSteps(k: nat)
    ensures var one := Thread(TimerPeek, false, {}, {1});
      && Next(Alone(true, Bare(Idle)).(requests := {}), TimerTick(1), Alone(true, one), k)
      && Next(Alone(true, one), Step(0, 0, 1), Alone(true, one.(at := CheckShutdown)), k)
      && Next(Alone(true, one.(at := CheckShutdown)), Step(0, 0, 1), Alone(true, one.(at := Acquire)), k)
      && Next(Alone(true, one.(at := Acquire)), Step(0, 0, 1), Alone(false, one.(at := ResetPending)), k)
  {
  }

  lemma HolderSteps(k: nat)
    ensures var one := Thread(TimerPeek, false, {}, {1});
      && Next(Alone(false, one.(at := ResetPending)), Step(0, 0, 1), Alone(false, one.(at := TakeLatch)), k)
      && Next(Alone(false, one.(at := TakeLatch)), Step(0, 0, 1), Alone(false, one.(at := TakeStream)), k)
      && Next(Alone(false, one.(at := TakeStream)), Step(0, 0, 1), Alone(false, one.(at := Spawn)), k)
  {
    var none: set<nat> := {};
    assert {1} + none == {1} && none + none == none;
  }

  lemma RunToSpawn(k: nat) returns (states: seq<State>, actions: seq<Action>)
    ensures IsRun(states, actions, k) && states[|actions|] == Alone(false, Thread(Spawn, false, {}, {1}))
  {
    var one := Thread(TimerPeek, false, {}, {1});
    states, actions := [Alone(true, Bare(Idle)).(requests := {})], [];
    LoopSteps(k);
    states, actions := Extend(states, actions, k, TimerTick(1), Alone(true, one));
    states, actions := Extend(states, actions, k, Step(0, 0, 1), Alone(true, one.(at := CheckShutdown)));
    states, actions := Extend(states, actions, k, Step(0, 0, 1), Alone(true, one.(at := Acquire)));
    states, actions := Extend(states, actions, k, Step(0, 0, 1), Alone(false, one.(at := ResetPending)));
    HolderSteps(k);
    states, actions := Extend(states, actions, k, Step(0, 0, 1), Alone(false, one.(at := TakeLatch)));
    states, actions := Extend(states, actions, k, Step(0, 0, 1), Alone(false, one.(at := TakeStream)));
    states, actions := Extend(states, actions, k, Step(0, 0, 1), Alone(false, one.(at := Spawn)));
  }

  /** The pass loop idle, and the spawned task with request 1 before its tick. */
  function Spawned(at: At): State {
    Alone(false, Bare(Idle)).(threads := map[PASS_LOOP := Bare(Idle), 1 := Thread(at, false, {}, {1})])
  }

  lemma TaskSteps(k: nat)
    ensures Next(Alone(false, Thread(Spawn, false, {}, {1})), Step(0, 0, 1), Spawned(TaskCheck), k)
    ensures Next(Spawned(TaskCheck), Step(1, 0, 2), Spawned(Begin), k)
  {
  }

  lemma TickSteps(k: nat)
    ensures var ticking := TwoThreads(false, false, Bare(Idle), Bare(Ticking), {}).(requests := {1});
      var relatch := TwoThreads(false, false, Bare(Idle), Bare(Relatch), {}).(requests := {1});
      Next(Spawned(Begin), Step(1, 0, 2), relatch, k) && Next(relatch, Step(1, 0, 2), ticking, k)
  {
    var none: set<nat> := {};
    assert none + {1} == {1} && none + none == none;
  }

  lemma RunToTick(k: nat) returns (states: seq<State>, actions: seq<Action>)
    ensures IsRun(states, actions, k)
    ensures states[|actions|] == TwoThreads(false, false, Bare(Idle), Bare(Ticking), {}).(requests := {1})
  {
    states, actions := RunToSpawn(k);
    TaskSteps(k);
    TickSteps(k);
    states, actions := Extend(states, actions, k, Step(0, 0, 1), Spawned(TaskCheck));
    states, actions := Extend(states, actions, k, Step(1, 0, 2), Spawned(Begin));
    var s := TwoThreads(false, false, Bare(Idle), Bare(Relatch), {}).(requests := {1});
    states, actions := Extend(states, actions, k, Step(1, 0, 2), s);
    s := TwoThreads(false, false, Bare(Idle), Bare(Ticking), {}).(requests := {1});
    states, actions := Extend(states, actions, k, Step(1, 0, 2), s);
  }

  /** It does happen: a request is refused during a tick, the task finishes and finds `pending` clear, and only then
      is the request stored. */
  lemma OrphanHappens(k: nat) returns (states: seq<State>, actions: seq<Action>)
    ensures IsRun(states, actions, k)
    ensures var s := states[|actions|];
      !s.shared.shutdown && Orphaned(s) && s.shared.permitFree && 2 in s.shared.books.inPending
  {
    states, actions := RunToRefusal(k);
    var s := TwoThreads(true, false, Thread(StorePending, false, {}, {2}), Bare(TakePending), {});
    states, actions := Extend(states, actions, k, Step(1, 0, 2), s);
    s := TwoThreads(true, false, Thread(StorePending, false, {}, {2}), Bare(Done), {});
    states, actions := Extend(states, actions, k, Step(1, 0, 2), s);
    s := TwoThreads(true, true, Bare(PeekLatch), Bare(Done), {2});
    states, actions := Extend(states, actions, k, Step(0, 0, 2), s);
  }

  lemma TickServes(g: Shared, p: Thread)
    requires InTick(p.at)
    ensures var e := AdvanceTick(g, p);
      && (!p.at.Begin? ==> e.shared.books.servedRequests == g.books.servedRequests)
      && forall x :: x in e.shared.books.servedSignals && x !in g.books.servedSignals ==>
           TickRunning(e.thread.at) && e.thread.flag
  {
  }

  /** Served means served: the books only move an identity to `served` in a step that starts a
      tick, and a signal only with `stream_triggered` true. */
  lemma ServedOnlyByTicks(s: State, a: Action, s': State, k: nat)
    requires Next(s, a, s', k)
    ensures s'.shared.books.servedRequests == s.shared.books.servedRequests || Begins(s, a)
    ensures forall x :: x in s'.shared.books.servedSignals && x !in s.shared.books.servedSignals ==>
              a.Step? && TickRunning(s'.threads[a.tid].at) && s'.threads[a.tid].flag
  {
    if a.Step? {
      AdvanceShutdown(s.shared, s.threads[a.tid], Home(a.tid));
      if InTick(s.threads[a.tid].at) {
        TickServes(s.shared, s.threads[a.tid]);
      }
    }
  }

  lemma BeginCounts(s: State, a: Action, s': State, k: nat)
    requires Inv(s) && Next(s, a, s', k)
    ensures s.shared.shutdown ==> s'.shared.shutdown
    ensures s'.shared.books.begunAfterShutdown
         == s.shared.books.begunAfterShutdown + (if Begins(s, a) && s.shared.shutdown then 1 else 0)
  {
    if a.Step? {
      AdvanceShutdown(s.shared, s.threads[a.tid], Home(a.tid));
    }
  }

  lemma RunCounts(states: seq<State>, actions: seq<Action>, k: nat, i: nat)
    requires IsRun(states, actions, k) && i < |actions|
    ensures states[i].shared.shutdown ==> states[i + 1].shared.shutdown
    ensures states[i + 1].shared.books.begunAfterShutdown
         == states[i].shared.books.begunAfterShutdown
            + (if Begins(states[i], actions[i]) && states[i].shared.shutdown then 1 else 0)
  {
    RunInv(states, actions, k, i);
    assert StepAt(states, actions, k, i);
    BeginCounts(states[i], actions[i], states[i + 1], k);
  }

  lemma {:induction false} BeginsAccumulate(states: seq<State>, actions: seq<Action>, k: nat, i: nat, j: nat)
    requires IsRun(states, actions, k) && i < j < |states|
    requires states[i].shared.shutdown && Begins(states[i], actions[i])
    ensures states[j].shared.shutdown && states[j].shared.books.begunAfterShutdown >= 1
  {
    RunCounts(states, actions, k, j - 1);
    if i + 1 < j {
      BeginsAccumulate(states, actions, k, i, j - 1);
    }
  }

  /** After shutdown is set at most one further tick can begin, in every interleaving. */
  lemma AtMostOneTickAfterShutdown(states: seq<State>, actions: seq<Action>, k: nat, i: nat, j: nat)
    requires IsRun(states, actions, k) && i < |actions| && j < |actions|
    requires states[i].shared.shutdown && Begins(states[i], actions[i])
    requires states[j].shared.shutdown && Begins(states[j], actions[j])
    ensures i == j
  {
    RunInv(states, actions, k, i);
    RunInv(states, actions, k, j);
    if i < j {
      BeginsAccumulate(states, actions, k, i, j);
    } else if j < i {
      BeginsAccumulate(states, actions, k, j, i);
    }
  }

  // ---------------------------------------------------------------- the scheduler object

  /** The scheduler with its shared fields.  Each method performs one atomic step in place and
      refines `Apply` and keeps the invariant. */
  class HfScheduler {
    const streamMinInterval: nat
    var permitFree: bool
    var pending: bool
    var streamPending: bool
    var streamTick: nat
    var shutdown: bool
    var lastStreamHfAt: nat
    var threads: map<Tid, Thread>
    // bookkeeping only
    var books: Books
    var signals: set<nat>
    var requests: set<nat>

    ghost function View(): State
      reads this
    {
      State(Shared(permitFree, pending, streamPending, streamTick, shutdown, books),
            threads, lastStreamHfAt, signals, requests)
    }

    constructor (now: nat, hfIntervalMs: nat)
      ensures Init(View()) && Inv(View()) && streamMinInterval == hfIntervalMs
      // a wake is not rate-limited before the first stream tick, whenever the clock allows it
      ensures lastStreamHfAt == if hfIntervalMs <= now then now - hfIntervalMs else now
    {
      streamMinInterval := hfIntervalMs;
      permitFree, pending, streamPending, streamTick, shutdown := true, false, false, 0, false;
      lastStreamHfAt := if hfIntervalMs <= now then now - hfIntervalMs else now;
      threads := map[PASS_LOOP := Bare(Idle)];
      books, signals, requests := Books({}, {}, {}, {}, {}, 0), {}, {};
      new;
      InitInv(View());
    }

    /** `StreamTrigger::notify`. */
    method NotifyStream(x: nat)
      requires Inv(View()) && Enabled(View(), Notify(x))
      modifies this
      ensures View() == Apply(old(View()), Notify(x), streamMinInterval) && Inv(View())
    {
      streamTick := streamTick + 1;
      books := books.(inLatch := books.inLatch + {x});
      signals := signals + {x};
      NextInv(old(View()), Notify(x), View(), streamMinInterval);
    }

    method RequestShutdown()
      requires Inv(View())
      modifies this
      ensures View() == Apply(old(View()), Shutdown, streamMinInterval) && Inv(View())
    {
      shutdown := true;
      NextInv(old(View()), Shutdown, View(), streamMinInterval);
    }

    /** First step of `schedule_timer_tick`. */
    method ScheduleTimerTick(r: nat)
      requires Inv(View()) && Enabled(View(), TimerTick(r))
      modifies this
      ensures View() == Apply(old(View()), TimerTick(r), streamMinInterval) && Inv(View())
    {
      var wasPending := streamPending;
      streamPending := false;
      var taken := if wasPending then books.inStreamPending else {};
      books := books.(inStreamPending := {});
      threads := threads[PASS_LOOP := Thread(TimerPeek, wasPending, taken, {r})];
      requests := requests + {r};
      NextInv(old(View()), TimerTick(r), View(), streamMinInterval);
    }

    /** `try_schedule_stream_triggered`, up to the call of `schedule_hf_tick`. */
    method TryScheduleStreamTriggered(now: nat, x: nat, r: nat) returns (scheduled: bool)
      requires Inv(View()) && Enabled(View(), StreamWake(now, x, r))
      modifies this
      ensures View() == Apply(old(View()), StreamWake(now, x, r), streamMinInterval) && Inv(View())
      ensures scheduled <==> Elapsed(now, old(lastStreamHfAt)) >= streamMinInterval
      ensures !scheduled ==> streamPending && threads == old(threads)
    {
      signals := signals + {x};
      if Elapsed(now, lastStreamHfAt) < streamMinInterval {
        streamPending := true;
        books := books.(inStreamPending := books.inStreamPending + {x});
        NextInv(old(View()), StreamWake(now, x, r), View(), streamMinInterval);
        return false;
      }
      lastStreamHfAt := now;
      threads := threads[PASS_LOOP := Thread(CheckShutdown, true, {x}, {r})];
      requests := requests + {r};
      NextInv(old(View()), StreamWake(now, x, r), View(), streamMinInterval);
      return true;
    }

    /** `schedule_hf_tick` without the permit. */
    method StepCaller(t: Tid, now: nat, child: Tid)
      requires Inv(View()) && t in threads && child !in threads && Caller(threads[t].at)
      modifies this
      ensures View() == Apply(old(View()), Step(t, now, child), streamMinInterval) && Inv(View())
    {
      var p := threads[t];
      var next := Bare(Home(t));
      match p.at {
        case TimerPeek =>
          next := p.(at := CheckShutdown, flag := p.flag || streamTick > 0);
          if next.flag {
            lastStreamHfAt := now;
          }
        case CheckShutdown => next := if shutdown then Bare(ClearPending) else p.(at := Acquire);
        case ClearPending =>
          pending, books, next := false, books.(inPending := {}), Bare(ClearStream);
        case ClearStream => streamPending, books := false, books.(inStreamPending := {});
        case Acquire =>
          next := p.(at := if permitFree then ResetPending else StorePending);
          permitFree := false;
        case StorePending =>
          pending, books := true, books.(inPending := books.inPending + p.requests);
          next := p.(at := PeekLatch, requests := {});
        case PeekLatch =>
          if p.flag || streamTick > 0 {
            next := p.(at := StoreStream);
          }
        case StoreStream =>
          streamPending := true;
          books := books.(inStreamPending := books.inStreamPending + p.signals);
      }
      threads := threads[t := next];
      NextInv(old(View()), Step(t, now, child), View(), streamMinInterval);
    }

    /** `schedule_hf_tick` with the permit, up to the spawn. */
    method StepHolder(t: Tid, now: nat, child: Tid)
      requires Inv(View()) && t in threads && child !in threads && Holder(threads[t].at)
      modifies this
      ensures View() == Apply(old(View()), Step(t, now, child), streamMinInterval) && Inv(View())
    {
      var p := threads[t];
      match p.at {
        case ResetPending =>
          threads := threads[t := p.(at := TakeLatch, requests := p.requests + books.inPending)];
          pending, books := false, books.(inPending := {});
        case TakeLatch =>
          var taken := if streamTick > 0 then books.inLatch else {};
          threads := threads[t := p.(at := TakeStream, flag := p.flag || streamTick > 0,
                                     signals := p.signals + taken)];
          streamTick, books := 0, books.(inLatch := {});
        case TakeStream =>
          var taken := if streamPending then books.inStreamPending else {};
          threads := threads[t := p.(at := Spawn, flag := p.flag || streamPending,
                                     signals := p.signals + taken)];
          streamPending, books := false, books.(inStreamPending := {});
        case Spawn =>
          threads := threads[t := Bare(Home(t))][child := p.(at := TaskCheck)];
      }
      NextInv(old(View()), Step(t, now, child), View(), streamMinInterval);
    }

    /** `run_hf_tick`, from its call to the drop of the permit. */
    method StepTick(t: Tid, now: nat, child: Tid)
      requires Inv(View()) && t in threads && child !in threads && InTick(threads[t].at)
      modifies this
      ensures View() == Apply(old(View()), Step(t, now, child), streamMinInterval) && Inv(View())
    {
      var p := threads[t];
      match p.at {
        case Begin =>
          books := books.(servedRequests := books.servedRequests + p.requests,
                          servedSignals := books.servedSignals + if p.flag then p.signals else {},
                          begunAfterShutdown := books.begunAfterShutdown + if shutdown then 1 else 0);
          threads := threads[t := Thread(Relatch, p.flag, {}, {})];
        case Relatch =>
          var flag := p.flag || streamTick > 0;
          books := books.(inLatch := {},
                          servedSignals := books.servedSignals + if flag then books.inLatch else {});
          streamTick := 0;
          threads := threads[t := Thread(Ticking, flag, {}, {})];
        case Ticking =>
          permitFree := true;
          threads := threads[t := Bare(TakePending)];
      }
      NextInv(old(View()), Step(t, now, child), View(), streamMinInterval);
    }

    /** The spawned task around the tick. */
    method StepTask(t: Tid, now: nat, child: Tid)
      requires Inv(View()) && t in threads && child !in threads && !threads[t].at.Idle?
      requires !Caller(threads[t].at) && !Holder(threads[t].at) && !InTick(threads[t].at)
      modifies this
      ensures View() == Apply(old(View()), Step(t, now, child), streamMinInterval) && Inv(View())
    {
      var p := threads[t];
      var next := Bare(Home(t));
      match p.at {
        case TaskCheck => next := if shutdown then Bare(TaskClearPending) else p.(at := Begin);
        case TaskClearPending =>
          pending, books, next := false, books.(inPending := {}), Bare(TaskClearStream);
        case TaskClearStream =>
          streamPending, books, next := false, books.(inStreamPending := {}), Bare(TaskDropPermit);
        case TaskDropPermit => permitFree := true;
        case TakePending =>
          if pending {
            next := Thread(RescheduleCheck, false, {}, books.inPending);
          }
          pending, books := false, books.(inPending := {});
        case RescheduleCheck =>
          next := if shutdown then Bare(ClearPending) else p.(at := CheckShutdown);
        case Done => next := p;
      }
      threads := threads[t := next];
      NextInv(old(View()), Step(t, now, child), View(), streamMinInterval);
    }
  }
}
