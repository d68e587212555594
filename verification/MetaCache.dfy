/** The debounced background persister of the pool-metadata cache
    (src/infra/pool_meta_cache.rs).

    Any number of `set_*` callers and worker threads share the map, the two atomics
    `persist_revision` and `persist_running`, and the target file.  A protocol state is a
    `State`; an `Action` is one atomic step of one thread, in any interleaving.  Every I/O
    step carries its outcome, so runs with and without faults are runs of the same machine. */
module MetaCache {

  import opened Prelude

  type Address = nat
  type Task = nat

  /** The four tables of `PoolMetaData`, as one key space. */
  datatype Key =
    | BalancerPoolId(pool: Address)
    | WoofiMeta(pool: Address)
    | TokenDecimals(token: Address)
    | WooraclePriceDec(wooracle: Address, base: Address)

  datatype Value = PoolId(text: string) | Woofi(quote: Address, oracle: Address) | Decimals(n: nat)

  type Data = map<Key, Value>

  datatype Update = Update(key: Key, value: Value)

  /** What a path holds: no file, a file that does not parse, or one complete serialized map. */
  datatype Content = Absent | Torn | Whole(data: Data)

  /** Program points of the worker loop.  `upTo` counts the updates a snapshot includes. */
  datatype Worker =
    | LoadTarget
    | Debounce(target: nat)
    | MakeDir(target: nat)
    | CreateTemp(target: nat)
    | Serialize(target: nat, temp: nat)
    | Flush(target: nat, temp: nat, buffer: Data, upTo: nat)
    | Rename(target: nat, temp: nat, upTo: nat)
    | Recheck(target: nat)
    | Release(target: nat)
    | ConfirmIdle(target: nat)
    | Reclaim(target: nat)
    | Abandon

  /** The map and the setters.  `initial` (what the file held at start-up) and `log` (every
      update so far) are bookkeeping; a task is in `inserted` between its insert and its
      `fetch_add`, and in `bumped` between the `fetch_add` and the `swap`. */
  datatype Front = Front(
    initial: Content,
    log: seq<Update>,
    live: Data,
    revision: nat,
    inserted: set<Task>,
    bumped: set<Task>)

  /** The file system.  `fileUpTo` (how many updates the file includes) and `faultRevision`
      (the newest revision an I/O failure gave up on) are bookkeeping. */
  datatype Disk = Disk(
    file: Content,
    temps: map<nat, Content>,
    writeSeq: nat,
    fileUpTo: nat,
    faultRevision: nat)

  datatype State = State(front: Front, running: bool, workers: map<Task, Worker>, disk: Disk)

  datatype Action =
    | Insert(task: Task, update: Update)
    | Bump(task: Task)
    | Claim(task: Task)
    | Work(task: Task, ok: bool)

  /** `PoolMetaCache::new`: an unreadable or unparsable file starts an empty map. */
  function LoadFile(content: Content): Data {
    match content
    case Whole(data) => data
    case _ => map[]
  }

  function Replay(base: Data, log: seq<Update>): Data {
    if log == [] then base
    else
      var n := |log| - 1;
      Replay(base, log[..n])[log[n].key := log[n].value]
  }

  /** The map as it was after the first `n` updates. */
  function Version(f: Front, n: nat): Data
    requires n <= |f.log|
  {
    Replay(LoadFile(f.initial), f.log[..n])
  }

  predicate Init(s: State) {
    s == State(Front(s.front.initial, [], LoadFile(s.front.initial), 0, {}, {}),
               false, map[], Disk(s.front.initial, map[], 0, 0, 0))
  }

  /** What one step of a worker does: the new `persist_running`, the new disk, and the next
      program point (`None`: the worker returns). */
  datatype Effect = Effect(running: bool, disk: Disk, next: Option<Worker>)

  /** The worker's program, one atomic step at a time. */
  function Advance(f: Front, running: bool, d: Disk, w: Worker, ok: bool): Effect {
    match w
    case LoadTarget => Effect(running, d, Some(Debounce(f.revision)))
    case Debounce(target) =>
      Effect(running, d, Some(if f.revision != target then LoadTarget else MakeDir(target)))
    case MakeDir(target) => Effect(running, d, Some(if ok then CreateTemp(target) else Abandon))
    case CreateTemp(target) =>
      var d' := d.(writeSeq := d.writeSeq + 1);
      if ok
      then Effect(running, d'.(temps := d.temps[d.writeSeq := Torn]), Some(Serialize(target, d.writeSeq)))
      else Effect(running, d', Some(Abandon))
    case Serialize(target, temp) =>
      if ok then Effect(running, d, Some(Flush(target, temp, f.live, |f.log|)))
      else Effect(running, d.(temps := d.temps - {temp}), Some(Abandon))
    case Flush(target, temp, buffer, upTo) =>
      // flush, into_inner and sync_all: all succeed, or the temporary file is removed
      if ok
      then Effect(running, d.(temps := d.temps[temp := Whole(buffer)]), Some(Rename(target, temp, upTo)))
      else Effect(running, d.(temps := d.temps - {temp}), Some(Abandon))
    case Rename(target, temp, upTo) =>
      var d' := d.(temps := d.temps - {temp});
      if ok && temp in d.temps
      then Effect(running, d'.(file := d.temps[temp], fileUpTo := upTo), Some(Recheck(target)))
      else Effect(running, d'.(faultRevision := Max(d.faultRevision, target)), Some(Recheck(target)))
    case Recheck(target) =>
      Effect(running, d, Some(if f.revision == target then Release(target) else LoadTarget))
    case Release(target) => Effect(false, d, Some(ConfirmIdle(target)))
    case ConfirmIdle(target) =>
      Effect(running, d, if f.revision == target then None else Some(Reclaim(target)))
    case Reclaim(_) =>
      if running then Effect(running, d, None) else Effect(true, d, Some(LoadTarget))
    case Abandon =>
      Effect(false, d.(faultRevision := Max(d.faultRevision, f.revision)), None)
  }

  predicate Enabled(s: State, a: Action) {
    match a
    case Insert(t, _) => t !in s.front.inserted && t !in s.front.bumped && t !in s.workers
    case Bump(t) => t in s.front.inserted
    case Claim(t) => t in s.front.bumped
    case Work(t, _) => t in s.workers
  }

  function Apply(s: State, a: Action): State
    requires Enabled(s, a)
  {
    var f := s.front;
    match a
    case Insert(t, u) =>
      s.(front := f.(log := f.log + [u], live := f.live[u.key := u.value], inserted := f.inserted + {t}))
    case Bump(t) =>
      s.(front := f.(revision := f.revision + 1, inserted := f.inserted - {t}, bumped := f.bumped + {t}))
    case Claim(t) =>
      // swap(true): an already running worker is left to do the write
      var s' := s.(front := f.(bumped := f.bumped - {t}));
      if s.running then s' else s'.(running := true, workers := s.workers[t := LoadTarget])
    case Work(t, ok) => WorkStep(s, t, ok)
  }

  function WorkStep(s: State, t: Task, ok: bool): State
    requires t in s.workers
  {
    var e := Advance(s.front, s.running, s.disk, s.workers[t], ok);
    var workers := match e.next
      case Some(w) => s.workers[t := w]
      case None => s.workers - {t};
    State(s.front, e.running, workers, e.disk)
  }

  predicate Next(s: State, a: Action, s': State) {
    Enabled(s, a) && s' == Apply(s, a)
  }

  /** A run: a start-up state and one action between each two neighbouring states. */
  ghost predicate IsRun(states: seq<State>, actions: seq<Action>) {
    && |states| == |actions| + 1
    && Init(states[0])
    && forall i: nat :: i < |actions| ==> StepAt(states, actions, i)
  }

  predicate StepAt(states: seq<State>, actions: seq<Action>, i: nat)
    requires |states| == |actions| + 1 && i < |actions|
  {
    Next(states[i], actions[i], states[i + 1])
  }

  /** Every setter has returned and every worker has exited. */
  predicate Quiescent(s: State) {
    s.front.inserted == {} && s.front.bumped == {} && s.workers == map[]
  }

  /** Between claiming and releasing `persist_running`. */
  predicate Owns(w: Worker) { !w.ConfirmIdle? && !w.Reclaim? }

  // ---------------------------------------------------------------- the inductive invariant

  ghost predicate Exclusive(s: State) {
    && (forall t :: t in s.workers && Owns(s.workers[t]) ==> s.running)
    && (s.running ==> exists t :: t in s.workers && Owns(s.workers[t]))
    && (forall t, u :: t in s.workers && u in s.workers && Owns(s.workers[t]) && Owns(s.workers[u]) ==> t == u)
  }

  ghost predicate DiskInv(f: Front, d: Disk) {
    && d.fileUpTo <= |f.log|
    && d.faultRevision <= f.revision
    && d.file == (if d.fileUpTo == 0 then f.initial else Whole(Version(f, d.fileUpTo)))
  }

  /** Whatever revision `target` promised is on disk, or was given up on. */
  predicate Settled(d: Disk, target: nat) { target <= d.fileUpTo || target <= d.faultRevision }

  ghost predicate SnapshotInv(f: Front, d: Disk, target: nat, data: Data, upTo: nat) {
    && target <= upTo <= |f.log|
    && d.fileUpTo <= upTo
    && data == Version(f, upTo)
  }

  ghost predicate WorkerInv(f: Front, d: Disk, w: Worker) {
    match w
    case LoadTarget => true
    case Abandon => true
    case Flush(target, _, buffer, upTo) =>
      && 1 <= target <= f.revision
      && SnapshotInv(f, d, target, buffer, upTo)
    case Rename(target, temp, upTo) =>
      && 1 <= target <= f.revision
      && temp in d.temps && d.temps[temp].Whole?
      && SnapshotInv(f, d, target, d.temps[temp].data, upTo)
    case Recheck(target) => 1 <= target <= f.revision && Settled(d, target)
    case Release(target) => 1 <= target <= f.revision && Settled(d, target)
    case ConfirmIdle(target) => 1 <= target <= f.revision && Settled(d, target)
    case _ => 1 <= w.target <= f.revision
  }

  ghost predicate FrontInv(f: Front) {
    && f.live == Version(f, |f.log|)
    && |f.log| == f.revision + |f.inserted|
    && f.bumped !! f.inserted
  }

  ghost predicate Inv(s: State) {
    && FrontInv(s.front)
    && DiskInv(s.front, s.disk)
    && Exclusive(s)
    && s.workers.Keys !! s.front.bumped
    && s.workers.Keys !! s.front.inserted
    && (s.front.bumped != {} || s.workers.Keys != {} ==> 1 <= s.front.revision)
    && (forall t :: t in s.workers ==> WorkerInv(s.front, s.disk, s.workers[t]))
    // a revision that is neither on disk nor given up on is in somebody's hands
    && (Settled(s.disk, s.front.revision) || s.front.bumped != {} || s.workers.Keys != {})
  }

  lemma InitInv(s: State)
    requires Init(s)
    ensures Inv(s)
  {
    assert s.front.log[..0] == [];
  }

  // ---------------------------------------------------------------- setter steps

  lemma VersionAfterInsert(f: Front, f': Front, u: Update)
    requires f'.log == f.log + [u] && f'.initial == f.initial
    ensures forall n: nat :: n <= |f.log| ==> Version(f', n) == Version(f, n)
    ensures Version(f', |f'.log|) == Version(f, |f.log|)[u.key := u.value]
  {
    forall n: nat | n <= |f.log|
      ensures Version(f', n) == Version(f, n)
    {
      assert f'.log[..n] == f.log[..n];
    }
    assert f'.log[..|f'.log|] == f'.log && f.log[..|f.log|] == f.log;
    assert f'.log[..|f'.log| - 1] == f.log;
  }

  /** Growing the log or the revision keeps what the workers rely on. */
  lemma WorkerInvGrows(f: Front, f': Front, d: Disk, w: Worker)
    requires WorkerInv(f, d, w)
    requires |f.log| <= |f'.log| && f.revision <= f'.revision
    requires forall n: nat :: n <= |f.log| ==> Version(f', n) == Version(f, n)
    ensures WorkerInv(f', d, w)
  {
  }

  lemma InsertInv(s: State, t: Task, u: Update)
    requires Inv(s) && Enabled(s, Insert(t, u))
    ensures Inv(Apply(s, Insert(t, u)))
  {
    var s' := Apply(s, Insert(t, u));
    VersionAfterInsert(s.front, s'.front, u);
    forall x | x in s'.workers
      ensures WorkerInv(s'.front, s'.disk, s'.workers[x])
    {
      WorkerInvGrows(s.front, s'.front, s.disk, s.workers[x]);
    }
    ExclusiveFrame(s, s');
  }

  lemma BumpInv(s: State, t: Task)
    requires Inv(s) && Enabled(s, Bump(t))
    ensures Inv(Apply(s, Bump(t)))
  {
    var s' := Apply(s, Bump(t));
    forall x | x in s'.workers
      ensures WorkerInv(s'.front, s'.disk, s'.workers[x])
    {
      WorkerInvGrows(s.front, s'.front, s.disk, s.workers[x]);
    }
    assert t in s'.front.bumped;
    ExclusiveFrame(s, s');
  }

  lemma ExclusiveFrame(s: State, s': State)
    requires Exclusive(s) && s'.workers == s.workers && s'.running == s.running
    ensures Exclusive(s')
  {
    if s.running {
      var x :| x in s.workers && Owns(s.workers[x]);
      assert x in s'.workers && Owns(s'.workers[x]);
    }
  }

  lemma ClaimInv(s: State, t: Task)
    requires Inv(s) && Enabled(s, Claim(t))
    ensures Inv(Apply(s, Claim(t)))
  {
    var s' := Apply(s, Claim(t));
    if s.running {
      ExclusiveFrame(s, s');
      var x :| x in s.workers && Owns(s.workers[x]);
      assert x in s'.workers.Keys;
    } else {
      assert t in s'.workers.Keys && Owns(s'.workers[t]);
    }
    forall x | x in s'.workers
      ensures WorkerInv(s'.front, s'.disk, s'.workers[x])
    {
      if x != t {
        WorkerInvGrows(s.front, s'.front, s.disk, s.workers[x]);
      }
    }
  }

  // ---------------------------------------------------------------- worker steps

  predicate NextOwns(e: Effect) { e.next.Some? && Owns(e.next.value) }

  lemma AdvanceOwnership(f: Front, running: bool, d: Disk, w: Worker, ok: bool)
    ensures var e := Advance(f, running, d, w, ok);
      if Owns(w) then (e.running == running && NextOwns(e)) || (!e.running && !NextOwns(e))
      else (e.running == running && !NextOwns(e)) || (!running && e.running && NextOwns(e))
  {
  }

  lemma WorkExclusive(s: State, t: Task, ok: bool)
    requires Exclusive(s) && t in s.workers
    ensures Exclusive(WorkStep(s, t, ok))
  {
    var s' := WorkStep(s, t, ok);
    AdvanceOwnership(s.front, s.running, s.disk, s.workers[t], ok);
    if s'.running && !(t in s'.workers && Owns(s'.workers[t])) {
      var x :| x in s.workers && Owns(s.workers[x]);
      assert x in s'.workers && Owns(s'.workers[x]);
    }
  }

  /** The stepping worker: the disk stays a snapshot and never goes back, the worker keeps its
      own invariant, and it returns only once its target is settled or another owner runs. */
  lemma AdvanceInv(f: Front, running: bool, d: Disk, w: Worker, ok: bool)
    requires FrontInv(f) && DiskInv(f, d) && WorkerInv(f, d, w) && 1 <= f.revision
    ensures var e := Advance(f, running, d, w, ok);
      && DiskInv(f, e.disk)
      && d.fileUpTo <= e.disk.fileUpTo && d.faultRevision <= e.disk.faultRevision
      && (e.next.Some? ==> WorkerInv(f, e.disk, e.next.value))
      && (e.next.None? ==> Settled(e.disk, f.revision) || (running && !Owns(w)))
  {
  }

  /** A worker that does not own the flag holds no snapshot, so no step of the owner hurts it. */
  lemma BystanderInv(f: Front, d: Disk, d': Disk, w: Worker)
    requires WorkerInv(f, d, w) && !Owns(w)
    requires d.fileUpTo <= d'.fileUpTo && d.faultRevision <= d'.faultRevision
    ensures WorkerInv(f, d', w)
  {
  }

  lemma AdvanceFrame(f: Front, running: bool, d: Disk, w: Worker, ok: bool)
    requires !Owns(w)
    ensures Advance(f, running, d, w, ok).disk == d
  {
  }

  lemma WorkInv(s: State, t: Task, ok: bool)
    requires Inv(s) && t in s.workers
    ensures Inv(WorkStep(s, t, ok))
    ensures s.disk.fileUpTo <= WorkStep(s, t, ok).disk.fileUpTo
  {
    var s' := WorkStep(s, t, ok);
    assert t in s.workers.Keys;
    AdvanceInv(s.front, s.running, s.disk, s.workers[t], ok);
    WorkExclusive(s, t, ok);
    forall x | x in s'.workers && x != t
      ensures WorkerInv(s'.front, s'.disk, s'.workers[x])
    {
      if Owns(s.workers[t]) {
        BystanderInv(s.front, s.disk, s'.disk, s.workers[x]);
      } else {
        AdvanceFrame(s.front, s.running, s.disk, s.workers[t], ok);
      }
    }
    if t in s'.workers {
      assert t in s'.workers.Keys;
    } else if !Settled(s'.disk, s.front.revision) {
      var x :| x in s.workers && Owns(s.workers[x]);
      assert x in s'.workers.Keys;
    }
  }

  lemma NextInv(s: State, a: Action, s': State)
    requires Inv(s) && Next(s, a, s')
    ensures Inv(s')
    ensures s.disk.fileUpTo <= s'.disk.fileUpTo
  {
    match a
    case Insert(t, u) => InsertInv(s, t, u);
    case Bump(t) => BumpInv(s, t);
    case Claim(t) => ClaimInv(s, t);
    case Work(t, ok) => WorkInv(s, t, ok);
  }

  // ---------------------------------------------------------------- theorems over whole runs

  lemma {:induction false} RunInv(states: seq<State>, actions: seq<Action>, i: nat)
    requires IsRun(states, actions) && i < |states|
    ensures Inv(states[i])
  {
    if i == 0 {
      InitInv(states[0]);
    } else {
      RunInv(states, actions, i - 1);
      assert StepAt(states, actions, i - 1);
      NextInv(states[i - 1], actions[i - 1], states[i]);
    }
  }

  /** With or without faults: never two workers between claiming and releasing the flag, and
      the target file is what it was at start-up or exactly one complete past version of the
      map, the one `fileUpTo` names. */
  lemma SafeInEveryRun(states: seq<State>, actions: seq<Action>, i: nat)
    requires IsRun(states, actions) && i < |states|
    ensures var s := states[i];
      && (forall t, u :: t in s.workers && u in s.workers && Owns(s.workers[t]) && Owns(s.workers[u]) ==> t == u)
      && s.disk.fileUpTo <= |s.front.log|
      && s.disk.file == (if s.disk.fileUpTo == 0 then s.front.initial
                         else Whole(Version(s.front, s.disk.fileUpTo)))
  {
    RunInv(states, actions, i);
  }

  lemma NextGrows(s: State, a: Action, s': State)
    requires Next(s, a, s')
    ensures s.front.log <= s'.front.log && s.front.initial == s'.front.initial
  {
  }

  predicate NotOlder(s: State, s': State) {
    && s.front.log <= s'.front.log && s.front.initial == s'.front.initial
    && s.disk.fileUpTo <= s'.disk.fileUpTo
  }

  lemma NotOlderTransitive(s: State, s': State, s'': State)
    requires NotOlder(s, s') && NotOlder(s', s'')
    ensures NotOlder(s, s'')
  {
  }

  lemma RunStepNotOlder(states: seq<State>, actions: seq<Action>, i: nat)
    requires IsRun(states, actions) && i < |actions|
    ensures NotOlder(states[i], states[i + 1])
  {
    RunInv(states, actions, i);
    assert StepAt(states, actions, i);
    NextInv(states[i], actions[i], states[i + 1]);
    NextGrows(states[i], actions[i], states[i + 1]);
  }

  /** The log only grows and the file never goes back to an older version. */
  lemma {:induction false} FileNeverGoesBack(states: seq<State>, actions: seq<Action>, i: nat, j: nat)
    requires IsRun(states, actions) && i <= j < |states|
    ensures NotOlder(states[i], states[j])
  {
    if i < j {
      FileNeverGoesBack(states, actions, i, j - 1);
      RunStepNotOlder(states, actions, j - 1);
      NotOlderTransitive(states[i], states[j - 1], states[j]);
    }
  }

  /** Once all have finished, the file is the live map unless a fault gave up on the newest
      revision. */
  lemma QuiescentFile(s: State)
    requires Inv(s) && Quiescent(s)
    requires s.disk.faultRevision < s.front.revision || s.front.revision == 0
    requires s.front.revision > 0 || s.front.initial.Whole?
    ensures s.disk.file == Whole(s.front.live)
  {
    assert s.front.log[..0] == [];
  }

  /** No I/O step fails between `k` and `i`, and none has failed whose worker is still on its
      way out. */
  ghost predicate FaultFree(states: seq<State>, actions: seq<Action>, k: nat, i: nat)
    requires IsRun(states, actions) && k <= i < |states|
  {
    && (forall j :: k <= j < i && actions[j].Work? ==> actions[j].ok)
    && (forall t :: t in states[k].workers ==> !states[k].workers[t].Abandon?)
  }

  lemma FaultFreeStep(s: State, a: Action, s': State)
    requires Inv(s) && Next(s, a, s') && (a.Work? ==> a.ok)
    requires forall t :: t in s.workers ==> !s.workers[t].Abandon?
    ensures s'.disk.faultRevision == s.disk.faultRevision
    ensures forall t :: t in s'.workers ==> !s'.workers[t].Abandon?
  {
    if a.Work? {
      assert WorkerInv(s.front, s.disk, s.workers[a.task]);
    }
  }

  lemma {:induction false} FaultFreeRun(states: seq<State>, actions: seq<Action>, k: nat, i: nat)
    requires IsRun(states, actions) && k <= i < |states| && FaultFree(states, actions, k, i)
    ensures states[i].disk.faultRevision == states[k].disk.faultRevision
    ensures forall t :: t in states[i].workers ==> !states[i].workers[t].Abandon?
  {
    if k < i {
      FaultFreeRun(states, actions, k, i - 1);
      RunInv(states, actions, i - 1);
      assert StepAt(states, actions, i - 1);
      FaultFreeStep(states[i - 1], actions[i - 1], states[i]);
    }
  }

  /** No lost update: in every fault-free interleaving of any number of setters and workers,
      when all have finished the file holds exactly the live map. */
  lemma NoLostUpdate(states: seq<State>, actions: seq<Action>, i: nat)
    requires IsRun(states, actions) && i < |states|
    requires FaultFree(states, actions, 0, i) && Quiescent(states[i])
    requires states[i].front.log != [] || states[i].front.initial.Whole?
    ensures states[i].disk.file == Whole(states[i].front.live)
  {
    FaultFreeRun(states, actions, 0, i);
    RunInv(states, actions, i);
    QuiescentFile(states[i]);
  }

  /** Healing: whatever failed before `k`, one setter reaching its `fetch_add` in a fault-free
      stretch after `k` is enough for the file to hold exactly the live map at the end. */
  lemma HealsAfterFaults(states: seq<State>, actions: seq<Action>, k: nat, i: nat)
    requires IsRun(states, actions) && k <= i < |states|
    requires FaultFree(states, actions, k, i) && Quiescent(states[i])
    requires states[k].front.revision < states[i].front.revision
    ensures states[i].disk.file == Whole(states[i].front.live)
  {
    FaultFreeRun(states, actions, k, i);
    RunInv(states, actions, k);
    RunInv(states, actions, i);
    QuiescentFile(states[i]);
  }

  // ---------------------------------------------------------------- after a failure

  predicate HoldsSnapshot(w: Worker) { w.Flush? || w.Rename? }

  /** Every snapshot in flight includes the first `n` updates. */
  ghost predicate FreshSnapshots(s: State, n: nat) {
    forall t :: t in s.workers && HoldsSnapshot(s.workers[t]) ==> n <= s.workers[t].upTo
  }

  /** A failing I/O step of the worker that owns the flag. */
  predicate Fails(s: State, a: Action) {
    && a.Work? && !a.ok && a.task in s.workers
    && var w := s.workers[a.task];
       w.MakeDir? || w.CreateTemp? || w.Serialize? || w.Flush? || w.Rename?
  }

  predicate Writes(s: State, a: Action) {
    a.Work? && a.ok && a.task in s.workers && s.workers[a.task].Rename?
  }

  lemma FailureDropsSnapshot(s: State, a: Action, s': State)
    requires Exclusive(s) && Next(s, a, s') && Fails(s, a)
    ensures FreshSnapshots(s', |s.front.log|) && s'.front == s.front
  {
  }

  lemma FreshStep(s: State, a: Action, s': State, n: nat)
    requires FreshSnapshots(s, n) && n <= |s.front.log| && Next(s, a, s')
    ensures FreshSnapshots(s', n) && n <= |s'.front.log|
  {
    NextGrows(s, a, s');
    if a.Work? {
      var e := Advance(s.front, s.running, s.disk, s.workers[a.task], a.ok);
      assert e.next.Some? && HoldsSnapshot(e.next.value) ==> n <= e.next.value.upTo;
    }
  }

  lemma {:induction false} SnapshotsStayFresh(states: seq<State>, actions: seq<Action>, i: nat, j: nat)
    requires IsRun(states, actions) && i < j < |states|
    requires Fails(states[i], actions[i])
    ensures |states[i].front.log| <= |states[j].front.log|
    ensures FreshSnapshots(states[j], |states[i].front.log|)
  {
    if i + 1 == j {
      RunInv(states, actions, i);
      assert StepAt(states, actions, i);
      FailureDropsSnapshot(states[i], actions[i], states[j]);
    } else {
      SnapshotsStayFresh(states, actions, i, j - 1);
      assert StepAt(states, actions, j - 1);
      FreshStep(states[j - 1], actions[j - 1], states[j], |states[i].front.log|);
    }
  }

  /** The next successful write carries every update an earlier failure left unwritten. */
  lemma NextWriteCarriesUnwritten(states: seq<State>, actions: seq<Action>, i: nat, j: nat)
    requires IsRun(states, actions) && i < j < |actions|
    requires Fails(states[i], actions[i]) && Writes(states[j], actions[j])
    ensures states[j + 1].disk.fileUpTo >= |states[i].front.log|
    ensures states[j + 1].disk.fileUpTo <= |states[j + 1].front.log|
    ensures states[j + 1].disk.file == Whole(Version(states[j + 1].front, states[j + 1].disk.fileUpTo))
  {
    SnapshotsStayFresh(states, actions, i, j);
    RunInv(states, actions, j);
    RunInv(states, actions, j + 1);
    var s, a := states[j], actions[j];
    assert StepAt(states, actions, j);
    assert WorkerInv(s.front, s.disk, s.workers[a.task]);
  }

  predicate IsLastWrite(log: seq<Update>, k: Key, m: nat) {
    && m < |log| && log[m].key == k
    && forall l :: m < l < |log| ==> log[l].key != k
  }

  /** What carrying an update means for a reader: the key is there, holding the value of the
      last update of that key among the ones carried. */
  lemma {:induction false} ReplayCarries(base: Data, log: seq<Update>, i: nat)
    requires i < |log|
    ensures log[i].key in Replay(base, log)
    ensures exists m :: i <= m < |log| && IsLastWrite(log, log[i].key, m)
                        && Replay(base, log)[log[i].key] == log[m].value
  {
    var n := |log| - 1;
    if log[n].key == log[i].key {
      assert IsLastWrite(log, log[i].key, n);
    } else {
      ReplayCarries(base, log[..n], i);
      assert log[..n][i] == log[i];
      var m :| i <= m < n && IsLastWrite(log[..n], log[i].key, m)
               && Replay(base, log[..n])[log[i].key] == log[..n][m].value;
      assert log[m] == log[..n][m];
      assert IsLastWrite(log, log[i].key, m);
    }
  }

  // ---------------------------------------------------------------- exactly when the file is current

  predicate Serializes(s: State, a: Action) {
    a.Work? && a.ok && a.task in s.workers && s.workers[a.task].Serialize?
  }

  /** A snapshot in flight was serialized by the worker that holds it, when the log was that long. */
  lemma {:induction false} SnapshotTaken(states: seq<State>, actions: seq<Action>, j: nat, t: Task)
    requires IsRun(states, actions) && j < |states|
    requires t in states[j].workers && HoldsSnapshot(states[j].workers[t])
    ensures exists k: nat :: k < j && actions[k].Work? && actions[k].task == t && Serializes(states[k], actions[k])
                             && |states[k].front.log| == states[j].workers[t].upTo
  {
    if j == 0 {
    } else {
      var s, a := states[j - 1], actions[j - 1];
      assert StepAt(states, actions, j - 1);
      if t in s.workers && HoldsSnapshot(s.workers[t]) {
        SnapshotTaken(states, actions, j - 1, t);
        assert s.workers[t].upTo == states[j].workers[t].upTo;
      } else {
        assert Serializes(s, a) && a.task == t;
      }
    }
  }

  /** Some successful rename before `i` published a snapshot serialized after the last insert. */
  ghost predicate Published(states: seq<State>, actions: seq<Action>, i: nat)
    requires IsRun(states, actions) && i < |states|
  {
    exists k: nat, j: nat :: k < j < i && PublishesAt(states, actions, i, k, j)
  }

  /** The snapshot serialized at `k`, with the log of `i`, is the one renamed at `j`. */
  ghost predicate PublishesAt(states: seq<State>, actions: seq<Action>, i: nat, k: nat, j: nat)
    requires IsRun(states, actions) && k < j < i < |states|
  {
    && Serializes(states[k], actions[k]) && Writes(states[j], actions[j]) && actions[k].task == actions[j].task
    && |states[k].front.log| == |states[i].front.log| == states[j].workers[actions[j].task].upTo
  }

  lemma WriteMovesFile(s: State, a: Action, s': State)
    requires Inv(s) && Next(s, a, s')
    ensures s'.disk.fileUpTo == if Writes(s, a) then s.workers[a.task].upTo else s.disk.fileUpTo
  {
    if a.Work? {
      assert WorkerInv(s.front, s.disk, s.workers[a.task]);
    }
  }

  /** What the file includes is what the last successful rename published. */
  lemma {:induction false} FileIsPublished(states: seq<State>, actions: seq<Action>, i: nat)
    requires IsRun(states, actions) && i < |states| && states[i].disk.fileUpTo > 0
    ensures exists j: nat :: j < i && Writes(states[j], actions[j])
                             && states[j].workers[actions[j].task].upTo == states[i].disk.fileUpTo
  {
    if i == 0 {
    } else {
      RunInv(states, actions, i - 1);
      assert StepAt(states, actions, i - 1);
      WriteMovesFile(states[i - 1], actions[i - 1], states[i]);
      if !Writes(states[i - 1], actions[i - 1]) {
        FileIsPublished(states, actions, i - 1);
      }
    }
  }

  /** At every point of every run, whatever failed: the file includes all updates if and only if some successful
      rename published a snapshot serialized after the last insert. */
  lemma CurrentExactly(states: seq<State>, actions: seq<Action>, i: nat)
    requires IsRun(states, actions) && i < |states| && states[i].front.log != []
    ensures states[i].disk.fileUpTo == |states[i].front.log| <==> Published(states, actions, i)
    ensures Published(states, actions, i) ==> states[i].disk.file == Whole(states[i].front.live)
  {
    var n := |states[i].front.log|;
    RunInv(states, actions, i);
    assert states[i].front.log[..n] == states[i].front.log;
    if states[i].disk.fileUpTo == n {
      FileIsPublished(states, actions, i);
      var j: nat :| j < i && Writes(states[j], actions[j]) && states[j].workers[actions[j].task].upTo == n;
      var t := actions[j].task;
      SnapshotTaken(states, actions, j, t);
      var k: nat :| k < j && actions[k].Work? && actions[k].task == t && Serializes(states[k], actions[k])
                    && |states[k].front.log| == states[j].workers[t].upTo;
      assert PublishesAt(states, actions, i, k, j);
    }
    if Published(states, actions, i) {
      var k: nat, j: nat :| k < j < i && PublishesAt(states, actions, i, k, j);
      RunInv(states, actions, j);
      assert StepAt(states, actions, j);
      WriteMovesFile(states[j], actions[j], states[j + 1]);
      FileNeverGoesBack(states, actions, j + 1, i);
    }
  }

  /** So, once all have finished, an update is missing exactly when no rename published a snapshot taken after it;
      and that happens only where a failure gave up on the newest revision. */
  lemma LostExactly(states: seq<State>, actions: seq<Action>, i: nat)
    requires IsRun(states, actions) && i < |states| && states[i].front.log != [] && Quiescent(states[i])
    ensures Published(states, actions, i) ==> states[i].disk.file == Whole(states[i].front.live)
    ensures !Published(states, actions, i) ==>
      var s := states[i];
      && s.disk.fileUpTo < |s.front.log| && s.disk.faultRevision == s.front.revision
      && s.disk.file == if s.disk.fileUpTo == 0 then s.front.initial else Whole(Version(s.front, s.disk.fileUpTo))
  {
    CurrentExactly(states, actions, i);
    RunInv(states, actions, i);
  }

  /** What the file held at start-up stays: an entry nobody has set since is in every version. */
  lemma {:induction false} InitialIsKept(base: Data, log: seq<Update>, k: Key)
    requires k in base && forall i :: 0 <= i < |log| ==> log[i].key != k
    ensures k in Replay(base, log) && Replay(base, log)[k] == base[k]
  {
    if log == [] {
    } else {
      InitialIsKept(base, log[..|log| - 1], k);
    }
  }

  /** So a whole file published later still has it. */
  lemma PublishedKeepsInitial(states: seq<State>, actions: seq<Action>, i: nat, data: Data, k: Key)
    requires IsRun(states, actions) && i < |states| && states[i].front.initial == Whole(data) && k in data
    requires forall n :: 0 <= n < |states[i].front.log| ==> states[i].front.log[n].key != k
    ensures states[i].disk.file.Whole? && k in states[i].disk.file.data && states[i].disk.file.data[k] == data[k]
    ensures k in states[i].front.live && states[i].front.live[k] == data[k]
  {
    RunInv(states, actions, i);
    var s := states[i];
    InitialIsKept(data, s.front.log[..s.disk.fileUpTo], k);
    InitialIsKept(data, s.front.log[..|s.front.log|], k);
  }

  // ---------------------------------------------------------------- the debounce

  /** A worker past its first load read its target revision from the counter, and no bump came between that load
      and now if the counter still shows it. */
  lemma {:induction false} TargetWasLoaded(states: seq<State>, actions: seq<Action>, i: nat, t: Task)
    requires IsRun(states, actions) && i < |states|
    requires t in states[i].workers && states[i].workers[t].Debounce?
    ensures exists k: nat :: k < i && actions[k].Work? && actions[k].task == t && t in states[k].workers
                             && states[k].workers[t].LoadTarget? && states[k].front.revision == states[i].workers[t].target
  {
    if i == 0 {
    } else {
      assert StepAt(states, actions, i - 1);
      if t in states[i - 1].workers && states[i - 1].workers[t].Debounce? && states[i - 1].workers[t] == states[i].workers[t] {
        TargetWasLoaded(states, actions, i - 1, t);
      }
    }
  }

  lemma {:induction false} RevisionGrows(states: seq<State>, actions: seq<Action>, i: nat, j: nat)
    requires IsRun(states, actions) && i <= j < |states|
    ensures states[i].front.revision <= states[j].front.revision
  {
    if i == j {
    } else {
      assert StepAt(states, actions, j - 1);
      RevisionGrows(states, actions, i, j - 1);
    }
  }

  /** A worker leaves its sleep for the write exactly when no setter has bumped the revision since it loaded its
      target. */
  lemma WritesAfterQuietSleep(states: seq<State>, actions: seq<Action>, i: nat)
    requires IsRun(states, actions) && i < |actions| && actions[i].Work? && actions[i].task in states[i].workers
    requires states[i].workers[actions[i].task].Debounce?
    ensures var t := actions[i].task;
      && t in states[i + 1].workers
      && exists k: nat :: k < i && actions[k].Work? && actions[k].task == t && t in states[k].workers
           && states[k].workers[t].LoadTarget?
           && (states[i + 1].workers[t].MakeDir?
               <==> forall n :: k <= n <= i ==> states[n].front.revision == states[k].front.revision)
           && (!states[i + 1].workers[t].MakeDir? ==> states[i + 1].workers[t] == LoadTarget)
  {
    var t := actions[i].task;
    assert StepAt(states, actions, i);
    TargetWasLoaded(states, actions, i, t);
    var k: nat :| k < i && actions[k].Work? && actions[k].task == t && t in states[k].workers
                  && states[k].workers[t].LoadTarget? && states[k].front.revision == states[i].workers[t].target;
    forall n | k <= n <= i
      ensures states[k].front.revision <= states[n].front.revision <= states[i].front.revision
    {
      RevisionGrows(states, actions, k, n);
      RevisionGrows(states, actions, n, i);
    }
  }

  // ---------------------------------------------------------------- progress

  /** How many steps a worker has left at most, as long as no setter moves the revision. */
  function StepsLeft(f: Front, w: Worker): nat {
    match w
    case LoadTarget => 10
    case Debounce(target) => if target == f.revision then 9 else 11
    case MakeDir(target) => if target == f.revision then 8 else 18
    case CreateTemp(target) => if target == f.revision then 7 else 17
    case Serialize(target, _) => if target == f.revision then 6 else 16
    case Flush(target, _, _, _) => if target == f.revision then 5 else 15
    case Rename(target, _, _) => if target == f.revision then 4 else 14
    case Recheck(target) => if target == f.revision then 3 else 13
    case Release(target) => if target == f.revision then 2 else 13
    case ConfirmIdle(target) => if target == f.revision then 1 else 12
    case Reclaim(_) => 11
    case Abandon => 1
  }

  /** Whatever fails, a worker that no setter disturbs returns within 18 steps. */
  lemma WorkerProgress(f: Front, running: bool, d: Disk, w: Worker, ok: bool)
    ensures var e := Advance(f, running, d, w, ok);
      && StepsLeft(f, w) <= 18
      && (e.next.Some? ==> StepsLeft(f, e.next.value) < StepsLeft(f, w))
      && (StepsLeft(f, w) == 1 ==> e.next.None?)
  {
  }

  /** An I/O failure before the rename gives the write up without touching the target file, and the worker then drops
      the flag and returns; a failed rename does not, and goes on to the handoff. */
  lemma FailureGivesUp(f: Front, running: bool, d: Disk, w: Worker)
    ensures var e := Advance(f, running, d, w, false);
      && (w.MakeDir? || w.CreateTemp? || w.Serialize? || w.Flush? ==> e.next == Some(Abandon) && e.running == running)
      && (w.Rename? ==> e.next == Some(Recheck(w.target)) && e.running == running)
      && e.disk.file == d.file && e.disk.fileUpTo == d.fileUpTo
    ensures w.Abandon? ==> forall ok :: Advance(f, running, d, w, ok).next == None && !Advance(f, running, d, w, ok).running
  {
  }

  /** The temporary file a worker creates has a name no earlier one had. */
  lemma {:induction false} TempNamesAreFresh(states: seq<State>, actions: seq<Action>, i: nat, j: nat)
    requires IsRun(states, actions) && i < j < |states|
    requires actions[i].Work? && actions[i].task in states[i].workers && states[i].workers[actions[i].task].CreateTemp?
    ensures states[i].disk.writeSeq < states[j].disk.writeSeq
  {
    assert StepAt(states, actions, j - 1);
    if j == i + 1 {
    } else {
      TempNamesAreFresh(states, actions, i, j - 1);
    }
  }

  /** The temporary file a worker is working on. */
  predicate HasTemp(w: Worker) { w.Serialize? || w.Flush? || w.Rename? }

  /** Some worker is working on this temporary file. */
  ghost predicate InUse(s: State, n: nat) {
    exists t :: t in s.workers && HasTemp(s.workers[t]) && s.workers[t].temp == n
  }

  ghost predicate NoLitter(s: State) { forall n :: n in s.disk.temps ==> InUse(s, n) }

  /** A step leaves only the file it goes on with, and removes or renames the one it is done with. */
  lemma AdvanceTemps(f: Front, running: bool, d: Disk, w: Worker, ok: bool, n: nat)
    ensures var e := Advance(f, running, d, w, ok);
      n in e.disk.temps ==>
        || (e.next.Some? && HasTemp(e.next.value) && e.next.value.temp == n)
        || (n in d.temps && !(HasTemp(w) && w.temp == n))
  {
  }

  lemma NoLitterStep(s: State, a: Action, s': State)
    requires s.workers.Keys !! s.front.bumped && NoLitter(s) && Next(s, a, s')
    ensures NoLitter(s')
  {
    forall n | n in s'.disk.temps
      ensures InUse(s', n)
    {
      if a.Work? {
        AdvanceTemps(s.front, s.running, s.disk, s.workers[a.task], a.ok, n);
        if a.task in s'.workers && HasTemp(s'.workers[a.task]) && s'.workers[a.task].temp == n {
        } else {
          OtherInUse(s, s', a.task, n);
        }
      } else {
        var t :| t in s.workers && HasTemp(s.workers[t]) && s.workers[t].temp == n;
        assert t in s.workers.Keys && t in s'.workers && s'.workers[t] == s.workers[t];
      }
    }
  }

  lemma OtherInUse(s: State, s': State, t: Task, n: nat)
    requires InUse(s, n) && t in s.workers && !(HasTemp(s.workers[t]) && s.workers[t].temp == n)
    requires forall u :: u in s.workers && u != t ==> u in s'.workers && s'.workers[u] == s.workers[u]
    ensures InUse(s', n)
  {
    var u :| u in s.workers && HasTemp(s.workers[u]) && s.workers[u].temp == n;
    assert u in s'.workers && s'.workers[u] == s.workers[u];
  }

  /** However its writes went, a run that has come to rest leaves no temporary file. */
  lemma {:induction false} RestLeavesNoLitter(states: seq<State>, actions: seq<Action>, i: nat)
    requires IsRun(states, actions) && i < |states|
    ensures NoLitter(states[i])
    ensures states[i].workers == map[] ==> states[i].disk.temps == map[]
  {
    if i == 0 {
    } else {
      RestLeavesNoLitter(states, actions, i - 1);
      RunInv(states, actions, i - 1);
      assert StepAt(states, actions, i - 1);
      NoLitterStep(states[i - 1], actions[i - 1], states[i]);
    }
  }

  /** One setter and one worker, up to the moment before the rename. */
  lemma RunToRename() returns (states: seq<State>, actions: seq<Action>)
    ensures IsRun(states, actions)
    ensures var s := states[|actions|];
      && s.front == Front(Absent, s.front.log, map[TokenDecimals(1) := Decimals(18)], 1, {}, {})
      && s.running && s.workers == map[7 := Rename(1, 0, 1)] && s.disk.file == Absent
  {
    var go := Work(7, true);
    var s0 := State(Front(Absent, [], map[], 0, {}, {}), false, map[], Disk(Absent, map[], 0, 0, 0));
    states, actions := [s0], [];
    states, actions := Extend(states, actions, Insert(7, Update(TokenDecimals(1), Decimals(18))));
    states, actions := Extend(states, actions, Bump(7));
    states, actions := Extend(states, actions, Claim(7));
    assert states[|actions|].workers == map[7 := LoadTarget];
    states, actions := Extend(states, actions, go);
    states, actions := Extend(states, actions, go);
    states, actions := Extend(states, actions, go);
    assert states[|actions|].workers == map[7 := CreateTemp(1)];
    states, actions := Extend(states, actions, go);
    states, actions := Extend(states, actions, go);
    states, actions := Extend(states, actions, go);
  }

  /** Fault-freedom is needed: one setter, one worker and one failed rename end quiescent with
      the update missing from the file. */
  lemma FailedRenameLosesUpdate() returns (states: seq<State>, actions: seq<Action>)
    ensures IsRun(states, actions)
    ensures Quiescent(states[|actions|])
    ensures states[|actions|].front.live == map[TokenDecimals(1) := Decimals(18)]
    ensures states[|actions|].disk.file == Absent
  {
    states, actions := RunToRename();
    states, actions := Extend(states, actions, Work(7, false));
    assert states[|actions|].workers == map[7 := Recheck(1)];
    states, actions := Extend(states, actions, Work(7, true));
    states, actions := Extend(states, actions, Work(7, true));
    states, actions := Extend(states, actions, Work(7, true));
  }

  lemma Extend(states: seq<State>, actions: seq<Action>, a: Action)
    returns (states': seq<State>, actions': seq<Action>)
    requires IsRun(states, actions) && Enabled(states[|actions|], a)
    ensures IsRun(states', actions')
    ensures states'[|actions'|] == Apply(states[|actions|], a)
  {
    states', actions' := states + [Apply(states[|actions|], a)], actions + [a];
    forall i: nat | i < |actions'|
      ensures StepAt(states', actions', i)
    {
      assert i < |actions| ==> StepAt(states, actions, i);
    }
  }

  // ---------------------------------------------------------------- the cache object

  /** The cache with its shared fields.  Each method is one atomic step of the code, updates
      the fields in place, refines `Apply`, and keeps the invariant. */
  class PoolMetaCache {
    const initial: Content
    var inner: Data
    var persistRevision: nat
    var persistRunning: bool
    var writeSeq: nat
    var path: Content
    var temps: map<nat, Content>
    var inserted: set<Task>
    var bumped: set<Task>
    var workers: map<Task, Worker>
    // bookkeeping only
    var log: seq<Update>
    var fileUpTo: nat
    var faultRevision: nat

    ghost function View(): State
      reads this
    {
      State(Front(initial, log, inner, persistRevision, inserted, bumped),
            persistRunning, workers, Disk(path, temps, writeSeq, fileUpTo, faultRevision))
    }

    constructor (content: Content)
      ensures Init(View()) && Inv(View()) && View().front.initial == content
      ensures inner == match content { case Whole(data) => data case _ => map[] }
    {
      initial, inner := content, LoadFile(content);
      persistRevision, persistRunning, writeSeq := 0, false, 0;
      path, temps := content, map[];
      inserted, bumped, workers := {}, {}, map[];
      log, fileUpTo, faultRevision := [], 0, 0;
      new;
      InitInv(View());
    }

    method SetEntry(t: Task, u: Update)
      requires Inv(View()) && Enabled(View(), Insert(t, u))
      modifies this
      ensures View() == Apply(old(View()), Insert(t, u)) && Inv(View())
    {
      inner := inner[u.key := u.value];
      log := log + [u];
      inserted := inserted + {t};
      NextInv(old(View()), Insert(t, u), View());
    }

    method BumpRevision(t: Task)
      requires Inv(View()) && Enabled(View(), Bump(t))
      modifies this
      ensures View() == Apply(old(View()), Bump(t)) && Inv(View())
    {
      persistRevision := persistRevision + 1;
      inserted, bumped := inserted - {t}, bumped + {t};
      NextInv(old(View()), Bump(t), View());
    }

    method ClaimRunning(t: Task)
      requires Inv(View()) && Enabled(View(), Claim(t))
      modifies this
      ensures View() == Apply(old(View()), Claim(t)) && Inv(View())
    {
      bumped := bumped - {t};
      var wasRunning := persistRunning;
      persistRunning := true;
      if !wasRunning {
        workers := workers[t := LoadTarget];
      }
      NextInv(old(View()), Claim(t), View());
    }

    /** `let target_revision = revision.load(Acquire)`. */
    method LoadTargetRevision(t: Task)
      requires Inv(View()) && t in workers && workers[t].LoadTarget?
      modifies this
      ensures View() == Apply(old(View()), Work(t, true)) && Inv(View())
    {
      workers := workers[t := Debounce(persistRevision)];
      NextInv(old(View()), Work(t, true), View());
    }

    /** After the sleep: start over when the revision moved. */
    method CheckDebounced(t: Task)
      requires Inv(View()) && t in workers && workers[t].Debounce?
      modifies this
      ensures View() == Apply(old(View()), Work(t, true)) && Inv(View())
    {
      var target := workers[t].target;
      workers := workers[t := if persistRevision != target then LoadTarget else MakeDir(target)];
      NextInv(old(View()), Work(t, true), View());
    }

    /** `create_dir_all(parent)`. */
    method MakeDirectory(t: Task, ok: bool)
      requires Inv(View()) && t in workers && workers[t].MakeDir?
      modifies this
      ensures View() == Apply(old(View()), Work(t, ok)) && Inv(View())
    {
      workers := workers[t := if ok then CreateTemp(workers[t].target) else Abandon];
      NextInv(old(View()), Work(t, ok), View());
    }

    /** `write_seq.fetch_add` and `File::create`. */
    method CreateTempFile(t: Task, ok: bool)
      requires Inv(View()) && t in workers && workers[t].CreateTemp?
      modifies this
      ensures View() == Apply(old(View()), Work(t, ok)) && Inv(View())
    {
      var target, temp := workers[t].target, writeSeq;
      writeSeq := writeSeq + 1;
      if ok {
        temps := temps[temp := Torn];
      }
      workers := workers[t := if ok then Serialize(target, temp) else Abandon];
      NextInv(old(View()), Work(t, ok), View());
    }

    /** Serialize the map into the write buffer under the read lock. */
    method SerializeSnapshot(t: Task, ok: bool)
      requires Inv(View()) && t in workers && workers[t].Serialize?
      modifies this
      ensures View() == Apply(old(View()), Work(t, ok)) && Inv(View())
    {
      var target, temp := workers[t].target, workers[t].temp;
      if ok {
        workers := workers[t := Flush(target, temp, inner, |log|)];
      } else {
        temps := temps - {temp};
        workers := workers[t := Abandon];
      }
      NextInv(old(View()), Work(t, ok), View());
    }

    /** `flush`, `into_inner` and `sync_all`. */
    method FlushTempFile(t: Task, ok: bool)
      requires Inv(View()) && t in workers && workers[t].Flush?
      modifies this
      ensures View() == Apply(old(View()), Work(t, ok)) && Inv(View())
    {
      var Flush(target, temp, buffer, upTo) := workers[t];
      if ok {
        temps := temps[temp := Whole(buffer)];
        workers := workers[t := Rename(target, temp, upTo)];
      } else {
        temps := temps - {temp};
        workers := workers[t := Abandon];
      }
      NextInv(old(View()), Work(t, ok), View());
    }

    /** `rename(tmp, path)`; a failure removes the temporary file and falls through. */
    method RenameTempFile(t: Task, ok: bool)
      requires Inv(View()) && t in workers && workers[t].Rename?
      modifies this
      ensures View() == Apply(old(View()), Work(t, ok)) && Inv(View())
    {
      var Rename(target, temp, upTo) := workers[t];
      if ok && temp in temps {
        path, fileUpTo := temps[temp], upTo;
      } else {
        faultRevision := Max(faultRevision, target);
      }
      temps := temps - {temp};
      workers := workers[t := Recheck(target)];
      NextInv(old(View()), Work(t, ok), View());
    }

    /** First comparison after the write. */
    method RecheckRevision(t: Task)
      requires Inv(View()) && t in workers && workers[t].Recheck?
      modifies this
      ensures View() == Apply(old(View()), Work(t, true)) && Inv(View())
    {
      var target := workers[t].target;
      workers := workers[t := if persistRevision == target then Release(target) else LoadTarget];
      NextInv(old(View()), Work(t, true), View());
    }

    /** `running.store(false)`. */
    method ReleaseRunning(t: Task)
      requires Inv(View()) && t in workers && workers[t].Release?
      modifies this
      ensures View() == Apply(old(View()), Work(t, true)) && Inv(View())
    {
      persistRunning := false;
      workers := workers[t := ConfirmIdle(workers[t].target)];
      NextInv(old(View()), Work(t, true), View());
    }

    /** Second comparison, after the release. */
    method ConfirmStillIdle(t: Task)
      requires Inv(View()) && t in workers && workers[t].ConfirmIdle?
      modifies this
      ensures View() == Apply(old(View()), Work(t, true)) && Inv(View())
    {
      var target := workers[t].target;
      if persistRevision == target {
        workers := workers - {t};
      } else {
        workers := workers[t := Reclaim(target)];
      }
      NextInv(old(View()), Work(t, true), View());
    }

    /** `running.swap(true)`: leave when another worker got there first. */
    method ReclaimRunning(t: Task)
      requires Inv(View()) && t in workers && workers[t].Reclaim?
      modifies this
      ensures View() == Apply(old(View()), Work(t, true)) && Inv(View())
    {
      var wasRunning := persistRunning;
      persistRunning := true;
      if wasRunning {
        workers := workers - {t};
      } else {
        workers := workers[t := LoadTarget];
      }
      NextInv(old(View()), Work(t, true), View());
    }

    /** The error exits: `running.store(false)` and return. */
    method AbandonWrite(t: Task)
      requires Inv(View()) && t in workers && workers[t].Abandon?
      modifies this
      ensures View() == Apply(old(View()), Work(t, true)) && Inv(View())
    {
      persistRunning := false;
      faultRevision := Max(faultRevision, persistRevision);
      workers := workers - {t};
      NextInv(old(View()), Work(t, true), View());
    }
  }
}
