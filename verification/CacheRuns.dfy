/** Runs of the compilation cache: requests, callers that still build their module, compilation tasks with
    their reads of tier 2, their lock, backup tasks and the wait for their own result, mode switches and
    evictions, in any interleaving within one process. */
module CacheRuns {
  import opened Prelude
  import opened Fingerprints
  import opened CompilationCaches
  import Dynamism

  /** `Caller` has looked up an entry that needs compilation and has not enqueued it yet. A `Queued` task is
      in the pool and has not begun. `Compiling` is one without tier 2; `Checking` reads the tier-2 file,
      and `AwaitingLock` has missed it. From `Rechecking` to `Waiting` a task holds the tier-2 lock of its
      key: it reads the file again, is `Building`, or `Backed` if it has left that to a backup task and
      tries tier 3 itself, then is `Looking` its entry up and `Waiting` for the promise it has found there.
      `Backup` is the queued and `BackupCompiling` the running backup task. An `Abandoned` caller gave up
      because its adapters could not be made. */
  datatype Task =
    | Caller(request: Request, lookup: Lookup)
    | Queued(key: CacheKey)
    | Compiling(key: CacheKey)
    | Checking(key: CacheKey)
    | AwaitingLock(key: CacheKey)
    | Rechecking(key: CacheKey)
    | Building(key: CacheKey)
    | Backed(key: CacheKey)
    | Looking(key: CacheKey)
    | Waiting(key: CacheKey, promise: nat)
    | Backup(key: CacheKey)
    | BackupCompiling(key: CacheKey)
    | Abandoned(request: Request, lookup: Lookup)
    | Done

  /** An eviction that is still running has the keys that it has yet to see ready. `tier2` says whether
      tier 2 is configured, `files` for which keys it has a file that can be loaded. */
  datatype State = State(
    cache: Cache, tasks: seq<Task>, evictions: seq<Option<set<CacheKey>>>, crashed: bool, tier2: bool,
      files: set<CacheKey>)

  /** `OtherWrites` is the critical section of another process, which may leave a file or remove one. */
  datatype Step =
    | Issue(request: Request)
    | ModuleFails(task: nat)
    | AdapterFails(task: nat)
    | Enqueue(task: nat)
    | Begin(task: nat)
    | Compile(task: nat, ok: bool)
    | Load(task: nat)
    | Miss(task: nat)
    | Acquire(task: nat)
    | Build(task: nat, ok: bool)
    | SpawnBackup(task: nat)
    | Tier3Hits(task: nat)
    | Tier3Misses(task: nat)
    | Look(task: nat)
    | Write(task: nat, present: bool)
    | BackupSkips(task: nat)
    | BackupCompiles(task: nat)
    | OtherWrites(key: CacheKey, present: bool)
    | SetModes(allow: bool, cacheOnly: bool)
    | EvictBegin
    | EvictRound(eviction: nat)
    | EvictEnd(eviction: nat)

  /** An empty cache with caching enabled, and nothing running. */
  ghost predicate IsStart(s: State) {
    s.cache == FRESH && s.tasks == [] && s.evictions == [] && !s.crashed
  }

  // ---------- Steps ----------

  predicate IsTask(s: State, i: nat) {
    i < |s.tasks|
  }

  predicate IsCaller(s: State, i: nat) {
    i < |s.tasks| && s.tasks[i].Caller? && s.tasks[i].lookup.promise < |s.cache.promises|
  }

  predicate Evicting(s: State, e: nat) {
    e < |s.evictions| && s.evictions[e].Some?
  }

  /** The task is inside the critical section of the key. */
  predicate Holds(t: Task, key: CacheKey) {
    (t.Rechecking? || t.Building? || t.Backed? || t.Looking? || t.Waiting?) && t.key == key
  }

  ghost predicate Free(s: State, key: CacheKey) {
    forall i :: 0 <= i < |s.tasks| ==> !Holds(s.tasks[i], key)
  }

  predicate IsSet(c: Cache, p: nat) {
    p < |c.promises| && c.promises[p].outcome.Some?
  }

  ghost predicate Enabled(s: State, step: Step) {
    && !s.crashed
    && match step
       case Issue(r) => WellFormed(r)
       case ModuleFails(i) => IsCaller(s, i)
       case AdapterFails(i) => IsCaller(s, i) && s.tasks[i].lookup.metadata.Some?
       case Enqueue(i) => IsCaller(s, i)
       case Begin(i) => IsTask(s, i) && s.tasks[i].Queued?
       case Compile(i, _) => IsTask(s, i) && (s.tasks[i].Compiling? || s.tasks[i].BackupCompiling?)
       case Load(i) => IsTask(s, i) && (s.tasks[i].Checking? || s.tasks[i].Rechecking?) && s.tasks[i].key in s.files
       case Miss(i) => IsTask(s, i) && (s.tasks[i].Checking? || s.tasks[i].Rechecking?)
       case Acquire(i) => IsTask(s, i) && s.tasks[i].AwaitingLock? && Free(s, s.tasks[i].key)
       case Build(i, _) => IsTask(s, i) && s.tasks[i].Building?
       case SpawnBackup(i) => IsTask(s, i) && s.tasks[i].Building?
       case Tier3Hits(i) => IsTask(s, i) && s.tasks[i].Backed?
       case Tier3Misses(i) => IsTask(s, i) && s.tasks[i].Backed?
       case Look(i) => IsTask(s, i) && s.tasks[i].Looking?
       case Write(i, _) => IsTask(s, i) && s.tasks[i].Waiting? && IsSet(s.cache, s.tasks[i].promise)
       case BackupSkips(i) => IsTask(s, i) && s.tasks[i].Backup? && Ready(s.cache, s.tasks[i].key)
       case BackupCompiles(i) => IsTask(s, i) && s.tasks[i].Backup? && !Ready(s.cache, s.tasks[i].key)
       case OtherWrites(key, _) => Free(s, key)
       case SetModes(_, _) => true
       case EvictBegin => true
       case EvictRound(e) => Evicting(s, e) && s.evictions[e].value != {}
       case EvictEnd(e) => Evicting(s, e) && s.evictions[e].value == {}
  }

  /** One task goes on, and nothing else changes. */
  predicate Moving(step: Step) {
    || step.AdapterFails? || step.Enqueue? || step.Begin? || step.Miss? || step.Acquire?
    || step.Tier3Misses? || step.Look? || step.BackupSkips? || step.BackupCompiles?
  }

  /** One task goes on after it has set the executable of its key. */
  predicate Settling(step: Step) {
    step.Compile? || step.Load? || step.Build? || step.Tier3Hits?
  }

  /** What becomes of the task that takes the step. */
  ghost function NextStage(s: State, step: Step): Task
    requires Enabled(s, step) && (Moving(step) || Settling(step))
  {
    var t := s.tasks[step.task];
    match step
    case AdapterFails(_) => Abandoned(t.request, t.lookup)
    case Enqueue(_) => Queued(StorageKey(t.request, t.lookup))
    case Begin(_) => if s.tier2 && s.cache.allow then Checking(t.key) else Compiling(t.key)
    case Miss(_) => if t.Checking? then AwaitingLock(t.key) else Building(t.key)
    case Acquire(_) => Rechecking(t.key)
    case Build(_, _) => Looking(t.key)
    case Tier3Hits(_) => Looking(t.key)
    case Tier3Misses(_) => Looking(t.key)
    case Look(_) => if t.key in s.cache.executables then Waiting(t.key, s.cache.executables[t.key]) else Done
    case BackupCompiles(_) => BackupCompiling(t.key)
    case _ => Done
  }

  /** Tiers 2 and 3 only ever load; compiling may fail. */
  predicate Succeeds(step: Step) {
    match step
    case Compile(_, ok) => ok
    case Build(_, ok) => ok
    case _ => true
  }

  function WithTask(s: State, i: nat, t: Task): State
    requires i < |s.tasks|
  {
    s.(tasks := s.tasks[i := t])
  }

  function WithFile(s: State, key: CacheKey, present: bool): State {
    s.(files := if present then s.files + {key} else s.files - {key})
  }

  /** A request; a failed check ends the process. */
  function AfterAsk(s: State, r: Request): State {
    var (cache, answer) := Ask(s.cache, r);
    match answer
    case Crash => s.(crashed := true)
    case Refused => s.(cache := cache)
    case Found(lookup) =>
      s.(cache := cache, tasks := if lookup.needsCompilation then s.tasks + [Caller(r, lookup)] else s.tasks)
  }

  /** The end of the wait: a result is written to the tier-2 file, which may fail, and the lock released. */
  function AfterWrite(s: State, i: nat, present: bool): State
    requires i < |s.tasks| && s.tasks[i].Waiting? && IsSet(s.cache, s.tasks[i].promise)
  {
    var t := s.tasks[i];
    var left := if s.cache.promises[t.promise].outcome.value.ok then WithFile(s, t.key, present) else s;
    left.(tasks := s.tasks[i := Done])
  }

  ghost function AfterSettling(s: State, i: nat, t: Task, ok: bool): State
    requires i < |s.tasks| && !s.tasks[i].Caller? && !s.tasks[i].Abandoned? && !s.tasks[i].Done?
  {
    var key := s.tasks[i].key;
    WithTask(s, i, t).(cache := Settle(s.cache, key, Outcome(key, ok)))
  }

  ghost function After(s: State, step: Step): State
    requires Enabled(s, step)
  {
    if Moving(step) then WithTask(s, step.task, NextStage(s, step))
    else if Settling(step) then AfterSettling(s, step.task, NextStage(s, step), Succeeds(step))
    else
      match step
      case Issue(r) => AfterAsk(s, r)
      case ModuleFails(i) =>
        var t := s.tasks[i];
        var outcome := Outcome(StorageKey(t.request, t.lookup), false);
        WithTask(s, i, Done).(cache := SetPromise(s.cache, t.lookup.promise, outcome))
      case SpawnBackup(i) => s.(tasks := s.tasks[i := Backed(s.tasks[i].key)] + [Backup(s.tasks[i].key)])
      case Write(i, present) => AfterWrite(s, i, present)
      case OtherWrites(key, present) => WithFile(s, key, present)
      case SetModes(allow, cacheOnly) => s.(cache := s.cache.(allow := allow, cacheOnly := cacheOnly))
      case EvictBegin => s.(evictions := s.evictions + [Some(s.cache.executables.Keys)])
      case EvictRound(e) =>
        var (cache, left) := Scan(s.cache, s.evictions[e].value);
        s.(cache := cache, evictions := s.evictions[e := Some(left)])
      case EvictEnd(e) => s.(cache := s.cache.(bounded := map[]), evictions := s.evictions[e := None])
  }

  /** The steps can be taken one after the other from `s`. */
  ghost predicate CanRun(s: State, steps: seq<Step>)
    decreases |steps|, 0
  {
    steps == [] || (CanRun(s, steps[..|steps| - 1]) && Enabled(Reached(s, steps[..|steps| - 1]), steps[|steps| - 1]))
  }

  ghost function Reached(s: State, steps: seq<Step>): State
    requires CanRun(s, steps)
    decreases |steps|, 1
  {
    if steps == [] then s else After(Reached(s, steps[..|steps| - 1]), steps[|steps| - 1])
  }

  lemma NextStep(s: State, steps: seq<Step>, a: Step)
    requires CanRun(s, steps) && Enabled(Reached(s, steps), a)
    ensures CanRun(s, steps + [a]) && Reached(s, steps + [a]) == After(Reached(s, steps), a)
  {
    assert (steps + [a])[..|steps|] == steps;
  }

  lemma OneStep(s: State, a: Step)
    requires Enabled(s, a)
    ensures CanRun(s, [a]) && Reached(s, [a]) == After(s, a)
  {
    assert [a][..0] == [];
    assert CanRun(s, []);
  }

  /** A run of two steps, taken one after the other. */
  lemma TwoSteps(s: State, a: Step, b: Step)
    requires Enabled(s, a) && Enabled(After(s, a), b)
    ensures CanRun(s, [a]) && Reached(s, [a]) == After(s, a)
    ensures CanRun(s, [a, b]) && Reached(s, [a, b]) == After(After(s, a), b)
  {
    OneStep(s, a);
    assert [a, b][..1] == [a];
  }

  /** Two runs, one after the other. */
  lemma {:induction false} Joined(s: State, a: seq<Step>, b: seq<Step>)
    requires CanRun(s, a) && CanRun(Reached(s, a), b)
    ensures CanRun(s, a + b) && Reached(s, a + b) == Reached(Reached(s, a), b)
    decreases |b|
  {
    hide Enabled, After;
    if b == [] {
      assert a + b == a;
    } else {
      var front := b[..|b| - 1];
      Joined(s, a, front);
      NextStep(s, a + front, b[|b| - 1]);
      assert a + b == a + front + [b[|b| - 1]];
    }
  }

  // ---------- Who will set a promise ----------

  ghost predicate Owns(t: Task, p: nat, key: CacheKey) {
    match t
    case Caller(_, lookup) => lookup.promise == p
    case Queued(k) => k == key
    case Compiling(k) => k == key
    case Checking(k) => k == key
    case AwaitingLock(k) => k == key
    case Rechecking(k) => k == key
    case Building(k) => k == key
    case Backup(k) => k == key
    case BackupCompiling(k) => k == key
    case _ => false
  }

  /** The task will set the promise, or has abandoned it. */
  ghost predicate Accounts(t: Task, p: nat, key: CacheKey) {
    Owns(t, p, key) || (t.Abandoned? && t.lookup.promise == p)
  }

  ghost predicate Unset(c: Cache, p: nat) {
    p < |c.promises| && c.promises[p].outcome.None?
  }

  ghost predicate InMap(c: Cache, p: nat)
    requires p < |c.promises|
  {
    c.promises[p].key in c.executables && c.executables[c.promises[p].key] == p
  }

  ghost predicate Accounted(s: State, p: nat)
    requires p < |s.cache.promises|
  {
    exists i :: 0 <= i < |s.tasks| && Accounts(s.tasks[i], p, s.cache.promises[p].key)
  }

  /** An unset promise is still in the map, and a task accounts for it. */
  ghost predicate Cared(s: State, p: nat)
    requires p < |s.cache.promises|
  {
    InMap(s.cache, p) && Accounted(s, p)
  }

  ghost predicate NoOrphans(s: State) {
    forall p: nat :: Unset(s.cache, p) ==> Cared(s, p)
  }

  /** A caller knows the promise under the key for which it will compile. */
  ghost predicate CallerInv(c: Cache, t: Task) {
    t.Caller? ==> t.lookup.promise < |c.promises| && c.promises[t.lookup.promise].key == StorageKey(t.request, t.lookup)
  }

  ghost predicate CallersInv(s: State) {
    forall i :: 0 <= i < |s.tasks| ==> CallerInv(s.cache, s.tasks[i])
  }

  ghost predicate OwnResult(promise: Promise) {
    promise.outcome.Some? ==> promise.outcome.value.key == promise.key
  }

  ghost predicate OwnResults(c: Cache) {
    forall p :: 0 <= p < |c.promises| ==> OwnResult(c.promises[p])
  }

  ghost predicate Inv(s: State) {
    && KeysInv(s.cache) && EntriesInv(s.cache) && Conserved(s.cache)
    && CallersInv(s) && OwnResults(s.cache) && NoOrphans(s)
  }

  // ---------- Each kind of step keeps the invariant ----------

  /** What a request that needs compilation adds to the cache, and that no other one adds anything. */
  ghost predicate Grows(c: Cache, d: Cache, answer: Answer) {
    if answer.Found? && answer.lookup.needsCompilation then
      exists key ::
        && key !in c.executables && d.executables == c.executables[key := |c.promises|]
        && d.promises == c.promises + [Promise(key, None)] && answer.lookup.promise == |c.promises|
    else d.executables == c.executables && d.promises == c.promises
  }

  lemma AskGrows(c: Cache, r: Request)
    ensures Ask(c, r).1 != Crash ==> Grows(c, Ask(c, r).0, Ask(c, r).1)
  {
    hide Ask, MiddleKey;
    AskByRoute(c, r);
  }

  lemma AskKeepsOwners(s: State, r: Request)
    requires Inv(s) && !s.crashed && WellFormed(r)
    ensures NoOrphans(AfterAsk(s, r))
  {
    hide Ask, EntriesInv, Conserved, CallersInv, OwnResults;
    AskGrows(s.cache, r);
    var s' := AfterAsk(s, r);
    forall p: nat | Unset(s'.cache, p)
      ensures Cared(s', p)
    {
      if p < |s.cache.promises| {
        assert Unset(s.cache, p) && Cared(s, p);
        var i :| 0 <= i < |s.tasks| && Accounts(s.tasks[i], p, s.cache.promises[p].key);
        assert s'.tasks[i] == s.tasks[i] && s'.cache.promises[p] == s.cache.promises[p];
      } else {
        assert Accounts(s'.tasks[|s.tasks|], p, s'.cache.promises[p].key);
      }
    }
  }

  lemma AskKeepsCallers(s: State, r: Request)
    requires Inv(s) && !s.crashed && WellFormed(r)
    ensures CallersInv(AfterAsk(s, r)) && OwnResults(AfterAsk(s, r).cache)
  {
    hide Ask, EntriesInv, Conserved, NoOrphans, KeysInv, StorageKey;
    AskGrows(s.cache, r);
    StorageKeyIsKeyOfPromise(s.cache, r);
    var s' := AfterAsk(s, r);
    forall i | 0 <= i < |s'.tasks|
      ensures CallerInv(s'.cache, s'.tasks[i])
    {
      assert i < |s.tasks| ==> CallerInv(s.cache, s.tasks[i]);
    }
  }

  lemma AskKeeps(s: State, r: Request)
    requires Inv(s) && !s.crashed && WellFormed(r)
    ensures Inv(AfterAsk(s, r))
  {
    hide Ask, EntriesInv, Conserved, NoOrphans, KeysInv, CallersInv, OwnResults;
    AskKeepsKeys(s.cache, r);
    AskKeepsEntries(s.cache, r);
    AskConserves(s.cache, r);
    AskKeepsOwners(s, r);
    AskKeepsCallers(s, r);
  }

  /** The step changes the cache at most by setting promises and dropping keys with set promises, and
      every owner of a promise that is still unset stays an owner. */
  ghost predicate Settles(s: State, s': State) {
    var c, d := s.cache, s'.cache;
    && |d.promises| == |c.promises|
    && (forall p :: 0 <= p < |c.promises| ==>
          d.promises[p].key == c.promises[p].key && (c.promises[p].outcome.Some? ==> d.promises[p] == c.promises[p]))
    && (forall k :: k in d.executables ==> k in c.executables && d.executables[k] == c.executables[k])
    && (forall k :: k in c.executables && Unset(d, c.executables[k]) ==> k in d.executables)
  }

  ghost predicate KeepsOwners(s: State, s': State) {
    forall p: nat :: Unset(s'.cache, p) && p < |s.cache.promises| && Cared(s, p) ==> Accounted(s', p)
  }

  ghost predicate SameCounters(c: Cache, d: Cache) {
    d.requests == c.requests && d.hits == c.hits && d.inserted == c.inserted && d.refused == c.refused
  }

  lemma SettlesKeeps(s: State, s': State)
    requires Inv(s) && Settles(s, s') && KeepsOwners(s, s') && SameCounters(s.cache, s'.cache)
    requires s'.cache.bounded == s.cache.bounded || s'.cache.bounded == map[]
    requires CallersInv(s') && OwnResults(s'.cache)
    ensures Inv(s')
  {
    hide EntryInv, CallersInv, OwnResults, Accounted;
    forall p: nat | Unset(s'.cache, p)
      ensures Cared(s', p)
    {
      assert Unset(s.cache, p) && Cared(s, p);
    }
  }

  /** Only one task changes, and only promises are set. */
  lemma CallersStay(s: State, s': State, i: nat, t: Task)
    requires CallersInv(s) && |s'.cache.promises| == |s.cache.promises| && i < |s.tasks|
    requires forall p :: 0 <= p < |s.cache.promises| ==> s'.cache.promises[p].key == s.cache.promises[p].key
    requires s.tasks[i := t] <= s'.tasks && !t.Caller?
    requires forall j :: |s.tasks| <= j < |s'.tasks| ==> !s'.tasks[j].Caller?
    ensures CallersInv(s')
  {
    forall j | 0 <= j < |s'.tasks|
      ensures CallerInv(s'.cache, s'.tasks[j])
    {
      if j < |s.tasks| {
        assert s'.tasks[j] == s.tasks[i := t][j];
        assert CallerInv(s.cache, s.tasks[j]);
      }
    }
  }

  /** The promise is unset, and the task accounts for it. */
  ghost predicate AccountsFor(s: State, i: nat, p: nat) {
    && i < |s.tasks| && Unset(s.cache, p) && InMap(s.cache, p)
    && Accounts(s.tasks[i], p, s.cache.promises[p].key)
  }

  /** A task that changes without touching the cache keeps its promise, or has none that is unset. */
  lemma TaskKeeps(s: State, i: nat, t: Task, s': State)
    requires Inv(s) && i < |s.tasks| && s'.cache == s.cache && !t.Caller?
    requires s.tasks[i := t] <= s'.tasks && forall j :: |s.tasks| <= j < |s'.tasks| ==> !s'.tasks[j].Caller?
    requires forall p: nat :: AccountsFor(s, i, p) ==> Accounted(s', p)
    ensures Inv(s')
  {
    hide KeysInv, EntriesInv, Conserved, CallersInv, OwnResults, CallerInv;
    CallersStay(s, s', i, t);
    forall p: nat | Unset(s'.cache, p) && p < |s.cache.promises| && Cared(s, p)
      ensures Accounted(s', p)
    {
      var j :| 0 <= j < |s.tasks| && Accounts(s.tasks[j], p, s.cache.promises[p].key);
      assert j != i ==> s'.tasks[j] == s.tasks[j];
    }
    SettlesKeeps(s, s');
  }

  /** The task that goes on remains an owner, or its promise is set. */
  lemma MoveKeepsOwner(s: State, step: Step, p: nat)
    requires Inv(s) && Enabled(s, step) && Moving(step) && step.task < |s.tasks|
    requires Unset(s.cache, p) && InMap(s.cache, p) && Accounts(s.tasks[step.task], p, s.cache.promises[p].key)
    ensures Accounts(NextStage(s, step), p, s.cache.promises[p].key)
  {
    hide KeysInv, EntriesInv, Conserved, OwnResults, NoOrphans, StorageKey;
    assert CallerInv(s.cache, s.tasks[step.task]);
  }

  lemma MoveKeeps(s: State, step: Step)
    requires Inv(s) && Enabled(s, step) && Moving(step)
    ensures Inv(After(s, step))
  {
    hide Enabled, NextStage, Inv, Accounts;
    var i, s' := step.task, After(s, step);
    MovesOneTask(s, step);
    forall p: nat | AccountsFor(s, i, p)
      ensures Accounted(s', p)
    {
      MoveKeepsOwner(s, step, p);
      assert Accounts(s'.tasks[i], p, s'.cache.promises[p].key);
    }
    TaskKeeps(s, i, s'.tasks[i], s');
  }

  lemma MovesOneTask(s: State, step: Step)
    requires Enabled(s, step) && (Moving(step) || Settling(step))
    ensures step.task < |s.tasks| && !NextStage(s, step).Caller?
    ensures Settling(step) ==> Owns(s.tasks[step.task], 0, s.tasks[step.task].key) || s.tasks[step.task].Backed?
  {
  }

  lemma SpawnBackupKeeps(s: State, i: nat)
    requires Inv(s) && Enabled(s, SpawnBackup(i))
    ensures Inv(After(s, SpawnBackup(i)))
  {
    hide KeysInv, EntriesInv, Conserved, OwnResults, NoOrphans, CallersInv;
    var s' := After(s, SpawnBackup(i));
    forall p: nat | AccountsFor(s, i, p)
      ensures Accounted(s', p)
    {
      assert Accounts(s'.tasks[|s.tasks|], p, s'.cache.promises[p].key);
    }
    assert s'.tasks == s.tasks[i := s'.tasks[i]] + [Backup(s.tasks[i].key)];
    TaskKeeps(s, i, s'.tasks[i], s');
  }

  /** A task that waits for its result owns no promise. */
  lemma WriteKeeps(s: State, i: nat, present: bool)
    requires Inv(s) && Enabled(s, Write(i, present))
    ensures Inv(After(s, Write(i, present)))
  {
    hide KeysInv, EntriesInv, Conserved, OwnResults, NoOrphans, CallersInv;
    TaskKeeps(s, i, Done, After(s, Write(i, present)));
  }

  lemma ModuleFailsKeeps(s: State, i: nat)
    requires Inv(s) && Enabled(s, ModuleFails(i))
    ensures Inv(After(s, ModuleFails(i)))
  {
    hide KeysInv, EntriesInv, Conserved, NoOrphans, StorageKey;
    var s' := After(s, ModuleFails(i));
    var q := s.tasks[i].lookup.promise;
    assert CallerInv(s.cache, s.tasks[i]);
    CallersStay(s, s', i, Done);
    forall p: nat | Unset(s'.cache, p) && p < |s.cache.promises| && Cared(s, p)
      ensures Accounted(s', p)
    {
      assert p != q;
      var j :| 0 <= j < |s.tasks| && Accounts(s.tasks[j], p, s.cache.promises[p].key);
      assert s'.tasks[j] == s.tasks[j];
    }
    forall p | 0 <= p < |s'.cache.promises|
      ensures OwnResult(s'.cache.promises[p])
    {
      assert OwnResult(s.cache.promises[p]);
    }
    SettlesKeeps(s, s');
  }

  lemma SettlingKeeps(s: State, step: Step)
    requires Inv(s) && Enabled(s, step) && Settling(step)
    ensures Inv(After(s, step))
  {
    hide EntriesInv, Conserved, NoOrphans, StorageKey, OwnResults, CallersInv, Settle, Settles, NextStage, KeysInv,
      WellFormed;
    MovesOneTask(s, step);
    var i := step.task;
    var s', key, ok := After(s, step), s.tasks[i].key, Succeeds(step);
    SettleSettles(s, s', key, ok);
    CallersStay(s, s', i, NextStage(s, step));
    forall p: nat | Unset(s'.cache, p) && p < |s.cache.promises| && Cared(s, p)
      ensures Accounted(s', p)
    {
      var j :| 0 <= j < |s.tasks| && Accounts(s.tasks[j], p, s.cache.promises[p].key);
      assert s'.tasks[j] == s.tasks[j];
    }
    SettleKeepsResults(s.cache, key, ok);
    SettlesKeeps(s, s');
  }

  /** Promises stay, are set at most once, and keys only leave the map. */
  ghost predicate Shrinks(c: Cache, d: Cache) {
    && |d.promises| == |c.promises| && SameCounters(c, d)
    && (forall p :: 0 <= p < |c.promises| ==>
          d.promises[p].key == c.promises[p].key && (c.promises[p].outcome.Some? ==> d.promises[p] == c.promises[p]))
    && (forall k :: k in d.executables ==> k in c.executables && d.executables[k] == c.executables[k])
  }

  lemma SettleShrinks(c: Cache, key: CacheKey, outcome: Outcome)
    ensures Shrinks(c, Settle(c, key, outcome)) && Settle(c, key, outcome).bounded == c.bounded
  {
  }

  lemma SettleSetsOwn(c: Cache, key: CacheKey, outcome: Outcome)
    requires KeysInv(c)
    ensures forall p: nat :: Unset(Settle(c, key, outcome), p) && InMap(c, p) ==> c.promises[p].key != key
    ensures forall k :: k in c.executables && Unset(Settle(c, key, outcome), c.executables[k]) ==>
      k in Settle(c, key, outcome).executables
  {
  }

  /** After a key is settled its promise is set, and nothing else has changed but for that key. */
  lemma SettleSettles(s: State, s': State, key: CacheKey, ok: bool)
    requires KeysInv(s.cache) && s'.cache == Settle(s.cache, key, Outcome(key, ok))
    ensures Settles(s, s') && SameCounters(s.cache, s'.cache) && s'.cache.bounded == s.cache.bounded
    ensures |s'.cache.promises| == |s.cache.promises|
    ensures forall p :: 0 <= p < |s.cache.promises| ==> s'.cache.promises[p].key == s.cache.promises[p].key
    ensures forall p: nat :: Unset(s'.cache, p) && InMap(s.cache, p) ==> s.cache.promises[p].key != key
  {
    hide Settle, KeysInv, InMap;
    SettleShrinks(s.cache, key, Outcome(key, ok));
    SettleSetsOwn(s.cache, key, Outcome(key, ok));
  }

  /** What all steps other than requests have in common. */
  lemma StepShrinks(s: State, step: Step)
    requires Enabled(s, step) && !step.Issue?
    ensures Shrinks(s.cache, After(s, step).cache)
  {
    hide Settle, WellFormed, StorageKey, NextStage;
    if Settling(step) {
      MovesOneTask(s, step);
      var key := s.tasks[step.task].key;
      SettleShrinks(s.cache, key, Outcome(key, Succeeds(step)));
    }
  }

  /** Only evictions change the second index, and only the end of one. */
  lemma StepBounded(s: State, step: Step)
    requires Enabled(s, step) && !step.Issue?
    ensures After(s, step).cache.bounded == if step.EvictEnd? then map[] else s.cache.bounded
  {
    hide Settle, WellFormed, StorageKey, NextStage;
    if Settling(step) {
      MovesOneTask(s, step);
      var key := s.tasks[step.task].key;
      SettleShrinks(s.cache, key, Outcome(key, Succeeds(step)));
    } else if step.EvictRound? {
      ScanOnlyExecutables(s.cache, s.evictions[step.eviction].value);
    }
  }

  lemma StepEvictions(s: State, step: Step)
    requires Enabled(s, step) && !step.EvictBegin? && !step.EvictRound? && !step.EvictEnd?
    ensures After(s, step).evictions == s.evictions
  {
    hide Ask, Settle, WellFormed, StorageKey, NextStage;
  }

  lemma SettleKeepsResults(c: Cache, key: CacheKey, ok: bool)
    requires KeysInv(c) && OwnResults(c)
    ensures OwnResults(Settle(c, key, Outcome(key, ok)))
  {
    var d := Settle(c, key, Outcome(key, ok));
    forall p | 0 <= p < |d.promises|
      ensures OwnResult(d.promises[p])
    {
      assert OwnResult(c.promises[p]);
    }
  }

  /** Other processes, mode switches and evictions. */
  predicate IsOther(step: Step) {
    step.OtherWrites? || step.SetModes? || step.EvictBegin? || step.EvictRound? || step.EvictEnd?
  }

  lemma OthersSettle(s: State, step: Step)
    requires Enabled(s, step) && IsOther(step)
    ensures Settles(s, After(s, step)) && After(s, step).tasks == s.tasks
    ensures After(s, step).cache.promises == s.cache.promises && SameCounters(s.cache, After(s, step).cache)
  {
    hide WellFormed, StorageKey, Free;
  }

  lemma OthersKeep(s: State, step: Step)
    requires Inv(s) && Enabled(s, step) && IsOther(step)
    ensures Inv(After(s, step))
  {
    hide EntriesInv, Conserved, NoOrphans, StorageKey, OwnResults, Settles, Enabled, After, KeysInv, SameCounters;
    var s' := After(s, step);
    OthersSettle(s, step);
    StepBounded(s, step);
    forall j | 0 <= j < |s'.tasks|
      ensures CallerInv(s'.cache, s'.tasks[j])
    {
      assert CallerInv(s.cache, s.tasks[j]);
    }
    forall p: nat | Unset(s'.cache, p) && p < |s.cache.promises| && Cared(s, p)
      ensures Accounted(s', p)
    {
      var j :| 0 <= j < |s.tasks| && Accounts(s.tasks[j], p, s.cache.promises[p].key);
      assert s'.tasks[j] == s.tasks[j];
    }
    SamePromises(s.cache, s'.cache);
    SettlesKeeps(s, s');
  }

  lemma SamePromises(c: Cache, d: Cache)
    requires OwnResults(c) && d.promises == c.promises
    ensures OwnResults(d)
  {
  }

  lemma StepKeeps(s: State, step: Step)
    requires Inv(s) && Enabled(s, step)
    ensures Inv(After(s, step))
  {
    hide Inv, Ask;
    if Moving(step) {
      MoveKeeps(s, step);
    } else if Settling(step) {
      SettlingKeeps(s, step);
    } else {
      match step
      case Issue(r) => AskKeeps(s, r);
      case ModuleFails(i) => ModuleFailsKeeps(s, i);
      case SpawnBackup(i) => SpawnBackupKeeps(s, i);
      case Write(i, present) => WriteKeeps(s, i, present);
      case _ => OthersKeep(s, step);
    }
  }

  // ---------- The tier-2 lock ----------

  /** At most one task is inside the critical section of a key. */
  ghost predicate LockInv(s: State) {
    forall i, j, key :: 0 <= i < |s.tasks| && 0 <= j < |s.tasks| && Holds(s.tasks[i], key) && Holds(s.tasks[j], key) ==>
      i == j
  }

  ghost predicate WaitInv(c: Cache, t: Task) {
    t.Waiting? ==> t.promise < |c.promises| && c.promises[t.promise].key == t.key
  }

  /** A task that waits for a promise waits for one of its own key. */
  ghost predicate WaitsInv(s: State) {
    forall i :: 0 <= i < |s.tasks| ==> WaitInv(s.cache, s.tasks[i])
  }

  ghost predicate Sound(s: State) {
    Inv(s) && LockInv(s) && WaitsInv(s)
  }

  /** Task i becomes t, and tasks that are added hold no lock. */
  ghost predicate OneChanged(s: State, s': State, i: nat, t: Task) {
    && i < |s.tasks| <= |s'.tasks| && s'.tasks[..|s.tasks|] == s.tasks[i := t]
    && forall j :: |s.tasks| <= j < |s'.tasks| ==> s'.tasks[j].Caller? || s'.tasks[j].Backup?
  }

  lemma OneChangedAt(s: State, s': State, i: nat, t: Task, j: nat)
    requires OneChanged(s, s', i, t) && j < |s'.tasks|
    ensures j < |s.tasks| ==> s'.tasks[j] == s.tasks[i := t][j]
    ensures j >= |s.tasks| ==> s'.tasks[j].Caller? || s'.tasks[j].Backup?
  {
    if j < |s.tasks| {
      assert s'.tasks[j] == s'.tasks[..|s.tasks|][j];
    }
  }

  lemma OneChangedKeepsLocks(s: State, s': State, i: nat, t: Task)
    requires LockInv(s) && OneChanged(s, s', i, t)
    requires forall key :: Holds(t, key) ==> Holds(s.tasks[i], key) || Free(s, key)
    ensures LockInv(s')
  {
    hide OneChanged;
    forall a, b, key | 0 <= a < |s'.tasks| && 0 <= b < |s'.tasks| && Holds(s'.tasks[a], key) && Holds(s'.tasks[b], key)
      ensures a == b
    {
      OneChangedAt(s, s', i, t, a);
      OneChangedAt(s, s', i, t, b);
    }
  }

  lemma OneChangedKeepsWaits(s: State, s': State, i: nat, t: Task)
    requires WaitsInv(s) && OnlySets(s.cache, s'.cache) && OneChanged(s, s', i, t) && WaitInv(s.cache, t)
    ensures WaitsInv(s')
  {
    hide OneChanged;
    forall j | 0 <= j < |s'.tasks|
      ensures WaitInv(s'.cache, s'.tasks[j])
    {
      OneChangedAt(s, s', i, t, j);
      assert j < |s.tasks| ==> WaitInv(s.cache, s.tasks[j]);
    }
  }

  /** Which task a step changes, if it changes one. */
  ghost function ChangedTo(s: State, step: Step): Task
    requires Enabled(s, step) && ChangesTask(step)
  {
    if step.SpawnBackup? then Backed(s.tasks[step.task].key)
    else if step.ModuleFails? || step.Write? then Done
    else NextStage(s, step)
  }

  predicate ChangesTask(step: Step) {
    Moving(step) || Settling(step) || step.SpawnBackup? || step.ModuleFails? || step.Write?
  }

  lemma ChangesOneTask(s: State, step: Step)
    requires Enabled(s, step) && ChangesTask(step)
    ensures step.task < |s.tasks| && OneChanged(s, After(s, step), step.task, ChangedTo(s, step))
  {
    hide NextStage, Settle, SetPromise, StorageKey, WellFormed;
    MovedTasks(s, step);
  }

  lemma MovedTasks(s: State, step: Step)
    requires Enabled(s, step) && ChangesTask(step)
    ensures After(s, step).tasks == s.tasks[step.task := ChangedTo(s, step)]
      + (if step.SpawnBackup? then [Backup(s.tasks[step.task].key)] else [])
  {
    hide NextStage, Settle, SetPromise, StorageKey, WellFormed;
  }

  /** Other steps leave the tasks as they are, but for a new caller. */
  lemma OtherTasks(s: State, step: Step)
    requires Enabled(s, step) && !ChangesTask(step)
    ensures s.tasks <= After(s, step).tasks
    ensures forall j :: |s.tasks| <= j < |After(s, step).tasks| ==> After(s, step).tasks[j].Caller?
    ensures !step.Issue? ==> After(s, step).tasks == s.tasks
  {
    hide Ask;
  }

  lemma EntersFree(s: State, step: Step, key: CacheKey)
    requires Enabled(s, step) && ChangesTask(step) && Holds(ChangedTo(s, step), key)
    ensures Holds(s.tasks[step.task], key) || Free(s, key)
  {
    hide StorageKey, WellFormed, Free;
  }

  lemma WaitsForOwnKey(s: State, step: Step)
    requires KeysInv(s.cache) && Enabled(s, step) && ChangesTask(step)
    ensures WaitInv(s.cache, ChangedTo(s, step))
  {
    hide StorageKey, WellFormed;
  }

  lemma StepKeepsLockAndWaits(s: State, step: Step)
    requires Sound(s) && Enabled(s, step)
    ensures LockInv(After(s, step)) && WaitsInv(After(s, step))
  {
    hide Enabled, After, Inv, OneChanged, ChangedTo, Holds, Free, WaitInv, OnlySets;
    var s' := After(s, step);
    StepOnlySets(s, step);
    if ChangesTask(step) {
      ChangesOneTask(s, step);
      forall key | Holds(ChangedTo(s, step), key)
        ensures Holds(s.tasks[step.task], key) || Free(s, key)
      {
        EntersFree(s, step, key);
      }
      OneChangedKeepsLocks(s, s', step.task, ChangedTo(s, step));
      assert KeysInv(s.cache) by { SoundKeys(s); }
      WaitsForOwnKey(s, step);
      OneChangedKeepsWaits(s, s', step.task, ChangedTo(s, step));
    } else {
      OtherTasks(s, step);
      MoreCallersKeep(s, s');
    }
  }

  lemma SoundKeys(s: State)
    requires Inv(s)
    ensures KeysInv(s.cache)
  {
  }

  lemma MoreCallersKeep(s: State, s': State)
    requires LockInv(s) && WaitsInv(s) && OnlySets(s.cache, s'.cache)
    requires s.tasks <= s'.tasks && forall j :: |s.tasks| <= j < |s'.tasks| ==> s'.tasks[j].Caller?
    ensures LockInv(s') && WaitsInv(s')
  {
    forall j | 0 <= j < |s'.tasks|
      ensures WaitInv(s'.cache, s'.tasks[j])
    {
      assert j < |s.tasks| ==> WaitInv(s.cache, s.tasks[j]);
    }
  }

  /** Who is inside the critical section of a key stays there through building, backup tasks and tier 3. The
      lock is given up by loading the file after all, by finding no entry any more, or when the promise
      that was found there is set. */
  lemma LockGivenUp(s: State, step: Step, key: CacheKey, i: nat)
    requires Enabled(s, step) && i < |s.tasks| && Holds(s.tasks[i], key)
    ensures i < |After(s, step).tasks|
    ensures !Holds(After(s, step).tasks[i], key) ==>
      || (step == Load(i) && key in s.files)
      || (step == Look(i) && key !in s.cache.executables)
      || (step.Write? && step.task == i && s.tasks[i].Waiting? && IsSet(s.cache, s.tasks[i].promise))
  {
    hide Enabled, After, Holds;
    if ChangesTask(step) {
      ChangesOneTask(s, step);
      MovedTasks(s, step);
      if step.task == i {
        LockGivenUpByOwner(s, step, key);
      }
    } else {
      OtherTasks(s, step);
    }
  }

  lemma LockGivenUpByOwner(s: State, step: Step, key: CacheKey)
    requires Enabled(s, step) && ChangesTask(step) && step.task < |s.tasks| && Holds(s.tasks[step.task], key)
    ensures !Holds(ChangedTo(s, step), key) ==>
      || (step.Load? && key in s.files)
      || (step.Look? && key !in s.cache.executables)
      || (step.Write? && s.tasks[step.task].Waiting? && IsSet(s.cache, s.tasks[step.task].promise))
  {
    hide StorageKey, WellFormed, Free;
  }

  lemma StepKeepsSound(s: State, step: Step)
    requires Sound(s) && Enabled(s, step)
    ensures Sound(After(s, step))
  {
    hide Inv, LockInv, WaitsInv, Enabled, After;
    StepKeeps(s, step);
    StepKeepsLockAndWaits(s, step);
  }

  lemma {:induction false} RunKeepsSound(s: State, steps: seq<Step>)
    requires Sound(s) && CanRun(s, steps)
    ensures Sound(Reached(s, steps))
  {
    hide Sound, Enabled, After;
    if steps == [] {
    } else {
      RunKeepsSound(s, steps[..|steps| - 1]);
      StepKeepsSound(Reached(s, steps[..|steps| - 1]), steps[|steps| - 1]);
    }
  }

  // ---------- Runs ----------

  lemma {:induction false} RunKeeps(s: State, steps: seq<Step>)
    requires Inv(s) && CanRun(s, steps)
    ensures Inv(Reached(s, steps))
  {
    hide Inv, Enabled, After;
    if steps == [] {
    } else {
      RunKeeps(s, steps[..|steps| - 1]);
      StepKeeps(Reached(s, steps[..|steps| - 1]), steps[|steps| - 1]);
    }
  }

  lemma StartIsSound(s: State)
    requires IsStart(s)
    ensures Inv(s) && SafeInv(s) && NoneAbandoned(s) && Sound(s)
  {
    hide KeysInv, EntriesInv, Conserved, CallersInv, OwnResults, NoOrphans, CoverInv, EvictionsInv, NoneAbandoned;
    StartKeys(s);
    StartEntries(s);
    StartTasks(s);
  }

  lemma StartKeys(s: State)
    requires IsStart(s)
    ensures KeysInv(s.cache) && CoverInv(s.cache) && !s.crashed
  {
  }

  lemma StartEntries(s: State)
    requires IsStart(s)
    ensures EntriesInv(s.cache) && Conserved(s.cache) && OwnResults(s.cache)
  {
    hide EntriesInv, Conserved, OwnResults;
    NoEntriesSound(s.cache);
    NothingCounted(s.cache);
    NoPromisesSound(s.cache);
  }

  lemma NoEntriesSound(c: Cache)
    requires c.bounded == map[]
    ensures EntriesInv(c)
  {
    hide EntryInv;
  }

  lemma NothingCounted(c: Cache)
    requires c == FRESH
    ensures Conserved(c)
  {
  }

  lemma NoPromisesSound(c: Cache)
    requires c.promises == []
    ensures OwnResults(c)
  {
    hide OwnResult;
  }

  lemma StartTasks(s: State)
    requires IsStart(s)
    ensures CallersInv(s) && NoOrphans(s) && EvictionsInv(s) && NoneAbandoned(s)
  {
  }

  ghost predicate HasOwner(s: State, p: nat)
    requires p < |s.cache.promises|
  {
    exists i :: 0 <= i < |s.tasks| && Owns(s.tasks[i], p, s.cache.promises[p].key)
  }

  ghost predicate NoneAbandoned(s: State) {
    forall i :: 0 <= i < |s.tasks| ==> !s.tasks[i].Abandoned?
  }

  lemma NoneAbandonedStep(s: State, step: Step)
    requires NoneAbandoned(s) && Enabled(s, step) && !step.AdapterFails?
    ensures NoneAbandoned(After(s, step))
  {
    hide Ask, SetPromise, Settle, Scan, StorageKey, WellFormed;
    if Moving(step) || Settling(step) {
      assert !NextStage(s, step).Abandoned?;
    }
  }

  lemma {:induction false} NoneAbandonedInRun(s: State, steps: seq<Step>)
    requires NoneAbandoned(s) && CanRun(s, steps) && forall k :: 0 <= k < |steps| ==> !steps[k].AdapterFails?
    ensures NoneAbandoned(Reached(s, steps))
  {
    hide Enabled, After, NoneAbandoned;
    if steps == [] {
    } else {
      NoneAbandonedInRun(s, steps[..|steps| - 1]);
      NoneAbandonedStep(Reached(s, steps[..|steps| - 1]), steps[|steps| - 1]);
    }
  }

  lemma OwnerWithoutAbandonment(s: State, p: nat)
    requires NoOrphans(s) && NoneAbandoned(s) && Unset(s.cache, p)
    ensures InMap(s.cache, p) && HasOwner(s, p)
  {
    assert Cared(s, p);
    var i :| 0 <= i < |s.tasks| && Accounts(s.tasks[i], p, s.cache.promises[p].key);
    assert Owns(s.tasks[i], p, s.cache.promises[p].key);
  }

  /** In every run in which no adapter creation fails, an unset promise is still in the map under its key
      and has an owner: its caller, a queued or running task, or a backup task. */
  lemma UnsetPromisesHaveOwners(s: State, steps: seq<Step>, p: nat)
    requires IsStart(s) && CanRun(s, steps) && forall k :: 0 <= k < |steps| ==> !steps[k].AdapterFails?
    requires Unset(Reached(s, steps).cache, p)
    ensures InMap(Reached(s, steps).cache, p) && HasOwner(Reached(s, steps), p)
  {
    hide CanRun, Reached, IsStart, NoneAbandoned;
    StartIsSound(s);
    RunKeeps(s, steps);
    NoneAbandonedInRun(s, steps);
    OwnerWithoutAbandonment(Reached(s, steps), p);
  }

  /** Once all callers and tasks are done, every promise is set, with a result for its own key. */
  lemma QuietMeansSet(s: State, steps: seq<Step>, p: nat)
    requires IsStart(s) && CanRun(s, steps) && forall k :: 0 <= k < |steps| ==> !steps[k].AdapterFails?
    requires p < |Reached(s, steps).cache.promises|
    requires forall i :: 0 <= i < |Reached(s, steps).tasks| ==> Reached(s, steps).tasks[i] == Done
    ensures var promise := Reached(s, steps).cache.promises[p];
      promise.outcome.Some? && promise.outcome.value.key == promise.key
  {
    hide CanRun, Reached, IsStart, NoneAbandoned;
    if Unset(Reached(s, steps).cache, p) {
      UnsetPromisesHaveOwners(s, steps, p);
    }
    StartIsSound(s);
    RunKeeps(s, steps);
    assert OwnResult(Reached(s, steps).cache.promises[p]);
  }

  /** Misses, which the program counts as requests without hits, are the entries that were made, each
      with its own promise, and the refusals. */
  lemma RunConserves(s: State, steps: seq<Step>)
    requires IsStart(s) && CanRun(s, steps)
    ensures var c := Reached(s, steps).cache; c.requests - c.hits == |c.promises| + c.refused >= 0
  {
    hide CanRun, Reached, IsStart, NoneAbandoned;
    StartIsSound(s);
    RunKeeps(s, steps);
  }

  // ---------- Promises are set once ----------

  ghost predicate OnlySets(c: Cache, d: Cache) {
    && |c.promises| <= |d.promises|
    && forall p :: 0 <= p < |c.promises| ==>
         d.promises[p].key == c.promises[p].key && (c.promises[p].outcome.Some? ==> d.promises[p] == c.promises[p])
  }

  lemma IssueAfter(s: State, step: Step)
    requires Enabled(s, step) && step.Issue?
    ensures WellFormed(step.request) && !s.crashed && After(s, step) == AfterAsk(s, step.request)
  {
  }

  lemma StepOnlySets(s: State, step: Step)
    requires Enabled(s, step)
    ensures OnlySets(s.cache, After(s, step).cache)
  {
    hide Ask, Enabled, After;
    if step.Issue? {
      IssueAfter(s, step);
      AskGrows(s.cache, step.request);
    } else {
      StepShrinks(s, step);
    }
  }

  /** However a run goes on, the promises stay, and each is set at most once. */
  lemma {:induction false} RunOnlySets(s: State, steps: seq<Step>)
    requires CanRun(s, steps)
    ensures OnlySets(s.cache, Reached(s, steps).cache)
  {
    hide Enabled, After;
    if steps == [] {
    } else {
      RunOnlySets(s, steps[..|steps| - 1]);
      StepOnlySets(Reached(s, steps[..|steps| - 1]), steps[|steps| - 1]);
    }
  }

  // ---------- Cache-only mode ----------

  ghost predicate CachedOnly(s: State) {
    s.cache.allow && s.cache.cacheOnly
  }

  ghost predicate StaysCachedOnly(s: State, steps: seq<Step>)
    requires CanRun(s, steps)
  {
    if steps == [] then CachedOnly(s)
    else StaysCachedOnly(s, steps[..|steps| - 1]) && CachedOnly(Reached(s, steps))
  }

  ghost predicate IsCallerTask(t: Task) {
    t.Caller?
  }

  /** Every caller of the later state was one of the earlier state. */
  ghost predicate NoNewCallers(s: State, s': State) {
    forall i :: 0 <= i < |s'.tasks| && IsCallerTask(s'.tasks[i]) ==> i < |s.tasks| && s.tasks[i] == s'.tasks[i]
  }

  lemma CachedOnlyAsk(s: State, r: Request)
    requires !s.crashed && CachedOnly(s)
    ensures var s' := AfterAsk(s, r);
      s'.cache.inserted == s.cache.inserted && |s'.cache.promises| == |s.cache.promises| && s'.tasks == s.tasks
  {
    hide Ask;
    CacheOnlyInserts(s.cache, r);
    AskByRoute(s.cache, r);
  }

  lemma CachedOnlyStep(s: State, step: Step)
    requires Enabled(s, step) && CachedOnly(s)
    ensures After(s, step).cache.inserted == s.cache.inserted && |After(s, step).cache.promises| == |s.cache.promises|
    ensures NoNewCallers(s, After(s, step))
  {
    hide Enabled, After, ChangedTo, AfterAsk;
    if step.Issue? {
      IssueAfter(s, step);
      CachedOnlyAsk(s, step.request);
    } else {
      StepShrinks(s, step);
      if ChangesTask(step) {
        ChangesOneTask(s, step);
        MovedTasks(s, step);
        ChangedIsNoCaller(s, step);
      } else {
        OtherTasks(s, step);
      }
    }
  }

  lemma ChangedIsNoCaller(s: State, step: Step)
    requires Enabled(s, step) && ChangesTask(step)
    ensures !ChangedTo(s, step).Caller?
  {
    hide WellFormed, StorageKey;
  }

  /** While caching is enabled and only cached executables may be used, no request makes an entry or has
      anything compiled, dynamic requests and those of adapters included. */
  lemma {:induction false} CachedOnlyRun(s: State, steps: seq<Step>)
    requires CanRun(s, steps) && StaysCachedOnly(s, steps)
    ensures var s' := Reached(s, steps);
      s'.cache.inserted == s.cache.inserted && |s'.cache.promises| == |s.cache.promises| && NoNewCallers(s, s')
  {
    hide Enabled, After;
    if steps == [] {
    } else {
      var before := steps[..|steps| - 1];
      CachedOnlyRun(s, before);
      assert CachedOnly(Reached(s, before)) by {
        if before != [] {
          assert StaysCachedOnly(s, before);
        }
      }
      CachedOnlyStep(Reached(s, before), steps[|steps| - 1]);
    }
  }

  // ---------- The check that a new key is not in the cache yet ----------

  ghost predicate Quiet(s: State) {
    forall e :: 0 <= e < |s.evictions| ==> s.evictions[e].None?
  }

  /** Requests have sizes within their own bounds and are not admitted during an eviction. */
  ghost predicate Admitted(s: State, step: Step) {
    step.Issue? ==> SelfFits(step.request) && Quiet(s)
  }

  ghost predicate AllAdmitted(s: State, steps: seq<Step>)
    requires CanRun(s, steps)
  {
    steps == [] || (AllAdmitted(s, steps[..|steps| - 1]) &&
      Admitted(Reached(s, steps[..|steps| - 1]), steps[|steps| - 1]))
  }

  /** A running eviction has all keys of the cache on its list. */
  ghost predicate EvictionsInv(s: State) {
    forall e: nat, key :: Evicting(s, e) && key in s.cache.executables ==> key in s.evictions[e].value
  }

  ghost predicate SafeInv(s: State) {
    CoverInv(s.cache) && EvictionsInv(s) && !s.crashed
  }

  lemma AdmittedAskKeepsSafe(s: State, r: Request)
    requires Inv(s) && SafeInv(s) && WellFormed(r) && SelfFits(r) && Quiet(s)
    ensures SafeInv(AfterAsk(s, r))
  {
    hide Ask, CoverInv, Conserved, NoOrphans, CallersInv, OwnResults, KeysInv, EntriesInv, WellFormed, SelfFits;
    SelfFittingNeverCrashes(s.cache, r);
    AskKeepsCover(s.cache, r);
  }

  /** An eviction ends only when its list, and with it the map, is empty. */
  lemma EndedMeansEmpty(s: State, e: nat)
    requires EvictionsInv(s) && Enabled(s, EvictEnd(e))
    ensures s.cache.executables == map[]
  {
    forall key
      ensures key !in s.cache.executables
    {
      assert Evicting(s, e);
    }
  }

  lemma StepKeepsCover(s: State, step: Step)
    requires Inv(s) && SafeInv(s) && Enabled(s, step) && !step.Issue?
    ensures CoverInv(After(s, step).cache)
  {
    hide EntriesInv, CoverInv, CallersInv, NoOrphans, Conserved, OwnResults, EvictionsInv, Enabled, After, KeysInv;
    var d := After(s, step).cache;
    StepShrinks(s, step);
    StepBounded(s, step);
    if step.EvictEnd? {
      EndedMeansEmpty(s, step.eviction);
      assert d.executables == map[];
      NoKeysCovered(d);
    } else {
      FewerKeys(s.cache, d);
    }
  }

  lemma StepKeepsLists(s: State, step: Step)
    requires EvictionsInv(s) && Enabled(s, step) && !step.Issue?
    ensures EvictionsInv(After(s, step)) && !After(s, step).crashed
  {
    hide WellFormed, StorageKey, NextStage, Settle, Shrinks;
    var s' := After(s, step);
    StepShrinks(s, step);
    forall e: nat, key | Evicting(s', e) && key in s'.cache.executables
      ensures key in s'.evictions[e].value
    {
      assert key in s.cache.executables by { ShrinksKey(s.cache, s'.cache, key); }
      assert e < |s.evictions| ==> Evicting(s, e);
    }
  }

  lemma ShrinksKey(c: Cache, d: Cache, key: CacheKey)
    requires Shrinks(c, d) && key in d.executables
    ensures key in c.executables
  {
  }

  lemma FewerKeysStaySafe(s: State, step: Step)
    requires Inv(s) && SafeInv(s) && Enabled(s, step) && !step.Issue?
    ensures SafeInv(After(s, step))
  {
    hide Inv, Enabled, After, CoverInv, EvictionsInv;
    StepKeepsCover(s, step);
    StepKeepsLists(s, step);
  }

  lemma NoKeysCovered(c: Cache)
    requires c.executables == map[]
    ensures CoverInv(c)
  {
  }

  lemma {:induction false} AdmittedRunIsSafe(s: State, steps: seq<Step>)
    requires Inv(s) && SafeInv(s) && CanRun(s, steps) && AllAdmitted(s, steps)
    ensures SafeInv(Reached(s, steps))
  {
    hide Inv, SafeInv, Enabled;
    if steps == [] {
    } else {
      var before, step := Reached(s, steps[..|steps| - 1]), steps[|steps| - 1];
      AdmittedRunIsSafe(s, steps[..|steps| - 1]);
      RunKeeps(s, steps[..|steps| - 1]);
      if step.Issue? {
        IssueAfter(before, step);
        AdmittedAskKeepsSafe(before, step.request);
      } else {
        FewerKeysStaySafe(before, step);
      }
    }
  }

  /** If every size lies within its own bounds and no request is admitted during an eviction, no run
      reaches the check that fails when a new key is in the cache already. */
  lemma AdmittedRunsNeverCrash(s: State, steps: seq<Step>)
    requires IsStart(s) && CanRun(s, steps) && AllAdmitted(s, steps)
    ensures !Reached(s, steps).crashed
  {
    hide CanRun, Reached, AllAdmitted, IsStart;
    StartIsSound(s);
    AdmittedRunIsSafe(s, steps);
  }

  ghost predicate MadeOfMarked(r: Request) {
    forall i :: 0 <= i < |r.inputs| ==> Dynamism.MadeByMarks(r.inputs[i])
  }

  /** Requests are made of marked tensors and are not admitted during an eviction. */
  ghost predicate MarkedAndAdmitted(s: State, step: Step) {
    step.Issue? ==> MadeOfMarked(step.request) && Quiet(s)
  }

  ghost predicate AllMarked(s: State, steps: seq<Step>)
    requires CanRun(s, steps)
  {
    steps == [] || (AllMarked(s, steps[..|steps| - 1]) &&
      MarkedAndAdmitted(Reached(s, steps[..|steps| - 1]), steps[|steps| - 1]))
  }

  lemma MarkedRequestsFit(r: Request)
    requires MadeOfMarked(r)
    ensures SelfFits(r)
  {
    forall i | 0 <= i < |r.inputs|
      ensures Dynamism.SelfCompatible(r.inputs[i])
    {
      Dynamism.MarkedTensorsFit(r.inputs[i]);
    }
    Dynamism.OwnBounds(r.inputs);
  }

  lemma {:induction false} MarkedRunIsAdmitted(s: State, steps: seq<Step>)
    requires CanRun(s, steps) && AllMarked(s, steps)
    ensures AllAdmitted(s, steps)
  {
    hide Enabled, After, MadeOfMarked, SelfFits;
    if steps == [] {
    } else {
      MarkedRunIsAdmitted(s, steps[..|steps| - 1]);
      if steps[|steps| - 1].Issue? {
        MarkedRequestsFit(steps[|steps| - 1].request);
      }
    }
  }

  /** For requests made of marked tensors one condition is left: if none is admitted during an eviction,
      no run reaches the failed check. */
  lemma MarkedRunsNeverCrash(s: State, steps: seq<Step>)
    requires IsStart(s) && CanRun(s, steps) && AllMarked(s, steps)
    ensures !Reached(s, steps).crashed
  {
    hide CanRun, Reached, AllMarked, AllAdmitted, IsStart;
    MarkedRunIsAdmitted(s, steps);
    AdmittedRunsNeverCrash(s, steps);
  }

  ghost predicate Evicted(s: State, r: Request) {
    && !s.crashed && s.cache.allow && !s.cache.cacheOnly && s.cache.bounded == map[]
    && MiddleKey(r.shapeless, r.options, OwnMetadata(r)) in s.cache.executables && KeyOf(r) !in s.cache.executables
  }

  /** What the first annotated request does to an empty cache. */
  lemma FirstRequest(c: Cache, r: Request)
    requires c == FRESH && Annotates(r.inputs)
    ensures var key, (d, answer) := MiddleKey(r.shapeless, r.options, OwnMetadata(r)), Ask(c, r);
      && d.executables == map[key := 0] && d.promises == [Promise(key, None)] && d.allow && !d.cacheOnly
      && answer == Found(Lookup(0, Some(OwnMetadata(r)), true))
  {
    hide Ask, MiddleKey, Annotates;
    AskByRoute(c, r);
    assert RouteOf(c, r) == NewBounded;
  }

  lemma EvictedRequestCrashes(s: State, r: Request)
    requires Evicted(s, r) && Annotates(r.inputs)
    ensures AfterAsk(s, r).crashed
  {
    hide Ask, MiddleKey;
    AskByRoute(s.cache, r);
    assert FirstFit([], r.options, r.inputs, 0) == None;
  }

  lemma EvictionOfNothing(s: State)
    requires IsStart(s)
    ensures var u := After(s, EvictBegin);
      Enabled(s, EvictBegin) && !u.crashed && u.cache == FRESH && u.evictions == [Some({})]
  {
    assert s.cache.executables.Keys == {};
  }

  lemma RequestDuringEviction(s: State, r: Request)
    requires IsStart(s) && WellFormed(r) && Annotates(r.inputs)
    ensures var t := After(After(s, EvictBegin), Issue(r));
      Enabled(t, EvictEnd(0)) && Evicted(After(t, EvictEnd(0)), r)
  {
    hide Ask, MiddleKey, WellFormed, Annotates, KeyOf, IsStart;
    EvictionOfNothing(s);
    FirstRequest(After(s, EvictBegin).cache, r);
    OwnKeyIsNotStatic(r);
  }

  /** The second condition is needed too: whatever its sizes, an annotated request admitted during an
      eviction and repeated after it runs into the failed check. */
  lemma RequestsDuringEvictionsCrash(s: State, r: Request)
    requires IsStart(s) && WellFormed(r) && Annotates(r.inputs)
    ensures var steps := [EvictBegin, Issue(r), EvictEnd(0), Issue(r)]; CanRun(s, steps) && Reached(s, steps).crashed
  {
    hide Ask, WellFormed, Annotates, Evicted, AfterAsk, CanRun, Reached, IsStart;
    EvictionOfNothing(s);
    TwoSteps(s, EvictBegin, Issue(r));
    RequestDuringEviction(s, r);
    NextStep(s, [EvictBegin, Issue(r)], EvictEnd(0));
    assert [EvictBegin, Issue(r)] + [EvictEnd(0)] == [EvictBegin, Issue(r), EvictEnd(0)];
    var t := Reached(s, [EvictBegin, Issue(r), EvictEnd(0)]);
    EvictedRequestCrashes(t, r);
    assert !t.crashed by { EvictedRuns(t, r); }
    NextStep(s, [EvictBegin, Issue(r), EvictEnd(0)], Issue(r));
    assert [EvictBegin, Issue(r), EvictEnd(0)] + [Issue(r)] == [EvictBegin, Issue(r), EvictEnd(0), Issue(r)];
  }

  lemma EvictedRuns(s: State, r: Request)
    requires Evicted(s, r)
    ensures !s.crashed
  {
  }
}
