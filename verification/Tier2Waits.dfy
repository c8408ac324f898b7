/** Waiting under the tier-2 lock: a task that has compiled looks its entry up again, and waits for the
    promise that it finds there while it still holds the lock of the key. */
module Tier2Waits {
  import opened Prelude
  import opened Fingerprints
  import opened CompilationCaches
  import opened CacheRuns
  import opened CacheProgress

  // ---------- When such a wait can end ----------

  /** A worker on the key that may set its promise although the lock is taken: a caller or a task that has
      not begun, one that compiles without tier 2, a backup task, or one that finds the file. */
  ghost predicate CanRelease(t: Task, key: CacheKey, files: set<CacheKey>) {
    match t
    case Caller(request, lookup) => StorageKey(request, lookup) == key
    case Queued(k) => k == key
    case Compiling(k) => k == key
    case Checking(k) => k == key && key in files
    case Backup(k) => k == key
    case BackupCompiling(k) => k == key
    case _ => false
  }

  ghost predicate HasRelease(s: State, key: CacheKey) {
    exists j :: 0 <= j < |s.tasks| && CanRelease(s.tasks[j], key, s.files)
  }

  lemma ReleaseIffNeedsNoLock(s: State, key: CacheKey, i: nat, j: nat)
    requires LockInv(s) && i < |s.tasks| && j < |s.tasks| && s.tasks[i].Waiting? && s.tasks[i].key == key
    ensures NeedsNoLock(s.tasks[j], key, s.files) <==> CanRelease(s.tasks[j], key, s.files)
  {
    hide StorageKey;
    assert Holds(s.tasks[i], key);
    if Holds(s.tasks[j], key) {
      assert i == j;
    }
  }

  lemma WaitIsStuck(s: State, i: nat)
    requires Sound(s) && i < |s.tasks| && s.tasks[i].Waiting? && Unset(s.cache, s.tasks[i].promise)
    ensures var p, key := s.tasks[i].promise, s.tasks[i].key;
      s.cache.promises[p].key == key && InMap(s.cache, p) && LockStuck(s, key, p)
  {
    hide Inv, LockInv, InMap;
    assert WaitInv(s.cache, s.tasks[i]);
    UnsetIsInMap(s, s.tasks[i].promise);
    HolderMakesStuck(s, s.tasks[i].key, s.tasks[i].promise, i);
  }

  lemma LostIffNoRelease(s: State, i: nat)
    requires Sound(s) && i < |s.tasks| && s.tasks[i].Waiting? && Unset(s.cache, s.tasks[i].promise)
    ensures Lost(s, s.tasks[i].promise) <==> !HasRelease(s, s.tasks[i].key)
  {
    hide Inv, WaitsInv, LockInv, InMap, LockStuck, NeedsNoLock, CanRelease;
    var key := s.tasks[i].key;
    WaitIsStuck(s, i);
    forall j | 0 <= j < |s.tasks|
      ensures NeedsNoLock(s.tasks[j], key, s.files) <==> CanRelease(s.tasks[j], key, s.files)
      ensures NeedsNoLock(s.tasks[j], key, s.files) ==> WorksOn(s.tasks[j]) == Some(key)
    {
      ReleaseIffNeedsNoLock(s, key, i, j);
      NeedsNoLockWorks(s.tasks[j], key, s.files);
    }
  }

  lemma NeedsNoLockWorks(t: Task, key: CacheKey, files: set<CacheKey>)
    ensures NeedsNoLock(t, key, files) ==> WorksOn(t) == Some(key)
  {
  }

  /** A task that waits under the lock for a promise that is not set can still see it set, within seven
      steps, if and only if some worker on the key needs no lock. */
  lemma WaitEndsIff(s: State, i: nat)
    requires Sound(s) && !s.crashed && i < |s.tasks| && s.tasks[i].Waiting? && Unset(s.cache, s.tasks[i].promise)
    ensures (exists steps :: SetBy(s, steps, s.tasks[i].promise)) <==> HasRelease(s, s.tasks[i].key)
    ensures (exists steps :: |steps| <= 7 && SetBy(s, steps, s.tasks[i].promise)) <==> HasRelease(s, s.tasks[i].key)
  {
    hide Sound, Lost, HasRelease, SetBy;
    CanBeSetIffNotLost(s, s.tasks[i].promise);
    LostIffNoRelease(s, i);
  }

  /** Otherwise it waits, and holds the lock, in every continuation. */
  lemma {:induction false} WaitsForEver(s: State, steps: seq<Step>, i: nat)
    requires Sound(s) && CanRun(s, steps) && i < |s.tasks| && s.tasks[i].Waiting?
    requires Unset(s.cache, s.tasks[i].promise) && !HasRelease(s, s.tasks[i].key)
    ensures i < |Reached(s, steps).tasks| && Reached(s, steps).tasks[i] == s.tasks[i]
    ensures Lost(Reached(s, steps), s.tasks[i].promise)
  {
    hide Inv, LockInv, WaitsInv, Enabled, After, Lost, HasRelease, InMap;
    LostIffNoRelease(s, i);
    if steps == [] {
    } else {
      var before, step, t := Reached(s, steps[..|steps| - 1]), steps[|steps| - 1], s.tasks[i];
      WaitsForEver(s, steps[..|steps| - 1], i);
      LostStays(s, steps, t.promise);
      RunKeepsSound(s, steps[..|steps| - 1]);
      LostIsUnset(before, t.promise);
      WaitIsStuck(before, i);
      WaitStays(before, step, i);
    }
  }

  lemma WaitStays(s: State, step: Step, i: nat)
    requires Enabled(s, step) && i < |s.tasks| && s.tasks[i].Waiting? && Unset(s.cache, s.tasks[i].promise)
    ensures i < |After(s, step).tasks| && After(s, step).tasks[i] == s.tasks[i]
  {
    hide After, Enabled;
    if ChangesTask(step) {
      ChangesOneTask(s, step);
      OneChangedAt(s, After(s, step), step.task, ChangedTo(s, step), i);
      WaiterCannotStep(s, step, i);
    } else {
      OtherTasks(s, step);
    }
  }

  lemma WaiterCannotStep(s: State, step: Step, i: nat)
    requires Enabled(s, step) && i < |s.tasks| && s.tasks[i].Waiting? && Unset(s.cache, s.tasks[i].promise)
    requires ChangesTask(step)
    ensures step.task != i
  {
  }

  // ---------- Runs in which no entry leaves the cache ----------

  /** Nothing is evicted, and caching stays on. */
  ghost predicate KeepsEntries(step: Step) {
    !step.EvictRound? && (step.SetModes? ==> step.allow)
  }

  predicate IsBackup(t: Task, key: CacheKey) {
    (t.Backup? || t.BackupCompiling?) && t.key == key
  }

  ghost predicate HasBackup(s: State, key: CacheKey) {
    exists j :: 0 <= j < |s.tasks| && IsBackup(s.tasks[j], key)
  }

  /** A task that has left the queue has an entry; one that will look it up has set its promise, or has
      left a backup task that will. */
  ghost predicate TaskKept(s: State, t: Task) {
    !t.Caller? && !t.Abandoned? && !t.Done? ==>
      && t.key in s.cache.executables
      && (t.Backed? || t.Looking? || t.Waiting? ==> Ready(s.cache, t.key) || HasBackup(s, t.key))
  }

  ghost predicate TasksKept(s: State) {
    forall i :: 0 <= i < |s.tasks| ==> TaskKept(s, s.tasks[i])
  }

  ghost predicate AllInMap(c: Cache) {
    forall p: nat :: p < |c.promises| ==> InMap(c, p)
  }

  ghost predicate Kept(s: State) {
    s.cache.allow && AllInMap(s.cache) && TasksKept(s)
  }

  /** Entries stay, and promises that are set stay set. */
  ghost predicate KeepsCache(c: Cache, d: Cache) {
    && OnlySets(c, d)
    && forall k :: k in c.executables ==> k in d.executables && d.executables[k] == c.executables[k]
  }

  lemma StepKeepsCache(s: State, step: Step)
    requires Enabled(s, step) && KeepsEntries(step) && s.cache.allow
    ensures KeepsCache(s.cache, After(s, step).cache) && After(s, step).cache.allow
    ensures !step.Issue? ==> |After(s, step).cache.promises| == |s.cache.promises|
  {
    hide Ask, WellFormed, StorageKey, NextStage, Settle;
    StepOnlySets(s, step);
    if step.Issue? {
      AskGrows(s.cache, step.request);
      AskKeepsModes(s.cache, step.request);
    } else {
      StepShrinks(s, step);
      if Settling(step) {
        MovesOneTask(s, step);
        SettleKeepsEntries(s.cache, s.tasks[step.task].key, Outcome(s.tasks[step.task].key, Succeeds(step)));
      }
    }
  }

  lemma AskKeepsModes(c: Cache, r: Request)
    ensures Ask(c, r).1 != Crash ==> Ask(c, r).0.allow == c.allow && Ask(c, r).0.cacheOnly == c.cacheOnly
  {
    hide Ask, MiddleKey;
    AskByRoute(c, r);
  }

  lemma SettleKeepsEntries(c: Cache, key: CacheKey, outcome: Outcome)
    requires c.allow
    ensures Settle(c, key, outcome).executables == c.executables && Settle(c, key, outcome).allow
  {
  }

  lemma ReadyStays(c: Cache, d: Cache, key: CacheKey)
    requires KeysInv(c) && KeepsCache(c, d) && key in c.executables && Ready(c, key)
    ensures key in d.executables && Ready(d, key)
  {
    assert c.executables[key] < |c.promises|;
  }

  lemma AskKeepsMap(s: State, r: Request)
    requires AllInMap(s.cache) && KeysInv(s.cache) && !s.crashed
    ensures AllInMap(AfterAsk(s, r).cache)
  {
    hide Ask;
    AskGrows(s.cache, r);
    var d := AfterAsk(s, r).cache;
    forall p: nat | p < |d.promises|
      ensures InMap(d, p)
    {
      assert p < |s.cache.promises| ==> InMap(s.cache, p);
    }
  }

  lemma StepKeepsMap(s: State, step: Step)
    requires Inv(s) && Enabled(s, step) && KeepsEntries(step) && s.cache.allow && AllInMap(s.cache)
    ensures AllInMap(After(s, step).cache)
  {
    hide Inv, Enabled, After, KeysInv;
    SoundKeys(s);
    if step.Issue? {
      IssueAfter(s, step);
      AskKeepsMap(s, step.request);
    } else {
      StepKeepsCache(s, step);
      var d := After(s, step).cache;
      forall p: nat | p < |d.promises|
        ensures InMap(d, p)
      {
        assert InMap(s.cache, p);
      }
    }
  }

  /** A backup task stays until its key is ready. */
  lemma BackupStays(s: State, step: Step, key: CacheKey)
    requires Inv(s) && Enabled(s, step) && KeepsEntries(step) && s.cache.allow && key in s.cache.executables
    requires HasBackup(s, key)
    ensures HasBackup(After(s, step), key) || Ready(After(s, step).cache, key)
  {
    hide Inv, Enabled, After, IsBackup, Ready;
    var s' := After(s, step);
    var j :| 0 <= j < |s.tasks| && IsBackup(s.tasks[j], key);
    if ChangesTask(step) && step.task == j {
      ChangesOneTask(s, step);
      MovedTasks(s, step);
      BackupMoves(s, step, key);
      if IsBackup(ChangedTo(s, step), key) {
        BackupThere(s', key, j);
      }
    } else {
      SameTask(s, step, j);
      BackupThere(s', key, j);
    }
  }

  lemma BackupThere(s: State, key: CacheKey, j: nat)
    requires j < |s.tasks| && IsBackup(s.tasks[j], key)
    ensures HasBackup(s, key)
  {
  }

  lemma BackupMoves(s: State, step: Step, key: CacheKey)
    requires Inv(s) && Enabled(s, step) && ChangesTask(step) && step.task < |s.tasks|
    requires IsBackup(s.tasks[step.task], key)
    requires s.cache.allow && key in s.cache.executables
    ensures IsBackup(ChangedTo(s, step), key) || Ready(After(s, step).cache, key)
  {
    hide Inv, StorageKey, WellFormed, Settle, KeysInv, Ready, Free;
    SoundKeys(s);
    if step.Compile? {
      SettlesKey(s, step);
      SettledIsReady(s.cache, key, Outcome(key, step.ok));
    } else {
      CacheUntouched(s, step);
    }
  }

  lemma SettledIsReady(c: Cache, key: CacheKey, outcome: Outcome)
    requires KeysInv(c) && c.allow && key in c.executables
    ensures Ready(Settle(c, key, outcome), key)
  {
  }

  /** The task that changes: what it needs for its new stage. */
  lemma ChangedKept(s: State, step: Step)
    requires Sound(s) && Kept(s) && Enabled(s, step) && KeepsEntries(step) && ChangesTask(step)
    ensures TaskKept(After(s, step), ChangedTo(s, step))
  {
    hide Inv, LockInv, WaitsInv, AllInMap, Enabled, After, HasBackup, ChangedTo;
    var s', t := After(s, step), ChangedTo(s, step);
    StepKeepsCache(s, step);
    ChangesOneTask(s, step);
    assert TaskKept(s, s.tasks[step.task]);
    ChangedHasKey(s, step);
    if t.Backed? || t.Looking? || t.Waiting? {
      LookerKept(s, step);
    }
  }

  lemma ChangedHasKey(s: State, step: Step)
    requires Sound(s) && Kept(s) && Enabled(s, step) && KeepsEntries(step) && ChangesTask(step) && step.task < |s.tasks|
    ensures var t := ChangedTo(s, step);
      !t.Caller? && (!t.Abandoned? && !t.Done? ==> t.key in s.cache.executables)
  {
    hide EntriesInv, Conserved, OwnResults, NoOrphans, StorageKey, WellFormed, HasBackup, LockInv, WaitsInv;
    assert TaskKept(s, s.tasks[step.task]) && CallerInv(s.cache, s.tasks[step.task]);
    assert s.tasks[step.task].Caller? ==> InMap(s.cache, s.tasks[step.task].lookup.promise);
  }

  lemma LookerKept(s: State, step: Step)
    requires Sound(s) && Kept(s) && Enabled(s, step) && KeepsEntries(step) && ChangesTask(step)
    requires var t := ChangedTo(s, step); (t.Backed? || t.Looking? || t.Waiting?) && t.key in s.cache.executables
    ensures Ready(After(s, step).cache, ChangedTo(s, step).key) || HasBackup(After(s, step), ChangedTo(s, step).key)
  {
    hide Inv, LockInv, WaitsInv, AllInMap, Enabled, After, HasBackup, ChangedTo, Ready, KeysInv;
    ChangesOneTask(s, step);
    var before, key := s.tasks[step.task], ChangedTo(s, step).key;
    assert TaskKept(s, before);
    LookerCame(s, step);
    SoundKeys(s);
    StepKeepsCache(s, step);
    if step.SpawnBackup? {
      SpawnedBackup(s, step);
    } else if before.Building? {
      BuiltIsReady(s, step);
    } else if Ready(s.cache, key) {
      ReadyStays(s.cache, After(s, step).cache, key);
    } else {
      BackupStays(s, step, key);
    }
  }

  lemma LookerCame(s: State, step: Step)
    requires Enabled(s, step) && ChangesTask(step) && step.task < |s.tasks|
    requires var t := ChangedTo(s, step); t.Backed? || t.Looking? || t.Waiting?
    ensures var t := s.tasks[step.task];
      && (t.Building? || t.Backed? || t.Looking?) && t.key == ChangedTo(s, step).key
      && (t.Building? ==> step.SpawnBackup? || step.Build?)
  {
    hide StorageKey, WellFormed;
  }

  lemma SpawnedBackup(s: State, step: Step)
    requires Enabled(s, step) && step.SpawnBackup?
    ensures HasBackup(After(s, step), ChangedTo(s, step).key)
  {
    var s' := After(s, step);
    assert IsBackup(s'.tasks[|s.tasks|], ChangedTo(s, step).key);
  }

  lemma BuiltIsReady(s: State, step: Step)
    requires KeysInv(s.cache) && Enabled(s, step) && step.Build? && s.cache.allow
    requires s.tasks[step.task].key in s.cache.executables
    ensures Ready(After(s, step).cache, ChangedTo(s, step).key)
  {
  }

  lemma OthersKept(s: State, step: Step, t: Task)
    requires Sound(s) && Kept(s) && Enabled(s, step) && KeepsEntries(step) && TaskKept(s, t)
    ensures TaskKept(After(s, step), t)
  {
    hide Inv, LockInv, WaitsInv, AllInMap, Enabled, After, HasBackup, Ready, KeysInv;
    SoundKeys(s);
    StepKeepsCache(s, step);
    if t.Backed? || t.Looking? || t.Waiting? {
      if Ready(s.cache, t.key) {
        ReadyStays(s.cache, After(s, step).cache, t.key);
      } else {
        BackupStays(s, step, t.key);
      }
    }
  }

  lemma NewTaskKept(s: State, step: Step, i: nat)
    requires Sound(s) && Kept(s) && Enabled(s, step) && KeepsEntries(step)
    requires |s.tasks| <= i < |After(s, step).tasks|
    ensures TaskKept(After(s, step), After(s, step).tasks[i])
  {
    hide Inv, LockInv, WaitsInv, AllInMap, Enabled, After, HasBackup, Ready, KeysInv, ChangedTo;
    StepKeepsCache(s, step);
    if ChangesTask(step) {
      ChangesOneTask(s, step);
      MovedTasks(s, step);
      assert TaskKept(s, s.tasks[step.task]);
      SpawnerHasKey(s, step);
    } else {
      OtherTasks(s, step);
    }
  }

  lemma SpawnerHasKey(s: State, step: Step)
    requires Enabled(s, step) && step.SpawnBackup?
    ensures step.task < |s.tasks| && s.tasks[step.task].Building?
  {
  }

  lemma StepKeepsKept(s: State, step: Step)
    requires Sound(s) && Kept(s) && Enabled(s, step) && KeepsEntries(step)
    ensures Kept(After(s, step))
  {
    hide Sound, AllInMap, Enabled, After, TaskKept, ChangedTo;
    var s' := After(s, step);
    assert Inv(s) by { SoundInv(s); }
    StepKeepsCache(s, step);
    StepKeepsMap(s, step);
    forall i | 0 <= i < |s'.tasks|
      ensures TaskKept(s', s'.tasks[i])
    {
      if i >= |s.tasks| {
        NewTaskKept(s, step, i);
      } else if ChangesTask(step) && step.task == i {
        MovedTasks(s, step);
        ChangedKept(s, step);
      } else {
        assert s'.tasks[i] == s.tasks[i] by { SameTask(s, step, i); }
        OthersKept(s, step, s.tasks[i]);
      }
    }
  }

  lemma SoundInv(s: State)
    requires Sound(s)
    ensures Inv(s)
  {
  }

  lemma SameTask(s: State, step: Step, i: nat)
    requires Enabled(s, step) && i < |s.tasks| && !(ChangesTask(step) && step.task == i)
    ensures i < |After(s, step).tasks| && After(s, step).tasks[i] == s.tasks[i]
  {
    hide After, Enabled;
    if ChangesTask(step) {
      ChangesOneTask(s, step);
      MovedTasks(s, step);
    } else {
      OtherTasks(s, step);
    }
  }

  lemma {:induction false} KeptInRun(s: State, steps: seq<Step>)
    requires IsStart(s) && CanRun(s, steps) && forall k :: 0 <= k < |steps| ==> KeepsEntries(steps[k])
    ensures Kept(Reached(s, steps))
  {
    hide Sound, Enabled, After, AllInMap, TaskKept, KeepsEntries;
    if steps == [] {
      StartIsKept(s);
    } else {
      var front := steps[..|steps| - 1];
      KeptInRun(s, front);
      StartIsSound(s);
      RunKeepsSound(s, front);
      StepKeepsKept(Reached(s, front), steps[|steps| - 1]);
    }
  }

  lemma StartIsKept(s: State)
    requires IsStart(s)
    ensures s.cache.allow && AllInMap(s.cache) && TasksKept(s)
  {
  }

  /** While no entry leaves the cache, no promise is blocked by the lock. */
  lemma KeptIsNotBlocked(s: State, p: nat)
    requires Kept(s)
    ensures !Blocked(s, p)
  {
    hide AllInMap, WorksOn, LockStuck, NeedsNoLock;
    if Blocked(s, p) {
      var key := s.cache.promises[p].key;
      var h := StuckHolder(s, key, p);
      assert TaskKept(s, s.tasks[h]);
      var j :| 0 <= j < |s.tasks| && IsBackup(s.tasks[j], key);
      BackupNeedsNoLock(s.tasks[j], key, s.files);
    }
  }

  lemma OwnedIsNotDead(s: State, p: nat)
    requires Sound(s) && Unset(s.cache, p) && HasOwner(s, p)
    ensures !Dead(s, p)
  {
    hide Sound, WorksOn;
    var key := s.cache.promises[p].key;
    var i :| 0 <= i < |s.tasks| && Owns(s.tasks[i], p, key);
    assert CallerInv(s.cache, s.tasks[i]) by { SoundCaller(s, i); }
    assert WorksOn(s.tasks[i]) == Some(key) by { OwnersWork(s, p, i); }
  }

  lemma BackupNeedsNoLock(t: Task, key: CacheKey, files: set<CacheKey>)
    requires IsBackup(t, key)
    ensures NeedsNoLock(t, key, files)
  {
  }

  lemma OwnersWork(s: State, p: nat, i: nat)
    requires i < |s.tasks| && CallerInv(s.cache, s.tasks[i]) && p < |s.cache.promises|
    requires Owns(s.tasks[i], p, s.cache.promises[p].key)
    ensures WorksOn(s.tasks[i]) == Some(s.cache.promises[p].key)
  {
    hide StorageKey;
  }

  /** As long as nothing is evicted and caching stays on, no promise is blocked: no task waits under the
      lock for one that waits for the lock. If no adapter fails either, every promise can be set. */
  lemma NoDeadlockWithoutEviction(s: State, steps: seq<Step>, p: nat)
    requires IsStart(s) && CanRun(s, steps) && forall k :: 0 <= k < |steps| ==> KeepsEntries(steps[k])
    ensures !Blocked(Reached(s, steps), p)
    ensures (forall k :: 0 <= k < |steps| ==> !steps[k].AdapterFails?) && Unset(Reached(s, steps).cache, p) ==>
      !Lost(Reached(s, steps), p)
  {
    hide Sound, Kept, Blocked, Dead, CanRun, Reached, HasOwner, IsStart, Inv, SafeInv, NoneAbandoned, Unset, InMap;
    hide KeepsEntries;
    KeptInRun(s, steps);
    KeptIsNotBlocked(Reached(s, steps), p);
    if (forall k :: 0 <= k < |steps| ==> !steps[k].AdapterFails?) && Unset(Reached(s, steps).cache, p) {
      StartIsSound(s);
      RunKeepsSound(s, steps);
      UnsetPromisesHaveOwners(s, steps, p);
      OwnedIsNotDead(Reached(s, steps), p);
    }
  }

  // ---------- Two runs that end in a deadlock ----------

  /** All that the runs below need to know of a state, for one request without annotations. */
  datatype Shape = Shape(allow: bool, entry: Option<nat>, done: seq<bool>, tasks: seq<Task>)

  ghost predicate PromiseAt(promise: Promise, r: Request, done: bool) {
    promise.key == KeyOf(r) && (promise.outcome.Some? <==> done)
  }

  ghost predicate At(s: State, r: Request, shape: Shape) {
    && !s.crashed && s.tier2 && s.cache.allow == shape.allow && !s.cache.cacheOnly && s.cache.bounded == map[]
    && s.cache.executables == (if shape.entry.Some? then map[KeyOf(r) := shape.entry.value] else map[])
    && |s.cache.promises| == |shape.done|
    && (forall p :: 0 <= p < |shape.done| ==> PromiseAt(s.cache.promises[p], r, shape.done[p]))
    && s.tasks == shape.tasks
  }

  lemma IssueAt(s: State, r: Request, shape: Shape)
    requires At(s, r, shape) && shape.allow && shape.entry == None && WellFormed(r) && !Annotates(r.inputs)
    ensures Enabled(s, Issue(r)) && After(s, Issue(r)).evictions == s.evictions
    ensures var p := |shape.done|;
      At(After(s, Issue(r)), r,
        Shape(true, Some(p), shape.done + [false], shape.tasks + [Caller(r, Lookup(p, None, true))]))
  {
    hide Ask, WellFormed, Annotates, KeyOf;
    AskByRoute(s.cache, r);
    assert RouteOf(s.cache, r) == NewStatic by { NewRoute(s.cache, r); }
  }

  lemma NewRoute(c: Cache, r: Request)
    requires c.allow && !c.cacheOnly && c.bounded == map[] && c.executables == map[] && !Annotates(r.inputs)
    ensures RouteOf(c, r) == NewStatic
  {
    assert Entries(c, r.shapeless) == [];
  }

  lemma MoveAt(s: State, r: Request, shape: Shape, step: Step, t: Task)
    requires At(s, r, shape) && Enabled(s, step) && Moving(step) && NextStage(s, step) == t
    ensures step.task < |shape.tasks| && After(s, step).evictions == s.evictions
    ensures At(After(s, step), r, shape.(tasks := shape.tasks[step.task := t]))
  {
    hide WellFormed, NextStage, StorageKey, KeyOf;
    MovesOneTask(s, step);
  }

  /** The first task gets the lock and misses the file twice. */
  function ToBuilding(r: Request): seq<Step> {
    [Issue(r), Enqueue(0), Begin(0), Miss(0), Acquire(0), Miss(0)]
  }

  /** Its key is asked for again, and the new task misses the file too. */
  function AskedAgain(r: Request): seq<Step> {
    [Issue(r), Enqueue(1), Begin(1), Look(0), Miss(1)]
  }

  /** The entry is evicted after the task has set its promise and before it looks it up. */
  function Evicted(r: Request): seq<Step> {
    ToBuilding(r) + [Build(0, true), EvictBegin, EvictRound(0)] + AskedAgain(r)
  }

  /** Caching is off while the task sets its promise, which drops the entry, and on again afterwards. */
  function SwitchedOffAndOn(r: Request): seq<Step> {
    ToBuilding(r) + [SetModes(false, false), Build(0, true), SetModes(true, false)] + AskedAgain(r)
  }

  lemma Extend(s: State, steps: seq<Step>, k: nat, r: Request, shape: Shape)
    requires k < |steps| && CanRun(s, steps[..k]) && Enabled(Reached(s, steps[..k]), steps[k])
    requires At(After(Reached(s, steps[..k]), steps[k]), r, shape)
    ensures CanRun(s, steps[..k + 1]) && At(Reached(s, steps[..k + 1]), r, shape)
    ensures Reached(s, steps[..k + 1]) == After(Reached(s, steps[..k]), steps[k])
  {
    hide At, Enabled, After;
    NextStep(s, steps[..k], steps[k]);
    assert steps[..k] + [steps[k]] == steps[..k + 1];
  }

  lemma MoveNext(s: State, steps: seq<Step>, k: nat, r: Request, shape: Shape, t: Task)
    requires k < |steps| && CanRun(s, steps[..k]) && At(Reached(s, steps[..k]), r, shape)
    requires Enabled(Reached(s, steps[..k]), steps[k]) && Moving(steps[k])
    requires NextStage(Reached(s, steps[..k]), steps[k]) == t
    ensures steps[k].task < |shape.tasks|
    ensures CanRun(s, steps[..k + 1])
    ensures At(Reached(s, steps[..k + 1]), r, shape.(tasks := shape.tasks[steps[k].task := t]))
    ensures Reached(s, steps[..k + 1]).evictions == Reached(s, steps[..k]).evictions
  {
    hide At, Enabled, After, NextStage;
    MoveAt(Reached(s, steps[..k]), r, shape, steps[k], t);
    Extend(s, steps, k, r, shape.(tasks := shape.tasks[steps[k].task := t]));
  }

  lemma StartAt(s: State, r: Request)
    requires IsStart(s) && s.tier2
    ensures At(s, r, Shape(true, None, [], [])) && s.evictions == []
  {
  }

  lemma Begun(s: State, steps: seq<Step>)
    ensures steps[..0] == [] && CanRun(s, steps[..0]) && Reached(s, steps[..0]) == s
  {
  }

  ghost predicate ReachesAt(s: State, steps: seq<Step>, k: nat, r: Request, shape: Shape) {
    k <= |steps| && CanRun(s, steps[..k]) && At(Reached(s, steps[..k]), r, shape)
  }

  lemma Requested(s: State, steps: seq<Step>, r: Request)
    requires IsStart(s) && s.tier2 && WellFormed(r) && !Annotates(r.inputs) && ToBuilding(r) <= steps
    ensures ReachesAt(s, steps, 2, r, Shape(true, Some(0), [false], [Queued(KeyOf(r))]))
    ensures Reached(s, steps[..2]).evictions == []
  {
    hide WellFormed, Annotates, KeyOf, CanRun, Reached, IsStart;
    Begun(s, steps);
    StartAt(s, r);
    IssueAt(s, r, Shape(true, None, [], []));
    var asked := Shape(true, Some(0), [false], [Caller(r, Lookup(0, None, true))]);
    assert steps[0] == Issue(r) && steps[1] == Enqueue(0);
    assert [] + [false] == asked.done && [] + asked.tasks == asked.tasks;
    Extend(s, steps, 0, r, asked);
    MoveNext(s, steps, 1, r, asked, Queued(KeyOf(r)));
  }

  lemma Locked(s: State, steps: seq<Step>, r: Request)
    requires IsStart(s) && s.tier2 && WellFormed(r) && !Annotates(r.inputs) && ToBuilding(r) <= steps
    ensures ReachesAt(s, steps, 4, r, Shape(true, Some(0), [false], [AwaitingLock(KeyOf(r))]))
    ensures Reached(s, steps[..4]).evictions == []
  {
    hide WellFormed, Annotates, KeyOf, CanRun, Reached, IsStart;
    Requested(s, steps, r);
    assert steps[2] == Begin(0) && steps[3] == Miss(0);
    var shape := Shape(true, Some(0), [false], [Queued(KeyOf(r))]);
    MoveNext(s, steps, 2, r, shape, Checking(KeyOf(r)));
    MoveNext(s, steps, 3, r, shape.(tasks := [Checking(KeyOf(r))]), AwaitingLock(KeyOf(r)));
  }

  lemma Builds(s: State, steps: seq<Step>, r: Request)
    requires IsStart(s) && s.tier2 && WellFormed(r) && !Annotates(r.inputs) && ToBuilding(r) <= steps
    ensures ReachesAt(s, steps, 6, r, Shape(true, Some(0), [false], [Building(KeyOf(r))]))
    ensures Reached(s, steps[..6]).evictions == []
  {
    hide WellFormed, Annotates, KeyOf, CanRun, Reached, IsStart;
    Locked(s, steps, r);
    assert steps[4] == Acquire(0) && steps[5] == Miss(0);
    var shape := Shape(true, Some(0), [false], [AwaitingLock(KeyOf(r))]);
    MoveNext(s, steps, 4, r, shape, Rechecking(KeyOf(r)));
    MoveNext(s, steps, 5, r, shape.(tasks := [Rechecking(KeyOf(r))]), Building(KeyOf(r)));
  }

  /** Setting the promise keeps the entry only while caching is on. */
  lemma BuildAt(s: State, r: Request, allow: bool)
    requires At(s, r, Shape(allow, Some(0), [false], [Building(KeyOf(r))]))
    ensures Enabled(s, Build(0, true)) && After(s, Build(0, true)).evictions == s.evictions
    ensures At(After(s, Build(0, true)), r, Shape(allow, if allow then Some(0) else None, [true], [Looking(KeyOf(r))]))
  {
    hide KeyOf;
    assert PromiseAt(s.cache.promises[0], r, false);
  }

  lemma BeginEvictionAt(s: State, r: Request)
    requires At(s, r, Shape(true, Some(0), [true], [Looking(KeyOf(r))])) && s.evictions == []
    ensures Enabled(s, EvictBegin) && After(s, EvictBegin).evictions == [Some({KeyOf(r)})]
    ensures At(After(s, EvictBegin), r, Shape(true, Some(0), [true], [Looking(KeyOf(r))]))
  {
    hide KeyOf;
    SingleKey(s.cache.executables, KeyOf(r), 0);
  }

  lemma SingleKey<K, V>(m: map<K, V>, k: K, v: V)
    requires m == map[k := v]
    ensures m.Keys == {k}
  {
  }

  lemma EvictAt(s: State, r: Request)
    requires At(s, r, Shape(true, Some(0), [true], [Looking(KeyOf(r))])) && s.evictions == [Some({KeyOf(r)})]
    ensures Enabled(s, EvictRound(0)) && At(After(s, EvictRound(0)), r, Shape(true, None, [true], [Looking(KeyOf(r))]))
  {
    hide KeyOf;
    assert PromiseAt(s.cache.promises[0], r, true);
    ScanOnlyExecutables(s.cache, {KeyOf(r)});
    assert Ready(s.cache, KeyOf(r));
    assert Scan(s.cache, {KeyOf(r)}).0.executables == map[];
  }

  lemma SwitchAt(s: State, r: Request, shape: Shape, allow: bool)
    requires At(s, r, shape)
    ensures Enabled(s, SetModes(allow, false)) && At(After(s, SetModes(allow, false)), r, shape.(allow := allow))
  {
    hide KeyOf;
  }

  /** The new task waits for the lock, and the first one, which has it, for the new task. */
  lemma AskedAgainAt(s: State, steps: seq<Step>, r: Request)
    requires WellFormed(r) && !Annotates(r.inputs) && |steps| == 14 && steps[9..] == AskedAgain(r)
    requires ReachesAt(s, steps, 9, r, Shape(true, None, [true], [Looking(KeyOf(r))]))
    ensures ReachesAt(s, steps, 11, r, Shape(true, Some(1), [true, false], [Looking(KeyOf(r)), Queued(KeyOf(r))]))
  {
    hide WellFormed, Annotates, KeyOf, CanRun, Reached;
    var key := KeyOf(r);
    assert steps[9] == steps[9..][0] == Issue(r) && steps[10] == steps[9..][1] == Enqueue(1);
    var looking := Shape(true, None, [true], [Looking(key)]);
    IssueAt(Reached(s, steps[..9]), r, looking);
    var asked := Shape(true, Some(1), [true, false], [Looking(key), Caller(r, Lookup(1, None, true))]);
    assert [true] + [false] == asked.done && looking.tasks + [Caller(r, Lookup(1, None, true))] == asked.tasks;
    Extend(s, steps, 9, r, asked);
    MoveNext(s, steps, 10, r, asked, Queued(key));
  }

  lemma CheckingAt(s: State, steps: seq<Step>, r: Request)
    requires WellFormed(r) && !Annotates(r.inputs) && |steps| == 14 && steps[9..] == AskedAgain(r)
    requires ReachesAt(s, steps, 9, r, Shape(true, None, [true], [Looking(KeyOf(r))]))
    ensures ReachesAt(s, steps, 12, r, Shape(true, Some(1), [true, false], [Looking(KeyOf(r)), Checking(KeyOf(r))]))
  {
    hide WellFormed, Annotates, KeyOf, CanRun, Reached;
    AskedAgainAt(s, steps, r);
    assert steps[11] == steps[9..][2] == Begin(1);
    var shape := Shape(true, Some(1), [true, false], [Looking(KeyOf(r)), Queued(KeyOf(r))]);
    MoveNext(s, steps, 11, r, shape, Checking(KeyOf(r)));
  }

  lemma WaitsAt(s: State, steps: seq<Step>, r: Request)
    requires WellFormed(r) && !Annotates(r.inputs) && |steps| == 14 && steps[9..] == AskedAgain(r)
    requires ReachesAt(s, steps, 9, r, Shape(true, None, [true], [Looking(KeyOf(r))]))
    ensures CanRun(s, steps)
    ensures At(Reached(s, steps), r,
      Shape(true, Some(1), [true, false], [Waiting(KeyOf(r), 1), AwaitingLock(KeyOf(r))]))
  {
    hide WellFormed, Annotates, KeyOf, CanRun, Reached;
    var key := KeyOf(r);
    CheckingAt(s, steps, r);
    assert steps[12] == steps[9..][3] == Look(0) && steps[13] == steps[9..][4] == Miss(1);
    var shape := Shape(true, Some(1), [true, false], [Looking(key), Checking(key)]);
    MoveNext(s, steps, 12, r, shape, Waiting(key, 1));
    MoveNext(s, steps, 13, r, shape.(tasks := [Waiting(key, 1), Checking(key)]), AwaitingLock(key));
    assert steps[..14] == steps;
  }

  /** The first task holds the lock and waits for the second promise, in this and every later state; the
      task that should set it waits for the lock. */
  ghost predicate DeadlockedBy(s: State, steps: seq<Step>, r: Request) {
    && CanRun(s, steps)
    && Reached(s, steps).tasks == [Waiting(KeyOf(r), 1), AwaitingLock(KeyOf(r))]
    && Unset(Reached(s, steps).cache, 1) && Lost(Reached(s, steps), 1)
    && forall more :: CanRun(Reached(s, steps), more) ==>
         Lost(Reached(Reached(s, steps), more), 1) && Waiting(KeyOf(r), 1) in Reached(Reached(s, steps), more).tasks
  }

  lemma ThenDeadlocked(s: State, steps: seq<Step>, r: Request)
    requires IsStart(s) && CanRun(s, steps)
    requires At(Reached(s, steps), r,
      Shape(true, Some(1), [true, false], [Waiting(KeyOf(r), 1), AwaitingLock(KeyOf(r))]))
    ensures DeadlockedBy(s, steps, r)
  {
    hide Inv, LockInv, WaitsInv, Lost, CanRun, Reached, KeyOf, IsStart;
    var t := Reached(s, steps);
    StartIsSound(s);
    RunKeepsSound(s, steps);
    assert PromiseAt(t.cache.promises[1], r, false);
    assert !HasRelease(t, t.tasks[0].key);
    LostIffNoRelease(t, 0);
    forall more | CanRun(t, more)
      ensures Lost(Reached(t, more), 1) && Waiting(KeyOf(r), 1) in Reached(t, more).tasks
    {
      WaitsForEver(t, more, 0);
      assert Reached(t, more).tasks[0] == Waiting(KeyOf(r), 1);
    }
  }

  /** For every request without annotations: an eviction between a task's compilation and its second
      lookup, and the same request again. */
  lemma EvictionDeadlocks(s: State, r: Request)
    requires IsStart(s) && s.tier2 && WellFormed(r) && !Annotates(r.inputs)
    ensures DeadlockedBy(s, Evicted(r), r)
  {
    hide WellFormed, Annotates, KeyOf, CanRun, Reached, IsStart, DeadlockedBy;
    var steps := Evicted(r);
    Builds(s, steps, r);
    assert steps[6] == Build(0, true) && steps[7] == EvictBegin && steps[8] == EvictRound(0);
    BuildAt(Reached(s, steps[..6]), r, true);
    var shape := Shape(true, Some(0), [true], [Looking(KeyOf(r))]);
    Extend(s, steps, 6, r, shape);
    BeginEvictionAt(Reached(s, steps[..7]), r);
    Extend(s, steps, 7, r, shape);
    EvictAt(Reached(s, steps[..8]), r);
    Extend(s, steps, 8, r, shape.(entry := None));
    WaitsAt(s, steps, r);
    ThenDeadlocked(s, steps, r);
  }

  /** The same without any eviction, if caching is switched off and on meanwhile. */
  lemma ModeSwitchDeadlocks(s: State, r: Request)
    requires IsStart(s) && s.tier2 && WellFormed(r) && !Annotates(r.inputs)
    ensures DeadlockedBy(s, SwitchedOffAndOn(r), r)
  {
    hide WellFormed, Annotates, KeyOf, CanRun, Reached, IsStart, DeadlockedBy;
    var steps := SwitchedOffAndOn(r);
    Builds(s, steps, r);
    assert steps[6] == SetModes(false, false) && steps[7] == Build(0, true) && steps[8] == SetModes(true, false);
    var building := Shape(true, Some(0), [false], [Building(KeyOf(r))]);
    SwitchAt(Reached(s, steps[..6]), r, building, false);
    Extend(s, steps, 6, r, building.(allow := false));
    BuildAt(Reached(s, steps[..7]), r, false);
    var built := Shape(false, None, [true], [Looking(KeyOf(r))]);
    Extend(s, steps, 7, r, built);
    SwitchAt(Reached(s, steps[..8]), r, built, true);
    Extend(s, steps, 8, r, built.(allow := true));
    WaitsAt(s, steps, r);
    ThenDeadlocked(s, steps, r);
  }
}
