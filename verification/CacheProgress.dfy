/** Which promises can still be set, and which evictions can end: a promise is lost when nobody works on its
    key, or when the tier-2 lock of the key is held by a task that waits for this very promise. */
module CacheProgress {
  import opened Prelude
  import opened Fingerprints
  import opened CompilationCaches
  import opened CacheRuns

  // ---------- Orphaned promises ----------

  /** The key for which the task may still have an executable set. */
  ghost function WorksOn(t: Task): Option<CacheKey> {
    match t
    case Caller(request, lookup) => Some(StorageKey(request, lookup))
    case Looking(_) => None
    case Waiting(_, _) => None
    case Abandoned(_, _) => None
    case Done => None
    case _ => Some(t.key)
  }

  /** The promise is unset, its key is in the map, and nobody works on that key. */
  ghost predicate Dead(s: State, p: nat) {
    && Unset(s.cache, p) && InMap(s.cache, p)
    && forall i :: 0 <= i < |s.tasks| ==> WorksOn(s.tasks[i]) != Some(s.cache.promises[p].key)
  }

  /** A failed adapter creation orphans the caller's promise exactly when it is unset and no other task
      works on its key. */
  lemma AdapterFailureOrphans(s: State, i: nat)
    requires Inv(s) && Enabled(s, AdapterFails(i))
    ensures var p := s.tasks[i].lookup.promise;
      Dead(After(s, AdapterFails(i)), p) <==>
        Unset(s.cache, p) && forall j :: 0 <= j < |s.tasks| && j != i ==>
          WorksOn(s.tasks[j]) != Some(s.cache.promises[p].key)
  {
    hide EntriesInv, CallersInv, Conserved, OwnResults;
    var p, s' := s.tasks[i].lookup.promise, After(s, AdapterFails(i));
    if Unset(s.cache, p) {
      assert Cared(s, p);
    }
    if Dead(s', p) {
      forall j | 0 <= j < |s.tasks| && j != i
        ensures WorksOn(s.tasks[j]) != Some(s.cache.promises[p].key)
      {
        assert s'.tasks[j] == s.tasks[j];
      }
    }
  }

  /** The step sets the promise of the key at most if its task works on the key. */
  ghost predicate SparesKey(s: State, step: Step, key: CacheKey) {
    Settling(step) || step.ModuleFails? ==> step.task < |s.tasks| && WorksOn(s.tasks[step.task]) != Some(key)
  }

  lemma StepSpares(s: State, step: Step, p: nat)
    requires Inv(s) && Enabled(s, step) && !step.Issue? && Unset(s.cache, p) && InMap(s.cache, p)
    requires SparesKey(s, step, s.cache.promises[p].key)
    ensures Unset(After(s, step).cache, p) && InMap(After(s, step).cache, p)
    ensures After(s, step).cache.promises[p].key == s.cache.promises[p].key
  {
    hide Inv, KeysInv, Enabled, After;
    SoundKeys(s);
    if step.ModuleFails? {
      ModuleFailsSpares(s, step.task, p);
    } else if Settling(step) {
      SettlesKey(s, step);
      var key := s.tasks[step.task].key;
      SettleSpares(s.cache, key, Outcome(key, Succeeds(step)), p);
    } else if IsOther(step) {
      OthersSettle(s, step);
    } else {
      CacheUntouched(s, step);
    }
  }

  lemma ModuleFailsSpares(s: State, i: nat, p: nat)
    requires Inv(s) && Enabled(s, ModuleFails(i)) && Unset(s.cache, p) && InMap(s.cache, p)
    requires WorksOn(s.tasks[i]) != Some(s.cache.promises[p].key)
    ensures var d := After(s, ModuleFails(i)).cache; Unset(d, p) && InMap(d, p) && d.promises[p] == s.cache.promises[p]
  {
    hide Inv, StorageKey;
    CallerOf(s, i);
  }

  lemma SettlesKey(s: State, step: Step)
    requires Enabled(s, step) && Settling(step)
    ensures step.task < |s.tasks|
    ensures !s.tasks[step.task].Caller? && !s.tasks[step.task].Abandoned? && !s.tasks[step.task].Done?
    ensures var key := s.tasks[step.task].key;
      && After(s, step).cache == Settle(s.cache, key, Outcome(key, Succeeds(step)))
      && WorksOn(s.tasks[step.task]) == Some(key)
  {
    hide Settle, NextStage;
  }

  lemma CacheUntouched(s: State, step: Step)
    requires Enabled(s, step) && (Moving(step) || step.SpawnBackup? || step.Write?)
    ensures After(s, step).cache == s.cache
  {
    hide NextStage, Free;
  }

  lemma SettleSpares(c: Cache, key: CacheKey, outcome: Outcome, p: nat)
    requires KeysInv(c) && Unset(c, p) && InMap(c, p) && c.promises[p].key != key
    ensures Unset(Settle(c, key, outcome), p) && InMap(Settle(c, key, outcome), p)
    ensures Settle(c, key, outcome).promises[p] == c.promises[p]
  {
  }

  lemma CallerOf(s: State, i: nat)
    requires Inv(s) && i < |s.tasks|
    ensures CallerInv(s.cache, s.tasks[i])
  {
    hide KeysInv, EntriesInv, Conserved, OwnResults, NoOrphans;
  }

  lemma DeadAskStays(s: State, r: Request, p: nat)
    requires Inv(s) && !s.crashed && Dead(s, p)
    ensures Dead(AfterAsk(s, r), p)
  {
    hide Ask, EntriesInv, CallersInv, Conserved, OwnResults, NoOrphans, StorageKey;
    AskGrows(s.cache, r);
    StorageKeyIsKeyOfPromise(s.cache, r);
    var s' := AfterAsk(s, r);
    forall i | 0 <= i < |s'.tasks|
      ensures WorksOn(s'.tasks[i]) != Some(s.cache.promises[p].key)
    {
      assert i < |s.tasks| ==> WorksOn(s.tasks[i]) != Some(s.cache.promises[p].key);
    }
  }

  lemma DeadStepStays(s: State, step: Step, p: nat)
    requires Inv(s) && Enabled(s, step) && Dead(s, p)
    ensures Dead(After(s, step), p)
  {
    hide Inv, Enabled, After, InMap;
    var s', key := After(s, step), s.cache.promises[p].key;
    if step.Issue? {
      IssueAfter(s, step);
      DeadAskStays(s, step.request, p);
    } else {
      assert SparesKey(s, step, key) by { TaskInRange(s, step); }
      StepSpares(s, step, p);
      NobodyStarts(s, step, key);
    }
  }

  lemma TaskInRange(s: State, step: Step)
    requires Enabled(s, step)
    ensures ChangesTask(step) ==> step.task < |s.tasks|
  {
    if ChangesTask(step) {
      ChangesOneTask(s, step);
    }
  }

  /** Only requests bring new workers to a key. */
  lemma SameWork(s: State, step: Step)
    requires Enabled(s, step) && ChangesTask(step)
    ensures step.task < |s.tasks|
    ensures WorksOn(ChangedTo(s, step)) == None || WorksOn(ChangedTo(s, step)) == WorksOn(s.tasks[step.task])
    ensures step.SpawnBackup? ==> WorksOn(s.tasks[step.task]) == Some(s.tasks[step.task].key)
  {
    hide StorageKey, WellFormed;
  }

  lemma NobodyStarts(s: State, step: Step, key: CacheKey)
    requires Enabled(s, step) && !step.Issue?
    requires forall i :: 0 <= i < |s.tasks| ==> WorksOn(s.tasks[i]) != Some(key)
    ensures forall i :: 0 <= i < |After(s, step).tasks| ==> WorksOn(After(s, step).tasks[i]) != Some(key)
  {
    hide Enabled, After, ChangedTo, WorksOn;
    var s' := After(s, step);
    if ChangesTask(step) {
      SameWork(s, step);
      MovedTasks(s, step);
      if step.SpawnBackup? {
        BackupWorks(s, step);
      }
    } else {
      OtherTasks(s, step);
    }
  }

  lemma BackupWorks(s: State, step: Step)
    requires Enabled(s, step) && step.SpawnBackup?
    ensures WorksOn(Backup(s.tasks[step.task].key)) == Some(s.tasks[step.task].key)
  {
  }

  lemma {:induction false} DeadStays(s: State, steps: seq<Step>, p: nat)
    requires Inv(s) && CanRun(s, steps) && Dead(s, p)
    ensures Dead(Reached(s, steps), p)
  {
    hide Inv, Enabled, After, Dead;
    if steps == [] {
    } else {
      DeadStays(s, steps[..|steps| - 1], p);
      RunKeeps(s, steps[..|steps| - 1]);
      DeadStepStays(Reached(s, steps[..|steps| - 1]), steps[|steps| - 1], p);
    }
  }

  // ---------- Promises blocked by the lock ----------

  /** The task holds the lock of the key, and waits for the promise or will find it when it looks. */
  ghost predicate IsHolder(s: State, key: CacheKey, p: nat, h: nat) {
    h < |s.tasks| && (s.tasks[h] == Looking(key) || s.tasks[h] == Waiting(key, p))
  }

  ghost predicate LockStuck(s: State, key: CacheKey, p: nat) {
    exists h: nat :: IsHolder(s, key, p, h)
  }

  /** The task works on the key and does not need its lock for that. */
  ghost predicate NeedsNoLock(t: Task, key: CacheKey, files: set<CacheKey>) {
    WorksOn(t) == Some(key) && !t.AwaitingLock? && (t.Checking? ==> key in files)
  }

  /** The promise is unset, the holder of its key's lock waits for it, and all who work on the key need
      that lock. */
  ghost predicate Blocked(s: State, p: nat) {
    && Unset(s.cache, p) && InMap(s.cache, p) && LockStuck(s, s.cache.promises[p].key, p)
    && forall i :: 0 <= i < |s.tasks| ==> !NeedsNoLock(s.tasks[i], s.cache.promises[p].key, s.files)
  }

  ghost predicate Lost(s: State, p: nat) {
    Dead(s, p) || Blocked(s, p)
  }

  lemma HolderHolds(s: State, key: CacheKey, p: nat, h: nat)
    requires IsHolder(s, key, p, h)
    ensures Holds(s.tasks[h], key) && !Free(s, key)
  {
  }

  lemma BlockedAskStays(s: State, r: Request, p: nat)
    requires Inv(s) && !s.crashed && Blocked(s, p)
    ensures Blocked(AfterAsk(s, r), p)
  {
    hide Ask, EntriesInv, CallersInv, Conserved, OwnResults, NoOrphans, StorageKey;
    AskGrows(s.cache, r);
    StorageKeyIsKeyOfPromise(s.cache, r);
    var s', key := AfterAsk(s, r), s.cache.promises[p].key;
    var h := StuckHolder(s, key, p);
    assert s'.tasks[h] == s.tasks[h];
    HolderMakesStuck(s', key, p, h);
    forall i | 0 <= i < |s'.tasks|
      ensures !NeedsNoLock(s'.tasks[i], key, s'.files)
    {
      assert i < |s.tasks| ==> !NeedsNoLock(s.tasks[i], key, s.files);
    }
  }

  /** Whoever works on the key of a blocked promise cannot set it. */
  lemma BlockedSpares(s: State, step: Step, p: nat)
    requires Enabled(s, step) && Blocked(s, p)
    ensures SparesKey(s, step, s.cache.promises[p].key)
  {
    hide StorageKey, WellFormed;
    if Settling(step) || step.ModuleFails? {
      assert !NeedsNoLock(s.tasks[step.task], s.cache.promises[p].key, s.files);
    }
  }

  /** The holder stays one: it cannot end its wait. */
  lemma HolderStays(s: State, step: Step, key: CacheKey, p: nat, h: nat)
    requires Enabled(s, step) && Unset(s.cache, p) && InMap(s.cache, p) && s.cache.promises[p].key == key
    requires IsHolder(s, key, p, h)
    ensures IsHolder(After(s, step), key, p, h)
  {
    hide Enabled, After, InMap;
    if ChangesTask(step) {
      ChangesOneTask(s, step);
      OneChangedAt(s, After(s, step), step.task, ChangedTo(s, step), h);
      if step.task == h {
        HolderMoves(s, step, key, p);
      }
    } else {
      OtherTasks(s, step);
    }
  }

  lemma HolderMoves(s: State, step: Step, key: CacheKey, p: nat)
    requires Enabled(s, step) && ChangesTask(step) && Unset(s.cache, p) && InMap(s.cache, p)
    requires s.cache.promises[p].key == key
    requires IsHolder(s, key, p, step.task)
    ensures ChangedTo(s, step) == Waiting(key, p)
  {
  }

  /** No file for the key can appear while the lock is held. */
  lemma HolderKeepsFiles(s: State, step: Step, key: CacheKey, p: nat, h: nat)
    requires Enabled(s, step) && LockInv(s) && IsHolder(s, key, p, h) && Unset(s.cache, p)
    ensures key in After(s, step).files <==> key in s.files
  {
    hide StorageKey, WellFormed, NextStage, Settle, Ask, Scan;
    HolderHolds(s, key, p, h);
  }

  /** Nobody who needs the lock gets past it. */
  lemma StillNeedsLock(s: State, step: Step, key: CacheKey, p: nat, h: nat)
    requires Enabled(s, step) && ChangesTask(step) && IsHolder(s, key, p, h) && step.task < |s.tasks|
    requires !NeedsNoLock(s.tasks[step.task], key, s.files)
    ensures !NeedsNoLock(ChangedTo(s, step), key, s.files)
    ensures step.SpawnBackup? ==> s.tasks[step.task].key != key
  {
    hide StorageKey, WellFormed, Free;
    HolderHolds(s, key, p, h);
  }

  lemma BlockedStepStays(s: State, step: Step, p: nat)
    requires Sound(s) && Enabled(s, step) && Blocked(s, p)
    ensures Blocked(After(s, step), p)
  {
    hide Inv, LockInv, WaitsInv, Enabled, After, InMap, NeedsNoLock, ChangedTo, IsHolder;
    var s', key := After(s, step), s.cache.promises[p].key;
    if step.Issue? {
      IssueAfter(s, step);
      BlockedAskStays(s, step.request, p);
    } else {
      BlockedSpares(s, step, p);
      StepSpares(s, step, p);
      var h := StuckHolder(s, key, p);
      HolderStays(s, step, key, p, h);
      HolderMakesStuck(s', key, p, h);
      HolderKeepsFiles(s, step, key, p, h);
      forall i | 0 <= i < |s'.tasks|
        ensures !NeedsNoLock(s'.tasks[i], key, s'.files)
      {
        StaysLocked(s, step, key, p, h, i);
      }
    }
  }

  lemma StuckHolder(s: State, key: CacheKey, p: nat) returns (h: nat)
    requires LockStuck(s, key, p)
    ensures IsHolder(s, key, p, h)
  {
    h :| IsHolder(s, key, p, h);
  }

  lemma HolderMakesStuck(s: State, key: CacheKey, p: nat, h: nat)
    requires IsHolder(s, key, p, h)
    ensures LockStuck(s, key, p)
  {
  }

  lemma StaysLocked(s: State, step: Step, key: CacheKey, p: nat, h: nat, i: nat)
    requires Enabled(s, step) && !step.Issue? && IsHolder(s, key, p, h)
    requires forall j :: 0 <= j < |s.tasks| ==> !NeedsNoLock(s.tasks[j], key, s.files)
    requires key in After(s, step).files <==> key in s.files
    requires i < |After(s, step).tasks|
    ensures !NeedsNoLock(After(s, step).tasks[i], key, After(s, step).files)
  {
    hide Enabled, After, ChangedTo, IsHolder;
    if ChangesTask(step) {
      SameWork(s, step);
      MovedTasks(s, step);
      StillNeedsLock(s, step, key, p, h);
      assert step.task != i < |s.tasks| ==> After(s, step).tasks[i] == s.tasks[i];
    } else {
      OtherTasks(s, step);
    }
  }

  lemma {:induction false} LostStays(s: State, steps: seq<Step>, p: nat)
    requires Sound(s) && CanRun(s, steps) && Lost(s, p)
    ensures Lost(Reached(s, steps), p)
  {
    hide Inv, LockInv, WaitsInv, Enabled, After, Dead, Blocked;
    if steps == [] {
    } else {
      var before, step := Reached(s, steps[..|steps| - 1]), steps[|steps| - 1];
      LostStays(s, steps[..|steps| - 1], p);
      RunKeepsSound(s, steps[..|steps| - 1]);
      if Dead(before, p) {
        DeadStepStays(before, step, p);
      } else {
        BlockedStepStays(before, step, p);
      }
    }
  }

  // ---------- Whoever can set a promise sets it ----------

  /** The task works on the key of the promise, and the lock is no obstacle. */
  ghost predicate Helps(s: State, p: nat, i: nat)
    requires p < |s.cache.promises|
  {
    var key := s.cache.promises[p].key;
    i < |s.tasks| && WorksOn(s.tasks[i]) == Some(key) &&
      (LockStuck(s, key, p) ==> NeedsNoLock(s.tasks[i], key, s.files))
  }

  /** A promise that is not lost has a task that can set it. */
  lemma HasHelper(s: State, p: nat) returns (i: nat)
    requires Inv(s) && Unset(s.cache, p) && !Lost(s, p)
    ensures Helps(s, p, i)
  {
    hide KeysInv, EntriesInv, Conserved, OwnResults, CallersInv;
    assert Cared(s, p);
    var key := s.cache.promises[p].key;
    if LockStuck(s, key, p) {
      i :| 0 <= i < |s.tasks| && NeedsNoLock(s.tasks[i], key, s.files);
    } else {
      i :| 0 <= i < |s.tasks| && WorksOn(s.tasks[i]) == Some(key);
    }
  }

  predicate About(t: Task, key: CacheKey) {
    match t
    case Caller(request, lookup) => StorageKey(request, lookup) == key
    case Abandoned(_, _) => false
    case Done => true
    case _ => t.key == key
  }

  /** Only tasks, files, promises and entries of the key differ; evictions go on as they were. */
  ghost predicate OnlyKey(s: State, s': State, key: CacheKey) {
    && s'.evictions == s.evictions && !s'.crashed && |s'.tasks| == |s.tasks|
    && (forall i :: 0 <= i < |s.tasks| ==>
      s'.tasks[i] == s.tasks[i] || (About(s.tasks[i], key) && About(s'.tasks[i], key)))
    && (forall k :: k != key ==> (k in s'.files <==> k in s.files))
    && OnlyKeyInCache(s.cache, s'.cache, key)
  }

  ghost predicate OnlyKeyInCache(c: Cache, d: Cache, key: CacheKey) {
    && |d.promises| == |c.promises|
    && (forall q :: 0 <= q < |c.promises| ==>
          && d.promises[q].key == c.promises[q].key
          && (c.promises[q].key != key || c.promises[q].outcome.Some? ==> d.promises[q] == c.promises[q]))
    && (forall k :: k in d.executables ==> k in c.executables && d.executables[k] == c.executables[k])
    && (forall k :: k in c.executables && k != key ==> k in d.executables)
  }

  lemma OnlyKeyTwice(s: State, t: State, u: State, key: CacheKey)
    requires OnlyKey(s, t, key) && OnlyKey(t, u, key)
    ensures OnlyKey(s, u, key)
  {
    hide About;
    forall i | 0 <= i < |s.tasks|
      ensures u.tasks[i] == s.tasks[i] || (About(s.tasks[i], key) && About(u.tasks[i], key))
    {
      assert t.tasks[i] == s.tasks[i] || (About(s.tasks[i], key) && About(t.tasks[i], key));
    }
  }

  /** The task that takes the step is about the key. */
  ghost predicate StepAbout(s: State, step: Step, key: CacheKey) {
    && (Moving(step) || Settling(step) || step.Write?)
    && step.task < |s.tasks| && About(s.tasks[step.task], key) && !s.tasks[step.task].Done?
  }

  lemma StepOnlyKey(s: State, step: Step, key: CacheKey)
    requires KeysInv(s.cache) && Enabled(s, step) && StepAbout(s, step, key) && !step.AdapterFails?
    ensures OnlyKey(s, After(s, step), key)
  {
    hide ChangedTo, OnlyKeyInCache, Enabled, After, About;
    ChangesOneTask(s, step);
    MovedTasks(s, step);
    StaysAbout(s, step, key);
    StepOnlyKeyInCache(s, step, key);
    StepOnlyKeysFiles(s, step, key);
  }

  lemma StaysAbout(s: State, step: Step, key: CacheKey)
    requires Enabled(s, step) && StepAbout(s, step, key) && !step.AdapterFails?
    ensures About(ChangedTo(s, step), key) && !After(s, step).crashed && After(s, step).evictions == s.evictions
  {
    hide StorageKey, WellFormed, Settle;
  }

  lemma StepOnlyKeyInCache(s: State, step: Step, key: CacheKey)
    requires KeysInv(s.cache) && Enabled(s, step) && StepAbout(s, step, key)
    ensures OnlyKeyInCache(s.cache, After(s, step).cache, key)
  {
    hide StorageKey, WellFormed, NextStage, Settle;
    if Settling(step) {
      SettleOnlyKey(s.cache, key, Outcome(key, Succeeds(step)));
    }
  }

  lemma SettleOnlyKey(c: Cache, key: CacheKey, outcome: Outcome)
    requires KeysInv(c)
    ensures OnlyKeyInCache(c, Settle(c, key, outcome), key)
  {
  }

  lemma StepOnlyKeysFiles(s: State, step: Step, key: CacheKey)
    requires Enabled(s, step) && StepAbout(s, step, key)
    ensures forall k :: k != key ==> (k in After(s, step).files <==> k in s.files)
  {
    hide StorageKey, WellFormed, NextStage, Settle;
  }

  /** A run after which the promise is set, and which touches nothing but its key. */
  ghost predicate Sets(s: State, steps: seq<Step>, p: nat)
    requires p < |s.cache.promises|
  {
    && CanRun(s, steps) && !Unset(Reached(s, steps).cache, p)
    && OnlyKey(s, Reached(s, steps), s.cache.promises[p].key)
  }

  /** What a helper that only moves on leaves as it was. */
  lemma HelperMoves(s: State, p: nat, i: nat, step: Step)
    requires Sound(s) && Enabled(s, step) && Moving(step) && !step.AdapterFails? && step.task == i
    requires Unset(s.cache, p) && Helps(s, p, i) && WorksOn(ChangedTo(s, step)) == Some(s.cache.promises[p].key)
    requires LockStuck(s, s.cache.promises[p].key, p) ==>
      NeedsNoLock(ChangedTo(s, step), s.cache.promises[p].key, s.files)
    ensures var s' := After(s, step);
      && Sound(s') && !s'.crashed && s'.cache == s.cache && Helps(s', p, i) && s'.tasks[i] == ChangedTo(s, step)
      && OnlyKey(s, s', s.cache.promises[p].key) && s'.files == s.files && s'.tier2 == s.tier2
      && (LockStuck(s', s.cache.promises[p].key, p) ==> LockStuck(s, s.cache.promises[p].key, p))
  {
    hide Inv, LockInv, WaitsInv, ChangedTo, OnlyKey, NeedsNoLock, IsHolder;
    var s', key := After(s, step), s.cache.promises[p].key;
    StepKeepsSound(s, step);
    assert StepAbout(s, step, key) by { WorkersAreAbout(s.tasks[i], key); }
    assert KeysInv(s.cache) by { SoundKeys(s); }
    StepOnlyKey(s, step, key);
    MovedTasks(s, step);
    if LockStuck(s', key, p) {
      var h := StuckHolder(s', key, p);
      StillHolder(s, s', key, p, h, i);
      HolderMakesStuck(s, key, p, h);
    }
  }

  lemma WorkersAreAbout(t: Task, key: CacheKey)
    requires WorksOn(t) == Some(key)
    ensures About(t, key) && !t.Done? && !t.Abandoned?
  {
  }

  lemma StillHolder(s: State, s': State, key: CacheKey, p: nat, h: nat, i: nat)
    requires i < |s.tasks| == |s'.tasks| && s'.tasks == s.tasks[i := s'.tasks[i]] && IsHolder(s', key, p, h)
    requires WorksOn(s'.tasks[i]).Some?
    ensures IsHolder(s, key, p, h)
  {
  }

  /** One step and then a run that sets the promise. */
  lemma StepThenSets(s: State, step: Step, rest: seq<Step>, p: nat)
    requires Enabled(s, step) && p < |s.cache.promises| && OnlyKey(s, After(s, step), s.cache.promises[p].key)
    requires Sets(After(s, step), rest, p)
    ensures Sets(s, [step] + rest, p)
  {
    hide Enabled, After, About;
    OneStep(s, step);
    Joined(s, [step], rest);
    OnlyKeyTwice(s, After(s, step), Reached(s, [step] + rest), s.cache.promises[p].key);
  }

  lemma LastStepSets(s: State, step: Step, p: nat)
    requires Enabled(s, step) && p < |s.cache.promises| && OnlyKey(s, After(s, step), s.cache.promises[p].key)
    requires !Unset(After(s, step).cache, p)
    ensures Sets(s, [step], p)
  {
    hide Enabled, After, About, OnlyKey;
    OneStep(s, step);
  }

  lemma SettlingSets(s: State, step: Step, p: nat)
    requires Sound(s) && Enabled(s, step) && Settling(step) && Unset(s.cache, p)
    requires step.task < |s.tasks| && WorksOn(s.tasks[step.task]) == Some(s.cache.promises[p].key)
    ensures Sets(s, [step], p)
  {
    hide Sound, Enabled, After, OnlyKey, About, InMap, KeysInv;
    var key := s.cache.promises[p].key;
    assert KeysInv(s.cache) && InMap(s.cache, p) by { UnsetIsInMap(s, p); }
    WorkersAreAbout(s.tasks[step.task], key);
    StepOnlyKey(s, step, key);
    SettlesOwnKey(s, step, p);
    LastStepSets(s, step, p);
  }

  lemma UnsetIsInMap(s: State, p: nat)
    requires Sound(s) && Unset(s.cache, p)
    ensures KeysInv(s.cache) && InMap(s.cache, p)
  {
    hide LockInv, WaitsInv, EntriesInv, Conserved, OwnResults, CallersInv, Accounted, KeysInv;
    assert Cared(s, p);
  }

  lemma SettlesOwnKey(s: State, step: Step, p: nat)
    requires Enabled(s, step) && Settling(step) && Unset(s.cache, p) && InMap(s.cache, p)
    requires step.task < |s.tasks| && WorksOn(s.tasks[step.task]) == Some(s.cache.promises[p].key)
    ensures !Unset(After(s, step).cache, p)
  {
    hide WellFormed, NextStage, StorageKey;
  }

  /** With caching off a queued task compiles by itself. */
  lemma SwitchedOff(s: State, p: nat, i: nat)
    requires Sound(s) && !s.crashed && Unset(s.cache, p) && Helps(s, p, i) && s.tasks[i].Queued?
    ensures var step := SetModes(false, s.cache.cacheOnly); var s' := After(s, step);
      && Enabled(s, step) && Sound(s') && !s'.crashed && Unset(s'.cache, p) && Helps(s', p, i) && s'.tasks == s.tasks
      && !s'.cache.allow && s'.cache.promises == s.cache.promises && OnlyKey(s, s', s.cache.promises[p].key)
  {
    hide Sound, NeedsNoLock, LockStuck;
    var step := SetModes(false, s.cache.cacheOnly);
    StepKeepsSound(s, step);
    SameStuck(s, After(s, step), s.cache.promises[p].key, p);
  }

  lemma SameStuck(s: State, s': State, key: CacheKey, p: nat)
    requires s'.tasks == s.tasks
    ensures LockStuck(s', key, p) <==> LockStuck(s, key, p)
  {
    if LockStuck(s, key, p) {
      var h := StuckHolder(s, key, p);
      HolderMakesStuck(s', key, p, h);
    }
    if LockStuck(s', key, p) {
      var h := StuckHolder(s', key, p);
      HolderMakesStuck(s, key, p, h);
    }
  }

  /** How many steps a task may need to set a promise of its key. */
  function StepsToGo(t: Task): nat {
    match t
    case Caller(_, _) => 7
    case Queued(_) => 6
    case Checking(_) => 5
    case AwaitingLock(_) => 4
    case Rechecking(_) => 2
    case Backup(_) => 2
    case _ => 1
  }

  lemma QueuedSets(s: State, p: nat, i: nat) returns (steps: seq<Step>)
    requires Sound(s) && !s.crashed && Unset(s.cache, p) && Helps(s, p, i) && s.tasks[i].Queued?
    requires LockStuck(s, s.cache.promises[p].key, p)
    ensures |steps| <= 3 && Sets(s, steps, p)
  {
    hide Sound, Enabled, After, LockStuck, NeedsNoLock, OnlyKey;
    SwitchedOff(s, p, i);
    var off := SetModes(false, s.cache.cacheOnly);
    steps := CompilesDirectly(After(s, off), p, i);
    StepThenSets(s, off, steps, p);
    steps := [off] + steps;
  }

  lemma CompilesDirectly(s: State, p: nat, i: nat) returns (steps: seq<Step>)
    requires Sound(s) && !s.crashed && Unset(s.cache, p) && Helps(s, p, i) && s.tasks[i].Queued? && !s.cache.allow
    ensures |steps| == 2 && Sets(s, steps, p)
  {
    hide Sound, LockStuck, OnlyKey, Sets;
    HelperMoves(s, p, i, Begin(i));
    SettlingSets(After(s, Begin(i)), Compile(i, true), p);
    StepThenSets(s, Begin(i), [Compile(i, true)], p);
    steps := [Begin(i), Compile(i, true)];
    assert steps == [Begin(i)] + [Compile(i, true)];
  }

  lemma RecheckingSets(s: State, p: nat, i: nat) returns (steps: seq<Step>)
    requires Sound(s) && !s.crashed && Unset(s.cache, p) && Helps(s, p, i) && s.tasks[i].Rechecking?
    ensures |steps| == 2 && Sets(s, steps, p)
  {
    hide Sound, LockStuck, OnlyKey, Sets;
    HelperMoves(s, p, i, Miss(i));
    SettlingSets(After(s, Miss(i)), Build(i, true), p);
    StepThenSets(s, Miss(i), [Build(i, true)], p);
    steps := [Miss(i), Build(i, true)];
    assert steps == [Miss(i)] + [Build(i, true)];
  }

  lemma FreeLockSets(s: State, p: nat, i: nat) returns (steps: seq<Step>)
    requires Sound(s) && !s.crashed && Unset(s.cache, p) && Helps(s, p, i) && s.tasks[i].AwaitingLock?
    requires Free(s, s.tasks[i].key) && !LockStuck(s, s.cache.promises[p].key, p)
    ensures |steps| == 3 && Sets(s, steps, p)
  {
    hide Sound, LockStuck, OnlyKey, Sets, Free;
    HelperMoves(s, p, i, Acquire(i));
    steps := RecheckingSets(After(s, Acquire(i)), p, i);
    StepThenSets(s, Acquire(i), steps, p);
    steps := [Acquire(i)] + steps;
  }

  /** A holder that does not wait for p waits for a promise that is set. */
  lemma OtherWaitEnds(s: State, p: nat, h: nat)
    requires Sound(s) && Unset(s.cache, p) && h < |s.tasks| && s.tasks[h].Waiting?
    requires s.tasks[h].key == s.cache.promises[p].key && s.tasks[h].promise != p
    ensures IsSet(s.cache, s.tasks[h].promise)
  {
    hide Inv, KeysInv;
    assert WaitInv(s.cache, s.tasks[h]);
    UnsetIsInMap(s, p);
    if Unset(s.cache, s.tasks[h].promise) {
      UnsetIsInMap(s, s.tasks[h].promise);
    }
  }

  lemma WriteFrees(s: State, p: nat, i: nat, h: nat)
    requires Sound(s) && !s.crashed && Unset(s.cache, p) && Helps(s, p, i) && s.tasks[i].AwaitingLock?
    requires h < |s.tasks| && Holds(s.tasks[h], s.tasks[i].key) && s.tasks[h].Waiting?
    requires IsSet(s.cache, s.tasks[h].promise)
    requires !LockStuck(s, s.cache.promises[p].key, p)
    ensures var step := Write(h, false); var s' := After(s, step);
      && Enabled(s, step) && Sound(s') && !s'.crashed && s'.cache == s.cache && s'.tasks == s.tasks[h := Done]
      && Free(s', s.tasks[i].key) && !LockStuck(s', s.cache.promises[p].key, p)
      && OnlyKey(s, s', s.cache.promises[p].key)
  {
    hide Inv, WaitsInv, OnlyKey, LockStuck, KeysInv, Enabled, After;
    var step, key := Write(h, false), s.tasks[i].key;
    assert Enabled(s, step) by { WriteEnabled(s, h); }
    StepKeepsSound(s, step);
    UnsetIsInMap(s, p);
    StepOnlyKey(s, step, key);
    MovedTasks(s, step);
    WriteKeepsCache(s, h);
    StaysAbout(s, step, key);
    var s' := After(s, step);
    forall j | 0 <= j < |s'.tasks|
      ensures !Holds(s'.tasks[j], key)
    {
      assert j != h ==> s'.tasks[j] == s.tasks[j];
    }
    if LockStuck(s', key, p) {
      var g := StuckHolder(s', key, p);
      HolderHolds(s', key, p, g);
    }
  }

  lemma WriteEnabled(s: State, h: nat)
    requires !s.crashed && h < |s.tasks| && s.tasks[h].Waiting? && IsSet(s.cache, s.tasks[h].promise)
    ensures Enabled(s, Write(h, false))
  {
  }

  lemma WriteKeepsCache(s: State, h: nat)
    requires Enabled(s, Write(h, false))
    ensures After(s, Write(h, false)).cache == s.cache
  {
  }

  lemma HelpsAfterWrite(s: State, s': State, p: nat, i: nat, h: nat)
    requires p < |s.cache.promises| && s'.cache == s.cache && Helps(s, p, i) && h < |s.tasks|
    requires s'.tasks == s.tasks[h := Done]
    requires s.tasks[i].AwaitingLock? && s.tasks[h].Waiting? && !LockStuck(s', s.cache.promises[p].key, p)
    ensures Helps(s', p, i) && s'.tasks[i] == s.tasks[i]
  {
    assert h != i;
  }

  lemma AwaitingSets(s: State, p: nat, i: nat) returns (steps: seq<Step>)
    requires Sound(s) && !s.crashed && Unset(s.cache, p) && Helps(s, p, i) && s.tasks[i].AwaitingLock?
    ensures |steps| <= 4 && Sets(s, steps, p)
  {
    hide Sound, OnlyKey, Sets, Free, Enabled, After, LockStuck;
    var key := s.cache.promises[p].key;
    assert s.tasks[i].key == key && !LockStuck(s, key, p);
    if Free(s, key) {
      steps := FreeLockSets(s, p, i);
    } else {
      var h := HolderOf(s, key);
      if s.tasks[h].Looking? {
        HolderMakesStuck(s, key, p, h);
      } else if s.tasks[h].Waiting? {
        if s.tasks[h].promise == p {
          HolderMakesStuck(s, key, p, h);
        } else {
          OtherWaitEnds(s, p, h);
          WriteFrees(s, p, i, h);
          var step := Write(h, false);
          HelpsAfterWrite(s, After(s, step), p, i, h);
          steps := FreeLockSets(After(s, step), p, i);
          StepThenSets(s, step, steps, p);
          steps := [step] + steps;
        }
      } else {
        steps := HolderSets(s, p, h);
      }
    }
  }

  lemma HolderOf(s: State, key: CacheKey) returns (h: nat)
    requires !Free(s, key)
    ensures h < |s.tasks| && Holds(s.tasks[h], key)
  {
    h :| h < |s.tasks| && Holds(s.tasks[h], key);
  }

  /** A holder that still builds sets the promise. */
  lemma HolderSets(s: State, p: nat, h: nat) returns (steps: seq<Step>)
    requires Sound(s) && !s.crashed && Unset(s.cache, p) && h < |s.tasks| && Holds(s.tasks[h], s.cache.promises[p].key)
    requires s.tasks[h].Rechecking? || s.tasks[h].Building? || s.tasks[h].Backed?
    ensures |steps| <= 2 && Sets(s, steps, p)
  {
    hide Sound, LockStuck, OnlyKey, Sets, After;
    if s.tasks[h].Rechecking? {
      steps := RecheckingSets(s, p, h);
    } else {
      var step := if s.tasks[h].Building? then Build(h, true) else Tier3Hits(h);
      steps := [step];
      SettlingSets(s, step, p);
    }
  }

  lemma BackupSets(s: State, p: nat, i: nat) returns (steps: seq<Step>)
    requires Sound(s) && !s.crashed && Unset(s.cache, p) && Helps(s, p, i) && s.tasks[i].Backup?
    ensures |steps| == 2 && Sets(s, steps, p)
  {
    hide Sound, LockStuck, OnlyKey, Sets, KeysInv;
    UnsetIsInMap(s, p);
    HelperMoves(s, p, i, BackupCompiles(i));
    SettlingSets(After(s, BackupCompiles(i)), Compile(i, true), p);
    StepThenSets(s, BackupCompiles(i), [Compile(i, true)], p);
    steps := [BackupCompiles(i), Compile(i, true)];
    assert steps == [BackupCompiles(i)] + [Compile(i, true)];
  }

  /** Whoever can set a promise does so within seven steps that touch nothing but its key. */
  lemma {:induction false} HelperSets(s: State, p: nat, i: nat) returns (steps: seq<Step>)
    requires Sound(s) && !s.crashed && Unset(s.cache, p) && Helps(s, p, i)
    ensures |steps| <= StepsToGo(s.tasks[i]) && Sets(s, steps, p)
    decreases StepsToGo(s.tasks[i]), 1
  {
    hide Sound, LockStuck, OnlyKey, Sets, After;
    var stuck := LockStuck(s, s.cache.promises[p].key, p);
    match s.tasks[i]
    case Caller(_, _) => steps := MoveThenSets(s, p, i, Enqueue(i));
    case Queued(_) =>
      if stuck {
        steps := QueuedSets(s, p, i);
      } else {
        steps := MoveThenSets(s, p, i, Begin(i));
      }
    case Checking(_) =>
      if stuck {
        steps := [Load(i)];
        SettlingSets(s, Load(i), p);
      } else {
        steps := MoveThenSets(s, p, i, Miss(i));
      }
    case AwaitingLock(_) => steps := AwaitingSets(s, p, i);
    case Rechecking(_) => steps := RecheckingSets(s, p, i);
    case Backup(_) => steps := BackupSets(s, p, i);
    case Building(_) =>
      steps := [Build(i, true)];
      SettlingSets(s, Build(i, true), p);
    case Backed(_) =>
      steps := [Tier3Hits(i)];
      SettlingSets(s, Tier3Hits(i), p);
    case _ =>
      steps := [Compile(i, true)];
      SettlingSets(s, Compile(i, true), p);
  }

  lemma {:induction false} MoveThenSets(s: State, p: nat, i: nat, step: Step) returns (steps: seq<Step>)
    requires Sound(s) && !s.crashed && Unset(s.cache, p) && Helps(s, p, i)
    requires match s.tasks[i]
      case Caller(_, _) => step == Enqueue(i)
      case Queued(_) => step == Begin(i) && !LockStuck(s, s.cache.promises[p].key, p)
      case Checking(_) => step == Miss(i) && !LockStuck(s, s.cache.promises[p].key, p)
      case _ => false
    ensures |steps| <= StepsToGo(s.tasks[i]) && Sets(s, steps, p)
    decreases StepsToGo(s.tasks[i]), 0
  {
    hide Inv, LockInv, WaitsInv, LockStuck, OnlyKey, Sets;
    assert CallerInv(s.cache, s.tasks[i]) by { SoundCaller(s, i); }
    HelperMoves(s, p, i, step);
    steps := HelperSets(After(s, step), p, i);
    StepThenSets(s, step, steps, p);
    steps := [step] + steps;
  }

  lemma SoundCaller(s: State, i: nat)
    requires Sound(s) && i < |s.tasks|
    ensures CallerInv(s.cache, s.tasks[i])
  {
    hide Inv, LockInv, WaitsInv;
    CallerOf(s, i);
  }

  ghost predicate SetBy(s: State, steps: seq<Step>, p: nat) {
    CanRun(s, steps) && !Unset(Reached(s, steps).cache, p)
  }

  lemma LostIsUnset(s: State, p: nat)
    requires Lost(s, p)
    ensures Unset(s.cache, p)
  {
  }

  /** An unset promise can still be set, and within seven steps, if and only if it is not lost: somebody
      works on its key, and not only tasks that need a lock whose holder waits for the promise. */
  lemma CanBeSetIffNotLost(s: State, p: nat)
    requires Sound(s) && !s.crashed && Unset(s.cache, p)
    ensures (exists steps :: SetBy(s, steps, p)) <==> !Lost(s, p)
    ensures (exists steps :: |steps| <= 7 && SetBy(s, steps, p)) <==> !Lost(s, p)
  {
    hide Inv, LockInv, WaitsInv, Lost, OnlyKey, CanRun, Reached;
    if !Lost(s, p) {
      var i := HasHelper(s, p);
      var steps := HelperSets(s, p, i);
      assert SetBy(s, steps, p);
    } else {
      forall steps | CanRun(s, steps)
        ensures !SetBy(s, steps, p)
      {
        LostStays(s, steps, p);
        LostIsUnset(Reached(s, steps), p);
      }
    }
  }

  // ---------- Evictions ----------

  /** An eviction that waits for a key whose promise is lost waits for ever. */
  lemma {:induction false} EvictionNeverEnds(s: State, steps: seq<Step>, p: nat, e: nat)
    requires Sound(s) && CanRun(s, steps) && Lost(s, p) && p < |s.cache.promises|
    requires Evicting(s, e) && s.cache.promises[p].key in s.evictions[e].value
    ensures var s' := Reached(s, steps); Evicting(s', e) && s.cache.promises[p].key in s'.evictions[e].value
  {
    hide Inv, LockInv, WaitsInv, Enabled, After, Lost;
    if steps == [] {
    } else {
      var before, step := Reached(s, steps[..|steps| - 1]), steps[|steps| - 1];
      EvictionNeverEnds(s, steps[..|steps| - 1], p, e);
      LostStays(s, steps[..|steps| - 1], p);
      RunOnlySets(s, steps[..|steps| - 1]);
      EvictionGoesOn(before, step, p, e);
    }
  }

  lemma EvictionGoesOn(s: State, step: Step, p: nat, e: nat)
    requires Enabled(s, step) && Lost(s, p) && p < |s.cache.promises|
    requires Evicting(s, e) && s.cache.promises[p].key in s.evictions[e].value
    ensures Evicting(After(s, step), e) && s.cache.promises[p].key in After(s, step).evictions[e].value
  {
    hide Ask, WellFormed, StorageKey, NextStage, Settle;
  }

  /** The listed keys whose promises are not set yet. */
  ghost function Pending(s: State, e: nat): set<CacheKey>
    requires Evicting(s, e)
  {
    set k | k in s.evictions[e].value && k in s.cache.executables && Unset(s.cache, s.cache.executables[k])
  }

  /** No listed key has a lost promise. */
  ghost predicate NoneLost(s: State, e: nat)
    requires Evicting(s, e)
  {
    forall k :: k in Pending(s, e) ==> !Lost(s, s.cache.executables[k])
  }

  /** Touching one key loses no promise of another. */
  lemma OthersNotLost(s: State, s': State, key: CacheKey, p: nat)
    requires OnlyKey(s, s', key) && Unset(s.cache, p) && s.cache.promises[p].key != key && Lost(s', p)
    requires InMap(s.cache, p)
    ensures Lost(s, p)
  {
    hide StorageKey, Dead, Blocked;
    if Dead(s', p) {
      DeadBefore(s, s', key, p);
    } else {
      BlockedBefore(s, s', key, p);
    }
  }

  lemma OtherTaskSame(s: State, s': State, key: CacheKey, other: CacheKey, i: nat)
    requires OnlyKey(s, s', key) && i < |s.tasks| && other != key
    ensures WorksOn(s.tasks[i]) == Some(other) ==> s'.tasks[i] == s.tasks[i]
    ensures s'.tasks[i].Looking? && s'.tasks[i].key == other ==> s'.tasks[i] == s.tasks[i]
    ensures s'.tasks[i].Waiting? && s'.tasks[i].key == other ==> s'.tasks[i] == s.tasks[i]
  {
    hide StorageKey, OnlyKeyInCache;
  }

  lemma DeadBefore(s: State, s': State, key: CacheKey, p: nat)
    requires OnlyKey(s, s', key) && Unset(s.cache, p) && InMap(s.cache, p) && s.cache.promises[p].key != key
    requires Dead(s', p)
    ensures Dead(s, p)
  {
    hide WorksOn, About;
    forall i | 0 <= i < |s.tasks|
      ensures WorksOn(s.tasks[i]) != Some(s.cache.promises[p].key)
    {
      OtherTaskSame(s, s', key, s.cache.promises[p].key, i);
    }
  }

  lemma BlockedBefore(s: State, s': State, key: CacheKey, p: nat)
    requires OnlyKey(s, s', key) && Unset(s.cache, p) && InMap(s.cache, p) && s.cache.promises[p].key != key
    requires Blocked(s', p)
    ensures Blocked(s, p)
  {
    hide WorksOn, About, LockStuck, NeedsNoLock, IsHolder;
    var own := s.cache.promises[p].key;
    var h := StuckHolder(s', own, p);
    HolderBefore(s, s', key, own, p, h);
    HolderMakesStuck(s, own, p, h);
    forall i | 0 <= i < |s.tasks|
      ensures !NeedsNoLock(s.tasks[i], own, s.files)
    {
      OtherTaskSame(s, s', key, own, i);
      SameNeed(s, s', own, i);
    }
  }

  lemma HolderBefore(s: State, s': State, key: CacheKey, own: CacheKey, p: nat, h: nat)
    requires OnlyKey(s, s', key) && own != key && IsHolder(s', own, p, h)
    ensures IsHolder(s, own, p, h)
  {
    hide OnlyKeyInCache;
    OtherTaskSame(s, s', key, own, h);
  }

  lemma SameNeed(s: State, s': State, own: CacheKey, i: nat)
    requires i < |s.tasks| == |s'.tasks| && (own in s'.files <==> own in s.files)
    requires WorksOn(s.tasks[i]) == Some(own) ==> s'.tasks[i] == s.tasks[i]
    requires !NeedsNoLock(s'.tasks[i], own, s'.files)
    ensures !NeedsNoLock(s.tasks[i], own, s.files)
  {
  }

  /** Setting the promise of a pending key leaves fewer keys pending, and none lost. */
  lemma FewerPending(s: State, e: nat, k: CacheKey, steps: seq<Step>)
    requires Sound(s) && Evicting(s, e) && NoneLost(s, e) && k in Pending(s, e)
    requires Sets(s, steps, s.cache.executables[k])
    requires s.cache.promises[s.cache.executables[k]].key == k
    ensures var s' := Reached(s, steps);
      && Evicting(s', e) && s'.evictions == s.evictions && Pending(s', e) <= Pending(s, e) - {k} && NoneLost(s', e)
  {
    hide Sound, Lost, CanRun, Reached, About;
    var s' := Reached(s, steps);
    forall other | other in Pending(s', e)
      ensures other in Pending(s, e) - {k} && !Lost(s', s'.cache.executables[other])
    {
      var q := s.cache.executables[other];
      assert other in Pending(s, e) && other != k;
      UnsetIsInMap(s, q);
      KeyOfEntry(s, other);
      if Lost(s', q) {
        OthersNotLost(s, s', k, q);
      }
    }
  }

  lemma KeyOfEntry(s: State, key: CacheKey)
    requires KeysInv(s.cache) && key in s.cache.executables
    ensures s.cache.executables[key] < |s.cache.promises| && s.cache.promises[s.cache.executables[key]].key == key
  {
  }

  /** If no listed key has a lost promise, some run sets all the promises and changes no eviction. */
  lemma {:induction false} AllCanBeReady(s: State, e: nat) returns (steps: seq<Step>)
    requires Sound(s) && !s.crashed && Evicting(s, e) && NoneLost(s, e)
    ensures CanRun(s, steps) && var s' := Reached(s, steps);
      !s'.crashed && s'.evictions == s.evictions && Pending(s', e) == {}
    decreases |Pending(s, e)|
  {
    hide Sound, Lost, OnlyKeyInCache, About, Enabled, After;
    if Pending(s, e) == {} {
      steps := [];
    } else {
      var k := SomeElement(Pending(s, e));
      var p := s.cache.executables[k];
      UnsetIsInMap(s, p);
      KeyOfEntry(s, k);
      var i := HelperOf(s, p);
      var first := HelperSets(s, p, i);
      FewerPending(s, e, k, first);
      Smaller(Pending(Reached(s, first), e), Pending(s, e), k);
      RunKeepsSound(s, first);
      var rest := AllCanBeReady(Reached(s, first), e);
      Joined(s, first, rest);
      steps := first + rest;
    }
  }

  lemma HelperOf(s: State, p: nat) returns (i: nat)
    requires Sound(s) && Unset(s.cache, p) && !Lost(s, p)
    ensures Helps(s, p, i)
  {
    hide Inv, LockInv, WaitsInv, Lost, Helps;
    i := HasHelper(s, p);
  }

  lemma Smaller<T>(a: set<T>, b: set<T>, x: T)
    requires a <= b - {x} && x in b
    ensures |a| < |b|
  {
    assert |b - {x}| == |b| - 1;
    Subset(a, b - {x});
  }

  lemma Subset<T>(a: set<T>, b: set<T>)
    requires a <= b
    ensures |a| <= |b|
  {
    assert b == a + (b - a);
  }

  /** An eviction whose keys are all ready or gone ends after at most one more round. */
  lemma ReadyEnds(s: State, e: nat) returns (steps: seq<Step>)
    requires Sound(s) && !s.crashed && Evicting(s, e) && Pending(s, e) == {}
    ensures |steps| <= 2 && CanRun(s, steps) && !Evicting(Reached(s, steps), e)
  {
    hide Inv, LockInv, WaitsInv, KeysInv;
    if s.evictions[e].value == {} {
      steps := [EvictEnd(e)];
      OneStep(s, EvictEnd(e));
    } else {
      AllScanned(s, e);
      steps := [EvictRound(e), EvictEnd(e)];
      TwoSteps(s, EvictRound(e), EvictEnd(e));
    }
  }

  lemma AllScanned(s: State, e: nat)
    requires Sound(s) && Evicting(s, e) && Pending(s, e) == {}
    ensures Scan(s.cache, s.evictions[e].value).1 == {}
  {
    hide LockInv, WaitsInv, EntriesInv, Conserved, OwnResults, CallersInv, NoOrphans;
    forall k | k in s.evictions[e].value && k in s.cache.executables
      ensures Ready(s.cache, k)
    {
      assert k !in Pending(s, e);
    }
  }

  ghost predicate EndedBy(s: State, steps: seq<Step>, e: nat) {
    CanRun(s, steps) && !Evicting(Reached(s, steps), e)
  }

  /** A running eviction can end if and only if no key that it waits for has a lost promise. */
  lemma EvictionEndsIff(s: State, e: nat)
    requires Sound(s) && !s.crashed && Evicting(s, e)
    ensures (exists steps :: EndedBy(s, steps, e)) <==> NoneLost(s, e)
  {
    hide Sound, Lost, CanRun, Reached, Enabled, After;
    if NoneLost(s, e) {
      var first := AllCanBeReady(s, e);
      RunKeepsSound(s, first);
      var rest := ReadyEnds(Reached(s, first), e);
      Joined(s, first, rest);
      assert EndedBy(s, first + rest, e);
    } else {
      var k :| k in Pending(s, e) && Lost(s, s.cache.executables[k]);
      UnsetIsInMap(s, s.cache.executables[k]);
      KeyOfEntry(s, k);
      forall steps | CanRun(s, steps)
        ensures !EndedBy(s, steps, e)
      {
        EvictionNeverEnds(s, steps, s.cache.executables[k], e);
      }
    }
  }

  /** The state in which an eviction waits for the orphaned promise of the first request. */
  ghost predicate WaitsForOrphan(s: State, key: CacheKey) {
    && Unset(s.cache, 0) && s.cache.promises[0].key == key && Dead(s, 0)
    && Evicting(s, 0) && key in s.evictions[0].value
  }

  lemma AbandonedRequest(s: State, r: Request)
    requires IsStart(s) && WellFormed(r) && Annotates(r.inputs)
    ensures var t := After(s, Issue(r));
      && Enabled(t, AdapterFails(0)) && Enabled(After(t, AdapterFails(0)), EvictBegin)
      && WaitsForOrphan(After(After(t, AdapterFails(0)), EvictBegin), MiddleKey(r.shapeless, r.options, OwnMetadata(r)))
  {
    hide Ask, MiddleKey, WellFormed, Annotates;
    FirstRequest(s.cache, r);
  }

  /** From the start: whenever adapters cannot be made for a first annotated request, its promise is
      orphaned, and an eviction that begins then waits for it in every continuation. */
  lemma AbandonedRequestBlocksEviction(s: State, r: Request, more: seq<Step>)
    requires IsStart(s) && WellFormed(r) && Annotates(r.inputs)
    ensures var steps := [Issue(r), AdapterFails(0), EvictBegin];
      && CanRun(s, steps) && WaitsForOrphan(Reached(s, steps), MiddleKey(r.shapeless, r.options, OwnMetadata(r)))
      && (CanRun(Reached(s, steps), more) ==>
        Dead(Reached(Reached(s, steps), more), 0) && Evicting(Reached(Reached(s, steps), more), 0))
  {
    hide Ask, MiddleKey, WellFormed, Annotates, Inv, LockInv, WaitsInv, After, Enabled, Dead, Blocked;
    var steps := [Issue(r), AdapterFails(0), EvictBegin];
    AbandonedRequest(s, r);
    TwoSteps(s, Issue(r), AdapterFails(0));
    assert steps[..2] == [Issue(r), AdapterFails(0)] && steps[..|steps| - 1] == steps[..2];
    assert CanRun(s, steps);
    StartIsSound(s);
    RunKeepsSound(s, steps);
    var t := Reached(s, steps);
    assert t == After(Reached(s, steps[..2]), EvictBegin);
    if CanRun(t, more) {
      DeadStays(t, more, 0);
      EvictionNeverEnds(t, more, 0, 0);
    }
  }
}
