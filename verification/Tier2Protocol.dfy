/** The tier-2 compilation cache shared by processes: a file per key, an exclusive lock per key, a
    double-checked read, and a write to a temporary file that is renamed into place. Tasks of any
    number of processes interleave freely; a task may die at any point, and loads, compilations and
    writes may fail. */
module Tier2Protocol {
  import opened Prelude
  import Fingerprints

  type Key = Fingerprints.CacheKey

  /** An executable remembers its key and the task whose compilation produced it. */
  datatype Executable = Executable(key: Key, compiledBy: nat)

  datatype Content = Incomplete | Complete(exe: Executable)

  /** Where a task is in reading tier 2 or compiling. Check2 to Written hold the key's lock. A task that
      has compiled looks its tier-1 entry up: it is `Ready` with that entry's executable, or `Waiting` for
      the task that is to set the promise of an entry made anew. */
  datatype Stage =
    | Check1
    | WaitLock
    | Check2
    | Compiling
    | Compiled(exe: Executable)
    | Waiting(exe: Executable, other: nat)
    | Ready(exe: Executable)
    | Writing(exe: Executable)
    | Filled(exe: Executable)
    | Written(exe: Executable)
    | Done(exe: Executable)
    | Failed
    | Dead

  /** `files` and `temps` are the cache files by key and the temporary files by writer; `compiles` and
      `failures` count, by key, successful compilations, and loads or writes that came to nothing. */
  datatype State = State(
    stages: seq<Stage>,
    locks: map<Key, nat>,
    files: map<Key, Content>,
    temps: map<nat, Content>,
    compiles: multiset<Key>,
    failures: multiset<Key>)

  function Init(keys: seq<Key>): State {
    State(seq(|keys|, _ => Check1), map[], map[], map[], multiset{}, multiset{})
  }

  predicate Holding(stage: Stage) {
    || stage.Check2? || stage.Compiling? || stage.Compiled? || stage.Waiting? || stage.Ready?
    || stage.Writing? || stage.Filled? || stage.Written?
  }

  /** The task has compiled, and its result has not reached the cache file yet. */
  predicate Unsaved(stage: Stage) {
    stage.Compiled? || stage.Waiting? || stage.Ready? || stage.Writing? || stage.Filled?
  }

  predicate HasExecutable(stage: Stage) {
    Unsaved(stage) || stage.Written? || stage.Done?
  }

  predicate Ended(stage: Stage) {
    stage.Done? || stage.Failed? || stage.Dead?
  }

  // ---------- Steps ----------

  function Move(s: State, i: nat, stage: Stage): State
    requires i < |s.stages|
  {
    s.(stages := s.stages[i := stage])
  }

  /** Leaves the critical section: the lock file is unlocked and closed. */
  function Leave(s: State, i: nat, key: Key, stage: Stage): State
    requires i < |s.stages|
  {
    Move(s, i, stage).(locks := s.locks - {key})
  }

  function CountFailure(s: State, key: Key): State {
    s.(failures := s.failures + multiset{key})
  }

  ghost predicate HasFile(s: State, key: Key) {
    key in s.files && s.files[key].Complete?
  }

  /** A read without the lock finds the file and loads it. */
  ghost predicate Load(s: State, s': State, i: nat, key: Key)
    requires i < |s.stages|
  {
    s.stages[i] == Check1 && HasFile(s, key) && s' == Move(s, i, Done(s.files[key].exe))
  }

  /** A read without the lock finds no file, or cannot load it. */
  ghost predicate Miss(s: State, s': State, i: nat, key: Key)
    requires i < |s.stages|
  {
    s.stages[i] == Check1 && s' == Move(s, i, WaitLock)
  }

  /** The blocking wait for the key's lock ends. */
  ghost predicate Acquire(s: State, s': State, i: nat, key: Key)
    requires i < |s.stages|
  {
    s.stages[i] == WaitLock && key !in s.locks && s' == Move(s, i, Check2).(locks := s.locks[key := i])
  }

  /** The second read, under the lock, succeeds: somebody else has compiled meanwhile. */
  ghost predicate LoadLocked(s: State, s': State, i: nat, key: Key)
    requires i < |s.stages|
  {
    s.stages[i] == Check2 && HasFile(s, key) && s' == Leave(s, i, key, Done(s.files[key].exe))
  }

  /** The second read finds no file. */
  ghost predicate MissLocked(s: State, s': State, i: nat, key: Key)
    requires i < |s.stages|
  {
    s.stages[i] == Check2 && key !in s.files && s' == Move(s, i, Compiling)
  }

  /** The second read finds a file that cannot be loaded. */
  ghost predicate LoadLockedFails(s: State, s': State, i: nat, key: Key)
    requires i < |s.stages|
  {
    s.stages[i] == Check2 && key in s.files && s' == CountFailure(Move(s, i, Compiling), key)
  }

  /** A compilation succeeds. */
  ghost predicate Compile(s: State, s': State, i: nat, key: Key)
    requires i < |s.stages|
  {
    s.stages[i] == Compiling && s' == Move(s, i, Compiled(Executable(key, i))).(compiles := s.compiles + multiset{key})
  }

  /** A compilation fails: the task returns, and its lock is released. */
  ghost predicate CompileFails(s: State, s': State, i: nat, key: Key)
    requires i < |s.stages|
  {
    s.stages[i] == Compiling && s' == Leave(s, i, key, Failed)
  }

  /** The task's tier-1 entry is still there, with its own executable. */
  ghost predicate FindOwn(s: State, s': State, i: nat, key: Key)
    requires i < |s.stages|
  {
    s.stages[i].Compiled? && s' == Move(s, i, Ready(s.stages[i].exe))
  }

  /** The entry has been evicted and made again: the task waits for what another one will set. */
  ghost predicate FindOther(keys: seq<Key>, s: State, s': State, i: nat, other: nat)
    requires i < |s.stages| == |keys|
  {
    && s.stages[i].Compiled? && other < |keys| && other != i && keys[other] == keys[i]
    && s' == Move(s, i, Waiting(s.stages[i].exe, other))
  }

  /** The promise is set with the other task's executable. */
  ghost predicate EndWait(s: State, s': State, i: nat, key: Key)
    requires i < |s.stages|
  {
    && s.stages[i].Waiting? && s.stages[i].other < |s.stages| && HasExecutable(s.stages[s.stages[i].other])
    && s' == Move(s, i, Ready(s.stages[s.stages[i].other].exe))
  }

  /** The promise is set with an error, or broken by the end of its task: nothing is written. */
  ghost predicate WaitFails(s: State, s': State, i: nat, key: Key)
    requires i < |s.stages|
  {
    && s.stages[i].Waiting? && s.stages[i].other < |s.stages|
    && (s.stages[s.stages[i].other].Failed? || s.stages[s.stages[i].other].Dead?)
    && s' == CountFailure(Leave(s, i, key, Done(s.stages[i].exe)), key)
  }

  /** A temporary file is created. */
  ghost predicate StartWrite(s: State, s': State, i: nat, key: Key)
    requires i < |s.stages|
  {
    s.stages[i].Ready? && s' == Move(s, i, Writing(s.stages[i].exe)).(temps := s.temps[i := Incomplete])
  }

  /** The tier-1 entry was evicted meanwhile: the task returns without writing. */
  ghost predicate SkipWrite(s: State, s': State, i: nat, key: Key)
    requires i < |s.stages|
  {
    s.stages[i].Compiled? && s' == CountFailure(Leave(s, i, key, Done(s.stages[i].exe)), key)
  }

  /** Serializing, or finding a unique temporary name, fails: nothing is cleaned up. */
  ghost predicate WriteFailsEarly(s: State, s': State, i: nat, key: Key)
    requires i < |s.stages|
  {
    s.stages[i].Ready? && s' == CountFailure(Move(s, i, Written(s.stages[i].exe)), key)
  }

  /** The temporary file is written and closed. */
  ghost predicate Fill(s: State, s': State, i: nat, key: Key)
    requires i < |s.stages|
  {
    s.stages[i].Writing? && s' == Move(s, i, Filled(s.stages[i].exe)).(temps := s.temps[i := Complete(s.stages[i].exe)])
  }

  /** The temporary file becomes the cache file. */
  ghost predicate Rename(s: State, s': State, i: nat, key: Key)
    requires i < |s.stages|
  {
    s.stages[i].Filled? && i in s.temps &&
    s' == Move(s, i, Written(s.stages[i].exe)).(temps := s.temps - {i}, files := s.files[key := s.temps[i]])
  }

  /** After a failed write: both deletions may fail as well. */
  function CleanedUp(s: State, i: nat, key: Key, tempStays: bool, fileStays: bool): State {
    s.(temps := if tempStays then s.temps else s.temps - {i}, files := if fileStays then s.files else s.files - {key})
  }

  /** Creating, writing, closing or renaming fails: temporary file and cache file are removed, if possible. */
  ghost predicate WriteFails(s: State, s': State, i: nat, key: Key)
    requires i < |s.stages|
  {
    && (s.stages[i].Ready? || s.stages[i].Writing? || s.stages[i].Filled?)
    && exists tempStays, fileStays ::
         s' == CountFailure(Move(CleanedUp(s, i, key, tempStays, fileStays), i, Written(s.stages[i].exe)), key)
  }

  /** The lock is released as soon as the write is over. */
  ghost predicate Release(s: State, s': State, i: nat, key: Key)
    requires i < |s.stages|
  {
    s.stages[i].Written? && s' == Leave(s, i, key, Done(s.stages[i].exe))
  }

  /** A process dies outside the critical section. */
  ghost predicate DieUnlocked(s: State, s': State, i: nat, key: Key)
    requires i < |s.stages|
  {
    !Ended(s.stages[i]) && !Holding(s.stages[i]) && s' == Move(s, i, Dead)
  }

  /** A process dies inside the critical section: the system drops its lock. */
  ghost predicate DieLocked(s: State, s': State, i: nat, key: Key)
    requires i < |s.stages|
  {
    Holding(s.stages[i]) && !Unsaved(s.stages[i]) && s' == Leave(s, i, key, Dead)
  }

  /** A process dies with a result it has not saved; its temporary file may stay behind. */
  ghost predicate DieUnsaved(s: State, s': State, i: nat, key: Key)
    requires i < |s.stages|
  {
    Unsaved(s.stages[i]) && s' == CountFailure(Leave(s, i, key, Dead), key)
  }

  /** Looking for the executable in the cache file. */
  ghost predicate Reads(s: State, s': State, i: nat, key: Key)
    requires i < |s.stages|
  {
    || Load(s, s', i, key) || Miss(s, s', i, key) || Acquire(s, s', i, key)
    || LoadLocked(s, s', i, key) || MissLocked(s, s', i, key) || LoadLockedFails(s, s', i, key)
  }

  /** Compiling it, and deciding what to do with the result. */
  ghost predicate Compiles(s: State, s': State, i: nat, key: Key)
    requires i < |s.stages|
  {
    || Compile(s, s', i, key) || CompileFails(s, s', i, key) || FindOwn(s, s', i, key)
    || SkipWrite(s, s', i, key)
  }

  /** Waiting for an entry that was made anew. */
  ghost predicate Waits(keys: seq<Key>, s: State, s': State, i: nat)
    requires i < |s.stages| == |keys|
  {
    || (exists other: nat :: FindOther(keys, s, s', i, other))
    || EndWait(s, s', i, keys[i]) || WaitFails(s, s', i, keys[i])
  }

  /** Writing it to the cache file. */
  ghost predicate Saves(s: State, s': State, i: nat, key: Key)
    requires i < |s.stages|
  {
    || StartWrite(s, s', i, key) || WriteFailsEarly(s, s', i, key) || Fill(s, s', i, key)
    || Rename(s, s', i, key) || WriteFails(s, s', i, key) || Release(s, s', i, key)
  }

  ghost predicate Dies(s: State, s': State, i: nat, key: Key)
    requires i < |s.stages|
  {
    || DieUnlocked(s, s', i, key) || DieLocked(s, s', i, key) || DieUnsaved(s, s', i, key)
  }

  ghost predicate StepOf(keys: seq<Key>, s: State, s': State, i: nat)
    requires i < |s.stages| == |keys|
  {
    || Reads(s, s', i, keys[i]) || Compiles(s, s', i, keys[i]) || Waits(keys, s, s', i)
    || Saves(s, s', i, keys[i]) || Dies(s, s', i, keys[i])
  }

  /** keys[i] is the key of task i. */
  ghost predicate Next(keys: seq<Key>, s: State, s': State) {
    |s.stages| == |keys| && exists i: nat :: i < |keys| && StepOf(keys, s, s', i)
  }

  ghost predicate Run(keys: seq<Key>, trace: seq<State>) {
    && 0 < |trace| && trace[0] == Init(keys)
    && forall i :: 0 <= i < |trace| - 1 ==> Next(keys, trace[i], trace[i + 1])
  }

  // ---------- What every step keeps ----------

  ghost predicate WaitsForSame(keys: seq<Key>, i: nat, other: nat)
    requires i < |keys|
  {
    other < |keys| && other != i && keys[other] == keys[i]
  }

  /** The lock of a key is held by exactly the task that is inside the key's critical section, and a task
      that waits does so for another one of its key. */
  ghost predicate LocksInv(keys: seq<Key>, s: State) {
    && |s.stages| == |keys|
    && (forall k :: k in s.locks ==> s.locks[k] < |keys| && keys[s.locks[k]] == k && Holding(s.stages[s.locks[k]]))
    && (forall i :: 0 <= i < |keys| && Holding(s.stages[i]) ==> keys[i] in s.locks && s.locks[keys[i]] == i)
    && (forall i :: 0 <= i < |keys| && s.stages[i].Waiting? ==> WaitsForSame(keys, i, s.stages[i].other))
  }

  /** Nothing incomplete is ever visible under a cache file's own name. */
  ghost predicate FilesInv(keys: seq<Key>, s: State) {
    && |s.stages| == |keys|
    && (forall k :: k in s.files ==> s.files[k].Complete? && s.files[k].exe.key == k)
    && (forall i :: 0 <= i < |keys| && s.stages[i].Filled? ==> i in s.temps && s.temps[i] == Complete(s.stages[i].exe))
    && (forall i :: 0 <= i < |keys| && HasExecutable(s.stages[i]) ==> s.stages[i].exe.key == keys[i])
  }

  ghost predicate HolderCompiling(s: State, k: Key) {
    k in s.locks && s.locks[k] < |s.stages| && s.stages[s.locks[k]].Compiling?
  }

  ghost predicate HolderUnsaved(s: State, k: Key) {
    k in s.locks && s.locks[k] < |s.stages| && Unsaved(s.stages[s.locks[k]])
  }

  /** Compilations of a key outnumber its failures by at most one, and by none while nothing was
      saved or is about to be. */
  ghost predicate CountsInv(s: State, k: Key) {
    && s.compiles[k] <= s.failures[k] + 1
    && (HolderCompiling(s, k) ==> s.compiles[k] <= s.failures[k])
    && (k !in s.files && !HolderUnsaved(s, k) ==> s.compiles[k] <= s.failures[k])
  }

  /** Without failures, whoever has an executable of a key has the one in the cache file, or holds the
      lock and is still writing it. */
  ghost predicate OriginInv(keys: seq<Key>, s: State, k: Key)
    requires |s.stages| == |keys|
  {
    s.failures[k] == 0 ==>
      && (HolderCompiling(s, k) || HolderUnsaved(s, k) ==> k !in s.files)
      && (forall i :: 0 <= i < |keys| && keys[i] == k && HasExecutable(s.stages[i]) ==>
            if k in s.files then s.files[k] == Complete(s.stages[i].exe) else HolderUnsaved(s, k) && s.locks[k] == i)
  }

  ghost predicate Sound(keys: seq<Key>, s: State, k: Key) {
    LocksInv(keys, s) && FilesInv(keys, s) && CountsInv(s, k) && OriginInv(keys, s, k)
  }

  /** Leaving the critical section gives up the key's lock and nothing else. */
  lemma LeaveKeepsLocks(keys: seq<Key>, s: State, s': State, i: nat, stage: Stage)
    requires LocksInv(keys, s) && i < |keys| && Holding(s.stages[i]) && !Holding(stage)
    requires s'.stages == s.stages[i := stage] && s'.locks == s.locks - {keys[i]} && !stage.Waiting?
    ensures LocksInv(keys, s')
  {
  }

  lemma AcquireKeepsLocks(keys: seq<Key>, s: State, s': State, i: nat)
    requires LocksInv(keys, s) && i < |keys| && Acquire(s, s', i, keys[i])
    ensures LocksInv(keys, s')
  {
  }

  lemma LoadKeeps(keys: seq<Key>, s: State, s': State, i: nat, k: Key)
    requires Sound(keys, s, k) && i < |keys| && Load(s, s', i, keys[i])
    ensures Sound(keys, s', k)
  {
  }

  lemma MissKeeps(keys: seq<Key>, s: State, s': State, i: nat, k: Key)
    requires Sound(keys, s, k) && i < |keys| && Miss(s, s', i, keys[i])
    ensures Sound(keys, s', k)
  {
  }

  lemma AcquireKeepsFiles(keys: seq<Key>, s: State, s': State, i: nat)
    requires FilesInv(keys, s) && i < |keys| && Acquire(s, s', i, keys[i])
    ensures FilesInv(keys, s')
  {
  }

  lemma AcquireKeepsCounts(keys: seq<Key>, s: State, s': State, i: nat, k: Key)
    requires Sound(keys, s, k) && i < |keys| && Acquire(s, s', i, keys[i])
    ensures CountsInv(s', k)
  {
  }

  lemma AcquireKeepsOrigin(keys: seq<Key>, s: State, s': State, i: nat, k: Key)
    requires Sound(keys, s, k) && i < |keys| && Acquire(s, s', i, keys[i])
    ensures |s'.stages| == |keys| && OriginInv(keys, s', k)
  {
  }

  lemma AcquireKeeps(keys: seq<Key>, s: State, s': State, i: nat, k: Key)
    requires Sound(keys, s, k) && i < |keys| && Acquire(s, s', i, keys[i])
    ensures Sound(keys, s', k)
  {
    hide LocksInv, FilesInv, CountsInv, OriginInv, Acquire;
    AcquireKeepsLocks(keys, s, s', i);
    AcquireKeepsFiles(keys, s, s', i);
    AcquireKeepsCounts(keys, s, s', i, k);
    AcquireKeepsOrigin(keys, s, s', i, k);
  }

  lemma LoadLockedKeeps(keys: seq<Key>, s: State, s': State, i: nat, k: Key)
    requires Sound(keys, s, k) && i < |keys| && LoadLocked(s, s', i, keys[i])
    ensures Sound(keys, s', k)
  {
    LeaveKeepsLocks(keys, s, s', i, s'.stages[i]);
  }

  lemma MissLockedKeepsLocks(keys: seq<Key>, s: State, s': State, i: nat)
    requires LocksInv(keys, s) && i < |keys| && MissLocked(s, s', i, keys[i])
    ensures LocksInv(keys, s')
  {
  }

  lemma MissLockedKeepsFiles(keys: seq<Key>, s: State, s': State, i: nat)
    requires FilesInv(keys, s) && i < |keys| && MissLocked(s, s', i, keys[i])
    ensures FilesInv(keys, s')
  {
  }

  lemma MissLockedKeepsCounts(keys: seq<Key>, s: State, s': State, i: nat, k: Key)
    requires Sound(keys, s, k) && i < |keys| && MissLocked(s, s', i, keys[i])
    ensures CountsInv(s', k)
  {
  }

  lemma MissLockedKeepsOrigin(keys: seq<Key>, s: State, s': State, i: nat, k: Key)
    requires Sound(keys, s, k) && i < |keys| && MissLocked(s, s', i, keys[i])
    ensures |s'.stages| == |keys| && OriginInv(keys, s', k)
  {
  }

  lemma MissLockedKeeps(keys: seq<Key>, s: State, s': State, i: nat, k: Key)
    requires Sound(keys, s, k) && i < |keys| && MissLocked(s, s', i, keys[i])
    ensures Sound(keys, s', k)
  {
    hide LocksInv, FilesInv, CountsInv, OriginInv, MissLocked;
    MissLockedKeepsLocks(keys, s, s', i);
    MissLockedKeepsFiles(keys, s, s', i);
    MissLockedKeepsCounts(keys, s, s', i, k);
    MissLockedKeepsOrigin(keys, s, s', i, k);
  }

  lemma LoadLockedFailsKeeps(keys: seq<Key>, s: State, s': State, i: nat, k: Key)
    requires Sound(keys, s, k) && i < |keys| && LoadLockedFails(s, s', i, keys[i])
    ensures Sound(keys, s', k)
  {
  }

  lemma CompileKeeps(keys: seq<Key>, s: State, s': State, i: nat, k: Key)
    requires Sound(keys, s, k) && i < |keys| && Compile(s, s', i, keys[i])
    ensures Sound(keys, s', k)
  {
  }

  lemma CompileFailsKeeps(keys: seq<Key>, s: State, s': State, i: nat, k: Key)
    requires Sound(keys, s, k) && i < |keys| && CompileFails(s, s', i, keys[i])
    ensures Sound(keys, s', k)
  {
    LeaveKeepsLocks(keys, s, s', i, s'.stages[i]);
  }

  lemma FindOwnKeeps(keys: seq<Key>, s: State, s': State, i: nat, k: Key)
    requires Sound(keys, s, k) && i < |keys| && FindOwn(s, s', i, keys[i])
    ensures Sound(keys, s', k)
  {
  }

  lemma FindOtherKeeps(keys: seq<Key>, s: State, s': State, i: nat, other: nat, k: Key)
    requires Sound(keys, s, k) && i < |keys| && FindOther(keys, s, s', i, other)
    ensures Sound(keys, s', k)
  {
  }

  /** While a task with an unsaved result holds the lock, nobody else has an executable of the key, unless
      something has failed. */
  lemma NobodyElseHas(keys: seq<Key>, s: State, i: nat, other: nat)
    requires i < |keys| && Sound(keys, s, keys[i]) && Unsaved(s.stages[i]) && WaitsForSame(keys, i, other)
    ensures s.failures[keys[i]] == 0 ==> !HasExecutable(s.stages[other])
  {
    assert Holding(s.stages[i]);
    assert HolderUnsaved(s, keys[i]);
  }

  lemma EndWaitKeeps(keys: seq<Key>, s: State, s': State, i: nat, k: Key)
    requires Sound(keys, s, k) && i < |keys| && EndWait(s, s', i, keys[i])
    ensures Sound(keys, s', k)
  {
    if k == keys[i] {
      NobodyElseHas(keys, s, i, s.stages[i].other);
    }
  }

  lemma WaitFailsKeeps(keys: seq<Key>, s: State, s': State, i: nat, k: Key)
    requires Sound(keys, s, k) && i < |keys| && WaitFails(s, s', i, keys[i])
    ensures Sound(keys, s', k)
  {
    LeaveKeepsLocks(keys, s, s', i, s'.stages[i]);
  }

  lemma StartWriteKeeps(keys: seq<Key>, s: State, s': State, i: nat, k: Key)
    requires Sound(keys, s, k) && i < |keys| && StartWrite(s, s', i, keys[i])
    ensures Sound(keys, s', k)
  {
  }

  lemma SkipWriteKeeps(keys: seq<Key>, s: State, s': State, i: nat, k: Key)
    requires Sound(keys, s, k) && i < |keys| && SkipWrite(s, s', i, keys[i])
    ensures Sound(keys, s', k)
  {
    LeaveKeepsLocks(keys, s, s', i, s'.stages[i]);
  }

  lemma WriteFailsEarlyKeeps(keys: seq<Key>, s: State, s': State, i: nat, k: Key)
    requires Sound(keys, s, k) && i < |keys| && WriteFailsEarly(s, s', i, keys[i])
    ensures Sound(keys, s', k)
  {
  }

  lemma FillKeeps(keys: seq<Key>, s: State, s': State, i: nat, k: Key)
    requires Sound(keys, s, k) && i < |keys| && Fill(s, s', i, keys[i])
    ensures Sound(keys, s', k)
  {
  }

  lemma RenameKeeps(keys: seq<Key>, s: State, s': State, i: nat, k: Key)
    requires Sound(keys, s, k) && i < |keys| && Rename(s, s', i, keys[i])
    ensures Sound(keys, s', k)
  {
  }

  lemma WriteFailsKeeps(keys: seq<Key>, s: State, s': State, i: nat, k: Key)
    requires Sound(keys, s, k) && i < |keys| && WriteFails(s, s', i, keys[i])
    ensures Sound(keys, s', k)
  {
  }

  lemma ReleaseKeeps(keys: seq<Key>, s: State, s': State, i: nat, k: Key)
    requires Sound(keys, s, k) && i < |keys| && Release(s, s', i, keys[i])
    ensures Sound(keys, s', k)
  {
    LeaveKeepsLocks(keys, s, s', i, s'.stages[i]);
  }

  lemma DieUnlockedKeeps(keys: seq<Key>, s: State, s': State, i: nat, k: Key)
    requires Sound(keys, s, k) && i < |keys| && DieUnlocked(s, s', i, keys[i])
    ensures Sound(keys, s', k)
  {
  }

  lemma DieLockedKeeps(keys: seq<Key>, s: State, s': State, i: nat, k: Key)
    requires Sound(keys, s, k) && i < |keys| && DieLocked(s, s', i, keys[i])
    ensures Sound(keys, s', k)
  {
    LeaveKeepsLocks(keys, s, s', i, s'.stages[i]);
  }

  lemma DieUnsavedKeeps(keys: seq<Key>, s: State, s': State, i: nat, k: Key)
    requires Sound(keys, s, k) && i < |keys| && DieUnsaved(s, s', i, keys[i])
    ensures Sound(keys, s', k)
  {
    LeaveKeepsLocks(keys, s, s', i, s'.stages[i]);
  }

  lemma ReadsKeep(keys: seq<Key>, s: State, s': State, i: nat, k: Key)
    requires Sound(keys, s, k) && i < |keys| == |s.stages| && Reads(s, s', i, keys[i])
    ensures Sound(keys, s', k)
  {
    hide Sound, Load, Miss, Acquire, LoadLocked, MissLocked, LoadLockedFails;
    var key := keys[i];
    if Load(s, s', i, key) {
      LoadKeeps(keys, s, s', i, k);
    } else if Miss(s, s', i, key) {
      MissKeeps(keys, s, s', i, k);
    } else if Acquire(s, s', i, key) {
      AcquireKeeps(keys, s, s', i, k);
    } else if LoadLocked(s, s', i, key) {
      LoadLockedKeeps(keys, s, s', i, k);
    } else if MissLocked(s, s', i, key) {
      MissLockedKeeps(keys, s, s', i, k);
    } else {
      LoadLockedFailsKeeps(keys, s, s', i, k);
    }
  }

  lemma CompilesKeep(keys: seq<Key>, s: State, s': State, i: nat, k: Key)
    requires Sound(keys, s, k) && i < |keys| == |s.stages| && Compiles(s, s', i, keys[i])
    ensures Sound(keys, s', k)
  {
    hide Sound, Compile, CompileFails, FindOwn, SkipWrite;
    var key := keys[i];
    if Compile(s, s', i, key) {
      CompileKeeps(keys, s, s', i, k);
    } else if CompileFails(s, s', i, key) {
      CompileFailsKeeps(keys, s, s', i, k);
    } else if FindOwn(s, s', i, key) {
      FindOwnKeeps(keys, s, s', i, k);
    } else {
      SkipWriteKeeps(keys, s, s', i, k);
    }
  }

  lemma SavesKeep(keys: seq<Key>, s: State, s': State, i: nat, k: Key)
    requires Sound(keys, s, k) && i < |keys| == |s.stages| && Saves(s, s', i, keys[i])
    ensures Sound(keys, s', k)
  {
    hide Sound, StartWrite, WriteFailsEarly, Fill, Rename, WriteFails, Release;
    var key := keys[i];
    if StartWrite(s, s', i, key) {
      StartWriteKeeps(keys, s, s', i, k);
    } else if WriteFailsEarly(s, s', i, key) {
      WriteFailsEarlyKeeps(keys, s, s', i, k);
    } else if Fill(s, s', i, key) {
      FillKeeps(keys, s, s', i, k);
    } else if Rename(s, s', i, key) {
      RenameKeeps(keys, s, s', i, k);
    } else if WriteFails(s, s', i, key) {
      WriteFailsKeeps(keys, s, s', i, k);
    } else {
      ReleaseKeeps(keys, s, s', i, k);
    }
  }

  lemma DiesKeep(keys: seq<Key>, s: State, s': State, i: nat, k: Key)
    requires Sound(keys, s, k) && i < |keys| == |s.stages| && Dies(s, s', i, keys[i])
    ensures Sound(keys, s', k)
  {
    hide Sound, DieUnlocked, DieLocked, DieUnsaved;
    var key := keys[i];
    if DieUnlocked(s, s', i, key) {
      DieUnlockedKeeps(keys, s, s', i, k);
    } else if DieLocked(s, s', i, key) {
      DieLockedKeeps(keys, s, s', i, k);
    } else {
      DieUnsavedKeeps(keys, s, s', i, k);
    }
  }

  lemma WaitsKeep(keys: seq<Key>, s: State, s': State, i: nat, k: Key)
    requires Sound(keys, s, k) && i < |keys| == |s.stages| && Waits(keys, s, s', i)
    ensures Sound(keys, s', k)
  {
    hide Sound, FindOther, EndWait, WaitFails;
    if other: nat :| FindOther(keys, s, s', i, other) {
      FindOtherKeeps(keys, s, s', i, other, k);
    } else if EndWait(s, s', i, keys[i]) {
      EndWaitKeeps(keys, s, s', i, k);
    } else {
      WaitFailsKeeps(keys, s, s', i, k);
    }
  }

  lemma StepKeeps(keys: seq<Key>, s: State, s': State, i: nat, k: Key)
    requires Sound(keys, s, k) && i < |keys| && StepOf(keys, s, s', i)
    ensures Sound(keys, s', k)
  {
    hide Sound, Reads, Compiles, Waits, Saves, Dies;
    assert |s.stages| == |keys| by { SoundLength(keys, s, k); }
    if Reads(s, s', i, keys[i]) {
      ReadsKeep(keys, s, s', i, k);
    } else if Compiles(s, s', i, keys[i]) {
      CompilesKeep(keys, s, s', i, k);
    } else if Waits(keys, s, s', i) {
      WaitsKeep(keys, s, s', i, k);
    } else if Saves(s, s', i, keys[i]) {
      SavesKeep(keys, s, s', i, k);
    } else {
      DiesKeep(keys, s, s', i, k);
    }
  }

  lemma SoundLength(keys: seq<Key>, s: State, k: Key)
    requires Sound(keys, s, k)
    ensures |s.stages| == |keys|
  {
  }

  lemma {:induction false} RunIsSound(keys: seq<Key>, trace: seq<State>, n: nat, k: Key)
    requires Run(keys, trace) && n < |trace|
    ensures Sound(keys, trace[n], k)
  {
    if n == 0 {
    } else {
      RunIsSound(keys, trace, n - 1, k);
      assert Next(keys, trace[n - 1], trace[n - 1 + 1]);
      var i: nat :| i < |keys| && StepOf(keys, trace[n - 1], trace[n], i);
      StepKeeps(keys, trace[n - 1], trace[n], i, k);
    }
  }

  // ---------- Safety over whole runs ----------

  /** No two tasks are ever inside the critical section of the same key. */
  lemma MutualExclusion(keys: seq<Key>, trace: seq<State>, n: nat, i: nat, j: nat)
    requires Run(keys, trace) && n < |trace| && i < |keys| && j < |keys| && keys[i] == keys[j]
    ensures |trace[n].stages| == |keys|
    ensures Holding(trace[n].stages[i]) && Holding(trace[n].stages[j]) ==> i == j
  {
    RunIsSound(keys, trace, n, keys[i]);
  }

  /** A reader finds a cache file absent or complete, and complete means compiled for its key. */
  lemma VisibleFilesAreComplete(keys: seq<Key>, trace: seq<State>, n: nat, k: Key)
    requires Run(keys, trace) && n < |trace| && k in trace[n].files
    ensures trace[n].files[k].Complete? && trace[n].files[k].exe.key == k
  {
    RunIsSound(keys, trace, n, k);
  }

  /** A key is compiled at most once more than its loads and writes fail, in every interleaving. */
  lemma CompilesAreBounded(keys: seq<Key>, trace: seq<State>, n: nat, k: Key)
    requires Run(keys, trace) && n < |trace|
    ensures trace[n].compiles[k] <= 1 + trace[n].failures[k]
  {
    RunIsSound(keys, trace, n, k);
  }

  /** Without failures a key is compiled at most once, and all tasks that end up with an executable
      of the key have the one that this compilation produced. */
  lemma OneCompilationServesAll(keys: seq<Key>, trace: seq<State>, n: nat, i: nat, j: nat)
    requires Run(keys, trace) && n < |trace| && i < |keys| && j < |keys| && keys[i] == keys[j]
    requires trace[n].failures[keys[i]] == 0 && |trace[n].stages| == |keys|
    requires HasExecutable(trace[n].stages[i]) && HasExecutable(trace[n].stages[j])
    ensures trace[n].compiles[keys[i]] <= 1
    ensures trace[n].stages[i].exe == trace[n].stages[j].exe && trace[n].stages[i].exe.key == keys[i]
  {
    RunIsSound(keys, trace, n, keys[i]);
  }

  // ---------- Progress ----------

  function StagesLeft(stage: Stage): nat {
    match stage
    case Check1 => 10
    case WaitLock => 9
    case Check2 => 8
    case Compiling => 7
    case Compiled(_) => 6
    case Waiting(_, _) => 5
    case Ready(_) => 4
    case Writing(_) => 3
    case Filled(_) => 2
    case Written(_) => 1
    case _ => 0
  }

  /** Only task i moved, and it moved on. */
  ghost predicate Advances(s: State, s': State, i: nat) {
    && |s'.stages| == |s.stages| && i < |s.stages|
    && s'.stages == s.stages[i := s'.stages[i]]
    && StagesLeft(s'.stages[i]) < StagesLeft(s.stages[i])
  }

  lemma MoveAdvances(s: State, s': State, i: nat, stage: Stage)
    requires i < |s.stages| && s'.stages == s.stages[i := stage] && StagesLeft(stage) < StagesLeft(s.stages[i])
    ensures Advances(s, s', i)
  {
  }

  lemma ReadsAdvances(s: State, s': State, i: nat, key: Key)
    requires i < |s.stages| && Reads(s, s', i, key)
    ensures Advances(s, s', i)
  {
    hide Advances;
    if Load(s, s', i, key) {
      MoveAdvances(s, s', i, Done(s.files[key].exe));
    } else if Miss(s, s', i, key) {
      MoveAdvances(s, s', i, WaitLock);
    } else if Acquire(s, s', i, key) {
      MoveAdvances(s, s', i, Check2);
    } else if LoadLocked(s, s', i, key) {
      MoveAdvances(s, s', i, Done(s.files[key].exe));
    } else if MissLocked(s, s', i, key) {
      MoveAdvances(s, s', i, Compiling);
    } else {
      MoveAdvances(s, s', i, Compiling);
    }
  }

  lemma CompilesAdvances(s: State, s': State, i: nat, key: Key)
    requires i < |s.stages| && Compiles(s, s', i, key)
    ensures Advances(s, s', i)
  {
    hide Advances;
    if Compile(s, s', i, key) {
      MoveAdvances(s, s', i, Compiled(Executable(key, i)));
    } else if CompileFails(s, s', i, key) {
      MoveAdvances(s, s', i, Failed);
    } else if FindOwn(s, s', i, key) {
      MoveAdvances(s, s', i, Ready(s.stages[i].exe));
    } else {
      MoveAdvances(s, s', i, Done(s.stages[i].exe));
    }
  }

  lemma WaitsAdvances(keys: seq<Key>, s: State, s': State, i: nat)
    requires i < |s.stages| == |keys| && Waits(keys, s, s', i)
    ensures Advances(s, s', i)
  {
  }

  lemma SavesAdvances(s: State, s': State, i: nat, key: Key)
    requires i < |s.stages| && Saves(s, s', i, key)
    ensures Advances(s, s', i)
  {
    hide Advances;
    if StartWrite(s, s', i, key) {
      MoveAdvances(s, s', i, Writing(s.stages[i].exe));
    } else if WriteFailsEarly(s, s', i, key) {
      MoveAdvances(s, s', i, Written(s.stages[i].exe));
    } else if Fill(s, s', i, key) {
      MoveAdvances(s, s', i, Filled(s.stages[i].exe));
    } else if Rename(s, s', i, key) {
      MoveAdvances(s, s', i, Written(s.stages[i].exe));
    } else if WriteFails(s, s', i, key) {
      MoveAdvances(s, s', i, Written(s.stages[i].exe));
    } else {
      MoveAdvances(s, s', i, Done(s.stages[i].exe));
    }
  }

  lemma DiesAdvances(s: State, s': State, i: nat, key: Key)
    requires i < |s.stages| && Dies(s, s', i, key)
    ensures Advances(s, s', i)
  {
  }

  lemma StepAdvances(keys: seq<Key>, s: State, s': State, i: nat)
    requires i < |s.stages| == |keys| && StepOf(keys, s, s', i)
    ensures Advances(s, s', i)
  {
    hide Reads, Compiles, Waits, Saves, Dies, Advances;
    if Reads(s, s', i, keys[i]) {
      ReadsAdvances(s, s', i, keys[i]);
    } else if Compiles(s, s', i, keys[i]) {
      CompilesAdvances(s, s', i, keys[i]);
    } else if Waits(keys, s, s', i) {
      WaitsAdvances(keys, s, s', i);
    } else if Saves(s, s', i, keys[i]) {
      SavesAdvances(s, s', i, keys[i]);
    } else {
      DiesAdvances(s, s', i, keys[i]);
    }
  }

  function Work(stages: seq<Stage>, n: nat): nat
    requires n <= |stages|
  {
    if n == 0 then 0 else Work(stages, n - 1) + StagesLeft(stages[n - 1])
  }

  lemma {:induction false} WorkShrinks(stages: seq<Stage>, i: nat, stage: Stage, n: nat)
    requires i < |stages| && n <= |stages| && StagesLeft(stage) < StagesLeft(stages[i])
    ensures Work(stages[i := stage], n) + (if i < n then 1 else 0) <= Work(stages, n)
  {
    hide StagesLeft;
    if n == 0 {
    } else {
      WorkShrinks(stages, i, stage, n - 1);
    }
  }

  lemma {:induction false} RunLength(keys: seq<Key>, trace: seq<State>, n: nat)
    requires Run(keys, trace) && n < |trace|
    ensures |trace[n].stages| == |keys|
    ensures n + Work(trace[n].stages, |keys|) <= Work(Init(keys).stages, |keys|)
  {
    hide StepOf, StagesLeft;
    if n == 0 {
    } else {
      RunLength(keys, trace, n - 1);
      assert Next(keys, trace[n - 1], trace[n - 1 + 1]);
      var i: nat :| i < |keys| && StepOf(keys, trace[n - 1], trace[n], i);
      StepAdvances(keys, trace[n - 1], trace[n], i);
      WorkShrinks(trace[n - 1].stages, i, trace[n].stages[i], |keys|);
    }
  }

  lemma {:induction false} InitialWork(keys: seq<Key>, n: nat)
    requires n <= |keys|
    ensures Work(Init(keys).stages, n) == 10 * n
  {
    if n == 0 {
    } else {
      InitialWork(keys, n - 1);
    }
  }

  /** The task waits for a lock that is taken, or for a promise that is still to be set. */
  ghost predicate HeldUp(keys: seq<Key>, s: State, i: nat)
    requires i < |keys| == |s.stages|
  {
    || (s.stages[i].WaitLock? && keys[i] in s.locks)
    || (s.stages[i].Waiting? && s.stages[i].other < |keys|
        && !HasExecutable(s.stages[s.stages[i].other]) && !Ended(s.stages[s.stages[i].other]))
  }

  /** A task before its compilation that is not held up can go on by itself. */
  lemma ReaderCanStep(keys: seq<Key>, s: State, i: nat) returns (s': State)
    requires i < |keys| && LocksInv(keys, s) && FilesInv(keys, s) && !HeldUp(keys, s, i)
    requires s.stages[i].Check1? || s.stages[i].WaitLock? || s.stages[i].Check2? || s.stages[i].Compiling?
    ensures StepOf(keys, s, s', i) && |s'.stages| == |keys| && s'.stages[i] != Dead
  {
    hide Waits, Saves, Dies;
    var key := keys[i];
    match s.stages[i]
    case Check1 =>
      s' := Move(s, i, WaitLock);
      assert Miss(s, s', i, key);
    case WaitLock =>
      s' := Move(s, i, Check2).(locks := s.locks[key := i]);
      assert Acquire(s, s', i, key);
    case Check2 =>
      if key in s.files {
        s' := Leave(s, i, key, Done(s.files[key].exe));
        assert LoadLocked(s, s', i, key);
      } else {
        s' := Move(s, i, Compiling);
        assert MissLocked(s, s', i, key);
      }
    case Compiling =>
      s' := Move(s, i, Compiled(Executable(key, i))).(compiles := s.compiles + multiset{key});
      assert Compile(s, s', i, key);
  }

  lemma WriterCanStep(keys: seq<Key>, s: State, i: nat) returns (s': State)
    requires i < |keys| && LocksInv(keys, s) && FilesInv(keys, s)
    requires var t := s.stages[i]; t.Compiled? || t.Ready? || t.Writing? || t.Filled? || t.Written?
    ensures StepOf(keys, s, s', i) && |s'.stages| == |keys| && s'.stages[i] != Dead
  {
    hide Waits, Reads, Dies;
    var key := keys[i];
    match s.stages[i]
    case Compiled(exe) =>
      s' := Move(s, i, Ready(exe));
      assert FindOwn(s, s', i, key);
    case Ready(exe) =>
      s' := Move(s, i, Writing(exe)).(temps := s.temps[i := Incomplete]);
      assert StartWrite(s, s', i, key);
    case Writing(exe) =>
      s' := Move(s, i, Filled(exe)).(temps := s.temps[i := Complete(exe)]);
      assert Fill(s, s', i, key);
    case Filled(exe) =>
      s' := Move(s, i, Written(exe)).(temps := s.temps - {i}, files := s.files[key := s.temps[i]]);
      assert Rename(s, s', i, key);
    case Written(exe) =>
      s' := Leave(s, i, key, Done(exe));
      assert Release(s, s', i, key);
  }

  lemma WaiterCanStep(keys: seq<Key>, s: State, i: nat) returns (s': State)
    requires i < |keys| && LocksInv(keys, s) && s.stages[i].Waiting? && !HeldUp(keys, s, i)
    ensures StepOf(keys, s, s', i) && |s'.stages| == |keys| && s'.stages[i] != Dead
  {
    hide Compiles, Saves, Reads, Dies;
    assert WaitsForSame(keys, i, s.stages[i].other);
    var other := s.stages[s.stages[i].other];
    if HasExecutable(other) {
      s' := Move(s, i, Ready(other.exe));
      assert EndWait(s, s', i, keys[i]);
    } else {
      s' := CountFailure(Leave(s, i, keys[i], Done(s.stages[i].exe)), keys[i]);
      assert WaitFails(s, s', i, keys[i]);
    }
  }

  /** A task that has neither ended nor is held up can always go on by itself. */
  lemma TaskCanStep(keys: seq<Key>, s: State, i: nat) returns (s': State)
    requires i < |keys| && LocksInv(keys, s) && FilesInv(keys, s)
    requires !Ended(s.stages[i]) && !HeldUp(keys, s, i)
    ensures StepOf(keys, s, s', i) && |s'.stages| == |keys| && s'.stages[i] != Dead
  {
    hide LocksInv, FilesInv, StepOf, HeldUp;
    assert |s.stages| == |keys| by { assert LocksInv(keys, s); LocksLength(keys, s); }
    match s.stages[i]
    case Check1 => s' := ReaderCanStep(keys, s, i);
    case WaitLock => s' := ReaderCanStep(keys, s, i);
    case Check2 => s' := ReaderCanStep(keys, s, i);
    case Compiling => s' := ReaderCanStep(keys, s, i);
    case Waiting(_, _) => s' := WaiterCanStep(keys, s, i);
    case _ => s' := WriterCanStep(keys, s, i);
  }

  lemma LocksLength(keys: seq<Key>, s: State)
    requires LocksInv(keys, s)
    ensures |s.stages| == |keys|
  {
  }

  /** All that a task can do while it is held up is to die. */
  lemma HeldUpOnlyDies(keys: seq<Key>, s: State, s': State, i: nat)
    requires i < |keys| && LocksInv(keys, s) && HeldUp(keys, s, i) && StepOf(keys, s, s', i)
    ensures s'.stages == s.stages[i := Dead]
  {
  }

  /** Some task that has not ended can take a step other than dying. */
  ghost predicate CanGoOn(keys: seq<Key>, s: State)
    requires |s.stages| == |keys|
  {
    exists i: nat, s' :: i < |keys| && StepOf(keys, s, s', i) && |s'.stages| == |keys| && s'.stages[i] != Dead
  }

  /** Task i holds the lock and waits for task j to set a promise, and task j waits for the lock. */
  ghost predicate Deadlocked(keys: seq<Key>, s: State, i: nat, j: nat)
    requires |s.stages| == |keys|
  {
    i < |keys| && j < |keys| && s.stages[i].Waiting? && s.stages[i].other == j && s.stages[j].WaitLock?
  }

  /** A task that is held up leads to one that is not, or to a deadlock. */
  lemma BehindHeldUp(keys: seq<Key>, s: State, i: nat) returns (h: nat, j: nat)
    requires i < |keys| && LocksInv(keys, s) && !Ended(s.stages[i])
    ensures h < |keys| && j < |keys|
    ensures Deadlocked(keys, s, h, j) || (!Ended(s.stages[j]) && !HeldUp(keys, s, j))
  {
    h, j := i, i;
    if HeldUp(keys, s, i) {
      if s.stages[i].WaitLock? {
        h := s.locks[keys[i]];
      }
      assert Holding(s.stages[h]);
      j := h;
      if HeldUp(keys, s, h) {
        assert WaitsForSame(keys, h, s.stages[h].other);
        j := s.stages[h].other;
        assert !Holding(s.stages[j]);
      }
    }
  }

  /** No run takes more than ten steps a task. As long as some task has not ended, some task can step
      without dying, or two tasks of one key are in a deadlock. */
  lemma EveryRunCompletes(keys: seq<Key>, trace: seq<State>)
    requires Run(keys, trace)
    ensures 0 < |trace| <= 10 * |keys| + 1
    ensures var s := trace[|trace| - 1];
      && |s.stages| == |keys|
      && ((forall i :: 0 <= i < |keys| ==> Ended(s.stages[i])) || CanGoOn(keys, s) || exists i,
        j :: Deadlocked(keys, s, i, j))
  {
    hide LocksInv, FilesInv, StepOf, HeldUp, Run, CountsInv, OriginInv;
    RunLengthBound(keys, trace);
    var s := trace[|trace| - 1];
    if i :| 0 <= i < |keys| && !Ended(s.stages[i]) {
      RunIsSound(keys, trace, |trace| - 1, keys[i]);
      var h, j := BehindHeldUp(keys, s, i);
      if !Deadlocked(keys, s, h, j) {
        var s' := TaskCanStep(keys, s, j);
      }
    }
  }

  lemma RunLengthBound(keys: seq<Key>, trace: seq<State>)
    requires Run(keys, trace)
    ensures 0 < |trace| <= 10 * |keys| + 1 && |trace[|trace| - 1].stages| == |keys|
  {
    RunLength(keys, trace, |trace| - 1);
    InitialWork(keys, |keys|);
  }

  /** A deadlock ends only by the death of one of the two tasks. */
  lemma DeadlockStays(keys: seq<Key>, s: State, s': State, i: nat, j: nat, step: nat)
    requires LocksInv(keys, s) && Deadlocked(keys, s, i, j) && step < |keys| && StepOf(keys, s, s', step)
    ensures |s'.stages| == |keys| && (Deadlocked(keys, s', i, j) || s'.stages[i].Dead? || s'.stages[j].Dead?)
  {
    hide StepOf;
    StepAdvances(keys, s, s', step);
    assert WaitsForSame(keys, i, j) && Holding(s.stages[i]);
    if step == i || step == j {
      HeldUpOnlyDies(keys, s, s', step);
    }
  }

  /** The step finds an entry that was evicted and made again while its task compiled. */
  ghost predicate FindsNewEntry(keys: seq<Key>, s: State, s': State) {
    |s.stages| == |keys| && exists i: nat, other: nat :: i < |keys| && FindOther(keys, s, s', i, other)
  }

  ghost predicate NoNewEntries(keys: seq<Key>, trace: seq<State>) {
    forall n :: 0 <= n < |trace| - 1 ==> !FindsNewEntry(keys, trace[n], trace[n + 1])
  }

  ghost predicate NobodyWaits(keys: seq<Key>, s: State) {
    |s.stages| == |keys| && forall j :: 0 <= j < |keys| ==> !s.stages[j].Waiting?
  }

  lemma OnlyFindOtherWaits(keys: seq<Key>, s: State, s': State, i: nat)
    requires NobodyWaits(keys, s) && i < |keys| && StepOf(keys, s, s', i) && !FindsNewEntry(keys, s, s')
    ensures NobodyWaits(keys, s')
  {
    hide StepOf;
    StepAdvances(keys, s, s', i);
    NewStageWaits(keys, s, s', i);
  }

  lemma NewStageWaits(keys: seq<Key>, s: State, s': State, i: nat)
    requires i < |keys| == |s.stages| && StepOf(keys, s, s', i) && !FindsNewEntry(keys, s, s')
    ensures i < |s'.stages| && !s'.stages[i].Waiting?
  {
    hide Reads, Compiles, Waits, Saves, Dies;
    if Reads(s, s', i, keys[i]) {
      ReadsWaitNot(s, s', i, keys[i]);
    } else if Compiles(s, s', i, keys[i]) {
      CompilesWaitNot(s, s', i, keys[i]);
    } else if Waits(keys, s, s', i) {
      WaitsEnd(keys, s, s', i);
    } else if Saves(s, s', i, keys[i]) {
      SavesWaitNot(s, s', i, keys[i]);
    } else {
      DiesWaitNot(s, s', i, keys[i]);
    }
  }

  lemma WaitsEnd(keys: seq<Key>, s: State, s': State, i: nat)
    requires i < |keys| == |s.stages| && Waits(keys, s, s', i) && !FindsNewEntry(keys, s, s')
    ensures i < |s'.stages| && !s'.stages[i].Waiting?
  {
    hide FindOther;
  }

  lemma ReadsWaitNot(s: State, s': State, i: nat, key: Key)
    requires i < |s.stages| && Reads(s, s', i, key)
    ensures i < |s'.stages| && !s'.stages[i].Waiting?
  {
  }

  lemma CompilesWaitNot(s: State, s': State, i: nat, key: Key)
    requires i < |s.stages| && Compiles(s, s', i, key)
    ensures i < |s'.stages| && !s'.stages[i].Waiting?
  {
  }

  lemma SavesWaitNot(s: State, s': State, i: nat, key: Key)
    requires i < |s.stages| && Saves(s, s', i, key)
    ensures i < |s'.stages| && !s'.stages[i].Waiting?
  {
    hide WriteFails;
    if WriteFails(s, s', i, key) {
      FailedIsWritten(s, s', i, key);
    }
  }

  lemma DiesWaitNot(s: State, s': State, i: nat, key: Key)
    requires i < |s.stages| && Dies(s, s', i, key)
    ensures i < |s'.stages| && !s'.stages[i].Waiting?
  {
  }

  lemma FailedIsWritten(s: State, s': State, i: nat, key: Key)
    requires i < |s.stages| && WriteFails(s, s', i, key)
    ensures s'.stages == s.stages[i := Written(s.stages[i].exe)]
  {
  }

  lemma {:induction false} NobodyWaitsInRun(keys: seq<Key>, trace: seq<State>, n: nat)
    requires Run(keys, trace) && n < |trace| && NoNewEntries(keys, trace)
    ensures NobodyWaits(keys, trace[n])
  {
    hide StepOf, FindsNewEntry;
    if n == 0 {
    } else {
      NobodyWaitsInRun(keys, trace, n - 1);
      assert Next(keys, trace[n - 1], trace[n - 1 + 1]);
      var i: nat :| i < |keys| && StepOf(keys, trace[n - 1], trace[n], i);
      OnlyFindOtherWaits(keys, trace[n - 1], trace[n], i);
    }
  }

  /** Nobody waits forever in a run in which no entry is evicted and made anew while its task compiles. */
  lemma WithoutNewEntriesCompletes(keys: seq<Key>, trace: seq<State>)
    requires Run(keys, trace) && NoNewEntries(keys, trace)
    ensures 0 < |trace|
    ensures var s := trace[|trace| - 1];
      |s.stages| == |keys| && ((forall i :: 0 <= i < |keys| ==> Ended(s.stages[i])) || CanGoOn(keys, s))
  {
    hide Run, NoNewEntries, CanGoOn;
    EveryRunCompletes(keys, trace);
    NobodyWaitsInRun(keys, trace, |trace| - 1);
  }
}
