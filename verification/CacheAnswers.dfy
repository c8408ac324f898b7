/** What the cache gives its callers: which executable an answer stands for, and which result a promise is
    set to, of single operations and over whole runs. */
module CacheAnswers {
  import opened Prelude
  import opened Fingerprints
  import opened Dynamism
  import opened CompilationCaches
  import opened CacheRuns

  // ---------- Answers ----------

  /** The requests are for the same graph with the same sizes and the same options. */
  ghost predicate SameRequest(r: Request, r': Request) {
    r.shapeless == r'.shapeless && r.dims == r'.dims && r.options == r'.options
  }

  /** The key of a request stands for its graph, its sizes and its options. */
  lemma KeyDeterminesRequest(r: Request, r': Request)
    requires WellFormed(r) && WellFormed(r')
    ensures KeyOf(r) == KeyOf(r') <==> SameRequest(r, r')
  {
    DimensionsKeyInjective(r.dims, r'.dims);
  }

  /** The key of an executable for bounds stands for a graph, all lower and upper bounds, and options. */
  lemma MiddleKeyDetermines(shapeless: Fp, options: Fp, m: Metadata, shapeless': Fp, options': Fp, m': Metadata)
    requires CompilationCaches.Sized(m) && CompilationCaches.Sized(m')
    ensures MiddleKey(shapeless, options, m) == MiddleKey(shapeless', options', m') <==>
      shapeless == shapeless' && options == options' && m.inputs == m'.inputs
  {
    if MiddleKey(shapeless, options, m) == MiddleKey(shapeless', options', m') {
      assert shapeless == shapeless' && options == options';
      MiddleKeysDiffer(shapeless, options, m, m');
    }
  }

  /** The i-th entry of the request's graph is for its options, with all its sizes within the bounds. */
  ghost predicate EntryFits(c: Cache, r: Request, i: nat) {
    && r.shapeless in c.bounded && i < |c.bounded[r.shapeless]|
    && c.bounded[r.shapeless][i].middle.options == r.options
    && Compatible(c.bounded[r.shapeless][i].metadata.inputs, r.inputs)
  }

  ghost predicate FirstFits(c: Cache, r: Request, i: nat) {
    EntryFits(c, r, i) && forall j: nat :: j < i ==> !EntryFits(c, r, j)
  }

  ghost predicate NoneFits(c: Cache, r: Request) {
    forall j: nat :: !EntryFits(c, r, j)
  }

  /** One more promise, under the key. */
  ghost predicate Inserts(c: Cache, d: Cache, key: CacheKey) {
    && key !in c.executables && d.executables == c.executables[key := |c.promises|]
    && d.promises == c.promises + [Promise(key, None)]
  }

  ghost predicate Stays(c: Cache, d: Cache) {
    d.executables == c.executables && d.promises == c.promises && d.bounded == c.bounded
  }

  lemma FirstFitIs(c: Cache, r: Request)
    ensures FitFor(c, r).None? <==> NoneFits(c, r)
    ensures FitFor(c, r).Some? ==> FirstFits(c, r, FitFor(c, r).value)
  {
    hide Compatible;
    forall j: nat
      ensures EntryFits(c, r, j) <==>
        j < |Entries(c, r.shapeless)| && Fits(Entries(c, r.shapeless)[j], r.options, r.inputs)
    {
    }
  }

  lemma FirstFitUnique(c: Cache, r: Request, i: nat)
    requires FirstFits(c, r, i)
    ensures FitFor(c, r) == Some(i)
  {
    FirstFitIs(c, r);
    var k := FitFor(c, r).value;
    assert FirstFits(c, r, k);
    assert !(k < i) && !(i < k);
  }

  /** A request whose own key is there, or for which caching is off. */
  lemma OwnKeyAnswer(c: Cache, r: Request)
    requires KeyOf(r) in c.executables || !c.allow
    ensures var (d, answer) := Ask(c, r);
      if KeyOf(r) in c.executables then Stays(c, d) && answer == Found(Lookup(c.executables[KeyOf(r)], None, false))
      else Inserts(c, d, KeyOf(r)) && d.bounded == c.bounded && answer == Found(Lookup(|c.promises|, None, true))
  {
    hide Ask, KeyOf;
    AskByRoute(c, r);
  }

  /** A request within the bounds of an entry: it gets the first such entry's executable, made again if it
      has been evicted. */
  lemma EntryAnswer(c: Cache, r: Request, i: nat)
    requires KeyOf(r) !in c.executables && c.allow && FirstFits(c, r, i)
    ensures var (d, answer) := Ask(c, r);
      var e := c.bounded[r.shapeless][i];
      if e.middle in c.executables then
        Stays(c, d) && answer == Found(Lookup(c.executables[e.middle], Some(e.metadata), false))
      else if c.cacheOnly then Stays(c, d) && answer == Refused
      else
        && Inserts(c, d, e.middle) && d.bounded == c.bounded
        && answer == Found(Lookup(|c.promises|, Some(e.metadata), true))
  {
    hide Ask, KeyOf, MiddleKey, FirstFits, Annotates;
    FirstFitUnique(c, r, i);
    FirstFitIs(c, r);
    AskByRoute(c, r);
    FitsInBounds(c, r, i);
  }

  lemma FitsInBounds(c: Cache, r: Request, i: nat)
    requires FirstFits(c, r, i)
    ensures r.shapeless in c.bounded && i < |c.bounded[r.shapeless]|
    ensures Entries(c, r.shapeless) == c.bounded[r.shapeless]
  {
  }

  /** Any other request: an annotated one makes an entry with the bounds of its own inputs and outputs. */
  lemma NewAnswer(c: Cache, r: Request)
    requires KeyOf(r) !in c.executables && c.allow && NoneFits(c, r)
    ensures var (d, answer) := Ask(c, r);
      var metadata := Metadata(AllBounds(r.inputs), AllBounds(r.outputs));
      var middle := MiddleKey(r.shapeless, r.options, metadata);
      if c.cacheOnly then Stays(c, d) && answer == Refused
      else if forall i :: 0 <= i < |r.inputs| ==> r.inputs[i].dynamic == [] then
        Inserts(c, d, KeyOf(r)) && d.bounded == c.bounded && answer == Found(Lookup(|c.promises|, None, true))
      else if middle in c.executables then answer == Crash
      else
        && Inserts(c, d, middle) && answer == Found(Lookup(|c.promises|, Some(metadata), true))
        && d.bounded == c.bounded[r.shapeless :=
             (if r.shapeless in c.bounded then c.bounded[r.shapeless] else []) + [Entry(middle, metadata)]]
  {
    hide Ask, KeyOf, MiddleKey, NoneFits;
    FirstFitIs(c, r);
    AskByRoute(c, r);
    AskBounded(c, r);
  }

  /** The same request again is answered with the same promise as long as its key is in the map. */
  lemma SameRequestSamePromise(c: Cache, r: Request, r': Request)
    requires Ask(c, r).1.Found? && Ask(c, r).1.lookup.metadata.None? && SameRequest(r, r')
    ensures Ask(Ask(c, r).0, r').1 == Found(Lookup(Ask(c, r).1.lookup.promise, None, false))
  {
    hide Ask, MiddleKey;
    AskByRoute(c, r);
    OwnKeyAnswer(Ask(c, r).0, r');
  }

  lemma AnswerHasKey(c: Cache, r: Request)
    requires KeysInv(c) && EntriesInv(c) && Ask(c, r).1.Found? && Ask(c, r).1.lookup.metadata.None?
    ensures var (d, answer) := Ask(c, r);
      answer.lookup.promise < |d.promises| && d.promises[answer.lookup.promise].key == KeyOf(r)
  {
    hide Ask, KeysInv, EntriesInv, KeyOf;
    StorageKeyIsKeyOfPromise(c, r);
  }

  /** Of two requests in a row that are answered without metadata, both get the same promise if and only if
      they are for the same graph, sizes and options. */
  lemma AnswersShareIff(c: Cache, r: Request, r': Request)
    requires KeysInv(c) && EntriesInv(c) && WellFormed(r) && WellFormed(r')
    requires Ask(c, r).1.Found? && Ask(c, r).1.lookup.metadata.None?
    requires Ask(Ask(c, r).0, r').1.Found? && Ask(Ask(c, r).0, r').1.lookup.metadata.None?
    ensures Ask(Ask(c, r).0, r').1.lookup.promise == Ask(c, r).1.lookup.promise <==> SameRequest(r, r')
  {
    hide Ask, KeysInv, EntriesInv, WellFormed, KeyOf;
    var d := Ask(c, r).0;
    AskKeepsKeys(c, r);
    AskKeepsEntries(c, r);
    AskGrows(c, r);
    AnswerHasKey(c, r);
    AnswerHasKey(d, r');
    AskGrows(d, r');
    KeyDeterminesRequest(r, r');
    if SameRequest(r, r') {
      SameRequestSamePromise(c, r, r');
    }
  }

  // ---------- Answers over whole runs ----------

  /** A run can be cut anywhere. */
  lemma {:induction false} CutRun(s: State, steps: seq<Step>, k: nat)
    requires CanRun(s, steps) && k <= |steps|
    ensures CanRun(s, steps[..k]) && CanRun(Reached(s, steps[..k]), steps[k..])
    ensures Reached(Reached(s, steps[..k]), steps[k..]) == Reached(s, steps)
    decreases |steps|
  {
    hide Enabled, After;
    if k == |steps| {
      assert steps[..k] == steps && steps[k..] == [];
    } else {
      var front, last := steps[..|steps| - 1], steps[|steps| - 1];
      CutRun(s, front, k);
      assert front[..k] == steps[..k] && steps[k..] == front[k..] + [last];
      NextStep(Reached(s, steps[..k]), front[k..], last);
    }
  }

  /** The k-th step is a request that is answered without metadata with promise p. */
  ghost predicate AnsweredAt(s: State, steps: seq<Step>, k: nat, p: nat) {
    && k < |steps| && CanRun(s, steps[..k]) && steps[k].Issue?
    && var answer := Ask(Reached(s, steps[..k]).cache, steps[k].request).1;
       answer.Found? && answer.lookup.metadata.None? && answer.lookup.promise == p
  }

  /** From then on the promise has the key of the request. */
  lemma AnswerKeepsKey(s: State, steps: seq<Step>, k: nat, p: nat)
    requires IsStart(s) && CanRun(s, steps) && AnsweredAt(s, steps, k, p)
    ensures WellFormed(steps[k].request)
    ensures p < |Reached(s, steps).cache.promises| && Reached(s, steps).cache.promises[p].key == KeyOf(steps[k].request)
  {
    hide Ask, Enabled, After, Inv, LockInv, WaitsInv, IsStart, KeyOf, WellFormed;
    var before := Reached(s, steps[..k]);
    CutRun(s, steps, k);
    CutRun(s, steps, k + 1);
    assert steps[..k + 1][..k] == steps[..k] && steps[..k + 1][k] == steps[k];
    IssueAfter(before, steps[k]);
    StartIsSound(s);
    RunKeepsSound(s, steps[..k]);
    SoundEntries(before);
    AnswerHasKey(before.cache, steps[k].request);
    RunOnlySets(Reached(s, steps[..k + 1]), steps[k + 1..]);
  }

  lemma SoundEntries(s: State)
    requires Sound(s)
    ensures KeysInv(s.cache) && EntriesInv(s.cache)
  {
  }

  /** In every run: whoever is answered without metadata with the same promise has asked for the same
      graph, sizes and options. */
  lemma SharedPromisesAreOfSameRequests(s: State, steps: seq<Step>, k: nat, l: nat, p: nat)
    requires IsStart(s) && CanRun(s, steps) && AnsweredAt(s, steps, k, p) && AnsweredAt(s, steps, l, p)
    ensures SameRequest(steps[k].request, steps[l].request)
  {
    hide Ask, KeyOf, WellFormed, IsStart, Reached;
    AnswerKeepsKey(s, steps, k, p);
    AnswerKeepsKey(s, steps, l, p);
    KeyDeterminesRequest(steps[k].request, steps[l].request);
  }

  // ---------- Results ----------

  /** A promise that is set stays as it is; one that is not gets exactly the given result. */
  lemma SettingIsExact(c: Cache, p: nat, outcome: CompilationCaches.Outcome)
    requires p < |c.promises|
    ensures var d := SetPromise(c, p, outcome);
      && d == c.(promises := d.promises) && |d.promises| == |c.promises|
      && (forall q :: 0 <= q < |c.promises| && (q != p || c.promises[q].outcome.Some?) ==>
        d.promises[q] == c.promises[q])
      && (c.promises[p].outcome.None? ==> d.promises[p] == Promise(c.promises[p].key, Some(outcome)))
  {
  }

  /** Setting the executable of a key: nothing happens without an entry with an unset promise; otherwise this
      promise gets exactly the given result, no other promise changes, and the entry stays exactly if
      caching is on. */
  lemma SettleIsExact(c: Cache, key: CacheKey, outcome: CompilationCaches.Outcome)
    requires KeysInv(c)
    ensures var d := Settle(c, key, outcome);
      if key in c.executables && c.promises[c.executables[key]].outcome.None? then
        var p := c.executables[key];
        && |d.promises| == |c.promises| && d.promises[p] == Promise(key, Some(outcome))
        && (forall q :: 0 <= q < |c.promises| && q != p ==> d.promises[q] == c.promises[q])
        && d == c.(promises := d.promises, executables := if c.allow then c.executables else c.executables - {key})
      else d == c
  {
    if key in c.executables {
      SettingIsExact(c, c.executables[key], outcome);
    }
  }

  /** The step gives its key a result, which is good or not: whatever is loaded is good, what is compiled is
      as the compiler says, and without a module there is none. */
  ghost predicate Delivers(step: Step, ok: bool) {
    match step
    case Compile(_, good) => ok == good
    case Build(_, good) => ok == good
    case Load(_) => ok
    case Tier3Hits(_) => ok
    case ModuleFails(_) => !ok
    case _ => false
  }

  /** The promise that the step is about: the caller's own one, or that of the entry for the task's key. */
  ghost predicate IsAbout(s: State, step: Step, p: nat) {
    && (Settling(step) || step.ModuleFails?) && step.task < |s.tasks|
    && match s.tasks[step.task]
       case Caller(_, lookup) => lookup.promise == p
       case Abandoned(_, _) => false
       case Done => false
       case t => t.key in s.cache.executables && s.cache.executables[t.key] == p
  }

  ghost predicate HoldsResult(c: Cache, p: nat, ok: bool) {
    p < |c.promises| && c.promises[p].outcome == Some(CompilationCaches.Outcome(c.promises[p].key, ok))
  }

  lemma StepDelivers(s: State, step: Step, p: nat, ok: bool)
    requires Sound(s) && Enabled(s, step) && Unset(s.cache, p) && IsAbout(s, step, p) && Delivers(step, ok)
    ensures HoldsResult(After(s, step).cache, p, ok)
  {
    hide Inv, LockInv, WaitsInv, KeysInv, StorageKey, WellFormed, NextStage, Settle, SetPromise, Free;
    SoundEntries(s);
    if step.ModuleFails? {
      var t := s.tasks[step.task];
      CallerHasKey(s, step.task);
      SettingIsExact(s.cache, p, CompilationCaches.Outcome(StorageKey(t.request, t.lookup), false));
    } else {
      var key := s.tasks[step.task].key;
      SettleIsExact(s.cache, key, CompilationCaches.Outcome(key, ok));
    }
  }

  lemma CallerHasKey(s: State, i: nat)
    requires Sound(s) && i < |s.tasks|
    ensures CallerInv(s.cache, s.tasks[i])
  {
    hide KeysInv, EntriesInv, Conserved, OwnResults, NoOrphans, LockInv, WaitsInv;
  }

  /** Whoever waits for a promise gets what the step that set it has delivered: a failure for a failed module
      or compilation, a success for a file that was loaded or a compilation that succeeded, in every
      continuation. */
  lemma ResultIsDelivered(s: State, step: Step, more: seq<Step>, p: nat, ok: bool)
    requires Sound(s) && Enabled(s, step) && Unset(s.cache, p) && IsAbout(s, step, p) && Delivers(step, ok)
    requires CanRun(After(s, step), more)
    ensures HoldsResult(Reached(After(s, step), more).cache, p, ok)
  {
    hide Sound, Enabled, After, IsAbout;
    StepDelivers(s, step, p, ok);
    RunOnlySets(After(s, step), more);
  }

  /** Steps that deliver nothing set nothing. */
  lemma OnlyDeliveriesSet(s: State, step: Step, p: nat)
    requires Sound(s) && Enabled(s, step) && !IsSet(s.cache, p) && IsSet(After(s, step).cache, p)
    ensures Unset(s.cache, p) && IsAbout(s, step, p)
  {
    hide Inv, LockInv, WaitsInv, KeysInv, StorageKey, WellFormed, NextStage, Settle, SetPromise, Free, Ask;
    SoundEntries(s);
    if step.Issue? {
      AskGrows(s.cache, step.request);
    } else if step.ModuleFails? {
      var t := s.tasks[step.task];
      SettingIsExact(s.cache, t.lookup.promise, CompilationCaches.Outcome(StorageKey(t.request, t.lookup), false));
    } else if Settling(step) {
      SettledKey(s, step);
      var key := s.tasks[step.task].key;
      SettleIsExact(s.cache, key, CompilationCaches.Outcome(key, Succeeds(step)));
    }
  }

  lemma SettledKey(s: State, step: Step)
    requires Enabled(s, step) && Settling(step)
    ensures step.task < |s.tasks|
    ensures var t := s.tasks[step.task];
      && !t.Caller? && !t.Abandoned? && !t.Done?
      && After(s, step).cache == Settle(s.cache, t.key, CompilationCaches.Outcome(t.key, Succeeds(step)))
  {
    hide Settle, NextStage;
  }

  /** The step after the first `k` of a run has set the promise and delivered this result. */
  ghost predicate DeliveredAt(s: State, steps: seq<Step>, k: nat, p: nat, ok: bool) {
    && k < |steps| && CanRun(s, steps[..k]) && Unset(Reached(s, steps[..k]).cache, p)
    && IsAbout(Reached(s, steps[..k]), steps[k], p) && Delivers(steps[k], ok)
  }

  /** In every run, a promise that is set holds what one step of the run has delivered for it. */
  lemma {:induction false} ResultsAreDelivered(s: State, steps: seq<Step>, p: nat)
    requires IsStart(s) && CanRun(s, steps) && IsSet(Reached(s, steps).cache, p)
    ensures exists k: nat :: DeliveredAt(s, steps, k, p, Reached(s, steps).cache.promises[p].outcome.value.ok)
  {
    hide Enabled, After, Inv, LockInv, WaitsInv, IsAbout;
    if steps == [] {
    } else {
      var front, last := steps[..|steps| - 1], steps[|steps| - 1];
      var before := Reached(s, front);
      StartIsSound(s);
      RunKeepsSound(s, front);
      if IsSet(before.cache, p) {
        ResultsAreDelivered(s, front, p);
        StepOnlySets(before, last);
        var ok := before.cache.promises[p].outcome.value.ok;
        var k: nat :| DeliveredAt(s, front, k, p, ok);
        assert front[..k] == steps[..k] && front[k] == steps[k];
        assert DeliveredAt(s, steps, k, p, ok);
      } else {
        OnlyDeliveriesSet(before, last, p);
        AboutDelivers(before, last, p);
        var ok := Succeeds(last) && !last.ModuleFails?;
        StepDelivers(before, last, p, ok);
        assert DeliveredAt(s, steps, |steps| - 1, p, ok);
      }
    }
  }

  lemma AboutDelivers(s: State, step: Step, p: nat)
    requires IsAbout(s, step, p)
    ensures Delivers(step, Succeeds(step) && !step.ModuleFails?)
  {
  }
}
