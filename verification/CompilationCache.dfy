/** The in-memory compilation cache: write-once promises under compilation keys, a second index for
    bounded dynamic shapes whose entries name keys of the first, and the modes and counters. */
module CompilationCaches {
  import opened Prelude
  import opened Fingerprints
  import opened Dynamism

  /** The result of building or loading the executable for `key`. */
  datatype Outcome = Outcome(key: CacheKey, ok: bool)

  /** `key` is the key under which the entry with this promise was made. */
  datatype Promise = Promise(key: CacheKey, outcome: Option<Outcome>)

  datatype Entry = Entry(middle: CacheKey, metadata: Metadata)

  /** `inserted` and `refused` count what the program does not: entries made and requests refused. */
  datatype Cache = Cache(
    executables: map<CacheKey, nat>, bounded: map<Fp, seq<Entry>>, promises: seq<Promise>,
    requests: nat, hits: nat, inserted: nat, refused: nat, allow: bool, cacheOnly: bool)

  /** A request to run a graph: its keys, its tensor sizes, and the shapes of its inputs and outputs. */
  datatype Request = Request(shapeless: Fp, dims: seq<int>, options: Fp, inputs: seq<Shape>, outputs: seq<Shape>)

  datatype Lookup = Lookup(promise: nat, metadata: Option<Metadata>, needsCompilation: bool)

  /** `Crash` is the failed check that a new key is not in the cache yet. */
  datatype Answer = Found(lookup: Lookup) | Refused | Crash

  const FRESH := Cache(map[], map[], [], 0, 0, 0, 0, true, false)

  function KeyOf(r: Request): CacheKey {
    CacheKey(r.shapeless, DimensionsKey(r.dims), r.options)
  }

  function MiddleKey(shapeless: Fp, options: Fp, metadata: Metadata): CacheKey {
    CacheKey(shapeless, BoundsKey(Uppers(metadata.inputs), Lowers(metadata.inputs)), options)
  }

  predicate Annotates(inputs: seq<Shape>) {
    exists i :: 0 <= i < |inputs| && inputs[i].dynamic != []
  }

  function MetadataOf(inputs: seq<Shape>, outputs: seq<Shape>): Metadata {
    Metadata(AllBounds(inputs), AllBounds(outputs))
  }

  // ---------- The operations on values ----------

  function Ready(c: Cache, key: CacheKey): bool {
    key in c.executables && c.executables[key] < |c.promises| && c.promises[c.executables[key]].outcome.Some?
  }

  function Hit(c: Cache, key: CacheKey): (Cache, Answer)
    requires key in c.executables
  {
    (c.(hits := c.hits + 1), Found(Lookup(c.executables[key], None, false)))
  }

  function AddStatic(c: Cache, key: CacheKey): (Cache, Answer) {
    if key in c.executables then (c, Crash)
    else
      (c.(executables := c.executables[key := |c.promises|], promises := c.promises + [Promise(key, None)],
        inserted := c.inserted + 1),
       Found(Lookup(|c.promises|, None, true)))
  }

  function Entries(c: Cache, shapeless: Fp): seq<Entry> {
    if shapeless in c.bounded then c.bounded[shapeless] else []
  }

  function WithMetadata(answer: Answer, metadata: Metadata): Answer {
    if answer.Found? then Found(answer.lookup.(metadata := Some(metadata))) else answer
  }

  function AddBounded(c: Cache, shapeless: Fp, options: Fp, metadata: Metadata): (Cache, Answer) {
    var key := MiddleKey(shapeless, options, metadata);
    var entries := Entries(c, shapeless) + [Entry(key, metadata)];
    var (c', answer) := AddStatic(c.(bounded := c.bounded[shapeless := entries]), key);
    (c', WithMetadata(answer, metadata))
  }

  predicate Fits(entry: Entry, options: Fp, inputs: seq<Shape>) {
    Compatible(entry.metadata.inputs, inputs) && entry.middle.options == options
  }

  /** The first entry from position `i` on that fits. */
  function FirstFit(entries: seq<Entry>, options: Fp, inputs: seq<Shape>, i: nat): (r: Option<nat>)
    requires i <= |entries|
    ensures r.Some? ==> i <= r.value < |entries| && Fits(entries[r.value], options, inputs)
    ensures forall j :: i <= j < (if r.Some? then r.value else |entries|) ==> !Fits(entries[j], options, inputs)
    decreases |entries| - i
  {
    if i == |entries| then None
    else if Fits(entries[i], options, inputs) then Some(i)
    else FirstFit(entries, options, inputs, i + 1)
  }

  /** Makes a new entry, unless nothing may be compiled any more. */
  function Create(c: Cache, key: CacheKey, inputs: seq<Shape>, outputs: seq<Shape>, skip: bool): (Cache, Answer) {
    if c.cacheOnly then (c.(refused := c.refused + 1), Refused)
    else if !skip && Annotates(inputs) then AddBounded(c, key.shapeless, key.options, MetadataOf(inputs, outputs))
    else AddStatic(c, key)
  }

  function GetOrCreate(c: Cache, key: CacheKey, inputs: seq<Shape>, outputs: seq<Shape>, skip: bool): (Cache, Answer)
    decreases !skip
  {
    if key in c.executables then Hit(c, key)
    else if !c.allow then AddStatic(c, key)
    else
      var entries := if skip then [] else Entries(c, key.shapeless);
      var fit := FirstFit(entries, key.options, inputs, 0);
      if fit.Some? then
        var (c', answer) := GetOrCreate(c, entries[fit.value].middle, inputs, outputs, true);
        (c', WithMetadata(answer, entries[fit.value].metadata))
      else Create(c, key, inputs, outputs, skip)
  }

  /** The critical section of a request. */
  function Ask(c: Cache, r: Request): (Cache, Answer) {
    GetOrCreate(c.(requests := c.requests + 1), KeyOf(r), r.inputs, r.outputs, false)
  }

  /** The key under which the caller has the executable compiled. */
  function StorageKey(r: Request, lookup: Lookup): CacheKey {
    match lookup.metadata
    case None => KeyOf(r)
    case Some(metadata) => MiddleKey(r.shapeless, r.options, metadata)
  }

  function SetPromise(c: Cache, p: nat, outcome: Outcome): Cache
    requires p < |c.promises|
  {
    if c.promises[p].outcome.Some? then c
    else c.(promises := c.promises[p := c.promises[p].(outcome := Some(outcome))])
  }

  /** Without caching the entry leaves the cache as soon as its promise is set. */
  function Settle(c: Cache, key: CacheKey, outcome: Outcome): Cache {
    if key !in c.executables || c.executables[key] >= |c.promises| || Ready(c, key) then c
    else
      var c' := SetPromise(c, c.executables[key], outcome);
      if c.allow then c' else c'.(executables := c.executables - {key})
  }

  /** One round over the keys that are still to be evicted: entries whose promise is set go. */
  function Scan(c: Cache, pending: set<CacheKey>): (Cache, set<CacheKey>) {
    (c.(executables := map k | k in c.executables && !(k in pending && Ready(c, k)) :: c.executables[k]),
     set k | k in pending && k in c.executables && !Ready(c, k))
  }

  lemma ScanNone(c: Cache)
    ensures Scan(c, {}) == (c, {})
  {
    assert Scan(c, {}).0.executables == c.executables && Scan(c, {}).1 == {};
  }

  lemma ScanNext(c: Cache, done: set<CacheKey>, key: CacheKey)
    requires key !in done
    ensures var before, after := Scan(c, done), Scan(c, done + {key});
      && (key in before.0.executables <==> key in c.executables)
      && (key in c.executables ==> before.0.executables[key] == c.executables[key])
      && after.0.executables == (if Ready(c, key) then before.0.executables - {key} else before.0.executables)
      && after.1 == (if key in c.executables && !Ready(c, key) then before.1 + {key} else before.1)
  {
    var before, after := Scan(c, done), Scan(c, done + {key});
    if Ready(c, key) {
      assert after.0.executables == before.0.executables - {key};
      assert after.1 == before.1;
    } else {
      assert after.0.executables == before.0.executables;
      assert after.1 == (if key in c.executables then before.1 + {key} else before.1);
    }
  }

  lemma ScanOnlyExecutables(c: Cache, done: set<CacheKey>)
    ensures Scan(c, done).0 == c.(executables := Scan(c, done).0.executables)
  {
  }

  // ---------- The cache as the program keeps it ----------

  class CompilationCache {
    var executableCache: map<CacheKey, nat>
    var boundedDynamicCache: map<Fp, seq<Entry>>
    var promises: seq<Promise>
    var numCacheReqs: nat
    var numCacheHits: nat
    var allowCacheMode: bool
    var cacheOnlyMode: bool
    ghost var inserted: nat
    ghost var refused: nat

    ghost function State(): Cache
      reads this
    {
      Cache(executableCache, boundedDynamicCache, promises, numCacheReqs, numCacheHits, inserted, refused,
        allowCacheMode, cacheOnlyMode)
    }

    ghost predicate Valid()
      reads this
    {
      forall key :: key in executableCache ==> executableCache[key] < |promises|
    }

    constructor ()
      ensures Valid() && State() == FRESH
    {
      executableCache, boundedDynamicCache, promises := map[], map[], [];
      numCacheReqs, numCacheHits, inserted, refused := 0, 0, 0, 0;
      allowCacheMode, cacheOnlyMode := true, false;
    }

    method GetStaticCacheEntry(key: CacheKey) returns (lookup: Option<Lookup>)
      modifies this`numCacheHits
      ensures lookup.Some? <==> key in executableCache
      ensures if lookup.Some? then (State(), Found(lookup.value)) == Hit(old(State()), key) else State() == old(State())
    {
      if key !in executableCache {
        return None;
      }
      numCacheHits := numCacheHits + 1;
      lookup := Some(Lookup(executableCache[key], None, false));
    }

    method AddStaticCacheEntry(key: CacheKey) returns (answer: Answer)
      modifies this`executableCache, this`promises, this`inserted
      ensures (State(), answer) == AddStatic(old(State()), key) && (old(Valid()) ==> Valid())
    {
      if key in executableCache {
        return Crash;
      }
      executableCache := executableCache[key := |promises|];
      answer := Found(Lookup(|promises|, None, true));
      promises := promises + [Promise(key, None)];
      inserted := inserted + 1;
    }

    method AddBoundedDynamicCacheEntry(shapeless: Fp, options: Fp, metadata: Metadata) returns (answer: Answer)
      modifies this`executableCache, this`boundedDynamicCache, this`promises, this`inserted
      ensures (State(), answer) == AddBounded(old(State()), shapeless, options, metadata) && (old(Valid()) ==> Valid())
    {
      var entries := if shapeless in boundedDynamicCache then boundedDynamicCache[shapeless] else [];
      var middle := MiddleKey(shapeless, options, metadata);
      boundedDynamicCache := boundedDynamicCache[shapeless := entries + [Entry(middle, metadata)]];
      answer := AddStaticCacheEntry(middle);
      if answer.Found? {
        answer := Found(answer.lookup.(metadata := Some(metadata)));
      }
    }

    method AnyDynamic(inputs: seq<Shape>) returns (any: bool)
      ensures any <==> Annotates(inputs)
    {
      for i := 0 to |inputs|
        invariant forall j :: 0 <= j < i ==> inputs[j].dynamic == []
      {
        if inputs[i].dynamic != [] {
          return true;
        }
      }
      return false;
    }

    method GetOrCreateCacheEntry(key: CacheKey, inputs: seq<Shape>, outputs: seq<Shape>, skip: bool)
      returns (answer: Answer)
      requires Valid() && AllInRange(inputs) && AllInRange(outputs)
      modifies this
      ensures (State(), answer) == GetOrCreate(old(State()), key, inputs, outputs, skip) && Valid()
      decreases !skip
    {
      if !allowCacheMode {
        var lookup := GetStaticCacheEntry(key);
        if lookup.Some? {
          return Found(lookup.value);
        }
        answer := AddStaticCacheEntry(key);
        return;
      }
      var lookup := GetStaticCacheEntry(key);
      if lookup.Some? {
        return Found(lookup.value);
      }
      var entries := if !skip && key.shapeless in boundedDynamicCache then boundedDynamicCache[key.shapeless] else [];
      for i := 0 to |entries|
        invariant State() == old(State()) && Valid()
        invariant FirstFit(entries, key.options, inputs, 0) == FirstFit(entries, key.options, inputs, i)
      {
        var compatible := IsStaticShapeCompatible(entries[i].metadata.inputs, inputs);
        if compatible && entries[i].middle.options == key.options {
          answer := GetOrCreateCacheEntry(entries[i].middle, inputs, outputs, true);
          if answer.Found? {
            answer := Found(answer.lookup.(metadata := Some(entries[i].metadata)));
          }
          return;
        }
      }
      if cacheOnlyMode {
        refused := refused + 1;
        return Refused;
      }
      var annotated := AnyDynamic(inputs);
      if !skip && annotated {
        var inputBounds := DimensionBoundsOf(inputs);
        var outputBounds := DimensionBoundsOf(outputs);
        answer := AddBoundedDynamicCacheEntry(key.shapeless, key.options, Metadata(inputBounds, outputBounds));
      } else {
        answer := AddStaticCacheEntry(key);
      }
    }

    /** The critical section with which every request starts. */
    method CountAndLookUp(r: Request) returns (answer: Answer)
      requires Valid() && AllInRange(r.inputs) && AllInRange(r.outputs)
      modifies this
      ensures (State(), answer) == Ask(old(State()), r) && Valid()
    {
      numCacheReqs := numCacheReqs + 1;
      answer := GetOrCreateCacheEntry(KeyOf(r), r.inputs, r.outputs, false);
    }

    method IsExecutableReady(key: CacheKey) returns (ready: bool)
      requires Valid()
      ensures ready <==> Ready(State(), key)
    {
      ready := key in executableCache && promises[executableCache[key]].outcome.Some?;
    }

    /** Sets a promise unless it is set already. */
    method TrySetExecutablePromise(p: nat, outcome: Outcome)
      requires p < |promises|
      modifies this`promises
      ensures State() == SetPromise(old(State()), p, outcome) && |promises| == old(|promises|)
    {
      if promises[p].outcome.None? {
        promises := promises[p := promises[p].(outcome := Some(outcome))];
      }
    }

    method SetExecutable(key: CacheKey, outcome: Outcome)
      requires Valid()
      modifies this`promises, this`executableCache
      ensures State() == Settle(old(State()), key, outcome) && Valid()
    {
      if key !in executableCache {
        return;
      }
      var ready := IsExecutableReady(key);
      if ready {
        return;
      }
      TrySetExecutablePromise(executableCache[key], outcome);
      if !allowCacheMode {
        executableCache := executableCache - {key};
      }
    }

    method SetAllowCacheMode(allow: bool)
      modifies this`allowCacheMode
      ensures State() == old(State()).(allow := allow) && (old(Valid()) ==> Valid())
    {
      allowCacheMode := allow;
    }

    method SetCacheOnlyMode(cacheOnly: bool)
      modifies this`cacheOnlyMode
      ensures State() == old(State()).(cacheOnly := cacheOnly) && (old(Valid()) ==> Valid())
    {
      cacheOnlyMode := cacheOnly;
    }

    /** One round of an eviction, under the lock, over a copy of the keys that are left. */
    method EvictRound(keysToEvict: set<CacheKey>) returns (left: set<CacheKey>)
      requires Valid()
      modifies this`executableCache
      ensures (State(), left) == Scan(old(State()), keysToEvict) && Valid()
    {
      hide Scan;
      left := keysToEvict;
      var keys := keysToEvict;
      ghost var before, done, kept := State(), {}, {};
      ScanNone(before);
      while keys != {}
        invariant done !! keys && done + keys == keysToEvict
        invariant Valid() && State() == before.(executables := executableCache)
        invariant executableCache == Scan(before, done).0.executables
        invariant kept == Scan(before, done).1 && left == kept + keys
        invariant kept <= done
      {
        var key :| key in keys;
        ScanNext(before, done, key);
        keys := keys - {key};
        done := done + {key};
        if key !in executableCache {
          left := left - {key};
        } else {
          var ready := IsExecutableReady(key);
          assert ready <==> Ready(before, key);
          if ready {
            executableCache := executableCache - {key};
            left := left - {key};
          } else {
            kept := kept + {key};
          }
        }
      }
      assert done == keysToEvict && left == kept;
      ScanOnlyExecutables(before, done);
    }

    /** The end of an eviction. */
    method ClearBoundedDynamicCache()
      modifies this`boundedDynamicCache
      ensures State() == old(State()).(bounded := map[]) && (old(Valid()) ==> Valid())
    {
      boundedDynamicCache := map[];
    }
  }

  // ---------- What every operation keeps ----------

  /** Every entry leads to the promise that was made for its key. */
  ghost predicate KeysInv(c: Cache) {
    forall key :: key in c.executables ==>
      c.executables[key] < |c.promises| && c.promises[c.executables[key]].key == key
  }

  /** Bounds of at least one dimension, in 64-bit integers. */
  ghost predicate Sized(metadata: Metadata) {
    metadata.inputs != [] && AllInt64(Uppers(metadata.inputs)) && AllInt64(Lowers(metadata.inputs))
  }

  ghost predicate EntryInv(shapeless: Fp, e: Entry) {
    e.middle == MiddleKey(shapeless, e.middle.options, e.metadata) && Sized(e.metadata)
  }

  /** Every bounded dynamic entry names the key that its own graph and bounds have. */
  ghost predicate EntriesInv(c: Cache) {
    forall shapeless, i :: shapeless in c.bounded && 0 <= i < |c.bounded[shapeless]| ==>
      EntryInv(shapeless, c.bounded[shapeless][i])
  }

  ghost predicate IsStaticKey(key: CacheKey) {
    exists dims :: AllInt64(dims) && key.dimensions == DimensionsKey(dims)
  }

  ghost predicate HasEntry(c: Cache, key: CacheKey) {
    exists i :: 0 <= i < |Entries(c, key.shapeless)| && Entries(c, key.shapeless)[i].middle == key
  }

  /** Every executable compiled for bounds can still be found by its bounds. */
  ghost predicate CoverInv(c: Cache) {
    forall key :: key in c.executables ==> IsStaticKey(key) || HasEntry(c, key)
  }

  /** Requests are hits, new entries and refusals, and every new entry has its own promise. */
  ghost predicate Conserved(c: Cache) {
    c.requests == c.hits + c.inserted + c.refused && c.inserted == |c.promises|
  }

  /** Sizes and bounds are 64-bit integers, and annotations name dimensions that exist. */
  ghost predicate WellFormed(r: Request) {
    && AllInRange(r.inputs) && AllInRange(r.outputs) && AllInt64(r.dims)
    && AllInt64(Uppers(AllBounds(r.inputs))) && AllInt64(Lowers(AllBounds(r.inputs)))
  }

  /** Every size of the inputs lies within the bounds that the inputs themselves give it. */
  ghost predicate SelfFits(r: Request) {
    Compatible(AllBounds(r.inputs), r.inputs)
  }

  function OwnMetadata(r: Request): Metadata {
    MetadataOf(r.inputs, r.outputs)
  }

  lemma OwnMetadataIsSized(r: Request)
    requires WellFormed(r) && Annotates(r.inputs)
    ensures Sized(OwnMetadata(r))
  {
    var i :| 0 <= i < |r.inputs| && r.inputs[i].dynamic != [];
    assert InRange(r.inputs[i]);
    assert r.inputs[i].dynamic[0].dimension < |r.inputs[i].dims|;
    ConcatSlice(BoundRows(r.inputs), i);
    assert |BoundRows(r.inputs)[i]| == |r.inputs[i].dims|;
  }

  /** No key of a request is the key of an executable compiled for bounds. */
  lemma StaticKeysAreNotMiddleKeys(key: CacheKey, shapeless: Fp, options: Fp, metadata: Metadata)
    requires IsStaticKey(key) && Sized(metadata)
    ensures key != MiddleKey(shapeless, options, metadata)
  {
    var dims :| AllInt64(dims) && key.dimensions == DimensionsKey(dims);
    DimensionsMeetBounds(dims, Uppers(metadata.inputs), Lowers(metadata.inputs));
    assert |Uppers(metadata.inputs)| == |metadata.inputs|;
  }

  /** Equal keys for bounds come from equal bounds. */
  lemma MiddleKeysDiffer(shapeless: Fp, options: Fp, m: Metadata, m': Metadata)
    requires Sized(m) && Sized(m') && MiddleKey(shapeless, options, m) == MiddleKey(shapeless, options, m')
    ensures m.inputs == m'.inputs
  {
    BoundsKeyInjective(Uppers(m.inputs), Lowers(m.inputs), Uppers(m'.inputs), Lowers(m'.inputs));
    assert |m.inputs| == |Uppers(m.inputs)| && |m'.inputs| == |Uppers(m'.inputs)|;
    forall d | 0 <= d < |m.inputs|
      ensures m.inputs[d] == m'.inputs[d]
    {
      assert Uppers(m.inputs)[d] == Uppers(m'.inputs)[d] && Lowers(m.inputs)[d] == Lowers(m'.inputs)[d];
    }
  }

  // ---------- What a request finds ----------

  ghost function Counted(c: Cache): Cache {
    c.(requests := c.requests + 1)
  }

  ghost function FitFor(c: Cache, r: Request): Option<nat> {
    FirstFit(Entries(c, r.shapeless), r.options, r.inputs, 0)
  }

  /** The way a request takes through the cache. */
  datatype Route =
    | StaticHit | Disabled | DynamicHit(index: nat) | Reinserted(index: nat)
    | Refusing | NewBounded | NewStatic | Crashing

  ghost function RouteOf(c: Cache, r: Request): Route {
    var fit := FitFor(c, r);
    if KeyOf(r) in c.executables then StaticHit
    else if !c.allow then Disabled
    else if fit.Some? then
      if Entries(c, r.shapeless)[fit.value].middle in c.executables then DynamicHit(fit.value)
      else if c.cacheOnly then Refusing else Reinserted(fit.value)
    else if c.cacheOnly then Refusing
    else if Annotates(r.inputs) then
      if MiddleKey(r.shapeless, r.options, OwnMetadata(r)) in c.executables then Crashing else NewBounded
    else NewStatic
  }

  /** What the chosen way does to the cache, and what it answers. */
  lemma AskByRoute(c: Cache, r: Request)
    ensures match RouteOf(c, r)
      case StaticHit => Ask(c, r) == Hit(Counted(c), KeyOf(r))
      case Disabled => Ask(c, r) == AddStatic(Counted(c), KeyOf(r))
      case DynamicHit(i) =>
        var e := Entries(c, r.shapeless)[i];
        Ask(c, r) == (Hit(Counted(c), e.middle).0, Found(Lookup(c.executables[e.middle], Some(e.metadata), false)))
      case Reinserted(i) =>
        var e := Entries(c, r.shapeless)[i];
        Ask(c, r) == (AddStatic(Counted(c), e.middle).0, Found(Lookup(|c.promises|, Some(e.metadata), true)))
      case Refusing => Ask(c, r) == (Counted(c).(refused := c.refused + 1), Refused)
      case NewBounded =>
        && Ask(c, r).0 == AddBounded(Counted(c), r.shapeless, r.options, OwnMetadata(r)).0
        && Ask(c, r).1 == Found(Lookup(|c.promises|, Some(OwnMetadata(r)), true))
      case NewStatic => Ask(c, r) == AddStatic(Counted(c), KeyOf(r))
      case Crashing => Ask(c, r).1 == Crash
  {
    var d, fit := Counted(c), FitFor(c, r);
    assert Entries(d, r.shapeless) == Entries(c, r.shapeless);
    if KeyOf(r) !in c.executables && c.allow && fit.Some? {
      var middle := Entries(c, r.shapeless)[fit.value].middle;
      assert FirstFit([], middle.options, r.inputs, 0) == None;
    }
  }

  /** The failed check, exactly: caching is on and nothing forbids compiling, the request is annotated, its
      own key is missing, none of its graph's entries fits it, and the key for its own bounds is there. */
  lemma AskCrashesIff(c: Cache, r: Request)
    ensures Ask(c, r).1 == Crash <==> RouteOf(c, r) == Crashing
    ensures RouteOf(c, r) == Crashing <==>
      && c.allow && !c.cacheOnly && Annotates(r.inputs) && KeyOf(r) !in c.executables
      && MiddleKey(r.shapeless, r.options, OwnMetadata(r)) in c.executables
      && forall i :: 0 <= i < |Entries(c, r.shapeless)| ==> !Fits(Entries(c, r.shapeless)[i], r.options, r.inputs)
  {
    hide Ask, MiddleKey, Fits, Annotates, KeyOf;
    AskByRoute(c, r);
  }

  // ---------- Requests keep the invariants ----------

  lemma AddStaticKeeps(c: Cache, key: CacheKey)
    requires KeysInv(c) && key !in c.executables
    ensures KeysInv(AddStatic(c, key).0)
  {
  }

  lemma AskKeepsKeys(c: Cache, r: Request)
    requires KeysInv(c)
    ensures Ask(c, r).1 != Crash ==> KeysInv(Ask(c, r).0)
  {
    hide Ask, AddStatic, MiddleKey;
    AskByRoute(c, r);
    match RouteOf(c, r)
    case Disabled => AddStaticKeeps(Counted(c), KeyOf(r));
    case Reinserted(i) => AddStaticKeeps(Counted(c), Entries(c, r.shapeless)[i].middle);
    case NewBounded => AddStaticKeeps(Appended(Counted(c), r), MiddleKey(r.shapeless, r.options, OwnMetadata(r)));
    case NewStatic => AddStaticKeeps(Counted(c), KeyOf(r));
    case _ =>
  }

  ghost function OwnEntry(r: Request): Entry {
    Entry(MiddleKey(r.shapeless, r.options, OwnMetadata(r)), OwnMetadata(r))
  }

  /** The cache with one more bounded dynamic entry, made for the request. */
  ghost function Appended(c: Cache, r: Request): Cache {
    c.(bounded := c.bounded[r.shapeless := Entries(c, r.shapeless) + [OwnEntry(r)]])
  }

  /** Only a request that makes a new bounded dynamic entry changes the second index. */
  lemma AskBounded(c: Cache, r: Request)
    ensures RouteOf(c, r) == NewBounded ==> Ask(c, r).0.bounded == Appended(c, r).bounded
    ensures !RouteOf(c, r).NewBounded? && !RouteOf(c, r).Crashing? ==> Ask(c, r).0.bounded == c.bounded
  {
    AskByRoute(c, r);
    assert Entries(Counted(c), r.shapeless) == Entries(c, r.shapeless);
  }

  lemma AskKeepsEntries(c: Cache, r: Request)
    requires EntriesInv(c) && WellFormed(r)
    ensures Ask(c, r).1 != Crash ==> EntriesInv(Ask(c, r).0)
  {
    hide Ask, MiddleKey, WellFormed, EntryInv;
    AskByRoute(c, r);
    AskBounded(c, r);
    if RouteOf(c, r) == NewBounded {
      OwnMetadataIsSized(r);
      OwnEntryInv(r);
    }
  }

  lemma OwnEntryInv(r: Request)
    requires Sized(OwnMetadata(r))
    ensures EntryInv(r.shapeless, OwnEntry(r))
  {
  }

  ghost predicate Covered(c: Cache, key: CacheKey) {
    IsStaticKey(key) || HasEntry(c, key)
  }

  lemma MoreEntriesCover(c: Cache, c': Cache, key: CacheKey)
    requires Covered(c, key) && Entries(c, key.shapeless) <= Entries(c', key.shapeless)
    ensures Covered(c', key)
  {
    if !IsStaticKey(key) {
      var i :| 0 <= i < |Entries(c, key.shapeless)| && Entries(c, key.shapeless)[i].middle == key;
      assert Entries(c', key.shapeless)[i].middle == key;
    }
  }

  /** The only key that a request can add to the cache, and that it is covered. */
  lemma AddedKeyIsCovered(c: Cache, r: Request, key: CacheKey)
    requires EntriesInv(c) && WellFormed(r) && Ask(c, r).1 != Crash
    requires key in Ask(c, r).0.executables && key !in c.executables
    ensures Covered(Ask(c, r).0, key)
  {
    hide Ask, MiddleKey, EntryInv;
    AskByRoute(c, r);
    AskBounded(c, r);
    var d := Ask(c, r).0;
    match RouteOf(c, r)
    case Reinserted(i) =>
      var e := Entries(c, r.shapeless)[i];
      assert EntryInv(r.shapeless, c.bounded[r.shapeless][i]);
      EntryNamesGraph(r.shapeless, e);
      assert Entries(d, key.shapeless)[i].middle == key;
    case NewBounded =>
      EntryNamesGraph(r.shapeless, OwnEntry(r));
      assert Entries(d, r.shapeless)[|Entries(c, r.shapeless)|] == OwnEntry(r);
    case Disabled => StaticKeyOf(r);
    case NewStatic => StaticKeyOf(r);
    case _ =>
  }

  lemma StaticKeyOf(r: Request)
    requires WellFormed(r)
    ensures IsStaticKey(KeyOf(r))
  {
  }

  lemma EntryNamesGraph(shapeless: Fp, e: Entry)
    ensures (EntryInv(shapeless, e) ==> e.middle.shapeless == shapeless)
    ensures forall options, metadata :: MiddleKey(shapeless, options, metadata).shapeless == shapeless
  {
  }

  lemma AskKeepsCover(c: Cache, r: Request)
    requires EntriesInv(c) && CoverInv(c) && WellFormed(r)
    ensures Ask(c, r).1 != Crash ==> CoverInv(Ask(c, r).0)
  {
    hide Ask, MiddleKey, EntriesInv, HasEntry, WellFormed;
    if Ask(c, r).1 != Crash {
      var d := Ask(c, r).0;
      forall key | key in d.executables
        ensures Covered(d, key)
      {
        if key in c.executables {
          AskByRoute(c, r);
          AskBounded(c, r);
          MoreEntriesCover(c, d, key);
        } else {
          AddedKeyIsCovered(c, r, key);
        }
      }
      assert forall key :: key in d.executables ==> Covered(d, key);
    }
  }

  /** Every request is a hit, makes an entry, or is refused. */
  lemma AskConserves(c: Cache, r: Request)
    requires Conserved(c)
    ensures Ask(c, r).1 != Crash ==> Conserved(Ask(c, r).0)
    ensures Ask(c, r).0.requests == c.requests + 1 && Ask(c, r).0.hits <= c.hits + 1
    ensures Ask(c, r).1.Found? && !Ask(c, r).1.lookup.needsCompilation <==> Ask(c, r).0.hits == c.hits + 1
  {
    hide Ask, MiddleKey;
    AskByRoute(c, r);
    AskCountsCrash(c, r);
  }

  lemma AskCountsCrash(c: Cache, r: Request)
    ensures RouteOf(c, r) == Crashing ==> Ask(c, r).0.requests == c.requests + 1 && Ask(c, r).0.hits == c.hits
  {
    AskByRoute(c, r);
  }

  /** In cache-only mode a request makes an entry only when caching is disabled and its key is missing:
      with caching enabled it makes none. */
  lemma CacheOnlyInserts(c: Cache, r: Request)
    requires c.cacheOnly
    ensures Ask(c, r).0.promises != c.promises <==> !c.allow && KeyOf(r) !in c.executables
    ensures Ask(c, r).1.Found? && Ask(c, r).1.lookup.needsCompilation <==> !c.allow && KeyOf(r) !in c.executables
  {
    hide Ask, MiddleKey;
    AskByRoute(c, r);
  }

  /** The caller compiles under the very key of the entry whose future it returns. */
  lemma StorageKeyIsKeyOfPromise(c: Cache, r: Request)
    requires KeysInv(c) && EntriesInv(c)
    ensures var (d, answer) := Ask(c, r);
      answer.Found? ==>
        answer.lookup.promise < |d.promises| && d.promises[answer.lookup.promise].key == StorageKey(r, answer.lookup)
  {
    hide Ask, MiddleKey, Sized;
    AskByRoute(c, r);
    match RouteOf(c, r)
    case DynamicHit(i) => assert EntryInv(r.shapeless, c.bounded[r.shapeless][i]);
    case Reinserted(i) => assert EntryInv(r.shapeless, c.bounded[r.shapeless][i]);
    case _ =>
  }

  // ---------- The check that a new key is not in the cache yet ----------

  lemma MiddleHasFit(c: Cache, r: Request)
    requires EntriesInv(c) && CoverInv(c) && WellFormed(r) && Annotates(r.inputs) && SelfFits(r)
    requires MiddleKey(r.shapeless, r.options, OwnMetadata(r)) in c.executables
    ensures FitFor(c, r).Some?
  {
    var key := MiddleKey(r.shapeless, r.options, OwnMetadata(r));
    OwnMetadataIsSized(r);
    if IsStaticKey(key) {
      StaticKeysAreNotMiddleKeys(key, r.shapeless, r.options, OwnMetadata(r));
    } else {
      var i :| 0 <= i < |Entries(c, r.shapeless)| && Entries(c, r.shapeless)[i].middle == key;
      assert EntryInv(r.shapeless, c.bounded[r.shapeless][i]);
      MiddleKeysDiffer(r.shapeless, r.options, Entries(c, r.shapeless)[i].metadata, OwnMetadata(r));
      assert Fits(Entries(c, r.shapeless)[i], r.options, r.inputs);
    }
  }

  /** A request whose sizes lie within its own bounds never meets its own new key in the cache. */
  lemma SelfFittingNeverCrashes(c: Cache, r: Request)
    requires EntriesInv(c) && CoverInv(c) && WellFormed(r) && SelfFits(r)
    ensures Ask(c, r).1 != Crash
  {
    hide Ask, MiddleKey, EntriesInv, CoverInv, WellFormed, SelfFits, Annotates;
    AskByRoute(c, r);
    if RouteOf(c, r) == Crashing {
      MiddleHasFit(c, r);
    }
  }

  // ---------- Dynamic hits ----------

  /** An answer with metadata belongs to an executable for the same graph and options, compiled for
      bounds within which all sizes of the request lie, unless the request made that entry itself. */
  lemma DynamicHitIsSound(c: Cache, r: Request)
    requires KeysInv(c) && EntriesInv(c) && Ask(c, r).1.Found? && Ask(c, r).1.lookup.metadata.Some?
    ensures var (d, answer) := Ask(c, r); var metadata := answer.lookup.metadata.value;
      && d.promises[answer.lookup.promise].key == MiddleKey(r.shapeless, r.options, metadata)
      && (Compatible(metadata.inputs, r.inputs) || (answer.lookup.needsCompilation && metadata == OwnMetadata(r)))
  {
    hide Ask, MiddleKey, EntriesInv, KeysInv, Compatible;
    AskByRoute(c, r);
    StorageKeyIsKeyOfPromise(c, r);
  }

  /** Whether the request made a bounded dynamic entry that it does not fit itself. */
  ghost predicate MisfitEntry(r: Request, answer: Answer) {
    answer.Found? && answer.lookup.needsCompilation && answer.lookup.metadata == Some(OwnMetadata(r)) && !SelfFits(r)
  }

  /** The same request again, straight after: it is answered with the same promise and counted as a hit,
      except that a request that does not fit its own new entry runs into the failed check. */
  lemma AskAgain(c: Cache, r: Request)
    requires KeysInv(c) && EntriesInv(c) && WellFormed(r) && c.allow && Ask(c, r).1.Found?
    ensures var (d, answer) := Ask(c, r); var again := Ask(d, r);
      if MisfitEntry(r, answer) then again.1 == Crash
      else
        again == (d.(requests := d.requests + 1, hits := d.hits + 1), Found(answer.lookup.(needsCompilation := false)))
  {
    hide Ask, MiddleKey, EntriesInv, KeysInv, WellFormed, Compatible;
    var (d, answer) := Ask(c, r);
    AskByRoute(c, r);
    AskBounded(c, r);
    AskByRoute(d, r);
    match RouteOf(c, r)
    case StaticHit => assert RouteOf(d, r) == StaticHit;
    case NewStatic => assert RouteOf(d, r) == StaticHit;
    case DynamicHit(i) => assert RouteOf(d, r) == DynamicHit(i);
    case Reinserted(i) =>
      MiddleIsNotStatic(c, r, i);
      assert RouteOf(d, r) == DynamicHit(i);
    case NewBounded =>
      OwnKeyIsNotStatic(r);
      AppendedFit(c, r);
      assert Entries(d, r.shapeless) == Entries(c, r.shapeless) + [OwnEntry(r)];
      assert FitFor(d, r) == if SelfFits(r) then Some(|Entries(c, r.shapeless)|) else None;
  }

  lemma MiddleIsNotStatic(c: Cache, r: Request, i: nat)
    requires EntriesInv(c) && WellFormed(r) && i < |Entries(c, r.shapeless)|
    ensures Entries(c, r.shapeless)[i].middle != KeyOf(r)
  {
    var e := Entries(c, r.shapeless)[i];
    assert EntryInv(r.shapeless, c.bounded[r.shapeless][i]);
    assert IsStaticKey(KeyOf(r));
    StaticKeysAreNotMiddleKeys(KeyOf(r), r.shapeless, e.middle.options, e.metadata);
  }

  lemma OwnKeyIsNotStatic(r: Request)
    requires WellFormed(r) && Annotates(r.inputs)
    ensures MiddleKey(r.shapeless, r.options, OwnMetadata(r)) != KeyOf(r)
  {
    OwnMetadataIsSized(r);
    assert IsStaticKey(KeyOf(r));
    StaticKeysAreNotMiddleKeys(KeyOf(r), r.shapeless, r.options, OwnMetadata(r));
  }

  lemma {:induction false} FitInMore(entries: seq<Entry>, e: Entry, options: Fp, inputs: seq<Shape>, i: nat)
    requires i <= |entries| && FirstFit(entries, options, inputs, i).None?
    ensures FirstFit(entries + [e], options, inputs, i) == if Fits(e, options, inputs) then Some(|entries|) else None
    decreases |entries| - i
  {
    if i == |entries| {
    } else {
      FitInMore(entries, e, options, inputs, i + 1);
    }
  }

  lemma AppendedFit(c: Cache, r: Request)
    requires FitFor(c, r).None?
    ensures FirstFit(Entries(c, r.shapeless) + [OwnEntry(r)], r.options, r.inputs, 0)
      == if SelfFits(r) then Some(|Entries(c, r.shapeless)|) else None
  {
    FitInMore(Entries(c, r.shapeless), OwnEntry(r), r.options, r.inputs, 0);
  }

  /** From an empty cache the second of two equal requests runs into the failed check exactly when the
      request is annotated and some size lies outside of its own bounds. */
  lemma AskTwiceCrashes(r: Request)
    requires WellFormed(r)
    ensures Ask(FRESH, r).1.Found? && Ask(FRESH, r).1.lookup.needsCompilation
    ensures Ask(Ask(FRESH, r).0, r).1 == Crash <==> Annotates(r.inputs) && !SelfFits(r)
  {
    hide Ask, MiddleKey, WellFormed, SelfFits;
    AskByRoute(FRESH, r);
    AskAgain(FRESH, r);
  }

  // ---------- The other operations ----------

  /** Setting and evicting take keys away at most; the entries stay. */
  lemma FewerKeys(c: Cache, d: Cache)
    requires KeysInv(c) && EntriesInv(c)
    requires d.bounded == c.bounded && |d.promises| == |c.promises|
    requires forall k :: k in d.executables ==> k in c.executables && d.executables[k] == c.executables[k]
    requires forall p :: 0 <= p < |c.promises| ==> d.promises[p].key == c.promises[p].key
    ensures KeysInv(d) && EntriesInv(d) && (CoverInv(c) ==> CoverInv(d))
  {
    if CoverInv(c) {
      forall key | key in d.executables
        ensures Covered(d, key)
      {
        assert Covered(c, key);
        MoreEntriesCover(c, d, key);
      }
      assert forall key :: key in d.executables ==> Covered(d, key);
    }
  }
}
