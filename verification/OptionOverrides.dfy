/** Compiler option overrides: how override maps are combined, and how the result is merged into the
    list of options by a scan that never goes back. */
module OptionOverrides {
  import opened Prelude
  import opened Orders

  type Entry = (string, string)

  datatype EffortLevel = O0 | O1 | O2 | O3

  datatype Error = EmptyName | UnknownLevel(level: string)

  /** The options that overrides change. */
  datatype Options = Options(list: seq<Entry>, optimization: Option<EffortLevel>, memoryFitting: Option<EffortLevel>)

  const OPTIMIZATION := "xla_optimization_level"
  const MEMORY_FITTING := "xla_memory_fitting_level"
  const AUTOFDO := "xla_tpu_autofdo"
  const DEDUPLICATED_CALLS := "xla_tpu_enable_deduplicated_calls"
  const VMEM_SCAVENGING := "xla_tpu_vmem_scavenging_mode"

  /** The options that are installed for TPU devices before any override. */
  const TPU_DEFAULTS: seq<Entry> := [(DEDUPLICATED_CALLS, "ENABLED"), (VMEM_SCAVENGING, "SAFE")]

  function ParseEffortLevel(level: string): Result<EffortLevel, Error> {
    if level == "O0" then Ok(O0)
    else if level == "O1" then Ok(O1)
    else if level == "O2" then Ok(O2)
    else if level == "O3" then Ok(O3)
    else Err(UnknownLevel(level))
  }

  // ---------- Sorted lists of entries ----------

  function Codes(s: string): seq<int> {
    seq(|s|, i requires 0 <= i < |s| => s[i] as int)
  }

  predicate KeyLess(a: string, b: string) {
    Less(Codes(a), Codes(b))
  }

  lemma KeyOrder(a: string, b: string)
    ensures KeyLess(a, b) || KeyLess(b, a) || a == b
    ensures !(KeyLess(a, b) && KeyLess(b, a)) && !KeyLess(a, a)
  {
    LessIsTotal(Codes(a), Codes(b));
    LessIsTotal(Codes(a), Codes(a));
    if Codes(a) == Codes(b) {
      assert |a| == |Codes(a)| && |b| == |Codes(b)|;
      forall i | 0 <= i < |a|
        ensures a[i] == b[i]
      {
        assert Codes(a)[i] == Codes(b)[i];
      }
    }
  }

  /** Sorted by key, every key once: what iterating over an ordered map gives. */
  ghost predicate Ascending(s: seq<Entry>) {
    forall i, j :: 0 <= i < j < |s| ==> KeyLess(s[i].0, s[j].0)
  }

  ghost predicate HasKey(s: seq<Entry>, key: string) {
    exists i :: 0 <= i < |s| && s[i].0 == key
  }

  /** The value of every key where it occurs last. */
  function MapOf(s: seq<Entry>): map<string, string> {
    if s == [] then map[] else MapOf(s[..|s| - 1])[s[|s| - 1].0 := s[|s| - 1].1]
  }

  lemma {:induction false} MapOfKeys(s: seq<Entry>, key: string)
    ensures key in MapOf(s) <==> HasKey(s, key)
  {
    if s == [] {
    } else {
      var front := s[..|s| - 1];
      MapOfKeys(front, key);
      if HasKey(s, key) && s[|s| - 1].0 != key {
        var i :| 0 <= i < |s| && s[i].0 == key;
        assert front[i].0 == key;
      }
      if HasKey(front, key) {
        var i :| 0 <= i < |front| && front[i].0 == key;
        assert s[i].0 == key;
      }
    }
  }

  lemma {:induction false} MapOfJoined(s: seq<Entry>, t: seq<Entry>)
    ensures MapOf(s + t) == MapOf(s) + MapOf(t)
  {
    if t == [] {
      assert s + t == s;
    } else {
      assert (s + t)[..|s + t| - 1] == s + t[..|t| - 1];
      MapOfJoined(s, t[..|t| - 1]);
    }
  }

  // ---------- The merge ----------

  /** The first place from `i` on, before place `n`, that has the key; `n` if there is none. */
  function Search(list: seq<Entry>, n: nat, i: nat, key: string): (r: nat)
    requires i <= n <= |list|
    ensures i <= r <= n && (r < n ==> list[r].0 == key)
    ensures forall j :: i <= j < r ==> list[j].0 != key
    decreases n - i
  {
    if i == n || list[i].0 == key then i else Search(list, n, i + 1, key)
  }

  /** Puts one ordinary override into the list, scanning from place `i`; the result is the list and
      the place from which the next scan goes on. */
  function PutOne(list: seq<Entry>, n: nat, i: nat, e: Entry): (r: (seq<Entry>, nat))
    requires i <= n <= |list|
    ensures r.1 <= n <= |r.0|
  {
    var found := Search(list, n, i, e.0);
    if found < n then (list[found := (list[found].0, e.1)], found + 1) else (list + [e], n)
  }

  function ApplyFrom(o: Options, n: nat, i: nat, overrides: seq<Entry>): Result<Options, Error>
    requires i <= n <= |o.list|
    decreases |overrides|
  {
    if overrides == [] then Ok(o)
    else
      var (key, value) := overrides[0];
      var level := ParseEffortLevel(value);
      if key == "" then Err(EmptyName)
      else if key == OPTIMIZATION then
        if level.Err? then Err(level.error) else ApplyFrom(o.(optimization := Some(level.value)), n, i, overrides[1..])
      else if key == MEMORY_FITTING then
        if level.Err? then Err(level.error) else ApplyFrom(o.(memoryFitting := Some(level.value)), n, i, overrides[1..])
      else
        var (list, next) := PutOne(o.list, n, i, overrides[0]);
        ApplyFrom(o.(list := list), n, next, overrides[1..])
  }

  class CompileOptions {
    var envOptionOverrides: seq<Entry>
    var optimizationLevel: Option<EffortLevel>
    var memoryFittingLevel: Option<EffortLevel>

    ghost function State(): Options
      reads this
    {
      Options(envOptionOverrides, optimizationLevel, memoryFittingLevel)
    }

    constructor (list: seq<Entry>)
      ensures State() == Options(list, None, None)
    {
      envOptionOverrides, optimizationLevel, memoryFittingLevel := list, None, None;
    }

    /** Replaces the value of an ordinary override, or appends it; returns where the next scan begins. */
    method Put(originalSize: nat, curOverrideIdx: nat, key: string, value: string) returns (next: nat)
      requires curOverrideIdx <= originalSize <= |envOptionOverrides|
      modifies this`envOptionOverrides
      ensures (envOptionOverrides, next) == PutOne(old(envOptionOverrides), originalSize, curOverrideIdx, (key, value))
    {
      next := curOverrideIdx;
      while next < originalSize
        invariant curOverrideIdx <= next <= originalSize && envOptionOverrides == old(envOptionOverrides)
        invariant Search(envOptionOverrides, originalSize, curOverrideIdx, key)
          == Search(envOptionOverrides, originalSize, next, key)
      {
        if envOptionOverrides[next].0 == key {
          envOptionOverrides := envOptionOverrides[next := (envOptionOverrides[next].0, value)];
          return next + 1;
        }
        next := next + 1;
      }
      envOptionOverrides := envOptionOverrides + [(key, value)];
    }

    /** After an error the options are of no further use. */
    method ApplyCompilerOptionOverrides(overrides: seq<Entry>) returns (status: Result<(), Error>)
      modifies this
      ensures match ApplyFrom(old(State()), |old(envOptionOverrides)|, 0, overrides)
        case Ok(o) => status == Ok(()) && State() == o
        case Err(error) => status == Err(error)
    {
      var originalSize: nat, curOverrideIdx: nat := |envOptionOverrides|, 0;
      for k := 0 to |overrides|
        invariant curOverrideIdx <= originalSize <= |envOptionOverrides|
        invariant ApplyFrom(old(State()), originalSize, 0, overrides)
          == ApplyFrom(State(), originalSize, curOverrideIdx, overrides[k..])
      {
        var (key, value) := overrides[k];
        assert overrides[k..][1..] == overrides[k + 1..];
        if key == "" {
          return Err(EmptyName);
        }
        if key == OPTIMIZATION || key == MEMORY_FITTING {
          var level := ParseEffortLevel(value);
          if level.Err? {
            return Err(level.error);
          }
          if key == OPTIMIZATION {
            optimizationLevel := Some(level.value);
          } else {
            memoryFittingLevel := Some(level.value);
          }
        } else {
          curOverrideIdx := Put(originalSize, curOverrideIdx, key, value);
        }
      }
      return Ok(());
    }
  }

  // ---------- What the merge gives ----------

  predicate IsOrdinary(key: string) {
    key != "" && key != OPTIMIZATION && key != MEMORY_FITTING
  }

  ghost predicate AllOrdinary(s: seq<Entry>) {
    forall i :: 0 <= i < |s| ==> IsOrdinary(s[i].0)
  }

  /** How many overrides come before the first whose key is not among the options. */
  ghost function Present(list: seq<Entry>, overrides: seq<Entry>): (m: nat)
    ensures m <= |overrides|
    ensures forall k :: 0 <= k < m ==> HasKey(list, overrides[k].0)
    ensures m < |overrides| ==> !HasKey(list, overrides[m].0)
  {
    if overrides == [] || !HasKey(list, overrides[0].0) then 0
    else
      var m := Present(list, overrides[1..]);
      assert forall k :: 0 < k < m + 1 ==> overrides[k] == overrides[1..][k - 1];
      m + 1
  }

  function Updated(list: seq<Entry>, values: map<string, string>): seq<Entry> {
    seq(|list|, i requires 0 <= i < |list| => (list[i].0, if list[i].0 in values then values[list[i].0] else list[i].1))
  }

  /** Overrides of present options up to the first absent one change values in place; all others are
      appended. */
  ghost function Merged(list: seq<Entry>, overrides: seq<Entry>): seq<Entry> {
    var m := Present(list, overrides);
    Updated(list, MapOf(overrides[..m])) + overrides[m..]
  }

  /** Once the scan has reached the end every override is appended. */
  lemma {:induction false} AppendsAll(o: Options, n: nat, overrides: seq<Entry>)
    requires n <= |o.list| && AllOrdinary(overrides)
    ensures ApplyFrom(o, n, n, overrides) == Ok(o.(list := o.list + overrides))
    decreases |overrides|
  {
    if overrides == [] {
      assert o.list + overrides == o.list;
    } else {
      assert overrides == [overrides[0]] + overrides[1..];
      AppendsAll(o.(list := o.list + [overrides[0]]), n, overrides[1..]);
      assert o.list + [overrides[0]] + overrides[1..] == o.list + overrides;
    }
  }

  lemma KeyHasOnePlace(list: seq<Entry>, i: nat, j: nat)
    requires Ascending(list) && i < |list| && j < |list| && (list[i].0 == list[j].0 || KeyLess(list[i].0, list[j].0))
    ensures i <= j && (list[i].0 == list[j].0 ==> i == j)
  {
    KeyOrder(list[i].0, list[j].0);
    KeyOrder(list[j].0, list[i].0);
  }

  /** A scan from behind the previous key finds every later key that is there. */
  lemma ScanFinds(list: seq<Entry>, i: nat, key: string)
    requires Ascending(list) && i <= |list| && (i > 0 ==> KeyLess(list[i - 1].0, key))
    ensures Search(list, |list|, i, key) < |list| <==> HasKey(list, key)
  {
    if HasKey(list, key) {
      var j :| 0 <= j < |list| && list[j].0 == key;
      if j < i {
        KeyHasOnePlace(list, i - 1, j);
        KeyOrder(key, key);
      }
    }
  }

  lemma ReplacedAscends(list: seq<Entry>, i: nat, value: string)
    requires Ascending(list) && i < |list|
    ensures Ascending(list[i := (list[i].0, value)])
    ensures forall key :: HasKey(list[i := (list[i].0, value)], key) <==> HasKey(list, key)
  {
    var after := list[i := (list[i].0, value)];
    forall key
      ensures HasKey(after, key) <==> HasKey(list, key)
    {
      if HasKey(list, key) {
        var j :| 0 <= j < |list| && list[j].0 == key;
        assert after[j].0 == key;
      }
      if HasKey(after, key) {
        var j :| 0 <= j < |after| && after[j].0 == key;
        assert list[j].0 == key;
      }
    }
  }

  lemma {:induction false} PresentSame(list: seq<Entry>, list': seq<Entry>, overrides: seq<Entry>)
    requires forall key :: HasKey(list', key) <==> HasKey(list, key)
    ensures Present(list', overrides) == Present(list, overrides)
    decreases |overrides|
  {
    if overrides == [] {
    } else {
      PresentSame(list, list', overrides[1..]);
    }
  }

  /** Updating one value first and the others later. */
  lemma UpdatedStep(list: seq<Entry>, i: nat, e: Entry, values: seq<Entry>)
    requires Ascending(list) && i < |list| && list[i].0 == e.0 && Ascending([e] + values)
    ensures Updated(list[i := (list[i].0, e.1)], MapOf(values)) == Updated(list, MapOf([e] + values))
  {
    MapOfJoined([e], values);
    assert [e][..0] == [] && MapOf([e]) == map[e.0 := e.1];
    MapOfKeys(values, e.0);
    if HasKey(values, e.0) {
      var k :| 0 <= k < |values| && values[k].0 == e.0;
      assert ([e] + values)[k + 1] == values[k];
      KeyOrder(e.0, e.0);
    }
    forall j | 0 <= j < |list|
      ensures Updated(list[i := (list[i].0, e.1)], MapOf(values))[j] == Updated(list, MapOf([e] + values))[j]
    {
      if list[j].0 == e.0 {
        KeyHasOnePlace(list, i, j);
      }
    }
  }

  ghost predicate AllAbove(overrides: seq<Entry>, list: seq<Entry>, i: nat)
    requires i <= |list|
  {
    i > 0 ==> forall k :: 0 <= k < |overrides| ==> KeyLess(list[i - 1].0, overrides[k].0)
  }

  lemma UpdatedNone(list: seq<Entry>)
    ensures Updated(list, MapOf([])) == list
  {
  }

  /** A first override whose option is there changes its value. */
  lemma MergedFound(list: seq<Entry>, found: nat, overrides: seq<Entry>)
    requires Ascending(list) && Ascending(overrides) && overrides != []
    requires found < |list| && list[found].0 == overrides[0].0
    ensures Merged(list[found := (list[found].0, overrides[0].1)], overrides[1..]) == Merged(list, overrides)
  {
    var e, rest := overrides[0], overrides[1..];
    var list' := list[found := (list[found].0, e.1)];
    ReplacedAscends(list, found, e.1);
    PresentSame(list, list', rest);
    var m := Present(list, rest);
    assert HasKey(list, e.0) && Present(list, overrides) == m + 1;
    assert overrides[..m + 1] == [e] + rest[..m] && overrides[m + 1..] == rest[m..];
    UpdatedStep(list, found, e, rest[..m]);
  }

  /** A first override whose option is not there is appended, with all the others. */
  lemma MergedAbsent(list: seq<Entry>, overrides: seq<Entry>)
    requires overrides != [] && !HasKey(list, overrides[0].0)
    ensures Merged(list, overrides) == list + [overrides[0]] + overrides[1..]
  {
    assert Present(list, overrides) == 0 && overrides[..0] == [] && overrides[0..] == overrides;
    UpdatedNone(list);
    assert overrides == [overrides[0]] + overrides[1..];
  }

  lemma AllAboveNext(overrides: seq<Entry>, list: seq<Entry>, found: nat)
    requires Ascending(overrides) && overrides != [] && found < |list| && list[found].0 == overrides[0].0
    ensures Ascending(overrides[1..])
    ensures AllAbove(overrides[1..], list[found := (list[found].0, overrides[0].1)], found + 1)
  {
  }

  lemma FirstAbove(overrides: seq<Entry>, list: seq<Entry>, i: nat)
    requires i <= |list| && overrides != [] && AllAbove(overrides, list, i)
    ensures i > 0 ==> KeyLess(list[i - 1].0, overrides[0].0)
  {
  }

  /** The scan gives the merged list: closed form of the whole loop. */
  lemma {:induction false} ApplyIsMerge(o: Options, i: nat, overrides: seq<Entry>)
    requires Ascending(o.list) && Ascending(overrides) && AllOrdinary(overrides)
    requires i <= |o.list| && AllAbove(overrides, o.list, i)
    ensures ApplyFrom(o, |o.list|, i, overrides) == Ok(o.(list := Merged(o.list, overrides)))
    decreases |overrides|
  {
    hide Merged, KeyLess, HasKey, Ascending, AllAbove, ParseEffortLevel;
    var list, n := o.list, |o.list|;
    if overrides == [] {
      MergedNone(list);
    } else {
      var e := overrides[0];
      FirstAbove(overrides, list, i);
      ScanFinds(list, i, e.0);
      var found := Search(list, n, i, e.0);
      if found < n {
        ReplacedAscends(list, found, e.1);
        AllAboveNext(overrides, list, found);
        ApplyIsMerge(o.(list := list[found := (list[found].0, e.1)]), found + 1, overrides[1..]);
        MergedFound(list, found, overrides);
      } else {
        AppendsAll(o.(list := list + [e]), n, overrides[1..]);
        MergedAbsent(list, overrides);
      }
    }
  }

  lemma MergedNone(list: seq<Entry>)
    ensures Merged(list, []) == list
  {
    UpdatedNone(list);
  }

  lemma MapOfUpdated(list: seq<Entry>, values: map<string, string>)
    requires forall key :: key in values ==> HasKey(list, key)
    ensures MapOf(Updated(list, values)) == MapOf(list) + values
  {
    forall key
      ensures key in MapOf(Updated(list, values)) <==> key in MapOf(list) + values
      ensures key in MapOf(Updated(list, values)) ==> MapOf(Updated(list, values))[key] == (MapOf(list) + values)[key]
    {
      LookupUpdated(list, values, key);
      MapOfKeys(list, key);
    }
  }

  lemma {:induction false} LookupUpdated(list: seq<Entry>, values: map<string, string>, key: string)
    ensures key in MapOf(Updated(list, values)) <==> key in MapOf(list)
    ensures key in MapOf(list) ==>
      MapOf(Updated(list, values))[key] == if key in values then values[key] else MapOf(list)[key]
  {
    if list == [] {
    } else {
      LookupUpdated(list[..|list| - 1], values, key);
      assert Updated(list, values)[..|list| - 1] == Updated(list[..|list| - 1], values);
    }
  }

  lemma UpdateTwice(list: seq<Entry>, present: seq<Entry>, appended: seq<Entry>, updated: seq<Entry>)
    requires MapOf(updated) == MapOf(list) + MapOf(present)
    ensures MapOf(updated + appended) == MapOf(list) + MapOf(present + appended)
  {
    hide MapOf;
    MapOfJoined(updated, appended);
    MapOfJoined(present, appended);
    Associative(MapOf(list), MapOf(present), MapOf(appended));
  }

  lemma Associative(a: map<string, string>, b: map<string, string>, c: map<string, string>)
    ensures a + b + c == a + (b + c)
  {
  }

  /** Looking up the last occurrence in the merged list gives the override where there is one, and the
      original value elsewhere. */
  lemma MergeIsUpdate(list: seq<Entry>, overrides: seq<Entry>)
    ensures MapOf(Merged(list, overrides)) == MapOf(list) + MapOf(overrides)
  {
    var m := Present(list, overrides);
    MergeIsUpdateAt(list, overrides, m);
  }

  lemma MergeIsUpdateAt(list: seq<Entry>, overrides: seq<Entry>, m: nat)
    requires m <= |overrides| && forall k :: 0 <= k < m ==> HasKey(list, overrides[k].0)
    ensures MapOf(Updated(list, MapOf(overrides[..m])) + overrides[m..]) == MapOf(list) + MapOf(overrides)
  {
    hide MapOf, Updated;
    var present, appended := overrides[..m], overrides[m..];
    UpdatedPresent(list, present);
    UpdateTwice(list, present, appended, Updated(list, MapOf(present)));
    assert present + appended == overrides;
  }

  lemma UpdatedPresent(list: seq<Entry>, present: seq<Entry>)
    requires forall k :: 0 <= k < |present| ==> HasKey(list, present[k].0)
    ensures MapOf(Updated(list, MapOf(present))) == MapOf(list) + MapOf(present)
  {
    hide MapOf, Updated;
    forall key | key in MapOf(present)
      ensures HasKey(list, key)
    {
      MapOfKeys(present, key);
    }
    MapOfUpdated(list, MapOf(present));
  }

  ghost predicate DuplicateAt(list: seq<Entry>, i: int, j: int) {
    0 <= i < j < |list| && list[i].0 == list[j].0
  }

  ghost predicate HasDuplicate(list: seq<Entry>) {
    exists i, j :: DuplicateAt(list, i, j)
  }

  /** An override of an absent option that sorts before an override of a present one. */
  ghost predicate Overtakes(list: seq<Entry>, overrides: seq<Entry>, k: int, l: int) {
    0 <= k < l < |overrides| && !HasKey(list, overrides[k].0) && HasKey(list, overrides[l].0)
  }

  lemma AscendingHasNoDuplicate(s: seq<Entry>, i: int, j: int)
    requires Ascending(s)
    ensures !DuplicateAt(s, i, j)
  {
    if DuplicateAt(s, i, j) {
      KeyOrder(s[i].0, s[j].0);
    }
  }

  /** The merged list has some key twice if and only if an override of an absent option sorts before an
      override of a present one: from the absent one on, everything is appended. */
  lemma DuplicatesExactly(list: seq<Entry>, overrides: seq<Entry>)
    requires Ascending(list) && Ascending(overrides)
    ensures HasDuplicate(Merged(list, overrides)) <==> exists k, l :: Overtakes(list, overrides, k, l)
  {
    var m, merged, n := Present(list, overrides), Merged(list, overrides), |list|;
    if HasDuplicate(merged) {
      var i, j :| DuplicateAt(merged, i, j);
      AscendingHasNoDuplicate(list, i, j);
      AscendingHasNoDuplicate(overrides, m + i - n, m + j - n);
      assert i < n <= j;
      assert merged[j] == overrides[m + j - n] && list[i].0 == merged[i].0;
      assert Overtakes(list, overrides, m, m + j - n);
    }
    if k, l :| Overtakes(list, overrides, k, l) {
      assert m <= k;
      var i :| 0 <= i < n && list[i].0 == overrides[l].0;
      assert merged[n + l - m] == overrides[l] && merged[i].0 == list[i].0;
      assert DuplicateAt(merged, i, n + l - m);
    }
  }

  // ---------- Special names ----------

  function Ordinary(overrides: seq<Entry>): (r: seq<Entry>) {
    if overrides == [] then []
    else if IsOrdinary(overrides[0].0) then [overrides[0]] + Ordinary(overrides[1..])
    else Ordinary(overrides[1..])
  }

  predicate Rejected(e: Entry) {
    e.0 == "" || ((e.0 == OPTIMIZATION || e.0 == MEMORY_FITTING) && ParseEffortLevel(e.1).Err?)
  }

  ghost predicate AllAccepted(overrides: seq<Entry>) {
    forall k :: 0 <= k < |overrides| ==> !Rejected(overrides[k])
  }

  /** The level that the overrides set, by the value of the special name where it occurs last. */
  function LevelOf(values: map<string, string>, name: string, before: Option<EffortLevel>): Option<EffortLevel> {
    if name in values && ParseEffortLevel(values[name]).Ok? then Some(ParseEffortLevel(values[name]).value) else before
  }

  lemma OneMore(e: Entry, rest: seq<Entry>)
    ensures MapOf([e] + rest) == map[e.0 := e.1] + MapOf(rest)
  {
    MapOfJoined([e], rest);
    assert [e][..0] == [] && MapOf([e]) == map[e.0 := e.1];
  }

  /** What all the overrides together do: the ordinary ones are merged as if they were alone, each level
      follows its own name, and the whole call fails exactly when some name is empty or some level is
      unknown. */
  ghost predicate Splits(o: Options, n: nat, i: nat, overrides: seq<Entry>)
    requires i <= n <= |o.list|
  {
    var values, alone := MapOf(overrides), ApplyFrom(o, n, i, Ordinary(overrides));
    match ApplyFrom(o, n, i, overrides)
    case Err(_) => !AllAccepted(overrides)
    case Ok(r) =>
      && AllAccepted(overrides) && alone.Ok? && r.list == alone.value.list
      && r.optimization == LevelOf(values, OPTIMIZATION, o.optimization)
      && r.memoryFitting == LevelOf(values, MEMORY_FITTING, o.memoryFitting)
  }

  lemma {:induction false} OrdinaryLevels(o: Options, n: nat, i: nat, o': Options, overrides: seq<Entry>)
    requires i <= n <= |o.list| && o'.list == o.list && AllOrdinary(overrides)
    ensures ApplyFrom(o, n, i, overrides).Ok? && ApplyFrom(o', n, i, overrides).Ok?
    ensures ApplyFrom(o, n, i, overrides).value.list == ApplyFrom(o', n, i, overrides).value.list
    decreases |overrides|
  {
    if overrides == [] {
    } else {
      var (list, next) := PutOne(o.list, n, i, overrides[0]);
      OrdinaryLevels(o.(list := list), n, next, o'.(list := list), overrides[1..]);
    }
  }

  lemma {:induction false} OrdinaryIsOrdinary(overrides: seq<Entry>)
    ensures AllOrdinary(Ordinary(overrides))
  {
    if overrides == [] {
    } else {
      OrdinaryIsOrdinary(overrides[1..]);
    }
  }

  lemma AcceptedFromFirst(overrides: seq<Entry>)
    requires overrides != []
    ensures AllAccepted(overrides) <==> !Rejected(overrides[0]) && AllAccepted(overrides[1..])
  {
    if !Rejected(overrides[0]) && AllAccepted(overrides[1..]) {
      forall k | 0 <= k < |overrides|
        ensures !Rejected(overrides[k])
      {
        assert k > 0 ==> overrides[k] == overrides[1..][k - 1];
      }
    }
  }

  lemma {:induction false} SpecialNamesApart(o: Options, n: nat, i: nat, overrides: seq<Entry>)
    requires i <= n <= |o.list| && Ascending(overrides)
    ensures Splits(o, n, i, overrides)
    decreases |overrides|
  {
    hide PutOne, AllAccepted, ParseEffortLevel;
    if overrides == [] {
      NothingRejected();
    } else {
      var e, rest := overrides[0], overrides[1..];
      assert overrides == [e] + rest;
      OneMore(e, rest);
      AcceptedFromFirst(overrides);
      OrdinaryIsOrdinary(rest);
      NotAgain(overrides);
      MapOfKeys(rest, e.0);
      assert OPTIMIZATION != MEMORY_FITTING by { assert |OPTIMIZATION| != |MEMORY_FITTING|; }
      if e.0 == OPTIMIZATION && ParseEffortLevel(e.1).Ok? {
        var o' := o.(optimization := Some(ParseEffortLevel(e.1).value));
        SpecialNamesApart(o', n, i, rest);
        OrdinaryLevels(o, n, i, o', Ordinary(rest));
      } else if e.0 == MEMORY_FITTING && ParseEffortLevel(e.1).Ok? {
        var o' := o.(memoryFitting := Some(ParseEffortLevel(e.1).value));
        SpecialNamesApart(o', n, i, rest);
        OrdinaryLevels(o, n, i, o', Ordinary(rest));
      } else if IsOrdinary(e.0) {
        var (list, next) := PutOne(o.list, n, i, e);
        SpecialNamesApart(o.(list := list), n, next, rest);
        assert Ordinary(overrides) == [e] + Ordinary(rest);
      }
    }
  }

  lemma NothingRejected()
    ensures AllAccepted([])
  {
  }

  lemma NotAgain(overrides: seq<Entry>)
    requires Ascending(overrides) && overrides != []
    ensures !HasKey(overrides[1..], overrides[0].0)
  {
    if HasKey(overrides[1..], overrides[0].0) {
      var k :| 0 <= k < |overrides[1..]| && overrides[1..][k].0 == overrides[0].0;
      assert overrides[k + 1].0 == overrides[0].0;
      KeyOrder(overrides[0].0, overrides[0].0);
    }
  }

  // ---------- Which override wins ----------

  method UpdateMap(target: map<string, string>, updates: seq<Entry>) returns (updated: map<string, string>)
    ensures updated == target + MapOf(updates)
  {
    updated := target;
    for i := 0 to |updates|
      invariant updated == target + MapOf(updates[..i])
    {
      assert updates[..i + 1][..i] == updates[..i];
      updated := updated[updates[i].0 := updates[i].1];
    }
    assert updates[..|updates|] == updates;
  }

  function EagerDefaults(isTpu: bool, fast: bool): map<string, string> {
    if isTpu && fast then map[OPTIMIZATION := "O1", AUTOFDO := "false"] else map[]
  }

  method MakeCompilerOptionOverrides(isTpu: bool, fast: bool, environment: seq<Entry>, context: seq<Entry>)
    returns (overrides: map<string, string>)
    ensures overrides == EagerDefaults(isTpu, fast) + MapOf(environment) + MapOf(context)
  {
    overrides := map[];
    if isTpu && fast {
      overrides := overrides[OPTIMIZATION := "O1"];
      overrides := overrides[AUTOFDO := "false"];
    }
    overrides := UpdateMap(overrides, environment);
    overrides := UpdateMap(overrides, context);
  }

  function Lookup(values: map<string, string>, key: string): Option<string> {
    if key in values then Some(values[key]) else None
  }

  /** The value by precedence: context, environment, eager defaults, original options. */
  function Effective(list: seq<Entry>, defaults: map<string, string>, environment: seq<Entry>, context: seq<Entry>,
      key: string): Option<string> {
    if key in MapOf(context) then Lookup(MapOf(context), key)
    else if key in MapOf(environment) then Lookup(MapOf(environment), key)
    else if key in defaults then Lookup(defaults, key)
    else Lookup(MapOf(list), key)
  }

  lemma {:induction false} OrdinaryKeepsOrdinary(overrides: seq<Entry>, key: string)
    requires IsOrdinary(key)
    ensures Lookup(MapOf(Ordinary(overrides)), key) == Lookup(MapOf(overrides), key)
  {
    if overrides == [] {
    } else {
      assert overrides == [overrides[0]] + overrides[1..];
      OneMore(overrides[0], overrides[1..]);
      OneMore(overrides[0], Ordinary(overrides[1..]));
      OrdinaryKeepsOrdinary(overrides[1..], key);
    }
  }

  lemma {:induction false} OrdinaryAscends(overrides: seq<Entry>)
    requires Ascending(overrides)
    ensures Ascending(Ordinary(overrides))
    ensures forall i :: 0 <= i < |Ordinary(overrides)| ==> Ordinary(overrides)[i] in overrides
  {
    if overrides == [] {
    } else {
      OrdinaryAscends(overrides[1..]);
      var rest := Ordinary(overrides[1..]);
      forall i | 0 <= i < |rest|
        ensures rest[i] in overrides && KeyLess(overrides[0].0, rest[i].0)
      {
        var k :| 0 <= k < |overrides[1..]| && overrides[1..][k] == rest[i];
        assert overrides[k + 1] == rest[i];
      }
    }
  }

  /** From the sources of overrides to the options that the compiler sees: every ordinary option has the
      value of the source with the highest precedence that names it, even if it is in the list twice. */
  lemma EffectiveOptions(o: Options, overrides: seq<Entry>, defaults: map<string, string>, environment: seq<Entry>,
      context: seq<Entry>, key: string)
    requires Ascending(o.list) && Ascending(overrides)
    requires MapOf(overrides) == defaults + MapOf(environment) + MapOf(context)
    requires IsOrdinary(key)
    ensures match ApplyFrom(o, |o.list|, 0, overrides)
      case Ok(r) => Lookup(MapOf(r.list), key) == Effective(o.list, defaults, environment, context, key)
      case Err(_) => !AllAccepted(overrides)
  {
    hide ApplyFrom, Merged, MapOf, Ordinary, Ascending, AllAccepted, AllOrdinary;
    SpecialNamesApart(o, |o.list|, 0, overrides);
    OrdinaryIsOrdinary(overrides);
    OrdinaryAscends(overrides);
    ApplyIsMerge(o, 0, Ordinary(overrides));
    MergeIsUpdate(o.list, Ordinary(overrides));
    OrdinaryKeepsOrdinary(overrides, key);
  }

  // ---------- By names and values ----------

  /** The map of a list has, for every name in it, the value of its last occurrence. */
  lemma {:induction false} MapOfIsLast(s: seq<Entry>, k: nat)
    requires k < |s| && forall l :: k < l < |s| ==> s[l].0 != s[k].0
    ensures s[k].0 in MapOf(s) && MapOf(s)[s[k].0] == s[k].1
  {
    if k == |s| - 1 {
    } else {
      MapOfIsLast(s[..|s| - 1], k);
    }
  }

  /** How a level is written. */
  function LevelName(level: EffortLevel): string {
    match level
    case O0 => "O0"
    case O1 => "O1"
    case O2 => "O2"
    case O3 => "O3"
  }

  lemma LevelRead(level: string)
    ensures ParseEffortLevel(level).Ok? <==> level in {"O0", "O1", "O2", "O3"}
    ensures ParseEffortLevel(level).Ok? ==> LevelName(ParseEffortLevel(level).value) == level
  {
  }

  /** The level has been set by what is under the name, or is as before without it. */
  ghost predicate LevelFollows(values: map<string, string>, name: string, before: Option<EffortLevel>,
      after: Option<EffortLevel>) {
    if name in values then after.Some? && LevelName(after.value) == values[name] else after == before
  }

  /** The outcome of a whole call by names and values: it fails exactly if a name is empty or one of the two
      levels has another value than O0 to O3; otherwise each level is the one that is written under its
      name, and every other name has the value of the last override of it, or of the options before. */
  lemma OverridesByName(o: Options, overrides: seq<Entry>)
    requires Ascending(o.list) && Ascending(overrides)
    ensures var values := MapOf(overrides);
      match ApplyFrom(o, |o.list|, 0, overrides)
      case Err(_) =>
        || "" in values
        || ("xla_optimization_level" in values && values["xla_optimization_level"] !in {"O0", "O1", "O2", "O3"})
        || ("xla_memory_fitting_level" in values && values["xla_memory_fitting_level"] !in {"O0", "O1", "O2", "O3"})
      case Ok(r) =>
        && "" !in values
        && LevelFollows(values, "xla_optimization_level", o.optimization, r.optimization)
        && LevelFollows(values, "xla_memory_fitting_level", o.memoryFitting, r.memoryFitting)
        && forall name :: name !in {"", "xla_optimization_level", "xla_memory_fitting_level"} ==>
             Lookup(MapOf(r.list), name) == Lookup(MapOf(o.list) + values, name)
  {
    hide ApplyFrom, MapOf, Ascending, ParseEffortLevel, Ordinary, Effective, LevelOf;
    var values := MapOf(overrides);
    SpecialNamesApart(o, |o.list|, 0, overrides);
    RejectedByName(overrides);
    match ApplyFrom(o, |o.list|, 0, overrides)
    case Err(_) =>
    case Ok(r) =>
      LevelOfFollows(values, OPTIMIZATION, o.optimization);
      LevelOfFollows(values, MEMORY_FITTING, o.memoryFitting);
      forall name | name !in {"", "xla_optimization_level", "xla_memory_fitting_level"}
        ensures Lookup(MapOf(r.list), name) == Lookup(MapOf(o.list) + values, name)
      {
        NoOtherSource(overrides);
        EffectiveOptions(o, overrides, map[], [], overrides, name);
        EffectiveIsUpdate(o.list, overrides, name);
      }
  }

  lemma NoOtherSource(overrides: seq<Entry>)
    ensures MapOf(overrides) == map[] + MapOf([]) + MapOf(overrides)
  {
  }

  lemma EffectiveIsUpdate(list: seq<Entry>, overrides: seq<Entry>, name: string)
    ensures Effective(list, map[], [], overrides, name) == Lookup(MapOf(list) + MapOf(overrides), name)
  {
    assert MapOf([]) == map[];
  }

  lemma LevelOfFollows(values: map<string, string>, name: string, before: Option<EffortLevel>)
    requires name in values ==> ParseEffortLevel(values[name]).Ok?
    ensures LevelFollows(values, name, before, LevelOf(values, name, before))
  {
    hide ParseEffortLevel;
    if name in values {
      LevelRead(values[name]);
    }
  }

  lemma RejectedByName(overrides: seq<Entry>)
    requires Ascending(overrides)
    ensures var values := MapOf(overrides);
      AllAccepted(overrides) <==>
        && "" !in values
        && ("xla_optimization_level" in values ==> ParseEffortLevel(values["xla_optimization_level"]).Ok?)
        && ("xla_memory_fitting_level" in values ==> ParseEffortLevel(values["xla_memory_fitting_level"]).Ok?)
    ensures forall level :: ParseEffortLevel(level).Ok? <==> level in {"O0", "O1", "O2", "O3"}
  {
    hide MapOf, ParseEffortLevel;
    var values := MapOf(overrides);
    forall k | 0 <= k < |overrides|
      ensures overrides[k].0 in values && values[overrides[k].0] == overrides[k].1
    {
      LastOfAscending(overrides, k);
      MapOfIsLast(overrides, k);
    }
    forall name | name in values
      ensures (name, values[name]) in overrides
    {
      MapOfKeys(overrides, name);
      var k :| 0 <= k < |overrides| && overrides[k].0 == name;
      assert overrides[k] == (name, values[name]);
    }
    forall level
      ensures ParseEffortLevel(level).Ok? <==> level in {"O0", "O1", "O2", "O3"}
    {
      LevelRead(level);
    }
    AcceptedByEntry(overrides);
  }

  lemma AcceptedByEntry(overrides: seq<Entry>)
    ensures AllAccepted(overrides) <==> forall e :: e in overrides ==> !Rejected(e)
  {
    if forall e :: e in overrides ==> !Rejected(e) {
      forall k | 0 <= k < |overrides|
        ensures !Rejected(overrides[k])
      {
        assert overrides[k] in overrides;
      }
    }
  }

  lemma LastOfAscending(overrides: seq<Entry>, k: nat)
    requires Ascending(overrides) && k < |overrides|
    ensures forall l :: k < l < |overrides| ==> overrides[l].0 != overrides[k].0
  {
    KeyOrder(overrides[k].0, overrides[k].0);
  }

  /** The options of a TPU before any override, and what becomes of them: each keeps its value unless an
      override names it. */
  lemma TpuDefaultValues(values: map<string, string>)
    ensures var merged := MapOf(TPU_DEFAULTS) + values;
      && Lookup(merged, "xla_tpu_enable_deduplicated_calls")
        == Some(if "xla_tpu_enable_deduplicated_calls" in values then values["xla_tpu_enable_deduplicated_calls"]
          else "ENABLED")
      && Lookup(merged, "xla_tpu_vmem_scavenging_mode")
        == Some(if "xla_tpu_vmem_scavenging_mode" in values then values["xla_tpu_vmem_scavenging_mode"] else "SAFE")
    ensures |TPU_DEFAULTS| == 2
  {
    assert DEDUPLICATED_CALLS != VMEM_SCAVENGING by { assert |DEDUPLICATED_CALLS| != |VMEM_SCAVENGING|; }
    MapOfIsLast(TPU_DEFAULTS, 0);
    MapOfIsLast(TPU_DEFAULTS, 1);
  }

  /** The first override that is rejected decides the error, by its name or by the text of the level. */
  lemma {:induction false} ErrorByName(o: Options, n: nat, i: nat, overrides: seq<Entry>, k: nat)
    requires i <= n <= |o.list| && k < |overrides|
    requires forall j :: 0 <= j < k ==> !Rejected(overrides[j])
    requires Rejected(overrides[k])
    ensures ApplyFrom(o, n, i, overrides)
      == Err(if overrides[k].0 == "" then EmptyName else UnknownLevel(overrides[k].1))
    decreases |overrides|
  {
    hide PutOne, ParseEffortLevel;
    UnknownIsNamed(overrides[k].1);
    if k > 0 {
      var (key, value) := overrides[0];
      assert !Rejected(overrides[0]);
      assert forall j :: 0 <= j < k - 1 ==> overrides[1..][j] == overrides[j + 1];
      if key == OPTIMIZATION {
        ErrorByName(o.(optimization := Some(ParseEffortLevel(value).value)), n, i, overrides[1..], k - 1);
      } else if key == MEMORY_FITTING {
        ErrorByName(o.(memoryFitting := Some(ParseEffortLevel(value).value)), n, i, overrides[1..], k - 1);
      } else {
        var (list, next) := PutOne(o.list, n, i, overrides[0]);
        ErrorByName(o.(list := list), n, next, overrides[1..], k - 1);
      }
    }
  }

  lemma UnknownIsNamed(level: string)
    ensures ParseEffortLevel(level).Err? ==> ParseEffortLevel(level).error == UnknownLevel(level)
  {
  }

  /** What fast compilation on a TPU adds: unless the environment or the context says otherwise, the
      optimization level is O1 and lowering parameters are not taken from the database. */
  lemma EagerModeDefaults(isTpu: bool, fast: bool, environment: seq<Entry>, context: seq<Entry>, name: string)
    ensures var values := EagerDefaults(isTpu, fast) + MapOf(environment) + MapOf(context);
      Lookup(values, name)
        == if name in MapOf(context) then Some(MapOf(context)[name])
           else if name in MapOf(environment) then Some(MapOf(environment)[name])
           else if isTpu && fast && name == "xla_optimization_level" then Some("O1")
           else if isTpu && fast && name == "xla_tpu_autofdo" then Some("false")
           else None
  {
    assert OPTIMIZATION != AUTOFDO by { assert |OPTIMIZATION| != |AUTOFDO|; }
  }

  // ---------- Overrides of the TPU defaults ----------

  predicate IsTpuDefault(key: string) {
    key == DEDUPLICATED_CALLS || key == VMEM_SCAVENGING
  }

  /** The names differ first in their ninth character. */
  lemma DiffersAtNinth(a: string, b: string)
    requires 8 < |a| && 8 < |b| && a[..8] == b[..8] && a[8] < b[8]
    ensures KeyLess(a, b)
  {
    forall i | 0 <= i < 8
      ensures Codes(a)[i] == Codes(b)[i]
    {
      assert a[i] == a[..8][i] && b[i] == b[..8][i];
    }
    assert ListSmallerAt(Codes(a), Codes(b), 8);
    SmallerAtPlace(Codes(a), Codes(b), 8);
  }

  lemma TpuNamesAscend()
    ensures KeyLess(AUTOFDO, DEDUPLICATED_CALLS) && KeyLess(AUTOFDO, VMEM_SCAVENGING)
    ensures Ascending(TPU_DEFAULTS)
  {
    assert AUTOFDO[..8] == DEDUPLICATED_CALLS[..8] == VMEM_SCAVENGING[..8] == "xla_tpu_";
    DiffersAtNinth(AUTOFDO, DEDUPLICATED_CALLS);
    DiffersAtNinth(AUTOFDO, VMEM_SCAVENGING);
    DiffersAtNinth(DEDUPLICATED_CALLS, VMEM_SCAVENGING);
  }

  lemma TpuDefaultKeys(key: string)
    ensures HasKey(TPU_DEFAULTS, key) <==> IsTpuDefault(key)
  {
    assert TPU_DEFAULTS[0].0 == DEDUPLICATED_CALLS && TPU_DEFAULTS[1].0 == VMEM_SCAVENGING;
  }

  /** Overrides that hold the eager default and a TPU default option list that option twice. */
  lemma TpuDefaultListedTwice(overrides: seq<Entry>, key: string)
    requires Ascending(overrides) && HasKey(overrides, AUTOFDO) && HasKey(overrides, key) && IsTpuDefault(key)
    ensures HasDuplicate(Merged(TPU_DEFAULTS, overrides))
  {
    hide KeyLess, Merged;
    TpuNamesAscend();
    TpuDefaultKeys(AUTOFDO);
    TpuDefaultKeys(key);
    KeyOrder(AUTOFDO, AUTOFDO);
    var k :| 0 <= k < |overrides| && overrides[k].0 == AUTOFDO;
    var l :| 0 <= l < |overrides| && overrides[l].0 == key;
    KeyOrder(AUTOFDO, key);
    assert Overtakes(TPU_DEFAULTS, overrides, k, l);
    DuplicatesExactly(TPU_DEFAULTS, overrides);
  }

  /** In the eager mode on a TPU device every override of one of the installed options, from the
      environment or from the context, ends up in the list twice. */
  lemma EagerModeListsTwice(o: Options, overrides: seq<Entry>, environment: seq<Entry>, context: seq<Entry>,
      key: string)
    requires o.list == TPU_DEFAULTS && Ascending(overrides)
    requires MapOf(overrides) == EagerDefaults(true, true) + MapOf(environment) + MapOf(context)
    requires IsTpuDefault(key) && (HasKey(environment, key) || HasKey(context, key))
    ensures match ApplyFrom(o, |o.list|, 0, overrides)
      case Ok(r) => HasDuplicate(r.list)
      case Err(_) => !AllAccepted(overrides)
  {
    hide ApplyFrom, Merged, MapOf, Ordinary, Ascending, AllAccepted, AllOrdinary, HasDuplicate, KeyLess;
    var plain := Ordinary(overrides);
    SpecialNamesApart(o, |o.list|, 0, overrides);
    OrdinaryIsOrdinary(overrides);
    OrdinaryAscends(overrides);
    TpuNamesAscend();
    ApplyIsMerge(o, 0, plain);
    MapOfKeys(environment, key);
    MapOfKeys(context, key);
    TpuNamesAreOrdinary(key);
    OrdinaryKeepsOrdinary(overrides, key);
    OrdinaryKeepsOrdinary(overrides, AUTOFDO);
    MapOfKeys(plain, key);
    MapOfKeys(plain, AUTOFDO);
    TpuDefaultListedTwice(plain, key);
  }

  lemma TpuNamesAreOrdinary(key: string)
    requires IsTpuDefault(key)
    ensures IsOrdinary(key) && IsOrdinary(AUTOFDO)
  {
    assert OPTIMIZATION[4] == 'o' && MEMORY_FITTING[4] == 'm';
    assert AUTOFDO[4] == 't' && DEDUPLICATED_CALLS[4] == 't' && VMEM_SCAVENGING[4] == 't';
  }
}
