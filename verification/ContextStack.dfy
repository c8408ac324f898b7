/** The thread's stack of context managers: linked nodes of seven types of state that share one stack,
    looked up by type, and the compiler options in effect under nested option scopes. */
module ContextStacks {
  import opened Prelude
  import OptionOverrides

  type Overrides = map<string, string>

  datatype Kind = Options | Eager | Tracebacks | Spmd | Layouts | Precisions | Profiles

  datatype ContextState =
    | CustomCompilerOptions(overrides: Overrides)
    | EagerMode(value: int)
    | EnableTracebacks(value: int)
    | IsSpmdSafe(value: int)
    | Layout(value: int)
    | Precision(value: int)
    | Profile(value: int)

  function KindOf(s: ContextState): Kind {
    match s
    case CustomCompilerOptions(_) => Options
    case EagerMode(_) => Eager
    case EnableTracebacks(_) => Tracebacks
    case IsSpmdSafe(_) => Spmd
    case Layout(_) => Layouts
    case Precision(_) => Precisions
    case Profile(_) => Profiles
  }

  // ---------- Looking up by type ----------

  /** The states of one type only, in the order of the stack. */
  function Filtered(contents: seq<ContextState>, kind: Kind): seq<ContextState> {
    if contents == [] then []
    else
      var last := contents[|contents| - 1];
      Filtered(contents[..|contents| - 1], kind) + if KindOf(last) == kind then [last] else []
  }

  function TopOf(contents: seq<ContextState>, kind: Kind): Option<ContextState> {
    var states := Filtered(contents, kind);
    if states == [] then None else Some(states[|states| - 1])
  }

  /** The search goes on below the last state unless that has the type. */
  lemma TopOfPrefix(contents: seq<ContextState>, i: nat, kind: Kind)
    requires i <= |contents|
    ensures TopOf(contents[..i], kind)
      == if i == 0 then None
         else if KindOf(contents[i - 1]) == kind then Some(contents[i - 1])
         else TopOf(contents[..i - 1], kind)
  {
    if i > 0 {
      assert contents[..i] == contents[..i - 1] + [contents[i - 1]];
      FilteredPush(contents[..i - 1], contents[i - 1], kind);
    }
  }

  lemma FilteredPush(contents: seq<ContextState>, s: ContextState, kind: Kind)
    ensures Filtered(contents + [s], kind) == Filtered(contents, kind) + if KindOf(s) == kind then [s] else []
  {
    assert (contents + [s])[..|contents|] == contents;
  }

  lemma {:induction false} FilteredKind(contents: seq<ContextState>, kind: Kind)
    ensures forall k :: 0 <= k < |Filtered(contents, kind)| ==> KindOf(Filtered(contents, kind)[k]) == kind
  {
    if contents == [] {
    } else {
      FilteredKind(contents[..|contents| - 1], kind);
    }
  }

  /** What may make the process crash: access from a thread that may not, and unmatched pops. */
  datatype Outcome<+T> = Finished(value: T) | Crashed

  /** The overrides of the environment variable, and whether the device is a TPU. */
  datatype Setting = Setting(isTpu: bool, environment: Overrides)

  predicate Acceptable(values: Overrides) {
    forall name :: name in values ==> !OptionOverrides.Rejected((name, values[name]))
  }

  function AllOverrides(setting: Setting, fast: bool, context: Overrides): Overrides {
    OptionOverrides.EagerDefaults(setting.isTpu, fast) + setting.environment + context
  }

  /** Options for both compilation modes can be made from the overrides. */
  predicate MakesContext(setting: Setting, context: Overrides) {
    Acceptable(AllOverrides(setting, true, context)) && Acceptable(AllOverrides(setting, false, context))
  }

  /** The value that ends up under a name: the scope's, else the environment's, else the given default. */
  ghost function Named(environment: Overrides, context: Overrides, name: string, default: string): string {
    if name in context then context[name] else if name in environment then environment[name] else default
  }

  /** No name is empty, and the two levels, as far as they are set, are among O0, O1, O2 and O3. */
  ghost predicate NamesAreGood(environment: Overrides, context: Overrides) {
    && "" !in environment && "" !in context
    && Named(environment, context, "xla_optimization_level", "O1") in {"O0", "O1", "O2", "O3"}
    && Named(environment, context, "xla_memory_fitting_level", "O1") in {"O0", "O1", "O2", "O3"}
  }

  /** Options can be made from overrides exactly if their names and levels are good. */
  lemma MakesContextIff(setting: Setting, context: Overrides)
    ensures MakesContext(setting, context) <==> NamesAreGood(setting.environment, context)
  {
    AcceptableByName(AllOverrides(setting, true, context));
    AcceptableByName(AllOverrides(setting, false, context));
  }

  lemma AcceptableByName(values: Overrides)
    ensures Acceptable(values) <==>
      && "" !in values
      && ("xla_optimization_level" in values ==> values["xla_optimization_level"] in {"O0", "O1", "O2", "O3"})
      && ("xla_memory_fitting_level" in values ==> values["xla_memory_fitting_level"] in {"O0", "O1", "O2", "O3"})
  {
    forall name, value
      ensures OptionOverrides.Rejected((name, value)) <==>
        || name == ""
        || (name in {"xla_optimization_level", "xla_memory_fitting_level"} && value !in {"O0", "O1", "O2", "O3"})
    {
    }
    if Acceptable(values) {
      assert forall name :: name in values ==> !OptionOverrides.Rejected((name, values[name]));
    }
  }

  /** A map is acceptable exactly when merging its entries does not fail. */
  lemma AcceptableMeansApplies(o: OptionOverrides.Options, overrides: seq<OptionOverrides.Entry>)
    requires OptionOverrides.Ascending(overrides)
    ensures Acceptable(OptionOverrides.MapOf(overrides)) <==> OptionOverrides.ApplyFrom(o, |o.list|, 0, overrides).Ok?
  {
    hide OptionOverrides.ApplyFrom, OptionOverrides.Rejected;
    OptionOverrides.SpecialNamesApart(o, |o.list|, 0, overrides);
    var values := OptionOverrides.MapOf(overrides);
    forall k | 0 <= k < |overrides|
      ensures overrides[k].0 in values && values[overrides[k].0] == overrides[k].1
    {
      EntryInMap(overrides, k);
    }
    forall name | name in values
      ensures (name, values[name]) in overrides
    {
      OptionOverrides.MapOfKeys(overrides, name);
      var k :| 0 <= k < |overrides| && overrides[k].0 == name;
      assert overrides[k] == (name, values[name]);
    }
  }

  lemma {:induction false} EntryInMap(overrides: seq<OptionOverrides.Entry>, k: nat)
    requires OptionOverrides.Ascending(overrides) && k < |overrides|
    ensures overrides[k].0 in OptionOverrides.MapOf(overrides)
    ensures OptionOverrides.MapOf(overrides)[overrides[k].0] == overrides[k].1
  {
    if k < |overrides| - 1 {
      EntryInMap(overrides[..|overrides| - 1], k);
      OptionOverrides.KeyOrder(overrides[k].0, overrides[|overrides| - 1].0);
    }
  }

  /** The overrides in effect: those of the innermost option scope, none without one. */
  function CurrentOverrides(contents: seq<ContextState>): Overrides {
    match TopOf(contents, Options)
    case Some(CustomCompilerOptions(overrides)) => overrides
    case _ => map[]
  }

  /** The outcome of opening an option scope: whether it was opened, and the stack afterwards. */
  function PushOptions(setting: Setting, contents: seq<ContextState>, updates: Overrides)
    : Outcome<(bool, seq<ContextState>)>
  {
    var merged := CurrentOverrides(contents) + updates;
    if TopOf(contents, Options).None? && !MakesContext(setting, map[]) then Crashed
    else if MakesContext(setting, merged) then Finished((true, contents + [CustomCompilerOptions(merged)]))
    else Finished((false, contents))
  }

  function Pop(contents: seq<ContextState>, kind: Kind): Outcome<seq<ContextState>> {
    if contents == [] || KindOf(contents[|contents| - 1]) != kind then Crashed else Finished(contents[..|contents| - 1])
  }

  // ---------- The stack as the program keeps it ----------

  class ContextManagerNode {
    const state: ContextState
    const parent: ContextManagerNode?

    constructor (state: ContextState, parent: ContextManagerNode?)
      ensures this.state == state && this.parent == parent
    {
      this.state, this.parent := state, parent;
    }
  }

  class ContextManager {
    var slot: seq<ContextManagerNode>
    var allowAccess: bool
    const setting: Setting

    ghost function Contents(): seq<ContextState>
      reads this
    {
      var nodes := slot;
      seq(|nodes|, i requires 0 <= i < |nodes| => nodes[i].state)
    }

    /** The node below place `i` of the stack. */
    function Below(i: nat): ContextManagerNode?
      requires i <= |slot|
      reads this
    {
      if i == 0 then null else slot[i - 1]
    }

    /** Every node points to the one below it. */
    ghost predicate Valid()
      reads this
    {
      forall i :: 0 <= i < |slot| ==> slot[i].parent == Below(i)
    }

    constructor (setting: Setting)
      ensures Valid() && Contents() == [] && allowAccess && this.setting == setting
    {
      slot, allowAccess := [], true;
      this.setting := setting;
    }

    method DisallowThisThreadToAccessContextState()
      modifies this`allowAccess
      ensures !allowAccess
    {
      allowAccess := false;
    }

    /** Walks from the top node along the parents until a state of the type is found. */
    method GetContextState(kind: Kind) returns (found: Outcome<Option<ContextState>>)
      requires Valid()
      ensures found == if allowAccess then Finished(TopOf(Contents(), kind)) else Crashed
    {
      hide TopOf;
      if !allowAccess {
        return Crashed;
      }
      var node := Below(|slot|);
      ghost var i: nat := |slot|;
      assert Contents()[..i] == Contents();
      while node != null
        invariant i <= |slot| && node == Below(i)
        invariant TopOf(Contents()[..i], kind) == TopOf(Contents(), kind)
        decreases i
      {
        TopOfPrefix(Contents(), i, kind);
        assert node.state == Contents()[i - 1];
        if KindOf(node.state) == kind {
          return Finished(Some(node.state));
        }
        node := node.parent;
        i := i - 1;
      }
      TopOfPrefix(Contents(), 0, kind);
      return Finished(None);
    }

    method PushContextState(state: ContextState) returns (done: Outcome<()>)
      requires Valid()
      modifies this`slot
      ensures Valid()
      ensures if allowAccess then done == Finished(()) && Contents() == old(Contents()) + [state]
              else done == Crashed && Contents() == old(Contents())
    {
      if !allowAccess {
        return Crashed;
      }
      var top := Below(|slot|);
      var node := new ContextManagerNode(state, top);
      slot := slot + [node];
      assert Contents() == old(Contents()) + [state];
      return Finished(());
    }

    /** A crash may leave the node popped; nothing runs after it. */
    method PopContextState(kind: Kind) returns (done: Outcome<()>)
      requires Valid()
      modifies this`slot
      ensures Valid()
      ensures match Pop(old(Contents()), kind)
              case Crashed => done == Crashed
              case Finished(rest) => if allowAccess then done == Finished(()) && Contents() == rest else done == Crashed
    {
      if !allowAccess || slot == [] {
        return Crashed;
      }
      var node := slot[|slot| - 1];
      slot := slot[..|slot| - 1];
      assert Contents() == old(Contents())[..|slot|];
      return if KindOf(node.state) == kind then Finished(()) else Crashed;
    }

    method PushCompilerOptionOverrides(updates: seq<OptionOverrides.Entry>) returns (done: Outcome<bool>)
      requires Valid()
      modifies this`slot
      ensures Valid()
      ensures !allowAccess ==> done == Crashed && Contents() == old(Contents())
      ensures allowAccess ==>
        match PushOptions(setting, old(Contents()), OptionOverrides.MapOf(updates))
        case Crashed => done == Crashed && Contents() == old(Contents())
        case Finished(after) => done == Finished(after.0) && Contents() == after.1
    {
      var current := GetContextState(Options);
      if current.Crashed? {
        return Crashed;
      }
      var merged: Overrides := map[];
      FilteredKind(Contents(), Options);
      if current.value.None? {
        if !MakesContext(setting, map[]) {
          return Crashed;
        }
      } else {
        merged := current.value.value.overrides;
      }
      merged := OptionOverrides.UpdateMap(merged, updates);
      if !MakesContext(setting, merged) {
        return Finished(false);
      }
      var pushed := PushContextState(CustomCompilerOptions(merged));
      return Finished(true);
    }
  }

  // ---------- Pushes and pops ----------

  /** Pushing hides the earlier states of its own type only. */
  lemma PushShows(contents: seq<ContextState>, s: ContextState, kind: Kind)
    ensures TopOf(contents + [s], kind) == if KindOf(s) == kind then Some(s) else TopOf(contents, kind)
  {
    FilteredPush(contents, s, kind);
  }

  /** A pop of the same type undoes a push, for every type of lookup. */
  lemma PopUndoesPush(contents: seq<ContextState>, s: ContextState)
    ensures Pop(contents + [s], KindOf(s)) == Finished(contents)
    ensures forall kind :: kind != KindOf(s) ==> Pop(contents + [s], kind) == Crashed
  {
    assert (contents + [s])[..|contents|] == contents;
  }

  /** Opening and closing an option scope restores the stack, and so does failing to open it. */
  lemma OptionScopeCloses(setting: Setting, contents: seq<ContextState>, updates: Overrides)
    ensures match PushOptions(setting, contents, updates)
      case Crashed => TopOf(contents, Options).None?
      case Finished(after) =>
        if after.0 then
          && Pop(after.1, Options) == Finished(contents)
          && CurrentOverrides(after.1) == CurrentOverrides(contents) + updates
        else after.1 == contents
  {
    var merged := CurrentOverrides(contents) + updates;
    PopUndoesPush(contents, CustomCompilerOptions(merged));
    PushShows(contents, CustomCompilerOptions(merged), Options);
  }

  /** Opening an option scope, by names and values: without an open one a bad environment makes the process
      crash; otherwise the scope is opened exactly if the overrides in effect, updated by the new ones, are
      good together with the environment. */
  lemma PushOptionsByName(setting: Setting, contents: seq<ContextState>, updates: Overrides)
    ensures PushOptions(setting, contents, updates)
      == if (forall k :: 0 <= k < |contents| ==> !contents[k].CustomCompilerOptions?)
           && !NamesAreGood(setting.environment, map[]) then Crashed
         else if NamesAreGood(setting.environment, CurrentOverrides(contents) + updates) then
           Finished((true, contents + [CustomCompilerOptions(CurrentOverrides(contents) + updates)]))
         else Finished((false, contents))
  {
    hide MakesContext, NamesAreGood;
    MakesContextIff(setting, map[]);
    MakesContextIff(setting, CurrentOverrides(contents) + updates);
    NoneOfKind(contents);
  }

  lemma {:induction false} NoneOfKind(contents: seq<ContextState>)
    ensures TopOf(contents, Options).None? <==> forall k :: 0 <= k < |contents| ==> !contents[k].CustomCompilerOptions?
  {
    if contents == [] {
    } else {
      var front, last := contents[..|contents| - 1], contents[|contents| - 1];
      NoneOfKind(front);
      assert contents == front + [last];
      PushShows(front, last, Options);
    }
  }

  // ---------- Runs ----------

  /** Option scopes are entered by the overrides they ask for, all others by their state. */
  datatype Event = Enter(state: ContextState) | EnterOptions(updates: Overrides) | Leave(kind: Kind)

  /** The stack together with what each open scope has asked for. */
  datatype Stack = Stack(contents: seq<ContextState>, requests: seq<Option<Overrides>>)

  /** `Finished` holds whether the event succeeded, and the stack after it. */
  ghost function Step(setting: Setting, s: Stack, e: Event): Outcome<(bool, Stack)> {
    match e
    case Enter(state) =>
      if state.CustomCompilerOptions? then Crashed
      else Finished((true, Stack(s.contents + [state], s.requests + [None])))
    case EnterOptions(updates) =>
      (match PushOptions(setting, s.contents, updates)
       case Crashed => Crashed
       case Finished(after) => Finished((after.0,
         Stack(after.1, if after.0 then s.requests + [Some(updates)] else s.requests))))
    case Leave(kind) =>
      (match Pop(s.contents, kind)
       case Crashed => Crashed
       case Finished(rest) => Finished((true,
         Stack(rest, if s.requests == [] then [] else s.requests[..|s.requests| - 1]))))
  }

  ghost function Run(setting: Setting, s: Stack, events: seq<Event>): Outcome<Stack> {
    if events == [] then Finished(s)
    else
      match Run(setting, s, events[..|events| - 1])
      case Crashed => Crashed
      case Finished(before) =>
        match Step(setting, before, events[|events| - 1])
        case Crashed => Crashed
        case Finished(after) => Finished(after.1)
  }

  /** What the open option scopes ask for, taken together, the inner ones winning. */
  function Union(requests: seq<Option<Overrides>>): Overrides {
    if requests == [] then map[]
    else
      var last := requests[|requests| - 1];
      Union(requests[..|requests| - 1]) + if last.Some? then last.value else map[]
  }

  ghost predicate FrameInv(s: Stack, i: nat)
    requires i < |s.contents| == |s.requests|
  {
    && (s.requests[i].Some? <==> s.contents[i].CustomCompilerOptions?)
    && (s.requests[i].Some? ==> s.contents[i].overrides == Union(s.requests[..i + 1]))
  }

  ghost predicate Inv(s: Stack) {
    |s.contents| == |s.requests| && forall i :: 0 <= i < |s.contents| ==> FrameInv(s, i)
  }

  /** Every option scope carries the union of the requests up to itself; so the overrides in effect are
      the union of all open ones. */
  lemma {:induction false} EffectiveFromInv(s: Stack)
    requires Inv(s)
    ensures CurrentOverrides(s.contents) == Union(s.requests)
    decreases |s.contents|
  {
    if s.contents == [] {
    } else {
      var n := |s.contents| - 1;
      var below := Stack(s.contents[..n], s.requests[..n]);
      InvBelow(s);
      EffectiveFromInv(below);
      assert s.contents == below.contents + [s.contents[n]];
      PushShows(below.contents, s.contents[n], Options);
      assert FrameInv(s, n) && s.requests[..n + 1] == s.requests;
      assert Union(below.requests) + map[] == Union(below.requests);
    }
  }

  lemma InvBelow(s: Stack)
    requires Inv(s) && s.contents != []
    ensures Inv(Stack(s.contents[..|s.contents| - 1], s.requests[..|s.requests| - 1]))
  {
    var n := |s.contents| - 1;
    var below := Stack(s.contents[..n], s.requests[..n]);
    forall i | 0 <= i < n
      ensures FrameInv(below, i)
    {
      assert FrameInv(s, i) && below.requests[..i + 1] == s.requests[..i + 1];
    }
  }

  lemma InvAbove(s: Stack, state: ContextState, request: Option<Overrides>)
    requires Inv(s) && (request.Some? <==> state.CustomCompilerOptions?)
    requires request.Some? ==> state.overrides == Union(s.requests) + request.value
    ensures Inv(Stack(s.contents + [state], s.requests + [request]))
  {
    var above, n := Stack(s.contents + [state], s.requests + [request]), |s.contents|;
    forall i | 0 <= i <= n
      ensures FrameInv(above, i)
    {
      if i < n {
        assert FrameInv(s, i) && above.requests[..i + 1] == s.requests[..i + 1];
      } else {
        assert above.requests[..n + 1] == above.requests && above.requests[..n] == s.requests;
      }
    }
  }

  lemma StepKeeps(setting: Setting, s: Stack, e: Event)
    requires Inv(s) && Step(setting, s, e).Finished?
    ensures Inv(Step(setting, s, e).value.1)
  {
    hide Inv, MakesContext, TopOf, CurrentOverrides;
    match e
    case Enter(state) => InvAbove(s, state, None);
    case EnterOptions(updates) =>
      EffectiveFromInv(s);
      InvAbove(s, CustomCompilerOptions(CurrentOverrides(s.contents) + updates), Some(updates));
    case Leave(_) =>
      SameHeight(s);
      InvBelow(s);
  }

  lemma SameHeight(s: Stack)
    requires Inv(s)
    ensures |s.contents| == |s.requests|
  {
  }

  lemma {:induction false} RunKeeps(setting: Setting, s: Stack, events: seq<Event>)
    requires Inv(s) && Run(setting, s, events).Finished?
    ensures Inv(Run(setting, s, events).value)
  {
    hide Step, Inv;
    if events == [] {
    } else {
      RunKeeps(setting, s, events[..|events| - 1]);
      StepKeeps(setting, Run(setting, s, events[..|events| - 1]).value, events[|events| - 1]);
    }
  }

  /** In every run the compiler overrides in effect are the union of those asked for by the open option
      scopes, the innermost winning, whatever other scopes are open in between. */
  lemma EffectiveIsUnionOfOpenScopes(setting: Setting, events: seq<Event>)
    requires Run(setting, Stack([], []), events).Finished?
    ensures var s := Run(setting, Stack([], []), events).value; CurrentOverrides(s.contents) == Union(s.requests)
  {
    hide Run;
    RunKeeps(setting, Stack([], []), events);
    EffectiveFromInv(Run(setting, Stack([], []), events).value);
  }

  // ---------- Well-nested programs ----------

  /** Blocks as `with` statements make them; any work may fail. */
  datatype Program = Work | Failure | Then(first: Program, second: Program) | With(enter: Event, body: Program)

  /** Scopes are left whether their body fails or not; a scope that could not be entered has no body. */
  ghost function Exec(setting: Setting, p: Program, s: Stack): Outcome<(bool, Stack)>
    decreases p
  {
    match p
    case Work => Finished((true, s))
    case Failure => Finished((false, s))
    case Then(first, second) =>
      (match Exec(setting, first, s)
       case Crashed => Crashed
       case Finished(after) => if after.0 then Exec(setting, second, after.1) else Finished(after))
    case With(enter, body) =>
      match Step(setting, s, enter)
      case Crashed => Crashed
      case Finished(entered) =>
        if !entered.0 then Finished(entered)
        else
          match Exec(setting, body, entered.1)
          case Crashed => Crashed
          case Finished(after) =>
            match Step(setting, after.1, Leave(Entered(enter)))
            case Crashed => Crashed
            case Finished(left) => Finished((after.0, left.1))
  }

  function Entered(e: Event): Kind {
    match e
    case Enter(state) => KindOf(state)
    case EnterOptions(_) => Options
    case Leave(kind) => kind
  }

  ghost predicate WellFormed(p: Program) {
    match p
    case Work => true
    case Failure => true
    case Then(first, second) => WellFormed(first) && WellFormed(second)
    case With(enter, body) =>
      && WellFormed(body)
      && (enter.EnterOptions? || (enter.Enter? && !enter.state.CustomCompilerOptions?))
  }

  lemma ScopeCloses(setting: Setting, s: Stack, enter: Event)
    requires |s.contents| == |s.requests| && MakesContext(setting, map[])
    requires enter.EnterOptions? || (enter.Enter? && !enter.state.CustomCompilerOptions?)
    ensures match Step(setting, s, enter)
      case Crashed => false
      case Finished(entered) =>
        && |entered.1.contents| == |entered.1.requests|
        && if entered.0 then Step(setting, entered.1, Leave(Entered(enter))) == Finished((true, s)) else entered.1 == s
  {
    hide MakesContext, CurrentOverrides;
    var requests := s.requests;
    match enter
    case Enter(state) =>
      PopUndoesPush(s.contents, state);
      assert (requests + [None])[..|requests|] == requests;
    case EnterOptions(updates) =>
      PopUndoesPush(s.contents, CustomCompilerOptions(CurrentOverrides(s.contents) + updates));
      assert (requests + [Some(updates)])[..|requests|] == requests;
  }

  /** A well-nested program leaves the stack as it found it, wherever it fails, and no pop meets a state
      of another type. */
  lemma {:induction false} ProgramsRestoreTheStack(setting: Setting, p: Program, s: Stack)
    requires WellFormed(p) && |s.contents| == |s.requests| && MakesContext(setting, map[])
    ensures Exec(setting, p, s).Finished? && Exec(setting, p, s).value.1 == s
    decreases p
  {
    hide Step, MakesContext;
    match p
    case Work =>
    case Failure =>
    case Then(first, second) =>
      ProgramsRestoreTheStack(setting, first, s);
      ProgramsRestoreTheStack(setting, second, s);
    case With(enter, body) =>
      ScopeCloses(setting, s, enter);
      var entered := Step(setting, s, enter).value;
      ProgramsRestoreTheStack(setting, body, entered.1);
  }
}
