/** Bounded dynamic requests and the graphs they ask for: what a hit on the entry of an earlier request
    says about the tensors of both. */
module DynamicRequests {
  import opened Prelude
  import opened Fingerprints
  import opened Dynamism
  import opened CompilationCaches
  import opened CacheRuns
  import GraphSignatures

  /** The request has the keys of the graph, and the graph's inputs have the sizes of the request's. */
  ghost predicate AsksFor(r: Request, g: GraphSignatures.Graph) {
    && GraphSignatures.Representable(GraphSignatures.Encode(g))
    && r.shapeless == GraphSignatures.Key(g).shapeless
    && r.dims == GraphSignatures.Encode(g).dims
    && |g.inputs| == |r.inputs| && forall i :: 0 <= i < |r.inputs| ==> g.inputs[i].dims == r.inputs[i].dims
  }

  ghost predicate SameRanks(s: seq<Shape>, t: seq<Shape>) {
    |s| == |t| && forall i :: 0 <= i < |s| ==> |s[i].dims| == |t[i].dims|
  }

  /** Requests with the same shapeless key have inputs of the same ranks. */
  lemma SameShapelessSameRanks(r: Request, g: GraphSignatures.Graph, r': Request, g': GraphSignatures.Graph)
    requires AsksFor(r, g) && AsksFor(r', g') && r.shapeless == r'.shapeless
    ensures SameRanks(r.inputs, r'.inputs)
  {
    hide GraphSignatures.Key, GraphSignatures.Encode, GraphSignatures.Representable;
    GraphSignatures.ShapelessKeyDetermines(g, g');
    var e, e' := GraphSignatures.Erased(g), GraphSignatures.Erased(g');
    assert |e.inputs| == |r.inputs| && |e'.inputs| == |r'.inputs|;
    forall i | 0 <= i < |r.inputs|
      ensures |r.inputs[i].dims| == |r'.inputs[i].dims|
    {
      assert |e.inputs[i].dims| == |r.inputs[i].dims| && |e'.inputs[i].dims| == |r'.inputs[i].dims|;
    }
  }

  /** A flat list can be split into rows of given lengths in one way only. */
  lemma SplitUnique<T>(rows: seq<seq<T>>, rows': seq<seq<T>>)
    requires Lengths(rows) == Lengths(rows') && Concat(rows) == Concat(rows')
    ensures rows == rows'
  {
    assert |rows| == |Lengths(rows)| && |rows'| == |Lengths(rows')|;
    forall i | 0 <= i < |rows|
      ensures rows[i] == rows'[i]
    {
      ConcatSlice(rows, i);
      ConcatSlice(rows', i);
    }
  }

  /** Splitting the flat bounds of one request over the tensors of another of the same ranks gives the
      bounds of the first, tensor by tensor. */
  lemma SplitIsCreators(rows: seq<seq<DimensionBounds>>, creator: seq<Shape>, shapes: seq<Shape>)
    requires SameRanks(creator, shapes) && SplitOver(rows, AllBounds(creator), shapes)
    ensures rows == BoundRows(creator)
  {
    assert Lengths(rows) == Lengths(BoundRows(creator));
    JoinLength(rows, |rows|);
    JoinLength(BoundRows(creator), |creator|);
    SplitUnique(rows, BoundRows(creator));
  }

  /** The rows are the bounds of the creator's tensors, one by one, and each tensor has sizes within the
      bounds of its counterpart. */
  ghost predicate RowsOf(rows: seq<seq<DimensionBounds>>, creator: seq<Shape>, shapes: seq<Shape>) {
    && rows == BoundRows(creator) && SameRanks(creator, shapes)
    && forall t :: 0 <= t < |creator| ==> Within(shapes[t].dims, TensorBounds(creator[t]))
  }

  /** The request is answered from the entry, the i-th one of its graph, whether its executable is still
      there or has to be made again. */
  ghost predicate Hits(c: Cache, r: Request, i: nat, entry: Entry) {
    && (RouteOf(c, r) == DynamicHit(i) || RouteOf(c, r) == Reinserted(i))
    && i < |Entries(c, r.shapeless)| && Entries(c, r.shapeless)[i] == entry
  }

  ghost predicate AnsweredWith(answer: Answer, metadata: Metadata) {
    answer.Found? && answer.lookup.metadata == Some(metadata)
  }

  lemma HitAnswers(c: Cache, r: Request, i: nat, entry: Entry)
    requires Hits(c, r, i, entry)
    ensures AnsweredWith(Ask(c, r).1, entry.metadata) && Compatible(entry.metadata.inputs, r.inputs)
  {
    hide Ask;
    AskByRoute(c, r);
  }

  /** A dynamic hit on the entry that an earlier request made: the resolved rows are those of that
      request's tensors. */
  lemma HitRowsAreCreators(c: Cache, r: Request, g: GraphSignatures.Graph, r': Request, g': GraphSignatures.Graph,
                           i: nat, rows: seq<seq<DimensionBounds>>)
    requires AsksFor(r, g) && AsksFor(r', g') && r.shapeless == r'.shapeless
    requires Hits(c, r', i, OwnEntry(r)) && SplitOver(rows, OwnMetadata(r).inputs, r'.inputs)
    ensures AnsweredWith(Ask(c, r').1, OwnMetadata(r)) && RowsOf(rows, r.inputs, r'.inputs)
  {
    hide Ask, AsksFor, Within, Hits;
    HitAnswers(c, r', i, OwnEntry(r));
    SameShapelessSameRanks(r, g, r', g');
    SplitIsCreators(rows, r.inputs, r'.inputs);
    forall t | 0 <= t < |r.inputs|
      ensures Within(r'.inputs[t].dims, TensorBounds(r.inputs[t]))
    {
      CompatibleRows(rows, OwnMetadata(r).inputs, r'.inputs, t);
    }
  }

  // ---------- Whole runs ----------

  /** A request among the steps has made the entry. */
  ghost predicate Made(steps: seq<Step>, shapeless: Fp, entry: Entry, k: nat) {
    k < |steps| && steps[k].Issue? && steps[k].request.shapeless == shapeless && OwnEntry(steps[k].request) == entry
  }

  ghost predicate HasMaker(steps: seq<Step>, shapeless: Fp, entry: Entry) {
    exists k: nat :: Made(steps, shapeless, entry, k)
  }

  ghost predicate AllMade(c: Cache, steps: seq<Step>) {
    forall shapeless, i :: 0 <= i < |Entries(c, shapeless)| ==> HasMaker(steps, shapeless, Entries(c, shapeless)[i])
  }

  lemma MadeEarlier(steps: seq<Step>, step: Step, shapeless: Fp, entry: Entry)
    requires HasMaker(steps, shapeless, entry)
    ensures HasMaker(steps + [step], shapeless, entry)
  {
    var k: nat :| Made(steps, shapeless, entry, k);
    assert Made(steps + [step], shapeless, entry, k);
  }

  lemma FewerMade(c: Cache, d: Cache, steps: seq<Step>, step: Step)
    requires AllMade(c, steps) && (d.bounded == c.bounded || d.bounded == map[])
    ensures AllMade(d, steps + [step])
  {
    hide HasMaker;
    forall shapeless, i | 0 <= i < |Entries(d, shapeless)|
      ensures HasMaker(steps + [step], shapeless, Entries(d, shapeless)[i])
    {
      assert Entries(d, shapeless) == Entries(c, shapeless);
      MadeEarlier(steps, step, shapeless, Entries(c, shapeless)[i]);
    }
  }

  lemma OneMoreMade(c: Cache, d: Cache, steps: seq<Step>, r: Request)
    requires AllMade(c, steps) && d.bounded == Appended(c, r).bounded
    ensures AllMade(d, steps + [Issue(r)])
  {
    hide OwnEntry, HasMaker;
    forall shapeless, i | 0 <= i < |Entries(d, shapeless)|
      ensures HasMaker(steps + [Issue(r)], shapeless, Entries(d, shapeless)[i])
    {
      if shapeless == r.shapeless && i == |Entries(c, shapeless)| {
        LastIsMaker(steps, r);
      } else {
        assert Entries(d, shapeless)[i] == Entries(c, shapeless)[i];
        MadeEarlier(steps, Issue(r), shapeless, Entries(c, shapeless)[i]);
      }
    }
  }

  lemma LastIsMaker(steps: seq<Step>, r: Request)
    ensures HasMaker(steps + [Issue(r)], r.shapeless, OwnEntry(r))
  {
    assert Made(steps + [Issue(r)], r.shapeless, OwnEntry(r), |steps|);
  }

  lemma StepMade(s: State, steps: seq<Step>, step: Step)
    requires Enabled(s, step) && AllMade(s.cache, steps)
    ensures AllMade(After(s, step).cache, steps + [step])
  {
    hide Ask, RouteOf, AllMade, Appended;
    if step.Issue? {
      var r := step.request;
      AskByRoute(s.cache, r);
      AskBounded(s.cache, r);
      if RouteOf(s.cache, r) == NewBounded {
        OneMoreMade(s.cache, After(s, step).cache, steps, r);
      } else {
        FewerMade(s.cache, After(s, step).cache, steps, step);
      }
    } else {
      StepBounded(s, step);
      FewerMade(s.cache, After(s, step).cache, steps, step);
    }
  }

  lemma NoneMade(c: Cache)
    requires c.bounded == map[]
    ensures AllMade(c, [])
  {
  }

  lemma {:induction false} EntriesMadeInRun(s: State, steps: seq<Step>)
    requires IsStart(s) && CanRun(s, steps)
    ensures AllMade(Reached(s, steps).cache, steps)
  {
    hide Enabled, After, AllMade;
    if steps == [] {
      NoneMade(s.cache);
    } else {
      var front, last := steps[..|steps| - 1], steps[|steps| - 1];
      EntriesMadeInRun(s, front);
      StepMade(Reached(s, front), front, last);
      assert front + [last] == steps;
    }
  }

  /** Every request of the run is one for some graph. */
  ghost predicate AllAsk(steps: seq<Step>) {
    forall k :: 0 <= k < |steps| && steps[k].Issue? ==> exists g :: AsksFor(steps[k].request, g)
  }

  /** The k-th step is the request whose bounds the answer gives, with these rows. */
  ghost predicate IsCreator(steps: seq<Step>, k: nat, answer: Answer, rows: seq<seq<DimensionBounds>>,
      shapes: seq<Shape>) {
    && k < |steps| && steps[k].Issue?
    && AnsweredWith(answer, OwnMetadata(steps[k].request)) && RowsOf(rows, steps[k].request.inputs, shapes)
  }

  lemma HitHasCreator(c: Cache, steps: seq<Step>, r: Request, g: GraphSignatures.Graph, i: nat, entry: Entry,
                      rows: seq<seq<DimensionBounds>>)
    requires AllMade(c, steps) && AllAsk(steps) && AsksFor(r, g)
    requires Hits(c, r, i, entry) && SplitOver(rows, entry.metadata.inputs, r.inputs)
    ensures exists k: nat :: IsCreator(steps, k, Ask(c, r).1, rows, r.inputs)
  {
    hide Ask, AsksFor, RowsOf, SplitOver, AnsweredWith, RouteOf;
    assert HasMaker(steps, r.shapeless, Entries(c, r.shapeless)[i]);
    var k: nat :| Made(steps, r.shapeless, entry, k);
    var g' :| AsksFor(steps[k].request, g');
    HitRowsAreCreators(c, steps[k].request, g', r, g, i, rows);
    assert IsCreator(steps, k, Ask(c, r).1, rows, r.inputs);
  }

  /** In every run: the bounds that a dynamic hit resolves to, split over the tensors of the request, are
      those of the tensors of one earlier request, and contain the request's own sizes tensor by tensor. */
  lemma DynamicHitsHaveCreators(s: State, steps: seq<Step>, r: Request, g: GraphSignatures.Graph, i: nat, entry: Entry,
                                rows: seq<seq<DimensionBounds>>)
    requires IsStart(s) && CanRun(s, steps) && AllAsk(steps) && AsksFor(r, g)
    requires Hits(Reached(s, steps).cache, r, i, entry) && SplitOver(rows, entry.metadata.inputs, r.inputs)
    ensures exists k: nat :: IsCreator(steps, k, Ask(Reached(s, steps).cache, r).1, rows, r.inputs)
  {
    EntriesMadeInRun(s, steps);
    HitHasCreator(Reached(s, steps).cache, steps, r, g, i, entry, rows);
  }
}
