/** The keys of the adapter modules that pad the inputs of a bounded dynamic executable and slice its
    outputs, and why a key stands for one module only. */
module AdapterKeys {
  import opened Prelude
  import opened Fingerprints
  import opened GraphSignatures
  import Dynamism
  import ParamKeys

  type Shape = Dynamism.Shape

  const PAD := "pad_uninitialized_"
  const GET_SIZE := "get_dimension_size"
  const SLICE := "slice"
  const INDEX := "dimension_index"

  // ---------- The graph of a pad module ----------

  /** The sizes with every annotated dimension at its upper bound. */
  function PaddedDims(shape: Shape): seq<int> {
    Dynamism.Uppers(Dynamism.TensorBounds(shape))
  }

  function PadOp(shape: Shape, i: nat): Op {
    Op(PAD, [], [i], [Tensor(PaddedDims(shape), shape.dtype)])
  }

  function SizeOp(d: nat, i: nat): Op {
    Op(GET_SIZE, [(INDEX, OfInt(d))], [i], [Tensor([1], "i32")])
  }

  function SizeOps(shape: Shape, i: nat, n: nat): seq<Op>
    requires n <= |shape.dynamic|
  {
    seq(n, k requires 0 <= k < n => SizeOp(shape.dynamic[k].dimension, i))
  }

  /** The ops on input `i`: none for a static tensor; otherwise its padding and, unless only padding is
      wanted, the size of each of its dynamic dimensions. */
  function OpsOf(shape: Shape, i: nat, padOnly: bool): seq<Op> {
    if shape.dynamic == [] then []
    else [PadOp(shape, i)] + if padOnly then [] else SizeOps(shape, i, |shape.dynamic|)
  }

  function PadOps(shapes: seq<Shape>, n: nat, padOnly: bool): seq<Op>
    requires n <= |shapes|
  {
    if n == 0 then [] else PadOps(shapes, n - 1, padOnly) + OpsOf(shapes[n - 1], n - 1, padOnly)
  }

  /** `count` consecutive tensors. */
  function Consecutive(first: nat, count: nat): seq<int> {
    seq(count, k => first + k)
  }

  /** A static tensor is a result itself; each op on a dynamic one gives a result. */
  function PadOutputs(shapes: seq<Shape>, n: nat, padOnly: bool): seq<int>
    requires n <= |shapes|
  {
    if n == 0 then []
    else PadOutputs(shapes, n - 1, padOnly) +
         if shapes[n - 1].dynamic == [] then [n - 1]
         else Consecutive(|shapes| + |PadOps(shapes, n - 1, padOnly)|, |OpsOf(shapes[n - 1], n - 1, padOnly)|)
  }

  function InputTensors(shapes: seq<Shape>): seq<Tensor> {
    seq(|shapes|, i requires 0 <= i < |shapes| => Tensor(shapes[i].dims, shapes[i].dtype))
  }

  function PadGraphUpTo(shapes: seq<Shape>, n: nat, padOnly: bool): Graph
    requires n <= |shapes|
  {
    Graph(InputTensors(shapes), PadOps(shapes, n, padOnly), PadOutputs(shapes, n, padOnly), {}, Unpinned)
  }

  function PadGraph(shapes: seq<Shape>, padOnly: bool): Graph {
    PadGraphUpTo(shapes, |shapes|, padOnly)
  }

  method PaddedDimensions(shape: Shape) returns (padded: seq<int>)
    requires Dynamism.InRange(shape)
    ensures padded == PaddedDims(shape)
  {
    padded := shape.dims;
    for k := 0 to |shape.dynamic|
      invariant |padded| == |shape.dims|
      invariant forall d :: 0 <= d < |padded| ==> padded[d] == Dynamism.BoundsOf(shape, k, d).upper
    {
      padded := padded[shape.dynamic[k].dimension := shape.dynamic[k].upper];
    }
  }

  /** Adds an op with one input and one output, and makes its result a result of the graph. */
  method AddUnary(graph: GraphSignature, name: string, params: seq<(string, Fp)>, input: nat, output: Tensor)
    requires graph.Valid()
    modifies graph
    ensures graph.Valid()
    ensures var g := old(graph.graph);
      graph.graph == g.(ops := g.ops + [Op(name, params, [input], [output])], outputs := g.outputs + [|Tensors(g)|])
    ensures |Tensors(graph.graph)| == |Tensors(old(graph.graph))| + 1
  {
    ghost var g := graph.graph;
    var events := [Input(input), Output(output)];
    OneInOneOut(input, output);
    var index := graph.AddOp(name, params, [], events);
    assert Picked(InputsOf(events), []) == {};
    AppendOp(g, Op(name, params, [input], [output]));
    TensorsOfOps(graph.graph, index);
    graph.AddGraphOutput(index);
  }

  lemma OneInOneOut(input: int, output: Tensor)
    ensures InputsOf([Input(input), Output(output)]) == [input] && OutputsOf([Input(input), Output(output)]) == [output]
  {
    var first, events := [Input(input)], [Input(input), Output(output)];
    assert first[..0] == [] && events[..1] == first;
    assert InputsOf(first) == InputsOf([]) + [input] && OutputsOf(first) == OutputsOf([]) + [];
    assert InputsOf(events) == InputsOf(first) + [] && OutputsOf(events) == OutputsOf(first) + [output];
  }

  /** The results of a graph have no part in its tensors. */
  lemma TensorsOfOps(g: Graph, index: int)
    ensures Tensors(g.(outputs := g.outputs + [index])) == Tensors(g)
  {
  }

  method AddSizes(graph: GraphSignature, shape: Shape, i: nat)
    requires graph.Valid()
    modifies graph
    ensures graph.Valid()
    ensures var g := old(graph.graph); var n := |shape.dynamic|;
      graph.graph == g.(ops := g.ops + SizeOps(shape, i, n), outputs := g.outputs + Consecutive(|Tensors(g)|, n))
    ensures |Tensors(graph.graph)| == |Tensors(old(graph.graph))| + |shape.dynamic|
  {
    hide GraphSignature.Valid, Tensors, Key, Encode;
    ghost var g := graph.graph;
    for k := 0 to |shape.dynamic|
      invariant graph.Valid()
      invariant graph.graph.ops == g.ops + SizeOps(shape, i, k)
      invariant graph.graph == g.(ops := graph.graph.ops, outputs := g.outputs + Consecutive(|Tensors(g)|, k))
      invariant |Tensors(graph.graph)| == |Tensors(g)| + k
    {
      var params := new ParamKeys.OpParamCacheKeys.Empty();
      params.SetParam(INDEX, ParamKeys.VInt(shape.dynamic[k].dimension));
      AddUnary(graph, GET_SIZE, [(INDEX, params.nameToValue[INDEX])], i, Tensor([1], "i32"));
      assert SizeOps(shape, i, k + 1) == SizeOps(shape, i, k) + [SizeOp(shape.dynamic[k].dimension, i)];
      assert Consecutive(|Tensors(g)|, k + 1) == Consecutive(|Tensors(g)|, k) + [|Tensors(g)| + k];
    }
  }

  /** One tensor of a pad module. */
  method AddPadded(graph: GraphSignature, shapes: seq<Shape>, i: nat, padOnly: bool)
    requires graph.Valid() && i < |shapes| && Dynamism.InRange(shapes[i])
    requires graph.graph == PadGraphUpTo(shapes, i, padOnly)
    requires |Tensors(graph.graph)| == |shapes| + |PadOps(shapes, i, padOnly)|
    modifies graph
    ensures graph.Valid() && graph.graph == PadGraphUpTo(shapes, i + 1, padOnly)
    ensures |Tensors(graph.graph)| == |shapes| + |PadOps(shapes, i + 1, padOnly)|
  {
    hide GraphSignature.Valid, Tensors, Key, Encode;
    hide PadOps, PadOutputs, OpsOf, PaddedDims;
    var shape := shapes[i];
    ghost var g := graph.graph;
    if shape.dynamic == [] {
      NextStatic(shapes, i, padOnly);
      graph.AddGraphOutput(i);
      TensorsOfOps(g, i);
      return;
    }
    NextDynamic(shapes, i, padOnly);
    var padded := PaddedDimensions(shape);
    ghost var pad, sizes, first := PadOp(shape, i), SizeOps(shape, i, |shape.dynamic|), |Tensors(g)|;
    AddUnary(graph, PAD, [], i, Tensor(padded, shape.dtype));
    if !padOnly {
      AddSizes(graph, shape, i);
      assert g.ops + [pad] + sizes == g.ops + ([pad] + sizes);
      assert g.outputs + [first] + Consecutive(first + 1, |sizes|)
        == g.outputs + ([first] + Consecutive(first + 1, |sizes|));
    } else {
      assert SizeOps(shape, i, 0) == [] && Consecutive(first + 1, 0) == [];
    }
  }

  /** How many sizes a pad module returns for a tensor. */
  function SizeCount(shape: Shape, padOnly: bool): nat {
    if padOnly then 0 else |shape.dynamic|
  }

  lemma OpsOfDynamic(shape: Shape, i: nat, padOnly: bool)
    requires shape.dynamic != []
    ensures OpsOf(shape, i, padOnly) == [PadOp(shape, i)] + SizeOps(shape, i, SizeCount(shape, padOnly))
    ensures |OpsOf(shape, i, padOnly)| == 1 + SizeCount(shape, padOnly)
  {
  }

  lemma MoreConsecutive(first: nat, n: nat)
    ensures Consecutive(first, 1 + n) == [first] + Consecutive(first + 1, n)
  {
  }

  lemma NextStatic(shapes: seq<Shape>, i: nat, padOnly: bool)
    requires i < |shapes| && shapes[i].dynamic == []
    ensures PadOps(shapes, i + 1, padOnly) == PadOps(shapes, i, padOnly)
    ensures PadOutputs(shapes, i + 1, padOnly) == PadOutputs(shapes, i, padOnly) + [i]
  {
  }

  /** What one more dynamic tensor adds to a pad module. */
  lemma NextDynamic(shapes: seq<Shape>, i: nat, padOnly: bool)
    requires i < |shapes| && shapes[i].dynamic != []
    ensures var n, first := SizeCount(shapes[i], padOnly), |shapes| + |PadOps(shapes, i, padOnly)|;
      && PadOps(shapes, i + 1, padOnly)
        == PadOps(shapes, i, padOnly) + ([PadOp(shapes[i], i)] + SizeOps(shapes[i], i, n))
      && PadOutputs(shapes, i + 1, padOnly) == PadOutputs(shapes, i, padOnly) + ([first] + Consecutive(first + 1, n))
  {
    hide OpsOf, SizeOps, Consecutive, PadOp, SizeCount;
    OpsOfDynamic(shapes[i], i, padOnly);
    MoreConsecutive(|shapes| + |PadOps(shapes, i, padOnly)|, SizeCount(shapes[i], padOnly));
  }

  method AddInputs(graph: GraphSignature, tensors: seq<Tensor>)
    requires graph.Valid() && graph.graph == Graph([], [], [], {}, Unpinned)
    modifies graph
    ensures graph.Valid() && graph.graph == Graph(tensors, [], [], {}, Unpinned)
    ensures |Tensors(graph.graph)| == |tensors|
  {
    for i := 0 to |tensors|
      invariant graph.Valid() && graph.graph == Graph(tensors[..i], [], [], {}, Unpinned)
    {
      var index := graph.AddInput(tensors[i]);
      assert tensors[..i + 1] == tensors[..i] + [tensors[i]];
    }
    assert tensors[..|tensors|] == tensors;
    OnlyInputs(graph.graph);
  }

  method PadModuleCacheKey(shapes: seq<Shape>, padOnly: bool) returns (key: GraphKey)
    requires Dynamism.AllInRange(shapes)
    ensures key == Key(PadGraph(shapes, padOnly))
  {
    var graph := new GraphSignature();
    hide GraphSignature.Valid, Tensors, Key, Encode;
    AddInputs(graph, InputTensors(shapes));
    for i := 0 to |shapes|
      invariant graph.Valid() && graph.graph == PadGraphUpTo(shapes, i, padOnly)
      invariant |Tensors(graph.graph)| == |shapes| + |PadOps(shapes, i, padOnly)|
    {
      AddPadded(graph, shapes, i, padOnly);
    }
    key := graph.GetKey();
  }

  // ---------- Reading a pad key ----------

  /** The ops whose only input is tensor `i`. */
  function OpsOn(ops: seq<Op>, i: nat): seq<Op> {
    if ops == [] then []
    else
      var last := ops[|ops| - 1];
      OpsOn(ops[..|ops| - 1], i) + if last.inputs == [i] then [last] else []
  }

  lemma {:induction false} OpsOnJoined(s: seq<Op>, t: seq<Op>, i: nat)
    ensures OpsOn(s + t, i) == OpsOn(s, i) + OpsOn(t, i)
  {
    if t == [] {
      assert s + t == s;
    } else {
      assert (s + t)[..|s + t| - 1] == s + t[..|t| - 1];
      OpsOnJoined(s, t[..|t| - 1], i);
    }
  }

  lemma {:induction false} OpsOnUniform(ops: seq<Op>, i: nat, j: nat)
    requires forall k :: 0 <= k < |ops| ==> ops[k].inputs == [j]
    ensures OpsOn(ops, i) == if i == j then ops else []
  {
    assert ops == [] ==> OpsOn(ops, i) == [];
    if ops == [] {
    } else {
      OpsOnUniform(ops[..|ops| - 1], i, j);
      assert ops == ops[..|ops| - 1] + [ops[|ops| - 1]];
    }
  }

  lemma NoOps(i: nat)
    ensures OpsOn([], i) == []
  {
  }

  lemma InputOfOps(shape: Shape, i: nat, padOnly: bool)
    ensures forall k :: 0 <= k < |OpsOf(shape, i, padOnly)| ==> OpsOf(shape, i, padOnly)[k].inputs == [i]
  {
  }

  /** The ops of each tensor can be told apart in the whole list. */
  lemma {:induction false} OpsOfTensor(shapes: seq<Shape>, n: nat, padOnly: bool, i: nat)
    requires n <= |shapes|
    ensures OpsOn(PadOps(shapes, n, padOnly), i) == if i < n then OpsOf(shapes[i], i, padOnly) else []
  {
    hide OpsOn, OpsOf;
    if n == 0 {
      NoOps(i);
    } else {
      OpsOfTensor(shapes, n - 1, padOnly, i);
      OpsOnJoined(PadOps(shapes, n - 1, padOnly), OpsOf(shapes[n - 1], n - 1, padOnly), i);
      InputOfOps(shapes[n - 1], n - 1, padOnly);
      OpsOnUniform(OpsOf(shapes[n - 1], n - 1, padOnly), i, n - 1);
    }
  }

  function Indices(shape: Shape): seq<int> {
    seq(|shape.dynamic|, k requires 0 <= k < |shape.dynamic| => shape.dynamic[k].dimension)
  }

  /** Both tensors look the same to a pad module of their modes. Without the sizes of dimensions, the
      sequence of dynamic dimensions does not matter; the modes matter for dynamic tensors only. */
  ghost predicate SameTensor(s: Shape, padOnly: bool, t: Shape, padOnly': bool) {
    && s.dims == t.dims && s.dtype == t.dtype
    && (s.dynamic == [] <==> t.dynamic == [])
    && (s.dynamic != [] ==>
      padOnly == padOnly' && PaddedDims(s) == PaddedDims(t) && (padOnly || Indices(s) == Indices(t)))
  }

  lemma SameIndices(s: Shape, t: Shape, i: nat)
    requires Dynamism.InRange(s) && Dynamism.InRange(t) && InInt64(|s.dims|) && InInt64(|t.dims|)
    ensures SizeOps(s, i, |s.dynamic|) == SizeOps(t, i, |t.dynamic|) <==> Indices(s) == Indices(t)
  {
    var a, b := SizeOps(s, i, |s.dynamic|), SizeOps(t, i, |t.dynamic|);
    assert |a| == |Indices(s)| && |b| == |Indices(t)|;
    if |a| == |b| {
      forall k: nat | k < |a|
        ensures a[k] == b[k] <==> Indices(s)[k] == Indices(t)[k]
      {
        SameSizeOp(s.dynamic[k].dimension, t.dynamic[k].dimension, i);
      }
    }
  }

  lemma SameSizeOp(d: nat, e: nat, i: nat)
    requires InInt64(d) && InInt64(e)
    ensures SizeOp(d, i) == SizeOp(e, i) <==> d == e
  {
    assert SizeOp(d, i).params[0].1 == OfInt(d) && SizeOp(e, i).params[0].1 == OfInt(e);
  }

  lemma SameStatic(s: Shape, padOnly: bool, t: Shape, padOnly': bool)
    requires SameTensor(s, padOnly, t, padOnly')
    ensures s.dims == t.dims && s.dtype == t.dtype && (s.dynamic == [] <==> t.dynamic == [])
  {
  }

  lemma SameOps(s: Shape, padOnly: bool, t: Shape, padOnly': bool, i: nat)
    requires Dynamism.InRange(s) && Dynamism.InRange(t) && InInt64(|s.dims|) && InInt64(|t.dims|)
    requires s.dims == t.dims && s.dtype == t.dtype
    ensures OpsOf(s, i, padOnly) == OpsOf(t, i, padOnly') <==> SameTensor(s, padOnly, t, padOnly')
  {
    hide PaddedDims;
    var a, b := OpsOf(s, i, padOnly), OpsOf(t, i, padOnly');
    SameIndices(s, t, i);
    if a != [] && b != [] {
      assert a[0] == b[0] <==> PaddedDims(s) == PaddedDims(t) by {
        assert a[0].outputs[0].dims == PaddedDims(s) && b[0].outputs[0].dims == PaddedDims(t);
      }
      assert a[1..] == (if padOnly then [] else SizeOps(s, i, |s.dynamic|));
      assert b[1..] == (if padOnly' then [] else SizeOps(t, i, |t.dynamic|));
      assert a == [a[0]] + a[1..] && b == [b[0]] + b[1..];
    }
  }

  ghost predicate Sized(shapes: seq<Shape>, padOnly: bool) {
    && Dynamism.AllInRange(shapes) && Representable(Encode(PadGraph(shapes, padOnly)))
    && forall i :: 0 <= i < |shapes| ==> InInt64(|shapes[i].dims|)
  }

  ghost predicate SameTensors(s: seq<Shape>, padOnly: bool, t: seq<Shape>, padOnly': bool) {
    |s| == |t| && forall i :: 0 <= i < |s| ==> SameTensor(s[i], padOnly, t[i], padOnly')
  }

  ghost predicate SameRow(s: seq<Shape>, padOnly: bool, t: seq<Shape>, padOnly': bool, i: nat)
    requires i < |s| && i < |t|
  {
    OpsOf(s[i], i, padOnly) == OpsOf(t[i], i, padOnly') && (s[i].dynamic == [] <==> t[i].dynamic == [])
  }

  lemma {:induction false} SamePadOps(s: seq<Shape>, padOnly: bool, t: seq<Shape>, padOnly': bool, n: nat)
    requires |s| == |t| && n <= |s| && forall i :: 0 <= i < n ==> SameRow(s, padOnly, t, padOnly', i)
    ensures PadOps(s, n, padOnly) == PadOps(t, n, padOnly')
  {
    hide OpsOf;
    if n == 0 {
    } else {
      SamePadOps(s, padOnly, t, padOnly', n - 1);
      assert SameRow(s, padOnly, t, padOnly', n - 1);
    }
  }

  lemma {:induction false} SamePadOutputs(s: seq<Shape>, padOnly: bool, t: seq<Shape>, padOnly': bool, n: nat)
    requires |s| == |t| && n <= |s| && forall i :: 0 <= i < n ==> SameRow(s, padOnly, t, padOnly', i)
    ensures PadOutputs(s, n, padOnly) == PadOutputs(t, n, padOnly')
  {
    hide OpsOf, PadOps, Consecutive;
    if n == 0 {
    } else {
      SamePadOps(s, padOnly, t, padOnly', n - 1);
      SamePadOutputs(s, padOnly, t, padOnly', n - 1);
      assert SameRow(s, padOnly, t, padOnly', n - 1);
    }
  }

  /** A pad key says of every tensor its sizes, its element type, whether it is dynamic and its padded
      sizes, and in full mode the sequence of its dynamic dimensions; it says nothing else. */
  lemma PadKeyDetermines(s: seq<Shape>, padOnly: bool, t: seq<Shape>, padOnly': bool)
    requires Sized(s, padOnly) && Sized(t, padOnly')
    ensures Key(PadGraph(s, padOnly)) == Key(PadGraph(t, padOnly')) <==> SameTensors(s, padOnly, t, padOnly')
  {
    hide Key, Encode, SameTensor, OpsOf, PadOps, PadOutputs, OpsOn;
    var g, h := PadGraph(s, padOnly), PadGraph(t, padOnly');
    KeyDeterminesGraph(g, h);
    if g == h {
      forall i | 0 <= i < |s|
        ensures |s| == |t| && SameTensor(s[i], padOnly, t[i], padOnly')
      {
        assert g.inputs[i] == h.inputs[i] && |g.inputs| == |h.inputs|;
        OpsOfTensor(s, |s|, padOnly, i);
        OpsOfTensor(t, |t|, padOnly', i);
        SameOps(s[i], padOnly, t[i], padOnly', i);
      }
      assert |g.inputs| == |h.inputs|;
    }
    if SameTensors(s, padOnly, t, padOnly') {
      forall i | 0 <= i < |s|
        ensures s[i].dims == t[i].dims && s[i].dtype == t[i].dtype
        ensures SameRow(s, padOnly, t, padOnly', i)
      {
        SameStatic(s[i], padOnly, t[i], padOnly');
        SameOps(s[i], padOnly, t[i], padOnly', i);
      }
      SamePadOps(s, padOnly, t, padOnly', |s|);
      SamePadOutputs(s, padOnly, t, padOnly', |s|);
      assert InputTensors(s) == InputTensors(t);
    }
  }

  // ---------- The pad module itself ----------

  /** A result of a module, by the number of the argument it is made from. */
  datatype ModuleResult =
    | Same(argument: nat)
    | PaddedTo(argument: nat, dims: seq<int>)
    | SizeOf(argument: nat, dimension: nat)

  datatype Module = Module(arguments: seq<Tensor>, results: seq<ModuleResult>)

  predicate IsEmpty(dims: seq<int>) {
    0 in dims
  }

  function Sizes(shape: Shape, argument: nat): seq<ModuleResult> {
    seq(|shape.dynamic|, k requires 0 <= k < |shape.dynamic| => SizeOf(argument, shape.dynamic[k].dimension))
  }

  function ResultsOf(shape: Shape, argument: nat, padOnly: bool): seq<ModuleResult> {
    if shape.dynamic == [] then [Same(argument)]
    else [PaddedTo(argument, PaddedDims(shape))] + if padOnly then [] else Sizes(shape, argument)
  }

  /** Tensors without elements are not passed to the module. */
  function ModuleUpTo(shapes: seq<Shape>, n: nat, padOnly: bool): Module
    requires n <= |shapes|
  {
    if n == 0 then Module([], [])
    else
      var m := ModuleUpTo(shapes, n - 1, padOnly);
      var shape := shapes[n - 1];
      if IsEmpty(shape.dims) then m
      else Module(m.arguments + [Tensor(shape.dims, shape.dtype)], m.results + ResultsOf(shape, |m.arguments|, padOnly))
  }

  function PadModule(shapes: seq<Shape>, padOnly: bool): Option<Module> {
    if shapes == [] then None else Some(ModuleUpTo(shapes, |shapes|, padOnly))
  }

  lemma SameResults(s: Shape, padOnly: bool, t: Shape, padOnly': bool, argument: nat)
    requires SameTensor(s, padOnly, t, padOnly')
    ensures ResultsOf(s, argument, padOnly) == ResultsOf(t, argument, padOnly')
  {
    if s.dynamic != [] && !padOnly {
      forall k | 0 <= k < |s.dynamic|
        ensures |t.dynamic| == |s.dynamic| && Sizes(s, argument)[k] == Sizes(t, argument)[k]
      {
        assert |Indices(s)| == |Indices(t)| && Indices(s)[k] == Indices(t)[k];
      }
      assert |Indices(s)| == |Indices(t)|;
    }
  }

  lemma {:induction false} SameModules(s: seq<Shape>, padOnly: bool, t: seq<Shape>, padOnly': bool, n: nat)
    requires SameTensors(s, padOnly, t, padOnly') && n <= |s|
    ensures ModuleUpTo(s, n, padOnly) == ModuleUpTo(t, n, padOnly')
  {
    if n == 0 {
    } else {
      SameModules(s, padOnly, t, padOnly', n - 1);
      SameResults(s[n - 1], padOnly, t[n - 1], padOnly', |ModuleUpTo(s, n - 1, padOnly).arguments|);
    }
  }

  /** Whatever their modes, requests with the same pad key build the same pad module. */
  lemma PadKeyDeterminesModule(s: seq<Shape>, padOnly: bool, t: seq<Shape>, padOnly': bool)
    requires Sized(s, padOnly) && Sized(t, padOnly') && Key(PadGraph(s, padOnly)) == Key(PadGraph(t, padOnly'))
    ensures PadModule(s, padOnly) == PadModule(t, padOnly')
  {
    PadKeyDetermines(s, padOnly, t, padOnly');
    SameModules(s, padOnly, t, padOnly', |s|);
  }

  /** The padding module made for a compatible request pads every tensor to the upper bounds: to the
      sizes for which the executable between the adapters was compiled. */
  lemma PaddedToUppers(rows: seq<seq<Dynamism.DimensionBounds>>, bounds: seq<Dynamism.DimensionBounds>,
      shapes: seq<Shape>,
                       runtime: seq<Shape>, padded: seq<Shape>, marked: seq<Shape>, i: nat)
    requires Dynamism.SplitOver(rows, bounds, shapes) && Dynamism.Compatible(bounds, shapes)
    requires Dynamism.Resolved(rows, shapes, runtime, padded, marked) && i < |shapes|
    ensures PaddedDims(marked[i]) == padded[i].dims
    ensures marked[i].dynamic == [] ==> runtime[i].dims == padded[i].dims
  {
    Dynamism.CompatibleRows(rows, bounds, shapes, i);
    Dynamism.MarkedDescribesBounds(shapes[i], rows[i]);
    Dynamism.AnnotationsAreExact(rows[i], |rows[i]|);
    if marked[i].dynamic == [] {
      forall d | 0 <= d < |rows[i]|
        ensures rows[i][d].lower == rows[i][d].upper
      {
        if rows[i][d].lower != rows[i][d].upper {
          assert Dynamism.Names(Dynamism.DynamicDim(d, rows[i][d].lower, rows[i][d].upper), rows[i], |rows[i]|);
        }
      }
    }
  }

  // ---------- What the pad module is ----------

  ghost predicate AscendingIndices(s: seq<nat>) {
    forall k, l :: 0 <= k < l < |s| ==> s[k] < s[l]
  }

  ghost predicate HasElements(shape: Shape) {
    forall d :: 0 <= d < |shape.dims| ==> shape.dims[d] != 0
  }

  /** The first `n` tensors as far as they have elements, in order. */
  ghost predicate ArePassed(kept: seq<nat>, shapes: seq<Shape>, n: nat) {
    && n <= |shapes| && AscendingIndices(kept)
    && forall i: nat :: i in kept <==> i < n && HasElements(shapes[i])
  }

  /** The dimensions whose bounds differ, in order. */
  ghost predicate AreDynamic(dims: seq<nat>, bounds: seq<Dynamism.DimensionBounds>) {
    && AscendingIndices(dims)
    && forall d: nat :: d in dims <==> d < |bounds| && bounds[d].lower != bounds[d].upper
  }

  ghost predicate AreUppers(sizes: seq<int>, bounds: seq<Dynamism.DimensionBounds>) {
    |sizes| == |bounds| && forall d :: 0 <= d < |bounds| ==> sizes[d] == bounds[d].upper
  }

  /** What the module makes of its argument `a`: the argument itself if no bounds differ; otherwise the
      argument padded to the upper bounds and, in full mode, its size in each dynamic dimension. */
  ghost predicate IsResult(results: seq<ModuleResult>, a: nat, bounds: seq<Dynamism.DimensionBounds>, padOnly: bool) {
    exists dims, uppers ::
      && AreDynamic(dims, bounds) && AreUppers(uppers, bounds)
      && results == ResultFor(a, dims, uppers, padOnly)
  }

  ghost function ResultFor(a: nat, dims: seq<nat>, uppers: seq<int>, padOnly: bool): seq<ModuleResult> {
    if dims == [] then [Same(a)]
    else [PaddedTo(a, uppers)] + if padOnly then [] else seq(|dims|, k requires 0 <= k < |dims| => SizeOf(a, dims[k]))
  }

  ghost predicate IsPadModule(m: Module, kept: seq<nat>, made: seq<seq<ModuleResult>>, shapes: seq<Shape>,
                              rows: seq<seq<Dynamism.DimensionBounds>>, padOnly: bool) {
    && |m.arguments| == |kept| == |made| && m.results == Concat(made) && |rows| == |shapes|
    && forall a :: 0 <= a < |kept| ==>
         && kept[a] < |shapes| && m.arguments[a] == Tensor(shapes[kept[a]].dims, shapes[kept[a]].dtype)
         && IsResult(made[a], a, rows[kept[a]], padOnly)
  }

  ghost function AnnotatedDims(annotations: seq<Dynamism.DynamicDim>): seq<nat> {
    seq(|annotations|, k requires 0 <= k < |annotations| => annotations[k].dimension)
  }

  lemma AnnotatedAreDynamic(bounds: seq<Dynamism.DimensionBounds>)
    ensures AreDynamic(AnnotatedDims(Dynamism.Annotations(bounds, |bounds|)), bounds)
  {
    Dynamism.AnnotationsAreExact(bounds, |bounds|);
    var annotations := Dynamism.Annotations(bounds, |bounds|);
    var dims := AnnotatedDims(annotations);
    forall d: nat
      ensures d in dims <==> d < |bounds| && bounds[d].lower != bounds[d].upper
    {
      if d in dims {
        var k :| 0 <= k < |dims| && dims[k] == d;
        assert annotations[k] in annotations;
      }
      if d < |bounds| && bounds[d].lower != bounds[d].upper {
        var annotation := Dynamism.DynamicDim(d, bounds[d].lower, bounds[d].upper);
        assert Dynamism.Names(annotation, bounds, |bounds|);
        var k :| 0 <= k < |annotations| && annotations[k] == annotation;
        assert dims[k] == d;
      }
    }
  }

  ghost predicate IsMarked(marked: Shape, shape: Shape, bounds: seq<Dynamism.DimensionBounds>) {
    && |bounds| == |shape.dims| && marked == Dynamism.Marked(shape, bounds)
    && PaddedDims(marked) == Dynamism.Uppers(bounds)
  }

  lemma MarkedKeepsTensor(marked: Shape, shape: Shape, bounds: seq<Dynamism.DimensionBounds>)
    requires IsMarked(marked, shape, bounds)
    ensures marked.dims == shape.dims && marked.dtype == shape.dtype
  {
  }

  /** One marked tensor's results. */
  lemma ResultsAreExact(marked: Shape, shape: Shape, bounds: seq<Dynamism.DimensionBounds>, a: nat, padOnly: bool)
    requires IsMarked(marked, shape, bounds)
    ensures IsResult(ResultsOf(marked, a, padOnly), a, bounds, padOnly)
  {
    AnnotatedAreDynamic(bounds);
    var dims := AnnotatedDims(marked.dynamic);
    assert AreUppers(Dynamism.Uppers(bounds), bounds);
    assert ResultsOf(marked, a, padOnly) == ResultFor(a, dims, Dynamism.Uppers(bounds), padOnly);
  }

  lemma OneMoreArgument(m: Module, kept: seq<nat>, made: seq<seq<ModuleResult>>, shapes: seq<Shape>,
                        rows: seq<seq<Dynamism.DimensionBounds>>, padOnly: bool, i: nat, row: seq<ModuleResult>)
    requires IsPadModule(m, kept, made, shapes, rows, padOnly) && i < |shapes|
    requires IsResult(row, |kept|, rows[i], padOnly)
    ensures var more := Module(m.arguments + [Tensor(shapes[i].dims, shapes[i].dtype)], m.results + row);
      IsPadModule(more, kept + [i], made + [row], shapes, rows, padOnly)
  {
    hide IsResult;
    ConcatOfMore(made, row);
  }

  lemma {:induction false} ModuleIsExact(shapes: seq<Shape>, rows: seq<seq<Dynamism.DimensionBounds>>,
      marked: seq<Shape>,
                                         padOnly: bool, n: nat)
    returns (kept: seq<nat>, made: seq<seq<ModuleResult>>)
    requires n <= |shapes| == |rows| == |marked|
    requires forall i :: 0 <= i < |shapes| ==> IsMarked(marked[i], shapes[i], rows[i])
    ensures IsPadModule(ModuleUpTo(marked, n, padOnly), kept, made, shapes, rows, padOnly)
    ensures ArePassed(kept, shapes, n)
  {
    hide ResultsOf, IsResult, IsPadModule, HasElements, IsEmpty, IsMarked, ArePassed;
    if n == 0 {
      kept, made := [], [];
      NoArguments(shapes, rows, padOnly);
      assert ArePassed([], shapes, 0) by { NonePassed(shapes); }
    } else {
      kept, made := ModuleIsExact(shapes, rows, marked, padOnly, n - 1);
      PassedNext(kept, shapes, n - 1);
      MarkedKeepsTensor(marked[n - 1], shapes[n - 1], rows[n - 1]);
      if !IsEmpty(shapes[n - 1].dims) {
        ghost var m := ModuleUpTo(marked, n - 1, padOnly);
        var row := ResultsOf(marked[n - 1], |m.arguments|, padOnly);
        assert |m.arguments| == |kept| by { SameCount(m, kept, made, shapes, rows, padOnly); }
        ResultsAreExact(marked[n - 1], shapes[n - 1], rows[n - 1], |kept|, padOnly);
        OneMoreArgument(m, kept, made, shapes, rows, padOnly, n - 1, row);
        kept, made := kept + [n - 1], made + [row];
      }
    }
  }

  lemma NonePassed(shapes: seq<Shape>)
    ensures ArePassed([], shapes, 0)
  {
  }

  lemma NoArguments(shapes: seq<Shape>, rows: seq<seq<Dynamism.DimensionBounds>>, padOnly: bool)
    requires |rows| == |shapes|
    ensures IsPadModule(Module([], []), [], [], shapes, rows, padOnly)
  {
  }

  lemma SameCount(m: Module, kept: seq<nat>, made: seq<seq<ModuleResult>>, shapes: seq<Shape>,
                  rows: seq<seq<Dynamism.DimensionBounds>>, padOnly: bool)
    requires IsPadModule(m, kept, made, shapes, rows, padOnly)
    ensures |m.arguments| == |kept|
  {
  }

  lemma EmptyHasNone(shape: Shape)
    ensures IsEmpty(shape.dims) <==> !HasElements(shape)
  {
  }

  lemma PassedNext(kept: seq<nat>, shapes: seq<Shape>, n: nat)
    requires n < |shapes| && ArePassed(kept, shapes, n)
    ensures ArePassed(if IsEmpty(shapes[n].dims) then kept else kept + [n], shapes, n + 1)
  {
    hide HasElements, IsEmpty;
    EmptyHasNone(shapes[n]);
    forall k | 0 <= k < |kept|
      ensures kept[k] < n
    {
      var i := kept[k];
      assert i in kept;
    }
  }

  /** The module made for a compatible request: its arguments are the tensors with elements, with their
      sizes at run time; each is passed on as it is or padded to the upper bounds, to which the executable
      between the adapters is compiled, followed in full mode by the sizes of its dynamic dimensions. */
  lemma PadModuleIs(rows: seq<seq<Dynamism.DimensionBounds>>, bounds: seq<Dynamism.DimensionBounds>, shapes: seq<Shape>,
                    runtime: seq<Shape>, padded: seq<Shape>, marked: seq<Shape>, padOnly: bool)
    returns (kept: seq<nat>, made: seq<seq<ModuleResult>>)
    requires Dynamism.SplitOver(rows, bounds, shapes) && Dynamism.Compatible(bounds, shapes)
    requires Dynamism.Resolved(rows, shapes, runtime, padded, marked)
    ensures PadModule(marked, padOnly).None? <==> shapes == []
    ensures shapes != [] ==> IsPadModule(PadModule(marked, padOnly).value, kept, made, shapes, rows, padOnly)
    ensures ArePassed(kept, shapes, |shapes|)
  {
    forall i | 0 <= i < |shapes|
      ensures IsMarked(marked[i], shapes[i], rows[i])
    {
      PaddedToUppers(rows, bounds, shapes, runtime, padded, marked, i);
    }
    kept, made := ModuleIsExact(shapes, rows, marked, padOnly, |shapes|);
  }

  // ---------- Slice modules ----------

  /** Whether some dimension of the target has another size than the padded tensor. */
  ghost predicate NeedsSlicing(target: seq<int>, padded: seq<int>)
    requires |target| <= |padded|
  {
    exists d :: 0 <= d < |target| && padded[d] != target[d]
  }

  ghost predicate Ranked(targets: seq<seq<int>>, padded: seq<seq<int>>, dtypes: seq<string>) {
    && |targets| == |padded| == |dtypes|
    && forall i :: 0 <= i < |targets| ==> |targets[i]| <= |padded[i]|
  }

  function SliceOp(target: seq<int>, dtype: string, i: nat): Op {
    Op(SLICE, [], [i], [Tensor(target, dtype)])
  }

  ghost function SliceOpsOf(target: seq<int>, padded: seq<int>, dtype: string, i: nat): seq<Op>
    requires |target| <= |padded|
  {
    if NeedsSlicing(target, padded) then [SliceOp(target, dtype, i)] else []
  }

  ghost function SliceOps(targets: seq<seq<int>>, padded: seq<seq<int>>, dtypes: seq<string>, n: nat): seq<Op>
    requires Ranked(targets, padded, dtypes) && n <= |targets|
  {
    if n == 0 then []
    else SliceOps(targets, padded, dtypes, n - 1) + SliceOpsOf(targets[n - 1], padded[n - 1], dtypes[n - 1], n - 1)
  }

  ghost function SliceOutputs(targets: seq<seq<int>>, padded: seq<seq<int>>, dtypes: seq<string>, n: nat): seq<int>
    requires Ranked(targets, padded, dtypes) && n <= |targets|
  {
    if n == 0 then []
    else SliceOutputs(targets, padded, dtypes, n - 1) +
         if NeedsSlicing(targets[n - 1], padded[n - 1]) then [|targets| + |SliceOps(targets, padded, dtypes, n - 1)|]
         else [n - 1]
  }

  function PaddedTensors(padded: seq<seq<int>>, dtypes: seq<string>): seq<Tensor>
    requires |padded| == |dtypes|
  {
    seq(|padded|, i requires 0 <= i < |padded| => Tensor(padded[i], dtypes[i]))
  }

  ghost function SliceGraphUpTo(targets: seq<seq<int>>, padded: seq<seq<int>>, dtypes: seq<string>, n: nat): Graph
    requires Ranked(targets, padded, dtypes) && n <= |targets|
  {
    Graph(PaddedTensors(padded, dtypes), SliceOps(targets, padded, dtypes, n),
      SliceOutputs(targets, padded, dtypes, n), {}, Unpinned)
  }

  ghost function SliceGraph(targets: seq<seq<int>>, padded: seq<seq<int>>, dtypes: seq<string>): Graph
    requires Ranked(targets, padded, dtypes)
  {
    SliceGraphUpTo(targets, padded, dtypes, |targets|)
  }

  method RequiresSlicing(target: seq<int>, padded: seq<int>) returns (needed: bool)
    requires |target| <= |padded|
    ensures needed <==> NeedsSlicing(target, padded)
  {
    for d := 0 to |target|
      invariant forall e :: 0 <= e < d ==> padded[e] == target[e]
    {
      if padded[d] != target[d] {
        return true;
      }
    }
    return false;
  }

  method SliceModuleCacheKey(targets: seq<seq<int>>, padded: seq<seq<int>>, dtypes: seq<string>) returns (key: GraphKey)
    requires Ranked(targets, padded, dtypes)
    ensures key == Key(SliceGraph(targets, padded, dtypes))
  {
    hide NeedsSlicing, GraphSignature.Valid, Tensors, Key, Encode;
    var requiresSlicing: seq<bool> := [];
    for i := 0 to |targets|
      invariant |requiresSlicing| == i
      invariant forall j :: 0 <= j < i ==> (requiresSlicing[j] <==> NeedsSlicing(targets[j], padded[j]))
    {
      var needed := RequiresSlicing(targets[i], padded[i]);
      requiresSlicing := requiresSlicing + [needed];
    }
    var graph := new GraphSignature();
    AddInputs(graph, PaddedTensors(padded, dtypes));
    for i := 0 to |targets|
      invariant fresh(graph) && graph.Valid() && graph.graph == SliceGraphUpTo(targets, padded, dtypes, i)
      invariant |Tensors(graph.graph)| == |targets| + |SliceOps(targets, padded, dtypes, i)|
    {
      if !requiresSlicing[i] {
        TensorsOfOps(graph.graph, i);
        graph.AddGraphOutput(i);
      } else {
        AddUnary(graph, SLICE, [], i, Tensor(targets[i], dtypes[i]));
      }
    }
    key := graph.GetKey();
  }

  lemma InputOfSlice(target: seq<int>, padded: seq<int>, dtype: string, i: nat)
    requires |target| <= |padded|
    ensures forall k :: 0 <= k < |SliceOpsOf(target, padded, dtype, i)| ==>
      SliceOpsOf(target, padded, dtype, i)[k].inputs == [i]
  {
  }

  lemma {:induction false} SliceOpsOfTensor(targets: seq<seq<int>>, padded: seq<seq<int>>, dtypes: seq<string>,
      n: nat, i: nat)
    requires Ranked(targets, padded, dtypes) && n <= |targets|
    ensures OpsOn(SliceOps(targets, padded, dtypes, n), i)
      == if i < n then SliceOpsOf(targets[i], padded[i], dtypes[i], i) else []
  {
    hide OpsOn, SliceOpsOf;
    NoOps(i);
    if n == 0 {
    } else {
      var last := SliceOpsOf(targets[n - 1], padded[n - 1], dtypes[n - 1], n - 1);
      SliceOpsOfTensor(targets, padded, dtypes, n - 1, i);
      OpsOnJoined(SliceOps(targets, padded, dtypes, n - 1), last, i);
      InputOfSlice(targets[n - 1], padded[n - 1], dtypes[n - 1], n - 1);
      OpsOnUniform(last, i, n - 1);
    }
  }

  ghost predicate SameRanks(targets: seq<seq<int>>, padded: seq<seq<int>>) {
    |targets| == |padded| && forall i :: 0 <= i < |targets| ==> |targets[i]| == |padded[i]|
  }

  lemma SliceTargetBack(g: Graph, targets: seq<seq<int>>, padded: seq<seq<int>>, dtypes: seq<string>, i: nat)
    requires SameRanks(targets, padded) && Ranked(targets, padded, dtypes) && g == SliceGraph(targets, padded, dtypes)
    requires i < |targets|
    ensures i < |g.inputs| && g.inputs[i] == Tensor(padded[i], dtypes[i])
    ensures targets[i] == (var ops := OpsOn(g.ops, i);
      if ops != [] && ops[0].outputs != [] then ops[0].outputs[0].dims else g.inputs[i].dims)
  {
    SliceOpsOfTensor(targets, padded, dtypes, |targets|, i);
  }

  /** Equal slice keys come from equal target sizes, padded sizes and element types. */
  lemma SliceKeyDetermines(targets: seq<seq<int>>, padded: seq<seq<int>>, dtypes: seq<string>,
                           targets': seq<seq<int>>, padded': seq<seq<int>>, dtypes': seq<string>)
    requires SameRanks(targets, padded) && Ranked(targets, padded, dtypes)
    requires SameRanks(targets', padded') && Ranked(targets', padded', dtypes')
    requires Representable(Encode(SliceGraph(targets, padded, dtypes)))
    requires Representable(Encode(SliceGraph(targets', padded', dtypes')))
    ensures Key(SliceGraph(targets, padded, dtypes)) == Key(SliceGraph(targets', padded', dtypes'))
      <==> targets == targets' && padded == padded' && dtypes == dtypes'
  {
    var g, h := SliceGraph(targets, padded, dtypes), SliceGraph(targets', padded', dtypes');
    KeyDeterminesGraph(g, h);
    if g == h {
      assert |g.inputs| == |h.inputs|;
      forall i | 0 <= i < |targets|
        ensures targets[i] == targets'[i] && padded[i] == padded'[i] && dtypes[i] == dtypes'[i]
      {
        SliceTargetBack(g, targets, padded, dtypes, i);
        SliceTargetBack(h, targets', padded', dtypes', i);
      }
    }
  }

  // ---------- The slice key of a request ----------

  /** The padded sizes that go into the key: upper bounds where the bounds differ, the request's own
      sizes elsewhere. */
  function HashedDims(dims: seq<int>, bounds: seq<Dynamism.DimensionBounds>): seq<int>
    requires |dims| == |bounds|
  {
    seq(|dims|, d requires 0 <= d < |dims| => if bounds[d].lower != bounds[d].upper then bounds[d].upper else dims[d])
  }

  /** The sizes that the key has for the tensors, and those that the module is built with. */
  ghost predicate HashedOver(hashed: seq<seq<int>>, rows: seq<seq<Dynamism.DimensionBounds>>, shapes: seq<Shape>) {
    |hashed| == |rows| == |shapes| && forall i :: 0 <= i < |shapes| ==>
      |rows[i]| == |shapes[i].dims| && hashed[i] == HashedDims(shapes[i].dims, rows[i])
  }

  function UpperRows(rows: seq<seq<Dynamism.DimensionBounds>>): seq<seq<int>> {
    seq(|rows|, i requires 0 <= i < |rows| => Dynamism.Uppers(rows[i]))
  }

  function DtypesOf(shapes: seq<Shape>): seq<string> {
    seq(|shapes|, i requires 0 <= i < |shapes| => shapes[i].dtype)
  }

  method PaddedOutput(dims: seq<int>, bounds: seq<Dynamism.DimensionBounds>) returns (padded: seq<int>)
    requires |dims| == |bounds|
    ensures padded == HashedDims(dims, bounds)
  {
    padded := dims;
    for d := 0 to |dims|
      invariant |padded| == |dims| && padded[d..] == dims[d..]
      invariant forall e :: 0 <= e < d ==> padded[e] == HashedDims(dims, bounds)[e]
    {
      assert padded[d] == dims[d] by { assert padded[d..][0] == dims[d..][0]; }
      if bounds[d].lower != bounds[d].upper {
        padded := padded[d := bounds[d].upper];
      }
      assert padded[d + 1..] == dims[d + 1..];
    }
  }

  lemma HashedNone(bounds: seq<Dynamism.DimensionBounds>)
    ensures Dynamism.SplitOver([], bounds, []) && HashedOver([], [], [])
  {
  }

  lemma HashedNext(hashed: seq<seq<int>>, rows: seq<seq<Dynamism.DimensionBounds>>, shapes: seq<Shape>,
                   row: seq<Dynamism.DimensionBounds>, shape: Shape)
    requires HashedOver(hashed, rows, shapes) && |row| == |shape.dims|
    ensures HashedOver(hashed + [HashedDims(shape.dims, row)], rows + [row], shapes + [shape])
  {
  }

  lemma HashedRanks(hashed: seq<seq<int>>, rows: seq<seq<Dynamism.DimensionBounds>>, shapes: seq<Shape>)
    requires HashedOver(hashed, rows, shapes)
    ensures SameRanks(Dynamism.SizeRows(shapes), hashed) && Ranked(Dynamism.SizeRows(shapes), hashed, DtypesOf(shapes))
  {
  }

  method GetSliceModuleCacheKey(bounds: seq<Dynamism.DimensionBounds>, shapes: seq<Shape>)
    returns (key: GraphKey, ghost rows: seq<seq<Dynamism.DimensionBounds>>, ghost hashed: seq<seq<int>>)
    requires |Dynamism.FlatDims(shapes)| <= |bounds|
    ensures Dynamism.SplitOver(rows, bounds, shapes) && HashedOver(hashed, rows, shapes)
    ensures SameRanks(Dynamism.SizeRows(shapes), hashed) && Ranked(Dynamism.SizeRows(shapes), hashed, DtypesOf(shapes))
    ensures key == Key(SliceGraph(Dynamism.SizeRows(shapes), hashed, DtypesOf(shapes)))
  {
    hide Dynamism.SplitOver, HashedOver, HashedDims;
    var targets, padded, dtypes := [], [], [];
    rows := [];
    HashedNone(bounds);
    var boundsIndex := 0;
    for i := 0 to |shapes|
      invariant |rows| == |padded| == i && Concat(rows) <= bounds
      invariant boundsIndex == |Concat(rows)| == |Join(Dynamism.SizeRows(shapes), i)|
      invariant Dynamism.SplitOver(rows, bounds, shapes[..i]) && HashedOver(padded, rows, shapes[..i])
      invariant targets == Dynamism.SizeRows(shapes)[..i] && dtypes == DtypesOf(shapes)[..i]
    {
      var shape := shapes[i];
      Dynamism.JoinStep(shapes, i);
      var shapeBounds := bounds[boundsIndex..boundsIndex + |shape.dims|];
      dtypes := dtypes + [shape.dtype];
      targets := targets + [shape.dims];
      boundsIndex := boundsIndex + |shape.dims|;
      var paddedDims := PaddedOutput(shape.dims, shapeBounds);
      padded := padded + [paddedDims];
      ConcatOfMore(rows, shapeBounds);
      assert bounds[..boundsIndex] == Concat(rows) + shapeBounds;
      Dynamism.SplitNext(rows, bounds, shapes[..i], shapeBounds, shape);
      HashedNext(padded[..i], rows, shapes[..i], shapeBounds, shape);
      assert shapes[..i + 1] == shapes[..i] + [shape];
      rows := rows + [shapeBounds];
    }
    assert shapes[..|shapes|] == shapes && targets == Dynamism.SizeRows(shapes) && dtypes == DtypesOf(shapes);
    HashedRanks(padded, rows, shapes);
    hashed := padded;
    key := SliceModuleCacheKey(targets, padded, dtypes);
  }

  lemma HashedAgree(dims: seq<int>, bounds: seq<Dynamism.DimensionBounds>)
    requires |dims| == |bounds|
    ensures HashedDims(dims, bounds) == Dynamism.Uppers(bounds) <==> Dynamism.StaticAgree(dims, bounds)
  {
    if HashedDims(dims, bounds) == Dynamism.Uppers(bounds) {
      forall d | 0 <= d < |dims| && bounds[d].lower == bounds[d].upper
        ensures dims[d] == bounds[d].upper
      {
        assert HashedDims(dims, bounds)[d] == Dynamism.Uppers(bounds)[d];
      }
    }
  }

  ghost predicate AllStaticAgree(rows: seq<seq<Dynamism.DimensionBounds>>, shapes: seq<Shape>)
    requires |rows| == |shapes| && forall i :: 0 <= i < |shapes| ==> |rows[i]| == |shapes[i].dims|
  {
    forall i :: 0 <= i < |shapes| ==> Dynamism.StaticAgree(shapes[i].dims, rows[i])
  }

  /** The key describes the module that is built exactly when the sizes that are not dynamic agree with
      their bounds. */
  lemma SliceKeyFitsModule(rows: seq<seq<Dynamism.DimensionBounds>>, bounds: seq<Dynamism.DimensionBounds>,
      shapes: seq<Shape>,
                           hashed: seq<seq<int>>)
    requires Dynamism.SplitOver(rows, bounds, shapes) && HashedOver(hashed, rows, shapes)
    requires var targets, dtypes := Dynamism.SizeRows(shapes), DtypesOf(shapes);
      && Representable(Encode(SliceGraph(targets, hashed, dtypes)))
      && Representable(Encode(SliceGraph(targets, UpperRows(rows), dtypes)))
    ensures var targets, dtypes := Dynamism.SizeRows(shapes), DtypesOf(shapes);
      Key(SliceGraph(targets, hashed, dtypes)) == Key(SliceGraph(targets, UpperRows(rows), dtypes)) <==>
        AllStaticAgree(rows, shapes)
  {
    hide Key, Encode, SliceGraph, Representable, HashedDims, Dynamism.StaticAgree;
    var targets, dtypes := Dynamism.SizeRows(shapes), DtypesOf(shapes);
    HashedRanks(hashed, rows, shapes);
    SliceKeyDetermines(targets, hashed, dtypes, targets, UpperRows(rows), dtypes);
    forall i | 0 <= i < |shapes|
      ensures hashed[i] == UpperRows(rows)[i] <==> Dynamism.StaticAgree(shapes[i].dims, rows[i])
    {
      HashedAgree(shapes[i].dims, rows[i]);
    }
  }

  /** Outputs within their bounds are sliced from exactly the padded sizes that their key names. */
  lemma WithinBoundsFits(rows: seq<seq<Dynamism.DimensionBounds>>, bounds: seq<Dynamism.DimensionBounds>,
      shapes: seq<Shape>,
                         hashed: seq<seq<int>>)
    requires Dynamism.SplitOver(rows, bounds, shapes) && HashedOver(hashed, rows, shapes)
    requires Dynamism.Compatible(bounds, shapes)
    ensures hashed == UpperRows(rows)
  {
    forall i | 0 <= i < |shapes|
      ensures hashed[i] == UpperRows(rows)[i]
    {
      Dynamism.CompatibleRows(rows, bounds, shapes, i);
      HashedAgree(shapes[i].dims, rows[i]);
    }
  }
}
