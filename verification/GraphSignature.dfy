/** The flat signature of a computation graph and the key made from it. Every list of lists is stored
    as one long list with the positions at which its members start. */
module GraphSignatures {
  import opened Prelude
  import opened Orders
  import opened Fingerprints

  datatype Tensor = Tensor(dims: seq<int>, dtype: string)

  /** `params` are the op's parameter keys in the order of their names. */
  datatype Op = Op(name: string, params: seq<(string, Fp)>, inputs: seq<int>, outputs: seq<Tensor>)

  datatype CorePinningMode = Unpinned | TensorCore | SparseCore

  /** What the key has to identify. Tensors are numbered: first the inputs, then each op's outputs. */
  datatype Graph = Graph(inputs: seq<Tensor>, ops: seq<Op>, outputs: seq<int>, donated: set<int>,
      pinning: CorePinningMode)

  datatype Flat = Flat(
    graphOutputs: seq<int>, dimStarts: seq<int>, dims: seq<int>, dtypes: seq<string>, donated: seq<int>,
    inputStarts: seq<int>, inputs: seq<int>, opNames: seq<string>,
    paramStarts: seq<int>, params: seq<(string, Fp)>, outputEnds: seq<int>, pinning: int)

  // ---------- Lists of lists ----------

  /** Where each row starts, and where the last one ends. */
  function Starts<T>(rows: seq<seq<T>>): (r: seq<int>)
    ensures |r| == |rows| + 1
  {
    seq(|rows| + 1, i requires 0 <= i < |rows| + 1 => Prefix(Lengths(rows), i))
  }

  function Row<T>(starts: seq<int>, flat: seq<T>, i: nat): seq<T> {
    if i + 1 < |starts| && 0 <= starts[i] <= starts[i + 1] <= |flat| then flat[starts[i]..starts[i + 1]] else []
  }

  lemma RowBack<T>(rows: seq<seq<T>>, i: nat)
    requires i < |rows|
    ensures Row(Starts(rows), Concat(rows), i) == rows[i]
  {
    ConcatSlice(rows, i);
  }

  /** Appending a row appends its elements, and the new end to the starts. */
  lemma AppendRow<T>(rows: seq<seq<T>>, row: seq<T>)
    ensures Concat(rows + [row]) == Concat(rows) + row
    ensures Starts(rows + [row]) == Starts(rows) + [|Concat(rows)| + |row|]
    ensures Starts(rows)[|rows|] == |Concat(rows)|
  {
    JoinOfMore(rows, row, |rows|);
    JoinLength(rows, |rows|);
    forall i | 0 <= i <= |rows|
      ensures Prefix(Lengths(rows + [row]), i) == Prefix(Lengths(rows), i)
    {
      PrefixAgrees(Lengths(rows + [row]), Lengths(rows), i);
    }
  }

  function DimRows(tensors: seq<Tensor>): seq<seq<int>> {
    seq(|tensors|, i requires 0 <= i < |tensors| => tensors[i].dims)
  }

  function Dtypes(tensors: seq<Tensor>): seq<string> {
    seq(|tensors|, i requires 0 <= i < |tensors| => tensors[i].dtype)
  }

  function OutputRows(ops: seq<Op>): seq<seq<Tensor>> {
    seq(|ops|, i requires 0 <= i < |ops| => ops[i].outputs)
  }

  function InputRows(ops: seq<Op>): seq<seq<int>> {
    seq(|ops|, i requires 0 <= i < |ops| => ops[i].inputs)
  }

  function ParamRows(ops: seq<Op>): seq<seq<(string, Fp)>> {
    seq(|ops|, i requires 0 <= i < |ops| => ops[i].params)
  }

  function OpNames(ops: seq<Op>): seq<string> {
    seq(|ops|, i requires 0 <= i < |ops| => ops[i].name)
  }

  /** The graph's inputs, and then each op's outputs. */
  function TensorRows(g: Graph): seq<seq<Tensor>> {
    [g.inputs] + OutputRows(g.ops)
  }

  function Tensors(g: Graph): seq<Tensor> {
    Concat(TensorRows(g))
  }

  function PinningNumber(mode: CorePinningMode): int {
    match mode case Unpinned => 0 case TensorCore => 1 case SparseCore => 2
  }

  // ---------- Sorted donated indices ----------

  predicate Ascending(x: int, y: int) {
    x < y
  }

  ghost function DonatedList(donated: set<int>): (r: seq<int>)
    ensures StrictlySorted(Ascending, r) && Elements(r) == donated
  {
    SortedElements(Ascending, donated)
  }

  // ---------- Encoding and decoding ----------

  ghost function Encode(g: Graph): Flat {
    Flat(g.outputs, Starts(DimRows(Tensors(g))), Concat(DimRows(Tensors(g))), Dtypes(Tensors(g)),
      DonatedList(g.donated),
         Starts(InputRows(g.ops)), Concat(InputRows(g.ops)), OpNames(g.ops),
         Starts(ParamRows(g.ops)), Concat(ParamRows(g.ops)), Starts(TensorRows(g))[1..], PinningNumber(g.pinning))
  }

  function DecodeTensors(f: Flat): seq<Tensor> {
    seq(|f.dtypes|, i requires 0 <= i < |f.dtypes| => Tensor(Row(f.dimStarts, f.dims, i), f.dtypes[i]))
  }

  function DecodeOp(f: Flat, i: nat): Op
    requires i < |f.opNames|
  {
    Op(f.opNames[i], Row(f.paramStarts, f.params, i), Row(f.inputStarts, f.inputs, i),
       Row([0] + f.outputEnds, DecodeTensors(f), i + 1))
  }

  /** Reads the graph back from its flat lists. */
  function Decode(f: Flat): Graph {
    Graph(Row([0] + f.outputEnds, DecodeTensors(f), 0),
          seq(|f.opNames|, i requires 0 <= i < |f.opNames| => DecodeOp(f, i)),
          f.graphOutputs, Elements(f.donated),
          if f.pinning == 0 then Unpinned else if f.pinning == 1 then TensorCore else SparseCore)
  }

  lemma DecodeTensorsBack(g: Graph)
    ensures DecodeTensors(Encode(g)) == Tensors(g)
  {
    var tensors := Tensors(g);
    forall i | 0 <= i < |tensors|
      ensures DecodeTensors(Encode(g))[i] == tensors[i]
    {
      RowBack(DimRows(tensors), i);
    }
  }

  lemma DecodeOpBack(g: Graph, i: nat)
    requires i < |g.ops|
    ensures DecodeOp(Encode(g), i) == g.ops[i]
  {
    var f := Encode(g);
    DecodeTensorsBack(g);
    assert [0] + f.outputEnds == Starts(TensorRows(g));
    RowBack(TensorRows(g), i + 1);
    RowBack(InputRows(g.ops), i);
    RowBack(ParamRows(g.ops), i);
  }

  /** The flat signature is uniquely decodable. */
  lemma DecodeEncode(g: Graph)
    ensures Decode(Encode(g)) == g
  {
    hide DecodeOp;
    var f := Encode(g);
    DecodeTensorsBack(g);
    assert [0] + f.outputEnds == Starts(TensorRows(g));
    RowBack(TensorRows(g), 0);
    forall i | 0 <= i < |g.ops|
      ensures DecodeOp(f, i) == g.ops[i]
    {
      DecodeOpBack(g, i);
    }
    assert Decode(f).ops == g.ops;
  }

  // ---------- Keys ----------

  datatype GraphKey = GraphKey(shapeless: Fp, dimensions: Fp)

  /** The parts of the shapeless key, in the order in which they are concatenated. */
  function ShapelessParts(f: Flat): (parts: seq<Fp>)
    ensures |parts| == 11
  {
    [OfInts(f.graphOutputs), OfInts(f.dimStarts), OfTexts(f.dtypes), OfInts(f.donated), OfInts(f.inputStarts),
     OfInts(f.inputs), OfTexts(f.opNames), OfInts(f.paramStarts), OfPairs(f.params), OfInts(f.outputEnds),
       OfInt(f.pinning)]
  }

  function KeyOf(f: Flat): GraphKey {
    GraphKey(FingerprintCat(ShapelessParts(f)), DimensionsKey(f.dims))
  }

  ghost function Key(g: Graph): GraphKey {
    KeyOf(Encode(g))
  }

  /** All numbers of the signature are 64-bit integers. */
  ghost predicate Representable(f: Flat) {
    && AllInt64(f.graphOutputs) && AllInt64(f.dimStarts) && AllInt64(f.dims) && AllInt64(f.donated)
    && AllInt64(f.inputStarts) && AllInt64(f.inputs) && AllInt64(f.paramStarts) && AllInt64(f.outputEnds)
  }

  lemma ShapelessPartsInjective(e: Flat, f: Flat)
    requires Representable(e) && Representable(f) && 0 <= e.pinning <= 2 && 0 <= f.pinning <= 2
    requires FingerprintCat(ShapelessParts(e)) == FingerprintCat(ShapelessParts(f))
    ensures e == f.(dims := e.dims)
  {
    var a, b := ShapelessParts(e), ShapelessParts(f);
    FingerprintCatInjective(a, b);
    assert a[0] == b[0] && a[1] == b[1] && a[2] == b[2] && a[3] == b[3] && a[4] == b[4] && a[5] == b[5];
    assert a[6] == b[6] && a[7] == b[7] && a[8] == b[8] && a[9] == b[9] && a[10] == b[10];
    OfIntsInjective(e.graphOutputs, f.graphOutputs);
    OfIntsInjective(e.dimStarts, f.dimStarts);
    OfTextsInjective(e.dtypes, f.dtypes);
    OfIntsInjective(e.donated, f.donated);
    OfIntsInjective(e.inputStarts, f.inputStarts);
    OfIntsInjective(e.inputs, f.inputs);
    OfTextsInjective(e.opNames, f.opNames);
    OfIntsInjective(e.paramStarts, f.paramStarts);
    OfPairsInjective(e.params, f.params);
    OfIntsInjective(e.outputEnds, f.outputEnds);
  }

  lemma PinningInRange(g: Graph)
    ensures 0 <= Encode(g).pinning <= 2
  {
  }

  lemma RepresentableDims(f: Flat)
    requires Representable(f)
    ensures AllInt64(f.dims)
  {
  }

  /** Equal graph keys come from equal graphs: same inputs, ops, edges, parameters, outputs, sizes,
      element types, pinning mode and set of donated tensors. */
  lemma KeyDeterminesGraph(g: Graph, h: Graph)
    requires Representable(Encode(g)) && Representable(Encode(h))
    ensures Key(g) == Key(h) <==> g == h
  {
    hide Encode, Decode, Representable, ShapelessParts, DimensionsKey;
    if Key(g) == Key(h) {
      PinningInRange(g);
      PinningInRange(h);
      RepresentableDims(Encode(g));
      RepresentableDims(Encode(h));
      ShapelessPartsInjective(Encode(g), Encode(h));
      DimensionsKeyInjective(Encode(g).dims, Encode(h).dims);
      DecodeEncode(g);
      DecodeEncode(h);
    }
  }

  // ---------- Shapeless keys ----------

  /** The tensor with its sizes forgotten and its rank kept. */
  function ErasedTensor(t: Tensor): Tensor {
    t.(dims := seq(|t.dims|, _ => 0))
  }

  function ErasedTensors(tensors: seq<Tensor>): seq<Tensor> {
    seq(|tensors|, i requires 0 <= i < |tensors| => ErasedTensor(tensors[i]))
  }

  function ErasedOp(op: Op): Op {
    op.(outputs := ErasedTensors(op.outputs))
  }

  function Erased(g: Graph): Graph {
    g.(inputs := ErasedTensors(g.inputs),
       ops := seq(|g.ops|, i requires 0 <= i < |g.ops| => ErasedOp(g.ops[i])))
  }

  lemma {:induction false} JoinErased(rows: seq<seq<Tensor>>, erased: seq<seq<Tensor>>, n: nat)
    requires |rows| == |erased| && n <= |rows|
    requires forall i :: 0 <= i < |rows| ==> erased[i] == ErasedTensors(rows[i])
    ensures Join(erased, n) == ErasedTensors(Join(rows, n))
  {
    if n == 0 {
    } else {
      JoinErased(rows, erased, n - 1);
    }
  }

  lemma {:induction false} JoinZeros(rows: seq<seq<int>>, n: nat)
    requires n <= |rows| && forall i, j :: 0 <= i < |rows| && 0 <= j < |rows[i]| ==> rows[i][j] == 0
    ensures Join(rows, n) == seq(|Join(rows, n)|, _ => 0)
  {
    if n == 0 {
    } else {
      JoinZeros(rows, n - 1);
    }
  }

  lemma TensorsErased(g: Graph)
    ensures Tensors(Erased(g)) == ErasedTensors(Tensors(g)) && Starts(TensorRows(Erased(g))) == Starts(TensorRows(g))
  {
    var rows, erased := TensorRows(g), TensorRows(Erased(g));
    JoinErased(rows, erased, |rows|);
    assert Lengths(erased) == Lengths(rows);
  }

  lemma ErasedSizes(tensors: seq<Tensor>)
    ensures var rows, zeros := DimRows(tensors), DimRows(ErasedTensors(tensors));
      Starts(zeros) == Starts(rows) && Concat(zeros) == seq(|Concat(rows)|, _ => 0)
    ensures Dtypes(ErasedTensors(tensors)) == Dtypes(tensors)
  {
    var rows, zeros := DimRows(tensors), DimRows(ErasedTensors(tensors));
    assert Lengths(zeros) == Lengths(rows);
    JoinZeros(zeros, |zeros|);
    JoinLength(zeros, |zeros|);
    JoinLength(rows, |rows|);
  }

  /** Forgetting the sizes changes nothing in the signature but the sizes. */
  lemma EncodeErased(g: Graph)
    ensures Encode(Erased(g)) == Encode(g).(dims := seq(|Encode(g).dims|, _ => 0))
  {
    hide Tensors, TensorRows, DimRows, Starts, Concat, Dtypes;
    var e := Erased(g);
    TensorsErased(g);
    ErasedSizes(Tensors(g));
    assert InputRows(e.ops) == InputRows(g.ops) && ParamRows(e.ops) == ParamRows(g.ops) &&
      OpNames(e.ops) == OpNames(g.ops);
  }

  lemma PartsIgnoreSizes(f: Flat, dims: seq<int>)
    ensures ShapelessParts(f.(dims := dims)) == ShapelessParts(f)
  {
  }

  /** Equal shapeless keys come from graphs that are equal but for the sizes of dimensions: their
      tensors still have the same ranks. */
  lemma ShapelessKeyDetermines(g: Graph, h: Graph)
    requires Representable(Encode(g)) && Representable(Encode(h))
    ensures Key(g).shapeless == Key(h).shapeless <==> Erased(g) == Erased(h)
  {
    hide Representable, ShapelessParts, Erased, Decode;
    PinningInRange(g);
    PinningInRange(h);
    EncodeErased(g);
    EncodeErased(h);
    assert Erased(g) == Erased(h) ==> Key(g).shapeless == Key(h).shapeless by {
      PartsIgnoreSizes(Encode(g), seq(|Encode(g).dims|, _ => 0));
      PartsIgnoreSizes(Encode(h), seq(|Encode(h).dims|, _ => 0));
    }
    if Key(g).shapeless == Key(h).shapeless {
      var e, f := Encode(g), Encode(h);
      ShapelessPartsInjective(e, f);
      AppendedEnd(DimRows(Tensors(g)));
      AppendedEnd(DimRows(Tensors(h)));
      assert |e.dims| == e.dimStarts[|e.dimStarts| - 1] == |f.dims|;
      DecodeEncode(Erased(g));
      DecodeEncode(Erased(h));
    }
  }

  lemma AppendedEnd<T>(rows: seq<seq<T>>)
    ensures Starts(rows)[|rows|] == |Concat(rows)|
  {
    JoinLength(rows, |rows|);
  }

  // ---------- The signature under construction ----------

  /** What a streamed op does, call by call: it names an input tensor, or adds an output tensor. */
  datatype OpEvent = Input(index: int) | Output(tensor: Tensor)

  function InputsOf(events: seq<OpEvent>): seq<int> {
    if events == [] then []
    else
      var last := events[|events| - 1];
      InputsOf(events[..|events| - 1]) + if last.Input? then [last.index] else []
  }

  function OutputsOf(events: seq<OpEvent>): seq<Tensor> {
    if events == [] then []
    else
      var last := events[|events| - 1];
      OutputsOf(events[..|events| - 1]) + if last.Output? then [last.tensor] else []
  }

  lemma InputsStep(events: seq<OpEvent>, e: OpEvent)
    ensures InputsOf(events + [e]) == InputsOf(events) + if e.Input? then [e.index] else []
  {
    assert (events + [e])[..|events|] == events;
  }

  lemma OutputsStep(events: seq<OpEvent>, e: OpEvent)
    ensures OutputsOf(events + [e]) == OutputsOf(events) + if e.Output? then [e.tensor] else []
  {
    assert (events + [e])[..|events|] == events;
  }

  lemma {:induction false} InputsJoined(before: seq<OpEvent>, after: seq<OpEvent>)
    ensures InputsOf(before + after) == InputsOf(before) + InputsOf(after)
  {
    if after == [] {
      assert before + after == before;
    } else {
      hide InputsOf;
      var front, last := after[..|after| - 1], after[|after| - 1];
      InputsJoined(before, front);
      InputsStep(before + front, last);
      InputsStep(front, last);
      assert front + [last] == after && before + front + [last] == before + after;
    }
  }

  lemma {:induction false} OutputsJoined(before: seq<OpEvent>, after: seq<OpEvent>)
    ensures OutputsOf(before + after) == OutputsOf(before) + OutputsOf(after)
  {
    if after == [] {
      assert before + after == before;
    } else {
      hide OutputsOf;
      var front, last := after[..|after| - 1], after[|after| - 1];
      OutputsJoined(before, front);
      OutputsStep(before + front, last);
      OutputsStep(front, last);
      assert front + [last] == after && before + front + [last] == before + after;
    }
  }

  /** Each call gives one input or one output, in its place among those of the calls before and after it. */
  lemma EventsInOrder(before: seq<OpEvent>, e: OpEvent, after: seq<OpEvent>)
    ensures InputsOf(before + [e] + after) == InputsOf(before) + (if e.Input? then [e.index] else []) + InputsOf(after)
    ensures OutputsOf(before + [e] + after)
      == OutputsOf(before) + (if e.Output? then [e.tensor] else []) + OutputsOf(after)
  {
    hide InputsOf, OutputsOf;
    InputsJoined(before + [e], after);
    OutputsJoined(before + [e], after);
    InputsStep(before, e);
    OutputsStep(before, e);
  }

  /** The tensors that the picked inputs name. */
  function Picked(inputs: seq<int>, picks: seq<nat>): set<int>
    requires forall k :: 0 <= k < |picks| ==> picks[k] < |inputs|
  {
    set k | 0 <= k < |picks| :: inputs[picks[k]]
  }

  lemma PickNext(inputs: seq<int>, picks: seq<nat>, n: nat)
    requires n < |picks| && forall k :: 0 <= k < |picks| ==> picks[k] < |inputs|
    ensures Picked(inputs, picks[..n + 1]) == Picked(inputs, picks[..n]) + {inputs[picks[n]]}
  {
    assert picks[..n + 1] == picks[..n] + [picks[n]];
    forall x
      ensures x in Picked(inputs, picks[..n + 1]) <==> x in Picked(inputs, picks[..n]) || x == inputs[picks[n]]
    {
      if x in Picked(inputs, picks[..n]) {
        var k :| 0 <= k < n && x == inputs[picks[..n][k]];
        assert picks[..n + 1][k] == picks[k];
      }
      if x == inputs[picks[n]] {
        assert picks[..n + 1][n] == picks[n];
      }
    }
  }

  class GraphSignature {
    var nextTensorIndex: nat
    var numInputs: nat
    var hasOps: bool
    var corePinningMode: CorePinningMode
    var graphOutputIndices: seq<int>
    var donatedIndices: seq<int>
    var donatedIndicesSet: set<int>
    var tensorDimensionsStarts: seq<int>
    var tensorDimensions: seq<int>
    var tensorElementTypes: seq<string>
    var opInputsStarts: seq<int>
    var opInputsIndices: seq<int>
    var opNames: seq<string>
    var opParamCacheKeysStarts: seq<int>
    var opParamCacheKeys: seq<(string, Fp)>
    var opOutputsIndices: seq<int>

    /** The graph described so far. */
    ghost var graph: Graph

    ghost predicate TensorsAre(tensors: seq<Tensor>)
      reads this`nextTensorIndex, this`tensorDimensionsStarts, this`tensorDimensions, this`tensorElementTypes
    {
      && nextTensorIndex == |tensors|
      && tensorDimensionsStarts == Starts(DimRows(tensors)) && tensorDimensions == Concat(DimRows(tensors))
      && tensorElementTypes == Dtypes(tensors)
    }

    lemma TensorCount(tensors: seq<Tensor>)
      requires TensorsAre(tensors)
      ensures nextTensorIndex == |tensors|
    {
    }

    ghost predicate DonatedAre(donated: set<int>)
      reads this`donatedIndices, this`donatedIndicesSet
    {
      donatedIndicesSet == donated && Distinct(donatedIndices) && forall x :: x in donatedIndices <==> x in donated
    }

    lemma DonatedElements(donated: set<int>)
      requires DonatedAre(donated)
      ensures Distinct(donatedIndices) && Elements(donatedIndices) == donated
    {
      assert forall x :: x in donatedIndices <==> x in donated;
    }

    ghost predicate OpsAre(ops: seq<Op>)
      reads this`opInputsStarts, this`opInputsIndices, this`opNames, this`opParamCacheKeysStarts, this`opParamCacheKeys
    {
      && opInputsStarts == Starts(InputRows(ops)) && opInputsIndices == Concat(InputRows(ops))
      && opNames == OpNames(ops)
      && opParamCacheKeysStarts == Starts(ParamRows(ops)) && opParamCacheKeys == Concat(ParamRows(ops))
    }

    ghost predicate Valid()
      reads this
    {
      && TensorsAre(Tensors(graph)) && DonatedAre(graph.donated)
      && numInputs == |graph.inputs| && (hasOps <==> graph.ops != [])
      && corePinningMode == graph.pinning && graphOutputIndices == graph.outputs
      && OpsAre(graph.ops) && opOutputsIndices == Starts(TensorRows(graph))[1..]
    }

    constructor ()
      ensures Valid() && graph == Graph([], [], [], {}, Unpinned)
    {
      nextTensorIndex, numInputs, hasOps, corePinningMode := 0, 0, false, Unpinned;
      graphOutputIndices, donatedIndices, donatedIndicesSet := [], [], {};
      tensorDimensionsStarts, tensorDimensions, tensorElementTypes := [0], [], [];
      opInputsStarts, opInputsIndices, opNames := [0], [], [];
      opParamCacheKeysStarts, opParamCacheKeys, opOutputsIndices := [0], [], [0];
      graph := Graph([], [], [], {}, Unpinned);
      new;
      OnlyInputs(graph);
    }

    method AddTensor(t: Tensor, ghost tensors: seq<Tensor>) returns (index: nat)
      requires TensorsAre(tensors)
      modifies this`nextTensorIndex, this`tensorDimensions, this`tensorDimensionsStarts, this`tensorElementTypes
      ensures TensorsAre(tensors + [t]) && index == |tensors|
    {
      index := nextTensorIndex;
      nextTensorIndex := nextTensorIndex + 1;
      for i := 0 to |t.dims|
        invariant tensorDimensions == old(tensorDimensions) + t.dims[..i]
        invariant nextTensorIndex == |tensors| + 1
        invariant tensorDimensionsStarts == old(tensorDimensionsStarts) && tensorElementTypes == old(tensorElementTypes)
      {
        tensorDimensions := tensorDimensions + [t.dims[i]];
      }
      assert t.dims[..|t.dims|] == t.dims;
      tensorDimensionsStarts := tensorDimensionsStarts + [|tensorDimensions|];
      tensorElementTypes := tensorElementTypes + [t.dtype];
      AppendRow(DimRows(tensors), t.dims);
      assert DimRows(tensors + [t]) == DimRows(tensors) + [t.dims];
    }

    /** Adds an input tensor; all inputs come before the first op. */
    method AddInput(t: Tensor) returns (index: nat)
      requires Valid() && !hasOps
      modifies this
      ensures Valid() && graph == old(graph).(inputs := old(graph).inputs + [t])
      ensures index == |old(graph).inputs|
    {
      OnlyInputs(graph);
      OnlyInputs(graph.(inputs := graph.inputs + [t]));
      index := AddTensor(t, Tensors(graph));
      numInputs := numInputs + 1;
      opOutputsIndices := opOutputsIndices[0 := nextTensorIndex];
      graph := graph.(inputs := graph.inputs + [t]);
    }

    method PushParams(params: seq<(string, Fp)>)
      modifies this`opParamCacheKeys, this`opParamCacheKeysStarts
      ensures opParamCacheKeys == old(opParamCacheKeys) + params
      ensures opParamCacheKeysStarts == old(opParamCacheKeysStarts) + [|opParamCacheKeys|]
    {
      for i := 0 to |params|
        invariant opParamCacheKeys == old(opParamCacheKeys) + params[..i]
        invariant opParamCacheKeysStarts == old(opParamCacheKeysStarts)
      {
        opParamCacheKeys := opParamCacheKeys + [params[i]];
      }
      assert params[..|params|] == params;
      opParamCacheKeysStarts := opParamCacheKeysStarts + [|opParamCacheKeys|];
    }

    /** The op's own calls: each adds to the op's inputs or to the tensors. */
    method Stream(events: seq<OpEvent>, ghost tensors: seq<Tensor>)
      requires TensorsAre(tensors)
      modifies this`nextTensorIndex, this`tensorDimensions, this`tensorDimensionsStarts, this`tensorElementTypes,
               this`opInputsIndices, this`opInputsStarts
      ensures TensorsAre(tensors + OutputsOf(events))
      ensures opInputsIndices == old(opInputsIndices) + InputsOf(events)
      ensures opInputsStarts == old(opInputsStarts) + [|opInputsIndices|]
    {
      assert tensors + [] == tensors;
      for i := 0 to |events|
        invariant TensorsAre(tensors + OutputsOf(events[..i]))
        invariant opInputsIndices == old(opInputsIndices) + InputsOf(events[..i])
        invariant opInputsStarts == old(opInputsStarts)
      {
        assert events[..i + 1][..i] == events[..i];
        ghost var before := tensors + OutputsOf(events[..i]);
        match events[i]
        case Input(index) =>
          opInputsIndices := opInputsIndices + [index];
          assert tensors + OutputsOf(events[..i + 1]) == before;
        case Output(t) =>
          var index := AddTensor(t, before);
          assert tensors + OutputsOf(events[..i + 1]) == before + [t];
      }
      assert events[..|events|] == events;
      opInputsStarts := opInputsStarts + [|opInputsIndices|];
    }

    /** The op's name, its parameters, and its own calls. */
    method StreamOp(name: string, params: seq<(string, Fp)>, events: seq<OpEvent>, ghost ops: seq<Op>,
        ghost tensors: seq<Tensor>)
      requires OpsAre(ops) && TensorsAre(tensors)
      modifies this`opNames, this`opParamCacheKeys, this`opParamCacheKeysStarts, this`opInputsIndices,
        this`opInputsStarts,
               this`nextTensorIndex, this`tensorDimensions, this`tensorDimensionsStarts, this`tensorElementTypes
      ensures OpsAre(ops + [Op(name, params, InputsOf(events), OutputsOf(events))])
      ensures TensorsAre(tensors + OutputsOf(events))
      ensures opInputsIndices == old(opInputsIndices) + InputsOf(events)
    {
      hide TensorsAre, Starts, Concat, InputsOf, OutputsOf;
      ghost var op := Op(name, params, InputsOf(events), OutputsOf(events));
      opNames := opNames + [name];
      PushParams(params);
      Stream(events, tensors);
      AppendRow(InputRows(ops), op.inputs);
      AppendRow(ParamRows(ops), op.params);
      assert InputRows(ops + [op]) == InputRows(ops) + [op.inputs];
      assert ParamRows(ops + [op]) == ParamRows(ops) + [op.params];
      assert OpNames(ops + [op]) == OpNames(ops) + [name];
    }

    /** Remembers which tensors the op donates, each once, in the order of their first donation. */
    method Donate(firstInput: nat, donatedInputs: seq<nat>, ghost donated: set<int>, ghost inputs: seq<int>)
      requires DonatedAre(donated)
      requires firstInput + |inputs| == |opInputsIndices| && opInputsIndices[firstInput..] == inputs
      requires forall k :: 0 <= k < |donatedInputs| ==> donatedInputs[k] < |inputs|
      modifies this`donatedIndices, this`donatedIndicesSet
      ensures DonatedAre(donated + Picked(inputs, donatedInputs))
    {
      for i := 0 to |donatedInputs|
        invariant DonatedAre(donated + Picked(inputs, donatedInputs[..i]))
      {
        var opInputIndex := opInputsIndices[firstInput + donatedInputs[i]];
        assert opInputIndex == inputs[donatedInputs[i]];
        if opInputIndex !in donatedIndicesSet {
          donatedIndicesSet := donatedIndicesSet + {opInputIndex};
          donatedIndices := donatedIndices + [opInputIndex];
        }
        assert Picked(inputs, donatedInputs[..i + 1]) == Picked(inputs, donatedInputs[..i]) + {opInputIndex} by {
          PickNext(inputs, donatedInputs, i);
        }
      }
      assert donatedInputs[..|donatedInputs|] == donatedInputs;
    }

    /** Streams an op: its parameters, its inputs and outputs in the order of the calls, and which of
        its inputs it donates. */
    method AddOp(name: string, params: seq<(string, Fp)>, donatedInputs: seq<nat>, events: seq<OpEvent>)
      returns (firstOutput: nat)
      requires Valid()
      requires forall k :: 0 <= k < |donatedInputs| ==> donatedInputs[k] < |InputsOf(events)|
      modifies this
      ensures Valid() && firstOutput == |Tensors(old(graph))|
      ensures graph == old(graph).(
        ops := old(graph).ops + [Op(name, params, InputsOf(events), OutputsOf(events))],
        donated := old(graph).donated + Picked(InputsOf(events), donatedInputs))
    {
      hide TensorsAre, DonatedAre, OpsAre, Tensors, TensorRows, Starts, Picked, InputsOf, OutputsOf;
      ghost var g, op := graph, Op(name, params, InputsOf(events), OutputsOf(events));
      AppendOp(g, op);
      DonatingKeepsTensors(g.(ops := g.ops + [op]), g.donated + Picked(op.inputs, donatedInputs));
      TensorCount(Tensors(g));
      hasOps := true;
      firstOutput := nextTensorIndex;
      var firstInput := |opInputsIndices|;
      StreamOp(name, params, events, g.ops, Tensors(g));
      TensorCount(Tensors(g) + op.outputs);
      Donate(firstInput, donatedInputs, g.donated, op.inputs);
      opOutputsIndices := opOutputsIndices + [nextTensorIndex];
      graph := g.(ops := g.ops + [op], donated := g.donated + Picked(op.inputs, donatedInputs));
    }

    method AddGraphOutput(index: int)
      requires Valid()
      modifies this`graphOutputIndices, this`graph
      ensures Valid() && graph == old(graph).(outputs := old(graph).outputs + [index])
    {
      graphOutputIndices := graphOutputIndices + [index];
      graph := graph.(outputs := graph.outputs + [index]);
    }

    method SetCorePinningMode(mode: CorePinningMode)
      requires Valid()
      modifies this`corePinningMode, this`graph
      ensures Valid() && graph == old(graph).(pinning := mode)
    {
      corePinningMode := mode;
      graph := graph.(pinning := mode);
    }

    /** The key depends on the described graph only. */
    method GetKey() returns (key: GraphKey)
      requires Valid()
      ensures key == Key(graph)
    {
      var sorted := Sort(Ascending, donatedIndices);
      SortSorts(Ascending, donatedIndices);
      DonatedElements(graph.donated);
      SortedUnique(Ascending, sorted, DonatedList(graph.donated));
      key := KeyOf(Flat(graphOutputIndices, tensorDimensionsStarts, tensorDimensions, tensorElementTypes, sorted,
                        opInputsStarts, opInputsIndices, opNames, opParamCacheKeysStarts, opParamCacheKeys,
                        opOutputsIndices, PinningNumber(corePinningMode)));
    }
  }

  lemma DonatingKeepsTensors(g: Graph, donated: set<int>)
    ensures Tensors(g.(donated := donated)) == Tensors(g) && TensorRows(g.(donated := donated)) == TensorRows(g)
  {
  }

  /** Appending an op to the graph appends its outputs to the tensors. */
  lemma AppendOp(g: Graph, op: Op)
    ensures var h := g.(ops := g.ops + [op]);
      && Tensors(h) == Tensors(g) + op.outputs
      && Starts(TensorRows(h))[1..] == Starts(TensorRows(g))[1..] + [|Tensors(h)|]
  {
    hide Starts, Concat;
    var h := g.(ops := g.ops + [op]);
    assert TensorRows(h) == TensorRows(g) + [op.outputs];
    AppendRow(TensorRows(g), op.outputs);
  }

  /** Before the first op all tensors are inputs. */
  lemma OnlyInputs(g: Graph)
    requires g.ops == []
    ensures Tensors(g) == g.inputs && Starts(TensorRows(g))[1..] == [|g.inputs|]
  {
    var rows := TensorRows(g);
    assert rows == [g.inputs];
    assert Join(rows, 1) == Join(rows, 0) + g.inputs;
    assert Prefix(Lengths(rows), 1) == Prefix(Lengths(rows), 0) + |g.inputs|;
  }
}
