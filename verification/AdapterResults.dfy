/** What the results of the adapter graphs are, tensor by tensor. */
module AdapterResults {
  import opened Prelude
  import opened GraphSignatures
  import opened AdapterKeys
  import Dynamism

  /** The tensors that the graph returns. */
  ghost function Results(g: Graph): seq<Tensor>
    requires forall k :: 0 <= k < |g.outputs| ==> 0 <= g.outputs[k] < |Tensors(g)|
  {
    seq(|g.outputs|, k requires 0 <= k < |g.outputs| => Tensors(g)[g.outputs[k]])
  }

  ghost predicate OneOutputEach(ops: seq<Op>) {
    forall k :: 0 <= k < |ops| ==> |ops[k].outputs| == 1
  }

  /** If every op has one output, the k-th op's output is the k-th tensor after the inputs. */
  lemma {:induction false} TensorsOfUnary(g: Graph)
    requires OneOutputEach(g.ops)
    ensures |Tensors(g)| == |g.inputs| + |g.ops|
    ensures forall i :: 0 <= i < |g.inputs| ==> Tensors(g)[i] == g.inputs[i]
    ensures forall k :: 0 <= k < |g.ops| ==> Tensors(g)[|g.inputs| + k] == g.ops[k].outputs[0]
    decreases |g.ops|
  {
    hide Tensors, TensorRows;
    if g.ops == [] {
      OnlyInputs(g);
    } else {
      var front, last := g.(ops := g.ops[..|g.ops| - 1]), g.ops[|g.ops| - 1];
      TensorsOfUnary(front);
      AppendOp(front, last);
      assert g == front.(ops := front.ops + [last]);
    }
  }

  // ---------- Slicing ----------

  lemma {:induction false} SliceCounts(targets: seq<seq<int>>, padded: seq<seq<int>>, dtypes: seq<string>, n: nat)
    requires Ranked(targets, padded, dtypes) && n <= |targets|
    ensures |SliceOutputs(targets, padded, dtypes, n)| == n && OneOutputEach(SliceOps(targets, padded, dtypes, n))
  {
    hide NeedsSlicing;
    if n == 0 {
    } else {
      SliceCounts(targets, padded, dtypes, n - 1);
    }
  }

  lemma {:induction false} SliceOutputAt(targets: seq<seq<int>>, padded: seq<seq<int>>, dtypes: seq<string>, n: nat,
                                         i: nat)
    requires Ranked(targets, padded, dtypes) && i < n <= |targets|
    ensures |SliceOutputs(targets, padded, dtypes, n)| == n
    ensures var k := |SliceOps(targets, padded, dtypes, i)|;
      if NeedsSlicing(targets[i], padded[i]) then
        && SliceOutputs(targets, padded, dtypes, n)[i] == |targets| + k
        && k < |SliceOps(targets, padded, dtypes, n)|
        && SliceOps(targets, padded, dtypes, n)[k].outputs == [Tensor(targets[i], dtypes[i])]
      else SliceOutputs(targets, padded, dtypes, n)[i] == i
  {
    hide NeedsSlicing, OneOutputEach;
    SliceCounts(targets, padded, dtypes, n);
    SliceCounts(targets, padded, dtypes, n - 1);
    if i == n - 1 {
    } else {
      SliceOutputAt(targets, padded, dtypes, n - 1, i);
    }
  }

  lemma NotSliced(target: seq<int>, padded: seq<int>)
    requires |target| == |padded| && !NeedsSlicing(target, padded)
    ensures target == padded
  {
  }

  /** The graph of a slice module returns one tensor for each that it is given, with the target's sizes and
      the element type it had. */
  lemma SliceResults(targets: seq<seq<int>>, padded: seq<seq<int>>, dtypes: seq<string>, i: nat)
    requires |targets| == |padded| == |dtypes| && i < |targets|
    requires forall k :: 0 <= k < |targets| ==> |targets[k]| == |padded[k]|
    ensures var g := SliceGraph(targets, padded, dtypes);
      && g.inputs == PaddedTensors(padded, dtypes)
      && |g.outputs| == |targets| && 0 <= g.outputs[i] < |Tensors(g)|
      && Tensors(g)[g.outputs[i]] == Tensor(targets[i], dtypes[i])
  {
    hide Tensors, SliceOps, SliceOutputs, NeedsSlicing;
    SliceOutputAt(targets, padded, dtypes, |targets|, i);
    SliceCounts(targets, padded, dtypes, |targets|);
    TensorsOfUnary(SliceGraph(targets, padded, dtypes));
    if !NeedsSlicing(targets[i], padded[i]) {
      NotSliced(targets[i], padded[i]);
    }
  }

  // ---------- Padding ----------

  /** What a tensor becomes: itself without annotations; otherwise a tensor with all its upper bounds and, in
      full mode, one 32-bit number for each annotation. */
  ghost predicate IsPadded(row: seq<Tensor>, shape: Shape, padOnly: bool) {
    if shape.dynamic == [] then row == [Tensor(shape.dims, shape.dtype)]
    else
      && |row| == (if padOnly then 1 else 1 + |shape.dynamic|)
      && row[0].dtype == shape.dtype && |row[0].dims| == |shape.dims|
      && (forall d :: 0 <= d < |shape.dims| ==> row[0].dims[d] == Dynamism.TensorBounds(shape)[d].upper)
      && forall k :: 1 <= k < |row| ==> row[k] == Tensor([1], "i32")
  }

  lemma OpsMakePadded(shape: Shape, i: nat, padOnly: bool)
    requires shape.dynamic != []
    ensures OneOutputEach(OpsOf(shape, i, padOnly)) && IsPadded(OutputsOfOps(OpsOf(shape, i, padOnly)), shape, padOnly)
  {
  }

  ghost function OutputsOfOps(ops: seq<Op>): seq<Tensor>
    requires OneOutputEach(ops)
  {
    seq(|ops|, k requires 0 <= k < |ops| => ops[k].outputs[0])
  }

  ghost predicate ArePadded(rows: seq<seq<Tensor>>, shapes: seq<Shape>, padOnly: bool) {
    |rows| <= |shapes| && forall i :: 0 <= i < |rows| ==> IsPadded(rows[i], shapes[i], padOnly)
  }

  /** The numbers of the outputs are in range, and lead to the joined rows. */
  ghost predicate LeadTo(outputs: seq<int>, inputs: seq<Tensor>, made: seq<Tensor>, tensors: seq<Tensor>) {
    && |outputs| == |tensors|
    && forall k :: 0 <= k < |outputs| ==>
         && 0 <= outputs[k] < |inputs| + |made|
         && tensors[k] == (inputs + made)[outputs[k]]
  }

  lemma LeadFurther(outputs: seq<int>, inputs: seq<Tensor>, made: seq<Tensor>, tensors: seq<Tensor>, more: seq<Tensor>)
    requires LeadTo(outputs, inputs, made, tensors)
    ensures LeadTo(outputs, inputs, made + more, tensors)
  {
    assert inputs + (made + more) == (inputs + made) + more;
  }

  lemma LeadToInput(outputs: seq<int>, inputs: seq<Tensor>, made: seq<Tensor>, tensors: seq<Tensor>, i: nat)
    requires LeadTo(outputs, inputs, made, tensors) && i < |inputs|
    ensures LeadTo(outputs + [i], inputs, made, tensors + [inputs[i]])
  {
  }

  lemma LeadToNew(outputs: seq<int>, inputs: seq<Tensor>, made: seq<Tensor>, tensors: seq<Tensor>, more: seq<Tensor>)
    requires LeadTo(outputs, inputs, made, tensors)
    ensures LeadTo(outputs + Consecutive(|inputs| + |made|, |more|), inputs, made + more, tensors + more)
  {
    LeadFurther(outputs, inputs, made, tensors, more);
    forall k | 0 <= k < |more|
      ensures (inputs + (made + more))[|inputs| + |made| + k] == more[k]
    {
    }
  }

  ghost predicate Leads(shapes: seq<Shape>, n: nat, padOnly: bool, rows: seq<seq<Tensor>>) {
    && n <= |shapes| && OneOutputEach(PadOps(shapes, n, padOnly))
    && LeadTo(PadOutputs(shapes, n, padOnly), InputTensors(shapes), OutputsOfOps(PadOps(shapes, n, padOnly)),
      Concat(rows))
  }

  lemma LeadsStatic(shapes: seq<Shape>, n: nat, padOnly: bool, rows: seq<seq<Tensor>>)
    requires n < |shapes| && Leads(shapes, n, padOnly, rows) && shapes[n].dynamic == []
    ensures Leads(shapes, n + 1, padOnly, rows + [[InputTensors(shapes)[n]]])
  {
    hide LeadTo, OpsOf;
    var ops := PadOps(shapes, n, padOnly);
    NoOps(shapes[n], n, padOnly);
    assert ops + [] == ops;
    LeadToInput(PadOutputs(shapes, n, padOnly), InputTensors(shapes), OutputsOfOps(ops), Concat(rows), n);
    ConcatOfMore(rows, [InputTensors(shapes)[n]]);
  }

  lemma LeadsDynamic(shapes: seq<Shape>, n: nat, padOnly: bool, rows: seq<seq<Tensor>>)
    requires n < |shapes| && Leads(shapes, n, padOnly, rows) && shapes[n].dynamic != []
    requires OneOutputEach(OpsOf(shapes[n], n, padOnly))
    ensures Leads(shapes, n + 1, padOnly, rows + [OutputsOfOps(OpsOf(shapes[n], n, padOnly))])
  {
    hide LeadTo, OpsOf;
    var ops, more := PadOps(shapes, n, padOnly), OpsOf(shapes[n], n, padOnly);
    assert PadOps(shapes, n + 1, padOnly) == ops + more;
    assert OutputsOfOps(ops + more) == OutputsOfOps(ops) + OutputsOfOps(more);
    LeadToNew(PadOutputs(shapes, n, padOnly), InputTensors(shapes), OutputsOfOps(ops), Concat(rows),
      OutputsOfOps(more));
    ConcatOfMore(rows, OutputsOfOps(more));
  }

  lemma {:induction false} PadOutputsLead(shapes: seq<Shape>, n: nat, padOnly: bool) returns (rows: seq<seq<Tensor>>)
    requires n <= |shapes|
    ensures |rows| == n && ArePadded(rows, shapes, padOnly) && Leads(shapes, n, padOnly, rows)
  {
    hide IsPadded, Leads, OpsOf;
    if n == 0 {
      rows := [];
      LeadsNowhere(shapes, padOnly);
    } else {
      rows := PadOutputsLead(shapes, n - 1, padOnly);
      var shape := shapes[n - 1];
      if shape.dynamic == [] {
        NoOps(shape, n - 1, padOnly);
        LeadsStatic(shapes, n - 1, padOnly, rows);
        rows := rows + [[InputTensors(shapes)[n - 1]]];
      } else {
        OpsMakePadded(shape, n - 1, padOnly);
        LeadsDynamic(shapes, n - 1, padOnly, rows);
        rows := rows + [OutputsOfOps(OpsOf(shape, n - 1, padOnly))];
      }
    }
  }

  lemma NoOps(shape: Shape, i: nat, padOnly: bool)
    requires shape.dynamic == []
    ensures OpsOf(shape, i, padOnly) == [] && IsPadded([Tensor(shape.dims, shape.dtype)], shape, padOnly)
  {
  }

  lemma LeadsNowhere(shapes: seq<Shape>, padOnly: bool)
    ensures Leads(shapes, 0, padOnly, [])
  {
  }

  /** The graph of a pad module returns, for each of its inputs in order, what that tensor becomes. */
  lemma PadResults(shapes: seq<Shape>, padOnly: bool) returns (rows: seq<seq<Tensor>>)
    ensures |rows| == |shapes| && forall i :: 0 <= i < |shapes| ==> IsPadded(rows[i], shapes[i], padOnly)
    ensures var g := PadGraph(shapes, padOnly);
      && |g.inputs| == |shapes|
      && (forall i :: 0 <= i < |shapes| ==> g.inputs[i] == Tensor(shapes[i].dims, shapes[i].dtype))
      && (forall k :: 0 <= k < |g.outputs| ==> 0 <= g.outputs[k] < |Tensors(g)|)
      && Results(g) == Concat(rows)
  {
    hide Tensors, PadOps, PadOutputs, IsPadded;
    rows := PadOutputsLead(shapes, |shapes|, padOnly);
    var g := PadGraph(shapes, padOnly);
    TensorsOfUnary(g);
    assert Tensors(g) == g.inputs + OutputsOfOps(g.ops);
  }
}
