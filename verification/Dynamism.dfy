/** Bounded dynamic shapes: the flat list of bounds kept with a compiled graph, which static shapes it
    accepts, and how it is split back over the tensors of a request. */
module Dynamism {
  import opened Prelude

  datatype DimensionBounds = DimensionBounds(lower: int, upper: int)

  /** An annotation: dimension `dimension` may have any size from `lower` to `upper`. */
  datatype DynamicDim = DynamicDim(dimension: nat, lower: int, upper: int)

  datatype Shape = Shape(dims: seq<int>, dtype: string, dynamic: seq<DynamicDim>)

  /** The bounds of all input and of all output tensors, each as one flat list. */
  datatype Metadata = Metadata(inputs: seq<DimensionBounds>, outputs: seq<DimensionBounds>)

  /** Annotations name dimensions that exist. */
  ghost predicate InRange(shape: Shape) {
    forall k :: 0 <= k < |shape.dynamic| ==> shape.dynamic[k].dimension < |shape.dims|
  }

  ghost predicate AllInRange(shapes: seq<Shape>) {
    forall i :: 0 <= i < |shapes| ==> InRange(shapes[i])
  }

  // ---------- From shapes to bounds ----------

  /** The bounds of dimension `d`: those of its last annotation among the first `n`, or its own size. */
  function BoundsOf(shape: Shape, n: nat, d: nat): DimensionBounds
    requires n <= |shape.dynamic| && d < |shape.dims|
  {
    if n == 0 then DimensionBounds(shape.dims[d], shape.dims[d])
    else if shape.dynamic[n - 1].dimension == d then
      DimensionBounds(shape.dynamic[n - 1].lower, shape.dynamic[n - 1].upper)
    else BoundsOf(shape, n - 1, d)
  }

  function TensorBounds(shape: Shape): seq<DimensionBounds> {
    seq(|shape.dims|, d requires 0 <= d < |shape.dims| => BoundsOf(shape, |shape.dynamic|, d))
  }

  function BoundRows(shapes: seq<Shape>): seq<seq<DimensionBounds>> {
    seq(|shapes|, i requires 0 <= i < |shapes| => TensorBounds(shapes[i]))
  }

  /** The bounds of all dimensions of all tensors in order. */
  function AllBounds(shapes: seq<Shape>): seq<DimensionBounds> {
    Concat(BoundRows(shapes))
  }

  /** The bounds of one tensor after its first `n` annotations, behind those of earlier tensors. */
  ghost predicate Annotated(bounds: seq<DimensionBounds>, before: seq<DimensionBounds>, shape: Shape, n: nat)
    requires n <= |shape.dynamic|
  {
    && |bounds| == |before| + |shape.dims| && bounds[..|before|] == before
    && forall d :: 0 <= d < |shape.dims| ==> bounds[|before| + d] == BoundsOf(shape, n, d)
  }

  method DimensionBoundsOf(shapes: seq<Shape>) returns (bounds: seq<DimensionBounds>)
    requires AllInRange(shapes)
    ensures bounds == AllBounds(shapes)
  {
    bounds := [];
    for i := 0 to |shapes|
      invariant bounds == Join(BoundRows(shapes), i)
    {
      var shape, tensorStartDim := shapes[i], |bounds|;
      ghost var before := bounds;
      for d := 0 to |shape.dims|
        invariant |bounds| == tensorStartDim + d && bounds[..tensorStartDim] == before
        invariant forall e :: 0 <= e < d ==> bounds[tensorStartDim + e] == BoundsOf(shape, 0, e)
      {
        bounds := bounds + [DimensionBounds(shape.dims[d], shape.dims[d])];
      }
      for k := 0 to |shape.dynamic|
        invariant Annotated(bounds, before, shape, k)
      {
        var annotation := shape.dynamic[k];
        bounds := bounds[tensorStartDim + annotation.dimension := DimensionBounds(annotation.lower, annotation.upper)];
      }
      assert bounds == before + TensorBounds(shape);
    }
  }

  // ---------- Which static shapes fit ----------

  function SizeRows(shapes: seq<Shape>): seq<seq<int>> {
    seq(|shapes|, i requires 0 <= i < |shapes| => shapes[i].dims)
  }

  /** The sizes of all tensors as one flat list. */
  function FlatDims(shapes: seq<Shape>): seq<int> {
    Concat(SizeRows(shapes))
  }

  predicate Within(dims: seq<int>, bounds: seq<DimensionBounds>)
    requires |dims| == |bounds|
  {
    forall d :: 0 <= d < |dims| ==> bounds[d].lower <= dims[d] <= bounds[d].upper
  }

  /** As many sizes as bounds, and every size within its bounds. */
  predicate Compatible(bounds: seq<DimensionBounds>, shapes: seq<Shape>) {
    |FlatDims(shapes)| == |bounds| && Within(FlatDims(shapes), bounds)
  }

  method IsShapeCompatibleWithBounds(shape: Shape, bounds: seq<DimensionBounds>) returns (compatible: bool)
    requires |shape.dims| == |bounds|
    ensures compatible <==> Within(shape.dims, bounds)
  {
    for d := 0 to |shape.dims|
      invariant forall e :: 0 <= e < d ==> bounds[e].lower <= shape.dims[e] <= bounds[e].upper
    {
      if shape.dims[d] < bounds[d].lower || shape.dims[d] > bounds[d].upper {
        return false;
      }
    }
    return true;
  }

  lemma JoinStep(shapes: seq<Shape>, i: nat)
    requires i < |shapes|
    ensures var before, next := Join(SizeRows(shapes), i), Join(SizeRows(shapes), i + 1);
      && next == before + shapes[i].dims && next <= FlatDims(shapes)
      && FlatDims(shapes)[|before|..|next|] == shapes[i].dims
  {
    JoinIsPrefix(SizeRows(shapes), i + 1, |shapes|);
    var before, next := Join(SizeRows(shapes), i), Join(SizeRows(shapes), i + 1);
    assert FlatDims(shapes)[..|next|] == before + shapes[i].dims;
    assert FlatDims(shapes)[|before|..|next|] == FlatDims(shapes)[..|next|][|before|..];
  }

  method IsStaticShapeCompatible(bounds: seq<DimensionBounds>, shapes: seq<Shape>) returns (compatible: bool)
    ensures compatible <==> Compatible(bounds, shapes)
  {
    var flattenedSize := 0;
    for i := 0 to |shapes|
      invariant flattenedSize == |Join(SizeRows(shapes), i)|
    {
      flattenedSize := flattenedSize + |shapes[i].dims|;
    }
    if flattenedSize != |bounds| {
      return false;
    }
    var index := 0;
    ghost var flat := FlatDims(shapes);
    for i := 0 to |shapes|
      invariant index == |Join(SizeRows(shapes), i)| <= |flat|
      invariant Join(SizeRows(shapes), i) <= flat
      invariant Within(flat[..index], bounds[..index])
    {
      var spanSize := |shapes[i].dims|;
      JoinStep(shapes, i);
      assert shapes[i].dims == flat[index..index + spanSize];
      var fits := IsShapeCompatibleWithBounds(shapes[i], bounds[index..index + spanSize]);
      WithinSplit(flat[..index + spanSize], bounds[..index + spanSize], index);
      assert flat[..index + spanSize][..index] == flat[..index] &&
        bounds[..index + spanSize][..index] == bounds[..index];
      if !fits {
        WithinSplit(flat, bounds, index + spanSize);
        return false;
      }
      index := index + spanSize;
    }
    assert flat[..index] == flat && bounds[..index] == bounds;
    return true;
  }

  lemma WithinSplit(dims: seq<int>, bounds: seq<DimensionBounds>, cut: nat)
    requires |dims| == |bounds| && cut <= |dims|
    ensures Within(dims, bounds) <==> Within(dims[..cut], bounds[..cut]) && Within(dims[cut..], bounds[cut..])
  {
    if Within(dims[..cut], bounds[..cut]) && Within(dims[cut..], bounds[cut..]) {
      forall d | 0 <= d < |dims|
        ensures bounds[d].lower <= dims[d] <= bounds[d].upper
      {
        if d < cut {
          assert dims[..cut][d] == dims[d] && bounds[..cut][d] == bounds[d];
        } else {
          assert dims[cut..][d - cut] == dims[d] && bounds[cut..][d - cut] == bounds[d];
        }
      }
    }
  }

  // ---------- From bounds back to shapes ----------

  function Uppers(bounds: seq<DimensionBounds>): seq<int> {
    seq(|bounds|, d requires 0 <= d < |bounds| => bounds[d].upper)
  }

  function Lowers(bounds: seq<DimensionBounds>): seq<int> {
    seq(|bounds|, d requires 0 <= d < |bounds| => bounds[d].lower)
  }

  /** One annotation for each dimension among the first `n` whose bounds differ, in order. */
  function Annotations(bounds: seq<DimensionBounds>, n: nat): seq<DynamicDim>
    requires n <= |bounds|
  {
    if n == 0 then []
    else Annotations(bounds, n - 1) +
         if bounds[n - 1].lower != bounds[n - 1].upper then
           [DynamicDim(n - 1, bounds[n - 1].lower, bounds[n - 1].upper)]
         else []
  }

  function Runtime(shape: Shape): Shape {
    Shape(shape.dims, shape.dtype, [])
  }

  function Padded(shape: Shape, bounds: seq<DimensionBounds>): Shape {
    Shape(Uppers(bounds), shape.dtype, [])
  }

  function Marked(shape: Shape, bounds: seq<DimensionBounds>): Shape {
    Shape(shape.dims, shape.dtype, Annotations(bounds, |bounds|))
  }

  /** The bounds split into one row for each tensor, the last row ending where the last tensor does. */
  ghost predicate SplitOver(rows: seq<seq<DimensionBounds>>, bounds: seq<DimensionBounds>, shapes: seq<Shape>) {
    && |rows| == |shapes| && Concat(rows) <= bounds
    && forall i :: 0 <= i < |shapes| ==> |rows[i]| == |shapes[i].dims|
  }

  ghost predicate Resolved(rows: seq<seq<DimensionBounds>>, shapes: seq<Shape>, runtime: seq<Shape>,
      padded: seq<Shape>, marked: seq<Shape>)
    requires |rows| == |shapes|
  {
    && |runtime| == |padded| == |marked| == |shapes|
    && forall i :: 0 <= i < |shapes| ==>
         runtime[i] == Runtime(shapes[i]) && padded[i] == Padded(shapes[i], rows[i]) &&
           marked[i] == Marked(shapes[i], rows[i])
  }

  /** The three shapes of a tensor have its element type; at run time and marked it has its own sizes, and
      padded it has the upper bounds; only the marked one is annotated. */
  lemma ResolvedKeeps(rows: seq<seq<DimensionBounds>>, shapes: seq<Shape>, runtime: seq<Shape>, padded: seq<Shape>,
                      marked: seq<Shape>, i: nat)
    requires |rows| == |shapes| && Resolved(rows, shapes, runtime, padded, marked) && i < |shapes|
    ensures runtime[i].dtype == padded[i].dtype == marked[i].dtype == shapes[i].dtype
    ensures runtime[i].dims == marked[i].dims == shapes[i].dims && runtime[i].dynamic == padded[i].dynamic == []
    ensures |padded[i].dims| == |rows[i]| && forall d :: 0 <= d < |rows[i]| ==> padded[i].dims[d] == rows[i][d].upper
  {
  }

  method GetUpperBounds(bounds: seq<DimensionBounds>) returns (dims: seq<int>)
    ensures dims == Uppers(bounds)
  {
    dims := [];
    for d := 0 to |bounds|
      invariant dims == Uppers(bounds[..d])
    {
      dims := dims + [bounds[d].upper];
    }
    assert bounds[..|bounds|] == bounds;
  }

  /** Takes the bounds off the front of the flat list, tensor by tensor. */
  method ResolvePaddingShapes(bounds: seq<DimensionBounds>, shapes: seq<Shape>)
    returns (runtime: seq<Shape>, padded: seq<Shape>, marked: seq<Shape>, ghost rows: seq<seq<DimensionBounds>>)
    requires |FlatDims(shapes)| <= |bounds|
    ensures SplitOver(rows, bounds, shapes)
    ensures Resolved(rows, shapes, runtime, padded, marked)
  {
    hide Runtime, Padded, Marked, SplitOver, Resolved;
    ResolvedNone(bounds);
    runtime, padded, marked, rows := [], [], [], [];
    var rest := bounds;
    for i := 0 to |shapes|
      invariant |rows| == i && SplitOver(rows, bounds, shapes[..i]) && |Concat(rows)| == |Join(SizeRows(shapes), i)|
      invariant Concat(rows) + rest == bounds
      invariant Resolved(rows, shapes[..i], runtime, padded, marked)
    {
      var shape := shapes[i];
      JoinStep(shapes, i);
      var row := rest[..|shape.dims|];
      rest := rest[|shape.dims|..];
      var paddedShape, markedShape := PadAndMark(shape, row);
      ResolvedNext(rows, shapes[..i], runtime, padded, marked, row, shape);
      ConcatOfMore(rows, row);
      SplitNext(rows, bounds, shapes[..i], row, shape);
      assert shapes[..i + 1] == shapes[..i] + [shape];
      rows := rows + [row];
      runtime := runtime + [Runtime(shape)];
      padded := padded + [paddedShape];
      marked := marked + [markedShape];
    }
    assert shapes[..|shapes|] == shapes;
  }

  method PadAndMark(shape: Shape, bounds: seq<DimensionBounds>) returns (padded: Shape, marked: Shape)
    ensures padded == Padded(shape, bounds) && marked == Marked(shape, bounds)
  {
    var dynamic := [];
    for j := 0 to |bounds|
      invariant dynamic == Annotations(bounds, j)
    {
      if bounds[j].lower != bounds[j].upper {
        dynamic := dynamic + [DynamicDim(j, bounds[j].lower, bounds[j].upper)];
      }
    }
    var uppers := GetUpperBounds(bounds);
    padded := Shape(uppers, shape.dtype, []);
    marked := Shape(shape.dims, shape.dtype, dynamic);
  }

  lemma SplitNext(rows: seq<seq<DimensionBounds>>, bounds: seq<DimensionBounds>, shapes: seq<Shape>,
                  row: seq<DimensionBounds>, shape: Shape)
    requires SplitOver(rows, bounds, shapes) && |row| == |shape.dims| && Concat(rows) + row <= bounds
    ensures SplitOver(rows + [row], bounds, shapes + [shape])
  {
    ConcatOfMore(rows, row);
  }

  lemma ResolvedNone(bounds: seq<DimensionBounds>)
    ensures SplitOver([], bounds, []) && Resolved([], [], [], [], [])
  {
  }

  lemma ResolvedNext(rows: seq<seq<DimensionBounds>>, shapes: seq<Shape>, runtime: seq<Shape>, padded: seq<Shape>,
      marked: seq<Shape>,
                     row: seq<DimensionBounds>, shape: Shape)
    requires |rows| == |shapes| && Resolved(rows, shapes, runtime, padded, marked)
    ensures Resolved(rows + [row], shapes + [shape],
                     runtime + [Runtime(shape)], padded + [Padded(shape, row)], marked + [Marked(shape, row)])
  {
  }

  // ---------- What the resolved shapes say ----------

  lemma SameLengths(rows: seq<seq<DimensionBounds>>, bounds: seq<DimensionBounds>, shapes: seq<Shape>)
    requires SplitOver(rows, bounds, shapes)
    ensures Lengths(rows) == Lengths(SizeRows(shapes)) && |Concat(rows)| == |FlatDims(shapes)|
  {
    assert Lengths(rows) == Lengths(SizeRows(shapes));
    JoinLength(rows, |rows|);
    JoinLength(SizeRows(shapes), |shapes|);
  }

  /** For compatible shapes no bound is lost, and every tensor's sizes lie within its own row. */
  lemma CompatibleRows(rows: seq<seq<DimensionBounds>>, bounds: seq<DimensionBounds>, shapes: seq<Shape>, i: nat)
    requires SplitOver(rows, bounds, shapes) && Compatible(bounds, shapes) && i < |shapes|
    ensures Concat(rows) == bounds && Within(shapes[i].dims, rows[i])
  {
    SameLengths(rows, bounds, shapes);
    ConcatSlice(rows, i);
    ConcatSlice(SizeRows(shapes), i);
    var start := Prefix(Lengths(rows), i);
    forall d | 0 <= d < |rows[i]|
      ensures rows[i][d] == bounds[start + d] && shapes[i].dims[d] == FlatDims(shapes)[start + d]
    {
    }
  }

  /** A request is compatible with bounds if and only if there are as many as it has sizes, and each size
      lies between the lower and the upper bound at its place. */
  lemma CompatibleIff(rows: seq<seq<DimensionBounds>>, shapes: seq<Shape>)
    requires |rows| == |shapes| && forall i :: 0 <= i < |shapes| ==> |rows[i]| == |shapes[i].dims|
    ensures Compatible(Concat(rows), shapes) <==>
      forall i, d :: 0 <= i < |shapes| && 0 <= d < |shapes[i].dims| ==>
        rows[i][d].lower <= shapes[i].dims[d] <= rows[i][d].upper
  {
    SameLengths(rows, Concat(rows), shapes);
    if Compatible(Concat(rows), shapes) {
      forall i, d | 0 <= i < |shapes| && 0 <= d < |shapes[i].dims|
        ensures rows[i][d].lower <= shapes[i].dims[d] <= rows[i][d].upper
      {
        CompatibleRows(rows, Concat(rows), shapes, i);
      }
    }
    if forall i, d :: 0 <= i < |shapes| && 0 <= d < |shapes[i].dims| ==>
      rows[i][d].lower <= shapes[i].dims[d] <= rows[i][d].upper {
      JoinedWithin(rows, shapes, |shapes|);
    }
  }

  lemma {:induction false} JoinedWithin(rows: seq<seq<DimensionBounds>>, shapes: seq<Shape>, n: nat)
    requires n <= |rows| == |shapes| && forall i :: 0 <= i < |shapes| ==> |rows[i]| == |shapes[i].dims|
    requires forall i, d :: 0 <= i < |shapes| && 0 <= d < |shapes[i].dims| ==>
      rows[i][d].lower <= shapes[i].dims[d] <= rows[i][d].upper
    ensures |Join(SizeRows(shapes), n)| == |Join(rows, n)| && Within(Join(SizeRows(shapes), n), Join(rows, n))
  {
    if n == 0 {
    } else {
      JoinedWithin(rows, shapes, n - 1);
    }
  }

  /** Without annotations a tensor's bounds are its own sizes, and each further annotation gives its dimension
      its own bounds, whatever annotations of it there were before. */
  lemma AnnotationDecides(shape: Shape, annotation: DynamicDim)
    requires annotation.dimension < |shape.dims|
    ensures var plain := shape.(dynamic := []);
      && |TensorBounds(plain)| == |shape.dims|
      && forall d :: 0 <= d < |shape.dims| ==> TensorBounds(plain)[d] == DimensionBounds(shape.dims[d], shape.dims[d])
    ensures TensorBounds(shape.(dynamic := shape.dynamic + [annotation]))
      == TensorBounds(shape)[annotation.dimension := DimensionBounds(annotation.lower, annotation.upper)]
  {
    var more := shape.(dynamic := shape.dynamic + [annotation]);
    forall d | 0 <= d < |shape.dims|
      ensures BoundsOf(more, |shape.dynamic|, d) == BoundsOf(shape, |shape.dynamic|, d)
    {
      EarlierAnnotations(shape, more, |shape.dynamic|, d);
    }
  }

  lemma {:induction false} EarlierAnnotations(shape: Shape, more: Shape, n: nat, d: nat)
    requires n <= |shape.dynamic| && shape.dynamic <= more.dynamic && more.dims == shape.dims && d < |shape.dims|
    ensures BoundsOf(more, n, d) == BoundsOf(shape, n, d)
  {
    if n == 0 {
    } else {
      EarlierAnnotations(shape, more, n - 1, d);
    }
  }

  ghost predicate Names(annotation: DynamicDim, bounds: seq<DimensionBounds>, n: nat)
    requires n <= |bounds|
  {
    && annotation.dimension < n && annotation.lower != annotation.upper
    && bounds[annotation.dimension] == DimensionBounds(annotation.lower, annotation.upper)
  }

  ghost predicate InOrder(annotations: seq<DynamicDim>) {
    forall k, l :: 0 <= k < l < |annotations| ==> annotations[k].dimension < annotations[l].dimension
  }

  /** Exactly the dimensions whose bounds differ are marked, once each and in order. */
  lemma {:induction false} AnnotationsAreExact(bounds: seq<DimensionBounds>, n: nat)
    requires n <= |bounds|
    ensures InOrder(Annotations(bounds, n))
    ensures forall a :: a in Annotations(bounds, n) <==> Names(a, bounds, n)
  {
    if n == 0 {
    } else {
      var before, after := Annotations(bounds, n - 1), Annotations(bounds, n);
      AnnotationsAreExact(bounds, n - 1);
      forall a
        ensures a in after <==> Names(a, bounds, n)
      {
        assert a in before <==> Names(a, bounds, n - 1);
      }
      forall k | 0 <= k < |before|
        ensures before[k].dimension < n - 1
      {
        assert before[k] in before;
      }
    }
  }

  lemma {:induction false} AnnotatedBounds(shape: Shape, bounds: seq<DimensionBounds>, n: nat, d: nat)
    requires n <= |bounds| == |shape.dims| && d < |shape.dims| && shape.dynamic == Annotations(bounds, n)
    ensures BoundsOf(shape, |shape.dynamic|, d) ==
      if d < n && bounds[d].lower != bounds[d].upper then bounds[d] else DimensionBounds(shape.dims[d], shape.dims[d])
    decreases n
  {
    if n == 0 {
    } else {
      var before := shape.(dynamic := Annotations(bounds, n - 1));
      AnnotatedBounds(before, bounds, n - 1, d);
      BoundsOfPrefix(before, shape, |before.dynamic|, d);
    }
  }

  lemma {:induction false} BoundsOfPrefix(s: Shape, t: Shape, n: nat, d: nat)
    requires s.dims == t.dims && s.dynamic <= t.dynamic && n <= |s.dynamic| && d < |s.dims|
    ensures BoundsOf(s, n, d) == BoundsOf(t, n, d)
  {
    if n == 0 {
    } else {
      BoundsOfPrefix(s, t, n - 1, d);
    }
  }

  /** The sizes that are not dynamic agree with their bounds. */
  ghost predicate StaticAgree(dims: seq<int>, bounds: seq<DimensionBounds>)
    requires |dims| == |bounds|
  {
    forall d :: 0 <= d < |dims| && bounds[d].lower == bounds[d].upper ==> dims[d] == bounds[d].upper
  }

  /** A marked tensor describes its bounds again exactly when its sizes agree with the static ones. */
  lemma MarkedDescribesBounds(shape: Shape, bounds: seq<DimensionBounds>)
    requires |shape.dims| == |bounds|
    ensures InRange(Marked(shape, bounds))
    ensures TensorBounds(Marked(shape, bounds)) == bounds <==> StaticAgree(shape.dims, bounds)
  {
    var marked := Marked(shape, bounds);
    AnnotationsAreExact(bounds, |bounds|);
    forall k | 0 <= k < |marked.dynamic|
      ensures marked.dynamic[k].dimension < |shape.dims|
    {
      assert marked.dynamic[k] in marked.dynamic;
    }
    forall d | 0 <= d < |bounds|
      ensures TensorBounds(marked)[d] == bounds[d] <==>
        (bounds[d].lower == bounds[d].upper ==> shape.dims[d] == bounds[d].upper)
    {
      AnnotatedBounds(marked, bounds, |bounds|, d);
    }
    if TensorBounds(marked) == bounds {
      forall d | 0 <= d < |bounds| && bounds[d].lower == bounds[d].upper
        ensures shape.dims[d] == bounds[d].upper
      {
        assert TensorBounds(marked)[d] == bounds[d];
      }
    }
  }

  /** Resolving a compatible request loses nothing: the marked shapes describe the same bounds again. */
  lemma ResolvedRoundTrip(rows: seq<seq<DimensionBounds>>, bounds: seq<DimensionBounds>, shapes: seq<Shape>,
                          runtime: seq<Shape>, padded: seq<Shape>, marked: seq<Shape>)
    requires SplitOver(rows, bounds, shapes) && Compatible(bounds, shapes)
    requires Resolved(rows, shapes, runtime, padded, marked)
    ensures AllInRange(marked) && AllBounds(marked) == bounds && FlatDims(runtime) == FlatDims(shapes)
  {
    forall i | 0 <= i < |shapes|
      ensures InRange(marked[i]) && BoundRows(marked)[i] == rows[i]
    {
      CompatibleRows(rows, bounds, shapes, i);
      MarkedDescribesBounds(shapes[i], rows[i]);
    }
    assert BoundRows(marked) == rows;
    assert SizeRows(runtime) == SizeRows(shapes);
    if shapes == [] {
      assert rows == [] && bounds == [];
    } else {
      CompatibleRows(rows, bounds, shapes, 0);
    }
  }

  /** The padded size is at least the runtime size, is equal to it where the bounds are equal, and the
      dimension is marked dynamic exactly where they differ. */
  ghost predicate PaddedAndMarked(shape: Shape, bounds: seq<DimensionBounds>, padded: Shape, marked: Shape, d: nat)
    requires d < |shape.dims| == |bounds| == |padded.dims|
  {
    && padded.dims[d] >= shape.dims[d]
    && (bounds[d].lower == bounds[d].upper ==> padded.dims[d] == shape.dims[d])
    && (bounds[d].lower != bounds[d].upper <==> DynamicDim(d, bounds[d].lower, bounds[d].upper) in marked.dynamic)
    && (bounds[d].lower != bounds[d].upper <==> exists a :: a in marked.dynamic && a.dimension == d)
  }

  lemma ResolvedDominates(rows: seq<seq<DimensionBounds>>, bounds: seq<DimensionBounds>, shapes: seq<Shape>,
                          runtime: seq<Shape>, padded: seq<Shape>, marked: seq<Shape>, i: nat, d: nat)
    requires SplitOver(rows, bounds, shapes) && Compatible(bounds, shapes)
    requires Resolved(rows, shapes, runtime, padded, marked)
    requires i < |shapes| && d < |shapes[i].dims|
    ensures |rows[i]| == |padded[i].dims| == |shapes[i].dims|
    ensures PaddedAndMarked(shapes[i], rows[i], padded[i], marked[i], d)
  {
    CompatibleRows(rows, bounds, shapes, i);
    AnnotationsAreExact(rows[i], |rows[i]|);
    assert forall a :: a in marked[i].dynamic ==> Names(a, rows[i], |rows[i]|);
  }

  // ---------- A request and its own bounds ----------

  /** Every size lies within the bounds that the tensor's own annotations give it. */
  ghost predicate SelfCompatible(shape: Shape) {
    Within(shape.dims, TensorBounds(shape))
  }

  /** The bounds made from a request accept that request exactly when each of its sizes is within the
      bounds that the request itself gives it. */
  lemma OwnBounds(shapes: seq<Shape>)
    ensures Compatible(AllBounds(shapes), shapes) <==> forall i :: 0 <= i < |shapes| ==> SelfCompatible(shapes[i])
  {
    var rows := BoundRows(shapes);
    assert SplitOver(rows, AllBounds(shapes), shapes);
    SameLengths(rows, AllBounds(shapes), shapes);
    if Compatible(AllBounds(shapes), shapes) {
      forall i | 0 <= i < |shapes|
        ensures SelfCompatible(shapes[i])
      {
        CompatibleRows(rows, AllBounds(shapes), shapes, i);
      }
    }
    if forall i :: 0 <= i < |shapes| ==> SelfCompatible(shapes[i]) {
      WithinJoined(shapes, |shapes|);
    }
  }

  lemma {:induction false} WithinJoined(shapes: seq<Shape>, n: nat)
    requires n <= |shapes| && forall i :: 0 <= i < |shapes| ==> SelfCompatible(shapes[i])
    ensures |Join(SizeRows(shapes), n)| == |Join(BoundRows(shapes), n)|
    ensures Within(Join(SizeRows(shapes), n), Join(BoundRows(shapes), n))
  {
    if n == 0 {
    } else {
      WithinJoined(shapes, n - 1);
      assert SelfCompatible(shapes[n - 1]);
    }
  }

  // ---------- Where annotations come from ----------

  datatype Mark = Mark(index: int, dimension: int, lower: int, upper: int)

  datatype MarkError = InvalidBounds | IndexOutOfBounds | DimensionOutOfBounds | SizeOutOfBounds

  /** The first annotation of a dimension from place `i` on; the end if there is none. */
  function FindAnnotation(dynamic: seq<DynamicDim>, dimension: nat, i: nat): (r: nat)
    requires i <= |dynamic|
    ensures i <= r <= |dynamic| && (r < |dynamic| ==> dynamic[r].dimension == dimension)
    ensures forall k :: i <= k < r ==> dynamic[k].dimension != dimension
    decreases |dynamic| - i
  {
    if i == |dynamic| || dynamic[i].dimension == dimension then i else FindAnnotation(dynamic, dimension, i + 1)
  }

  /** The annotations with one replaced, or added at the end. */
  function Annotate(dynamic: seq<DynamicDim>, annotation: DynamicDim): seq<DynamicDim> {
    var found := FindAnnotation(dynamic, annotation.dimension, 0);
    if found < |dynamic| then dynamic[found := annotation] else dynamic + [annotation]
  }

  /** The shapes after a mark, or why it is refused. */
  function MarkOne(shapes: seq<Shape>, m: Mark): Result<seq<Shape>, MarkError> {
    if !(2 <= m.lower <= m.upper) then Err(InvalidBounds)
    else if !(0 <= m.index < |shapes|) then Err(IndexOutOfBounds)
    else if !(0 <= m.dimension < |shapes[m.index].dims|) then Err(DimensionOutOfBounds)
    else if !(m.lower <= shapes[m.index].dims[m.dimension] <= m.upper) then Err(SizeOutOfBounds)
    else
      var shape := shapes[m.index];
      Ok(shapes[m.index := shape.(dynamic := Annotate(shape.dynamic, DynamicDim(m.dimension, m.lower, m.upper)))])
  }

  class DeviceBufferList {
    var shapes: seq<Shape>

    constructor (shapes: seq<Shape>)
      ensures this.shapes == shapes
    {
      this.shapes := shapes;
    }

    /** Marks a dimension as dynamic; a refused mark changes nothing. */
    method MarkDynamic(m: Mark) returns (status: Result<(), MarkError>)
      modifies this
      ensures match MarkOne(old(shapes), m)
              case Ok(after) => status == Ok(()) && shapes == after
              case Err(error) => status == Err(error) && shapes == old(shapes)
    {
      if !(2 <= m.lower <= m.upper) {
        return Err(InvalidBounds);
      }
      if !(0 <= m.index < |shapes|) {
        return Err(IndexOutOfBounds);
      }
      var shape := shapes[m.index];
      if !(0 <= m.dimension < |shape.dims|) {
        return Err(DimensionOutOfBounds);
      }
      if !(m.lower <= shape.dims[m.dimension] <= m.upper) {
        return Err(SizeOutOfBounds);
      }
      var annotation := DynamicDim(m.dimension, m.lower, m.upper);
      var found: nat := 0;
      while found < |shape.dynamic| && shape.dynamic[found].dimension != annotation.dimension
        invariant found <= |shape.dynamic|
        invariant FindAnnotation(shape.dynamic, annotation.dimension, 0)
          == FindAnnotation(shape.dynamic, annotation.dimension, found)
      {
        found := found + 1;
      }
      var dynamic := if found < |shape.dynamic| then shape.dynamic[found := annotation]
        else shape.dynamic + [annotation];
      shapes := shapes[m.index := shape.(dynamic := dynamic)];
      return Ok(());
    }
  }

  /** Annotations of different dimensions that exist, each with the tensor's size inside its bounds. */
  ghost predicate SoundlyMarked(shape: Shape) {
    && InRange(shape)
    && (forall k, l :: 0 <= k < l < |shape.dynamic| ==> shape.dynamic[k].dimension != shape.dynamic[l].dimension)
    && (forall k :: 0 <= k < |shape.dynamic| ==>
          2 <= shape.dynamic[k].lower <= shape.dims[shape.dynamic[k].dimension] <= shape.dynamic[k].upper)
  }

  ghost predicate AllSoundlyMarked(shapes: seq<Shape>) {
    forall i :: 0 <= i < |shapes| ==> SoundlyMarked(shapes[i])
  }

  lemma AnnotateKeepsSound(shape: Shape, annotation: DynamicDim)
    requires SoundlyMarked(shape) && annotation.dimension < |shape.dims|
    requires 2 <= annotation.lower <= shape.dims[annotation.dimension] <= annotation.upper
    ensures SoundlyMarked(shape.(dynamic := Annotate(shape.dynamic, annotation)))
  {
  }

  lemma {:induction false} SoundBounds(shape: Shape, n: nat, d: nat)
    requires SoundlyMarked(shape) && n <= |shape.dynamic| && d < |shape.dims|
    ensures BoundsOf(shape, n, d).lower <= shape.dims[d] <= BoundsOf(shape, n, d).upper
  {
    if n == 0 {
    } else {
      SoundBounds(shape, n - 1, d);
    }
  }

  /** A soundly marked tensor fits the bounds it gives itself. */
  lemma SoundFits(shape: Shape)
    requires SoundlyMarked(shape)
    ensures SelfCompatible(shape)
  {
    forall d | 0 <= d < |shape.dims|
      ensures TensorBounds(shape)[d].lower <= shape.dims[d] <= TensorBounds(shape)[d].upper
    {
      SoundBounds(shape, |shape.dynamic|, d);
    }
  }

  lemma {:induction false} BoundsOfOnce(shape: Shape, n: nat, k: nat)
    requires SoundlyMarked(shape) && k < n <= |shape.dynamic|
    ensures BoundsOf(shape, n, shape.dynamic[k].dimension)
      == DimensionBounds(shape.dynamic[k].lower, shape.dynamic[k].upper)
  {
    if k == n - 1 {
    } else {
      BoundsOfOnce(shape, n - 1, k);
    }
  }

  /** After a mark the dimension has the new bounds: the latest mark of a dimension counts. */
  lemma MarkSetsBounds(shape: Shape, annotation: DynamicDim)
    requires SoundlyMarked(shape) && annotation.dimension < |shape.dims|
    requires 2 <= annotation.lower <= shape.dims[annotation.dimension] <= annotation.upper
    ensures var after := shape.(dynamic := Annotate(shape.dynamic, annotation));
      TensorBounds(after)[annotation.dimension] == DimensionBounds(annotation.lower, annotation.upper)
  {
    AnnotateKeepsSound(shape, annotation);
    var after := shape.(dynamic := Annotate(shape.dynamic, annotation));
    var found := FindAnnotation(shape.dynamic, annotation.dimension, 0);
    assert after.dynamic[found] == annotation;
    BoundsOfOnce(after, |after.dynamic|, found);
  }

  /** What a mark does, by its arguments: the first condition that is not met decides the error; if all are,
      only the bounds of that dimension of that tensor change, and become the given ones. */
  lemma MarkDecides(shapes: seq<Shape>, m: Mark)
    requires AllSoundlyMarked(shapes)
    ensures match MarkOne(shapes, m)
      case Err(InvalidBounds) => m.lower < 2 || m.upper < m.lower
      case Err(IndexOutOfBounds) => 2 <= m.lower <= m.upper && (m.index < 0 || |shapes| <= m.index)
      case Err(DimensionOutOfBounds) =>
        && 2 <= m.lower <= m.upper && 0 <= m.index < |shapes|
        && (m.dimension < 0 || |shapes[m.index].dims| <= m.dimension)
      case Err(SizeOutOfBounds) =>
        && 2 <= m.lower <= m.upper && 0 <= m.index < |shapes| && 0 <= m.dimension < |shapes[m.index].dims|
        && (shapes[m.index].dims[m.dimension] < m.lower || m.upper < shapes[m.index].dims[m.dimension])
      case Ok(after) =>
        && 2 <= m.lower <= m.upper && 0 <= m.index < |shapes| && 0 <= m.dimension < |shapes[m.index].dims|
        && m.lower <= shapes[m.index].dims[m.dimension] <= m.upper
        && |after| == |shapes| && (forall i :: 0 <= i < |shapes| && i != m.index ==> after[i] == shapes[i])
        && after[m.index].dims == shapes[m.index].dims && after[m.index].dtype == shapes[m.index].dtype
        && TensorBounds(after[m.index])
          == TensorBounds(shapes[m.index])[m.dimension := DimensionBounds(m.lower, m.upper)]
  {
    hide Annotate, SoundlyMarked, TensorBounds;
    if MarkOne(shapes, m).Ok? {
      MarkReplacesBounds(shapes[m.index], DynamicDim(m.dimension, m.lower, m.upper));
    }
  }

  lemma MarkReplacesBounds(shape: Shape, annotation: DynamicDim)
    requires SoundlyMarked(shape) && annotation.dimension < |shape.dims|
    requires 2 <= annotation.lower <= shape.dims[annotation.dimension] <= annotation.upper
    ensures TensorBounds(shape.(dynamic := Annotate(shape.dynamic, annotation)))
      == TensorBounds(shape)[annotation.dimension := DimensionBounds(annotation.lower, annotation.upper)]
  {
    MarkSetsBounds(shape, annotation);
    var after := shape.(dynamic := Annotate(shape.dynamic, annotation));
    var found := FindAnnotation(shape.dynamic, annotation.dimension, 0);
    if found == |shape.dynamic| {
      AnnotationDecides(shape, annotation);
    } else {
      forall d | 0 <= d < |shape.dims| && d != annotation.dimension
        ensures BoundsOf(after, |shape.dynamic|, d) == BoundsOf(shape, |shape.dynamic|, d)
      {
        OtherDimension(shape, after, found, |shape.dynamic|, d);
      }
    }
  }

  lemma {:induction false} OtherDimension(shape: Shape, after: Shape, found: nat, n: nat, d: nat)
    requires after.dims == shape.dims && found < |shape.dynamic| == |after.dynamic| && n <= |shape.dynamic|
    requires d < |shape.dims|
    requires forall k :: 0 <= k < |shape.dynamic| && k != found ==> after.dynamic[k] == shape.dynamic[k]
    requires shape.dynamic[found].dimension == after.dynamic[found].dimension != d
    ensures BoundsOf(after, n, d) == BoundsOf(shape, n, d)
  {
    if n == 0 {
    } else {
      OtherDimension(shape, after, found, n - 1, d);
    }
  }

  /** The shapes after a sequence of marks, of which some may be refused. */
  function AfterMarks(shapes: seq<Shape>, marks: seq<Mark>): (r: seq<Shape>)
    ensures |r| == |shapes|
  {
    if marks == [] then shapes
    else
      var before := AfterMarks(shapes, marks[..|marks| - 1]);
      match MarkOne(before, marks[|marks| - 1])
      case Ok(after) => after
      case Err(_) => before
  }

  lemma {:induction false} MarksKeepSound(shapes: seq<Shape>, marks: seq<Mark>)
    requires AllSoundlyMarked(shapes)
    ensures AllSoundlyMarked(AfterMarks(shapes, marks))
  {
    hide SoundlyMarked, Annotate;
    if marks == [] {
    } else {
      var before, m := AfterMarks(shapes, marks[..|marks| - 1]), marks[|marks| - 1];
      MarksKeepSound(shapes, marks[..|marks| - 1]);
      if MarkOne(before, m).Ok? {
        AnnotateKeepsSound(before[m.index], DynamicDim(m.dimension, m.lower, m.upper));
      }
    }
  }

  /** The shape is one of a list of static tensors after some sequence of marks. */
  ghost predicate MarkedAs(shape: Shape, start: seq<Shape>, marks: seq<Mark>, i: int) {
    && 0 <= i < |start| && (forall j :: 0 <= j < |start| ==> start[j].dynamic == [])
    && shape == AfterMarks(start, marks)[i]
  }

  ghost predicate MadeByMarks(shape: Shape) {
    exists start, marks, i :: MarkedAs(shape, start, marks, i)
  }

  /** However a tensor has been marked, its annotations name its dimensions and its sizes lie within
      them. */
  lemma MarkedTensorsFit(shape: Shape)
    requires MadeByMarks(shape)
    ensures InRange(shape) && SelfCompatible(shape)
  {
    hide SelfCompatible;
    var start, marks, i :| MarkedAs(shape, start, marks, i);
    StaticIsSound(start);
    MarksKeepSound(start, marks);
    assert SoundlyMarked(shape);
    SoundFits(shape);
  }

  lemma StaticIsSound(shapes: seq<Shape>)
    requires forall j :: 0 <= j < |shapes| ==> shapes[j].dynamic == []
    ensures AllSoundlyMarked(shapes)
  {
  }
}
