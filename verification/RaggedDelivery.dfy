/** The data plane of the all-to-all collectives: what the ragged and the uniform path leave in every
    rank's output. A buffer is the sequence of its rows; `inputs[i]` is rank i's send buffer. */
module RaggedDelivery {
  import opened Prelude
  import opened RaggedOffsets
  import OffsetExchange

  /** What the collective is given on rank `me` once the exchange succeeded. */
  function PlanOf(calls: seq<Call>, me: nat): (plan: RaggedAllToAllOffsets)
    requires ExchangeSucceeds(calls) && me < |calls|
  {
    assert Exchange(calls, me).Ok?;
    RaggedAllToAllOffsets(RunningOffsets(calls[me].sendSizes), calls[me].sendSizes,
                          Exchange(calls, me).value, calls[me].recvSizes)
  }

  /** After a checked exchange every rank gives the collective its own sizes, expects from each peer what
      that peer's collective is given to send, and reads where its own running sums are. */
  lemma PlansAgree(calls: seq<Call>, i: nat, j: nat)
    requires ExchangeSucceeds(calls) && |calls| > 1 && i < |calls| && j < |calls|
    ensures var mine, theirs := PlanOf(calls, i), PlanOf(calls, j);
      && mine.sendSizes == calls[i].sendSizes && mine.recvSizes == calls[i].recvSizes
      && |mine.recvSizes| == |theirs.sendSizes| == |calls| && mine.recvSizes[j] == theirs.sendSizes[i]
      && |mine.inputOffsets| == |calls| && mine.inputOffsets[j] == ToInt32(Prefix(calls[i].sendSizes, j))
  {
    ExchangeSucceedsIff(calls);
  }

  /** `count` rows from `offset` on lie inside the buffer; no rows lie anywhere. */
  ghost predicate RowsInside<T>(buffer: seq<T>, offset: int, count: int) {
    0 < count ==> 0 <= offset && offset + count <= |buffer|
  }

  /** Copies `count` rows between buffers; copying no rows touches nothing. */
  function CopyRows<T>(dst: seq<T>, dstOffset: int, src: seq<T>, srcOffset: int, count: int): (r: seq<T>)
    requires RowsInside(dst, dstOffset, count) && RowsInside(src, srcOffset, count)
    ensures |r| == |dst|
  {
    if count <= 0 then dst
    else dst[..dstOffset] + src[srcOffset..srcOffset + count] + dst[dstOffset + count..]
  }

  /** The slice that a plan sends to `dst` stays inside both buffers. */
  ghost predicate SliceFits<T>(plan: RaggedAllToAllOffsets, input: seq<T>, output: seq<T>, dst: nat) {
    && dst < |plan.inputOffsets| && dst < |plan.sendSizes| && dst < |plan.outputOffsets|
    && RowsInside(input, plan.inputOffsets[dst], plan.sendSizes[dst])
    && RowsInside(output, plan.outputOffsets[dst], plan.sendSizes[dst])
  }

  /** One slice is copied from the sender's input into the receiver's output, at the offset the
      sender learned. */
  ghost function Write<T>(plan: RaggedAllToAllOffsets, input: seq<T>, output: seq<T>, dst: nat): (r: seq<T>)
    requires SliceFits(plan, input, output, dst)
    ensures |r| == |output|
  {
    CopyRows(output, plan.outputOffsets[dst], input, plan.inputOffsets[dst], plan.sendSizes[dst])
  }

  /** One rank's buffers are sized for its call. */
  ghost predicate RankSized<T>(call: Call, input: seq<T>, output: seq<T>) {
    && NonNegative(call.sendSizes) && NonNegative(call.recvSizes)
    && Total(call.sendSizes) == |input| && Total(call.recvSizes) == |output|
  }

  ghost predicate Sized<T>(calls: seq<Call>, inputs: seq<seq<T>>, outputs: seq<seq<T>>) {
    && ExchangeSucceeds(calls) && Matched(calls)
    && |inputs| == |outputs| == |calls|
    && forall i :: 0 <= i < |calls| ==> RankSized(calls[i], inputs[i], outputs[i])
  }

  /** No slice of the group starts beyond the 32-bit range, on either side. */
  ghost predicate AllAddressable(calls: seq<Call>) {
    forall i :: 0 <= i < |calls| ==> Addressable(calls[i].sendSizes) && Addressable(calls[i].recvSizes)
  }

  ghost predicate Ready<T>(calls: seq<Call>, inputs: seq<seq<T>>, outputs: seq<seq<T>>) {
    Sized(calls, inputs, outputs) && AllAddressable(calls)
  }

  /** The part of `buffer` that belongs to peer `i`. */
  ghost function Part<T>(buffer: seq<T>, sizes: seq<int>, i: nat): (part: seq<T>)
    requires i < |sizes| && NonNegative(sizes) && Total(sizes) == |buffer|
    ensures |part| == sizes[i] && IsCut(buffer, sizes, i, part)
  {
    PrefixMonotone(sizes, 0, i);
    PrefixMonotone(sizes, i + 1, |sizes|);
    buffer[Prefix(sizes, i)..Prefix(sizes, i + 1)]
  }

  lemma CopyFillsPart<T>(output: seq<T>, sizes: seq<int>, i: nat, rows: seq<T>)
    requires i < |sizes| && NonNegative(sizes) && Total(sizes) == |output| && |rows| == sizes[i]
    ensures 0 <= Prefix(sizes, i) <= Prefix(sizes, i + 1) <= |output|
    ensures var after := output[..Prefix(sizes, i)] + rows + output[Prefix(sizes, i + 1)..];
      && |after| == |output|
      && Part(after, sizes, i) == rows
      && forall k :: 0 <= k < |sizes| && k != i ==> Part(after, sizes, k) == Part(output, sizes, k)
  {
    PrefixMonotone(sizes, 0, i);
    PrefixMonotone(sizes, i + 1, |sizes|);
    var after := output[..Prefix(sizes, i)] + rows + output[Prefix(sizes, i + 1)..];
    forall k | 0 <= k < |sizes| && k != i
      ensures Part(after, sizes, k) == Part(output, sizes, k)
    {
      if k < i {
        PrefixMonotone(sizes, k + 1, i);
      } else {
        PrefixMonotone(sizes, i + 1, k);
      }
    }
  }

  /** A plan whose entry for `dst` is exact fills its own part of the output and leaves the others. */
  lemma ExactWrite<T>(plan: RaggedAllToAllOffsets, input: seq<T>, output: seq<T>, dst: nat, recv: seq<int>, src: nat)
    requires dst < |plan.sendSizes| == |plan.inputOffsets| == |plan.outputOffsets|
    requires NonNegative(plan.sendSizes) && Total(plan.sendSizes) == |input|
    requires src < |recv| && NonNegative(recv) && Total(recv) == |output| && plan.sendSizes[dst] == recv[src]
    requires 0 < recv[src] ==> plan.inputOffsets[dst] == Prefix(plan.sendSizes, dst)
    requires 0 < recv[src] ==> plan.outputOffsets[dst] == Prefix(recv, src)
    ensures SliceFits(plan, input, output, dst)
    ensures Part(Write(plan, input, output, dst), recv, src) == Part(input, plan.sendSizes, dst)
    ensures forall i :: 0 <= i < |recv| && i != src ==>
      Part(Write(plan, input, output, dst), recv, i) == Part(output, recv, i)
  {
    hide Write, SliceFits;
    WriteIsCopy(plan, input, output, dst, recv, src);
    CopyFillsPart(output, recv, src, Part(input, plan.sendSizes, dst));
  }

  lemma WriteIsCopy<T>(plan: RaggedAllToAllOffsets, input: seq<T>, output: seq<T>, dst: nat, recv: seq<int>, src: nat)
    requires dst < |plan.sendSizes| == |plan.inputOffsets| == |plan.outputOffsets|
    requires NonNegative(plan.sendSizes) && Total(plan.sendSizes) == |input|
    requires src < |recv| && NonNegative(recv) && Total(recv) == |output| && plan.sendSizes[dst] == recv[src]
    requires 0 < recv[src] ==> plan.inputOffsets[dst] == Prefix(plan.sendSizes, dst)
    requires 0 < recv[src] ==> plan.outputOffsets[dst] == Prefix(recv, src)
    ensures SliceFits(plan, input, output, dst) && 0 <= Prefix(recv, src) <= Prefix(recv, src + 1) <= |output|
    ensures Write(plan, input, output, dst) ==
      output[..Prefix(recv, src)] + Part(input, plan.sendSizes, dst) + output[Prefix(recv, src + 1)..]
  {
    PrefixMonotone(plan.sendSizes, 0, dst);
    PrefixMonotone(plan.sendSizes, dst + 1, |plan.sendSizes|);
    PrefixMonotone(recv, 0, src);
    PrefixMonotone(recv, src + 1, |recv|);
    if recv[src] == 0 {
      assert Part(input, plan.sendSizes, dst) == [];
      assert output[..Prefix(recv, src)] + output[Prefix(recv, src)..] == output;
    }
  }

  /** After a successful exchange every rank's plan is exact. */
  lemma PlanIsExact<T>(calls: seq<Call>, inputs: seq<seq<T>>, outputs: seq<seq<T>>, src: nat, dst: nat)
    requires Ready(calls, inputs, outputs) && src < |calls| && dst < |calls|
    ensures var plan, recv := PlanOf(calls, src), calls[dst].recvSizes;
      && |plan.sendSizes| == |plan.inputOffsets| == |plan.outputOffsets| == |recv| == |calls|
      && plan.sendSizes == calls[src].sendSizes && plan.sendSizes[dst] == recv[src]
      && (0 < recv[src] ==> plan.inputOffsets[dst] == Prefix(plan.sendSizes, dst))
      && (0 < recv[src] ==> plan.outputOffsets[dst] == Prefix(recv, src))
  {
    assert RankSized(calls[src], inputs[src], outputs[src]) && RankSized(calls[dst], inputs[dst], outputs[dst]);
    assert Addressable(calls[src].sendSizes) && Addressable(calls[dst].recvSizes);
    LearnedOffset(calls, src, dst);
    SliceStart(calls[src].sendSizes, dst);
    SliceStart(calls[dst].recvSizes, src);
    assert calls[src].sendSizes[dst] == calls[dst].recvSizes[src];
  }

  /** Rank `dst`'s output with the slice of `src` written into it. */
  ghost function Deliver<T>(calls: seq<Call>, inputs: seq<seq<T>>, outputs: seq<seq<T>>, src: nat,
      dst: nat): (r: seq<seq<T>>)
    requires ExchangeSucceeds(calls) && src < |calls| == |inputs| && dst < |outputs|
    requires SliceFits(PlanOf(calls, src), inputs[src], outputs[dst], dst)
  {
    outputs[dst := Write(PlanOf(calls, src), inputs[src], outputs[dst], dst)]
  }

  /** The slice of `src` has arrived at `dst`. */
  ghost predicate Landed<T>(calls: seq<Call>, inputs: seq<seq<T>>, outputs: seq<seq<T>>, src: nat, dst: nat)
    requires Ready(calls, inputs, outputs) && src < |calls| && dst < |calls|
  {
    assert RankSized(calls[src], inputs[src], outputs[src]) && RankSized(calls[dst], inputs[dst], outputs[dst]);
    Part(outputs[dst], calls[dst].recvSizes, src) == Part(inputs[src], calls[src].sendSizes, dst)
  }

  /** A delivery never leaves its buffers, lands its slice and disturbs none that landed before. */
  lemma DeliverLands<T>(calls: seq<Call>, inputs: seq<seq<T>>, outputs: seq<seq<T>>, src: nat, dst: nat)
    requires Ready(calls, inputs, outputs) && src < |calls| && dst < |calls|
    ensures SliceFits(PlanOf(calls, src), inputs[src], outputs[dst], dst)
    ensures var after := Deliver(calls, inputs, outputs, src, dst);
      && Ready(calls, inputs, after)
      && Landed(calls, inputs, after, src, dst)
      && forall i, j :: 0 <= i < |calls| && 0 <= j < |calls| && Landed(calls, inputs, outputs, i, j) ==>
           Landed(calls, inputs, after, i, j)
  {
    hide ExchangeSucceeds, Addressable, Write, PlanOf;
    var plan, recv := PlanOf(calls, src), calls[dst].recvSizes;
    assert RankSized(calls[src], inputs[src], outputs[src]) && RankSized(calls[dst], inputs[dst], outputs[dst]);
    PlanIsExact(calls, inputs, outputs, src, dst);
    ExactWrite(plan, inputs[src], outputs[dst], dst, recv, src);
    var after := Deliver(calls, inputs, outputs, src, dst);
    forall i | 0 <= i < |calls|
      ensures RankSized(calls[i], inputs[i], after[i])
    {
      assert RankSized(calls[i], inputs[i], outputs[i]);
    }
    assert Ready(calls, inputs, after);
    forall i, j | 0 <= i < |calls| && 0 <= j < |calls| && Landed(calls, inputs, outputs, i, j)
      ensures Landed(calls, inputs, after, i, j)
    {
      if j == dst {
        assert RankSized(calls[i], inputs[i], outputs[i]);
      }
    }
  }

  /** Slices of the group in some order of arrival: (sender, receiver). */
  ghost predicate Arrivals(order: seq<(nat, nat)>, n: nat) {
    forall k :: 0 <= k < |order| ==> order[k].0 < n && order[k].1 < n
  }

  ghost predicate SameLengths<T>(s: seq<seq<T>>, t: seq<seq<T>>) {
    |s| == |t| && forall i :: 0 <= i < |s| ==> |s[i]| == |t[i]|
  }

  /** All outputs after the slices arrived in the given order; none if one of them left its buffers. */
  ghost function DeliverAll<T>(calls: seq<Call>, inputs: seq<seq<T>>, outputs: seq<seq<T>>, order: seq<(nat, nat)>)
    : (after: Option<seq<seq<T>>>)
    requires ExchangeSucceeds(calls) && |inputs| == |outputs| == |calls| && Arrivals(order, |calls|)
    ensures after.Some? ==> SameLengths(after.value, outputs)
  {
    if order == [] then Some(outputs)
    else
      var init, last := order[..|order| - 1], order[|order| - 1];
      match DeliverAll(calls, inputs, outputs, init)
      case None => None
      case Some(before) =>
        if SliceFits(PlanOf(calls, last.0), inputs[last.0], before[last.1], last.1) then
          Some(Deliver(calls, inputs, before, last.0, last.1))
        else None
  }

  lemma {:induction false} DeliveredReady<T>(calls: seq<Call>, inputs: seq<seq<T>>, outputs: seq<seq<T>>,
      order: seq<(nat, nat)>)
    requires Ready(calls, inputs, outputs) && Arrivals(order, |calls|)
    ensures var after := DeliverAll(calls, inputs, outputs, order); after.Some? && Ready(calls, inputs, after.value)
  {
    hide RankSized, AllAddressable, Matched, ExchangeSucceeds, Deliver, SliceFits, PlanOf;
    if order == [] {
    } else {
      var init, last := order[..|order| - 1], order[|order| - 1];
      DeliveredReady(calls, inputs, outputs, init);
      DeliverLands(calls, inputs, DeliverAll(calls, inputs, outputs, init).value, last.0, last.1);
    }
  }

  lemma {:induction false} ArrivedSlicesStay<T>(calls: seq<Call>, inputs: seq<seq<T>>, outputs: seq<seq<T>>,
      order: seq<(nat, nat)>,
                                                src: nat, dst: nat)
    requires Ready(calls, inputs, outputs) && Arrivals(order, |calls|) && (src, dst) in order
    ensures src < |calls| && dst < |calls|
    ensures var after := DeliverAll(calls, inputs, outputs, order);
      after.Some? && Ready(calls, inputs, after.value) && Landed(calls, inputs, after.value, src, dst)
    decreases |order|
  {
    hide RankSized, AllAddressable, Matched, ExchangeSucceeds, Deliver, Landed, SliceFits, PlanOf;
    var init, last := order[..|order| - 1], order[|order| - 1];
    DeliveredReady(calls, inputs, outputs, order);
    DeliveredReady(calls, inputs, outputs, init);
    DeliverLands(calls, inputs, DeliverAll(calls, inputs, outputs, init).value, last.0, last.1);
    if (src, dst) != last {
      assert (src, dst) in init;
      ArrivedSlicesStay(calls, inputs, outputs, init, src, dst);
    }
  }

  // ---------- Slices that leave their buffers ----------

  /** All slices of the group stay inside the buffers. */
  ghost predicate AllFit<T>(calls: seq<Call>, inputs: seq<seq<T>>, outputs: seq<seq<T>>)
    requires ExchangeSucceeds(calls) && |inputs| == |outputs| == |calls|
  {
    forall i, j :: 0 <= i < |calls| && 0 <= j < |calls| ==> SliceFits(PlanOf(calls, i), inputs[i], outputs[j], j)
  }

  /** The first slice beyond 32 bits on the sending side starts at a negative offset. */
  lemma UnaddressableSend<T>(calls: seq<Call>, inputs: seq<seq<T>>, outputs: seq<seq<T>>, i: nat) returns (j: nat)
    requires Sized(calls, inputs, outputs) && i < |calls| && !Addressable(calls[i].sendSizes)
    ensures j < |calls| && !SliceFits(PlanOf(calls, i), inputs[i], outputs[j], j)
  {
    assert RankSized(calls[i], inputs[i], outputs[i]);
    var sizes := calls[i].sendSizes;
    j := LeastUnaddressable(sizes, 0);
    FirstOverflowIsNegative(sizes, j);
  }

  /** The first slice beyond 32 bits on the receiving side is sent to a negative offset. */
  lemma UnaddressableReceive<T>(calls: seq<Call>, inputs: seq<seq<T>>, outputs: seq<seq<T>>, j: nat) returns (i: nat)
    requires Sized(calls, inputs, outputs) && j < |calls| && !Addressable(calls[j].recvSizes)
    ensures i < |calls| && !SliceFits(PlanOf(calls, i), inputs[i], outputs[j], j)
  {
    assert RankSized(calls[j], inputs[j], outputs[j]);
    var sizes := calls[j].recvSizes;
    i := LeastUnaddressable(sizes, 0);
    FirstOverflowIsNegative(sizes, i);
    LearnedOffset(calls, i, j);
    assert calls[i].sendSizes[j] == calls[j].recvSizes[i];
  }

  /** All slices stay inside the buffers exactly when none starts beyond 32 bits, on either side. */
  lemma FitsIffAddressable<T>(calls: seq<Call>, inputs: seq<seq<T>>, outputs: seq<seq<T>>)
    requires Sized(calls, inputs, outputs)
    ensures AllFit(calls, inputs, outputs) <==> AllAddressable(calls)
  {
    hide SliceFits, PlanOf, Addressable;
    if AllAddressable(calls) {
      forall i: nat, j: nat | i < |calls| && j < |calls|
        ensures SliceFits(PlanOf(calls, i), inputs[i], outputs[j], j)
      {
        DeliverLands(calls, inputs, outputs, i, j);
      }
    } else {
      var i :| 0 <= i < |calls| && !(Addressable(calls[i].sendSizes) && Addressable(calls[i].recvSizes));
      if !Addressable(calls[i].sendSizes) {
        var j := UnaddressableSend(calls, inputs, outputs, i);
      } else {
        var j := UnaddressableReceive(calls, inputs, outputs, i);
      }
    }
  }

  /** Once a slice that leaves its buffers is due, no outputs are left. */
  lemma {:induction false} MisfitIsFatal<T>(calls: seq<Call>, inputs: seq<seq<T>>, outputs: seq<seq<T>>,
      order: seq<(nat, nat)>,
                                            src: nat, dst: nat)
    requires ExchangeSucceeds(calls) && |inputs| == |outputs| == |calls| && Arrivals(order, |calls|)
    requires src < |calls| && dst < |calls| && (src, dst) in order
    requires !SliceFits(PlanOf(calls, src), inputs[src], outputs[dst], dst)
    ensures DeliverAll(calls, inputs, outputs, order) == None
    decreases |order|
  {
    hide PlanOf, Deliver;
    var init, last := order[..|order| - 1], order[|order| - 1];
    if (src, dst) != last {
      assert (src, dst) in init;
      MisfitIsFatal(calls, inputs, outputs, init, src, dst);
    }
  }

  ghost predicate Complete(order: seq<(nat, nat)>, n: nat) {
    Arrivals(order, n) && forall src: nat, dst: nat :: src < n && dst < n ==> (src, dst) in order
  }

  /** The blocks that the ranks hold for `dst`, by sender. */
  ghost function BlocksTo<T>(sends: seq<seq<int>>, inputs: seq<seq<T>>, dst: nat): (blocks: seq<seq<T>>)
    requires Square(sends, inputs) && dst < |sends|
    ensures |blocks| == |inputs|
  {
    seq(|inputs|, src requires 0 <= src < |inputs| => Part(inputs[src], sends[src], dst))
  }

  /** Each of n ranks splits its input into n parts. */
  ghost predicate Square<T>(sends: seq<seq<int>>, inputs: seq<seq<T>>) {
    && |sends| == |inputs|
    && forall i :: 0 <= i < |inputs| ==>
      |sends[i]| == |inputs| && NonNegative(sends[i]) && Total(sends[i]) == |inputs[i]|
  }

  ghost function SendSizes(calls: seq<Call>): (r: seq<seq<int>>) {
    seq(|calls|, i requires 0 <= i < |calls| => calls[i].sendSizes)
  }

  /** The block transpose: every rank holds the blocks sent to it, joined by sender. */
  ghost function Transposed<T>(sends: seq<seq<int>>, inputs: seq<seq<T>>): (r: seq<seq<T>>)
    requires Square(sends, inputs)
    ensures |r| == |inputs|
  {
    seq(|inputs|, dst requires 0 <= dst < |inputs| => Concat(BlocksTo(sends, inputs, dst)))
  }

  lemma AllSizedIsSquare<T>(calls: seq<Call>, inputs: seq<seq<T>>, outputs: seq<seq<T>>)
    requires GroupCalls(calls) && AllSized(calls, inputs, outputs)
    ensures Square(SendSizes(calls), inputs)
  {
    forall i | 0 <= i < |inputs|
      ensures |SendSizes(calls)[i]| == |inputs| && NonNegative(SendSizes(calls)[i])
      ensures Total(SendSizes(calls)[i]) == |inputs[i]|
    {
      assert RankSized(calls[i], inputs[i], outputs[i]);
    }
  }

  lemma SizedIsSquare<T>(calls: seq<Call>, inputs: seq<seq<T>>, outputs: seq<seq<T>>)
    requires Sized(calls, inputs, outputs)
    ensures Square(SendSizes(calls), inputs)
  {
    AllSizedIsSquare(calls, inputs, outputs);
  }

  /** However the remote writes interleave, once every slice has arrived the outputs are the block
      transpose of the inputs. */
  lemma ArrivedTransposes<T>(calls: seq<Call>, inputs: seq<seq<T>>, outputs: seq<seq<T>>, order: seq<(nat, nat)>)
    requires Ready(calls, inputs, outputs) && Complete(order, |calls|)
    ensures Square(SendSizes(calls), inputs)
    ensures DeliverAll(calls, inputs, outputs, order) == Some(Transposed(SendSizes(calls), inputs))
  {
    SizedIsSquare(calls, inputs, outputs);
    DeliveredReady(calls, inputs, outputs, order);
    var sends := SendSizes(calls);
    var after := DeliverAll(calls, inputs, outputs, order).value;
    forall dst: nat | dst < |calls|
      ensures after[dst] == Transposed(sends, inputs)[dst]
    {
      assert RankSized(calls[dst], inputs[dst], after[dst]);
      var blocks := BlocksTo(sends, inputs, dst);
      forall src: nat | src < |calls|
        ensures IsCut(after[dst], calls[dst].recvSizes, src, blocks[src])
      {
        ArrivedSlicesStay(calls, inputs, outputs, order, src, dst);
      }
      JoinOfCuts(after[dst], calls[dst].recvSizes, blocks, |calls|);
      assert after[dst][..|after[dst]|] == after[dst];
    }
    assert after == Transposed(sends, inputs);
  }

  /** For matched sizes of any magnitude and every order of arrival: the outputs are the block transpose
      of the inputs if no slice starts beyond 32 bits on either side, and otherwise some write leaves
      its buffers. */
  lemma AnyOrderTransposes<T>(calls: seq<Call>, inputs: seq<seq<T>>, outputs: seq<seq<T>>, order: seq<(nat, nat)>)
    requires Sized(calls, inputs, outputs) && Complete(order, |calls|)
    ensures Square(SendSizes(calls), inputs)
    ensures DeliverAll(calls, inputs, outputs, order)
      == if AllAddressable(calls) then Some(Transposed(SendSizes(calls), inputs)) else None
  {
    hide SliceFits, PlanOf, DeliverAll, Transposed, AllAddressable;
    SizedIsSquare(calls, inputs, outputs);
    FitsIffAddressable(calls, inputs, outputs);
    if AllAddressable(calls) {
      ArrivedTransposes(calls, inputs, outputs, order);
    } else {
      var i, j :| 0 <= i < |calls| && 0 <= j < |calls| && !SliceFits(PlanOf(calls, i), inputs[i], outputs[j], j);
      MisfitIsFatal(calls, inputs, outputs, order, i, j);
    }
  }

  ghost predicate AllSized<T>(calls: seq<Call>, inputs: seq<seq<T>>, outputs: seq<seq<T>>) {
    && |inputs| == |outputs| == |calls|
    && forall r :: 0 <= r < |calls| ==> RankSized(calls[r], inputs[r], outputs[r])
  }

  /** In a group of one, which is never checked, mismatched sizes leave other rows than the transpose. */
  lemma AloneNeedsMatch<T>(calls: seq<Call>, inputs: seq<seq<T>>, outputs: seq<seq<T>>, order: seq<(nat, nat)>)
    requires |calls| == 1 && ExchangeSucceeds(calls) && AllSized(calls, inputs, outputs) && !Matched(calls)
    requires Square(SendSizes(calls), inputs) && Arrivals(order, 1)
    ensures DeliverAll(calls, inputs, outputs, order) != Some(Transposed(SendSizes(calls), inputs))
  {
    assert RankSized(calls[0], inputs[0], outputs[0]);
    var send, recv := calls[0].sendSizes, calls[0].recvSizes;
    assert Total(send) == Prefix(send, 0) + send[0] && Total(recv) == Prefix(recv, 0) + recv[0];
    assert send[0] != recv[0];
    var blocks := BlocksTo(SendSizes(calls), inputs, 0);
    assert Concat(blocks) == Join(blocks, 0) + blocks[0];
    assert |Transposed(SendSizes(calls), inputs)[0]| == send[0];
  }

  /** From protocol to data: whenever every rank completed its k-th round successfully, in any
      interleaving of the exchange, the writes of that round transpose the blocks, in any order, exactly
      when no slice starts beyond 32 bits and a group of one sends itself what it expects. */
  lemma SuccessfulRoundTransposes<T>(programs: OffsetExchange.Programs, trace: seq<OffsetExchange.State>, i: nat,
      k: nat,
                                     inputs: seq<seq<T>>, outputs: seq<seq<T>>, order: seq<(nat, nat)>)
    requires OffsetExchange.RoundSucceeded(programs, trace, i, k)
    requires AllSized(OffsetExchange.Round(programs, k), inputs, outputs) && Complete(order, |programs|)
    ensures var calls := OffsetExchange.Round(programs, k);
      && ExchangeSucceeds(calls) && Square(SendSizes(calls), inputs)
      && (Matched(calls) <==> |calls| == 1 ==> calls[0].sendSizes[0] == calls[0].recvSizes[0])
      && (DeliverAll(calls, inputs, outputs, order) == Some(Transposed(SendSizes(calls), inputs))
          <==> Matched(calls) && AllAddressable(calls))
  {
    hide DeliverAll, AllAddressable, Transposed;
    var calls := OffsetExchange.Round(programs, k);
    OffsetExchange.SuccessfulRound(programs, trace, i, k);
    ExchangeSucceedsIff(calls);
    AllSizedIsSquare(calls, inputs, outputs);
    if Matched(calls) {
      AnyOrderTransposes(calls, inputs, outputs, order);
    } else {
      AloneNeedsMatch(calls, inputs, outputs, order);
    }
  }

  /** The sizes each rank receives, when it receives what the others send. */
  ghost function Swapped(sends: seq<seq<int>>): (r: seq<seq<int>>)
    requires forall i :: 0 <= i < |sends| ==> |sends[i]| == |sends|
    ensures |r| == |sends| && forall i :: 0 <= i < |r| ==> |r[i]| == |sends|
  {
    seq(|sends|, dst requires 0 <= dst < |sends| =>
      seq(|sends|, src requires 0 <= src < |sends| => sends[src][dst]))
  }

  lemma SwappedPart<T>(sends: seq<seq<int>>, inputs: seq<seq<T>>, src: nat, dst: nat)
    requires Square(sends, inputs) && src < |inputs| && dst < |inputs|
    ensures Swapped(sends)[dst] == Lengths(BlocksTo(sends, inputs, dst))
    ensures NonNegative(Swapped(sends)[dst]) && Total(Swapped(sends)[dst]) == |Transposed(sends, inputs)[dst]|
    ensures Part(Transposed(sends, inputs)[dst], Swapped(sends)[dst], src) == Part(inputs[src], sends[src], dst)
  {
    var blocks := BlocksTo(sends, inputs, dst);
    forall i | 0 <= i < |inputs|
      ensures Swapped(sends)[dst][i] == Lengths(blocks)[i]
    {
    }
    assert Swapped(sends)[dst] == Lengths(blocks);
    JoinLength(blocks, |blocks|);
    ConcatSlice(blocks, src);
  }

  /** Running the collective again with send and receive sizes swapped restores every input. */
  lemma SwappedRunRestores<T>(sends: seq<seq<int>>, inputs: seq<seq<T>>)
    requires Square(sends, inputs)
    ensures Square(Swapped(sends), Transposed(sends, inputs))
    ensures Transposed(Swapped(sends), Transposed(sends, inputs)) == inputs
  {
    var back, outputs := Swapped(sends), Transposed(sends, inputs);
    forall dst | 0 <= dst < |inputs|
      ensures |back[dst]| == |inputs| && NonNegative(back[dst]) && Total(back[dst]) == |outputs[dst]|
    {
      SwappedPart(sends, inputs, 0, dst);
    }
    forall src | 0 <= src < |inputs|
      ensures Transposed(back, outputs)[src] == inputs[src]
    {
      var blocks := BlocksTo(back, outputs, src);
      forall dst | 0 <= dst < |inputs|
        ensures IsCut(inputs[src], sends[src], dst, blocks[dst])
      {
        SwappedPart(sends, inputs, src, dst);
      }
      JoinOfCuts(inputs[src], sends[src], blocks, |inputs|);
      assert inputs[src][..|inputs[src]|] == inputs[src];
    }
  }

  /** The calls with what is sent and what is received exchanged. */
  ghost predicate Reversed(calls: seq<Call>, back: seq<Call>) {
    && |calls| == |back|
    && forall r :: 0 <= r < |calls| ==>
      back[r].sendSizes == calls[r].recvSizes && back[r].recvSizes == calls[r].sendSizes
  }

  lemma ReversedSends(calls: seq<Call>, back: seq<Call>)
    requires GroupCalls(calls) && GroupCalls(back) && Reversed(calls, back) && Matched(calls)
    ensures Matched(back) && SendSizes(back) == Swapped(SendSizes(calls))
    ensures AllAddressable(back) <==> AllAddressable(calls)
  {
    var sends := SendSizes(calls);
    forall dst | 0 <= dst < |calls|
      ensures SendSizes(back)[dst] == Swapped(sends)[dst]
    {
      forall src | 0 <= src < |calls|
        ensures SendSizes(back)[dst][src] == Swapped(sends)[dst][src]
      {
        assert calls[src].sendSizes[dst] == calls[dst].recvSizes[src];
      }
    }
  }

  /** Two rounds of one run, the second with the sizes of the first exchanged and the outputs of the
      first as its inputs: whatever the interleaving and the orders of arrival, they give every rank's
      input back. */
  lemma TwoRoundsRestore<T>(programs: OffsetExchange.Programs, trace: seq<OffsetExchange.State>, i: nat, k: nat, l: nat,
                            inputs: seq<seq<T>>, outputs: seq<seq<T>>, order: seq<(nat, nat)>,
                            restored: seq<seq<T>>, order': seq<(nat, nat)>)
    requires OffsetExchange.RoundSucceeded(programs, trace, i, k)
    requires OffsetExchange.RoundSucceeded(programs, trace, i, l)
    requires Reversed(OffsetExchange.Round(programs, k), OffsetExchange.Round(programs, l))
    requires AllSized(OffsetExchange.Round(programs, k), inputs, outputs) && SameLengths(restored, inputs)
    requires Complete(order, |programs|) && Complete(order', |programs|)
    requires Matched(OffsetExchange.Round(programs, k)) && AllAddressable(OffsetExchange.Round(programs, k))
    ensures var calls, back := OffsetExchange.Round(programs, k), OffsetExchange.Round(programs, l);
      && ExchangeSucceeds(calls) && ExchangeSucceeds(back)
      && DeliverAll(calls, inputs, outputs, order).Some?
      && DeliverAll(back, DeliverAll(calls, inputs, outputs, order).value, restored, order') == Some(inputs)
  {
    hide DeliverAll, AllAddressable, Transposed, Matched, OffsetExchange.Run;
    var calls, back := OffsetExchange.Round(programs, k), OffsetExchange.Round(programs, l);
    SuccessfulRoundTransposes(programs, trace, i, k, inputs, outputs, order);
    var between := DeliverAll(calls, inputs, outputs, order).value;
    ReversedSends(calls, back);
    forall r | 0 <= r < |back|
      ensures RankSized(back[r], between[r], restored[r])
    {
      assert RankSized(calls[r], inputs[r], outputs[r]);
    }
    SuccessfulRoundTransposes(programs, trace, i, l, between, restored, order');
    SwappedRunRestores(SendSizes(calls), inputs);
  }

  // ---------- Lists of tensors ----------

  /** Cuts a buffer into consecutive pieces of the given sizes, advancing an offset. */
  method SliceTensorsAlongDim0<T>(tensor: seq<T>, splitSizes: seq<int>) returns (results: seq<seq<T>>)
    requires NonNegative(splitSizes) && Total(splitSizes) <= |tensor|
    ensures |results| == |splitSizes|
    ensures forall i :: 0 <= i < |splitSizes| ==> IsCut(tensor, splitSizes, i, results[i])
  {
    results := [];
    var currentOffset := 0;
    for i := 0 to |splitSizes|
      invariant |results| == i && currentOffset == Prefix(splitSizes, i)
      invariant forall k :: 0 <= k < i ==> IsCut(tensor, splitSizes, k, results[k])
    {
      PrefixMonotone(splitSizes, 0, i);
      PrefixMonotone(splitSizes, i + 1, |splitSizes|);
      results := results + [tensor[currentOffset..currentOffset + splitSizes[i]]];
      currentOffset := currentOffset + splitSizes[i];
    }
  }

  /** tensors[src][dst] goes to dst: one list of n tensors per rank. */
  ghost predicate TensorLists<T>(tensors: seq<seq<seq<T>>>) {
    forall i :: 0 <= i < |tensors| ==> |tensors[i]| == |tensors|
  }

  ghost function Concatenated<T>(tensors: seq<seq<seq<T>>>): (r: seq<seq<T>>) {
    seq(|tensors|, i requires 0 <= i < |tensors| => Concat(tensors[i]))
  }

  ghost function ListSizes<T>(tensors: seq<seq<seq<T>>>): (r: seq<seq<int>>) {
    seq(|tensors|, i requires 0 <= i < |tensors| => Lengths(tensors[i]))
  }

  lemma ListsAreSquare<T>(tensors: seq<seq<seq<T>>>, src: nat, dst: nat)
    requires TensorLists(tensors) && src < |tensors| && dst < |tensors|
    ensures Square(ListSizes(tensors), Concatenated(tensors))
    ensures Part(Concatenated(tensors)[src], ListSizes(tensors)[src], dst) == tensors[src][dst]
  {
    forall i | 0 <= i < |tensors|
      ensures Total(ListSizes(tensors)[i]) == |Concatenated(tensors)[i]|
    {
      JoinLength(tensors[i], |tensors[i]|);
    }
    ConcatSlice(tensors[src], dst);
  }

  /** What rank `dst` cuts out of the block transpose by its receive sizes is, tensor by tensor, what the
      others listed for it. */
  lemma CutTransposed<T>(tensors: seq<seq<seq<T>>>, dst: nat, results: seq<seq<T>>)
    requires TensorLists(tensors) && dst < |tensors| == |results|
    requires Square(ListSizes(tensors), Concatenated(tensors))
    requires var recv := Swapped(ListSizes(tensors))[dst];
      forall src :: 0 <= src < |results| ==>
        IsCut(Transposed(ListSizes(tensors), Concatenated(tensors))[dst], recv, src, results[src])
    ensures forall src :: 0 <= src < |results| ==> results[src] == tensors[src][dst]
  {
    forall src | 0 <= src < |results|
      ensures results[src] == tensors[src][dst]
    {
      ListsAreSquare(tensors, src, dst);
      SwappedPart(ListSizes(tensors), Concatenated(tensors), src, dst);
    }
  }

  /** A rank's call for its list of tensors: it sends their numbers of rows, and its output has room for
      what it expects. */
  ghost predicate ListCall<T>(call: Call, list: seq<seq<T>>, output: seq<T>) {
    && call.sendSizes == Lengths(list)
    && NonNegative(call.recvSizes) && Total(call.recvSizes) == |output|
  }

  ghost predicate ListCalls<T>(calls: seq<Call>, tensors: seq<seq<seq<T>>>, outputs: seq<seq<T>>) {
    && TensorLists(tensors) && |calls| == |tensors| == |outputs|
    && forall r :: 0 <= r < |calls| ==> ListCall(calls[r], tensors[r], outputs[r])
  }

  lemma ListCallsAreSized<T>(calls: seq<Call>, tensors: seq<seq<seq<T>>>, outputs: seq<seq<T>>)
    requires ListCalls(calls, tensors, outputs)
    ensures AllSized(calls, Concatenated(tensors), outputs) && SendSizes(calls) == ListSizes(tensors)
  {
    forall r | 0 <= r < |calls|
      ensures RankSized(calls[r], Concatenated(tensors)[r], outputs[r]) && SendSizes(calls)[r] == ListSizes(tensors)[r]
    {
      assert ListCall(calls[r], tensors[r], outputs[r]);
      JoinLength(tensors[r], |tensors[r]|);
    }
  }

  lemma MatchedExpectsSwapped(calls: seq<Call>, dst: nat)
    requires GroupCalls(calls) && Matched(calls) && dst < |calls|
    ensures forall i :: 0 <= i < |calls| ==> |SendSizes(calls)[i]| == |calls|
    ensures calls[dst].recvSizes == Swapped(SendSizes(calls))[dst]
  {
  }

  /** What the ranks have listed for `dst`, by sender. */
  ghost function ListedFor<T>(tensors: seq<seq<seq<T>>>, dst: nat): seq<seq<T>>
    requires TensorLists(tensors) && dst < |tensors|
  {
    seq(|tensors|, src requires 0 <= src < |tensors| => tensors[src][dst])
  }

  ghost predicate Cuts<T>(whole: seq<T>, sizes: seq<int>, pieces: seq<seq<T>>) {
    |pieces| == |sizes| && forall i :: 0 <= i < |sizes| ==> IsCut(whole, sizes, i, pieces[i])
  }

  lemma ListExchange<T>(calls: seq<Call>, tensors: seq<seq<seq<T>>>, outputs: seq<seq<T>>, order: seq<(nat, nat)>,
                        dst: nat, results: seq<seq<T>>)
    requires ExchangeSucceeds(calls) && Matched(calls) && ListCalls(calls, tensors, outputs)
    requires Complete(order, |calls|) && dst < |calls|
    ensures var after := DeliverAll(calls, Concatenated(tensors), outputs, order);
      && (after.Some? <==> AllAddressable(calls))
      && (after.Some? && Cuts(after.value[dst], calls[dst].recvSizes, results) ==> results == ListedFor(tensors, dst))
  {
    hide DeliverAll, Transposed, AllAddressable, Matched;
    ListCallsAreSized(calls, tensors, outputs);
    AnyOrderTransposes(calls, Concatenated(tensors), outputs, order);
    MatchedExpectsSwapped(calls, dst);
    var after := DeliverAll(calls, Concatenated(tensors), outputs, order);
    if after.Some? && Cuts(after.value[dst], calls[dst].recvSizes, results) {
      CutTransposed(tensors, dst, results);
    }
  }

  /** The ragged list path: after a round that succeeded on all ranks, with slices that arrive in any order,
      what rank `dst` cuts out of its output by its receive sizes is, tensor by tensor, what the others
      listed for it; the slices stay in their buffers exactly when all of them start within 32 bits. */
  lemma RaggedListPath<T>(programs: OffsetExchange.Programs, trace: seq<OffsetExchange.State>, i: nat, k: nat,
                          tensors: seq<seq<seq<T>>>, outputs: seq<seq<T>>, order: seq<(nat, nat)>,
                          dst: nat, results: seq<seq<T>>)
    requires OffsetExchange.RoundSucceeded(programs, trace, i, k)
    requires ListCalls(OffsetExchange.Round(programs, k), tensors, outputs)
    requires Matched(OffsetExchange.Round(programs, k))
    requires Complete(order, |programs|) && dst < |programs|
    ensures ExchangeSucceeds(OffsetExchange.Round(programs, k))
    ensures var calls := OffsetExchange.Round(programs, k);
      var after := DeliverAll(calls, Concatenated(tensors), outputs, order);
      && (after.Some? <==> AllAddressable(calls))
      && (after.Some? && Cuts(after.value[dst], calls[dst].recvSizes, results) ==> results == ListedFor(tensors, dst))
  {
    hide DeliverAll, AllAddressable, Matched;
    OffsetExchange.SuccessfulRound(programs, trace, i, k);
    ListExchange(OffsetExchange.Round(programs, k), tensors, outputs, order, dst, results);
  }

  /** StableHLO all_to_all with split and concat dimension 0: every operand is split into as many
      equal parts as there are ranks, and rank `dst` concatenates part `dst` of each. */
  ghost function UniformAllToAll<T>(operands: seq<seq<T>>, share: nat, dst: nat): (r: seq<T>)
    requires dst < |operands| && forall i :: 0 <= i < |operands| ==> |operands[i]| == share * |operands|
  {
    Concat(seq(|operands|, i requires 0 <= i < |operands| => EqualPart(operands[i], |operands|, share, dst)))
  }

  ghost function EqualPart<T>(operand: seq<T>, count: nat, share: nat, k: nat): (r: seq<T>)
    requires k < count && |operand| == share * count
    ensures |r| == share
  {
    PieceBounds(count, share, k);
    operand[share * k..share * (k + 1)]
  }

  lemma PieceBounds(count: nat, share: nat, k: nat)
    requires k < count
    ensures 0 <= share * k == k * share && share * (k + 1) == (k + 1) * share == share * k + share <= share * count
  {
    NextMultiple(share, k);
    MoreShares(share, k + 1, count);
  }

  lemma NextMultiple(share: nat, k: nat)
    ensures 0 <= share * k == k * share && share * (k + 1) == (k + 1) * share == share * k + share
  {
  }

  lemma MoreShares(share: nat, k: nat, count: nat)
    requires k <= count
    ensures share * k <= share * count
  {
    assert share * count == share * k + share * (count - k);
  }

  /** Cuts a buffer into `count` pieces of `dim0` rows each. */
  method SliceUniform<T>(tensor: seq<T>, count: nat, dim0: nat) returns (results: seq<seq<T>>)
    requires |tensor| == dim0 * count
    ensures |results| == count
    ensures forall i :: 0 <= i < count ==> results[i] == EqualPart(tensor, count, dim0, i)
  {
    results := [];
    for i := 0 to count
      invariant |results| == i
      invariant forall k :: 0 <= k < i ==> results[k] == EqualPart(tensor, count, dim0, k)
    {
      PieceBounds(count, dim0, i);
      var startOffset, endOffset := i * dim0, (i + 1) * dim0;
      results := results + [tensor[startOffset..endOffset]];
    }
  }

  lemma {:induction false} EqualPrefix(sizes: seq<int>, share: nat, n: nat)
    requires n <= |sizes| && forall i :: 0 <= i < |sizes| ==> sizes[i] == share
    ensures Prefix(sizes, n) == share * n
  {
    if n == 0 {
    } else {
      EqualPrefix(sizes, share, n - 1);
    }
  }

  lemma EqualPartOfConcat<T>(blocks: seq<seq<T>>, share: nat, k: nat)
    requires k < |blocks| && forall i :: 0 <= i < |blocks| ==> |blocks[i]| == share
    ensures |Concat(blocks)| == share * |blocks| && EqualPart(Concat(blocks), |blocks|, share, k) == blocks[k]
  {
    JoinLength(blocks, |blocks|);
    EqualPrefix(Lengths(blocks), share, |blocks|);
    EqualPrefix(Lengths(blocks), share, k);
    EqualPrefix(Lengths(blocks), share, k + 1);
    ConcatSlice(blocks, k);
  }

  /** When all tensors have the same number of rows, the uniform path (concatenate, all_to_all, slice)
      and the ragged path leave the same rows in every output. */
  lemma UniformPathAgrees<T>(tensors: seq<seq<seq<T>>>, share: nat, src: nat, dst: nat)
    requires TensorLists(tensors) && src < |tensors| && dst < |tensors|
    requires forall i, j :: 0 <= i < |tensors| && 0 <= j < |tensors| ==> |tensors[i][j]| == share
    ensures forall i :: 0 <= i < |tensors| ==> |Concatenated(tensors)[i]| == share * |tensors|
    ensures Square(ListSizes(tensors), Concatenated(tensors))
    ensures var output := UniformAllToAll(Concatenated(tensors), share, dst);
      && output == Transposed(ListSizes(tensors), Concatenated(tensors))[dst]
      && |output| == share * |tensors|
      && EqualPart(output, |tensors|, share, src) == tensors[src][dst]
  {
    var operands, sends := Concatenated(tensors), ListSizes(tensors);
    forall i | 0 <= i < |tensors|
      ensures |operands[i]| == share * |tensors| && EqualPart(operands[i], |tensors|, share, dst) == tensors[i][dst]
    {
      EqualPartOfConcat(tensors[i], share, dst);
    }
    var parts := seq(|operands|, i requires 0 <= i < |operands| => EqualPart(operands[i], |operands|, share, dst));
    ListsAreSquare(tensors, src, dst);
    forall i | 0 <= i < |tensors|
      ensures BlocksTo(sends, operands, dst)[i] == parts[i]
    {
      ListsAreSquare(tensors, i, dst);
    }
    assert BlocksTo(sends, operands, dst) == parts;
    EqualPartOfConcat(parts, share, src);
  }
}
