/** Offsets of the ragged all-to-all: what one rank computes locally, what it reads from its peers'
    payloads, and where the slices of the whole group land. Slice sizes and offsets count rows of
    dimension 0 and are 32-bit integers. */
module RaggedOffsets {
  import opened Prelude

  const INT32_MAX := 0x7FFF_FFFF

  type int32 = x: int | -0x8000_0000 <= x <= 0x7FFF_FFFF

  /** A wider integer reduced to 32 bits, by a cast or by 32-bit addition. */
  function ToInt32(x: int): (r: int32) {
    (x + 0x8000_0000) % 0x1_0000_0000 - 0x8000_0000
  }

  /** It differs from the wider integer by a multiple of 2^32. */
  lemma ToInt32IsModular(x: int)
    ensures (x - ToInt32(x)) % 4294967296 == 0
  {
  }

  lemma ToInt32InRange(x: int)
    requires -0x8000_0000 <= x <= INT32_MAX
    ensures ToInt32(x) == x
  {
  }

  lemma ToInt32OfSum(x: int, y: int)
    ensures ToInt32(ToInt32(x) + y) == ToInt32(x + y)
  {
  }

  /** The offset before each slice, as 32-bit accumulation leaves it. */
  function RunningOffsets(sizes: seq<int32>): (r: seq<int32>)
    ensures |r| == |sizes|
  {
    seq(|sizes|, i requires 0 <= i < |sizes| => ToInt32(Prefix(sizes, i)))
  }

  // ---------- Splitting dimension 0 ----------

  datatype SplitError = NotDivisible | WrongCount | NegativeSize | WrongSum

  /** A split of `dim0` rows over `groupSize` peers; no sizes at all asks for equal shares. */
  ghost predicate ValidSplit(splitSizes: seq<int>, dim0: nat, groupSize: nat)
    requires groupSize > 0
  {
    if splitSizes == [] then dim0 % groupSize == 0
    else |splitSizes| == groupSize && NonNegative(splitSizes) && Total(splitSizes) == dim0
  }

  method ValidateSplitSizes(splitSizes: seq<int>, dim0: nat, groupSize: nat)
    returns (r: Result<(), SplitError>)
    requires groupSize > 0
    ensures r.Ok? <==> ValidSplit(splitSizes, dim0, groupSize)
    ensures r == Err(NegativeSize) <==> splitSizes != [] && |splitSizes| == groupSize && !NonNegative(splitSizes)
    ensures r == Err(WrongCount) <==> splitSizes != [] && |splitSizes| != groupSize
    ensures r == Err(NotDivisible) <==> splitSizes == [] && dim0 % groupSize != 0
    ensures r == Err(WrongSum) <==>
      splitSizes != [] && |splitSizes| == groupSize && NonNegative(splitSizes) && Total(splitSizes) != dim0
  {
    if splitSizes == [] {
      return if dim0 % groupSize == 0 then Ok(()) else Err(NotDivisible);
    }
    if |splitSizes| != groupSize {
      return Err(WrongCount);
    }
    for i := 0 to |splitSizes|
      invariant forall k :: 0 <= k < i ==> 0 <= splitSizes[k]
    {
      if splitSizes[i] < 0 {
        return Err(NegativeSize);
      }
    }
    var sum := 0;
    for i := 0 to |splitSizes|
      invariant sum == Prefix(splitSizes, i)
    {
      sum := sum + splitSizes[i];
    }
    return if sum == dim0 then Ok(()) else Err(WrongSum);
  }

  /** The 32-bit slice sizes the exchange works with. */
  method SliceSizes(splitSizes: seq<int>, dim0: nat, groupSize: nat) returns (sizes: seq<int32>)
    requires groupSize > 0 && ValidSplit(splitSizes, dim0, groupSize)
    ensures |sizes| == groupSize
    ensures forall i :: 0 <= i < groupSize ==>
      sizes[i] == ToInt32(if splitSizes == [] then dim0 / groupSize else splitSizes[i])
    ensures (NonNegative(sizes) && Total(sizes) == dim0) <==>
      if splitSizes == [] then dim0 / groupSize <= INT32_MAX
      else forall i :: 0 <= i < groupSize ==> splitSizes[i] <= INT32_MAX
  {
    var uniform := splitSizes == [];
    var share: int32 := if uniform then ToInt32(dim0 / groupSize) else 0;
    sizes := seq(groupSize, _ => 0);
    ghost var exact := if uniform then seq(groupSize, _ => dim0 / groupSize) else splitSizes;
    for i := 0 to groupSize
      invariant |sizes| == groupSize
      invariant forall k :: 0 <= k < i ==> sizes[k] == ToInt32(exact[k])
    {
      sizes := sizes[i := if uniform then share else ToInt32(splitSizes[i])];
    }
    if uniform {
      EqualSharesTotal(dim0 / groupSize, groupSize, groupSize);
    }
    NarrowedTotal(exact, sizes, groupSize);
    NarrowedIsExact(exact, sizes);
  }

  lemma {:induction false} EqualSharesTotal(share: nat, n: nat, k: nat)
    requires k <= n
    ensures Prefix(seq(n, _ => share), k) == share * k
  {
    if k == 0 {
    } else {
      EqualSharesTotal(share, n, k - 1);
    }
  }

  /** Narrowing never increases a non-negative size, and loses some of it beyond 32 bits. */
  lemma {:induction false} NarrowedTotal(exact: seq<int>, narrow: seq<int32>, n: nat)
    requires n <= |exact| == |narrow| && NonNegative(exact)
    requires forall i :: 0 <= i < |exact| ==> narrow[i] == ToInt32(exact[i])
    ensures Prefix(narrow, n) <= Prefix(exact, n)
    ensures Prefix(narrow, n) == Prefix(exact, n) <==> forall i :: 0 <= i < n ==> exact[i] <= INT32_MAX
  {
    if n == 0 {
    } else {
      NarrowedTotal(exact, narrow, n - 1);
      assert narrow[n - 1] <= exact[n - 1];
      assert narrow[n - 1] == exact[n - 1] <==> exact[n - 1] <= INT32_MAX;
    }
  }

  lemma NarrowedIsExact(exact: seq<int>, narrow: seq<int32>)
    requires |exact| == |narrow| && NonNegative(exact)
    requires forall i :: 0 <= i < |exact| ==> narrow[i] == ToInt32(exact[i])
    ensures (forall i :: 0 <= i < |exact| ==> exact[i] <= INT32_MAX) ==> NonNegative(narrow)
  {
    forall i | 0 <= i < |exact| && exact[i] <= INT32_MAX
      ensures narrow[i] == exact[i]
    {
    }
  }

  // ---------- One rank of the exchange ----------

  /** What the collective needs from one rank, and the buffer capacities it allocated. */
  datatype Call = Call(sendSizes: seq<int32>, recvSizes: seq<int32>, inputRows: int32, outputRows: int32)

  datatype RaggedAllToAllOffsets = RaggedAllToAllOffsets(
    inputOffsets: seq<int32>, sendSizes: seq<int32>, outputOffsets: seq<int32>, recvSizes: seq<int32>)

  datatype SyncFault = BadPayload | AsymmetricInput | AsymmetricOutput | SizeMismatch

  datatype SyncError = SyncError(peer: nat, fault: SyncFault)

  /** The first `n` entries of `offsets` are the running sums of `sizes`. */
  ghost predicate Filled(offsets: seq<int32>, sizes: seq<int32>, n: nat) {
    && n <= |offsets| == |sizes|
    && forall k :: 0 <= k < n ==> offsets[k] == ToInt32(Prefix(sizes, k))
  }

  lemma FillNext(offsets: seq<int32>, sizes: seq<int32>, n: nat, sum: int32)
    requires n < |sizes| && Filled(offsets, sizes, n) && sum == ToInt32(Prefix(sizes, n))
    ensures Filled(offsets[n := sum], sizes, n + 1)
    ensures ToInt32(sum + sizes[n]) == ToInt32(Prefix(sizes, n + 1))
  {
    ToInt32OfSum(Prefix(sizes, n), sizes[n]);
  }

  /** Local part of the exchange: both running sums, in one pass. */
  method LocalOffsets(sendSizes: seq<int32>, recvSizes: seq<int32>)
    returns (inputOffsets: seq<int32>, localOutputOffsets: seq<int32>)
    requires |sendSizes| == |recvSizes|
    ensures inputOffsets == RunningOffsets(sendSizes)
    ensures localOutputOffsets == RunningOffsets(recvSizes)
  {
    var n := |sendSizes|;
    inputOffsets, localOutputOffsets := seq(n, _ => 0), seq(n, _ => 0);
    var inOffset: int32, outOffset: int32 := 0, 0;
    for i := 0 to n
      invariant Filled(inputOffsets, sendSizes, i) && inOffset == ToInt32(Prefix(sendSizes, i))
      invariant Filled(localOutputOffsets, recvSizes, i) && outOffset == ToInt32(Prefix(recvSizes, i))
    {
      FillNext(inputOffsets, sendSizes, i, inOffset);
      FillNext(localOutputOffsets, recvSizes, i, outOffset);
      inputOffsets := inputOffsets[i := inOffset];
      inOffset := ToInt32(inOffset + sendSizes[i]);
      localOutputOffsets := localOutputOffsets[i := outOffset];
      outOffset := ToInt32(outOffset + recvSizes[i]);
    }
  }

  /** What a rank publishes: its placement offsets, its receive sizes and its two capacities. */
  function Payload(call: Call): (r: seq<int32>)
    ensures |r| == 2 + |call.recvSizes| + |call.recvSizes|
  {
    RunningOffsets(call.recvSizes) + call.recvSizes + [call.inputRows, call.outputRows]
  }

  /** The first check that a peer's payload fails, in the order the rank makes them. */
  function PeerFault(me: nat, call: Call, peer: nat, value: seq<int32>): Option<SyncFault>
    requires me < |call.sendSizes| && peer < |call.sendSizes|
  {
    var n := |call.sendSizes|;
    if |value| != 2 * n + 2 then Some(BadPayload)
    else if value[2 * n] != call.inputRows then Some(AsymmetricInput)
    else if value[2 * n + 1] != call.outputRows then Some(AsymmetricOutput)
    else if value[n + me] != call.sendSizes[peer] then Some(SizeMismatch)
    else None
  }

  /** The outcome of reading the peers' payloads from peer `from` on. */
  function ReadFrom(me: nat, call: Call, values: seq<seq<int32>>, from: nat): (r: Result<seq<int32>, SyncError>)
    requires me < |call.sendSizes| == |values| && from <= |values|
    ensures r.Ok? <==> forall p :: from <= p < |values| ==> PeerFault(me, call, p, values[p]) == None
    ensures r.Ok? ==> |r.value| == |values| - from
    ensures r.Ok? ==> forall p :: from <= p < |values| ==> me < |values[p]| && r.value[p - from] == values[p][me]
    ensures r.Err? ==> from <= r.error.peer < |values|
    ensures r.Err? ==> PeerFault(me, call, r.error.peer, values[r.error.peer]) == Some(r.error.fault)
    ensures r.Err? ==> forall p :: from <= p < r.error.peer ==> PeerFault(me, call, p, values[p]) == None
    decreases |values| - from
  {
    if from == |values| then Ok([])
    else
      match PeerFault(me, call, from, values[from])
      case Some(fault) => Err(SyncError(from, fault))
      case None =>
        match ReadFrom(me, call, values, from + 1)
        case Ok(rest) => Ok([values[from][me]] + rest)
        case Err(e) => Err(e)
  }

  /** Reading the peers' payloads: cross-checks each of them in turn and picks out the offset at
      which this rank's slice lands on that peer. */
  method ReadPeers(me: nat, call: Call, values: seq<seq<int32>>)
    returns (r: Result<seq<int32>, SyncError>)
    requires me < |call.sendSizes| == |values|
    ensures r == ReadFrom(me, call, values, 0)
  {
    var n := |values|;
    var outputOffsets: seq<int32> := seq(n, _ => 0);
    for peer := 0 to n
      invariant |outputOffsets| == n
      invariant forall p :: 0 <= p < peer ==>
        PeerFault(me, call, p, values[p]) == None && outputOffsets[p] == values[p][me]
    {
      if |values[peer]| != 2 * n + 2 {
        return Err(SyncError(peer, BadPayload));
      }
      if values[peer][2 * n] != call.inputRows {
        return Err(SyncError(peer, AsymmetricInput));
      }
      if values[peer][2 * n + 1] != call.outputRows {
        return Err(SyncError(peer, AsymmetricOutput));
      }
      if values[peer][n + me] != call.sendSizes[peer] {
        return Err(SyncError(peer, SizeMismatch));
      }
      outputOffsets := outputOffsets[peer := values[peer][me]];
    }
    r := Ok(outputOffsets);
    assert ReadFrom(me, call, values, 0).value == outputOffsets;
  }

  // ---------- The whole group ----------

  /** The calls of one collective, one per rank, sized for the group. */
  ghost predicate GroupCalls(calls: seq<Call>) {
    forall i :: 0 <= i < |calls| ==> |calls[i].sendSizes| == |calls[i].recvSizes| == |calls|
  }

  function Payloads(calls: seq<Call>): seq<seq<int32>> {
    seq(|calls|, i requires 0 <= i < |calls| => Payload(calls[i]))
  }

  /** What rank `me` learns from the exchange; a group of one skips it. */
  function Exchange(calls: seq<Call>, me: nat): (r: Result<seq<int32>, SyncError>)
    requires GroupCalls(calls) && me < |calls|
  {
    if |calls| <= 1 then Ok([0]) else ReadFrom(me, calls[me], Payloads(calls), 0)
  }

  ghost predicate ExchangeSucceeds(calls: seq<Call>) {
    GroupCalls(calls) && forall i :: 0 <= i < |calls| ==> Exchange(calls, i).Ok?
  }

  /** Every rank sends to each peer exactly what that peer expects from it. */
  ghost predicate Matched(calls: seq<Call>)
    requires GroupCalls(calls)
  {
    forall i, j :: 0 <= i < |calls| && 0 <= j < |calls| ==> calls[i].sendSizes[j] == calls[j].recvSizes[i]
  }

  ghost predicate SymmetricCapacities(calls: seq<Call>) {
    forall i, j :: 0 <= i < |calls| && 0 <= j < |calls| ==>
      calls[i].inputRows == calls[j].inputRows && calls[i].outputRows == calls[j].outputRows
  }

  /** One rank accepts exactly when everyone's capacities equal its own and every peer expects what
      it sends: a mismatch shows at its sender only. */
  lemma ExchangeAccepts(calls: seq<Call>, me: nat)
    requires GroupCalls(calls) && me < |calls| && 2 <= |calls|
    ensures Exchange(calls, me).Ok? <==> forall p :: 0 <= p < |calls| ==>
      calls[p].inputRows == calls[me].inputRows && calls[p].outputRows == calls[me].outputRows &&
      calls[p].recvSizes[me] == calls[me].sendSizes[p]
    ensures Exchange(calls, me).Ok? ==> |Exchange(calls, me).value| == |calls|
    ensures Exchange(calls, me).Ok? ==> forall p :: 0 <= p < |calls| ==>
      Exchange(calls, me).value[p] == ToInt32(Prefix(calls[p].recvSizes, me))
  {
    hide Payload, PeerFault;
    var n := |calls|;
    forall p | 0 <= p < n
      ensures PeerFault(me, calls[me], p, Payloads(calls)[p]) == None <==>
        calls[p].inputRows == calls[me].inputRows && calls[p].outputRows == calls[me].outputRows &&
        calls[p].recvSizes[me] == calls[me].sendSizes[p]
      ensures Payload(calls[p])[me] == ToInt32(Prefix(calls[p].recvSizes, me))
    {
      PeerAccepted(calls, me, p);
    }
  }

  lemma PeerAccepted(calls: seq<Call>, me: nat, p: nat)
    requires GroupCalls(calls) && me < |calls| && p < |calls|
    ensures PeerFault(me, calls[me], p, Payload(calls[p])) == None <==>
      calls[p].inputRows == calls[me].inputRows && calls[p].outputRows == calls[me].outputRows &&
      calls[p].recvSizes[me] == calls[me].sendSizes[p]
    ensures |Payload(calls[p])| == 2 * |calls| + 2 && Payload(calls[p])[me] == ToInt32(Prefix(calls[p].recvSizes, me))
  {
    var n := |calls|;
    assert n + me < 2 * n + 2;
  }

  /** The error that a rank returns names the first peer that it does not accept, and the first of the three
      things that differ: the send capacities, the receive capacities, the size. */
  lemma ExchangeErrorIs(calls: seq<Call>, me: nat)
    requires GroupCalls(calls) && me < |calls| && Exchange(calls, me).Err?
    ensures var p, fault := Exchange(calls, me).error.peer, Exchange(calls, me).error.fault;
      && p < |calls|
      && (forall q :: 0 <= q < p ==>
            && calls[q].inputRows == calls[me].inputRows && calls[q].outputRows == calls[me].outputRows
            && calls[q].recvSizes[me] == calls[me].sendSizes[q])
      && match fault
         case BadPayload => false
         case AsymmetricInput => calls[p].inputRows != calls[me].inputRows
         case AsymmetricOutput =>
           calls[p].inputRows == calls[me].inputRows && calls[p].outputRows != calls[me].outputRows
         case SizeMismatch =>
           && calls[p].inputRows == calls[me].inputRows && calls[p].outputRows == calls[me].outputRows
           && calls[p].recvSizes[me] != calls[me].sendSizes[p]
  {
    hide Payload, PeerFault;
    var p := Exchange(calls, me).error.peer;
    forall q | 0 <= q < p
      ensures PeerFault(me, calls[me], q, Payload(calls[q])) == None
    {
      assert Payloads(calls)[q] == Payload(calls[q]);
    }
    forall q | 0 <= q < p
      ensures calls[q].inputRows == calls[me].inputRows && calls[q].outputRows == calls[me].outputRows
      ensures calls[q].recvSizes[me] == calls[me].sendSizes[q]
    {
      PeerAccepted(calls, me, q);
    }
    assert Payloads(calls)[p] == Payload(calls[p]);
    PeerFaultIs(calls, me, p);
  }

  lemma PeerFaultIs(calls: seq<Call>, me: nat, p: nat)
    requires GroupCalls(calls) && me < |calls| && p < |calls|
    ensures PeerFault(me, calls[me], p, Payload(calls[p]))
      == if calls[p].inputRows != calls[me].inputRows then Some(AsymmetricInput)
         else if calls[p].outputRows != calls[me].outputRows then Some(AsymmetricOutput)
         else if calls[p].recvSizes[me] != calls[me].sendSizes[p] then Some(SizeMismatch)
         else None
  {
    var n := |calls|;
    assert n + me < 2 * n + 2;
  }

  /** The exchange succeeds on every rank exactly when all sizes match and all capacities are equal,
      except that a group of one is never checked. */
  lemma ExchangeSucceedsIff(calls: seq<Call>)
    requires GroupCalls(calls)
    ensures ExchangeSucceeds(calls) <==> |calls| <= 1 || (Matched(calls) && SymmetricCapacities(calls))
  {
    if 2 <= |calls| {
      forall i | 0 <= i < |calls| {
        ExchangeAccepts(calls, i);
      }
      if ExchangeSucceeds(calls) {
        forall i, j | 0 <= i < |calls| && 0 <= j < |calls|
          ensures calls[i].sendSizes[j] == calls[j].recvSizes[i] && calls[i].inputRows == calls[j].inputRows
          ensures calls[i].outputRows == calls[j].outputRows
        {
          assert Exchange(calls, i).Ok?;
        }
      }
    }
  }

  /** Unequal capacities anywhere in the group make every rank fail. */
  lemma AsymmetryFailsEverywhere(calls: seq<Call>, me: nat)
    requires GroupCalls(calls) && me < |calls| && !SymmetricCapacities(calls)
    ensures Exchange(calls, me).Err?
  {
    ExchangeAccepts(calls, me);
  }

  // ---------- Where the slices land ----------

  /** The slice of `size` rows at `offset` holds row `pos`. */
  ghost predicate InSlice(offset: int, size: int, pos: int) {
    offset <= pos < offset + size
  }

  ghost predicate Holds(offsets: seq<int>, sizes: seq<int>, i: int, pos: int)
    requires |offsets| == |sizes|
  {
    0 <= i < |sizes| && InSlice(offsets[i], sizes[i], pos)
  }

  ghost predicate Covered(offsets: seq<int>, sizes: seq<int>, pos: int)
    requires |offsets| == |sizes|
  {
    exists i :: Holds(offsets, sizes, i, pos)
  }

  /** The slices are pairwise disjoint and cover exactly the rows [0, total). */
  ghost predicate Tiles(offsets: seq<int>, sizes: seq<int>, total: int)
    requires |offsets| == |sizes|
  {
    && (forall i, j, pos :: Holds(offsets, sizes, i, pos) && Holds(offsets, sizes, j, pos) ==> i == j)
    && (forall pos :: (0 <= pos < total) <==> Covered(offsets, sizes, pos))
  }

  /** No non-empty slice starts beyond the 32-bit range. */
  ghost predicate Addressable(sizes: seq<int>) {
    forall i :: 0 <= i < |sizes| ==> 0 < sizes[i] ==> Prefix(sizes, i) <= INT32_MAX
  }

  lemma {:induction false} LocateRow(sizes: seq<int>, n: nat, pos: int) returns (i: nat)
    requires n <= |sizes| && NonNegative(sizes) && 0 <= pos < Prefix(sizes, n)
    ensures i < n && Prefix(sizes, i) <= pos < Prefix(sizes, i + 1)
  {
    if Prefix(sizes, n - 1) <= pos {
      i := n - 1;
    } else {
      i := LocateRow(sizes, n - 1, pos);
    }
  }

  lemma {:induction false} FirstOverflowIsNegative(sizes: seq<int32>, n: nat)
    requires n <= |sizes| && NonNegative(sizes)
    requires forall i :: 0 <= i < n ==> 0 < sizes[i] ==> Prefix(sizes, i) <= INT32_MAX
    ensures 0 <= Prefix(sizes, n) <= 2 * INT32_MAX
    ensures if Prefix(sizes, n) <= INT32_MAX then ToInt32(Prefix(sizes, n)) == Prefix(sizes, n)
      else ToInt32(Prefix(sizes, n)) < 0
  {
    if n == 0 {
    } else {
      FirstOverflowIsNegative(sizes, n - 1);
    }
  }

  /** The computed offsets tile the buffer exactly when no non-empty slice starts past 2^31 - 1. */
  lemma TilesIffAddressable(sizes: seq<int32>)
    requires NonNegative(sizes)
    ensures Tiles(RunningOffsets(sizes), sizes, Total(sizes)) <==> Addressable(sizes)
  {
    if Addressable(sizes) {
      AddressableTiles(sizes);
    } else {
      var i := LeastUnaddressable(sizes, 0);
      FirstOverflowIsNegative(sizes, i);
      assert RunningOffsets(sizes)[i] < 0;
      assert Holds(RunningOffsets(sizes), sizes, i, RunningOffsets(sizes)[i]);
      assert Covered(RunningOffsets(sizes), sizes, RunningOffsets(sizes)[i]);
    }
  }

  lemma LeastUnaddressable(sizes: seq<int>, from: nat) returns (i: nat)
    requires from <= |sizes| && !Addressable(sizes)
    requires forall k :: 0 <= k < from ==> 0 < sizes[k] ==> Prefix(sizes, k) <= INT32_MAX
    ensures i < |sizes| && 0 < sizes[i] && INT32_MAX < Prefix(sizes, i)
    ensures forall k :: 0 <= k < i ==> 0 < sizes[k] ==> Prefix(sizes, k) <= INT32_MAX
    decreases |sizes| - from
  {
    hide Prefix;
    if from < |sizes| && 0 < sizes[from] && INT32_MAX < Prefix(sizes, from) {
      i := from;
    } else {
      i := LeastUnaddressable(sizes, from + 1);
    }
  }

  /** Under 32 bits a non-empty slice starts at its exact running sum, inside the buffer. */
  lemma SliceStart(sizes: seq<int32>, i: nat)
    requires i < |sizes| && NonNegative(sizes) && Addressable(sizes)
    ensures 0 <= Prefix(sizes, i) <= Prefix(sizes, i + 1) <= Total(sizes)
    ensures 0 < sizes[i] ==> RunningOffsets(sizes)[i] == Prefix(sizes, i)
  {
    PrefixMonotone(sizes, 0, i);
    PrefixMonotone(sizes, i + 1, |sizes|);
    if 0 < sizes[i] {
      ToInt32InRange(Prefix(sizes, i));
    }
  }

  /** The rows of a slice are those between its running sum and the next. */
  lemma HoldsAtPrefix(sizes: seq<int32>, i: int, pos: int)
    requires NonNegative(sizes) && Addressable(sizes)
    ensures Holds(RunningOffsets(sizes), sizes, i, pos) <==>
      0 <= i < |sizes| && Prefix(sizes, i) <= pos < Prefix(sizes, i + 1)
  {
    if 0 <= i < |sizes| {
      SliceStart(sizes, i);
    }
  }

  lemma AddressableTiles(sizes: seq<int32>)
    requires NonNegative(sizes) && Addressable(sizes)
    ensures Tiles(RunningOffsets(sizes), sizes, Total(sizes))
  {
    hide ToInt32, Addressable;
    var offsets := RunningOffsets(sizes);
    forall i, j, pos | Holds(offsets, sizes, i, pos) && Holds(offsets, sizes, j, pos)
      ensures i == j
    {
      HoldsAtPrefix(sizes, i, pos);
      HoldsAtPrefix(sizes, j, pos);
      if i < j {
        PrefixMonotone(sizes, i + 1, j);
      } else if j < i {
        PrefixMonotone(sizes, j + 1, i);
      }
    }
    forall pos
      ensures (0 <= pos < Total(sizes)) <==> Covered(offsets, sizes, pos)
    {
      if 0 <= pos < Total(sizes) {
        var i := LocateRow(sizes, |sizes|, pos);
        HoldsAtPrefix(sizes, i, pos);
      }
      if Covered(offsets, sizes, pos) {
        var i :| Holds(offsets, sizes, i, pos);
        HoldsAtPrefix(sizes, i, pos);
        PrefixMonotone(sizes, 0, i);
        PrefixMonotone(sizes, i + 1, |sizes|);
      }
    }
  }

  /** What a rank learns is the receiver's own running sum for it. */
  lemma LearnedOffset(calls: seq<Call>, src: nat, dst: nat)
    requires ExchangeSucceeds(calls) && src < |calls| && dst < |calls|
    ensures Exchange(calls, src).Ok? && |Exchange(calls, src).value| == |calls|
    ensures Exchange(calls, src).value[dst] == RunningOffsets(calls[dst].recvSizes)[src]
  {
    assert Exchange(calls, src).Ok?;
    if 2 <= |calls| {
      ExchangeAccepts(calls, src);
    }
  }

  /** The offsets and sizes of the slices that the group writes to rank `dst`. */
  function OffsetsTo(calls: seq<Call>, dst: nat): (r: seq<int>)
    requires ExchangeSucceeds(calls) && dst < |calls|
    ensures |r| == |calls|
  {
    seq(|calls|, i requires 0 <= i < |calls| => (LearnedOffset(calls, i, dst); Exchange(calls, i).value[dst]))
  }

  function SizesTo(calls: seq<Call>, dst: nat): (r: seq<int32>)
    requires GroupCalls(calls) && dst < |calls|
    ensures |r| == |calls|
  {
    seq(|calls|, i requires 0 <= i < |calls| => calls[i].sendSizes[dst])
  }

  // ---------- Negative sizes, as narrowing may make them ----------

  ghost predicate NonPositive(sizes: seq<int>) {
    forall i :: 0 <= i < |sizes| ==> sizes[i] <= 0
  }

  function Positive(x: int): nat {
    if x < 0 then 0 else x
  }

  /** How many rows the first `n` slices hold, counting each slice by itself. */
  function RowCount(sizes: seq<int>, n: nat): nat
    requires n <= |sizes|
  {
    if n == 0 then 0 else RowCount(sizes, n - 1) + Positive(sizes[n - 1])
  }

  ghost function Rows(offset: int, size: int): set<int> {
    set pos | offset <= pos < offset + size && InSlice(offset, size, pos)
  }

  lemma {:induction false} RowsCount(offset: int, size: int)
    ensures |Rows(offset, size)| == Positive(size)
    decreases Positive(size)
  {
    if size <= 0 {
      assert Rows(offset, size) == {};
    } else {
      RowsCount(offset, size - 1);
      assert Rows(offset, size) == Rows(offset, size - 1) + {offset + size - 1};
    }
  }

  /** The rows that the first `n` slices hold together. */
  ghost function HeldRows(offsets: seq<int>, sizes: seq<int>, n: nat): set<int>
    requires n <= |sizes| == |offsets|
  {
    if n == 0 then {} else HeldRows(offsets, sizes, n - 1) + Rows(offsets[n - 1], sizes[n - 1])
  }

  lemma {:induction false} HeldBySome(offsets: seq<int>, sizes: seq<int>, n: nat, pos: int)
    requires n <= |sizes| == |offsets|
    ensures pos in HeldRows(offsets, sizes, n) <==> exists i :: 0 <= i < n && Holds(offsets, sizes, i, pos)
  {
    if n == 0 {
    } else {
      HeldBySome(offsets, sizes, n - 1, pos);
      assert pos in Rows(offsets[n - 1], sizes[n - 1]) <==> Holds(offsets, sizes, n - 1, pos);
    }
  }

  lemma HeldApart(offsets: seq<int>, sizes: seq<int>, total: int, n: nat)
    requires n < |sizes| == |offsets| && Tiles(offsets, sizes, total)
    ensures HeldRows(offsets, sizes, n) !! Rows(offsets[n], sizes[n])
  {
    forall pos: int
      ensures !(pos in HeldRows(offsets, sizes, n) && pos in Rows(offsets[n], sizes[n]))
    {
      HeldBySome(offsets, sizes, n, pos);
      assert pos in Rows(offsets[n], sizes[n]) <==> Holds(offsets, sizes, n, pos);
    }
  }

  /** Disjoint slices hold as many rows together as one by one. */
  lemma {:induction false} HeldRowsCount(offsets: seq<int>, sizes: seq<int>, total: int, n: nat)
    requires n <= |sizes| == |offsets| && Tiles(offsets, sizes, total)
    ensures |HeldRows(offsets, sizes, n)| == RowCount(sizes, n)
  {
    hide Tiles, Rows;
    if n == 0 {
    } else {
      HeldRowsCount(offsets, sizes, total, n - 1);
      RowsCount(offsets[n - 1], sizes[n - 1]);
      HeldApart(offsets, sizes, total, n - 1);
    }
  }

  lemma TilesCount(offsets: seq<int>, sizes: seq<int>, total: int)
    requires |offsets| == |sizes| && Tiles(offsets, sizes, total)
    ensures RowCount(sizes, |sizes|) == Positive(total)
  {
    HeldRowsCount(offsets, sizes, total, |sizes|);
    RowsCount(0, total);
    forall pos
      ensures pos in HeldRows(offsets, sizes, |sizes|) <==> pos in Rows(0, total)
    {
      HeldBySome(offsets, sizes, |sizes|, pos);
      assert pos in Rows(0, total) <==> 0 <= pos < total;
      assert Covered(offsets, sizes, pos) <==> exists i :: 0 <= i < |sizes| && Holds(offsets, sizes, i, pos);
    }
    assert HeldRows(offsets, sizes, |sizes|) == Rows(0, total);
  }

  /** Negative sizes make the sum smaller than the number of rows. */
  lemma {:induction false} RowCountExceedsTotal(sizes: seq<int>, n: nat)
    requires n <= |sizes|
    ensures RowCount(sizes, n) >= Prefix(sizes, n)
    ensures (exists i :: 0 <= i < n && sizes[i] < 0) ==> RowCount(sizes, n) > Prefix(sizes, n)
    ensures (exists i :: 0 <= i < n && sizes[i] > 0) ==> RowCount(sizes, n) > 0
  {
    if n == 0 {
    } else {
      RowCountExceedsTotal(sizes, n - 1);
    }
  }

  /** For sizes of any sign: the computed slices tile the buffer exactly when no size is negative and no
      non-empty slice starts beyond 32 bits, or when there is no positive size at all. */
  lemma TilesExactly(sizes: seq<int32>)
    ensures Tiles(RunningOffsets(sizes), sizes, Total(sizes)) <==>
      NonPositive(sizes) || (NonNegative(sizes) && Addressable(sizes))
  {
    if NonNegative(sizes) {
      TilesIffAddressable(sizes);
      if NonPositive(sizes) {
        assert Addressable(sizes);
      }
    } else if NonPositive(sizes) {
      NonPositiveTiles(RunningOffsets(sizes), sizes);
    } else {
      RowCountExceedsTotal(sizes, |sizes|);
      if Tiles(RunningOffsets(sizes), sizes, Total(sizes)) {
        TilesCount(RunningOffsets(sizes), sizes, Total(sizes));
      }
    }
  }

  lemma NonPositiveTiles(offsets: seq<int>, sizes: seq<int>)
    requires |offsets| == |sizes| && NonPositive(sizes)
    ensures Tiles(offsets, sizes, Total(sizes))
  {
    NonPositiveTotal(sizes, |sizes|);
    forall pos
      ensures !Covered(offsets, sizes, pos)
    {
      forall i
        ensures !Holds(offsets, sizes, i, pos)
      {
      }
    }
  }

  lemma {:induction false} NonPositiveTotal(sizes: seq<int>, n: nat)
    requires n <= |sizes| && NonPositive(sizes)
    ensures Prefix(sizes, n) <= 0
  {
    if n == 0 {
    } else {
      NonPositiveTotal(sizes, n - 1);
    }
  }

  lemma OneSliceTiles(size: int, total: int)
    ensures Tiles([0], [size], total) <==> Positive(size) == Positive(total)
  {
    var offsets, sizes := [0], [size];
    forall pos
      ensures Covered(offsets, sizes, pos) <==> 0 <= pos < size
    {
      assert Holds(offsets, sizes, 0, pos) <==> 0 <= pos < size;
    }
    assert Covered(offsets, sizes, Positive(total)) <==> Positive(total) < size;
    assert Covered(offsets, sizes, Positive(size)) <==> false;
  }

  /** When the exchange succeeds on every rank, purely local prefix sums make the remote writes to any
      rank tile its receive buffer, exactly when its sizes tile it (see `TilesExactly`); a group of
      one, which the exchange never checks, has to send itself what it expects. */
  lemma RemoteWritesTileIff(calls: seq<Call>, dst: nat)
    requires ExchangeSucceeds(calls) && dst < |calls|
    ensures Tiles(OffsetsTo(calls, dst), SizesTo(calls, dst), Total(calls[dst].recvSizes)) <==>
      if |calls| == 1 then Positive(calls[0].sendSizes[0]) == Positive(calls[0].recvSizes[0])
      else NonPositive(calls[dst].recvSizes) || (NonNegative(calls[dst].recvSizes) && Addressable(calls[dst].recvSizes))
  {
    ExchangeSucceedsIff(calls);
    var recv := calls[dst].recvSizes;
    if |calls| == 1 {
      var send := calls[0].sendSizes;
      assert OffsetsTo(calls, dst) == [0] && SizesTo(calls, dst) == [send[0]];
      assert Total(recv) == Prefix(recv, 0) + recv[0] == recv[0];
      OneSliceTiles(send[0], recv[0]);
    } else {
      forall i | 0 <= i < |calls|
        ensures OffsetsTo(calls, dst)[i] == RunningOffsets(recv)[i]
      {
        LearnedOffset(calls, i, dst);
      }
      assert OffsetsTo(calls, dst) == RunningOffsets(recv);
      assert SizesTo(calls, dst) == recv;
      TilesExactly(recv);
    }
  }
}
