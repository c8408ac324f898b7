/** The offset exchange as a protocol: ranks run their uneven all-to-all rounds at their own pace and
    meet only in a key-value store. A rank takes a round number, publishes its payload under that
    number, waits until every peer has published under it, and checks what it reads. */
module OffsetExchange {
  import opened Prelude
  import opened RaggedOffsets

  type Outcome = Result<seq<int32>, SyncError>

  /** Store entries are keyed by round and rank. */
  type Entries = map<(nat, nat), seq<int32>>

  datatype Phase = Idle | Publishing | Fetching

  /** `rounds` counts the round numbers taken so far; the last one is in progress unless Idle. */
  datatype RankState = RankState(rounds: nat, phase: Phase, outcomes: seq<Outcome>)

  datatype State = State(ranks: seq<RankState>, entries: Entries)

  /** programs[r] lists the calls of rank r's uneven rounds, in program order. */
  type Programs = seq<seq<Call>>

  ghost predicate WellSized(programs: Programs) {
    forall r, k :: 0 <= r < |programs| && 0 <= k < |programs[r]| ==>
      |programs[r][k].sendSizes| == |programs[r][k].recvSizes| == |programs|
  }

  function Init(programs: Programs): State {
    State(seq(|programs|, _ => RankState(0, Idle, [])), map[])
  }

  // ---------- Steps ----------

  ghost predicate CanBegin(programs: Programs, s: State, r: nat) {
    r < |s.ranks| == |programs| && s.ranks[r].phase == Idle && s.ranks[r].rounds < |programs[r]|
  }

  /** A rank takes its next round number; alone in its group it is done with the round at once. */
  ghost function Begin(programs: Programs, s: State, r: nat): State
    requires CanBegin(programs, s, r)
  {
    var rank := s.ranks[r];
    s.(ranks := s.ranks[r :=
      if |programs| <= 1 then rank.(rounds := rank.rounds + 1, outcomes := rank.outcomes + [Ok([0])])
      else rank.(rounds := rank.rounds + 1, phase := Publishing)])
  }

  ghost predicate CanPublish(programs: Programs, s: State, r: nat) {
    r < |s.ranks| == |programs| && s.ranks[r].phase == Publishing && 0 < s.ranks[r].rounds <= |programs[r]|
  }

  ghost function Publish(programs: Programs, s: State, r: nat): State
    requires CanPublish(programs, s, r)
  {
    var rank := s.ranks[r];
    State(s.ranks[r := rank.(phase := Fetching)],
          s.entries[(rank.rounds - 1, r) := Payload(programs[r][rank.rounds - 1])])
  }

  /** All `n` peers have published under the round's number. */
  ghost predicate AllPublished(entries: Entries, round: nat, n: nat) {
    forall p: nat :: p < n ==> (round, p) in entries
  }

  /** What the store returns for the round's keys, in rank order. */
  function PeerValues(entries: Entries, round: nat, n: nat): (values: seq<seq<int32>>)
    requires AllPublished(entries, round, n)
    ensures |values| == n
  {
    seq(n, p requires 0 <= p < n => entries[(round, p)])
  }

  /** The wait for the peers is over once all their keys of the round exist. */
  ghost predicate CanFetch(programs: Programs, s: State, r: nat) {
    && r < |s.ranks| == |programs| && s.ranks[r].phase == Fetching && 0 < s.ranks[r].rounds <= |programs[r]|
    && |programs[r][s.ranks[r].rounds - 1].sendSizes| == |programs|
    && AllPublished(s.entries, s.ranks[r].rounds - 1, |programs|)
  }

  /** The payloads a rank fetches for its round. */
  ghost function Fetched(programs: Programs, s: State, r: nat): (values: seq<seq<int32>>)
    requires CanFetch(programs, s, r)
    ensures |values| == |programs|
  {
    PeerValues(s.entries, s.ranks[r].rounds - 1, |programs|)
  }

  /** Success or failure, the round is used up. */
  ghost function Fetch(programs: Programs, s: State, r: nat): State
    requires CanFetch(programs, s, r)
  {
    var rank := s.ranks[r];
    var outcome := ReadFrom(r, programs[r][rank.rounds - 1], Fetched(programs, s, r), 0);
    s.(ranks := s.ranks[r := rank.(phase := Idle, outcomes := rank.outcomes + [outcome])])
  }

  ghost predicate StepOf(programs: Programs, s: State, s': State, r: nat) {
    || (CanBegin(programs, s, r) && s' == Begin(programs, s, r))
    || (CanPublish(programs, s, r) && s' == Publish(programs, s, r))
    || (CanFetch(programs, s, r) && s' == Fetch(programs, s, r))
  }

  ghost predicate Next(programs: Programs, s: State, s': State) {
    exists r: nat :: StepOf(programs, s, s', r)
  }

  /** A run: any interleaving of the ranks' steps from the initial state. */
  ghost predicate Run(programs: Programs, trace: seq<State>) {
    && 0 < |trace| && trace[0] == Init(programs)
    && forall i :: 0 <= i < |trace| - 1 ==> Next(programs, trace[i], trace[i + 1])
  }

  // ---------- What every step keeps ----------

  ghost predicate HasRound(programs: Programs, k: nat) {
    forall p :: 0 <= p < |programs| ==> k < |programs[p]|
  }

  /** The calls that the ranks make in their k-th round. */
  ghost function Round(programs: Programs, k: nat): (calls: seq<Call>)
    requires WellSized(programs) && HasRound(programs, k)
    ensures |calls| == |programs| && GroupCalls(calls)
  {
    seq(|programs|, p requires 0 <= p < |programs| => programs[p][k])
  }

  function Published(rank: RankState): int {
    if rank.phase == Publishing then rank.rounds - 1 else rank.rounds
  }

  ghost predicate RankInv(programs: Programs, r: nat, rank: RankState)
    requires WellSized(programs) && r < |programs|
  {
    && rank.rounds <= |programs[r]|
    && (rank.phase != Idle ==> 0 < rank.rounds && 2 <= |programs|)
    && |rank.outcomes| == (if rank.phase == Idle then rank.rounds else rank.rounds - 1)
    && forall k :: 0 <= k < |rank.outcomes| ==>
      HasRound(programs, k) && rank.outcomes[k] == Exchange(Round(programs, k), r)
  }

  /** The store holds exactly what the ranks have published so far. */
  ghost predicate EntriesInv(programs: Programs, s: State)
    requires |s.ranks| == |programs|
  {
    && (forall key :: key in s.entries ==> IsPublished(s, key) && HoldsPayload(programs, key, s.entries[key]))
    && (2 <= |programs| ==> forall key :: IsPublished(s, key) ==> key in s.entries)
  }

  ghost predicate IsPublished(s: State, key: (nat, nat)) {
    key.1 < |s.ranks| && key.0 < Published(s.ranks[key.1])
  }

  ghost predicate HoldsPayload(programs: Programs, key: (nat, nat), value: seq<int32>) {
    key.1 < |programs| && key.0 < |programs[key.1]| && value == Payload(programs[key.1][key.0])
  }

  ghost predicate Inv(programs: Programs, s: State)
    requires WellSized(programs)
  {
    && |s.ranks| == |programs|
    && (forall r :: 0 <= r < |programs| ==> RankInv(programs, r, s.ranks[r]))
    && EntriesInv(programs, s)
  }

  /** Whatever a rank fetches in a round is what its peers published in that same round, although
      peers may already be rounds ahead, so it concludes what the round's calls determine. */
  lemma FetchSeesOwnRound(programs: Programs, s: State, r: nat)
    requires WellSized(programs) && Inv(programs, s) && CanFetch(programs, s, r)
    ensures HasRound(programs, s.ranks[r].rounds - 1)
    ensures Fetched(programs, s, r) == Payloads(Round(programs, s.ranks[r].rounds - 1))
    ensures ReadFrom(r, programs[r][s.ranks[r].rounds - 1], Fetched(programs, s, r), 0) ==
      Exchange(Round(programs, s.ranks[r].rounds - 1), r)
  {
    hide Payload, ReadFrom;
    var k := s.ranks[r].rounds - 1;
    assert RankInv(programs, r, s.ranks[r]);
    forall p: nat | p < |programs|
      ensures k < |programs[p]| && s.entries[(k, p)] == Payload(programs[p][k])
    {
      assert (k, p) in s.entries && HoldsPayload(programs, (k, p), s.entries[(k, p)]);
    }
    assert Fetched(programs, s, r) == Payloads(Round(programs, k));
  }

  /** Changing one rank leaves the invariant of the others alone. */
  lemma RanksKept(programs: Programs, s: State, s': State, r: nat)
    requires WellSized(programs) && Inv(programs, s) && r < |programs|
    requires |s'.ranks| == |programs| && s'.ranks == s.ranks[r := s'.ranks[r]]
    requires RankInv(programs, r, s'.ranks[r])
    ensures forall q :: 0 <= q < |programs| ==> RankInv(programs, q, s'.ranks[q])
  {
    forall q | 0 <= q < |programs|
      ensures RankInv(programs, q, s'.ranks[q])
    {
      assert RankInv(programs, q, s.ranks[q]);
    }
  }

  lemma BeginKeepsInv(programs: Programs, s: State, r: nat)
    requires WellSized(programs) && Inv(programs, s) && CanBegin(programs, s, r)
    ensures Inv(programs, Begin(programs, s, r))
  {
    hide Payload, ReadFrom;
    var s' := Begin(programs, s, r);
    assert RankInv(programs, r, s.ranks[r]);
    if |programs| == 1 {
      assert HasRound(programs, s.ranks[r].rounds);
    }
    RanksKept(programs, s, s', r);
    assert forall key :: IsPublished(s, key) ==> IsPublished(s', key);
    assert 2 <= |programs| ==> forall key :: IsPublished(s', key) ==> IsPublished(s, key);
  }

  lemma PublishKeepsInv(programs: Programs, s: State, r: nat)
    requires WellSized(programs) && Inv(programs, s) && CanPublish(programs, s, r)
    ensures Inv(programs, Publish(programs, s, r))
  {
    hide Payload, ReadFrom;
    var s' := Publish(programs, s, r);
    var key := (s.ranks[r].rounds - 1, r);
    assert RankInv(programs, r, s.ranks[r]);
    RanksKept(programs, s, s', r);
    assert forall other :: IsPublished(s', other) <==> IsPublished(s, other) || other == key;
    assert s'.entries[key] == Payload(programs[r][s.ranks[r].rounds - 1]);
  }

  lemma FetchKeepsInv(programs: Programs, s: State, r: nat)
    requires WellSized(programs) && Inv(programs, s) && CanFetch(programs, s, r)
    ensures Inv(programs, Fetch(programs, s, r))
  {
    hide Payload, ReadFrom, Exchange;
    var s' := Fetch(programs, s, r);
    assert RankInv(programs, r, s.ranks[r]);
    FetchSeesOwnRound(programs, s, r);
    RanksKept(programs, s, s', r);
    assert forall key :: IsPublished(s', key) <==> IsPublished(s, key);
  }

  lemma StepKeepsInv(programs: Programs, s: State, s': State, r: nat)
    requires WellSized(programs) && Inv(programs, s) && StepOf(programs, s, s', r)
    ensures Inv(programs, s')
  {
    hide Inv;
    if CanBegin(programs, s, r) {
      BeginKeepsInv(programs, s, r);
    } else if CanPublish(programs, s, r) {
      PublishKeepsInv(programs, s, r);
    } else {
      FetchKeepsInv(programs, s, r);
    }
  }

  lemma {:induction false} RunKeepsInv(programs: Programs, trace: seq<State>, i: nat)
    requires WellSized(programs) && Run(programs, trace) && i < |trace|
    ensures Inv(programs, trace[i])
  {
    if i == 0 {
    } else {
      RunKeepsInv(programs, trace, i - 1);
      assert Next(programs, trace[i - 1], trace[i - 1 + 1]);
      var r: nat :| StepOf(programs, trace[i - 1], trace[i], r);
      StepKeepsInv(programs, trace[i - 1], trace[i], r);
    }
  }

  // ---------- Safety and progress over whole runs ----------

  ghost predicate Finished(programs: Programs, s: State) {
    |s.ranks| == |programs| && forall r :: 0 <= r < |programs| ==> |s.ranks[r].outcomes| == |programs[r]|
  }

  ghost predicate SameRounds(programs: Programs) {
    forall p, q :: 0 <= p < |programs| && 0 <= q < |programs| ==> |programs[p]| == |programs[q]|
  }

  /** In every reachable state, what a rank concluded in round k is what the calls of the k-th rounds
      determine, whatever the interleaving. */
  lemma OutcomesAreDetermined(programs: Programs, trace: seq<State>, i: nat, r: nat, k: nat)
    requires WellSized(programs) && Run(programs, trace) && i < |trace| && r < |programs|
    requires r < |trace[i].ranks| && k < |trace[i].ranks[r].outcomes|
    ensures HasRound(programs, k) && trace[i].ranks[r].outcomes[k] == Exchange(Round(programs, k), r)
  {
    RunKeepsInv(programs, trace, i);
    assert RankInv(programs, r, trace[i].ranks[r]);
  }

  /** Unequal capacities in a round make every rank that completes it fail. */
  lemma AsymmetricRoundFails(programs: Programs, trace: seq<State>, i: nat, r: nat, k: nat)
    requires WellSized(programs) && Run(programs, trace) && i < |trace| && r < |programs|
    requires r < |trace[i].ranks| && k < |trace[i].ranks[r].outcomes|
    requires HasRound(programs, k) && !SymmetricCapacities(Round(programs, k))
    ensures trace[i].ranks[r].outcomes[k].Err?
  {
    OutcomesAreDetermined(programs, trace, i, r, k);
    AsymmetryFailsEverywhere(Round(programs, k), r);
  }

  /** In some run every rank has completed its k-th round successfully. */
  ghost predicate RoundSucceeded(programs: Programs, trace: seq<State>, i: nat, k: nat) {
    && WellSized(programs) && Run(programs, trace) && i < |trace|
    && |trace[i].ranks| == |programs| && HasRound(programs, k)
    && forall r :: 0 <= r < |programs| ==> k < |trace[i].ranks[r].outcomes| && trace[i].ranks[r].outcomes[k].Ok?
  }

  /** A round that every rank completed successfully is a successful exchange of that round's calls. */
  lemma SuccessfulRound(programs: Programs, trace: seq<State>, i: nat, k: nat)
    requires RoundSucceeded(programs, trace, i, k)
    ensures ExchangeSucceeds(Round(programs, k))
    ensures forall r :: 0 <= r < |programs| ==> Exchange(Round(programs, k), r) == trace[i].ranks[r].outcomes[k]
  {
    forall r | 0 <= r < |programs|
      ensures Exchange(Round(programs, k), r) == trace[i].ranks[r].outcomes[k]
    {
      OutcomesAreDetermined(programs, trace, i, r, k);
    }
  }

  /** Some rank among the first `n` that is fetching and has taken the fewest rounds. */
  lemma {:induction false} SlowestFetcher(s: State, n: nat) returns (r: nat)
    requires n <= |s.ranks| && exists p :: 0 <= p < n && s.ranks[p].phase == Fetching
    ensures r < n && s.ranks[r].phase == Fetching
    ensures forall p :: 0 <= p < n && s.ranks[p].phase == Fetching ==> s.ranks[r].rounds <= s.ranks[p].rounds
  {
    if exists p :: 0 <= p < n - 1 && s.ranks[p].phase == Fetching {
      r := SlowestFetcher(s, n - 1);
      if s.ranks[n - 1].phase == Fetching && s.ranks[n - 1].rounds < s.ranks[r].rounds {
        r := n - 1;
      }
    } else {
      r := n - 1;
    }
  }

  /** If all ranks have the same number of rounds, a state that is not finished can always step. */
  lemma UnfinishedCanStep(programs: Programs, s: State) returns (s': State)
    requires WellSized(programs) && SameRounds(programs) && Inv(programs, s) && !Finished(programs, s)
    ensures Next(programs, s, s')
  {
    hide Payload, ReadFrom;
    var q :| 0 <= q < |programs| && |s.ranks[q].outcomes| != |programs[q]|;
    assert RankInv(programs, q, s.ranks[q]);
    if r :| 0 <= r < |programs| && s.ranks[r].phase == Idle && s.ranks[r].rounds < |programs[r]| {
      s' := Begin(programs, s, r);
      assert StepOf(programs, s, s', r);
    } else if r :| 0 <= r < |programs| && s.ranks[r].phase == Publishing {
      assert RankInv(programs, r, s.ranks[r]);
      s' := Publish(programs, s, r);
      assert StepOf(programs, s, s', r);
    } else {
      assert s.ranks[q].phase == Fetching;
      var r := SlowestFetcher(s, |programs|);
      var round := s.ranks[r].rounds - 1;
      assert RankInv(programs, r, s.ranks[r]);
      forall p: nat | p < |programs|
        ensures (round, p) in s.entries
      {
        assert RankInv(programs, p, s.ranks[p]);
        assert IsPublished(s, (round, p));
      }
      assert CanFetch(programs, s, r);
      s' := Fetch(programs, s, r);
      assert StepOf(programs, s, s', r);
    }
  }

  /** The steps a rank still has to take. */
  ghost function Remaining(programs: Programs, s: State, n: nat): int
    requires n <= |programs| == |s.ranks|
  {
    if n == 0 then 0
    else
      var rank := s.ranks[n - 1];
      var perRound := if |programs| <= 1 then 1 else 3;
      Remaining(programs, s, n - 1) + perRound * (|programs[n - 1]| - rank.rounds) +
        (match rank.phase case Idle => 0 case Publishing => 2 case Fetching => 1)
  }

  lemma {:induction false} StepUsesUp(programs: Programs, s: State, s': State, r: nat, n: nat)
    requires StepOf(programs, s, s', r) && n <= |programs|
    ensures |s'.ranks| == |programs|
    ensures Remaining(programs, s', n) == Remaining(programs, s, n) - if r < n then 1 else 0
  {
    hide Payload, ReadFrom;
    if n == 0 {
    } else {
      StepUsesUp(programs, s, s', r, n - 1);
    }
  }

  lemma {:induction false} RemainingNonNegative(programs: Programs, s: State, n: nat)
    requires WellSized(programs) && Inv(programs, s) && n <= |programs|
    ensures 0 <= Remaining(programs, s, n)
    ensures (forall r :: 0 <= r < n ==> |s.ranks[r].outcomes| == |programs[r]|) ==> Remaining(programs, s, n) == 0
  {
    if n == 0 {
    } else {
      RemainingNonNegative(programs, s, n - 1);
      assert RankInv(programs, n - 1, s.ranks[n - 1]);
    }
  }

  lemma {:induction false} RunLength(programs: Programs, trace: seq<State>, i: nat)
    requires WellSized(programs) && Run(programs, trace) && i < |trace|
    ensures |trace[i].ranks| == |programs|
    ensures Remaining(programs, trace[i], |programs|) == Remaining(programs, Init(programs), |programs|) - i
  {
    RunKeepsInv(programs, trace, i);
    if i == 0 {
    } else {
      RunLength(programs, trace, i - 1);
      assert Next(programs, trace[i - 1], trace[i - 1 + 1]);
      var r: nat :| StepOf(programs, trace[i - 1], trace[i], r);
      StepUsesUp(programs, trace[i - 1], trace[i], r, |programs|);
    }
  }

  /** No interleaving deadlocks or runs forever: with equally many rounds everywhere, every run either
      has finished all rounds on all ranks, or extends by a step, and none exceeds a fixed length. */
  lemma EveryRunCompletes(programs: Programs, trace: seq<State>)
    requires WellSized(programs) && Run(programs, trace) && SameRounds(programs)
    ensures |trace| - 1 <= Remaining(programs, Init(programs), |programs|)
    ensures var last := trace[|trace| - 1];
      Finished(programs, last) || exists s' :: Run(programs, trace + [s'])
  {
    var last := trace[|trace| - 1];
    RunKeepsInv(programs, trace, |trace| - 1);
    RunLength(programs, trace, |trace| - 1);
    RemainingNonNegative(programs, last, |programs|);
    if !Finished(programs, last) {
      var s' := UnfinishedCanStep(programs, last);
      var longer := trace + [s'];
      forall i | 0 <= i < |longer| - 1
        ensures Next(programs, longer[i], longer[i + 1])
      {
        if i < |trace| - 1 {
          assert Next(programs, trace[i], trace[i + 1]);
        }
      }
      assert Run(programs, longer);
    }
  }

  /** Equally many rounds are also needed: a finished run of several ranks shows that they had them. */
  lemma FinishedNeedsSameRounds(programs: Programs, trace: seq<State>)
    requires WellSized(programs) && Run(programs, trace) && Finished(programs, trace[|trace| - 1])
    ensures SameRounds(programs)
  {
    var last := trace[|trace| - 1];
    forall p, q | 0 <= p < |programs| && 0 <= q < |programs|
      ensures |programs[p]| <= |programs[q]|
    {
      if 0 < |programs[p]| {
        OutcomesAreDetermined(programs, trace, |trace| - 1, p, |programs[p]| - 1);
      }
    }
  }

  // ---------- One rank's calls, as it makes them ----------

  class Store {
    var entries: Entries

    constructor ()
      ensures entries == map[]
    {
      entries := map[];
    }

    method Set(round: nat, rank: nat, value: seq<int32>)
      modifies this
      ensures entries == old(entries)[(round, rank) := value]
    {
      entries := entries[(round, rank) := value];
    }
  }

  class Rank {
    const rank: nat
    var alltoallSeq: nat

    constructor (rank: nat)
      ensures this.rank == rank && alltoallSeq == 0
    {
      this.rank := rank;
      alltoallSeq := 0;
    }

    /** Takes a round number and publishes this rank's payload under it, before any waiting; a group of
        one publishes nothing. */
    method Publish(store: Store, call: Call) returns (round: nat)
      requires |call.sendSizes| == |call.recvSizes|
      modifies this`alltoallSeq, store
      ensures round == old(alltoallSeq) && alltoallSeq == old(alltoallSeq) + 1
      ensures store.entries == if |call.sendSizes| <= 1 then old(store.entries)
                               else old(store.entries)[(round, rank) := Payload(call)]
    {
      round := alltoallSeq;
      alltoallSeq := alltoallSeq + 1;
      var inputOffsets, localOutputOffsets := LocalOffsets(call.sendSizes, call.recvSizes);
      if |call.sendSizes| <= 1 {
        return;
      }
      var n := |call.recvSizes|;
      var payload := new int32[2 * n + 2](_ => 0);
      for i := 0 to n
        modifies payload
        invariant forall k :: 0 <= k < i ==> payload[k] == localOutputOffsets[k] && payload[n + k] == call.recvSizes[k]
      {
        payload[i] := localOutputOffsets[i];
        payload[n + i] := call.recvSizes[i];
      }
      payload[2 * n] := call.inputRows;
      payload[2 * n + 1] := call.outputRows;
      assert payload[..] == Payload(call);
      store.Set(round, rank, payload[..]);
    }

    /** Reads all peers' payloads of the round, which exist by the time the wait is over; a group of one
        neither waits nor checks. */
    method Fetch(store: Store, call: Call, round: nat) returns (outcome: Outcome)
      requires rank < |call.sendSizes|
      requires |call.sendSizes| <= 1 || AllPublished(store.entries, round, |call.sendSizes|)
      ensures outcome == if |call.sendSizes| <= 1 then Ok([0])
                         else ReadFrom(rank, call, PeerValues(store.entries, round, |call.sendSizes|), 0)
    {
      if |call.sendSizes| <= 1 {
        return Ok([0]);
      }
      var values: seq<seq<int32>> := [];
      for p := 0 to |call.sendSizes|
        invariant |values| == p && forall q :: 0 <= q < p ==> values[q] == store.entries[(round, q)]
      {
        values := values + [store.entries[(round, p)]];
      }
      assert values == PeerValues(store.entries, round, |call.sendSizes|);
      outcome := ReadPeers(rank, call, values);
    }
  }
}
