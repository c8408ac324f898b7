# Verification of the TPU backend's communication and compilation core

Dafny models of the parts of the backend whose correctness depends on several functions, processes or
ranks at once, with proofs about all inputs, all interleavings and all runs. `dafny verify dfyconfig.toml`
checks everything.

- **Ragged all-to-all.** Ranks publish the running sums of their receive sizes in a key-value store, wait
  for everyone's, check them and learn where their slices land (`RaggedOffsets`, `OffsetExchange`). The
  slices that are then written tile every output, in whatever order they arrive, and the result is the
  block transpose (`RaggedDelivery`). Subgroups are found by summing tables (`Subgroups`).
- **Compilation cache.** A class with its map of write-once promises, its index of bounded dynamic shapes,
  its modes and counters, proved equal to a specification on values (`CompilationCaches`), and what its
  answers and results are (`CacheAnswers`); whole runs of requests, tasks with their tier-2 lock, backup
  tasks, mode switches and evictions (`CacheRuns`), with the exact conditions under which promises can be
  set and evictions end (`CacheProgress`) and tasks wait for each other under the lock (`Tier2Waits`); the
  file cache shared by processes (`Tier2Protocol`, `AtomicWrite`); the marking of dynamic shapes, their
  bounds and their resolution (`Dynamism`, `DynamicRequests`).
- **Cache keys.** Fingerprints and parameter encodings (`Fingerprints`, `ParamKeys`), the flat signature of
  a graph with its decoder (`GraphSignatures`), the keys of pad and slice modules and what these make
  (`AdapterKeys`, `AdapterResults`).
- **Smaller cores.** The override merge (`OptionOverrides`), the typed context stack (`ContextStacks`),
  version comparison (`LibtpuVersions`), the two argument splitters (`ArgSplit`). `Prelude` and `Orders` hold
  what several of them share.

Code that works step by step is modelled by classes, methods and loops; each such method is proved equal
to a function of its inputs or of the old state, and the properties are proved of that function. Protocols
are transition systems over their steps. 32-bit integers wrap around; hash functions are free constructors.

Where the code does less than its comments or names suggest, the exact condition is proved:

- Offsets are 32-bit running sums. The written slices tile an output of non-negative sizes exactly when each
  non-empty one starts within 32 bits there (`RaggedOffsets.RemoteWritesTileIff`), and stay inside all buffers
  exactly when that holds for what every rank sends and receives (`RaggedDelivery.FitsIffAddressable`). A group
  of one rank skips all checks, so that mismatched sizes pass there (`RaggedOffsets.ExchangeSucceedsIff`).
- A size mismatch is an error on the sending rank only (`RaggedOffsets.ExchangeAccepts`).
- The comment on the lookup result (csrc/common/compilation_cache.h:319-320) says that a disabled cache
  always asks for compilation; a hit in a disabled cache does not (`CompilationCaches.AskByRoute`). The
  comment on setting an executable demands that its key is in the map; the code also accepts a missing key
  (`CompilationCaches.CompilationCache.SetExecutable`).
- Cache-only mode makes entries when caching is disabled (`CompilationCaches.CacheOnlyInserts`).
- The check that a new key is not in the map fails for the second of two equal requests exactly when one of
  their sizes lies outside its own bounds (`CompilationCaches.AskTwiceCrashes`), and after requests during an
  eviction (`CacheRuns.RequestsDuringEvictionsCrash`); `CompilationCaches.AskCrashesIff` says when, by what the
  cache holds. The first kind of request exists only at the cache's own interface: marking a tensor refuses
  such bounds (`Dynamism.MarksKeepSound`), so that for marked tensors only the second condition is left
  (`CacheRuns.MarkedRunsNeverCrash`).
- A promise may be lost: nobody will ever set it, and evictions that wait for it never end
  (`CacheProgress.CanBeSetIffNotLost`, `CacheProgress.EvictionEndsIff`). A failed adapter creation orphans one;
  one request and one eviction are enough (`CacheProgress.AbandonedRequestBlocksEviction`).
- The other way: a task that has compiled waits for its key's promise while it holds the tier-2 lock. If its
  entry has been dropped and made again, the new entry's task may wait for that lock, and neither ever ends
  (`Tier2Waits.WaitEndsIff`). An eviction does it, and so does switching caching off and on
  (`Tier2Waits.EvictionDeadlocks`, `Tier2Waits.ModeSwitchDeadlocks`); without either it cannot happen
  (`Tier2Waits.NoDeadlockWithoutEviction`).
- The hashed padded sizes of a slice module are those of the module only if the sizes that are not dynamic
  agree with their bounds (`AdapterKeys.SliceKeyFitsModule`).
- The override merge is described as an update in place; it appends options that are present once an absent
  one has been passed, and so lists them twice (`OptionOverrides.DuplicatesExactly`), in eager mode every
  override of a TPU default (`OptionOverrides.EagerModeListsTwice`). The last occurrence is
  still the right one (`OptionOverrides.MergeIsUpdate`).
- The two argument splitters differ on texts whose last piece is blank (`ArgSplit.SplittersAgree`).

## Model

| member | source | states |
|---|---|---|
| RaggedOffsets.ValidateSplitSizes | csrc/distributed/process_group_tpu.cc:237-263 | Accepts exactly: no sizes and a first dimension divisible by the group size, or one non-negative size per rank with the first dimension as their sum; each of the four errors is returned exactly when its check is the first to fail. |
| RaggedOffsets.SliceSizes | csrc/distributed/process_group_tpu.cc:1560-1576 | One size per rank, the exact one read as 32 bits; the sizes are non-negative and sum to the first dimension if and only if every exact size fits into 32 bits. |
| RaggedOffsets.NarrowedTotal | csrc/distributed/process_group_tpu.cc:1560-1579 | Narrowed sizes never sum to more than the exact ones, and to the same if and only if all of them fit into 32 bits. |
| RaggedOffsets.LocalOffsets | csrc/distributed/process_group_tpu.cc:480-501 | The in-place loop fills both offset vectors with the 32-bit running sums of the send and of the receive sizes. |
| RaggedOffsets.ReadPeers | csrc/distributed/process_group_tpu.cc:425-470 | Checks the peers in order and stops at the first fault; without one, returns for every peer the offset it published for this rank. |
| RaggedOffsets.ExchangeAccepts | csrc/distributed/process_group_tpu.cc:425-470 | A rank accepts a round if and only if everyone's capacities equal its own and every peer expects what it sends; a size mismatch shows at its sender only. |
| RaggedOffsets.ExchangeErrorIs | csrc/distributed/process_group_tpu.cc:425-457 | The error names the first peer that is not accepted and the first thing that differs: the send capacities, the receive capacities, the size. |
| RaggedOffsets.ExchangeSucceedsIff | csrc/distributed/process_group_tpu.cc:388-472 | All ranks accept if and only if all pairs of sizes match and all capacities are equal, or the group has at most one rank: a group of one is never checked. |
| RaggedOffsets.AsymmetryFailsEverywhere | csrc/distributed/process_group_tpu.cc:433-457 | Two ranks with different capacities make every rank of the group return an error. |
| RaggedOffsets.FirstOverflowIsNegative | csrc/distributed/process_group_tpu.cc:491-501 | As long as every earlier non-empty slice starts within 32 bits, the next running sum is at most 2^32 - 2, and read as 32 bits it is exact if it fits and negative otherwise. |
| RaggedOffsets.TilesIffAddressable | csrc/distributed/process_group_tpu.cc:491-501 | 32-bit running sums cut [0, total) into disjoint slices that cover it if and only if every non-empty slice starts within 32 bits. |
| RaggedOffsets.TilesExactly | csrc/distributed/process_group_tpu.cc:491-501 | For sizes of any sign, narrowed ones included, 32-bit running sums cut [0, total) into disjoint slices that cover it if and only if no size is positive, or none is negative and every non-empty slice starts within 32 bits. |
| RaggedOffsets.LearnedOffset | csrc/distributed/process_group_tpu.cc:469-508 | After a successful round the offset that a sender holds for a receiver is the receiver's own running sum at that sender. |
| RaggedDelivery.PlansAgree | csrc/distributed/process_group_tpu.cc:480-510 | After a checked exchange each rank expects from every peer exactly what that peer's collective is given to send, and reads at its own 32-bit running sums. |
| RaggedOffsets.RemoteWritesTileIff | csrc/distributed/process_group_tpu.cc:383-510 | After a successful exchange the slices written to a rank are pairwise disjoint and cover its output exactly, if and only if its sizes, of any sign, are all at most zero, or none is negative and each non-empty slice starts within 32 bits; in a group of one, never checked, if and only if it sends itself as many rows as it expects. |
| OffsetExchange.FetchSeesOwnRound | csrc/distributed/process_group_tpu.cc:397-423 | Whenever a rank may fetch, the values under its round's keys are the peers' payloads of that same round. |
| OffsetExchange.StepKeepsInv | csrc/distributed/process_group_tpu.cc:397-472 | Every begin, publish or fetch of any rank keeps: entries are payloads of their own round, and outcomes are those of whole rounds. |
| OffsetExchange.RunKeepsInv | csrc/distributed/process_group_tpu.cc:397-472 | The invariant holds in every state of every interleaving. |
| OffsetExchange.OutcomesAreDetermined | csrc/distributed/process_group_tpu.cc:397-472 | In every run the outcome of a rank's round depends on the calls of that round only, not on the interleaving. |
| OffsetExchange.AsymmetricRoundFails | csrc/distributed/process_group_tpu.cc:433-457 | In every run a round with unequal capacities has an error as outcome on each rank that finished it. |
| OffsetExchange.SuccessfulRound | csrc/distributed/process_group_tpu.cc:397-472 | A round that succeeded on all ranks in some run is a successful exchange of that round's calls, with the outcomes the ranks hold. |
| OffsetExchange.UnfinishedCanStep | csrc/distributed/process_group_tpu.cc:397-423 | If all ranks make the same number of uneven calls, some rank that has not finished can always take a step. |
| OffsetExchange.EveryRunCompletes | csrc/distributed/process_group_tpu.cc:1583-1587 | With equal numbers of calls every run has bounded length, and a run that has not finished on all ranks can go on, also after failed checks. |
| OffsetExchange.FinishedNeedsSameRounds | csrc/distributed/process_group_tpu.cc:1691-1696 | A run can only finish on all ranks if they make the same number of calls. |
| OffsetExchange.Rank.Publish | csrc/distributed/process_group_tpu.cc:399-411 | Takes the next sequence number and publishes this round's payload before waiting; nothing else in the store changes, and a group of one publishes nothing. |
| OffsetExchange.Rank.Fetch | csrc/distributed/process_group_tpu.cc:413-472 | With all payloads of the round in the store, gives what the checks over them in rank order give; a group of one learns the offset zero without any check. |
| RaggedDelivery.DeliverLands | csrc/distributed/alltoall.cc:185-225 | If all non-empty slices start within 32 bits, which FitsIffAddressable shows to be necessary, delivering one slice at the learned offset puts the sender's block into its place, stays inside the buffers and leaves all slices that have landed before. |
| RaggedDelivery.FitsIffAddressable | csrc/distributed/alltoall.cc:185-225 | After a successful, matched exchange all slices lie within their buffers if and only if on every rank each non-empty slice it sends and each it receives starts within 32 bits. |
| RaggedDelivery.AnyOrderTransposes | csrc/distributed/alltoall.cc:185-225 | Whatever the order in which the slices arrive: if on every rank the non-empty slices sent and received start within 32 bits, every output becomes the rank-ordered concatenation of the blocks sent to it; otherwise some slice leaves its buffers. |
| RaggedDelivery.SuccessfulRoundTransposes | csrc/distributed/process_group_tpu.cc:383-510 | From the protocol to the data: a round that succeeded on all ranks in some run, groups of one included, delivered in any order, transposes the blocks if and only if the sizes match, as all checked groups' do, and all non-empty slices start within 32 bits on both sides. |
| RaggedDelivery.SwappedRunRestores | csrc/distributed/alltoall.cc:185-225 | Transposing the blocks with the sizes swapped gives back every rank's input. |
| RaggedDelivery.TwoRoundsRestore | csrc/distributed/process_group_tpu.cc:383-510 | Of two successful rounds of one program, the second with send and receive sizes swapped and the outputs of the first as inputs, the second restores every rank's input, in whatever orders their slices arrive. |
| RaggedDelivery.SliceTensorsAlongDim0 | csrc/distributed/alltoall.cc:162-181 | Piece i is what lies between the running sums before and after size i. |
| RaggedDelivery.SliceUniform | csrc/distributed/alltoall.cc:139-155 | Cuts a tensor into equal pieces. |
| RaggedDelivery.RaggedListPath | csrc/distributed/alltoall.cc:185-225 | After a round that succeeded on all ranks for calls made of lists of tensors, slices arriving in any order: the slices stay in their buffers exactly when all non-empty ones start within 32 bits, and then cutting each output by the receive sizes returns, from every peer, exactly the tensor that peer listed. |
| RaggedDelivery.UniformPathAgrees | csrc/distributed/alltoall.cc:112-156 | With all sizes equal, concatenating, all-to-all on dimension 0 and slicing returns the same tensors as the ragged path. |
| Subgroups.Normalize | csrc/distributed/types.cc:34-42 | Returns the strictly ascending list of exactly the given groups. |
| Subgroups.NormalFormIffSameGroups | csrc/distributed/types.cc:34-42 | Two lists have the same normal form if and only if they hold the same groups, in whatever order and however often. |
| Subgroups.GetLogicalDeviceId | csrc/distributed/process_group_tpu.cc:1859-1865 | The place of a device in the slice's list, and none for a device that is not in it. |
| Subgroups.OwnTable | csrc/distributed/process_group_tpu.cc:1807-1818 | The zero table with the process's own row filled with the logical ids of its group. |
| Subgroups.GroupsOfTable | csrc/distributed/process_group_tpu.cc:1847-1856 | Reads a table row by row and normalizes the rows. |
| Subgroups.SumHoldsGroups | csrc/distributed/process_group_tpu.cc:1784-1856 | The sum of all processes' tables holds the groups of the partition as its rows, and nothing else. |
| Subgroups.PartitionCounts | csrc/distributed/process_group_tpu.cc:718-720 | A partition into groups of one size has world size / group size different groups. |
| Subgroups.GatherFindsAllGroups | csrc/distributed/process_group_tpu.cc:1784-1857 | If the process groups partition the devices, every process gets the same list: all groups, world size / group size of them. |
| Subgroups.WholeSliceAgrees | csrc/distributed/process_group_tpu.cc:750-765 | For a group of all devices the trivial list is what the exchange would have found. |
| Fingerprints.FingerprintSpan | csrc/common/fingerprint_utils.h:70-79 | The loop computes the seeded fold over the span. |
| Fingerprints.FoldInjective | csrc/common/fingerprint_utils.h:70-79 | Folds over spans can be taken apart: equal ones have the same seed and elements. |
| Fingerprints.OfSpanInjective | csrc/common/fingerprint_utils.h:70-88 | Fingerprints of spans are equal if and only if the spans are. |
| Fingerprints.FingerprintCatInjective | csrc/common/fingerprint_utils.h:172-195 | Concatenations of equally many parts are equal if and only if all parts are. |
| Fingerprints.OfPairsInjective | csrc/common/fingerprint_utils.h:100-109 | Lists of names and fingerprints have equal fingerprints if and only if they are equal. |
| Fingerprints.DimensionsKeyInjective | csrc/common/cache_key.h:788-792 | Dimension keys of 64-bit sizes are equal if and only if the sizes are. |
| Fingerprints.BoundsKeyInjective | csrc/common/cache_key.cc:283-297 | Bounds keys are equal if and only if all upper and all lower bounds are. |
| Fingerprints.DimensionsMeetBounds | csrc/common/cache_key.h:788-795 | A key of sizes equals a key of bounds only when there are no dimensions at all. |
| ParamKeys.EncodeParamCacheKeyForRange | csrc/common/cache_key.h:424-442 | The loop computes the encoding of the range, seeded with the fingerprint of the empty string. |
| ParamKeys.EncodeInjective | csrc/common/cache_key.h:307-313 | For every type built from numbers, text, scalars, optionals, pairs and ranges, equal encodings come from equal values, but for the sign of zeros. |
| ParamKeys.EncodeIffSame | csrc/common/cache_key.h:398-486 | Equal encodings of one type and equal values up to the sign of zeros are the same thing. |
| ParamKeys.EncodeIffAlike | csrc/common/cache_key.h:398-486 | Values of one type have equal encodings if and only if they are equal but for doubles that are zeros of different signs, wherever they occur. |
| ParamKeys.OpParamCacheKeys.SetParam | csrc/common/cache_key.h:581-614 | Adds the encoding under the name, unless it is that of the empty string, which leaves the map as it was. |
| ParamKeys.OrderIrrelevant | csrc/common/cache_key.h:581-614 | Setting parameters in any order gives the map of all encodings that are not that of the empty string. |
| ParamKeys.ParamsDetermined | csrc/common/cache_key.h:581-614 | For a fixed set of typed names two maps are equal if and only if all values are, although empty encodings are dropped. |
| GraphSignatures.DecodeEncode | csrc/common/cache_key.cc:535-606 | The flat lists can be decoded: the decoder returns every graph that was encoded. |
| GraphSignatures.KeyDeterminesGraph | csrc/common/cache_key.cc:608-619 | Graph keys are equal if and only if inputs, ops, edges, parameters, outputs, sizes, element types, pinning mode and the set of donated tensors are. |
| GraphSignatures.ShapelessKeyDetermines | csrc/common/cache_key.cc:608-619 | Shapeless keys are equal if and only if the graphs are equal up to the sizes of dimensions, with ranks preserved. |
| GraphSignatures.GraphSignature.AddTensor | csrc/common/cache_key.cc:535-544 | Appends the tensor to the flat lists and returns its number. |
| GraphSignatures.GraphSignature.AddInput | csrc/common/cache_key.cc:546-557 | The described graph has one more input; all flat lists are its encoding again. |
| GraphSignatures.GraphSignature.AddOp | csrc/common/cache_key.cc:568-602 | The described graph has one more op with the streamed inputs, outputs and parameters and its donated tensors; all flat lists are its encoding again. |
| GraphSignatures.GraphSignature.Stream | csrc/common/cache_key.cc:559-566 | The op's own calls append its inputs and its output tensors in the order of the calls. |
| GraphSignatures.EventsInOrder | csrc/common/cache_key.cc:559-566 | One input for each call that names one and one output for each that adds one, in the order of the calls. |
| GraphSignatures.GraphSignature.Donate | csrc/common/cache_key.cc:591-597 | Each donated tensor is remembered once; the set is that of the picked inputs. |
| GraphSignatures.GraphSignature.AddGraphOutput | csrc/common/cache_key.cc:604-606 | The described graph has one more result. |
| GraphSignatures.GraphSignature.GetKey | csrc/common/cache_key.cc:608-619 | The key is that of the described graph, whatever the order in which tensors were donated. |
| Dynamism.DimensionBoundsOf | csrc/common/cache_key.cc:308-336 | Computes for all dimensions of all tensors their last annotation's bounds, or their own size twice. |
| Dynamism.AnnotationDecides | csrc/common/cache_key.cc:308-336 | Without annotations a tensor's bounds are its own sizes; each further annotation gives its dimension its own bounds and changes no other. |
| Dynamism.IsStaticShapeCompatible | csrc/common/cache_key.cc:340-350 | Accepts exactly the requests with as many sizes as bounds and every size within its bounds. |
| Dynamism.CompatibleIff | csrc/common/cache_key.cc:340-350 | For bounds given tensor by tensor: compatible exactly if every size lies between the lower and the upper bound at its place. |
| Dynamism.ResolvePaddingShapes | csrc/common/compilation_cache.cc:607-637 | Splits the flat bounds over the tensors in order and makes each tensor's runtime, padded and marked shape from its own row. |
| Dynamism.CompatibleRows | csrc/common/compilation_cache.cc:607-620 | For a compatible request the rows join to all bounds, none lost, and each tensor's sizes lie within its own row. |
| Dynamism.AnnotationsAreExact | csrc/common/compilation_cache.cc:623-631 | Exactly the dimensions whose bounds differ are marked, once each and in order. |
| Dynamism.MarkedDescribesBounds | csrc/common/compilation_cache.cc:623-635 | A marked tensor describes its row of bounds again if and only if its sizes agree with the bounds that are not dynamic. |
| Dynamism.ResolvedRoundTrip | csrc/common/compilation_cache.cc:607-637 | From bounds to marked shapes and back to bounds is the identity for compatible requests. |
| Dynamism.ResolvedDominates | csrc/common/compilation_cache.cc:607-637 | Padded sizes are at least the runtime sizes, equal where the bounds are, and a dimension is marked exactly where they differ. |
| Dynamism.ResolvedKeeps | csrc/common/compilation_cache.cc:607-637 | All three shapes have the tensor's element type; run-time and marked shapes have its sizes, the padded one the upper bounds, and only the marked one is annotated. |
| Dynamism.OwnBounds | csrc/common/cache_key.cc:383-402 | The bounds made from a request accept it if and only if each size is within the bounds the request itself gives it. |
| Dynamism.DeviceBufferList.MarkDynamic | csrc/eager/device_buffer.cc:570-606 | The first failing check decides the error and leaves all shapes; otherwise the mark's dimension gets the bounds, replacing an earlier annotation of it. |
| Dynamism.MarkDecides | csrc/eager/device_buffer.cc:570-606 | By its arguments: each error comes exactly when its check is the first to fail; otherwise the given bounds become those of that dimension, and no other tensor, dimension, size or type changes. |
| Dynamism.MarkSetsBounds | csrc/eager/device_buffer.cc:592-604 | A mark that is not refused decides the bounds that its dimension has afterwards. |
| Dynamism.MarksKeepSound | csrc/eager/device_buffer.cc:570-606 | After any sequence of marks, refused ones included, every annotation is within its tensor's rank, with each size inside its bounds. |
| Dynamism.MarkedTensorsFit | csrc/eager/device_buffer.cc:570-606 | A tensor annotated by marks alone, starting without annotations, fits its own bounds. |
| AdapterKeys.PadModuleCacheKey | csrc/common/cache_key.cc:411-462 | The key is that of the pad module's graph: inputs, paddings, and in full mode one size op per annotation. |
| AdapterKeys.PadKeyDetermines | csrc/common/cache_key.cc:411-462 | Pad keys are equal if and only if for every tensor the sizes, element type, dynamism, padded sizes and, in full mode, the sequence of dynamic dimensions are; of two modes only for tensors that are all static. |
| AdapterResults.PadResults | csrc/common/cache_key.cc:411-462 | The pad graph returns for each of its inputs in order: the input itself, or a tensor with all upper bounds followed in full mode by one 32-bit number per annotation. |
| AdapterKeys.PadKeyDeterminesModule | csrc/internal/dynamism/dynamism_ops.cc:171-212 | Requests with the same pad key build the same pad module, in either mode and across modes; what that module is, PadModuleIs says. |
| AdapterKeys.PaddedToUppers | csrc/common/compilation_cache.cc:643-668 | For compatible requests the sizes to which a marked tensor is padded are those of the resolved padded shape. |
| AdapterKeys.PadModuleIs | csrc/internal/dynamism/dynamism_ops.cc:171-212 | The module made for a compatible request: its arguments are the tensors with elements in order, with their run-time sizes and types; each is returned as it is if its bounds are equal, and padded to the upper bounds otherwise, followed in full mode by its size in each dimension whose bounds differ, in order. |
| AdapterKeys.SliceModuleCacheKey | csrc/common/cache_key.cc:464-502 | The key is that of the slice module's graph: one slice for every tensor whose target differs from its padded sizes. |
| AdapterKeys.SliceKeyDetermines | csrc/common/cache_key.cc:464-502 | Slice keys are equal if and only if targets, padded sizes and element types are. |
| AdapterResults.SliceResults | csrc/common/cache_key.cc:464-502 | The slice graph returns one tensor for each padded one, with the target's sizes and its element type. |
| AdapterKeys.GetSliceModuleCacheKey | csrc/common/cache_key.cc:504-533 | Hashes for every tensor the upper bound where its bounds differ and its own size elsewhere. |
| AdapterKeys.SliceKeyFitsModule | csrc/common/compilation_cache.cc:672-723 | The hashed padded sizes are those the slice builder uses if and only if the sizes that are not dynamic agree with their bounds. |
| AdapterKeys.WithinBoundsFits | csrc/common/compilation_cache.cc:684-696 | For outputs within their bounds the hashed padded sizes equal the builder's. |
| CompilationCaches.CompilationCache.GetStaticCacheEntry | csrc/common/compilation_cache.cc:409-426 | A hit is counted and leads to the entry's promise; a miss changes nothing. |
| CompilationCaches.CompilationCache.AddStaticCacheEntry | csrc/common/compilation_cache.cc:437-447 | Makes an entry with a new promise; a key that is there already is the failed check. |
| CompilationCaches.CompilationCache.AddBoundedDynamicCacheEntry | csrc/common/compilation_cache.cc:449-481 | Appends to the graph's bounded dynamic entries and makes the static entry that the new one names. |
| CompilationCaches.CompilationCache.GetOrCreateCacheEntry | csrc/common/compilation_cache.cc:483-559 | The whole lookup with its recursive dynamic hit equals the specification on values, including state, counters and modes. |
| CompilationCaches.CompilationCache.CountAndLookUp | csrc/common/compilation_cache.cc:790-800 | The critical section of a request: counted, then looked up or created under the key of its graph, sizes and options. |
| CompilationCaches.CompilationCache.SetExecutable | csrc/common/compilation_cache.cc:879-921 | Sets the promise of the key once, to the given result; a missing key or a set promise changes nothing; without caching the entry is dropped. |
| CompilationCaches.CompilationCache.TrySetExecutablePromise | csrc/common/compilation_cache.cc:256-279 | Sets a promise to the given result unless it is set already. |
| CompilationCaches.CompilationCache.IsExecutableReady | csrc/common/compilation_cache.cc:561-568 | True exactly when the key is in the map and its promise is set. |
| CompilationCaches.CompilationCache.EvictRound | csrc/common/compilation_cache.cc:309-333 | One round drops exactly the listed keys whose promise is set, and keeps on the list those that are there and not ready. |
| CompilationCaches.CompilationCache.ClearBoundedDynamicCache | csrc/common/compilation_cache.cc:335-338 | The end of an eviction empties the second index and nothing else. |
| CompilationCaches.AskByRoute | csrc/common/compilation_cache.cc:483-559 | Which of the eight ways a request goes, by what the cache holds before it, and what each does to the cache and answers. |
| CompilationCaches.AskCrashesIff | csrc/common/compilation_cache.cc:437-559 | A request runs into the failed check if and only if caching is on, compiling is allowed, the request is annotated, its own key is missing, no entry of its graph fits it, and the key for its own bounds is in the map. |
| CompilationCaches.AskKeepsKeys | csrc/common/compilation_cache.cc:437-481 | Every entry of the map leads to the promise that was made for its key. |
| CompilationCaches.AskKeepsEntries | csrc/common/compilation_cache.cc:449-481 | Every bounded dynamic entry names the key that its own graph, options and bounds have. |
| CompilationCaches.AskKeepsCover | csrc/common/compilation_cache.cc:449-481 | Every executable compiled for bounds can still be found through the second index. |
| CompilationCaches.AskConserves | csrc/common/compilation_cache.cc:409-426 | Requests are hits, new entries and refusals; exactly the answers that need no compilation are counted as hits. |
| CompilationCaches.CacheOnlyInserts | csrc/common/compilation_cache.cc:488-540 | In cache-only mode a request makes an entry if and only if caching is disabled and its key is missing; with caching enabled never. |
| CompilationCaches.StorageKeyIsKeyOfPromise | csrc/common/compilation_cache.cc:804-812 | The key under which the caller has the executable compiled is the key of the entry whose future it returns. |
| CompilationCaches.SelfFittingNeverCrashes | csrc/common/compilation_cache.cc:437-481 | A request whose sizes lie within its own bounds never meets its new key in the map. |
| CompilationCaches.DynamicHitIsSound | csrc/common/compilation_cache.cc:513-528 | An answer with metadata belongs to an executable for the same graph and options with all sizes of the request within its bounds, unless the request made the entry itself. |
| CompilationCaches.AskAgain | csrc/common/compilation_cache.cc:483-559 | The same request straight after gets the same promise as a hit, except that a request that does not fit its own new entry runs into the failed check. |
| CompilationCaches.AskTwiceCrashes | csrc/common/compilation_cache.cc:437-559 | From an empty cache the second of two equal requests runs into the failed check if and only if it is annotated and some size lies outside its own bounds; requests of marked tensors never are (MarkedTensorsFit). |
| CacheAnswers.KeyDeterminesRequest | csrc/common/cache_key.cc:608-619 | Two requests have the same key if and only if their graphs, sizes and options are the same. |
| CacheAnswers.MiddleKeyDetermines | csrc/common/compilation_cache.cc:449-481 | Two keys for bounds are the same if and only if graph, options and all lower and upper bounds are. |
| CacheAnswers.OwnKeyAnswer | csrc/common/compilation_cache.cc:483-500 | With its own key in the map a request gets that entry's promise; with caching off and the key missing, a new one. |
| CacheAnswers.EntryAnswer | csrc/common/compilation_cache.cc:505-538 | With caching on and its own key missing, a request gets the executable and the metadata of the first entry of its graph that has its options and contains all its sizes, made again if its key is gone, or is refused in cache-only mode. |
| CacheAnswers.NewAnswer | csrc/common/compilation_cache.cc:532-559 | If no entry fits, an annotated request makes one with the bounds of its own inputs and outputs, any other request a static one. |
| CacheAnswers.AnswersShareIff | csrc/common/compilation_cache.cc:483-559 | Of two requests in a row answered without metadata, both get the same promise if and only if graph, sizes and options are the same. |
| CacheAnswers.SettingIsExact | csrc/common/compilation_cache.cc:256-279 | A promise that is set stays; an unset one gets exactly the given result, and no other changes. |
| CacheAnswers.SettleIsExact | csrc/common/compilation_cache.cc:879-921 | The unset promise of the key's entry gets exactly the given result; everything else stays, but for the entry if caching is off; in all other cases nothing changes. |
| CacheRuns.StepKeeps | csrc/common/compilation_cache.cc:786-921 | Every step of requests, callers, tasks with their tier-2 reads and lock, backup tasks, modes and evictions keeps the invariant. |
| CacheRuns.RunKeeps | csrc/common/compilation_cache.cc:786-1062 | The invariant holds in every state of every run. |
| CacheRuns.StepKeepsSound | csrc/common/compilation_cache.cc:932-1062 | Every step also keeps: at most one task is inside the critical section of a key, and whoever waits there waits for a promise of its own key. |
| CacheRuns.LockGivenUp | csrc/common/compilation_cache.cc:965-1070 | A task inside the critical section leaves it only by loading the file after all, by finding no entry any more, or once the promise that it has found there is set. |
| CacheRuns.UnsetPromisesHaveOwners | csrc/common/compilation_cache.cc:281-341 | In every run in which no adapter creation fails, an unset promise is in the map under its key and has an owner: its caller, a queued or running task, or a backup task. |
| CacheRuns.QuietMeansSet | csrc/common/compilation_cache.cc:852-921 | When all callers and tasks are done, every promise is set, with a result for its own key. |
| CacheAnswers.SharedPromisesAreOfSameRequests | csrc/common/compilation_cache.cc:786-812 | In every run, requests that are answered without metadata with the same promise are for the same graph, sizes and options. |
| CacheAnswers.ResultIsDelivered | csrc/common/compilation_cache.cc:852-921 | The promise that a step sets holds, in every continuation, exactly what the step has delivered: failure for a failed module, success for what was loaded, the compiler's verdict for what was compiled. |
| CacheAnswers.ResultsAreDelivered | csrc/common/compilation_cache.cc:852-1040 | In every run, each promise that is set holds what one step of the run has delivered for it. |
| CacheRuns.RunConserves | csrc/common/compilation_cache.h:137-138 | In every run the requests that are no hits are exactly the promises that were made and the refusals. |
| CacheRuns.RunOnlySets | csrc/common/compilation_cache.cc:256-279 | However a run goes on, promises stay, and each is set at most once. |
| CacheRuns.CachedOnlyRun | csrc/common/compilation_cache.cc:532-535 | While caching is enabled and cache-only mode is on, no request makes an entry or a caller that would compile, dynamic and adapter requests included. |
| CacheRuns.AdmittedRunsNeverCrash | csrc/common/compilation_cache.cc:437-481 | If all sizes lie within their own bounds and no request is admitted during an eviction, no run reaches the failed check. |
| CacheRuns.MarkedRunsNeverCrash | csrc/common/compilation_cache.cc:437-481 | If all requests are made of tensors annotated by marking alone, and none is admitted during an eviction, no run reaches the failed check. |
| CacheRuns.RequestsDuringEvictionsCrash | csrc/common/compilation_cache.cc:281-341 | The second condition is needed: an annotated request admitted during an eviction and repeated after it runs into the failed check. |
| CacheProgress.AdapterFailureOrphans | csrc/common/compilation_cache.cc:818-829 | A failed adapter creation orphans the caller's promise if and only if it is unset and nobody else works on its key. |
| CacheProgress.CanBeSetIffNotLost | csrc/common/compilation_cache.cc:852-1062 | An unset promise can be set in some continuation if and only if somebody works on its key, and not only tasks that need the tier-2 lock while its holder waits for this very promise; seven steps are then enough. |
| CacheProgress.EvictionNeverEnds | csrc/common/compilation_cache.cc:309-333 | An eviction that waits for a key whose promise is lost, orphaned or blocked by the lock, never ends. |
| CacheProgress.EvictionEndsIff | csrc/common/compilation_cache.cc:309-338 | A running eviction can end in some continuation if and only if no listed key that is still in the map has a lost promise. |
| CacheProgress.AbandonedRequestBlocksEviction | csrc/common/compilation_cache.cc:818-829 | From the start, any annotated request whose adapters fail and an eviction begun after it: the eviction waits for the orphaned key, and is still there after every continuation. |
| DynamicRequests.SameShapelessSameRanks | csrc/common/cache_key.cc:608-619 | Requests for graphs with the same shapeless key have inputs of equal ranks. |
| DynamicRequests.SplitIsCreators | csrc/common/compilation_cache.cc:607-620 | Splitting one request's flat bounds over the tensors of another with the same ranks gives the bounds of the first, tensor by tensor. |
| DynamicRequests.HitRowsAreCreators | csrc/common/compilation_cache.cc:513-528 | An answer from the entry that a request made, whether its executable is still there or is made again, resolves to the bounds of that request's tensors, one by one, and each tensor's sizes lie within its counterpart's bounds. |
| DynamicRequests.DynamicHitsHaveCreators | csrc/common/compilation_cache.cc:449-528 | In every run of requests for graphs, the rows that an answer from an entry resolves to are the tensor bounds of one earlier request of the run, with or without a new compilation. |
| Tier2Protocol.StepKeeps | csrc/common/compilation_cache.cc:932-1104 | Each of the twenty-two steps keeps lock ownership, completeness of visible files, the compile counts and the origin of executables. |
| Tier2Protocol.RunIsSound | csrc/common/compilation_cache.cc:932-1104 | These hold in every state of every interleaving of any number of processes. |
| Tier2Protocol.MutualExclusion | csrc/common/tier2_compilation_cache.cc:256-291 | At most one task is inside the critical section of a key. |
| Tier2Protocol.VisibleFilesAreComplete | csrc/common/compilation_cache_utils.cc:128-192 | Under the final path readers see no file or a complete one for that key. |
| Tier2Protocol.CompilesAreBounded | csrc/common/compilation_cache.cc:965-982 | Over all processes the compilations of a key outnumber its failures to load, write or survive by at most one. |
| Tier2Protocol.OneCompilationServesAll | csrc/common/compilation_cache.cc:940-982 | Without such failures all tasks of a key that have an executable have the one from the same compilation. |
| Tier2Protocol.TaskCanStep | csrc/common/compilation_cache.cc:932-1104 | A task that has not ended, and waits neither for a taken lock nor for a promise still to be set, can always take a step of its own without dying. |
| Tier2Protocol.EveryRunCompletes | csrc/common/compilation_cache.cc:932-1104 | Every run takes at most ten steps per task, and while some task has not ended, some task can step without dying, or a task under the lock waits for the promise of one that waits for the lock. |
| Tier2Protocol.DeadlockStays | csrc/common/compilation_cache.cc:1042-1062 | Such a deadlock ends only by the death of one of the two tasks. |
| Tier2Protocol.WithoutNewEntriesCompletes | csrc/common/compilation_cache.cc:932-1104 | In a run in which no entry is evicted and made anew while its task compiles, some task can step without dying until all have ended. |
| Tier2Waits.WaitEndsIff | csrc/common/compilation_cache.cc:1042-1062 | A task that waits for a promise while it holds the lock can see it set, within seven steps, if and only if some worker on the key needs no lock: a caller, a task that has not begun or compiles without tier 2, a backup task, or one that finds the file. |
| Tier2Waits.WaitsForEver | csrc/common/compilation_cache.cc:1042-1062 | Otherwise it waits, and holds the lock, in every state of every continuation. |
| Tier2Waits.NoDeadlockWithoutEviction | csrc/common/compilation_cache.cc:932-1062 | In a run in which no eviction drops a key and caching stays on, no task under the lock ever waits for a promise that only tasks waiting for the lock could set; if no adapter fails either, every promise can be set. |
| Tier2Waits.EvictionDeadlocks | csrc/common/compilation_cache.cc:1042-1062 | For every request without annotations: an eviction between a task's compilation and its second lookup, and the same request again, make a run after which that task holds the lock for ever and the new one waits for the lock for ever. |
| Tier2Waits.ModeSwitchDeadlocks | csrc/common/compilation_cache.cc:912-920 | The same happens without any eviction if caching is switched off and on while the task sets its promise. |
| AtomicWrite.FileSystem.AtomicWriteToCacheFile | csrc/common/compilation_cache_utils.cc:128-192 | After each primitive operation an observer of the final path sees the old content, the new content or nothing; on success it is the new content; on a failure past naming the temporary file each of the two files is gone unless it cannot be deleted. |
| AtomicWrite.Tier2CacheEntryLock.Acquire | csrc/common/tier2_compilation_cache.cc:256-281 | Returns holding the key's lock, given that nobody else does. |
| AtomicWrite.Tier2CacheEntryLock.Release | csrc/common/tier2_compilation_cache.cc:283-291 | Gives up the lock once; a second release does nothing, even when somebody else has the lock by then. |
| OptionOverrides.CompileOptions.Put | csrc/common/compilation.cc:379-404 | One scan from where the last one stopped: replaces the value at the first match, or appends. |
| OptionOverrides.CompileOptions.ApplyCompilerOptionOverrides | csrc/common/compilation.cc:352-412 | The whole loop, with the special names, the errors and the running index, equals the recursive specification. |
| OptionOverrides.ApplyIsMerge | csrc/common/compilation.cc:379-404 | For sorted originals and overrides the loop has a closed form: overrides up to the first absent one update in place, all others are appended. |
| OptionOverrides.MergeIsUpdate | csrc/common/compilation.cc:344-351 | Looking up the last occurrence in the merged list is the right-biased update of the two maps. |
| OptionOverrides.DuplicatesExactly | csrc/common/compilation.cc:390-407 | The merged list has a duplicate key if and only if some override that is absent from the originals sorts before one that is present. |
| OptionOverrides.TpuDefaultListedTwice | csrc/common/compilation.cc:295-318 | Merged into the list of TPU defaults, overrides that name the autofdo option and one of the two defaults list something twice. |
| OptionOverrides.EagerModeListsTwice | csrc/common/compilation.cc:323-342 | In fast-compile mode on a TPU every environment or context override of a TPU default ends up in a list with a duplicate key, unless the call fails. |
| OptionOverrides.SpecialNamesApart | csrc/common/compilation.cc:362-378 | The call fails if and only if a name is empty or a level unknown; otherwise ordinary overrides merge as if alone and each level follows its own name. |
| OptionOverrides.OverridesByName | csrc/common/compilation.cc:352-412 | By names and values: the call fails exactly if a name is empty or one of the two levels is not O0 to O3; otherwise each level is what is written under its name, and every other name has the value of the update. |
| OptionOverrides.ErrorByName | csrc/common/compilation.cc:369-378 | The first rejected override decides the error: an empty name, or the text of its level. |
| OptionOverrides.UpdateMap | csrc/common/compilation.cc:163-167 | The loop is the right-biased update. |
| OptionOverrides.MakeCompilerOptionOverrides | csrc/common/compilation.cc:323-342 | Eager defaults, then the environment, then the context, later ones winning. |
| OptionOverrides.EagerModeDefaults | csrc/common/compilation.cc:323-342 | Context before environment; below them, in fast compilation on a TPU alone, optimization level O1 and autofdo off. |
| OptionOverrides.TpuDefaultValues | csrc/common/compilation.cc:295-318 | The two TPU options keep their installed values unless an override names them. |
| OptionOverrides.EffectiveOptions | csrc/common/compilation.cc:323-412 | Every ordinary option ends with the value of the source of highest precedence that names it: context, environment, eager defaults, originals. |
| ContextStacks.ContextManager.GetContextState | csrc/common/context_manager.h:100-125 | Walking the parents finds the top of the stack filtered by type; none if there is none. |
| ContextStacks.ContextManager.PushContextState | csrc/common/context_manager.h:150-159 | Pushes a node whose parent is the previous top; refused to threads without access. |
| ContextStacks.ContextManager.PopContextState | csrc/common/context_manager.h:161-176 | Removes the top if it has the expected type; an empty stack or another type is the failed check. |
| ContextStacks.ContextManager.PushCompilerOptionOverrides | csrc/common/compilation.cc:539-553 | Merges into the overrides in effect and pushes them; if options cannot be made from them, the stack stays as it was; on a thread without access it is the failed check. |
| ContextStacks.PopUndoesPush | csrc/common/context_manager.cc:44-66 | For every type, popping it undoes pushing it, and popping any other type is the failed check. |
| ContextStacks.OptionScopeCloses | csrc/common/compilation.cc:539-557 | Opening and closing an option scope restores the stack, as does failing to open it; while open, the overrides in effect are the outer ones updated. |
| ContextStacks.AcceptableMeansApplies | csrc/common/compilation.cc:539-552 | Options can be made from overrides exactly when none of their entries is rejected. |
| ContextStacks.MakesContextIff | csrc/common/compilation.cc:323-412 | Options can be made exactly if no name is empty and both levels, from the context or else the environment, are among O0 to O3 or unset. |
| ContextStacks.PushOptionsByName | csrc/common/compilation.cc:539-553 | Opening an option scope crashes exactly if none is open and the environment alone is bad; otherwise it succeeds exactly if the updated overrides and the environment are good by names and values. |
| ContextStacks.EffectiveIsUnionOfOpenScopes | csrc/common/compilation.cc:539-557 | In every run the overrides in effect are the innermost-wins union of what the open option scopes ask for, whatever other scopes are open. |
| ContextStacks.ProgramsRestoreTheStack | csrc/common/context_manager.h:150-176 | Well-nested programs leave the stack as they found it wherever they fail, and no pop meets a state of another type. |
| LibtpuVersions.ParseVersion | csrc/common/libtpu_version.cc:49-69 | The loops return the first run of digits of every part, parts without digits or beyond 32 bits left out. |
| LibtpuVersions.ParsePrinted | csrc/common/libtpu_version.cc:49-69 | Reading a printed dotted list of integers gives the list back. |
| LibtpuVersions.PartDecides | csrc/common/libtpu_version.cc:52-66 | A part counts for the number of its first digits, whatever is before and after them, if it has any and the number is below 2^31. |
| LibtpuVersions.ParseJoined | csrc/common/libtpu_version.cc:49-69 | Reading any parts joined by dots gives the numbers of those that have one, in order. |
| LibtpuVersions.ParseNightly | csrc/common/libtpu_version.cc:71-80 | A printed release followed by a build part is read as the release and the date of the build. |
| LibtpuVersions.PadVersion | csrc/common/libtpu_version.cc:71-86 | Pads with zeros up to the third component and with the greatest integer after it; a list that is long enough stays as it is. |
| LibtpuVersions.AtLeastIsLexicographic | csrc/common/libtpu_version.cc:124-140 | Although padding depends on both versions, the comparison is the lexicographic order of the versions continued for ever. |
| LibtpuVersions.AtLeastOfSameLength | csrc/common/libtpu_version.cc:124-140 | Versions with equally many components compare by the first that differs. |
| LibtpuVersions.OneMoreComponent | csrc/common/libtpu_version.cc:71-86 | A missing component up to the third counts as zero, a later one as the greatest 32-bit integer. |
| LibtpuVersions.AtLeastIsPreorder | csrc/common/libtpu_version.cc:124-140 | The comparison is reflexive, total and transitive on all component lists. |
| LibtpuVersions.ReleaseIsAtLeastItsBuilds | csrc/common/libtpu_version.cc:71-86 | A three-part release is at least as new as every longer build of it, and the converse holds only if all further components are the greatest integer. |
| LibtpuVersions.LibtpuVersionState.SetLibtpuVersion | csrc/common/libtpu_version.cc:90-107 | The first version stays; setting another one is the failed check. |
| LibtpuVersions.LibtpuVersionState.IsLibtpuVersionAtLeast | csrc/common/libtpu_version.cc:124-140 | True without a version or with an empty one; otherwise the padded comparison. |
| ArgSplit.ParseNextArgName | csrc/common/cache_key.cc:134-161 | Takes the trimmed text before the first comma outside of parentheses off the front, with that comma; FirstNameByCharacters says it by characters. |
| ArgSplit.ArgsAsStrings | csrc/common/macro_utils.cc:31-62 | The nested loops compute the trimmed arguments, dropping a blank last one; SplittersByCharacters says it by characters. |
| ArgSplit.StripTrims | csrc/common/macro_utils.cc:50-53 | Trimming cuts off exactly the longest runs of the six white space characters at both ends. |
| ArgSplit.FirstNameByCharacters | csrc/common/cache_key.cc:134-161 | The name is the trimmed text before the first comma that has as many opening as closing parentheses before it. |
| ArgSplit.PiecesAreTheCut | csrc/common/macro_utils.cc:31-62 | The pieces are the one list that joins to the text with commas, has no comma with balanced parentheses before it in any piece, and is balanced in all pieces but the last. |
| ArgSplit.SplittersByCharacters | csrc/common/macro_utils.cc:31-62 | By characters: the one cut of a text at such commas, each piece without its white space, gives the answers of both splitters, but for a last argument that is empty or whose piece is. |
| ArgSplit.NamesArePieces | csrc/common/cache_key.cc:134-161 | One at a time gives all trimmed pieces, but for a last piece without characters. |
| ArgSplit.ArgsArePieces | csrc/common/macro_utils.cc:31-62 | All at once gives all trimmed pieces, but for a last piece of white space only. |
| ArgSplit.SplittersAgree | csrc/common/macro_utils.cc:31-62 | The two agree on every text, except for one empty name exactly when the last piece is not empty but blank. |
| ArgSplit.JoinOfPieces | csrc/common/macro_utils.cc:31-62 | Joining the pieces with commas gives the text back. |
| ArgSplit.PiecesOfJoin | csrc/common/macro_utils.cc:31-62 | Splitting a joined text gives the pieces back if and only if none has a top-level comma and each but the last closes as many parentheses as it opens. |
| ArgSplit.SplittersUndoJoining | csrc/common/cache_key.cc:134-161 | Both splitters undo joining such arguments, white space around them or not, if the last is not blank. |
| ArgSplit.SplittersReturnArguments | csrc/common/macro_utils.cc:31-62 | Trimmed, non-empty, separable arguments come back unchanged from both. |

## Left out

- Collisions of the 64-bit hashes: fingerprints are equal only if they were built alike.
- Undefined behaviour of signed overflow: 32-bit offsets are taken to wrap around.
- Real tensors, element types and trailing dimensions in collectives: a tensor is the sequence of its rows, the all-reduce is the elementwise sum, the ragged collective is the copying of rows at the computed offsets.
- The choice between the equal and the uneven path, which every rank makes by itself: progress of the offset exchange is stated for ranks that all take the uneven path.
- The narrowing of list sizes to 32 bits in the list form of all-to-all: `RaggedListPath` is about sizes that fit.
- The exchange of ranks and device ids in the process group's constructor: every process is taken to know the ordered device list of its own group.
- The sorting algorithm of the library: groups are sorted by insertion, donated indices likewise; only the result matters.
- Timeouts of the store, connection failures and messages: waiting for peers is a step that is not enabled yet.
- Threads, locks, clocks and pools: each critical section is one step, queued work is a task that may run at any time.
- Compiling, loading and MLIR modules: a result carries the key that it was made for; a pad module is the list of its arguments and results, and the module that also sets dynamic sizes is not modelled.
- Whether padding changes a layout, on which the second adapter depends: adapter requests are requests like all others, in any order.
- In `CacheRuns`, which follows one process: the steps of others inside a key's critical section, which are one step that leaves or removes a file; a lock that another process holds is given back.
- In `Tier2Protocol`, which tasks share a process: a task may wait for any other task of its key.
- Tier 3, except that a task may leave compiling to a backup task and then load or miss.
- Names of temporary files: they are taken to be unique for each task and each write.
- Per-entry statistics, dumps on a miss, memory measuring, initialization and shutdown of the cache.
- Parameter types that are encoded by their printed form: they are text values; their printers are not modelled.
- Error states of the parameter builder and moved-from objects.
- Reading environment variables and flags, and memoizing what was read: they are parameters.
- Attribution of donations to ops: only the set of donated tensors is encoded.
- Widths of the integers inside a signature: keys are compared for signatures whose numbers fit into 64 bits.
