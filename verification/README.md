# Verified model of the two-GPU collectives

This project models, in Dafny, the parts of a Windows/AMD multi-GPU runtime where correctness is not visible from one
function: two GPU handshakes that implement a two-rank all-reduce, the barrier and the byte layout below one of them, the
routing above both, a shim that groups RCCL calls, collectives along an arbitrary tensor dimension, and several
self-contained data routines. `dafny verify dfyconfig.toml` checks everything.

## How the model is laid out

- **Stream machine** (`StreamMachine`, `StreamQueues`). A rank owns any number of FIFO streams. A call appends a fixed
  program of operations (copy, signal, wait-until-at-least, add) to one of them; the scheduler runs the head of any stream
  whose head is enabled; issuing and running interleave freely. A state is reachable if some schedule leads to it.
  `add` is an arbitrary function. Both protocols are programs of this machine: `MappedHostProtocol` (ready and consumed
  epoch words) and `D3D12Protocol` (one timeline fence per rank, which both ranks signal).
- **Stream assignment** (`D3D12Streams`). The mapped-host protocol waits for its peer at the start of the next call, so it
  is safe on any streams. The D3D12 protocol waits at the end of the same call; a later call on another stream does not
  wait. The model therefore proves exactly when it is safe: if and only if neither rank changes stream.
- **Bytes** (`LittleEndian`, `ByteMapping`, `ByteRefinement`, `SharedMemoryAllReduce`). The mapping is one flat byte array
  with two payload slots and four 32-bit words. Every byte-level run is shown to be a run of the abstract protocol.
- **CPU path** (`PairBarrier`, `CpuAddPath`, `CpuByteRefinement`). The auto-reset-event barrier may lose a signal. The class documentation
  (`win32_barrier.py`, lines 14-19) says the barrier is reusable without a reset; the model follows the code, gives a run
  in which the second generation blocks, and proves exactly when both ranks return. The sums are right all the same.
- **Both paths together** (`MixedPath`, `MixedPathRace`). One mapped communicator takes the stream path or the CPU path
  call by call, over the same slots, and only the stream path waits for the peer's consumed word. The model proves that a
  list of calls is safe if and only if no CPU-path call follows a stream-path call, and gives the failing schedule for
  every other list.
- **Routing** (`Communicator`). With D3D12 on and RCCL off, a tensor outside the D3D12 range goes to host-staged Gloo; the
  start-up trace names RCCL as the fallback in that case. The model follows the code.
- **Shim** (`RcclShim`), **tensor collectives** (`Shapes`, `Collectives`), **data routines** (`Safetensors`, `Kernels`,
  `Bf16`, `ShardedTopK`, `GroupedConv`, `LogitCache`), and shared facts (`Arithmetic`, `Sequences`, `Options`, `Scores`).

In-place and stateful code is modelled by classes and methods with loops; each is tied to the functions about which the
theorems are stated. Rounding follows roundTiesToEven (section 4.3.1 of IEEE 754-2019); bit patterns of one sign are
compared as integers, which between two neighbouring bfloat16 patterns is proportional to the value.

## Model

| member | source | states |
|---|---|---|
| MappedHostProtocol.EveryOutputIsTheSum | native/mapped_peer_reduce.hip:91-146 | in every reachable state, for any number of epochs, schedule and choice of streams, each output of a rank is add(own payload, peer payload) of that same epoch |
| MappedHostProtocol.SlotIsNeverOverwrittenEarly | native/mapped_peer_reduce.hip:106-126 | when the copy of epoch e is about to run, the peer has already added every earlier epoch, and at most the previous epoch of this rank is still in flight |
| MappedHostProtocol.FlagsOnlyIncrease | native/mapped_peer_reduce.hip:128-145 | no step lowers a ready or consumed word, and no step raises one by more than one, so a satisfied wait stays satisfied |
| MappedHostProtocol.HeadOperation | native/mapped_peer_reduce.hip:117-145 | any operation about to run carries its own call's epoch and payload, and an add finds exactly the peer's payload of the same epoch in the peer's slot |
| MappedHostProtocol.StopsOnlyWhenComplete | native/mapped_peer_reduce.hip:91-146 | a reachable state with no enabled stream has all sums of the calls both ranks issued; with equal call counts every queue is empty |
| StreamMachine.RunDecreases | native/mapped_peer_reduce.hip:106-145 | each executed operation removes exactly one outstanding operation, so no run continues for ever between two issues; with the stuck-state theorems every maximal run completes |
| StreamQueues.RunMatches | native/mapped_peer_reduce.hip:104-145 | the queues of all streams of a rank are determined by six progress counters, and running the oldest call of a stream advances exactly one of them |
| D3D12Protocol.EveryOutputIsTheSum | src/windows_amd_vllm_multigpu/d3d12_all_reduce.py:137-159 | with one stream per rank every output in every reachable state is the sum for its own epoch |
| D3D12Protocol.FencesCountByOne | src/windows_amd_vllm_multigpu/d3d12_all_reduce.py:137-158 | although two ranks signal each fence, every signal raises it by exactly one and nothing else changes it, so it takes the values 0, 1, 2, ... in order |
| D3D12Protocol.HeapIsNeverOverwrittenEarly | src/windows_amd_vllm_multigpu/d3d12_all_reduce.py:153-158 | when the copy of an epoch is about to run, both ranks have added all earlier epochs and the peer none later |
| D3D12Protocol.EpochsDifferByAtMostOne | src/windows_amd_vllm_multigpu/d3d12_all_reduce.py:137-158 | a rank holds the sum of epoch e only if both ranks hold the sums of all earlier epochs |
| D3D12Protocol.StopsOnlyWhenComplete | src/windows_amd_vllm_multigpu/d3d12_all_reduce.py:150-159 | with one stream per rank a reachable state with no enabled stream has every common sum, and equal call counts leave nothing queued |
| D3D12Streams.SafeExactlyOnOneStream | src/windows_amd_vllm_multigpu/d3d12_all_reduce.py:150-158 | for every assignment of calls to streams, equally many per rank or not: all reachable outputs are sums if and only if neither rank ever changes stream or some rank makes no call (for any add that depends on its second operand) |
| D3D12Streams.WrongOutput | src/windows_amd_vllm_multigpu/d3d12_all_reduce.py:153-158 | whenever a rank changes stream and its peer calls at all, a reachable state in which the peer's first output is not the sum |
| D3D12Streams.AloneHasNoOutput | src/windows_amd_vllm_multigpu/d3d12_all_reduce.py:153-158 | while one rank makes no call, no rank ever has an output, on any streams |
| ByteMapping.RegionsAreDisjoint | src/windows_amd_vllm_multigpu/shared_memory_all_reduce.py:54-62 | the slots start at 0 and max, the words ready 0, ready 1, consumed 0 and consumed 1 at 2 max plus 0, 64, 128 and 192, in a mapping of 2 max + 4096 bytes; all are in bounds and no two of them overlap |
| ByteMapping.DecodeEncode | native/mapped_peer_reduce.hip:128-145 | a 32-bit word reads back as the stored value modulo 2^32 |
| LittleEndian.ByteAt | native/mapped_peer_reduce.hip:128-145 | byte i of a stored word is the digit of 256^i |
| ByteRefinement.ProgramIsLowered | src/windows_amd_vllm_multigpu/shared_memory_all_reduce.py:144-156 | the addresses the host computes for a call are those of the protocol's slots and flag words |
| ByteRefinement.BytesTrackProtocol | src/windows_amd_vllm_multigpu/shared_memory_all_reduce.py:132-157 | every byte-level run, whatever sizes the ranks pass, has the control words, queues and completed calls of a run of the abstract protocol with unbounded epochs |
| ByteRefinement.BytesRefineProtocol | src/windows_amd_vllm_multigpu/shared_memory_all_reduce.py:54-62 | when both ranks pass tensors of the same byte size to the same call, slots and outputs are those of that abstract run too |
| ByteRefinement.CopyRefines | src/windows_amd_vllm_multigpu/shared_memory_all_reduce.py:96-104 | a payload copy changes exactly its own slot: no control word and not the other slot |
| ByteRefinement.SignalRefines | src/windows_amd_vllm_multigpu/shared_memory_all_reduce.py:127-130 | a stream write changes exactly one control word and no slot |
| ByteRefinement.ByteOutputsAreSums | src/windows_amd_vllm_multigpu/shared_memory_all_reduce.py:132-157 | when both ranks pass tensors of the same byte size to the same call, every output computed out of the shared bytes is the sum of the two tensors of that call |
| ByteRefinement.NoEpochIsTruncated | src/windows_amd_vllm_multigpu/shared_memory_all_reduce.py:137-140 | in every run every stored epoch is at most the number of calls, at most 0xFFFFFF00, and reads back unchanged |
| ByteRefinement.ByteStopsOnlyWhenComplete | src/windows_amd_vllm_multigpu/shared_memory_all_reduce.py:132-157 | in every run a byte-level state in which no stream can run has both outputs of every common call |
| SharedMemoryAllReduce.EnqueueAllReduce | native/mapped_peer_reduce.hip:91-146 | appends the consumed-wait (except for epoch 1), copy, ready write, ready wait, add and consumed write to the stream, each at the pointer passed for it |
| SharedMemoryAllReduce.SharedMemoryAllReduce.StreamAllReduce | src/windows_amd_vllm_multigpu/shared_memory_all_reduce.py:132-157 | refuses at the epoch guard without changing anything; otherwise advances the epoch by one and enqueues exactly the byte program of that epoch |
| SharedMemoryAllReduce.SharedMemoryAllReduce.AllReduce | src/windows_amd_vllm_multigpu/shared_memory_all_reduce.py:159-173 | a call is enqueued exactly when the byte machine can issue it, and then leaves the queue and epoch of that machine step; each refusal and the CPU route have their exact condition |
| SharedMemoryAllReduce.SharedMemoryAllReduce.CopyIn | src/windows_amd_vllm_multigpu/shared_memory_all_reduce.py:175-189 | the in-place copy is exactly the byte machine's begin step: this rank's slot of the mapping changes and nothing else |
| SharedMemoryAllReduce.SharedMemoryAllReduce.AddSlots | src/windows_amd_vllm_multigpu/shared_memory_all_reduce.py:179-197 | the tensor copied out of the staging buffer is the result of the byte machine's sum step, rank 0's operand first, and only the used part of the buffer changes |
| PairBarrier.Win32PairBarrier.SetOwn | src/windows_amd_vllm_multigpu/win32_barrier.py:52-56 | setting the own event is the barrier model's arrival, absorbed when the event is still set |
| PairBarrier.Win32PairBarrier.WaitPeer | src/windows_amd_vllm_multigpu/win32_barrier.py:57-61 | the wait returns exactly when the peer's event is set, and consumes it |
| PairBarrier.RunsAreAccounted | src/windows_amd_vllm_multigpu/win32_barrier.py:52-61 | over all timeout-free runs: sets = peer's passes + pending + absorbed on both sides, and at most one signal is ever absorbed |
| PairBarrier.BarrierPromise | src/windows_amd_vllm_multigpu/win32_barrier.py:52-61 | the k-th return implies the peer began its k-th wait; the ranks' waits differ by at most one |
| PairBarrier.BothReturnExactlyWhenNothingAbsorbed | src/windows_amd_vllm_multigpu/win32_barrier.py:52-61 | after equally many waits and with nothing able to move, both ranks have returned if and only if no signal was absorbed; otherwise exactly the peer of the rank that lost one is blocked |
| PairBarrier.BothReturnExactlyWithoutEarlySet | src/windows_amd_vllm_multigpu/win32_barrier.py:52-61 | over a whole run: after equally many waits and with nothing able to move, both ranks have returned if and only if no rank ever set its event while that event was still set |
| PairBarrier.AbsorbedExactlyByEarlySet | src/windows_amd_vllm_multigpu/win32_barrier.py:55-56 | a signal is lost exactly by a set that finds the own event still set |
| PairBarrier.SecondGenerationCanBlock | src/windows_amd_vllm_multigpu/win32_barrier.py:14-19 | the documented reuse without reset fails: a concrete run of two waits per rank that leaves rank 1 blocked |
| CpuAddPath.CpuResultsAreSums | src/windows_amd_vllm_multigpu/shared_memory_all_reduce.py:175-199 | on that barrier, in every reachable state, every result of either rank is the sum of the two payloads of its own call, and the ranks agree for any add |
| CpuAddPath.CpuSlotIsNeverOverwrittenEarly | src/windows_amd_vllm_multigpu/shared_memory_all_reduce.py:184-198 | a slot is written only while the peer is not adding and after it added the previous payload |
| CpuAddPath.CpuPathStops | src/windows_amd_vllm_multigpu/shared_memory_all_reduce.py:190-199 | a state in which no rank can move has all sums; either all calls returned, or one signal was lost, which needs at least one call, and exactly one rank hangs in the very last wait |
| CpuAddPath.CpuRunsAreFinite | src/windows_amd_vllm_multigpu/shared_memory_all_reduce.py:175-199 | every step is progress towards a fixed bound, so every run reaches such a state |
| CpuByteRefinement.ByteCpuResultsAreSums | src/windows_amd_vllm_multigpu/shared_memory_all_reduce.py:175-199 | over every run of the CPU path on the one flat mapping, every result is the sum of the two tensors of its own call |
| MixedPath.MixedResultsAreSums | src/windows_amd_vllm_multigpu/shared_memory_all_reduce.py:159-199 | with both paths sharing the slots: when no CPU-path call follows a stream-path call, every result of either path in every reachable state is the sum for its own call, on any streams |
| MixedPath.MixedPathStops | src/windows_amd_vllm_multigpu/shared_memory_all_reduce.py:159-199 | for such call lists a state in which nothing can move has all CPU sums, and every call of both paths has completed unless the barrier lost a signal, which it cannot without CPU calls |
| MixedPathRace.SafeExactlyWithoutCpuAfterStream | src/windows_amd_vllm_multigpu/shared_memory_all_reduce.py:168-190 | for every list of calls: all reachable results are sums if and only if no CPU-path call follows a stream-path call, whether or not the CPU path's copy waits for the rank's own stream (for any add that depends on its second operand) |
| MixedPathRace.WrongSum | src/windows_amd_vllm_multigpu/shared_memory_all_reduce.py:184-189 | for every other list, a schedule in which the copy of a CPU-path call overwrites a slot before the peer's stream has added it |
| Communicator.D3D12AllReduce.AllReduce | src/windows_amd_vllm_multigpu/d3d12_all_reduce.py:118-159 | each refusal has its exact condition and changes nothing; otherwise the epoch advances by one and the stream gains exactly the protocol program of that epoch |
| Communicator.MappedAllReduce.AllReduce | src/windows_amd_vllm_multigpu/shared_memory_all_reduce.py:132-173 | each refusal and the CPU path have their exact condition and leave epoch and stream alone; otherwise the epoch advances by one and the stream gains exactly the protocol operations of that epoch |
| Communicator.WindowsAmdMultiGpuCommunicator.AllReduce | src/windows_amd_vllm_multigpu/vllm_communicator.py:97-109 | every route has its exact condition in configuration, dtype, shape and byte size (D3D12 if and only if two ranks, requested, F16/F32/BF16 and within minimum and maximum; then RCCL, the mapped host, Gloo); the D3D12 and mapped epochs stay the numbers of calls routed there (the mapped one up to its guard) and the stream holds exactly their programs; a call routed to D3D12 always passes that backend's own checks, and a mapped call raises exactly when it is too large or the epochs are exhausted |
| Communicator.RouteIsExact | src/windows_amd_vllm_multigpu/vllm_communicator.py:97-109 | the route has those conditions for every configuration and tensor, so exactly one route is taken |
| Communicator.LockStep | src/windows_amd_vllm_multigpu/vllm_communicator.py:26-41 | for equal configurations and equal shapes and dtypes call by call, both ranks route every call alike, give it the same epoch, and the payload held under that epoch is that call's on both |
| Communicator.ProgramSumsOverD3D12 | src/windows_amd_vllm_multigpu/vllm_communicator.py:97-100 | however calls to other backends are interleaved, the output of call i on either rank is the sum of both ranks' payloads of call i |
| Communicator.ProgramCompletesOverD3D12 | src/windows_amd_vllm_multigpu/vllm_communicator.py:97-100 | once both ranks issued all D3D12 calls of the program and nothing can run, every such call has its sum on both ranks |
| Communicator.StreamIsIssued | src/windows_amd_vllm_multigpu/d3d12_all_reduce.py:150-158 | the operations a communicator puts on its stream, for either protocol, are exactly those of a reachable state of the protocol that issued the same payloads |
| Communicator.ProgramSumsOverMappedHost | src/windows_amd_vllm_multigpu/vllm_communicator.py:105-107 | on a mapped communicator, for programs whose mapped calls have no CPU-path call after a stream-path call (the exact condition of `MixedPathRace`), the output of stream call i on either rank is the sum of both ranks' payloads of call i |
| Communicator.ProgramSumsOverMappedCpu | src/windows_amd_vllm_multigpu/vllm_communicator.py:105-107 | under the same condition the result of CPU-path call i on either rank is rank 0's plus rank 1's payload of call i |
| Communicator.KindsAreExact | src/windows_amd_vllm_multigpu/shared_memory_all_reduce.py:159-173 | the list of stream and CPU calls to which the mixed-path theorem is applied has exactly one entry per mapped call of the program, in order and of its kind |
| Communicator.ProgramCompletesOverMappedHost | src/windows_amd_vllm_multigpu/vllm_communicator.py:105-107 | under the same condition, when nothing can move and no barrier signal was lost, every stream call of the program has its sum on both ranks |
| Communicator.RanksAgreeOverMappedHost | src/windows_amd_vllm_multigpu/shared_memory_all_reduce.py:132-157 | under the same condition and with a commutative add both ranks hold the same value for every stream call both completed |
| Communicator.RanksAgree | src/windows_amd_vllm_multigpu/d3d12_all_reduce.py:156-159 | with a commutative add both ranks hold the same value for every call both completed |
| RcclShim.CommInitAll | adapters/llama-rccl-shim/src/rccl_shim.cpp:396-484 | the exact result of every configuration; on success one handle per rank shares one clique of the listed devices, a ready D3D12 transport implies two devices, and the routing maximum never exceeds the buffer |
| RcclShim.D3D12Exactly | adapters/llama-rccl-shim/src/rccl_shim.cpp:319-371 | with counts, limits and products in 64-bit size_t arithmetic, a group reaches D3D12 if and only if it is one call per rank of a ready pair, both SUM, of equal count and supported type, whose true byte size as an unbounded number fits the buffer and the routing range |
| RcclShim.GuardIsExact | adapters/llama-rccl-shim/src/rccl_shim.cpp:347-355 | the wrapped byte product answers every size limit as the true size does if and only if the division guard passes |
| RcclShim.UnguardedWouldRoute | adapters/llama-rccl-shim/src/rccl_shim.cpp:347-355 | without the guard, 2^62 floats would pass the size tests of any D3D12-only clique although they fit no buffer |
| RcclShim.OtherwiseExactly | adapters/llama-rccl-shim/src/rccl_shim.cpp:323-389 | exactly which other groups are refused, go to threads (as the same pair in rank order) or go natively (as submitted) |
| RcclShim.RequestIsRankOrdered | adapters/llama-rccl-shim/src/rccl_shim.cpp:336-364 | entry r of the request handed over is the call of rank r with rank r's device |
| RcclShim.OrderDoesNotMatter | adapters/llama-rccl-shim/src/rccl_shim.cpp:331-371 | swapping the two submitted calls changes neither the routing nor the request |
| RcclShim.FirstFailureMeaning | adapters/llama-rccl-shim/src/rccl_shim.cpp:257-268 | the calls made in a native group are a usable prefix of which all but possibly the last succeeded, and the result is that failure, an unusable next handle, or success of everything |
| RcclShim.DispatchRealNative | adapters/llama-rccl-shim/src/rccl_shim.cpp:245-271 | a failed load or start is the result and starts nothing further; a group that started is ended exactly once, after exactly the calls up to the first failing one, and the result is that failure, an unusable next handle, or the answer to ending |
| RcclShim.DispatchRealThreaded | adapters/llama-rccl-shim/src/rccl_shim.cpp:273-317 | each of the two calls reaches the library once if its device could be selected, in either order; the lower rank's failure is the result, otherwise the higher rank's answer |
| RcclShim.BatchOutcome | adapters/llama-rccl-shim/src/rccl_shim.cpp:319-390 | the result and the traffic of every batch are those of the independent description used by `DispatchGroup` and `GroupEnd` |
| RcclShim.DispatchGroup | adapters/llama-rccl-shim/src/rccl_shim.cpp:319-390 | for every batch, exactly what the library and the transport are newly handed and the result: a suitable pair is one request of the calls' own datatype with two rank calls in rank order, whose refusal is UnhandledCudaError; other pairs go to threads or natively, or are refused without RCCL handles; anything else goes natively as submitted |
| RcclShim.SuccessDeliversAll | adapters/llama-rccl-shim/src/rccl_shim.cpp:319-390 | a batch that reports success handed each of its calls exactly once to a backend |
| RcclShim.ThreadGroup.GroupStart | adapters/llama-rccl-shim/src/rccl_shim.cpp:514-522 | one step of the group machine; depth, queue and both backends' logs stay those of the event history |
| RcclShim.ThreadGroup.AllReduce | adapters/llama-rccl-shim/src/rccl_shim.cpp:524-547 | an in-group call is queued and not executed; outside a group a usable call is handed to the loaded library exactly once with its answer as the result, and every other call is refused with its exact result and reaches nothing |
| RcclShim.ThreadGroup.GroupEnd | adapters/llama-rccl-shim/src/rccl_shim.cpp:549-562 | the outermost End hands out exactly its batch as `DispatchGroup` promises and empties the queue; an inner End succeeds, an unmatched End is refused, and neither reaches a backend |
| RcclShim.EveryCallDispatchedOnce | adapters/llama-rccl-shim/src/rccl_shim.cpp:514-562 | for every event sequence the dispatched batches followed by the queue are exactly the in-group calls in order, one batch per closed outermost group, and at depth 0 the queue is empty |
| RcclShim.EveryCallReceivedOnce | adapters/llama-rccl-shim/src/rccl_shim.cpp:514-562 | for every event sequence whose batches succeeded, the calls handed to the real library and to the transport are exactly the in-group calls no longer queued and the usable calls made outside every group, each once |
| RcclShim.OutermostGroupIsOneBatch | adapters/llama-rccl-shim/src/rccl_shim.cpp:514-562 | a group with any nesting inside adds exactly one batch, holding exactly the calls between its Start and its End |
| RcclShim.UnmatchedEndIsIgnored | adapters/llama-rccl-shim/src/rccl_shim.cpp:549-552 | an End without a Start changes nothing |
| Collectives.MoveRoundTrip | src/windows_amd_vllm_multigpu/rccl.py:224-240 | moving a dimension to the front and back is the identity on any tensor |
| Collectives.ReduceScatterSlices | src/windows_amd_vllm_multigpu/rccl.py:219-240 | for every world size, shape and dimension that divides evenly, element idx of rank r's output is the sum over the ranks of the matching element of the r-th slice |
| Collectives.GatherOfScatterIsAllReduce | src/windows_amd_vllm_multigpu/host_staged.py:77-128 | gathering the scattered outputs along the same dimension equals all-reduce, negative dimensions included |
| Collectives.GatherPlaces | src/windows_amd_vllm_multigpu/host_staged.py:92-102 | for every world size, shape and dimension, the gathered tensor holds rank q's elements q-th along the dimension |
| Collectives.GathersAgree | src/windows_amd_vllm_multigpu/rccl.py:203-217 | the RCCL gather (flat buffer, unbind, concatenate) and the host-staged gather return the same tensor or the same error |
| Collectives.ReduceScatterErrors | src/windows_amd_vllm_multigpu/host_staged.py:113-117 | exactly which dimensions are refused: because the rank is added once before the dimension is resolved again, dimensions down to twice the tensor rank below zero are accepted |
| Collectives.TwoRankAllReduce | src/windows_amd_vllm_multigpu/host_staged.py:77-93 | on two ranks every element of the all-reduce is rank 0's element plus rank 1's, on both ranks |
| Collectives.SumOfNext | src/windows_amd_vllm_multigpu/rccl.py:219-240 | the sum over the ranks adds each further rank's value on the right of the sum so far |
| Collectives.OneRankKeepsItsTensor | src/windows_amd_vllm_multigpu/rccl.py:193-240 | with one rank every collective returns the input, whatever the dimension |
| Safetensors.CopyExact | scripts/prepare-qwen38-27b-awq-mtp.py:49-56 | succeeds exactly when the whole range exists, however short each read is, and then appends exactly those bytes; a negative length fails |
| Safetensors.GatherKeys | scripts/prepare-qwen38-27b-awq-mtp.py:77-98 | entries, output header, running offset and sizes stay those of the items gathered so far; fails exactly when a key is missing or has no data offsets |
| Safetensors.WriteItems | scripts/prepare-qwen38-27b-awq-mtp.py:105-108 | appends the items' bytes in order, and fails exactly when some item's bytes are not all there |
| Safetensors.BuildDraft | scripts/prepare-qwen38-27b-awq-mtp.py:59-109 | succeeds exactly when every listed tensor is available in its source and the header length fits its field; reading the result back gives exactly the listed names and the metadata, and each name's dtype, shape, size and bytes are those of the last source that lists it |
| Safetensors.ItemsAreComplete | scripts/prepare-qwen38-27b-awq-mtp.py:77-97 | the gathered items all exist with all their bytes exactly when each source header is readable and names every listed tensor with a range inside its file |
| Safetensors.ReadBack | scripts/prepare-qwen38-27b-awq-mtp.py:39-46 | reading the built file recovers the header and an 8-byte aligned data start, the file ends with the data section, and each name (its last occurrence) gives back exactly its source bytes, as many as its returned size says |
| Safetensors.IntervalsTile | scripts/prepare-qwen38-27b-awq-mtp.py:82-98 | with distinct names every byte of the data section belongs to exactly one named tensor |
| Safetensors.HeaderNames | scripts/prepare-qwen38-27b-awq-mtp.py:64-87 | the header names exactly the items and the metadata, and the metadata survives unless a tensor takes its name |
| Kernels.CoveredExactlyWhenBlocksFit | native/mapped_peer_reduce.hip:71-76 | the grid reaches every index below the count if and only if the count is at most (2^32 - 1) * 256, with the 64-bit sum and the 32-bit cast modelled |
| Kernels.BlocksAreMinimal | native/mapped_peer_reduce.hip:71-76 | a covered launch uses the fewest blocks of 256 threads that reach the count |
| Kernels.WrittenOnce | native/mapped_peer_reduce.hip:18-22 | in every execution order each index below a covered count is written by exactly one thread and no other index by any |
| Kernels.Add | native/mapped_peer_reduce.hip:13-50 | for every count and every execution order, exactly the reached indices hold the sum of the old operands, even when the output is one of the inputs |
| Kernels.LaunchAdd | native/mapped_peer_reduce.hip:62-88 | for every size_t count the output is the elementwise sum on the indices the launch reaches and unchanged elsewhere, whatever the thread order; it reaches the whole count if and only if the block count fits in 32 bits |
| Kernels.Copy | native/mapped_peer_reduce.hip:213-235 | the byte copy, with the same exactness and order independence |
| Bf16.EncodeRoundsTiesToEven | probes/rccl_two_rank_all_reduce.py:60-63 | on every non-NaN binary32 pattern the result is roundTiesToEven: sign kept, no representable magnitude nearer, ties to even, within half a unit |
| Bf16.RoundingIsUnique | probes/rccl_two_rank_all_reduce.py:61-63 | no other bfloat16 pattern meets that specification |
| Bf16.EncodeIsMonotone | probes/rccl_two_rank_all_reduce.py:60-63 | a larger magnitude never encodes to a smaller one |
| Bf16.EncodeAfterDecode | probes/rccl_two_rank_all_reduce.py:66-72 | encoding undoes decoding on every bfloat16 pattern |
| Bf16.DecodeAfterEncode | probes/rccl_two_rank_all_reduce.py:60-72 | a binary32 pattern survives the round trip if and only if its low half is zero |
| Bf16.OverflowsExactlyFromHalfway | probes/rccl_two_rank_all_reduce.py:61-63 | exactly the magnitudes from halfway above the largest finite bfloat16 become infinite |
| Bf16.NaNSurvivesExactly | probes/rccl_two_rank_all_reduce.py:61-63 | for every NaN: exactly those with magnitude strictly between 0x7F808000 and 0x7FFF8000 stay NaN, exactly those up to it become an infinity, and exactly those from it carry into the sign and become a zero of the other sign |
| Bf16.NaNCanBecomeZero | probes/rccl_two_rank_all_reduce.py:61-63 | a concrete NaN of each lost kind |
| ShardedTopK.MaskPadding | patches/vllm/fb9fb8c5-dflash2-upstream.patch:492-495 | the in-place mask sets exactly the padding to minus infinity |
| ShardedTopK.ShardedEqualsGlobal | patches/vllm/fb9fb8c5-dflash2-upstream.patch:497-505 | with at least k finite real logits, local top-k, gather and top-k return k distinct real ids, each with its own logit, sorted, with no better id left out |
| ShardedTopK.SelectionExists | patches/vllm/fb9fb8c5-dflash2-upstream.patch:497-504 | what is asked of a top-k routine can be met for every list of scores, ties included, and every k up to its length |
| ShardedTopK.EnoughFiniteIsNeeded | patches/vllm/fb9fb8c5-dflash2-upstream.patch:492-505 | conversely such a result exists only if there are k finite real logits |
| ShardedTopK.OneShardIsGlobal | patches/vllm/fb9fb8c5-dflash2-upstream.patch:497-501 | the single-shard shortcut gives the same guarantee |
| ShardedTopK.FinishedTopK | patches/vllm/fb9fb8c5-dflash2-upstream.patch:480-512 | each returned value is the scaled and capped logit of its own id, the values stay sorted, and no id left out would have had a larger one, so finishing only the k selected values keeps the selection |
| ShardedTopK.FinishedValue | patches/vllm/fb9fb8c5-dflash2-upstream.patch:507-512 | the value returned for a selected logit is the logit times the scale, and with a cap the cap times tanh of that over the cap |
| GroupedConv.MaskIsRemainder | patches/vllm/fb9fb8c5-dflash2-upstream.patch:731-734 | whenever the bit test holds, masking by size - 1 is the remainder |
| GroupedConv.InBlock | patches/vllm/fb9fb8c5-dflash2-upstream.patch:735-737 | a predecessor lies in the row's own block exactly when the row's position is at least the tap |
| GroupedConv.Convolve | patches/vllm/fb9fb8c5-dflash2-upstream.patch:718-738 | for every size and tap count, lane l of group g of each output row is the sum over in-block predecessors of (base of that channel + the row's delta for group g) times the predecessor's hidden value |
| GroupedConv.ReferenceIsExpected | patches/vllm/fb9fb8c5-dflash2-upstream.patch:726-730 | splitting a channel into group and lane gives the coefficient of the right group, for every group size |
| LogitCache.EraseAndStoreIsFresh | patches/vllm/fb9fb8c5-dflash2-upstream.patch:1204-1213 | erasing the cached candidates and storing the new ones gives the row a fresh build would give |
| LogitCache.FreshHolds | patches/vllm/fb9fb8c5-dflash2-upstream.patch:1239-1243 | a fresh row holds each candidate's own score and minus infinity elsewhere |
| LogitCache.Cache.constructor | patches/vllm/fb9fb8c5-dflash2-upstream.patch:1235-1243 | the minus-infinity table with zeroed cached ids satisfies the invariant |
| LogitCache.Cache.Program | patches/vllm/fb9fb8c5-dflash2-upstream.patch:1184-1214 | one program keeps every row equal to the fresh row of its latest candidates and touches only its target |
| LogitCache.Cache.Launch | patches/vllm/fb9fb8c5-dflash2-upstream.patch:1269-1285 | a launch with distinct targets leaves each target with its own sample's row, whatever order the programs run in |
| LogitCache.OrderDoesNotMatter | patches/vllm/fb9fb8c5-dflash2-upstream.patch:1269-1285 | every execution order, even one that repeats a program, gives the result of index order |

## Left out

- HIP and D3D12 errors in the middle of a call, death of a peer, barrier timeouts, and GPU memory-model weakness: enqueues succeed and memory is sequentially consistent.
- Object creation, null handle arrays, DLL discovery, handle import, close and destroy, the constructors' agreement rounds, device and contiguity checks, environment parsing, trace and log output.
- The floating-point value of an addition: `add` is arbitrary in the protocols; only `Communicator.RanksAgree` asks for commutativity. The convolution, scaling and soft cap use real numbers, without rounding.
- The 32-bit epoch guard inside `MixedPath`: it is in the byte-level machine and in the communicator; the mixed machine's epochs are unbounded.
- An empty mapped payload: the add kernel is not launched for count 0; the model's add then combines two empty tensors.
- RCCL and Gloo themselves: ideal collectives on flat buffers. The real RCCL library behind the shim answers with an arbitrary function of the call; `wac_d3d12_allreduce` (adapters/llama-rccl-shim/src/d3d12_transport.cu) is not part of this model.
- The rendezvous of the two dispatch threads (their calls reach the library in either order), `ncclCommDestroy`, error strings and allocation failure in the shim.
- The stage cache and host copies of the host-staged transport; the RCCL and host-staged `reduce_scatter` share one rearrangement function because their code is the same.
- `gather`, `broadcast`, send and receive of the communicators, and the D3D12 tensor bridge.
- A convolution with fewer rows than taps - 1: the source's padding then yields a wrong shape and it fails.
- JSON text: parsing and printing are an arbitrary faithful pair that ignores trailing spaces. Hashing, downloading and the AWQ index of the repacking script are omitted.
- `torch.topk` is any routine that returns k distinct positions, sorted, with nothing larger left out; ties are arbitrary.
- `struct.pack` of a double to binary32 and the f16 and f32 branches of the scalar codec.
- Grids that read past an input: the caller's buffers hold at least `count` elements, and buffers are the same or disjoint.
- The runtime's refusal of a grid whose truncated block count is zero; the model launches no thread for it.
- Scripts, benchmarks, probes other than the scalar codec, licence tooling and the platform gate.
