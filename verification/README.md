# A verified model of the Triton TensorRT backend

The backend runs inference asynchronously: an issue thread prepares a batch and enqueues it,
and a completion thread per model instance waits for the GPU and answers the clients. The two
share a semaphore, a queue, a ring of three event sets, a ring of one or two buffer sets and,
with implicit sequence state, a one-shot barrier. At load time the backend prunes optimization
profiles, sizes buffers, captures CUDA graphs and shares engines; at run time it chooses a
profile, checks shapes, fills the buffers and looks up a graph. This project models those parts
in Dafny and proves what they promise each other.

`dafny verify dfyconfig.toml` checks everything.

## Layout

| file | part of the backend |
|---|---|
| `Accounting.dfy` | what `Run` and the completion thread do to requests and responses |
| `Pipeline.dfy` | one instance as a step machine and its invariant |
| `Device.dfy` | all instances of a device under an arbitrator, any interleaving |
| `DeviceProperties.dfy` | results about every reachable state |
| `DeviceProgress.dfy` | deadlock freedom and draining |
| `DeviceAnswers.dfy` | what the clients get over a whole run |
| `Semaphore.dfy`, `InstanceState.dfy`, `Arbitrator.dfy` | the classes, field by field, proved equal to the steps of the machine |
| `GraphIndex.dfy` | the lookup of captured CUDA graphs |
| `GraphSpec.dfy` | graph specs, packed keys and what they cover |
| `GraphStore.dfy` | the capture loop, what it leaves in the index, and the lookup |
| `GraphBuffers.dfy` | captured graphs against the buffers of running executions |
| `GraphLaunch.dfy` | from the lookup to the launch of a graph |
| `Shapes.dfy` | dimension vectors, range checks and byte sizes |
| `Buffers.dfy`, `InputBindings.dfy` | pruning of profiles and sizing of input buffers |
| `ShapeTensor.dfy` | shape tensors down to their bytes |
| `Profiles.dfy` | the choice of an optimization profile |
| `EngineCache.dfy` | shared engines and runtimes |
| `AutoComplete.dfy` | dimensions written by auto-completion and the checks that read them back |
| `Options.dfy`, `Arithmetic.dfy` | nullable pointers, records of objects, facts about remainders |

Code that changes state is modelled by classes and loops. Where a property is about whole runs,
each method is proved equal to a function on values, and the property is proved about all
sequences of such functions. Calls into CUDA, TensorRT, Triton core and the file system are
parameters that say how each call turns out; no outcome is excluded unless "Assumptions" says so.

## Findings

Where the code does not do what one would hope, the project proves what it does and exactly when
the expectation holds.

- A batch whose batch dimensions add up to zero (modulo 2^64) makes `Run` return early with the
  requests still set, so `ProcessRequests` queues a payload without a responder, and the completion
  thread does not get past it (`src/instance_state.cc:480-482`). A state update that fails ends the
  completion thread without signalling the barrier, and the issue thread waits for good
  (`src/instance_state.cc:1270-1279`). Every other batch is answered exactly once, and a run comes to
  rest with everything answered exactly if neither of the two happened in it.
- With eager batching and no implicit state, execution n+3 may run on the event set of execution n
  while n is still being finalized: the slot is released before the payload has finished
  (`src/instance_state.cc:1262-1267`). The comment at `src/instance_state.h:45-47` promises three
  sets are enough to avoid overlaps; that holds for payloads whose slot is not released, and for all
  payloads exactly if batching is not eager or the model has implicit state.
- With eager batching and a separate output stream, an execution may run on a buffer set that an
  earlier payload has not been copied out of: execution n waits for `output_ready_` of its own event
  set, last recorded by n-3, while its buffer set was last used by n-2
  (`src/instance_state.cc:904-908`). With a separate stream no payload in flight shares the buffer
  set of the running execution exactly if batching is not eager or the model has implicit state.
- `DimVecToDims` casts 64-bit dimensions to `int` before they are checked. A request dimension above
  `int` can pass the check by its low 32 bits while the byte size uses the full value. An accepted
  shape is in range exactly if all its dimensions fit in `int`. The buffers hold all accepted shapes
  with dimensions below a limit, in every configuration, exactly if the limit is at most 2^32; and
  every profile with a non-empty maximum and a dimension besides that of the batch admits shapes that
  no buffer holds.
- Captured graphs are keyed with batch size 0 in a model without batching, and looked up with 1: no
  graph is ever found. The representation invariant of the index holds exactly with batching.
- The comment at `src/instance_state.h:121-127` calls the coupling of event sets and buffer sets
  fine for two buffer sets. The graphs under the event set of a running execution always match its
  buffers exactly without a separate output stream. With one, execution 3 of any model runs on buffer
  set 1 and has none but graphs of buffer set 0 under its event set; with batching it finds one of
  them as soon as one matches its batch, or covers it where that is allowed.
- The distance used to choose a profile compares optimum dimension i with request dimension i - 1.
  It is zero exactly if the optimum is the batch size followed by all but the last dimension, and a
  profile made for the very shape of the batch is at distance zero exactly if all dimensions are equal
  to the batch size, and can lose to another. A failing call of the request API
  leaves the distance summed up so far, which counts in favour of a profile; the agreement with the
  checks of `Run` covers the inputs read before it.
- The size check of a shape tensor takes off a value for the batch size whether or not there is one
  (`src/shape_tensor.cc:158-175`). Without batching it therefore admits data that are one value
  short, and the copy takes more than there is; admitted data are long enough exactly if batching is
  on, nothing is copied, or the size is the full one. With batching it admits data that also hold the
  batch size, as its message says, but the copy starts at the front in either case; the tensor says
  the batch size and the values of the request exactly if no batch size was sent or all values are
  equal to it.

## Assumptions

- All instances are registered before the first execution.
- GPU events eventually fire, so a completion thread that waits can always go on.
- `RequestsRespondWithError` creates and sends one response for every request, releases the request
  and sets it to null. `GetByteSize` is the product of the dimensions times the element size. Byte
  sizes, element counts and distances stay below the limits of their 64-bit types.
- TensorRT gives profile bounds that are not negative and within 32-bit `int`, and an optimum of the
  same rank; it accepts a graph's input shapes only if they have the ranks of the engine's inputs.
  Dimensions of requests are not negative.
- The host stores integers least significant byte first.

## Model

| member | source | states |
|---|---|---|
| `Accounting.RunSettles` | src/instance_state.cc:404-1188 | whichever call fails, `Run` leaves all requests null with every request released and every created response sent, or all non-null with nothing released and every response sent or still held; the early return is the only exception |
| `Accounting.PlaySettles` | src/instance_state.cc:551-1187 | the same for the part of `Run` after the responses exist, for any sequence of outcomes |
| `Accounting.FinalizeAccounts` | src/instance_state.cc:1264-1267 | the responses before finalizing are those it sent with an error and those left, each counted once |
| `Accounting.ExactlyOnce` | src/instance_state.cc:365-395 | over the whole life of a batch each request is released once and each response sent once, if and only if the batch size is not zero |
| `Accounting.EveryRequestIsAnswered` | src/instance_state.cc:539-549 | over the life of a batch that is not zero, the responses created, and sent once each, are exactly one for every request: those of the normal path if the batch is let through, those of the error path otherwise; every request is released once |
| `Accounting.SentAndReleased` | src/instance_state.cc:1306-1334 | object by object: a response is sent if and only if it was made for a request, a request is released if and only if it came; without failing creations there are as many responses as requests, in order |
| `Accounting.RunFailsExactly` | src/instance_state.cc:365-381 | `Run` fails if and only if the batch is empty, or is not zero and is not let through or fails in some call |
| `Accounting.ResponsesLeft` | src/instance_state.cc:551-1187 | after a run that does not fail each request still has its response, unless that one was failed on its own |
| `Accounting.FinalizeLeaves` | src/instance_state.cc:1266-1266 | finalizing takes away exactly the responses in error |
| `Accounting.TotalIsSum` | src/instance_state.cc:440-475 | the scan yields the sum of the batch sizes modulo 2^64 if all can be read, and nothing otherwise |
| `Accounting.ZeroBatchIs` | src/instance_state.cc:480-482 | the early return is taken exactly for a batch that is not empty, whose sizes can be read and add up to zero modulo 2^64 |
| `Accounting.ZeroBatchIsNeverAnswered` | src/instance_state.cc:480-482 | one request with a batch dimension of zero is never answered |
| `Pipeline.InitialInv` | src/instance_state.cc:197-256 | a new instance, with or without the slot its issue thread takes, meets the invariant |
| `Pipeline.BeginRunInv` | src/instance_state.cc:414-433 | the start of `Run` keeps tokens, numbering, events, states and books |
| `Pipeline.FinishRunInv` | src/instance_state.cc:365-395 | so does the end of `Run` with the rotation of the rings, for success, failure and the early return |
| `Pipeline.PassedBarrierInv` | src/instance_state.cc:396-400 | so does passing the barrier, after which no state update is outstanding |
| `Pipeline.AcquiredInv` | src/semaphore.h:45-50 | acquiring turns a free slot into one held by the issue thread |
| `Pipeline.TakenInv` | src/instance_state.cc:1242-1245 | taking a payload from the queue keeps the invariant |
| `Pipeline.ReleasedInv` | src/instance_state.cc:1248-1262 | releasing the slot keeps the invariant while the payload is still in flight |
| `Pipeline.StatesUpdatedInv` | src/instance_state.cc:1264-1279 | finalizing, updating states and signalling keep it: updates come in order of execution, each promise is fulfilled once and by its own payload |
| `Pipeline.UpdateFailedInv` | src/instance_state.cc:1270-1275 | so does a failed state update, which answers the batch and ends the completion thread |
| `Pipeline.RespondedInv` | src/instance_state.cc:1306-1334 | answering keeps it: what was in flight moves to what was sent and released |
| `Pipeline.FewInFlightExclusive` | src/instance_state.cc:383-384 | without eager batching, or with implicit state, all payloads in flight and the running execution use different event sets |
| `Pipeline.UnreleasedAreContiguous` | src/instance_state.cc:1242-1262 | in any mode the payloads whose slot is not released are consecutive executions, at most as many as slots, on different event sets |
| `Pipeline.RunningIsReuseOrdered` | src/instance_state.cc:551-558 | `prev_set` holds the events of the last execution on the same buffer set, and no execution since then, failed ones included, has used them |
| `Pipeline.NonEagerOverlap` | src/instance_state.cc:1703-1714 | without eager batching nothing in flight still needs inputs when an execution runs, and with two buffer sets nothing in flight uses its buffers |
| `Pipeline.StateOrder` | src/instance_state.cc:416-420 | with implicit state, promises were fulfilled in order and once, and all earlier states are updated when an execution runs |
| `Pipeline.AllAnswered` | src/instance_state.cc:1306-1334 | with nothing in flight everything accepted was released once and everything created was sent once |
| `Device.StartInv` | src/model_state.cc:38-53 | after registration every instance and issue thread meets the invariant, under either arbitrator |
| `Device.StepKeepsInv` | src/tensorrt.cc:385-412 | every step of every thread keeps the invariant of every instance |
| `Device.RunKeepsInv` | src/tensorrt.cc:366-415 | so does every run, of any length and interleaving and with any outcome of the calls |
| `DeviceProperties.TokenConservation` | src/instance_state.cc:378-395 | in every reachable state free slots, unreleased payloads and the slot held by the issue thread add up to the capacity |
| `DeviceProperties.RoundRobin` | src/model_state.cc:55-72 | under DEVICE_BLOCKING call j runs instance j modulo the number of instances |
| `DeviceProperties.UnreleasedAreExclusive` | src/instance_state.h:45-48 | in every reachable state unreleased payloads and the running execution use different event sets |
| `DeviceProperties.ExclusivityCharacterised` | src/instance_state.cc:1251-1267 | no reachable state has two payloads in flight on one event set, if and only if batching is not eager or the model has implicit state |
| `DeviceProperties.SharedEventSet` | src/instance_state.cc:1262-1267 | otherwise a run in which execution 3 uses event set 0 while payload 0 is being finalized |
| `DeviceProperties.PrevSetOrdersBufferReuse` | src/instance_state.cc:551-558 | in every reachable state the wait on `prev_set` orders the reuse of input buffers |
| `DeviceProperties.NonEagerOverlapBound` | src/tensorrt.cc:402-412 | in every reachable state without eager batching, when execution n runs, n-1 has consumed its inputs and everything before is done |
| `DeviceProperties.BufferSetsCharacterised` | src/instance_state.cc:904-908 | with a separate output stream no payload in flight is on the buffer set of the running execution, in any reachable state, if and only if batching is not eager or the model has implicit state |
| `DeviceProperties.OutputReuseCharacterised` | src/instance_state.cc:393-394 | no execution runs on a buffer set whose outputs are pending, in any reachable state, if and only if the model has implicit state, or a separate output stream and no eager batching |
| `DeviceProperties.SharedBufferSet` | src/instance_state.cc:904-908 | otherwise a run in which execution 2 uses the buffer set of payload 0, still in the queue |
| `DeviceProperties.ImplicitStateOrder` | src/instance_state.cc:396-400 | in every reachable state with implicit state, every earlier promise was fulfilled exactly once after its own state update, also across failed runs |
| `DeviceProperties.NothingLost` | src/instance_state.cc:378-395 | in every reachable state accepted requests are released, running or in flight, each once; likewise responses |
| `DeviceProgress.BlockedIsServed` | src/tensorrt.cc:412 | an issue thread blocked in `Acquire` without a free slot waits for an instance whose slots are all held by payloads in flight |
| `DeviceProgress.AwaitingIsServed` | src/instance_state.cc:396-400 | an issue thread waiting for the barrier finds it signalled, or its payload in flight, or the completion thread ended |
| `DeviceProgress.NotStuck` | src/instance_state.cc:1240-1262 | unless all is at rest or a completion thread has halted, some thread can step without a new call |
| `DeviceProgress.StepDecreases` | src/instance_state.cc:1240-1334 | every step that is not a new call lowers the measure |
| `DeviceProgress.Drains` | src/semaphore.h:38-50 | from any reachable state, without new calls, every run ends within the measure; where it ends a completion thread has halted, or nothing is in flight, all semaphores are at their idle values and all is answered |
| `DeviceProgress.ComesToRest` | src/instance_state.cc:1240-1334 | a run that goes as far as it can ends at rest, with all answered once, if and only if no state update failed in it and no batch had sizes that add up to zero |
| `DeviceAnswers.RunRecords` | src/instance_state.cc:404-1188 | over any run of the device and for each instance, what is accepted is what came to it, and what is created is one response for every request of every batch that is not zero |
| `DeviceAnswers.EveryClientIsAnswered` | src/instance_state.cc:1240-1334 | a run without faults that goes as far as it can has released exactly the requests that came and sent exactly the responses due for them, each once, in every interleaving |
| `Semaphores.Semaphore.Release` | src/semaphore.h:38-43 | adds one slot |
| `Semaphores.Semaphore.Acquire` | src/semaphore.h:45-50 | takes one slot, once there is one |
| `InstanceState.ModelInstanceState.constructor` | src/instance_state.cc:197-256 | the fields of a new instance are the initial state of the machine |
| `InstanceState.ModelInstanceState.RespondWithError` | src/instance_state.cc:445-451 | creates, sends, releases and nulls for the whole batch |
| `InstanceState.ModelInstanceState.FailAll` | src/instance_state.cc:57-117 | sends the responses still held, releases and nulls every request |
| `InstanceState.ModelInstanceState.StartRun` | src/instance_state.cc:414-433 | the start of `Run` equals the step of the machine |
| `InstanceState.ModelInstanceState.TotalBatchSize` | src/instance_state.cc:440-475 | the total in `size_t`, or none after a null request or a failed call |
| `InstanceState.ModelInstanceState.RunBatch` | src/instance_state.cc:437-1188 | the loops leave the requests, responses, responder and effects that `Accounting.EveryRequestIsAnswered`, `RunFailsExactly` and `ResponsesLeft` determine, for any outcome of the calls |
| `InstanceState.ModelInstanceState.AllNullified` | src/instance_state.cc:367-373 | the scan tells whether the run failed |
| `InstanceState.ModelInstanceState.FinishRun` | src/instance_state.cc:365-395 | the rest of `ProcessRequests` equals the step of the machine: slot back on failure, payload queued and both rings advanced on success |
| `InstanceState.ModelInstanceState.TakePayload` | src/instance_state.cc:1242-1245 | takes the oldest payload |
| `InstanceState.ModelInstanceState.ReleaseSlot` | src/instance_state.cc:1248-1262 | releases the slot and goes on with the payload |
| `InstanceState.ModelInstanceState.Finalize` | src/instance_state.cc:1266-1266 | sends failed responses with the error and nulls them |
| `InstanceState.ModelInstanceState.UpdateStates` | src/instance_state.cc:1264-1279 | equals the step of the machine |
| `InstanceState.ModelInstanceState.FailUpdate` | src/instance_state.cc:1264-1275 | equals the step of the machine for a failed state update |
| `InstanceState.ModelInstanceState.Respond` | src/instance_state.cc:1306-1334 | equals the step of the machine |
| `Arbitrators.DeviceBlockingArbitrator.RegisterInstance` | src/model_state.cc:38-53 | appends the instance; the first one of a device gives up one slot |
| `Arbitrators.DeviceBlockingArbitrator.ExecutionState` | src/model_state.cc:55-72 | returns the instance whose turn it is and the semaphore of the one after it, and keeps matching the machine |
| `Arbitrators.InstanceBlockingArbitrator.RegisterInstance` | src/model_state.cc:89-95 | every instance gives up one slot |
| `Arbitrators.InstanceBlockingArbitrator.ExecutionState` | src/model_state.cc:96-102 | what it returns is the instance and the semaphore that the machine selects for this issue thread, and the instances keep matching the machine |
| `GraphIndex.LowerBoundMissesNothing` | src/instance_state.cc:3217-3219 | no entry before the lexicographic lower bound matches or covers the key, and an exact entry can only be at it |
| `GraphIndex.FindClosestCudaGraph` | src/instance_state.cc:3210-3245 | the exact entry if there is one; otherwise, if allowed, the lexicographically least of all covering entries; nothing only if none covers |
| `GraphIndex.InsertSorted` | src/instance_state.cc:3592-3595 | insertion keeps the keys in order |
| `GraphIndex.InsertContents` | src/instance_state.cc:3592-3595 | insertion adds the entry if its key is new and changes nothing else |
| `GraphSpecs.PackBelow` | src/instance_state.h:114-117 | with fixed ranks, packed keys compare pointwise exactly as batch size and every input do |
| `GraphSpecs.PackInjective` | src/instance_state.h:114-117 | with fixed ranks, equal packed keys mean equal batch size and shapes |
| `GraphSpecs.ValidateGraphSpec` | src/instance_state.cc:3391-3457 | accepts exactly the specs whose batch sizes and bounds agree, by the loops over the inputs they name |
| `GraphSpecs.SetCudaGraphShape` | src/instance_state.cc:3622-3704 | succeeds exactly if the spec names all inputs and TensorRT takes the shapes, and yields the packed key, the lower bound key and `input_dims_` |
| `GraphSpecs.EntryWellFormed` | src/instance_state.cc:3391-3457 | an accepted spec yields keys of equal length with the lower bound pointwise below, if and only if the model supports batching; the key is the batch size and the flattened `input_dims_` |
| `GraphSpecs.CoversPerInput` | src/instance_state.cc:3228-3238 | covering a packed key means covering the batch size and every dimension of every input |
| `GraphSpecs.CoversNamedSpec` | src/instance_state.cc:3622-3704 | a graph made for a spec with shapes covers exactly the executions whose batch size and dimensions are between the bounds that the spec names, and is exact if and only if all are at the upper ones |
| `GraphSpecs.CoversDefaultSpec` | src/instance_state.cc:3643-3678 | a graph made by default covers exactly the optimum shapes at its batch size |
| `GraphStores.GraphStore.BuildCudaGraph` | src/instance_state.cc:3460-3620 | under every event set e it adds an entry with the packed key, bounds and dims of the spec if and only if the build gets to the capture loop, all captures before e succeed, that of e yields a graph and the key is new; nothing else changes |
| `GraphStores.GraphStore.InitializeCudaGraph` | src/instance_state.cc:3250-3262 | afterwards an entry is under event set e if and only if the first build that stores its key there stores it, and the index has a key if and only if some build stores it |
| `GraphStores.IndexContents` | src/instance_state.cc:3257-3262 | the entries under each event set after any number of builds, in both directions |
| `GraphStores.KeysOfIndex` | src/instance_state.cc:3592-3595 | a key is in the index if and only if some build stores it |
| `GraphStores.BuiltFromSpecs` | src/instance_state.cc:3250-3262 | whatever captures fail, the index of an event set is sorted, well formed with batching, and every entry comes from a spec and this event set's buffers |
| `GraphStores.LookupFitsPerInput` | src/instance_state.cc:3391-3457 | an entry that matches or covers an execution holds its batch size and every dimension of every input |
| `GraphStores.GraphStore.Lookup` | src/instance_state.cc:3210-3245 | end to end, the exact graph if there is one, captured for the very shapes of the execution, or else, if allowed, the least that covers; it is of one of the specs and holds the execution input by input; none without batching |
| `GraphStores.NonBatchingFindsNothing` | src/instance_state.cc:3628-3634 | without batching the lookup never finds a graph |
| `GraphStores.GraphBufferAgreement` | src/instance_state.cc:3518-3522 | the arithmetic behind it, for any numbers of sets: E event sets and B buffer sets that advance together agree for all executions if and only if B divides E |
| `GraphBuffers.GraphsNeedOneStream` | src/instance_state.h:119-128 | in all reachable states, for all specs and captures, every graph under the event set of a running execution was captured against its buffer set, if and only if there is no separate output stream |
| `GraphBuffers.FoundGraphsNeedOneStream` | src/instance_state.cc:3217-3218 | the same for the graphs that the lookup finds for the batch that runs, with its total size, if and only if there is no separate output stream or no batching |
| `GraphBuffers.ThirdNeverMatches` | src/instance_state.cc:3518-3522 | with a separate output stream, for all inputs, specs and captures, execution 3 has no graph of its own buffer set under its event set |
| `GraphBuffers.MismatchOnThird` | src/instance_state.cc:3217-3222 | for an engine with any one input it finds the graph made by default for a batch of one, of the other buffer set |
| `GraphLaunch.CheckGraphDims` | src/instance_state.cc:827-841 | passes exactly if the profile accepts the dims of the graph for every input |
| `GraphLaunch.GraphToLaunch` | src/instance_state.cc:817-892 | there is a graph if and only if an exact entry is in the index of the event set, or one that covers is and inexact matches are allowed, and it is the one to be found; the batch fails if and only if the graph is not exact and its dims are not accepted; a graph that is launched has accepted dims, holds every input of the execution and, within int, stays in the buffers |
| `Shapes.TruncationExact` | src/tensorrt_utils.cc:430-441 | the cast changes nothing if and only if every dimension fits in `int` |
| `Shapes.DimsToDimVec` | src/tensorrt_utils.cc:406-413 | the vector of the dimensions in use |
| `Shapes.DimVecToDims` | src/tensorrt_utils.cc:429-441 | converts with the cast, keeps the rest, and refuses vectors that are too long |
| `Shapes.ValidateRequestDims` | src/tensorrt_utils.cc:313-340 | accepts exactly the rank and range of the profile |
| `Shapes.ValidateDimension` | src/tensorrt_utils.h:126-160 | the same, with wildcards let through |
| `Shapes.SetBindingDimensions` | src/instance_state.cc:3850-3883 | accepts exactly the shapes whose dimensions are in range after the cast |
| `Shapes.AcceptedMeansInRange` | src/instance_state.cc:3850-3883 | an accepted shape is in range if and only if its dimensions fit in `int` |
| `Shapes.InRangeIsAccepted` | src/instance_state.cc:3850-3883 | a shape in range is accepted |
| `Shapes.PadMonotone` | src/instance_state.cc:2732-2735 | padding to the vector width is monotone |
| `Shapes.PaddedToNextMultiple` | src/instance_state.cc:2732-2735 | the vectorized dimension becomes the smallest multiple of the components above it, also if it is one itself; no other dimension changes |
| `Shapes.BytesAreProduct` | src/instance_state.cc:2728-2730 | the byte size is that of one element for the empty shape, and each dimension multiplies it |
| `Shapes.BytesOfPadded` | src/instance_state.cc:2732-2736 | the byte size of a vectorized format is that of the shape with the next multiple in the vectorized dimension |
| `Shapes.ByteSizeBelow` | src/instance_state.cc:750-794 | pointwise smaller shapes need no more bytes, padded or not |
| `Shapes.UnpaddedIsSmaller` | src/instance_state.cc:714-724 | leaving the padding out needs no more bytes |
| `Buffers.PrunedIsExact` | src/instance_state.cc:3793-3802 | the cast of the pruned dimensions loses nothing |
| `Buffers.PruningNarrows` | src/instance_state.cc:3793-3802 | a pruned profile admits exactly the shapes that the profile admitted and the configuration allows |
| `Buffers.PruningIdempotent` | src/instance_state.cc:1979-1989 | a second pass with the same configuration passes the checks and changes neither the profile nor the sizes |
| `Buffers.SupportsDeclared` | src/instance_state.cc:2704-2722 | which profiles support an input, in terms of its declaration: ranks agree and every declared dimension is open or in range; ragged inputs only need rank one |
| `Buffers.PrunedAdmits` | src/instance_state.cc:2704-2722 | what pruning keeps, in terms of the declaration: the shapes of the profile within the declared dims, and within the maximum batch size unless the input is a batch input |
| `Buffers.LargestSuffices` | src/instance_state.cc:2728-2747 | the largest size over the profiles holds every accepted shape whose dimensions fit in `int`, padded or not |
| `Buffers.LargestIsTight` | src/instance_state.cc:2728-2747 | one byte less would not do |
| `Buffers.CapacityLimit` | src/instance_state.cc:3850-3883 | the buffers hold all accepted shapes with dimensions below a limit, in every configuration, if and only if the limit is at most 2^32 |
| `Buffers.LargeDimensionsDoNotFit` | src/instance_state.cc:3863-3866 | for any buffer size and any profile with a non-empty maximum, with batching one dimension more, an accepted shape that keeps the batch dimension does not fit |
| `InputBindings.ModelInstanceState.MaximumDims` | src/instance_state.cc:3817-3848 | refuses other ranks and dimensions above the profile, otherwise takes the configured dimension or, where open, the one of the profile |
| `InputBindings.ModelInstanceState.ConfigureInputDimensions` | src/instance_state.cc:3764-3815 | fails without change outside the profile, after the change if TensorRT refuses; otherwise prunes one profile for one input |
| `InputBindings.ModelInstanceState.CheckInput` | src/instance_state.cc:2634-2702 | passes exactly if direction, data type and configured shape agree with the engine, by the rule for controls, ragged inputs or others |
| `InputBindings.ModelInstanceState.ValidateControlDimsDynamic` | src/tensorrt_utils.cc:342-366 | accepts exactly the shapes of control tensors |
| `InputBindings.ModelInstanceState.PruneProfiles` | src/instance_state.cc:2617-2747 | the loop over the profiles: when it completes all are pruned and the maximum is over all of them; otherwise a prefix is |
| `InputBindings.ModelInstanceState.InitializeExecuteInputBinding` | src/instance_state.cc:2591-2775 | succeeds exactly if the input is known and needs no buffer, or is free, agrees with the engine, is supported by all profiles and allocated; then the buffer has the largest size over the pruned profiles, padded as `Shapes.BytesOfPadded` says |
| `InputBindings.PruningKeepsSized` | src/instance_state.cc:3793-3802 | pruning for one input, or again for the same one, keeps the sizes of the buffers already set up correct |
| `InputBindings.ModelInstanceState.InitIOBindingBuffers` | src/instance_state.cc:1972-1989 | after all passes both buffer sets are equal, and every buffer holds whatever the run-time checks let through within `int` |
| `ShapeTensors.DecodeOfEncode` | src/shape_tensor.cc:66-74 | storing and loading is a cast, exact if and only if the value fits |
| `ShapeTensors.ByteOf` | src/shape_tensor.cc:66-74 | byte i of a stored value is its digit for 256^i |
| `ShapeTensors.CastIs` | src/shape_tensor.cc:66-74 | a cast yields the value that fits and differs by a multiple of 256^width |
| `ShapeTensors.Ranges` | src/shape_tensor.cc:66-74 | what fits in four bytes is int32, in eight bytes int64 |
| `ShapeTensors.ValuesOfEncodeAll` | src/shape_tensor.cc:98-110 | values that fit survive being stored as bytes |
| `ShapeTensors.AcceptedIsLongEnough` | src/shape_tensor.cc:161-163 | data that pass the size check are long enough for the copy if and only if batching is on, nothing is copied, or they have the full size |
| `ShapeTensors.ShortDataIsAccepted` | src/shape_tensor.cc:79-84 | without batching, data of one value less pass and are too short, for every type and count |
| `ShapeTensors.ShapeTensor.SetDataFromBuffer` | src/shape_tensor.cc:31-87 | succeeds exactly for data of a supported type and admitted size; the bytes then decode to the values at the front of the data, and of what lies behind if they are too short, after the total batch size when batching |
| `ShapeTensors.RequestRoundTrip` | src/shape_tensor.cc:66-80 | a request that sends its values gets the batch size and those values |
| `ShapeTensors.SentBatchSizeShiftsValues` | src/shape_tensor.cc:158-175 | a request that also sends a batch size gets its values shifted by one |
| `ShapeTensors.BatchedRequestRoundTrip` | src/shape_tensor.cc:66-87 | data with or without a sent batch size are admitted, and the tensor says the total batch size and the request's values if and only if none was sent or all values are equal to it |
| `ShapeTensors.UnbatchedRequestRoundTrip` | src/shape_tensor.cc:81-87 | without batching the values a request sends are admitted and are what the tensor says |
| `ShapeTensors.ShapeTensor.SetDataFromShapeValues` | src/shape_tensor.cc:89-117 | the bounds of a profile keep their values in either type |
| `ShapeTensors.ShapeTensor.GetDistance` | src/shape_tensor.cc:119-142 | the sum of differences, value idx of the optimum against value idx - 1, which `DistanceVanishes` and `DistanceGrows` determine |
| `ShapeTensors.DistanceZero` | src/shape_tensor.cc:119-142 | the distance is zero if and only if the optimum is the batch size followed by the values |
| `ShapeTensors.DistanceVanishes` | src/shape_tensor.cc:119-142 | it is zero if and only if the first value of the optimum is the batch size and each other one the value before it |
| `ShapeTensors.DistanceGrows` | src/shape_tensor.cc:119-142 | one value of the optimum one further away from what it is compared with, on either side, adds exactly one |
| `ShapeTensors.ValidateShapeValues` | src/tensorrt_utils.cc:368-404 | accepts exactly the right number of values of the right type, each in range |
| `ShapeTensors.ValidateBatchSize` | src/tensorrt_utils.cc:563-588 | accepts exactly if the cast batch size is between the first bounds |
| `ShapeTensors.RangeCoversBatchSize` | src/instance_state.cc:1544-1552 | values in range imply that the batch size check accepts |
| `Profiles.EvaluateTensorRTContext` | src/instance_state.cc:1472-1584 | the distance that `DistanceOfOptimum` and `DistanceOfMoved` determine, LLONG_MAX exactly from the first unsupported input on, or the sum so far when a call of the request API fails |
| `Profiles.EvaluateInput` | src/instance_state.cc:1485-1581 | whether one input is supported, as `FeasibleMeansRun` says, and what it adds to the distance, as `CostZero` and `CostGrows` say |
| `Profiles.GetMostOptimizedProfile` | src/instance_state.cc:1421-1469 | the first of the profiles at the least distance; none usable gives the first one and an error; a single one is taken as it is |
| `Profiles.DistanceOfMoved` | src/instance_state.cc:1504-1582 | of a profile that supports the batch, any number of the optimum that is one further away from what it is compared with, on either side, adds exactly one to the distance: dimensions of ordinary, ragged and shape inputs, and values of shape tensors |
| `Profiles.DistanceOfOptimum` | src/instance_state.cc:1504-1582 | the distance is zero if and only if every number of the optimum is what it is compared with: the elements of a ragged input, or the batch size followed by the shape of the batch |
| `Profiles.CostZero` | src/instance_state.cc:1504-1582 | one input adds nothing if and only if every number of the optimum for it is what it is compared with |
| `Profiles.CostGrows` | src/instance_state.cc:1504-1582 | a number of the optimum one further away adds exactly one to what the input costs |
| `Profiles.ElementsOfAll` | src/instance_state.cc:1504-1518 | the elements of a ragged input are the sum over all requests |
| `Profiles.FeasibleMeansRun` | src/instance_state.cc:766-772 | a profile supports an input if and only if `Run` lets it through under that profile and its dimensions fit in `int` |
| `Profiles.ShapeFeasibleMeansRun` | src/instance_state.cc:1536-1562 | for shape tensors of batched requests: supported if and only if the checks of `Run` pass and the shape is in range; the separate check of the batch size adds nothing |
| `Profiles.ChosenPassesRun` | src/instance_state.cc:585-590 | for the chosen profile every ordinary, ragged and shape input that its evaluation read passes the checks of `Run` |
| `Profiles.NoneUsable` | src/instance_state.cc:1441-1458 | without a usable profile the first is taken, and an input of the request is outside it |
| `Profiles.CutShortIsNearer` | src/instance_state.cc:1484-1494 | an evaluation that a failing call cuts short leaves the profile as near as it would have been, or nearer |
| `Profiles.ChosenFitsBuffer` | src/instance_state.cc:750-812 | what `Run` then writes for an input fits the buffer allocated at load time |
| `Profiles.NoDistance` | src/instance_state.cc:1568-1573 | a dense input costs nothing if and only if the optimum is the batch size followed by all but its last dimension |
| `Profiles.OwnOptimumCost` | src/instance_state.cc:1568-1573 | a profile made for the very shape of the batch costs nothing if and only if every dimension is equal to the batch size |
| `Profiles.OptimumMayLose` | src/instance_state.cc:1429-1439 | two usable profiles where the one made for the shape of the batch is not chosen |
| `EngineCache.CalledInv` | src/model_state.cc:192-274 | a call of `CreateEngine`, failing anywhere, keeps the invariant of the cache |
| `EngineCache.DynamicEnginesAreNotShared` | src/model_state.cc:243-268 | after any calls cached engines are static, dynamic ones were handed to exactly one caller, and sharing is on if and only if no dynamic engine was created |
| `EngineCache.OnePerDevice` | src/model_state.cc:202-232 | after any calls there is at most one runtime per device and DLA core, and one engine while sharing is on |
| `EngineCache.NothingIsTakenBack` | src/model_state.cc:256-268 | sharing never comes back; cached engines and runtimes stay |
| `EngineCache.CachedEngineIsReused` | src/model_state.cc:269-271 | a cached engine is what every later caller for that device gets |
| `EngineCache.ModelState.LoadPlan` | src/loader.cc:38-98 | creates a runtime only if there is none and keeps it when the rest fails |
| `EngineCache.ModelState.CreateEngine` | src/model_state.cc:192-274 | an engine is handed out if and only if one is cached, or the device is set, a runtime is there or created, the DLA core exists or none is asked for, and the plan is read and deserialized; it is the cached one or else the new one; the fields change as the function on values says |
| `EngineCache.HasDynamicShape` | src/model_state.cc:246-255 | finds a wildcard in any tensor of the engine |
| `AutoComplete.InitIODims` | src/model_state.cc:821-856 | writes non-empty dims whose shape, after a reshape if there is one, is that of the engine without the batch dimension; a reshape is written if and only if no dimension is left |
| `AutoComplete.CompareDimsSupported` | src/tensorrt_utils.cc:192-265 | accepts exactly shapes that agree with the engine up to wildcards, or exactly |
| `AutoComplete.AgreeMeansCommonInstance` | src/tensorrt_utils.cc:192-265 | shapes agree up to wildcards if and only if some shape without wildcards is an instance of both |
| `AutoComplete.CompareShapeDimsSupported` | src/tensorrt_utils.cc:267-311 | accepts exactly the shapes of shape tensors of rank at most one |
| `AutoComplete.ExecutionTensorRoundTrip` | src/instance_state.cc:2069-2075 | what was completed for an execution tensor loads if and only if it has a batch dimension when batching needs one |
| `AutoComplete.ExactAcceptsOnlyCompleted` | src/tensorrt_utils.cc:192-265 | an exact comparison accepts nothing else |
| `AutoComplete.ShapeTensorRoundTrip` | src/instance_state.cc:2042-2047 | what was completed for a shape tensor loads if and only if it has rank 0, or rank 1 and a length that is not 0 with batching and not open without |
| `AutoComplete.ShapeAcceptsOnlyCompleted` | src/tensorrt_utils.cc:267-311 | the check of shape tensors accepts nothing else |

## Left out

- InputBindings.ModelInstanceState.InitializeExecuteInputBinding: a full shape without any dimension is excluded, because the code reads its first one.
- ShapeTensors.ShapeTensor.SetDataFromBuffer: what lies behind data that are too short is any bytes, and reading it does not stop the program; the number of values, with the batch size, times eight stays below 2^64.
- GraphStores.GraphBufferAgreement: arithmetic only; `GraphBuffers.GraphsNeedOneStream` states it of running instances and captured graphs.
- GraphStores.GraphStore.BuildCudaGraph: the ring indices of the instance, which the early return after a failed first execution does not restore, are not part of the store.
- The collector and the responder, streams, events, pinned memory, zero copy and the capture itself: calls into libraries, represented by their outcomes.
- Host copies of shape tensors in eager mode (src/instance_state.cc:606-612), which do not wait for the event of the previous execution.
- Shape tensor inputs and outputs, output bindings, `SetOutputShapeTensorBuffer` and `OutputAllocator`: similar to the input side, or a buffer that only grows.
- The destructor and the end of the completion thread that it asks for.
- Parsing of the model configuration and of its parameters, `ValidateIO`, `FixIO` and batch hints: long sequences of lookups.
- The parsing of graph specs from the configuration (src/instance_state.cc:3267-3384); their validation is modelled.
- What a response holds, its error included: the model records that it is created and sent.
- Statistics, timestamps, logging and NVTX ranges.
- Overflow of byte sizes, element counts and distances beyond 64 bits.
