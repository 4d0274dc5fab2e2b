# Verification of the multi-rank plan runtime

This project models the repository's execution of verified straight-line plans: a plan is a single-assignment
program whose instructions encode plaintexts, compute on ciphertexts and move values between the Places (hosts
and devices) of several ranks. Every rank interprets the whole plan on its own part of the values, transfers are
asynchronous, and values are released at their last use. The central claim is that all of this computes what one
sequential interpreter of the plan would compute.

The model has these layers, bottom up.

- `Plan`, `Vec`, `Rules`: the plan datatype, the arithmetic of slot vectors with their metadata, and what it means
  for a plan to be well-formed, stated without an order of checking. A slot is the term that produced it, so equal
  slots are equal under every reading of addition, subtraction, multiplication and negation.
- `Verifier`: the single imperative pass of the plan verifier, proved to decide well-formedness exactly.
- `Accepts`, `AcceptsMoves`: the rules of the verifier once more, field by field, on plans of one instruction.
- `Semantics`, `Widths`, `ShortInputs`: the sequential meaning of a whole plan, and the soundness of the verifier with
  respect to it, for inputs of any lengths.
- `Reading`, `PlanReading`: what the operations and the meaning are as numbers, each kind of operation written out.
- `RankState`, `RankInvariant`, `RankSteps`, `RankRun`: the memory of one rank (store of ready and pending entries,
  communication groups, use counts), its invariant, and the operations that keep it.
- `Protocol`, `ProtocolNode`, `ProtocolSafety`, `ProtocolCalm`, `ProtocolLiveness`, `ProtocolTheorems`, `ProtocolFaults`: all
  ranks, sender threads, the message table, the start-up barrier, the abort flag and every injected fault as a
  transition system in which any rank or sender may move next; its invariant, and the theorems over whole runs.
- `Deployment`: the fan-out plan on the cluster it was built for, from literal settings to the numbers it delivers, and
  what keeps a rank from starting.
- `RankProgram`, `Runtime`, `Cluster`: the runtime and the mock cluster as objects that update their fields, proved equal
  to the specification functions the transition system is built from.
- `Alignment`, `AlignmentSound`, `AlignmentComplete`, `Artifacts`: the translation validator that compares a distributed
  plan with a reference plan, its soundness, and its completeness for inserted transfers.
- `Executor`, `Async`, `AsyncMeaning`: the executor's loops in place, the single-assignment value, and the worker queues.
- `Sha256`, `ShaConstants`, `ShaFunctions`, `Mpi`, `Bundle`: digests and their constants, message tags and slot
  bookkeeping, identifiers and plaintext bundles.
- `Fanout`, `Mlp`, `SingleAssignment`: the plan builder and the reference interpreters of the harness and the experiments.

The hypotheses of a fault-free run are collected in `ProtocolCalm.Healthy`: every rank's own checks pass, the skip flags
and digests agree, every rank is given exactly the bindings of its own external inputs, the plan is verified
under a spec with a degree of at least two and levels inside the modulus chain, every external input is valid and of a
length its operations can work on (`Widths.WidthsFit`), every bundle content is loaded, no encode or rescale has a
negative result scale, and no fault is injected. Safety and termination need none of them.

Where the code turned out to promise less than one would expect:

- The plan verifier never looks at the sign of a scale. A plan with a negative scale is accepted and its encode or
  rescale then fails (`SingleAssignment.NegativeScaleIsAccepted`). `Semantics.VerifiedPlansRun` gives the exact condition.
  Such a scale reaches the code only in a plan built in memory: the plan reader takes both the scale of a value and the
  target scale of a rescale as non-negative (runtime/json_plan_reader.cpp:116 and 159), and then every value is computed
  (`Semantics.NonNegativeScalesRun`).
- `validate_value` does not look at slot counts, while binary operations do, so a verified plan can fail on validated
  inputs (`ShortInputs.SumNeedsEqualLengths`). `Widths.RunsExactly` gives the exact condition on their lengths, and that
  condition, not full width, is the hypothesis of the theorems about fault-free runs.
- In `index_artifacts` the branch for a value met on two ranks cannot be taken: the ownership test before it already
  excludes that (`Artifacts.OwnedOnce`).
- Alignment compares encode payloads as doubles. A plan with a NaN literal therefore does not align with itself
  (`AlignmentComplete.AlignsWithItself`), and the two zeros are equal. That is sound only because an encode
  normalizes zeros (`AlignmentSound.EncodeAgrees`).
- A context with a NUL character does not survive the MPI wire header, nor does an empty slot vector
  (`Mpi.HeaderRoundTrip`).

## Model

| member | source | states |
|---|---|---|
| `ProtocolTheorems.HealthyRunsSucceed` | runtime/runtime.hpp:98-155 | A fault-free run of a verified plan on valid inputs is bounded, and when nothing can move any more every rank has finished with exactly its part of the sequential meaning |
| `ProtocolTheorems.ReadyMeansMeaning` | runtime/runtime.hpp:252-365 | In every reachable state, under any interleaving and any injected fault, a ready value is at its own Place and is the value the sequential interpreter of the whole plan gives its identifier |
| `ProtocolTheorems.FinishedIsExpected` | runtime/runtime.hpp:132-148 | A rank that returns at all returns the meanings of its values, whatever faults were injected; every communication was posted once and waited for once, bystanders included |
| `ProtocolTheorems.ScheduleIndependence` | runtime/runtime.hpp:98-155 | Two runs of one program, under different schedules, faults and settings of other ranks, give a rank the same artifact |
| `ProtocolTheorems.ReleaseIsExact` | runtime/runtime.hpp:367-396 | In every reachable state a use count equals the uses in the instructions to come plus those of unfinished sends plus the final output; a value with a use to come is held, one without is gone |
| `ProtocolTheorems.FinishedStore` | runtime/runtime.hpp:389-396 | The store of a finished rank is exactly the local final outputs plus the values nothing reads (or all local values when retained) |
| `ProtocolTheorems.ReleaseKeepsResults` | runtime/runtime.hpp:412-428 | The final outputs of a run that releases early are those of a run that retains everything |
| `ProtocolTheorems.TransfersFenced` | runtime/runtime.hpp:135-140 | Initialization transfers are complete before the next phase starts, and the source of a send stays ready in the store until its group has been waited for |
| `ProtocolTheorems.PostsAndWaits` | runtime/runtime.hpp:315-365 | At every moment of a run a rank has posted each communication before its position exactly once, bystander or not, and has waited exactly once for each completed group and for the one it is waiting for |
| `ProtocolTheorems.BarrierAgreement` | api/mock_api.cpp:13-40 | No rank is past the barrier unless all ranks registered, passed their own checks, and agree on the skip flag and, unless skipped, on the plan digest |
| `ProtocolTheorems.AbortIsSticky` | api/mock_api.cpp:59-84 | After an abort the first reason stays, no message is published, and no rank passes the barrier |
| `ProtocolTheorems.AbortedStep` | api/mock_api.cpp:69-75 | One step after an abort: nothing is published and nothing is received |
| `ProtocolTheorems.QuietMeansOver` | api/mock_api.cpp:59-84 | No deadlock, with or without faults: if nothing can move, every rank has finished or panicked; and every run is bounded by a measure of its initial state |
| `ProtocolTheorems.RunsComplete` | runtime/runtime.hpp:98-155 | Every run can be carried on until every rank has finished or panicked |
| `ProtocolTheorems.ArtifactsPartition` | runtime/runtime.hpp:412-428 | With all values retained, a value is in the artifact of the rank of its Place and in no other |
| `Deployment.FanoutDelivers` | tests/runtime_tests.cpp:298-307 | The fan-out on its cluster, for every list of device counts, schedule and pair of inputs of equal length: every run that cannot go on has all ranks finished, the rank of the last device holds the final output at its host, every slot reading as the negated product of the inputs, and nothing else is delivered unless retained |
| `Deployment.ClusterIsHealthy` | runtime/runtime.hpp:98-131 | The literal settings of the fan-out (one rank per count with that many devices, agreeing flags and digests, both inputs at rank 0, no faults) are those of a fault-free run |
| `Deployment.ClusterExists` | tests/runtime_tests.cpp:298-307 | Such a cluster exists for every list of counts the builder accepts and all inputs of equal length |
| `Deployment.StartUpChecks` | runtime/verifier.cpp:339-346 | In every run of any plan a rank past start-up has the devices the target gives it, the cluster its number of ranks, the plan is verified, the bundle loaded, and no instruction needs a missing capability or key |
| `Deployment.WrongDevicesStayOut` | runtime/verifier.cpp:343 | A rank with another number of devices than the target gives it never gets past start-up |
| `Deployment.FanoutNeeds` | runtime/verifier.cpp:250-281 | The fan-out asks for transfers, for replicates from two devices on, and for no host compute and no key |
| `ProtocolFaults.FinishedWasSpared` | api/mock_api.cpp:134-173 | A rank that returns has met no injected fault: no failing call, nothing lost or corrupted among what it received, nothing unpublished among what it sent |
| `ProtocolFaults.FaultsStopRanks` | runtime/runtime.hpp:149-153 | If a fault is on the way of a rank, every run that cannot go on is aborted with that rank in a panic |
| `ProtocolFaults.AbortIsCaused` | api/mock_api.cpp:13-84 | In every run an abort has the cause its reason names: a rank in a panic, an injected publish failure, or two ranks with different flags, or different digests while digests count |
| `ProtocolLiveness.Progress` | api/mock_api.cpp:134-155 | From a rank that is not done an enabled action is found by following what each blocked rank waits for, which is strictly further behind |
| `ProtocolLiveness.StepLowers` | runtime/runtime.hpp:252-289 | Every enabled action lowers the measure |
| `ProtocolLiveness.RunIsBounded` | runtime/runtime.hpp:98-155 | The number of steps taken plus the measure never exceeds the initial measure |
| `ProtocolSafety.StepKeeps` | api/mock_api.cpp:13-84 | The global invariant is kept by every action of every rank and sender |
| `ProtocolSafety.ReachableInv` | api/mock_api.cpp:13-84 | The global invariant holds in every state of every run |
| `ProtocolSafety.CorruptionIsCaught` | api/mock_api.cpp:156-167 | A wait whose result was corrupted in count, kind or metadata never completes its group |
| `ProtocolSafety.MessageMeaning` | api/mock_api.cpp:59-75 | A message found under the key of a local output carries the meaning of that output and passes its validation |
| `ProtocolSafety.TransferIsUnique` | runtime/verifier.cpp:278 | A transfer identifier belongs to one instruction |
| `ProtocolCalm.StepCalm` | runtime/runtime.hpp:262-365 | In a fault-free run no step raises an error: no missing or doubly defined value, no Place mismatch, no executor or validation failure, no release error, no duplicate message |
| `ProtocolCalm.HealthyRunsAreCalm` | runtime/runtime.hpp:149-153 | No state of a fault-free run is aborted or holds a panicked rank |
| `ProtocolNode.RunNodeKeeps` | runtime/runtime.hpp:252-341 | A local operation of a rank keeps the invariant of its node, and a sender it starts carries the meaning of the transfer source |
| `RankSteps.CompleteKeeps` | runtime/runtime.hpp:343-365 | Finishing a group with faithful payloads keeps the memory good even in the middle of collecting operands; values already ready and still needed are untouched |
| `RankSteps.ComputeKeeps` | runtime/runtime.hpp:291-313 | A local compute keeps the memory good, repeated operands included |
| `RankSteps.EncodeKeeps` | runtime/runtime.hpp:262-276 | A local encode keeps the memory good |
| `RankSteps.SkipKeeps` | runtime/runtime.hpp:292 | An instruction of another rank changes nothing here |
| `RankSteps.ComputedMeaning` | runtime/runtime.hpp:293-296 | The executor applied to the collected operands gives the meaning of the output |
| `RankRun.PostKeeps` | runtime/runtime.hpp:315-341 | Posting succeeds on a verified plan and turns the local outputs into pending slots of one new group |
| `RankRun.BindKeeps` | runtime/runtime.hpp:238-250 | Binding the inputs and counting the uses establishes the memory invariant |
| `RankRun.BindWorks` | runtime/runtime.hpp:238-250 | Binding on valid inputs succeeds exactly when the bindings given are those of the external inputs of the rank, no fewer and no more |
| `RankRun.FullWidthRunnable` | runtime/verifier.cpp:64-150 | With full-width inputs only the sign of the scales decides whether a verified plan is runnable |
| `RankRun.UniformRunnable` | api/mock_api.cpp:196-203 | The same for inputs of any one common length, the full one if the plan encodes anything |
| `RankRun.FinalStore` | runtime/runtime.hpp:389-396 | After the last instruction a good memory holds exactly the kept values (all local ones, or final outputs and values nothing reads), each at its Place with its meaning |
| `RankRun.PublishExpected` | runtime/runtime.hpp:402-428 | The artifact made from a good final memory is the expected one |
| `RankRun.CompleteWorks` | runtime/runtime.hpp:353-364 | Completing a group with the meanings of its outputs never fails on a runnable program |
| `RankRun.ComputeWorks` | runtime/runtime.hpp:296-312 | A compute on its collected operands never fails on a runnable program |
| `RankInvariant.ReleaseAllEffect` | runtime/runtime.hpp:389-396 | Releasing a list of operands takes their multiplicities off the counts and drops exactly the values that reach zero |
| `RankProgram.ReceivedInOrder` | api/mock_api.cpp:154-155 | The k-th payload of a wait is the message of the k-th local slot |
| `RankProgram.ReachableIsGenuine` | api/mock_api.cpp:59-67 | The message table of every reachable state holds only genuine messages |
| `RankProgram.RunRankExpected` | runtime/runtime.hpp:98-155 | One rank alone: on genuine messages a run that returns gives the sequential meaning, whatever faults are injected |
| `RankProgram.RunRankWorks` | runtime/runtime.hpp:98-155 | One rank alone: on genuine and complete messages, without faults, a runnable program returns that result |
| `RankProgram.CollectKeeps` | runtime/runtime.hpp:293-294 | Operands are collected faithfully even when a group is finished between two of them |
| `Runtime.SequentialRuntime.Run` | runtime/runtime.hpp:132-148 | The imperative run equals its specification and, on genuine messages, returns the sequential meaning of the rank |
| `Runtime.SequentialRuntime.InitializeUseCounts` | runtime/runtime.hpp:367-387 | The counting loops give each value its number of local uses, final output included |
| `Runtime.SequentialRuntime.BindLocalInputs` | runtime/runtime.hpp:238-250 | Exactly the local external inputs are bound, each validated; a missing, an invalid or a surplus binding is an error |
| `Runtime.SequentialRuntime.ExecuteEncode` | runtime/runtime.hpp:262-276 | The memory after an encode is the one of the specification the transition system uses, or the error is |
| `Runtime.SequentialRuntime.EnsureValue` | runtime/runtime.hpp:278-289 | Value and new memory of making an operand ready |
| `Runtime.SequentialRuntime.ExecuteCompute` | runtime/runtime.hpp:291-313 | New memory of a compute: operands collected in order, output defined, each operand released |
| `Runtime.SequentialRuntime.ExecuteCommunication` | runtime/runtime.hpp:315-341 | New memory of a post; one more post; the started sender carries the collected source |
| `Runtime.SequentialRuntime.FinishOne` | runtime/runtime.hpp:343-365 | New memory of finishing a group |
| `Runtime.SequentialRuntime.WaitFor` | api/mock_api.cpp:149-173 | One receive per local slot in order, then the injected corruptions |
| `Runtime.SequentialRuntime.InstallOutputs` | runtime/runtime.hpp:354-361 | The k-th payload is validated for and installed at the k-th local output |
| `Runtime.SequentialRuntime.ReleaseAfterUse` | runtime/runtime.hpp:389-396 | One use less; the value leaves the store at zero |
| `Runtime.SequentialRuntime.FinishAllGroups` | runtime/runtime.hpp:398-400 | All groups finished in order |
| `Runtime.SequentialRuntime.PublishArtifact` | runtime/runtime.hpp:402-428 | Final outputs synchronized, then the artifact |
| `Runtime.SequentialRuntime.ExecutePhase` | runtime/runtime.hpp:252-260 | The instructions of a phase in order, stopping at the first error |
| `Runtime.ValueStore.Define` | runtime/runtime.hpp:67-74 | A value is defined once and never overwritten |
| `Runtime.ValueStore.Erase` | runtime/runtime.hpp:81-85 | Erasing an absent value is an error |
| `Cluster.MockCluster.Register` | api/mock_api.cpp:15-19 | A rank registers once |
| `Cluster.MockCluster.Leave` | api/mock_api.cpp:20-40 | Leaving the barrier succeeds exactly when nothing is aborted and all ranks agree; otherwise the cluster is aborted |
| `Cluster.MockCluster.Publish` | api/mock_api.cpp:59-67 | A message is stored exactly when nothing is aborted, no fault is injected, and the key is new |
| `Cluster.MockCluster.Receive` | api/mock_api.cpp:69-75 | After the wait, the message is returned exactly when nothing is aborted and no fault is injected |
| `Cluster.MockCluster.AbortAll` | api/mock_api.cpp:77-84 | The first reason is kept |
| `Cluster.MockCluster.Send` | api/mock_api.cpp:134-144 | A sender publishes every slot, or stops after a prefix with the cluster aborted |
| `Cluster.PublishIsSenderStep` | api/mock_api.cpp:59-67 | The sender transition of the global machine is one publish of the object |
| `Verifier.Verify` | runtime/verifier.cpp:169-337 | The single pass accepts exactly the well-formed plans and returns exactly the capabilities and keys of the instructions |
| `Accepts.VerifyCase` | tests/runtime_tests.cpp:89-137 | The plan of one compute instruction, for each of the twelve kinds and any operands, attributes, output, operator support and boot profiles: accepted if and only if the fields stand in the relation written out for the kind, and then with exactly the capabilities and keys of the kind |
| `Accepts.CaseExact` | runtime/verifier.cpp:64-150 | Such a plan is well-formed if and only if the relation of its kind holds |
| `AcceptsMoves.VerifyMove` | runtime/verifier.cpp:277-310 | The plan of one communication: accepted if and only if it copies its source, at its own place, to one other place (transfer) or to two or more different ones (replicate) with the same kind and metadata |
| `AcceptsMoves.EncodeExact` | runtime/verifier.cpp:222-237 | The plan of one encode: accepted if and only if it is in the initialization, onto a host, as a plaintext, with 1 to 4096 literals and no bundle, or from a bundle |
| `AcceptsMoves.HeaderExact` | runtime/verifier.cpp:172-186 | Under any header: accepted if and only if the versions are supported, the target is complete, and it names the loaded spec |
| `Verifier.Pass.CheckInstruction` | runtime/verifier.cpp:220-313 | One turn of the pass accepts exactly a well-formed instruction and grows its sets by what the instruction defines and needs |
| `Verifier.Pass.CheckCompute` | runtime/verifier.cpp:238-276 | Acceptance of a compute instruction, both directions |
| `Verifier.Pass.CheckComm` | runtime/verifier.cpp:277-310 | Acceptance of a communication, both directions |
| `Verifier.Pass.CheckCommOutputs` | runtime/verifier.cpp:299-310 | The destination loop, both directions, with its partial effects |
| `Verifier.Pass.CheckEncode` | runtime/verifier.cpp:222-237 | Acceptance of an encode, both directions |
| `Verifier.CheckValues` | runtime/verifier.cpp:188-202 | The value loop accepts exactly valid descriptors with unique identifiers |
| `Verifier.CheckBudget` | runtime/verifier.cpp:195-197 | The modulus budget test |
| `Verifier.NormalizeIsEuclidean` | runtime/verifier.cpp:160-162 | Truncating remainder plus correction is the Euclidean remainder |
| `Verifier.RotationStepSpec` | runtime/verifier.cpp:157-165 | A step is accepted exactly when it is not a multiple of the slot count, and its key step lies in 1..slots-1 |
| `SingleAssignment.DefinedExactlyOnce` | runtime/verifier.cpp:204-331 | Every descriptor of an accepted plan is defined at exactly one site |
| `SingleAssignment.UsesFollowDefinitions` | runtime/verifier.cpp:240-246 | Every operand is defined at an earlier site, at the Place its instruction names |
| `SingleAssignment.NegativeScaleIsAccepted` | runtime/verifier.cpp:195-197 | A concrete plan the verifier accepts although its encode fails: no rule looks at the sign of a scale |
| `Semantics.VerifiedPlansRun` | runtime/verifier.cpp:64-150 | Verifier soundness with its exact condition: every value gets a value if and only if no encode or rescale has a negative result scale; all values match their descriptors |
| `Semantics.NonNegativeScalesRun` | runtime/json_plan_reader.cpp:116 | With non-negative scales, as the plan reader demands them, every value of an accepted plan is computed and matches its descriptor |
| `Widths.RunsExactly` | api/vec_api.cpp:12 | Verifier soundness for inputs of any lengths: every value is computed if and only if no result scale is negative and the operands of every binary operation have the same predicted slot count (and those of a rotation at least one); every computed value has the predicted count |
| `Widths.UniformRuns` | api/mock_api.cpp:196-203 | With inputs of one common length, the full one if the plan encodes anything, only the scales decide |
| `ShortInputs.SumNeedsEqualLengths` | api/mock_api.cpp:196-203 | A verified plan whose inputs pass validation at any lengths, and which computes its sum exactly when the lengths are equal |
| `Semantics.ComputeSound` | api/vec_api.cpp:80-201 | For each of the twelve operations, on matching operands: metadata is never rejected, execution succeeds exactly on a non-negative rescale scale, and the result matches the output descriptor |
| `Semantics.AfterStable` | testing/testing.cpp:155-166 | Single assignment: once an instruction has had its turn its outputs never change |
| `Semantics.MeaningEquation` | testing/testing.cpp:155-166 | The meaning satisfies the equation of every instruction |
| `Alignment.PlanAlignment.Verify` | experiments/dacapo_plan_vec_diff.cpp:132-139 | Accepts exactly the aligned pairs |
| `AlignmentComplete.AlignsWithItself` | experiments/dacapo_plan_vec_diff.cpp:88-94 | A verified single-rank plan without communication aligns with itself if and only if no inline literal is a NaN |
| `AlignmentComplete.InsertionAligns` | experiments/dacapo_plan_vec_diff.cpp:187-299 | If a pair aligns, it still aligns after one more point-to-point transfer, at any position, to a fresh identifier of the same metadata, with any uses redirected to it |
| `AlignmentComplete.OnlyTransfers` | experiments/dacapo_plan_vec_diff.cpp:187-203 | In an aligned plan every communication is a point-to-point transfer of one value to one place, to an identifier the reference does not have |
| `AlignmentComplete.DoublesByPattern` | experiments/dacapo_plan_vec_diff.cpp:88-94 | Equality of literals by bit patterns: the two zeros are equal, a NaN differs from itself |
| `Alignment.PlanAlignment.ResolveValue` | experiments/dacapo_plan_vec_diff.cpp:287-299 | Resolution with its in-out set of active identifiers terminates, equals its specification, and leaves the set unchanged on success |
| `Alignment.PlanAlignment.IndexReference` | experiments/dacapo_plan_vec_diff.cpp:173-185 | Accepts exactly communication-free plans with unique outputs and builds their index |
| `Alignment.PlanAlignment.IndexTransfers` | experiments/dacapo_plan_vec_diff.cpp:187-208 | Accepts exactly point-to-point transfers with new, unique, resolvable outputs and builds the lineage |
| `Alignment.PlanAlignment.VerifyTargets` | experiments/dacapo_plan_vec_diff.cpp:147-171 | Accepts exactly when the reference is a single rank without devices, both targets name the same spec, and the same external inputs live on the host of rank 0 |
| `Alignment.PlanAlignment.VerifyValues` | experiments/dacapo_plan_vec_diff.cpp:210-232 | The metadata comparison, both directions |
| `Alignment.PlanAlignment.VerifyInstructions` | experiments/dacapo_plan_vec_diff.cpp:234-273 | The instruction comparison, both directions; the final count comparison means every reference instruction occurs |
| `Alignment.PlanAlignment.VerifyOutputs` | experiments/dacapo_plan_vec_diff.cpp:275-285 | The output comparison, both directions |
| `AlignmentSound.AlignmentIsSound` | experiments/dacapo_plan_vec_diff.cpp:132-299 | For two verified plans that align, every distributed value has a reference value and, on the same inputs, equals it in payload and metadata |
| `AlignmentSound.FinalOutputsAgree` | experiments/dacapo_plan_vec_diff.cpp:275-285 | The i-th final outputs are equal |
| `AlignmentSound.DistributionIndependence` | experiments/dacapo_plan_vec_diff.cpp:445-484 | Values returned by any finished rank of any run of the distributed plan equal those of any finished run of the single-rank reference plan |
| `AlignmentSound.FewerActive` | experiments/dacapo_plan_vec_diff.cpp:287-299 | A resolution does not depend on the identifiers already active |
| `AlignmentSound.EncodeAgrees` | experiments/dacapo_plan_vec_diff.cpp:88-94 | Payloads equal as doubles encode to the same value, although their zeros may differ in sign |
| `Artifacts.IndexArtifacts` | experiments/dacapo_plan_vec_diff.cpp:356-376 | Indexing succeeds exactly when every entry is at its own Place and all values are there; an identifier cannot occur on two ranks |
| `Artifacts.IndexedAtPlaces` | experiments/dacapo_plan_vec_diff.cpp:356-376 | Every indexed entry is at the Place of its descriptor, on the rank of that Place |
| `Artifacts.HealthyRunsIndex` | experiments/dacapo_plan_vec_diff.cpp:356-376 | The artifacts of a fault-free run index to the complete sequential table |
| `Executor.ComputeInPlace` | api/vec_api.cpp:141-201 | compute_now, with its own metadata code and in-place loops, gives the promised metadata and the specified slots, and fails on nothing else |
| `Reading.ComputeReads` | api/vec_api.cpp:158-201 | Under every reading of the literals as numbers each result slot reads as the sum, difference, product, negation or rotation of the operand slots, each kind written out |
| `Reading.ComputeExactly` | api/vec_api.cpp:80-201 | For each kind, written out: the operands on which an operation succeeds, and level, scale and components of its result |
| `Reading.SubtractAndAdd` | api/vec_api.cpp:161-162 | Subtracting an operand and adding it again reads as the original, with the original metadata |
| `Reading.EncodeExactly` | api/mock_api.cpp:97-106 | When an encode succeeds, and the content of each of its slots |
| `PlanReading.MeaningReads` | testing/testing.cpp:155-166 | In the meaning of a runnable plan every output reads as what its instruction says of its operands |
| `Executor.ZipInPlace` | api/vec_api.cpp:148 | After the in-place loop the first array is the slot-wise operation on its old contents and the second array |
| `Executor.RotateInPlace` | api/vec_api.cpp:168-173 | After the in-place rotation the array is its old contents rotated by any 32-bit step, negative ones included |
| `Executor.EncodeInPlace` | api/mock_api.cpp:97-106 | The encode loops give the specified value: zeros normalized, padded to the slot count, metadata of the descriptor, or the specified error |
| `Executor.RotatedSlot` | api/vec_api.cpp:168-173 | Slot i of a rotated vector is slot i+steps of the original, cyclically |
| `Executor.RotationsCompose` | api/vec_api.cpp:168-173 | Rotations compose by adding their steps |
| `Executor.RotationUndone` | api/vec_api.cpp:168-173 | A rotation is undone by the opposite one |
| `Executor.RotationByKey` | runtime/verifier.cpp:157-165 | Rotating by the raw step is rotating by the step of the derived key |
| `Executor.GaloisKeysExact` | runtime/verifier.cpp:251-253 | The Galois keys are exactly the normalized steps used at each Place, each in 1..slots-1 |
| `Executor.VecValue.Fulfill` | api/vec_value.cpp:43-54 | A payload is taken exactly when it keeps the promise and the value is not complete |
| `Executor.VecValue.Fail` | api/vec_value.cpp:56-64 | A failure is taken exactly when the value is not complete |
| `Executor.VecValue.Materialize` | api/vec_value.cpp:33-39 | A complete value answers with what completed it, with the promised signature |
| `Executor.VecValue.DeepCopy` | api/vec_value.cpp:41 | A copy is a fresh complete value |
| `Async.AsyncEqualsSync` | api/vec_api.cpp:62-78 | When synchronous mode completes the calls, no submission fails in any asynchronous run and every complete future holds the synchronous value |
| `Async.AsyncRefines` | api/vec_api.cpp:62-78 | Failures included, a complete future holds the value of its call, with the promised signature |
| `Async.CompleteIsFinal` | api/vec_value.cpp:43-64 | A complete future never changes |
| `Async.WorkResult` | api/vec_api.cpp:69-75 | A worker completes one open future with the value of its call; the promise is never broken |
| `Async.EarliestCanWork` | api/vec_api.cpp:42-56 | The earliest unfinished task is first in its queue and has its operands |
| `Async.WorkersAlone` | api/mock_api.cpp:59-67 | Workers alone complete any future, so a materialize under the cluster lock cannot wait forever |
| `Async.PromiseKept` | api/vec_api.cpp:80-139 | The metadata promised from the operands' promises is the metadata of the result |
| `Async.SyncIsValues` | api/vec_api.cpp:62-63 | Synchronous mode throws exactly when some call has no value |
| `Async.VecExecutor.Compute` | api/vec_api.cpp:62-78 | A submission adds one open future and queues its task at its Place, or throws and changes nothing, as the executor machine says |
| `Async.VecExecutor.RunTask` | api/vec_api.cpp:45-56 | One turn of a worker is one work transition of the executor machine and completes only that future |
| `Async.VecExecutor.Stop` | api/vec_api.cpp:203-212 | Stopping drains every queue: afterwards every future is complete |
| `AsyncMeaning.AsyncIsMeaning` | runtime/runtime.hpp:293-296 | For the compute calls of a runnable plan every complete future holds the meaning of its value and no submission is refused |
| `Sha256.Sha256Hex` | runtime/utils/sha256.cpp:95-129 | The digest of every accepted input is the hash of the padded message of FIPS 180-4, in 64 lowercase digits; exactly inputs of 2^64 bits or more are refused |
| `ShaConstants.RoundConstantsAreCubeRoots` | runtime/utils/sha256.cpp:12-29 | Constant t is the first 32 bits of the fractional part of the cube root of the prime with t primes before it (section 4.2.2) |
| `ShaConstants.InitialHashIsSquareRoots` | runtime/utils/sha256.cpp:98-101 | Word t of the initial hash value is the first 32 bits of the fractional part of the square root of that prime (section 5.3.3) |
| `ShaFunctions.ChChooses` | runtime/utils/sha256.cpp:42-91 | Where a bit of the first word is set, Ch takes the bit of the second word, elsewhere that of the third |
| `ShaFunctions.MajDecides` | runtime/utils/sha256.cpp:42-91 | Where the first two words agree, Maj takes their bit, elsewhere that of the third |
| `ShaFunctions.BigSigma0Bits` | runtime/utils/sha256.cpp:42-91 | The rotations of the bit vector that make up the function; likewise for the other three |
| `ShaFunctions.HexReadsBack` | runtime/utils/sha256.cpp:121-128 | The eight digits of a word read back as the word |
| `Sha256.Transform` | runtime/utils/sha256.cpp:42-91 | The in-place rounds are the compression function |
| `Sha256.MakeSchedule` | runtime/utils/sha256.cpp:43-55 | The schedule array is the recursively defined message schedule |
| `Sha256.MakeTail` | runtime/utils/sha256.cpp:108-118 | The 64- or 128-byte tail is the rest of the padded message |
| `Sha256.PaddingIsMinimal` | runtime/utils/sha256.cpp:108-115 | The padding is the shortest one of section 5.1.1 |
| `Sha256.LengthReadsBack` | runtime/utils/sha256.cpp:115-118 | The eight length bytes read back as the number of bits |
| `Sha256.MakeHex` | runtime/utils/sha256.cpp:121-128 | The digits of the words, most significant first |
| `Mpi.TagExact` | api/mpi_api.cpp:29-37 | The guard accepts exactly when slot, part and 64*id+2*slot+part fit, and then nothing has wrapped around |
| `Mpi.TagInjective` | api/mpi_api.cpp:29-37 | Equal tags have equal transfer, slot and part |
| `Mpi.TagsAreDistinct` | api/mpi_api.cpp:110-124 | In an accepted plan a tag determines the instruction, the slot and the part |
| `Mpi.CommunicateAsync` | api/mpi_api.cpp:83-108 | Every slot becomes a local copy, a send or a receive, exactly as its ranks demand |
| `Mpi.Wait` | api/mpi_api.cpp:128-151 | The k-th value returned belongs to the k-th local slot for any mix of local copies and receives |
| `Mpi.HeaderRoundTrip` | api/mpi_api.cpp:39-62 | A value that can be sent is received unchanged if and only if it has 1 to 2^31-1 slots and no NUL in its context |
| `Bundle.ReadId` | runtime/json_utils.hpp:87-101 | Accepts exactly the decimal notations of 64-bit numbers and reads the number |
| `Bundle.DecimalIsCanonical` | runtime/json_utils.hpp:87-101 | Every number has a canonical notation that reads back |
| `Bundle.CanonicalIsDecimal` | runtime/json_utils.hpp:87-101 | Every canonical text is the notation of its value |
| `Bundle.ReadSha256` | runtime/json_utils.hpp:126-137 | Accepts exactly the prefix and 64 lowercase digits |
| `Bundle.DigestsAreReadable` | runtime/json_utils.hpp:173 | Every computed digest is accepted |
| `Bundle.DigestIsNotation` | runtime/json_utils.hpp:126-137 | Every text accepted as a digest is the notation of eight words |
| `Bundle.FiniteByPattern` | runtime/plaintext_bundle.cpp:58 | The bit patterns that are refused are exactly the infinities and the NaNs |
| `Bundle.WrittenBlobLoads` | runtime/plaintext_bundle.cpp:80-94 | A blob written from finite values loads exactly if the values fit, and reads back as the values with zeros normalized |
| `Bundle.DecodeSlots` | runtime/plaintext_bundle.cpp:48-62 | Decodes exactly finite little-endian vectors, zeros normalized |
| `Bundle.DecodeInvertsEncode` | runtime/plaintext_bundle.cpp:48-62 | Decoding inverts little-endian encoding of finite values up to the sign of zero |
| `Bundle.Load` | runtime/plaintext_bundle.cpp:80-94 | Succeeds exactly when every required blob is listed, present, of the right length and digest, finite and within capacity |
| `Bundle.LoadBundle` | runtime/runtime.hpp:219-236 | The loaded contents are exactly those of the bundle encodes of this rank, so every lookup succeeds within capacity |
| `Bundle.LoadedBundlesAreGood` | runtime/runtime.hpp:269 | Loaded bundles give the bundle hypothesis of the execution theorems |
| `Fanout.MakeFanoutPlan` | testing/testing.cpp:61-153 | A plan is built exactly for a non-empty list of non-negative counts with a device; the verifier accepts it; each defined value has one comparison point, with its right reference |
| `Fanout.FanoutWellFormed` | testing/testing.cpp:61-153 | The fan-out plan in closed form is well-formed for every list of counts |
| `Fanout.FanoutPointsAgree` | testing/testing.cpp:147-151 | At every comparison point the distributed value equals the reference value |
| `Fanout.RunReference` | testing/testing.cpp:155-166 | The reference executor computes the operations in order; a missing operand or a second definition is an error |
| `Fanout.ReferenceRuns` | testing/testing.cpp:168-175 | The reference computation succeeds on valid inputs |
| `Mlp.ReferenceLines` | experiments/dacapo_mlp_experiment.hpp:258-331 | The freeing interpreter never reads a freed value and has, for each instruction, the slots of the value the runtime retains |
| `Mlp.CountUses` | experiments/dacapo_mlp_experiment.hpp:127-144 | Counts are the uses by all instructions and as final outputs |
| `Mlp.ReleaseAll` | experiments/dacapo_mlp_experiment.hpp:281-284 | Operands are released by multiplicity and freed exactly at zero |
| `Mlp.EvaluateIsCompute` | experiments/dacapo_mlp_experiment.hpp:179-230 | The plain evaluation is the slot part of the executor's result |

## Left out

- Parsing of plans, specs and manifests from JSON: only the facts it establishes appear, as hypotheses (valid spec, valid inputs, normalized literals).
- File input and output, traces, clocks, environment variables and the text of error messages; `open_trace` runs before the error handling and is outside the fail-fast results.
- Timing counters other than the numbers of posts and waits.
- Floating-point rounding: arithmetic is uninterpreted and the slots are terms; they are read as integers only to say which operation is which. NaN appears in the comparison and loading of literals and not in arithmetic.
- Locks and condition variables: each critical section is one atomic step, guarded by its wait predicate.
- MPI calls: only tags, the wire header and the slot bookkeeping are modelled. Deadlock freedom is stated for the mock transport, whose sends never wait for a receiver, and not for MPI with unbuffered sends.
- Reading a plaintext bundle inside the transition system: there it either loads or makes its rank fail; what is loaded is `Bundle.LoadBundle`.
- `Protocol`: values in it are materialized; the asynchronous executor is a separate transition system, connected to the meaning of plans by `AsyncMeaning.AsyncIsMeaning`.
- `Runtime.SequentialRuntime.Run`: a rank alone reads a fixed table of messages, which stands for what its receives will find; waiting and interleaving are in `Protocol`.
- `Async.VecExecutor`: futures are numbered entries of a table instead of shared objects, so the sharing of a future by several tasks is by number.
- `Executor.ComputeInPlace`: which of several possible errors is reported first is not compared.
- 64-bit overflow of identifiers, slot counts and use counts other than in `Mpi.TagExact` and `Bundle.ReadId`; C++ `int` overflow of scales and component counts is an error of the model.
- Collision resistance of SHA-256: bundle contents are looked up by name.
- The comparison reports of the experiments, the input generators, the operator-spec latency tables, the Python tools and the benchmarks.
