/** The plan datatype shared by the verifier, the runtime and plan alignment
    (runtime/plan.hpp, runtime/operator_spec.hpp). */
module Plan {
  import opened Wrappers

  const INT_MAX := 0x7fff_ffff
  const TWO_64: nat := 0x1_0000_0000_0000_0000

  /** A C++ `int`. */
  type Int32 = x: int | -0x8000_0000 <= x <= 0x7fff_ffff

  /** Identifiers are 64-bit in the program; only the MPI tags and the decimal reader depend on the width. */
  type ValueId = nat
  type TransferId = nat

  /** A float64 given by its bit pattern. */
  type Bits = nat

  datatype ValueKind = Plaintext | Ciphertext
  datatype PlaceKind = Host | Device
  datatype Place = Place(kind: PlaceKind, rank: Int32, index: Int32)

  datatype ComputeKind =
    | AddCC | AddCP | SubCC | SubCP | MulCC | MulCP
    | Negate | Rotate | Rescale | ModSwitch | Relinearize | Boot

  datatype CommKind = Transfer | Replicate
  datatype CommHint = Auto | PointToPoint | Broadcast | Tree | Ring | HostStaged
  datatype BootImplementation = Native | DecryptReencrypt

  datatype Attrs =
    | NoAttrs
    | RotateAttrs(steps: Int32)
    | RescaleAttrs(level: Int32, scale: Int32)
    | ModSwitchAttrs(level: Int32)
    | BootAttrs(level: Int32, scale: Int32, components: Int32, profile: string, implementation: BootImplementation)

  datatype EncodePayload = Inline(values: seq<Bits>) | Bundle(content: string)

  datatype ComputeOp = ComputeOp(kind: ComputeKind, inputs: seq<ValueId>, output: ValueId, place: Place, attrs: Attrs)

  datatype CommAction = CommAction(
    id: TransferId, kind: CommKind, hint: CommHint,
    inputs: seq<ValueId>, outputs: seq<ValueId>,
    sources: seq<Place>, destinations: seq<Place>, outputTypes: seq<ValueKind>)

  datatype Body = Encode(payload: EncodePayload, output: ValueId) | Compute(op: ComputeOp) | Comm(action: CommAction)

  datatype Instruction = Instruction(ordinal: nat, body: Body)

  datatype ValueDesc = ValueDesc(
    id: ValueId, kind: ValueKind, place: Place, context: string,
    level: Int32, scale: Int32, ntt: bool, components: Int32)

  datatype SpecRef = SpecRef(id: string, version: Int32, sourceSha256: string)
  datatype BundleRef = BundleRef(id: string, version: Int32, manifestSha256: string)

  datatype Target = Target(
    targetId: string, worldSize: Int32, deviceCounts: seq<Int32>, capabilityVersion: Int32, operatorSpec: SpecRef)

  datatype RuntimePlan = RuntimePlan(
    formatVersion: nat, target: Target, bundle: Option<BundleRef>, values: seq<ValueDesc>,
    externalInputs: seq<ValueId>, initialization: seq<Instruction>, execution: seq<Instruction>,
    finalization: seq<Instruction>, finalOutputs: seq<ValueId>)

  datatype OperatorSupport = OperatorSupport(supported: bool, maxLevelsPerOp: Option<Int32>)

  datatype BootProfile = BootProfile(
    id: string, implementation: BootImplementation, inputLevelMin: Int32, inputLevelMax: Int32,
    inputComponents: Int32, outputLevel: Int32, outputScale: Int32, outputComponents: Int32)

  datatype OperatorSpec = OperatorSpec(
    formatVersion: Int32, id: string, version: Int32, targetId: string, contextId: string,
    polyDegree: nat, rnsModuliLog2: seq<Int32>, levelLowerBound: Int32, levelUpperBound: Int32,
    operators: map<ComputeKind, OperatorSupport>, bootProfiles: seq<BootProfile>)

  datatype LoadedSpec = LoadedSpec(spec: OperatorSpec, sourceSha256: string)

  datatype Capability =
    | NeedsEncode | NeedsTransfer | NeedsReplicate | NeedsHostCompute | NeedsBootNative | NeedsBootDecryptReencrypt
  datatype KeyKind = Secret | Relin | Galois
  datatype KeyRequirement = KeyRequirement(kind: KeyKind, place: Place, step: Option<Int32>)

  type Descs = map<ValueId, ValueDesc>

  /** The three phases in execution order. */
  function Instructions(plan: RuntimePlan): (s: seq<Instruction>)
    ensures |s| == |plan.initialization| + |plan.execution| + |plan.finalization|
  {
    plan.initialization + plan.execution + plan.finalization
  }

  /** Descriptor table of the value list, later entries winning; a verified plan has no duplicates. */
  function DescMap(values: seq<ValueDesc>): (m: Descs)
    ensures forall id :: id in m <==> exists i :: 0 <= i < |values| && values[i].id == id
    ensures forall id :: id in m ==> m[id] in values && m[id].id == id
  {
    if values == [] then map[]
    else
      var rest := DescMap(values[..|values| - 1]);
      var last := values[|values| - 1];
      assert values == values[..|values| - 1] + [last];
      rest[last.id := last]
  }

  /** The values an instruction reads. */
  function Uses(body: Body): seq<ValueId> {
    match body
    case Encode(_, _) => []
    case Compute(op) => op.inputs
    case Comm(action) => action.inputs
  }

  /** The values an instruction defines. */
  function Defs(body: Body): seq<ValueId> {
    match body
    case Encode(_, output) => [output]
    case Compute(op) => [op.output]
    case Comm(action) => action.outputs
  }

  ghost predicate Distinct<T>(s: seq<T>) {
    forall i, j :: 0 <= i < j < |s| ==> s[i] != s[j]
  }

  /** Positions of `places` that lie on `rank`, ascending. */
  function LocalSlots(places: seq<Place>, rank: int): (slots: seq<nat>)
    ensures forall k :: 0 <= k < |slots| ==> slots[k] < |places| && places[slots[k]].rank == rank
    ensures forall j, k :: 0 <= j < k < |slots| ==> slots[j] < slots[k]
    ensures forall i :: 0 <= i < |places| && places[i].rank == rank ==> i in slots
  {
    if places == [] then []
    else
      var n := |places| - 1;
      var front := LocalSlots(places[..n], rank);
      if places[n].rank == rank then front + [n] else front
  }

  /** The elements of `ids` at the given positions. */
  function Pick<T>(ids: seq<T>, slots: seq<nat>): (r: seq<T>)
    requires forall k :: 0 <= k < |slots| ==> slots[k] < |ids|
    ensures |r| == |slots|
    ensures forall k :: 0 <= k < |slots| ==> r[k] == ids[slots[k]]
  {
    seq(|slots|, k requires 0 <= k < |slots| => ids[slots[k]])
  }

  /** Occurrences of `x` in `s`. */
  function Count<T(==)>(s: seq<T>, x: T): (n: nat)
    ensures n > 0 <==> x in s
  {
    if s == [] then 0 else (if s[0] == x then 1 else 0) + Count(s[1..], x)
  }
}
