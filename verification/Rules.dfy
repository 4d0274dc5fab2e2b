/** What it means for a plan to be acceptable, stated without an order of checking
    (the rules enforced by runtime/verifier.cpp). */
module Rules {
  import opened Wrappers
  import opened Plan
  import Vec

  predicate PlaceOk(plan: RuntimePlan, place: Place) {
    && 0 <= place.rank < plan.target.worldSize
    && match place.kind
       case Host => place.index == 0
       case Device => place.rank < |plan.target.deviceCounts| && 0 <= place.index < plan.target.deviceCounts[place.rank]
  }

  predicate HeaderOk(plan: RuntimePlan, loaded: LoadedSpec, skip: bool) {
    var spec := loaded.spec;
    && plan.formatVersion == 1
    && spec.formatVersion in {1, 2}
    && plan.target.targetId != ""
    && plan.target.capabilityVersion > 0
    && plan.target.worldSize > 0
    && |plan.target.deviceCounts| == plan.target.worldSize
    && (forall i :: 0 <= i < |plan.target.deviceCounts| ==> plan.target.deviceCounts[i] >= 0)
    && plan.target.operatorSpec.id == spec.id
    && plan.target.operatorSpec.version == spec.version
    && (skip || plan.target.operatorSpec.sourceSha256 == loaded.sourceSha256)
    && plan.target.targetId == spec.targetId
  }

  /** Sum of the first `n` moduli. */
  function Budget(moduli: seq<Int32>, n: nat): int
    requires n <= |moduli|
  {
    if n == 0 then 0 else Budget(moduli, n - 1) + moduli[n - 1]
  }

  /** The scale is below the modulus budget of the level; the level must lie inside the modulus chain. */
  predicate ScaleFits(spec: OperatorSpec, level: int, scale: int) {
    if level < 0 then scale < 0
    else level < |spec.rnsModuliLog2| && scale < Budget(spec.rnsModuliLog2, level + 1)
  }

  predicate DescOk(plan: RuntimePlan, spec: OperatorSpec, v: ValueDesc) {
    && PlaceOk(plan, v.place)
    && v.context == spec.contextId
    && spec.levelLowerBound <= v.level <= spec.levelUpperBound
    && ScaleFits(spec, v.level, v.scale)
    && (v.kind == Plaintext ==> v.components == 1)
    && (v.kind == Ciphertext ==> v.components >= 2)
  }

  predicate SameMetadata(a: ValueDesc, b: ValueDesc) {
    a.kind == b.kind && a.context == b.context && a.level == b.level &&
    a.scale == b.scale && a.ntt == b.ntt && a.components == b.components
  }

  /** The per-kind rule of a compute instruction, on the descriptors of its operands and its output. */
  predicate KindRule(op: ComputeOp, a: ValueDesc, b: ValueDesc, output: ValueDesc) {
    match op.kind
    case AddCC | SubCC =>
      op.attrs.NoAttrs? && a.scale == b.scale && a.components == b.components && SameMetadata(a, output)
    case AddCP | SubCP =>
      op.attrs.NoAttrs? && a.scale == b.scale && output.level == a.level && output.scale == a.scale &&
      output.components == a.components
    case MulCC =>
      op.attrs.NoAttrs? && output.level == a.level && output.scale == a.scale + b.scale &&
      output.components == a.components + b.components - 1
    case MulCP =>
      op.attrs.NoAttrs? && output.level == a.level && output.scale == a.scale + b.scale &&
      output.components == a.components
    case Negate => op.attrs.NoAttrs? && SameMetadata(a, output)
    case Rotate => op.attrs.RotateAttrs? && op.attrs.steps != 0 && a.components == 2 && SameMetadata(a, output)
    case Rescale =>
      op.attrs.RescaleAttrs? && op.attrs.level < a.level && output.level == op.attrs.level &&
      output.scale == op.attrs.scale && output.components == a.components
    case ModSwitch =>
      op.attrs.ModSwitchAttrs? && op.attrs.level < a.level && output.level == op.attrs.level &&
      output.scale == a.scale && output.components == a.components
    case Relinearize =>
      op.attrs.NoAttrs? && a.components == 3 && output.level == a.level && output.scale == a.scale &&
      output.components == 2
    case Boot =>
      op.attrs.BootAttrs? && op.attrs.profile != "" && output.level == op.attrs.level &&
      output.scale == op.attrs.scale && output.components == op.attrs.components &&
      (op.attrs.implementation == DecryptReencrypt ==> op.place.kind == Host)
  }

  predicate OperandsOk(op: ComputeOp, dm: Descs) {
    var kinds := Vec.ExpectedInputs(op.kind);
    && |op.inputs| == |kinds|
    && forall i :: 0 <= i < |kinds| ==>
      op.inputs[i] in dm && dm[op.inputs[i]].kind == kinds[i] && dm[op.inputs[i]].place == op.place
  }

  predicate ComputeRule(op: ComputeOp, dm: Descs) {
    && OperandsOk(op, dm)
    && op.output in dm
    && var a, b, output := dm[op.inputs[0]], dm[op.inputs[|op.inputs| - 1]], dm[op.output];
    && output.kind == Ciphertext
    && output.place == op.place
    && a.context == output.context && a.ntt == output.ntt
    && a.context == b.context && a.ntt == b.ntt && a.level == b.level
    && KindRule(op, a, b, output)
  }

  /** The operator is supported, and a rotation, rescale or boot fits the spec. */
  predicate SpecRule(op: ComputeOp, dm: Descs, spec: OperatorSpec)
    requires ComputeRule(op, dm)
  {
    && op.kind in spec.operators && spec.operators[op.kind].supported
    && var input := dm[op.inputs[0]];
       match op.kind
       case Rotate => RotationOk(op.attrs.steps, spec.polyDegree / 2)
       case Rescale =>
         var most := spec.operators[Rescale].maxLevelsPerOp;
         most.Some? && input.level - op.attrs.level <= most.value
       case Boot => exists p :: p in spec.bootProfiles && FirstProfile(spec.bootProfiles, p) && BootFits(op, input, p)
       case _ => true
  }

  predicate RotationOk(steps: int, slotCount: nat) {
    1 <= slotCount <= INT_MAX && steps % slotCount != 0
  }

  /** `p` is the first profile with its name. */
  predicate FirstProfile(profiles: seq<BootProfile>, p: BootProfile) {
    exists i :: 0 <= i < |profiles| && profiles[i] == p && forall j :: 0 <= j < i ==> profiles[j].id != p.id
  }

  predicate BootFits(op: ComputeOp, input: ValueDesc, p: BootProfile)
    requires op.attrs.BootAttrs?
  {
    && p.id == op.attrs.profile
    && p.implementation == op.attrs.implementation
    && p.inputLevelMin <= input.level <= p.inputLevelMax
    && input.components == p.inputComponents
    && op.attrs.level == p.outputLevel
    && op.attrs.scale == p.outputScale
    && op.attrs.components == p.outputComponents
  }

  predicate EncodeRule(payload: EncodePayload, output: ValueId, dm: Descs, spec: OperatorSpec) {
    && output in dm
    && dm[output].kind == Plaintext && dm[output].place.kind == Host && dm[output].components == 1
    && (payload.Inline? ==> 0 < |payload.values| <= spec.polyDegree / 2)
  }

  /** One output of a communication: placed at its destination with the source's metadata. */
  predicate CommOutputOk(plan: RuntimePlan, action: CommAction, source: ValueDesc, dm: Descs, i: nat)
    requires i < |action.outputs| == |action.destinations| == |action.outputTypes|
  {
    && PlaceOk(plan, action.destinations[i])
    && action.destinations[i] != source.place
    && action.outputs[i] in dm
    && dm[action.outputs[i]].place == action.destinations[i]
    && action.outputTypes[i] == source.kind
    && SameMetadata(source, dm[action.outputs[i]])
  }

  predicate CommShape(plan: RuntimePlan, action: CommAction, dm: Descs) {
    && |action.inputs| == 1 && |action.sources| == 1
    && action.inputs[0] in dm
    && PlaceOk(plan, action.sources[0])
    && dm[action.inputs[0]].place == action.sources[0]
    && |action.destinations| == |action.outputs| && |action.outputTypes| == |action.outputs|
    && (action.kind == Transfer ==> |action.outputs| == 1)
    && (action.kind == Replicate ==> |action.outputs| >= 2)
  }

  ghost predicate CommRule(plan: RuntimePlan, action: CommAction, dm: Descs) {
    && CommShape(plan, action, dm)
    && Distinct(action.destinations)
    && forall i :: 0 <= i < |action.outputs| ==> CommOutputOk(plan, action, dm[action.inputs[0]], dm, i)
  }

  ghost predicate BodyRule(plan: RuntimePlan, spec: OperatorSpec, dm: Descs, body: Body) {
    match body
    case Encode(payload, output) => EncodeRule(payload, output, dm, spec)
    case Compute(op) => PlaceOk(plan, op.place) && ComputeRule(op, dm) && SpecRule(op, dm, spec)
    case Comm(action) => CommRule(plan, action, dm)
  }

  /** The values defined by the external inputs and the first `n` instructions. */
  ghost function DefinedBefore(plan: RuntimePlan, n: nat): (s: set<ValueId>)
    requires n <= |Instructions(plan)|
  {
    (set id | id in plan.externalInputs) +
    (set k, id | 0 <= k < n && id in Defs(Instructions(plan)[k].body) :: id)
  }

  /** An instruction adds its outputs. */
  lemma DefinedNext(plan: RuntimePlan, n: nat)
    requires n < |Instructions(plan)|
    ensures DefinedBefore(plan, n + 1) == DefinedBefore(plan, n) + set id | id in Defs(Instructions(plan)[n].body)
  {
  }

  ghost function TransfersBefore(plan: RuntimePlan, n: nat): set<TransferId>
    requires n <= |Instructions(plan)|
  {
    set k | 0 <= k < n && Instructions(plan)[k].body.Comm? :: Instructions(plan)[k].body.action.id
  }

  /** Instruction `n` uses only what is already defined and defines only what is not. */
  ghost predicate SsaOk(plan: RuntimePlan, n: nat)
    requires n < |Instructions(plan)|
  {
    var body := Instructions(plan)[n].body;
    && (forall id :: id in Uses(body) ==> id in DefinedBefore(plan, n))
    && (forall id :: id in Defs(body) ==> id !in DefinedBefore(plan, n))
    && Distinct(Defs(body))
    && (body.Comm? ==> body.action.id !in TransfersBefore(plan, n))
  }

  ghost predicate InstructionOk(plan: RuntimePlan, spec: OperatorSpec, dm: Descs, n: nat)
    requires n < |Instructions(plan)|
  {
    var instruction := Instructions(plan)[n];
    && instruction.ordinal == n
    && (instruction.body.Encode? ==> n < |plan.initialization|)
    && SsaOk(plan, n)
    && BodyRule(plan, spec, dm, instruction.body)
  }

  ghost predicate UniqueIds(values: seq<ValueDesc>) {
    forall i, j :: 0 <= i < j < |values| ==> values[i].id != values[j].id
  }

  ghost predicate ValuesOk(plan: RuntimePlan, spec: OperatorSpec) {
    && (forall i :: 0 <= i < |plan.values| ==> DescOk(plan, spec, plan.values[i]))
    && UniqueIds(plan.values)
  }

  ghost predicate InputsOk(plan: RuntimePlan, dm: Descs) {
    && (forall id :: id in plan.externalInputs ==> id in dm && dm[id].place.kind == Host)
    && Distinct(plan.externalInputs)
  }

  ghost predicate UsesBundle(plan: RuntimePlan) {
    exists k :: 0 <= k < |Instructions(plan)| && IsBundleEncode(Instructions(plan)[k].body)
  }

  predicate IsBundleEncode(body: Body) {
    body.Encode? && body.payload.Bundle?
  }

  ghost predicate OutputsOk(plan: RuntimePlan, dm: Descs) {
    var defined := DefinedBefore(plan, |Instructions(plan)|);
    && (UsesBundle(plan) <==> plan.bundle.Some?)
    && plan.finalOutputs != []
    && (forall id :: id in plan.finalOutputs ==> id in dm && id in defined)
    && Distinct(plan.finalOutputs)
  }

  /** An acceptable plan: typed single-assignment code in which the values table lists exactly
      the defined values. */
  ghost predicate WellFormed(plan: RuntimePlan, loaded: LoadedSpec, skip: bool) {
    var dm := DescMap(plan.values);
    && HeaderOk(plan, loaded, skip)
    && ValuesOk(plan, loaded.spec)
    && InputsOk(plan, dm)
    && (forall n :: 0 <= n < |Instructions(plan)| ==> InstructionOk(plan, loaded.spec, dm, n))
    && OutputsOk(plan, dm)
    && dm.Keys == DefinedBefore(plan, |Instructions(plan)|)
  }

  /** What may be assumed of a loaded operator spec (checked by runtime/operator_spec_reader.cpp). */
  predicate ValidSpec(spec: OperatorSpec) {
    && spec.polyDegree >= 2
    && 0 <= spec.levelLowerBound <= spec.levelUpperBound < |spec.rnsModuliLog2|
    && spec.contextId != ""
  }
}
