/** The plan verifier (runtime/verifier.cpp): one pass with growing sets, proved to decide
    `WellFormed` exactly and to derive exactly the requirements of the plan's instructions. */
module Verifier {
  import opened Wrappers
  import opened Plan
  import opened Rules
  import Vec

  datatype VerifyError =
    | BadHeader | BadPlace | DuplicateValue | BadValue | MissingDesc | BadExternalInput | DuplicateDefinition
    | BadOrdinal | MisplacedEncode | BadEncodeOutput | BadEncodePayload | Undefined | BadComputeMetadata
    | Unsupported | BadRotation | RescaleDrop | UnknownProfile | ProfileMismatch | DuplicateTransfer
    | BadCommShape | BadCommOutput | BundleMismatch | NoFinalOutput | BadFinalOutput | UnusedDesc

  datatype Requirements = Requirements(capabilities: set<Capability>, keys: set<KeyRequirement>)

  /** The `%` of C++, truncating toward zero. */
  function Remainder(a: int, b: int): int
    requires b > 0
  {
    if a >= 0 then a % b else -((-a) % b)
  }

  /** A step brought into `0..n-1` the way the program does it: remainder, then a shift when negative. */
  function Normalize(steps: int, n: int): (r: int)
    requires n > 0
    ensures 0 <= r < n
  {
    var r := Remainder(steps, n);
    if r < 0 then r + n else r
  }

  /** Truncating remainder plus correction is the Euclidean remainder. */
  lemma NormalizeIsEuclidean(steps: int, n: int)
    requires n > 0
    ensures Normalize(steps, n) == steps % n
  {
    if steps < 0 {
      var q, r := (-steps) / n, (-steps) % n;
      assert -steps == q * n + r;
      if r == 0 {
        EuclideanUnique(steps, n, -q, 0);
      } else {
        assert steps == (-q - 1) * n + (n - r);
        EuclideanUnique(steps, n, -q - 1, n - r);
      }
    }
  }

  lemma EuclideanUnique(a: int, n: int, q: int, r: int)
    requires n > 0 && 0 <= r < n && a == q * n + r
    ensures a % n == r
  {
    var d := a / n - q;
    assert a == (a / n) * n + a % n;
    assert d * n == r - a % n;
    assert d >= 1 ==> d * n >= n;
    assert d <= -1 ==> d * n <= -n;
  }

  function NormalizedRotationStep(steps: Int32, slotCount: nat): (r: Result<Int32, VerifyError>)
  {
    if slotCount == 0 || slotCount > INT_MAX then Failure(BadRotation)
    else
      var step := Normalize(steps, slotCount);
      if step == 0 then Failure(BadRotation) else Success(step)
  }

  /** The step is accepted exactly when it is not a multiple of the slot count, and the key step is its residue. */
  lemma RotationStepSpec(steps: Int32, slotCount: nat)
    ensures NormalizedRotationStep(steps, slotCount).Success? <==> RotationOk(steps, slotCount)
    ensures RotationOk(steps, slotCount) ==>
      NormalizedRotationStep(steps, slotCount).value == steps % slotCount && 1 <= steps % slotCount <= slotCount - 1
  {
    if 1 <= slotCount {
      NormalizeIsEuclidean(steps, slotCount);
    }
  }

  function CapabilitiesOf(body: Body): set<Capability> {
    match body
    case Encode(_, _) => {NeedsEncode}
    case Compute(op) =>
      (if op.place.kind == Host then {NeedsHostCompute} else {}) +
      (if op.kind == Boot && op.attrs.BootAttrs? then
        {if op.attrs.implementation == Native then NeedsBootNative else NeedsBootDecryptReencrypt} else {})
    case Comm(action) => {if action.kind == Transfer then NeedsTransfer else NeedsReplicate}
  }

  function KeysOf(body: Body, slotCount: nat): set<KeyRequirement> {
    if !body.Compute? then {}
    else
      var op := body.op;
      match op.kind
      case Rotate =>
        if op.attrs.RotateAttrs? && RotationOk(op.attrs.steps, slotCount)
        then {KeyRequirement(Galois, op.place, Some(op.attrs.steps % slotCount))} else {}
      case Relinearize => {KeyRequirement(Relin, op.place, None)}
      case Boot =>
        if op.attrs.BootAttrs? && op.attrs.implementation == DecryptReencrypt
        then {KeyRequirement(Secret, op.place, None)} else {}
      case _ => {}
  }

  ghost function CapabilitiesBefore(plan: RuntimePlan, n: nat): set<Capability>
    requires n <= |Instructions(plan)|
  {
    set k, c | 0 <= k < n && c in CapabilitiesOf(Instructions(plan)[k].body) :: c
  }

  ghost function KeysBefore(plan: RuntimePlan, slotCount: nat, n: nat): set<KeyRequirement>
    requires n <= |Instructions(plan)|
  {
    set k, key | 0 <= k < n && key in KeysOf(Instructions(plan)[k].body, slotCount) :: key
  }

  /** The variables the pass grows. */
  class Pass {
    const plan: RuntimePlan
    const spec: OperatorSpec
    const descs: Descs
    var defined: set<ValueId>
    var mentioned: set<ValueId>
    var transfers: set<TransferId>
    var capabilities: set<Capability>
    var keys: set<KeyRequirement>
    var hasBundleEncode: bool
    var expectedOrdinal: nat

    constructor (plan: RuntimePlan, spec: OperatorSpec, descs: Descs)
      requires descs == DescMap(plan.values)
      ensures this.plan == plan && this.spec == spec && this.descs == descs
      ensures defined == {} && mentioned == {} && transfers == {} && capabilities == {} && keys == {}
      ensures !hasBundleEncode && expectedOrdinal == 0
    {
      this.plan, this.spec, this.descs := plan, spec, descs;
      defined, mentioned, transfers, capabilities, keys := {}, {}, {}, {}, {};
      hasBundleEncode, expectedOrdinal := false, 0;
    }

    /** The sets are those of the first `n` instructions. */
    ghost predicate At(n: nat)
      reads this
    {
      && n <= |Instructions(plan)|
      && descs == DescMap(plan.values)
      && defined == mentioned == DefinedBefore(plan, n)
      && transfers == TransfersBefore(plan, n)
      && capabilities == CapabilitiesBefore(plan, n)
      && keys == KeysBefore(plan, spec.polyDegree / 2, n)
      && (hasBundleEncode <==> exists k :: 0 <= k < n && IsBundleEncode(Instructions(plan)[k].body))
    }

    method ExternalInputs() returns (ok: bool)
      requires defined == {} && mentioned == {}
      modifies this`defined, this`mentioned
      ensures ok <==> InputsOk(plan, descs)
      ensures ok ==> defined == mentioned == set id | id in plan.externalInputs
    {
      var i := 0;
      while i < |plan.externalInputs|
        invariant i <= |plan.externalInputs|
        invariant defined == mentioned == set j | 0 <= j < i :: plan.externalInputs[j]
        invariant forall j :: 0 <= j < i ==>
          plan.externalInputs[j] in descs && descs[plan.externalInputs[j]].place.kind == Host
        invariant forall j, k :: 0 <= j < k < i ==> plan.externalInputs[j] != plan.externalInputs[k]
      {
        var id := plan.externalInputs[i];
        if id !in descs || descs[id].place.kind != Host || id in defined {
          return false;
        }
        mentioned := mentioned + {id};
        defined := defined + {id};
        i := i + 1;
      }
      ok := true;
    }

    method CheckEncode(ghost n: nat, payload: EncodePayload, output: ValueId, phase: nat) returns (r: Option<VerifyError>)
      requires At(n) && n < |Instructions(plan)|
      requires Instructions(plan)[n].body == Encode(payload, output)
      requires phase == 0 <==> n < |plan.initialization|
      modifies this`defined, this`mentioned, this`capabilities, this`hasBundleEncode
      ensures r.None? <==> n < |plan.initialization| && SsaOk(plan, n) && EncodeRule(payload, output, descs, spec)
      ensures r.None? ==> defined == old(defined) + {output} && mentioned == old(mentioned) + {output}
      ensures r.None? ==> capabilities == old(capabilities) + {NeedsEncode}
      ensures r.None? ==> hasBundleEncode == (old(hasBundleEncode) || payload.Bundle?)
    {
      if phase != 0 { return Some(MisplacedEncode); }
      if output !in descs { return Some(MissingDesc); }
      mentioned := mentioned + {output};
      var desc := descs[output];
      if desc.kind != Plaintext || desc.place.kind != Host || desc.components != 1 { return Some(BadEncodeOutput); }
      if output in defined { return Some(DuplicateDefinition); }
      defined := defined + {output};
      capabilities := capabilities + {NeedsEncode};
      match payload {
        case Inline(values) =>
          if |values| == 0 || |values| > spec.polyDegree / 2 { return Some(BadEncodePayload); }
        case Bundle(_) =>
          hasBundleEncode := true;
      }
      r := None;
    }

    /** The operand check: count, kinds and Place of every input, in a loop. */
    method CheckOperands(op: ComputeOp) returns (ok: bool)
      ensures ok <==> OperandsOk(op, descs)
    {
      var kinds := Vec.ExpectedInputs(op.kind);
      if |op.inputs| != |kinds| { return false; }
      for i := 0 to |op.inputs|
        invariant forall j :: 0 <= j < i ==>
          op.inputs[j] in descs && descs[op.inputs[j]].kind == kinds[j] && descs[op.inputs[j]].place == op.place
      {
        var id := op.inputs[i];
        if id !in descs || descs[id].kind != kinds[i] || descs[id].place != op.place { return false; }
      }
      ok := true;
    }

    method FindBootProfile(id: string) returns (r: Option<BootProfile>)
      ensures r.Some? ==> r.value.id == id && r.value in spec.bootProfiles && FirstProfile(spec.bootProfiles, r.value)
      ensures r.None? ==> forall p :: p in spec.bootProfiles ==> p.id != id
    {
      for i := 0 to |spec.bootProfiles|
        invariant forall j :: 0 <= j < i ==> spec.bootProfiles[j].id != id
      {
        if spec.bootProfiles[i].id == id { return Some(spec.bootProfiles[i]); }
      }
      r := None;
    }

    /** The operator-spec rules of one compute instruction, adding its keys and boot capability. */
    method CheckSupport(op: ComputeOp) returns (r: Option<VerifyError>)
      requires ComputeRule(op, descs)
      modifies this`capabilities, this`keys
      ensures r.None? <==> SpecRule(op, descs, spec)
      ensures r.None? ==> capabilities == old(capabilities) + CapabilitiesOf(Compute(op))
      ensures r.None? ==> keys == old(keys) + KeysOf(Compute(op), spec.polyDegree / 2)
    {
      if op.kind !in spec.operators || !spec.operators[op.kind].supported { return Some(Unsupported); }
      if op.place.kind == Host { capabilities := capabilities + {NeedsHostCompute}; }
      var input := descs[op.inputs[0]];
      match op.kind {
        case Rotate =>
          RotationStepSpec(op.attrs.steps, spec.polyDegree / 2);
          var step := NormalizedRotationStep(op.attrs.steps, spec.polyDegree / 2);
          if step.Failure? { return Some(step.error); }
          keys := keys + {KeyRequirement(Galois, op.place, Some(step.value))};
        case Relinearize =>
          keys := keys + {KeyRequirement(Relin, op.place, None)};
        case Rescale =>
          var most := spec.operators[Rescale].maxLevelsPerOp;
          if most.None? || input.level - op.attrs.level > most.value { return Some(RescaleDrop); }
        case Boot =>
          var found := FindBootProfile(op.attrs.profile);
          if found.None? { return Some(UnknownProfile); }
          FirstIsUnique(spec.bootProfiles, found.value);
          if !BootFits(op, input, found.value) { return Some(ProfileMismatch); }
          if op.attrs.implementation == Native {
            capabilities := capabilities + {NeedsBootNative};
          } else {
            capabilities := capabilities + {NeedsBootDecryptReencrypt};
            keys := keys + {KeyRequirement(Secret, op.place, None)};
          }
        case _ =>
      }
      r := None;
    }

    method CheckCompute(ghost n: nat, op: ComputeOp) returns (r: Option<VerifyError>)
      requires At(n) && n < |Instructions(plan)| && Instructions(plan)[n].body == Compute(op)
      modifies this`defined, this`mentioned, this`capabilities, this`keys
      ensures r.None? <==> SsaOk(plan, n) && BodyRule(plan, spec, descs, Compute(op))
      ensures r.None? ==> defined == old(defined) + {op.output} && mentioned == old(mentioned) + {op.output}
      ensures r.None? ==> capabilities == old(capabilities) + CapabilitiesOf(Compute(op))
      ensures r.None? ==> keys == old(keys) + KeysOf(Compute(op), spec.polyDegree / 2)
    {
      hide DefinedBefore, TransfersBefore, CapabilitiesBefore, KeysBefore, ComputeRule, SpecRule, DescMap, KeysOf, CapabilitiesOf, PlaceOk;
      if !PlaceOk(plan, op.place) { return Some(BadPlace); }
      for i := 0 to |op.inputs|
        invariant forall j :: 0 <= j < i ==> op.inputs[j] in defined
        invariant mentioned == defined == old(defined)
        invariant capabilities == old(capabilities) && keys == old(keys)
      {
        mentioned := mentioned + {op.inputs[i]};
        if op.inputs[i] !in defined {
          assert op.inputs[i] in Uses(Compute(op));
          return Some(Undefined);
        }
      }
      mentioned := mentioned + {op.output};
      if op.output in defined {
        assert op.output in Defs(Compute(op));
        return Some(DuplicateDefinition);
      }
      defined := defined + {op.output};
      var operands := CheckOperands(op);
      ComputeRuleOperands(op, descs);
      if !operands || !ComputeRule(op, descs) { return Some(BadComputeMetadata); }
      r := CheckSupport(op);
    }

    /** The destination loop of one communication. */
    method CheckCommOutputs(action: CommAction) returns (r: Option<VerifyError>)
      requires CommShape(plan, action, descs) && mentioned == defined
      modifies this`defined, this`mentioned
      ensures r.None? <==>
        && Distinct(action.destinations)
        && (forall i :: 0 <= i < |action.outputs| ==> CommOutputOk(plan, action, descs[action.inputs[0]], descs, i))
        && (forall i :: 0 <= i < |action.outputs| ==> action.outputs[i] !in old(defined))
        && Distinct(action.outputs)
      ensures r.None? ==> mentioned == defined == old(defined) + set id | id in action.outputs
    {
      hide CommOutputOk;
      var source := descs[action.inputs[0]];
      var destinations: set<Place> := {};
      var i := 0;
      while i < |action.outputs|
        invariant i <= |action.outputs|
        invariant destinations == set j | 0 <= j < i :: action.destinations[j]
        invariant forall j, k :: 0 <= j < k < i ==> action.destinations[j] != action.destinations[k]
        invariant forall j :: 0 <= j < i ==> CommOutputOk(plan, action, source, descs, j)
        invariant forall j :: 0 <= j < i ==> action.outputs[j] !in old(defined)
        invariant forall j, k :: 0 <= j < k < i ==> action.outputs[j] != action.outputs[k]
        invariant mentioned == defined == old(defined) + set j | 0 <= j < i :: action.outputs[j]
      {
        if action.destinations[i] in destinations { return Some(BadCommShape); }
        destinations := destinations + {action.destinations[i]};
        if !CommOutputOk(plan, action, source, descs, i) { return Some(BadCommOutput); }
        mentioned := mentioned + {action.outputs[i]};
        if action.outputs[i] in defined { return Some(DuplicateDefinition); }
        defined := defined + {action.outputs[i]};
        i := i + 1;
      }
      r := None;
    }

    method CheckComm(ghost n: nat, action: CommAction) returns (r: Option<VerifyError>)
      requires At(n) && n < |Instructions(plan)| && Instructions(plan)[n].body == Comm(action)
      modifies this`defined, this`mentioned, this`capabilities, this`transfers
      ensures r.None? <==> SsaOk(plan, n) && CommRule(plan, action, descs)
      ensures r.None? ==> defined == mentioned == old(defined) + (set id | id in action.outputs)
      ensures r.None? ==> capabilities == old(capabilities) + CapabilitiesOf(Comm(action))
      ensures r.None? ==> transfers == old(transfers) + {action.id}
    {
      hide DefinedBefore, TransfersBefore, CapabilitiesBefore, KeysBefore, CommOutputOk;
      if action.id in transfers { return Some(DuplicateTransfer); }
      transfers := transfers + {action.id};
      capabilities := capabilities + {if action.kind == Transfer then NeedsTransfer else NeedsReplicate};
      if |action.inputs| != 1 || |action.sources| != 1 { return Some(BadCommShape); }
      if action.inputs[0] !in defined {
        assert action.inputs[0] in Uses(Comm(action));
        return Some(Undefined);
      }
      mentioned := mentioned + {action.inputs[0]};
      assert mentioned == defined;
      if !CommShape(plan, action, descs) { return Some(BadCommShape); }
      r := CheckCommOutputs(action);
      assert forall id :: id in Uses(Comm(action)) ==> id == action.inputs[0];
      assert (forall id :: id in Defs(Comm(action)) ==> id !in old(defined)) <==>
        forall i :: 0 <= i < |action.outputs| ==> action.outputs[i] !in old(defined);
    }

    method CheckInstruction(n: nat, instruction: Instruction, phase: nat) returns (r: Option<VerifyError>)
      requires At(n) && expectedOrdinal == n < |Instructions(plan)| && Instructions(plan)[n] == instruction
      requires phase == 0 <==> n < |plan.initialization|
      modifies this
      ensures r.None? <==> InstructionOk(plan, spec, descs, n)
      ensures r.None? ==> At(n + 1) && expectedOrdinal == n + 1
    {
      hide DefinedBefore, TransfersBefore, CapabilitiesBefore, KeysBefore, EncodeRule, ComputeRule, SpecRule, CommRule, SsaOk;
      if instruction.ordinal != expectedOrdinal { return Some(BadOrdinal); }
      expectedOrdinal := expectedOrdinal + 1;
      match instruction.body {
        case Encode(payload, output) => r := CheckEncode(n, payload, output, phase);
        case Compute(op) => r := CheckCompute(n, op);
        case Comm(action) => r := CheckComm(n, action);
      }
      DefinedNext(plan, n);
      RequirementsStep(plan, spec.polyDegree / 2, n);
    }

    /** `check_list`: one phase, starting at instruction `first`. */
    method CheckList(list: seq<Instruction>, phase: nat, ghost first: nat) returns (r: Option<VerifyError>)
      requires At(first) && expectedOrdinal == first && first + |list| <= |Instructions(plan)|
      requires Instructions(plan)[first..first + |list|] == list
      requires if phase == 0 then first + |list| <= |plan.initialization| else first >= |plan.initialization|
      modifies this
      ensures r.None? <==> forall n :: first <= n < first + |list| ==> InstructionOk(plan, spec, descs, n)
      ensures r.None? ==> At(first + |list|) && expectedOrdinal == first + |list|
    {
      hide *;
      for i := 0 to |list|
        invariant At(first + i) && expectedOrdinal == first + i
        invariant forall n :: first <= n < first + i ==> InstructionOk(plan, spec, descs, n)
      {
        assert Instructions(plan)[first..first + |list|][i] == Instructions(plan)[first + i];
        r := CheckInstruction(expectedOrdinal, list[i], phase);
        if r.Some? { return; }
      }
      r := None;
    }

    method FinalOutputs() returns (r: Option<VerifyError>)
      requires At(|Instructions(plan)|)
      modifies this`mentioned
      ensures r.None? <==> OutputsOk(plan, descs)
      ensures r.None? ==> mentioned == defined
    {
      hide DefinedBefore, TransfersBefore, CapabilitiesBefore, KeysBefore;
      if hasBundleEncode != plan.bundle.Some? { return Some(BundleMismatch); }
      if |plan.finalOutputs| == 0 { return Some(NoFinalOutput); }
      var finals: set<ValueId> := {};
      for i := 0 to |plan.finalOutputs|
        invariant finals == set j | 0 <= j < i :: plan.finalOutputs[j]
        invariant forall j :: 0 <= j < i ==> plan.finalOutputs[j] in descs && plan.finalOutputs[j] in defined
        invariant forall j, k :: 0 <= j < k < i ==> plan.finalOutputs[j] != plan.finalOutputs[k]
        invariant mentioned == defined
      {
        var id := plan.finalOutputs[i];
        if id !in descs { return Some(MissingDesc); }
        mentioned := mentioned + {id};
        if id !in defined || id in finals { return Some(BadFinalOutput); }
        finals := finals + {id};
      }
      r := None;
    }
  }

  lemma ComputeRuleOperands(op: ComputeOp, dm: Descs)
    ensures ComputeRule(op, dm) ==> OperandsOk(op, dm)
  {
  }

  lemma FirstIsUnique(profiles: seq<BootProfile>, p: BootProfile)
    requires FirstProfile(profiles, p)
    ensures forall q :: q in profiles && FirstProfile(profiles, q) && q.id == p.id ==> q == p
  {
  }

  lemma RequirementsStep(plan: RuntimePlan, slotCount: nat, n: nat)
    requires n < |Instructions(plan)|
    ensures var body := Instructions(plan)[n].body;
      && CapabilitiesBefore(plan, n + 1) == CapabilitiesBefore(plan, n) + CapabilitiesOf(body)
      && KeysBefore(plan, slotCount, n + 1) == KeysBefore(plan, slotCount, n) + KeysOf(body, slotCount)
      && TransfersBefore(plan, n + 1) == TransfersBefore(plan, n) + (if body.Comm? then {body.action.id} else {})
  {
  }

  lemma DescMapStep(values: seq<ValueDesc>, i: nat)
    requires i < |values|
    ensures DescMap(values[..i + 1]) == DescMap(values[..i])[values[i].id := values[i]]
  {
    assert values[..i + 1][..i] == values[..i];
  }

  /** A descriptor keeps the identifiers unique exactly when its own is new. */
  lemma UniqueStep(values: seq<ValueDesc>, i: nat)
    requires i < |values| && UniqueIds(values[..i])
    ensures UniqueIds(values[..i + 1]) <==> values[i].id !in DescMap(values[..i])
    ensures UniqueIds(values) ==> UniqueIds(values[..i + 1])
  {
    hide DescMap;
    if j :| 0 <= j < i && values[j].id == values[i].id {
      assert values[..i][j].id == values[i].id && values[..i + 1][j].id == values[..i + 1][i].id;
    }
  }

  lemma EmptyDescs(values: seq<ValueDesc>)
    ensures DescMap(values[..0]) == map[] && UniqueIds(values[..0])
  {
  }

  /** The value table, built entry by entry. */
  method CheckValues(plan: RuntimePlan, spec: OperatorSpec) returns (r: Result<Descs, VerifyError>)
    ensures r.Success? <==> ValuesOk(plan, spec)
    ensures r.Success? ==> r.value == DescMap(plan.values)
  {
    hide DescOk, PlaceOk, DescMap, UniqueIds;
    var descs: Descs := map[];
    assert descs == DescMap(plan.values[..0]) && UniqueIds(plan.values[..0]) by { EmptyDescs(plan.values); }
    var i := 0;
    while i < |plan.values|
      invariant i <= |plan.values|
      invariant descs == DescMap(plan.values[..i])
      invariant forall j :: 0 <= j < i ==> DescOk(plan, spec, plan.values[j])
      invariant UniqueIds(plan.values[..i])
    {
      var v := plan.values[i];
      DescMapStep(plan.values, i);
      UniqueStep(plan.values, i);
      if v.id in descs { return Failure(DuplicateValue); }
      descs := descs[v.id := v];
      var ok := CheckValue(plan, spec, v);
      if !ok { return Failure(BadValue); }
      i := i + 1;
    }
    assert plan.values[..|plan.values|] == plan.values;
    r := Success(descs);
  }

  method CheckValue(plan: RuntimePlan, spec: OperatorSpec, v: ValueDesc) returns (ok: bool)
    ensures ok <==> DescOk(plan, spec, v)
  {
    if !PlaceOk(plan, v.place) || v.context != spec.contextId { return false; }
    if v.level < spec.levelLowerBound || v.level > spec.levelUpperBound { return false; }
    var fits := CheckBudget(spec, v.level, v.scale);
    if !fits || (v.kind == Plaintext && v.components != 1) || (v.kind == Ciphertext && v.components < 2) { return false; }
    ok := true;
  }

  /** The modulus budget, summed level by level; an out-of-range level is an exception in the program. */
  method CheckBudget(spec: OperatorSpec, level: int, scale: int) returns (ok: bool)
    ensures ok <==> ScaleFits(spec, level, scale)
  {
    var budget: int, l := 0, 0;
    while l <= level
      invariant 0 <= l <= |spec.rnsModuliLog2|
      invariant if level < 0 then l == 0 else l <= level + 1
      invariant budget == Budget(spec.rnsModuliLog2, l)
    {
      if l >= |spec.rnsModuliLog2| { return false; }
      budget := budget + spec.rnsModuliLog2[l];
      l := l + 1;
    }
    ok := scale < budget;
  }

  lemma PhaseSlices(plan: RuntimePlan)
    ensures var ni, ne, nf := |plan.initialization|, |plan.execution|, |plan.finalization|;
      && Instructions(plan)[0..ni] == plan.initialization
      && Instructions(plan)[ni..ni + ne] == plan.execution
      && Instructions(plan)[ni + ne..ni + ne + nf] == plan.finalization
  {
  }

  lemma StartSets(plan: RuntimePlan, slotCount: nat)
    ensures DefinedBefore(plan, 0) == set id | id in plan.externalInputs
    ensures TransfersBefore(plan, 0) == {} && CapabilitiesBefore(plan, 0) == {} && KeysBefore(plan, slotCount, 0) == {}
  {
  }

  method Verify(plan: RuntimePlan, loaded: LoadedSpec, skip: bool) returns (r: Result<Requirements, VerifyError>)
    ensures r.Success? <==> WellFormed(plan, loaded, skip)
    ensures r.Success? ==> r.value == Requirements(
      CapabilitiesBefore(plan, |Instructions(plan)|),
      KeysBefore(plan, loaded.spec.polyDegree / 2, |Instructions(plan)|))
  {
    hide DescMap, HeaderOk, ValuesOk, InputsOk, InstructionOk, OutputsOk, Instructions;
    hide DefinedBefore, TransfersBefore, CapabilitiesBefore, KeysBefore, IsBundleEncode;
    if !HeaderOk(plan, loaded, skip) { return Failure(BadHeader); }
    var values := CheckValues(plan, loaded.spec);
    if values.Failure? { return Failure(values.error); }
    var pass := new Pass(plan, loaded.spec, values.value);
    var inputs := pass.ExternalInputs();
    if !inputs { return Failure(BadExternalInput); }
    PhaseSlices(plan);
    StartSets(plan, loaded.spec.polyDegree / 2);
    var ni, ne := |plan.initialization|, |plan.execution|;
    var r0 := pass.CheckList(plan.initialization, 0, 0);
    if r0.Some? { return Failure(r0.value); }
    var r1 := pass.CheckList(plan.execution, 1, ni);
    if r1.Some? { return Failure(r1.value); }
    var r2 := pass.CheckList(plan.finalization, 2, ni + ne);
    if r2.Some? { return Failure(r2.value); }
    var r3 := pass.FinalOutputs();
    if r3.Some? { return Failure(r3.value); }
    if pass.mentioned != values.value.Keys { return Failure(UnusedDesc); }
    r := Success(Requirements(pass.capabilities, pass.keys));
  }
}
