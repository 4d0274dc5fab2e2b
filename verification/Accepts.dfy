/** Which plans the verifier accepts, on plans of one compute instruction and with every field written out: for each
    of the twelve kinds the exact relation between the operands, the attributes and the output. */
module Accepts {
  import opened Wrappers
  import opened Plan
  import opened Rules
  import opened Verifier
  import Fanout

  const Home := Place(Host, 0, 0)

  /** The target of the fan-out of one device, as in the tests of the metadata rules. */
  const OneDevice := Target("vec-fixed-target", 1, [1], 1, SpecRef("vec-operator-spec", 1, Fanout.ZeroDigest))

  /** The variable part of the spec: two boot profiles, and the operators it has. */
  datatype World = World(p: BootProfile, q: BootProfile, operators: map<ComputeKind, OperatorSupport>)

  /** The test spec with this part. */
  function Spec(w: World): LoadedSpec {
    var loaded := Fanout.TestSpec();
    loaded.(spec := loaded.spec.(bootProfiles := [w.p, w.q], operators := w.operators))
  }

  function OneOperand(op: ComputeOp, a: ValueDesc, o: ValueDesc): RuntimePlan {
    RuntimePlan(1, OneDevice, None, [a, o], [1], [], [Instruction(0, Compute(op))], [], [3])
  }

  function TwoOperands(op: ComputeOp, a: ValueDesc, b: ValueDesc, o: ValueDesc): RuntimePlan {
    RuntimePlan(1, OneDevice, None, [a, b, o], [1, 2], [], [Instruction(0, Compute(op))], [], [3])
  }

  /** A descriptor on the host of rank 0 within the levels 0 to 4 and the moduli 60, 40, 40, 40, 60. */
  predicate Legal(d: ValueDesc) {
    && d.place == Home && d.context == "ctx"
    && (d.level == 0 || d.level == 1 || d.level == 2 || d.level == 3 || d.level == 4)
    && (d.level == 0 ==> d.scale < 60) && (d.level == 1 ==> d.scale < 100) && (d.level == 2 ==> d.scale < 140)
    && (d.level == 3 ==> d.scale < 180) && (d.level == 4 ==> d.scale < 240)
    && (if d.kind == Plaintext then d.components == 1 else d.components >= 2)
  }

  // ---- What is left of well-formedness for such a plan ----

  lemma Budgets(spec: OperatorSpec)
    requires spec.rnsModuliLog2 == [60, 40, 40, 40, 60]
    ensures Budget(spec.rnsModuliLog2, 1) == 60 && Budget(spec.rnsModuliLog2, 2) == 100 && Budget(spec.rnsModuliLog2, 3) == 140
    ensures Budget(spec.rnsModuliLog2, 4) == 180 && Budget(spec.rnsModuliLog2, 5) == 240
  {
    assert Budget(spec.rnsModuliLog2, 0) == 0;
    assert Budget(spec.rnsModuliLog2, 1) == 60;
    assert Budget(spec.rnsModuliLog2, 2) == 100;
    assert Budget(spec.rnsModuliLog2, 3) == 140;
    assert Budget(spec.rnsModuliLog2, 4) == 180;
  }

  /** A Host descriptor is acceptable exactly when it is legal. */
  lemma LegalIsDescOk(plan: RuntimePlan, w: World, d: ValueDesc)
    requires plan.target == OneDevice && d.place.kind == Host
    ensures DescOk(plan, Spec(w).spec, d) <==> Legal(d)
  {
    hide Budget;
    Budgets(Spec(w).spec);
  }

  lemma HostPlace(plan: RuntimePlan, place: Place)
    requires plan.target == OneDevice
    ensures place.kind == Host ==> (PlaceOk(plan, place) <==> place == Home)
  {
  }

  lemma Header(plan: RuntimePlan, w: World)
    requires plan.formatVersion == 1 && plan.target == OneDevice
    ensures HeaderOk(plan, Spec(w), false)
  {
  }

  lemma OneTable(op: ComputeOp, a: ValueDesc, o: ValueDesc)
    requires a.id == 1 && o.id == 3
    ensures DescMap(OneOperand(op, a, o).values) == map[1 := a, 3 := o]
    ensures Instructions(OneOperand(op, a, o)) == [Instruction(0, Compute(op))]
    ensures DefinedBefore(OneOperand(op, a, o), 0) == {1}
    ensures DefinedBefore(OneOperand(op, a, o), 1) == {1, op.output}
  {
    hide DescMap, DefinedBefore;
    var plan := OneOperand(op, a, o);
    assert plan.values[0].id == 1 && plan.values[1].id == 3;
    assert DescMap(plan.values).Keys == {1, 3};
    OneDefined(plan, {1});
  }

  lemma TwoTable(op: ComputeOp, a: ValueDesc, b: ValueDesc, o: ValueDesc)
    requires a.id == 1 && b.id == 2 && o.id == 3
    ensures DescMap(TwoOperands(op, a, b, o).values) == map[1 := a, 2 := b, 3 := o]
  {
    hide DescMap;
    var values, dm := TwoOperands(op, a, b, o).values, DescMap(TwoOperands(op, a, b, o).values);
    assert values[0].id == 1 && values[1].id == 2 && values[2].id == 3;
    assert dm.Keys == {1, 2, 3};
    assert dm[1] == a;
    assert dm[2] == b;
    assert dm[3] == o;
  }

  lemma TwoDefined(op: ComputeOp, a: ValueDesc, b: ValueDesc, o: ValueDesc)
    ensures Instructions(TwoOperands(op, a, b, o)) == [Instruction(0, Compute(op))]
    ensures DefinedBefore(TwoOperands(op, a, b, o), 0) == {1, 2}
    ensures DefinedBefore(TwoOperands(op, a, b, o), 1) == {1, 2, op.output}
  {
    hide DefinedBefore;
    OneDefined(TwoOperands(op, a, b, o), {1, 2});
  }

  lemma OneDefined(plan: RuntimePlan, inputs: set<ValueId>)
    requires |Instructions(plan)| == 1 && Instructions(plan)[0].body.Compute?
    requires forall id :: id in plan.externalInputs <==> id in inputs
    ensures DefinedBefore(plan, 0) == inputs && DefinedBefore(plan, 1) == inputs + {Instructions(plan)[0].body.op.output}
  {
    DefinedNext(plan, 0);
  }

  /** What an operation of one operand has to satisfy. */
  ghost predicate OneRule(op: ComputeOp, a: ValueDesc, o: ValueDesc, spec: OperatorSpec) {
    var dm := map[1 := a, 3 := o];
    op.place == Home && ComputeRule(op, dm) && SpecRule(op, dm, spec)
  }

  ghost predicate TwoRule(op: ComputeOp, a: ValueDesc, b: ValueDesc, o: ValueDesc, spec: OperatorSpec) {
    var dm := map[1 := a, 2 := b, 3 := o];
    op.place == Home && ComputeRule(op, dm) && SpecRule(op, dm, spec)
  }

  lemma OneExact(op: ComputeOp, a: ValueDesc, o: ValueDesc, w: World)
    requires a.id == 1 && o.id == 3 && op.inputs == [1] && op.output == 3
    ensures WellFormed(OneOperand(op, a, o), Spec(w), false) <==>
      Legal(a) && Legal(o) && OneRule(op, a, o, Spec(w).spec)
  {
    hide DescMap, DefinedBefore, DescOk, ComputeRule, SpecRule, PlaceOk, Legal, HeaderOk;
    var plan, loaded := OneOperand(op, a, o), Spec(w);
    OneTable(op, a, o);
    Header(plan, w);
    HostPlace(plan, op.place);
    InstructionExact(plan, op, map[1 := a, 3 := o], loaded.spec);
    if a.place.kind == Host { LegalIsDescOk(plan, w, a); }
    if o.place.kind == Host { LegalIsDescOk(plan, w, o); }
    OneValues(plan, a, o, loaded.spec);
    LegalIsHome(a);
    LegalIsHome(o);
    RuleAtOperand(op, map[1 := a, 3 := o]);
  }

  lemma LegalIsHome(d: ValueDesc)
    ensures Legal(d) ==> d.place == Home
  {
  }

  lemma OneValues(plan: RuntimePlan, a: ValueDesc, o: ValueDesc, spec: OperatorSpec)
    requires plan.values == [a, o] && a.id != o.id
    ensures ValuesOk(plan, spec) <==> DescOk(plan, spec, a) && DescOk(plan, spec, o)
  {
    hide DescOk;
    assert plan.values[0] == a && plan.values[1] == o;
  }

  /** A rule that holds puts the operation where its operand and its output are. */
  lemma RuleAtOperand(op: ComputeOp, dm: Descs)
    requires op.inputs != []
    ensures ComputeRule(op, dm) ==> op.inputs[0] in dm && dm[op.inputs[0]].place == op.place == dm[op.output].place
  {
  }

  lemma InstructionExact(plan: RuntimePlan, op: ComputeOp, dm: Descs, spec: OperatorSpec)
    requires plan.initialization == [] && Instructions(plan) == [Instruction(0, Compute(op))]
    requires forall id :: id in op.inputs ==> id in DefinedBefore(plan, 0)
    requires op.output !in DefinedBefore(plan, 0)
    ensures InstructionOk(plan, spec, dm, 0) <==> PlaceOk(plan, op.place) && ComputeRule(op, dm) && SpecRule(op, dm, spec)
  {
    hide DefinedBefore, ComputeRule, SpecRule, PlaceOk;
  }

  lemma TwoExact(op: ComputeOp, a: ValueDesc, b: ValueDesc, o: ValueDesc, w: World)
    requires a.id == 1 && b.id == 2 && o.id == 3 && op.inputs == [1, 2] && op.output == 3
    ensures WellFormed(TwoOperands(op, a, b, o), Spec(w), false) <==>
      Legal(a) && Legal(b) && Legal(o) && TwoRule(op, a, b, o, Spec(w).spec)
  {
    hide DescMap, DefinedBefore, DescOk, ComputeRule, SpecRule, PlaceOk, Legal, HeaderOk;
    var plan, loaded := TwoOperands(op, a, b, o), Spec(w);
    TwoTable(op, a, b, o);
    TwoDefined(op, a, b, o);
    Header(plan, w);
    HostPlace(plan, op.place);
    InstructionExact(plan, op, map[1 := a, 2 := b, 3 := o], loaded.spec);
    if a.place.kind == Host { LegalIsDescOk(plan, w, a); }
    if b.place.kind == Host { LegalIsDescOk(plan, w, b); }
    if o.place.kind == Host { LegalIsDescOk(plan, w, o); }
    TwoValues(plan, a, b, o, loaded.spec);
    LegalIsHome(a);
    LegalIsHome(b);
    LegalIsHome(o);
    RuleAtOperand(op, map[1 := a, 2 := b, 3 := o]);
  }

  lemma TwoValues(plan: RuntimePlan, a: ValueDesc, b: ValueDesc, o: ValueDesc, spec: OperatorSpec)
    requires plan.values == [a, b, o] && a.id < b.id < o.id
    ensures ValuesOk(plan, spec) <==> DescOk(plan, spec, a) && DescOk(plan, spec, b) && DescOk(plan, spec, o)
  {
    hide DescOk;
    assert plan.values[0] == a && plan.values[1] == b && plan.values[2] == o;
  }

  // ---- The twelve kinds ----

  /** The operand, the second operand if there is one, and the output of an acceptable operation. */
  predicate Relation(op: ComputeOp, a: ValueDesc, b: Option<ValueDesc>, o: ValueDesc, w: World) {
    && Legal(a) && Legal(o) && op.place == Home && a.kind == o.kind == Ciphertext && a.ntt == o.ntt
    && op.kind in w.operators && w.operators[op.kind].supported
    && (b.Some? ==> Legal(b.value) && b.value.level == a.level && b.value.ntt == a.ntt && o.level == a.level && op.attrs == NoAttrs)
    && match op.kind
       case AddCC | SubCC =>
         b.Some? && b.value.kind == Ciphertext && a.scale == b.value.scale == o.scale && a.components == b.value.components == o.components
       case AddCP | SubCP =>
         b.Some? && b.value.kind == Plaintext && a.scale == b.value.scale == o.scale && a.components == o.components
       case MulCC =>
         b.Some? && b.value.kind == Ciphertext && o.scale == a.scale + b.value.scale && o.components == a.components + b.value.components - 1
       case MulCP =>
         b.Some? && b.value.kind == Plaintext && o.scale == a.scale + b.value.scale && o.components == a.components
       case Negate =>
         b.None? && op.attrs == NoAttrs && a.level == o.level && a.scale == o.scale && a.components == o.components
       case Rotate =>
         b.None? && op.attrs.RotateAttrs? && op.attrs.steps % 4096 != 0 && a.components == 2 && o.components == 2 &&
         a.level == o.level && a.scale == o.scale
       case Rescale =>
         b.None? && op.attrs == RescaleAttrs(o.level, o.scale) && a.components == o.components &&
         o.level < a.level && w.operators[op.kind].maxLevelsPerOp.Some? && a.level - o.level <= w.operators[op.kind].maxLevelsPerOp.value
       case ModSwitch =>
         b.None? && op.attrs == ModSwitchAttrs(o.level) && o.level < a.level && a.scale == o.scale && a.components == o.components
       case Relinearize =>
         b.None? && op.attrs == NoAttrs && a.components == 3 && o.components == 2 && a.level == o.level && a.scale == o.scale
       case Boot =>
         b.None? && op.attrs.BootAttrs? && op.attrs.profile != "" && op.attrs.profile in {w.p.id, w.q.id} &&
         var used := if op.attrs.profile == w.p.id then w.p else w.q;
         op.attrs == BootAttrs(o.level, o.scale, o.components, used.id, used.implementation) &&
         o.level == used.outputLevel && o.scale == used.outputScale && o.components == used.outputComponents &&
         used.inputLevelMin <= a.level <= used.inputLevelMax && a.components == used.inputComponents
  }

  lemma TwoOperandRelation(op: ComputeOp, a: ValueDesc, b: ValueDesc, o: ValueDesc, w: World)
    requires a.id == 1 && b.id == 2 && o.id == 3 && op.inputs == [1, 2] && op.output == 3
    ensures Legal(a) && Legal(b) && Legal(o) && TwoRule(op, a, b, o, Spec(w).spec) <==> Relation(op, a, Some(b), o, w)
  {
    hide Legal, Fanout.ZeroDigest;
    LegalFacts(a);
    LegalFacts(b);
    LegalFacts(o);
  }

  lemma LegalFacts(d: ValueDesc)
    ensures Legal(d) ==> d.place == Home && d.context == "ctx"
  {
  }

  lemma OneOperandRelation(op: ComputeOp, a: ValueDesc, o: ValueDesc, w: World)
    requires a.id == 1 && o.id == 3 && op.inputs == [1] && op.output == 3
    ensures Legal(a) && Legal(o) && OneRule(op, a, o, Spec(w).spec) <==> Relation(op, a, None, o, w)
  {
    hide Legal, Fanout.ZeroDigest;
    LegalFacts(a);
    LegalFacts(o);
    FirstOfTwo(Spec(w).spec.bootProfiles, w.p, w.q);
  }

  lemma FirstOfTwo(profiles: seq<BootProfile>, p: BootProfile, q: BootProfile)
    requires profiles == [p, q]
    ensures FirstProfile(profiles, p)
    ensures FirstProfile(profiles, q) <==> p.id != q.id || p == q
    ensures forall r :: FirstProfile(profiles, r) ==> r == p || (r == q && p.id != q.id)
  {
    assert profiles[0] == p && profiles[1] == q;
  }

  function CasePlan(op: ComputeOp, a: ValueDesc, b: Option<ValueDesc>, o: ValueDesc): RuntimePlan {
    if b.Some? then TwoOperands(op.(inputs := [1, 2], output := 3), a.(id := 1), b.value.(id := 2), o.(id := 3))
    else OneOperand(op.(inputs := [1], output := 3), a.(id := 1), o.(id := 3))
  }

  /** The plan of one compute instruction is well-formed exactly when its operands, its attributes and its output
      stand in the relation of its kind. */
  lemma CaseExact(op: ComputeOp, a: ValueDesc, b: Option<ValueDesc>, o: ValueDesc, w: World)
    ensures WellFormed(CasePlan(op, a, b, o), Spec(w), false) <==> Relation(op, a, b, o, w)
  {
    hide WellFormed, Relation, Legal, OneRule, TwoRule;
    var x, z := a.(id := 1), o.(id := 3);
    if b.Some? {
      var y := b.value.(id := 2);
      TwoExact(op.(inputs := [1, 2], output := 3), x, y, z, w);
      TwoOperandRelation(op.(inputs := [1, 2], output := 3), x, y, z, w);
    } else {
      OneExact(op.(inputs := [1], output := 3), x, z, w);
      OneOperandRelation(op.(inputs := [1], output := 3), x, z, w);
    }
    Renumbered(op, a, b, o, w);
  }

  lemma Renumbered(op: ComputeOp, a: ValueDesc, b: Option<ValueDesc>, o: ValueDesc, w: World)
    ensures b.None? ==> (Relation(op.(inputs := [1], output := 3), a.(id := 1), None, o.(id := 3), w) <==> Relation(op, a, b, o, w))
    ensures b.Some? ==>
      (Relation(op.(inputs := [1, 2], output := 3), a.(id := 1), Some(b.value.(id := 2)), o.(id := 3), w) <==>
       Relation(op, a, b, o, w))
  {
  }

  // ---- What such a plan asks of its ranks ----

  function NeededCapabilities(op: ComputeOp): set<Capability> {
    match op.kind
    case Boot =>
      if op.attrs.BootAttrs? && op.attrs.implementation == Native then {NeedsHostCompute, NeedsBootNative}
      else {NeedsHostCompute, NeedsBootDecryptReencrypt}
    case _ => {NeedsHostCompute}
  }

  function NeededKeys(op: ComputeOp): set<KeyRequirement> {
    match op.kind
    case Rotate => if op.attrs.RotateAttrs? then {KeyRequirement(Galois, Home, Some(op.attrs.steps % 4096))} else {}
    case Relinearize => {KeyRequirement(Relin, Home, None)}
    case Boot =>
      if op.attrs.BootAttrs? && op.attrs.implementation == DecryptReencrypt then {KeyRequirement(Secret, Home, None)} else {}
    case _ => {}
  }

  lemma OneNeeds(plan: RuntimePlan, body: Body, slots: nat)
    requires |Instructions(plan)| == 1 && Instructions(plan)[0].body == body
    ensures CapabilitiesBefore(plan, 1) == CapabilitiesOf(body) && KeysBefore(plan, slots, 1) == KeysOf(body, slots)
  {
    hide CapabilitiesOf, KeysOf;
  }

  lemma NeedsAre(op: ComputeOp, a: ValueDesc, b: Option<ValueDesc>, o: ValueDesc, w: World)
    requires Relation(op, a, b, o, w)
    ensures CapabilitiesOf(Compute(op)) == NeededCapabilities(op) && KeysOf(Compute(op), 4096) == NeededKeys(op)
  {
    hide Legal;
  }

  /** One case of the metadata rules as the tests state it: the verifier accepts the plan of one instruction exactly
      when its operands, attributes and output are related, and asks for exactly what the kind needs. */
  method VerifyCase(op: ComputeOp, a: ValueDesc, b: Option<ValueDesc>, o: ValueDesc, w: World)
      returns (r: Result<Requirements, VerifyError>)
    ensures r.Success? <==> Relation(op, a, b, o, w)
    ensures r.Success? ==> r.value == Requirements(NeededCapabilities(op), NeededKeys(op))
  {
    hide WellFormed, Relation, NeededCapabilities, NeededKeys, CapabilitiesBefore, KeysBefore, CapabilitiesOf, KeysOf;
    CaseExact(op, a, b, o, w);
    r := Verify(CasePlan(op, a, b, o), Spec(w), false);
    if r.Success? {
      ghost var run := if b.Some? then op.(inputs := [1, 2], output := 3) else op.(inputs := [1], output := 3);
      assert Instructions(CasePlan(op, a, b, o)) == [Instruction(0, Compute(run))];
      OneNeeds(CasePlan(op, a, b, o), Compute(run), 4096);
      NeedsAre(op, a, b, o, w);
      SameNeeds(op, run);
    }
  }

  lemma SameNeeds(op: ComputeOp, run: ComputeOp)
    requires run.kind == op.kind && run.attrs == op.attrs && run.place == op.place
    ensures CapabilitiesOf(Compute(run)) == CapabilitiesOf(Compute(op)) && KeysOf(Compute(run), 4096) == KeysOf(Compute(op), 4096)
  {
  }
}
