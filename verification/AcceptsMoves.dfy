/** Which plans the verifier accepts, on plans of one communication or one encode and with every field written out;
    and which headers. */
module AcceptsMoves {
  import opened Wrappers
  import opened Plan
  import opened Rules
  import opened Verifier
  import Fanout
  import Accepts

  /** Two ranks with one and two devices. */
  const TwoRanks := Target("vec-fixed-target", 2, [1, 2], 1, SpecRef("vec-operator-spec", 1, Fanout.ZeroDigest))

  const Places := {
    Place(Host, 0, 0), Place(Host, 1, 0), Place(Device, 0, 0), Place(Device, 1, 0), Place(Device, 1, 1)}

  /** A descriptor somewhere on these ranks that would be legal at home. */
  predicate Placed(d: ValueDesc) {
    d.place in Places && Accepts.Legal(d.(place := Accepts.Home))
  }

  lemma PlacedIsDescOk(plan: RuntimePlan, d: ValueDesc)
    requires plan.target == TwoRanks
    ensures DescOk(plan, Fanout.TestSpec().spec, d) <==> Placed(d)
  {
    hide Budget, PlaceOk;
    Accepts.Budgets(Fanout.TestSpec().spec);
    PlacesAreOk(plan, d.place);
  }

  lemma PlacesAreOk(plan: RuntimePlan, place: Place)
    requires plan.target == TwoRanks
    ensures PlaceOk(plan, place) <==> place in Places
  {
  }

  // ---- One communication ----

  /** One external input, copied to the places of an action; output `i` has identifier `2 + i`. */
  function MovePlan(action: CommAction, a: ValueDesc, outs: seq<ValueDesc>): RuntimePlan {
    RuntimePlan(1, TwoRanks, None, [a] + outs, [1], [], [Instruction(0, Comm(action))], [], [1])
  }

  ghost predicate Numbered(action: CommAction, a: ValueDesc, outs: seq<ValueDesc>) {
    && a.id == 1 && action.inputs == [1] && |action.outputs| == |outs|
    && forall i :: 0 <= i < |outs| ==> outs[i].id == 2 + i && action.outputs[i] == 2 + i
  }

  /** A transfer has one destination, a replicate at least two different ones; the source leaves its own place, and
      each output is the same value at its destination. */
  ghost predicate Moves(action: CommAction, a: ValueDesc, outs: seq<ValueDesc>) {
    && Placed(a) && a.place.kind == Host && action.sources == [a.place]
    && (if action.kind == Transfer then |outs| == 1 else |outs| >= 2)
    && |action.destinations| == |outs| == |action.outputTypes|
    && (forall i, j :: 0 <= i < j < |outs| ==> action.destinations[i] != action.destinations[j])
    && (forall i :: 0 <= i < |outs| ==> action.destinations[i] in Places && action.destinations[i] != a.place)
    && (forall i :: 0 <= i < |outs| ==> action.outputTypes[i] == a.kind)
    && (forall i :: 0 <= i < |outs| ==> outs[i] == a.(id := 2 + i, place := action.destinations[i]))
  }

  lemma Consecutive(values: seq<ValueDesc>)
    requires forall i :: 0 <= i < |values| ==> values[i].id == 1 + i
    ensures Rules.UniqueIds(values)
    ensures forall id: ValueId :: id in DescMap(values) <==> 1 <= id <= |values|
    ensures forall i :: 0 <= i < |values| ==> DescMap(values)[1 + i] == values[i]
  {
    hide DescMap;
    var dm := DescMap(values);
    forall id: ValueId | 1 <= id <= |values| ensures id in dm {
      assert values[id - 1].id == id;
    }
    forall i | 0 <= i < |values| ensures 1 + i in dm && dm[1 + i] == values[i] {
      assert values[i].id == 1 + i;
      var k :| 0 <= k < |values| && values[k] == dm[1 + i];
    }
  }

  lemma MoveTable(action: CommAction, a: ValueDesc, outs: seq<ValueDesc>)
    requires Numbered(action, a, outs)
    ensures var dm := DescMap(MovePlan(action, a, outs).values);
      && 1 in dm && dm[1] == a && (forall id: ValueId :: id in dm <==> 1 <= id < 2 + |outs|)
      && forall i :: 0 <= i < |outs| ==> dm[2 + i] == outs[i]
    ensures Rules.UniqueIds(MovePlan(action, a, outs).values)
  {
    hide DescMap, Rules.UniqueIds;
    var values := MovePlan(action, a, outs).values;
    assert forall i :: 0 <= i < |outs| ==> values[1 + i] == outs[i];
    forall i | 0 <= i < |values| ensures values[i].id == 1 + i {
      assert i > 0 ==> values[i] == outs[i - 1];
    }
    Consecutive(values);
    assert DescMap(values)[1 + 0] == values[0];
    forall i | 0 <= i < |outs| ensures DescMap(values)[2 + i] == outs[i] {
      assert DescMap(values)[1 + (i + 1)] == values[i + 1];
    }
  }

  lemma MoveDefined(action: CommAction, a: ValueDesc, outs: seq<ValueDesc>)
    requires Numbered(action, a, outs)
    ensures Instructions(MovePlan(action, a, outs)) == [Instruction(0, Comm(action))]
    ensures DefinedBefore(MovePlan(action, a, outs), 0) == {1}
    ensures DefinedBefore(MovePlan(action, a, outs), 1) == DescMap(MovePlan(action, a, outs).values).Keys
  {
    hide DescMap, DefinedBefore, Rules.UniqueIds, Numbered;
    var plan := MovePlan(action, a, outs);
    MoveTable(action, a, outs);
    OutputIds(action, a, outs);
    StartSet(plan);
    DefinedNext(plan, 0);
  }

  lemma OutputIds(action: CommAction, a: ValueDesc, outs: seq<ValueDesc>)
    requires Numbered(action, a, outs)
    ensures forall id: ValueId :: id in action.outputs <==> 2 <= id < 2 + |outs|
  {
    forall id: ValueId | 2 <= id < 2 + |outs| ensures id in action.outputs {
      assert action.outputs[id - 2] == id;
    }
  }

  lemma StartSet(plan: RuntimePlan)
    ensures DefinedBefore(plan, 0) == set id | id in plan.externalInputs
  {
  }

  lemma MoveValues(action: CommAction, a: ValueDesc, outs: seq<ValueDesc>)
    requires Numbered(action, a, outs)
    ensures ValuesOk(MovePlan(action, a, outs), Fanout.TestSpec().spec) <==> Placed(a) && forall i :: 0 <= i < |outs| ==> Placed(outs[i])
  {
    hide DescOk, Placed, DescMap;
    var plan := MovePlan(action, a, outs);
    MoveTable(action, a, outs);
    forall d ensures DescOk(plan, Fanout.TestSpec().spec, d) <==> Placed(d) {
      PlacedIsDescOk(plan, d);
    }
    assert plan.values[0] == a;
    assert forall i :: 0 <= i < |outs| ==> plan.values[1 + i] == outs[i];
  }

  lemma MoveInstruction(action: CommAction, a: ValueDesc, outs: seq<ValueDesc>)
    requires Numbered(action, a, outs)
    ensures var plan := MovePlan(action, a, outs);
      InstructionOk(plan, Fanout.TestSpec().spec, DescMap(plan.values), 0) <==> CommRule(plan, action, DescMap(plan.values))
  {
    hide DescMap, DefinedBefore, CommRule;
    MoveDefined(action, a, outs);
  }

  /** The rule of one output, written out. */
  lemma OutputRule(action: CommAction, a: ValueDesc, outs: seq<ValueDesc>, dm: Descs, i: nat)
    requires Numbered(action, a, outs) && i < |outs| && |action.destinations| == |outs| == |action.outputTypes|
    requires 2 + i in dm && dm[2 + i] == outs[i] && outs[i].context == a.context
    ensures CommOutputOk(MovePlan(action, a, outs), action, a, dm, i) <==>
      && action.destinations[i] in Places && action.destinations[i] != a.place && action.outputTypes[i] == a.kind
      && outs[i] == a.(id := 2 + i, place := action.destinations[i])
  {
    hide PlaceOk, Places;
    PlacesAreOk(MovePlan(action, a, outs), action.destinations[i]);
  }

  lemma ShapeRule(action: CommAction, a: ValueDesc, outs: seq<ValueDesc>, dm: Descs)
    requires Numbered(action, a, outs) && a.place in Places && 1 in dm && dm[1] == a
    ensures CommShape(MovePlan(action, a, outs), action, dm) <==>
      && action.sources == [a.place] && |action.destinations| == |outs| == |action.outputTypes|
      && (if action.kind == Transfer then |outs| == 1 else |outs| >= 2)
  {
    hide PlaceOk, Places;
    PlacesAreOk(MovePlan(action, a, outs), a.place);
  }

  /** The rules of a communication, once the values are placed. */
  lemma MoveRule(action: CommAction, a: ValueDesc, outs: seq<ValueDesc>)
    requires Numbered(action, a, outs) && Placed(a) && forall i :: 0 <= i < |outs| ==> Placed(outs[i])
    requires a.place.kind == Host
    ensures CommRule(MovePlan(action, a, outs), action, DescMap(MovePlan(action, a, outs).values)) <==> Moves(action, a, outs)
  {
    hide DescMap, PlaceOk, Placed, Places, CommShape, CommOutputOk, Numbered;
    var plan := MovePlan(action, a, outs);
    MoveTable(action, a, outs);
    PlacedIsSomewhere(a);
    var dm := DescMap(plan.values);
    ShapeRule(action, a, outs, dm);
    InputIsFirst(action, a, outs);
    if CommShape(plan, action, dm) {
      forall i | 0 <= i < |outs|
        ensures CommOutputOk(plan, action, a, dm, i) <==>
          && action.destinations[i] in Places && action.destinations[i] != a.place && action.outputTypes[i] == a.kind
          && outs[i] == a.(id := 2 + i, place := action.destinations[i])
      {
        PlacedIsSomewhere(outs[i]);
        OutputRule(action, a, outs, dm, i);
      }
      assert action.inputs[0] == 1 && dm[action.inputs[0]] == a;
      assert |action.outputs| == |action.destinations| == |action.outputTypes| == |outs|;
      if CommRule(plan, action, dm) {
        forall i | 0 <= i < |outs| ensures CommOutputOk(plan, action, a, dm, i) {
          assert CommOutputOk(plan, action, dm[action.inputs[0]], dm, i);
        }
      }
      if Moves(action, a, outs) {
        assert forall i :: 0 <= i < |outs| ==> CommOutputOk(plan, action, a, dm, i);
      }
    }
  }

  lemma InputIsFirst(action: CommAction, a: ValueDesc, outs: seq<ValueDesc>)
    requires Numbered(action, a, outs)
    ensures action.inputs == [1] && |action.outputs| == |outs|
  {
  }

  lemma PlacedIsSomewhere(d: ValueDesc)
    ensures Placed(d) ==> d.place in Places && d.context == "ctx"
  {
  }

  lemma PlacedElsewhere(d: ValueDesc, id: ValueId, place: Place)
    requires Placed(d) && place in Places
    ensures Placed(d.(id := id, place := place))
  {
  }

  /** The plan of one communication is well-formed exactly when it moves its source. */
  lemma MoveExact(action: CommAction, a: ValueDesc, outs: seq<ValueDesc>)
    requires Numbered(action, a, outs)
    ensures WellFormed(MovePlan(action, a, outs), Fanout.TestSpec(), false) <==> Moves(action, a, outs)
  {
    hide DescMap, DefinedBefore, DescOk, CommRule, PlaceOk, Placed, HeaderOk, Places, InstructionOk, ValuesOk, Numbered, MovePlan, Moves;
    var plan := MovePlan(action, a, outs);
    MoveParts(action, a, outs);
    MoveValues(action, a, outs);
    MoveInstruction(action, a, outs);
    MoveHeader(plan);
    MovesPlaced(action, a, outs);
    if Placed(a) && (forall i :: 0 <= i < |outs| ==> Placed(outs[i])) && a.place.kind == Host {
      MoveRule(action, a, outs);
    }
  }

  lemma MovesPlaced(action: CommAction, a: ValueDesc, outs: seq<ValueDesc>)
    ensures Moves(action, a, outs) ==> Placed(a) && a.place.kind == Host && forall i :: 0 <= i < |outs| ==> Placed(outs[i])
  {
    hide Placed;
    if Moves(action, a, outs) {
      forall i | 0 <= i < |outs| ensures Placed(outs[i]) {
        PlacedElsewhere(a, 2 + i, action.destinations[i]);
      }
    }
  }

  lemma MoveParts(action: CommAction, a: ValueDesc, outs: seq<ValueDesc>)
    requires Numbered(action, a, outs)
    ensures var plan := MovePlan(action, a, outs);
      && |Instructions(plan)| == 1 && plan.formatVersion == 1 && plan.target == TwoRanks
      && (InputsOk(plan, DescMap(plan.values)) <==> a.place.kind == Host)
      && OutputsOk(plan, DescMap(plan.values)) && DescMap(plan.values).Keys == DefinedBefore(plan, 1)
  {
    hide DescMap, DefinedBefore;
    var plan := MovePlan(action, a, outs);
    MoveTable(action, a, outs);
    MoveDefined(action, a, outs);
    assert plan.externalInputs == [1] && plan.finalOutputs == [1];
    assert !IsBundleEncode(Instructions(plan)[0].body);
  }

  lemma MoveHeader(plan: RuntimePlan)
    requires plan.formatVersion == 1 && plan.target == TwoRanks
    ensures HeaderOk(plan, Fanout.TestSpec(), false)
  {
  }

  /** One action through the verifier: accepted exactly when it moves its source, and then it needs one capability
      and no key. */
  method VerifyMove(action: CommAction, a: ValueDesc, outs: seq<ValueDesc>) returns (r: Result<Requirements, VerifyError>)
    requires Numbered(action, a, outs)
    ensures r.Success? <==> Moves(action, a, outs)
    ensures r.Success? ==> r.value == Requirements({if |outs| == 1 then NeedsTransfer else NeedsReplicate}, {})
  {
    hide WellFormed, Placed, CapabilitiesBefore, KeysBefore;
    MoveExact(action, a, outs);
    r := Verify(MovePlan(action, a, outs), Fanout.TestSpec(), false);
    Accepts.OneNeeds(MovePlan(action, a, outs), Comm(action), 4096);
    assert Instructions(MovePlan(action, a, outs)) == [Instruction(0, Comm(action))];
  }

  // ---- One encode ----

  function EncodePlan(target: Target, version: nat, payload: EncodePayload, o: ValueDesc, late: bool, bundle: Option<BundleRef>): RuntimePlan {
    var code := [Instruction(0, Encode(payload, 1))];
    RuntimePlan(version, target, bundle, [o], [], if late then [] else code, if late then code else [], [], [1])
  }

  lemma EncodeParts(target: Target, version: nat, payload: EncodePayload, o: ValueDesc, late: bool, bundle: Option<BundleRef>)
    requires o.id == 1
    ensures var plan := EncodePlan(target, version, payload, o, late, bundle);
      && DescMap(plan.values) == map[1 := o] && Instructions(plan) == [Instruction(0, Encode(payload, 1))]
      && DefinedBefore(plan, 0) == {} && DefinedBefore(plan, 1) == {1} && Rules.UniqueIds(plan.values)
  {
    hide DescMap, DefinedBefore;
    var plan := EncodePlan(target, version, payload, o, late, bundle);
    assert plan.values[0].id == 1;
    assert DescMap(plan.values).Keys == {1};
    StartSet(plan);
    DefinedNext(plan, 0);
  }

  lemma EncodeReduced(target: Target, version: nat, payload: EncodePayload, o: ValueDesc, late: bool, bundle: Option<BundleRef>, loaded: LoadedSpec, skip: bool)
    requires o.id == 1
    ensures var plan := EncodePlan(target, version, payload, o, late, bundle);
      WellFormed(plan, loaded, skip) <==>
        && HeaderOk(plan, loaded, skip) && DescOk(plan, loaded.spec, o) && !late
        && EncodeRule(payload, 1, map[1 := o], loaded.spec) && (payload.Bundle? <==> bundle.Some?)
  {
    hide DescMap, DefinedBefore, DescOk, EncodeRule, HeaderOk, PlaceOk;
    var plan := EncodePlan(target, version, payload, o, late, bundle);
    EncodeParts(target, version, payload, o, late, bundle);
    assert plan.values[0] == o && plan.finalOutputs == [1];
    assert IsBundleEncode(Instructions(plan)[0].body) <==> payload.Bundle?;
    var dm := DescMap(plan.values);
    assert ValuesOk(plan, loaded.spec) <==> DescOk(plan, loaded.spec, o);
    assert InputsOk(plan, dm);
    assert UsesBundle(plan) <==> payload.Bundle?;
    assert OutputsOk(plan, dm) <==> (payload.Bundle? <==> bundle.Some?);
    assert SsaOk(plan, 0);
    assert InstructionOk(plan, loaded.spec, dm, 0) <==> !late && EncodeRule(payload, 1, dm, loaded.spec);
  }

  /** An encode is acceptable exactly in the initialization, onto a Host, as a plaintext of one component; with
      between 1 and 4096 inline literals and no bundle, or from the bundle of the plan. */
  lemma EncodeExact(payload: EncodePayload, o: ValueDesc, late: bool, bundle: Option<BundleRef>)
    requires o.id == 1
    ensures WellFormed(EncodePlan(TwoRanks, 1, payload, o, late, bundle), Fanout.TestSpec(), false) <==>
      && !late && Placed(o) && o.place.kind == Host && o.kind == Plaintext
      && (if payload.Inline? then 1 <= |payload.values| <= 4096 && bundle.None? else bundle.Some?)
  {
    hide DescMap, WellFormed, DescOk, HeaderOk;
    var plan := EncodePlan(TwoRanks, 1, payload, o, late, bundle);
    EncodeReduced(TwoRanks, 1, payload, o, late, bundle, Fanout.TestSpec(), false);
    PlacedIsDescOk(plan, o);
    MoveHeader(plan);
    PlainIsSingle(o);
  }

  lemma PlainIsSingle(o: ValueDesc)
    ensures Placed(o) && o.kind == Plaintext ==> o.components == 1
  {
  }

  // ---- Headers ----

  const Zero := ValueDesc(1, Plaintext, Accepts.Home, "ctx", 0, 0, true, 1)

  function NamedSpec(format: Int32, name: string, number: Int32, targetId: string, digest: string): LoadedSpec {
    var loaded := Fanout.TestSpec();
    LoadedSpec(loaded.spec.(formatVersion := format, id := name, version := number, targetId := targetId), digest)
  }

  /** The versions are supported, the target is complete, and it names the spec that is loaded. */
  predicate HeaderFits(target: Target, version: nat, format: Int32, name: string, number: Int32, targetId: string, digest: string, skip: bool) {
    && version == 1 && 1 <= format <= 2 && target.targetId == targetId && targetId != "" && target.capabilityVersion >= 1
    && target.worldSize >= 1 && |target.deviceCounts| == target.worldSize
    && (forall r :: 0 <= r < |target.deviceCounts| ==> target.deviceCounts[r] >= 0)
    && target.operatorSpec.id == name && target.operatorSpec.version == number
    && (skip || target.operatorSpec.sourceSha256 == digest)
  }

  lemma HeaderIs(plan: RuntimePlan, format: Int32, name: string, number: Int32, targetId: string, digest: string, skip: bool)
    ensures HeaderOk(plan, NamedSpec(format, name, number, targetId, digest), skip) <==>
      HeaderFits(plan.target, plan.formatVersion, format, name, number, targetId, digest, skip)
  {
  }

  lemma ZeroFits(plan: RuntimePlan, format: Int32, name: string, number: Int32, targetId: string, digest: string)
    requires plan.target.worldSize >= 1
    ensures DescOk(plan, NamedSpec(format, name, number, targetId, digest).spec, Zero)
    ensures EncodeRule(Inline([0]), 1, map[1 := Zero], NamedSpec(format, name, number, targetId, digest).spec)
  {
    hide Budget;
    Accepts.Budgets(NamedSpec(format, name, number, targetId, digest).spec);
  }

  /** A plan of one encode under any header is accepted exactly when the header fits; the digest of the spec matters
      only if digests are checked. */
  lemma HeaderExact(target: Target, version: nat, format: Int32, name: string, number: Int32, targetId: string, digest: string, skip: bool)
    ensures WellFormed(EncodePlan(target, version, Inline([0]), Zero, false, None), NamedSpec(format, name, number, targetId, digest), skip) <==>
      HeaderFits(target, version, format, name, number, targetId, digest, skip)
  {
    hide DescMap, WellFormed, DescOk, HeaderOk, EncodeRule;
    var plan := EncodePlan(target, version, Inline([0]), Zero, false, None);
    EncodeReduced(target, version, Inline([0]), Zero, false, None, NamedSpec(format, name, number, targetId, digest), skip);
    HeaderIs(plan, format, name, number, targetId, digest, skip);
    if target.worldSize >= 1 {
      ZeroFits(plan, format, name, number, targetId, digest);
    }
  }
}
