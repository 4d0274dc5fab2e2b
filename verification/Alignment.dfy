/** Plan alignment (experiments/dacapo_plan_vec_diff.cpp): a translation validator that accepts a
    distributed plan as a reordering of a reference plan with transfers inserted. */
module Alignment {
  import opened Wrappers
  import opened Plan
  import opened Rules
  import opened Vec

  type Lineage = map<ValueId, ValueId>

  /** The first descriptor with this identifier. */
  function FindDesc(values: seq<ValueDesc>, id: ValueId): (r: Option<ValueDesc>)
    ensures r.Some? ==> r.value in values && r.value.id == id
    ensures r.None? <==> forall i :: 0 <= i < |values| ==> values[i].id != id
  {
    if values == [] then None
    else if values[0].id == id then Some(values[0])
    else FindDesc(values[1..], id)
  }

  function Ids(plan: RuntimePlan): (s: set<ValueId>)
  {
    set v | v in plan.values :: v.id
  }

  /** The output of an encode or a compute. */
  function OutputOf(body: Body): ValueId
    requires !body.Comm?
  {
    if body.Encode? then body.output else body.op.output
  }

  /** Not a number: all exponent bits are set and the significand is not zero. */
  predicate IsNaN(bits: Bits) {
    (bits / 0x10_0000_0000_0000) % 0x800 == 0x7ff && bits % 0x10_0000_0000_0000 != 0
  }

  /** Equality of doubles: the two zeros are equal, and what is not a number differs even from itself. */
  predicate SameDouble(a: Bits, b: Bits) {
    !IsNaN(a) && !IsNaN(b) && NormalizeZero(a) == NormalizeZero(b)
  }

  predicate SameSlots(a: seq<Bits>, b: seq<Bits>) {
    |a| == |b| && forall i :: 0 <= i < |a| ==> SameDouble(a[i], b[i])
  }

  /** Payload equality compares doubles. */
  predicate SamePayload(a: EncodePayload, b: EncodePayload) {
    match (a, b)
    case (Inline(x), Inline(y)) => SameSlots(x, y)
    case (Bundle(x), Bundle(y)) => x == y
    case _ => false
  }

  predicate TargetsOk(reference: RuntimePlan, distributed: RuntimePlan) {
    && reference.target.worldSize == 1 && reference.target.deviceCounts == [0]
    && reference.target.targetId == distributed.target.targetId
    && reference.target.capabilityVersion == distributed.target.capabilityVersion
    && reference.target.operatorSpec == distributed.target.operatorSpec
    && reference.externalInputs == distributed.externalInputs
    && forall id :: id in distributed.externalInputs ==>
      FindDesc(distributed.values, id).Some? && FindDesc(distributed.values, id).value.place == Place(Host, 0, 0)
  }

  predicate IsPointToPoint(body: Body) {
    body.Comm? && body.action.kind == Transfer && body.action.hint == CommHint.PointToPoint &&
    |body.action.inputs| == |body.action.outputs| == |body.action.sources| == |body.action.destinations| ==
      |body.action.outputTypes| == 1
  }

  /** Producers of the first `n` instructions, by output. */
  function Producers(code: seq<Instruction>, n: nat): map<ValueId, Instruction>
    requires n <= |code|
  {
    if n == 0 then map[]
    else if code[n - 1].body.Comm? then Producers(code, n - 1)
    else Producers(code, n - 1)[OutputOf(code[n - 1].body) := code[n - 1]]
  }

  /** Where each transfer output of the first `n` instructions was copied from. */
  function Sources(code: seq<Instruction>, n: nat): Lineage
    requires n <= |code|
  {
    if n == 0 then map[]
    else if IsPointToPoint(code[n - 1].body) then
      Sources(code, n - 1)[code[n - 1].body.action.outputs[0] := code[n - 1].body.action.inputs[0]]
    else Sources(code, n - 1)
  }

  /** Follow the transfers back to a reference value; `active` are the identifiers being resolved. */
  function Resolve(known: set<ValueId>, sources: Lineage, id: ValueId, active: set<ValueId>): Option<ValueId>
    decreases |sources.Keys - active|
  {
    if id in known then Some(id)
    else if id !in sources || id in active then None
    else
      assert id in sources.Keys - active;
      Shrinks(sources.Keys - (active + {id}), sources.Keys - active);
      Resolve(known, sources, sources[id], active + {id})
  }

  lemma Shrinks<T>(a: set<T>, b: set<T>)
    requires a < b
    ensures |a| < |b|
  {
    assert |b - a| > 0 by { assert b - a != {}; }
    assert b == a + (b - a);
  }

  function Root(reference: RuntimePlan, distributed: RuntimePlan, id: ValueId): Option<ValueId> {
    Resolve(Ids(reference), Sources(Instructions(distributed), |Instructions(distributed)|), id, {})
  }

  ghost predicate ReferenceOk(code: seq<Instruction>) {
    && (forall i :: 0 <= i < |code| ==> !code[i].body.Comm?)
    && forall i, j :: 0 <= i < j < |code| ==> OutputOf(code[i].body) != OutputOf(code[j].body)
  }

  ghost predicate TransfersOk(known: set<ValueId>, code: seq<Instruction>) {
    && (forall i :: 0 <= i < |code| && code[i].body.Comm? ==> IsPointToPoint(code[i].body) && code[i].body.action.outputs[0] !in known)
    && (forall i, j :: 0 <= i < j < |code| && code[i].body.Comm? && code[j].body.Comm? ==>
      code[i].body.action.outputs[0] != code[j].body.action.outputs[0])
  }

  ghost predicate SameDesc(a: Option<ValueDesc>, b: Option<ValueDesc>) {
    a.Some? && b.Some? && SameMetadata(a.value, b.value)
  }

  ghost predicate ValuesAgree(reference: RuntimePlan, distributed: RuntimePlan) {
    var sources := Sources(Instructions(distributed), |Instructions(distributed)|);
    && (forall id :: id in Ids(reference) ==> SameDesc(FindDesc(reference.values, id), FindDesc(distributed.values, id)))
    && (forall id :: id in sources ==>
      Root(reference, distributed, sources[id]).Some? &&
      SameDesc(FindDesc(reference.values, Root(reference, distributed, sources[id]).value), FindDesc(distributed.values, id)))
  }

  /** The distributed instruction does what the reference instruction does, on operands of the same lineage. */
  predicate SameWork(known: set<ValueId>, sources: Lineage, body: Body, expected: Body) {
    match (body, expected)
    case (Encode(a, _), Encode(b, _)) => SamePayload(a, b)
    case (Compute(a), Compute(b)) =>
      && a.kind == b.kind && a.attrs == b.attrs && |a.inputs| == |b.inputs|
      && forall i :: 0 <= i < |a.inputs| ==> Resolve(known, sources, a.inputs[i], {}) == Some(b.inputs[i])
    case _ => false
  }

  ghost predicate InstructionsAgree(known: set<ValueId>, producers: map<ValueId, Instruction>, sources: Lineage, code: seq<Instruction>) {
    && (forall i :: 0 <= i < |code| && !code[i].body.Comm? ==> OutputOf(code[i].body) in producers)
    && (forall i, j :: 0 <= i < j < |code| && !code[i].body.Comm? && !code[j].body.Comm? ==>
      OutputOf(code[i].body) != OutputOf(code[j].body))
    && (forall i :: 0 <= i < |code| && !code[i].body.Comm? ==>
      SameWork(known, sources, code[i].body, producers[OutputOf(code[i].body)].body))
    && (forall id :: id in producers ==> exists i :: 0 <= i < |code| && !code[i].body.Comm? && OutputOf(code[i].body) == id)
  }

  ghost predicate OutputsAgree(reference: RuntimePlan, distributed: RuntimePlan) {
    && |reference.finalOutputs| == |distributed.finalOutputs|
    && forall i :: 0 <= i < |reference.finalOutputs| ==>
      Root(reference, distributed, distributed.finalOutputs[i]) == Some(reference.finalOutputs[i])
  }

  /** What alignment accepts. */
  ghost predicate Aligned(reference: RuntimePlan, distributed: RuntimePlan) {
    var r, d := Instructions(reference), Instructions(distributed);
    && TargetsOk(reference, distributed)
    && ReferenceOk(r)
    && TransfersOk(Ids(reference), d)
    && (forall id :: id in Sources(d, |d|) ==> Root(reference, distributed, id).Some?)
    && ValuesAgree(reference, distributed)
    && InstructionsAgree(Ids(reference), Producers(r, |r|), Sources(d, |d|), d)
    && OutputsAgree(reference, distributed)
  }

  class PlanAlignment {
    const reference: RuntimePlan
    const distributed: RuntimePlan
    var known: set<ValueId>
    var producers: map<ValueId, Instruction>
    var sources: Lineage

    constructor (reference: RuntimePlan, distributed: RuntimePlan)
      ensures this.reference == reference && this.distributed == distributed
      ensures known == {} && producers == map[] && sources == map[]
    {
      this.reference, this.distributed := reference, distributed;
      known, producers, sources := {}, map[], map[];
    }

    /** The `active` set is passed along and comes back unchanged from a successful resolution. */
    method ResolveValue(id: ValueId, active: set<ValueId>) returns (r: Option<ValueId>, after: set<ValueId>)
      ensures r == Resolve(known, sources, id, active)
      ensures r.Some? ==> after == active
      decreases |sources.Keys - active|
    {
      after := active;
      if id in known { return Some(id), after; }
      if id !in sources || id in active { return None, after; }
      after := after + {id};
      assert id in sources.Keys - active;
      Shrinks(sources.Keys - after, sources.Keys - active);
      r, after := ResolveValue(sources[id], after);
      after := after - {id};
    }

    method ReferenceValue(id: ValueId) returns (r: Option<ValueId>)
      ensures r == Resolve(known, sources, id, {})
    {
      var after;
      r, after := ResolveValue(id, {});
    }

    method VerifyTargets() returns (ok: bool)
      ensures ok <==> TargetsOk(reference, distributed)
    {
      if reference.target.worldSize != 1 || reference.target.deviceCounts != [0] { return false; }
      if reference.target.targetId != distributed.target.targetId ||
         reference.target.capabilityVersion != distributed.target.capabilityVersion ||
         reference.target.operatorSpec != distributed.target.operatorSpec { return false; }
      if reference.externalInputs != distributed.externalInputs { return false; }
      var ids := distributed.externalInputs;
      for i := 0 to |ids|
        invariant forall j :: 0 <= j < i ==>
          FindDesc(distributed.values, ids[j]).Some? && FindDesc(distributed.values, ids[j]).value.place == Place(Host, 0, 0)
      {
        var desc := FindDesc(distributed.values, ids[i]);
        if desc.None? || desc.value.place != Place(Host, 0, 0) { return false; }
      }
      ok := true;
    }

    method IndexReference() returns (ok: bool)
      requires known == {} && producers == map[]
      modifies this`known, this`producers
      ensures ok <==> ReferenceOk(Instructions(reference))
      ensures ok ==> known == Ids(reference) && producers == Producers(Instructions(reference), |Instructions(reference)|)
    {
      for i := 0 to |reference.values|
        invariant known == (set j | 0 <= j < i :: reference.values[j].id) && producers == map[]
      {
        known := known + {reference.values[i].id};
      }
      assert known == Ids(reference);
      var code := Instructions(reference);
      for i := 0 to |code|
        invariant producers == Producers(code, i) && known == Ids(reference)
        invariant ReferenceOk(code[..i])
        invariant forall id :: id in producers <==> exists j :: 0 <= j < i && !code[j].body.Comm? && OutputOf(code[j].body) == id
      {
        if code[i].body.Comm? { return false; }
        var output := OutputOf(code[i].body);
        if output in producers { return false; }
        producers := producers[output := code[i]];
      }
      assert code[..|code|] == code;
      ok := true;
    }

    method IndexTransfers() returns (ok: bool)
      requires known == Ids(reference) && sources == map[]
      modifies this`sources
      ensures var d := Instructions(distributed);
        ok <==> TransfersOk(known, d) && forall id :: id in Sources(d, |d|) ==> Root(reference, distributed, id).Some?
      ensures ok ==> sources == Sources(Instructions(distributed), |Instructions(distributed)|)
    {
      hide Resolve, Ids, Root;
      var code := Instructions(distributed);
      for i := 0 to |code|
        invariant sources == Sources(code, i)
        invariant TransfersOk(known, code[..i])
        invariant forall id :: id in sources <==> exists j :: 0 <= j < i && IsPointToPoint(code[j].body) && code[j].body.action.outputs[0] == id
      {
        if code[i].body.Comm? {
          if !IsPointToPoint(code[i].body) { return false; }
          var output := code[i].body.action.outputs[0];
          if output in known || output in sources { return false; }
          sources := sources[output := code[i].body.action.inputs[0]];
        }
      }
      assert code[..|code|] == code;
      ok := ResolveAll();
    }

    method ResolveAll() returns (ok: bool)
      requires known == Ids(reference) && sources == Sources(Instructions(distributed), |Instructions(distributed)|)
      ensures ok <==> forall id :: id in sources ==> Root(reference, distributed, id).Some?
    {
      hide Resolve, Ids, Sources;
      var left := sources.Keys;
      while left != {}
        invariant left <= sources.Keys
        invariant forall id :: id in sources && id !in left ==> Root(reference, distributed, id).Some?
        decreases |left|
      {
        var id :| id in left;
        var root := ReferenceValue(id);
        if root.None? { return false; }
        left := left - {id};
      }
      ok := true;
    }

    method VerifyValues() returns (ok: bool)
      requires known == Ids(reference) && sources == Sources(Instructions(distributed), |Instructions(distributed)|)
      ensures ok <==> ValuesAgree(reference, distributed)
    {
      hide Resolve, Ids, FindDesc, SameMetadata;
      var left := known;
      while left != {}
        invariant left <= known
        invariant forall id :: id in known && id !in left ==> SameDesc(FindDesc(reference.values, id), FindDesc(distributed.values, id))
        decreases |left|
      {
        var id :| id in left;
        var a, b := FindDesc(reference.values, id), FindDesc(distributed.values, id);
        if a.None? || b.None? || !SameMetadata(a.value, b.value) { return false; }
        left := left - {id};
      }
      var outputs := sources.Keys;
      while outputs != {}
        invariant outputs <= sources.Keys
        invariant forall id :: id in sources && id !in outputs ==>
          (Root(reference, distributed, sources[id]).Some? &&
           SameDesc(FindDesc(reference.values, Root(reference, distributed, sources[id]).value), FindDesc(distributed.values, id)))
        decreases |outputs|
      {
        var id :| id in outputs;
        var logical := ReferenceValue(sources[id]);
        if logical.None? { return false; }
        var a, b := FindDesc(reference.values, logical.value), FindDesc(distributed.values, id);
        if a.None? || b.None? || !SameMetadata(a.value, b.value) { return false; }
        outputs := outputs - {id};
      }
      ok := true;
    }

    method VerifyCompute(op: ComputeOp, expected: Body) returns (ok: bool)
      ensures ok <==> SameWork(known, sources, Compute(op), expected)
    {
      hide Resolve;
      if !expected.Compute? { return false; }
      var other := expected.op;
      if op.kind != other.kind || op.attrs != other.attrs || |op.inputs| != |other.inputs| { return false; }
      for i := 0 to |op.inputs|
        invariant forall j :: 0 <= j < i ==> Resolve(known, sources, op.inputs[j], {}) == Some(other.inputs[j])
      {
        var root := ReferenceValue(op.inputs[i]);
        if root != Some(other.inputs[i]) { return false; }
      }
      ok := true;
    }

    method VerifyInstructions() returns (ok: bool)
      ensures ok <==> InstructionsAgree(known, producers, sources, Instructions(distributed))
    {
      hide SameWork, Instructions, Resolve;
      var code := Instructions(distributed);
      var seen: set<ValueId> := {};
      for i := 0 to |code|
        invariant seen <= producers.Keys
        invariant forall id :: id in seen <==> exists j :: 0 <= j < i && !code[j].body.Comm? && OutputOf(code[j].body) == id
        invariant forall j, k :: 0 <= j < k < i && !code[j].body.Comm? && !code[k].body.Comm? ==>
          OutputOf(code[j].body) != OutputOf(code[k].body)
        invariant forall j :: 0 <= j < i && !code[j].body.Comm? ==>
          OutputOf(code[j].body) in producers && SameWork(known, sources, code[j].body, producers[OutputOf(code[j].body)].body)
      {
        var body := code[i].body;
        if !body.Comm? {
          var output := OutputOf(body);
          if output !in producers || output in seen { return false; }
          seen := seen + {output};
          var same;
          match body {
            case Encode(payload, _) => same := EncodeMatches(payload, producers[output].body);
            case Compute(op) => same := VerifyCompute(op, producers[output].body);
          }
          if !same { return false; }
        }
      }
      ok := |seen| == |producers|;
      SameSize(seen, producers.Keys);
    }

    method EncodeMatches(payload: EncodePayload, expected: Body) returns (ok: bool)
      ensures forall output :: ok <==> SameWork(known, sources, Encode(payload, output), expected)
    {
      if !expected.Encode? { return false; }
      match (payload, expected.payload) {
        case (Inline(x), Inline(y)) =>
          if |x| != |y| { return false; }
          for i := 0 to |x|
            invariant forall j :: 0 <= j < i ==> SameDouble(x[j], y[j])
          {
            if !SameDouble(x[i], y[i]) { return false; }
          }
          ok := true;
        case (Bundle(x), Bundle(y)) => ok := x == y;
        case _ => ok := false;
      }
    }

    method VerifyOutputs() returns (ok: bool)
      requires known == Ids(reference) && sources == Sources(Instructions(distributed), |Instructions(distributed)|)
      ensures ok <==> OutputsAgree(reference, distributed)
    {
      hide Resolve, Ids;
      if |reference.finalOutputs| != |distributed.finalOutputs| { return false; }
      for i := 0 to |reference.finalOutputs|
        invariant forall j :: 0 <= j < i ==>
          Root(reference, distributed, distributed.finalOutputs[j]) == Some(reference.finalOutputs[j])
      {
        var root := ReferenceValue(distributed.finalOutputs[i]);
        if root != Some(reference.finalOutputs[i]) { return false; }
      }
      ok := true;
    }

    method Verify() returns (ok: bool)
      requires known == {} && producers == map[] && sources == map[]
      modifies this
      ensures ok <==> Aligned(reference, distributed)
    {
      hide TargetsOk, ReferenceOk, TransfersOk, ValuesAgree, InstructionsAgree, OutputsAgree, Root, Ids, Producers, Sources, Instructions;
      ok := VerifyTargets();
      if !ok { return; }
      ok := IndexReference();
      if !ok { return; }
      ok := IndexTransfers();
      if !ok { return; }
      ok := VerifyValues();
      if !ok { return; }
      ok := VerifyInstructions();
      if !ok { return; }
      ok := VerifyOutputs();
    }
  }

  lemma SameSize<T>(a: set<T>, b: set<T>)
    requires a <= b
    ensures |a| == |b| <==> a == b
  {
    if a != b {
      Shrinks(a, b);
    }
  }
}
