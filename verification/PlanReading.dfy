/** The meaning of a plan read as numbers: what each instruction of a verified plan does to the slots. */
module PlanReading {
  import opened Wrappers
  import opened Plan
  import opened Rules
  import opened Vec
  import opened Semantics
  import opened RankRun
  import opened Reading

  /** In the meaning of a runnable plan every compute output reads, slot by slot and under every valuation, as its
      operation on what its operands read as; every encode holds its literals or its bundle content, zeros normalized and padded;
      and every output of a communication is the value of its source. */
  lemma MeaningReads(p: Program, loaded: LoadedSpec, skip: bool, n: nat)
    requires Runnable(p, loaded, skip) && n < |p.Code()|
    ensures p.Code()[n].body.Compute? ==>
      var op := p.Code()[n].body.op;
      && HasAll(Meaning(p), op.inputs) && op.output in Meaning(p)
      && Reads(op, Operands(Meaning(p), op.inputs), Meaning(p)[op.output])
    ensures p.Code()[n].body.Comm? ==>
      var action := p.Code()[n].body.action;
      && |action.inputs| == 1 && action.inputs[0] in Meaning(p)
      && forall id :: id in action.outputs ==> id in Meaning(p) && Meaning(p)[id] == Meaning(p)[action.inputs[0]]
    ensures p.Code()[n].body.Encode? && p.Code()[n].body.payload.Inline? ==>
      p.Code()[n].body.output in Meaning(p) && Holds(Meaning(p)[p.Code()[n].body.output], p.Code()[n].body.payload.values)
    ensures p.Code()[n].body.Encode? && p.Code()[n].body.payload.Bundle? ==>
      && p.Code()[n].body.output in Meaning(p) && p.Code()[n].body.payload.content in p.blobs
      && Holds(Meaning(p)[p.Code()[n].body.output], p.blobs[p.Code()[n].body.payload.content])
  {
    hide WellFormed, ScalesRunnable, DescMap, Meaning, ComputeNow, Reads, EncodePlaintext, Runnable;
    RunnableFacts(p, loaded, skip);
    VerifiedIsSsa(p, loaded, skip);
    MeaningEquation(p, n);
    DefsListed(p, loaded, skip, n);
    var body := p.Code()[n].body;
    match body
    case Compute(op) =>
      assert op.output in Defs(body);
      ComputeReads(op, Operands(Meaning(p), op.inputs));
    case Encode(payload, output) =>
      assert output in Defs(body);
      EncodeHolds(p.degree, p.Table()[output], Literals(p, payload).value);
    case Comm(action) =>
      assert action.outputs[0] in Defs(body);
  }

  lemma DefsListed(p: Program, loaded: LoadedSpec, skip: bool, n: nat)
    requires WellFormed(p.plan, loaded, skip) && n < |p.Code()|
    ensures Defs(p.Code()[n].body) != [] && forall id :: id in Defs(p.Code()[n].body) ==> id in p.Table()
  {
    hide HeaderOk, ValuesOk, InputsOk, OutputsOk, DefinedBefore, DescMap, SpecRule, KindRule;
    var body := p.Code()[n].body;
    assert InstructionOk(p.plan, loaded.spec, p.Table(), n);
    if body.Comm? {
      var action := body.action;
      forall id | id in action.outputs ensures id in p.Table() {
        var i :| 0 <= i < |action.outputs| && action.outputs[i] == id;
        assert CommOutputOk(p.plan, action, p.Table()[action.inputs[0]], p.Table(), i);
      }
    }
  }

  /** The slots hold the literals, a zero being the positive zero, and then zeros. */
  predicate Holds(v: Payload, values: seq<Bits>) {
    && |values| <= |v.slots|
    && forall i :: 0 <= i < |v.slots| ==>
      v.slots[i] == Lit(if i >= |values| || values[i] == 0x8000_0000_0000_0000 then 0 else values[i])
  }

  lemma EncodeHolds(degree: nat, desc: ValueDesc, values: seq<Bits>)
    requires EncodePlaintext(degree, desc, values).Success?
    ensures Holds(EncodePlaintext(degree, desc, values).value, values)
  {
  }
}
