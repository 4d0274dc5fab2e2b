/** Slot counts. `validate_value` does not look at them, binary operations do. This is the exact condition on
    the lengths of the external inputs under which a verified plan runs, read off the plan alone. */
module Widths {
  import opened Wrappers
  import opened Plan
  import opened Rules
  import opened Vec
  import opened Semantics

  type WidthTable = map<ValueId, nat>

  function Width(w: WidthTable, id: ValueId): nat {
    if id in w then w[id] else 0
  }

  /** The slot count of the outputs of an instruction. */
  function BodyWidth(p: Program, w: WidthTable, body: Body): nat {
    match body
    case Encode(_, _) => p.degree / 2
    case Compute(op) => if op.inputs == [] then 0 else Width(w, op.inputs[0])
    case Comm(action) => if action.inputs == [] then 0 else Width(w, action.inputs[0])
  }

  function WidthsAfter(p: Program, n: nat): WidthTable
    requires n <= |p.Code()|
  {
    if n == 0 then map id | id in p.plan.externalInputs && id in p.inputs :: |p.inputs[id].slots|
    else
      var w, body := WidthsAfter(p, n - 1), p.Code()[n - 1].body;
      w + map id | id in Defs(body) :: BodyWidth(p, w, body)
  }

  function WidthsOf(p: Program): WidthTable {
    WidthsAfter(p, |p.Code()|)
  }

  /** The operands of an instruction have slot counts it can work on. */
  predicate WidthFits(w: WidthTable, body: Body) {
    body.Compute? ==>
      var op := body.op;
      && (|op.inputs| == 2 ==> Width(w, op.inputs[0]) == Width(w, op.inputs[1]))
      && (op.kind == ComputeKind.Rotate && |op.inputs| == 1 ==> Width(w, op.inputs[0]) > 0)
  }

  ghost predicate WidthsFit(p: Program) {
    forall n :: 0 <= n < |p.Code()| ==> WidthFits(WidthsOf(p), p.Code()[n].body)
  }

  /** A verified plan on inputs that pass `validate_value`, of any lengths. */
  ghost predicate Validated(p: Program, loaded: LoadedSpec, skip: bool) {
    && WellFormed(p.plan, loaded, skip) && ValidSpec(loaded.spec) && p.degree == loaded.spec.polyDegree && GoodBlobs(p)
    && forall id :: id in p.plan.externalInputs ==>
      id in p.Table() && id in p.inputs && Validates(p.inputs[id], p.Table()[id], p.degree)
  }

  predicate Measured(p: Program, w: WidthTable, id: ValueId, v: Payload) {
    id in p.Table() && id in w && Validates(v, p.Table()[id], p.degree) && |v.slots| == w[id]
  }

  ghost predicate AllMeasured(p: Program, w: WidthTable, env: Env) {
    forall id :: id in env ==> Measured(p, w, id, env[id])
  }

  // ---- The widths solve the plan's equations ----

  lemma WidthsDomain(p: Program, n: nat)
    requires n <= |p.Code()| && forall id :: id in p.plan.externalInputs ==> id in p.inputs
    ensures WidthsAfter(p, n).Keys == DefinedBefore(p.plan, n)
  {
    if n > 0 {
      WidthsDomain(p, n - 1);
      DefinedNext(p.plan, n - 1);
    }
  }

  lemma {:induction false} WidthsStable(p: Program, n: nat, m: nat, id: ValueId)
    requires Ssa(p.plan) && n <= m <= |p.Code()| && id in WidthsAfter(p, n)
    requires forall e :: e in p.plan.externalInputs ==> e in p.inputs
    ensures id in WidthsAfter(p, m) && WidthsAfter(p, m)[id] == WidthsAfter(p, n)[id]
  {
    hide BodyWidth, DefinedBefore, WidthsAfter, DescMap;
    if n < m {
      WidthsStable(p, n, m - 1, id);
      WidthsDomain(p, m - 1);
      WidthsStep(p, m - 1, id);
    }
  }

  lemma WidthsStep(p: Program, n: nat, id: ValueId)
    requires n < |p.Code()| && SsaOk(p.plan, n) && id in WidthsAfter(p, n) && id in DefinedBefore(p.plan, n)
    ensures id in WidthsAfter(p, n + 1) && WidthsAfter(p, n + 1)[id] == WidthsAfter(p, n)[id]
  {
    hide BodyWidth, DefinedBefore, DescMap;
    assert id !in Defs(p.Code()[n].body);
  }

  lemma WidthsEquation(p: Program, n: nat)
    requires Ssa(p.plan) && n < |p.Code()| && forall e :: e in p.plan.externalInputs ==> e in p.inputs
    ensures forall id :: id in Defs(p.Code()[n].body) ==>
      id in WidthsOf(p) && WidthsOf(p)[id] == BodyWidth(p, WidthsOf(p), p.Code()[n].body)
  {
    hide DefinedBefore;
    var body := p.Code()[n].body;
    assert SsaOk(p.plan, n);
    WidthsDomain(p, n);
    forall id | id in Uses(body) ensures id in WidthsOf(p) && WidthsOf(p)[id] == WidthsAfter(p, n)[id] {
      WidthsStable(p, n, |p.Code()|, id);
    }
    assert BodyWidth(p, WidthsOf(p), body) == BodyWidth(p, WidthsAfter(p, n), body);
    forall id | id in Defs(body) ensures id in WidthsOf(p) && WidthsOf(p)[id] == BodyWidth(p, WidthsOf(p), body) {
      WidthsStable(p, n + 1, |p.Code()|, id);
    }
  }

  // ---- One instruction ----

  /** On operands that pass validation an operation succeeds exactly when its scale and its slot counts fit. */
  lemma ComputeExact(op: ComputeOp, p: Program, w: WidthTable, inputs: seq<Payload>)
    requires ComputeRule(op, p.Table()) && |inputs| == |op.inputs|
    requires forall i :: 0 <= i < |inputs| ==> Measured(p, w, op.inputs[i], inputs[i])
    ensures ComputeNow(op, inputs).Success? <==> ScaleRunnable(p.Table(), Compute(op)) && WidthFits(w, Compute(op))
    ensures ComputeNow(op, inputs).Success? ==>
      var v := ComputeNow(op, inputs).value;
      Validates(v, p.Table()[op.output], p.degree) && |v.slots| == BodyWidth(p, w, Compute(op))
  {
    hide DescMap;
    var kinds := ExpectedInputs(op.kind);
    assert forall i :: 0 <= i < |kinds| ==> Signatures(inputs)[i].kind == kinds[i];
    assert Measured(p, w, op.inputs[0], inputs[0]);
    if Binary(op.kind) {
      assert Measured(p, w, op.inputs[1], inputs[1]);
    }
  }

  lemma StepExact(p: Program, loaded: LoadedSpec, skip: bool, n: nat, env: Env)
    requires Validated(p, loaded, skip) && n < |p.Code()| && AllMeasured(p, WidthsOf(p), env)
    requires forall id :: id in Uses(p.Code()[n].body) ==> id in env
    ensures var body := p.Code()[n].body; var v := Semantics.Result(p, env, body);
      (v.Some? <==> ScaleRunnable(p.Table(), body) && WidthFits(WidthsOf(p), body)) &&
      (v.Some? ==> forall id :: id in Defs(body) ==> Measured(p, WidthsOf(p), id, v.value))
  {
    hide HeaderOk, ValuesOk, InputsOk, OutputsOk, DefinedBefore, DescMap, EncodeRule, Validates, WidthFits, ScaleRunnable, WidthsOf;
    hide ComputeNow, EncodeValue, KindRule, SpecRule;
    var body, w := p.Code()[n].body, WidthsOf(p);
    VerifiedIsSsa(p, loaded, skip);
    WidthsEquation(p, n);
    assert InstructionOk(p.plan, loaded.spec, p.Table(), n);
    match body
    case Encode(_, output) =>
      EncodeSound(p, loaded, skip, n);
      EncodeFits(p, w, body);
    case Compute(op) =>
      assert forall i :: 0 <= i < |op.inputs| ==> op.inputs[i] in Uses(body);
      ComputeExact(op, p, w, Operands(env, op.inputs));
    case Comm(action) =>
      assert action.inputs[0] in Uses(body) && Measured(p, w, action.inputs[0], env[action.inputs[0]]);
      CommFits(p, w, body);
      forall id | id in Defs(body) ensures Measured(p, w, id, env[action.inputs[0]]) {
        var i :| 0 <= i < |action.outputs| && action.outputs[i] == id;
        assert CommOutputOk(p.plan, action, p.Table()[action.inputs[0]], p.Table(), i);
        SameValidates(env[action.inputs[0]], p.Table()[action.inputs[0]], p.Table()[id], p.degree);
      }
  }

  lemma EncodeFits(p: Program, w: WidthTable, body: Body)
    requires body.Encode?
    ensures WidthFits(w, body) && BodyWidth(p, w, body) == p.degree / 2
    ensures forall v, desc :: Matches(v, desc, p.degree) ==> Validates(v, desc, p.degree) && |v.slots| == p.degree / 2
  {
  }

  lemma CommFits(p: Program, w: WidthTable, body: Body)
    requires body.Comm?
    ensures WidthFits(w, body) && ScaleRunnable(p.Table(), body)
  {
  }

  lemma SameValidates(v: Payload, a: ValueDesc, b: ValueDesc, degree: nat)
    requires Validates(v, a, degree) && SameMetadata(a, b)
    ensures Validates(v, b, degree)
  {
  }

  // ---- The whole plan ----

  lemma {:induction false} AfterMeasured(p: Program, loaded: LoadedSpec, skip: bool, n: nat)
    requires Validated(p, loaded, skip) && n <= |p.Code()|
    ensures AllMeasured(p, WidthsOf(p), After(p, n))
  {
    hide Validated, DescMap, WidthsOf, Measured, Semantics.Result;
    if n == 0 {
      InputsMeasured(p, loaded, skip);
    } else {
      AfterMeasured(p, loaded, skip, n - 1);
      if Semantics.Result(p, After(p, n - 1), p.Code()[n - 1].body).Some? {
        ResultNeedsUses(p, After(p, n - 1), p.Code()[n - 1].body);
        StepExact(p, loaded, skip, n - 1, After(p, n - 1));
      }
    }
  }

  lemma InputsMeasured(p: Program, loaded: LoadedSpec, skip: bool)
    requires Validated(p, loaded, skip)
    ensures AllMeasured(p, WidthsOf(p), After(p, 0))
  {
    hide DescMap, Validates, GoodBlobs, WellFormed;
    VerifiedIsSsa(p, loaded, skip);
    forall id | id in After(p, 0) ensures Measured(p, WidthsOf(p), id, After(p, 0)[id]) {
      WidthsStable(p, 0, |p.Code()|, id);
    }
  }

  lemma {:induction false} AllDefined(p: Program, loaded: LoadedSpec, skip: bool, n: nat)
    requires Validated(p, loaded, skip) && ScalesRunnable(p) && WidthsFit(p) && n <= |p.Code()|
    ensures After(p, n).Keys == DefinedBefore(p.plan, n)
  {
    hide Validated, DescMap, WidthsOf, AllMeasured, ScalesRunnable, WidthsFit, StepEnv, DefinedBefore;
    if n == 0 {
      InputsDefined(p, loaded, skip);
    } else {
      AllDefined(p, loaded, skip, n - 1);
      AfterMeasured(p, loaded, skip, n - 1);
      DefinedStep(p, loaded, skip, n - 1, After(p, n - 1));
    }
  }

  lemma InputsDefined(p: Program, loaded: LoadedSpec, skip: bool)
    requires Validated(p, loaded, skip)
    ensures After(p, 0).Keys == DefinedBefore(p.plan, 0)
  {
    hide WellFormed, DescMap, Validates;
  }

  lemma DefinedStep(p: Program, loaded: LoadedSpec, skip: bool, n: nat, env: Env)
    requires Validated(p, loaded, skip) && ScalesRunnable(p) && WidthsFit(p) && n < |p.Code()|
    requires AllMeasured(p, WidthsOf(p), env) && env.Keys == DefinedBefore(p.plan, n)
    ensures StepEnv(p, env, p.Code()[n].body).Keys == DefinedBefore(p.plan, n + 1)
  {
    hide Validated, DescMap, WidthsOf, Measured, AllMeasured, Semantics.Result, ScaleRunnable, WidthFits, DefinedBefore;
    UsesDefined(p, loaded, skip, n);
    StepExact(p, loaded, skip, n, env);
    DefinedNext(p.plan, n);
  }

  lemma UsesDefined(p: Program, loaded: LoadedSpec, skip: bool, n: nat)
    requires Validated(p, loaded, skip) && n < |p.Code()|
    ensures forall id :: id in Uses(p.Code()[n].body) ==> id in DefinedBefore(p.plan, n)
  {
    hide WellFormed, DescMap, Validates, DefinedBefore;
    VerifiedIsSsa(p, loaded, skip);
    assert SsaOk(p.plan, n);
  }

  /** An instruction that does not fit leaves its first output without a value. */
  lemma Blocked(p: Program, loaded: LoadedSpec, skip: bool, n: nat)
    requires Validated(p, loaded, skip) && n < |p.Code()|
    requires !ScaleRunnable(p.Table(), p.Code()[n].body) || !WidthFits(WidthsOf(p), p.Code()[n].body)
    ensures Meaning(p).Keys != p.Table().Keys
  {
    hide HeaderOk, ValuesOk, InputsOk, OutputsOk, DefinedBefore, ComputeNow, EncodeValue, DescMap, WidthsOf, Meaning, Validates, GoodBlobs, SpecRule, KindRule;
    var body := p.Code()[n].body;
    VerifiedIsSsa(p, loaded, skip);
    AfterMeasured(p, loaded, skip, |p.Code()|);
    MeaningEquation(p, n);
    assert InstructionOk(p.plan, loaded.spec, p.Table(), n);
    assert Meaning(p) == After(p, |p.Code()|) by { MeaningIsAfter(p); }
    if HasAll(Meaning(p), Uses(body)) {
      assert forall id :: id in Uses(body) ==> id in Meaning(p);
      StepExact(p, loaded, skip, n, Meaning(p));
    } else {
      assert Semantics.Result(p, Meaning(p), body).None?;
    }
    assert Defs(body)[0] in Defs(body);
  }

  lemma MeaningIsAfter(p: Program)
    ensures Meaning(p) == After(p, |p.Code()|)
  {
  }

  /** Verifier soundness for inputs of any lengths: a verified plan computes every one of its values if and only
      if no encode or rescale has a negative result scale and no binary operation or rotation meets operands
      whose slot counts do not fit. Whatever is computed passes validation and has the predicted slot count. */
  lemma RunsExactly(p: Program, loaded: LoadedSpec, skip: bool)
    requires Validated(p, loaded, skip)
    ensures Meaning(p).Keys == p.Table().Keys <==> ScalesRunnable(p) && WidthsFit(p)
    ensures AllMeasured(p, WidthsOf(p), Meaning(p))
  {
    hide HeaderOk, ValuesOk, InputsOk, OutputsOk, InstructionOk, DescMap, WidthsOf, Measured, ScaleRunnable, WidthFits, DefinedBefore;
    AfterMeasured(p, loaded, skip, |p.Code()|);
    if ScalesRunnable(p) && WidthsFit(p) {
      AllDefined(p, loaded, skip, |p.Code()|);
    } else {
      var n :| 0 <= n < |p.Code()| &&
        (!ScaleRunnable(p.Table(), p.Code()[n].body) || !WidthFits(WidthsOf(p), p.Code()[n].body));
      Blocked(p, loaded, skip, n);
    }
  }

  // ---- Inputs of one common length ----

  lemma {:induction false} UniformWidths(p: Program, width: nat, n: nat)
    requires n <= |p.Code()| && UniformInputs(p, width)
    requires Ssa(p.plan) && forall k :: 0 <= k < |p.Code()| ==> Uses(p.Code()[k].body) != [] || p.Code()[k].body.Encode?
    ensures forall id :: id in WidthsAfter(p, n) ==> WidthsAfter(p, n)[id] == width
  {
    hide DefinedBefore;
    if n > 0 {
      UniformWidths(p, width, n - 1);
      WidthsDomain(p, n - 1);
      var body := p.Code()[n - 1].body;
      assert SsaOk(p.plan, n - 1);
      assert Uses(body) != [] ==> Uses(body)[0] in Uses(body);
    }
  }

  /** All external inputs have `width` slots, which is the full width if the plan encodes anything. */
  ghost predicate UniformInputs(p: Program, width: nat) {
    && width > 0
    && (forall id :: id in p.plan.externalInputs ==> id in p.inputs && |p.inputs[id].slots| == width)
    && (forall n :: 0 <= n < |p.Code()| && p.Code()[n].body.Encode? ==> width == p.degree / 2)
  }

  /** Inputs of one common length: only the scales matter. */
  lemma UniformRuns(p: Program, loaded: LoadedSpec, skip: bool, width: nat)
    requires Validated(p, loaded, skip) && UniformInputs(p, width)
    ensures Meaning(p).Keys == p.Table().Keys <==> ScalesRunnable(p)
    ensures forall id :: id in Meaning(p) ==> |Meaning(p)[id].slots| == width
  {
    hide HeaderOk, ValuesOk, InputsOk, OutputsOk, DescMap, DefinedBefore, KindRule, SpecRule, Validates, Meaning, WidthsAfter;
    VerifiedIsSsa(p, loaded, skip);
    forall k | 0 <= k < |p.Code()| ensures Uses(p.Code()[k].body) != [] || p.Code()[k].body.Encode? {
      assert InstructionOk(p.plan, loaded.spec, p.Table(), k);
    }
    UniformWidths(p, width, |p.Code()|);
    WidthsDomain(p, |p.Code()|);
    forall k | 0 <= k < |p.Code()| ensures WidthFits(WidthsOf(p), p.Code()[k].body) {
      UsesHaveWidths(p, loaded, skip, k);
    }
    RunsExactly(p, loaded, skip);
  }

  lemma UsesHaveWidths(p: Program, loaded: LoadedSpec, skip: bool, n: nat)
    requires Validated(p, loaded, skip) && n < |p.Code()|
    ensures forall i :: 0 <= i < |Uses(p.Code()[n].body)| ==> Uses(p.Code()[n].body)[i] in WidthsOf(p)
  {
    hide HeaderOk, ValuesOk, InputsOk, OutputsOk, DescMap, DefinedBefore, BodyRule, Validates, WidthsAfter;
    VerifiedIsSsa(p, loaded, skip);
    assert SsaOk(p.plan, n);
    WidthsDomain(p, n);
    forall i | 0 <= i < |Uses(p.Code()[n].body)| ensures Uses(p.Code()[n].body)[i] in WidthsOf(p) {
      assert Uses(p.Code()[n].body)[i] in Uses(p.Code()[n].body);
      WidthsStable(p, n, |p.Code()|, Uses(p.Code()[n].body)[i]);
    }
  }
}
