/** The sequential meaning of a whole plan: one interpreter, one value table, no ranks, no messages
    (testing/testing.cpp's reference executor, extended with encodes and communications), and the
    soundness of the verifier with respect to it. */
module Semantics {
  import opened Wrappers
  import opened Plan
  import opened Rules
  import opened Vec

  /** A plan with everything it is run on: the ring degree, the external inputs and the bundle contents. */
  datatype Program = Program(
    plan: RuntimePlan, degree: nat, inputs: map<ValueId, Payload>, blobs: map<string, seq<Bits>>)
  {
    function Code(): seq<Instruction> {
      Instructions(plan)
    }

    function Table(): Descs {
      DescMap(plan.values)
    }
  }

  type Env = map<ValueId, Payload>

  /** The literal slots of an encode payload. */
  function Literals(p: Program, payload: EncodePayload): Option<seq<Bits>> {
    match payload
    case Inline(values) => Some(values)
    case Bundle(content) => if content in p.blobs then Some(p.blobs[content]) else None
  }

  function EncodeValue(p: Program, payload: EncodePayload, output: ValueId): Option<Payload> {
    match Literals(p, payload)
    case None => None
    case Some(values) =>
      if output !in p.Table() then None
      else
        match EncodePlaintext(p.degree, p.Table()[output], values)
        case Success(v) => Some(v)
        case Failure(_) => None
  }

  predicate HasAll(env: Env, ids: seq<ValueId>) {
    forall i :: 0 <= i < |ids| ==> ids[i] in env
  }

  function Operands(env: Env, ids: seq<ValueId>): (r: seq<Payload>)
    requires HasAll(env, ids)
    ensures |r| == |ids|
    ensures forall i :: 0 <= i < |ids| ==> r[i] == env[ids[i]]
  {
    seq(|ids|, i requires 0 <= i < |ids| => env[ids[i]])
  }

  /** The value every output of an instruction receives, if the instruction succeeds. */
  function Result(p: Program, env: Env, body: Body): Option<Payload> {
    match body
    case Encode(payload, output) => EncodeValue(p, payload, output)
    case Compute(op) =>
      if !HasAll(env, op.inputs) then None
      else
        (match ComputeNow(op, Operands(env, op.inputs))
         case Success(v) => Some(v)
         case Failure(_) => None)
    case Comm(action) =>
      if |action.inputs| == 1 && action.inputs[0] in env then Some(env[action.inputs[0]]) else None
  }

  function Bind(env: Env, ids: seq<ValueId>, v: Payload): (r: Env)
    ensures forall id :: id in r <==> id in env || id in ids
    ensures forall id :: id in r ==> r[id] == if id in ids then v else env[id]
  {
    env + map id | id in ids :: v
  }

  function StepEnv(p: Program, env: Env, body: Body): Env {
    match Result(p, env, body)
    case None => env
    case Some(v) => Bind(env, Defs(body), v)
  }

  /** The table after the external inputs and the first `n` instructions. */
  function After(p: Program, n: nat): Env
    requires n <= |p.Code()|
  {
    if n == 0 then map id | id in p.plan.externalInputs && id in p.inputs :: p.inputs[id]
    else StepEnv(p, After(p, n - 1), p.Code()[n - 1].body)
  }

  /** The meaning of a program: the value of every ValueId. */
  function Meaning(p: Program): Env {
    After(p, |p.Code()|)
  }

  ghost predicate Ssa(plan: RuntimePlan) {
    forall n :: 0 <= n < |Instructions(plan)| ==> SsaOk(plan, n)
  }

  lemma DefinedMonotone(plan: RuntimePlan, n: nat, m: nat)
    requires n <= m <= |Instructions(plan)|
    ensures DefinedBefore(plan, n) <= DefinedBefore(plan, m)
  {
  }

  lemma AfterDomain(p: Program, n: nat)
    requires n <= |p.Code()|
    ensures After(p, n).Keys <= DefinedBefore(p.plan, n)
  {
    if n > 0 {
      AfterDomain(p, n - 1);
      DefinedNext(p.plan, n - 1);
    }
  }

  /** Single assignment: once an instruction has had its turn, its outputs never change again. */
  lemma {:induction false} AfterStable(p: Program, n: nat, m: nat, id: ValueId)
    requires Ssa(p.plan) && n <= m <= |p.Code()| && id in DefinedBefore(p.plan, n)
    ensures id in After(p, n) <==> id in After(p, m)
    ensures id in After(p, n) ==> After(p, m)[id] == After(p, n)[id]
  {
    if n < m {
      AfterStable(p, n, m - 1, id);
      DefinedMonotone(p.plan, n, m - 1);
      assert SsaOk(p.plan, m - 1);
    }
  }

  /** A value that is defined before `n` and has a meaning has it already after `n` instructions. */
  lemma MeaningAt(p: Program, n: nat, id: ValueId)
    requires Ssa(p.plan) && n <= |p.Code()| && id in DefinedBefore(p.plan, n)
    ensures id in After(p, n) <==> id in Meaning(p)
    ensures id in After(p, n) ==> Meaning(p)[id] == After(p, n)[id]
  {
    AfterStable(p, n, |p.Code()|, id);
  }

  /** The meaning solves the plan's equations: every output is its instruction's result on the meaning. */
  lemma MeaningEquation(p: Program, n: nat)
    requires Ssa(p.plan) && n < |p.Code()|
    ensures Result(p, After(p, n), p.Code()[n].body) == Result(p, Meaning(p), p.Code()[n].body)
    ensures forall id :: id in Defs(p.Code()[n].body) ==>
      match Result(p, Meaning(p), p.Code()[n].body)
      case Some(v) => id in Meaning(p) && Meaning(p)[id] == v
      case None => id !in Meaning(p)
  {
    var body := p.Code()[n].body;
    assert SsaOk(p.plan, n);
    forall id | id in Uses(body)
      ensures id in After(p, n) <==> id in Meaning(p)
      ensures id in After(p, n) ==> Meaning(p)[id] == After(p, n)[id]
    {
      MeaningAt(p, n, id);
    }
    ResultDependsOnUses(p, After(p, n), Meaning(p), body);
    DefinedNext(p.plan, n);
    AfterDomain(p, n);
    forall id | id in Defs(body)
      ensures match Result(p, Meaning(p), body)
              case Some(v) => id in Meaning(p) && Meaning(p)[id] == v
              case None => id !in Meaning(p)
    {
      MeaningAt(p, n + 1, id);
    }
  }

  lemma ResultDependsOnUses(p: Program, e: Env, f: Env, body: Body)
    requires forall id :: id in Uses(body) ==> (id in e <==> id in f) && (id in e ==> e[id] == f[id])
    ensures Result(p, e, body) == Result(p, f, body)
  {
    match body
    case Compute(op) =>
      if HasAll(e, op.inputs) {
        assert forall i :: 0 <= i < |op.inputs| ==> op.inputs[i] in Uses(body);
        assert Operands(e, op.inputs) == Operands(f, op.inputs);
      } else {
        var i :| 0 <= i < |op.inputs| && op.inputs[i] !in e;
        assert op.inputs[i] in Uses(body);
      }
    case _ =>
  }

  // ---- Soundness of the verifier for the sequential meaning ----

  predicate GoodInputs(p: Program) {
    forall id :: id in p.plan.externalInputs && id in p.Table() ==>
      id in p.inputs && Matches(p.inputs[id], p.Table()[id], p.degree)
  }

  /** Every bundle content an encode names is loaded and fits the slots. */
  ghost predicate GoodBlobs(p: Program) {
    forall n :: 0 <= n < |p.Code()| && IsBundleEncode(p.Code()[n].body) ==>
      var content := p.Code()[n].body.payload.content;
      content in p.blobs && |p.blobs[content]| <= p.degree / 2
  }

  /** The scale of an encode or rescale result is not negative; no rule of the verifier says so. */
  predicate ScaleRunnable(dm: Descs, body: Body) {
    match body
    case Encode(_, output) => output in dm ==> dm[output].scale >= 0
    case Compute(op) => op.kind == Rescale && op.attrs.RescaleAttrs? ==> op.attrs.scale >= 0
    case Comm(_) => true
  }

  ghost predicate ScalesRunnable(p: Program) {
    forall n :: 0 <= n < |p.Code()| ==> ScaleRunnable(p.Table(), p.Code()[n].body)
  }

  /** The hypotheses of a run: a verified plan under a loaded spec, with valid full-width inputs. */
  ghost predicate Accepted(p: Program, loaded: LoadedSpec, skip: bool) {
    && WellFormed(p.plan, loaded, skip)
    && ValidSpec(loaded.spec)
    && p.degree == loaded.spec.polyDegree
    && GoodInputs(p)
    && GoodBlobs(p)
  }

  ghost predicate AllMatch(p: Program, env: Env) {
    forall id :: id in env ==> id in p.Table() && Matches(env[id], p.Table()[id], p.degree)
  }

  lemma VerifiedIsSsa(p: Program, loaded: LoadedSpec, skip: bool)
    requires WellFormed(p.plan, loaded, skip)
    ensures Ssa(p.plan)
  {
    hide HeaderOk, ValuesOk, InputsOk, OutputsOk, DefinedBefore, BodyRule;
    forall n | 0 <= n < |Instructions(p.plan)| ensures SsaOk(p.plan, n) {
      assert InstructionOk(p.plan, loaded.spec, DescMap(p.plan.values), n);
    }
  }

  /** A compute instruction the verifier accepts cannot be rejected by the executor, and its result is
      what the output descriptor says: for each of the twelve operations, on all matching operands. */
  lemma ComputeSound(op: ComputeOp, dm: Descs, degree: nat, inputs: seq<Payload>)
    requires ComputeRule(op, dm) && degree >= 2
    requires |inputs| == |op.inputs|
    requires forall i :: 0 <= i < |inputs| ==> Matches(inputs[i], dm[op.inputs[i]], degree)
    ensures ComputeMetadata(op, Signatures(inputs)).Success?
    ensures ComputeNow(op, inputs).Success? <==> ScaleRunnable(dm, Compute(op))
    ensures ComputeNow(op, inputs).Success? ==> Matches(ComputeNow(op, inputs).value, dm[op.output], degree)
  {
    var kinds := ExpectedInputs(op.kind);
    assert forall i :: 0 <= i < |kinds| ==> Signatures(inputs)[i].kind == kinds[i];
    assert Matches(inputs[0], dm[op.inputs[0]], degree);
    if Binary(op.kind) {
      assert Matches(inputs[1], dm[op.inputs[1]], degree);
    }
  }

  lemma EncodeSound(p: Program, loaded: LoadedSpec, skip: bool, n: nat)
    requires WellFormed(p.plan, loaded, skip) && ValidSpec(loaded.spec) && p.degree == loaded.spec.polyDegree && GoodBlobs(p)
    requires n < |p.Code()| && p.Code()[n].body.Encode?
    ensures var body := p.Code()[n].body; var v := EncodeValue(p, body.payload, body.output);
      body.output in p.Table() && (v.Some? <==> ScaleRunnable(p.Table(), body)) &&
      (v.Some? ==> Matches(v.value, p.Table()[body.output], p.degree))
  {
    hide HeaderOk, InputsOk, OutputsOk, DefinedBefore, ComputeRule, SpecRule, CommRule;
    var body := p.Code()[n].body;
    assert InstructionOk(p.plan, loaded.spec, p.Table(), n);
    assert EncodeRule(body.payload, body.output, p.Table(), loaded.spec);
    var desc := p.Table()[body.output];
    var i :| 0 <= i < |p.plan.values| && p.plan.values[i] == desc;
    assert DescOk(p.plan, loaded.spec, p.plan.values[i]);
    if body.payload.Bundle? {
      assert IsBundleEncode(body);
    }
  }

  /** One instruction of an accepted program on a matching table that has its operands. */
  lemma StepSound(p: Program, loaded: LoadedSpec, skip: bool, n: nat, env: Env)
    requires Accepted(p, loaded, skip) && n < |p.Code()|
    requires AllMatch(p, env) && forall id :: id in Uses(p.Code()[n].body) ==> id in env
    ensures var v := Result(p, env, p.Code()[n].body);
      (v.Some? <==> ScaleRunnable(p.Table(), p.Code()[n].body)) &&
      (v.Some? ==> forall id :: id in Defs(p.Code()[n].body) ==>
        id in p.Table() && Matches(v.value, p.Table()[id], p.degree))
  {
    hide HeaderOk, ValuesOk, InputsOk, OutputsOk, DefinedBefore, DescMap, EncodeRule;
    hide ComputeNow, EncodeValue, KindRule, SpecRule;
    var body := p.Code()[n].body;
    assert InstructionOk(p.plan, loaded.spec, p.Table(), n);
    match body
    case Encode(_, _) => EncodeSound(p, loaded, skip, n);
    case Compute(op) =>
      assert forall i :: 0 <= i < |op.inputs| ==> op.inputs[i] in Uses(body);
      ComputeSound(op, p.Table(), p.degree, Operands(env, op.inputs));
    case Comm(action) =>
      assert action.inputs[0] in Uses(body);
      forall id | id in Defs(body)
        ensures id in p.Table() && Matches(env[action.inputs[0]], p.Table()[id], p.degree)
      {
        var i :| 0 <= i < |action.outputs| && action.outputs[i] == id;
        assert CommOutputOk(p.plan, action, p.Table()[action.inputs[0]], p.Table(), i);
      }
  }

  /** Whatever has a value has a value matching its descriptor. */
  lemma {:induction false} AfterMatches(p: Program, loaded: LoadedSpec, skip: bool, n: nat)
    requires Accepted(p, loaded, skip) && n <= |p.Code()|
    ensures AllMatch(p, After(p, n))
  {
    hide Accepted, Matches, StepEnv, DescMap, AllMatch, WellFormed;
    if n == 0 {
      InputsMatch(p, loaded, skip);
    } else {
      AfterMatches(p, loaded, skip, n - 1);
      MatchStep(p, loaded, skip, n - 1, After(p, n - 1));
    }
  }

  lemma InputsMatch(p: Program, loaded: LoadedSpec, skip: bool)
    requires Accepted(p, loaded, skip)
    ensures AllMatch(p, After(p, 0))
  {
    hide HeaderOk, ValuesOk, OutputsOk, InstructionOk, DefinedBefore, Matches, DescMap, GoodBlobs;
  }

  lemma MatchStep(p: Program, loaded: LoadedSpec, skip: bool, n: nat, env: Env)
    requires Accepted(p, loaded, skip) && n < |p.Code()| && AllMatch(p, env)
    ensures AllMatch(p, StepEnv(p, env, p.Code()[n].body))
  {
    hide Accepted, Result, Matches, DescMap, ScaleRunnable;
    var body := p.Code()[n].body;
    if Result(p, env, body).Some? {
      ResultNeedsUses(p, env, body);
      StepSound(p, loaded, skip, n, env);
    }
  }

  lemma ResultNeedsUses(p: Program, env: Env, body: Body)
    requires Result(p, env, body).Some?
    ensures forall id :: id in Uses(body) ==> id in env
  {
  }

  /** Verifier soundness, with its exact condition: on a verified plan with valid full-width inputs the
      sequential interpreter gives every value of the plan a value that matches its descriptor if and
      only if no encode or rescale produces a negative scale. */
  lemma {:induction false} VerifiedPlansRun(p: Program, loaded: LoadedSpec, skip: bool)
    requires Accepted(p, loaded, skip)
    ensures ScalesRunnable(p) <==> Meaning(p).Keys == p.Table().Keys
    ensures AllMatch(p, Meaning(p))
  {
    VerifiedIsSsa(p, loaded, skip);
    AfterMatches(p, loaded, skip, |p.Code()|);
    if ScalesRunnable(p) {
      AllDefined(p, loaded, skip, |p.Code()|);
    } else {
      var n :| 0 <= n < |p.Code()| && !ScaleRunnable(p.Table(), p.Code()[n].body);
      Blocked(p, loaded, skip, n);
    }
  }

  /** With non-negative scales, which the plan reader sees to, every value of a verified plan is computed. */
  lemma NonNegativeScalesRun(p: Program, loaded: LoadedSpec, skip: bool)
    requires Accepted(p, loaded, skip) && forall v :: v in p.plan.values ==> v.scale >= 0
    ensures ScalesRunnable(p) && Meaning(p).Keys == p.Table().Keys && AllMatch(p, Meaning(p))
  {
    hide HeaderOk, ValuesOk, InputsOk, OutputsOk, DefinedBefore, Meaning, SpecRule, CommRule, GoodInputs, GoodBlobs, AllMatch;
    forall n | 0 <= n < |p.Code()| ensures ScaleRunnable(p.Table(), p.Code()[n].body) {
      assert InstructionOk(p.plan, loaded.spec, p.Table(), n);
    }
    VerifiedPlansRun(p, loaded, skip);
  }

  lemma {:induction false} AllDefined(p: Program, loaded: LoadedSpec, skip: bool, n: nat)
    requires Accepted(p, loaded, skip) && ScalesRunnable(p) && n <= |p.Code()|
    ensures After(p, n).Keys == DefinedBefore(p.plan, n)
  {
    hide HeaderOk, ValuesOk, OutputsOk, InstructionOk, Matches, DescMap, StepEnv, AllMatch, ScalesRunnable, Accepted;
    if n == 0 {
      InputsDefined(p, loaded, skip);
    } else {
      AllDefined(p, loaded, skip, n - 1);
      AfterMatches(p, loaded, skip, n - 1);
      DefinedStep(p, loaded, skip, n - 1, After(p, n - 1));
    }
  }

  lemma InputsDefined(p: Program, loaded: LoadedSpec, skip: bool)
    requires Accepted(p, loaded, skip)
    ensures After(p, 0).Keys == DefinedBefore(p.plan, 0)
  {
    hide HeaderOk, ValuesOk, OutputsOk, InstructionOk, Matches, DescMap, GoodBlobs;
    assert InputsOk(p.plan, p.Table());
  }

  /** One instruction adds exactly its outputs. */
  lemma DefinedStep(p: Program, loaded: LoadedSpec, skip: bool, n: nat, env: Env)
    requires Accepted(p, loaded, skip) && ScalesRunnable(p) && n < |p.Code()|
    requires AllMatch(p, env) && env.Keys == DefinedBefore(p.plan, n)
    ensures StepEnv(p, env, p.Code()[n].body).Keys == DefinedBefore(p.plan, n + 1)
  {
    hide Accepted, Result, Matches, DescMap, AllMatch, ScaleRunnable, DefinedBefore, HeaderOk, ValuesOk, OutputsOk, InputsOk, BodyRule;
    AcceptedIsVerified(p, loaded, skip);
    VerifiedIsSsa(p, loaded, skip);
    assert SsaOk(p.plan, n);
    StepSound(p, loaded, skip, n, env);
    DefinedNext(p.plan, n);
  }

  lemma AcceptedIsVerified(p: Program, loaded: LoadedSpec, skip: bool)
    requires Accepted(p, loaded, skip)
    ensures WellFormed(p.plan, loaded, skip)
  {
  }

  /** An instruction with a negative result scale leaves its output without a value. */
  lemma Blocked(p: Program, loaded: LoadedSpec, skip: bool, n: nat)
    requires Accepted(p, loaded, skip) && n < |p.Code()| && !ScaleRunnable(p.Table(), p.Code()[n].body)
    ensures Meaning(p).Keys != p.Table().Keys
  {
    hide HeaderOk, ValuesOk, InputsOk, OutputsOk, DefinedBefore, Matches, ComputeNow, EncodeValue, DescMap, After;
    var body := p.Code()[n].body;
    VerifiedIsSsa(p, loaded, skip);
    AfterMatches(p, loaded, skip, |p.Code()|);
    MeaningEquation(p, n);
    assert InstructionOk(p.plan, loaded.spec, p.Table(), n);
    var output := Defs(body)[0];
    assert output in Defs(body) && output in p.Table();
    if HasAll(Meaning(p), Uses(body)) {
      assert forall id :: id in Uses(body) ==> id in Meaning(p);
      StepSound(p, loaded, skip, n, Meaning(p));
    } else {
      assert Result(p, Meaning(p), body).None?;
    }
    assert output !in Meaning(p);
  }
}
