/** The second interpreter of the experiments (experiments/dacapo_mlp_experiment.hpp): plain slot vectors,
    each freed at its last use, compared line by line with what the runtime returned. */
module Mlp {
  import opened Wrappers
  import opened Plan
  import opened Rules
  import opened Vec
  import opened Semantics
  import opened Widths
  import opened RankState
  import opened RankInvariant
  import opened RankRun

  type Slots = seq<Num>
  type Table = map<ValueId, Slots>
  type Counters = map<ValueId, nat>

  /** `evaluate_compute`: the slots of an operation from the slots of its operands. */
  function Evaluate(op: ComputeOp, values: Table): Option<Slots> {
    if Binary(op.kind) then
      if |op.inputs| != 2 || op.inputs[0] !in values || op.inputs[1] !in values then None
      else if |values[op.inputs[0]]| != |values[op.inputs[1]]| then None
      else Some(ZipSlots(op.kind, values[op.inputs[0]], values[op.inputs[1]]))
    else if |op.inputs| != 1 || op.inputs[0] !in values then None
    else
      var a := values[op.inputs[0]];
      match op.kind
      case Negate => Some(NegSlots(a))
      case Rotate => if op.attrs.RotateAttrs? && a != [] then Some(RotateSlots(a, op.attrs.steps)) else None
      case _ => Some(a)
  }

  /** Uses of `id` in instruction `n` and later ones, and as a final output. */
  function Ahead(p: Program, n: nat, id: ValueId): nat
    requires n <= |p.Code()|
    decreases |p.Code()| - n
  {
    if n == |p.Code()| then Count(p.plan.finalOutputs, id) else Count(Uses(p.Code()[n].body), id) + Ahead(p, n + 1, id)
  }

  /** The slots an encode starts from: the literals padded with zeros, not normalized again. */
  function Padded(p: Program, values: seq<Bits>): (r: Slots)
    requires |values| <= p.degree / 2
    ensures |r| == p.degree / 2
  {
    seq(p.degree / 2, i requires 0 <= i < p.degree / 2 => Lit(if i < |values| then values[i] else 0))
  }

  /** Literals without negative zeros, as the plan reader and the bundle loader produce them. */
  ghost predicate NormalizedLiterals(p: Program) {
    forall n :: 0 <= n < |p.Code()| && p.Code()[n].body.Encode? && Literals(p, p.Code()[n].body.payload).Some? ==>
      NEGATIVE_ZERO !in Literals(p, p.Code()[n].body.payload).value
  }

  /** What the experiment accepts: one input, one output, no communication. */
  ghost predicate Accepts(p: Program) {
    && |p.plan.externalInputs| == 1 && |p.plan.finalOutputs| == 1
    && forall n :: 0 <= n < |p.Code()| ==> !p.Code()[n].body.Comm?
  }

  // ---- Counting and releasing ----

  function Tally(uses: Counters, id: ValueId): nat {
    if id in uses then uses[id] else 0
  }

  method AddUses(uses: Counters, ids: seq<ValueId>) returns (r: Counters)
    ensures forall id :: Tally(r, id) == Tally(uses, id) + Count(ids, id)
    ensures forall id :: id in r <==> id in uses || id in ids
  {
    hide Count;
    r := uses;
    CountNone(ids);
    for i := 0 to |ids|
      invariant forall id :: Tally(r, id) == Tally(uses, id) + Count(ids[..i], id)
      invariant forall id :: id in r <==> id in uses || id in ids[..i]
    {
      r := r[ids[i] := Tally(r, ids[i]) + 1];
      assert ids[..i + 1] == ids[..i] + [ids[i]];
      forall id { CountAppend(ids[..i], ids[i], id); }
    }
    assert ids[..|ids|] == ids;
  }

  lemma CountNone(ids: seq<ValueId>)
    ensures forall id :: Count(ids[..0], id) == 0
  {
    assert ids[..0] == [];
  }

  /** `count_uses`. */
  method CountUses(p: Program) returns (uses: Counters)
    ensures forall id :: Tally(uses, id) == Ahead(p, 0, id)
  {
    hide Count, Tally;
    uses := map[];
    assert forall id :: Tally(uses, id) == 0 by { TallyNone(); }
    var code := p.Code();
    for n := 0 to |code|
      invariant forall id :: Tally(uses, id) + Ahead(p, n, id) == Ahead(p, 0, id)
    {
      uses := AddUses(uses, Uses(code[n].body));
    }
    uses := AddUses(uses, p.plan.finalOutputs);
  }

  lemma TallyNone()
    ensures forall id :: Tally(map[], id) == 0
  {
  }

  /** One use less; a value with no use left is freed. */
  method Release(values: Table, uses: Counters, id: ValueId) returns (ok: bool, left: Table, after: Counters)
    ensures ok <==> Tally(uses, id) > 0
    ensures ok ==> forall x :: Tally(after, x) == Tally(uses, x) - if x == id then 1 else 0
    ensures ok ==> left == if Tally(after, id) == 0 then values - {id} else values
  {
    left, after := values, uses;
    if id !in uses || uses[id] == 0 { return false, left, after; }
    after := uses[id := uses[id] - 1];
    if after[id] == 0 { left := values - {id}; }
    ok := true;
  }

  /** Every occurrence of an operand is released. */
  method ReleaseAll(values: Table, uses: Counters, ids: seq<ValueId>) returns (ok: bool, left: Table, after: Counters)
    requires forall id :: Tally(uses, id) >= Count(ids, id)
    ensures ok
    ensures forall id :: Tally(after, id) == Tally(uses, id) - Count(ids, id)
    ensures forall id :: id in left <==> id in values && (id in ids ==> Tally(after, id) > 0)
    ensures forall id :: id in left ==> left[id] == values[id]
  {
    hide Count, Tally;
    left, after := values, uses;
    CountNone(ids);
    for i := 0 to |ids|
      invariant forall id :: Tally(after, id) == Tally(uses, id) - Count(ids[..i], id)
      invariant forall id :: id in left <==> id in values && (id in ids[..i] ==> Tally(after, id) > 0)
      invariant forall id :: id in left ==> left[id] == values[id]
    {
      var id := ids[i];
      assert ids[..i + 1] == ids[..i] + [id];
      forall x { CountAppend(ids[..i], id, x); }
      CountPrefix(ids, i + 1, id);
      ok, left, after := Release(left, after, id);
      if !ok { return; }
    }
    assert ids[..|ids|] == ids;
    ok := true;
  }

  lemma {:induction false} CountPrefix(ids: seq<ValueId>, n: nat, id: ValueId)
    requires n <= |ids|
    ensures Count(ids[..n], id) <= Count(ids, id)
    decreases |ids| - n
  {
    if n < |ids| {
      assert ids[..n + 1] == ids[..n] + [ids[n]];
      CountAppend(ids[..n], ids[n], id);
      CountPrefix(ids, n + 1, id);
    } else {
      assert ids[..n] == ids;
    }
  }

  // ---- The run ----

  /** The table holds the slots of every defined value that is still going to be used, and counts are exact. */
  ghost predicate Held(p: Program, n: nat, values: Table, uses: Counters)
    requires n <= |p.Code()|
  {
    && (forall id :: id in DefinedBefore(p.plan, n) && Ahead(p, n, id) > 0 ==> id in values)
    && (forall id :: id in values ==> id in DefinedBefore(p.plan, n) && id in Meaning(p) && values[id] == Meaning(p)[id].slots)
    && (forall id :: Tally(uses, id) == Ahead(p, n, id))
  }

  /** Operands have a use ahead, so they have not been freed. */
  lemma OperandsHeld(p: Program, n: nat, values: Table, uses: Counters)
    requires n < |p.Code()| && SsaOk(p.plan, n) && Held(p, n, values, uses)
    ensures forall id :: id in Uses(p.Code()[n].body) ==> id in values
    ensures forall id :: Tally(uses, id) >= Count(Uses(p.Code()[n].body), id)
  {
    hide DefinedBefore, Meaning, Tally;
  }

  /** The plain evaluation of an accepted operation is the slot part of the executor's result. */
  lemma EvaluateIsCompute(op: ComputeOp, dm: Descs, values: Table, env: Env)
    requires OperandsOk(op, dm) && HasAll(env, op.inputs) && ComputeNow(op, Operands(env, op.inputs)).Success?
    requires forall id :: id in op.inputs ==> id in values && values[id] == env[id].slots
    ensures Evaluate(op, values) == Some(ComputeNow(op, Operands(env, op.inputs)).value.slots)
  {
    hide ComputeMetadata;
    assert forall i :: 0 <= i < |op.inputs| ==> op.inputs[i] in op.inputs;
  }

  lemma ComputeLine(p: Program, loaded: LoadedSpec, skip: bool, n: nat, values: Table, uses: Counters)
    requires Runnable(p, loaded, skip) && n < |p.Code()| && p.Code()[n].body.Compute? && Held(p, n, values, uses)
    ensures var op := p.Code()[n].body.op;
      op.output in Meaning(p) && Evaluate(op, values) == Some(Meaning(p)[op.output].slots)
  {
    hide WellFormed, ScalesRunnable, DescMap, Meaning, DefinedBefore, ComputeNow, Evaluate, KindRule, SpecRule, Validated, Ahead, Tally;
    RunnableFacts(p, loaded, skip);
    InstructionFacts(p, loaded, skip, n);
    VerifiedIsSsa(p, loaded, skip);
    var op := p.Code()[n].body.op;
    OperandsHeld(p, n, values, uses);
    MeaningEquation(p, n);
    OutputInTable(p, loaded, skip, n);
    assert op.output in Defs(p.Code()[n].body);
    forall i | 0 <= i < |op.inputs| ensures op.inputs[i] in Meaning(p) {
      assert op.inputs[i] in Uses(p.Code()[n].body);
    }
    EvaluateIsCompute(op, p.Table(), values, Meaning(p));
  }

  lemma EncodeLine(p: Program, loaded: LoadedSpec, skip: bool, n: nat)
    requires Runnable(p, loaded, skip) && NormalizedLiterals(p) && n < |p.Code()| && p.Code()[n].body.Encode?
    ensures var body := p.Code()[n].body; var literals := Literals(p, body.payload);
      literals.Some? && |literals.value| <= p.degree / 2 && body.output in Meaning(p) && Meaning(p)[body.output].slots == Padded(p, literals.value)
  {
    hide WellFormed, ScalesRunnable, DescMap, Meaning, DefinedBefore, Validated, Literals;
    RunnableFacts(p, loaded, skip);
    VerifiedIsSsa(p, loaded, skip);
    MeaningEquation(p, n);
    OutputInTable(p, loaded, skip, n);
    var body := p.Code()[n].body;
    assert body.output in Defs(body);
    var literals := Literals(p, body.payload).value;
    assert Meaning(p)[body.output].slots == Padded(p, literals);
  }

  /** Moving past an instruction: its output joins the table when it will be used, its operands' uses go. */
  lemma LineKeeps(p: Program, n: nat, values: Table, uses: Counters, output: ValueId, slots: Slots, joined: Table, left: Table, after: Counters)
    requires n < |p.Code()| && SsaOk(p.plan, n) && Held(p, n, values, uses)
    requires Defs(p.Code()[n].body) == [output] && output in Meaning(p) && slots == Meaning(p)[output].slots
    requires joined == if Tally(uses, output) != 0 then values[output := slots] else values
    requires var ids := Uses(p.Code()[n].body);
      && (forall id :: Tally(after, id) == Tally(uses, id) - Count(ids, id))
      && (forall id :: id in left <==> id in joined && (id in ids ==> Tally(after, id) > 0))
      && (forall id :: id in left ==> left[id] == joined[id])
    ensures Held(p, n + 1, left, after)
  {
    hide Meaning, DefinedBefore, Tally;
    DefinedNext(p.plan, n);
    assert output in Defs(p.Code()[n].body);
    forall id ensures Tally(after, id) == Ahead(p, n + 1, id) {
      assert Tally(uses, id) == Ahead(p, n, id);
    }
  }

  /** The whole comparison: on every runnable program the experiment accepts, the interpreter never reads a
      freed value, and the slots it has for each instruction are those of the value the runtime retains. */
  method ReferenceLines(p: Program, ghost loaded: LoadedSpec, ghost skip: bool) returns (lines: Option<seq<(ValueId, Slots)>>)
    requires Runnable(p, loaded, skip) && NormalizedLiterals(p) && Accepts(p)
    ensures lines.Some? && |lines.value| == |p.Code()|
    ensures forall n :: 0 <= n < |p.Code()| ==>
      Defs(p.Code()[n].body) == [lines.value[n].0] && lines.value[n].0 in Meaning(p) && lines.value[n].1 == Meaning(p)[lines.value[n].0].slots
  {
    hide WellFormed, ScalesRunnable, DescMap, Meaning, DefinedBefore, Evaluate, Validated, Ahead, Tally, Count, Runnable, Held, ComputeNow;
    var uses := CountUses(p);
    var input := p.plan.externalInputs[0];
    InputHeld(p, loaded, skip, uses);
    var values: Table := map[input := p.inputs[input].slots];
    var found: seq<(ValueId, Slots)> := [];
    var code := p.Code();
    for n := 0 to |code|
      invariant Held(p, n, values, uses)
      invariant |found| == n && forall k :: 0 <= k < n ==> LineOk(p, k, found[k])
    {
      LineFacts(p, loaded, skip, n, values, uses);
      match code[n].body {
        case Encode(payload, output) =>
          EncodeLine(p, loaded, skip, n);
          var slots := Padded(p, Literals(p, payload).value);
          var joined := if Tally(uses, output) != 0 then values[output := slots] else values;
          NothingReleased(uses);
          LineKeeps(p, n, values, uses, output, slots, joined, joined, uses);
          values := joined;
          found := found + [(output, slots)];
        case Compute(op) =>
          ComputeLine(p, loaded, skip, n, values, uses);
          var slots := Evaluate(op, values);
          if slots.None? { return None; }
          var joined := if Tally(uses, op.output) != 0 then values[op.output := slots.value] else values;
          var ok, left, after := ReleaseAll(joined, uses, op.inputs);
          if !ok { return None; }
          LineKeeps(p, n, values, uses, op.output, slots.value, joined, left, after);
          values, uses := left, after;
          found := found + [(op.output, slots.value)];
        case Comm(_) =>
          assert false;
      }
    }
    FinalCounted(p, values, uses);
    var ok, left, after := Release(values, uses, p.plan.finalOutputs[0]);
    if !ok { return None; }
    lines := Some(found);
  }

  /** The final output is still counted when the last line has been compared. */
  lemma FinalCounted(p: Program, values: Table, uses: Counters)
    requires Accepts(p) && Held(p, |p.Code()|, values, uses)
    ensures Tally(uses, p.plan.finalOutputs[0]) > 0
  {
    hide DefinedBefore, Meaning, Tally, DescMap;
    assert p.plan.finalOutputs[0] in p.plan.finalOutputs;
  }

  ghost predicate LineOk(p: Program, n: nat, line: (ValueId, Slots))
    requires n < |p.Code()|
  {
    Defs(p.Code()[n].body) == [line.0] && line.0 in Meaning(p) && line.1 == Meaning(p)[line.0].slots
  }

  lemma LineFacts(p: Program, loaded: LoadedSpec, skip: bool, n: nat, values: Table, uses: Counters)
    requires Runnable(p, loaded, skip) && Accepts(p) && n < |p.Code()| && Held(p, n, values, uses)
    ensures SsaOk(p.plan, n) && !p.Code()[n].body.Comm?
    ensures forall id :: Tally(uses, id) >= Count(Uses(p.Code()[n].body), id)
  {
    hide Runnable, WellFormed, DescMap, Meaning, DefinedBefore, Ahead, Tally, Count, Held, SsaOk, BodyRule;
    RunnableFacts(p, loaded, skip);
    InstructionFacts(p, loaded, skip, n);
    OperandsHeld(p, n, values, uses);
  }

  lemma NothingReleased(uses: Counters)
    ensures forall id :: Tally(uses, id) == Tally(uses, id) - Count([], id)
  {
  }

  /** The table starts with the one external input. */
  lemma InputHeld(p: Program, loaded: LoadedSpec, skip: bool, uses: Counters)
    requires Runnable(p, loaded, skip) && Accepts(p) && forall id :: Tally(uses, id) == Ahead(p, 0, id)
    ensures var input := p.plan.externalInputs[0]; input in p.inputs && Held(p, 0, map[input := p.inputs[input].slots], uses)
  {
    hide Runnable, DescMap, Meaning, Ahead, Tally, WellFormed, DefinedBefore, After;
    var input := p.plan.externalInputs[0];
    RunnableFacts(p, loaded, skip);
    RunnableInput(p, loaded, skip, input);
    VerifiedIsSsa(p, loaded, skip);
    OneInput(p, input);
    MeaningAt(p, 0, input);
  }

  lemma RunnableInput(p: Program, loaded: LoadedSpec, skip: bool, input: ValueId)
    requires Runnable(p, loaded, skip) && input in p.plan.externalInputs
    ensures input in p.inputs
  {
    hide WellFormed, DescMap, Validates, ScalesRunnable, WidthsFit;
  }

  lemma OneInput(p: Program, input: ValueId)
    requires p.plan.externalInputs == [input] && input in p.inputs
    ensures forall id :: id in DefinedBefore(p.plan, 0) <==> id == input
    ensures input in After(p, 0) && After(p, 0)[input] == p.inputs[input]
  {
  }
}
