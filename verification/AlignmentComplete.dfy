/** Completeness of plan alignment: a single-rank plan aligns with itself, and a pair that aligns still aligns after
    one more transfer with some uses redirected to it. */
module AlignmentComplete {
  import opened Wrappers
  import opened Plan
  import opened Rules
  import opened Vec
  import opened Semantics
  import A = Alignment
  import AlignmentSound

  // ---- A plan against itself ----

  /** No inline literal of the instruction is a NaN, which would differ from itself. */
  predicate NaNFree(body: Body) {
    body.Encode? && body.payload.Inline? ==> forall i :: 0 <= i < |body.payload.values| ==> !A.IsNaN(body.payload.values[i])
  }

  ghost predicate NoNaN(plan: RuntimePlan) {
    forall n :: 0 <= n < |Instructions(plan)| ==> NaNFree(Instructions(plan)[n].body)
  }

  /** One rank, no device, no communication. */
  ghost predicate Single(plan: RuntimePlan, loaded: LoadedSpec, skip: bool) {
    && WellFormed(plan, loaded, skip) && plan.target.worldSize == 1 && plan.target.deviceCounts == [0]
    && forall n :: 0 <= n < |Instructions(plan)| ==> !Instructions(plan)[n].body.Comm?
  }

  lemma SingleFacts(plan: RuntimePlan, loaded: LoadedSpec, skip: bool)
    requires Single(plan, loaded, skip)
    ensures Rules.UniqueIds(plan.values) && A.Ids(plan) == DescMap(plan.values).Keys
    ensures forall id :: id in plan.externalInputs ==> id in DescMap(plan.values) && DescMap(plan.values)[id].place == Place(Host, 0, 0)
    ensures forall id :: id in plan.finalOutputs ==> id in DescMap(plan.values)
  {
    hide HeaderOk, InstructionOk, DescMap, DefinedBefore, Budget;
    var dm := DescMap(plan.values);
    assert forall id :: id in A.Ids(plan) <==> exists i :: 0 <= i < |plan.values| && plan.values[i].id == id;
    forall id | id in plan.externalInputs ensures id in dm && dm[id].place == Place(Host, 0, 0) {
      var i :| 0 <= i < |plan.values| && plan.values[i] == dm[id];
      assert DescOk(plan, loaded.spec, plan.values[i]);
    }
  }

  /** Operands and outputs of every instruction are listed, and no two instructions have the same output. */
  lemma SingleCode(plan: RuntimePlan, loaded: LoadedSpec, skip: bool)
    requires Single(plan, loaded, skip)
    ensures A.ReferenceOk(Instructions(plan))
    ensures forall n, id :: 0 <= n < |Instructions(plan)| && id in Uses(Instructions(plan)[n].body) ==> id in DescMap(plan.values)
  {
    hide HeaderOk, ValuesOk, InputsOk, OutputsOk, BodyRule, DescMap;
    var code := Instructions(plan);
    forall n, id | 0 <= n < |code| && id in Uses(code[n].body) ensures id in DescMap(plan.values) {
      assert InstructionOk(plan, loaded.spec, DescMap(plan.values), n);
      DefinedMonotone(plan, n, |code|);
    }
    forall i, j | 0 <= i < j < |code| ensures A.OutputOf(code[i].body) != A.OutputOf(code[j].body) {
      assert A.OutputOf(code[i].body) in Defs(code[i].body) && A.OutputOf(code[j].body) in Defs(code[j].body);
      assert InstructionOk(plan, loaded.spec, DescMap(plan.values), j);
    }
  }

  lemma NoSources(code: seq<Instruction>, n: nat)
    requires n <= |code| && forall i :: 0 <= i < |code| ==> !code[i].body.Comm?
    ensures A.Sources(code, n) == map[]
  {
  }

  lemma {:induction false} OwnProducer(code: seq<Instruction>, n: nat, i: nat)
    requires i < n <= |code| && A.ReferenceOk(code)
    ensures A.OutputOf(code[i].body) in A.Producers(code, n) && A.Producers(code, n)[A.OutputOf(code[i].body)] == code[i]
  {
    if i < n - 1 {
      OwnProducer(code, n - 1, i);
    }
  }

  lemma OwnProducers(code: seq<Instruction>)
    requires A.ReferenceOk(code)
    ensures var producers := A.Producers(code, |code|);
      && (forall i :: 0 <= i < |code| ==> A.OutputOf(code[i].body) in producers && producers[A.OutputOf(code[i].body)] == code[i])
      && forall id :: id in producers ==> exists i :: 0 <= i < |code| && A.OutputOf(code[i].body) == id
  {
    hide A.Producers;
    forall i | 0 <= i < |code|
      ensures A.OutputOf(code[i].body) in A.Producers(code, |code|) && A.Producers(code, |code|)[A.OutputOf(code[i].body)] == code[i]
    {
      OwnProducer(code, |code|, i);
    }
    forall id | id in A.Producers(code, |code|) ensures exists i :: 0 <= i < |code| && A.OutputOf(code[i].body) == id {
      var i := AlignmentSound.ProducerOf(code, |code|, id);
    }
  }

  /** An instruction does its own work, on operands that need no lineage, unless it encodes a NaN. */
  lemma OwnWork(known: set<ValueId>, body: Body)
    requires !body.Comm? && forall id :: id in Uses(body) ==> id in known
    ensures A.SameWork(known, map[], body, body) <==> NaNFree(body)
  {
    if body.Compute? {
      assert forall i :: 0 <= i < |body.op.inputs| ==> body.op.inputs[i] in Uses(body);
    }
  }

  lemma OwnDescs(plan: RuntimePlan, loaded: LoadedSpec, skip: bool)
    requires Single(plan, loaded, skip)
    ensures A.TargetsOk(plan, plan)
    ensures forall id :: id in A.Ids(plan) ==> A.SameDesc(A.FindDesc(plan.values, id), A.FindDesc(plan.values, id))
  {
    hide WellFormed, DescMap, A.FindDesc;
    SingleFacts(plan, loaded, skip);
    forall id ensures A.FindDesc(plan.values, id) == if id in DescMap(plan.values) then Some(DescMap(plan.values)[id]) else None {
      AlignmentSound.FindIsLookup(plan.values, id);
    }
  }

  lemma OwnInstructions(known: set<ValueId>, code: seq<Instruction>)
    requires A.ReferenceOk(code) && forall n, id :: 0 <= n < |code| && id in Uses(code[n].body) ==> id in known
    ensures A.InstructionsAgree(known, A.Producers(code, |code|), map[], code) <==> forall n :: 0 <= n < |code| ==> NaNFree(code[n].body)
  {
    hide A.SameWork, A.Producers, NaNFree;
    var producers := A.Producers(code, |code|);
    OwnProducers(code);
    forall n | 0 <= n < |code|
      ensures A.SameWork(known, map[], code[n].body, producers[A.OutputOf(code[n].body)].body) <==> NaNFree(code[n].body)
    {
      OwnWork(known, code[n].body);
    }
    forall id | id in producers ensures exists n :: 0 <= n < |code| && !code[n].body.Comm? && A.OutputOf(code[n].body) == id {
      var n :| 0 <= n < |code| && A.OutputOf(code[n].body) == id;
      assert !code[n].body.Comm?;
    }
  }

  /** A verified single-rank plan without communication aligns with itself exactly when none of its inline literals
      is a NaN. */
  lemma AlignsWithItself(plan: RuntimePlan, loaded: LoadedSpec, skip: bool)
    requires Single(plan, loaded, skip)
    ensures A.Aligned(plan, plan) <==> NoNaN(plan)
  {
    hide WellFormed, DescMap, A.FindDesc, A.SameWork, A.Producers, A.Sources, A.SameDesc, A.TargetsOk, A.Ids, A.InstructionsAgree, A.ReferenceOk, NaNFree;
    var code := Instructions(plan);
    SingleFacts(plan, loaded, skip);
    SingleCode(plan, loaded, skip);
    NoSources(code, |code|);
    OwnDescs(plan, loaded, skip);
    assert forall id :: id in A.Ids(plan) ==> A.Root(plan, plan, id) == Some(id);
    OwnInstructions(A.Ids(plan), code);
  }

  /** Equality of doubles by bit patterns: the NaNs are two ranges, the zeros are two patterns. */
  lemma DoublesByPattern(a: Bits, b: Bits)
    requires a < TWO_64 && b < TWO_64
    ensures A.IsNaN(a) <==> 0x7ff0_0000_0000_0000 < a < 0x8000_0000_0000_0000 || 0xfff0_0000_0000_0000 < a
    ensures A.SameDouble(a, b) <==>
      !A.IsNaN(a) && !A.IsNaN(b) && (a == b || (a in {0, 0x8000_0000_0000_0000} && b in {0, 0x8000_0000_0000_0000}))
  {
    var high := a / 0x10_0000_0000_0000;
    assert high < 0x1000 && a == high * 0x10_0000_0000_0000 + a % 0x10_0000_0000_0000;
  }

  /** Only point-to-point transfers of one value to one place pass, and each to an identifier the reference does not have. */
  lemma OnlyTransfers(r: RuntimePlan, d: RuntimePlan, n: nat)
    requires A.Aligned(r, d) && n < |Instructions(d)| && Instructions(d)[n].body.Comm?
    ensures var action := Instructions(d)[n].body.action;
      && action.kind == Transfer && action.hint == PointToPoint
      && |action.inputs| == 1 && |action.outputs| == 1 && |action.sources| == 1 && |action.destinations| == 1 && |action.outputTypes| == 1
      && forall v :: v in r.values ==> v.id != action.outputs[0]
  {
    hide A.TargetsOk, A.ReferenceOk, A.ValuesAgree, A.InstructionsAgree, A.OutputsAgree, A.Root, A.Sources, A.Producers;
    assert A.IsPointToPoint(Instructions(d)[n].body);
    assert forall v :: v in r.values ==> v.id in A.Ids(r);
  }

  // ---- One more transfer ----

  /** `id` stays, or the source `x` gives way to its copy `y`. */
  predicate Same(id: ValueId, next: ValueId, x: ValueId, y: ValueId) {
    next == id || (id == x && next == y)
  }

  predicate SameIds(ids: seq<ValueId>, later: seq<ValueId>, x: ValueId, y: ValueId) {
    |later| == |ids| && forall i :: 0 <= i < |ids| ==> Same(ids[i], later[i], x, y)
  }

  /** The instruction, with some uses of `x` redirected to `y`; it may move to other places. */
  predicate Redirected(body: Body, next: Body, x: ValueId, y: ValueId) {
    match (body, next)
    case (Encode(a, o), Encode(b, q)) => a == b && o == q
    case (Compute(a), Compute(b)) => a.kind == b.kind && a.attrs == b.attrs && a.output == b.output && SameIds(a.inputs, b.inputs, x, y)
    case (Comm(a), Comm(b)) =>
      && a.kind == b.kind && a.hint == b.hint && a.outputs == b.outputs && SameIds(a.inputs, b.inputs, x, y)
      && |a.sources| == |b.sources| && |a.destinations| == |b.destinations| && |a.outputTypes| == |b.outputTypes|
    case _ => false
  }

  /** The instruction that takes the place of instruction `n` once another one stands at `at`. */
  function Shifted(at: nat, n: nat): nat {
    if n < at then n else n + 1
  }

  function Unshifted(at: nat, n: nat): nat
    requires n != at
  {
    if n < at then n else n - 1
  }

  /** A point-to-point transfer of `x`. */
  predicate Copies(body: Body, x: ValueId, y: ValueId) {
    && body.Comm? && body.action.kind == Transfer && body.action.hint == PointToPoint
    && body.action.inputs == [x] && body.action.outputs == [y]
    && |body.action.sources| == |body.action.destinations| == |body.action.outputTypes| == 1
  }

  /** The plan `e` is `d` with a transfer of `x` to a fresh `y` at position `at`. */
  ghost predicate Inserted(d: RuntimePlan, e: RuntimePlan, at: nat, x: ValueId, y: ValueId, copy: ValueDesc) {
    var before, next := Instructions(d), Instructions(e);
    && e.target.targetId == d.target.targetId && e.target.capabilityVersion == d.target.capabilityVersion
    && e.target.operatorSpec == d.target.operatorSpec && e.externalInputs == d.externalInputs
    && e.values == d.values + [copy] && copy.id == y
    && at <= |before| && |next| == |before| + 1 && Copies(next[at].body, x, y)
    && (forall n :: 0 <= n < |before| ==> Redirected(before[n].body, next[Shifted(at, n)].body, x, y))
    && SameIds(d.finalOutputs, e.finalOutputs, x, y)
  }

  /** Nothing in the plan is called `y`. */
  ghost predicate Fresh(d: RuntimePlan, y: ValueId) {
    && (forall v :: v in d.values ==> v.id != y)
    && y !in d.externalInputs && y !in d.finalOutputs
    && forall n :: 0 <= n < |Instructions(d)| ==> y !in Uses(Instructions(d)[n].body) && y !in Defs(Instructions(d)[n].body)
  }

  /** The lineage with one more transfer: `x` to `y`, and some transfers of `x` now of `y`. */
  ghost predicate Longer(sources: A.Lineage, longer: A.Lineage, x: ValueId, y: ValueId) {
    && y !in sources && longer.Keys == sources.Keys + {y} && longer[y] == x
    && forall id :: id in sources ==> sources[id] != y && Same(sources[id], longer[id], x, y)
  }

  /** What had a root has the same root along the longer lineage. */
  lemma {:induction false} SameRoot(
      known: set<ValueId>, sources: A.Lineage, longer: A.Lineage, x: ValueId, y: ValueId,
      id: ValueId, active: set<ValueId>, now: set<ValueId>)
    requires Longer(sources, longer, x, y) && y !in known && id != y && active !! known
    requires A.Resolve(known, sources, id, active).Some?
    requires now <= active + {y} && (y in now ==> x in active || id == x)
    ensures A.Resolve(known, longer, id, now) == A.Resolve(known, sources, id, active)
    decreases |sources.Keys - active|
  {
    if id !in known {
      assert id in sources.Keys - active;
      A.Shrinks(sources.Keys - (active + {id}), sources.Keys - active);
      var source := sources[id];
      assert A.Resolve(known, sources, source, active + {id}).Some?;
      if longer[id] == source {
        SameRoot(known, sources, longer, x, y, source, active + {id}, now + {id});
      } else {
        assert source == x && longer[id] == y;
        assert y !in now + {id};
        SameRoot(known, sources, longer, x, y, x, active + {id}, now + {id} + {y});
        assert A.Resolve(known, longer, y, now + {id}) == A.Resolve(known, longer, x, now + {id} + {y});
      }
    }
  }

  /** So has what it was redirected to. */
  lemma NewRoot(known: set<ValueId>, sources: A.Lineage, longer: A.Lineage, x: ValueId, y: ValueId, id: ValueId, next: ValueId)
    requires Longer(sources, longer, x, y) && y !in known && id != y && Same(id, next, x, y)
    requires A.Resolve(known, sources, id, {}).Some?
    ensures A.Resolve(known, longer, next, {}) == A.Resolve(known, sources, id, {})
  {
    if next == id {
      SameRoot(known, sources, longer, x, y, id, {}, {});
    } else {
      SameRoot(known, sources, longer, x, y, x, {}, {} + {y});
    }
  }

  lemma {:induction false} SourceAt(code: seq<Instruction>, n: nat, id: ValueId) returns (i: nat)
    requires n <= |code| && id in A.Sources(code, n)
    ensures i < n && A.IsPointToPoint(code[i].body) && code[i].body.action.outputs[0] == id
    ensures A.Sources(code, n)[id] == code[i].body.action.inputs[0]
  {
    if A.IsPointToPoint(code[n - 1].body) && code[n - 1].body.action.outputs[0] == id {
      i := n - 1;
    } else {
      i := SourceAt(code, n - 1, id);
    }
  }

  /** What the proofs below use of the hypotheses. */
  ghost predicate Step(known: set<ValueId>, before: seq<Instruction>, next: seq<Instruction>, at: nat, x: ValueId, y: ValueId) {
    && y !in known && A.TransfersOk(known, before)
    && at <= |before| && |next| == |before| + 1 && Copies(next[at].body, x, y)
    && (forall n :: 0 <= n < |before| ==> Redirected(before[n].body, next[Shifted(at, n)].body, x, y))
    && forall n :: 0 <= n < |before| ==> y !in Uses(before[n].body) && y !in Defs(before[n].body)
  }

  lemma Position(at: nat, n: nat)
    requires n != at
    ensures Shifted(at, Unshifted(at, n)) == n
  {
  }

  lemma RedirectedMove(body: Body, next: Body, x: ValueId, y: ValueId)
    requires Redirected(body, next, x, y)
    ensures body.Comm? <==> next.Comm?
    ensures A.IsPointToPoint(body) <==> A.IsPointToPoint(next)
    ensures A.IsPointToPoint(body) ==>
      next.action.outputs[0] == body.action.outputs[0] && Same(body.action.inputs[0], next.action.inputs[0], x, y) &&
      body.action.outputs[0] in Defs(body) && body.action.inputs[0] in Uses(body)
    ensures !body.Comm? ==> A.OutputOf(body) == A.OutputOf(next) && A.OutputOf(body) in Defs(body)
  {
  }

  lemma TransfersStay(known: set<ValueId>, before: seq<Instruction>, next: seq<Instruction>, at: nat, x: ValueId, y: ValueId)
    requires Step(known, before, next, at, x, y)
    ensures A.TransfersOk(known, next)
  {
    hide Step;
    forall n | 0 <= n < |next| && next[n].body.Comm?
      ensures A.IsPointToPoint(next[n].body) && next[n].body.action.outputs[0] !in known
    {
      OneTransfer(known, before, next, at, x, y, n);
    }
    forall m, n | 0 <= m < n < |next| && next[m].body.Comm? && next[n].body.Comm?
      ensures next[m].body.action.outputs[0] != next[n].body.action.outputs[0]
    {
      TwoTransfers(known, before, next, at, x, y, m, n);
    }
  }

  lemma OneTransfer(known: set<ValueId>, before: seq<Instruction>, next: seq<Instruction>, at: nat, x: ValueId, y: ValueId, n: nat)
    requires Step(known, before, next, at, x, y) && n < |next| && next[n].body.Comm?
    ensures A.IsPointToPoint(next[n].body) && next[n].body.action.outputs[0] !in known
  {
    hide Step, Redirected;
    StepFacts(known, before, next, at, x, y);
    if n == at {
      CopyIsMove(next[at].body, x, y);
    } else {
      MoveAt(known, before, next, at, x, y, n);
    }
  }

  lemma TwoTransfers(known: set<ValueId>, before: seq<Instruction>, next: seq<Instruction>, at: nat, x: ValueId, y: ValueId, m: nat, n: nat)
    requires Step(known, before, next, at, x, y) && m < n < |next| && next[m].body.Comm? && next[n].body.Comm?
    ensures A.IsPointToPoint(next[m].body) && A.IsPointToPoint(next[n].body)
    ensures next[m].body.action.outputs[0] != next[n].body.action.outputs[0]
  {
    hide Step, Redirected;
    StepFacts(known, before, next, at, x, y);
    CopyIsMove(next[at].body, x, y);
    if n != at { MoveAt(known, before, next, at, x, y, n); }
    if m != at { MoveAt(known, before, next, at, x, y, m); }
  }

  lemma CopyIsMove(body: Body, x: ValueId, y: ValueId)
    requires Copies(body, x, y)
    ensures A.IsPointToPoint(body) && body.action.outputs[0] == y && body.action.inputs[0] == x
  {
  }

  lemma MoveAt(known: set<ValueId>, before: seq<Instruction>, next: seq<Instruction>, at: nat, x: ValueId, y: ValueId, n: nat)
    requires Step(known, before, next, at, x, y) && n < |next| && n != at
    ensures Unshifted(at, n) < |before| && Redirected(before[Unshifted(at, n)].body, next[n].body, x, y)
    ensures next[n].body.Comm? <==> before[Unshifted(at, n)].body.Comm?
    ensures next[n].body.Comm? ==>
      && A.IsPointToPoint(next[n].body) && A.IsPointToPoint(before[Unshifted(at, n)].body)
      && next[n].body.action.outputs[0] == before[Unshifted(at, n)].body.action.outputs[0] && next[n].body.action.outputs[0] !in known
      && next[n].body.action.outputs[0] != y && before[Unshifted(at, n)].body.action.inputs[0] != y
      && Same(before[Unshifted(at, n)].body.action.inputs[0], next[n].body.action.inputs[0], x, y)
  {
    hide Redirected, Copies, A.IsPointToPoint;
    Position(at, n);
    var m := Unshifted(at, n);
    assert Redirected(before[m].body, next[Shifted(at, m)].body, x, y);
    RedirectedMove(before[m].body, next[n].body, x, y);
  }

  lemma SourcesGrow(known: set<ValueId>, before: seq<Instruction>, next: seq<Instruction>, at: nat, x: ValueId, y: ValueId)
    requires Step(known, before, next, at, x, y)
    ensures Longer(A.Sources(before, |before|), A.Sources(next, |next|), x, y)
  {
    hide Redirected, Copies, A.IsPointToPoint, A.Sources, Step, A.TransfersOk;
    var sources, longer := A.Sources(before, |before|), A.Sources(next, |next|);
    TransfersStay(known, before, next, at, x, y);
    StepFacts(known, before, next, at, x, y);
    SourceIs(known, next, at);
    CopyIsMove(next[at].body, x, y);
    forall id | id in sources
      ensures id != y && sources[id] != y && id in longer && Same(sources[id], longer[id], x, y)
    {
      var i := SourceAt(before, |before|, id);
      MoveAt(known, before, next, at, x, y, Shifted(at, i));
      SourceIs(known, next, Shifted(at, i));
    }
    forall id | id in longer && id != y ensures id in sources {
      var j := SourceAt(next, |next|, id);
      MoveAt(known, before, next, at, x, y, j);
      SourceIs(known, before, Unshifted(at, j));
    }
  }

  lemma StepFacts(known: set<ValueId>, before: seq<Instruction>, next: seq<Instruction>, at: nat, x: ValueId, y: ValueId)
    requires Step(known, before, next, at, x, y)
    ensures y !in known && A.TransfersOk(known, before) && at < |next| == |before| + 1 && Copies(next[at].body, x, y)
  {
  }

  lemma SourceIs(known: set<ValueId>, code: seq<Instruction>, i: nat)
    requires A.TransfersOk(known, code) && i < |code| && A.IsPointToPoint(code[i].body)
    ensures code[i].body.action.outputs[0] in A.Sources(code, |code|)
    ensures A.Sources(code, |code|)[code[i].body.action.outputs[0]] == code[i].body.action.inputs[0]
  {
    AlignmentSound.SourceOf(code, |code|, i);
  }

  // ---- Alignment after the step ----

  function SourcesOf(plan: RuntimePlan): A.Lineage {
    A.Sources(Instructions(plan), |Instructions(plan)|)
  }

  /** `x` is a reference value or a copy, and the new value has its metadata. */
  ghost predicate Copied(r: RuntimePlan, d: RuntimePlan, x: ValueId, copy: ValueDesc) {
    && (x in A.Ids(r) || exists n :: 0 <= n < |Instructions(d)| && Instructions(d)[n].body.Comm? && x in Defs(Instructions(d)[n].body))
    && A.FindDesc(d.values, x).Some? && SameMetadata(A.FindDesc(d.values, x).value, copy)
  }

  /** One more transfer of a value with a lineage, to a fresh identifier with the same metadata. */
  ghost predicate Extends(r: RuntimePlan, d: RuntimePlan, e: RuntimePlan, at: nat, x: ValueId, y: ValueId, copy: ValueDesc) {
    A.Aligned(r, d) && Inserted(d, e, at, x, y, copy) && Fresh(d, y) && Copied(r, d, x, copy)
  }

  lemma {:induction false} FindAppended(values: seq<ValueDesc>, copy: ValueDesc, id: ValueId)
    requires forall v :: v in values ==> v.id != copy.id
    ensures A.FindDesc(values + [copy], id) == if id == copy.id then Some(copy) else A.FindDesc(values, id)
  {
    if values == [] {
      assert values + [copy] == [copy] && [copy][1..] == [];
    } else {
      assert (values + [copy])[1..] == values[1..] + [copy] && (values + [copy])[0] == values[0];
      assert values[0] in values;
      FindAppended(values[1..], copy, id);
    }
  }

  lemma ExtendsStep(r: RuntimePlan, d: RuntimePlan, e: RuntimePlan, at: nat, x: ValueId, y: ValueId, copy: ValueDesc)
    requires Extends(r, d, e, at, x, y, copy)
    ensures Step(A.Ids(r), Instructions(d), Instructions(e), at, x, y)
    ensures Longer(SourcesOf(d), SourcesOf(e), x, y)
    ensures y !in A.Ids(r) && A.TransfersOk(A.Ids(r), Instructions(e))
  {
    hide A.InstructionsAgree, A.OutputsAgree, A.FindDesc, A.Sources, Redirected, Copies, A.Ids, A.SameDesc, A.TargetsOk, A.Root;
    FreshInReference(r, d, y);
    SourcesGrow(A.Ids(r), Instructions(d), Instructions(e), at, x, y);
    TransfersStay(A.Ids(r), Instructions(d), Instructions(e), at, x, y);
  }

  lemma FreshInReference(r: RuntimePlan, d: RuntimePlan, y: ValueId)
    requires A.ValuesAgree(r, d) && forall v :: v in d.values ==> v.id != y
    ensures y !in A.Ids(r)
  {
    hide A.Sources, A.Root, A.Ids;
    forall id | id in A.Ids(r) ensures id != y {
      assert A.SameDesc(A.FindDesc(r.values, id), A.FindDesc(d.values, id));
    }
  }

  /** Whatever had a reference value has the same one, redirected or not. */
  lemma RootStays(r: RuntimePlan, d: RuntimePlan, e: RuntimePlan, at: nat, x: ValueId, y: ValueId, copy: ValueDesc, id: ValueId, next: ValueId)
    requires Extends(r, d, e, at, x, y, copy) && A.Root(r, d, id).Some? && id != y && Same(id, next, x, y)
    ensures A.Root(r, e, next) == A.Root(r, d, id)
  {
    hide Extends, A.Resolve, A.Sources, A.Ids, Step;
    ExtendsStep(r, d, e, at, x, y, copy);
    NewRoot(A.Ids(r), SourcesOf(d), SourcesOf(e), x, y, id, next);
  }

  /** The source has a reference value with its metadata. */
  lemma SourceRoot(r: RuntimePlan, d: RuntimePlan, x: ValueId, copy: ValueDesc)
    requires A.Aligned(r, d) && Copied(r, d, x, copy)
    ensures A.Root(r, d, x).Some? && A.SameDesc(A.FindDesc(r.values, A.Root(r, d, x).value), Some(copy))
  {
    hide A.InstructionsAgree, A.OutputsAgree, A.TargetsOk, A.TransfersOk, A.Sources, A.FindDesc, A.Ids, A.Producers, A.Resolve;
    if x in A.Ids(r) {
      OwnRoot(A.Ids(r), SourcesOf(d), x);
      assert A.SameDesc(A.FindDesc(r.values, x), A.FindDesc(d.values, x));
    } else {
      var n :| 0 <= n < |Instructions(d)| && Instructions(d)[n].body.Comm? && x in Defs(Instructions(d)[n].body);
      CopyHasSource(A.Ids(r), Instructions(d), n, x);
      AlignmentSound.TransferRoot(A.Ids(r), SourcesOf(d), x);
    }
  }

  lemma OwnRoot(known: set<ValueId>, sources: A.Lineage, x: ValueId)
    requires x in known
    ensures A.Resolve(known, sources, x, {}) == Some(x)
  {
  }

  lemma CopyHasSource(known: set<ValueId>, code: seq<Instruction>, n: nat, x: ValueId)
    requires A.TransfersOk(known, code) && n < |code| && code[n].body.Comm? && x in Defs(code[n].body)
    ensures x in A.Sources(code, |code|)
  {
    SourceIs(known, code, n);
  }

  lemma TargetsStay(r: RuntimePlan, d: RuntimePlan, e: RuntimePlan, at: nat, x: ValueId, y: ValueId, copy: ValueDesc)
    requires A.TargetsOk(r, d) && Inserted(d, e, at, x, y, copy) && Fresh(d, y)
    ensures A.TargetsOk(r, e)
  {
    hide A.FindDesc, Redirected, Copies;
    forall id | id in e.externalInputs ensures A.FindDesc(e.values, id) == A.FindDesc(d.values, id) {
      FindAppended(d.values, copy, id);
    }
  }

  lemma TransfersResolve(r: RuntimePlan, d: RuntimePlan, e: RuntimePlan, at: nat, x: ValueId, y: ValueId, copy: ValueDesc, id: ValueId)
    requires Extends(r, d, e, at, x, y, copy) && id in SourcesOf(e)
    ensures A.Root(r, e, id).Some? && A.Root(r, e, SourcesOf(e)[id]).Some?
    ensures A.SameDesc(A.FindDesc(r.values, A.Root(r, e, SourcesOf(e)[id]).value), A.FindDesc(e.values, id))
  {
    hide A.InstructionsAgree, A.OutputsAgree, A.TargetsOk, A.TransfersOk, A.Sources, A.FindDesc, A.Ids, A.Producers, A.Root, A.SameDesc, Redirected, Copies, Step, Copied;
    ExtendsStep(r, d, e, at, x, y, copy);
    FindAppended(d.values, copy, id);
    SourceRoot(r, d, x, copy);
    assert x != y by { SourceIsListed(r, d, x, y, copy); }
    if id == y {
      RootStays(r, d, e, at, x, y, copy, x, y);
      RootStays(r, d, e, at, x, y, copy, x, x);
    } else {
      assert id in SourcesOf(d);
      RootStays(r, d, e, at, x, y, copy, id, id);
      RootStays(r, d, e, at, x, y, copy, SourcesOf(d)[id], SourcesOf(e)[id]);
    }
  }

  lemma SourceIsListed(r: RuntimePlan, d: RuntimePlan, x: ValueId, y: ValueId, copy: ValueDesc)
    requires Copied(r, d, x, copy) && Fresh(d, y)
    ensures x != y
  {
  }

  lemma ValuesStay(r: RuntimePlan, d: RuntimePlan, e: RuntimePlan, at: nat, x: ValueId, y: ValueId, copy: ValueDesc)
    requires Extends(r, d, e, at, x, y, copy)
    ensures A.ValuesAgree(r, e) && forall id :: id in SourcesOf(e) ==> A.Root(r, e, id).Some?
  {
    hide A.InstructionsAgree, A.OutputsAgree, A.TargetsOk, A.TransfersOk, A.Sources, A.FindDesc, A.Ids, A.Producers, A.Root, A.SameDesc, Redirected, Copies, Step, Copied;
    ExtendsStep(r, d, e, at, x, y, copy);
    forall id | id in A.Ids(r) ensures A.SameDesc(A.FindDesc(r.values, id), A.FindDesc(e.values, id)) {
      FindAppended(d.values, copy, id);
    }
    forall id | id in SourcesOf(e)
      ensures A.Root(r, e, id).Some? && A.Root(r, e, SourcesOf(e)[id]).Some?
      ensures A.SameDesc(A.FindDesc(r.values, A.Root(r, e, SourcesOf(e)[id]).value), A.FindDesc(e.values, id))
    {
      TransfersResolve(r, d, e, at, x, y, copy, id);
    }
  }

  lemma OutputsStay(r: RuntimePlan, d: RuntimePlan, e: RuntimePlan, at: nat, x: ValueId, y: ValueId, copy: ValueDesc)
    requires Extends(r, d, e, at, x, y, copy)
    ensures A.OutputsAgree(r, e)
  {
    hide A.InstructionsAgree, A.ValuesAgree, A.TargetsOk, A.TransfersOk, A.Sources, A.FindDesc, A.Ids, A.Producers, A.Root, Redirected, Copies, Copied;
    forall i | 0 <= i < |d.finalOutputs| ensures A.Root(r, e, e.finalOutputs[i]) == A.Root(r, d, d.finalOutputs[i]) {
      assert d.finalOutputs[i] in d.finalOutputs;
      RootStays(r, d, e, at, x, y, copy, d.finalOutputs[i], e.finalOutputs[i]);
    }
  }

  lemma WorkStays(r: RuntimePlan, d: RuntimePlan, e: RuntimePlan, at: nat, x: ValueId, y: ValueId, copy: ValueDesc, n: nat, expected: Body)
    requires Extends(r, d, e, at, x, y, copy) && n < |Instructions(e)| && n != at && !Instructions(e)[n].body.Comm?
    requires Unshifted(at, n) < |Instructions(d)| && Redirected(Instructions(d)[Unshifted(at, n)].body, Instructions(e)[n].body, x, y)
    requires A.SameWork(A.Ids(r), SourcesOf(d), Instructions(d)[Unshifted(at, n)].body, expected)
    ensures A.SameWork(A.Ids(r), SourcesOf(e), Instructions(e)[n].body, expected)
  {
    hide Extends, A.Resolve, A.Sources, A.Ids, A.SamePayload;
    var body, next := Instructions(d)[Unshifted(at, n)].body, Instructions(e)[n].body;
    if body.Compute? {
      forall i | 0 <= i < |body.op.inputs|
        ensures A.Resolve(A.Ids(r), SourcesOf(e), next.op.inputs[i], {}) == A.Resolve(A.Ids(r), SourcesOf(d), body.op.inputs[i], {})
      {
        assert body.op.inputs[i] in Uses(body);
        UseIsOld(r, d, e, at, x, y, copy, Unshifted(at, n), body.op.inputs[i]);
        RootStays(r, d, e, at, x, y, copy, body.op.inputs[i], next.op.inputs[i]);
      }
    }
  }

  lemma UseIsOld(r: RuntimePlan, d: RuntimePlan, e: RuntimePlan, at: nat, x: ValueId, y: ValueId, copy: ValueDesc, n: nat, id: ValueId)
    requires Extends(r, d, e, at, x, y, copy) && n < |Instructions(d)| && id in Uses(Instructions(d)[n].body)
    ensures id != y
  {
    hide A.Aligned, Inserted, Copied;
  }

  /** Where an instruction that is no transfer came from; its output and its work stay. */
  lemma InstructionStays(r: RuntimePlan, d: RuntimePlan, e: RuntimePlan, at: nat, x: ValueId, y: ValueId, copy: ValueDesc, n: nat)
    requires Extends(r, d, e, at, x, y, copy) && n < |Instructions(e)| && !Instructions(e)[n].body.Comm?
    ensures n != at && Unshifted(at, n) < |Instructions(d)| && !Instructions(d)[Unshifted(at, n)].body.Comm?
    ensures A.OutputOf(Instructions(e)[n].body) == A.OutputOf(Instructions(d)[Unshifted(at, n)].body)
    ensures A.OutputOf(Instructions(e)[n].body) in A.Producers(Instructions(r), |Instructions(r)|)
    ensures A.SameWork(A.Ids(r), SourcesOf(e), Instructions(e)[n].body,
      A.Producers(Instructions(r), |Instructions(r)|)[A.OutputOf(Instructions(e)[n].body)].body)
  {
    hide Extends, A.Sources, A.Ids, A.Producers, A.SameWork, Redirected, Copies, Step, A.TransfersOk, Longer;
    var known, producers := A.Ids(r), A.Producers(Instructions(r), |Instructions(r)|);
    var before, next := Instructions(d), Instructions(e);
    ExtendsStep(r, d, e, at, x, y, copy);
    StepFacts(known, before, next, at, x, y);
    CopyIsMove(next[at].body, x, y);
    AlignedWork(r, d, e, at, x, y, copy);
    MoveAt(known, before, next, at, x, y, n);
    RedirectedMove(before[Unshifted(at, n)].body, next[n].body, x, y);
    WorkStays(r, d, e, at, x, y, copy, n, producers[A.OutputOf(next[n].body)].body);
  }

  lemma ProducerStays(r: RuntimePlan, d: RuntimePlan, e: RuntimePlan, at: nat, x: ValueId, y: ValueId, copy: ValueDesc, id: ValueId)
      returns (n: nat)
    requires Extends(r, d, e, at, x, y, copy) && id in A.Producers(Instructions(r), |Instructions(r)|)
    ensures n < |Instructions(e)| && !Instructions(e)[n].body.Comm? && A.OutputOf(Instructions(e)[n].body) == id
  {
    hide Extends, A.Sources, A.Ids, A.Producers, A.SameWork, Redirected, Copies, Step, A.TransfersOk, Longer;
    var before, next := Instructions(d), Instructions(e);
    ExtendsStep(r, d, e, at, x, y, copy);
    StepFacts(A.Ids(r), before, next, at, x, y);
    AlignedWork(r, d, e, at, x, y, copy);
    var m :| 0 <= m < |before| && !before[m].body.Comm? && A.OutputOf(before[m].body) == id;
    n := Shifted(at, m);
    MoveAt(A.Ids(r), before, next, at, x, y, n);
    RedirectedMove(before[m].body, next[n].body, x, y);
  }

  lemma InstructionsStay(r: RuntimePlan, d: RuntimePlan, e: RuntimePlan, at: nat, x: ValueId, y: ValueId, copy: ValueDesc)
    requires Extends(r, d, e, at, x, y, copy)
    ensures A.InstructionsAgree(A.Ids(r), A.Producers(Instructions(r), |Instructions(r)|), SourcesOf(e), Instructions(e))
  {
    hide Extends, A.Sources, A.Ids, A.Producers, A.SameWork;
    var known, producers := A.Ids(r), A.Producers(Instructions(r), |Instructions(r)|);
    var before, next := Instructions(d), Instructions(e);
    AlignedWork(r, d, e, at, x, y, copy);
    forall n | 0 <= n < |next| && !next[n].body.Comm?
      ensures n != at && Unshifted(at, n) < |before| && !before[Unshifted(at, n)].body.Comm?
      ensures A.OutputOf(next[n].body) == A.OutputOf(before[Unshifted(at, n)].body)
      ensures A.OutputOf(next[n].body) in producers
      ensures A.SameWork(known, SourcesOf(e), next[n].body, producers[A.OutputOf(next[n].body)].body)
    {
      InstructionStays(r, d, e, at, x, y, copy, n);
    }
    forall id | id in producers ensures exists n :: 0 <= n < |next| && !next[n].body.Comm? && A.OutputOf(next[n].body) == id {
      var n := ProducerStays(r, d, e, at, x, y, copy, id);
    }
  }

  lemma AlignedWork(r: RuntimePlan, d: RuntimePlan, e: RuntimePlan, at: nat, x: ValueId, y: ValueId, copy: ValueDesc)
    requires Extends(r, d, e, at, x, y, copy)
    ensures A.InstructionsAgree(A.Ids(r), A.Producers(Instructions(r), |Instructions(r)|), SourcesOf(d), Instructions(d))
  {
    hide A.InstructionsAgree, A.Sources, A.Producers, A.Ids, Inserted, Fresh, Copied;
  }

  /** If a pair aligns, so does the pair with one more point-to-point transfer, at any position, of a reference value
      or a copy, to a fresh identifier of the same metadata, with any of its uses redirected to the new value. */
  lemma InsertionAligns(r: RuntimePlan, d: RuntimePlan, e: RuntimePlan, at: nat, x: ValueId, y: ValueId, copy: ValueDesc)
    requires A.Aligned(r, d) && Inserted(d, e, at, x, y, copy) && Fresh(d, y) && Copied(r, d, x, copy)
    ensures A.Aligned(r, e)
  {
    hide Inserted, Fresh, Copied, A.TargetsOk, A.TransfersOk, A.ValuesAgree, A.InstructionsAgree, A.OutputsAgree, A.ReferenceOk;
    hide A.Root, A.Sources, A.Producers, A.Ids, Step, Longer;
    ExtendsStep(r, d, e, at, x, y, copy);
    TargetsStay(r, d, e, at, x, y, copy);
    ValuesStay(r, d, e, at, x, y, copy);
    InstructionsStay(r, d, e, at, x, y, copy);
    OutputsStay(r, d, e, at, x, y, copy);
  }
}
