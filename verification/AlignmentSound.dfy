/** Soundness of plan alignment: an accepted distributed plan computes, along transfer lineage, exactly the
    reference plan's values. */
module AlignmentSound {
  import opened Wrappers
  import opened Plan
  import opened Rules
  import opened Vec
  import opened Semantics
  import opened RankState
  import opened RankInvariant
  import opened RankSteps
  import opened RankRun
  import opened Protocol
  import opened ProtocolNode
  import opened ProtocolSafety
  import opened ProtocolCalm
  import opened ProtocolLiveness
  import opened ProtocolTheorems
  import A = Alignment

  lemma {:induction false} FindIsLookup(values: seq<ValueDesc>, id: ValueId)
    requires UniqueIds(values)
    ensures A.FindDesc(values, id) == if id in DescMap(values) then Some(DescMap(values)[id]) else None
  {
    hide DescMap, A.FindDesc;
  }

  /** A resolution that succeeds with some identifiers active gives the same root with fewer active. */
  lemma {:induction false} FewerActive(known: set<ValueId>, sources: A.Lineage, id: ValueId, active: set<ValueId>, fewer: set<ValueId>)
    requires A.Resolve(known, sources, id, active).Some? && fewer <= active
    ensures A.Resolve(known, sources, id, fewer) == A.Resolve(known, sources, id, active)
    decreases |sources.Keys - active|
  {
    if id !in known {
      assert id in sources.Keys - active;
      A.Shrinks(sources.Keys - (active + {id}), sources.Keys - active);
      FewerActive(known, sources, sources[id], active + {id}, fewer + {id});
    }
  }

  /** A transfer output has the root of its source. */
  lemma TransferRoot(known: set<ValueId>, sources: A.Lineage, id: ValueId)
    requires id in sources && id !in known && A.Resolve(known, sources, id, {}).Some?
    ensures A.Resolve(known, sources, sources[id], {}) == A.Resolve(known, sources, id, {})
  {
    FewerActive(known, sources, sources[id], {} + {id}, {});
  }

  lemma {:induction false} RootIsKnown(known: set<ValueId>, sources: A.Lineage, id: ValueId, active: set<ValueId>)
    requires A.Resolve(known, sources, id, active).Some?
    ensures A.Resolve(known, sources, id, active).value in known
    decreases |sources.Keys - active|
  {
    if id !in known {
      assert id in sources.Keys - active;
      A.Shrinks(sources.Keys - (active + {id}), sources.Keys - active);
      RootIsKnown(known, sources, sources[id], active + {id});
    }
  }

  lemma {:induction false} SourceOf(code: seq<Instruction>, n: nat, i: nat)
    requires i < n <= |code| && A.IsPointToPoint(code[i].body)
    requires forall j, k :: 0 <= j < k < |code| && code[j].body.Comm? && code[k].body.Comm? && A.IsPointToPoint(code[j].body) && A.IsPointToPoint(code[k].body) ==>
      code[j].body.action.outputs[0] != code[k].body.action.outputs[0]
    ensures code[i].body.action.outputs[0] in A.Sources(code, n)
    ensures A.Sources(code, n)[code[i].body.action.outputs[0]] == code[i].body.action.inputs[0]
  {
    if i < n - 1 {
      SourceOf(code, n - 1, i);
    }
  }

  lemma {:induction false} ProducerOf(code: seq<Instruction>, n: nat, id: ValueId) returns (i: nat)
    requires n <= |code| && id in A.Producers(code, n)
    ensures i < n && !code[i].body.Comm? && A.OutputOf(code[i].body) == id && A.Producers(code, n)[id] == code[i]
  {
    if !code[n - 1].body.Comm? && A.OutputOf(code[n - 1].body) == id {
      i := n - 1;
    } else {
      i := ProducerOf(code, n - 1, id);
    }
  }

  /** The two programs: both plans verified, on the same degree, inputs and bundle contents. */
  ghost predicate Pair(r: Program, d: Program, loaded: LoadedSpec, skip: bool) {
    && WellFormed(r.plan, loaded, skip) && WellFormed(d.plan, loaded, skip)
    && r.degree == d.degree && r.inputs == d.inputs && r.blobs == d.blobs
    && A.Aligned(r.plan, d.plan)
  }

  /** `id` has a reference value and means the same, if anything. */
  ghost predicate Agrees(r: Program, d: Program, id: ValueId) {
    var root := A.Root(r.plan, d.plan, id);
    && root.Some? && root.value in r.Table()
    && (id in Meaning(d) <==> root.value in Meaning(r))
    && (id in Meaning(d) ==> Meaning(d)[id] == Meaning(r)[root.value])
  }

  lemma PairFacts(r: Program, d: Program, loaded: LoadedSpec, skip: bool)
    requires Pair(r, d, loaded, skip)
    ensures WellFormed(r.plan, loaded, skip) && WellFormed(d.plan, loaded, skip) && Ssa(r.plan) && Ssa(d.plan)
    ensures UniqueIds(r.plan.values) && UniqueIds(d.plan.values)
    ensures A.Ids(r.plan) == r.Table().Keys
    ensures r.plan.externalInputs == d.plan.externalInputs
    ensures forall id :: id in r.plan.externalInputs ==> id in r.Table()
  {
    hide HeaderOk, OutputsOk, InstructionOk, DescMap, DefinedBefore, DescOk, A.ReferenceOk, A.TransfersOk, A.ValuesAgree, A.InstructionsAgree, A.OutputsAgree, A.Root;
    VerifiedIsSsa(r, loaded, skip);
    VerifiedIsSsa(d, loaded, skip);
    assert forall id :: id in A.Ids(r.plan) <==> exists i :: 0 <= i < |r.plan.values| && r.plan.values[i].id == id;
  }

  lemma InputAgrees(r: Program, d: Program, loaded: LoadedSpec, skip: bool, id: ValueId)
    requires Pair(r, d, loaded, skip) && id in d.plan.externalInputs
    ensures Agrees(r, d, id)
  {
    hide Pair, DescMap, Meaning, WellFormed;
    PairFacts(r, d, loaded, skip);
    StartDefined(r.plan, id);
    StartDefined(d.plan, id);
    MeaningAt(r, 0, id);
    MeaningAt(d, 0, id);
    OwnRoot(r, d, id);
    SameStart(r, d, loaded, skip);
  }

  lemma SameStart(r: Program, d: Program, loaded: LoadedSpec, skip: bool)
    requires Pair(r, d, loaded, skip)
    ensures After(r, 0) == After(d, 0)
  {
    hide WellFormed, DescMap, A.ReferenceOk, A.TransfersOk, A.ValuesAgree, A.InstructionsAgree, A.OutputsAgree, A.Root;
  }

  lemma StartDefined(plan: RuntimePlan, id: ValueId)
    requires id in plan.externalInputs
    ensures id in DefinedBefore(plan, 0)
  {
  }

  lemma TransferAgrees(r: Program, d: Program, loaded: LoadedSpec, skip: bool, n: nat)
    requires Pair(r, d, loaded, skip) && n < |d.Code()| && d.Code()[n].body.Comm?
    requires forall id :: id in Uses(d.Code()[n].body) ==> Agrees(r, d, id)
    ensures forall id :: id in Defs(d.Code()[n].body) ==> Agrees(r, d, id)
  {
    hide WellFormed, DescMap, Meaning, A.TargetsOk, A.ReferenceOk, A.ValuesAgree, A.InstructionsAgree, A.OutputsAgree, A.Resolve;
    var action := d.Code()[n].body.action;
    var sources := A.Sources(d.Code(), |d.Code()|);
    PairFacts(r, d, loaded, skip);
    SourceOf(d.Code(), |d.Code()|, n);
    TransferRoot(A.Ids(r.plan), sources, action.outputs[0]);
    CommMeaning(d, loaded, skip, n);
    MeaningEquation(d, n);
    assert action.inputs[0] in Uses(d.Code()[n].body) && action.outputs[0] in Defs(d.Code()[n].body);
  }

  /** The result of an operation depends only on its kind, its attributes and its operands. */
  lemma SameComputation(a: ComputeOp, b: ComputeOp, args: seq<Payload>)
    requires a.kind == b.kind && a.attrs == b.attrs
    ensures ComputeNow(a, args) == ComputeNow(b, args)
  {
  }

  lemma ComputeAgrees(r: Program, d: Program, a: ComputeOp, b: ComputeOp)
    requires a.kind == b.kind && a.attrs == b.attrs && |a.inputs| == |b.inputs|
    requires forall i :: 0 <= i < |a.inputs| ==> Agrees(r, d, a.inputs[i]) && A.Root(r.plan, d.plan, a.inputs[i]) == Some(b.inputs[i])
    ensures Semantics.Result(d, Meaning(d), Compute(a)) == Semantics.Result(r, Meaning(r), Compute(b))
  {
    hide DescMap, Meaning, A.Root, ComputeNow;
    assert HasAll(Meaning(d), a.inputs) <==> HasAll(Meaning(r), b.inputs);
    if HasAll(Meaning(d), a.inputs) {
      assert Operands(Meaning(d), a.inputs) == Operands(Meaning(r), b.inputs);
      SameComputation(a, b, Operands(Meaning(r), b.inputs));
    }
  }

  /** Two encodes of the same payload under the same metadata give the same value; that the two zeros are
      taken to be equal is harmless, because an encode normalizes them. */
  lemma EncodeAgrees(r: Program, d: Program, a: EncodePayload, b: EncodePayload, id: ValueId)
    requires A.SamePayload(a, b) && r.degree == d.degree && r.blobs == d.blobs
    requires id in r.Table() && id in d.Table() && SameMetadata(r.Table()[id], d.Table()[id])
    ensures EncodeValue(d, a, id) == EncodeValue(r, b, id)
  {
    hide DescMap;
    match a
    case Bundle(_) =>
      if Literals(d, a).Some? {
        SameEncoding(r.degree, r.Table()[id], d.Table()[id], Literals(r, b).value, Literals(d, a).value);
      }
    case Inline(_) => SameEncoding(r.degree, r.Table()[id], d.Table()[id], Literals(r, b).value, Literals(d, a).value);
  }

  lemma SameEncoding(degree: nat, x: ValueDesc, y: ValueDesc, a: seq<Bits>, b: seq<Bits>)
    requires SameMetadata(x, y) && |a| == |b| && forall i :: 0 <= i < |a| ==> NormalizeZero(a[i]) == NormalizeZero(b[i])
    ensures EncodePlaintext(degree, x, a) == EncodePlaintext(degree, y, b)
  {
    hide NormalizeZero;
    var capacity := degree / 2;
    if EncodePlaintext(degree, x, a).Success? {
      assert EncodePlaintext(degree, x, a).value.slots == EncodePlaintext(degree, y, b).value.slots;
    }
  }

  /** The reference instruction that does the work of a distributed encode or compute. */
  lemma Counterpart(r: Program, d: Program, loaded: LoadedSpec, skip: bool, n: nat) returns (m: nat)
    requires Pair(r, d, loaded, skip) && n < |d.Code()| && !d.Code()[n].body.Comm?
    ensures m < |r.Code()| && !r.Code()[m].body.Comm? && A.OutputOf(r.Code()[m].body) == A.OutputOf(d.Code()[n].body)
    ensures A.SameWork(A.Ids(r.plan), A.Sources(d.Code(), |d.Code()|), d.Code()[n].body, r.Code()[m].body)
    ensures var id := A.OutputOf(d.Code()[n].body); id in r.Table() && id in d.Table() && id in A.Ids(r.plan)
  {
    hide WellFormed, DescMap, A.TargetsOk, A.ReferenceOk, A.TransfersOk, A.ValuesAgree, A.OutputsAgree, A.Root, A.Ids, A.Producers, A.Sources, A.SameWork;
    var id := A.OutputOf(d.Code()[n].body);
    PairFacts(r, d, loaded, skip);
    m := ProducerOf(r.Code(), |r.Code()|, id);
    OutputInTable(r, loaded, skip, m);
    OutputInTable(d, loaded, skip, n);
    assert id in Defs(d.Code()[n].body) && id in Defs(r.Code()[m].body);
  }

  /** The two plans give a shared identifier the same metadata. */
  lemma SharedMetadata(r: Program, d: Program, loaded: LoadedSpec, skip: bool, id: ValueId)
    requires Pair(r, d, loaded, skip) && id in r.Table() && id in d.Table() && id in A.Ids(r.plan)
    ensures SameMetadata(r.Table()[id], d.Table()[id])
  {
    hide WellFormed, DescMap, A.TargetsOk, A.ReferenceOk, A.TransfersOk, A.InstructionsAgree, A.OutputsAgree, A.Root, A.Ids, A.FindDesc, SameMetadata;
    PairFacts(r, d, loaded, skip);
    FindIsLookup(r.plan.values, id);
    FindIsLookup(d.plan.values, id);
  }

  /** A distributed encode or compute agrees with the reference instruction of the same output. */
  lemma WorkAgrees(r: Program, d: Program, loaded: LoadedSpec, skip: bool, n: nat)
    requires Pair(r, d, loaded, skip) && n < |d.Code()| && !d.Code()[n].body.Comm?
    requires forall id :: id in Uses(d.Code()[n].body) ==> Agrees(r, d, id)
    ensures forall id :: id in Defs(d.Code()[n].body) ==> Agrees(r, d, id)
  {
    hide WellFormed, DescMap, Meaning, A.Aligned, A.Root, A.Ids, A.Sources, EncodeValue, ComputeNow, Agrees;
    var m := Counterpart(r, d, loaded, skip, n);
    var body := d.Code()[n].body;
    var id := A.OutputOf(body);
    PairFacts(r, d, loaded, skip);
    match body {
      case Encode(payload, _) =>
        SharedMetadata(r, d, loaded, skip, id);
        EncodeAgrees(r, d, payload, r.Code()[m].body.payload, id);
      case Compute(op) =>
        OperandRoots(r, d, op, r.Code()[m].body);
        ComputeAgrees(r, d, op, r.Code()[m].body.op);
    }
    OutputAgrees(r, d, n, m);
    assert Defs(body) == [id];
  }

  lemma OutputAgrees(r: Program, d: Program, n: nat, m: nat)
    requires Ssa(r.plan) && Ssa(d.plan) && n < |d.Code()| && m < |r.Code()| && !d.Code()[n].body.Comm? && !r.Code()[m].body.Comm?
    requires var id := A.OutputOf(d.Code()[n].body); A.OutputOf(r.Code()[m].body) == id && id in r.Table() && id in A.Ids(r.plan)
    requires Semantics.Result(d, Meaning(d), d.Code()[n].body) == Semantics.Result(r, Meaning(r), r.Code()[m].body)
    ensures Agrees(r, d, A.OutputOf(d.Code()[n].body))
  {
    hide DescMap, Meaning, A.Root, A.Ids, Semantics.Result, SsaOk;
    var id := A.OutputOf(d.Code()[n].body);
    assert id in Defs(d.Code()[n].body) && id in Defs(r.Code()[m].body);
    MeaningEquation(r, m);
    MeaningEquation(d, n);
    OwnRoot(r, d, id);
  }

  lemma OperandRoots(r: Program, d: Program, op: ComputeOp, expected: Body)
    requires A.SameWork(A.Ids(r.plan), A.Sources(d.Code(), |d.Code()|), Compute(op), expected)
    requires forall id :: id in op.inputs ==> Agrees(r, d, id)
    ensures expected.Compute? && op.kind == expected.op.kind && op.attrs == expected.op.attrs && |op.inputs| == |expected.op.inputs|
    ensures forall i :: 0 <= i < |op.inputs| ==>
      Agrees(r, d, op.inputs[i]) && A.Root(r.plan, d.plan, op.inputs[i]) == Some(expected.op.inputs[i])
  {
    hide DescMap, Meaning, A.Sources, A.Ids, A.Resolve, Agrees;
  }

  lemma OwnRoot(r: Program, d: Program, id: ValueId)
    requires id in A.Ids(r.plan)
    ensures A.Root(r.plan, d.plan, id) == Some(id)
  {
  }

  /** Soundness, by induction over the distributed plan's own order, which need not be the reference's. */
  lemma {:induction false} DefinedAgrees(r: Program, d: Program, loaded: LoadedSpec, skip: bool, n: nat)
    requires Pair(r, d, loaded, skip) && n <= |d.Code()|
    ensures forall id :: id in DefinedBefore(d.plan, n) ==> Agrees(r, d, id)
  {
    hide Pair, Agrees, DescMap;
    if n == 0 {
      forall id | id in DefinedBefore(d.plan, 0) ensures Agrees(r, d, id) {
        InputAgrees(r, d, loaded, skip, id);
      }
    } else {
      DefinedAgrees(r, d, loaded, skip, n - 1);
      PairFacts(r, d, loaded, skip);
      assert SsaOk(d.plan, n - 1);
      DefinedNext(d.plan, n - 1);
      if d.Code()[n - 1].body.Comm? {
        TransferAgrees(r, d, loaded, skip, n - 1);
      } else {
        WorkAgrees(r, d, loaded, skip, n - 1);
      }
    }
  }

  /** The alignment theorem: when alignment accepts two verified plans, every value of the distributed plan
      has a reference value, and on the same inputs the two are equal, payload and metadata. */
  lemma AlignmentIsSound(r: Program, d: Program, loaded: LoadedSpec, skip: bool, id: ValueId)
    requires Pair(r, d, loaded, skip) && id in d.Table()
    ensures Agrees(r, d, id)
  {
    hide HeaderOk, Rules.ValuesOk, InputsOk, Rules.OutputsOk, InstructionOk, DescMap, DefinedBefore, Agrees, A.Aligned;
    DefinedAgrees(r, d, loaded, skip, |d.Code()|);
  }

  /** In particular the i-th final outputs are equal. */
  lemma FinalOutputsAgree(r: Program, d: Program, loaded: LoadedSpec, skip: bool, i: nat)
    requires Pair(r, d, loaded, skip) && i < |r.plan.finalOutputs|
    ensures i < |d.plan.finalOutputs|
    ensures var x, y := d.plan.finalOutputs[i], r.plan.finalOutputs[i];
      (x in Meaning(d) <==> y in Meaning(r)) && (x in Meaning(d) ==> Meaning(d)[x] == Meaning(r)[y])
  {
    hide HeaderOk, Rules.ValuesOk, InputsOk, InstructionOk, DescMap, DefinedBefore, Meaning, A.TargetsOk, A.ReferenceOk, A.TransfersOk, A.ValuesAgree, A.InstructionsAgree, A.Root;
    var x := d.plan.finalOutputs[i];
    assert x in d.plan.finalOutputs;
    AlignmentIsSound(r, d, loaded, skip, x);
  }

  /** Results do not depend on how many ranks share the work: whenever rank `q` of a run of the distributed
      plan and the single rank of a run of the reference plan finish, every value the distributed artifact
      holds equals the reference artifact's value of its lineage. */
  lemma DistributionIndependence(
      ref: Config, run: seq<State>, actions: seq<Action>, i: nat,
      dist: Config, run': seq<State>, actions': seq<Action>, i': nat, q: nat, loaded: LoadedSpec, skip: bool, id: ValueId)
    requires Pair(ref.program, dist.program, loaded, skip)
    requires IsRun(ref, run, actions) && i < |run| && |ref.ranks| > 0 && |run[i].nodes| > 0
    requires IsRun(dist, run', actions') && i' < |run'| && q < |dist.ranks| && q < |run'[i'].nodes|
    requires ref.ranks[0].retain && run[i].nodes[0].control.Finished? && run'[i'].nodes[q].control.Finished?
    requires id in run'[i'].nodes[q].control.artifact
    ensures var root := A.Root(ref.program.plan, dist.program.plan, id);
      && root.Some? && root.value in run[i].nodes[0].control.artifact
      && run'[i'].nodes[q].control.artifact[id].value == run[i].nodes[0].control.artifact[root.value].value
  {
    hide Pair, IsRun, Meaning, DescMap, A.Root;
    FinishedIsExpected(ref, run, actions, i, 0);
    FinishedIsExpected(dist, run', actions', i', q);
    AlignmentIsSound(ref.program, dist.program, loaded, skip, id);
    var root := A.Root(ref.program.plan, dist.program.plan, id).value;
    SingleRank(ref.program, dist.program, loaded, skip, root);
  }

  /** Every value of the reference plan lives on rank 0. */
  lemma SingleRank(r: Program, d: Program, loaded: LoadedSpec, skip: bool, id: ValueId)
    requires Pair(r, d, loaded, skip) && id in r.Table()
    ensures r.Table()[id].place == Place(Host, 0, 0)
  {
    hide DescMap, WellFormed, A.ReferenceOk, A.TransfersOk, A.ValuesAgree, A.InstructionsAgree, A.OutputsAgree, A.Root;
    TablePlaces(r, loaded, skip, id);
  }
}
