/** Posting a communication, the first and the last state of a rank, and the absence of errors on accepted programs. */
module RankRun {
  import opened Wrappers
  import opened Plan
  import opened Rules
  import opened Vec
  import opened Semantics
  import opened Widths
  import opened RankState
  import opened RankInvariant
  import opened RankSteps

  /** The effect of a post: the local outputs become pending slots of one new group. */
  ghost predicate Posted(p: Program, r: int, l: Local, n: nat, action: CommAction, m: Local) {
    var group := MakeGroup(action, r, n);
    && m.uses == l.uses
    && m.groups == l.groups + [group]
    && (forall id :: id in m.store <==> id in l.store || id in group.outputIds)
    && (forall k :: 0 <= k < |group.outputIds| ==> group.outputIds[k] in p.Table() && group.outputIds[k] in m.store)
    && (forall k :: 0 <= k < |group.outputIds| ==>
      m.store[group.outputIds[k]] == Pending(p.Table()[group.outputIds[k]].place, |l.groups|, k))
    && (forall id :: id in l.store ==> id !in group.outputIds && m.store[id] == l.store[id])
  }

  lemma PostEffect(p: Program, r: int, l: Local, n: nat, action: CommAction)
    requires CommTyped(p, action)
    requires forall id :: id in action.outputs ==> id !in l.store
    ensures PostComm(r, l, n, action).Success?
    ensures Posted(p, r, l, n, action, PostComm(r, l, n, action).value)
  {
    hide DescMap, LocalSlots, Distinct, DefinePending;
    LocalParts(p, action, r);
    var group := MakeGroup(action, r, n);
    var places := Pick(action.destinations, group.slots);
    DefinePendingEffect(l.store, group.outputIds, places, |l.groups|, 0);
    assert group.outputIds[0..] == group.outputIds;
  }

  /** The local sources have been made ready. */
  ghost predicate SourcesReady(store: Store, ids: seq<ValueId>) {
    forall id :: id in ids ==> id in store && store[id].Ready?
  }

  lemma OutputsAbsent(p: Program, r: int, retain: bool, n: nat, l: Local)
    requires n < |p.Code()| && SsaOk(p.plan, n) && StoreInv(p, r, retain, n, l)
    ensures forall id :: id in Defs(p.Code()[n].body) ==> id !in l.store
  {
    hide DescMap, DefinedBefore;
  }

  lemma PostKeepsGroups(p: Program, r: int, n: nat, groups: seq<Group>, action: CommAction)
    requires n < |p.Code()| && p.Code()[n].body == Comm(action) && GroupsInv(p, r, n, groups)
    ensures GroupsInv(p, r, n + 1, groups + [MakeGroup(action, r, n)])
  {
    hide DescMap;
    var after := groups + [MakeGroup(action, r, n)];
    forall g | 0 <= g < |after| ensures GroupOk(p, r, n + 1, g, after[g]) {
      if g < |groups| {
        assert GroupOk(p, r, n, g, groups[g]);
      }
    }
  }

  lemma PostKeepsUses(p: Program, r: int, retain: bool, n: nat, l: Local, action: CommAction, m: Local)
    requires n < |p.Code()| && p.Code()[n].body == Comm(action)
    requires UsesInv(p, r, retain, n, l) && Posted(p, r, l, n, action, m)
    ensures UsesInv(p, r, retain, n + 1, m)
  {
    hide DescMap, DefinedBefore, PendingUses, FinalUse, TotalUses, LocalSlots;
    DefinedMonotone(p.plan, n, n + 1);
    if !retain {
      forall id | id in m.uses ensures m.uses[id] == Need(p, r, n + 1, m.groups, id) {
        PendingAppend(l.groups, MakeGroup(action, r, n), id);
        assert l.uses[id] == Need(p, r, n, l.groups, id);
      }
    }
  }

  lemma PostKeepsKeys(p: Program, r: int, retain: bool, n: nat, l: Local, action: CommAction, m: Local)
    requires n < |p.Code()| && p.Code()[n].body == Comm(action) && CommTyped(p, action) && SsaOk(p.plan, n)
    requires StoreInv(p, r, retain, n, l) && UsesInv(p, r, retain, n, l) && Posted(p, r, l, n, action, m)
    ensures forall id :: id in m.store <==> Here(p, r, n + 1, id) && Live(retain, m.uses, id)
  {
    hide DescMap, DefinedBefore, PendingUses, UsesFrom, FinalUse, TotalUses, Validates, Meaning, LocalSlots, Pick, EntryOk, OpenOk;
    DefinedNext(p.plan, n);
    LocalParts(p, action, r);
    forall id ensures id in m.store <==> Here(p, r, n + 1, id) && Live(retain, m.uses, id) {
      assert id in action.outputs <==> id in Defs(p.Code()[n].body);
    }
  }

  lemma PostKeepsEntries(p: Program, r: int, retain: bool, n: nat, l: Local, action: CommAction, m: Local)
    requires n < |p.Code()| && StoreInv(p, r, retain, n, l) && Posted(p, r, l, n, action, m)
    ensures forall id :: id in m.store ==> EntryOk(p, m.groups, id, m.store[id])
  {
    hide DescMap, DefinedBefore, Validates, Meaning, LocalSlots, Pick, OpenOk;
    forall id | id in m.store ensures EntryOk(p, m.groups, id, m.store[id]) {
      if id in l.store {
        assert EntryOk(p, l.groups, id, l.store[id]);
      } else {
        var group := MakeGroup(action, r, n);
        var k :| 0 <= k < |group.outputIds| && group.outputIds[k] == id;
      }
    }
  }

  lemma PostKeepsOpen(p: Program, r: int, retain: bool, n: nat, l: Local, action: CommAction, m: Local)
    requires n < |p.Code()| && StoreInv(p, r, retain, n, l) && Posted(p, r, l, n, action, m)
    requires SourcesReady(l.store, LocalInputs(action, r))
    ensures forall h :: 0 <= h < |m.groups| ==> OpenOk(m.store, h, m.groups[h])
  {
    hide DescMap, DefinedBefore, Validates, Meaning, LocalSlots, Pick, EntryOk;
    forall h | 0 <= h < |m.groups| ensures OpenOk(m.store, h, m.groups[h]) {
      if h < |l.groups| {
        assert OpenOk(l.store, h, l.groups[h]);
      }
    }
  }

  lemma PostKeeps(
      p: Program, loaded: LoadedSpec, skip: bool, r: int, retain: bool, n: nat, l: Local, action: CommAction)
    requires WellFormed(p.plan, loaded, skip) && n < |p.Code()| && LocalInv(p, r, retain, n, l)
    requires p.Code()[n].body == Comm(action) && SourcesReady(l.store, LocalInputs(action, r))
    ensures PostComm(r, l, n, action).Success?
    ensures LocalInv(p, r, retain, n + 1, PostComm(r, l, n, action).value)
    ensures PostComm(r, l, n, action).value.groups == l.groups + [MakeGroup(action, r, n)]
  {
    hide DescMap, DefinedBefore, UsesInv, GroupsInv, CommTyped, WellFormed, PostComm, CommRule;
    InstructionFacts(p, loaded, skip, n);
    CommFacts(p, loaded, skip, n);
    OutputsAbsent(p, r, retain, n, l);
    assert forall id :: id in action.outputs ==> id in Defs(p.Code()[n].body);
    PostEffect(p, r, l, n, action);
    var m := PostComm(r, l, n, action).value;
    PostKeepsGroups(p, r, n, l.groups, action);
    PostKeepsUses(p, r, retain, n, l, action, m);
    PostKeepsKeys(p, r, retain, n, l, action, m);
    PostKeepsEntries(p, r, retain, n, l, action, m);
    PostKeepsOpen(p, r, retain, n, l, action, m);
  }

  // ---- The first state ----

  lemma {:induction false} UseWitness(code: seq<Instruction>, r: int, n: nat, id: ValueId) returns (k: nat)
    requires n <= |code| && UsesFrom(code, r, n, id) > 0
    ensures n <= k < |code| && UsesIn(code[k].body, r, id) > 0
    decreases |code| - n
  {
    if UsesIn(code[n].body, r, id) > 0 {
      k := n;
    } else {
      k := UseWitness(code, r, n + 1, id);
    }
  }

  lemma UsedIsInTable(p: Program, loaded: LoadedSpec, skip: bool, r: int, id: ValueId)
    requires WellFormed(p.plan, loaded, skip) && TotalUses(p, r, id) > 0
    ensures id in p.Table()
  {
    hide HeaderOk, ValuesOk, InputsOk, OutputsOk, InstructionOk, DescMap, DefinedBefore;
    if UsesFrom(p.Code(), r, 0, id) > 0 {
      var k := UseWitness(p.Code(), r, 0, id);
      InstructionFacts(p, loaded, skip, k);
      UseIsRead(p.Code()[k].body, r, id);
      DefinedMonotone(p.plan, k, |p.Code()|);
    }
  }

  lemma UseIsRead(body: Body, r: int, id: ValueId)
    requires UsesIn(body, r, id) > 0
    ensures id in Uses(body)
  {
  }

  lemma BindKeeps(p: Program, loaded: LoadedSpec, skip: bool, r: int, retain: bool, given: set<ValueId>)
    requires WellFormed(p.plan, loaded, skip) && BindInputs(p, r, retain, given).Success?
    ensures LocalInv(p, r, retain, 0, BindInputs(p, r, retain, given).value)
  {
    hide WellFormed, DescMap, Validates, BindInputs, StoreInv, UsesInv;
    BoundUses(p, loaded, skip, r, retain, given);
    BoundStore(p, loaded, skip, r, retain, given);
  }

  lemma BoundUses(p: Program, loaded: LoadedSpec, skip: bool, r: int, retain: bool, given: set<ValueId>)
    requires WellFormed(p.plan, loaded, skip) && BindInputs(p, r, retain, given).Success?
    ensures var l := BindInputs(p, r, retain, given).value; l.groups == [] && UsesInv(p, r, retain, 0, l)
  {
    hide WellFormed, DescMap, Validates, DefinedBefore, UsesFrom, FinalUse, LocalExternals;
    var l := BindInputs(p, r, retain, given).value;
    forall id ensures id in l.uses <==> !retain && TotalUses(p, r, id) > 0 {
      if TotalUses(p, r, id) > 0 {
        UsedIsInTable(p, loaded, skip, r, id);
      }
    }
  }

  lemma BoundStore(p: Program, loaded: LoadedSpec, skip: bool, r: int, retain: bool, given: set<ValueId>)
    requires WellFormed(p.plan, loaded, skip) && BindInputs(p, r, retain, given).Success?
    ensures StoreInv(p, r, retain, 0, BindInputs(p, r, retain, given).value)
  {
    hide WellFormed, DescMap, Validates, Meaning, TotalUses;
    var l := BindInputs(p, r, retain, given).value;
    VerifiedIsSsa(p, loaded, skip);
    assert forall id :: id in DefinedBefore(p.plan, 0) <==> id in p.plan.externalInputs;
    forall id | id in l.store ensures EntryOk(p, l.groups, id, l.store[id]) {
      MeaningAt(p, 0, id);
    }
  }

  // ---- The last state ----

  ghost predicate AllCompleted(groups: seq<Group>) {
    forall g :: 0 <= g < |groups| ==> groups[g].completed
  }

  lemma {:induction false} NothingPending(groups: seq<Group>, id: ValueId)
    requires AllCompleted(groups)
    ensures PendingUses(groups, id) == 0
  {
    if groups != [] {
      NothingPending(groups[..|groups| - 1], id);
    }
  }

  /** What a run leaves on rank `r`: every local value, or the local final outputs and the values nothing reads. */
  predicate Kept(p: Program, r: int, retain: bool, id: ValueId) {
    id in p.Table() && p.Table()[id].place.rank == r && (retain || id in p.plan.finalOutputs || TotalUses(p, r, id) == 0)
  }

  /** Early release is exact: after the last instruction the store holds just those values, all ready. */
  lemma FinalStore(p: Program, loaded: LoadedSpec, skip: bool, r: int, retain: bool, l: Local)
    requires WellFormed(p.plan, loaded, skip) && LocalInv(p, r, retain, |p.Code()|, l) && AllCompleted(l.groups)
    ensures forall id :: id in l.store <==> Kept(p, r, retain, id)
    ensures forall id :: id in l.store ==>
      id in Meaning(p) && l.store[id] == Ready(p.Table()[id].place, Meaning(p)[id])
  {
    hide HeaderOk, ValuesOk, InputsOk, OutputsOk, InstructionOk, DescMap, Validates, DefinedBefore, Meaning;
    forall id ensures id in l.store <==> Kept(p, r, retain, id) {
      NothingPending(l.groups, id);
    }
    forall id | id in l.store
      ensures id in Meaning(p) && l.store[id] == Ready(p.Table()[id].place, Meaning(p)[id])
    {
      assert EntryOk(p, l.groups, id, l.store[id]);
    }
  }

  /** What rank `r` returns: the meanings of its values, all of them or the final outputs. */
  function Expected(p: Program, r: int, retain: bool): Artifact {
    map id | id in p.Table() && p.Table()[id].place.rank == r && (retain || id in p.plan.finalOutputs) && id in Meaning(p)
      :: ArtifactValue(p.Table()[id].place, Meaning(p)[id])
  }

  lemma PublishExpected(p: Program, loaded: LoadedSpec, skip: bool, r: int, retain: bool, l: Local)
    requires WellFormed(p.plan, loaded, skip) && LocalInv(p, r, retain, |p.Code()|, l) && AllCompleted(l.groups)
    ensures Publish(p, r, retain, l) == Success(Expected(p, r, retain))
  {
    hide WellFormed, LocalInv, AllCompleted, DescMap, Meaning, TotalUses;
    FinalStore(p, loaded, skip, r, retain, l);
    var artifact := MakeArtifact(p, r, retain, l.store);
    assert artifact.Keys == Expected(p, r, retain).Keys by {
      forall id ensures id in artifact <==> id in Expected(p, r, retain) {
        assert id in l.store <==> Kept(p, r, retain, id);
      }
    }
    assert artifact == Expected(p, r, retain);
  }

  // ---- No operation fails on a runnable program ----

  /** A verified plan on validated inputs of lengths its operations can work on, with its bundle contents loaded and
      no negative result scale: exactly the programs of which the sequential interpreter computes every value. */
  ghost predicate Runnable(p: Program, loaded: LoadedSpec, skip: bool) {
    Validated(p, loaded, skip) && ScalesRunnable(p) && WidthsFit(p)
  }

  lemma RunnableFacts(p: Program, loaded: LoadedSpec, skip: bool)
    requires Runnable(p, loaded, skip)
    ensures WellFormed(p.plan, loaded, skip)
    ensures Meaning(p).Keys == p.Table().Keys && AllMeasured(p, WidthsOf(p), Meaning(p))
  {
    hide WellFormed, GoodBlobs, ScalesRunnable, WidthsFit, AllMeasured, Meaning, Validates;
    RunsExactly(p, loaded, skip);
  }

  lemma MeaningValidates(p: Program, loaded: LoadedSpec, skip: bool, id: ValueId)
    requires Runnable(p, loaded, skip) && id in p.Table()
    ensures id in Meaning(p) && Validates(Meaning(p)[id], p.Table()[id], p.degree)
  {
    hide Validated, ScalesRunnable, WidthsFit, Meaning, DescMap, WidthsOf;
    RunnableFacts(p, loaded, skip);
    assert Measured(p, WidthsOf(p), id, Meaning(p)[id]);
  }

  /** Inputs that fill every slot. */
  lemma FullWidthRunnable(p: Program, loaded: LoadedSpec, skip: bool)
    requires Accepted(p, loaded, skip)
    ensures Runnable(p, loaded, skip) <==> ScalesRunnable(p)
  {
    hide HeaderOk, ValuesOk, OutputsOk, InstructionOk, GoodBlobs, ScalesRunnable, WidthsFit, Meaning, DescMap, DefinedBefore, AllMatch, AllMeasured;
    VerifiedPlansRun(p, loaded, skip);
    RunsExactly(p, loaded, skip);
  }

  /** Inputs of one common length, which is the full one if the plan encodes anything. */
  lemma UniformRunnable(p: Program, loaded: LoadedSpec, skip: bool, width: nat)
    requires Validated(p, loaded, skip) && UniformInputs(p, width)
    ensures Runnable(p, loaded, skip) <==> ScalesRunnable(p)
  {
    hide Validated, UniformInputs, ScalesRunnable, WidthsFit, Meaning, DescMap, AllMeasured;
    UniformRuns(p, loaded, skip, width);
    RunsExactly(p, loaded, skip);
  }

  /** With valid inputs, binding succeeds exactly when the rank is given its own external inputs. */
  lemma BindWorks(p: Program, loaded: LoadedSpec, skip: bool, r: int, retain: bool, given: set<ValueId>)
    requires Runnable(p, loaded, skip)
    ensures BindInputs(p, r, retain, given).Success? <==> given == LocalExternals(p, r)
  {
    hide WellFormed, ScalesRunnable, DescMap;
    if LocalExternals(p, r) <= given && |given| == |LocalExternals(p, r)| {
      SameSize(LocalExternals(p, r), given);
    }
  }

  lemma SameSize<T>(a: set<T>, b: set<T>)
    requires a <= b && |a| == |b|
    ensures a == b
  {
    assert |b - a| == |b| - |a|;
    assert b == a + (b - a);
  }

  lemma EncodeWorks(
      p: Program, loaded: LoadedSpec, skip: bool, r: int, retain: bool, n: nat, l: Local, payload: EncodePayload, output: ValueId)
    requires Runnable(p, loaded, skip) && n < |p.Code()| && LocalInv(p, r, retain, n, l)
    requires p.Code()[n].body == Encode(payload, output)
    ensures output in p.Table() && FinishEncode(p, l, payload, output).Success?
  {
    hide WellFormed, ScaleRunnable, DescMap, Meaning, UsesInv, GroupsInv, EncodeValue, DefinedBefore, EncodeRule;
    RunnableFacts(p, loaded, skip);
    InstructionFacts(p, loaded, skip, n);
    EncodeSound(p, loaded, skip, n);
    assert output in Defs(p.Code()[n].body);
    OutputsAbsent(p, r, retain, n, l);
  }

  lemma ComputeWorks(
      p: Program, loaded: LoadedSpec, skip: bool, r: int, retain: bool, n: nat, l: Local, op: ComputeOp, args: seq<Payload>)
    requires Runnable(p, loaded, skip) && n < |p.Code()| && LocalInv(p, r, retain, n, l)
    requires p.Code()[n].body == Compute(op) && op.place.rank == r
    requires Fetched(l.store, op.inputs, args) && |args| == |op.inputs|
    ensures FinishCompute(p, retain, l, op, args).Success?
  {
    hide Runnable, WellFormed, ScaleRunnable, DescMap, Meaning, UsesInv, GroupsInv, DefinedBefore, ComputeRule, SpecRule, ComputeNow, ReleaseAll, Validates;
    RunnableFacts(p, loaded, skip);
    InstructionFacts(p, loaded, skip, n);
    ComputedMeaning(p, loaded, skip, n, l, op, args);
    ComputedNow(p, loaded, skip, n, op, args);
    MeaningValidates(p, loaded, skip, op.output);
    assert op.output in Defs(p.Code()[n].body);
    OutputsAbsent(p, r, retain, n, l);
    forall id | id in op.inputs ensures id in l.store {
      var j :| 0 <= j < |op.inputs| && op.inputs[j] == id;
    }
    if !retain {
      OperandsCounted(p, r, retain, n, l);
    }
    AdvanceEffect(retain, l, op.inputs, op.output, Ready(op.place, ComputeNow(op, args).value));
  }

  lemma ComputedNow(p: Program, loaded: LoadedSpec, skip: bool, n: nat, op: ComputeOp, args: seq<Payload>)
    requires Runnable(p, loaded, skip) && n < |p.Code()| && p.Code()[n].body == Compute(op)
    requires HasAll(Meaning(p), op.inputs) && Operands(Meaning(p), op.inputs) == args
    ensures ComputeNow(op, args).Success? && op.output in p.Table()
  {
    hide WellFormed, ScaleRunnable, DescMap, Meaning, DefinedBefore, ComputeRule, SpecRule, ComputeNow;
    RunnableFacts(p, loaded, skip);
    VerifiedIsSsa(p, loaded, skip);
    MeaningEquation(p, n);
    InstructionFacts(p, loaded, skip, n);
    OutputInTable(p, loaded, skip, n);
    assert op.output in Defs(p.Code()[n].body);
  }

  lemma OutputInTable(p: Program, loaded: LoadedSpec, skip: bool, n: nat)
    requires WellFormed(p.plan, loaded, skip) && n < |p.Code()|
    ensures forall id :: id in Defs(p.Code()[n].body) ==> id in p.Table()
  {
    hide HeaderOk, ValuesOk, InputsOk, OutputsOk, InstructionOk, DescMap, DefinedBefore;
    DefinedNext(p.plan, n);
    DefinedMonotone(p.plan, n + 1, |p.Code()|);
  }

  /** Completing a group with the meanings of its outputs never fails. */
  lemma CompleteWorks(
      p: Program, loaded: LoadedSpec, skip: bool, r: int, retain: bool, n: nat, l: Local, g: nat, outputs: seq<Payload>)
    requires Runnable(p, loaded, skip) && n <= |p.Code()| && LocalInv(p, r, retain, n, l)
    requires g < |l.groups| && !l.groups[g].completed
    requires |outputs| == |l.groups[g].outputIds| && Faithful(p, l.groups[g].outputIds, outputs)
    ensures CompleteGroup(p, retain, l, g, outputs).Success?
  {
    hide Runnable, DescMap, Meaning, DefinedBefore, Validates, LocalInv, Install, ReleaseAll, Count, Distinct, WellFormed;
    RunnableFacts(p, loaded, skip);
    OpenIsCompletable(p, loaded, skip, r, retain, n, l, g);
    var ids := l.groups[g].outputIds;
    OpenOutputsHeld(p, r, retain, n, l, g);
    forall k | 0 <= k < |ids| ensures ids[k] in p.Table() && Validates(outputs[k], p.Table()[ids[k]], p.degree) {
      MeaningValidates(p, loaded, skip, ids[k]);
    }
    InstallWorks(p, l.store, ids, outputs, 0);
    InstallEffect(p, l.store, ids, outputs, 0);
    var store := Install(p, l.store, ids, outputs, 0).value;
    if retain {
      RetainKeeps(l.(store := store), l.groups[g].inputIds);
    } else {
      ReleaseAllEffect(l.(store := store), l.groups[g].inputIds);
    }
  }

  lemma OpenOutputsHeld(p: Program, r: int, retain: bool, n: nat, l: Local, g: nat)
    requires n <= |p.Code()| && LocalInv(p, r, retain, n, l) && g < |l.groups| && !l.groups[g].completed
    ensures forall k :: 0 <= k < |l.groups[g].outputIds| ==>
      l.groups[g].outputIds[k] in l.store && l.groups[g].outputIds[k] in p.Table()
  {
    hide DescMap, Meaning, DefinedBefore, Validates, UsesInv, GroupsInv;
    assert OpenOk(l.store, g, l.groups[g]);
  }
}
