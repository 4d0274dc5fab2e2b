/** Every runtime operation takes a rank's memory from one good state to the next. */
module RankSteps {
  import opened Wrappers
  import opened Plan
  import opened Rules
  import opened Vec
  import opened Semantics
  import opened RankState
  import opened RankInvariant

  /** What every posted group of a good memory looks like. */
  lemma GroupFacts(p: Program, loaded: LoadedSpec, skip: bool, r: int, retain: bool, n: nat, l: Local, g: nat)
    requires WellFormed(p.plan, loaded, skip) && n <= |p.Code()| && LocalInv(p, r, retain, n, l) && g < |l.groups|
    ensures var group := l.groups[g]; var action := p.Code()[group.command].body.action;
      && group.command < n && p.Code()[group.command].body.Comm? && CommTyped(p, action)
      && action.inputs[0] in DefinedBefore(p.plan, group.command)
      && group.inputIds == (if action.sources[0].rank == r then [action.inputs[0]] else [])
      && Distinct(group.outputIds)
      && group.slots == LocalSlots(action.destinations, r)
      && |group.outputIds| == |group.slots|
      && (forall k :: 0 <= k < |group.slots| ==> group.slots[k] < |action.outputs| && group.outputIds[k] == action.outputs[group.slots[k]])
  {
    hide WellFormed, StoreInv, UsesInv, DefinedBefore, CommTyped, LocalSlots, DescMap;
    assert GroupOk(p, r, n, g, l.groups[g]);
    CommFacts(p, loaded, skip, l.groups[g].command);
    CommShapeFacts(p, p.Code()[l.groups[g].command].body.action);
    LocalParts(p, p.Code()[l.groups[g].command].body.action, r);
  }

  lemma CommShapeFacts(p: Program, action: CommAction)
    requires CommTyped(p, action)
    ensures |action.inputs| == |action.sources| == 1 && |action.outputs| == |action.destinations|
  {
  }

  /** The sources of an open group are held and still counted. */
  lemma OpenInputs(p: Program, r: int, retain: bool, n: nat, l: Local, g: nat)
    requires n <= |p.Code()| && LocalInv(p, r, retain, n, l) && g < |l.groups| && !l.groups[g].completed
    ensures forall id :: id in l.groups[g].inputIds ==> id in l.store && l.store[id].Ready?
    ensures !retain ==> forall id :: id in l.groups[g].inputIds ==>
      id in l.uses && l.uses[id] >= Count(l.groups[g].inputIds, id)
  {
    assert OpenOk(l.store, g, l.groups[g]);
    forall id | id in l.groups[g].inputIds && !retain
      ensures id in l.uses && l.uses[id] >= Count(l.groups[g].inputIds, id)
    {
      PendingAtLeast(l.groups, g, id);
      CountedIsUsed(p, r, retain, n, l, id);
    }
  }

  /** A value with a use to come is in the count table. */
  lemma CountedIsUsed(p: Program, r: int, retain: bool, n: nat, l: Local, id: ValueId)
    requires n <= |p.Code()| && GroupsInv(p, r, n, l.groups) && UsesInv(p, r, retain, n, l) && !retain
    requires UsesFrom(p.Code(), r, n, id) + PendingUses(l.groups, id) > 0
    ensures id in l.uses && l.uses[id] == Need(p, r, n, l.groups, id)
  {
    hide DescMap, DefinedBefore, GroupsInv, UsesFrom, PendingUses, FinalUse;
    if UsesFrom(p.Code(), r, n, id) > 0 {
      UsesSuffix(p.Code(), r, 0, n, id);
    } else {
      PostedIsUsed(p, r, n, l.groups, id);
    }
  }

  /** A pending use was counted when its send was planned. */
  lemma PostedIsUsed(p: Program, r: int, n: nat, groups: seq<Group>, id: ValueId)
    requires n <= |p.Code()| && GroupsInv(p, r, n, groups) && PendingUses(groups, id) > 0
    ensures UsesFrom(p.Code(), r, 0, id) > 0
  {
    hide DescMap, PendingUses, LocalSlots;
    var g := PendingWitness(groups, id);
    assert GroupOk(p, r, n, g, groups[g]);
    UsesSuffix(p.Code(), r, 0, groups[g].command, id);
    assert UsesIn(p.Code()[groups[g].command].body, r, id) > 0;
  }

  lemma {:induction false} UsesSuffix(code: seq<Instruction>, r: int, k: nat, n: nat, id: ValueId)
    requires k <= n <= |code|
    ensures UsesFrom(code, r, k, id) >= UsesFrom(code, r, n, id)
    decreases n - k
  {
    if k < n {
      UsesSuffix(code, r, k + 1, n, id);
    }
  }

  lemma {:induction false} PendingWitness(groups: seq<Group>, id: ValueId) returns (g: nat)
    requires PendingUses(groups, id) > 0
    ensures g < |groups| && !groups[g].completed && Count(groups[g].inputIds, id) > 0
  {
    var k := |groups| - 1;
    if !groups[k].completed && Count(groups[k].inputIds, id) > 0 {
      g := k;
    } else {
      g := PendingWitness(groups[..k], id);
    }
  }

  function Done(groups: seq<Group>, g: nat): seq<Group>
    requires g < |groups|
  {
    groups[g := groups[g].(completed := true)]
  }

  /** What must hold of an open group for its completion to be well behaved. */
  ghost predicate Completable(retain: bool, l: Local, g: nat) {
    && g < |l.groups|
    && Distinct(l.groups[g].outputIds)
    && (forall id :: id in l.groups[g].inputIds ==> id in l.store)
    && (!retain ==> forall id :: id in l.groups[g].inputIds ==>
      id in l.uses && l.uses[id] >= Count(l.groups[g].inputIds, id))
  }

  /** The effect of a completed group, spelled out. */
  ghost predicate Completed(p: Program, retain: bool, l: Local, g: nat, outputs: seq<Payload>, m: Local)
    requires g < |l.groups|
  {
    var group := l.groups[g];
    && m.groups == Done(l.groups, g)
    && |outputs| == |group.outputIds|
    && m.uses.Keys == l.uses.Keys
    && (retain ==> m.uses == l.uses)
    && (!retain ==> forall id :: id in l.uses ==> m.uses[id] + Count(group.inputIds, id) == l.uses[id])
    && (forall id :: id in m.store <==> id in l.store && (id !in group.inputIds || Live(retain, m.uses, id)))
    && (forall k :: 0 <= k < |outputs| ==> group.outputIds[k] in p.Table() && group.outputIds[k] in l.store)
    && (forall k :: 0 <= k < |outputs| ==> Validates(outputs[k], p.Table()[group.outputIds[k]], p.degree))
    && (forall k :: 0 <= k < |outputs| && group.outputIds[k] in m.store ==>
      m.store[group.outputIds[k]] == Ready(p.Table()[group.outputIds[k]].place, outputs[k]))
    && (forall id :: id in m.store && id !in group.outputIds ==> m.store[id] == l.store[id])
  }

  lemma CompleteEffect(p: Program, retain: bool, l: Local, g: nat, outputs: seq<Payload>)
    requires Completable(retain, l, g)
    requires CompleteGroup(p, retain, l, g, outputs).Success?
    ensures Completed(p, retain, l, g, outputs, CompleteGroup(p, retain, l, g, outputs).value)
  {
    hide Validates, DescMap, Install, ReleaseAll, Count, Distinct;
    var group := l.groups[g];
    InstallEffect(p, l.store, group.outputIds, outputs, 0);
    assert group.outputIds[0..] == group.outputIds;
    var store := Install(p, l.store, group.outputIds, outputs, 0).value;
    if retain {
      RetainKeeps(l.(store := store), group.inputIds);
    } else {
      ReleaseAllEffect(l.(store := store), group.inputIds);
    }
  }

  lemma OpenIsCompletable(p: Program, loaded: LoadedSpec, skip: bool, r: int, retain: bool, n: nat, l: Local, g: nat)
    requires WellFormed(p.plan, loaded, skip) && n <= |p.Code()| && LocalInv(p, r, retain, n, l)
    requires g < |l.groups| && !l.groups[g].completed
    ensures Completable(retain, l, g)
  {
    hide WellFormed, StoreInv, UsesInv, GroupsInv, DescMap, CommTyped;
    GroupFacts(p, loaded, skip, r, retain, n, l, g);
    OpenInputs(p, r, retain, n, l, g);
  }

  lemma {:induction false} RetainKeeps(l: Local, ids: seq<ValueId>)
    ensures ReleaseAll(true, l, ids) == Success(l)
    decreases |ids|
  {
    if ids != [] {
      RetainKeeps(l, ids[1..]);
    }
  }

  /** The received payloads are the meanings of the outputs they are received for. */
  ghost predicate Faithful(p: Program, ids: seq<ValueId>, outputs: seq<Payload>) {
    |outputs| == |ids| ==> forall k :: 0 <= k < |ids| ==> ids[k] in Meaning(p) && outputs[k] == Meaning(p)[ids[k]]
  }

  lemma CompleteKeepsGroups(p: Program, r: int, n: nat, groups: seq<Group>, g: nat)
    requires n <= |p.Code()| && GroupsInv(p, r, n, groups) && g < |groups|
    ensures GroupsInv(p, r, n, Done(groups, g))
  {
    hide DescMap;
    forall h | 0 <= h < |groups| ensures GroupOk(p, r, n, h, Done(groups, g)[h]) {
      assert GroupOk(p, r, n, h, groups[h]);
    }
  }

  lemma CompleteKeepsUses(p: Program, r: int, retain: bool, n: nat, l: Local, g: nat, outputs: seq<Payload>, m: Local)
    requires n <= |p.Code()| && g < |l.groups| && !l.groups[g].completed
    requires UsesInv(p, r, retain, n, l) && Completed(p, retain, l, g, outputs, m)
    requires forall id :: id in l.groups[g].inputIds ==> id in DefinedBefore(p.plan, n)
    ensures UsesInv(p, r, retain, n, m)
  {
    hide DescMap, DefinedBefore, PendingUses, UsesFrom, FinalUse, TotalUses, Validates;
    if !retain {
      forall id | id in m.uses ensures m.uses[id] == Need(p, r, n, m.groups, id) {
        PendingComplete(l.groups, g, id);
      }
    }
  }

  lemma CompleteKeepsStore(p: Program, r: int, retain: bool, n: nat, l: Local, g: nat, outputs: seq<Payload>, m: Local)
    requires n <= |p.Code()| && g < |l.groups| && !l.groups[g].completed
    requires LocalInv(p, r, retain, n, l) && Completed(p, retain, l, g, outputs, m)
    requires UsesInv(p, r, retain, n, m)
    requires Faithful(p, l.groups[g].outputIds, outputs)
    ensures StoreInv(p, r, retain, n, m)
  {
    hide DescMap, DefinedBefore, PendingUses, UsesFrom, FinalUse, TotalUses, Validates, Meaning, Count, GroupsInv, UsesInv;
    var group := l.groups[g];
    assert OpenOk(l.store, g, group);
    forall id ensures id in m.store <==> Here(p, r, n, id) && Live(retain, m.uses, id) {
      if id in group.inputIds {
        assert id in l.store;
      }
      UncountedStays(p, r, retain, n, l, g, outputs, m, id);
    }
    forall id | id in m.store ensures EntryOk(p, m.groups, id, m.store[id]) {
      assert EntryOk(p, l.groups, id, l.store[id]);
    }
    forall h | 0 <= h < |m.groups| ensures OpenOk(m.store, h, m.groups[h]) {
      if h != g && !m.groups[h].completed {
        OpenStays(p, r, retain, n, l, g, outputs, m, h);
      }
    }
  }

  /** Liveness of a value the group did not read is untouched. */
  lemma UncountedStays(p: Program, r: int, retain: bool, n: nat, l: Local, g: nat, outputs: seq<Payload>, m: Local, id: ValueId)
    requires n <= |p.Code()| && g < |l.groups| && Completed(p, retain, l, g, outputs, m)
    ensures id !in l.groups[g].inputIds ==> (Live(retain, m.uses, id) <==> Live(retain, l.uses, id))
    ensures Live(retain, m.uses, id) ==> Live(retain, l.uses, id)
  {
    hide DescMap, Validates;
  }

  /** Another open group keeps its pending outputs and its held sources. */
  lemma OpenStays(p: Program, r: int, retain: bool, n: nat, l: Local, g: nat, outputs: seq<Payload>, m: Local, h: nat)
    requires n <= |p.Code()| && g < |l.groups| && h < |l.groups| && h != g
    requires !l.groups[g].completed && !l.groups[h].completed
    requires LocalInv(p, r, retain, n, l) && Completed(p, retain, l, g, outputs, m) && UsesInv(p, r, retain, n, m)
    ensures OpenOk(m.store, h, m.groups[h])
  {
    hide DescMap, DefinedBefore, Validates, Meaning, Count, GroupsInv, UsesInv, Here, Live, EntryOk;
    assert OpenOk(l.store, g, l.groups[g]) && OpenOk(l.store, h, l.groups[h]);
    var group := l.groups[h];
    assert m.groups[h] == group;
    forall k | 0 <= k < |group.outputIds|
      ensures group.outputIds[k] in m.store && m.store[group.outputIds[k]] == l.store[group.outputIds[k]]
    {
      var id := group.outputIds[k];
      assert id !in l.groups[g].inputIds;
      assert id !in l.groups[g].outputIds;
    }
    forall k | 0 <= k < |group.inputIds|
      ensures group.inputIds[k] in m.store && m.store[group.inputIds[k]].Ready?
    {
      var id := group.inputIds[k];
      assert id in l.store && l.store[id].Ready?;
      assert id !in l.groups[g].outputIds;
      OpenNeeds(p, r, retain, n, l, g, m, h, id);
    }
  }

  lemma OpenNeeds(p: Program, r: int, retain: bool, n: nat, l: Local, g: nat, m: Local, h: nat, id: ValueId)
    requires n <= |p.Code()| && g < |l.groups| && h < |l.groups| && h != g
    requires m.groups == Done(l.groups, g) && !l.groups[h].completed && id in l.groups[h].inputIds
    requires UsesInv(p, r, retain, n, m)
    ensures Live(retain, m.uses, id)
  {
    PendingAtLeast(m.groups, h, id);
  }

  /** Completing an open group with faithful payloads keeps the memory good, whatever the caller is in the
      middle of: values already ready and still needed stay as they are. */
  lemma CompleteKeeps(
      p: Program, loaded: LoadedSpec, skip: bool, r: int, retain: bool, n: nat, l: Local, g: nat, outputs: seq<Payload>)
    requires WellFormed(p.plan, loaded, skip) && n <= |p.Code()| && LocalInv(p, r, retain, n, l)
    requires g < |l.groups| && !l.groups[g].completed && Faithful(p, l.groups[g].outputIds, outputs)
    requires CompleteGroup(p, retain, l, g, outputs).Success?
    ensures var m := CompleteGroup(p, retain, l, g, outputs).value;
      && LocalInv(p, r, retain, n, m)
      && m.groups == Done(l.groups, g)
      && forall id :: id in m.store ==> id in l.store && (l.store[id].Ready? ==> m.store[id] == l.store[id])
  {
    hide DescMap, DefinedBefore, Validates, Meaning, Count, StoreInv, GroupsInv, UsesInv, WellFormed, CompleteGroup, CommTyped, Faithful;
    var m := CompleteGroup(p, retain, l, g, outputs).value;
    OpenIsCompletable(p, loaded, skip, r, retain, n, l, g);
    CompleteEffect(p, retain, l, g, outputs);
    CompleteKeepsGroups(p, r, n, l.groups, g);
    GroupFacts(p, loaded, skip, r, retain, n, l, g);
    forall id | id in l.groups[g].inputIds ensures id in DefinedBefore(p.plan, n) {
      DefinedMonotone(p.plan, l.groups[g].command, n);
    }
    CompleteKeepsUses(p, r, retain, n, l, g, outputs, m);
    CompleteKeepsStore(p, r, retain, n, l, g, outputs, m);
    ReadyStays(p, r, retain, n, l, g, outputs, m);
  }

  lemma ReadyStays(p: Program, r: int, retain: bool, n: nat, l: Local, g: nat, outputs: seq<Payload>, m: Local)
    requires n <= |p.Code()| && g < |l.groups| && !l.groups[g].completed
    requires StoreInv(p, r, retain, n, l) && Completed(p, retain, l, g, outputs, m)
    ensures forall id :: id in m.store ==> id in l.store && (l.store[id].Ready? ==> m.store[id] == l.store[id])
  {
    hide DescMap, DefinedBefore, Validates, Meaning, Count;
    assert OpenOk(l.store, g, l.groups[g]);
  }

  // ---- Encode and compute ----

  /** One new ready value, and one use less for every occurrence of an operand. */
  ghost predicate Advanced(retain: bool, l: Local, ids: seq<ValueId>, output: ValueId, e: Entry, m: Local) {
    && output !in l.store
    && m.groups == l.groups
    && m.uses.Keys == l.uses.Keys
    && (retain ==> m.uses == l.uses)
    && (!retain ==> forall id :: id in l.uses ==> m.uses[id] + Count(ids, id) == l.uses[id])
    && (forall id :: id in m.store <==> (id in l.store || id == output) && (id !in ids || Live(retain, m.uses, id)))
    && (forall id :: id in m.store ==> m.store[id] == if id == output then e else l.store[id])
  }

  lemma AdvanceEffect(retain: bool, l: Local, ids: seq<ValueId>, output: ValueId, e: Entry)
    requires output !in l.store && forall id :: id in ids ==> id in l.store
    requires !retain ==> forall id :: id in ids ==> id in l.uses && l.uses[id] >= Count(ids, id)
    ensures ReleaseAll(retain, l.(store := l.store[output := e]), ids).Success?
    ensures Advanced(retain, l, ids, output, e, ReleaseAll(retain, l.(store := l.store[output := e]), ids).value)
  {
    hide ReleaseAll, Count;
    var defined := l.(store := l.store[output := e]);
    if retain {
      RetainKeeps(defined, ids);
    } else {
      ReleaseAllEffect(defined, ids);
      var m := ReleaseAll(false, defined, ids).value;
      assert forall id :: id in l.uses && id !in ids ==> m.uses[id] == l.uses[id] && Count(ids, id) == 0;
    }
  }

  /** The operands of a local compute instruction are counted as often as they occur. */
  lemma OperandsCounted(p: Program, r: int, retain: bool, n: nat, l: Local)
    requires n < |p.Code()| && p.Code()[n].body.Compute? && p.Code()[n].body.op.place.rank == r && !retain
    requires GroupsInv(p, r, n, l.groups) && UsesInv(p, r, retain, n, l)
    ensures var ids := Uses(p.Code()[n].body); forall id :: id in ids ==> id in l.uses && l.uses[id] >= Count(ids, id)
  {
    hide DescMap;
    var ids := Uses(p.Code()[n].body);
    forall id | id in ids ensures id in l.uses && l.uses[id] >= Count(ids, id) {
      CountedIsUsed(p, r, retain, n, l, id);
    }
  }

  /** Moving past an instruction that is not a communication. */
  lemma CommCountStep(p: Program, r: int, n: nat, groups: seq<Group>)
    requires n < |p.Code()| && !p.Code()[n].body.Comm? && GroupsInv(p, r, n, groups)
    ensures GroupsInv(p, r, n + 1, groups)
  {
    hide DescMap;
    forall g | 0 <= g < |groups| ensures GroupOk(p, r, n + 1, g, groups[g]) {
      assert GroupOk(p, r, n, g, groups[g]);
    }
  }

  lemma AdvanceKeepsUses(p: Program, r: int, retain: bool, n: nat, l: Local, output: ValueId, e: Entry, m: Local)
    requires n < |p.Code()| && SsaOk(p.plan, n) && !p.Code()[n].body.Comm?
    requires UsesInv(p, r, retain, n, l) && Advanced(retain, l, Uses(p.Code()[n].body), output, e, m)
    requires forall id :: UsesIn(p.Code()[n].body, r, id) == Count(Uses(p.Code()[n].body), id)
    ensures UsesInv(p, r, retain, n + 1, m)
  {
    hide DescMap, DefinedBefore, PendingUses, FinalUse, TotalUses, UsesIn;
    DefinedMonotone(p.plan, n, n + 1);
    if !retain {
      forall id | id in m.uses ensures m.uses[id] == Need(p, r, n + 1, m.groups, id) {
        assert l.uses[id] == Need(p, r, n, l.groups, id);
      }
    }
  }

  lemma AdvanceKeepsStore(p: Program, r: int, retain: bool, n: nat, l: Local, output: ValueId, v: Payload, m: Local)
    requires n < |p.Code()| && SsaOk(p.plan, n) && Defs(p.Code()[n].body) == [output]
    requires output in p.Table() && p.Table()[output].place.rank == r
    requires output in Meaning(p) && Meaning(p)[output] == v && Validates(v, p.Table()[output], p.degree)
    requires StoreInv(p, r, retain, n, l) && UsesInv(p, r, retain, n, l) && UsesInv(p, r, retain, n + 1, m)
    requires Advanced(retain, l, Uses(p.Code()[n].body), output, Ready(p.Table()[output].place, v), m)
    requires forall id :: id in Uses(p.Code()[n].body) ==> id in l.store && l.store[id].Ready?
    ensures StoreInv(p, r, retain, n + 1, m)
  {
    hide DescMap, DefinedBefore, PendingUses, UsesFrom, FinalUse, TotalUses, Validates, Meaning;
    var ids := Uses(p.Code()[n].body);
    DefinedNext(p.plan, n);
    assert output in Defs(p.Code()[n].body);
    forall id ensures id in m.store <==> Here(p, r, n + 1, id) && Live(retain, m.uses, id) {
      AdvanceLive(retain, l, ids, output, Ready(p.Table()[output].place, v), m, id);
    }
    forall id | id in m.store ensures EntryOk(p, m.groups, id, m.store[id]) {
      if id != output {
        assert EntryOk(p, l.groups, id, l.store[id]);
      }
    }
    forall h | 0 <= h < |m.groups| ensures OpenOk(m.store, h, m.groups[h]) {
      AdvanceOpen(p, r, retain, n, l, output, v, m, h);
    }
  }

  lemma AdvanceLive(retain: bool, l: Local, ids: seq<ValueId>, output: ValueId, e: Entry, m: Local, id: ValueId)
    requires Advanced(retain, l, ids, output, e, m)
    ensures id !in ids ==> (Live(retain, m.uses, id) <==> Live(retain, l.uses, id))
    ensures Live(retain, m.uses, id) ==> Live(retain, l.uses, id)
  {
    hide DescMap;
  }

  lemma AdvanceOpen(p: Program, r: int, retain: bool, n: nat, l: Local, output: ValueId, v: Payload, m: Local, h: nat)
    requires n < |p.Code()| && h < |l.groups| && output in p.Table()
    requires StoreInv(p, r, retain, n, l) && UsesInv(p, r, retain, n + 1, m)
    requires Advanced(retain, l, Uses(p.Code()[n].body), output, Ready(p.Table()[output].place, v), m)
    requires forall id :: id in Uses(p.Code()[n].body) ==> id in l.store && l.store[id].Ready?
    ensures OpenOk(m.store, h, m.groups[h])
  {
    hide DescMap, DefinedBefore, Meaning, Count, UsesInv, EntryOk, Here, Live, Validates, Uses;
    assert OpenOk(l.store, h, l.groups[h]);
    var group := l.groups[h];
    if !group.completed {
      forall k | 0 <= k < |group.outputIds|
        ensures group.outputIds[k] in m.store && m.store[group.outputIds[k]] == l.store[group.outputIds[k]]
      {
        assert group.outputIds[k] !in Uses(p.Code()[n].body);
      }
      forall k | 0 <= k < |group.inputIds|
        ensures group.inputIds[k] in m.store && m.store[group.inputIds[k]].Ready?
      {
        var id := group.inputIds[k];
        PendingIsLive(p, r, retain, n + 1, m, h, id);
      }
    }
  }

  lemma PendingIsLive(p: Program, r: int, retain: bool, n: nat, m: Local, h: nat, id: ValueId)
    requires n <= |p.Code()| && h < |m.groups| && !m.groups[h].completed && id in m.groups[h].inputIds
    requires UsesInv(p, r, retain, n, m)
    ensures Live(retain, m.uses, id)
  {
    PendingAtLeast(m.groups, h, id);
  }

  /** The collected operands are the ready values of their identifiers. */
  ghost predicate Fetched(store: Store, ids: seq<ValueId>, args: seq<Payload>) {
    |args| <= |ids| && forall j :: 0 <= j < |args| ==>
      ids[j] in store && store[ids[j]].Ready? && store[ids[j]].value == args[j]
  }

  lemma ComputeKeeps(
      p: Program, loaded: LoadedSpec, skip: bool, r: int, retain: bool, n: nat, l: Local, op: ComputeOp, args: seq<Payload>)
    requires WellFormed(p.plan, loaded, skip) && n < |p.Code()| && LocalInv(p, r, retain, n, l)
    requires p.Code()[n].body == Compute(op) && op.place.rank == r
    requires Fetched(l.store, op.inputs, args) && |args| == |op.inputs|
    requires FinishCompute(p, retain, l, op, args).Success?
    ensures LocalInv(p, r, retain, n + 1, FinishCompute(p, retain, l, op, args).value)
  {
    hide DescMap, DefinedBefore, Validates, Meaning, Count, UsesInv, GroupsInv, ComputeNow, ReleaseAll, SpecRule, WellFormed;
    var m := FinishCompute(p, retain, l, op, args).value;
    var v := ComputeNow(op, args).value;
    InstructionFacts(p, loaded, skip, n);
    ComputedMeaning(p, loaded, skip, n, l, op, args);
    assert op.output !in l.store;
    forall id | id in op.inputs ensures id in l.store && l.store[id].Ready? {
      var j :| 0 <= j < |op.inputs| && op.inputs[j] == id;
    }
    if !retain {
      OperandsCounted(p, r, retain, n, l);
    }
    AdvanceEffect(retain, l, op.inputs, op.output, Ready(op.place, v));
    CommCountStep(p, r, n, l.groups);
    AdvanceKeepsUses(p, r, retain, n, l, op.output, Ready(op.place, v), m);
    AdvanceKeepsStore(p, r, retain, n, l, op.output, v, m);
  }

  /** The executor applied to the collected operands gives the output's meaning. */
  lemma ComputedMeaning(p: Program, loaded: LoadedSpec, skip: bool, n: nat, l: Local, op: ComputeOp, args: seq<Payload>)
    requires WellFormed(p.plan, loaded, skip) && n < |p.Code()| && p.Code()[n].body == Compute(op)
    requires Fetched(l.store, op.inputs, args) && |args| == |op.inputs|
    requires forall id :: id in l.store ==> EntryOk(p, l.groups, id, l.store[id])
    ensures HasAll(Meaning(p), op.inputs) && Operands(Meaning(p), op.inputs) == args
    ensures ComputeNow(op, args).Success? ==> op.output in Meaning(p) && Meaning(p)[op.output] == ComputeNow(op, args).value
  {
    hide DescMap, DefinedBefore, Validates, Meaning, ComputeNow, WellFormed;
    VerifiedIsSsa(p, loaded, skip);
    MeaningEquation(p, n);
    assert op.output in Defs(p.Code()[n].body);
    forall j | 0 <= j < |op.inputs| ensures op.inputs[j] in Meaning(p) && Meaning(p)[op.inputs[j]] == args[j] {
      assert EntryOk(p, l.groups, op.inputs[j], l.store[op.inputs[j]]);
    }
    assert Operands(Meaning(p), op.inputs) == args;
  }

  lemma EncodeKeeps(
      p: Program, loaded: LoadedSpec, skip: bool, r: int, retain: bool, n: nat, l: Local, payload: EncodePayload, output: ValueId)
    requires WellFormed(p.plan, loaded, skip) && n < |p.Code()| && LocalInv(p, r, retain, n, l)
    requires p.Code()[n].body == Encode(payload, output) && output in p.Table() && p.Table()[output].place.rank == r
    requires FinishEncode(p, l, payload, output).Success?
    ensures LocalInv(p, r, retain, n + 1, FinishEncode(p, l, payload, output).value)
  {
    hide DescMap, DefinedBefore, Validates, Meaning, UsesInv, GroupsInv, EncodeValue, WellFormed;
    var m := FinishEncode(p, l, payload, output).value;
    var v := EncodeValue(p, payload, output).value;
    InstructionFacts(p, loaded, skip, n);
    VerifiedIsSsa(p, loaded, skip);
    MeaningEquation(p, n);
    assert output in Defs(p.Code()[n].body);
    assert Advanced(retain, l, [], output, Ready(p.Table()[output].place, v), m);
    CommCountStep(p, r, n, l.groups);
    AdvanceKeepsUses(p, r, retain, n, l, output, Ready(p.Table()[output].place, v), m);
    AdvanceKeepsStore(p, r, retain, n, l, output, v, m);
  }

  /** An instruction of another rank changes nothing here. */
  lemma SkipKeeps(p: Program, loaded: LoadedSpec, skip: bool, r: int, retain: bool, n: nat, l: Local)
    requires WellFormed(p.plan, loaded, skip) && n < |p.Code()| && LocalInv(p, r, retain, n, l)
    requires match p.Code()[n].body
             case Encode(_, output) => output in p.Table() && p.Table()[output].place.rank != r
             case Compute(op) => op.place.rank != r
             case Comm(_) => false
    ensures LocalInv(p, r, retain, n + 1, l)
  {
    hide DescMap, DefinedBefore, WellFormed, KindRule, SpecRule, StoreInv, GroupsInv, UsesInv, Here, Need, BodyRule;
    var body := p.Code()[n].body;
    InstructionFacts(p, loaded, skip, n);
    CommCountStep(p, r, n, l.groups);
    DefinedNext(p.plan, n);
    ElsewhereDefined(p, loaded, skip, r, n);
    SkipKeepsUses(p, r, retain, n, l);
    SkipKeepsStore(p, r, retain, n, l);
  }

  /** The output of another rank's encode or compute lives there. */
  lemma ElsewhereDefined(p: Program, loaded: LoadedSpec, skip: bool, r: int, n: nat)
    requires WellFormed(p.plan, loaded, skip) && n < |p.Code()|
    requires match p.Code()[n].body
             case Encode(_, output) => output in p.Table() && p.Table()[output].place.rank != r
             case Compute(op) => op.place.rank != r
             case Comm(_) => false
    ensures forall id :: Here(p, r, n + 1, id) <==> Here(p, r, n, id)
    ensures DefinedBefore(p.plan, n) <= DefinedBefore(p.plan, n + 1)
  {
    hide DescMap, DefinedBefore, WellFormed, KindRule, SpecRule;
    InstructionFacts(p, loaded, skip, n);
    DefinedNext(p.plan, n);
  }

  lemma SkipKeepsUses(p: Program, r: int, retain: bool, n: nat, l: Local)
    requires n < |p.Code()| && UsesInv(p, r, retain, n, l)
    requires forall id :: UsesIn(p.Code()[n].body, r, id) == 0
    requires DefinedBefore(p.plan, n) <= DefinedBefore(p.plan, n + 1)
    ensures UsesInv(p, r, retain, n + 1, l)
  {
    hide DescMap, DefinedBefore, UsesIn, FinalUse, TotalUses, PendingUses;
  }

  lemma SkipKeepsStore(p: Program, r: int, retain: bool, n: nat, l: Local)
    requires n < |p.Code()| && StoreInv(p, r, retain, n, l)
    requires forall id :: Here(p, r, n + 1, id) <==> Here(p, r, n, id)
    ensures StoreInv(p, r, retain, n + 1, l)
  {
    hide DescMap, Here, EntryOk, OpenOk, Live;
  }
}
