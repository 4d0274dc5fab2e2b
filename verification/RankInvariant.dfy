/** What a rank's memory looks like between two instructions, and that every runtime operation keeps it so. */
module RankInvariant {
  import opened Wrappers
  import opened Plan
  import opened Rules
  import opened Vec
  import opened Semantics
  import opened RankState

  function CommCount(code: seq<Instruction>, n: nat): nat
    requires n <= |code|
  {
    if n == 0 then 0 else CommCount(code, n - 1) + if code[n - 1].body.Comm? then 1 else 0
  }

  /** `id` lives on rank `r` and has been defined by the inputs or one of the first `n` instructions. */
  ghost predicate Here(p: Program, r: int, n: nat, id: ValueId)
    requires n <= |p.Code()|
  {
    id in DefinedBefore(p.plan, n) && id in p.Table() && p.Table()[id].place.rank == r
  }

  predicate Live(retain: bool, uses: Counts, id: ValueId) {
    retain || id !in uses || uses[id] > 0
  }

  /** The uses of `id` still to come: unexecuted instructions, unfinished sends, and the final output. */
  function Need(p: Program, r: int, n: nat, groups: seq<Group>, id: ValueId): nat
    requires n <= |p.Code()|
  {
    UsesFrom(p.Code(), r, n, id) + PendingUses(groups, id) + FinalUse(p, r, id)
  }

  predicate GroupOk(p: Program, r: int, n: nat, g: nat, group: Group)
    requires n <= |p.Code()|
  {
    && group.command < n
    && p.Code()[group.command].body.Comm?
    && CommCount(p.Code(), group.command) == g
    && group == MakeGroup(p.Code()[group.command].body.action, r, group.command).(completed := group.completed)
  }

  ghost predicate GroupsInv(p: Program, r: int, n: nat, groups: seq<Group>)
    requires n <= |p.Code()|
  {
    && |groups| == CommCount(p.Code(), n)
    && forall g :: 0 <= g < |groups| ==> GroupOk(p, r, n, g, groups[g])
  }

  /** A ready value is the one the sequential interpreter computes, validated, at its own Place;
      a pending one names a slot of an unfinished group. */
  ghost predicate EntryOk(p: Program, groups: seq<Group>, id: ValueId, e: Entry) {
    && id in p.Table() && e.place == p.Table()[id].place
    && match e
       case Ready(_, v) => id in Meaning(p) && v == Meaning(p)[id] && Validates(v, p.Table()[id], p.degree)
       case Pending(_, g, k) =>
         g < |groups| && !groups[g].completed && k < |groups[g].outputIds| && groups[g].outputIds[k] == id
  }

  /** The outputs of an unfinished group are pending and its local sources are still held. */
  ghost predicate OpenOk(store: Store, g: nat, group: Group) {
    !group.completed ==>
      && (forall k :: 0 <= k < |group.outputIds| ==>
        group.outputIds[k] in store && store[group.outputIds[k]].Pending? &&
        store[group.outputIds[k]].group == g && store[group.outputIds[k]].slot == k)
      && (forall k :: 0 <= k < |group.inputIds| ==> group.inputIds[k] in store && store[group.inputIds[k]].Ready?)
  }

  ghost predicate StoreInv(p: Program, r: int, retain: bool, n: nat, l: Local)
    requires n <= |p.Code()|
  {
    && (forall id :: id in l.store <==> Here(p, r, n, id) && Live(retain, l.uses, id))
    && (forall id :: id in l.store ==> EntryOk(p, l.groups, id, l.store[id]))
    && (forall g :: 0 <= g < |l.groups| ==> OpenOk(l.store, g, l.groups[g]))
  }

  /** The count of a value is exactly its uses to come; a value not yet defined still has all of its uses. */
  ghost predicate UsesInv(p: Program, r: int, retain: bool, n: nat, l: Local)
    requires n <= |p.Code()|
  {
    if retain then l.uses == map[]
    else
      && (forall id :: id in l.uses <==> TotalUses(p, r, id) > 0)
      && (forall id :: id in l.uses ==> l.uses[id] == Need(p, r, n, l.groups, id))
      && (forall id :: id in l.uses && id !in DefinedBefore(p.plan, n) ==> l.uses[id] > 0)
  }

  /** The memory of rank `r` before instruction `n`. */
  ghost predicate LocalInv(p: Program, r: int, retain: bool, n: nat, l: Local)
    requires n <= |p.Code()|
  {
    && GroupsInv(p, r, n, l.groups)
    && StoreInv(p, r, retain, n, l)
    && UsesInv(p, r, retain, n, l)
  }

  // ---- Counting ----

  lemma CountAppend<T>(s: seq<T>, x: T, y: T)
    ensures Count(s + [x], y) == Count(s, y) + if x == y then 1 else 0
  {
    if s != [] {
      assert (s + [x])[1..] == s[1..] + [x];
    }
  }

  lemma {:induction false} PendingComplete(groups: seq<Group>, g: nat, id: ValueId)
    requires g < |groups| && !groups[g].completed
    ensures PendingUses(groups[g := groups[g].(completed := true)], id) + Count(groups[g].inputIds, id) == PendingUses(groups, id)
  {
    var after := groups[g := groups[g].(completed := true)];
    var k := |groups| - 1;
    if g < k {
      assert after[..k] == groups[..k][g := groups[g].(completed := true)];
      PendingComplete(groups[..k], g, id);
    } else {
      assert after[..k] == groups[..k];
    }
  }

  lemma PendingAppend(groups: seq<Group>, group: Group, id: ValueId)
    ensures PendingUses(groups + [group], id) ==
      PendingUses(groups, id) + if group.completed then 0 else Count(group.inputIds, id)
  {
    assert (groups + [group])[..|groups|] == groups;
  }

  lemma {:induction false} PendingAtLeast(groups: seq<Group>, g: nat, id: ValueId)
    requires g < |groups| && !groups[g].completed
    ensures PendingUses(groups, id) >= Count(groups[g].inputIds, id)
  {
    PendingComplete(groups, g, id);
  }

  lemma {:induction false} CommCountMonotone(code: seq<Instruction>, n: nat, m: nat)
    requires n <= m <= |code|
    ensures CommCount(code, n) <= CommCount(code, m)
    ensures n < m && code[n].body.Comm? ==> CommCount(code, n) < CommCount(code, m)
  {
    if n < m - 1 {
      CommCountMonotone(code, n, m - 1);
    }
  }

  /** Releasing a list of held values takes their multiplicities off the counts and drops what reaches zero. */
  lemma {:induction false} ReleaseAllEffect(l: Local, ids: seq<ValueId>)
    requires forall id :: id in ids ==> id in l.uses && l.uses[id] >= Count(ids, id) && id in l.store
    ensures var m := ReleaseAll(false, l, ids);
      && m.Success?
      && m.value.groups == l.groups
      && m.value.uses.Keys == l.uses.Keys
      && (forall id :: id in l.uses && id in ids ==> m.value.uses[id] == l.uses[id] - Count(ids, id))
      && (forall id :: id in l.uses && id !in ids ==> m.value.uses[id] == l.uses[id])
      && (forall id :: id in m.value.store <==> id in l.store && !(id in ids && m.value.uses[id] == 0))
      && (forall id :: id in m.value.store ==> m.value.store[id] == l.store[id])
    decreases |ids|
  {
    if ids != [] {
      assert ids[0] in ids;
      assert Count(ids, ids[0]) == 1 + Count(ids[1..], ids[0]);
      var next := Release(false, l, ids[0]);
      assert next.Success?;
      forall id | id in ids[1..]
        ensures id in next.value.uses && next.value.uses[id] >= Count(ids[1..], id) && id in next.value.store
      {
        assert id in ids;
        assert Count(ids, id) == (if ids[0] == id then 1 else 0) + Count(ids[1..], id);
      }
      ReleaseAllEffect(next.value, ids[1..]);
      var m := ReleaseAll(false, l, ids).value;
      forall id | id in l.uses && id in ids ensures m.uses[id] == l.uses[id] - Count(ids, id) {
        if id !in ids[1..] {
          assert id == ids[0];
        }
      }
    }
  }

  lemma {:induction false} InstallEffect(p: Program, store: Store, ids: seq<ValueId>, outputs: seq<Payload>, k: nat)
    requires |ids| == |outputs| && k <= |ids| && Distinct(ids)
    requires Install(p, store, ids, outputs, k).Success?
    ensures var m := Install(p, store, ids, outputs, k).value;
      && m.Keys == store.Keys && (forall j :: k <= j < |ids| ==> ids[j] in m)
      && (forall j :: k <= j < |ids| ==> ids[j] in p.Table() && Validates(outputs[j], p.Table()[ids[j]], p.degree))
      && (forall j :: k <= j < |ids| ==> m[ids[j]] == Ready(p.Table()[ids[j]].place, outputs[j]))
      && (forall id :: id in store && id !in ids[k..] ==> m[id] == store[id])
    decreases |ids| - k
  {
    hide Validates;
    if k < |ids| {
      var next := store[ids[k] := Ready(p.Table()[ids[k]].place, outputs[k])];
      InstallEffect(p, next, ids, outputs, k + 1);
      assert ids[k..] == [ids[k]] + ids[k + 1..];
      assert ids[k] !in ids[k + 1..];
    }
  }

  lemma {:induction false} InstallWorks(p: Program, store: Store, ids: seq<ValueId>, outputs: seq<Payload>, k: nat)
    requires |ids| == |outputs| && k <= |ids|
    requires forall j :: k <= j < |ids| ==>
      ids[j] in store && ids[j] in p.Table() && Validates(outputs[j], p.Table()[ids[j]], p.degree)
    ensures Install(p, store, ids, outputs, k).Success?
    decreases |ids| - k
  {
    hide Validates;
    if k < |ids| {
      InstallWorks(p, store[ids[k] := Ready(p.Table()[ids[k]].place, outputs[k])], ids, outputs, k + 1);
    }
  }

  lemma {:induction false} DefinePendingEffect(store: Store, ids: seq<ValueId>, places: seq<Place>, g: nat, k: nat)
    requires |ids| == |places| && k <= |ids| && Distinct(ids)
    requires forall j :: k <= j < |ids| ==> ids[j] !in store
    ensures var m := DefinePending(store, ids, places, g, k);
      && m.Success?
      && (forall id :: id in m.value <==> id in store || id in ids[k..])
      && (forall j :: k <= j < |ids| ==> m.value[ids[j]] == Pending(places[j], g, j))
      && (forall id :: id in store ==> m.value[id] == store[id])
    decreases |ids| - k
  {
    if k < |ids| {
      DefinePendingEffect(store[ids[k] := Pending(places[k], g, k)], ids, places, g, k + 1);
      assert ids[k..] == [ids[k]] + ids[k + 1..];
    }
  }

  // ---- Facts a verified plan gives about one instruction ----

  lemma InstructionFacts(p: Program, loaded: LoadedSpec, skip: bool, n: nat)
    requires WellFormed(p.plan, loaded, skip) && n < |p.Code()|
    ensures SsaOk(p.plan, n) && BodyRule(p.plan, loaded.spec, p.Table(), p.Code()[n].body)
    ensures p.Code()[n].body.Encode? ==> n < |p.plan.initialization|
  {
    hide HeaderOk, ValuesOk, InputsOk, OutputsOk, DefinedBefore, BodyRule, SsaOk;
    assert InstructionOk(p.plan, loaded.spec, p.Table(), n);
  }

  /** The shape and placement of a communication in a verified plan. */
  ghost predicate CommTyped(p: Program, action: CommAction) {
    && |action.inputs| == |action.sources| == 1
    && action.inputs[0] in p.Table() && p.Table()[action.inputs[0]].place == action.sources[0]
    && |action.outputs| == |action.destinations|
    && Distinct(action.outputs)
    && (forall i :: 0 <= i < |action.outputs| ==>
      action.outputs[i] in p.Table() && p.Table()[action.outputs[i]].place == action.destinations[i])
  }

  lemma CommFacts(p: Program, loaded: LoadedSpec, skip: bool, n: nat)
    requires WellFormed(p.plan, loaded, skip) && n < |p.Code()| && p.Code()[n].body.Comm?
    ensures CommTyped(p, p.Code()[n].body.action)
    ensures p.Code()[n].body.action.inputs[0] in DefinedBefore(p.plan, n)
  {
    hide DefinedBefore, DescMap;
    InstructionFacts(p, loaded, skip, n);
    var action := p.Code()[n].body.action;
    assert action.inputs[0] in Uses(p.Code()[n].body);
    forall i | 0 <= i < |action.outputs|
      ensures action.outputs[i] in p.Table() && p.Table()[action.outputs[i]].place == action.destinations[i]
    {
      assert CommOutputOk(p.plan, action, p.Table()[action.inputs[0]], p.Table(), i);
    }
  }

  /** The local sources and outputs of a communication, in the order of its slots. */
  lemma LocalParts(p: Program, action: CommAction, r: int)
    requires CommTyped(p, action)
    ensures LocalInputs(action, r) == if action.sources[0].rank == r then [action.inputs[0]] else []
    ensures Distinct(LocalOutputs(action, r))
    ensures |LocalOutputs(action, r)| == |LocalSlots(action.destinations, r)|
    ensures forall k :: 0 <= k < |LocalOutputs(action, r)| ==>
      LocalOutputs(action, r)[k] == action.outputs[LocalSlots(action.destinations, r)[k]]
    ensures forall id :: id in LocalOutputs(action, r) ==> id in action.outputs && p.Table()[id].place.rank == r
    ensures forall id :: id in action.outputs && p.Table()[id].place.rank == r ==> id in LocalOutputs(action, r)
  {
    hide DescMap, LocalSlots, Pick, Distinct;
    SingleSlot(action.sources, r);
    PickDistinct(action.outputs, LocalSlots(action.destinations, r));
    forall id | id in LocalOutputs(action, r) ensures id in action.outputs && p.Table()[id].place.rank == r {
      var k :| 0 <= k < |LocalOutputs(action, r)| && LocalOutputs(action, r)[k] == id;
    }
    forall id | id in action.outputs && p.Table()[id].place.rank == r ensures id in LocalOutputs(action, r) {
      var i :| 0 <= i < |action.outputs| && action.outputs[i] == id;
      LocalOutputAt(action, r, i);
    }
  }

  /** An output with a destination here is a local output. */
  lemma LocalOutputAt(action: CommAction, r: int, i: nat)
    requires i < |action.outputs| == |action.destinations| && action.destinations[i].rank == r
    ensures action.outputs[i] in LocalOutputs(action, r)
  {
    hide LocalSlots;
    var slots := LocalSlots(action.destinations, r);
    assert i in slots;
    var k :| 0 <= k < |slots| && slots[k] == i;
    assert LocalOutputs(action, r)[k] == action.outputs[i];
  }

  lemma PickDistinct<T>(ids: seq<T>, slots: seq<nat>)
    requires Distinct(ids) && forall k :: 0 <= k < |slots| ==> slots[k] < |ids|
    requires forall j, k :: 0 <= j < k < |slots| ==> slots[j] < slots[k]
    ensures Distinct(Pick(ids, slots))
  {
  }

  lemma SingleSlot(places: seq<Place>, r: int)
    requires |places| == 1
    ensures LocalSlots(places, r) == if places[0].rank == r then [0] else []
  {
    assert places[..0] == [];
    assert LocalSlots(places[..0], r) == [];
  }
}
