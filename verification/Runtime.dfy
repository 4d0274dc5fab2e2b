/** The sequential runtime of one rank, as the program has it: a value store, communication groups and use
    counts updated in place (runtime/runtime.hpp). Every method is proved equal to its specification function;
    `Run` as a whole returns the sequential meaning of the rank's values. */
module Runtime {
  import opened Wrappers
  import opened Plan
  import opened Rules
  import opened Vec
  import opened Semantics
  import opened RankState
  import opened RankInvariant
  import opened RankSteps
  import opened RankRun
  import opened Protocol
  import opened RankProgram

  /** The rank-local table of ready and pending values. */
  class ValueStore {
    var entries: Store

    constructor ()
      ensures entries == map[]
    {
      entries := map[];
    }

    function Lookup(id: ValueId): (e: Option<Entry>)
      reads this
      ensures e.Some? <==> id in entries
      ensures e.Some? ==> e.value == entries[id]
    {
      if id in entries then Some(entries[id]) else None
    }

    /** `emplace`: an identifier is never overwritten. */
    method Define(id: ValueId, e: Entry) returns (ok: bool)
      modifies this
      ensures ok <==> id !in old(entries)
      ensures entries == if ok then old(entries)[id := e] else old(entries)
    {
      ok := id !in entries;
      if ok { entries := entries[id := e]; }
    }

    /** Assignment through the reference that `lookup` returns. */
    method Assign(id: ValueId, e: Entry) returns (ok: bool)
      modifies this
      ensures ok <==> id in old(entries)
      ensures entries == if ok then old(entries)[id := e] else old(entries)
    {
      ok := id in entries;
      if ok { entries := entries[id := e]; }
    }

    method Erase(id: ValueId) returns (ok: bool)
      modifies this
      ensures ok <==> id in old(entries)
      ensures entries == old(entries) - {id}
    {
      ok := id in entries;
      entries := entries - {id};
    }
  }

  class SequentialRuntime {
    const p: Program
    const rank: nat
    const retain: bool
    const net: Net
    const store: ValueStore
    var groups: seq<Group>
    var uses: Counts
    var posts: nat
    var waits: nat
    /** The sender threads started so far, by instruction. */
    var senders: map<nat, Sender>

    constructor (p: Program, rank: nat, retain: bool, net: Net)
      ensures this.p == p && this.rank == rank && this.retain == retain && this.net == net
      ensures fresh(store) && Memory() == EmptyLocal && posts == waits == 0 && senders == map[]
    {
      this.p, this.rank, this.retain, this.net := p, rank, retain, net;
      store := new ValueStore();
      groups, uses, posts, waits, senders := [], map[], 0, 0, map[];
    }

    ghost function Memory(): Local
      reads this, store
    {
      Local(store.entries, groups, uses)
    }

    /** The method ended the way its specification says: with that memory, or with that error. */
    ghost predicate Outcome(error: Option<RuntimeError>, spec: RankState.Checked<Local>)
      reads this, store
    {
      match spec
      case Success(l) => error.None? && Memory() == l
      case Failure(e) => error == Some(e)
    }

    /** Linear search for a descriptor. */
    method Desc(id: ValueId) returns (desc: Option<ValueDesc>)
      requires UniqueIds(p.plan.values)
      ensures desc == if id in p.Table() then Some(p.Table()[id]) else None
    {
      hide DescMap;
      var values := p.plan.values;
      for i := 0 to |values|
        invariant forall j :: 0 <= j < i ==> values[j].id != id
      {
        if values[i].id == id { return Some(values[i]); }
      }
      desc := None;
    }

    // ---- Use counts ----

    function Tally(id: ValueId): nat
      reads this
    {
      if id in uses then uses[id] else 0
    }

    ghost predicate Tallied()
      reads this
    {
      forall id :: id in uses ==> uses[id] > 0
    }

    method AddUse(id: ValueId)
      requires Tallied()
      modifies this`uses
      ensures Tallied() && forall x :: Tally(x) == old(Tally(x)) + if x == id then 1 else 0
    {
      uses := uses[id := (if id in uses then uses[id] else 0) + 1];
    }

    method CountInputs(ids: seq<ValueId>)
      requires Tallied()
      modifies this`uses
      ensures Tallied() && forall x :: Tally(x) == old(Tally(x)) + Count(ids, x)
    {
      hide Count, Tally;
      assert forall x :: Count(ids[..0], x) == 0 by { assert ids[..0] == []; }
      for i := 0 to |ids|
        invariant Tallied() && forall x :: Tally(x) == old(Tally(x)) + Count(ids[..i], x)
      {
        AddUse(ids[i]);
        assert ids[..i + 1] == ids[..i] + [ids[i]];
        forall x { CountAppend(ids[..i], ids[i], x); }
      }
      assert ids[..|ids|] == ids;
    }

    method CountSources(action: CommAction)
      requires Tallied() && |action.inputs| == |action.sources|
      modifies this`uses
      ensures Tallied() && forall x :: Tally(x) == old(Tally(x)) + Count(LocalInputs(action, rank), x)
    {
      hide Count, Tally, LocalSlots;
      assert forall x :: Count(Local0(action, 0), x) == 0 by { NoneYet(action, rank); }
      for i := 0 to |action.inputs|
        invariant Tallied() && forall x :: Tally(x) == old(Tally(x)) + Count(Local0(action, i), x)
      {
        SlotsStep(action.sources, rank, i);
        PickStep(action.inputs, LocalSlots(action.sources[..i], rank), i);
        if action.sources[i].rank == rank {
          AddUse(action.inputs[i]);
          forall x { CountAppend(Local0(action, i), action.inputs[i], x); }
        }
      }
      assert action.sources[..|action.inputs|] == action.sources;
    }

    /** The local sources among the first `i`. */
    ghost function Local0(action: CommAction, i: nat): seq<ValueId>
      requires i <= |action.inputs| == |action.sources|
    {
      Pick(action.inputs, LocalSlots(action.sources[..i], rank))
    }

    /** `initialize_use_counts`. */
    method InitializeUseCounts(ghost loaded: LoadedSpec, ghost skip: bool)
      requires WellFormed(p.plan, loaded, skip) && uses == map[]
      modifies this`uses
      ensures uses == InitialUses(p, rank, retain)
    {
      hide WellFormed, DescMap, Count, CommTyped;
      if retain { return; }
      var code := Instructions(p.plan);
      for n := 0 to |code|
        invariant Tallied() && forall x :: Tally(x) + UsesFrom(code, rank, n, x) == UsesFrom(code, rank, 0, x)
      {
        match code[n].body {
          case Encode(_, _) =>
          case Compute(op) =>
            if op.place.rank == rank { CountInputs(op.inputs); }
          case Comm(action) =>
            CommFacts(p, loaded, skip, n);
            CommShapeFacts(p, action);
            CountSources(action);
        }
      }
      CountFinals(loaded, skip);
      forall id ensures id in uses <==> TotalUses(p, rank, id) > 0 {
      }
      forall id | TotalUses(p, rank, id) > 0 ensures id in p.Table() {
        UsedIsInTable(p, loaded, skip, rank, id);
      }
    }

    method CountFinals(ghost loaded: LoadedSpec, ghost skip: bool)
      requires WellFormed(p.plan, loaded, skip) && Tallied()
      modifies this`uses
      ensures Tallied() && forall x :: Tally(x) == old(Tally(x)) + FinalUse(p, rank, x)
    {
      hide WellFormed, DescMap, Count, Tally;
      VerifiedValues(p, loaded, skip);
      var finals := p.plan.finalOutputs;
      assert forall x :: Count(finals[..0], x) == 0 by { CountNothing(finals); }
      for i := 0 to |finals|
        invariant Tallied()
        invariant forall x :: Tally(x) == old(Tally(x)) + LocalCount(finals[..i], x)
      {
        var id := finals[i];
        var desc := Desc(id);
        if desc.Some? && desc.value.place.rank == rank { AddUse(id); }
        assert finals[..i + 1] == finals[..i] + [id];
        forall x { CountAppend(finals[..i], id, x); }
      }
      assert finals[..|finals|] == finals;
    }

    function LocalCount(ids: seq<ValueId>, id: ValueId): nat {
      if id in p.Table() && p.Table()[id].place.rank == rank then Count(ids, id) else 0
    }

    // ---- Binding, releasing, finishing ----

    /** One external input: bound here, elsewhere, or in error. */
    method BindInput(id: ValueId) returns (r: Result<bool, RuntimeError>)
      requires UniqueIds(p.plan.values) && id in p.Table() && id !in store.entries
      modifies store
      ensures r.Success? ==> r.value == (p.Table()[id].place.rank == rank)
      ensures r.Success? && r.value ==> id in p.inputs
      ensures r.Success? && r.value ==> store.entries == old(store.entries)[id := Ready(p.Table()[id].place, p.inputs[id])]
      ensures r.Success? && r.value ==> BoundEntry(p, net.given, id, store.entries[id])
      ensures r.Success? && !r.value ==> store.entries == old(store.entries)
      ensures r.Failure? ==> p.Table()[id].place.rank == rank && !Bound(p, net.given, id)
    {
      hide DescMap, Validates;
      var desc := Desc(id);
      if desc.value.place.rank != rank { return Success(false); }
      if id !in net.given || id !in p.inputs || !Validates(p.inputs[id], desc.value, p.degree) { return Failure(BadLocalInput); }
      var ok := store.Define(id, Ready(desc.value.place, p.inputs[id]));
      r := Success(true);
    }

    /** `bind_inputs`: each local external input, validated, and no other binding. */
    method BindLocalInputs(ghost loaded: LoadedSpec, ghost skip: bool) returns (error: Option<RuntimeError>)
      requires WellFormed(p.plan, loaded, skip) && groups == [] && store.entries == map[] && uses == InitialUses(p, rank, retain)
      modifies store
      ensures Outcome(error, BindInputs(p, rank, retain, net.given))
    {
      hide WellFormed, DescMap, InitialUses, Validates, LocalExternals, BindInputs, Bound, BoundEntry, BoundSoFar;
      VerifiedValues(p, loaded, skip);
      BoundNothing(p, rank, net.given);
      var ids := p.plan.externalInputs;
      var expected := 0;
      for i := 0 to |ids|
        invariant BoundSoFar(p, rank, net.given, ids[..i], store.entries)
        invariant expected == |store.entries|
      {
        assert ids[i] in ids && ids[i] in p.Table();
        ExternalHere(p, rank, ids[i]);
        assert ids[i] !in ids[..i] && ids[..i + 1] == ids[..i] + [ids[i]];
        BoundNext(p, rank, net.given, ids[..i], ids[i], store.entries);
        var bound := BindInput(ids[i]);
        if bound.Failure? {
          BindFails(p, rank, retain, net.given, ids[i]);
          return Some(BadLocalInput);
        }
        if bound.value { expected := expected + 1; }
      }
      assert ids[..|ids|] == ids;
      BindDone(p, rank, retain, net.given, store.entries);
      error := if |net.given| != expected then Some(BadLocalInput) else None;
    }

    method ReleaseAfterUse(id: ValueId) returns (error: Option<RuntimeError>)
      modifies this`uses, store
      ensures Outcome(error, Release(retain, old(Memory()), id))
    {
      if retain { return None; }
      if id !in uses || uses[id] == 0 { return Some(NoRemainingUse); }
      uses := uses[id := uses[id] - 1];
      if uses[id] == 0 {
        var ok := store.Erase(id);
        if !ok { return Some(CannotRelease); }
      }
      error := None;
    }

    method ReleaseUses(ids: seq<ValueId>) returns (error: Option<RuntimeError>)
      modifies this`uses, store
      ensures Outcome(error, ReleaseAll(retain, old(Memory()), ids))
    {
      hide Release;
      assert ids[0..] == ids;
      for i := 0 to |ids|
        invariant ReleaseAll(retain, Memory(), ids[i..]) == ReleaseAll(retain, old(Memory()), ids)
      {
        assert ids[i..][0] == ids[i] && ids[i..][1..] == ids[i + 1..];
        error := ReleaseAfterUse(ids[i]);
        if error.Some? { return; }
      }
      error := None;
    }

    /** The k-th payload returned belongs to the k-th local output: each is validated and installed. */
    method InstallOutputs(ids: seq<ValueId>, outputs: seq<Payload>) returns (error: Option<RuntimeError>)
      requires UniqueIds(p.plan.values) && |ids| == |outputs|
      modifies store
      ensures match Install(p, old(store.entries), ids, outputs, 0)
              case Success(entries) => error.None? && store.entries == entries
              case Failure(e) => error == Some(e)
    {
      hide DescMap, Validates;
      for i := 0 to |ids|
        invariant Install(p, store.entries, ids, outputs, i) == Install(p, old(store.entries), ids, outputs, 0)
      {
        var desc := Desc(ids[i]);
        if desc.None? { return Some(NoDescriptor); }
        if !Validates(outputs[i], desc.value, p.degree) { return Some(InvalidValue); }
        var ok := store.Assign(ids[i], Ready(desc.value.place, outputs[i]));
        if !ok { return Some(Absent); }
      }
      error := None;
    }

    /** `wait`: one receive per local slot, in slot order, then the injected corruptions. */
    method WaitFor(group: Group) returns (r: RankState.Checked<seq<Payload>>)
      modifies this`waits
      ensures r == Wait(p, net, group)
      ensures waits == old(waits) + 1
    {
      hide Corrupt;
      waits := waits + 1;
      if group.command >= |p.Code()| || !p.Code()[group.command].body.Comm? { return Failure(Absent); }
      var id := p.Code()[group.command].body.action.id;
      var outputs: seq<Payload> := [];
      for i := 0 to |group.slots|
        invariant ReceiveAll(net, id, group.slots[..i]) == Success(outputs)
      {
        assert group.slots[..i + 1][..i] == group.slots[..i];
        if id in net.faults.failWait || (id, group.slots[i]) !in net.messages {
          ReceiveFails(net, id, group.slots, i + 1);
          return Failure(Absent);
        }
        outputs := outputs + [net.messages[(id, group.slots[i])]];
      }
      assert group.slots[..|group.slots|] == group.slots;
      r := Success(Corrupt(net.faults, id, outputs));
    }

    method FinishOne(g: nat) returns (error: Option<RuntimeError>)
      requires UniqueIds(p.plan.values)
      modifies this, store
      ensures Outcome(error, FinishGroup(p, retain, net, old(Memory()), g))
      ensures posts == old(posts) && senders == old(senders)
    {
      hide Wait, Install, ReleaseAll, Count;
      if g >= |groups| { return Some(Absent); }
      var group := groups[g];
      if group.completed { return None; }
      var outputs := WaitFor(group);
      if outputs.Failure? { return Some(outputs.error); }
      if |outputs.value| != |group.outputIds| { return Some(WrongOutputCount); }
      error := InstallOutputs(group.outputIds, outputs.value);
      if error.Some? { return; }
      error := ReleaseUses(group.inputIds);
      if error.Some? { return; }
      groups := groups[g := group.(completed := true)];
    }

    method FinishAllGroups() returns (error: Option<RuntimeError>)
      requires UniqueIds(p.plan.values)
      modifies this, store
      ensures Outcome(error, FinishAll(p, retain, net, old(Memory()), |old(groups)|))
      ensures posts == old(posts) && senders == old(senders)
    {
      hide FinishGroup;
      var n := |groups|;
      for i := 0 to n
        invariant FinishAll(p, retain, net, old(Memory()), i) == Success(Memory())
        invariant |groups| == n && posts == old(posts) && senders == old(senders)
      {
        FinishLength(p, retain, net, Memory(), i);
        error := FinishOne(i);
        if error.Some? {
          FinishFails(p, retain, net, old(Memory()), i + 1, n);
          return;
        }
      }
      error := None;
    }

    // ---- Instructions ----

    method EnsureValue(id: ValueId, place: Place) returns (r: Result<Payload, RuntimeError>)
      requires UniqueIds(p.plan.values)
      modifies this, store
      ensures match EnsureReady(p, retain, net, old(Memory()), id, place)
              case Success((l, v)) => r == Success(v) && Memory() == l
              case Failure(e) => r == Failure(e)
      ensures posts == old(posts) && senders == old(senders)
    {
      hide FinishGroup;
      var entry := store.Lookup(id);
      if entry.None? { return Failure(Absent); }
      if entry.value.place != place { return Failure(PlaceMismatch); }
      if entry.value.Ready? { return Success(entry.value.value); }
      var error := FinishOne(entry.value.group);
      if error.Some? { return Failure(error.value); }
      entry := store.Lookup(id);
      if entry.None? || entry.value.Pending? { return Failure(Absent); }
      r := Success(entry.value.value);
    }

    method ExecuteEncode(payload: EncodePayload, output: ValueId) returns (error: Option<RuntimeError>)
      requires UniqueIds(p.plan.values)
      modifies store
      ensures Outcome(error, ExecEncode(p, rank, old(Memory()), payload, output))
    {
      hide DescMap, EncodeValue, Validates;
      var desc := Desc(output);
      if desc.None? { return Some(NoDescriptor); }
      if desc.value.place.rank != rank { return None; }
      var v := EncodeValue(p, payload, output);
      if v.None? { return Some(EncodeFailed); }
      if !Validates(v.value, desc.value, p.degree) { return Some(InvalidValue); }
      var ok := store.Define(output, Ready(desc.value.place, v.value));
      error := if ok then None else Some(DefinedTwice);
    }

    method ExecuteCompute(op: ComputeOp) returns (error: Option<RuntimeError>)
      requires UniqueIds(p.plan.values)
      modifies this, store
      ensures Outcome(error, ExecCompute(p, rank, retain, net, old(Memory()), op))
      ensures posts == old(posts) && senders == old(senders)
    {
      hide DescMap, Validates, EnsureReady, ReleaseAll, ComputeNow;
      if op.place.rank != rank { return None; }
      var ids := op.inputs;
      var args: seq<Payload> := [];
      for i := 0 to |ids|
        invariant Collect(p, retain, net, old(Memory()), ids[..i], Repeat(op.place, i)) == Success((Memory(), args))
        invariant posts == old(posts) && senders == old(senders)
      {
        CollectStep(ids, op.place, i);
        var v := EnsureValue(ids[i], op.place);
        if v.Failure? {
          CollectFails(p, retain, net, old(Memory()), ids, Repeat(op.place, |ids|), i + 1);
          return Some(v.error);
        }
        args := args + [v.value];
      }
      assert ids[..|ids|] == ids;
      if net.faults.failCompute == Some(op.kind) { return Some(ExecutorFailed); }
      var output := ComputeNow(op, args);
      if output.Failure? { return Some(ExecutorFailed); }
      var desc := Desc(op.output);
      if desc.None? { return Some(NoDescriptor); }
      if !Validates(output.value, desc.value, p.degree) { return Some(InvalidValue); }
      var ok := store.Define(op.output, Ready(op.place, output.value));
      if !ok { return Some(DefinedTwice); }
      error := ReleaseUses(ids);
    }

    /** The local sources of a communication, made ready in slot order. */
    method CollectSources(action: CommAction) returns (r: Result<seq<Payload>, RuntimeError>)
      requires UniqueIds(p.plan.values) && |action.inputs| == |action.sources|
      modifies this, store
      ensures match Collect(p, retain, net, old(Memory()), LocalInputs(action, rank), LocalSources(action, rank))
              case Success((l, args)) => r == Success(args) && Memory() == l
              case Failure(e) => r == Failure(e)
      ensures posts == old(posts) && senders == old(senders)
    {
      hide DescMap, EnsureReady, LocalSlots, Pick, Collect, Local0, Places0, Memory, LocalInputs, LocalSources;
      var args: seq<Payload> := [];
      CollectNone(p, retain, net, Memory());
      SourcesStart(action);
      for i := 0 to |action.inputs|
        invariant Collect(p, retain, net, old(Memory()), Local0(action, i), Places0(action, i)) == Success((Memory(), args))
        invariant posts == old(posts) && senders == old(senders)
      {
        SourcesStep(action, i);
        if action.sources[i].rank == rank {
          CollectMore(p, retain, net, old(Memory()), Local0(action, i), Places0(action, i), action.inputs[i], action.sources[i]);
          var v := EnsureValue(action.inputs[i], action.sources[i]);
          if v.Failure? {
            SourcesPrefix(action, i + 1);
            CollectFails(p, retain, net, old(Memory()), LocalInputs(action, rank), LocalSources(action, rank), |Local0(action, i + 1)|);
            return Failure(v.error);
          }
          args := args + [v.value];
        }
      }
      SourcesEnd(action);
      r := Success(args);
    }

    lemma SourcesStart(action: CommAction)
      requires |action.inputs| == |action.sources|
      ensures Local0(action, 0) == [] && Places0(action, 0) == []
    {
      SlotsOfNone(action.sources, rank);
    }

    lemma SourcesStep(action: CommAction, i: nat)
      requires i < |action.inputs| == |action.sources|
      ensures action.sources[i].rank == rank ==> Local0(action, i + 1) == Local0(action, i) + [action.inputs[i]]
      ensures action.sources[i].rank == rank ==> Places0(action, i + 1) == Places0(action, i) + [action.sources[i]]
      ensures action.sources[i].rank != rank ==>
        Local0(action, i + 1) == Local0(action, i) && Places0(action, i + 1) == Places0(action, i)
    {
      hide LocalSlots;
      SlotsStep(action.sources, rank, i);
      PickStep(action.inputs, LocalSlots(action.sources[..i], rank), i);
      PickStep(action.sources, LocalSlots(action.sources[..i], rank), i);
    }

    lemma SourcesEnd(action: CommAction)
      requires |action.inputs| == |action.sources|
      ensures Local0(action, |action.inputs|) == LocalInputs(action, rank)
      ensures Places0(action, |action.inputs|) == LocalSources(action, rank)
    {
      assert action.sources[..|action.inputs|] == action.sources;
    }

    ghost function Places0(action: CommAction, i: nat): (s: seq<Place>)
      requires i <= |action.inputs| == |action.sources|
      ensures |s| == |Local0(action, i)|
    {
      Pick(action.sources, LocalSlots(action.sources[..i], rank))
    }

    lemma SourcesPrefix(action: CommAction, i: nat)
      requires i <= |action.inputs| == |action.sources|
      ensures Local0(action, i) <= LocalInputs(action, rank) && Places0(action, i) <= LocalSources(action, rank)
      ensures |Local0(action, i)| <= |LocalInputs(action, rank)|
      ensures LocalInputs(action, rank)[..|Local0(action, i)|] == Local0(action, i)
      ensures LocalSources(action, rank)[..|Local0(action, i)|] == Places0(action, i)
    {
      hide LocalSlots;
      SlotsPrefix(action.sources, rank, i);
    }

    /** `execute_communication`: post the transfer and define its local outputs as pending slots. */
    method ExecuteCommunication(command: nat, action: CommAction) returns (error: Option<RuntimeError>)
      requires UniqueIds(p.plan.values)
      modifies this, store
      ensures Outcome(error, ExecComm(p, rank, retain, net, old(Memory()), command, action))
      ensures error.None? ==> posts == old(posts) + 1
      ensures error.None? && HasSender(action, rank) ==>
        && |action.sources| == |action.inputs|
        && Collect(p, retain, net, old(Memory()), LocalInputs(action, rank), LocalSources(action, rank)).Success?
        && |Collect(p, retain, net, old(Memory()), LocalInputs(action, rank), LocalSources(action, rank)).value.1| == 1
        && senders == old(senders)[command := Sender(
          |action.destinations|, Collect(p, retain, net, old(Memory()), LocalInputs(action, rank), LocalSources(action, rank)).value.1[0],
          0, if action.destinations == [] then Sent else Sending)]
      ensures !HasSender(action, rank) ==> senders == old(senders)
    {
      hide DescMap, Collect, DefinePending, LocalSlots, Pick;
      if action.sources == [] || |action.sources| != |action.inputs| { return Some(NoDescriptor); }
      var args := CollectSources(action);
      if args.Failure? { return Some(args.error); }
      if action.id in net.faults.failCommunicate || |args.value| != (if HasSender(action, rank) then 1 else 0) {
        return Some(ExecutorFailed);
      }
      if |action.outputs| != |action.destinations| { return Some(NoDescriptor); }
      posts := posts + 1;
      if HasSender(action, rank) {
        senders := senders[command := Sender(|action.destinations|, args.value[0], 0, if action.destinations == [] then Sent else Sending)];
      }
      error := PostOutputs(action);
      if error.Some? { return; }
      groups := groups + [MakeGroup(action, rank, command)];
    }

    method PostOutputs(action: CommAction) returns (error: Option<RuntimeError>)
      requires |action.outputs| == |action.destinations|
      modifies store
      ensures match DefinePending(old(store.entries), LocalOutputs(action, rank), Pick(action.destinations, LocalSlots(action.destinations, rank)), |groups|, 0)
              case Success(entries) => error.None? && store.entries == entries
              case Failure(e) => error == Some(e)
    {
      hide LocalSlots, Pick;
      var places := action.destinations;
      ghost var ids, spots := LocalOutputs(action, rank), Pick(places, LocalSlots(places, rank));
      var slot := 0;
      assert LocalSlots(places[..0], rank) == [] by { SlotsOfNone(places, rank); }
      for i := 0 to |action.outputs|
        invariant slot == |LocalSlots(places[..i], rank)|
        invariant DefinePending(store.entries, ids, spots, |groups|, slot) == DefinePending(old(store.entries), ids, spots, |groups|, 0)
      {
        SlotsStep(places, rank, i);
        SlotsPrefix(places, rank, i + 1);
        if places[i].rank == rank {
          assert LocalSlots(places, rank)[slot] == i;
          var ok := store.Define(action.outputs[i], Pending(places[i], |groups|, slot));
          if !ok { return Some(DefinedTwice); }
          slot := slot + 1;
        }
      }
      assert places[..|places|] == places;
      error := None;
    }

    method ExecutePhase(first: nat, last: nat) returns (error: Option<RuntimeError>)
      requires UniqueIds(p.plan.values) && first <= last <= |p.Code()|
      modifies this, store
      ensures Outcome(error, ExecPhase(p, rank, retain, net, old(Memory()), first, last))
    {
      hide ExecCompute, ExecEncode, ExecComm, DescMap;
      for n := first to last
        invariant ExecPhase(p, rank, retain, net, old(Memory()), first, n) == Success(Memory())
      {
        match p.Code()[n].body {
          case Encode(payload, output) => error := ExecuteEncode(payload, output);
          case Compute(op) => error := ExecuteCompute(op);
          case Comm(action) => error := ExecuteCommunication(n, action);
        }
        if error.Some? {
          PhaseFails(p, rank, retain, net, old(Memory()), first, n + 1, last);
          return;
        }
      }
      error := None;
    }

    /** `synchronize_final_outputs`, and the artifact of the final outputs. */
    method CollectFinals() returns (r: RankState.Checked<Artifact>)
      requires UniqueIds(p.plan.values)
      ensures r == Publish(p, rank, false, Memory())
    {
      hide DescMap, Publish;
      var finals := p.plan.finalOutputs;
      var artifact: Artifact := map[];
      for i := 0 to |finals|
        invariant forall id :: id in artifact <==> id in finals[..i] && LocalFinal(p, rank, id)
        invariant forall id :: id in artifact ==> FinalEntry(p, store.entries, id, artifact[id])
      {
        var id := finals[i];
        assert id in finals;
        var desc := Desc(id);
        if desc.Some? && desc.value.place.rank == rank {
          var entry := store.Lookup(id);
          if entry.None? || entry.value.Pending? {
            PublishFails(p, rank, Memory(), id);
            return Failure(Absent);
          }
          artifact := artifact[id := ArtifactValue(desc.value.place, entry.value.value)];
        }
      }
      assert finals[..|finals|] == finals;
      PublishDone(p, rank, Memory(), artifact);
      r := Success(artifact);
    }

    /** Every ready value of the store. */
    method CollectReady() returns (artifact: Artifact)
      ensures artifact == MakeArtifact(p, rank, true, store.entries)
    {
      artifact := map[];
      var left := store.entries.Keys;
      while left != {}
        invariant left <= store.entries.Keys
        invariant artifact == map id | id in store.entries && id !in left && store.entries[id].Ready? ::
          ArtifactValue(store.entries[id].place, store.entries[id].value)
        decreases |left|
      {
        var id :| id in left;
        left := left - {id};
        if store.entries[id].Ready? {
          artifact := artifact[id := ArtifactValue(store.entries[id].place, store.entries[id].value)];
        }
      }
    }

    /** `make_artifact` after the final outputs have been synchronized. */
    method PublishArtifact() returns (r: RankState.Checked<Artifact>)
      requires UniqueIds(p.plan.values)
      ensures r == Publish(p, rank, retain, Memory())
    {
      hide DescMap, MakeArtifact, LocalFinal;
      r := CollectFinals();
      if r.Success? && retain {
        var all := CollectReady();
        r := Success(all);
      }
    }

    /** `run`, from the verified plan to the artifact: the composition of the phases, and in particular, on
        genuine messages, the sequential meaning of this rank's values. */
    method Run(ghost loaded: LoadedSpec, ghost skip: bool) returns (r: RankState.Checked<Artifact>)
      requires WellFormed(p.plan, loaded, skip) && Memory() == EmptyLocal
      modifies this, store
      ensures r == RunRank(p, rank, retain, net)
      ensures Genuine(p, net.messages) && r.Success? ==> r.value == Expected(p, rank, retain)
      ensures Served(p, loaded, skip, rank, net) ==> r == Success(Expected(p, rank, retain))
    {
      hide WellFormed, DescMap, BindInputs, ExecPhase, FinishAll, Publish, Genuine, Served, Expected, InitialUses;
      VerifiedValues(p, loaded, skip);
      if Genuine(p, net.messages) && RunRank(p, rank, retain, net).Success? {
        RunRankExpected(p, loaded, skip, rank, retain, net);
      }
      if Served(p, loaded, skip, rank, net) {
        RunRankWorks(p, loaded, skip, rank, retain, net);
      }
      InitializeUseCounts(loaded, skip);
      var error := BindLocalInputs(loaded, skip);
      if error.Some? { return Failure(error.value); }
      error := ExecutePhase(0, |p.plan.initialization|);
      if error.Some? { return Failure(error.value); }
      error := FinishAllGroups();
      if error.Some? { return Failure(error.value); }
      error := ExecutePhase(|p.plan.initialization|, |p.Code()|);
      if error.Some? { return Failure(error.value); }
      error := FinishAllGroups();
      if error.Some? { return Failure(error.value); }
      r := PublishArtifact();
    }
  }

  // ---- Loop lemmas ----

  lemma VerifiedValues(p: Program, loaded: LoadedSpec, skip: bool)
    requires WellFormed(p.plan, loaded, skip)
    ensures UniqueIds(p.plan.values)
    ensures forall id :: id in p.plan.externalInputs ==> id in p.Table()
    ensures Distinct(p.plan.externalInputs)
  {
    hide HeaderOk, OutputsOk, InstructionOk, DescMap, DefinedBefore, DescOk;
  }

  predicate BoundEntry(p: Program, given: set<ValueId>, id: ValueId, e: Entry) {
    && id in p.Table() && Bound(p, given, id)
    && e == Ready(p.Table()[id].place, p.inputs[id])
  }

  lemma ExternalHere(p: Program, r: int, id: ValueId)
    requires id in p.plan.externalInputs && id in p.Table()
    ensures id in LocalExternals(p, r) <==> p.Table()[id].place.rank == r
  {
    hide DescMap;
  }

  /** The store after binding `ids`: exactly the local ones among them, each with its input. */
  ghost predicate BoundSoFar(p: Program, r: int, given: set<ValueId>, ids: seq<ValueId>, entries: Store) {
    && (forall id :: id in entries <==> id in ids && id in LocalExternals(p, r))
    && (forall id :: id in entries ==> BoundEntry(p, given, id, entries[id]))
  }

  lemma BoundNothing(p: Program, r: int, given: set<ValueId>)
    ensures BoundSoFar(p, r, given, [], map[])
  {
  }

  lemma BoundNext(p: Program, r: int, given: set<ValueId>, ids: seq<ValueId>, id: ValueId, entries: Store)
    requires BoundSoFar(p, r, given, ids, entries) && id !in ids
    ensures id !in entries
    ensures id !in LocalExternals(p, r) ==> BoundSoFar(p, r, given, ids + [id], entries)
    ensures forall e :: id in LocalExternals(p, r) && BoundEntry(p, given, id, e) ==>
      BoundSoFar(p, r, given, ids + [id], entries[id := e])
  {
    hide LocalExternals, BoundEntry;
  }

  lemma BindFails(p: Program, r: int, retain: bool, given: set<ValueId>, id: ValueId)
    requires id in LocalExternals(p, r) && !Bound(p, given, id)
    ensures BindInputs(p, r, retain, given) == Failure(BadLocalInput)
  {
    hide DescMap, Validates;
  }

  lemma BindDone(p: Program, r: int, retain: bool, given: set<ValueId>, entries: Store)
    requires BoundSoFar(p, r, given, p.plan.externalInputs, entries)
    ensures |entries| == |LocalExternals(p, r)|
    ensures BindInputs(p, r, retain, given) ==
      if |given| == |entries| then Success(Local(entries, [], InitialUses(p, r, retain))) else Failure(BadLocalInput)
  {
    hide DescMap, Validates, InitialUses;
    forall id | id in LocalExternals(p, r) ensures Bound(p, given, id) {
      assert BoundEntry(p, given, id, entries[id]);
    }
    assert entries.Keys == LocalExternals(p, r) && |entries| == |entries.Keys|;
    if |given| == |entries| {
      assert BindInputs(p, r, retain, given).Success?;
      assert BindInputs(p, r, retain, given).value.store == entries;
    }
  }

  predicate FinalEntry(p: Program, entries: Store, id: ValueId, a: ArtifactValue) {
    && id in p.Table() && id in entries && entries[id].Ready?
    && a == ArtifactValue(p.Table()[id].place, entries[id].value)
  }

  lemma PublishFails(p: Program, r: int, l: Local, id: ValueId)
    requires LocalFinal(p, r, id) && (id !in l.store || !l.store[id].Ready?)
    ensures Publish(p, r, false, l) == Failure(Absent)
  {
    hide DescMap, LocalFinal;
    assert id in p.plan.finalOutputs by { LocalFinalListed(p, r, id); }
  }

  lemma LocalFinalListed(p: Program, r: int, id: ValueId)
    requires LocalFinal(p, r, id)
    ensures id in p.plan.finalOutputs
  {
  }

  lemma PublishDone(p: Program, r: int, l: Local, artifact: Artifact)
    requires forall id :: id in artifact <==> id in p.plan.finalOutputs && LocalFinal(p, r, id)
    requires forall id :: id in artifact ==> FinalEntry(p, l.store, id, artifact[id])
    ensures Publish(p, r, false, l) == Success(artifact)
  {
    hide DescMap, LocalFinal;
    forall id ensures id in MakeArtifact(p, r, false, l.store) <==> id in artifact {
      assert id in artifact ==> FinalEntry(p, l.store, id, artifact[id]);
    }
    assert MakeArtifact(p, r, false, l.store) == artifact;
  }

  lemma CountNothing(ids: seq<ValueId>)
    ensures forall x :: Count(ids[..0], x) == 0
  {
    assert ids[..0] == [];
  }

  lemma SlotsOfNone(places: seq<Place>, r: int)
    ensures LocalSlots(places[..0], r) == []
  {
  }

  lemma NoneYet(action: CommAction, r: int)
    requires |action.inputs| == |action.sources|
    ensures Pick(action.inputs, LocalSlots(action.sources[..0], r)) == []
  {
    SlotsOfNone(action.sources, r);
  }

  lemma SlotsStep(places: seq<Place>, r: int, i: nat)
    requires i < |places|
    ensures LocalSlots(places[..i + 1], r) == LocalSlots(places[..i], r) + if places[i].rank == r then [i] else []
  {
    assert places[..i + 1][..i] == places[..i];
  }

  lemma {:induction false} SlotsPrefix(places: seq<Place>, r: int, i: nat)
    requires i <= |places|
    ensures LocalSlots(places[..i], r) <= LocalSlots(places, r)
    decreases |places| - i
  {
    if i < |places| {
      SlotsStep(places, r, i);
      SlotsPrefix(places, r, i + 1);
    } else {
      assert places[..i] == places;
    }
  }

  lemma PickStep<T>(ids: seq<T>, slots: seq<nat>, i: nat)
    requires (forall k :: 0 <= k < |slots| ==> slots[k] < |ids|) && i < |ids|
    ensures Pick(ids, slots + [i]) == Pick(ids, slots) + [ids[i]]
    ensures slots + [] == slots
  {
  }

  lemma CollectNone(p: Program, retain: bool, net: Net, l: Local)
    ensures Collect(p, retain, net, l, [], []) == Success((l, []))
  {
  }

  /** One more operand. */
  lemma CollectMore(
      p: Program, retain: bool, net: Net, l: Local, ids: seq<ValueId>, places: seq<Place>, id: ValueId, place: Place)
    requires |ids| == |places| && Collect(p, retain, net, l, ids, places).Success?
    ensures var front := Collect(p, retain, net, l, ids, places).value;
      Collect(p, retain, net, l, ids + [id], places + [place]) ==
        match EnsureReady(p, retain, net, front.0, id, place)
        case Success(last) => Success((last.0, front.1 + [last.1]))
        case Failure(e) => Failure(e)
  {
    hide EnsureReady;
    assert (ids + [id])[..|ids|] == ids && (places + [place])[..|ids|] == places;
  }

  lemma CollectStep(ids: seq<ValueId>, place: Place, i: nat)
    requires i < |ids|
    ensures ids[..i + 1][..i] == ids[..i] && Repeat(place, i + 1)[..i] == Repeat(place, i)
    ensures Repeat(place, i + 1) == Repeat(place, |ids|)[..i + 1]
  {
  }

  lemma {:induction false} ReceiveFails(net: Net, id: TransferId, slots: seq<nat>, n: nat)
    requires n <= |slots| && ReceiveAll(net, id, slots[..n]).Failure?
    ensures ReceiveAll(net, id, slots) == Failure(ReceiveAll(net, id, slots[..n]).error)
    decreases |slots| - n
  {
    if n < |slots| {
      assert slots[..n + 1][..n] == slots[..n];
      ReceiveFails(net, id, slots, n + 1);
    } else {
      assert slots[..n] == slots;
    }
  }

  lemma {:induction false} CollectFails(p: Program, retain: bool, net: Net, l: Local, ids: seq<ValueId>, places: seq<Place>, n: nat)
    requires n <= |ids| == |places| && Collect(p, retain, net, l, ids[..n], places[..n]).Failure?
    ensures Collect(p, retain, net, l, ids, places) == Failure(Collect(p, retain, net, l, ids[..n], places[..n]).error)
    decreases |ids| - n
  {
    hide EnsureReady;
    if n < |ids| {
      assert ids[..n + 1][..n] == ids[..n] && places[..n + 1][..n] == places[..n];
      CollectFails(p, retain, net, l, ids, places, n + 1);
    } else {
      assert ids[..n] == ids && places[..n] == places;
    }
  }

  lemma FinishLength(p: Program, retain: bool, net: Net, l: Local, g: nat)
    ensures FinishGroup(p, retain, net, l, g).Success? ==> |FinishGroup(p, retain, net, l, g).value.groups| == |l.groups|
  {
    hide Install, ReleaseAll, Wait;
  }

  lemma {:induction false} FinishFails(p: Program, retain: bool, net: Net, l: Local, k: nat, n: nat)
    requires k <= n && FinishAll(p, retain, net, l, k).Failure?
    ensures FinishAll(p, retain, net, l, n) == Failure(FinishAll(p, retain, net, l, k).error)
    decreases n
  {
    hide FinishGroup;
    if k < n {
      FinishFails(p, retain, net, l, k, n - 1);
    }
  }

  lemma {:induction false} PhaseFails(p: Program, r: nat, retain: bool, net: Net, l: Local, first: nat, n: nat, last: nat)
    requires first <= n <= last <= |p.Code()| && ExecPhase(p, r, retain, net, l, first, n).Failure?
    ensures ExecPhase(p, r, retain, net, l, first, last) == Failure(ExecPhase(p, r, retain, net, l, first, n).error)
    decreases last
  {
    hide Exec;
    if n < last {
      PhaseFails(p, r, retain, net, l, first, n, last - 1);
    }
  }
}
