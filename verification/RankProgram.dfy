/** The whole run of one rank as a function of what the network delivers: the specification the imperative
    runtime is proved against, and its relation to the sequential meaning (runtime/runtime.hpp). */
module RankProgram {
  import opened Wrappers
  import opened Plan
  import opened Rules
  import opened Vec
  import opened Semantics
  import opened RankState
  import opened RankInvariant
  import opened RankSteps
  import opened RankRun
  import opened Protocol
  import opened ProtocolNode
  import opened ProtocolSafety
  import opened ProtocolCalm

  type Checked<+T> = RankState.Checked<T>
  type Messages = map<(TransferId, nat), Payload>

  /** What a rank is given from outside: the identifiers it has bindings for, every message its receives will
      find, and the faults. */
  datatype Net = Net(given: set<ValueId>, messages: Messages, faults: Faults)

  /** `receive` for each local slot in order; a message that never comes is an abort. */
  function ReceiveAll(net: Net, id: TransferId, slots: seq<nat>): Checked<seq<Payload>>
  {
    if slots == [] then Success([])
    else
      var n := |slots| - 1;
      var front :- ReceiveAll(net, id, slots[..n]);
      if id in net.faults.failWait || (id, slots[n]) !in net.messages then Failure(Absent)
      else Success(front + [net.messages[(id, slots[n])]])
  }

  function Wait(p: Program, net: Net, group: Group): Checked<seq<Payload>> {
    if group.command >= |p.Code()| || !p.Code()[group.command].body.Comm? then Failure(Absent)
    else
      var id := p.Code()[group.command].body.action.id;
      var outputs :- ReceiveAll(net, id, group.slots);
      Success(Corrupt(net.faults, id, outputs))
  }

  function FinishGroup(p: Program, retain: bool, net: Net, l: Local, g: nat): Checked<Local> {
    if g >= |l.groups| then Failure(Absent)
    else if l.groups[g].completed then Success(l)
    else
      var outputs :- Wait(p, net, l.groups[g]);
      CompleteGroup(p, retain, l, g, outputs)
  }

  function EnsureReady(p: Program, retain: bool, net: Net, l: Local, id: ValueId, place: Place): Checked<(Local, Payload)> {
    if id !in l.store then Failure(Absent)
    else if l.store[id].place != place then Failure(PlaceMismatch)
    else
      match l.store[id]
      case Ready(_, v) => Success((l, v))
      case Pending(_, g, _) =>
        var m :- FinishGroup(p, retain, net, l, g);
        if id in m.store && m.store[id].Ready? then Success((m, m.store[id].value)) else Failure(Absent)
  }

  /** The operands one after the other, each made ready at its Place. */
  function Collect(p: Program, retain: bool, net: Net, l: Local, ids: seq<ValueId>, places: seq<Place>): (r: Checked<(Local, seq<Payload>)>)
    requires |ids| == |places|
    ensures r.Success? ==> |r.value.1| == |ids|
  {
    if ids == [] then Success((l, []))
    else
      var n := |ids| - 1;
      var front :- Collect(p, retain, net, l, ids[..n], places[..n]);
      var last :- EnsureReady(p, retain, net, front.0, ids[n], places[n]);
      Success((last.0, front.1 + [last.1]))
  }

  function Repeat(place: Place, n: nat): (s: seq<Place>)
    ensures |s| == n && forall i :: 0 <= i < n ==> s[i] == place
  {
    seq(n, _ => place)
  }

  function ExecCompute(p: Program, r: nat, retain: bool, net: Net, l: Local, op: ComputeOp): Checked<Local> {
    if op.place.rank != r then Success(l)
    else
      var got :- Collect(p, retain, net, l, op.inputs, Repeat(op.place, |op.inputs|));
      if net.faults.failCompute == Some(op.kind) then Failure(ExecutorFailed)
      else FinishCompute(p, retain, got.0, op, got.1)
  }

  function ExecEncode(p: Program, r: nat, l: Local, payload: EncodePayload, output: ValueId): Checked<Local> {
    if output !in p.Table() then Failure(NoDescriptor)
    else if p.Table()[output].place.rank != r then Success(l)
    else FinishEncode(p, l, payload, output)
  }

  /** The Places of the local sources, in slot order. */
  function LocalSources(action: CommAction, r: nat): (s: seq<Place>)
    requires |action.sources| == |action.inputs|
    ensures |s| == |LocalInputs(action, r)|
  {
    Pick(action.sources, LocalSlots(action.sources, r))
  }

  function ExecComm(p: Program, r: nat, retain: bool, net: Net, l: Local, command: nat, action: CommAction): Checked<Local> {
    if action.sources == [] || |action.sources| != |action.inputs| then Failure(NoDescriptor)
    else
      var got :- Collect(p, retain, net, l, LocalInputs(action, r), LocalSources(action, r));
      if action.id in net.faults.failCommunicate || |got.1| != (if HasSender(action, r) then 1 else 0) then Failure(ExecutorFailed)
      else PostComm(r, got.0, command, action)
  }

  function Exec(p: Program, r: nat, retain: bool, net: Net, l: Local, n: nat): Checked<Local>
    requires n < |p.Code()|
  {
    match p.Code()[n].body
    case Encode(payload, output) => ExecEncode(p, r, l, payload, output)
    case Compute(op) => ExecCompute(p, r, retain, net, l, op)
    case Comm(action) => ExecComm(p, r, retain, net, l, n, action)
  }

  /** `execute_phase` over the instructions from `first` up to `last`. */
  function ExecPhase(p: Program, r: nat, retain: bool, net: Net, l: Local, first: nat, last: nat): Checked<Local>
    requires first <= last <= |p.Code()|
  {
    if first == last then Success(l)
    else
      var front :- ExecPhase(p, r, retain, net, l, first, last - 1);
      Exec(p, r, retain, net, front, last - 1)
  }

  /** `finish_all_groups`, up to group `n`. */
  function FinishAll(p: Program, retain: bool, net: Net, l: Local, n: nat): Checked<Local> {
    if n == 0 then Success(l)
    else
      var front :- FinishAll(p, retain, net, l, n - 1);
      FinishGroup(p, retain, net, front, n - 1)
  }

  /** `run` from the binding of the inputs to the artifact. */
  function RunRank(p: Program, r: nat, retain: bool, net: Net): Checked<Artifact> {
    var bound :- BindInputs(p, r, retain, net.given);
    var initialized :- ExecPhase(p, r, retain, net, bound, 0, |p.plan.initialization|);
    var ready :- FinishAll(p, retain, net, initialized, |initialized.groups|);
    var executed :- ExecPhase(p, r, retain, net, ready, |p.plan.initialization|, |p.Code()|);
    var finished :- FinishAll(p, retain, net, executed, |executed.groups|);
    Publish(p, r, retain, finished)
  }

  // ---- What a network may deliver ----

  /** A message of one of the plan's transfers is the meaning of the output it is for, and valid for it. */
  ghost predicate GenuineSlot(p: Program, messages: Messages, n: nat, k: nat)
    requires n < |p.Code()| && p.Code()[n].body.Comm? && k < |p.Code()[n].body.action.outputs|
  {
    var action := p.Code()[n].body.action; var id := action.outputs[k];
    (action.id, k) in messages ==>
      id in p.Table() && id in Meaning(p) && messages[(action.id, k)] == Meaning(p)[id] &&
      Validates(messages[(action.id, k)], p.Table()[id], p.degree)
  }

  ghost predicate Genuine(p: Program, messages: Messages) {
    forall n, k :: 0 <= n < |p.Code()| && p.Code()[n].body.Comm? && 0 <= k < |p.Code()[n].body.action.outputs| ==>
      GenuineSlot(p, messages, n, k)
  }

  /** Every message of every transfer is there. */
  ghost predicate Complete(p: Program, messages: Messages) {
    forall n, k :: 0 <= n < |p.Code()| && p.Code()[n].body.Comm? && 0 <= k < |p.Code()[n].body.action.outputs| ==>
      (p.Code()[n].body.action.id, k) in messages
  }

  /** The messages of every reachable state of the cluster are genuine. */
  lemma ReachableIsGenuine(cfg: Config, s: State)
    requires Inv(cfg, s) && Launched(cfg)
    ensures Genuine(cfg.program, s.messages)
  {
    hide Inv, Launched, Meaning, DescMap, Validates, SetupOk, WellFormed, SenderOk, CommTyped;
    var p := cfg.program;
    LaunchedHasRanks(cfg);
    LaunchedIsVerified(cfg, 0);
    forall n, k | 0 <= n < |p.Code()| && p.Code()[n].body.Comm? && 0 <= k < |p.Code()[n].body.action.outputs|
      ensures GenuineSlot(p, s.messages, n, k)
    {
      var key: (TransferId, nat) := (p.Code()[n].body.action.id, k);
      if key in s.messages {
        MessageSender(cfg, s, n, key);
        SenderValue(cfg, n, s.senders[n]);
        CommMeaning(p, cfg.loaded, cfg.ranks[0].skip, n);
        CommValidates(p, cfg.loaded, cfg.ranks[0].skip, n, s.messages[key]);
        OutputInTable(p, cfg.loaded, cfg.ranks[0].skip, n);
        assert p.Code()[n].body.action.outputs[k] in Defs(p.Code()[n].body);
      }
    }
  }

  lemma SenderValue(cfg: Config, n: nat, sender: Sender)
    requires SenderOk(cfg, n, sender)
    ensures n < |cfg.program.Code()| && cfg.program.Code()[n].body.Comm?
    ensures var p := cfg.program; var action := p.Code()[n].body.action;
      |action.inputs| == 1 && action.inputs[0] in p.Table() && action.inputs[0] in Meaning(p) &&
      sender.value == Meaning(p)[action.inputs[0]] && Validates(sender.value, p.Table()[action.inputs[0]], p.degree)
  {
    hide Launched, Meaning, DescMap, Validates;
  }

  // ---- One rank against the meaning ----

  lemma {:induction false} ReceivedInOrder(net: Net, id: TransferId, slots: seq<nat>)
    requires ReceiveAll(net, id, slots).Success?
    ensures var outputs := ReceiveAll(net, id, slots).value;
      |outputs| == |slots| && forall k :: 0 <= k < |slots| ==> (id, slots[k]) in net.messages && outputs[k] == net.messages[(id, slots[k])]
  {
    if slots != [] {
      ReceivedInOrder(net, id, slots[..|slots| - 1]);
    }
  }

  lemma FinishGroupKeeps(
      p: Program, loaded: LoadedSpec, skip: bool, r: nat, retain: bool, net: Net, n: nat, l: Local, g: nat)
    requires WellFormed(p.plan, loaded, skip) && Genuine(p, net.messages) && n <= |p.Code()| && LocalInv(p, r, retain, n, l)
    requires FinishGroup(p, retain, net, l, g).Success?
    ensures var m := FinishGroup(p, retain, net, l, g).value;
      && LocalInv(p, r, retain, n, m)
      && g < |l.groups| && |m.groups| == |l.groups| && m.groups[g].completed
      && m.groups == (if l.groups[g].completed then l.groups else Done(l.groups, g))
      && (forall id :: id in m.store ==> id in l.store && (l.store[id].Ready? ==> m.store[id] == l.store[id]))
  {
    hide WellFormed, Genuine, LocalInv, Meaning, DescMap, CompleteGroup, Corrupt, ReceiveAll, Faithful;
    if !l.groups[g].completed {
      GenuineOutputs(p, loaded, skip, r, retain, net, n, l, g);
      CompleteKeeps(p, loaded, skip, r, retain, n, l, g, Wait(p, net, l.groups[g]).value);
    }
  }

  /** What a wait returns, when its group completes, is what was received, uncorrupted, and genuine. */
  lemma GenuineOutputs(
      p: Program, loaded: LoadedSpec, skip: bool, r: nat, retain: bool, net: Net, n: nat, l: Local, g: nat)
    requires WellFormed(p.plan, loaded, skip) && Genuine(p, net.messages) && n <= |p.Code()| && LocalInv(p, r, retain, n, l)
    requires g < |l.groups| && !l.groups[g].completed
    requires Wait(p, net, l.groups[g]).Success? && CompleteGroup(p, retain, l, g, Wait(p, net, l.groups[g]).value).Success?
    ensures Faithful(p, l.groups[g].outputIds, Wait(p, net, l.groups[g]).value)
  {
    hide WellFormed, Genuine, LocalInv, Meaning, DescMap, CompleteGroup, Corrupt, ReceiveAll, CommTyped, LocalSlots, DefinedBefore;
    var group := l.groups[g];
    var action := p.Code()[group.command].body.action;
    var got := ReceiveAll(net, action.id, group.slots).value;
    ReceivedInOrder(net, action.id, group.slots);
    GroupFacts(p, loaded, skip, r, retain, n, l, g);
    GenuineReceived(p, net, group, got);
    CorruptionIsCaught(p, retain, l, g, net.faults, action.id, got);
  }

  lemma GenuineReceived(p: Program, net: Net, group: Group, got: seq<Payload>)
    requires Genuine(p, net.messages) && group.command < |p.Code()| && p.Code()[group.command].body.Comm?
    requires var action := p.Code()[group.command].body.action;
      && |got| == |group.outputIds| == |group.slots|
      && forall k :: 0 <= k < |group.slots| ==>
        (group.slots[k] < |action.outputs| && group.outputIds[k] == action.outputs[group.slots[k]] &&
         (action.id, group.slots[k]) in net.messages && got[k] == net.messages[(action.id, group.slots[k])])
    ensures Received(p, group, got) && Faithful(p, group.outputIds, got)
  {
    hide Meaning, DescMap, Validates;
    forall k | 0 <= k < |got|
      ensures group.outputIds[k] in p.Table() && group.outputIds[k] in Meaning(p) && got[k] == Meaning(p)[group.outputIds[k]] &&
        Validates(got[k], p.Table()[group.outputIds[k]], p.degree)
    {
      assert GenuineSlot(p, net.messages, group.command, group.slots[k]);
    }
  }

  lemma EnsureReadyKeeps(
      p: Program, loaded: LoadedSpec, skip: bool, r: nat, retain: bool, net: Net, n: nat, l: Local, id: ValueId, place: Place)
    requires WellFormed(p.plan, loaded, skip) && Genuine(p, net.messages) && n <= |p.Code()| && LocalInv(p, r, retain, n, l)
    requires EnsureReady(p, retain, net, l, id, place).Success?
    ensures var (m, v) := EnsureReady(p, retain, net, l, id, place).value;
      && Progressed(p, r, retain, n, l, m)
      && id in m.store && m.store[id].Ready? && m.store[id].value == v
  {
    hide WellFormed, Genuine, LocalInv, Meaning, DescMap, FinishGroup;
    if l.store[id].Pending? {
      FinishGroupKeeps(p, loaded, skip, r, retain, net, n, l, l.store[id].group);
    }
  }

  /** A good memory in which some more groups may have been completed. */
  ghost predicate Progressed(p: Program, r: nat, retain: bool, n: nat, l: Local, m: Local)
    requires n <= |p.Code()|
  {
    && LocalInv(p, r, retain, n, m)
    && |m.groups| == |l.groups|
    && (forall id :: id in m.store ==> id in l.store && (l.store[id].Ready? ==> m.store[id] == l.store[id]))
  }

  /** Operands are collected faithfully even when a group is finished in the middle of the collection. */
  lemma {:induction false} CollectKeeps(
      p: Program, loaded: LoadedSpec, skip: bool, r: nat, retain: bool, net: Net, n: nat, l: Local, ids: seq<ValueId>, places: seq<Place>)
    requires WellFormed(p.plan, loaded, skip) && Genuine(p, net.messages) && n <= |p.Code()| && LocalInv(p, r, retain, n, l)
    requires |places| == |ids| && ids <= Wanted(p, r, n) && Collect(p, retain, net, l, ids, places).Success?
    ensures var (m, args) := Collect(p, retain, net, l, ids, places).value;
      Progressed(p, r, retain, n, l, m) && Fetched(m.store, Wanted(p, r, n), args)
  {
    hide WellFormed, Genuine, LocalInv, Meaning, DescMap, EnsureReady, Wanted;
    if ids != [] {
      var k := |ids| - 1;
      var front := Collect(p, retain, net, l, ids[..k], places[..k]).value;
      CollectKeeps(p, loaded, skip, r, retain, net, n, l, ids[..k], places[..k]);
      EnsureReadyKeeps(p, loaded, skip, r, retain, net, n, front.0, ids[k], places[k]);
      var last := EnsureReady(p, retain, net, front.0, ids[k], places[k]).value;
      CollectedSurvive(p, r, retain, n, front.0, last.0, front.1);
    }
  }

  lemma ExecKeeps(p: Program, loaded: LoadedSpec, skip: bool, r: nat, retain: bool, net: Net, l: Local, n: nat)
    requires WellFormed(p.plan, loaded, skip) && Genuine(p, net.messages) && n < |p.Code()| && LocalInv(p, r, retain, n, l)
    requires Exec(p, r, retain, net, l, n).Success?
    ensures LocalInv(p, r, retain, n + 1, Exec(p, r, retain, net, l, n).value)
  {
    hide WellFormed, Genuine, LocalInv, Meaning, DescMap, Collect, FinishCompute, FinishEncode, PostComm, LocalInputs, LocalSlots;
    match p.Code()[n].body
    case Encode(payload, output) =>
      if p.Table()[output].place.rank != r {
        SkipKeeps(p, loaded, skip, r, retain, n, l);
      } else {
        EncodeKeeps(p, loaded, skip, r, retain, n, l, payload, output);
      }
    case Compute(op) =>
      if op.place.rank != r {
        SkipKeeps(p, loaded, skip, r, retain, n, l);
      } else {
        var got := Collect(p, retain, net, l, op.inputs, Repeat(op.place, |op.inputs|)).value;
        CollectKeeps(p, loaded, skip, r, retain, net, n, l, op.inputs, Repeat(op.place, |op.inputs|));
        ComputeKeeps(p, loaded, skip, r, retain, n, got.0, op, got.1);
      }
    case Comm(action) =>
      var got := Collect(p, retain, net, l, LocalInputs(action, r), LocalSources(action, r)).value;
      CollectKeeps(p, loaded, skip, r, retain, net, n, l, LocalInputs(action, r), LocalSources(action, r));
      SourcesCollected(p, r, n, got.0.store, got.1);
      PostKeeps(p, loaded, skip, r, retain, n, got.0, action);
  }

  lemma {:induction false} ExecPhaseKeeps(
      p: Program, loaded: LoadedSpec, skip: bool, r: nat, retain: bool, net: Net, l: Local, first: nat, last: nat)
    requires WellFormed(p.plan, loaded, skip) && Genuine(p, net.messages) && first <= last <= |p.Code()| && LocalInv(p, r, retain, first, l)
    requires ExecPhase(p, r, retain, net, l, first, last).Success?
    ensures LocalInv(p, r, retain, last, ExecPhase(p, r, retain, net, l, first, last).value)
    decreases last
  {
    hide WellFormed, Genuine, LocalInv, Exec;
    if first < last {
      ExecPhaseKeeps(p, loaded, skip, r, retain, net, l, first, last - 1);
      ExecKeeps(p, loaded, skip, r, retain, net, ExecPhase(p, r, retain, net, l, first, last - 1).value, last - 1);
    }
  }

  lemma {:induction false} FinishAllKeeps(
      p: Program, loaded: LoadedSpec, skip: bool, r: nat, retain: bool, net: Net, n: nat, l: Local, k: nat)
    requires WellFormed(p.plan, loaded, skip) && Genuine(p, net.messages) && n <= |p.Code()| && LocalInv(p, r, retain, n, l)
    requires FinishAll(p, retain, net, l, k).Success?
    ensures var m := FinishAll(p, retain, net, l, k).value;
      LocalInv(p, r, retain, n, m) && |m.groups| == |l.groups| && k <= |m.groups| && forall g :: 0 <= g < k ==> m.groups[g].completed
  {
    hide WellFormed, Genuine, LocalInv, FinishGroup;
    if k > 0 {
      FinishAllKeeps(p, loaded, skip, r, retain, net, n, l, k - 1);
      FinishGroupKeeps(p, loaded, skip, r, retain, net, n, FinishAll(p, retain, net, l, k - 1).value, k - 1);
    }
  }

  /** One rank in isolation: whatever genuine messages it is given, and whatever faults are injected, a run
      that returns at all returns the sequential meaning of the rank's values. */
  lemma RunRankExpected(p: Program, loaded: LoadedSpec, skip: bool, r: nat, retain: bool, net: Net)
    requires WellFormed(p.plan, loaded, skip) && Genuine(p, net.messages) && RunRank(p, r, retain, net).Success?
    ensures RunRank(p, r, retain, net).value == Expected(p, r, retain)
  {
    hide WellFormed, Genuine, LocalInv, Meaning, DescMap, BindInputs, ExecPhase, FinishAll, Publish, Expected;
    var ni, n := |p.plan.initialization|, |p.Code()|;
    var bound := BindInputs(p, r, retain, net.given).value;
    BindKeeps(p, loaded, skip, r, retain, net.given);
    ExecPhaseKeeps(p, loaded, skip, r, retain, net, bound, 0, ni);
    var initialized := ExecPhase(p, r, retain, net, bound, 0, ni).value;
    FinishAllKeeps(p, loaded, skip, r, retain, net, ni, initialized, |initialized.groups|);
    var ready := FinishAll(p, retain, net, initialized, |initialized.groups|).value;
    ExecPhaseKeeps(p, loaded, skip, r, retain, net, ready, ni, n);
    var executed := ExecPhase(p, r, retain, net, ready, ni, n).value;
    FinishAllKeeps(p, loaded, skip, r, retain, net, n, executed, |executed.groups|);
    PublishExpected(p, loaded, skip, r, retain, FinishAll(p, retain, net, executed, |executed.groups|).value);
  }

  // ---- A rank that is given every message does return ----

  lemma {:induction false} ReceiveWorks(net: Net, id: TransferId, slots: seq<nat>)
    requires id !in net.faults.failWait && forall k :: 0 <= k < |slots| ==> (id, slots[k]) in net.messages
    ensures ReceiveAll(net, id, slots).Success?
  {
    if slots != [] {
      ReceiveWorks(net, id, slots[..|slots| - 1]);
    }
  }

  lemma FinishGroupWorks(
      p: Program, loaded: LoadedSpec, skip: bool, r: nat, retain: bool, net: Net, n: nat, l: Local, g: nat)
    requires Runnable(p, loaded, skip) && Genuine(p, net.messages) && Complete(p, net.messages) && NoFaults(net.faults)
    requires n <= |p.Code()| && LocalInv(p, r, retain, n, l) && g < |l.groups|
    ensures FinishGroup(p, retain, net, l, g).Success?
  {
    hide Runnable, WellFormed, Genuine, LocalInv, Meaning, DescMap, CompleteGroup, ReceiveAll, CommTyped, LocalSlots, DefinedBefore, Received;
    if !l.groups[g].completed {
      RunnableFacts(p, loaded, skip);
      GroupFacts(p, loaded, skip, r, retain, n, l, g);
      var group := l.groups[g];
      var action := p.Code()[group.command].body.action;
      ReceiveWorks(net, action.id, group.slots);
      ReceivedInOrder(net, action.id, group.slots);
      var got := ReceiveAll(net, action.id, group.slots).value;
      GenuineReceived(p, net, group, got);
      CompleteWorks(p, loaded, skip, r, retain, n, l, g, got);
    }
  }

  lemma EnsureReadyWorks(
      p: Program, loaded: LoadedSpec, skip: bool, r: nat, retain: bool, net: Net, n: nat, l: Local, k: nat, place: Place)
    requires Runnable(p, loaded, skip) && Genuine(p, net.messages) && Complete(p, net.messages) && NoFaults(net.faults)
    requires n < |p.Code()| && LocalInv(p, r, retain, n, l) && k < |Wanted(p, r, n)|
    requires Wanted(p, r, n)[k] in p.Table() ==> p.Table()[Wanted(p, r, n)[k]].place == place
    ensures EnsureReady(p, retain, net, l, Wanted(p, r, n)[k], place).Success?
  {
    hide Runnable, WellFormed, Genuine, Complete, Meaning, DescMap, FinishGroup, Wanted, DefinedBefore, UsesInv, GroupsInv, Validates;
    RunnableFacts(p, loaded, skip);
    OperandHeld(p, loaded, skip, r, retain, n, l, k);
    var id := Wanted(p, r, n)[k];
    assert EntryOk(p, l.groups, id, l.store[id]);
    if l.store[id].Pending? {
      FinishGroupWorks(p, loaded, skip, r, retain, net, n, l, l.store[id].group);
      FinishGroupKeeps(p, loaded, skip, r, retain, net, n, l, l.store[id].group);
      var m := FinishGroup(p, retain, net, l, l.store[id].group).value;
      WantedIsHeld(p, r, retain, n, l, m, id);
      NoLongerPending(p, r, retain, n, l, m, id);
    }
  }

  /** A value whose group has been completed is ready. */
  lemma NoLongerPending(p: Program, r: nat, retain: bool, n: nat, l: Local, m: Local, id: ValueId)
    requires n <= |p.Code()| && LocalInv(p, r, retain, n, l) && LocalInv(p, r, retain, n, m)
    requires id in l.store && l.store[id].Pending? && id in m.store
    requires l.store[id].group < |l.groups| && m.groups == Done(l.groups, l.store[id].group)
    ensures m.store[id].Ready?
  {
    hide DescMap, Meaning, DefinedBefore, UsesInv, Validates, GroupsInv, Here, Live;
    assert EntryOk(p, m.groups, id, m.store[id]);
    assert forall h :: 0 <= h < |l.groups| ==> OpenOk(l.store, h, l.groups[h]);
  }

  lemma {:induction false} CollectWorks(
      p: Program, loaded: LoadedSpec, skip: bool, r: nat, retain: bool, net: Net, n: nat, l: Local, ids: seq<ValueId>, places: seq<Place>)
    requires Runnable(p, loaded, skip) && Genuine(p, net.messages) && Complete(p, net.messages) && NoFaults(net.faults)
    requires n < |p.Code()| && LocalInv(p, r, retain, n, l)
    requires |places| == |ids| && ids <= Wanted(p, r, n)
    requires forall k :: 0 <= k < |ids| && ids[k] in p.Table() ==> p.Table()[ids[k]].place == places[k]
    ensures Collect(p, retain, net, l, ids, places).Success?
  {
    hide Runnable, WellFormed, Genuine, Complete, LocalInv, Meaning, DescMap, EnsureReady, Wanted;
    if ids != [] {
      var k := |ids| - 1;
      RunnableFacts(p, loaded, skip);
      CollectWorks(p, loaded, skip, r, retain, net, n, l, ids[..k], places[..k]);
      CollectKeeps(p, loaded, skip, r, retain, net, n, l, ids[..k], places[..k]);
      EnsureReadyWorks(p, loaded, skip, r, retain, net, n, Collect(p, retain, net, l, ids[..k], places[..k]).value.0, k, places[k]);
    }
  }

  /** The Places an instruction names for its operands are those of its operands. */
  lemma WantedPlaces(p: Program, loaded: LoadedSpec, skip: bool, r: nat, n: nat)
    requires WellFormed(p.plan, loaded, skip) && n < |p.Code()|
    ensures match p.Code()[n].body
            case Encode(_, output) => output in p.Table()
            case Compute(op) => op.place.rank == r ==> forall k :: 0 <= k < |op.inputs| ==>
              op.inputs[k] in p.Table() && p.Table()[op.inputs[k]].place == op.place
            case Comm(action) =>
              && |action.sources| == |action.inputs| == 1 && CommTyped(p, action)
              && (LocalInputs(action, r) == if HasSender(action, r) then [action.inputs[0]] else [])
              && forall k :: 0 <= k < |LocalInputs(action, r)| ==>
                LocalInputs(action, r)[k] in p.Table() && p.Table()[LocalInputs(action, r)[k]].place == LocalSources(action, r)[k]
  {
    hide WellFormed, DescMap, DefinedBefore, KindRule, SpecRule, CommRule, LocalInputs, LocalSources, LocalSlots, SsaOk, CommTyped;
    InstructionFacts(p, loaded, skip, n);
    match p.Code()[n].body
    case Comm(action) =>
      CommFacts(p, loaded, skip, n);
      SourcePlaces(p, action, r);
    case _ =>
  }

  lemma SourcePlaces(p: Program, action: CommAction, r: nat)
    requires CommTyped(p, action)
    ensures |action.sources| == |action.inputs| == 1
    ensures LocalInputs(action, r) == if HasSender(action, r) then [action.inputs[0]] else []
    ensures forall k :: 0 <= k < |LocalInputs(action, r)| ==>
      LocalInputs(action, r)[k] in p.Table() && p.Table()[LocalInputs(action, r)[k]].place == LocalSources(action, r)[k]
  {
    hide DescMap, LocalSlots;
    LocalParts(p, action, r);
    SingleSlot(action.sources, r);
  }

  lemma ExecWorks(p: Program, loaded: LoadedSpec, skip: bool, r: nat, retain: bool, net: Net, l: Local, n: nat)
    requires Runnable(p, loaded, skip) && Genuine(p, net.messages) && Complete(p, net.messages) && NoFaults(net.faults)
    requires n < |p.Code()| && LocalInv(p, r, retain, n, l)
    ensures Exec(p, r, retain, net, l, n).Success?
  {
    hide Runnable, WellFormed, Genuine, Complete, LocalInv, Meaning, DescMap, Collect, FinishCompute, FinishEncode, PostComm, LocalInputs, LocalSlots, CommTyped;
    RunnableFacts(p, loaded, skip);
    WantedPlaces(p, loaded, skip, r, n);
    match p.Code()[n].body
    case Encode(payload, output) => EncodeWorks(p, loaded, skip, r, retain, n, l, payload, output);
    case Compute(op) =>
      if op.place.rank == r {
        var places := Repeat(op.place, |op.inputs|);
        CollectWorks(p, loaded, skip, r, retain, net, n, l, op.inputs, places);
        CollectKeeps(p, loaded, skip, r, retain, net, n, l, op.inputs, places);
        var got := Collect(p, retain, net, l, op.inputs, places).value;
        ComputeWorks(p, loaded, skip, r, retain, n, got.0, op, got.1);
      }
    case Comm(action) =>
      CollectWorks(p, loaded, skip, r, retain, net, n, l, LocalInputs(action, r), LocalSources(action, r));
      CollectKeeps(p, loaded, skip, r, retain, net, n, l, LocalInputs(action, r), LocalSources(action, r));
      var got := Collect(p, retain, net, l, LocalInputs(action, r), LocalSources(action, r)).value;
      SourcesCollected(p, r, n, got.0.store, got.1);
      PostKeeps(p, loaded, skip, r, retain, n, got.0, action);
  }

  lemma {:induction false} ExecPhaseWorks(
      p: Program, loaded: LoadedSpec, skip: bool, r: nat, retain: bool, net: Net, l: Local, first: nat, last: nat)
    requires Runnable(p, loaded, skip) && Genuine(p, net.messages) && Complete(p, net.messages) && NoFaults(net.faults)
    requires first <= last <= |p.Code()| && LocalInv(p, r, retain, first, l)
    ensures ExecPhase(p, r, retain, net, l, first, last).Success?
    decreases last
  {
    hide Runnable, WellFormed, Genuine, Complete, LocalInv, Exec;
    if first < last {
      RunnableFacts(p, loaded, skip);
      ExecPhaseWorks(p, loaded, skip, r, retain, net, l, first, last - 1);
      ExecPhaseKeeps(p, loaded, skip, r, retain, net, l, first, last - 1);
      ExecWorks(p, loaded, skip, r, retain, net, ExecPhase(p, r, retain, net, l, first, last - 1).value, last - 1);
    }
  }

  lemma {:induction false} FinishAllWorks(
      p: Program, loaded: LoadedSpec, skip: bool, r: nat, retain: bool, net: Net, n: nat, l: Local, k: nat)
    requires Runnable(p, loaded, skip) && Genuine(p, net.messages) && Complete(p, net.messages) && NoFaults(net.faults)
    requires n <= |p.Code()| && LocalInv(p, r, retain, n, l) && k <= |l.groups|
    ensures FinishAll(p, retain, net, l, k).Success?
  {
    hide Runnable, WellFormed, Genuine, Complete, LocalInv, FinishGroup;
    if k > 0 {
      RunnableFacts(p, loaded, skip);
      FinishAllWorks(p, loaded, skip, r, retain, net, n, l, k - 1);
      FinishAllKeeps(p, loaded, skip, r, retain, net, n, l, k - 1);
      FinishGroupWorks(p, loaded, skip, r, retain, net, n, FinishAll(p, retain, net, l, k - 1).value, k - 1);
    }
  }

  /** A runnable program on a rank that is given its own inputs and every message, without injected faults. */
  ghost predicate Served(p: Program, loaded: LoadedSpec, skip: bool, r: nat, net: Net) {
    && Runnable(p, loaded, skip)
    && Genuine(p, net.messages) && Complete(p, net.messages)
    && net.given == LocalExternals(p, r)
    && NoFaults(net.faults)
  }

  /** A rank of a runnable program that receives every message, without injected faults, returns. */
  lemma RunRankWorks(p: Program, loaded: LoadedSpec, skip: bool, r: nat, retain: bool, net: Net)
    requires Served(p, loaded, skip, r, net)
    ensures RunRank(p, r, retain, net) == Success(Expected(p, r, retain))
  {
    hide Runnable, WellFormed, Genuine, Complete, LocalInv, Meaning, DescMap, BindInputs, ExecPhase, FinishAll, Publish, Expected;
    RunnableFacts(p, loaded, skip);
    var ni, n := |p.plan.initialization|, |p.Code()|;
    BindWorks(p, loaded, skip, r, retain, net.given);
    var bound := BindInputs(p, r, retain, net.given).value;
    BindKeeps(p, loaded, skip, r, retain, net.given);
    ExecPhaseWorks(p, loaded, skip, r, retain, net, bound, 0, ni);
    ExecPhaseKeeps(p, loaded, skip, r, retain, net, bound, 0, ni);
    var initialized := ExecPhase(p, r, retain, net, bound, 0, ni).value;
    FinishAllWorks(p, loaded, skip, r, retain, net, ni, initialized, |initialized.groups|);
    FinishAllKeeps(p, loaded, skip, r, retain, net, ni, initialized, |initialized.groups|);
    var ready := FinishAll(p, retain, net, initialized, |initialized.groups|).value;
    ExecPhaseWorks(p, loaded, skip, r, retain, net, ready, ni, n);
    ExecPhaseKeeps(p, loaded, skip, r, retain, net, ready, ni, n);
    var executed := ExecPhase(p, r, retain, net, ready, ni, n).value;
    FinishAllWorks(p, loaded, skip, r, retain, net, n, executed, |executed.groups|);
    FinishAllKeeps(p, loaded, skip, r, retain, net, n, executed, |executed.groups|);
    var finished := FinishAll(p, retain, net, executed, |executed.groups|).value;
    PublishExpected(p, loaded, skip, r, retain, finished);
    RunRankExpected(p, loaded, skip, r, retain, net);
  }
}
