/** What holds of one rank in every reachable state, and that its own operations keep it. */
module ProtocolNode {
  import opened Wrappers
  import opened Plan
  import opened Rules
  import opened Vec
  import opened Semantics
  import opened RankState
  import opened RankInvariant
  import opened RankSteps
  import opened RankRun
  import opened Protocol

  /** All ranks passed their checks and the barrier's comparison. */
  ghost predicate Launched(cfg: Config) {
    && cfg.ranks != []
    && (forall r :: 0 <= r < |cfg.ranks| ==> SetupOk(cfg, r))
    && (forall r :: 0 <= r < |cfg.ranks| ==> cfg.ranks[r].skip == cfg.ranks[0].skip)
    && (cfg.ranks[0].skip || forall r :: 0 <= r < |cfg.ranks| ==> cfg.ranks[r].digest == cfg.ranks[0].digest)
  }

  /** The operands rank `r` collects for instruction `pc`. */
  function Wanted(p: Program, r: int, pc: nat): seq<ValueId> {
    if pc >= |p.Code()| then []
    else
      match p.Code()[pc].body
      case Encode(_, _) => []
      case Compute(op) => if op.place.rank == r then op.inputs else []
      case Comm(action) => LocalInputs(action, r)
  }

  /** Once an instruction after the initialization has begun, every initialization transfer is complete. */
  ghost predicate FenceOk(p: Program, pc: nat, args: seq<Payload>, groups: seq<Group>) {
    pc > |p.plan.initialization| || (pc == |p.plan.initialization| && args != []) ==>
      forall g :: 0 <= g < |groups| && groups[g].command < |p.plan.initialization| ==> groups[g].completed
  }

  function CompletedCount(groups: seq<Group>): nat {
    if groups == [] then 0
    else CompletedCount(groups[..|groups| - 1]) + if groups[|groups| - 1].completed then 1 else 0
  }

  /** A rank in the middle of its program. */
  ghost predicate Active(cfg: Config, r: nat, node: Node, pc: nat, args: seq<Payload>)
    requires r < |cfg.ranks|
  {
    var p := cfg.program;
    && Launched(cfg)
    && pc <= |p.Code()|
    && LocalInv(p, r, cfg.ranks[r].retain, pc, node.local)
    && Fetched(node.local.store, Wanted(p, r, pc), args)
    && FenceOk(p, pc, args, node.local.groups)
    && node.posts == |node.local.groups|
  }

  /** The payloads received so far are the meanings of the first local outputs. */
  ghost predicate Received(p: Program, group: Group, got: seq<Payload>) {
    && |got| <= |group.outputIds|
    && forall k :: 0 <= k < |got| ==>
      (group.outputIds[k] in p.Table() && group.outputIds[k] in Meaning(p) && got[k] == Meaning(p)[group.outputIds[k]] &&
       Validates(got[k], p.Table()[group.outputIds[k]], p.degree))
  }

  ghost predicate NodeInv(cfg: Config, r: nat, node: Node)
    requires r < |cfg.ranks|
  {
    var p := cfg.program;
    match node.control
    case Setup => true
    case Barrier => true
    case Running(pc, args) => Active(cfg, r, node, pc, args) && node.waits == CompletedCount(node.local.groups)
    case Waiting(pc, args, g, joined, got) =>
      && Active(cfg, r, node, pc, args)
      && g < |node.local.groups| && !node.local.groups[g].completed
      && Received(p, node.local.groups[g], got)
      && (!joined ==> got == [] && HasSender(p.Code()[node.local.groups[g].command].body.action, r))
      && node.waits == CompletedCount(node.local.groups) + 1
    case Finished(artifact) =>
      && Launched(cfg)
      && LocalInv(p, r, cfg.ranks[r].retain, |p.Code()|, node.local)
      && AllCompleted(node.local.groups)
      && artifact == Expected(p, r, cfg.ranks[r].retain)
      && node.posts == node.waits == |node.local.groups|
    case Panicked => true
  }

  /** A sender carries the meaning of its transfer's input. */
  ghost predicate SenderOk(cfg: Config, command: nat, sender: Sender) {
    var p := cfg.program;
    && Launched(cfg)
    && command < |p.Code()| && p.Code()[command].body.Comm?
    && CommTyped(p, p.Code()[command].body.action)
    && var action := p.Code()[command].body.action;
    && 0 <= action.sources[0].rank < |cfg.ranks|
    && sender.count == |action.destinations|
    && action.inputs[0] in Meaning(p) && sender.value == Meaning(p)[action.inputs[0]]
    && Validates(sender.value, p.Table()[action.inputs[0]], p.degree)
  }

  lemma LaunchedIsVerified(cfg: Config, r: nat)
    requires Launched(cfg) && r < |cfg.ranks|
    ensures WellFormed(cfg.program.plan, cfg.loaded, cfg.ranks[r].skip)
    ensures |cfg.ranks| == cfg.program.plan.target.worldSize
  {
    hide WellFormed;
    assert SetupOk(cfg, r);
  }

  lemma {:induction false} CompletedStep(groups: seq<Group>, g: nat)
    requires g < |groups| && !groups[g].completed
    ensures CompletedCount(Done(groups, g)) == CompletedCount(groups) + 1
  {
    var k := |groups| - 1;
    if g < k {
      assert Done(groups, g)[..k] == Done(groups[..k], g);
      CompletedStep(groups[..k], g);
    } else {
      assert Done(groups, g)[..k] == groups[..k];
    }
  }

  lemma CompletedAppend(groups: seq<Group>, group: Group)
    ensures CompletedCount(groups + [group]) == CompletedCount(groups) + if group.completed then 1 else 0
  {
    assert (groups + [group])[..|groups|] == groups;
  }

  lemma {:induction false} CompletedAll(groups: seq<Group>)
    requires AllCompleted(groups)
    ensures CompletedCount(groups) == |groups|
  {
    if groups != [] {
      CompletedAll(groups[..|groups| - 1]);
    }
  }

  /** Every output of a communication means what its input means. */
  lemma CommMeaning(p: Program, loaded: LoadedSpec, skip: bool, n: nat)
    requires WellFormed(p.plan, loaded, skip) && n < |p.Code()| && p.Code()[n].body.Comm?
    ensures var action := p.Code()[n].body.action; |action.inputs| == 1 && (action.inputs[0] in Meaning(p) ==>
      forall id :: id in action.outputs ==> id in Meaning(p) && Meaning(p)[id] == Meaning(p)[action.inputs[0]])
  {
    hide WellFormed, Meaning, DescMap, CommTyped;
    VerifiedIsSsa(p, loaded, skip);
    CommFacts(p, loaded, skip, n);
    CommShapeFacts(p, p.Code()[n].body.action);
    MeaningEquation(p, n);
  }

  /** A value valid for the source descriptor is valid for every output descriptor. */
  lemma CommValidates(p: Program, loaded: LoadedSpec, skip: bool, n: nat, v: Payload)
    requires WellFormed(p.plan, loaded, skip) && n < |p.Code()| && p.Code()[n].body.Comm?
    ensures var action := p.Code()[n].body.action;
      CommTyped(p, action) && (Validates(v, p.Table()[action.inputs[0]], p.degree) ==>
      forall id :: id in action.outputs ==> Validates(v, p.Table()[id], p.degree))
  {
    hide WellFormed, DescMap, DefinedBefore;
    InstructionFacts(p, loaded, skip, n);
    CommFacts(p, loaded, skip, n);
    var action := p.Code()[n].body.action;
    forall id | id in action.outputs && Validates(v, p.Table()[action.inputs[0]], p.degree)
      ensures Validates(v, p.Table()[id], p.degree)
    {
      var i :| 0 <= i < |action.outputs| && action.outputs[i] == id;
      assert CommOutputOk(p.plan, action, p.Table()[action.inputs[0]], p.Table(), i);
    }
  }

  // ---- The operations of a running rank ----

  lemma BeginWaitKeeps(cfg: Config, r: nat, node: Node, g: nat)
    requires r < |cfg.ranks| && node.control.Running? && NodeInv(cfg, r, node)
    requires BeginWait(cfg.program, r, node, g).Moved?
    ensures NodeInv(cfg, r, BeginWait(cfg.program, r, node, g).node)
  {
    hide Launched, LocalInv, Fetched, FenceOk, CompletedCount, DescMap, Meaning;
  }

  lemma FetchKeeps(cfg: Config, r: nat, node: Node, id: ValueId, place: Place)
    requires r < |cfg.ranks| && node.control.Running? && NodeInv(cfg, r, node)
    requires var c := node.control; var ids := Wanted(cfg.program, r, c.pc);
      |c.args| < |ids| && ids[|c.args|] == id
    requires AtFence(cfg.program, node.control.pc) ==> AllCompleted(node.local.groups)
    requires Fetch(cfg.program, r, node, id, place).Moved?
    ensures NodeInv(cfg, r, Fetch(cfg.program, r, node, id, place).node)
  {
    hide Launched, LocalInv, CompletedCount, DescMap, Meaning, Wanted;
    if node.local.store[id].Pending? {
      BeginWaitKeeps(cfg, r, node, node.local.store[id].group);
    }
  }

  /** Moving to the next instruction carries the fence along. */
  lemma AdvanceFence(p: Program, pc: nat, args: seq<Payload>, groups: seq<Group>, after: seq<Group>)
    requires FenceOk(p, pc, args, groups) && (AtFence(p, pc) ==> AllCompleted(groups))
    requires after == groups || (exists group :: after == groups + [group] && group.command == pc)
    ensures FenceOk(p, pc + 1, [], after)
  {
    hide DescMap;
  }

  lemma RunComputeKeeps(cfg: Config, r: nat, node: Node, op: ComputeOp)
    requires r < |cfg.ranks| && node.control.Running? && NodeInv(cfg, r, node) && node.control.pc < |cfg.program.Code()|
    requires cfg.program.Code()[node.control.pc].body == Compute(op)
    requires AtFence(cfg.program, node.control.pc) ==> AllCompleted(node.local.groups)
    requires RunCompute(cfg, r, node, op).Moved?
    ensures NodeInv(cfg, r, RunCompute(cfg, r, node, op).node)
  {
    hide Launched, LocalInv, CompletedCount, DescMap, Meaning, FenceOk, FinishCompute, WellFormed, Fetch, AllCompleted;
    var p, pc, args, l := cfg.program, node.control.pc, node.control.args, node.local;
    var retain, skip := cfg.ranks[r].retain, cfg.ranks[r].skip;
    LaunchedIsVerified(cfg, r);
    AdvanceFence(p, pc, args, l.groups, l.groups);
    if op.place.rank != r {
      SkipKeeps(p, cfg.loaded, skip, r, retain, pc, l);
    } else if |args| < |op.inputs| {
      FetchKeeps(cfg, r, node, op.inputs[|args|], op.place);
    } else {
      ComputeKeeps(p, cfg.loaded, skip, r, retain, pc, l, op, args);
      ComputeGroups(p, retain, l, op, args);
    }
  }

  lemma ComputeGroups(p: Program, retain: bool, l: Local, op: ComputeOp, args: seq<Payload>)
    requires FinishCompute(p, retain, l, op, args).Success?
    ensures FinishCompute(p, retain, l, op, args).value.groups == l.groups
  {
    hide ComputeNow, DescMap, Validates;
    var l' := l.(store := DefineReady(l.store, op.output, op.place, ComputeNow(op, args).value).value);
    ReleaseGroups(retain, l', op.inputs);
  }

  lemma {:induction false} ReleaseGroups(retain: bool, l: Local, ids: seq<ValueId>)
    ensures ReleaseAll(retain, l, ids).Success? ==> ReleaseAll(retain, l, ids).value.groups == l.groups
    decreases |ids|
  {
    if ids != [] && Release(retain, l, ids[0]).Success? {
      ReleaseGroups(retain, Release(retain, l, ids[0]).value, ids[1..]);
    }
  }

  lemma RunEncodeKeeps(cfg: Config, r: nat, node: Node, payload: EncodePayload, output: ValueId)
    requires r < |cfg.ranks| && node.control.Running? && NodeInv(cfg, r, node) && node.control.pc < |cfg.program.Code()|
    requires cfg.program.Code()[node.control.pc].body == Encode(payload, output)
    requires AtFence(cfg.program, node.control.pc) ==> AllCompleted(node.local.groups)
    requires RunEncode(cfg, r, node, payload, output).Moved?
    ensures NodeInv(cfg, r, RunEncode(cfg, r, node, payload, output).node)
  {
    hide Launched, LocalInv, CompletedCount, DescMap, Meaning, FenceOk, WellFormed, EncodeValue, AllCompleted, Validates;
    var p, pc, l := cfg.program, node.control.pc, node.local;
    var retain, skip := cfg.ranks[r].retain, cfg.ranks[r].skip;
    LaunchedIsVerified(cfg, r);
    AdvanceFence(p, pc, node.control.args, l.groups, l.groups);
    if p.Table()[output].place.rank != r {
      SkipKeeps(p, cfg.loaded, skip, r, retain, pc, l);
    } else {
      EncodeKeeps(p, cfg.loaded, skip, r, retain, pc, l, payload, output);
    }
  }

  lemma SourcesCollected(p: Program, r: int, pc: nat, store: Store, args: seq<Payload>)
    requires Fetched(store, Wanted(p, r, pc), args) && |args| == |Wanted(p, r, pc)|
    ensures SourcesReady(store, Wanted(p, r, pc))
  {
    hide Wanted;
    forall id | id in Wanted(p, r, pc) ensures id in store && store[id].Ready? {
      var j :| 0 <= j < |Wanted(p, r, pc)| && Wanted(p, r, pc)[j] == id;
    }
  }

  lemma RunCommKeeps(cfg: Config, r: nat, node: Node, action: CommAction)
    requires r < |cfg.ranks| && node.control.Running? && NodeInv(cfg, r, node) && node.control.pc < |cfg.program.Code()|
    requires cfg.program.Code()[node.control.pc].body == Comm(action)
    requires AtFence(cfg.program, node.control.pc) ==> AllCompleted(node.local.groups)
    ensures RunComm(cfg, r, node, action).Moved? ==> NodeInv(cfg, r, RunComm(cfg, r, node, action).node)
    ensures RunComm(cfg, r, node, action).Started? ==>
      var m := RunComm(cfg, r, node, action);
      NodeInv(cfg, r, m.node) && m.node.control == Running(node.control.pc + 1, []) && HasSender(action, r) && SenderOk(cfg, node.control.pc, m.sender) && m.sender.next == 0 &&
      (m.sender.status == if m.sender.count == 0 then Sent else Sending)
  {
    hide Launched, LocalInv, CompletedCount, DescMap, Meaning, FenceOk, PostComm, WellFormed, Fetch, AllCompleted, Fetched, CommTyped, Validates;
    var p, pc, args, l := cfg.program, node.control.pc, node.control.args, node.local;
    var retain, skip := cfg.ranks[r].retain, cfg.ranks[r].skip;
    LaunchedIsVerified(cfg, r);
    CommFacts(p, cfg.loaded, skip, pc);
    CommShapeFacts(p, action);
    LocalParts(p, action, r);
    FetchedBound(l.store, Wanted(p, r, pc), args);
    if |args| < |LocalInputs(action, r)| {
      if RunComm(cfg, r, node, action).Moved? {
        FetchKeeps(cfg, r, node, LocalInputs(action, r)[|args|], Pick(action.sources, LocalSlots(action.sources, r))[|args|]);
      }
    } else {
      SourcesCollected(p, r, pc, l.store, args);
      PostKeeps(p, cfg.loaded, skip, r, retain, pc, l, action);
      CompletedAppend(l.groups, MakeGroup(action, r, pc));
      AdvanceFence(p, pc, args, l.groups, l.groups + [MakeGroup(action, r, pc)]);
      FetchedEmpty(PostComm(r, l, pc, action).value.store, Wanted(p, r, pc + 1));
      if HasSender(action, r) {
        SourceMeaning(cfg, r, node, action);
      }
    }
  }

  lemma FetchedBound(store: Store, ids: seq<ValueId>, args: seq<Payload>)
    requires Fetched(store, ids, args)
    ensures |args| <= |ids|
  {
  }

  lemma FetchedEmpty(store: Store, ids: seq<ValueId>)
    ensures Fetched(store, ids, [])
  {
  }

  /** The collected source of a local communication is the meaning of its input, and valid. */
  lemma SourceMeaning(cfg: Config, r: nat, node: Node, action: CommAction)
    requires r < |cfg.ranks| && node.control.Running? && NodeInv(cfg, r, node) && node.control.pc < |cfg.program.Code()|
    requires cfg.program.Code()[node.control.pc].body == Comm(action) && CommTyped(cfg.program, action)
    requires LocalInputs(action, r) == [action.inputs[0]] && |node.control.args| == 1
    ensures var p := cfg.program; var id := action.inputs[0];
      id in Meaning(p) && node.control.args[0] == Meaning(p)[id] && Validates(node.control.args[0], p.Table()[id], p.degree)
  {
    hide Launched, GroupsInv, UsesInv, DescMap, Meaning, FenceOk, WellFormed, CommTyped, Validates, CompletedCount, DefinedBefore;
    var ids := [action.inputs[0]];
    assert Fetched(node.local.store, ids, node.control.args);
    assert ids[0] in node.local.store && node.local.store[ids[0]].value == node.control.args[0];
    assert EntryOk(cfg.program, node.local.groups, action.inputs[0], node.local.store[action.inputs[0]]);
  }

  lemma RunNodeKeeps(cfg: Config, r: nat, node: Node)
    requires r < |cfg.ranks| && node.control.Running? && NodeInv(cfg, r, node)
    ensures RunNode(cfg, r, node).Moved? ==> NodeInv(cfg, r, RunNode(cfg, r, node).node)
    ensures RunNode(cfg, r, node).Started? ==>
      var m := RunNode(cfg, r, node); var pc := node.control.pc;
      && NodeInv(cfg, r, m.node) && m.node.control == Running(pc + 1, [])
      && pc < |cfg.program.Code()| && cfg.program.Code()[pc].body.Comm? && HasSender(cfg.program.Code()[pc].body.action, r)
      && SenderOk(cfg, pc, m.sender) && m.sender.next == 0
      && (m.sender.status == if m.sender.count == 0 then Sent else Sending)
  {
    hide NodeInv, SenderOk, LocalInv, DescMap, Meaning, Publish, BeginWait, RunEncode, RunCompute, Expected, AllCompleted;
    var p, pc := cfg.program, node.control.pc;
    if AtFence(p, pc) && FirstOpen(node.local.groups, 0).Some? {
      if RunNode(cfg, r, node).Moved? {
        BeginWaitKeeps(cfg, r, node, FirstOpen(node.local.groups, 0).value);
      }
    } else {
      PcBound(cfg, r, node);
      FencePassed(p, pc, node.local.groups);
      if pc >= |p.Code()| {
        PublishKeeps(cfg, r, node);
      } else {
        match p.Code()[pc].body
        case Encode(payload, output) =>
          if RunEncode(cfg, r, node, payload, output).Moved? { RunEncodeKeeps(cfg, r, node, payload, output); }
        case Compute(op) =>
          if RunCompute(cfg, r, node, op).Moved? { RunComputeKeeps(cfg, r, node, op); }
        case Comm(action) => RunCommKeeps(cfg, r, node, action);
      }
    }
  }

  lemma PcBound(cfg: Config, r: nat, node: Node)
    requires r < |cfg.ranks| && node.control.Running? && NodeInv(cfg, r, node)
    ensures node.control.pc <= |cfg.program.Code()|
  {
    hide Launched, LocalInv;
  }

  lemma FencePassed(p: Program, pc: nat, groups: seq<Group>)
    requires AtFence(p, pc) ==> FirstOpen(groups, 0).None?
    ensures AtFence(p, pc) ==> AllCompleted(groups)
  {
  }

  lemma PublishKeeps(cfg: Config, r: nat, node: Node)
    requires r < |cfg.ranks| && node.control.Running? && NodeInv(cfg, r, node)
    requires node.control.pc >= |cfg.program.Code()| && AllCompleted(node.local.groups)
    ensures Publish(cfg.program, r, cfg.ranks[r].retain, node.local).Success?
    ensures NodeInv(cfg, r, node.(control := Finished(Publish(cfg.program, r, cfg.ranks[r].retain, node.local).value)))
  {
    hide Launched, LocalInv, DescMap, Meaning, Publish, Expected, WellFormed, AllCompleted, Fetched, FenceOk;
    LaunchedIsVerified(cfg, r);
    PublishExpected(cfg.program, cfg.loaded, cfg.ranks[r].skip, r, cfg.ranks[r].retain, node.local);
    CompletedAll(node.local.groups);
  }
}
