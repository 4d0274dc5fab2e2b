/** Without injected faults a verified plan on valid inputs never raises an error on any rank or sender. */
module ProtocolCalm {
  import opened Wrappers
  import opened Plan
  import opened Rules
  import opened Vec
  import opened Semantics
  import opened Widths
  import opened RankState
  import opened RankInvariant
  import opened RankSteps
  import opened RankRun
  import opened Protocol
  import opened ProtocolNode
  import opened ProtocolSafety

  predicate NoFaults(faults: Faults) {
    faults.failPublish == faults.failWait == faults.corruptCount == faults.corruptType == faults.corruptMeta ==
      faults.failCommunicate == {} && faults.failCompute.None?
  }

  /** The hypotheses of a fault-free run. */
  ghost predicate Healthy(cfg: Config) {
    && Launched(cfg)
    && Runnable(cfg.program, cfg.loaded, cfg.ranks[0].skip)
    && (forall r :: 0 <= r < |cfg.ranks| ==> cfg.ranks[r].given == LocalExternals(cfg.program, r))
    && NoFaults(cfg.faults)
  }

  ghost predicate Calm(s: State) {
    && s.abort.None?
    && (forall r :: 0 <= r < |s.nodes| ==> !s.nodes[r].control.Panicked?)
    && (forall c :: c in s.senders ==> s.senders[c].status != Broken)
  }

  lemma HealthyFacts(cfg: Config, r: nat)
    requires Healthy(cfg) && r < |cfg.ranks|
    ensures Runnable(cfg.program, cfg.loaded, cfg.ranks[r].skip)
    ensures Launched(cfg) && NoFaults(cfg.faults) && cfg.ranks[r].given == LocalExternals(cfg.program, r)
  {
    hide SetupOk, Validated, ScalesRunnable;
  }

  /** An operand an instruction asks for is in the store, at the Place the instruction expects. */
  lemma OperandHeld(p: Program, loaded: LoadedSpec, skip: bool, r: int, retain: bool, n: nat, l: Local, k: nat)
    requires WellFormed(p.plan, loaded, skip) && n < |p.Code()| && LocalInv(p, r, retain, n, l) && k < |Wanted(p, r, n)|
    ensures var id := Wanted(p, r, n)[k];
      id in l.store && id in p.Table() && l.store[id].place == p.Table()[id].place
  {
    hide WellFormed, DescMap, DefinedBefore, Meaning, GroupsInv, TotalUses, FinalUse, PendingUses, Wanted, OpenOk;
    var id := Wanted(p, r, n)[k];
    WantedFacts(p, loaded, skip, r, n, k);
    if !retain {
      CountedIsUsed(p, r, retain, n, l, id);
    }
    assert EntryOk(p, l.groups, id, l.store[id]);
  }

  lemma WantedFacts(p: Program, loaded: LoadedSpec, skip: bool, r: int, n: nat, k: nat)
    requires WellFormed(p.plan, loaded, skip) && n < |p.Code()| && k < |Wanted(p, r, n)|
    ensures var id := Wanted(p, r, n)[k];
      Here(p, r, n, id) && UsesFrom(p.Code(), r, n, id) > 0 &&
      (match p.Code()[n].body
       case Encode(_, _) => false
       case Compute(op) => p.Table()[id].place == op.place && op.place.rank == r
       case Comm(action) => CommTyped(p, action) && p.Table()[id].place == action.sources[0])
  {
    hide WellFormed, DescMap, DefinedBefore, KindRule, SpecRule, CommRule;
    InstructionFacts(p, loaded, skip, n);
    var id := Wanted(p, r, n)[k];
    assert id in Wanted(p, r, n);
    match p.Code()[n].body
    case Encode(_, _) =>
    case Compute(op) =>
      assert op.inputs[k] in Uses(p.Code()[n].body);
    case Comm(action) =>
      CommFacts(p, loaded, skip, n);
      LocalParts(p, action, r);
      assert id in Uses(p.Code()[n].body);
  }

  lemma FetchWorks(cfg: Config, r: nat, node: Node, place: Place)
    requires Healthy(cfg) && r < |cfg.ranks| && node.control.Running? && NodeInv(cfg, r, node)
    requires node.control.pc < |cfg.program.Code()| && |node.control.args| < |Wanted(cfg.program, r, node.control.pc)|
    requires var id := Wanted(cfg.program, r, node.control.pc)[|node.control.args|];
      id in cfg.program.Table() ==> cfg.program.Table()[id].place == place
    ensures Fetch(cfg.program, r, node, Wanted(cfg.program, r, node.control.pc)[|node.control.args|], place).Moved?
  {
    hide Launched, Healthy, DescMap, Meaning, WellFormed, Wanted, Fetched, FenceOk, CompletedCount, DefinedBefore, UsesInv, OpenOk, Validates;
    HealthyFacts(cfg, r);
    LaunchedIsVerified(cfg, r);
    var p, pc, l := cfg.program, node.control.pc, node.local;
    var id := Wanted(p, r, pc)[|node.control.args|];
    OperandHeld(p, cfg.loaded, cfg.ranks[r].skip, r, cfg.ranks[r].retain, pc, l, |node.control.args|);
    assert EntryOk(p, l.groups, id, l.store[id]);
    if l.store[id].Pending? {
      assert GroupOk(p, r, pc, l.store[id].group, l.groups[l.store[id].group]);
    }
  }

  lemma RunComputeWorks(cfg: Config, r: nat, node: Node, op: ComputeOp)
    requires Healthy(cfg) && r < |cfg.ranks| && node.control.Running? && NodeInv(cfg, r, node)
    requires node.control.pc < |cfg.program.Code()| && cfg.program.Code()[node.control.pc].body == Compute(op)
    ensures RunCompute(cfg, r, node, op).Moved?
  {
    hide Launched, Healthy, DescMap, Meaning, WellFormed, FenceOk, CompletedCount, LocalInv, FinishCompute, Runnable, Fetch;
    HealthyFacts(cfg, r);
    LaunchedIsVerified(cfg, r);
    var p, pc, args := cfg.program, node.control.pc, node.control.args;
    if op.place.rank == r {
      if |args| < |op.inputs| {
        WantedFacts(p, cfg.loaded, cfg.ranks[r].skip, r, pc, |args|);
        FetchWorks(cfg, r, node, op.place);
      } else {
        ComputeWorks(p, cfg.loaded, cfg.ranks[r].skip, r, cfg.ranks[r].retain, pc, node.local, op, args);
      }
    }
  }

  lemma RunEncodeWorks(cfg: Config, r: nat, node: Node, payload: EncodePayload, output: ValueId)
    requires Healthy(cfg) && r < |cfg.ranks| && node.control.Running? && NodeInv(cfg, r, node)
    requires node.control.pc < |cfg.program.Code()| && cfg.program.Code()[node.control.pc].body == Encode(payload, output)
    ensures RunEncode(cfg, r, node, payload, output).Moved?
  {
    hide Launched, Healthy, DescMap, Meaning, FenceOk, CompletedCount, LocalInv, FinishEncode, Runnable, Fetched;
    HealthyFacts(cfg, r);
    EncodeWorks(cfg.program, cfg.loaded, cfg.ranks[r].skip, r, cfg.ranks[r].retain, node.control.pc, node.local, payload, output);
  }

  lemma RunCommWorks(cfg: Config, r: nat, node: Node, action: CommAction)
    requires Healthy(cfg) && r < |cfg.ranks| && node.control.Running? && NodeInv(cfg, r, node)
    requires node.control.pc < |cfg.program.Code()| && cfg.program.Code()[node.control.pc].body == Comm(action)
    ensures !RunComm(cfg, r, node, action).Failed?
  {
    hide Launched, Healthy, DescMap, Meaning, WellFormed, FenceOk, CompletedCount, LocalInv, PostComm, Runnable, Fetch, CommTyped, LocalSlots, Fetched;
    HealthyFacts(cfg, r);
    LaunchedIsVerified(cfg, r);
    var p, pc, args := cfg.program, node.control.pc, node.control.args;
    CommFacts(p, cfg.loaded, cfg.ranks[r].skip, pc);
    CommShapeFacts(p, action);
    LocalParts(p, action, r);
    SingleSlot(action.sources, r);
    FetchedBound(node.local.store, Wanted(p, r, pc), args);
    if |args| < |LocalInputs(action, r)| {
      WantedFacts(p, cfg.loaded, cfg.ranks[r].skip, r, pc, |args|);
      FetchWorks(cfg, r, node, action.sources[0]);
    } else {
      SourcesCollected(p, r, pc, node.local.store, args);
      PostKeeps(p, cfg.loaded, cfg.ranks[r].skip, r, cfg.ranks[r].retain, pc, node.local, action);
    }
  }

  lemma RunNodeWorks(cfg: Config, r: nat, node: Node)
    requires Healthy(cfg) && r < |cfg.ranks| && node.control.Running? && NodeInv(cfg, r, node)
    ensures !RunNode(cfg, r, node).Failed?
  {
    hide Healthy, NodeInv, DescMap, Publish, RunEncode, RunCompute, RunComm, BeginWait, AllCompleted;
    var p, pc := cfg.program, node.control.pc;
    PcBound(cfg, r, node);
    if AtFence(p, pc) && FirstOpen(node.local.groups, 0).Some? {
      BeginWaitWorks(cfg, r, node, FirstOpen(node.local.groups, 0).value);
    } else {
      FencePassed(p, pc, node.local.groups);
      if pc >= |p.Code()| {
        PublishKeeps(cfg, r, node);
      } else {
        match p.Code()[pc].body
        case Encode(payload, output) => RunEncodeWorks(cfg, r, node, payload, output);
        case Compute(op) => RunComputeWorks(cfg, r, node, op);
        case Comm(action) => RunCommWorks(cfg, r, node, action);
      }
    }
  }

  lemma BeginWaitWorks(cfg: Config, r: nat, node: Node, g: nat)
    requires r < |cfg.ranks| && node.control.Running? && NodeInv(cfg, r, node)
    requires g < |node.local.groups| && !node.local.groups[g].completed
    ensures BeginWait(cfg.program, r, node, g).Moved?
  {
    hide Launched, StoreInv, UsesInv, DescMap, Meaning, Fetched, FenceOk, CompletedCount;
    assert GroupOk(cfg.program, r, node.control.pc, g, node.local.groups[g]);
  }

  /** A sender that is waited for exists. */
  lemma JoinedSenderExists(cfg: Config, s: State, r: nat)
    requires Inv(cfg, s) && r < |cfg.ranks| && s.nodes[r].control.Waiting? && !s.nodes[r].control.joined
    ensures s.nodes[r].control.group < |s.nodes[r].local.groups|
    ensures s.nodes[r].local.groups[s.nodes[r].control.group].command in s.senders
  {
    hide SetupOk, Launched, StoreInv, UsesInv, DescMap, Meaning, Fetched, FenceOk, CompletedCount, SenderInv, MessageInv;
    assert RankInv(cfg, s, r) && StartedInv(cfg, s, r);
    var node := s.nodes[r];
    assert GroupOk(cfg.program, r, node.control.pc, node.control.group, node.local.groups[node.control.group]);
  }

  lemma WaitCalm(cfg: Config, s: State, r: nat)
    requires Healthy(cfg) && Inv(cfg, s) && Calm(s) && r < |cfg.ranks|
    requires s.nodes[r].control.Waiting? && Enabled(cfg, s, RankMoves(r))
    ensures Calm(WaitStep(cfg, s, r))
  {
    hide Healthy, LocalInv, Launched, Meaning, DescMap, Validates, FenceOk, CompletedCount, Wanted, Fetched, SenderInv, MessageInv, SetupOk, CompleteGroup, Inv, HasSender, Runnable, WellFormed;
    HealthyFacts(cfg, r);
    LaunchedIsVerified(cfg, r);
    InvShape(cfg, s);
    assert RankInv(cfg, s, r);
    var node := s.nodes[r];
    var c, p := node.control, cfg.program;
    if !c.joined {
      JoinedSenderExists(cfg, s, r);
    } else if NextKey(p, node).None? {
      AllReceived(cfg, r, node);
      WaitedGroup(cfg, r, node);
      var outputs := Corrupt(cfg.faults, p.Code()[node.local.groups[c.group].command].body.action.id, c.got);
      assert outputs == c.got;
      assert Faithful(p, node.local.groups[c.group].outputIds, c.got);
      CompleteWorks(p, cfg.loaded, cfg.ranks[r].skip, r, cfg.ranks[r].retain, c.pc, node.local, c.group, c.got);
    }
  }

  lemma WaitedGroup(cfg: Config, r: nat, node: Node)
    requires r < |cfg.ranks| && node.control.Waiting? && NodeInv(cfg, r, node)
    ensures var command := node.local.groups[node.control.group].command;
      command < |cfg.program.Code()| && cfg.program.Code()[command].body.Comm?
  {
    hide Launched, StoreInv, UsesInv, DescMap, Meaning, Fetched, FenceOk, CompletedCount;
    assert GroupOk(cfg.program, r, node.control.pc, node.control.group, node.local.groups[node.control.group]);
  }

  lemma SenderCalm(cfg: Config, s: State, command: nat)
    requires Healthy(cfg) && Inv(cfg, s) && Calm(s) && Enabled(cfg, s, SenderMoves(command))
    ensures Calm(SenderStep(cfg, s, command))
  {
    hide Launched, Runnable, NodeInv, SetupOk, SenderOk, StartedInv, RankInv, Passed, WaitEnabled;
    var id := cfg.program.Code()[command].body.action.id;
    var key: (TransferId, nat) := (id, s.senders[command].next);
    if key in s.messages {
      NotPublishedYet(cfg, s, command);
    }
  }

  /** No message is published twice. */
  lemma NotPublishedYet(cfg: Config, s: State, command: nat)
    requires Launched(cfg) && Inv(cfg, s) && command in s.senders
    requires command < |cfg.program.Code()| && cfg.program.Code()[command].body.Comm?
    ensures (cfg.program.Code()[command].body.action.id, s.senders[command].next) !in s.messages
  {
    hide Launched, NodeInv, SetupOk, SenderOk, StartedInv, RankInv, Passed, WellFormed;
    LaunchedHasRanks(cfg);
    LaunchedIsVerified(cfg, 0);
    var key: (TransferId, nat) := (cfg.program.Code()[command].body.action.id, s.senders[command].next);
    if key in s.messages {
      assert MessageInv(cfg, s, key);
      var c :| c in s.senders && c < |cfg.program.Code()| && cfg.program.Code()[c].body.Comm? &&
        cfg.program.Code()[c].body.action.id == key.0 && key.1 < s.senders[c].next;
      TransferIsUnique(cfg.program, cfg.loaded, cfg.ranks[0].skip, c, command);
    }
  }

  lemma RunCalm(cfg: Config, s: State, r: nat)
    requires Healthy(cfg) && Inv(cfg, s) && Calm(s) && r < |cfg.ranks| && s.nodes[r].control.Running?
    ensures Calm(RunStep(cfg, s, r))
  {
    hide Healthy, Inv, RunNode, SetupOk, NodeInv, StartedInv, SenderInv, MessageInv, SenderOk;
    InvShape(cfg, s);
    assert RankInv(cfg, s, r);
    RunNodeWorks(cfg, r, s.nodes[r]);
    RunNodeKeeps(cfg, r, s.nodes[r]);
    RunProgress(cfg, r, s.nodes[r]);
  }

  lemma EntryCalm(cfg: Config, s: State, r: nat)
    requires Healthy(cfg) && Calm(s) && Inv(cfg, s) && r < |cfg.ranks| == |s.nodes|
    ensures Calm(SetupStep(cfg, s, r)) && Calm(BarrierStep(cfg, s, r))
  {
    hide Healthy, Launched, SetupOk, BindInputs, Inv, LocalExternals, Calm, SetupStep, BarrierStep, RegisteredOk, BarrierAgrees, NodeInv, RankInv, SenderInv, StartedInv;
    HealthyFacts(cfg, r);
    InvShape(cfg, s);
    RegistrationsAgree(cfg, s.registered);
    LaunchedSetup(cfg, r);
    BindWorks(cfg.program, cfg.loaded, cfg.ranks[r].skip, r, cfg.ranks[r].retain, cfg.ranks[r].given);
    EntryMoves(cfg, s, r);
  }

  lemma EntryMoves(cfg: Config, s: State, r: nat)
    requires Calm(s) && r < |cfg.ranks| == |s.nodes| && SetupOk(cfg, r) && BarrierAgrees(s.registered)
    requires BindInputs(cfg.program, r, cfg.ranks[r].retain, cfg.ranks[r].given).Success?
    ensures Calm(SetupStep(cfg, s, r)) && Calm(BarrierStep(cfg, s, r))
  {
    hide SetupOk, BindInputs, SameSkips, SameDigests;
  }

  lemma LaunchedSetup(cfg: Config, r: nat)
    requires Launched(cfg) && r < |cfg.ranks|
    ensures SetupOk(cfg, r)
  {
    hide SetupOk;
  }

  lemma RegistrationsAgree(cfg: Config, registered: map<nat, Registration>)
    requires Launched(cfg) && forall r :: r in registered ==> RegisteredOk(cfg, r, registered[r])
    ensures BarrierAgrees(registered)
  {
    hide SetupOk;
  }

  /** No action of a healthy run raises an error: no missing or doubly defined value, no Place mismatch, no
      executor rejection, no failed validation, no release error, no duplicate message. */
  lemma StepCalm(cfg: Config, s: State, a: Action)
    requires Healthy(cfg) && Inv(cfg, s) && Calm(s) && Enabled(cfg, s, a)
    ensures Calm(Next(cfg, s, a))
  {
    hide Healthy, Inv, Calm, SetupStep, BarrierStep, RunStep, WaitStep, SenderStep, WaitEnabled, NodeInv, RankInv, StartedInv, SenderInv;
    InvShape(cfg, s);
    match a
    case SenderMoves(c) => SenderCalm(cfg, s, c);
    case RankMoves(r) =>
      EntryCalm(cfg, s, r);
      match s.nodes[r].control
      case Setup =>
      case Barrier =>
      case Running(_, _) => RunCalm(cfg, s, r);
      case Waiting(_, _, _, _, _) => WaitCalm(cfg, s, r);
  }

  lemma {:induction false} HealthyRunsAreCalm(cfg: Config, run: seq<State>, actions: seq<Action>, i: nat)
    requires Healthy(cfg) && IsRun(cfg, run, actions) && i < |run|
    ensures Calm(run[i])
  {
    hide Healthy, Inv, Enabled, Next;
    if i > 0 {
      HealthyRunsAreCalm(cfg, run, actions, i - 1);
      ReachableInv(cfg, run, actions, i - 1);
      StepCalm(cfg, run[i - 1], actions[i - 1]);
    }
  }
}
