/** Injected faults take effect: a rank that returns has met none, so a rank whose way leads through a fault ends in a
    panic and takes the cluster with it. */
module ProtocolFaults {
  import opened Wrappers
  import opened Plan
  import opened Rules
  import opened Vec
  import opened Semantics
  import opened RankState
  import opened RankInvariant
  import opened RankSteps
  import opened RankRun
  import opened Protocol
  import opened ProtocolNode
  import opened ProtocolSafety
  import opened ProtocolTheorems
  import ProtocolCalm
  import ProtocolLiveness

  // ---- Where a fault is on the way of a rank ----

  /** Executing the instruction meets no fault on rank `r`: no failing local compute, no failing communicate, which
      every rank calls. */
  predicate CallSpared(faults: Faults, r: nat, body: Body) {
    match body
    case Encode(_, _) => true
    case Compute(op) => op.place.rank == r ==> faults.failCompute != Some(op.kind)
    case Comm(action) => action.id !in faults.failCommunicate
  }

  /** Some output of the communication is delivered to rank `r`. */
  predicate Delivers(action: CommAction, r: nat) {
    exists i :: 0 <= i < |action.destinations| && action.destinations[i].rank == r
  }

  /** Waiting for the communication meets no fault on rank `r`: nothing delivered here is lost or corrupted, and nothing
      sent from here fails to be published. */
  predicate WaitSpared(faults: Faults, r: nat, action: CommAction) {
    && (Delivers(action, r) ==>
        action.id !in faults.failWait && action.id !in faults.corruptCount && action.id !in faults.corruptType && action.id !in faults.corruptMeta)
    && (action.sources != [] && action.sources[0].rank == r && action.destinations != [] ==> action.id !in faults.failPublish)
  }

  /** No fault is on the way of rank `r`. */
  ghost predicate Spared(cfg: Config, r: nat) {
    forall n :: 0 <= n < |cfg.program.Code()| ==>
      CallSpared(cfg.faults, r, cfg.program.Code()[n].body) &&
      (cfg.program.Code()[n].body.Comm? ==> WaitSpared(cfg.faults, r, cfg.program.Code()[n].body.action))
  }

  // ---- The invariant ----

  /** A sender that has published anything was allowed to. */
  ghost predicate SendersSpared(cfg: Config, s: State) {
    forall c :: c in s.senders && s.senders[c].next > 0 && c < |cfg.program.Code()| && cfg.program.Code()[c].body.Comm? ==>
      cfg.program.Code()[c].body.action.id !in cfg.faults.failPublish
  }

  ghost predicate GroupSpared(cfg: Config, r: nat, group: Group) {
    group.completed && group.command < |cfg.program.Code()| && cfg.program.Code()[group.command].body.Comm? ==>
      WaitSpared(cfg.faults, r, cfg.program.Code()[group.command].body.action)
  }

  /** What a waiting rank has already got past. */
  ghost predicate WaitingSpared(cfg: Config, r: nat, node: Node)
    requires node.control.Waiting?
  {
    var c := node.control;
    c.group < |node.local.groups| && node.local.groups[c.group].command < |cfg.program.Code()| &&
    cfg.program.Code()[node.local.groups[c.group].command].body.Comm? ==>
      var action := cfg.program.Code()[node.local.groups[c.group].command].body.action;
      && (c.got != [] ==> action.id !in cfg.faults.failWait)
      && (c.joined && HasSender(action, r) && action.destinations != [] ==> action.id !in cfg.faults.failPublish)
  }

  ghost predicate NodeSpared(cfg: Config, r: nat, node: Node) {
    InFlight(node.control) ==>
      && (forall n :: 0 <= n < At(cfg, node) && n < |cfg.program.Code()| ==> CallSpared(cfg.faults, r, cfg.program.Code()[n].body))
      && (forall g :: 0 <= g < |node.local.groups| ==> GroupSpared(cfg, r, node.local.groups[g]))
      && (node.control.Waiting? ==> WaitingSpared(cfg, r, node))
  }

  ghost predicate AllSpared(cfg: Config, s: State) {
    && SendersSpared(cfg, s)
    && forall r :: 0 <= r < |s.nodes| ==> NodeSpared(cfg, r, s.nodes[r])
  }

  // ---- A running rank ----

  /** The next node of a running rank: one that waits, has collected one more operand, has executed one more
      instruction, or has finished. */
  lemma RunSpared(cfg: Config, r: nat, node: Node)
    requires r < |cfg.ranks| && node.control.Running? && NodeInv(cfg, r, node) && NodeSpared(cfg, r, node)
    ensures !RunNode(cfg, r, node).Failed? ==> NodeSpared(cfg, r, RunNode(cfg, r, node).node)
  {
    hide NodeInv, LocalInv, FinishCompute, FinishEncode, PostComm, Publish, DescMap, LocalInputs, FirstOpen, GroupSpared, CallSpared, WaitSpared, Fetch, BeginWait;
    var p, pc := cfg.program, node.control.pc;
    PcInRange(cfg, r, node);
    forall g, n: Node | BeginWait(p, r, node, g) == Moved(n) ensures NodeSpared(cfg, r, n) {
      BeginSpared(cfg, r, node, g);
    }
    if (AtFence(p, pc) ==> FirstOpen(node.local.groups, 0).None?) && pc < |p.Code()| {
      match p.Code()[pc].body
      case Encode(payload, output) => EncodeSpared(cfg, r, node, payload, output);
      case Compute(op) => ComputeSpared(cfg, r, node, op);
      case Comm(action) => CommSpared(cfg, r, node, action);
    }
  }

  lemma PcInRange(cfg: Config, r: nat, node: Node)
    requires r < |cfg.ranks| && node.control.Running? && NodeInv(cfg, r, node)
    ensures node.control.pc <= |cfg.program.Code()|
  {
    hide Launched, LocalInv, FenceOk, Fetched;
  }

  lemma BeginSpared(cfg: Config, r: nat, node: Node, g: nat)
    requires node.control.Running? && NodeSpared(cfg, r, node)
    ensures BeginWait(cfg.program, r, node, g).Moved? ==> NodeSpared(cfg, r, BeginWait(cfg.program, r, node, g).node)
  {
    hide GroupSpared, CallSpared, WaitSpared;
  }

  lemma FetchSpared(cfg: Config, r: nat, node: Node, id: ValueId, place: Place)
    requires node.control.Running? && NodeSpared(cfg, r, node)
    ensures Fetch(cfg.program, r, node, id, place).Moved? ==> NodeSpared(cfg, r, Fetch(cfg.program, r, node, id, place).node)
  {
    hide GroupSpared, CallSpared, WaitSpared, BeginWait;
    if id in node.local.store && node.local.store[id].Pending? {
      BeginSpared(cfg, r, node, node.local.store[id].group);
    }
  }

  /** One more instruction executed without a fault, with the same groups and perhaps a new one. */
  lemma AdvanceSpared(cfg: Config, r: nat, node: Node, next: Node)
    requires node.control.Running? && NodeSpared(cfg, r, node) && node.control.pc < |cfg.program.Code()|
    requires next.control == Running(node.control.pc + 1, []) && CallSpared(cfg.faults, r, cfg.program.Code()[node.control.pc].body)
    requires |node.local.groups| <= |next.local.groups| && next.local.groups[..|node.local.groups|] == node.local.groups
    requires forall g :: |node.local.groups| <= g < |next.local.groups| ==> !next.local.groups[g].completed
    ensures NodeSpared(cfg, r, next)
  {
    hide CallSpared, WaitSpared;
    forall g | 0 <= g < |next.local.groups| ensures GroupSpared(cfg, r, next.local.groups[g]) {
      assert g < |node.local.groups| ==> next.local.groups[g] == node.local.groups[g];
    }
  }

  lemma EncodeSpared(cfg: Config, r: nat, node: Node, payload: EncodePayload, output: ValueId)
    requires node.control.Running? && NodeSpared(cfg, r, node) && node.control.pc < |cfg.program.Code()|
    requires cfg.program.Code()[node.control.pc].body == Encode(payload, output)
    ensures RunEncode(cfg, r, node, payload, output).Moved? ==> NodeSpared(cfg, r, RunEncode(cfg, r, node, payload, output).node)
  {
    hide NodeSpared, DescMap, EncodeValue, Validates;
    var m := RunEncode(cfg, r, node, payload, output);
    if m.Moved? {
      AdvanceSpared(cfg, r, node, m.node);
    }
  }

  lemma ComputeSpared(cfg: Config, r: nat, node: Node, op: ComputeOp)
    requires r < |cfg.ranks| && node.control.Running? && NodeSpared(cfg, r, node) && node.control.pc < |cfg.program.Code()|
    requires cfg.program.Code()[node.control.pc].body == Compute(op)
    ensures RunCompute(cfg, r, node, op).Moved? ==> NodeSpared(cfg, r, RunCompute(cfg, r, node, op).node)
  {
    hide NodeSpared, DescMap, FinishCompute, Fetch;
    var m, args := RunCompute(cfg, r, node, op), node.control.args;
    if m.Moved? {
      if op.place.rank == r && |args| < |op.inputs| {
        FetchSpared(cfg, r, node, op.inputs[|args|], op.place);
      } else {
        if op.place.rank == r {
          ComputeGroups(cfg.program, cfg.ranks[r].retain, node.local, op, args);
        }
        AdvanceSpared(cfg, r, node, m.node);
      }
    }
  }

  lemma CommSpared(cfg: Config, r: nat, node: Node, action: CommAction)
    requires node.control.Running? && NodeSpared(cfg, r, node) && node.control.pc < |cfg.program.Code()|
    requires cfg.program.Code()[node.control.pc].body == Comm(action)
    ensures !RunComm(cfg, r, node, action).Failed? ==> NodeSpared(cfg, r, RunComm(cfg, r, node, action).node)
  {
    hide NodeSpared, DescMap, Fetch, LocalOutputs, LocalSlots, DefinePending;
    var m, args := RunComm(cfg, r, node, action), node.control.args;
    if !m.Failed? {
      if |args| < |LocalInputs(action, r)| {
        FetchSpared(cfg, r, node, LocalInputs(action, r)[|args|], Pick(action.sources, LocalSlots(action.sources, r))[|args|]);
      } else {
        AdvanceSpared(cfg, r, node, m.node);
      }
    }
  }

  // ---- A waiting rank ----

  /** The last receive is behind the rank and its group completes: nothing delivered here was lost or corrupted. */
  lemma CompleteSpared(cfg: Config, r: nat, node: Node, l: Local)
    requires r < |cfg.ranks| && node.control.Waiting? && NodeInv(cfg, r, node) && NodeSpared(cfg, r, node)
    requires node.control.joined && NextKey(cfg.program, node).None?
    requires node.control.group < |node.local.groups| && node.local.groups[node.control.group].command < |cfg.program.Code()|
    requires cfg.program.Code()[node.local.groups[node.control.group].command].body.Comm?
    requires CompleteGroup(
      cfg.program, cfg.ranks[r].retain, node.local, node.control.group,
      Corrupt(cfg.faults, cfg.program.Code()[node.local.groups[node.control.group].command].body.action.id, node.control.got)) == Success(l)
    ensures NodeSpared(cfg, r, node.(control := Running(node.control.pc, node.control.args), local := l))
  {
    hide NodeInv, LocalInv, DescMap, CallSpared, WaitSpared, CompleteGroup;
    var g := node.control.group;
    var next := node.(control := Running(node.control.pc, node.control.args), local := l);
    GroupWaited(cfg, r, node, l);
    CompleteGroups(cfg.program, cfg.ranks[r].retain, node.local, g,
      Corrupt(cfg.faults, cfg.program.Code()[node.local.groups[g].command].body.action.id, node.control.got));
    forall h | 0 <= h < |l.groups| ensures GroupSpared(cfg, r, l.groups[h]) {
      assert h != g ==> l.groups[h] == node.local.groups[h];
    }
  }

  lemma CompleteGroups(p: Program, retain: bool, l: Local, g: nat, outputs: seq<Payload>)
    requires g < |l.groups| && CompleteGroup(p, retain, l, g, outputs).Success?
    ensures CompleteGroup(p, retain, l, g, outputs).value.groups == l.groups[g := l.groups[g].(completed := true)]
  {
    hide Install, ReleaseAll;
  }

  lemma GroupWaited(cfg: Config, r: nat, node: Node, l: Local)
    requires r < |cfg.ranks| && node.control.Waiting? && NodeInv(cfg, r, node) && NodeSpared(cfg, r, node)
    requires node.control.joined && NextKey(cfg.program, node).None?
    requires node.control.group < |node.local.groups| && node.local.groups[node.control.group].command < |cfg.program.Code()|
    requires cfg.program.Code()[node.local.groups[node.control.group].command].body.Comm?
    requires CompleteGroup(
      cfg.program, cfg.ranks[r].retain, node.local, node.control.group,
      Corrupt(cfg.faults, cfg.program.Code()[node.local.groups[node.control.group].command].body.action.id, node.control.got)) == Success(l)
    ensures WaitSpared(cfg.faults, r, cfg.program.Code()[node.local.groups[node.control.group].command].body.action)
  {
    hide NodeInv, LocalInv, DescMap, CallSpared, CompleteGroup, Delivers, Received;
    var c := node.control;
    var action := cfg.program.Code()[node.local.groups[c.group].command].body.action;
    assert WaitingSpared(cfg, r, node);
    AllReceived(cfg, r, node);
    WaitingReceived(cfg, r, node);
    CorruptionIsCaught(cfg.program, cfg.ranks[r].retain, node.local, c.group, cfg.faults, action.id, c.got);
    if Delivers(action, r) {
      DeliveredHere(action, r);
      assert c.got != [];
      Uncorrupted(cfg.faults, action.id, c.got);
    }
  }

  /** The group a rank waits for is the one of its communication, and what it has got are meanings. */
  lemma WaitingReceived(cfg: Config, r: nat, node: Node)
    requires r < |cfg.ranks| && node.control.Waiting? && NodeInv(cfg, r, node)
    requires node.control.group < |node.local.groups| && node.local.groups[node.control.group].command < |cfg.program.Code()|
    requires cfg.program.Code()[node.local.groups[node.control.group].command].body.Comm?
    ensures Received(cfg.program, node.local.groups[node.control.group], node.control.got)
    ensures var group := node.local.groups[node.control.group];
      group.outputIds == LocalOutputs(cfg.program.Code()[group.command].body.action, r)
    ensures var action := cfg.program.Code()[node.local.groups[node.control.group].command].body.action;
      |action.outputs| == |action.destinations|
  {
    hide StoreInv, UsesInv, DescMap, Meaning, FenceOk, CompletedCount, Fetched, Received, LocalOutputs, WellFormed;
    var c := node.control;
    LaunchedIsVerified(cfg, r);
    var command := node.local.groups[c.group].command;
    assert GroupOk(cfg.program, r, c.pc, c.group, node.local.groups[c.group]);
    CommFacts(cfg.program, cfg.loaded, cfg.ranks[r].skip, command);
    CommShapeFacts(cfg.program, cfg.program.Code()[command].body.action);
  }

  lemma DeliveredHere(action: CommAction, r: nat)
    requires Delivers(action, r) && |action.outputs| == |action.destinations|
    ensures LocalOutputs(action, r) != []
  {
    var i :| 0 <= i < |action.destinations| && action.destinations[i].rank == r;
    assert i in LocalSlots(action.destinations, r);
  }

  /** What the corruptions leave alone was not to be corrupted. */
  lemma Uncorrupted(faults: Faults, id: TransferId, got: seq<Payload>)
    requires got != [] && Corrupt(faults, id, got) == got
    ensures id !in faults.corruptCount && id !in faults.corruptType && id !in faults.corruptMeta
  {
    var counted := if id in faults.corruptCount then got[..|got| - 1] else got;
    assert |Corrupt(faults, id, got)| == |counted|;
    assert Corrupt(faults, id, got)[0] == got[0];
  }

  lemma WaitSparedStep(cfg: Config, s: State, r: nat)
    requires Inv(cfg, s) && AllSpared(cfg, s) && r < |cfg.ranks| && s.nodes[r].control.Waiting?
    ensures AllSpared(cfg, WaitStep(cfg, s, r))
  {
    hide NodeInv, SetupOk, SenderOk, MessageInv, CompleteGroup, CallSpared, WaitSpared, Corrupt, StartedInv, Launched;
    InvShape(cfg, s);
    assert RankInv(cfg, s, r);
    var node := s.nodes[r];
    var c, p := node.control, cfg.program;
    assert NodeSpared(cfg, r, node);
    if c.group < |node.local.groups| {
      var group := node.local.groups[c.group];
      if !c.joined {
        if group.command in s.senders && s.senders[group.command].status == Sent {
          JoinedSpared(cfg, s, r);
        }
      } else {
        match NextKey(p, node)
        case Some(key) => ReceivedSpared(cfg, s, r);
        case None =>
          if group.command < |p.Code()| && p.Code()[group.command].body.Comm? {
            var done := CompleteGroup(p, cfg.ranks[r].retain, node.local, c.group, Corrupt(cfg.faults, p.Code()[group.command].body.action.id, c.got));
            if done.Success? {
              CompleteSpared(cfg, r, node, done.value);
            }
          }
      }
    }
  }

  /** Joining a sender that has sent everything. */
  lemma JoinedSpared(cfg: Config, s: State, r: nat)
    requires Inv(cfg, s) && AllSpared(cfg, s) && r < |s.nodes| == |cfg.ranks| && s.nodes[r].control.Waiting? && !s.nodes[r].control.joined
    requires s.nodes[r].control.group < |s.nodes[r].local.groups|
    requires s.nodes[r].local.groups[s.nodes[r].control.group].command in s.senders
    requires s.senders[s.nodes[r].local.groups[s.nodes[r].control.group].command].status == Sent
    ensures NodeSpared(cfg, r, s.nodes[r].(control := s.nodes[r].control.(joined := true)))
  {
    hide NodeInv, SetupOk, MessageInv, CallSpared, WaitSpared, Launched, CommTyped, Meaning, StartedInv, RankInv;
    var node := s.nodes[r];
    var command := node.local.groups[node.control.group].command;
    assert SenderInv(cfg, s, command) && NodeSpared(cfg, r, node);
    assert forall g :: 0 <= g < |node.local.groups| ==> GroupSpared(cfg, r, node.local.groups[g]);
  }

  /** One more message received. */
  lemma ReceivedSpared(cfg: Config, s: State, r: nat)
    requires Inv(cfg, s) && AllSpared(cfg, s) && r < |s.nodes| == |cfg.ranks| && s.nodes[r].control.Waiting? && s.nodes[r].control.joined
    requires NextKey(cfg.program, s.nodes[r]).Some?
    ensures var key := NextKey(cfg.program, s.nodes[r]).value; var c := s.nodes[r].control;
      key.0 !in cfg.faults.failWait && key in s.messages ==>
        NodeSpared(cfg, r, s.nodes[r].(control := c.(got := c.got + [s.messages[key]])))
  {
    hide NodeInv, SetupOk, MessageInv, SenderInv, CallSpared, WaitSpared, Launched, StartedInv, RankInv;
    assert NodeSpared(cfg, r, s.nodes[r]);
    assert forall g :: 0 <= g < |s.nodes[r].local.groups| ==> GroupSpared(cfg, r, s.nodes[r].local.groups[g]);
  }

  // ---- Every step ----

  lemma RunSparedStep(cfg: Config, s: State, r: nat)
    requires Inv(cfg, s) && AllSpared(cfg, s) && r < |cfg.ranks| && s.nodes[r].control.Running?
    ensures AllSpared(cfg, RunStep(cfg, s, r))
  {
    hide NodeInv, SetupOk, SenderInv, MessageInv, StartedInv, Launched, CallSpared, WaitSpared, GroupSpared, RunNode, SenderOk;
    InvShape(cfg, s);
    assert RankInv(cfg, s, r) && NodeSpared(cfg, r, s.nodes[r]);
    RunSpared(cfg, r, s.nodes[r]);
    RunNodeKeeps(cfg, r, s.nodes[r]);
  }

  lemma StartSpared(cfg: Config, s: State, r: nat)
    requires Inv(cfg, s) && AllSpared(cfg, s) && r < |cfg.ranks| && (s.nodes[r].control.Setup? || s.nodes[r].control.Barrier?)
    ensures AllSpared(cfg, if s.nodes[r].control.Setup? then SetupStep(cfg, s, r) else BarrierStep(cfg, s, r))
  {
    hide NodeInv, SetupOk, SenderInv, MessageInv, StartedInv, Launched, CallSpared, WaitSpared, SameSkips, SameDigests, InitialUses, Bound, LocalExternals;
    InvShape(cfg, s);
  }

  lemma SenderSpared(cfg: Config, s: State, command: nat)
    requires Inv(cfg, s) && AllSpared(cfg, s) && Enabled(cfg, s, SenderMoves(command))
    ensures AllSpared(cfg, SenderStep(cfg, s, command))
  {
    hide Inv, NodeSpared, WaitEnabled;
  }

  lemma StepSpared(cfg: Config, s: State, a: Action)
    requires Inv(cfg, s) && AllSpared(cfg, s) && Enabled(cfg, s, a)
    ensures AllSpared(cfg, Next(cfg, s, a))
  {
    hide Inv, AllSpared, SetupStep, BarrierStep, RunStep, WaitStep, SenderStep, WaitEnabled;
    match a
    case SenderMoves(c) => SenderSpared(cfg, s, c);
    case RankMoves(r) =>
      match s.nodes[r].control
      case Setup => StartSpared(cfg, s, r);
      case Barrier => StartSpared(cfg, s, r);
      case Running(_, _) => RunSparedStep(cfg, s, r);
      case Waiting(_, _, _, _, _) => WaitSparedStep(cfg, s, r);
  }

  lemma {:induction false} ReachableSpared(cfg: Config, run: seq<State>, actions: seq<Action>, i: nat)
    requires IsRun(cfg, run, actions) && i < |run|
    ensures AllSpared(cfg, run[i])
  {
    hide Inv, Enabled, Next, NodeSpared;
    if i == 0 {
      forall r | 0 <= r < |cfg.ranks| ensures NodeSpared(cfg, r, Node(Setup, EmptyLocal, 0, 0)) {
        SetupSpared(cfg, r);
      }
    } else {
      ReachableSpared(cfg, run, actions, i - 1);
      ReachableInv(cfg, run, actions, i - 1);
      StepSpared(cfg, run[i - 1], actions[i - 1]);
    }
  }

  lemma SetupSpared(cfg: Config, r: nat)
    ensures NodeSpared(cfg, r, Node(Setup, EmptyLocal, 0, 0))
  {
  }

  // ---- What follows ----

  /** A rank that returns has met no fault: it did not call a failing operation, what it received was neither lost nor
      corrupted, and what it sent was published. */
  lemma FinishedWasSpared(cfg: Config, run: seq<State>, actions: seq<Action>, i: nat, r: nat)
    requires IsRun(cfg, run, actions) && i < |run| && r < |cfg.ranks| && r < |run[i].nodes| && run[i].nodes[r].control.Finished?
    ensures Spared(cfg, r)
  {
    hide IsRun, SenderInv, MessageInv, StartedInv, CallSpared, WaitSpared, SendersSpared, Launched, StoreInv, UsesInv, Expected;
    ReachedNode(cfg, run, actions, i, r);
    ReachableSpared(cfg, run, actions, i);
    var node, code := run[i].nodes[r], cfg.program.Code();
    InFlightFacts(cfg, r, node);
    assert NodeSpared(cfg, r, node);
    forall n | 0 <= n < |code| && code[n].body.Comm? ensures WaitSpared(cfg.faults, r, code[n].body.action) {
      GroupOfCommand(cfg.program, r, node.local.groups, n);
      assert GroupSpared(cfg, r, node.local.groups[CommCount(code, n)]);
    }
  }

  /** After the last instruction every communication has its group. */
  lemma GroupOfCommand(p: Program, r: int, groups: seq<Group>, n: nat)
    requires GroupsInv(p, r, |p.Code()|, groups) && n < |p.Code()| && p.Code()[n].body.Comm?
    ensures CommCount(p.Code(), n) < |groups| && groups[CommCount(p.Code(), n)].command == n
  {
    var code := p.Code();
    CommCountMonotone(code, n, |code|);
    var g := CommCount(code, n);
    assert GroupOk(p, r, |code|, g, groups[g]);
    var c := groups[g].command;
    if c < n {
      CommCountMonotone(code, c, n);
    } else if n < c {
      CommCountMonotone(code, n, c);
    }
  }

  /** A fault on the way of any rank ends every run that cannot go on in an abort, with that rank in a panic. */
  lemma FaultsStopRanks(cfg: Config, run: seq<State>, actions: seq<Action>, r: nat)
    requires IsRun(cfg, run, actions) && Quiescent(cfg, run[|actions|]) && r < |cfg.ranks| && !Spared(cfg, r)
    ensures r < |run[|actions|].nodes| && run[|actions|].nodes[r].control.Panicked? && run[|actions|].abort.Some?
  {
    hide IsRun, NodeInv, Quiescent, Spared;
    QuietMeansOver(cfg, run, actions);
    IsRunLength(cfg, run, actions);
    ReachedNode(cfg, run, actions, |actions|, r);
    if run[|actions|].nodes[r].control.Finished? {
      FinishedWasSpared(cfg, run, actions, |actions|, r);
      assert false;
    }
  }

  // ---- The reason of an abort ----

  /** What must have happened for an abort with this reason. */
  ghost predicate Caused(cfg: Config, s: State, reason: Reason) {
    match reason
    case RankFailed(r) => r < |s.nodes| && s.nodes[r].control.Panicked?
    case SenderFailed(c) =>
      && c in s.senders && s.senders[c].status == Broken
      && c < |cfg.program.Code()| && cfg.program.Code()[c].body.Comm?
      && cfg.program.Code()[c].body.action.id in cfg.faults.failPublish
    case SkipMismatch => exists q, r :: 0 <= q < |cfg.ranks| && 0 <= r < |cfg.ranks| && cfg.ranks[q].skip != cfg.ranks[r].skip
    case DigestMismatch =>
      exists q, r :: 0 <= q < |cfg.ranks| && 0 <= r < |cfg.ranks| && !cfg.ranks[q].skip && cfg.ranks[q].digest != cfg.ranks[r].digest
  }

  lemma PanicCaused(cfg: Config, s: State, r: nat, reason: Reason)
    requires r < |s.nodes| && (s.abort.Some? ==> Caused(cfg, s, s.abort.value))
    requires reason == RankFailed(r) || ((reason.SkipMismatch? || reason.DigestMismatch?) && Caused(cfg, s, reason))
    ensures Panic(s, r, reason).abort.Some? && Caused(cfg, Panic(s, r, reason), Panic(s, r, reason).abort.value)
  {
  }

  /** A disagreement in the table is one between two ranks. */
  lemma BarrierCaused(cfg: Config, s: State)
    requires Inv(cfg, s)
    ensures !SameSkips(s.registered) ==> Caused(cfg, s, SkipMismatch)
    ensures SameSkips(s.registered) && 0 in s.registered && !s.registered[0].skip && !SameDigests(s.registered) ==> Caused(cfg, s, DigestMismatch)
  {
    hide SetupOk, RankInv, StartedInv, SenderInv, MessageInv;
    if !SameSkips(s.registered) {
      var q, r :| q in s.registered && r in s.registered && s.registered[q].skip != s.registered[r].skip;
      assert RegisteredOk(cfg, q, s.registered[q]) && RegisteredOk(cfg, r, s.registered[r]);
    } else if 0 in s.registered && !s.registered[0].skip && !SameDigests(s.registered) {
      var q, r :| q in s.registered && r in s.registered && s.registered[q].digest != s.registered[r].digest;
      assert RegisteredOk(cfg, q, s.registered[q]) && RegisteredOk(cfg, r, s.registered[r]);
      assert s.registered[q].skip == s.registered[0].skip;
    }
  }

  /** A message is not published twice, so a sender breaks of its own only by an injected fault. */
  lemma SenderCaused(cfg: Config, s: State, command: nat)
    requires Inv(cfg, s) && Enabled(cfg, s, SenderMoves(command)) && (s.abort.Some? ==> Caused(cfg, s, s.abort.value))
    ensures var t := SenderStep(cfg, s, command); t.abort.Some? ==> Caused(cfg, t, t.abort.value)
  {
    hide NodeInv, SetupOk, SenderOk, StartedInv, RankInv, Passed, WaitEnabled, SenderInv, MessageInv;
    var id := cfg.program.Code()[command].body.action.id;
    var key: (TransferId, nat) := (id, s.senders[command].next);
    if key in s.messages {
      InvShape(cfg, s);
      SenderLaunched(cfg, s, command);
      ProtocolCalm.NotPublishedYet(cfg, s, command);
    }
  }

  lemma SenderLaunched(cfg: Config, s: State, command: nat)
    requires command in s.senders && |s.nodes| == |cfg.ranks| && SenderInv(cfg, s, command)
    ensures Launched(cfg)
  {
    hide Launched, CommTyped, Meaning, Validates, Passed;
  }

  /** A sender that starts is a new one. */
  lemma StartsNew(cfg: Config, s: State, r: nat)
    requires Inv(cfg, s) && r < |s.nodes| == |cfg.ranks| && s.nodes[r].control.Running?
    ensures RunNode(cfg, r, s.nodes[r]).Started? ==> s.nodes[r].control.pc !in s.senders
  {
    hide Inv, RunNode, NodeInv, SenderOk, SetupOk;
    InvShape(cfg, s);
    assert RankInv(cfg, s, r);
    if RunNode(cfg, r, s.nodes[r]).Started? {
      RunNodeKeeps(cfg, r, s.nodes[r]);
      ProtocolLiveness.NewSender(cfg, s, r);
    }
  }

  /** What caused an abort stays: ranks stay in a panic and senders broken. */
  lemma CauseStays(cfg: Config, s: State, t: State, reason: Reason)
    requires Caused(cfg, s, reason) && |t.nodes| == |s.nodes|
    requires forall r :: 0 <= r < |s.nodes| && s.nodes[r].control.Panicked? ==> t.nodes[r].control.Panicked?
    requires forall c :: c in s.senders && s.senders[c].status == Broken ==> c in t.senders && t.senders[c].status == Broken
    ensures Caused(cfg, t, reason)
  {
  }

  lemma NodeCount(cfg: Config, s: State)
    requires Inv(cfg, s)
    ensures |s.nodes| == |cfg.ranks|
  {
    hide RankInv, StartedInv, SenderInv, MessageInv, RegisteredOk;
  }

  lemma SetupCaused(cfg: Config, s: State, r: nat)
    requires Inv(cfg, s) && r < |cfg.ranks| && s.nodes[r].control.Setup? && (s.abort.Some? ==> Caused(cfg, s, s.abort.value))
    ensures var t := SetupStep(cfg, s, r); t.abort.Some? ==> Caused(cfg, t, t.abort.value)
  {
    hide Inv, Caused, SetupOk;
    NodeCount(cfg, s);
    PanicCaused(cfg, s, r, RankFailed(r));
    if s.abort.Some? && SetupOk(cfg, r) {
      CauseStays(cfg, s, SetupStep(cfg, s, r), s.abort.value);
    }
  }

  lemma BarrierStepCaused(cfg: Config, s: State, r: nat)
    requires Inv(cfg, s) && r < |cfg.ranks| && s.nodes[r].control.Barrier? && (s.abort.Some? ==> Caused(cfg, s, s.abort.value))
    ensures var t := BarrierStep(cfg, s, r); t.abort.Some? ==> Caused(cfg, t, t.abort.value)
  {
    hide Inv, Caused, SameSkips, SameDigests, BindInputs, Panic;
    NodeCount(cfg, s);
    PanicCaused(cfg, s, r, RankFailed(r));
    BarrierCaused(cfg, s);
    if Caused(cfg, s, SkipMismatch) { PanicCaused(cfg, s, r, SkipMismatch); }
    if Caused(cfg, s, DigestMismatch) { PanicCaused(cfg, s, r, DigestMismatch); }
  }

  lemma RunCaused(cfg: Config, s: State, r: nat)
    requires Inv(cfg, s) && r < |cfg.ranks| && s.nodes[r].control.Running? && (s.abort.Some? ==> Caused(cfg, s, s.abort.value))
    ensures var t := RunStep(cfg, s, r); t.abort.Some? ==> Caused(cfg, t, t.abort.value)
  {
    hide Inv, Caused, RunNode, Panic;
    NodeCount(cfg, s);
    PanicCaused(cfg, s, r, RankFailed(r));
    StartsNew(cfg, s, r);
    if s.abort.Some? && !RunNode(cfg, r, s.nodes[r]).Failed? {
      CauseStays(cfg, s, RunStep(cfg, s, r), s.abort.value);
    }
  }

  lemma WaitCaused(cfg: Config, s: State, r: nat)
    requires Inv(cfg, s) && r < |cfg.ranks| && s.nodes[r].control.Waiting? && (s.abort.Some? ==> Caused(cfg, s, s.abort.value))
    ensures var t := WaitStep(cfg, s, r); t.abort.Some? ==> Caused(cfg, t, t.abort.value)
  {
    hide Inv, Caused, CompleteGroup, Corrupt, NextKey, Panic;
    NodeCount(cfg, s);
    PanicCaused(cfg, s, r, RankFailed(r));
    var t := WaitStep(cfg, s, r);
    if s.abort.Some? && t != Panic(s, r, RankFailed(r)) {
      CauseStays(cfg, s, t, s.abort.value);
    }
  }

  lemma StepCaused(cfg: Config, s: State, a: Action)
    requires Inv(cfg, s) && Enabled(cfg, s, a) && (s.abort.Some? ==> Caused(cfg, s, s.abort.value))
    ensures Next(cfg, s, a).abort.Some? ==> Caused(cfg, Next(cfg, s, a), Next(cfg, s, a).abort.value)
  {
    hide Inv, Caused, SetupStep, BarrierStep, RunStep, WaitStep, SenderStep, WaitEnabled;
    match a
    case SenderMoves(c) => SenderCaused(cfg, s, c);
    case RankMoves(r) =>
      match s.nodes[r].control
      case Setup => SetupCaused(cfg, s, r);
      case Barrier => BarrierStepCaused(cfg, s, r);
      case Running(_, _) => RunCaused(cfg, s, r);
      case Waiting(_, _, _, _, _) => WaitCaused(cfg, s, r);
  }

  /** In every run an abort has the cause its reason names: a panicked rank, an injected publish failure, or two ranks
      whose flags, or whose digests while digests count, differ. */
  lemma {:induction false} AbortIsCaused(cfg: Config, run: seq<State>, actions: seq<Action>, i: nat)
    requires IsRun(cfg, run, actions) && i < |run|
    ensures run[i].abort.Some? ==> Caused(cfg, run[i], run[i].abort.value)
  {
    hide Inv, Enabled, Next, Caused;
    if i > 0 {
      AbortIsCaused(cfg, run, actions, i - 1);
      ReachableInv(cfg, run, actions, i - 1);
      StepCaused(cfg, run[i - 1], actions[i - 1]);
    }
  }
}
