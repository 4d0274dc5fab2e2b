/** No deadlock and no endless run: in every reachable state something can move until every rank has
    finished or panicked, and every move lowers a measure. */
module ProtocolLiveness {
  import opened Wrappers
  import opened Plan
  import opened Rules
  import opened Vec
  import opened Semantics
  import opened RankState
  import opened RankInvariant
  import opened RankSteps
  import opened RankRun
  import opened Protocol
  import opened ProtocolNode
  import opened ProtocolSafety
  import opened ProtocolCalm

  function Position(control: Control): nat {
    match control
    case Running(pc, _) => pc
    case Waiting(pc, _, _, _, _) => pc
    case _ => 0
  }

  /** The source rank of a communication of a launched plan is one of the ranks. */
  lemma SourceIsRank(cfg: Config, command: nat)
    requires Launched(cfg) && command < |cfg.program.Code()| && cfg.program.Code()[command].body.Comm?
    ensures 0 <= SourceRank(cfg.program, command) < |cfg.ranks|
  {
    hide SetupOk, WellFormed, DescMap, DefinedBefore;
    LaunchedHasRanks(cfg);
    LaunchedIsVerified(cfg, 0);
    InstructionFacts(cfg.program, cfg.loaded, cfg.ranks[0].skip, command);
  }

  lemma UnregisteredRank(cfg: Config, s: State) returns (q: nat)
    requires Inv(cfg, s) && s.abort.None? && |s.registered| != |cfg.ranks|
    ensures q < |s.nodes| == |cfg.ranks| && s.nodes[q].control.Setup?
  {
    hide NodeInv, SetupOk, SenderInv, MessageInv, StartedInv;
    assert (forall x: nat :: x < |cfg.ranks| ==> x in s.registered) ==> s.registered.Keys == Below(|cfg.ranks|);
    assert |s.registered.Keys| == |s.registered|;
    q :| q < |cfg.ranks| && q !in s.registered;
    assert RankInv(cfg, s, q);
  }

  /** A rank waiting for a message that is not there waits for a sender that can move, or for a source rank
      that has not reached the communication yet. */
  lemma WaitsFor(cfg: Config, s: State, r: nat) returns (command: nat)
    requires Inv(cfg, s) && s.abort.None? && r < |s.nodes| && s.nodes[r].control.Waiting?
    requires s.nodes[r].control.joined && !WaitEnabled(cfg, s, s.nodes[r])
    ensures command < Position(s.nodes[r].control) && command < |cfg.program.Code()| && cfg.program.Code()[command].body.Comm?
    ensures Launched(cfg) && |s.registered| == |cfg.ranks|
    ensures command in s.senders ==> s.senders[command].status == Sending
  {
    hide SetupOk, StoreInv, UsesInv, DescMap, Meaning, Fetched, FenceOk, CompletedCount, MessageInv, StartedInv, SenderOk, Passed, HasSender, LocalSlots, CommTyped, WellFormed, Launched;
    assert RankInv(cfg, s, r);
    var node := s.nodes[r];
    var group := node.local.groups[node.control.group];
    command := group.command;
    LaunchedIsVerified(cfg, r);
    GroupFacts(cfg.program, cfg.loaded, cfg.ranks[r].skip, r, cfg.ranks[r].retain, node.control.pc, node.local, node.control.group);
    if command in s.senders {
      assert SenderInv(cfg, s, command);
      SenderCovers(cfg, command, s.senders[command]);
    }
  }

  lemma SenderCovers(cfg: Config, command: nat, sender: Sender)
    requires SenderOk(cfg, command, sender)
    ensures var action := cfg.program.Code()[command].body.action; sender.count == |action.outputs|
  {
    hide Launched, Meaning, DescMap, Validates;
  }

  /** Deadlock freedom: whenever some rank has neither finished nor panicked, some action is enabled. The
      proof follows a blocked rank to the rank or sender it waits for, which is strictly further behind. */
  lemma {:induction false} Progress(cfg: Config, s: State, r: nat) returns (a: Action)
    requires Inv(cfg, s) && r < |s.nodes| && !Final(s.nodes[r])
    ensures Enabled(cfg, s, a)
    decreases Position(s.nodes[r].control)
  {
    hide Inv, WaitEnabled, NodeInv, SenderInv, MessageInv, StartedInv, SetupOk, Launched, SourceRank;
    InvShape(cfg, s);
    assert RankInv(cfg, s, r);
    var control := s.nodes[r].control;
    if control.Setup? || control.Running? {
      a := RankMoves(r);
    } else if control.Barrier? {
      if s.abort.Some? || |s.registered| == |cfg.ranks| {
        a := RankMoves(r);
      } else {
        var q := UnregisteredRank(cfg, s);
        a := RankMoves(q);
      }
    } else if WaitEnabled(cfg, s, s.nodes[r]) {
      a := RankMoves(r);
    } else if !control.joined {
      var command := BlockedOnSender(cfg, s, r);
      a := SenderMoves(command);
    } else {
      NotAborted(cfg, s, r);
      var command := WaitsFor(cfg, s, r);
      if command in s.senders {
        a := SenderMoves(command);
      } else {
        SourceIsRank(cfg, command);
        var q: nat := SourceRank(cfg.program, command);
        SourceBehind(cfg, s, q, command);
        a := Progress(cfg, s, q);
      }
    }
  }

  lemma NotAborted(cfg: Config, s: State, r: nat)
    requires r < |s.nodes| && s.nodes[r].control.Waiting? && s.nodes[r].control.joined && !WaitEnabled(cfg, s, s.nodes[r])
    ensures s.abort.None?
  {
  }

  lemma BlockedOnSender(cfg: Config, s: State, r: nat) returns (command: nat)
    requires Inv(cfg, s) && r < |s.nodes| && s.nodes[r].control.Waiting?
    requires !s.nodes[r].control.joined && !WaitEnabled(cfg, s, s.nodes[r])
    ensures Enabled(cfg, s, SenderMoves(command))
  {
    hide NodeInv, SetupOk, MessageInv, StartedInv, Passed, Launched, CommTyped, Meaning, DescMap;
    JoinedSenderExists(cfg, s, r);
    command := s.nodes[r].local.groups[s.nodes[r].control.group].command;
    assert SenderInv(cfg, s, command);
  }

  /** A source rank without a started sender has not executed the communication. */
  lemma SourceBehind(cfg: Config, s: State, q: nat, command: nat)
    requires Inv(cfg, s) && s.abort.None? && q < |s.nodes|
    requires command < |cfg.program.Code()| && cfg.program.Code()[command].body.Comm?
    requires SourceRank(cfg.program, command) == q && command !in s.senders
    ensures !Final(s.nodes[q]) && Position(s.nodes[q].control) <= command
  {
    hide NodeInv, SetupOk, SenderInv, MessageInv;
    assert RankInv(cfg, s, q) && StartedInv(cfg, s, q);
  }

  // ---- The measure ----

  /** Moves left to instruction `n` and later ones on rank `r`, the sends and waits they start included. */
  function MovesLeft(p: Program, r: int, n: nat): nat
    decreases |p.Code()| - n
  {
    if n >= |p.Code()| then 1
    else
      var send := if p.Code()[n].body.Comm? then
        var action := p.Code()[n].body.action; |LocalSlots(action.destinations, r)| + |action.destinations| + 4
      else 0;
      |Wanted(p, r, n)| + 1 + send + MovesLeft(p, r, n + 1)
  }

  /** Moves left to the groups not waited for. */
  function OpenMoves(groups: seq<Group>): nat {
    if groups == [] then 0
    else
      var last := groups[|groups| - 1];
      OpenMoves(groups[..|groups| - 1]) + if last.completed then 0 else |last.slots| + 3
  }

  function Clamp(x: int): nat {
    if x < 0 then 0 else x
  }

  function NodeMeasure(p: Program, r: int, node: Node): nat {
    match node.control
    case Setup => MovesLeft(p, r, 0) + 3
    case Barrier => MovesLeft(p, r, 0) + 2
    case Running(pc, args) => Clamp(MovesLeft(p, r, pc) - |args| + OpenMoves(node.local.groups) + 1)
    case Waiting(pc, args, _, joined, got) =>
      Clamp(MovesLeft(p, r, pc) - |args| + OpenMoves(node.local.groups) - (if joined then 1 else 0) - |got|)
    case Finished(_) => 0
    case Panicked => 0
  }

  function SenderMeasure(sender: Sender): nat {
    if sender.status == Sending then Clamp(sender.count - sender.next) + 1 else 0
  }

  function NodesMeasure(p: Program, nodes: seq<Node>): nat {
    if nodes == [] then 0
    else NodesMeasure(p, nodes[..|nodes| - 1]) + NodeMeasure(p, |nodes| - 1, nodes[|nodes| - 1])
  }

  function SendersMeasure(senders: map<nat, Sender>, n: nat): nat {
    if n == 0 then 0 else SendersMeasure(senders, n - 1) + if n - 1 in senders then SenderMeasure(senders[n - 1]) else 0
  }

  /** What is left to do, over all ranks and senders. */
  function Measure(cfg: Config, s: State): nat {
    NodesMeasure(cfg.program, s.nodes) + SendersMeasure(s.senders, |cfg.program.Code()|)
  }

  lemma {:induction false} NodesUpdate(p: Program, nodes: seq<Node>, r: nat, node: Node)
    requires r < |nodes|
    ensures NodesMeasure(p, nodes[r := node]) + NodeMeasure(p, r, nodes[r]) == NodesMeasure(p, nodes) + NodeMeasure(p, r, node)
  {
    hide NodeMeasure;
    var k := |nodes| - 1;
    if r < k {
      assert nodes[r := node][..k] == nodes[..k][r := node];
      NodesUpdate(p, nodes[..k], r, node);
    } else {
      assert nodes[r := node][..k] == nodes[..k];
    }
  }

  lemma {:induction false} SendersUpdate(senders: map<nat, Sender>, c: nat, sender: Sender, n: nat)
    ensures SendersMeasure(senders[c := sender], n) + (if c < n && c in senders then SenderMeasure(senders[c]) else 0) ==
      SendersMeasure(senders, n) + if c < n then SenderMeasure(sender) else 0
  {
    hide SenderMeasure;
    if n > 0 {
      SendersUpdate(senders, c, sender, n - 1);
    }
  }

  lemma {:induction false} OpenDone(groups: seq<Group>, g: nat)
    requires g < |groups| && !groups[g].completed
    ensures OpenMoves(Done(groups, g)) + |groups[g].slots| + 3 == OpenMoves(groups)
  {
    var k := |groups| - 1;
    if g < k {
      assert Done(groups, g)[..k] == Done(groups[..k], g);
      OpenDone(groups[..k], g);
    } else {
      assert Done(groups, g)[..k] == groups[..k];
    }
  }

  lemma OpenAppend(groups: seq<Group>, group: Group)
    ensures OpenMoves(groups + [group]) == OpenMoves(groups) + if group.completed then 0 else |group.slots| + 3
  {
    assert (groups + [group])[..|groups|] == groups;
  }

  lemma {:induction false} OpenAtLeast(groups: seq<Group>, g: nat)
    requires g < |groups| && !groups[g].completed
    ensures OpenMoves(groups) >= |groups[g].slots| + 3
  {
    OpenDone(groups, g);
  }

  lemma MovesCover(p: Program, r: int, n: nat, args: seq<Payload>, store: Store)
    requires Fetched(store, Wanted(p, r, n), args)
    ensures |args| < MovesLeft(p, r, n)
  {
    hide DescMap, Wanted;
    if n >= |p.Code()| {
      assert Wanted(p, r, n) == [] by { NothingWanted(p, r, n); }
    }
  }

  lemma NothingWanted(p: Program, r: int, n: nat)
    requires n >= |p.Code()|
    ensures Wanted(p, r, n) == []
  {
  }

  /** A node that is not final has moves left. */
  lemma NodePositive(cfg: Config, r: nat, node: Node)
    requires r < |cfg.ranks| && NodeInv(cfg, r, node) && !Final(node)
    ensures NodeMeasure(cfg.program, r, node) > 0
  {
    hide Launched, StoreInv, UsesInv, GroupsInv, DescMap, Meaning, Fetched, FenceOk, CompletedCount, Wanted, MovesLeft, OpenMoves;
    var p := cfg.program;
    match node.control
    case Running(pc, args) => MovesCover(p, r, pc, args, node.local.store);
    case Waiting(pc, args, g, _, got) =>
      MovesCover(p, r, pc, args, node.local.store);
      OpenAtLeast(node.local.groups, g);
      OpenSlots(cfg, r, node);
    case _ =>
  }

  lemma OpenSlots(cfg: Config, r: nat, node: Node)
    requires r < |cfg.ranks| && node.control.Waiting? && NodeInv(cfg, r, node)
    ensures |node.control.got| <= |node.local.groups[node.control.group].slots|
  {
    hide LocalInv, Launched, Meaning, DescMap, Validates, WellFormed, FenceOk, CompletedCount, Wanted, Fetched, CommTyped, LocalSlots, DefinedBefore, HasSender;
    LaunchedIsVerified(cfg, r);
    var c := node.control;
    GroupFacts(cfg.program, cfg.loaded, cfg.ranks[r].skip, r, cfg.ranks[r].retain, c.pc, node.local, c.group);
  }

  lemma BeginWaitLowers(cfg: Config, r: nat, node: Node, g: nat)
    requires r < |cfg.ranks| && node.control.Running? && NodeInv(cfg, r, node) && BeginWait(cfg.program, r, node, g).Moved?
    ensures NodeMeasure(cfg.program, r, BeginWait(cfg.program, r, node, g).node) < NodeMeasure(cfg.program, r, node)
  {
    hide Launched, LocalInv, DescMap, Meaning, Fetched, FenceOk, CompletedCount, Wanted, MovesLeft, OpenMoves;
    MovesCover(cfg.program, r, node.control.pc, node.control.args, node.local.store);
  }

  lemma FetchLowers(cfg: Config, r: nat, node: Node, id: ValueId, place: Place)
    requires r < |cfg.ranks| && node.control.Running? && NodeInv(cfg, r, node) && Fetch(cfg.program, r, node, id, place).Moved?
    ensures NodeMeasure(cfg.program, r, Fetch(cfg.program, r, node, id, place).node) < NodeMeasure(cfg.program, r, node)
  {
    hide Launched, LocalInv, DescMap, Meaning, Fetched, FenceOk, CompletedCount, Wanted, MovesLeft, OpenMoves;
    MovesCover(cfg.program, r, node.control.pc, node.control.args, node.local.store);
    if node.local.store[id].Pending? {
      BeginWaitLowers(cfg, r, node, node.local.store[id].group);
    }
  }

  /** Going on to the next instruction, with at most one more open group and one more sender. */
  lemma AdvanceLowers(cfg: Config, r: nat, node: Node, groups: seq<Group>, send: nat, next: Node)
    requires r < |cfg.ranks| && node.control.Running? && node.control.pc < |cfg.program.Code()|
    requires Fetched(node.local.store, Wanted(cfg.program, r, node.control.pc), node.control.args)
    requires next.control == Running(node.control.pc + 1, []) && next.local.groups == groups
    requires OpenMoves(groups) + send <= OpenMoves(node.local.groups) +
      (if cfg.program.Code()[node.control.pc].body.Comm? then
        var action := cfg.program.Code()[node.control.pc].body.action;
        |LocalSlots(action.destinations, r)| + |action.destinations| + 4
      else 0)
    ensures NodeMeasure(cfg.program, r, next) + send < NodeMeasure(cfg.program, r, node)
  {
    hide DescMap, Wanted, OpenMoves, LocalSlots;
    MovesCover(cfg.program, r, node.control.pc, node.control.args, node.local.store);
    FetchedBound(node.local.store, Wanted(cfg.program, r, node.control.pc), node.control.args);
  }

  lemma RunComputeLowers(cfg: Config, r: nat, node: Node, op: ComputeOp)
    requires r < |cfg.ranks| && node.control.Running? && NodeInv(cfg, r, node) && node.control.pc < |cfg.program.Code()|
    requires cfg.program.Code()[node.control.pc].body == Compute(op) && RunCompute(cfg, r, node, op).Moved?
    ensures NodeMeasure(cfg.program, r, RunCompute(cfg, r, node, op).node) < NodeMeasure(cfg.program, r, node)
  {
    hide Launched, LocalInv, DescMap, Meaning, Fetched, FenceOk, CompletedCount, Wanted, MovesLeft, OpenMoves, FinishCompute, NodeMeasure, Fetch;
    var args := node.control.args;
    if op.place.rank == r && |args| < |op.inputs| {
      FetchLowers(cfg, r, node, op.inputs[|args|], op.place);
    } else {
      if op.place.rank == r {
        ComputeGroups(cfg.program, cfg.ranks[r].retain, node.local, op, args);
      }
      AdvanceLowers(cfg, r, node, node.local.groups, 0, RunCompute(cfg, r, node, op).node);
    }
  }

  lemma RunEncodeLowers(cfg: Config, r: nat, node: Node, payload: EncodePayload, output: ValueId)
    requires r < |cfg.ranks| && node.control.Running? && NodeInv(cfg, r, node) && node.control.pc < |cfg.program.Code()|
    requires cfg.program.Code()[node.control.pc].body == Encode(payload, output) && RunEncode(cfg, r, node, payload, output).Moved?
    ensures NodeMeasure(cfg.program, r, RunEncode(cfg, r, node, payload, output).node) < NodeMeasure(cfg.program, r, node)
  {
    hide Launched, LocalInv, DescMap, Meaning, Fetched, FenceOk, CompletedCount, Wanted, MovesLeft, OpenMoves, NodeMeasure, EncodeValue, Validates;
    AdvanceLowers(cfg, r, node, node.local.groups, 0, RunEncode(cfg, r, node, payload, output).node);
  }

  lemma RunCommLowers(cfg: Config, r: nat, node: Node, action: CommAction)
    requires r < |cfg.ranks| && node.control.Running? && NodeInv(cfg, r, node) && node.control.pc < |cfg.program.Code()|
    requires cfg.program.Code()[node.control.pc].body == Comm(action)
    ensures var m := RunComm(cfg, r, node, action);
      && (m.Moved? ==> NodeMeasure(cfg.program, r, m.node) < NodeMeasure(cfg.program, r, node))
      && (m.Started? ==> NodeMeasure(cfg.program, r, m.node) + SenderMeasure(m.sender) < NodeMeasure(cfg.program, r, node))
  {
    hide Launched, LocalInv, DescMap, Meaning, Fetched, FenceOk, CompletedCount, Wanted, MovesLeft, OpenMoves, NodeMeasure, Fetch, PostComm, LocalSlots;
    var m := RunComm(cfg, r, node, action);
    var args, ids := node.control.args, LocalInputs(action, r);
    if !m.Failed? {
      if |args| < |ids| {
        FetchLowers(cfg, r, node, ids[|args|], Pick(action.sources, LocalSlots(action.sources, r))[|args|]);
      } else {
        PostGroups(r, node.local, node.control.pc, action);
        OpenAppend(node.local.groups, MakeGroup(action, r, node.control.pc));
        AdvanceLowers(cfg, r, node, node.local.groups + [MakeGroup(action, r, node.control.pc)],
                      if m.Started? then SenderMeasure(m.sender) else 0, m.node);
      }
    }
  }

  lemma PostGroups(r: int, l: Local, command: nat, action: CommAction)
    requires PostComm(r, l, command, action).Success?
    ensures PostComm(r, l, command, action).value.groups == l.groups + [MakeGroup(action, r, command)]
  {
    hide LocalSlots, DefinePending;
  }

  lemma RunNodeLowers(cfg: Config, r: nat, node: Node)
    requires r < |cfg.ranks| && node.control.Running? && NodeInv(cfg, r, node)
    ensures var m := RunNode(cfg, r, node);
      && (m.Moved? ==> NodeMeasure(cfg.program, r, m.node) < NodeMeasure(cfg.program, r, node))
      && (m.Started? ==> NodeMeasure(cfg.program, r, m.node) + SenderMeasure(m.sender) < NodeMeasure(cfg.program, r, node))
  {
    hide NodeInv, DescMap, Publish, RunEncode, RunCompute, RunComm, BeginWait, MovesLeft, OpenMoves, SenderMeasure;
    var p, pc := cfg.program, node.control.pc;
    NodePositive(cfg, r, node);
    if AtFence(p, pc) && FirstOpen(node.local.groups, 0).Some? {
      if RunNode(cfg, r, node).Moved? {
        BeginWaitLowers(cfg, r, node, FirstOpen(node.local.groups, 0).value);
      }
    } else if pc < |p.Code()| {
      match p.Code()[pc].body
      case Encode(payload, output) =>
        if RunEncode(cfg, r, node, payload, output).Moved? { RunEncodeLowers(cfg, r, node, payload, output); }
      case Compute(op) =>
        if RunCompute(cfg, r, node, op).Moved? { RunComputeLowers(cfg, r, node, op); }
      case Comm(action) => RunCommLowers(cfg, r, node, action);
    }
  }

  /** Replacing a node that is not final by one with less to do lowers the total. */
  lemma NodeLowers(cfg: Config, s: State, r: nat, node: Node, t: State)
    requires r < |s.nodes| && t.nodes == s.nodes[r := node] && t.senders == s.senders
    requires NodeMeasure(cfg.program, r, node) < NodeMeasure(cfg.program, r, s.nodes[r])
    ensures Measure(cfg, t) < Measure(cfg, s)
  {
    hide NodeMeasure, DescMap;
    NodesUpdate(cfg.program, s.nodes, r, node);
  }

  lemma PanicLowers(cfg: Config, s: State, r: nat, reason: Reason)
    requires Inv(cfg, s) && r < |s.nodes| && !Final(s.nodes[r])
    ensures Measure(cfg, Panic(s, r, reason)) < Measure(cfg, s)
  {
    hide NodeInv, Measure, SetupOk, SenderInv, MessageInv, StartedInv, MovesLeft;
    assert RankInv(cfg, s, r);
    NodePositive(cfg, r, s.nodes[r]);
    NodeLowers(cfg, s, r, s.nodes[r].(control := Panicked), Panic(s, r, reason));
  }

  lemma SetupLowers(cfg: Config, s: State, r: nat)
    requires Inv(cfg, s) && r < |s.nodes| == |cfg.ranks| && s.nodes[r].control.Setup?
    ensures Measure(cfg, SetupStep(cfg, s, r)) < Measure(cfg, s)
  {
    hide Inv, Measure, SetupOk, MovesLeft;
    PanicLowers(cfg, s, r, RankFailed(r));
    if SetupOk(cfg, r) {
      NodeLowers(cfg, s, r, s.nodes[r].(control := Barrier), SetupStep(cfg, s, r));
    }
  }

  lemma BarrierLowers(cfg: Config, s: State, r: nat)
    requires Inv(cfg, s) && r < |s.nodes| == |cfg.ranks| && s.nodes[r].control.Barrier?
    ensures Measure(cfg, BarrierStep(cfg, s, r)) < Measure(cfg, s)
  {
    hide Inv, Measure, MovesLeft, SameSkips, SameDigests, BindInputs, Panic;
    PanicLowers(cfg, s, r, RankFailed(r));
    PanicLowers(cfg, s, r, SkipMismatch);
    PanicLowers(cfg, s, r, DigestMismatch);
    var bound := BindInputs(cfg.program, r, cfg.ranks[r].retain, cfg.ranks[r].given);
    if bound.Success? {
      var node := Node(Running(0, []), bound.value, 0, 0);
      BoundGroups(cfg, r);
      BoundMeasure(cfg, r, s.nodes[r], bound.value);
      NodeLowers(cfg, s, r, node, SetNode(s, r, node));
    }
  }

  lemma BoundGroups(cfg: Config, r: nat)
    requires r < |cfg.ranks| && BindInputs(cfg.program, r, cfg.ranks[r].retain, cfg.ranks[r].given).Success?
    ensures BindInputs(cfg.program, r, cfg.ranks[r].retain, cfg.ranks[r].given).value.groups == []
  {
    hide Bound, InitialUses, LocalExternals;
  }

  lemma BoundMeasure(cfg: Config, r: nat, node: Node, l: Local)
    requires node.control.Barrier? && l.groups == []
    ensures NodeMeasure(cfg.program, r, Node(Running(0, []), l, 0, 0)) < NodeMeasure(cfg.program, r, node)
  {
    hide MovesLeft;
  }

  lemma RunLowers(cfg: Config, s: State, r: nat)
    requires Inv(cfg, s) && r < |s.nodes| && s.nodes[r].control.Running?
    ensures Measure(cfg, RunStep(cfg, s, r)) < Measure(cfg, s)
  {
    hide Inv, SetupOk, RunNode, NodeInv, NodeMeasure, SenderMeasure, SenderInv, MessageInv, SenderOk, NodesMeasure;
    InvShape(cfg, s);
    assert RankInv(cfg, s, r) && StartedInv(cfg, s, r);
    var node := s.nodes[r];
    RunNodeLowers(cfg, r, node);
    RunNodeKeeps(cfg, r, node);
    match RunNode(cfg, r, node)
    case Failed => PanicLowers(cfg, s, r, RankFailed(r));
    case Moved(next) => NodeLowers(cfg, s, r, next, SetNode(s, r, next));
    case Started(next, sender) =>
      NewSender(cfg, s, r);
      NodesUpdate(cfg.program, s.nodes, r, next);
      SendersUpdate(s.senders, node.control.pc, sender, |cfg.program.Code()|);
  }

  lemma NewSender(cfg: Config, s: State, r: nat)
    requires Inv(cfg, s) && r < |s.nodes| && s.nodes[r].control.Running?
    requires s.nodes[r].control.pc < |cfg.program.Code()| && cfg.program.Code()[s.nodes[r].control.pc].body.Comm?
    requires HasSender(cfg.program.Code()[s.nodes[r].control.pc].body.action, r)
    ensures s.nodes[r].control.pc !in s.senders
  {
    hide NodeInv, SetupOk, SenderOk, MessageInv, StartedInv;
    var pc := s.nodes[r].control.pc;
    assert pc in s.senders ==> SenderInv(cfg, s, pc);
  }

  lemma WaitLowers(cfg: Config, s: State, r: nat)
    requires Inv(cfg, s) && s.nodes != [] && r < |s.nodes| && s.nodes[r].control.Waiting? && Enabled(cfg, s, RankMoves(r))
    ensures Measure(cfg, WaitStep(cfg, s, r)) < Measure(cfg, s)
  {
    hide Inv, Measure, SetupOk, NodeInv, NodeMeasure, SenderInv, MessageInv, CompleteGroup, Corrupt, NextKey, StartedInv, HasSender;
    InvShape(cfg, s);
    assert RankInv(cfg, s, r);
    var node := s.nodes[r];
    var c := node.control;
    PanicLowers(cfg, s, r, RankFailed(r));
    if c.group < |node.local.groups| {
      var group := node.local.groups[c.group];
      if !c.joined {
        if group.command in s.senders && s.senders[group.command].status == Sent {
          JoinLowers(cfg, r, node);
          NodeLowers(cfg, s, r, node.(control := c.(joined := true)), WaitStep(cfg, s, r));
        }
      } else if NextKey(cfg.program, node).Some? {
        var key := NextKey(cfg.program, node).value;
        if key in s.messages {
          ReceiveLowers(cfg, s, r);
          NodeLowers(cfg, s, r, node.(control := c.(got := c.got + [s.messages[key]])), SetNode(s, r, node.(control := c.(got := c.got + [s.messages[key]]))));
        }
      } else if group.command < |cfg.program.Code()| && cfg.program.Code()[group.command].body.Comm? {
        var outputs := Corrupt(cfg.faults, cfg.program.Code()[group.command].body.action.id, c.got);
        var done := CompleteGroup(cfg.program, cfg.ranks[r].retain, node.local, c.group, outputs);
        if done.Success? {
          AllReceived(cfg, r, node);
          CompleteLowers(cfg, r, node, outputs);
          NodeLowers(cfg, s, r, node.(control := Running(c.pc, c.args), local := done.value), WaitStep(cfg, s, r));
        }
      }
    }
  }

  lemma JoinLowers(cfg: Config, r: nat, node: Node)
    requires r < |cfg.ranks| && node.control.Waiting? && NodeInv(cfg, r, node) && !node.control.joined
    ensures NodeMeasure(cfg.program, r, node.(control := node.control.(joined := true))) < NodeMeasure(cfg.program, r, node)
  {
    hide NodeInv, MovesLeft, OpenMoves;
    NodePositive(cfg, r, node);
  }

  lemma ReceiveLowers(cfg: Config, s: State, r: nat)
    requires Inv(cfg, s) && r < |s.nodes| && s.nodes[r].control.Waiting?
    requires NextKey(cfg.program, s.nodes[r]).Some? && NextKey(cfg.program, s.nodes[r]).value in s.messages
    ensures var node := s.nodes[r]; var c := node.control;
      NodeMeasure(cfg.program, r, node.(control := c.(got := c.got + [s.messages[NextKey(cfg.program, node).value]]))) <
      NodeMeasure(cfg.program, r, node)
  {
    hide Inv, NodeInv, MovesLeft, OpenMoves;
    InvShape(cfg, s);
    assert RankInv(cfg, s, r);
    NodePositive(cfg, r, s.nodes[r]);
  }

  lemma CompleteLowers(cfg: Config, r: nat, node: Node, outputs: seq<Payload>)
    requires r < |cfg.ranks| && node.control.Waiting? && NodeInv(cfg, r, node)
    requires |node.control.got| == |node.local.groups[node.control.group].outputIds|
    requires CompleteGroup(cfg.program, cfg.ranks[r].retain, node.local, node.control.group, outputs).Success?
    ensures var c := node.control; var l := CompleteGroup(cfg.program, cfg.ranks[r].retain, node.local, c.group, outputs).value;
      NodeMeasure(cfg.program, r, node.(control := Running(c.pc, c.args), local := l)) < NodeMeasure(cfg.program, r, node)
  {
    hide Launched, StoreInv, UsesInv, GroupsInv, DescMap, Meaning, Fetched, FenceOk, CompletedCount, Wanted, MovesLeft, OpenMoves, ReleaseAll, Install;
    var c := node.control;
    MovesCover(cfg.program, r, c.pc, c.args, node.local.store);
    OpenSlots(cfg, r, node);
    OpenDone(node.local.groups, c.group);
  }

  lemma SenderLowers(cfg: Config, s: State, command: nat)
    requires Enabled(cfg, s, SenderMoves(command)) && Inv(cfg, s)
    ensures Measure(cfg, SenderStep(cfg, s, command)) < Measure(cfg, s)
  {
    hide NodeInv, SetupOk, SenderOk, MessageInv, StartedInv, NodesMeasure, RankInv, Passed;
    assert SenderInv(cfg, s, command);
    SendersUpdate(s.senders, command, SenderStep(cfg, s, command).senders[command], |cfg.program.Code()|);
  }

  /** Termination: every enabled action of a reachable state lowers the measure, faults or not. */
  lemma StepLowers(cfg: Config, s: State, a: Action)
    requires Inv(cfg, s) && Enabled(cfg, s, a)
    ensures Measure(cfg, Next(cfg, s, a)) < Measure(cfg, s)
  {
    hide Inv, Measure, SetupStep, BarrierStep, RunStep, WaitStep, SenderStep, WaitEnabled, NodeInv;
    InvShape(cfg, s);
    match a
    case SenderMoves(c) => SenderLowers(cfg, s, c);
    case RankMoves(r) =>
      match s.nodes[r].control
      case Setup => SetupLowers(cfg, s, r);
      case Barrier => BarrierLowers(cfg, s, r);
      case Running(_, _) => RunLowers(cfg, s, r);
      case Waiting(_, _, _, _, _) => WaitLowers(cfg, s, r);
  }

  lemma {:induction false} RunIsBounded(cfg: Config, run: seq<State>, actions: seq<Action>, i: nat)
    requires IsRun(cfg, run, actions) && i <= |actions|
    ensures i + Measure(cfg, run[i]) <= Measure(cfg, Initial(cfg))
  {
    hide Inv, Enabled, Next, Initial, Measure;
    if i > 0 {
      RunIsBounded(cfg, run, actions, i - 1);
      ReachableInv(cfg, run, actions, i - 1);
      StepLowers(cfg, run[i - 1], actions[i - 1]);
    }
  }
}
