/** The multi-rank execution as a transition system: one sequential runtime per rank, one sender thread
    per transfer, a shared message table, a start-up barrier and a sticky abort flag
    (runtime/runtime.hpp, api/mock_api.cpp). One transition is one access to shared state or one
    local operation; which rank or sender moves next is arbitrary. */
module Protocol {
  import opened Wrappers
  import opened Plan
  import opened Rules
  import opened Vec
  import opened Semantics
  import opened RankState
  import opened RankInvariant
  import opened RankRun
  import Verifier

  /** Injected faults of the mock cluster. */
  datatype Faults = Faults(
    failPublish: set<TransferId>, failWait: set<TransferId>,
    corruptCount: set<TransferId>, corruptType: set<TransferId>, corruptMeta: set<TransferId>,
    failCompute: Option<ComputeKind>, failCommunicate: set<TransferId>,
    missingCapabilities: set<Capability>, missingKeys: set<KeyRequirement>)

  /** What a rank is started with: its skip flag, the digest of its plan file, whether its bundle loads, whether
      it retains all values, its number of devices, and the identifiers it is given input bindings for. */
  datatype RankConfig = RankConfig(
    skip: bool, digest: string, bundleLoads: bool, retain: bool, devices: int, given: set<ValueId>)

  /** What a rank leaves in the start-up table. */
  datatype Registration = Registration(skip: bool, digest: string)

  datatype Config = Config(program: Program, loaded: LoadedSpec, ranks: seq<RankConfig>, faults: Faults)

  datatype Control =
    | Setup
    | Barrier
    | Running(pc: nat, args: seq<Payload>)
    | Waiting(pc: nat, args: seq<Payload>, group: nat, joined: bool, got: seq<Payload>)
    | Finished(artifact: Artifact)
    | Panicked

  /** A rank: where it is, its memory, and its post and wait call counters. */
  datatype Node = Node(control: Control, local: Local, posts: nat, waits: nat)

  datatype SenderStatus = Sending | Sent | Broken
  datatype Sender = Sender(count: nat, value: Payload, next: nat, status: SenderStatus)

  datatype Reason = RankFailed(rank: nat) | SenderFailed(command: nat) | SkipMismatch | DigestMismatch

  /** Messages are keyed by transfer and slot, senders by the instruction that started them. */
  datatype State = State(
    nodes: seq<Node>, senders: map<nat, Sender>, messages: map<(TransferId, nat), Payload>,
    registered: map<nat, Registration>, abort: Option<Reason>)

  datatype Action = RankMoves(rank: nat) | SenderMoves(command: nat)

  const EmptyLocal := Local(map[], [], map[])

  function Initial(cfg: Config): State {
    State(seq(|cfg.ranks|, i => Node(Setup, EmptyLocal, 0, 0)), map[], map[], map[], None)
  }

  /** Everything `run` checks before it registers at the barrier. */
  ghost predicate SetupOk(cfg: Config, r: nat)
    requires r < |cfg.ranks|
  {
    var plan := cfg.program.plan;
    var n := |Instructions(plan)|;
    && WellFormed(plan, cfg.loaded, cfg.ranks[r].skip)
    && |cfg.ranks| == plan.target.worldSize
    && cfg.ranks[r].devices == plan.target.deviceCounts[r]
    && cfg.ranks[r].bundleLoads
    && plan.target.capabilityVersion == 1
    && Verifier.CapabilitiesBefore(plan, n) !! cfg.faults.missingCapabilities
    && Verifier.KeysBefore(plan, cfg.loaded.spec.polyDegree / 2, n) !! cfg.faults.missingKeys
  }

  /** The barrier's two comparisons, on the table the ranks have registered in. */
  predicate SameSkips(registered: map<nat, Registration>) {
    forall q, r :: q in registered && r in registered ==> registered[q].skip == registered[r].skip
  }

  predicate SameDigests(registered: map<nat, Registration>) {
    forall q, r :: q in registered && r in registered ==> registered[q].digest == registered[r].digest
  }

  // ---- One rank between two shared accesses ----

  /** Result of a local operation: a new node, a new node together with a started sender, or an exception. */
  datatype Move = Moved(node: Node) | Started(node: Node, sender: Sender) | Failed

  predicate HasSender(action: CommAction, r: nat) {
    action.sources != [] && action.sources[0].rank == r
  }

  /** Entering `wait`: the sender thread, if this rank has one, is joined first. */
  function BeginWait(p: Program, r: nat, node: Node, g: nat): (m: Move)
    requires node.control.Running?
    ensures !m.Started?
  {
    if g >= |node.local.groups| || node.local.groups[g].completed then Failed
    else
      var command := node.local.groups[g].command;
      if command >= |p.Code()| || !p.Code()[command].body.Comm? then Failed
      else
        Moved(node.(
          control := Waiting(node.control.pc, node.control.args, g, !HasSender(p.Code()[command].body.action, r), []),
          waits := node.waits + 1))
  }

  /** `ensure_ready` for the next operand. */
  function Fetch(p: Program, r: nat, node: Node, id: ValueId, place: Place): (m: Move)
    requires node.control.Running?
    ensures !m.Started?
  {
    if id !in node.local.store || node.local.store[id].place != place then Failed
    else
      match node.local.store[id]
      case Ready(_, v) => Moved(node.(control := Running(node.control.pc, node.control.args + [v])))
      case Pending(_, g, _) => BeginWait(p, r, node, g)
  }

  function Advance(node: Node, r: RankState.Checked<Local>): (m: Move)
    requires node.control.Running?
    ensures !m.Started?
  {
    match r
    case Success(l) => Moved(node.(control := Running(node.control.pc + 1, []), local := l))
    case Failure(_) => Failed
  }

  /** The two places where `finish_all_groups` runs: after initialization and after the last instruction. */
  predicate AtFence(p: Program, pc: nat) {
    pc == |p.plan.initialization| || pc == |p.Code()|
  }

  /** The first group that has not been waited for, if any. */
  function FirstOpen(groups: seq<Group>, g: nat): (h: Option<nat>)
    ensures h.Some? ==> g <= h.value < |groups| && !groups[h.value].completed
    ensures h.None? ==> forall k :: g <= k < |groups| ==> groups[k].completed
    decreases |groups| - g
  {
    if g >= |groups| then None
    else if !groups[g].completed then Some(g)
    else FirstOpen(groups, g + 1)
  }

  function RunCompute(cfg: Config, r: nat, node: Node, op: ComputeOp): (m: Move)
    requires r < |cfg.ranks| && node.control.Running?
    ensures !m.Started?
  {
    var p, args := cfg.program, node.control.args;
    if op.place.rank != r then Moved(node.(control := Running(node.control.pc + 1, [])))
    else if |args| < |op.inputs| then Fetch(p, r, node, op.inputs[|args|], op.place)
    else if cfg.faults.failCompute == Some(op.kind) then Failed
    else Advance(node, FinishCompute(p, cfg.ranks[r].retain, node.local, op, args))
  }

  function RunEncode(cfg: Config, r: nat, node: Node, payload: EncodePayload, output: ValueId): (m: Move)
    requires node.control.Running?
    ensures !m.Started?
  {
    var p := cfg.program;
    if output !in p.Table() then Failed
    else if p.Table()[output].place.rank != r then Moved(node.(control := Running(node.control.pc + 1, [])))
    else Advance(node, FinishEncode(p, node.local, payload, output))
  }

  function RunComm(cfg: Config, r: nat, node: Node, action: CommAction): Move
    requires node.control.Running?
  {
    var p, pc, args := cfg.program, node.control.pc, node.control.args;
    var ids := LocalInputs(action, r);
    if action.sources == [] || |action.sources| != |action.inputs| then Failed
    else if |args| < |ids| then Fetch(p, r, node, ids[|args|], Pick(action.sources, LocalSlots(action.sources, r))[|args|])
    else if action.id in cfg.faults.failCommunicate then Failed
    else if |args| != (if HasSender(action, r) then 1 else 0) then Failed
    else
      match Advance(node.(posts := node.posts + 1), PostComm(r, node.local, pc, action))
      case Moved(after) =>
        if HasSender(action, r) then
          Started(after, Sender(|action.destinations|, args[0], 0, if action.destinations == [] then Sent else Sending))
        else Moved(after)
      case _ => Failed
  }

  /** The next local operation of a running rank. */
  function RunNode(cfg: Config, r: nat, node: Node): Move
    requires r < |cfg.ranks| && node.control.Running?
  {
    var p, pc := cfg.program, node.control.pc;
    var open := if AtFence(p, pc) then FirstOpen(node.local.groups, 0) else None;
    if open.Some? then BeginWait(p, r, node, open.value)
    else if pc >= |p.Code()| then
      match Publish(p, r, cfg.ranks[r].retain, node.local)
      case Success(artifact) => Moved(node.(control := Finished(artifact)))
      case Failure(_) => Failed
    else
      match p.Code()[pc].body
      case Encode(payload, output) => RunEncode(cfg, r, node, payload, output)
      case Compute(op) => RunCompute(cfg, r, node, op)
      case Comm(action) => RunComm(cfg, r, node, action)
  }

  // ---- Transitions ----

  function Flip(v: Payload): Payload {
    var kind := if v.kind == Ciphertext then Plaintext else Ciphertext;
    v.(kind := kind, meta := v.meta.(components := if kind == Plaintext then 1 else 2))
  }

  function Raise(v: Payload): Payload {
    v.(meta := v.meta.(level := if v.meta.level == INT_MAX then -0x8000_0000 else v.meta.level + 1))
  }

  /** The injected corruptions of what `wait` returns, in the order the mock applies them. */
  function Corrupt(faults: Faults, id: TransferId, outputs: seq<Payload>): seq<Payload> {
    var counted := if id in faults.corruptCount && outputs != [] then outputs[..|outputs| - 1] else outputs;
    var typed := if id in faults.corruptType && counted != [] then counted[0 := Flip(counted[0])] else counted;
    if id in faults.corruptMeta && typed != [] then typed[0 := Raise(typed[0])] else typed
  }

  /** `abort_all`: the first reason wins, and the caller is gone. */
  function Abort(s: State, reason: Reason): State {
    if s.abort.Some? then s else s.(abort := Some(reason))
  }

  function Panic(s: State, r: nat, reason: Reason): State
    requires r < |s.nodes|
  {
    Abort(s, reason).(nodes := s.nodes[r := s.nodes[r].(control := Panicked)])
  }

  function SetNode(s: State, r: nat, node: Node): State
    requires r < |s.nodes|
  {
    s.(nodes := s.nodes[r := node])
  }

  /** Transfer key of the next slot a waiting rank receives. */
  function NextKey(p: Program, node: Node): (k: Option<(TransferId, nat)>)
    requires node.control.Waiting?
  {
    var c := node.control;
    if c.group >= |node.local.groups| then None
    else
      var group := node.local.groups[c.group];
      if group.command >= |p.Code()| || !p.Code()[group.command].body.Comm? || |c.got| >= |group.slots| then None
      else Some((p.Code()[group.command].body.action.id, group.slots[|c.got|]))
  }

  /** Whether the wait predicate of the next shared access holds. */
  predicate WaitEnabled(cfg: Config, s: State, node: Node)
    requires node.control.Waiting?
  {
    var c := node.control;
    if !c.joined then
      c.group < |node.local.groups| &&
      (node.local.groups[c.group].command in s.senders ==> s.senders[node.local.groups[c.group].command].status != Sending)
    else
      var key := NextKey(cfg.program, node);
      key.None? || s.abort.Some? || key.value in s.messages
  }

  ghost predicate Enabled(cfg: Config, s: State, a: Action) {
    match a
    case RankMoves(r) =>
      r < |s.nodes| && r < |cfg.ranks| &&
      (match s.nodes[r].control
       case Setup => true
       case Barrier => s.abort.Some? || |s.registered| == |cfg.ranks|
       case Running(_, _) => true
       case Waiting(_, _, _, _, _) => WaitEnabled(cfg, s, s.nodes[r])
       case Finished(_) => false
       case Panicked => false)
    case SenderMoves(c) =>
      c in s.senders && s.senders[c].status == Sending && c < |cfg.program.Code()| && cfg.program.Code()[c].body.Comm?
  }

  ghost function SetupStep(cfg: Config, s: State, r: nat): State
    requires r < |s.nodes| && r < |cfg.ranks|
  {
    if SetupOk(cfg, r) then SetNode(s, r, s.nodes[r].(control := Barrier)).(registered := s.registered[r := Registration(cfg.ranks[r].skip, cfg.ranks[r].digest)])
    else Panic(s, r, RankFailed(r))
  }

  /** Leaving `preflight`, then binding the inputs. */
  ghost function BarrierStep(cfg: Config, s: State, r: nat): State
    requires r < |s.nodes| && r < |cfg.ranks|
  {
    if s.abort.Some? then Panic(s, r, RankFailed(r))
    else if !SameSkips(s.registered) then Panic(s, r, SkipMismatch)
    else if 0 in s.registered && !s.registered[0].skip && !SameDigests(s.registered) then Panic(s, r, DigestMismatch)
    else
      match BindInputs(cfg.program, r, cfg.ranks[r].retain, cfg.ranks[r].given)
      case Success(l) => SetNode(s, r, Node(Running(0, []), l, 0, 0))
      case Failure(_) => Panic(s, r, RankFailed(r))
  }

  function RunStep(cfg: Config, s: State, r: nat): State
    requires r < |s.nodes| && r < |cfg.ranks| && s.nodes[r].control.Running?
  {
    match RunNode(cfg, r, s.nodes[r])
    case Moved(node) => SetNode(s, r, node)
    case Started(node, sender) => SetNode(s, r, node).(senders := s.senders[s.nodes[r].control.pc := sender])
    case Failed => Panic(s, r, RankFailed(r))
  }

  function WaitStep(cfg: Config, s: State, r: nat): State
    requires r < |s.nodes| && r < |cfg.ranks| && s.nodes[r].control.Waiting?
  {
    var node := s.nodes[r];
    var c, p := node.control, cfg.program;
    if c.group >= |node.local.groups| then Panic(s, r, RankFailed(r))
    else
      var group := node.local.groups[c.group];
      if !c.joined then
        if group.command in s.senders && s.senders[group.command].status == Sent
        then SetNode(s, r, node.(control := c.(joined := true)))
        else Panic(s, r, RankFailed(r))
      else
        match NextKey(p, node)
        case Some(key) =>
          if s.abort.Some? || key.0 in cfg.faults.failWait || key !in s.messages then Panic(s, r, RankFailed(r))
          else SetNode(s, r, node.(control := c.(got := c.got + [s.messages[key]])))
        case None =>
          if group.command >= |p.Code()| || !p.Code()[group.command].body.Comm? then Panic(s, r, RankFailed(r))
          else
            var outputs := Corrupt(cfg.faults, p.Code()[group.command].body.action.id, c.got);
            match CompleteGroup(p, cfg.ranks[r].retain, node.local, c.group, outputs)
            case Success(l) => SetNode(s, r, node.(control := Running(c.pc, c.args), local := l))
            case Failure(_) => Panic(s, r, RankFailed(r))
  }

  /** One `publish` of a sender thread. */
  function SenderStep(cfg: Config, s: State, command: nat): State
    requires command in s.senders && command < |cfg.program.Code()| && cfg.program.Code()[command].body.Comm?
  {
    var id := cfg.program.Code()[command].body.action.id;
    var sender := s.senders[command];
    var key := (id, sender.next);
    var broken := s.senders[command := sender.(status := Broken)];
    if s.abort.Some? then s.(senders := broken)
    else if id in cfg.faults.failPublish || key in s.messages then Abort(s, SenderFailed(command)).(senders := broken)
    else
      var next := sender.next + 1;
      s.(
        messages := s.messages[key := sender.value],
        senders := s.senders[command := sender.(next := next, status := if next >= sender.count then Sent else Sending)])
  }

  ghost function Next(cfg: Config, s: State, a: Action): State
    requires Enabled(cfg, s, a)
  {
    match a
    case RankMoves(r) =>
      (match s.nodes[r].control
       case Setup => SetupStep(cfg, s, r)
       case Barrier => BarrierStep(cfg, s, r)
       case Running(_, _) => RunStep(cfg, s, r)
       case Waiting(_, _, _, _, _) => WaitStep(cfg, s, r))
    case SenderMoves(c) => SenderStep(cfg, s, c)
  }

  /** A run: the initial state, and every next state reached by some enabled action. */
  ghost predicate IsRun(cfg: Config, run: seq<State>, actions: seq<Action>) {
    && |run| == |actions| + 1
    && run[0] == Initial(cfg)
    && forall i :: 0 <= i < |actions| ==> Enabled(cfg, run[i], actions[i]) && run[i + 1] == Next(cfg, run[i], actions[i])
  }

  predicate Final(node: Node) {
    node.control.Finished? || node.control.Panicked?
  }
}
