/** Safety of the multi-rank execution over every interleaving and every injected fault. */
module ProtocolSafety {
  import opened Wrappers
  import opened Plan
  import opened Rules
  import opened Vec
  import opened Semantics
  import opened RankState
  import opened RankInvariant
  import opened RankSteps
  import opened RankRun
  import opened Protocol
  import opened ProtocolNode

  /** The rank has executed instruction `command`, or is gone. */
  predicate Passed(control: Control, command: nat) {
    match control
    case Setup => false
    case Barrier => false
    case Running(pc, _) => command < pc
    case Waiting(pc, _, _, _, _) => command < pc
    case Finished(_) => true
    case Panicked => true
  }

  predicate InFlight(control: Control) {
    control.Running? || control.Waiting? || control.Finished?
  }

  function SourceRank(p: Program, command: nat): int
    requires command < |p.Code()| && p.Code()[command].body.Comm?
  {
    var action := p.Code()[command].body.action;
    if action.sources == [] then -1 else action.sources[0].rank
  }

  /** A sender: its value, its progress, and the messages it has published. */
  ghost predicate SenderInv(cfg: Config, s: State, command: nat)
    requires command in s.senders && |s.nodes| == |cfg.ranks|
  {
    var p, sender := cfg.program, s.senders[command];
    && SenderOk(cfg, command, sender)
    && sender.next <= sender.count
    && (sender.status == Sent ==> sender.next == sender.count)
    && (sender.status == Sending ==> sender.next < sender.count)
    && (sender.status == Broken ==> s.abort.Some?)
    && (forall k :: 0 <= k < sender.next ==>
      (p.Code()[command].body.action.id, k) in s.messages && s.messages[(p.Code()[command].body.action.id, k)] == sender.value)
    && 0 <= SourceRank(p, command) < |s.nodes|
    && Passed(s.nodes[SourceRank(p, command)].control, command)
  }

  /** Where a message came from. */
  ghost predicate MessageInv(cfg: Config, s: State, key: (TransferId, nat)) {
    exists command :: command in s.senders && command < |cfg.program.Code()| && cfg.program.Code()[command].body.Comm? &&
      cfg.program.Code()[command].body.action.id == key.0 && key.1 < s.senders[command].next
  }

  /** A rank that has executed a communication it is the source of has started its sender. */
  ghost predicate StartedInv(cfg: Config, s: State, r: nat)
    requires r < |s.nodes|
  {
    InFlight(s.nodes[r].control) ==>
      forall command :: 0 <= command < |cfg.program.Code()| && cfg.program.Code()[command].body.Comm? ==>
        (SourceRank(cfg.program, command) == r && Passed(s.nodes[r].control, command) ==> command in s.senders)
  }

  ghost predicate RankInv(cfg: Config, s: State, r: nat)
    requires r < |s.nodes| == |cfg.ranks|
  {
    && NodeInv(cfg, r, s.nodes[r])
    && (s.nodes[r].control.Barrier? || InFlight(s.nodes[r].control) ==> r in s.registered)
    && (InFlight(s.nodes[r].control) ==> |s.registered| == |cfg.ranks|)
    && (s.nodes[r].control.Panicked? ==> s.abort.Some?)
  }

  /** A registered rank has passed its own checks, and its entry is what it was started with. */
  ghost predicate RegisteredOk(cfg: Config, r: nat, e: Registration) {
    r < |cfg.ranks| && SetupOk(cfg, r) && e == Registration(cfg.ranks[r].skip, cfg.ranks[r].digest)
  }

  ghost predicate Inv(cfg: Config, s: State) {
    && |s.nodes| == |cfg.ranks|
    && (forall r :: r in s.registered ==> RegisteredOk(cfg, r, s.registered[r]))
    && (forall r :: 0 <= r < |s.nodes| ==> RankInv(cfg, s, r))
    && (forall r :: 0 <= r < |s.nodes| ==> StartedInv(cfg, s, r))
    && (forall command :: command in s.senders ==> SenderInv(cfg, s, command))
    && (forall key :: key in s.messages ==> MessageInv(cfg, s, key))
  }

  lemma InitKeeps(cfg: Config)
    ensures Inv(cfg, Initial(cfg))
  {
    hide SetupOk, Launched;
  }

  /** Replacing one node by a good one that is no less advanced, possibly raising the abort flag. */
  lemma SetNodeKeeps(cfg: Config, s: State, r: nat, node: Node, registered: map<nat, Registration>, abort: Option<Reason>)
    requires Inv(cfg, s) && r < |cfg.ranks| && NodeInv(cfg, r, node)
    requires registered == s.registered || (RegisteredOk(cfg, r, Registration(cfg.ranks[r].skip, cfg.ranks[r].digest)) &&
      registered == s.registered[r := Registration(cfg.ranks[r].skip, cfg.ranks[r].digest)])
    requires s.abort.Some? ==> abort.Some?
    requires node.control.Barrier? || InFlight(node.control) ==> r in registered
    requires InFlight(node.control) ==> |s.registered| == |cfg.ranks|
    requires node.control.Panicked? ==> abort.Some?
    requires forall command :: Passed(s.nodes[r].control, command) ==> Passed(node.control, command)
    requires StartedInv(cfg, s.(nodes := s.nodes[r := node]), r)
    ensures Inv(cfg, s.(nodes := s.nodes[r := node], registered := registered, abort := abort))
  {
    hide NodeInv, SetupOk, SenderOk, Launched, Passed, InFlight, SourceRank, SenderInv, MessageInv;
    var t := s.(nodes := s.nodes[r := node], registered := registered, abort := abort);
    if |s.registered| == |cfg.ranks| {
      FullTable(s.registered, |cfg.ranks|);
      assert registered == s.registered;
    }
    forall q | 0 <= q < |t.nodes| ensures RankInv(cfg, t, q) {
      assert RankInv(cfg, s, q);
    }
    forall q | 0 <= q < |t.nodes| ensures StartedInv(cfg, t, q) {
      assert StartedInv(cfg, s, q);
    }
    forall command | command in t.senders ensures SenderInv(cfg, t, command) {
      assert SenderInv(cfg, s, command);
      SetNodeSender(cfg, s, r, node, registered, abort, command);
    }
    forall key | key in t.messages ensures MessageInv(cfg, t, key) {
      assert MessageInv(cfg, s, key);
      SetNodeMessage(cfg, s, t, key);
    }
  }

  lemma SetNodeSender(
      cfg: Config, s: State, r: nat, node: Node, registered: map<nat, Registration>, abort: Option<Reason>, command: nat)
    requires r < |cfg.ranks| == |s.nodes| && command in s.senders && SenderInv(cfg, s, command)
    requires s.abort.Some? ==> abort.Some?
    requires Passed(s.nodes[r].control, command) ==> Passed(node.control, command)
    ensures SenderInv(cfg, s.(nodes := s.nodes[r := node], registered := registered, abort := abort), command)
  {
    hide SenderOk, Passed, SourceRank;
  }

  lemma SetNodeMessage(cfg: Config, s: State, t: State, key: (TransferId, nat))
    requires t.senders == s.senders && MessageInv(cfg, s, key)
    ensures MessageInv(cfg, t, key)
  {
  }

  lemma PanicKeeps(cfg: Config, s: State, r: nat, reason: Reason)
    requires Inv(cfg, s) && r < |cfg.ranks|
    ensures Inv(cfg, Panic(s, r, reason))
  {
    hide NodeInv, SetupOk, SenderInv, MessageInv, StartedInv;
    var node := s.nodes[r].(control := Panicked);
    assert RankInv(cfg, s, r);
    assert NodeInv(cfg, r, node) by { PanickedNode(cfg, r, node); }
    assert StartedInv(cfg, s.(nodes := s.nodes[r := node]), r) by { PanickedStarts(cfg, s.(nodes := s.nodes[r := node]), r); }
    SetNodeKeeps(cfg, s, r, node, s.registered, Abort(s, reason).abort);
  }

  lemma PanickedNode(cfg: Config, r: nat, node: Node)
    requires r < |cfg.ranks| && (node.control.Panicked? || node.control.Setup? || node.control.Barrier?)
    ensures NodeInv(cfg, r, node)
  {
  }

  lemma PanickedStarts(cfg: Config, s: State, r: nat)
    requires r < |s.nodes| && !InFlight(s.nodes[r].control)
    ensures StartedInv(cfg, s, r)
  {
  }

  function Below(n: nat): (s: set<nat>)
    ensures |s| == n && forall x: nat :: x in s <==> x < n
  {
    if n == 0 then {} else Below(n - 1) + {n - 1}
  }

  lemma FullSet(s: set<nat>, n: nat)
    requires (forall x :: x in s ==> x < n) && |s| == n
    ensures forall x :: 0 <= x < n ==> x in s
  {
    SameSize(s, Below(n));
  }

  lemma FullTable(registered: map<nat, Registration>, n: nat)
    requires (forall x :: x in registered ==> x < n) && |registered| == n
    ensures forall x :: 0 <= x < n ==> x in registered
  {
    assert |registered.Keys| == |registered|;
    FullSet(registered.Keys, n);
  }

  lemma SetupKeeps(cfg: Config, s: State, r: nat)
    requires Inv(cfg, s) && r < |cfg.ranks| && s.nodes[r].control.Setup?
    ensures Inv(cfg, SetupStep(cfg, s, r))
  {
    hide NodeInv, SetupOk, SenderInv, MessageInv, StartedInv, Inv;
    InvShape(cfg, s);
    if SetupOk(cfg, r) {
      var node := s.nodes[r].(control := Barrier);
      PanickedNode(cfg, r, node);
      PanickedStarts(cfg, s.(nodes := s.nodes[r := node]), r);
      SetNodeKeeps(cfg, s, r, node, s.registered[r := Registration(cfg.ranks[r].skip, cfg.ranks[r].digest)], s.abort);
    } else {
      PanicKeeps(cfg, s, r, RankFailed(r));
    }
  }

  lemma InvShape(cfg: Config, s: State)
    requires Inv(cfg, s)
    ensures |s.nodes| == |cfg.ranks|
    ensures forall r :: r in s.registered ==> RegisteredOk(cfg, r, s.registered[r])
    ensures forall r :: 0 <= r < |s.nodes| ==> RankInv(cfg, s, r)
    ensures forall r :: 0 <= r < |s.nodes| ==> StartedInv(cfg, s, r)
    ensures forall command :: command in s.senders ==> SenderInv(cfg, s, command)
  {
    hide NodeInv, SetupOk, SenderInv, MessageInv, StartedInv, RankInv;
  }

  predicate BarrierAgrees(registered: map<nat, Registration>) {
    SameSkips(registered) && (0 in registered && !registered[0].skip ==> SameDigests(registered))
  }

  /** A full table in agreement: every rank passed its checks, with the same flag and, if compared, digest. */
  lemma BarrierLaunches(cfg: Config, s: State)
    requires cfg.ranks != [] && BarrierAgrees(s.registered) && |s.registered| == |cfg.ranks|
    requires forall r :: r in s.registered ==> RegisteredOk(cfg, r, s.registered[r])
    ensures Launched(cfg)
  {
    hide SetupOk;
    FullTable(s.registered, |cfg.ranks|);
    assert 0 in s.registered && RegisteredOk(cfg, 0, s.registered[0]);
    forall r | 0 <= r < |cfg.ranks| ensures SetupOk(cfg, r) && cfg.ranks[r].skip == cfg.ranks[0].skip &&
      (!cfg.ranks[0].skip ==> cfg.ranks[r].digest == cfg.ranks[0].digest)
    {
      assert r in s.registered && RegisteredOk(cfg, r, s.registered[r]);
    }
  }

  /** Leaving the barrier normally means every rank registered with the same flag and digest. */
  lemma BarrierKeeps(cfg: Config, s: State, r: nat)
    requires Inv(cfg, s) && r < |cfg.ranks| && s.nodes[r].control.Barrier? && Enabled(cfg, s, RankMoves(r))
    ensures Inv(cfg, BarrierStep(cfg, s, r))
  {
    hide SetupOk, SenderInv, MessageInv, Inv, LocalInv, BindInputs, SameSkips, SameDigests;
    InvShape(cfg, s);
    if s.abort.None? && BarrierAgrees(s.registered) && BindInputs(cfg.program, r, cfg.ranks[r].retain, cfg.ranks[r].given).Success? {
      FullTable(s.registered, |cfg.ranks|);
      BarrierLaunches(cfg, s);
      LaunchedIsVerified(cfg, r);
      BindKeeps(cfg.program, cfg.loaded, cfg.ranks[r].skip, r, cfg.ranks[r].retain, cfg.ranks[r].given);
      var node := Node(Running(0, []), BindInputs(cfg.program, r, cfg.ranks[r].retain, cfg.ranks[r].given).value, 0, 0);
      assert NodeInv(cfg, r, node) by { FreshNode(cfg, r); }
      SetNodeKeeps(cfg, s, r, node, s.registered, s.abort);
    } else {
      PanicKeeps(cfg, s, r, RankFailed(r));
      PanicKeeps(cfg, s, r, SkipMismatch);
      PanicKeeps(cfg, s, r, DigestMismatch);
    }
  }

  lemma FreshNode(cfg: Config, r: nat)
    requires r < |cfg.ranks| && Launched(cfg) && BindInputs(cfg.program, r, cfg.ranks[r].retain, cfg.ranks[r].given).Success?
    requires LocalInv(cfg.program, r, cfg.ranks[r].retain, 0, BindInputs(cfg.program, r, cfg.ranks[r].retain, cfg.ranks[r].given).value)
    ensures NodeInv(cfg, r, Node(Running(0, []), BindInputs(cfg.program, r, cfg.ranks[r].retain, cfg.ranks[r].given).value, 0, 0))
  {
    hide Launched, LocalInv;
  }

  /** A running node's step never moves backwards, and only a started sender covers a new communication. */
  lemma RunProgress(cfg: Config, r: nat, node: Node)
    requires r < |cfg.ranks| && node.control.Running? && NodeInv(cfg, r, node)
    ensures var m := RunNode(cfg, r, node); var pc := node.control.pc;
      && (m.Moved? ==> InFlight(m.node.control))
      && (m.Moved? && !m.node.control.Finished? ==> pc <= m.node.control.pc <= pc + 1)
      && (m.Moved? && m.node.control.Finished? ==> pc >= |cfg.program.Code()|)
      && (m.Moved? && (m.node.control.Finished? || m.node.control.pc == pc + 1) ==>
        pc >= |cfg.program.Code()| || !cfg.program.Code()[pc].body.Comm? || SourceRank(cfg.program, pc) != r)
  {
    hide NodeInv, FinishCompute, FinishEncode, PostComm, Publish, DescMap, LocalInputs, FirstOpen;
  }

  lemma MovedStarts(cfg: Config, s: State, r: nat, next: Node)
    requires r < |s.nodes| && s.nodes[r].control.Running? && StartedInv(cfg, s, r)
    requires var pc := s.nodes[r].control.pc;
      && (!next.control.Finished? ==> (next.control.Running? || next.control.Waiting?) && next.control.pc <= pc + 1)
      && (next.control.Finished? ==> pc >= |cfg.program.Code()|)
      && (next.control.Finished? || next.control.pc == pc + 1 ==>
        pc >= |cfg.program.Code()| || !cfg.program.Code()[pc].body.Comm? || SourceRank(cfg.program, pc) != r)
    ensures StartedInv(cfg, s.(nodes := s.nodes[r := next]), r)
  {
    hide SourceRank;
  }

  lemma RunKeeps(cfg: Config, s: State, r: nat)
    requires Inv(cfg, s) && r < |cfg.ranks| && s.nodes[r].control.Running?
    ensures Inv(cfg, RunStep(cfg, s, r))
  {
    hide NodeInv, SetupOk, SenderOk, SenderInv, MessageInv, Inv, RunNode;
    InvShape(cfg, s);
    var node := s.nodes[r];
    assert RankInv(cfg, s, r);
    RunNodeKeeps(cfg, r, node);
    RunProgress(cfg, r, node);
    var m := RunNode(cfg, r, node);
    match m
    case Failed => PanicKeeps(cfg, s, r, RankFailed(r));
    case Moved(next) =>
      assert StartedInv(cfg, s, r);
      MovedStarts(cfg, s, r, next);
      SetNodeKeeps(cfg, s, r, next, s.registered, s.abort);
    case Started(next, sender) =>
      StartKeeps(cfg, s, r, next, sender);
  }

  /** A new sender joins, together with its rank's step past the communication. */
  ghost predicate Starts(cfg: Config, s: State, r: nat, next: Node, sender: Sender)
    requires r < |cfg.ranks| == |s.nodes| && s.nodes[r].control.Running?
  {
    var pc := s.nodes[r].control.pc;
    && next.control == Running(pc + 1, [])
    && pc < |cfg.program.Code()| && cfg.program.Code()[pc].body.Comm? && SourceRank(cfg.program, pc) == r
    && SenderOk(cfg, pc, sender) && sender.next == 0 && (sender.status == if sender.count == 0 then Sent else Sending)
  }

  lemma StartKeeps(cfg: Config, s: State, r: nat, next: Node, sender: Sender)
    requires Inv(cfg, s) && r < |cfg.ranks| && s.nodes[r].control.Running? && NodeInv(cfg, r, next)
    requires Starts(cfg, s, r, next, sender)
    ensures Inv(cfg, s.(nodes := s.nodes[r := next], senders := s.senders[s.nodes[r].control.pc := sender]))
  {
    hide NodeInv, SetupOk, SenderOk, SourceRank, SenderInv, MessageInv, StartedInv, Starts;
    var t := s.(nodes := s.nodes[r := next], senders := s.senders[s.nodes[r].control.pc := sender]);
    assert RankInv(cfg, s, r);
    assert InFlight(next.control) by { StartsRunning(cfg, s, r, next, sender); }
    forall q | 0 <= q < |t.nodes| ensures RankInv(cfg, t, q) {
      assert RankInv(cfg, s, q);
    }
    forall q | 0 <= q < |t.nodes| ensures StartedInv(cfg, t, q) {
      assert StartedInv(cfg, s, q);
      StartStarted(cfg, s, r, next, sender, q);
    }
    forall command | command in t.senders ensures SenderInv(cfg, t, command) {
      assert command in s.senders ==> SenderInv(cfg, s, command);
      StartSender(cfg, s, r, next, sender, command);
    }
    forall key | key in t.messages ensures MessageInv(cfg, t, key) {
      assert MessageInv(cfg, s, key);
      StartMessage(cfg, s, r, next, sender, key);
    }
  }

  lemma StartsRunning(cfg: Config, s: State, r: nat, next: Node, sender: Sender)
    requires r < |cfg.ranks| == |s.nodes| && s.nodes[r].control.Running? && Starts(cfg, s, r, next, sender)
    ensures next.control == Running(s.nodes[r].control.pc + 1, [])
  {
    hide SenderOk, SourceRank;
  }

  lemma StartStarted(cfg: Config, s: State, r: nat, next: Node, sender: Sender, q: nat)
    requires r < |cfg.ranks| == |s.nodes| && s.nodes[r].control.Running? && Starts(cfg, s, r, next, sender)
    requires q < |s.nodes| && StartedInv(cfg, s, q)
    ensures StartedInv(cfg, s.(nodes := s.nodes[r := next], senders := s.senders[s.nodes[r].control.pc := sender]), q)
  {
    hide SenderOk, SourceRank;
  }

  lemma StartSender(cfg: Config, s: State, r: nat, next: Node, sender: Sender, command: nat)
    requires r < |cfg.ranks| == |s.nodes| && s.nodes[r].control.Running? && Starts(cfg, s, r, next, sender)
    requires command in s.senders ==> SenderInv(cfg, s, command)
    requires command == s.nodes[r].control.pc || command in s.senders
    ensures SenderInv(cfg, s.(nodes := s.nodes[r := next], senders := s.senders[s.nodes[r].control.pc := sender]), command)
  {
    hide SenderOk, SourceRank;
  }

  lemma StartMessage(cfg: Config, s: State, r: nat, next: Node, sender: Sender, key: (TransferId, nat))
    requires r < |cfg.ranks| == |s.nodes| && s.nodes[r].control.Running? && Starts(cfg, s, r, next, sender)
    requires MessageInv(cfg, s, key) && (s.nodes[r].control.pc in s.senders ==> SenderInv(cfg, s, s.nodes[r].control.pc))
    ensures MessageInv(cfg, s.(nodes := s.nodes[r := next], senders := s.senders[s.nodes[r].control.pc := sender]), key)
  {
    hide SenderOk, SourceRank;
    var t := s.(nodes := s.nodes[r := next], senders := s.senders[s.nodes[r].control.pc := sender]);
    var command :| command in s.senders && command < |cfg.program.Code()| && cfg.program.Code()[command].body.Comm? &&
      cfg.program.Code()[command].body.action.id == key.0 && key.1 < s.senders[command].next;
    assert command in t.senders && t.senders[command] == s.senders[command];
  }

  // ---- A waiting rank ----

  lemma TransferIsUnique(p: Program, loaded: LoadedSpec, skip: bool, c: nat, d: nat)
    requires WellFormed(p.plan, loaded, skip) && c < |p.Code()| && d < |p.Code()|
    requires p.Code()[c].body.Comm? && p.Code()[d].body.Comm? && p.Code()[c].body.action.id == p.Code()[d].body.action.id
    ensures c == d
  {
    hide WellFormed, BodyRule, DescMap, DefinedBefore;
    InstructionFacts(p, loaded, skip, c);
    InstructionFacts(p, loaded, skip, d);
  }

  /** A message under a transfer's key was published by that transfer's sender. */
  lemma MessageSender(cfg: Config, s: State, command: nat, key: (TransferId, nat))
    requires Inv(cfg, s) && Launched(cfg) && command < |cfg.program.Code()| && cfg.program.Code()[command].body.Comm?
    requires key in s.messages && key.0 == cfg.program.Code()[command].body.action.id
    ensures command in s.senders && SenderOk(cfg, command, s.senders[command]) && s.messages[key] == s.senders[command].value
  {
    hide NodeInv, SetupOk, Launched, RankInv, StartedInv, SenderOk, WellFormed, Passed;
    LaunchedIsVerified(cfg, 0) by { LaunchedHasRanks(cfg); }
    assert MessageInv(cfg, s, key);
    var c :| c in s.senders && c < |cfg.program.Code()| && cfg.program.Code()[c].body.Comm? &&
      cfg.program.Code()[c].body.action.id == key.0 && key.1 < s.senders[c].next;
    LaunchedHasRanks(cfg);
    TransferIsUnique(cfg.program, cfg.loaded, cfg.ranks[0].skip, c, command);
    assert SenderInv(cfg, s, c);
  }

  lemma LaunchedHasRanks(cfg: Config)
    requires Launched(cfg)
    ensures |cfg.ranks| > 0
  {
  }

  /** A message under a transfer's key carries the meaning of the output it is received for. */
  lemma MessageMeaning(cfg: Config, s: State, r: nat, l: Local, n: nat, g: nat, k: nat)
    requires Inv(cfg, s) && r < |cfg.ranks| && Launched(cfg) && n <= |cfg.program.Code()|
    requires LocalInv(cfg.program, r, cfg.ranks[r].retain, n, l) && g < |l.groups| && k < |l.groups[g].outputIds|
    requires l.groups[g].command < |cfg.program.Code()| && cfg.program.Code()[l.groups[g].command].body.Comm?
    requires k < |l.groups[g].slots| && (cfg.program.Code()[l.groups[g].command].body.action.id, l.groups[g].slots[k]) in s.messages
    ensures var p := cfg.program; var id := l.groups[g].outputIds[k];
      var v := s.messages[(p.Code()[l.groups[g].command].body.action.id, l.groups[g].slots[k])];
      id in p.Table() && id in Meaning(p) && v == Meaning(p)[id] && Validates(v, p.Table()[id], p.degree)
  {
    hide Inv, LocalInv, Launched, Meaning, DescMap, Validates, WellFormed, DefinedBefore, LocalSlots, SetupOk;
    var p, command := cfg.program, l.groups[g].command;
    var action := p.Code()[command].body.action;
    var key: (TransferId, nat) := (action.id, l.groups[g].slots[k]);
    LaunchedIsVerified(cfg, r);
    GroupFacts(p, cfg.loaded, cfg.ranks[r].skip, r, cfg.ranks[r].retain, n, l, g);
    MessageSender(cfg, s, command, key);
    CommMeaning(p, cfg.loaded, cfg.ranks[r].skip, command);
    CommValidates(p, cfg.loaded, cfg.ranks[r].skip, command, s.messages[key]);
    assert l.groups[g].outputIds[k] in action.outputs;
  }

  /** A corrupted first output no longer passes validation. */
  lemma CorruptionShows(desc: ValueDesc, degree: nat, faults: Faults, id: TransferId, got: seq<Payload>)
    requires got != [] && Validates(got[0], desc, degree)
    ensures var outputs := Corrupt(faults, id, got);
      |outputs| == |got| ==> outputs == got || !Validates(outputs[0], desc, degree)
  {
  }

  /** Every injected corruption is caught by the count or the metadata check. */
  lemma CorruptionIsCaught(p: Program, retain: bool, l: Local, g: nat, faults: Faults, id: TransferId, got: seq<Payload>)
    requires g < |l.groups| && |got| == |l.groups[g].outputIds| && Received(p, l.groups[g], got)
    requires CompleteGroup(p, retain, l, g, Corrupt(faults, id, got)).Success?
    ensures Corrupt(faults, id, got) == got
  {
    hide DescMap, ReleaseAll, Meaning, Validates;
    if got != [] {
      CorruptionShows(p.Table()[l.groups[g].outputIds[0]], p.degree, faults, id, got);
    }
  }

  /** Operands already collected survive the completion of any group. */
  lemma CollectedSurvive(p: Program, r: int, retain: bool, pc: nat, l: Local, m: Local, args: seq<Payload>)
    requires pc <= |p.Code()| && LocalInv(p, r, retain, pc, l) && LocalInv(p, r, retain, pc, m)
    requires Fetched(l.store, Wanted(p, r, pc), args)
    requires forall id :: id in m.store ==> id in l.store && (l.store[id].Ready? ==> m.store[id] == l.store[id])
    ensures Fetched(m.store, Wanted(p, r, pc), args)
  {
    hide DescMap, Wanted, Meaning, DefinedBefore, LocalInv;
    var ids := Wanted(p, r, pc);
    forall j | 0 <= j < |args| ensures ids[j] in m.store {
      WantedIsHeld(p, r, retain, pc, l, m, ids[j]);
    }
  }

  lemma WantedIsHeld(p: Program, r: int, retain: bool, pc: nat, l: Local, m: Local, id: ValueId)
    requires pc <= |p.Code()| && id in Wanted(p, r, pc) && id in l.store
    requires LocalInv(p, r, retain, pc, l) && LocalInv(p, r, retain, pc, m)
    ensures id in m.store
  {
    hide DescMap, Meaning, DefinedBefore, GroupsInv, EntryOk, OpenOk, TotalUses, FinalUse, PendingUses, LocalInputs;
    if !retain {
      CountedIsUsed(p, r, retain, pc, m, id);
    }
  }

  lemma DoneKeepsFence(p: Program, pc: nat, args: seq<Payload>, groups: seq<Group>, g: nat)
    requires g < |groups| && FenceOk(p, pc, args, groups)
    ensures FenceOk(p, pc, args, Done(groups, g))
  {
  }

  /** The last step of a wait: the outputs are installed and the sources released. */
  lemma CompleteNode(cfg: Config, r: nat, node: Node, outputs: seq<Payload>, l: Local)
    requires r < |cfg.ranks| && node.control.Waiting? && NodeInv(cfg, r, node)
    requires var c := node.control; var command := node.local.groups[c.group].command;
      && |c.got| == |node.local.groups[c.group].outputIds|
      && (exists id :: outputs == Corrupt(cfg.faults, id, c.got))
      && CompleteGroup(cfg.program, cfg.ranks[r].retain, node.local, c.group, outputs) == Success(l)
    ensures NodeInv(cfg, r, node.(control := Running(node.control.pc, node.control.args), local := l))
  {
    hide LocalInv, Launched, Meaning, DescMap, Validates, WellFormed, FenceOk, CompleteGroup, CompletedCount, Wanted, Fetched, Corrupt, HasSender;
    var p, c := cfg.program, node.control;
    var retain, skip := cfg.ranks[r].retain, cfg.ranks[r].skip;
    LaunchedIsVerified(cfg, r);
    var id :| outputs == Corrupt(cfg.faults, id, c.got);
    CorruptionIsCaught(p, retain, node.local, c.group, cfg.faults, id, c.got);
    assert Faithful(p, node.local.groups[c.group].outputIds, outputs);
    CompleteKeeps(p, cfg.loaded, skip, r, retain, c.pc, node.local, c.group, outputs);
    CollectedSurvive(p, r, retain, c.pc, node.local, l, c.args);
    CompletedStep(node.local.groups, c.group);
    DoneKeepsFence(p, c.pc, c.args, node.local.groups, c.group);
  }

  /** Receiving one more slot. */
  lemma ReceiveNode(cfg: Config, s: State, r: nat)
    requires Inv(cfg, s) && r < |cfg.ranks| && s.nodes[r].control.Waiting? && s.nodes[r].control.joined
    requires var key := NextKey(cfg.program, s.nodes[r]); key.Some? && key.value in s.messages
    ensures var node := s.nodes[r]; var c := node.control;
      NodeInv(cfg, r, node.(control := c.(got := c.got + [s.messages[NextKey(cfg.program, node).value]])))
  {
    hide LocalInv, Launched, Meaning, DescMap, Validates, WellFormed, FenceOk, CompletedCount, Wanted, Fetched, SenderInv, MessageInv, StartedInv, CommTyped, LocalSlots, SetupOk, DefinedBefore, Inv, HasSender;
    InvShape(cfg, s);
    assert RankInv(cfg, s, r);
    var node := s.nodes[r];
    var c := node.control;
    LaunchedIsVerified(cfg, r);
    GroupFacts(cfg.program, cfg.loaded, cfg.ranks[r].skip, r, cfg.ranks[r].retain, c.pc, node.local, c.group);
    MessageMeaning(cfg, s, r, node.local, c.pc, c.group, |c.got|);
  }

  lemma WaitKeeps(cfg: Config, s: State, r: nat)
    requires Inv(cfg, s) && r < |cfg.ranks| && s.nodes[r].control.Waiting? && Enabled(cfg, s, RankMoves(r))
    ensures Inv(cfg, WaitStep(cfg, s, r))
  {
    hide LocalInv, Launched, Meaning, DescMap, Validates, FenceOk, CompletedCount, Wanted, Fetched, SenderInv, MessageInv, SetupOk, CompleteGroup, Corrupt, Inv, NextKey, HasSender;
    InvShape(cfg, s);
    assert RankInv(cfg, s, r) && StartedInv(cfg, s, r);
    var node := s.nodes[r];
    var c := node.control;
    PanicKeeps(cfg, s, r, RankFailed(r));
    var group := node.local.groups[c.group];
    if !c.joined {
      if group.command in s.senders && s.senders[group.command].status == Sent {
        var next := node.(control := c.(joined := true));
        assert NodeInv(cfg, r, next);
        SetNodeKeeps(cfg, s, r, next, s.registered, s.abort);
      }
    } else if NextKey(cfg.program, node).Some? {
      var key := NextKey(cfg.program, node).value;
      if key in s.messages {
        ReceiveNode(cfg, s, r);
        var next := node.(control := c.(got := c.got + [s.messages[key]]));
        SetNodeKeeps(cfg, s, r, next, s.registered, s.abort);
      }
    } else if group.command < |cfg.program.Code()| && cfg.program.Code()[group.command].body.Comm? {
      var outputs := Corrupt(cfg.faults, cfg.program.Code()[group.command].body.action.id, c.got);
      var done := CompleteGroup(cfg.program, cfg.ranks[r].retain, node.local, c.group, outputs);
      if done.Success? {
        AllReceived(cfg, r, node);
        CompleteNode(cfg, r, node, outputs, done.value);
        SetNodeKeeps(cfg, s, r, node.(control := Running(c.pc, c.args), local := done.value), s.registered, s.abort);
      }
    }
  }

  /** No further key means every local slot has been received. */
  lemma AllReceived(cfg: Config, r: nat, node: Node)
    requires r < |cfg.ranks| && node.control.Waiting? && NodeInv(cfg, r, node) && NextKey(cfg.program, node).None?
    ensures |node.control.got| == |node.local.groups[node.control.group].outputIds|
  {
    hide LocalInv, Launched, Meaning, DescMap, Validates, WellFormed, FenceOk, CompletedCount, Wanted, Fetched, CommTyped, LocalSlots, DefinedBefore, HasSender;
    LaunchedIsVerified(cfg, r);
    var c := node.control;
    GroupFacts(cfg.program, cfg.loaded, cfg.ranks[r].skip, r, cfg.ranks[r].retain, c.pc, node.local, c.group);
  }

  // ---- A sender ----

  lemma SenderKeeps(cfg: Config, s: State, command: nat)
    requires Inv(cfg, s) && Enabled(cfg, s, SenderMoves(command))
    ensures Inv(cfg, SenderStep(cfg, s, command))
  {
    hide NodeInv, SetupOk, SenderInv, MessageInv, InFlight, WaitEnabled;
    var t := SenderStep(cfg, s, command);
    forall r | 0 <= r < |t.nodes| ensures RankInv(cfg, t, r) {
      assert RankInv(cfg, s, r);
    }
    forall r | 0 <= r < |t.nodes| ensures StartedInv(cfg, t, r) {
      assert StartedInv(cfg, s, r);
    }
    forall c | c in t.senders ensures SenderInv(cfg, t, c) {
      assert SenderInv(cfg, s, c) && SenderInv(cfg, s, command);
      if c != command {
        PublishedElsewhere(cfg, s, command, c);
        OtherSender(cfg, s, command, c);
      } else {
        MovedSender(cfg, s, command);
      }
    }
    forall key | key in t.messages ensures MessageInv(cfg, t, key) {
      assert key in s.messages ==> MessageInv(cfg, s, key);
      MovedMessage(cfg, s, command, key);
    }
  }

  lemma OtherSender(cfg: Config, s: State, command: nat, c: nat)
    requires |s.nodes| == |cfg.ranks| && command in s.senders && c in s.senders && c != command
    requires command < |cfg.program.Code()| && cfg.program.Code()[command].body.Comm? && SenderInv(cfg, s, c)
    requires cfg.program.Code()[c].body.action.id != cfg.program.Code()[command].body.action.id
    ensures SenderInv(cfg, SenderStep(cfg, s, command), c)
  {
    hide SenderOk, Passed, SourceRank, DescMap, Meaning;
  }

  lemma MovedSender(cfg: Config, s: State, command: nat)
    requires |s.nodes| == |cfg.ranks| && command in s.senders && s.senders[command].status == Sending
    requires command < |cfg.program.Code()| && cfg.program.Code()[command].body.Comm? && SenderInv(cfg, s, command)
    ensures SenderInv(cfg, SenderStep(cfg, s, command), command)
  {
    hide Passed, SourceRank, DescMap, Meaning, Launched, CommTyped, Validates;
  }

  lemma MovedMessage(cfg: Config, s: State, command: nat, key: (TransferId, nat))
    requires command in s.senders && command < |cfg.program.Code()| && cfg.program.Code()[command].body.Comm?
    requires key in SenderStep(cfg, s, command).messages && (key in s.messages ==> MessageInv(cfg, s, key))
    ensures MessageInv(cfg, SenderStep(cfg, s, command), key)
  {
    hide DescMap;
    var t := SenderStep(cfg, s, command);
    if key in s.messages {
      var c :| c in s.senders && c < |cfg.program.Code()| && cfg.program.Code()[c].body.Comm? &&
        cfg.program.Code()[c].body.action.id == key.0 && key.1 < s.senders[c].next;
      assert c in t.senders && s.senders[c].next <= t.senders[c].next;
    } else {
      assert command in t.senders && key.1 < t.senders[command].next;
    }
  }

  /** Two senders never publish under the same transfer. */
  lemma PublishedElsewhere(cfg: Config, s: State, command: nat, c: nat)
    requires |s.nodes| == |cfg.ranks| && command in s.senders && c in s.senders && c != command
    requires SenderInv(cfg, s, command) && SenderInv(cfg, s, c)
    ensures cfg.program.Code()[c].body.action.id != cfg.program.Code()[command].body.action.id
  {
    hide SetupOk, Passed, Meaning, DescMap, WellFormed, CommTyped, Validates;
    LaunchedIsVerified(cfg, 0);
    if cfg.program.Code()[c].body.action.id == cfg.program.Code()[command].body.action.id {
      TransferIsUnique(cfg.program, cfg.loaded, cfg.ranks[0].skip, c, command);
    }
  }

  /** The invariant is inductive: kept by every action of every rank and every sender, faults included. */
  lemma StepKeeps(cfg: Config, s: State, a: Action)
    requires Inv(cfg, s) && Enabled(cfg, s, a)
    ensures Inv(cfg, Next(cfg, s, a))
  {
    hide Inv, SetupStep, BarrierStep, RunStep, WaitStep, SenderStep, WaitEnabled;
    match a
    case SenderMoves(c) => SenderKeeps(cfg, s, c);
    case RankMoves(r) =>
      match s.nodes[r].control
      case Setup => SetupKeeps(cfg, s, r);
      case Barrier => BarrierKeeps(cfg, s, r);
      case Running(_, _) => RunKeeps(cfg, s, r);
      case Waiting(_, _, _, _, _) => WaitKeeps(cfg, s, r);
  }

  lemma {:induction false} ReachableInv(cfg: Config, run: seq<State>, actions: seq<Action>, i: nat)
    requires IsRun(cfg, run, actions) && i < |run|
    ensures Inv(cfg, run[i])
  {
    hide Inv, Enabled, Next, Initial;
    if i == 0 {
      InitKeeps(cfg);
    } else {
      ReachableInv(cfg, run, actions, i - 1);
      StepKeeps(cfg, run[i - 1], actions[i - 1]);
    }
  }
}
