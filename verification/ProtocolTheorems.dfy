/** The main results about multi-rank execution, stated over whole runs: any number of ranks, any plan, any
    interleaving of ranks and sender threads, and (unless a lemma says Healthy) any injected fault. */
module ProtocolTheorems {
  import opened Wrappers
  import opened Plan
  import opened Rules
  import opened Vec
  import opened Semantics
  import opened RankState
  import opened RankInvariant
  import opened RankSteps
  import opened RankRun
  import opened Protocol
  import opened ProtocolNode
  import opened ProtocolSafety
  import opened ProtocolCalm
  import opened ProtocolLiveness

  /** What the node invariant says of a rank between two instructions. */
  lemma InFlightFacts(cfg: Config, r: nat, node: Node)
    requires r < |cfg.ranks| && NodeInv(cfg, r, node) && InFlight(node.control)
    ensures Launched(cfg)
    ensures At(cfg, node) <= |cfg.program.Code()|
    ensures LocalInv(cfg.program, r, cfg.ranks[r].retain, At(cfg, node), node.local)
  {
    hide Launched, LocalInv, FenceOk, Fetched, Expected, Meaning, DescMap;
  }

  /** Instructions a rank has executed. */
  function At(cfg: Config, node: Node): nat
    requires InFlight(node.control)
  {
    if node.control.Finished? then |cfg.program.Code()| else node.control.pc
  }

  lemma ReachedNode(cfg: Config, run: seq<State>, actions: seq<Action>, i: nat, r: nat)
    requires IsRun(cfg, run, actions) && i < |run| && r < |cfg.ranks|
    ensures |run[i].nodes| == |cfg.ranks| && RankInv(cfg, run[i], r)
  {
    hide IsRun, RankInv, SenderInv, MessageInv, StartedInv, SetupOk;
    ReachableInv(cfg, run, actions, i);
  }

  /** Safety: every ready value in any rank's store, in every reachable state, lies at its own Place and is
      the value the sequential interpreter of the whole plan gives its identifier. */
  lemma ReadyMeansMeaning(cfg: Config, run: seq<State>, actions: seq<Action>, i: nat, r: nat, id: ValueId)
    requires IsRun(cfg, run, actions) && i < |run| && r < |cfg.ranks| && r < |run[i].nodes|
    requires var node := run[i].nodes[r]; InFlight(node.control) && id in node.local.store && node.local.store[id].Ready?
    ensures var p := cfg.program; var e := run[i].nodes[r].local.store[id];
      && id in p.Table() && e.place == p.Table()[id].place && e.place.rank == r
      && id in Meaning(p) && e.value == Meaning(p)[id]
  {
    hide IsRun, NodeInv, GroupsInv, UsesInv, Meaning, DescMap, Launched, OpenOk, Validates, DefinedBefore;
    ReachedNode(cfg, run, actions, i, r);
    var node := run[i].nodes[r];
    InFlightFacts(cfg, r, node);
    assert EntryOk(cfg.program, node.local.groups, id, node.local.store[id]);
  }

  /** A rank that finishes has computed exactly what the sequential interpreter gives its values, whatever
      faults were injected; all its transfers have been posted once and waited for once. */
  lemma FinishedIsExpected(cfg: Config, run: seq<State>, actions: seq<Action>, i: nat, r: nat)
    requires IsRun(cfg, run, actions) && i < |run| && r < |cfg.ranks| && r < |run[i].nodes|
    requires run[i].nodes[r].control.Finished?
    ensures var node := run[i].nodes[r];
      && node.control.artifact == Expected(cfg.program, r, cfg.ranks[r].retain)
      && node.posts == node.waits == CommCount(cfg.program.Code(), |cfg.program.Code()|)
  {
    hide IsRun, StoreInv, UsesInv, Meaning, DescMap, Launched, Expected;
    ReachedNode(cfg, run, actions, i, r);
  }

  /** Results do not depend on the schedule: whenever a rank finishes the same program in two runs, it
      returns the same artifact, whatever the interleavings, the faults and the other ranks' settings were. */
  lemma ScheduleIndependence(
      cfg: Config, run: seq<State>, actions: seq<Action>, i: nat,
      cfg': Config, run': seq<State>, actions': seq<Action>, i': nat, r: nat)
    requires IsRun(cfg, run, actions) && i < |run| && r < |cfg.ranks| && r < |run[i].nodes|
    requires IsRun(cfg', run', actions') && i' < |run'| && r < |cfg'.ranks| && r < |run'[i'].nodes|
    requires cfg.program == cfg'.program && cfg.ranks[r].retain == cfg'.ranks[r].retain
    requires run[i].nodes[r].control.Finished? && run'[i'].nodes[r].control.Finished?
    ensures run[i].nodes[r].control.artifact == run'[i'].nodes[r].control.artifact
  {
    hide IsRun, Expected;
    FinishedIsExpected(cfg, run, actions, i, r);
    FinishedIsExpected(cfg', run', actions', i', r);
  }

  // ---- Early release ----

  /** Early release, in every reachable state of a rank that drops values: a count is exactly the uses in the
      instructions to come, in the unfinished sends and as a final output; a local value that has been
      defined is held as long as it has such a use; and a value whose uses are over is gone. */
  lemma ReleaseIsExact(cfg: Config, run: seq<State>, actions: seq<Action>, i: nat, r: nat, id: ValueId)
    requires IsRun(cfg, run, actions) && i < |run| && r < |cfg.ranks| && r < |run[i].nodes|
    requires InFlight(run[i].nodes[r].control) && !cfg.ranks[r].retain
    ensures At(cfg, run[i].nodes[r]) <= |cfg.program.Code()|
    ensures var p, node := cfg.program, run[i].nodes[r]; var n, l := At(cfg, node), node.local;
      && (id in l.uses <==> TotalUses(p, r, id) > 0)
      && (id in l.uses ==> l.uses[id] == Need(p, r, n, l.groups, id))
      && (Here(p, r, n, id) && Need(p, r, n, l.groups, id) > 0 ==> id in l.store)
      && (id in l.uses && Need(p, r, n, l.groups, id) == 0 ==> id !in l.store)
  {
    hide IsRun, NodeInv, Meaning, DescMap, Launched, OpenOk, EntryOk, Validates, DefinedBefore, GroupsInv, UsesFrom, PendingUses, FinalUse;
    ReachedNode(cfg, run, actions, i, r);
    InFlightFacts(cfg, r, run[i].nodes[r]);
  }

  /** When a rank has finished, its store holds just the local final outputs and the values nothing ever
      reads (or every local value, when all are retained). */
  lemma FinishedStore(cfg: Config, run: seq<State>, actions: seq<Action>, i: nat, r: nat)
    requires IsRun(cfg, run, actions) && i < |run| && r < |cfg.ranks| && r < |run[i].nodes|
    requires run[i].nodes[r].control.Finished?
    ensures forall id :: id in run[i].nodes[r].local.store <==> Kept(cfg.program, r, cfg.ranks[r].retain, id)
  {
    hide IsRun, LocalInv, Meaning, DescMap, Launched, Expected, Kept;
    ReachedNode(cfg, run, actions, i, r);
    LaunchedIsVerified(cfg, r);
    FinalStore(cfg.program, cfg.loaded, cfg.ranks[r].skip, r, cfg.ranks[r].retain, run[i].nodes[r].local);
  }

  /** Releasing early changes no result: the final outputs are those of a run that retains everything. */
  lemma ReleaseKeepsResults(
      cfg: Config, run: seq<State>, actions: seq<Action>, i: nat,
      cfg': Config, run': seq<State>, actions': seq<Action>, i': nat, r: nat)
    requires IsRun(cfg, run, actions) && i < |run| && r < |cfg.ranks| && r < |run[i].nodes|
    requires IsRun(cfg', run', actions') && i' < |run'| && r < |cfg'.ranks| && r < |run'[i'].nodes|
    requires cfg.program == cfg'.program && !cfg.ranks[r].retain && cfg'.ranks[r].retain
    requires run[i].nodes[r].control.Finished? && run'[i'].nodes[r].control.Finished?
    ensures var few, all := run[i].nodes[r].control.artifact, run'[i'].nodes[r].control.artifact;
      few == map id | id in all && id in cfg.program.plan.finalOutputs :: all[id]
  {
    hide IsRun, Meaning, DescMap;
    FinishedIsExpected(cfg, run, actions, i, r);
    FinishedIsExpected(cfg', run', actions', i', r);
  }

  // ---- Transfers ----

  /** A rank that has begun an instruction after the initialization has completed every initialization
      transfer, and the source of a posted send is held, ready, until the send has been waited for. */
  lemma TransfersFenced(cfg: Config, run: seq<State>, actions: seq<Action>, i: nat, r: nat, g: nat)
    requires IsRun(cfg, run, actions) && i < |run| && r < |cfg.ranks| && r < |run[i].nodes|
    requires InFlight(run[i].nodes[r].control) && g < |run[i].nodes[r].local.groups|
    ensures var node := run[i].nodes[r]; var group := node.local.groups[g];
      && (At(cfg, node) > |cfg.program.plan.initialization| && group.command < |cfg.program.plan.initialization| ==> group.completed)
      && (!group.completed ==> forall id :: id in group.inputIds ==> id in node.local.store && node.local.store[id].Ready?)
  {
    hide IsRun, GroupsInv, UsesInv, Meaning, DescMap, Launched, EntryOk, Here, Live, Fetched, Expected;
    ReachedNode(cfg, run, actions, i, r);
    var node := run[i].nodes[r];
    InFlightFacts(cfg, r, node);
    assert OpenOk(node.local.store, g, node.local.groups[g]);
  }

  /** Between a post and its wait: a rank has posted each transfer it has passed once, bystanders included,
      and waited once for each completed one, plus the one it is waiting for. */
  lemma PostsAndWaits(cfg: Config, run: seq<State>, actions: seq<Action>, i: nat, r: nat)
    requires IsRun(cfg, run, actions) && i < |run| && r < |cfg.ranks| && r < |run[i].nodes|
    requires InFlight(run[i].nodes[r].control)
    ensures At(cfg, run[i].nodes[r]) <= |cfg.program.Code()|
    ensures var node := run[i].nodes[r];
      && node.posts == |node.local.groups| == CommCount(cfg.program.Code(), At(cfg, node))
      && node.waits == CompletedCount(node.local.groups) + (if node.control.Waiting? then 1 else 0)
  {
    hide IsRun, StoreInv, UsesInv, Meaning, DescMap, Launched, Fetched, FenceOk, Expected;
    ReachedNode(cfg, run, actions, i, r);
    var node := run[i].nodes[r];
    InFlightFacts(cfg, r, node);
    if node.control.Finished? {
      CompletedAll(node.local.groups);
    }
  }

  // ---- The start-up barrier and the abort flag ----

  /** No rank leaves the barrier normally unless every rank has registered, with checks that passed, the same
      skip flag, and the same plan digest when digests are compared. */
  lemma BarrierAgreement(cfg: Config, run: seq<State>, actions: seq<Action>, i: nat, r: nat)
    requires IsRun(cfg, run, actions) && i < |run| && r < |cfg.ranks| && r < |run[i].nodes|
    requires InFlight(run[i].nodes[r].control)
    ensures forall q: nat :: q < |cfg.ranks| ==>
      && q in run[i].registered && run[i].registered[q] == Registration(cfg.ranks[q].skip, cfg.ranks[q].digest)
      && SetupOk(cfg, q)
      && cfg.ranks[q].skip == cfg.ranks[r].skip
      && (!cfg.ranks[r].skip ==> cfg.ranks[q].digest == cfg.ranks[r].digest)
  {
    hide IsRun, NodeInv, SetupOk, SenderInv, MessageInv, StartedInv, LocalInv;
    ReachedNode(cfg, run, actions, i, r);
    ReachableInv(cfg, run, actions, i);
    InFlightFacts(cfg, r, run[i].nodes[r]);
    FullTable(run[i].registered, |cfg.ranks|);
  }

  /** An abort is final: the first reason stays; nothing is published or received any more; and no rank
      passes the barrier. */
  lemma {:induction false} AbortIsSticky(cfg: Config, run: seq<State>, actions: seq<Action>, i: nat, j: nat)
    requires IsRun(cfg, run, actions) && i <= j < |run| && run[i].abort.Some?
    ensures run[j].abort == run[i].abort && run[j].messages == run[i].messages && |run[j].nodes| == |run[i].nodes|
    ensures forall r :: 0 <= r < |run[i].nodes| && !InFlight(run[i].nodes[r].control) ==> !InFlight(run[j].nodes[r].control)
  {
    hide Next, Enabled, Inv;
    if i < j {
      AbortIsSticky(cfg, run, actions, i, j - 1);
      AbortedStep(cfg, run[j - 1], actions[j - 1]);
      assert run[j] == Next(cfg, run[j - 1], actions[j - 1]);
    }
  }

  /** Nothing was published, received or launched, and the reason is the same. */
  ghost predicate Frozen(s: State, t: State) {
    && t.abort == s.abort && t.messages == s.messages && |t.nodes| == |s.nodes|
    && forall r :: 0 <= r < |s.nodes| ==> StillOut(s.nodes[r].control, t.nodes[r].control)
  }

  predicate StillOut(before: Control, after: Control) {
    && (!InFlight(before) ==> !InFlight(after))
    && (before.Waiting? && after.Waiting? ==> after.got == before.got)
  }

  lemma AbortedStep(cfg: Config, s: State, a: Action)
    requires s.abort.Some? && Enabled(cfg, s, a)
    ensures Frozen(s, Next(cfg, s, a))
  {
    hide SetupStep, BarrierStep, RunStep, WaitStep, SenderStep, WaitEnabled, Frozen;
    match a
    case SenderMoves(c) => AbortedSender(cfg, s, c);
    case RankMoves(r) =>
      match s.nodes[r].control
      case Setup => AbortedEntry(cfg, s, r);
      case Barrier => AbortedEntry(cfg, s, r);
      case Running(_, _) => AbortedRun(cfg, s, r);
      case Waiting(_, _, _, _, _) => AbortedWait(cfg, s, r);
  }

  lemma AbortedSender(cfg: Config, s: State, c: nat)
    requires s.abort.Some? && c in s.senders && c < |cfg.program.Code()| && cfg.program.Code()[c].body.Comm?
    ensures Frozen(s, SenderStep(cfg, s, c))
  {
  }

  lemma AbortedEntry(cfg: Config, s: State, r: nat)
    requires s.abort.Some? && r < |s.nodes| && r < |cfg.ranks| && !InFlight(s.nodes[r].control)
    ensures Frozen(s, SetupStep(cfg, s, r)) && Frozen(s, BarrierStep(cfg, s, r))
  {
    hide SetupOk, BindInputs, SameSkips, SameDigests;
  }

  lemma AbortedRun(cfg: Config, s: State, r: nat)
    requires s.abort.Some? && r < |s.nodes| && r < |cfg.ranks| && s.nodes[r].control.Running?
    ensures Frozen(s, RunStep(cfg, s, r))
  {
    hide RunNode;
  }

  lemma AbortedWait(cfg: Config, s: State, r: nat)
    requires s.abort.Some? && r < |s.nodes| && r < |cfg.ranks| && s.nodes[r].control.Waiting?
    ensures Frozen(s, WaitStep(cfg, s, r))
  {
    hide CompleteGroup, Corrupt, NextKey;
  }

  // ---- Termination and completion ----

  ghost predicate Quiescent(cfg: Config, s: State) {
    forall a :: !Enabled(cfg, s, a)
  }

  /** Deadlock freedom over runs: a state in which nothing can move is one in which every rank has finished
      or panicked; and no run is longer than the measure of the initial state. */
  lemma QuietMeansOver(cfg: Config, run: seq<State>, actions: seq<Action>)
    requires IsRun(cfg, run, actions)
    ensures |actions| <= Measure(cfg, Initial(cfg))
    ensures Quiescent(cfg, run[|actions|]) ==>
      forall r :: 0 <= r < |run[|actions|].nodes| ==> Final(run[|actions|].nodes[r])
  {
    hide IsRun, Measure, Inv, Enabled, Initial;
    IsRunLength(cfg, run, actions);
    RunIsBounded(cfg, run, actions, |actions|);
    ReachableInv(cfg, run, actions, |actions|);
    var s := run[|actions|];
    forall r | 0 <= r < |s.nodes| && Quiescent(cfg, s) ensures Final(s.nodes[r]) {
      if !Final(s.nodes[r]) {
        var a := Progress(cfg, s, r);
      }
    }
  }

  lemma IsRunLength(cfg: Config, run: seq<State>, actions: seq<Action>)
    requires IsRun(cfg, run, actions)
    ensures |run| == |actions| + 1
  {
  }

  /** Every run can be carried on until all ranks have finished or panicked. */
  lemma {:induction false} RunsComplete(cfg: Config, run: seq<State>, actions: seq<Action>)
    returns (run': seq<State>, actions': seq<Action>)
    requires IsRun(cfg, run, actions)
    ensures IsRun(cfg, run', actions') && run <= run'
    ensures forall r :: 0 <= r < |run'[|actions'|].nodes| ==> Final(run'[|actions'|].nodes[r])
    decreases Measure(cfg, run[|actions|])
  {
    hide Measure, Inv, Enabled, Next;
    ReachableInv(cfg, run, actions, |actions|);
    var s := run[|actions|];
    if r :| 0 <= r < |s.nodes| && !Final(s.nodes[r]) {
      var a := Progress(cfg, s, r);
      StepLowers(cfg, s, a);
      run', actions' := RunsComplete(cfg, run + [Next(cfg, s, a)], actions + [a]);
    } else {
      run', actions' := run, actions;
    }
  }

  /** The central claim: a fault-free run of a verified plan on valid inputs always ends, and ends with every
      rank holding exactly its part of the sequential interpreter's values. */
  lemma HealthyRunsSucceed(cfg: Config, run: seq<State>, actions: seq<Action>)
    requires Healthy(cfg) && IsRun(cfg, run, actions)
    ensures |actions| <= Measure(cfg, Initial(cfg))
    ensures Quiescent(cfg, run[|actions|]) ==>
      && |run[|actions|].nodes| == |cfg.ranks|
      && forall r :: 0 <= r < |cfg.ranks| ==>
        run[|actions|].nodes[r].control == Finished(Expected(cfg.program, r, cfg.ranks[r].retain))
  {
    hide Healthy, IsRun, Measure, Inv, Enabled, Initial, Expected, Quiescent;
    IsRunLength(cfg, run, actions);
    QuietMeansOver(cfg, run, actions);
    HealthyRunsAreCalm(cfg, run, actions, |actions|);
    ReachableInv(cfg, run, actions, |actions|);
    InvShape(cfg, run[|actions|]);
    if Quiescent(cfg, run[|actions|]) {
      forall r | 0 <= r < |cfg.ranks|
        ensures run[|actions|].nodes[r].control == Finished(Expected(cfg.program, r, cfg.ranks[r].retain))
      {
        FinishedIsExpected(cfg, run, actions, |actions|, r);
      }
    }
  }

  /** With every value retained, the artifacts partition the plan's values over the ranks: each value appears
      on exactly one rank, the one of its Place. */
  lemma ArtifactsPartition(cfg: Config, id: ValueId, r: nat)
    requires Healthy(cfg) && r < |cfg.ranks|
    ensures id in Expected(cfg.program, r, true) <==> id in cfg.program.Table() && cfg.program.Table()[id].place.rank == r
    ensures id in cfg.program.Table() ==> 0 <= cfg.program.Table()[id].place.rank < |cfg.ranks|
  {
    hide Healthy, Runnable, Launched, Meaning, DescMap, WellFormed;
    HealthyFacts(cfg, r);
    RunnableFacts(cfg.program, cfg.loaded, cfg.ranks[r].skip);
    LaunchedIsVerified(cfg, r);
    if id in cfg.program.Table() {
      TablePlaces(cfg.program, cfg.loaded, cfg.ranks[r].skip, id);
    }
  }

  lemma TablePlaces(p: Program, loaded: LoadedSpec, skip: bool, id: ValueId)
    requires WellFormed(p.plan, loaded, skip) && id in p.Table()
    ensures PlaceOk(p.plan, p.Table()[id].place)
  {
    hide HeaderOk, InputsOk, OutputsOk, InstructionOk, DefinedBefore, DescMap, PlaceOk;
    var i :| 0 <= i < |p.plan.values| && p.plan.values[i] == p.Table()[id];
    assert DescOk(p.plan, loaded.spec, p.plan.values[i]);
  }
}
