/** The fan-out plan run on the cluster it was built for, from literal settings to literal results; and what stops a
    rank at start-up. */
module Deployment {
  import opened Wrappers
  import opened Plan
  import opened Rules
  import opened Vec
  import opened Semantics
  import opened Widths
  import opened RankState
  import opened RankInvariant
  import opened RankRun
  import opened Protocol
  import opened ProtocolNode
  import opened ProtocolSafety
  import opened ProtocolCalm
  import opened ProtocolTheorems
  import opened Fanout
  import opened Reading
  import Verifier

  const NoInjectedFaults := Faults({}, {}, {}, {}, {}, None, {}, {}, {})

  /** Counts `make_fanout_plan` accepts. */
  predicate FanoutCounts(counts: seq<Int32>) {
    && 1 <= |counts| <= INT_MAX && (forall i :: 0 <= i < |counts| ==> counts[i] >= 0)
    && exists i :: 0 <= i < |counts| && counts[i] > 0
  }

  /** A ciphertext and a plaintext of equal lengths. */
  predicate FanoutPair(inputs: map<ValueId, Payload>) {
    && 0 in inputs && 1 in inputs && |inputs[0].slots| == |inputs[1].slots| >= 1
    && inputs[0].kind == Ciphertext && inputs[0].meta == Meta("ctx", 8192, 3, 1, true, 2)
    && inputs[1].kind == Plaintext && inputs[1].meta == Meta("ctx", 8192, 3, 1, true, 1)
  }

  /** One rank per count with that many devices; all skip the digests, or none does and they are equal; rank 0 is given
      both inputs and the others nothing. */
  predicate FanoutRanks(counts: seq<Int32>, ranks: seq<RankConfig>) {
    && |ranks| == |counts|
    && forall r :: 0 <= r < |ranks| ==>
      && ranks[r].devices == counts[r] && ranks[r].bundleLoads && ranks[r].skip == ranks[0].skip
      && (ranks[0].skip || ranks[r].digest == ranks[0].digest)
      && ranks[r].given == if r == 0 then {0, 1} else {}
  }

  ghost predicate FanoutCluster(cfg: Config, counts: seq<Int32>) {
    && FanoutCounts(counts) && Fits(counts) && cfg.program.plan == FanoutPlan(counts) && cfg.loaded == TestSpec()
    && cfg.program.degree == 8192 && FanoutPair(cfg.program.inputs)
    && FanoutRanks(counts, cfg.ranks) && cfg.faults == NoInjectedFaults
  }

  lemma ClusterStarts(cfg: Config, counts: seq<Int32>, r: nat)
    requires FanoutCluster(cfg, counts) && r < |cfg.ranks|
    ensures SetupOk(cfg, r)
  {
    hide WellFormed, Devices, DescMap, TestSpec, Verifier.CapabilitiesBefore, Verifier.KeysBefore, FanoutPair;
    FanoutWellFormed(counts, cfg.ranks[r].skip);
    PlanParts(counts);
  }

  lemma ClusterInputs(cfg: Config, counts: seq<Int32>)
    requires FanoutCluster(cfg, counts)
    ensures cfg.program.plan.externalInputs == [0, 1]
    ensures forall id :: id in cfg.program.plan.externalInputs ==> id in cfg.program.Table() && id in cfg.program.inputs
    ensures forall id :: id in cfg.program.plan.externalInputs ==>
      Validates(cfg.program.inputs[id], cfg.program.Table()[id], cfg.program.degree)
    ensures 0 in cfg.program.Table() && cfg.program.Table()[0].place == Place(Host, 0, 0)
    ensures 1 in cfg.program.Table() && cfg.program.Table()[1].place == Place(Host, 0, 0)
  {
    hide Devices, DescMap, TestSpec;
    PlanParts(counts);
    InputDescs(counts);
  }

  lemma ClusterCode(cfg: Config, counts: seq<Int32>, n: nat)
    requires FanoutCluster(cfg, counts) && n < |cfg.program.Code()|
    ensures !cfg.program.Code()[n].body.Encode?
    ensures cfg.program.Code()[n].body.Compute? ==> cfg.program.Code()[n].body.op.kind in {MulCP, ComputeKind.Negate}
  {
    hide Devices, DescMap, TestSpec, FanoutPlan, FanoutPair;
    CodeShape(counts);
    assert cfg.program.Code()[n] == CodeAt(Devices(counts), n);
  }

  lemma ClusterRuns(cfg: Config, counts: seq<Int32>)
    requires FanoutCluster(cfg, counts)
    ensures Runnable(cfg.program, cfg.loaded, cfg.ranks[0].skip)
  {
    hide WellFormed, Devices, DescMap, FanoutPlan, Validates, WidthsFit, Runnable;
    FanoutWellFormed(counts, cfg.ranks[0].skip);
    ClusterInputs(cfg, counts);
    forall n | 0 <= n < |cfg.program.Code()|
      ensures !cfg.program.Code()[n].body.Encode? && ScaleRunnable(cfg.program.Table(), cfg.program.Code()[n].body)
    {
      ClusterCode(cfg, counts, n);
    }
    UniformRunnable(cfg.program, cfg.loaded, cfg.ranks[0].skip, |cfg.program.inputs[0].slots|);
  }

  /** The settings of the fan-out are those of a fault-free run. */
  lemma ClusterIsHealthy(cfg: Config, counts: seq<Int32>)
    requires FanoutCluster(cfg, counts)
    ensures Healthy(cfg)
  {
    hide SetupOk, Devices, DescMap, TestSpec, FanoutPlan, Runnable, FanoutPair;
    ClusterRuns(cfg, counts);
    ClusterInputs(cfg, counts);
    forall r | 0 <= r < |cfg.ranks| ensures SetupOk(cfg, r) && cfg.ranks[r].given == LocalExternals(cfg.program, r) {
      ClusterStarts(cfg, counts, r);
    }
  }


  /** For every list of device counts, on any schedule: no run is infinite, and one that cannot go on has all ranks
      finished with exactly their artifacts. */
  lemma FanoutSucceeds(cfg: Config, counts: seq<Int32>, run: seq<State>, actions: seq<Action>)
    requires FanoutCluster(cfg, counts) && IsRun(cfg, run, actions) && Quiescent(cfg, run[|actions|])
    ensures |run[|actions|].nodes| == |counts|
    ensures forall r :: 0 <= r < |counts| ==>
      run[|actions|].nodes[r].control == Finished(Expected(cfg.program, r, cfg.ranks[r].retain))
  {
    hide FanoutPlan, Devices, Healthy, IsRun, Quiescent, Expected, FanoutPair, TestSpec;
    ClusterIsHealthy(cfg, counts);
    HealthyRunsSucceed(cfg, run, actions);
  }

  // ---- What the run returns ----

  /** Rank `r` has the last device. */
  predicate HasLastDevice(counts: seq<Int32>, r: nat) {
    r < |counts| && counts[r] > 0 && forall q :: r < q < |counts| ==> counts[q] == 0
  }

  lemma {:induction false} LastDevice(counts: seq<Int32>, r: nat)
    requires Fits(counts) && HasLastDevice(counts, r)
    ensures Devices(counts)[|Devices(counts)| - 1].rank == r
  {
    var n := |counts| - 1;
    if r < n {
      assert RankDevices(n, counts[n]) == [];
      assert counts[..n][r] == counts[r];
      SomeDevice(counts[..n]);
      LastDevice(counts[..n], r);
    }
  }

  /** The value of the final output: in every slot the negated product of the inputs. */
  lemma FinalMeaning(cfg: Config, counts: seq<Int32>, v: Valuation, i: nat)
    requires FanoutCluster(cfg, counts) && i < |cfg.program.inputs[0].slots|
    ensures var p := cfg.program; var id := FinalId(|Devices(counts)|);
      id in Meaning(p) && |Meaning(p)[id].slots| == |p.inputs[0].slots| &&
      ReadSlot(v, Meaning(p)[id], i) == -(ReadSlot(v, p.inputs[0], i) * ReadSlot(v, p.inputs[1], i))
  {
    hide FanoutPlan, Devices, Meaning, RunOps, ComputeNow, DescMap, Reads, TestSpec;
    var p, d := cfg.program, |Devices(counts)|;
    ClusterInputs(cfg, counts);
    ReferenceRuns(p, counts);
    var reference := RunOps(ReferenceOps(), map[0 := p.inputs[0], 1 := p.inputs[1]], 2).value;
    assert FanoutRun(p, counts, reference);
    ReferenceSteps(p, counts, reference);
    FanoutPointsAgree(p, counts, reference, DiffPoint(0, FinalId(d), 3));
    ReadAt(ReferenceOps()[0], [reference[0], reference[1]], v);
    ReadAt(ReferenceOps()[1], [reference[2]], v);
  }

  /** The whole fan-out, from literal settings to numbers: a run that cannot go on has delivered to the rank of the
      last device a value whose slots are the negated products of the inputs' slots, and without retaining it has
      delivered nothing else to any rank. */
  lemma FanoutDelivers(cfg: Config, counts: seq<Int32>, run: seq<State>, actions: seq<Action>, r: nat, v: Valuation, i: nat)
    requires FanoutCluster(cfg, counts) && IsRun(cfg, run, actions) && Quiescent(cfg, run[|actions|])
    requires HasLastDevice(counts, r) && i < |cfg.program.inputs[0].slots|
    ensures |run[|actions|].nodes| == |counts|
    ensures forall q :: 0 <= q < |counts| ==>
      var control := run[|actions|].nodes[q].control;
      control.Finished? && (!cfg.ranks[q].retain ==> control.artifact.Keys == if q == r then {FinalId(|Devices(counts)|)} else {})
    ensures run[|actions|].nodes[r].control.Finished? &&
      var artifact := run[|actions|].nodes[r].control.artifact;
      var id := FinalId(|Devices(counts)|);
      id in artifact && artifact[id].place == Place(Host, r, 0) && |artifact[id].value.slots| == |cfg.program.inputs[0].slots| &&
      ReadSlot(v, artifact[id].value, i) == -(ReadSlot(v, cfg.program.inputs[0], i) * ReadSlot(v, cfg.program.inputs[1], i))
  {
    hide FanoutCluster, IsRun, Quiescent, FanoutPlan, Devices, Meaning, DescMap, HasLastDevice;
    FanoutSucceeds(cfg, counts, run, actions);
    FinalMeaning(cfg, counts, v, i);
    FinalPlace(cfg, counts, r);
  }

  lemma FinalPlace(cfg: Config, counts: seq<Int32>, r: nat)
    requires FanoutCluster(cfg, counts) && HasLastDevice(counts, r)
    ensures var id := FinalId(|Devices(counts)|);
      id in cfg.program.Table() && cfg.program.Table()[id].place == Place(Host, r, 0) && cfg.program.plan.finalOutputs == [id]
    ensures r < |cfg.ranks| == |counts|
  {
    hide Devices, DescMap, FanoutPair, TestSpec, HasLastDevice, FanoutPlan;
    PlanParts(counts);
    TableShape(counts);
    LastDevice(counts, r);
    LastInRange(counts, r);
    FinalDesc(counts);
  }

  lemma FinalDesc(counts: seq<Int32>)
    requires Fits(counts)
    ensures var devices, dm := Devices(counts), DescMap(FanoutPlan(counts).values);
      FinalId(|devices|) in dm && dm[FinalId(|devices|)] == DescOf(devices, FinalId(|devices|))
  {
    hide FanoutPlan, Devices, DescMap;
    TableShape(counts);
    var d := |Devices(counts)|;
    assert 0 <= FinalId(d) <= FinalId(d);
  }

  lemma LastInRange(counts: seq<Int32>, r: nat)
    requires HasLastDevice(counts, r)
    ensures r < |counts|
  {
  }

  /** What the fan-out asks of its ranks: transfers, replicates from two devices on, no host compute and no key. */
  lemma FanoutNeeds(counts: seq<Int32>)
    requires Fits(counts)
    ensures var plan := FanoutPlan(counts); var n := |Instructions(plan)|;
      Verifier.CapabilitiesBefore(plan, n) == (if |Devices(counts)| == 1 then {NeedsTransfer} else {NeedsTransfer, NeedsReplicate}) &&
      Verifier.KeysBefore(plan, 4096, n) == {}
  {
    hide Devices, FanoutPlan;
    CodeShape(counts);
    DevicesAre(counts);
    var devices, code := Devices(counts), Instructions(FanoutPlan(counts));
    forall k | 0 <= k < |code|
      ensures Verifier.KeysOf(code[k].body, 4096) == {}
      ensures Verifier.CapabilitiesOf(code[k].body) <= if |devices| == 1 then {NeedsTransfer} else {NeedsTransfer, NeedsReplicate}
    {
      NeedsAt(devices, k);
    }
    assert code[0] == CodeAt(devices, 0) && NeedsTransfer in Verifier.CapabilitiesOf(code[0].body);
    assert code[1] == CodeAt(devices, 1) && (|devices| > 1 ==> NeedsReplicate in Verifier.CapabilitiesOf(code[1].body));
  }

  lemma NeedsAt(devices: seq<Place>, k: nat)
    requires devices != [] && k <= FirstBranch(|devices|) + |devices| && forall p :: p in devices ==> p.kind == Device
    ensures Verifier.KeysOf(CodeAt(devices, k).body, 4096) == {}
    ensures Verifier.CapabilitiesOf(CodeAt(devices, k).body) <= if |devices| == 1 then {NeedsTransfer} else {NeedsTransfer, NeedsReplicate}
  {
    assert forall j :: 0 <= j < |devices| ==> devices[j] in devices;
  }

  // ---- A cluster that meets the settings ----

  lemma CountsFit(counts: seq<Int32>)
    requires FanoutCounts(counts)
    ensures Fits(counts)
  {
    hide Devices;
    SomeDevice(counts);
  }

  function ClusterOf(counts: seq<Int32>, x: seq<Num>, y: seq<Num>, skip: bool, digest: string, retain: bool): Config
    requires Fits(counts)
  {
    var inputs := map[
      0 := Payload(Ciphertext, x, Meta("ctx", 8192, 3, 1, true, 2)),
      1 := Payload(Plaintext, y, Meta("ctx", 8192, 3, 1, true, 1))];
    Config(
      Program(FanoutPlan(counts), 8192, inputs, map[]), TestSpec(),
      seq(|counts|, r requires 0 <= r < |counts| =>
        RankConfig(skip, digest, true, retain, counts[r], if r == 0 then {0, 1} else {})),
      NoInjectedFaults)
  }

  lemma ClusterExists(counts: seq<Int32>, x: seq<Num>, y: seq<Num>, skip: bool, digest: string, retain: bool)
    requires FanoutCounts(counts) && |x| == |y| >= 1
    ensures Fits(counts) && FanoutCluster(ClusterOf(counts, x, y, skip, digest, retain), counts)
  {
    hide FanoutPlan, Devices, TestSpec;
    CountsFit(counts);
  }

  // ---- Start-up ----

  predicate PastStartUp(control: Control) {
    !control.Setup? && !control.Panicked?
  }

  /** In every run of any plan, with any faults: a rank that is past start-up has as many devices as the target says,
      the cluster has as many ranks, the plan is verified under its skip flag, its bundle has loaded, the capability
      version is 1, and no instruction of the plan needs a capability or key that is missing. */
  lemma StartUpChecks(cfg: Config, run: seq<State>, actions: seq<Action>, i: nat, r: nat)
    requires IsRun(cfg, run, actions) && i < |run| && r < |cfg.ranks| && r < |run[i].nodes| && PastStartUp(run[i].nodes[r].control)
    ensures var target := cfg.program.plan.target;
      && target.worldSize == |cfg.ranks| && target.capabilityVersion == 1
      && |target.deviceCounts| == |cfg.ranks| && cfg.ranks[r].devices == target.deviceCounts[r]
      && cfg.ranks[r].bundleLoads && WellFormed(cfg.program.plan, cfg.loaded, cfg.ranks[r].skip)
    ensures forall n :: 0 <= n < |cfg.program.Code()| ==>
      && Verifier.CapabilitiesOf(cfg.program.Code()[n].body) !! cfg.faults.missingCapabilities
      && Verifier.KeysOf(cfg.program.Code()[n].body, cfg.loaded.spec.polyDegree / 2) !! cfg.faults.missingKeys
  {
    hide IsRun, NodeInv, SenderInv, MessageInv, StartedInv, LocalInv, SetupOk, Verifier.CapabilitiesOf, Verifier.KeysOf;
    ReachedNode(cfg, run, actions, i, r);
    ReachableInv(cfg, run, actions, i);
    assert RegisteredOk(cfg, r, run[i].registered[r]);
    SetupFacts(cfg, r);
  }

  lemma SetupFacts(cfg: Config, r: nat)
    requires r < |cfg.ranks| && SetupOk(cfg, r)
    ensures var target := cfg.program.plan.target;
      && target.worldSize == |cfg.ranks| && target.capabilityVersion == 1
      && |target.deviceCounts| == |cfg.ranks| && cfg.ranks[r].devices == target.deviceCounts[r]
      && cfg.ranks[r].bundleLoads && WellFormed(cfg.program.plan, cfg.loaded, cfg.ranks[r].skip)
    ensures forall n :: 0 <= n < |cfg.program.Code()| ==>
      && Verifier.CapabilitiesOf(cfg.program.Code()[n].body) !! cfg.faults.missingCapabilities
      && Verifier.KeysOf(cfg.program.Code()[n].body, cfg.loaded.spec.polyDegree / 2) !! cfg.faults.missingKeys
  {
    hide DescMap, ValuesOk, InputsOk, InstructionOk, OutputsOk, Verifier.CapabilitiesOf, Verifier.KeysOf;
    var plan, slots := cfg.program.plan, cfg.loaded.spec.polyDegree / 2;
    var code := Instructions(plan);
    forall n | 0 <= n < |code|
      ensures Verifier.CapabilitiesOf(code[n].body) <= Verifier.CapabilitiesBefore(plan, |code|)
      ensures Verifier.KeysOf(code[n].body, slots) <= Verifier.KeysBefore(plan, slots, |code|)
    {
    }
  }

  /** A rank with another number of devices than the target gives it never gets past start-up. */
  lemma WrongDevicesStayOut(cfg: Config, run: seq<State>, actions: seq<Action>, i: nat, r: nat)
    requires IsRun(cfg, run, actions) && i < |run| && r < |cfg.ranks| && r < |run[i].nodes|
    requires r < |cfg.program.plan.target.deviceCounts| ==> cfg.ranks[r].devices != cfg.program.plan.target.deviceCounts[r]
    ensures !PastStartUp(run[i].nodes[r].control)
  {
    hide IsRun;
    if PastStartUp(run[i].nodes[r].control) {
      StartUpChecks(cfg, run, actions, i, r);
      assert false;
    }
  }
}
