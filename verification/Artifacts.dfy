/** Collecting the artifacts of all ranks into one table (experiments/dacapo_plan_vec_diff.cpp). */
module Artifacts {
  import opened Wrappers
  import opened Plan
  import opened Rules
  import opened Vec
  import opened Semantics
  import opened RankState
  import opened RankInvariant
  import opened RankRun
  import opened Protocol
  import opened ProtocolNode
  import opened ProtocolSafety
  import opened ProtocolCalm
  import opened ProtocolTheorems
  import A = Alignment
  import AlignmentSound

  /** An entry is at its descriptor's Place, on its own rank. */
  predicate Owned(plan: RuntimePlan, q: nat, id: ValueId, a: ArtifactValue) {
    var desc := A.FindDesc(plan.values, id);
    desc.Some? && a.place == desc.value.place && a.place.rank == q
  }

  /** The values of the first `n` ranks. */
  ghost function Union(artifacts: seq<Artifact>, n: nat): (m: Artifact)
    requires n <= |artifacts|
    ensures forall id :: id in m <==> exists q :: 0 <= q < n && id in artifacts[q]
  {
    if n == 0 then map[] else Union(artifacts, n - 1) + artifacts[n - 1]
  }

  ghost predicate AllOwned(plan: RuntimePlan, artifacts: seq<Artifact>, n: nat)
    requires n <= |artifacts|
  {
    forall q, id :: 0 <= q < n && id in artifacts[q] ==> Owned(plan, q, id, artifacts[q][id])
  }

  /** Every entry is at its descriptor's Place on its own rank, and there are as many as the plan has values. */
  ghost predicate Partitioned(plan: RuntimePlan, artifacts: seq<Artifact>) {
    AllOwned(plan, artifacts, |artifacts|) && |Union(artifacts, |artifacts|)| == |plan.values|
  }

  /** One rank's entries join the index; an identifier met before is an error. */
  method AddRank(plan: RuntimePlan, artifacts: seq<Artifact>, q: nat, index: Artifact) returns (r: Option<Artifact>)
    requires q < |artifacts|
    ensures r.Some? <==> forall id :: id in artifacts[q] ==> Owned(plan, q, id, artifacts[q][id]) && id !in index
    ensures r.Some? ==> r.value == index + artifacts[q]
  {
    hide Owned;
    var here := artifacts[q];
    r := Some(index);
    var left := here.Keys;
    while left != {}
      invariant left <= here.Keys && r.Some?
      invariant forall id :: id in r.value <==> id in index || (id in here && id !in left)
      invariant forall id :: id in r.value ==> r.value[id] == if id in here && id !in left then here[id] else index[id]
      invariant forall id :: id in here && id !in left ==> Owned(plan, q, id, here[id]) && id !in index
      decreases |left|
    {
      var id :| id in left;
      if !Owned(plan, q, id, here[id]) || id in r.value { return None; }
      r := Some(r.value[id := here[id]]);
      left := left - {id};
    }
    assert r.value == index + here;
  }

  method IndexArtifacts(plan: RuntimePlan, artifacts: seq<Artifact>) returns (r: Option<Artifact>)
    ensures r.Some? <==> Partitioned(plan, artifacts)
    ensures r.Some? ==> r.value == Union(artifacts, |artifacts|)
  {
    hide Owned, AllOwned, Union;
    var index: Artifact := map[];
    OwnedStart(plan, artifacts);
    for q := 0 to |artifacts|
      invariant index == Union(artifacts, q) && AllOwned(plan, artifacts, q)
    {
      OwnedNext(plan, artifacts, q);
      var next := AddRank(plan, artifacts, q, index);
      if next.None? { return None; }
      index := next.value;
    }
    if |index| != |plan.values| { return None; }
    r := Some(index);
  }

  lemma OwnedStart(plan: RuntimePlan, artifacts: seq<Artifact>)
    ensures Union(artifacts, 0) == map[] && AllOwned(plan, artifacts, 0)
  {
  }

  /** One more rank; an identifier at its own Place cannot have been met before. */
  lemma OwnedNext(plan: RuntimePlan, artifacts: seq<Artifact>, q: nat)
    requires q < |artifacts| && AllOwned(plan, artifacts, q)
    ensures Union(artifacts, q + 1) == Union(artifacts, q) + artifacts[q]
    ensures AllOwned(plan, artifacts, q + 1) <==>
      forall id :: id in artifacts[q] ==> Owned(plan, q, id, artifacts[q][id]) && id !in Union(artifacts, q)
    ensures AllOwned(plan, artifacts, |artifacts|) ==> AllOwned(plan, artifacts, q + 1)
  {
    hide Owned, Union;
    forall id | id in artifacts[q] && Owned(plan, q, id, artifacts[q][id]) ensures id !in Union(artifacts, q) {
      OwnedOnce(plan, artifacts, q, id);
    }
    assert Union(artifacts, q + 1) == Union(artifacts, q) + artifacts[q] by { UnionNext(artifacts, q); }
  }

  lemma UnionNext(artifacts: seq<Artifact>, q: nat)
    requires q < |artifacts|
    ensures Union(artifacts, q + 1) == Union(artifacts, q) + artifacts[q]
  {
  }

  /** The index holds, for every descriptor, the entry some rank has at exactly that descriptor's Place. */
  lemma IndexedAtPlaces(plan: RuntimePlan, artifacts: seq<Artifact>, q: nat, id: ValueId)
    requires Partitioned(plan, artifacts) && Rules.UniqueIds(plan.values) && q < |artifacts| && id in artifacts[q]
    ensures id in DescMap(plan.values) && DescMap(plan.values)[id].place == artifacts[q][id].place && artifacts[q][id].place.rank == q
  {
    hide A.FindDesc, Union, DescMap;
    AlignmentSound.FindIsLookup(plan.values, id);
    assert Owned(plan, q, id, artifacts[q][id]);
  }

  /** A value at its own Place cannot have been met on an earlier rank. */
  lemma OwnedOnce(plan: RuntimePlan, artifacts: seq<Artifact>, q: nat, id: ValueId)
    requires q < |artifacts| && id in artifacts[q] && Owned(plan, q, id, artifacts[q][id])
    requires AllOwned(plan, artifacts, q)
    ensures id !in Union(artifacts, q)
  {
    hide A.FindDesc;
  }

  lemma {:induction false} TableSize(values: seq<ValueDesc>)
    requires UniqueIds(values)
    ensures |DescMap(values)| == |values|
  {
    if values != [] {
      var n := |values| - 1;
      TableSize(values[..n]);
      assert values[n].id !in DescMap(values[..n]);
    }
  }

  /** What the ranks of a healthy run with every value retained return. */
  ghost function AllArtifacts(cfg: Config): (s: seq<Artifact>)
    ensures |s| == |cfg.ranks| && forall q :: 0 <= q < |s| ==> s[q] == Expected(cfg.program, q, true)
  {
    seq(|cfg.ranks|, q => Expected(cfg.program, q, true))
  }

  /** Rank `q` returns its own values and nothing else. */
  lemma ExpectedEntry(cfg: Config, q: nat, id: ValueId)
    requires Healthy(cfg) && q < |cfg.ranks|
    ensures id in Expected(cfg.program, q, true) <==> id in cfg.program.Table() && cfg.program.Table()[id].place.rank == q
    ensures id in Expected(cfg.program, q, true) ==> id in Meaning(cfg.program)
    ensures id in Expected(cfg.program, q, true) ==>
      Expected(cfg.program, q, true)[id] == ArtifactValue(cfg.program.Table()[id].place, Meaning(cfg.program)[id])
  {
    hide Healthy, Meaning, DescMap;
    ArtifactsPartition(cfg, id, q);
  }

  lemma HealthyTable(cfg: Config)
    requires Healthy(cfg)
    ensures cfg.ranks != [] && UniqueIds(cfg.program.plan.values)
    ensures forall id :: id in cfg.program.Table() ==> 0 <= cfg.program.Table()[id].place.rank < |cfg.ranks| && id in Meaning(cfg.program)
  {
    hide Healthy, Meaning, DescMap, WellFormed, Runnable;
    HealthyIsLaunched(cfg);
    LaunchedHasRanks(cfg);
    HealthyFacts(cfg, 0);
    RunnableFacts(cfg.program, cfg.loaded, cfg.ranks[0].skip);
    UniqueTable(cfg.program, cfg.loaded, cfg.ranks[0].skip);
    forall id | id in cfg.program.Table() ensures 0 <= cfg.program.Table()[id].place.rank < |cfg.ranks| {
      ArtifactsPartition(cfg, id, 0);
    }
  }

  /** The index of a healthy run exists and is the sequential interpreter's table, complete. */
  lemma HealthyRunsIndex(cfg: Config)
    requires Healthy(cfg)
    ensures Partitioned(cfg.program.plan, AllArtifacts(cfg))
    ensures Union(AllArtifacts(cfg), |cfg.ranks|) == map id | id in cfg.program.Table() && id in Meaning(cfg.program) ::
      ArtifactValue(cfg.program.Table()[id].place, Meaning(cfg.program)[id])
    ensures Union(AllArtifacts(cfg), |cfg.ranks|).Keys == cfg.program.Table().Keys
  {
    hide Healthy, Meaning, DescMap, Owned, Union, AllArtifacts, Expected;
    var p, artifacts := cfg.program, AllArtifacts(cfg);
    var index := Union(artifacts, |artifacts|);
    HealthyTable(cfg);
    UnionValues(cfg, |artifacts|);
    forall id | id in p.Table() ensures id in index {
      ExpectedEntry(cfg, p.Table()[id].place.rank, id);
      assert id in artifacts[p.Table()[id].place.rank];
    }
    assert index.Keys == p.Table().Keys;
    TableSize(p.plan.values);
    forall q, id | 0 <= q < |artifacts| && id in artifacts[q] ensures Owned(p.plan, q, id, artifacts[q][id]) {
      ExpectedOwned(cfg, q, id);
    }
    assert |index| == |index.Keys| && |p.Table()| == |p.Table().Keys|;
  }

  lemma ExpectedOwned(cfg: Config, q: nat, id: ValueId)
    requires Healthy(cfg) && q < |cfg.ranks| && id in Expected(cfg.program, q, true) && UniqueIds(cfg.program.plan.values)
    ensures Owned(cfg.program.plan, q, id, Expected(cfg.program, q, true)[id])
  {
    hide Healthy, Meaning, DescMap, A.FindDesc, Expected;
    ExpectedEntry(cfg, q, id);
    AlignmentSound.FindIsLookup(cfg.program.plan.values, id);
  }

  lemma HealthyIsLaunched(cfg: Config)
    requires Healthy(cfg)
    ensures Launched(cfg)
  {
  }

  lemma UniqueTable(p: Program, loaded: LoadedSpec, skip: bool)
    requires WellFormed(p.plan, loaded, skip)
    ensures UniqueIds(p.plan.values)
  {
    hide HeaderOk, InputsOk, OutputsOk, InstructionOk, DescMap, DefinedBefore, DescOk;
  }

  lemma {:induction false} UnionValues(cfg: Config, n: nat)
    requires Healthy(cfg) && n <= |cfg.ranks|
    ensures forall id :: id in Union(AllArtifacts(cfg), n) ==>
      id in cfg.program.Table() && id in Meaning(cfg.program) &&
      Union(AllArtifacts(cfg), n)[id] == ArtifactValue(cfg.program.Table()[id].place, Meaning(cfg.program)[id])
  {
    hide Healthy, Meaning, DescMap, AllArtifacts, Expected;
    if n > 0 {
      UnionValues(cfg, n - 1);
      forall id { ExpectedEntry(cfg, n - 1, id); }
    }
  }
}
