/** Asynchronous mode on verified plans: whatever the workers' schedule, every future holds the meaning of its
    value, so the executor's mode does not change any result. */
module AsyncMeaning {
  import opened Wrappers
  import opened Plan
  import opened Rules
  import opened Vec
  import opened Semantics
  import opened RankInvariant
  import opened RankSteps
  import opened RankRun
  import Async

  /** The compute calls a rank (or all ranks together) submits for a plan: value `i` of the job is the value
      `ids[i]` of the plan; the job's inputs are values that were ready when they were used (external inputs,
      encodes, received copies), and every call is one of the plan's compute instructions on earlier values. */
  ghost predicate Submits(p: Program, job: Async.Job, ids: seq<ValueId>) {
    && |ids| == |job.inputs| + |job.calls|
    && (forall i :: 0 <= i < |job.inputs| ==> ids[i] in Meaning(p) && job.inputs[i] == Meaning(p)[ids[i]])
    && forall k :: 0 <= k < |job.calls| ==> CallOf(p, job, ids, k)
  }

  ghost predicate CallOf(p: Program, job: Async.Job, ids: seq<ValueId>, k: nat)
    requires k < |job.calls| && |ids| == |job.inputs| + |job.calls|
  {
    var call := job.calls[k];
    && (exists n :: 0 <= n < |p.Code()| && p.Code()[n].body == Compute(call.op))
    && ids[|job.inputs| + k] == call.op.output
    && |call.args| == |call.op.inputs|
    && forall j :: 0 <= j < |call.args| ==> call.args[j] < |job.inputs| + k && ids[call.args[j]] == call.op.inputs[j]
  }

  lemma SubmitsIsCausal(p: Program, job: Async.Job, ids: seq<ValueId>)
    requires Submits(p, job, ids)
    ensures Async.Causal(job)
  {
    hide Meaning;
    forall k | 0 <= k < |job.calls| ensures Async.CallCausal(job, k) {
      assert CallOf(p, job, ids, k);
    }
  }

  /** Synchronous mode computes the meanings and never throws. */
  lemma {:induction false} SyncIsMeaning(p: Program, loaded: LoadedSpec, skip: bool, job: Async.Job, ids: seq<ValueId>, n: nat)
    requires Runnable(p, loaded, skip) && Submits(p, job, ids) && Async.Causal(job) && n <= |job.calls|
    ensures Async.RunSync(job, n).Success?
    ensures forall i :: 0 <= i < |job.inputs| + n ==> ids[i] in Meaning(p) && Async.RunSync(job, n).value[i] == Meaning(p)[ids[i]]
  {
    hide Runnable, Meaning, ComputeNow;
    if n > 0 {
      SyncIsMeaning(p, loaded, skip, job, ids, n - 1);
      var call := job.calls[n - 1];
      assert CallOf(p, job, ids, n - 1) && Async.CallCausal(job, n - 1);
      var at :| 0 <= at < |p.Code()| && p.Code()[at].body == Compute(call.op);
      var values := Async.RunSync(job, n - 1).value;
      assert HasAll(Meaning(p), call.op.inputs);
      assert seq(|call.args|, i requires 0 <= i < |call.args| => values[call.args[i]]) == Operands(Meaning(p), call.op.inputs);
      OutputMeaning(p, loaded, skip, at);
    }
  }

  lemma OutputMeaning(p: Program, loaded: LoadedSpec, skip: bool, n: nat)
    requires Runnable(p, loaded, skip) && n < |p.Code()| && p.Code()[n].body.Compute?
    ensures var op := p.Code()[n].body.op; HasAll(Meaning(p), op.inputs) ==>
      ComputeNow(op, Operands(Meaning(p), op.inputs)).Success? && op.output in Meaning(p) &&
      Meaning(p)[op.output] == ComputeNow(op, Operands(Meaning(p), op.inputs)).value
  {
    hide Runnable, Meaning, ComputeNow, WellFormed;
    RunnableFacts(p, loaded, skip);
    VerifiedIsSsa(p, loaded, skip);
    MeaningEquation(p, n);
    var op := p.Code()[n].body.op;
    assert op.output in Defs(p.Code()[n].body);
    if HasAll(Meaning(p), op.inputs) {
      ComputedNow(p, loaded, skip, n, op, Operands(Meaning(p), op.inputs));
    }
  }

  /** In every state of every asynchronous run over a runnable program, a complete future holds the meaning of
      its value, and no submission is refused. */
  lemma AsyncIsMeaning(p: Program, loaded: LoadedSpec, skip: bool, job: Async.Job, ids: seq<ValueId>, run: seq<Async.Exec>, i: nat, t: nat)
    requires Runnable(p, loaded, skip) && Submits(p, job, ids)
    requires Async.IsRun(job, run) && i < |run| && t < |run[i].futures|
    ensures t < |ids|
    ensures run[i].futures[t].done.Some? ==> ids[t] in Meaning(p) && run[i].futures[t].done.value == Success(Meaning(p)[ids[t]])
    ensures |run[i].futures| < |ids| && !run[i].stopped ==>
      && |run[i].futures| >= |job.inputs|
      && Async.CallCausal(job, |run[i].futures| - |job.inputs|)
      && Async.Submit(run[i], job.calls[|run[i].futures| - |job.inputs|]).Success?
  {
    hide Runnable, Meaning, Async.IsRun, Async.RunSync;
    SubmitsIsCausal(p, job, ids);
    SyncIsMeaning(p, loaded, skip, job, ids, |job.calls|);
    Async.AsyncEqualsSync(job, run, i, t);
  }
}
