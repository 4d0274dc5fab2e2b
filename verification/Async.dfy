/** The asynchronous executor: per-Place FIFO queues of tasks whose operands are single-assignment futures
    (api/vec_api.cpp, api/vec_value.cpp). Any scheduling of the workers gives what synchronous mode computes. */
module Async {
  import opened Wrappers
  import opened Plan
  import opened Vec

  /** One `compute` call; its operands are numbered values: the ready inputs, then the results of earlier calls. */
  datatype Call = Call(op: ComputeOp, args: seq<nat>)
  datatype Job = Job(inputs: seq<Payload>, calls: seq<Call>)

  predicate Causal(job: Job) {
    forall k :: 0 <= k < |job.calls| ==> CallCausal(job, k)
  }

  predicate CallCausal(job: Job, k: nat)
    requires k < |job.calls|
  {
    forall i :: 0 <= i < |job.calls[k].args| ==> job.calls[k].args[i] < |job.inputs| + k
  }

  // ---- What the calls compute ----

  type Outcome = Checked<Payload>

  /** The operands in order; the first one that failed decides. */
  function Gather(table: seq<Outcome>, args: seq<nat>): Checked<seq<Payload>>
    requires forall i :: 0 <= i < |args| ==> args[i] < |table|
  {
    if args == [] then Success([])
    else
      var first :- table[args[0]];
      var rest :- Gather(table, args[1..]);
      Success([first] + rest)
  }

  function Eval(table: seq<Outcome>, call: Call): Outcome
    requires forall i :: 0 <= i < |call.args| ==> call.args[i] < |table|
  {
    var args :- Gather(table, call.args);
    ComputeNow(call.op, args)
  }

  /** The inputs and the results of the first `n` calls, one after the other. */
  function Values(job: Job, n: nat): (table: seq<Outcome>)
    requires Causal(job) && n <= |job.calls|
    ensures |table| == |job.inputs| + n
  {
    if n == 0 then seq(|job.inputs|, i requires 0 <= i < |job.inputs| => Success(job.inputs[i]))
    else
      assert CallCausal(job, n - 1);
      Values(job, n - 1) + [Eval(Values(job, n - 1), job.calls[n - 1])]
  }

  /** Synchronous mode: each call is computed at once, and the first failure is thrown to the caller. */
  function RunSync(job: Job, n: nat): (r: Checked<seq<Payload>>)
    requires Causal(job) && n <= |job.calls|
    ensures r.Success? ==> |r.value| == |job.inputs| + n
  {
    if n == 0 then Success(job.inputs)
    else
      var values :- RunSync(job, n - 1);
      assert CallCausal(job, n - 1);
      var call := job.calls[n - 1];
      var v :- ComputeNow(call.op, seq(|call.args|, i requires 0 <= i < |call.args| => values[call.args[i]]));
      Success(values + [v])
  }

  // ---- The executor as a transition system ----

  /** A future: what it promised when it was created, and its result once it is complete. */
  datatype Future = Future(promise: Sig, done: Option<Outcome>)

  /** Futures are numbered like the values; a queue holds the numbers of its tasks' futures. */
  datatype Exec = Exec(futures: seq<Future>, queues: map<Place, seq<nat>>, stopped: bool)

  function Queue(s: Exec, place: Place): seq<nat> {
    if place in s.queues then s.queues[place] else []
  }

  function Start(job: Job): Exec {
    Exec(seq(|job.inputs|, i requires 0 <= i < |job.inputs| => Future(job.inputs[i].Signature(), Some(Success(job.inputs[i])))), map[], false)
  }

  function Promises(s: Exec, args: seq<nat>): (r: seq<Sig>)
    requires forall i :: 0 <= i < |args| ==> args[i] < |s.futures|
    ensures |r| == |args|
  {
    seq(|args|, i requires 0 <= i < |args| => s.futures[args[i]].promise)
  }

  /** `compute` in asynchronous mode: the metadata is promised from the operands' promises, the task queued. */
  function Submit(s: Exec, call: Call): Checked<Exec>
    requires forall i :: 0 <= i < |call.args| ==> call.args[i] < |s.futures|
  {
    var meta :- ComputeMetadata(call.op, Promises(s, call.args));
    if s.stopped then Failure(WrongPayload)
    else
      Success(s.(
        futures := s.futures + [Future(Sig(Ciphertext, meta), None)],
        queues := s.queues[call.op.place := Queue(s, call.op.place) + [|s.futures|]]))
  }

  /** What materializing the operands in order gives; None while an operand that is needed is not complete. */
  function Peek(s: Exec, args: seq<nat>): Option<Checked<seq<Payload>>>
    requires forall i :: 0 <= i < |args| ==> args[i] < |s.futures|
  {
    if args == [] then Some(Success([]))
    else
      match s.futures[args[0]].done
      case None => None
      case Some(Failure(e)) => Some(Failure(e))
      case Some(Success(v)) =>
        match Peek(s, args[1..])
        case Some(Success(rest)) => Some(Success([v] + rest))
        case other => other
  }

  /** `fulfill` refuses a payload that breaks the promise; the task then fails its future. */
  function Settle(promise: Sig, r: Outcome): Outcome {
    if r.Success? && r.value.Signature() != promise then Failure(WrongPayload) else r
  }

  /** The number of the call behind a future. */
  predicate IsTask(job: Job, t: nat) {
    |job.inputs| <= t < |job.inputs| + |job.calls|
  }

  /** The worker of `place` can complete its first task. */
  predicate CanWork(job: Job, s: Exec, place: Place)
    requires Causal(job)
  {
    && Queue(s, place) != []
    && var t := Queue(s, place)[0];
    && IsTask(job, t) && t < |s.futures|
    && (assert CallCausal(job, t - |job.inputs|); Peek(s, job.calls[t - |job.inputs|].args).Some?)
  }

  function Work(job: Job, s: Exec, place: Place): (s': Exec)
    requires Causal(job) && CanWork(job, s, place)
    ensures |s'.futures| == |s.futures| && s'.stopped == s.stopped
  {
    var t := Queue(s, place)[0];
    assert CallCausal(job, t - |job.inputs|);
    var call := job.calls[t - |job.inputs|];
    var r := match Peek(s, call.args).value
      case Failure(e) => Failure(e)
      case Success(args) => ComputeNow(call.op, args);
    s.(
      futures := s.futures[t := s.futures[t].(done := Some(Settle(s.futures[t].promise, r)))],
      queues := s.queues[place := Queue(s, place)[1..]])
  }

  // ---- The invariant ----

  ghost predicate FutureOk(job: Job, s: Exec, t: nat)
    requires Causal(job) && |job.inputs| <= |s.futures| <= |job.inputs| + |job.calls| && t < |s.futures|
  {
    var f := s.futures[t];
    && (f.done.Some? ==> f.done.value == Values(job, |s.futures| - |job.inputs|)[t])
    && (t < |job.inputs| ==> f.done.Some?)
    && (Values(job, |s.futures| - |job.inputs|)[t].Success? ==>
      Values(job, |s.futures| - |job.inputs|)[t].value.Signature() == f.promise)
  }

  /** The open tasks of a Place are queued there, in the order of their calls, each once. */
  ghost predicate QueueOk(job: Job, futures: seq<Future>, queue: seq<nat>, place: Place) {
    && (forall i :: 0 <= i < |queue| ==> Queued(job, futures, queue[i], place))
    && Ascending(queue)
  }

  predicate Queued(job: Job, futures: seq<Future>, t: nat, place: Place) {
    IsTask(job, t) && t < |futures| && futures[t].done.None? && job.calls[t - |job.inputs|].op.place == place
  }

  predicate Ascending(queue: seq<nat>) {
    forall i, j :: 0 <= i < j < |queue| ==> queue[i] < queue[j]
  }

  ghost predicate QueuesOk(job: Job, s: Exec) {
    forall place :: QueueOk(job, s.futures, Queue(s, place), place)
  }

  ghost predicate AllQueued(job: Job, s: Exec) {
    forall t :: 0 <= t < |s.futures| && s.futures[t].done.None? ==>
      IsTask(job, t) && t in Queue(s, job.calls[t - |job.inputs|].op.place)
  }

  ghost predicate Inv(job: Job, s: Exec) {
    && Causal(job)
    && |job.inputs| <= |s.futures| <= |job.inputs| + |job.calls|
    && (forall t :: 0 <= t < |s.futures| ==> FutureOk(job, s, t))
    && QueuesOk(job, s)
    && AllQueued(job, s)
  }

  lemma StartKeeps(job: Job)
    requires Causal(job)
    ensures Inv(job, Start(job))
  {
  }

  lemma GatherAppend(table: seq<Outcome>, more: seq<Outcome>, args: seq<nat>)
    requires forall i :: 0 <= i < |args| ==> args[i] < |table|
    ensures Gather(table + more, args) == Gather(table, args)
  {
  }

  /** A call's signature depends only on its operands' signatures. */
  lemma PromiseKept(table: seq<Outcome>, promises: seq<Sig>, call: Call)
    requires forall i :: 0 <= i < |call.args| ==> call.args[i] < |table|
    requires |promises| == |call.args|
    requires forall i :: 0 <= i < |promises| && table[call.args[i]].Success? ==> table[call.args[i]].value.Signature() == promises[i]
    ensures Eval(table, call).Success? ==>
      ComputeMetadata(call.op, promises).Success? &&
      Eval(table, call).value.Signature() == Sig(Ciphertext, ComputeMetadata(call.op, promises).value)
  {
    hide ComputeMetadata, ComputeSlots;
    if Eval(table, call).Success? {
      var args := Gather(table, call.args).value;
      GatherAll(table, call.args);
      assert Signatures(args) == promises;
    }
  }

  lemma {:induction false} GatherAll(table: seq<Outcome>, args: seq<nat>)
    requires forall i :: 0 <= i < |args| ==> args[i] < |table|
    requires Gather(table, args).Success?
    ensures |Gather(table, args).value| == |args|
    ensures forall i :: 0 <= i < |args| ==> table[args[i]] == Success(Gather(table, args).value[i])
  {
    if args != [] {
      GatherAll(table, args[1..]);
      forall i | 0 <= i < |args| ensures table[args[i]] == Success(Gather(table, args).value[i]) {
        if i > 0 {
          assert args[i] == args[1..][i - 1];
        }
      }
    }
  }

  lemma ValuesGrow(job: Job, n: nat)
    requires Causal(job) && n < |job.calls|
    ensures Values(job, n + 1)[..|job.inputs| + n] == Values(job, n)
    ensures CallCausal(job, n) && Values(job, n + 1)[|job.inputs| + n] == Eval(Values(job, n), job.calls[n])
  {
    hide Eval;
    assert CallCausal(job, n);
  }

  lemma SubmitKeeps(job: Job, s: Exec)
    requires Inv(job, s) && |s.futures| < |job.inputs| + |job.calls|
    ensures CallCausal(job, |s.futures| - |job.inputs|)
    ensures var r := Submit(s, job.calls[|s.futures| - |job.inputs|]); r.Success? ==> Inv(job, r.value)
  {
    hide ComputeMetadata, Eval, Values;
    var n := |s.futures| - |job.inputs|;
    assert CallCausal(job, n);
    var call := job.calls[n];
    var r := Submit(s, call);
    if r.Success? {
      var s' := r.value;
      ValuesGrow(job, n);
      forall i | 0 <= i < |call.args| && Values(job, n)[call.args[i]].Success?
        ensures Values(job, n)[call.args[i]].value.Signature() == Promises(s, call.args)[i]
      {
        assert FutureOk(job, s, call.args[i]);
      }
      PromiseKept(Values(job, n), Promises(s, call.args), call);
      forall t | 0 <= t < |s'.futures| ensures FutureOk(job, s', t) {
        if t < |s.futures| {
          assert FutureOk(job, s, t);
          assert Values(job, n + 1)[t] == Values(job, n + 1)[..|s.futures|][t];
        }
      }
      SubmitQueues(job, s, call, s');
    }
  }

  lemma SubmitQueues(job: Job, s: Exec, call: Call, s': Exec)
    requires |job.inputs| <= |s.futures| < |job.inputs| + |job.calls| && job.calls[|s.futures| - |job.inputs|] == call
    requires QueuesOk(job, s) && AllQueued(job, s)
    requires forall i :: 0 <= i < |call.args| ==> call.args[i] < |s.futures|
    requires Submit(s, call) == Success(s')
    ensures QueuesOk(job, s') && AllQueued(job, s')
  {
    hide ComputeMetadata, QueueOk;
    var t := |s.futures|;
    forall place ensures QueueOk(job, s'.futures, Queue(s', place), place) {
      assert QueueOk(job, s.futures, Queue(s, place), place);
      assert Queue(s', place) == if place == call.op.place then Queue(s, place) + [t] else Queue(s, place);
      QueueGrows(job, s.futures, s'.futures[t], Queue(s, place), place);
    }
    forall u | 0 <= u < |s'.futures| && s'.futures[u].done.None?
      ensures IsTask(job, u) && u in Queue(s', job.calls[u - |job.inputs|].op.place)
    {
      if u == t {
        assert Queue(s', call.op.place)[|Queue(s, call.op.place)|] == t;
      }
    }
  }

  /** A new open future, queued at its own Place or elsewhere. */
  lemma QueueGrows(job: Job, futures: seq<Future>, f: Future, queue: seq<nat>, place: Place)
    requires QueueOk(job, futures, queue, place) && f.done.None?
    requires |job.inputs| <= |futures| < |job.inputs| + |job.calls|
    ensures QueueOk(job, futures + [f], queue, place)
    ensures job.calls[|futures| - |job.inputs|].op.place == place ==> QueueOk(job, futures + [f], queue + [|futures|], place)
  {
    forall i | 0 <= i < |queue| ensures Queued(job, futures + [f], queue[i], place) {
      assert Queued(job, futures, queue[i], place);
    }
  }

  /** What a worker sees of its operands is what the calls compute. */
  lemma {:induction false} PeekIsGather(job: Job, s: Exec, args: seq<nat>)
    requires Inv(job, s) && forall i :: 0 <= i < |args| ==> args[i] < |s.futures|
    ensures Peek(s, args).Some? ==> Peek(s, args).value == Gather(Values(job, |s.futures| - |job.inputs|), args)
  {
    hide Values;
    if args != [] {
      PeekIsGather(job, s, args[1..]);
      assert FutureOk(job, s, args[0]);
    }
  }

  lemma {:induction false} ValuesPrefix(job: Job, n: nat, m: nat)
    requires Causal(job) && n <= m <= |job.calls|
    ensures Values(job, m)[..|job.inputs| + n] == Values(job, n)
  {
    hide Eval;
    if n < m {
      ValuesPrefix(job, n, m - 1);
      ValuesGrow(job, m - 1);
      assert Values(job, m)[..|job.inputs| + n] == Values(job, m)[..|job.inputs| + m - 1][..|job.inputs| + n];
    } else {
      assert Values(job, m)[..|job.inputs| + n] == Values(job, n);
    }
  }

  /** The table's entry of a call is the call evaluated on the table. */
  lemma CallValue(job: Job, n: nat, t: nat)
    requires Causal(job) && n <= |job.calls| && |job.inputs| <= t < |job.inputs| + n
    ensures CallCausal(job, t - |job.inputs|)
    ensures Values(job, n)[t] == Eval(Values(job, n), job.calls[t - |job.inputs|])
  {
    hide Values, ComputeNow;
    var k := t - |job.inputs|;
    assert CallCausal(job, k);
    ValuesGrow(job, k);
    ValuesPrefix(job, k + 1, n);
    ValuesPrefix(job, k, n);
    assert Values(job, n)[t] == Values(job, n)[..|job.inputs| + k + 1][t];
    GatherAppend(Values(job, k), Values(job, n)[|job.inputs| + k..], job.calls[k].args);
    assert Values(job, k) + Values(job, n)[|job.inputs| + k..] == Values(job, n);
  }

  /** A worker's step completes one open future, with the value of its call: the promise is never broken. */
  lemma WorkResult(job: Job, s: Exec, place: Place)
    requires Inv(job, s) && CanWork(job, s, place)
    ensures var t := Queue(s, place)[0]; var s' := Work(job, s, place);
      && s.futures[t].done.None?
      && s'.futures == s.futures[t := s.futures[t].(done := Some(Values(job, |s.futures| - |job.inputs|)[t]))]
  {
    hide Values, ComputeNow;
    var t := Queue(s, place)[0];
    assert QueueOk(job, s.futures, Queue(s, place), place);
    assert Queued(job, s.futures, t, place);
    assert FutureOk(job, s, t);
    var k := t - |job.inputs|;
    assert CallCausal(job, k);
    PeekIsGather(job, s, job.calls[k].args);
    CallValue(job, |s.futures| - |job.inputs|, t);
  }

  lemma WorkKeeps(job: Job, s: Exec, place: Place)
    requires Inv(job, s) && CanWork(job, s, place)
    ensures Inv(job, Work(job, s, place))
  {
    hide Values, Peek, Settle, ComputeNow, CanWork, QueuesOk, AllQueued, Work, FutureOk;
    var s' := Work(job, s, place);
    WorkResult(job, s, place);
    WorkFutures(job, s, place);
    WorkQueues(job, s, place);
  }

  lemma WorkFutures(job: Job, s: Exec, place: Place)
    requires Inv(job, s) && CanWork(job, s, place)
    ensures forall u :: 0 <= u < |s.futures| ==> FutureOk(job, Work(job, s, place), u)
  {
    hide Values, Peek, Settle, ComputeNow, Work, CanWork, QueuesOk, AllQueued;
    WorkResult(job, s, place);
    forall u | 0 <= u < |s.futures| ensures FutureOk(job, Work(job, s, place), u) {
      assert FutureOk(job, s, u);
    }
  }

  /** A worker's step pops its own queue. */
  lemma WorkPops(job: Job, s: Exec, place: Place, other: Place)
    requires Causal(job) && CanWork(job, s, place)
    ensures Queue(Work(job, s, place), other) == if other == place then Queue(s, place)[1..] else Queue(s, other)
  {
    hide Peek, Settle, ComputeNow;
  }

  lemma WorkQueues(job: Job, s: Exec, place: Place)
    requires Inv(job, s) && CanWork(job, s, place)
    ensures QueuesOk(job, Work(job, s, place)) && AllQueued(job, Work(job, s, place))
  {
    hide Values, CanWork, FutureOk, Work, QueueOk, Queue;
    var s' := Work(job, s, place);
    WorkResult(job, s, place);
    HeadExists(job, s, place);
    forall other ensures QueueOk(job, s'.futures, Queue(s', other), other) {
      assert QueueOk(job, s.futures, Queue(s, other), other);
      assert QueueOk(job, s.futures, Queue(s, place), place);
      WorkPops(job, s, place, other);
      QueueShrinks(job, s.futures, s'.futures, Queue(s, place), place, other, Queue(s, other));
    }
    forall u | 0 <= u < |s'.futures| && s'.futures[u].done.None?
      ensures IsTask(job, u) && u in Queue(s', job.calls[u - |job.inputs|].op.place)
    {
      var home := job.calls[u - |job.inputs|].op.place;
      assert u in Queue(s, home);
      WorkPops(job, s, place, home);
      if home == place {
        Behind(Queue(s, place), u);
      }
    }
  }

  lemma HeadExists(job: Job, s: Exec, place: Place)
    requires Causal(job) && CanWork(job, s, place)
    ensures Queue(s, place) != [] && Queue(s, place)[0] < |s.futures|
  {
  }

  lemma Behind(queue: seq<nat>, u: nat)
    requires u in queue && u != queue[0]
    ensures u in queue[1..]
  {
    assert queue == [queue[0]] + queue[1..];
  }

  /** Completing the first task of one queue leaves the rest of it, and every other queue, in order. */
  lemma QueueShrinks(
      job: Job, futures: seq<Future>, after: seq<Future>, queue: seq<nat>, place: Place, other: Place, others: seq<nat>)
    requires queue != [] && QueueOk(job, futures, queue, place) && QueueOk(job, futures, others, other)
    requires |after| == |futures| && forall u :: 0 <= u < |futures| && u != queue[0] ==> after[u] == futures[u]
    ensures QueueOk(job, after, queue[1..], place)
    ensures other != place ==> QueueOk(job, after, others, other)
  {
    hide IsTask;
    assert Queued(job, futures, queue[0], place);
    forall i | 0 <= i < |queue| - 1 ensures Queued(job, after, queue[1..][i], place) {
      assert Queued(job, futures, queue[i + 1], place);
    }
    forall i | 0 <= i < |others| && other != place ensures Queued(job, after, others[i], other) {
      assert Queued(job, futures, others[i], other);
    }
  }

  // ---- Progress and completion ----

  /** The earliest unfinished task can always run: its operands are complete and it is first in its queue. */
  lemma EarliestCanWork(job: Job, s: Exec, t: nat)
    requires Inv(job, s) && t < |s.futures| && s.futures[t].done.None?
    requires forall u :: 0 <= u < t ==> s.futures[u].done.Some?
    ensures IsTask(job, t) && CanWork(job, s, job.calls[t - |job.inputs|].op.place)
    ensures Queue(s, job.calls[t - |job.inputs|].op.place)[0] == t
  {
    hide Values, FutureOk;
    var k := t - |job.inputs|;
    var place := job.calls[k].op.place;
    assert QueueOk(job, s.futures, Queue(s, place), place) && CallCausal(job, k);
    var i :| 0 <= i < |Queue(s, place)| && Queue(s, place)[i] == t;
    FirstIsLeast(Queue(s, place), i);
    assert Queued(job, s.futures, Queue(s, place)[0], place);
    PeekWorks(s, job.calls[k].args);
  }

  lemma FirstIsLeast(queue: seq<nat>, i: nat)
    requires Ascending(queue) && i < |queue|
    ensures queue[0] <= queue[i]
  {
  }

  lemma {:induction false} PeekWorks(s: Exec, args: seq<nat>)
    requires forall i :: 0 <= i < |args| ==> args[i] < |s.futures| && s.futures[args[i]].done.Some?
    ensures Peek(s, args).Some?
  {
    if args != [] {
      assert args[0] < |s.futures|;
      PeekWorks(s, args[1..]);
    }
  }

  /** Open futures below `n`. */
  function Open(s: Exec, n: nat): nat
    requires n <= |s.futures|
  {
    if n == 0 then 0 else Open(s, n - 1) + if s.futures[n - 1].done.None? then 1 else 0
  }

  lemma {:induction false} FirstOpen(s: Exec, n: nat) returns (t: nat)
    requires n <= |s.futures| && Open(s, n) > 0
    ensures t < n && s.futures[t].done.None? && forall u :: 0 <= u < t ==> s.futures[u].done.Some?
  {
    if Open(s, n - 1) > 0 {
      t := FirstOpen(s, n - 1);
    } else {
      t := n - 1;
      NoneOpen(s, n - 1);
    }
  }

  lemma {:induction false} NoneOpen(s: Exec, n: nat)
    requires n <= |s.futures|
    ensures Open(s, n) == 0 <==> forall u :: 0 <= u < n ==> s.futures[u].done.Some?
  {
    if n > 0 {
      NoneOpen(s, n - 1);
    }
  }

  lemma {:induction false} OpenCloses(s: Exec, s': Exec, t: nat, n: nat)
    requires |s'.futures| == |s.futures| && n <= |s.futures| && t < |s.futures| && s.futures[t].done.None? && s'.futures[t].done.Some?
    requires forall u :: 0 <= u < |s.futures| && u != t ==> s'.futures[u] == s.futures[u]
    ensures Open(s', n) == Open(s, n) - if t < n then 1 else 0
  {
    if n > 0 {
      OpenCloses(s, s', t, n - 1);
    }
  }

  /** Every worker step closes exactly one open future, so at most `Open` steps are ever taken without a new
      call. */
  lemma WorkCloses(job: Job, s: Exec, place: Place)
    requires Inv(job, s) && CanWork(job, s, place)
    ensures Open(Work(job, s, place), |s.futures|) == Open(s, |s.futures|) - 1
  {
    hide Values, Peek, Settle, ComputeNow, Open, Work;
    WorkResult(job, s, place);
    OpenCloses(s, Work(job, s, place), Queue(s, place)[0], |s.futures|);
  }

  /** No deadlock among the workers: while a future is open some worker can complete a task, whatever else
      (a publisher holding the cluster's lock, a stopped executor) is waiting. */
  lemma SomeWorkerCanWork(job: Job, s: Exec) returns (place: Place)
    requires Inv(job, s) && exists t :: 0 <= t < |s.futures| && s.futures[t].done.None?
    ensures CanWork(job, s, place)
  {
    hide Values, FutureOk;
    NoneOpen(s, |s.futures|);
    var t := FirstOpen(s, |s.futures|);
    EarliestCanWork(job, s, t);
    place := job.calls[t - |job.inputs|].op.place;
  }

  /** A schedule of workers alone completes any future, so a materialize never waits forever. */
  lemma {:induction false} WorkersAlone(job: Job, s: Exec, t: nat) returns (run: seq<Exec>)
    requires Inv(job, s) && t < |s.futures|
    ensures run != [] && run[0] == s && WorkerRun(job, run)
    ensures var last := run[|run| - 1]; Inv(job, last) && t < |last.futures| && last.futures[t].done.Some?
    decreases Open(s, |s.futures|)
  {
    hide Values, FutureOk, Open, Work, CanWork, QueueOk;
    if s.futures[t].done.Some? {
      run := [s];
    } else {
      var place := SomeWorkerCanWork(job, s);
      WorkKeeps(job, s, place);
      WorkCloses(job, s, place);
      var rest := WorkersAlone(job, Work(job, s, place), t);
      RunStarts(job, s, place, rest);
      run := [s] + rest;
    }
  }

  lemma RunStarts(job: Job, s: Exec, place: Place, rest: seq<Exec>)
    requires Causal(job) && CanWork(job, s, place) && rest != [] && rest[0] == Work(job, s, place) && WorkerRun(job, rest)
    ensures WorkerRun(job, [s] + rest)
  {
    hide CanWork, Work;
    var run := [s] + rest;
    forall i | 0 <= i < |run| - 1 ensures WorkerStep(job, run[i], run[i + 1]) {
      if i > 0 {
        assert WorkerStep(job, rest[i - 1], rest[i - 1 + 1]);
      }
    }
  }

  /** Some worker completes its first task. */
  ghost predicate WorkerStep(job: Job, s: Exec, s': Exec) {
    Causal(job) && exists place :: CanWork(job, s, place) && s' == Work(job, s, place)
  }

  ghost predicate WorkerRun(job: Job, run: seq<Exec>) {
    forall i :: 0 <= i < |run| - 1 ==> WorkerStep(job, run[i], run[i + 1])
  }

  // ---- Refinement of synchronous mode ----

  /** Any run of the executor: calls submitted in order, workers interleaved in any way, possibly a stop. */
  ghost predicate Step(job: Job, s: Exec, s': Exec) {
    && Causal(job)
    && (|| WorkerStep(job, s, s')
        || (|job.inputs| <= |s.futures| < |job.inputs| + |job.calls| && CallCausal(job, |s.futures| - |job.inputs|) &&
            Submit(s, job.calls[|s.futures| - |job.inputs|]) == Success(s'))
        || s' == s.(stopped := true))
  }

  ghost predicate IsRun(job: Job, run: seq<Exec>) {
    Causal(job) && run != [] && run[0] == Start(job) && forall i :: 0 <= i < |run| - 1 ==> Step(job, run[i], run[i + 1])
  }

  lemma StepKeeps(job: Job, s: Exec, s': Exec)
    requires Inv(job, s) && Step(job, s, s')
    ensures Inv(job, s')
  {
    hide Values, FutureOk, Work, CanWork, Submit;
    if place :| CanWork(job, s, place) && s' == Work(job, s, place) {
      WorkKeeps(job, s, place);
    } else if s' == s.(stopped := true) {
      StopKeeps(job, s);
    } else {
      SubmitKeeps(job, s);
    }
  }

  lemma StopKeeps(job: Job, s: Exec)
    requires Inv(job, s)
    ensures Inv(job, s.(stopped := true))
  {
    hide Values;
    var s' := s.(stopped := true);
    forall t | 0 <= t < |s.futures| ensures FutureOk(job, s', t) {
      assert FutureOk(job, s, t);
    }
    assert forall place :: Queue(s', place) == Queue(s, place);
  }

  lemma {:induction false} RunKeeps(job: Job, run: seq<Exec>, i: nat)
    requires IsRun(job, run) && i < |run|
    ensures Inv(job, run[i])
  {
    hide Inv, Step, Start;
    if i == 0 {
      StartKeeps(job);
    } else {
      RunKeeps(job, run, i - 1);
      StepKeeps(job, run[i - 1], run[i]);
    }
  }

  /** Asynchronous execution refines the calls: in every state of every run a complete future holds the value
      of its call, with the signature promised when it was submitted. */
  lemma AsyncRefines(job: Job, run: seq<Exec>, i: nat, t: nat)
    requires IsRun(job, run) && i < |run| && t < |run[i].futures| && run[i].futures[t].done.Some?
    ensures t < |job.inputs| + |job.calls|
    ensures var r := run[i].futures[t].done.value;
      r == Values(job, |job.calls|)[t] && (r.Success? ==> r.value.Signature() == run[i].futures[t].promise)
  {
    hide IsRun, Values;
    RunKeeps(job, run, i);
    var n := |run[i].futures| - |job.inputs|;
    assert FutureOk(job, run[i], t);
    ValuesPrefix(job, n, |job.calls|);
    assert Values(job, |job.calls|)[t] == Values(job, |job.calls|)[..|run[i].futures|][t];
  }

  /** Single assignment: a complete future is never touched again. */
  lemma CompleteIsFinal(job: Job, s: Exec, s': Exec, t: nat)
    requires Inv(job, s) && Step(job, s, s') && t < |s.futures| && s.futures[t].done.Some?
    ensures t < |s'.futures| && s'.futures[t] == s.futures[t]
  {
    hide Values, Peek, Settle, ComputeNow;
    if place :| CanWork(job, s, place) && s' == Work(job, s, place) {
      WorkResult(job, s, place);
    }
  }

  /** Synchronous mode throws exactly when some call has no value, and otherwise returns those values. */
  lemma {:induction false} SyncIsValues(job: Job, n: nat)
    requires Causal(job) && n <= |job.calls|
    ensures RunSync(job, n).Success? <==> forall t :: 0 <= t < |job.inputs| + n ==> Values(job, n)[t].Success?
    ensures RunSync(job, n).Success? ==> forall t :: 0 <= t < |job.inputs| + n ==> Values(job, n)[t] == Success(RunSync(job, n).value[t])
  {
    hide ComputeNow;
    if n > 0 {
      SyncIsValues(job, n - 1);
      ValuesGrow(job, n - 1);
      var call := job.calls[n - 1];
      if RunSync(job, n - 1).Success? {
        var values := RunSync(job, n - 1).value;
        var args := seq(|call.args|, i requires 0 <= i < |call.args| => values[call.args[i]]);
        GatherSucceeds(Values(job, n - 1), call.args, args);
      } else {
        var t :| 0 <= t < |job.inputs| + n - 1 && Values(job, n - 1)[t].Failure?;
        assert Values(job, n)[t].Failure?;
      }
    }
  }

  lemma {:induction false} GatherSucceeds(table: seq<Outcome>, args: seq<nat>, values: seq<Payload>)
    requires |values| == |args| && forall i :: 0 <= i < |args| ==> args[i] < |table| && table[args[i]] == Success(values[i])
    ensures Gather(table, args) == Success(values)
  {
    if args != [] {
      assert table[args[0]] == Success(values[0]);
      forall i | 0 <= i < |args[1..]| ensures args[1..][i] < |table| && table[args[1..][i]] == Success(values[1..][i]) {
        assert table[args[i + 1]] == Success(values[i + 1]);
      }
      GatherSucceeds(table, args[1..], values[1..]);
      assert values == [values[0]] + values[1..];
    }
  }

  /** The refinement theorem: when synchronous mode completes a job, no submission fails in any asynchronous
      run, and every complete future of every such run holds the synchronous value. */
  lemma AsyncEqualsSync(job: Job, run: seq<Exec>, i: nat, t: nat)
    requires IsRun(job, run) && i < |run| && t < |run[i].futures| && RunSync(job, |job.calls|).Success?
    ensures t < |job.inputs| + |job.calls|
    ensures run[i].futures[t].done.Some? ==> run[i].futures[t].done.value == Success(RunSync(job, |job.calls|).value[t])
    ensures |run[i].futures| < |job.inputs| + |job.calls| && !run[i].stopped ==>
      && |run[i].futures| >= |job.inputs|
      && CallCausal(job, |run[i].futures| - |job.inputs|)
      && Submit(run[i], job.calls[|run[i].futures| - |job.inputs|]).Success?
  {
    hide IsRun, Values, RunSync, FutureOk, QueueOk;
    RunKeeps(job, run, i);
    SyncIsValues(job, |job.calls|);
    if run[i].futures[t].done.Some? {
      AsyncRefines(job, run, i, t);
    }
    if |run[i].futures| < |job.inputs| + |job.calls| && !run[i].stopped {
      SubmitWorks(job, run[i]);
    }
  }

  lemma SubmitWorks(job: Job, s: Exec)
    requires Inv(job, s) && |s.futures| < |job.inputs| + |job.calls| && !s.stopped
    requires forall t :: 0 <= t < |job.inputs| + |job.calls| ==> Values(job, |job.calls|)[t].Success?
    ensures CallCausal(job, |s.futures| - |job.inputs|)
    ensures Submit(s, job.calls[|s.futures| - |job.inputs|]).Success?
  {
    hide Values, Eval, ComputeMetadata;
    var n := |s.futures| - |job.inputs|;
    assert CallCausal(job, n);
    var call := job.calls[n];
    ValuesGrow(job, n);
    ValuesPrefix(job, n + 1, |job.calls|);
    assert Values(job, n + 1)[|s.futures|] == Values(job, |job.calls|)[|s.futures|];
    forall k | 0 <= k < |call.args| && Values(job, n)[call.args[k]].Success?
      ensures Values(job, n)[call.args[k]].value.Signature() == Promises(s, call.args)[k]
    {
      assert FutureOk(job, s, call.args[k]);
    }
    PromiseKept(Values(job, n), Promises(s, call.args), call);
  }

  // ---- The executor object ----

  /** The futures, the submitted calls and the per-Place queues of future numbers. `job` is the whole sequence
      of calls the caller is going to make. */
  class VecExecutor {
    ghost const job: Job
    const inputCount: nat
    var futures: seq<Future>
    var calls: seq<Call>
    var queues: map<Place, seq<nat>>
    var stopped: bool

    constructor (ghost job: Job, inputs: seq<Payload>)
      requires Causal(job) && job.inputs == inputs
      ensures this.job == job && Valid() && State() == Start(job)
    {
      this.job, inputCount := job, |inputs|;
      futures := seq(|inputs|, i requires 0 <= i < |inputs| => Future(inputs[i].Signature(), Some(Success(inputs[i]))));
      calls, queues, stopped := [], map[], false;
      new;
      assert State() == Start(job);
      StartKeeps(job);
    }

    function State(): Exec
      reads this
    {
      Exec(futures, queues, stopped)
    }

    ghost predicate Valid()
      reads this
    {
      && Inv(job, State())
      && inputCount == |job.inputs|
      && |futures| == inputCount + |calls| && calls == job.calls[..|calls|]
    }

    /** `compute` in asynchronous mode. */
    method Compute(call: Call) returns (r: Checked<nat>)
      requires Valid() && |calls| < |job.calls| && job.calls[|calls|] == call
      modifies this
      ensures Valid() && CallCausal(job, old(|calls|))
      ensures forall i :: 0 <= i < |call.args| ==> call.args[i] < old(|futures|)
      ensures match Submit(old(State()), call)
              case Success(s) => r == Success(old(|futures|)) && State() == s
              case Failure(_) => r.Failure? && State() == old(State())
    {
      hide ComputeMetadata, FutureOk, QueuesOk, AllQueued;
      SubmitKeeps(job, State());
      assert CallCausal(job, |calls|);
      var meta := ComputeMetadata(call.op, Promises(State(), call.args));
      if meta.Failure? { return Failure(meta.error); }
      if stopped { return Failure(WrongPayload); }
      var t := |futures|;
      queues := queues[call.op.place := Queue(State(), call.op.place) + [t]];
      futures := futures + [Future(Sig(Ciphertext, meta.value), None)];
      calls := calls + [call];
      r := Success(t);
    }

    /** The first task of a queue has all the operands it needs. */
    predicate Workable(place: Place)
      reads this
    {
      && Queue(State(), place) != []
      && var t := Queue(State(), place)[0];
      && inputCount <= t < inputCount + |calls| && t < |futures|
      && var args := calls[t - inputCount].args;
      && (forall i :: 0 <= i < |args| ==> args[i] < |futures|)
      && Peek(State(), args).Some?
    }

    lemma WorkableIsCanWork(place: Place)
      requires Valid()
      ensures CanWork(job, State(), place) <==> Workable(place)
    {
      hide Values, FutureOk, Peek;
      if Queue(State(), place) != [] {
        var t := Queue(State(), place)[0];
        assert QueueOk(job, futures, Queue(State(), place), place);
        assert Queued(job, futures, t, place) && CallCausal(job, t - inputCount);
      }
    }

    /** One turn of a worker: take the first task, materialize its operands in order, complete its future. */
    method RunTask(place: Place)
      requires Valid() && Workable(place)
      modifies this
      ensures Valid() && calls == old(calls)
      ensures CanWork(job, old(State()), place) && State() == Work(job, old(State()), place)
    {
      hide ComputeNow, Settle, Peek, FutureOk, QueuesOk, AllQueued;
      WorkableIsCanWork(place);
      WorkKeeps(job, State(), place);
      var queue := Queue(State(), place);
      var t := queue[0];
      var call := calls[t - inputCount];
      assert call == job.calls[t - inputCount];
      var args := Materialize(call.args);
      var r := if args.Failure? then Failure(args.error) else ComputeNow(call.op, args.value);
      queues := queues[place := queue[1..]];
      futures := futures[t := futures[t].(done := Some(Settle(futures[t].promise, r)))];
      assert State() == Work(job, old(State()), place);
    }

    /** `materialize` on every operand in turn; the first error is rethrown at once. */
    method Materialize(args: seq<nat>) returns (r: Checked<seq<Payload>>)
      requires forall i :: 0 <= i < |args| ==> args[i] < |futures|
      requires Peek(State(), args).Some?
      ensures r == Peek(State(), args).value
    {
      if args == [] { return Success([]); }
      match futures[args[0]].done.value {
        case Failure(e) => return Failure(e);
        case Success(v) =>
          r := Materialize(args[1..]);
          if r.Success? { r := Success([v] + r.value); }
      }
    }

    /** `stop`: no more tasks are accepted, and the queues are drained before the workers are joined. */
    method Stop()
      requires Valid()
      modifies this
      ensures Valid() && stopped && |futures| == old(|futures|) && calls == old(calls)
      ensures forall t :: 0 <= t < |futures| ==> futures[t].done == Some(Values(job, |calls|)[t])
    {
      hide Values, FutureOk, QueuesOk, AllQueued, Work, CanWork;
      StopKeeps(job, State());
      stopped := true;
      while exists t :: 0 <= t < |futures| && futures[t].done.None?
        invariant Valid() && stopped && |futures| == old(|futures|) && calls == old(calls)
        decreases Open(State(), |futures|)
      {
        ghost var ready := SomeWorkerCanWork(job, State());
        WorkableIsCanWork(ready);
        QueuedPlace(State(), ready);
        var place :| place in queues && Workable(place);
        WorkableIsCanWork(place);
        WorkCloses(job, State(), place);
        RunTask(place);
      }
      forall t | 0 <= t < |futures| ensures futures[t].done == Some(Values(job, |calls|)[t]) {
        DoneValue(job, State(), t);
      }
    }
  }

  lemma QueuedPlace(s: Exec, place: Place)
    ensures Queue(s, place) != [] ==> place in s.queues
  {
  }

  lemma DoneValue(job: Job, s: Exec, t: nat)
    requires Inv(job, s) && t < |s.futures| && s.futures[t].done.Some?
    ensures s.futures[t].done.value == Values(job, |s.futures| - |job.inputs|)[t]
  {
    hide Values;
    assert FutureOk(job, s, t);
  }
}
