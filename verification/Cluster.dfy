/** The shared mock cluster as an object: start-up barrier, message table and sticky abort
    (api/mock_api.cpp). Blocking calls are methods guarded by their wait predicate. */
module Cluster {
  import opened Wrappers
  import opened Plan
  import opened Vec
  import opened Semantics
  import opened RankState
  import opened Protocol
  import opened ProtocolSafety

  datatype Exception = ClusterPanic(reason: Reason) | PreflightTwice | InjectedFault | DuplicateMessage

  class MockCluster {
    const worldSize: nat
    const faults: Faults
    var digests: map<nat, string>
    var skips: map<nat, bool>
    var messages: map<(TransferId, nat), Payload>
    var aborted: Option<Reason>

    constructor (worldSize: nat, faults: Faults)
      requires worldSize > 0
      ensures this.worldSize == worldSize && this.faults == faults && Valid()
      ensures digests == map[] && messages == map[] && aborted.None?
    {
      this.worldSize, this.faults := worldSize, faults;
      digests, skips, messages, aborted := map[], map[], map[], None;
    }

    ghost predicate Valid()
      reads this
    {
      digests.Keys == skips.Keys && forall r :: r in digests ==> r < worldSize
    }

    /** `abort_all`: the first reason is kept. */
    method AbortAll(reason: Reason)
      modifies this`aborted
      ensures aborted == if old(aborted).Some? then old(aborted) else Some(reason)
    {
      if aborted.None? { aborted := Some(reason); }
    }

    /** The first half of `preflight`: registration. */
    method Register(rank: nat, digest: string, skip: bool) returns (error: Option<Exception>)
      requires Valid() && rank < worldSize
      modifies this`digests, this`skips
      ensures Valid()
      ensures error.None? <==> rank !in old(digests)
      ensures if error.None? then digests == old(digests)[rank := digest] && skips == old(skips)[rank := skip]
              else digests == old(digests) && skips == old(skips)
    {
      if rank in digests { return Some(PreflightTwice); }
      digests := digests[rank := digest];
      skips := skips[rank := skip];
      error := None;
    }

    /** The predicate `preflight` waits for. */
    predicate Open()
      reads this
    {
      aborted.Some? || |digests| == worldSize
    }

    /** All ranks registered the same skip flag and, when digests count, the same digest. */
    ghost predicate Agreed()
      reads this`skips, this`digests
    {
      && (forall q, r :: q in skips && r in skips ==> skips[q] == skips[r])
      && (forall q, r :: q in digests && r in digests && q in skips && !skips[q] ==> digests[q] == digests[r])
    }

    /** The second half of `preflight`. It returns normally exactly when nothing has been aborted and all
        ranks agree; a disagreement aborts the cluster, so that no other rank gets through either. */
    method Leave() returns (error: Option<Exception>)
      requires Valid() && Open() && worldSize > 0
      modifies this`aborted
      ensures error.None? <==> old(aborted).None? && Agreed()
      ensures error.None? ==> aborted.None? && forall r: nat :: r < worldSize ==> r in digests
      ensures error.Some? ==> aborted.Some? && error.value == ClusterPanic(aborted.value)
      ensures old(aborted).Some? ==> aborted == old(aborted)
    {
      if aborted.Some? { return Some(ClusterPanic(aborted.value)); }
      FullSet(digests.Keys, worldSize);
      var skip := skips[0];
      for r := 0 to worldSize
        invariant forall q :: 0 <= q < r ==> skips[q] == skip
        invariant aborted.None?
      {
        if skips[r] != skip {
          assert 0 in skips && r in skips && skips[0] != skips[r];
          assert !Agreed();
          aborted := Some(SkipMismatch);
          return Some(ClusterPanic(SkipMismatch));
        }
      }
      if !skip {
        var expected := digests[0];
        for r := 0 to worldSize
          invariant forall q :: 0 <= q < r ==> digests[q] == expected
          invariant aborted.None?
        {
          if digests[r] != expected {
            assert 0 in digests && r in digests && 0 in skips;
          assert !Agreed();
            aborted := Some(DigestMismatch);
            return Some(ClusterPanic(DigestMismatch));
          }
        }
      }
      error := None;
    }

    /** `publish`: nothing is published after an abort, and nothing twice. */
    method Publish(id: TransferId, slot: nat, value: Payload) returns (error: Option<Exception>)
      modifies this`messages
      ensures error.None? <==> aborted.None? && id !in faults.failPublish && (id, slot) !in old(messages)
      ensures messages == if error.None? then old(messages)[(id, slot) := value] else old(messages)
      ensures error.Some? && error.value.ClusterPanic? <==> aborted.Some?
    {
      if aborted.Some? { return Some(ClusterPanic(aborted.value)); }
      if id in faults.failPublish { return Some(InjectedFault); }
      if (id, slot) in messages { return Some(DuplicateMessage); }
      messages := messages[(id, slot) := value];
      error := None;
    }

    /** `receive`, once its wait predicate holds: nothing is received after an abort. */
    method Receive(id: TransferId, slot: nat) returns (r: Result<Payload, Exception>)
      requires aborted.Some? || (id, slot) in messages
      ensures r.Success? <==> aborted.None? && id !in faults.failWait
      ensures r.Success? ==> (id, slot) in messages && r.value == messages[(id, slot)]
    {
      if aborted.Some? { return Failure(ClusterPanic(aborted.value)); }
      if id in faults.failWait { return Failure(InjectedFault); }
      r := Success(messages[(id, slot)]);
    }

    /** The body of a sender thread, run without interruption: it publishes every slot, or it stops after
        `done` of them with the cluster aborted. */
    method Send(command: nat, id: TransferId, destinations: nat, value: Payload) returns (done: nat)
      modifies this`messages, this`aborted
      ensures done <= destinations
      ensures messages == old(messages) + Slots(id, done, value)
      ensures forall k :: 0 <= k < done ==> (id, k) !in old(messages)
      ensures done < destinations ==> aborted.Some?
      ensures done > 0 ==> old(aborted).None?
      ensures done == destinations || old(aborted).Some? ==> aborted == old(aborted)
    {
      hide Slots;
      EmptySlots(id, value);
      done := 0;
      while done < destinations
        invariant done <= destinations && aborted == old(aborted)
        invariant done > 0 ==> aborted.None?
        invariant messages == old(messages) + Slots(id, done, value)
        invariant forall k :: 0 <= k < done ==> (id, k) !in old(messages)
      {
        var error := Publish(id, done, value);
        if error.Some? {
          if !error.value.ClusterPanic? { AbortAll(SenderFailed(command)); }
          return;
        }
        MoreSlots(old(messages), id, done, value);
        done := done + 1;
      }
    }
  }

  /** The messages of the first `n` slots of a transfer. */
  function Slots(id: TransferId, n: nat, value: Payload): map<(TransferId, nat), Payload> {
    map k: nat | k < n :: (id, k) := value
  }

  lemma EmptySlots(id: TransferId, value: Payload)
    ensures Slots(id, 0, value) == map[]
  {
  }

  lemma MoreSlots(messages: map<(TransferId, nat), Payload>, id: TransferId, n: nat, value: Payload)
    ensures messages + Slots(id, n + 1, value) == (messages + Slots(id, n, value))[(id, n) := value]
    ensures (id, n) !in messages + Slots(id, n, value) <==> (id, n) !in messages
  {
    assert forall k: nat :: (id, k) in Slots(id, n, value) <==> k < n;
    assert forall k: nat :: (id, k) in Slots(id, n + 1, value) <==> k < n + 1;
  }

  /** What the object does in one publish is the transition of a sender in the global machine. */
  lemma PublishIsSenderStep(cfg: Config, s: State, command: nat)
    requires command in s.senders && command < |cfg.program.Code()| && cfg.program.Code()[command].body.Comm?
    ensures var t := SenderStep(cfg, s, command); var id := cfg.program.Code()[command].body.action.id;
      var key := (id, s.senders[command].next);
      var ok := s.abort.None? && id !in cfg.faults.failPublish && key !in s.messages;
      && t.messages == (if ok then s.messages[key := s.senders[command].value] else s.messages)
      && (ok ==> t.abort.None?) && (!ok ==> t.abort.Some?)
      && (s.abort.Some? ==> t.abort == s.abort)
      && t.nodes == s.nodes && t.registered == s.registered
  {
  }
}
