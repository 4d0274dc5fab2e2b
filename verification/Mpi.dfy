/** Message tags, slot bookkeeping and the wire header of the MPI transport (api/mpi_api.cpp). The MPI calls
    themselves are not part of this model. */
module Mpi {
  import opened Wrappers
  import opened Plan
  import opened Rules
  import opened Vec
  import opened Semantics
  import opened RankState
  import opened RankInvariant
  import opened ProtocolSafety

  type UInt64 = x: nat | x < TWO_64

  datatype MpiError = SlotExceedsLayout | IdExceedsBound | ContextTooLong | InvalidKind | InvalidSlotCount | WrongInputs

  // ---- Tags ----

  /** `tag`, in 64-bit arithmetic; `upper` is the attribute MPI_TAG_UB, which MPI promises to be positive. */
  function Tag(id: UInt64, slot: nat, part: int, upper: Int32): (r: Result<UInt64, MpiError>)
    requires upper >= 0
  {
    if slot >= 32 || part < 0 || part > 1 then Failure(SlotExceedsLayout)
    else
      var suffix := slot * 2 + part;
      if suffix > upper || id > (upper - suffix) / 64 then Failure(IdExceedsBound)
      else Success((id * 64 % TWO_64 + suffix) % TWO_64)
  }

  /** The guard accepts exactly when slot and part fit the layout and the mathematical value fits the bound;
      then nothing has wrapped around. */
  lemma TagExact(id: UInt64, slot: nat, part: int, upper: Int32)
    requires upper >= 0
    ensures Tag(id, slot, part, upper).Success? <==> slot < 32 && 0 <= part <= 1 && 64 * id + 2 * slot + part <= upper
    ensures Tag(id, slot, part, upper).Success? ==> Tag(id, slot, part, upper).value == 64 * id + 2 * slot + part
  {
    var suffix := slot * 2 + part;
    if 0 <= suffix <= upper {
      Quotient(id, upper - suffix);
    }
  }

  lemma Quotient(id: nat, room: nat)
    ensures id <= room / 64 <==> 64 * id <= room
  {
  }

  lemma TagInjective(id: UInt64, slot: nat, part: int, id': UInt64, slot': nat, part': int, upper: Int32)
    requires upper >= 0 && Tag(id, slot, part, upper).Success? && Tag(id', slot', part', upper).Success?
    requires Tag(id, slot, part, upper) == Tag(id', slot', part', upper)
    ensures id == id' && slot == slot' && part == part'
  {
    hide Tag;
    TagExact(id, slot, part, upper);
    TagExact(id', slot', part', upper);
  }

  /** All messages of an accepted plan that pass the guard carry distinct tags: the tag determines the
      instruction, the slot and the part. */
  lemma TagsAreDistinct(p: Program, loaded: LoadedSpec, skip: bool, c: nat, d: nat, slot: nat, slot': nat, part: int, part': int, upper: Int32)
    requires WellFormed(p.plan, loaded, skip) && upper >= 0
    requires c < |p.Code()| && p.Code()[c].body.Comm? && p.Code()[c].body.action.id < TWO_64
    requires d < |p.Code()| && p.Code()[d].body.Comm? && p.Code()[d].body.action.id < TWO_64
    requires Tag(p.Code()[c].body.action.id, slot, part, upper).Success?
    requires Tag(p.Code()[c].body.action.id, slot, part, upper) == Tag(p.Code()[d].body.action.id, slot', part', upper)
    ensures c == d && slot == slot' && part == part'
  {
    hide WellFormed, Tag;
    TagInjective(p.Code()[c].body.action.id, slot, part, p.Code()[d].body.action.id, slot', part', upper);
    TransferIsUnique(p, loaded, skip, c, d);
  }

  // ---- Slots of a transfer ----

  datatype Item = Item(slot: nat, value: Payload)

  /** What one `communicate_async` keeps for its `wait`. */
  datatype Handle = Handle(localSlots: seq<nat>, sends: seq<nat>, receives: seq<nat>, locals: seq<Item>)

  predicate Ascending(s: seq<nat>) {
    forall i, j :: 0 <= i < j < |s| ==> s[i] < s[j]
  }

  function SlotsOf(items: seq<Item>): (s: seq<nat>)
    ensures |s| == |items| && forall i :: 0 <= i < |s| ==> s[i] == items[i].slot
  {
    seq(|items|, i requires 0 <= i < |items| => items[i].slot)
  }

  /** Every slot with a destination here is a local copy on the source rank and a receive elsewhere; every slot
      with a remote destination is a send on the source rank. */
  ghost predicate Divided(action: CommAction, rank: int, h: Handle, n: nat)
    requires n <= |action.destinations| && action.sources != []
  {
    var here := action.sources[0].rank == rank;
    && Ascending(SlotsOf(h.locals)) && Ascending(h.receives) && Ascending(h.sends)
    && (forall s: nat :: s in SlotsOf(h.locals) <==> s < n && here && action.destinations[s].rank == rank)
    && (forall s: nat :: s in h.receives <==> s < n && !here && action.destinations[s].rank == rank)
    && (forall s: nat :: s in h.sends <==> s < n && here && action.destinations[s].rank != rank)
  }

  /** The slots a rank waits for are its local copies and its receives, and no slot is both. */
  lemma DividedFits(action: CommAction, rank: int, h: Handle)
    requires action.sources != [] && Divided(action, rank, h, |action.destinations|)
    requires h.localSlots == LocalSlots(action.destinations, rank)
    ensures Ascending(h.localSlots)
    ensures forall s: nat :: s in h.localSlots <==> s in SlotsOf(h.locals) || s in h.receives
    ensures forall s :: s in SlotsOf(h.locals) ==> s !in h.receives
  {
  }

  method CommunicateAsync(action: CommAction, rank: int, inputs: seq<Payload>) returns (r: Result<Handle, MpiError>)
    requires action.sources != []
    ensures r.Success? <==> |inputs| == if action.sources[0].rank == rank then 1 else 0
    ensures r.Success? ==> r.value.localSlots == LocalSlots(action.destinations, rank)
    ensures r.Success? ==> Divided(action, rank, r.value, |action.destinations|)
    ensures r.Success? ==> forall i :: 0 <= i < |r.value.locals| ==> [r.value.locals[i].value] == inputs
  {
    var here := action.sources[0].rank == rank;
    if (here && |inputs| != 1) || (!here && inputs != []) { return Failure(WrongInputs); }
    var locals: seq<Item> := [];
    var sends: seq<nat> := [];
    var receives: seq<nat> := [];
    for slot := 0 to |action.destinations|
      invariant Ascending(SlotsOf(locals)) && Ascending(receives) && Ascending(sends)
      invariant forall s: nat :: s in SlotsOf(locals) <==> s < slot && here && action.destinations[s].rank == rank
      invariant forall s: nat :: s in receives <==> s < slot && !here && action.destinations[s].rank == rank
      invariant forall s: nat :: s in sends <==> s < slot && here && action.destinations[s].rank != rank
      invariant forall i :: 0 <= i < |locals| ==> [locals[i].value] == inputs
    {
      var destination := action.destinations[slot].rank;
      if here && destination == rank {
        assert SlotsOf(locals + [Item(slot, inputs[0])]) == SlotsOf(locals) + [slot];
        AppendAscending(SlotsOf(locals), slot);
        locals := locals + [Item(slot, inputs[0])];
      } else if here {
        AppendAscending(sends, slot);
        sends := sends + [slot];
      } else if destination == rank {
        AppendAscending(receives, slot);
        receives := receives + [slot];
      }
    }
    var slots := LocalSlots(action.destinations, rank);
    r := Success(Handle(slots, sends, receives, locals));
  }

  // ---- Sorting the completed slots ----

  function Insert(item: Item, sorted: seq<Item>): (r: seq<Item>)
    ensures |r| == |sorted| + 1
  {
    if sorted == [] || item.slot < sorted[0].slot then [item] + sorted
    else [sorted[0]] + Insert(item, sorted[1..])
  }

  function Sort(items: seq<Item>): (r: seq<Item>)
    ensures |r| == |items|
  {
    if items == [] then [] else Insert(items[|items| - 1], Sort(items[..|items| - 1]))
  }

  lemma SlotsCons(item: Item, items: seq<Item>)
    ensures SlotsOf([item] + items) == [item.slot] + SlotsOf(items)
  {
  }

  lemma AscendingCons(x: nat, s: seq<nat>)
    ensures Ascending([x] + s) <==> Ascending(s) && forall y :: y in s ==> x < y
  {
    var t := [x] + s;
    assert t[0] == x && forall i :: 0 <= i < |s| ==> t[i + 1] == s[i];
    if Ascending(t) {
      forall i, j | 0 <= i < j < |s| ensures s[i] < s[j] {
        assert t[i + 1] < t[j + 1];
      }
      forall y | y in s ensures x < y {
        var i :| 0 <= i < |s| && s[i] == y;
        assert t[0] < t[i + 1];
      }
    }
    if Ascending(s) && forall y :: y in s ==> x < y {
      forall i, j | 0 <= i < j < |t| ensures t[i] < t[j] {
        assert t[j] == s[j - 1] && s[j - 1] in s;
        assert i > 0 ==> t[i] == s[i - 1];
      }
    }
  }

  lemma {:induction false} InsertKeeps(item: Item, sorted: seq<Item>)
    requires Ascending(SlotsOf(sorted)) && item.slot !in SlotsOf(sorted)
    ensures var r := Insert(item, sorted);
      Ascending(SlotsOf(r)) && (forall x :: x in r <==> x == item || x in sorted) && (forall s :: s in SlotsOf(r) <==> s == item.slot || s in SlotsOf(sorted))
  {
    hide Ascending, SlotsOf;
    SlotsCons(item, sorted);
    AscendingCons(item.slot, SlotsOf(sorted));
    if sorted != [] {
      var head, tail := sorted[0], sorted[1..];
      assert sorted == [head] + tail;
      SlotsCons(head, tail);
      AscendingCons(head.slot, SlotsOf(tail));
      if !(item.slot < head.slot) {
        InsertKeeps(item, tail);
        SlotsCons(head, Insert(item, tail));
        AscendingCons(head.slot, SlotsOf(Insert(item, tail)));
      }
    }
  }

  lemma {:induction false} SortKeeps(items: seq<Item>)
    requires forall i, j :: 0 <= i < j < |items| ==> items[i].slot != items[j].slot
    ensures Ascending(SlotsOf(Sort(items))) && (forall x :: x in Sort(items) <==> x in items)
    ensures forall s :: s in SlotsOf(Sort(items)) <==> s in SlotsOf(items)
  {
    if items != [] {
      var n := |items| - 1;
      var front := items[..n];
      SortKeeps(front);
      assert items == front + [items[n]];
      assert SlotsOf(items) == SlotsOf(front) + [items[n].slot];
      InsertKeeps(items[n], Sort(front));
    }
  }

  lemma FirstMember<T>(s: seq<T>)
    ensures s != [] ==> s[0] in s
  {
  }

  lemma AppendAscending(s: seq<nat>, x: nat)
    requires Ascending(s) && forall y :: y in s ==> y < x
    ensures Ascending(s + [x])
    ensures forall y :: y in s + [x] <==> y in s || y == x
  {
    assert forall i :: 0 <= i < |s| ==> s[i] in s;
  }

  lemma FrontOf(s: seq<nat>)
    requires Ascending(s) && s != []
    ensures forall y :: y in s[..|s| - 1] <==> y in s && y != s[|s| - 1]
    ensures forall y :: y in s ==> y <= s[|s| - 1]
    ensures Ascending(s[..|s| - 1])
  {
    assert s == s[..|s| - 1] + [s[|s| - 1]];
  }

  /** Two ascending lists of the same slots are the same list. */
  lemma {:induction false} SameAscending(a: seq<nat>, b: seq<nat>)
    requires Ascending(a) && Ascending(b) && forall s :: s in a <==> s in b
    ensures a == b
  {
    hide Ascending;
    if a == [] {
      FirstMember(b);
    } else {
      var n := |a| - 1;
      assert a[n] in b;
      FrontOf(a);
      FrontOf(b);
      assert b[|b| - 1] in a;
      assert a[n] == b[|b| - 1];
      forall s ensures s in a[..n] <==> s in b[..|b| - 1] {
        assert s in a[..n] <==> s in a && s != a[n];
        assert s in b[..|b| - 1] <==> s in b && s != b[|b| - 1];
      }
      SameAscending(a[..n], b[..|b| - 1]);
      assert a == a[..n] + [a[n]];
      assert b == b[..|b| - 1] + [b[|b| - 1]];
    }
  }

  /** What arrived, by slot. */
  function Arrivals(receives: seq<nat>, arrived: seq<Payload>, n: nat): (r: seq<Item>)
    requires n <= |receives| == |arrived|
    ensures |r| == n && forall i :: 0 <= i < n ==> r[i] == Item(receives[i], arrived[i])
  {
    seq(n, i requires 0 <= i < n => Item(receives[i], arrived[i]))
  }

  /** `wait`, given what arrived for each receive: the k-th value returned is the one for the k-th local slot,
      whatever the mix of local copies and receives was and in whatever order they were completed. */
  method Wait(h: Handle, arrived: seq<Payload>) returns (outputs: seq<Payload>)
    requires |arrived| == |h.receives| && Ascending(h.localSlots)
    requires Ascending(SlotsOf(h.locals)) && Ascending(h.receives)
    requires forall s :: s in h.localSlots <==> s in SlotsOf(h.locals) || s in h.receives
    requires forall s :: s in SlotsOf(h.locals) ==> s !in h.receives
    ensures |outputs| == |h.localSlots|
    ensures forall k :: 0 <= k < |outputs| ==>
      Item(h.localSlots[k], outputs[k]) in h.locals + Arrivals(h.receives, arrived, |arrived|)
  {
    hide Ascending, Sort, Arrivals;
    var completed := h.locals;
    assert completed == h.locals + Arrivals(h.receives, arrived, 0);
    for i := 0 to |h.receives|
      invariant completed == h.locals + Arrivals(h.receives, arrived, i)
    {
      ArrivalsStep(h.receives, arrived, i);
      completed := completed + [Item(h.receives[i], arrived[i])];
    }
    CompletedSlots(h, arrived);
    SortKeeps(completed);
    var sorted := Sort(completed);
    SameAscending(SlotsOf(sorted), h.localSlots);
    outputs := [];
    for k := 0 to |sorted|
      invariant |outputs| == k && forall j :: 0 <= j < k ==> outputs[j] == sorted[j].value
    {
      outputs := outputs + [sorted[k].value];
    }
    forall k | 0 <= k < |outputs| ensures Item(h.localSlots[k], outputs[k]) in completed {
      assert sorted[k] in sorted && SlotsOf(sorted)[k] == sorted[k].slot;
    }
  }

  lemma ArrivalsStep(receives: seq<nat>, arrived: seq<Payload>, n: nat)
    requires n < |receives| == |arrived|
    ensures Arrivals(receives, arrived, n + 1) == Arrivals(receives, arrived, n) + [Item(receives[n], arrived[n])]
  {
  }

  lemma CompletedSlots(h: Handle, arrived: seq<Payload>)
    requires |arrived| == |h.receives| && Ascending(SlotsOf(h.locals)) && Ascending(h.receives)
    requires forall s :: s in SlotsOf(h.locals) ==> s !in h.receives
    ensures var completed := h.locals + Arrivals(h.receives, arrived, |arrived|);
      && SlotsOf(completed) == SlotsOf(h.locals) + h.receives
      && forall i, j :: 0 <= i < j < |completed| ==> completed[i].slot != completed[j].slot
  {
    hide Ascending, Arrivals;
    var completed := h.locals + Arrivals(h.receives, arrived, |arrived|);
    var slots := SlotsOf(h.locals) + h.receives;
    assert SlotsOf(completed) == slots;
    Different(SlotsOf(h.locals), h.receives);
    forall i, j | 0 <= i < j < |completed| ensures completed[i].slot != completed[j].slot {
      assert completed[i].slot == slots[i] && completed[j].slot == slots[j];
    }
  }

  lemma Different(a: seq<nat>, b: seq<nat>)
    requires Ascending(a) && Ascending(b) && forall s :: s in a ==> s !in b
    ensures forall i, j :: 0 <= i < j < |a + b| ==> (a + b)[i] != (a + b)[j]
  {
    forall i, j | 0 <= i < j < |a + b| ensures (a + b)[i] != (a + b)[j] {
      if i < |a| <= j {
        assert (a + b)[i] in a && (a + b)[j] in b;
      }
    }
  }

  // ---- The wire header ----

  const NUL: char := '\0'

  datatype WireHeader = WireHeader(
    slotCount: nat, degree: nat, kind: int, level: Int32, scale: Int32, ntt: int, components: Int32, context: seq<char>)

  function KindCode(kind: ValueKind): int {
    if kind == Plaintext then 0 else 1
  }

  function EncodeHeader(v: Payload): (r: Result<WireHeader, MpiError>)
    ensures r.Success? <==> |v.meta.context| < 64
    ensures r.Success? ==> |r.value.context| == 64
  {
    if |v.meta.context| >= 64 then Failure(ContextTooLong)
    else
      Success(WireHeader(
        |v.slots|, v.meta.degree, KindCode(v.kind), v.meta.level, v.meta.scale, if v.meta.ntt then 1 else 0,
        v.meta.components, v.meta.context + seq(64 - |v.meta.context|, _ => NUL)))
  }

  /** The characters before the first NUL. */
  function UpToNul(s: seq<char>): (r: seq<char>)
    ensures r <= s && NUL !in r
    ensures |r| < |s| ==> s[|r|] == NUL
  {
    if s == [] || s[0] == NUL then [] else [s[0]] + UpToNul(s[1..])
  }

  function DecodeValue(h: WireHeader, slots: seq<Num>): Result<Payload, MpiError> {
    if h.kind != 0 && h.kind != 1 then Failure(InvalidKind)
    else
      Success(Payload(
        if h.kind == 0 then Plaintext else Ciphertext, slots,
        Meta(UpToNul(h.context), h.degree, h.level, h.scale, h.ntt != 0, h.components)))
  }

  /** The receiving side refuses empty vectors and vectors whose length is not an `int`. */
  function Receive(h: WireHeader, slots: seq<Num>): Result<Payload, MpiError> {
    if h.slotCount == 0 || h.slotCount > INT_MAX || h.slotCount != |slots| then Failure(InvalidSlotCount)
    else DecodeValue(h, slots)
  }

  /** The round trip, with its exact condition: a value that can be sent is received unchanged if and only if
      it has between one and 2^31 - 1 slots and its context contains no NUL character. */
  lemma HeaderRoundTrip(v: Payload)
    requires EncodeHeader(v).Success?
    ensures Receive(EncodeHeader(v).value, v.slots) == Success(v) <==> 0 < |v.slots| <= INT_MAX && NUL !in v.meta.context
  {
    if NUL !in v.meta.context {
      ReadsBack(v.meta.context, seq(64 - |v.meta.context|, _ => NUL));
    }
  }

  lemma {:induction false} ReadsBack(context: seq<char>, rest: seq<char>)
    requires NUL !in context && rest != [] && rest[0] == NUL
    ensures UpToNul(context + rest) == context
  {
    if context != [] {
      assert (context + rest)[1..] == context[1..] + rest;
      ReadsBack(context[1..], rest);
    }
  }
}
