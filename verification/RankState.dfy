/** One rank's memory — value store, communication groups, remaining-use counts — and the effect of
    each runtime operation on it (runtime/runtime.hpp). */
module RankState {
  import opened Wrappers
  import opened Plan
  import opened Vec
  import opened Semantics

  datatype Entry = Ready(place: Place, value: Payload) | Pending(place: Place, group: nat, slot: nat)

  /** A posted communication: its instruction, the local sources, and the local outputs with their slots. */
  datatype Group = Group(
    command: nat, inputIds: seq<ValueId>, outputIds: seq<ValueId>, slots: seq<nat>, completed: bool)

  type Store = map<ValueId, Entry>
  type Counts = map<ValueId, nat>

  datatype Local = Local(store: Store, groups: seq<Group>, uses: Counts)

  datatype RuntimeError =
    | DefinedTwice | Absent | PlaceMismatch | WrongOutputCount | InvalidValue | NoRemainingUse | CannotRelease
    | NoDescriptor | ExecutorFailed | EncodeFailed | BadLocalInput

  type Checked<+T> = Wrappers.Result<T, RuntimeError>

  /** `release_after_use`: one use less; a value with no use left leaves the store. */
  function Release(retain: bool, l: Local, id: ValueId): Checked<Local> {
    if retain then Success(l)
    else if id !in l.uses || l.uses[id] == 0 then Failure(NoRemainingUse)
    else
      var left := l.uses[id] - 1;
      var uses := l.uses[id := left];
      if left > 0 then Success(l.(uses := uses))
      else if id !in l.store then Failure(CannotRelease)
      else Success(l.(uses := uses, store := l.store - {id}))
  }

  function ReleaseAll(retain: bool, l: Local, ids: seq<ValueId>): Checked<Local>
    decreases |ids|
  {
    if ids == [] then Success(l)
    else
      var next :- Release(retain, l, ids[0]);
      ReleaseAll(retain, next, ids[1..])
  }

  function DefineReady(store: Store, id: ValueId, place: Place, v: Payload): Checked<Store> {
    if id in store then Failure(DefinedTwice) else Success(store[id := Ready(place, v)])
  }

  /** Pending entries for the local outputs of group `g`, slot by slot from `slot`. */
  function DefinePending(store: Store, ids: seq<ValueId>, places: seq<Place>, g: nat, slot: nat): Checked<Store>
    requires |ids| == |places|
    decreases |ids| - slot
  {
    if slot >= |ids| then Success(store)
    else if ids[slot] in store then Failure(DefinedTwice)
    else DefinePending(store[ids[slot] := Pending(places[slot], g, slot)], ids, places, g, slot + 1)
  }

  /** The received outputs replace their pending entries, each validated first. */
  function Install(p: Program, store: Store, ids: seq<ValueId>, outputs: seq<Payload>, k: nat): Checked<Store>
    requires |ids| == |outputs|
    decreases |ids| - k
  {
    if k >= |ids| then Success(store)
    else if ids[k] !in p.Table() then Failure(NoDescriptor)
    else if !Validates(outputs[k], p.Table()[ids[k]], p.degree) then Failure(InvalidValue)
    else if ids[k] !in store then Failure(Absent)
    else Install(p, store[ids[k] := Ready(p.Table()[ids[k]].place, outputs[k])], ids, outputs, k + 1)
  }

  /** The part of `finish_group` after `wait` has returned. */
  function CompleteGroup(p: Program, retain: bool, l: Local, g: nat, outputs: seq<Payload>): Checked<Local>
    requires g < |l.groups|
  {
    var group := l.groups[g];
    if |outputs| != |group.outputIds| then Failure(WrongOutputCount)
    else
      var store :- Install(p, l.store, group.outputIds, outputs, 0);
      var released :- ReleaseAll(retain, l.(store := store), group.inputIds);
      Success(released.(groups := l.groups[g := group.(completed := true)]))
  }

  /** The part of `execute_compute` after the operands have been collected. */
  function FinishCompute(p: Program, retain: bool, l: Local, op: ComputeOp, args: seq<Payload>): Checked<Local> {
    match ComputeNow(op, args)
    case Failure(_) => Failure(ExecutorFailed)
    case Success(v) =>
      if op.output !in p.Table() then Failure(NoDescriptor)
      else if !Validates(v, p.Table()[op.output], p.degree) then Failure(InvalidValue)
      else
        var store :- DefineReady(l.store, op.output, op.place, v);
        ReleaseAll(retain, l.(store := store), op.inputs)
  }

  /** `execute_encode` on the rank that owns the output. */
  function FinishEncode(p: Program, l: Local, payload: EncodePayload, output: ValueId): Checked<Local> {
    if output !in p.Table() then Failure(NoDescriptor)
    else
      match EncodeValue(p, payload, output)
      case None => Failure(EncodeFailed)
      case Some(v) =>
        if !Validates(v, p.Table()[output], p.degree) then Failure(InvalidValue)
        else
          var store :- DefineReady(l.store, output, p.Table()[output].place, v);
          Success(l.(store := store))
  }

  /** The sources of a communication that live on rank `r`. */
  function LocalInputs(action: CommAction, r: int): seq<ValueId> {
    if |action.inputs| != |action.sources| then [] else Pick(action.inputs, LocalSlots(action.sources, r))
  }

  function LocalOutputs(action: CommAction, r: int): seq<ValueId> {
    if |action.outputs| != |action.destinations| then [] else Pick(action.outputs, LocalSlots(action.destinations, r))
  }

  function MakeGroup(action: CommAction, r: int, command: nat): Group {
    Group(command, LocalInputs(action, r), LocalOutputs(action, r), LocalSlots(action.destinations, r), false)
  }

  /** The part of `execute_communication` after the local sources have been collected. */
  function PostComm(r: int, l: Local, command: nat, action: CommAction): Checked<Local> {
    if |action.outputs| != |action.destinations| then Failure(NoDescriptor)
    else
      var group := MakeGroup(action, r, command);
      var places := Pick(action.destinations, group.slots);
      var store :- DefinePending(l.store, group.outputIds, places, |l.groups|, 0);
      Success(l.(store := store, groups := l.groups + [group]))
  }

  /** Uses of `id` by one instruction on rank `r`. */
  function UsesIn(body: Body, r: int, id: ValueId): nat {
    match body
    case Encode(_, _) => 0
    case Compute(op) => if op.place.rank == r then Count(op.inputs, id) else 0
    case Comm(action) => Count(LocalInputs(action, r), id)
  }

  function UsesFrom(code: seq<Instruction>, r: int, n: nat, id: ValueId): nat
    requires n <= |code|
    decreases |code| - n
  {
    if n == |code| then 0 else UsesIn(code[n].body, r, id) + UsesFrom(code, r, n + 1, id)
  }

  /** Uses as a final output on its own rank. */
  function FinalUse(p: Program, r: int, id: ValueId): nat {
    if id in p.Table() && p.Table()[id].place.rank == r then Count(p.plan.finalOutputs, id) else 0
  }

  function TotalUses(p: Program, r: int, id: ValueId): nat {
    UsesFrom(p.Code(), r, 0, id) + FinalUse(p, r, id)
  }

  function InitialUses(p: Program, r: int, retain: bool): (m: Counts) {
    if retain then map[]
    else map id | id in p.Table() && TotalUses(p, r, id) > 0 :: TotalUses(p, r, id)
  }

  /** Uses of `id` by sends that have been posted and not yet waited for. */
  function PendingUses(groups: seq<Group>, id: ValueId): nat {
    if groups == [] then 0
    else
      var last := groups[|groups| - 1];
      PendingUses(groups[..|groups| - 1], id) + if last.completed then 0 else Count(last.inputIds, id)
  }

  predicate Bound(p: Program, given: set<ValueId>, id: ValueId)
    requires id in p.Table()
  {
    id in given && id in p.inputs && Validates(p.inputs[id], p.Table()[id], p.degree)
  }

  /** The external inputs that live on rank `r`. */
  function LocalExternals(p: Program, r: int): set<ValueId> {
    set id | id in p.plan.externalInputs && id in p.Table() && p.Table()[id].place.rank == r
  }

  /** `bind_inputs` of a rank that is given bindings for the identifiers `given`: every local external input
      must be bound and valid, and there may be no other binding. */
  function BindInputs(p: Program, r: int, retain: bool, given: set<ValueId>): Checked<Local> {
    if exists id :: id in LocalExternals(p, r) && !Bound(p, given, id) then Failure(BadLocalInput)
    else if |given| != |LocalExternals(p, r)| then Failure(BadLocalInput)
    else
      Success(Local(map id | id in LocalExternals(p, r) :: Ready(p.Table()[id].place, p.inputs[id]), [], InitialUses(p, r, retain)))
  }

  datatype ArtifactValue = ArtifactValue(place: Place, value: Payload)
  type Artifact = map<ValueId, ArtifactValue>

  /** `make_artifact`: every ready value, or only the final outputs of this rank. */
  function MakeArtifact(p: Program, r: int, retain: bool, store: Store): Artifact {
    if retain then map id | id in store && store[id].Ready? :: ArtifactValue(store[id].place, store[id].value)
    else
      map id | id in p.plan.finalOutputs && LocalFinal(p, r, id) && id in store && store[id].Ready? :: ArtifactValue(p.Table()[id].place, store[id].value)
  }

  predicate LocalFinal(p: Program, r: int, id: ValueId) {
    id in p.plan.finalOutputs && id in p.Table() && p.Table()[id].place.rank == r
  }

  /** The end of `run`: every local final output must be ready, then the artifact is made. */
  function Publish(p: Program, r: int, retain: bool, l: Local): Checked<Artifact> {
    if exists id :: id in p.plan.finalOutputs && LocalFinal(p, r, id) && (id !in l.store || !l.store[id].Ready?) then Failure(Absent)
    else Success(MakeArtifact(p, r, retain, l.store))
  }
}
