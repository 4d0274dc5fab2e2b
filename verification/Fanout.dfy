/** The fan-out plan builder and the sequential reference executor of the test harness (testing/testing.cpp). */
module Fanout {
  import opened Wrappers
  import opened Plan
  import opened Rules
  import opened Vec
  import opened Semantics
  import opened RankInvariant
  import opened RankSteps
  import opened ProtocolNode

  const ZeroDigest := "sha256:0000000000000000000000000000000000000000000000000000000000000000"

  const Plainly := OperatorSupport(true, None)

  /** The operator spec of the tests. */
  function TestSpec(): LoadedSpec {
    LoadedSpec(
      OperatorSpec(
        1, "vec-operator-spec", 1, "vec-fixed-target", "ctx", 8192, [60, 40, 40, 40, 60], 0, 4,
        map[
          AddCC := Plainly, AddCP := Plainly, SubCC := Plainly, SubCP := Plainly, MulCC := Plainly, MulCP := Plainly,
          ComputeKind.Negate := Plainly, ComputeKind.Rotate := Plainly, ComputeKind.Rescale := OperatorSupport(true, Some(2)),
          ComputeKind.ModSwitch := Plainly, ComputeKind.Relinearize := Plainly, ComputeKind.Boot := Plainly],
        [BootProfile("test-boot", DecryptReencrypt, 0, 4, 2, 4, 1, 2)]),
      ZeroDigest)
  }

  datatype DiffPoint = DiffPoint(ordinal: nat, distributed: ValueId, reference: ValueId)
  datatype BuiltPlan = BuiltPlan(plan: RuntimePlan, spec: LoadedSpec, diffMap: seq<DiffPoint>)

  // ---- The plan in closed form ----

  /** Every device of every rank, rank by rank. */
  function Devices(counts: seq<Int32>): seq<Place>
    requires |counts| <= INT_MAX && forall i :: 0 <= i < |counts| ==> counts[i] >= 0
  {
    if counts == [] then []
    else
      var rank := |counts| - 1;
      Devices(counts[..rank]) + RankDevices(rank, counts[rank])
  }

  function RankDevices(rank: Int32, n: nat): (s: seq<Place>)
    requires n <= INT_MAX
    ensures |s| == n
  {
    seq(n, i requires 0 <= i < n => Place(Device, rank, i))
  }

  lemma RankDevicesAre(rank: Int32, n: nat)
    requires n <= INT_MAX
    ensures Distinct(RankDevices(rank, n))
    ensures forall p :: p in RankDevices(rank, n) <==> p.kind == Device && p.rank == rank && 0 <= p.index < n
  {
    forall p: Place | p.kind == Device && p.rank == rank && 0 <= p.index < n ensures p in RankDevices(rank, n) {
      assert RankDevices(rank, n)[p.index] == p;
    }
  }

  lemma DistinctConcat<T>(a: seq<T>, b: seq<T>)
    requires Distinct(a) && Distinct(b) && forall x :: x in a ==> x !in b
    ensures Distinct(a + b)
  {
    assert forall i :: 0 <= i < |a| ==> a[i] in a;
  }

  lemma {:induction false} DevicesAre(counts: seq<Int32>)
    requires |counts| <= INT_MAX && forall i :: 0 <= i < |counts| ==> counts[i] >= 0
    ensures Distinct(Devices(counts))
    ensures forall p :: p in Devices(counts) <==> p.kind == Device && 0 <= p.rank < |counts| && 0 <= p.index < counts[p.rank]
  {
    hide RankDevices, Distinct;
    if counts == [] {
      assert Distinct(Devices(counts)) by { NoneDistinct(Devices(counts)); }
    } else {
      var rank := |counts| - 1;
      DevicesAre(counts[..rank]);
      RankDevicesAre(rank, counts[rank]);
      DistinctConcat(Devices(counts[..rank]), RankDevices(rank, counts[rank]));
    }
  }

  lemma NoneDistinct<T>(s: seq<T>)
    requires s == []
    ensures Distinct(s)
  {
  }

  function HostPlace(rank: Int32): Place {
    Place(Host, rank, 0)
  }

  function MakeDesc(id: ValueId, kind: ValueKind, place: Place, scale: Int32): ValueDesc {
    ValueDesc(id, kind, place, "ctx", 3, scale, true, if kind == Plaintext then 1 else 2)
  }

  /** Identifiers with `d` devices: the plaintext, the product and the branch on device `j`, and the result. */
  function PlainId(d: nat, j: nat): ValueId { 3 + j }
  function ProductId(d: nat, j: nat): ValueId { 3 + d + j }
  function BranchId(d: nat, j: nat): ValueId { 3 + 2 * d + j }
  function FinalId(d: nat): ValueId { 3 + 3 * d }

  function DescOf(devices: seq<Place>, id: ValueId): ValueDesc
    requires devices != [] && id <= FinalId(|devices|)
  {
    var d := |devices|;
    if id == 0 then MakeDesc(0, Ciphertext, HostPlace(0), 1)
    else if id == 1 then MakeDesc(1, Plaintext, HostPlace(0), 1)
    else if id == 2 then MakeDesc(2, Ciphertext, devices[0], 1)
    else if id < 3 + d then MakeDesc(id, Plaintext, devices[id - 3], 1)
    else if id < 3 + 2 * d then MakeDesc(id, Ciphertext, devices[id - 3 - d], 2)
    else if id < 3 + 3 * d then MakeDesc(id, Ciphertext, devices[id - 3 - 2 * d], 2)
    else MakeDesc(id, Ciphertext, HostPlace(devices[d - 1].rank), 2)
  }

  function Descs0(devices: seq<Place>, n: nat): (s: seq<ValueDesc>)
    requires devices != [] && n <= FinalId(|devices|) + 1
    ensures |s| == n && forall i :: 0 <= i < n ==> s[i] == DescOf(devices, i)
  {
    seq(n, i requires 0 <= i < n => DescOf(devices, i))
  }

  function IdRange(first: nat, n: nat): (s: seq<ValueId>)
    ensures |s| == n && forall i :: 0 <= i < n ==> s[i] == first + i
  {
    seq(n, i requires 0 <= i < n => first + i)
  }

  function Kinds(kind: ValueKind, n: nat): (s: seq<ValueKind>)
    ensures |s| == n && forall i :: 0 <= i < n ==> s[i] == kind
  {
    seq(n, _ => kind)
  }

  function SendCipher(devices: seq<Place>): Instruction
    requires devices != []
  {
    Instruction(0, Comm(CommAction(100, Transfer, PointToPoint, [0], [2], [HostPlace(0)], [devices[0]], [Ciphertext])))
  }

  function SendPlain(devices: seq<Place>): Instruction
    requires devices != []
  {
    var d := |devices|;
    Instruction(1, Comm(CommAction(
      101, if d > 1 then Replicate else Transfer, if d > 1 then Broadcast else PointToPoint,
      [1], IdRange(3, d), [HostPlace(0)], devices, Kinds(Plaintext, d))))
  }

  function Multiply(devices: seq<Place>): Instruction
    requires devices != []
  {
    Instruction(2, Compute(ComputeOp(MulCP, [2, 3], ProductId(|devices|, 0), devices[0], NoAttrs)))
  }

  function SendProduct(devices: seq<Place>): Instruction
    requires |devices| > 1
  {
    var d := |devices|;
    Instruction(3, Comm(CommAction(
      102, if d == 2 then Transfer else Replicate, Broadcast,
      [ProductId(d, 0)], IdRange(ProductId(d, 1), d - 1), [devices[0]], devices[1..], Kinds(Ciphertext, d - 1))))
  }

  /** The ordinal of the first branch. */
  function FirstBranch(d: nat): nat {
    if d > 1 then 4 else 3
  }

  function Branch(devices: seq<Place>, j: nat): Instruction
    requires j < |devices|
  {
    var d := |devices|;
    Instruction(FirstBranch(d) + j, Compute(ComputeOp(ComputeKind.Negate, [ProductId(d, j)], BranchId(d, j), devices[j], NoAttrs)))
  }

  function Branches(devices: seq<Place>, n: nat): (s: seq<Instruction>)
    requires n <= |devices|
    ensures |s| == n && forall j :: 0 <= j < n ==> s[j] == Branch(devices, j)
  {
    seq(n, j requires 0 <= j < n => Branch(devices, j))
  }

  function SendResult(devices: seq<Place>): Instruction
    requires devices != []
  {
    var d := |devices|;
    var back := devices[d - 1];
    Instruction(FirstBranch(d) + d, Comm(CommAction(
      if d > 1 then 103 else 102, Transfer, Auto,
      [BranchId(d, d - 1)], [FinalId(d)], [back], [HostPlace(back.rank)], [Ciphertext])))
  }

  function Products(devices: seq<Place>): (s: seq<Instruction>)
    requires devices != []
    ensures |s| == FirstBranch(|devices|) - 2
  {
    [Multiply(devices)] + if |devices| > 1 then [SendProduct(devices)] else []
  }

  function FanoutPlan(counts: seq<Int32>): RuntimePlan
    requires |counts| <= INT_MAX && forall i :: 0 <= i < |counts| ==> counts[i] >= 0
    requires Devices(counts) != []
  {
    var devices := Devices(counts);
    var d := |devices|;
    RuntimePlan(
      1,
      Target("vec-fixed-target", |counts|, counts, 1, SpecRef("vec-operator-spec", 1, ZeroDigest)),
      None, Descs0(devices, FinalId(d) + 1), [0, 1],
      [SendCipher(devices), SendPlain(devices)],
      Products(devices) + Branches(devices, d),
      [SendResult(devices)],
      [FinalId(d)])
  }

  // ---- Shape of the plan ----

  ghost predicate Fits(counts: seq<Int32>) {
    && |counts| <= INT_MAX
    && (forall i :: 0 <= i < |counts| ==> counts[i] >= 0)
    && Devices(counts) != []
  }

  function CodeAt(devices: seq<Place>, n: nat): Instruction
    requires devices != [] && n <= FirstBranch(|devices|) + |devices|
  {
    var d := |devices|;
    if n == 0 then SendCipher(devices)
    else if n == 1 then SendPlain(devices)
    else if n == 2 then Multiply(devices)
    else if n < FirstBranch(d) then SendProduct(devices)
    else if n < FirstBranch(d) + d then Branch(devices, n - FirstBranch(d))
    else SendResult(devices)
  }

  lemma CodeShape(counts: seq<Int32>)
    requires Fits(counts)
    ensures var devices := Devices(counts); var code := Instructions(FanoutPlan(counts));
      |code| == FirstBranch(|devices|) + |devices| + 1 && forall n :: 0 <= n < |code| ==> code[n] == CodeAt(devices, n)
  {
    hide Devices, SendCipher, SendPlain, Multiply, SendProduct, Branch, SendResult;
  }

  lemma PlanParts(counts: seq<Int32>)
    requires Fits(counts)
    ensures var plan, devices := FanoutPlan(counts), Devices(counts);
      plan.values == Descs0(devices, FinalId(|devices|) + 1) && plan.externalInputs == [0, 1] && plan.finalOutputs == [FinalId(|devices|)]
  {
    hide Devices, Descs0, FinalId;
  }

  lemma DescIds(devices: seq<Place>, id: ValueId)
    requires devices != [] && id <= FinalId(|devices|)
    ensures DescOf(devices, id).id == id
  {
  }

  lemma TableShape(counts: seq<Int32>)
    requires Fits(counts)
    ensures var devices := Devices(counts); var dm := DescMap(FanoutPlan(counts).values);
      && (forall id: ValueId :: id in dm <==> id <= FinalId(|devices|))
      && (forall id: ValueId :: id in dm ==> dm[id] == DescOf(devices, id))
  {
    hide Devices, DescMap, FanoutPlan, DescOf, FinalId, Descs0;
    var devices := Devices(counts);
    var values := FanoutPlan(counts).values;
    PlanParts(counts);
    forall id: ValueId | id <= FinalId(|devices|) ensures id in DescMap(values) {
      DescIds(devices, id);
      assert values[id].id == id;
    }
    forall id: ValueId | id in DescMap(values) ensures id <= FinalId(|devices|) && DescMap(values)[id] == DescOf(devices, id) {
      var i :| 0 <= i < |values| && values[i] == DescMap(values)[id];
      DescIds(devices, i);
    }
  }

  /** Identifiers below this one are defined before instruction `n`. */
  function NextId(d: nat, n: nat): nat
    requires d > 0
  {
    if n == 0 then 2
    else if n == 1 then 3
    else if n == 2 then ProductId(d, 0)
    else if n < FirstBranch(d) then ProductId(d, 1)
    else if n <= FirstBranch(d) + d then BranchId(d, n - FirstBranch(d))
    else FinalId(d) + 1
  }

  /** Each instruction defines the next identifiers, in order. */
  lemma DefsInOrder(devices: seq<Place>, n: nat)
    requires devices != [] && n <= FirstBranch(|devices|) + |devices|
    ensures var d := |devices|; NextId(d, n) <= NextId(d, n + 1)
    ensures var d := |devices|; Defs(CodeAt(devices, n).body) == IdRange(NextId(d, n), NextId(d, n + 1) - NextId(d, n))
  {
  }

  lemma {:induction false} DefinedBelow(counts: seq<Int32>, n: nat)
    requires Fits(counts) && n <= |Instructions(FanoutPlan(counts))|
    ensures forall id: ValueId :: id in DefinedBefore(FanoutPlan(counts), n) <==> id < NextId(|Devices(counts)|, n)
  {
    hide Devices, CodeAt, FinalId, IdRange, DefinedBefore, FanoutPlan;
    var plan, d := FanoutPlan(counts), |Devices(counts)|;
    PlanParts(counts);
    if n == 0 {
      StartDefined(plan);
    } else {
      DefinedBelow(counts, n - 1);
      DefinedNext(plan, n - 1);
      CodeShape(counts);
      DefsInOrder(Devices(counts), n - 1);
      MoreDefined(DefinedBefore(plan, n - 1), DefinedBefore(plan, n), Defs(CodeAt(Devices(counts), n - 1).body), NextId(d, n - 1), NextId(d, n));
    }
  }

  lemma MoreDefined(before: set<ValueId>, after: set<ValueId>, defs: seq<ValueId>, first: nat, last: nat)
    requires first <= last && defs == IdRange(first, last - first) && after == before + set id | id in defs
    requires forall id: ValueId :: id in before <==> id < first
    ensures forall id: ValueId :: id in after <==> id < last
  {
    hide IdRange;
    RangeMembers(first, last - first);
  }

  lemma StartDefined(plan: RuntimePlan)
    requires plan.externalInputs == [0, 1]
    ensures forall id: ValueId :: id in DefinedBefore(plan, 0) <==> id < 2
  {
    assert forall id: ValueId :: id in plan.externalInputs <==> id < 2;
  }

  lemma RangeMembers(first: nat, n: nat)
    ensures forall id: ValueId :: id in IdRange(first, n) <==> first <= id < first + n
    ensures Distinct(IdRange(first, n))
  {
    forall id | first <= id < first + n ensures id in IdRange(first, n) {
      assert IdRange(first, n)[id - first] == id;
    }
  }

  /** Operands of an instruction come from before it. */
  lemma UsesBelow(devices: seq<Place>, n: nat)
    requires devices != [] && n <= FirstBranch(|devices|) + |devices|
    ensures forall id: ValueId :: id in Uses(CodeAt(devices, n).body) ==> id < NextId(|devices|, n)
  {
  }

  /** Communications have increasing transfer identifiers. */
  lemma TransferOrder(devices: seq<Place>, k: nat, n: nat)
    requires devices != [] && k < n <= FirstBranch(|devices|) + |devices|
    requires CodeAt(devices, k).body.Comm? && CodeAt(devices, n).body.Comm?
    ensures CodeAt(devices, k).body.action.id < CodeAt(devices, n).body.action.id
  {
  }

  lemma FanoutSsa(counts: seq<Int32>, n: nat)
    requires Fits(counts) && n < |Instructions(FanoutPlan(counts))|
    ensures SsaOk(FanoutPlan(counts), n)
  {
    hide Devices, CodeAt, NextId, DefinedBefore, IdRange, FinalId;
    var plan, devices := FanoutPlan(counts), Devices(counts);
    CodeShape(counts);
    DefinedBelow(counts, n);
    UsesBelow(devices, n);
    DefsInOrder(devices, n);
    RangeMembers(NextId(|devices|, n), NextId(|devices|, n + 1) - NextId(|devices|, n));
    if CodeAt(devices, n).body.Comm? {
      forall k | 0 <= k < n && Instructions(plan)[k].body.Comm?
        ensures Instructions(plan)[k].body.action.id != Instructions(plan)[n].body.action.id
      {
        TransferOrder(devices, k, n);
      }
    }
  }

  // ---- The rules ----

  lemma PlacesOk(counts: seq<Int32>)
    requires Fits(counts)
    ensures |counts| > 0
    ensures forall j :: 0 <= j < |Devices(counts)| ==> PlaceOk(FanoutPlan(counts), Devices(counts)[j])
    ensures PlaceOk(FanoutPlan(counts), HostPlace(0))
    ensures forall j :: 0 <= j < |Devices(counts)| ==> PlaceOk(FanoutPlan(counts), HostPlace(Devices(counts)[j].rank))
    ensures forall j :: 0 <= j < |Devices(counts)| ==> Devices(counts)[j].kind == Device
    ensures Distinct(Devices(counts))
  {
    hide Devices, Descs0, Products, Branches, SendCipher, SendPlain, SendResult;
    DevicesAre(counts);
    var devices := Devices(counts);
    assert forall j :: 0 <= j < |devices| ==> devices[j] in devices;
    assert devices[0] in devices;
  }

  lemma BudgetOfThree()
    ensures Budget(TestSpec().spec.rnsModuliLog2, 4) == 180
  {
    var m := TestSpec().spec.rnsModuliLog2;
    assert Budget(m, 1) == 60 && Budget(m, 2) == 100 && Budget(m, 3) == 140;
  }

  lemma DescsOk(counts: seq<Int32>)
    requires Fits(counts)
    ensures Rules.ValuesOk(FanoutPlan(counts), TestSpec().spec)
  {
    hide Devices, PlaceOk, Budget;
    var plan, devices := FanoutPlan(counts), Devices(counts);
    PlacesOk(counts);
    BudgetOfThree();
    forall i | 0 <= i < |plan.values| ensures DescOk(plan, TestSpec().spec, plan.values[i]) {
      assert plan.values[i] == DescOf(devices, i);
    }
  }

  /** The facts the rules of the communications need: the table, the Places, and that devices differ. */
  ghost predicate Laid(plan: RuntimePlan, devices: seq<Place>, dm: Descs) {
    && devices != []
    && (forall id: ValueId :: id in dm <==> id <= FinalId(|devices|))
    && (forall id: ValueId :: id in dm ==> dm[id] == DescOf(devices, id))
    && PlaceOk(plan, HostPlace(0))
    && (forall j :: 0 <= j < |devices| ==> PlaceOk(plan, devices[j]) && PlaceOk(plan, HostPlace(devices[j].rank)) && devices[j].kind == Device)
    && Distinct(devices)
  }

  lemma LaidOut(counts: seq<Int32>)
    requires Fits(counts)
    ensures Laid(FanoutPlan(counts), Devices(counts), DescMap(FanoutPlan(counts).values))
  {
    hide Devices, PlaceOk, DescMap, FanoutPlan, DescOf, FinalId, Distinct;
    TableShape(counts);
    PlacesOk(counts);
  }

  lemma SendCipherRule(plan: RuntimePlan, devices: seq<Place>, dm: Descs)
    requires Laid(plan, devices, dm)
    ensures CommRule(plan, SendCipher(devices).body.action, dm)
  {
    hide PlaceOk;
    assert 0 in dm && 2 in dm;
  }

  lemma SendPlainRule(plan: RuntimePlan, devices: seq<Place>, dm: Descs)
    requires Laid(plan, devices, dm)
    ensures CommRule(plan, SendPlain(devices).body.action, dm)
  {
    hide PlaceOk;
    assert 1 in dm;
    var action := SendPlain(devices).body.action;
    forall i | 0 <= i < |action.outputs| ensures CommOutputOk(plan, action, dm[1], dm, i) {
      assert PlainId(|devices|, i) in dm;
    }
  }

  lemma SendProductRule(plan: RuntimePlan, devices: seq<Place>, dm: Descs)
    requires Laid(plan, devices, dm) && |devices| > 1
    ensures CommRule(plan, SendProduct(devices).body.action, dm)
  {
    hide PlaceOk;
    var d := |devices|;
    assert ProductId(d, 0) in dm;
    var action := SendProduct(devices).body.action;
    forall i | 0 <= i < |action.outputs| ensures CommOutputOk(plan, action, dm[ProductId(d, 0)], dm, i) {
      assert ProductId(d, i + 1) in dm && action.destinations[i] == devices[i + 1];
    }
  }

  lemma SendResultRule(plan: RuntimePlan, devices: seq<Place>, dm: Descs)
    requires Laid(plan, devices, dm)
    ensures CommRule(plan, SendResult(devices).body.action, dm)
  {
    hide PlaceOk;
    var d := |devices|;
    assert BranchId(d, d - 1) in dm && FinalId(d) in dm && PlaceOk(plan, devices[d - 1]);
  }

  lemma SendRule(counts: seq<Int32>, n: nat)
    requires Fits(counts) && n < |Instructions(FanoutPlan(counts))| && Instructions(FanoutPlan(counts))[n].body.Comm?
    ensures CommRule(FanoutPlan(counts), Instructions(FanoutPlan(counts))[n].body.action, DescMap(FanoutPlan(counts).values))
  {
    hide Devices, PlaceOk, DescMap, FanoutPlan, CommRule, Laid;
    var plan, devices := FanoutPlan(counts), Devices(counts);
    var dm := DescMap(plan.values);
    CodeShape(counts);
    LaidOut(counts);
    SendCipherRule(plan, devices, dm);
    SendPlainRule(plan, devices, dm);
    if |devices| > 1 {
      SendProductRule(plan, devices, dm);
    }
    SendResultRule(plan, devices, dm);
  }

  lemma MultiplyRule(plan: RuntimePlan, devices: seq<Place>, dm: Descs)
    requires Laid(plan, devices, dm)
    ensures var op := Multiply(devices).body.op; PlaceOk(plan, op.place) && ComputeRule(op, dm) && SpecRule(op, dm, TestSpec().spec)
  {
    hide PlaceOk;
    assert 2 in dm && PlainId(|devices|, 0) in dm && ProductId(|devices|, 0) in dm && PlaceOk(plan, devices[0]);
  }

  lemma BranchRule(plan: RuntimePlan, devices: seq<Place>, dm: Descs, j: nat)
    requires Laid(plan, devices, dm) && j < |devices|
    ensures var op := Branch(devices, j).body.op; PlaceOk(plan, op.place) && ComputeRule(op, dm) && SpecRule(op, dm, TestSpec().spec)
  {
    hide PlaceOk;
    assert ProductId(|devices|, j) in dm && BranchId(|devices|, j) in dm && PlaceOk(plan, devices[j]);
  }

  lemma WorkRule(counts: seq<Int32>, n: nat)
    requires Fits(counts) && n < |Instructions(FanoutPlan(counts))| && Instructions(FanoutPlan(counts))[n].body.Compute?
    ensures var op := Instructions(FanoutPlan(counts))[n].body.op; var dm := DescMap(FanoutPlan(counts).values);
      PlaceOk(FanoutPlan(counts), op.place) && ComputeRule(op, dm) && SpecRule(op, dm, TestSpec().spec)
  {
    hide Devices, PlaceOk, DescMap, FanoutPlan, ComputeRule, SpecRule, Laid, TestSpec, DescOf;
    var plan, devices := FanoutPlan(counts), Devices(counts);
    var dm := DescMap(plan.values);
    CodeShape(counts);
    LaidOut(counts);
    MultiplyRule(plan, devices, dm);
    var j := n - FirstBranch(|devices|);
    if 0 <= j < |devices| {
      BranchRule(plan, devices, dm, j);
    }
  }

  /** Every fan-out plan is accepted by the verifier: for any list of device counts with at least one device. */
  lemma FanoutWellFormed(counts: seq<Int32>, skip: bool)
    requires Fits(counts)
    ensures WellFormed(FanoutPlan(counts), TestSpec(), skip)
  {
    hide Devices, DescMap, DefinedBefore, BodyRule, SsaOk, CodeAt, FanoutPlan, Rules.ValuesOk;
    var plan := FanoutPlan(counts);
    CodeShape(counts);
    DescsOk(counts);
    forall n | 0 <= n < |Instructions(plan)| ensures InstructionOk(plan, TestSpec().spec, DescMap(plan.values), n) {
      FanoutInstruction(counts, n);
    }
    FanoutEnds(counts, skip);
  }

  lemma FanoutInstruction(counts: seq<Int32>, n: nat)
    requires Fits(counts) && n < |Instructions(FanoutPlan(counts))|
    ensures InstructionOk(FanoutPlan(counts), TestSpec().spec, DescMap(FanoutPlan(counts).values), n)
  {
    hide Devices, DescMap, FanoutPlan, SsaOk, CommRule, ComputeRule, SpecRule, TestSpec;
    CodeShape(counts);
    FanoutSsa(counts, n);
    if Instructions(FanoutPlan(counts))[n].body.Comm? {
      SendRule(counts, n);
    } else {
      WorkRule(counts, n);
    }
  }

  lemma FanoutEnds(counts: seq<Int32>, skip: bool)
    requires Fits(counts)
    ensures var plan := FanoutPlan(counts); var dm := DescMap(plan.values);
      && HeaderOk(plan, TestSpec(), skip) && InputsOk(plan, dm) && Rules.OutputsOk(plan, dm)
      && dm.Keys == DefinedBefore(plan, |Instructions(plan)|)
  {
    hide Devices, DescMap, DefinedBefore, CodeAt, DescOf, InputsOk, Rules.OutputsOk, HeaderOk;
    FanoutHeader(counts, skip);
    FanoutInputs(counts);
    FanoutOutputs(counts);
    CodeShape(counts);
    TableShape(counts);
    DefinedBelow(counts, |Instructions(FanoutPlan(counts))|);
  }

  lemma FanoutHeader(counts: seq<Int32>, skip: bool)
    requires Fits(counts)
    ensures HeaderOk(FanoutPlan(counts), TestSpec(), skip)
  {
    hide Devices, Descs0, PlaceOk, Products, Branches;
    PlacesOk(counts);
  }

  lemma FanoutInputs(counts: seq<Int32>)
    requires Fits(counts)
    ensures InputsOk(FanoutPlan(counts), DescMap(FanoutPlan(counts).values))
  {
    hide Devices, DescMap, FanoutPlan;
    PlanParts(counts);
    TableShape(counts);
  }

  lemma FanoutOutputs(counts: seq<Int32>)
    requires Fits(counts)
    ensures Rules.OutputsOk(FanoutPlan(counts), DescMap(FanoutPlan(counts).values))
  {
    hide Devices, DescMap, DefinedBefore, CodeAt, DescOf;
    var plan := FanoutPlan(counts);
    CodeShape(counts);
    TableShape(counts);
    DefinedBelow(counts, |Instructions(plan)|);
    forall n | 0 <= n < |Instructions(plan)| ensures !IsBundleEncode(Instructions(plan)[n].body) {
      NoEncode(Devices(counts), n);
    }
  }

  lemma NoEncode(devices: seq<Place>, n: nat)
    requires devices != [] && n <= FirstBranch(|devices|) + |devices|
    ensures !CodeAt(devices, n).body.Encode?
  {
  }

  // ---- The builder ----

  /** The reference value of each identifier: the two inputs, their product, or its negation. */
  function RefOf(d: nat, id: ValueId): ValueId {
    if id == 0 || id == 2 then 0
    else if id == 1 || id < 3 + d then 1
    else if id < 3 + 2 * d then 2
    else 3
  }

  ghost predicate PointOk(d: nat, point: DiffPoint) {
    2 <= point.distributed <= FinalId(d) && point.reference == RefOf(d, point.distributed)
  }

  method CollectDevices(counts: seq<Int32>) returns (devices: Option<seq<Place>>)
    requires |counts| <= INT_MAX
    ensures devices.Some? <==> forall i :: 0 <= i < |counts| ==> counts[i] >= 0
    ensures devices.Some? ==> devices.value == Devices(counts)
  {
    var all: seq<Place> := [];
    for rank := 0 to |counts|
      invariant forall i :: 0 <= i < rank ==> counts[i] >= 0
      invariant all == Devices(counts[..rank])
    {
      if counts[rank] < 0 { return None; }
      ghost var before := all;
      for index := 0 to counts[rank]
        invariant all == before + RankDevices(rank, counts[rank])[..index]
      {
        all := all + [Place(Device, rank, index)];
      }
      assert counts[..rank + 1][..rank] == counts[..rank];
    }
    assert counts[..|counts|] == counts;
    devices := Some(all);
  }

  /** `make_fanout_plan`: the values, instructions and comparison points appended one after the other, with
      running identifiers. The plan is the closed form, the verifier accepts it, and every comparison point
      pairs an identifier with its reference. */
  method MakeFanoutPlan(counts: seq<Int32>) returns (r: Option<BuiltPlan>)
    requires |counts| <= INT_MAX
    ensures r.Some? <==> counts != [] && (forall i :: 0 <= i < |counts| ==> counts[i] >= 0) && exists i :: 0 <= i < |counts| && counts[i] > 0
    ensures r.Some? ==> Fits(counts) && r.value.plan == FanoutPlan(counts) && r.value.spec == TestSpec()
    ensures r.Some? ==> forall skip :: WellFormed(r.value.plan, r.value.spec, skip)
    ensures r.Some? ==> forall point :: point in r.value.diffMap ==> PointOk(|Devices(counts)|, point)
    ensures r.Some? ==> |r.value.diffMap| == FinalId(|Devices(counts)|) - 1 && InOrder(r.value.diffMap)
  {
    hide Devices, FanoutPlan, WellFormed, DescOf, FinalId, RefOf, TestSpec, Descs0, InOrder, PointOk;
    if counts == [] { return None; }
    var found := CollectDevices(counts);
    if found.None? { return None; }
    var devices := found.value;
    SomeDevice(counts);
    if devices == [] { return None; }
    var d := |devices|;
    var values := BuildValues(devices);
    var execution := BuildExecution(devices);
    var plan := RuntimePlan(
      1,
      Target("vec-fixed-target", |counts|, counts, 1, SpecRef("vec-operator-spec", 1, ZeroDigest)),
      None, values, [0, 1], [SendCipher(devices), SendPlain(devices)], execution, [SendResult(devices)], [FinalId(d)]);
    SamePlan(counts, plan);
    forall skip ensures WellFormed(plan, TestSpec(), skip) {
      FanoutWellFormed(counts, skip);
    }
    var diffMap := BuildDiffMap(d);
    r := Some(BuiltPlan(plan, TestSpec(), diffMap));
  }

  lemma SamePlan(counts: seq<Int32>, plan: RuntimePlan)
    requires Fits(counts)
    requires var devices := Devices(counts); plan == RuntimePlan(
      1,
      Target("vec-fixed-target", |counts|, counts, 1, SpecRef("vec-operator-spec", 1, ZeroDigest)),
      None, Descs0(devices, FinalId(|devices|) + 1), [0, 1], [SendCipher(devices), SendPlain(devices)],
      Products(devices) + Branches(devices, |devices|), [SendResult(devices)], [FinalId(|devices|)])
    ensures plan == FanoutPlan(counts)
  {
  }

  lemma SomeDevice(counts: seq<Int32>)
    requires |counts| <= INT_MAX && forall i :: 0 <= i < |counts| ==> counts[i] >= 0
    ensures Devices(counts) != [] <==> exists i :: 0 <= i < |counts| && counts[i] > 0
  {
    hide Devices;
    DevicesAre(counts);
    if i :| 0 <= i < |counts| && counts[i] > 0 {
      assert Place(Device, i, 0) in Devices(counts);
    } else {
      FirstMember(Devices(counts));
    }
  }

  lemma FirstMember<T>(s: seq<T>)
    ensures s != [] ==> s[0] in s
  {
  }

  method BuildValues(devices: seq<Place>) returns (values: seq<ValueDesc>)
    requires devices != []
    ensures values == Descs0(devices, FinalId(|devices|) + 1)
  {
    var d := |devices|;
    values := [
      MakeDesc(0, Ciphertext, HostPlace(0), 1), MakeDesc(1, Plaintext, HostPlace(0), 1), MakeDesc(2, Ciphertext, devices[0], 1)];
    var next := 3;
    for i := 0 to d
      invariant next == 3 + i && values == Descs0(devices, next)
    {
      values := values + [MakeDesc(next, Plaintext, devices[i], 1)];
      next := next + 1;
    }
    for i := 0 to d
      invariant next == 3 + d + i && values == Descs0(devices, next)
    {
      values := values + [MakeDesc(next, Ciphertext, devices[i], 2)];
      next := next + 1;
    }
    for i := 0 to d
      invariant next == 3 + 2 * d + i && values == Descs0(devices, next)
    {
      values := values + [MakeDesc(next, Ciphertext, devices[i], 2)];
      next := next + 1;
    }
    values := values + [MakeDesc(next, Ciphertext, HostPlace(devices[d - 1].rank), 2)];
  }

  method BuildExecution(devices: seq<Place>) returns (execution: seq<Instruction>)
    requires devices != []
    ensures execution == Products(devices) + Branches(devices, |devices|)
  {
    var d := |devices|;
    execution := [Multiply(devices)];
    var ordinal := 3;
    if d > 1 {
      var outputs: seq<ValueId>, types: seq<ValueKind> := [], [];
      for i := 1 to d
        invariant outputs == IdRange(ProductId(d, 1), i - 1) && types == Kinds(Ciphertext, i - 1)
      {
        outputs := outputs + [ProductId(d, i)];
        types := types + [Ciphertext];
      }
      execution := execution + [Instruction(ordinal, Comm(CommAction(
        102, if |outputs| == 1 then Transfer else Replicate, Broadcast, [ProductId(d, 0)], outputs, [devices[0]], devices[1..], types)))];
      ordinal := ordinal + 1;
    }
    assert execution == Products(devices);
    for i := 0 to d
      invariant ordinal == FirstBranch(d) + i && execution == Products(devices) + Branches(devices, i)
    {
      execution := execution + [Instruction(ordinal, Compute(ComputeOp(
        ComputeKind.Negate, [ProductId(d, i)], BranchId(d, i), devices[i], NoAttrs)))];
      ordinal := ordinal + 1;
    }
  }

  /** One comparison point for every value the plan defines, in order. */
  method BuildDiffMap(d: nat) returns (diffMap: seq<DiffPoint>)
    requires d > 0
    ensures forall point :: point in diffMap ==> PointOk(d, point)
    ensures |diffMap| == FinalId(d) - 1 && InOrder(diffMap)
  {
    diffMap := [DiffPoint(0, 2, 0)];
    for i := 0 to d
      invariant forall point :: point in diffMap ==> PointOk(d, point)
      invariant |diffMap| == 1 + i && InOrder(diffMap)
    {
      diffMap := diffMap + [DiffPoint(1, PlainId(d, i), 1)];
    }
    for i := 0 to d
      invariant forall point :: point in diffMap ==> PointOk(d, point)
      invariant |diffMap| == 1 + d + i && InOrder(diffMap)
    {
      diffMap := diffMap + [DiffPoint(if i == 0 then 2 else 3, ProductId(d, i), 2)];
    }
    for i := 0 to d
      invariant forall point :: point in diffMap ==> PointOk(d, point)
      invariant |diffMap| == 1 + 2 * d + i && InOrder(diffMap)
    {
      diffMap := diffMap + [DiffPoint(4, BranchId(d, i), 3)];
    }
    diffMap := diffMap + [DiffPoint(FirstBranch(d) + d, FinalId(d), 3)];
  }

  /** The points are those of identifiers 2, 3, 4 and so on. */
  ghost predicate InOrder(diffMap: seq<DiffPoint>) {
    forall i :: 0 <= i < |diffMap| ==> diffMap[i].distributed == 2 + i
  }

  // ---- The reference executor and the comparison ----

  type Values = map<ValueId, Payload>

  /** The operations one after the other; a missing operand, a failed operation or a second definition of a
      value is an error. */
  function RunOps(ops: seq<ComputeOp>, values: Values, n: nat): Option<Values>
    requires n <= |ops|
  {
    if n == 0 then Some(values)
    else
      match RunOps(ops, values, n - 1)
      case None => None
      case Some(before) =>
        var op := ops[n - 1];
        if !HasAll(before, op.inputs) then None
        else
          match ComputeNow(op, Operands(before, op.inputs))
          case Failure(_) => None
          case Success(v) => if op.output in before then None else Some(before[op.output := v])
  }

  /** `SequentialReferenceExecutor::run`. */
  method RunReference(ops: seq<ComputeOp>, inputs: Values) returns (r: Option<Values>)
    ensures r == RunOps(ops, inputs, |ops|)
  {
    hide ComputeNow;
    var values := inputs;
    for n := 0 to |ops|
      invariant RunOps(ops, inputs, n) == Some(values)
    {
      var op := ops[n];
      var operands: seq<Payload> := [];
      var missing := false;
      for i := 0 to |op.inputs|
        invariant missing <==> exists j :: 0 <= j < i && op.inputs[j] !in values
        invariant !missing ==> |operands| == i && forall j :: 0 <= j < i ==> op.inputs[j] in values && operands[j] == values[op.inputs[j]]
      {
        if op.inputs[i] in values && !missing {
          operands := operands + [values[op.inputs[i]]];
        } else {
          missing := true;
        }
      }
      if missing {
        StuckAt(ops, inputs, n, |ops|);
        return None;
      }
      assert operands == Operands(values, op.inputs);
      var v := ComputeNow(op, operands);
      if v.Failure? || op.output in values {
        StuckAt(ops, inputs, n, |ops|);
        return None;
      }
      values := values[op.output := v.value];
    }
    r := Some(values);
  }

  lemma {:induction false} StuckAt(ops: seq<ComputeOp>, inputs: Values, n: nat, m: nat)
    requires n < m <= |ops| && RunOps(ops, inputs, n + 1).None?
    ensures RunOps(ops, inputs, m).None?
  {
    hide ComputeNow;
    if n + 1 < m {
      StuckAt(ops, inputs, n, m - 1);
    }
  }

  /** The reference computation of the fan-out tests: the product of the inputs, and its negation. */
  function ReferenceOps(): seq<ComputeOp> {
    [ComputeOp(MulCP, [0, 1], 2, Place(Device, 0, 0), NoAttrs),
     ComputeOp(ComputeKind.Negate, [2], 3, Place(Device, 0, 0), NoAttrs)]
  }

  ghost predicate Related(p: Program, reference: Values, d: nat, id: ValueId) {
    id in Meaning(p) && RefOf(d, id) in reference && Meaning(p)[id] == reference[RefOf(d, id)]
  }

  /** A fan-out program on two valid inputs. */
  ghost predicate FanoutRun(p: Program, counts: seq<Int32>, reference: Values) {
    && Fits(counts) && p.plan == FanoutPlan(counts)
    && 0 in p.inputs && 1 in p.inputs
    && RunOps(ReferenceOps(), map[0 := p.inputs[0], 1 := p.inputs[1]], 2) == Some(reference)
  }

  lemma ReferenceSteps(p: Program, counts: seq<Int32>, reference: Values)
    requires FanoutRun(p, counts, reference)
    ensures 0 in reference && 1 in reference && 2 in reference && 3 in reference
    ensures reference[0] == p.inputs[0] && reference[1] == p.inputs[1]
    ensures ComputeNow(ReferenceOps()[0], [reference[0], reference[1]]) == Success(reference[2])
    ensures ComputeNow(ReferenceOps()[1], [reference[2]]) == Success(reference[3])
  {
    hide ComputeNow, FanoutPlan, Devices;
    var start := map[0 := p.inputs[0], 1 := p.inputs[1]];
    var ops := ReferenceOps();
    assert RunOps(ops, start, 0) == Some(start);
    assert RunOps(ops, start, 1).Some?;
    var middle := RunOps(ops, start, 1).value;
    assert ComputeNow(ops[0], Operands(start, ops[0].inputs)) == Success(middle[2]) && middle == start[2 := middle[2]];
    assert Operands(start, ops[0].inputs) == [start[0], start[1]];
    assert Operands(middle, ops[1].inputs) == [middle[2]];
  }

  lemma SameResult(a: ComputeOp, b: ComputeOp, args: seq<Payload>)
    requires a.kind == b.kind && a.attrs == b.attrs
    ensures ComputeNow(a, args) == ComputeNow(b, args)
  {
  }

  /** One instruction of the fan-out plan keeps the correspondence. */
  lemma FanoutStep(p: Program, counts: seq<Int32>, reference: Values, n: nat)
    requires FanoutRun(p, counts, reference) && n < |p.Code()| && Ssa(p.plan)
    requires forall id: ValueId :: id < NextId(|Devices(counts)|, n) ==> Related(p, reference, |Devices(counts)|, id)
    ensures forall id :: id in Defs(p.Code()[n].body) ==> Related(p, reference, |Devices(counts)|, id)
  {
    hide ComputeNow, FanoutPlan, Devices, Meaning, FinalId, RunOps, ReferenceOps, Ssa;
    var devices := Devices(counts);
    var d := |devices|;
    CodeShape(counts);
    ReferenceSteps(p, counts, reference);
    MeaningEquation(p, n);
    UsesBelow(devices, n);
    match p.Code()[n].body
    case Comm(action) => CommStep(p, devices, reference, n, action);
    case Compute(op) => WorkStep(p, devices, reference, n, op);
    case Encode(_, _) => NoEncode(devices, n);
  }

  lemma CommStep(p: Program, devices: seq<Place>, reference: Values, n: nat, action: CommAction)
    requires devices != [] && n <= FirstBranch(|devices|) + |devices| && n < |p.Code()|
    requires p.Code()[n] == CodeAt(devices, n) && p.Code()[n].body == Comm(action)
    requires forall id :: id in action.inputs ==> Related(p, reference, |devices|, id)
    requires forall id :: id in action.outputs && |action.inputs| == 1 && action.inputs[0] in Meaning(p) ==>
      id in Meaning(p) && Meaning(p)[id] == Meaning(p)[action.inputs[0]]
    ensures forall id :: id in action.outputs ==> Related(p, reference, |devices|, id)
  {
    hide Meaning;
    assert |action.inputs| == 1 && action.inputs[0] in action.inputs;
    forall id | id in action.outputs ensures RefOf(|devices|, id) == RefOf(|devices|, action.inputs[0]) {
    }
  }

  lemma WorkStep(p: Program, devices: seq<Place>, reference: Values, n: nat, op: ComputeOp)
    requires devices != [] && n <= FirstBranch(|devices|) + |devices| && n < |p.Code()|
    requires p.Code()[n] == CodeAt(devices, n) && p.Code()[n].body == Compute(op)
    requires forall id :: id in op.inputs ==> Related(p, reference, |devices|, id)
    requires match Semantics.Result(p, Meaning(p), Compute(op))
             case Some(v) => op.output in Meaning(p) && Meaning(p)[op.output] == v
             case None => op.output !in Meaning(p)
    requires 0 in reference && 1 in reference && 2 in reference && 3 in reference
    requires ComputeNow(ReferenceOps()[0], [reference[0], reference[1]]) == Success(reference[2])
    requires ComputeNow(ReferenceOps()[1], [reference[2]]) == Success(reference[3])
    ensures Related(p, reference, |devices|, op.output)
  {
    hide Meaning, ComputeNow;
    assert forall i :: 0 <= i < |op.inputs| ==> op.inputs[i] in op.inputs;
    assert HasAll(Meaning(p), op.inputs);
    var args := Operands(Meaning(p), op.inputs);
    if n == 2 {
      assert args == [reference[0], reference[1]];
      SameResult(op, ReferenceOps()[0], args);
    } else {
      assert args == [reference[2]];
      SameResult(op, ReferenceOps()[1], args);
    }
  }

  /** Every comparison point of a fan-out plan relates equal values: on any number of ranks and devices, the
      distributed values are the reference executor's. */
  lemma {:induction false} FanoutMatches(p: Program, counts: seq<Int32>, reference: Values, n: nat)
    requires FanoutRun(p, counts, reference) && n <= |p.Code()|
    ensures forall id: ValueId :: id < NextId(|Devices(counts)|, n) ==> Related(p, reference, |Devices(counts)|, id)
  {
    hide ComputeNow, FanoutPlan, Devices, Meaning, NextId, WellFormed, RunOps, ReferenceOps, Related, CodeAt, IdRange;
    var d := |Devices(counts)|;
    FanoutWellFormed(counts, false);
    VerifiedIsSsa(p, TestSpec(), false);
    CodeShape(counts);
    if n == 0 {
      FanoutInputsRelated(p, counts, reference);
    } else {
      FanoutMatches(p, counts, reference, n - 1);
      FanoutStep(p, counts, reference, n - 1);
      DefsInOrder(Devices(counts), n - 1);
      RangeMembers(NextId(d, n - 1), NextId(d, n) - NextId(d, n - 1));
    }
  }

  lemma FanoutInputsRelated(p: Program, counts: seq<Int32>, reference: Values)
    requires FanoutRun(p, counts, reference) && Ssa(p.plan)
    ensures forall id: ValueId :: id < NextId(|Devices(counts)|, 0) ==> Related(p, reference, |Devices(counts)|, id)
  {
    hide ComputeNow, FanoutPlan, Devices, Meaning, RunOps, ReferenceOps, Ssa;
    ReferenceSteps(p, counts, reference);
    PlanParts(counts);
    StartDefined(p.plan);
    MeaningAt(p, 0, 0);
    MeaningAt(p, 0, 1);
  }

  lemma InputDescs(counts: seq<Int32>)
    requires Fits(counts)
    ensures var dm := DescMap(FanoutPlan(counts).values);
      0 in dm && dm[0] == MakeDesc(0, Ciphertext, HostPlace(0), 1) && 1 in dm && dm[1] == MakeDesc(1, Plaintext, HostPlace(0), 1)
  {
    hide FanoutPlan, Devices, DescMap;
    TableShape(counts);
    var d := |Devices(counts)|;
    assert 0 <= FinalId(d) && 1 <= FinalId(d);
  }

  /** The reference computation succeeds on validated inputs of one length. */
  lemma ReferenceRuns(p: Program, counts: seq<Int32>)
    requires Fits(counts) && p.plan == FanoutPlan(counts)
    requires forall id :: id in p.plan.externalInputs && id in p.Table() ==> id in p.inputs && Validates(p.inputs[id], p.Table()[id], p.degree)
    requires 0 in p.inputs && 1 in p.inputs && |p.inputs[0].slots| == |p.inputs[1].slots|
    ensures RunOps(ReferenceOps(), map[0 := p.inputs[0], 1 := p.inputs[1]], 2).Some?
  {
    hide FanoutPlan, Devices, DescMap, BinaryMeta;
    PlanParts(counts);
    InputDescs(counts);
    assert 0 in p.plan.externalInputs && 1 in p.plan.externalInputs;
    var start: Values := map[0 := p.inputs[0], 1 := p.inputs[1]];
    var ops := ReferenceOps();
    assert RunOps(ops, start, 0) == Some(start);
    assert Operands(start, ops[0].inputs) == [start[0], start[1]];
    ProductWorks(ops[0], start[0], start[1]);
    var middle := RunOps(ops, start, 1).value;
    assert Operands(middle, ops[1].inputs) == [middle[2]];
    NegationWorks(ops[1], middle[2]);
  }

  lemma ProductWorks(op: ComputeOp, a: Payload, b: Payload)
    requires op.kind == MulCP && a.kind == Ciphertext && b.kind == Plaintext && |a.slots| == |b.slots|
    requires a.meta.context == b.meta.context && a.meta.degree == b.meta.degree && a.meta.level == b.meta.level && a.meta.ntt == b.meta.ntt
    requires a.meta.scale == b.meta.scale == 1
    ensures ComputeNow(op, [a, b]).Success?
  {
    assert Signatures([a, b]) == [a.Signature(), b.Signature()];
  }

  lemma NegationWorks(op: ComputeOp, a: Payload)
    requires op.kind == ComputeKind.Negate && a.kind == Ciphertext
    ensures ComputeNow(op, [a]).Success?
  {
    assert Signatures([a]) == [a.Signature()];
  }

  /** The comparison of the tests, for every list of device counts and every pair of valid inputs: at each
      point of the comparison map the distributed value equals the reference value. */
  lemma FanoutPointsAgree(p: Program, counts: seq<Int32>, reference: Values, point: DiffPoint)
    requires FanoutRun(p, counts, reference) && PointOk(|Devices(counts)|, point)
    ensures point.distributed in Meaning(p) && point.reference in reference
    ensures Meaning(p)[point.distributed] == reference[point.reference]
  {
    hide ComputeNow, FanoutPlan, Devices, Meaning, RunOps, ReferenceOps, CodeAt;
    CodeShape(counts);
    FanoutMatches(p, counts, reference, |p.Code()|);
    assert Related(p, reference, |Devices(counts)|, point.distributed);
  }
}
