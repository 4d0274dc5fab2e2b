/** The Vec executor's synchronous arithmetic, with its slot loops in place (api/vec_api.cpp), the
    single-assignment value (api/vec_value.cpp), and rotations against the keys derived for them. */
module Executor {
  import opened Wrappers
  import opened Plan
  import opened Rules
  import opened Vec
  import Verifier
  import Reading

  /** A value that is completed once, by a payload that keeps its promise or by an error. */
  class VecValue {
    const promise: Sig
    var result: Option<Checked<Payload>>

    constructor Ready(payload: Payload)
      ensures promise == payload.Signature() && result == Some(Success(payload))
    {
      promise, result := payload.Signature(), Some(Success(payload));
    }

    constructor Pending(kind: ValueKind, meta: Meta)
      ensures promise == Sig(kind, meta) && result.None?
    {
      promise, result := Sig(kind, meta), None;
    }

    ghost predicate Valid()
      reads this
    {
      result.Some? && result.value.Success? ==> result.value.value.Signature() == promise
    }

    /** The payload is taken exactly when it keeps the promise and nothing has been stored before. */
    method Fulfill(payload: Payload) returns (ok: bool)
      requires Valid()
      modifies this
      ensures Valid()
      ensures ok <==> old(result).None? && payload.Signature() == promise
      ensures result == if ok then Some(Success(payload)) else old(result)
    {
      if payload.Signature() != promise { return false; }
      if result.Some? { return false; }
      result := Some(Success(payload));
      ok := true;
    }

    method Fail(error: VecError) returns (ok: bool)
      requires Valid()
      modifies this
      ensures Valid()
      ensures ok <==> old(result).None?
      ensures result == if ok then Some(Failure(error)) else old(result)
    {
      if result.Some? { return false; }
      result := Some(Failure(error));
      ok := true;
    }

    /** Once complete, every materialize gives the same answer. */
    method Materialize() returns (r: Checked<Payload>)
      requires Valid() && result.Some?
      ensures r == result.value
      ensures r.Success? ==> r.value.Signature() == promise
    {
      r := result.value;
    }

    /** A copy that shares nothing with the original, and is complete. */
    method DeepCopy() returns (r: Checked<VecValue>)
      requires Valid() && result.Some?
      ensures r.Success? <==> result.value.Success?
      ensures r.Success? ==> fresh(r.value) && r.value.Valid() && r.value.result == result && r.value.promise == promise
    {
      if result.value.Failure? { return Failure(result.value.error); }
      var copy := new VecValue.Ready(result.value.value);
      r := Success(copy);
    }
  }

  // ---- Slot loops ----

  method ZipInPlace(kind: ComputeKind, a: array<Num>, b: array<Num>)
    requires a != b && a.Length == b.Length
    modifies a
    ensures a[..] == ZipSlots(kind, old(a[..]), b[..])
  {
    for i := 0 to a.Length
      invariant forall k :: 0 <= k < i ==> a[k] == Scalar(kind, old(a[k]), b[k])
      invariant forall k :: i <= k < a.Length ==> a[k] == old(a[k])
    {
      a[i] := Scalar(kind, a[i], b[i]);
    }
  }

  method NegateInPlace(a: array<Num>)
    modifies a
    ensures a[..] == NegSlots(old(a[..]))
  {
    for i := 0 to a.Length
      invariant forall k :: 0 <= k < i ==> a[k] == Neg(old(a[k]))
      invariant forall k :: i <= k < a.Length ==> a[k] == old(a[k])
    {
      a[i] := Neg(a[i]);
    }
  }

  ghost predicate Reversal(before: seq<Num>, after: seq<Num>, lo: nat, hi: nat)
    requires lo <= hi <= |before|
  {
    && |after| == |before|
    && (forall k :: lo <= k < hi ==> after[k] == before[lo + hi - 1 - k])
    && (forall k :: 0 <= k < lo || hi <= k < |before| ==> after[k] == before[k])
  }

  /** Reversing both parts and then the whole exchanges the parts. */
  lemma ThreeReversals(s0: seq<Num>, s1: seq<Num>, s2: seq<Num>, s3: seq<Num>, shift: nat)
    requires shift <= |s0| == |s1| == |s2|
    requires Reversal(s0, s1, 0, shift) && Reversal(s1, s2, shift, |s0|) && Reversal(s2, s3, 0, |s0|)
    ensures s3 == s0[shift..] + s0[..shift]
  {
  }

  /** Reverse `a[lo..hi]`. */
  method ReverseInPlace(a: array<Num>, lo: nat, hi: nat)
    requires lo <= hi <= a.Length
    modifies a
    ensures Reversal(old(a[..]), a[..], lo, hi)
  {
    var i, j := lo, hi;
    while j - i >= 2
      invariant lo <= i <= j <= hi && i - lo == hi - j
      invariant forall k :: lo <= k < i || j <= k < hi ==> a[k] == old(a[lo + hi - 1 - k])
      invariant forall k :: 0 <= k < lo || i <= k < j || hi <= k < a.Length ==> a[k] == old(a[k])
    {
      a[i], a[j - 1] := a[j - 1], a[i];
      i, j := i + 1, j - 1;
    }
  }

  /** Left rotation by any step: the truncating remainder, made non-negative, then three reversals. */
  method RotateInPlace(a: array<Num>, steps: Int32)
    requires a.Length > 0
    modifies a
    ensures a[..] == RotateSlots(old(a[..]), steps)
  {
    hide Reversal;
    var n := a.Length;
    var shift := Verifier.Remainder(steps, n);
    if shift < 0 { shift := shift + n; }
    assert shift == Verifier.Normalize(steps, n);
    Verifier.NormalizeIsEuclidean(steps, n);
    ghost var s0 := a[..];
    ReverseInPlace(a, 0, shift);
    ghost var s1 := a[..];
    ReverseInPlace(a, shift, n);
    ghost var s2 := a[..];
    ReverseInPlace(a, 0, n);
    ThreeReversals(s0, s1, s2, a[..], shift);
  }

  /** The zero normalization before an encode: the negative zero becomes the positive one. */
  method NormalizeInPlace(a: array<Bits>)
    modifies a
    ensures forall k :: 0 <= k < a.Length ==> a[k] == NormalizeZero(old(a[k]))
  {
    for i := 0 to a.Length
      invariant forall k :: 0 <= k < i ==> a[k] == NormalizeZero(old(a[k]))
      invariant forall k :: i <= k < a.Length ==> a[k] == old(a[k])
    {
      if a[i] == 0 || a[i] == NEGATIVE_ZERO { a[i] := 0; }
    }
  }

  /** The slots of an encode: normalized, then padded with zeros to the capacity. */
  method EncodeInPlace(degree: nat, desc: ValueDesc, values: seq<Bits>) returns (r: Checked<Payload>)
    ensures r == EncodePlaintext(degree, desc, values)
  {
    var slots := new Bits[|values|](i requires 0 <= i < |values| => values[i]);
    NormalizeInPlace(slots);
    ghost var normalized := slots[..];
    var capacity := degree / 2;
    if slots.Length > capacity { return Failure(TooManySlots); }
    var padded := new Num[capacity](_ => Lit(0));
    for i := 0 to slots.Length
      invariant slots[..] == normalized
      invariant forall k :: 0 <= k < i ==> padded[k] == Lit(NormalizeZero(values[k]))
      invariant forall k :: i <= k < capacity ==> padded[k] == Lit(0)
    {
      padded[i] := Lit(slots[i]);
    }
    if capacity == 0 { return Failure(NoSlots); }
    if desc.context == "" || degree == 0 || desc.level < 0 || desc.scale < 0 { return Failure(InvalidMetadata); }
    assert padded[..] == EncodePlaintext(degree, desc, values).value.slots;
    r := Success(Payload(Plaintext, padded[..], Meta(desc.context, degree, desc.level, desc.scale, desc.ntt, 1)));
  }

  method Load(slots: seq<Num>) returns (a: array<Num>)
    ensures fresh(a) && a[..] == slots
  {
    a := new Num[|slots|](i requires 0 <= i < |slots| => slots[i]);
  }

  /** The two answers agree whenever there is one; which error is reported may differ. */
  predicate SameAnswer(x: Checked<Payload>, y: Checked<Payload>) {
    (x.Success? <==> y.Success?) && (x.Success? ==> x == y)
  }

  method BinaryNow(op: ComputeOp, inputs: seq<Payload>) returns (r: Checked<Payload>)
    requires Binary(op.kind)
    ensures SameAnswer(r, ComputeNow(op, inputs))
  {
    var kinds := ExpectedInputs(op.kind);
    if |inputs| != 2 || inputs[0].kind != Ciphertext || inputs[1].kind != kinds[1] { return Failure(TypeMismatch); }
    var a, b := inputs[0], inputs[1];
    var multiply := Multiplies(op.kind);
    if |a.slots| != |b.slots| { return Failure(SlotCountMismatch); }
    if a.meta.context != b.meta.context || a.meta.degree != b.meta.degree || a.meta.level != b.meta.level || a.meta.ntt != b.meta.ntt {
      return Failure(IncompatibleMetadata);
    }
    if !multiply && a.meta.scale != b.meta.scale { return Failure(ScaleMismatch); }
    var x := Load(a.slots);
    var y := Load(b.slots);
    ZipInPlace(op.kind, x, y);
    var meta := a.meta;
    if multiply {
      if b.meta.scale > INT_MAX - meta.scale || meta.scale + b.meta.scale < -0x8000_0000 { return Failure(ScaleOverflow); }
      meta := meta.(scale := meta.scale + b.meta.scale);
      if kinds[1] == Ciphertext {
        var components := meta.components + b.meta.components - 1;
        if !(-0x8000_0000 <= components <= INT_MAX) { return Failure(ComponentOverflow); }
        meta := meta.(components := components);
      }
    }
    assert kinds == [Ciphertext, kinds[1]];
    r := Success(Payload(Ciphertext, x[..], meta));
  }

  method UnaryNow(op: ComputeOp, inputs: seq<Payload>) returns (r: Checked<Payload>)
    requires !Binary(op.kind)
    ensures SameAnswer(r, ComputeNow(op, inputs))
  {
    if |inputs| != 1 || inputs[0].kind != Ciphertext { return Failure(TypeMismatch); }
    var a := inputs[0];
    match op.kind {
      case Negate =>
        var x := Load(a.slots);
        NegateInPlace(x);
        r := Success(a.(slots := x[..]));
      case Rotate =>
        if !op.attrs.RotateAttrs? { return Failure(WrongAttrs); }
        if a.slots == [] { return Failure(NoSlots); }
        var x := Load(a.slots);
        RotateInPlace(x, op.attrs.steps);
        r := Success(a.(slots := x[..]));
      case Rescale =>
        if !op.attrs.RescaleAttrs? { return Failure(WrongAttrs); }
        if op.attrs.level >= a.meta.level { return Failure(RescaleMustLower); }
        if op.attrs.scale < 0 { return Failure(InvalidRescaledScale); }
        r := Success(a.(meta := a.meta.(level := op.attrs.level, scale := op.attrs.scale)));
      case ModSwitch =>
        if !op.attrs.ModSwitchAttrs? { return Failure(WrongAttrs); }
        if op.attrs.level >= a.meta.level { return Failure(ModSwitchMustLower); }
        r := Success(a.(meta := a.meta.(level := op.attrs.level)));
      case Relinearize =>
        if a.meta.components <= 2 { return Failure(RelinearizeComponents); }
        r := Success(a.(meta := a.meta.(components := 2)));
      case Boot =>
        if !op.attrs.BootAttrs? { return Failure(WrongAttrs); }
        r := Success(a.(meta := a.meta.(level := op.attrs.level, scale := op.attrs.scale, components := op.attrs.components)));
    }
  }

  lemma MetadataOfResult(op: ComputeOp, inputs: seq<Payload>)
    requires ComputeNow(op, inputs).Success?
    ensures ComputeMetadata(op, Signatures(inputs)) == Success(ComputeNow(op, inputs).value.meta)
    ensures ComputeNow(op, inputs).value.kind == Ciphertext
  {
  }

  /** `compute_now` computes what submission promises: the metadata it derives on its own from the payloads
      is that of `compute_metadata`, and it fails on nothing else than the slots do. */
  method ComputeInPlace(op: ComputeOp, inputs: seq<Payload>) returns (r: Checked<Payload>)
    ensures SameAnswer(r, ComputeNow(op, inputs))
    ensures r.Success? ==> ComputeMetadata(op, Signatures(inputs)) == Success(r.value.meta) && r.value.kind == Ciphertext
    ensures r.Success? <==> Reading.Admits(op, inputs)
    ensures r.Success? ==> Reading.Reads(op, inputs, r.value)
  {
    hide ComputeNow, Reading.Admits, Reading.Reads;
    Reading.ComputeExactly(op, inputs);
    if ComputeNow(op, inputs).Success? {
      Reading.ComputeReads(op, inputs);
      MetadataOfResult(op, inputs);
    }
    if Binary(op.kind) {
      r := BinaryNow(op, inputs);
    } else {
      r := UnaryNow(op, inputs);
    }
  }

  // ---- Rotations and their keys ----

  lemma ModShift(x: int, y: int, n: int)
    requires n > 0
    ensures (x % n + y) % n == (x + y) % n
  {
    var q := x / n;
    var z := x % n + y;
    assert x + y == z + q * n;
    assert x + y == (q + z / n) * n + z % n by { assert (q + z / n) * n == q * n + (z / n) * n; }
    Verifier.EuclideanUnique(x + y, n, q + z / n, z % n);
  }

  /** Slot `i` of the rotated vector is slot `i + steps` of the original, cyclically. */
  lemma RotatedSlot(a: seq<Num>, steps: int, i: nat)
    requires i < |a|
    ensures |RotateSlots(a, steps)| == |a| && 0 <= (i + steps) % |a| < |a|
    ensures RotateSlots(a, steps)[i] == a[(i + steps) % |a|]
  {
    Reading.RotateReads(a, steps, i);
  }

  /** Rotations compose by adding their steps. */
  lemma RotationsCompose(a: seq<Num>, s: int, t: int)
    requires |a| > 0
    ensures RotateSlots(RotateSlots(a, s), t) == RotateSlots(a, s + t)
  {
    hide RotateSlots;
    forall i | 0 <= i < |a| ensures RotateSlots(RotateSlots(a, s), t)[i] == RotateSlots(a, s + t)[i] {
      RotatedSlot(a, s + t, i);
      RotatedSlot(RotateSlots(a, s), t, i);
      RotatedSlot(a, s, (i + t) % |a|);
      ModShift(i + t, s, |a|);
      assert i + t + s == i + (s + t);
    }
  }

  /** A rotation is undone by the opposite one. */
  lemma RotationUndone(a: seq<Num>, s: int)
    requires |a| > 0
    ensures RotateSlots(RotateSlots(a, s), -s) == a
  {
    RotationsCompose(a, s, -s);
  }

  /** Rotating by the raw step, negative or larger than the slot count too, is rotating by the step of the
      key the verifier asks for. */
  lemma RotationByKey(a: seq<Num>, steps: Int32)
    requires RotationOk(steps, |a|)
    ensures var key := Verifier.NormalizedRotationStep(steps, |a|);
      key.Success? && 1 <= key.value < |a| && RotateSlots(a, key.value) == RotateSlots(a, steps)
  {
    Verifier.RotationStepSpec(steps, |a|);
    Verifier.EuclideanUnique(steps % |a|, |a|, 0, steps % |a|);
  }

  /** The Galois keys derived from an accepted plan are exactly the normalized steps used at each Place. */
  lemma GaloisKeysExact(plan: RuntimePlan, loaded: LoadedSpec, skip: bool, key: KeyRequirement)
    requires WellFormed(plan, loaded, skip) && key.kind == Galois
    ensures var slots := loaded.spec.polyDegree / 2;
      (key in Verifier.KeysBefore(plan, slots, |Instructions(plan)|) <==>
       exists n :: 0 <= n < |Instructions(plan)| && RotatesBy(Instructions(plan)[n].body, key.place, key.step, slots)) &&
      (key in Verifier.KeysBefore(plan, slots, |Instructions(plan)|) ==> key.step.Some? && 1 <= key.step.value < slots)
  {
    hide HeaderOk, ValuesOk, InputsOk, OutputsOk, DefinedBefore, DescMap;
    var slots := loaded.spec.polyDegree / 2;
    forall n | 0 <= n < |Instructions(plan)|
      ensures key in Verifier.KeysOf(Instructions(plan)[n].body, slots) <==> RotatesBy(Instructions(plan)[n].body, key.place, key.step, slots)
      ensures key in Verifier.KeysOf(Instructions(plan)[n].body, slots) ==> key.step.Some? && 1 <= key.step.value < slots
    {
      assert InstructionOk(plan, loaded.spec, DescMap(plan.values), n);
      KeyOfInstruction(plan, loaded.spec, DescMap(plan.values), n, key);
    }
  }

  predicate RotatesBy(body: Body, place: Place, step: Option<Int32>, slots: nat) {
    && body.Compute? && body.op.kind == Rotate && body.op.place == place && body.op.attrs.RotateAttrs?
    && slots > 0 && step == Some(body.op.attrs.steps % slots)
  }

  lemma KeyOfInstruction(plan: RuntimePlan, spec: OperatorSpec, dm: Descs, n: nat, key: KeyRequirement)
    requires n < |Instructions(plan)| && InstructionOk(plan, spec, dm, n) && key.kind == Galois
    ensures var slots := spec.polyDegree / 2; var body := Instructions(plan)[n].body;
      && (key in Verifier.KeysOf(body, slots) <==> RotatesBy(body, key.place, key.step, slots))
      && (key in Verifier.KeysOf(body, slots) ==> key.step.Some? && 1 <= key.step.value < slots)
  {
    hide DefinedBefore, SsaOk;
  }
}
