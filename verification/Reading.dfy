/** What the arithmetic means: slots read as numbers, for every valuation of the literals. Each kind of operation
    is named here on its own, without the functions the executor is built from. */
module Reading {
  import opened Wrappers
  import opened Plan
  import opened Vec
  import Verifier

  type Valuation = Bits -> int

  function Read(v: Valuation, n: Num): int {
    match n
    case Lit(bits) => v(bits)
    case Add(a, b) => Read(v, a) + Read(v, b)
    case Sub(a, b) => Read(v, a) - Read(v, b)
    case Mul(a, b) => Read(v, a) * Read(v, b)
    case Neg(a) => -Read(v, a)
  }

  function ReadSlot(v: Valuation, p: Payload, i: nat): int
    requires i < |p.slots|
  {
    Read(v, p.slots[i])
  }

  /** The number slot `i` of a result reads as. */
  function Answer(v: Valuation, op: ComputeOp, inputs: seq<Payload>, i: nat): Option<int> {
    if inputs == [] || i >= |inputs[0].slots| then None
    else
      var a := ReadSlot(v, inputs[0], i);
      var b := if |inputs| == 2 && i < |inputs[1].slots| then Some(ReadSlot(v, inputs[1], i)) else None;
      match op.kind
      case AddCC | AddCP => if b.Some? then Some(a + b.value) else None
      case SubCC | SubCP => if b.Some? then Some(a - b.value) else None
      case MulCC | MulCP => if b.Some? then Some(a * b.value) else None
      case Negate => Some(-a)
      case Rotate =>
        if op.attrs.RotateAttrs? then Some(ReadSlot(v, inputs[0], (i + op.attrs.steps) % |inputs[0].slots|)) else None
      case Rescale | ModSwitch | Relinearize | Boot => Some(a)
  }

  /** Every slot of the value reads as the answer of the operation, under every valuation. */
  ghost predicate Reads(op: ComputeOp, inputs: seq<Payload>, r: Payload) {
    && inputs != [] && |r.slots| == |inputs[0].slots|
    && forall v: Valuation, i :: 0 <= i < |r.slots| ==> Some(ReadSlot(v, r, i)) == Answer(v, op, inputs, i)
  }

  lemma RotateReads(a: seq<Num>, steps: int, i: nat)
    requires i < |a|
    ensures RotateSlots(a, steps)[i] == a[(i + steps) % |a|]
  {
    var n, q, shift := |a|, steps / |a|, steps % |a|;
    assert i + steps == q * n + (i + shift);
    if i + shift < n {
      Verifier.EuclideanUnique(i + steps, n, q, i + shift);
    } else {
      assert i + steps == (q + 1) * n + (i + shift - n);
      Verifier.EuclideanUnique(i + steps, n, q + 1, i + shift - n);
    }
  }

  lemma ComputeReads(op: ComputeOp, inputs: seq<Payload>)
    requires ComputeNow(op, inputs).Success?
    ensures Reads(op, inputs, ComputeNow(op, inputs).value)
  {
    hide BinaryMeta, UnaryMeta, RotateSlots;
    var r := ComputeNow(op, inputs).value;
    forall v: Valuation, i | 0 <= i < |r.slots| ensures Some(ReadSlot(v, r, i)) == Answer(v, op, inputs, i) {
      if op.kind == ComputeKind.Rotate {
        RotateReads(inputs[0].slots, op.attrs.steps, i);
      }
    }
  }

  /** Subtracting an operand and adding it again, ciphertext or plaintext, reads as the original. */
  lemma SubtractAndAdd(sub: ComputeOp, add: ComputeOp, a: Payload, b: Payload, v: Valuation)
    requires (sub.kind == SubCC && add.kind == AddCC) || (sub.kind == SubCP && add.kind == AddCP)
    requires ComputeNow(sub, [a, b]).Success?
    ensures var r := ComputeNow(add, [ComputeNow(sub, [a, b]).value, b]);
      r.Success? && r.value.meta == a.meta && |r.value.slots| == |a.slots| &&
      forall i :: 0 <= i < |a.slots| ==> ReadSlot(v, r.value, i) == ReadSlot(v, a, i)
  {
    hide ComputeNow, Reads;
    var difference := ComputeNow(sub, [a, b]).value;
    ComputeExactly(sub, [a, b]);
    ComputeExactly(add, [difference, b]);
    var r := ComputeNow(add, [difference, b]);
    ReadAt(sub, [a, b], v);
    ReadAt(add, [difference, b], v);
  }

  lemma ReadAt(op: ComputeOp, inputs: seq<Payload>, v: Valuation)
    requires ComputeNow(op, inputs).Success?
    ensures inputs != [] && |ComputeNow(op, inputs).value.slots| == |inputs[0].slots|
    ensures forall i :: 0 <= i < |inputs[0].slots| ==> Some(ReadSlot(v, ComputeNow(op, inputs).value, i)) == Answer(v, op, inputs, i)
  {
    hide ComputeNow;
    ComputeReads(op, inputs);
  }

  // ---- When an operation succeeds, and with which metadata ----

  predicate Ciphers(inputs: seq<Payload>, n: nat) {
    |inputs| == n && forall i :: 0 <= i < n ==> inputs[i].kind == Ciphertext
  }

  predicate CipherAndPlain(inputs: seq<Payload>) {
    |inputs| == 2 && inputs[0].kind == Ciphertext && inputs[1].kind == Plaintext
  }

  /** The operands of a binary operation live in one context at one level and fill as many slots. */
  predicate SameRing(a: Payload, b: Payload) {
    a.meta.context == b.meta.context && a.meta.degree == b.meta.degree && a.meta.level == b.meta.level &&
    a.meta.ntt == b.meta.ntt && |a.slots| == |b.slots|
  }

  predicate IsInt32(x: int) {
    -0x8000_0000 <= x <= 0x7fff_ffff
  }

  /** The operands an operation works on. */
  predicate Admits(op: ComputeOp, inputs: seq<Payload>) {
    match op.kind
    case AddCC | SubCC => Ciphers(inputs, 2) && SameRing(inputs[0], inputs[1]) && inputs[0].meta.scale == inputs[1].meta.scale
    case AddCP | SubCP => CipherAndPlain(inputs) && SameRing(inputs[0], inputs[1]) && inputs[0].meta.scale == inputs[1].meta.scale
    case MulCC =>
      Ciphers(inputs, 2) && SameRing(inputs[0], inputs[1]) && IsInt32(inputs[0].meta.scale + inputs[1].meta.scale) &&
      IsInt32(inputs[0].meta.components + inputs[1].meta.components - 1)
    case MulCP => CipherAndPlain(inputs) && SameRing(inputs[0], inputs[1]) && IsInt32(inputs[0].meta.scale + inputs[1].meta.scale)
    case Negate => Ciphers(inputs, 1)
    case Rotate => Ciphers(inputs, 1) && op.attrs.RotateAttrs? && inputs[0].slots != []
    case Rescale => Ciphers(inputs, 1) && op.attrs.RescaleAttrs? && op.attrs.level < inputs[0].meta.level && op.attrs.scale >= 0
    case ModSwitch => Ciphers(inputs, 1) && op.attrs.ModSwitchAttrs? && op.attrs.level < inputs[0].meta.level
    case Relinearize => Ciphers(inputs, 1) && inputs[0].meta.components > 2
    case Boot => Ciphers(inputs, 1) && op.attrs.BootAttrs?
  }

  function NewLevel(op: ComputeOp, a: Meta): int {
    if op.attrs.RescaleAttrs? && op.kind == Rescale then op.attrs.level
    else if op.attrs.ModSwitchAttrs? && op.kind == ModSwitch then op.attrs.level
    else if op.attrs.BootAttrs? && op.kind == Boot then op.attrs.level
    else a.level
  }

  function NewScale(op: ComputeOp, inputs: seq<Payload>): int
    requires inputs != []
  {
    if op.kind in {MulCC, MulCP} && |inputs| == 2 then inputs[0].meta.scale + inputs[1].meta.scale
    else if op.kind == Rescale && op.attrs.RescaleAttrs? then op.attrs.scale
    else if op.kind == Boot && op.attrs.BootAttrs? then op.attrs.scale
    else inputs[0].meta.scale
  }

  function NewComponents(op: ComputeOp, inputs: seq<Payload>): int
    requires inputs != []
  {
    if op.kind == MulCC && |inputs| == 2 then inputs[0].meta.components + inputs[1].meta.components - 1
    else if op.kind == Relinearize then 2
    else if op.kind == Boot && op.attrs.BootAttrs? then op.attrs.components
    else inputs[0].meta.components
  }

  /** An operation succeeds on exactly the operands it admits, and its result is a ciphertext of the same ring with
      the new level, scale and components. */
  lemma ComputeExactly(op: ComputeOp, inputs: seq<Payload>)
    ensures ComputeNow(op, inputs).Success? <==> Admits(op, inputs)
    ensures ComputeNow(op, inputs).Success? ==>
      var r, a := ComputeNow(op, inputs).value, inputs[0].meta;
      && r.kind == Ciphertext && r.meta.context == a.context && r.meta.degree == a.degree && r.meta.ntt == a.ntt
      && r.meta.level == NewLevel(op, a) && r.meta.scale == NewScale(op, inputs)
      && r.meta.components == NewComponents(op, inputs) && |r.slots| == |inputs[0].slots|
  {
    hide ZipSlots, NegSlots, RotateSlots;
    var kinds := ExpectedInputs(op.kind);
    if |inputs| == |kinds| {
      assert |kinds| == 2 ==> kinds == [kinds[0], kinds[1]];
      assert forall i :: 0 <= i < |kinds| ==> Signatures(inputs)[i].kind == inputs[i].kind;
      if Binary(op.kind) {
        BinaryKinds(op.kind, inputs);
      } else {
        UnaryKinds(op.kind, inputs);
      }
    }
  }

  lemma BinaryKinds(kind: ComputeKind, inputs: seq<Payload>)
    requires Binary(kind) && |inputs| == 2
    ensures (forall i :: 0 <= i < 2 ==> inputs[i].kind == ExpectedInputs(kind)[i]) <==>
      (if kind in {AddCC, SubCC, MulCC} then Ciphers(inputs, 2) else CipherAndPlain(inputs))
  {
    assert ExpectedInputs(kind)[0] == Ciphertext;
    assert ExpectedInputs(kind)[1] == if kind in {AddCC, SubCC, MulCC} then Ciphertext else Plaintext;
  }

  lemma UnaryKinds(kind: ComputeKind, inputs: seq<Payload>)
    requires !Binary(kind) && |inputs| == 1
    ensures (forall i :: 0 <= i < 1 ==> inputs[i].kind == ExpectedInputs(kind)[i]) <==> Ciphers(inputs, 1)
  {
    assert ExpectedInputs(kind)[0] == Ciphertext;
  }

  // ---- Encoding ----

  /** The bit patterns of the two zeros: exponent and significand are all zero bits. */
  predicate IsZero(bits: Bits) {
    bits % 0x10_0000_0000_0000 == 0 && (bits / 0x10_0000_0000_0000) % 0x800 == 0
  }

  /** An encode succeeds on exactly the value lists that fit; slot `i` is literal `i`, a zero being the positive
      zero, and the slots after the list are zero. */
  lemma EncodeExactly(degree: nat, desc: ValueDesc, values: seq<Bits>)
    requires forall i :: 0 <= i < |values| ==> values[i] < TWO_64
    ensures EncodePlaintext(degree, desc, values).Success? <==>
      |values| <= degree / 2 && degree >= 2 && desc.context != "" && desc.level >= 0 && desc.scale >= 0
    ensures EncodePlaintext(degree, desc, values).Success? ==>
      var r := EncodePlaintext(degree, desc, values).value;
      && r.kind == Plaintext && |r.slots| == degree / 2
      && r.meta == Meta(desc.context, degree, desc.level, desc.scale, desc.ntt, 1)
      && forall i :: 0 <= i < degree / 2 ==> r.slots[i] == Lit(if i >= |values| || IsZero(values[i]) then 0 else values[i])
  {
    forall i | 0 <= i < |values| ensures NormalizeZero(values[i]) == if IsZero(values[i]) then 0 else values[i] {
      ZeroPatterns(values[i]);
    }
  }

  lemma ZeroPatterns(bits: Bits)
    requires bits < TWO_64
    ensures IsZero(bits) <==> bits == 0 || bits == 0x8000_0000_0000_0000
  {
    var high := bits / 0x10_0000_0000_0000;
    assert high < 0x1000;
  }
}
