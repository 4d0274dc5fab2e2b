/** Vec payloads and the executor's arithmetic (api/vec_value.cpp, api/vec_api.cpp). */
module Vec {
  import opened Wrappers
  import opened Plan

  /** A slot value. Arithmetic is uninterpreted: a slot is the term that produced it, so two equal
      slots are equal under every reading of the operators, float64 arithmetic included. */
  datatype Num =
    | Lit(bits: Bits)
    | Add(a: Num, b: Num)
    | Sub(a: Num, b: Num)
    | Mul(a: Num, b: Num)
    | Neg(a: Num)

  const NEGATIVE_ZERO: Bits := 0x8000_0000_0000_0000

  datatype Meta = Meta(context: string, degree: nat, level: Int32, scale: Int32, ntt: bool, components: Int32)
  datatype Sig = Sig(kind: ValueKind, meta: Meta)
  datatype Payload = Payload(kind: ValueKind, slots: seq<Num>, meta: Meta) {
    function Signature(): Sig {
      Sig(kind, meta)
    }
  }

  datatype VecError =
    | TypeMismatch | SlotCountMismatch | IncompatibleMetadata | ScaleMismatch | ScaleOverflow | ComponentOverflow
    | WrongAttrs | NoSlots | RescaleMustLower | InvalidRescaledScale | ModSwitchMustLower | RelinearizeComponents
    | TooManySlots | InvalidMetadata | WrongPayload

  type Checked<+T> = Result<T, VecError>

  /** Element type of the first and, for binary operations, second operand. */
  function ExpectedInputs(kind: ComputeKind): seq<ValueKind> {
    match kind
    case AddCC | SubCC | MulCC => [Ciphertext, Ciphertext]
    case AddCP | SubCP | MulCP => [Ciphertext, Plaintext]
    case _ => [Ciphertext]
  }

  function Scalar(kind: ComputeKind, a: Num, b: Num): Num {
    match kind
    case AddCC | AddCP => Add(a, b)
    case SubCC | SubCP => Sub(a, b)
    case _ => Mul(a, b)
  }

  function ZipSlots(kind: ComputeKind, a: seq<Num>, b: seq<Num>): (r: seq<Num>)
    requires |a| == |b|
    ensures |r| == |a|
  {
    seq(|a|, i requires 0 <= i < |a| => Scalar(kind, a[i], b[i]))
  }

  function NegSlots(a: seq<Num>): (r: seq<Num>)
    ensures |r| == |a|
  {
    seq(|a|, i requires 0 <= i < |a| => Neg(a[i]))
  }

  /** Left rotation by `steps` modulo the length; the result at `i` is the input at `i + steps`. */
  function RotateSlots(a: seq<Num>, steps: int): (r: seq<Num>)
    requires |a| > 0
    ensures |r| == |a|
  {
    var shift := steps % |a|;
    a[shift..] + a[..shift]
  }

  predicate Multiplies(kind: ComputeKind) {
    kind == MulCC || kind == MulCP
  }

  predicate Binary(kind: ComputeKind) {
    |ExpectedInputs(kind)| == 2
  }

  /** The signature rule of a binary operation, shared by submission and execution. */
  function BinaryMeta(kind: ComputeKind, a: Meta, b: Meta): Checked<Meta>
  {
    if a.context != b.context || a.degree != b.degree || a.level != b.level || a.ntt != b.ntt then
      Failure(IncompatibleMetadata)
    else if !Multiplies(kind) then
      if a.scale != b.scale then Failure(ScaleMismatch) else Success(a)
    else if b.scale > INT_MAX - a.scale || a.scale + b.scale < -0x8000_0000 then Failure(ScaleOverflow)
    else
      var scaled := a.(scale := a.scale + b.scale);
      if kind == MulCP then Success(scaled)
      else
        var components := a.components + b.components - 1;
        if -0x8000_0000 <= components <= INT_MAX then Success(scaled.(components := components))
        else Failure(ComponentOverflow)
  }

  /** The signature rule of a unary operation as checked at submission. */
  function UnaryMeta(op: ComputeOp, a: Meta): Checked<Meta> {
    match op.kind
    case Rescale =>
      if !op.attrs.RescaleAttrs? then Failure(WrongAttrs)
      else if op.attrs.level >= a.level then Failure(RescaleMustLower)
      else Success(a.(level := op.attrs.level, scale := op.attrs.scale))
    case ModSwitch =>
      if !op.attrs.ModSwitchAttrs? then Failure(WrongAttrs)
      else if op.attrs.level >= a.level then Failure(ModSwitchMustLower)
      else Success(a.(level := op.attrs.level))
    case Relinearize =>
      if a.components <= 2 then Failure(RelinearizeComponents) else Success(a.(components := 2))
    case Boot =>
      if !op.attrs.BootAttrs? then Failure(WrongAttrs)
      else Success(a.(level := op.attrs.level, scale := op.attrs.scale, components := op.attrs.components))
    case _ => Success(a)
  }

  /** What `compute_metadata` promises at submission from the operand signatures alone. */
  function ComputeMetadata(op: ComputeOp, inputs: seq<Sig>): Checked<Meta> {
    var kinds := ExpectedInputs(op.kind);
    if |inputs| != |kinds| || exists i | 0 <= i < |kinds| :: inputs[i].kind != kinds[i] then Failure(TypeMismatch)
    else if Binary(op.kind) then BinaryMeta(op.kind, inputs[0].meta, inputs[1].meta)
    else UnaryMeta(op, inputs[0].meta)
  }

  /** The slot part of an operation, once the signatures are known to fit. */
  function ComputeSlots(op: ComputeOp, inputs: seq<Payload>): Checked<seq<Num>>
    requires |inputs| == |ExpectedInputs(op.kind)|
  {
    if Binary(op.kind) then
      if |inputs[0].slots| != |inputs[1].slots| then Failure(SlotCountMismatch)
      else Success(ZipSlots(op.kind, inputs[0].slots, inputs[1].slots))
    else
      match op.kind
      case Negate => Success(NegSlots(inputs[0].slots))
      case Rotate =>
        if !op.attrs.RotateAttrs? then Failure(WrongAttrs)
        else if inputs[0].slots == [] then Failure(NoSlots)
        else Success(RotateSlots(inputs[0].slots, op.attrs.steps))
      case Rescale =>
        if op.attrs.RescaleAttrs? && op.attrs.scale < 0 then Failure(InvalidRescaledScale) else Success(inputs[0].slots)
      case _ => Success(inputs[0].slots)
  }

  function Signatures(inputs: seq<Payload>): (r: seq<Sig>)
    ensures |r| == |inputs|
  {
    seq(|inputs|, i requires 0 <= i < |inputs| => inputs[i].Signature())
  }

  /** `compute_now`: the value of an operation on materialized operands. */
  function ComputeNow(op: ComputeOp, inputs: seq<Payload>): Checked<Payload> {
    var meta :- ComputeMetadata(op, Signatures(inputs));
    var slots :- ComputeSlots(op, inputs);
    Success(Payload(Ciphertext, slots, meta))
  }

  /** The runtime's zero normalization before an encode. */
  function NormalizeZero(bits: Bits): Bits {
    if bits == NEGATIVE_ZERO then 0 else bits
  }

  /** `encode_plaintext`: zero normalization, padding to the slot capacity, and `make_plain`. */
  function EncodePlaintext(degree: nat, desc: ValueDesc, values: seq<Bits>): Checked<Payload> {
    var capacity := degree / 2;
    if |values| > capacity then Failure(TooManySlots)
    else if capacity == 0 then Failure(NoSlots)
    else if desc.context == "" || degree == 0 || desc.level < 0 || desc.scale < 0 then Failure(InvalidMetadata)
    else
      var slots := seq(capacity, i requires 0 <= i < capacity =>
        Lit(if i < |values| then NormalizeZero(values[i]) else 0));
      Success(Payload(Plaintext, slots, Meta(desc.context, degree, desc.level, desc.scale, desc.ntt, 1)))
  }

  /** `validate_value`: everything but the slots. */
  predicate Validates(value: Payload, desc: ValueDesc, degree: nat) {
    && value.kind == desc.kind
    && value.meta == Meta(desc.context, degree, desc.level, desc.scale, desc.ntt, desc.components)
  }

  /** A value as a verified plan expects it: valid, and filling every slot. */
  predicate Matches(value: Payload, desc: ValueDesc, degree: nat) {
    Validates(value, desc, degree) && |value.slots| == degree / 2
  }
}
