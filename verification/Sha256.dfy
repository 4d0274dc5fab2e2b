/** SHA-256 over the padded message of FIPS 180-4, and the program's in-place computation of it
    (runtime/utils/sha256.cpp). */
module Sha256 {
  import opened Wrappers

  type Byte = x: nat | x < 0x100

  /** A 32-bit word; sums are taken modulo 2^32, the logical operations on the bits. */
  type Word = x: nat | x < 0x1_0000_0000

  function ToBits(x: Word): bv32 { x as bv32 }
  function FromBits(x: bv32): Word { x as nat }

  // ---- FIPS 180-4 ----

  /** Section 4.2.2. */
  const K: seq<seq<Word>> := [
    [0x428a2f98, 0x71374491, 0xb5c0fbcf, 0xe9b5dba5, 0x3956c25b, 0x59f111f1, 0x923f82a4, 0xab1c5ed5],
    [0xd807aa98, 0x12835b01, 0x243185be, 0x550c7dc3, 0x72be5d74, 0x80deb1fe, 0x9bdc06a7, 0xc19bf174],
    [0xe49b69c1, 0xefbe4786, 0x0fc19dc6, 0x240ca1cc, 0x2de92c6f, 0x4a7484aa, 0x5cb0a9dc, 0x76f988da],
    [0x983e5152, 0xa831c66d, 0xb00327c8, 0xbf597fc7, 0xc6e00bf3, 0xd5a79147, 0x06ca6351, 0x14292967],
    [0x27b70a85, 0x2e1b2138, 0x4d2c6dfc, 0x53380d13, 0x650a7354, 0x766a0abb, 0x81c2c92e, 0x92722c85],
    [0xa2bfe8a1, 0xa81a664b, 0xc24b8b70, 0xc76c51a3, 0xd192e819, 0xd6990624, 0xf40e3585, 0x106aa070],
    [0x19a4c116, 0x1e376c08, 0x2748774c, 0x34b0bcb5, 0x391c0cb3, 0x4ed8aa4a, 0x5b9cca4f, 0x682e6ff3],
    [0x748f82ee, 0x78a5636f, 0x84c87814, 0x8cc70208, 0x90befffa, 0xa4506ceb, 0xbef9a3f7, 0xc67178f2]]

  function RoundConstant(t: nat): Word
    requires t < 64
  {
    K[t / 8][t % 8]
  }

  /** Section 5.3.3. */
  const InitialHash: seq<Word> := [
    0x6a09e667, 0xbb67ae85, 0x3c6ef372, 0xa54ff53a, 0x510e527f, 0x9b05688c, 0x1f83d9ab, 0x5be0cd19]

  /** Section 3.2: rotation to the right. */
  function Rotr(x: Word, n: nat): Word
    requires 0 < n < 32
  {
    FromBits((ToBits(x) >> n) | (ToBits(x) << (32 - n)))
  }

  /** Addition modulo 2^32. */
  function Plus(x: Word, y: Word): Word {
    (x + y) % 0x1_0000_0000
  }

  function And(x: Word, y: Word): Word { FromBits(ToBits(x) & ToBits(y)) }
  function Xor(x: Word, y: Word): Word { FromBits(ToBits(x) ^ ToBits(y)) }
  function Not(x: Word): Word { FromBits(!ToBits(x)) }
  function Shr(x: Word, n: nat): Word requires n < 32 { FromBits(ToBits(x) >> n) }

  /** Section 4.1.2. */
  function Ch(x: Word, y: Word, z: Word): Word { Xor(And(x, y), And(Not(x), z)) }
  function Maj(x: Word, y: Word, z: Word): Word { Xor(Xor(And(x, y), And(x, z)), And(y, z)) }
  function BigSigma0(x: Word): Word { Xor(Xor(Rotr(x, 2), Rotr(x, 13)), Rotr(x, 22)) }
  function BigSigma1(x: Word): Word { Xor(Xor(Rotr(x, 6), Rotr(x, 11)), Rotr(x, 25)) }
  function SmallSigma0(x: Word): Word { Xor(Xor(Rotr(x, 7), Rotr(x, 18)), Shr(x, 3)) }
  function SmallSigma1(x: Word): Word { Xor(Xor(Rotr(x, 17), Rotr(x, 19)), Shr(x, 10)) }

  /** Four bytes, most significant first. */
  function BigEndian(a: Byte, b: Byte, c: Byte, d: Byte): Word {
    0x100_0000 * a + 0x1_0000 * b + 0x100 * c + d
  }

  /** Section 6.2.2, step 1: the message schedule of a block. */
  function W(block: seq<Byte>, t: nat): Word
    requires |block| == 64 && t < 64
  {
    if t < 16 then BigEndian(block[4 * t], block[4 * t + 1], block[4 * t + 2], block[4 * t + 3])
    else Plus(Plus(Plus(SmallSigma1(W(block, t - 2)), W(block, t - 7)), SmallSigma0(W(block, t - 15))), W(block, t - 16))
  }

  datatype Working = Working(a: Word, b: Word, c: Word, d: Word, e: Word, f: Word, g: Word, h: Word)

  /** Step 3, one round. */
  function Round(v: Working, k: Word, w: Word): Working {
    var t1 := Plus(Plus(Plus(Plus(v.h, BigSigma1(v.e)), Ch(v.e, v.f, v.g)), k), w);
    var t2 := Plus(BigSigma0(v.a), Maj(v.a, v.b, v.c));
    Working(Plus(t1, t2), v.a, v.b, v.c, Plus(v.d, t1), v.e, v.f, v.g)
  }

  function Rounds(block: seq<Byte>, v: Working, n: nat): Working
    requires |block| == 64 && n <= 64
  {
    if n == 0 then v else Round(Rounds(block, v, n - 1), RoundConstant(n - 1), W(block, n - 1))
  }

  /** Steps 2 to 4: the intermediate hash value after one more block. */
  function Compress(hash: seq<Word>, block: seq<Byte>): (r: seq<Word>)
    requires |hash| == 8 && |block| == 64
    ensures |r| == 8
  {
    var v := Rounds(block, Working(hash[0], hash[1], hash[2], hash[3], hash[4], hash[5], hash[6], hash[7]), 64);
    [Plus(hash[0], v.a), Plus(hash[1], v.b), Plus(hash[2], v.c), Plus(hash[3], v.d),
     Plus(hash[4], v.e), Plus(hash[5], v.f), Plus(hash[6], v.g), Plus(hash[7], v.h)]
  }

  /** Section 5.2.1: block `i`. */
  function Block(m: seq<Byte>, i: nat): (b: seq<Byte>)
    requires 64 * (i + 1) <= |m|
    ensures |b| == 64
  {
    m[64 * i..64 * i + 64]
  }

  /** The hash value after the first `n` blocks. */
  function HashBlocks(m: seq<Byte>, n: nat): (r: seq<Word>)
    requires 64 * n <= |m|
    ensures |r| == 8
  {
    if n == 0 then InitialHash else Compress(HashBlocks(m, n - 1), Block(m, n - 1))
  }

  /** A right shift by `k` bytes. */
  function ShiftBytes(x: nat, k: nat): nat {
    if k == 0 then x else ShiftBytes(x / 256, k - 1)
  }

  function LowByte(x: nat): Byte {
    x % 256
  }

  /** Byte `k` of a number, the least significant one being byte 0: what remains after `k` shifts by eight bits. */
  function LengthByte(bits: nat, k: nat): Byte {
    LowByte(ShiftBytes(bits, k))
  }

  /** The 64-bit big-endian block of a length. */
  function Length64(bits: nat): (s: seq<Byte>)
    ensures |s| == 8
  {
    seq(8, i requires 0 <= i < 8 => LengthByte(bits, 7 - i))
  }

  /** The number eight big-endian bytes stand for. */
  function ReadLength(s: seq<Byte>): nat {
    if s == [] then 0 else 256 * ReadLength(s[..|s| - 1]) + s[|s| - 1]
  }

  /** The length field determines the length: it reads back as the number of bits. */
  lemma LengthReadsBack(bits: nat)
    requires bits < 0x1_0000_0000_0000_0000
    ensures ReadLength(Length64(bits)) == bits
  {
    ReadsShifted(bits, 8);
    assert Length64(bits)[..8] == Length64(bits);
  }

  /** The first `n` bytes of the field read as the number without its low `8 - n` bytes. */
  lemma {:induction false} ReadsShifted(bits: nat, n: nat)
    requires n <= 8 && bits < 0x1_0000_0000_0000_0000
    ensures ReadLength(Length64(bits)[..n]) == ShiftBytes(bits, 8 - n)
  {
    if n == 0 {
      ShiftedOut(bits, 8);
    } else {
      ReadsShifted(bits, n - 1);
      assert Length64(bits)[..n][..n - 1] == Length64(bits)[..n - 1];
      ShiftMore(bits, 8 - n);
    }
  }

  lemma {:induction false} ShiftMore(x: nat, k: nat)
    ensures ShiftBytes(x, k + 1) == ShiftBytes(x, k) / 256
  {
    if k > 0 {
      ShiftMore(x / 256, k - 1);
    }
  }

  function Bound(k: nat): nat {
    if k == 0 then 1 else 256 * Bound(k - 1)
  }

  lemma {:induction false} ShiftedOut(x: nat, k: nat)
    requires k <= 8 && x < Bound(k)
    ensures ShiftBytes(x, k) == 0
  {
    if k > 0 {
      ShiftedOut(x / 256, k - 1);
    }
  }

  function Zeros(n: nat): (s: seq<Byte>)
    ensures |s| == n
  {
    seq(n, _ => 0)
  }

  /** Bytes of zeros between the end bit and the length. */
  function Gap(n: nat): nat {
    (119 - n % 64) % 64
  }

  /** Section 5.1.1: the message, a one bit, zeros, and the length in 64 bits. */
  function Pad(m: seq<Byte>): (p: seq<Byte>)
    ensures |p| == |m| + 9 + Gap(|m|)
  {
    m + [0x80] + Zeros(Gap(|m|)) + Length64(8 * |m|)
  }

  /** `k` zero bits after the end bit fill the message of `l` bits up to the length field. */
  predicate Fills(l: nat, k: nat) {
    (l + 1 + k) % 512 == 448
  }

  lemma PaddedLength(m: seq<Byte>)
    ensures |Pad(m)| % 64 == 0 && |Pad(m)| == |m| / 64 * 64 + if |m| % 64 < 56 then 64 else 128
  {
  }

  /** The padding is the shortest one that fills the last block: for the number `l` of message bits, the
      number of zero bits is the smallest non-negative solution of l + 1 + k = 448 modulo 512. */
  lemma PaddingIsMinimal(m: seq<Byte>)
    ensures var l, k := 8 * |m|, 8 * Gap(|m|) + 7; Fills(l, k) && forall j: nat :: j < k ==> !Fills(l, j)
  {
    var q, r := |m| / 64, |m| % 64;
    assert Gap(|m|) == if r < 56 then 55 - r else 119 - r;
    var k := 8 * Gap(|m|) + 7;
    forall j: nat | j <= k ensures Fills(8 * |m|, j) <==> j == k {
      Residue(q, 8 * r + 1 + j);
      assert 8 * |m| + 1 + j == 512 * q + (8 * r + 1 + j);
    }
  }

  lemma Residue(q: nat, x: nat)
    requires x < 1024
    ensures (512 * q + x) % 512 == if x < 512 then x else x - 512
  {
  }

  function Hash(m: seq<Byte>): (r: seq<Word>)
    ensures |r| == 8
  {
    PaddedLength(m);
    HashBlocks(Pad(m), |Pad(m)| / 64)
  }

  // ---- Hexadecimal digits ----

  const HexDigits := "0123456789abcdef"

  /** A right shift by `k` groups of four bits. */
  function ShiftNibbles(x: nat, k: nat): nat {
    if k == 0 then x else ShiftNibbles(x / 16, k - 1)
  }

  function Digit(word: Word, i: nat): (c: char)
    requires i < 8
    ensures '0' <= c <= '9' || 'a' <= c <= 'f'
  {
    HexDigits[ShiftNibbles(word, 7 - i) % 16]
  }

  /** The digits of the words, most significant first. */
  function Hex(words: seq<Word>): (s: string)
    ensures |s| == 8 * |words|
    ensures forall i :: 0 <= i < |s| ==> s[i] == Digit(words[i / 8], i % 8)
  {
    seq(8 * |words|, i requires 0 <= i < 8 * |words| => Digit(words[i / 8], i % 8))
  }

  // ---- The program ----

  method Transform(state: array<Word>, block: seq<Byte>)
    requires state.Length == 8 && |block| == 64
    modifies state
    ensures state[..] == Compress(old(state[..]), block)
  {
    hide Plus, Rotr, SmallSigma0, SmallSigma1, BigSigma0, BigSigma1, Ch, Maj, RoundConstant, W;
    var schedule := MakeSchedule(block);
    var v := Working(state[0], state[1], state[2], state[3], state[4], state[5], state[6], state[7]);
    var a, b, c, d := v.a, v.b, v.c, v.d;
    var e, f, g, h := v.e, v.f, v.g, v.h;
    for index := 0 to 64
      invariant Working(a, b, c, d, e, f, g, h) == Rounds(block, v, index)
      invariant state[..] == old(state[..])
    {
      var sum1 := BigSigma1(e);
      var choose := Ch(e, f, g);
      var temp1 := Plus(Plus(Plus(Plus(h, sum1), choose), RoundConstant(index)), schedule[index]);
      var sum0 := BigSigma0(a);
      var majority := Maj(a, b, c);
      var temp2 := Plus(sum0, majority);
      h := g;
      g := f;
      f := e;
      e := Plus(d, temp1);
      d := c;
      c := b;
      b := a;
      a := Plus(temp1, temp2);
    }
    state[0] := Plus(state[0], a);
    state[1] := Plus(state[1], b);
    state[2] := Plus(state[2], c);
    state[3] := Plus(state[3], d);
    state[4] := Plus(state[4], e);
    state[5] := Plus(state[5], f);
    state[6] := Plus(state[6], g);
    state[7] := Plus(state[7], h);
  }

  /** The schedule array, filled from left to right. */
  method MakeSchedule(block: seq<Byte>) returns (schedule: seq<Word>)
    requires |block| == 64
    ensures |schedule| == 64 && forall t :: 0 <= t < 64 ==> schedule[t] == W(block, t)
  {
    hide Plus, Rotr, SmallSigma0, SmallSigma1, BigEndian, W;
    var words := new Word[64](_ => 0);
    for index := 0 to 16
      invariant forall t :: 0 <= t < index ==> words[t] == W(block, t)
    {
      FirstWords(block, index);
      words[index] := BigEndian(block[4 * index], block[4 * index + 1], block[4 * index + 2], block[4 * index + 3]);
    }
    for index := 16 to 64
      invariant forall t :: 0 <= t < index ==> words[t] == W(block, t)
    {
      ScheduleStep(block, index);
      words[index] := Plus(Plus(Plus(words[index - 16], SmallSigma0(words[index - 15])), words[index - 7]), SmallSigma1(words[index - 2]));
    }
    schedule := words[..];
  }

  lemma FirstWords(block: seq<Byte>, t: nat)
    requires |block| == 64 && t < 16
    ensures W(block, t) == BigEndian(block[4 * t], block[4 * t + 1], block[4 * t + 2], block[4 * t + 3])
  {
    hide BigEndian;
  }

  /** The program adds the four terms in another order. */
  lemma ScheduleStep(block: seq<Byte>, t: nat)
    requires |block| == 64 && 16 <= t < 64
    ensures Plus(Plus(Plus(W(block, t - 16), SmallSigma0(W(block, t - 15))), W(block, t - 7)), SmallSigma1(W(block, t - 2))) == W(block, t)
  {
    hide SmallSigma0, SmallSigma1, Plus, BigEndian;
    SumOrder(W(block, t - 16), SmallSigma0(W(block, t - 15)), W(block, t - 7), SmallSigma1(W(block, t - 2)));
  }

  lemma SumOrder(a: Word, b: Word, c: Word, d: Word)
    ensures Plus(Plus(Plus(a, b), c), d) == Plus(Plus(Plus(d, c), b), a)
  {
    hide Plus;
    SumOfFour(a, b, c, d);
    SumOfFour(d, c, b, a);
    assert a + b + c + d == d + c + b + a;
  }

  lemma SumOfFour(a: Word, b: Word, c: Word, d: Word)
    ensures Plus(Plus(Plus(a, b), c), d) == (a + b + c + d) % 0x1_0000_0000
  {
    SumResidue(a + b, c);
    SumResidue(a + b + c, d);
  }

  lemma SumResidue(x: nat, y: nat)
    ensures (x % 0x1_0000_0000 + y) % 0x1_0000_0000 == (x + y) % 0x1_0000_0000
  {
  }

  /** The last one or two blocks, built in a fixed buffer of 128 bytes. */
  method MakeTail(bytes: seq<Byte>) returns (tail: seq<Byte>)
    ensures tail == Pad(bytes)[|bytes| / 64 * 64..]
    ensures |tail| == if |bytes| % 64 < 56 then 64 else 128
  {
    hide LengthByte, Pad;
    var full, remainder := |bytes| / 64, |bytes| % 64;
    var buffer := new Byte[128](_ => 0);
    for i := 0 to remainder
      invariant forall k :: 0 <= k < i ==> buffer[k] == bytes[full * 64 + k]
      invariant forall k :: i <= k < 128 ==> buffer[k] == 0
    {
      buffer[i] := bytes[full * 64 + i];
    }
    buffer[remainder] := 0x80;
    var size := if remainder < 56 then 64 else 128;
    var bits := 8 * |bytes|;
    for index := 0 to 8
      invariant forall k :: 0 <= k < remainder ==> buffer[k] == bytes[full * 64 + k]
      invariant buffer[remainder] == 0x80
      invariant forall k :: remainder < k < size - index ==> buffer[k] == 0
      invariant forall k :: size - index <= k < size ==> buffer[k] == LengthByte(bits, size - 1 - k)
    {
      buffer[size - 1 - index] := LengthByte(bits, index);
    }
    tail := buffer[..size];
    TailBytes(bytes, tail);
  }

  /** The full blocks of the padded message are those of the message. */
  lemma FullBlock(bytes: seq<Byte>, i: nat)
    requires i < |bytes| / 64
    ensures 64 * (i + 1) <= |bytes| && Block(Pad(bytes), i) == bytes[64 * i..64 * i + 64]
  {
    assert Pad(bytes)[..|bytes|] == bytes;
  }

  lemma TailBytes(bytes: seq<Byte>, tail: seq<Byte>)
    requires var r := |bytes| % 64; |tail| == if r < 56 then 64 else 128
    requires var full, r := |bytes| / 64, |bytes| % 64;
      && (forall k :: 0 <= k < r ==> tail[k] == bytes[full * 64 + k])
      && tail[r] == 0x80
      && (forall k :: r < k < |tail| - 8 ==> tail[k] == 0)
      && (forall k :: |tail| - 8 <= k < |tail| ==> tail[k] == LengthByte(8 * |bytes|, |tail| - 1 - k))
    ensures tail == Pad(bytes)[|bytes| / 64 * 64..]
  {
    hide LengthByte;
    var base := |bytes| / 64 * 64;
    var padded := Pad(bytes);
    PaddedLength(bytes);
    forall k | 0 <= k < |tail| ensures tail[k] == padded[base + k] {
    }
  }

  /** The whole function: inputs whose bit length does not fit 64 bits are refused, and the digest of any
      other input is the hash of its padded message, in 64 lowercase digits. */
  method Sha256Hex(bytes: seq<Byte>) returns (r: Result<string, ()>)
    ensures r.Success? <==> 8 * |bytes| < 0x1_0000_0000_0000_0000
    ensures r.Success? ==> r.value == Hex(Hash(bytes)) && |r.value| == 64
    ensures r.Success? ==> forall i :: 0 <= i < 64 ==> '0' <= r.value[i] <= '9' || 'a' <= r.value[i] <= 'f'
  {
    hide Compress, Digit, Pad;
    if |bytes| > 0xffff_ffff_ffff_ffff / 8 { return Failure(()); }
    var state := new Word[8](i requires 0 <= i < 8 => InitialHash[i]);
    var padded := Pad(bytes);
    PaddedLength(bytes);
    var full := |bytes| / 64;
    assert state[..] == InitialHash;
    for index := 0 to full
      invariant state[..] == HashBlocks(padded, index)
    {
      FullBlock(bytes, index);
      Transform(state, bytes[64 * index..64 * index + 64]);
    }
    var tail := MakeTail(bytes);
    assert tail[..64] == Block(padded, full);
    Transform(state, tail[..64]);
    assert state[..] == HashBlocks(padded, full + 1);
    if |tail| == 128 {
      assert tail[64..] == Block(padded, full + 1);
      Transform(state, tail[64..]);
    }
    assert |padded| == 64 * full + |tail| && |padded| / 64 == full + |tail| / 64;
    assert state[..] == Hash(bytes);
    var text := MakeHex(state[..]);
    r := Success(text);
  }

  method MakeHex(words: seq<Word>) returns (text: string)
    ensures text == Hex(words)
  {
    hide Digit;
    text := "";
    for w := 0 to |words|
      invariant |text| == 8 * w && text == Hex(words)[..8 * w]
    {
      var shift := 28;
      while shift >= 0
        invariant -4 <= shift <= 28 && shift % 4 == 0
        invariant |text| == 8 * w + (28 - shift) / 4 && text == Hex(words)[..|text|]
      {
        text := text + [Digit(words[w], (28 - shift) / 4)];
        shift := shift - 4;
      }
    }
  }
}
