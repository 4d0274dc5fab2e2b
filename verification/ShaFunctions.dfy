/** The logical functions of SHA-256 on 32-bit vectors: section 4.1.2 of FIPS 180-4 in terms of choice, majority,
    rotation and shift. */
module ShaFunctions {
  import opened Sha256

  function Turn(b: bv32, n: nat): bv32
    requires n < 32
  {
    b.RotateRight(n)
  }

  function Quotient8(b: bv32): bv32 { b / 8 }
  function Quotient1024(b: bv32): bv32 { b / 1024 }

  lemma Back(b: bv32)
    ensures ToBits(FromBits(b)) == b
  {
  }

  lemma XorBits(x: Word, y: Word)
    ensures ToBits(Xor(x, y)) == ToBits(x) ^ ToBits(y)
  {
    Back(ToBits(x) ^ ToBits(y));
  }

  lemma AndBits(x: Word, y: Word)
    ensures ToBits(And(x, y)) == ToBits(x) & ToBits(y)
  {
    Back(ToBits(x) & ToBits(y));
  }

  lemma NotBits(x: Word)
    ensures ToBits(Not(x)) == !ToBits(x)
  {
    Back(!ToBits(x));
  }

  lemma Turn2(x: Word)
    ensures ToBits(Rotr(x, 2)) == Turn(ToBits(x), 2)
  {
    Back((ToBits(x) >> 2) | (ToBits(x) << 30));
  }

  lemma Turn6(x: Word)
    ensures ToBits(Rotr(x, 6)) == Turn(ToBits(x), 6)
  {
    Back((ToBits(x) >> 6) | (ToBits(x) << 26));
  }

  lemma Turn7(x: Word)
    ensures ToBits(Rotr(x, 7)) == Turn(ToBits(x), 7)
  {
    Back((ToBits(x) >> 7) | (ToBits(x) << 25));
  }

  lemma Turn11(x: Word)
    ensures ToBits(Rotr(x, 11)) == Turn(ToBits(x), 11)
  {
    Back((ToBits(x) >> 11) | (ToBits(x) << 21));
  }

  lemma Turn13(x: Word)
    ensures ToBits(Rotr(x, 13)) == Turn(ToBits(x), 13)
  {
    Back((ToBits(x) >> 13) | (ToBits(x) << 19));
  }

  lemma Turn17(x: Word)
    ensures ToBits(Rotr(x, 17)) == Turn(ToBits(x), 17)
  {
    Back((ToBits(x) >> 17) | (ToBits(x) << 15));
  }

  lemma Turn18(x: Word)
    ensures ToBits(Rotr(x, 18)) == Turn(ToBits(x), 18)
  {
    Back((ToBits(x) >> 18) | (ToBits(x) << 14));
  }

  lemma Turn19(x: Word)
    ensures ToBits(Rotr(x, 19)) == Turn(ToBits(x), 19)
  {
    Back((ToBits(x) >> 19) | (ToBits(x) << 13));
  }

  lemma Turn22(x: Word)
    ensures ToBits(Rotr(x, 22)) == Turn(ToBits(x), 22)
  {
    Back((ToBits(x) >> 22) | (ToBits(x) << 10));
  }

  lemma Turn25(x: Word)
    ensures ToBits(Rotr(x, 25)) == Turn(ToBits(x), 25)
  {
    Back((ToBits(x) >> 25) | (ToBits(x) << 7));
  }

  lemma ShiftBy3(x: Word)
    ensures ToBits(Shr(x, 3)) == Quotient8(ToBits(x))
  {
    Back(ToBits(x) >> 3);
  }

  lemma ShiftBy10(x: Word)
    ensures ToBits(Shr(x, 10)) == Quotient1024(ToBits(x))
  {
    Back(ToBits(x) >> 10);
  }

  lemma XorOfThree(a: Word, b: Word, c: Word, p: bv32, q: bv32, r: bv32)
    requires ToBits(a) == p && ToBits(b) == q && ToBits(c) == r
    ensures ToBits(Xor(Xor(a, b), c)) == p ^ q ^ r
  {
    hide Xor, ToBits;
    XorBits(a, b);
    XorBits(Xor(a, b), c);
  }

  lemma BigSigma0Bits(x: Word, b: bv32)
    requires b == ToBits(x)
    ensures ToBits(BigSigma0(x)) == Turn(b, 2) ^ Turn(b, 13) ^ Turn(b, 22)
  {
    hide Rotr, ToBits, Xor, Turn;
    Turn2(x);
    Turn13(x);
    Turn22(x);
    XorOfThree(Rotr(x, 2), Rotr(x, 13), Rotr(x, 22), Turn(b, 2), Turn(b, 13), Turn(b, 22));
  }

  lemma BigSigma1Bits(x: Word, b: bv32)
    requires b == ToBits(x)
    ensures ToBits(BigSigma1(x)) == Turn(b, 6) ^ Turn(b, 11) ^ Turn(b, 25)
  {
    hide Rotr, ToBits, Xor, Turn;
    Turn6(x);
    Turn11(x);
    Turn25(x);
    XorOfThree(Rotr(x, 6), Rotr(x, 11), Rotr(x, 25), Turn(b, 6), Turn(b, 11), Turn(b, 25));
  }

  lemma SmallSigma0Bits(x: Word, b: bv32)
    requires b == ToBits(x)
    ensures ToBits(SmallSigma0(x)) == Turn(b, 7) ^ Turn(b, 18) ^ Quotient8(b)
  {
    hide Rotr, Shr, ToBits, Xor, Turn, Quotient8, Quotient1024;
    Turn7(x);
    Turn18(x);
    ShiftBy3(x);
    XorOfThree(Rotr(x, 7), Rotr(x, 18), Shr(x, 3), Turn(b, 7), Turn(b, 18), Quotient8(b));
  }

  lemma SmallSigma1Bits(x: Word, b: bv32)
    requires b == ToBits(x)
    ensures ToBits(SmallSigma1(x)) == Turn(b, 17) ^ Turn(b, 19) ^ Quotient1024(b)
  {
    hide Rotr, Shr, ToBits, Xor, Turn, Quotient8, Quotient1024;
    Turn17(x);
    Turn19(x);
    ShiftBy10(x);
    XorOfThree(Rotr(x, 17), Rotr(x, 19), Shr(x, 10), Turn(b, 17), Turn(b, 19), Quotient1024(b));
  }

  /** Ch chooses: where a bit of `x` is set it takes the bit of `y`, elsewhere that of `z`. */
  lemma ChChooses(x: Word, y: Word, z: Word, a: bv32, b: bv32, c: bv32)
    requires a == ToBits(x) && b == ToBits(y) && c == ToBits(z)
    ensures a & ToBits(Ch(x, y, z)) == a & b
    ensures !a & ToBits(Ch(x, y, z)) == !a & c
  {
    hide Xor, And, Not, ToBits;
    AndBits(x, y);
    NotBits(x);
    AndBits(Not(x), z);
    XorBits(And(x, y), And(Not(x), z));
    Choice(a, b, c);
  }

  lemma Choice(a: bv32, b: bv32, c: bv32)
    ensures a & ((a & b) ^ (!a & c)) == a & b
    ensures !a & ((a & b) ^ (!a & c)) == !a & c
  {
  }

  function MajorityOf(a: bv32, b: bv32, c: bv32): bv32 {
    (a & b) ^ (a & c) ^ (b & c)
  }

  lemma MajTerms(x: Word, y: Word, z: Word)
    ensures ToBits(Maj(x, y, z)) == ToBits(And(x, y)) ^ ToBits(And(x, z)) ^ ToBits(And(y, z))
  {
    hide Xor, And, ToBits;
    XorOfThree(And(x, y), And(x, z), And(y, z), ToBits(And(x, y)), ToBits(And(x, z)), ToBits(And(y, z)));
  }

  lemma MajBits(x: Word, y: Word, z: Word)
    ensures ToBits(Maj(x, y, z)) == MajorityOf(ToBits(x), ToBits(y), ToBits(z))
  {
    hide Maj, And, ToBits;
    MajTerms(x, y, z);
    AndBits(x, y);
    AndBits(x, z);
    AndBits(y, z);
  }

  lemma Majority(a: bv32, b: bv32, c: bv32, m: bv32)
    requires m == MajorityOf(a, b, c)
    ensures !(a ^ b) & m == !(a ^ b) & a
    ensures (a ^ b) & m == (a ^ b) & c
  {
  }

  /** Maj is the majority: where `x` and `y` agree it takes their bit, elsewhere that of `z`. */
  lemma MajDecides(x: Word, y: Word, z: Word, a: bv32, b: bv32, c: bv32, m: bv32)
    requires a == ToBits(x) && b == ToBits(y) && c == ToBits(z) && m == ToBits(Maj(x, y, z))
    ensures !(a ^ b) & m == !(a ^ b) & a
    ensures (a ^ b) & m == (a ^ b) & c
  {
    hide Maj, ToBits, MajorityOf;
    MajBits(x, y, z);
    Majority(a, b, c, m);
  }

  /** A sum keeps everything but a carry of 2^32. */
  lemma PlusDropsTheCarry(x: Word, y: Word)
    ensures x + y == Plus(x, y) || x + y == Plus(x, y) + 0x1_0000_0000
  {
  }

  /** The first sixteen words of a schedule are the numbers their four bytes stand for. */
  lemma WordsAreBigEndian(block: seq<Byte>, t: nat)
    requires |block| == 64 && t < 16
    ensures W(block, t) == ReadLength(block[4 * t..4 * t + 4])
  {
    var s := block[4 * t..4 * t + 4];
    assert s[..3][..2] == s[..2] && s[..2][..1] == s[..1] && s[..1][..0] == [];
    assert ReadLength(s[..1]) == s[0];
    assert ReadLength(s[..2]) == 256 * ReadLength(s[..1]) + s[1];
    assert ReadLength(s[..3]) == 256 * ReadLength(s[..2]) + s[2];
  }

  // ---- Hexadecimal digits ----

  function DigitValue(c: char): nat
    requires '0' <= c <= '9' || 'a' <= c <= 'f'
  {
    if c <= '9' then c as nat - '0' as nat else c as nat - 'a' as nat + 10
  }

  predicate HexText(s: string) {
    forall i :: 0 <= i < |s| ==> '0' <= s[i] <= '9' || 'a' <= s[i] <= 'f'
  }

  function HexValue(s: string): nat
    requires HexText(s)
  {
    if s == [] then 0 else 16 * HexValue(s[..|s| - 1]) + DigitValue(s[|s| - 1])
  }

  lemma DigitIsNibble(word: Word, i: nat)
    requires i < 8
    ensures DigitValue(Digit(word, i)) == ShiftNibbles(word, 7 - i) % 16
  {
    hide ShiftNibbles;
    var k := ShiftNibbles(word, 7 - i) % 16;
    assert HexDigits[k] == if k < 10 then ('0' as nat + k) as char else ('a' as nat + k - 10) as char;
  }

  lemma ShiftAgain(x: nat, k: nat)
    ensures ShiftNibbles(x, k + 1) == ShiftNibbles(x, k) / 16
  {
    if k > 0 {
      ShiftAgain(x / 16, k - 1);
    }
  }

  lemma NextDigit(t: string, word: Word, i: nat)
    requires |t| == i + 1 && i < 8 && HexText(t[..i]) && t[i] == Digit(word, i)
    ensures HexText(t) && HexValue(t) == 16 * HexValue(t[..i]) + ShiftNibbles(word, 7 - i) % 16
  {
    hide Digit, ShiftNibbles, DigitValue;
    DigitIsNibble(word, i);
    assert forall j :: 0 <= j < i ==> t[j] == t[..i][j];
  }

  /** The first `n` digits of a word stand for the word without its last digits. */
  lemma {:induction false} FirstDigits(words: seq<Word>, k: nat, n: nat)
    requires k < |words| && n <= 8
    ensures HexText(Hex(words)[8 * k..8 * k + n])
    ensures HexValue(Hex(words)[8 * k..8 * k + n]) == ShiftNibbles(words[k], 8 - n)
  {
    hide Digit, HexValue, HexText, ShiftNibbles;
    var s := Hex(words)[8 * k..8 * k + n];
    if n == 0 {
      SmallShift(words[k]);
      assert HexText(s) && HexValue(s) == 0 by { NoDigits(s); }
    } else {
      FirstDigits(words, k, n - 1);
      assert s[..n - 1] == Hex(words)[8 * k..8 * k + (n - 1)];
      assert s[n - 1] == Digit(words[k], n - 1);
      NextDigit(s, words[k], n - 1);
      ShiftAgain(words[k], 8 - n);
    }
  }

  lemma NoDigits(s: string)
    requires s == []
    ensures HexText(s) && HexValue(s) == 0
  {
  }

  lemma SmallShift(x: Word)
    ensures ShiftNibbles(x, 8) == 0
  {
    var y := x / 16 / 16 / 16 / 16;
    assert y < 0x1_0000 && y / 16 / 16 / 16 / 16 == 0;
    assert ShiftNibbles(x, 8) == ShiftNibbles(x / 16 / 16, 6) == ShiftNibbles(y, 4);
    assert ShiftNibbles(y, 4) == ShiftNibbles(y / 16 / 16, 2) == ShiftNibbles(y / 16 / 16 / 16 / 16, 0);
  }

  /** The eight digits of a word read back as the word. */
  lemma HexReadsBack(words: seq<Word>, k: nat)
    requires k < |words|
    ensures HexText(Hex(words)[8 * k..8 * k + 8]) && HexValue(Hex(words)[8 * k..8 * k + 8]) == words[k]
  {
    FirstDigits(words, k, 8);
  }

  // ---- Every text of digits is the notation of some words ----

  function Sixteens(n: nat): nat {
    if n == 0 then 1 else 16 * Sixteens(n - 1)
  }

  lemma {:induction false} HexBound(t: string)
    requires HexText(t)
    ensures HexValue(t) < Sixteens(|t|)
  {
    if t != [] {
      HexBound(t[..|t| - 1]);
    }
  }

  lemma {:induction false} ShiftedValue(t: string, j: nat)
    requires HexText(t) && j <= |t|
    ensures ShiftNibbles(HexValue(t), j) == HexValue(t[..|t| - j])
  {
    if j == 0 {
      assert t[..|t|] == t;
    } else {
      ShiftedValue(t[..|t| - 1], j - 1);
      assert t[..|t| - 1][..|t| - 1 - (j - 1)] == t[..|t| - j];
    }
  }

  lemma DigitOfValue(c: char)
    requires '0' <= c <= '9' || 'a' <= c <= 'f'
    ensures DigitValue(c) < 16 && HexDigits[DigitValue(c)] == c
  {
    var k := DigitValue(c);
    assert k < 16;
    assert HexDigits[k] == if k < 10 then ('0' as nat + k) as char else ('a' as nat + k - 10) as char;
  }

  lemma LastNibble(t: string)
    requires t != [] && HexText(t)
    ensures '0' <= t[|t| - 1] <= '9' || 'a' <= t[|t| - 1] <= 'f'
    ensures HexValue(t) % 16 == DigitValue(t[|t| - 1])
  {
    hide DigitValue, HexDigits;
    var c := t[|t| - 1];
    DigitOfValue(c);
    assert HexValue(t) == 16 * HexValue(t[..|t| - 1]) + DigitValue(c);
    Residue16(HexValue(t[..|t| - 1]), DigitValue(c));
  }

  lemma Residue16(q: nat, d: nat)
    requires d < 16
    ensures (16 * q + d) % 16 == d && (16 * q + d) / 16 == q
  {
  }

  lemma EightNibbles(t: string)
    requires |t| == 8 && HexText(t)
    ensures HexValue(t) < 0x1_0000_0000
  {
    hide HexValue;
    HexBound(t);
    assert Sixteens(4) == 0x1_0000;
    assert Sixteens(8) == 0x1_0000_0000;
  }

  /** The word eight digits stand for is written with these digits. */
  lemma DigitsOfWord(t: string, i: nat)
    requires |t| == 8 && HexText(t) && i < 8
    ensures HexValue(t) < 0x1_0000_0000 && Digit(HexValue(t), i) == t[i]
  {
    hide HexValue, ShiftNibbles, DigitValue, HexDigits;
    EightNibbles(t);
    ShiftedValue(t, 7 - i);
    var front := t[..i + 1];
    assert front[|front| - 1] == t[i];
    LastNibble(front);
    DigitOfValue(t[i]);
  }

  /** Any lowercase hexadecimal text of 8 digits a word is the notation of exactly these words. */
  lemma HexIsOnto(s: string, n: nat) returns (words: seq<Word>)
    requires |s| == 8 * n && HexText(s)
    ensures |words| == n && Hex(words) == s
  {
    hide Digit, HexValue;
    forall k | 0 <= k < n ensures HexValue(s[8 * k..8 * k + 8]) < 0x1_0000_0000 {
      DigitsOfWord(s[8 * k..8 * k + 8], 0);
    }
    words := seq(n, k requires 0 <= k < n => HexValue(s[8 * k..8 * k + 8]));
    forall j | 0 <= j < |s| ensures Hex(words)[j] == s[j] {
      var t := s[8 * (j / 8)..8 * (j / 8) + 8];
      DigitsOfWord(t, j % 8);
      assert t[j % 8] == s[j];
    }
  }
}
