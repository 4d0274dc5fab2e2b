/** The constants of SHA-256 are what sections 4.2.2 and 5.3.3 of FIPS 180-4 say they are: the first 32 bits of
    the fractional parts of the roots of the first primes. */
module ShaConstants {
  import opened Sha256
  import Verifier

  predicate Divides(d: nat, n: nat)
    requires d > 0
  {
    n % d == 0
  }

  predicate Prime(n: nat) {
    n >= 2 && forall d :: 2 <= d < n ==> !Divides(d, n)
  }

  function PrimesBelow(n: nat): nat {
    if n == 0 then 0 else PrimesBelow(n - 1) + if Prime(n - 1) then 1 else 0
  }

  /** `p` is the prime with `t` primes before it. */
  predicate NthPrime(t: nat, p: nat) {
    Prime(p) && PrimesBelow(p) == t
  }

  /** `k` is the first 32 bits of the fractional part of the cube root of `p`, whose integer part is `q`. */
  predicate CubeRootBits(p: nat, q: nat, k: Word) {
    var x := q * 0x1_0000_0000 + k;
    x * x * x <= p * 0x1_0000_0000_0000_0000_0000_0000 < (x + 1) * (x + 1) * (x + 1)
  }

  /** The same for the square root. */
  predicate SquareRootBits(p: nat, q: nat, k: Word) {
    var x := q * 0x1_0000_0000 + k;
    x * x <= p * 0x1_0000_0000_0000_0000 < (x + 1) * (x + 1)
  }

  // ---- Primes up to 18 squared ----

  /** Trial division by the primes up to 17. */
  predicate Trial(n: nat) {
    && n >= 2
    && (n % 2 != 0 || n == 2) && (n % 3 != 0 || n == 3) && (n % 5 != 0 || n == 5) && (n % 7 != 0 || n == 7)
    && (n % 11 != 0 || n == 11) && (n % 13 != 0 || n == 13) && (n % 17 != 0 || n == 17)
  }

  lemma TrialDecides(n: nat)
    requires n < 324
    ensures Prime(n) <==> Trial(n)
  {
    if Prime(n) {
      assert !(2 < n && Divides(2, n)) && !(3 < n && Divides(3, n)) && !(5 < n && Divides(5, n)) && !(7 < n && Divides(7, n));
      assert !(11 < n && Divides(11, n)) && !(13 < n && Divides(13, n)) && !(17 < n && Divides(17, n));
    }
    forall d | Trial(n) && 2 <= d < n ensures !Divides(d, n) {
      if Divides(d, n) {
        Factors(n, d, n / d);
      }
    }
  }

  lemma Factors(n: nat, d: nat, e: nat)
    requires n < 324 && 2 <= d < n && e == n / d && n % d == 0
    ensures !Trial(n)
  {
    assert n == d * e;
    assert e >= 2;
    if d < 18 {
      SmallFactor(n, d, e);
    } else {
      assert 18 * e <= d * e;
      SmallFactor(n, e, d);
    }
  }

  lemma SmallFactor(n: nat, d: nat, e: nat)
    requires 2 <= d < 18 && d < n && n == d * e
    ensures !Trial(n)
  {
    if d == 2 || d == 3 || d == 5 || d == 7 || d == 11 || d == 13 || d == 17 {
      Verifier.EuclideanUnique(n, d, e, 0);
    } else if d == 9 || d == 15 {
      Verifier.EuclideanUnique(n, 3, (d / 3) * e, 0);
    } else {
      Verifier.EuclideanUnique(n, 2, (d / 2) * e, 0);
    }
  }

  /** The odd numbers strictly between `p` and `next`, at most six of them, fail the trial. */
  predicate Skips(p: nat, next: nat) {
    && p % 2 == 1 && next <= p + 14
    && (p + 2 < next ==> !Trial(p + 2)) && (p + 4 < next ==> !Trial(p + 4)) && (p + 6 < next ==> !Trial(p + 6))
    && (p + 8 < next ==> !Trial(p + 8)) && (p + 10 < next ==> !Trial(p + 10)) && (p + 12 < next ==> !Trial(p + 12))
  }

  lemma NextPrime(t: nat, p: nat, next: nat)
    requires NthPrime(t, p) && p < next < 324 && Trial(next) && (next == p + 1 || Skips(p, next))
    ensures NthPrime(t + 1, next)
  {
    hide PrimesBelow;
    TrialDecides(next);
    forall n | p < n < next ensures !Trial(n) {
      if n % 2 == 0 {
        assert n > 2;
      } else {
        OddBetween(p, n);
      }
    }
    NoneBetween(p, next);
  }

  lemma OddBetween(p: nat, n: nat)
    requires p % 2 == 1 && n % 2 == 1 && p < n < p + 14
    ensures n == p + 2 || n == p + 4 || n == p + 6 || n == p + 8 || n == p + 10 || n == p + 12
  {
  }

  lemma {:induction false} NoneBetween(p: nat, next: nat)
    requires Prime(p) && p < next < 324 && forall n :: p < n < next ==> !Trial(n)
    ensures PrimesBelow(next) == PrimesBelow(p) + 1
  {
    if p + 1 < next {
      NoneBetween(p, next - 1);
      TrialDecides(next - 1);
    }
  }

  // ---- The round constants ----

  ghost predicate IsRoundConstant(t: nat)
    requires t < 64
  {
    exists p, q :: NthPrime(t, p) && CubeRootBits(p, q, RoundConstant(t))
  }

  function CubeFloor(p: nat): nat {
    if p < 8 then 1 else if p < 27 then 2 else if p < 64 then 3 else if p < 125 then 4 else if p < 216 then 5 else 6
  }

  /** One constant, and on to the next prime. */
  lemma Constant(t: nat, p: nat, next: nat)
    requires t < 64 && NthPrime(t, p) && CubeRootBits(p, CubeFloor(p), RoundConstant(t))
    requires p < next < 324 && Trial(next) && (next == p + 1 || Skips(p, next))
    ensures IsRoundConstant(t) && NthPrime(t + 1, next)
  {
    NextPrime(t, p, next);
  }

  lemma Constants0()
    requires NthPrime(0, 2)
    ensures IsRoundConstant(0) && IsRoundConstant(1) && IsRoundConstant(2) && IsRoundConstant(3) && NthPrime(4, 11)
  {
    hide NthPrime, IsRoundConstant;
    Constant(0, 2, 3);
    Constant(1, 3, 5);
    Constant(2, 5, 7);
    Constant(3, 7, 11);
  }

  lemma Constants4()
    requires NthPrime(4, 11)
    ensures IsRoundConstant(4) && IsRoundConstant(5) && IsRoundConstant(6) && IsRoundConstant(7) && NthPrime(8, 23)
  {
    hide NthPrime, IsRoundConstant;
    Constant(4, 11, 13);
    Constant(5, 13, 17);
    Constant(6, 17, 19);
    Constant(7, 19, 23);
  }

  lemma Constants8()
    requires NthPrime(8, 23)
    ensures IsRoundConstant(8) && IsRoundConstant(9) && IsRoundConstant(10) && IsRoundConstant(11) && NthPrime(12, 41)
  {
    hide NthPrime, IsRoundConstant;
    Constant(8, 23, 29);
    Constant(9, 29, 31);
    Constant(10, 31, 37);
    Constant(11, 37, 41);
  }

  lemma Constants12()
    requires NthPrime(12, 41)
    ensures IsRoundConstant(12) && IsRoundConstant(13) && IsRoundConstant(14) && IsRoundConstant(15) && NthPrime(16, 59)
  {
    hide NthPrime, IsRoundConstant;
    Constant(12, 41, 43);
    Constant(13, 43, 47);
    Constant(14, 47, 53);
    Constant(15, 53, 59);
  }

  lemma Constants16()
    requires NthPrime(16, 59)
    ensures IsRoundConstant(16) && IsRoundConstant(17) && IsRoundConstant(18) && IsRoundConstant(19) && NthPrime(20, 73)
  {
    hide NthPrime, IsRoundConstant;
    Constant(16, 59, 61);
    Constant(17, 61, 67);
    Constant(18, 67, 71);
    Constant(19, 71, 73);
  }

  lemma Constants20()
    requires NthPrime(20, 73)
    ensures IsRoundConstant(20) && IsRoundConstant(21) && IsRoundConstant(22) && IsRoundConstant(23) && NthPrime(24, 97)
  {
    hide NthPrime, IsRoundConstant;
    Constant(20, 73, 79);
    Constant(21, 79, 83);
    Constant(22, 83, 89);
    Constant(23, 89, 97);
  }

  lemma Constants24()
    requires NthPrime(24, 97)
    ensures IsRoundConstant(24) && IsRoundConstant(25) && IsRoundConstant(26) && IsRoundConstant(27) && NthPrime(28, 109)
  {
    hide NthPrime, IsRoundConstant;
    Constant(24, 97, 101);
    Constant(25, 101, 103);
    Constant(26, 103, 107);
    Constant(27, 107, 109);
  }

  lemma Constants28()
    requires NthPrime(28, 109)
    ensures IsRoundConstant(28) && IsRoundConstant(29) && IsRoundConstant(30) && IsRoundConstant(31) && NthPrime(32, 137)
  {
    hide NthPrime, IsRoundConstant;
    Constant(28, 109, 113);
    Constant(29, 113, 127);
    Constant(30, 127, 131);
    Constant(31, 131, 137);
  }

  lemma Constants32()
    requires NthPrime(32, 137)
    ensures IsRoundConstant(32) && IsRoundConstant(33) && IsRoundConstant(34) && IsRoundConstant(35) && NthPrime(36, 157)
  {
    hide NthPrime, IsRoundConstant;
    Constant(32, 137, 139);
    Constant(33, 139, 149);
    Constant(34, 149, 151);
    Constant(35, 151, 157);
  }

  lemma Constants36()
    requires NthPrime(36, 157)
    ensures IsRoundConstant(36) && IsRoundConstant(37) && IsRoundConstant(38) && IsRoundConstant(39) && NthPrime(40, 179)
  {
    hide NthPrime, IsRoundConstant;
    Constant(36, 157, 163);
    Constant(37, 163, 167);
    Constant(38, 167, 173);
    Constant(39, 173, 179);
  }

  lemma Constants40()
    requires NthPrime(40, 179)
    ensures IsRoundConstant(40) && IsRoundConstant(41) && IsRoundConstant(42) && IsRoundConstant(43) && NthPrime(44, 197)
  {
    hide NthPrime, IsRoundConstant;
    Constant(40, 179, 181);
    Constant(41, 181, 191);
    Constant(42, 191, 193);
    Constant(43, 193, 197);
  }

  lemma Constants44()
    requires NthPrime(44, 197)
    ensures IsRoundConstant(44) && IsRoundConstant(45) && IsRoundConstant(46) && IsRoundConstant(47) && NthPrime(48, 227)
  {
    hide NthPrime, IsRoundConstant;
    Constant(44, 197, 199);
    Constant(45, 199, 211);
    Constant(46, 211, 223);
    Constant(47, 223, 227);
  }

  lemma Constants48()
    requires NthPrime(48, 227)
    ensures IsRoundConstant(48) && IsRoundConstant(49) && IsRoundConstant(50) && IsRoundConstant(51) && NthPrime(52, 241)
  {
    hide NthPrime, IsRoundConstant;
    Constant(48, 227, 229);
    Constant(49, 229, 233);
    Constant(50, 233, 239);
    Constant(51, 239, 241);
  }

  lemma Constants52()
    requires NthPrime(52, 241)
    ensures IsRoundConstant(52) && IsRoundConstant(53) && IsRoundConstant(54) && IsRoundConstant(55) && NthPrime(56, 269)
  {
    hide NthPrime, IsRoundConstant;
    Constant(52, 241, 251);
    Constant(53, 251, 257);
    Constant(54, 257, 263);
    Constant(55, 263, 269);
  }

  lemma Constants56()
    requires NthPrime(56, 269)
    ensures IsRoundConstant(56) && IsRoundConstant(57) && IsRoundConstant(58) && IsRoundConstant(59) && NthPrime(60, 283)
  {
    hide NthPrime, IsRoundConstant;
    Constant(56, 269, 271);
    Constant(57, 271, 277);
    Constant(58, 277, 281);
    Constant(59, 281, 283);
  }

  lemma Constants60()
    requires NthPrime(60, 283)
    ensures IsRoundConstant(60) && IsRoundConstant(61) && IsRoundConstant(62) && IsRoundConstant(63) && NthPrime(64, 313)
  {
    hide NthPrime, IsRoundConstant;
    Constant(60, 283, 293);
    Constant(61, 293, 307);
    Constant(62, 307, 311);
    Constant(63, 311, 313);
  }

  lemma FirstPrime()
    ensures NthPrime(0, 2)
  {
    TrialDecides(2);
  }

  /** Section 4.2.2: constant `t` is the first 32 bits of the fractional part of the cube root of the prime with
      `t` primes before it. */
  lemma RoundConstantsAreCubeRoots(t: nat)
    requires t < 64
    ensures exists p, q :: NthPrime(t, p) && CubeRootBits(p, q, RoundConstant(t))
  {
    hide NthPrime, CubeRootBits, RoundConstant;
    FirstPrime();
    Constants0(); Constants4(); Constants8(); Constants12();
    Constants16(); Constants20(); Constants24(); Constants28();
    Constants32(); Constants36(); Constants40(); Constants44();
    Constants48(); Constants52(); Constants56(); Constants60();
    assert IsRoundConstant(t);
  }

  // ---- The initial hash value ----

  function SquareFloor(p: nat): nat {
    if p < 4 then 1 else if p < 9 then 2 else if p < 16 then 3 else 4
  }

  ghost predicate IsInitialWord(t: nat)
    requires t < 8
  {
    exists p, q :: NthPrime(t, p) && SquareRootBits(p, q, InitialHash[t])
  }

  lemma InitialWord(t: nat, p: nat, next: nat)
    requires t < 8 && NthPrime(t, p) && SquareRootBits(p, SquareFloor(p), InitialHash[t])
    requires p < next < 324 && Trial(next) && (next == p + 1 || Skips(p, next))
    ensures IsInitialWord(t) && NthPrime(t + 1, next)
  {
    hide NthPrime, SquareRootBits, SquareFloor, InitialHash;
    NextPrime(t, p, next);
  }

  lemma InitialWords0()
    ensures IsInitialWord(0) && IsInitialWord(1) && IsInitialWord(2) && IsInitialWord(3) && NthPrime(4, 11)
  {
    hide NthPrime, IsInitialWord;
    FirstPrime();
    InitialWord(0, 2, 3);
    InitialWord(1, 3, 5);
    InitialWord(2, 5, 7);
    InitialWord(3, 7, 11);
  }

  lemma InitialWords4()
    requires NthPrime(4, 11)
    ensures IsInitialWord(4) && IsInitialWord(5) && IsInitialWord(6) && IsInitialWord(7)
  {
    hide NthPrime, IsInitialWord;
    InitialWord(4, 11, 13);
    InitialWord(5, 13, 17);
    InitialWord(6, 17, 19);
    InitialWord(7, 19, 23);
  }

  /** Section 5.3.3: before the first block, word `t` of the hash value comes from the square root of the same prime. */
  lemma InitialHashIsSquareRoots(m: seq<Byte>, t: nat)
    requires t < 8
    ensures exists p, q :: NthPrime(t, p) && SquareRootBits(p, q, HashBlocks(m, 0)[t])
  {
    hide NthPrime, SquareRootBits, InitialHash;
    InitialWords0();
    InitialWords4();
    assert IsInitialWord(t) && HashBlocks(m, 0) == InitialHash;
  }
}
