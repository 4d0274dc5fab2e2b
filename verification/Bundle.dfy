/** Reading identifiers and digests (runtime/json_utils.hpp) and loading plaintext bundles
    (runtime/plaintext_bundle.cpp). Files are given as a map from content name to bytes. */
module Bundle {
  import opened Wrappers
  import opened Plan
  import opened Rules
  import opened Vec
  import opened Semantics
  import opened RankInvariant
  import Sha256
  import ShaFunctions

  datatype ReadError = NotCanonical | OutOfRange | NotADigest | NotFinite | AbsentContent | WrongLength | WrongDigest | TooLong | NoDescriptor

  // ---- Identifiers ----

  predicate IsDigit(c: char) {
    '0' <= c <= '9'
  }

  function DigitValue(c: char): nat
    requires IsDigit(c)
  {
    (c - '0') as nat
  }

  function DigitChar(d: nat): (c: char)
    requires d < 10
    ensures IsDigit(c) && DigitValue(c) == d
  {
    '0' + d as char
  }

  predicate AllDigits(s: string) {
    forall i :: 0 <= i < |s| ==> IsDigit(s[i])
  }

  /** No sign, no leading zero, nothing but digits. */
  predicate Canonical(s: string) {
    s != "" && AllDigits(s) && (s[0] == '0' ==> s == "0")
  }

  function Value(s: string): nat
    requires AllDigits(s)
  {
    if s == "" then 0 else 10 * Value(s[..|s| - 1]) + DigitValue(s[|s| - 1])
  }

  /** The decimal notation of a number. */
  function Decimal(n: nat): (s: string)
    ensures s != "" && AllDigits(s)
  {
    if n < 10 then [DigitChar(n)] else Decimal(n / 10) + [DigitChar(n % 10)]
  }

  lemma {:induction false} DecimalIsCanonical(n: nat)
    ensures Canonical(Decimal(n)) && Value(Decimal(n)) == n && (n > 0 ==> Decimal(n)[0] != '0')
  {
    if n >= 10 {
      DecimalIsCanonical(n / 10);
      var s := Decimal(n);
      assert s[..|s| - 1] == Decimal(n / 10);
    } else {
      assert [DigitChar(n)][..0] == "";
    }
  }

  lemma LastDigit(v: nat, d: nat)
    requires d < 10
    ensures (10 * v + d) / 10 == v && (10 * v + d) % 10 == d
  {
  }

  /** One more digit behind a positive number. */
  lemma DecimalStep(v: nat, d: nat)
    requires v > 0 && d < 10
    ensures Decimal(10 * v + d) == Decimal(v) + [DigitChar(d)]
  {
    hide DigitChar;
    LastDigit(v, d);
  }

  lemma {:induction false} CanonicalIsDecimal(s: string)
    requires Canonical(s)
    ensures Decimal(Value(s)) == s && (s[0] != '0' ==> Value(s) > 0)
  {
    hide Decimal, DigitChar;
    var n := |s| - 1;
    if n == 0 {
      assert s[..0] == "";
      OneDigit(s[0]);
    } else {
      CanonicalIsDecimal(s[..n]);
      DecimalStep(Value(s[..n]), DigitValue(s[n]));
      assert DigitChar(DigitValue(s[n])) == s[n] by { OneDigit(s[n]); }
      assert s == s[..n] + [s[n]];
    }
  }

  lemma OneDigit(c: char)
    requires IsDigit(c)
    ensures DigitValue(c) < 10 && DigitChar(DigitValue(c)) == c && Decimal(DigitValue(c)) == [c]
    ensures c != '0' ==> DigitValue(c) > 0
  {
  }

  lemma {:induction false} ValueGrows(s: string, n: nat)
    requires AllDigits(s) && n <= |s|
    ensures Value(s[..n]) <= Value(s)
    decreases |s| - n
  {
    if n < |s| {
      assert s[..n + 1][..n] == s[..n];
      ValueGrows(s, n + 1);
    } else {
      assert s[..n] == s;
    }
  }

  /** `read_id`: accepted exactly when the text is the decimal notation of a 64-bit number, which is read. */
  method ReadId(s: string) returns (r: Result<nat, ReadError>)
    ensures r.Success? ==> r.value < TWO_64 && s == Decimal(r.value)
    ensures forall n: nat :: n < TWO_64 && s == Decimal(n) ==> r == Success(n)
  {
    forall n: nat | s == Decimal(n) ensures Canonical(s) && Value(s) == n {
      DecimalIsCanonical(n);
    }
    if s == "" { return Failure(NotCanonical); }
    if s != "0" {
      if s[0] < '1' || s[0] > '9' { return Failure(NotCanonical); }
      for i := 0 to |s|
        invariant forall j :: 0 <= j < i ==> IsDigit(s[j])
      {
        if s[i] < '0' || s[i] > '9' { return Failure(NotCanonical); }
      }
    }
    assert Canonical(s);
    CanonicalIsDecimal(s);
    var result := 0;
    for i := 0 to |s|
      invariant result == Value(s[..i]) < TWO_64
    {
      assert s[..i + 1][..i] == s[..i];
      result := 10 * result + DigitValue(s[i]);
      if result >= TWO_64 {
        ValueGrows(s, i + 1);
        return Failure(OutOfRange);
      }
    }
    assert s[..|s|] == s;
    r := Success(result);
  }

  // ---- Digests ----

  predicate IsHex(c: char) {
    '0' <= c <= '9' || 'a' <= c <= 'f'
  }

  predicate IsDigest(s: string) {
    |s| == 71 && s[..7] == "sha256:" && forall i :: 7 <= i < |s| ==> IsHex(s[i])
  }

  method ReadSha256(s: string) returns (r: Result<string, ReadError>)
    ensures r.Success? <==> IsDigest(s)
    ensures r.Success? ==> r.value == s
  {
    if |s| != 71 || s[..7] != "sha256:" { return Failure(NotADigest); }
    for i := 7 to |s|
      invariant forall j :: 7 <= j < i ==> IsHex(s[j])
    {
      if !IsHex(s[i]) { return Failure(NotADigest); }
    }
    r := Success(s);
  }

  function SourceSha256(bytes: seq<Sha256.Byte>): string {
    "sha256:" + Sha256.Hex(Sha256.Hash(bytes))
  }

  /** Every digest the program computes is one it accepts. */
  lemma DigestsAreReadable(bytes: seq<Sha256.Byte>)
    ensures IsDigest(SourceSha256(bytes))
  {
    hide Sha256.Hash, Sha256.Hex, Sha256.Digit;
    var s := SourceSha256(bytes);
    assert s[..7] == "sha256:";
    forall i | 7 <= i < |s| ensures IsHex(s[i]) {
      assert s[i] == Sha256.Hex(Sha256.Hash(bytes))[i - 7];
    }
  }

  /** Every text it accepts is the notation of some eight words. */
  lemma DigestIsNotation(s: string) returns (words: seq<Sha256.Word>)
    requires IsDigest(s)
    ensures |words| == 8 && s == "sha256:" + Sha256.Hex(words)
  {
    hide Sha256.Hex, Sha256.Digit;
    var t := s[7..];
    assert forall i :: 0 <= i < |t| ==> t[i] == s[i + 7];
    words := ShaFunctions.HexIsOnto(t, 8);
    assert s == s[..7] + t;
  }

  // ---- Slots ----

  /** The 64 bits of eight little-endian bytes. */
  function ReadWord(b: seq<Sha256.Byte>): nat {
    if b == [] then 0 else b[0] + 256 * ReadWord(b[1..])
  }

  function WriteWord(bits: nat, n: nat): (b: seq<Sha256.Byte>)
    ensures |b| == n
  {
    if n == 0 then [] else [bits % 256] + WriteWord(bits / 256, n - 1)
  }

  function Bound(n: nat): nat {
    if n == 0 then 1 else 256 * Bound(n - 1)
  }

  lemma {:induction false} WordRoundTrip(bits: nat, n: nat)
    requires bits < Bound(n)
    ensures ReadWord(WriteWord(bits, n)) == bits
  {
    if n > 0 {
      WordRoundTrip(bits / 256, n - 1);
      assert WriteWord(bits, n)[1..] == WriteWord(bits / 256, n - 1);
    }
  }

  /** A float64 whose exponent field is not all ones. */
  predicate Finite(bits: Bits) {
    bits / 0x10_0000_0000_0000 % 2048 != 2047
  }

  /** The patterns that are not finite: the infinities and everything above them up to the sign bit. */
  lemma FiniteByPattern(bits: Bits)
    requires bits < TWO_64
    ensures !Finite(bits) <==> 0x7ff0_0000_0000_0000 <= bits < 0x8000_0000_0000_0000 || 0xfff0_0000_0000_0000 <= bits
  {
    var high := bits / 0x10_0000_0000_0000;
    assert high < 0x1000 && bits == high * 0x10_0000_0000_0000 + bits % 0x10_0000_0000_0000;
  }

  function WordAt(bytes: seq<Sha256.Byte>, i: nat): Bits
    requires 8 * i + 8 <= |bytes|
  {
    ReadWord(bytes[8 * i..8 * i + 8])
  }

  function Decoded(bytes: seq<Sha256.Byte>): (r: seq<Bits>)
    ensures |r| == |bytes| / 8
  {
    seq(|bytes| / 8, i requires 0 <= i < |bytes| / 8 => NormalizeZero(WordAt(bytes, i)))
  }

  predicate AllFinite(bytes: seq<Sha256.Byte>) {
    forall i :: 0 <= i < |bytes| / 8 ==> Finite(WordAt(bytes, i))
  }

  /** Eight bytes collected by shifting each to its place. */
  method CollectWord(bytes: seq<Sha256.Byte>, first: nat) returns (bits: Bits)
    requires first + 8 <= |bytes|
    ensures bits == ReadWord(bytes[first..first + 8])
  {
    var word := bytes[first..first + 8];
    bits := 0;
    var weight := 1;
    assert word[0..] == word;
    for byte := 0 to 8
      invariant weight == Bound(byte)
      invariant bits + weight * ReadWord(word[byte..]) == ReadWord(word)
    {
      assert word[byte..][1..] == word[byte + 1..];
      Scale(weight, bytes[first + byte], ReadWord(word[byte + 1..]));
      bits := bits + bytes[first + byte] * weight;
      weight := 256 * weight;
    }
  }

  lemma Scale(weight: nat, b: nat, rest: nat)
    ensures weight * (b + 256 * rest) == b * weight + 256 * weight * rest
  {
  }

  method DecodeSlots(bytes: seq<Sha256.Byte>) returns (r: Result<seq<Bits>, ReadError>)
    ensures r.Success? <==> AllFinite(bytes)
    ensures r.Success? ==> r.value == Decoded(bytes)
  {
    hide ReadWord, Finite;
    var slots: seq<Bits> := [];
    for i := 0 to |bytes| / 8
      invariant |slots| == i && forall j :: 0 <= j < i ==> slots[j] == NormalizeZero(WordAt(bytes, j)) && Finite(WordAt(bytes, j))
    {
      var bits := CollectWord(bytes, 8 * i);
      assert bits == WordAt(bytes, i);
      if !Finite(bits) { return Failure(NotFinite); }
      slots := slots + [if bits == NEGATIVE_ZERO then 0 else bits];
    }
    r := Success(slots);
  }

  function Encoded(slots: seq<Bits>): (b: seq<Sha256.Byte>)
    ensures |b| == 8 * |slots|
  {
    if slots == [] then [] else Encoded(slots[..|slots| - 1]) + WriteWord(slots[|slots| - 1], 8)
  }

  lemma {:induction false} EncodedAt(slots: seq<Bits>, i: nat)
    requires i < |slots|
    ensures Encoded(slots)[8 * i..8 * i + 8] == WriteWord(slots[i], 8)
  {
    var n := |slots| - 1;
    if i < n {
      EncodedAt(slots[..n], i);
      assert Encoded(slots)[8 * i..8 * i + 8] == Encoded(slots[..n])[8 * i..8 * i + 8];
    }
  }

  /** Little-endian decoding inverts encoding on finite values, up to the sign of zero. */
  lemma DecodeInvertsEncode(slots: seq<Bits>)
    requires forall i :: 0 <= i < |slots| ==> slots[i] < TWO_64 && Finite(slots[i])
    ensures AllFinite(Encoded(slots))
    ensures Decoded(Encoded(slots)) == seq(|slots|, i requires 0 <= i < |slots| => NormalizeZero(slots[i]))
  {
    hide ReadWord, WriteWord, Finite, Encoded;
    forall i | 0 <= i < |slots| ensures WordAt(Encoded(slots), i) == slots[i] {
      EncodedAt(slots, i);
      BoundEight();
      WordRoundTrip(slots[i], 8);
    }
  }

  lemma BoundEight()
    ensures Bound(8) == TWO_64
  {
  }

  // ---- Bundles ----

  /** A blob that may be used: listed with its length, with the right digest, finite, and within the capacity. */
  predicate Usable(lengths: map<string, nat>, files: map<string, seq<Sha256.Byte>>, capacity: nat, content: string) {
    && content in lengths && content in files
    && |files[content]| == lengths[content]
    && SourceSha256(files[content]) == content
    && AllFinite(files[content])
    && |files[content]| / 8 <= capacity
  }

  /** `load`, after the manifest has been read. */
  method Load(lengths: map<string, nat>, files: map<string, seq<Sha256.Byte>>, required: set<string>, capacity: nat)
    returns (r: Result<map<string, seq<Bits>>, ReadError>)
    ensures r.Success? <==> forall content :: content in required ==> Usable(lengths, files, capacity, content)
    ensures r.Success? ==> r.value.Keys == required
    ensures r.Success? ==> forall content :: content in required ==>
      content in files && r.value[content] == Decoded(files[content]) && |r.value[content]| <= capacity
  {
    hide SourceSha256, AllFinite, Decoded;
    var slots: map<string, seq<Bits>> := map[];
    var left := required;
    while left != {}
      invariant left <= required && slots.Keys == required - left
      invariant forall content :: content in slots ==> Usable(lengths, files, capacity, content)
      invariant forall content :: content in slots ==> slots[content] == Decoded(files[content])
      decreases |left|
    {
      var content :| content in left;
      left := left - {content};
      if content !in lengths || content !in files { return Failure(AbsentContent); }
      if |files[content]| != lengths[content] { return Failure(WrongLength); }
      if SourceSha256(files[content]) != content { return Failure(WrongDigest); }
      var decoded := DecodeSlots(files[content]);
      if decoded.Failure? { return Failure(decoded.error); }
      if |decoded.value| > capacity { return Failure(TooLong); }
      slots := slots[content := decoded.value];
    }
    r := Success(slots);
  }

  /** A blob written as the little-endian bytes of finite values, under its digest and with its length in the manifest,
      loads exactly if the values fit, and reads back as the values with their zeros normalized. */
  lemma WrittenBlobLoads(slots: seq<Bits>, capacity: nat)
    requires forall i :: 0 <= i < |slots| ==> slots[i] < TWO_64 && Finite(slots[i])
    ensures var bytes := Encoded(slots); var content := SourceSha256(bytes);
      Usable(map[content := 8 * |slots|], map[content := bytes], capacity, content) <==> |slots| <= capacity
    ensures Decoded(Encoded(slots)) == seq(|slots|, i requires 0 <= i < |slots| => NormalizeZero(slots[i]))
  {
    hide SourceSha256, Encoded, Decoded, AllFinite, Finite;
    DecodeInvertsEncode(slots);
  }

  /** The encode at `n` is done by rank `r` from the bundle. */
  predicate LocalBundleEncode(p: Program, r: int, n: nat)
    requires n < |p.Code()|
  {
    var body := p.Code()[n].body;
    IsBundleEncode(body) && body.output in p.Table() && p.Table()[body.output].place.rank == r
  }

  ghost predicate LocalContent(p: Program, r: int, content: string) {
    exists n :: 0 <= n < |p.Code()| && LocalBundleEncode(p, r, n) && p.Code()[n].body.payload.content == content
  }

  /** `load_bundle` of one rank: it looks at the initialization only, which is where a verified plan has all
      of its encodes, so what it loads is exactly what this rank's encodes will look up, and fits the slots. */
  method LoadBundle(p: Program, ghost loaded: LoadedSpec, ghost skip: bool, r: int, lengths: map<string, nat>, files: map<string, seq<Sha256.Byte>>)
    returns (slots: Result<map<string, seq<Bits>>, ReadError>)
    requires WellFormed(p.plan, loaded, skip)
    ensures slots.Success? ==> forall content :: content in slots.value <==> LocalContent(p, r, content)
    ensures slots.Success? ==> forall content :: content in slots.value ==>
      Usable(lengths, files, p.degree / 2, content) && slots.value[content] == Decoded(files[content]) && |slots.value[content]| <= p.degree / 2
    ensures slots.Success? ==> forall n :: 0 <= n < |p.Code()| && LocalBundleEncode(p, r, n) ==>
      p.Code()[n].body.payload.content in slots.value
    ensures slots.Failure? ==> exists content :: LocalContent(p, r, content) && !Usable(lengths, files, p.degree / 2, content)
  {
    hide WellFormed, DescMap, Usable, Decoded;
    if p.plan.bundle.None? {
      NoBundleEncodes(p, loaded, skip, r);
      return Success(map[]);
    }
    var contents: set<string> := {};
    var init := p.plan.initialization;
    for n := 0 to |init|
      invariant forall content :: content in contents <==>
        exists k :: 0 <= k < n && LocalBundleEncode(p, r, k) && p.Code()[k].body.payload.content == content
    {
      assert init[n] == p.Code()[n];
      var body := init[n].body;
      if body.Encode? {
        OutputKnown(p, loaded, skip, n);
        if p.Table()[body.output].place.rank == r && body.payload.Bundle? {
          contents := contents + {body.payload.content};
          assert LocalBundleEncode(p, r, n);
        }
      }
    }
    forall content ensures content in contents <==> LocalContent(p, r, content) {
      if LocalContent(p, r, content) {
        var n :| 0 <= n < |p.Code()| && LocalBundleEncode(p, r, n) && p.Code()[n].body.payload.content == content;
        InstructionFacts(p, loaded, skip, n);
      }
    }
    slots := Load(lengths, files, contents, p.degree / 2);
    forall n | 0 <= n < |p.Code()| && LocalBundleEncode(p, r, n) && slots.Success?
      ensures p.Code()[n].body.payload.content in slots.value
    {
      assert LocalContent(p, r, p.Code()[n].body.payload.content);
    }
  }

  lemma OutputKnown(p: Program, loaded: LoadedSpec, skip: bool, n: nat)
    requires WellFormed(p.plan, loaded, skip) && n < |p.Code()| && p.Code()[n].body.Encode?
    ensures p.Code()[n].body.output in p.Table()
  {
    hide WellFormed, DescMap;
    InstructionFacts(p, loaded, skip, n);
  }

  /** A verified plan without a bundle reference has no bundle encode. */
  lemma NoBundleEncodes(p: Program, loaded: LoadedSpec, skip: bool, r: int)
    requires WellFormed(p.plan, loaded, skip) && p.plan.bundle.None?
    ensures forall n :: 0 <= n < |p.Code()| ==> !LocalBundleEncode(p, r, n)
    ensures forall content :: !LocalContent(p, r, content)
  {
    hide HeaderOk, ValuesOk, InputsOk, InstructionOk, DescMap, DefinedBefore;
  }

  /** When the bundle contents of a program are what its ranks have loaded, every bundle encode finds its
      slots within capacity: the hypothesis of the execution theorems. */
  lemma LoadedBundlesAreGood(p: Program, loaded: LoadedSpec, skip: bool)
    requires WellFormed(p.plan, loaded, skip)
    requires forall r, content :: LocalContent(p, r, content) ==> content in p.blobs && |p.blobs[content]| <= p.degree / 2
    ensures GoodBlobs(p)
  {
    hide WellFormed, DescMap;
    forall n | 0 <= n < |p.Code()| && IsBundleEncode(p.Code()[n].body)
      ensures p.Code()[n].body.payload.content in p.blobs && |p.blobs[p.Code()[n].body.payload.content]| <= p.degree / 2
    {
      var body := p.Code()[n].body;
      OutputKnown(p, loaded, skip, n);
      assert LocalBundleEncode(p, p.Table()[body.output].place.rank, n);
      assert LocalContent(p, p.Table()[body.output].place.rank, body.payload.content);
    }
  }
}
