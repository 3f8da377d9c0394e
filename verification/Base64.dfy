// Base64 as src/crypto/bytes.ts computes it: byte triples one way, a 32 bit shift accumulator
// the other way. Strings are sequences of UTF-16 code units.
module Base64 {
  import opened Arithmetic
  import opened Options
  import opened Text

  type Sextet = v: int | 0 <= v < 64 witness 0
  type Int32 = x: int | -0x8000_0000 <= x < 0x8000_0000 witness 0

  const PAD: Unit := 61

  // The RangeError of new Uint8Array with a negative length.
  datatype Error = InvalidLength

  // --- the alphabet of section 4 of RFC 4648 ---

  function Alphabet(v: Sextet): Unit {
    if v < 26 then 65 + v
    else if v < 52 then 97 + v - 26
    else if v < 62 then 48 + v - 52
    else if v == 62 then 43
    else 47
  }

  function Lookup(c: Unit): int {
    if 65 <= c <= 90 then c - 65
    else if 97 <= c <= 122 then c - 97 + 26
    else if 48 <= c <= 57 then c - 48 + 52
    else if c == 43 then 62
    else if c == 47 then 63
    else -1
  }

  lemma LookupInvertsAlphabet(c: Unit, v: Sextet)
    ensures Lookup(Alphabet(v)) == v
    ensures Lookup(c) == v <==> c == Alphabet(v)
    ensures Lookup(c) == -1 <==> forall w: Sextet :: c != Alphabet(w)
    ensures Lookup(PAD) == -1
  {
    if Lookup(c) != -1 { assert c == Alphabet(Lookup(c)); }
  }

  predicate Filled(table: array<int>)
    reads table
  {
    table.Length == 256 && forall c :: 0 <= c < 256 ==> table[c] == Lookup(c)
  }

  // The table is filled with -1 and then indexed by the code of each alphabet character.
  method BuildLookup() returns (table: array<int>)
    ensures fresh(table) && Filled(table)
  {
    table := new int[256](_ => -1);
    var i := 0;
    while i < 64
      invariant 0 <= i <= 64
      invariant forall c :: 0 <= c < 256 ==> table[c] == if Lookup(c) < i then Lookup(c) else -1
    {
      LookupInvertsAlphabet(0, i);
      forall c: Unit | c < 256 ensures Lookup(c) == i <==> c == Alphabet(i) { LookupInvertsAlphabet(c, i); }
      table[Alphabet(i)] := i;
      i := i + 1;
    }
  }

  // Reading past the table gives undefined, which counts as -1.
  method LookUp(table: array<int>, c: Unit) returns (v: int)
    requires Filled(table)
    ensures v == Lookup(c)
  {
    v := if c < 256 then table[c] else -1;
  }

  // --- encoding ---

  // The byte at i, with zero bits filled in on the right of the last group.
  function ByteAt(bytes: seq<Byte>, i: nat): Byte {
    if i < |bytes| then bytes[i] else 0
  }

  // The r-th of the four groups of six bits of the g-th triple.
  function GroupSextet(bytes: seq<Byte>, g: nat, r: nat): Sextet {
    var a: int, b: int, c: int := ByteAt(bytes, 3 * g), ByteAt(bytes, 3 * g + 1), ByteAt(bytes, 3 * g + 2);
    match r
    case 0 => a / 4
    case 1 => a % 4 * 16 + b / 16
    case 2 => b % 16 * 4 + c / 64
    case _ => c % 64
  }

  // The k-th group of six bits of the input.
  function SextetAt(bytes: seq<Byte>, k: nat): Sextet {
    GroupSextet(bytes, k / 4, k % 4)
  }

  // Characters that carry input bits: eight bits a byte, six a character.
  function Significant(n: nat): nat {
    (8 * n + 5) / 6
  }

  function Encoded(bytes: seq<Byte>): (text: seq<Unit>)
    ensures |text| == (|bytes| + 2) / 3 * 4
  {
    seq((|bytes| + 2) / 3 * 4, k requires 0 <= k => if k < Significant(|bytes|) then Alphabet(SextetAt(bytes, k))
        else PAD)
  }

  // (n >> 18) & 63 and so on, for the three bytes of a group packed into n.
  function Quad(n: nat): seq<Sextet> {
    [n / 0x4_0000 % 64, n / 0x1000 % 64, n / 64 % 64, n % 64]
  }

  function Packed(a: Byte, b: Byte, c: Byte): nat {
    (a as int) * 0x1_0000 + (b as int) * 0x100 + c
  }

  lemma QuadSplitsGroup(a: Byte, b: Byte, c: Byte)
    ensures Quad(Packed(a, b, c)) == [a / 4, a % 4 * 16 + b / 16, b % 16 * 4 + c / 64, c % 64]
  {
    var n := Packed(a, b, c);
    var s0, s1, s2, s3 := a / 4, a % 4 * 16 + b / 16, b % 16 * 4 + c / 64, c % 64;
    DivUnique(n, 64, s0 * 0x1000 + s1 * 64 + s2, s3);
    DivUnique(s0 * 0x1000 + s1 * 64 + s2, 64, s0 * 64 + s1, s2);
    DivUnique(n, 0x1000, s0 * 64 + s1, s2 * 64 + s3);
    DivUnique(s0 * 64 + s1, 64, s0, s1);
    DivUnique(n, 0x4_0000, s0, s1 * 0x1000 + s2 * 64 + s3);
    DivUnique(s0, 64, 0, s0);
  }

  lemma IndexInGroup(g: nat, r: nat)
    requires r < 4
    ensures (4 * g + r) / 4 == g && (4 * g + r) % 4 == r
  {
    DivUnique(4 * g + r, 4, g, r);
  }

  // The first m characters are right and the group g that starts there is next.
  predicate EncodedUpTo(bytes: seq<Byte>, out: seq<Unit>) {
    forall k :: 0 <= k < |out| ==> out[k] == Alphabet(SextetAt(bytes, k))
  }

  lemma GroupExtends(bytes: seq<Byte>, out: seq<Unit>, g: nat, n: nat, more: seq<Unit>)
    requires EncodedUpTo(bytes, out) && |out| == 4 * g
    requires n == Packed(ByteAt(bytes, 3 * g), ByteAt(bytes, 3 * g + 1), ByteAt(bytes, 3 * g + 2))
    requires |more| <= 4 && forall r :: 0 <= r < |more| ==> more[r] == Alphabet(Quad(n)[r])
    ensures EncodedUpTo(bytes, out + more)
  {
    QuadSplitsGroup(ByteAt(bytes, 3 * g), ByteAt(bytes, 3 * g + 1), ByteAt(bytes, 3 * g + 2));
    forall k | 4 * g <= k < |out + more| ensures (out + more)[k] == Alphabet(SextetAt(bytes, k)) {
      IndexInGroup(g, k - 4 * g);
    }
  }

  method BytesToBase64(bytes: seq<Byte>) returns (out: seq<Unit>)
    ensures out == Encoded(bytes)
  {
    out := [];
    var i := 0;
    ghost var g := 0;
    while i + 2 < |bytes|
      invariant 0 <= i <= |bytes| && i == 3 * g && |out| == 4 * g
      invariant EncodedUpTo(bytes, out)
    {
      var n := Packed(bytes[i], bytes[i + 1], bytes[i + 2]);
      var q := Quad(n);
      var more := [Alphabet(q[0]), Alphabet(q[1]), Alphabet(q[2]), Alphabet(q[3])];
      GroupExtends(bytes, out, g, n, more);
      out := out + more;
      i, g := i + 3, g + 1;
    }
    var rem := |bytes| - i;
    if rem == 1 {
      var n := Packed(bytes[i], 0, 0);
      var q := Quad(n);
      var more := [Alphabet(q[0]), Alphabet(q[1])];
      GroupExtends(bytes, out, g, n, more);
      out := out + more;
    } else if rem == 2 {
      var n := Packed(bytes[i], bytes[i + 1], 0);
      var q := Quad(n);
      var more := [Alphabet(q[0]), Alphabet(q[1]), Alphabet(q[2])];
      GroupExtends(bytes, out, g, n, more);
      out := out + more;
    }
    SignificantOf(g, rem);
    PadCompletes(bytes, out);
    out := out + PadText(|bytes|);
  }

  function PadText(n: nat): seq<Unit> {
    if n % 3 == 0 then [] else if n % 3 == 1 then [PAD, PAD] else [PAD]
  }

  lemma SignificantOf(g: nat, r: nat)
    requires r < 3
    ensures Significant(3 * g + r) == 4 * g + (if r == 0 then 0 else r + 1) && (3 * g + r) % 3 == r
    ensures (3 * g + r + 2) / 3 * 4 == Significant(3 * g + r) + |PadText(r)|
  {
  }

  lemma PadCompletes(bytes: seq<Byte>, out: seq<Unit>)
    requires EncodedUpTo(bytes, out) && |out| == Significant(|bytes|)
    ensures out + PadText(|bytes|) == Encoded(bytes)
  {
    SignificantOf(|bytes| / 3, |bytes| % 3);
  }

  // --- decoding ---

  // The values of the alphabet characters, everything else skipped.
  function Sextets(text: seq<Unit>): seq<Sextet> {
    if text == [] then []
    else
      var before, v := Sextets(text[..|text| - 1]), Lookup(text[|text| - 1]);
      if v == -1 then before else before + [v]
  }

  // Characters counted towards the output length: the alphabet and '='.
  function Clean(text: seq<Unit>): nat {
    if text == [] then 0
    else
      var c := text[|text| - 1];
      Clean(text[..|text| - 1]) + if c == PAD || Lookup(c) != -1 then 1 else 0
  }

  function Padding(text: seq<Unit>): nat {
    var n := |text|;
    if n >= 2 && text[n - 2] == PAD && text[n - 1] == PAD then 2 else if n >= 1 && text[n - 1] == PAD then 1 else 0
  }

  function Join(a: Sextet, b: Sextet, r: nat): Byte
  {
    var hi: int, lo: int := a, b;
    match r
    case 0 => hi * 4 + lo / 16
    case 1 => hi % 16 * 16 + lo / 4
    case _ => hi % 4 * 64 + lo
  }

  // Bits 8p to 8p + 7 of the concatenated sextets.
  function DecodedByte(s: seq<Sextet>, p: nat): Byte
    requires p < |s| * 3 / 4
  {
    var k := p / 3 * 4 + p % 3;
    Join(s[k], s[k + 1], p % 3)
  }

  // A byte past the last full eight bits stays zero, one past the buffer is dropped.
  function Decoded(text: seq<Unit>): Result<seq<Byte>, Error> {
    var outLen := Clean(text) * 3 / 4 - Padding(text);
    var s := Sextets(text);
    if outLen < 0 then Err(InvalidLength)
    else Ok(seq(outLen, p requires 0 <= p => if p < |s| * 3 / 4 then DecodedByte(s, p) else 0))
  }

  // ToInt32 of ECMAScript.
  function ToInt32(x: int): Int32 {
    (x + 0x8000_0000) % 0x1_0000_0000 - 0x8000_0000
  }

  // (value << 6) | v: the low six bits of the shifted word are zero.
  function ShiftIn(value: Int32, v: Sextet): Int32 {
    ToInt32(value * 64) + v
  }

  // (value >> bits) & 0xff with the sign carrying arithmetic shift.
  function ByteOut(value: Int32, bits: nat): Byte
    requires bits <= 6
  {
    value / Power(bits) % 0x100
  }

  function Power(bits: nat): nat {
    match bits
    case 0 => 1
    case 2 => 4
    case 4 => 16
    case _ => 64
  }

  // Bits left in the accumulator after j sextets, by the remainder of j.
  function LeftOf(r: nat): nat {
    match r
    case 0 => 0
    case 1 => 6
    case 2 => 4
    case _ => 2
  }

  function Left(j: nat): nat {
    LeftOf(j % 4)
  }

  lemma NextRemainder(j: nat)
    ensures (j + 1) % 4 == if j % 4 == 3 then 0 else j % 4 + 1
    ensures j % 4 == 0 ==> (j + 1) * 3 / 4 == j * 3 / 4
    ensures j % 4 != 0 ==> (j + 1) * 3 / 4 == j * 3 / 4 + 1
  {
    var q, r := j / 4, j % 4;
    var low := if r == 0 || r == 1 then 0 else r - 1;
    DivUnique(j + 1, 4, if r == 3 then q + 1 else q, if r == 3 then 0 else r + 1);
    DivUnique(j * 3, 4, 3 * q + low, 3 * r - 4 * low);
    DivUnique((j + 1) * 3, 4, 3 * q + r, 3 - r);
  }

  lemma WrapIsExact(value: Int32, v: Sextet) returns (k: int)
    ensures ShiftIn(value, v) == 64 * value + v - 0x1_0000_0000 * k
  {
    k := (value * 64 + 0x8000_0000) / 0x1_0000_0000;
  }

  // The wrap-around never reaches the bits that are still needed.
  lemma ShiftInKeepsLowBits(value: Int32, last: Sextet, v: Sextet, r: nat, next: nat)
    requires r < 4 && next == (if r == 3 then 0 else r + 1) && value % Power(LeftOf(r)) == last % Power(LeftOf(r))
    ensures ShiftIn(value, v) % Power(LeftOf(next)) == v % Power(LeftOf(next))
    ensures r != 0 ==> ByteOut(ShiftIn(value, v), LeftOf(next)) == Join(last, v, r - 1)
  {
    var k := WrapIsExact(value, v);
    LowBits(value, ShiftIn(value, v), last, v, k);
  }

  lemma LowBits(value: int, next: int, last: Sextet, v: Sextet, k: int)
    requires next == 64 * value + v - 0x1_0000_0000 * k
    ensures next % 64 == v && next % 16 == v % 16 && next % 4 == v % 4
    ensures value % 64 == last ==> next / 16 % 0x100 == Join(last, v, 0)
    ensures value % 16 == last % 16 ==> next / 4 % 0x100 == Join(last, v, 1)
    ensures value % 4 == last % 4 ==> next % 0x100 == Join(last, v, 2)
  {
    DivUnique(next, 64, value - 0x400_0000 * k, v);
    DivUnique(next, 16, 4 * value + v / 16 - 0x1000_0000 * k, v % 16);
    DivUnique(next, 4, 16 * value + v / 4 - 0x4000_0000 * k, v % 4);
    if value % 64 == last {
      DivUnique(next / 16, 0x100, value / 64 - 0x10_0000 * k, Join(last, v, 0));
    }
    if value % 16 == last % 16 {
      DivUnique(next / 4, 0x100, value / 16 - 0x40_0000 * k, Join(last, v, 1));
    }
    if value % 4 == last % 4 {
      DivUnique(next, 0x100, value / 4 - 0x100_0000 * k, Join(last, v, 2));
    }
  }

  method CountClean(table: array<int>, text: seq<Unit>) returns (clean: nat)
    requires Filled(table)
    ensures clean == Clean(text)
  {
    clean := 0;
    var i := 0;
    while i < |text|
      invariant 0 <= i <= |text| && clean == Clean(text[..i])
    {
      assert text[..i + 1][..i] == text[..i];
      var v := LookUp(table, text[i]);
      if text[i] == PAD || v != -1 {
        clean := clean + 1;
      }
      i := i + 1;
    }
    assert text[..|text|] == text;
  }

  // The accumulator loop: 32 bits, a byte whenever eight are there; writes past the end of the
  // output have no effect.
  method FillBytes(table: array<int>, text: seq<Unit>, out: array<Byte>)
    requires Filled(table) && forall k :: 0 <= k < out.Length ==> out[k] == 0
    modifies out
    ensures Written(out[..], Sextets(text))
  {
    var bits, value, p := 0, 0, 0;
    ghost var s: seq<Sextet>, last: Sextet := [], 0;
    var i := 0;
    while i < |text|
      invariant 0 <= i <= |text| && s == Sextets(text[..i]) && (s != [] ==> last == s[|s| - 1])
      invariant bits == Left(|s|) && p == |s| * 3 / 4
      invariant -0x8000_0000 <= value < 0x8000_0000 && value % Power(bits) == last % Power(bits)
      invariant Written(out[..], s)
    {
      assert text[..i + 1][..i] == text[..i];
      var v := LookUp(table, text[i]);
      i := i + 1;
      if v == -1 {
        continue;
      }
      SextetStep(s, last, value, v);
      ghost var before := out[..];
      value := ShiftIn(value, v);
      bits := bits + 6;
      if bits >= 8 {
        bits := bits - 8;
        if p < out.Length {
          out[p] := ByteOut(value, bits);
        }
        p := p + 1;
      }
      WrittenExtends(before, out[..], s, v);
      s, last := s + [v], v;
    }
    assert text[..|text|] == text;
  }

  method Base64ToBytes(text: seq<Unit>) returns (r: Result<seq<Byte>, Error>)
    ensures r == Decoded(text)
  {
    var table := BuildLookup();
    var clean := CountClean(table, text);
    var outLen := clean * 3 / 4 - Padding(text);
    if outLen < 0 {
      return Err(InvalidLength);
    }
    var out := new Byte[outLen](_ => 0);
    FillBytes(table, text, out);
    r := Ok(out[..]);
    WrittenIsDecoded(text, out[..]);
  }

  lemma WrittenIsDecoded(text: seq<Unit>, out: seq<Byte>)
    requires |out| == Clean(text) * 3 / 4 - Padding(text) && Written(out, Sextets(text))
    ensures Decoded(text) == Ok(out)
  {
    var d := Decoded(text).value;
    assert d == out;
    assert Decoded(text).Ok?;
  }

  predicate Written(out: seq<Byte>, s: seq<Sextet>) {
    forall p :: 0 <= p < |out| ==> out[p] == if p < |s| * 3 / 4 then DecodedByte(s, p) else 0
  }

  lemma SextetStep(s: seq<Sextet>, last: Sextet, value: Int32, v: Sextet)
    requires (s != [] ==> last == s[|s| - 1]) && value % Power(Left(|s|)) == last % Power(Left(|s|))
    ensures ShiftIn(value, v) % Power(Left(|s| + 1)) == v % Power(Left(|s| + 1))
    ensures |s| % 4 == 0 ==> Left(|s|) == 0 && Left(|s| + 1) == 6 && (|s| + 1) * 3 / 4 == |s| * 3 / 4
    ensures |s| % 4 != 0 ==> Left(|s|) >= 2 && Left(|s| + 1) == Left(|s|) - 2 && (|s| + 1) * 3 / 4 == |s| * 3 / 4 + 1
    ensures |s| % 4 != 0 ==> ByteOut(ShiftIn(value, v), Left(|s| + 1)) == Join(s[|s| - 1], v, |s| % 4 - 1)
  {
    NextRemainder(|s|);
    ShiftInKeepsLowBits(value, last, v, |s| % 4, (|s| + 1) % 4);
  }

  // Every sextet but the first of a group completes one byte.
  lemma EmitsNext(s: seq<Sextet>, v: Sextet)
    ensures |s| % 4 == 0 ==> (|s| + 1) * 3 / 4 == |s| * 3 / 4
    ensures |s| % 4 != 0 ==> (|s| + 1) * 3 / 4 == |s| * 3 / 4 + 1
    ensures |s| % 4 != 0 ==> DecodedByte(s + [v], |s| * 3 / 4) == Join(s[|s| - 1], v, |s| % 4 - 1)
  {
    var g, r := |s| / 4, |s| % 4;
    if r != 0 {
      DivUnique(|s| * 3, 4, 3 * g + r - 1, 4 - r);
      DivUnique(3 * g + r - 1, 3, g, r - 1);
    }
  }

  lemma WrittenExtends(out: seq<Byte>, after: seq<Byte>, s: seq<Sextet>, v: Sextet)
    requires Written(out, s) && |after| == |out|
    requires |s| % 4 == 0 ==> after == out
    requires |s| % 4 != 0 ==> forall p :: 0 <= p < |out| ==>
        after[p] == if p == |s| * 3 / 4 then Join(s[|s| - 1], v, |s| % 4 - 1) else out[p]
    ensures Written(after, s + [v])
  {
    EmitsNext(s, v);
    forall p | 0 <= p < |s| * 3 / 4 ensures DecodedByte(s + [v], p) == DecodedByte(s, p) {
    }
  }

  // --- the round trip ---

  lemma {:induction false} SextetsOfAlphabet(text: seq<Unit>, s: seq<Sextet>)
    requires |text| == |s| && forall k :: 0 <= k < |s| ==> text[k] == Alphabet(s[k])
    ensures Sextets(text) == s && Clean(text) == |text|
  {
    if s != [] {
      var n := |s| - 1;
      SextetsOfAlphabet(text[..n], s[..n]);
      LookupInvertsAlphabet(text[n], s[n]);
    }
  }

  lemma SextetsSkipPad(text: seq<Unit>)
    ensures Sextets(text + [PAD]) == Sextets(text) && Clean(text + [PAD]) == Clean(text) + 1
  {
    assert (text + [PAD])[..|text|] == text;
  }

  function SignificantText(bytes: seq<Byte>): seq<Unit> {
    seq(Significant(|bytes|), k requires 0 <= k => Alphabet(SextetAt(bytes, k)))
  }

  lemma EncodedIsSignificantAndPad(bytes: seq<Byte>)
    ensures Encoded(bytes) == SignificantText(bytes) + PadText(|bytes|)
  {
    PadCompletes(bytes, SignificantText(bytes));
  }

  function AllSextets(bytes: seq<Byte>): seq<Sextet> {
    seq(Significant(|bytes|), k requires 0 <= k => SextetAt(bytes, k))
  }

  lemma SextetsBeforePad(text: seq<Unit>, n: nat)
    requires n <= 2 && Clean(text) == |text|
    ensures var padded := text + seq(n, _ => PAD); Sextets(padded) == Sextets(text) && Clean(padded) == |padded|
  {
    if n == 0 {
      assert text + seq(0, _ => PAD) == text;
    } else {
      SextetsSkipPad(text);
      if n == 1 {
        assert text + seq(1, _ => PAD) == text + [PAD];
      } else {
        SextetsSkipPad(text + [PAD]);
        assert text + seq(2, _ => PAD) == text + [PAD] + [PAD];
      }
    }
  }

  lemma SextetsOfEncoded(bytes: seq<Byte>)
    ensures Sextets(Encoded(bytes)) == AllSextets(bytes)
    ensures Clean(Encoded(bytes)) == |Encoded(bytes)|
  {
    var text := SignificantText(bytes);
    EncodedIsSignificantAndPad(bytes);
    SextetsOfAlphabet(text, AllSextets(bytes));
    var n := |PadText(|bytes|)|;
    assert PadText(|bytes|) == seq(n, _ => PAD);
    SextetsBeforePad(text, n);
  }

  lemma UnpackGroup(a: Byte, b: Byte, c: Byte)
    ensures Join(a / 4, a % 4 * 16 + b / 16, 0) == a
    ensures Join(a % 4 * 16 + b / 16, b % 16 * 4 + c / 64, 1) == b
    ensures Join(b % 16 * 4 + c / 64, c % 64, 2) == c
  {
    DivUnique(a % 4 * 16 + b / 16, 16, a % 4, b / 16);
    DivUnique(b % 16 * 4 + c / 64, 4, b % 16, c / 64);
  }

  lemma SextetsOfGroup(bytes: seq<Byte>, g: nat, r: nat)
    requires r < 3
    ensures Join(GroupSextet(bytes, g, r), GroupSextet(bytes, g, r + 1), r) == ByteAt(bytes, 3 * g + r)
  {
    UnpackGroup(ByteAt(bytes, 3 * g), ByteAt(bytes, 3 * g + 1), ByteAt(bytes, 3 * g + 2));
  }

  lemma SignificantCovers(n: nat, g: nat, r: nat)
    requires r < 3 && 3 * g + r < n
    ensures 4 * g + r + 1 < Significant(n)
  {
    var q := Significant(n);
    assert 6 * q + 5 >= 8 * n + 5;
  }

  // The two sextets that byte p of the input lies in.
  lemma SextetsOfByte(bytes: seq<Byte>, p: nat)
    requires p < |bytes|
    ensures var k := p / 3 * 4 + p % 3;
      k + 1 < Significant(|bytes|) && Join(SextetAt(bytes, k), SextetAt(bytes, k + 1), p % 3) == bytes[p]
  {
    var g, r := p / 3, p % 3;
    IndexInGroup(g, r);
    IndexInGroup(g, r + 1);
    SextetsOfGroup(bytes, g, r);
    SignificantCovers(|bytes|, g, r);
  }

  lemma DecodedByteOfEncoded(bytes: seq<Byte>, p: nat)
    requires p < |bytes|
    ensures Significant(|bytes|) * 3 / 4 == |bytes| && DecodedByte(AllSextets(bytes), p) == bytes[p]
  {
    SextetsOfByte(bytes, p);
    OutLengthOfEncoded(|bytes|);
  }

  lemma PaddingOfEncoded(bytes: seq<Byte>)
    ensures Padding(Encoded(bytes)) == if |bytes| % 3 == 0 then 0 else 3 - |bytes| % 3
  {
    var text := Encoded(bytes);
    forall k | 0 <= k < Significant(|bytes|) ensures text[k] != PAD {
      LookupInvertsAlphabet(text[k], SextetAt(bytes, k));
    }
  }

  // base64ToBytes inverts bytesToBase64 on every byte array.
  lemma RoundTrip(bytes: seq<Byte>)
    ensures Decoded(Encoded(bytes)) == Ok(bytes)
  {
    SextetsOfEncoded(bytes);
    PaddingOfEncoded(bytes);
    forall p | 0 <= p < |bytes| ensures Significant(|bytes|) * 3 / 4 == |bytes|
        && DecodedByte(AllSextets(bytes), p) == bytes[p] {
      DecodedByteOfEncoded(bytes, p);
    }
    OutLengthOfEncoded(|bytes|);
    WrittenIsDecoded(Encoded(bytes), bytes);
  }

  lemma OutLengthOfEncoded(n: nat)
    ensures (n + 2) / 3 * 4 * 3 / 4 - (if n % 3 == 0 then 0 else 3 - n % 3) == n
    ensures Significant(n) * 3 / 4 == n
  {
    var g, r := n / 3, n % 3;
    assert Significant(n) == 4 * g + if r == 0 then 0 else r + 1;
  }

  // A whole number of triples encodes on its own: text concatenates as the bytes do.
  lemma EncodedConcatenates(a: seq<Byte>, b: seq<Byte>)
    requires |a| % 3 == 0
    ensures Encoded(a + b) == Encoded(a) + Encoded(b)
  {
    var t := |a| / 3;
    LengthsAdd(t, |b|);
    forall k | 0 <= k < 4 * t ensures Encoded(a + b)[k] == Encoded(a)[k] { FrontCharacter(a, b, t, k); }
    forall k | 0 <= k < |Encoded(b)| ensures Encoded(a + b)[4 * t + k] == Encoded(b)[k] { BackCharacter(a, b, t, k); }
  }

  lemma FrontCharacter(a: seq<Byte>, b: seq<Byte>, t: nat, k: nat)
    requires |a| == 3 * t && k < 4 * t
    ensures k < |Encoded(a + b)| && k < |Encoded(a)| && Encoded(a + b)[k] == Encoded(a)[k]
  {
    LengthsAdd(t, |b|);
    FrontSextets(a, b, k);
  }

  lemma BackCharacter(a: seq<Byte>, b: seq<Byte>, t: nat, k: nat)
    requires |a| == 3 * t && k < |Encoded(b)|
    ensures 4 * t + k < |Encoded(a + b)| && Encoded(a + b)[4 * t + k] == Encoded(b)[k]
  {
    LengthsAdd(t, |b|);
    BackSextets(a, b, t, k);
  }

  lemma LengthsAdd(t: nat, n: nat)
    ensures (3 * t + 2) / 3 * 4 == 4 * t && Significant(3 * t) == 4 * t
    ensures (3 * t + n + 2) / 3 * 4 == 4 * t + (n + 2) / 3 * 4 && Significant(3 * t + n) == 4 * t + Significant(n)
  {
    DivUnique(3 * t + n + 2, 3, t + (n + 2) / 3, (n + 2) % 3);
    DivUnique(8 * (3 * t + n) + 5, 6, 4 * t + (8 * n + 5) / 6, (8 * n + 5) % 6);
  }

  lemma FrontSextets(a: seq<Byte>, b: seq<Byte>, k: nat)
    requires k / 4 * 3 + 3 <= |a|
    ensures SextetAt(a + b, k) == SextetAt(a, k)
  {
    assert GroupSextet(a + b, k / 4, k % 4) == GroupSextet(a, k / 4, k % 4);
  }

  lemma BackSextets(a: seq<Byte>, b: seq<Byte>, t: nat, k: nat)
    requires |a| == 3 * t
    ensures SextetAt(a + b, 4 * t + k) == SextetAt(b, k)
  {
    var g := k / 4;
    DivUnique(4 * t + k, 4, t + g, k % 4);
    assert ByteAt(a + b, 3 * (t + g)) == ByteAt(b, 3 * g);
    assert ByteAt(a + b, 3 * (t + g) + 1) == ByteAt(b, 3 * g + 1);
    assert ByteAt(a + b, 3 * (t + g) + 2) == ByteAt(b, 3 * g + 2);
  }

  // The only strings that decoding rejects are those with no alphabet character at all, one
  // '=' at the very end, and no other '=' except the one before it.
  lemma DecodeFailsExactlyOnBarePadding(text: seq<Unit>)
    ensures Decoded(text).Err? <==> Padding(text) > 0 && Clean(text) == Padding(text)
  {
    CleanCoversPadding(text);
  }

  lemma CleanCoversPadding(text: seq<Unit>)
    ensures Clean(text) >= Padding(text)
  {
    var n := |text|;
    if Padding(text) == 2 {
      assert text[..n - 1][..n - 2] == text[..n - 2] && Clean(text[..n - 1]) >= 1;
    }
  }
}
