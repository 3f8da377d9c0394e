// The UTF-8 fallbacks of src/crypto/bytes.ts, used where the runtime has no TextEncoder or
// TextDecoder.
module Utf8 {
  import opened Arithmetic
  import opened Text

  const REPLACEMENT_CHARACTER: Unit := 0xfffd

  const REPLACEMENT: seq<Byte> := [0xef, 0xbf, 0xbd]

  predicate High(c: Unit) {
    0xd800 <= c <= 0xdbff
  }

  predicate Low(c: Unit) {
    0xdc00 <= c <= 0xdfff
  }

  // A surrogate that is not half of a pair.
  predicate Unpaired(s: seq<Unit>, i: nat)
    requires i < |s|
  {
    || (High(s[i]) && !(i + 1 < |s| && Low(s[i + 1])))
    || (Low(s[i]) && !(i > 0 && High(s[i - 1])))
  }

  function Sanitized(s: seq<Unit>): seq<Unit> {
    seq(|s|, i requires 0 <= i < |s| => if Unpaired(s, i) then REPLACEMENT_CHARACTER else s[i])
  }

  type Scalar = c: int | 0 <= c < 0x11_0000 witness 0

  function Two(c: int): seq<Byte>
    requires 0 <= c < 0x800
  {
    [0xc0 + c / 0x40, 0x80 + c % 0x40]
  }

  function Three(c: int): seq<Byte>
    requires 0 <= c < 0x1_0000
  {
    [0xe0 + c / 0x1000, 0x80 + c / 0x40 % 0x40, 0x80 + c % 0x40]
  }

  function Four(c: Scalar): seq<Byte> {
    [0xf0 + c / 0x4_0000, 0x80 + c / 0x1000 % 0x40, 0x80 + c / 0x40 % 0x40, 0x80 + c % 0x40]
  }

  // The table of section 3 of RFC 3629.
  function Sequence(c: Scalar): (bytes: seq<Byte>)
    ensures 1 <= |bytes| <= 4
  {
    if c < 0x80 then [c] else if c < 0x800 then Two(c) else if c < 0x1_0000 then Three(c) else Four(c)
  }

  function PairValue(hi: Unit, lo: Unit): Scalar
    requires High(hi) && Low(lo)
  {
    0x1_0000 + ((hi as int) - 0xd800) * 0x400 + (lo as int) - 0xdc00
  }

  function EncodeFrom(s: seq<Unit>, i: nat): seq<Byte>
    requires i <= |s|
    decreases |s| - i
  {
    if i == |s| then []
    else if High(s[i]) && i + 1 < |s| && Low(s[i + 1]) then Sequence(PairValue(s[i], s[i + 1])) + EncodeFrom(s, i + 2)
    else if High(s[i]) || Low(s[i]) then Sequence(REPLACEMENT_CHARACTER) + EncodeFrom(s, i + 1)
    else Sequence(s[i]) + EncodeFrom(s, i + 1)
  }

  // The bytes of the next character, and the index after it.
  method EncodeNext(s: seq<Unit>, i: nat) returns (chunk: seq<Byte>, next: nat)
    requires i < |s|
    ensures i < next <= |s| && EncodeFrom(s, i) == chunk + EncodeFrom(s, next)
  {
    next := i + 1;
    var c: int := s[i];
    if c < 0x80 {
      chunk := [c];
    } else if c < 0x800 {
      chunk := Two(c);
    } else if 0xd800 <= c <= 0xdbff {
      if next < |s| && 0xdc00 <= s[next] <= 0xdfff {
        SurrogateBits(s[i], s[next]);
        chunk := Four(Joined(s[i], s[next]));
        next := next + 1;
      } else {
        ReplacementSequence();
        chunk := REPLACEMENT;
      }
    } else if 0xdc00 <= c <= 0xdfff {
      ReplacementSequence();
      chunk := REPLACEMENT;
    } else {
      chunk := Three(c);
    }
  }

  method Utf8Encode(s: seq<Unit>) returns (out: seq<Byte>)
    ensures out == EncodeFrom(s, 0)
  {
    out := [];
    var i := 0;
    while i < |s|
      invariant 0 <= i <= |s| && out + EncodeFrom(s, i) == EncodeFrom(s, 0)
    {
      var chunk, next := EncodeNext(s, i);
      assert out + (chunk + EncodeFrom(s, next)) == (out + chunk) + EncodeFrom(s, next);
      out := out + chunk;
      i := next;
    }
  }

  lemma ReplacementSequence()
    ensures Sequence(REPLACEMENT_CHARACTER) == REPLACEMENT
  {
  }

  // 0x10000 + ((c & 0x3ff) << 10) + (c2 & 0x3ff)
  function Joined(hi: Unit, lo: Unit): Scalar {
    0x1_0000 + (hi as int) % 0x400 * 0x400 + (lo as int) % 0x400
  }

  lemma SurrogateBits(hi: Unit, lo: Unit)
    requires High(hi) && Low(lo)
    ensures Joined(hi, lo) == PairValue(hi, lo)
  {
    DivUnique(hi, 0x400, 54, (hi as int) - 0xd800);
    DivUnique(lo, 0x400, 55, (lo as int) - 0xdc00);
  }

  // The decoder checks neither the continuation bytes nor the range of the value: a lead
  // byte alone says how many bytes it takes, and a cut sequence ends the text.
  function Length(lead: Byte): nat {
    if lead < 0x80 then 1 else if lead < 0xe0 then 2 else if lead < 0xf0 then 3 else 4
  }

  // The six payload bits of a continuation byte.
  function Low6(b: Byte): nat {
    b % 0x40
  }

  function OfTwo(a: Byte, b: Byte): Unit {
    Low5(a) * 0x40 + Low6(b)
  }

  function Low5(a: Byte): nat {
    a % 0x20
  }

  function OfThree(a: Byte, b: Byte, c: Byte): Unit {
    Low4(a) * 0x1000 + Low6(b) * 0x40 + Low6(c)
  }

  function Low4(a: Byte): nat {
    a % 0x10
  }

  function OfFour(a: Byte, b: Byte, c: Byte, d: Byte): nat {
    Low3(a) * 0x4_0000 + Low6(b) * 0x1000 + Low6(c) * 0x40 + Low6(d)
  }

  function Low3(a: Byte): nat {
    a % 8
  }

  function SurrogatesOf(value: nat): seq<Unit>
    requires value < 0x20_0000
  {
    var off := value - 0x1_0000;
    [0xd800 + off / 0x400, 0xdc00 + off % 0x400]
  }

  function Units(b: seq<Byte>): seq<Unit>
    requires |b| > 0 && |b| == Length(b[0])
  {
    match |b|
    case 1 => [b[0]]
    case 2 => [OfTwo(b[0], b[1])]
    case 3 => [OfThree(b[0], b[1], b[2])]
    case _ => SurrogatesOf(OfFour(b[0], b[1], b[2], b[3]))
  }

  function WholeUnits(b: seq<Byte>): seq<Unit> {
    if |b| > 0 && |b| == Length(b[0]) then Units(b) else []
  }

  function DecodeBy(units: seq<Byte> -> seq<Unit>, bytes: seq<Byte>, i: nat): seq<Unit>
    requires i <= |bytes|
    decreases |bytes| - i
  {
    if i == |bytes| then []
    else
      var n := Length(bytes[i]);
      if i + n > |bytes| then [REPLACEMENT_CHARACTER]
      else units(bytes[i..i + n]) + DecodeBy(units, bytes, i + n)
  }

  function DecodeFrom(bytes: seq<Byte>, i: nat): seq<Unit>
    requires i <= |bytes|
  {
    DecodeBy(WholeUnits, bytes, i)
  }

  // One turn of the decoder, spelled out for each lead byte.
  lemma DecodeStep(bytes: seq<Byte>, i: nat)
    requires i < |bytes|
    ensures var n := Length(bytes[i]);
      DecodeFrom(bytes, i) ==
        if i + n > |bytes| then [REPLACEMENT_CHARACTER]
        else (if n == 1 then [bytes[i]]
              else if n == 2 then [OfTwo(bytes[i], bytes[i + 1])]
              else if n == 3 then [OfThree(bytes[i], bytes[i + 1], bytes[i + 2])]
              else SurrogatesOf(OfFour(bytes[i], bytes[i + 1], bytes[i + 2], bytes[i + 3]))) + DecodeFrom(bytes, i + n)
  {
    var n := Length(bytes[i]);
    if i + n <= |bytes| {
      var b := bytes[i..i + n];
      assert forall k :: 0 <= k < n ==> b[k] == bytes[i + k];
    }
  }

  // One sequence read off at i: the units it stands for, or a cut at the end of the input.
  method DecodeOne(bytes: seq<Byte>, i: nat) returns (chunk: seq<Unit>, next: nat, cut: bool)
    requires i < |bytes|
    ensures cut ==> DecodeFrom(bytes, i) == [REPLACEMENT_CHARACTER]
    ensures !cut ==> i < next <= |bytes| && DecodeFrom(bytes, i) == chunk + DecodeFrom(bytes, next)
  {
    var n := |bytes|;
    var b := bytes[i];
    DecodeStep(bytes, i);
    chunk, next, cut := [], i + 1, false;
    if b < 0x80 {
      chunk := [b];
    } else if b < 0xe0 {
      cut := next >= n;
      if !cut {
        chunk := [OfTwo(b, bytes[next])];
        next := next + 1;
      }
    } else if b < 0xf0 {
      cut := next + 1 >= n;
      if !cut {
        chunk := [OfThree(b, bytes[next], bytes[next + 1])];
        next := next + 2;
      }
    } else {
      cut := next + 2 >= n;
      if !cut {
        chunk := SurrogatesOf(OfFour(b, bytes[next], bytes[next + 1], bytes[next + 2]));
        next := next + 3;
      }
    }
  }

  method Utf8Decode(bytes: seq<Byte>) returns (s: seq<Unit>)
    ensures s == DecodeFrom(bytes, 0)
  {
    s := [];
    var i := 0;
    while i < |bytes|
      invariant 0 <= i <= |bytes| && s + DecodeFrom(bytes, i) == DecodeFrom(bytes, 0)
    {
      var chunk, next, cut := DecodeOne(bytes, i);
      if cut {
        s := s + [REPLACEMENT_CHARACTER];
        break;
      }
      assert s + (chunk + DecodeFrom(bytes, next)) == (s + chunk) + DecodeFrom(bytes, next);
      s := s + chunk;
      i := next;
    }
  }

  lemma TwoDecodes(c: int)
    requires 0x80 <= c < 0x800
    ensures Length(Two(c)[0]) == 2 && OfTwo(Two(c)[0], Two(c)[1]) == c
  {
    var q, r := c / 0x40, c % 0x40;
    DivUnique(0xc0 + q, 0x20, 6, q);
    DivUnique(0x80 + r, 0x40, 2, r);
  }

  lemma ThreeDecodes(c: int)
    requires 0x800 <= c < 0x1_0000
    ensures Length(Three(c)[0]) == 3 && OfThree(Three(c)[0], Three(c)[1], Three(c)[2]) == c
  {
    var q, r := c / 0x40, c % 0x40;
    var q1, r1 := q / 0x40, q % 0x40;
    DivUnique(c, 0x1000, q1, r1 * 0x40 + r);
    DivUnique(0xe0 + q1, 0x10, 14, q1);
    DivUnique(0x80 + r1, 0x40, 2, r1);
    DivUnique(0x80 + r, 0x40, 2, r);
  }

  lemma FourDecodes(c: Scalar)
    requires 0x1_0000 <= c
    ensures Length(Four(c)[0]) == 4 && OfFour(Four(c)[0], Four(c)[1], Four(c)[2], Four(c)[3]) == c
  {
    var q, r := c / 0x40, c % 0x40;
    var q1, r1 := q / 0x40, q % 0x40;
    var q2, r2 := q1 / 0x40, q1 % 0x40;
    DivUnique(c, 0x1000, q1, r1 * 0x40 + r);
    DivUnique(c, 0x4_0000, q2, r2 * 0x1000 + r1 * 0x40 + r);
    DivUnique(0xf0 + q2, 8, 30, q2);
    DivUnique(0x80 + r2, 0x40, 2, r2);
    DivUnique(0x80 + r1, 0x40, 2, r1);
    DivUnique(0x80 + r, 0x40, 2, r);
  }

  lemma SequenceDecodes(c: Scalar)
    ensures Length(Sequence(c)[0]) == |Sequence(c)|
    ensures Units(Sequence(c)) == if c < 0x1_0000 then [c] else SurrogatesOf(c)
  {
    if c < 0x80 {
    } else if c < 0x800 {
      TwoDecodes(c);
    } else if c < 0x1_0000 {
      ThreeDecodes(c);
    } else {
      FourDecodes(c);
    }
  }

  // Decoding reads one sequence off the front whatever follows.
  lemma DecodeSplits(a: seq<Byte>, b: seq<Byte>)
    requires |a| > 0 && |a| == Length(a[0])
    ensures DecodeFrom(a + b, 0) == Units(a) + DecodeFrom(b, 0)
  {
    assert (a + b)[0..|a|] == a;
    DecodeShift(a, b);
  }

  lemma DecodeShift(a: seq<Byte>, b: seq<Byte>)
    ensures DecodeFrom(a + b, |a|) == DecodeFrom(b, 0)
  {
    DecodeByShift(WholeUnits, a, b, 0);
  }

  lemma WindowShifts(a: seq<Byte>, b: seq<Byte>, i: nat, j: nat)
    requires i <= j <= |b|
    ensures (a + b)[|a| + i..|a| + j] == b[i..j]
  {
  }

  lemma {:induction false} DecodeByShift(units: seq<Byte> -> seq<Unit>, a: seq<Byte>, b: seq<Byte>, i: nat)
    requires i <= |b|
    ensures DecodeBy(units, a + b, |a| + i) == DecodeBy(units, b, i)
    decreases |b| - i
  {
    if i < |b| {
      var n := Length(b[i]);
      if i + n <= |b| {
        WindowShifts(a, b, i, i + n);
        DecodeByShift(units, a, b, i + n);
      }
    }
  }

  // No pair straddles i.
  predicate Boundary(s: seq<Unit>, i: nat)
    requires i <= |s|
  {
    !(0 < i < |s| && High(s[i - 1]) && Low(s[i]))
  }

  // Decoding an encoded string gives the string back with exactly its unpaired surrogates
  // replaced by U+FFFD.
  lemma RoundTrip(s: seq<Unit>)
    ensures DecodeFrom(EncodeFrom(s, 0), 0) == Sanitized(s)
  {
    RoundTripFrom(s, 0);
    assert Sanitized(s)[0..] == Sanitized(s);
  }

  lemma {:induction false} RoundTripFrom(s: seq<Unit>, i: nat)
    requires i <= |s| && Boundary(s, i)
    ensures DecodeFrom(EncodeFrom(s, i), 0) == Sanitized(s)[i..]
    decreases |s| - i
  {
    if i == |s| {
    } else if High(s[i]) && i + 1 < |s| && Low(s[i + 1]) {
      PairDecodes(s, i);
      PairStays(s, i);
      RoundTripFrom(s, i + 2);
    } else {
      SingleDecodes(s, i);
      SanitizedFrom(s, i);
      RoundTripFrom(s, i + 1);
    }
  }

  // A unit outside any pair: itself, or a lone surrogate.
  lemma SingleDecodes(s: seq<Unit>, i: nat)
    requires i < |s| && Boundary(s, i) && !(High(s[i]) && i + 1 < |s| && Low(s[i + 1]))
    ensures DecodeFrom(EncodeFrom(s, i), 0) == [Sanitized(s)[i]] + DecodeFrom(EncodeFrom(s, i + 1), 0)
  {
    SingleEncodes(s, i);
    SequenceThen(Sanitized(s)[i], EncodeFrom(s, i + 1));
  }

  lemma SanitizedFrom(s: seq<Unit>, i: nat)
    requires i < |s|
    ensures Sanitized(s)[i..] == [Sanitized(s)[i]] + Sanitized(s)[i + 1..]
  {
  }

  lemma SingleEncodes(s: seq<Unit>, i: nat)
    requires i < |s| && Boundary(s, i) && !(High(s[i]) && i + 1 < |s| && Low(s[i + 1]))
    ensures EncodeFrom(s, i) == Sequence(Sanitized(s)[i]) + EncodeFrom(s, i + 1)
  {
    assert Sanitized(s)[i] == if High(s[i]) || Low(s[i]) then REPLACEMENT_CHARACTER else s[i];
  }

  lemma SequenceThen(c: Scalar, rest: seq<Byte>)
    ensures DecodeFrom(Sequence(c) + rest, 0) == (if c < 0x1_0000 then [c] else SurrogatesOf(c)) + DecodeFrom(rest, 0)
  {
    SequenceDecodes(c);
    DecodeSplits(Sequence(c), rest);
  }

  lemma PairSplits(hi: Unit, lo: Unit)
    requires High(hi) && Low(lo)
    ensures SurrogatesOf(PairValue(hi, lo)) == [hi, lo]
  {
    DivUnique(PairValue(hi, lo) - 0x1_0000, 0x400, (hi as int) - 0xd800, (lo as int) - 0xdc00);
  }

  lemma PairDecodes(s: seq<Unit>, i: nat)
    requires i + 1 < |s| && High(s[i]) && Low(s[i + 1])
    ensures DecodeFrom(EncodeFrom(s, i), 0) == [s[i], s[i + 1]] + DecodeFrom(EncodeFrom(s, i + 2), 0)
  {
    var c := PairValue(s[i], s[i + 1]);
    SequenceThen(c, EncodeFrom(s, i + 2));
    PairSplits(s[i], s[i + 1]);
  }

  // Neither half of a pair is replaced.
  lemma PairStays(s: seq<Unit>, i: nat)
    requires i + 1 < |s| && High(s[i]) && Low(s[i + 1])
    ensures Sanitized(s)[i..] == [s[i], s[i + 1]] + Sanitized(s)[i + 2..]
  {
    assert Sanitized(s)[i] == s[i] && Sanitized(s)[i + 1] == s[i + 1];
  }

  // So a well formed string survives unchanged, and only such a string does.
  lemma WellFormedSurvives(s: seq<Unit>)
    ensures DecodeFrom(EncodeFrom(s, 0), 0) == s <==> forall i :: 0 <= i < |s| ==> !Unpaired(s, i)
  {
    RoundTrip(s);
    if i :| 0 <= i < |s| && Unpaired(s, i) {
      assert Sanitized(s)[i] == REPLACEMENT_CHARACTER && s[i] != REPLACEMENT_CHARACTER;
    }
  }
}
