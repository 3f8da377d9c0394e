// The proof of possession of a contact card, and who starts the session of a pair.
module ContactCard {
  import opened Text
  import opened Utf8

  type Bytes = seq<Byte>

  // The fields the card hash commits to, keys decoded.
  datatype Card = Card(handle: seq<Unit>, identityKey: Bytes, signedPreKey: Bytes, kyberPreKey: Bytes)

  const CURVE_KEY_LENGTH: nat := 33
  const KYBER_KEY_LENGTH: nat := 1569

  // The key sizes of the protocol.
  predicate Sized(c: Card) {
    |c.identityKey| == CURVE_KEY_LENGTH && |c.signedPreKey| == CURVE_KEY_LENGTH && |c.kyberPreKey| == KYBER_KEY_LENGTH
  }

  predicate WellFormed(s: seq<Unit>) {
    forall i :: 0 <= i < |s| ==> !Unpaired(s, i)
  }

  // What is hashed: four fields with a zero byte between neighbours.
  function Preimage(c: Card): Bytes {
    EncodeFrom(c.handle, 0) + [0] + c.identityKey + [0] + c.signedPreKey + [0] + c.kyberPreKey
  }

  method Set(buf: array<Byte>, part: Bytes, offset: nat) returns (end: nat)
    requires offset + |part| <= buf.Length
    modifies buf
    ensures end == offset + |part| && buf[..end] == old(buf[..offset]) + part
  {
    var i := 0;
    while i < |part|
      invariant 0 <= i <= |part|
      invariant buf[..offset + i] == old(buf[..offset]) + part[..i]
    {
      buf[offset + i] := part[i];
      i := i + 1;
    }
    end := offset + |part|;
  }

  // The buffer filled with a moving offset, then hashed.
  method ComputeCardHash(hash: Bytes -> Bytes, c: Card) returns (h: Bytes)
    ensures h == hash(Preimage(c))
  {
    var handle := Utf8Encode(c.handle);
    var buf := new Byte[|handle| + 1 + |c.identityKey| + 1 + |c.signedPreKey| + 1 + |c.kyberPreKey|];
    var offset := Set(buf, handle, 0);
    assert buf[..offset] == handle;
    offset := SetAfterZero(buf, c.identityKey, offset);
    offset := SetAfterZero(buf, c.signedPreKey, offset);
    offset := SetAfterZero(buf, c.kyberPreKey, offset);
    assert buf[..offset] == buf[..];
    h := hash(buf[..]);
  }

  method SetAfterZero(buf: array<Byte>, part: Bytes, offset: nat) returns (end: nat)
    requires offset + 1 + |part| <= buf.Length
    modifies buf
    ensures end == offset + 1 + |part| && buf[..end] == old(buf[..offset]) + [0] + part
  {
    buf[offset] := 0;
    assert buf[..offset + 1] == old(buf[..offset]) + [0];
    end := Set(buf, part, offset + 1);
  }

  lemma SplitsAtEnd(a: Bytes, x: Bytes, b: Bytes, y: Bytes)
    requires a + x == b + y && |x| == |y|
    ensures a == b && x == y
  {
    assert |a| == |b|;
    assert a == (a + x)[..|a|] && b == (b + y)[..|b|];
    assert x == (a + x)[|a|..] && y == (b + y)[|b|..];
  }

  // Where each field lies: the handle's UTF-8 bytes, then at fixed distances the identity key,
  // the signed prekey and the kyber prekey, with a zero byte before each.
  lemma PreimageLayout(c: Card)
    requires Sized(c)
    ensures var p, n := Preimage(c), |EncodeFrom(c.handle, 0)|;
      && |p| == n + 1638 && p[..n] == EncodeFrom(c.handle, 0)
      && p[n] == 0 && p[n + 1..n + 34] == c.identityKey
      && p[n + 34] == 0 && p[n + 35..n + 68] == c.signedPreKey
      && p[n + 68] == 0 && p[n + 69..] == c.kyberPreKey
  {
  }

  // With the fixed key sizes the layout is injective: cards with well formed handles and the
  // same preimage are the same card.
  lemma PreimageIsInjective(c: Card, d: Card)
    requires Sized(c) && Sized(d) && WellFormed(c.handle) && WellFormed(d.handle) && Preimage(c) == Preimage(d)
    ensures c == d
  {
    var hc, hd := EncodeFrom(c.handle, 0), EncodeFrom(d.handle, 0);
    SplitsAtEnd(hc + [0] + c.identityKey + [0] + c.signedPreKey + [0], c.kyberPreKey,
                hd + [0] + d.identityKey + [0] + d.signedPreKey + [0], d.kyberPreKey);
    SplitsAtEnd(hc + [0] + c.identityKey + [0] + c.signedPreKey, [0],
        hd + [0] + d.identityKey + [0] + d.signedPreKey, [0]);
    SplitsAtEnd(hc + [0] + c.identityKey + [0], c.signedPreKey, hd + [0] + d.identityKey + [0], d.signedPreKey);
    SplitsAtEnd(hc + [0] + c.identityKey, [0], hd + [0] + d.identityKey, [0]);
    SplitsAtEnd(hc + [0], c.identityKey, hd + [0], d.identityKey);
    SplitsAtEnd(hc, [0], hd, [0]);
    WellFormedSurvives(c.handle);
    WellFormedSurvives(d.handle);
  }

  // Without the sizes it is not: a zero byte inside a key shifts the fields.
  lemma LayoutNeedsTheSizes()
    ensures Preimage(Card([], [0], [], [])) == Preimage(Card([], [], [0], []))
  {
    assert EncodeFrom([], 0) == [];
    assert Preimage(Card([], [0], [], [])) == [0, 0, 0, 0] == Preimage(Card([], [], [0], []));
  }

  // --- the session initiator ---

  // Lexicographic byte order, a proper prefix first.
  predicate Precedes(a: Bytes, b: Bytes) {
    if b == [] then false else if a == [] then true else a[0] < b[0] || (a[0] == b[0] && Precedes(a[1..], b[1..]))
  }

  method CompareBytes(a: Bytes, b: Bytes) returns (r: int)
    ensures r < 0 <==> Precedes(a, b)
    ensures r > 0 <==> Precedes(b, a)
    ensures r == 0 <==> a == b
  {
    var len := if |a| < |b| then |a| else |b|;
    var i := 0;
    while i < len
      invariant 0 <= i <= len && a[..i] == b[..i]
      invariant Precedes(a, b) <==> Precedes(a[i..], b[i..])
      invariant Precedes(b, a) <==> Precedes(b[i..], a[i..])
    {
      assert a[i..][1..] == a[i + 1..] && b[i..][1..] == b[i + 1..];
      if a[i] != b[i] {
        var x: int, y: int := a[i], b[i];
        return x - y;
      }
      i := i + 1;
    }
    assert |a| == |b| ==> a == a[..i] && b == b[..i];
    r := |a| - |b|;
  }

  // Exactly one side of a pair with different keys initiates.
  lemma {:induction false} ExactlyOneInitiates(a: Bytes, b: Bytes)
    ensures a != b ==> (Precedes(a, b) <==> !Precedes(b, a))
    ensures a == b ==> !Precedes(a, b)
    decreases |a|
  {
    if a != [] && b != [] && a[0] == b[0] {
      ExactlyOneInitiates(a[1..], b[1..]);
      assert a == [a[0]] + a[1..] && b == [b[0]] + b[1..];
    }
  }

  lemma {:induction false} PrecedesIsTransitive(a: Bytes, b: Bytes, c: Bytes)
    requires Precedes(a, b) && Precedes(b, c)
    ensures Precedes(a, c)
    decreases |a|
  {
    if a != [] && b[0] == a[0] && c[0] == b[0] { PrecedesIsTransitive(a[1..], b[1..], c[1..]); }
  }
}
