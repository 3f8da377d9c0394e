// The chunk geometry of images: a base64 body cut into slices that decode on their own, and
// the digest taken slice by slice.
module ImageCodec {
  import opened Arithmetic
  import opened Base64
  import opened Options
  import opened Text

  const IMAGE_CHUNK_RAW_BYTES: nat := 48_000
  const IMAGE_CHUNK_DATA_B64_MAX: nat := 64_000
  const IMAGE_MAX_CHUNKS: nat := 64
  const IMAGE_MAX_BYTES: nat := IMAGE_MAX_CHUNKS * IMAGE_CHUNK_RAW_BYTES

  type Hash = seq<Byte> -> seq<Byte>

  datatype AssembleError = SizeMismatch | DigestMismatch | DecodeFailed

  function Min(a: nat, b: nat): nat {
    if a < b then a else b
  }

  function CeilDiv(n: nat, d: nat): nat
    requires d > 0
  {
    (n + d - 1) / d
  }

  function ChunkCountFor(bytes: nat): nat {
    CeilDiv(bytes, IMAGE_CHUNK_RAW_BYTES)
  }

  function RawBytesOfB64(text: seq<Unit>): int {
    if |text| % 4 != 0 then -1 else |text| / 4 * 3 - Padding(text)
  }

  // --- slicing ---

  // Piece i of s cut every d elements; only the last may be shorter.
  function Piece<T>(s: seq<T>, d: nat, i: nat): seq<T> {
    s[Min(d * i, |s|)..Min(d * i + d, |s|)]
  }

  function Pieces<T>(s: seq<T>, d: nat): seq<seq<T>>
    requires d > 0
  {
    seq(CeilDiv(|s|, d), i requires 0 <= i => Piece(s, d, i))
  }

  function Slices(body: seq<Unit>): seq<seq<Unit>> {
    Pieces(body, IMAGE_CHUNK_DATA_B64_MAX)
  }

  function Join<T>(parts: seq<seq<T>>): seq<T> {
    if parts == [] then [] else Join(parts[..|parts| - 1]) + parts[|parts| - 1]
  }

  method SplitB64(body: seq<Unit>) returns (out: seq<seq<Unit>>)
    ensures out == Slices(body)
  {
    out := [];
    var i := 0;
    while i < |body|
      invariant i == IMAGE_CHUNK_DATA_B64_MAX * |out| && |out| <= CeilDiv(|body|, IMAGE_CHUNK_DATA_B64_MAX)
      invariant forall k :: 0 <= k < |out| ==> out[k] == Piece(body, IMAGE_CHUNK_DATA_B64_MAX, k)
    {
      out := out + [body[i..Min(i + IMAGE_CHUNK_DATA_B64_MAX, |body|)]];
      i := i + IMAGE_CHUNK_DATA_B64_MAX;
    }
  }

  lemma CeilDivCovers(n: nat, d: nat)
    requires d > 0
    ensures d * CeilDiv(n, d) >= n && (n > 0 ==> CeilDiv(n, d) > 0 && d * (CeilDiv(n, d) - 1) < n)
  {
    var q, r := (n + d - 1) / d, (n + d - 1) % d;
    assert n + d - 1 == d * q + r;
    assert d * (q - 1) == d * q - d;
    if n > 0 && q <= 0 { MulLeavesRange(d, q - 1); }
  }

  lemma {:induction false} PiecesJoinUpTo<T>(s: seq<T>, d: nat, k: nat)
    requires d > 0 && k <= CeilDiv(|s|, d)
    ensures Join(Pieces(s, d)[..k]) == s[..Min(d * k, |s|)]
  {
    if k > 0 {
      PiecesJoinUpTo(s, d, k - 1);
      var parts := Pieces(s, d)[..k];
      assert parts[..k - 1] == Pieces(s, d)[..k - 1] && parts[k - 1] == Piece(s, d, k - 1);
      PrefixGrows(s, d * (k - 1), d);
      MulSucc(d, k);
    }
  }

  lemma PrefixGrows<T>(s: seq<T>, m: nat, d: nat)
    ensures s[..Min(m, |s|)] + s[Min(m, |s|)..Min(m + d, |s|)] == s[..Min(m + d, |s|)]
  {
  }

  lemma MulSucc(d: nat, k: nat)
    requires k > 0
    ensures d * k == d * (k - 1) + d && d * (k - 1) >= 0
  {
  }

  lemma PiecesJoin<T>(s: seq<T>, d: nat)
    requires d > 0
    ensures Join(Pieces(s, d)) == s
  {
    var n := CeilDiv(|s|, d);
    PiecesJoinUpTo(s, d, n);
    CeilDivCovers(|s|, d);
    assert Pieces(s, d)[..n] == Pieces(s, d);
  }

  // Slice i of the body is the base64 of the i-th 48000 bytes.
  lemma SliceIsEncodedPiece(raw: seq<Byte>, i: nat)
    requires i < ChunkCountFor(|raw|)
    ensures Piece(Encoded(raw), IMAGE_CHUNK_DATA_B64_MAX, i) == Encoded(Piece(raw, IMAGE_CHUNK_RAW_BYTES, i))
  {
    var at := IMAGE_CHUNK_RAW_BYTES * i;
    CeilDivCovers(|raw|, IMAGE_CHUNK_RAW_BYTES);
    assert at < |raw|;
    var a, rest := raw[..at], raw[at..];
    var b := Piece(raw, IMAGE_CHUNK_RAW_BYTES, i);
    assert raw == a + rest;
    DivUnique(at, 3, 16_000 * i, 0);
    EncodedConcatenates(a, rest);
    assert |Encoded(a)| == IMAGE_CHUNK_DATA_B64_MAX * i by { DivUnique(at + 2, 3, 16_000 * i, 2); }
    if |rest| <= IMAGE_CHUNK_RAW_BYTES {
      assert b == rest;
    } else {
      assert rest == b + rest[IMAGE_CHUNK_RAW_BYTES..];
      EncodedConcatenates(b, rest[IMAGE_CHUNK_RAW_BYTES..]);
    }
  }

  lemma SliceCount(raw: seq<Byte>)
    ensures |Slices(Encoded(raw))| == ChunkCountFor(|raw|)
  {
    var n := |raw|;
    var q, r := n / IMAGE_CHUNK_RAW_BYTES, n % IMAGE_CHUNK_RAW_BYTES;
    var g := (r + 2) / 3;
    DivUnique(n + 2, 3, 16_000 * q + g, r + 2 - 3 * g);
    assert |Encoded(raw)| == 64_000 * q + 4 * g;
    if r == 0 {
      DivUnique(n + 47_999, 48_000, q, 47_999);
      DivUnique(64_000 * q + 63_999, 64_000, q, 63_999);
    } else {
      DivUnique(n + 47_999, 48_000, q + 1, r - 1);
      DivUnique(64_000 * q + 4 * g + 63_999, 64_000, q + 1, 4 * g - 1);
    }
  }

  // --- the digest ---

  // A streaming hash: what it has absorbed is the concatenation of the updates.
  class Hasher {
    const hash: Hash
    var absorbed: seq<Byte>

    constructor (hash: Hash)
      ensures this.hash == hash && absorbed == []
    {
      this.hash := hash;
      absorbed := [];
    }

    method Update(bytes: seq<Byte>)
      modifies this
      ensures absorbed == old(absorbed) + bytes
    {
      absorbed := absorbed + bytes;
    }

    method Digest() returns (d: seq<Byte>)
      ensures d == hash(absorbed)
    {
      d := hash(absorbed);
    }
  }

  // The bytes of the slices decoded one by one, or the first failure.
  function DecodedSlices(slices: seq<seq<Unit>>): Result<seq<Byte>, Error> {
    if slices == [] then Ok([])
    else
      match DecodedSlices(slices[..|slices| - 1])
      case Err(e) => Err(e)
      case Ok(before) =>
        match Decoded(slices[|slices| - 1])
        case Err(e) => Err(e)
        case Ok(bytes) => Ok(before + bytes)
  }

  function SlicedDigest(hash: Hash, body: seq<Unit>): Result<seq<Unit>, Error> {
    match DecodedSlices(Slices(body))
    case Err(e) => Err(e)
    case Ok(bytes) => Ok(Encoded(hash(bytes)))
  }

  lemma {:induction false} FailureSticks(slices: seq<seq<Unit>>, k: nat)
    requires k <= |slices| && DecodedSlices(slices[..k]).Err?
    ensures DecodedSlices(slices) == DecodedSlices(slices[..k])
    decreases |slices|
  {
    if k == |slices| {
      assert slices[..k] == slices;
    } else {
      assert slices[..|slices| - 1][..k] == slices[..k];
      FailureSticks(slices[..|slices| - 1], k);
    }
  }

  method Sha256B64OfB64(hash: Hash, body: seq<Unit>) returns (r: Result<seq<Unit>, Error>)
    ensures r == SlicedDigest(hash, body)
  {
    var hasher := new Hasher(hash);
    var slices := SplitB64(body);
    var i := 0;
    while i < |slices|
      invariant 0 <= i <= |slices| && fresh(hasher) && hasher.hash == hash
      invariant DecodedSlices(slices[..i]) == Ok(hasher.absorbed)
    {
      var bytes := Base64ToBytes(slices[i]);
      assert slices[..i + 1][..i] == slices[..i];
      if bytes.Err? {
        FailureSticks(slices, i + 1);
        return Err(bytes.error);
      }
      hasher.Update(bytes.value);
      i := i + 1;
    }
    assert slices[..|slices|] == slices;
    var digest := hasher.Digest();
    var text := BytesToBase64(digest);
    r := Ok(text);
  }

  lemma {:induction false} SlicesDecodeUpTo(raw: seq<Byte>, k: nat)
    requires k <= ChunkCountFor(|raw|)
    ensures k <= |Slices(Encoded(raw))|
    ensures DecodedSlices(Slices(Encoded(raw))[..k]) == Ok(Join(Pieces(raw, IMAGE_CHUNK_RAW_BYTES)[..k]))
  {
    SliceCount(raw);
    var slices, pieces := Slices(Encoded(raw)), Pieces(raw, IMAGE_CHUNK_RAW_BYTES);
    if k > 0 {
      SlicesDecodeUpTo(raw, k - 1);
      SliceIsEncodedPiece(raw, k - 1);
      RoundTrip(pieces[k - 1]);
      assert slices[..k][..k - 1] == slices[..k - 1];
      assert pieces[..k][..k - 1] == pieces[..k - 1];
    }
  }

  // The slices decode independently to the original bytes.
  lemma SlicesDecode(raw: seq<Byte>)
    ensures Join(Slices(Encoded(raw))) == Encoded(raw)
    ensures DecodedSlices(Slices(Encoded(raw))) == Ok(raw)
  {
    var slices, n := Slices(Encoded(raw)), ChunkCountFor(|raw|);
    PiecesJoin(Encoded(raw), IMAGE_CHUNK_DATA_B64_MAX);
    SliceCount(raw);
    SlicesDecodeUpTo(raw, n);
    PiecesJoin(raw, IMAGE_CHUNK_RAW_BYTES);
    assert slices[..n] == slices;
    assert Pieces(raw, IMAGE_CHUNK_RAW_BYTES)[..n] == Pieces(raw, IMAGE_CHUNK_RAW_BYTES);
  }

  // The incremental digest is the digest of the whole.
  lemma SlicedDigestIsWhole(hash: Hash, raw: seq<Byte>)
    ensures SlicedDigest(hash, Encoded(raw)) == Ok(Encoded(hash(raw)))
  {
    SlicesDecode(raw);
  }

  // --- reassembly ---

  function Assembled(hash: Hash, chunks: seq<seq<Unit>>, bytes: int, digest: seq<Unit>)
      : Result<seq<Unit>, AssembleError>
  {
    var body := Join(chunks);
    if RawBytesOfB64(body) != bytes || bytes < 1 || bytes > IMAGE_MAX_BYTES then Err(SizeMismatch)
    else
      match SlicedDigest(hash, body)
      case Err(_) => Err(DecodeFailed)
      case Ok(found) => if found != digest then Err(DigestMismatch) else Ok(body)
  }

  method AssembleAndVerify(hash: Hash, chunks: seq<seq<Unit>>, bytes: int, digest: seq<Unit>)
    returns (r: Result<seq<Unit>, AssembleError>)
    ensures r == Assembled(hash, chunks, bytes, digest)
  {
    var body := [];
    var i := 0;
    while i < |chunks|
      invariant 0 <= i <= |chunks| && body == Join(chunks[..i])
    {
      assert chunks[..i + 1][..i] == chunks[..i];
      body := body + chunks[i];
      i := i + 1;
    }
    assert chunks[..|chunks|] == chunks;
    if RawBytesOfB64(body) != bytes || bytes < 1 || bytes > IMAGE_MAX_BYTES {
      return Err(SizeMismatch);
    }
    var found := Sha256B64OfB64(hash, body);
    if found.Err? {
      return Err(DecodeFailed);
    }
    if found.value != digest {
      return Err(DigestMismatch);
    }
    r := Ok(body);
  }

  lemma RawBytesOfEncoded(raw: seq<Byte>)
    ensures RawBytesOfB64(Encoded(raw)) == |raw|
  {
    PaddingOfEncoded(raw);
  }

  // What an honest sender cuts and announces is reassembled exactly when its size is within
  // the bounds, and refused for its size otherwise.
  lemma HonestImageAssembles(hash: Hash, raw: seq<Byte>)
    ensures Assembled(hash, Slices(Encoded(raw)), |raw|, Encoded(hash(raw))) ==
      if 1 <= |raw| <= IMAGE_MAX_BYTES then Ok(Encoded(raw)) else Err(SizeMismatch)
  {
    SlicesDecode(raw);
    RawBytesOfEncoded(raw);
  }

  // Whatever chunks pass the check decode to bytes with the announced digest.
  lemma AcceptedMatchesDigest(hash: Hash, chunks: seq<seq<Unit>>, raw: seq<Byte>, body: seq<Unit>)
      returns (bytes: seq<Byte>)
    requires Assembled(hash, chunks, |raw|, Encoded(hash(raw))) == Ok(body)
    ensures body == Join(chunks) && DecodedSlices(Slices(body)) == Ok(bytes) && hash(bytes) == hash(raw)
  {
    bytes := DecodedSlices(Slices(body)).value;
    RoundTrip(hash(bytes));
    RoundTrip(hash(raw));
  }
}
