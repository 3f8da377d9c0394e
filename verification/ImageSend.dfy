// The sending side of an image: the announcement, then every slice, stopping at the first
// send that fails; and what a complete or interrupted and repeated sequence leaves at the
// receiver.
module ImageSend {
  import opened Base64
  import opened ImageCodec
  import opened ImageProofs
  import opened ImageTransfer
  import opened Options
  import opened Text

  datatype Content = ImageContent(info: Announcement) | ChunkContent(ref: Id, seq_: nat, data: Body)

  datatype Layout = Layout(mime: string, width: nat, height: nat)

  // buildImageMeta
  function BuildMeta(layout: Layout, bytes: nat, sha256: Body): Announcement {
    Announcement(layout.mime, layout.width, layout.height, bytes, sha256, ChunkCountFor(bytes))
  }

  // Everything that goes out for the image, in order.
  function Everything(ref: Id, body: Body, info: Announcement): seq<Content> {
    [ImageContent(info)] + seq(|Slices(body)|, i requires 0 <= i < |Slices(body)| =>
        ChunkContent(ref, i, Slices(body)[i]))
  }

  function Contents(hash: Hash, m: Image, layout: Layout): seq<Content> {
    Everything(m.ref, BodyOf(m), BuildMeta(layout, |m.raw|, Encoded(hash(m.raw))))
  }

  // First the announcement, with the layout, the size and digest of the whole and the number of
  // slices; then each 48000 bytes on their own, numbered in order.
  lemma ContentsAreExact(hash: Hash, m: Image, layout: Layout)
    ensures |Contents(hash, m, layout)| == 1 + Count(m)
    ensures Contents(hash, m, layout)[0] ==
      ImageContent(Announcement(layout.mime, layout.width, layout.height, |m.raw|, Encoded(hash(m.raw)), Count(m)))
    ensures forall k :: 0 <= k < Count(m) ==>
      Contents(hash, m, layout)[k + 1] ==
        ChunkContent(m.ref, k, Encoded(m.raw[Min(48_000 * k, |m.raw|)..Min(48_000 * k + 48_000, |m.raw|)]))
  {
    SliceCount(m.raw);
    forall k | 0 <= k < Count(m)
      ensures Slices(BodyOf(m))[k] == Encoded(m.raw[Min(48_000 * k, |m.raw|)..Min(48_000 * k + 48_000, |m.raw|)])
    {
      SliceIsEncodedPiece(m.raw, k);
    }
  }

  // sendImageEnvelopes over a connection that accepts the first `accepted` sends.
  method SendImageEnvelopes(ref: Id, body: Body, info: Announcement, accepted: nat)
      returns (sent: seq<Content>, done: bool)
    ensures var all := Everything(ref, body, info);
      sent == all[..Min(accepted, |all|)] && done == (accepted >= |all|)
  {
    sent, done := [], false;
    if accepted == 0 {
      return;
    }
    sent := [ImageContent(info)];
    var slices := SplitB64(body);
    var i := 0;
    while i < |slices|
      invariant 0 <= i <= |slices| && |sent| == i + 1 <= accepted
      invariant sent[0] == ImageContent(info)
      invariant forall k :: 0 <= k < i ==> sent[k + 1] == ChunkContent(ref, k, slices[k])
    {
      if |sent| == accepted {
        return;
      }
      sent := sent + [ChunkContent(ref, i, slices[i])];
      i := i + 1;
    }
    done := true;
  }

  // What a stored row yields to resend: nothing without a layout, for a text that is no base64
  // of a byte at least, or for one whose slices do not decode.
  function ToResend(hash: Hash, ref: Id, body: Body, layout: Option<Layout>): seq<Content> {
    if layout.None? || RawBytesOfB64(body) < 1 then []
    else
      match SlicedDigest(hash, body)
      case Err(_) => []
      case Ok(digest) => Everything(ref, body, BuildMeta(layout.value, RawBytesOfB64(body), digest))
  }

  // Resending from any stored body: size and digest are recomputed from what goes out.
  method ResendImage(hash: Hash, ref: Id, body: Body, layout: Option<Layout>, accepted: nat)
      returns (sent: seq<Content>, done: bool)
    ensures var all := ToResend(hash, ref, body, layout);
      sent == all[..Min(accepted, |all|)] && done == (all != [] && accepted >= |all|)
  {
    var bytes := RawBytesOfB64(body);
    if layout.None? || bytes < 1 {
      return [], false;
    }
    var digest := Sha256B64OfB64(hash, body);
    if digest.Err? {
      return [], false;
    }
    sent, done := SendImageEnvelopes(ref, body, BuildMeta(layout.value, bytes, digest.value), accepted);
  }

  // A row that holds an image yields exactly what was sent for it first.
  lemma StoredImageResends(hash: Hash, m: Image, layout: Layout)
    requires |m.raw| >= 1
    ensures ToResend(hash, m.ref, BodyOf(m), Some(layout)) == Contents(hash, m, layout)
  {
    RawBytesOfEncoded(m.raw);
    SlicedDigestIsWhole(hash, m.raw);
  }

  // --- at the receiver ---

  // When a content is received, when it was sent, and the receiver's conversation row by then.
  datatype Arrival = Arrival(now: int, sentAt: int, settings: Settings)

  function Received(m: Image, c: Content, at: Arrival): Event {
    match c
    case ImageContent(info) => Announce(m.conv, m.ref, info, at.sentAt, at.now)
    case ChunkContent(ref, i, data) => Chunk(m.conv, ref, i, data, at.settings, at.now)
  }

  function Arrivals(m: Image, contents: seq<Content>, clock: nat -> Arrival): seq<Event> {
    seq(|contents|, i requires 0 <= i < |contents| => Received(m, contents[i], clock(i)))
  }

  lemma {:induction false} ChunksSpare(hash: Hash, m: Image, c: Cell, events: seq<Event>)
    requires forall e :: e in events ==> e.Chunk? && Honest(hash, m, e)
    ensures SparingRun(hash, m, c, events)
    decreases |events|
  {
    if events != [] { ChunksSpare(hash, m, CellStep(hash, m.ref, c, events[0]), events[1..]); }
  }

  lemma ArrivalOfChunk(hash: Hash, m: Image, layout: Layout, clock: nat -> Arrival, i: nat)
    requires i < |Slices(BodyOf(m))|
    ensures var all := Arrivals(m, Contents(hash, m, layout), clock);
      |all| == |Slices(BodyOf(m))| + 1 && all[i + 1] ==
          Chunk(m.conv, m.ref, i, Slices(BodyOf(m))[i], clock(i + 1).settings, clock(i + 1).now)
  {
    var contents := Contents(hash, m, layout);
    assert contents[i + 1] == ChunkContent(m.ref, i, Slices(BodyOf(m))[i]);
    assert Arrivals(m, contents, clock)[i + 1] == Received(m, contents[i + 1], clock(i + 1));
  }

  lemma ChunksDeliverAll(hash: Hash, m: Image, layout: Layout, clock: nat -> Arrival, i: nat)
    requires i < Count(m)
    ensures |Arrivals(m, Contents(hash, m, layout), clock)| > 0
    ensures i in Delivered(m, Arrivals(m, Contents(hash, m, layout), clock)[1..])
  {
    SliceCount(m.raw);
    ArrivalOfChunk(hash, m, layout, clock, i);
    var events := Arrivals(m, Contents(hash, m, layout), clock)[1..];
    assert events[i] in events && Delivers(m, events[i]) && events[i].seq_ == i;
  }

  // The announcement first, then honest chunks only.
  lemma ArrivalsAreHonest(hash: Hash, m: Image, layout: Layout, clock: nat -> Arrival)
    ensures var all := Arrivals(m, Contents(hash, m, layout), clock);
      && |all| > 0 && AnnouncesHere(m, all[0]) && Honest(hash, m, all[0])
      && forall e :: e in all[1..] ==> e.Chunk? && Honest(hash, m, e)
  {
    var all := Arrivals(m, Contents(hash, m, layout), clock);
    forall k | 0 <= k < |all[1..]| ensures all[1..][k].Chunk? && Honest(hash, m, all[1..][k]) {
      ArrivalOfChunk(hash, m, layout, clock, k);
    }
  }

  lemma AttemptsThenAll(hash: Hash, m: Image, attempts: seq<Event>, announcement: Event, chunks: seq<Event>)
    requires HonestRun(hash, m, attempts) && AnnouncesHere(m, announcement) && Honest(hash, m, announcement)
    requires forall e :: e in chunks ==> e.Chunk? && Honest(hash, m, e)
    requires forall i: nat :: i < Count(m) ==> i in Delivered(m, chunks)
    ensures var messages := Run(hash, EMPTY, attempts + [announcement] + chunks).messages;
      m.ref in messages && IsImageRow(m, messages[m.ref])
  {
    var upto := attempts + [announcement];
    assert forall e :: e in upto ==> e in attempts || e == announcement;
    ChunksSpare(hash, m, CellRun(hash, m.ref, upto), chunks);
    ImageArrives(hash, m, attempts, announcement, chunks);
  }

  lemma SplitsAtSecond<T>(s: seq<T>, t: seq<T>)
    requires t != []
    ensures s + t == s + [t[0]] + t[1..]
  {
  }

  // An image sent in any number of interrupted attempts and then once completely arrives
  // whole, whatever the attempts left staged, and whatever retention and lock the receiver's
  // conversation has by then.
  lemma SentImageArrives(hash: Hash, m: Image, layout: Layout, attempts: seq<Event>, clock: nat -> Arrival)
    requires HonestRun(hash, m, attempts)
    ensures var messages := Run(hash, EMPTY, attempts + Arrivals(m, Contents(hash, m, layout), clock)).messages;
      m.ref in messages && IsImageRow(m, messages[m.ref])
  {
    var all := Arrivals(m, Contents(hash, m, layout), clock);
    ArrivalsAreHonest(hash, m, layout, clock);
    forall i: nat | i < Count(m) ensures i in Delivered(m, all[1..]) { ChunksDeliverAll(hash, m, layout, clock, i); }
    AttemptsThenAll(hash, m, attempts, all[0], all[1..]);
    SplitsAtSecond(attempts, all);
  }
}
