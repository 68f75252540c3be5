/** Deliver frames: the Osiris chunk parser and the numbering of the messages it yields. */
module Chunks {
  import opened Prelude
  import opened Wire

  datatype Chunk = Chunk(
    magicVersion: nat, chunkType: nat, nbEntries: nat, nbRecords: nat, timestamp: int, epoch: nat,
    offset: nat, crc: nat, dataLen: nat, trailerLen: nat, reserved: nat)

  datatype Deliver = Deliver(subscriptionId: nat, committedChunkId: Option<nat>, chunk: Chunk, messages: seq<seq<byte>>)

  /** What the entry loop ends with: the entries, or one of the two exceptions. */
  datatype Entries = Entries(messages: seq<seq<byte>>, rest: seq<byte>) | SubBatch | Truncated

  // ---- the parser

  /** The entry loop: a set high bit announces a sub-batch; otherwise the length prefix is read again as a blob. */
  function GetEntries(n: nat, data: seq<byte>): Entries
    decreases n
  {
    if n == 0 then Entries([], data)
    else if data == [] then Truncated
    else if data[0] >= 128 then SubBatch
    else
      match GetBlob(data)
      case None => Truncated
      case Some(m) => Prepend([m.value], GetEntries(n - 1, m.rest))
  }

  function Prepend(ms: seq<seq<byte>>, e: Entries): Entries {
    match e
    case Entries(xs, rest) => Entries(ms + xs, rest)
    case _ => e
  }

  lemma PrependStep(ms: seq<seq<byte>>, m: seq<byte>, e: Entries)
    ensures Prepend(ms, Prepend([m], e)) == Prepend(ms + [m], e)
    ensures Prepend([m], Prepend(ms, e)) == Prepend([m] + ms, e)
    ensures Prepend([], e) == e
  {
    if e.Entries? {
      assert ms + ([m] + e.messages) == (ms + [m]) + e.messages;
      assert [m] + (ms + e.messages) == ([m] + ms) + e.messages;
      assert [] + e.messages == e.messages;
    }
  }

  function GetChunkHeader(s: seq<byte>): Option<Got<Chunk>> {
    var magic :- GetUint(1, s);
    var chunkType :- GetUint(1, magic.rest);
    var entries :- GetUint(2, chunkType.rest);
    var records :- GetUint(4, entries.rest);
    var timestamp :- GetInt(8, records.rest);
    var epoch :- GetUint(8, timestamp.rest);
    var offset :- GetUint(8, epoch.rest);
    var crc :- GetUint(4, offset.rest);
    var dataLen :- GetUint(4, crc.rest);
    var trailerLen :- GetUint(4, dataLen.rest);
    var reserved :- GetUint(4, trailerLen.rest);
    Some(Got(Chunk(magic.value, chunkType.value, entries.value, records.value, timestamp.value, epoch.value,
                   offset.value, crc.value, dataLen.value, trailerLen.value, reserved.value), reserved.rest))
  }

  function GetCommitted(version: nat, s: seq<byte>): Option<Got<Option<nat>>> {
    if version >= 2 then
      var id :- GetUint(8, s);
      Some(Got(Some(id.value), id.rest))
    else Some(Got(None, s))
  }

  function GetDeliver(version: nat, s: seq<byte>): Option<Got<Deliver>> {
    var subscription :- GetUint(1, s);
    var committed :- GetCommitted(version, subscription.rest);
    var chunk :- GetChunkHeader(committed.rest);
    var data :- GetBytes(chunk.value.dataLen, chunk.rest);
    match GetEntries(chunk.value.nbEntries, data.value)
    case Entries(ms, _) => Some(Got(Deliver(subscription.value, committed.value, chunk.value, ms), data.rest))
    case _ => None
  }

  // ---- the broker's encoder, from the protocol

  predicate ChunkOk(c: Chunk) {
    && c.magicVersion < 256 && c.chunkType < 256 && c.nbEntries < U16 && c.nbRecords < U32
    && FitsSigned(8, c.timestamp) && c.epoch < U64 && c.offset < U64
    && c.crc < U32 && c.dataLen < U32 && c.trailerLen < U32 && c.reserved < U32
  }

  function PutChunkHeader(c: Chunk, tail: seq<byte>): seq<byte>
    requires FitsSigned(8, c.timestamp)
  {
    PutUint(1, c.magicVersion, PutUint(1, c.chunkType, PutUint(2, c.nbEntries, PutUint(4, c.nbRecords,
      PutInt(8, c.timestamp, PutUint(8, c.epoch, PutUint(8, c.offset, PutUint(4, c.crc, PutUint(4, c.dataLen,
        PutUint(4, c.trailerLen, PutUint(4, c.reserved, tail)))))))))))
  }

  /** A simple entry: one zero bit, a 31-bit length, the body. */
  function EncodeEntries(bodies: seq<seq<byte>>): seq<byte> {
    PutAll(PutBlob, bodies, [])
  }

  function EncodeDeliver(version: nat, subscription: nat, committed: nat, c: Chunk, data: seq<byte>, tail: seq<byte>): seq<byte>
    requires FitsSigned(8, c.timestamp)
  {
    var rest := PutChunkHeader(c, data + tail);
    PutUint(1, subscription, if version >= 2 then PutUint(8, committed, rest) else rest)
  }

  // ---- entries

  predicate BodyOk(b: seq<byte>) { |b| <= MAX_BLOB }

  ghost predicate Between(b: int, p: int, v: int) { b * p <= v < (b + 1) * p }

  lemma ScaleBounds(b: int, p: int, v: int, last: int)
    requires Between(b, p, v) && 0 <= last < 256
    ensures Between(b, 256 * p, 256 * v + last)
  {
    assert b * (256 * p) == 256 * (b * p);
    assert (b + 1) * (256 * p) == 256 * ((b + 1) * p);
  }

  /** A big-endian number is below one more than its first byte, scaled. */
  lemma {:induction false} FirstByteBounds(s: seq<byte>)
    requires s != []
    ensures Between(s[0], Pow256(|s| - 1), FromBigEndian(s))
  {
    if |s| > 1 {
      var init := s[..|s| - 1];
      FirstByteBounds(init);
      ScaleBounds(s[0], Pow256(|s| - 2), FromBigEndian(init), s[|s| - 1]);
    } else {
      assert s[..0] == [];
    }
  }

  /** The peeked high bit is the sign of the length: past the test, read_blob never sees a negative one. */
  lemma HighBitIsTheSign(s: seq<byte>)
    requires |s| >= 4
    ensures s[0] >= 128 <==> GetInt(4, s).value.value < 0
  {
    Widths();
    var p := s[..4];
    FirstByteBounds(p);
    assert Pow256(3) == 0x100_0000 by { assert Pow256(4) == 256 * Pow256(3); }
    FromBigEndianBound(p);
  }

  lemma BlobFirstByte(body: seq<byte>, tail: seq<byte>)
    requires BodyOk(body)
    ensures PutBlob(body, tail) != [] && PutBlob(body, tail)[0] < 128
  {
    Widths();
    LengthRoundTrip(4, |body|, body + tail);
    HighBitIsTheSign(PutBlob(body, tail));
  }

  lemma OneEntry(body: seq<byte>, n: nat, rest: seq<byte>)
    requires n > 0 && BodyOk(body)
    ensures GetEntries(n, PutBlob(body, rest)) == Prepend([body], GetEntries(n - 1, rest))
  {
    BlobFirstByte(body, rest);
    BlobRoundTrip(body, rest);
  }

  ghost predicate After(bodies: seq<seq<byte>>, n: nat, stream: seq<byte>, tail: seq<byte>)
    requires |bodies| <= n
  {
    GetEntries(n, stream) == Prepend(bodies, GetEntries(n - |bodies|, tail))
  }

  lemma AfterOneMore(body: seq<byte>, bodies: seq<seq<byte>>, n: nat, stream: seq<byte>, tail: seq<byte>)
    requires BodyOk(body) && |bodies| < n && After(bodies, n - 1, stream, tail)
    ensures After([body] + bodies, n, PutBlob(body, stream), tail)
  {
    OneEntry(body, n, stream);
    PrependStep(bodies, body, GetEntries(n - 1 - |bodies|, tail));
  }

  /** What follows the well-formed entries decides the outcome. */
  lemma {:induction false} EntriesAfter(bodies: seq<seq<byte>>, n: nat, tail: seq<byte>)
    requires |bodies| <= n && forall b :: b in bodies ==> BodyOk(b)
    ensures After(bodies, n, PutAll(PutBlob, bodies, tail), tail)
    decreases |bodies|
  {
    if bodies == [] {
      PrependStep([], [], GetEntries(n, tail));
    } else {
      EntriesAfter(bodies[1..], n - 1, tail);
      AfterOneMore(bodies[0], bodies[1..], n, PutAll(PutBlob, bodies[1..], tail), tail);
      assert bodies == [bodies[0]] + bodies[1..];
    }
  }

  lemma EntriesRoundTrip(bodies: seq<seq<byte>>)
    requires forall b :: b in bodies ==> BodyOk(b)
    ensures GetEntries(|bodies|, EncodeEntries(bodies)) == Entries(bodies, [])
  {
    EntriesAfter(bodies, |bodies|, []);
  }

  /** A sub-batch entry anywhere among the entries of a chunk: no message of it comes out. */
  lemma SubBatchFails(bodies: seq<seq<byte>>, n: nat, entry: seq<byte>)
    requires |bodies| < n && (forall b :: b in bodies ==> BodyOk(b)) && entry != [] && entry[0] >= 128
    ensures GetEntries(n, PutAll(PutBlob, bodies, entry)) == SubBatch
  {
    EntriesAfter(bodies, n, entry);
  }

  // ---- whole frames

  lemma ChunkHeaderRoundTrip(c: Chunk, tail: seq<byte>)
    requires ChunkOk(c)
    ensures GetChunkHeader(PutChunkHeader(c, tail)) == Some(Got(c, tail))
  {
    Widths();
    var t1 := PutUint(4, c.reserved, tail);
    var t2 := PutUint(4, c.trailerLen, t1);
    var t3 := PutUint(4, c.dataLen, t2);
    var t4 := PutUint(4, c.crc, t3);
    var t5 := PutUint(8, c.offset, t4);
    var t6 := PutUint(8, c.epoch, t5);
    var t7 := PutInt(8, c.timestamp, t6);
    var t8 := PutUint(4, c.nbRecords, t7);
    var t9 := PutUint(2, c.nbEntries, t8);
    var t10 := PutUint(1, c.chunkType, t9);
    UintRoundTrip(4, c.reserved, tail);
    UintRoundTrip(4, c.trailerLen, t1);
    UintRoundTrip(4, c.dataLen, t2);
    UintRoundTrip(4, c.crc, t3);
    UintRoundTrip(8, c.offset, t4);
    UintRoundTrip(8, c.epoch, t5);
    IntRoundTrip(8, c.timestamp, t6);
    UintRoundTrip(4, c.nbRecords, t7);
    UintRoundTrip(2, c.nbEntries, t8);
    UintRoundTrip(1, c.chunkType, t9);
    UintRoundTrip(1, c.magicVersion, t10);
  }

  lemma FrameAround(version: nat, subscription: nat, committed: nat, c: Chunk, data: seq<byte>, tail: seq<byte>)
    requires subscription < 256 && committed < U64 && ChunkOk(c) && c.dataLen == |data|
    ensures GetDeliver(version, EncodeDeliver(version, subscription, committed, c, data, tail)) ==
            match GetEntries(c.nbEntries, data)
            case Entries(ms, _) =>
              Some(Got(Deliver(subscription, if version >= 2 then Some(committed) else None, c, ms), tail))
            case _ => None
  {
    Widths();
    var rest := PutChunkHeader(c, data + tail);
    var after := if version >= 2 then PutUint(8, committed, rest) else rest;
    UintRoundTrip(1, subscription, after);
    if version >= 2 { UintRoundTrip(8, committed, rest); }
    ChunkHeaderRoundTrip(c, data + tail);
    BytesRoundTrip(data, tail);
  }

  /**
   Main result. For both versions of the command, parsing a delivered chunk yields exactly
   the bodies that were encoded, in order, with the header as sent; all the data is used
   and what follows it is left untouched.
   */
  lemma DeliverRoundTrip(version: nat, subscription: nat, committed: nat, c: Chunk, bodies: seq<seq<byte>>, tail: seq<byte>)
    requires subscription < 256 && committed < U64 && ChunkOk(c)
    requires c.nbEntries == |bodies| && c.dataLen == |EncodeEntries(bodies)| && forall b :: b in bodies ==> BodyOk(b)
    ensures GetDeliver(version, EncodeDeliver(version, subscription, committed, c, EncodeEntries(bodies), tail)) ==
            Some(Got(Deliver(subscription, if version >= 2 then Some(committed) else None, c, bodies), tail))
    ensures GetEntries(c.nbEntries, EncodeEntries(bodies)) == Entries(bodies, [])
  {
    FrameAround(version, subscription, committed, c, EncodeEntries(bodies), tail);
    EntriesRoundTrip(bodies);
  }

  /** A sub-batch entry anywhere in a chunk makes the whole frame fail, the messages before it included. */
  lemma SubBatchDeliversNothing(version: nat, subscription: nat, committed: nat, c: Chunk, bodies: seq<seq<byte>>,
                                entry: seq<byte>, tail: seq<byte>)
    requires subscription < 256 && committed < U64 && ChunkOk(c)
    requires |bodies| < c.nbEntries && (forall b :: b in bodies ==> BodyOk(b)) && entry != [] && entry[0] >= 128
    requires c.dataLen == |PutAll(PutBlob, bodies, entry)|
    ensures GetDeliver(version, EncodeDeliver(version, subscription, committed, c, PutAll(PutBlob, bodies, entry), tail)) == None
  {
    FrameAround(version, subscription, committed, c, PutAll(PutBlob, bodies, entry), tail);
    SubBatchFails(bodies, c.nbEntries, entry);
  }

  // ---- loops in the form of the source

  /** DeliverCommand::read_body's loop over the copied data; the byte it looks at first is read again as part of the blob. */
  method ReadEntries(data: seq<byte>, nbEntries: nat) returns (r: Entries)
    ensures r == GetEntries(nbEntries, data)
  {
    var rest := data;
    var messages: seq<seq<byte>> := [];
    for i := 0 to nbEntries
      invariant Prepend(messages, GetEntries(nbEntries - i, rest)) == GetEntries(nbEntries, data)
    {
      if rest == [] { return Truncated; }
      if rest[0] >= 128 { return SubBatch; }
      var blob := GetBlob(rest);
      if blob.None? { return Truncated; }
      ghost var before := messages;
      messages := messages + [blob.value.value];
      rest := blob.value.rest;
      PrependStep(before, blob.value.value, GetEntries(nbEntries - i - 1, rest));
    }
    assert messages + [] == messages;
    r := Entries(messages, rest);
  }

  datatype Numbered = Numbered(offset: nat, body: seq<byte>)

  /**
   The first of `messages`, message i as number `first` + i in 64 bits: all of them, or as many
   as `given` says when an exception of the codec or of the listener ends the delivery there.
   */
  ghost predicate Delivers(first: nat, messages: seq<seq<byte>>, given: Option<nat>, delivered: seq<Numbered>) {
    && |delivered| == (if given.Some? && given.value < |messages| then given.value else |messages|)
    && forall i :: 0 <= i < |delivered| ==> delivered[i] == Numbered((first + i) % U64, messages[i])
  }

  ghost predicate Handles(parsed: Option<Got<Deliver>>, given: Option<nat>, delivered: seq<Numbered>) {
    match parsed
    case None => delivered == []
    case Some(got) => Delivers(got.value.chunk.offset, got.value.messages, given, delivered)
  }

  lemma NextOffset(x: nat)
    ensures (x % U64 + 1) % U64 == (x + 1) % U64
  {
  }

  /**
   The delivery loop of handle_deliver; the counter is 64 bits wide. An exception of the codec
   or of the listener ends it after `given` messages.
   */
  method NumberMessages(first: nat, messages: seq<seq<byte>>, given: Option<nat>) returns (delivered: seq<Numbered>)
    requires first < U64
    ensures Delivers(first, messages, given, delivered)
  {
    delivered := [];
    var offset := first;
    var n := if given.Some? && given.value < |messages| then given.value else |messages|;
    for i := 0 to n
      invariant offset == (first + i) % U64
      invariant |delivered| == i
      invariant forall j :: 0 <= j < i ==> delivered[j] == Numbered((first + j) % U64, messages[j])
    {
      delivered := delivered + [Numbered(offset, messages[i])];
      NextOffset(first + i);
      offset := (offset + 1) % U64;
    }
  }

  lemma HeaderOffset(s: seq<byte>)
    requires GetChunkHeader(s).Some?
    ensures GetChunkHeader(s).value.value.offset < U64
  {
    Widths();
    var magic := GetUint(1, s).value;
    var chunkType := GetUint(1, magic.rest).value;
    var entries := GetUint(2, chunkType.rest).value;
    var records := GetUint(4, entries.rest).value;
    var timestamp := GetInt(8, records.rest).value;
    var epoch := GetUint(8, timestamp.rest).value;
    FromBigEndianBound(epoch.rest[..8]);
  }

  lemma DeliverOffset(version: nat, s: seq<byte>)
    requires GetDeliver(version, s).Some?
    ensures GetDeliver(version, s).value.value.chunk.offset < U64
  {
    var subscription := GetUint(1, s).value;
    var committed := GetCommitted(version, subscription.rest).value;
    HeaderOffset(committed.rest);
  }

  /**
   handle_deliver: a frame that does not parse delivers nothing; message i is numbered chunk
   offset + i. An exception of the codec or of the listener costs the rest of the chunk.
   */
  method HandleDeliver(version: nat, frame: seq<byte>, given: Option<nat>) returns (delivered: seq<Numbered>)
    ensures Handles(GetDeliver(version, frame), given, delivered)
  {
    var parsed := GetDeliver(version, frame);
    if parsed.None? { return []; }
    DeliverOffset(version, frame);
    var d := parsed.value.value;
    delivered := NumberMessages(d.chunk.offset, d.messages, given);
  }

  lemma ParsedHandles(parsed: Option<Got<Deliver>>, d: Deliver, tail: seq<byte>, given: Option<nat>, delivered: seq<Numbered>)
    requires parsed == Some(Got(d, tail)) && Handles(parsed, given, delivered)
    ensures Delivers(d.chunk.offset, d.messages, given, delivered)
  {
  }

  /**
   Main result, end to end: whatever bodies a broker puts into a chunk of either version, the
   listener is given exactly those, in order, numbered from the chunk's offset; all of them
   unless an exception ends the delivery.
   */
  lemma DeliveredEndToEnd(version: nat, subscription: nat, committed: nat, c: Chunk, bodies: seq<seq<byte>>, tail: seq<byte>,
                          given: Option<nat>, delivered: seq<Numbered>)
    requires subscription < 256 && committed < U64 && ChunkOk(c)
    requires c.nbEntries == |bodies| && c.dataLen == |EncodeEntries(bodies)| && forall b :: b in bodies ==> BodyOk(b)
    requires Handles(GetDeliver(version, EncodeDeliver(version, subscription, committed, c, EncodeEntries(bodies), tail)), given, delivered)
    ensures Delivers(c.offset, bodies, given, delivered)
  {
    DeliverRoundTrip(version, subscription, committed, c, bodies, tail);
    var d := Deliver(subscription, if version >= 2 then Some(committed) else None, c, bodies);
    ParsedHandles(GetDeliver(version, EncodeDeliver(version, subscription, committed, c, EncodeEntries(bodies), tail)), d, tail, given, delivered);
  }
}
