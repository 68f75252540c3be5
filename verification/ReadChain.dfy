/**
 Framing: send_frame puts a 4-byte length in front of a frame; the read chain of Connection
 asks the socket for 4 bytes, then for as many as they announce, and starts over.
 */
module ReadChain {
  import opened Prelude
  import opened Wire
  import opened Commands
  import CommandReader

  datatype Parsed = Parsed(frames: seq<seq<byte>>, rest: seq<byte>)

  /** BinaryBuffer holds less than 2^32 bytes, length prefix included. */
  predicate Holds(size: nat) {
    4 + size < U32
  }

  /** The chain has no next read: the announced length makes resize throw. */
  predicate Oversized(stream: seq<byte>) {
    |stream| >= 4 && !Holds(FromBigEndian(stream[..4]))
  }

  /** The length of the frame at the front of a stream, when all of it is there. */
  function Front(stream: seq<byte>): (size: Option<nat>)
    ensures size.Some? ==> 4 + size.value <= |stream|
  {
    if |stream| < 4 || Oversized(stream) then None
    else if |stream| < 4 + FromBigEndian(stream[..4]) then None
    else Some(FromBigEndian(stream[..4]))
  }

  /** What the chain makes of all bytes received so far: complete frames, and what it still waits with. */
  function Parse(stream: seq<byte>): Parsed
    decreases |stream|
  {
    var size := Front(stream);
    if size.None? then Parsed([], stream)
    else
      var later := Parse(stream[4 + size.value..]);
      Parsed([stream[4..4 + size.value]] + later.frames, later.rest)
  }

  function Sealed(payload: seq<byte>): seq<byte> {
    PutUint(4, |payload|, payload)
  }

  function SealedAll(payloads: seq<seq<byte>>): seq<seq<byte>> {
    seq(|payloads|, i requires 0 <= i < |payloads| => Sealed(payloads[i]))
  }

  lemma FrontSealed(payload: seq<byte>, more: seq<byte>)
    requires Holds(|payload|)
    ensures Front(Sealed(payload) + more) == Some(|payload|)
  {
    Widths();
    BigEndianInverse(4, |payload|);
    assert (Sealed(payload) + more)[..4] == BigEndian(4, |payload|);
  }

  lemma ParseOne(payload: seq<byte>, more: seq<byte>)
    requires Holds(|payload|)
    ensures Parse(Sealed(payload) + more) == Parsed([payload] + Parse(more).frames, Parse(more).rest)
  {
    var stream := Sealed(payload) + more;
    FrontSealed(payload, more);
    assert stream[4..4 + |payload|] == payload;
    assert stream[4 + |payload|..] == more;
  }

  lemma FrontKept(a: seq<byte>, b: seq<byte>)
    requires Front(a).Some?
    ensures Front(a + b) == Front(a)
  {
    assert (a + b)[..4] == a[..4];
  }

  /** Parsing in two instalments is parsing at once. */
  ghost predicate Resumes(a: seq<byte>, b: seq<byte>) {
    Parse(a + b) == Parsed(Parse(a).frames + Parse(Parse(a).rest + b).frames, Parse(Parse(a).rest + b).rest)
  }

  lemma ResumesOneMore(a: seq<byte>, b: seq<byte>)
    requires Front(a).Some? && Resumes(a[4 + Front(a).value..], b)
    ensures Resumes(a, b)
  {
    var end := 4 + Front(a).value;
    var frame, later, more := a[4..end], a[end..], Parse(Parse(a[end..]).rest + b).frames;
    FrontKept(a, b);
    assert (a + b)[end..] == later + b;
    assert (a + b)[4..end] == frame;
    assert [frame] + (Parse(later).frames + more) == ([frame] + Parse(later).frames) + more;
  }

  lemma {:induction false} ParseAppend(a: seq<byte>, b: seq<byte>)
    ensures Resumes(a, b)
    decreases |a|
  {
    if Front(a).Some? {
      ParseAppend(a[4 + Front(a).value..], b);
      ResumesOneMore(a, b);
    }
  }

  lemma SealedAllStep(payloads: seq<seq<byte>>, more: seq<byte>)
    requires payloads != []
    ensures Flatten(SealedAll(payloads)) + more == Sealed(payloads[0]) + (Flatten(SealedAll(payloads[1..])) + more)
  {
    assert SealedAll(payloads)[1..] == SealedAll(payloads[1..]);
  }

  ghost predicate Recovers(stream: seq<byte>, payloads: seq<seq<byte>>, more: seq<byte>) {
    Parse(stream) == Parsed(payloads + Parse(more).frames, Parse(more).rest)
  }

  lemma RecoversOneMore(payload: seq<byte>, stream: seq<byte>, payloads: seq<seq<byte>>, more: seq<byte>)
    requires Holds(|payload|) && Recovers(stream, payloads, more)
    ensures Recovers(Sealed(payload) + stream, [payload] + payloads, more)
  {
    ParseOne(payload, stream);
    assert [payload] + (payloads + Parse(more).frames) == ([payload] + payloads) + Parse(more).frames;
  }

  function Laid(payloads: seq<seq<byte>>, more: seq<byte>): seq<byte> {
    if payloads == [] then more else Sealed(payloads[0]) + Laid(payloads[1..], more)
  }

  lemma {:induction false} RecoversAll(payloads: seq<seq<byte>>, more: seq<byte>)
    requires forall p :: p in payloads ==> Holds(|p|)
    ensures Recovers(Laid(payloads, more), payloads, more)
  {
    if payloads != [] {
      RecoversAll(payloads[1..], more);
      RecoversOneMore(payloads[0], Laid(payloads[1..], more), payloads[1..], more);
      assert payloads == [payloads[0]] + payloads[1..];
    }
  }

  lemma {:induction false} LaidFlat(payloads: seq<seq<byte>>, more: seq<byte>)
    ensures Laid(payloads, more) == Flatten(SealedAll(payloads)) + more
  {
    if payloads != [] {
      LaidFlat(payloads[1..], more);
      SealedAllStep(payloads, more);
    }
  }

  /** Any concatenation of frames is recovered as the same frames, whatever follows. */
  lemma ConcatenationRecovered(payloads: seq<seq<byte>>, more: seq<byte>)
    requires forall p :: p in payloads ==> Holds(|p|)
    ensures Parse(Flatten(SealedAll(payloads)) + more) == Parsed(payloads + Parse(more).frames, Parse(more).rest)
  {
    LaidFlat(payloads, more);
    RecoversAll(payloads, more);
  }

  lemma PrefixParsed(received: seq<byte>, all: seq<byte>)
    requires received <= all
    ensures Parse(received).frames <= Parse(all).frames
  {
    ParseAppend(received, all[|received|..]);
    assert received + all[|received|..] == all;
  }

  /** A stream cut off anywhere gives a prefix of the frames, never a wrong or a partial one. */
  lemma CutOffAnywhere(payloads: seq<seq<byte>>, received: seq<byte>)
    requires forall p :: p in payloads ==> Holds(|p|)
    requires received <= Flatten(SealedAll(payloads))
    ensures Parse(received).frames <= payloads
    ensures received == Flatten(SealedAll(payloads)) ==> Parse(received) == Parsed(payloads, [])
  {
    var all := Flatten(SealedAll(payloads));
    ConcatenationRecovered(payloads, []);
    assert all + [] == all;
    assert Parse([]) == Parsed([], []);
    assert payloads + [] == payloads;
    PrefixParsed(received, all);
  }

  /** One round of the chain: with nothing left over, 4 bytes and the announced payload are one more frame. */
  lemma OneFrameMore(stream: seq<byte>, header: seq<byte>, payload: seq<byte>)
    requires Parse(stream).rest == []
    requires |header| == 4 && FromBigEndian(header) == |payload| && Holds(|payload|)
    ensures Parse(stream + (header + payload)) == Parsed(Parse(stream).frames + [payload], [])
  {
    FromBigEndianInverse(header);
    assert header + payload == Sealed(payload) == Sealed(payload) + [];
    ParseOne(payload, []);
    assert Parse([]) == Parsed([], []);
    ParseAppend(stream, header + payload);
    assert [] + (header + payload) == header + payload;
  }

  /** Of the lengths 32 bits can announce, the chain copes with exactly those a buffer holds. */
  lemma OversizedStopsTheChain(payload: seq<byte>, more: seq<byte>)
    requires |payload| < U32
    ensures Parse(Sealed(payload) + more).frames == [] <==> !Holds(|payload|)
  {
    if Holds(|payload|) {
      ParseOne(payload, more);
    } else {
      Widths();
      BigEndianInverse(4, |payload|);
      assert (Sealed(payload) + more)[..4] == BigEndian(4, |payload|);
    }
  }

  // ---- send_frame

  /**
   `limit` is the negotiated frame size, zero for none. The buffer has its own limit, and the
   writers throw on strings, blobs and arrays that their length prefix cannot announce.
   */
  function SendFrame(limit: nat, f: Frame): Option<seq<byte>> {
    var size := SerializedSize(f);
    if limit > 0 && size + 4 > limit then None
    else if !Holds(size) then None
    else if !CommandReader.FrameOk(f) then None
    else Some(PutUint(4, size, FrameBytes(f)))
  }

  function Payloads(fs: seq<Frame>): seq<seq<byte>> {
    seq(|fs|, i requires 0 <= i < |fs| => FrameBytes(fs[i]))
  }

  /** What send_frame lets out is a frame the chain can hold, behind its exact length. */
  lemma SentIsSealed(limit: nat, f: Frame)
    requires SendFrame(limit, f).Some?
    ensures Holds(|FrameBytes(f)|) && SendFrame(limit, f).value == Sealed(FrameBytes(f))
    ensures CommandReader.ReadFrame(FrameBytes(f)) == Some(f)
    ensures limit > 0 ==> |SendFrame(limit, f).value| <= limit
  {
    AnnouncedSizeIsExact(f);
    CommandReader.FramesAreReadBack(f);
  }

  /**
   Main result. Whatever frames are sent, a receiver that has got any prefix of their bytes
   holds a prefix of exactly those frames, and reads each one back as the command it was.
   */
  lemma StreamIsUnderstood(limit: nat, fs: seq<Frame>, bytes: seq<seq<byte>>, received: seq<byte>)
    requires |bytes| == |fs|
    requires forall i :: 0 <= i < |fs| ==> SendFrame(limit, fs[i]) == Some(bytes[i])
    requires received <= Flatten(bytes)
    ensures |Parse(received).frames| <= |fs|
    ensures forall i :: 0 <= i < |Parse(received).frames| ==> CommandReader.ReadFrame(Parse(received).frames[i]) == Some(fs[i])
    ensures received == Flatten(bytes) ==> |Parse(received).frames| == |fs| && Parse(received).rest == []
  {
    var ps := Payloads(fs);
    forall i | 0 <= i < |fs| ensures Holds(|ps[i]|) && bytes[i] == Sealed(ps[i]) {
      SentIsSealed(limit, fs[i]);
    }
    assert bytes == SealedAll(ps);
    CutOffAnywhere(ps, received);
    forall i | 0 <= i < |Parse(received).frames| ensures CommandReader.ReadFrame(Parse(received).frames[i]) == Some(fs[i]) {
      assert Parse(received).frames[i] == ps[i];
      SentIsSealed(limit, fs[i]);
    }
  }
}
