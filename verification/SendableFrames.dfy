/** Which frames send_frame lets out, told without its checks: those a protocol reader can understand and the limit allows. */
module SendableFrames {
  import opened Prelude
  import opened Wire
  import opened Commands
  import opened CommandReader
  import ReadChain

  // ---- whatever the reader reads is within the limits

  lemma UintReads(k: nat, s: seq<byte>)
    requires GetUint(k, s).Some?
    ensures GetUint(k, s).value.value < Pow256(k)
  {
    FromBigEndianBound(s[..k]);
  }

  lemma UintsRead()
    ensures forall s: seq<byte> :: GetUint(1, s).Some? ==> GetUint(1, s).value.value < 256
    ensures forall s: seq<byte> :: GetUint(2, s).Some? ==> GetUint(2, s).value.value < U16
    ensures forall s: seq<byte> :: GetUint(4, s).Some? ==> GetUint(4, s).value.value < U32
    ensures forall s: seq<byte> :: GetUint(8, s).Some? ==> GetUint(8, s).value.value < U64
  {
    Widths();
    forall s: seq<byte> | GetUint(1, s).Some? ensures GetUint(1, s).value.value < 256 { UintReads(1, s); }
    forall s: seq<byte> | GetUint(2, s).Some? ensures GetUint(2, s).value.value < U16 { UintReads(2, s); }
    forall s: seq<byte> | GetUint(4, s).Some? ensures GetUint(4, s).value.value < U32 { UintReads(4, s); }
    forall s: seq<byte> | GetUint(8, s).Some? ensures GetUint(8, s).value.value < U64 { UintReads(8, s); }
  }

  lemma LengthReads(k: nat, s: seq<byte>)
    requires GetInt(k, s).Some?
    ensures 2 * GetInt(k, s).value.value < Pow256(k)
  {
    FromBigEndianBound(s[..k]);
  }

  lemma StringReads(s: seq<byte>)
    requires GetString(s).Some?
    ensures TextOk(GetString(s).value.value)
  {
    Widths();
    LengthReads(2, s);
  }

  lemma BlobReads(s: seq<byte>)
    requires GetBlob(s).Some?
    ensures |GetBlob(s).value.value| <= MAX_BLOB
  {
    Widths();
    LengthReads(4, s);
  }

  ghost predicate ReadsOk<T>(get: Get<T>, ok: T -> bool) {
    forall s: seq<byte> :: get(s).Some? ==> ok(get(s).value.value)
  }

  lemma {:induction false} AllRead<T>(get: Get<T>, ok: T -> bool, n: nat, s: seq<byte>)
    requires ReadsOk(get, ok) && GetAll(get, n, s).Some?
    ensures |GetAll(get, n, s).value.value| == n
    ensures forall i :: 0 <= i < n ==> ok(GetAll(get, n, s).value.value[i])
    decreases n
  {
    if n > 0 { AllRead(get, ok, n - 1, get(s).value.rest); }
  }

  lemma ArrayReads<T>(get: Get<T>, ok: T -> bool, s: seq<byte>)
    requires ReadsOk(get, ok) && GetArray(get, s).Some?
    ensures ArrayOk(ok, GetArray(get, s).value.value)
  {
    Widths();
    LengthReads(4, s);
    var length := GetInt(4, s).value;
    if length.value > 0 { AllRead(get, ok, length.value, length.rest); }
  }

  lemma EntriesReadOk()
    ensures ReadsOk(GetEntry, EntryOk)
  {
    forall s: seq<byte> | GetEntry(s).Some? ensures EntryOk(GetEntry(s).value.value) {
      Widths();
      UintReads(8, s);
      BlobReads(GetUint(8, s).value.rest);
    }
  }

  lemma StringsReadOk()
    ensures ReadsOk(GetString, TextOk)
  {
    forall s: seq<byte> | GetString(s).Some? ensures TextOk(GetString(s).value.value) { StringReads(s); }
  }

  lemma PropertiesReadOk()
    ensures ReadsOk(GetProperty, PropertyOk)
  {
    forall s: seq<byte> | GetProperty(s).Some? ensures PropertyOk(GetProperty(s).value.value) {
      StringReads(s);
      StringReads(GetString(s).value.rest);
    }
  }

  lemma VersionsReadOk()
    ensures ReadsOk(GetVersion, VersionOk)
  {
    forall s: seq<byte> | GetVersion(s).Some? ensures VersionOk(GetVersion(s).value.value) { UintsRead(); }
  }

  lemma PublishReads(s: seq<byte>)
    requires GetPublish(s).Some?
    ensures CommandOk(GetPublish(s).value.value)
  {
    UintsRead();
    EntriesReadOk();
    ArrayReads(GetEntry, EntryOk, GetUint(1, s).value.rest);
  }

  lemma CommandReads(key: nat, s: seq<byte>)
    requires GetCommand(key, s).Some?
    ensures CommandOk(GetCommand(key, s).value.value)
  {
    UintsRead();
    StringsReadOk();
    if key == 0x0002 { PublishReads(s); }
  }

  lemma OffsetSpecReads(s: seq<byte>)
    requires GetOffsetSpec(s).Some?
    ensures OffsetSpecOk(GetOffsetSpec(s).value.value)
  {
    UintsRead();
  }

  lemma SubscribeReads(s: seq<byte>)
    requires GetSubscribe(s).Some?
    ensures RequestOk(GetSubscribe(s).value.value)
  {
    var id := GetUint(1, s).value;
    var stream := GetString(id.rest).value;
    var offset := GetOffsetSpec(stream.rest).value;
    var credit := GetUint(2, offset.rest).value;
    UintsRead();
    StringReads(id.rest);
    OffsetSpecReads(stream.rest);
    PropertiesReadOk();
    ArrayReads(GetProperty, PropertyOk, credit.rest);
  }

  lemma TrackingReads(key: nat, s: seq<byte>)
    requires GetTrackingRequest(key, s).Some?
    ensures RequestOk(GetTrackingRequest(key, s).value.value)
  {
    UintsRead();
    StringsReadOk();
    if key == 0x0007 { SubscribeReads(s); }
  }

  lemma StreamReads(key: nat, s: seq<byte>)
    requires GetStreamRequest(key, s).Some?
    ensures RequestOk(GetStreamRequest(key, s).value.value)
  {
    StringsReadOk();
    PropertiesReadOk();
    if key == 0x000d {
      ArrayReads(GetProperty, PropertyOk, GetString(s).value.rest);
    } else if key == 0x000f {
      ArrayReads(GetString, TextOk, s);
    }
  }

  lemma SessionReads(key: nat, s: seq<byte>)
    requires GetSessionRequest(key, s).Some?
    ensures RequestOk(GetSessionRequest(key, s).value.value)
  {
    UintsRead();
    StringsReadOk();
    if key == 0x0011 {
      PropertiesReadOk();
      ArrayReads(GetProperty, PropertyOk, s);
    } else if key == 0x0013 {
      BlobReads(GetString(s).value.rest);
    } else if key == 0x001b {
      VersionsReadOk();
      ArrayReads(GetVersion, VersionOk, s);
    }
  }

  lemma RequestReads(key: nat, s: seq<byte>)
    requires GetRequest(key, s).Some?
    ensures RequestOk(GetRequest(key, s).value.value)
  {
    if key < 0x000d {
      TrackingReads(key, s);
    } else if key < 0x0011 {
      StreamReads(key, s);
    } else {
      SessionReads(key, s);
    }
  }

  lemma CorrelatedReads(key: nat, s: seq<byte>)
    requires ReadCorrelated(key, s).Some?
    ensures FrameOk(ReadCorrelated(key, s).value)
  {
    Widths();
    UintReads(4, s);
    RequestReads(key, GetUint(4, s).value.rest);
  }

  lemma PlainReads(key: nat, s: seq<byte>)
    requires ReadPlain(key, s).Some?
    ensures FrameOk(ReadPlain(key, s).value)
  {
    CommandReads(key, s);
  }

  /** Every frame the reader can make of any bytes has fields the C++ types can hold and the writers accept. */
  lemma FrameReads(s: seq<byte>)
    requires ReadFrame(s).Some?
    ensures FrameOk(ReadFrame(s).value)
  {
    var key := GetUint(2, s).value;
    var version := GetUint(2, key.rest).value;
    if IsCommandKey(key.value) { PlainReads(key.value, version.rest); } else { CorrelatedReads(key.value, version.rest); }
  }

  // ---- what goes out

  /**
   Main result. For every one of the 21 client frames: send_frame lets it out if and only if
   its bytes, with the length prefix, are within the negotiated limit and a buffer, and a
   reader that follows the protocol makes of them the same frame again.
   */
  lemma SendableExactly(limit: nat, f: Frame)
    requires limit < U32
    ensures ReadChain.SendFrame(limit, f).Some? <==>
            |FrameBytes(f)| + 4 <= (if limit == 0 then U32 - 1 else limit) && ReadFrame(FrameBytes(f)) == Some(f)
    ensures ReadChain.SendFrame(limit, f).Some? ==>
              |ReadChain.SendFrame(limit, f).value| == 4 + |FrameBytes(f)|
              && FromBigEndian(ReadChain.SendFrame(limit, f).value[..4]) == |FrameBytes(f)|
              && ReadChain.SendFrame(limit, f).value[4..] == FrameBytes(f)
  {
    AnnouncedSizeIsExact(f);
    if FrameOk(f) { FramesAreReadBack(f); }
    if ReadFrame(FrameBytes(f)) == Some(f) { FrameReads(FrameBytes(f)); }
    if ReadChain.SendFrame(limit, f).Some? { SealedParts(FrameBytes(f)); }
  }

  lemma SealedParts(payload: seq<byte>)
    requires ReadChain.Holds(|payload|)
    ensures var b := PutUint(4, |payload|, payload);
            |b| == 4 + |payload| && FromBigEndian(b[..4]) == |payload| && b[4..] == payload
  {
    Widths();
    BigEndianInverse(4, |payload|);
    assert PutUint(4, |payload|, payload)[..4] == BigEndian(4, |payload|);
  }
}
