/** A protocol reader for client frames, and the proof that it recovers every frame the client writes. */
module CommandReader {
  import opened Prelude
  import opened Wire
  import opened Commands

  // ---- values the C++ types can hold and the writers do not reject

  predicate TextOk(v: Text) { |v| <= MAX_STRING }
  predicate EntryOk(e: Entry) { e.publishingId < U64 && |e.body| <= MAX_BLOB }
  predicate PropertyOk(p: Property) { TextOk(p.key) && TextOk(p.value) }
  predicate VersionOk(v: CommandVersion) { v.key < U16 && v.minVersion < U16 && v.maxVersion < U16 }

  predicate ArrayOk<T>(ok: T -> bool, xs: seq<T>) {
    |xs| <= MAX_BLOB && forall i :: 0 <= i < |xs| ==> ok(xs[i])
  }

  predicate OffsetSpecOk(o: OffsetSpec) {
    (o.Offset? ==> o.offset < U64) && (o.Timestamp? ==> o.timestamp < U64)
  }

  predicate CommandOk(c: Command) {
    match c
    case Publish(id, entries) => id < 256 && ArrayOk(EntryOk, entries)
    case Credit(id, credit) => id < 256 && credit < U16
    case StoreOffset(reference, stream, offset) => TextOk(reference) && TextOk(stream) && offset < U64
    case ClientTune(frameSize, heartbeat) => frameSize < U32 && heartbeat < U32
    case ClientHeartbeat => true
  }

  predicate RequestOk(r: Request) {
    match r
    case DeclarePublisher(id, name, stream) => id < 256 && TextOk(name) && TextOk(stream)
    case QueryPublisherSequence(name, stream) => TextOk(name) && TextOk(stream)
    case DeletePublisher(id) => id < 256
    case Subscribe(id, stream, offset, credit, properties) =>
      id < 256 && TextOk(stream) && OffsetSpecOk(offset) && credit < U16 && ArrayOk(PropertyOk, properties)
    case QueryOffset(reference, stream) => TextOk(reference) && TextOk(stream)
    case Unsubscribe(id) => id < 256
    case Create(stream, arguments) => TextOk(stream) && ArrayOk(PropertyOk, arguments)
    case Delete(stream) => TextOk(stream)
    case Metadata(streams) => ArrayOk(TextOk, streams)
    case PeerProperties(properties) => ArrayOk(PropertyOk, properties)
    case SaslHandshake => true
    case SaslAuthenticate(mechanism, opaqueData) => TextOk(mechanism) && |opaqueData| <= MAX_BLOB
    case Open(virtualHost) => TextOk(virtualHost)
    case ClientClose(code, reason) => code < U16 && TextOk(reason)
    case ClientCloseResponse(code) => code < U16
    case ExchangeCommandVersions(versions) => ArrayOk(VersionOk, versions)
  }

  predicate FrameOk(f: Frame) {
    match f
    case Plain(c) => CommandOk(c)
    case Correlated(id, r) => id < U32 && RequestOk(r)
  }

  // ---- the reader

  function GetEntry(s: seq<byte>): Option<Got<Entry>> {
    var id :- GetUint(8, s);
    var body :- GetBlob(id.rest);
    Some(Got(Entry(id.value, body.value), body.rest))
  }

  function GetProperty(s: seq<byte>): Option<Got<Property>> {
    var key :- GetString(s);
    var value :- GetString(key.rest);
    Some(Got(Property(key.value, value.value), value.rest))
  }

  function GetVersion(s: seq<byte>): Option<Got<CommandVersion>> {
    var key :- GetUint(2, s);
    var min :- GetUint(2, key.rest);
    var max :- GetUint(2, min.rest);
    Some(Got(CommandVersion(key.value, min.value, max.value), max.rest))
  }

  function GetOffsetSpec(s: seq<byte>): Option<Got<OffsetSpec>> {
    var kind :- GetUint(2, s);
    if kind.value == 1 then Some(Got(First, kind.rest))
    else if kind.value == 2 then Some(Got(Last, kind.rest))
    else if kind.value == 3 then Some(Got(Next, kind.rest))
    else
      var v :- GetUint(8, kind.rest);
      if kind.value == 4 then Some(Got(Offset(v.value), v.rest))
      else if kind.value == 5 then Some(Got(Timestamp(v.value), v.rest))
      else None
  }

  function GetPublish(s: seq<byte>): Option<Got<Command>> {
    var id :- GetUint(1, s);
    var entries :- GetArray(GetEntry, id.rest);
    Some(Got(Publish(id.value, entries.value), entries.rest))
  }

  function GetCredit(s: seq<byte>): Option<Got<Command>> {
    var id :- GetUint(1, s);
    var credit :- GetUint(2, id.rest);
    Some(Got(Credit(id.value, credit.value), credit.rest))
  }

  function GetStoreOffset(s: seq<byte>): Option<Got<Command>> {
    var reference :- GetString(s);
    var stream :- GetString(reference.rest);
    var offset :- GetUint(8, stream.rest);
    Some(Got(StoreOffset(reference.value, stream.value, offset.value), offset.rest))
  }

  function GetTune(s: seq<byte>): Option<Got<Command>> {
    var frameSize :- GetUint(4, s);
    var heartbeat :- GetUint(4, frameSize.rest);
    Some(Got(ClientTune(frameSize.value, heartbeat.value), heartbeat.rest))
  }

  function GetCommand(key: nat, s: seq<byte>): Option<Got<Command>> {
    if key == 0x0002 then GetPublish(s)
    else if key == 0x0009 then GetCredit(s)
    else if key == 0x000a then GetStoreOffset(s)
    else if key == 0x8014 then GetTune(s)
    else if key == 0x0017 then Some(Got(ClientHeartbeat, s))
    else None
  }

  function GetDeletePublisher(s: seq<byte>): Option<Got<Request>> {
    var id :- GetUint(1, s);
    Some(Got(DeletePublisher(id.value), id.rest))
  }

  function GetUnsubscribe(s: seq<byte>): Option<Got<Request>> {
    var id :- GetUint(1, s);
    Some(Got(Unsubscribe(id.value), id.rest))
  }

  function GetDelete(s: seq<byte>): Option<Got<Request>> {
    var stream :- GetString(s);
    Some(Got(Delete(stream.value), stream.rest))
  }

  function GetOpen(s: seq<byte>): Option<Got<Request>> {
    var virtualHost :- GetString(s);
    Some(Got(Open(virtualHost.value), virtualHost.rest))
  }

  function GetQueryPublisherSequence(s: seq<byte>): Option<Got<Request>> {
    var name :- GetString(s);
    var stream :- GetString(name.rest);
    Some(Got(QueryPublisherSequence(name.value, stream.value), stream.rest))
  }

  function GetQueryOffset(s: seq<byte>): Option<Got<Request>> {
    var reference :- GetString(s);
    var stream :- GetString(reference.rest);
    Some(Got(QueryOffset(reference.value, stream.value), stream.rest))
  }

  function GetDeclarePublisher(s: seq<byte>): Option<Got<Request>> {
    var id :- GetUint(1, s);
    var name :- GetString(id.rest);
    var stream :- GetString(name.rest);
    Some(Got(DeclarePublisher(id.value, name.value, stream.value), stream.rest))
  }

  function GetSubscribe(s: seq<byte>): Option<Got<Request>> {
    var id :- GetUint(1, s);
    var stream :- GetString(id.rest);
    var offset :- GetOffsetSpec(stream.rest);
    var credit :- GetUint(2, offset.rest);
    var properties :- GetArray(GetProperty, credit.rest);
    Some(Got(Subscribe(id.value, stream.value, offset.value, credit.value, properties.value), properties.rest))
  }

  function GetCreate(s: seq<byte>): Option<Got<Request>> {
    var stream :- GetString(s);
    var arguments :- GetArray(GetProperty, stream.rest);
    Some(Got(Create(stream.value, arguments.value), arguments.rest))
  }

  function GetMetadata(s: seq<byte>): Option<Got<Request>> {
    var streams :- GetArray(GetString, s);
    Some(Got(Metadata(streams.value), streams.rest))
  }

  function GetPeerProperties(s: seq<byte>): Option<Got<Request>> {
    var properties :- GetArray(GetProperty, s);
    Some(Got(PeerProperties(properties.value), properties.rest))
  }

  function GetSaslAuthenticate(s: seq<byte>): Option<Got<Request>> {
    var mechanism :- GetString(s);
    var opaqueData :- GetBlob(mechanism.rest);
    Some(Got(SaslAuthenticate(mechanism.value, opaqueData.value), opaqueData.rest))
  }

  function GetClose(s: seq<byte>): Option<Got<Request>> {
    var code :- GetUint(2, s);
    var reason :- GetString(code.rest);
    Some(Got(ClientClose(code.value, reason.value), reason.rest))
  }

  function GetCloseResponse(s: seq<byte>): Option<Got<Request>> {
    var code :- GetUint(2, s);
    Some(Got(ClientCloseResponse(code.value), code.rest))
  }

  function GetVersions(s: seq<byte>): Option<Got<Request>> {
    var versions :- GetArray(GetVersion, s);
    Some(Got(ExchangeCommandVersions(versions.value), versions.rest))
  }

  /** Requests about one publisher, subscription or stored offset. */
  function GetTrackingRequest(key: nat, s: seq<byte>): Option<Got<Request>> {
    if key == 0x0001 then GetDeclarePublisher(s)
    else if key == 0x0005 then GetQueryPublisherSequence(s)
    else if key == 0x0006 then GetDeletePublisher(s)
    else if key == 0x0007 then GetSubscribe(s)
    else if key == 0x000b then GetQueryOffset(s)
    else if key == 0x000c then GetUnsubscribe(s)
    else None
  }

  /** Requests about streams and the cluster. */
  function GetStreamRequest(key: nat, s: seq<byte>): Option<Got<Request>> {
    if key == 0x000d then GetCreate(s)
    else if key == 0x000e then GetDelete(s)
    else if key == 0x000f then GetMetadata(s)
    else None
  }

  /** Requests about the connection itself. */
  function GetSessionRequest(key: nat, s: seq<byte>): Option<Got<Request>> {
    if key == 0x0011 then GetPeerProperties(s)
    else if key == 0x0012 then Some(Got(SaslHandshake, s))
    else if key == 0x0013 then GetSaslAuthenticate(s)
    else if key == 0x0015 then GetOpen(s)
    else if key == 0x0016 then GetClose(s)
    else if key == 0x8016 then GetCloseResponse(s)
    else if key == 0x001b then GetVersions(s)
    else None
  }

  function GetRequest(key: nat, s: seq<byte>): Option<Got<Request>> {
    if key < 0x000d then GetTrackingRequest(key, s)
    else if key < 0x0011 then GetStreamRequest(key, s)
    else GetSessionRequest(key, s)
  }

  predicate IsCommandKey(key: nat) {
    key == 0x0002 || key == 0x0009 || key == 0x000a || key == 0x8014 || key == 0x0017
  }

  function ReadPlain(key: nat, s: seq<byte>): Option<Frame> {
    var c :- GetCommand(key, s);
    if c.rest == [] then Some(Plain(c.value)) else None
  }

  function ReadCorrelated(key: nat, s: seq<byte>): Option<Frame> {
    var id :- GetUint(4, s);
    var r :- GetRequest(key, id.rest);
    if r.rest == [] then Some(Correlated(id.value, r.value)) else None
  }

  /** A whole frame: all its bytes must be used. */
  function ReadFrame(s: seq<byte>): Option<Frame> {
    var key :- GetUint(2, s);
    var version :- GetUint(2, key.rest);
    if version.value != 1 then None
    else if IsCommandKey(key.value) then ReadPlain(key.value, version.rest)
    else ReadCorrelated(key.value, version.rest)
  }

  // ---- elements

  lemma EntryRoundTrips()
    ensures RoundTrips(PutEntry, GetEntry, EntryOk)
  {
    Widths();
    forall e, tail | EntryOk(e) ensures GetEntry(PutEntry(e, tail)) == Some(Got(e, tail)) {
      UintRoundTrip(8, e.publishingId, PutBlob(e.body, tail));
      BlobRoundTrip(e.body, tail);
    }
  }

  lemma PropertyRoundTrips()
    ensures RoundTrips(PutProperty, GetProperty, PropertyOk)
  {
    forall p, tail | PropertyOk(p) ensures GetProperty(PutProperty(p, tail)) == Some(Got(p, tail)) {
      StringRoundTrip(p.key, PutString(p.value, tail));
      StringRoundTrip(p.value, tail);
    }
  }

  lemma TextRoundTrips()
    ensures RoundTrips(PutString, GetString, TextOk)
  {
    forall v, tail | TextOk(v) ensures GetString(PutString(v, tail)) == Some(Got(v, tail)) {
      StringRoundTrip(v, tail);
    }
  }

  lemma VersionRoundTrips()
    ensures RoundTrips(PutVersion, GetVersion, VersionOk)
  {
    Widths();
    forall v, tail | VersionOk(v) ensures GetVersion(PutVersion(v, tail)) == Some(Got(v, tail)) {
      UintRoundTrip(2, v.key, PutUint(2, v.minVersion, PutUint(2, v.maxVersion, tail)));
      UintRoundTrip(2, v.minVersion, PutUint(2, v.maxVersion, tail));
      UintRoundTrip(2, v.maxVersion, tail);
    }
  }

  lemma PropertiesRoundTrip(ps: seq<Property>, tail: seq<byte>)
    requires ArrayOk(PropertyOk, ps)
    ensures GetArray(GetProperty, PutArray(PutProperty, ps, tail)) == Some(Got(ps, tail))
  {
    PropertyRoundTrips();
    ArrayRoundTrip(PutProperty, GetProperty, PropertyOk, ps, tail);
  }

  lemma OffsetSpecRoundTrip(o: OffsetSpec, tail: seq<byte>)
    requires OffsetSpecOk(o)
    ensures GetOffsetSpec(PutOffsetSpec(o, tail)) == Some(Got(o, tail))
  {
    Widths();
    match o
    case Offset(v) => UintRoundTrip(2, 4, PutUint(8, v, tail)); UintRoundTrip(8, v, tail);
    case Timestamp(v) => UintRoundTrip(2, 5, PutUint(8, v, tail)); UintRoundTrip(8, v, tail);
    case _ => UintRoundTrip(2, OffsetType(o), tail);
  }

  // ---- bodies

  lemma CommandRoundTrip(c: Command)
    requires CommandOk(c)
    ensures GetCommand(CommandKey(c), PutCommandBody(c, [])) == Some(Got(c, []))
  {
    Widths();
    match c
    case Publish(id, entries) =>
      EntryRoundTrips();
      UintRoundTrip(1, id, PutArray(PutEntry, entries, []));
      ArrayRoundTrip(PutEntry, GetEntry, EntryOk, entries, []);
    case Credit(id, credit) =>
      UintRoundTrip(1, id, PutUint(2, credit, []));
      UintRoundTrip(2, credit, []);
    case StoreOffset(reference, stream, offset) =>
      StringRoundTrip(reference, PutString(stream, PutUint(8, offset, [])));
      StringRoundTrip(stream, PutUint(8, offset, []));
      UintRoundTrip(8, offset, []);
    case ClientTune(frameSize, heartbeat) =>
      UintRoundTrip(4, frameSize, PutUint(4, heartbeat, []));
      UintRoundTrip(4, heartbeat, []);
    case ClientHeartbeat =>
  }

  lemma SubscribeRoundTrip(r: Request)
    requires r.Subscribe? && RequestOk(r)
    ensures GetSubscribe(PutRequestBody(r, [])) == Some(Got(r, []))
  {
    Widths();
    var t1 := PutArray(PutProperty, r.properties, []);
    var t2 := PutUint(2, r.credit, t1);
    var t3 := PutOffsetSpec(r.offset, t2);
    UintRoundTrip(1, r.subscriptionId, PutString(r.stream, t3));
    StringRoundTrip(r.stream, t3);
    OffsetSpecRoundTrip(r.offset, t2);
    UintRoundTrip(2, r.credit, t1);
    PropertiesRoundTrip(r.properties, []);
  }

  lemma TrackingRoundTrip(r: Request)
    requires RequestOk(r) && RequestKey(r) < 0x000d
    ensures GetTrackingRequest(RequestKey(r), PutRequestBody(r, [])) == Some(Got(r, []))
  {
    Widths();
    match r
    case DeclarePublisher(id, name, stream) =>
      UintRoundTrip(1, id, PutString(name, PutString(stream, [])));
      StringRoundTrip(name, PutString(stream, []));
      StringRoundTrip(stream, []);
    case QueryPublisherSequence(name, stream) =>
      StringRoundTrip(name, PutString(stream, []));
      StringRoundTrip(stream, []);
    case DeletePublisher(id) => UintRoundTrip(1, id, []);
    case Subscribe(_, _, _, _, _) => SubscribeRoundTrip(r);
    case QueryOffset(reference, stream) =>
      StringRoundTrip(reference, PutString(stream, []));
      StringRoundTrip(stream, []);
    case Unsubscribe(id) => UintRoundTrip(1, id, []);
    case _ =>
  }

  lemma StreamRoundTrip(r: Request)
    requires RequestOk(r) && 0x000d <= RequestKey(r) < 0x0011
    ensures GetStreamRequest(RequestKey(r), PutRequestBody(r, [])) == Some(Got(r, []))
  {
    match r
    case Create(stream, arguments) =>
      StringRoundTrip(stream, PutArray(PutProperty, arguments, []));
      PropertiesRoundTrip(arguments, []);
    case Delete(stream) => StringRoundTrip(stream, []);
    case Metadata(streams) =>
      TextRoundTrips();
      ArrayRoundTrip(PutString, GetString, TextOk, streams, []);
    case _ =>
  }

  lemma VersionsRoundTrip(versions: seq<CommandVersion>)
    requires ArrayOk(VersionOk, versions)
    ensures GetVersions(PutArray(PutVersion, versions, [])) == Some(Got(ExchangeCommandVersions(versions), []))
  {
    VersionRoundTrips();
    ArrayRoundTrip(PutVersion, GetVersion, VersionOk, versions, []);
  }

  lemma SessionRoundTrip(r: Request)
    requires RequestOk(r) && 0x0011 <= RequestKey(r)
    ensures GetSessionRequest(RequestKey(r), PutRequestBody(r, [])) == Some(Got(r, []))
  {
    Widths();
    match r
    case PeerProperties(properties) => PropertiesRoundTrip(properties, []);
    case SaslAuthenticate(mechanism, opaqueData) =>
      StringRoundTrip(mechanism, PutBlob(opaqueData, []));
      BlobRoundTrip(opaqueData, []);
    case Open(virtualHost) => StringRoundTrip(virtualHost, []);
    case ClientClose(code, reason) =>
      UintRoundTrip(2, code, PutString(reason, []));
      StringRoundTrip(reason, []);
    case ClientCloseResponse(code) => UintRoundTrip(2, code, []);
    case ExchangeCommandVersions(versions) => VersionsRoundTrip(versions);
    case _ =>
  }

  lemma RequestRoundTrip(r: Request)
    requires RequestOk(r)
    ensures GetRequest(RequestKey(r), PutRequestBody(r, [])) == Some(Got(r, []))
  {
    if RequestKey(r) < 0x000d { TrackingRoundTrip(r); }
    else if RequestKey(r) < 0x0011 { StreamRoundTrip(r); }
    else { SessionRoundTrip(r); }
  }

  lemma HeaderReadBack(key: nat, body: seq<byte>)
    requires key < U16
    ensures ReadFrame(PutUint(2, key, PutUint(2, 1, body))) ==
            if IsCommandKey(key) then ReadPlain(key, body) else ReadCorrelated(key, body)
  {
    Widths();
    UintRoundTrip(2, key, PutUint(2, 1, body));
    UintRoundTrip(2, 1, body);
  }

  lemma PlainReadBack(c: Command)
    requires CommandOk(c)
    ensures ReadFrame(FrameBytes(Plain(c))) == Some(Plain(c))
  {
    HeaderReadBack(CommandKey(c), PutCommandBody(c, []));
    CommandRoundTrip(c);
  }

  lemma RequestKeys(r: Request)
    ensures RequestKey(r) < U16 && !IsCommandKey(RequestKey(r))
  {
  }

  lemma CorrelatedReadBack(id: nat, r: Request)
    requires id < U32 && RequestOk(r)
    ensures ReadFrame(FrameBytes(Correlated(id, r))) == Some(Correlated(id, r))
  {
    Widths();
    var key, body := RequestKey(r), PutRequestBody(r, []);
    RequestKeys(r);
    HeaderReadBack(key, PutUint(4, id, body));
    UintRoundTrip(4, id, body);
    RequestRoundTrip(r);
  }

  /**
   Main result. A reader that follows the protocol recovers every client frame from its
   bytes, for all 21 commands and every value their fields can take; so no two frames are
   ever written alike.
   */
  lemma FramesAreReadBack(f: Frame)
    requires FrameOk(f)
    ensures ReadFrame(FrameBytes(f)) == Some(f)
  {
    match f
    case Plain(c) => PlainReadBack(c);
    case Correlated(id, r) => CorrelatedReadBack(id, r);
  }
}
