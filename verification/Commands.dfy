/**
 The frames the client writes, in the format of the RabbitMQ Stream Protocol. `SerializedSize` is what the client announces in the length
 prefix before it writes a byte; `FrameBytes` is what it then writes.
 */
module Commands {
  import opened Prelude
  import opened Wire

  type Text = seq<byte>

  datatype Entry = Entry(publishingId: nat, body: seq<byte>)

  /** One pair of a Properties map, which is written in the map's key order. */
  datatype Property = Property(key: Text, value: Text)

  datatype OffsetSpec = First | Last | Next | Offset(offset: nat) | Timestamp(timestamp: nat)

  datatype CommandVersion = CommandVersion(key: nat, minVersion: nat, maxVersion: nat)

  /** Subclasses of ClientCommand. */
  datatype Command =
    | Publish(publisherId: nat, entries: seq<Entry>)
    | Credit(subscriptionId: nat, credit: nat)
    | StoreOffset(reference: Text, stream: Text, offset: nat)
    | ClientTune(frameSize: nat, heartbeat: nat)
    | ClientHeartbeat

  /** Subclasses of ClientRequest, and ClientCloseResponse: they carry a correlation id. */
  datatype Request =
    | DeclarePublisher(publisherId: nat, name: Text, stream: Text)
    | QueryPublisherSequence(name: Text, stream: Text)
    | DeletePublisher(publisherId: nat)
    | Subscribe(subscriptionId: nat, stream: Text, offset: OffsetSpec, credit: nat, properties: seq<Property>)
    | QueryOffset(reference: Text, stream: Text)
    | Unsubscribe(subscriptionId: nat)
    | Create(stream: Text, arguments: seq<Property>)
    | Delete(stream: Text)
    | Metadata(streams: seq<Text>)
    | PeerProperties(properties: seq<Property>)
    | SaslHandshake
    | SaslAuthenticate(mechanism: Text, opaqueData: seq<byte>)
    | Open(virtualHost: Text)
    | ClientClose(code: nat, reason: Text)
    | ClientCloseResponse(code: nat)
    | ExchangeCommandVersions(versions: seq<CommandVersion>)

  datatype Frame = Plain(command: Command) | Correlated(correlationId: nat, request: Request)

  // ---- sizes, as body_size and header_size compute them

  function StringSize(v: Text): nat { 2 + |v| }
  function BlobSize(v: seq<byte>): nat { 4 + |v| }
  /** PublishCommand::BASE_SERIALIZED_SIZE: header, publisher id and entry count. */
  const BASE_SIZE: nat := 9

  /** PublishCommand::Message::serialized_size: publishing id and blob. */
  function PublishedSize(bodySize: nat): nat { 8 + (4 + bodySize) }

  function EntrySize(e: Entry): nat { PublishedSize(|e.body|) }
  function PropertySize(p: Property): nat { StringSize(p.key) + StringSize(p.value) }
  function VersionSize(v: CommandVersion): nat { 2 + 2 + 2 }

  function OffsetSpecSize(o: OffsetSpec): nat {
    if o.Offset? || o.Timestamp? then 2 + 8 else 2
  }

  function CommandBodySize(c: Command): nat {
    match c
    case Publish(_, entries) => 1 + ArraySize(EntrySize, entries)
    case Credit(_, _) => 1 + 2
    case StoreOffset(reference, stream, _) => StringSize(reference) + StringSize(stream) + 8
    case ClientTune(_, _) => 4 + 4
    case ClientHeartbeat => 0
  }

  function RequestBodySize(r: Request): nat {
    match r
    case DeclarePublisher(_, name, stream) => 1 + StringSize(name) + StringSize(stream)
    case QueryPublisherSequence(name, stream) => StringSize(name) + StringSize(stream)
    case DeletePublisher(_) => 1
    case Subscribe(_, stream, offset, _, properties) =>
      1 + StringSize(stream) + OffsetSpecSize(offset) + 2 + ArraySize(PropertySize, properties)
    case QueryOffset(reference, stream) => StringSize(reference) + StringSize(stream)
    case Unsubscribe(_) => 1
    case Create(stream, arguments) => StringSize(stream) + ArraySize(PropertySize, arguments)
    case Delete(stream) => StringSize(stream)
    case Metadata(streams) => ArraySize(StringSize, streams)
    case PeerProperties(properties) => ArraySize(PropertySize, properties)
    case SaslHandshake => 0
    case SaslAuthenticate(mechanism, opaqueData) => StringSize(mechanism) + BlobSize(opaqueData)
    case Open(virtualHost) => StringSize(virtualHost)
    case ClientClose(_, reason) => 2 + StringSize(reason)
    case ClientCloseResponse(_) => 2
    case ExchangeCommandVersions(versions) => ArraySize(VersionSize, versions)
  }

  function SerializedSize(f: Frame): nat {
    match f
    case Plain(c) => 2 + 2 + CommandBodySize(c)
    case Correlated(_, r) => 2 + 2 + 4 + RequestBodySize(r)
  }

  // ---- writing

  function PutEntry(e: Entry, tail: seq<byte>): seq<byte> {
    PutUint(8, e.publishingId, PutBlob(e.body, tail))
  }

  function PutProperty(p: Property, tail: seq<byte>): seq<byte> {
    PutString(p.key, PutString(p.value, tail))
  }

  function PutVersion(v: CommandVersion, tail: seq<byte>): seq<byte> {
    PutUint(2, v.key, PutUint(2, v.minVersion, PutUint(2, v.maxVersion, tail)))
  }

  function OffsetType(o: OffsetSpec): nat {
    match o
    case First => 1
    case Last => 2
    case Next => 3
    case Offset(_) => 4
    case Timestamp(_) => 5
  }

  function PutOffsetSpec(o: OffsetSpec, tail: seq<byte>): seq<byte> {
    PutUint(2, OffsetType(o),
            match o
            case Offset(v) => PutUint(8, v, tail)
            case Timestamp(v) => PutUint(8, v, tail)
            case _ => tail)
  }

  function CommandKey(c: Command): nat {
    match c
    case Publish(_, _) => 0x0002
    case Credit(_, _) => 0x0009
    case StoreOffset(_, _, _) => 0x000a
    case ClientTune(_, _) => 0x8014
    case ClientHeartbeat => 0x0017
  }

  function RequestKey(r: Request): nat {
    match r
    case DeclarePublisher(_, _, _) => 0x0001
    case QueryPublisherSequence(_, _) => 0x0005
    case DeletePublisher(_) => 0x0006
    case Subscribe(_, _, _, _, _) => 0x0007
    case QueryOffset(_, _) => 0x000b
    case Unsubscribe(_) => 0x000c
    case Create(_, _) => 0x000d
    case Delete(_) => 0x000e
    case Metadata(_) => 0x000f
    case PeerProperties(_) => 0x0011
    case SaslHandshake => 0x0012
    case SaslAuthenticate(_, _) => 0x0013
    case Open(_) => 0x0015
    case ClientClose(_, _) => 0x0016
    case ClientCloseResponse(_) => 0x8016
    case ExchangeCommandVersions(_) => 0x001b
  }

  function PutCommandBody(c: Command, tail: seq<byte>): seq<byte> {
    match c
    case Publish(publisherId, entries) => PutUint(1, publisherId, PutArray(PutEntry, entries, tail))
    case Credit(subscriptionId, credit) => PutUint(1, subscriptionId, PutUint(2, credit, tail))
    case StoreOffset(reference, stream, offset) => PutString(reference, PutString(stream, PutUint(8, offset, tail)))
    case ClientTune(frameSize, heartbeat) => PutUint(4, frameSize, PutUint(4, heartbeat, tail))
    case ClientHeartbeat => tail
  }

  function PutRequestBody(r: Request, tail: seq<byte>): seq<byte> {
    match r
    case DeclarePublisher(id, name, stream) => PutUint(1, id, PutString(name, PutString(stream, tail)))
    case QueryPublisherSequence(name, stream) => PutString(name, PutString(stream, tail))
    case DeletePublisher(id) => PutUint(1, id, tail)
    case Subscribe(id, stream, offset, credit, properties) =>
      PutUint(1, id, PutString(stream, PutOffsetSpec(offset, PutUint(2, credit, PutArray(PutProperty, properties, tail)))))
    case QueryOffset(reference, stream) => PutString(reference, PutString(stream, tail))
    case Unsubscribe(id) => PutUint(1, id, tail)
    case Create(stream, arguments) => PutString(stream, PutArray(PutProperty, arguments, tail))
    case Delete(stream) => PutString(stream, tail)
    case Metadata(streams) => PutArray(PutString, streams, tail)
    case PeerProperties(properties) => PutArray(PutProperty, properties, tail)
    case SaslHandshake => tail
    case SaslAuthenticate(mechanism, opaqueData) => PutString(mechanism, PutBlob(opaqueData, tail))
    case Open(virtualHost) => PutString(virtualHost, tail)
    case ClientClose(code, reason) => PutUint(2, code, PutString(reason, tail))
    case ClientCloseResponse(code) => PutUint(2, code, tail)
    case ExchangeCommandVersions(versions) => PutArray(PutVersion, versions, tail)
  }

  /** Header and body: every client frame is of version 1. */
  function FrameBytes(f: Frame): seq<byte> {
    match f
    case Plain(c) => PutUint(2, CommandKey(c), PutUint(2, 1, PutCommandBody(c, [])))
    case Correlated(id, r) => PutUint(2, RequestKey(r), PutUint(2, 1, PutUint(4, id, PutRequestBody(r, []))))
  }

  // ---- the announced size is the written size

  lemma CommandBodyLength(c: Command, tail: seq<byte>)
    ensures |PutCommandBody(c, tail)| == CommandBodySize(c) + |tail|
  {
    if c.Publish? { ArrayHasSize(PutEntry, EntrySize, c.entries, tail); }
  }

  lemma PropertyArrayLength(ps: seq<Property>, tail: seq<byte>)
    ensures |PutArray(PutProperty, ps, tail)| == ArraySize(PropertySize, ps) + |tail|
  {
    ArrayHasSize(PutProperty, PropertySize, ps, tail);
  }

  lemma RequestBodyLength(r: Request, tail: seq<byte>)
    ensures |PutRequestBody(r, tail)| == RequestBodySize(r) + |tail|
  {
    match r
    case Subscribe(_, _, offset, credit, properties) => PropertyArrayLength(properties, tail);
    case Create(_, arguments) => PropertyArrayLength(arguments, tail);
    case Metadata(streams) => ArrayHasSize(PutString, StringSize, streams, tail);
    case PeerProperties(properties) => PropertyArrayLength(properties, tail);
    case ExchangeCommandVersions(versions) => ArrayHasSize(PutVersion, VersionSize, versions, tail);
    case _ =>
  }

  /** Main result: for every client frame the length prefix announces exactly what is written. */
  lemma AnnouncedSizeIsExact(f: Frame)
    ensures |FrameBytes(f)| == SerializedSize(f)
  {
    match f
    case Plain(c) => CommandBodyLength(c, []);
    case Correlated(_, r) => RequestBodyLength(r, []);
  }
}
