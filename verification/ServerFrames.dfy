/**
 Frames the broker sends: the readers of commands.cpp against encoders written from the
 protocol. Property maps keep the first value of a repeated key, as std::map insertion does.
 */
module ServerFrames {
  import opened Prelude
  import opened Wire
  import opened Commands
  import opened CommandReader

  // ---- metadata: nested arrays

  datatype Broker = Broker(reference: nat, host: Text, port: nat)
  datatype StreamMetadata = StreamMetadata(name: Text, code: nat, leader: nat, replicas: seq<nat>)
  datatype MetadataResponse = MetadataResponse(brokers: seq<Broker>, streams: seq<StreamMetadata>)

  predicate ReferenceOk(r: nat) { r < U16 }
  predicate BrokerOk(b: Broker) { b.reference < U16 && TextOk(b.host) && b.port < U32 }

  predicate StreamOk(m: StreamMetadata) {
    TextOk(m.name) && m.code < U16 && m.leader < U16 && ArrayOk(ReferenceOk, m.replicas)
  }

  predicate MetadataOk(m: MetadataResponse) { ArrayOk(BrokerOk, m.brokers) && ArrayOk(StreamOk, m.streams) }

  function PutReference(r: nat, tail: seq<byte>): seq<byte> { PutUint(2, r, tail) }

  function PutBroker(b: Broker, tail: seq<byte>): seq<byte> {
    PutUint(2, b.reference, PutString(b.host, PutUint(4, b.port, tail)))
  }

  function PutStream(m: StreamMetadata, tail: seq<byte>): seq<byte> {
    PutString(m.name, PutUint(2, m.code, PutUint(2, m.leader, PutArray(PutReference, m.replicas, tail))))
  }

  function PutMetadata(m: MetadataResponse, tail: seq<byte>): seq<byte> {
    PutArray(PutBroker, m.brokers, PutArray(PutStream, m.streams, tail))
  }

  function GetReference(s: seq<byte>): Option<Got<nat>> { GetUint(2, s) }

  function GetBroker(s: seq<byte>): Option<Got<Broker>> {
    var reference :- GetUint(2, s);
    var host :- GetString(reference.rest);
    var port :- GetUint(4, host.rest);
    Some(Got(Broker(reference.value, host.value, port.value), port.rest))
  }

  function GetStream(s: seq<byte>): Option<Got<StreamMetadata>> {
    var name :- GetString(s);
    var code :- GetUint(2, name.rest);
    var leader :- GetUint(2, code.rest);
    var replicas :- GetArray(GetReference, leader.rest);
    Some(Got(StreamMetadata(name.value, code.value, leader.value, replicas.value), replicas.rest))
  }

  function GetMetadataResponse(s: seq<byte>): Option<Got<MetadataResponse>> {
    var brokers :- GetArray(GetBroker, s);
    var streams :- GetArray(GetStream, brokers.rest);
    Some(Got(MetadataResponse(brokers.value, streams.value), streams.rest))
  }

  lemma BrokerRoundTrips()
    ensures RoundTrips(PutBroker, GetBroker, BrokerOk)
  {
    Widths();
    forall b, tail | BrokerOk(b) ensures GetBroker(PutBroker(b, tail)) == Some(Got(b, tail)) {
      UintRoundTrip(2, b.reference, PutString(b.host, PutUint(4, b.port, tail)));
      StringRoundTrip(b.host, PutUint(4, b.port, tail));
      UintRoundTrip(4, b.port, tail);
    }
  }

  lemma ReferenceRoundTrips()
    ensures RoundTrips(PutReference, GetReference, ReferenceOk)
  {
    Widths();
    forall r: nat, tail | ReferenceOk(r) ensures GetReference(PutReference(r, tail)) == Some(Got(r, tail)) {
      UintRoundTrip(2, r, tail);
    }
  }

  lemma StreamRoundTrip(m: StreamMetadata, tail: seq<byte>)
    requires StreamOk(m)
    ensures GetStream(PutStream(m, tail)) == Some(Got(m, tail))
  {
    Widths();
    ReferenceRoundTrips();
    var t1 := PutArray(PutReference, m.replicas, tail);
    var t2 := PutUint(2, m.leader, t1);
    StringRoundTrip(m.name, PutUint(2, m.code, t2));
    UintRoundTrip(2, m.code, t2);
    UintRoundTrip(2, m.leader, t1);
    ArrayRoundTrip(PutReference, GetReference, ReferenceOk, m.replicas, tail);
  }

  lemma StreamRoundTrips()
    ensures RoundTrips(PutStream, GetStream, StreamOk)
  {
    forall m, tail | StreamOk(m) ensures GetStream(PutStream(m, tail)) == Some(Got(m, tail)) {
      StreamRoundTrip(m, tail);
    }
  }

  /** Main result: broker, stream and replica arrays, one inside the other, decode to what was encoded. */
  lemma MetadataRoundTrip(m: MetadataResponse, tail: seq<byte>)
    requires MetadataOk(m)
    ensures GetMetadataResponse(PutMetadata(m, tail)) == Some(Got(m, tail))
  {
    BrokerRoundTrips();
    StreamRoundTrips();
    ArrayRoundTrip(PutBroker, GetBroker, BrokerOk, m.brokers, PutArray(PutStream, m.streams, tail));
    ArrayRoundTrip(PutStream, GetStream, StreamOk, m.streams, tail);
  }

  // ---- property maps

  type Properties = map<Text, Text>

  /** std::inserter over a std::map: a key already present is left alone. */
  function Insert(m: Properties, p: Property): Properties {
    if p.key in m then m else m[p.key := p.value]
  }

  function InsertAll(m: Properties, ps: seq<Property>): Properties
    decreases |ps|
  {
    if ps == [] then m else InsertAll(Insert(m, ps[0]), ps[1..])
  }

  function GetProperties(s: seq<byte>): Option<Got<Properties>> {
    var ps :- GetArray(GetProperty, s);
    Some(Got(InsertAll(map[], ps.value), ps.rest))
  }

  /** `ps` lists the pairs of `m`, each key once; a std::map is written in such an order. */
  ghost predicate Lists(ps: seq<Property>, m: Properties) {
    && (forall i, j :: 0 <= i < j < |ps| ==> ps[i].key != ps[j].key)
    && (forall p :: p in ps ==> p.key in m && m[p.key] == p.value)
    && (forall k :: k in m ==> Property(k, m[k]) in ps)
  }

  /** Each key gets the value of its first occurrence, unless the map already had it. */
  lemma {:induction false} FirstWins(m: Properties, ps: seq<Property>, i: nat)
    requires i < |ps| && forall j :: 0 <= j < i ==> ps[j].key != ps[i].key
    ensures ps[i].key in InsertAll(m, ps)
    ensures InsertAll(m, ps)[ps[i].key] == if ps[i].key in m then m[ps[i].key] else ps[i].value
    decreases i
  {
    if i == 0 {
      InsertKeeps(Insert(m, ps[0]), ps[1..], ps[0].key);
    } else {
      assert ps[1..][i - 1] == ps[i] && ps[0].key != ps[i].key;
      FirstWins(Insert(m, ps[0]), ps[1..], i - 1);
    }
  }

  lemma {:induction false} InsertKeeps(m: Properties, ps: seq<Property>, k: Text)
    requires k in m
    ensures k in InsertAll(m, ps) && InsertAll(m, ps)[k] == m[k]
    decreases |ps|
  {
    if ps != [] { InsertKeeps(Insert(m, ps[0]), ps[1..], k); }
  }

  lemma {:induction false} InsertKeys(m: Properties, ps: seq<Property>, k: Text)
    requires k in InsertAll(m, ps)
    ensures k in m || exists i :: 0 <= i < |ps| && ps[i].key == k
    decreases |ps|
  {
    if ps != [] {
      InsertKeys(Insert(m, ps[0]), ps[1..], k);
      if k !in Insert(m, ps[0]) {
        var i :| 0 <= i < |ps[1..]| && ps[1..][i].key == k;
        assert ps[i + 1].key == k;
      } else if k !in m {
        assert ps[0].key == k;
      }
    }
  }

  lemma ListedBack(ps: seq<Property>, m: Properties)
    requires Lists(ps, m)
    ensures InsertAll(map[], ps) == m
  {
    var r := InsertAll(map[], ps);
    forall k | k in m ensures k in r && r[k] == m[k] {
      var i :| 0 <= i < |ps| && ps[i] == Property(k, m[k]);
      FirstWins(map[], ps, i);
    }
    forall k | k in r ensures k in m {
      InsertKeys(map[], ps, k);
      var i :| 0 <= i < |ps| && ps[i].key == k;
      assert ps[i] in ps;
    }
  }

  /** Main result: a property map written in any order of its keys reads back as the same map. */
  lemma PropertyMapRoundTrip(ps: seq<Property>, m: Properties, tail: seq<byte>)
    requires Lists(ps, m) && ArrayOk(PropertyOk, ps)
    ensures GetProperties(PutArray(PutProperty, ps, tail)) == Some(Got(m, tail))
  {
    PropertiesRoundTrip(ps, tail);
    ListedBack(ps, m);
  }

  // ---- publish confirmations and errors

  datatype PublishingError = PublishingError(sequence: nat, code: nat)
  datatype Outcome = Confirmed(publisherId: nat, sequences: seq<nat>) | Failed(publisherId: nat, errors: seq<PublishingError>)

  predicate SequenceOk(v: nat) { v < U64 }
  predicate ErrorOk(e: PublishingError) { e.sequence < U64 && e.code < U16 }

  predicate OutcomeOk(o: Outcome) {
    o.publisherId < 256 && match o
    case Confirmed(_, sequences) => ArrayOk(SequenceOk, sequences)
    case Failed(_, errors) => ArrayOk(ErrorOk, errors)
  }

  function PutSequence(v: nat, tail: seq<byte>): seq<byte> { PutUint(8, v, tail) }
  function PutError(e: PublishingError, tail: seq<byte>): seq<byte> { PutUint(8, e.sequence, PutUint(2, e.code, tail)) }

  function PutOutcome(o: Outcome, tail: seq<byte>): seq<byte> {
    match o
    case Confirmed(id, sequences) => PutUint(1, id, PutArray(PutSequence, sequences, tail))
    case Failed(id, errors) => PutUint(1, id, PutArray(PutError, errors, tail))
  }

  function GetSequence(s: seq<byte>): Option<Got<nat>> { GetUint(8, s) }

  function GetError(s: seq<byte>): Option<Got<PublishingError>> {
    var sequence :- GetUint(8, s);
    var code :- GetUint(2, sequence.rest);
    Some(Got(PublishingError(sequence.value, code.value), code.rest))
  }

  function GetConfirmed(s: seq<byte>): Option<Got<Outcome>> {
    var id :- GetUint(1, s);
    var sequences :- GetArray(GetSequence, id.rest);
    Some(Got(Confirmed(id.value, sequences.value), sequences.rest))
  }

  function GetFailed(s: seq<byte>): Option<Got<Outcome>> {
    var id :- GetUint(1, s);
    var errors :- GetArray(GetError, id.rest);
    Some(Got(Failed(id.value, errors.value), errors.rest))
  }

  lemma OutcomeRoundTrip(o: Outcome, tail: seq<byte>)
    requires OutcomeOk(o)
    ensures (if o.Confirmed? then GetConfirmed(PutOutcome(o, tail)) else GetFailed(PutOutcome(o, tail))) == Some(Got(o, tail))
  {
    Widths();
    match o
    case Confirmed(id, sequences) =>
      forall v: nat, t | SequenceOk(v) ensures GetSequence(PutSequence(v, t)) == Some(Got(v, t)) { UintRoundTrip(8, v, t); }
      UintRoundTrip(1, id, PutArray(PutSequence, sequences, tail));
      ArrayRoundTrip(PutSequence, GetSequence, SequenceOk, sequences, tail);
    case Failed(id, errors) =>
      forall e, t | ErrorOk(e) ensures GetError(PutError(e, t)) == Some(Got(e, t)) {
        UintRoundTrip(8, e.sequence, PutUint(2, e.code, t));
        UintRoundTrip(2, e.code, t);
      }
      UintRoundTrip(1, id, PutArray(PutError, errors, tail));
      ArrayRoundTrip(PutError, GetError, ErrorOk, errors, tail);
  }
}
