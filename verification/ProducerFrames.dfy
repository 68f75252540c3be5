/** Resending under the frame limit: what a message that cannot be framed does to recovery. */
module ProducerFrames {
  import opened Prelude
  import opened Wire
  import opened Commands
  import opened ProducerModel
  import opened FrameSplitting

  /** The body the codec has made of each message has the size the producer accounts for. */
  ghost predicate Sized(encoded: Msg -> seq<byte>) {
    forall m :: |encoded(m)| == m.size
  }

  function Entries(encoded: Msg -> seq<byte>, ms: seq<Msg>): (es: seq<Entry>)
    ensures |es| == |ms|
  {
    seq(|ms|, i requires 0 <= i < |ms| => Entry(ms[i].id, encoded(ms[i])))
  }

  /** A body in the gap between the accumulator's bound and send_frame's, or too long for a blob. */
  predicate Unpublishable(limit: nat, size: nat) {
    (limit > 0 && BASE_SIZE + PublishedSize(size) <= limit < BASE_SIZE + PublishedSize(size) + 4) || size > MAX_BLOB
  }

  /**
   A reconnect succeeds only if every publish_encoded call of its resending loop goes through,
   under a frame limit that is the same on every connection. It may fail for other reasons.
   */
  ghost predicate FramedStep(encoded: Msg -> seq<byte>, s: State, e: Event) {
    e.ReconnectFinish? && s.stop.NotStopped? && !e.threw ==>
      s.cfg.capacity > 0 &&
      forall g :: g in Groups(InIdOrder(s.store.unconfirmed), s.cfg.capacity) ==> PublishOk(s.cfg.maxFrame, Entries(encoded, g))
  }

  ghost predicate FramedRun(encoded: Msg -> seq<byte>, s: State, es: seq<Event>)
    decreases |es|
  {
    es == [] ||
    (Enabled(s, es[0]) && FramedStep(encoded, s, es[0]) && FramedRun(encoded, Apply(s, es[0]), es[1..]))
  }

  ghost predicate Unconfirmed(s: State, m: Msg) {
    m.id in s.store.unconfirmed && s.store.unconfirmed[m.id] == m
  }

  lemma InGroups(u: map<nat, Msg>, k: nat, m: Msg) returns (g: seq<Msg>)
    requires k > 0 && m.id in u && u[m.id] == m
    ensures g in Groups(InIdOrder(u), k) && m in g
  {
    var ms, ids := InIdOrder(u), SortedIds(u.Keys);
    var i :| 0 <= i < |ids| && ids[i] == m.id;
    assert ms[i] == m;
    GroupsFlatten(ms, k);
    var j := MemberOfFlatten(Groups(ms, k), m);
    g := Groups(ms, k)[j];
  }

  lemma CannotBePublished(limit: nat, encoded: Msg -> seq<byte>, g: seq<Msg>, m: Msg)
    requires Sized(encoded) && m in g && Unpublishable(limit, m.size)
    ensures !PublishOk(limit, Entries(encoded, g))
  {
    var es, e := Entries(encoded, g), Entry(m.id, encoded(m));
    var i :| 0 <= i < |g| && g[i] == m;
    assert es[i] == e;
    if InGap(limit, e) { GapMessageCannotBePublished(limit, es, e); } else { OversizedBodyCannotBePublished(limit, es, e); }
  }

  /** With such a message unconfirmed, the resending loop of a reconnect always throws. */
  lemma ReconnectThrows(encoded: Msg -> seq<byte>, s: State, e: Event, m: Msg)
    requires Sized(encoded) && Enabled(s, e) && FramedStep(encoded, s, e) && e.ReconnectFinish? && s.stop.NotStopped?
    requires Unconfirmed(s, m) && Unpublishable(s.cfg.maxFrame, m.size)
    ensures e.threw
  {
    if s.cfg.capacity > 0 {
      var g := InGroups(s.store.unconfirmed, s.cfg.capacity, m);
      CannotBePublished(s.cfg.maxFrame, encoded, g, m);
    }
  }

  lemma NoClientStays(s: State, e: Event)
    requires Enabled(s, e) && s.link.client.None? && (e.ReconnectFinish? && s.stop.NotStopped? ==> e.threw)
    ensures Apply(s, e).link.client.None? && Apply(s, e).cfg == s.cfg
  {
  }

  /** `m` is unconfirmed in every state of the run. */
  ghost predicate StaysUnconfirmed(s: State, es: seq<Event>, m: Msg)
    decreases |es|
  {
    Unconfirmed(s, m) && (es == [] || (Enabled(s, es[0]) && StaysUnconfirmed(Apply(s, es[0]), es[1..], m)))
  }

  /**
   Main result. A message that the accumulator admitted and send_frame cannot let out blocks
   recovery: once the client is lost, the producer has no client in any state of any run for
   as long as that message is unconfirmed.
   */
  lemma {:induction false} UnpublishableBlocksRecovery(encoded: Msg -> seq<byte>, s: State, es: seq<Event>, t: State, m: Msg)
    requires Sized(encoded) && Run(s, es, t) && FramedRun(encoded, s, es)
    requires s.link.client.None? && StaysUnconfirmed(s, es, m) && Unpublishable(s.cfg.maxFrame, m.size)
    ensures t.link.client.None?
    decreases |es|
  {
    if es != [] {
      if es[0].ReconnectFinish? && s.stop.NotStopped? { ReconnectThrows(encoded, s, es[0], m); }
      NoClientStays(s, es[0]);
      UnpublishableBlocksRecovery(encoded, Apply(s, es[0]), es[1..], t, m);
    }
  }
}
