/** One sending thread with automatic ids: publishing order on every connection. */
module ProducerOrder {
  import opened Prelude
  import opened ProducerModel
  import opened ProducerConservation
  import opened ProducerGuarantees

  // ---- the queue of ids on their way to publication

  function DraftIds(ds: seq<Draft>): (ids: seq<nat>)
    ensures |ids| == |ds|
  {
    seq(|ds|, i requires 0 <= i < |ds| => ds[i].id)
  }

  function WaiterIds(ws: seq<Waiter>): (ids: seq<nat>)
    ensures |ids| == |ws|
  {
    seq(|ws|, i requires 0 <= i < |ws| => ws[i].id)
  }

  ghost function InFlight(sn: Senders): seq<nat> {
    WaiterIds(sn.waiters) + DraftIds(sn.holders) + DraftIds(sn.drafts)
  }

  /** Ids not yet published, in the order they will be, ended by the next id to give out. */
  ghost function Queue(s: State): seq<nat> {
    Ids(Batch(s.store)) + Ids(s.store.pending) + InFlight(s.senders) + [s.senders.nextId]
  }

  /** One thread sends, only with automatic ids, and the 64-bit counter does not wrap. */
  ghost predicate AutoStep(s: State, e: Event) {
    && !e.SendId?
    && (e.TakeId? ==> |InFlight(s.senders)| == 0 && s.senders.nextId + 1 < U64)
  }

  ghost predicate AutoRun(s: State, es: seq<Event>)
    decreases |es|
  {
    es == [] || (Enabled(s, es[0]) && AutoStep(s, es[0]) && AutoRun(Apply(s, es[0]), es[1..]))
  }

  /** Every id ever handed to a connection, and every unconfirmed one, is below `b`. */
  ghost predicate Below(l: Link, u: map<nat, Msg>, b: nat) {
    && (forall x :: x in u ==> x < b)
    && (forall k, i :: 0 <= k < |l.conns| && 0 <= i < |l.conns[k]| ==> l.conns[k][i].id < b)
  }

  ghost predicate AllAscending(conns: seq<seq<Msg>>) {
    forall k :: 0 <= k < |conns| ==> Ascending(Ids(conns[k]))
  }

  ghost predicate Ordered(s: State) {
    && |InFlight(s.senders)| <= 1
    && Ascending(Queue(s))
    && Below(s.link, s.store.unconfirmed, Queue(s)[0])
    && AllAscending(s.link.conns)
    && Keyed(s.store.unconfirmed)
  }

  /** The order of `q` carries over to `p`, whose head is no lower. */
  ghost predicate Follows(q: seq<nat>, p: seq<nat>)
    requires q != [] && p != []
  {
    Ascending(q) ==> Ascending(p) && q[0] <= p[0]
  }

  lemma DropFollows(q: seq<nat>, n: nat)
    requires n < |q|
    ensures Follows(q, q[n..])
  {
  }

  lemma RemoveFollows(q: seq<nat>, n: nat)
    requires n + 1 < |q|
    ensures Follows(q, RemoveAt(q, n))
  {
  }

  lemma OneSender(sn: Senders)
    requires |InFlight(sn)| <= 1
    ensures |sn.drafts| + |sn.holders| + |sn.waiters| <= 1
    ensures |sn.drafts| == 1 ==> InFlight(sn) == [sn.drafts[0].id]
    ensures |sn.holders| == 1 ==> InFlight(sn) == [sn.holders[0].id]
    ensures |sn.waiters| == 1 ==> InFlight(sn) == [sn.waiters[0].id]
  {
  }

  /** A send in progress keeps its place, is refused, or is accepted at the end of pending. */
  ghost predicate Moved(s: State, t: State) {
    && t.senders.nextId == s.senders.nextId && Batch(t.store) == Batch(s.store)
    && |InFlight(s.senders)| == 1
    && (|| (InFlight(t.senders) == InFlight(s.senders) && t.store.pending == s.store.pending)
        || (InFlight(t.senders) == [] && t.store.pending == s.store.pending)
        || (InFlight(t.senders) == [] && Ids(t.store.pending) == Ids(s.store.pending) + InFlight(s.senders)))
  }

  lemma SenderMoves(s: State, e: Event)
    requires |InFlight(s.senders)| <= 1 && Enabled(s, e)
    requires e.Acquire? || e.GiveUp? || e.EncodeFail? || e.Admit? || e.Enqueue?
    ensures Moved(s, Apply(s, e))
  {
    OneSender(s.senders);
    match e
    case Acquire(i) => AcquireMoves(s, i);
    case GiveUp(i) => GiveUpMoves(s, i);
    case EncodeFail(i) => EncodeFailMoves(s);
    case Admit(i) => AdmitMoves(s);
    case Enqueue(i) => EnqueueMoves(s);
  }

  lemma AcquireMoves(s: State, i: nat)
    requires |InFlight(s.senders)| <= 1 && Enabled(s, Acquire(i))
    ensures Moved(s, Apply(s, Acquire(i)))
  {
    var t := Apply(s, Acquire(i));
    OneSender(s.senders);
    OneSender(t.senders);
    assert t.senders.holders == [s.senders.drafts[0]];
  }

  lemma GiveUpMoves(s: State, i: nat)
    requires |InFlight(s.senders)| <= 1 && Enabled(s, GiveUp(i))
    ensures Moved(s, Apply(s, GiveUp(i)))
  {
    OneSender(s.senders);
  }

  lemma EncodeFailMoves(s: State)
    requires s.senders.drafts == [] && |s.senders.holders| == 1 && s.senders.waiters == []
    ensures var t := DropHolder(s, 0);
            t.senders.nextId == s.senders.nextId && t.store == s.store && InFlight(t.senders) == []
  {
    assert DropHolder(s, 0).senders == Senders(s.senders.nextId, [], [], []);
  }

  lemma AdmitMoves(s: State)
    requires s.senders.drafts == [] && |s.senders.holders| == 1 && s.senders.waiters == []
    ensures var t := AdmitStep(s, 0);
            && t.senders.nextId == s.senders.nextId && t.store == s.store
            && (InFlight(t.senders) == InFlight(s.senders) || InFlight(t.senders) == [])
  {
    var d := s.senders.holders[0];
    var t := AdmitStep(s, 0);
    if FitsAccumulator(s.cfg.maxFrame, d.size) {
      assert t.senders == Senders(s.senders.nextId, [], [], [Waiter(d.id, s.now, d.size)]);
      OneSender(t.senders);
    } else {
      assert t.senders == Senders(s.senders.nextId, [], [], []);
    }
    OneSender(s.senders);
  }

  lemma EnqueueMoves(s: State)
    requires s.senders.drafts == [] && s.senders.holders == [] && |s.senders.waiters| == 1
    ensures var t := EnqueueStep(s, 0);
            && t.senders.nextId == s.senders.nextId && Batch(t.store) == Batch(s.store)
            && InFlight(t.senders) == []
            && (t.store.pending == s.store.pending || Ids(t.store.pending) == Ids(s.store.pending) + InFlight(s.senders))
  {
    var t := EnqueueStep(s, 0);
    assert t.senders == Senders(s.senders.nextId, [], [], []);
    OneSender(s.senders);
    if !s.stop.AccumulatorDestroyed() {
      assert Ids(t.store.pending) == Ids(s.store.pending) + [s.senders.waiters[0].id];
    }
  }

  lemma SenderQueue(s: State, e: Event)
    requires |InFlight(s.senders)| <= 1 && Enabled(s, e)
    requires e.Acquire? || e.GiveUp? || e.EncodeFail? || e.Admit? || e.Enqueue?
    ensures |InFlight(Apply(s, e).senders)| <= 1
    ensures Follows(Queue(s), Queue(Apply(s, e)))
  {
    SenderMoves(s, e);
    var t := Apply(s, e);
    QueueTail(Ids(Batch(s.store)), Ids(s.store.pending), InFlight(s.senders),
              Ids(t.store.pending), InFlight(t.senders), s.senders.nextId);
  }

  lemma QueueTail(b: seq<nat>, p: seq<nat>, f: seq<nat>, p': seq<nat>, f': seq<nat>, n: nat)
    requires |f| == 1
    requires (f' == f && p' == p) || (f' == [] && p' == p) || (f' == [] && p' == p + f)
    ensures Follows(b + p + f + [n], b + p' + f' + [n])
  {
    var q := b + p + f + [n];
    if f' == [] && p' == p {
      assert b + p' + f' + [n] == RemoveAt(q, |q| - 2);
      RemoveFollows(q, |q| - 2);
    } else {
      assert b + p' + f' + [n] == q;
    }
  }

  lemma StoreQueue(s: State, e: Event)
    requires Enabled(s, e) && (e.BatchExtract? || e.BatchPublish? || e.StopFail?)
    ensures Apply(s, e).senders == s.senders
    ensures Follows(Queue(s), Queue(Apply(s, e)))
  {
    var q := Queue(s);
    var n := if e.BatchExtract? then 0 else if e.BatchPublish? then |Batch(s.store)| else |s.store.pending|;
    assert Queue(Apply(s, e)) == q[n..];
    DropFollows(q, n);
  }

  predicate Queueing(e: Event) {
    e.TakeId? || e.SendId? || e.Acquire? || e.GiveUp? || e.EncodeFail? || e.Admit? || e.Enqueue?
    || e.BatchExtract? || e.BatchPublish? || e.StopFail?
  }

  lemma SameQueue(s: State, e: Event)
    requires Enabled(s, e) && !Queueing(e)
    ensures Apply(s, e).senders == s.senders && Apply(s, e).store.pending == s.store.pending
    ensures Batch(Apply(s, e).store) == Batch(s.store)
  {
  }

  lemma StepQueue(s: State, e: Event)
    requires |InFlight(s.senders)| <= 1 && Enabled(s, e) && AutoStep(s, e) && !e.TakeId?
    ensures |InFlight(Apply(s, e).senders)| <= 1
    ensures Follows(Queue(s), Queue(Apply(s, e)))
  {
    if !Queueing(e) {
      SameQueue(s, e);
    } else if e.BatchExtract? || e.BatchPublish? || e.StopFail? {
      StoreQueue(s, e);
    } else {
      SenderQueue(s, e);
    }
  }

  lemma TakeIdOrdered(s: State, e: Event)
    requires Ordered(s) && Enabled(s, e) && AutoStep(s, e) && e.TakeId?
    ensures Ordered(Apply(s, e))
  {
    var t := Apply(s, e);
    var n := s.senders.nextId;
    var before := Ids(Batch(s.store)) + Ids(s.store.pending);
    assert Queue(s) == before + [n];
    assert Batch(t.store) == Batch(s.store) && t.senders.nextId == n + 1;
    if s.stop.NotStopped? {
      assert InFlight(t.senders) == [n];
      assert Queue(t) == before + [n] + [n + 1];
      ExtendAscending(before + [n], n + 1);
    } else {
      assert InFlight(t.senders) == [];
      assert Queue(t) == before + [n + 1];
      RaiseLast(before, n);
    }
  }

  lemma ExtendAscending(a: seq<nat>, x: nat)
    requires Ascending(a) && a != [] && a[|a| - 1] < x
    ensures Ascending(a + [x])
  {
  }

  lemma RaiseLast(a: seq<nat>, x: nat)
    requires Ascending(a + [x])
    ensures Ascending(a + [x + 1]) && (a + [x])[0] <= (a + [x + 1])[0]
  {
    assert (a + [x])[|a|] == x;
    assert forall i :: 0 <= i < |a| ==> a[i] == (a + [x])[i];
  }

  lemma AscendingAppend(a: seq<nat>, b: seq<nat>)
    requires Ascending(a) && Ascending(b)
    requires forall i, j :: 0 <= i < |a| && 0 <= j < |b| ==> a[i] < b[j]
    ensures Ascending(a + b)
  {
  }

  /** Handing over the first messages of the queue keeps every connection ascending. */
  lemma HandOrdered(l: Link, u: map<nat, Msg>, batch: seq<Msg>, rest: seq<nat>, sent: nat, threw: bool)
    requires rest != [] && sent <= |batch| && Ascending(Ids(batch) + rest) && AllAscending(l.conns)
    requires Below(l, u, (Ids(batch) + rest)[0])
    ensures AllAscending(Hand(l, batch[..sent], threw).conns)
    ensures Below(Hand(l, batch[..sent], threw), map[], rest[0])
  {
    var q, ms := Ids(batch) + rest, batch[..sent];
    assert q[|batch|] == rest[0];
    assert forall i :: 0 <= i < sent ==> ms[i].id == Ids(ms)[i] == q[i];
    if l.client.Some? && l.client.value < |l.conns| {
      var conn := l.conns[l.client.value];
      assert Ids(conn + ms) == Ids(conn) + Ids(ms);
      AscendingAppend(Ids(conn), Ids(ms));
    }
  }

  lemma EmplacedBelow(u: map<nat, Msg>, batch: seq<Msg>, b: nat)
    requires Keyed(u) && (forall x :: x in u ==> x < b) && forall i :: 0 <= i < |batch| ==> Ids(batch)[i] < b
    ensures Keyed(EmplaceAll(u, batch)) && forall x :: x in EmplaceAll(u, batch) ==> x < b
  {
    EmplaceAllKeys(u, batch);
    EmplaceAllBag(u, batch);
  }

  lemma PublishOrdered(s: State, e: Event)
    requires Ordered(s) && Enabled(s, e) && e.BatchPublish?
    ensures Ordered(Apply(s, e))
  {
    var t := Apply(s, e);
    var ids, rest := Ids(Batch(s.store)), Queue(t);
    assert InFlight(t.senders) == InFlight(s.senders);
    assert Queue(s) == ids + rest;
    StoreQueue(s, e);
    HandOrdered(s.link, s.store.unconfirmed, Batch(s.store), rest, e.sent, e.threw);
    assert forall i :: 0 <= i < |ids| ==> ids[i] == Queue(s)[i] < Queue(s)[|ids|] == rest[0];
    EmplacedBelow(s.store.unconfirmed, Batch(s.store), rest[0]);
  }

  lemma ResendOrdered(l: Link, u: map<nat, Msg>, ms: seq<Msg>, threw: bool, b: nat)
    requires AllAscending(l.conns) && Below(l, u, b)
    requires Ascending(Ids(ms)) && forall m :: m in ms ==> m.id in u
    ensures AllAscending(Resend(l, ms, threw).conns) && Below(Resend(l, ms, threw), u, b)
  {
    var conns := Resend(l, ms, threw).conns;
    assert conns == l.conns + [ms];
    assert forall k :: 0 <= k < |l.conns| ==> conns[k] == l.conns[k];
    assert forall i :: 0 <= i < |ms| ==> ms[i] in ms;
  }

  lemma PrefixAscending(u: map<nat, Msg>, sent: nat)
    requires Keyed(u) && sent <= |u|
    ensures var ms := InIdOrder(u)[..sent];
            Ascending(Ids(ms)) && forall m :: m in ms ==> m.id in u
  {
    InIdOrderExact(u);
    var all, ms := InIdOrder(u), InIdOrder(u)[..sent];
    assert forall i :: 0 <= i < sent ==> ms[i] == all[i] && Ids(ms)[i] == Ids(all)[i];
    forall m | m in ms ensures m.id in u { assert m in all; }
  }

  lemma ReconnectOrdered(s: State, e: Event)
    requires Ordered(s) && Enabled(s, e) && e.ReconnectFinish?
    ensures Ordered(Apply(s, e))
  {
    SameQueue(s, e);
    var handed := InIdOrder(s.store.unconfirmed)[..e.sent];
    PrefixAscending(s.store.unconfirmed, e.sent);
    ResendOrdered(s.link, s.store.unconfirmed, handed, e.threw, Queue(s)[0]);
    var t := Apply(s, e);
    assert t.store == s.store && Queue(t) == Queue(s);
    assert t.link == Resend(s.link, handed, e.threw) || t.link.conns == s.link.conns;
  }

  lemma UnconfirmedShrinks(s: State, e: Event)
    requires Enabled(s, e) && !e.BatchPublish?
    ensures forall x :: x in Apply(s, e).store.unconfirmed ==>
                          x in s.store.unconfirmed && Apply(s, e).store.unconfirmed[x] == s.store.unconfirmed[x]
  {
    match e
    case Confirm(id) => WithoutKeys(s.store.unconfirmed, [id]);
    case PublishError(id, _) => WithoutKeys(s.store.unconfirmed, [id]);
    case Expire => WithoutKeys(s.store.unconfirmed, Expired(s));
    case _ =>
  }

  lemma SameConns(s: State, e: Event)
    requires Enabled(s, e) && !e.BatchPublish? && !e.ReconnectFinish?
    ensures Apply(s, e).link.conns == s.link.conns
  {
  }

  lemma StepOrdered(s: State, e: Event)
    requires Ordered(s) && Enabled(s, e) && AutoStep(s, e)
    ensures Ordered(Apply(s, e))
  {
    if e.TakeId? {
      TakeIdOrdered(s, e);
    } else if e.BatchPublish? {
      PublishOrdered(s, e);
    } else if e.ReconnectFinish? {
      ReconnectOrdered(s, e);
    } else {
      StepQueue(s, e);
      UnconfirmedShrinks(s, e);
      SameConns(s, e);
    }
  }

  lemma {:induction false} RunOrdered(s: State, es: seq<Event>, t: State)
    requires Ordered(s) && Run(s, es, t) && AutoRun(s, es)
    ensures Ordered(t)
    decreases |es|
  {
    if es != [] {
      StepOrdered(s, es[0]);
      RunOrdered(Apply(s, es[0]), es[1..], t);
    }
  }

  lemma InitialOrdered(cfg: Config, firstId: nat)
    ensures Ordered(Initial(cfg, firstId))
  {
    var s := Initial(cfg, firstId);
    assert Queue(s) == [firstId];
  }

  /**
   Main result. For one sending thread with automatic ids, the publishing ids handed to
   each connection strictly increase over the connection's whole life, resends included;
   every unconfirmed id is below every pending one, and those are below the next id.
   */
  lemma IdsIncreaseOnEveryConnection(cfg: Config, firstId: nat, es: seq<Event>, t: State)
    requires Run(Initial(cfg, firstId), es, t) && AutoRun(Initial(cfg, firstId), es)
    ensures forall k :: 0 <= k < |t.link.conns| ==> Ascending(Ids(t.link.conns[k]))
    ensures Ascending(Ids(t.store.pending))
    ensures forall x :: x in t.store.unconfirmed ==> x < t.senders.nextId
    ensures forall x, y :: x in t.store.unconfirmed && y in Ids(t.store.pending) ==> x < y < t.senders.nextId
  {
    InitialOrdered(cfg, firstId);
    RunOrdered(Initial(cfg, firstId), es, t);
    QueueParts(Ids(Batch(t.store)), Ids(t.store.pending), InFlight(t.senders), t.senders.nextId);
  }

  lemma QueueParts(b: seq<nat>, p: seq<nat>, f: seq<nat>, n: nat)
    requires Ascending(b + p + f + [n])
    ensures Ascending(p) && (b + p + f + [n])[0] <= n
    ensures forall y :: y in p ==> (b + p + f + [n])[0] <= y < n
  {
    var q := b + p + f + [n];
    assert forall i :: 0 <= i < |p| ==> p[i] == q[|b| + i];
    assert q[|q| - 1] == n;
  }

  /** Such a thread never reuses a live id, so none of its messages is dropped. */
  lemma {:induction false} AutoRunsAreFresh(s: State, es: seq<Event>)
    requires Ordered(s) && AutoRun(s, es)
    ensures FreshRun(s, es)
    decreases |es|
  {
    if es != [] {
      if es[0].Enqueue? { WaiterIsFresh(s, es[0].i); }
      StepOrdered(s, es[0]);
      AutoRunsAreFresh(Apply(s, es[0]), es[1..]);
    }
  }

  lemma WaiterIsFresh(s: State, i: nat)
    requires Ordered(s) && i < |s.senders.waiters|
    ensures !LiveId(s.store, s.senders.waiters[i].id)
  {
    OneSender(s.senders);
    var b, p, id := Ids(Batch(s.store)), Ids(s.store.pending), s.senders.waiters[i].id;
    assert Queue(s) == b + p + [id] + [s.senders.nextId];
    BeforeInFlight(b, p, id, s.senders.nextId);
  }

  lemma BeforeInFlight(b: seq<nat>, p: seq<nat>, id: nat, n: nat)
    requires Ascending(b + p + [id] + [n])
    ensures (b + p + [id] + [n])[0] <= id
    ensures forall x :: x in b || x in p ==> x < id
  {
    var q := b + p + [id] + [n];
    assert q[|b| + |p|] == id;
    assert forall i :: 0 <= i < |b| ==> b[i] == q[i];
    assert forall i :: 0 <= i < |p| ==> p[i] == q[|b| + i];
  }

  /** The counter is 64 bits wide: at its top the next automatic id starts again at zero. */
  lemma AutomaticIdsWrap(cfg: Config, size: nat)
    ensures var s := Initial(cfg, U64 - 1);
            Enabled(s, TakeId(size)) && Apply(s, TakeId(size)).senders.nextId == 0
            && Apply(s, TakeId(size)).senders.drafts == [Draft(U64 - 1, size)]
  {
  }
}
