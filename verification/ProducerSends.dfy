/** What becomes of every send: accepted as it was sent, refused, or still on its way; and which ids are given out. */
module ProducerSends {
  import opened Prelude
  import opened ProducerModel
  import opened ProducerConservation
  import opened ProducerGuarantees
  import opened ProducerOrder
  import opened ProducerHistory

  // ---- id and size

  function WaiterDrafts(ws: seq<Waiter>): seq<Draft> {
    seq(|ws|, i requires 0 <= i < |ws| => Draft(ws[i].id, ws[i].size))
  }

  function MsgDrafts(ms: seq<Msg>): seq<Draft> {
    seq(|ms|, i requires 0 <= i < |ms| => Draft(ms[i].id, ms[i].size))
  }

  /** The send an event starts; a stopped producer refuses at once. */
  ghost function SentBy(s: State, e: Event): multiset<Draft> {
    if !s.stop.NotStopped? then multiset{}
    else match e
      case TakeId(size) => multiset{Draft(s.senders.nextId, size)}
      case SendId(id, size) => multiset{Draft(id, size)}
      case _ => multiset{}
  }

  /** The send an event makes fail: no permit, no encoding, too big, or a destroyed accumulator. */
  ghost function RefusedBy(s: State, e: Event): multiset<Draft>
    requires Enabled(s, e)
  {
    match e
    case GiveUp(i) => multiset{s.senders.drafts[i]}
    case EncodeFail(i) => multiset{s.senders.holders[i]}
    case Admit(i) =>
      if FitsAccumulator(s.cfg.maxFrame, s.senders.holders[i].size) then multiset{} else multiset{s.senders.holders[i]}
    case Enqueue(i) =>
      if s.stop.AccumulatorDestroyed() then multiset{Draft(s.senders.waiters[i].id, s.senders.waiters[i].size)} else multiset{}
    case _ => multiset{}
  }

  ghost function InProgress(sn: Senders): multiset<Draft> {
    multiset(sn.drafts) + multiset(sn.holders) + multiset(WaiterDrafts(sn.waiters))
  }

  ghost function Parcels(s: State): multiset<Draft> {
    InProgress(s.senders) + multiset(MsgDrafts(s.store.accepted))
  }

  lemma Regroup(a: multiset<Draft>, b: multiset<Draft>, c: multiset<Draft>, d: multiset<Draft>, x: multiset<Draft>)
    ensures ((a + x) + b + c) + d == ((a + b + c) + d) + x
    ensures (a + (b + x) + c) + d == ((a + b + c) + d) + x
    ensures (a + b + (c + x)) + d == ((a + b + c) + d) + x
    ensures (a + b + c) + (d + x) == ((a + b + c) + d) + x
  {
  }

  lemma WaitersRemove(ws: seq<Waiter>, i: nat)
    requires i < |ws|
    ensures multiset(WaiterDrafts(ws)) == multiset(WaiterDrafts(RemoveAt(ws, i))) + multiset{Draft(ws[i].id, ws[i].size)}
  {
    assert WaiterDrafts(RemoveAt(ws, i)) == RemoveAt(WaiterDrafts(ws), i);
    RemoveAtMultiset(WaiterDrafts(ws), i);
  }

  lemma StartParcels(s: State, e: Event)
    requires Enabled(s, e) && (e.TakeId? || e.SendId?)
    ensures Parcels(Apply(s, e)) == Parcels(s) + SentBy(s, e)
  {
    Regroup(multiset(s.senders.drafts), multiset(s.senders.holders), multiset(WaiterDrafts(s.senders.waiters)),
            multiset(MsgDrafts(s.store.accepted)), SentBy(s, e));
  }

  lemma AcquireParcels(s: State, i: nat)
    requires Enabled(s, Acquire(i))
    ensures Parcels(Apply(s, Acquire(i))) == Parcels(s)
  {
    var t, x := Apply(s, Acquire(i)), multiset{s.senders.drafts[i]};
    RemoveAtMultiset(s.senders.drafts, i);
    var a, b := multiset(t.senders.drafts), multiset(s.senders.holders);
    var c, d := multiset(WaiterDrafts(s.senders.waiters)), multiset(MsgDrafts(s.store.accepted));
    assert multiset(s.senders.drafts) == a + x && multiset(t.senders.holders) == b + x;
    Regroup(a, b, c, d, x);
  }

  lemma GiveUpParcels(s: State, i: nat)
    requires Enabled(s, GiveUp(i))
    ensures Parcels(s) == Parcels(Apply(s, GiveUp(i))) + multiset{s.senders.drafts[i]}
  {
    var t, x := Apply(s, GiveUp(i)), multiset{s.senders.drafts[i]};
    RemoveAtMultiset(s.senders.drafts, i);
    assert multiset(s.senders.drafts) == multiset(t.senders.drafts) + x;
    Regroup(multiset(t.senders.drafts), multiset(s.senders.holders), multiset(WaiterDrafts(s.senders.waiters)),
            multiset(MsgDrafts(s.store.accepted)), x);
  }

  lemma DropParcels(s: State, i: nat)
    requires i < |s.senders.holders|
    ensures Parcels(s) == Parcels(DropHolder(s, i)) + multiset{s.senders.holders[i]}
  {
    var t, x := DropHolder(s, i), multiset{s.senders.holders[i]};
    RemoveAtMultiset(s.senders.holders, i);
    assert multiset(s.senders.holders) == multiset(t.senders.holders) + x;
    Regroup(multiset(s.senders.drafts), multiset(t.senders.holders), multiset(WaiterDrafts(s.senders.waiters)),
            multiset(MsgDrafts(s.store.accepted)), x);
  }

  lemma AdmitParcels(s: State, i: nat)
    requires i < |s.senders.holders| && FitsAccumulator(s.cfg.maxFrame, s.senders.holders[i].size)
    ensures Parcels(AdmitStep(s, i)) == Parcels(s)
  {
    var t, d := AdmitStep(s, i), s.senders.holders[i];
    RemoveAtMultiset(s.senders.holders, i);
    assert WaiterDrafts(t.senders.waiters) == WaiterDrafts(s.senders.waiters) + [d];
    var a, b := multiset(s.senders.drafts), multiset(t.senders.holders);
    var c, m := multiset(WaiterDrafts(s.senders.waiters)), multiset(MsgDrafts(s.store.accepted));
    assert multiset(s.senders.holders) == b + multiset{d} && multiset(WaiterDrafts(t.senders.waiters)) == c + multiset{d};
    Regroup(a, b, c, m, multiset{d});
  }

  lemma EnqueueParcels(s: State, i: nat)
    requires i < |s.senders.waiters|
    ensures Parcels(EnqueueStep(s, i)) + RefusedAtTheEnd(s, i) == Parcels(s)
  {
    var t, w := EnqueueStep(s, i), s.senders.waiters[i];
    var x := multiset{Draft(w.id, w.size)};
    WaitersRemove(s.senders.waiters, i);
    var a, b := multiset(s.senders.drafts), multiset(s.senders.holders);
    var c, m := multiset(WaiterDrafts(t.senders.waiters)), multiset(MsgDrafts(s.store.accepted));
    if !s.stop.AccumulatorDestroyed() {
      assert MsgDrafts(t.store.accepted) == MsgDrafts(s.store.accepted) + [Draft(w.id, w.size)];
    }
    Regroup(a, b, c, m, x);
  }

  ghost function RefusedAtTheEnd(s: State, i: nat): multiset<Draft>
    requires i < |s.senders.waiters|
  {
    if s.stop.AccumulatorDestroyed() then multiset{Draft(s.senders.waiters[i].id, s.senders.waiters[i].size)} else multiset{}
  }

  lemma OtherParcels(s: State, e: Event)
    requires Enabled(s, e) && !e.TakeId? && !e.SendId? && !e.Acquire? && !e.GiveUp? && !e.EncodeFail? && !e.Admit? && !e.Enqueue?
    ensures Apply(s, e).senders == s.senders && Apply(s, e).store.accepted == s.store.accepted
  {
  }

  lemma StepParcels(s: State, e: Event)
    requires Enabled(s, e)
    ensures Parcels(Apply(s, e)) + RefusedBy(s, e) == Parcels(s) + SentBy(s, e)
  {
    match e
    case TakeId(_) => StartParcels(s, e);
    case SendId(_, _) => StartParcels(s, e);
    case Acquire(i) => AcquireParcels(s, i);
    case GiveUp(i) => GiveUpParcels(s, i);
    case EncodeFail(i) => DropParcels(s, i);
    case Admit(i) =>
      if FitsAccumulator(s.cfg.maxFrame, s.senders.holders[i].size) { AdmitParcels(s, i); } else { DropParcels(s, i); }
    case Enqueue(i) => EnqueueParcels(s, i);
    case _ => OtherParcels(s, e);
  }

  ghost function SentIn(s: State, es: seq<Event>): multiset<Draft>
    decreases |es|
  {
    if es == [] || !Enabled(s, es[0]) then multiset{} else SentBy(s, es[0]) + SentIn(Apply(s, es[0]), es[1..])
  }

  ghost function RefusedIn(s: State, es: seq<Event>): multiset<Draft>
    decreases |es|
  {
    if es == [] || !Enabled(s, es[0]) then multiset{} else RefusedBy(s, es[0]) + RefusedIn(Apply(s, es[0]), es[1..])
  }

  lemma Chain(p: multiset<Draft>, q: multiset<Draft>, r: multiset<Draft>, a: multiset<Draft>, b: multiset<Draft>,
              c: multiset<Draft>, d: multiset<Draft>)
    requires q + a == p + b && r + c == q + d
    ensures r + (a + c) == p + (b + d)
  {
    assert r + (a + c) == (r + c) + a;
    assert (q + d) + a == (q + a) + d;
    assert p + (b + d) == (p + b) + d;
  }

  lemma {:induction false} RunParcels(s: State, es: seq<Event>, t: State)
    requires Run(s, es, t)
    ensures Parcels(t) + RefusedIn(s, es) == Parcels(s) + SentIn(s, es)
    decreases |es|
  {
    if es != [] {
      var m := Apply(s, es[0]);
      StepParcels(s, es[0]);
      RunParcels(m, es[1..], t);
      Chain(Parcels(s), Parcels(m), Parcels(t), RefusedBy(s, es[0]), SentBy(s, es[0]), RefusedIn(m, es[1..]), SentIn(m, es[1..]));
    }
  }

  /**
   Main result. No send is lost, made up or altered on its way: those started are, id and size,
   the accepted messages, the refused sends and those still in progress, each counted once.
   */
  lemma SendsConserved(cfg: Config, firstId: nat, es: seq<Event>, t: State)
    requires Run(Initial(cfg, firstId), es, t)
    ensures SentIn(Initial(cfg, firstId), es) ==
            InProgress(t.senders) + multiset(MsgDrafts(t.store.accepted)) + RefusedIn(Initial(cfg, firstId), es)
  {
    var s := Initial(cfg, firstId);
    RunParcels(s, es, t);
    assert Parcels(s) == multiset{};
  }

  // ---- time

  /** The message an admission lets in bears the time of that step. */
  ghost function AdmittedBy(s: State, e: Event): multiset<Waiter>
    requires Enabled(s, e)
  {
    if e.Admit? && FitsAccumulator(s.cfg.maxFrame, s.senders.holders[e.i].size) then
      multiset{Waiter(s.senders.holders[e.i].id, s.now, s.senders.holders[e.i].size)}
    else multiset{}
  }

  ghost function AdmittedIn(s: State, es: seq<Event>): multiset<Waiter>
    decreases |es|
  {
    if es == [] || !Enabled(s, es[0]) then multiset{} else AdmittedBy(s, es[0]) + AdmittedIn(Apply(s, es[0]), es[1..])
  }

  function AsWaiter(m: Msg): Waiter {
    Waiter(m.id, m.time, m.size)
  }

  /** Everything past the admission was admitted with its id, its time and its size. */
  ghost predicate Stamped(s: State, admitted: multiset<Waiter>) {
    && (forall w :: w in s.senders.waiters ==> w in admitted)
    && (forall m :: m in s.store.accepted ==> AsWaiter(m) in admitted)
  }

  lemma StepStamped(s: State, e: Event, admitted: multiset<Waiter>)
    requires Enabled(s, e) && Stamped(s, admitted)
    ensures Stamped(Apply(s, e), admitted + AdmittedBy(s, e))
    ensures Apply(s, e).now == s.now + if e.Tick? then e.elapsed else 0
  {
    var t := Apply(s, e);
    if e.Enqueue? {
      assert s.senders.waiters[e.i] in s.senders.waiters;
      assert forall w :: w in t.senders.waiters ==> w in s.senders.waiters;
    } else if e.Admit? {
      assert forall w :: w in t.senders.waiters ==> w in s.senders.waiters || w in AdmittedBy(s, e);
    } else {
      assert t.senders.waiters == s.senders.waiters && t.store.accepted == s.store.accepted;
    }
  }

  lemma {:induction false} RunStamped(s: State, es: seq<Event>, t: State, admitted: multiset<Waiter>)
    requires Run(s, es, t) && Stamped(s, admitted)
    ensures Stamped(t, admitted + AdmittedIn(s, es))
    decreases |es|
  {
    if es != [] {
      StepStamped(s, es[0], admitted);
      RunStamped(Apply(s, es[0]), es[1..], t, admitted + AdmittedBy(s, es[0]));
      assert admitted + (AdmittedBy(s, es[0]) + AdmittedIn(Apply(s, es[0]), es[1..])) ==
             (admitted + AdmittedBy(s, es[0])) + AdmittedIn(Apply(s, es[0]), es[1..]);
    }
  }

  /** A message's publish time is the time at which the accumulator admitted it, before it waited for room. */
  lemma PublishTimeIsAdmission(cfg: Config, firstId: nat, es: seq<Event>, t: State, m: Msg)
    requires Run(Initial(cfg, firstId), es, t) && m in t.store.accepted
    ensures Waiter(m.id, m.time, m.size) in AdmittedIn(Initial(cfg, firstId), es)
  {
    var s := Initial(cfg, firstId);
    RunStamped(s, es, t, multiset{});
    assert multiset{} + AdmittedIn(s, es) == AdmittedIn(s, es);
    assert AsWaiter(m) in AdmittedIn(s, es);
  }

  // ---- ids

  ghost function AutomaticSends(es: seq<Event>): nat {
    if es == [] then 0 else (if es[0].TakeId? then 1 else 0) + AutomaticSends(es[1..])
  }

  lemma NextId(x: nat, n: nat)
    ensures ((x % U64) + n) % U64 == (x + n) % U64
  {
  }

  lemma StepNextId(s: State, e: Event)
    requires Enabled(s, e)
    ensures Apply(s, e).senders.nextId == if e.TakeId? then (s.senders.nextId + 1) % U64 else s.senders.nextId
  {
  }

  lemma {:induction false} RunNextId(s: State, es: seq<Event>, t: State)
    requires Run(s, es, t) && s.senders.nextId < U64
    ensures t.senders.nextId == (s.senders.nextId + AutomaticSends(es)) % U64
    decreases |es|
  {
    if es != [] {
      StepNextId(s, es[0]);
      RunNextId(Apply(s, es[0]), es[1..], t);
      if es[0].TakeId? { NextId(s.senders.nextId + 1, AutomaticSends(es[1..])); }
    }
  }

  /** The next automatic id is the first one plus the automatic sends so far, refused ones included, in 64 bits. */
  lemma NextIdExactly(cfg: Config, firstId: nat, es: seq<Event>, t: State)
    requires Run(Initial(cfg, firstId), es, t) && firstId < U64
    ensures t.senders.nextId == (firstId + AutomaticSends(es)) % U64
  {
    RunNextId(Initial(cfg, firstId), es, t);
  }

  /** m_next_publishing_id at start: one past the sequence the broker reports, in 64 bits. */
  function FirstId(lastPublished: Option<nat>): nat {
    match lastPublished
    case None => 0
    case Some(last) => (last + 1) % U64
  }

  ghost predicate AllFrom(s: State, first: nat) {
    && s.senders.nextId >= first
    && (forall d :: d in s.senders.drafts || d in s.senders.holders ==> d.id >= first)
    && (forall w :: w in s.senders.waiters ==> w.id >= first)
    && (forall m :: m in s.store.accepted ==> m.id >= first)
  }

  lemma SenderFrom(s: State, e: Event, first: nat)
    requires AllFrom(s, first) && Enabled(s, e) && (e.Acquire? || e.GiveUp? || e.EncodeFail? || e.Admit? || e.Enqueue?)
    ensures AllFrom(Apply(s, e), first)
  {
    match e
    case Acquire(i) => assert s.senders.drafts[i] in s.senders.drafts;
    case GiveUp(i) =>
    case EncodeFail(i) =>
    case Admit(i) => assert s.senders.holders[i] in s.senders.holders;
    case Enqueue(i) => assert s.senders.waiters[i] in s.senders.waiters;
  }

  lemma StepFrom(s: State, e: Event, first: nat)
    requires AllFrom(s, first) && Enabled(s, e) && AutoStep(s, e)
    ensures AllFrom(Apply(s, e), first)
  {
    if e.Acquire? || e.GiveUp? || e.EncodeFail? || e.Admit? || e.Enqueue? {
      SenderFrom(s, e, first);
    } else if !e.TakeId? {
      OtherParcels(s, e);
    }
  }

  lemma {:induction false} RunFrom(s: State, es: seq<Event>, t: State, first: nat)
    requires AllFrom(s, first) && Run(s, es, t) && AutoRun(s, es)
    ensures AllFrom(t, first)
    decreases |es|
  {
    if es != [] {
      StepFrom(s, es[0], first);
      RunFrom(Apply(s, es[0]), es[1..], t, first);
    }
  }

  // ---- only what was accepted goes out

  lemma PlacesAccepted(st: Store, m: Msg)
    requires Conserved(st) && (m in Batch(st) || (m.id in st.unconfirmed && st.unconfirmed[m.id] == m))
    ensures m in st.accepted
  {
    if m in Batch(st) {
      assert m in multiset(Batch(st));
    } else {
      assert m in st.unconfirmed.Values;
      assert m in Bag(st.unconfirmed);
    }
    assert m in Places(st);
    assert m in multiset(st.accepted);
  }

  lemma HandedByAccepted(s: State, e: Event, c: nat, m: Msg)
    requires Conserved(s.store) && Enabled(s, e) && m in HandedBy(s, e, c)
    ensures m in s.store.accepted
  {
    if e.BatchPublish? {
      assert m in Batch(s.store);
    } else {
      InIdOrderExact(s.store.unconfirmed);
      assert m in InIdOrder(s.store.unconfirmed);
    }
    PlacesAccepted(s.store, m);
  }

  lemma AcceptedGrows(s: State, e: Event)
    requires Enabled(s, e)
    ensures s.store.accepted <= Apply(s, e).store.accepted
  {
  }

  lemma {:induction false} RunAcceptedGrows(s: State, es: seq<Event>, t: State)
    requires Run(s, es, t)
    ensures s.store.accepted <= t.store.accepted
    decreases |es|
  {
    if es != [] {
      AcceptedGrows(s, es[0]);
      RunAcceptedGrows(Apply(s, es[0]), es[1..], t);
    }
  }

  lemma {:induction false} RunHandedAccepted(s: State, es: seq<Event>, t: State, c: nat, m: Msg)
    requires Conserved(s.store) && Run(s, es, t) && m in HandedOn(s, es, c)
    ensures m in t.store.accepted
    decreases |es|
  {
    if m in HandedBy(s, es[0], c) {
      HandedByAccepted(s, es[0], c, m);
      RunAcceptedGrows(s, es, t);
    } else {
      StepConserved(s, es[0]);
      RunHandedAccepted(Apply(s, es[0]), es[1..], t, c, m);
    }
  }

  /** Main result. Whatever a connection was handed is a message that was accepted. */
  lemma HandedWereAccepted(cfg: Config, firstId: nat, es: seq<Event>, t: State, c: nat, m: Msg)
    requires Run(Initial(cfg, firstId), es, t) && c < |t.link.conns| && m in t.link.conns[c]
    ensures m in t.store.accepted
  {
    InitialConserved(cfg, firstId);
    ConnectionHistory(cfg, firstId, es, t, c);
    RunHandedAccepted(Initial(cfg, firstId), es, t, c, m);
  }

  /**
   Main result. A named producer with automatic ids that starts again never publishes under an
   id the broker has seen from it: unless the counter starts over, every id it hands to any
   connection is above the sequence the broker reported.
   */
  lemma NoIdReused(cfg: Config, lastPublished: nat, es: seq<Event>, t: State, c: nat, m: Msg)
    requires lastPublished + 1 < U64
    requires Run(Initial(cfg, FirstId(Some(lastPublished))), es, t) && AutoRun(Initial(cfg, FirstId(Some(lastPublished))), es)
    requires c < |t.link.conns| && m in t.link.conns[c]
    ensures m.id > lastPublished
  {
    var first := FirstId(Some(lastPublished));
    HandedWereAccepted(cfg, first, es, t, c, m);
    RunFrom(Initial(cfg, first), es, t, lastPublished + 1);
  }

  /** The first id given out: zero on a stream without history, else the one after the last, zero again after the largest. */
  lemma FirstIdFollows(last: nat)
    requires last < U64
    ensures FirstId(None) == 0
    ensures FirstId(Some(last)) == last + 1 <==> last != U64 - 1
    ensures last == U64 - 1 ==> FirstId(Some(last)) == 0
  {
  }
}
