/** What users of a producer may rely on over whole runs: an end for every message, and resends. */
module ProducerGuarantees {
  import opened Prelude
  import opened ProducerModel
  import opened ProducerConservation

  // ---- after the producer has stopped

  ghost predicate Empty(st: Store) {
    st.lock.Free? && st.pending == [] && st.unconfirmed == map[]
  }

  lemma StepDrained(s: State, e: Event)
    requires Enabled(s, e) && (s.stop.Drained? ==> Empty(s.store))
    ensures Apply(s, e).stop.Drained? ==> Empty(Apply(s, e).store)
    ensures s.stop.Drained? ==> Apply(s, e).stop.Drained? && Apply(s, e).store.accepted == s.store.accepted
    ensures s.stop.Drained? ==> Apply(s, e).store.lost == s.store.lost
  {
  }

  lemma {:induction false} RunDrained(s: State, es: seq<Event>, t: State)
    requires Run(s, es, t) && (s.stop.Drained? ==> Empty(s.store))
    ensures t.stop.Drained? ==> Empty(t.store)
    ensures s.stop.Drained? ==> t.stop.Drained? && t.store.accepted == s.store.accepted && t.store.lost == s.store.lost
    decreases |es|
  {
    if es != [] {
      StepDrained(s, es[0]);
      RunDrained(Apply(s, es[0]), es[1..], t);
    }
  }

  /**
   Main result. Once internal_stop has failed the leftovers, pending and unconfirmed are
   empty in every later state and nothing is accepted any more: each accepted message is
   with a handler thread, resolved, or was dropped by a repeated id.
   */
  lemma StopDrainsForever(cfg: Config, firstId: nat, es: seq<Event>, s: State, later: seq<Event>, t: State)
    requires Run(Initial(cfg, firstId), es, s) && s.stop.Drained?
    requires Run(s, later, t)
    ensures t.stop.Drained? && Empty(t.store) && t.store.accepted == s.store.accepted
    ensures multiset(t.store.accepted) ==
            multiset(Msgs(t.store.claims)) + multiset(Msgs(t.store.resolved)) + multiset(t.store.lost)
  {
    var init := Initial(cfg, firstId);
    RunDrained(init, es, s);
    RunDrained(s, later, t);
    InitialConserved(cfg, firstId);
    RunConserved(init, es, s);
    RunConserved(s, later, t);
    assert Bag(map[]) == multiset{};
  }

  // ---- distinct live publishing ids: nothing is dropped

  ghost predicate LiveId(st: Store, id: nat) {
    id in Ids(Batch(st)) || id in Ids(st.pending) || id in st.unconfirmed
  }

  /** No message is accepted while another one with its publishing id is live. */
  ghost predicate FreshStep(s: State, e: Event)
    requires Enabled(s, e)
  {
    e.Enqueue? && !s.stop.AccumulatorDestroyed() ==> !LiveId(s.store, s.senders.waiters[e.i].id)
  }

  ghost predicate FreshRun(s: State, es: seq<Event>)
    decreases |es|
  {
    es == [] || (Enabled(s, es[0]) && FreshStep(s, es[0]) && FreshRun(Apply(s, es[0]), es[1..]))
  }

  ghost predicate NoClash(st: Store) {
    && st.lost == []
    && Distinct(Ids(Batch(st)) + Ids(st.pending))
    && (forall x :: x in Ids(Batch(st)) + Ids(st.pending) ==> x !in st.unconfirmed)
  }

  lemma {:induction false} EmplaceAllKeys(u: map<nat, Msg>, ms: seq<Msg>)
    ensures forall k :: k in EmplaceAll(u, ms) <==> k in u || k in Ids(ms)
    decreases |ms|
  {
    if ms != [] {
      EmplaceAllKeys(Emplace(u, ms[0]), ms[1..]);
      assert Ids(ms) == [ms[0].id] + Ids(ms[1..]);
    }
  }

  lemma DistinctParts<T>(a: seq<T>, b: seq<T>)
    requires Distinct(a + b)
    ensures Distinct(a) && Distinct(b) && forall x :: x in a ==> x !in b
  {
    var ab := a + b;
    assert forall i :: 0 <= i < |a| ==> a[i] == ab[i];
    assert forall j :: 0 <= j < |b| ==> b[j] == ab[|a| + j];
  }

  lemma DistinctSnoc<T>(a: seq<T>, x: T)
    requires Distinct(a) && x !in a
    ensures Distinct(a + [x])
  {
  }

  lemma AcceptNoClash(st: Store, w: Waiter)
    requires NoClash(st) && !LiveId(st, w.id)
    ensures NoClash(Accept(st, w))
  {
    var a := Ids(Batch(st)) + Ids(st.pending);
    DistinctSnoc(a, w.id);
    assert Ids(Batch(st)) + Ids(Accept(st, w).pending) == a + [w.id];
  }

  lemma RecordNoClash(st: Store)
    requires NoClash(st)
    ensures NoClash(Record(st))
  {
    var batch := Batch(st);
    DistinctParts(Ids(batch), Ids(st.pending));
    EmplaceLossless(st.unconfirmed, batch);
    EmplaceAllKeys(st.unconfirmed, batch);
    assert forall x :: x in Ids(st.pending) ==> x in Ids(batch) + Ids(st.pending);
    assert forall i :: 0 <= i < |batch| ==> Ids(batch)[i] in Ids(batch) + Ids(st.pending);
  }

  lemma ClaimNoClash(st: Store, ids: seq<nat>, confirmed: bool, code: nat)
    requires NoClash(st) && forall x :: x in ids ==> x in st.unconfirmed
    ensures NoClash(ClaimIds(st, ids, confirmed, code))
  {
    WithoutKeys(st.unconfirmed, ids);
  }

  lemma StepNoClash(s: State, e: Event)
    requires NoClash(s.store) && Enabled(s, e) && FreshStep(s, e)
    ensures NoClash(Apply(s, e).store)
  {
    match e
    case Enqueue(i) =>
      if !s.stop.AccumulatorDestroyed() { AcceptNoClash(s.store, s.senders.waiters[i]); }
    case BatchExtract => assert Ids(s.store.pending) + Ids([]) == Ids([]) + Ids(s.store.pending);
    case BatchPublish(_, _) => RecordNoClash(s.store);
    case Confirm(id) => if id in s.store.unconfirmed { ClaimNoClash(s.store, [id], true, OK); }
    case PublishError(id, code) => if id in s.store.unconfirmed { ClaimNoClash(s.store, [id], false, code); }
    case Expire => ClaimNoClash(s.store, Expired(s), false, ExpireCode(s));
    case _ =>
  }

  lemma {:induction false} RunNoClash(s: State, es: seq<Event>, t: State)
    requires NoClash(s.store) && Run(s, es, t) && FreshRun(s, es)
    ensures NoClash(t.store)
    decreases |es|
  {
    if es != [] {
      StepNoClash(s, es[0]);
      RunNoClash(Apply(s, es[0]), es[1..], t);
    }
  }

  /**
   Main result. With distinct live ids nothing is ever dropped, and once the stop has
   drained the producer and the last handler has returned, every accepted message was
   resolved exactly once.
   */
  lemma EveryMessageResolvedOnce(cfg: Config, firstId: nat, es: seq<Event>, t: State)
    requires Run(Initial(cfg, firstId), es, t) && FreshRun(Initial(cfg, firstId), es)
    ensures t.store.lost == []
    ensures t.stop.Drained? && t.store.claims == [] ==>
              multiset(Msgs(t.store.resolved)) == multiset(t.store.accepted) && Distinct(Msgs(t.store.resolved))
  {
    var init := Initial(cfg, firstId);
    RunNoClash(init, es, t);
    EachMessageInOnePlace(cfg, firstId, es, t);
    if t.stop.Drained? { StopDrainsForever(cfg, firstId, es, t, [], t); }
  }

  /** Every batch is recorded under ids that are new to the map and to each other. */
  ghost predicate CleanBatches(s: State, es: seq<Event>)
    decreases |es|
  {
    es == [] ||
    (Enabled(s, es[0]) && CleanBatches(Apply(s, es[0]), es[1..])
     && (es[0].BatchPublish? ==>
           var ids := Ids(Batch(s.store));
           Distinct(ids) && forall i :: 0 <= i < |ids| ==> ids[i] !in s.store.unconfirmed))
  }

  lemma StepLoss(s: State, e: Event)
    requires Enabled(s, e)
    ensures s.store.lost <= Apply(s, e).store.lost
    ensures !e.BatchPublish? ==> Apply(s, e).store.lost == s.store.lost
    ensures e.BatchPublish? ==> Apply(s, e).store.lost == s.store.lost + Dropped(s.store.unconfirmed, Batch(s.store))
  {
  }

  /** Exactly the runs that never record a batch over a live id drop no message. */
  lemma {:induction false} LossExactly(s: State, es: seq<Event>, t: State)
    requires Run(s, es, t)
    ensures s.store.lost <= t.store.lost
    ensures t.store.lost == s.store.lost <==> CleanBatches(s, es)
    decreases |es|
  {
    if es != [] {
      StepLoss(s, es[0]);
      EmplaceLossless(s.store.unconfirmed, Batch(s.store));
      LossExactly(Apply(s, es[0]), es[1..], t);
    }
  }

  lemma NothingElse(r: multiset<Msg>, lost: seq<Msg>)
    ensures r + multiset(lost) == r <==> lost == []
  {
    if lost != [] {
      var m := lost[0];
      assert multiset(lost)[m] > 0;
      assert (r + multiset(lost))[m] == r[m] + multiset(lost)[m];
    }
  }

  /**
   Main result. Once the stop has drained the producer and the last handler has returned,
   every accepted message was resolved exactly once if and only if no batch was recorded over
   a live or repeated id.
   */
  lemma ResolvedExactly(cfg: Config, firstId: nat, es: seq<Event>, t: State)
    requires Run(Initial(cfg, firstId), es, t) && t.stop.Drained? && t.store.claims == []
    ensures multiset(Msgs(t.store.resolved)) == multiset(t.store.accepted) <==> CleanBatches(Initial(cfg, firstId), es)
  {
    StopDrainsForever(cfg, firstId, es, t, [], t);
    EachMessageInOnePlace(cfg, firstId, es, t);
    LossExactly(Initial(cfg, firstId), es, t);
    var r := multiset(Msgs(t.store.resolved));
    assert multiset(t.store.accepted) == r + multiset(t.store.lost);
    NothingElse(r, t.store.lost);
  }

  // ---- resends

  /** With a client on which no publish has thrown, it has been handed every message of the map. */
  ghost predicate Handed(l: Link, u: map<nat, Msg>) {
    && (l.client.Some? ==> l.client.value < |l.conns|)
    && (l.client.Some? && l.clean ==> forall x :: x in u ==> u[x] in l.conns[l.client.value])
  }

  lemma {:induction false} EmplaceAllValues(u: map<nat, Msg>, ms: seq<Msg>)
    ensures forall k :: k in EmplaceAll(u, ms) ==> (k in u && EmplaceAll(u, ms)[k] == u[k]) || EmplaceAll(u, ms)[k] in ms
    decreases |ms|
  {
    if ms != [] {
      EmplaceAllValues(Emplace(u, ms[0]), ms[1..]);
      assert ms[0] in ms;
    }
  }

  lemma PublishHanded(l: Link, u: map<nat, Msg>, batch: seq<Msg>, sent: nat, threw: bool)
    requires Handed(l, u) && sent <= |batch| && (!threw ==> sent == |batch|)
    ensures Handed(Hand(l, batch[..sent], threw), EmplaceAll(u, batch))
  {
    EmplaceAllValues(u, batch);
    if !threw { assert batch[..sent] == batch; }
  }

  lemma ResendHanded(l: Link, u: map<nat, Msg>, sent: nat, threw: bool)
    requires Handed(l, u) && sent <= |u| && (!threw ==> sent == |u|)
    ensures Handed(Resend(l, InIdOrder(u)[..sent], threw), u)
  {
    var ms, ids := InIdOrder(u), SortedIds(u.Keys);
    if !threw {
      assert ms[..sent] == ms;
      forall x | x in u ensures u[x] in ms {
        var i :| 0 <= i < |ids| && ids[i] == x;
        assert ms[i] == u[x];
      }
    }
  }

  lemma AnswerHanded(l: Link, u: map<nat, Msg>, ids: seq<nat>)
    requires Handed(l, u)
    ensures Handed(l, Without(u, ids))
  {
    WithoutKeys(u, ids);
  }

  lemma AnswerStepHanded(s: State, e: Event)
    requires Enabled(s, e) && Handed(s.link, s.store.unconfirmed) && (e.Confirm? || e.PublishError? || e.Expire?)
    ensures Handed(Apply(s, e).link, Apply(s, e).store.unconfirmed)
  {
    match e
    case Confirm(id) => AnswerHanded(s.link, s.store.unconfirmed, [id]);
    case PublishError(id, code) => AnswerHanded(s.link, s.store.unconfirmed, [id]);
    case Expire => AnswerHanded(s.link, s.store.unconfirmed, Expired(s));
  }

  lemma LinkStepHanded(s: State, e: Event)
    requires Enabled(s, e) && Handed(s.link, s.store.unconfirmed) && (e.BatchPublish? || e.ReconnectFinish?)
    ensures Handed(Apply(s, e).link, Apply(s, e).store.unconfirmed)
  {
    match e
    case BatchPublish(sent, threw) => PublishHanded(s.link, s.store.unconfirmed, Batch(s.store), sent, threw);
    case ReconnectFinish(sent, threw) => ResendHanded(s.link, s.store.unconfirmed, sent, threw);
  }

  lemma OtherStepHanded(s: State, e: Event)
    requires Enabled(s, e) && !e.BatchPublish? && !e.ReconnectFinish? && !e.Confirm? && !e.PublishError? && !e.Expire?
    ensures Apply(s, e).store.unconfirmed == s.store.unconfirmed || Apply(s, e).store.unconfirmed == map[]
    ensures Apply(s, e).link.conns == s.link.conns && Apply(s, e).link.clean == s.link.clean
    ensures Apply(s, e).link.client == s.link.client || Apply(s, e).link.client.None?
  {
  }

  lemma StepHanded(s: State, e: Event)
    requires Enabled(s, e) && Handed(s.link, s.store.unconfirmed)
    ensures Handed(Apply(s, e).link, Apply(s, e).store.unconfirmed)
  {
    if e.BatchPublish? || e.ReconnectFinish? {
      LinkStepHanded(s, e);
    } else if e.Confirm? || e.PublishError? || e.Expire? {
      AnswerStepHanded(s, e);
    } else {
      OtherStepHanded(s, e);
    }
  }

  lemma {:induction false} RunHanded(s: State, es: seq<Event>, t: State)
    requires Run(s, es, t) && Handed(s.link, s.store.unconfirmed)
    ensures Handed(t.link, t.store.unconfirmed)
    decreases |es|
  {
    if es != [] {
      StepHanded(s, es[0]);
      RunHanded(Apply(s, es[0]), es[1..], t);
    }
  }

  /**
   Main result. Whenever there is a current client on which no publish has thrown, every
   unconfirmed message, and not just one with its id, has been handed to that very
   connection, however many connections came before it.
   */
  lemma UnconfirmedWereHanded(cfg: Config, firstId: nat, es: seq<Event>, t: State)
    requires Run(Initial(cfg, firstId), es, t)
    ensures t.link.client.Some? ==> t.link.client.value < |t.link.conns|
    ensures t.link.client.Some? && t.link.clean ==>
              forall x :: x in t.store.unconfirmed ==> t.store.unconfirmed[x] in t.link.conns[t.link.client.value]
  {
    RunHanded(Initial(cfg, firstId), es, t);
  }

  lemma PickIds(u: map<nat, Msg>, ids: seq<nat>)
    requires Keyed(u) && forall x :: x in ids ==> x in u
    ensures Ids(Pick(u, ids)) == ids
  {
    assert forall i :: 0 <= i < |ids| ==> ids[i] in ids;
  }

  lemma PickMember(u: map<nat, Msg>, ids: seq<nat>, m: Msg)
    requires Keyed(u) && forall x :: x in ids ==> x in u
    ensures m in Pick(u, ids) <==> m.id in ids && u[m.id] == m
  {
    var ms := Pick(u, ids);
    if m in ms {
      var i :| 0 <= i < |ms| && ms[i] == m;
      assert ids[i] in ids;
    }
    if m.id in ids && u[m.id] == m {
      var i :| 0 <= i < |ids| && ids[i] == m.id;
      assert ms[i] == m;
    }
  }

  lemma InIdOrderExact(u: map<nat, Msg>)
    requires Keyed(u)
    ensures Ascending(Ids(InIdOrder(u)))
    ensures forall m :: m in InIdOrder(u) <==> m.id in u && u[m.id] == m
  {
    var ids := SortedIds(u.Keys);
    SortedAscending(u.Keys);
    PickIds(u, ids);
    forall m ensures m in InIdOrder(u) <==> m.id in u && u[m.id] == m {
      PickMember(u, ids, m);
    }
  }

  lemma ReconnectEffect(s: State)
    requires Enabled(s, ReconnectFinish(|s.store.unconfirmed|, false)) && s.stop.NotStopped?
    ensures var t := Apply(s, ReconnectFinish(|s.store.unconfirmed|, false));
            && t.store == s.store && t.link.client == Some(|s.link.conns|)
            && t.link.conns == s.link.conns + [InIdOrder(s.store.unconfirmed)]
  {
    var ms := InIdOrder(s.store.unconfirmed);
    assert ms[..|s.store.unconfirmed|] == ms;
  }

  lemma ReachedKeyed(cfg: Config, firstId: nat, es: seq<Event>, s: State)
    requires Run(Initial(cfg, firstId), es, s)
    ensures Keyed(s.store.unconfirmed)
  {
    InitialConserved(cfg, firstId);
    RunConserved(Initial(cfg, firstId), es, s);
  }

  /** In every run: a successful reconnect hands the new connection exactly the unconfirmed messages, each once, ascending. */
  lemma ReconnectResendsExactly(cfg: Config, firstId: nat, es: seq<Event>, s: State)
    requires Run(Initial(cfg, firstId), es, s)
    requires Enabled(s, ReconnectFinish(|s.store.unconfirmed|, false)) && s.stop.NotStopped?
    ensures var u, n := s.store.unconfirmed, |s.link.conns|;
            var t := Apply(s, ReconnectFinish(|u|, false));
            && t.store == s.store && t.link.client == Some(n)
            && |t.link.conns| == n + 1 && t.link.conns[..n] == s.link.conns
            && Ascending(Ids(t.link.conns[n]))
            && (forall m :: m in t.link.conns[n] <==> m.id in u && u[m.id] == m)
  {
    ReachedKeyed(cfg, firstId, es, s);
    InIdOrderExact(s.store.unconfirmed);
    ReconnectEffect(s);
  }
}
