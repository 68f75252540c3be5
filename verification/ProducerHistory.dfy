/**
 Laws that read a producer's histories off the events of a run: what every connection was
 handed, whom every handler was told what, and what became of every send.
 */
module ProducerHistory {
  import opened Prelude
  import opened ProducerModel
  import opened ProducerConservation
  import opened ProducerGuarantees

  // ---- what a connection is handed

  /** What event `e` hands to connection `c`: a batch to the current one, the resent messages to a new one. */
  ghost function HandedBy(s: State, e: Event, c: nat): seq<Msg>
    requires Enabled(s, e)
  {
    if e.BatchPublish? && s.link.client == Some(c) then Batch(s.store)[..e.sent]
    else if e.ReconnectFinish? && s.stop.NotStopped? && c == |s.link.conns| then InIdOrder(s.store.unconfirmed)[..e.sent]
    else []
  }

  ghost function HandedOn(s: State, es: seq<Event>, c: nat): seq<Msg>
    decreases |es|
  {
    if es == [] || !Enabled(s, es[0]) then [] else HandedBy(s, es[0], c) + HandedOn(Apply(s, es[0]), es[1..], c)
  }

  ghost function ConnAt(l: Link, c: nat): seq<Msg> {
    if c < |l.conns| then l.conns[c] else []
  }

  ghost predicate Linked(l: Link) {
    l.client.Some? ==> l.client.value < |l.conns|
  }

  /** publish_batch: the batch, or the part of it that went out before an exception, reaches the current client and no other. */
  lemma PublishStep(s: State, sent: nat, threw: bool)
    requires Linked(s.link) && Enabled(s, BatchPublish(sent, threw))
    ensures var l, k := s.link, Apply(s, BatchPublish(sent, threw)).link;
            && k.client == l.client && |k.conns| == |l.conns|
            && (l.client.None? ==> k == l)
            && (l.client.Some? ==>
                  && k.conns[l.client.value] == l.conns[l.client.value] + Batch(s.store)[..sent]
                  && (k.clean <==> l.clean && !threw))
            && (forall c :: 0 <= c < |l.conns| && l.client != Some(c) ==> k.conns[c] == l.conns[c])
  {
  }

  lemma ResendStep(s: State, sent: nat, threw: bool)
    requires Enabled(s, ReconnectFinish(sent, threw))
    ensures var l, k := s.link, Apply(s, ReconnectFinish(sent, threw)).link;
            && (!s.stop.NotStopped? ==> k.conns == l.conns && k.client == l.client && k.clean == l.clean)
            && (s.stop.NotStopped? ==> k.conns == l.conns + [InIdOrder(s.store.unconfirmed)[..sent]])
            && (s.stop.NotStopped? && threw ==> k.client == l.client && k.clean == l.clean)
            && (s.stop.NotStopped? && !threw ==> k.client == Some(|l.conns|) && k.clean)
  {
  }

  lemma OtherLinkStep(s: State, e: Event)
    requires Enabled(s, e) && !e.BatchPublish? && !e.ReconnectFinish?
    ensures Apply(s, e).link.conns == s.link.conns && Apply(s, e).link.clean == s.link.clean
    ensures Apply(s, e).link.client == s.link.client || Apply(s, e).link.client.None?
  {
  }

  lemma StepConnAt(s: State, e: Event, c: nat)
    requires Linked(s.link) && Enabled(s, e)
    ensures Linked(Apply(s, e).link) && |s.link.conns| <= |Apply(s, e).link.conns|
    ensures ConnAt(Apply(s, e).link, c) == ConnAt(s.link, c) + HandedBy(s, e, c)
  {
    match e
    case BatchPublish(sent, threw) => PublishConnAt(s, e, c);
    case ReconnectFinish(sent, threw) => ResendConnAt(s, e, c);
    case _ => OtherLinkStep(s, e);
  }

  lemma PublishConnAt(s: State, e: Event, c: nat)
    requires Linked(s.link) && Enabled(s, e) && e.BatchPublish?
    ensures Linked(Apply(s, e).link) && |s.link.conns| == |Apply(s, e).link.conns|
    ensures ConnAt(Apply(s, e).link, c) == ConnAt(s.link, c) + HandedBy(s, e, c)
  {
    PublishStep(s, e.sent, e.threw);
  }

  lemma ResendConnAt(s: State, e: Event, c: nat)
    requires Linked(s.link) && Enabled(s, e) && e.ReconnectFinish?
    ensures Linked(Apply(s, e).link) && |s.link.conns| <= |Apply(s, e).link.conns|
    ensures ConnAt(Apply(s, e).link, c) == ConnAt(s.link, c) + HandedBy(s, e, c)
  {
    ResendStep(s, e.sent, e.threw);
  }

  lemma {:induction false} RunConnAt(s: State, es: seq<Event>, t: State, c: nat)
    requires Linked(s.link) && Run(s, es, t)
    ensures Linked(t.link) && ConnAt(t.link, c) == ConnAt(s.link, c) + HandedOn(s, es, c)
    decreases |es|
  {
    if es != [] {
      StepConnAt(s, es[0], c);
      RunConnAt(Apply(s, es[0]), es[1..], t, c);
      Reassociate(ConnAt(s.link, c), HandedBy(s, es[0], c), HandedOn(Apply(s, es[0]), es[1..], c));
    }
  }

  /**
   Main result. In every run each connection has been handed exactly what the events say, in
   their order: what was resent when it was made, then every batch that publish_batch took
   while it was the current one, each up to where an exception ended it.
   */
  lemma ConnectionHistory(cfg: Config, firstId: nat, es: seq<Event>, t: State, c: nat)
    requires Run(Initial(cfg, firstId), es, t) && c < |t.link.conns|
    ensures t.link.conns[c] == HandedOn(Initial(cfg, firstId), es, c)
  {
    RunConnAt(Initial(cfg, firstId), es, t, c);
  }

  /** The step law of publish_batch in every reachable state. */
  lemma PublishReaches(cfg: Config, firstId: nat, es: seq<Event>, s: State, sent: nat, threw: bool)
    requires Run(Initial(cfg, firstId), es, s) && Enabled(s, BatchPublish(sent, threw))
    ensures var l, k := s.link, Apply(s, BatchPublish(sent, threw)).link;
            && (l.client.None? ==> k == l)
            && (l.client.Some? ==>
                  && |k.conns| == |l.conns| && l.client.value < |l.conns|
                  && k.conns[l.client.value] == l.conns[l.client.value] + Batch(s.store)[..sent]
                  && (forall c :: 0 <= c < |l.conns| && c != l.client.value ==> k.conns[c] == l.conns[c])
                  && (k.clean <==> l.clean && !threw))
  {
    RunConnAt(Initial(cfg, firstId), es, s, 0);
    PublishStep(s, sent, threw);
  }

  // ---- which connections have seen an exception

  /** A publish_batch call on connection `c` throws somewhere in the run. */
  ghost predicate ThrewOn(s: State, es: seq<Event>, c: nat)
    decreases |es|
  {
    es != [] && Enabled(s, es[0]) &&
    ((es[0].BatchPublish? && es[0].threw && s.link.client == Some(c)) || ThrewOn(Apply(s, es[0]), es[1..], c))
  }

  /** A connection that is not the current one never becomes it again. */
  lemma {:induction false} NeverAgain(s: State, es: seq<Event>, t: State, c: nat)
    requires Linked(s.link) && Run(s, es, t) && c < |s.link.conns| && s.link.client != Some(c)
    ensures t.link.client != Some(c) && c < |t.link.conns| && t.link.conns[c] == s.link.conns[c]
    decreases |es|
  {
    if es != [] {
      StepConnAt(s, es[0], c);
      StepClient(s, es[0]);
      NeverAgain(Apply(s, es[0]), es[1..], t, c);
    }
  }

  lemma StepClient(s: State, e: Event)
    requires Linked(s.link) && Enabled(s, e)
    ensures var k := Apply(s, e).link.client;
            k == s.link.client || k.None? || (e.ReconnectFinish? && k == Some(|s.link.conns|) && Apply(s, e).link.clean)
    ensures Apply(s, e).link.client == s.link.client && s.link.client.Some? && !e.ReconnectFinish? ==>
              (Apply(s, e).link.clean <==> s.link.clean && !(e.BatchPublish? && e.threw))
    ensures Apply(s, e).link.client == s.link.client && e.ReconnectFinish? ==> Apply(s, e).link.clean == s.link.clean
  {
    match e
    case BatchPublish(sent, threw) => PublishStep(s, sent, threw);
    case ReconnectFinish(sent, threw) => ResendStep(s, sent, threw);
    case _ => OtherLinkStep(s, e);
  }

  lemma {:induction false} RunClean(s: State, es: seq<Event>, t: State, c: nat)
    requires Linked(s.link) && Run(s, es, t) && t.link.client == Some(c)
    ensures t.link.clean <==> (s.link.client == Some(c) ==> s.link.clean) && !ThrewOn(s, es, c)
    decreases |es|
  {
    if es != [] {
      var m := Apply(s, es[0]);
      StepClient(s, es[0]);
      StepConnAt(s, es[0], c);
      RunClean(m, es[1..], t, c);
      if m.link.client != Some(c) && c < |m.link.conns| { NeverAgain(m, es[1..], t, c); }
    }
  }

  /** Main result. `clean` means what it says: no publish on the current connection has thrown since it was made. */
  lemma CleanExactly(cfg: Config, firstId: nat, es: seq<Event>, t: State, c: nat)
    requires Run(Initial(cfg, firstId), es, t) && t.link.client == Some(c)
    ensures t.link.clean <==> !ThrewOn(Initial(cfg, firstId), es, c)
  {
    RunClean(Initial(cfg, firstId), es, t, c);
  }

  // ---- lost connections

  predicate Loses(s: State, e: Event) {
    e.ShutdownApply? || e.StopClient? || (e.DelayedReconnect? && s.stop.NotStopped?)
  }

  lemma LosesClient(s: State, e: Event)
    requires Enabled(s, e) && Loses(s, e)
    ensures Apply(s, e).link.client.None? && Apply(s, e).link.conns == s.link.conns
  {
  }

  /**
   Main result. After a shutdown, a delayed reconnect or the stop, no connection made until
   then is ever handed anything again, whatever follows.
   */
  lemma LostConnectionsAreSilent(cfg: Config, firstId: nat, es: seq<Event>, s: State, e: Event, later: seq<Event>, t: State)
    requires Run(Initial(cfg, firstId), es, s) && Enabled(s, e) && Loses(s, e) && Run(Apply(s, e), later, t)
    ensures |s.link.conns| <= |t.link.conns| && t.link.conns[..|s.link.conns|] == s.link.conns
  {
    RunConnAt(Initial(cfg, firstId), es, s, 0);
    LosesClient(s, e);
    var m, n := Apply(s, e), |s.link.conns|;
    if n > 0 { NeverAgain(m, later, t, n - 1); }
    forall c | 0 <= c < n ensures c < |t.link.conns| && t.link.conns[c] == s.link.conns[c] {
      NeverAgain(m, later, t, c);
    }
  }

  ghost predicate Exclusive(s: State) {
    s.link.reconnecting ==> s.link.client.None?
  }

  lemma StepExclusive(s: State, e: Event)
    requires Exclusive(s) && Enabled(s, e)
    ensures Exclusive(Apply(s, e))
    ensures e.ReconnectBegin? ==> (Apply(s, e).link.reconnecting <==> s.stop.NotStopped? && s.link.client.None?)
    ensures e.ReconnectFinish? || e.ReconnectAbort? ==> !Apply(s, e).link.reconnecting
  {
    match e
    case BatchPublish(sent, threw) =>
    case ReconnectFinish(sent, threw) => ResendStep(s, sent, threw);
    case _ =>
  }

  lemma {:induction false} RunExclusive(s: State, es: seq<Event>, t: State)
    requires Exclusive(s) && Run(s, es, t)
    ensures Exclusive(t)
    decreases |es|
  {
    if es != [] {
      StepExclusive(s, es[0]);
      RunExclusive(Apply(s, es[0]), es[1..], t);
    }
  }

  /** A reconnect never replaces a client that is there. */
  lemma ReconnectOnlyWithoutClient(cfg: Config, firstId: nat, es: seq<Event>, s: State, sent: nat, threw: bool)
    requires Run(Initial(cfg, firstId), es, s) && Enabled(s, ReconnectFinish(sent, threw))
    ensures s.link.client.None?
  {
    RunExclusive(Initial(cfg, firstId), es, s);
  }

  // ---- what a handler is told

  /** Event `e` decides that the handler of `c.msg` is told `c`. */
  ghost predicate Answers(s: State, e: Event, c: Claim)
    requires Enabled(s, e)
  {
    var u := s.store.unconfirmed;
    match e
    case Confirm(id) => id in u && c == Claim(u[id], true, 0x0001)
    case PublishError(id, code) => id in u && c == Claim(u[id], false, code)
    case Expire =>
      && c.msg.id in Expired(s) && u[c.msg.id] == c.msg && !c.confirmed
      && c.code == (if s.link.client.None? then 0x4002 else 0x4004)
    case StopFail(code, _) =>
      && ((c.msg.id in u && u[c.msg.id] == c.msg) || c.msg in s.store.pending)
      && !c.confirmed && c.code == code
    case _ => false
  }

  /** The handler of `c.msg` has been told `c`, or a thread holds it to tell it. */
  ghost predicate Told(st: Store, c: Claim) {
    c in st.claims || c in st.resolved
  }

  lemma ClaimsMember(ms: seq<Msg>, confirmed: bool, code: nat, c: Claim)
    ensures c in Claims(ms, confirmed, code) <==> c.msg in ms && c.confirmed == confirmed && c.code == code
  {
    var cs := Claims(ms, confirmed, code);
    if c.msg in ms && c.confirmed == confirmed && c.code == code {
      var i :| 0 <= i < |ms| && ms[i] == c.msg;
      assert cs[i] == c;
    }
  }

  lemma ClaimTold(st: Store, ids: seq<nat>, confirmed: bool, code: nat, c: Claim)
    requires Keyed(st.unconfirmed) && forall x :: x in ids ==> x in st.unconfirmed
    ensures Told(ClaimIds(st, ids, confirmed, code), c) <==>
            Told(st, c) || (c.msg.id in ids && st.unconfirmed[c.msg.id] == c.msg && c.confirmed == confirmed && c.code == code)
  {
    ClaimsMember(Pick(st.unconfirmed, ids), confirmed, code, c);
    PickMember(st.unconfirmed, ids, c.msg);
  }

  lemma ClaimOneTold(st: Store, id: nat, confirmed: bool, code: nat, c: Claim)
    requires Keyed(st.unconfirmed)
    ensures Told(ClaimOne(st, id, confirmed, code), c) <==>
            Told(st, c) || (id in st.unconfirmed && c == Claim(st.unconfirmed[id], confirmed, code))
  {
    if id in st.unconfirmed { ClaimTold(st, [id], confirmed, code, c); }
  }

  lemma HandleTold(st: Store, i: nat, c: Claim)
    requires i < |st.claims|
    ensures Told(CallHandler(st, i), c) <==> Told(st, c)
    ensures CallHandler(st, i).resolved == st.resolved + [st.claims[i]]
  {
    RemoveAtMultiset(st.claims, i);
    assert c in st.claims <==> c in multiset(st.claims);
    assert c in RemoveAt(st.claims, i) <==> c in multiset(RemoveAt(st.claims, i));
  }

  lemma {:induction false} Covers(order: seq<nat>, keys: set<nat>)
    requires Distinct(order) && |order| == |keys| && forall x :: x in order ==> x in keys
    ensures forall x :: x in keys ==> x in order
    decreases |order|
  {
    if order != [] {
      assert forall x :: x in order[1..] ==> x in order && x != order[0];
      Covers(order[1..], keys - {order[0]});
    }
  }

  lemma StopTold(st: Store, code: nat, order: seq<nat>, c: Claim)
    requires Keyed(st.unconfirmed) && IsOrder(order, st.unconfirmed)
    ensures Told(FailAll(st, code, order), c) <==>
            Told(st, c)
            || (((c.msg.id in st.unconfirmed && st.unconfirmed[c.msg.id] == c.msg) || c.msg in st.pending) && !c.confirmed && c.code == code)
    ensures st.resolved <= FailAll(st, code, order).resolved
  {
    Covers(order, st.unconfirmed.Keys);
    ClaimsMember(Pick(st.unconfirmed, order), false, code, c);
    ClaimsMember(st.pending, false, code, c);
    PickMember(st.unconfirmed, order, c.msg);
  }

  lemma OtherTold(s: State, e: Event)
    requires Enabled(s, e) && !e.Confirm? && !e.PublishError? && !e.Expire? && !e.Handle? && !e.StopFail?
    ensures Apply(s, e).store.claims == s.store.claims && Apply(s, e).store.resolved == s.store.resolved
  {
  }

  lemma StepTold(s: State, e: Event, c: Claim)
    requires Keyed(s.store.unconfirmed) && Enabled(s, e)
    ensures Told(Apply(s, e).store, c) <==> Told(s.store, c) || Answers(s, e, c)
    ensures s.store.resolved <= Apply(s, e).store.resolved
  {
    match e
    case Confirm(id) => ClaimOneTold(s.store, id, true, OK, c);
    case PublishError(id, code) => ClaimOneTold(s.store, id, false, code, c);
    case Expire => ClaimTold(s.store, Expired(s), false, ExpireCode(s), c);
    case Handle(i) => HandleTold(s.store, i, c);
    case StopFail(code, order) => StopTold(s.store, code, order, c);
    case _ => OtherTold(s, e);
  }

  ghost predicate AnsweredIn(s: State, es: seq<Event>, c: Claim)
    decreases |es|
  {
    es != [] && Enabled(s, es[0]) && (Answers(s, es[0], c) || AnsweredIn(Apply(s, es[0]), es[1..], c))
  }

  lemma {:induction false} RunTold(s: State, es: seq<Event>, t: State, c: Claim)
    requires Conserved(s.store) && Run(s, es, t)
    ensures Told(t.store, c) <==> Told(s.store, c) || AnsweredIn(s, es, c)
    ensures s.store.resolved <= t.store.resolved
    decreases |es|
  {
    if es != [] {
      StepTold(s, es[0], c);
      StepConserved(s, es[0]);
      RunTold(Apply(s, es[0]), es[1..], t, c);
    }
  }

  /**
   Main result. What handlers are told is exactly what the events decided: a confirmation with
   the Ok code for a confirm of an unconfirmed id, the broker's code for a publish error,
   ProducerNotAvailable or ConfirmTimeout for the scan, by whether there was a client then, and
   the stop's code for what it found unconfirmed or pending; and nothing else.
   */
  lemma AnsweredExactly(cfg: Config, firstId: nat, es: seq<Event>, t: State, c: Claim)
    requires Run(Initial(cfg, firstId), es, t)
    ensures Told(t.store, c) <==> AnsweredIn(Initial(cfg, firstId), es, c)
  {
    InitialConserved(cfg, firstId);
    RunTold(Initial(cfg, firstId), es, t, c);
  }

  /** Handlers that have been called are never uncalled, and a thread that calls one passes on just what it took. */
  lemma HandlersCalledInOrder(cfg: Config, firstId: nat, es: seq<Event>, s: State, later: seq<Event>, t: State)
    requires Run(Initial(cfg, firstId), es, s) && Run(s, later, t)
    ensures s.store.resolved <= t.store.resolved
    ensures forall i :: 0 <= i < |s.store.claims| ==>
                          Apply(s, Handle(i)).store.resolved == s.store.resolved + [s.store.claims[i]]
  {
    InitialConserved(cfg, firstId);
    RunConserved(Initial(cfg, firstId), es, s);
    RunTold(s, later, t, Claim(Msg(0, 0, 0, 0), false, 0));
  }

  /** A confirm takes message `m` out of the map. */
  ghost predicate ConfirmTakes(s: State, es: seq<Event>, m: Msg)
    decreases |es|
  {
    es != [] && Enabled(s, es[0]) &&
    ((es[0] == Confirm(m.id) && m.id in s.store.unconfirmed && s.store.unconfirmed[m.id] == m)
     || ConfirmTakes(Apply(s, es[0]), es[1..], m))
  }

  lemma {:induction false} ConfirmTakesAnswers(s: State, es: seq<Event>, m: Msg)
    requires Conserved(s.store)
    ensures ConfirmTakes(s, es, m) <==> AnsweredIn(s, es, Claim(m, true, 0x0001))
    ensures forall code :: AnsweredIn(s, es, Claim(m, true, code)) ==> code == 0x0001
    decreases |es|
  {
    if es != [] && Enabled(s, es[0]) {
      StepConserved(s, es[0]);
      ConfirmTakesAnswers(Apply(s, es[0]), es[1..], m);
    }
  }

  lemma MsgsMember(cs: seq<Claim>, c: Claim)
    requires c in cs
    ensures c.msg in Msgs(cs)
  {
    var i :| 0 <= i < |cs| && cs[i] == c;
    assert Msgs(cs)[i] == c.msg;
  }

  lemma OneClaimEach(cs: seq<Claim>, c: Claim, d: Claim)
    requires c in cs && d in cs && c.msg == d.msg && multiset(Msgs(cs))[c.msg] <= 1
    ensures c == d
  {
    var i :| 0 <= i < |cs| && cs[i] == c;
    var j :| 0 <= j < |cs| && cs[j] == d;
    if i < j { TwiceIn(Msgs(cs), i, j); } else if j < i { TwiceIn(Msgs(cs), j, i); }
  }

  lemma ToldOnce(cfg: Config, firstId: nat, es: seq<Event>, t: State, c: Claim, d: Claim)
    requires Run(Initial(cfg, firstId), es, t) && Told(t.store, c) && Told(t.store, d) && c.msg == d.msg
    ensures c == d
  {
    EachMessageInOnePlace(cfg, firstId, es, t);
    var all := t.store.claims + t.store.resolved;
    MsgsAppend(t.store.claims, t.store.resolved);
    assert multiset(Msgs(all)) == multiset(Msgs(t.store.claims)) + multiset(Msgs(t.store.resolved));
    assert multiset(Msgs(all))[c.msg] <= Places(t.store)[c.msg];
    OneClaimEach(all, c, d);
  }

  /** Main result. A handler is told of a confirmation if and only if a confirm of the broker took its message. */
  lemma ConfirmedExactly(cfg: Config, firstId: nat, es: seq<Event>, t: State, c: Claim)
    requires Run(Initial(cfg, firstId), es, t) && Told(t.store, c)
    ensures c.confirmed <==> ConfirmTakes(Initial(cfg, firstId), es, c.msg)
    ensures c.confirmed ==> c.code == 0x0001
  {
    var init, d := Initial(cfg, firstId), Claim(c.msg, true, 0x0001);
    InitialConserved(cfg, firstId);
    ConfirmTakesAnswers(init, es, c.msg);
    AnsweredExactly(cfg, firstId, es, t, c);
    AnsweredExactly(cfg, firstId, es, t, d);
    if c.confirmed { assert c == Claim(c.msg, true, c.code); }
    if Told(t.store, d) { ToldOnce(cfg, firstId, es, t, c, d); }
  }

  // ---- the accumulator is a queue

  /** What an event takes out of the accumulator. */
  ghost function TakenBy(s: State, e: Event): seq<Msg> {
    if e.BatchExtract? || e.StopFail? then s.store.pending else []
  }

  ghost function TakenIn(s: State, es: seq<Event>): seq<Msg>
    decreases |es|
  {
    if es == [] || !Enabled(s, es[0]) then [] else TakenBy(s, es[0]) + TakenIn(Apply(s, es[0]), es[1..])
  }

  lemma StepTaken(s: State, e: Event, taken: seq<Msg>)
    requires Enabled(s, e) && s.store.accepted == taken + s.store.pending
    ensures Apply(s, e).store.accepted == (taken + TakenBy(s, e)) + Apply(s, e).store.pending
    ensures e.BatchExtract? ==> Batch(Apply(s, e).store) == s.store.pending
  {
  }

  lemma {:induction false} RunTaken(s: State, es: seq<Event>, t: State, taken: seq<Msg>)
    requires Run(s, es, t) && s.store.accepted == taken + s.store.pending
    ensures t.store.accepted == (taken + TakenIn(s, es)) + t.store.pending
    decreases |es|
  {
    if es != [] {
      StepTaken(s, es[0], taken);
      RunTaken(Apply(s, es[0]), es[1..], t, taken + TakenBy(s, es[0]));
      Reassociate(taken, TakenBy(s, es[0]), TakenIn(Apply(s, es[0]), es[1..]));
    }
  }

  /** Main result. The accumulator is first in, first out: what was taken from it, followed by what it holds, is what it accepted. */
  lemma AccumulatorIsFifo(cfg: Config, firstId: nat, es: seq<Event>, t: State)
    requires Run(Initial(cfg, firstId), es, t)
    ensures TakenIn(Initial(cfg, firstId), es) + t.store.pending == t.store.accepted
  {
    var s := Initial(cfg, firstId);
    RunTaken(s, es, t, []);
    assert [] + TakenIn(s, es) == TakenIn(s, es);
  }

  // ---- messages and shutdowns on their way

  ghost function Handles(es: seq<Event>): nat {
    if es == [] then 0 else (if es[0].Handle? then 1 else 0) + Handles(es[1..])
  }

  ghost function Destructions(es: seq<Event>): nat {
    if es == [] then 0 else (if es[0].DestroyMessage? then 1 else 0) + Destructions(es[1..])
  }

  ghost function ShutdownsSeen(es: seq<Event>): nat {
    if es == [] then 0 else (if es[0].ShutdownSeen? then 1 else 0) + ShutdownsSeen(es[1..])
  }

  ghost function ShutdownsApplied(es: seq<Event>): nat {
    if es == [] then 0 else (if es[0].ShutdownApply? then 1 else 0) + ShutdownsApplied(es[1..])
  }

  lemma StepOnTheirWay(s: State, e: Event)
    requires Enabled(s, e)
    ensures Apply(s, e).dying + (if e.DestroyMessage? then 1 else 0) == s.dying + if e.Handle? then 1 else 0
    ensures Apply(s, e).link.shutdowns + (if e.ShutdownApply? then 1 else 0) == s.link.shutdowns + if e.ShutdownSeen? then 1 else 0
  {
  }

  lemma {:induction false} RunOnTheirWay(s: State, es: seq<Event>, t: State)
    requires Run(s, es, t)
    ensures t.dying + Destructions(es) == s.dying + Handles(es)
    ensures t.link.shutdowns + ShutdownsApplied(es) == s.link.shutdowns + ShutdownsSeen(es)
    decreases |es|
  {
    if es != [] {
      StepOnTheirWay(s, es[0]);
      RunOnTheirWay(Apply(s, es[0]), es[1..], t);
    }
  }

  /**
   A message whose handler has been called keeps its permit until it is destroyed, and a
   shutdown that was seen while started stays to be applied: both counts are those of the events.
   */
  lemma OnTheirWayExactly(cfg: Config, firstId: nat, es: seq<Event>, t: State)
    requires Run(Initial(cfg, firstId), es, t)
    ensures t.dying + Destructions(es) == Handles(es)
    ensures t.link.shutdowns + ShutdownsApplied(es) == ShutdownsSeen(es)
  {
    RunOnTheirWay(Initial(cfg, firstId), es, t);
  }
}
