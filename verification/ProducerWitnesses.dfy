/** Runs from a fresh producer that show what two sends at once can do. */
module ProducerWitnesses {
  import opened Prelude
  import opened ProducerModel

  lemma RunCons(s: State, e: Event, es: seq<Event>, t: State)
    requires Enabled(s, e) && Run(Apply(s, e), es, t)
    ensures Run(s, [e] + es, t)
  {
    assert ([e] + es)[1..] == es;
  }

  lemma {:induction false} RunAppend(s: State, es: seq<Event>, m: State, fs: seq<Event>, t: State)
    requires Run(s, es, m) && Run(m, fs, t)
    ensures Run(s, es + fs, t)
    decreases |es|
  {
    if es == [] {
      assert es + fs == fs;
    } else {
      assert (es + fs)[1..] == es[1..] + fs;
      RunAppend(Apply(s, es[0]), es[1..], m, fs, t);
    }
  }

  lemma TwoSteps(s: State, e: Event, m: State, f: Event, t: State)
    requires Enabled(s, e) && Apply(s, e) == m && Enabled(m, f) && Apply(m, f) == t
    ensures Run(s, [e, f], t)
  {
    RunCons(m, f, [], t);
    assert [f] + [] == [f];
    RunCons(s, e, [f], t);
    assert [e] + [f] == [e, f];
  }

  // ---- two messages under one id

  /** Batches of two, two permits, no timeouts and no frame limit. */
  const PAIR := Config(2, 2, false, 0, 0)

  const FIRST := Msg(0, 5, 0, 0)
  const SECOND := Msg(1, 5, 0, 0)

  function With(s: State, available: nat, senders: Senders): State {
    s.(available := available, senders := senders)
  }

  lemma SendTwice() returns (es: seq<Event>, t: State)
    ensures Run(Initial(PAIR, 0), es, t)
    ensures t == With(Initial(PAIR, 0), 0, Senders(0, [], [Draft(5, 0), Draft(5, 0)], []))
  {
    var s, d := Initial(PAIR, 0), Draft(5, 0);
    var s1 := With(s, 2, Senders(0, [d], [], []));
    var s2 := With(s, 2, Senders(0, [d, d], [], []));
    var s3 := With(s, 1, Senders(0, [d], [d], []));
    t := With(s, 0, Senders(0, [], [d, d], []));
    TwoSteps(s, SendId(5, 0), s1, SendId(5, 0), s2);
    TwoSteps(s2, Acquire(0), s3, Acquire(0), t);
    RunAppend(s, [SendId(5, 0), SendId(5, 0)], s2, [Acquire(0), Acquire(0)], t);
    es := [SendId(5, 0), SendId(5, 0)] + [Acquire(0), Acquire(0)];
  }

  lemma AcceptTwice(s: State) returns (es: seq<Event>, t: State)
    requires s == With(Initial(PAIR, 0), 0, Senders(0, [], [Draft(5, 0), Draft(5, 0)], []))
    ensures Run(s, es, t)
    ensures t == With(Initial(PAIR, 0), 0, Senders(0, [], [], [])).(store := Store([FIRST, SECOND], Free, map[], [], [FIRST, SECOND], [], []))
  {
    var d, w := Draft(5, 0), Waiter(5, 0, 0);
    var s1 := With(s, 0, Senders(0, [], [d], [w]));
    var s2 := With(s, 0, Senders(0, [], [d], [])).(store := Store([FIRST], Free, map[], [], [FIRST], [], []));
    var s3 := With(s2, 0, Senders(0, [], [], [w]));
    t := With(s, 0, Senders(0, [], [], [])).(store := Store([FIRST, SECOND], Free, map[], [], [FIRST, SECOND], [], []));
    TwoSteps(s, Admit(0), s1, Enqueue(0), s2);
    TwoSteps(s2, Admit(0), s3, Enqueue(0), t);
    RunAppend(s, [Admit(0), Enqueue(0)], s2, [Admit(0), Enqueue(0)], t);
    es := [Admit(0), Enqueue(0)] + [Admit(0), Enqueue(0)];
  }

  lemma RecordClash()
    ensures EmplaceAll(map[], [FIRST, SECOND]) == map[5 := FIRST]
    ensures Dropped(map[], [FIRST, SECOND]) == [SECOND]
  {
    var u := map[5 := FIRST];
    assert Emplace(map[], FIRST) == u;
    assert [FIRST, SECOND][1..] == [SECOND];
    assert Dropped(u, [SECOND]) == [SECOND] + Dropped(u, []);
    assert EmplaceAll(u, [SECOND]) == EmplaceAll(u, []);
  }

  lemma PublishTwice(s: State) returns (es: seq<Event>, t: State)
    requires s == With(Initial(PAIR, 0), 0, Senders(0, [], [], [])).(store := Store([FIRST, SECOND], Free, map[], [], [FIRST, SECOND], [], []))
    ensures Run(s, es, t)
    ensures t.store == Store([], Free, map[5 := FIRST], [], [FIRST, SECOND], [], [SECOND]) && t.available == 1
  {
    var s1 := s.(store := s.store.(lock := Checked));
    var s2 := s.(store := s.store.(lock := Batching([FIRST, SECOND]), pending := []));
    TwoSteps(s, BatchEnter, s1, BatchExtract, s2);
    RecordClash();
    t := Apply(s2, BatchPublish(2, false));
    RunCons(s2, BatchPublish(2, false), [], t);
    RunAppend(s, [BatchEnter, BatchExtract], s2, [BatchPublish(2, false)] + [], t);
    es := [BatchEnter, BatchExtract] + ([BatchPublish(2, false)] + []);
  }

  /**
   Two sends under one id from a fresh producer: both are accepted, one is recorded, and the
   other is in no place from which its handler could still be called, its permit returned.
   */
  lemma RepeatedIdIsDropped() returns (es: seq<Event>, t: State)
    ensures Run(Initial(PAIR, 0), es, t)
    ensures t.store.accepted == [FIRST, SECOND] && t.store.lost == [SECOND] && t.store.unconfirmed == map[5 := FIRST]
    ensures t.store.pending == [] && t.store.claims == [] && t.store.resolved == [] && t.available == 1
  {
    var es1, s1 := SendTwice();
    var es2, s2 := AcceptTwice(s1);
    var es3;
    es3, t := PublishTwice(s2);
    RunAppend(Initial(PAIR, 0), es1, s1, es2, s2);
    RunAppend(Initial(PAIR, 0), es1 + es2, s2, es3, t);
    es := (es1 + es2) + es3;
  }

  // ---- two senders with automatic ids, the second one faster

  /** As above, with a confirm timeout of 10. */
  const TIMED := Config(2, 2, false, 10, 0)

  const FAST := Msg(0, 1, 0, 0)
  const SLOW := Msg(1, 0, 1, 0)

  lemma SlowAndFast() returns (es: seq<Event>, t: State)
    ensures Run(Initial(TIMED, 0), es, t)
    ensures t == With(Initial(TIMED, 0), 0, Senders(2, [], [Draft(0, 0), Draft(1, 0)], []))
  {
    var s, d0, d1 := Initial(TIMED, 0), Draft(0, 0), Draft(1, 0);
    var s1 := With(s, 2, Senders(1, [d0], [], []));
    var s2 := With(s, 2, Senders(2, [d0, d1], [], []));
    var s3 := With(s, 1, Senders(2, [d1], [d0], []));
    t := With(s, 0, Senders(2, [], [d0, d1], []));
    TwoSteps(s, TakeId(0), s1, TakeId(0), s2);
    TwoSteps(s2, Acquire(0), s3, Acquire(0), t);
    RunAppend(s, [TakeId(0), TakeId(0)], s2, [Acquire(0), Acquire(0)], t);
    es := [TakeId(0), TakeId(0)] + [Acquire(0), Acquire(0)];
  }

  lemma FastFirst(s: State) returns (es: seq<Event>, t: State)
    requires s == With(Initial(TIMED, 0), 0, Senders(2, [], [Draft(0, 0), Draft(1, 0)], []))
    ensures Run(s, es, t)
    ensures t == With(s, 0, Senders(2, [], [Draft(0, 0)], [])).(now := 1, store := Store([FAST], Free, map[], [], [FAST], [], []))
  {
    var s1 := With(s, 0, Senders(2, [], [Draft(0, 0)], [Waiter(1, 0, 0)]));
    var s2 := With(s, 0, Senders(2, [], [Draft(0, 0)], [])).(store := Store([FAST], Free, map[], [], [FAST], [], []));
    t := s2.(now := 1);
    TwoSteps(s, Admit(1), s1, Enqueue(0), s2);
    RunCons(s2, Tick(1), [], t);
    RunAppend(s, [Admit(1), Enqueue(0)], s2, [Tick(1)] + [], t);
    es := [Admit(1), Enqueue(0)] + ([Tick(1)] + []);
  }

  lemma BothAccepted(s: State) returns (es: seq<Event>, t: State)
    requires s == With(Initial(TIMED, 0), 0, Senders(2, [], [Draft(0, 0)], [])).(now := 1, store := Store([FAST], Free, map[], [], [FAST], [], []))
    ensures Run(s, es, t)
    ensures t == With(s, 0, Senders(2, [], [], [])).(store := Store([], Batching([FAST, SLOW]), map[], [], [FAST, SLOW], [], []))
  {
    var s1 := With(s, 0, Senders(2, [], [], [Waiter(0, 1, 0)]));
    var s2 := With(s, 0, Senders(2, [], [], [])).(store := Store([FAST, SLOW], Free, map[], [], [FAST, SLOW], [], []));
    var s3 := s2.(store := s2.store.(lock := Checked));
    t := s2.(store := Store([], Batching([FAST, SLOW]), map[], [], [FAST, SLOW], [], []));
    TwoSteps(s, Admit(0), s1, Enqueue(0), s2);
    TwoSteps(s2, BatchEnter, s3, BatchExtract, t);
    RunAppend(s, [Admit(0), Enqueue(0)], s2, [BatchEnter, BatchExtract], t);
    es := [Admit(0), Enqueue(0)] + [BatchEnter, BatchExtract];
  }

  lemma RecordBoth()
    ensures EmplaceAll(map[], [FAST, SLOW]) == map[1 := FAST, 0 := SLOW]
  {
    assert Emplace(map[], FAST) == map[1 := FAST];
    assert [FAST, SLOW][1..] == [SLOW] && [SLOW][1..] == [];
    assert EmplaceAll(map[1 := FAST], [SLOW]) == EmplaceAll(Emplace(map[1 := FAST], SLOW), []);
  }

  lemma PublishedThenLate(s: State) returns (es: seq<Event>, t: State)
    requires s.store == Store([], Batching([FAST, SLOW]), map[], [], [FAST, SLOW], [], [])
    requires s.now == 1 && s.cfg == TIMED
    ensures Run(s, es, t)
    ensures t.store.unconfirmed == map[1 := FAST, 0 := SLOW] && t.store.lock.Free? && t.now == 10 && t.cfg == TIMED
  {
    RecordBoth();
    var s1 := Apply(s, BatchPublish(2, false));
    t := s1.(now := 10);
    TwoSteps(s, BatchPublish(2, false), s1, Tick(9), t);
    es := [BatchPublish(2, false), Tick(9)];
  }

  lemma ScanStopsAtOnce(s: State)
    requires s.store.unconfirmed == map[1 := FAST, 0 := SLOW] && s.now == 10 && s.cfg == TIMED
    ensures Expired(s) == []
  {
    var u := s.store.unconfirmed;
    assert 0 in u && 1 in u;
    assert Minimum(u.Keys) == 0;
    assert SortedIds(u.Keys)[0] == 0;
  }

  /**
   Two threads send with automatic ids; the one with the higher id gets to the accumulator a
   tick earlier. When its message is due, the younger one with the lower id hides it.
   */
  lemma ScanCanMissExpired() returns (es: seq<Event>, t: State)
    ensures Run(Initial(TIMED, 0), es, t) && Enabled(t, Expire)
    ensures 1 in t.store.unconfirmed && t.store.unconfirmed[1].time <= t.now - t.cfg.confirmTimeout
    ensures Expired(t) == [] && Apply(t, Expire).store.unconfirmed == t.store.unconfirmed
  {
    var es1, s1 := SlowAndFast();
    var es2, s2 := FastFirst(s1);
    var es3, s3 := BothAccepted(s2);
    var es4;
    es4, t := PublishedThenLate(s3);
    RunAppend(Initial(TIMED, 0), es1, s1, es2, s2);
    RunAppend(Initial(TIMED, 0), es1 + es2, s2, es3, s3);
    RunAppend(Initial(TIMED, 0), (es1 + es2) + es3, s3, es4, t);
    es := ((es1 + es2) + es3) + es4;
    ScanStopsAtOnce(t);
  }
}
