/** The confirm-timeout scan: what it expires, and when its early exit is exact. */
module ProducerTimeout {
  import opened Prelude
  import opened ProducerModel
  import opened ProducerConservation
  import opened ProducerGuarantees
  import opened ProducerOrder

  /** The reference: every message at or below the threshold, in id order. */
  function AllExpired(u: map<nat, Msg>, ids: seq<nat>, threshold: int): seq<nat>
    requires forall x :: x in ids ==> x in u
  {
    if ids == [] then []
    else (if u[ids[0]].time <= threshold then [ids[0]] else []) + AllExpired(u, ids[1..], threshold)
  }

  lemma {:induction false} AllExpiredMembers(u: map<nat, Msg>, ids: seq<nat>, threshold: int)
    requires forall x :: x in ids ==> x in u
    ensures forall x :: x in AllExpired(u, ids, threshold) <==> x in ids && u[x].time <= threshold
  {
    if ids != [] { AllExpiredMembers(u, ids[1..], threshold); }
  }

  lemma {:induction false} NeverTooYoung(u: map<nat, Msg>, ids: seq<nat>, threshold: int)
    requires forall x :: x in ids ==> x in u
    ensures forall x :: x in ExpiredPrefix(u, ids, threshold) ==> u[x].time <= threshold
  {
    if ids != [] && u[ids[0]].time <= threshold { NeverTooYoung(u, ids[1..], threshold); }
  }

  /** No expired message comes after one that is too young. */
  ghost predicate YoungLast(u: map<nat, Msg>, ids: seq<nat>, threshold: int)
    requires forall x :: x in ids ==> x in u
  {
    forall i, j :: 0 <= i < j < |ids| && u[ids[i]].time > threshold ==> u[ids[j]].time > threshold
  }

  /** The early exit misses nothing exactly when no expired message hides behind a younger one. */
  lemma {:induction false} EarlyExitExactly(u: map<nat, Msg>, ids: seq<nat>, threshold: int)
    requires forall x :: x in ids ==> x in u
    ensures ExpiredPrefix(u, ids, threshold) == AllExpired(u, ids, threshold) <==> YoungLast(u, ids, threshold)
  {
    if ids != [] {
      var rest := ids[1..];
      assert forall i :: 0 <= i < |rest| ==> rest[i] == ids[i + 1];
      EarlyExitExactly(u, rest, threshold);
      if u[ids[0]].time <= threshold {
        assert YoungLast(u, ids, threshold) <==> YoungLast(u, rest, threshold) by {
          if YoungLast(u, ids, threshold) {
            forall i, j | 0 <= i < j < |rest| && u[rest[i]].time > threshold ensures u[rest[j]].time > threshold {
              assert rest[i] == ids[i + 1] && rest[j] == ids[j + 1];
            }
          }
        }
        ConsEqual(ids[0], ExpiredPrefix(u, rest, threshold), AllExpired(u, rest, threshold));
      } else {
        AllExpiredMembers(u, rest, threshold);
        NoneExpired(u, ids, threshold);
      }
    }
  }

  lemma ConsEqual(x: nat, a: seq<nat>, b: seq<nat>)
    ensures [x] + a == [x] + b <==> a == b
  {
    assert ([x] + a)[1..] == a && ([x] + b)[1..] == b;
  }

  lemma NoneExpired(u: map<nat, Msg>, ids: seq<nat>, threshold: int)
    requires ids != [] && forall x :: x in ids ==> x in u
    requires u[ids[0]].time > threshold
    ensures AllExpired(u, ids, threshold) == [] <==> YoungLast(u, ids, threshold)
  {
    AllExpiredMembers(u, ids, threshold);
    var all := AllExpired(u, ids, threshold);
    if all == [] {
      forall i | 0 <= i < |ids| ensures u[ids[i]].time > threshold { assert ids[i] in ids && ids[i] !in all; }
    } else {
      assert all[0] in all;
    }
  }

  // ---- one sending thread with automatic ids: publish times follow ids

  datatype Stamp = Stamp(id: nat, time: int)

  ghost function MsgStamps(ms: seq<Msg>): set<Stamp> {
    set m | m in ms :: Stamp(m.id, m.time)
  }

  ghost function MapStamps(u: map<nat, Msg>): set<Stamp> {
    set k | k in u :: Stamp(k, u[k].time)
  }

  ghost function WaiterStamps(ws: seq<Waiter>): set<Stamp> {
    set w | w in ws :: Stamp(w.id, w.time)
  }

  ghost function StoreStamps(st: Store): set<Stamp> {
    MapStamps(st.unconfirmed) + MsgStamps(Batch(st)) + MsgStamps(st.pending)
  }

  ghost function Stamps(s: State): set<Stamp> {
    StoreStamps(s.store) + WaiterStamps(s.senders.waiters)
  }

  ghost predicate InOrder(stamps: set<Stamp>, now: int) {
    && (forall a, b :: a in stamps && b in stamps && a.id <= b.id ==> a.time <= b.time)
    && (forall a :: a in stamps ==> a.time <= now)
  }

  lemma InOrderSubset(a: set<Stamp>, b: set<Stamp>, now: int, later: int)
    requires InOrder(b, now) && a <= b && now <= later
    ensures InOrder(a, later)
  {
  }

  lemma InOrderAdd(a: set<Stamp>, now: int, x: Stamp)
    requires InOrder(a, now) && x.time == now && forall y :: y in a ==> y.id < x.id
    ensures InOrder(a + {x}, now)
  {
  }

  /** Every stamp carries an id below the send that still holds only its permit. */
  lemma HolderIsLast(s: State)
    requires Ordered(s) && |s.senders.holders| == 1
    ensures s.senders.waiters == []
    ensures forall y :: y in Stamps(s) ==> y.id < s.senders.holders[0].id
  {
    OneSender(s.senders);
    var id := s.senders.holders[0].id;
    var b, p := Ids(Batch(s.store)), Ids(s.store.pending);
    assert Queue(s) == b + p + [id] + [s.senders.nextId];
    BeforeInFlight(b, p, id, s.senders.nextId);
    assert forall m :: m in Batch(s.store) ==> m.id in b by {
      forall m | m in Batch(s.store) ensures m.id in b { var i :| 0 <= i < |Batch(s.store)| && Batch(s.store)[i] == m; assert b[i] == m.id; }
    }
    assert forall m :: m in s.store.pending ==> m.id in p by {
      forall m | m in s.store.pending ensures m.id in p { var i :| 0 <= i < |s.store.pending| && s.store.pending[i] == m; assert p[i] == m.id; }
    }
  }

  lemma ClaimStamps(st: Store, ids: seq<nat>, confirmed: bool, code: nat)
    requires forall x :: x in ids ==> x in st.unconfirmed
    ensures StoreStamps(ClaimIds(st, ids, confirmed, code)) <= StoreStamps(st)
  {
    WithoutKeys(st.unconfirmed, ids);
  }

  lemma {:induction false} EmplaceStamps(u: map<nat, Msg>, ms: seq<Msg>)
    ensures MapStamps(EmplaceAll(u, ms)) <= MapStamps(u) + MsgStamps(ms)
    decreases |ms|
  {
    if ms != [] {
      EmplaceStamps(Emplace(u, ms[0]), ms[1..]);
      assert MapStamps(Emplace(u, ms[0])) <= MapStamps(u) + {Stamp(ms[0].id, ms[0].time)};
      assert ms[0] in ms;
    }
  }

  lemma RecordStamps(st: Store)
    ensures StoreStamps(Record(st)) <= StoreStamps(st)
  {
    EmplaceStamps(st.unconfirmed, Batch(st));
  }

  lemma AcceptStamps(st: Store, w: Waiter)
    ensures StoreStamps(Accept(st, w)) == StoreStamps(st) + {Stamp(w.id, w.time)}
  {
    var m := Msg(|st.accepted|, w.id, w.time, w.size);
    assert MsgStamps(st.pending + [m]) == MsgStamps(st.pending) + {Stamp(w.id, w.time)} by {
      assert m in st.pending + [m];
    }
  }

  lemma StoreShrinks(s: State, e: Event)
    requires Enabled(s, e) && !e.Enqueue?
    ensures StoreStamps(Apply(s, e).store) <= StoreStamps(s.store)
  {
    match e
    case BatchPublish(_, _) => RecordStamps(s.store);
    case Confirm(id) => if id in s.store.unconfirmed { ClaimStamps(s.store, [id], true, OK); }
    case PublishError(id, code) => if id in s.store.unconfirmed { ClaimStamps(s.store, [id], false, code); }
    case Expire => ClaimStamps(s.store, Expired(s), false, ExpireCode(s));
    case _ =>
  }

  lemma EnqueueStamps(s: State, e: Event)
    requires Enabled(s, e) && e.Enqueue?
    ensures Stamps(Apply(s, e)) <= Stamps(s)
  {
    var w := s.senders.waiters[e.i];
    assert w in s.senders.waiters;
    AcceptStamps(s.store, w);
    assert WaiterStamps(RemoveAt(s.senders.waiters, e.i)) <= WaiterStamps(s.senders.waiters);
  }

  lemma AdmitAdds(s: State, e: Event)
    requires Enabled(s, e) && e.Admit? && |s.senders.holders| == 1 && s.senders.waiters == []
    ensures Stamps(Apply(s, e)) <= Stamps(s) + {Stamp(s.senders.holders[0].id, s.now)}
    ensures Apply(s, e).now == s.now
  {
    var d := s.senders.holders[0];
    assert WaiterStamps([]) == {};
    assert WaiterStamps([Waiter(d.id, s.now, d.size)]) == {Stamp(d.id, s.now)};
  }

  lemma AdmitStamps(s: State, e: Event)
    requires Ordered(s) && Enabled(s, e) && e.Admit?
    requires InOrder(Stamps(s), s.now)
    ensures InOrder(Stamps(Apply(s, e)), s.now)
  {
    OneSender(s.senders);
    HolderIsLast(s);
    var x := Stamp(s.senders.holders[0].id, s.now);
    InOrderAdd(Stamps(s), s.now, x);
    AdmitAdds(s, e);
    InOrderSubset(Stamps(Apply(s, e)), Stamps(s) + {x}, s.now, s.now);
  }

  lemma WaitersKept(s: State, e: Event)
    requires Enabled(s, e) && !e.Enqueue? && !e.Admit?
    ensures Apply(s, e).senders.waiters == s.senders.waiters && s.now <= Apply(s, e).now
  {
  }

  lemma StepInOrder(s: State, e: Event)
    requires Ordered(s) && Enabled(s, e) && InOrder(Stamps(s), s.now)
    ensures InOrder(Stamps(Apply(s, e)), Apply(s, e).now)
  {
    if e.Admit? {
      AdmitStamps(s, e);
    } else {
      if e.Enqueue? {
        EnqueueStamps(s, e);
      } else {
        StoreShrinks(s, e);
        WaitersKept(s, e);
      }
      InOrderSubset(Stamps(Apply(s, e)), Stamps(s), s.now, Apply(s, e).now);
    }
  }

  lemma {:induction false} RunInOrder(s: State, es: seq<Event>, t: State)
    requires Ordered(s) && InOrder(Stamps(s), s.now)
    requires Run(s, es, t) && AutoRun(s, es)
    ensures InOrder(Stamps(t), t.now)
    decreases |es|
  {
    if es != [] {
      StepOrdered(s, es[0]);
      StepInOrder(s, es[0]);
      RunInOrder(Apply(s, es[0]), es[1..], t);
    }
  }

  /** As far as `x` is concerned, `expired` are the ids of `u` that are due and `left` is the rest of `u`. */
  ghost predicate SplitsAt(u: map<nat, Msg>, threshold: int, expired: seq<nat>, left: map<nat, Msg>, x: nat) {
    && (x in expired <==> x in u && u[x].time <= threshold)
    && (x in left <==> x in u && u[x].time > threshold)
    && (x in left ==> left[x] == u[x])
  }

  /** The scan takes `x` if it is due, leaves it untouched if it is not, and invents nothing. */
  ghost predicate ScannedRight(t: State, x: nat)
    requires Enabled(t, Expire)
  {
    SplitsAt(t.store.unconfirmed, t.now - t.cfg.confirmTimeout, Expired(t), Apply(t, Expire).store.unconfirmed, x)
  }

  /**
   Main result. In every run of one sending thread with automatic ids, the timeout scan
   takes exactly the unconfirmed messages published at or before the threshold and leaves
   exactly the others, in spite of its early exit.
   */
  lemma ScanIsExact(cfg: Config, firstId: nat, es: seq<Event>, t: State)
    requires Run(Initial(cfg, firstId), es, t) && AutoRun(Initial(cfg, firstId), es)
    requires Enabled(t, Expire)
    ensures t.cfg == cfg && forall x: nat :: ScannedRight(t, x)
  {
    ReachedInOrder(cfg, firstId, es, t);
    forall x: nat ensures ScannedRight(t, x) { ScanInOrder(t, x); }
  }

  lemma ScanInOrder(t: State, x: nat)
    requires Enabled(t, Expire) && InOrder(Stamps(t), t.now)
    ensures ScannedRight(t, x)
  {
    var u, threshold := t.store.unconfirmed, t.now - t.cfg.confirmTimeout;
    SplitAt(t, threshold, x);
    ScanAt(t, u, threshold, x);
  }

  lemma ScanAt(t: State, u: map<nat, Msg>, threshold: int, x: nat)
    requires Enabled(t, Expire) && u == t.store.unconfirmed && threshold == t.now - t.cfg.confirmTimeout
    requires SplitsAt(u, threshold, ExpiredIn(u, threshold), Without(u, ExpiredIn(u, threshold)), x)
    ensures ScannedRight(t, x)
  {
    ExpireLeaves(t);
  }

  lemma SplitAt(t: State, threshold: int, x: nat)
    requires InOrder(Stamps(t), t.now)
    ensures var u := t.store.unconfirmed;
            SplitsAt(u, threshold, ExpiredIn(u, threshold), Without(u, ExpiredIn(u, threshold)), x)
  {
    StampsYoungLast(t, threshold);
    ExpiredInExact(t.store.unconfirmed, threshold);
  }

  lemma StampsYoungLast(t: State, threshold: int)
    requires InOrder(Stamps(t), t.now)
    ensures YoungLast(t.store.unconfirmed, SortedIds(t.store.unconfirmed.Keys), threshold)
  {
    YoungLastInOrder(t.store.unconfirmed, Stamps(t), t.now, threshold);
  }

  lemma ReachedInOrder(cfg: Config, firstId: nat, es: seq<Event>, t: State)
    requires Run(Initial(cfg, firstId), es, t) && AutoRun(Initial(cfg, firstId), es)
    ensures InOrder(Stamps(t), t.now) && t.cfg == cfg
  {
    var init := Initial(cfg, firstId);
    InitialOrdered(cfg, firstId);
    assert Stamps(init) == {};
    RunInOrder(init, es, t);
    RunPermits(init, es, t);
  }

  /** `expired` are the ids of `u` at or before the threshold, and `left` is the rest of `u`. */
  ghost predicate Splits(u: map<nat, Msg>, threshold: int, expired: seq<nat>, left: map<nat, Msg>) {
    && (forall x :: x in expired <==> x in u && u[x].time <= threshold)
    && (forall x :: x in left <==> x in u && u[x].time > threshold)
    && (forall x :: x in left ==> left[x] == u[x])
  }

  lemma ExpiredInExact(u: map<nat, Msg>, threshold: int)
    requires YoungLast(u, SortedIds(u.Keys), threshold)
    ensures Splits(u, threshold, ExpiredIn(u, threshold), Without(u, ExpiredIn(u, threshold)))
  {
    PrefixExact(u, threshold);
    LeftExact(u, ExpiredIn(u, threshold), threshold);
  }

  lemma ExpireLeaves(t: State)
    requires Enabled(t, Expire)
    ensures Expired(t) == ExpiredIn(t.store.unconfirmed, t.now - t.cfg.confirmTimeout)
    ensures Apply(t, Expire).store.unconfirmed == Without(t.store.unconfirmed, Expired(t))
  {
  }

  lemma LeftExact(u: map<nat, Msg>, r: seq<nat>, threshold: int)
    requires forall x :: x in r <==> x in u && u[x].time <= threshold
    ensures forall x :: x in Without(u, r) <==> x in u && u[x].time > threshold
    ensures forall x :: x in Without(u, r) ==> Without(u, r)[x] == u[x]
  {
    WithoutKeys(u, r);
  }

  lemma YoungLastInOrder(u: map<nat, Msg>, stamps: set<Stamp>, now: int, threshold: int)
    requires InOrder(stamps, now) && MapStamps(u) <= stamps
    ensures YoungLast(u, SortedIds(u.Keys), threshold)
  {
    var ids := SortedIds(u.Keys);
    SortedAscending(u.Keys);
    forall i, j | 0 <= i < j < |ids| && u[ids[i]].time > threshold ensures u[ids[j]].time > threshold {
      assert ids[i] in u && ids[j] in u;
      assert Stamp(ids[i], u[ids[i]].time) in MapStamps(u) && Stamp(ids[j], u[ids[j]].time) in MapStamps(u);
    }
  }

  lemma PrefixExact(u: map<nat, Msg>, threshold: int)
    requires YoungLast(u, SortedIds(u.Keys), threshold)
    ensures forall x :: x in ExpiredPrefix(u, SortedIds(u.Keys), threshold) <==> x in u && u[x].time <= threshold
  {
    EarlyExitExactly(u, SortedIds(u.Keys), threshold);
    AllExpiredMembers(u, SortedIds(u.Keys), threshold);
  }
}
