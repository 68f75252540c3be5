/** No message is invented, duplicated or forgotten, and no permit leaks, in any run. */
module ProducerConservation {
  import opened Prelude
  import opened ProducerModel

  // ---- the unconfirmed map as a bag of messages

  ghost predicate Keyed(u: map<nat, Msg>) {
    forall k :: k in u ==> u[k].id == k
  }

  ghost function Bag(u: map<nat, Msg>): multiset<Msg> {
    multiset(u.Values)
  }

  lemma ValuesInsert(u: map<nat, Msg>, m: Msg)
    requires m.id !in u
    ensures u[m.id := m].Values == u.Values + {m}
  {
    var v := u[m.id := m];
    forall x | x in u.Values + {m} ensures x in v.Values {
      if x == m {
        assert v[m.id] == m;
      } else {
        var k :| k in u && u[k] == x;
        assert v[k] == x;
      }
    }
  }

  lemma BagInsert(u: map<nat, Msg>, m: Msg)
    requires Keyed(u) && m.id !in u
    ensures Keyed(u[m.id := m])
    ensures Bag(u[m.id := m]) == Bag(u) + multiset{m}
    ensures |u[m.id := m]| == |u| + 1
  {
    ValuesInsert(u, m);
    assert m !in u.Values;
    assert u[m.id := m].Keys == u.Keys + {m.id};
  }

  lemma BagRemove(u: map<nat, Msg>, k: nat)
    requires Keyed(u) && k in u
    ensures Keyed(u - {k})
    ensures Bag(u) == Bag(u - {k}) + multiset{u[k]}
    ensures |u| == |u - {k}| + 1
  {
    BagInsert(u - {k}, u[k]);
    assert u == (u - {k})[k := u[k]];
  }

  lemma EmplaceKeyed(u: map<nat, Msg>, m: Msg)
    requires Keyed(u)
    ensures Keyed(Emplace(u, m))
    ensures m.id !in u ==> Bag(Emplace(u, m)) == Bag(u) + multiset{m} && |Emplace(u, m)| == |u| + 1
  {
    if m.id !in u { BagInsert(u, m); }
  }

  lemma BagShift(a: multiset<Msg>, x: multiset<Msg>, d: multiset<Msg>, b: multiset<Msg>, r: multiset<Msg>)
    requires a + d == b + r
    ensures a + (x + d) == b + (x + r)
  {
    assert a + (x + d) == (a + d) + x;
    assert b + (x + r) == (b + r) + x;
  }

  /** What emplace drops plus what the map gains is exactly the batch. */
  lemma {:induction false} EmplaceAllBag(u: map<nat, Msg>, ms: seq<Msg>)
    requires Keyed(u)
    ensures Keyed(EmplaceAll(u, ms))
    ensures Bag(EmplaceAll(u, ms)) + multiset(Dropped(u, ms)) == Bag(u) + multiset(ms)
    ensures |EmplaceAll(u, ms)| + |Dropped(u, ms)| == |u| + |ms|
    decreases |ms|
  {
    if ms != [] {
      var v, rest := Emplace(u, ms[0]), ms[1..];
      EmplaceKeyed(u, ms[0]);
      EmplaceAllBag(v, rest);
      assert ms == [ms[0]] + rest;
      if ms[0].id in u {
        BagShift(Bag(EmplaceAll(u, ms)), multiset{ms[0]}, multiset(Dropped(v, rest)), Bag(u), multiset(rest));
      } else {
        assert Dropped(u, ms) == Dropped(v, rest);
        assert Bag(v) + multiset(rest) == Bag(u) + (multiset{ms[0]} + multiset(rest));
      }
    }
  }

  ghost predicate NewTo(ids: seq<nat>, keys: set<nat>) {
    forall i :: 0 <= i < |ids| ==> ids[i] !in keys
  }

  lemma NewToCons(x: nat, rest: seq<nat>, keys: set<nat>)
    ensures NewTo([x] + rest, keys) <==> x !in keys && NewTo(rest, keys)
    ensures NewTo(rest, keys + {x}) <==> x !in rest && NewTo(rest, keys)
  {
    var ids := [x] + rest;
    assert ids[0] == x && forall i :: 0 <= i < |rest| ==> rest[i] == ids[i + 1];
  }

  /** A batch is recorded without loss exactly when its ids are new to the map and to each other. */
  lemma {:induction false} EmplaceLossless(u: map<nat, Msg>, ms: seq<Msg>)
    ensures Dropped(u, ms) == [] <==> Distinct(Ids(ms)) && NewTo(Ids(ms), u.Keys)
    decreases |ms|
  {
    if ms != [] {
      var x, rest := ms[0].id, Ids(ms[1..]);
      EmplaceLossless(Emplace(u, ms[0]), ms[1..]);
      assert Ids(ms) == [x] + rest;
      DistinctCons(x, rest);
      NewToCons(x, rest, u.Keys);
      if x !in u { assert Emplace(u, ms[0]).Keys == u.Keys + {x}; }
    }
  }

  lemma DistinctCons<T>(x: T, s: seq<T>)
    ensures Distinct([x] + s) <==> Distinct(s) && x !in s
  {
    var t := [x] + s;
    assert forall i :: 0 <= i < |s| ==> s[i] == t[i + 1];
    if Distinct(t) {
      forall i, j | 0 <= i < j < |s| ensures s[i] != s[j] { assert t[i + 1] != t[j + 1]; }
      forall j | 0 <= j < |s| ensures s[j] != x { assert t[0] != t[j + 1]; }
    }
  }

  lemma {:induction false} WithoutKeys(u: map<nat, Msg>, ids: seq<nat>)
    ensures forall k :: k in Without(u, ids) <==> k in u && k !in ids
    ensures forall k :: k in Without(u, ids) ==> Without(u, ids)[k] == u[k]
    decreases |ids|
  {
    if ids != [] { WithoutKeys(u - {ids[0]}, ids[1..]); }
  }

  /** Erasing distinct ids moves exactly their messages out of the map. */
  lemma {:induction false} PickBag(u: map<nat, Msg>, ids: seq<nat>)
    requires Keyed(u) && Distinct(ids)
    requires forall x :: x in ids ==> x in u
    ensures Keyed(Without(u, ids))
    ensures Bag(u) == Bag(Without(u, ids)) + multiset(Pick(u, ids))
    ensures |u| == |Without(u, ids)| + |ids|
    decreases |ids|
  {
    if ids != [] {
      var v := u - {ids[0]};
      BagRemove(u, ids[0]);
      assert forall x :: x in ids[1..] ==> x in ids && x != ids[0];
      PickBag(v, ids[1..]);
      assert Pick(u, ids) == [u[ids[0]]] + Pick(v, ids[1..]);
    }
  }

  lemma PickAll(u: map<nat, Msg>, order: seq<nat>)
    requires Keyed(u) && IsOrder(order, u)
    ensures Bag(u) == multiset(Pick(u, order))
  {
    PickBag(u, order);
    assert Without(u, order) == map[];
  }

  lemma MsgsAppend(a: seq<Claim>, b: seq<Claim>)
    ensures Msgs(a + b) == Msgs(a) + Msgs(b)
  {
  }

  lemma MsgsOfClaims(ms: seq<Msg>, confirmed: bool, code: nat)
    ensures Msgs(Claims(ms, confirmed, code)) == ms
  {
  }

  lemma SortedPrefix(keys: set<nat>, r: seq<nat>)
    requires r <= SortedIds(keys)
    ensures Ascending(r) && Distinct(r) && forall x :: x in r ==> x in keys
  {
    var all := SortedIds(keys);
    SortedAscending(keys);
    assert forall i :: 0 <= i < |r| ==> r[i] == all[i] && all[i] in all;
  }

  // ---- conservation of messages

  ghost function Places(st: Store): multiset<Msg> {
    multiset(st.pending) + multiset(Batch(st)) + Bag(st.unconfirmed)
    + multiset(Msgs(st.claims)) + multiset(Msgs(st.resolved)) + multiset(st.lost)
  }

  ghost predicate Conserved(st: Store) {
    && (forall i :: 0 <= i < |st.accepted| ==> st.accepted[i].uid == i)
    && Keyed(st.unconfirmed)
    && multiset(st.accepted) == Places(st)
  }

  lemma ClaimIdsConserved(st: Store, ids: seq<nat>, confirmed: bool, code: nat)
    requires Conserved(st) && Distinct(ids)
    requires forall x :: x in ids ==> x in st.unconfirmed
    ensures Conserved(ClaimIds(st, ids, confirmed, code))
  {
    var picked := Pick(st.unconfirmed, ids);
    PickBag(st.unconfirmed, ids);
    MsgsAppend(st.claims, Claims(picked, confirmed, code));
    MsgsOfClaims(picked, confirmed, code);
  }

  lemma AcceptConserved(st: Store, w: Waiter)
    requires Conserved(st)
    ensures Conserved(Accept(st, w))
  {
    var m := Msg(|st.accepted|, w.id, w.time, w.size);
    assert multiset(st.pending + [m]) == multiset(st.pending) + multiset{m};
    assert multiset(st.accepted + [m]) == multiset(st.accepted) + multiset{m};
    PlacesAdd(multiset(st.pending), multiset{m}, multiset(Batch(st)), Bag(st.unconfirmed), multiset(Msgs(st.claims)),
              multiset(Msgs(st.resolved)), multiset(st.lost));
  }

  lemma PlacesAdd(p: multiset<Msg>, x: multiset<Msg>, b: multiset<Msg>, u: multiset<Msg>, c: multiset<Msg>,
                  r: multiset<Msg>, l: multiset<Msg>)
    ensures (p + x) + b + u + c + r + l == (p + b + u + c + r + l) + x
  {
  }

  lemma ExtractConserved(st: Store)
    requires Conserved(st) && !st.lock.Batching?
    ensures Conserved(Extract(st))
  {
  }

  lemma RecordConserved(st: Store)
    requires Conserved(st)
    ensures Conserved(Record(st))
  {
    var d := Dropped(st.unconfirmed, Batch(st));
    EmplaceAllBag(st.unconfirmed, Batch(st));
    assert multiset(st.lost + d) == multiset(st.lost) + multiset(d);
    PlacesSwap(multiset(st.pending), multiset(Batch(st)), Bag(st.unconfirmed), multiset(Msgs(st.claims)),
               multiset(Msgs(st.resolved)), multiset(st.lost), Bag(Record(st).unconfirmed), multiset(d));
  }

  lemma PlacesSwap(p: multiset<Msg>, b: multiset<Msg>, u: multiset<Msg>, c: multiset<Msg>, r: multiset<Msg>,
                   l: multiset<Msg>, v: multiset<Msg>, d: multiset<Msg>)
    requires v + d == u + b
    ensures p + b + u + c + r + l == p + multiset{} + v + c + r + (l + d)
  {
    assert p + b + u + c + r + l == p + (u + b) + c + r + l;
    assert p + multiset{} + v + c + r + (l + d) == p + (v + d) + c + r + l;
  }

  lemma CallHandlerConserved(st: Store, i: nat)
    requires Conserved(st) && i < |st.claims|
    ensures Conserved(CallHandler(st, i))
  {
    var c := st.claims[i];
    RemoveAtMultiset(Msgs(st.claims), i);
    assert Msgs(RemoveAt(st.claims, i)) == RemoveAt(Msgs(st.claims), i);
    MsgsAppend(st.resolved, [c]);
    assert Msgs([c]) == [c.msg];
  }

  lemma FailAllConserved(st: Store, code: nat, order: seq<nat>)
    requires Conserved(st) && st.lock.Free? && IsOrder(order, st.unconfirmed)
    ensures Conserved(FailAll(st, code, order))
  {
    var picked := Pick(st.unconfirmed, order);
    var a, b := Claims(picked, false, code), Claims(st.pending, false, code);
    PickAll(st.unconfirmed, order);
    MsgsAppend(a, b);
    MsgsAppend(st.resolved, a + b);
    MsgsOfClaims(picked, false, code);
    MsgsOfClaims(st.pending, false, code);
    assert Bag(map[]) == multiset{};
  }

  lemma StepConserved(s: State, e: Event)
    requires Conserved(s.store) && Enabled(s, e)
    ensures Conserved(Apply(s, e).store)
  {
    match e
    case Enqueue(i) => AcceptConserved(s.store, s.senders.waiters[i]);
    case BatchExtract => ExtractConserved(s.store);
    case BatchPublish(sent, threw) => RecordConserved(s.store);
    case Confirm(id) => if id in s.store.unconfirmed { ClaimIdsConserved(s.store, [id], true, OK); }
    case PublishError(id, code) => if id in s.store.unconfirmed { ClaimIdsConserved(s.store, [id], false, code); }
    case Expire =>
      SortedPrefix(s.store.unconfirmed.Keys, Expired(s));
      ClaimIdsConserved(s.store, Expired(s), false, ExpireCode(s));
    case Handle(i) => CallHandlerConserved(s.store, i);
    case StopFail(code, order) => FailAllConserved(s.store, code, order);
    case _ =>
  }

  lemma {:induction false} RunConserved(s: State, es: seq<Event>, t: State)
    requires Conserved(s.store) && Run(s, es, t)
    ensures Conserved(t.store)
    decreases |es|
  {
    if es != [] {
      StepConserved(s, es[0]);
      RunConserved(Apply(s, es[0]), es[1..], t);
    }
  }

  lemma InitialConserved(cfg: Config, firstId: nat)
    ensures Conserved(Initial(cfg, firstId).store)
  {
  }

  lemma {:induction false} DistinctUids(ms: seq<Msg>)
    requires forall i :: 0 <= i < |ms| ==> ms[i].uid == i
    ensures forall m :: multiset(ms)[m] <= 1
    decreases |ms|
  {
    if ms != [] {
      var init, last := ms[..|ms| - 1], ms[|ms| - 1];
      DistinctUids(init);
      assert ms == init + [last];
      assert last !in init;
    }
  }

  /**
   Main result. Whatever the interleaving, the accepted messages are spread over pending,
   the batch being published, the unconfirmed map, the claims of handler threads, the
   resolved ones and the dropped ones, each in exactly one of them and only once; so no
   handler is called twice for a message.
   */
  lemma EachMessageInOnePlace(cfg: Config, firstId: nat, es: seq<Event>, t: State)
    requires Run(Initial(cfg, firstId), es, t)
    ensures multiset(t.store.accepted) == Places(t.store)
    ensures forall m :: Places(t.store)[m] == if m in t.store.accepted then 1 else 0
    ensures Distinct(Msgs(t.store.resolved))
  {
    InitialConserved(cfg, firstId);
    RunConserved(Initial(cfg, firstId), es, t);
    DistinctUids(t.store.accepted);
    assert forall m :: m in t.store.accepted <==> m in multiset(t.store.accepted);
    assert forall m :: multiset(Msgs(t.store.resolved))[m] <= Places(t.store)[m];
    DistinctMultiset(Msgs(t.store.resolved));
  }

  // ---- conservation of permits

  ghost function StorePermits(st: Store): nat {
    |st.pending| + |Batch(st)| + |st.unconfirmed| + |st.claims|
  }

  ghost function PermitsOut(s: State): nat {
    |s.senders.holders| + |s.senders.waiters| + StorePermits(s.store) + s.dying
  }

  ghost predicate PermitsConserved(s: State) {
    && Keyed(s.store.unconfirmed)
    && s.available + PermitsOut(s) == s.cfg.maxUnconfirmed
    && |s.store.pending| <= s.cfg.capacity
  }

  lemma ClaimIdsPermits(st: Store, ids: seq<nat>, confirmed: bool, code: nat)
    requires Keyed(st.unconfirmed) && Distinct(ids)
    requires forall x :: x in ids ==> x in st.unconfirmed
    ensures Keyed(ClaimIds(st, ids, confirmed, code).unconfirmed)
    ensures StorePermits(ClaimIds(st, ids, confirmed, code)) == StorePermits(st)
  {
    PickBag(st.unconfirmed, ids);
  }

  lemma RecordPermits(st: Store)
    requires Keyed(st.unconfirmed)
    ensures Keyed(Record(st).unconfirmed)
    ensures StorePermits(Record(st)) + |Dropped(st.unconfirmed, Batch(st))| == StorePermits(st)
  {
    EmplaceAllBag(st.unconfirmed, Batch(st));
  }

  lemma FailAllPermits(st: Store, code: nat, order: seq<nat>)
    requires st.lock.Free? && IsOrder(order, st.unconfirmed)
    ensures StorePermits(FailAll(st, code, order)) + |order| + |st.pending| == StorePermits(st)
  {
  }

  lemma SenderPermits(s: State, e: Event)
    requires PermitsConserved(s) && Enabled(s, e)
    requires e.Acquire? || e.GiveUp? || e.EncodeFail? || e.Admit? || e.Enqueue?
    ensures PermitsConserved(Apply(s, e)) && Apply(s, e).cfg == s.cfg
  {
  }

  lemma AnswerPermits(s: State, e: Event)
    requires PermitsConserved(s) && Enabled(s, e)
    requires e.Confirm? || e.PublishError? || e.Expire?
    ensures PermitsConserved(Apply(s, e)) && Apply(s, e).cfg == s.cfg
  {
    match e
    case Confirm(id) => if id in s.store.unconfirmed { ClaimIdsPermits(s.store, [id], true, OK); }
    case PublishError(id, code) => if id in s.store.unconfirmed { ClaimIdsPermits(s.store, [id], false, code); }
    case Expire =>
      SortedPrefix(s.store.unconfirmed.Keys, Expired(s));
      ClaimIdsPermits(s.store, Expired(s), false, ExpireCode(s));
  }

  lemma OtherPermits(s: State, e: Event)
    requires PermitsConserved(s) && Enabled(s, e)
    requires !e.Acquire? && !e.GiveUp? && !e.EncodeFail? && !e.Admit? && !e.Enqueue?
    requires !e.Confirm? && !e.PublishError? && !e.Expire?
    ensures PermitsConserved(Apply(s, e)) && Apply(s, e).cfg == s.cfg
  {
    match e
    case BatchPublish(sent, threw) => RecordPermits(s.store);
    case StopFail(code, order) => FailAllPermits(s.store, code, order);
    case _ =>
  }

  lemma StepPermits(s: State, e: Event)
    requires PermitsConserved(s) && Enabled(s, e)
    ensures PermitsConserved(Apply(s, e)) && Apply(s, e).cfg == s.cfg
  {
    if e.Acquire? || e.GiveUp? || e.EncodeFail? || e.Admit? || e.Enqueue? {
      SenderPermits(s, e);
    } else if e.Confirm? || e.PublishError? || e.Expire? {
      AnswerPermits(s, e);
    } else {
      OtherPermits(s, e);
    }
  }

  lemma {:induction false} RunPermits(s: State, es: seq<Event>, t: State)
    requires PermitsConserved(s) && Run(s, es, t)
    ensures PermitsConserved(t) && t.cfg == s.cfg
    decreases |es|
  {
    if es != [] {
      StepPermits(s, es[0]);
      RunPermits(Apply(s, es[0]), es[1..], t);
    }
  }

  /**
   Main result. Free permits plus the permits held by senders and by live messages always
   make up max_unconfirmed, so the accumulator, the batch in publication and the
   unconfirmed map together never hold more messages than that; the accumulator never
   outgrows the batch size.
   */
  lemma PermitsNeverLeak(cfg: Config, firstId: nat, es: seq<Event>, t: State)
    requires Run(Initial(cfg, firstId), es, t)
    ensures t.available + PermitsOut(t) == cfg.maxUnconfirmed
    ensures |t.store.pending| + |Batch(t.store)| + |t.store.unconfirmed| <= cfg.maxUnconfirmed
    ensures |t.store.pending| <= cfg.capacity
  {
    RunPermits(Initial(cfg, firstId), es, t);
  }
}
