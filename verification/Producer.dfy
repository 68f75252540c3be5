/**
 The producer's objects in the form the source gives them. Each method is one lock region;
 ProducerImpl carries the abstract state `st` and every method takes the step of the state
 machine that it claims to be.
 */
module Producer {
  import opened Prelude
  import Commands
  import opened ProducerModel
  import opened ProducerConservation
  import opened ProducerHistory
  import opened ProducerSends

  datatype Attempt = Granted | TimedOut | Destroyed

  class Semaphore {
    var available: nat
    var destroyed: bool

    constructor (desired: nat)
      ensures available == desired && !destroyed
    {
      available := desired;
      destroyed := false;
    }

    /** Runs once the wait is over: a permit is free or the semaphore is destroyed. */
    method Acquire() returns (r: Attempt)
      requires available > 0 || destroyed
      modifies this`available
      ensures r == if destroyed then Destroyed else Granted
      ensures available == old(available) - if r.Granted? then 1 else 0
    {
      if destroyed { return Destroyed; }
      available := available - 1;
      r := Granted;
    }

    /** The timed wait may end at any moment; what counts is the state it then finds. */
    method TryAcquireFor() returns (r: Attempt)
      modifies this`available
      ensures r == if destroyed then Destroyed else if old(available) == 0 then TimedOut else Granted
      ensures available == old(available) - if r.Granted? then 1 else 0
    {
      var acquired := available > 0 || destroyed;
      if destroyed { return Destroyed; }
      if !acquired { return TimedOut; }
      available := available - 1;
      r := Granted;
    }

    method Release()
      modifies this`available
      ensures available == old(available) + 1
    {
      available := available + 1;
    }

    method Destroy()
      modifies this`destroyed
      ensures destroyed
    {
      destroyed := true;
    }
  }

  /** The move-only owner of one unit of a semaphore. */
  class Permit {
    var semaphore: Semaphore?

    /** An unattached permit, or one unit of `s`. */
    constructor (s: Semaphore?)
      ensures semaphore == s
    {
      semaphore := s;
    }

    ghost function Units(s: Semaphore): nat
      reads this
    {
      if semaphore == s then 1 else 0
    }

    /** The destructor. */
    method Drop()
      modifies this, semaphore
      ensures semaphore == null
      ensures forall s: Semaphore :: allocated(s) && old(allocated(s)) ==>
                s.available + Units(s) == old(s.available + Units(s)) && s.destroyed == old(s.destroyed)
    {
      if semaphore != null {
        semaphore.Release();
        semaphore := null;
      }
    }

    /** Move assignment: what this permit held is released, what the other held is taken over. */
    method MoveFrom(other: Permit)
      modifies this, other, semaphore
      ensures semaphore == old(other.semaphore)
      ensures this != other ==> other.semaphore == null
      ensures forall s: Semaphore :: allocated(s) && old(allocated(s)) ==> s.destroyed == old(s.destroyed)
      ensures this != other ==> forall s: Semaphore :: allocated(s) && old(allocated(s)) ==>
                s.available + Units(s) + other.Units(s) == old(s.available + Units(s) + other.Units(s))
    {
      if this != other {
        Drop();
        semaphore := other.semaphore;
        other.semaphore := null;
      }
    }
  }

  class Accumulator {
    const capacity: nat
    var maxFrame: nat
    var pending: seq<Msg>
    var destroyed: bool

    constructor (capacity: nat, maxFrame: nat)
      ensures this.capacity == capacity && this.maxFrame == maxFrame && pending == [] && !destroyed
    {
      this.capacity := capacity;
      this.maxFrame := maxFrame;
      pending := [];
      destroyed := false;
    }

    /** The admission test of `add`, before it waits for room. */
    method Admits(size: nat) returns (ok: bool)
      ensures ok <==> FitsAccumulator(maxFrame, size)
    {
      ok := !(maxFrame > 0 && Commands.BASE_SIZE + Commands.PublishedSize(size) > maxFrame);
    }

    /** The end of `add`, once there is room or the accumulator is gone. */
    method Append(m: Msg) returns (added: bool, full: bool)
      requires |pending| < capacity || destroyed
      modifies this`pending
      ensures added == !destroyed
      ensures pending == if added then old(pending) + [m] else old(pending)
      ensures full <==> added && |pending| == capacity
      ensures |old(pending)| <= capacity ==> |pending| <= capacity
    {
      if destroyed { return false, false; }
      pending := pending + [m];
      return true, |pending| == capacity;
    }

    method ExtractAll() returns (extracted: seq<Msg>)
      modifies this`pending
      ensures extracted == old(pending) && pending == []
    {
      extracted := [];
      extracted, pending := pending, extracted;
    }

    method Destroy()
      modifies this`destroyed
      ensures destroyed
    {
      destroyed := true;
    }
  }

  /** publish_batch's recording loop over unordered_map::emplace. */
  method RecordBatch(u: map<nat, Msg>, batch: seq<Msg>) returns (v: map<nat, Msg>, released: nat)
    ensures v == EmplaceAll(u, batch) && released == |Dropped(u, batch)|
  {
    v, released := u, 0;
    for i := 0 to |batch|
      invariant EmplaceAll(v, batch[i..]) == EmplaceAll(u, batch)
      invariant released + |Dropped(v, batch[i..])| == |Dropped(u, batch)|
    {
      assert batch[i..][1..] == batch[i + 1..];
      if batch[i].id in v {
        released := released + 1;
      } else {
        v := v[batch[i].id := batch[i]];
      }
    }
  }

  lemma {:induction false} WithoutSnoc(u: map<nat, Msg>, ids: seq<nat>, x: nat)
    ensures Without(u, ids + [x]) == Without(u, ids) - {x}
    decreases |ids|
  {
    if ids == [] {
      assert [x][1..] == [];
      assert Without(u, [x]) == Without(u - {x}, []);
      assert ids + [x] == [x];
    } else {
      assert (ids + [x])[1..] == ids[1..] + [x];
      WithoutSnoc(u - {ids[0]}, ids[1..], x);
    }
  }

  lemma {:induction false} PrefixIs(u: map<nat, Msg>, ids: seq<nat>, threshold: int, i: nat)
    requires forall x :: x in ids ==> x in u
    requires i <= |ids| && forall j :: 0 <= j < i ==> u[ids[j]].time <= threshold
    requires i < |ids| ==> u[ids[i]].time > threshold
    ensures ExpiredPrefix(u, ids, threshold) == ids[..i]
    decreases i
  {
    if i > 0 {
      var rest := ids[1..];
      assert forall j :: 0 <= j < |rest| ==> rest[j] == ids[j + 1];
      PrefixIs(u, rest, threshold, i - 1);
      assert ids[..i] == [ids[0]] + rest[..i - 1];
    }
  }

  lemma PickSnoc(u: map<nat, Msg>, ids: seq<nat>, i: nat)
    requires i < |ids| && forall x :: x in ids ==> x in u
    ensures ids[..i + 1] == ids[..i] + [ids[i]]
    ensures forall x :: x in ids[..i + 1] ==> x in u
    ensures Pick(u, ids[..i + 1]) == Pick(u, ids[..i]) + [u[ids[i]]]
    ensures Without(u, ids[..i + 1]) == Without(u, ids[..i]) - {ids[i]}
  {
    WithoutSnoc(u, ids[..i], ids[i]);
    assert ids[..i + 1] == ids[..i] + [ids[i]];
  }

  /** The scan of check_confirm_timeout over its sorted copy, left at the first young message. */
  method ScanSorted(u: map<nat, Msg>, sorted: seq<nat>, threshold: int)
    returns (left: map<nat, Msg>, timedOut: seq<Msg>, ghost expired: seq<nat>)
    requires forall x :: x in sorted ==> x in u
    ensures expired == ExpiredPrefix(u, sorted, threshold) && forall x :: x in expired ==> x in u
    ensures left == Without(u, expired) && timedOut == Pick(u, expired)
    ensures forall m :: m in timedOut ==> m.time <= threshold
    ensures forall x :: x in left <==> x in u && x !in ExpiredPrefix(u, sorted, threshold)
  {
    left, timedOut := u, [];
    var i := 0;
    while i < |sorted| && u[sorted[i]].time <= threshold
      invariant 0 <= i <= |sorted|
      invariant forall j :: 0 <= j < i ==> u[sorted[j]].time <= threshold
      invariant left == Without(u, sorted[..i])
      invariant timedOut == Pick(u, sorted[..i])
    {
      PickSnoc(u, sorted, i);
      timedOut := timedOut + [u[sorted[i]]];
      left := left - {sorted[i]};
      i := i + 1;
    }
    PrefixIs(u, sorted, threshold, i);
    expired := sorted[..i];
    WithoutKeys(u, expired);
  }

  lemma GroupStep(calls: seq<seq<nat>>, group: seq<nat>, x: nat, rest: seq<nat>, k: nat)
    requires |group| < k
    ensures calls + Groups(group + ([x] + rest), k) ==
            if |group| + 1 == k then (calls + [group + [x]]) + Groups([] + rest, k) else calls + Groups((group + [x]) + rest, k)
  {
    assert group + ([x] + rest) == (group + [x]) + rest;
    if |group| + 1 == k {
      GroupsFull(group + [x], rest, k);
      assert [] + rest == rest;
      assert calls + ([group + [x]] + Groups(rest, k)) == (calls + [group + [x]]) + Groups(rest, k);
    }
  }

  /** The resending loop of reconnect_to_server: the publish_encoded calls it makes. */
  method ResendCalls(sorted: seq<nat>, batchSize: nat) returns (calls: seq<seq<nat>>)
    requires batchSize > 0
    ensures calls == Groups(sorted, batchSize) && Flatten(calls) == sorted
    ensures forall k :: 0 <= k < |calls| ==> 0 < |calls[k]| <= batchSize
    ensures forall k :: 0 <= k < |calls| - 1 ==> |calls[k]| == batchSize
  {
    var group: seq<nat> := [];
    calls := [];
    assert group + sorted[0..] == sorted;
    for i := 0 to |sorted|
      invariant |group| < batchSize
      invariant calls + Groups(group + sorted[i..], batchSize) == Groups(sorted, batchSize)
    {
      ghost var rest := sorted[i + 1..];
      assert sorted[i..] == [sorted[i]] + rest;
      GroupStep(calls, group, sorted[i], rest, batchSize);
      group := group + [sorted[i]];
      if |group| == batchSize {
        calls, group := calls + [group], [];
      }
    }
    assert group + sorted[|sorted|..] == group;
    if group != [] {
      calls := calls + [group];
    }
    GroupsFlatten(sorted, batchSize);
    GroupsSizes(sorted, batchSize);
  }

  /** The same loop, left at the call numbered `failing` if it gets that far. */
  method ResendUntil(sorted: seq<nat>, batchSize: nat, failing: Option<nat>) returns (calls: seq<seq<nat>>, threw: bool)
    requires batchSize > 0
    ensures threw <==> failing.Some? && failing.value < |Groups(sorted, batchSize)|
    ensures calls == if threw then Groups(sorted, batchSize)[..failing.value + 1] else Groups(sorted, batchSize)
    ensures Flatten(calls) <= sorted && (!threw ==> Flatten(calls) == sorted)
    ensures forall k :: 0 <= k < |calls| ==> 0 < |calls[k]| <= batchSize
  {
    calls := ResendCalls(sorted, batchSize);
    threw := failing.Some? && failing.value < |calls|;
    if threw {
      PrefixFlattens(calls, failing.value + 1);
      calls := calls[..failing.value + 1];
    }
  }

  /** `sent` messages had been handed over when the call numbered `failing` threw: all of those before it, and some of its own. */
  ghost predicate SentBefore(u: map<nat, Msg>, batchSize: nat, failing: Option<nat>, sent: nat)
    requires batchSize > 0
  {
    var all := Groups(SortedIds(u.Keys), batchSize);
    failing.Some? && failing.value < |all| ==>
      |Flatten(all[..failing.value])| <= sent <= |Flatten(all[..failing.value + 1])|
  }

  /**
   What the second region of reconnect_to_server sends: nothing when the producer has been
   stopped; all unconfirmed ids ascending, in groups within the batch size; or those up to
   the throwing call, of which the last group may have gone out in part.
   */
  ghost predicate Resent(
    started: bool, u: map<nat, Msg>, batchSize: nat, failing: Option<nat>, sent: nat, calls: seq<seq<nat>>, threw: bool)
    requires batchSize > 0
  {
    var sorted := SortedIds(u.Keys);
    && (threw <==> started && failing.Some? && failing.value < |Groups(sorted, batchSize)|)
    && (!started ==> calls == [])
    && (started && !threw ==> calls == Groups(sorted, batchSize) && Flatten(calls) == sorted)
    && (threw ==>
          && Flatten(calls) <= sorted && |calls| == failing.value + 1
          && |Flatten(calls[..failing.value])| <= sent <= |Flatten(calls)| <= |u|)
    && (forall k :: 0 <= k < |calls| ==> 0 < |calls[k]| <= batchSize)
  }

  method ResendIf(started: bool, u: map<nat, Msg>, batchSize: nat, failing: Option<nat>, ghost sent: nat)
    returns (calls: seq<seq<nat>>, threw: bool)
    requires batchSize > 0 && SentBefore(u, batchSize, failing, sent)
    ensures Resent(started, u, batchSize, failing, sent, calls, threw)
    ensures threw ==> sent <= |u|
  {
    calls, threw := [], false;
    if started {
      calls, threw := ResendUntil(SortedIds(u.Keys), batchSize, failing);
      if threw {
        assert calls[..failing.value] == Groups(SortedIds(u.Keys), batchSize)[..failing.value];
      }
    }
  }

  lemma ReconnectLink(s: State, sent: nat, threw: bool)
    requires Enabled(s, ReconnectFinish(sent, threw))
    ensures var t := Apply(s, ReconnectFinish(sent, threw));
            && t == s.(link := t.link)
            && t.link.client == if s.stop.NotStopped? && !threw then Some(|s.link.conns|) else s.link.client
  {
  }

  /** The messages check_confirm_timeout takes out of the map. */
  function ExpiredMessages(s: State): seq<Msg> {
    Pick(s.store.unconfirmed, Expired(s))
  }

  lemma ExpireStep(s: State, t: State)
    requires Enabled(s, Expire) && t == Apply(s, Expire)
    ensures t.store.unconfirmed == Without(s.store.unconfirmed, Expired(s))
    ensures t.store.claims == s.store.claims + Claims(ExpiredMessages(s), false, ExpireCode(s))
    ensures t == s.(store := t.store) && t.store.pending == s.store.pending
  {
  }

  lemma ClaimOneEffect(st: Store, id: nat, confirmed: bool, code: nat)
    requires id in st.unconfirmed
    ensures var t := ClaimOne(st, id, confirmed, code);
            && t.unconfirmed == st.unconfirmed - {id} && t.pending == st.pending
            && t.claims == st.claims + [Claim(st.unconfirmed[id], confirmed, code)]
  {
    assert [id][1..] == [];
    assert Without(st.unconfirmed, [id]) == Without(st.unconfirmed - {id}, []);
    assert Claims(Pick(st.unconfirmed, [id]), confirmed, code) == [Claim(st.unconfirmed[id], confirmed, code)];
  }

  lemma StopFailEffect(s: State, code: nat, order: seq<nat>, t: State)
    requires Enabled(s, StopFail(code, order)) && t == Apply(s, StopFail(code, order))
    ensures t == s.(store := t.store, available := s.available + |s.store.unconfirmed| + |s.store.pending|, stop := Drained)
    ensures t.store.unconfirmed == map[] && t.store.pending == []
    ensures t.store.resolved ==
            s.store.resolved + (Claims(Pick(s.store.unconfirmed, order), false, code) + Claims(s.store.pending, false, code))
  {
  }

  /** check_confirm_timeout on the map: sort the ids, then scan. */
  method TakeExpired(u: map<nat, Msg>, threshold: int) returns (left: map<nat, Msg>, timedOut: seq<Msg>)
    ensures left == Without(u, ExpiredIn(u, threshold)) && timedOut == Pick(u, ExpiredIn(u, threshold))
  {
    ghost var expired;
    left, timedOut, expired := ScanSorted(u, SortedIds(u.Keys), threshold);
  }

  class ProducerImpl {
    const sem: Semaphore
    const acc: Accumulator
    var nextId: nat
    var started: bool
    var unconfirmed: map<nat, Msg>
    var client: Option<nat>
    ghost var st: State

    ghost predicate Valid()
      reads this, sem, acc
    {
      && sem.available == st.available && sem.destroyed == st.stop.SemaphoreDestroyed()
      && acc.pending == st.store.pending && acc.destroyed == st.stop.AccumulatorDestroyed()
      && acc.capacity == st.cfg.capacity && acc.maxFrame == st.cfg.maxFrame
      && nextId == st.senders.nextId && started == st.stop.NotStopped?
      && unconfirmed == st.store.unconfirmed && client == st.link.client
    }

    constructor (cfg: Config, lastPublished: Option<nat>)
      ensures Valid() && st == Initial(cfg, FirstId(lastPublished))
      ensures fresh(sem) && sem.available == cfg.maxUnconfirmed && !sem.destroyed
      ensures fresh(acc) && acc.pending == [] && !acc.destroyed && acc.capacity == cfg.capacity && acc.maxFrame == cfg.maxFrame
      ensures started && unconfirmed == map[] && client == Some(0) && nextId == FirstId(lastPublished)
    {
      sem := new Semaphore(cfg.maxUnconfirmed);
      acc := new Accumulator(cfg.capacity, cfg.maxFrame);
      nextId := FirstId(lastPublished);
      started := true;
      unconfirmed := map[];
      client := Some(0);
      st := Initial(cfg, FirstId(lastPublished));
    }

    /** send(message): the id is spent even when the producer turns out to be stopped. */
    method TakePublishingId(size: nat) returns (draft: Option<Draft>)
      requires Valid()
      modifies this
      ensures Valid() && st == Apply(old(st), TakeId(size))
      ensures draft == if old(started) then Some(Draft(old(nextId), size)) else None
      ensures nextId == (old(nextId) + 1) % U64 && started == old(started)
    {
      st := Apply(st, TakeId(size));
      draft := if started then Some(Draft(nextId, size)) else None;
      nextId := (nextId + 1) % U64;
    }

    /** send's permit, with or without an enqueue timeout. */
    method AcquirePermit(i: nat, timed: bool) returns (r: Attempt)
      requires Valid() && i < |st.senders.drafts| && timed == st.cfg.timed
      requires !timed ==> sem.available > 0 || sem.destroyed
      modifies this, sem`available
      ensures Enabled(old(st), if r.Granted? then Acquire(i) else GiveUp(i))
      ensures Valid() && st == Apply(old(st), if r.Granted? then Acquire(i) else GiveUp(i))
      ensures r == if sem.destroyed then Destroyed else if old(sem.available) == 0 then TimedOut else Granted
      ensures sem.available == old(sem.available) - if r.Granted? then 1 else 0
    {
      if timed { r := sem.TryAcquireFor(); } else { r := sem.Acquire(); }
      ghost var e := if r.Granted? then Acquire(i) else GiveUp(i);
      st := Apply(st, e);
    }

    /** The frame-size test in Accumulator::add; a rejected send gives its permit back. */
    method AdmitSend(i: nat, draft: Draft) returns (ok: bool)
      requires Valid() && i < |st.senders.holders| && draft == st.senders.holders[i]
      modifies this, sem`available
      ensures Valid() && st == Apply(old(st), Admit(i))
      ensures ok <==> FitsAccumulator(acc.maxFrame, draft.size)
      ensures sem.available == old(sem.available) + if ok then 0 else 1
      ensures st.senders.waiters == old(st).senders.waiters + if ok then [Waiter(draft.id, old(st).now, draft.size)] else []
    {
      ok := acc.Admits(draft.size);
      if !ok { sem.Release(); }
      st := Apply(st, Admit(i));
    }

    /** The codec throws in Accumulator::add: the permit is released as the call unwinds. */
    method FailEncoding(i: nat)
      requires Valid() && i < |st.senders.holders|
      modifies this, sem`available
      ensures Valid() && st == Apply(old(st), EncodeFail(i))
      ensures sem.available == old(sem.available) + 1
    {
      sem.Release();
      st := Apply(st, EncodeFail(i));
    }

    /** The end of Accumulator::add, once it has waited for room. */
    method EnqueueSend(i: nat, w: Waiter, uid: nat) returns (added: bool, full: bool)
      requires Valid() && i < |st.senders.waiters| && w == st.senders.waiters[i] && uid == |st.store.accepted|
      requires |acc.pending| < acc.capacity || acc.destroyed
      modifies this, acc`pending, sem`available
      ensures Valid() && st == Apply(old(st), Enqueue(i))
      ensures added == !acc.destroyed && (full <==> added && |acc.pending| == acc.capacity)
      ensures acc.pending == old(acc.pending) + if added then [Msg(uid, w.id, w.time, w.size)] else []
      ensures sem.available == old(sem.available) + if added then 0 else 1
    {
      added, full := acc.Append(Msg(uid, w.id, w.time, w.size));
      if !added { sem.Release(); }
      st := Apply(st, Enqueue(i));
    }

    /** publish_batch, entry: inside m_mutex, go on only while started. */
    method EnterBatch() returns (go: bool)
      requires Valid() && st.store.lock.Free?
      modifies this
      ensures Valid() && st == Apply(old(st), BatchEnter) && go == old(started)
    {
      go := started;
      st := Apply(st, BatchEnter);
    }

    method ExtractBatch() returns (batch: seq<Msg>)
      requires Valid() && st.store.lock.Checked?
      modifies this, acc`pending
      ensures Valid() && st == Apply(old(st), BatchExtract)
      ensures batch == old(acc.pending) && acc.pending == [] && st.store.lock == Batching(batch)
    {
      batch := acc.ExtractAll();
      st := Apply(st, BatchExtract);
    }

    /**
     publish_batch, end: `handed` is what it gives to publish_encoded on the current client, if
     there is one; `sent` and `threw` are what that call did with it.
     */
    method PublishBatch(batch: seq<Msg>, ghost sent: nat, ghost threw: bool) returns (handed: Option<seq<Msg>>)
      requires Valid() && st.store.lock == Batching(batch) && Enabled(st, BatchPublish(sent, threw))
      modifies this, sem`available
      ensures Valid() && st == Apply(old(st), BatchPublish(sent, threw))
      ensures handed == if client.Some? && batch != [] then Some(batch) else None
      ensures client == old(client) && unconfirmed == EmplaceAll(old(unconfirmed), batch)
      ensures client.Some? && client.value < |old(st).link.conns| ==>
                st.link.conns == old(st).link.conns[client.value := old(st).link.conns[client.value] + batch[..sent]]
      ensures client.None? ==> st.link == old(st).link
    {
      handed := if client.Some? && batch != [] then Some(batch) else None;
      var released;
      unconfirmed, released := RecordBatch(unconfirmed, batch);
      sem.available := sem.available + released;
      st := Apply(st, BatchPublish(sent, threw));
    }

    /** handle_publish_confirm's region: the message and the status its handler will be called with. */
    method TakeConfirmed(id: nat) returns (claim: Option<Claim>)
      requires Valid() && st.store.lock.Free?
      modifies this
      ensures Valid() && st == Apply(old(st), Confirm(id))
      ensures claim == if id in old(unconfirmed) then Some(Claim(old(unconfirmed)[id], true, 0x0001)) else None
      ensures unconfirmed == old(unconfirmed) - {id} && client == old(client)
      ensures st.store.claims == old(st).store.claims + if claim.Some? then [claim.value] else []
    {
      claim := None;
      if id in unconfirmed {
        ClaimOneEffect(st.store, id, true, OK);
        claim := Some(Claim(unconfirmed[id], true, OK));
        unconfirmed := unconfirmed - {id};
      }
      st := Apply(st, Confirm(id));
    }

    /** handle_publish_error's region. */
    method TakeRejected(id: nat, code: nat) returns (claim: Option<Claim>)
      requires Valid() && st.store.lock.Free?
      modifies this
      ensures Valid() && st == Apply(old(st), PublishError(id, code))
      ensures claim == if id in old(unconfirmed) then Some(Claim(old(unconfirmed)[id], false, code)) else None
      ensures unconfirmed == old(unconfirmed) - {id} && client == old(client)
      ensures st.store.claims == old(st).store.claims + if claim.Some? then [claim.value] else []
    {
      claim := None;
      if id in unconfirmed {
        ClaimOneEffect(st.store, id, false, code);
        claim := Some(Claim(unconfirmed[id], false, code));
        unconfirmed := unconfirmed - {id};
      }
      st := Apply(st, PublishError(id, code));
    }

    /** check_confirm_timeout: the region under m_mutex. */
    method ScanTimeouts(now: int, confirmTimeout: nat) returns (timedOut: seq<Msg>, code: nat)
      requires Valid() && Enabled(st, Expire) && now == st.now && confirmTimeout == st.cfg.confirmTimeout
      modifies this
      ensures Valid() && st == Apply(old(st), Expire)
      ensures timedOut == ExpiredMessages(old(st)) && unconfirmed == Without(old(unconfirmed), Expired(old(st)))
      ensures code == if old(client).None? then 0x4002 else 0x4004
      ensures st.store.claims == old(st).store.claims + Claims(timedOut, false, code)
    {
      ghost var after := Apply(st, Expire);
      ExpireStep(st, after);
      unconfirmed, timedOut := TakeExpired(unconfirmed, now - confirmTimeout);
      code := if client == None then PRODUCER_NOT_AVAILABLE else CONFIRM_TIMEOUT;
      st := after;
    }

    /**
     reconnect_to_server's second region. The call numbered `failing` throws, if the loop gets
     that far; `sent` is how many messages the new connection had then been handed.
     */
    method FinishReconnect(batchSize: nat, connection: nat, failing: Option<nat>, ghost sent: nat)
      returns (calls: seq<seq<nat>>, threw: bool)
      requires Valid() && st.store.lock.Free? && st.link.reconnecting
      requires 0 < batchSize == st.cfg.capacity && connection == |st.link.conns|
      requires SentBefore(unconfirmed, batchSize, failing, sent)
      modifies this
      ensures Resent(old(started), old(unconfirmed), batchSize, failing, sent, calls, threw)
      ensures Valid() && st == Apply(old(st), ReconnectFinish(if threw then sent else |old(unconfirmed)|, threw))
      ensures client == if old(started) && !threw then Some(connection) else old(client)
    {
      calls, threw := ResendIf(started, unconfirmed, batchSize, failing, sent);
      ghost var n := if threw then sent else |unconfirmed|;
      ReconnectLink(st, n, threw);
      if started && !threw { client := Some(connection); }
      st := Apply(st, ReconnectFinish(n, threw));
    }

    /** handle_shutdown's region under m_mutex. */
    method LoseClient()
      requires Valid() && Enabled(st, ShutdownApply)
      modifies this
      ensures Valid() && st == Apply(old(st), ShutdownApply)
      ensures client.None? && unconfirmed == old(unconfirmed) && started == old(started)
    {
      client := None;
      st := Apply(st, ShutdownApply);
    }

    /** internal_stop: the status exchange. Only the call that finds the producer running goes on. */
    method MarkStopped() returns (first: bool)
      requires Valid()
      modifies this
      ensures Valid() && first == old(started) && !started
      ensures first ==> st == Apply(old(st), StopMark)
      ensures !first ==> st == old(st)
    {
      first := started;
      started := false;
      if first { st := Apply(st, StopMark); }
    }

    method DestroyAccumulator()
      requires Valid() && st.stop.Marked?
      modifies this, acc`destroyed
      ensures Valid() && st == Apply(old(st), StopAccumulator)
      ensures acc.destroyed && acc.pending == old(acc.pending) && unconfirmed == old(unconfirmed)
    {
      acc.Destroy();
      st := Apply(st, StopAccumulator);
    }

    method DestroySemaphore()
      requires Valid() && st.stop.AccumulatorDown?
      modifies this, sem`destroyed
      ensures Valid() && st == Apply(old(st), StopSemaphore)
      ensures sem.destroyed && sem.available == old(sem.available) && unconfirmed == old(unconfirmed)
    {
      sem.Destroy();
      st := Apply(st, StopSemaphore);
    }

    method TakeClient() returns (taken: Option<nat>)
      requires Valid() && Enabled(st, StopClient)
      modifies this
      ensures Valid() && st == Apply(old(st), StopClient)
      ensures taken == old(client) && client.None? && unconfirmed == old(unconfirmed)
    {
      taken := client;
      client := None;
      st := Apply(st, StopClient);
    }

    /** fail_all_unconfirmed; the map is visited in whatever order it has. */
    method FailAllUnconfirmed(code: nat) returns (failed: seq<Claim>, ghost order: seq<nat>)
      requires Valid() && st.store.lock.Free? && st.stop.ClientTaken?
      modifies this, acc`pending, sem`available
      ensures IsOrder(order, old(unconfirmed)) && Valid() && st == Apply(old(st), StopFail(code, order))
      ensures failed == Claims(Pick(old(unconfirmed), order), false, code) + Claims(old(acc.pending), false, code)
      ensures unconfirmed == map[] && acc.pending == [] && st.store.resolved == old(st).store.resolved + failed
      ensures sem.available == old(sem.available) + |failed|
    {
      var u := unconfirmed;
      failed, order := FailMap(u, code);
      unconfirmed := map[];
      var rest := acc.ExtractAll();
      failed := failed + Claims(rest, false, code);
      sem.available := sem.available + |u| + |rest|;
      ghost var after := Apply(st, StopFail(code, order));
      StopFailEffect(st, code, order, after);
      st := after;
    }
  }

  /** In whatever order the map is visited, each of its entries is failed. */
  lemma EveryEntryFailed(u: map<nat, Msg>, order: seq<nat>, code: nat)
    requires IsOrder(order, u)
    ensures forall k :: k in u ==> Claim(u[k], false, code) in Claims(Pick(u, order), false, code)
  {
    Covers(order, u.Keys);
    var failed := Claims(Pick(u, order), false, code);
    forall k | k in u ensures Claim(u[k], false, code) in failed {
      var i :| 0 <= i < |order| && order[i] == k;
      assert failed[i] == Claim(u[k], false, code);
    }
  }

  /** The first loop of fail_all_unconfirmed: one failed confirmation for each entry. */
  method FailMap(u: map<nat, Msg>, code: nat) returns (failed: seq<Claim>, ghost order: seq<nat>)
    ensures IsOrder(order, u) && failed == Claims(Pick(u, order), false, code)
    ensures |failed| == |u|
  {
    var rest := u.Keys;
    failed, order := [], [];
    while rest != {}
      invariant rest <= u.Keys && Distinct(order) && |order| + |rest| == |u|
      invariant forall x :: x in order ==> x in u && x !in rest
      invariant failed == Claims(Pick(u, order), false, code)
      decreases rest
    {
      var k :| k in rest;
      assert Pick(u, order + [k]) == Pick(u, order) + [u[k]];
      failed := failed + [Claim(u[k], false, code)];
      order := order + [k];
      rest := rest - {k};
    }
  }
}
