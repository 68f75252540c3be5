/**
 The producer pipeline as a state machine: ProducerImpl with its Accumulator and
 Semaphore. One event is one region that the source runs under a single lock, or one
 access to an atomic; between two events any other thread may take any number of steps.
 `Store.lock` says how far publish_batch is inside m_mutex, which it keeps while it takes
 the accumulator's own mutex.
 */
module ProducerModel {
  import opened Prelude
  import Commands

  const OK := 0x0001
  const PRODUCER_NOT_AVAILABLE := 0x4002
  const CONFIRM_TIMEOUT := 0x4004

  /** An accumulated message; `uid` is its rank in the order of acceptance. */
  datatype Msg = Msg(uid: nat, id: nat, time: int, size: nat)

  /** A send in progress: before the permit, then holding one. */
  datatype Draft = Draft(id: nat, size: nat)

  /** A send past the frame-size check, its publish time already taken, waiting for room. */
  datatype Waiter = Waiter(id: nat, time: int, size: nat)

  /** A message taken out of the producer together with the status its handler will get. */
  datatype Claim = Claim(msg: Msg, confirmed: bool, code: nat)

  datatype Lock = Free | Checked | Batching(batch: seq<Msg>)

  /** How far internal_stop has come; the status is Started exactly at NotStopped. */
  datatype StopPhase = NotStopped | Marked | AccumulatorDown | SemaphoreDown | ClientTaken | Drained {
    predicate AccumulatorDestroyed() { !NotStopped? && !Marked? }
    predicate SemaphoreDestroyed() { AccumulatorDestroyed() && !AccumulatorDown? }
  }

  /** `timed`: a non-zero enqueue timeout. The accumulator's capacity is the batch size. */
  datatype Config = Config(capacity: nat, maxUnconfirmed: nat, timed: bool, confirmTimeout: nat, maxFrame: nat)

  /** The sending threads, by how far each has come. */
  datatype Senders = Senders(nextId: nat, drafts: seq<Draft>, holders: seq<Draft>, waiters: seq<Waiter>)

  /** Where the messages are. `claims` left the map but their handlers have not run. */
  datatype Store = Store(
    pending: seq<Msg>,
    lock: Lock,
    unconfirmed: map<nat, Msg>,
    claims: seq<Claim>,
    accepted: seq<Msg>,
    resolved: seq<Claim>,
    lost: seq<Msg>)

  /**
   The connections: `client` indexes `conns`, the messages handed to each connection in
   order; `clean` says no publish_encoded call on the current client has thrown;
   `shutdowns` counts handle_shutdown calls past the status test and before m_mutex.
   */
  datatype Link = Link(client: Option<nat>, clean: bool, reconnecting: bool, shutdowns: nat, conns: seq<seq<Msg>>)

  /** `dying` counts messages whose handler has returned but which still hold their permit. */
  datatype State = State(
    cfg: Config,
    now: int,
    stop: StopPhase,
    available: nat,
    dying: nat,
    senders: Senders,
    store: Store,
    link: Link)

  datatype Event =
    | Tick(elapsed: nat)
    | TakeId(size: nat)
    | SendId(id: nat, size: nat)
    | Acquire(i: nat)
    | GiveUp(i: nat)
    | EncodeFail(i: nat)
    | Admit(i: nat)
    | Enqueue(i: nat)
    | BatchEnter
    | BatchExtract
    | BatchPublish(sent: nat, threw: bool)
    | Confirm(id: nat)
    | PublishError(id: nat, code: nat)
    | Expire
    | Handle(i: nat)
    | DestroyMessage
    | ShutdownSeen
    | ShutdownApply
    | DelayedReconnect
    | ReconnectBegin
    | ReconnectAbort
    | ReconnectFinish(sent: nat, threw: bool)
    | StopMark
    | StopAccumulator
    | StopSemaphore
    | StopClient
    | StopFail(code: nat, order: seq<nat>)

  /** The producer as its builder hands it out: started, connected, nothing sent. */
  function Initial(cfg: Config, firstId: nat): State {
    State(cfg, 0, NotStopped, cfg.maxUnconfirmed, 0,
          Senders(firstId, [], [], []),
          Store([], Free, map[], [], [], [], []),
          Link(Some(0), true, false, 0, [[]]))
  }

  // ---- vocabulary

  function Ids(ms: seq<Msg>): (ids: seq<nat>)
    ensures |ids| == |ms|
  {
    seq(|ms|, i requires 0 <= i < |ms| => ms[i].id)
  }

  function Msgs(cs: seq<Claim>): (ms: seq<Msg>)
    ensures |ms| == |cs|
  {
    seq(|cs|, i requires 0 <= i < |cs| => cs[i].msg)
  }

  function Claims(ms: seq<Msg>, confirmed: bool, code: nat): (cs: seq<Claim>)
    ensures |cs| == |ms|
  {
    seq(|ms|, i requires 0 <= i < |ms| => Claim(ms[i], confirmed, code))
  }

  function Batch(st: Store): seq<Msg> {
    if st.lock.Batching? then st.lock.batch else []
  }

  predicate FitsAccumulator(maxFrame: nat, size: nat) {
    maxFrame == 0 || Commands.BASE_SIZE + Commands.PublishedSize(size) <= maxFrame
  }

  /** unordered_map::emplace: an existing key keeps its entry. */
  function Emplace(u: map<nat, Msg>, m: Msg): map<nat, Msg> {
    if m.id in u then u else u[m.id := m]
  }

  function EmplaceAll(u: map<nat, Msg>, ms: seq<Msg>): map<nat, Msg>
    decreases |ms|
  {
    if ms == [] then u else EmplaceAll(Emplace(u, ms[0]), ms[1..])
  }

  /** The messages EmplaceAll drops. */
  function Dropped(u: map<nat, Msg>, ms: seq<Msg>): seq<Msg>
    decreases |ms|
  {
    if ms == [] then []
    else (if ms[0].id in u then [ms[0]] else []) + Dropped(Emplace(u, ms[0]), ms[1..])
  }

  /** The entries of `u` at `ids`, in that order. */
  function Pick(u: map<nat, Msg>, ids: seq<nat>): (ms: seq<Msg>)
    requires forall x :: x in ids ==> x in u
    ensures |ms| == |ids|
  {
    seq(|ids|, i requires 0 <= i < |ids| => u[ids[i]])
  }

  /** The unconfirmed messages in ascending order of their ids. */
  function InIdOrder(u: map<nat, Msg>): (ms: seq<Msg>)
    ensures |ms| == |u|
  {
    Pick(u, SortedIds(u.Keys))
  }

  function Without(u: map<nat, Msg>, ids: seq<nat>): map<nat, Msg>
    decreases |ids|
  {
    if ids == [] then u else Without(u - {ids[0]}, ids[1..])
  }

  /** The timeout scan: the ids in ascending order, up to the first that is too young. */
  function ExpiredPrefix(u: map<nat, Msg>, ids: seq<nat>, threshold: int): (r: seq<nat>)
    requires forall x :: x in ids ==> x in u
    ensures r <= ids
  {
    if ids == [] || u[ids[0]].time > threshold then []
    else [ids[0]] + ExpiredPrefix(u, ids[1..], threshold)
  }

  function ExpiredIn(u: map<nat, Msg>, threshold: int): (r: seq<nat>)
    ensures r <= SortedIds(u.Keys)
    ensures forall x :: x in r ==> x in u
  {
    var r := ExpiredPrefix(u, SortedIds(u.Keys), threshold);
    assert forall x :: x in r ==> x in SortedIds(u.Keys);
    r
  }

  function Expired(s: State): (r: seq<nat>)
    ensures r <= SortedIds(s.store.unconfirmed.Keys)
    ensures forall x :: x in r ==> x in s.store.unconfirmed
  {
    ExpiredIn(s.store.unconfirmed, s.now - s.cfg.confirmTimeout)
  }

  function ExpireCode(s: State): nat {
    if s.link.client.None? then PRODUCER_NOT_AVAILABLE else CONFIRM_TIMEOUT
  }

  // ---- the steps on the store

  function ClaimIds(st: Store, ids: seq<nat>, confirmed: bool, code: nat): Store
    requires forall x :: x in ids ==> x in st.unconfirmed
  {
    st.(unconfirmed := Without(st.unconfirmed, ids),
        claims := st.claims + Claims(Pick(st.unconfirmed, ids), confirmed, code))
  }

  function ClaimOne(st: Store, id: nat, confirmed: bool, code: nat): Store {
    if id in st.unconfirmed then ClaimIds(st, [id], confirmed, code) else st
  }

  function Accept(st: Store, w: Waiter): Store {
    var m := Msg(|st.accepted|, w.id, w.time, w.size);
    st.(pending := st.pending + [m], accepted := st.accepted + [m])
  }

  function Extract(st: Store): Store {
    st.(lock := Batching(st.pending), pending := [])
  }

  function Record(st: Store): Store {
    var batch := Batch(st);
    st.(lock := Free,
        unconfirmed := EmplaceAll(st.unconfirmed, batch),
        lost := st.lost + Dropped(st.unconfirmed, batch))
  }

  function CallHandler(st: Store, i: nat): Store
    requires i < |st.claims|
  {
    st.(claims := RemoveAt(st.claims, i), resolved := st.resolved + [st.claims[i]])
  }

  /** fail_all_unconfirmed: the map in its own iteration order, then the pending ones. */
  function FailAll(st: Store, code: nat, order: seq<nat>): Store
    requires forall x :: x in order ==> x in st.unconfirmed
  {
    st.(unconfirmed := map[],
        pending := [],
        resolved := st.resolved + (Claims(Pick(st.unconfirmed, order), false, code) + Claims(st.pending, false, code)))
  }

  // ---- the steps on the connections

  /** A publish_encoded call on the current client, if there is one. */
  function Hand(l: Link, ms: seq<Msg>, threw: bool): Link {
    if l.client.Some? && l.client.value < |l.conns| then
      l.(conns := l.conns[l.client.value := l.conns[l.client.value] + ms], clean := l.clean && !threw)
    else l
  }

  /** reconnect_to_server's second region on a fresh connection. */
  function Resend(l: Link, ms: seq<Msg>, threw: bool): Link {
    var t := l.(reconnecting := false, conns := l.conns + [ms]);
    if threw then t else t.(client := Some(|l.conns|), clean := true)
  }

  // ---- the steps

  predicate IsOrder(order: seq<nat>, u: map<nat, Msg>) {
    Distinct(order) && (forall x :: x in order ==> x in u) && |order| == |u|
  }

  predicate Enabled(s: State, e: Event) {
    var free := s.store.lock.Free?;
    match e
    case Tick(_) => true
    case TakeId(_) => true
    case SendId(id, _) => id < U64
    case Acquire(i) => i < |s.senders.drafts| && s.available > 0 && !s.stop.SemaphoreDestroyed()
    case GiveUp(i) => i < |s.senders.drafts| && (s.stop.SemaphoreDestroyed() || (s.cfg.timed && s.available == 0))
    case EncodeFail(i) => i < |s.senders.holders|
    case Admit(i) => i < |s.senders.holders|
    case Enqueue(i) =>
      i < |s.senders.waiters| && (|s.store.pending| < s.cfg.capacity || s.stop.AccumulatorDestroyed())
    case BatchEnter => free
    case BatchExtract => s.store.lock.Checked?
    case BatchPublish(sent, threw) =>
      s.store.lock.Batching? && sent <= |Batch(s.store)|
      && (!threw ==> sent == |Batch(s.store)|)
      && (threw ==> s.link.client.Some? && Batch(s.store) != [])
    case Confirm(_) => free
    case PublishError(_, _) => free
    case Expire => free && s.cfg.confirmTimeout > 0
    case Handle(i) => i < |s.store.claims|
    case DestroyMessage => s.dying > 0
    case ShutdownSeen => s.stop.NotStopped?
    case ShutdownApply => free && s.link.shutdowns > 0
    case DelayedReconnect => free
    case ReconnectBegin => free && !s.link.reconnecting
    case ReconnectAbort => s.link.reconnecting
    case ReconnectFinish(sent, threw) =>
      free && s.link.reconnecting && sent <= |s.store.unconfirmed|
      && (!threw ==> sent == |s.store.unconfirmed|)
    case StopMark => s.stop.NotStopped?
    case StopAccumulator => s.stop.Marked?
    case StopSemaphore => s.stop.AccumulatorDown?
    case StopClient => free && s.stop.SemaphoreDown?
    case StopFail(_, order) => free && s.stop.ClientTaken? && IsOrder(order, s.store.unconfirmed)
  }

  function EnqueueStep(s: State, i: nat): State
    requires i < |s.senders.waiters|
  {
    var t := s.(senders := s.senders.(waiters := RemoveAt(s.senders.waiters, i)));
    if s.stop.AccumulatorDestroyed() then t.(available := s.available + 1)
    else t.(store := Accept(s.store, s.senders.waiters[i]))
  }

  /** An exception out of Accumulator::add before it waits: the permit goes back. */
  function DropHolder(s: State, i: nat): State
    requires i < |s.senders.holders|
  {
    s.(senders := s.senders.(holders := RemoveAt(s.senders.holders, i)), available := s.available + 1)
  }

  function AdmitStep(s: State, i: nat): State
    requires i < |s.senders.holders|
  {
    var d := s.senders.holders[i];
    if FitsAccumulator(s.cfg.maxFrame, d.size) then
      s.(senders := s.senders.(holders := RemoveAt(s.senders.holders, i),
                               waiters := s.senders.waiters + [Waiter(d.id, s.now, d.size)]))
    else DropHolder(s, i)
  }

  function Apply(s: State, e: Event): State
    requires Enabled(s, e)
  {
    match e
    case Tick(elapsed) => s.(now := s.now + elapsed)
    case TakeId(size) =>
      var next := s.senders.(nextId := (s.senders.nextId + 1) % U64);
      s.(senders := if s.stop.NotStopped? then next.(drafts := next.drafts + [Draft(s.senders.nextId, size)]) else next)
    case SendId(id, size) =>
      if s.stop.NotStopped? then s.(senders := s.senders.(drafts := s.senders.drafts + [Draft(id, size)])) else s
    case Acquire(i) =>
      s.(senders := s.senders.(drafts := RemoveAt(s.senders.drafts, i),
                               holders := s.senders.holders + [s.senders.drafts[i]]),
         available := s.available - 1)
    case GiveUp(i) => s.(senders := s.senders.(drafts := RemoveAt(s.senders.drafts, i)))
    case EncodeFail(i) => DropHolder(s, i)
    case Admit(i) => AdmitStep(s, i)
    case Enqueue(i) => EnqueueStep(s, i)
    case BatchEnter => if s.stop.NotStopped? then s.(store := s.store.(lock := Checked)) else s
    case BatchExtract => s.(store := Extract(s.store))
    case BatchPublish(sent, threw) =>
      s.(store := Record(s.store),
         link := Hand(s.link, Batch(s.store)[..sent], threw),
         available := s.available + |Dropped(s.store.unconfirmed, Batch(s.store))|)
    case Confirm(id) => s.(store := ClaimOne(s.store, id, true, OK))
    case PublishError(id, code) => s.(store := ClaimOne(s.store, id, false, code))
    case Expire => s.(store := ClaimIds(s.store, Expired(s), false, ExpireCode(s)))
    case Handle(i) => s.(store := CallHandler(s.store, i), dying := s.dying + 1)
    case DestroyMessage => s.(dying := s.dying - 1, available := s.available + 1)
    case ShutdownSeen => s.(link := s.link.(shutdowns := s.link.shutdowns + 1))
    case ShutdownApply => s.(link := s.link.(shutdowns := s.link.shutdowns - 1, client := None))
    case DelayedReconnect => if s.stop.NotStopped? then s.(link := s.link.(client := None)) else s
    case ReconnectBegin =>
      if s.stop.NotStopped? && s.link.client.None? then s.(link := s.link.(reconnecting := true)) else s
    case ReconnectAbort => s.(link := s.link.(reconnecting := false))
    case ReconnectFinish(sent, threw) =>
      if s.stop.NotStopped? then s.(link := Resend(s.link, InIdOrder(s.store.unconfirmed)[..sent], threw))
      else s.(link := s.link.(reconnecting := false))
    case StopMark => s.(stop := Marked)
    case StopAccumulator => s.(stop := AccumulatorDown)
    case StopSemaphore => s.(stop := SemaphoreDown)
    case StopClient => s.(stop := ClientTaken, link := s.link.(client := None))
    case StopFail(code, order) =>
      s.(store := FailAll(s.store, code, order),
         available := s.available + |order| + |s.store.pending|,
         stop := Drained)
  }

  /** `es` is a run from `s` to `t`. */
  ghost predicate Run(s: State, es: seq<Event>, t: State)
    decreases |es|
  {
    if es == [] then s == t else Enabled(s, es[0]) && Run(Apply(s, es[0]), es[1..], t)
  }
}
