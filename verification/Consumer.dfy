/**
 ConsumerImpl: offset filtering, resumption after a reconnect, and the automatic cursor. One
 event is one region under m_mutex. The broker is the sequence of `Feed` events; a new
 subscription starts a new session.
 */
module Consumer {
  import opened Prelude
  import opened Commands

  /** `frequency`: the persist frequency of the automatic cursor, when there is one. */
  datatype Config = Config(named: bool, frequency: Option<nat>)

  /** A handle_message call between its two regions: the user's handler is running. */
  datatype Call = Call(offset: nat, store: bool)

  datatype StopPhase = Running | Marked | ClientTaken(held: bool) | Done

  datatype State = State(
    cfg: Config,
    stop: StopPhase,
    initial: Option<OffsetSpec>,
    lastSeen: Option<nat>,
    since: nat,
    client: bool,              // m_client is set
    reconnecting: bool,
    calls: seq<Call>,
    sessionLast: Option<nat>,  // last offset the current session has fed
    requests: seq<OffsetSpec>, // what each subscribe asked for
    delivered: seq<nat>,       // offsets given to the user's handler, in the order of the first region of handle_message
    stored: seq<nat>,          // successfully stored offsets
    floor: Option<nat>)        // the offset read at start

  datatype Event =
    | Feed(offset: nat)
    | Finish(i: nat, ok: bool)
    | PersistTask(ok: bool)
    | Shutdown
    | DelayedReconnect
    | ReconnectBegin
    | ReconnectAbort
    | ReconnectFinish(ok: bool)
    | StopMark
    | StopClient
    | StopStore(ok: bool)

  /** start(): a stored offset of a named consumer overrides the requested position. */
  function StartSpec(cfg: Config, spec: OffsetSpec, storedOffset: Option<nat>): OffsetSpec {
    if cfg.named && storedOffset.Some? then Offset((storedOffset.value + 1) % U64) else spec
  }

  function Initial(named: bool, frequency: Option<nat>, spec: OffsetSpec, storedOffset: Option<nat>): State {
    var cfg := Config(named, if named then frequency else None);
    var first := StartSpec(cfg, spec, storedOffset);
    State(cfg, Running, Some(first), None, 0, true, false, [], None, [first], [], [], if named then storedOffset else None)
  }

  predicate Filtered(s: State, offset: nat) {
    s.initial.Some? && s.initial.value.Offset? && s.initial.value.offset > offset
  }

  predicate MustStore(s: State, since: nat) {
    s.cfg.frequency.Some? && s.cfg.frequency.value > 0 && since >= s.cfg.frequency.value
  }

  function FeedStep(s: State, offset: nat): State {
    var t := s.(sessionLast := Some(offset));
    if Filtered(s, offset) then t
    else
      var since := (s.since + 1) % U32;
      t.(initial := None, lastSeen := Some(offset), since := since,
         calls := s.calls + [Call(offset, MustStore(s, since))], delivered := s.delivered + [offset])
  }

  /** internal_store_offset; `ok` is whether the client's store_offset returned. */
  function StoreStep(s: State, offset: nat, ok: bool): State {
    if s.cfg.named && s.client && ok then s.(stored := s.stored + [offset], since := 0) else s
  }

  function FinishStep(s: State, i: nat, ok: bool): State
    requires i < |s.calls|
  {
    var t := s.(calls := RemoveAt(s.calls, i));
    if s.calls[i].store && MustStore(s, s.since) then StoreStep(t, s.calls[i].offset, ok) else t
  }

  function ReconnectStep(s: State, ok: bool): State
    requires s.lastSeen.None? ==> s.initial.Some?
  {
    if !s.stop.Running? then s.(reconnecting := false)
    else
      var initial := if s.lastSeen.Some? then Offset((s.lastSeen.value + 1) % U64) else s.initial.value;
      var t := s.(reconnecting := false, initial := Some(initial));
      if ok then t.(client := true, sessionLast := None, requests := s.requests + [initial]) else t
  }

  function StopStoreStep(s: State, ok: bool): State
    requires s.since > 0 ==> s.lastSeen.Some?
    requires s.stop.ClientTaken?
  {
    if s.stop.held && s.cfg.frequency.Some? && s.since > 0 && ok then
      s.(stop := Done, stored := s.stored + [s.lastSeen.value])
    else s.(stop := Done)
  }

  /** What makes the dereferences of m_initial_offset and m_last_seen_offset safe. */
  predicate Defined(s: State) {
    (s.initial.None? ==> s.lastSeen.Some?) && (s.since > 0 ==> s.lastSeen.Some?)
  }

  predicate Enabled(s: State, e: Event) {
    match e
    case Feed(offset) => offset < U64
    case Finish(i, _) => i < |s.calls|
    case PersistTask(_) => s.cfg.frequency.Some?
    case Shutdown => true
    case DelayedReconnect => true
    case ReconnectBegin => !s.reconnecting
    case ReconnectAbort => s.reconnecting
    case ReconnectFinish(_) => s.reconnecting
    case StopMark => s.stop.Running?
    case StopClient => s.stop.Marked?
    case StopStore(_) => s.stop.ClientTaken?
  }

  function Apply(s: State, e: Event): State
    requires Defined(s) && Enabled(s, e)
  {
    match e
    case Feed(offset) => FeedStep(s, offset)
    case Finish(i, ok) => FinishStep(s, i, ok)
    case PersistTask(ok) => if s.since > 0 then StoreStep(s, s.lastSeen.value, ok) else s
    case Shutdown => s.(client := false)
    case DelayedReconnect => if s.stop.Running? then s.(client := false) else s
    case ReconnectBegin => if s.stop.Running? && !s.client then s.(reconnecting := true) else s
    case ReconnectAbort => s.(reconnecting := false)
    case ReconnectFinish(ok) => ReconnectStep(s, ok)
    case StopMark => s.(stop := Marked)
    case StopClient => s.(stop := ClientTaken(s.client), client := false)
    case StopStore(ok) => StopStoreStep(s, ok)
  }

  /** Every step, whatever the broker feeds, leaves the optionals as the next one needs them. */
  lemma DefinedKept(s: State, e: Event)
    requires Defined(s) && Enabled(s, e)
    ensures Defined(Apply(s, e)) && Apply(s, e).cfg == s.cfg && Apply(s, e).floor == s.floor
  {
  }

  ghost predicate Run(s: State, es: seq<Event>, t: State)
    decreases |es|
  {
    if es == [] then s == t
    else Defined(s) && Enabled(s, es[0]) && Run(Apply(s, es[0]), es[1..], t)
  }

  /** Defined is therefore not a restriction on runs: every event sequence that is enabled step by step is a run. */
  lemma {:induction false} RunDefined(s: State, es: seq<Event>, t: State)
    requires Defined(s) && Run(s, es, t)
    ensures Defined(t) && t.cfg == s.cfg && t.floor == s.floor
    decreases |es|
  {
    if es != [] {
      DefinedKept(s, es[0]);
      RunDefined(Apply(s, es[0]), es[1..], t);
    }
  }

  lemma {:induction false} RunSnoc(s: State, es: seq<Event>, t: State, e: Event)
    requires Run(s, es, t) && Defined(t) && Enabled(t, e)
    ensures Run(s, es + [e], Apply(t, e))
    decreases |es|
  {
    if es == [] {
      assert [e][1..] == [];
      assert es + [e] == [e];
    } else {
      assert (es + [e])[1..] == es[1..] + [e];
      RunSnoc(Apply(s, es[0]), es[1..], t, e);
    }
  }

  /** Whatever is enabled next can be done: no dereference of an unset optional stands in its way. */
  lemma OptionalsAlwaysSet(
    named: bool, frequency: Option<nat>, spec: OffsetSpec, storedOffset: Option<nat>, es: seq<Event>, t: State, e: Event)
    requires Run(Initial(named, frequency, spec, storedOffset), es, t) && Enabled(t, e)
    ensures Defined(t) && Run(Initial(named, frequency, spec, storedOffset), es + [e], Apply(t, e))
  {
    RunDefined(Initial(named, frequency, spec, storedOffset), es, t);
    RunSnoc(Initial(named, frequency, spec, storedOffset), es, t, e);
  }

  // ---- what is asked of the broker and of the client's frame thread

  /**
   Offsets of a session increase, and an old session feeds nothing after a new subscription.
   Handlers may overlap: a session may feed while a handler of the client before it is still
   running.
   */
  ghost predicate SessionStep(s: State, e: Event) {
    e.Feed? && s.sessionLast.Some? ==> e.offset > s.sessionLast.value
  }

  ghost predicate SessionRun(s: State, es: seq<Event>)
    decreases |es|
  {
    es == [] || (Defined(s) && Enabled(s, es[0]) && SessionStep(s, es[0]) && SessionRun(Apply(s, es[0]), es[1..]))
  }

  /** The same, with offsets below the largest 64-bit number: one more than the last seen one is again an offset. */
  ghost predicate IncreasingStep(s: State, e: Event) {
    SessionStep(s, e) && (e.Feed? ==> e.offset + 1 < U64)
  }

  ghost predicate IncreasingRun(s: State, es: seq<Event>)
    decreases |es|
  {
    es == [] || (Defined(s) && Enabled(s, es[0]) && IncreasingStep(s, es[0]) && IncreasingRun(Apply(s, es[0]), es[1..]))
  }

  /** A session is consecutive and starts at or below the offset its subscribe asked for. */
  ghost predicate GaplessStep(s: State, e: Event) {
    e.Feed? ==>
      && s.requests != []
      && var asked := s.requests[|s.requests| - 1];
         if s.sessionLast.Some? then e.offset == s.sessionLast.value + 1
         else asked.Offset? ==> e.offset <= asked.offset
  }

  ghost predicate GaplessRun(s: State, es: seq<Event>)
    decreases |es|
  {
    es == [] || (Defined(s) && Enabled(s, es[0]) && GaplessStep(s, es[0]) && GaplessRun(Apply(s, es[0]), es[1..]))
  }

  // ---- what a subscribe asks for

  /** What is asked for goes on after the last delivered offset; with nothing delivered it is the start position. */
  function Resumption(delivered: seq<nat>, first: OffsetSpec): OffsetSpec {
    if delivered == [] then first else Offset((delivered[|delivered| - 1] + 1) % U64)
  }

  ghost predicate Following(s: State, first: OffsetSpec) {
    && Defined(s)
    && (s.lastSeen == if s.delivered == [] then None else Some(s.delivered[|s.delivered| - 1]))
    && (s.delivered == [] ==> s.initial == Some(first))
  }

  ghost function RequestedBy(s: State, e: Event, first: OffsetSpec): seq<OffsetSpec> {
    if e.ReconnectFinish? && e.ok && s.stop.Running? then [Resumption(s.delivered, first)] else []
  }

  ghost function RequestedIn(s: State, es: seq<Event>, first: OffsetSpec): seq<OffsetSpec>
    decreases |es|
  {
    if es == [] || !Defined(s) || !Enabled(s, es[0]) then []
    else RequestedBy(s, es[0], first) + RequestedIn(Apply(s, es[0]), es[1..], first)
  }

  lemma StepFollowing(s: State, e: Event, first: OffsetSpec)
    requires Following(s, first) && Enabled(s, e)
    ensures Following(Apply(s, e), first)
    ensures Apply(s, e).requests == s.requests + RequestedBy(s, e, first)
  {
    match e
    case Feed(offset) =>
    case ReconnectFinish(ok) =>
    case _ => OtherFollowing(s, e);
  }

  lemma OtherFollowing(s: State, e: Event)
    requires Defined(s) && Enabled(s, e) && !e.Feed? && !e.ReconnectFinish?
    ensures var t := Apply(s, e);
            && Defined(t) && t.lastSeen == s.lastSeen && t.delivered == s.delivered && t.initial == s.initial
            && t.requests == s.requests && t.sessionLast == s.sessionLast
  {
  }

  lemma {:induction false} RunFollowing(s: State, es: seq<Event>, t: State, first: OffsetSpec)
    requires Following(s, first) && Run(s, es, t)
    ensures Following(t, first) && t.requests == s.requests + RequestedIn(s, es, first)
    decreases |es|
  {
    if es != [] {
      var m := Apply(s, es[0]);
      StepFollowing(s, es[0], first);
      RunFollowing(m, es[1..], t, first);
      Reassociate(s.requests, RequestedBy(s, es[0], first), RequestedIn(m, es[1..], first));
    }
  }

  /** The start position: a stored offset of a named consumer, plus one, or what was asked for. */
  function FirstPosition(named: bool, spec: OffsetSpec, storedOffset: Option<nat>): OffsetSpec {
    match storedOffset
    case Some(x) => if named then Offset((x + 1) % U64) else spec
    case None => spec
  }

  /**
   Main result. In every run, whatever the broker feeds, the subscriptions ask for exactly
   this: first the start position; then, for each successful reconnect, the offset after the
   last one delivered until then, or the start position again while nothing has been.
   */
  lemma RequestsExactly(named: bool, frequency: Option<nat>, spec: OffsetSpec, storedOffset: Option<nat>, es: seq<Event>, t: State)
    requires Run(Initial(named, frequency, spec, storedOffset), es, t)
    ensures var first := FirstPosition(named, spec, storedOffset);
            t.requests == [first] + RequestedIn(Initial(named, frequency, spec, storedOffset), es, first)
  {
    RunFollowing(Initial(named, frequency, spec, storedOffset), es, t, FirstPosition(named, spec, storedOffset));
  }

  // ---- delivery order

  /** Where the next accepted offset has to lie. */
  ghost predicate Placed(s: State) {
    && Defined(s)
    && (s.delivered == [] <==> s.lastSeen.None?)
    && (s.lastSeen.Some? ==> s.lastSeen.value == s.delivered[|s.delivered| - 1] && s.lastSeen.value < U64)
    && (s.initial.None? ==> s.sessionLast == s.lastSeen)
    && (s.initial.Some? && s.lastSeen.Some? ==> s.initial == Some(Offset((s.lastSeen.value + 1) % U64)))
  }

  lemma FeedPlaced(s: State, offset: nat)
    requires Placed(s) && Enabled(s, Feed(offset)) && SessionStep(s, Feed(offset))
    ensures Placed(FeedStep(s, offset))
    ensures Filtered(s, offset) ==> FeedStep(s, offset).delivered == s.delivered
    ensures !Filtered(s, offset) ==> FeedStep(s, offset).delivered == s.delivered + [offset]
    ensures !Filtered(s, offset) && s.lastSeen.Some? ==> (offset > s.lastSeen.value <==> s.lastSeen.value + 1 < U64)
    ensures s.lastSeen == Some(U64 - 1) ==> !Filtered(s, offset)
  {
  }

  lemma ReconnectPlaced(s: State, ok: bool)
    requires Placed(s)
    ensures Placed(ReconnectStep(s, ok)) && ReconnectStep(s, ok).delivered == s.delivered
    ensures ReconnectStep(s, ok).lastSeen == s.lastSeen
  {
  }

  lemma OtherPlaced(s: State, e: Event)
    requires Placed(s) && Enabled(s, e) && !e.Feed? && !e.ReconnectFinish?
    ensures Placed(Apply(s, e)) && Apply(s, e).delivered == s.delivered && Apply(s, e).lastSeen == s.lastSeen
  {
  }

  lemma StepPlaced(s: State, e: Event)
    requires Placed(s) && Enabled(s, e) && SessionStep(s, e)
    ensures Placed(Apply(s, e))
    ensures !e.Feed? ==> Apply(s, e).delivered == s.delivered && Apply(s, e).lastSeen == s.lastSeen
  {
    match e
    case Feed(offset) => FeedPlaced(s, offset);
    case ReconnectFinish(ok) => ReconnectPlaced(s, ok);
    case _ => OtherPlaced(s, e);
  }

  /** No session feeds once the largest offset has been seen. */
  ghost predicate EndsAtTheLast(s: State, es: seq<Event>)
    decreases |es|
  {
    es == [] ||
    (Defined(s) && Enabled(s, es[0]) && (es[0].Feed? ==> s.lastSeen != Some(U64 - 1)) && EndsAtTheLast(Apply(s, es[0]), es[1..]))
  }

  lemma AscendingSnoc(a: seq<nat>, x: nat)
    ensures Ascending(a + [x]) <==> Ascending(a) && forall y :: y in a ==> y < x
  {
    var b := a + [x];
    assert forall i :: 0 <= i < |a| ==> b[i] == a[i];
    assert b[|a|] == x;
    if Ascending(b) {
      forall i, j | 0 <= i < j < |a| ensures a[i] < a[j] { assert b[i] < b[j]; }
      forall y | y in a ensures y < x {
        var i :| 0 <= i < |a| && a[i] == y;
        assert b[i] < b[|a|];
      }
    }
    if Ascending(a) && forall y :: y in a ==> y < x {
      forall i, j | 0 <= i < j < |b| ensures b[i] < b[j] {
        assert a[i] in a;
      }
    }
  }

  lemma AscendingLast(a: seq<nat>, x: nat)
    requires a != []
    ensures Ascending(a + [x]) <==> Ascending(a) && a[|a| - 1] < x
  {
    AscendingSnoc(a, x);
    assert a[|a| - 1] in a;
    if Ascending(a) {
      forall y | y in a ensures y <= a[|a| - 1] { var i :| 0 <= i < |a| && a[i] == y; }
    }
  }

  lemma StepInOrder(s: State, e: Event)
    requires Placed(s) && Enabled(s, e) && SessionStep(s, e)
    ensures Ascending(Apply(s, e).delivered) <==> Ascending(s.delivered) && (e.Feed? ==> s.lastSeen != Some(U64 - 1))
  {
    if e.Feed? {
      FeedPlaced(s, e.offset);
      if s.delivered != [] { AscendingLast(s.delivered, e.offset); }
    } else {
      StepPlaced(s, e);
    }
  }

  lemma {:induction false} RunInOrder(s: State, es: seq<Event>, t: State)
    requires Placed(s) && Run(s, es, t) && SessionRun(s, es)
    ensures Ascending(t.delivered) <==> Ascending(s.delivered) && EndsAtTheLast(s, es)
    decreases |es|
  {
    if es != [] {
      StepInOrder(s, es[0]);
      StepPlaced(s, es[0]);
      RunInOrder(Apply(s, es[0]), es[1..], t);
    }
  }

  /**
   Main result. Across any number of reconnects, handlers overlapping or not, the offsets given
   to the user's handler strictly increase, nothing being delivered twice or out of order,
   exactly in the runs in which no session feeds after the largest 64-bit offset.
   */
  lemma DeliveredInOrder(named: bool, frequency: Option<nat>, spec: OffsetSpec, storedOffset: Option<nat>, es: seq<Event>, t: State)
    requires Run(Initial(named, frequency, spec, storedOffset), es, t)
    requires SessionRun(Initial(named, frequency, spec, storedOffset), es)
    ensures Ascending(t.delivered) <==> EndsAtTheLast(Initial(named, frequency, spec, storedOffset), es)
  {
    RunInOrder(Initial(named, frequency, spec, storedOffset), es, t);
  }

  /** What the consumer still wants: from the start position on, then whatever lies beyond the last delivered offset. */
  predicate Wanted(delivered: seq<nat>, first: OffsetSpec, offset: nat) {
    if delivered == [] then first.Offset? ==> offset >= first.offset
    else offset > delivered[|delivered| - 1] || delivered[|delivered| - 1] == U64 - 1
  }

  lemma FeedDelivers(s: State, first: OffsetSpec, offset: nat)
    requires Placed(s) && Following(s, first) && Enabled(s, Feed(offset)) && SessionStep(s, Feed(offset))
    ensures FeedStep(s, offset).delivered == s.delivered + if Wanted(s.delivered, first, offset) then [offset] else []
  {
    FeedPlaced(s, offset);
  }

  lemma {:induction false} RunPlaced(s: State, es: seq<Event>, t: State)
    requires Placed(s) && Run(s, es, t) && SessionRun(s, es)
    ensures Placed(t)
    decreases |es|
  {
    if es != [] {
      StepPlaced(s, es[0]);
      RunPlaced(Apply(s, es[0]), es[1..], t);
    }
  }

  /**
   Main result. In every run with increasing sessions, each message fed is given to the user's
   handler if and only if the consumer still wants its offset, and no other step delivers.
   */
  lemma DeliveredExactly(
    named: bool, frequency: Option<nat>, spec: OffsetSpec, storedOffset: Option<nat>, es: seq<Event>, s: State, e: Event)
    requires Run(Initial(named, frequency, spec, storedOffset), es, s)
    requires SessionRun(Initial(named, frequency, spec, storedOffset), es) && Enabled(s, e) && SessionStep(s, e)
    ensures Defined(s)
    ensures Apply(s, e).delivered ==
            s.delivered + if e.Feed? && Wanted(s.delivered, FirstPosition(named, spec, storedOffset), e.offset) then [e.offset] else []
  {
    var init, first := Initial(named, frequency, spec, storedOffset), FirstPosition(named, spec, storedOffset);
    RunFollowing(init, es, s, first);
    RunPlaced(init, es, s);
    if e.Feed? { FeedDelivers(s, first, e.offset); } else { StepPlaced(s, e); }
  }

  // ---- no gaps

  /** A session that has fed nothing yet is the one of the last subscribe. */
  ghost predicate Asked(s: State) {
    s.requests != [] && (s.sessionLast.None? ==> s.initial == Some(s.requests[|s.requests| - 1]))
  }

  lemma StepAsked(s: State, e: Event)
    requires Placed(s) && Asked(s) && Enabled(s, e)
    ensures Asked(Apply(s, e))
  {
    match e
    case Feed(offset) =>
    case ReconnectFinish(ok) => ReconnectAsked(s, ok);
    case _ => OtherFollowing(s, e);
  }

  lemma ReconnectAsked(s: State, ok: bool)
    requires Placed(s) && Asked(s)
    ensures Asked(ReconnectStep(s, ok))
  {
  }

  ghost predicate Positioned(s: State) {
    Placed(s) && (s.lastSeen.Some? ==> s.lastSeen.value + 1 < U64)
  }

  lemma StepPositioned(s: State, e: Event)
    requires Positioned(s) && Enabled(s, e) && IncreasingStep(s, e)
    ensures Positioned(Apply(s, e))
    ensures Apply(s, e).delivered == s.delivered
            || (e.Feed? && Apply(s, e).delivered == s.delivered + [e.offset]
                && (s.delivered != [] ==> e.offset > s.delivered[|s.delivered| - 1]))
  {
    StepPlaced(s, e);
    if e.Feed? { FeedPlaced(s, e.offset); }
  }

  ghost predicate Consecutive(s: seq<nat>) {
    forall i :: 0 <= i < |s| - 1 ==> s[i + 1] == s[i] + 1
  }

  /** While a session is still below the requested offset, everything it feeds is filtered. */
  ghost predicate Approaching(s: State) {
    s.initial.Some? && s.initial.value.Offset? && s.sessionLast.Some? ==> s.sessionLast.value < s.initial.value.offset
  }

  /** A session has not gone past what has been seen. */
  ghost predicate Behind(s: State) {
    s.sessionLast.Some? && s.lastSeen.Some? ==> s.sessionLast.value <= s.lastSeen.value
  }

  lemma FeedGapless(s: State, offset: nat)
    requires Positioned(s) && Approaching(s) && Behind(s) && Asked(s) && Enabled(s, Feed(offset))
    requires IncreasingStep(s, Feed(offset)) && GaplessStep(s, Feed(offset))
    ensures Approaching(FeedStep(s, offset)) && Behind(FeedStep(s, offset))
    ensures s.delivered != [] && FeedStep(s, offset).delivered != s.delivered ==> offset == s.delivered[|s.delivered| - 1] + 1
  {
  }

  lemma StepGapless(s: State, e: Event)
    requires Positioned(s) && Approaching(s) && Behind(s) && Asked(s) && Enabled(s, e) && IncreasingStep(s, e) && GaplessStep(s, e)
    ensures Approaching(Apply(s, e)) && Behind(Apply(s, e))
    ensures s.delivered != [] && Apply(s, e).delivered != s.delivered ==> e.Feed? && e.offset == s.delivered[|s.delivered| - 1] + 1
  {
    match e
    case Feed(offset) => FeedGapless(s, offset);
    case _ =>
  }

  lemma {:induction false} RunGapless(s: State, es: seq<Event>, t: State)
    requires Positioned(s) && Approaching(s) && Consecutive(s.delivered)
    requires Behind(s) && Asked(s)
    requires Run(s, es, t) && IncreasingRun(s, es) && GaplessRun(s, es)
    ensures Consecutive(t.delivered)
    decreases |es|
  {
    if es != [] {
      StepPositioned(s, es[0]);
      StepGapless(s, es[0]);
      StepAsked(s, es[0]);
      RunGapless(Apply(s, es[0]), es[1..], t);
    }
  }

  /**
   Main result. If sessions are also consecutive and start at or below what was asked for,
   there is no gap after the first delivered offset, however often the consumer reconnects.
   */
  lemma DeliveredWithoutGap(named: bool, frequency: Option<nat>, spec: OffsetSpec, storedOffset: Option<nat>, es: seq<Event>, t: State)
    requires Run(Initial(named, frequency, spec, storedOffset), es, t)
    requires IncreasingRun(Initial(named, frequency, spec, storedOffset), es)
    requires GaplessRun(Initial(named, frequency, spec, storedOffset), es)
    ensures Consecutive(t.delivered)
  {
    RunGapless(Initial(named, frequency, spec, storedOffset), es, t);
  }

  /** Until something is delivered the first position stands; what is delivered first is exactly it. */
  ghost predicate StartsAt(s: State, first: OffsetSpec) {
    && (s.delivered == [] ==> s.initial == Some(first))
    && (s.delivered != [] && first.Offset? ==> s.delivered[0] == first.offset)
  }

  lemma StepStartsAt(s: State, e: Event, first: OffsetSpec)
    requires Positioned(s) && Approaching(s) && Asked(s) && StartsAt(s, first)
    requires Enabled(s, e) && IncreasingStep(s, e) && GaplessStep(s, e)
    ensures StartsAt(Apply(s, e), first)
  {
    StepPositioned(s, e);
  }

  lemma {:induction false} RunStartsAt(s: State, es: seq<Event>, t: State, first: OffsetSpec)
    requires Positioned(s) && Approaching(s) && StartsAt(s, first)
    requires Behind(s) && Asked(s)
    requires Run(s, es, t) && IncreasingRun(s, es) && GaplessRun(s, es)
    ensures StartsAt(t, first)
    decreases |es|
  {
    if es != [] {
      StepPositioned(s, es[0]);
      StepGapless(s, es[0]);
      StepAsked(s, es[0]);
      StepStartsAt(s, es[0], first);
      RunStartsAt(Apply(s, es[0]), es[1..], t, first);
    }
  }

  /** A consumer that starts at an offset is given exactly that one first, reconnects before it or not. */
  lemma FirstDelivered(named: bool, frequency: Option<nat>, spec: OffsetSpec, storedOffset: Option<nat>, es: seq<Event>, t: State)
    requires Run(Initial(named, frequency, spec, storedOffset), es, t)
    requires IncreasingRun(Initial(named, frequency, spec, storedOffset), es)
    requires GaplessRun(Initial(named, frequency, spec, storedOffset), es)
    requires t.delivered != []
    ensures named && storedOffset.Some? ==> t.delivered[0] == (storedOffset.value + 1) % U64
    ensures !(named && storedOffset.Some?) && spec.Offset? ==> t.delivered[0] == spec.offset
  {
    var s := Initial(named, frequency, spec, storedOffset);
    RunStartsAt(s, es, t, s.requests[0]);
  }

  // ---- the automatic cursor

  /** What has been stored or is with a handler lies at or below the last seen offset. */
  ghost predicate CursorSound(s: State) {
    && Positioned(s)
    && (forall c :: c in s.calls ==> s.lastSeen.Some? && c.offset <= s.lastSeen.value)
    && (forall x :: x in s.stored ==> s.lastSeen.Some? && x <= s.lastSeen.value)
    && (s.since > 0 && !s.stop.Done? ==> forall x :: x in s.stored ==> x < s.lastSeen.value)
    && (s.stop.ClientTaken? || s.stop.Done? ==> !s.client)
  }

  /** The offset read at start stays below everything seen, handled and stored. */
  ghost predicate AboveFloor(s: State) {
    s.floor.Some? ==>
      && (s.lastSeen.Some? ==> s.lastSeen.value > s.floor.value)
      && (s.lastSeen.None? ==> s.initial == Some(Offset(s.floor.value + 1)))
      && (forall c :: c in s.calls ==> c.offset > s.floor.value)
      && (forall x :: x in s.stored ==> x > s.floor.value)
  }

  lemma FeedSound(s: State, offset: nat)
    requires CursorSound(s) && Enabled(s, Feed(offset)) && IncreasingStep(s, Feed(offset))
    ensures CursorSound(FeedStep(s, offset))
  {
    StepPositioned(s, Feed(offset));
    assert !Filtered(s, offset) && s.lastSeen.Some? ==> offset > s.lastSeen.value;
  }

  lemma FinishSound(s: State, i: nat, ok: bool)
    requires CursorSound(s) && i < |s.calls|
    ensures CursorSound(FinishStep(s, i, ok))
  {
    assert s.calls[i] in s.calls;
    assert forall c :: c in RemoveAt(s.calls, i) ==> c in s.calls;
  }

  lemma PersistSound(s: State, ok: bool)
    requires CursorSound(s) && s.since > 0
    ensures CursorSound(StoreStep(s, s.lastSeen.value, ok))
  {
  }

  lemma OtherSound(s: State, e: Event)
    requires CursorSound(s) && Enabled(s, e) && !e.Feed? && !e.Finish? && !e.PersistTask?
    ensures CursorSound(Apply(s, e))
  {
    StepPositioned(s, e);
  }

  lemma StepSound(s: State, e: Event)
    requires CursorSound(s) && Enabled(s, e) && IncreasingStep(s, e)
    ensures CursorSound(Apply(s, e))
  {
    match e
    case Feed(offset) => FeedSound(s, offset);
    case Finish(i, ok) => FinishSound(s, i, ok);
    case PersistTask(ok) => if s.since > 0 { PersistSound(s, ok); }
    case _ => OtherSound(s, e);
  }

  lemma FinishAboveFloor(s: State, i: nat, ok: bool)
    requires AboveFloor(s) && i < |s.calls|
    ensures AboveFloor(FinishStep(s, i, ok))
  {
    assert s.calls[i] in s.calls;
    assert forall c :: c in RemoveAt(s.calls, i) ==> c in s.calls;
  }

  lemma StepAboveFloor(s: State, e: Event)
    requires CursorSound(s) && AboveFloor(s) && Enabled(s, e) && IncreasingStep(s, e)
    ensures AboveFloor(Apply(s, e))
  {
    match e
    case Feed(offset) => FeedSound(s, offset);
    case Finish(i, ok) => FinishAboveFloor(s, i, ok);
    case _ =>
  }

  lemma {:induction false} RunSound(s: State, es: seq<Event>, t: State)
    requires CursorSound(s) && AboveFloor(s) && Run(s, es, t) && IncreasingRun(s, es)
    ensures CursorSound(t) && AboveFloor(t) && t.floor == s.floor
    decreases |es|
  {
    if es != [] {
      DefinedKept(s, es[0]);
      StepSound(s, es[0]);
      StepAboveFloor(s, es[0]);
      RunSound(Apply(s, es[0]), es[1..], t);
    }
  }

  /**
   Main result. However handlers overlap, every stored offset lies above the one read at
   start and at or below the last seen one, through reconnects, failed stores and the final
   store of a stop.
   */
  lemma CursorWithinBounds(named: bool, frequency: Option<nat>, spec: OffsetSpec, storedOffset: Option<nat>, es: seq<Event>, t: State)
    requires storedOffset.Some? ==> storedOffset.value + 1 < U64
    requires Run(Initial(named, frequency, spec, storedOffset), es, t)
    requires IncreasingRun(Initial(named, frequency, spec, storedOffset), es)
    ensures forall x :: x in t.stored ==> t.lastSeen.Some? && x <= t.lastSeen.value
    ensures named && storedOffset.Some? ==> forall x :: x in t.stored ==> x > storedOffset.value
  {
    RunSound(Initial(named, frequency, spec, storedOffset), es, t);
  }

  // ---- when the cursor only advances

  /** The store of handle_message that a returning handler makes. */
  ghost predicate Stores(s: State, e: Event)
    requires Enabled(s, e)
  {
    e.Finish? && e.ok && s.cfg.named && s.client && s.calls[e.i].store && MustStore(s, s.since)
  }

  /** A handler returns and stores although its offset or a later one is stored already. */
  ghost predicate Overtaken(s: State, e: Event)
    requires Enabled(s, e)
  {
    Stores(s, e) && exists x :: x in s.stored && x >= s.calls[e.i].offset
  }

  ghost predicate NeverOvertaken(s: State, es: seq<Event>)
    decreases |es|
  {
    es == [] || (Defined(s) && Enabled(s, es[0]) && !Overtaken(s, es[0]) && NeverOvertaken(Apply(s, es[0]), es[1..]))
  }

  lemma FinishStored(s: State, e: Event)
    requires Defined(s) && Enabled(s, e) && e.Finish?
    ensures Apply(s, e).stored == s.stored + if Stores(s, e) then [s.calls[e.i].offset] else []
  {
  }

  lemma FinishAdvances(s: State, e: Event)
    requires Defined(s) && Enabled(s, e) && e.Finish?
    ensures Ascending(Apply(s, e).stored) <==> Ascending(s.stored) && !Overtaken(s, e)
  {
    FinishStored(s, e);
    if Stores(s, e) { AscendingSnoc(s.stored, s.calls[e.i].offset); }
  }

  /** The periodic store and the final store of a stop never break the order. */
  lemma OtherStoresAdvance(s: State, e: Event)
    requires CursorSound(s) && Enabled(s, e) && !e.Finish?
    ensures Ascending(Apply(s, e).stored) <==> Ascending(s.stored)
  {
    if Apply(s, e).stored != s.stored {
      AscendingSnoc(s.stored, s.lastSeen.value);
    }
  }

  lemma {:induction false} RunAdvances(s: State, es: seq<Event>, t: State)
    requires CursorSound(s) && Run(s, es, t) && IncreasingRun(s, es)
    ensures Ascending(t.stored) <==> Ascending(s.stored) && NeverOvertaken(s, es)
    decreases |es|
  {
    if es != [] {
      if es[0].Finish? { FinishAdvances(s, es[0]); } else { OtherStoresAdvance(s, es[0]); }
      StepSound(s, es[0]);
      RunAdvances(Apply(s, es[0]), es[1..], t);
    }
  }

  /**
   Main result. Handlers overlapping or not, the stored offsets strictly increase exactly in
   the runs in which no handler stores an offset after the same or a later one was stored.
   */
  lemma CursorAdvancesExactly(named: bool, frequency: Option<nat>, spec: OffsetSpec, storedOffset: Option<nat>, es: seq<Event>, t: State)
    requires Run(Initial(named, frequency, spec, storedOffset), es, t)
    requires IncreasingRun(Initial(named, frequency, spec, storedOffset), es)
    ensures Ascending(t.stored) <==> NeverOvertaken(Initial(named, frequency, spec, storedOffset), es)
  {
    RunAdvances(Initial(named, frequency, spec, storedOffset), es, t);
  }

  /** Messages are handled one after the other. */
  ghost predicate SerialRun(s: State, es: seq<Event>)
    decreases |es|
  {
    es == [] || (Defined(s) && Enabled(s, es[0]) && (es[0].Feed? ==> s.calls == []) && SerialRun(Apply(s, es[0]), es[1..]))
  }

  ghost predicate OneHandler(s: State) {
    |s.calls| <= 1 && (s.calls != [] ==> s.lastSeen == Some(s.calls[0].offset))
  }

  lemma SerialStep(s: State, e: Event)
    requires CursorSound(s) && OneHandler(s) && Enabled(s, e) && (e.Feed? ==> s.calls == [])
    ensures OneHandler(Apply(s, e)) && !Overtaken(s, e)
  {
    if e.Finish? { assert RemoveAt(s.calls, e.i) == []; }
  }

  lemma {:induction false} SerialNeverOvertaken(s: State, es: seq<Event>)
    requires CursorSound(s) && OneHandler(s) && IncreasingRun(s, es) && SerialRun(s, es)
    ensures NeverOvertaken(s, es)
    decreases |es|
  {
    if es != [] {
      SerialStep(s, es[0]);
      StepSound(s, es[0]);
      SerialNeverOvertaken(Apply(s, es[0]), es[1..]);
    }
  }

  /** Main result. With messages handled one after the other the cursor only moves forward. */
  lemma CursorOnlyAdvances(named: bool, frequency: Option<nat>, spec: OffsetSpec, storedOffset: Option<nat>, es: seq<Event>, t: State)
    requires Run(Initial(named, frequency, spec, storedOffset), es, t)
    requires IncreasingRun(Initial(named, frequency, spec, storedOffset), es)
    requires SerialRun(Initial(named, frequency, spec, storedOffset), es)
    ensures Ascending(t.stored)
  {
    SerialNeverOvertaken(Initial(named, frequency, spec, storedOffset), es);
    CursorAdvancesExactly(named, frequency, spec, storedOffset, es, t);
  }

  // ---- what is stored

  /**
   The store an event makes: a returning handler's when its message was due at delivery and is
   still due, the periodic one and the one of a stop when something is unpersisted.
   */
  ghost function StoredBy(s: State, e: Event): seq<nat>
    requires Enabled(s, e) && Defined(s)
  {
    match e
    case Finish(i, ok) =>
      if ok && s.cfg.named && s.client && s.calls[i].store && s.cfg.frequency.Some? && 0 < s.cfg.frequency.value <= s.since
      then [s.calls[i].offset] else []
    case PersistTask(ok) => if ok && s.cfg.named && s.client && s.since > 0 && s.delivered != [] then [s.delivered[|s.delivered| - 1]] else []
    case StopStore(ok) =>
      if ok && s.stop.held && s.cfg.frequency.Some? && s.since > 0 && s.delivered != [] then [s.delivered[|s.delivered| - 1]] else []
    case _ => []
  }

  ghost function StoredIn(s: State, es: seq<Event>): seq<nat>
    decreases |es|
  {
    if es == [] || !Defined(s) || !Enabled(s, es[0]) then [] else StoredBy(s, es[0]) + StoredIn(Apply(s, es[0]), es[1..])
  }

  lemma StepStored(s: State, e: Event, first: OffsetSpec)
    requires Following(s, first) && Enabled(s, e)
    ensures Apply(s, e).stored == s.stored + StoredBy(s, e)
  {
  }

  lemma {:induction false} RunStored(s: State, es: seq<Event>, t: State, first: OffsetSpec)
    requires Following(s, first) && Run(s, es, t)
    ensures t.stored == s.stored + StoredIn(s, es)
    decreases |es|
  {
    if es != [] {
      var m := Apply(s, es[0]);
      StepStored(s, es[0], first);
      StepFollowing(s, es[0], first);
      RunStored(m, es[1..], t, first);
      Reassociate(s.stored, StoredBy(s, es[0]), StoredIn(m, es[1..]));
    }
  }

  /** Main result. In every run the stored offsets are exactly those of the stores the events make. */
  lemma StoredExactly(named: bool, frequency: Option<nat>, spec: OffsetSpec, storedOffset: Option<nat>, es: seq<Event>, t: State)
    requires Run(Initial(named, frequency, spec, storedOffset), es, t)
    ensures t.stored == StoredIn(Initial(named, frequency, spec, storedOffset), es)
  {
    RunStored(Initial(named, frequency, spec, storedOffset), es, t, FirstPosition(named, spec, storedOffset));
  }

  /** Messages delivered since the last store, told by the growth of the histories; the store of a stop is the last. */
  ghost function DeliveredSince(s: State, es: seq<Event>, n: nat): nat
    decreases |es|
  {
    if es == [] || !Defined(s) || !Enabled(s, es[0]) then n
    else
      var t := Apply(s, es[0]);
      DeliveredSince(t, es[1..],
                     if |t.stored| > |s.stored| && !es[0].StopStore? then 0 else if |t.delivered| > |s.delivered| then n + 1 else n)
  }

  lemma StepSince(s: State, e: Event, n: nat)
    requires Defined(s) && Enabled(s, e) && s.since == n % U32
    ensures var t := Apply(s, e);
            t.since == (if |t.stored| > |s.stored| && !e.StopStore? then 0 else if |t.delivered| > |s.delivered| then n + 1 else n) % U32
  {
  }

  lemma {:induction false} RunSince(s: State, es: seq<Event>, t: State, n: nat)
    requires Defined(s) && Run(s, es, t) && s.since == n % U32
    ensures t.since == DeliveredSince(s, es, n) % U32
    decreases |es|
  {
    if es != [] {
      var m := Apply(s, es[0]);
      StepSince(s, es[0], n);
      DefinedKept(s, es[0]);
      RunSince(m, es[1..], t,
               if |m.stored| > |s.stored| && !es[0].StopStore? then 0 else if |m.delivered| > |s.delivered| then n + 1 else n);
    }
  }

  /** The count of unpersisted messages is that of the messages delivered since the last store, in 32 bits. */
  lemma CountExactly(named: bool, frequency: Option<nat>, spec: OffsetSpec, storedOffset: Option<nat>, es: seq<Event>, t: State)
    requires Run(Initial(named, frequency, spec, storedOffset), es, t)
    ensures t.since == DeliveredSince(Initial(named, frequency, spec, storedOffset), es, 0) % U32
  {
    RunSince(Initial(named, frequency, spec, storedOffset), es, t, 0);
  }

  // ---- clients

  ghost predicate Exclusive(s: State) {
    s.reconnecting ==> !s.client
  }

  lemma StepExclusive(s: State, e: Event)
    requires Defined(s) && Exclusive(s) && Enabled(s, e)
    ensures Exclusive(Apply(s, e))
    ensures e.ReconnectBegin? ==> (Apply(s, e).reconnecting <==> s.stop.Running? && !s.client)
    ensures e.ReconnectAbort? || e.ReconnectFinish? ==> !Apply(s, e).reconnecting
    ensures e.Shutdown? || e.StopClient? || (e.DelayedReconnect? && s.stop.Running?) ==> !Apply(s, e).client
    ensures Apply(s, e).client && !s.client ==> e == ReconnectFinish(true) && s.stop.Running?
  {
  }

  lemma {:induction false} RunExclusive(s: State, es: seq<Event>, t: State)
    requires Defined(s) && Exclusive(s) && Run(s, es, t)
    ensures Exclusive(t)
    decreases |es|
  {
    if es != [] {
      StepExclusive(s, es[0]);
      DefinedKept(s, es[0]);
      RunExclusive(Apply(s, es[0]), es[1..], t);
    }
  }

  /** A reconnect subscribes only when no client is there, so no two sessions run side by side. */
  lemma SubscribesOnlyWithoutClient(
    named: bool, frequency: Option<nat>, spec: OffsetSpec, storedOffset: Option<nat>, es: seq<Event>, s: State, ok: bool)
    requires Run(Initial(named, frequency, spec, storedOffset), es, s) && Enabled(s, ReconnectFinish(ok))
    ensures !s.client
  {
    RunExclusive(Initial(named, frequency, spec, storedOffset), es, s);
  }

  // ---- how much can be unpersisted

  /** A store that is due when a handler returns finds a client and succeeds. */
  ghost predicate StoringStep(s: State, e: Event)
    requires Enabled(s, e)
  {
    e.Finish? && s.calls[e.i].store && MustStore(s, s.since) ==> e.ok && s.client
  }

  ghost predicate StoringRun(s: State, es: seq<Event>)
    decreases |es|
  {
    es == [] || (Defined(s) && Enabled(s, es[0]) && StoringStep(s, es[0]) && StoringRun(Apply(s, es[0]), es[1..]))
  }

  /** Some handler will store when it returns. */
  ghost predicate StoreDue(calls: seq<Call>) {
    exists c :: c in calls && c.store
  }

  ghost predicate Bounded(s: State, frequency: nat) {
    s.cfg == Config(true, Some(frequency)) && (s.since >= frequency ==> StoreDue(s.calls))
  }

  lemma FeedBounded(s: State, offset: nat, frequency: nat)
    requires Bounded(s, frequency) && 0 < frequency
    ensures Bounded(FeedStep(s, offset), frequency)
  {
    var t := FeedStep(s, offset);
    if t.calls != s.calls && t.since >= frequency {
      assert t.calls[|s.calls|] == Call(offset, true);
    }
  }

  lemma StoreDueKept(calls: seq<Call>, i: nat)
    requires i < |calls| && StoreDue(calls) && !calls[i].store
    ensures StoreDue(RemoveAt(calls, i))
  {
    var c :| c in calls && c.store;
    var k :| 0 <= k < |calls| && calls[k] == c;
    var rest := RemoveAt(calls, i);
    assert rest[if k < i then k else k - 1] == c;
  }

  lemma FinishBounded(s: State, e: Event, frequency: nat)
    requires Bounded(s, frequency) && 0 < frequency && e.Finish? && Enabled(s, e) && StoringStep(s, e)
    ensures Bounded(FinishStep(s, e.i, e.ok), frequency)
  {
    if s.since >= frequency && !s.calls[e.i].store { StoreDueKept(s.calls, e.i); }
  }

  lemma StepBounded(s: State, e: Event, frequency: nat)
    requires Defined(s) && Bounded(s, frequency) && 0 < frequency
    requires Enabled(s, e) && StoringStep(s, e)
    ensures Bounded(Apply(s, e), frequency)
  {
    match e
    case Feed(offset) => FeedBounded(s, offset, frequency);
    case Finish(_, _) => FinishBounded(s, e, frequency);
    case _ =>
  }

  lemma {:induction false} RunBounded(s: State, es: seq<Event>, t: State, frequency: nat)
    requires Defined(s) && Bounded(s, frequency) && 0 < frequency
    requires Run(s, es, t) && StoringRun(s, es)
    ensures Bounded(t, frequency)
    decreases |es|
  {
    if es != [] {
      StepBounded(s, es[0], frequency);
      DefinedKept(s, es[0]);
      RunBounded(Apply(s, es[0]), es[1..], t, frequency);
    }
  }

  /**
   Main result. Whatever offsets the broker feeds and however handlers overlap: as long as due
   stores succeed, fewer than persist_frequency messages are unpersisted, except while a
   handler that is going to store is still running.
   */
  lemma UnpersistedBelowFrequency(frequency: nat, spec: OffsetSpec, storedOffset: Option<nat>, es: seq<Event>, t: State)
    requires 0 < frequency
    requires Run(Initial(true, Some(frequency), spec, storedOffset), es, t)
    requires StoringRun(Initial(true, Some(frequency), spec, storedOffset), es)
    ensures t.since < frequency || exists c :: c in t.calls && c.store
    ensures t.calls == [] ==> t.since < frequency
  {
    RunBounded(Initial(true, Some(frequency), spec, storedOffset), es, t, frequency);
  }

  lemma RunCons(s: State, e: Event, es: seq<Event>, t: State)
    requires Defined(s) && Enabled(s, e) && Run(Apply(s, e), es, t)
    requires IncreasingStep(s, e) && IncreasingRun(Apply(s, e), es)
    ensures Run(s, [e] + es, t) && IncreasingRun(s, [e] + es)
  {
    assert ([e] + es)[1..] == es;
  }

  lemma SessionCons(s: State, e: Event, es: seq<Event>, t: State)
    requires Defined(s) && Enabled(s, e) && Run(Apply(s, e), es, t)
    requires SessionStep(s, e) && SessionRun(Apply(s, e), es)
    ensures Run(s, [e] + es, t) && SessionRun(s, [e] + es)
  {
    assert ([e] + es)[1..] == es;
  }

  /** Offset 5 with its handler, and a second session asked to go on at 6. */
  function HandlerOutlivesClient(): State {
    State(Config(true, Some(1)), Running, Some(Offset(6)), Some(5), 1, true, false, [Call(5, true)], None,
          [Offset(5), Offset(6)], [5], [], None)
  }

  lemma SecondSessionRegresses() returns (es: seq<Event>, t: State)
    ensures Run(HandlerOutlivesClient(), es, t) && IncreasingRun(HandlerOutlivesClient(), es) && t.stored == [6, 5]
  {
    var s5 := Apply(HandlerOutlivesClient(), Feed(6));
    var s6 := Apply(s5, Finish(1, true));
    var s7 := Apply(s6, Feed(7));
    t := Apply(s7, Finish(0, true));
    RunCons(s7, Finish(0, true), [], t);
    es := [Finish(0, true)];
    RunCons(s6, Feed(7), es, t);
    es := [Feed(7)] + es;
    RunCons(s5, Finish(1, true), es, t);
    es := [Finish(1, true)] + es;
    RunCons(HandlerOutlivesClient(), Feed(6), es, t);
    es := [Feed(6)] + es;
  }

  lemma HandlerIsOvertaken() returns (es: seq<Event>)
    ensures Run(Initial(true, Some(1), Offset(5), None), es, HandlerOutlivesClient())
    ensures IncreasingRun(Initial(true, Some(1), Offset(5), None), es)
  {
    var s, t := Initial(true, Some(1), Offset(5), None), HandlerOutlivesClient();
    var s1 := Apply(s, Feed(5));
    var s2 := Apply(s1, DelayedReconnect);
    var s3 := Apply(s2, ReconnectBegin);
    assert Apply(s3, ReconnectFinish(true)) == t;
    RunCons(s3, ReconnectFinish(true), [], t);
    RunCons(s2, ReconnectBegin, [ReconnectFinish(true)] + [], t);
    RunCons(s1, DelayedReconnect, [ReconnectBegin] + ([ReconnectFinish(true)] + []), t);
    RunCons(s, Feed(5), [DelayedReconnect] + ([ReconnectBegin] + ([ReconnectFinish(true)] + [])), t);
    es := [Feed(5)] + ([DelayedReconnect] + ([ReconnectBegin] + ([ReconnectFinish(true)] + [])));
  }

  lemma {:induction false} IncreasingAppend(s: State, es: seq<Event>, m: State, fs: seq<Event>, t: State)
    requires Run(s, es, m) && Run(m, fs, t) && IncreasingRun(s, es) && IncreasingRun(m, fs)
    ensures Run(s, es + fs, t) && IncreasingRun(s, es + fs)
    decreases |es|
  {
    if es == [] {
      assert es + fs == fs;
    } else {
      assert (es + fs)[1..] == es[1..] + fs;
      IncreasingAppend(Apply(s, es[0]), es[1..], m, fs, t);
    }
  }

  /**
   Handlers that overlap can be overtaken. Offset 5 is still with its handler when a metadata
   update makes delayed_reconnect take the client away; it waits for the client's thread
   outside the mutex, and a reconnect that some other cause had scheduled goes on meanwhile.
   The next session hands out and stores 6; the handler of 5 then returns and puts the cursor
   back, since the newer client is there to store on.
   */
  lemma OverlappingHandlersRegress() returns (es: seq<Event>, t: State)
    ensures Run(Initial(true, Some(1), Offset(5), None), es, t)
    ensures IncreasingRun(Initial(true, Some(1), Offset(5), None), es)
    ensures t.stored == [6, 5]
  {
    var es1 := HandlerIsOvertaken();
    var es2;
    es2, t := SecondSessionRegresses();
    IncreasingAppend(Initial(true, Some(1), Offset(5), None), es1, HandlerOutlivesClient(), es2, t);
    es := es1 + es2;
  }

  /** The largest offset has been delivered and handled, and the client is lost. */
  function LostAtTheLast(): State {
    State(Config(false, None), Running, None, Some(U64 - 1), 1, false, false, [], Some(U64 - 1), [First], [U64 - 1], [], None)
  }

  lemma ReachTheLast() returns (es: seq<Event>)
    ensures Run(Initial(false, None, First, None), es, LostAtTheLast()) && SessionRun(Initial(false, None, First, None), es)
  {
    var s, t := Initial(false, None, First, None), LostAtTheLast();
    var s1 := Apply(s, Feed(U64 - 1));
    var s2 := Apply(s1, Finish(0, true));
    assert Apply(s2, Shutdown) == t;
    SessionCons(s2, Shutdown, [], t);
    SessionCons(s1, Finish(0, true), [Shutdown] + [], t);
    SessionCons(s, Feed(U64 - 1), [Finish(0, true)] + ([Shutdown] + []), t);
    es := [Feed(U64 - 1)] + ([Finish(0, true)] + ([Shutdown] + []));
  }

  lemma StartOver() returns (es: seq<Event>, t: State)
    ensures Run(LostAtTheLast(), es, t) && SessionRun(LostAtTheLast(), es)
    ensures t.delivered == [U64 - 1, 0] && t.requests == [First, Offset(0)]
  {
    var s := LostAtTheLast();
    var s1 := Apply(s, ReconnectBegin);
    var s2 := Apply(s1, ReconnectFinish(true));
    t := Apply(s2, Feed(0));
    SessionCons(s2, Feed(0), [], t);
    SessionCons(s1, ReconnectFinish(true), [Feed(0)] + [], t);
    SessionCons(s, ReconnectBegin, [ReconnectFinish(true)] + ([Feed(0)] + []), t);
    es := [ReconnectBegin] + ([ReconnectFinish(true)] + ([Feed(0)] + []));
  }

  lemma {:induction false} RunAppend(s: State, es: seq<Event>, m: State, fs: seq<Event>, t: State)
    requires Run(s, es, m) && Run(m, fs, t) && SessionRun(s, es) && SessionRun(m, fs)
    ensures Run(s, es + fs, t) && SessionRun(s, es + fs)
    decreases |es|
  {
    if es == [] {
      assert es + fs == fs;
    } else {
      assert (es + fs)[1..] == es[1..] + fs;
      RunAppend(Apply(s, es[0]), es[1..], m, fs, t);
    }
  }

  /**
   Past the largest offset resumption starts over: the position asked for is zero and filters
   nothing, so the next session delivers an offset below the last one.
   */
  lemma ResumptionWraps() returns (es: seq<Event>, t: State)
    ensures Run(Initial(false, None, First, None), es, t) && SessionRun(Initial(false, None, First, None), es)
    ensures t.delivered == [U64 - 1, 0] && t.requests == [First, Offset(0)]
  {
    var es1 := ReachTheLast();
    var es2;
    es2, t := StartOver();
    RunAppend(Initial(false, None, First, None), es1, LostAtTheLast(), es2, t);
    es := es1 + es2;
  }

  // ---- the object

  class ConsumerImpl {
    const cfg: Config
    var started: bool
    var initial: Option<OffsetSpec>
    var lastSeen: Option<nat>
    var since: nat
    var client: bool
    ghost var st: State

    ghost predicate Valid()
      reads this
    {
      && Defined(st) && cfg == st.cfg && started == st.stop.Running?
      && initial == st.initial && lastSeen == st.lastSeen && since == st.since && client == st.client
      && (forall c :: c in st.calls && c.store ==> cfg.frequency.Some? && cfg.frequency.value > 0)
    }

    constructor (named: bool, frequency: Option<nat>, spec: OffsetSpec, storedOffset: Option<nat>)
      ensures Valid() && st == Initial(named, frequency, spec, storedOffset)
      ensures started && client && since == 0 && lastSeen.None? && initial == Some(FirstPosition(named, spec, storedOffset))
    {
      cfg := Config(named, if named then frequency else None);
      started, client := true, true;
      initial := Some(StartSpec(Config(named, if named then frequency else None), spec, storedOffset));
      lastSeen, since := None, 0;
      st := Initial(named, frequency, spec, storedOffset);
    }

    /** handle_message up to the user's handler. */
    method BeginMessage(offset: nat) returns (deliver: bool, store: bool)
      requires Valid() && offset < U64
      modifies this
      ensures Valid() && st == Apply(old(st), Feed(offset))
      ensures deliver <==> !Filtered(old(st), offset)
      ensures deliver ==> st.calls == old(st).calls + [Call(offset, store)]
      ensures deliver ==> initial.None? && lastSeen == Some(offset) && since == (old(since) + 1) % U32
      ensures deliver ==> (store <==> cfg.frequency.Some? && 0 < cfg.frequency.value <= since)
      ensures !deliver ==> initial == old(initial) && lastSeen == old(lastSeen) && since == old(since) && !store
    {
      st := Apply(st, Feed(offset));
      deliver, store := true, false;
      if initial.Some? {
        if initial.value.Offset? && initial.value.offset > offset { return false, false; }
        initial := None;
      }
      lastSeen := Some(offset);
      since := (since + 1) % U32;
      store := cfg.frequency.Some? && cfg.frequency.value > 0 && since >= cfg.frequency.value;
    }

    /** internal_store_offset; `ok` stands for the client's answer. */
    method StoreOffset(offset: nat, ok: bool)
      requires Valid()
      modifies this
      ensures Valid() && st == StoreStep(old(st), offset, ok)
      ensures since == if cfg.named && client && ok then 0 else old(since)
      ensures st.stored == old(st).stored + if cfg.named && client && ok then [offset] else []
      ensures lastSeen == old(lastSeen) && initial == old(initial) && client == old(client) && started == old(started)
    {
      st := StoreStep(st, offset, ok);
      if cfg.named && client {
        if ok { since := 0; }
      }
    }

    /** handle_message after the user's handler. */
    method EndMessage(ghost i: nat, call: Call, ok: bool)
      requires Valid() && i < |st.calls| && st.calls[i] == call
      modifies this
      ensures Valid() && st == Apply(old(st), Finish(i, ok))
      ensures var stores := call.store && old(since) >= cfg.frequency.value && cfg.named && client && ok;
              since == (if stores then 0 else old(since)) && st.stored == old(st).stored + if stores then [call.offset] else []
    {
      ghost var after := Apply(st, Finish(i, ok));
      st := st.(calls := RemoveAt(st.calls, i));
      if call.store {
        if since >= cfg.frequency.value { StoreOffset(call.offset, ok); }
      }
      assert st == after;
    }

    method StoreCurrentOffset(ok: bool)
      requires Valid() && cfg.frequency.Some?
      modifies this
      ensures Valid() && st == Apply(old(st), PersistTask(ok))
      ensures since == if cfg.named && client && ok then 0 else old(since)
      ensures st.stored == old(st).stored + if old(since) > 0 && cfg.named && client && ok then [lastSeen.value] else []
    {
      if since > 0 { StoreOffset(lastSeen.value, ok); }
    }

    /** reconnect_to_server's second region; `ok` is whether the subscription succeeded. */
    method FinishReconnect(ok: bool) returns (request: Option<OffsetSpec>)
      requires Valid() && st.reconnecting
      modifies this
      ensures Valid() && st == Apply(old(st), ReconnectFinish(ok))
      ensures request.Some? <==> old(started)
      ensures request.Some? ==> request == if lastSeen.Some? then Some(Offset((lastSeen.value + 1) % U64)) else old(initial)
      ensures request.Some? && ok ==> st.requests == old(st).requests + [request.value]
      ensures lastSeen == old(lastSeen) && since == old(since) && client == (old(client) || (old(started) && ok))
    {
      st := Apply(st, ReconnectFinish(ok));
      if !started { return None; }
      if lastSeen.Some? { initial := Some(Offset((lastSeen.value + 1) % U64)); }
      request := Some(initial.value);
      if ok { client := true; }
    }

    /** delayed_reconnect's region: it takes the client to stop it outside the mutex, and gives up on a stopped consumer. */
    method TakeForReconnect() returns (go: bool, held: bool)
      requires Valid()
      modifies this
      ensures Valid() && st == Apply(old(st), DelayedReconnect)
      ensures go == old(started) && held == (go && old(client)) && client == (old(client) && !go)
    {
      go, held := started, false;
      if started {
        held := client;
        client := false;
      }
      st := Apply(st, DelayedReconnect);
    }

    /** reconnect_to_server's first region. */
    method BeginReconnect() returns (go: bool)
      requires Valid() && !st.reconnecting
      modifies this
      ensures Valid() && st == Apply(old(st), ReconnectBegin)
      ensures go <==> started && !client
      ensures st.reconnecting <==> go
    {
      go := !(client || !started);
      st := Apply(st, ReconnectBegin);
    }

    /** handle_shutdown for every reason but ClientInitiated. */
    method LoseClient()
      requires Valid()
      modifies this
      ensures Valid() && st == Apply(old(st), Shutdown)
      ensures !client && lastSeen == old(lastSeen) && initial == old(initial) && since == old(since)
    {
      client := false;
      st := Apply(st, Shutdown);
    }

    /** internal_stop: only the first caller goes on. */
    method MarkStopped() returns (first: bool)
      requires Valid()
      modifies this
      ensures Valid() && first == old(started) && !started
      ensures st == if first then Apply(old(st), StopMark) else old(st)
    {
      first := started;
      started := false;
      if first { st := Apply(st, StopMark); }
    }

    method TakeClient() returns (held: bool)
      requires Valid() && st.stop.Marked?
      modifies this
      ensures Valid() && st == Apply(old(st), StopClient) && st.stop == ClientTaken(held)
      ensures held == old(client) && !client
    {
      held := client;
      client := false;
      st := Apply(st, StopClient);
    }

    /** internal_stop: the store on the client it took, which no longer resets the count. */
    method StoreOnStop(held: bool, ok: bool) returns (store: Option<nat>)
      requires Valid() && st.stop == ClientTaken(held)
      modifies this
      ensures Valid() && st == Apply(old(st), StopStore(ok))
      ensures store == if held && cfg.frequency.Some? && since > 0 then lastSeen else None
      ensures st.stored == old(st).stored + if ok && store.Some? then [store.value] else []
    {
      store := if held && cfg.frequency.Some? && since > 0 then Some(lastSeen.value) else None;
      st := Apply(st, StopStore(ok));
    }
  }
}
