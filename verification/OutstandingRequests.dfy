/**
 The outstanding-request map of ClientImpl. Calls take a correlation id from a 32-bit counter,
 register a promise under it, and wait; the frame thread completes promises by id, a caller
 that gives up erases its id, and shutdown fails whatever is left. One region under
 m_outstanding_mutex is one step.
 */
module OutstandingRequests {
  import opened Prelude

  datatype How = Response(id: nat) | ConnectionShutdown

  datatype Phase =
    | Numbered       // has an id, has not registered
    | Waiting        // its promise is in the map
    | Refused        // the id was already in the map: get_future throws
    | Done(how: How) // its promise is completed
    | Erased         // its promise was dropped

  datatype Call = Call(id: nat, phase: Phase)

  datatype State = State(
    sequence: nat,
    calls: seq<Call>,
    outstanding: map<nat, nat>, // correlation id to the call whose promise it is
    completions: seq<nat>)      // calls, in the order their promises were completed

  datatype Event =
    | Number
    | Register(c: nat)
    | Respond(id: nat)
    | GiveUp(c: nat)
    | FailAll

  const NO_REQUESTS := State(0, [], map[], [])

  function SetPhase(s: State, c: nat, phase: Phase): State
    requires c < |s.calls|
  {
    s.(calls := s.calls[c := s.calls[c].(phase := phase)])
  }

  /** The map names existing calls: what makes the other steps safe. */
  predicate Named(s: State) {
    forall id :: id in s.outstanding ==> s.outstanding[id] < |s.calls|
  }

  /** One promise is completed and its entry goes. */
  function Settle(s: State, id: nat, how: How): State
    requires Named(s) && id in s.outstanding
  {
    var c := s.outstanding[id];
    SetPhase(s, c, Done(how)).(outstanding := s.outstanding - {id}, completions := s.completions + [c])
  }

  /** fail_all_outstanding_requests goes through the map in the order of its keys. */
  function SettleAll(s: State, ids: seq<nat>): State
    requires Named(s) && Distinct(ids) && forall id :: id in ids ==> id in s.outstanding
    decreases |ids|
  {
    if ids == [] then s
    else
      assert ids[0] in ids;
      SettleAll(Settle(s, ids[0], ConnectionShutdown), ids[1..])
  }

  function RegisterStep(s: State, c: nat): State
    requires c < |s.calls|
  {
    var id := s.calls[c].id;
    if id in s.outstanding then SetPhase(s, c, Refused)
    else SetPhase(s, c, Waiting).(outstanding := s.outstanding[id := c])
  }

  /** drop_outstanding_request erases by id, whoever's promise that is. */
  function GiveUpStep(s: State, c: nat): State
    requires Named(s) && c < |s.calls|
  {
    var id := s.calls[c].id;
    if id in s.outstanding then SetPhase(s, s.outstanding[id], Erased).(outstanding := s.outstanding - {id}) else s
  }

  predicate Enabled(s: State, e: Event) {
    match e
    case Number => true
    case Register(c) => c < |s.calls| && s.calls[c].phase.Numbered?
    case Respond(_) => true
    case GiveUp(c) => c < |s.calls| && !s.calls[c].phase.Numbered? && !s.calls[c].phase.Refused?
    case FailAll => true
  }

  lemma SortedDistinct(keys: set<nat>)
    ensures Distinct(SortedIds(keys))
  {
    SortedAscending(keys);
  }

  function FailAllStep(s: State): State
    requires Named(s)
  {
    SortedDistinct(s.outstanding.Keys);
    SettleAll(s, SortedIds(s.outstanding.Keys))
  }

  function Apply(s: State, e: Event): State
    requires Named(s) && Enabled(s, e)
  {
    match e
    case Number =>
      var id := (s.sequence + 1) % U32;
      s.(sequence := id, calls := s.calls + [Call(id, Numbered)])
    case Register(c) => RegisterStep(s, c)
    case Respond(id) => if id in s.outstanding then Settle(s, id, Response(id)) else s
    case GiveUp(c) => GiveUpStep(s, c)
    case FailAll => FailAllStep(s)
  }

  ghost predicate Run(s: State, es: seq<Event>, t: State)
    decreases |es|
  {
    if es == [] then s == t
    else Named(s) && Enabled(s, es[0]) && Run(Apply(s, es[0]), es[1..], t)
  }

  // ---- what every step keeps

  /** The map and the waiting calls are each other's inverse. */
  ghost predicate Matched(s: State) {
    && (forall id :: id in s.outstanding ==>
          s.outstanding[id] < |s.calls| && s.calls[s.outstanding[id]] == Call(id, Waiting))
    && (forall c :: 0 <= c < |s.calls| && s.calls[c].phase.Waiting? ==>
          s.calls[c].id in s.outstanding && s.outstanding[s.calls[c].id] == c)
  }

  /** A promise is completed once, and by a response only with its own id. */
  ghost predicate Settled(s: State) {
    && Distinct(s.completions)
    && (forall c :: c in s.completions ==> c < |s.calls| && s.calls[c].phase.Done?)
    && (forall c :: 0 <= c < |s.calls| && s.calls[c].phase.Done? ==> c in s.completions)
    && (forall c :: 0 <= c < |s.calls| && s.calls[c].phase.Done? && s.calls[c].phase.how.Response? ==>
          s.calls[c].phase.how.id == s.calls[c].id)
  }

  ghost predicate Inv(s: State) {
    Matched(s) && Settled(s)
  }

  lemma SettleMatched(s: State, id: nat, how: How)
    requires Matched(s) && id in s.outstanding
    ensures Matched(Settle(s, id, how))
  {
  }

  lemma SettleSettled(s: State, id: nat, how: How)
    requires Matched(s) && Settled(s) && id in s.outstanding && (how.Response? ==> how.id == id)
    ensures Settled(Settle(s, id, how))
  {
    var c, t := s.outstanding[id], Settle(s, id, how);
    assert c !in s.completions;
    assert t.completions[|s.completions|] == c;
    forall d | 0 <= d < |t.calls| && t.calls[d].phase.Done? ensures d in t.completions {
      if d != c { assert s.calls[d].phase.Done?; }
    }
  }

  lemma {:induction false} SettleAllInv(s: State, ids: seq<nat>)
    requires Inv(s) && Distinct(ids) && forall id :: id in ids ==> id in s.outstanding
    ensures Inv(SettleAll(s, ids))
    decreases |ids|
  {
    if ids != [] {
      assert ids[0] in ids;
      SettleMatched(s, ids[0], ConnectionShutdown);
      SettleSettled(s, ids[0], ConnectionShutdown);
      SettleAllInv(Settle(s, ids[0], ConnectionShutdown), ids[1..]);
    }
  }

  lemma {:induction false} SettleAllLeaves(s: State, ids: seq<nat>)
    requires Named(s) && Distinct(ids) && forall id :: id in ids ==> id in s.outstanding
    ensures |SettleAll(s, ids).calls| == |s.calls|
    ensures forall id :: id in SettleAll(s, ids).outstanding ==> id in s.outstanding && id !in ids
    ensures s.completions <= SettleAll(s, ids).completions
    decreases |ids|
  {
    if ids != [] {
      assert ids[0] in ids;
      SettleAllLeaves(Settle(s, ids[0], ConnectionShutdown), ids[1..]);
    }
  }

  lemma FailAllInv(s: State)
    requires Inv(s)
    ensures Inv(FailAllStep(s)) && FailAllStep(s).outstanding == map[]
    ensures s.completions <= FailAllStep(s).completions
  {
    var ids := SortedIds(s.outstanding.Keys);
    SortedDistinct(s.outstanding.Keys);
    SettleAllInv(s, ids);
    SettleAllLeaves(s, ids);
  }

  lemma RegisterInv(s: State, c: nat)
    requires Inv(s) && c < |s.calls| && s.calls[c].phase.Numbered?
    ensures Inv(RegisterStep(s, c))
  {
    assert c !in s.completions;
  }

  lemma GiveUpInv(s: State, c: nat)
    requires Inv(s) && c < |s.calls|
    ensures Inv(GiveUpStep(s, c))
  {
  }

  lemma NumberInv(s: State)
    requires Inv(s)
    ensures Inv(Apply(s, Number))
  {
  }

  lemma StepInv(s: State, e: Event)
    requires Inv(s) && Enabled(s, e)
    ensures Inv(Apply(s, e)) && s.completions <= Apply(s, e).completions
  {
    match e
    case Number => NumberInv(s);
    case Register(c) => RegisterInv(s, c);
    case Respond(id) =>
      if id in s.outstanding {
        SettleMatched(s, id, Response(id));
        SettleSettled(s, id, Response(id));
      }
    case GiveUp(c) => GiveUpInv(s, c);
    case FailAll => FailAllInv(s);
  }

  lemma {:induction false} RunInv(s: State, es: seq<Event>, t: State)
    requires Inv(s) && Run(s, es, t)
    ensures Inv(t) && s.completions <= t.completions
    decreases |es|
  {
    if es != [] {
      StepInv(s, es[0]);
      RunInv(Apply(s, es[0]), es[1..], t);
    }
  }

  /**
   Main result. In every run, with the counter wrapped or not, no promise is completed
   twice, and one that is completed by a response got the response with its own id.
   */
  lemma CompletedAtMostOnce(es: seq<Event>, t: State)
    requires Run(NO_REQUESTS, es, t)
    ensures Distinct(t.completions)
    ensures forall c :: c in t.completions <==> 0 <= c < |t.calls| && t.calls[c].phase.Done?
    ensures forall c :: c in t.completions && t.calls[c].phase.how.Response? ==> t.calls[c].phase.how.id == t.calls[c].id
  {
    RunInv(NO_REQUESTS, es, t);
  }

  /** Shutdown leaves nobody waiting: every waiting call's promise is failed, and the map is empty. */
  lemma ShutdownSettlesEveryone(es: seq<Event>, s: State)
    requires Run(NO_REQUESTS, es, s)
    ensures Named(s)
    ensures var t := Apply(s, FailAll);
            t.outstanding == map[] && forall c :: 0 <= c < |t.calls| ==> !t.calls[c].phase.Waiting?
  {
    RunInv(NO_REQUESTS, es, s);
    FailAllInv(s);
  }

  // ---- who settles what, read off the events

  /** How an event settles a waiting call with this id. */
  ghost function SettlesWith(e: Event, id: nat): Option<How> {
    match e
    case Respond(x) => if x == id then Some(Response(id)) else None
    case FailAll => Some(ConnectionShutdown)
    case _ => None
  }

  ghost function SettledIn(s: State, es: seq<Event>, c: nat): Option<How>
    decreases |es|
  {
    if es == [] || !Named(s) || !Enabled(s, es[0]) then None
    else if c < |s.calls| && s.calls[c].phase.Waiting? && SettlesWith(es[0], s.calls[c].id).Some? then SettlesWith(es[0], s.calls[c].id)
    else SettledIn(Apply(s, es[0]), es[1..], c)
  }

  lemma {:induction false} SettleAllPhases(s: State, ids: seq<nat>, c: nat)
    requires Inv(s) && Distinct(ids) && (forall id :: id in ids ==> id in s.outstanding) && c < |s.calls|
    ensures |SettleAll(s, ids).calls| == |s.calls|
    ensures SettleAll(s, ids).calls[c] ==
            if s.calls[c].phase.Waiting? && s.calls[c].id in ids then Call(s.calls[c].id, Done(ConnectionShutdown)) else s.calls[c]
    decreases |ids|
  {
    if ids != [] {
      assert ids[0] in ids;
      SettleMatched(s, ids[0], ConnectionShutdown);
      SettleSettled(s, ids[0], ConnectionShutdown);
      SettleAllPhases(Settle(s, ids[0], ConnectionShutdown), ids[1..], c);
    }
  }

  lemma FailAllPhases(s: State, c: nat)
    requires Inv(s) && c < |s.calls|
    ensures |FailAllStep(s).calls| == |s.calls|
    ensures FailAllStep(s).calls[c] ==
            if s.calls[c].phase.Waiting? then Call(s.calls[c].id, Done(ConnectionShutdown)) else s.calls[c]
  {
    SortedDistinct(s.outstanding.Keys);
    SettleAllPhases(s, SortedIds(s.outstanding.Keys), c);
  }

  lemma RespondPhases(s: State, id: nat, c: nat)
    requires Inv(s) && c < |s.calls|
    ensures Apply(s, Respond(id)).calls[c] ==
            if s.calls[c] == Call(id, Waiting) then Call(id, Done(Response(id))) else s.calls[c]
  {
  }

  /** The other events: a new id, a registration, and the erasure of whoever waits under the id given up. */
  lemma OtherPhases(s: State, e: Event, c: nat)
    requires Inv(s) && Enabled(s, e) && !e.Respond? && !e.FailAll? && c < |s.calls|
    ensures Apply(s, e).calls[c] ==
            if e == Register(c) then Call(s.calls[c].id, if s.calls[c].id in s.outstanding then Refused else Waiting)
            else if e.GiveUp? && s.calls[c] == Call(s.calls[e.c].id, Waiting) then Call(s.calls[c].id, Erased)
            else s.calls[c]
  {
  }

  lemma StepSettles(s: State, e: Event, c: nat)
    requires Inv(s) && Enabled(s, e) && c < |s.calls|
    ensures c < |Apply(s, e).calls| && Apply(s, e).calls[c].id == s.calls[c].id
    ensures var how := if s.calls[c].phase.Waiting? then SettlesWith(e, s.calls[c].id) else None;
            && (how.Some? ==> Apply(s, e).calls[c].phase == Done(how.value))
            && (how.None? && s.calls[c].phase.Done? ==> Apply(s, e).calls[c].phase == s.calls[c].phase)
            && (how.None? && !s.calls[c].phase.Done? ==> !Apply(s, e).calls[c].phase.Done?)
  {
    CallsGrow(s, e);
    match e
    case Respond(id) => RespondPhases(s, id, c);
    case FailAll => FailAllPhases(s, c);
    case _ => OtherPhases(s, e, c);
  }

  lemma {:induction false} DoneStays(s: State, es: seq<Event>, t: State, c: nat)
    requires Inv(s) && Run(s, es, t) && c < |s.calls| && s.calls[c].phase.Done?
    ensures c < |t.calls| && t.calls[c] == s.calls[c] && SettledIn(s, es, c).None?
    decreases |es|
  {
    if es != [] {
      StepSettles(s, es[0], c);
      StepInv(s, es[0]);
      DoneStays(Apply(s, es[0]), es[1..], t, c);
    }
  }

  lemma NewCall(s: State, e: Event, c: nat)
    requires Inv(s) && Enabled(s, e) && |s.calls| <= c < |Apply(s, e).calls|
    ensures e.Number? && c == |s.calls| && Apply(s, e).calls[c] == Call((s.sequence + 1) % U32, Numbered)
  {
    if e.FailAll? {
      SortedDistinct(s.outstanding.Keys);
      SettleAllLeaves(s, SortedIds(s.outstanding.Keys));
    }
  }

  lemma {:induction false} RunSettles(s: State, es: seq<Event>, t: State, c: nat)
    requires Inv(s) && Run(s, es, t) && c < |t.calls| && (c < |s.calls| ==> !s.calls[c].phase.Done?)
    ensures forall how :: t.calls[c].phase == Done(how) <==> SettledIn(s, es, c) == Some(how)
    decreases |es|
  {
    if es != [] {
      var m := Apply(s, es[0]);
      StepInv(s, es[0]);
      if c < |s.calls| {
        StepSettles(s, es[0], c);
        if m.calls[c].phase.Done? { DoneStays(m, es[1..], t, c); } else { RunSettles(m, es[1..], t, c); }
      } else {
        if c < |m.calls| { NewCall(s, es[0], c); }
        RunSettles(m, es[1..], t, c);
      }
    }
  }

  /**
   Main result. A promise is completed exactly by the first event that is due to it while its
   call waits: with the response, if one with its correlation id comes, and with the failure of
   the connection, if the client shuts down.
   */
  lemma SettledExactly(es: seq<Event>, t: State, c: nat)
    requires Run(NO_REQUESTS, es, t) && c < |t.calls|
    ensures forall how :: t.calls[c].phase == Done(how) <==> SettledIn(NO_REQUESTS, es, c) == Some(how)
  {
    RunSettles(NO_REQUESTS, es, t, c);
  }

  // ---- distinct ids

  /** Fewer than 2^32 requests: call number c has the id c + 1. */
  ghost predicate Unwrapped(s: State) {
    && |s.calls| < U32 && s.sequence == |s.calls|
    && (forall c :: 0 <= c < |s.calls| ==> s.calls[c].id == c + 1)
  }

  ghost predicate NobodyRefused(s: State) {
    forall c :: 0 <= c < |s.calls| ==> !s.calls[c].phase.Refused?
  }

  /** Only the call itself can end its wait without an answer. */
  lemma GiveUpIsOwn(s: State, c: nat)
    requires Inv(s) && Unwrapped(s) && Enabled(s, GiveUp(c))
    ensures forall d :: 0 <= d < |s.calls| && d != c ==> GiveUpStep(s, c).calls[d] == s.calls[d]
    ensures !GiveUpStep(s, c).calls[c].phase.Waiting?
  {
  }

  lemma RegisterAccepted(s: State, c: nat)
    requires Inv(s) && Unwrapped(s) && Enabled(s, Register(c))
    ensures RegisterStep(s, c).calls[c].phase.Waiting?
  {
    forall id | id in s.outstanding ensures id != s.calls[c].id {
      assert s.calls[s.outstanding[id]].id == id;
    }
  }

  lemma SettleUnwrapped(s: State, id: nat, how: How)
    requires Matched(s) && Unwrapped(s) && NobodyRefused(s) && id in s.outstanding
    ensures Unwrapped(Settle(s, id, how)) && NobodyRefused(Settle(s, id, how))
  {
  }

  lemma GiveUpUnwrapped(s: State, c: nat)
    requires Matched(s) && Unwrapped(s) && NobodyRefused(s) && c < |s.calls|
    ensures Unwrapped(GiveUpStep(s, c)) && NobodyRefused(GiveUpStep(s, c))
  {
  }

  lemma {:induction false} SettleAllUnwrapped(s: State, ids: seq<nat>)
    requires Inv(s) && Distinct(ids) && forall id :: id in ids ==> id in s.outstanding
    requires Unwrapped(s) && NobodyRefused(s)
    ensures Unwrapped(SettleAll(s, ids)) && NobodyRefused(SettleAll(s, ids))
    decreases |ids|
  {
    if ids != [] {
      assert ids[0] in ids;
      SettleMatched(s, ids[0], ConnectionShutdown);
      SettleSettled(s, ids[0], ConnectionShutdown);
      SettleUnwrapped(s, ids[0], ConnectionShutdown);
      SettleAllUnwrapped(Settle(s, ids[0], ConnectionShutdown), ids[1..]);
    }
  }

  lemma FailAllUnwrapped(s: State)
    requires Inv(s) && Unwrapped(s) && NobodyRefused(s)
    ensures Unwrapped(FailAllStep(s)) && NobodyRefused(FailAllStep(s))
  {
    SortedDistinct(s.outstanding.Keys);
    SettleAllUnwrapped(s, SortedIds(s.outstanding.Keys));
  }

  lemma StepUnwrapped(s: State, e: Event)
    requires Inv(s) && Enabled(s, e) && Unwrapped(s) && NobodyRefused(s) && |Apply(s, e).calls| < U32
    ensures Unwrapped(Apply(s, e)) && NobodyRefused(Apply(s, e))
  {
    match e
    case Number =>
    case Register(c) => RegisterAccepted(s, c);
    case Respond(id) => if id in s.outstanding { SettleUnwrapped(s, id, Response(id)); }
    case GiveUp(c) => GiveUpUnwrapped(s, c);
    case FailAll => FailAllUnwrapped(s);
  }

  lemma CallsGrow(s: State, e: Event)
    requires Inv(s) && Enabled(s, e)
    ensures |s.calls| <= |Apply(s, e).calls|
  {
    if e.FailAll? {
      SortedDistinct(s.outstanding.Keys);
      SettleAllLeaves(s, SortedIds(s.outstanding.Keys));
    }
  }

  lemma {:induction false} RunUnwrapped(s: State, es: seq<Event>, t: State)
    requires Inv(s) && Run(s, es, t) && Unwrapped(s) && NobodyRefused(s) && |t.calls| < U32
    ensures Unwrapped(t) && NobodyRefused(t)
    decreases |es|
  {
    if es != [] {
      StepInv(s, es[0]);
      RunCallsGrow(Apply(s, es[0]), es[1..], t);
      StepUnwrapped(s, es[0]);
      RunUnwrapped(Apply(s, es[0]), es[1..], t);
    }
  }

  lemma {:induction false} RunCallsGrow(s: State, es: seq<Event>, t: State)
    requires Inv(s) && Run(s, es, t)
    ensures |s.calls| <= |t.calls|
    decreases |es|
  {
    if es != [] {
      StepInv(s, es[0]);
      CallsGrow(s, es[0]);
      RunCallsGrow(Apply(s, es[0]), es[1..], t);
    }
  }

  /**
   Main result. A client that has made fewer than 2^32 requests never refuses one, and a
   caller that gives up takes nobody else's promise with it.
   */
  lemma RequestsDoNotInterfere(es: seq<Event>, t: State, c: nat)
    requires Run(NO_REQUESTS, es, t) && |t.calls| < U32
    ensures forall d :: 0 <= d < |t.calls| ==> !t.calls[d].phase.Refused?
    ensures Named(t) && (Enabled(t, GiveUp(c)) ==>
              forall d :: 0 <= d < |t.calls| && d != c ==> Apply(t, GiveUp(c)).calls[d] == t.calls[d])
  {
    RunInv(NO_REQUESTS, es, t);
    RunUnwrapped(NO_REQUESTS, es, t);
    if Enabled(t, GiveUp(c)) { GiveUpIsOwn(t, c); }
  }

  /**
   What the bound is for: a caller that gives up takes another's promise exactly when a
   waiting call has its id, which needs the counter to have come round.
   */
  lemma InterferenceExactly(es: seq<Event>, s: State, c: nat)
    requires Run(NO_REQUESTS, es, s)
    ensures Named(s) && (Enabled(s, GiveUp(c)) ==>
              ((exists d :: 0 <= d < |s.calls| && d != c && Apply(s, GiveUp(c)).calls[d] != s.calls[d]) <==>
               exists d :: 0 <= d < |s.calls| && d != c && s.calls[d] == Call(s.calls[c].id, Waiting)))
  {
    RunInv(NO_REQUESTS, es, s);
    if Enabled(s, GiveUp(c)) {
      var t := Apply(s, GiveUp(c));
      forall d | 0 <= d < |s.calls| && d != c ensures t.calls[d] != s.calls[d] <==> s.calls[d] == Call(s.calls[c].id, Waiting) {
      }
    }
  }

  // ---- the object

  class RequestMap {
    var sequence: nat
    var outstanding: map<nat, nat>
    ghost var st: State

    ghost predicate Valid()
      reads this
    {
      sequence == st.sequence && outstanding == st.outstanding && Inv(st)
    }

    constructor ()
      ensures Valid() && st == NO_REQUESTS
    {
      sequence, outstanding := 0, map[];
      st := NO_REQUESTS;
    }

    method NextId() returns (id: nat)
      requires Valid()
      modifies this
      ensures Valid() && st == Apply(old(st), Number)
      ensures st.calls == old(st).calls + [Call(id, Numbered)]
      ensures id == sequence == (old(sequence) + 1) % U32 && outstanding == old(outstanding)
    {
      StepInv(st, Number);
      st := Apply(st, Number);
      sequence := (sequence + 1) % U32;
      id := sequence;
    }

    /** send_request's region; `c` is the caller's promise. */
    method SendRequest(id: nat, c: nat) returns (ok: bool)
      requires Valid() && Enabled(st, Register(c)) && st.calls[c].id == id
      modifies this
      ensures Valid() && st == Apply(old(st), Register(c))
      ensures ok <==> st.calls[c].phase.Waiting?
      ensures (ok <==> id !in old(outstanding)) && outstanding == if ok then old(outstanding)[id := c] else old(outstanding)
    {
      StepInv(st, Register(c));
      st := Apply(st, Register(c));
      ok := id !in outstanding;
      if ok { outstanding := outstanding[id := c]; }
    }

    /** complete_outstanding_request: the promise to complete, if the id is known. */
    method CompleteRequest(id: nat) returns (promise: Option<nat>)
      requires Valid()
      modifies this
      ensures Valid() && st == Apply(old(st), Respond(id))
      ensures st.completions == old(st).completions + (if promise.Some? then [promise.value] else [])
      ensures promise == (if id in old(outstanding) then Some(old(outstanding)[id]) else None) && outstanding == old(outstanding) - {id}
      ensures promise.Some? ==> st.calls[promise.value] == Call(id, Done(Response(id)))
    {
      StepInv(st, Respond(id));
      st := Apply(st, Respond(id));
      promise := None;
      if id in outstanding {
        promise := Some(outstanding[id]);
        outstanding := outstanding - {id};
      }
    }

    method DropRequest(id: nat, ghost c: nat)
      requires Valid() && Enabled(st, GiveUp(c)) && st.calls[c].id == id
      modifies this
      ensures Valid() && st == Apply(old(st), GiveUp(c))
      ensures outstanding == old(outstanding) - {id} && st.completions == old(st).completions
    {
      StepInv(st, GiveUp(c));
      st := Apply(st, GiveUp(c));
      outstanding := outstanding - {id};
    }

    /** fail_all_outstanding_requests: the promises it fails, in the order of the map. */
    method FailAllRequests() returns (promises: seq<nat>)
      requires Valid()
      modifies this
      ensures Valid() && st == Apply(old(st), FailAll)
      ensures st.completions == old(st).completions + promises
      ensures outstanding == map[]
    {
      FailAllInv(st);
      promises := InKeyOrder(outstanding);
      FailAllCompletions(st, promises);
      outstanding := map[];
      st := Apply(st, FailAll);
    }
  }

  /** The loop of fail_all_outstanding_requests. */
  method InKeyOrder(outstanding: map<nat, nat>) returns (promises: seq<nat>)
    ensures IsInKeyOrder(outstanding, promises)
  {
    var ids := SortedIds(outstanding.Keys);
    promises := [];
    for i := 0 to |ids|
      invariant |promises| == i
      invariant forall k :: 0 <= k < i ==> ids[k] in outstanding && promises[k] == outstanding[ids[k]]
    {
      assert ids[i] in ids;
      promises := promises + [outstanding[ids[i]]];
    }
  }

  ghost predicate IsInKeyOrder(outstanding: map<nat, nat>, promises: seq<nat>) {
    var ids := SortedIds(outstanding.Keys);
    |promises| == |ids| && forall k :: 0 <= k < |ids| ==> ids[k] in outstanding && promises[k] == outstanding[ids[k]]
  }

  lemma FailAllCompletions(s: State, promises: seq<nat>)
    requires Named(s) && IsInKeyOrder(s.outstanding, promises)
    ensures FailAllStep(s).completions == s.completions + promises && FailAllStep(s).sequence == s.sequence
  {
    SortedDistinct(s.outstanding.Keys);
    SettleAllCompletions(s, SortedIds(s.outstanding.Keys), promises);
  }

  lemma {:induction false} SettleAllCompletions(s: State, ids: seq<nat>, promises: seq<nat>)
    requires Named(s) && Distinct(ids) && forall id :: id in ids ==> id in s.outstanding
    requires |promises| == |ids| && forall k :: 0 <= k < |ids| ==> ids[k] in s.outstanding && promises[k] == s.outstanding[ids[k]]
    ensures SettleAll(s, ids).completions == s.completions + promises
    ensures SettleAll(s, ids).sequence == s.sequence
    decreases |ids|
  {
    if ids != [] {
      assert ids[0] in ids;
      var t := Settle(s, ids[0], ConnectionShutdown);
      SettleAllCompletions(t, ids[1..], promises[1..]);
      assert (s.completions + [promises[0]]) + promises[1..] == s.completions + promises;
    }
  }
}
