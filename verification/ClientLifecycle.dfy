/**
 The life of a ClientImpl: start, stop, the end of the frame loop and the heartbeat timeout
 race on one atomic status. A step is one atomic operation on it, or one shutdown call.
 */
module ClientLifecycle {
  import opened Prelude

  datatype Status = Initialized | Starting | Started | Stopping

  datatype Reason = ClientInitiated | ServerInitiated | HeartbeatTimeout | Unknown

  /** What shutdown is called with; without a reason the listener is not told. */
  type Duty = Option<Reason>

  datatype Loop = NotRunning | InLoop | Exited

  datatype State = State(
    status: Status,
    starting: bool,         // start has won its first exchange and is neither committed nor failed
    loop: Loop,             // the frame handling thread
    duties: seq<Duty>,      // shutdown calls some thread is bound to make
    shutdowns: seq<Duty>,   // shutdown calls made
    listened: seq<Reason>,  // calls of the shutdown listener
    wasStarted: bool)       // start has reached Started

  datatype Event =
    | StartBegin
    | SpawnLoop
    | StartFail
    | StartCommit
    | Stop
    | LoopExit(reason: Reason)
    | Heartbeat
    | Shutdown(i: nat)

  const NEW_CLIENT := State(Initialized, false, NotRunning, [], [], [], false)

  /** stop(): whoever moves the status to Stopping owes a shutdown, with a reason only from Started. */
  function StopStep(s: State): State {
    if s.status.Stopping? then s
    else s.(status := Stopping, duties := s.duties + [if s.status.Started? then Some(ClientInitiated) else None])
  }

  /** The exchange of the frame loop's end and of the heartbeat handler. */
  function LeaveStarted(s: State, reason: Reason): State {
    if s.status.Started? then s.(status := Stopping, duties := s.duties + [Some(reason)]) else s
  }

  function CommitStep(s: State): State {
    var t := s.(starting := false);
    if s.status.Starting? then t.(status := Started, wasStarted := true) else StopStep(t)
  }

  function ShutdownStep(s: State, i: nat): State
    requires i < |s.duties|
  {
    var duty := s.duties[i];
    s.(duties := RemoveAt(s.duties, i), shutdowns := s.shutdowns + [duty],
       listened := if duty.Some? then s.listened + [duty.value] else s.listened)
  }

  predicate Enabled(s: State, e: Event) {
    match e
    case StartBegin => true
    case SpawnLoop => s.starting && s.loop.NotRunning?
    case StartFail => s.starting
    case StartCommit => s.starting
    case Stop => true
    case LoopExit(_) => s.loop.InLoop?
    case Heartbeat => true
    case Shutdown(i) => i < |s.duties|
  }

  function Apply(s: State, e: Event): State
    requires Enabled(s, e)
  {
    match e
    case StartBegin => if s.status.Initialized? then s.(status := Starting, starting := true) else s
    case SpawnLoop => s.(loop := InLoop)
    case StartFail => StopStep(s.(starting := false))
    case StartCommit => CommitStep(s)
    case Stop => StopStep(s)
    case LoopExit(reason) => LeaveStarted(s.(loop := Exited), reason)
    case Heartbeat => LeaveStarted(s, HeartbeatTimeout)
    case Shutdown(i) => ShutdownStep(s, i)
  }

  ghost predicate Run(s: State, es: seq<Event>, t: State)
    decreases |es|
  {
    if es == [] then s == t
    else Enabled(s, es[0]) && Run(Apply(s, es[0]), es[1..], t)
  }

  ghost predicate Inv(s: State) {
    && |s.duties| + |s.shutdowns| == (if s.status.Stopping? then 1 else 0)
    && (forall d :: d in s.duties + s.shutdowns ==> d.Some? == s.wasStarted)
    && (s.status.Started? ==> s.wasStarted)
    && (s.status.Initialized? || s.status.Starting? ==> !s.wasStarted)
    && (s.starting ==> !s.status.Initialized? && !s.wasStarted)
    && s.listened == if s.shutdowns != [] && s.shutdowns[0].Some? then [s.shutdowns[0].value] else []
  }

  lemma StepInv(s: State, e: Event)
    requires Inv(s) && Enabled(s, e)
    ensures Inv(Apply(s, e))
    ensures s.status.Stopping? ==> Apply(s, e).status.Stopping? && Apply(s, e).wasStarted == s.wasStarted
    ensures s.shutdowns <= Apply(s, e).shutdowns
  {
    if e.Shutdown? { assert RemoveAt(s.duties, e.i) == []; }
  }

  lemma {:induction false} RunInv(s: State, es: seq<Event>, t: State)
    requires Inv(s) && Run(s, es, t)
    ensures Inv(t)
    ensures s.status.Stopping? ==> t.status.Stopping? && t.wasStarted == s.wasStarted
    ensures s.shutdowns <= t.shutdowns
    decreases |es|
  {
    if es != [] {
      StepInv(s, es[0]);
      RunInv(Apply(s, es[0]), es[1..], t);
    }
  }

  /**
   Main result. However start, stop, the end of the frame loop and heartbeat timeouts
   interleave, shutdown runs at most once and, once the client is stopping, some thread has
   made the call or is bound to; the listener is called exactly when that one call was made
   on a client that had reached Started.
   */
  lemma ShutdownAtMostOnce(es: seq<Event>, t: State)
    requires Run(NEW_CLIENT, es, t)
    ensures |t.shutdowns| <= 1
    ensures t.status.Stopping? <==> |t.shutdowns| + |t.duties| == 1
    ensures |t.listened| == if t.shutdowns != [] && t.wasStarted then 1 else 0
  {
    RunInv(NEW_CLIENT, es, t);
    if t.shutdowns != [] { assert t.shutdowns[0] in t.duties + t.shutdowns; }
  }

  /** Stopping is the end: no later start succeeds and no second shutdown happens. */
  lemma StoppingIsFinal(es: seq<Event>, s: State, later: seq<Event>, t: State)
    requires Run(NEW_CLIENT, es, s) && s.shutdowns != []
    requires Run(s, later, t)
    ensures t.status.Stopping? && t.wasStarted == s.wasStarted
    ensures t.shutdowns == s.shutdowns && t.listened == s.listened && t.duties == []
  {
    RunInv(NEW_CLIENT, es, s);
    RunInv(s, later, t);
  }

  /** The listener hears of a stop, a closed connection or a timeout by the reason of the step that won. */
  lemma WinnerGivesTheReason(es: seq<Event>, s: State, e: Event, later: seq<Event>, t: State)
    requires Run(NEW_CLIENT, es, s) && s.status.Started? && Enabled(s, e)
    requires e.Stop? || e.Heartbeat? || e.LoopExit?
    requires Run(Apply(s, e), later, t)
    ensures var reason := if e.Stop? then ClientInitiated else if e.Heartbeat? then HeartbeatTimeout else e.reason;
            t.listened == [] || t.listened == [reason]
  {
    RunInv(NEW_CLIENT, es, s);
    var reason := if e.Stop? then ClientInitiated else if e.Heartbeat? then HeartbeatTimeout else e.reason;
    StepInv(s, e);
    OwedKept(Apply(s, e), later, t, Some(reason));
    if t.shutdowns != [] { assert (t.duties + t.shutdowns)[|t.duties|] == t.shutdowns[0]; }
  }

  lemma {:induction false} OwedKept(s: State, es: seq<Event>, t: State, duty: Duty)
    requires Inv(s) && s.status.Stopping? && s.duties + s.shutdowns == [duty] && Run(s, es, t)
    ensures Inv(t) && t.duties + t.shutdowns == [duty]
    decreases |es|
  {
    if es != [] {
      StepInv(s, es[0]);
      if es[0].Shutdown? {
        assert s.shutdowns == [] && s.duties == [duty];
        assert RemoveAt(s.duties, es[0].i) == [];
      }
      OwedKept(Apply(s, es[0]), es[1..], t, duty);
    }
  }

  /** The frame loop ends while start is still going on. */
  ghost predicate EndsWhileStarting(s: State, es: seq<Event>)
    decreases |es|
  {
    es != [] && Enabled(s, es[0]) && ((es[0].LoopExit? && s.status.Starting?) || EndsWhileStarting(Apply(s, es[0]), es[1..]))
  }

  /** The thread is there only once start has begun. */
  ghost predicate LoopInv(s: State) {
    Inv(s) && (s.status.Initialized? ==> s.loop.NotRunning?)
  }

  lemma StepLoop(s: State, e: Event)
    requires LoopInv(s) && Enabled(s, e)
    ensures LoopInv(Apply(s, e))
    ensures Apply(s, e).loop.Exited? <==> s.loop.Exited? || e.LoopExit?
    ensures e.LoopExit? ==> s.status.Starting? || Apply(s, e).status.Stopping?
  {
    StepInv(s, e);
  }

  lemma {:induction false} RunLoop(s: State, es: seq<Event>, t: State)
    requires LoopInv(s) && Run(s, es, t) && t.status.Started?
    ensures t.loop.Exited? <==> s.loop.Exited? || EndsWhileStarting(s, es)
    decreases |es|
  {
    if es != [] {
      StepLoop(s, es[0]);
      RunInv(Apply(s, es[0]), es[1..], t);
      RunLoop(Apply(s, es[0]), es[1..], t);
      if es[0].LoopExit? { assert EndsWhileStarting(s, es); }
    }
  }

  /**
   Main result. The end of the frame loop is reported only from Started. A client is Started
   without a frame loop, and with nobody bound to shut it down, exactly after the runs in which
   the loop ended while start was still going on.
   */
  lemma LoopEndUnnoticedExactly(es: seq<Event>, t: State)
    requires Run(NEW_CLIENT, es, t) && t.status.Started?
    ensures t.loop.Exited? <==> EndsWhileStarting(NEW_CLIENT, es)
    ensures t.duties == [] && t.shutdowns == []
  {
    RunLoop(NEW_CLIENT, es, t);
    RunInv(NEW_CLIENT, es, t);
  }

  lemma RunCons(s: State, e: Event, es: seq<Event>, t: State)
    requires Enabled(s, e) && Run(Apply(s, e), es, t)
    ensures Run(s, [e] + es, t)
  {
    assert ([e] + es)[1..] == es;
  }

  /** A start that commits a client whose frame loop has already ended, with nobody bound to shut it down. */
  lemma StartedWithoutLoop() returns (es: seq<Event>, t: State)
    ensures Run(NEW_CLIENT, es, t)
    ensures t.status.Started? && t.loop.Exited? && t.duties == [] && t.shutdowns == []
  {
    var s1 := Apply(NEW_CLIENT, StartBegin);
    var s2 := Apply(s1, SpawnLoop);
    var s3 := Apply(s2, LoopExit(Unknown));
    t := Apply(s3, StartCommit);
    RunCons(s3, StartCommit, [], t);
    RunCons(s2, LoopExit(Unknown), [StartCommit] + [], t);
    RunCons(s1, SpawnLoop, [LoopExit(Unknown)] + ([StartCommit] + []), t);
    RunCons(NEW_CLIENT, StartBegin, [SpawnLoop] + ([LoopExit(Unknown)] + ([StartCommit] + [])), t);
    es := [StartBegin] + ([SpawnLoop] + ([LoopExit(Unknown)] + ([StartCommit] + [])));
  }

  // ---- the status, read off the events

  /** Some step that ends the client: a stop, a failed start, or the loop's end or a missed heartbeat once started. */
  ghost predicate EndsIn(s: State, es: seq<Event>)
    decreases |es|
  {
    es != [] && Enabled(s, es[0]) &&
    (es[0].Stop? || es[0].StartFail? || ((es[0].LoopExit? || es[0].Heartbeat?) && s.status.Started?)
     || EndsIn(Apply(s, es[0]), es[1..]))
  }

  /** start gets through before anything ends the client. */
  ghost predicate CommitsIn(s: State, es: seq<Event>)
    decreases |es|
  {
    es != [] && Enabled(s, es[0]) && ((es[0].StartCommit? && s.status.Starting?) || CommitsIn(Apply(s, es[0]), es[1..]))
  }

  ghost predicate BeginsIn(es: seq<Event>) {
    StartBegin in es
  }

  ghost function StatusAfter(ended: bool, committed: bool, begun: bool): Status {
    if ended then Stopping else if committed then Started else if begun then Starting else Initialized
  }

  lemma StepStatus(s: State, e: Event)
    requires Inv(s) && Enabled(s, e)
    ensures var ends := e.Stop? || e.StartFail? || ((e.LoopExit? || e.Heartbeat?) && s.status.Started?);
            Apply(s, e).status ==
            if s.status.Stopping? || ends then Stopping
            else if e.StartCommit? then Started
            else if e.StartBegin? && s.status.Initialized? then Starting
            else s.status
    ensures Apply(s, e).wasStarted <==> s.wasStarted || (e.StartCommit? && s.status.Starting?)
    ensures e.StartCommit? && !s.status.Stopping? ==> s.status.Starting?
  {
  }

  lemma {:induction false} RunStatus(s: State, es: seq<Event>, t: State)
    requires Inv(s) && Run(s, es, t)
    ensures t.status == StatusAfter(s.status.Stopping? || EndsIn(s, es), s.status.Started? || CommitsIn(s, es),
                                    s.status.Starting? || BeginsIn(es))
    ensures t.wasStarted <==> s.wasStarted || CommitsIn(s, es)
    decreases |es|
  {
    if es != [] {
      StepStatus(s, es[0]);
      StepInv(s, es[0]);
      RunStatus(Apply(s, es[0]), es[1..], t);
      assert StartBegin in es <==> es[0].StartBegin? || StartBegin in es[1..];
    }
  }

  /**
   Main result. In every interleaving the status is what the events say: Stopping once a stop,
   a failed start, or the loop's end or a missed heartbeat of a started client has happened;
   else Started once start has got through; else Starting once it has begun.
   */
  lemma StatusExactly(es: seq<Event>, t: State)
    requires Run(NEW_CLIENT, es, t)
    ensures t.status == StatusAfter(EndsIn(NEW_CLIENT, es), CommitsIn(NEW_CLIENT, es), BeginsIn(es))
    ensures t.wasStarted <==> CommitsIn(NEW_CLIENT, es)
  {
    RunStatus(NEW_CLIENT, es, t);
  }

  /** A failed start leaves the client stopping, with one shutdown owed or made, of which the listener never hears. */
  lemma FailedStartStopsSilently(es: seq<Event>, s: State, later: seq<Event>, t: State)
    requires Run(NEW_CLIENT, es, s) && Enabled(s, StartFail) && Run(Apply(s, StartFail), later, t)
    ensures t.status.Stopping? && |t.duties| + |t.shutdowns| == 1 && t.listened == [] && !t.wasStarted
    ensures forall d :: d in t.duties + t.shutdowns ==> d.None?
  {
    RunInv(NEW_CLIENT, es, s);
    StepInv(s, StartFail);
    StepStatus(s, StartFail);
    RunInv(Apply(s, StartFail), later, t);
    if t.shutdowns != [] { assert t.shutdowns[0] in t.duties + t.shutdowns; }
  }

  // ---- the object

  class ClientStatus {
    var status: Status
    ghost var st: State

    ghost predicate Valid()
      reads this
    {
      status == st.status
    }

    constructor ()
      ensures Valid() && st == NEW_CLIENT
    {
      status := Initialized;
      st := NEW_CLIENT;
    }

    /** start's first exchange; otherwise it throws. */
    method BeginStart() returns (ok: bool)
      requires Valid()
      modifies this
      ensures Valid() && st == Apply(old(st), StartBegin)
      ensures ok <==> old(status) == Initialized
      ensures status == if ok then Starting else old(status)
    {
      st := Apply(st, StartBegin);
      ok := status == Initialized;
      if ok { status := Starting; }
    }

    /** stop up to its shutdown call, which is owed when `owes`. */
    method BeginStop() returns (owes: bool, duty: Duty)
      requires Valid()
      modifies this
      ensures Valid() && st == Apply(old(st), Stop)
      ensures status == Stopping && (owes <==> old(status) != Stopping)
      ensures duty == if old(status) == Started then Some(ClientInitiated) else None
      ensures st.duties == old(st).duties + (if owes then [duty] else [])
    {
      st := Apply(st, Stop);
      var previous := status;
      status := Stopping;
      owes := previous != Stopping;
      duty := if previous == Started then Some(ClientInitiated) else None;
    }

    /** The end of start's try block, and its catch when the client was stopped meanwhile. */
    method CommitStart() returns (ok: bool, owes: bool, duty: Duty)
      requires Valid() && st.starting
      modifies this
      ensures Valid() && st == Apply(old(st), StartCommit)
      ensures ok <==> old(status) == Starting
      ensures status == (if ok then Started else Stopping) && (owes <==> !ok && old(status) != Stopping)
      ensures st.duties == old(st).duties + (if owes then [duty] else [])
    {
      ghost var after := Apply(st, StartCommit);
      st := st.(starting := false);
      if status == Starting {
        status := Started;
        st := st.(status := Started, wasStarted := true);
        ok, owes, duty := true, false, None;
      } else {
        ok := false;
        owes, duty := BeginStop();
      }
      assert st == after;
    }

    /** start's catch block, up to the shutdown call of its stop. */
    method FailStart() returns (owes: bool, duty: Duty)
      requires Valid() && st.starting
      modifies this
      ensures Valid() && st == Apply(old(st), StartFail)
      ensures status == Stopping && (owes <==> old(status) != Stopping)
      ensures st.duties == old(st).duties + (if owes then [duty] else [])
    {
      ghost var after := Apply(st, StartFail);
      st := st.(starting := false);
      owes, duty := BeginStop();
      assert st == after;
    }

    /** shutdown after the connection is closed and the requests are failed: what the listener is told, if anything. */
    method Shutdown(ghost i: nat, duty: Duty) returns (told: Option<Reason>)
      requires Valid() && i < |st.duties| && st.duties[i] == duty
      modifies this`st
      ensures Valid() && st == Apply(old(st), Event.Shutdown(i))
      ensures told == duty && st.listened == old(st).listened + if told.Some? then [told.value] else []
    {
      told := duty;
      st := Apply(st, Event.Shutdown(i));
    }

    /** The frame loop has ended with `reason`. */
    method EndOfLoop(reason: Reason) returns (owes: bool)
      requires Valid() && st.loop.InLoop?
      modifies this
      ensures Valid() && st == Apply(old(st), LoopExit(reason))
      ensures (owes <==> old(status) == Started) && status == if owes then Stopping else old(status)
      ensures st.duties == old(st).duties + (if owes then [Some(reason)] else [])
    {
      st := Apply(st, LoopExit(reason));
      owes := status == Started;
      if owes { status := Stopping; }
    }

    method HeartbeatMissed() returns (owes: bool)
      requires Valid()
      modifies this
      ensures Valid() && st == Apply(old(st), Heartbeat)
      ensures (owes <==> old(status) == Started) && status == if owes then Stopping else old(status)
      ensures st.duties == old(st).duties + (if owes then [Some(HeartbeatTimeout)] else [])
    {
      st := Apply(st, Heartbeat);
      owes := status == Started;
      if owes { status := Stopping; }
    }
  }
}
