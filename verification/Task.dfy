/**
 ReschedulableTask: fires of a timer are turned into runs of one function on the background
 scheduler. Every event is one region under the task's mutex, one access on the strand, or
 the start or end of the user's function, which runs unlocked.
 */
module Task {
  import opened Prelude

  /** A runner submitted to the scheduler: at the loop head, inside the function, finished, or unwound by an exception. */
  datatype Runner = AtHead | InFunction | Finished | Threw

  /** A call of destroy(): flag set and timer being destroyed, waiting for a runner, back normally, or rethrowing. */
  datatype Destroyer = Flagged | Awaiting(runner: nat) | Returned | Rethrew

  datatype State = State(
    destroyed: bool,
    pending: nat,
    current: Option<nat>,      // current_invocation, as an index into runners
    runners: seq<Runner>,
    destroyers: seq<Destroyer>,
    fires: nat,                // accepted fires so far
    started: nat)              // invocations of the function so far

  datatype Event =
    | Fire
    | RunnerHead(r: nat)
    | FunctionReturns(r: nat)
    | FunctionThrows(r: nat)
    | DestroyBegin
    | DestroyLook(d: nat)
    | DestroyJoin(d: nat)

  predicate Initial(s: State) {
    s == State(false, 0, None, [], [], 0, 0)
  }

  ghost predicate Enabled(s: State, e: Event) {
    match e
    case Fire => true
    case RunnerHead(r) => r < |s.runners| && s.runners[r].AtHead?
    case FunctionReturns(r) => r < |s.runners| && s.runners[r].InFunction?
    case FunctionThrows(r) => r < |s.runners| && s.runners[r].InFunction?
    case DestroyBegin => true
    case DestroyLook(d) => d < |s.destroyers| && s.destroyers[d].Flagged?
    case DestroyJoin(d) =>
      d < |s.destroyers| && s.destroyers[d].Awaiting?
      && s.destroyers[d].runner < |s.runners|
      && (s.runners[s.destroyers[d].runner].Finished? || s.runners[s.destroyers[d].runner].Threw?)
  }

  /** The firing lambda: count the fire, and submit a runner if it is the first and none is there. */
  function FireStep(s: State): State {
    if s.destroyed then s
    else
      var t := s.(pending := s.pending + 1, fires := s.fires + 1);
      if t.pending == 1 && t.current.None? then
        t.(current := Some(|s.runners|), runners := s.runners + [AtHead])
      else t
  }

  /** The head of the runner's loop. */
  function HeadStep(s: State, r: nat): State
    requires r < |s.runners|
  {
    if !s.destroyed && s.pending > 0 then
      s.(pending := s.pending - 1, started := s.started + 1, runners := s.runners[r := InFunction])
    else
      s.(current := None, runners := s.runners[r := Finished])
  }

  function Apply(s: State, e: Event): State
    requires Enabled(s, e)
  {
    match e
    case Fire => FireStep(s)
    case RunnerHead(r) => HeadStep(s, r)
    case FunctionReturns(r) => s.(runners := s.runners[r := AtHead])
    case FunctionThrows(r) => s.(runners := s.runners[r := Threw])
    case DestroyBegin =>
      if Returned in s.destroyers then s.(destroyers := s.destroyers + [Returned])
      else s.(destroyed := true, destroyers := s.destroyers + [Flagged])
    case DestroyLook(d) =>
      s.(destroyers := s.destroyers[d := if s.current.Some? then Awaiting(s.current.value) else Returned])
    case DestroyJoin(d) =>
      s.(destroyers := s.destroyers[d := if s.runners[s.destroyers[d].runner].Finished? then Returned else Rethrew])
  }

  ghost predicate Run(s: State, es: seq<Event>, t: State)
    decreases |es|
  {
    if es == [] then s == t else Enabled(s, es[0]) && Run(Apply(s, es[0]), es[1..], t)
  }

  // ---- invariant

  ghost predicate Live(s: State, r: int) {
    0 <= r < |s.runners| && !s.runners[r].Finished?
  }

  ghost predicate Inv(s: State) {
    && s.fires == s.started + s.pending
    // exactly the current invocation is a live runner
    && (s.current.Some? ==> Live(s, s.current.value))
    && (forall r :: Live(s, r) ==> s.current.Some? && s.current.value == r)
    // no fire waits without a runner
    && (!s.destroyed && s.pending > 0 ==> s.current.Some?)
    // destroy
    && (|s.destroyers| > 0 ==> s.destroyed)
    && (forall d :: 0 <= d < |s.destroyers| && s.destroyers[d].Awaiting? ==>
          s.destroyers[d].runner < |s.runners|
          && forall r :: Live(s, r) ==> r == s.destroyers[d].runner)
    && (forall d :: 0 <= d < |s.destroyers| && s.destroyers[d].Returned? ==> s.current.None?)
  }

  lemma RunnerStep(s: State, e: Event)
    requires Inv(s) && Enabled(s, e) && (e.RunnerHead? || e.FunctionReturns? || e.FunctionThrows?)
    ensures Inv(Apply(s, e))
  {
    assert Live(s, e.r);
    assert forall r :: Live(Apply(s, e), r) ==> Live(s, r);
  }

  lemma FireKeeps(s: State)
    requires Inv(s)
    ensures Inv(FireStep(s))
  {
    var t := FireStep(s);
    assert forall r :: Live(t, r) ==> Live(s, r) || (s.current.None? && r == |s.runners|);
  }

  lemma DestroyStep(s: State, e: Event)
    requires Inv(s) && Enabled(s, e) && (e.DestroyBegin? || e.DestroyLook? || e.DestroyJoin?)
    ensures Inv(Apply(s, e))
  {
    var t := Apply(s, e);
    assert forall r :: Live(t, r) <==> Live(s, r);
  }

  lemma StepInv(s: State, e: Event)
    requires Inv(s) && Enabled(s, e)
    ensures Inv(Apply(s, e))
  {
    match e
    case Fire => FireKeeps(s);
    case RunnerHead(_) => RunnerStep(s, e);
    case FunctionReturns(_) => RunnerStep(s, e);
    case FunctionThrows(_) => RunnerStep(s, e);
    case _ => DestroyStep(s, e);
  }

  lemma {:induction false} RunInv(s: State, es: seq<Event>, t: State)
    requires Inv(s) && Run(s, es, t)
    ensures Inv(t)
    decreases |es|
  {
    if es != [] {
      StepInv(s, es[0]);
      RunInv(Apply(s, es[0]), es[1..], t);
    }
  }

  lemma InitialInv(s: State)
    requires Initial(s)
    ensures Inv(s)
  {
  }

  lemma Reached(init: State, es: seq<Event>, t: State)
    requires Initial(init) && Run(init, es, t)
    ensures Inv(t)
  {
    InitialInv(init);
    RunInv(init, es, t);
  }

  /**
   Main result. In every run: accepted fires are exactly the started and the pending
   invocations; at most one invocation runs at a time; and while the task is not destroyed,
   pending invocations have a runner at or on its way to the loop head, provided that the
   function has not thrown.
   */
  lemma SingleFlightNoLostFire(init: State, es: seq<Event>, t: State)
    requires Initial(init) && Run(init, es, t)
    ensures t.fires == t.started + t.pending
    ensures forall q, r :: 0 <= q < |t.runners| && 0 <= r < |t.runners| ==>
                             t.runners[q].InFunction? && t.runners[r].InFunction? ==> q == r
    ensures !t.destroyed && t.pending > 0 && (forall r :: 0 <= r < |t.runners| ==> !t.runners[r].Threw?) ==>
              exists r :: 0 <= r < |t.runners| && (t.runners[r].AtHead? || t.runners[r].InFunction?)
  {
    Reached(init, es, t);
    if !t.destroyed && t.pending > 0 { assert Live(t, t.current.value); }
    assert forall r :: 0 <= r < |t.runners| && t.runners[r].InFunction? ==> Live(t, r);
  }

  // ---- which fires are accepted

  /** The fires before the first destroy. */
  ghost function FiresBefore(es: seq<Event>): nat {
    if es == [] || es[0].DestroyBegin? then 0 else (if es[0].Fire? then 1 else 0) + FiresBefore(es[1..])
  }

  lemma StepFires(s: State, e: Event)
    requires Inv(s) && Enabled(s, e)
    ensures Apply(s, e).fires == s.fires + if e.Fire? && !s.destroyed then 1 else 0
    ensures Apply(s, e).destroyed <==> s.destroyed || e.DestroyBegin?
  {
  }

  lemma {:induction false} RunFires(s: State, es: seq<Event>, t: State)
    requires Inv(s) && Run(s, es, t)
    ensures t.fires == s.fires + if s.destroyed then 0 else FiresBefore(es)
    ensures t.destroyed <==> s.destroyed || DestroyBegin in es
    decreases |es|
  {
    if es != [] {
      StepFires(s, es[0]);
      StepInv(s, es[0]);
      RunFires(Apply(s, es[0]), es[1..], t);
      assert DestroyBegin in es <==> es[0].DestroyBegin? || DestroyBegin in es[1..];
    }
  }

  ghost predicate FiredAs(t: State, es: seq<Event>) {
    t.fires == FiresBefore(es) && (t.destroyed <==> DestroyBegin in es)
  }

  lemma RunFiresFresh(s: State, es: seq<Event>, t: State)
    requires Inv(s) && s.fires == 0 && !s.destroyed && Run(s, es, t)
    ensures FiredAs(t, es)
  {
    RunFires(s, es, t);
  }

  lemma RunFiresFromStart(init: State, es: seq<Event>, t: State)
    requires Initial(init) && Run(init, es, t)
    ensures FiredAs(t, es)
  {
    InitialInv(init);
    RunFiresFresh(init, es, t);
  }

  lemma FiresAccounted(init: State, es: seq<Event>, t: State)
    requires Initial(init) && Run(init, es, t)
    ensures t.fires == t.started + t.pending
  {
    Reached(init, es, t);
  }

  /** Every fire before the first destroy is accepted, and none after it: they are the started and the pending invocations. */
  lemma FiresAcceptedUntilDestroyed(init: State, es: seq<Event>, t: State)
    requires Initial(init) && Run(init, es, t)
    ensures t.started + t.pending == FiresBefore(es)
    ensures t.destroyed <==> DestroyBegin in es
  {
    FiresAccounted(init, es, t);
    RunFiresFromStart(init, es, t);
  }

  // ---- every invocation ends or runs

  ghost function Returns(es: seq<Event>): nat {
    if es == [] then 0 else (if es[0].FunctionReturns? then 1 else 0) + Returns(es[1..])
  }

  ghost function Throws(es: seq<Event>): nat {
    if es == [] then 0 else (if es[0].FunctionThrows? then 1 else 0) + Throws(es[1..])
  }

  ghost function Running(s: State): nat {
    if s.current.Some? && s.current.value < |s.runners| && s.runners[s.current.value].InFunction? then 1 else 0
  }

  lemma StepRunning(s: State, e: Event)
    requires Inv(s) && Enabled(s, e)
    ensures Apply(s, e).started + Running(s) + (if e.FunctionReturns? || e.FunctionThrows? then 0 else 1)
            == s.started + Running(Apply(s, e)) + 1
  {
    if e.RunnerHead? || e.FunctionReturns? || e.FunctionThrows? { assert Live(s, e.r); }
  }

  lemma {:induction false} RunRunning(s: State, es: seq<Event>, t: State)
    requires Inv(s) && Run(s, es, t)
    ensures t.started + Running(s) == s.started + Running(t) + Returns(es) + Throws(es)
    decreases |es|
  {
    if es != [] {
      StepRunning(s, es[0]);
      StepInv(s, es[0]);
      RunRunning(Apply(s, es[0]), es[1..], t);
    }
  }

  ghost predicate RanAs(t: State, es: seq<Event>) {
    t.started == Running(t) + Returns(es) + Throws(es)
  }

  lemma RunRunningFresh(s: State, es: seq<Event>, t: State)
    requires Inv(s) && s.started == 0 && s.current.None? && Run(s, es, t)
    ensures RanAs(t, es)
  {
    RunRunning(s, es, t);
  }

  lemma RunRunningFromStart(init: State, es: seq<Event>, t: State)
    requires Initial(init) && Run(init, es, t)
    ensures RanAs(t, es)
  {
    InitialInv(init);
    RunRunningFresh(init, es, t);
  }

  /** Every invocation that has started has returned, has thrown, or is the one that is running. */
  lemma InvocationsAccounted(init: State, es: seq<Event>, t: State)
    requires Initial(init) && Run(init, es, t)
    ensures t.started == Returns(es) + Throws(es) + if t.current.Some? && t.current.value < |t.runners| && t.runners[t.current.value].InFunction? then 1 else 0
  {
    RunRunningFromStart(init, es, t);
  }

  // ---- silence after destroy

  ghost predicate Silent(s: State) {
    s.destroyed && forall r :: 0 <= r < |s.runners| ==> s.runners[r].Finished?
  }

  lemma SilentStep(s: State, e: Event)
    requires Silent(s) && Enabled(s, e)
    ensures Silent(Apply(s, e)) && Apply(s, e).started == s.started
  {
  }

  lemma {:induction false} SilentRun(s: State, es: seq<Event>, t: State)
    requires Silent(s) && Run(s, es, t)
    ensures Silent(t) && t.started == s.started
    decreases |es|
  {
    if es != [] {
      SilentStep(s, es[0]);
      SilentRun(Apply(s, es[0]), es[1..], t);
    }
  }

  /**
   Main result. Once any call of destroy has returned normally, no invocation is running
   and none ever starts again, whatever timers, runners or other destroyers still do.
   */
  lemma SilentAfterDestroy(init: State, es: seq<Event>, s: State, d: nat, later: seq<Event>, t: State)
    requires Initial(init) && Run(init, es, s) && d < |s.destroyers| && s.destroyers[d].Returned?
    requires Run(s, later, t)
    ensures t.started == s.started
    ensures forall r :: 0 <= r < |t.runners| ==> !t.runners[r].InFunction?
  {
    Reached(init, es, s);
    assert Silent(s) by {
      forall r | 0 <= r < |s.runners| ensures s.runners[r].Finished? { assert !Live(s, r); }
    }
    SilentRun(s, later, t);
  }

  // ---- a function that throws

  ghost predicate Stuck(s: State) {
    exists r :: 0 <= r < |s.runners| && s.current == Some(r) && s.runners[r].Threw?
  }

  lemma StuckStep(s: State, e: Event)
    requires Inv(s) && Stuck(s) && Enabled(s, e)
    ensures Stuck(Apply(s, e)) && Apply(s, e).started == s.started
  {
    var r :| 0 <= r < |s.runners| && s.current == Some(r) && s.runners[r].Threw?;
    if e.RunnerHead? || e.FunctionReturns? || e.FunctionThrows? {
      assert Live(s, e.r);
    }
    var t := Apply(s, e);
    assert t.current == Some(r) && t.runners[r].Threw?;
  }

  lemma {:induction false} StuckRun(s: State, es: seq<Event>, t: State)
    requires Inv(s) && Stuck(s) && Run(s, es, t)
    ensures t.started == s.started && Stuck(t)
    decreases |es|
  {
    if es != [] {
      StuckStep(s, es[0]);
      StepInv(s, es[0]);
      StuckRun(Apply(s, es[0]), es[1..], t);
    }
  }

  lemma ThrowSticks(s: State, r: nat)
    requires Inv(s) && Enabled(s, FunctionThrows(r))
    ensures Stuck(Apply(s, FunctionThrows(r)))
  {
    assert Live(s, r);
    assert Apply(s, FunctionThrows(r)).runners[r].Threw?;
  }

  /**
   The assumption on the function is needed: wherever in a run an exception comes out of it,
   no invocation ever starts again, although fires are still accepted.
   */
  lemma ThrowingLosesEveryLaterFire(init: State, es: seq<Event>, s: State, r: nat, later: seq<Event>, t: State)
    requires Initial(init) && Run(init, es, s) && Enabled(s, FunctionThrows(r))
    requires Run(Apply(s, FunctionThrows(r)), later, t)
    ensures t.started == s.started && Stuck(t)
  {
    Reached(init, es, s);
    ThrowSticks(s, r);
    StepInv(s, FunctionThrows(r));
    StuckRun(Apply(s, FunctionThrows(r)), later, t);
  }

  lemma RunCons(s: State, e: Event, es: seq<Event>, t: State)
    requires Enabled(s, e) && Run(Apply(s, e), es, t)
    ensures Run(s, [e] + es, t)
  {
    assert ([e] + es)[1..] == es;
  }

  /** Such a run: the first fire throws, the second is accepted and no runner will ever serve it. */
  lemma SecondFireIsLost() returns (es: seq<Event>, t: State)
    ensures Run(State(false, 0, None, [], [], 0, 0), es, t)
    ensures Stuck(t) && !t.destroyed && t.fires == 2 && t.started == 1 && t.pending == 1
  {
    var s := State(false, 0, None, [], [], 0, 0);
    var s1 := State(false, 1, Some(0), [AtHead], [], 1, 0);
    var s2 := State(false, 0, Some(0), [InFunction], [], 1, 1);
    var s3 := State(false, 0, Some(0), [Threw], [], 1, 1);
    t := State(false, 1, Some(0), [Threw], [], 2, 1);
    assert t.runners[0].Threw?;
    assert Apply(s, Fire) == s1 && Apply(s1, RunnerHead(0)) == s2;
    RunCons(s3, Fire, [], t);
    RunCons(s2, FunctionThrows(0), [Fire] + [], t);
    RunCons(s1, RunnerHead(0), [FunctionThrows(0)] + ([Fire] + []), t);
    RunCons(s, Fire, [RunnerHead(0)] + ([FunctionThrows(0)] + ([Fire] + [])), t);
    es := [Fire] + ([RunnerHead(0)] + ([FunctionThrows(0)] + ([Fire] + [])));
  }

  ghost predicate NoneThrew(s: State) {
    forall r :: 0 <= r < |s.runners| ==> !s.runners[r].Threw?
  }

  ghost predicate NeverThrows(es: seq<Event>) {
    forall i :: 0 <= i < |es| ==> !es[i].FunctionThrows?
  }

  lemma CalmStep(s: State, e: Event)
    requires NoneThrew(s) && Enabled(s, e) && !e.FunctionThrows?
    ensures NoneThrew(Apply(s, e))
    ensures Rethrew !in s.destroyers ==> Rethrew !in Apply(s, e).destroyers
  {
  }

  lemma {:induction false} CalmRun(s: State, es: seq<Event>, t: State)
    requires NoneThrew(s) && Run(s, es, t) && NeverThrows(es)
    ensures NoneThrew(t) && (Rethrew !in s.destroyers ==> Rethrew !in t.destroyers)
    decreases |es|
  {
    if es != [] {
      CalmStep(s, es[0]);
      assert forall i :: 0 <= i < |es[1..]| ==> es[1..][i] == es[i + 1];
      CalmRun(Apply(s, es[0]), es[1..], t);
    }
  }

  lemma {:induction false} ThrowingRun(s: State, es: seq<Event>, t: State)
    requires Inv(s) && Run(s, es, t) && !NeverThrows(es)
    ensures Stuck(t)
    decreases |es|
  {
    StepInv(s, es[0]);
    if es[0].FunctionThrows? {
      ThrowSticks(s, es[0].r);
      StuckRun(Apply(s, es[0]), es[1..], t);
    } else {
      var i :| 0 <= i < |es| && es[i].FunctionThrows?;
      assert es[1..][i - 1].FunctionThrows?;
      ThrowingRun(Apply(s, es[0]), es[1..], t);
    }
  }

  /** A run gets stuck exactly when an invocation of it throws. */
  lemma StuckExactly(init: State, es: seq<Event>, t: State)
    requires Initial(init) && Run(init, es, t)
    ensures Stuck(t) <==> !NeverThrows(es)
  {
    if NeverThrows(es) { CalmFromStart(init, es, t); } else { ThrowingFromStart(init, es, t); }
  }

  lemma CalmFromStart(init: State, es: seq<Event>, t: State)
    requires Initial(init) && Run(init, es, t) && NeverThrows(es)
    ensures !Stuck(t)
  {
    assert NoneThrew(init);
    CalmRun(init, es, t);
    NotStuck(t);
  }

  /** destroy rethrows only what an invocation has thrown. */
  lemma DestroyRethrowsOnlyThrown(init: State, es: seq<Event>, t: State)
    requires Initial(init) && Run(init, es, t) && NeverThrows(es)
    ensures Rethrew !in t.destroyers
  {
    assert NoneThrew(init);
    CalmRun(init, es, t);
  }

  lemma NotStuck(t: State)
    requires NoneThrew(t)
    ensures !Stuck(t)
  {
  }

  lemma ThrowingFromStart(init: State, es: seq<Event>, t: State)
    requires Initial(init) && Run(init, es, t) && !NeverThrows(es)
    ensures Stuck(t)
  {
    InitialInv(init);
    ThrowingRun(init, es, t);
  }

  lemma RunnerUnlessStuck(t: State)
    requires Inv(t) && !t.destroyed && t.pending > 0
    ensures !Stuck(t) <==> exists r :: 0 <= r < |t.runners| && (t.runners[r].AtHead? || t.runners[r].InFunction?)
  {
    assert Live(t, t.current.value);
    forall r | 0 <= r < |t.runners| && (t.runners[r].AtHead? || t.runners[r].InFunction?) ensures t.current == Some(r) {
      assert Live(t, r);
    }
  }

  /**
   Main result. The pending fires of a task that is not destroyed have a runner that will serve
   them if and only if no invocation of the run has thrown.
   */
  lemma NoLostFireExactly(init: State, es: seq<Event>, t: State)
    requires Initial(init) && Run(init, es, t) && !t.destroyed && t.pending > 0
    ensures NeverThrows(es) <==> exists r :: 0 <= r < |t.runners| && (t.runners[r].AtHead? || t.runners[r].InFunction?)
  {
    Reached(init, es, t);
    StuckExactly(init, es, t);
    RunnerUnlessStuck(t);
  }

  // ---- the object

  class ReschedulableTask {
    var destroyed: bool
    var pending: nat
    var current: Option<nat>
    ghost var st: State

    ghost predicate Valid()
      reads this
    {
      destroyed == st.destroyed && pending == st.pending && current == st.current
    }

    constructor ()
      ensures Valid() && Initial(st)
    {
      destroyed, pending, current := false, 0, None;
      st := State(false, 0, None, [], [], 0, 0);
    }

    /** The timer's lambda; `runner` is the future the scheduler would hand out. */
    method OnFire(runner: nat) returns (submitted: bool)
      requires Valid() && runner == |st.runners|
      modifies this
      ensures Valid() && st == Apply(old(st), Fire)
      ensures submitted <==> |st.runners| == |old(st).runners| + 1
      ensures pending == (if destroyed then old(pending) else old(pending) + 1) && destroyed == old(destroyed)
      ensures submitted <==> !destroyed && old(pending) == 0 && old(current).None?
      ensures current == if submitted then Some(runner) else old(current)
    {
      st := Apply(st, Fire);
      if destroyed { return false; }
      pending := pending + 1;
      submitted := pending == 1 && current == None;
      if submitted { current := Some(runner); }
    }

    /** The loop test of the runner, and its epilogue when the loop ends. */
    method AtLoopHead(ghost r: nat) returns (invoke: bool)
      requires Valid() && Enabled(st, RunnerHead(r))
      modifies this
      ensures Valid() && st == Apply(old(st), RunnerHead(r))
      ensures invoke <==> st.runners[r].InFunction?
      ensures (invoke <==> !destroyed && old(pending) > 0) && destroyed == old(destroyed)
      ensures pending == old(pending) - (if invoke then 1 else 0) && current == if invoke then old(current) else None
    {
      st := Apply(st, RunnerHead(r));
      invoke := !destroyed && pending > 0;
      if invoke { pending := pending - 1; } else { current := None; }
    }

    method BeginDestroy(taskGone: bool)
      requires Valid() && taskGone == (Returned in st.destroyers)
      modifies this
      ensures Valid() && st == Apply(old(st), DestroyBegin)
      ensures destroyed == (old(destroyed) || !taskGone) && pending == old(pending) && current == old(current)
    {
      st := Apply(st, DestroyBegin);
      if !taskGone { destroyed := true; }
    }

    /** destroy after the timer is gone: the invocation it has to wait for, if any. */
    method InvocationToAwait(ghost d: nat) returns (r: Option<nat>)
      requires Valid() && Enabled(st, DestroyLook(d))
      modifies this`st
      ensures Valid() && st == Apply(old(st), DestroyLook(d))
      ensures r == current
      ensures r.Some? ==> st.destroyers[d] == Awaiting(r.value)
      ensures r.None? ==> st.destroyers[d].Returned?
    {
      st := Apply(st, DestroyLook(d));
      r := current;
    }
  }
}
