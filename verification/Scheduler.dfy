/**
 BackgroundScheduler: a lazily grown pool of worker threads with an overflow queue, up to
 the moment it starts quitting. Tasks are named by the order of their submission.
 */
module Scheduler {
  import opened Prelude

  /** A worker slot; `executing` tells whether its thread has begun the current task. */
  datatype Worker = Worker(running: bool, task: Option<nat>, executing: bool)

  datatype State = State(
    workers: seq<Worker>,
    overflow: seq<nat>,
    submitted: nat,
    dispatched: seq<nat>,   // tasks in the order they got a worker
    begun: seq<nat>,      // tasks in the order they began to run
    finished: seq<nat>)

  datatype Event = Submit | Begin(w: nat) | Finish(w: nat) | IdleTimeout(w: nat)

  const STOPPED := Worker(false, None, false)

  function Initial(nbThreads: nat): State {
    State(seq(nbThreads, _ => STOPPED), [], 0, [], [], [])
  }

  // ---- find_available_thread

  predicate Idle(w: Worker) { w.running && w.task.None? }

  /** What find_available_thread chooses: the first idle worker, else the first stopped one. */
  ghost predicate Chosen(workers: seq<Worker>, r: Option<nat>, started: bool) {
    match r
    case None => (forall i :: 0 <= i < |workers| ==> workers[i].running && workers[i].task.Some?) && !started
    case Some(k) =>
      k < |workers|
      && (started ==> Idle(workers[k]) && forall i :: 0 <= i < k ==> !Idle(workers[i]))
      && (!started ==> !workers[k].running && (forall i :: 0 <= i < k ==> workers[i].running)
                       && forall i :: 0 <= i < |workers| ==> !Idle(workers[i]))
  }

  lemma ChosenUnique(workers: seq<Worker>, r: Option<nat>, started: bool, r': Option<nat>, started': bool)
    requires Chosen(workers, r, started) && Chosen(workers, r', started')
    ensures r == r' && started == started'
  {
  }

  method FindAvailableThread(workers: seq<Worker>) returns (r: Option<nat>, started: bool)
    ensures Chosen(workers, r, started)
  {
    var idle: Option<nat> := None;
    var firstStopped: Option<nat> := None;
    for i := 0 to |workers|
      invariant idle.None? && forall j :: 0 <= j < i ==> !Idle(workers[j])
      invariant firstStopped.Some? ==> firstStopped.value < i && !workers[firstStopped.value].running
                                       && forall j :: 0 <= j < firstStopped.value ==> workers[j].running
      invariant firstStopped.None? ==> forall j :: 0 <= j < i ==> workers[j].running
    {
      if workers[i].running && workers[i].task.None? {
        idle := Some(i);
        break;
      } else if !workers[i].running && firstStopped.None? {
        firstStopped := Some(i);
      }
    }
    if idle.Some? { return idle, true; }
    if firstStopped.Some? { return firstStopped, false; }
    return None, false;
  }

  // ---- steps

  predicate Free(w: Worker) { !w.running || w.task.None? }

  function FirstIdle(workers: seq<Worker>, i: nat): (r: Option<nat>)
    requires i <= |workers|
    ensures r.Some? ==> i <= r.value < |workers| && Idle(workers[r.value]) && forall j :: i <= j < r.value ==> !Idle(workers[j])
    ensures r.None? ==> forall j :: i <= j < |workers| ==> !Idle(workers[j])
    decreases |workers| - i
  {
    if i == |workers| then None else if Idle(workers[i]) then Some(i) else FirstIdle(workers, i + 1)
  }

  function FirstStopped(workers: seq<Worker>, i: nat): (r: Option<nat>)
    requires i <= |workers|
    ensures r.Some? ==> i <= r.value < |workers| && !workers[r.value].running && forall j :: i <= j < r.value ==> workers[j].running
    ensures r.None? ==> forall j :: i <= j < |workers| ==> workers[j].running
    decreases |workers| - i
  {
    if i == |workers| then None else if !workers[i].running then Some(i) else FirstStopped(workers, i + 1)
  }

  function Choice(workers: seq<Worker>): (r: Option<nat>)
    ensures r.Some? ==> r.value < |workers|
  {
    var idle := FirstIdle(workers, 0);
    if idle.Some? then idle else FirstStopped(workers, 0)
  }

  lemma ChoiceIsChosen(workers: seq<Worker>, r: Option<nat>, started: bool)
    requires Chosen(workers, r, started)
    ensures Choice(workers) == r
  {
  }

  function Submission(s: State): State {
    match Choice(s.workers)
    case Some(k) =>
      s.(workers := s.workers[k := Worker(true, Some(s.submitted), false)],
         submitted := s.submitted + 1, dispatched := s.dispatched + [s.submitted])
    case None => s.(overflow := s.overflow + [s.submitted], submitted := s.submitted + 1)
  }

  /** run_work_thread after a task: take the oldest overflow task, or none. */
  function Completion(s: State, w: nat): State
    requires w < |s.workers| && s.workers[w].task.Some?
  {
    var t := s.(finished := s.finished + [s.workers[w].task.value]);
    if s.overflow != [] then
      t.(workers := s.workers[w := Worker(true, Some(s.overflow[0]), false)],
         overflow := s.overflow[1..], dispatched := s.dispatched + [s.overflow[0]])
    else t.(workers := s.workers[w := Worker(true, None, false)])
  }

  predicate Enabled(s: State, e: Event) {
    match e
    case Submit => true
    case Begin(w) => w < |s.workers| && s.workers[w].running && s.workers[w].task.Some? && !s.workers[w].executing
    case Finish(w) => w < |s.workers| && s.workers[w].task.Some? && s.workers[w].executing
    case IdleTimeout(w) => w < |s.workers| && s.workers[w].running && !s.workers[w].executing
  }

  function Apply(s: State, e: Event): State
    requires Enabled(s, e)
  {
    match e
    case Submit => Submission(s)
    case Begin(w) =>
      s.(workers := s.workers[w := s.workers[w].(executing := true)], begun := s.begun + [s.workers[w].task.value])
    case Finish(w) => Completion(s, w)
    case IdleTimeout(w) =>
      // the wait's predicate is evaluated last: an assigned task beats the timeout
      if s.workers[w].task.Some? then s else s.(workers := s.workers[w := STOPPED])
  }

  ghost predicate Run(s: State, es: seq<Event>, t: State)
    decreases |es|
  {
    if es == [] then s == t else Enabled(s, es[0]) && Run(Apply(s, es[0]), es[1..], t)
  }

  // ---- submission order

  function UpTo(n: nat): (s: seq<nat>)
    ensures |s| == n && forall i :: 0 <= i < n ==> s[i] == i
  {
    seq(n, i => i)
  }

  ghost predicate Busy(w: Worker) { w.running && w.task.Some? }

  ghost predicate Inv(s: State) {
    && s.dispatched + s.overflow == UpTo(s.submitted)
    && (s.overflow != [] ==> forall i :: 0 <= i < |s.workers| ==> Busy(s.workers[i]))
    && (forall i :: 0 <= i < |s.workers| && s.workers[i].task.Some? ==> s.workers[i].running)
    && (forall i :: 0 <= i < |s.workers| && s.workers[i].executing ==> s.workers[i].task.Some?)
  }

  lemma SubmitInv(s: State)
    requires Inv(s)
    ensures Inv(Submission(s))
    ensures Choice(s.workers).Some? ==> s.workers[Choice(s.workers).value].task.None? && s.overflow == []
  {
    var n := s.submitted;
    assert UpTo(n + 1) == UpTo(n) + [n];
    match Choice(s.workers) {
      case Some(k) =>
        assert Free(s.workers[k]) && !Busy(s.workers[k]);
        assert s.overflow == [];
        assert (s.dispatched + [n]) + [] == (s.dispatched + []) + [n];
      case None =>
        assert s.dispatched + (s.overflow + [n]) == (s.dispatched + s.overflow) + [n];
    }
  }

  lemma FinishInv(s: State, w: nat)
    requires Inv(s) && Enabled(s, Finish(w))
    ensures Inv(Completion(s, w))
  {
    if s.overflow != [] {
      assert (s.dispatched + [s.overflow[0]]) + s.overflow[1..] == s.dispatched + s.overflow;
    }
  }

  lemma StepInv(s: State, e: Event)
    requires Inv(s) && Enabled(s, e)
    ensures Inv(Apply(s, e)) && |Apply(s, e).workers| == |s.workers|
  {
    match e
    case Submit => SubmitInv(s);
    case Finish(w) => FinishInv(s, w);
    case _ =>
  }

  lemma {:induction false} RunInv(s: State, es: seq<Event>, t: State)
    requires Inv(s) && Run(s, es, t)
    ensures Inv(t) && |t.workers| == |s.workers|
    decreases |es|
  {
    if es != [] {
      StepInv(s, es[0]);
      RunInv(Apply(s, es[0]), es[1..], t);
    }
  }

  lemma InitialInv(n: nat)
    ensures Inv(Initial(n))
  {
    assert UpTo(0) == [];
  }

  // ---- every task at most once

  ghost function TaskOf(w: Worker): multiset<nat> {
    if w.task.Some? then multiset{w.task.value} else multiset{}
  }

  ghost function ExecutingOf(w: Worker): multiset<nat> {
    if w.task.Some? && w.executing then multiset{w.task.value} else multiset{}
  }

  ghost function Slots(of: Worker -> multiset<nat>, workers: seq<Worker>): multiset<nat> {
    if workers == [] then multiset{}
    else Slots(of, workers[..|workers| - 1]) + of(workers[|workers| - 1])
  }

  /** Replacing one slot replaces its contribution. */
  lemma {:induction false} SlotUpdate(of: Worker -> multiset<nat>, workers: seq<Worker>, k: nat, w: Worker)
    requires k < |workers|
    ensures Slots(of, workers[k := w]) + of(workers[k]) == Slots(of, workers) + of(w)
    decreases |workers|
  {
    var last := |workers| - 1;
    if k == last {
      assert workers[k := w][..last] == workers[..last];
    } else {
      SlotUpdate(of, workers[..last], k, w);
      assert workers[k := w][..last] == workers[..last][k := w];
      AddBoth(Slots(of, workers[..last][k := w]), of(workers[k]), Slots(of, workers[..last]), of(w), of(workers[last]));
    }
  }

  lemma AddBoth(x: multiset<nat>, a: multiset<nat>, y: multiset<nat>, b: multiset<nat>, l: multiset<nat>)
    requires x + a == y + b
    ensures (x + l) + a == (y + l) + b
  {
    assert (x + l) + a == (x + a) + l;
    assert (y + l) + b == (y + b) + l;
  }

  /** `a` leaves the slots for `f`, `b` enters them. */
  lemma Rebalance(d: multiset<nat>, f: multiset<nat>, x: multiset<nat>, y: multiset<nat>, a: multiset<nat>, b: multiset<nat>)
    requires d == f + x && y + a == x + b
    ensures d + b == (f + a) + y
  {
    assert d + b == f + (x + b);
    assert (f + a) + y == f + (y + a);
  }

  lemma Cancel(d: multiset<nat>, e: multiset<nat>, a: multiset<nat>)
    requires d + a == e + a
    ensures d == e
  {
    forall x ensures d[x] == e[x] {
      assert (d + a)[x] == d[x] + a[x] && (e + a)[x] == e[x] + a[x];
    }
  }

  lemma SlotsUpdate(workers: seq<Worker>, k: nat, w: Worker)
    requires k < |workers|
    ensures Slots(TaskOf, workers[k := w]) + TaskOf(workers[k]) == Slots(TaskOf, workers) + TaskOf(w)
    ensures Slots(ExecutingOf, workers[k := w]) + ExecutingOf(workers[k]) == Slots(ExecutingOf, workers) + ExecutingOf(w)
  {
    SlotUpdate(TaskOf, workers, k, w);
    SlotUpdate(ExecutingOf, workers, k, w);
  }

  ghost predicate Accounted(s: State) {
    && multiset(s.dispatched) == multiset(s.finished) + Slots(TaskOf, s.workers)
    && multiset(s.begun) == multiset(s.finished) + Slots(ExecutingOf, s.workers)
  }

  /** One slot changes from `v` to `w`; `f` more tasks are finished, `d` dispatched, `g` begun. */
  lemma SlotAccounted(s: State, k: nat, w: Worker, t: State, f: multiset<nat>, d: multiset<nat>, g: multiset<nat>)
    requires Accounted(s) && k < |s.workers| && t.workers == s.workers[k := w]
    requires multiset(t.finished) == multiset(s.finished) + f
    requires multiset(t.dispatched) == multiset(s.dispatched) + d
    requires multiset(t.begun) == multiset(s.begun) + g
    requires TaskOf(w) + f == TaskOf(s.workers[k]) + d
    requires ExecutingOf(w) + f == ExecutingOf(s.workers[k]) + g
    ensures Accounted(t)
  {
    SlotsUpdate(s.workers, k, w);
    Moved(multiset(s.dispatched), multiset(s.finished), Slots(TaskOf, s.workers), Slots(TaskOf, t.workers),
          TaskOf(s.workers[k]), TaskOf(w), f, d);
    Moved(multiset(s.begun), multiset(s.finished), Slots(ExecutingOf, s.workers), Slots(ExecutingOf, t.workers),
          ExecutingOf(s.workers[k]), ExecutingOf(w), f, g);
  }

  lemma Moved(d: multiset<nat>, f: multiset<nat>, x: multiset<nat>, y: multiset<nat>, v: multiset<nat>, w: multiset<nat>,
              df: multiset<nat>, dd: multiset<nat>)
    requires d == f + x && y + v == x + w && w + df == v + dd
    ensures d + dd == (f + df) + y
  {
    Rebalance(d, f, x, y, v, w);
    assert (d + dd) + v == d + (v + dd);
    assert ((f + df) + y) + v == ((f + v) + y) + df;
    assert d + (w + df) == (d + w) + df;
    Cancel(d + dd, (f + df) + y, v);
  }

  lemma SubmitAccounted(s: State)
    requires Inv(s) && Accounted(s)
    ensures Accounted(Submission(s))
  {
    SubmitInv(s);
    if Choice(s.workers).Some? {
      var k := Choice(s.workers).value;
      assert !s.workers[k].executing;
      SlotAccounted(s, k, Worker(true, Some(s.submitted), false), Submission(s), multiset{}, multiset{s.submitted}, multiset{});
    }
  }

  lemma FinishAccounted(s: State, w: nat)
    requires Inv(s) && Accounted(s) && Enabled(s, Finish(w))
    ensures Accounted(Completion(s, w))
  {
    var t := Completion(s, w);
    SlotAccounted(s, w, t.workers[w], t, multiset{s.workers[w].task.value},
                  if s.overflow != [] then multiset{s.overflow[0]} else multiset{}, multiset{});
  }

  lemma BeginAccounted(s: State, w: nat)
    requires Accounted(s) && Enabled(s, Begin(w))
    ensures Accounted(Apply(s, Begin(w)))
  {
    SlotAccounted(s, w, s.workers[w].(executing := true), Apply(s, Begin(w)), multiset{}, multiset{},
                  multiset{s.workers[w].task.value});
  }

  lemma IdleAccounted(s: State, w: nat)
    requires Inv(s) && Accounted(s) && Enabled(s, IdleTimeout(w))
    ensures Accounted(Apply(s, IdleTimeout(w)))
  {
    if s.workers[w].task.None? {
      SlotAccounted(s, w, STOPPED, Apply(s, IdleTimeout(w)), multiset{}, multiset{}, multiset{});
    }
  }

  lemma StepAccounted(s: State, e: Event)
    requires Inv(s) && Accounted(s) && Enabled(s, e)
    ensures Accounted(Apply(s, e))
  {
    match e
    case Submit => SubmitAccounted(s);
    case Begin(w) => BeginAccounted(s, w);
    case Finish(w) => FinishAccounted(s, w);
    case IdleTimeout(w) => IdleAccounted(s, w);
  }

  lemma {:induction false} RunAccounted(s: State, es: seq<Event>, t: State)
    requires Inv(s) && Accounted(s) && Run(s, es, t)
    ensures Accounted(t)
    decreases |es|
  {
    if es != [] {
      StepAccounted(s, es[0]);
      StepInv(s, es[0]);
      RunAccounted(Apply(s, es[0]), es[1..], t);
    }
  }

  lemma {:induction false} StoppedSlots(workers: seq<Worker>)
    requires forall i :: 0 <= i < |workers| ==> workers[i] == STOPPED
    ensures Slots(TaskOf, workers) == multiset{} && Slots(ExecutingOf, workers) == multiset{}
    decreases |workers|
  {
    if workers != [] { StoppedSlots(workers[..|workers| - 1]); }
  }

  lemma {:induction false} UpToDistinct(n: nat)
    ensures forall x :: multiset(UpTo(n))[x] <= 1
  {
    if n > 0 {
      UpToDistinct(n - 1);
      assert UpTo(n) == UpTo(n - 1) + [n - 1];
      assert n - 1 !in UpTo(n - 1);
    }
  }

  /**
   Main result. Until the scheduler quits, tasks get workers in submission order (dispatched
   followed by overflow is the submission sequence), a task waits in the overflow only while
   every worker is running and busy, and every task is dispatched, begun and finished at most
   once, in that order.
   */
  lemma TasksRunInOrderAtMostOnce(nbThreads: nat, es: seq<Event>, t: State)
    requires Run(Initial(nbThreads), es, t)
    ensures t.dispatched + t.overflow == UpTo(t.submitted)
    ensures t.overflow != [] ==> forall i :: 0 <= i < |t.workers| ==> Busy(t.workers[i])
    ensures Distinct(t.dispatched) && Distinct(t.begun) && Distinct(t.finished)
    ensures multiset(t.finished) <= multiset(t.begun) <= multiset(t.dispatched)
  {
    var s := Initial(nbThreads);
    InitialInv(nbThreads);
    StoppedSlots(s.workers);
    RunInv(s, es, t);
    RunAccounted(s, es, t);
    AtMostOnce(t);
  }

  lemma {:induction false} ExecutingWithin(workers: seq<Worker>)
    ensures Slots(ExecutingOf, workers) <= Slots(TaskOf, workers)
    decreases |workers|
  {
    if workers != [] { ExecutingWithin(workers[..|workers| - 1]); }
  }

  lemma AtMostOnce(t: State)
    requires Inv(t) && Accounted(t)
    ensures Distinct(t.dispatched) && Distinct(t.begun) && Distinct(t.finished)
    ensures multiset(t.finished) <= multiset(t.begun) <= multiset(t.dispatched)
  {
    UpToDistinct(t.submitted);
    ExecutingWithin(t.workers);
    var all := t.dispatched + t.overflow;
    assert forall x :: multiset(t.dispatched)[x] <= multiset(all)[x] <= 1;
    assert forall x :: multiset(t.finished)[x] <= multiset(t.begun)[x] <= multiset(t.dispatched)[x] <= 1;
    DistinctMultiset(t.dispatched);
    DistinctMultiset(t.begun);
    DistinctMultiset(t.finished);
  }

  /** An idle timeout never takes a task with it, and an assignment never overwrites one. */
  lemma NoTaskDroppedOrOverwritten(s: State, e: Event)
    requires Inv(s) && Enabled(s, e)
    ensures forall i :: 0 <= i < |s.workers| && s.workers[i].task.Some? && e != Finish(i) ==>
                          Apply(s, e).workers[i].task == s.workers[i].task
  {
    if e.Submit? { SubmitInv(s); }
  }

  // ---- counts

  ghost function Submits(es: seq<Event>): nat {
    if es == [] then 0 else (if es[0].Submit? then 1 else 0) + Submits(es[1..])
  }

  ghost function Begins(es: seq<Event>): nat {
    if es == [] then 0 else (if es[0].Begin? then 1 else 0) + Begins(es[1..])
  }

  ghost function Finishes(es: seq<Event>): nat {
    if es == [] then 0 else (if es[0].Finish? then 1 else 0) + Finishes(es[1..])
  }

  lemma {:induction false} RunCounts(s: State, es: seq<Event>, t: State)
    requires Run(s, es, t)
    ensures t.submitted == s.submitted + Submits(es)
    ensures |t.begun| == |s.begun| + Begins(es) && |t.finished| == |s.finished| + Finishes(es)
    decreases |es|
  {
    if es != [] { RunCounts(Apply(s, es[0]), es[1..], t); }
  }

  /** No call of run_task is forgotten: tasks dispatched or waiting, begun and finished are as many as the events say. */
  lemma NoneForgotten(nbThreads: nat, es: seq<Event>, t: State)
    requires Run(Initial(nbThreads), es, t)
    ensures |t.dispatched| + |t.overflow| == Submits(es) && |t.begun| == Begins(es) && |t.finished| == Finishes(es)
  {
    TasksRunInOrderAtMostOnce(nbThreads, es, t);
    RunCounts(Initial(nbThreads), es, t);
  }

  /** The tasks that workers begin and finish, in the order of those events. */
  ghost function BegunIn(s: State, es: seq<Event>): seq<nat>
    decreases |es|
  {
    if es == [] || !Enabled(s, es[0]) then []
    else (if es[0].Begin? then [s.workers[es[0].w].task.value] else []) + BegunIn(Apply(s, es[0]), es[1..])
  }

  ghost function FinishedIn(s: State, es: seq<Event>): seq<nat>
    decreases |es|
  {
    if es == [] || !Enabled(s, es[0]) then []
    else (if es[0].Finish? then [s.workers[es[0].w].task.value] else []) + FinishedIn(Apply(s, es[0]), es[1..])
  }

  lemma {:induction false} RunHistories(s: State, es: seq<Event>, t: State)
    requires Run(s, es, t)
    ensures t.begun == s.begun + BegunIn(s, es) && t.finished == s.finished + FinishedIn(s, es)
    decreases |es|
  {
    if es != [] {
      var e, m := es[0], Apply(s, es[0]);
      RunHistories(m, es[1..], t);
      Reassociate(s.begun, if e.Begin? then [s.workers[e.w].task.value] else [], BegunIn(m, es[1..]));
      Reassociate(s.finished, if e.Finish? then [s.workers[e.w].task.value] else [], FinishedIn(m, es[1..]));
    }
  }

  /** What runs is what workers were given: tasks begun and finished are those of the events, in their order. */
  lemma HistoriesExactly(nbThreads: nat, es: seq<Event>, t: State)
    requires Run(Initial(nbThreads), es, t)
    ensures t.begun == BegunIn(Initial(nbThreads), es) && t.finished == FinishedIn(Initial(nbThreads), es)
  {
    RunHistories(Initial(nbThreads), es, t);
  }

  // ---- the object

  class BackgroundScheduler {
    var workers: seq<Worker>
    var overflow: seq<nat>
    ghost var st: State

    ghost predicate Valid()
      reads this
    {
      workers == st.workers && overflow == st.overflow && Inv(st)
    }

    constructor (maxThreads: nat, hardware: nat)
      ensures Valid() && st == Initial(if maxThreads == 0 then (if hardware > 1 then hardware else 1) else maxThreads)
      ensures |workers| > 0
    {
      var n := if maxThreads == 0 then (if hardware > 1 then hardware else 1) else maxThreads;
      workers := seq(n, _ => STOPPED);
      overflow := [];
      st := Initial(n);
      InitialInv(n);
    }

    method RunTask(task: nat)
      requires Valid() && task == st.submitted
      modifies this
      ensures Valid() && st == Apply(old(st), Submit)
      ensures overflow == old(overflow) ||
              (overflow == old(overflow) + [task] && workers == old(workers) && forall i :: 0 <= i < |workers| ==> Busy(workers[i]))
      ensures overflow == old(overflow) ==>
                exists k: nat, started: bool :: Chosen(old(workers), Some(k), started) && workers == old(workers)[k := Worker(true, Some(task), false)]
    {
      var available, started := FindAvailableThread(workers);
      ChoiceIsChosen(workers, available, started);
      SubmitInv(st);
      st := Apply(st, Submit);
      if available.Some? {
        if !started { workers := workers[available.value := Worker(true, None, false)]; }
        workers := workers[available.value := Worker(workers[available.value].running, Some(task), false)];
      } else {
        overflow := overflow + [task];
      }
    }

    /** The end of a task in run_work_thread. */
    method FinishTask(w: nat)
      requires Valid() && Enabled(st, Finish(w))
      modifies this
      ensures Valid() && st == Apply(old(st), Finish(w))
      ensures workers == old(workers)[w := Worker(true, if old(overflow) == [] then None else Some(old(overflow)[0]), false)]
      ensures overflow == if old(overflow) == [] then [] else old(overflow)[1..]
    {
      StepInv(st, Finish(w));
      st := Apply(st, Finish(w));
      if overflow != [] {
        workers := workers[w := Worker(true, Some(overflow[0]), false)];
        overflow := overflow[1..];
      } else {
        workers := workers[w := Worker(true, None, false)];
      }
    }

    /** The wait of run_work_thread ends because of the idle time. */
    method EndWait(w: nat) returns (stop: bool)
      requires Valid() && Enabled(st, IdleTimeout(w))
      modifies this
      ensures Valid() && st == Apply(old(st), IdleTimeout(w)) && stop == !st.workers[w].running
      ensures (stop <==> old(workers)[w].task.None?) && overflow == old(overflow)
      ensures workers == if stop then old(workers)[w := Worker(false, None, false)] else old(workers)
    {
      StepInv(st, IdleTimeout(w));
      st := Apply(st, IdleTimeout(w));
      var timeout := workers[w].task.None?;
      stop := timeout;
      if stop { workers := workers[w := STOPPED]; }
    }
  }
}
