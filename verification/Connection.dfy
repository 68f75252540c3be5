/**
 The queues of Connection. Every callback runs on the strand, so one callback is one step;
 promises completed and bytes given to the socket are kept as histories.
 */
module Connection {
  import opened Prelude
  import opened Wire
  import ReadChain
  import Commands
  import CommandReader

  type Buffer = seq<byte>

  // ---- outbox

  datatype Outbox = Outbox(
    queue: seq<Buffer>,
    writes: seq<nat>,        // async_write operations not yet completed, with the nb_buffers each has captured
    enqueued: seq<Buffer>,
    submitted: seq<Buffer>,  // buffers given to the socket
    completed: seq<Buffer>,  // buffers whose promise has been completed
    outcomes: seq<bool>)     // with success or failure

  datatype OutEvent = Enqueue(buffer: Buffer) | Complete(i: nat, ok: bool)

  const EMPTY_OUTBOX := Outbox([], [], [], [], [], [])

  function SendOutbox(s: Outbox): Outbox {
    s.(writes := s.writes + [|s.queue|], submitted := s.submitted + s.queue)
  }

  function EnqueueStep(s: Outbox, buffer: Buffer): Outbox {
    var t := s.(queue := s.queue + [buffer], enqueued := s.enqueued + [buffer]);
    if |t.queue| == 1 then SendOutbox(t) else t
  }

  function Repeat(ok: bool, n: nat): (r: seq<bool>)
    ensures |r| == n
  {
    seq(n, _ => ok)
  }

  /** The pops of one completion; OneWriteInFlight shows that the queue always has `n` entries. */
  function PopFront(s: Outbox, n: nat, ok: bool): Outbox {
    var k := if n <= |s.queue| then n else |s.queue|;
    s.(queue := s.queue[k..], completed := s.completed + s.queue[..k], outcomes := s.outcomes + Repeat(ok, k))
  }

  function CompleteStep(s: Outbox, i: nat, ok: bool): Outbox
    requires i < |s.writes|
  {
    var t := PopFront(s.(writes := RemoveAt(s.writes, i)), s.writes[i], ok);
    if t.queue != [] then SendOutbox(t) else t
  }

  predicate OutEnabled(s: Outbox, e: OutEvent) {
    e.Complete? ==> e.i < |s.writes|
  }

  function OutApply(s: Outbox, e: OutEvent): Outbox
    requires OutEnabled(s, e)
  {
    match e
    case Enqueue(buffer) => EnqueueStep(s, buffer)
    case Complete(i, ok) => CompleteStep(s, i, ok)
  }

  ghost predicate OutRun(s: Outbox, es: seq<OutEvent>, t: Outbox)
    decreases |es|
  {
    if es == [] then s == t
    else OutEnabled(s, es[0]) && OutRun(OutApply(s, es[0]), es[1..], t)
  }

  /** Number of queued buffers the socket is working on. */
  function InFlight(s: Outbox): nat {
    if s.writes == [] then 0 else s.writes[0]
  }

  ghost predicate OutInv(s: Outbox) {
    && |s.writes| == (if s.queue == [] then 0 else 1)
    && (s.queue != [] ==> 1 <= InFlight(s))
    && InFlight(s) <= |s.queue|
    && s.enqueued == s.completed + s.queue
    && s.submitted == s.completed + s.queue[..InFlight(s)]
    && |s.outcomes| == |s.completed|
  }

  lemma EnqueueInv(s: Outbox, buffer: Buffer)
    requires OutInv(s)
    ensures OutInv(EnqueueStep(s, buffer))
  {
    var t := EnqueueStep(s, buffer);
    assert s.completed + (s.queue + [buffer]) == (s.completed + s.queue) + [buffer];
    assert t.queue[..InFlight(t)] == if s.queue == [] then [buffer] else s.queue[..InFlight(s)];
  }

  lemma CompleteInv(s: Outbox, i: nat, ok: bool)
    requires OutInv(s) && i < |s.writes|
    ensures OutInv(CompleteStep(s, i, ok))
    ensures CompleteStep(s, i, ok).completed == s.submitted
  {
    var n, t := InFlight(s), CompleteStep(s, i, ok);
    assert RemoveAt(s.writes, i) == [];
    assert s.completed + s.queue == (s.completed + s.queue[..n]) + s.queue[n..];
    assert t.queue[..InFlight(t)] == s.queue[n..];
  }

  lemma {:induction false} OutRunInv(s: Outbox, es: seq<OutEvent>, t: Outbox)
    requires OutInv(s) && OutRun(s, es, t)
    ensures OutInv(t)
    decreases |es|
  {
    if es != [] {
      match es[0] {
        case Enqueue(buffer) => EnqueueInv(s, buffer);
        case Complete(i, ok) => CompleteInv(s, i, ok);
      }
      OutRunInv(OutApply(s, es[0]), es[1..], t);
    }
  }

  /**
   Main result. In every state a run reaches: at most one write is in flight, one is exactly
   when the queue is not empty, and it covers a non-empty prefix of the queue; promises are
   completed once each in the order of the writes; and the socket gets every buffer once, in
   that order.
   */
  lemma OneWriteInFlight(es: seq<OutEvent>, t: Outbox)
    requires OutRun(EMPTY_OUTBOX, es, t)
    ensures |t.writes| <= 1 && (t.writes == [] <==> t.queue == [])
    ensures forall w :: w in t.writes ==> 1 <= w <= |t.queue|
    ensures t.completed + t.queue == t.enqueued && |t.outcomes| == |t.completed|
    ensures t.completed <= t.submitted <= t.enqueued
    ensures |t.submitted| == |t.completed| + InFlight(t)
  {
    OutRunInv(EMPTY_OUTBOX, es, t);
  }

  /** The outcome that entry `k` of the writes gets: that of the completion during which it is done. */
  ghost function OutcomeOf(s: Outbox, es: seq<OutEvent>, k: nat): Option<bool>
    decreases |es|
  {
    if es == [] || !OutEnabled(s, es[0]) then None
    else if es[0].Complete? && |s.completed| <= k < |OutApply(s, es[0]).completed| then Some(es[0].ok)
    else OutcomeOf(OutApply(s, es[0]), es[1..], k)
  }

  /** A completion gives its own outcome to every entry its write covered, and touches no other. */
  lemma CompleteOutcomes(s: Outbox, i: nat, ok: bool)
    requires OutInv(s) && i < |s.writes|
    ensures var t := CompleteStep(s, i, ok);
            && t.completed == s.submitted && s.outcomes <= t.outcomes && |t.outcomes| == |t.completed|
            && forall k :: |s.completed| <= k < |t.completed| ==> t.outcomes[k] == ok
  {
    CompleteInv(s, i, ok);
  }

  lemma StepOutcomes(s: Outbox, e: OutEvent)
    requires OutInv(s) && OutEnabled(s, e)
    ensures OutInv(OutApply(s, e)) && s.completed <= OutApply(s, e).completed && s.outcomes <= OutApply(s, e).outcomes
    ensures e.Enqueue? ==> OutApply(s, e).outcomes == s.outcomes && OutApply(s, e).completed == s.completed
    ensures e.Complete? ==> forall k :: |s.completed| <= k < |OutApply(s, e).completed| ==> OutApply(s, e).outcomes[k] == e.ok
  {
    match e
    case Enqueue(buffer) => EnqueueInv(s, buffer);
    case Complete(i, ok) =>
      CompleteInv(s, i, ok);
      CompleteOutcomes(s, i, ok);
  }

  lemma {:induction false} RunOutcomes(s: Outbox, es: seq<OutEvent>, t: Outbox, k: nat)
    requires OutInv(s) && OutRun(s, es, t) && k < |t.completed|
    ensures OutInv(t) && s.outcomes <= t.outcomes
    ensures |s.completed| <= k ==> OutcomeOf(s, es, k) == Some(t.outcomes[k])
    decreases |es|
  {
    OutRunInv(s, es, t);
    if es != [] {
      StepOutcomes(s, es[0]);
      RunOutcomes(OutApply(s, es[0]), es[1..], t, k);
    }
  }

  /**
   Main result. The promise of the k-th write is completed with the outcome of the socket
   operation that covered it, success or failure, and never again.
   */
  lemma OutcomesExactly(es: seq<OutEvent>, t: Outbox, k: nat)
    requires OutRun(EMPTY_OUTBOX, es, t) && k < |t.completed|
    ensures |t.outcomes| == |t.completed| <= |t.enqueued| && t.completed[k] == t.enqueued[k]
    ensures OutcomeOf(EMPTY_OUTBOX, es, k) == Some(t.outcomes[k])
  {
    RunOutcomes(EMPTY_OUTBOX, es, t, k);
  }

  lemma {:induction false} FlattenPrefix(xs: seq<Buffer>, ys: seq<Buffer>)
    requires xs <= ys
    ensures Flatten(xs) <= Flatten(ys)
  {
    assert ys == xs + ys[|xs|..];
    FlattenAppend(xs, ys[|xs|..]);
  }

  /**
   Main result. Put together with the framing: if the buffers written are those send_frame
   makes of `fs`, then whatever part of the submitted bytes has reached the peer, it holds
   the first frames of `fs`, in order, and understands each.
   */
  lemma PeerUnderstandsInOrder(
    es: seq<OutEvent>, t: Outbox, limit: nat, fs: seq<Commands.Frame>, received: seq<byte>)
    requires OutRun(EMPTY_OUTBOX, es, t) && |fs| == |t.enqueued|
    requires forall i :: 0 <= i < |fs| ==> ReadChain.SendFrame(limit, fs[i]) == Some(t.enqueued[i])
    requires received <= Flatten(t.submitted)
    ensures |ReadChain.Parse(received).frames| <= |fs|
    ensures forall i :: 0 <= i < |ReadChain.Parse(received).frames| ==>
                          CommandReader.ReadFrame(ReadChain.Parse(received).frames[i]) == Some(fs[i])
  {
    OneWriteInFlight(es, t);
    FlattenPrefix(t.submitted, t.enqueued);
    ReadChain.StreamIsUnderstood(limit, fs, t.enqueued, received);
  }

  // ---- inbox

  /**
   The read chain ends with an error of the socket, or with the exception of a buffer that
   cannot be resized. That one leaves the callback and so the thread that runs the io_context:
   with the default context nothing catches it and the process ends; with a context of the
   application's own, run again after the exception, the chain is not resumed.
   */
  datatype Chain = Unconnected | Reading | Ended

  datatype Answer = Frame(frame: Buffer) | Concurrent | Failed

  /** What had arrived and what had been handed out when a read was told of the failure. */
  datatype Report = Report(arrived: seq<Buffer>, handed: seq<Buffer>)

  datatype Inbox = Inbox(
    inbox: seq<Buffer>,
    pending: Option<nat>,    // the reader whose promise m_pending_read is
    failed: bool,
    chain: Chain,
    arrived: seq<Buffer>,
    handed: seq<Buffer>,     // frames given to readers
    asked: multiset<nat>,    // readers that have called
    answered: multiset<nat>, // readers whose promise is completed
    answers: seq<Answer>,
    reports: seq<Report>)    // one for each Failed

  datatype InEvent = Connect | Read(reader: nat) | Arrive(frame: Buffer) | Fail | Stall

  const NEW_INBOX := Inbox([], None, true, Unconnected, [], [], multiset{}, multiset{}, [], [])

  function Respond(s: Inbox, reader: nat, a: Answer): Inbox {
    s.(answers := s.answers + [a], answered := s.answered + multiset{reader},
       handed := if a.Frame? then s.handed + [a.frame] else s.handed,
       reports := if a.Failed? then s.reports + [Report(s.arrived, s.handed)] else s.reports)
  }

  function ReadStep(s: Inbox, reader: nat): Inbox {
    var t := s.(asked := s.asked + multiset{reader});
    if s.pending.Some? then Respond(t, reader, Concurrent)
    else if s.inbox != [] then Respond(t.(inbox := s.inbox[1..]), reader, Frame(s.inbox[0]))
    else if s.failed then Respond(t, reader, Failed)
    else t.(pending := Some(reader))
  }

  function ArriveStep(s: Inbox, frame: Buffer): Inbox {
    var t := s.(arrived := s.arrived + [frame]);
    if s.pending.Some? then Respond(t.(pending := None), s.pending.value, Frame(frame))
    else t.(inbox := s.inbox + [frame])
  }

  function FailStep(s: Inbox): Inbox {
    var t := s.(chain := Ended, failed := true);
    if s.pending.Some? then Respond(t.(pending := None), s.pending.value, Failed) else t
  }

  predicate InEnabled(s: Inbox, e: InEvent) {
    match e
    case Connect => s.chain.Unconnected?
    case Read(_) => true
    case Arrive(_) => s.chain.Reading?
    case Fail => s.chain.Reading?
    case Stall => s.chain.Reading?
  }

  function InApply(s: Inbox, e: InEvent): Inbox
    requires InEnabled(s, e)
  {
    match e
    case Connect => s.(failed := false, chain := Reading)
    case Read(reader) => ReadStep(s, reader)
    case Arrive(frame) => ArriveStep(s, frame)
    case Fail => FailStep(s)
    case Stall => s.(chain := Ended)
  }

  ghost predicate InRun(s: Inbox, es: seq<InEvent>, t: Inbox)
    decreases |es|
  {
    if es == [] then s == t
    else InEnabled(s, es[0]) && InRun(InApply(s, es[0]), es[1..], t)
  }

  function Waiting(s: Inbox): multiset<nat> {
    if s.pending.Some? then multiset{s.pending.value} else multiset{}
  }

  ghost predicate InInv(s: Inbox) {
    && s.handed + s.inbox == s.arrived
    && (s.pending.Some? ==> s.inbox == [] && !s.failed)
    && s.asked == s.answered + Waiting(s)
    && (s.chain.Unconnected? ==> s.failed && s.arrived == [])
    && (s.chain.Reading? ==> !s.failed)
    && (forall r :: r in s.reports ==> r.arrived == r.handed)
  }

  lemma ReadInv(s: Inbox, reader: nat)
    requires InInv(s)
    ensures InInv(ReadStep(s, reader))
  {
    if s.pending.None? && s.inbox != [] {
      assert s.handed + s.inbox == (s.handed + [s.inbox[0]]) + s.inbox[1..];
    }
  }

  lemma ArriveInv(s: Inbox, frame: Buffer)
    requires InInv(s) && s.chain.Reading?
    ensures InInv(ArriveStep(s, frame))
  {
    assert s.handed + (s.inbox + [frame]) == (s.handed + s.inbox) + [frame];
    if s.pending.Some? {
      assert s.handed + [] == s.handed;
      assert (s.handed + [frame]) + [] == s.handed + [frame];
    }
  }

  lemma FailInv(s: Inbox)
    requires InInv(s) && s.chain.Reading?
    ensures InInv(FailStep(s))
  {
    if s.pending.Some? { assert s.handed + [] == s.handed; }
  }

  lemma StepInInv(s: Inbox, e: InEvent)
    requires InInv(s) && InEnabled(s, e)
    ensures InInv(InApply(s, e))
    ensures s.chain.Ended? ==> InApply(s, e).arrived == s.arrived && InApply(s, e).chain.Ended?
    ensures s.handed <= InApply(s, e).handed
  {
    match e
    case Connect =>
    case Read(reader) => ReadInv(s, reader);
    case Arrive(frame) => ArriveInv(s, frame);
    case Fail => FailInv(s);
    case Stall =>
  }

  lemma {:induction false} InRunInv(s: Inbox, es: seq<InEvent>, t: Inbox)
    requires InInv(s) && InRun(s, es, t)
    ensures InInv(t)
    ensures s.chain.Ended? ==> t.arrived == s.arrived
    ensures s.handed <= t.handed
    decreases |es|
  {
    if es != [] {
      StepInInv(s, es[0]);
      InRunInv(InApply(s, es[0]), es[1..], t);
    }
  }

  /**
   Main result. Frames are handed out in the order they arrived, none lost or repeated; each
   read is answered at most once and at most one waits; and a failure is only ever reported
   when every frame that has arrived has been handed out.
   */
  lemma NoFrameLostToAFailure(es: seq<InEvent>, t: Inbox)
    requires InRun(NEW_INBOX, es, t)
    ensures t.handed + t.inbox == t.arrived
    ensures t.asked == t.answered + Waiting(t)
    ensures t.pending.Some? ==> t.inbox == [] && !t.failed
    ensures forall r :: r in t.reports ==> r.arrived == r.handed
  {
    InRunInv(NEW_INBOX, es, t);
  }

  /** Once the chain has failed nothing arrives any more: a reported failure is the end of the stream. */
  lemma FailureIsFinal(es: seq<InEvent>, s: Inbox, later: seq<InEvent>, t: Inbox)
    requires InRun(NEW_INBOX, es, s) && s.chain.Ended? && s.inbox == []
    requires InRun(s, later, t)
    ensures t.handed == t.arrived == s.arrived && t.inbox == []
  {
    InRunInv(NEW_INBOX, es, s);
    InRunInv(s, later, t);
    assert |t.handed| + |t.inbox| == |t.arrived|;
    assert s.handed + [] == s.handed;
  }

  /**
   What an event tells readers: a second reader that its call is concurrent, else the oldest
   frame not handed out, else the failure; the waiting one the next frame or the failure.
   */
  ghost function AnswersBy(s: Inbox, e: InEvent): seq<Answer> {
    match e
    case Read(_) =>
      if s.pending.Some? then [Concurrent]
      else if |s.handed| < |s.arrived| then [Frame(s.arrived[|s.handed|])]
      else if s.failed then [Failed]
      else []
    case Arrive(frame) => if s.pending.Some? then [Frame(frame)] else []
    case Fail => if s.pending.Some? then [Failed] else []
    case _ => []
  }

  ghost function AnswersIn(s: Inbox, es: seq<InEvent>): seq<Answer>
    decreases |es|
  {
    if es == [] || !InEnabled(s, es[0]) then [] else AnswersBy(s, es[0]) + AnswersIn(InApply(s, es[0]), es[1..])
  }

  lemma ReadAnswers(s: Inbox, reader: nat)
    requires InInv(s)
    ensures ReadStep(s, reader).answers == s.answers + AnswersBy(s, Read(reader))
    ensures ReadStep(s, reader).pending == if AnswersBy(s, Read(reader)) == [] then Some(reader) else s.pending
  {
    assert |s.handed| + |s.inbox| == |s.arrived|;
    if s.inbox != [] { assert s.arrived[|s.handed|] == s.inbox[0]; }
  }

  lemma StepAnswers(s: Inbox, e: InEvent)
    requires InInv(s) && InEnabled(s, e)
    ensures InApply(s, e).answers == s.answers + AnswersBy(s, e)
    ensures e.Arrive? || e.Fail? ==> InApply(s, e).pending.None?
    ensures InApply(s, e).failed == if e.Connect? then false else if e.Fail? then true else s.failed
  {
    match e
    case Read(reader) => ReadAnswers(s, reader);
    case _ =>
  }

  lemma {:induction false} RunAnswers(s: Inbox, es: seq<InEvent>, t: Inbox)
    requires InInv(s) && InRun(s, es, t)
    ensures t.answers == s.answers + AnswersIn(s, es)
    decreases |es|
  {
    if es != [] {
      var m := InApply(s, es[0]);
      StepInInv(s, es[0]);
      StepAnswers(s, es[0]);
      RunAnswers(m, es[1..], t);
      Reassociate(s.answers, AnswersBy(s, es[0]), AnswersIn(m, es[1..]));
    }
  }

  /** Main result. In every run readers are told exactly what the events call for, in their order. */
  lemma AnswersExactly(es: seq<InEvent>, t: Inbox)
    requires InRun(NEW_INBOX, es, t)
    ensures t.answers == AnswersIn(NEW_INBOX, es)
  {
    RunAnswers(NEW_INBOX, es, t);
  }

  lemma ReadEffect(s: Inbox, reader: nat)
    ensures var t := ReadStep(s, reader);
            && t.failed == s.failed && t.arrived == s.arrived
            && t.inbox == (if s.pending.None? && s.inbox != [] then s.inbox[1..] else s.inbox)
            && t.pending == (if s.pending.None? && s.inbox == [] && !s.failed then Some(reader) else s.pending)
  {
  }

  ghost function Failures(answers: seq<Answer>): nat {
    if answers == [] then 0 else (if answers[|answers| - 1].Failed? then 1 else 0) + Failures(answers[..|answers| - 1])
  }

  lemma FailuresSnoc(answers: seq<Answer>, a: Answer)
    ensures Failures(answers + [a]) == Failures(answers) + if a.Failed? then 1 else 0
  {
    assert (answers + [a])[..|answers|] == answers;
  }

  ghost predicate Reported(s: Inbox) {
    |s.reports| == Failures(s.answers)
  }

  lemma RespondReported(s: Inbox, reader: nat, a: Answer)
    requires Reported(s)
    ensures Reported(Respond(s, reader, a))
  {
    FailuresSnoc(s.answers, a);
  }

  lemma ReadReported(s: Inbox, reader: nat)
    requires Reported(s)
    ensures Reported(ReadStep(s, reader))
  {
    var t := s.(asked := s.asked + multiset{reader});
    if s.pending.Some? {
      RespondReported(t, reader, Concurrent);
    } else if s.inbox != [] {
      RespondReported(t.(inbox := s.inbox[1..]), reader, Frame(s.inbox[0]));
    } else if s.failed {
      RespondReported(t, reader, Failed);
    }
  }

  lemma StepReported(s: Inbox, e: InEvent)
    requires Reported(s) && InEnabled(s, e)
    ensures Reported(InApply(s, e))
  {
    match e
    case Read(reader) => ReadReported(s, reader);
    case Arrive(frame) =>
      if s.pending.Some? {
        RespondReported(s.(arrived := s.arrived + [frame], pending := None), s.pending.value, Frame(frame));
      }
    case Fail =>
      if s.pending.Some? { RespondReported(s.(chain := Ended, failed := true, pending := None), s.pending.value, Failed); }
    case _ =>
  }

  lemma {:induction false} RunReports(s: Inbox, es: seq<InEvent>, t: Inbox)
    requires Reported(s) && InRun(s, es, t)
    ensures Reported(t)
    decreases |es|
  {
    if es != [] {
      StepReported(s, es[0]);
      RunReports(InApply(s, es[0]), es[1..], t);
    }
  }

  /** Each failure told to a reader is among those of which every arrived frame had been handed out. */
  lemma EveryFailureReported(es: seq<InEvent>, t: Inbox)
    requires InRun(NEW_INBOX, es, t)
    ensures |t.reports| == Failures(t.answers)
  {
    RunReports(NEW_INBOX, es, t);
  }

  /** After an error of the socket, or a length no buffer holds, no further frame arrives. */
  lemma EndOfChainIsFinal(es: seq<InEvent>, s: Inbox, e: InEvent, later: seq<InEvent>, t: Inbox)
    requires InRun(NEW_INBOX, es, s) && InEnabled(s, e) && (e.Fail? || e.Stall?)
    requires InRun(InApply(s, e), later, t)
    ensures t.arrived == s.arrived && t.handed <= s.arrived
  {
    InRunInv(NEW_INBOX, es, s);
    StepInInv(s, e);
    InRunInv(InApply(s, e), later, t);
  }

  // ---- the object

  /** The completion loop: one promise after the other, with the outcome of the operation, and its entry is popped. */
  method CompleteFront(queue: seq<Buffer>, nbBuffers: nat, ok: bool)
    returns (done: seq<Buffer>, outcomes: seq<bool>, rest: seq<Buffer>)
    requires nbBuffers <= |queue|
    ensures done == queue[..nbBuffers] && rest == queue[nbBuffers..]
    ensures |outcomes| == nbBuffers && forall k :: 0 <= k < nbBuffers ==> outcomes[k] == ok
  {
    var left := nbBuffers;
    done, outcomes, rest := [], [], queue;
    while left > 0
      invariant 0 <= left <= nbBuffers
      invariant rest == queue[nbBuffers - left..] && done == queue[..nbBuffers - left]
      invariant |outcomes| == nbBuffers - left && forall k :: 0 <= k < |outcomes| ==> outcomes[k] == ok
    {
      done, outcomes := done + [rest[0]], outcomes + [ok];
      rest := rest[1..];
      left := left - 1;
    }
  }

  class Connection {
    var outbox: seq<Buffer>
    var inbox: seq<Buffer>
    var pendingRead: Option<nat>
    var connectionFailed: bool
    ghost var sent: Outbox
    ghost var got: Inbox
    ghost var stream: seq<byte>  // every byte the read chain has taken from the socket

    ghost predicate ValidOut()
      reads this
    {
      outbox == sent.queue && OutInv(sent)
    }

    ghost predicate ValidIn()
      reads this
    {
      && inbox == got.inbox && pendingRead == got.pending && connectionFailed == got.failed
      && InInv(got) && got.arrived == ReadChain.Parse(stream).frames
    }

    constructor ()
      ensures ValidOut() && sent == EMPTY_OUTBOX
      ensures ValidIn() && got == NEW_INBOX && stream == []
    {
      outbox, inbox, pendingRead, connectionFailed := [], [], None, true;
      sent, got, stream := EMPTY_OUTBOX, NEW_INBOX, [];
    }

    /** write's callback; `send` tells whether it starts an async_write, over the whole queue. */
    method Write(buffer: Buffer) returns (send: Option<nat>)
      requires ValidOut()
      modifies this`outbox, this`sent
      ensures ValidOut() && sent == OutApply(old(sent), Enqueue(buffer))
      ensures outbox == old(outbox) + [buffer] && (send.Some? <==> old(outbox) == [])
      ensures sent.writes == old(sent).writes + (if send.Some? then [send.value] else [])
    {
      EnqueueInv(sent, buffer);
      sent := OutApply(sent, Enqueue(buffer));
      outbox := outbox + [buffer];
      send := if |outbox| == 1 then Some(|outbox|) else None;
    }

    /**
     The callback of an async_write over `nbBuffers` entries: it completes one promise after
     the other, then starts the next write if more has been queued meanwhile.
     */
    method WriteCompleted(nbBuffers: nat, ok: bool) returns (done: seq<Buffer>, outcomes: seq<bool>, send: Option<nat>)
      requires ValidOut() && sent.writes == [nbBuffers]
      modifies this`outbox, this`sent
      ensures ValidOut() && sent == OutApply(old(sent), Complete(0, ok))
      ensures sent.completed == old(sent).completed + done && |done| == nbBuffers && done == old(outbox)[..nbBuffers]
      ensures sent.outcomes == old(sent).outcomes + outcomes && |outcomes| == nbBuffers && forall k :: 0 <= k < nbBuffers ==> outcomes[k] == ok
      ensures outbox == old(outbox)[nbBuffers..]
      ensures sent.writes == if send.Some? then [send.value] else []
    {
      CompleteInv(sent, 0, ok);
      done, outcomes, outbox := CompleteFront(outbox, nbBuffers, ok);
      assert RemoveAt(sent.writes, 0) == [];
      assert outcomes == Repeat(ok, nbBuffers);
      sent := OutApply(sent, Complete(0, ok));
      send := if outbox != [] then Some(|outbox|) else None;
    }

    method Established()
      requires ValidIn() && got.chain.Unconnected?
      modifies this`connectionFailed, this`got
      ensures ValidIn() && got == InApply(old(got), Connect) && !connectionFailed
    {
      StepInInv(got, Connect);
      got := InApply(got, Connect);
      connectionFailed := false;
    }

    /** read's callback; no answer means that the promise is kept. */
    method PostRead(reader: nat) returns (answer: Option<Answer>)
      requires ValidIn()
      modifies this`inbox, this`pendingRead, this`got
      ensures ValidIn() && got == InApply(old(got), Read(reader))
      ensures got.answers == old(got).answers + (if answer.Some? then [answer.value] else [])
      ensures answer == if old(pendingRead).Some? then Some(Concurrent)
                        else if old(inbox) != [] then Some(Frame(old(inbox)[0]))
                        else if connectionFailed then Some(Failed) else None
      ensures pendingRead == if answer.None? then Some(reader) else old(pendingRead)
      ensures inbox == if old(pendingRead).None? && old(inbox) != [] then old(inbox)[1..] else old(inbox)
    {
      ghost var after := InApply(got, Read(reader));
      ReadInv(got, reader);
      ReadEffect(got, reader);
      got := after;
      if pendingRead.Some? { return Some(Concurrent); }
      if inbox != [] {
        answer := Some(Frame(inbox[0]));
        inbox := inbox[1..];
      } else if connectionFailed {
        answer := Some(Failed);
      } else {
        pendingRead := Some(reader);
        answer := None;
      }
    }

    /** The chain between its two reads holds the 4 bytes of a length; this is its second callback. */
    method PostToInbox(header: seq<byte>, payload: Buffer) returns (reader: Option<nat>)
      requires ValidIn() && got.chain.Reading? && ReadChain.Parse(stream).rest == []
      requires |header| == 4 && FromBigEndian(header) == |payload| && ReadChain.Holds(|payload|)
      modifies this`inbox, this`pendingRead, this`got, this`stream
      ensures ValidIn() && got == InApply(old(got), Arrive(payload))
      ensures stream == old(stream) + (header + payload) && ReadChain.Parse(stream).rest == []
      ensures reader == old(pendingRead) && pendingRead.None?
      ensures inbox == old(inbox) + if reader.None? then [payload] else []
    {
      ReadChain.OneFrameMore(stream, header, payload);
      StepInInv(got, Arrive(payload));
      stream := stream + (header + payload);
      got := InApply(got, Arrive(payload));
      reader := pendingRead;
      if pendingRead.Some? { pendingRead := None; } else { inbox := inbox + [payload]; }
    }

    /** Either callback of the chain with an error. */
    method ReadFailed() returns (reader: Option<nat>)
      requires ValidIn() && got.chain.Reading?
      modifies this`pendingRead, this`connectionFailed, this`got
      ensures ValidIn() && got == InApply(old(got), Fail)
      ensures reader == old(pendingRead) && pendingRead.None? && connectionFailed && inbox == old(inbox)
    {
      StepInInv(got, Fail);
      got := InApply(got, Fail);
      reader := pendingRead;
      pendingRead, connectionFailed := None, true;
    }
  }
}
