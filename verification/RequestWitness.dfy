/** A run of 2^32 requests after which one caller takes the promise of another. */
module RequestWitness {
  import opened Prelude
  import opened OutstandingRequests

  lemma RunCons(s: State, e: Event, es: seq<Event>, t: State)
    requires Named(s) && Enabled(s, e) && Run(Apply(s, e), es, t)
    ensures Run(s, [e] + es, t)
  {
    assert ([e] + es)[1..] == es;
  }

  lemma {:induction false} RunAppend(s: State, es: seq<Event>, m: State, fs: seq<Event>, t: State)
    requires Run(s, es, m) && Run(m, fs, t)
    ensures Run(s, es + fs, t)
    decreases |es|
  {
    if es == [] {
      assert es + fs == fs;
    } else {
      assert (es + fs)[1..] == es[1..] + fs;
      RunAppend(Apply(s, es[0]), es[1..], m, fs, t);
    }
  }

  function Numbers(n: nat): seq<Event> {
    seq(n, _ => Number)
  }

  /** `n` calls take an id each, and nothing else happens. */
  ghost predicate OnlyNumbered(s: State, n: nat, t: State) {
    && t.outstanding == s.outstanding && |t.calls| == |s.calls| + n && t.calls[..|s.calls|] == s.calls
    && t.sequence == (s.sequence + n) % U32
    && (n > 0 ==> t.calls[|t.calls| - 1] == Call(t.sequence, Numbered))
  }

  lemma NextOf(x: nat)
    ensures (x % U32 + 1) % U32 == (x + 1) % U32
  {
  }

  lemma {:induction false} NumberMany(s: State, n: nat) returns (t: State)
    requires Named(s) && s.sequence < U32
    ensures Run(s, Numbers(n), t) && OnlyNumbered(s, n, t) && Named(t)
    decreases n
  {
    if n == 0 {
      t := s;
      assert t.calls[..|s.calls|] == s.calls;
    } else {
      var m := NumberMany(s, n - 1);
      t := Apply(m, Number);
      NextOf(s.sequence + (n - 1));
      RunCons(m, Number, [], t);
      RunAppend(s, Numbers(n - 1), m, [Number] + [], t);
      assert Numbers(n - 1) + ([Number] + []) == Numbers(n);
      assert t.calls[..|s.calls|] == m.calls[..|s.calls|];
    }
  }

  /** The first request has been made and answered. */
  function FirstAnswered(): State {
    State(1, [Call(1, Done(Response(1)))], map[], [0])
  }

  lemma AnswerFirst() returns (es: seq<Event>)
    ensures Run(NO_REQUESTS, es, FirstAnswered())
  {
    var s1 := State(1, [Call(1, Numbered)], map[], []);
    var s2 := State(1, [Call(1, Waiting)], map[1 := 0], []);
    var t := FirstAnswered();
    assert Apply(NO_REQUESTS, Number) == s1;
    assert Apply(s1, Register(0)) == s2;
    assert Apply(s2, Respond(1)) == t;
    RunCons(s2, Respond(1), [], t);
    RunCons(s1, Register(0), [Respond(1)] + [], t);
    RunCons(NO_REQUESTS, Number, [Register(0)] + ([Respond(1)] + []), t);
    es := [Number] + ([Register(0)] + ([Respond(1)] + []));
  }

  lemma TakeTheIdAgain(s: State) returns (t: State)
    requires OnlyNumbered(FirstAnswered(), U32, s) && Named(s)
    ensures Run(s, [Register(U32)], t) && Named(t) && |t.calls| == U32 + 1
    ensures t.calls[0] == Call(1, Done(Response(1))) && t.calls[U32] == Call(1, Waiting) && t.outstanding == map[1 := U32]
  {
    assert s.calls[U32] == Call(1, Numbered);
    assert s.calls[0] == s.calls[..1][0];
    t := Apply(s, Register(U32));
    RunCons(s, Register(U32), [], t);
    assert [Register(U32)] + [] == [Register(U32)];
  }

  /**
   The first caller's wait has run out just as its answer came. Before it drops its id, the
   request numbered 2^32 takes the same one; the drop then erases that request's promise.
   */
  lemma WrappedIdTakesAnother() returns (es: seq<Event>, t: State)
    ensures Run(NO_REQUESTS, es, t) && Named(t) && |t.calls| == U32 + 1
    ensures t.calls[U32].phase.Waiting? && Enabled(t, GiveUp(0)) && Apply(t, GiveUp(0)).calls[U32].phase.Erased?
  {
    var es1 := AnswerFirst();
    var s := NumberMany(FirstAnswered(), U32);
    t := TakeTheIdAgain(s);
    RunAppend(NO_REQUESTS, es1, FirstAnswered(), Numbers(U32), s);
    RunAppend(NO_REQUESTS, es1 + Numbers(U32), s, [Register(U32)], t);
    es := (es1 + Numbers(U32)) + [Register(U32)];
  }
}
