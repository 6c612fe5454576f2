/**
 * Which calls of Manager.Download (pkg/downloader/manager.go) can come to be served a cancellation
 * that they did not ask for.
 */
module DownloadCancellations {
  import opened Wrappers
  import opened Downloads
  import opened Runs

  /** The last call out has still to cancel the download. */
  predicate Stirs(s: System, j: SubscriberId) {
    j in s.subs && (s.subs[j].Last? || s.subs[j].Cancelling?)
  }

  /** Once the counter came back to zero the download was started, and was cancelled or is about to be. */
  ghost predicate ZeroOk(s: System) {
    s.core.zero ==> s.core.started == 1 && (s.core.cancelled || exists j :: Stirs(s, j))
  }

  lemma ZeroStep(s: System, e: Step)
    requires Inv(s) && ZeroOk(s) && Next(s, e).Some?
    ensures ZeroOk(Next(s, e).value)
  {
    var t := Next(s, e).value;
    if !s.core.zero && t.core.zero {
      ZeroByCountOut(s, e);
      assert SubOk(s.core, s.subs[e.i]);
      assert Stirs(t, e.i);
    } else if s.core.zero && !s.core.cancelled {
      var j :| Stirs(s, j);
      assert t.core.cancelled || Stirs(t, j);
    }
  }

  lemma ReachedZeroOk(s: System)
    requires Reached(s)
    ensures Inv(s) && ZeroOk(s)
  {
    forall start | Starts(start)
      ensures Inv(start) && ZeroOk(start)
    {
      assert Inside(start.subs) == {};
    }
    forall t, e | Inv(t) && ZeroOk(t) && Next(t, e).Some?
      ensures Inv(Next(t, e).value) && ZeroOk(Next(t, e).value)
    {
      InvStep(t, e);
      ZeroStep(t, e);
    }
    Invariant(Next, Starts, t => Inv(t) && ZeroOk(t), s);
  }

  /** The context can be cancelled without touching a call that still waits. */
  lemma Cancels(r: System -> bool, s: System, i: SubscriberId) returns (t: System)
    requires Closed(Next, r) && r(s) && ZeroOk(s) && s.core.zero && i in s.subs && InTheSelect(s.subs[i])
    ensures r(t) && t.core == CancelSpec(s.core) && i in t.subs && t.subs[i] == s.subs[i]
  {
    t := s;
    if !s.core.cancelled {
      var j :| Stirs(s, j);
      if s.subs[j].Last? {
        t := Next(s, DeleteRef(j)).value;
        Then(Next, r, s, DeleteRef(j), t);
      }
      var u := t;
      t := Next(u, Cancel(j)).value;
      Then(Next, r, u, Cancel(j), t);
    }
  }

  /** A job that has not looked at the context, or found it done. */
  predicate Doomed(c: Core) {
    || (c.job in {Running, Returned, Timed} && c.cancelled)
    || (c.job in {Checked, Published, Ended} && c.result.err == ContextError)
  }

  /** The step that the job takes next. */
  function JobStep(c: Core): Step {
    match c.job
    case Running => JobReturns(0, NoError)
    case Returned => JobTimes(0)
    case Timed => JobChecks
    case _ => JobCloses
  }

  function Ahead(j: Job): nat {
    match j
    case Idle => 5
    case Running => 4
    case Returned => 3
    case Timed => 2
    case Checked => 1
    case _ => 0
  }

  /** A doomed job publishes the error of the context. */
  lemma {:induction false} PublishesContextError(r: System -> bool, s: System) returns (t: System)
    requires Closed(Next, r) && r(s) && Inv(s) && Doomed(s.core)
    ensures r(t) && t.subs == s.subs && t.core.closes >= 1 && t.core.result.err == ContextError
    decreases Ahead(s.core.job)
  {
    if s.core.job in {Published, Ended} {
      t := s;
    } else {
      var u := Next(s, JobStep(s.core)).value;
      Then(Next, r, s, JobStep(s.core), u);
      InvStep(s, JobStep(s.core));
      t := PublishesContextError(r, u);
    }
  }

  /** A call that still waits can be served what is published. */
  lemma IsServed(r: System -> bool, s: System, i: SubscriberId) returns (t: System)
    requires Closed(Next, r) && r(s) && Inv(s) && s.core.closes >= 1
    requires i in s.subs && InTheSelect(s.subs[i])
    ensures r(t) && WasServed(t, i) && t.subs[i].answer.triple == s.core.result
  {
    var u := s;
    if s.subs[i].Counted? {
      u := Next(s, Once(i)).value;
      Then(Next, r, s, Once(i), u);
    }
    t := Next(u, BeServed(i)).value;
    Then(Next, r, u, BeServed(i), t);
  }

  /** In some run from here the call is served a cancellation that it did not ask for. */
  ghost predicate CanBeCancelled(s: System, i: SubscriberId) {
    exists t :: Leads(Next, s, t) && WasServed(t, i) && t.subs[i].answer.triple.err == ContextError
  }

  predicate PastCheck(c: Core) {
    c.job in {Checked, Published, Ended}
  }

  lemma CanBeCancelledMeans(s: System, i: SubscriberId, t: System)
    requires Reached(s) && i in s.subs && InTheSelect(s.subs[i])
    requires Leads(Next, s, t) && WasServed(t, i) && t.subs[i].answer.triple.err == ContextError
    ensures s.core.zero && (!PastCheck(s.core) || s.core.result.err == ContextError)
  {
    var steps :| Run(Next, s, steps) == Some(t);
    ReachedInv(s);
    Always(s, steps, t);
    assert SubOk(t.core, t.subs[i]);
    if !s.core.zero {
      assert i in Inside(s.subs);
      SubscribersAreSpared(s, i, steps, t);
    }
  }

  lemma CanBeCancelledRun(s: System, i: SubscriberId)
    requires Reached(s) && i in s.subs && InTheSelect(s.subs[i])
    requires s.core.zero && (!PastCheck(s.core) || s.core.result.err == ContextError)
    ensures CanBeCancelled(s, i)
  {
    var r := (t: System) => Leads(Next, s, t);
    LeadsIsClosed(Next, s);
    LeadsToItself(Next, s);
    ReachedZeroOk(s);
    var t := Cancels(r, s, i);
    ReachableOn(Next, Starts, s, t);
    ReachedInv(t);
    var u := PublishesContextError(r, t);
    ReachableOn(Next, Starts, s, u);
    ReachedInv(u);
    var v := IsServed(r, u, i);
  }

  /**
   * A call that still waits can come to be served a cancellation, without having given up, exactly
   * when the counter has been back at zero and startDownload has not looked at the context yet, or
   * has looked and published its error.
   */
  lemma CanBeCancelledIff(s: System, i: SubscriberId)
    requires Reached(s) && i in s.subs && InTheSelect(s.subs[i])
    ensures CanBeCancelled(s, i) <==> s.core.zero && (!PastCheck(s.core) || s.core.result.err == ContextError)
  {
    if t :| Leads(Next, s, t) && WasServed(t, i) && t.subs[i].answer.triple.err == ContextError {
      CanBeCancelledMeans(s, i, t);
    }
    if s.core.zero && (!PastCheck(s.core) || s.core.result.err == ContextError) {
      CanBeCancelledRun(s, i);
    }
  }

  /** What does not matter to the outcome of a job. */
  predicate SameOutlook(s: System, t: System, i: SubscriberId) {
    && i in t.subs && t.subs[i].Arrived?
    && PastCheck(t.core) == PastCheck(s.core) && t.core.result == s.core.result
    && (s.core.zero ==> t.core.zero)
  }

  /** Another call gives up and counts itself out. */
  lemma Exits(r: System -> bool, s: System, j: SubscriberId, i: SubscriberId) returns (t: System)
    requires Closed(Next, r) && r(s) && Inv(s) && i in s.subs && s.subs[i].Arrived? && j in Inside(s.subs)
    ensures r(t) && Inv(t) && SameOutlook(s, t, i)
    ensures Inside(t.subs) == Inside(s.subs) - {j} && (Inside(t.subs) == {} ==> t.core.zero)
  {
    t := s;
    if t.subs[j].Counted? {
      t := Walks(r, t, Once(j), i);
    }
    if t.subs[j].Listening? {
      t := Walks(r, t, GiveUp(j), i);
    }
    var u := t;
    t := Next(u, CountOut(j)).value;
    Then(Next, r, u, CountOut(j), t);
    InvStep(u, CountOut(j));
    InsideMoves(u.subs, j, t.subs[j]);
    SizeAround(Inside(u.subs), j);
  }

  /** One step of that call inside. */
  lemma Walks(r: System -> bool, s: System, e: Step, i: SubscriberId) returns (t: System)
    requires Closed(Next, r) && r(s) && Inv(s) && i in s.subs && s.subs[i].Arrived?
    requires (e.Once? || e.GiveUp?) && Next(s, e).Some?
    ensures Next(s, e) == Some(t) && r(t) && Inv(t) && SameOutlook(s, t, i) && Inside(t.subs) == Inside(s.subs)
  {
    t := Next(s, e).value;
    Then(Next, r, s, e, t);
    InvStep(s, e);
    InsideMoves(s.subs, e.i, t.subs[e.i]);
    assert e.i in Inside(s.subs);
  }

  /** A new call comes and counts itself in. */
  lemma Enters(r: System -> bool, s: System, i: SubscriberId) returns (t: System, j: SubscriberId)
    requires Closed(Next, r) && r(s) && Inv(s) && i in s.subs && s.subs[i].Arrived?
    ensures r(t) && Inv(t) && SameOutlook(s, t, i) && j in Inside(t.subs) && Inside(t.subs) == Inside(s.subs) + {j}
  {
    j := FreshNat(s.subs.Keys);
    var u := Next(s, Arrive(j)).value;
    Then(Next, r, s, Arrive(j), u);
    InvStep(s, Arrive(j));
    InsideMoves(s.subs, j, Arrived);
    assert Inside(u.subs) == Inside(s.subs);
    t := Next(u, CountIn(j)).value;
    Then(Next, r, u, CountIn(j), t);
    InvStep(u, CountIn(j));
    InsideMoves(u.subs, j, Counted);
  }

  /** Everybody inside can leave. */
  lemma {:induction false} Empties(r: System -> bool, s: System, i: SubscriberId) returns (t: System)
    requires Closed(Next, r) && r(s) && Inv(s) && i in s.subs && s.subs[i].Arrived? && Inside(s.subs) != {}
    ensures r(t) && Inv(t) && SameOutlook(s, t, i) && t.core.zero
    decreases |Inside(s.subs)|
  {
    var j :| j in Inside(s.subs);
    t := Exits(r, s, j, i);
    if Inside(t.subs) != {} {
      SizeAround(Inside(s.subs), j);
      t := Empties(r, t, i);
    }
  }

  /** The counter can come back to zero while a call is not counted in yet. */
  lemma ReturnsToZero(r: System -> bool, s: System, i: SubscriberId) returns (t: System)
    requires Closed(Next, r) && r(s) && Inv(s) && i in s.subs && s.subs[i].Arrived?
    ensures r(t) && Inv(t) && SameOutlook(s, t, i) && t.core.zero
  {
    var u, j := Enters(r, s, i);
    t := Empties(r, u, i);
  }

  /**
   * A call that lies between LoadOrStore and its increment can come to be served a cancellation unless
   * startDownload has looked at the context and found it alive: nobody inside protects it.
   */
  lemma LateArrivalIff(s: System, i: SubscriberId)
    requires Reached(s) && i in s.subs && s.subs[i].Arrived?
    ensures CanBeCancelled(s, i) <==> !PastCheck(s.core) || s.core.result.err == ContextError
  {
    ReachedInv(s);
    if t :| Leads(Next, s, t) && WasServed(t, i) && t.subs[i].answer.triple.err == ContextError {
      var steps :| Run(Next, s, steps) == Some(t);
      Always(s, steps, t);
      assert SubOk(t.core, t.subs[i]);
    }
    if !PastCheck(s.core) || s.core.result.err == ContextError {
      LateArrivalRun(s, i);
    }
  }

  lemma LateArrivalRun(s: System, i: SubscriberId)
    requires Reached(s) && i in s.subs && s.subs[i].Arrived?
    requires !PastCheck(s.core) || s.core.result.err == ContextError
    ensures CanBeCancelled(s, i)
  {
    var r := (t: System) => Leads(Next, s, t);
    LeadsIsClosed(Next, s);
    LeadsToItself(Next, s);
    ReachedInv(s);
    var t := ReturnsToZero(r, s, i);
    var u := Next(t, CountIn(i)).value;
    Then(Next, r, t, CountIn(i), u);
    ReachableOn(Next, Starts, s, u);
    CanBeCancelledIff(u, i);
    var v :| Leads(Next, u, v) && WasServed(v, i) && v.subs[i].answer.triple.err == ContextError;
    LeadsOn(Next, s, u, v);
  }

  // ---------------------------------------------------------------- one such run

  lemma ReachedIsClosed()
    ensures Closed(Next, Reached) && Reached(System(NewCore, map[]))
  {
    ReachableFromStart(Next, Starts, System(NewCore, map[]));
    forall s, e | Reached(s) && Next(s, e).Some?
      ensures Reached(Next(s, e).value)
    {
      ReachableByStep(Next, Starts, s, e);
    }
  }

  /** Two subscribers of one state. */
  function Two(c: Core, first: Subscriber, second: Subscriber): System {
    System(c, map[0 := first, 1 := second])
  }

  lemma TwoMoves(c: Core, first: Subscriber, second: Subscriber, d: Core, to: Subscriber)
    ensures Move(Two(c, first, second), d, 0, to) == Two(d, to, second)
    ensures Move(Two(c, first, second), d, 1, to) == Two(d, first, to)
  {
    assert map[0 := first, 1 := second][0 := to] == map[0 := to, 1 := second];
    assert map[0 := first, 1 := second][1 := to] == map[0 := first, 1 := to];
  }

  /** One of the two subscribers takes a step. */
  lemma ThenTwo(r: System -> bool, c: Core, first: Subscriber, second: Subscriber, e: Step, d: Core, to: Subscriber)
    requires Closed(Next, r) && r(Two(c, first, second)) && BySubscriber(e) && e.i < 2
    requires Next(Two(c, first, second), e) == Some(Move(Two(c, first, second), d, e.i, to))
    ensures r(if e.i == 0 then Two(d, to, second) else Two(d, first, to))
  {
    TwoMoves(c, first, second, d, to);
  }

  /** After the only subscriber gave up; a second call has the state but is not counted yet. */
  const Abandoned: Core := Core(0, 1, true, true, Running, Triple(0, 0, NoError), NoError, 0, true)

  lemma TwoArrive(r: System -> bool)
    requires Closed(Next, r) && r(System(NewCore, map[]))
    ensures r(Two(NewCore, Arrived, Arrived))
  {
    assert map[][0 := Arrived][1 := Arrived] == map[0 := Arrived, 1 := Arrived];
    Then(Next, r, System(NewCore, map[]), Arrive(0), System(NewCore, map[][0 := Arrived]));
    Then(Next, r, System(NewCore, map[][0 := Arrived]), Arrive(1), Two(NewCore, Arrived, Arrived));
  }

  lemma AbandonedIsReached(r: System -> bool)
    requires Closed(Next, r) && r(System(NewCore, map[]))
    ensures r(Two(Abandoned, Gone(GaveUp), Arrived))
  {
    var c1 := AddSpec(NewCore);
    var c2 := OnceSpec(c1);
    var c3 := RemoveSpec(c2).0;
    TwoArrive(r);
    ThenTwo(r, NewCore, Arrived, Arrived, CountIn(0), c1, Counted);
    ThenTwo(r, c1, Counted, Arrived, Once(0), c2, Listening);
    ThenTwo(r, c2, Listening, Arrived, GiveUp(0), c2, Leaving(GaveUp));
    ThenTwo(r, c2, Leaving(GaveUp), Arrived, CountOut(0), c3, Last(GaveUp));
    ThenTwo(r, c3, Last(GaveUp), Arrived, DeleteRef(0), c3, Cancelling(GaveUp));
    ThenTwo(r, c3, Cancelling(GaveUp), Arrived, Cancel(0), Abandoned, Gone(GaveUp));
  }

  lemma LateArrival(r: System -> bool)
    requires Closed(Next, r) && r(System(NewCore, map[]))
    ensures exists s :: r(s) && WasServed(s, 1) && s.subs[1].answer.triple.err == ContextError
  {
    AbandonedIsReached(r);
    var gone := Gone(GaveUp);
    var d1 := ReturnSpec(Abandoned, 0, ContextError);
    var d2 := TimeSpec(d1, 0);
    var d3 := CheckSpec(d2);
    var d4 := CloseSpec(d3);
    var d5 := AddSpec(d4);
    Then(Next, r, Two(Abandoned, gone, Arrived), JobReturns(0, ContextError), Two(d1, gone, Arrived));
    Then(Next, r, Two(d1, gone, Arrived), JobTimes(0), Two(d2, gone, Arrived));
    Then(Next, r, Two(d2, gone, Arrived), JobChecks, Two(d3, gone, Arrived));
    Then(Next, r, Two(d3, gone, Arrived), JobCloses, Two(d4, gone, Arrived));
    ThenTwo(r, d4, gone, Arrived, CountIn(1), d5, Counted);
    ThenTwo(r, d5, gone, Counted, Once(1), d5, Listening);
    ThenTwo(r, d5, gone, Listening, BeServed(1), d5, Leaving(Served(d5.result)));
    assert WasServed(Two(d5, gone, Leaving(Served(d5.result))), 1);
  }

  /**
   * LoadOrStore and the increment are two steps: a call that lies between them while the last
   * subscriber leaves is served a cancellation, although it never gave up itself.
   */
  lemma LateArrivalIsServedACancellation()
    ensures exists s :: Reached(s) && WasServed(s, 1) && s.subs[1].answer.triple.err == ContextError
  {
    ReachedIsClosed();
    LateArrival(Reached);
  }
}
