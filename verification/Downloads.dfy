/**
 * The shared download of one `state` object (pkg/downloader/manager.go): any number of subscribers
 * count themselves in and out, one of them starts the download, and the last one out cancels it.
 *
 * LoadOrStore and the increment are two steps, so a subscriber may still come to a state that was
 * already cancelled; everything here is about one state, not about one image reference.
 */
module Downloads {
  import opened Wrappers
  import opened Runs

  type SubscriberId = nat
  type Config = nat

  /** err of a download: none, the error of Download, or the error of the cancelled context. */
  datatype Error = NoError | DownloadError(n: nat) | ContextError

  /** What a subscriber is served. */
  datatype Triple = Triple(config: Config, duration: nat, err: Error)

  /** Where the goroutine of startDownload stands. */
  datatype Job = Idle | Running | Returned | Timed | Checked | Published | Ended

  datatype Core = Core(
    subscribers: int,
    started: nat,          // times the function of once.Do ran
    cancelFunc: bool,      // cancelFunc is set
    cancelled: bool,       // the download context is cancelled
    job: Job,
    result: Triple,        // config, duration and err
    own: Error,            // what Download itself returned; not in the code
    closes: nat,           // times done was closed
    zero: bool)            // the counter has come back to zero at least once; not in the code

  const NewCore := Core(0, 0, false, false, Idle, Triple(0, 0, NoError), NoError, 0, false)

  function AddSpec(c: Core): Core {
    c.(subscribers := c.subscribers + 1)
  }

  /** subscribers.Add(-1); true for the one that reached zero. */
  function RemoveSpec(c: Core): (Core, bool) {
    (c.(subscribers := c.subscribers - 1, zero := c.zero || c.subscribers == 1), c.subscribers == 1)
  }

  /** once.Do: only the first call sets cancelFunc and starts the download. */
  function OnceSpec(c: Core): Core {
    if c.started > 0 then c else c.(started := c.started + 1, cancelFunc := true, job := Running)
  }

  function CancelSpec(c: Core): Core {
    c.(cancelled := true)
  }

  /** Download returned config and err. */
  function ReturnSpec(c: Core, config: Config, err: Error): Core {
    c.(job := Returned, result := c.result.(config := config, err := err), own := err)
  }

  function TimeSpec(c: Core, duration: nat): Core {
    c.(job := Timed, result := c.result.(duration := duration))
  }

  /** The context error takes precedence. */
  function CheckSpec(c: Core): Core {
    c.(job := Checked, result := if c.cancelled then c.result.(err := ContextError) else c.result)
  }

  function CloseSpec(c: Core): Core {
    c.(job := Published, closes := c.closes + 1)
  }

  class State {
    var subscribers: int
    var started: nat
    var cancelFunc: bool
    var cancelled: bool
    var job: Job
    var config: Config
    var duration: nat
    var err: Error
    var closes: nat
    ghost var own: Error
    ghost var zero: bool

    ghost function View(): Core
      reads this
    {
      Core(subscribers, started, cancelFunc, cancelled, job, Triple(config, duration, err), own, closes, zero)
    }

    constructor ()
      ensures View() == NewCore
    {
      subscribers, started, cancelFunc, cancelled, job := 0, 0, false, false, Idle;
      config, duration, err, closes, own, zero := 0, 0, NoError, 0, NoError, false;
    }

    method Subscribe()
      modifies this`subscribers
      ensures View() == AddSpec(old(View()))
    {
      subscribers := subscribers + 1;
    }

    method Unsubscribe() returns (last: bool)
      modifies this`subscribers, this`zero
      ensures (View(), last) == RemoveSpec(old(View()))
    {
      subscribers := subscribers - 1;
      last := subscribers == 0;
      zero := zero || last;
    }

    method DoOnce()
      modifies this`started, this`cancelFunc, this`job
      ensures View() == OnceSpec(old(View()))
    {
      if started == 0 {
        cancelFunc := true;
        job := Running;
        started := started + 1;
      }
    }

    method CancelDownload()
      requires cancelFunc
      modifies this`cancelled
      ensures View() == CancelSpec(old(View()))
    {
      cancelled := true;
    }

    /** startDownload when nothing else moves: Download, the duration, the context, then done. */
    method StartDownload(c: Config, e: Error, d: nat)
      requires job == Running && cancelFunc
      modifies this
      ensures config == c && duration == d && err == (if old(cancelled) then ContextError else e)
      ensures closes == old(closes) + 1 && cancelled && job == Ended
      ensures subscribers == old(subscribers) && started == old(started)
      ensures View() == CancelSpec(CloseSpec(CheckSpec(TimeSpec(ReturnSpec(old(View()), c, e), d)))).(job := Ended)
    {
      config, err := c, e;
      own := e;
      duration := d;
      if cancelled {
        err := ContextError;
      }
      closes := closes + 1;  // deferred: close(done), then cancelFunc
      CancelDownload();
      job := Ended;
    }
  }

  // ---------------------------------------------------------------- all interleavings

  datatype Answer = GaveUp | Served(triple: Triple)

  /** Where a call of Download stands. */
  datatype Subscriber =
    | Arrived                     // has the state, not yet counted
    | Counted
    | Listening                   // in the select
    | Leaving(answer: Answer)     // about to count itself out
    | Last(answer: Answer)        // was the last: about to delete the reference
    | Cancelling(answer: Answer)  // about to call cancelFunc
    | Gone(answer: Answer)

  datatype System = System(core: Core, subs: map<SubscriberId, Subscriber>)

  ghost predicate Starts(s: System) {
    s == System(NewCore, map[])
  }

  datatype Step =
    | Arrive(i: SubscriberId)
    | CountIn(i: SubscriberId)
    | Once(i: SubscriberId)
    | GiveUp(i: SubscriberId)
    | BeServed(i: SubscriberId)
    | CountOut(i: SubscriberId)
    | DeleteRef(i: SubscriberId)
    | Cancel(i: SubscriberId)
    | JobReturns(config: Config, err: Error)
    | JobTimes(duration: nat)
    | JobChecks
    | JobCloses
    | JobCancels

  function Move(s: System, c: Core, i: SubscriberId, to: Subscriber): System {
    System(c, s.subs[i := to])
  }

  /** The step function: None when the step is not enabled. */
  function Next(s: System, e: Step): Option<System> {
    var c := s.core;
    match e
    case Arrive(i) => if i in s.subs then None else Some(Move(s, c, i, Arrived))
    case CountIn(i) =>
      if i !in s.subs || !s.subs[i].Arrived? then None else Some(Move(s, AddSpec(c), i, Counted))
    case Once(i) =>
      if i !in s.subs || !s.subs[i].Counted? then None else Some(Move(s, OnceSpec(c), i, Listening))
    case GiveUp(i) =>
      if i !in s.subs || !s.subs[i].Listening? then None else Some(Move(s, c, i, Leaving(GaveUp)))
    case BeServed(i) =>
      if i !in s.subs || !s.subs[i].Listening? || c.closes == 0 then None
      else Some(Move(s, c, i, Leaving(Served(c.result))))
    case CountOut(i) =>
      if i !in s.subs || !s.subs[i].Leaving? then None
      else
        var (d, last) := RemoveSpec(c);
        var answer := s.subs[i].answer;
        Some(Move(s, d, i, if last then Last(answer) else Gone(answer)))
    case DeleteRef(i) =>
      if i !in s.subs || !s.subs[i].Last? then None else Some(Move(s, c, i, Cancelling(s.subs[i].answer)))
    case Cancel(i) =>
      if i !in s.subs || !s.subs[i].Cancelling? then None else Some(Move(s, CancelSpec(c), i, Gone(s.subs[i].answer)))
    case JobReturns(config, err) =>
      if !c.job.Running? || (err == ContextError && !c.cancelled) then None
          else Some(s.(core := ReturnSpec(c, config, err)))
    case JobTimes(duration) =>
      if !c.job.Returned? then None else Some(s.(core := TimeSpec(c, duration)))
    case JobChecks =>
      if !c.job.Timed? then None else Some(s.(core := CheckSpec(c)))
    case JobCloses =>
      if !c.job.Checked? then None else Some(s.(core := CloseSpec(c)))
    case JobCancels =>
      if !c.job.Published? then None else Some(s.(core := CancelSpec(c).(job := Ended)))
  }

  /** The calls between their increment and their decrement. */
  function Inside(subs: map<SubscriberId, Subscriber>): set<SubscriberId> {
    set i | i in subs && (subs[i].Counted? || subs[i].Listening? || subs[i].Leaving?)
  }

  predicate CoreOk(c: Core) {
    && c.started <= 1
    && (c.started == 1 <==> c.cancelFunc)
    && (c.started == 0 <==> c.job == Idle)
    && c.closes == (if c.job in {Published, Ended} then 1 else 0)
    && (c.job == Idle ==> c.result.err == NoError)
    && (c.own == ContextError ==> c.zero)
    && (c.job in {Returned, Timed} ==> c.result.err == c.own)
    && (c.job in {Checked, Published, Ended} ==> c.result.err == c.own || (c.result.err == ContextError && c.zero))
    && (c.cancelled ==> c.zero || c.job == Ended)
  }

  predicate SubOk(c: Core, sub: Subscriber) {
    && (sub.Listening? || sub.Leaving? || sub.Last? || sub.Cancelling? || sub.Gone? ==> c.started == 1)
    && (sub.Last? || sub.Cancelling? ==> c.zero)
    && ((sub.Leaving? || sub.Last? || sub.Cancelling? || sub.Gone?) && sub.answer.Served? ==>
          c.closes == 1 && sub.answer.triple == c.result)
  }

  ghost predicate Inv(s: System) {
    && CoreOk(s.core)
    && s.core.subscribers == |Inside(s.subs)|
    && forall i :: i in s.subs ==> SubOk(s.core, s.subs[i])
  }

  /** What never goes back: the counts, the cancellation, and the result once done is closed. */
  predicate Onward(c: Core, d: Core) {
    && c.started <= d.started && c.closes <= d.closes
    && (c.zero ==> d.zero)
    && (c.cancelled ==> d.cancelled)
    && (c.closes >= 1 ==> d.result == c.result)
    && (c.job in {Checked, Published, Ended} ==> d.job in {Checked, Published, Ended} && d.result == c.result)
  }

  lemma InsideMoves(subs: map<SubscriberId, Subscriber>, i: SubscriberId, to: Subscriber)
    ensures Inside(subs[i := to]) ==
            if to.Counted? || to.Listening? || to.Leaving? then Inside(subs) + {i} else Inside(subs) - {i}
  {
  }

  lemma InvJobStep(s: System, e: Step)
    requires Inv(s) && Next(s, e).Some?
    requires e.JobReturns? || e.JobTimes? || e.JobChecks? || e.JobCloses? || e.JobCancels?
    ensures Inv(Next(s, e).value) && Onward(s.core, Next(s, e).value.core)
  {
    var t := Next(s, e).value;
    assert CoreOk(t.core);
    assert t.subs == s.subs;
  }

  predicate BySubscriber(e: Step) {
    !(e.JobReturns? || e.JobTimes? || e.JobChecks? || e.JobCloses? || e.JobCancels?)
  }

  /** A step of one subscriber: the state and the subscriber itself. */
  lemma InvMover(s: System, e: Step)
    requires Inv(s) && Next(s, e).Some? && BySubscriber(e)
    ensures CoreOk(Next(s, e).value.core) && Onward(s.core, Next(s, e).value.core)
    ensures Next(s, e).value.subs == s.subs[e.i := Next(s, e).value.subs[e.i]]
    ensures SubOk(Next(s, e).value.core, Next(s, e).value.subs[e.i])
  {
  }

  /** A step of one subscriber: the counter. */
  lemma InvCounter(s: System, e: Step)
    requires Inv(s) && Next(s, e).Some? && BySubscriber(e)
    ensures Next(s, e).value.core.subscribers == |Inside(Next(s, e).value.subs)|
  {
    var t := Next(s, e).value;
    InsideMoves(s.subs, e.i, t.subs[e.i]);
    SizeAround(Inside(s.subs), e.i);
  }

  lemma InvStep(s: System, e: Step)
    requires Inv(s) && Next(s, e).Some?
    ensures Inv(Next(s, e).value) && Onward(s.core, Next(s, e).value.core)
  {
    if BySubscriber(e) {
      InvMover(s, e);
      InvCounter(s, e);
    } else {
      InvJobStep(s, e);
    }
  }

  lemma Always(s: System, steps: seq<Step>, t: System)
    requires Inv(s) && Run(Next, s, steps) == Some(t)
    ensures Inv(t) && Onward(s.core, t.core)
  {
    forall u, e | Inv(u) && Next(u, e).Some?
      ensures Inv(Next(u, e).value) && Onward(u.core, Next(u, e).value.core)
    {
      InvStep(u, e);
    }
    Ordered(Next, Inv, (u: System, v: System) => Onward(u.core, v.core), s, steps);
  }

  ghost predicate Reached(s: System) {
    Reachable(Next, Starts, s)
  }

  lemma ReachedInv(s: System)
    requires Reached(s)
    ensures Inv(s)
  {
    forall start | Starts(start)
      ensures Inv(start)
    {
      assert Inside(start.subs) == {};
    }
    forall t, e | Inv(t) && Next(t, e).Some?
      ensures Inv(Next(t, e).value)
    {
      InvStep(t, e);
    }
    Invariant(Next, Starts, Inv, s);
  }

  // ---------------------------------------------------------------- guarantees

  /**
   * The counter is the number of calls that are counted in, the download is started once at most,
   * done is closed once at most, and whoever calls cancelFunc finds it set.
   */
  lemma OneDownloadPerState(s: System)
    requires Reached(s)
    ensures s.core.subscribers == |Inside(s.subs)|
    ensures s.core.started <= 1 && s.core.closes <= 1
    ensures forall i :: i in s.subs && s.subs[i].Cancelling? ==> s.core.cancelFunc
    ensures s.core.job != Idle ==> s.core.cancelFunc
    ensures forall i :: i in s.subs && s.subs[i].Listening? ==> s.core.job != Idle
  {
    ReachedInv(s);
  }

  /**
   * The download is cancelled only after the counter has come back to zero, or when it is over: who
   * was counted in before that is served what Download itself returned, whoever else leaves.
   */
  lemma NoneCancelledWhileOneListens(s: System)
    requires Reached(s) && !s.core.zero
    ensures s.core.cancelled ==> s.core.job == Ended
    ensures s.core.closes == 1 ==> s.core.result.err == s.core.own != ContextError
    ensures forall i :: i in s.subs ==> !s.subs[i].Last? && !s.subs[i].Cancelling?
  {
    ReachedInv(s);
  }

  lemma ZeroByCountOut(s: System, e: Step)
    requires Next(s, e).Some? && !s.core.zero && Next(s, e).value.core.zero
    ensures e.CountOut? && s.core.subscribers == 1
    ensures e.i in Inside(s.subs) && Next(s, e).value.subs == s.subs[e.i := Last(s.subs[e.i].answer)]
  {
  }

  lemma OneInside(s: System, e: Step)
    requires Inv(s) && Next(s, e).Some? && !s.core.zero && Next(s, e).value.core.zero
    ensures e.CountOut? && Inside(s.subs) == {e.i} && s.subs[e.i].Leaving?
  {
    ZeroByCountOut(s, e);
    SizeAround(Inside(s.subs), e.i);
    assert Inside(s.subs) == (Inside(s.subs) - {e.i}) + {e.i};
  }

  /** The counter reaches zero only when the last call inside counts itself out. */
  lemma OnlyTheLastReachesZero(s: System, e: Step)
    requires Reached(s) && Next(s, e).Some? && !s.core.zero && Next(s, e).value.core.zero
    ensures e.CountOut? && Inside(s.subs) == {e.i} && Inside(Next(s, e).value.subs) == {}
    ensures Next(s, e).value.subs[e.i].Last?
  {
    ReachedInv(s);
    OneInside(s, e);
    ZeroByCountOut(s, e);
    InsideMoves(s.subs, e.i, Last(s.subs[e.i].answer));
  }

  predicate WasServed(s: System, i: SubscriberId) {
    i in s.subs && (s.subs[i].Leaving? || s.subs[i].Last? || s.subs[i].Cancelling? || s.subs[i].Gone?)
        && s.subs[i].answer.Served?
  }

  predicate InTheSelect(sub: Subscriber) {
    sub.Counted? || sub.Listening?
  }

  /** The call waits while the counter has never come back to zero, or has been served no context error. */
  predicate Spared(s: System, i: SubscriberId) {
    && i in s.subs && !s.subs[i].Arrived?
    && (InTheSelect(s.subs[i]) ==> !s.core.zero)
    && (!InTheSelect(s.subs[i]) && s.subs[i].answer.Served? ==> s.subs[i].answer.triple.err != ContextError)
  }

  lemma SparedStep(s: System, e: Step, i: SubscriberId)
    requires Inv(s) && Next(s, e).Some? && Spared(s, i)
    ensures Spared(Next(s, e).value, i)
  {
    assert SubOk(s.core, s.subs[i]);
    assert InTheSelect(s.subs[i]) ==> i in Inside(s.subs);
    if InTheSelect(s.subs[i]) && Next(s, e).value.core.zero {
      OneInside(s, e);
      assert false;
    }
  }

  /**
   * A call that counted itself in before the counter first came back to zero is never served a
   * cancellation, whoever leaves in whatever order: only its own context can cut it short.
   */
  lemma SubscribersAreSpared(s: System, i: SubscriberId, steps: seq<Step>, t: System)
    requires Reached(s) && i in Inside(s.subs) && !s.core.zero
    requires Run(Next, s, steps) == Some(t) && WasServed(t, i)
    ensures t.subs[i].answer.triple.err != ContextError
  {
    ReachedInv(s);
    assert SubOk(s.core, s.subs[i]);
    forall u, e | Inv(u) && Spared(u, i) && Next(u, e).Some?
      ensures Inv(Next(u, e).value) && Spared(Next(u, e).value, i)
    {
      InvStep(u, e);
      SparedStep(u, e, i);
    }
    Keeps(Next, u => Inv(u) && Spared(u, i), s, steps);
  }

  /**
   * The error that is published is that of the context exactly when Download returned it or the
   * context was cancelled when startDownload looked.
   */
  lemma ContextErrorIff(s: System, steps: seq<Step>, t: System)
    requires Reached(s) && Next(s, JobChecks).Some?
    requires Run(Next, Next(s, JobChecks).value, steps) == Some(t)
    ensures t.core.result.err == ContextError <==> s.core.own == ContextError || s.core.cancelled
  {
    ReachedInv(s);
    InvStep(s, JobChecks);
    Always(Next(s, JobChecks).value, steps, t);
  }

  /** All who are served by done are served the same triple, now and later. */
  lemma AllAreServedTheSame(s: System, i: SubscriberId, steps: seq<Step>, t: System, j: SubscriberId)
    requires Reached(s) && WasServed(s, i)
    requires Run(Next, s, steps) == Some(t) && WasServed(t, j)
    ensures t.subs[j].answer == s.subs[i].answer
  {
    ReachedInv(s);
    Always(s, steps, t);
  }
}
