/** Where what a subscriber is served (pkg/downloader/manager.go) comes from: the steps of the run. */
module DownloadHistory {
  import opened Wrappers
  import opened Downloads
  import opened Runs

  /** The steps of a job: Download returns, the duration is taken, the context is looked at. */
  datatype Kind = Return | Time | Look

  predicate IsKind(e: Step, kind: Kind) {
    match kind
    case Return => e.JobReturns?
    case Time => e.JobTimes?
    case Look => e.JobChecks?
  }

  /** The one step of its kind in the run. */
  ghost predicate OnlyAt(steps: seq<Step>, n: nat, kind: Kind) {
    n < |steps| && IsKind(steps[n], kind) && forall j :: 0 <= j < |steps| && IsKind(steps[j], kind) ==> j == n
  }

  ghost predicate NoneOf(steps: seq<Step>, kind: Kind) {
    forall j :: 0 <= j < |steps| ==> !IsKind(steps[j], kind)
  }

  /** The context was done when the n-th step of the run was about to be taken. */
  ghost predicate DoneBefore(start: System, steps: seq<Step>, n: nat) {
    n <= |steps| && Run(Next, start, steps[..n]).Some? && Run(Next, start, steps[..n]).value.core.cancelled
  }

  /** What Download returned is what the job holds. */
  ghost predicate ReturnKept(steps: seq<Step>, c: Core) {
    if c.job in {Idle, Running} then NoneOf(steps, Return)
    else exists a: nat :: OnlyAt(steps, a, Return) && steps[a].config == c.result.config && steps[a].err == c.own
  }

  /** The duration that was taken is what the job holds. */
  ghost predicate TimeKept(steps: seq<Step>, c: Core) {
    if c.job in {Idle, Running, Returned} then NoneOf(steps, Time)
    else exists b: nat :: OnlyAt(steps, b, Time) && steps[b].duration == c.result.duration
  }

  /** The error is that of Download until the context is looked at, and its own if that is done then. */
  ghost predicate LookKept(start: System, steps: seq<Step>, c: Core) {
    if c.job in {Idle, Running, Returned, Timed} then
      NoneOf(steps, Look) && (c.job in {Returned, Timed} ==> c.result.err == c.own)
    else
      exists n: nat :: OnlyAt(steps, n, Look) &&
        c.result.err == if DoneBefore(start, steps, n) then ContextError else c.own
  }

  /** One step further: what was the only one stays it, unless the new step is of its kind. */
  lemma OnlyStill(steps: seq<Step>, e: Step, n: nat, kind: Kind)
    ensures OnlyAt(steps, n, kind) && !IsKind(e, kind) ==> OnlyAt(steps + [e], n, kind)
    ensures NoneOf(steps, kind) && !IsKind(e, kind) ==> NoneOf(steps + [e], kind)
    ensures NoneOf(steps, kind) && IsKind(e, kind) ==> OnlyAt(steps + [e], |steps|, kind)
  {
    forall j | 0 <= j < |steps|
      ensures (steps + [e])[j] == steps[j]
    {
    }
  }

  /** A step leaves what the job holds, or is the job's own. */
  lemma JobMoves(s: System, e: Step)
    requires CoreOk(s.core) && Next(s, e).Some?
    ensures var c, d := s.core, Next(s, e).value.core;
            && (e.JobReturns? ==>
                  && c.job == Running && d.job == Returned && d.own == e.err
                  && d.result.config == e.config && d.result.err == e.err)
            && (e.JobTimes? ==>
                  && c.job == Returned && d.job == Timed && d.own == c.own
                  && d.result.config == c.result.config && d.result.err == c.result.err
                  && d.result.duration == e.duration)
            && (e.JobChecks? ==>
                  && c.job == Timed && d.job == Checked && d.own == c.own
                  && d.result.config == c.result.config && d.result.duration == c.result.duration
                  && d.result.err == if c.cancelled then ContextError else c.result.err)
            && (!e.JobReturns? && !e.JobTimes? && !e.JobChecks? ==>
                  && d.result == c.result && d.own == c.own
                  && (d.job == c.job || (c.job == Idle && d.job == Running)
                      || (c.job in {Checked, Published} && d.job in {Published, Ended})))
  {
  }

  lemma ReturnStep(s: System, steps: seq<Step>, e: Step)
    requires CoreOk(s.core) && Next(s, e).Some? && ReturnKept(steps, s.core)
    ensures ReturnKept(steps + [e], Next(s, e).value.core)
  {
    JobMoves(s, e);
    OnlyStill(steps, e, 0, Return);
    if s.core.job !in {Idle, Running} {
      var a: nat :| OnlyAt(steps, a, Return) && steps[a].config == s.core.result.config && steps[a].err == s.core.own;
      OnlyStill(steps, e, a, Return);
      assert (steps + [e])[a] == steps[a];
    } else if e.JobReturns? {
      assert (steps + [e])[|steps|] == e;
    }
  }

  lemma TimeStep(s: System, steps: seq<Step>, e: Step)
    requires CoreOk(s.core) && Next(s, e).Some? && TimeKept(steps, s.core)
    ensures TimeKept(steps + [e], Next(s, e).value.core)
  {
    JobMoves(s, e);
    OnlyStill(steps, e, 0, Time);
    if s.core.job !in {Idle, Running, Returned} {
      var b: nat :| OnlyAt(steps, b, Time) && steps[b].duration == s.core.result.duration;
      OnlyStill(steps, e, b, Time);
      assert (steps + [e])[b] == steps[b];
    } else if e.JobTimes? {
      assert (steps + [e])[|steps|] == e;
    }
  }

  lemma DoneStill(start: System, steps: seq<Step>, e: Step, n: nat)
    requires n <= |steps|
    ensures DoneBefore(start, steps + [e], n) == DoneBefore(start, steps, n)
  {
    assert (steps + [e])[..n] == steps[..n];
  }

  lemma LookStep(start: System, s: System, steps: seq<Step>, e: Step)
    requires Run(Next, start, steps) == Some(s)
    requires CoreOk(s.core) && Next(s, e).Some? && LookKept(start, steps, s.core)
    ensures LookKept(start, steps + [e], Next(s, e).value.core)
  {
    JobMoves(s, e);
    OnlyStill(steps, e, 0, Look);
    if s.core.job !in {Idle, Running, Returned, Timed} {
      var n: nat :| OnlyAt(steps, n, Look) &&
        s.core.result.err == if DoneBefore(start, steps, n) then ContextError else s.core.own;
      OnlyStill(steps, e, n, Look);
      DoneStill(start, steps, e, n);
    } else if e.JobChecks? {
      DoneStill(start, steps, e, |steps|);
      assert steps[..|steps|] == steps;
      assert DoneBefore(start, steps, |steps|) <==> s.core.cancelled;
    }
  }

  lemma {:induction false} HistoryKept(start: System, steps: seq<Step>, s: System)
    requires Starts(start) && Run(Next, start, steps) == Some(s)
    ensures Inv(s) && ReturnKept(steps, s.core) && TimeKept(steps, s.core) && LookKept(start, steps, s.core)
    decreases |steps|
  {
    if steps == [] {
      assert Inside(start.subs) == {};
    } else {
      var before, last := steps[..|steps| - 1], steps[|steps| - 1];
      RunLast(Next, start, steps);
      var u := Run(Next, start, before).value;
      HistoryKept(start, before, u);
      assert steps == before + [last];
      InvStep(u, last);
      ReturnStep(u, before, last);
      TimeStep(u, before, last);
      LookStep(start, u, before, last);
    }
  }

  /** What the run says everyone should be served. */
  ghost predicate IsOutcome(start: System, steps: seq<Step>, triple: Triple) {
    exists a: nat, b: nat, n: nat ::
      && OnlyAt(steps, a, Return) && OnlyAt(steps, b, Time) && OnlyAt(steps, n, Look)
      && triple.config == steps[a].config
      && triple.duration == steps[b].duration
      && triple.err == if DoneBefore(start, steps, n) then ContextError else steps[a].err
  }

  /**
   * Over every run: whoever is served gets the configuration and the error that the one Download
   * returned and the duration that was taken, but the context's error when the context was
   * done at the one moment startDownload looked.
   */
  lemma ServedIsTheOutcome(start: System, steps: seq<Step>, s: System, i: SubscriberId)
    requires Starts(start) && Run(Next, start, steps) == Some(s) && WasServed(s, i)
    ensures IsOutcome(start, steps, s.subs[i].answer.triple)
  {
    HistoryKept(start, steps, s);
    assert SubOk(s.core, s.subs[i]);
    var c := s.core;
    var a: nat :| OnlyAt(steps, a, Return) && steps[a].config == c.result.config && steps[a].err == c.own;
    var b: nat :| OnlyAt(steps, b, Time) && steps[b].duration == c.result.duration;
    var n: nat :| OnlyAt(steps, n, Look) &&
      c.result.err == if DoneBefore(start, steps, n) then ContextError else c.own;
  }

  /** And there is only one such outcome. */
  lemma OutcomeIsOne(start: System, steps: seq<Step>, x: Triple, y: Triple)
    requires IsOutcome(start, steps, x) && IsOutcome(start, steps, y)
    ensures x == y
  {
  }
}
