/**
 * Whole creations and deletions that nothing disturbs (pkg/resourcemanager/macos.go): what they leave,
 * for every way in which they can end.
 */
module VmJourneys {
  import opened Wrappers
  import opened VmPermits
  import opened VmCreation
  import opened VmPieces
  import opened Runs

  /** A creation, its key and whether it has a post-start action. */
  datatype Order = Order(c: CreatorId, key: Key, hook: bool)

  /** Where a creation ends: it fails in that step, or nothing fails. */
  datatype Ending =
    | DownloadFails
    | ContextEnds         // while it waits for a permit
    | BuildFails
    | BootFails
    | AddressFails        // no IP address is found and the machine is killed
    | ProbeFails
    | HookFails
    | NothingFails

  /** The order is new: nobody knows the creation, and the key is free. */
  predicate New(s: System, o: Order) {
    o.c !in s.creators && o.c !in s.running && o.key !in s.shared.vms
  }

  /** The state with this creation, entry and number of tokens, and all else as in s. */
  function With(s: System, o: Order, r: Creator, i: Entry, tokens: nat, runs: bool): System {
    s.(shared := Shared(tokens, s.shared.vms[o.key := i]),
       creators := s.creators[o.c := r],
       running := if runs then s.running + {o.c} else s.running)
  }

  lemma WithTwice(s: System, o: Order, r: Creator, i: Entry, q: Creator, j: Entry)
    ensures s.shared.vms[o.key := i][o.key := j] == s.shared.vms[o.key := j]
    ensures s.creators[o.c := r][o.c := q] == s.creators[o.c := q]
  {
  }

  /** The creation before its machine is committed. */
  function Early(o: Order, stage: Stage): Creator {
    Creator(o.key, o.hook, stage, false, NewGuard, false, false, 0, 0)
  }

  /** The creation once it is. */
  function Late(o: Order, stage: Stage, probed: bool, hookRuns: nat): Creator {
    Creator(o.key, o.hook, stage, false, CommitSpec(NewGuard), true, probed, hookRuns, 0)
  }

  // ---------------------------------------------------------------- the way to the marker

  /** The step that is taken at each place of the way. */
  function StepAt(o: Order, n: nat): Step {
    if n == 0 then Create(o.c, o.key, o.hook)
    else if n == 1 then StoreCancel(o.c)
    else if n == 2 then DownloadEnds(o.c, true)
    else if n == 3 then Send(o.c)
    else if n == 4 then Mark(o.c)
    else if n == 5 then BuildEnds(o.c, true)
    else if n == 6 then Boot(o.c, true)
    else if n == 7 then AddressEnds(o.c, true, false)
    else if n == 8 then ProbeEnds(o.c, true)
    else HookEnds(o.c, true)
  }

  /** The state at each place of the way. */
  function Way(s: System, o: Order, n: nat): System {
    var tokens := s.shared.tokens;
    if n == 0 then s
    else if n == 1 then With(s, o, Early(o, Beginning), NewEntry(o.c), tokens, false)
    else if n == 2 then With(s, o, Early(o, Downloading), Pulled(o.c), tokens, false)
    else if n == 3 then With(s, o, Early(o, Acquiring), Pulled(o.c), tokens, false)
    else if n == 4 then With(s, o, Early(o, Sent), Pulled(o.c), tokens + 1, false)
    else if n == 5 then With(s, o, Early(o, Building), HeldBy(o.c), tokens + 1, false)
    else if n == 6 then With(s, o, Early(o, Starting), RunsFor(o.c), tokens + 1, false)
    else if n == 7 then With(s, o, Early(o, Addressing), RunsFor(o.c), tokens + 1, true)
    else if n == 8 then With(s, o, Late(o, Probing, false, 0), RunsFor(o.c), tokens + 1, true)
    else if n == 9 then
      With(s, o, Late(o, if o.hook then Hooking else Marking, true, 0), RunsFor(o.c), tokens + 1, true)
    else With(s, o, Late(o, Marking, true, 1), RunsFor(o.c), tokens + 1, true)
  }

  /** The length of the way. */
  function Length(o: Order): nat {
    if o.hook then 10 else 9
  }

  lemma FirstHalf(s: System, o: Order, n: nat)
    requires New(s, o) && n < 5 && (n == 3 ==> s.shared.tokens < MaxVirtualMachines)
    ensures Next(Way(s, o, n), StepAt(o, n)) == Some(Way(s, o, n + 1))
  {
    WithTwice(s, o, Early(o, Beginning), NewEntry(o.c), Early(o, Downloading), Pulled(o.c));
    WithTwice(s, o, Early(o, Downloading), Pulled(o.c), Early(o, Acquiring), Pulled(o.c));
    WithTwice(s, o, Early(o, Acquiring), Pulled(o.c), Early(o, Sent), Pulled(o.c));
    WithTwice(s, o, Early(o, Sent), Pulled(o.c), Early(o, Building), HeldBy(o.c));
  }

  lemma SecondHalf(s: System, o: Order, n: nat)
    requires New(s, o) && 5 <= n < Length(o)
    ensures Next(Way(s, o, n), StepAt(o, n)) == Some(Way(s, o, n + 1))
  {
    var i := RunsFor(o.c);
    WithTwice(s, o, Early(o, Building), HeldBy(o.c), Early(o, Starting), i);
    WithTwice(s, o, Early(o, Starting), i, Early(o, Addressing), i);
    WithTwice(s, o, Early(o, Addressing), i, Late(o, Probing, false, 0), i);
    WithTwice(s, o, Late(o, Probing, false, 0), i, Late(o, if o.hook then Hooking else Marking, true, 0), i);
    WithTwice(s, o, Late(o, Hooking, true, 0), i, Late(o, Marking, true, 1), i);
  }

  function StepsTo(o: Order, n: nat): seq<Step> {
    if n == 0 then [] else StepsTo(o, n - 1) + [StepAt(o, n - 1)]
  }

  /** One step more at the end of a run. */
  lemma Snoc(s: System, steps: seq<Step>, t: System, e: Step, u: System)
    requires Run(Next, s, steps) == Some(t) && Next(t, e) == Some(u)
    ensures Run(Next, s, steps + [e]) == Some(u)
  {
    Append(Next, s, steps, [e]);
    assert [e][1..] == [];
    assert Run(Next, t, [e]) == Some(u);
  }

  lemma {:induction false} RunTo(s: System, o: Order, n: nat)
    requires New(s, o) && n <= Length(o) && (n > 3 ==> s.shared.tokens < MaxVirtualMachines)
    ensures Run(Next, s, StepsTo(o, n)) == Some(Way(s, o, n))
  {
    if n > 0 {
      RunTo(s, o, n - 1);
      if n <= 5 {
        FirstHalf(s, o, n - 1);
      } else {
        SecondHalf(s, o, n - 1);
      }
      Snoc(s, StepsTo(o, n - 1), Way(s, o, n - 1), StepAt(o, n - 1), Way(s, o, n));
    }
  }

  // ---------------------------------------------------------------- the ends

  /** How far a creation gets before it fails. */
  function Reaches(o: Order, ending: Ending): nat {
    match ending
    case DownloadFails => 2
    case ContextEnds => 3
    case BuildFails => 5
    case BootFails => 6
    case AddressFails => 7
    case ProbeFails => 8
    case HookFails => 9
    case NothingFails => Length(o)
  }

  /** The step in which it ends. */
  function LastStep(o: Order, ending: Ending): Step {
    match ending
    case DownloadFails => DownloadEnds(o.c, false)
    case ContextEnds => GiveUp(o.c)
    case BuildFails => BuildEnds(o.c, false)
    case BootFails => Boot(o.c, false)
    case AddressFails => AddressEnds(o.c, false, true)
    case ProbeFails => ProbeEnds(o.c, false)
    case HookFails => HookEnds(o.c, false)
    case NothingFails => RecordSuccess(o.c)
  }

  /** It has a permit that it did not commit, and gives it back. */
  predicate GivesBack(ending: Ending) {
    ending in {BuildFails, BootFails, AddressFails}
  }

  /** It has committed its permit and its machine runs. */
  predicate Commits(ending: Ending) {
    ending in {ProbeFails, HookFails, NothingFails}
  }

  function StepsOf(o: Order, ending: Ending): seq<Step> {
    StepsTo(o, Reaches(o, ending)) + [LastStep(o, ending)]
    + (if GivesBack(ending) then [Clear(o.c)] + [Drain(o.c)] else [])
    + [Finalize(o.c)]
  }

  /** The entry that is left. */
  function Left(o: Order, ending: Ending): Entry {
    Entry(
      o.c,
      if Commits(ending) then Some(o.c) else None,
      false,
      if Commits(ending) || ending in {BootFails, AddressFails} then Some(o.c) else None,
      if ending == NothingFails then None else Some(o.c),
      if ending == NothingFails then Some(o.c) else None)
  }

  /** What an undisturbed creation leaves, and that it touches nothing else. */
  predicate Leaves(s: System, o: Order, ending: Ending, t: System) {
    && t.shared.vms == s.shared.vms[o.key := Left(o, ending)]
    && t.shared.tokens == s.shared.tokens + (if Commits(ending) then 1 else 0)
    && t.running == (if Commits(ending) then s.running + {o.c} else s.running)
    && o.c in t.creators && t.creators == s.creators[o.c := t.creators[o.c]]
    && t.creators[o.c].stage == Ended && (t.creators[o.c].err <==> ending != NothingFails)
    && t.deleters == s.deleters && t.strays == s.strays && t.orphans == s.orphans
  }

  /** The creation after its last step, with the error that it met. */
  function Over(o: Order, ending: Ending, stage: Stage, clears: nat): Creator {
    var guard := if ending in {DownloadFails, ContextEnds} then NewGuard
                 else ReleaseSpec(if Commits(ending) then CommitSpec(NewGuard) else NewGuard).0;
    Creator(o.key, o.hook, stage, ending != NothingFails, guard, Commits(ending),
            ending in {HookFails, NothingFails},
            if ending == HookFails || (ending == NothingFails && o.hook) then 1 else 0, clears)
  }

  /** The entry when the last step is done, before permit and error are seen to. */
  function Before(o: Order, ending: Ending): Entry {
    match ending
    case DownloadFails => Pulled(o.c)
    case ContextEnds => Pulled(o.c)
    case BuildFails => HeldBy(o.c)
    case NothingFails => RunsFor(o.c).(markedBy := Some(o.c))
    case _ => RunsFor(o.c)
  }

  predicate Fits(s: System, o: Order, ending: Ending) {
    && New(s, o) && (ending == HookFails ==> o.hook)
    && (ending !in {DownloadFails, ContextEnds} ==> s.shared.tokens < MaxVirtualMachines)
  }

  /** The state after the last step. */
  function AtEnd(s: System, o: Order, ending: Ending): System {
    With(s, o, Over(o, ending, if GivesBack(ending) then Clearing else Finalizing, 0), Before(o, ending),
         s.shared.tokens + (if ending in {DownloadFails, ContextEnds} then 0 else 1), Commits(ending))
  }

  lemma EarlyEnd(s: System, o: Order, ending: Ending)
    requires Fits(s, o, ending) && !Commits(ending)
    ensures Next(Way(s, o, Reaches(o, ending)), LastStep(o, ending)) == Some(AtEnd(s, o, ending))
  {
    var w := Way(s, o, Reaches(o, ending));
    WithTwice(s, o, w.creators[o.c], Before(o, ending), AtEnd(s, o, ending).creators[o.c], Before(o, ending));
    assert s.running + {o.c} - {o.c} == s.running;
  }

  lemma LateFailure(s: System, o: Order, ending: Ending)
    requires Fits(s, o, ending) && ending in {ProbeFails, HookFails}
    ensures Next(Way(s, o, Reaches(o, ending)), LastStep(o, ending)) == Some(AtEnd(s, o, ending))
  {
    var w := Way(s, o, Reaches(o, ending));
    WithTwice(s, o, w.creators[o.c], RunsFor(o.c), AtEnd(s, o, ending).creators[o.c], RunsFor(o.c));
  }

  lemma Success(s: System, o: Order)
    requires Fits(s, o, NothingFails)
    ensures Next(Way(s, o, Length(o)), RecordSuccess(o.c)) == Some(AtEnd(s, o, NothingFails))
  {
    var r := Late(o, Marking, true, if o.hook then 1 else 0);
    WithTwice(s, o, r, RunsFor(o.c), Over(o, NothingFails, Finalizing, 0), Before(o, NothingFails));
  }

  /** The permit is given back: first the flag. */
  function Unflagged(s: System, o: Order, ending: Ending): System {
    With(s, o, Over(o, ending, Draining, 1), Before(o, ending).(permit := None), s.shared.tokens + 1, false)
  }

  /** Then the token. */
  function Repaid(s: System, o: Order, ending: Ending): System {
    With(s, o, Over(o, ending, Finalizing, 1), Before(o, ending).(permit := None), s.shared.tokens, false)
  }

  lemma FlagBack(s: System, o: Order, ending: Ending)
    requires Fits(s, o, ending) && GivesBack(ending)
    ensures Next(AtEnd(s, o, ending), Clear(o.c)) == Some(Unflagged(s, o, ending))
  {
    var i := Before(o, ending).(permit := None);
    WithTwice(s, o, Over(o, ending, Clearing, 0), Before(o, ending), Over(o, ending, Draining, 1), i);
  }

  lemma TokenBack(s: System, o: Order, ending: Ending)
    requires Fits(s, o, ending) && GivesBack(ending)
    ensures Next(Unflagged(s, o, ending), Drain(o.c)) == Some(Repaid(s, o, ending))
  {
    var i := Before(o, ending).(permit := None);
    WithTwice(s, o, Over(o, ending, Draining, 1), i, Over(o, ending, Finalizing, 1), i);
  }

  lemma GivenBack(s: System, o: Order, ending: Ending, steps: seq<Step>)
    requires Fits(s, o, ending) && GivesBack(ending) && Run(Next, s, steps) == Some(AtEnd(s, o, ending))
    ensures Run(Next, s, steps + ([Clear(o.c)] + [Drain(o.c)])) == Some(Repaid(s, o, ending))
  {
    FlagBack(s, o, ending);
    TokenBack(s, o, ending);
    Snoc(s, steps, AtEnd(s, o, ending), Clear(o.c), Unflagged(s, o, ending));
    Snoc(s, steps + [Clear(o.c)], Unflagged(s, o, ending), Drain(o.c), Repaid(s, o, ending));
    assert steps + [Clear(o.c)] + [Drain(o.c)] == steps + ([Clear(o.c)] + [Drain(o.c)]);
  }

  /** The state before the outcome is written into the entry. */
  function Settled(s: System, o: Order, ending: Ending): System {
    if GivesBack(ending) then Repaid(s, o, ending) else AtEnd(s, o, ending)
  }

  /** And after it. */
  function Done(s: System, o: Order, ending: Ending): System {
    With(s, o, Over(o, ending, Ended, if GivesBack(ending) then 1 else 0), Left(o, ending),
         s.shared.tokens + (if Commits(ending) then 1 else 0), Commits(ending))
  }

  lemma Finalized(s: System, o: Order, ending: Ending)
    requires Fits(s, o, ending)
    ensures Next(Settled(s, o, ending), Finalize(o.c)) == Some(Done(s, o, ending))
  {
    var clears := if GivesBack(ending) then 1 else 0;
    var i := if GivesBack(ending) then Before(o, ending).(permit := None) else Before(o, ending);
    WithTwice(s, o, Over(o, ending, Finalizing, clears), i, Over(o, ending, Ended, clears), Left(o, ending));
  }

  lemma DoneLeaves(s: System, o: Order, ending: Ending)
    requires Fits(s, o, ending)
    ensures Leaves(s, o, ending, Done(s, o, ending))
  {
  }

  /**
   * An undisturbed creation, for each of its endings: the entry it leaves says exactly what happened,
   * the permit is held if and only if it was committed, and then the machine runs.
   */
  lemma CreationLeaves(s: System, o: Order, ending: Ending) returns (t: System)
    requires Fits(s, o, ending)
    ensures Run(Next, s, StepsOf(o, ending)) == Some(t) && Leaves(s, o, ending, t)
  {
    var n := Reaches(o, ending);
    RunTo(s, o, n);
    if ending == NothingFails {
      Success(s, o);
    } else if Commits(ending) {
      LateFailure(s, o, ending);
    } else {
      EarlyEnd(s, o, ending);
    }
    Snoc(s, StepsTo(o, n), Way(s, o, n), LastStep(o, ending), AtEnd(s, o, ending));
    t := Done(s, o, ending);
    EndsAs(s, o, ending, StepsTo(o, n) + [LastStep(o, ending)]);
    DoneLeaves(s, o, ending);
  }

  lemma EndsAs(s: System, o: Order, ending: Ending, steps: seq<Step>)
    requires Fits(s, o, ending) && Run(Next, s, steps) == Some(AtEnd(s, o, ending))
    ensures Run(Next, s, steps + (if GivesBack(ending) then [Clear(o.c)] + [Drain(o.c)] else []) + [Finalize(o.c)])
            == Some(Done(s, o, ending))
  {
    var more := if GivesBack(ending) then [Clear(o.c)] + [Drain(o.c)] else [];
    if GivesBack(ending) {
      GivenBack(s, o, ending, steps);
    } else {
      assert steps + [] == steps;
    }
    Finalized(s, o, ending);
    Snoc(s, steps + more, Settled(s, o, ending), Finalize(o.c), Done(s, o, ending));
  }

  // ---------------------------------------------------------------- creations whose entry is gone

  /** A creation that finds its entry gone at the start ends and leaves no trace. */
  lemma ExpiredAtStart(s: System, c: CreatorId)
    requires AtStage(s, c, Beginning) && s.creators[c].key !in s.shared.vms
    ensures Run(Next, s, [StoreCancel(c)] + [Finalize(c)])
            == Some(s.(creators := s.creators[c := s.creators[c].(stage := Ended)]))
  {
    var r := s.creators[c];
    var u := Put(s, s.shared, c, r.(stage := Finalizing));
    PutTwice(s, s.shared, c, r.(stage := Finalizing), s.shared, r.(stage := Ended));
    assert Run(Next, s, []) == Some(s);
    Snoc(s, [], s, StoreCancel(c), u);
    Snoc(s, [] + [StoreCancel(c)], u, Finalize(c), Put(s, s.shared, c, r.(stage := Ended)));
    assert [] + [StoreCancel(c)] == [StoreCancel(c)];
  }

  /** One that finds it gone, or taken, when it marks gives its token back and ends with an error. */
  lemma RejectedAtMark(s: System, c: CreatorId)
    requires AtStage(s, c, Sent)
    requires s.creators[c].key in s.shared.vms ==> s.shared.vms[s.creators[c].key].permit.Some?
    ensures var n := Next(s, Mark(c));
            && n.Some? && n.value.shared == s.shared && AtStage(n.value, c, Rejecting)
            && (s.shared.tokens > 0 ==>
                  var m := Next(n.value, TakeBack(c));
                  && m.Some? && m.value.shared.vms == s.shared.vms && m.value.shared.tokens == s.shared.tokens - 1
                  && AtStage(m.value, c, Finalizing) && m.value.creators[c].err)
  {
  }

  // ---------------------------------------------------------------- deletions

  /** The steps of a deletion that nothing disturbs; a token is taken only for a permit that was held. */
  function DeletionOf(d: DeleterId, k: Key, held: bool): seq<Step> {
    [BeginDelete(d, k)] + [Stopped(d, true)] + [ClearByDelete(d)]
    + (if held then [DrainByDelete(d)] else [])
    + [DeleteEntry(d)]
  }

  /** What it leaves: no entry, the token back, the machine stopped, and all else as it was. */
  predicate Removes(s: System, d: DeleterId, k: Key, t: System)
    requires k in s.shared.vms
  {
    var i := s.shared.vms[k];
    && t.shared.vms == s.shared.vms - {k}
    && t.shared.tokens + (if i.permit.Some? then 1 else 0) == s.shared.tokens
    && t.running == (if i.instance.Some? then s.running - {i.instance.value} else s.running)
    && t.creators == s.creators && t.strays == s.strays && t.orphans == s.orphans
    && d in t.deleters && t.deleters == s.deleters[d := t.deleters[d]] && t.deleters[d].stage == Gone
  }

  /** The state once the machine is stopped, with the deletion at that stage. */
  function StoppedBy(s: System, d: DeleterId, k: Key, h: Shared, stage: Removal): System
    requires k in s.shared.vms
  {
    var i := s.shared.vms[k];
    PutDeleter(s, h, d, Deleter(k, stage, i.instance)).(
      running := if i.instance.Some? then s.running - {i.instance.value} else s.running)
  }

  lemma StopsFirst(s: System, d: DeleterId, k: Key)
    requires d !in s.deleters && k in s.shared.vms
    ensures Run(Next, s, [BeginDelete(d, k)] + [Stopped(d, true)]) == Some(StoppedBy(s, d, k, s.shared, Releasing))
  {
    var u := PutDeleter(s, s.shared, d, Removing(s, k, Stopping));
    PutDeleterTwice(s, s.shared, d, Removing(s, k, Stopping), s.shared, Removing(s, k, Releasing));
    assert Run(Next, s, []) == Some(s);
    Snoc(s, [], s, BeginDelete(d, k), u);
    assert [] + [BeginDelete(d, k)] == [BeginDelete(d, k)];
    Snoc(s, [BeginDelete(d, k)], u, Stopped(d, true), StoppedBy(s, d, k, s.shared, Releasing));
  }

  lemma ClearsHeld(s: System, d: DeleterId, k: Key)
    requires k in s.shared.vms && s.shared.vms[k].permit.Some?
    ensures Next(StoppedBy(s, d, k, s.shared, Releasing), ClearByDelete(d))
            == Some(StoppedBy(s, d, k, SetEntry(s.shared, k, s.shared.vms[k].(permit := None)), Repaying))
  {
    var l := s.shared.vms[k].instance;
    var g := SetEntry(s.shared, k, s.shared.vms[k].(permit := None));
    PutDeleterTwice(s, s.shared, d, Deleter(k, Releasing, l), g, Deleter(k, Repaying, l));
  }

  lemma DrainsHeld(s: System, d: DeleterId, k: Key, g: Shared)
    requires k in s.shared.vms && g.tokens > 0
    ensures Next(StoppedBy(s, d, k, g, Repaying), DrainByDelete(d)) == Some(StoppedBy(s, d, k, DrainSpec(g), Deleting))
  {
    var l := s.shared.vms[k].instance;
    PutDeleterTwice(s, g, d, Deleter(k, Repaying, l), DrainSpec(g), Deleter(k, Deleting, l));
  }

  /** A permit that is held is cleared and its token taken. */
  lemma RepaysHeld(s: System, d: DeleterId, k: Key, steps: seq<Step>)
    requires k in s.shared.vms && s.shared.vms[k].permit.Some? && s.shared.tokens > 0
    requires Run(Next, s, steps) == Some(StoppedBy(s, d, k, s.shared, Releasing))
    ensures var g := SetEntry(s.shared, k, s.shared.vms[k].(permit := None));
            Run(Next, s, steps + [ClearByDelete(d)] + [DrainByDelete(d)])
            == Some(StoppedBy(s, d, k, DrainSpec(g), Deleting))
  {
    var g := SetEntry(s.shared, k, s.shared.vms[k].(permit := None));
    ClearsHeld(s, d, k);
    DrainsHeld(s, d, k, g);
    Snoc(s, steps, StoppedBy(s, d, k, s.shared, Releasing), ClearByDelete(d), StoppedBy(s, d, k, g, Repaying));
    Snoc(s, steps + [ClearByDelete(d)], StoppedBy(s, d, k, g, Repaying), DrainByDelete(d),
         StoppedBy(s, d, k, DrainSpec(g), Deleting));
  }

  /** Without one nothing is taken. */
  lemma RepaysNothing(s: System, d: DeleterId, k: Key, steps: seq<Step>)
    requires k in s.shared.vms && s.shared.vms[k].permit.None?
    requires Run(Next, s, steps) == Some(StoppedBy(s, d, k, s.shared, Releasing))
    ensures Run(Next, s, steps + [ClearByDelete(d)]) == Some(StoppedBy(s, d, k, s.shared, Deleting))
  {
    var l := s.shared.vms[k].instance;
    PutDeleterTwice(s, s.shared, d, Deleter(k, Releasing, l), s.shared, Deleter(k, Deleting, l));
    Snoc(s, steps, StoppedBy(s, d, k, s.shared, Releasing), ClearByDelete(d), StoppedBy(s, d, k, s.shared, Deleting));
  }

  lemma RemovesLast(s: System, d: DeleterId, k: Key, g: Shared, steps: seq<Step>) returns (t: System)
    requires k in s.shared.vms && k in g.vms && g.vms[k].permit.None?
    requires g.vms == s.shared.vms[k := g.vms[k]]
    requires g.tokens + (if s.shared.vms[k].permit.Some? then 1 else 0) == s.shared.tokens
    requires Run(Next, s, steps) == Some(StoppedBy(s, d, k, g, Deleting))
    ensures Run(Next, s, steps + [DeleteEntry(d)]) == Some(t) && Removes(s, d, k, t)
  {
    var u := StoppedBy(s, d, k, g, Deleting);
    PutDeleterTwice(s, g, d, u.deleters[d], DeleteSpec(g, k), u.deleters[d].(stage := Gone));
    t := Next(u, DeleteEntry(d)).value;
    Snoc(s, steps, u, DeleteEntry(d), t);
    assert t.shared.vms == s.shared.vms - {k};
  }

  /** An undisturbed deletion stops the machine, gives the permit back and removes the entry. */
  lemma DeletionRemoves(s: System, d: DeleterId, k: Key) returns (t: System)
    requires d !in s.deleters && k in s.shared.vms && (s.shared.vms[k].permit.Some? ==> s.shared.tokens > 0)
    ensures Run(Next, s, DeletionOf(d, k, s.shared.vms[k].permit.Some?)) == Some(t) && Removes(s, d, k, t)
  {
    var h := s.shared;
    var steps := [BeginDelete(d, k)] + [Stopped(d, true)];
    StopsFirst(s, d, k);
    if h.vms[k].permit.Some? {
      RepaysHeld(s, d, k, steps);
      t := RemovesLast(s, d, k, DrainSpec(SetEntry(h, k, h.vms[k].(permit := None))),
                       steps + [ClearByDelete(d)] + [DrainByDelete(d)]);
    } else {
      RepaysNothing(s, d, k, steps);
      assert h.vms == h.vms[k := h.vms[k]];
      t := RemovesLast(s, d, k, h, steps + [ClearByDelete(d)]);
      assert steps + [ClearByDelete(d)] + [] == steps + [ClearByDelete(d)];
    }
  }
}
