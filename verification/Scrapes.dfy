/**
 * The failing-pod edge detector of the node metrics (GetStatsSummary in pkg/metrics/metrics.go).
 *
 * A lister that fails yields no pods, and two pods of one list have different UIDs.
 */
module Scrapes {
  type Uid = nat

  datatype Pod = Pod(uid: Uid, running: bool)

  /** How the goroutine of a pod ends: the scrape is cancelled, the statistics fail, or they come. */
  datatype Fate = CtxDone | Fails | Answers

  /** The outcome slot of a pod; Empty for a pod that does not run. */
  datatype Slot = Empty | Err(uid: Uid) | Stats(uid: Uid)

  datatype Event = Failing(uid: Uid) | Recovered(uid: Uid)

  datatype Scrape = Scrape(cancelled: bool, listFailed: bool, pods: seq<Pod>, fates: seq<Fate>)

  ghost predicate Proper(s: Scrape) {
    && |s.fates| == |s.pods|
    && (s.listFailed ==> s.pods == [])
    && forall i, j :: 0 <= i < j < |s.pods| ==> s.pods[i].uid != s.pods[j].uid
  }

  /** The scrape comes to its end: no goroutine of a running pod finds it cancelled. */
  ghost predicate Completes(s: Scrape)
    requires Proper(s)
  {
    !s.cancelled && forall i :: 0 <= i < |s.pods| && s.pods[i].running ==> s.fates[i] != CtxDone
  }

  /** The scrape completes and its list of pods can be trusted. */
  ghost predicate Good(s: Scrape)
    requires Proper(s)
  {
    Completes(s) && !s.listFailed
  }

  /** The running pods whose goroutine ended that way. */
  ghost function Ending(s: Scrape, f: Fate): set<Uid>
    requires Proper(s)
  {
    set i | 0 <= i < |s.pods| && s.pods[i].running && s.fates[i] == f :: s.pods[i].uid
  }

  function SlotOf(p: Pod, f: Fate): Slot {
    if !p.running || f == CtxDone then Empty else if f == Fails then Err(p.uid) else Stats(p.uid)
  }

  function SlotsOf(s: Scrape): seq<Slot>
    requires Proper(s)
  {
    seq(|s.pods|, i requires 0 <= i < |s.pods| => SlotOf(s.pods[i], s.fates[i]))
  }

  /** What is logged for the slots, given who was failing before. */
  function Logged(slots: seq<Slot>, before: set<Uid>): seq<Event> {
    if slots == [] then []
    else
      Logged(slots[..|slots| - 1], before) +
      match slots[|slots| - 1]
      case Empty => []
      case Err(u) => if u in before then [] else [Failing(u)]
      case Stats(u) => if u in before then [Recovered(u)] else []
  }

  /** The pods whose statistics are reported. */
  function Summary(slots: seq<Slot>): seq<Uid> {
    if slots == [] then []
    else Summary(slots[..|slots| - 1]) + if slots[|slots| - 1].Stats? then [slots[|slots| - 1].uid] else []
  }

  function Failures(slots: seq<Slot>): set<Uid> {
    if slots == [] then {}
    else Failures(slots[..|slots| - 1]) + if slots[|slots| - 1].Err? then {slots[|slots| - 1].uid} else {}
  }

  ghost function After(s: Scrape, before: set<Uid>): set<Uid>
    requires Proper(s)
  {
    if Good(s) then Ending(s, Fails) else before
  }

  ghost function LogOf(s: Scrape, before: set<Uid>): seq<Event>
    requires Proper(s)
  {
    if Completes(s) then Logged(SlotsOf(s), before) else []
  }

  /** The pod at that place of the list runs and its statistics came. */
  predicate Answered(s: Scrape, i: nat) {
    i < |s.pods| && i < |s.fates| && s.pods[i].running && s.fates[i] == Answers
  }

  /**
   * The places among the first n of the list whose pods are reported: in the order of the list, each
   * once, and all of those that answered.
   */
  ghost predicate IsSummaryOf(s: Scrape, n: nat, summary: seq<Uid>, places: seq<nat>) {
    && |places| == |summary|
    && (forall p, q :: 0 <= p < q < |places| ==> places[p] < places[q])
    && (forall p :: 0 <= p < |places| ==>
          places[p] < n && Answered(s, places[p]) && summary[p] == s.pods[places[p]].uid)
    && (forall i: nat :: i < n && Answered(s, i) ==> i in places)
  }

  ghost predicate IsSummary(s: Scrape, summary: seq<Uid>) {
    exists places :: IsSummaryOf(s, |s.pods|, summary, places)
  }

  lemma OneMoreReported(s: Scrape, n: nat, summary: seq<Uid>, places: seq<nat>)
    requires n < |s.pods| && Answered(s, n) && IsSummaryOf(s, n, summary, places)
    ensures IsSummaryOf(s, n + 1, summary + [s.pods[n].uid], places + [n])
  {
    forall i: nat | i < n + 1 && Answered(s, i)
      ensures i in places + [n]
    {
      assert i < n ==> i in places;
    }
  }

  lemma {:induction false} SummaryPlaces(s: Scrape, n: nat) returns (places: seq<nat>)
    requires Proper(s) && Completes(s) && n <= |s.pods|
    ensures IsSummaryOf(s, n, Summary(SlotsOf(s)[..n]), places)
  {
    if n == 0 {
      places := [];
    } else {
      places := SummaryPlaces(s, n - 1);
      var slots := SlotsOf(s);
      assert slots[..n][..n - 1] == slots[..n - 1];
      if Answered(s, n - 1) {
        OneMoreReported(s, n - 1, Summary(slots[..n - 1]), places);
        places := places + [n - 1];
      } else {
        assert Summary(slots[..n]) == Summary(slots[..n - 1]);
      }
    }
  }

  /** The summary of a completed scrape: the running pods whose statistics came, in the order of the list. */
  lemma SummaryOfAnswers(s: Scrape)
    requires Proper(s) && Completes(s)
    ensures IsSummary(s, Summary(SlotsOf(s)))
  {
    var places := SummaryPlaces(s, |s.pods|);
    assert SlotsOf(s)[..|s.pods|] == SlotsOf(s);
    assert IsSummaryOf(s, |s.pods|, Summary(SlotsOf(s)), places);
  }

  /** A pod is reported exactly when it answered, and no pod twice. */
  lemma ReportedIffAnswered(s: Scrape, summary: seq<Uid>)
    requires Proper(s) && IsSummary(s, summary)
    ensures forall u :: u in summary <==> u in Ending(s, Answers)
    ensures forall p, q :: 0 <= p < q < |summary| ==> summary[p] != summary[q]
  {
    var places :| IsSummaryOf(s, |s.pods|, summary, places);
    forall u | u in Ending(s, Answers)
      ensures u in summary
    {
      var i :| 0 <= i < |s.pods| && s.pods[i].running && s.fates[i] == Answers && s.pods[i].uid == u;
      assert Answered(s, i) && i in places;
      var p :| 0 <= p < |places| && places[p] == i;
      assert summary[p] == u;
    }
  }

  class MetricsProvider {
    var failingPods: set<Uid>

    constructor ()
      ensures failingPods == {}
    {
      failingPods := {};
    }

    /**
     * The goroutines, in any order. Each writes its own slot; the error of one that finds the scrape
     * cancelled is what Wait returns.
     */
    static method Collect(s: Scrape) returns (results: array<Slot>, ok: bool)
      requires Proper(s)
      ensures fresh(results) && results[..] == SlotsOf(s)
      ensures ok <==> forall i :: 0 <= i < |s.pods| && s.pods[i].running ==> s.fates[i] != CtxDone
    {
      results := new Slot[|s.pods|](i => Empty);
      ok := true;
      ghost var dispatched := set i | 0 <= i < |s.pods| && s.pods[i].running;
      var left := set i | 0 <= i < |s.pods| && s.pods[i].running;
      while left != {}
        invariant left <= dispatched
        invariant forall i :: 0 <= i < |s.pods| ==> results[i] == if i in left then Empty
            else SlotOf(s.pods[i], s.fates[i])
        invariant ok <==> forall i :: i in dispatched - left ==> s.fates[i] != CtxDone
        decreases |left|
      {
        var i :| i in left;
        left := left - {i};
        match s.fates[i] {
          case CtxDone => ok := false;
          case Fails => results[i] := Err(s.pods[i].uid);
          case Answers => results[i] := Stats(s.pods[i].uid);
        }
      }
    }

    /** None for a scrape that was cancelled. */
    method GetStatsSummary(s: Scrape) returns (summary: seq<Uid>, ok: bool, log: seq<Event>)
      requires Proper(s)
      modifies this
      ensures failingPods == After(s, old(failingPods))
      ensures ok <==> Completes(s)
      ensures log == LogOf(s, old(failingPods))
      ensures summary == if ok then Summary(SlotsOf(s)) else []
      ensures ok ==> IsSummary(s, summary)
    {
      summary, log := [], [];
      if s.cancelled {
        return [], false, [];
      }
      var results;
      results, ok := Collect(s);
      if !ok {
        return;
      }
      ghost var slots := SlotsOf(s);
      var failing: set<Uid> := {};
      for i := 0 to results.Length
        invariant results[..] == slots && failingPods == old(failingPods)
        invariant log == Logged(slots[..i], failingPods) && summary == Summary(slots[..i])
        invariant failing == Failures(slots[..i])
      {
        assert results[i] == slots[i];
        assert slots[..i + 1][..i] == slots[..i];
        match results[i] {
          case Empty =>
          case Stats(uid) =>
            if uid in failingPods {
              log := log + [Recovered(uid)];
            }
            summary := summary + [uid];
          case Err(uid) =>
            failing := failing + {uid};
            if uid !in failingPods {
              log := log + [Failing(uid)];
            }
        }
      }
      assert slots[..results.Length] == slots;
      FailedSlots(s);
      SummaryOfAnswers(s);
      if !s.listFailed {
        failingPods := failing;
      }
    }
  }

  lemma {:induction false} FailuresIff(slots: seq<Slot>, u: Uid)
    ensures u in Failures(slots) <==> Err(u) in slots
  {
    if slots != [] {
      FailuresIff(slots[..|slots| - 1], u);
      assert slots == slots[..|slots| - 1] + [slots[|slots| - 1]];
    }
  }

  lemma FailedSlots(s: Scrape)
    requires Proper(s)
    ensures Failures(SlotsOf(s)) == Ending(s, Fails)
  {
    forall u
      ensures u in Failures(SlotsOf(s)) <==> u in Ending(s, Fails)
    {
      FailuresIff(SlotsOf(s), u);
      ErrIff(s, u);
    }
  }

  lemma ErrIff(s: Scrape, u: Uid)
    requires Proper(s)
    ensures Err(u) in SlotsOf(s) <==> u in Ending(s, Fails)
  {
    if u in Ending(s, Fails) {
      var i :| 0 <= i < |s.pods| && s.pods[i].running && s.fates[i] == Fails && s.pods[i].uid == u;
      assert SlotsOf(s)[i] == Err(u);
    }
  }

  // ---------------------------------------------------------------- one scrape

  /** The events of one pod. */
  function Of(log: seq<Event>, u: Uid): seq<Event> {
    if log == [] then []
    else Of(log[..|log| - 1], u) + if log[|log| - 1].uid == u then [log[|log| - 1]] else []
  }

  lemma OfAppend(log: seq<Event>, e: Event, u: Uid)
    ensures Of(log + [e], u) == Of(log, u) + if e.uid == u then [e] else []
  {
    assert (log + [e])[..|log|] == log;
  }

  /** What a scrape has to say about one pod: that it enters the set, or that a member recovers. */
  ghost function EventOf(s: Scrape, before: set<Uid>, u: Uid): seq<Event>
    requires Proper(s)
  {
    if Completes(s) && u in Ending(s, Fails) && u !in before then [Failing(u)]
    else if Completes(s) && u in Ending(s, Answers) && u in before then [Recovered(u)]
    else []
  }

  ghost predicate Distinct(slots: seq<Slot>) {
    forall i, j :: 0 <= i < j < |slots| && !slots[i].Empty? && !slots[j].Empty? ==> slots[i].uid != slots[j].uid
  }

  /** What the slots say about one pod. */
  lemma {:induction false} LoggedOf(slots: seq<Slot>, before: set<Uid>, u: Uid)
    requires Distinct(slots)
    ensures Of(Logged(slots, before), u) ==
            if Err(u) in slots && u !in before then [Failing(u)]
            else if Stats(u) in slots && u in before then [Recovered(u)]
            else []
  {
    if slots != [] {
      var rest, last := slots[..|slots| - 1], slots[|slots| - 1];
      LoggedOf(rest, before, u);
      assert slots == rest + [last];
      assert Logged(rest, before) + [] == Logged(rest, before);
      if !last.Empty? {
        OfAppend(Logged(rest, before), Failing(last.uid), u);
        OfAppend(Logged(rest, before), Recovered(last.uid), u);
        if last.uid == u {
          forall i | 0 <= i < |rest|
            ensures rest[i] != Err(u) && rest[i] != Stats(u)
          {
            assert rest[i] == slots[i];
          }
        }
      }
    }
  }

  lemma StatsIff(s: Scrape, u: Uid)
    requires Proper(s)
    ensures Stats(u) in SlotsOf(s) <==> u in Ending(s, Answers)
  {
    if u in Ending(s, Answers) {
      var i :| 0 <= i < |s.pods| && s.pods[i].running && s.fates[i] == Answers && s.pods[i].uid == u;
      assert SlotsOf(s)[i] == Stats(u);
    }
  }

  /** A scrape logs a warning exactly for a pod that starts to fail, a recovery exactly for a member that reports. */
  lemma LoggedOncePerEdge(s: Scrape, before: set<Uid>, u: Uid)
    requires Proper(s)
    ensures Of(LogOf(s, before), u) == EventOf(s, before, u)
  {
    if Completes(s) {
      LoggedOf(SlotsOf(s), before, u);
      ErrIff(s, u);
      StatsIff(s, u);
      OneEnding(s, u);
    }
  }

  lemma OneEnding(s: Scrape, u: Uid)
    requires Proper(s)
    ensures !(u in Ending(s, Fails) && u in Ending(s, Answers))
  {
  }

  // ---------------------------------------------------------------- histories

  ghost predicate AllProper(history: seq<Scrape>) {
    forall s :: s in history ==> Proper(s)
  }

  /** failingPods after the scrapes of the history. */
  ghost function FailingAfter(history: seq<Scrape>): set<Uid>
    requires AllProper(history)
  {
    if history == [] then {}
    else
      var last := history[|history| - 1];
      After(last, FailingAfter(history[..|history| - 1]))
  }

  /** All that is logged for one pod over the history. */
  ghost function Reports(history: seq<Scrape>, u: Uid): seq<Event>
    requires AllProper(history)
  {
    if history == [] then []
    else
      var before, last := history[..|history| - 1], history[|history| - 1];
      Reports(before, u) + Of(LogOf(last, FailingAfter(before)), u)
  }

  /** The k-th scrape is the last good one. */
  ghost predicate LastGood(history: seq<Scrape>, k: nat)
    requires AllProper(history)
  {
    k < |history| && Good(history[k]) && forall j :: k < j < |history| ==> !Good(history[j])
  }

  /** failingPods is what failed in the last good scrape; cancelled and list-failed scrapes change nothing. */
  lemma {:induction false} FailingIsTheLastGoodScrape(history: seq<Scrape>)
    requires AllProper(history)
    ensures forall k: nat :: LastGood(history, k) ==> FailingAfter(history) == Ending(history[k], Fails)
    ensures (forall s :: s in history ==> !Good(s)) ==> FailingAfter(history) == {}
  {
    if history != [] {
      var before, last := history[..|history| - 1], history[|history| - 1];
      FailingIsTheLastGoodScrape(before);
      forall k: nat | LastGood(history, k)
        ensures FailingAfter(history) == Ending(history[k], Fails)
      {
        if k < |before| {
          assert !Good(last);
          assert LastGood(before, k);
        }
      }
    }
  }

  /** The pod was a member and the good scrape has no result of it: it is dropped without a word. */
  ghost predicate Drops(s: Scrape, before: set<Uid>, u: Uid)
    requires Proper(s)
  {
    Good(s) && u in before && u !in Ending(s, Fails) && u !in Ending(s, Answers)
  }

  ghost predicate Dropped(history: seq<Scrape>, u: Uid)
    requires AllProper(history)
  {
    history != [] &&
    var before, last := history[..|history| - 1], history[|history| - 1];
    Dropped(before, u) || Drops(last, FailingAfter(before), u)
  }

  /** The pod fails in a good scrape after it has been dropped. */
  ghost predicate Relapsed(history: seq<Scrape>, u: Uid)
    requires AllProper(history)
  {
    history != [] &&
    var before, last := history[..|history| - 1], history[|history| - 1];
    Relapsed(before, u) || (Dropped(before, u) && Good(last) && u in Ending(last, Fails))
  }

  /** A warning first, then recoveries and warnings in turn. */
  ghost predicate Alternates(log: seq<Event>) {
    && (log != [] ==> log[0].Failing?)
    && forall i :: 0 <= i < |log| - 1 ==> log[i].Failing? != log[i + 1].Failing?
  }

  predicate EndsFailing(log: seq<Event>) {
    log != [] && log[|log| - 1].Failing?
  }

  /** Before it relapses, the last thing said of a pod tells whether it is failing or was dropped. */
  ghost predicate InTurn(history: seq<Scrape>, u: Uid)
    requires AllProper(history)
  {
    && Alternates(Reports(history, u))
    && (EndsFailing(Reports(history, u)) <==> u in FailingAfter(history) || Dropped(history, u))
    && !(u in FailingAfter(history) && Dropped(history, u))
  }

  /** An event more keeps the turn exactly when it differs from the one before. */
  lemma OneMoreEvent(log: seq<Event>, e: Event)
    ensures Alternates(log + [e]) <==> Alternates(log) && (e.Failing? <==> log == [] || log[|log| - 1].Recovered?)
  {
    var more := log + [e];
    if Alternates(more) {
      forall i | 0 <= i < |log| - 1
        ensures log[i].Failing? != log[i + 1].Failing?
      {
        assert more[i].Failing? != more[i + 1].Failing?;
      }
      assert log != [] ==> more[|log| - 1].Failing? != more[|log| - 1 + 1].Failing?;
    }
  }

  lemma ReportsStep(history: seq<Scrape>, u: Uid)
    requires AllProper(history) && history != []
    ensures var before, last := history[..|history| - 1], history[|history| - 1];
            Reports(history, u) ==
            if EventOf(last, FailingAfter(before), u) == [] then Reports(before, u)
            else Reports(before, u) + [EventOf(last, FailingAfter(before), u)[0]]
  {
    LoggedOncePerEdge(history[|history| - 1], FailingAfter(history[..|history| - 1]), u);
  }

  lemma InTurnStep(history: seq<Scrape>, u: Uid)
    requires AllProper(history) && history != []
    requires InTurn(history[..|history| - 1], u) && !Relapsed(history, u)
    ensures InTurn(history, u)
  {
    var before, last := history[..|history| - 1], history[|history| - 1];
    ReportsStep(history, u);
    OneEnding(last, u);
    OneMoreEvent(Reports(before, u), Failing(u));
    OneMoreEvent(Reports(before, u), Recovered(u));
  }

  lemma RelapseStep(history: seq<Scrape>, u: Uid)
    requires AllProper(history) && history != []
    requires InTurn(history[..|history| - 1], u) && Dropped(history[..|history| - 1], u)
    requires Good(history[|history| - 1]) && u in Ending(history[|history| - 1], Fails)
    ensures !Alternates(Reports(history, u))
  {
    ReportsStep(history, u);
    OneMoreEvent(Reports(history[..|history| - 1], u), Failing(u));
  }

  lemma {:induction false} TurnsAreKept(history: seq<Scrape>, u: Uid)
    requires AllProper(history)
    ensures if Relapsed(history, u) then !Alternates(Reports(history, u)) else InTurn(history, u)
  {
    if history != [] {
      var before := history[..|history| - 1];
      TurnsAreKept(before, u);
      if Relapsed(before, u) {
        ReportsStep(history, u);
        OneMoreEvent(Reports(before, u), Failing(u));
        OneMoreEvent(Reports(before, u), Recovered(u));
      } else if Relapsed(history, u) {
        RelapseStep(history, u);
      } else {
        InTurnStep(history, u);
      }
    }
  }

  /** Over a history, the warnings and recoveries of a pod alternate exactly when it never relapses. */
  lemma AlternatesIff(history: seq<Scrape>, u: Uid)
    requires AllProper(history)
    ensures Alternates(Reports(history, u)) <==> !Relapsed(history, u)
  {
    TurnsAreKept(history, u);
  }

  const FailsOnce: Scrape := Scrape(false, false, [Pod(1, true)], [Fails])
  const Pauses: Scrape := Scrape(false, false, [Pod(1, false)], [Answers])

  lemma PauseDrops()
    ensures Good(FailsOnce) && Good(Pauses)
    ensures Ending(FailsOnce, Fails) == {1} && Ending(Pauses, Fails) == {} == Ending(Pauses, Answers)
  {
    assert FailsOnce.pods[0].running && FailsOnce.fates[0] == Fails;
  }

  /** A pod that fails, is not running for one scrape and fails again relapses: it is warned about twice. */
  lemma WarnedTwice()
    ensures AllProper([FailsOnce, Pauses, FailsOnce]) && Relapsed([FailsOnce, Pauses, FailsOnce], 1)
    ensures !Alternates(Reports([FailsOnce, Pauses, FailsOnce], 1))
  {
    var all := [FailsOnce, Pauses, FailsOnce];
    PauseDrops();
    assert all[..2] == [FailsOnce, Pauses] && all[..2][..1] == [FailsOnce] && [FailsOnce][..0] == [];
    assert Dropped(all[..2], 1);
    AlternatesIff(all, 1);
  }
}
