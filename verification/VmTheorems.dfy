/** What the permits and the creation pipeline of VmCreation guarantee, for every run. */
module VmTheorems {
  import opened Wrappers
  import opened VmPermits
  import opened VmCreation
  import opened Runs

  ghost predicate Reached(s: System) {
    Reachable(Next, Starts, s)
  }

  // ---------------------------------------------------------------- one creation

  /** How far a creation has come, at each stage. */
  predicate CreatorOk(r: Creator) {
    && (r.guard.committed <==> r.started)
    && (r.stage in {Probing, Hooking, Marking} ==> r.started)
    && (r.started ==> r.clears == 0 && r.stage in {Probing, Hooking, Marking, Finalizing, Ended})
    && r.clears <= 1
    && (r.clears > 0 ==> r.stage in {Draining, TryDraining, Finalizing, Ended})
    && (r.guard.released ==> r.stage in {Clearing, Draining, TryDraining, Finalizing, Ended})
    && (r.err ==> r.stage in {Clearing, Draining, TryDraining, Finalizing, Ended})
    && (r.stage in {Clearing, Draining, TryDraining} ==> r.err)
    && (r.probed ==> r.started)
    && (r.stage in {Hooking, Marking} ==> r.probed)
    && (r.stage == Probing ==> !r.probed)
    && (r.hookRuns > 0 ==> r.probed && r.hook)
    && (r.stage == Hooking ==> r.hook && r.hookRuns == 0)
    && (!r.probed ==> r.hookRuns == 0)
    && r.hookRuns <= 1
    && (r.stage == Marking ==> PostStartDone(r))
    && (r.started && !r.err && r.stage in {Finalizing, Ended} ==> PostStartDone(r))
  }

  /** The machine was started, the permit committed, the probe succeeded and the hook, if any, ran once. */
  predicate PostStartDone(r: Creator) {
    r.started && r.guard.committed && r.probed && r.hookRuns == (if r.hook then 1 else 0)
  }

  /** The creation is one of this key. */
  predicate Keyed(s: System, k: Key, c: CreatorId) {
    c in s.creators && s.creators[c].key == k
  }

  /** The creation has done all that a marker stands for, and without an error. */
  predicate Earned(s: System, c: CreatorId) {
    c in s.creators && PostStartDone(s.creators[c]) && !s.creators[c].err && s.creators[c].stage in {Finalizing, Ended}
  }

  /** The creation has ended with an error. */
  predicate Failed(s: System, c: CreatorId) {
    c in s.creators && s.creators[c].err && s.creators[c].stage == Ended
  }

  /** Whatever stands in an entry was written by a creation of its key that was entitled to it. */
  predicate EntryOk(s: System, k: Key)
    requires k in s.shared.vms
  {
    var i := s.shared.vms[k];
    && Keyed(s, k, i.owner)
    && (i.permit.Some? ==> Keyed(s, k, i.permit.value))
    && (i.instance.Some? ==> Keyed(s, k, i.instance.value))
    && (i.markedBy.Some? ==> Keyed(s, k, i.markedBy.value) && Earned(s, i.markedBy.value))
    && (i.failedBy.Some? ==> Keyed(s, k, i.failedBy.value) && Failed(s, i.failedBy.value))
  }

  ghost predicate Inv(s: System) {
    && Ledger(s)
    && (forall c :: c in s.creators ==> CreatorOk(s.creators[c]))
    && (forall k :: k in s.shared.vms ==> EntryOk(s, k))
  }

  /** A step leaves every creation but its own as it was. */
  lemma OthersStay(s: System, e: Step, c: CreatorId)
    requires Next(s, e).Some? && (!ByCreator(e) || c != e.c)
    ensures c in Next(s, e).value.creators <==> c in s.creators
    ensures c in s.creators ==> Next(s, e).value.creators[c] == s.creators[c]
  {
  }

  lemma QuietMoverOk(s: System, e: Step)
    requires Next(s, e).Some? && ByCreator(e) && !MovesToken(e) && !MovesFlag(e) && !WritesEntry(e)
    requires e.c in s.creators && CreatorOk(s.creators[e.c])
    ensures e.c in Next(s, e).value.creators && CreatorOk(Next(s, e).value.creators[e.c])
  {
  }

  lemma PermitMoverOk(s: System, e: Step)
    requires Next(s, e).Some? && (MovesToken(e) || MovesFlag(e))
    requires e.c in s.creators && CreatorOk(s.creators[e.c])
    ensures e.c in Next(s, e).value.creators && CreatorOk(Next(s, e).value.creators[e.c])
  {
  }

  lemma WriterOk(s: System, e: Step)
    requires Next(s, e).Some? && WritesEntry(e) && e.c in Next(s, e).value.creators
    requires e.c in s.creators ==> CreatorOk(s.creators[e.c])
    ensures CreatorOk(Next(s, e).value.creators[e.c])
  {
  }

  lemma CreatorStep(s: System, e: Step, c: CreatorId)
    requires Next(s, e).Some?
    requires c in s.creators ==> CreatorOk(s.creators[c])
    requires c in Next(s, e).value.creators
    ensures CreatorOk(Next(s, e).value.creators[c])
  {
    if !ByCreator(e) || c != e.c {
      OthersStay(s, e, c);
    } else if WritesEntry(e) {
      WriterOk(s, e);
    } else if MovesToken(e) || MovesFlag(e) {
      PermitMoverOk(s, e);
    } else {
      QuietMoverOk(s, e);
    }
  }

  /** What a creation has decided stays decided. */
  predicate Onward(r: Creator, q: Creator) {
    && q.key == r.key
    && q.hook == r.hook
    && (r.stage == Ended ==> q == r)
    && (r.stage == Finalizing ==> q == r || q == r.(stage := Ended))
  }

  lemma CreatorsOnward(s: System, e: Step, c: CreatorId)
    requires Next(s, e).Some? && c in s.creators
    ensures c in Next(s, e).value.creators && Onward(s.creators[c], Next(s, e).value.creators[c])
  {
    if !ByCreator(e) || c != e.c {
      OthersStay(s, e, c);
    }
  }

  /** What stood still stands, or the step says who wrote. */
  predicate Moves(i: Option<CreatorId>, j: Option<CreatorId>, wrote: bool, e: Step) {
    j == i || (wrote && ByCreator(e) && j == Some(e.c))
  }

  /** One entry across one step. */
  predicate EntryMoves(s: System, e: Step, i: Entry, j: Entry) {
    && j.owner == i.owner
    && (j.permit.None? || Moves(i.permit, j.permit, e.Mark?, e))
    && Moves(i.instance, j.instance, e.BuildEnds?, e)
    && Moves(i.markedBy, j.markedBy, e.RecordSuccess?, e)
    && Moves(i.failedBy, j.failedBy, e.Finalize? && e.c in s.creators && s.creators[e.c].err, e)
  }

  /** Only its own creations write into an entry. */
  lemma EntriesMove(s: System, e: Step, k: Key)
    requires Next(s, e).Some? && k in Next(s, e).value.shared.vms
    ensures var t := Next(s, e).value;
            if k in s.shared.vms then
              && EntryMoves(s, e, s.shared.vms[k], t.shared.vms[k])
              && (s.shared.vms[k] == t.shared.vms[k] || !ByCreator(e) || Keyed(s, k, e.c))
            else e.Create? && e.key == k && e.c !in s.creators && t.shared.vms[k] == NewEntry(e.c) && Keyed(t, k, e.c)
  {
  }

  /** A creation that recorded its success has earned the marker; one that finalized an error has failed. */
  lemma Entitled(s: System, e: Step)
    requires Next(s, e).Some? && ByCreator(e)
    requires e.c in s.creators ==> CreatorOk(s.creators[e.c])
    ensures e.RecordSuccess? ==> Earned(Next(s, e).value, e.c)
    ensures e.Finalize? && e.c in s.creators && s.creators[e.c].err ==> Failed(Next(s, e).value, e.c)
  {
  }

  lemma StillEntitled(s: System, e: Step, k: Key, c: CreatorId)
    requires Next(s, e).Some?
    ensures Keyed(s, k, c) ==> Keyed(Next(s, e).value, k, c)
    ensures Earned(s, c) ==> Earned(Next(s, e).value, c)
    ensures Failed(s, c) ==> Failed(Next(s, e).value, c)
  {
    if c in s.creators {
      CreatorsOnward(s, e, c);
    }
  }

  lemma EntryStep(s: System, e: Step, k: Key)
    requires Next(s, e).Some? && k in Next(s, e).value.shared.vms
    requires k in s.shared.vms ==> EntryOk(s, k)
    requires ByCreator(e) && e.c in s.creators ==> CreatorOk(s.creators[e.c])
    ensures EntryOk(Next(s, e).value, k)
  {
    EntriesMove(s, e, k);
    if k in s.shared.vms {
      var i := s.shared.vms[k];
      StillEntitled(s, e, k, i.owner);
      if i.permit.Some? { StillEntitled(s, e, k, i.permit.value); }
      if i.instance.Some? { StillEntitled(s, e, k, i.instance.value); }
      if i.markedBy.Some? { StillEntitled(s, e, k, i.markedBy.value); }
      if i.failedBy.Some? { StillEntitled(s, e, k, i.failedBy.value); }
      if ByCreator(e) {
        StillEntitled(s, e, k, e.c);
        Entitled(s, e);
      }
    }
  }

  lemma InvStep(s: System, e: Step)
    requires Inv(s) && Next(s, e).Some?
    ensures Inv(Next(s, e).value)
  {
    LedgerStep(s, e);
    var t := Next(s, e).value;
    forall c | c in t.creators
      ensures CreatorOk(t.creators[c])
    {
      CreatorStep(s, e, c);
    }
    forall k | k in t.shared.vms
      ensures EntryOk(t, k)
    {
      EntryStep(s, e, k);
    }
  }

  lemma StartInv(s: System)
    requires Starts(s)
    ensures Inv(s)
  {
    assert Flagged(s.shared) == {} && Unmarked(s.creators) == {};
    assert Owing(s.creators) == {} && OwingDeletes(s.deleters) == {};
  }

  lemma ReachedInv(s: System)
    requires Reached(s)
    ensures Inv(s)
  {
    forall start | Starts(start)
      ensures Inv(start)
    {
      StartInv(start);
    }
    forall t, e | Inv(t) && Next(t, e).Some?
      ensures Inv(Next(t, e).value)
    {
      InvStep(t, e);
    }
    Invariant(Next, Starts, Inv, s);
  }

  // ---------------------------------------------------------------- permits

  /**
   * The exact books of the permit channel, in every run: a token in it or taken from it by the
   * missing-entry branch is one for an entry that holds a permit, a creation that sent and has not
   * marked, a receive still owed, or an entry deleted with its flag set.
   */
  lemma PermitLedger(s: System)
    requires Reached(s)
    ensures s.shared.tokens + s.strays == |Flagged(s.shared)| + |Unmarked(s.creators)| + Debts(s) + s.orphans
    ensures s.shared.tokens <= MaxVirtualMachines
  {
    ReachedInv(s);
  }

  /** A guard runs releasePermit at most once, and never after Commit. */
  lemma GuardReleasesOnce(s: System, c: CreatorId, e: Step)
    requires Reached(s) && c in s.creators && Next(s, e).Some?
    ensures s.creators[c].clears <= 1
    ensures s.creators[c].guard.committed ==> s.creators[c].clears == 0
    ensures e == Clear(c) ==> s.creators[c].clears == 0 && !s.creators[c].guard.committed
  {
    ReachedInv(s);
    assert CreatorOk(s.creators[c]);
    if e == Clear(c) {
      ClearsAtClearing(s, c);
    }
  }

  lemma ClearsAtClearing(s: System, c: CreatorId)
    requires Next(s, Clear(c)).Some?
    ensures AtStage(s, c, Clearing)
  {
  }

  // ---------------------------------------------------------------- readiness

  /**
   * The hook runs at most once, after a successful probe, and the probe only after Start and Commit;
   * a creation that ended without error after it started has done all of it.
   */
  lemma HookRunsOnceAfterProbe(s: System, c: CreatorId)
    requires Reached(s) && c in s.creators
    ensures s.creators[c].hookRuns <= 1
    ensures s.creators[c].hookRuns == 1 ==> s.creators[c].hook && s.creators[c].probed
    ensures s.creators[c].probed ==> s.creators[c].started && s.creators[c].guard.committed
    ensures s.creators[c].stage == Ended && s.creators[c].started && !s.creators[c].err ==> PostStartDone(s.creators[c])
  {
    ReachedInv(s);
  }

  /**
   * Whoever marked an entry has started its machine, committed its permit, probed it and run its hook
   * without an error; whoever put an error into an entry has ended with one. So an entry that holds
   * both got them from two creations. Both are creations of the entry's key.
   */
  lemma ReadinessIsEarned(s: System, k: Key)
    requires Reached(s) && k in s.shared.vms
    ensures var i := s.shared.vms[k];
            && (forall c :: i.markedBy == Some(c) ==> Keyed(s, k, c) && Earned(s, c))
            && (forall c :: i.failedBy == Some(c) ==> Keyed(s, k, c) && Failed(s, c))
            && (i.markedBy.Some? && i.failedBy.Some? ==> i.markedBy != i.failedBy)
  {
    ReachedInv(s);
    assert EntryOk(s, k);
  }

  /**
   * While an entry lives it stays failed once failed and marked once marked, and an entry that is gone
   * does not return.
   */
  ghost predicate EntriesLast(s: System, t: System) {
    && s.creators.Keys <= t.creators.Keys
    && (forall k, o :: o in s.creators && k in t.shared.vms && t.shared.vms[k].owner == o ==>
          && k in s.shared.vms && s.shared.vms[k].owner == o
          && (s.shared.vms[k].failedBy.Some? ==> t.shared.vms[k].failedBy.Some?)
          && (s.shared.vms[k].markedBy.Some? ==> t.shared.vms[k].markedBy.Some?))
  }

  lemma LastStep(s: System, e: Step)
    requires Next(s, e).Some?
    ensures EntriesLast(s, Next(s, e).value)
  {
    var t := Next(s, e).value;
    forall c | c in s.creators
      ensures c in t.creators
    {
      CreatorsOnward(s, e, c);
    }
    forall k, o | o in s.creators && k in t.shared.vms && t.shared.vms[k].owner == o
      ensures k in s.shared.vms && EntryMoves(s, e, s.shared.vms[k], t.shared.vms[k])
    {
      EntriesMove(s, e, k);
    }
  }

  lemma EntriesLastAlways(s: System, steps: seq<Step>, t: System)
    requires Run(Next, s, steps) == Some(t)
    ensures EntriesLast(s, t)
  {
    forall u, e | Next(u, e).Some?
      ensures EntriesLast(u, Next(u, e).value)
    {
      LastStep(u, e);
    }
    forall u, v, w | EntriesLast(u, v) && EntriesLast(v, w)
      ensures EntriesLast(u, w)
    {
    }
    Ordered(Next, u => true, EntriesLast, s, steps);
  }

  /** Once an entry has failed or has been marked, it is so for as long as it is there. */
  lemma OutcomesLast(s: System, steps: seq<Step>, t: System, k: Key)
    requires Reached(s) && Run(Next, s, steps) == Some(t)
    requires k in t.shared.vms && t.shared.vms[k].owner in s.creators
    ensures k in s.shared.vms && s.shared.vms[k].owner == t.shared.vms[k].owner
    ensures s.shared.vms[k].failedBy.Some? ==> t.shared.vms[k].failedBy.Some?
    ensures s.shared.vms[k].markedBy.Some? ==> t.shared.vms[k].markedBy.Some?
  {
    EntriesLastAlways(s, steps, t);
  }
}
