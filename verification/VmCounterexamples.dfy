/** Runs of VmCreation in which the bounds on permits and machines or the readiness rule fail. */
module VmCounterexamples {
  import opened Wrappers
  import opened VmPermits
  import opened VmCreation
  import opened VmTheorems
  import opened VmPieces
  import opened VmCapacity
  import opened VmDiscipline
  import opened Runs

  const Nothing := System(Shared(0, map[]), map[], map[], {}, 0, 0)

  /** A set that holds the start and whatever a step leads to. */
  ghost predicate Reachables(r: System -> bool) {
    Closed(Next, r) && ClosedByCreators(r) && r(Nothing)
  }

  lemma ReachedIsClosed()
    ensures Reachables(Reached)
  {
    ReachableFromStart(Next, Starts, Nothing);
    forall s, e | Reached(s) && Next(s, e).Some?
      ensures Reached(Next(s, e).value)
    {
      ReachableByStep(Next, Starts, s, e);
    }
  }

  // ---------------------------------------------------------------- tokens taken from others

  /** The guard of a failed creation has run: the token is still to take. */
  function Failing(k: Key, stage: Stage, clears: nat): Creator {
    At(k, stage).(err := true, guard := ReleaseSpec(NewGuard).0, clears := clears)
  }

  /** A creation whose entry is gone fails while it builds: its guard takes whatever token is there. */
  lemma FailsUnseen(r: System -> bool, s: System, c: CreatorId, k: Key)
    requires ClosedByCreators(r) && r(s) && c in s.creators && s.creators[c] == At(k, Building) && k !in s.shared.vms
    requires s.shared.tokens > 0
    ensures r(Put(s, DrainSpec(s.shared), c, Failing(k, Finalizing, 1)).(strays := s.strays + 1))
  {
    var h := s.shared;
    var s1, s2 := Put(s, h, c, Failing(k, Clearing, 0)), Put(s, h, c, Failing(k, TryDraining, 1));
    Goes(r, s, BuildEnds(c, false), s1);
    assert r(s2) by {
      PutTwice(s, h, c, Failing(k, Clearing, 0), h, Failing(k, TryDraining, 1));
      Goes(r, s1, Clear(c), s2);
    }
    PutTwice(s, h, c, Failing(k, TryDraining, 1), DrainSpec(h), Failing(k, Finalizing, 1));
    Goes(r, s2, TryDrain(c), Put(s, DrainSpec(h), c, Failing(k, Finalizing, 1)).(strays := s.strays + 1));
  }

  /** What is left after a failing creation took the token of another machine. */
  ghost predicate TokenTaken(s: System) {
    && s.strays == 1 && s.orphans == 0 && s.shared.tokens == 1
    && s.shared.vms == map[1 := HeldBy(1), 2 := HeldBy(2)]
    && s.deleters.Keys == {0} && s.creators.Keys == {0, 1, 2}
  }

  /**
   * A creation is deleted while it builds, two others take the permits, and then it fails: its guard
   * finds no entry and takes a token that stands for one of the others.
   */
  lemma TokenIsStolen(r: System -> bool) returns (s: System)
    requires Reachables(r)
    ensures r(s) && TokenTaken(s)
  {
    s := Nothing;
    Acquires(r, s, 0, 0);
    s := Acquired(s, 0, 0);
    Deletes(r, s, 0, 0);
    s := Deleted(s, 0, 0);
    assert s.shared.vms == map[] && s.shared.tokens == 0;
    Acquires(r, s, 1, 1);
    s := Acquired(s, 1, 1);
    Acquires(r, s, 2, 2);
    s := Acquired(s, 2, 2);
    FailsUnseen(r, s, 0, 0);
    s := Put(s, DrainSpec(s.shared), 0, Failing(0, Finalizing, 1)).(strays := 1);
  }

  lemma ThreeHold(r: System -> bool) returns (s: System)
    requires Reachables(r)
    ensures r(s) && |Flagged(s.shared)| == 3
  {
    s := TokenIsStolen(r);
    Acquires(r, s, 3, 3);
    s := Acquired(s, 3, 3);
    assert Flagged(s.shared) == {1, 2, 3};
  }

  /** So three entries can hold one of the two permits. */
  lemma CapacityCanBeExceeded() returns (s: System)
    ensures Reached(s) && |Flagged(s.shared)| == 3 > MaxVirtualMachines
  {
    ReachedIsClosed();
    s := ThreeHold(Reached);
  }

  lemma ReceiveBlocks(r: System -> bool) returns (s: System)
    requires Reachables(r)
    ensures r(s) && AtRemoval(s, 2, Repaying) && s.shared.tokens == 0
  {
    s := TokenIsStolen(r);
    Deletes(r, s, 1, 1);
    s := Deleted(s, 1, 1);
    Clears(r, s, 2, 2);
    s := ClearedBy(s, 2, 2);
  }

  /** And a delete can wait for a token that is not there. */
  lemma DrainCanBlock() returns (s: System)
    ensures Reached(s) && AtRemoval(s, 2, Repaying) && Next(s, DrainByDelete(2)).None?
  {
    ReachedIsClosed();
    s := ReceiveBlocks(Reached);
  }

  /** A second delete of a key finds its entry gone and takes whatever token is there. */
  lemma DeletesUnseen(r: System -> bool, s: System, d: DeleterId, k: Key)
    requires Closed(Next, r) && r(s) && d in s.deleters && s.deleters[d] == Deleter(k, Stopping, None)
    requires k !in s.shared.vms && s.shared.tokens > 0
    ensures r(PutDeleter(s, DrainSpec(s.shared), d, Deleter(k, Deleting, None)).(strays := s.strays + 1))
  {
    var h := s.shared;
    PutDeleterTwice(s, h, d, Deleter(k, Releasing, None), h, Deleter(k, TryRepaying, None));
    PutDeleterTwice(s, h, d, Deleter(k, TryRepaying, None), DrainSpec(h), Deleter(k, Deleting, None));
    Then(Next, r, s, Stopped(d, true), PutDeleter(s, h, d, Deleter(k, Releasing, None)));
    Then(Next, r, PutDeleter(s, h, d, Deleter(k, Releasing, None)), ClearByDelete(d),
        PutDeleter(s, h, d, Deleter(k, TryRepaying, None)));
    Then(Next, r, PutDeleter(s, h, d, Deleter(k, TryRepaying, None)), TryDrainByDelete(d),
         PutDeleter(s, DrainSpec(h), d, Deleter(k, Deleting, None)).(strays := s.strays + 1));
  }

  lemma OverlappedDelete(r: System -> bool) returns (s: System)
    requires Reachables(r)
    ensures r(s) && s.strays == 1 && s.orphans == 0 && s.shared == Shared(0, map[1 := HeldBy(1)])
  {
    s := Nothing;
    Acquires(r, s, 0, 0);
    s := Acquired(s, 0, 0);
    Then(Next, r, s, BeginDelete(1, 0), PutDeleter(s, s.shared, 1, Deleter(0, Stopping, None)));
    s := PutDeleter(s, s.shared, 1, Deleter(0, Stopping, None));
    Deletes(r, s, 0, 0);
    s := Deleted(s, 0, 0);
    assert s.shared == Shared(0, map[]);
    Acquires(r, s, 1, 1);
    s := Acquired(s, 1, 1);
    DeletesUnseen(r, s, 1, 0);
    s := PutDeleter(s, DrainSpec(s.shared), 1, Deleter(0, Deleting, None)).(strays := 1);
  }

  /** Two overlapping deletes of one key take a token too many in the same way. */
  lemma OverlappingDeletesSteal() returns (s: System)
    ensures Reached(s) && s.strays == 1 && s.orphans == 0 && s.shared.tokens == 0 && |Flagged(s.shared)| == 1
  {
    ReachedIsClosed();
    s := OverlappedDelete(Reached);
    assert Flagged(s.shared) == {1};
  }

  // ---------------------------------------------------------------- a token taken back

  /** The state in which a delete of key 0 has only the entry to remove, with the creation still to send. */
  const Removable: System :=
    PutDeleter(Put(Nothing, SetEntry(Nothing.shared, 0, Pulled(0)), 0, At(0, Acquiring)),
               SetEntry(Nothing.shared, 0, Pulled(0)), 0, Deleter(0, Deleting, None))

  lemma RemovableIsReached(r: System -> bool)
    requires Reachables(r)
    ensures r(Removable)
  {
    Arrives(r, Nothing, 0, 0);
    var s := Put(Nothing, SetEntry(Nothing.shared, 0, Pulled(0)), 0, At(0, Acquiring));
    StopsNothing(r, s, 0, 0);
    PutDeleterTwice(s, s.shared, 0, Removing(s, 0, Releasing), s.shared, Deleter(0, Deleting, None));
    Then(Next, r, PutDeleter(s, s.shared, 0, Removing(s, 0, Releasing)), ClearByDelete(0), Removable);
  }

  /** The state in which that creation has marked the entry after all, and the entry is gone with its flag. */
  const Orphaned: System :=
    System(Shared(1, map[]), map[0 := At(0, Building)], map[0 := Deleter(0, Gone, None)], {}, 0, 1)

  lemma OrphanedIsReached(r: System -> bool)
    requires Reachables(r)
    ensures r(Orphaned)
  {
    RemovableIsReached(r);
    var s := Removable;
    var h1 := SendSpec(s.shared);
    var h2 := SetEntry(h1, 0, HeldBy(0));
    PutTwice(s, h1, 0, At(0, Sent), h2, At(0, Building));
    Goes(r, s, Send(0), Put(s, h1, 0, At(0, Sent)));
    Goes(r, Put(s, h1, 0, At(0, Sent)), Mark(0), Put(s, h2, 0, At(0, Building)));
    var t := Put(s, h2, 0, At(0, Building));
    assert 0 in Flagged(t.shared);
    var u := PutDeleter(t, DeleteSpec(h2, 0), 0, Deleter(0, Gone, None)).(orphans := 1);
    Then(Next, r, t, DeleteEntry(0), u);
    assert u.shared.vms == map[] && u.creators == Orphaned.creators && u.deleters == Orphaned.deleters;
  }

  lemma OwnTokenBack(r: System -> bool) returns (s: System)
    requires Reachables(r)
    ensures r(s) && s.strays == 1 && s.orphans == 1 && s.shared == Shared(0, map[])
  {
    OrphanedIsReached(r);
    FailsUnseen(r, Orphaned, 0, 0);
    s := Put(Orphaned, DrainSpec(Orphaned.shared), 0, Failing(0, Finalizing, 1)).(strays := 1);
  }

  /**
   * What the missing-entry branch is for: the entry was deleted after its creation marked it, and the
   * failing creation takes its own token back. Nothing was taken from anyone.
   */
  lemma OwnTokenIsTakenBack() returns (s: System)
    ensures Reached(s) && s.strays == 1 && s.orphans == 1 && s.shared == Shared(0, map[])
    ensures !PermitsCanExceed(s)
  {
    ReachedIsClosed();
    s := OwnTokenBack(Reached);
    PermitsCanExceedIff(s);
  }

  // ---------------------------------------------------------------- machines without a permit

  lemma OrderlyIsClosedByCreators(r: System -> bool)
    requires Closed(OrderlyNext, r)
    ensures ClosedByCreators(r)
  {
    forall s, e | r(s) && ByCreator(e) && Next(s, e).Some?
      ensures r(Next(s, e).value)
    {
      assert OrderlyNext(s, e) == Next(s, e);
    }
  }

  /** A delete has only the entry to remove, and the creation of that entry still builds. */
  function Cleared(s: System): System
    requires 0 in s.shared.vms && s.shared.tokens > 0
  {
    PutDeleter(s, DrainSpec(SetEntry(s.shared, 0, Pulled(0))), 0, Deleter(0, Deleting, None))
  }

  lemma StoppedOrderly(r: System -> bool)
    requires Closed(OrderlyNext, r) && r(Acquired(Nothing, 0, 0))
    ensures var s := Acquired(Nothing, 0, 0); r(PutDeleter(s, s.shared, 0, Deleter(0, Releasing, None)))
  {
    var s := Acquired(Nothing, 0, 0);
    var h := s.shared;
    PutDeleterTwice(s, h, 0, Deleter(0, Stopping, None), h, Deleter(0, Releasing, None));
    Then(OrderlyNext, r, s, BeginDelete(0, 0), PutDeleter(s, h, 0, Deleter(0, Stopping, None)));
    Then(OrderlyNext, r, PutDeleter(s, h, 0, Deleter(0, Stopping, None)), Stopped(0, true),
         PutDeleter(s, h, 0, Deleter(0, Releasing, None)));
  }

  lemma ClearedOrderly(r: System -> bool)
    requires Closed(OrderlyNext, r) && r(Acquired(Nothing, 0, 0))
    ensures r(Cleared(Acquired(Nothing, 0, 0)))
  {
    var s := Acquired(Nothing, 0, 0);
    var h, g := s.shared, SetEntry(s.shared, 0, Pulled(0));
    StoppedOrderly(r);
    PutDeleterTwice(s, h, 0, Deleter(0, Releasing, None), g, Deleter(0, Repaying, None));
    PutDeleterTwice(s, g, 0, Deleter(0, Repaying, None), DrainSpec(g), Deleter(0, Deleting, None));
    Then(OrderlyNext, r, PutDeleter(s, h, 0, Deleter(0, Releasing, None)), ClearByDelete(0),
         PutDeleter(s, g, 0, Deleter(0, Repaying, None)));
    Then(OrderlyNext, r, PutDeleter(s, g, 0, Deleter(0, Repaying, None)), DrainByDelete(0), Cleared(s));
  }

  /** The first machine runs after its entry and its permit are gone. */
  ghost predicate Adrift(s: System) {
    && s.shared == Shared(0, map[]) && s.running == {0} && s.strays == 0
    && s.creators.Keys == {0}
  }

  lemma RunsAdrift(r: System -> bool) returns (s: System)
    requires Closed(OrderlyNext, r) && r(Nothing)
    ensures r(s) && Adrift(s)
  {
    OrderlyIsClosedByCreators(r);
    Acquires(r, Nothing, 0, 0);
    ClearedOrderly(r);
    var t := Cleared(Acquired(Nothing, 0, 0));
    StartsUp(r, t, 0, 0);
    t := StartedUp(t, 0, 0);
    s := PutDeleter(t, DeleteSpec(t.shared, 0), 0, Deleter(0, Gone, None));
    assert Flagged(t.shared) == {};
    Then(OrderlyNext, r, t, DeleteEntry(0), s);
    assert s.shared.vms == map[];
  }

  lemma ThreeRun(r: System -> bool) returns (s: System)
    requires Closed(OrderlyNext, r) && r(Nothing)
    ensures r(s) && s.running == {0, 1, 2} && s.strays == 0
  {
    OrderlyIsClosedByCreators(r);
    s := RunsAdrift(r);
    Launches(r, s, 1, 1);
    s := Launched(s, 1, 1);
    Launches(r, s, 2, 2);
    s := Launched(s, 2, 2);
  }

  /**
   * A delete loads an entry that holds no instance yet, gives its permit back, and the creation then
   * starts its machine. Orderly deletes do not prevent it: three machines run.
   */
  lemma OrderlyRunsOverrun() returns (s: System)
    ensures Reachable(OrderlyNext, Starts, s) && |s.running| == 3 > MaxVirtualMachines && s.strays == 0
  {
    ReachableFromStart(OrderlyNext, Starts, Nothing);
    ReachableIsClosed(OrderlyNext, Starts);
    s := ThreeRun(t => Reachable(OrderlyNext, Starts, t));
  }

  // ---------------------------------------------------------------- stale creations

  lemma FirstDownloads(r: System -> bool)
    requires Reachables(r)
    ensures r(Put(Nothing, SetEntry(Nothing.shared, 0, Pulled(0)), 0, At(0, Downloading)))
  {
    var begun := Put(Nothing, SetEntry(Nothing.shared, 0, NewEntry(0)), 0, At(0, Beginning));
    var t := Put(Nothing, SetEntry(Nothing.shared, 0, Pulled(0)), 0, At(0, Downloading));
    Goes(r, Nothing, Create(0, 0, false), begun);
    SetTwice(Nothing.shared, 0, NewEntry(0), Pulled(0));
    PutTwice(Nothing, begun.shared, 0, At(0, Beginning), t.shared, At(0, Downloading));
    Goes(r, begun, StoreCancel(0), t);
  }

  /** A creation is deleted while its image is downloading, and the entry goes with it. */
  lemma DeletedWhileDownloading(r: System -> bool) returns (s: System)
    requires Reachables(r)
    ensures r(s) && s.shared == Shared(0, map[]) && s.running == {}
    ensures s.creators == map[0 := At(0, Downloading)]
  {
    FirstDownloads(r);
    var t := Put(Nothing, SetEntry(Nothing.shared, 0, Pulled(0)), 0, At(0, Downloading));
    var h := t.shared;
    StopsNothing(r, t, 0, 0);
    PutDeleterTwice(t, h, 0, Deleter(0, Releasing, None), h, Deleter(0, Deleting, None));
    PutDeleterTwice(t, h, 0, Deleter(0, Deleting, None), DeleteSpec(h, 0), Deleter(0, Gone, None));
    Then(Next, r, PutDeleter(t, h, 0, Deleter(0, Releasing, None)), ClearByDelete(0),
        PutDeleter(t, h, 0, Deleter(0, Deleting, None)));
    Then(Next, r, PutDeleter(t, h, 0, Deleter(0, Deleting, None)), DeleteEntry(0),
        PutDeleter(t, DeleteSpec(h, 0), 0, Deleter(0, Gone, None)));
    s := PutDeleter(t, DeleteSpec(h, 0), 0, Deleter(0, Gone, None));
    assert s.shared.vms == map[];
  }

  /** A hookless creation whose machine is up and whose probe succeeded. */
  function Probed(k: Key, stage: Stage): Creator {
    var guard := CommitSpec(NewGuard);
    Up(k).(stage := stage, probed := true, guard := if stage == Marking then guard else ReleaseSpec(guard).0)
  }

  lemma Probes(r: System -> bool, s: System, c: CreatorId, k: Key)
    requires ClosedByCreators(r) && r(s) && c in s.creators && s.creators[c] == Up(k)
    ensures r(Put(s, s.shared, c, Probed(k, Marking)))
  {
    Goes(r, s, ProbeEnds(c, true), Put(s, s.shared, c, Probed(k, Marking)));
  }

  /** It records its success in whatever entry its key has. */
  lemma Records(r: System -> bool, s: System, c: CreatorId, k: Key)
    requires ClosedByCreators(r) && r(s) && c in s.creators && s.creators[c] == Probed(k, Marking)
    ensures r(Put(s, SetMarkerSpec(s.shared, k, c), c, Probed(k, Finalizing)))
  {
    Goes(r, s, RecordSuccess(c), Put(s, SetMarkerSpec(s.shared, k, c), c, Probed(k, Finalizing)));
  }

  /** A creation returns from its cancelled download and finalizes what it finds. */
  lemma FinalizesLate(r: System -> bool, s: System, c: CreatorId, k: Key)
    requires ClosedByCreators(r) && r(s) && c in s.creators && s.creators[c] == At(k, Downloading)
    ensures r(Put(s, FinalizeSpec(s.shared, k, c, true), c, At(k, Ended).(err := true)))
  {
    var late := At(k, Finalizing).(err := true);
    PutTwice(s, s.shared, c, late, FinalizeSpec(s.shared, k, c, true), late.(stage := Ended));
    Goes(r, s, DownloadEnds(c, false), Put(s, s.shared, c, late));
    Goes(r, Put(s, s.shared, c, late), Finalize(c),
        Put(s, FinalizeSpec(s.shared, k, c, true), c, late.(stage := Ended)));
  }

  lemma SuccessorReady(r: System -> bool) returns (s: System)
    requires Reachables(r)
    ensures r(s) && s.creators == map[0 := At(0, Downloading), 1 := Probed(0, Finalizing)]
    ensures s.shared.vms == map[0 := RunsFor(1).(markedBy := Some(1))]
  {
    s := DeletedWhileDownloading(r);
    Launches(r, s, 1, 0);
    s := Launched(s, 1, 0);
    Probes(r, s, 1, 0);
    s := Put(s, s.shared, 1, Probed(0, Marking));
    Records(r, s, 1, 0);
    s := Put(s, SetMarkerSpec(s.shared, 0, 1), 1, Probed(0, Finalizing));
  }

  lemma SuccessorFailed(r: System -> bool) returns (s: System)
    requires Reachables(r)
    ensures r(s) && 0 in s.shared.vms && Earned(s, 1)
    ensures s.shared.vms[0].owner == 1 && s.shared.vms[0].markedBy == Some(1) && s.shared.vms[0].failedBy == Some(0)
  {
    s := SuccessorReady(r);
    FinalizesLate(r, s, 0, 0);
    s := Put(s, FinalizeSpec(s.shared, 0, 0, true), 0, At(0, Ended).(err := true));
  }

  /**
   * A machine is deleted while its image is downloading and created again under the same name. The
   * new one becomes ready, then the old creation returns from its cancelled download and writes its
   * error into the new entry: error and marker are both set, though the owner did everything right.
   */
  lemma StaleCreationFailsItsSuccessor() returns (s: System)
    ensures Reached(s) && 0 in s.shared.vms && Earned(s, 1)
    ensures s.shared.vms[0].owner == 1 && s.shared.vms[0].markedBy == Some(1) && s.shared.vms[0].failedBy == Some(0)
  {
    ReachedIsClosed();
    s := SuccessorFailed(Reached);
  }

  /** The first creation is about to record its success; its machine is off and its entry deleted. */
  lemma DeletedWhileMarking(r: System -> bool) returns (s: System)
    requires Reachables(r)
    ensures r(s) && s.shared == Shared(0, map[]) && s.creators == map[0 := Probed(0, Marking)]
  {
    Launches(r, Nothing, 0, 0);
    s := Launched(Nothing, 0, 0);
    Probes(r, s, 0, 0);
    s := Put(s, s.shared, 0, Probed(0, Marking));
    Then(Next, r, s, PowerOff(0), s.(running := s.running - {0}));
    s := s.(running := s.running - {0});
    Deletes(r, s, 0, 0);
    s := Deleted(s, 0, 0);
    assert s.shared.vms == map[] && s.creators == map[0 := Probed(0, Marking)];
  }

  lemma SuccessorMarked(r: System -> bool) returns (s: System)
    requires Reachables(r)
    ensures r(s) && 0 in s.shared.vms && s.creators.Keys == {0, 1} && s.creators[1] == Up(0) && 1 in s.running
    ensures s.shared.vms[0] == RunsFor(1).(markedBy := Some(0))
  {
    s := DeletedWhileMarking(r);
    Launches(r, s, 1, 0);
    s := Launched(s, 1, 0);
    assert s.creators[0] == Probed(0, Marking);
    Records(r, s, 0, 0);
    s := Put(s, SetMarkerSpec(s.shared, 0, 0), 0, Probed(0, Finalizing));
  }

  /**
   * A machine is deleted just before its creation records success and created again under the same
   * name: the marker goes into the new entry, whose machine runs but was not probed yet.
   */
  lemma StaleCreationMarksItsSuccessor() returns (s: System)
    ensures Reached(s) && 0 in s.shared.vms && 1 in s.creators && 1 in s.running
    ensures s.shared.vms[0].owner == 1 && s.shared.vms[0].instance == Some(1)
    ensures s.shared.vms[0].markedBy == Some(0) && s.shared.vms[0].failedBy == None
    ensures !s.creators[1].probed
  {
    ReachedIsClosed();
    s := SuccessorMarked(Reached);
  }
}
