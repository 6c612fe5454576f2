/** What an instance that is stored in an entry says about the creation that stored it. */
module VmInstances {
  import opened Wrappers
  import opened VmPermits
  import opened VmCreation
  import opened VmTheorems
  import opened VmPieces
  import opened VmCounterexamples
  import opened Runs

  /**
   * A creation that stored an instance in an entry: it is past that, it never ends unstarted without
   * an error, and once it has ended so the entry holds an error.
   */
  predicate BuiltOk(r: Creator, failed: bool) {
    && r.stage !in {Beginning, Downloading, Acquiring, Sent, Rejecting, Building}
    && (r.stage in {Clearing, Draining, TryDraining} ==> r.err)
    && (!r.started && r.stage in {Finalizing, Ended} ==> r.err)
    && (!r.started && r.stage == Ended ==> failed)
  }

  predicate InstanceOk(s: System, k: Key)
    requires k in s.shared.vms
  {
    var i := s.shared.vms[k];
    i.instance.Some? ==>
      && i.instance.value in s.creators
      && BuiltOk(s.creators[i.instance.value], i.failedBy.Some?)
  }

  ghost predicate InstancesOk(s: System) {
    forall k :: k in s.shared.vms ==> InstanceOk(s, k)
  }

  /** A creation that stores an instance has just built it. */
  lemma StoredIsBuilt(s: System, e: Step)
    requires Next(s, e).Some? && e.BuildEnds? && e.ok
    ensures AtStage(Next(s, e).value, e.c, Starting)
  {
  }

  /** The creation that moves, in whose entry its instance is: by a step on the channel or a flag. */
  lemma BuiltMovesPermit(s: System, e: Step, failed: bool)
    requires Next(s, e).Some? && (MovesToken(e) || MovesFlag(e)) && e.c in s.creators
              && BuiltOk(s.creators[e.c], failed)
    ensures e.c in Next(s, e).value.creators && BuiltOk(Next(s, e).value.creators[e.c], failed)
  {
  }

  /** By a step that writes into the entry. */
  lemma BuiltWrites(s: System, e: Step, k: Key)
    requires Next(s, e).Some? && WritesEntry(e) && Keyed(s, k, e.c)
    requires k in s.shared.vms && k in Next(s, e).value.shared.vms
    requires CreatorOk(s.creators[e.c]) && BuiltOk(s.creators[e.c], s.shared.vms[k].failedBy.Some?)
    ensures e.c in Next(s, e).value.creators
    ensures BuiltOk(Next(s, e).value.creators[e.c], Next(s, e).value.shared.vms[k].failedBy.Some?)
  {
  }

  /** By any other. */
  lemma BuiltMovesQuietly(s: System, e: Step, failed: bool)
    requires Next(s, e).Some? && ByCreator(e) && !MovesToken(e) && !MovesFlag(e) && !WritesEntry(e)
    requires e.c in s.creators && CreatorOk(s.creators[e.c]) && BuiltOk(s.creators[e.c], failed)
    ensures e.c in Next(s, e).value.creators && BuiltOk(Next(s, e).value.creators[e.c], failed)
  {
  }

  lemma BuiltMoves(s: System, e: Step, k: Key)
    requires Next(s, e).Some? && ByCreator(e) && Keyed(s, k, e.c)
    requires k in s.shared.vms && k in Next(s, e).value.shared.vms
    requires CreatorOk(s.creators[e.c]) && BuiltOk(s.creators[e.c], s.shared.vms[k].failedBy.Some?)
    ensures e.c in Next(s, e).value.creators
    ensures BuiltOk(Next(s, e).value.creators[e.c], Next(s, e).value.shared.vms[k].failedBy.Some?)
  {
    EntriesMove(s, e, k);
    if WritesEntry(e) {
      BuiltWrites(s, e, k);
    } else if MovesToken(e) || MovesFlag(e) {
      BuiltMovesPermit(s, e, s.shared.vms[k].failedBy.Some?);
    } else {
      BuiltMovesQuietly(s, e, s.shared.vms[k].failedBy.Some?);
    }
  }

  lemma InstanceStep(s: System, e: Step, k: Key)
    requires Inv(s) && InstancesOk(s) && Next(s, e).Some? && k in Next(s, e).value.shared.vms
    ensures InstanceOk(Next(s, e).value, k)
  {
    var t := Next(s, e).value;
    EntriesMove(s, e, k);
    if k in s.shared.vms && t.shared.vms[k].instance.Some? {
      var c := t.shared.vms[k].instance.value;
      assert EntryOk(s, k) && InstanceOk(s, k);
      if s.shared.vms[k].instance != Some(c) {
        BuildsOk(s, e, k);
        StoredIsBuilt(s, e);
      } else if ByCreator(e) && c == e.c {
        BuiltMoves(s, e, k);
      } else {
        OthersStay(s, e, c);
      }
    }
  }

  /** Only a build that succeeds changes the instance of an entry. */
  lemma BuildsOk(s: System, e: Step, k: Key)
    requires Next(s, e).Some? && k in s.shared.vms && k in Next(s, e).value.shared.vms
    requires Next(s, e).value.shared.vms[k].instance != s.shared.vms[k].instance
    ensures e.BuildEnds? && e.ok && Next(s, e).value.shared.vms[k].instance == Some(e.c)
  {
  }

  lemma ReachedInstancesOk(s: System)
    requires Reached(s)
    ensures Inv(s) && InstancesOk(s)
  {
    forall start | Starts(start)
      ensures Inv(start) && InstancesOk(start)
    {
      StartInv(start);
    }
    forall t, e | Inv(t) && InstancesOk(t) && Next(t, e).Some?
      ensures Inv(Next(t, e).value) && InstancesOk(Next(t, e).value)
    {
      InvStep(t, e);
      forall k | k in Next(t, e).value.shared.vms
        ensures InstanceOk(Next(t, e).value, k)
      {
        InstanceStep(t, e, k);
      }
    }
    Invariant(Next, Starts, t => Inv(t) && InstancesOk(t), s);
  }

  // ---------------------------------------------------------------- two states on the way

  /** An instance is stored and its machine was not started yet. */
  lemma Builds(r: System -> bool) returns (s: System)
    requires Reachables(r)
    ensures r(s) && s.shared.vms == map[0 := RunsFor(0)] && s.running == {} && s.creators == map[0 := At(0, Starting)]
  {
    Acquires(r, Nothing, 0, 0);
    var t := Acquired(Nothing, 0, 0);
    s := Put(t, WithInstance(t.shared, 0, 0), 0, At(0, Starting));
    Goes(r, t, BuildEnds(0, true), s);
  }

  lemma BuiltNotStarted() returns (s: System)
    ensures Reached(s) && s.shared.vms == map[0 := RunsFor(0)] && s.running == {}
    ensures s.creators == map[0 := At(0, Starting)]
  {
    ReachedIsClosed();
    s := Builds(Reached);
  }

  /** No address was found and the machine was stopped again; the error is not recorded yet. */
  lemma Abandons(r: System -> bool) returns (s: System)
    requires Reachables(r)
    ensures r(s) && s.shared.vms == map[0 := RunsFor(0)] && s.running == {}
    ensures s.creators == map[0 := Failing(0, Clearing, 0)]
  {
    var t := Builds(r);
    var up := t.(running := t.running + {0});
    var u := Put(up, t.shared, 0, At(0, Addressing));
    s := Put(up, t.shared, 0, Failing(0, Clearing, 0)).(running := up.running - {0});
    PutTwice(up, t.shared, 0, At(0, Addressing), t.shared, Failing(0, Clearing, 0));
    Goes(r, t, Boot(0, true), u);
    Goes(r, u, AddressEnds(0, false, true), s);
  }

  lemma StartFailed() returns (s: System)
    ensures Reached(s) && s.shared.vms == map[0 := RunsFor(0)] && s.running == {}
    ensures s.creators == map[0 := Failing(0, Clearing, 0)]
  {
    ReachedIsClosed();
    s := Abandons(Reached);
  }
}
