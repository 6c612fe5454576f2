/** Pieces of runs of VmCreation, for showing that a state can come up. */
module VmPieces {
  import opened Wrappers
  import opened VmPermits
  import opened VmCreation
  import opened Runs

  /** The set holds every state that a step of a creation leads to from one of its own. */
  ghost predicate ClosedByCreators(r: System -> bool) {
    forall s, e :: r(s) && ByCreator(e) && Next(s, e).Some? ==> r(Next(s, e).value)
  }

  lemma ClosedIsClosedByCreators(r: System -> bool)
    requires Closed(Next, r)
    ensures ClosedByCreators(r)
  {
  }

  lemma Goes(r: System -> bool, s: System, e: Step, t: System)
    requires ClosedByCreators(r) && r(s) && ByCreator(e) && Next(s, e) == Some(t)
    ensures r(t)
  {
  }

  lemma PutTwice(s: System, h: Shared, c: CreatorId, a: Creator, g: Shared, b: Creator)
    ensures Put(Put(s, h, c, a), g, c, b) == Put(s, g, c, b)
  {
    assert s.creators[c := a][c := b] == s.creators[c := b];
  }

  lemma SetTwice(h: Shared, k: Key, i: Entry, j: Entry)
    ensures SetEntry(SetEntry(h, k, i), k, j) == SetEntry(h, k, j)
  {
    assert h.vms[k := i][k := j] == h.vms[k := j];
  }

  lemma PutDeleterTwice(s: System, h: Shared, d: DeleterId, a: Deleter, g: Shared, b: Deleter)
    ensures PutDeleter(PutDeleter(s, h, d, a), g, d, b) == PutDeleter(s, g, d, b)
  {
    assert s.deleters[d := a][d := b] == s.deleters[d := b];
  }

  // ---------------------------------------------------------------- creations

  /** A creation at that stage which has met no error and started nothing. */
  function At(k: Key, stage: Stage): Creator {
    Creator(k, false, stage, false, NewGuard, false, false, 0, 0)
  }

  /** The entry of a creation that is downloading. */
  function Pulled(c: CreatorId): Entry {
    NewEntry(c).(cancellable := true)
  }

  /** The entry of a creation that holds its guard. */
  function HeldBy(c: CreatorId): Entry {
    Pulled(c).(permit := Some(c))
  }

  /** A new creation gets to the select of acquirePermit. */
  lemma Arrives(r: System -> bool, s: System, c: CreatorId, k: Key)
    requires ClosedByCreators(r) && r(s) && c !in s.creators && k !in s.shared.vms
    ensures r(Put(s, SetEntry(s.shared, k, Pulled(c)), c, At(k, Acquiring)))
  {
    var h0, h1 := SetEntry(s.shared, k, NewEntry(c)), SetEntry(s.shared, k, Pulled(c));
    SetTwice(s.shared, k, NewEntry(c), Pulled(c));
    PutTwice(s, h0, c, At(k, Beginning), h1, At(k, Downloading));
    PutTwice(s, h1, c, At(k, Downloading), h1, At(k, Acquiring));
    Goes(r, s, Create(c, k, false), Put(s, h0, c, At(k, Beginning)));
    Goes(r, Put(s, h0, c, At(k, Beginning)), StoreCancel(c), Put(s, h1, c, At(k, Downloading)));
    Goes(r, Put(s, h1, c, At(k, Downloading)), DownloadEnds(c, true), Put(s, h1, c, At(k, Acquiring)));
  }

  /** The state in which creation c holds a guard for key k. */
  function Acquired(s: System, c: CreatorId, k: Key): System {
    Put(s, SendSpec(SetEntry(s.shared, k, HeldBy(c))), c, At(k, Building))
  }

  /** A creation that downloaded finds its entry and room in the channel. */
  lemma TakesPermit(r: System -> bool, s: System, c: CreatorId, k: Key)
    requires ClosedByCreators(r) && s.shared.tokens < MaxVirtualMachines
    requires r(Put(s, SetEntry(s.shared, k, Pulled(c)), c, At(k, Acquiring)))
    ensures r(Acquired(s, c, k))
  {
    var h1 := SetEntry(s.shared, k, Pulled(c));
    var h2, h3 := SendSpec(h1), SendSpec(SetEntry(s.shared, k, HeldBy(c)));
    SetTwice(s.shared, k, Pulled(c), HeldBy(c));
    PutTwice(s, h1, c, At(k, Acquiring), h2, At(k, Sent));
    PutTwice(s, h2, c, At(k, Sent), h3, At(k, Building));
    Goes(r, Put(s, h1, c, At(k, Acquiring)), Send(c), Put(s, h2, c, At(k, Sent)));
    Goes(r, Put(s, h2, c, At(k, Sent)), Mark(c), Put(s, h3, c, At(k, Building)));
  }

  /** A new creation comes to hold a guard for a free key while the channel has room. */
  lemma Acquires(r: System -> bool, s: System, c: CreatorId, k: Key)
    requires ClosedByCreators(r) && r(s)
    requires c !in s.creators && k !in s.shared.vms && s.shared.tokens < MaxVirtualMachines
    ensures r(Acquired(s, c, k))
  {
    Arrives(r, s, c, k);
    TakesPermit(r, s, c, k);
  }

  /** A creation whose machine runs and has an address. */
  function Up(k: Key): Creator {
    At(k, Probing).(started := true, guard := CommitSpec(NewGuard))
  }

  /** What becomes of the entries when creation c stores its instance. */
  function WithInstance(h: Shared, k: Key, c: CreatorId): Shared {
    SetInstanceSpec(h, k, c)
  }

  /** The state in which the machine of creation c runs. */
  function StartedUp(s: System, c: CreatorId, k: Key): System {
    Put(s, WithInstance(s.shared, k, c), c, Up(k)).(running := s.running + {c})
  }

  /** A creation that holds its guard builds and starts its machine and commits. */
  lemma StartsUp(r: System -> bool, s: System, c: CreatorId, k: Key)
    requires ClosedByCreators(r) && r(s) && c in s.creators && s.creators[c] == At(k, Building)
    ensures r(StartedUp(s, c, k))
  {
    var h := WithInstance(s.shared, k, c);
    var s1 := Put(s, h, c, At(k, Starting));
    var s2 := Put(s, h, c, At(k, Addressing)).(running := s.running + {c});
    PutTwice(s, h, c, At(k, Starting), h, At(k, Addressing));
    PutTwice(s, h, c, At(k, Addressing), h, Up(k));
    Goes(r, s, BuildEnds(c, true), s1);
    Goes(r, s1, Boot(c, true), s2);
    Goes(r, s2, AddressEnds(c, true, false), StartedUp(s, c, k));
  }

  /** The entry of a creation whose machine runs. */
  function RunsFor(c: CreatorId): Entry {
    HeldBy(c).(instance := Some(c))
  }

  /** The state after a new creation went all the way to a running machine. */
  function Launched(s: System, c: CreatorId, k: Key): System {
    Put(s, SendSpec(SetEntry(s.shared, k, RunsFor(c))), c, Up(k)).(running := s.running + {c})
  }

  lemma Launches(r: System -> bool, s: System, c: CreatorId, k: Key)
    requires ClosedByCreators(r) && r(s)
    requires c !in s.creators && k !in s.shared.vms && s.shared.tokens < MaxVirtualMachines
    ensures r(Launched(s, c, k))
  {
    Acquires(r, s, c, k);
    StartsUp(r, Acquired(s, c, k), c, k);
    SetTwice(s.shared, k, HeldBy(c), RunsFor(c));
    PutTwice(s, Acquired(s, c, k).shared, c, At(k, Building), SendSpec(SetEntry(s.shared, k, RunsFor(c))), Up(k));
    assert StartedUp(Acquired(s, c, k), c, k) == Launched(s, c, k);
  }

  // ---------------------------------------------------------------- deletions

  /** The deletion of an entry as far as that stage. */
  function Removing(s: System, k: Key, stage: Removal): Deleter
    requires k in s.shared.vms
  {
    Deleter(k, stage, s.shared.vms[k].instance)
  }

  /** A new deletion gets past the attempt to stop a machine, and stops none. */
  lemma StopsNothing(r: System -> bool, s: System, d: DeleterId, k: Key)
    requires Closed(Next, r) && r(s) && d !in s.deleters && k in s.shared.vms
    ensures r(PutDeleter(s, s.shared, d, Removing(s, k, Releasing)))
  {
    var h := s.shared;
    PutDeleterTwice(s, h, d, Removing(s, k, Stopping), h, Removing(s, k, Releasing));
    Then(Next, r, s, BeginDelete(d, k), PutDeleter(s, h, d, Removing(s, k, Stopping)));
    Then(Next, r, PutDeleter(s, h, d, Removing(s, k, Stopping)), Stopped(d, false),
         PutDeleter(s, h, d, Removing(s, k, Releasing)));
  }

  /** The state in which a deletion has cleared the permit of an entry and has the token still to take. */
  function ClearedBy(s: System, d: DeleterId, k: Key): System
    requires k in s.shared.vms
  {
    PutDeleter(s, SetEntry(s.shared, k, s.shared.vms[k].(permit := None)), d, Removing(s, k, Repaying))
  }

  lemma Clears(r: System -> bool, s: System, d: DeleterId, k: Key)
    requires Closed(Next, r) && r(s) && d !in s.deleters && k in s.shared.vms && s.shared.vms[k].permit.Some?
    ensures r(ClearedBy(s, d, k))
  {
    StopsNothing(r, s, d, k);
    PutDeleterTwice(s, s.shared, d, Removing(s, k, Releasing), ClearedBy(s, d, k).shared, Removing(s, k, Repaying));
    Then(Next, r, PutDeleter(s, s.shared, d, Removing(s, k, Releasing)), ClearByDelete(d), ClearedBy(s, d, k));
  }

  /** The state in which the deletion has taken its token too. */
  function Drained(s: System, d: DeleterId, k: Key): System
    requires k in s.shared.vms && s.shared.tokens > 0
  {
    PutDeleter(s, DrainSpec(SetEntry(s.shared, k, s.shared.vms[k].(permit := None))), d, Removing(s, k, Deleting))
  }

  lemma Drains(r: System -> bool, s: System, d: DeleterId, k: Key)
    requires Closed(Next, r) && r(s) && d !in s.deleters && k in s.shared.vms && s.shared.vms[k].permit.Some?
    requires s.shared.tokens > 0
    ensures r(Drained(s, d, k))
  {
    Clears(r, s, d, k);
    PutDeleterTwice(s, ClearedBy(s, d, k).shared, d, Removing(s, k, Repaying), Drained(s, d, k).shared,
        Removing(s, k, Deleting));
    Then(Next, r, ClearedBy(s, d, k), DrainByDelete(d), Drained(s, d, k));
  }

  /** The state in which the entry of k is gone and its token with it. */
  function Deleted(s: System, d: DeleterId, k: Key): System
    requires k in s.shared.vms && s.shared.tokens > 0
  {
    PutDeleter(s, DrainSpec(DeleteSpec(s.shared, k)), d, Removing(s, k, Gone))
  }

  /** DeleteVirtualMachine runs to its end on an entry that holds a permit. */
  lemma Deletes(r: System -> bool, s: System, d: DeleterId, k: Key)
    requires Closed(Next, r) && r(s) && d !in s.deleters && k in s.shared.vms && s.shared.vms[k].permit.Some?
    requires s.shared.tokens > 0
    ensures r(Deleted(s, d, k))
  {
    var f := Drained(s, d, k);
    Drains(r, s, d, k);
    PutDeleterTwice(s, f.shared, d, Removing(s, k, Deleting), DeleteSpec(f.shared, k), Removing(s, k, Gone));
    assert DeleteSpec(f.shared, k).vms == DeleteSpec(s.shared, k).vms;
    Then(Next, r, f, DeleteEntry(d), Deleted(s, d, k));
  }
}
