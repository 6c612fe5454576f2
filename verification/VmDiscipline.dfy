/** What callers would have to keep to for the bounds of VmCapacity never to fail. */
module VmDiscipline {
  import opened Wrappers
  import opened VmPermits
  import opened VmCreation
  import opened VmTheorems
  import opened VmCapacity
  import opened Runs

  // ---------------------------------------------------------------- one creation per key at a time

  /** A machine is created only when every earlier creation for its key has ended. */
  ghost predicate Sole(s: System, e: Step) {
    e.Create? ==> forall c :: c in s.creators && s.creators[c].key == e.key ==> s.creators[c].stage == Ended
  }

  ghost function SoleNext(s: System, e: Step): Option<System> {
    if Sole(s, e) then Next(s, e) else None
  }

  /** Nobody but the owner has written into the entry. */
  predicate Own(i: Entry) {
    && i.permit in {None, Some(i.owner)}
    && i.instance in {None, Some(i.owner)}
    && i.markedBy in {None, Some(i.owner)}
    && i.failedBy in {None, Some(i.owner)}
  }

  /** Only its owner is still at work on an entry, and nobody else has written into it. */
  ghost predicate Owned(s: System) {
    && (forall k :: k in s.shared.vms ==> Own(s.shared.vms[k]))
    && (forall c :: c in s.creators && s.creators[c].stage != Ended && s.creators[c].key in s.shared.vms ==>
          s.shared.vms[s.creators[c].key].owner == c)
  }

  lemma StillOwn(s: System, e: Step, k: Key)
    requires Owned(s) && SoleNext(s, e).Some? && k in SoleNext(s, e).value.shared.vms
    ensures Own(SoleNext(s, e).value.shared.vms[k])
  {
    EntriesMove(s, e, k);
  }

  /** A step changes the owner of no entry, and the key and the end of no creation. */
  lemma OwnersStay(s: System, e: Step, k: Key)
    requires Next(s, e).Some? && k in Next(s, e).value.shared.vms
    ensures k in s.shared.vms ==> Next(s, e).value.shared.vms[k].owner == s.shared.vms[k].owner
    ensures k !in s.shared.vms ==> e.Create? && e.key == k && Next(s, e).value.shared.vms[k].owner == e.c
  {
    EntriesMove(s, e, k);
  }

  lemma NewCreation(s: System, e: Step, c: CreatorId)
    requires Next(s, e).Some? && c in Next(s, e).value.creators && c !in s.creators
    ensures e.Create? && e.c == c && e.key !in s.shared.vms && Next(s, e).value.creators[c].key == e.key
  {
    if !ByCreator(e) || c != e.c {
      OthersStay(s, e, c);
    }
  }

  lemma StillTheOwner(s: System, e: Step, c: CreatorId)
    requires Owned(s) && SoleNext(s, e).Some? && c in SoleNext(s, e).value.creators
    requires SoleNext(s, e).value.creators[c].stage != Ended
    requires SoleNext(s, e).value.creators[c].key in SoleNext(s, e).value.shared.vms
    ensures SoleNext(s, e).value.shared.vms[SoleNext(s, e).value.creators[c].key].owner == c
  {
    var k := SoleNext(s, e).value.creators[c].key;
    OwnersStay(s, e, k);
    if c in s.creators {
      CreatorsOnward(s, e, c);
    } else {
      NewCreation(s, e, c);
    }
  }

  lemma OwnedStep(s: System, e: Step)
    requires Owned(s) && SoleNext(s, e).Some?
    ensures Owned(SoleNext(s, e).value)
  {
    var t := SoleNext(s, e).value;
    forall k | k in t.shared.vms
      ensures Own(t.shared.vms[k])
    {
      StillOwn(s, e, k);
    }
    forall c | c in t.creators && t.creators[c].stage != Ended && t.creators[c].key in t.shared.vms
      ensures t.shared.vms[t.creators[c].key].owner == c
    {
      StillTheOwner(s, e, c);
    }
  }

  /**
   * Then whatever stands in an entry comes from the creation it was stored for: error and marker
   * exclude each other, and the marker means that the owner has earned it.
   */
  lemma SoleCreationsKeepOutcomesApart(start: System, steps: seq<Step>, s: System, k: Key)
    requires Starts(start) && Run(SoleNext, start, steps) == Some(s) && k in s.shared.vms
    ensures Own(s.shared.vms[k])
    ensures !(s.shared.vms[k].markedBy.Some? && s.shared.vms[k].failedBy.Some?)
    ensures s.shared.vms[k].markedBy.Some? ==> Earned(s, s.shared.vms[k].owner)
  {
    forall t, e | Owned(t) && SoleNext(t, e).Some?
      ensures Owned(SoleNext(t, e).value)
    {
      OwnedStep(t, e);
    }
    Keeps(SoleNext, Owned, start, steps);
    Unrestricted(SoleNext, Next, start, steps);
    assert Reached(s);
    ReadinessIsEarned(s, k);
  }

  // ---------------------------------------------------------------- orderly deletes keep the permits

  /** A creation that holds its guard and has not committed: on failure it will run releasePermit. */
  predicate GuardHeld(r: Creator) {
    r.stage == Building || r.stage == Starting || r.stage == Addressing || r.stage == Clearing
  }

  /**
   * Deletes of one key do not overlap, and none removes the entry from under a creation that holds
   * its guard and has not committed.
   */
  ghost predicate Orderly(s: System, e: Step) {
    && (e.BeginDelete? ==> forall d :: d in s.deleters && s.deleters[d].key == e.key ==> s.deleters[d].stage == Gone)
    && (e.DeleteEntry? && e.d in s.deleters ==>
          forall c :: c in s.creators && s.creators[c].key == s.deleters[e.d].key ==> !GuardHeld(s.creators[c]))
  }

  ghost function OrderlyNext(s: System, e: Step): Option<System> {
    if Orderly(s, e) then Next(s, e) else None
  }

  /** Whoever may still run releasePermit finds the entry. */
  ghost predicate EntriesPresent(s: System) {
    && s.strays == 0
    && (forall c :: c in s.creators ==> s.creators[c].stage != TryDraining)
    && (forall c :: c in s.creators && GuardHeld(s.creators[c]) ==> s.creators[c].key in s.shared.vms)
    && (forall d :: d in s.deleters ==> s.deleters[d].stage != TryRepaying)
    && (forall d :: d in s.deleters && s.deleters[d].stage != Gone ==> s.deleters[d].key in s.shared.vms)
    && (forall d, f :: d in s.deleters && f in s.deleters && d != f && s.deleters[d].key == s.deleters[f].key ==>
          s.deleters[d].stage == Gone || s.deleters[f].stage == Gone)
  }

  /** A step of a creation adds at most an entry; its own key stays where it was. */
  lemma EntriesStay(s: System, e: Step)
    requires Next(s, e).Some? && ByCreator(e)
    ensures Next(s, e).value.deleters == s.deleters && s.shared.vms.Keys <= Next(s, e).value.shared.vms.Keys
  {
  }

  /** The creation does not find its entry missing. */
  predicate FindsEntry(s: System, c: CreatorId) {
    c in s.creators ==>
      && s.creators[c].stage != TryDraining
      && (GuardHeld(s.creators[c]) ==> s.creators[c].key in s.shared.vms)
  }

  lemma PresentMover(s: System, e: Step)
    requires Next(s, e).Some? && ByCreator(e) && FindsEntry(s, e.c)
    requires e.c in s.creators ==> CreatorOk(s.creators[e.c])
    ensures FindsEntry(Next(s, e).value, e.c) && Next(s, e).value.strays == s.strays
  {
  }

  lemma FindsStill(s: System, e: Step, c: CreatorId)
    requires EntriesPresent(s) && Next(s, e).Some? && ByCreator(e) && c != e.c
    ensures FindsEntry(Next(s, e).value, c)
  {
    OthersStay(s, e, c);
    EntriesStay(s, e);
  }

  lemma PresentCreate(s: System, e: Step)
    requires EntriesPresent(s) && Next(s, e).Some? && ByCreator(e)
    requires e.c in s.creators ==> CreatorOk(s.creators[e.c])
    ensures EntriesPresent(Next(s, e).value)
  {
    var t := Next(s, e).value;
    PresentMover(s, e);
    EntriesStay(s, e);
    forall c | c in t.creators
      ensures FindsEntry(t, c)
    {
      if c != e.c {
        FindsStill(s, e, c);
      }
    }
  }

  lemma OneDeleterMoves(s: System, e: Step)
    requires Next(s, e).Some? && ByDeleter(e)
    ensures var t := Next(s, e).value;
            && t.creators == s.creators
            && (t != s ==> e.d in t.deleters && t.deleters == s.deleters[e.d := t.deleters[e.d]])
            && t.shared.vms.Keys ==
               if e.DeleteEntry? then s.shared.vms.Keys - {s.deleters[e.d].key} else s.shared.vms.Keys
  {
    assert e.DeleteEntry? ==> Next(s, e).value.shared.vms == s.shared.vms - {s.deleters[e.d].key};
  }

  /** The deletion that moves has found its entry and is alone with it. */
  lemma DeleterFinds(s: System, e: Step)
    requires EntriesPresent(s) && OrderlyNext(s, e).Some? && ByDeleter(e) && Next(s, e).value != s
    ensures var t := Next(s, e).value;
            && t.strays == 0 && t.deleters[e.d].stage != TryRepaying
            && (t.deleters[e.d].stage != Gone ==> t.deleters[e.d].key in t.shared.vms)
            && (forall f :: f in s.deleters && f != e.d && s.deleters[f].key == t.deleters[e.d].key ==>
                  s.deleters[f].stage == Gone || t.deleters[e.d].stage == Gone)
  {
    OneDeleterMoves(s, e);
  }

  lemma PresentDelete(s: System, e: Step)
    requires EntriesPresent(s) && OrderlyNext(s, e).Some? && ByDeleter(e)
    ensures EntriesPresent(Next(s, e).value)
  {
    OneDeleterMoves(s, e);
    if Next(s, e).value != s {
      DeleterFinds(s, e);
    }
  }

  lemma PresentStep(s: System, e: Step)
    requires Inv(s) && EntriesPresent(s) && OrderlyNext(s, e).Some?
    ensures EntriesPresent(OrderlyNext(s, e).value)
  {
    if ByDeleter(e) {
      PresentDelete(s, e);
    } else if ByCreator(e) {
      PresentCreate(s, e);
    }
  }

  /**
   * In orderly runs the missing-entry branch never takes a token, so no more permits are held than
   * there are. This does not bound the machines: VmCounterexamples.OrderlyRunsOverrun.
   */
  lemma OrderlyRunsTakeNoStrayToken(start: System, steps: seq<Step>, s: System)
    requires Starts(start) && Run(OrderlyNext, start, steps) == Some(s)
    ensures s.strays == 0 && |Flagged(s.shared)| <= MaxVirtualMachines && Debts(s) <= s.shared.tokens
  {
    StartInv(start);
    forall t, e | Inv(t) && EntriesPresent(t) && OrderlyNext(t, e).Some?
      ensures Inv(OrderlyNext(t, e).value) && EntriesPresent(OrderlyNext(t, e).value)
    {
      InvStep(t, e);
      PresentStep(t, e);
    }
    Keeps(OrderlyNext, t => Inv(t) && EntriesPresent(t), start, steps);
  }

  // ---------------------------------------------------------------- settled deletes keep the machines

  /** The creation has given its permit back or committed it. */
  predicate Decided(r: Creator) {
    r.stage in {Probing, Hooking, Marking, Draining, Finalizing, Ended}
  }

  /**
   * A delete begins only when no other delete of its key is under way and every creation of its key
   * has decided, and whenever a machine is to be stopped it stops.
   */
  ghost predicate Settled(s: System, e: Step) {
    && (e.BeginDelete? ==>
          && (forall d :: d in s.deleters && s.deleters[d].key == e.key ==> s.deleters[d].stage == Gone)
          && (forall c :: c in s.creators && s.creators[c].key == e.key ==> Decided(s.creators[c])))
    && (e.Stopped? ==> e.effective)
    && (e.AddressEnds? && !e.ok ==> e.killed)
  }

  ghost function SettledNext(s: System, e: Step): Option<System> {
    if Settled(s, e) then Next(s, e) else None
  }

  predicate Active(s: System, d: DeleterId) {
    d in s.deleters && s.deleters[d].stage != Gone
  }

  /** No delete of the key is under way. */
  ghost predicate Undisturbed(s: System, k: Key) {
    forall d :: Active(s, d) ==> s.deleters[d].key != k
  }

  /** Until it has decided, a creation owns an undisturbed entry that is as the creation left it. */
  ghost predicate CreatorTidy(s: System, c: CreatorId)
    requires c in s.creators
  {
    var r := s.creators[c];
    && r.stage != TryDraining && r.stage != Rejecting
    && (!Decided(r) ==>
          && Undisturbed(s, r.key) && r.key in s.shared.vms && s.shared.vms[r.key].owner == c
          && (r.stage in {Beginning, Downloading, Acquiring, Sent} ==> s.shared.vms[r.key].permit.None?)
          && (GuardHeld(r) ==> s.shared.vms[r.key].permit == Some(c))
          && (r.stage in {Starting, Addressing} ==> s.shared.vms[r.key].instance == Some(c)))
  }

  /** A machine that runs has its entry, its permit, and no delete that is past stopping it. */
  ghost predicate MachineTidy(s: System, c: CreatorId) {
    && c in s.creators
    && var r := s.creators[c];
       && (r.stage == Addressing || r.started)
       && r.key in s.shared.vms
       && s.shared.vms[r.key].owner == c
       && s.shared.vms[r.key].permit == Some(c)
       && s.shared.vms[r.key].instance == Some(c)
       && forall d :: Active(s, d) && s.deleters[d].key == r.key ==> s.deleters[d].stage == Stopping
  }

  /** A delete under way has its entry to itself and loaded the instance that is in it. */
  ghost predicate DeleterTidy(s: System, d: DeleterId)
    requires d in s.deleters
  {
    var r := s.deleters[d];
    && r.stage != TryRepaying
    && r.key in s.shared.vms
    && (r.stage == Stopping ==> r.loaded == s.shared.vms[r.key].instance)
    && forall f :: Active(s, f) && f != d ==> s.deleters[f].key != r.key
  }

  ghost predicate Tidy(s: System) {
    && s.strays == 0
    && (forall c :: c in s.creators ==> CreatorTidy(s, c))
    && (forall c :: c in s.running ==> MachineTidy(s, c))
    && (forall d :: Active(s, d) ==> DeleterTidy(s, d))
  }

  /** A step of a creation touches the entry of its own key only. */
  lemma OwnKeyOnly(s: System, e: Step)
    requires Next(s, e).Some? && ByCreator(e)
    ensures Next(s, e).value.deleters == s.deleters
    ensures forall k :: k in s.shared.vms ==>
              && k in Next(s, e).value.shared.vms
              && s.shared.vms[k].owner == Next(s, e).value.shared.vms[k].owner
    ensures forall k :: k in s.shared.vms && !Keyed(s, k, e.c) ==> Next(s, e).value.shared.vms[k] == s.shared.vms[k]
    ensures forall c :: c != e.c ==> (c in Next(s, e).value.running <==> c in s.running)
  {
  }

  /** The creation that moves stays tidy. */
  lemma MoverTidy(s: System, e: Step)
    requires SettledNext(s, e).Some? && ByCreator(e) && e.c in s.creators
    requires CreatorOk(s.creators[e.c]) && CreatorTidy(s, e.c) && (e.c in s.running ==> MachineTidy(s, e.c))
    ensures Next(s, e).value.strays == s.strays
    ensures e.c in Next(s, e).value.creators && CreatorTidy(Next(s, e).value, e.c)
  {
  }

  /** So does its machine. */
  lemma MoverMachineTidy(s: System, e: Step)
    requires SettledNext(s, e).Some? && ByCreator(e) && e.c in s.creators
    requires CreatorOk(s.creators[e.c]) && CreatorTidy(s, e.c) && (e.c in s.running ==> MachineTidy(s, e.c))
    requires e.c in Next(s, e).value.running
    ensures MachineTidy(Next(s, e).value, e.c)
  {
  }

  /** An entry of which a creation is the owner is not touched by other creations, when all is tidy. */
  lemma OnlyOwnersWrite(s: System, e: Step, k: Key)
    requires Tidy(s) && Next(s, e).Some? && ByCreator(e) && e.c in s.creators
    requires k in s.shared.vms && s.shared.vms[k].owner != e.c
    ensures Next(s, e).value.shared.vms[k].permit == s.shared.vms[k].permit
    ensures Next(s, e).value.shared.vms[k].instance == s.shared.vms[k].instance
  {
    assert CreatorTidy(s, e.c);
  }

  lemma CreatorStepTidy(s: System, e: Step)
    requires Inv(s) && Tidy(s) && SettledNext(s, e).Some? && ByCreator(e) && e.c in s.creators
    ensures Tidy(Next(s, e).value)
  {
    var t := Next(s, e).value;
    OwnKeyOnly(s, e);
    MoverTidy(s, e);
    forall c | c in t.creators && c != e.c
      ensures CreatorTidy(t, c)
    {
      OthersStay(s, e, c);
      if !Decided(s.creators[c]) {
        OnlyOwnersWrite(s, e, s.creators[c].key);
      }
    }
    forall c | c in t.running
      ensures MachineTidy(t, c)
    {
      if c == e.c {
        MoverMachineTidy(s, e);
      } else {
        assert MachineTidy(s, c);
        OthersStay(s, e, c);
        OnlyOwnersWrite(s, e, s.creators[c].key);
      }
    }
    forall d | Active(t, d)
      ensures DeleterTidy(t, d)
    {
      assert DeleterTidy(s, d);
      UndisturbedEntryStays(s, e, s.deleters[d].key);
    }
  }

  /** A creation whose key is being deleted has decided, so it leaves the instance as it is. */
  lemma UndisturbedEntryStays(s: System, e: Step, k: Key)
    requires Tidy(s) && Next(s, e).Some? && ByCreator(e) && e.c in s.creators
    requires k in s.shared.vms && !Undisturbed(s, k)
    ensures k in Next(s, e).value.shared.vms && Next(s, e).value.shared.vms[k].instance == s.shared.vms[k].instance
  {
    assert CreatorTidy(s, e.c);
    OwnKeyOnly(s, e);
    EntriesMove(s, e, k);
    assert e.BuildEnds? ==> !Decided(s.creators[e.c]);
  }

  /** A new creation stores an entry where there was none. */
  lemma CreateFrame(s: System, e: Step)
    requires Next(s, e).Some? && e.Create? && Next(s, e).value != s
    ensures e.key !in s.shared.vms && e.c !in s.creators
    ensures var t := Next(s, e).value;
            && t.shared.vms == s.shared.vms[e.key := NewEntry(e.c)]
            && t.creators == s.creators[e.c := Creator(e.key, e.hook, Beginning, false, NewGuard, false, false, 0, 0)]
            && t.deleters == s.deleters && t.running == s.running && t.strays == s.strays
  {
  }

  lemma CreateTidy(s: System, e: Step)
    requires Tidy(s) && Next(s, e).Some? && e.Create? && Next(s, e).value != s
    ensures Tidy(Next(s, e).value)
  {
    var t := Next(s, e).value;
    CreateFrame(s, e);
    forall d | Active(t, d)
      ensures DeleterTidy(t, d) && s.deleters[d].key != e.key
    {
      assert DeleterTidy(s, d);
    }
    forall c | c in t.creators
      ensures CreatorTidy(t, c)
    {
      assert c != e.c ==> CreatorTidy(s, c);
    }
    forall c | c in t.running
      ensures MachineTidy(t, c)
    {
      assert MachineTidy(s, c);
    }
  }

  lemma PowerOffTidy(s: System, e: Step)
    requires Tidy(s) && Next(s, e).Some? && e.PowerOff?
    ensures Tidy(Next(s, e).value)
  {
    var t := Next(s, e).value;
    assert t == s.(running := s.running - {e.c});
    forall c | c in t.creators
      ensures CreatorTidy(t, c)
    {
      assert CreatorTidy(s, c);
    }
    forall c | c in t.running
      ensures MachineTidy(t, c)
    {
      assert MachineTidy(s, c);
    }
    forall d | Active(t, d)
      ensures DeleterTidy(t, d)
    {
      assert DeleterTidy(s, d);
    }
  }

  lemma DeleteFrame(s: System, e: Step)
    requires Next(s, e).Some? && ByDeleter(e) && Next(s, e).value != s
    ensures var t := Next(s, e).value;
            && t.creators == s.creators && e.d in t.deleters && t.deleters == s.deleters[e.d := t.deleters[e.d]]
            && (e.d in s.deleters ==> t.deleters[e.d].key == s.deleters[e.d].key)
            && (forall k :: k in s.shared.vms && k != t.deleters[e.d].key ==>
                k in t.shared.vms && t.shared.vms[k] == s.shared.vms[k])
            && t.running <= s.running
  {
  }

  lemma DeleterMoves(s: System, e: Step)
    requires Tidy(s) && SettledNext(s, e).Some? && ByDeleter(e) && Next(s, e).value != s
    ensures var t := Next(s, e).value;
            && t.strays == 0
            && (Active(t, e.d) ==> DeleterTidy(t, e.d))
            && (e.d in s.deleters ==> Active(s, e.d))
            && (forall c :: c in t.running && c in s.creators && s.creators[c].key == t.deleters[e.d].key ==>
                  && t.deleters[e.d].stage == Stopping && t.shared == s.shared)
  {
    var t := Next(s, e).value;
    if e.d in s.deleters && Active(s, e.d) {
      assert DeleterTidy(s, e.d);
    }
    forall c | c in t.running && c in s.creators && s.creators[c].key == t.deleters[e.d].key
      ensures t.deleters[e.d].stage == Stopping && t.shared == s.shared
    {
      assert MachineTidy(s, c);
    }
  }

  lemma CreatorTidyThen(s: System, e: Step, c: CreatorId)
    requires Tidy(s) && SettledNext(s, e).Some? && ByDeleter(e) && Next(s, e).value != s && c in s.creators
    ensures c in Next(s, e).value.creators && CreatorTidy(Next(s, e).value, c)
  {
    DeleteFrame(s, e);
    DeleterMoves(s, e);
    assert CreatorTidy(s, c);
  }

  lemma MachineTidyThen(s: System, e: Step, c: CreatorId)
    requires Tidy(s) && SettledNext(s, e).Some? && ByDeleter(e) && Next(s, e).value != s
    requires c in Next(s, e).value.running
    ensures MachineTidy(Next(s, e).value, c)
  {
    DeleteFrame(s, e);
    DeleterMoves(s, e);
    assert MachineTidy(s, c);
  }

  lemma DeleteStepTidy(s: System, e: Step)
    requires Tidy(s) && SettledNext(s, e).Some? && ByDeleter(e)
    ensures Tidy(Next(s, e).value)
  {
    var t := Next(s, e).value;
    if t != s {
      DeleteFrame(s, e);
      DeleterMoves(s, e);
      forall c | c in t.creators
        ensures CreatorTidy(t, c)
      {
        CreatorTidyThen(s, e, c);
      }
      forall c | c in t.running
        ensures MachineTidy(t, c)
      {
        MachineTidyThen(s, e, c);
      }
      forall d | Active(t, d)
        ensures DeleterTidy(t, d)
      {
        if d != e.d {
          assert DeleterTidy(s, d);
        }
      }
    }
  }

  lemma TidyStep(s: System, e: Step)
    requires Inv(s) && Tidy(s) && SettledNext(s, e).Some?
    ensures Tidy(SettledNext(s, e).value)
  {
    if ByDeleter(e) {
      DeleteStepTidy(s, e);
    } else if e.PowerOff? {
      PowerOffTidy(s, e);
    } else if e.Create? {
      if Next(s, e).value != s {
        CreateTidy(s, e);
      }
    } else {
      InCreators(s, e);
      CreatorStepTidy(s, e);
    }
  }

  lemma InCreators(s: System, e: Step)
    requires Next(s, e).Some? && ByCreator(e) && !e.Create?
    ensures e.c in s.creators
  {
  }

  /**
   * In settled runs every running machine has its permit, and no more machines run than are allowed.
   */
  lemma SettledRunsStayWithinCapacity(start: System, steps: seq<Step>, s: System)
    requires Starts(start) && Run(SettledNext, start, steps) == Some(s)
    ensures s.strays == 0 && Unbacked(s) == {} && |s.running| <= MaxVirtualMachines
  {
    StartInv(start);
    forall t, e | Inv(t) && Tidy(t) && SettledNext(t, e).Some?
      ensures Inv(SettledNext(t, e).value) && Tidy(SettledNext(t, e).value)
    {
      InvStep(t, e);
      TidyStep(t, e);
    }
    Keeps(SettledNext, t => Inv(t) && Tidy(t), start, steps);
    Unrestricted(SettledNext, Next, start, steps);
    assert Reached(s);
    MachineBound(s);
    forall c | c in s.running
      ensures Claims(s.shared, c)
    {
      assert MachineTidy(s, c);
    }
  }
}
