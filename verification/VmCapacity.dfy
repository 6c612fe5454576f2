/**
 * How many permits are held and how many machines run at once, and exactly when there can be more
 * than MaxVirtualMachines of them.
 */
module VmCapacity {
  import opened Wrappers
  import opened VmPermits
  import opened VmCreation
  import opened VmTheorems
  import opened VmPieces
  import opened Runs

  // ---------------------------------------------------------------- machines and permits

  /** Entries that hold a permit for a creation whose machine does not run. */
  function Idle(s: System): set<Key> {
    set k | k in s.shared.vms && s.shared.vms[k].permit.Some? && s.shared.vms[k].permit.value !in s.running
  }

  /** An entry holds the permit that creation c marked. */
  ghost predicate Claims(h: Shared, c: CreatorId) {
    exists k :: k in h.vms && h.vms[k].permit == Some(c)
  }

  /** Running machines whose permit no entry holds any more. */
  ghost function Unbacked(s: System): set<CreatorId> {
    set c | c in s.running && !Claims(s.shared, c)
  }

  /** A machine runs only for a creation that got as far as starting it. */
  predicate MayRun(r: Creator) {
    r.stage !in {Beginning, Downloading, Acquiring, Sent, Rejecting, Building, Starting}
  }

  ghost predicate MachinesOk(s: System) {
    forall c :: c in s.running ==> c in s.creators && MayRun(s.creators[c])
  }

  lemma MayRunStep(s: System, e: Step, c: CreatorId)
    requires Next(s, e).Some? && c in Next(s, e).value.running
    requires c in s.running ==> c in s.creators && MayRun(s.creators[c])
    ensures c in Next(s, e).value.creators && MayRun(Next(s, e).value.creators[c])
  {
  }

  lemma ReachedMachinesOk(s: System)
    requires Reached(s)
    ensures MachinesOk(s)
  {
    forall t, e | MachinesOk(t) && Next(t, e).Some?
      ensures MachinesOk(Next(t, e).value)
    {
      forall c | c in Next(t, e).value.running
        ensures c in Next(t, e).value.creators && MayRun(Next(t, e).value.creators[c])
      {
        MayRunStep(t, e, c);
      }
    }
    Invariant(Next, Starts, MachinesOk, s);
  }

  ghost predicate ClaimsDiffer(h: Shared) {
    forall k, l :: k in h.vms && l in h.vms && h.vms[k].permit.Some? && h.vms[k].permit == h.vms[l].permit ==> k == l
  }

  /** The creation whose permit the entry of k holds. */
  function Claimant(h: Shared, k: Key): CreatorId {
    if k in h.vms && h.vms[k].permit.Some? then h.vms[k].permit.value else 0
  }

  lemma BackedAreClaimants(s: System)
    ensures s.running - Unbacked(s) == ClaimantsOf(s.shared, Flagged(s.shared) - Idle(s))
  {
    forall c | c in s.running - Unbacked(s)
      ensures exists k :: k in Flagged(s.shared) - Idle(s) && Claimant(s.shared, k) == c
    {
      var k :| k in s.shared.vms && s.shared.vms[k].permit == Some(c);
      assert k in Flagged(s.shared) - Idle(s) && Claimant(s.shared, k) == c;
    }
  }

  function ClaimantsOf(h: Shared, keys: set<Key>): set<CreatorId> {
    set k | k in keys :: Claimant(h, k)
  }

  /** As many creations hold permits in the entries as there are entries. */
  lemma {:induction false} ClaimantsCount(h: Shared, keys: set<Key>)
    requires ClaimsDiffer(h) && keys <= Flagged(h)
    ensures |ClaimantsOf(h, keys)| == |keys|
  {
    if k :| k in keys {
      var rest := keys - {k};
      ClaimantsCount(h, rest);
      assert Claimant(h, k) !in ClaimantsOf(h, rest);
      assert ClaimantsOf(h, keys) == ClaimantsOf(h, rest) + {Claimant(h, k)};
    }
  }

  /** Every running machine has its permit in one entry or is unbacked. */
  lemma ClaimsMatch(s: System)
    requires ClaimsDiffer(s.shared)
    ensures |s.running| + |Idle(s)| == |Flagged(s.shared)| + |Unbacked(s)|
  {
    ClaimantsCount(s.shared, Flagged(s.shared) - Idle(s));
    BackedAreClaimants(s);
    SubsetSize(Idle(s), Flagged(s.shared));
    SubsetSize(Unbacked(s), s.running);
  }

  /**
   * The exact books of the machines, in every run: the permit ledger with running machines in the
   * place of the entries that hold their permits.
   */
  lemma MachineLedger(s: System)
    requires Reached(s)
    ensures |s.running| + |Idle(s)| + |Unmarked(s.creators)| + Debts(s) + s.orphans
            == s.shared.tokens + s.strays + |Unbacked(s)|
  {
    ReachedInv(s);
    forall k, l | k in s.shared.vms && l in s.shared.vms && s.shared.vms[k].permit.Some?
        && s.shared.vms[k].permit == s.shared.vms[l].permit
      ensures k == l
    {
      assert EntryOk(s, k) && EntryOk(s, l);
    }
    ClaimsMatch(s);
  }

  /**
   * Tokens taken by the missing-entry branch, less the tokens that deleted entries left behind, are
   * what was taken from others: beyond the maximum there are at most that many permit holders, and
   * while there are none, a receive that is owed finds a token, so neither blocking drain blocks.
   */
  lemma CapacityBound(s: System)
    requires Reached(s)
    ensures |Flagged(s.shared)| + s.orphans <= MaxVirtualMachines + s.strays
    ensures s.strays <= s.orphans ==> |Flagged(s.shared)| <= MaxVirtualMachines && Debts(s) <= s.shared.tokens
    ensures s.strays <= s.orphans ==> forall c :: AtStage(s, c, Rejecting) || AtStage(s, c, Draining) ==>
              s.shared.tokens > 0
    ensures s.strays <= s.orphans ==> forall d :: AtRemoval(s, d, Repaying) ==> s.shared.tokens > 0
  {
    ReachedInv(s);
    forall c | s.strays <= s.orphans && (AtStage(s, c, Rejecting) || AtStage(s, c, Draining))
      ensures s.shared.tokens > 0
    {
      assert c in Owing(s.creators);
    }
    forall d | s.strays <= s.orphans && AtRemoval(s, d, Repaying)
      ensures s.shared.tokens > 0
    {
      assert d in OwingDeletes(s.deleters);
    }
  }

  /** The machines that run are bounded in the same way, with those whose permit is gone in addition. */
  lemma MachineBound(s: System)
    requires Reached(s)
    ensures |s.running| + s.orphans <= MaxVirtualMachines + s.strays + |Unbacked(s)|
  {
    ReachedInv(s);
    MachineLedger(s);
  }

  lemma PermitLost(s: System, e: Step, k: Key)
    requires Next(s, e).Some? && k in s.shared.vms && s.shared.vms[k].permit.Some?
    requires k !in Next(s, e).value.shared.vms || Next(s, e).value.shared.vms[k].permit != s.shared.vms[k].permit
    ensures e.Clear? || e.ClearByDelete? || e.DeleteEntry?
  {
  }

  lemma Started(s: System, e: Step, c: CreatorId)
    requires Next(s, e).Some? && c in Next(s, e).value.running && c !in s.running
    ensures e == Boot(c, true)
  {
  }

  /** How the machine of a creation can come to run without its permit. */
  lemma UnbackedOnlyBy(s: System, e: Step, c: CreatorId)
    requires Next(s, e).Some? && c in Unbacked(Next(s, e).value) && c !in Unbacked(s)
    ensures || e == Boot(c, true)              // its permit was gone before it was started
            || e.Clear? || e.ClearByDelete?    // releasePermit cleared it while it ran
            || e.DeleteEntry?                  // or its entry was deleted with it
    ensures e != Boot(c, true) ==> c in s.running && Claims(s.shared, c) && !Claims(Next(s, e).value.shared, c)
  {
    var t := Next(s, e).value;
    if c in s.running {
      var k :| k in s.shared.vms && s.shared.vms[k].permit == Some(c);
      assert !(k in t.shared.vms && t.shared.vms[k].permit == Some(c));
      PermitLost(s, e, k);
    } else {
      Started(s, e, c);
    }
  }

  // ---------------------------------------------------------------- filling the channel

  /** Nothing was taken from others, left behind or left unbacked between the two states. */
  ghost predicate SameLosses(s: System, t: System) {
    t.strays == s.strays && t.orphans == s.orphans && Unbacked(t) == Unbacked(s)
  }

  /** What stands between a state and one in which all permits are used by running machines. */
  function Weight(s: System): nat {
    2 * |Unmarked(s.creators)| + Debts(s) + |Idle(s)|
  }

  function Claimants(h: Shared): set<CreatorId> {
    set k | k in h.vms && h.vms[k].permit.Some? :: h.vms[k].permit.value
  }

  lemma LaunchedLosses(s: System, c: CreatorId, k: Key)
    requires c !in s.creators && k !in s.shared.vms && c !in s.running && c !in Claimants(s.shared)
    ensures Unbacked(Launched(s, c, k)) == Unbacked(s) && Idle(Launched(s, c, k)) == Idle(s)
  {
    var t := Launched(s, c, k);
    assert forall l :: l in t.shared.vms <==> l in s.shared.vms || l == k;
    assert forall l :: l in s.shared.vms ==> t.shared.vms[l] == s.shared.vms[l];
    assert t.shared.vms[k].permit == Some(c);
    forall x | x in s.running
      ensures Claims(t.shared, x) <==> Claims(s.shared, x)
    {
      if l :| l in s.shared.vms && s.shared.vms[l].permit == Some(x) {
        assert l in t.shared.vms && t.shared.vms[l].permit == Some(x);
      }
    }
    forall l | l in s.shared.vms && s.shared.vms[l].permit.Some?
      ensures s.shared.vms[l].permit.value in t.running <==> s.shared.vms[l].permit.value in s.running
    {
      assert s.shared.vms[l].permit.value in Claimants(s.shared);
    }
  }

  /** With room in the channel a new machine can be brought up. */
  lemma LaunchesOne(r: System -> bool, s: System) returns (t: System)
    requires Closed(Next, r) && r(s) && s.shared.tokens < MaxVirtualMachines
    ensures r(t) && SameLosses(s, t) && Weight(t) == Weight(s) && t.shared.tokens == s.shared.tokens + 1
  {
    var c := FreshNat(s.creators.Keys + s.running + Claimants(s.shared));
    var k := FreshNat(s.shared.vms.Keys);
    t := Launched(s, c, k);
    ClosedIsClosedByCreators(r);
    Launches(r, s, c, k);
    LaunchedLosses(s, c, k);
    CreatorSets(s.creators, c, Up(k));
    assert Unmarked(t.creators) == Unmarked(s.creators) && Owing(t.creators) == Owing(s.creators);
  }

  lemma MarkLosses(s: System, c: CreatorId, t: System)
    requires AtStage(s, c, Sent) && c !in s.running && Next(s, Mark(c)) == Some(t)
    ensures SameLosses(s, t)
    ensures Idle(t) == if t.creators[c].stage == Building then Idle(s) + {s.creators[c].key} else Idle(s)
    ensures t.creators[c].stage == Building ==> s.creators[c].key !in Idle(s)
    ensures t.creators[c].stage == Building || t.creators[c].stage == Rejecting
  {
    var k := s.creators[c].key;
    forall x | x in s.running
      ensures Claims(t.shared, x) <==> Claims(s.shared, x)
    {
      if l :| l in s.shared.vms && s.shared.vms[l].permit == Some(x) {
        assert l in t.shared.vms && t.shared.vms[l].permit == Some(x);
      }
    }
  }

  lemma MarkWeight(s: System, c: CreatorId, t: System)
    requires AtStage(s, c, Sent) && c !in s.running && Next(s, Mark(c)) == Some(t)
    ensures Weight(t) < Weight(s)
  {
    MarkLosses(s, c, t);
    assert t.deleters == s.deleters && t.creators == s.creators[c := t.creators[c]];
    CreatorSets(s.creators, c, t.creators[c]);
    SizeAround(Unmarked(s.creators), c);
    SizeAround(Owing(s.creators), c);
    SizeAround(Idle(s), s.creators[c].key);
  }

  /** A creation that sent can mark its entry, or finds that it may not. */
  lemma MarksOne(r: System -> bool, s: System) returns (t: System)
    requires Closed(Next, r) && r(s) && MachinesOk(s) && Unmarked(s.creators) != {}
    ensures r(t) && SameLosses(s, t) && Weight(t) < Weight(s) && t.shared.tokens == s.shared.tokens
  {
    var c :| c in Unmarked(s.creators);
    t := Next(s, Mark(c)).value;
    MarkLosses(s, c, t);
    MarkWeight(s, c, t);
    Then(Next, r, s, Mark(c), t);
  }

  /** The creation after it took the token that it owed. */
  function Paid(r: Creator): Creator {
    if r.stage == Rejecting then r.(stage := Finalizing, err := true) else r.(stage := Finalizing)
  }

  function PaidBy(s: System, c: CreatorId): System
    requires c in s.creators && s.shared.tokens > 0
  {
    Put(s, DrainSpec(s.shared), c, Paid(s.creators[c]))
  }

  lemma PayStep(s: System, c: CreatorId)
    requires c in Owing(s.creators) && s.shared.tokens > 0
    ensures Next(s, if AtStage(s, c, Rejecting) then TakeBack(c) else Drain(c)) == Some(PaidBy(s, c))
  {
  }

  lemma PaidWeight(s: System, c: CreatorId)
    requires c in Owing(s.creators) && s.shared.tokens > 0
    ensures SameLosses(s, PaidBy(s, c)) && Weight(PaidBy(s, c)) < Weight(s)
  {
    CreatorSets(s.creators, c, Paid(s.creators[c]));
    SizeAround(Unmarked(s.creators), c);
    SizeAround(Owing(s.creators), c);
  }

  lemma CreationPays(r: System -> bool, s: System, c: CreatorId) returns (t: System)
    requires Closed(Next, r) && r(s) && c in Owing(s.creators) && s.shared.tokens > 0
    ensures r(t) && SameLosses(s, t) && Weight(t) < Weight(s) && t.shared.tokens == s.shared.tokens - 1
  {
    t := PaidBy(s, c);
    PayStep(s, c);
    PaidWeight(s, c);
    Then(Next, r, s, if AtStage(s, c, Rejecting) then TakeBack(c) else Drain(c), t);
  }

  lemma DeletionPays(r: System -> bool, s: System, d: DeleterId) returns (t: System)
    requires Closed(Next, r) && r(s) && d in OwingDeletes(s.deleters) && s.shared.tokens > 0
    ensures r(t) && SameLosses(s, t) && Weight(t) < Weight(s) && t.shared.tokens == s.shared.tokens - 1
  {
    t := PutDeleter(s, DrainSpec(s.shared), d, s.deleters[d].(stage := Deleting));
    Then(Next, r, s, DrainByDelete(d), t);
    DeleterSets(s.deleters, d, t.deleters[d]);
    SizeAround(OwingDeletes(s.deleters), d);
  }

  /** A receive that is owed can be made while there is a token. */
  lemma PaysOne(r: System -> bool, s: System) returns (t: System)
    requires Closed(Next, r) && r(s) && Debts(s) > 0 && s.shared.tokens > 0
    ensures r(t) && SameLosses(s, t) && Weight(t) < Weight(s) && t.shared.tokens == s.shared.tokens - 1
  {
    if c :| c in Owing(s.creators) {
      t := CreationPays(r, s, c);
    } else {
      assert OwingDeletes(s.deleters) != {};
      var d :| d in OwingDeletes(s.deleters);
      t := DeletionPays(r, s, d);
    }
  }

  lemma DrainedLosses(s: System, d: DeleterId, k: Key)
    requires s.shared.tokens > 0 && k in Idle(s)
    ensures Unbacked(Drained(s, d, k)) == Unbacked(s) && Idle(Drained(s, d, k)) == Idle(s) - {k}
  {
    var t := Drained(s, d, k);
    forall x | x in s.running
      ensures Claims(t.shared, x) <==> Claims(s.shared, x)
    {
      if l :| l in s.shared.vms && s.shared.vms[l].permit == Some(x) {
        assert l in t.shared.vms && t.shared.vms[l].permit == Some(x);
      }
    }
  }

  /** A permit whose machine does not run can be given back by a deletion. */
  lemma FreesOne(r: System -> bool, s: System) returns (t: System)
    requires Closed(Next, r) && r(s) && Idle(s) != {} && s.shared.tokens > 0
    ensures r(t) && SameLosses(s, t) && Weight(t) < Weight(s) && t.shared.tokens == s.shared.tokens - 1
  {
    var k :| k in Idle(s);
    var d := FreshNat(s.deleters.Keys);
    t := Drained(s, d, k);
    Drains(r, s, d, k);
    DrainedLosses(s, d, k);
    DeleterSets(s.deleters, d, t.deleters[d]);
    assert OwingDeletes(t.deleters) == OwingDeletes(s.deleters);
    SizeAround(Idle(s), k);
  }

  /** All permits are used by running machines, and nothing is in between. */
  predicate Full(s: System) {
    s.shared.tokens == MaxVirtualMachines && Weight(s) == 0
  }

  lemma OneFurther(s: System) returns (t: System)
    requires Reached(s) && s.shared.tokens <= MaxVirtualMachines && !Full(s)
    ensures Leads(Next, s, t) && SameLosses(s, t)
    ensures Weight(t) < Weight(s) || (Weight(t) == Weight(s)
              && t.shared.tokens == s.shared.tokens + 1 <= MaxVirtualMachines)
    ensures t.shared.tokens <= MaxVirtualMachines
  {
    var r := (u: System) => Leads(Next, s, u);
    LeadsIsClosed(Next, s);
    LeadsToItself(Next, s);
    ReachedMachinesOk(s);
    if s.shared.tokens < MaxVirtualMachines {
      t := LaunchesOne(r, s);
    } else if Unmarked(s.creators) != {} {
      t := MarksOne(r, s);
    } else if Debts(s) > 0 {
      t := PaysOne(r, s);
    } else {
      t := FreesOne(r, s);
    }
  }

  /** From every reached state a run that loses nothing fills all permits with running machines. */
  lemma {:induction false} FillsUp(s: System) returns (t: System)
    requires Reached(s)
    ensures Leads(Next, s, t) && Full(t) && SameLosses(s, t)
    decreases Weight(s), MaxVirtualMachines - s.shared.tokens
  {
    ReachedInv(s);
    if Full(s) {
      t := s;
      LeadsToItself(Next, s);
    } else {
      var u := OneFurther(s);
      ReachableOn(Next, Starts, s, u);
      t := FillsUp(u);
      LeadsOn(Next, s, u, t);
    }
  }

  // ---------------------------------------------------------------- exactly when the bounds fail

  /** Losses are never made good. */
  predicate LossesGrow(s: System, t: System) {
    s.strays <= t.strays && s.orphans <= t.orphans
  }

  lemma LossesGrowAlways(s: System, t: System)
    requires Leads(Next, s, t)
    ensures LossesGrow(s, t)
  {
    var steps :| Run(Next, s, steps) == Some(t);
    forall u, e | Next(u, e).Some?
      ensures LossesGrow(u, Next(u, e).value)
    {
    }
    Ordered(Next, u => true, LossesGrow, s, steps);
  }

  /** More permits than there are can be held without a further stray receive. */
  ghost predicate PermitsCanExceed(s: System) {
    exists t :: Leads(Next, s, t) && t.strays == s.strays && |Flagged(t.shared)| > MaxVirtualMachines
  }

  /** A receive can come to be owed with no token there, without a further stray receive. */
  ghost predicate DrainsCanBlock(s: System) {
    exists t :: Leads(Next, s, t) && t.strays == s.strays && Debts(t) > 0 && t.shared.tokens == 0
  }

  /** More machines than allowed can run without a further stray receive or a further unbacked machine. */
  ghost predicate MachinesCanExceed(s: System) {
    exists t :: Leads(Next, s, t) && t.strays == s.strays && Unbacked(t) <= Unbacked(s)
        && |t.running| > MaxVirtualMachines
  }

  /**
   * Unless the missing-entry branch takes a further token, more permits than there are can come to be
   * held exactly when it has taken more tokens so far than deleted entries left behind.
   */
  lemma PermitsCanExceedIff(s: System)
    requires Reached(s)
    ensures PermitsCanExceed(s) <==> s.strays > s.orphans
  {
    if t :| Leads(Next, s, t) && t.strays == s.strays && |Flagged(t.shared)| > MaxVirtualMachines {
      ReachableOn(Next, Starts, s, t);
      CapacityBound(t);
      LossesGrowAlways(s, t);
    }
    if s.strays > s.orphans {
      var t := FillsUp(s);
      ReachableOn(Next, Starts, s, t);
      ReachedInv(t);
    }
  }

  /** A deletion can clear and repay every permit that is held, one by one, until no token is left. */
  lemma {:induction false} RunsDry(s: System, t: System) returns (u: System)
    requires Leads(Next, s, t) && Reached(t) && Weight(t) == |Idle(t)|
    requires |Flagged(t.shared)| > t.shared.tokens
    ensures Leads(Next, s, u) && u.strays == t.strays && u.shared.tokens == 0 && Flagged(u.shared) != {}
    decreases t.shared.tokens
  {
    assert Flagged(t.shared) != {};
    if t.shared.tokens == 0 {
      u := t;
    } else {
      var k :| k in Flagged(t.shared);
      var d := FreshNat(t.deleters.Keys);
      var v := Drained(t, d, k);
      LeadsIsClosed(Next, s);
      Drains(x => Leads(Next, s, x), t, d, k);
      LeadsIsClosed(Next, t);
      LeadsToItself(Next, t);
      Drains(x => Leads(Next, t, x), t, d, k);
      ReachableOn(Next, Starts, t, v);
      FlaggedWith(t.shared, k, t.shared.vms[k].(permit := None));
      assert Flagged(v.shared) == Flagged(t.shared) - {k};
      SizeAround(Flagged(t.shared), k);
      DeleterSets(t.deleters, d, v.deleters[d]);
      u := RunsDry(s, v);
    }
  }

  /** One more deletion then waits for a token that is not there. */
  lemma BlocksThen(s: System, u: System) returns (t: System)
    requires Leads(Next, s, u) && u.shared.tokens == 0 && Flagged(u.shared) != {}
    ensures Leads(Next, s, t) && t.strays == u.strays && t.shared.tokens == 0 && Debts(t) > 0
  {
    var k :| k in Flagged(u.shared);
    var d := FreshNat(u.deleters.Keys);
    LeadsIsClosed(Next, s);
    Clears(x => Leads(Next, s, x), u, d, k);
    t := ClearedBy(u, d, k);
    assert d in OwingDeletes(t.deleters);
  }

  /** The blocking drains can block on exactly the same condition. */
  lemma DrainsCanBlockIff(s: System)
    requires Reached(s)
    ensures DrainsCanBlock(s) <==> s.strays > s.orphans
  {
    if t :| Leads(Next, s, t) && t.strays == s.strays && Debts(t) > 0 && t.shared.tokens == 0 {
      ReachableOn(Next, Starts, s, t);
      CapacityBound(t);
      LossesGrowAlways(s, t);
    }
    if s.strays > s.orphans {
      var full := FillsUp(s);
      ReachableOn(Next, Starts, s, full);
      ReachedInv(full);
      var dry := RunsDry(s, full);
      var t := BlocksThen(s, dry);
    }
  }

  /**
   * Unless a permit is lost anew, more machines than allowed can come to run exactly when stray receives
   * and machines without their permit outnumber the tokens that deleted entries left behind.
   */
  lemma MachinesCanExceedIff(s: System)
    requires Reached(s)
    ensures MachinesCanExceed(s) <==> s.strays + |Unbacked(s)| > s.orphans
  {
    if MachinesCanExceed(s) {
      var t :|
        && Leads(Next, s, t) && t.strays == s.strays
        && Unbacked(t) <= Unbacked(s) && |t.running| > MaxVirtualMachines;
      ReachableOn(Next, Starts, s, t);
      MachineBound(t);
      LossesGrowAlways(s, t);
      SubsetSize(Unbacked(t), Unbacked(s));
    }
    if s.strays + |Unbacked(s)| > s.orphans {
      var t := FillsUp(s);
      ReachableOn(Next, Starts, s, t);
      MachineLedger(t);
    }
  }
}
