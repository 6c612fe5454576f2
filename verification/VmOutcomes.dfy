/** From which states an entry can come to hold both a marker and an error, while it lives. */
module VmOutcomes {
  import opened Wrappers
  import opened VmPermits
  import opened VmCreation
  import opened VmTheorems
  import opened Runs

  /** The creation can still set a marker. */
  predicate CanMark(r: Creator) {
    r.stage in {Beginning, Downloading, Acquiring, Sent, Building, Starting, Addressing, Probing, Hooking, Marking}
  }

  /** The creation can still set an error. */
  predicate CanFail(r: Creator) {
    || r.stage in {Beginning, Downloading, Acquiring, Sent, Rejecting, Building, Starting, Addressing, Probing, Hooking}
    || r.stage in {Clearing, Draining, TryDraining}
    || (r.stage == Finalizing && r.err)
  }

  /** The creation set the marker of the entry, or can still set it. */
  predicate Marker(s: System, k: Key, c: CreatorId)
    requires k in s.shared.vms
  {
    s.shared.vms[k].markedBy == Some(c) || (Keyed(s, k, c) && CanMark(s.creators[c]))
  }

  /** The creation set the error of the entry, or can still set it. */
  predicate Failer(s: System, k: Key, c: CreatorId)
    requires k in s.shared.vms
  {
    s.shared.vms[k].failedBy == Some(c) || (Keyed(s, k, c) && CanFail(s.creators[c]))
  }

  /** The entry is there in both states, and is the same one. */
  predicate SameEntry(s: System, t: System, k: Key) {
    k in s.shared.vms && k in t.shared.vms && s.shared.vms[k].owner == t.shared.vms[k].owner
  }

  predicate HoldsBoth(s: System, k: Key) {
    k in s.shared.vms && s.shared.vms[k].markedBy.Some? && s.shared.vms[k].failedBy.Some?
  }

  ghost predicate CanHoldBoth(s: System, k: Key) {
    exists t :: Leads(Next, s, t) && SameEntry(s, t, k) && HoldsBoth(t, k)
  }

  // ---------------------------------------------------------------- backwards

  /** While an entry lives no creation joins it, and none gets back to where it could mark or fail. */
  lemma BackOne(s: System, e: Step, k: Key, c: CreatorId)
    requires Next(s, e).Some? && k in s.shared.vms && Keyed(Next(s, e).value, k, c)
    requires c in s.creators ==> CreatorOk(s.creators[c])
    ensures Keyed(s, k, c)
    ensures CanMark(Next(s, e).value.creators[c]) ==> CanMark(s.creators[c])
    ensures CanFail(Next(s, e).value.creators[c]) ==> CanFail(s.creators[c])
  {
    if !ByCreator(e) || c != e.c {
      OthersStay(s, e, c);
    }
  }

  /** Who marks or fails an entry was about to. */
  lemma WriterWas(s: System, e: Step, k: Key)
    requires Next(s, e).Some? && SameEntry(s, Next(s, e).value, k)
    ensures var i, j := s.shared.vms[k], Next(s, e).value.shared.vms[k];
            && (j.markedBy != i.markedBy ==>
                  && ByCreator(e) && j.markedBy == Some(e.c) && Keyed(s, k, e.c)
                  && CanMark(s.creators[e.c]))
            && (j.failedBy != i.failedBy ==>
                  && ByCreator(e) && j.failedBy == Some(e.c) && Keyed(s, k, e.c)
                  && CanFail(s.creators[e.c]))
  {
    EntriesMove(s, e, k);
  }

  lemma BackStep(s: System, e: Step, k: Key, c: CreatorId)
    requires c in s.creators ==> CreatorOk(s.creators[c])
    requires Next(s, e).Some? && SameEntry(s, Next(s, e).value, k)
    ensures Marker(Next(s, e).value, k, c) ==> Marker(s, k, c)
    ensures Failer(Next(s, e).value, k, c) ==> Failer(s, k, c)
  {
    WriterWas(s, e, k);
    if Keyed(Next(s, e).value, k, c) {
      BackOne(s, e, k, c);
    }
  }

  lemma EntryBetween(s: System, e: Step, more: seq<Step>, t: System, k: Key)
    requires Next(s, e).Some? && Run(Next, Next(s, e).value, more) == Some(t)
    requires SameEntry(s, t, k) && s.shared.vms[k].owner in s.creators
    ensures SameEntry(s, Next(s, e).value, k) && SameEntry(Next(s, e).value, t, k)
  {
    CreatorsOnward(s, e, s.shared.vms[k].owner);
    EntriesLastAlways(Next(s, e).value, more, t);
  }

  lemma {:induction false} Back(s: System, steps: seq<Step>, t: System, k: Key, c: CreatorId)
    requires Inv(s) && Run(Next, s, steps) == Some(t) && SameEntry(s, t, k)
    ensures Marker(t, k, c) ==> Marker(s, k, c)
    ensures Failer(t, k, c) ==> Failer(s, k, c)
    decreases |steps|
  {
    if steps != [] {
      var u := Next(s, steps[0]).value;
      assert EntryOk(s, k);
      EntryBetween(s, steps[0], steps[1..], t, k);
      InvStep(s, steps[0]);
      Back(u, steps[1..], t, k, c);
      BackStep(s, steps[0], k, c);
    }
  }

  // ---------------------------------------------------------------- forwards

  /** The entry and its outcomes are still there, and the creations of the set have not moved. */
  predicate Spares(s: System, t: System, k: Key, xs: set<CreatorId>) {
    && SameEntry(s, t, k)
    && (s.shared.vms[k].markedBy.Some? ==> t.shared.vms[k].markedBy.Some?)
    && (s.shared.vms[k].failedBy.Some? ==> t.shared.vms[k].failedBy.Some?)
    && (forall x :: x in xs && x in s.creators ==> x in t.creators && t.creators[x] == s.creators[x])
  }

  /** The step neither deletes the entry nor moves one of the creations. */
  predicate Harmless(s: System, e: Step, k: Key, xs: set<CreatorId>) {
    && (e.DeleteEntry? && e.d in s.deleters ==> s.deleters[e.d].key != k)
    && (ByCreator(e) ==> e.c !in xs)
  }

  lemma EntryStays(s: System, e: Step, k: Key)
    requires Next(s, e).Some? && k in s.shared.vms
    requires e.DeleteEntry? && e.d in s.deleters ==> s.deleters[e.d].key != k
    ensures k in Next(s, e).value.shared.vms
  {
  }

  /** Take a harmless step. */
  lemma Take(r: System -> bool, s: System, e: Step, k: Key, xs: set<CreatorId>) returns (t: System)
    requires Closed(Next, r) && r(s) && Next(s, e).Some? && k in s.shared.vms && Harmless(s, e, k, xs)
    ensures Next(s, e) == Some(t) && r(t) && Spares(s, t, k, xs)
  {
    t := Next(s, e).value;
    Then(Next, r, s, e, t);
    EntryStays(s, e, k);
    EntriesMove(s, e, k);
    forall x | x in xs && x in s.creators
      ensures x in t.creators && t.creators[x] == s.creators[x]
    {
      OthersStay(s, e, x);
    }
  }

  /** A new creation of another key, past its download. */
  lemma Newcomer(r: System -> bool, s: System, k: Key, xs: set<CreatorId>) returns (t: System, c: CreatorId)
    requires Closed(Next, r) && r(s) && k in s.shared.vms && xs <= s.creators.Keys
    ensures r(t) && Spares(s, t, k, xs) && t.shared.tokens == s.shared.tokens
    ensures c !in xs && AtStage(t, c, Acquiring)
  {
    c := FreshNat(s.creators.Keys);
    var l := FreshNat(s.shared.vms.Keys);
    var u := Take(r, s, Create(c, l, false), k, xs);
    var v := Take(r, u, StoreCancel(c), k, xs);
    t := Take(r, v, DownloadEnds(c, true), k, xs);
  }

  /** There can always be a token in the channel. */
  lemma Raises(r: System -> bool, s: System, k: Key, xs: set<CreatorId>) returns (t: System)
    requires Closed(Next, r) && r(s) && k in s.shared.vms && xs <= s.creators.Keys
    ensures r(t) && Spares(s, t, k, xs) && t.shared.tokens > 0
  {
    if s.shared.tokens > 0 {
      t := s;
    } else {
      var u, c := Newcomer(r, s, k, xs);
      t := Take(r, u, Send(c), k, xs);
    }
  }

  /** Another key with two deletes at work on it. */
  lemma TwoDeletes(r: System -> bool, s: System, k: Key, xs: set<CreatorId>)
    returns (t: System, l: Key, d: DeleterId, f: DeleterId)
    requires Closed(Next, r) && r(s) && k in s.shared.vms && xs <= s.creators.Keys
    ensures r(t) && Spares(s, t, k, xs) && t.shared.tokens == s.shared.tokens
    ensures l != k && d != f && AtRemoval(t, d, Stopping) && AtRemoval(t, f, Stopping)
    ensures t.deleters[d].key == l && t.deleters[f].key == l && l in t.shared.vms && t.shared.vms[l].permit.None?
  {
    var c := FreshNat(s.creators.Keys);
    l := FreshNat(s.shared.vms.Keys);
    d := FreshNat(s.deleters.Keys);
    f := d + 1;
    var u := Take(r, s, Create(c, l, false), k, xs);
    var v := Take(r, u, BeginDelete(d, l), k, xs);
    t := Take(r, v, BeginDelete(f, l), k, xs);
  }

  /** The first of them removes the entry of that key. */
  lemma FirstDeletes(r: System -> bool, s: System, k: Key, xs: set<CreatorId>, l: Key, d: DeleterId, f: DeleterId)
    returns (t: System)
    requires Closed(Next, r) && r(s) && k in s.shared.vms
    requires l != k && d != f && AtRemoval(s, d, Stopping) && AtRemoval(s, f, Stopping)
    requires s.deleters[d].key == l && s.deleters[f].key == l && l in s.shared.vms && s.shared.vms[l].permit.None?
    ensures r(t) && Spares(s, t, k, xs) && t.shared.tokens == s.shared.tokens
    ensures AtRemoval(t, f, Stopping) && t.deleters[f].key == l && l !in t.shared.vms
  {
    var u := Take(r, s, Stopped(d, false), k, xs);
    var v := Take(r, u, ClearByDelete(d), k, xs);
    t := Take(r, v, DeleteEntry(d), k, xs);
  }

  /** The second finds the entry gone and takes a token. */
  lemma SecondDeletes(r: System -> bool, s: System, k: Key, xs: set<CreatorId>, l: Key, f: DeleterId)
      returns (t: System)
    requires Closed(Next, r) && r(s) && k in s.shared.vms
    requires AtRemoval(s, f, Stopping) && s.deleters[f].key == l && l !in s.shared.vms && s.shared.tokens > 0
    ensures r(t) && Spares(s, t, k, xs) && t.shared.tokens == s.shared.tokens - 1
  {
    var u := Take(r, s, Stopped(f, false), k, xs);
    var v := Take(r, u, ClearByDelete(f), k, xs);
    t := Take(r, v, TryDrainByDelete(f), k, xs);
  }

  /** There can always be room in the channel. */
  lemma Lowers(r: System -> bool, s: System, k: Key, xs: set<CreatorId>) returns (t: System)
    requires Closed(Next, r) && r(s) && k in s.shared.vms && xs <= s.creators.Keys
    requires s.shared.tokens <= MaxVirtualMachines
    ensures r(t) && Spares(s, t, k, xs) && t.shared.tokens < MaxVirtualMachines
  {
    if s.shared.tokens < MaxVirtualMachines {
      t := s;
    } else {
      var u, l, d, f := TwoDeletes(r, s, k, xs);
      var v := FirstDeletes(r, u, k, xs, l, d, f);
      t := SecondDeletes(r, v, k, xs, l, f);
    }
  }

  /** The permit of the entry can be cleared, and the entry stays. */
  lemma Unflags(r: System -> bool, s: System, k: Key, xs: set<CreatorId>) returns (t: System)
    requires Closed(Next, r) && r(s) && k in s.shared.vms
    ensures r(t) && Spares(s, t, k, xs) && t.shared.vms[k].permit.None?
  {
    if s.shared.vms[k].permit.None? {
      t := s;
    } else {
      var d := FreshNat(s.deleters.Keys);
      var u := Take(r, s, BeginDelete(d, k), k, xs);
      var v := Take(r, u, Stopped(d, false), k, xs);
      t := Take(r, v, ClearByDelete(d), k, xs);
    }
  }

  // ---------------------------------------------------------------- towards the marker

  function MarkRank(r: Creator): nat {
    match r.stage
    case Beginning => 10
    case Downloading => 9
    case Acquiring => 8
    case Sent => 7
    case Building => 6
    case Starting => 5
    case Addressing => 4
    case Probing => 3
    case Hooking => 2
    case Marking => 1
    case _ => 0
  }

  /** The next step on the way, when nothing is in it. */
  function MarkStep(r: Creator, c: CreatorId): Step {
    match r.stage
    case Beginning => StoreCancel(c)
    case Downloading => DownloadEnds(c, true)
    case Acquiring => Send(c)
    case Sent => Mark(c)
    case Building => BuildEnds(c, true)
    case Starting => Boot(c, true)
    case Addressing => AddressEnds(c, true, false)
    case Probing => ProbeEnds(c, true)
    case Hooking => HookEnds(c, true)
    case _ => RecordSuccess(c)
  }

  lemma MarkStepGoes(s: System, k: Key, c: CreatorId)
    requires Keyed(s, k, c) && k in s.shared.vms && CanMark(s.creators[c])
    requires s.creators[c].stage == Acquiring ==> s.shared.tokens < MaxVirtualMachines
    requires s.creators[c].stage == Sent ==> s.shared.vms[k].permit.None?
    ensures var n := Next(s, MarkStep(s.creators[c], c));
            && n.Some? && k in n.value.shared.vms && Keyed(n.value, k, c)
            && if s.creators[c].stage == Marking then n.value.shared.vms[k].markedBy.Some?
               else CanMark(n.value.creators[c]) && MarkRank(n.value.creators[c]) < MarkRank(s.creators[c])
  {
  }

  /** What stands in the way of the next step can be cleared away. */
  lemma ClearsTheWay(r: System -> bool, s: System, k: Key, c: CreatorId, xs: set<CreatorId>) returns (t: System)
    requires Closed(Next, r) && r(s) && k in s.shared.vms && c in xs && xs <= s.creators.Keys
    requires s.shared.tokens <= MaxVirtualMachines
    ensures r(t) && Spares(s, t, k, xs)
    ensures s.creators[c].stage == Acquiring ==> t.shared.tokens < MaxVirtualMachines
    ensures s.creators[c].stage == Sent ==> t.shared.vms[k].permit.None?
  {
    if s.creators[c].stage == Acquiring {
      t := Lowers(r, s, k, xs);
    } else if s.creators[c].stage == Sent {
      t := Unflags(r, s, k, xs);
    } else {
      t := s;
    }
  }

  lemma SparesMore(s: System, t: System, u: System, k: Key, xs: set<CreatorId>, ys: set<CreatorId>)
    requires Spares(s, t, k, ys) && Spares(t, u, k, xs) && xs <= ys
    ensures Spares(s, u, k, xs)
  {
  }

  /** One step further towards the marker. */
  lemma MarksOne(r: System -> bool, s: System, k: Key, c: CreatorId, d: CreatorId) returns (t: System)
    requires Closed(Next, r) && r(s) && s.shared.tokens <= MaxVirtualMachines
    requires k in s.shared.vms && Keyed(s, k, c) && CanMark(s.creators[c]) && d in s.creators && c != d
    ensures r(t) && Spares(s, t, k, {d}) && Keyed(t, k, c)
    ensures if s.creators[c].stage == Marking then t.shared.vms[k].markedBy.Some?
            else CanMark(t.creators[c]) && MarkRank(t.creators[c]) < MarkRank(s.creators[c])
  {
    var u := ClearsTheWay(r, s, k, c, {c, d});
    MarkStepGoes(u, k, c);
    t := Take(r, u, MarkStep(u.creators[c], c), k, {d});
    SparesMore(s, u, t, k, {d}, {c, d});
  }

  /** A creation that can mark can do so while another stands still. */
  lemma {:induction false} Marks(first: System, s: System, k: Key, c: CreatorId, d: CreatorId) returns (t: System)
    requires Reached(first) && Leads(Next, first, s)
    requires k in s.shared.vms && Keyed(s, k, c) && CanMark(s.creators[c]) && d in s.creators && c != d
    ensures Leads(Next, first, t) && Spares(s, t, k, {d}) && t.shared.vms[k].markedBy.Some?
    decreases MarkRank(s.creators[c])
  {
    LeadsIsClosed(Next, first);
    ReachableOn(Next, Starts, first, s);
    PermitLedger(s);
    t := MarksOne(u => Leads(Next, first, u), s, k, c, d);
    if s.creators[c].stage != Marking {
      var v := t;
      t := Marks(first, v, k, c, d);
      SparesMore(s, v, t, k, {d}, {d});
    }
  }

  // ---------------------------------------------------------------- towards the error

  function FailRank(r: Creator): nat {
    match r.stage
    case Beginning => 12
    case Downloading => 11
    case Acquiring => 10
    case Sent => 9
    case Rejecting => 8
    case Building => 8
    case Starting => 8
    case Addressing => 8
    case Probing => 8
    case Hooking => 8
    case Clearing => 3
    case Draining => 2
    case TryDraining => 2
    case Finalizing => 1
    case _ => 0
  }

  /** The next step on the way. */
  function FailStep(r: Creator, c: CreatorId): Step {
    match r.stage
    case Beginning => StoreCancel(c)
    case Downloading => DownloadEnds(c, false)
    case Acquiring => GiveUp(c)
    case Sent => Mark(c)
    case Rejecting => TakeBack(c)
    case Building => BuildEnds(c, false)
    case Starting => Boot(c, false)
    case Addressing => AddressEnds(c, false, true)
    case Probing => ProbeEnds(c, false)
    case Hooking => HookEnds(c, false)
    case Clearing => Clear(c)
    case Draining => Drain(c)
    case TryDraining => TryDrain(c)
    case _ => Finalize(c)
  }

  lemma FailStepGoes(s: System, k: Key, c: CreatorId)
    requires Keyed(s, k, c) && k in s.shared.vms && CanFail(s.creators[c]) && CreatorOk(s.creators[c])
    requires s.creators[c].stage in {Rejecting, Draining} ==> s.shared.tokens > 0
    ensures var n := Next(s, FailStep(s.creators[c], c));
            && n.Some? && k in n.value.shared.vms && Keyed(n.value, k, c)
            && if s.creators[c].stage == Finalizing then n.value.shared.vms[k].failedBy.Some?
               else CanFail(n.value.creators[c]) && FailRank(n.value.creators[c]) < FailRank(s.creators[c])
  {
  }

  /** A creation that can fail can do so. */
  lemma {:induction false} Fails(first: System, s: System, k: Key, d: CreatorId) returns (t: System)
    requires Reached(first) && Leads(Next, first, s)
    requires k in s.shared.vms && Keyed(s, k, d) && CanFail(s.creators[d])
    ensures Leads(Next, first, t) && Spares(s, t, k, {}) && t.shared.vms[k].failedBy.Some?
    decreases FailRank(s.creators[d])
  {
    var r := (u: System) => Leads(Next, first, u);
    LeadsIsClosed(Next, first);
    var u := Raises(r, s, k, {d});
    ReachableOn(Next, Starts, first, u);
    ReachedInv(u);
    FailStepGoes(u, k, d);
    var v := Take(r, u, FailStep(u.creators[d], d), k, {});
    SparesMore(s, u, v, k, {}, {d});
    if s.creators[d].stage == Finalizing {
      t := v;
    } else {
      t := Fails(first, v, k, d);
      SparesMore(s, v, t, k, {}, {});
    }
  }

  /** The one marks and the other fails. */
  lemma BothHappen(s: System, k: Key, c: CreatorId, d: CreatorId)
    requires Reached(s) && k in s.shared.vms && c != d && Marker(s, k, c) && Failer(s, k, d)
    ensures CanHoldBoth(s, k)
  {
    ReachedInv(s);
    assert EntryOk(s, k);
    LeadsToItself(Next, s);
    var t := s;
    if s.shared.vms[k].markedBy.None? {
      t := Marks(s, s, k, c, d);
    }
    if t.shared.vms[k].failedBy.None? {
      t := Fails(s, t, k, d);
    }
    assert SameEntry(s, t, k) && HoldsBoth(t, k);
  }

  /**
   * An entry can come to hold both a marker and an error exactly when one creation of its key set the
   * marker or is on the way to it, and another set the error or is on the way to it.
   */
  lemma CanHoldBothIff(s: System, k: Key)
    requires Reached(s) && k in s.shared.vms
    ensures CanHoldBoth(s, k) <==> exists c, d :: c != d && Marker(s, k, c) && Failer(s, k, d)
  {
    if t :| Leads(Next, s, t) && SameEntry(s, t, k) && HoldsBoth(t, k) {
      var steps :| Run(Next, s, steps) == Some(t);
      var c, d := t.shared.vms[k].markedBy.value, t.shared.vms[k].failedBy.value;
      ReachableOn(Next, Starts, s, t);
      ReadinessIsEarned(t, k);
      ReachedInv(s);
      assert EntryOk(s, k);
      Back(s, steps, t, k, c);
      Back(s, steps, t, k, d);
    }
    if c, d :| c != d && Marker(s, k, c) && Failer(s, k, d) {
      BothHappen(s, k, c, d);
    }
  }
}
