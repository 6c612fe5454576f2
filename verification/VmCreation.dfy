/**
 * Creations and deletions of virtual machines (pkg/resourcemanager/macos.go, macos_permits.go,
 * macos_poststart.go) in any number and any order of their atomic operations.
 *
 * Deferred calls run last in, first out: a creation releases its guard before it finalizes the
 * entry, and DeleteVirtualMachine releases the permit before it deletes the entry, whatever the
 * comment at pkg/resourcemanager/macos.go:257 says.
 *
 * A machine runs from Boot until it is stopped: by a delete that loaded its instance (Stopped), by
 * Start when no address is found (AddressEnds), or by itself or its guest (PowerOff). Stopping it
 * may fail.
 */
module VmCreation {
  import opened Wrappers
  import opened VmPermits
  import opened Runs

  type DeleterId = nat

  /** Where one run of handleVirtualMachineCreation stands. */
  datatype Stage =
    | Beginning      // about to store the cancel function
    | Downloading
    | Acquiring      // in the select of acquirePermit
    | Sent           // a token is in the channel, the entry not yet marked
    | Rejecting      // marking failed, about to take the token back
    | Building       // holds the guard; createVirtualMachineInstance
    | Starting       // about to start the machine
    | Addressing     // the machine runs; Start waits for its IP address
    | Probing        // committed; waiting for sshd
    | Hooking        // running the post-start action
    | Marking        // about to record post-start success
    | Clearing       // guard.Release: the Update of releasePermit
    | Draining       // the flag was cleared, about to take a token
    | TryDraining    // the entry was missing
    | Finalizing
    | Ended

  datatype Creator = Creator(
    key: Key,
    hook: bool,        // params.PostStartAction != nil
    stage: Stage,
    err: bool,         // the function-level err
    guard: Guard,      // the guard, once there is one
    started: bool,     // vm.Start succeeded
    probed: bool,      // the SSH readiness probe succeeded
    hookRuns: nat,     // times the hook was executed
    clears: nat)       // times the guard ran releasePermit

  datatype Removal = Stopping | Releasing | Repaying | TryRepaying | Deleting | Gone

  /** `loaded` is the instance that the entry held when DeleteVirtualMachine loaded it. */
  datatype Deleter = Deleter(key: Key, stage: Removal, loaded: Option<CreatorId>)

  datatype System = System(
    shared: Shared,
    creators: map<CreatorId, Creator>,
    deleters: map<DeleterId, Deleter>,
    running: set<CreatorId>,   // creations whose machine was started and has not stopped
    strays: nat,       // tokens taken by the missing-entry branch of releasePermit
    orphans: nat)      // entries deleted with their flag set

  ghost predicate Starts(s: System) {
    s == System(Shared(0, map[]), map[], map[], {}, 0, 0)
  }

  datatype Step =
    | Create(c: CreatorId, key: Key, hook: bool)
    | StoreCancel(c: CreatorId)
    | DownloadEnds(c: CreatorId, ok: bool)
    | Send(c: CreatorId)
    | GiveUp(c: CreatorId)
    | Mark(c: CreatorId)
    | TakeBack(c: CreatorId)
    | BuildEnds(c: CreatorId, ok: bool)
    | Boot(c: CreatorId, ok: bool)
    | AddressEnds(c: CreatorId, ok: bool, killed: bool)
    | ProbeEnds(c: CreatorId, ok: bool)
    | HookEnds(c: CreatorId, ok: bool)
    | RecordSuccess(c: CreatorId)
    | Clear(c: CreatorId)
    | Drain(c: CreatorId)
    | TryDrain(c: CreatorId)
    | Finalize(c: CreatorId)
    | BeginDelete(d: DeleterId, key: Key)
    | Stopped(d: DeleterId, effective: bool)
    | ClearByDelete(d: DeleterId)
    | DrainByDelete(d: DeleterId)
    | TryDrainByDelete(d: DeleterId)
    | DeleteEntry(d: DeleterId)
    | PowerOff(c: CreatorId)

  predicate AtStage(s: System, c: CreatorId, stage: Stage) {
    c in s.creators && s.creators[c].stage == stage
  }

  predicate AtRemoval(s: System, d: DeleterId, stage: Removal) {
    d in s.deleters && s.deleters[d].stage == stage
  }

  function Put(s: System, h: Shared, c: CreatorId, r: Creator): System {
    s.(shared := h, creators := s.creators[c := r])
  }

  function PutDeleter(s: System, h: Shared, d: DeleterId, r: Deleter): System {
    s.(shared := h, deleters := s.deleters[d := r])
  }

  /** The creation returns with this err while it holds the guard, and the deferred Release runs. */
  function Leave(r: Creator, err: bool): Creator {
    var (guard, releases) := ReleaseSpec(r.guard);
    r.(guard := guard, stage := if releases then Clearing else Finalizing, err := err)
  }

  /** The step function: None when the step is not enabled. */
  function Next(s: System, e: Step): Option<System> {
    match e
    case Create(c, k, hook) =>
      if c in s.creators then None
      else
        var (h, stored) := StoreSpec(s.shared, k, c);
        if !stored then Some(s)  // CreateVirtualMachine reports that the machine exists
        else Some(Put(s, h, c, Creator(k, hook, Beginning, false, NewGuard, false, false, 0, 0)))
    case StoreCancel(c) =>
      if !AtStage(s, c, Beginning) then None
      else
        var r := s.creators[c];
        var (h, found) := SetCancelSpec(s.shared, r.key);
        Some(Put(s, h, c, r.(stage := if found then Downloading else Finalizing)))
    case DownloadEnds(c, ok) =>
      if !AtStage(s, c, Downloading) then None
      else
        var r := s.creators[c];
        Some(Put(s, s.shared, c, if ok then r.(stage := Acquiring) else r.(stage := Finalizing, err := true)))
    case Send(c) =>
      if !AtStage(s, c, Acquiring) || s.shared.tokens >= MaxVirtualMachines then None
      else Some(Put(s, SendSpec(s.shared), c, s.creators[c].(stage := Sent)))
    case GiveUp(c) =>
      if !AtStage(s, c, Acquiring) then None
      else Some(Put(s, s.shared, c, s.creators[c].(stage := Finalizing, err := true)))
    case Mark(c) =>
      if !AtStage(s, c, Sent) then None
      else
        var r := s.creators[c];
        var (h, result) := MarkSpec(s.shared, r.key, c);
        Some(Put(s, h, c, r.(stage := if result.Marked? then Building else Rejecting)))
    case TakeBack(c) =>
      if !AtStage(s, c, Rejecting) || s.shared.tokens == 0 then None
      else Some(Put(s, DrainSpec(s.shared), c, s.creators[c].(stage := Finalizing, err := true)))
    case BuildEnds(c, ok) =>
      if !AtStage(s, c, Building) then None
      else
        var r := s.creators[c];
        if ok then Some(Put(s, SetInstanceSpec(s.shared, r.key, c), c, r.(stage := Starting)))
        else Some(Put(s, s.shared, c, Leave(r, true)))
    case Boot(c, ok) =>
      if !AtStage(s, c, Starting) then None
      else
        var r := s.creators[c];
        if ok then Some(Put(s, s.shared, c, r.(stage := Addressing)).(running := s.running + {c}))
        else Some(Put(s, s.shared, c, Leave(r, true)))
    case AddressEnds(c, ok, killed) =>
      if !AtStage(s, c, Addressing) then None
      else
        var r := s.creators[c];
        if ok then Some(Put(s, s.shared, c, r.(stage := Probing, started := true, guard := CommitSpec(r.guard))))
        else Some(Put(s, s.shared, c, Leave(r, true)).(running := if killed then s.running - {c} else s.running))
    case ProbeEnds(c, ok) =>
      if !AtStage(s, c, Probing) then None
      else
        var r := s.creators[c];
        if ok then Some(Put(s, s.shared, c, r.(probed := true, stage := if r.hook then Hooking else Marking)))
        else Some(Put(s, s.shared, c, Leave(r, true)))
    case HookEnds(c, ok) =>
      if !AtStage(s, c, Hooking) then None
      else
        var r := s.creators[c].(hookRuns := s.creators[c].hookRuns + 1);
        Some(Put(s, s.shared, c, if ok then r.(stage := Marking) else Leave(r, true)))
    case RecordSuccess(c) =>
      if !AtStage(s, c, Marking) then None
      else Some(Put(s, SetMarkerSpec(s.shared, s.creators[c].key, c), c, Leave(s.creators[c], false)))
    case Clear(c) =>
      if !AtStage(s, c, Clearing) then None
      else
        var r := s.creators[c];
        var (h, result) := ClearSpec(s.shared, r.key);
        var to := match result
          case Cleared => Draining
          case NotHeld => Finalizing
          case Missing => TryDraining;
        Some(Put(s, h, c, r.(stage := to, clears := r.clears + 1)))
    case Drain(c) =>
      if !AtStage(s, c, Draining) || s.shared.tokens == 0 then None
      else Some(Put(s, DrainSpec(s.shared), c, s.creators[c].(stage := Finalizing)))
    case TryDrain(c) =>
      if !AtStage(s, c, TryDraining) then None
      else
        var r := s.creators[c].(stage := Finalizing);
        if s.shared.tokens == 0 then Some(Put(s, s.shared, c, r))
        else Some(Put(s, DrainSpec(s.shared), c, r).(strays := s.strays + 1))
    case Finalize(c) =>
      if !AtStage(s, c, Finalizing) then None
      else
        var r := s.creators[c];
        Some(Put(s, FinalizeSpec(s.shared, r.key, c, r.err), c, r.(stage := Ended)))
    case BeginDelete(d, k) =>
      if d in s.deleters then None
      else if k !in s.shared.vms then Some(s)  // nothing to delete
      else Some(PutDeleter(s, s.shared, d, Deleter(k, Stopping, s.shared.vms[k].instance)))
    case Stopped(d, effective) =>
      if !AtRemoval(s, d, Stopping) then None
      else
        var r := s.deleters[d];
        Some(PutDeleter(s, s.shared, d, r.(stage := Releasing)).(
             running := if effective && r.loaded.Some? then s.running - {r.loaded.value} else s.running))
    case ClearByDelete(d) =>
      if !AtRemoval(s, d, Releasing) then None
      else
        var r := s.deleters[d];
        var (h, result) := ClearSpec(s.shared, r.key);
        var to := match result
          case Cleared => Repaying
          case NotHeld => Deleting
          case Missing => TryRepaying;
        Some(PutDeleter(s, h, d, r.(stage := to)))
    case DrainByDelete(d) =>
      if !AtRemoval(s, d, Repaying) || s.shared.tokens == 0 then None
      else Some(PutDeleter(s, DrainSpec(s.shared), d, s.deleters[d].(stage := Deleting)))
    case TryDrainByDelete(d) =>
      if !AtRemoval(s, d, TryRepaying) then None
      else
        var r := s.deleters[d].(stage := Deleting);
        if s.shared.tokens == 0 then Some(PutDeleter(s, s.shared, d, r))
        else Some(PutDeleter(s, DrainSpec(s.shared), d, r).(strays := s.strays + 1))
    case DeleteEntry(d) =>
      if !AtRemoval(s, d, Deleting) then None
      else
        var k := s.deleters[d].key;
        Some(PutDeleter(s, DeleteSpec(s.shared, k), d, s.deleters[d].(stage := Gone)).(
             orphans := if k in Flagged(s.shared) then s.orphans + 1 else s.orphans))
    case PowerOff(c) =>
      if c !in s.running then None else Some(s.(running := s.running - {c}))
  }

  // ---------------------------------------------------------------- the permit ledger

  /** Creations whose token is in the channel while no entry is marked for it. */
  function Unmarked(creators: map<CreatorId, Creator>): set<CreatorId> {
    set c | c in creators && creators[c].stage == Sent
  }

  /** Creations that owe the channel a receive. */
  function Owing(creators: map<CreatorId, Creator>): set<CreatorId> {
    set c | c in creators && (creators[c].stage == Rejecting || creators[c].stage == Draining)
  }

  /** Deletions that owe the channel a receive. */
  function OwingDeletes(deleters: map<DeleterId, Deleter>): set<DeleterId> {
    set d | d in deleters && deleters[d].stage == Repaying
  }

  function Debts(s: System): nat {
    |Owing(s.creators)| + |OwingDeletes(s.deleters)|
  }

  ghost predicate Ledger(s: System) {
    && s.shared.tokens + s.strays == |Flagged(s.shared)| + |Unmarked(s.creators)| + Debts(s) + s.orphans
    && s.shared.tokens <= MaxVirtualMachines
  }

  /** 1 when the creation has a token in the channel that no entry is marked for. */
  function Pledged(creators: map<CreatorId, Creator>, c: CreatorId): nat {
    if c in creators && creators[c].stage in {Sent, Rejecting, Draining} then 1 else 0
  }

  function PledgedDelete(deleters: map<DeleterId, Deleter>, d: DeleterId): nat {
    if d in deleters && deleters[d].stage == Repaying then 1 else 0
  }

  lemma CreatorSets(creators: map<CreatorId, Creator>, c: CreatorId, r: Creator)
    ensures Unmarked(creators[c := r]) == if r.stage == Sent then Unmarked(creators) + {c} else Unmarked(creators) - {c}
    ensures Owing(creators[c := r]) ==
            if r.stage == Rejecting || r.stage == Draining then Owing(creators) + {c} else Owing(creators) - {c}
  {
  }

  lemma CreatorSizes(creators: map<CreatorId, Creator>, c: CreatorId, r: Creator)
    ensures |Unmarked(creators[c := r])| ==
            |Unmarked(creators)| + (if r.stage == Sent then 1 else 0) - if c in Unmarked(creators) then 1 else 0
    ensures |Owing(creators[c := r])| ==
            |Owing(creators)| + (if r.stage in {Rejecting, Draining} then 1 else 0)
            - if c in Owing(creators) then 1 else 0
  {
    CreatorSets(creators, c, r);
    SizeAround(Unmarked(creators), c);
    SizeAround(Owing(creators), c);
  }

  lemma CreatorColumns(creators: map<CreatorId, Creator>, c: CreatorId, r: Creator)
    ensures var moved := creators[c := r];
            |Unmarked(moved)| + |Owing(moved)| + Pledged(creators, c)
            == |Unmarked(creators)| + |Owing(creators)| + Pledged(moved, c)
  {
    CreatorSizes(creators, c, r);
  }

  lemma DeleterSets(deleters: map<DeleterId, Deleter>, d: DeleterId, r: Deleter)
    ensures OwingDeletes(deleters[d := r]) ==
            if r.stage == Repaying then OwingDeletes(deleters) + {d} else OwingDeletes(deleters) - {d}
  {
  }

  lemma DeleterColumns(deleters: map<DeleterId, Deleter>, d: DeleterId, r: Deleter)
    ensures var moved := deleters[d := r];
            |OwingDeletes(moved)| + PledgedDelete(deleters, d) == |OwingDeletes(deleters)| + PledgedDelete(moved, d)
  {
    DeleterSets(deleters, d, r);
    SizeAround(OwingDeletes(deleters), d);
  }

  /** The books of one step of creation c: what it adds to the channel, the step owes or repays. */
  lemma CreatorBooks(s: System, t: System, c: CreatorId, k: Key)
    requires Ledger(s) && t.shared.tokens <= MaxVirtualMachines
    requires c in t.creators && t == Put(s, t.shared, c, t.creators[c]).(strays := t.strays, running := t.running)
    requires t.shared.vms == s.shared.vms || (k in t.shared.vms && t.shared.vms == s.shared.vms[k := t.shared.vms[k]])
    requires t.shared.tokens + t.strays + Holds(s.shared, k) + Pledged(s.creators, c)
             == s.shared.tokens + s.strays + Holds(t.shared, k) + Pledged(t.creators, c)
    ensures Ledger(t)
  {
    CreatorColumns(s.creators, c, t.creators[c]);
    FlaggedMoves(s.shared, t.shared, k);
  }

  lemma DeleterBooks(s: System, t: System, d: DeleterId, k: Key)
    requires Ledger(s) && t.shared.tokens <= MaxVirtualMachines
    requires d in t.deleters
    requires t == PutDeleter(s, t.shared, d, t.deleters[d]).(strays := t.strays, orphans := t.orphans,
              running := t.running)
    requires || t.shared.vms == s.shared.vms
             || t.shared.vms == s.shared.vms - {k}
             || (k in t.shared.vms && t.shared.vms == s.shared.vms[k := t.shared.vms[k]])
    requires t.shared.tokens + t.strays + Holds(s.shared, k) + PledgedDelete(s.deleters, d) + s.orphans
             == s.shared.tokens + s.strays + Holds(t.shared, k) + PledgedDelete(t.deleters, d) + t.orphans
    ensures Ledger(t)
  {
    DeleterColumns(s.deleters, d, t.deleters[d]);
    FlaggedMoves(s.shared, t.shared, k);
  }

  predicate ByDeleter(e: Step) {
    || e.BeginDelete? || e.Stopped? || e.ClearByDelete? || e.DrainByDelete? || e.TryDrainByDelete?
    || e.DeleteEntry?
  }

  predicate ByCreator(e: Step) {
    !ByDeleter(e) && !e.PowerOff?
  }

  /** Steps of a creation that send to the channel or receive from it. */
  predicate MovesToken(e: Step) {
    e.Send? || e.TakeBack? || e.Drain? || e.TryDrain?
  }

  /** Steps of a creation that change the flag of an entry. */
  predicate MovesFlag(e: Step) {
    e.Mark? || e.Clear?
  }

  /** Steps of a creation that change something else in an entry. */
  predicate WritesEntry(e: Step) {
    e.Create? || e.StoreCancel? || e.BuildEnds? || e.RecordSuccess? || e.Finalize?
  }

  lemma FlagLedger(s: System, e: Step)
    requires Ledger(s) && Next(s, e).Some? && MovesFlag(e)
    ensures Ledger(Next(s, e).value)
  {
    var t := Next(s, e).value;
    var k := t.creators[e.c].key;
    if t.shared.vms != s.shared.vms {
      assert t.shared == SetEntry(s.shared, k, t.shared.vms[k]);
    }
    CreatorBooks(s, t, e.c, k);
  }

  lemma WriterMoves(s: System, e: Step)
    requires Next(s, e).Some? && WritesEntry(e) && Next(s, e).value != s
    ensures var t := Next(s, e).value;
            && e.c in t.creators && t == Put(s, t.shared, e.c, t.creators[e.c]) && t.shared.tokens == s.shared.tokens
            && (t.shared == s.shared
                || (t.creators[e.c].key in t.shared.vms
                    && t.shared == SetEntry(s.shared, t.creators[e.c].key, t.shared.vms[t.creators[e.c].key])))
  {
  }

  lemma WriterKeepsColumns(s: System, e: Step)
    requires Next(s, e).Some? && WritesEntry(e) && Next(s, e).value != s && e.c in Next(s, e).value.creators
    ensures var t := Next(s, e).value;
            && Pledged(t.creators, e.c) == Pledged(s.creators, e.c)
            && Holds(t.shared, t.creators[e.c].key) == Holds(s.shared, t.creators[e.c].key)
  {
  }

  lemma WriteLedger(s: System, e: Step)
    requires Ledger(s) && Next(s, e).Some? && WritesEntry(e)
    ensures Ledger(Next(s, e).value)
  {
    var t := Next(s, e).value;
    if t != s {
      WriterMoves(s, e);
      WriterKeepsColumns(s, e);
      CreatorBooks(s, t, e.c, t.creators[e.c].key);
    }
  }

  lemma TokenLedger(s: System, e: Step)
    requires Ledger(s) && Next(s, e).Some? && MovesToken(e)
    ensures Ledger(Next(s, e).value)
  {
    var t := Next(s, e).value;
    assert t.shared.vms == s.shared.vms;
    CreatorBooks(s, t, e.c, t.creators[e.c].key);
  }

  lemma QuietMoves(s: System, e: Step)
    requires Next(s, e).Some?
    requires ByCreator(e) && !MovesToken(e) && !MovesFlag(e) && !WritesEntry(e)
    ensures var t := Next(s, e).value;
            && e.c in t.creators && t == Put(s, s.shared, e.c, t.creators[e.c]).(running := t.running)
            && Pledged(t.creators, e.c) == Pledged(s.creators, e.c)
  {
  }

  lemma QuietLedger(s: System, e: Step)
    requires Ledger(s) && Next(s, e).Some?
    requires ByCreator(e) && !MovesToken(e) && !MovesFlag(e) && !WritesEntry(e)
    ensures Ledger(Next(s, e).value)
  {
    var t := Next(s, e).value;
    QuietMoves(s, e);
    CreatorBooks(s, t, e.c, t.creators[e.c].key);
  }

  /** Steps of a deletion that receive from the channel. */
  predicate RepaysPermit(e: Step) {
    e.DrainByDelete? || e.TryDrainByDelete?
  }

  lemma ClearByDeleteLedger(s: System, e: Step)
    requires Ledger(s) && Next(s, e).Some? && e.ClearByDelete?
    ensures Ledger(Next(s, e).value)
  {
    var t := Next(s, e).value;
    var k := t.deleters[e.d].key;
    if t.shared.vms != s.shared.vms {
      assert t.shared == SetEntry(s.shared, k, t.shared.vms[k]);
    }
    DeleterBooks(s, t, e.d, k);
  }

  lemma RepayLedger(s: System, e: Step)
    requires Ledger(s) && Next(s, e).Some? && RepaysPermit(e)
    ensures Ledger(Next(s, e).value)
  {
    var t := Next(s, e).value;
    assert t.shared.vms == s.shared.vms;
    DeleterBooks(s, t, e.d, t.deleters[e.d].key);
  }

  lemma DeleteEntryLedger(s: System, e: Step)
    requires Ledger(s) && Next(s, e).Some? && e.DeleteEntry?
    ensures Ledger(Next(s, e).value)
  {
    var t := Next(s, e).value;
    DeleterBooks(s, t, e.d, s.deleters[e.d].key);
  }

  lemma QuietDeleteLedger(s: System, e: Step)
    requires Ledger(s) && Next(s, e).Some? && (e.BeginDelete? || e.Stopped?)
    ensures Ledger(Next(s, e).value)
  {
    var t := Next(s, e).value;
    if t != s {
      DeleterBooks(s, t, e.d, t.deleters[e.d].key);
    }
  }

  lemma DeleteLedger(s: System, e: Step)
    requires Ledger(s) && Next(s, e).Some? && ByDeleter(e)
    ensures Ledger(Next(s, e).value)
  {
    if e.ClearByDelete? {
      ClearByDeleteLedger(s, e);
    } else if RepaysPermit(e) {
      RepayLedger(s, e);
    } else if e.DeleteEntry? {
      DeleteEntryLedger(s, e);
    } else {
      QuietDeleteLedger(s, e);
    }
  }

  lemma LedgerStep(s: System, e: Step)
    requires Ledger(s) && Next(s, e).Some?
    ensures Ledger(Next(s, e).value)
  {
    if ByDeleter(e) {
      DeleteLedger(s, e);
    } else if e.PowerOff? {
      assert Next(s, e).value.shared == s.shared;
    } else if MovesToken(e) {
      TokenLedger(s, e);
    } else if MovesFlag(e) {
      FlagLedger(s, e);
    } else if WritesEntry(e) {
      WriteLedger(s, e);
    } else {
      QuietLedger(s, e);
    }
  }
}
