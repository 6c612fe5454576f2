/**
 * What creators and deleters of virtual machines share: the permit channel and the entries of the
 * map. Each function is one atomic operation: an operation of internal/data/vm/vmdata.go, or a send
 * or receive on vmPermits (pkg/resourcemanager/macos_permits.go, macos.go).
 */
module VmPermits {
  import opened Wrappers

  type Key = nat         // namespace and name
  type CreatorId = nat   // one run of handleVirtualMachineCreation

  const MaxVirtualMachines := 2

  /**
   * VirtualMachineInfo. Where the code has a flag, an error or a time, the field holds the creation
   * that set it last: the code only sees whether it is set. `owner` is the creation the entry was
   * stored for; the code has no such field.
   */
  datatype Entry = Entry(
    owner: CreatorId,
    permit: Option<CreatorId>,     // PermitAcquired
    cancellable: bool,             // DownloadCancelFunc != nil
    instance: Option<CreatorId>,   // Resource.instance
    failedBy: Option<CreatorId>,   // Resource.err
    markedBy: Option<CreatorId>)   // Resource.postStartFinishedAt

  datatype Shared = Shared(tokens: nat, vms: map<Key, Entry>)

  datatype MarkResult = Marked | Expired | AlreadyAcquired
  datatype ClearResult = Cleared | NotHeld | Missing

  function NewEntry(owner: CreatorId): Entry {
    Entry(owner, None, false, None, None, None)
  }

  function SetEntry(h: Shared, k: Key, e: Entry): Shared {
    h.(vms := h.vms[k := e])
  }

  /** LoadOrStore of a new entry; false when an entry was already there. */
  function StoreSpec(h: Shared, k: Key, owner: CreatorId): (Shared, bool) {
    if k in h.vms then (h, false) else (SetEntry(h, k, NewEntry(owner)), true)
  }

  function SendSpec(h: Shared): Shared {
    h.(tokens := h.tokens + 1)
  }

  /** A receive from vmPermits. */
  function DrainSpec(h: Shared): Shared
    requires h.tokens > 0
  {
    h.(tokens := h.tokens - 1)
  }

  /** markPermitAcquired, for creation `writer`. */
  function MarkSpec(h: Shared, k: Key, writer: CreatorId): (Shared, MarkResult) {
    if k !in h.vms then (h, Expired)
    else if h.vms[k].permit.Some? then (h, AlreadyAcquired)
    else (SetEntry(h, k, h.vms[k].(permit := Some(writer))), Marked)
  }

  /** The Update of releasePermit. */
  function ClearSpec(h: Shared, k: Key): (Shared, ClearResult) {
    if k !in h.vms then (h, Missing)
    else if h.vms[k].permit.Some? then (SetEntry(h, k, h.vms[k].(permit := None)), Cleared)
    else (h, NotHeld)
  }

  /** The Update that stores the cancel function; false when the entry expired. */
  function SetCancelSpec(h: Shared, k: Key): (Shared, bool) {
    if k !in h.vms then (h, false) else (SetEntry(h, k, h.vms[k].(cancellable := true)), true)
  }

  /** The Update of createVirtualMachineInstance. */
  function SetInstanceSpec(h: Shared, k: Key, writer: CreatorId): Shared {
    if k !in h.vms then h else SetEntry(h, k, h.vms[k].(instance := Some(writer)))
  }

  /** The Update that records post-start success. */
  function SetMarkerSpec(h: Shared, k: Key, writer: CreatorId): Shared {
    if k !in h.vms then h else SetEntry(h, k, h.vms[k].(markedBy := Some(writer)))
  }

  /** finalizeVirtualMachineInfo. */
  function FinalizeSpec(h: Shared, k: Key, writer: CreatorId, err: bool): Shared {
    if k !in h.vms then h
    else
      var e := h.vms[k].(cancellable := false);
      SetEntry(h, k, if err then e.(failedBy := Some(writer)) else e)
  }

  function DeleteSpec(h: Shared, k: Key): Shared {
    h.(vms := h.vms - {k})
  }

  /** The entries that hold a permit. */
  function Flagged(h: Shared): set<Key> {
    set k | k in h.vms && h.vms[k].permit.Some?
  }

  /** 1 when the entry of k holds a permit. */
  function Holds(h: Shared, k: Key): nat {
    if k in h.vms && h.vms[k].permit.Some? then 1 else 0
  }

  lemma FlaggedWith(h: Shared, k: Key, e: Entry)
    ensures Flagged(SetEntry(h, k, e)) == if e.permit.Some? then Flagged(h) + {k} else Flagged(h) - {k}
    ensures Flagged(DeleteSpec(h, k)) == Flagged(h) - {k}
  {
  }

  /** An operation that touches one entry moves the count of permit holders by that entry alone. */
  lemma FlaggedMoves(h: Shared, g: Shared, k: Key)
    requires g.vms == h.vms || g.vms == h.vms - {k} || (k in g.vms && g.vms == h.vms[k := g.vms[k]])
    ensures |Flagged(g)| + Holds(h, k) == |Flagged(h)| + Holds(g, k)
  {
    SizeAround(Flagged(h), k);
    if g.vms == h.vms {
      assert Flagged(g) == Flagged(h);
    } else if k in g.vms {
      FlaggedWith(h, k, g.vms[k]);
      assert Flagged(g) == Flagged(SetEntry(h, k, g.vms[k]));
    } else {
      FlaggedWith(h, k, NewEntry(0));
      assert Flagged(g) == Flagged(DeleteSpec(h, k));
    }
  }

  // ---------------------------------------------------------------- the guard

  /** permitGuard; `released` says that its sync.Once has run. */
  datatype Guard = Guard(committed: bool, released: bool)

  const NewGuard := Guard(false, false)

  function CommitSpec(g: Guard): Guard {
    g.(committed := true)
  }

  /** Release; true when it goes on to releasePermit. */
  function ReleaseSpec(g: Guard): (Guard, bool) {
    (g.(released := true), !g.released && !g.committed)
  }

  class PermitGuard {
    var committed: bool
    var released: bool

    ghost function View(): Guard
      reads this
    {
      Guard(committed, released)
    }

    constructor ()
      ensures View() == NewGuard
    {
      committed, released := false, false;
    }

    method Commit()
      modifies this`committed
      ensures View() == CommitSpec(old(View()))
      ensures !ReleaseSpec(View()).1
    {
      committed := true;
    }

    method Release() returns (releases: bool)
      modifies this`released
      ensures (View(), releases) == ReleaseSpec(old(View()))
    {
      if released {
        return false;
      }
      released := true;
      return !committed;
    }
  }

  datatype GuardCall = CallCommit | CallRelease

  /** How often the calls run releasePermit. */
  function PermitReleases(g: Guard, calls: seq<GuardCall>): nat
    decreases |calls|
  {
    if calls == [] then 0
    else
      match calls[0]
      case CallCommit => PermitReleases(CommitSpec(g), calls[1..])
      case CallRelease =>
        var (f, releases) := ReleaseSpec(g);
        PermitReleases(f, calls[1..]) + if releases then 1 else 0
  }

  /** Once it was committed or released, a guard never runs releasePermit again. */
  lemma {:induction false} SpentGuard(g: Guard, calls: seq<GuardCall>)
    requires g.committed || g.released
    ensures PermitReleases(g, calls) == 0
    decreases |calls|
  {
    if calls != [] {
      SpentGuard(if calls[0].CallCommit? then CommitSpec(g) else ReleaseSpec(g).0, calls[1..]);
    }
  }

  /**
   * However often and in whatever order Commit and Release are called on a new guard, releasePermit
   * runs once when Release came first, and never otherwise.
   */
  lemma GuardReleasesIff(calls: seq<GuardCall>)
    ensures PermitReleases(NewGuard, calls) == if calls != [] && calls[0].CallRelease? then 1 else 0
  {
    if calls != [] {
      SpentGuard(if calls[0].CallCommit? then CommitSpec(NewGuard) else ReleaseSpec(NewGuard).0, calls[1..]);
    }
  }

  // ---------------------------------------------------------------- the client

  class MacOSClient {
    var tokens: nat            // vmPermits
    var vms: map<Key, Entry>

    ghost function View(): Shared
      reads this
    {
      Shared(tokens, vms)
    }

    constructor ()
      ensures View() == Shared(0, map[])
    {
      tokens, vms := 0, map[];
    }

    method LoadOrStore(k: Key, owner: CreatorId) returns (stored: bool)
      modifies this`vms
      ensures (View(), stored) == StoreSpec(old(View()), k, owner)
    {
      if k in vms {
        return false;
      }
      vms := vms[k := NewEntry(owner)];
      return true;
    }

    /** The send of acquirePermit: it goes through only while the channel has room. */
    method TrySend() returns (sent: bool)
      modifies this`tokens
      ensures sent <==> old(tokens) < MaxVirtualMachines
      ensures View() == if sent then SendSpec(old(View())) else old(View())
    {
      sent := tokens < MaxVirtualMachines;
      if sent {
        tokens := tokens + 1;
      }
    }

    method MarkPermitAcquired(k: Key, writer: CreatorId) returns (result: MarkResult)
      modifies this`vms
      ensures (View(), result) == MarkSpec(old(View()), k, writer)
    {
      var permitClaimed := false;
      var found := k in vms;
      if found && vms[k].permit.None? {
        vms := vms[k := vms[k].(permit := Some(writer))];
        permitClaimed := true;
      }
      if !found {
        return Expired;
      }
      return if permitClaimed then Marked else AlreadyAcquired;
    }

    method ClearPermit(k: Key) returns (result: ClearResult)
      modifies this`vms
      ensures (View(), result) == ClearSpec(old(View()), k)
    {
      var shouldRelease := false;
      var found := k in vms;
      if found && vms[k].permit.Some? {
        vms := vms[k := vms[k].(permit := None)];
        shouldRelease := true;
      }
      if shouldRelease {
        return Cleared;
      }
      return if found then NotHeld else Missing;
    }

    /** The select with a default branch of releasePermit. */
    method TryDrain() returns (drained: bool)
      modifies this`tokens
      ensures drained <==> old(tokens) > 0
      ensures View() == if drained then DrainSpec(old(View())) else old(View())
    {
      drained := tokens > 0;
      if drained {
        tokens := tokens - 1;
      }
    }

    method SetInstance(k: Key, writer: CreatorId)
      modifies this`vms
      ensures View() == SetInstanceSpec(old(View()), k, writer)
    {
      if k in vms {
        vms := vms[k := vms[k].(instance := Some(writer))];
      }
    }

    method SetPostStartFinishedAt(k: Key, writer: CreatorId)
      modifies this`vms
      ensures View() == SetMarkerSpec(old(View()), k, writer)
    {
      if k in vms {
        vms := vms[k := vms[k].(markedBy := Some(writer))];
      }
    }

    method FinalizeVirtualMachineInfo(k: Key, writer: CreatorId, err: bool)
      modifies this`vms
      ensures View() == FinalizeSpec(old(View()), k, writer, err)
    {
      if k in vms {
        var i := vms[k].(cancellable := false);
        if err {
          i := i.(failedBy := Some(writer));
        }
        vms := vms[k := i];
      }
    }

    method Delete(k: Key)
      modifies this`vms
      ensures View() == DeleteSpec(old(View()), k)
    {
      vms := vms - {k};
    }
  }
}
