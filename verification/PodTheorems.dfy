/** What the phase and the Ready condition of a pod say about each other and about its creation. */
module PodTheorems {
  import opened Wrappers
  import opened PodStatus
  import opened Runs
  import Permits = VmPermits
  import Creation = VmCreation
  import VmTheorems
  import VmCounterexamples
  import VmInstances

  /** The phase and the Ready condition that are reported together, each from its own reading of the machine. */
  ghost predicate Reported(n: Machine, o: Machine, group: seq<Container>, satisfied: bool, p: Phase, ready: bool) {
    IsPhase(n, group, p) && (ready <==> Live(o) && Unimpeded(group) && satisfied)
  }

  /** Two readings of one copy of a machine: its instance may have gone on in between. */
  predicate SameCopy(n: Machine, o: Machine) {
    n.err == o.err && n.postStartFinishedAt == o.postStartFinishedAt && n.instance.Some? == o.instance.Some?
  }

  /** There is a phase, and only one. */
  lemma PhaseIsDetermined(m: Machine, group: seq<Container>)
    ensures exists p :: IsPhase(m, group, p)
    ensures forall p, q :: IsPhase(m, group, p) && IsPhase(m, group, q) ==> p == q
  {
    SomeSettles(group, 0);
    if k: nat :| Settles(group, k) {
      OneSettles(group, k);
      assert Live(m) ==> IsPhase(m, group, if NotUpYet(group[k]) then PodPending else PodFailed);
    } else {
      assert Live(m) ==>
          IsPhase(m, group, if IPAddress(m) == "" then PodPending else if AllUp(group) then PodRunning else PodUnknown);
    }
    assert IsPhase(m, group, PodPending) || IsPhase(m, group, PodRunning) || IsPhase(m, group, PodSucceeded) ||
           IsPhase(m, group, PodFailed) || IsPhase(m, group, PodUnknown);
  }

  /** The pod runs exactly when the machine is live, it has an address and all containers run, in any order. */
  lemma PhaseRunningIff(m: Machine, group: seq<Container>, p: Phase)
    requires IsPhase(m, group, p)
    ensures p == PodRunning <==> Live(m) && IPAddress(m) != "" && AllUp(group)
  {
    SomeSettles(group, 0);
  }

  /** What one container means for the phase and for Ready, by its status, while the machine runs with an address. */
  lemma OneContainer(m: Machine, c: Container, p: Phase, ready: bool)
    requires !m.err && m.instance.Some? && m.instance.value.state.Running? && m.instance.value.ip != ""
    requires Reported(m, m, [c], true, p, ready)
    ensures c.status in {Waiting, Created} ==> p == PodPending && ready
    ensures c.status == Up ==> p == PodRunning && ready
    ensures c.status in {OOMKilled, Unknown} ==> p == PodFailed && !ready
    ensures c.status in {Paused, Restarting, Dead} ==> p == PodUnknown && !ready
  {
    SomeSettles([c], 0);
    if NotUpYet(c) || Broken(c) {
      OneSettles([c], 0);
    }
    assert [c][0] == c;
  }

  /**
   * A ready pod is running or pending, running exactly with an address and all containers up, unless
   * the machine had stopped or failed when the phase was read.
   */
  lemma ReadyMeansRunningOrPending(n: Machine, o: Machine, group: seq<Container>, satisfied: bool, p: Phase,
      ready: bool)
    requires SameCopy(n, o) && Reported(n, o, group, satisfied, p, ready) && ready
    ensures p == PodRunning || p == PodPending <==> !StateOf(n).VmTerminated? && !StateOf(n).VmFailed?
    ensures Live(n) ==> (p == PodRunning <==> IPAddress(n) != "" && AllUp(group))
  {
    SomeSettles(group, 0);
  }

  /**
   * A failed pod is not ready, unless the instance left its error state between the two readings; in
   * particular never while the machine holds an error.
   */
  lemma FailedMeansNotReady(n: Machine, o: Machine, group: seq<Container>, satisfied: bool, ready: bool)
    requires SameCopy(n, o) && Reported(n, o, group, satisfied, PodFailed, ready)
    ensures ready ==> !n.err && n.instance.Some? && n.instance.value.state.Other? && Live(o)
    ensures n.err || StateOf(n) == StateOf(o) ==> !ready
  {
    SomeSettles(group, 0);
  }

  /** A running pod is ready exactly when its post-start marker is set and the machine is still live. */
  lemma RunningIsReadyIff(n: Machine, o: Machine, group: seq<Container>, satisfied: bool, ready: bool)
    requires Reported(n, o, group, satisfied, PodRunning, ready)
    ensures ready <==> satisfied && Live(o)
    ensures StateOf(n) == StateOf(o) ==> (ready <==> satisfied)
  {
    PhaseRunningIff(n, group, PodRunning);
  }

  function MachineIn(state: InstanceState): Machine {
    Machine(Some(Instance(state, "10.0.0.2", Some(1), None)), false, 2)
  }

  /** A pod can be ready while a container is still waiting, and so while its phase is pending. */
  lemma ReadyWhilePending()
    ensures Reported(MachineIn(Running), MachineIn(Running), [Container("sidecar", Waiting, 0, 0)], true,
              PodPending, true)
  {
    OneSettles([Container("sidecar", Waiting, 0, 0)], 0);
  }

  /** When the machine stops between the readings, a running pod with its marker set is not ready. */
  lemma RunningNotReady()
    ensures SameCopy(MachineIn(Running), MachineIn(Stopped))
    ensures Reported(MachineIn(Running), MachineIn(Stopped), [], true, PodRunning, false)
  {
  }

  // ---------------------------------------------------------------- the order of containers

  /** A container that is not up yet and a container that makes the pod fail are both there. */
  ghost predicate Contested(group: seq<Container>) {
    (exists c :: c in group && NotUpYet(c)) && (exists c :: c in group && Broken(c))
  }

  ghost predicate Shuffled(a: seq<Container>, b: seq<Container>) {
    multiset(a) == multiset(b)
  }

  lemma ShuffledHaveTheSame(a: seq<Container>, b: seq<Container>)
    requires Shuffled(a, b)
    ensures forall c :: c in a <==> c in b
  {
    assert forall c :: c in a <==> c in multiset(a);
    assert forall c :: c in b <==> c in multiset(b);
  }

  /** With no contest, the kinds that are there tell the phase of a live machine. */
  lemma UncontestedPhase(m: Machine, group: seq<Container>, p: Phase)
    requires Live(m) && IsPhase(m, group, p) && !Contested(group)
    ensures p == if exists c :: c in group && NotUpYet(c) then PodPending
                 else if exists c :: c in group && Broken(c) then PodFailed
                 else if IPAddress(m) == "" then PodPending
                 else if forall c :: c in group ==> c.status.Up? then PodRunning else PodUnknown
  {
    SomeSettles(group, 0);
    if k: nat :| Settles(group, k) {
      assert group[k] in group;
    }
  }

  /** The same containers with the i-th in front. */
  function InFront(group: seq<Container>, i: nat): seq<Container>
    requires i < |group|
  {
    [group[i]] + (group[..i] + group[i + 1..])
  }

  lemma InFrontIsShuffled(group: seq<Container>, i: nat)
    requires i < |group|
    ensures Shuffled(group, InFront(group, i))
  {
    assert group == group[..i] + ([group[i]] + group[i + 1..]);
    assert multiset(group) == multiset(group[..i]) + (multiset([group[i]]) + multiset(group[i + 1..]));
  }

  ghost predicate OrderDoesNotMatter(m: Machine, group: seq<Container>) {
    forall other, p, q :: Shuffled(group, other) && IsPhase(m, group, p) && IsPhase(m, other, q) ==> p == q
  }

  lemma UncontestedOrderDoesNotMatter(m: Machine, group: seq<Container>)
    requires Live(m) && !Contested(group)
    ensures OrderDoesNotMatter(m, group)
  {
    forall other, p, q | Shuffled(group, other) && IsPhase(m, group, p) && IsPhase(m, other, q)
      ensures p == q
    {
      ShuffledHaveTheSame(group, other);
      UncontestedPhase(m, group, p);
      UncontestedPhase(m, other, q);
    }
  }

  lemma ContestedOrderMatters(m: Machine, group: seq<Container>)
    requires Live(m) && Contested(group)
    ensures !OrderDoesNotMatter(m, group)
  {
    var early: nat :| early < |group| && NotUpYet(group[early]);
    var broken: nat :| broken < |group| && Broken(group[broken]);
    var a, b := InFront(group, early), InFront(group, broken);
    InFrontIsShuffled(group, early);
    InFrontIsShuffled(group, broken);
    OneSettles(a, 0);
    OneSettles(b, 0);
    assert IsPhase(m, a, PodPending) && IsPhase(m, b, PodFailed);
    PhaseIsDetermined(m, group);
    var p :| IsPhase(m, group, p);
  }

  /**
   * The order in which the containers are listed matters to the phase exactly when one of them is
   * not up yet and another is broken: the first of the two in the list decides.
   */
  lemma OrderMattersIff(m: Machine, group: seq<Container>)
    requires Live(m)
    ensures OrderDoesNotMatter(m, group) <==> !Contested(group)
  {
    if Contested(group) {
      ContestedOrderMatters(m, group);
    } else {
      UncontestedOrderDoesNotMatter(m, group);
    }
  }

  // ---------------------------------------------------------------- the pod and its containers

  /** In the reports the macOS container comes first. */
  lemma {:induction false} ReportsStart(m: Machine, group: seq<Container>, names: seq<string>)
    requires names != []
    ensures Reports(m, group, names) != []
    ensures Reports(m, group, names)[0] ==
            ContainerReport(names[0], StateOf(m).VmRunning? && PostStartFinishedAt(m).Some?,
                            IPAddress(m) != "" && PostStartFinishedAt(m).Some?)
  {
    if |names| > 1 {
      ReportsStart(m, group, names[..|names| - 1]);
    }
  }

  /** Every other report is of a container of the group. */
  lemma {:induction false} ReportsOfTheGroup(m: Machine, group: seq<Container>, names: seq<string>, i: nat)
    requires 0 < i < |Reports(m, group, names)|
    ensures var r := Reports(m, group, names)[i];
            exists c :: c in group && c.name == r.name && r.ready == r.started == c.status.Up?
  {
    var before := names[..|names| - 1];
    if |names| > 1 {
      var last := Named(names[|names| - 1], group);
      if i < |Reports(m, group, before)| {
        ReportsOfTheGroup(m, group, before, i);
      } else {
        assert last.Some? && last.value in group;
      }
    }
  }

  /**
   * In the status of a pod that is ready, the macOS container is ready unless the machine did not
   * run when it was read, and every other container that is not ready has not come up yet.
   */
  lemma ReadyPodHasReadyContainers(m: Machine, o: Machine, group: seq<Container>, names: seq<string>, i: nat)
    requires Live(o) && Unimpeded(group) && Satisfied(m, names)
    requires i < |Reports(m, group, names)| && !Reports(m, group, names)[i].ready
    ensures if i == 0 then !StateOf(m).VmRunning? && (StateOf(m) == StateOf(o) ==> StateOf(m).VmTerminating?)
            else exists c :: c in group && c.name == Reports(m, group, names)[i].name && NotUpYet(c)
  {
    if i == 0 {
      ReportsStart(m, group, names);
    } else {
      ReportsOfTheGroup(m, group, names, i);
    }
  }

  // ---------------------------------------------------------------- the pod and its creation

  /** The fields of the machine are those of the entry. */
  predicate Shows(m: Machine, i: Permits.Entry) {
    && m.err == i.failedBy.Some?
    && m.instance.Some? == i.instance.Some?
    && PostStartFinishedAt(m).Some? == i.markedBy.Some?
  }

  /** The Update of createVirtualMachineInstance, on the machine in the entry. */
  method StoreInstance(r: MacOSVirtualMachine, i: Instance, ghost h: Permits.Shared, ghost k: Permits.Key,
      ghost c: Permits.CreatorId)
    requires k in h.vms && Shows(r.View(), h.vms[k])
    modifies r
    ensures Shows(r.View(), Permits.SetInstanceSpec(h, k, c).vms[k])
    ensures StateOf(r.View()) == if h.vms[k].failedBy.Some? then VmFailed else StateOfInstance(i)
  {
    r.SetInstance(i);
  }

  /** The Update that records post-start success. */
  method RecordSuccess(r: MacOSVirtualMachine, now: Time, ghost h: Permits.Shared, ghost k: Permits.Key,
      ghost c: Permits.CreatorId)
    requires k in h.vms && Shows(r.View(), h.vms[k]) && now != 0
    modifies r
    ensures Shows(r.View(), Permits.SetMarkerSpec(h, k, c).vms[k])
    ensures StateOf(r.View()) == old(StateOf(r.View()))
  {
    r.SetPostStartFinishedAt(now);
  }

  /** The Update of finalizeVirtualMachineInfo: an error makes the machine failed, whatever its instance does. */
  method Finalize(r: MacOSVirtualMachine, err: bool, ghost h: Permits.Shared, ghost k: Permits.Key,
      ghost c: Permits.CreatorId)
    requires k in h.vms && Shows(r.View(), h.vms[k])
    modifies r
    ensures Shows(r.View(), Permits.FinalizeSpec(h, k, c, err).vms[k])
    ensures err ==> StateOf(r.View()) == VmFailed
  {
    if err {
      r.SetError(true);
    }
  }

  /**
   * A pod with containers is ready only after some creation of its name has started its machine,
   * committed its permit, probed it and run its hook; the entry's own creation has, when it set the
   * marker.
   */
  lemma ReadyIsEarned(
      s: Creation.System, k: Permits.Key, m: Machine, o: Machine, group: seq<Container>, names: seq<string>)
    requires VmTheorems.Reached(s) && k in s.shared.vms && Shows(m, s.shared.vms[k]) && names != []
    requires Live(o) && Unimpeded(group) && Satisfied(m, names)
    ensures s.shared.vms[k].markedBy.Some?
    ensures var c := s.shared.vms[k].markedBy.value; VmTheorems.Keyed(s, k, c) && VmTheorems.Earned(s, c)
    ensures s.shared.vms[k].markedBy == Some(s.shared.vms[k].owner) ==> VmTheorems.Earned(s, s.shared.vms[k].owner)
  {
    VmTheorems.ReadinessIsEarned(s, k);
  }

  // ---------------------------------------------------------------- the pod and the machines that run

  /**
   * The machine is a reading of the entry in this state: its instance runs or is about to stop exactly
   * when the machine of the creation that stored it runs, and comes up only while that one starts it.
   * An instance that was never started counts as stopped.
   */
  predicate Depicts(s: Creation.System, m: Machine, i: Permits.Entry) {
    && Shows(m, i)
    && (i.instance.Some? ==>
          && (m.instance.value.state in {Running, Stopping} <==> i.instance.value in s.running)
          && (m.instance.value.state.Starting? ==> Creation.AtStage(s, i.instance.value, Creation.Starting)))
  }

  /** The entry has no error, and an instance whose machine does not run. */
  predicate AtRest(s: Creation.System, i: Permits.Entry) {
    i.failedBy.None? && i.instance.Some? && i.instance.value !in s.running
  }

  /** The machine of an entry is live exactly when it runs and the entry has no error. */
  lemma LiveIffRuns(s: Creation.System, m: Machine, i: Permits.Entry)
    requires Depicts(s, m, i)
    ensures Live(m) <==> i.failedBy.None? && i.instance.Some? && i.instance.value in s.running
  {
  }

  /** A pod in phase Running, and a pod that is ready, has its machine running. */
  lemma RunningMeansRuns(s: Creation.System, m: Machine, i: Permits.Entry, group: seq<Container>, satisfied: bool,
      p: Phase, ready: bool)
    requires Depicts(s, m, i) && Reported(m, m, group, satisfied, p, ready)
    ensures p == PodRunning || ready ==> i.instance.Some? && i.instance.value in s.running
  {
    PhaseRunningIff(m, group, p);
    LiveIffRuns(s, m, i);
  }

  /**
   * A pod has succeeded only when its machine is at rest, and when it is, then with every reading but
   * those of an instance that is coming up or that the framework found in error.
   */
  lemma SucceededMeansAtRest(s: Creation.System, m: Machine, i: Permits.Entry, group: seq<Container>, p: Phase)
    requires Depicts(s, m, i) && IsPhase(m, group, p)
    ensures p == PodSucceeded ==> AtRest(s, i)
    ensures AtRest(s, i) ==> p == PodSucceeded || m.instance.value.state in {Starting, Other}
  {
    SomeSettles(group, 0);
  }

  /** Some reading of the entry gives phase Succeeded. */
  ghost predicate CanReadSucceeded(s: Creation.System, i: Permits.Entry) {
    exists m :: Depicts(s, m, i) && IsPhase(m, [], PodSucceeded)
  }

  lemma CanReadSucceededIff(s: Creation.System, i: Permits.Entry)
    ensures CanReadSucceeded(s, i) <==> AtRest(s, i)
  {
    if m :| Depicts(s, m, i) && IsPhase(m, [], PodSucceeded) {
      SucceededMeansAtRest(s, m, i, [], PodSucceeded);
    }
    if AtRest(s, i) {
      var m := Machine(Some(Instance(Stopped, "", None, None)), false, if i.markedBy.Some? then 1 else 0);
      assert Depicts(s, m, i) && IsPhase(m, [], PodSucceeded);
    }
  }

  /** The start of the machine was not tried yet, or failed and this is not recorded yet. */
  predicate StartUnsettled(r: Creation.Creator) {
    || r.stage in {Creation.Starting, Creation.Addressing, Creation.Clearing, Creation.Draining, Creation.TryDraining}
    || (r.stage == Creation.Finalizing && !r.started)
  }

  /**
   * A pod can be read as succeeded although the start of its machine never was, exactly when its
   * machine is at rest while the creation is on its way from storing the instance to recording that
   * the start failed.
   */
  lemma SucceededTooEarlyIff(s: Creation.System, k: Permits.Key)
    requires VmTheorems.Reached(s) && k in s.shared.vms
    ensures var i := s.shared.vms[k];
            && (i.instance.Some? ==> i.instance.value in s.creators)
            && (CanReadSucceeded(s, i) && !s.creators[i.instance.value].started <==>
                AtRest(s, i) && StartUnsettled(s.creators[i.instance.value]))
  {
    VmInstances.ReachedInstancesOk(s);
    CanReadSucceededIff(s, s.shared.vms[k]);
    assert VmInstances.InstanceOk(s, k) && VmTheorems.EntryOk(s, k);
    if s.shared.vms[k].instance.Some? {
      assert VmTheorems.CreatorOk(s.creators[s.shared.vms[k].instance.value]);
    }
  }

  /** It is so between the storing of the instance and its start. */
  lemma SucceededBeforeStart() returns (s: Creation.System)
    ensures VmTheorems.Reached(s) && 0 in s.shared.vms && 0 in s.creators
    ensures s.creators[0].stage == Creation.Starting && CanReadSucceeded(s, s.shared.vms[0])
  {
    s := VmInstances.BuiltNotStarted();
    CanReadSucceededIff(s, s.shared.vms[0]);
  }

  /** And between a start that failed and the recording of its error. */
  lemma SucceededAfterFailedStart() returns (s: Creation.System)
    ensures VmTheorems.Reached(s) && 0 in s.shared.vms && 0 in s.creators
    ensures s.creators[0].err && !s.creators[0].started && CanReadSucceeded(s, s.shared.vms[0])
  {
    s := VmInstances.StartFailed();
    CanReadSucceededIff(s, s.shared.vms[0]);
  }

  /**
   * A pod can be ready by the marker of an earlier creation, while its own machine runs and was not
   * probed yet.
   */
  lemma ReadyThoughUnprobed() returns (s: Creation.System, m: Machine)
    ensures VmTheorems.Reached(s) && 0 in s.shared.vms && Depicts(s, m, s.shared.vms[0])
    ensures s.shared.vms[0].instance == Some(s.shared.vms[0].owner)
    ensures s.shared.vms[0].owner in s.creators && !s.creators[s.shared.vms[0].owner].probed
    ensures Satisfied(m, ["macos"]) && Reported(m, m, [], true, PodRunning, true)
  {
    s := VmCounterexamples.StaleCreationMarksItsSuccessor();
    m := MachineIn(Running);
  }

  /** Once an entry holds an error, the pod is failed and not ready for as long as the entry is there. */
  lemma FailureIsFinal(
      s: Creation.System, steps: seq<Creation.Step>, t: Creation.System, k: Permits.Key,
      n: Machine, o: Machine, group: seq<Container>, satisfied: bool, p: Phase, ready: bool)
    requires VmTheorems.Reached(s) && Run(Creation.Next, s, steps) == Some(t)
    requires k in s.shared.vms && s.shared.vms[k].failedBy.Some?
    requires k in t.shared.vms && t.shared.vms[k].owner == s.shared.vms[k].owner
    requires Shows(n, t.shared.vms[k]) && Shows(o, t.shared.vms[k]) && Reported(n, o, group, satisfied, p, ready)
    ensures p == PodFailed && !ready
  {
    VmTheorems.ReachedInv(s);
    assert VmTheorems.EntryOk(s, k);
    VmTheorems.OutcomesLast(s, steps, t, k);
  }
}
