/**
 * What a pod reports of its virtual machine and its containers (buildPodStatus and the phase and
 * condition loops of pkg/provider/virtualizationgroup_to_pod.go; State of
 * pkg/resource/virtual_machine.go).
 */
module PodStatus {
  import opened Wrappers

  /** A time; 0 is the zero time of Go, before every other. */
  type Time = nat

  datatype InstanceState = Starting | Running | Stopping | Stopped | Other

  datatype Instance = Instance(state: InstanceState, ip: string, startedAt: Option<Time>, finishedAt: Option<Time>)

  /** The fields of MacOSVirtualMachine. */
  datatype Machine = Machine(instance: Option<Instance>, err: bool, postStartFinishedAt: Time)

  datatype MachineState = VmPreparing | VmStarting | VmRunning | VmTerminating | VmTerminated | VmFailed

  class MacOSVirtualMachine {
    var instance: Option<Instance>
    var err: bool
    var postStartFinishedAt: Time

    ghost function View(): Machine
      reads this
    {
      Machine(instance, err, postStartFinishedAt)
    }

    constructor ()
      ensures View() == Machine(None, false, 0)
    {
      instance, err, postStartFinishedAt := None, false, 0;
    }

    method SetInstance(i: Instance)
      modifies this`instance
      ensures View() == old(View()).(instance := Some(i))
      ensures StateOf(View()) == if old(err) then VmFailed else StateOfInstance(i)
    {
      instance := Some(i);
    }

    method SetError(failed: bool)
      modifies this`err
      ensures View() == old(View()).(err := failed)
      ensures failed ==> StateOf(View()) == VmFailed
    {
      err := failed;
    }

    method SetPostStartFinishedAt(t: Time)
      modifies this`postStartFinishedAt
      ensures View() == old(View()).(postStartFinishedAt := t)
      ensures StateOf(View()) == old(StateOf(View())) && (t != 0 ==> PostStartFinishedAt(View()) == Some(t))
    {
      postStartFinishedAt := t;
    }
  }

  function StateOfInstance(i: Instance): MachineState {
    match i.state
    case Starting => VmStarting
    case Running => VmRunning
    case Stopping => VmTerminating
    case Stopped => VmTerminated
    case Other => VmFailed
  }

  /** An error outweighs whatever the instance says. */
  function StateOf(m: Machine): MachineState {
    if m.err then VmFailed
    else if m.instance.None? then VmPreparing
    else StateOfInstance(m.instance.value)
  }

  function IPAddress(m: Machine): string {
    if m.instance.None? then "" else m.instance.value.ip
  }

  function StartedAt(m: Machine): Option<Time> {
    if m.instance.None? then None else m.instance.value.startedAt
  }

  function FinishedAt(m: Machine): Option<Time> {
    if m.instance.None? then None else m.instance.value.finishedAt
  }

  function PostStartFinishedAt(m: Machine): Option<Time> {
    if m.postStartFinishedAt == 0 then None else Some(m.postStartFinishedAt)
  }

  datatype Status =
    | Waiting | Created | Up | Paused | Restarting | OOMKilled | Dead | Unknown

  datatype Container = Container(name: string, status: Status, startedAt: Time, finishedAt: Time)

  datatype Phase = PodPending | PodRunning | PodSucceeded | PodFailed | PodUnknown

  // ---------------------------------------------------------------- phase

  /** The container has not come up yet. */
  predicate NotUpYet(c: Container) {
    c.status.Waiting? || c.status.Created?
  }

  /** The container makes its pod fail. */
  predicate Broken(c: Container) {
    c.status.OOMKilled? || c.status.Unknown?
  }

  /** The virtual machine runs or is about to stop: the containers have a say. */
  predicate Live(m: Machine) {
    StateOf(m).VmRunning? || StateOf(m).VmTerminating?
  }

  /** The k-th container is the first that settles the phase by itself. */
  ghost predicate Settles(containers: seq<Container>, k: nat) {
    && k < |containers|
    && (NotUpYet(containers[k]) || Broken(containers[k]))
    && forall j :: 0 <= j < k ==> !NotUpYet(containers[j]) && !Broken(containers[j])
  }

  ghost predicate NoneSettles(containers: seq<Container>) {
    forall j :: 0 <= j < |containers| ==> !NotUpYet(containers[j]) && !Broken(containers[j])
  }

  ghost predicate AllUp(containers: seq<Container>) {
    forall j :: 0 <= j < |containers| ==> containers[j].status.Up?
  }

  /** The phase of a group, without a loop: the first container that settles it, then the address. */
  ghost predicate IsPhase(m: Machine, containers: seq<Container>, p: Phase) {
    match StateOf(m)
    case VmPreparing => p == PodPending
    case VmStarting => p == PodPending
    case VmTerminated => p == PodSucceeded
    case VmFailed => p == PodFailed
    case _ =>
      if NoneSettles(containers) then
        p == if IPAddress(m) == "" then PodPending else if AllUp(containers) then PodRunning else PodUnknown
      else
        forall k: nat :: Settles(containers, k) ==> p == if NotUpYet(containers[k]) then PodPending else PodFailed
  }

  lemma OneSettles(containers: seq<Container>, i: nat)
    requires Settles(containers, i)
    ensures forall k: nat :: Settles(containers, k) ==> k == i
    ensures !NoneSettles(containers)
  {
  }

  /** getPodPhaseFromVirtualizationGroup. */
  method PodPhase(m: Machine, containers: seq<Container>) returns (p: Phase)
    ensures IsPhase(m, containers, p)
  {
    var hasIP := IPAddress(m) != "";
    match StateOf(m) {
      case VmPreparing => return PodPending;
      case VmStarting => return PodPending;
      case VmTerminated => return PodSucceeded;
      case VmFailed => return PodFailed;
      case _ =>
        if |containers| == 0 {
          return if hasIP then PodRunning else PodPending;
        }
    }
    var allRunning := true;
    for i := 0 to |containers|
      invariant forall j :: 0 <= j < i ==> !NotUpYet(containers[j]) && !Broken(containers[j])
      invariant allRunning <==> forall j :: 0 <= j < i ==> containers[j].status.Up?
    {
      match containers[i].status {
        case Waiting =>
          OneSettles(containers, i);
          return PodPending;
        case Created =>
          OneSettles(containers, i);
          return PodPending;
        case Up =>
        case OOMKilled =>
          OneSettles(containers, i);
          return PodFailed;
        case Unknown =>
          OneSettles(containers, i);
          return PodFailed;
        case _ => allRunning := false;
      }
    }
    if !hasIP {
      return PodPending;
    }
    return if allRunning then PodRunning else PodUnknown;
  }

  /** The first container that settles the phase, or none does. */
  lemma {:induction false} SomeSettles(group: seq<Container>, from: nat)
    requires from <= |group|
    requires forall j :: 0 <= j < from ==> !NotUpYet(group[j]) && !Broken(group[j])
    ensures NoneSettles(group) || exists k: nat :: Settles(group, k)
    decreases |group| - from
  {
    if from < |group| {
      if NotUpYet(group[from]) || Broken(group[from]) {
        assert Settles(group, from);
      } else {
        SomeSettles(group, from + 1);
      }
    }
  }

  /** The phase by the fields of the machine, as far as they settle it. */
  lemma PhaseByInstance(m: Machine, containers: seq<Container>, p: Phase)
    requires IsPhase(m, containers, p)
    ensures m.err ==> p == PodFailed
    ensures !m.err && m.instance.None? ==> p == PodPending
    ensures !m.err && m.instance.Some? ==>
              match m.instance.value.state
              case Starting => p == PodPending
              case Stopped => p == PodSucceeded
              case Other => p == PodFailed
              case _ => p != PodSucceeded && (containers == [] ==>
                  p == if m.instance.value.ip == "" then PodPending else PodRunning)
  {
    if !NoneSettles(containers) {
      SomeSettles(containers, 0);
    }
  }

  // ---------------------------------------------------------------- conditions

  /** Initialized, Ready and the transition time of Ready. */
  datatype Conditions = Conditions(initialized: bool, ready: bool, readyAt: Time)

  /** No container has been seen in a state that keeps the pod from being ready. */
  ghost predicate Unimpeded(containers: seq<Container>) {
    forall j :: 0 <= j < |containers| ==> NotUpYet(containers[j]) || containers[j].status.Up?
  }

  /**
   * getPodConditionsFromVirtualizationGroup. A container that is waiting or created sets both
   * conditions to false but does not clear allRunning, so the conditions do not depend on it.
   */
  method PodConditions(m: Machine, containers: seq<Container>, lastUpdate: Time, satisfied: bool,
      postStart: Option<Time>)
    returns (r: Conditions)
    ensures r.ready <==> Live(m) && Unimpeded(containers) && satisfied
    ensures r.initialized <==> StateOf(m).VmTerminated? || (Live(m) && Unimpeded(containers))
    ensures r.readyAt == if r.ready && postStart.Some? then postStart.value else lastUpdate
  {
    var initialized, ready := false, false;
    match StateOf(m) {
      case VmPreparing =>
      case VmStarting =>
      case VmTerminated => initialized := true;
      case VmFailed =>
      case _ =>
        var allRunning := true;
        for i := 0 to |containers|
          invariant !initialized && !ready
          invariant allRunning <==> forall j :: 0 <= j < i ==> NotUpYet(containers[j]) || containers[j].status.Up?
        {
          match containers[i].status {
            case Waiting => initialized, ready := false, false;
            case Created => initialized, ready := false, false;
            case Up =>
            case OOMKilled => initialized, ready, allRunning := false, false, false;
            case Unknown => initialized, ready, allRunning := false, false, false;
            case _ => allRunning := false;
          }
        }
        if allRunning {
          initialized, ready := true, true;
        }
        if !satisfied {
          ready := false;
        }
    }
    return Conditions(initialized, ready, if ready && postStart.Some? then postStart.value else lastUpdate);
  }

  // ---------------------------------------------------------------- the whole status

  datatype ContainerReport = ContainerReport(name: string, ready: bool, started: bool)

  datatype Report = Report(
    phase: Phase,
    conditions: Conditions,
    startTime: Option<Time>,
    containers: seq<ContainerReport>)

  /** The first container of that name. */
  function Named(name: string, list: seq<Container>): (r: Option<Container>)
    ensures r.None? <==> forall c :: c in list ==> c.name != name
    ensures r.Some? ==> r.value in list && r.value.name == name
  {
    if list == [] then None
    else if list[0].name == name then Some(list[0])
    else Named(name, list[1..])
  }

  /** The macOS container comes first; the others are reported when the group knows them. */
  function Reports(m: Machine, group: seq<Container>, names: seq<string>): seq<ContainerReport> {
    if names == [] then []
    else if |names| == 1 then
      [ContainerReport(names[0],
                       StateOf(m).VmRunning? && PostStartFinishedAt(m).Some?,
                       IPAddress(m) != "" && PostStartFinishedAt(m).Some?)]
    else
      Reports(m, group, names[..|names| - 1]) +
      match Named(names[|names| - 1], group)
      case None => []
      case Some(c) => [ContainerReport(names[|names| - 1], c.status.Up?, c.status.Up?)]
  }

  /** The start times that count towards the start of the pod: of the machine and the known containers. */
  function StartTimes(m: Machine, group: seq<Container>, names: seq<string>): seq<Time> {
    if names == [] then []
    else if |names| == 1 then if StartedAt(m).Some? then [StartedAt(m).value] else []
    else
      StartTimes(m, group, names[..|names| - 1]) +
      match Named(names[|names| - 1], group)
      case None => []
      case Some(c) => [c.startedAt]
  }

  /** The times that count towards the last update: the finish of the machine hides its start. */
  function UpdateTimes(m: Machine, group: seq<Container>, names: seq<string>): seq<Time> {
    if names == [] then []
    else if |names| == 1 then
      if FinishedAt(m).Some? then [FinishedAt(m).value] else if StartedAt(m).Some? then [StartedAt(m).value] else []
    else
      UpdateTimes(m, group, names[..|names| - 1]) +
      match Named(names[|names| - 1], group)
      case None => []
      case Some(c) => [c.startedAt, c.finishedAt]
  }

  /** The earliest time that is set; 0 when none is. */
  ghost predicate IsEarliest(t: Time, times: seq<Time>) {
    if t == 0 then forall u :: u in times ==> u == 0
    else t in times && forall u :: u in times && u != 0 ==> t <= u
  }

  ghost predicate IsLatest(t: Time, times: seq<Time>) {
    if times == [] then t == 0 else t in times && forall u :: u in times ==> u <= t
  }

  /** The gate that the post-start marker is for Ready; a pod that names no container has none. */
  predicate Satisfied(m: Machine, names: seq<string>) {
    names == [] || PostStartFinishedAt(m).Some?
  }

  lemma EarliestWith(t: Time, times: seq<Time>, u: Time)
    requires IsEarliest(t, times)
    ensures IsEarliest(if u != 0 && (u < t || t == 0) then u else t, times + [u])
  {
  }

  lemma LatestWith(t: Time, times: seq<Time>, u: Time)
    requires IsLatest(t, times)
    ensures IsLatest(if u > t then u else t, times + [u])
  {
  }

  /** The earliest start and the last update after one more known container. */
  function Stamped(t: (Time, Time), c: Container): (Time, Time) {
    var last := if c.startedAt > t.1 then c.startedAt else t.1;
    (if c.startedAt != 0 && (c.startedAt < t.0 || t.0 == 0) then c.startedAt else t.0,
     if c.finishedAt != 0 && (c.finishedAt > last || last == 0) then c.finishedAt else last)
  }

  /** The start of the pod (0 for none) and its last update. */
  function Times(m: Machine, group: seq<Container>, names: seq<string>): (Time, Time) {
    if names == [] then (0, 0)
    else if |names| == 1 then
      var start := if StartedAt(m).Some? then StartedAt(m).value else 0;
      (start, if FinishedAt(m).Some? then FinishedAt(m).value else start)
    else
      var t := Times(m, group, names[..|names| - 1]);
      match Named(names[|names| - 1], group)
      case None => t
      case Some(c) => Stamped(t, c)
  }

  /** The start is the earliest of the start times and the last update the latest of the update times. */
  lemma {:induction false} TimesAreExtreme(m: Machine, group: seq<Container>, names: seq<string>)
    ensures IsEarliest(Times(m, group, names).0, StartTimes(m, group, names))
    ensures IsLatest(Times(m, group, names).1, UpdateTimes(m, group, names))
  {
    if |names| > 1 {
      var before := names[..|names| - 1];
      TimesAreExtreme(m, group, before);
      var (first, last) := Times(m, group, before);
      var updates := UpdateTimes(m, group, before);
      match Named(names[|names| - 1], group)
      case None =>
      case Some(c) =>
        EarliestWith(first, StartTimes(m, group, before), c.startedAt);
        LatestWith(last, updates, c.startedAt);
        LatestWith(if c.startedAt > last then c.startedAt else last, updates + [c.startedAt], c.finishedAt);
        assert updates + [c.startedAt] + [c.finishedAt] == updates + [c.startedAt, c.finishedAt];
    }
  }

  // ---------------------------------------------------------------- the status, name by name

  /** The first container of that name is the g-th. */
  predicate FirstNamedAt(list: seq<Container>, name: string, g: nat) {
    g < |list| && list[g].name == name && forall j :: 0 <= j < g ==> list[j].name != name
  }

  lemma {:induction false} NamedAt(name: string, list: seq<Container>) returns (g: nat)
    requires exists c :: c in list && c.name == name
    ensures FirstNamedAt(list, name, g) && Named(name, list) == Some(list[g])
  {
    if list[0].name == name {
      g := 0;
    } else {
      assert forall c :: c in list && c.name == name ==> c in list[1..];
      g := NamedAt(name, list[1..]);
      g := g + 1;
    }
  }

  /** getContainerWithName. */
  method GetContainerWithName(name: string, list: seq<Container>) returns (r: Option<Container>)
    ensures r.Some? ==> exists g: nat :: FirstNamedAt(list, name, g) && list[g] == r.value
    ensures r == Named(name, list)
  {
    for i := 0 to |list|
      invariant Named(name, list) == Named(name, list[i..])
    {
      if list[i].name == name {
        assert list[i] in list;
        ghost var g := NamedAt(name, list);
        return Some(list[i]);
      }
    }
    return None;
  }

  /** That name is reported: it is the first, or the group has a container of that name. */
  ghost predicate HasReport(group: seq<Container>, names: seq<string>, i: nat) {
    i < |names| && (i == 0 || exists c :: c in group && c.name == names[i])
  }

  /** What is reported under the i-th name, in the fields of the machine or of the first such container. */
  ghost predicate IsReport(m: Machine, group: seq<Container>, names: seq<string>, i: nat, r: ContainerReport)
    requires i < |names|
  {
    && r.name == names[i]
    && if i == 0 then
         && (r.ready <==>
               !m.err && m.instance.Some? && m.instance.value.state.Running? && m.postStartFinishedAt != 0)
         && (r.started <==> m.instance.Some? && m.instance.value.ip != "" && m.postStartFinishedAt != 0)
       else
         exists g: nat ::
           FirstNamedAt(group, names[i], g) && r.ready == r.started == group[g].status.Up?
  }

  /** The reports are those of the names at these places: in their order, each once, and all there are. */
  ghost predicate AreReportsAt(
      m: Machine, group: seq<Container>, names: seq<string>, r: seq<ContainerReport>, places: seq<nat>)
  {
    && |places| == |r|
    && (forall p, q :: 0 <= p < q < |places| ==> places[p] < places[q])
    && (forall p :: 0 <= p < |places| ==>
          HasReport(group, names, places[p]) && IsReport(m, group, names, places[p], r[p]))
    && (forall i: nat :: HasReport(group, names, i) ==> i in places)
  }

  ghost predicate AreReports(m: Machine, group: seq<Container>, names: seq<string>, r: seq<ContainerReport>) {
    exists places :: AreReportsAt(m, group, names, r, places)
  }

  /** The reports of all names but the last, seen from all names. */
  lemma EarlierNames(m: Machine, group: seq<Container>, names: seq<string>, r: seq<ContainerReport>, places: seq<nat>)
    requires names != [] && AreReportsAt(m, group, names[..|names| - 1], r, places)
    ensures forall p :: 0 <= p < |places| ==>
              && places[p] < |names| - 1
              && HasReport(group, names, places[p]) && IsReport(m, group, names, places[p], r[p])
    ensures forall i: nat :: i < |names| - 1 && HasReport(group, names, i) ==> i in places
  {
    var before := names[..|names| - 1];
    forall i: nat | i < |names| - 1 && HasReport(group, names, i)
      ensures i in places
    {
      assert HasReport(group, before, i);
    }
  }

  lemma OneMoreReport(
      m: Machine, group: seq<Container>, names: seq<string>, r: seq<ContainerReport>, places: seq<nat>,
          x: ContainerReport)
    requires names != [] && AreReportsAt(m, group, names[..|names| - 1], r, places)
    requires HasReport(group, names, |names| - 1) && IsReport(m, group, names, |names| - 1, x)
    ensures AreReportsAt(m, group, names, r + [x], places + [|names| - 1])
  {
    EarlierNames(m, group, names, r, places);
    forall i: nat | HasReport(group, names, i)
      ensures i in places + [|names| - 1]
    {
      assert i < |names| - 1 ==> i in places;
    }
  }

  lemma {:induction false} ReportPlaces(m: Machine, group: seq<Container>, names: seq<string>)
      returns (places: seq<nat>)
    ensures AreReportsAt(m, group, names, Reports(m, group, names), places)
  {
    if names == [] {
      places := [];
    } else {
      var i := |names| - 1;
      var before := names[..i];
      places := ReportPlaces(m, group, before);
      var r := Reports(m, group, before);
      if i == 0 {
        assert Reports(m, group, names) == r + [Reports(m, group, names)[0]];
        OneMoreReport(m, group, names, r, places, Reports(m, group, names)[0]);
        places := places + [0];
      } else if exists c :: c in group && c.name == names[i] {
        var g := NamedAt(names[i], group);
        var x := ContainerReport(names[i], group[g].status.Up?, group[g].status.Up?);
        OneMoreReport(m, group, names, r, places, x);
        places := places + [i];
      } else {
        EarlierNames(m, group, names, r, places);
        assert Reports(m, group, names) == r;
      }
    }
  }

  /** The time counts towards the start: of the machine, or of the first container of a later name. */
  ghost predicate CountsAsStart(m: Machine, group: seq<Container>, names: seq<string>, u: Time) {
    && u != 0 && names != []
    && (|| (m.instance.Some? && m.instance.value.startedAt == Some(u))
        || exists i: nat, g: nat ::
             1 <= i < |names| && FirstNamedAt(group, names[i], g) && group[g].startedAt == u)
  }

  /** The time counts towards the last update; the finish of the machine hides its start. */
  ghost predicate CountsAsUpdate(m: Machine, group: seq<Container>, names: seq<string>, u: Time) {
    && names != []
    && (|| (m.instance.Some? && m.instance.value.finishedAt == Some(u))
        || (m.instance.Some? && m.instance.value.finishedAt == None && m.instance.value.startedAt == Some(u))
        || exists i: nat, g: nat ::
             && 1 <= i < |names| && FirstNamedAt(group, names[i], g)
             && (group[g].startedAt == u || group[g].finishedAt == u))
  }

  /** The start of the pod: the earliest time that counts, 0 when none does. */
  ghost predicate IsStart(m: Machine, group: seq<Container>, names: seq<string>, t: Time) {
    && (t == 0 || CountsAsStart(m, group, names, t))
    && forall u: Time :: CountsAsStart(m, group, names, u) ==> t != 0 && t <= u
  }

  /** The last update: the latest time that counts, 0 when none does. */
  ghost predicate IsLastUpdate(m: Machine, group: seq<Container>, names: seq<string>, t: Time) {
    && (t == 0 || CountsAsUpdate(m, group, names, t))
    && forall u: Time :: CountsAsUpdate(m, group, names, u) ==> u <= t
  }

  /** What one more name adds to what counts. */
  lemma OneMoreCounts(m: Machine, group: seq<Container>, names: seq<string>, u: Time)
    requires |names| > 1
    ensures var before, known := names[..|names| - 1], Named(names[|names| - 1], group);
            && (CountsAsStart(m, group, names, u) <==>
                  CountsAsStart(m, group, before, u) || (u != 0 && known.Some? && known.value.startedAt == u))
            && (CountsAsUpdate(m, group, names, u) <==>
                  || CountsAsUpdate(m, group, before, u)
                  || (known.Some? && (known.value.startedAt == u || known.value.finishedAt == u)))
  {
    var last := |names| - 1;
    var before := names[..last];
    assert forall i: nat :: 1 <= i < last ==> before[i] == names[i];
    if c :| c in group && c.name == names[last] {
      var g := NamedAt(names[last], group);
      assert forall h: nat :: FirstNamedAt(group, names[last], h) ==> h == g;
    }
  }

  lemma {:induction false} TimesCount(m: Machine, group: seq<Container>, names: seq<string>, u: Time)
    ensures u != 0 && u in StartTimes(m, group, names) <==> CountsAsStart(m, group, names, u)
    ensures u in UpdateTimes(m, group, names) <==> CountsAsUpdate(m, group, names, u)
  {
    if |names| > 1 {
      TimesCount(m, group, names[..|names| - 1], u);
      OneMoreCounts(m, group, names, u);
    }
  }

  /** The times of the status are those that count. */
  lemma TimesAreRight(m: Machine, group: seq<Container>, names: seq<string>)
    ensures IsStart(m, group, names, Times(m, group, names).0)
    ensures IsLastUpdate(m, group, names, Times(m, group, names).1)
  {
    TimesAreExtreme(m, group, names);
    forall u
      ensures u != 0 && u in StartTimes(m, group, names) <==> CountsAsStart(m, group, names, u)
      ensures u in UpdateTimes(m, group, names) <==> CountsAsUpdate(m, group, names, u)
    {
      TimesCount(m, group, names, u);
    }
  }

  /**
   * buildPodStatus. The machine is read three times while its instance goes on: `m` for the reports
   * and the times, `n` for the phase and `o` for the conditions.
   */
  method BuildPodStatus(m: Machine, n: Machine, o: Machine, group: seq<Container>, names: seq<string>)
      returns (r: Report)
    ensures AreReports(m, group, names, r.containers)
    ensures IsStart(m, group, names, if r.startTime.Some? then r.startTime.value else 0)
    ensures if r.conditions.ready && names != [] then r.conditions.readyAt == m.postStartFinishedAt != 0
            else IsLastUpdate(m, group, names, r.conditions.readyAt)
    ensures r.containers == Reports(m, group, names)
    ensures IsEarliest(if r.startTime.Some? then r.startTime.value else 0, StartTimes(m, group, names))
    ensures r.startTime != Some(0)
    ensures IsPhase(n, group, r.phase)
    ensures r.conditions.ready <==> Live(o) && Unimpeded(group) && Satisfied(m, names)
    ensures r.conditions.initialized <==> StateOf(o).VmTerminated? || (Live(o) && Unimpeded(group))
    ensures if r.conditions.ready && names != [] then PostStartFinishedAt(m) == Some(r.conditions.readyAt)
            else IsLatest(r.conditions.readyAt, UpdateTimes(m, group, names))
  {
    var first, last := 0, 0;
    var satisfied, postStart := true, None;
    var statuses := [];
    for i := 0 to |names|
      invariant statuses == Reports(m, group, names[..i])
      invariant satisfied == Satisfied(m, names[..i])
      invariant postStart == if i == 0 then None else PostStartFinishedAt(m)
      invariant (first, last) == Times(m, group, names[..i])
    {
      assert names[..i + 1][..i] == names[..i];
      if i == 0 {
        postStart := PostStartFinishedAt(m);
        satisfied := postStart.Some?;
        if StartedAt(m).Some? {
          first := StartedAt(m).value;
          last := first;
        }
        if FinishedAt(m).Some? {
          last := FinishedAt(m).value;
        }
        var ready, started := StateOf(m).VmRunning? && satisfied, IPAddress(m) != "" && satisfied;
        statuses := statuses + [ContainerReport(names[i], ready, started)];
        continue;
      }
      var known := GetContainerWithName(names[i], group);
      if known.None? {
        continue;
      }
      var c := known.value;
      if c.startedAt != 0 && (c.startedAt < first || first == 0) {
        first := c.startedAt;
      }
      if c.startedAt > last {
        last := c.startedAt;
      }
      if c.finishedAt != 0 && (c.finishedAt > last || last == 0) {
        last := c.finishedAt;
      }
      statuses := statuses + [ContainerReport(names[i], c.status.Up?, c.status.Up?)];
    }
    assert names[..|names|] == names;
    TimesAreExtreme(m, group, names);
    TimesAreRight(m, group, names);
    ghost var places := ReportPlaces(m, group, names);
    var phase := PodPhase(n, group);
    var conditions := PodConditions(o, group, last, satisfied, postStart);
    return Report(phase, conditions, if first == 0 then None else Some(first), statuses);
  }
}
