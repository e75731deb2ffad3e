/** The agent's container operations.  Docker, NVML and the file checks appear only through the
    outcome of each call, supplied by a `Docker` value: done, refused, or done with the answer lost. */
module DockerRunner {
  import opened Contract

  datatype ContainerStatus = Created | Running | Restarting | Paused | Removing | Exited | Dead

  datatype Health = HealthStarting | Healthy | Unhealthy

  /** What an inspection of a container shows and Docker may change at any time. */
  datatype Vitals = Vitals(
    status: ContainerStatus, exitCode: Option<int>, health: Option<Health>, failingStreak: nat, restarts: nat,
    createdAt: Option<int>, startedAt: Option<int>, finishedAt: Option<int>)

  /** Generation and cards are labels, fixed at creation. */
  datatype Container = Container(generation: Generation, gpus: set<Gpu>, vitals: Vitals)

  /** Managed containers by owner; the container name is a function of the owner. */
  type Containers = map<Owner, Container>

  datatype Call = Done | Refused | Lost

  /** What a look at a container finds: it, nothing any more, or an error. */
  datatype Look = Seen | Gone | Unclear

  datatype LaunchCheck = LaunchAllowed | LaunchInvalid | LaunchUnreachable

  datatype Nvml = NvmlFree | NvmlBusy | NvmlUnavailable

  datatype Docker = Docker(
    lookup: bool, remove: Call, stop: Call, afterStop: Vitals, reread: bool,
    launch: LaunchCheck, nvml: Nvml, run: Call, birth: Vitals,
    quiesceLookup: Look, quiesceReread: Look, metadataReadable: bool, now: int)

  datatype Settings = Settings(gpuCount: nat, startupTimeout: nat, unhealthyTimeout: nat)

  /** A result, one of the three errors a command turns into an answer, or an error it does not. */
  datatype Outcome<+T> = Value(value: T) | NotFound | Invalid | Malformed | Conflict | Raised

  const INFERENCE_MAX_RESTARTS := 3
  const INFERENCE_HEALTH_INTERVAL_SECONDS := 5

  predicate ActiveStatus(s: ContainerStatus) {
    s == Created || s == Running || s == Restarting || s == Paused
  }

  predicate Active(c: Container) {
    ActiveStatus(c.vitals.status)
  }

  predicate ActiveFor(cs: Containers, o: Owner) {
    o in cs && Active(cs[o])
  }

  /** Whole-card exclusivity on the node. */
  ghost predicate Exclusive(cs: Containers) {
    forall a, b | ActiveFor(cs, a) && ActiveFor(cs, b) && a != b :: cs[a].gpus * cs[b].gpus == {}
  }

  predicate Finished(o: Owner, c: Container) {
    IsJob(o) && c.vitals.status == Exited && c.vitals.exitCode == Some(0)
  }

  predicate GpuConflict(cs: Containers, gpus: set<Gpu>) {
    exists o <- cs :: Active(cs[o]) && cs[o].gpus * gpus != {}
  }

  predicate ValidGpuIds(gpuIds: seq<Gpu>, gpuCount: nat) {
    gpuIds != [] && Distinct(gpuIds) && forall i :: 0 <= i < |gpuIds| ==> 0 <= gpuIds[i].index < gpuCount
  }

  // ---- Specification of each operation on the container map ----

  function PrepareStart(cs: Containers, o: Owner, generation: Generation, d: Docker)
    : (Containers, Outcome<Option<Container>>)
  {
    if !d.lookup then (cs, Raised)
    else if o !in cs then (cs, Value(None))
    else if cs[o].generation > generation then (cs, Conflict)
    else if cs[o].generation == generation then (cs, Value(Some(cs[o])))
    else if Active(cs[o]) then (cs, Conflict)
    else match d.remove
      case Done => (cs - {o}, Value(None))
      case Refused => (cs, Raised)
      case Lost => (cs - {o}, Raised)
  }

  function LaunchContainer(
    cs: Containers, o: Owner, generation: Generation, gpuIds: seq<Gpu>, d: Docker, s: Settings
  ): (Containers, Outcome<Container>)
  {
    var gpus := GpuSet(gpuIds);
    if d.launch == LaunchUnreachable then (cs, Raised)
    else if d.launch == LaunchInvalid || !ValidGpuIds(gpuIds, s.gpuCount) then (cs, Invalid)
    else if o in cs || GpuConflict(cs, gpus) || d.nvml == NvmlBusy then (cs, Conflict)
    else if d.nvml == NvmlUnavailable || d.run == Refused then (cs, Raised)
    else
      var c := Container(generation, gpus, d.birth);
      (cs[o := c], if d.run == Lost || !d.reread then Raised else Value(c))
  }

  function StopContainer(cs: Containers, o: Owner, generation: Generation, d: Docker)
    : (Containers, Outcome<Option<Container>>)
  {
    if !d.lookup then (cs, Raised)
    else if o !in cs then (cs, NotFound)
    else if cs[o].generation != generation then (cs, Conflict)
    else if Finished(o, cs[o]) then (cs, Value(Some(cs[o])))
    else
      var stopped := if Active(cs[o]) && d.stop != Refused then cs[o := cs[o].(vitals := d.afterStop)] else cs;
      if Active(cs[o]) && (d.stop != Done || !d.reread) then (stopped, Raised)
      else if Active(cs[o]) && Finished(o, stopped[o]) then (stopped, Value(Some(stopped[o])))
      else match d.remove
        case Done => (stopped - {o}, Value(None))
        case Refused => (stopped, Raised)
        case Lost => (stopped - {o}, Raised)
  }

  function CleanupContainer(cs: Containers, o: Owner, generation: Generation, d: Docker)
    : (Containers, Outcome<()>)
  {
    if !d.lookup then (cs, Raised)
    else if o !in cs then (cs, Value(()))
    else if cs[o].generation != generation || Active(cs[o]) || cs[o].vitals.status == Removing then (cs, Conflict)
    else match d.remove
      case Done => (cs - {o}, Value(()))
      case Refused => (cs, Raised)
      case Lost => (cs - {o}, Raised)
  }

  /** Stop a failed inference container; true only once it is known not to be active.  It may vanish by
      itself before either look, which is as good as a stop. */
  function Quiesce(cs: Containers, o: Owner, generation: Generation, d: Docker): (Containers, bool) {
    if d.quiesceLookup == Unclear then (cs, false)
    else if d.quiesceLookup == Gone || o !in cs then (cs - {o}, true)
    else if cs[o].generation != generation || cs[o].vitals.status == Removing then (cs, false)
    else if cs[o].vitals.status == Created then
      (if d.remove == Refused then cs else cs - {o}, d.remove == Done)
    else
      var cs' := if Active(cs[o]) && d.stop != Refused then cs[o := cs[o].(vitals := d.afterStop)] else cs;
      if d.quiesceReread == Gone then (cs' - {o}, true)
      else (cs', d.quiesceReread == Seen && !Active(cs'[o]) && cs'[o].vitals.status != Removing)
  }

  // ---- Reading a container's state ----

  function StateFromVitals(kind: OwnerType, v: Vitals): WorkloadState {
    if kind == Deployment then
      match v.status
      case Created | Restarting | Paused => ObservedStarting
      case Running => if v.health == Some(Healthy) then ObservedRunning else ObservedStarting
      case Removing => ObservedStopping
      case Exited | Dead => ObservedFailed
    else
      match v.status
      case Created | Restarting => ObservedStarting
      case Running | Paused => ObservedRunning
      case Removing => ObservedStopping
      case Exited => if v.exitCode == Some(0) then ObservedSucceeded else ObservedFailed
      case Dead => ObservedFailed
  }

  function OrElse(a: Option<int>, b: Option<int>): Option<int> {
    if a.Some? then a else b
  }

  predicate StartupTimedOut(startedAt: Option<int>, now: int, s: Settings) {
    startedAt == None || (if now < startedAt.value then 0 else now - startedAt.value) >= s.startupTimeout
  }

  predicate InferenceFailed(v: Vitals, now: int, s: Settings) {
    if v.health == Some(Healthy) && v.status == Running then false
    else if v.restarts >= INFERENCE_MAX_RESTARTS then true
    else if v.status == Restarting then StartupTimedOut(OrElse(v.finishedAt, v.createdAt), now, s)
    else if v.health == Some(Unhealthy) then
      v.failingStreak == 0 || v.failingStreak * INFERENCE_HEALTH_INTERVAL_SECONDS >= s.unhealthyTimeout
    else StartupTimedOut(OrElse(v.startedAt, v.createdAt), now, s)
  }

  /** An end state is only ever read off a container that is not active. */
  lemma EndStatesAreInactive(kind: OwnerType, v: Vitals)
    ensures EndReport(StateFromVitals(kind, v)) <==> v.status == Exited || v.status == Dead
    ensures StateFromVitals(kind, v) == ObservedSucceeded <==> kind != Deployment && v.status == Exited && v.exitCode == Some(0)
  {
  }

  /** When the container would have to be ready, if its time is what decides. */
  function WaitingSince(v: Vitals): Option<int> {
    if v.status == Restarting then OrElse(v.finishedAt, v.createdAt) else OrElse(v.startedAt, v.createdAt)
  }

  /** Waiting for an inference container is bounded: a verdict of failure never lapses while nothing
      changes, a container that is not reported unhealthy fails at its deadline at the latest, and one
      that is ready never fails. */
  lemma ReadinessWaitIsBounded(v: Vitals, now: int, later: int, s: Settings)
    requires now <= later
    ensures InferenceFailed(v, now, s) ==> InferenceFailed(v, later, s)
    ensures StateFromVitals(Deployment, v) == ObservedRunning ==> !InferenceFailed(v, now, s)
    ensures StateFromVitals(Deployment, v) == ObservedStarting && (v.health != Some(Unhealthy) || v.status == Restarting) ==>
              (WaitingSince(v).None? || later >= WaitingSince(v).value + s.startupTimeout ==> InferenceFailed(v, later, s))
    ensures v.status == Running && v.health == Some(Unhealthy) && v.restarts < INFERENCE_MAX_RESTARTS ==>
              (InferenceFailed(v, now, s) <==> v.failingStreak == 0 || v.failingStreak * INFERENCE_HEALTH_INTERVAL_SECONDS >= s.unhealthyTimeout)
  {
  }

  /** Exactly when an inference container has failed, from what an inspection shows: never when it is running and
      healthy; always, otherwise, after three restarts; before that, a container that is up and reported
      unhealthy by its failed checks, and any other by the time it has had, counted from its last end while it
      restarts and from its start else. */
  lemma FailureIsDecided(v: Vitals, now: int, s: Settings)
    ensures v.status == Running && v.health == Some(Healthy) ==> !InferenceFailed(v, now, s)
    ensures !(v.status == Running && v.health == Some(Healthy)) && v.restarts >= 3 ==> InferenceFailed(v, now, s)
    ensures v.restarts < 3 && v.status != Restarting && v.health == Some(Unhealthy) ==>
              (InferenceFailed(v, now, s) <==> v.failingStreak == 0 || 5 * v.failingStreak >= s.unhealthyTimeout)
    ensures !(v.status == Running && v.health == Some(Healthy)) && v.restarts < 3
            && (v.status == Restarting || v.health != Some(Unhealthy)) ==>
              var first := if v.status == Restarting then v.finishedAt else v.startedAt;
              var since := if first.Some? then first else v.createdAt;
              (InferenceFailed(v, now, s) <==> since.None? || s.startupTimeout == 0 || now >= since.value + s.startupTimeout)
  {
  }

  /** What each kind of workload shows from the outside, state by state. */
  lemma StatesAreRead(v: Vitals)
    ensures StateFromVitals(Deployment, v) == ObservedRunning <==> v.status == Running && v.health == Some(Healthy)
    ensures StateFromVitals(Deployment, v) == ObservedStarting <==>
              v.status in {Created, Restarting, Paused} || (v.status == Running && v.health != Some(Healthy))
    ensures forall kind: OwnerType :: kind != Deployment ==>
              && (StateFromVitals(kind, v) == ObservedRunning <==> v.status in {Running, Paused})
              && (StateFromVitals(kind, v) == ObservedStarting <==> v.status in {Created, Restarting})
              && (StateFromVitals(kind, v) == ObservedSucceeded <==> v.status == Exited && v.exitCode == Some(0))
              && (StateFromVitals(kind, v) == ObservedFailed <==> v.status == Dead || (v.status == Exited && v.exitCode != Some(0)))
    ensures StateFromVitals(Deployment, v) == ObservedFailed <==> v.status in {Exited, Dead}
    ensures forall kind: OwnerType :: StateFromVitals(kind, v) == ObservedStopping <==> v.status == Removing
  {
  }

  /** No operation makes two active containers share a card: the one that creates a container checks
      the cards of every active one first, and no other operation wakes a container. */
  lemma LaunchKeepsExclusive(
    cs: Containers, o: Owner, generation: Generation, gpuIds: seq<Gpu>, d: Docker, s: Settings)
    requires Exclusive(cs)
    ensures Exclusive(LaunchContainer(cs, o, generation, gpuIds, d, s).0)
  {
    var (cs', r) := LaunchContainer(cs, o, generation, gpuIds, d, s);
    if o !in cs && o in cs' {
      forall a, b | ActiveFor(cs', a) && ActiveFor(cs', b) && a != b ensures cs'[a].gpus * cs'[b].gpus == {} {
        if a == o {
          assert b in cs && cs[b].gpus * GpuSet(gpuIds) == {};
          assert cs'[a].gpus * cs'[b].gpus == cs[b].gpus * GpuSet(gpuIds);
        } else if b == o {
          assert a in cs && cs[a].gpus * GpuSet(gpuIds) == {};
          assert cs'[a].gpus * cs'[b].gpus == cs[a].gpus * GpuSet(gpuIds);
        } else {
          assert ActiveFor(cs, a) && ActiveFor(cs, b);
        }
      }
    }
  }

  // ---- Outcome by outcome ----

  /** The card numbers of a launch: at least one, none twice, and all of this node. */
  predicate CardsOfThisNode(gpuIds: seq<Gpu>, gpuCount: nat) {
    && |gpuIds| >= 1 && (forall i :: 0 <= i < |gpuIds| ==> gpuIds[i].index >= 0 && gpuIds[i].index < gpuCount)
    && forall i, j :: 0 <= i < |gpuIds| && 0 <= j < |gpuIds| && i != j ==> gpuIds[i] != gpuIds[j]
  }

  /** Somebody's container that is created, running, restarting or paused has one of the cards. */
  predicate SomeoneUses(cs: Containers, gpuIds: seq<Gpu>) {
    exists o <- cs, g <- gpuIds :: cs[o].vitals.status in {Created, Running, Restarting, Paused} && g in cs[o].gpus
  }

  /** When a launch is invalid, when it conflicts, when it fails, and when it gives a container, of exactly the cards that
      were asked for; a container is left behind exactly when Docker was asked to run one and did not refuse. */
  lemma LaunchOutcomes(cs: Containers, o: Owner, generation: Generation, gpuIds: seq<Gpu>, d: Docker, s: Settings)
    ensures var (cs', r) := LaunchContainer(cs, o, generation, gpuIds, d, s);
            var proper := d.launch == LaunchAllowed && CardsOfThisNode(gpuIds, s.gpuCount);
            var clear := proper && o !in cs && !SomeoneUses(cs, gpuIds) && d.nvml != NvmlBusy;
            var run := clear && d.nvml == NvmlFree && d.run != Refused;
            && (r == Invalid <==> d.launch != LaunchUnreachable && !proper)
            && (r == Conflict <==> proper && !clear)
            && (r.Value? <==> run && d.run == Done && d.reread)
            && (r == Raised <==> !r.Value? && r != Invalid && r != Conflict)
            && cs' == (if run then cs[o := Container(generation, GpuSet(gpuIds), d.birth)] else cs)
            && (r.Value? ==> o in cs' && r.value == cs'[o])
  {
    assert ValidGpuIds(gpuIds, s.gpuCount) <==> CardsOfThisNode(gpuIds, s.gpuCount);
    UseIsConflict(cs, gpuIds);
  }

  lemma UseIsConflict(cs: Containers, gpuIds: seq<Gpu>)
    ensures GpuConflict(cs, GpuSet(gpuIds)) <==> SomeoneUses(cs, gpuIds)
  {
    if GpuConflict(cs, GpuSet(gpuIds)) {
      var o :| o in cs && Active(cs[o]) && cs[o].gpus * GpuSet(gpuIds) != {};
      var g :| g in cs[o].gpus * GpuSet(gpuIds);
      assert g in gpuIds && g in cs[o].gpus;
    }
    if SomeoneUses(cs, gpuIds) {
      var o, g :| o in cs && g in gpuIds && cs[o].vitals.status in {Created, Running, Restarting, Paused} && g in cs[o].gpus;
      assert g in cs[o].gpus * GpuSet(gpuIds);
    }
  }

  /** When a container of the same generation is handed over, when there is none any more, when a start conflicts with
      what is there, and when nothing is known. */
  lemma PrepareOutcomes(cs: Containers, o: Owner, generation: Generation, d: Docker)
    ensures var (cs', r) := PrepareStart(cs, o, generation, d);
            var ended := o in cs && cs[o].generation < generation && cs[o].vitals.status in {Removing, Exited, Dead};
            && (r.Value? && r.value.Some? <==> d.lookup && o in cs && cs[o].generation == generation)
            && (r.Value? && r.value.Some? ==> r.value.value == cs[o])
            && (r == Value(None) <==> d.lookup && (o !in cs || (ended && d.remove == Done)))
            && (r == Conflict <==> d.lookup && o in cs && !ended && cs[o].generation != generation)
            && (r == Raised <==> !d.lookup || (ended && d.remove != Done))
            && cs' == (if d.lookup && ended && d.remove != Refused then cs - {o} else cs)
  {
    if o !in cs { assert cs - {o} == cs; }
  }

  /** A container that is alive when it is to be stopped. */
  predicate Alive(cs: Containers, o: Owner) {
    o in cs && cs[o].vitals.status in {Created, Running, Restarting, Paused}
  }

  /** What is there after the stop that was tried. */
  function AfterStop(cs: Containers, o: Owner, d: Docker): Containers {
    if Alive(cs, o) && d.stop != Refused then cs[o := cs[o].(vitals := d.afterStop)] else cs
  }

  predicate JobIsDone(cs: Containers, o: Owner) {
    o in cs && o.kind != Deployment && cs[o].vitals.status == Exited && cs[o].vitals.exitCode == Some(0)
  }

  /** When a stop finds nothing, conflicts, keeps a job that is done, removes the container, and when nothing is known. */
  lemma StopOutcomes(cs: Containers, o: Owner, generation: Generation, d: Docker)
    ensures var (cs', r) := StopContainer(cs, o, generation, d);
            var mine := d.lookup && o in cs && cs[o].generation == generation;
            var sure := !Alive(cs, o) || (d.stop == Done && d.reread);
            var keep := JobIsDone(cs, o) || (Alive(cs, o) && JobIsDone(AfterStop(cs, o, d), o));
            && (r == NotFound <==> d.lookup && o !in cs)
            && (r == Conflict <==> d.lookup && o in cs && cs[o].generation != generation)
            && (r.Value? && r.value.Some? <==> mine && sure && keep)
            && (r == Value(None) <==> mine && sure && !keep && d.remove == Done)
            && (r == Raised <==> !d.lookup || (mine && (!sure || (!keep && d.remove != Done))))
            && cs' == if !mine then cs
                      else if sure && !keep && d.remove != Refused then AfterStop(cs, o, d) - {o} else AfterStop(cs, o, d)
  {
  }

  /** When a clean-up is done, when it conflicts, and when nothing is known. */
  lemma CleanupOutcomes(cs: Containers, o: Owner, generation: Generation, d: Docker)
    ensures var (cs', r) := CleanupContainer(cs, o, generation, d);
            var ended := o in cs && cs[o].generation == generation && cs[o].vitals.status in {Exited, Dead};
            && (r == Value(()) <==> d.lookup && (o !in cs || (ended && d.remove == Done)))
            && (r == Conflict <==> d.lookup && o in cs && !ended)
            && (r == Raised <==> !d.lookup || (ended && d.remove != Done))
            && cs' == (if d.lookup && ended && d.remove != Refused then cs - {o} else cs)
  {
  }

  /** When a failed inference container is known to be quiet: it is gone at either look, it had only been created and was
      removed, or it is neither alive nor being removed at the second look. */
  lemma QuietOutcomes(cs: Containers, o: Owner, generation: Generation, d: Docker)
    requires d.quiesceLookup == Seen && o in cs && cs[o].generation == generation
    ensures var (cs', quiet) := Quiesce(cs, o, generation, d);
            var status := cs[o].vitals.status;
            && (status == Removing ==> !quiet && cs' == cs)
            && (status == Created ==> (quiet <==> d.remove == Done) && cs' == if d.remove == Refused then cs else cs - {o})
            && (status in {Running, Restarting, Paused, Exited, Dead} ==>
                  && cs' == (if d.quiesceReread == Gone then cs - {o} else AfterStop(cs, o, d))
                  && (quiet <==> d.quiesceReread == Gone
                                 || (d.quiesceReread == Seen && AfterStop(cs, o, d)[o].vitals.status in {Exited, Dead})))
    ensures d.quiesceReread == Gone && cs[o].vitals.status !in {Removing, Created} ==> Quiesce(cs, o, generation, d).1
  {
  }

  /** What it is when the first look finds nothing, or cannot tell. */
  lemma QuietWithoutALook(cs: Containers, o: Owner, generation: Generation, d: Docker)
    ensures d.quiesceLookup == Unclear ==> Quiesce(cs, o, generation, d) == (cs, false)
    ensures d.quiesceLookup == Gone || (d.quiesceLookup == Seen && o !in cs) ==> Quiesce(cs, o, generation, d) == (cs - {o}, true)
    ensures d.quiesceLookup == Seen && o in cs && cs[o].generation != generation ==> Quiesce(cs, o, generation, d) == (cs, false)
  {
  }

  // ---- What the caller may rely on ----

  /** Two maps of containers that differ at most at `o`. */
  ghost predicate SameOthers(cs: Containers, cs': Containers, o: Owner) {
    forall p :: p != o ==> (p in cs' <==> p in cs) && (p in cs ==> cs'[p] == cs[p])
  }

  /** Preparing a start never stops or removes a container that is active, or one of a newer generation.  When
      it reports that there is none, the name is free, so the launch can only fail for its own reasons. */
  lemma PreparingMakesRoom(
    cs: Containers, o: Owner, generation: Generation, d: Docker, gpuIds: seq<Gpu>, launch: Docker, s: Settings)
    ensures var (cs', r) := PrepareStart(cs, o, generation, d);
            && SameOthers(cs, cs', o) && (ActiveFor(cs, o) ==> cs' == cs)
            && (o in cs && cs[o].generation >= generation ==> cs' == cs && r != Value(None))
            && (r.Value? && r.value.Some? ==> o in cs && r.value.value == cs[o] && cs[o].generation == generation)
            && (r == Value(None) ==>
                  && o !in cs'
                  && (LaunchContainer(cs', o, generation, gpuIds, launch, s).1 == Conflict ==>
                        GpuConflict(cs', GpuSet(gpuIds)) || launch.nvml == NvmlBusy))
  {
  }

  /** A confirmed stop is final: the container is gone, or it is a job that had finished by itself.  Stopping
      once more confirms the same and changes nothing; no other workload or generation is ever touched. */
  lemma StoppingIsFinal(cs: Containers, o: Owner, generation: Generation, d: Docker, again: Docker)
    ensures var (cs', r) := StopContainer(cs, o, generation, d);
            && SameOthers(cs, cs', o) && (o in cs && cs[o].generation != generation ==> cs' == cs && !r.Value?)
            && (r.Value? || r == NotFound ==>
                  && !ActiveFor(cs', o) && (o in cs' <==> r.Value? && r.value.Some?)
                  && (o in cs' ==> Finished(o, cs'[o]) && cs'[o].generation == generation && r.value.value == cs'[o])
                  && (again.lookup ==> StopContainer(cs', o, generation, again) == (cs', if o in cs' then r else NotFound)))
  {
    var (cs', r) := StopContainer(cs, o, generation, d);
    if r.Value? && r.value.Some? {
      assert cs'[o].vitals.status == Exited;
    }
  }

  /** Clean-up removes a container only when it has ended and is of the exact generation.  Once confirmed, it
      stays confirmed, and a stop or an observation then finds nothing either. */
  lemma CleaningUpIsFinal(cs: Containers, o: Owner, generation: Generation, d: Docker, again: Docker)
    ensures var (cs', r) := CleanupContainer(cs, o, generation, d);
            && SameOthers(cs, cs', o)
            && (ActiveFor(cs, o) || (o in cs && cs[o].generation != generation) ==> cs' == cs && !r.Value?)
            && (r.Value? ==>
                  && o !in cs'
                  && (again.lookup ==> CleanupContainer(cs', o, generation, again) == (cs', Value(())))
                  && (again.lookup ==> StopContainer(cs', o, generation, again) == (cs', NotFound)))
  {
  }

  /** A confirmed quiet container is gone or has ended, so every later reading of it says FAILED; quieting it
      again cannot bring it back, and another generation is never touched, unless it vanishes by itself. */
  lemma QuietIsReadAsFailed(cs: Containers, o: Owner, generation: Generation, d: Docker, again: Docker)
    ensures var (cs', quiet) := Quiesce(cs, o, generation, d);
            && SameOthers(cs, cs', o) && (o in cs && cs[o].generation != generation && d.quiesceLookup != Gone ==> cs' == cs && !quiet)
            && (quiet && o in cs' ==>
                  && StateFromVitals(Deployment, cs'[o].vitals) == ObservedFailed
                  && (o in Quiesce(cs', o, generation, again).0 ==> Quiesce(cs', o, generation, again).0 == cs'))
            && (quiet ==> !ActiveFor(cs', o))
  {
    var (cs', quiet) := Quiesce(cs, o, generation, d);
    if quiet && o in cs' {
      EndStatesAreInactive(Deployment, cs'[o].vitals);
    }
  }

  /** The runner as the agent holds it: containers change under the allocation lock. */
  class WorkloadRunner {
    var containers: Containers
    const settings: Settings

    constructor (settings: Settings)
      ensures containers == map[] && this.settings == settings
    {
      containers := map[];
      this.settings := settings;
    }

    /** Which active container holds each card. */
    method GpuAllocations() returns (allocations: map<Gpu, Owner>)
      ensures forall g :: g in allocations <==> exists o <- containers :: Active(containers[o]) && g in containers[o].gpus
      ensures forall g <- allocations :: ActiveFor(containers, allocations[g]) && g in containers[allocations[g]].gpus
    {
      allocations := map[];
      var todo := containers.Keys;
      while todo != {}
        invariant todo <= containers.Keys
        invariant forall o <- containers.Keys - todo, g <- containers[o].gpus :: Active(containers[o]) ==> g in allocations
        invariant forall g <- allocations :: ActiveFor(containers, allocations[g]) && g in containers[allocations[g]].gpus
        decreases todo
      {
        var o :| o in todo;
        if Active(containers[o]) {
          var cards := containers[o].gpus;
          while cards != {}
            invariant cards <= containers[o].gpus
            invariant forall p <- containers.Keys - todo, g <- containers[p].gpus :: Active(containers[p]) ==> g in allocations
            invariant forall g <- containers[o].gpus - cards :: g in allocations
            invariant forall g <- allocations :: ActiveFor(containers, allocations[g]) && g in containers[allocations[g]].gpus
            decreases cards
          {
            var g :| g in cards;
            allocations := allocations[g := o];
            cards := cards - {g};
          }
        }
        todo := todo - {o};
      }
    }

    method RemoveContainer(o: Owner, d: Docker) returns (confirmed: bool)
      requires o in containers
      modifies this`containers
      ensures containers == if d.remove == Refused then old(containers) else old(containers) - {o}
      ensures confirmed <==> d.remove == Done
    {
      if d.remove != Refused { containers := containers - {o}; }
      confirmed := d.remove == Done;
    }

    method PrepareContractStart(o: Owner, generation: Generation, d: Docker)
      returns (r: Outcome<Option<Container>>)
      modifies this`containers
      ensures (containers, r) == PrepareStart(old(containers), o, generation, d)
    {
      if !d.lookup { return Raised; }
      if o !in containers { return Value(None); }
      var c := containers[o];
      if c.generation > generation { return Conflict; }
      if c.generation == generation { return Value(Some(c)); }
      if Active(c) { return Conflict; }
      var removed := RemoveContainer(o, d);
      r := if removed then Value(None) else Raised;
    }

    method LaunchWorkload(o: Owner, generation: Generation, gpuIds: seq<Gpu>, d: Docker)
      returns (r: Outcome<Container>)
      modifies this`containers
      ensures (containers, r) == LaunchContainer(old(containers), o, generation, gpuIds, d, settings)
    {
      if d.launch == LaunchUnreachable { return Raised; }
      if d.launch == LaunchInvalid || !ValidGpuIds(gpuIds, settings.gpuCount) { return Invalid; }
      if o in containers { return Conflict; }
      var allocations := GpuAllocations();
      var requested := GpuSet(gpuIds);
      if allocations.Keys * requested != {} {
        ghost var g :| g in allocations.Keys * requested;
        assert g in containers[allocations[g]].gpus * requested;
        return Conflict;
      }
      forall p <- containers | Active(containers[p]) ensures containers[p].gpus * requested == {} {
        forall g <- containers[p].gpus ensures g !in requested {
          assert g in allocations && g !in allocations.Keys * requested;
        }
      }
      match d.nvml {
        case NvmlBusy => return Conflict;
        case NvmlUnavailable => return Raised;
        case NvmlFree =>
      }
      if d.run == Refused { return Raised; }
      var c := Container(generation, requested, d.birth);
      containers := containers[o := c];
      r := if d.run == Lost || !d.reread then Raised else Value(c);
    }

    method StopContractWorkload(o: Owner, generation: Generation, d: Docker)
      returns (r: Outcome<Option<Container>>)
      modifies this`containers
      ensures (containers, r) == StopContainer(old(containers), o, generation, d)
    {
      if !d.lookup { return Raised; }
      if o !in containers { return NotFound; }
      var c := containers[o];
      if c.generation != generation { return Conflict; }
      if Finished(o, c) { return Value(Some(c)); }
      if Active(c) {
        if d.stop != Refused { containers := containers[o := c.(vitals := d.afterStop)]; }
        if d.stop != Done || !d.reread { return Raised; }
        if Finished(o, containers[o]) { return Value(Some(containers[o])); }
      }
      var removed := RemoveContainer(o, d);
      r := if removed then Value(None) else Raised;
    }

    method CleanupContractWorkload(o: Owner, generation: Generation, d: Docker) returns (r: Outcome<()>)
      modifies this`containers
      ensures (containers, r) == CleanupContainer(old(containers), o, generation, d)
    {
      if !d.lookup { return Raised; }
      if o !in containers { return Value(()); }
      var c := containers[o];
      if c.generation != generation { return Conflict; }
      if Active(c) { return Conflict; }
      if c.vitals.status == Removing { return Conflict; }
      var removed := RemoveContainer(o, d);
      r := if removed then Value(()) else Raised;
    }

    method QuiesceFailedInference(o: Owner, generation: Generation, d: Docker) returns (quiet: bool)
      modifies this`containers
      ensures (containers, quiet) == Quiesce(old(containers), o, generation, d)
    {
      if d.quiesceLookup == Unclear { return false; }
      if d.quiesceLookup == Gone { containers := containers - {o}; }
      if o !in containers {
        assert containers == old(containers) - {o};
        return true;
      }
      var c := containers[o];
      if c.generation != generation { return false; }
      if c.vitals.status == Removing { return false; }
      if c.vitals.status == Created {
        quiet := RemoveContainer(o, d);
        return;
      }
      if Active(c) && d.stop != Refused {
        containers := containers[o := c.(vitals := d.afterStop)];
      }
      if d.quiesceReread == Gone {
        containers := containers - {o};
        return true;
      }
      if d.quiesceReread == Unclear { return false; }
      quiet := !Active(containers[o]) && containers[o].vitals.status != Removing;
    }
  }
}
