/** Lease coverage: every active container is covered by leases on exactly its cards, held by its owner
    at its generation, in every reachable state of the allocation system. */
module LeaseCoverage {
  import opened Contract
  import opened GpuScheduler
  import opened Reconciler
  import opened CommandService
  import opened AllocationSystem
  import Runner = DockerRunner
  import AgentRuns

  ghost predicate Covered(leases: LeaseTable, cs: Runner.Containers, o: Owner) {
    Runner.ActiveFor(cs, o) ==>
      && Owned(leases, o) == cs[o].gpus
      && forall g <- cs[o].gpus :: leases[g].generation == cs[o].generation
  }

  // ---- The two assumptions ----

  /** `/start` is not sent to a deployment that is still stopping, and reading the metadata of a
      training container that is active succeeds. */
  ghost predicate Assumed(y: System, e: Event, cfg: Config)
    requires Enabled(y, e)
  {
    match e
    case StartRequest(o, _) => y.rows[o].actual != Stopping
    case Rpc(x) =>
      y.pc.s.owner.kind == Training && Runner.ActiveFor(Next(y, e, cfg).agent.containers, y.pc.s.owner) ==> x.docker.metadataReadable
    case _ => true
  }

  // ---- The invariant ----

  ghost predicate LeasesMatchRows(rows: Rows, leases: LeaseTable) {
    && (forall g <- leases ::
          var o := leases[g].owner;
          && o in rows && ActiveRow(o, rows[o]) && leases[g].generation == rows[o].runtimeGeneration
          && g in GpuSet(rows[o].gpuIds))
    && (forall o <- rows :: ActiveRow(o, rows[o]) ==>
          rows[o].runtimeGeneration >= 1 && forall g <- GpuSet(rows[o].gpuIds) :: g in leases && leases[g].owner == o)
  }

  ghost predicate ContainersMatchRows(rows: Rows, cs: Runner.Containers) {
    forall o <- cs :: Runner.Active(cs[o]) ==>
      && o in rows && ActiveRow(o, rows[o])
      && cs[o].generation == rows[o].runtimeGeneration && cs[o].gpus == GpuSet(rows[o].gpuIds)
  }

  /** Jobs and deployments keep to their own states. */
  predicate WellTyped(o: Owner, r: Row) {
    if IsJob(o) then r.actual != Stopping && r.actual != Stopped
    else r.actual != Canceling && r.actual != Canceled && r.actual != Succeeded
  }

  ghost predicate RowsWellFormed(rows: Rows, m: Store) {
    forall o <- rows ::
      && Watermark(m, o) <= EffectiveGeneration(rows[o])
      && rows[o].runtimeGeneration <= rows[o].stateVersion && WellTyped(o, rows[o])
  }

  /** What the reconciler remembers of a row is still so. */
  ghost predicate Fresh(rows: Rows, s: Snapshot) {
    && s.owner in rows && ActiveRow(s.owner, rows[s.owner])
    && rows[s.owner].runtimeGeneration == s.generation && rows[s.owner].gpuIds == s.gpuIds
  }

  ghost predicate SnapshotsFresh(rows: Rows, pc: Pc) {
    && DistinctOwners(Snapshots(pc))
    && forall s <- Snapshots(pc) :: Fresh(rows, s)
  }

  ghost predicate CallsSound(cs: Runner.Containers, pc: Pc) {
    && (pc.Calling? && pc.action == Start ==> !Runner.ActiveFor(cs, pc.s.owner))
    && (pc.Applying? && pc.reply.Answer? ==>
          && (EndReport(pc.reply.response.observed) ==> !Runner.ActiveFor(cs, pc.s.owner))
          && (!pc.reply.response.accepted ==> pc.reply.response.observed == ObservedFailed)
          && pc.reply.response.error != StaleGeneration && pc.reply.response.error != RequestIdReused)
  }

  ghost predicate NamesUsed(y: System) {
    && y.rows.Keys <= y.used && y.agent.containers.Keys <= y.used && y.agent.memory.generations.Keys <= y.used
    && forall id <- y.agent.memory.requests :: id < y.nextRequest
  }

  ghost predicate Inv(y: System) {
    && LeasesMatchRows(y.rows, y.leases)
    && ContainersMatchRows(y.rows, y.agent.containers)
    && RowsWellFormed(y.rows, y.agent.memory)
    && SnapshotsFresh(y.rows, y.pc)
    && CallsSound(y.agent.containers, y.pc)
    && NamesUsed(y)
    && AgentRuns.Inv(y.agent)
  }

  lemma InvCovers(y: System, o: Owner)
    requires Inv(y)
    ensures Covered(y.leases, y.agent.containers, o)
  {
    if Runner.ActiveFor(y.agent.containers, o) {
      var gpus := y.agent.containers[o].gpus;
      assert gpus == GpuSet(y.rows[o].gpuIds);
      assert Owned(y.leases, o) == gpus;
    }
  }

  // ---- One call to the agent ----

  ghost predicate ControlCommand(c: Command, cs: Runner.Containers) {
    && (Runner.ActiveFor(cs, c.owner) ==> cs[c.owner].generation == c.generation)
    && (c.action == Start ==> !Runner.ActiveFor(cs, c.owner))
    && (c.action == Status ==> c.execution == NoExecution)
    && (c.action == Stop ==> c.execution == NoExecution || (c.execution == CleanupTerminal && !Runner.ActiveFor(cs, c.owner)))
  }

  /** Outcomes the reconciler will read as the end of the workload: end states and refusals. */
  predicate ReadsAsEnd(r: Runner.Outcome<WorkloadState>) {
    match r
    case Value(state) => EndReport(state)
    case Invalid | Malformed | Conflict => true
    case NotFound | Raised => false
  }

  ghost predicate MetadataReadable(o: Owner, cs: Runner.Containers, d: Runner.Docker) {
    o.kind == Training && Runner.ActiveFor(cs, o) ==> d.metadataReadable
  }

  lemma RespondEndsInactive(cs: Runner.Containers, o: Owner, c: Runner.Container, d: Runner.Docker, s: Runner.Settings)
    requires o in cs && cs[o] == c
    ensures var (cs', r) := Respond(cs, o, c, d, s);
            MetadataReadable(o, cs', d) && ReadsAsEnd(r) ==> !Runner.ActiveFor(cs', o)
  {
    AgentRuns.RespondTellsTheTruth(cs, o, c, d, s);
  }

  lemma StartEndsInactive(cs: Runner.Containers, c: Command, d: Runner.Docker, s: Runner.Settings)
    requires !Runner.ActiveFor(cs, c.owner)
    ensures var (cs', r) := StartWorkload(cs, c, d, s);
            && (MetadataReadable(c.owner, cs', d) && ReadsAsEnd(r) ==> !Runner.ActiveFor(cs', c.owner))
            && (Runner.ActiveFor(cs', c.owner) ==> cs'[c.owner].generation == c.generation && cs'[c.owner].gpus == GpuSet(c.gpuIds))
  {
    if c.execution.Launch? && c.execution.runner == ExpectedRunner(c.owner.kind) {
      var (prepared, existing) := Runner.PrepareStart(cs, c.owner, c.generation, d);
      if existing.Value? {
        if existing.value.Some? {
          RespondEndsInactive(prepared, c.owner, existing.value.value, d, s);
        } else {
          var (launched, r) := Runner.LaunchContainer(prepared, c.owner, c.generation, c.gpuIds, d, s);
          if r.Value? {
            RespondEndsInactive(launched, c.owner, r.value, d, s);
          }
        }
      }
    }
  }

  lemma DispatchEndsInactive(cs: Runner.Containers, c: Command, d: Runner.Docker, s: Runner.Settings)
    requires ControlCommand(c, cs)
    ensures var (cs', r) := Dispatch(cs, c, d, s);
            && (MetadataReadable(c.owner, cs', d) && ReadsAsEnd(r) ==> !Runner.ActiveFor(cs', c.owner))
            && (c.action == Start && Runner.ActiveFor(cs', c.owner) ==>
                  cs'[c.owner].generation == c.generation && cs'[c.owner].gpus == GpuSet(c.gpuIds))
  {
    match c.action
    case Start => StartEndsInactive(cs, c, d, s);
    case Stop =>
      if c.execution == NoExecution {
        var (stopped, r) := Runner.StopContainer(cs, c.owner, c.generation, d);
        if r.Value? && r.value.Some? {
          RespondEndsInactive(stopped, c.owner, r.value.value, d, s);
        }
      }
    case Status =>
      if c.owner in cs {
        RespondEndsInactive(cs, c.owner, cs[c.owner], d, s);
      }
  }

  /** What one call may do to the agent's store. */
  ghost predicate StoreChange(m: Store, m': Store, c: Command) {
    && (forall o :: o != c.owner ==> Watermark(m', o) == Watermark(m, o))
    && (Watermark(m', c.owner) == Watermark(m, c.owner) || Watermark(m', c.owner) == c.generation)
    && m'.generations.Keys <= m.generations.Keys + {c.owner}
    && m'.requests.Keys <= m.requests.Keys + {c.requestId}
  }

  ghost predicate ContainerChange(cs: Runner.Containers, cs': Runner.Containers, c: Command) {
    && AgentRuns.OnlyTouches(cs, cs', c.owner, c.generation)
    && (c.action != Start ==> AgentRuns.NoneWoken(cs, cs', c.owner))
    && (c.action == Start && Runner.ActiveFor(cs', c.owner) ==>
          cs'[c.owner].generation == c.generation && cs'[c.owner].gpus == GpuSet(c.gpuIds))
  }

  ghost predicate SoundReply(cs': Runner.Containers, c: Command, reply: Reply) {
    reply.Answer? ==>
      && (!reply.response.accepted ==> reply.response.observed == ObservedFailed)
      && reply.response.error != StaleGeneration && reply.response.error != RequestIdReused
      && (reply.response.accepted && reply.response.observed == ObservedAbsent ==> c.owner !in cs')
  }

  /** What one call changes at the agent, and what its answer proves. */
  ghost predicate CallEffect(a: Agent, c: Command, a': Agent, reply: Reply) {
    && AgentRuns.Inv(a')
    && StoreChange(a.memory, a'.memory, c)
    && ContainerChange(a.containers, a'.containers, c)
    && SoundReply(a'.containers, c, reply)
  }

  ghost predicate TrueEnd(cs': Runner.Containers, c: Command, d: Runner.Docker, reply: Reply) {
    MetadataReadable(c.owner, cs', d) && reply.Answer? && EndReport(reply.response.observed) ==> !Runner.ActiveFor(cs', c.owner)
  }

  lemma BindingStoreChange(m: Store, bound: Store, c: Command)
    requires AgentRuns.Consistent(m) && c.generation >= Watermark(m, c.owner)
    requires c.action == Start ==> !BindingConflicts(m, c)
    requires bound == if c.action == Start then BindStart(m, c) else Advance(m, c.owner, c.generation)
    ensures StoreChange(m, bound, c) && Load(bound) == bound
  {
    AgentRuns.BoundStoreFacts(m, c);
    AgentRuns.ReloadIsIdentity(bound);
  }

  lemma CachingStoreChange(m: Store, m': Store, c: Command, result: Response, oldest: nat)
    requires StoreChange(m, m', c)
    ensures StoreChange(m, PutRequest(m', c, result, oldest), c)
  {
    var put := PutRequest(m', c, result, oldest);
    assert put.generations == m'.generations;
    assert put.requests.Keys <= m'.requests.Keys + {c.requestId};
  }

  /** One of the states a settled command can leave behind. */
  lemma SettledStateEffect(a: Agent, c: Command, bound: Store, done: Agent, a': Agent, result: Response, oldest: nat)
    requires AgentRuns.Inv(a) && StoreChange(a.memory, bound, c) && Load(bound) == bound
    requires done.memory == bound && done.disk == bound
    requires
      || a' == Reloaded(a)
      || a' == Reloaded(Agent(bound, bound, a.containers, a.dispatched))
      || a' == Reloaded(done) || a' == done
      || a' == CacheAnswer(done, c, result, oldest, NoCrash).0
    ensures StoreChange(a.memory, a'.memory, c)
    ensures a'.containers == a.containers || a'.containers == done.containers
  {
    AgentRuns.ReloadIsIdentity(a.disk);
    CachingStoreChange(a.memory, bound, c, result, oldest);
  }

  lemma SettleEffect(
    a: Agent, c: Command, containers: Runner.Containers, r: Runner.Outcome<WorkloadState>, oldest: nat, crash: CrashPoint)
    requires AgentRuns.Inv(a) && c.generation >= Watermark(a.memory, c.owner)
    requires c.action == Start ==> !BindingConflicts(a.memory, c)
    ensures var (a', reply) := Settle(a, c, containers, r, oldest, crash);
            && StoreChange(a.memory, a'.memory, c)
            && (a'.containers == a.containers || a'.containers == containers)
            && (reply.Answer? ==> a'.containers == containers && reply == ReplyTo(c, r))
  {
    var bound := if c.action == Start then BindStart(a.memory, c) else Advance(a.memory, c.owner, c.generation);
    BindingStoreChange(a.memory, bound, c);
    AgentRuns.SettledStates(a, c, containers, r, oldest, crash);
    var done := Agent(bound, bound, containers, a.dispatched + {Body(c)});
    var result := if ReplyTo(c, r).Answer? then ReplyTo(c, r).response else Rejected(c, NoError);
    SettledStateEffect(a, c, bound, done, Settle(a, c, containers, r, oldest, crash).0, result, oldest);
  }

  lemma RefusedBindingEffect(a: Agent, c: Command, oldest: nat, crash: CrashPoint)
    requires AgentRuns.Inv(a)
    ensures var (a', reply) := CacheAnswer(a, c, Rejected(c, GenerationReused), oldest, crash);
            StoreChange(a.memory, a'.memory, c) && a'.containers == a.containers && SoundReply(a'.containers, c, reply)
  {
    AgentRuns.ReloadIsIdentity(a.disk);
    CachingStoreChange(a.memory, a.memory, c, Rejected(c, GenerationReused), oldest);
  }

  lemma DispatchEffect(cs: Runner.Containers, c: Command, d: Runner.Docker, s: Runner.Settings)
    requires Runner.Exclusive(cs) && ControlCommand(c, cs)
    ensures var (cs', r) := Dispatch(cs, c, d, s);
            ContainerChange(cs, cs', c) && SoundReply(cs', c, ReplyTo(c, r)) && TrueEnd(cs', c, d, ReplyTo(c, r))
  {
    AgentRuns.DispatchFrame(cs, c, d, s);
    DispatchEndsInactive(cs, c, d, s);
    AgentRuns.DispatchTellsTheTruth(cs, c, d, s);
  }

  lemma ExecuteEffect(a: Agent, c: Command, d: Runner.Docker, s: Runner.Settings, oldest: nat, crash: CrashPoint)
    requires AgentRuns.Inv(a) && ControlCommand(c, a.containers)
    requires c.generation >= Watermark(a.memory, c.owner) && c.requestId !in a.memory.requests
    ensures var (a', reply) := Execute(a, c, d, s, oldest, crash);
            CallEffect(a, c, a', reply) && TrueEnd(a'.containers, c, d, reply)
  {
    AgentRuns.ExecuteKeepsInv(a, c, d, s, oldest, crash);
    if c.action == Start && BindingConflicts(a.memory, c) {
      RefusedBindingEffect(a, c, oldest, crash);
    } else {
      DispatchEffect(a.containers, c, d, s);
      var (containers, r) := Dispatch(a.containers, c, d, s);
      SettleEffect(a, c, containers, r, oldest, crash);
    }
  }

  lemma CallHasEffect(a: Agent, c: Command, x: Exchange, cfg: Config)
    requires AgentRuns.Inv(a) && ControlCommand(c, a.containers)
    requires c.generation >= Watermark(a.memory, c.owner) && c.requestId !in a.memory.requests
    ensures var (a', reply) := Call(a, c, x, cfg);
            CallEffect(a, c, a', reply) && TrueEnd(a'.containers, c, x.docker, reply)
  {
    ExecuteEffect(a, c, x.docker, cfg.settings, x.oldest, x.crash);
  }

  // ---- Preservation, one kind of step at a time ----

  /** Only the reconciler's place in its round differs. */
  lemma PcChangeKeepsInv(y: System, pc: Pc)
    requires Inv(y) && SnapshotsFresh(y.rows, pc) && CallsSound(y.agent.containers, pc)
    ensures Inv(y.(pc := pc))
  {
  }

  /** A row may change in any way that leaves an active row active at its generation and cards, an
      inactive one inactive, and does not lower its generation. */
  ghost predicate QuietChange(o: Owner, r: Row, r': Row) {
    && (ActiveRow(o, r') <==> ActiveRow(o, r))
    && (ActiveRow(o, r) ==> r'.runtimeGeneration == r.runtimeGeneration && r'.gpuIds == r.gpuIds)
    && EffectiveGeneration(r) <= EffectiveGeneration(r') && r'.runtimeGeneration <= r'.stateVersion
    && WellTyped(o, r')
  }

  lemma QuietChangeKeepsInv(y: System, o: Owner, r': Row)
    requires Inv(y) && o in y.rows && QuietChange(o, y.rows[o], r')
    ensures Inv(y.(rows := y.rows[o := r']))
  {
    var rows' := y.rows[o := r'];
    forall s <- Snapshots(y.pc) ensures Fresh(rows', s) {
      assert Fresh(y.rows, s);
    }
  }

  lemma ReleaseKeepsMatching(rows: Rows, leases: LeaseTable, o: Owner, r': Row, generation: Generation)
    requires LeasesMatchRows(rows, leases) && o in rows && !ActiveRow(o, r') && rows[o].runtimeGeneration == generation
    ensures LeasesMatchRows(rows[o := r'], Release(leases, o, generation))
  {
    var leases' := Release(leases, o, generation);
    forall g <- leases' ensures leases'[g].owner != o {
      assert g in leases;
    }
  }

  /** The row of `o` leaves the active states, its leases go, and nothing else still refers to it. */
  lemma EndingKeepsInv(y: System, o: Owner, r': Row, generation: Generation, pc: Pc)
    requires Inv(y) && o in y.rows && ActiveRow(o, y.rows[o]) && y.rows[o].runtimeGeneration == generation
    requires !ActiveRow(o, r') && EffectiveGeneration(y.rows[o]) <= EffectiveGeneration(r')
    requires r'.runtimeGeneration <= r'.stateVersion && WellTyped(o, r')
    requires !Runner.ActiveFor(y.agent.containers, o)
    requires SnapshotsFresh(y.rows, pc) && forall s <- Snapshots(pc) :: s.owner != o
    requires CallsSound(y.agent.containers, pc)
    ensures Inv(y.(rows := y.rows[o := r'], leases := Release(y.leases, o, generation), pc := pc))
  {
    var rows', leases' := y.rows[o := r'], Release(y.leases, o, generation);
    forall s <- Snapshots(pc) ensures Fresh(rows', s) {
      assert Fresh(y.rows, s);
    }
    ReleaseKeepsMatching(y.rows, y.leases, o, r', generation);
  }

  lemma LiveKeepsMatching(rows: Rows, leases: LeaseTable, o: Owner, r': Row, generation: Generation, now: int, ttl: nat)
    requires LeasesMatchRows(rows, leases) && o in rows && ActiveRow(o, rows[o]) && ActiveRow(o, r')
    requires r'.runtimeGeneration == rows[o].runtimeGeneration && r'.gpuIds == rows[o].gpuIds
    ensures LeasesMatchRows(rows[o := r'], Heartbeat(leases, o, generation, now, ttl))
  {
    var leases' := Heartbeat(leases, o, generation, now, ttl);
    assert forall g :: g in leases' <==> g in leases;
    assert forall g <- leases :: leases'[g].owner == leases[g].owner && leases'[g].generation == leases[g].generation;
  }

  lemma ObservationKeepsMatching(
    rows: Rows, leases: LeaseTable, s: Snapshot, reply: Reply, artifactsValid: bool, now: int, ttl: nat)
    requires LeasesMatchRows(rows, leases)
    ensures var (rows', leases') := ObserveReply(rows, leases, s, reply, artifactsValid, now, ttl);
            Current(rows, s) && ActiveRow(s.owner, rows[s.owner]) ==> LeasesMatchRows(rows', leases')
  {
    if Current(rows, s) && ActiveRow(s.owner, rows[s.owner]) && reply.Answer? {
      var rows' := ObserveReply(rows, leases, s, reply, artifactsValid, now, ttl).0;
      var r' := rows'[s.owner];
      assert rows' == rows[s.owner := r'];
      if EndReport(reply.response.observed) {
        ReleaseKeepsMatching(rows, leases, s.owner, r', s.generation);
      } else {
        LiveKeepsMatching(rows, leases, s.owner, r', s.generation, now, ttl);
      }
    }
  }

  /** Whatever the agent answers to one inspection of a current active row, in one call or in two: afterwards
      every active row has exactly its group of leases again and every other row none. */
  lemma InspectionKeepsMatching(
    rows: Rows, leases: LeaseTable, s: Snapshot, agent: Calls, artifactsValid: bool, now: int, ttl: nat)
    requires LeasesMatchRows(rows, leases) && Current(rows, s) && ActiveRow(s.owner, rows[s.owner])
    ensures var (rows', leases') := Inspect(rows, leases, s, agent, artifactsValid, now, ttl);
            LeasesMatchRows(rows', leases')
  {
    var first := agent(s, FirstAction(s));
    ObservationKeepsMatching(rows, leases, s, first, artifactsValid, now, ttl);
    var (mid, held) := ObserveReply(rows, leases, s, first, artifactsValid, now, ttl);
    if StopFollows(s, FirstAction(s), first) {
      ObservationKeepsMatching(mid, held, s, agent(s, Stop), artifactsValid, now, ttl);
    }
  }

  ghost predicate AllCurrent(rows: Rows, active: seq<Snapshot>) {
    forall i :: 0 <= i < |active| ==> Current(rows, active[i]) && ActiveRow(active[i].owner, rows[active[i].owner])
  }

  /** So does a whole pass over different workloads. */
  lemma {:induction false} InspectionsKeepMatching(
    rows: Rows, leases: LeaseTable, active: seq<Snapshot>, agent: Calls, artifactsValid: Owner -> bool, now: int, ttl: nat)
    requires LeasesMatchRows(rows, leases) && DistinctOwners(active) && AllCurrent(rows, active)
    ensures var (rows', leases') := InspectAll(rows, leases, active, agent, artifactsValid, now, ttl);
            LeasesMatchRows(rows', leases')
    decreases |active|
  {
    if active != [] {
      var (s, rest, valid) := (active[0], active[1..], artifactsValid(active[0].owner));
      InspectionKeepsMatching(rows, leases, s, agent, valid, now, ttl);
      var (rows', leases') := Inspect(rows, leases, s, agent, valid, now, ttl);
      forall i | 0 <= i < |rest| ensures Current(rows', rest[i]) && ActiveRow(rest[i].owner, rows'[rest[i].owner]) {
        assert rest[i] == active[i + 1];
        InspectionsStayApart(rows, leases, [s], agent, artifactsValid, now, ttl, rest[i].owner);
        assert InspectAll(rows, leases, [s], agent, artifactsValid, now, ttl) == (rows', leases');
      }
      InspectionsKeepMatching(rows', leases', rest, agent, artifactsValid, now, ttl);
    }
  }

  lemma HeartbeatKeepsInv(y: System, o: Owner, generation: Generation, now: int, ttl: nat)
    requires Inv(y)
    ensures Inv(y.(leases := Heartbeat(y.leases, o, generation, now, ttl)))
  {
  }

  lemma ReapFindsNothing(rows: Rows, leases: LeaseTable, now: int)
    requires LeasesMatchRows(rows, leases)
    ensures ReapTerminal(rows, leases, now) == leases
  {
    assert ReapConfirmed(rows, leases, now) == {};
    assert Reapable(leases, {}, now) == {};
  }

  lemma BeginRoundKeepsInv(y: System, order: seq<Owner>, cfg: Config)
    requires Inv(y) && Enabled(y, BeginRound(order))
    ensures Inv(Next(y, BeginRound(order), cfg))
  {
    var pc := Next(y, BeginRound(order), cfg).pc;
    forall i | 0 <= i < |order| ensures Fresh(y.rows, pc.todo[i]) {
      assert order[i] in order;
    }
    PcChangeKeepsInv(y, pc);
  }

  /** The agent changed by one call about `c.owner`; the reconciler has not moved on yet. */
  lemma CallKeepsTables(y: System, c: Command, a': Agent, reply: Reply)
    requires Inv(y) && CallEffect(y.agent, c, a', reply) && c.requestId == y.nextRequest
    requires c.owner in y.rows && c.generation == EffectiveGeneration(y.rows[c.owner])
    requires c.action == Start ==>
      && ActiveRow(c.owner, y.rows[c.owner]) && y.rows[c.owner].runtimeGeneration == c.generation
      && y.rows[c.owner].gpuIds == c.gpuIds
    ensures ContainersMatchRows(y.rows, a'.containers)
    ensures RowsWellFormed(y.rows, a'.memory)
    ensures NamesUsed(y.(agent := a', nextRequest := y.nextRequest + 1))
  {
    forall o <- a'.containers | Runner.Active(a'.containers[o])
      ensures o in y.rows && ActiveRow(o, y.rows[o])
      ensures a'.containers[o].generation == y.rows[o].runtimeGeneration && a'.containers[o].gpus == GpuSet(y.rows[o].gpuIds)
    {
      assert Runner.ActiveFor(a'.containers, o);
    }
    assert a'.containers.Keys <= y.agent.containers.Keys + {c.owner};
  }

  lemma CalledKeepsInv(y: System, c: Command, a': Agent, reply: Reply, issued: multiset<Owner>)
    requires Inv(y) && y.pc.Calling? && c.owner == y.pc.s.owner && c.requestId == y.nextRequest
    requires CallEffect(y.agent, c, a', reply)
    requires reply.Answer? && EndReport(reply.response.observed) ==> !Runner.ActiveFor(a'.containers, c.owner)
    requires c.generation == y.pc.s.generation && c.gpuIds == y.pc.s.gpuIds
    ensures Inv(y.(agent := a', nextRequest := y.nextRequest + 1, issued := issued,
                   pc := Applying(y.pc.s, y.pc.action, reply, y.pc.todo)))
  {
    assert Fresh(y.rows, Snapshots(y.pc)[0]);
    CallKeepsTables(y, c, a', reply);
    var pc := Applying(y.pc.s, y.pc.action, reply, y.pc.todo);
    assert Snapshots(pc) == Snapshots(y.pc);
    assert SnapshotsFresh(y.rows, pc);
  }

  lemma RpcKeepsInv(y: System, x: Exchange, cfg: Config)
    requires Inv(y) && Enabled(y, Rpc(x)) && Assumed(y, Rpc(x), cfg)
    ensures Inv(Next(y, Rpc(x), cfg))
  {
    var s, action := y.pc.s, y.pc.action;
    assert Fresh(y.rows, Snapshots(y.pc)[0]);
    var c := CommandOf(s, action, y.pc.execution, y.nextRequest);
    CallHasEffect(y.agent, c, x, cfg);
    var (a', reply) := Call(y.agent, c, x, cfg);
    CalledKeepsInv(y, c, a', reply, Next(y, Rpc(x), cfg).issued);
  }

  /** Deleting a row that holds no lease and has no container. */
  lemma RemoveRowKeepsInv(y: System, o: Owner)
    requires Inv(y) && o in y.rows && !ActiveRow(o, y.rows[o])
    ensures Inv(y.(rows := y.rows - {o}, leases := ReleaseAll(y.leases, o)))
  {
    assert Owned(y.leases, o) == {};
    assert ReleaseAll(y.leases, o) == y.leases;
    var rows' := y.rows - {o};
    forall s <- Snapshots(y.pc) ensures Fresh(rows', s) {
      assert Fresh(y.rows, s);
    }
  }

  lemma CleanupCallKeepsInv(y: System, o: Owner, x: Exchange, cfg: Config)
    requires Inv(y) && o in y.rows && TerminalRow(o, y.rows[o])
    ensures var (a', reply) := Call(y.agent, CleanupOf(o, y.rows[o], y.nextRequest), x, cfg);
            Inv(y.(agent := a', nextRequest := y.nextRequest + 1))
  {
    var c := CleanupOf(o, y.rows[o], y.nextRequest);
    assert !ActiveRow(o, y.rows[o]);
    CallHasEffect(y.agent, c, x, cfg);
    var (a', reply) := Call(y.agent, c, x, cfg);
    QuietCallKeepsInv(y, c, a', reply);
  }

  /** A call about a workload whose row is not active wakes nothing, so the reconciler's own call is untouched. */
  lemma QuietCallKeepsInv(y: System, c: Command, a': Agent, reply: Reply)
    requires Inv(y) && CallEffect(y.agent, c, a', reply) && c.requestId == y.nextRequest && c.action != Start
    requires c.owner in y.rows && c.generation == EffectiveGeneration(y.rows[c.owner]) && !ActiveRow(c.owner, y.rows[c.owner])
    ensures Inv(y.(agent := a', nextRequest := y.nextRequest + 1))
  {
    CallKeepsTables(y, c, a', reply);
    if y.pc.Applying? || y.pc.Calling? {
      assert Snapshots(y.pc)[0] == y.pc.s;
      assert Fresh(y.rows, y.pc.s);
    }
    assert !Runner.ActiveFor(a'.containers, c.owner);
  }

  lemma DeleteKeepsInv(y: System, o: Owner, x: Exchange, cfg: Config)
    requires Inv(y) && Enabled(y, DeleteRequest(o, x))
    ensures Inv(Next(y, DeleteRequest(o, x), cfg))
  {
    CleanupCallKeepsInv(y, o, x, cfg);
    var (a', reply) := Call(y.agent, CleanupOf(o, y.rows[o], y.nextRequest), x, cfg);
    var called := y.(agent := a', nextRequest := y.nextRequest + 1);
    RemoveRowKeepsInv(called, o);
    var y' := Next(y, DeleteRequest(o, x), cfg);
    assert y' == called || y' == called.(rows := called.rows - {o}, leases := ReleaseAll(called.leases, o));
  }

  /** Every old lease stays with its holder, and `o` gets exactly its cards, at its row's generation. */
  ghost predicate Granted(leases: LeaseTable, leases': LeaseTable, o: Owner, r': Row) {
    && (forall g <- leases :: g in leases' && leases'[g].owner == leases[g].owner && leases'[g].generation == leases[g].generation)
    && (forall g <- leases' :: g in leases || (g in GpuSet(r'.gpuIds) && leases'[g].owner == o && leases'[g].generation == r'.runtimeGeneration))
    && Owned(leases', o) == GpuSet(r'.gpuIds)
  }

  lemma ClaimedKeepsInv(y: System, o: Owner, r': Row, leases': LeaseTable, pc: Pc)
    requires Inv(y) && Snapshots(y.pc) == [] && o in y.rows && Startable(y.rows[o])
    requires r' == y.rows[o].(actual := Starting, queuedAt := None, runtimeGeneration := y.rows[o].stateVersion)
    requires Granted(y.leases, leases', o, r')
    requires pc.Calling? && pc.s == SnapshotOf(o, r') && pc.todo == []
    ensures Inv(y.(rows := y.rows[o := r'], leases := leases', pc := pc))
  {
    assert !ActiveRow(o, y.rows[o]);
    GrantKeepsMatching(y.rows, y.leases, o, r', leases');
    assert Snapshots(pc) == [pc.s];
  }

  /** A claim either takes the head with its whole group, or leaves every lease and changes at most the
      head's row, quietly. */
  lemma ClaimOutcome(rows: Rows, leases: LeaseTable, preflight: Preflight, now: int, ttl: nat, group: nat)
    requires LeasesMatchRows(rows, leases) && forall o <- rows :: rows[o].runtimeGeneration <= rows[o].stateVersion
    ensures var (rows', leases', result) := Claim(rows, leases, preflight, now, ttl, group);
            result.Claimed? ==>
              var o := HeadOf(rows);
              var r' := rows[o].(actual := Starting, queuedAt := None, runtimeGeneration := rows[o].stateVersion);
              && rows' == rows[o := r'] && result.snapshot == SnapshotOf(o, r') && Granted(leases, leases', o, r')
    ensures var (rows', leases', result) := Claim(rows, leases, preflight, now, ttl, group);
            !result.Claimed? ==> leases' == leases && (rows' == rows || QuietHead(rows, rows'))
  {
    if StartableOwners(rows) != {} {
      var o := HeadOf(rows);
      AcquireFrame(leases, o, rows[o].stateVersion, rows[o].gpuIds, now, ttl, group);
    }
  }

  ghost predicate QuietHead(rows: Rows, rows': Rows) {
    && StartableOwners(rows) != {}
    && var o := HeadOf(rows);
       var r := rows[o];
       rows' == rows[o := r.(runtimeGeneration := 0)]
       || (IsJob(o) && rows' == rows[o := r.(actual := Failed, queuedAt := None, runtimeGeneration := 0)])
  }

  lemma ClaimKeepsInv(y: System, e: Event, cfg: Config)
    requires Inv(y) && e.ClaimHead? && Enabled(y, e)
    ensures Inv(Next(y, e, cfg))
  {
    var (rows, leases, result) := Claim(y.rows, y.leases, e.preflight, e.now, cfg.ttl, e.group);
    ClaimOutcome(y.rows, y.leases, e.preflight, e.now, cfg.ttl, e.group);
    ClaimedOrQuiet(y, rows, leases, result, Next(y, e, cfg).pc);
  }

  lemma ClaimedOrQuiet(y: System, rows: Rows, leases: LeaseTable, result: ClaimResult, pc: Pc)
    requires Inv(y) && Snapshots(y.pc) == []
    requires result.Claimed? ==>
      && StartableOwners(y.rows) != {} && pc.Calling? && pc.s == result.snapshot && pc.todo == []
      && var o := HeadOf(y.rows);
         var r' := y.rows[o].(actual := Starting, queuedAt := None, runtimeGeneration := y.rows[o].stateVersion);
         rows == y.rows[o := r'] && result.snapshot == SnapshotOf(o, r') && Granted(y.leases, leases, o, r')
    requires !result.Claimed? ==> (pc == Idle || pc == Scheduling) && leases == y.leases && (rows == y.rows || QuietHead(y.rows, rows))
    ensures Inv(y.(rows := rows, leases := leases, pc := pc))
  {
    if result.Claimed? {
      var o := HeadOf(y.rows);
      ClaimedKeepsInv(y, o, rows[o], leases, pc);
    } else {
      if rows != y.rows {
        var o := HeadOf(y.rows);
        QuietChangeKeepsInv(y, o, rows[o]);
        assert rows == y.rows[o := rows[o]];
      }
      PcChangeKeepsInv(y.(rows := rows), pc);
    }
  }

  lemma GrantKeepsMatching(rows: Rows, leases: LeaseTable, o: Owner, r': Row, leases': LeaseTable)
    requires LeasesMatchRows(rows, leases) && o in rows && !ActiveRow(o, rows[o])
    requires ActiveRow(o, r') && r'.runtimeGeneration >= 1
    requires Granted(leases, leases', o, r')
    ensures LeasesMatchRows(rows[o := r'], leases')
  {
    forall g <- GpuSet(r'.gpuIds) ensures g in leases' && leases'[g].owner == o {
      assert g in Owned(leases', o);
    }
  }

  /** What is left after the answer in hand: fresh snapshots, none of the same owner. */
  lemma RestIsFresh(rows: Rows, s: Snapshot, todo: seq<Snapshot>, pc: Pc)
    requires SnapshotsFresh(rows, pc) && Snapshots(pc) == [s] + todo
    ensures Fresh(rows, s)
    ensures DistinctOwners(todo) && forall t <- todo :: Fresh(rows, t) && t.owner != s.owner
    ensures SnapshotsFresh(rows, Working(todo))
  {
    var held := Snapshots(pc);
    assert held[0] == s;
    assert forall i :: 0 <= i < |todo| ==> todo[i] == held[i + 1];
  }

  lemma ApplyEndKeepsInv(y: System, artifactsValid: bool, now: int, cfg: Config)
    requires Inv(y) && y.pc.Applying? && y.pc.reply.Answer? && EndReport(y.pc.reply.response.observed)
    ensures Inv(Applied(y, artifactsValid, now, cfg))
  {
    var s := y.pc.s;
    RestIsFresh(y.rows, s, y.pc.todo, y.pc);
    var y' := Applied(y, artifactsValid, now, cfg);
    EndingKeepsInv(y, s.owner, y'.rows[s.owner], s.generation, y'.pc);
  }

  lemma LiveObservationIsQuiet(
    rows: Rows, leases: LeaseTable, s: Snapshot, response: Response, artifactsValid: bool, now: int, ttl: nat)
    requires Fresh(rows, s) && !EndReport(response.observed)
    requires rows[s.owner].runtimeGeneration <= rows[s.owner].stateVersion && WellTyped(s.owner, rows[s.owner])
    ensures var (rows', leases') := Observe(rows, leases, s, response, artifactsValid, now, ttl);
            && s.owner in rows' && rows' == rows[s.owner := rows'[s.owner]]
            && QuietChange(s.owner, rows[s.owner], rows'[s.owner])
            && leases' == Heartbeat(leases, s.owner, s.generation, now, ttl)
  {
  }

  lemma LiveAnswerKeepsInv(y: System, r': Row, s: Snapshot, now: int, ttl: nat, pc: Pc)
    requires Inv(y) && y.pc.Applying? && s == y.pc.s && s.owner in y.rows && QuietChange(s.owner, y.rows[s.owner], r')
    requires pc == Scheduling || pc == Working(y.pc.todo) || pc == Calling(s, Stop, NoExecution, y.pc.todo)
    ensures Inv(y.(rows := y.rows[s.owner := r'], leases := Heartbeat(y.leases, s.owner, s.generation, now, ttl), pc := pc))
  {
    QuietChangeKeepsInv(y, s.owner, r');
    var quiet := y.(rows := y.rows[s.owner := r']);
    HeartbeatKeepsInv(quiet, s.owner, s.generation, now, ttl);
    RestIsFresh(quiet.rows, s, y.pc.todo, y.pc);
    if pc.Calling? {
      assert Snapshots(pc) == Snapshots(y.pc);
    }
    PcChangeKeepsInv(quiet.(leases := Heartbeat(y.leases, s.owner, s.generation, now, ttl)), pc);
  }

  lemma ApplyLiveKeepsInv(y: System, artifactsValid: bool, now: int, cfg: Config)
    requires Inv(y) && y.pc.Applying? && y.pc.reply.Answer? && !EndReport(y.pc.reply.response.observed)
    ensures Inv(Applied(y, artifactsValid, now, cfg))
  {
    var s := y.pc.s;
    RestIsFresh(y.rows, s, y.pc.todo, y.pc);
    var y' := Applied(y, artifactsValid, now, cfg);
    LiveObservationIsQuiet(y.rows, y.leases, s, y.pc.reply.response, artifactsValid, now, cfg.ttl);
    LiveAnswerKeepsInv(y, y'.rows[s.owner], s, now, cfg.ttl, y'.pc);
  }

  lemma ApplyKeepsInv(y: System, artifactsValid: bool, now: int, cfg: Config)
    requires Inv(y) && y.pc.Applying?
    ensures Inv(Applied(y, artifactsValid, now, cfg))
  {
    if y.pc.reply.NoAnswer? {
      RestIsFresh(y.rows, y.pc.s, y.pc.todo, y.pc);
      PcChangeKeepsInv(y, Applied(y, artifactsValid, now, cfg).pc);
    } else if EndReport(y.pc.reply.response.observed) {
      ApplyEndKeepsInv(y, artifactsValid, now, cfg);
    } else {
      ApplyLiveKeepsInv(y, artifactsValid, now, cfg);
    }
  }

  lemma RoundStepKeepsInv(y: System, e: Event, cfg: Config)
    requires Inv(y) && Enabled(y, e) && (e.NextWorkload? || e.FinishWorkloads? || e.AbortRound?)
    ensures Inv(Next(y, e, cfg))
  {
    var y' := Next(y, e, cfg);
    if e.NextWorkload? {
      assert Snapshots(y'.pc) == Snapshots(y.pc);
    } else if e.FinishWorkloads? {
      ReapFindsNothing(y.rows, y.leases, e.now);
    }
    PcChangeKeepsInv(y, y'.pc);
  }

  lemma CreateKeepsInv(y: System, o: Owner, gpuIds: seq<Gpu>, now: int, cfg: Config)
    requires Inv(y) && Enabled(y, CreateRequest(o, gpuIds, now))
    ensures Inv(Next(y, CreateRequest(o, gpuIds, now), cfg))
  {
    var y' := Next(y, CreateRequest(o, gpuIds, now), cfg);
    forall s <- Snapshots(y.pc) ensures Fresh(y'.rows, s) {
      assert Fresh(y.rows, s);
    }
    assert o !in y.agent.memory.generations;
    NewRowKeepsMatching(y.rows, y.leases, o, y'.rows[o]);
  }

  lemma NewRowKeepsMatching(rows: Rows, leases: LeaseTable, o: Owner, r': Row)
    requires LeasesMatchRows(rows, leases) && o !in rows && !ActiveRow(o, r')
    ensures LeasesMatchRows(rows[o := r'], leases)
  {
  }

  /** Whatever an API request does to a row, it keeps active rows active, at their generation and cards. */
  lemma RequestsAreQuiet(o: Owner, r: Row, gpuIds: seq<Gpu>, now: int)
    requires WellTyped(o, r) && r.runtimeGeneration <= r.stateVersion
    ensures o.kind == Deployment && r.actual != Stopping ==> QuietChange(o, r, StartedDeployment(r, now))
    ensures o.kind == Deployment ==> QuietChange(o, r, StoppedDeployment(r)) && QuietChange(o, r, UpdatedDeployment(o, r, gpuIds))
    ensures IsJob(o) ==> QuietChange(o, r, TerminatedTraining(o, r)) && QuietChange(o, r, CanceledEvaluation(o, r))
  {
  }

  lemma RowRequestKeepsInv(y: System, e: Event, cfg: Config)
    requires Inv(y) && Enabled(y, e) && Assumed(y, e, cfg)
    requires e.StartRequest? || e.StopRequest? || e.UpdateRequest? || e.TerminateRequest? || e.CancelRequest?
    ensures Inv(Next(y, e, cfg))
  {
    var (o, r) := (e.owner, y.rows[e.owner]);
    RequestsAreQuiet(o, r, if e.UpdateRequest? then e.gpuIds else [], if e.StartRequest? then e.now else 0);
    QuietChangeKeepsInv(y, o, Next(y, e, cfg).rows[o]);
  }

  lemma AgentAloneKeepsInv(y: System, e: Event, cfg: Config)
    requires Inv(y) && Enabled(y, e) && (e.AgentRestart? || e.AgentDrift?)
    ensures Inv(Next(y, e, cfg))
  {
    if e.AgentRestart? {
      AgentRuns.ReloadIsIdentity(y.agent.disk);
    } else {
      AgentRuns.StepKeepsInv(y.agent, AgentRuns.Drift(e.owner, e.vitals), Next(y, e, cfg).agent, cfg.settings);
    }
  }

  lemma StepKeepsInv(y: System, e: Event, cfg: Config)
    requires Inv(y) && Enabled(y, e) && Assumed(y, e, cfg)
    ensures Inv(Next(y, e, cfg))
  {
    match e
    case BeginRound(order) => BeginRoundKeepsInv(y, order, cfg);
    case NextWorkload => RoundStepKeepsInv(y, e, cfg);
    case FinishWorkloads(_) => RoundStepKeepsInv(y, e, cfg);
    case AbortRound => RoundStepKeepsInv(y, e, cfg);
    case Rpc(x) => RpcKeepsInv(y, x, cfg);
    case ApplyReply(valid, now) => ApplyKeepsInv(y, valid, now, cfg);
    case ClaimHead(_, _, _, _) => ClaimKeepsInv(y, e, cfg);
    case CreateRequest(o, gpuIds, now) => CreateKeepsInv(y, o, gpuIds, now, cfg);
    case DeleteRequest(o, x) => DeleteKeepsInv(y, o, x, cfg);
    case AgentRestart => AgentAloneKeepsInv(y, e, cfg);
    case AgentDrift(_, _) => AgentAloneKeepsInv(y, e, cfg);
    case _ => RowRequestKeepsInv(y, e, cfg);
  }

  ghost predicate AssumedRun(states: seq<System>, events: seq<Event>, cfg: Config) {
    && AllocationSystem.Run(states, events, cfg)
    && forall i {:trigger events[i]} :: 0 <= i < |events| ==> Assumed(states[i], events[i], cfg)
  }

  lemma {:induction false} InvAlongRun(states: seq<System>, events: seq<Event>, cfg: Config, n: nat)
    requires AssumedRun(states, events, cfg) && n < |states|
    ensures Inv(states[n])
  {
    if n > 0 {
      InvAlongRun(states, events, cfg, n - 1);
      StepKeepsInv(states[n - 1], events[n - 1], cfg);
    }
  }

  // ---- Results over runs ----

  /** In every reachable state every active container holds exactly the cards leased to its owner at
      its generation; so the card of a lease is used by no other owner's container. */
  lemma LeasesCoverContainersOverRuns(states: seq<System>, events: seq<Event>, cfg: Config, n: nat, o: Owner)
    requires AssumedRun(states, events, cfg) && n < |states|
    ensures Covered(states[n].leases, states[n].agent.containers, o)
    ensures Runner.Exclusive(states[n].agent.containers)
  {
    InvAlongRun(states, events, cfg, n);
    InvCovers(states[n], o);
  }

  /** No step gives back a card that an active container is on: not an end report, a refused START, a
      reap, a delete or anything else. */
  lemma NoStepFreesAnOccupiedCard(states: seq<System>, events: seq<Event>, cfg: Config, n: nat, g: Gpu, o: Owner)
    requires AssumedRun(states, events, cfg) && n < |events|
    requires g in states[n].leases && g !in states[n + 1].leases
    ensures !(Runner.ActiveFor(states[n + 1].agent.containers, o) && g in states[n + 1].agent.containers[o].gpus)
  {
    LeasesCoverContainersOverRuns(states, events, cfg, n + 1, o);
    assert g !in Owned(states[n + 1].leases, o);
  }

  /** Every call the control plane makes is current: the agent never refuses one as stale or as a
      reused request id, and any answer read as an end is true. */
  lemma ControlCallsAreCurrent(states: seq<System>, events: seq<Event>, cfg: Config, n: nat)
    requires AssumedRun(states, events, cfg) && n < |states|
    requires states[n].pc.Applying? && states[n].pc.reply.Answer?
    ensures var response := states[n].pc.reply.response;
            && response.error != StaleGeneration && response.error != RequestIdReused
            && (EndReport(response.observed) ==> !Runner.ActiveFor(states[n].agent.containers, states[n].pc.s.owner))
            && Current(states[n].rows, states[n].pc.s)
  {
    InvAlongRun(states, events, cfg, n);
    assert Snapshots(states[n].pc)[0] == states[n].pc.s;
    assert Fresh(states[n].rows, states[n].pc.s);
  }

  /** Leases exist exactly for the rows that are starting, running or being stopped, so terminal rows
      never hold a card and the reaper never has anything to take. */
  lemma LeasesFollowActiveRows(states: seq<System>, events: seq<Event>, cfg: Config, n: nat, o: Owner, now: int)
    requires AssumedRun(states, events, cfg) && n < |states|
    ensures Owned(states[n].leases, o) ==
              if o in states[n].rows && ActiveRow(o, states[n].rows[o]) then GpuSet(states[n].rows[o].gpuIds) else {}
    ensures ReapTerminal(states[n].rows, states[n].leases, now) == states[n].leases
  {
    InvAlongRun(states, events, cfg, n);
    ReapFindsNothing(states[n].rows, states[n].leases, now);
  }
}
