/** One FIFO queue across all workload types, without preemption, over whole runs. */
module FifoOrder {
  import opened Contract
  import opened GpuScheduler
  import opened Reconciler
  import opened AllocationSystem
  import opened WitnessRuns
  import opened CommandService
  import Runner = DockerRunner
  import LeaseCoverage

  ghost predicate HoldsRequested(rows: Rows, leases: LeaseTable, holder: Owner) {
    && StartableOwners(rows) != {}
    && exists g <- GpuSet(rows[HeadOf(rows)].gpuIds) :: g in leases && leases[g].owner == holder
  }

  /** A claim changes no row but the head's, no lease of anyone else, and nothing but the head's internal
      generation field when it is blocked; a claim that is blocked names a holder of a requested card. */
  lemma ClaimTouchesOnlyTheHead(
    rows: Rows, leases: LeaseTable, preflight: Preflight, now: int, ttl: nat, group: nat, o: Owner)
    ensures var (rows', leases', result) := Claim(rows, leases, preflight, now, ttl, group);
            && rows'.Keys == rows.Keys
            && (o in rows && rows'[o] != rows[o] ==> StartableOwners(rows) != {} && o == HeadOf(rows))
            && (StartableOwners(rows) == {} || o != HeadOf(rows) ==>
                  Owned(leases', o) == Owned(leases, o) && forall g <- Owned(leases, o) :: leases'[g] == leases[g])
            && (!result.Claimed? ==> leases' == leases)
            && (result.ClaimBlocked? ==> SameQueue(rows, rows') && HoldsRequested(rows, leases, result.holder))
  {
    if StartableOwners(rows) != {} {
      var head := HeadOf(rows);
      AcquireFrame(leases, head, rows[head].stateVersion, rows[head].gpuIds, now, ttl, group);
      var gpus := GpuSet(rows[head].gpuIds);
      if gpus * leases.Keys != {} {
        assert LeastOf(gpus * leases.Keys) in gpus && LeastOf(gpus * leases.Keys) in leases;
      }
    }
  }

  ghost predicate Waiting(y: System, o: Owner) {
    o in y.rows && Startable(y.rows[o])
  }

  ghost predicate WaitingFrom(states: seq<System>, i: nat, j: nat, o: Owner)
    requires i <= j < |states|
  {
    Waiting(states[i], o) && Waiting(states[j], o) && forall k :: i <= k <= j ==> Waiting(states[k], o)
  }

  ghost predicate ClaimedAt(y: System, e: Event, o: Owner, cfg: Config)
    requires Enabled(y, e)
  {
    e.ClaimHead? && Waiting(y, o) && !Waiting(Next(y, e, cfg), o)
  }

  // ---- Who keeps a place ----

  /** The one thing that moves a waiting row: an accepted ABSENT for its current generation is applied to it. */
  ghost predicate Requeues(y: System, e: Event, o: Owner)
    requires Enabled(y, e)
  {
    && e.ApplyReply? && y.pc.s.owner == o && Current(y.rows, y.pc.s)
    && y.pc.reply.Answer? && y.pc.reply.response.accepted && y.pc.reply.response.observed == ObservedAbsent
  }

  ghost function PlaceAfter(y: System, e: Event, o: Owner, key: QueueKey): QueueKey
    requires Enabled(y, e)
  {
    if Requeues(y, e, o) then key.(at := e.now) else key
  }

  lemma ClaimingKeepsPlaces(rows: Rows, leases: LeaseTable, preflight: Preflight, now: int, ttl: nat, group: nat, o: Owner)
    requires o in rows
    ensures var rows' := Claim(rows, leases, preflight, now, ttl, group).0;
            o in rows' && (Startable(rows'[o]) ==> KeyOf(o, rows'[o]) == KeyOf(o, rows[o]))
  {
  }

  lemma ObservingMovesOrKeeps(y: System, valid: bool, now: int, cfg: Config, o: Owner)
    requires y.pc.Applying? && Waiting(y, o) && Waiting(Applied(y, valid, now, cfg), o)
    ensures KeyOf(o, Applied(y, valid, now, cfg).rows[o]) == PlaceAfter(y, ApplyReply(valid, now), o, KeyOf(o, y.rows[o]))
  {
  }

  /** From one state of waiting to the next a row keeps its place, unless it is requeued: then it stands
      at the time of that step.  No owner is created twice, which is all this needs. */
  lemma PlaceAfterAStep(y: System, e: Event, cfg: Config, o: Owner)
    requires y.rows.Keys <= y.used && Enabled(y, e) && Waiting(y, o) && Waiting(Next(y, e, cfg), o)
    ensures KeyOf(o, Next(y, e, cfg).rows[o]) == PlaceAfter(y, e, o, KeyOf(o, y.rows[o]))
  {
    match e
    case ApplyReply(valid, now) => ObservingMovesOrKeeps(y, valid, now, cfg, o);
    case ClaimHead(preflight, _, now, group) => ClaimingKeepsPlaces(y.rows, y.leases, preflight, now, cfg.ttl, group, o);
    case CreateRequest(p, _, _) =>
      assert o in y.used && o != p;
    case _ =>
  }

  /** A waiting row changes its place at a step exactly when an accepted ABSENT is applied to it, at any
      time other than the one it stands at. */
  lemma PlaceChangesExactlyByRequeueing(y: System, e: Event, cfg: Config, o: Owner)
    requires y.rows.Keys <= y.used && Enabled(y, e) && Waiting(y, o) && Waiting(Next(y, e, cfg), o)
    ensures KeyOf(o, Next(y, e, cfg).rows[o]) != KeyOf(o, y.rows[o])
            <==> Requeues(y, e, o) && e.now != KeyOf(o, y.rows[o]).at
  {
    PlaceAfterAStep(y, e, cfg, o);
  }

  lemma {:induction false} NamesStayUsed(states: seq<System>, events: seq<Event>, cfg: Config, n: nat)
    requires AllocationSystem.Run(states, events, cfg) && n < |states|
    ensures states[n].rows.Keys <= states[n].used
  {
    if n > 0 {
      NamesStayUsed(states, events, cfg, n - 1);
      NamesStayUsedAtAStep(states[n - 1], events[n - 1], cfg);
    }
  }

  lemma NamesStayUsedAtAStep(y: System, e: Event, cfg: Config)
    requires y.rows.Keys <= y.used && Enabled(y, e)
    ensures Next(y, e, cfg).rows.Keys <= Next(y, e, cfg).used
  {
    if e.ClaimHead? {
      var rows := Claim(y.rows, y.leases, e.preflight, e.now, cfg.ttl, e.group).0;
      assert rows.Keys == y.rows.Keys by {
        forall o ensures o in rows <==> o in y.rows {
          ClaimTouchesOnlyTheHead(y.rows, y.leases, e.preflight, e.now, cfg.ttl, e.group, o);
        }
      }
    } else if e.ApplyReply? {
      assert Applied(y, e.artifactsValid, e.now, cfg).rows.Keys <= y.rows.Keys + {y.pc.s.owner};
    }
  }

  // ---- The order of claims, over every run ----

  /** The place a row has at `j`, from its place at `i` and the times it was requeued in between. */
  ghost function PlaceAt(states: seq<System>, events: seq<Event>, cfg: Config, i: nat, j: nat, o: Owner): QueueKey
    requires AllocationSystem.Run(states, events, cfg) && i <= j < |states| && o in states[i].rows
    decreases j
  {
    if i == j then KeyOf(o, states[i].rows[o])
    else PlaceAfter(states[j - 1], events[j - 1], o, PlaceAt(states, events, cfg, i, j - 1, o))
  }

  lemma {:induction false} PlaceAlong(states: seq<System>, events: seq<Event>, cfg: Config, i: nat, j: nat, o: Owner)
    requires AllocationSystem.Run(states, events, cfg) && i <= j < |states| && WaitingFrom(states, i, j, o)
    ensures KeyOf(o, states[j].rows[o]) == PlaceAt(states, events, cfg, i, j, o)
    decreases j
  {
    if i < j {
      assert Waiting(states[j - 1], o);
      PlaceAlong(states, events, cfg, i, j - 1, o);
      NamesStayUsed(states, events, cfg, j - 1);
      PlaceAfterAStep(states[j - 1], events[j - 1], cfg, o);
    }
  }

  lemma ClaimTakesTheFirst(y: System, e: Event, cfg: Config, a: Owner, b: Owner)
    requires Enabled(y, e) && ClaimedAt(y, e, a, cfg) && Waiting(y, b) && a != b
    ensures Before(KeyOf(a, y.rows[a]), KeyOf(b, y.rows[b]))
  {
    ClaimTouchesOnlyTheHead(y.rows, y.leases, e.preflight, e.now, cfg.ttl, e.group, a);
    assert a == HeadOf(y.rows);
    assert b in StartableOwners(y.rows);
  }

  /** In every run, whatever requests arrive: of two workloads of any types that wait from `i` to `j`, the
      one claimed at `j` is the first by the places of `i` and the requeueing in between, and by nothing else. */
  lemma ClaimsFollowThePlaces(
    states: seq<System>, events: seq<Event>, cfg: Config, i: nat, j: nat, a: Owner, b: Owner)
    requires AllocationSystem.Run(states, events, cfg) && i <= j < |events| && a != b
    requires WaitingFrom(states, i, j, a) && WaitingFrom(states, i, j, b)
    requires ClaimedAt(states[j], events[j], a, cfg)
    ensures Before(PlaceAt(states, events, cfg, i, j, a), PlaceAt(states, events, cfg, i, j, b))
  {
    PlaceAlong(states, events, cfg, i, j, a);
    PlaceAlong(states, events, cfg, i, j, b);
    ClaimTakesTheFirst(states[j], events[j], cfg, a, b);
  }

  ghost predicate RequeuedAt(states: seq<System>, events: seq<Event>, cfg: Config, k: nat, o: Owner)
    requires AllocationSystem.Run(states, events, cfg) && k < |events|
  {
    Requeues(states[k], events[k], o)
  }

  ghost predicate KeepsPlace(states: seq<System>, events: seq<Event>, cfg: Config, i: nat, j: nat, o: Owner)
    requires AllocationSystem.Run(states, events, cfg) && i <= j < |states|
  {
    forall k: nat :: i <= k < j ==> !RequeuedAt(states, events, cfg, k, o)
  }

  lemma {:induction false} UnmovedPlace(states: seq<System>, events: seq<Event>, cfg: Config, i: nat, j: nat, o: Owner)
    requires AllocationSystem.Run(states, events, cfg) && i <= j < |states| && o in states[i].rows
    requires KeepsPlace(states, events, cfg, i, j, o)
    ensures PlaceAt(states, events, cfg, i, j, o) == KeyOf(o, states[i].rows[o])
    decreases j
  {
    if i < j {
      UnmovedPlace(states, events, cfg, i, j - 1, o);
      assert !RequeuedAt(states, events, cfg, j - 1, o);
    }
  }

  /** While two workloads of any types both wait and neither is requeued, the one that is later in
      (queue time, type, id) order is never claimed first. */
  lemma ClaimsFollowTheQueue(
    states: seq<System>, events: seq<Event>, cfg: Config, i: nat, j: nat, a: Owner, b: Owner)
    requires AllocationSystem.Run(states, events, cfg) && i <= j < |events| && a != b
    requires WaitingFrom(states, i, j, a) && WaitingFrom(states, i, j, b)
    requires KeepsPlace(states, events, cfg, i, j, a) && KeepsPlace(states, events, cfg, i, j, b)
    requires ClaimedAt(states[j], events[j], a, cfg)
    ensures Before(KeyOf(a, states[i].rows[a]), KeyOf(b, states[i].rows[b]))
  {
    ClaimsFollowThePlaces(states, events, cfg, i, j, a, b);
    UnmovedPlace(states, events, cfg, i, j, a);
    UnmovedPlace(states, events, cfg, i, j, b);
  }

  // ---- When nothing is requeued: no `/start` while stopping ----

  ghost predicate StartsSettled(y: System, e: Event)
    requires Enabled(y, e)
  {
    e.StartRequest? ==> y.rows[e.owner].actual != Stopping
  }

  ghost predicate SettledRun(states: seq<System>, events: seq<Event>, cfg: Config) {
    && AllocationSystem.Run(states, events, cfg)
    && forall i {:trigger events[i]} :: 0 <= i < |events| ==> StartsSettled(states[i], events[i])
  }

  ghost predicate AllActive(rows: Rows, held: seq<Snapshot>) {
    forall s <- held :: s.owner in rows && ActiveRow(s.owner, rows[s.owner])
  }

  /** What the reconciler holds a snapshot of is active, so it is not waiting. */
  ghost predicate HeldAreActive(y: System) {
    && y.rows.Keys <= y.used && (forall o <- y.rows :: LeaseCoverage.WellTyped(o, y.rows[o]))
    && DistinctOwners(Snapshots(y.pc)) && AllActive(y.rows, Snapshots(y.pc))
  }

  lemma RestIsActive(rows: Rows, s: Snapshot, todo: seq<Snapshot>)
    requires DistinctOwners([s] + todo) && AllActive(rows, [s] + todo)
    ensures s.owner in rows && ActiveRow(s.owner, rows[s.owner])
    ensures DistinctOwners(todo) && AllActive(rows, todo) && forall t <- todo :: t.owner != s.owner
  {
    var held := [s] + todo;
    assert held[0] == s;
    assert forall i :: 0 <= i < |todo| ==> todo[i] == held[i + 1];
  }

  lemma AppliedRows(y: System, valid: bool, now: int, cfg: Config)
    requires y.pc.Applying? && y.pc.s.owner in y.rows && ActiveRow(y.pc.s.owner, y.rows[y.pc.s.owner])
    requires LeaseCoverage.WellTyped(y.pc.s.owner, y.rows[y.pc.s.owner])
    ensures var (y', o) := (Applied(y, valid, now, cfg), y.pc.s.owner);
            && o in y'.rows && y'.rows == y.rows[o := y'.rows[o]] && y'.used == y.used
            && LeaseCoverage.WellTyped(o, y'.rows[o]) && (y'.pc.Calling? ==> ActiveRow(o, y'.rows[o]))
  {
  }

  lemma ApplyKeepsHeldActive(y: System, valid: bool, now: int, cfg: Config)
    requires HeldAreActive(y) && y.pc.Applying?
    ensures HeldAreActive(Applied(y, valid, now, cfg))
  {
    RestIsActive(y.rows, y.pc.s, y.pc.todo);
    AppliedRows(y, valid, now, cfg);
    var y' := Applied(y, valid, now, cfg);
    if y'.pc.Calling? {
      assert Snapshots(y'.pc) == Snapshots(y.pc);
    }
  }

  lemma RoundKeepsHeldActive(y: System, e: Event, cfg: Config)
    requires HeldAreActive(y) && Enabled(y, e)
    requires e.BeginRound? || e.NextWorkload? || e.FinishWorkloads? || e.Rpc? || e.AbortRound?
    ensures HeldAreActive(Next(y, e, cfg))
  {
    var y' := Next(y, e, cfg);
    if e.BeginRound? {
      forall i | 0 <= i < |e.order| ensures y'.pc.todo[i].owner == e.order[i] && e.order[i] in y.rows && ActiveRow(e.order[i], y.rows[e.order[i]]) {
        assert e.order[i] in e.order;
      }
    } else if e.NextWorkload? || e.Rpc? {
      assert Snapshots(y'.pc) == Snapshots(y.pc);
    }
  }

  lemma ClaimKeepsHeldActive(y: System, e: Event, cfg: Config)
    requires HeldAreActive(y) && Enabled(y, e) && e.ClaimHead?
    ensures HeldAreActive(Next(y, e, cfg))
  {
    NamesStayUsedAtAStep(y, e, cfg);
    var y' := Next(y, e, cfg);
    forall o <- y'.rows ensures LeaseCoverage.WellTyped(o, y'.rows[o]) {
      ClaimTouchesOnlyTheHead(y.rows, y.leases, e.preflight, e.now, cfg.ttl, e.group, o);
    }
    if y'.pc.Calling? {
      assert Snapshots(y'.pc) == [y'.pc.s];
    }
  }

  lemma RowRequestKeepsHeldActive(y: System, e: Event, cfg: Config)
    requires HeldAreActive(y) && Enabled(y, e) && StartsSettled(y, e)
    requires e.StartRequest? || e.StopRequest? || e.UpdateRequest? || e.TerminateRequest? || e.CancelRequest?
    ensures HeldAreActive(Next(y, e, cfg))
  {
    var r' := Next(y, e, cfg).rows[e.owner];
    assert Next(y, e, cfg) == y.(rows := y.rows[e.owner := r']);
    assert LeaseCoverage.WellTyped(e.owner, r') && (ActiveRow(e.owner, y.rows[e.owner]) ==> ActiveRow(e.owner, r'));
  }

  /** Requests and changes at the agent leave the reconciler where it is. */
  lemma RequestKeepsHeldActive(y: System, e: Event, cfg: Config)
    requires HeldAreActive(y) && Enabled(y, e) && StartsSettled(y, e)
    requires !(e.BeginRound? || e.NextWorkload? || e.FinishWorkloads? || e.Rpc? || e.AbortRound? || e.ApplyReply? || e.ClaimHead?)
    ensures HeldAreActive(Next(y, e, cfg))
  {
    match e
    case CreateRequest(_, _, _) =>
    case DeleteRequest(_, _) =>
    case AgentRestart =>
    case AgentDrift(_, _) =>
    case _ => RowRequestKeepsHeldActive(y, e, cfg);
  }

  lemma StepKeepsHeldActive(y: System, e: Event, cfg: Config)
    requires HeldAreActive(y) && Enabled(y, e) && StartsSettled(y, e)
    ensures HeldAreActive(Next(y, e, cfg))
  {
    match e
    case BeginRound(_) => RoundKeepsHeldActive(y, e, cfg);
    case NextWorkload => RoundKeepsHeldActive(y, e, cfg);
    case FinishWorkloads(_) => RoundKeepsHeldActive(y, e, cfg);
    case Rpc(_) => RoundKeepsHeldActive(y, e, cfg);
    case AbortRound => RoundKeepsHeldActive(y, e, cfg);
    case ApplyReply(valid, now) => ApplyKeepsHeldActive(y, valid, now, cfg);
    case ClaimHead(_, _, _, _) => ClaimKeepsHeldActive(y, e, cfg);
    case _ => RequestKeepsHeldActive(y, e, cfg);
  }

  lemma {:induction false} HeldAreActiveAlongRun(states: seq<System>, events: seq<Event>, cfg: Config, n: nat)
    requires SettledRun(states, events, cfg) && n < |states|
    ensures HeldAreActive(states[n])
  {
    if n > 0 {
      HeldAreActiveAlongRun(states, events, cfg, n - 1);
      StepKeepsHeldActive(states[n - 1], events[n - 1], cfg);
    }
  }

  /** Without a `/start` while stopping, no row is requeued while it waits. */
  lemma WaitingRowsKeepTheirPlace(states: seq<System>, events: seq<Event>, cfg: Config, i: nat, j: nat, o: Owner)
    requires SettledRun(states, events, cfg) && i <= j < |states| && WaitingFrom(states, i, j, o)
    ensures KeepsPlace(states, events, cfg, i, j, o)
    ensures KeyOf(o, states[j].rows[o]) == KeyOf(o, states[i].rows[o])
  {
    forall k: nat | i <= k < j ensures !RequeuedAt(states, events, cfg, k, o) {
      HeldAreActiveAlongRun(states, events, cfg, k);
      assert Waiting(states[k], o);
      if events[k].ApplyReply? {
        RestIsActive(states[k].rows, states[k].pc.s, states[k].pc.todo);
      }
    }
    PlaceAlong(states, events, cfg, i, j, o);
    UnmovedPlace(states, events, cfg, i, j, o);
  }

  /** So the queue is first-in first-out over every run in which no `/start` reaches a stopping deployment. */
  lemma SettledClaimsFollowTheQueue(
    states: seq<System>, events: seq<Event>, cfg: Config, i: nat, j: nat, a: Owner, b: Owner)
    requires SettledRun(states, events, cfg) && i <= j < |events| && a != b
    requires WaitingFrom(states, i, j, a) && WaitingFrom(states, i, j, b)
    requires ClaimedAt(states[j], events[j], a, cfg)
    ensures Before(KeyOf(a, states[i].rows[a]), KeyOf(b, states[i].rows[b]))
  {
    WaitingRowsKeepTheirPlace(states, events, cfg, i, j, a);
    WaitingRowsKeepTheirPlace(states, events, cfg, i, j, b);
    ClaimsFollowTheQueue(states, events, cfg, i, j, a, b);
  }

  // ---- A `/start` while stopping does lose the place ----

  ghost function StartThenApply(y: System, o: Owner, requestedAt: int, now: int, cfg: Config): (System, System)
    requires y.pc.Applying? && o in y.rows && o.kind == Deployment
  {
    var started := Next(y, StartRequest(o, requestedAt), cfg);
    (started, Next(started, ApplyReply(false, now), cfg))
  }

  /** While the answer ABSENT to a deployment's STOP is still to be applied, `/start` puts the row into the
      queue exactly when it is stopping, and then the answer moves it from its request to the later time. */
  lemma StartWhileStoppingLosesThePlace(y: System, o: Owner, requestedAt: int, now: int, cfg: Config)
    requires HeldAreActive(y) && y.pc.Applying? && y.pc.s.owner == o && o.kind == Deployment && Current(y.rows, y.pc.s)
    requires y.pc.reply.Answer? && y.pc.reply.response.accepted && y.pc.reply.response.observed == ObservedAbsent
    ensures o in y.rows
    ensures var (started, applied) := StartThenApply(y, o, requestedAt, now, cfg);
            && (Waiting(started, o) <==> y.rows[o].actual == Stopping)
            && (Waiting(started, o) ==> Waiting(applied, o) && KeyOf(o, started.rows[o]).at == requestedAt
                                                            && KeyOf(o, applied.rows[o]).at == now)
  {
    RestIsActive(y.rows, y.pc.s, y.pc.todo);
  }

  const FIRST := Owner(Deployment, 0)
  const SECOND := Owner(Deployment, 1)

  const ABSENT := Response(0, true, ObservedAbsent, NoError)

  /** Both deployments wait, the first since 5 and the second since 6; the answer to the first one's STOP
      is still to be applied. */
  ghost predicate BothWait(y: System, cfg: Config) {
    && Reachable(y, cfg)
    && y.pc.Applying? && y.pc.s == FirstSnapshot(FIRST).(desired := WantStopped) && y.pc.action == Stop && y.pc.todo == []
    && y.pc.reply.Answer? && y.pc.reply.response.(requestId := 0) == ABSENT
    && y.rows == map[FIRST := Row(WantRunning, Queued, [CARD], Some(5), 0, 3, 1), SECOND := NewRow([Gpu(1)], 6)]
    && y.leases == map[CARD := LeaseOf(FIRST, cfg)]
  }

  lemma StopSucceeds(a: Agent, c: Command, cfg: Config)
    requires a.containers == map[FIRST := Runner.Container(1, {CARD}, UP)]
    requires Watermark(a.memory, FIRST) <= 1 && c.requestId !in a.memory.requests
    requires c.owner == FIRST && c.generation == 1 && c.action == Stop && c.execution == NoExecution
    ensures var reply := Call(a, c, DELIVERED, cfg).1;
            reply.Answer? && reply.response.(requestId := 0) == ABSENT
  {
    assert Dispatch(a.containers, c, SMOOTH, cfg.settings).1 == Runner.Value(ObservedAbsent);
  }

  lemma StopIsAnswered(cfg: Config) returns (y: System)
    requires cfg.settings.gpuCount >= 1
    ensures Reachable(y, cfg) && y.used == {FIRST} && y.leases == map[CARD := LeaseOf(FIRST, cfg)]
    ensures y.rows == map[FIRST := Row(WantStopped, Stopping, [CARD], None, 0, 2, 1)]
    ensures y.pc.Applying? && y.pc.s == FirstSnapshot(FIRST).(desired := WantStopped) && y.pc.action == Stop && y.pc.todo == []
    ensures y.pc.reply.Answer? && y.pc.reply.response.(requestId := 0) == ABSENT
  {
    StopIsReachable(FIRST, cfg);
    var calling :| IsCalled(calling, FIRST, WantStopped, Stopping, 2, cfg);
    CallIsCurrent(calling, cfg);
    StopSucceeds(calling.agent, CommandOf(calling.pc.s, Stop, NoExecution, calling.nextRequest), cfg);
    Reach(calling, Rpc(DELIVERED), cfg);
    y := Next(calling, Rpc(DELIVERED), cfg);
  }

  lemma CallIsCurrent(y: System, cfg: Config)
    requires IsCalled(y, FIRST, WantStopped, Stopping, 2, cfg)
    ensures Reachable(y, cfg) && Watermark(y.agent.memory, FIRST) <= 1 && y.nextRequest !in y.agent.memory.requests
  {
    AssumedIsReachable(y, cfg);
    assert LeaseCoverage.RowsWellFormed(y.rows, y.agent.memory);
  }

  lemma BothWaitIsReachable(cfg: Config)
    requires cfg.settings.gpuCount >= 1
    ensures exists y :: BothWait(y, cfg)
  {
    var y := StopIsAnswered(cfg);
    Reach(y, StartRequest(FIRST, 5), cfg);
    var started := Next(y, StartRequest(FIRST, 5), cfg);
    assert [Gpu(1)][0] == Gpu(1);
    Reach(started, CreateRequest(SECOND, [Gpu(1)], 6), cfg);
    assert BothWait(Next(started, CreateRequest(SECOND, [Gpu(1)], 6), cfg), cfg);
  }

  ghost predicate ClaimedOutOfOrder(states: seq<System>, events: seq<Event>, cfg: Config, i: nat, j: nat, a: Owner, b: Owner) {
    && AllocationSystem.Run(states, events, cfg) && i <= j < |events| && a != b
    && WaitingFrom(states, i, j, a) && WaitingFrom(states, i, j, b) && ClaimedAt(states[j], events[j], a, cfg)
    && Before(KeyOf(b, states[i].rows[b]), KeyOf(a, states[i].rows[a]))
  }

  /** The three last steps: ABSENT is applied at 10, the round goes on to the queue, and the second
      deployment is claimed. */
  lemma LastSteps(y: System, cfg: Config) returns (applied: System, scheduling: System)
    requires BothWait(y, cfg)
    ensures applied == Next(y, ApplyReply(false, 10), cfg) && applied.pc == Working([])
    ensures scheduling == Next(applied, FinishWorkloads(10), cfg) && scheduling.pc == Scheduling
    ensures Waiting(applied, FIRST) && Waiting(applied, SECOND) && Waiting(scheduling, FIRST) && Waiting(scheduling, SECOND)
    ensures ClaimedAt(scheduling, ClaimHead(Ready, LaunchOf(SECOND), 11, 1), SECOND, cfg)
  {
    applied := Next(y, ApplyReply(false, 10), cfg);
    assert applied.leases == map[];
    assert applied.pc == Working([]);
    scheduling := Next(applied, FinishWorkloads(10), cfg);
    assert scheduling.leases == map[];
    SecondIsClaimed(scheduling, cfg);
  }

  lemma SecondIsClaimed(y: System, cfg: Config)
    requires y.pc == Scheduling && y.leases == map[]
    requires y.rows == map[FIRST := Row(WantRunning, Queued, [CARD], Some(10), 0, 3, 0), SECOND := NewRow([Gpu(1)], 6)]
    ensures Waiting(y, SECOND) && ClaimedAt(y, ClaimHead(Ready, LaunchOf(SECOND), 11, 1), SECOND, cfg)
  {
    assert SECOND in StartableOwners(y.rows) && FIRST in StartableOwners(y.rows);
    assert HeadOf(y.rows) == SECOND;
    assert [Gpu(1)][0] == Gpu(1);
    assert Owned(y.leases, SECOND) == {};
  }

  ghost predicate BothWaiting(y: System, a: Owner, b: Owner) {
    Waiting(y, a) && Waiting(y, b)
  }

  /** The last step of a run is a claim of `a`, and both have waited since two steps before. */
  lemma EndsOutOfOrder(
    states: seq<System>, events: seq<Event>, cfg: Config, i: nat, y: System, y1: System, y2: System, claim: Event, a: Owner, b: Owner)
    requires AllocationSystem.Run(states, events, cfg) && i + 3 == |events| && a != b
    requires states[i] == y && states[i + 1] == y1 && states[i + 2] == y2 && events[i + 2] == claim
    requires BothWaiting(y, a, b) && BothWaiting(y1, a, b) && BothWaiting(y2, a, b)
    requires Enabled(y2, claim) && ClaimedAt(y2, claim, a, cfg) && Before(KeyOf(b, y.rows[b]), KeyOf(a, y.rows[a]))
    ensures ClaimedOutOfOrder(states, events, cfg, i, i + 2, a, b)
  {
    forall k | i <= k <= i + 2 ensures BothWaiting(states[k], a, b) {
      assert k == i || k == i + 1 || k == i + 2;
    }
    assert forall k :: i <= k <= i + 2 ==> BothWaiting(states[k], a, b);
  }

  lemma ThreeMoreSteps(
    states: seq<System>, events: seq<Event>, d: Event, e: Event, claim: Event, y: System, y1: System, y2: System, cfg: Config)
    returns (longer: seq<System>, more: seq<Event>)
    requires AllocationSystem.Run(states, events, cfg) && Ends(states, y)
    requires Enabled(y, d) && y1 == Next(y, d, cfg) && Enabled(y1, e) && y2 == Next(y1, e, cfg) && Enabled(y2, claim)
    ensures AllocationSystem.Run(longer, more, cfg) && |more| == |events| + 3 && more[|events| + 2] == claim
    ensures longer[|events|] == y && longer[|events| + 1] == y1 && longer[|events| + 2] == y2
  {
    ExtendRun(states, events, d, cfg);
    longer, more := states + [y1], events + [d];
    ExtendRun(longer, more, e, cfg);
    longer, more := longer + [y2], more + [e];
    ExtendRun(longer, more, claim, cfg);
    longer, more := longer + [Next(y2, claim, cfg)], more + [claim];
  }

  ghost predicate EndsInDisorder(cfg: Config, a: Owner, b: Owner) {
    exists states, events, i, j :: ClaimedOutOfOrder(states, events, cfg, i, j, a, b)
  }

  lemma DisorderFollows(y: System, d: Event, y1: System, e: Event, y2: System, claim: Event, cfg: Config, a: Owner, b: Owner)
    requires Reachable(y, cfg) && a != b
    requires Enabled(y, d) && y1 == Next(y, d, cfg) && Enabled(y1, e) && y2 == Next(y1, e, cfg) && Enabled(y2, claim)
    requires BothWaiting(y, a, b) && BothWaiting(y1, a, b) && BothWaiting(y2, a, b)
    requires ClaimedAt(y2, claim, a, cfg) && Before(KeyOf(b, y.rows[b]), KeyOf(a, y.rows[a]))
    ensures EndsInDisorder(cfg, a, b)
  {
    var states: seq<System>, events: seq<Event> :| AllocationSystem.Run(states, events, cfg) && Ends(states, y);
    var longer, more := ThreeMoreSteps(states, events, d, e, claim, y, y1, y2, cfg);
    EndsOutOfOrder(longer, more, cfg, |events|, y, y1, y2, claim, a, b);
  }

  /** A run in which the queue is not first-in first-out: a deployment stopped and started again stands at
      5, another one is created at 6, and the later one is claimed although both have waited all the time. */
  lemma RestartLosesThePlaceInARun(cfg: Config)
    requires cfg.settings.gpuCount >= 1
    ensures EndsInDisorder(cfg, SECOND, FIRST)
  {
    BothWaitIsReachable(cfg);
    var y :| BothWait(y, cfg);
    var applied, scheduling := LastSteps(y, cfg);
    DisorderFollows(y, ApplyReply(false, 10), applied, FinishWorkloads(10), scheduling,
                    ClaimHead(Ready, LaunchOf(SECOND), 11, 1), cfg, SECOND, FIRST);
  }

  /** A blocked head ends the round: nothing behind it is started, and it is still the head afterwards. */
  lemma BlockedHeadEndsTheRound(y: System, e: Event, cfg: Config)
    requires Enabled(y, e) && e.ClaimHead?
    requires Claim(y.rows, y.leases, e.preflight, e.now, cfg.ttl, e.group).2.ClaimBlocked?
    ensures var y' := Next(y, e, cfg);
            && y'.pc == Idle && y'.leases == y.leases && y'.agent == y.agent
            && StartableOwners(y'.rows) == StartableOwners(y.rows) && IsHead(y'.rows, HeadOf(y.rows))
  {
    var y' := Next(y, e, cfg);
    var head := HeadOf(y.rows);
    ClaimTouchesOnlyTheHead(y.rows, y.leases, e.preflight, e.now, cfg.ttl, e.group, head);
    forall o ensures o in StartableOwners(y'.rows) <==> o in StartableOwners(y.rows) {
      if o in y.rows {
        assert y'.rows[o] == y.rows[o].(runtimeGeneration := y'.rows[o].runtimeGeneration);
      }
    }
    assert StartableOwners(y'.rows) == StartableOwners(y.rows);
    forall p <- StartableOwners(y'.rows) ensures p == head || Before(KeyOf(head, y'.rows[head]), KeyOf(p, y'.rows[p])) {
      assert p in StartableOwners(y.rows);
    }
  }
}
