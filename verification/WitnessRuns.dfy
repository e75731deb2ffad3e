/** Concrete runs of the allocation system, from the empty state.  They show that the states in which a
    guarantee ends are reached by ordinary requests and answers. */
module WitnessRuns {
  import opened Contract
  import opened GpuScheduler
  import opened Reconciler
  import opened CommandService
  import opened AllocationSystem
  import Runner = DockerRunner
  import LeaseCoverage

  ghost predicate Ends(states: seq<System>, y: System) {
    states != [] && states[|states| - 1] == y
  }

  ghost predicate Reachable(y: System, cfg: Config) {
    exists states: seq<System>, events: seq<Event> :: AllocationSystem.Run(states, events, cfg) && Ends(states, y)
  }

  /** Reached with both assumptions of module LeaseCoverage met at every step. */
  ghost predicate ReachableAssumed(y: System, cfg: Config) {
    exists states: seq<System>, events: seq<Event> :: LeaseCoverage.AssumedRun(states, events, cfg) && Ends(states, y)
  }

  lemma ExtendRun(states: seq<System>, events: seq<Event>, e: Event, cfg: Config)
    requires AllocationSystem.Run(states, events, cfg) && Enabled(states[|events|], e)
    ensures var y' := Next(states[|events|], e, cfg);
            AllocationSystem.Run(states + [y'], events + [e], cfg) && Ends(states + [y'], y')
  {
  }

  lemma Reach(y: System, e: Event, cfg: Config)
    requires Reachable(y, cfg) && Enabled(y, e)
    ensures Reachable(Next(y, e, cfg), cfg)
  {
    var states: seq<System>, events: seq<Event> :| AllocationSystem.Run(states, events, cfg) && Ends(states, y);
    ExtendRun(states, events, e, cfg);
  }

  lemma ReachAssumed(y: System, e: Event, cfg: Config)
    requires ReachableAssumed(y, cfg) && Enabled(y, e) && LeaseCoverage.Assumed(y, e, cfg)
    ensures ReachableAssumed(Next(y, e, cfg), cfg)
  {
    var states: seq<System>, events: seq<Event> :| LeaseCoverage.AssumedRun(states, events, cfg) && Ends(states, y);
    ExtendRun(states, events, e, cfg);
    var y' := Next(y, e, cfg);
    var longer, more := states + [y'], events + [e];
    forall i {:trigger more[i]} | 0 <= i < |more| ensures LeaseCoverage.Assumed(longer[i], more[i], cfg) {
      if i < |events| {
        assert longer[i] == states[i] && more[i] == events[i];
      }
    }
    assert LeaseCoverage.AssumedRun(longer, more, cfg);
  }

  lemma AssumedIsReachable(y: System, cfg: Config)
    requires ReachableAssumed(y, cfg)
    ensures Reachable(y, cfg) && LeaseCoverage.Inv(y)
  {
    var states: seq<System>, events: seq<Event> :| LeaseCoverage.AssumedRun(states, events, cfg) && Ends(states, y);
    LeaseCoverage.InvAlongRun(states, events, cfg, |states| - 1);
  }

  lemma InitialIsReachable(cfg: Config)
    ensures ReachableAssumed(INITIAL, cfg)
  {
    assert LeaseCoverage.AssumedRun([INITIAL], [], cfg) && Ends([INITIAL], INITIAL);
  }

  // ---- A workload is created, claimed and launched ----

  const CARD := Gpu(0)

  const UP := Runner.Vitals(Runner.Running, None, Some(Runner.Healthy), 0, 0, Some(0), Some(0), None)

  const GONE := Runner.Vitals(Runner.Exited, Some(0), None, 0, 0, Some(0), Some(0), Some(0))

  const SMOOTH := Runner.Docker(
    true, Runner.Done, Runner.Done, GONE, true, Runner.LaunchAllowed, Runner.NvmlFree, Runner.Done, UP, Runner.Seen, Runner.Seen, true, 0)

  const DELIVERED := Exchange(Delivered, SMOOTH, 0, NoCrash)

  function LaunchOf(o: Owner): Execution {
    Launch(ExpectedRunner(o.kind), true, 1, 0)
  }

  function RowAt(actual: ActualState, queuedAt: Option<int>, runtimeGeneration: nat): Row {
    Row(WantRunning, actual, [CARD], queuedAt, 0, 1, runtimeGeneration)
  }

  function FirstSnapshot(o: Owner): Snapshot {
    Snapshot(o, 1, [CARD], WantRunning)
  }

  function LeaseOf(o: Owner, cfg: Config): Lease {
    Lease(0, o, 1, 0, 0, cfg.ttl)
  }

  lemma OnlyCard()
    ensures GpuSet([CARD]) == {CARD} && ValidRequest([CARD])
  {
    assert [CARD][0] == CARD;
    assert CARD in GpuSet([CARD]);
  }

  /** Waiting alone in the queue while the reconciler is about to claim. */
  ghost function Queueing(o: Owner): System {
    INITIAL.(rows := map[o := RowAt(Queued, Some(0), 0)], used := {o}, pc := Scheduling)
  }

  lemma QueueingIsReachable(o: Owner, cfg: Config)
    ensures ReachableAssumed(Queueing(o), cfg)
  {
    InitialIsReachable(cfg);
    OnlyCard();
    ReachAssumed(INITIAL, CreateRequest(o, [CARD], 0), cfg);
    var created := Next(INITIAL, CreateRequest(o, [CARD], 0), cfg);
    ReachAssumed(created, BeginRound([]), cfg);
    var begun := Next(created, BeginRound([]), cfg);
    assert begun.pc == Working([]);
    ReachAssumed(begun, FinishWorkloads(0), cfg);
    assert ReapTerminal(begun.rows, map[], 0) == map[];
    assert Next(begun, FinishWorkloads(0), cfg) == Queueing(o);
  }

  /** Claimed with its card leased; START is about to be sent. */
  ghost function Starting(o: Owner, cfg: Config): System {
    INITIAL.(rows := map[o := RowAt(ActualState.Starting, None, 1)], leases := map[CARD := LeaseOf(o, cfg)], used := {o},
             pc := Calling(FirstSnapshot(o), Start, LaunchOf(o), []))
  }

  lemma StartingIsReachable(o: Owner, cfg: Config)
    ensures ReachableAssumed(Starting(o, cfg), cfg)
  {
    QueueingIsReachable(o, cfg);
    OnlyCard();
    var (y, e) := (Queueing(o), ClaimHead(Ready, LaunchOf(o), 0, 0));
    assert o in StartableOwners(y.rows);
    assert HeadOf(y.rows) == o;
    assert Grant(map[], {CARD}, LeaseOf(o, cfg)) == map[CARD := LeaseOf(o, cfg)];
    ReachAssumed(y, e, cfg);
    assert Next(y, e, cfg) == Starting(o, cfg);
  }

  lemma LaunchAnswer(o: Owner, cfg: Config)
    requires cfg.settings.gpuCount >= 1
    ensures Dispatch(map[], CommandOf(FirstSnapshot(o), Start, LaunchOf(o), 0), SMOOTH, cfg.settings)
         == (map[o := Runner.Container(1, {CARD}, UP)], Runner.Value(ObservedRunning))
  {
    OnlyCard();
    var c := CommandOf(FirstSnapshot(o), Start, LaunchOf(o), 0);
    assert c.gpuIds == [CARD];
    assert Runner.PrepareStart(map[], o, 1, SMOOTH) == (map[], Runner.Value(None));
    assert Runner.LaunchContainer(map[], o, 1, [CARD], SMOOTH, cfg.settings)
        == (map[o := Runner.Container(1, {CARD}, UP)], Runner.Value(Runner.Container(1, {CARD}, UP)));
  }

  /** Running, with its lease, and the reconciler idle. */
  ghost predicate IsUp(y: System, o: Owner, cfg: Config) {
    && ReachableAssumed(y, cfg) && y.pc == Idle
    && y.rows == map[o := RowAt(ActualState.Running, None, 1)] && y.leases == map[CARD := LeaseOf(o, cfg)]
    && y.agent.containers == map[o := Runner.Container(1, {CARD}, UP)] && y.used == {o}
  }

  ghost predicate IsLaunched(y: System, o: Owner, cfg: Config) {
    && ReachableAssumed(y, cfg)
    && y.pc == Applying(FirstSnapshot(o), Start, Answer(Response(0, true, ObservedRunning, NoError)), [])
    && y.rows == map[o := RowAt(ActualState.Starting, None, 1)] && y.leases == map[CARD := LeaseOf(o, cfg)]
    && y.agent.containers == map[o := Runner.Container(1, {CARD}, UP)] && y.used == {o}
  }

  lemma CallIsReachable(o: Owner, cfg: Config)
    requires cfg.settings.gpuCount >= 1
    ensures exists y :: IsLaunched(y, o, cfg)
  {
    StartingIsReachable(o, cfg);
    LaunchAnswer(o, cfg);
    var y := Starting(o, cfg);
    ReachAssumed(y, Rpc(DELIVERED), cfg);
    assert IsLaunched(Next(y, Rpc(DELIVERED), cfg), o, cfg);
  }

  lemma LaunchIsReachable(o: Owner, cfg: Config)
    requires cfg.settings.gpuCount >= 1
    ensures exists y :: IsUp(y, o, cfg)
  {
    CallIsReachable(o, cfg);
    var called :| IsLaunched(called, o, cfg);
    ReachAssumed(called, ApplyReply(true, 0), cfg);
    var applied := Next(called, ApplyReply(true, 0), cfg);
    assert applied.leases == map[CARD := LeaseOf(o, cfg)];
    assert StartableOwners(applied.rows) == {};
    ReachAssumed(applied, ClaimHead(Ready, NoExecution, 0, 0), cfg);
    assert IsUp(Next(applied, ClaimHead(Ready, NoExecution, 0, 0), cfg), o, cfg);
  }

  // ---- The running workload is asked to stop, and the round turns to it ----

  ghost predicate IsCalled(y: System, o: Owner, desired: Desired, actual: ActualState, version: Generation, cfg: Config) {
    && ReachableAssumed(y, cfg)
    && y.pc == Calling(FirstSnapshot(o).(desired := desired), FirstAction(FirstSnapshot(o).(desired := desired)), NoExecution, [])
    && y.rows == map[o := Row(desired, actual, [CARD], None, 0, version, 1)]
    && y.leases == map[CARD := LeaseOf(o, cfg)] && y.used == {o}
    && y.agent.containers == map[o := Runner.Container(1, {CARD}, UP)]
  }

  lemma RoundTurnsTo(y: System, o: Owner, desired: Desired, actual: ActualState, version: Generation, cfg: Config)
    requires ReachableAssumed(y, cfg) && y.pc == Idle && y.rows == map[o := Row(desired, actual, [CARD], None, 0, version, 1)]
    requires ActiveRow(o, y.rows[o]) && y.leases == map[CARD := LeaseOf(o, cfg)] && y.used == {o}
    requires y.agent.containers == map[o := Runner.Container(1, {CARD}, UP)]
    ensures exists y' :: IsCalled(y', o, desired, actual, version, cfg)
  {
    ReachAssumed(y, BeginRound([o]), cfg);
    var begun := Next(y, BeginRound([o]), cfg);
    assert begun.pc == Working([FirstSnapshot(o).(desired := desired)]);
    ReachAssumed(begun, NextWorkload, cfg);
    assert IsCalled(Next(begun, NextWorkload, cfg), o, desired, actual, version, cfg);
  }

  lemma ProbeIsReachable(o: Owner, cfg: Config)
    requires cfg.settings.gpuCount >= 1
    ensures exists y :: IsCalled(y, o, WantRunning, ActualState.Running, 1, cfg)
  {
    LaunchIsReachable(o, cfg);
    var y :| IsUp(y, o, cfg);
    RoundTurnsTo(y, o, WantRunning, ActualState.Running, 1, cfg);
  }

  lemma StopIsReachable(o: Owner, cfg: Config)
    requires cfg.settings.gpuCount >= 1 && o.kind == Deployment
    ensures exists y :: IsCalled(y, o, WantStopped, Stopping, 2, cfg)
  {
    LaunchIsReachable(o, cfg);
    var y :| IsUp(y, o, cfg);
    ReachAssumed(y, StopRequest(o), cfg);
    RoundTurnsTo(Next(y, StopRequest(o), cfg), o, WantStopped, Stopping, 2, cfg);
  }
}
