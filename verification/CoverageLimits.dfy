/** Where lease coverage stops: each of the two assumptions of module LeaseCoverage is needed, and the
    exact condition under which coverage is lost without it. */
module CoverageLimits {
  import opened Contract
  import opened GpuScheduler
  import opened Reconciler
  import opened CommandService
  import opened AllocationSystem
  import opened LeaseCoverage
  import opened WitnessRuns
  import Runner = DockerRunner

  predicate HoldsCards(cs: Runner.Containers, o: Owner) {
    Runner.ActiveFor(cs, o) && cs[o].gpus != {}
  }

  predicate Occupies(y: System, o: Owner) {
    HoldsCards(y.agent.containers, o)
  }

  /** `/start`, `/stop` and the end of the round, in this order and with the leases of `o` past their expiry. */
  ghost function StartStopReap(y: System, o: Owner, requestedAt: int, now: int, cfg: Config): System
    requires y.pc == Working([]) && o in y.rows && o.kind == Deployment
  {
    var started := Next(y, StartRequest(o, requestedAt), cfg);
    var stopped := Next(started, StopRequest(o), cfg);
    Next(stopped, FinishWorkloads(now), cfg)
  }

  lemma EveryCardExpired(y: System, o: Owner, rows: Rows, now: int)
    requires Inv(y) && Occupies(y, o) && forall g <- Owned(y.leases, o) :: y.leases[g].expiresAt <= now
    requires o in rows && TerminalRow(o, rows[o])
    ensures Owned(ReapTerminal(rows, y.leases, now), o) == {}
  {
    forall g <- Owned(y.leases, o) ensures g in Reapable(y.leases, ReapConfirmed(rows, y.leases, now), now) {
      assert (y.leases[g].owner, y.leases[g].generation) in ReapConfirmed(rows, y.leases, now);
    }
  }

  /** Sending `/start` and `/stop` to a deployment with a live container costs it its leases at the next
      clean-up exactly when the deployment was still stopping. */
  lemma RestartWhileStoppingLosesCoverage(y: System, o: Owner, requestedAt: int, now: int, cfg: Config)
    requires Inv(y) && y.pc == Working([]) && o.kind == Deployment && o in y.rows && Occupies(y, o)
    requires forall g <- Owned(y.leases, o) :: y.leases[g].expiresAt <= now
    ensures Covered(StartStopReap(y, o, requestedAt, now, cfg).leases, y.agent.containers, o) <==> y.rows[o].actual != Stopping
  {
    var started := Next(y, StartRequest(o, requestedAt), cfg);
    var stopped := Next(started, StopRequest(o), cfg);
    if y.rows[o].actual == Stopping {
      assert stopped.rows[o].actual == Stopped;
      EveryCardExpired(y, o, stopped.rows, now);
    } else {
      StepKeepsInv(y, StartRequest(o, requestedAt), cfg);
      StepKeepsInv(started, StopRequest(o), cfg);
      StepKeepsInv(stopped, FinishWorkloads(now), cfg);
      InvCovers(StartStopReap(y, o, requestedAt, now, cfg), o);
    }
  }

  /** The same request also jams the queue: the row waits for cards that its own older lease holds, so
      the claim fails for as long as that row is the head, whatever the clock says. */
  lemma RestartWhileStoppingJamsTheQueue(
    y: System, o: Owner, requestedAt: int, cfg: Config, now: int, group: nat)
    requires Inv(y) && o in y.rows && o.kind == Deployment && y.rows[o].actual == Stopping
    requires Owned(y.leases, o) != {} && ValidRequest(y.rows[o].gpuIds)
    ensures var y' := Next(y, StartRequest(o, requestedAt), cfg);
            && o in StartableOwners(y'.rows)
            && (HeadOf(y'.rows) == o ==> Claim(y'.rows, y'.leases, Ready, now, cfg.ttl, group) == (y'.rows, y'.leases, ClaimError))
  {
    var y' := Next(y, StartRequest(o, requestedAt), cfg);
    var r := y'.rows[o];
    assert r.stateVersion > y.rows[o].runtimeGeneration;
    var g :| g in Owned(y.leases, o);
    assert g in GpuSet(r.gpuIds) && y.leases[g].generation != r.stateVersion;
    assert !IsGroup(y.leases, o, GpuSet(r.gpuIds), r.stateVersion);
  }

  // ---- Reading the metadata of a live training container ----

  /** One call of the reconciler, and its answer applied. */
  ghost function CallThenApply(y: System, x: Exchange, artifactsValid: bool, now: int, cfg: Config): System
    requires y.pc.Calling?
  {
    Next(Next(y, Rpc(x), cfg), ApplyReply(artifactsValid, now), cfg)
  }

  predicate Unreadable(o: Owner, x: Exchange) {
    o.kind == Training && !x.docker.metadataReadable
  }

  /** The same exchange, but with metadata that can be read. */
  function Legible(x: Exchange): Exchange {
    x.(docker := x.docker.(metadataReadable := true))
  }

  predicate Answered(x: Exchange) {
    x.fate == Delivered && x.crash == NoCrash && x.docker.lookup
  }

  /** The START in hand creates a container that is alive and found again: its body is not at odds with the bound
      one, the name is or can be made free, and Docker does what it is asked. */
  predicate Launches(y: System, x: Exchange, cfg: Config)
    requires y.pc.Calling?
  {
    var (s, d, cs) := (y.pc.s, x.docker, y.agent.containers);
    && !BindingConflicts(y.agent.memory, CommandOf(s, Start, y.pc.execution, y.nextRequest))
    && y.pc.execution.Launch? && y.pc.execution.runner == LlamaFactory && y.pc.execution.wellFormed
    && (s.owner !in cs || (cs[s.owner].generation != s.generation && d.remove == Runner.Done))
    && d.launch == Runner.LaunchAllowed && Runner.ValidGpuIds(s.gpuIds, cfg.settings.gpuCount)
    && d.nvml == Runner.NvmlFree && d.run == Runner.Done && d.reread && Runner.ActiveStatus(d.birth.status)
  }

  /** Whether the answer to the call in hand is about a live container: a START that launches one, a probe that
      finds one, never a STOP. */
  predicate AnswersAlive(y: System, x: Exchange, cfg: Config)
    requires y.pc.Calling?
  {
    Answered(x) && match y.pc.action
                   case Start => Launches(y, x, cfg)
                   case Status => Occupies(y, y.pc.s.owner)
                   case Stop => false
  }

  /** The same containers, and an answer in both cases or in neither. */
  predicate AlikeOutcomes(
    c: Command, one: (Runner.Containers, Runner.Outcome<WorkloadState>), other: (Runner.Containers, Runner.Outcome<WorkloadState>))
  {
    one.0 == other.0 && (ReplyTo(c, one.1).Answer? <==> ReplyTo(c, other.1).Answer?)
  }

  lemma ReadingMovesNothingAtStart(cs: Runner.Containers, c: Command, d: Runner.Docker, s: Runner.Settings)
    ensures AlikeOutcomes(c, StartWorkload(cs, c, d, s), StartWorkload(cs, c, d.(metadataReadable := true), s))
  {
    var legible := d.(metadataReadable := true);
    var (prepared, existing) := Runner.PrepareStart(cs, c.owner, c.generation, d);
    assert Runner.PrepareStart(cs, c.owner, c.generation, legible) == (prepared, existing);
    assert Runner.LaunchContainer(prepared, c.owner, c.generation, c.gpuIds, d, s)
        == Runner.LaunchContainer(prepared, c.owner, c.generation, c.gpuIds, legible, s);
  }

  lemma ReadingMovesNothingAtStop(cs: Runner.Containers, c: Command, d: Runner.Docker, s: Runner.Settings)
    ensures AlikeOutcomes(c, StopWorkload(cs, c, d, s), StopWorkload(cs, c, d.(metadataReadable := true), s))
  {
    assert Runner.StopContainer(cs, c.owner, c.generation, d)
        == Runner.StopContainer(cs, c.owner, c.generation, d.(metadataReadable := true));
  }

  /** Whether the metadata can be read decides neither what happens to the containers nor whether there is an answer. */
  lemma ReadingMovesNothing(cs: Runner.Containers, c: Command, d: Runner.Docker, s: Runner.Settings)
    ensures AlikeOutcomes(c, Dispatch(cs, c, d, s), Dispatch(cs, c, d.(metadataReadable := true), s))
  {
    match c.action
    case Start => ReadingMovesNothingAtStart(cs, c, d, s);
    case Stop => ReadingMovesNothingAtStop(cs, c, d, s);
    case Status =>
  }

  lemma ReadingMovesNothingInACall(a: Agent, c: Command, x: Exchange, cfg: Config)
    ensures var ((a', reply), (a'', reply')) := (Call(a, c, x, cfg), Call(a, c, Legible(x), cfg));
            a'.containers == a''.containers && (reply.Answer? <==> reply'.Answer?)
  {
    ReadingMovesNothing(a.containers, c, x.docker, cfg.settings);
  }

  /** A call is answered exactly when it was delivered, nothing crashed, and the command has an answer. */
  lemma CallIsAnswered(a: Agent, c: Command, x: Exchange, cfg: Config)
    requires AgentRuns.Inv(a) && c.generation >= Watermark(a.memory, c.owner) && c.requestId !in a.memory.requests
    requires !(c.action == Start && BindingConflicts(a.memory, c))
    ensures var ((a', reply), (cs', r)) := (Call(a, c, x, cfg), Dispatch(a.containers, c, x.docker, cfg.settings));
            && (reply.Answer? <==> x.fate == Delivered && x.crash == NoCrash && ReplyTo(c, r).Answer?)
            && (reply.Answer? ==> a'.containers == cs' && reply == ReplyTo(c, r))
  {
  }

  predicate ReadsAsRefusal(reply: Reply) {
    reply.Answer? && !reply.response.accepted && EndReport(reply.response.observed)
  }

  /** An answer about a training job whose metadata cannot be read is a refusal, unless no container is left. */
  lemma UnreadableIsRefused(cs: Runner.Containers, c: Command, d: Runner.Docker, s: Runner.Settings)
    requires c.owner.kind == Training && !d.metadataReadable
    ensures var (cs', r) := Dispatch(cs, c, d, s);
            ReplyTo(c, r).Answer? && Runner.ActiveFor(cs', c.owner) ==> ReadsAsRefusal(ReplyTo(c, r))
  {
    AgentRuns.DispatchTellsTheTruth(cs, c, d, s);
    assert var r := Dispatch(cs, c, d, s).1; r.Value? ==> r.value == ObservedAbsent;
  }

  /** An answered call about a training job whose metadata cannot be read is read as its end, also when it leaves
      an active container. */
  lemma UnreadableReadsAsEnd(a: Agent, c: Command, x: Exchange, cfg: Config)
    requires AgentRuns.Inv(a) && c.generation >= Watermark(a.memory, c.owner) && c.requestId !in a.memory.requests
    requires Unreadable(c.owner, x)
    ensures var (a', reply) := Call(a, c, x, cfg);
            reply.Answer? && Runner.ActiveFor(a'.containers, c.owner) ==> ReadsAsRefusal(reply)
  {
    if !(c.action == Start && BindingConflicts(a.memory, c)) {
      UnreadableIsRefused(a.containers, c, x.docker, cfg.settings);
      CallIsAnswered(a, c, x, cfg);
    }
  }

  /** What the reconciler's call finds when it is made: a current command. */
  lemma CallInHand(y: System)
    requires Inv(y) && y.pc.Calling?
    ensures Fresh(y.rows, y.pc.s)
    ensures var c := CommandOf(y.pc.s, y.pc.action, y.pc.execution, y.nextRequest);
            && ControlCommand(c, y.agent.containers) && c.generation >= Watermark(y.agent.memory, c.owner)
            && c.requestId !in y.agent.memory.requests
  {
    assert Snapshots(y.pc)[0] == y.pc.s;
    assert Fresh(y.rows, y.pc.s);
  }

  /** Only the agent, the request number and the reconciler's place in its round depend on the call. */
  lemma CalledAlike(y: System, x: Exchange, cfg: Config)
    requires y.pc.Calling?
    ensures var (called, legible) := (Next(y, Rpc(x), cfg), Next(y, Rpc(Legible(x)), cfg));
            && called.rows == legible.rows == y.rows && called.leases == legible.leases == y.leases
            && called.agent.containers == legible.agent.containers
            && called.pc.Applying? && called.pc.s == y.pc.s && called.pc.action == y.pc.action
  {
    ReadingMovesNothingInACall(y.agent, CommandOf(y.pc.s, y.pc.action, y.pc.execution, y.nextRequest), x, cfg);
  }

  /** The call itself never costs coverage, whatever could be read. */
  lemma CallsKeepCoverage(y: System, x: Exchange, cfg: Config)
    requires Inv(y) && y.pc.Calling?
    ensures var called := Next(y, Rpc(x), cfg); Covered(called.leases, called.agent.containers, y.pc.s.owner)
  {
    CalledAlike(y, x, cfg);
    StepKeepsInv(y, Rpc(Legible(x)), cfg);
    InvCovers(Next(y, Rpc(Legible(x)), cfg), y.pc.s.owner);
  }

  lemma EndTakesTheLeases(y: System, artifactsValid: bool, now: int, cfg: Config)
    requires y.pc.Applying? && ReadsAsRefusal(y.pc.reply)
    requires LeasesMatchRows(y.rows, y.leases) && Fresh(y.rows, y.pc.s)
    ensures Owned(Applied(y, artifactsValid, now, cfg).leases, y.pc.s.owner) == {}
    ensures Applied(y, artifactsValid, now, cfg).agent == y.agent
  {
    var s := y.pc.s;
    assert Applied(y, artifactsValid, now, cfg).leases == Release(y.leases, s.owner, s.generation);
  }

  /** Applying the answer costs coverage exactly when it is an answer about a live container whose metadata could
      not be read. */
  lemma UnreadableAnswersLoseCoverage(y: System, x: Exchange, artifactsValid: bool, now: int, cfg: Config)
    requires Inv(y) && y.pc.Calling?
    ensures var (o, called, y') := (y.pc.s.owner, Next(y, Rpc(x), cfg), CallThenApply(y, x, artifactsValid, now, cfg));
            !Covered(y'.leases, y'.agent.containers, o)
            <==> Unreadable(o, x) && called.pc.reply.Answer? && HoldsCards(called.agent.containers, o)
  {
    var (o, called) := (y.pc.s.owner, Next(y, Rpc(x), cfg));
    CallsKeepCoverage(y, x, cfg);
    CalledAlike(y, x, cfg);
    CallInHand(y);
    if !Unreadable(o, x) || !Runner.ActiveFor(called.agent.containers, o) {
      StepKeepsInv(y, Rpc(x), cfg);
      StepKeepsInv(called, ApplyReply(artifactsValid, now), cfg);
      InvCovers(CallThenApply(y, x, artifactsValid, now, cfg), o);
    } else if called.pc.reply.Answer? {
      UnreadableReadsAsEnd(y.agent, CommandOf(y.pc.s, y.pc.action, y.pc.execution, y.nextRequest), x, cfg);
      EndTakesTheLeases(called, artifactsValid, now, cfg);
    }
  }

  // ---- Which exchanges these are ----

  /** The cards of a row that is being started are in no active container. */
  lemma CardsAreFree(y: System)
    requires Inv(y) && y.pc.Calling? && y.pc.action == Start
    ensures !Runner.GpuConflict(y.agent.containers, GpuSet(y.pc.s.gpuIds))
  {
    CallInHand(y);
    var (o, cs) := (y.pc.s.owner, y.agent.containers);
    forall p <- cs | Runner.Active(cs[p]) ensures cs[p].gpus * GpuSet(y.pc.s.gpuIds) == {} {
      InvCovers(y, p);
      forall g <- cs[p].gpus ensures g !in GpuSet(y.pc.s.gpuIds) {
        assert g in Owned(y.leases, p);
      }
    }
  }

  lemma StartAnswersAlive(cs: Runner.Containers, c: Command, d: Runner.Docker, s: Runner.Settings)
    requires c.action == Start && c.owner.kind == Training && !Runner.ActiveFor(cs, c.owner)
    requires c.owner in cs ==> cs[c.owner].generation <= c.generation
    requires !Runner.GpuConflict(cs, GpuSet(c.gpuIds))
    ensures var (cs', r) := Dispatch(cs, c, d, s);
            HoldsCards(cs', c.owner) && ReplyTo(c, r).Answer?
            <==> && c.execution.Launch? && c.execution.runner == LlamaFactory && c.execution.wellFormed
                 && d.lookup && (c.owner !in cs || (cs[c.owner].generation != c.generation && d.remove == Runner.Done))
                 && d.launch == Runner.LaunchAllowed && Runner.ValidGpuIds(c.gpuIds, s.gpuCount)
                 && d.nvml == Runner.NvmlFree && d.run == Runner.Done && d.reread && Runner.ActiveStatus(d.birth.status)
  {
    var (prepared, existing) := Runner.PrepareStart(cs, c.owner, c.generation, d);
    assert forall o <- prepared :: o in cs && prepared[o] == cs[o];
    assert !Runner.GpuConflict(prepared, GpuSet(c.gpuIds));
    if Runner.ValidGpuIds(c.gpuIds, s.gpuCount) {
      assert c.gpuIds[0] in GpuSet(c.gpuIds);
    }
  }

  lemma OthersAnswerAlive(cs: Runner.Containers, c: Command, d: Runner.Docker, s: Runner.Settings)
    requires c.action != Start && c.execution == NoExecution && c.owner.kind == Training
    requires Runner.ActiveFor(cs, c.owner) ==> cs[c.owner].generation == c.generation
    ensures var (cs', r) := Dispatch(cs, c, d, s);
            HoldsCards(cs', c.owner) && ReplyTo(c, r).Answer? <==> c.action == Status && d.lookup && HoldsCards(cs, c.owner)
  {
  }

  lemma AliveAnswersAreThese(y: System, x: Exchange, cfg: Config)
    requires Inv(y) && y.pc.Calling? && y.pc.s.owner.kind == Training
    ensures var called := Next(y, Rpc(x), cfg);
            called.pc.reply.Answer? && HoldsCards(called.agent.containers, y.pc.s.owner) <==> AnswersAlive(y, x, cfg)
  {
    CallInHand(y);
    var (a, c, d) := (y.agent, CommandOf(y.pc.s, y.pc.action, y.pc.execution, y.nextRequest), x.docker);
    if y.pc.action == Start {
      CardsAreFree(y);
      assert c.owner in a.containers ==> a.containers[c.owner].generation <= Watermark(a.memory, c.owner) <= c.generation;
      StartAnswersAlive(a.containers, c, d, cfg.settings);
    } else {
      OthersAnswerAlive(a.containers, c, d, cfg.settings);
    }
    if !(c.action == Start && BindingConflicts(a.memory, c)) {
      CallIsAnswered(a, c, x, cfg);
    }
  }

  /** One call and its answer take the leases away from a live container exactly when the metadata of a training
      job could not be read and the answer was about a live container: a START that launched it, or a probe that
      found it.  The refusal is taken for the end of the job. */
  lemma UnreadableMetadataLosesCoverage(y: System, x: Exchange, artifactsValid: bool, now: int, cfg: Config)
    requires Inv(y) && y.pc.Calling?
    ensures var y' := CallThenApply(y, x, artifactsValid, now, cfg);
            Covered(y'.leases, y'.agent.containers, y.pc.s.owner)
            <==> !(Unreadable(y.pc.s.owner, x) && AnswersAlive(y, x, cfg))
  {
    UnreadableAnswersLoseCoverage(y, x, artifactsValid, now, cfg);
    if y.pc.s.owner.kind == Training {
      AliveAnswersAreThese(y, x, cfg);
    }
  }

  // ---- The conditions are met in runs from the empty system ----

  /** A deployment with a live container is stopping, and the round has nothing left to inspect: its one
      STOP call was not executed. */
  ghost predicate IsStuckStopping(y: System, o: Owner, cfg: Config) {
    && ReachableAssumed(y, cfg) && y.pc == Working([])
    && y.rows == map[o := Row(WantStopped, Stopping, [CARD], None, 0, 2, 1)]
    && y.leases == map[CARD := LeaseOf(o, cfg)]
    && y.agent.containers == map[o := Runner.Container(1, {CARD}, UP)]
  }

  lemma StuckStoppingIsReachable(o: Owner, cfg: Config)
    requires cfg.settings.gpuCount >= 1 && o.kind == Deployment
    ensures exists y :: IsStuckStopping(y, o, cfg)
  {
    StopIsReachable(o, cfg);
    var y :| IsCalled(y, o, WantStopped, Stopping, 2, cfg);
    var failed := Rpc(DELIVERED.(fate := NotExecuted));
    ReachAssumed(y, failed, cfg);
    var called := Next(y, failed, cfg);
    ReachAssumed(called, ApplyReply(false, 0), cfg);
    assert IsStuckStopping(Next(called, ApplyReply(false, 0), cfg), o, cfg);
  }

  ghost predicate LostInARun(o: Owner, cfg: Config) {
    exists y :: Reachable(y, cfg) && !Covered(y.leases, y.agent.containers, o)
  }

  lemma StartStopReapIsReachable(y: System, o: Owner, requestedAt: int, now: int, cfg: Config)
    requires Reachable(y, cfg) && y.pc == Working([]) && o in y.rows && o.kind == Deployment
    ensures Reachable(StartStopReap(y, o, requestedAt, now, cfg), cfg)
    ensures StartStopReap(y, o, requestedAt, now, cfg).agent == y.agent
  {
    var started := Next(y, StartRequest(o, requestedAt), cfg);
    var stopped := Next(started, StopRequest(o), cfg);
    Reach(y, StartRequest(o, requestedAt), cfg);
    Reach(started, StopRequest(o), cfg);
    Reach(stopped, FinishWorkloads(now), cfg);
  }

  /** In a run of one deployment, `/start` and `/stop` while it is stopping end in a state where its
      container is active on a card that is not leased to it. */
  lemma RestartLosesCoverageInARun(o: Owner, cfg: Config)
    requires cfg.settings.gpuCount >= 1 && o.kind == Deployment
    ensures LostInARun(o, cfg)
  {
    StuckStoppingIsReachable(o, cfg);
    var y :| IsStuckStopping(y, o, cfg);
    AssumedIsReachable(y, cfg);
    RestartWhileStoppingLosesCoverage(y, o, 0, cfg.ttl, cfg);
    StartStopReapIsReachable(y, o, 0, cfg.ttl, cfg);
    var lost := StartStopReap(y, o, 0, cfg.ttl, cfg);
    assert Reachable(lost, cfg) && !Covered(lost.leases, lost.agent.containers, o);
  }

  /** Every claim, at any time, fails and changes nothing. */
  ghost predicate Jammed(rows: Rows, leases: LeaseTable, cfg: Config) {
    forall now: int, group: nat :: Claim(rows, leases, Ready, now, cfg.ttl, group) == (rows, leases, ClaimError)
  }

  lemma AloneAndStoppingJams(y: System, o: Owner, cfg: Config)
    requires Inv(y) && o.kind == Deployment && y.rows == map[o := Row(WantStopped, Stopping, [CARD], None, 0, 2, 1)]
    requires y.leases == map[CARD := LeaseOf(o, cfg)]
    ensures var y' := Next(y, StartRequest(o, 0), cfg);
            StartableOwners(y'.rows) == {o} && Jammed(y'.rows, y'.leases, cfg)
  {
    OnlyCard();
    assert CARD in Owned(y.leases, o);
    var y' := Next(y, StartRequest(o, 0), cfg);
    assert o in StartableOwners(y'.rows);
    assert HeadOf(y'.rows) == o;
    forall now: int, group: nat ensures Claim(y'.rows, y'.leases, Ready, now, cfg.ttl, group) == (y'.rows, y'.leases, ClaimError) {
      RestartWhileStoppingJamsTheQueue(y, o, 0, cfg, now, group);
    }
  }

  /** In the same run, without the `/stop`, the queue is stuck with that row alone in it. */
  lemma RestartJamsTheQueueInARun(o: Owner, cfg: Config)
    requires cfg.settings.gpuCount >= 1 && o.kind == Deployment
    ensures exists y :: Reachable(y, cfg) && y.pc == Scheduling && StartableOwners(y.rows) == {o} && Jammed(y.rows, y.leases, cfg)
  {
    StuckStoppingIsReachable(o, cfg);
    var y :| IsStuckStopping(y, o, cfg);
    AssumedIsReachable(y, cfg);
    var finished := Next(y, FinishWorkloads(0), cfg);
    ReapFindsNothing(y.rows, y.leases, 0);
    StepKeepsInv(y, FinishWorkloads(0), cfg);
    Reach(y, FinishWorkloads(0), cfg);
    AloneAndStoppingJams(finished, o, cfg);
    Reach(finished, StartRequest(o, 0), cfg);
  }

  lemma CallThenApplyIsReachable(y: System, x: Exchange, artifactsValid: bool, now: int, cfg: Config)
    requires Reachable(y, cfg) && y.pc.Calling?
    ensures Reachable(CallThenApply(y, x, artifactsValid, now, cfg), cfg)
  {
    Reach(y, Rpc(x), cfg);
    Reach(Next(y, Rpc(x), cfg), ApplyReply(artifactsValid, now), cfg);
  }

  const ILLEGIBLE := DELIVERED.(docker := SMOOTH.(metadataReadable := false))

  lemma UnreadableAnswerIsReachable(y: System, o: Owner, cfg: Config)
    requires ReachableAssumed(y, cfg) && y.pc.Calling? && y.pc.s.owner == o && o.kind == Training
    requires AnswersAlive(y, ILLEGIBLE, cfg)
    ensures LostInARun(o, cfg)
  {
    AssumedIsReachable(y, cfg);
    UnreadableMetadataLosesCoverage(y, ILLEGIBLE, false, 0, cfg);
    CallThenApplyIsReachable(y, ILLEGIBLE, false, 0, cfg);
    var lost := CallThenApply(y, ILLEGIBLE, false, 0, cfg);
    assert Reachable(lost, cfg) && !Covered(lost.leases, lost.agent.containers, o);
  }

  /** In a run of one training job, a status probe that cannot read the metadata ends in a state where
      the container is active on a card that is not leased to it. */
  lemma UnreadableMetadataLosesCoverageInARun(o: Owner, cfg: Config)
    requires cfg.settings.gpuCount >= 1 && o.kind == Training
    ensures LostInARun(o, cfg)
  {
    ProbeIsReachable(o, cfg);
    var y :| IsCalled(y, o, WantRunning, ActualState.Running, 1, cfg);
    UnreadableAnswerIsReachable(y, o, cfg);
  }

  /** So does the START that launches it, when the metadata cannot be read right afterwards. */
  lemma UnreadableStartLosesCoverageInARun(o: Owner, cfg: Config)
    requires cfg.settings.gpuCount >= 1 && o.kind == Training
    ensures LostInARun(o, cfg)
  {
    StartingIsReachable(o, cfg);
    UnreadableAnswerIsReachable(WitnessRuns.Starting(o, cfg), o, cfg);
  }
}
