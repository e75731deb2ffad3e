/** The scheduling half of a round, over whole runs: START is never answered with the one answer that would
    queue its row again, so the loop of claims comes to an end. */
module SchedulingPhase {
  import opened Contract
  import opened GpuScheduler
  import opened Reconciler
  import opened CommandService
  import opened AllocationSystem
  import Runner = DockerRunner
  import AgentRuns
  import FifoOrder

  // ---- START is never answered with an accepted ABSENT ----

  /** Every request id the agent remembers, in memory or on disk, was drawn before. */
  ghost predicate IdsDrawn(a: Agent, next: nat) {
    && (forall id <- a.memory.requests :: id < next)
    && (forall id <- a.disk.requests :: id < next)
  }

  ghost predicate StartAnswerFits(pc: Pc) {
    pc.Applying? && pc.action == Start && pc.reply.Answer? && pc.reply.response.accepted ==> pc.reply.response.observed != ObservedAbsent
  }

  lemma CachingDrawsNoOtherId(a: Agent, c: Command, result: Response, oldest: nat, crash: CrashPoint, next: nat)
    requires IdsDrawn(a, next) && c.requestId < next
    ensures IdsDrawn(CacheAnswer(a, c, result, oldest, crash).0, next)
  {
    var store := PutRequest(a.memory, c, result, oldest);
    assert store.requests.Keys <= a.memory.requests.Keys + {c.requestId};
  }

  lemma ExecutingDrawsNoOtherId(
    a: Agent, c: Command, d: Runner.Docker, s: Runner.Settings, oldest: nat, crash: CrashPoint, next: nat)
    requires IdsDrawn(a, next) && c.requestId < next
    ensures IdsDrawn(Execute(a, c, d, s, oldest, crash).0, next)
  {
    if Screened(a.memory, c).None? {
      if c.action == Start && BindingConflicts(a.memory, c) {
        CachingDrawsNoOtherId(a, c, Rejected(c, GenerationReused), oldest, crash, next);
      } else {
        var (containers, r) := Dispatch(a.containers, c, d, s);
        SettlingDrawsNoOtherId(a, c, containers, r, oldest, crash, next);
      }
    }
  }

  lemma SettlingDrawsNoOtherId(
    a: Agent, c: Command, containers: Runner.Containers, r: Runner.Outcome<WorkloadState>, oldest: nat, crash: CrashPoint, next: nat)
    requires IdsDrawn(a, next) && c.requestId < next
    ensures IdsDrawn(Settle(a, c, containers, r, oldest, crash).0, next)
  {
    var bound := if c.action == Start then BindStart(a.memory, c) else Advance(a.memory, c.owner, c.generation);
    assert bound.requests == a.memory.requests;
    var persisted := a.(memory := bound, disk := if bound != a.memory then bound else a.disk);
    var done := persisted.(containers := containers, dispatched := a.dispatched + {Body(c)});
    assert IdsDrawn(persisted, next) && IdsDrawn(done, next);
    if ReplyTo(c, r).Answer? {
      CachingDrawsNoOtherId(done, c, ReplyTo(c, r).response, oldest, crash, next);
    }
  }

  lemma CallFits(a: Agent, c: Command, x: Exchange, cfg: Config)
    requires IdsDrawn(a, c.requestId)
    ensures var (a', reply) := Call(a, c, x, cfg);
            && IdsDrawn(a', c.requestId + 1)
            && (c.action == Start && reply.Answer? && reply.response.accepted ==> reply.response.observed != ObservedAbsent)
  {
    ExecutingDrawsNoOtherId(a, c, x.docker, cfg.settings, x.oldest, x.crash, c.requestId + 1);
    if c.action == Start {
      AgentRuns.StartIsNeverAbsent(a, c, x.docker, cfg.settings, x.oldest, x.crash);
    }
  }

  lemma StepKeepsAnswersFitting(y: System, e: Event, cfg: Config)
    requires Enabled(y, e) && IdsDrawn(y.agent, y.nextRequest) && StartAnswerFits(y.pc)
    ensures IdsDrawn(Next(y, e, cfg).agent, Next(y, e, cfg).nextRequest) && StartAnswerFits(Next(y, e, cfg).pc)
  {
    match e
    case Rpc(x) => CallFits(y.agent, CommandOf(y.pc.s, y.pc.action, y.pc.execution, y.nextRequest), x, cfg);
    case DeleteRequest(o, x) => CallFits(y.agent, CleanupOf(o, y.rows[o], y.nextRequest), x, cfg);
    case _ =>
  }

  lemma {:induction false} AnswersFitAlong(states: seq<System>, events: seq<Event>, cfg: Config, n: nat)
    requires AllocationSystem.Run(states, events, cfg) && n < |states|
    ensures IdsDrawn(states[n].agent, states[n].nextRequest) && StartAnswerFits(states[n].pc)
  {
    if n > 0 {
      AnswersFitAlong(states, events, cfg, n - 1);
      StepKeepsAnswersFitting(states[n - 1], events[n - 1], cfg);
    }
  }

  /** In every reachable state, whatever happened before: an accepted answer to START is not ABSENT. */
  lemma StartIsNeverAbsentOverRuns(states: seq<System>, events: seq<Event>, cfg: Config, n: nat)
    requires AllocationSystem.Run(states, events, cfg) && n < |states|
    requires states[n].pc.Applying? && states[n].pc.action == Start && states[n].pc.reply.Answer?
    ensures states[n].pc.reply.response.accepted ==> states[n].pc.reply.response.observed != ObservedAbsent
  {
    AnswersFitAlong(states, events, cfg, n);
  }

  // ---- The loop of claims ends ----

  /** A step of the scheduling loop, or of the agent meanwhile; no request arrives. */
  ghost predicate SchedulingStep(y: System, e: Event)
    requires Enabled(y, e)
  {
    || e.ClaimHead? || e.AbortRound? || e.AgentRestart? || e.AgentDrift?
    || (e.Rpc? && y.pc.action == Start) || (e.ApplyReply? && y.pc.action == Start)
  }

  /** A claim after which the loop goes on: the head was claimed, or its execution could not be built. */
  ghost predicate TakesARow(y: System, e: Event, cfg: Config)
    requires Enabled(y, e)
  {
    e.ClaimHead? && Next(y, e, cfg).pc != Idle
  }

  ghost function WaitingRows(y: System): set<Owner> {
    StartableOwners(y.rows)
  }

  lemma ClaimShrinksTheQueue(y: System, e: Event, cfg: Config)
    requires Enabled(y, e) && e.ClaimHead?
    ensures WaitingRows(Next(y, e, cfg)) <= WaitingRows(y)
    ensures TakesARow(y, e, cfg) ==> WaitingRows(Next(y, e, cfg)) < WaitingRows(y)
  {
    var y' := Next(y, e, cfg);
    forall o ensures o in WaitingRows(y') ==> o in WaitingRows(y) {
      FifoOrder.ClaimTouchesOnlyTheHead(y.rows, y.leases, e.preflight, e.now, cfg.ttl, e.group, o);
    }
    if TakesARow(y, e, cfg) {
      var head := HeadOf(y.rows);
      assert head in WaitingRows(y) && head !in WaitingRows(y');
    }
  }

  lemma AnswerKeepsTheQueue(y: System, valid: bool, now: int, cfg: Config)
    requires y.pc.Applying? && y.pc.action == Start && StartAnswerFits(y.pc)
    ensures WaitingRows(Applied(y, valid, now, cfg)) <= WaitingRows(y)
  {
  }

  lemma SchedulingStepShrinks(y: System, e: Event, cfg: Config)
    requires Enabled(y, e) && SchedulingStep(y, e) && StartAnswerFits(y.pc)
    ensures WaitingRows(Next(y, e, cfg)) <= WaitingRows(y)
    ensures TakesARow(y, e, cfg) ==> WaitingRows(Next(y, e, cfg)) < WaitingRows(y)
  {
    match e
    case ClaimHead(_, _, _, _) => ClaimShrinksTheQueue(y, e, cfg);
    case ApplyReply(valid, now) => AnswerKeepsTheQueue(y, valid, now, cfg);
    case _ =>
  }

  ghost function Claims(states: seq<System>, events: seq<Event>, cfg: Config, i: nat, j: nat): nat
    requires AllocationSystem.Run(states, events, cfg) && i <= j < |states|
    decreases j
  {
    if i == j then 0
    else Claims(states, events, cfg, i, j - 1) + if TakesARow(states[j - 1], events[j - 1], cfg) then 1 else 0
  }

  lemma {:induction false} Smaller(a: set<Owner>, b: set<Owner>)
    requires a <= b
    ensures |a| <= |b| && (a < b ==> |a| < |b|)
  {
    assert b == a + (b - a);
    assert |b| == |a| + |b - a|;
    if a < b {
      assert b - a != {};
    }
  }

  ghost predicate SchedulesFrom(states: seq<System>, events: seq<Event>, cfg: Config, i: nat, j: nat)
    requires AllocationSystem.Run(states, events, cfg) && i <= j < |states|
  {
    forall k {:trigger events[k]} :: i <= k < j ==> SchedulingStep(states[k], events[k])
  }

  /** While no request arrives, the loop makes at most as many claims as there were rows waiting: each takes
      one out of the queue and nothing puts one back. */
  lemma {:induction false} SchedulingEnds(states: seq<System>, events: seq<Event>, cfg: Config, i: nat, j: nat)
    requires AllocationSystem.Run(states, events, cfg) && i <= j < |states| && SchedulesFrom(states, events, cfg, i, j)
    ensures Claims(states, events, cfg, i, j) + |WaitingRows(states[j])| <= |WaitingRows(states[i])|
    decreases j
  {
    if i < j {
      SchedulingEnds(states, events, cfg, i, j - 1);
      AnswersFitAlong(states, events, cfg, j - 1);
      SchedulingStepShrinks(states[j - 1], events[j - 1], cfg);
      Smaller(WaitingRows(states[j]), WaitingRows(states[j - 1]));
    }
  }
}
