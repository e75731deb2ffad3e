/** The whole allocation protocol as one step system: rows and leases in the database, the node agent
    with its memory, file and containers, one reconciler whose calls may be lost before or after they
    are executed, and API requests, crashes and container changes at any point in between. */
module AllocationSystem {
  import opened Contract
  import opened GpuScheduler
  import opened Reconciler
  import opened CommandService
  import Runner = DockerRunner
  import AgentRuns

  datatype Config = Config(ttl: nat, settings: Runner.Settings)

  /** Where the reconciler is in its round. */
  datatype Pc =
    | Idle
    | Working(todo: seq<Snapshot>)
    | Calling(s: Snapshot, action: Action, execution: Execution, todo: seq<Snapshot>)
    | Applying(s: Snapshot, action: Action, reply: Reply, todo: seq<Snapshot>)
    | Scheduling

  /** `used` holds every owner id ever created, `issued` one entry per START call sent. */
  datatype System = System(
    rows: Rows, leases: LeaseTable, agent: Agent, pc: Pc,
    used: set<Owner>, issued: multiset<Owner>, nextRequest: nat)

  datatype Fate = NotExecuted | Delivered | AnswerLost

  /** How one call to the agent went. */
  datatype Exchange = Exchange(fate: Fate, docker: Runner.Docker, oldest: nat, crash: CrashPoint)

  datatype Event =
    | BeginRound(order: seq<Owner>)
    | NextWorkload
    | FinishWorkloads(now: int)
    | Rpc(exchange: Exchange)
    | ApplyReply(artifactsValid: bool, now: int)
    | ClaimHead(preflight: Preflight, execution: Execution, now: int, group: nat)
    | AbortRound
    | CreateRequest(owner: Owner, gpuIds: seq<Gpu>, now: int)
    | StartRequest(owner: Owner, now: int)
    | StopRequest(owner: Owner)
    | UpdateRequest(owner: Owner, gpuIds: seq<Gpu>)
    | TerminateRequest(owner: Owner)
    | CancelRequest(owner: Owner)
    | DeleteRequest(owner: Owner, exchange: Exchange)
    | AgentRestart
    | AgentDrift(owner: Owner, vitals: Option<Runner.Vitals>)

  const EMPTY_STORE := Store(map[], map[], map[])

  const INITIAL := System(map[], map[], Agent(EMPTY_STORE, EMPTY_STORE, map[], {}), Idle, {}, multiset{}, 0)

  function CommandOf(s: Snapshot, action: Action, execution: Execution, requestId: nat): Command {
    Command(requestId, action, s.owner, s.generation, s.gpuIds, if action == Start then execution else NoExecution)
  }

  function CleanupOf(o: Owner, r: Row, requestId: nat): Command {
    Command(requestId, Stop, o, EffectiveGeneration(r), r.gpuIds, CleanupTerminal)
  }

  function Call(a: Agent, c: Command, x: Exchange, cfg: Config): (Agent, Reply) {
    if x.fate == NotExecuted then (a, NoAnswer)
    else
      var (a', reply) := Execute(a, c, x.docker, cfg.settings, x.oldest, x.crash);
      (a', if x.fate == Delivered then reply else NoAnswer)
  }

  ghost predicate Enabled(y: System, e: Event) {
    match e
    case BeginRound(order) =>
      && y.pc == Idle && Distinct(order)
      && forall o :: o in order <==> o in y.rows && ActiveRow(o, y.rows[o])
    case NextWorkload => y.pc.Working? && y.pc.todo != []
    case FinishWorkloads(_) => y.pc == Working([])
    case Rpc(_) => y.pc.Calling?
    case ApplyReply(_, _) => y.pc.Applying?
    case ClaimHead(_, _, _, _) => y.pc == Scheduling
    case AbortRound => true
    case CreateRequest(o, gpuIds, _) => o !in y.used && ValidRequest(gpuIds)
    case StartRequest(o, _) => o in y.rows && o.kind == Deployment
    case StopRequest(o) => o in y.rows && o.kind == Deployment
    case UpdateRequest(o, gpuIds) => o in y.rows && o.kind == Deployment && ValidRequest(gpuIds)
    case TerminateRequest(o) => o in y.rows && o.kind == Training
    case CancelRequest(o) => o in y.rows && o.kind == Evaluation
    case DeleteRequest(o, _) => o in y.rows && TerminalRow(o, y.rows[o])
    case AgentRestart => true
    case AgentDrift(o, v) => AgentRuns.DriftAllowed(y.agent.containers, o, v)
  }

  ghost function Next(y: System, e: Event, cfg: Config): System
    requires Enabled(y, e)
  {
    match e
    case BeginRound(order) =>
      y.(pc := Working(seq(|order|, i requires 0 <= i < |order| => SnapshotOf(order[i], y.rows[order[i]]))))
    case NextWorkload =>
      var s := y.pc.todo[0];
      y.(pc := Calling(s, FirstAction(s), NoExecution, y.pc.todo[1..]))
    case FinishWorkloads(now) => y.(leases := ReapTerminal(y.rows, y.leases, now), pc := Scheduling)
    case Rpc(x) =>
      var (s, action) := (y.pc.s, y.pc.action);
      var (agent, reply) := Call(y.agent, CommandOf(s, action, y.pc.execution, y.nextRequest), x, cfg);
      y.(agent := agent, nextRequest := y.nextRequest + 1, pc := Applying(s, action, reply, y.pc.todo),
         issued := if action == Start then y.issued + multiset{s.owner} else y.issued)
    case ApplyReply(artifactsValid, now) => Applied(y, artifactsValid, now, cfg)
    case ClaimHead(preflight, execution, now, group) =>
      var (rows, leases, result) := Claim(y.rows, y.leases, preflight, now, cfg.ttl, group);
      y.(rows := rows, leases := leases,
         pc := match result
               case Claimed(s) => Calling(s, Start, execution, [])
               case PreflightFailed(_) => Scheduling
               case _ => Idle)
    case AbortRound => y.(pc := Idle)
    case CreateRequest(o, gpuIds, now) => y.(rows := y.rows[o := NewRow(gpuIds, now)], used := y.used + {o})
    case StartRequest(o, now) => y.(rows := y.rows[o := StartedDeployment(y.rows[o], now)])
    case StopRequest(o) => y.(rows := y.rows[o := StoppedDeployment(y.rows[o])])
    case UpdateRequest(o, gpuIds) => y.(rows := y.rows[o := UpdatedDeployment(o, y.rows[o], gpuIds)])
    case TerminateRequest(o) => y.(rows := y.rows[o := TerminatedTraining(o, y.rows[o])])
    case CancelRequest(o) => y.(rows := y.rows[o := CanceledEvaluation(o, y.rows[o])])
    case DeleteRequest(o, x) =>
      var (agent, reply) := Call(y.agent, CleanupOf(o, y.rows[o], y.nextRequest), x, cfg);
      var confirmed := reply.Answer? && reply.response.accepted && reply.response.observed == ObservedAbsent;
      y.(agent := agent, nextRequest := y.nextRequest + 1,
         rows := if confirmed then y.rows - {o} else y.rows,
         leases := if confirmed then ReleaseAll(y.leases, o) else y.leases)
    case AgentRestart => y.(agent := Reloaded(y.agent))
    case AgentDrift(o, v) => y.(agent := y.agent.(containers := AgentRuns.Drifted(y.agent.containers, o, v)))
  }

  /** A lost answer changes no row that the protocol reads; a refused START fails its row; any other
      answer is applied as an observation. */
  function Applied(y: System, artifactsValid: bool, now: int, cfg: Config): System
    requires y.pc.Applying?
  {
    var (s, action, reply, todo) := (y.pc.s, y.pc.action, y.pc.reply, y.pc.todo);
    var (rows, leases) :=
      if reply.NoAnswer? then (y.rows, y.leases)
      else if action == Start && !reply.response.accepted then FailStart(y.rows, y.leases, s)
      else Observe(y.rows, y.leases, s, reply.response, artifactsValid, now, cfg.ttl);
    y.(rows := rows, leases := leases,
       pc := if action == Start then Scheduling
             else if StopFollows(s, action, reply) then Calling(s, Stop, NoExecution, todo)
             else Working(todo))
  }

  // ---- What one step does ----

  /** What is sent: the instance of the snapshot, or of the row that is deleted, with an execution on START alone. */
  lemma CommandsAreOfTheInstance(s: Snapshot, action: Action, execution: Execution, o: Owner, r: Row, requestId: nat)
    ensures var c := CommandOf(s, action, execution, requestId);
            && c.requestId == requestId && c.action == action && c.owner == s.owner
            && c.generation == s.generation && c.gpuIds == s.gpuIds
            && (action == Start ==> c.execution == execution) && (action != Start ==> c.execution == NoExecution)
    ensures var c := CleanupOf(o, r, requestId);
            && c.requestId == requestId && c.action == Stop && c.execution == CleanupTerminal && c.owner == o
            && c.generation == SnapshotOf(o, r).generation && c.gpuIds == r.gpuIds
  {
  }

  /** A call that is not executed leaves the agent alone; one that is executed acts there, whether or not its answer
      arrives, and only an answer that arrives is learnt. */
  lemma CallsHaveTheirFate(a: Agent, c: Command, x: Exchange, cfg: Config)
    ensures var (a', reply) := Call(a, c, x, cfg);
            var (acted, answer) := Execute(a, c, x.docker, cfg.settings, x.oldest, x.crash);
            && (x.fate == NotExecuted ==> a' == a && reply == NoAnswer)
            && (x.fate == AnswerLost ==> a' == acted && reply == NoAnswer)
            && (x.fate == Delivered ==> a' == acted && reply == answer)
  {
  }

  /** A row that is to be deleted goes, with all its leases, exactly when the clean-up call was answered by an accepted
      ABSENT; otherwise both stay. */
  lemma DeletionsAreConfirmed(y: System, o: Owner, x: Exchange, cfg: Config)
    requires Enabled(y, DeleteRequest(o, x))
    ensures var y' := Next(y, DeleteRequest(o, x), cfg);
            var command := Command(y.nextRequest, Stop, o, EffectiveGeneration(y.rows[o]), y.rows[o].gpuIds, CleanupTerminal);
            var (acted, answer) := Execute(y.agent, command, x.docker, cfg.settings, x.oldest, x.crash);
            var confirmed := && x.fate == Delivered && answer.Answer?
                             && answer.response.accepted && answer.response.observed == ObservedAbsent;
            && y'.agent == (if x.fate == NotExecuted then y.agent else acted)
            && (o !in y'.rows <==> confirmed) && (forall p <- y.rows :: p != o ==> p in y'.rows && y'.rows[p] == y.rows[p])
            && (!confirmed ==> y'.rows == y.rows && y'.leases == y.leases)
            && (confirmed ==> forall g :: g in y'.leases <==> g in y.leases && y.leases[g].owner != o)
            && y'.issued == y.issued && y'.pc == y.pc
  {
  }

  /** Sending one call: the reconciler then has its answer in hand, request ids are not used again, and a START is counted. */
  lemma CallsAreSent(y: System, x: Exchange, cfg: Config)
    requires Enabled(y, Rpc(x))
    ensures var y' := Next(y, Rpc(x), cfg);
            var (s, action) := (y.pc.s, y.pc.action);
            var execution := if action == Start then y.pc.execution else NoExecution;
            var (acted, answer) :=
              Execute(y.agent, Command(y.nextRequest, action, s.owner, s.generation, s.gpuIds, execution),
                      x.docker, cfg.settings, x.oldest, x.crash);
            && y'.agent == (if x.fate == NotExecuted then y.agent else acted)
            && y'.pc == Applying(s, action, if x.fate == Delivered then answer else NoAnswer, y.pc.todo)
            && y'.nextRequest > y.nextRequest && y'.rows == y.rows && y'.leases == y.leases
            && y'.issued == (if action == Start then y.issued + multiset{s.owner} else y.issued)
  {
  }

  /** Applying what one call was answered: nothing for a lost answer; a refused START fails its row and gives its cards
      back; anything else is taken over as an observation.  After a START the next head is looked at; after the probe of
      a terminating training job that is alive, the same job is stopped; else the next workload is inspected. */
  lemma AnswersAreApplied(y: System, artifactsValid: bool, now: int, cfg: Config)
    requires Enabled(y, ApplyReply(artifactsValid, now))
    ensures var y' := Next(y, ApplyReply(artifactsValid, now), cfg);
            var (s, action, reply, todo) := (y.pc.s, y.pc.action, y.pc.reply, y.pc.todo);
            var live := && s.owner.kind == Training && s.desired == WantStopped && action == Status && reply.Answer?
                        && reply.response.accepted
                        && reply.response.observed in {ObservedStarting, ObservedRunning, ObservedStopping};
            && y'.agent == y.agent && y'.issued == y.issued
            && (reply == NoAnswer ==> y'.rows == y.rows && y'.leases == y.leases)
            && (action == Start && reply.Answer? && !reply.response.accepted ==>
                  (y'.rows, y'.leases) == FailStart(y.rows, y.leases, s))
            && (reply.Answer? && (action != Start || reply.response.accepted) ==>
                  (y'.rows, y'.leases) == Observe(y.rows, y.leases, s, reply.response, artifactsValid, now, cfg.ttl))
            && (action == Start ==> y'.pc == Scheduling)
            && (action != Start && live ==> y'.pc == Calling(s, Stop, NoExecution, todo))
            && (action != Start && !live ==> y'.pc == Working(todo))
  {
  }

  /** An inspection begins with the call of its workload, and a round claims the head of the queue until there is
      nothing to claim, the head is blocked, or something is wrong. */
  lemma RoundsGoOn(y: System, preflight: Preflight, execution: Execution, now: int, group: nat, cfg: Config)
    ensures Enabled(y, NextWorkload) ==>
              var (y', s) := (Next(y, NextWorkload, cfg), y.pc.todo[0]);
              && y' == y.(pc := y'.pc)
              && (s.desired == WantRunning || s.owner.kind == Training ==>
                    y'.pc == Calling(s, Status, NoExecution, y.pc.todo[1..]))
              && (s.desired == WantStopped && s.owner.kind != Training ==>
                    y'.pc == Calling(s, Stop, NoExecution, y.pc.todo[1..]))
    ensures Enabled(y, ClaimHead(preflight, execution, now, group)) ==>
              var y' := Next(y, ClaimHead(preflight, execution, now, group), cfg);
              var result := Claim(y.rows, y.leases, preflight, now, cfg.ttl, group).2;
              && y'.agent == y.agent && y'.issued == y.issued
              && (result.Claimed? ==> y'.pc == Calling(result.snapshot, Start, execution, []))
              && (result.PreflightFailed? ==> y'.pc == Scheduling)
              && (!result.Claimed? && !result.PreflightFailed? ==> y'.pc == Idle)
  {
  }

  /** Requests, restarts and aborted rounds may come at any time, and a round may begin whenever the reconciler is idle. */
  lemma NothingIsRuledOut(y: System, o: Owner, gpuIds: seq<Gpu>, now: int, order: seq<Owner>, x: Exchange)
    ensures Enabled(y, AbortRound) && Enabled(y, AgentRestart)
    ensures o !in y.used && gpuIds != [] && Distinct(gpuIds) && (forall i :: 0 <= i < |gpuIds| ==> gpuIds[i].index >= 0) ==>
              Enabled(y, CreateRequest(o, gpuIds, now))
    ensures o in y.rows && o.kind == Deployment ==> Enabled(y, StartRequest(o, now)) && Enabled(y, StopRequest(o))
    ensures o in y.rows && o.kind == Training ==> Enabled(y, TerminateRequest(o))
    ensures o in y.rows && o.kind == Evaluation ==> Enabled(y, CancelRequest(o))
    ensures o in y.rows && o.kind == Deployment && y.rows[o].actual in {Created, Stopped, Failed} ==> Enabled(y, DeleteRequest(o, x))
    ensures o in y.rows && o.kind != Deployment && y.rows[o].actual in {Canceled, Succeeded, Failed} ==> Enabled(y, DeleteRequest(o, x))
    ensures y.pc == Idle && (forall i, j :: 0 <= i < j < |order| ==> order[i] != order[j])
            && (forall p :: p in order <==> p in y.rows && ActiveRow(p, y.rows[p])) ==>
              Enabled(y, BeginRound(order))
  {
  }

  ghost predicate Run(states: seq<System>, events: seq<Event>, cfg: Config) {
    && |states| == |events| + 1 && states[0] == INITIAL
    && forall i {:trigger events[i]} :: 0 <= i < |events| ==>
         Enabled(states[i], events[i]) && states[i + 1] == Next(states[i], events[i], cfg)
  }

  /** The snapshots the reconciler still holds, the one in hand first. */
  function Snapshots(pc: Pc): seq<Snapshot> {
    match pc
    case Working(todo) => todo
    case Calling(s, _, _, todo) => [s] + todo
    case Applying(s, _, _, todo) => [s] + todo
    case _ => []
  }

  ghost predicate DistinctOwners(held: seq<Snapshot>) {
    forall i, j :: 0 <= i < j < |held| ==> held[i].owner != held[j].owner
  }
}
