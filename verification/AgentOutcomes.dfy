/** What one command comes to at the agent, outcome by outcome: what is answered, what is left of the containers,
    and what memory and file hold when the agent crashes on the way. */
module AgentOutcomes {
  import opened Contract
  import opened DockerRunner
  import opened CommandService
  import AgentRuns

  // ---- Readings ----

  /** A deployment that is up but not ready, or not up yet. */
  predicate NotReady(o: Owner, v: Vitals) {
    o.kind == Deployment
    && (v.status in {Created, Restarting, Paused} || (v.status == ContainerStatus.Running && v.health != Some(Healthy)))
  }

  /** A container is read as it is, unless it is an inference container that has failed before it was ready, which is
      stopped and read as failed once it is known to be quiet.  What a training job has left is read in every state of
      it, what an evaluation has left when it has succeeded; if that cannot be read, the answer is an error. */
  lemma ReadingsAreAnswered(cs: Containers, o: Owner, c: Container, d: Docker, s: Settings)
    ensures var (cs', r) := Respond(cs, o, c, d, s);
            var read := StateFromVitals(o.kind, c.vitals);
            && (o.kind == Training ==> cs' == cs && r == if d.metadataReadable then Value(read) else Invalid)
            && (o.kind == Evaluation ==> cs' == cs && (r == Invalid || r == Value(read)))
            && (o.kind == Evaluation ==>
                  (r == Invalid <==> c.vitals.status == Exited && c.vitals.exitCode == Some(0) && !d.metadataReadable))
            && (o.kind == Deployment && !(NotReady(o, c.vitals) && InferenceFailed(c.vitals, d.now, s)) ==>
                  cs' == cs && r == Value(read))
            && (NotReady(o, c.vitals) && InferenceFailed(c.vitals, d.now, s) ==>
                  && cs' == Quiesce(cs, o, c.generation, d).0
                  && (Quiesce(cs, o, c.generation, d).1 ==> r == Value(ObservedFailed))
                  && (!Quiesce(cs, o, c.generation, d).1 ==> r == Value(ObservedStarting)))
  {
  }

  // ---- START ----

  /** The execution names the runner of its kind of workload. */
  predicate RightRunner(c: Command) {
    && c.execution.Launch?
    && (c.owner.kind == Deployment ==> c.execution.runner == Vllm)
    && (c.owner.kind == Training ==> c.execution.runner == LlamaFactory)
    && (c.owner.kind == Evaluation ==> c.execution.runner == EvaluationRunner)
  }

  predicate OlderAndEnded(cs: Containers, c: Command) {
    c.owner in cs && cs[c.owner].generation < c.generation && cs[c.owner].vitals.status in {Removing, Exited, Dead}
  }

  /** A START that finds a container of its owner: one of its generation is read, an older one that has ended makes
      room, and any other is in the way. */
  lemma StartsMeetContainers(cs: Containers, c: Command, d: Docker, s: Settings)
    requires c.action == Start && RightRunner(c)
    ensures var (cs', r) := Dispatch(cs, c, d, s);
            && (!d.lookup ==> cs' == cs && r == Raised)
            && (d.lookup && c.owner in cs && cs[c.owner].generation == c.generation ==>
                  (cs', r) == Respond(cs, c.owner, cs[c.owner], d, s))
            && (d.lookup && c.owner in cs && cs[c.owner].generation != c.generation && !OlderAndEnded(cs, c) ==>
                  cs' == cs && r == Conflict)
            && (d.lookup && OlderAndEnded(cs, c) && d.remove == Refused ==> cs' == cs && r == Raised)
            && (d.lookup && OlderAndEnded(cs, c) && d.remove == Lost ==> cs' == cs - {c.owner} && r == Raised)
  {
  }

  /** A START that has room: the execution is checked, then the number of cards against its tensor parallelism, which a
      training job does not have; then it is launched, and answered by the launch's error or by what the new
      container shows. */
  lemma StartsAreLaunched(cs: Containers, c: Command, d: Docker, s: Settings)
    requires c.action == Start && RightRunner(c)
    requires d.lookup && (c.owner !in cs || (OlderAndEnded(cs, c) && d.remove == Done))
    ensures var (cs', r) := Dispatch(cs, c, d, s);
            var room := cs - {c.owner};
            var fits := c.owner.kind == Training || c.execution.tensorParallel == |c.gpuIds|;
            var (launched, l) := LaunchContainer(room, c.owner, c.generation, c.gpuIds, d, s);
            && (!c.execution.wellFormed ==> cs' == room && r == Malformed)
            && (c.execution.wellFormed && !fits ==> cs' == room && r == Invalid)
            && (c.execution.wellFormed && fits && l.Value? ==> (cs', r) == Respond(launched, c.owner, l.value, d, s))
            && (c.execution.wellFormed && fits && !l.Value? ==>
                  && cs' == launched
                  && (l == Invalid ==> r == Invalid) && (l == Conflict ==> r == Conflict) && (l == Raised ==> r == Raised))
  {
    if c.owner !in cs { assert cs - {c.owner} == cs; }
    LaunchOutcomes(cs - {c.owner}, c.owner, c.generation, c.gpuIds, d, s);
  }

  // ---- STOP, clean-up and STATUS ----

  /** A STOP: ABSENT when there is nothing or nothing is left, the result of a job that is done, a conflict when the
      container is of another generation, and otherwise no answer. */
  lemma StopsAreAnswered(cs: Containers, c: Command, d: Docker, s: Settings)
    requires c.action == Stop && c.execution == NoExecution
    ensures var (cs', r) := Dispatch(cs, c, d, s);
            var (stopped, k) := StopContainer(cs, c.owner, c.generation, d);
            && cs' == stopped
            && (!d.lookup ==> r == Raised)
            && (d.lookup && c.owner !in cs ==> r == Value(ObservedAbsent))
            && (d.lookup && c.owner in cs && cs[c.owner].generation != c.generation ==> r == Conflict)
            && (k == Value(None) ==> r == Value(ObservedAbsent))
            && (k == Raised ==> r == Raised)
            && (k.Value? && k.value.Some? ==> r == if d.metadataReadable then Value(ObservedSucceeded) else Invalid)
  {
    StopOutcomes(cs, c.owner, c.generation, d);
    var (stopped, k) := StopContainer(cs, c.owner, c.generation, d);
    if k.Value? && k.value.Some? {
      ReadingsAreAnswered(stopped, c.owner, k.value.value, d, s);
    }
  }

  /** A clean-up: ABSENT when there is nothing or the ended container was removed, and a conflict when the container is
      of another generation, alive or being removed. */
  lemma CleanupsAreAnswered(cs: Containers, c: Command, d: Docker, s: Settings)
    requires c.action == Stop && c.execution == CleanupTerminal
    ensures var (cs', r) := Dispatch(cs, c, d, s);
            var ended := c.owner in cs && cs[c.owner].generation == c.generation && cs[c.owner].vitals.status in {Exited, Dead};
            && (r == Value(ObservedAbsent) <==> d.lookup && (c.owner !in cs || (ended && d.remove == Done)))
            && (r == Conflict <==> d.lookup && c.owner in cs && !ended)
            && (r == Raised <==> !d.lookup || (ended && d.remove != Done))
            && cs' == if d.lookup && ended && d.remove != Refused then cs - {c.owner} else cs
  {
    CleanupOutcomes(cs, c.owner, c.generation, d);
  }

  /** A STATUS, and what carries an execution it must not. */
  lemma LooksAreAnswered(cs: Containers, c: Command, d: Docker, s: Settings)
    requires c.action == Status
    ensures var (cs', r) := Dispatch(cs, c, d, s);
            && (c.execution != NoExecution ==> cs' == cs && r == Invalid)
            && (c.execution == NoExecution && !d.lookup ==> cs' == cs && r == Raised)
            && (c.execution == NoExecution && d.lookup && c.owner !in cs ==> cs' == cs && r == Value(ObservedAbsent))
            && (c.execution == NoExecution && d.lookup && c.owner in cs && cs[c.owner].generation != c.generation ==>
                  cs' == cs && r == Conflict)
            && (c.execution == NoExecution && d.lookup && c.owner in cs && cs[c.owner].generation == c.generation ==>
                  (cs', r) == Respond(cs, c.owner, cs[c.owner], d, s))
  {
  }

  lemma StopsCarryNothingElse(cs: Containers, c: Command, d: Docker, s: Settings)
    requires c.action == Stop && (c.execution.Launch? || c.execution.OtherExecution?)
    ensures Dispatch(cs, c, d, s) == (cs, Malformed)
  {
  }

  // ---- Watermarks and bindings ----

  /** A watermark is the largest generation it was given; nothing else of the store moves. */
  lemma WatermarksAreMaxima(s: Store, o: Owner, generation: Generation, p: Owner)
    ensures var s' := Advance(s, o, generation);
            && s'.starts == s.starts && s'.requests == s.requests
            && o in s'.generations
            && s'.generations[o] == (if o in s.generations && s.generations[o] >= generation then s.generations[o] else generation)
            && (p != o ==> (p in s'.generations <==> p in s.generations) && (p in s.generations ==> s'.generations[p] == s.generations[p]))
    ensures Watermark(s, o) == if o in s.generations then s.generations[o] else 0
  {
  }

  /** What conflicts with a START that is bound: one for the same owner at the same generation that differs in its cards
      or its execution, but not one that differs in its request id alone. */
  lemma BindingsAreOfBodies(s: Store, c: Command, c': Command)
    requires c.action == Start && c'.action == Start
    ensures var bound := BindStart(s, c);
            && (c'.owner == c.owner ==>
                  (BindingConflicts(bound, c') <==>
                     c'.generation == c.generation && (c'.gpuIds != c.gpuIds || c'.execution != c.execution)))
            && (c'.owner != c.owner ==> (BindingConflicts(bound, c') <==> BindingConflicts(s, c')))
            && bound.requests == s.requests && bound.starts.Keys == s.starts.Keys + {c.owner}
            && (forall p <- s.starts :: p != c.owner ==> bound.starts[p] == s.starts[p])
    ensures c.owner !in s.starts || s.starts[c.owner].generation != c.generation ==> !BindingConflicts(s, c)
  {
  }

  // ---- The answers that touch nothing ----

  /** What is answered before anything is done: a command below the watermark, then a request id that was used for
      another command, then a command that was answered already. */
  lemma ScreeningIsInOrder(a: Agent, c: Command, d: Docker, s: Settings, oldest: nat, crash: CrashPoint)
    ensures var (a', reply) := Execute(a, c, d, s, oldest, crash);
            var outdated := c.owner in a.memory.generations && c.generation < a.memory.generations[c.owner];
            && (outdated ==> a' == a && reply == Answer(Response(c.requestId, false, ObservedFailed, StaleGeneration)))
            && (!outdated && c.requestId in a.memory.requests && a.memory.requests[c.requestId].command != c ==>
                  a' == a && reply == Answer(Response(c.requestId, false, ObservedFailed, RequestIdReused)))
            && (!outdated && c.requestId in a.memory.requests && a.memory.requests[c.requestId].command == c ==>
                  a' == a && reply == Answer(a.memory.requests[c.requestId].result))
            && (!outdated && c.requestId !in a.memory.requests ==> Screened(a.memory, c).None?)
  {
  }

  /** A START whose generation is bound to another body is refused; only the refusal is kept, and that unless the agent
      crashes before it is written. */
  lemma ReboundStartsAreRefused(a: Agent, c: Command, d: Docker, s: Settings, oldest: nat, crash: CrashPoint)
    requires Screened(a.memory, c).None? && c.action == Start && BindingConflicts(a.memory, c)
    ensures var (a', reply) := Execute(a, c, d, s, oldest, crash);
            && a'.containers == a.containers && a'.dispatched == a.dispatched
            && (crash == BeforeCachePersist ==> reply == NoAnswer && a'.disk == a.disk && a'.memory == Load(a.disk))
            && (crash != BeforeCachePersist ==>
                  && reply == Answer(Response(c.requestId, false, ObservedFailed, GenerationReused))
                  && a'.memory == a'.disk == PutRequest(a.memory, c, reply.response, oldest))
  {
  }

  // ---- Crashes ----

  /** What is left when the agent crashes while a command is settled, `bound` being the store with the new watermark. */
  lemma SettlingLeaves(
    a: Agent, c: Command, bound: Store, containers: Containers, r: Outcome<WorkloadState>, oldest: nat, crash: CrashPoint)
    requires a.memory == a.disk == Load(a.disk) && bound == Load(bound)
    requires bound == if c.action == Start then BindStart(a.memory, c) else Advance(a.memory, c.owner, c.generation)
    ensures var (a', reply) := Settle(a, c, containers, r, oldest, crash);
            && (crash == BeforeStatePersist ==> a' == a && reply == NoAnswer)
            && (crash == AfterStatePersist ==> a' == a.(memory := bound, disk := bound) && reply == NoAnswer)
            && (crash == AfterDispatch || crash == BeforeCachePersist ==>
                  a' == Agent(bound, bound, containers, a.dispatched + {Body(c)}) && reply == NoAnswer)
            && (crash == NoCrash ==>
                  && a'.memory == a'.disk && a'.containers == containers && a'.dispatched == a.dispatched + {Body(c)}
                  && a'.disk.generations == bound.generations && a'.disk.starts == bound.starts && reply == ReplyTo(c, r))
  {
  }

  /** What is left when the agent crashes: before the watermark is written, everything as it was; after that, the
      watermark, and the binding of a START; after the command was carried out, its effect as well, but not its answer,
      which is given exactly when there is no crash. */
  lemma CrashesLeave(a: Agent, c: Command, d: Docker, s: Settings, oldest: nat, crash: CrashPoint)
    requires AgentRuns.Inv(a) && Screened(a.memory, c).None? && !(c.action == Start && BindingConflicts(a.memory, c))
    ensures var (a', reply) := Execute(a, c, d, s, oldest, crash);
            var (containers, r) := Dispatch(a.containers, c, d, s);
            && (crash == BeforeStatePersist ==> a' == a)
            && (crash != BeforeStatePersist ==>
                  && a'.memory == a'.disk && c.owner in a'.disk.generations && a'.disk.generations[c.owner] == c.generation
                  && (c.action == Start ==> c.owner in a'.disk.starts && a'.disk.starts[c.owner] == Body(c))
                  && (c.action != Start ==> a'.disk.starts == a.disk.starts))
            && (crash in {BeforeStatePersist, AfterStatePersist} ==>
                  a'.containers == a.containers && a'.dispatched == a.dispatched)
            && (crash in {AfterDispatch, BeforeCachePersist, NoCrash} ==>
                  a'.containers == containers && a'.dispatched == a.dispatched + {Body(c)})
            && (crash != NoCrash ==> reply == NoAnswer && a'.disk.requests == a.disk.requests)
            && (crash == NoCrash ==> reply == ReplyTo(c, r))
  {
    var bound := if c.action == Start then BindStart(a.memory, c) else Advance(a.memory, c.owner, c.generation);
    var (containers, r) := Dispatch(a.containers, c, d, s);
    AgentRuns.BoundStoreFacts(a.memory, c);
    AgentRuns.ReloadIsIdentity(a.disk);
    AgentRuns.ReloadIsIdentity(bound);
    SettlingLeaves(a, c, bound, containers, r, oldest, crash);
  }

  /** Reloading takes for each owner the larger of the written watermark and the bound START, and nothing else changes. */
  lemma ReloadingIsExact(s: Store, o: Owner)
    ensures var s' := Load(s);
            && s'.starts == s.starts && s'.requests == s.requests
            && (o in s'.generations <==> o in s.generations || o in s.starts)
            && (o in s.generations && !(o in s.starts && s.starts[o].generation > s.generations[o]) ==> s'.generations[o] == s.generations[o])
            && (o in s.starts && (o !in s.generations || s.starts[o].generation > s.generations[o]) ==>
                  s'.generations[o] == s.starts[o].generation)
  {
  }
}
