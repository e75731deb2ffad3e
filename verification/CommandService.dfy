/** The agent's command processor: a crash-persistent generation watermark, start bindings and a
    request cache in front of the container operations. */
module CommandService {
  import opened Contract
  import opened DockerRunner

  const MAX_CACHED_REQUESTS := 2048

  datatype Cached = Cached(command: Command, result: Response)

  /** The content of the state file.  A start is bound to its whole body, that is, to the command
      without its request id. */
  datatype Store = Store(generations: map<Owner, Generation>, starts: map<Owner, Command>, requests: map<nat, Cached>)

  function Watermark(s: Store, o: Owner): nat {
    if o in s.generations then s.generations[o] else 0
  }

  function Body(c: Command): Command {
    c.(requestId := 0)
  }

  function Advance(s: Store, o: Owner, generation: Generation): Store {
    if generation > Watermark(s, o) then s.(generations := s.generations[o := generation]) else s
  }

  predicate BindingConflicts(s: Store, c: Command) {
    c.owner in s.starts && s.starts[c.owner].generation == c.generation && s.starts[c.owner] != Body(c)
  }

  function BindStart(s: Store, c: Command): Store {
    Advance(s.(starts := s.starts[c.owner := Body(c)]), c.owner, c.generation)
  }

  function PutRequest(s: Store, c: Command, result: Response, oldest: nat): Store {
    var requests := s.requests[c.requestId := Cached(c, result)];
    s.(requests := if |requests| > MAX_CACHED_REQUESTS then requests - {oldest} else requests)
  }

  /** The watermarks after the bindings of `owners` have been taken into account. */
  function Lifted(s: Store, owners: set<Owner>): map<Owner, Generation>
    requires owners <= s.starts.Keys
  {
    map o | o in s.generations.Keys + owners ::
      if o in owners && s.starts[o].generation > Watermark(s, o) then s.starts[o].generation else s.generations[o]
  }

  /** Reloading the file takes the larger of the stored watermark and the bound start generation. */
  function Load(s: Store): Store {
    s.(generations := Lifted(s, s.starts.Keys))
  }

  lemma LiftOne(s: Store, owners: set<Owner>, o: Owner)
    requires owners <= s.starts.Keys && o in s.starts && o !in owners
    ensures var l := Lifted(s, owners);
            Lifted(s, owners + {o})
            == l[o := if o in l && l[o] >= s.starts[o].generation then l[o] else s.starts[o].generation]
  {
  }

  // ---- Dispatch ----

  function ExpectedRunner(kind: OwnerType): Runner {
    match kind
    case Deployment => Vllm
    case Training => LlamaFactory
    case Evaluation => EvaluationRunner
  }

  /** Turn a container reading into an observed state, stopping a failed inference container first. */
  function Respond(cs: Containers, o: Owner, c: Container, d: Docker, s: Settings)
    : (Containers, Outcome<WorkloadState>)
  {
    var read := StateFromVitals(o.kind, c.vitals);
    var failing := o.kind == Deployment && read == ObservedStarting && InferenceFailed(c.vitals, d.now, s);
    var (cs', quiet) := if failing then Quiesce(cs, o, c.generation, d) else (cs, false);
    var state := if failing && quiet then ObservedFailed else read;
    var readsMetadata := o.kind == Training || (o.kind == Evaluation && state == ObservedSucceeded);
    (cs', if readsMetadata && !d.metadataReadable then Invalid else Value(state))
  }

  function StartWorkload(cs: Containers, c: Command, d: Docker, s: Settings)
    : (Containers, Outcome<WorkloadState>)
  {
    if !(c.execution.Launch? && c.execution.runner == ExpectedRunner(c.owner.kind)) then (cs, Invalid)
    else
      var (prepared, existing) := PrepareStart(cs, c.owner, c.generation, d);
      match existing
      case Value(Some(container)) => Respond(prepared, c.owner, container, d, s)
      case Value(None) =>
        if !c.execution.wellFormed then (prepared, Malformed)
        else if c.owner.kind != Training && c.execution.tensorParallel != |c.gpuIds| then (prepared, Invalid)
        else
          var (launched, r) := LaunchContainer(prepared, c.owner, c.generation, c.gpuIds, d, s);
          if r.Value? then Respond(launched, c.owner, r.value, d, s) else (launched, Failure(r))
      case _ => (prepared, Failure(existing))
  }

  function StopWorkload(cs: Containers, c: Command, d: Docker, s: Settings)
    : (Containers, Outcome<WorkloadState>)
  {
    var (stopped, r) := StopContainer(cs, c.owner, c.generation, d);
    match r
    case NotFound => (stopped, Value(ObservedAbsent))
    case Value(None) => (stopped, Value(ObservedAbsent))
    case Value(Some(container)) => Respond(stopped, c.owner, container, d, s)
    case _ => (stopped, Failure(r))
  }

  function CleanupWorkload(cs: Containers, c: Command, d: Docker): (Containers, Outcome<WorkloadState>) {
    var (cleaned, r) := CleanupContainer(cs, c.owner, c.generation, d);
    (cleaned, if r.Value? then Value(ObservedAbsent) else Failure(r))
  }

  function ObserveWorkload(cs: Containers, c: Command, d: Docker, s: Settings): (Containers, Outcome<WorkloadState>) {
    if !d.lookup then (cs, Raised)
    else if c.owner !in cs then (cs, Value(ObservedAbsent))
    else if cs[c.owner].generation != c.generation then (cs, Conflict)
    else Respond(cs, c.owner, cs[c.owner], d, s)
  }

  /** The same error at another result type. */
  function Failure<T, U>(r: Outcome<T>): (e: Outcome<U>)
    requires !r.Value?
  {
    match r
    case NotFound => NotFound
    case Invalid => Invalid
    case Malformed => Malformed
    case Conflict => Conflict
    case Raised => Raised
  }

  function Dispatch(cs: Containers, c: Command, d: Docker, s: Settings): (Containers, Outcome<WorkloadState>) {
    match c.action
    case Start => StartWorkload(cs, c, d, s)
    case Stop =>
      if c.execution == CleanupTerminal then CleanupWorkload(cs, c, d)
      else if c.execution != NoExecution then (cs, Malformed)
      else StopWorkload(cs, c, d, s)
    case Status => if c.execution != NoExecution then (cs, Invalid) else ObserveWorkload(cs, c, d, s)
  }

  function Rejected(c: Command, error: ErrorCode): Response {
    Response(c.requestId, false, ObservedFailed, error)
  }

  /** The reply to a dispatched command; an error the processor does not catch yields no answer. */
  function ReplyTo(c: Command, r: Outcome<WorkloadState>): Reply {
    match r
    case Value(state) => Answer(Response(c.requestId, true, state, NoError))
    case Invalid => Answer(Rejected(c, InvalidWorkload))
    case Malformed => Answer(Rejected(c, InvalidExecution))
    case Conflict => Answer(Rejected(c, WorkloadConflict))
    case NotFound => NoAnswer
    case Raised => NoAnswer
  }

  // ---- Executing one command, with a crash possible between any two steps ----

  datatype CrashPoint = NoCrash | BeforeStatePersist | AfterStatePersist | AfterDispatch | BeforeCachePersist

  /** The agent: memory, state file, containers, and (for the proofs) every body ever dispatched. */
  datatype Agent = Agent(memory: Store, disk: Store, containers: Containers, dispatched: set<Command>)

  function Reloaded(a: Agent): Agent {
    a.(memory := Load(a.disk))
  }

  function CacheAnswer(a: Agent, c: Command, result: Response, oldest: nat, crash: CrashPoint): (Agent, Reply) {
    if crash == BeforeCachePersist then (Reloaded(a), NoAnswer)
    else
      var store := PutRequest(a.memory, c, result, oldest);
      (a.(memory := store, disk := store), Answer(result))
  }

  /** The answers that touch nothing: a stale generation, a reused or a repeated request id. */
  function Screened(m: Store, c: Command): Option<Response> {
    if c.generation < Watermark(m, c.owner) then Some(Rejected(c, StaleGeneration))
    else if c.requestId in m.requests then
      if m.requests[c.requestId].command != c then Some(Rejected(c, RequestIdReused))
      else Some(m.requests[c.requestId].result)
    else None
  }

  /** Persist the watermark, run the command (here: its effect and outcome), record the answer. */
  function Settle(
    a: Agent, c: Command, containers: Containers, r: Outcome<WorkloadState>, oldest: nat, crash: CrashPoint
  ): (Agent, Reply)
  {
    var bound := if c.action == Start then BindStart(a.memory, c) else Advance(a.memory, c.owner, c.generation);
    var persisted := a.(memory := bound, disk := if bound != a.memory then bound else a.disk);
    var done := persisted.(containers := containers, dispatched := a.dispatched + {Body(c)});
    if crash == BeforeStatePersist then (Reloaded(a), NoAnswer)
    else if crash == AfterStatePersist then (Reloaded(persisted), NoAnswer)
    else if crash == AfterDispatch then (Reloaded(done), NoAnswer)
    else if ReplyTo(c, r).Answer? then CacheAnswer(done, c, ReplyTo(c, r).response, oldest, crash)
    else (done, NoAnswer)
  }

  function Execute(a: Agent, c: Command, d: Docker, s: Settings, oldest: nat, crash: CrashPoint): (Agent, Reply) {
    if Screened(a.memory, c).Some? then (a, Answer(Screened(a.memory, c).value))
    else if c.action == Start && BindingConflicts(a.memory, c) then
      CacheAnswer(a, c, Rejected(c, GenerationReused), oldest, crash)
    else
      var (containers, r) := Dispatch(a.containers, c, d, s);
      Settle(a, c, containers, r, oldest, crash)
  }

  // ---- The processor as the program runs it ----

  class CommandStateStore {
    var generations: map<Owner, Generation>
    var starts: map<Owner, Command>
    var requests: map<nat, Cached>
    var file: Store

    ghost function Memory(): Store
      reads this
    {
      Store(generations, starts, requests)
    }

    constructor (existing: Store)
      ensures Memory() == Load(existing) && file == existing
    {
      generations := map[];
      starts := map[];
      requests := map[];
      file := existing;
      new;
      Reload();
    }

    /** Read the file back, raising each watermark to the generation of the bound start. */
    method Reload()
      modifies this
      ensures Memory() == Load(file) && file == old(file)
    {
      generations := file.generations;
      starts := file.starts;
      requests := file.requests;
      var todo := starts.Keys;
      while todo != {}
        invariant todo <= starts.Keys
        invariant starts == file.starts && requests == file.requests && file == old(file)
        invariant generations == Lifted(file, starts.Keys - todo)
        decreases todo
      {
        var o :| o in todo;
        LiftOne(file, starts.Keys - todo, o);
        assert starts.Keys - (todo - {o}) == starts.Keys - todo + {o};
        var stored := if o in generations then generations[o] else 0;
        generations := generations[o := if starts[o].generation > stored then starts[o].generation else stored];
        todo := todo - {o};
      }
    }

    method Persist()
      modifies this`file
      ensures file == Memory()
    {
      file := Store(generations, starts, requests);
    }

    method GenerationOf(o: Owner) returns (generation: nat)
      ensures generation == Watermark(Memory(), o)
    {
      generation := if o in generations then generations[o] else 0;
    }

    method AdvanceGeneration(o: Owner, generation: Generation)
      modifies this
      ensures Memory() == Advance(old(Memory()), o, generation)
      ensures file == if Memory() != old(Memory()) then Memory() else old(file)
    {
      var current := GenerationOf(o);
      if generation > current {
        generations := generations[o := generation];
        Persist();
        assert Watermark(Memory(), o) != old(Watermark(Memory(), o));
      }
    }

    method Bind(c: Command) returns (conflict: bool)
      modifies this
      ensures conflict <==> old(BindingConflicts(Memory(), c))
      ensures conflict ==> Memory() == old(Memory()) && file == old(file)
      ensures !conflict ==> Memory() == BindStart(old(Memory()), c)
      ensures !conflict ==> file == if Memory() != old(Memory()) then Memory() else old(file)
    {
      var o := c.owner;
      ghost var before := Memory();
      if o in starts && starts[o].generation == c.generation {
        if starts[o] != Body(c) { return true; }
        assert starts[o := Body(c)] == starts;
        AdvanceGeneration(o, c.generation);
        return false;
      }
      starts := starts[o := Body(c)];
      assert Memory() == before.(starts := before.starts[o := Body(c)]);
      assert Memory().starts != before.starts;
      var current := GenerationOf(o);
      if c.generation > current {
        generations := generations[o := c.generation];
      }
      Persist();
      conflict := false;
    }

    method Put(c: Command, result: Response, oldest: nat)
      modifies this
      ensures Memory() == PutRequest(old(Memory()), c, result, oldest) && file == Memory()
    {
      requests := requests[c.requestId := Cached(c, result)];
      if |requests| > MAX_CACHED_REQUESTS {
        requests := requests - {oldest};
      }
      Persist();
    }
  }

  class CommandProcessor {
    const store: CommandStateStore
    const runner: WorkloadRunner

    ghost function View(dispatched: set<Command>): Agent
      reads store, runner
    {
      Agent(store.Memory(), store.file, runner.containers, dispatched)
    }

    constructor (store: CommandStateStore, runner: WorkloadRunner)
      ensures this.store == store && this.runner == runner
    {
      this.store := store;
      this.runner := runner;
    }

    method RespondFromInfo(o: Owner, c: Container, d: Docker) returns (r: Outcome<WorkloadState>)
      modifies runner
      ensures (runner.containers, r) == Respond(old(runner.containers), o, c, d, runner.settings)
    {
      var state := StateFromVitals(o.kind, c.vitals);
      if o.kind == Deployment && state == ObservedStarting && InferenceFailed(c.vitals, d.now, runner.settings) {
        var quiet := runner.QuiesceFailedInference(o, c.generation, d);
        if quiet { state := ObservedFailed; }
      }
      if (o.kind == Training || (o.kind == Evaluation && state == ObservedSucceeded)) && !d.metadataReadable {
        return Invalid;
      }
      r := Value(state);
    }

    method StartCommand(c: Command, d: Docker) returns (r: Outcome<WorkloadState>)
      modifies runner
      ensures (runner.containers, r) == StartWorkload(old(runner.containers), c, d, runner.settings)
    {
      if !(c.execution.Launch? && c.execution.runner == ExpectedRunner(c.owner.kind)) { return Invalid; }
      var existing := runner.PrepareContractStart(c.owner, c.generation, d);
      if !existing.Value? { return Failure(existing); }
      if existing.value.Some? {
        r := RespondFromInfo(c.owner, existing.value.value, d);
        return;
      }
      if !c.execution.wellFormed { return Malformed; }
      if c.owner.kind != Training && c.execution.tensorParallel != |c.gpuIds| { return Invalid; }
      var launched := runner.LaunchWorkload(c.owner, c.generation, c.gpuIds, d);
      if !launched.Value? { return Failure(launched); }
      r := RespondFromInfo(c.owner, launched.value, d);
    }

    method StopCommand(c: Command, d: Docker) returns (r: Outcome<WorkloadState>)
      modifies runner
      ensures (runner.containers, r) == StopWorkload(old(runner.containers), c, d, runner.settings)
    {
      var stopped := runner.StopContractWorkload(c.owner, c.generation, d);
      if stopped == NotFound { return Value(ObservedAbsent); }
      if !stopped.Value? { return Failure(stopped); }
      if stopped.value.Some? {
        r := RespondFromInfo(c.owner, stopped.value.value, d);
        return;
      }
      r := Value(ObservedAbsent);
    }

    method DispatchCommand(c: Command, d: Docker) returns (r: Outcome<WorkloadState>)
      modifies runner
      ensures (runner.containers, r) == Dispatch(old(runner.containers), c, d, runner.settings)
    {
      match c.action {
        case Start => r := StartCommand(c, d);
        case Stop =>
          if c.execution == CleanupTerminal {
            var cleaned := runner.CleanupContractWorkload(c.owner, c.generation, d);
            r := if cleaned.Value? then Value(ObservedAbsent) else Failure(cleaned);
          } else if c.execution != NoExecution {
            r := Malformed;
          } else {
            r := StopCommand(c, d);
          }
        case Status =>
          if c.execution != NoExecution { return Invalid; }
          if !d.lookup { return Raised; }
          if c.owner !in runner.containers { return Value(ObservedAbsent); }
          var container := runner.containers[c.owner];
          if container.generation != c.generation { return Conflict; }
          r := RespondFromInfo(c.owner, container, d);
      }
    }

    method ExecuteCommand(c: Command, d: Docker, oldest: nat, ghost dispatched: set<Command>)
      returns (reply: Reply, ghost dispatched': set<Command>)
      modifies store, runner
      ensures (View(dispatched'), reply) == Execute(old(View(dispatched)), c, d, runner.settings, oldest, NoCrash)
    {
      dispatched' := dispatched;
      var current := store.GenerationOf(c.owner);
      if c.generation < current {
        return Answer(Rejected(c, StaleGeneration)), dispatched;
      }
      if c.requestId in store.requests {
        var cached := store.requests[c.requestId];
        if cached.command != c { return Answer(Rejected(c, RequestIdReused)), dispatched; }
        return Answer(cached.result), dispatched;
      }
      if c.action == Start {
        var conflict := store.Bind(c);
        if conflict {
          store.Put(c, Rejected(c, GenerationReused), oldest);
          return Answer(Rejected(c, GenerationReused)), dispatched;
        }
      } else {
        store.AdvanceGeneration(c.owner, c.generation);
      }
      var r := DispatchCommand(c, d);
      dispatched' := dispatched + {Body(c)};
      reply := ReplyTo(c, r);
      if reply.Answer? {
        store.Put(c, reply.response, oldest);
      }
    }
  }
}
