/** What the node agent guarantees for every sequence of commands, however delayed, duplicated or
    reordered, with crashes and container changes in between. */
module AgentRuns {
  import opened Contract
  import opened DockerRunner
  import opened CommandService

  datatype Event =
    | Deliver(command: Command, docker: Docker, oldest: nat, crash: CrashPoint)
    | Drift(owner: Owner, vitals: Option<Vitals>)
    | Restart

  /** A container may change or vanish on its own, but one that is not active stays that way. */
  ghost predicate DriftAllowed(cs: Containers, o: Owner, v: Option<Vitals>) {
    o in cs && (v.Some? && ActiveStatus(v.value.status) ==> Active(cs[o]))
  }

  function Drifted(cs: Containers, o: Owner, v: Option<Vitals>): Containers
    requires o in cs
  {
    if v.Some? then cs[o := cs[o].(vitals := v.value)] else cs - {o}
  }

  ghost predicate Step(a: Agent, e: Event, a': Agent, s: Settings) {
    match e
    case Deliver(c, d, oldest, crash) => a' == Execute(a, c, d, s, oldest, crash).0
    case Drift(o, v) => DriftAllowed(a.containers, o, v) && a' == a.(containers := Drifted(a.containers, o, v))
    case Restart => a' == Reloaded(a)
  }

  ghost predicate Run(states: seq<Agent>, events: seq<Event>, s: Settings) {
    && |states| == |events| + 1
    && states[0] == Agent(Store(map[], map[], map[]), Store(map[], map[], map[]), map[], {})
    && forall i {:trigger events[i]} :: 0 <= i < |events| ==> Step(states[i], events[i], states[i + 1], s)
  }

  /** Any command, crash, restart or change of a container may follow any run. */
  lemma RunsGoOn(states: seq<Agent>, events: seq<Event>, c: Command, d: Docker, oldest: nat, crash: CrashPoint, s: Settings)
    requires Run(states, events, s)
    ensures var a' := Execute(states[|events|], c, d, s, oldest, crash).0;
            Run(states + [a'], events + [Deliver(c, d, oldest, crash)], s)
    ensures Run(states + [Reloaded(states[|events|])], events + [Restart], s)
    ensures forall o <- states[|events|].containers ::
              var a := states[|events|];
              Run(states + [a.(containers := a.containers - {o})], events + [Drift(o, None)], s)
    ensures var empty := Store(map[], map[], map[]);
            Run([Agent(empty, empty, map[], {})], [], s)
  {
  }

  // ---- The invariant ----

  /** Every bound start is at or below its owner's watermark, so reloading changes nothing. */
  ghost predicate Consistent(s: Store) {
    forall o <- s.starts :: s.starts[o].generation <= Watermark(s, o)
  }

  ghost predicate Durable(a: Agent) {
    && a.memory == a.disk && Consistent(a.disk)
    && (forall b {:trigger b in a.dispatched} :: b in a.dispatched ==> b.generation <= Watermark(a.disk, b.owner))
    && (forall b {:trigger b in a.dispatched} :: b in a.dispatched && b.action == Start ==>
          b.owner in a.disk.starts && (a.disk.starts[b.owner] == b || a.disk.starts[b.owner].generation > b.generation))
  }

  ghost predicate OneBody(bodies: set<Command>) {
    forall b, c {:trigger b in bodies, c in bodies} :: 
      (&& b in bodies && c in bodies && b.action == Start && c.action == Start
       && b.owner == c.owner && b.generation == c.generation) ==> b == c
  }

  ghost predicate UnderWatermark(cs: Containers, m: Store) {
    forall o <- cs :: cs[o].generation <= Watermark(m, o)
  }

  ghost predicate Inv(a: Agent) {
    Durable(a) && OneBody(a.dispatched) && UnderWatermark(a.containers, a.memory) && Exclusive(a.containers)
  }

  lemma ReloadIsIdentity(s: Store)
    requires Consistent(s)
    ensures Load(s) == s
  {
    assert Load(s).generations == s.generations;
  }

  /** Whatever file is found, including one written by a version that persisted a start before its
      watermark, the reloaded watermark covers every stored watermark and every bound start. */
  lemma ReloadCoversBindings(s: Store, o: Owner)
    ensures Watermark(Load(s), o) >= Watermark(s, o)
    ensures o in s.starts ==> Watermark(Load(s), o) >= s.starts[o].generation
    ensures Watermark(Load(s), o) == Watermark(s, o) || (o in s.starts && Watermark(Load(s), o) == s.starts[o].generation)
    ensures Consistent(Load(s))
  {
  }

  // ---- Container operations seen as a whole ----

  /** A map of containers changed only at `o`, and the entry there is gone, keeps its labels, or is a
      launch at the command's generation. */
  ghost predicate OnlyTouches(cs: Containers, cs': Containers, o: Owner, generation: Generation) {
    && (forall p :: p != o ==> ((p in cs <==> p in cs') && (p in cs ==> cs'[p] == cs[p])))
    && (o in cs' ==>
          || (o in cs && cs'[o].generation == cs[o].generation && cs'[o].gpus == cs[o].gpus)
          || cs'[o].generation == generation)
  }

  /** No container of `o` is woken up. */
  ghost predicate NoneWoken(cs: Containers, cs': Containers, o: Owner) {
    ActiveFor(cs', o) ==> ActiveFor(cs, o) && cs'[o].gpus == cs[o].gpus && cs'[o].generation == cs[o].generation
  }

  lemma QuieteningKeepsExclusive(cs: Containers, cs': Containers, o: Owner, generation: Generation)
    requires Exclusive(cs) && OnlyTouches(cs, cs', o, generation) && NoneWoken(cs, cs', o)
    ensures Exclusive(cs')
  {
    forall a, b | ActiveFor(cs', a) && ActiveFor(cs', b) && a != b ensures cs'[a].gpus * cs'[b].gpus == {} {
      assert ActiveFor(cs, a) && ActiveFor(cs, b);
    }
  }

  lemma RespondFrame(cs: Containers, o: Owner, c: Container, d: Docker, s: Settings)
    ensures var cs' := Respond(cs, o, c, d, s).0;
            OnlyTouches(cs, cs', o, c.generation) && NoneWoken(cs, cs', o)
  {
  }

  lemma LaunchFrame(prepared: Containers, c: Command, d: Docker, s: Settings)
    requires Exclusive(prepared) && c.owner !in prepared
    ensures var (launched, r) := LaunchContainer(prepared, c.owner, c.generation, c.gpuIds, d, s);
            var cs' := if r.Value? then Respond(launched, c.owner, r.value, d, s).0 else launched;
            OnlyTouches(prepared, cs', c.owner, c.generation) && Exclusive(cs')
  {
    var (launched, r) := LaunchContainer(prepared, c.owner, c.generation, c.gpuIds, d, s);
    LaunchKeepsExclusive(prepared, c.owner, c.generation, c.gpuIds, d, s);
    if r.Value? {
      RespondFrame(launched, c.owner, r.value, d, s);
      QuieteningKeepsExclusive(launched, Respond(launched, c.owner, r.value, d, s).0, c.owner, c.generation);
    }
  }

  lemma StartFrame(cs: Containers, c: Command, d: Docker, s: Settings)
    requires Exclusive(cs)
    ensures var cs' := StartWorkload(cs, c, d, s).0;
            OnlyTouches(cs, cs', c.owner, c.generation) && Exclusive(cs')
  {
    var (prepared, existing) := PrepareStart(cs, c.owner, c.generation, d);
    QuieteningKeepsExclusive(cs, prepared, c.owner, c.generation);
    if existing.Value? {
      match existing.value
      case Some(container) =>
        RespondFrame(prepared, c.owner, container, d, s);
        QuieteningKeepsExclusive(prepared, Respond(prepared, c.owner, container, d, s).0, c.owner, c.generation);
      case None =>
        LaunchFrame(prepared, c, d, s);
    }
  }

  lemma StopFrame(cs: Containers, c: Command, d: Docker, s: Settings)
    ensures var cs' := StopWorkload(cs, c, d, s).0;
            OnlyTouches(cs, cs', c.owner, c.generation) && NoneWoken(cs, cs', c.owner)
  {
    var (stopped, r) := StopContainer(cs, c.owner, c.generation, d);
    if r.Value? && r.value.Some? {
      RespondFrame(stopped, c.owner, r.value.value, d, s);
    }
  }

  lemma DispatchFrame(cs: Containers, c: Command, d: Docker, s: Settings)
    requires Exclusive(cs)
    ensures var cs' := Dispatch(cs, c, d, s).0;
            && OnlyTouches(cs, cs', c.owner, c.generation) && Exclusive(cs')
            && (c.action != Start ==> NoneWoken(cs, cs', c.owner))
  {
    var cs' := Dispatch(cs, c, d, s).0;
    if c.action == Start {
      StartFrame(cs, c, d, s);
    } else {
      if c.action == Stop {
        StopFrame(cs, c, d, s);
      } else if c.owner in cs {
        RespondFrame(cs, c.owner, cs[c.owner], d, s);
      }
      QuieteningKeepsExclusive(cs, cs', c.owner, c.generation);
    }
  }

  // ---- Preservation ----

  lemma BoundStoreFacts(m: Store, c: Command)
    requires Consistent(m) && c.generation >= Watermark(m, c.owner)
    requires c.action == Start ==> !BindingConflicts(m, c)
    ensures var b := if c.action == Start then BindStart(m, c) else Advance(m, c.owner, c.generation);
            && Consistent(b) && Watermark(b, c.owner) == c.generation && b.requests == m.requests
            && (forall o :: o != c.owner ==> Watermark(b, o) == Watermark(m, o))
            && (forall o :: Watermark(m, o) <= Watermark(b, o))
            && (c.action == Start ==> b.starts == m.starts[c.owner := Body(c)])
            && (c.action != Start ==> b.starts == m.starts)
  {
  }

  lemma CacheAnswerKeepsInv(a: Agent, c: Command, result: Response, oldest: nat, crash: CrashPoint)
    requires Inv(a)
    ensures Inv(CacheAnswer(a, c, result, oldest, crash).0)
  {
    ReloadIsIdentity(a.disk);
    var store := PutRequest(a.memory, c, result, oldest);
    assert store.generations == a.memory.generations && store.starts == a.memory.starts;
    assert forall o :: Watermark(store, o) == Watermark(a.memory, o);
  }

  lemma BindingKeepsOneBody(a: Agent, c: Command)
    requires Durable(a) && OneBody(a.dispatched) && c.generation >= Watermark(a.memory, c.owner)
    requires c.action == Start ==> !BindingConflicts(a.memory, c)
    ensures OneBody(a.dispatched + {Body(c)})
  {
    forall b <- a.dispatched
      ensures b.action == Start && c.action == Start && b.owner == c.owner && b.generation == c.generation ==> b == Body(c)
    {
      if b.action == Start && b.owner == c.owner {
        assert a.disk.starts[b.owner].generation <= Watermark(a.disk, b.owner);
      }
    }
  }

  lemma BindingKeepsDurable(a: Agent, c: Command, bound: Store, containers: Containers)
    requires Durable(a) && c.generation >= Watermark(a.memory, c.owner)
    requires c.action == Start ==> !BindingConflicts(a.memory, c)
    requires bound == if c.action == Start then BindStart(a.memory, c) else Advance(a.memory, c.owner, c.generation)
    ensures Durable(Agent(bound, bound, containers, a.dispatched + {Body(c)}))
    ensures Durable(Agent(bound, bound, a.containers, a.dispatched))
  {
    BoundStoreFacts(a.memory, c);
    forall b <- a.dispatched | b.action == Start
      ensures b.owner in bound.starts && (bound.starts[b.owner] == b || bound.starts[b.owner].generation > b.generation)
    {
      if b.owner == c.owner && c.action == Start {
        assert a.disk.starts[b.owner].generation <= Watermark(a.disk, b.owner);
      }
    }
  }

  lemma DispatchedStateKeepsInv(a: Agent, c: Command, bound: Store, containers: Containers)
    requires Inv(a) && c.generation >= Watermark(a.memory, c.owner)
    requires c.action == Start ==> !BindingConflicts(a.memory, c)
    requires bound == if c.action == Start then BindStart(a.memory, c) else Advance(a.memory, c.owner, c.generation)
    requires OnlyTouches(a.containers, containers, c.owner, c.generation) && Exclusive(containers)
    ensures Inv(Agent(bound, bound, a.containers, a.dispatched))
    ensures Inv(Agent(bound, bound, containers, a.dispatched + {Body(c)}))
    ensures Load(bound) == bound
  {
    BoundStoreFacts(a.memory, c);
    ReloadIsIdentity(bound);
    BindingKeepsOneBody(a, c);
    BindingKeepsDurable(a, c, bound, containers);
    assert UnderWatermark(containers, bound);
    assert UnderWatermark(a.containers, bound);
  }

  lemma SettleKeepsInv(
    a: Agent, c: Command, containers: Containers, r: Outcome<WorkloadState>, oldest: nat, crash: CrashPoint)
    requires Inv(a) && c.generation >= Watermark(a.memory, c.owner)
    requires c.action == Start ==> !BindingConflicts(a.memory, c)
    requires OnlyTouches(a.containers, containers, c.owner, c.generation) && Exclusive(containers)
    ensures Inv(Settle(a, c, containers, r, oldest, crash).0)
  {
    var bound := if c.action == Start then BindStart(a.memory, c) else Advance(a.memory, c.owner, c.generation);
    ReloadIsIdentity(a.disk);
    DispatchedStateKeepsInv(a, c, bound, containers);
    var done := Agent(bound, bound, containers, a.dispatched + {Body(c)});
    if ReplyTo(c, r).Answer? {
      CacheAnswerKeepsInv(done, c, ReplyTo(c, r).response, oldest, NoCrash);
    }
    SettledStates(a, c, containers, r, oldest, crash);
  }

  /** When memory and file agree, the state after a command is one of these. */
  lemma SettledStates(
    a: Agent, c: Command, containers: Containers, r: Outcome<WorkloadState>, oldest: nat, crash: CrashPoint)
    requires a.memory == a.disk
    ensures var bound := if c.action == Start then BindStart(a.memory, c) else Advance(a.memory, c.owner, c.generation);
            var done := Agent(bound, bound, containers, a.dispatched + {Body(c)});
            var a' := Settle(a, c, containers, r, oldest, crash).0;
            || a' == Reloaded(a)
            || a' == Reloaded(Agent(bound, bound, a.containers, a.dispatched))
            || a' == Reloaded(done) || a' == done
            || (ReplyTo(c, r).Answer? && a' == CacheAnswer(done, c, ReplyTo(c, r).response, oldest, NoCrash).0)
    ensures var (a', reply) := Settle(a, c, containers, r, oldest, crash);
            reply.Answer? ==> a'.containers == containers && reply == ReplyTo(c, r)
  {
    var bound := if c.action == Start then BindStart(a.memory, c) else Advance(a.memory, c.owner, c.generation);
    var persisted := a.(memory := bound, disk := if bound != a.memory then bound else a.disk);
    assert persisted == Agent(bound, bound, a.containers, a.dispatched);
    var done := persisted.(containers := containers, dispatched := a.dispatched + {Body(c)});
    assert done == Agent(bound, bound, containers, a.dispatched + {Body(c)});
    match crash
    case BeforeStatePersist =>
    case AfterStatePersist =>
    case AfterDispatch =>
    case BeforeCachePersist =>
    case NoCrash =>
  }

  lemma ExecuteKeepsInv(a: Agent, c: Command, d: Docker, s: Settings, oldest: nat, crash: CrashPoint)
    requires Inv(a)
    ensures Inv(Execute(a, c, d, s, oldest, crash).0)
  {
    if Screened(a.memory, c).Some? {
    } else if c.action == Start && BindingConflicts(a.memory, c) {
      CacheAnswerKeepsInv(a, c, Rejected(c, GenerationReused), oldest, crash);
    } else {
      DispatchFrame(a.containers, c, d, s);
      var (containers, r) := Dispatch(a.containers, c, d, s);
      SettleKeepsInv(a, c, containers, r, oldest, crash);
    }
  }

  lemma StepKeepsInv(a: Agent, e: Event, a': Agent, s: Settings)
    requires Inv(a) && Step(a, e, a', s)
    ensures Inv(a')
  {
    match e
    case Deliver(c, d, oldest, crash) => ExecuteKeepsInv(a, c, d, s, oldest, crash);
    case Restart => ReloadIsIdentity(a.disk);
    case Drift(o, v) =>
      QuieteningKeepsExclusive(a.containers, a'.containers, o, a.containers[o].generation);
  }

  lemma {:induction false} InvAlongRun(states: seq<Agent>, events: seq<Event>, s: Settings, n: nat)
    requires Run(states, events, s) && n < |states|
    ensures Inv(states[n])
  {
    if n > 0 {
      InvAlongRun(states, events, s, n - 1);
      StepKeepsInv(states[n - 1], events[n - 1], states[n], s);
    }
  }

  // ---- Results over runs ----

  /** No card is ever in two active managed containers, and no container outruns its owner's watermark. */
  lemma CardsAreExclusiveOverRuns(states: seq<Agent>, events: seq<Event>, s: Settings, n: nat, g: Gpu, a: Owner, b: Owner)
    requires Run(states, events, s) && n < |states|
    ensures (&& ActiveFor(states[n].containers, a) && g in states[n].containers[a].gpus
             && ActiveFor(states[n].containers, b) && g in states[n].containers[b].gpus) ==> a == b
    ensures a in states[n].containers ==> states[n].containers[a].generation <= Watermark(states[n].memory, a)
  {
    InvAlongRun(states, events, s, n);
    if ActiveFor(states[n].containers, a) && ActiveFor(states[n].containers, b) && a != b {
      assert g !in states[n].containers[a].gpus * states[n].containers[b].gpus;
    }
  }

  /** A crash at any point leaves a file whose reloaded watermark is at least every generation ever
      dispatched for the owner, and a generation is never dispatched with two different start bodies. */
  lemma DispatchIsDurableOverRuns(states: seq<Agent>, events: seq<Event>, s: Settings, n: nat, b: Command, c: Command)
    requires Run(states, events, s) && n < |states|
    requires b in states[n].dispatched && c in states[n].dispatched
    ensures Watermark(Load(states[n].disk), b.owner) >= b.generation
    ensures b.action == Start && c.action == Start && b.owner == c.owner && b.generation == c.generation ==> b == c
  {
    InvAlongRun(states, events, s, n);
    ReloadCoversBindings(states[n].disk, b.owner);
  }

  /** From one state to a later one: watermarks grow, and a container that is new or of another
      generation is at least at the earlier watermark. */
  ghost predicate Grows(a: Agent, a': Agent, o: Owner) {
    && Watermark(a.memory, o) <= Watermark(a'.memory, o)
    && (o in a'.containers && (o !in a.containers || a'.containers[o].generation != a.containers[o].generation)
        ==> a'.containers[o].generation >= Watermark(a.memory, o))
    && a.dispatched <= a'.dispatched
  }

  lemma SettleGrows(
    a: Agent, c: Command, containers: Containers, r: Outcome<WorkloadState>, oldest: nat, crash: CrashPoint, o: Owner)
    requires Inv(a) && c.generation >= Watermark(a.memory, c.owner)
    requires c.action == Start ==> !BindingConflicts(a.memory, c)
    requires OnlyTouches(a.containers, containers, c.owner, c.generation)
    ensures Grows(a, Settle(a, c, containers, r, oldest, crash).0, o)
  {
    var bound := if c.action == Start then BindStart(a.memory, c) else Advance(a.memory, c.owner, c.generation);
    BoundStoreFacts(a.memory, c);
    ReloadIsIdentity(a.disk);
    ReloadIsIdentity(bound);
    SettledStates(a, c, containers, r, oldest, crash);
    SettledStatesGrow(a, c, bound, containers, Settle(a, c, containers, r, oldest, crash).0,
                      if ReplyTo(c, r).Answer? then ReplyTo(c, r).response else Rejected(c, NoError), oldest, o);
  }

  lemma SettledStatesGrow(
    a: Agent, c: Command, bound: Store, containers: Containers, a': Agent, result: Response, oldest: nat, o: Owner)
    requires Load(a.disk) == a.disk == a.memory && Load(bound) == bound && c.generation >= Watermark(a.memory, c.owner)
    requires forall p :: Watermark(a.memory, p) <= Watermark(bound, p)
    requires OnlyTouches(a.containers, containers, c.owner, c.generation)
    requires var done := Agent(bound, bound, containers, a.dispatched + {Body(c)});
             || a' == Reloaded(a)
             || a' == Reloaded(Agent(bound, bound, a.containers, a.dispatched))
             || a' == Reloaded(done) || a' == done
             || a' == CacheAnswer(done, c, result, oldest, NoCrash).0
    ensures Grows(a, a', o)
  {
    assert PutRequest(bound, c, result, oldest).generations == bound.generations;
  }

  lemma StepGrows(a: Agent, e: Event, a': Agent, s: Settings, o: Owner)
    requires Inv(a) && Step(a, e, a', s)
    ensures Grows(a, a', o)
  {
    ReloadIsIdentity(a.disk);
    if e.Deliver? && Screened(a.memory, e.command).None? && !(e.command.action == Start && BindingConflicts(a.memory, e.command)) {
      DispatchFrame(a.containers, e.command, e.docker, s);
      var (containers, r) := Dispatch(a.containers, e.command, e.docker, s);
      SettleGrows(a, e.command, containers, r, e.oldest, e.crash, o);
    }
  }

  ghost predicate GrowsAt(states: seq<Agent>, k: int, o: Owner) {
    0 <= k < |states| - 1 && Grows(states[k], states[k + 1], o)
  }

  lemma {:induction false} GrowthAccumulates(states: seq<Agent>, i: nat, j: nat, o: Owner)
    requires i <= j < |states|
    requires forall k :: 0 <= k < |states| - 1 ==> GrowsAt(states, k, o)
    ensures Watermark(states[i].memory, o) <= Watermark(states[j].memory, o)
    ensures o in states[j].containers ==>
              || states[j].containers[o].generation >= Watermark(states[i].memory, o)
              || (o in states[i].containers && states[j].containers[o].generation == states[i].containers[o].generation)
    decreases j
  {
    if i < j {
      GrowthAccumulates(states, i, j - 1, o);
      assert GrowsAt(states, j - 1, o);
    }
  }

  /** Watermarks survive crashes, and the generation of an owner's container never decreases, even
      when the container was removed and started again in between. */
  lemma GenerationsNeverDecrease(states: seq<Agent>, events: seq<Event>, s: Settings, i: nat, j: nat, o: Owner)
    requires Run(states, events, s) && i <= j < |states|
    ensures Watermark(states[i].memory, o) <= Watermark(states[j].memory, o)
    ensures o in states[i].containers && o in states[j].containers ==>
              states[i].containers[o].generation <= states[j].containers[o].generation
  {
    InvAlongRun(states, events, s, i);
    forall k | 0 <= k < |states| - 1 ensures GrowsAt(states, k, o) {
      InvAlongRun(states, events, s, k);
      StepGrows(states[k], events[k], states[k + 1], s, o);
    }
    GrowthAccumulates(states, i, j, o);
  }

  /** A command older than the watermark is refused and changes nothing at all, crash or not. */
  lemma StaleCommandsChangeNothing(a: Agent, c: Command, d: Docker, s: Settings, oldest: nat, crash: CrashPoint)
    ensures c.generation < Watermark(a.memory, c.owner) ==>
              Execute(a, c, d, s, oldest, crash) == (a, Answer(Rejected(c, StaleGeneration)))
    ensures var (a', r) := Execute(a, c, d, s, oldest, crash);
            r.Answer? && r.response.error == StaleGeneration && c.requestId !in a.memory.requests ==>
              c.generation < Watermark(a.memory, c.owner)
  {
  }

  /** Delivering an answered command again gives the same answer and touches no container, as long as
      its owner has not moved to a newer generation and the answer is still cached. */
  lemma RedeliveryIsIdempotent(
    a: Agent, c: Command, d: Docker, s: Settings, oldest: nat, b: Agent, d': Docker, oldest': nat, crash': CrashPoint)
    requires Screened(a.memory, c).None?
    requires var (a', r) := Execute(a, c, d, s, oldest, NoCrash);
             r.Answer? && c.requestId in b.memory.requests && b.memory.requests[c.requestId] == Cached(c, r.response)
             && Watermark(b.memory, c.owner) <= c.generation
    ensures Execute(b, c, d', s, oldest', crash') == (b, Execute(a, c, d, s, oldest, NoCrash).1)
  {
  }

  /** A START at the generation that is already bound is run again exactly when it is the bound one in
      everything but its request id; a row queued again under the same generation with, say, another
      port is refused instead. */
  lemma RestartNeedsTheSameBody(a: Agent, c: Command, d: Docker, s: Settings, oldest: nat)
    requires Screened(a.memory, c).None? && c.action == Start
    requires c.owner in a.memory.starts && a.memory.starts[c.owner].generation == c.generation
    ensures var (a', r) := Execute(a, c, d, s, oldest, NoCrash);
            && (a.memory.starts[c.owner] != Body(c) <==> r == Answer(Rejected(c, GenerationReused)))
            && (a.memory.starts[c.owner] == Body(c) ==> a'.dispatched == a.dispatched + {Body(c)})
            && (a.memory.starts[c.owner] != Body(c) ==> a'.containers == a.containers && a'.dispatched == a.dispatched)
  {
  }

  lemma CachingKeepsTheBound(m: Store, c: Command, result: Response, oldest: nat)
    requires |m.requests| <= MAX_CACHED_REQUESTS && c.requestId !in m.requests
    requires |m.requests| == MAX_CACHED_REQUESTS ==> oldest in m.requests
    ensures var m' := PutRequest(m, c, result, oldest);
            && |m'.requests| <= 2048
            && c.requestId in m'.requests && m'.requests[c.requestId] == Cached(c, result)
            && m'.generations == m.generations && m'.starts == m.starts
            && (forall id <- m.requests :: id in m'.requests ==> m'.requests[id] == m.requests[id])
            && (|m.requests| < 2048 ==> m.requests.Keys <= m'.requests.Keys)
            && (|m.requests| == 2048 ==> forall id <- m.requests :: id in m'.requests <==> id != oldest)
  {
    var full := m.requests[c.requestId := Cached(c, result)];
    assert full.Keys == m.requests.Keys + {c.requestId};
    if |full| > MAX_CACHED_REQUESTS {
      assert (full - {oldest}).Keys == full.Keys - {oldest};
    }
  }

  lemma SettledAnswerIsCached(a: Agent, c: Command, containers: Containers, r: Outcome<WorkloadState>, oldest: nat)
    requires |a.memory.requests| <= MAX_CACHED_REQUESTS && c.requestId !in a.memory.requests
    requires |a.memory.requests| == MAX_CACHED_REQUESTS ==> oldest in a.memory.requests
    ensures var (a', reply) := Settle(a, c, containers, r, oldest, NoCrash);
            reply.Answer? ==>
              && c.requestId in a'.disk.requests && a'.disk == a'.memory
              && a'.memory.requests[c.requestId] == Cached(c, reply.response)
              && |a'.memory.requests| <= MAX_CACHED_REQUESTS
  {
    var bound := if c.action == Start then BindStart(a.memory, c) else Advance(a.memory, c.owner, c.generation);
    assert bound.requests == a.memory.requests;
    if ReplyTo(c, r).Answer? {
      CachingKeepsTheBound(bound, c, ReplyTo(c, r).response, oldest);
    }
  }

  /** An answered command is in the cache right afterwards, in memory and on disk, and the cache keeps
      to its bound when the evicted entry is an older one. */
  lemma AnswersAreCached(a: Agent, c: Command, d: Docker, s: Settings, oldest: nat)
    requires Screened(a.memory, c).None? && |a.memory.requests| <= MAX_CACHED_REQUESTS
    requires |a.memory.requests| == MAX_CACHED_REQUESTS ==> oldest in a.memory.requests
    ensures var (a', r) := Execute(a, c, d, s, oldest, NoCrash);
            r.Answer? ==>
              && c.requestId in a'.disk.requests && a'.disk == a'.memory
              && a'.memory.requests[c.requestId] == Cached(c, r.response)
              && |a'.memory.requests| <= MAX_CACHED_REQUESTS
  {
    if c.action == Start && BindingConflicts(a.memory, c) {
      CachingKeepsTheBound(a.memory, c, Rejected(c, GenerationReused), oldest);
    } else {
      var (containers, r) := Dispatch(a.containers, c, d, s);
      SettledAnswerIsCached(a, c, containers, r, oldest);
    }
  }

  // ---- End reports ----

  lemma RespondTellsTheTruth(cs: Containers, o: Owner, c: Container, d: Docker, s: Settings)
    requires o in cs && cs[o] == c
    ensures var (cs', r) := Respond(cs, o, c, d, s);
            && (r.Value? && EndReport(r.value) ==> !ActiveFor(cs', o))
            && (r.Value? ==> r.value != ObservedAbsent)
            && (r.Value? || r == Invalid)
  {
    EndStatesAreInactive(o.kind, c.vitals);
  }

  lemma DispatchTellsTheTruth(cs: Containers, c: Command, d: Docker, s: Settings)
    ensures var (cs', r) := Dispatch(cs, c, d, s);
            && (r.Value? && EndReport(r.value) ==> !ActiveFor(cs', c.owner))
            && (r == Value(ObservedAbsent) ==> c.owner !in cs')
            && (c.action == Start ==> r != Value(ObservedAbsent))
  {
    match c.action
    case Start =>
      if c.execution.Launch? && c.execution.runner == ExpectedRunner(c.owner.kind) {
        var (prepared, existing) := PrepareStart(cs, c.owner, c.generation, d);
        if existing.Value? {
          if existing.value.Some? {
            RespondTellsTheTruth(prepared, c.owner, existing.value.value, d, s);
          } else {
            var (launched, r) := LaunchContainer(prepared, c.owner, c.generation, c.gpuIds, d, s);
            if r.Value? {
              RespondTellsTheTruth(launched, c.owner, r.value, d, s);
            }
          }
        }
      }
    case Stop =>
      if c.execution == NoExecution {
        var (stopped, r) := StopContainer(cs, c.owner, c.generation, d);
        if r.Value? && r.value.Some? {
          RespondTellsTheTruth(stopped, c.owner, r.value.value, d, s);
        }
      }
    case Status =>
      if c.owner in cs {
        RespondTellsTheTruth(cs, c.owner, cs[c.owner], d, s);
      }
  }

  /** A job that has finished keeps its result: STOP and STATUS at its generation both answer SUCCEEDED, as often
      as they are sent, and neither removes the container.  A STOP that is answered otherwise left none. */
  lemma StopKeepsResults(cs: Containers, c: Command, d: Docker, s: Settings)
    requires c.action == Stop && c.execution == NoExecution
    ensures c.owner in cs && cs[c.owner].generation == c.generation && Finished(c.owner, cs[c.owner]) && d.lookup && d.metadataReadable ==>
              && Dispatch(cs, c, d, s) == (cs, Value(ObservedSucceeded))
              && Dispatch(cs, c.(action := Status), d, s) == (cs, Value(ObservedSucceeded))
    ensures var (cs', r) := Dispatch(cs, c, d, s);
            && (r.Value? ==> r.value == ObservedAbsent || r.value == ObservedSucceeded)
            && (r == Value(ObservedAbsent) <==> d.lookup && c.owner !in cs' && r.Value?)
            && (r == Value(ObservedSucceeded) ==> c.owner in cs' && Finished(c.owner, cs'[c.owner]))
  {
    StoppingIsFinal(cs, c.owner, c.generation, d, d);
  }

  /** STATUS is a reading: it changes a container only to quieten an inference container that has failed while
      starting, and what it accepts as alive or ended is so. */
  lemma StatusOnlyReads(cs: Containers, c: Command, d: Docker, s: Settings)
    requires c.action == Status
    ensures var (cs', r) := Dispatch(cs, c, d, s);
            && SameOthers(cs, cs', c.owner)
            && (cs' != cs ==> c.owner.kind == Deployment && c.owner in cs && cs[c.owner].generation == c.generation
                              && StateFromVitals(Deployment, cs[c.owner].vitals) == ObservedStarting
                              && InferenceFailed(cs[c.owner].vitals, d.now, s))
            && (r == Value(ObservedAbsent) ==> c.owner !in cs)
            && (r.Value? && r.value != ObservedAbsent ==> c.owner in cs && cs[c.owner].generation == c.generation)
            && (r == Value(ObservedRunning) ==> ActiveFor(cs', c.owner))
  {
    if c.owner in cs {
      RespondTellsTheTruth(cs, c.owner, cs[c.owner], d, s);
    }
  }

  /** An accepted ABSENT, FAILED or SUCCEEDED answer that is not read from the cache means the named
      workload has no active container, whatever its status, health, restarts or Docker's answers. */
  lemma EndReportsAreTruthful(a: Agent, c: Command, d: Docker, s: Settings, oldest: nat, crash: CrashPoint)
    requires c.requestId !in a.memory.requests
    ensures var (a', r) := Execute(a, c, d, s, oldest, crash);
            r.Answer? && r.response.accepted && EndReport(r.response.observed) ==>
              && !ActiveFor(a'.containers, c.owner)
              && (r.response.observed == ObservedAbsent ==> c.owner !in a'.containers)
  {
    DispatchTellsTheTruth(a.containers, c, d, s);
  }

  /** A START is never answered with an accepted ABSENT, the one answer that would queue it again. */
  lemma StartIsNeverAbsent(a: Agent, c: Command, d: Docker, s: Settings, oldest: nat, crash: CrashPoint)
    requires c.requestId !in a.memory.requests && c.action == Start
    ensures var r := Execute(a, c, d, s, oldest, crash).1;
            r.Answer? && r.response.accepted ==> r.response.observed != ObservedAbsent
  {
    DispatchTellsTheTruth(a.containers, c, d, s);
  }

  /** A START is carried out only with the runner of its kind of workload: vLLM for deployments, LLaMA-Factory for
      training jobs, the evaluation runner for evaluations.  Any other is refused and moves nothing. */
  lemma StartsNeedTheirRunner(cs: Containers, c: Command, d: Docker, s: Settings)
    requires c.action == Start
    requires || !c.execution.Launch?
             || (c.owner.kind == Deployment && c.execution.runner != Vllm)
             || (c.owner.kind == Training && c.execution.runner != LlamaFactory)
             || (c.owner.kind == Evaluation && c.execution.runner != EvaluationRunner)
    ensures Dispatch(cs, c, d, s) == (cs, Invalid)
  {
  }

  /** With the right runner, a well-formed execution, a free name, free cards and a Docker that does what it is asked,
      a START creates the container with exactly these cards and reports it running. */
  lemma SmoothStartsRun(cs: Containers, c: Command, d: Docker, s: Settings)
    requires c.action == Start && c.execution.Launch? && c.execution.wellFormed
    requires c.owner.kind == Deployment ==> c.execution.runner == Vllm
    requires c.owner.kind == Training ==> c.execution.runner == LlamaFactory
    requires c.owner.kind == Evaluation ==> c.execution.runner == EvaluationRunner
    requires c.owner.kind == Training || c.execution.tensorParallel == |c.gpuIds|
    requires c.owner !in cs && c.gpuIds != [] && Distinct(c.gpuIds)
    requires forall i :: 0 <= i < |c.gpuIds| ==> 0 <= c.gpuIds[i].index < s.gpuCount
    requires forall o <- cs, g <- cs[o].gpus :: ActiveStatus(cs[o].vitals.status) ==> g !in c.gpuIds
    requires d.lookup && d.launch == LaunchAllowed && d.nvml == NvmlFree && d.run == Done && d.reread && d.metadataReadable
    requires d.birth.status == ContainerStatus.Running && d.birth.health == Some(Healthy)
    ensures var (cs', r) := Dispatch(cs, c, d, s);
            && r == Value(ObservedRunning) && c.owner in cs'
            && cs'[c.owner] == Container(c.generation, (set g | g in c.gpuIds), d.birth)
  {
    assert GpuSet(c.gpuIds) == set g | g in c.gpuIds;
    forall o <- cs | Active(cs[o]) ensures cs[o].gpus * GpuSet(c.gpuIds) == {} {
      assert forall g <- cs[o].gpus :: g !in GpuSet(c.gpuIds);
    }
  }

  /** Which error an agent answers with: nothing was wrong with the answer of a command that succeeded, and each kind
      of failure has its own code; what the processor does not catch is not answered. */
  lemma FailuresHaveTheirCodes(c: Command, r: Outcome<WorkloadState>)
    ensures var reply := ReplyTo(c, r);
            && (reply.Answer? <==> r != NotFound && r != Raised)
            && (reply.Answer? ==> reply.response.requestId == c.requestId)
            && (r.Value? ==> reply.response.accepted && reply.response.observed == r.value && reply.response.error == NoError)
            && (r == Invalid ==> !reply.response.accepted && reply.response.error == InvalidWorkload)
            && (r == Malformed ==> !reply.response.accepted && reply.response.error == InvalidExecution)
            && (r == Conflict ==> !reply.response.accepted && reply.response.error == WorkloadConflict)
  {
  }

  /** A failing inference container whose stop could not be confirmed is reported as still starting;
      FAILED is reported exactly when the stop was confirmed. */
  lemma UncertainStopsReportStarting(cs: Containers, o: Owner, d: Docker, s: Settings)
    requires o in cs && o.kind == Deployment && StateFromVitals(Deployment, cs[o].vitals) == ObservedStarting
    ensures var (cs', r) := Respond(cs, o, cs[o], d, s);
            && (r == Value(ObservedFailed) || r == Value(ObservedStarting))
            && (r == Value(ObservedFailed) <==> InferenceFailed(cs[o].vitals, d.now, s) && Quiesce(cs, o, cs[o].generation, d).1)
            && (ActiveFor(cs', o) ==> r == Value(ObservedStarting))
  {
  }

  /** Refusals have the one shape the control plane accepts as proof that nothing was started. */
  lemma RefusalsAreWellFormed(a: Agent, c: Command, d: Docker, s: Settings, oldest: nat, crash: CrashPoint)
    requires c.requestId !in a.memory.requests
    ensures var r := Execute(a, c, d, s, oldest, crash).1;
            r.Answer? ==>
              && r.response.requestId == c.requestId
              && (r.response.accepted <==> r.response.error == NoError)
              && (!r.response.accepted ==> r.response.observed == ObservedFailed)
  {
  }
}
