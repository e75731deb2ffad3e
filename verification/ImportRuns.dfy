/** Model imports as a step system: database rows, the staging and store trees, one coordinator with its
    running imports and its recovery pass, and a crash possible between any two steps. */
module ImportRuns {
  import opened Contract
  import opened ModelImport

  /** Where one running import is.  The rename from staging to store is its commit point on disk. */
  datatype TaskPc =
    | Opening | Checking | Filling | Sweeping(canceled: bool) | Renamed | Finalizing | EndFailed | EndCanceled | Finished

  datatype Removal = Inspecting | RemovingStaging | RemovingHome | RemovingStore

  /** A recovery pass in progress: its row updates are committed together at the end. */
  datatype Recovery = Recovery(todo: seq<nat>, updates: Jobs, at: Removal)

  datatype Coordinator =
    | Down
    | Up(worker: nat, tasks: map<nat, TaskPc>, signaled: set<nat>, shuttingDown: bool, recovery: Option<Recovery>)

  datatype World = World(
    jobs: Jobs, assets: Assets, staging: set<nat>, store: set<nat>, coordinator: Coordinator, workers: set<nat>)

  datatype Move =
    | Open(ok: bool) | MakeStaging(ok: bool) | SeeCancel | Break | Rename | AfterRename(ok: bool) | Sweep(ok: bool)
    | Commit(asset: nat) | CommitLost(asset: nat) | RollBack | End

  datatype Event =
    | CreateJob(id: nat, at: int)
    | CancelJob(id: nat)
    | RegisterAsset(asset: nat, path: Path)
    | Boot(worker: nat)
    | Crash
    | ClaimJob(id: nat, now: int)
    | SignalCanceling
    | BeginShutdown
    | Heartbeat(now: int)
    | ReportProgress(id: nat, validating: bool, now: int)
    | TaskStep(id: nat, move: Move)
    | BeginRecovery(order: seq<nat>, cutoff: int)
    | RecoveryStep(ok: bool)
    | CommitRecovery

  const INITIAL := World(map[], map[], {}, {}, Down, {})

  function Locked(c: Coordinator): set<nat> {
    if c.Up? && c.recovery.Some? then (set id | id in c.recovery.value.todo) + c.recovery.value.updates.Keys else {}
  }

  ghost predicate MoveEnabled(w: World, id: nat, move: Move)
    requires w.coordinator.Up? && id in w.coordinator.tasks
  {
    var pc := w.coordinator.tasks[id];
    match move
    case Open(_) => pc == Opening
    case MakeStaging(_) => pc == Checking
    case SeeCancel => pc == Filling && id in w.coordinator.signaled
    case Break | Rename => pc == Filling
    case AfterRename(_) => pc == Renamed
    case Sweep(_) => pc.Sweeping?
    case Commit(a) => pc == Finalizing && a !in w.assets && !Named(w.assets, StoreDir(id))
    case CommitLost(a) => pc == Finalizing && a !in w.assets && !Named(w.assets, StoreDir(id))
    case RollBack => pc == Finalizing
    case End => pc == EndFailed || pc == EndCanceled
  }

  ghost predicate Enabled(w: World, e: Event) {
    match e
    case CreateJob(id, _) => id !in w.jobs
    case CancelJob(id) => id in w.jobs && id !in Locked(w.coordinator)
    case RegisterAsset(a, path) =>
      a !in w.assets && !Named(w.assets, path) && forall id <- Locked(w.coordinator) :: path != StoreDir(id)
    case Boot(worker) => w.coordinator.Down? && worker !in w.workers
    case Crash => w.coordinator.Up?
    case ClaimJob(id, _) =>
      && w.coordinator.Up? && !w.coordinator.shuttingDown && w.coordinator.recovery.None? && ClaimedFirst(w.jobs, id)
    case SignalCanceling => w.coordinator.Up?
    case BeginShutdown => w.coordinator.Up?
    case Heartbeat(_) => w.coordinator.Up?
    case ReportProgress(id, _, _) =>
      && w.coordinator.Up? && id in w.coordinator.tasks
      && (w.coordinator.tasks[id] == Filling || w.coordinator.tasks[id] == Renamed)
    case TaskStep(id, move) => w.coordinator.Up? && id in w.coordinator.tasks && id in w.jobs && MoveEnabled(w, id, move)
    case BeginRecovery(order, cutoff) =>
      && w.coordinator.Up? && w.coordinator.recovery.None? && Distinct(order)
      && forall id :: id in order <==> id in StaleJobs(w.jobs, w.coordinator.worker, cutoff)
    case RecoveryStep(_) =>
      && w.coordinator.Up? && w.coordinator.recovery.Some? && w.coordinator.recovery.value.todo != []
      && w.coordinator.recovery.value.todo[0] in w.jobs
    case CommitRecovery => w.coordinator.Up? && w.coordinator.recovery.Some? && w.coordinator.recovery.value.todo == []
  }

  function At(w: World, id: nat, pc: TaskPc): World
    requires w.coordinator.Up?
  {
    w.(coordinator := w.coordinator.(tasks := w.coordinator.tasks[id := pc]))
  }

  function Moved(w: World, id: nat, move: Move): World
    requires w.coordinator.Up? && id in w.coordinator.tasks && id in w.jobs
  {
    var c := w.coordinator;
    match move
    case Open(ok) =>
      var signaled := if w.jobs[id].status == Canceling then c.signaled + {id} else c.signaled;
      At(w.(coordinator := c.(signaled := signaled)), id, if ok then Checking else EndFailed)
    case MakeStaging(ok) =>
      if ok && id !in w.staging && id !in w.store then At(w.(staging := w.staging + {id}), id, Filling)
      else At(w, id, EndFailed)
    case SeeCancel => At(w, id, Sweeping(true))
    case Break => At(w, id, Sweeping(false))
    case Rename => At(w.(staging := w.staging - {id}, store := w.store + {id}), id, Renamed)
    case AfterRename(ok) => At(w, id, if ok then Finalizing else EndFailed)
    case Sweep(ok) =>
      if ok then At(w.(staging := w.staging - {id}), id, if c.tasks[id] == Sweeping(true) then EndCanceled else EndFailed)
      else At(w, id, EndFailed)
    case Commit(a) =>
      At(w.(jobs := w.jobs[id := FinalizedJob(w.jobs[id], a)], assets := w.assets[a := StoreDir(id)]), id, Finished)
    case CommitLost(a) =>
      At(w.(jobs := w.jobs[id := FinalizedJob(w.jobs[id], a)], assets := w.assets[a := StoreDir(id)]), id, EndFailed)
    case RollBack => At(w, id, EndFailed)
    case End =>
      var j := w.jobs[id];
      At(w.(jobs := w.jobs[id := if c.tasks[id] == EndFailed then FailedJob(j) else CanceledOrRetried(j, c.shuttingDown)]),
         id, Finished)
  }

  /** The next step of a recovery pass: inspect the job, then remove its directories one by one. */
  function Recovering(w: World, ok: bool): World
    requires w.coordinator.Up? && w.coordinator.recovery.Some?
    requires w.coordinator.recovery.value.todo != [] && w.coordinator.recovery.value.todo[0] in w.jobs
  {
    var rec := w.coordinator.recovery.value;
    var id := rec.todo[0];
    var j := w.jobs[id];
    var named := Named(w.assets, StoreDir(id));
    var w' := match rec.at
              case RemovingStaging => if ok then w.(staging := w.staging - {id}) else w
              case RemovingStore => if ok then w.(store := w.store - {id}) else w
              case _ => w;
    var rec' := match rec.at
                case Inspecting => if MustRemove(j, named) then rec.(at := RemovingStaging) else Done(rec, RecoveredJob(j, named, true))
                case RemovingStaging => if ok then rec.(at := RemovingHome) else Done(rec, RecoveredJob(j, false, false))
                case RemovingHome => if ok then rec.(at := RemovingStore) else Done(rec, RecoveredJob(j, false, false))
                case RemovingStore => Done(rec, RecoveredJob(j, false, ok));
    w'.(coordinator := w.coordinator.(recovery := Some(rec')))
  }

  function Done(rec: Recovery, j: Job): Recovery
    requires rec.todo != []
  {
    Recovery(rec.todo[1..], rec.updates[rec.todo[0] := j], Inspecting)
  }

  function Beaten(jobs: Jobs, c: Coordinator, now: int): Jobs
    requires c.Up?
  {
    map id | id in jobs ::
      if id in c.tasks && jobs[id].claimedBy == Some(c.worker) && ActiveImport(jobs[id].status)
      then jobs[id].(claimedAt := Some(now)) else jobs[id]
  }

  ghost function Next(w: World, e: Event): World
    requires Enabled(w, e)
  {
    match e
    case CreateJob(id, at) => w.(jobs := w.jobs[id := NewJob(at)])
    case CancelJob(id) => w.(jobs := w.jobs[id := CancelAsked(w.jobs[id])])
    case RegisterAsset(a, path) => w.(assets := w.assets[a := path])
    case Boot(worker) => w.(coordinator := Up(worker, map[], {}, false, None), workers := w.workers + {worker})
    case Crash => w.(coordinator := Down)
    case ClaimJob(id, now) =>
      var c := w.coordinator;
      w.(jobs := w.jobs[id := ClaimedJob(w.jobs[id], c.worker, now)],
         coordinator := c.(tasks := c.tasks[id := Opening], signaled := c.signaled - {id}))
    case SignalCanceling =>
      w.(coordinator := w.coordinator.(signaled := w.coordinator.signaled
        + set id | id in w.coordinator.tasks && id in w.jobs && w.jobs[id].status == Canceling))
    case BeginShutdown =>
      w.(coordinator := w.coordinator.(shuttingDown := true, signaled := w.coordinator.tasks.Keys, recovery := None))
    case Heartbeat(now) => w.(jobs := Beaten(w.jobs, w.coordinator, now))
    case ReportProgress(id, validating, now) =>
      if id in w.jobs then w.(jobs := w.jobs[id := Progressed(w.jobs[id], validating, now)]) else w
    case TaskStep(id, move) => Moved(w, id, move)
    case BeginRecovery(order, cutoff) => w.(coordinator := w.coordinator.(recovery := Some(Recovery(order, map[], Inspecting))))
    case RecoveryStep(ok) => Recovering(w, ok)
    case CommitRecovery =>
      w.(jobs := w.jobs + w.coordinator.recovery.value.updates, coordinator := w.coordinator.(recovery := None))
  }

  ghost predicate Run(states: seq<World>, events: seq<Event>) {
    && |states| == |events| + 1 && states[0] == INITIAL
    && forall i {:trigger events[i]} :: 0 <= i < |events| ==>
         Enabled(states[i], events[i]) && states[i + 1] == Next(states[i], events[i])
  }

  // ---- Step by step ----

  /** Where each step of an import leads.  What fails ends the import as failed and leaves both directories alone, but an
      error or a cancellation while it is being filled removes the staging directory first, and only a cancellation whose
      removal succeeded ends it as canceled.  Nothing but the last two steps touches the row. */
  lemma ImportsGoOn(w: World, id: nat, move: Move)
    requires w.coordinator.Up? && id in w.coordinator.tasks && id in w.jobs && MoveEnabled(w, id, move)
    ensures var w' := Moved(w, id, move);
            var (pc, pc') := (w.coordinator.tasks[id], w'.coordinator.tasks[id]);
            && (move in {Open(false), MakeStaging(false), AfterRename(false), RollBack, Sweep(false)} ==>
                  pc' == EndFailed && w'.staging == w.staging && w'.store == w.store && w'.jobs == w.jobs)
            && (move == Open(true) ==> pc' == Checking && w'.jobs == w.jobs)
            && (move.Open? ==> (id in w'.coordinator.signaled <==> id in w.coordinator.signaled || w.jobs[id].status == Canceling))
            && (move == MakeStaging(true) && (id in w.staging || id in w.store) ==> pc' == EndFailed && w'.staging == w.staging)
            && (move == MakeStaging(true) && id !in w.staging && id !in w.store ==>
                  pc' == Filling && w'.staging == w.staging + {id} && w'.store == w.store)
            && (move == Rename ==> pc' == Renamed && w'.staging == w.staging - {id} && w'.store == w.store + {id} && w'.jobs == w.jobs)
            && (move == AfterRename(true) ==> pc' == Finalizing && w'.store == w.store)
            && (move == SeeCancel ==> pc' == Sweeping(true) && w'.staging == w.staging)
            && (move == Break ==> pc' == Sweeping(false) && w'.staging == w.staging)
            && (move == Sweep(true) ==> w'.staging == w.staging - {id} && w'.store == w.store && w'.jobs == w.jobs)
            && (move == Sweep(true) && pc == Sweeping(true) ==> pc' == EndCanceled)
            && (move == Sweep(true) && pc == Sweeping(false) ==> pc' == EndFailed)
  {
  }

  /** The last steps: a commit makes the job READY and names its directory, whether or not its outcome is known, and an
      import that has ended otherwise is failed, or canceled or given back. */
  lemma ImportsEnd(w: World, id: nat, move: Move, a: nat)
    requires w.coordinator.Up? && id in w.coordinator.tasks && id in w.jobs && MoveEnabled(w, id, move)
    ensures var w' := Moved(w, id, move);
            && (move == Commit(a) || move == CommitLost(a) ==>
                  && w'.jobs[id].status == Ready && w'.jobs[id].asset == Some(a)
                  && w'.assets == w.assets[a := StoreDir(id)] && w'.store == w.store)
            && (move == Commit(a) || move == End ==> w'.coordinator.tasks[id] == Finished)
            && (move == CommitLost(a) ==> w'.coordinator.tasks[id] == EndFailed)
            && (move == End && w.coordinator.tasks[id] == EndFailed ==> w'.jobs[id] == FailedJob(w.jobs[id]) && w'.store == w.store)
            && (move == End && w.coordinator.tasks[id] == EndCanceled ==>
                  w'.jobs[id] == CanceledOrRetried(w.jobs[id], w.coordinator.shuttingDown) && w'.store == w.store)
  {
  }

  /** A recovery pass removes the staging directory, the tool's home and the store directory of a job, in that order and
      as far as the removals succeed; a job one of whose removals fails, or whose store directory is named, is settled
      at once. */
  lemma RecoveriesGoOn(w: World, ok: bool)
    requires Enabled(w, RecoveryStep(ok))
    ensures var (w', rec, id) := (Recovering(w, ok), w.coordinator.recovery.value, w.coordinator.recovery.value.todo[0]);
            var (j, rec', named) := (w.jobs[id], w'.coordinator.recovery.value, Named(w.assets, StoreDir(id)));
            var settled := rec'.todo == rec.todo[1..] && id in rec'.updates && rec'.at == Inspecting;
            && w'.jobs == w.jobs && w'.assets == w.assets
            && w'.staging == (if rec.at == RemovingStaging && ok then w.staging - {id} else w.staging)
            && w'.store == (if rec.at == RemovingStore && ok then w.store - {id} else w.store)
            && (rec.at == Inspecting && MustRemove(j, named) ==> rec' == rec.(at := RemovingStaging))
            && (rec.at == Inspecting && !MustRemove(j, named) ==> settled && rec'.updates[id] == RecoveredJob(j, named, true))
            && (rec.at == RemovingStaging && ok ==> rec' == rec.(at := RemovingHome))
            && (rec.at == RemovingHome && ok ==> rec' == rec.(at := RemovingStore))
            && (rec.at != Inspecting && !ok ==> settled && rec'.updates[id] == RecoveredJob(j, false, false))
            && (rec.at == RemovingStore && ok ==> settled && rec'.updates[id] == RecoveredJob(j, false, true))
  {
  }

  /** What the other events do: a claim opens the import, signals go to the running imports whose jobs are being canceled
      or, at a shutdown, to all of them, and a heartbeat renews the claim of exactly the running jobs of this worker. */
  lemma TheCoordinatorActs(w: World, id: nat, now: int, progress: bool)
    requires w.coordinator.Up?
    ensures Enabled(w, ClaimJob(id, now)) ==>
              var w' := Next(w, ClaimJob(id, now));
              && id in w.jobs && w'.jobs == w.jobs[id := ClaimedJob(w.jobs[id], w.coordinator.worker, now)]
              && w'.coordinator.tasks == w.coordinator.tasks[id := Opening] && id !in w'.coordinator.signaled
    ensures var w' := Next(w, SignalCanceling);
            && w'.jobs == w.jobs
            && (id in w'.coordinator.signaled <==>
                  || id in w.coordinator.signaled
                  || (id in w.coordinator.tasks && id in w.jobs && w.jobs[id].status == Canceling))
    ensures var w' := Next(w, BeginShutdown);
            && w'.jobs == w.jobs && w'.coordinator.shuttingDown && w'.coordinator.recovery == None
            && (id in w'.coordinator.signaled <==> id in w.coordinator.tasks)
    ensures var w' := Next(w, Heartbeat(now));
            && w'.jobs.Keys == w.jobs.Keys && w'.coordinator == w.coordinator
            && (id in w.jobs ==>
                  w'.jobs[id] ==
                    if id in w.coordinator.tasks && w.jobs[id].claimedBy == Some(w.coordinator.worker)
                       && w.jobs[id].status in {Transferring, Validating, Canceling}
                    then w.jobs[id].(claimedAt := Some(now)) else w.jobs[id])
    ensures id in w.coordinator.tasks && id in w.jobs && w.coordinator.tasks[id] in {Filling, Renamed} ==>
              && Enabled(w, ReportProgress(id, progress, now))
              && Next(w, ReportProgress(id, progress, now)).jobs == w.jobs[id := Progressed(w.jobs[id], progress, now)]
  {
  }

  // ---- The invariant ----

  ghost predicate JobFits(j: Job, id: nat, assets: Assets, staging: set<nat>, store: set<nat>) {
    && (j.status == Pending ==> id !in staging && id !in store)
    && (j.status == Ready ==> j.asset.Some?)
    && (j.asset.Some? ==>
          && (j.status == Ready || j.status == Failed)
          && j.asset.value in assets && assets[j.asset.value] == StoreDir(id) && id in store)
    && (j.status == Canceling || j.status == Canceled ==> j.cancelRequested)
  }

  ghost predicate JobsFit(w: World) {
    forall id <- w.jobs :: JobFits(w.jobs[id], id, w.assets, w.staging, w.store)
  }

  ghost predicate TaskFits(j: Job, id: nat, pc: TaskPc, c: Coordinator, staging: set<nat>, store: set<nat>)
    requires c.Up?
  {
    pc == Finished
    || (&& j.claimedBy == Some(c.worker)
        && (ActiveImport(j.status) || (pc == EndFailed && j.status == Ready))
        && (id in c.signaled ==> j.status == Canceling || j.status == Ready || c.shuttingDown)
        && match pc
           case Opening | Checking => id !in staging && id !in store
           case Filling => id !in store
           case Sweeping(canceled) => id !in store && (canceled ==> id in c.signaled)
           case Renamed | Finalizing => id !in staging && id in store
           case EndCanceled => id !in staging && id !in store && id in c.signaled
           case _ => true)
  }

  ghost predicate TasksFit(w: World) {
    w.coordinator.Up? ==> forall id <- w.coordinator.tasks ::
      id in w.jobs && TaskFits(w.jobs[id], id, w.coordinator.tasks[id], w.coordinator, w.staging, w.store)
  }

  ghost predicate UpdateFits(j: Job, j': Job, id: nat, staging: set<nat>, store: set<nat>) {
    && j'.asset == j.asset
    && (j'.status == Pending || j'.status == Canceled || j'.status == Failed)
    && (j'.status == Pending ==> id !in staging && id !in store)
    && (j'.status == Canceled ==> j.status == Canceling && j'.cancelRequested == j.cancelRequested)
  }

  ghost predicate Abandoned(j: Job, worker: nat) {
    ActiveImport(j.status) && j.claimedBy != Some(worker)
  }

  ghost predicate RecoveryFits(w: World, rec: Recovery, worker: nat) {
    && Distinct(rec.todo) && (forall id <- rec.todo :: id !in rec.updates)
    && (forall id <- rec.todo :: id in w.jobs && Abandoned(w.jobs[id], worker))
    && (forall id <- rec.updates ::
          id in w.jobs && Abandoned(w.jobs[id], worker) && UpdateFits(w.jobs[id], rec.updates[id], id, w.staging, w.store))
    && (rec.at != Inspecting ==> rec.todo != [] && !Named(w.assets, StoreDir(rec.todo[0])))
    && (rec.at == RemovingHome || rec.at == RemovingStore ==> rec.todo[0] !in w.staging)
  }

  ghost predicate Inv(w: World) {
    && JobsFit(w) && TasksFit(w)
    && w.staging + w.store <= w.jobs.Keys
    && (forall a <- w.assets, b <- w.assets :: w.assets[a] == w.assets[b] ==> a == b)
    && (w.coordinator.Up? && w.coordinator.recovery.Some? ==>
          RecoveryFits(w, w.coordinator.recovery.value, w.coordinator.worker))
  }

  // ---- Preservation ----

  /** One job's row changes, and the job is neither being recovered nor affected on disk. */
  lemma RowChangeKeepsInv(w: World, id: nat, j': Job)
    requires Inv(w) && id !in Locked(w.coordinator)
    requires JobFits(j', id, w.assets, w.staging, w.store)
    requires w.coordinator.Up? && id in w.coordinator.tasks ==>
      TaskFits(j', id, w.coordinator.tasks[id], w.coordinator, w.staging, w.store)
    ensures Inv(w.(jobs := w.jobs[id := j']))
  {
    var w' := w.(jobs := w.jobs[id := j']);
    if w.coordinator.Up? && w.coordinator.recovery.Some? {
      var rec := w.coordinator.recovery.value;
      assert id !in rec.todo && id !in rec.updates;
      assert RecoveryFits(w', rec, w.coordinator.worker);
    }
  }

  lemma RunningIsNotLocked(w: World, id: nat)
    requires Inv(w) && w.coordinator.Up? && id in w.coordinator.tasks && w.coordinator.tasks[id] != Finished
    ensures id in w.jobs && id !in Locked(w.coordinator)
  {
  }

  /** A running import moves on; its row, its own directories and the assets may change with it. */
  lemma MoveKeepsInv(w: World, id: nat, pc: TaskPc, j': Job, assets': Assets, staging': set<nat>, store': set<nat>, signaled': set<nat>)
    requires Inv(w) && w.coordinator.Up? && id in w.coordinator.tasks && w.coordinator.tasks[id] != Finished
    requires staging' - {id} == w.staging - {id} && store' - {id} == w.store - {id}
    requires signaled' == w.coordinator.signaled || signaled' == w.coordinator.signaled + {id}
    requires assets' == w.assets
             || (exists a: nat :: a !in w.assets && assets' == w.assets[a := StoreDir(id)] && !Named(w.assets, StoreDir(id)))
    requires JobFits(j', id, assets', staging', store')
    requires TaskFits(j', id, pc, w.coordinator.(signaled := signaled'), staging', store')
    ensures Inv(World(w.jobs[id := j'], assets', staging', store',
                      w.coordinator.(tasks := w.coordinator.tasks[id := pc], signaled := signaled'), w.workers))
  {
    RunningIsNotLocked(w, id);
    var c' := w.coordinator.(tasks := w.coordinator.tasks[id := pc], signaled := signaled');
    var w' := World(w.jobs[id := j'], assets', staging', store', c', w.workers);
    forall k: nat | k != id ensures (k in staging' <==> k in w.staging) && (k in store' <==> k in w.store) {
      assert k in staging' <==> k in staging' - {id};
      assert k in store' <==> k in store' - {id};
    }
    assert JobsFit(w') && TasksFit(w');
    if w.coordinator.recovery.Some? {
      var rec := w.coordinator.recovery.value;
      assert id !in rec.todo && id !in rec.updates;
      assert rec.todo != [] ==> rec.todo[0] in rec.todo;
      assert RecoveryFits(w', rec, w.coordinator.worker);
    }
  }

  lemma MovedFits(w: World, id: nat, move: Move)
    requires w.coordinator.Up? && id in w.coordinator.tasks && id in w.jobs && MoveEnabled(w, id, move)
    requires TaskFits(w.jobs[id], id, w.coordinator.tasks[id], w.coordinator, w.staging, w.store)
    requires JobFits(w.jobs[id], id, w.assets, w.staging, w.store)
    ensures var w' := Moved(w, id, move);
            && JobFits(w'.jobs[id], id, w'.assets, w'.staging, w'.store)
            && TaskFits(w'.jobs[id], id, w'.coordinator.tasks[id], w'.coordinator, w'.staging, w'.store)
  {
  }

  /** A move concerns one import only. */
  lemma MovedFrame(w: World, id: nat, move: Move)
    requires w.coordinator.Up? && id in w.coordinator.tasks && id in w.jobs && MoveEnabled(w, id, move)
    ensures var w' := Moved(w, id, move);
            var c' := w'.coordinator;
            && w.coordinator.tasks[id] != Finished && c'.Up? && id in c'.tasks && id in w'.jobs
            && w' == World(w.jobs[id := w'.jobs[id]], w'.assets, w'.staging, w'.store,
                           w.coordinator.(tasks := w.coordinator.tasks[id := c'.tasks[id]], signaled := c'.signaled), w.workers)
            && w'.staging - {id} == w.staging - {id} && w'.store - {id} == w.store - {id}
            && (c'.signaled == w.coordinator.signaled || c'.signaled == w.coordinator.signaled + {id})
            && (w'.assets == w.assets
                || exists a: nat :: a !in w.assets && w'.assets == w.assets[a := StoreDir(id)] && !Named(w.assets, StoreDir(id)))
  {
    assert w.jobs[id := w.jobs[id]] == w.jobs;
  }

  lemma TaskStepKeepsInv(w: World, id: nat, move: Move)
    requires Inv(w) && Enabled(w, TaskStep(id, move))
    ensures Inv(Next(w, TaskStep(id, move)))
  {
    MovedFits(w, id, move);
    MovedFrame(w, id, move);
    var w' := Moved(w, id, move);
    var c := w'.coordinator;
    MoveKeepsInv(w, id, c.tasks[id], w'.jobs[id], w'.assets, w'.staging, w'.store, c.signaled);
  }

  /** A step of a recovery pass removes at most the directories of the job in hand, which no asset names. */
  lemma RecoveringFrame(w: World, ok: bool)
    requires Inv(w) && Enabled(w, RecoveryStep(ok))
    ensures var w' := Recovering(w, ok);
            var (rec, rec') := (w.coordinator.recovery.value, w'.coordinator.recovery.value);
            var id := rec.todo[0];
            && w' == w.(staging := w'.staging, store := w'.store, coordinator := w.coordinator.(recovery := Some(rec')))
            && w.staging - {id} <= w'.staging <= w.staging && w.store - {id} <= w'.store <= w.store
            && (w'.staging + w'.store != w.staging + w.store || w'.store != w.store ==> !Named(w.assets, StoreDir(id)))
            && (w'.store != w.store ==> id !in w.staging)
            && id in w.jobs && Abandoned(w.jobs[id], w.coordinator.worker)
  {
    var id := w.coordinator.recovery.value.todo[0];
    assert id in w.coordinator.recovery.value.todo;
  }

  lemma RecoveringFits(w: World, ok: bool)
    requires Inv(w) && Enabled(w, RecoveryStep(ok))
    ensures var w' := Recovering(w, ok);
            RecoveryFits(w', w'.coordinator.recovery.value, w.coordinator.worker)
  {
    var w' := Recovering(w, ok);
    var (rec, rec') := (w.coordinator.recovery.value, w'.coordinator.recovery.value);
    var id := rec.todo[0];
    assert id in rec.todo && JobFits(w.jobs[id], id, w.assets, w.staging, w.store);
    assert rec'.todo == rec.todo || rec'.todo == rec.todo[1..];
    forall k <- rec'.todo ensures k in rec.todo && (rec'.todo == rec.todo[1..] ==> k != id) {
    }
    if rec'.todo == rec.todo[1..] && rec'.todo != rec.todo {
      assert UpdateFits(w.jobs[id], rec'.updates[id], id, w'.staging, w'.store);
    }
  }

  lemma RecoveryStepKeepsInv(w: World, ok: bool)
    requires Inv(w) && Enabled(w, RecoveryStep(ok))
    ensures Inv(Next(w, RecoveryStep(ok)))
  {
    var w' := Recovering(w, ok);
    var id := w.coordinator.recovery.value.todo[0];
    RecoveringFrame(w, ok);
    RecoveringFits(w, ok);
    ShrinkingKeepsFits(w, id, w'.staging, w'.store, w'.coordinator.recovery);
  }

  lemma ShrinkingKeepsFits(w: World, id: nat, staging': set<nat>, store': set<nat>, recovery': Option<Recovery>)
    requires Inv(w) && w.coordinator.Up? && id in w.jobs && Abandoned(w.jobs[id], w.coordinator.worker)
    requires w.staging - {id} <= staging' <= w.staging && w.store - {id} <= store' <= w.store
    ensures var w' := w.(staging := staging', store := store', coordinator := w.coordinator.(recovery := recovery'));
            JobsFit(w') && TasksFit(w')
  {
    var w' := w.(staging := staging', store := store', coordinator := w.coordinator.(recovery := recovery'));
    forall k <- w.jobs ensures JobFits(w.jobs[k], k, w.assets, staging', store') {
      assert JobFits(w.jobs[k], k, w.assets, w.staging, w.store);
      assert k != id ==> (k in store' <==> k in w.store);
    }
    forall k <- w.coordinator.tasks ensures TaskFits(w.jobs[k], k, w.coordinator.tasks[k], w'.coordinator, staging', store') {
      assert TaskFits(w.jobs[k], k, w.coordinator.tasks[k], w.coordinator, w.staging, w.store);
      assert k != id ==> (k in store' <==> k in w.store) && (k in staging' <==> k in w.staging);
    }
  }

  lemma CommitRecoveryKeepsInv(w: World)
    requires Inv(w) && Enabled(w, CommitRecovery)
    ensures Inv(Next(w, CommitRecovery))
  {
    var w' := Next(w, CommitRecovery);
    var updates := w.coordinator.recovery.value.updates;
    forall id <- w'.jobs ensures JobFits(w'.jobs[id], id, w'.assets, w'.staging, w'.store) {
      assert id in w.jobs && JobFits(w.jobs[id], id, w.assets, w.staging, w.store);
    }
    forall id <- w'.coordinator.tasks
      ensures TaskFits(w'.jobs[id], id, w'.coordinator.tasks[id], w'.coordinator, w'.staging, w'.store)
    {
      assert TaskFits(w.jobs[id], id, w.coordinator.tasks[id], w.coordinator, w.staging, w.store);
    }
  }

  lemma ClaimKeepsInv(w: World, id: nat, now: int)
    requires Inv(w) && Enabled(w, ClaimJob(id, now))
    ensures Inv(Next(w, ClaimJob(id, now)))
  {
    var w' := Next(w, ClaimJob(id, now));
    assert JobFits(w.jobs[id], id, w.assets, w.staging, w.store);
    forall k <- w'.coordinator.tasks
      ensures k in w'.jobs && TaskFits(w'.jobs[k], k, w'.coordinator.tasks[k], w'.coordinator, w'.staging, w'.store)
    {
      if k != id { assert k in w.coordinator.tasks; }
    }
  }

  lemma RegisterKeepsInv(w: World, a: nat, path: Path)
    requires Inv(w) && Enabled(w, RegisterAsset(a, path))
    ensures Inv(Next(w, RegisterAsset(a, path)))
  {
    var w' := Next(w, RegisterAsset(a, path));
    assert JobsFit(w');
    if w.coordinator.Up? && w.coordinator.recovery.Some? {
      var rec := w.coordinator.recovery.value;
      if rec.at != Inspecting {
        assert rec.todo[0] in Locked(w.coordinator);
      }
    }
  }

  lemma BeatKeepsInv(w: World, now: int)
    requires Inv(w) && Enabled(w, Heartbeat(now))
    ensures Inv(Next(w, Heartbeat(now)))
  {
    var w' := Next(w, Heartbeat(now));
    assert JobsFit(w') && TasksFit(w');
  }

  lemma BeginRecoveryKeepsInv(w: World, order: seq<nat>, cutoff: int)
    requires Inv(w) && Enabled(w, BeginRecovery(order, cutoff))
    ensures Inv(Next(w, BeginRecovery(order, cutoff)))
  {
  }

  lemma ControlKeepsInv(w: World, e: Event)
    requires Inv(w) && Enabled(w, e) && (e.SignalCanceling? || e.BeginShutdown? || e.Boot? || e.Crash?)
    ensures Inv(Next(w, e))
  {
  }

  lemma StepKeepsInv(w: World, e: Event)
    requires Inv(w) && Enabled(w, e)
    ensures Inv(Next(w, e))
  {
    match e
    case CancelJob(id) =>
      assert JobFits(w.jobs[id], id, w.assets, w.staging, w.store);
      RowChangeKeepsInv(w, id, CancelAsked(w.jobs[id]));
    case ReportProgress(id, validating, now) =>
      RunningIsNotLocked(w, id);
      assert JobFits(w.jobs[id], id, w.assets, w.staging, w.store);
      RowChangeKeepsInv(w, id, Progressed(w.jobs[id], validating, now));
    case TaskStep(id, move) => TaskStepKeepsInv(w, id, move);
    case RecoveryStep(ok) => RecoveryStepKeepsInv(w, ok);
    case CommitRecovery => CommitRecoveryKeepsInv(w);
    case ClaimJob(id, now) => ClaimKeepsInv(w, id, now);
    case RegisterAsset(a, path) => RegisterKeepsInv(w, a, path);
    case CreateJob(id, at) =>
      assert id !in w.staging + w.store;
      RowChangeKeepsInv(w, id, NewJob(at));
    case Heartbeat(now) => BeatKeepsInv(w, now);
    case BeginRecovery(order, cutoff) => BeginRecoveryKeepsInv(w, order, cutoff);
    case SignalCanceling => ControlKeepsInv(w, e);
    case BeginShutdown => ControlKeepsInv(w, e);
    case Boot(_) => ControlKeepsInv(w, e);
    case Crash => ControlKeepsInv(w, e);
  }

  lemma {:induction false} InvAlongRun(states: seq<World>, events: seq<Event>, n: nat)
    requires Run(states, events) && n < |states|
    ensures Inv(states[n])
  {
    if n > 0 {
      InvAlongRun(states, events, n - 1);
      StepKeepsInv(states[n - 1], events[n - 1]);
    }
  }

  // ---- Results over runs ----

  /** A job that waits to be claimed has neither a staging nor a store directory, so the import that
      claims it never finds its id in use and can start from nothing, however often it was interrupted. */
  lemma PendingJobsHaveNoDirectories(states: seq<World>, events: seq<Event>, n: nat, id: nat)
    requires Run(states, events) && n < |states| && id in states[n].jobs
    ensures states[n].jobs[id].status == Pending ==> id !in states[n].staging && id !in states[n].store
    ensures states[n].coordinator.Up? && id in states[n].coordinator.tasks && states[n].coordinator.tasks[id] == Checking ==>
              Next(states[n], TaskStep(id, MakeStaging(true))).coordinator.tasks[id] == Filling
  {
    InvAlongRun(states, events, n);
    var w := states[n];
    assert JobFits(w.jobs[id], id, w.assets, w.staging, w.store);
    if w.coordinator.Up? && id in w.coordinator.tasks {
      assert TaskFits(w.jobs[id], id, w.coordinator.tasks[id], w.coordinator, w.staging, w.store);
    }
  }

  /** The asset of a published job: linked, the only one that names its directory, and the directory is there. */
  ghost predicate Published(w: World, id: nat) {
    && id in w.jobs && w.jobs[id].asset.Some? && w.jobs[id].asset.value in w.assets
    && (forall a <- w.assets :: w.assets[a] == StoreDir(id) <==> a == w.jobs[id].asset.value)
    && id in w.store
  }

  /** READY means published; a link to an asset always means published. */
  lemma ReadyMeansPublished(states: seq<World>, events: seq<Event>, n: nat, id: nat)
    requires Run(states, events) && n < |states| && id in states[n].jobs
    ensures states[n].jobs[id].status == Ready || states[n].jobs[id].asset.Some? ==> Published(states[n], id)
  {
    InvAlongRun(states, events, n);
    var w := states[n];
    assert JobFits(w.jobs[id], id, w.assets, w.staging, w.store);
  }

  /** Nothing, recovery included, ever removes a store directory that an asset names. */
  lemma NamedDirectoriesStay(states: seq<World>, events: seq<Event>, n: nat, id: nat)
    requires Run(states, events) && n < |events|
    requires id in states[n].store && id !in states[n + 1].store
    ensures !Named(states[n].assets, StoreDir(id)) && !Named(states[n + 1].assets, StoreDir(id))
    ensures events[n].RecoveryStep?
  {
    InvAlongRun(states, events, n);
    if events[n].RecoveryStep? {
      RecoveringFrame(states[n], events[n].ok);
    }
  }

  /** A job ends CANCELED, or is being canceled, only after somebody asked for it. */
  lemma CancellationIsRequested(states: seq<World>, events: seq<Event>, n: nat, id: nat)
    requires Run(states, events) && n < |states| && id in states[n].jobs
    ensures states[n].jobs[id].status == Canceled || states[n].jobs[id].status == Canceling ==> states[n].jobs[id].cancelRequested
  {
    InvAlongRun(states, events, n);
    assert JobFits(states[n].jobs[id], id, states[n].assets, states[n].staging, states[n].store);
  }

  // ---- Recovery reaches every job of a coordinator that has gone ----

  /** The jobs a worker has left in the middle of an import. */
  function LeftBy(jobs: Jobs, worker: nat): set<nat> {
    set id | id in jobs && jobs[id].claimedBy == Some(worker) && jobs[id].status in {Transferring, Validating, Canceling}
  }

  /** A recovery pass from its look at the rows at `i` to its commit at `j`. */
  ghost predicate PassFrom(states: seq<World>, events: seq<Event>, i: nat, j: nat) {
    && Run(states, events) && i < j < |events| && events[i].BeginRecovery? && events[j].CommitRecovery?
    && forall k {:trigger events[k]} :: i < k < j ==> !events[k].Crash? && !events[k].BeginShutdown? && !events[k].CommitRecovery?
  }

  /** The pass in progress is that of `worker` over the jobs `stale`, done or still to do. */
  ghost predicate PassOver(w: World, worker: nat, stale: set<nat>) {
    && w.coordinator.Up? && w.coordinator.worker == worker && w.coordinator.recovery.Some?
    && var rec := w.coordinator.recovery.value;
       forall id :: id in stale <==> id in rec.todo || id in rec.updates
  }

  lemma StepKeepsPass(w: World, e: Event, worker: nat, stale: set<nat>)
    requires Inv(w) && Enabled(w, e) && PassOver(w, worker, stale)
    requires !e.Crash? && !e.BeginShutdown? && !e.CommitRecovery?
    ensures PassOver(Next(w, e), worker, stale)
  {
    match e
    case TaskStep(id, move) => MovedFrame(w, id, move);
    case RecoveryStep(ok) =>
      var (rec, rec') := (w.coordinator.recovery.value, Recovering(w, ok).coordinator.recovery.value);
      assert rec.todo == [rec.todo[0]] + rec.todo[1..];
      assert rec'.todo == rec.todo || rec'.todo == rec.todo[1..];
    case _ =>
  }

  /** Nobody takes up an import under the name of a worker that has gone. */
  lemma NothingIsLeftAnew(w: World, e: Event, gone: nat)
    requires Inv(w) && Enabled(w, e) && w.coordinator.Up? && w.coordinator.worker != gone && !e.CommitRecovery?
    ensures LeftBy(Next(w, e).jobs, gone) <= LeftBy(w.jobs, gone)
  {
    match e
    case TaskStep(id, move) =>
      MovedFrame(w, id, move);
      assert TaskFits(w.jobs[id], id, w.coordinator.tasks[id], w.coordinator, w.staging, w.store);
    case ReportProgress(id, _, _) =>
      assert TaskFits(w.jobs[id], id, w.coordinator.tasks[id], w.coordinator, w.staging, w.store);
    case RecoveryStep(ok) => RecoveringFrame(w, ok);
    case _ =>
  }

  lemma {:induction false} PassAlong(states: seq<World>, events: seq<Event>, i: nat, j: nat, k: nat, gone: nat)
    requires PassFrom(states, events, i, j) && i < k <= j && states[i].coordinator.worker != gone
    ensures var worker := states[i].coordinator.worker;
            PassOver(states[k], worker, StaleJobs(states[i].jobs, worker, events[i].cutoff))
    ensures LeftBy(states[k].jobs, gone) <= LeftBy(states[i].jobs, gone)
    decreases k
  {
    InvAlongRun(states, events, k - 1);
    if k > i + 1 {
      PassAlong(states, events, i, j, k - 1, gone);
      var worker := states[i].coordinator.worker;
      StepKeepsPass(states[k - 1], events[k - 1], worker, StaleJobs(states[i].jobs, worker, events[i].cutoff));
    }
    NothingIsLeftAnew(states[k - 1], events[k - 1], gone);
  }

  /** After a pass whose cut-off is later than every claim of a worker that has gone, none of that worker's jobs
      is left in the middle of an import, whatever requests and imports went on meanwhile. */
  lemma RecoveryLeavesNothingBehind(states: seq<World>, events: seq<Event>, i: nat, j: nat, gone: nat)
    requires PassFrom(states, events, i, j) && states[i].coordinator.worker != gone
    requires var before := states[i].jobs;
             forall id <- before :: before[id].claimedBy == Some(gone) ==>
               before[id].claimedAt.None? || before[id].claimedAt.value < events[i].cutoff
    ensures var after := states[j + 1].jobs;
            forall id <- after :: after[id].claimedBy == Some(gone) ==> after[id].status !in {Transferring, Validating, Canceling}
  {
    var (w, worker) := (states[j], states[i].coordinator.worker);
    PassAlong(states, events, i, j, j, gone);
    InvAlongRun(states, events, j);
    forall id <- LeftBy(w.jobs, gone) ensures id in StaleJobs(states[i].jobs, worker, events[i].cutoff) {
      assert id in LeftBy(states[i].jobs, gone);
    }
    CommitSettles(w, worker, StaleJobs(states[i].jobs, worker, events[i].cutoff), gone);
    var after := states[j + 1].jobs;
    assert forall id <- after :: id !in LeftBy(after, gone);
  }

  lemma CommitSettles(w: World, worker: nat, stale: set<nat>, gone: nat)
    requires Inv(w) && Enabled(w, CommitRecovery) && PassOver(w, worker, stale) && LeftBy(w.jobs, gone) <= stale
    ensures LeftBy(Next(w, CommitRecovery).jobs, gone) == {}
  {
    var (rec, w') := (w.coordinator.recovery.value, Next(w, CommitRecovery));
    forall id <- rec.updates ensures w'.jobs[id].status in {Pending, Canceled, Failed} {
      assert UpdateFits(w.jobs[id], rec.updates[id], id, w.staging, w.store);
    }
    forall id <- w'.jobs ensures id !in LeftBy(w'.jobs, gone) {
      assert id in LeftBy(w.jobs, gone) ==> id in rec.updates;
    }
  }

  // ---- Commits whose outcome is known ----

  /** The one way in which a link and READY come apart: a commit that took effect but was reported as failed. */
  ghost predicate CommitIsLost(e: Event) {
    e.TaskStep? && e.move.CommitLost?
  }

  ghost predicate NoCommitLost(events: seq<Event>) {
    forall i :: 0 <= i < |events| ==> !CommitIsLost(events[i])
  }

  ghost predicate EndsSettled(w: World) {
    && (forall id <- w.jobs :: w.jobs[id].asset.Some? ==> w.jobs[id].status == Ready)
    && (w.coordinator.Up? ==> forall id <- w.coordinator.tasks ::
          id in w.jobs && (w.coordinator.tasks[id] != Finished ==> ActiveImport(w.jobs[id].status)))
  }

  lemma CommitKeepsSettled(w: World)
    requires Inv(w) && Enabled(w, CommitRecovery) && EndsSettled(w)
    ensures EndsSettled(Next(w, CommitRecovery))
  {
    var updates := w.coordinator.recovery.value.updates;
    assert forall id <- updates :: UpdateFits(w.jobs[id], updates[id], id, w.staging, w.store);
    forall id <- w.coordinator.tasks | w.coordinator.tasks[id] != Finished ensures id !in updates {
      RunningIsNotLocked(w, id);
    }
  }

  lemma TaskKeepsSettled(w: World, id: nat, move: Move)
    requires Inv(w) && Enabled(w, TaskStep(id, move)) && EndsSettled(w) && !move.CommitLost?
    ensures EndsSettled(Next(w, TaskStep(id, move)))
  {
    var w' := Moved(w, id, move);
    MovedFrame(w, id, move);
    assert JobFits(w.jobs[id], id, w.assets, w.staging, w.store);
    MovedStaysSettled(w, id, move);
    OthersStaySettled(w, id, w'.jobs[id], w'.coordinator.tasks[id], w'.coordinator.signaled);
  }

  lemma OthersStaySettled(w: World, id: nat, j': Job, pc: TaskPc, signaled: set<nat>)
    requires EndsSettled(w) && w.coordinator.Up? && id in w.jobs
    requires (pc != Finished ==> ActiveImport(j'.status)) && (j'.asset.Some? ==> j'.status == Ready)
    ensures EndsSettled(w.(jobs := w.jobs[id := j'],
                           coordinator := w.coordinator.(tasks := w.coordinator.tasks[id := pc], signaled := signaled)))
  {
  }

  lemma StepKeepsSettled(w: World, e: Event)
    requires Inv(w) && Enabled(w, e) && EndsSettled(w) && !CommitIsLost(e)
    ensures EndsSettled(Next(w, e))
  {
    match e
    case TaskStep(id, move) => TaskKeepsSettled(w, id, move);
    case CommitRecovery => CommitKeepsSettled(w);
    case RecoveryStep(ok) => RecoveringFrame(w, ok);
    case _ =>
  }

  lemma MovedStaysSettled(w: World, id: nat, move: Move)
    requires w.coordinator.Up? && id in w.coordinator.tasks && id in w.jobs && MoveEnabled(w, id, move) && !move.CommitLost?
    requires ActiveImport(w.jobs[id].status) && w.jobs[id].asset.None?
    ensures var w' := Moved(w, id, move);
            && (w'.coordinator.tasks[id] != Finished ==> ActiveImport(w'.jobs[id].status))
            && (w'.jobs[id].asset.Some? ==> w'.jobs[id].status == Ready)
  {
  }

  lemma {:induction false} SettledAlongRun(states: seq<World>, events: seq<Event>, n: nat)
    requires Run(states, events) && NoCommitLost(events) && n < |states|
    ensures EndsSettled(states[n])
  {
    if n > 0 {
      SettledAlongRun(states, events, n - 1);
      InvAlongRun(states, events, n - 1);
      StepKeepsSettled(states[n - 1], events[n - 1]);
    }
  }

  /** With every commit's outcome known, READY holds exactly when the job is published. */
  lemma ReadyIsPublished(states: seq<World>, events: seq<Event>, n: nat, id: nat)
    requires Run(states, events) && NoCommitLost(events) && n < |states| && id in states[n].jobs
    ensures states[n].jobs[id].status == Ready <==> Published(states[n], id)
  {
    ReadyMeansPublished(states, events, n, id);
    SettledAlongRun(states, events, n);
  }

  lemma EndIsKept(w: World, e: Event, id: nat)
    requires Inv(w) && EndsSettled(w) && Enabled(w, e) && id in w.jobs && Ended(w.jobs[id].status)
    ensures id in Next(w, e).jobs
    ensures Next(w, e).jobs[id].status == w.jobs[id].status && Next(w, e).jobs[id].asset == w.jobs[id].asset
  {
    match e
    case TaskStep(k, move) =>
      MovedFrame(w, k, move);
    case CommitRecovery =>
      assert id !in w.coordinator.recovery.value.updates;
    case RecoveryStep(ok) => RecoveringFrame(w, ok);
    case _ =>
  }

  /** With every commit's outcome known, READY, FAILED and CANCELED are final, crashes or not. */
  lemma {:induction false} EndsAreFinal(states: seq<World>, events: seq<Event>, i: nat, j: nat, id: nat)
    requires Run(states, events) && NoCommitLost(events) && i <= j < |states|
    requires id in states[i].jobs && Ended(states[i].jobs[id].status)
    ensures id in states[j].jobs && states[j].jobs[id].status == states[i].jobs[id].status
    ensures states[j].jobs[id].asset == states[i].jobs[id].asset
    decreases j
  {
    if i < j {
      EndsAreFinal(states, events, i, j - 1, id);
      InvAlongRun(states, events, j - 1);
      SettledAlongRun(states, events, j - 1);
      EndIsKept(states[j - 1], events[j - 1], id);
    }
  }

  /** A lost commit does break it, every time: the import is published, then marked FAILED. */
  lemma LostCommitFailsAPublishedJob(w: World, id: nat, asset: nat)
    requires Inv(w) && Enabled(w, TaskStep(id, CommitLost(asset)))
    ensures var lost := Next(w, TaskStep(id, CommitLost(asset)));
            && Enabled(lost, TaskStep(id, End))
            && Next(lost, TaskStep(id, End)).jobs[id].status == Failed
            && Published(Next(lost, TaskStep(id, End)), id)
  {
    assert TaskFits(w.jobs[id], id, w.coordinator.tasks[id], w.coordinator, w.staging, w.store);
  }

  // ---- A run that loses its commit ----

  ghost predicate Reachable(w: World) {
    exists states: seq<World>, events: seq<Event> :: Run(states, events) && states[|events|] == w
  }

  lemma Reach(w: World, e: Event)
    requires Reachable(w) && Enabled(w, e)
    ensures Reachable(Next(w, e))
  {
    var states: seq<World>, events: seq<Event> :| Run(states, events) && states[|events|] == w;
    assert Run(states + [Next(w, e)], events + [e]);
  }

  /** One import at `pc`, claimed by the only coordinator. */
  ghost function Alone(pc: TaskPc, staging: set<nat>, store: set<nat>): World {
    World(map[0 := ClaimedJob(NewJob(0), 0, 0)], map[], staging, store, Up(0, map[0 := pc], {}, false, None), {0})
  }

  lemma ClaimedIsReachable()
    ensures Reachable(Alone(Opening, {}, {}))
  {
    assert Run([INITIAL], []) && [INITIAL][0] == INITIAL;
    Reach(INITIAL, CreateJob(0, 0));
    var created := Next(INITIAL, CreateJob(0, 0));
    Reach(created, Boot(0));
    var booted := Next(created, Boot(0));
    Reach(booted, ClaimJob(0, 0));
    var claimed := Next(booted, ClaimJob(0, 0));
    assert claimed.coordinator.tasks == map[0 := Opening] && claimed.coordinator.signaled == {};
    assert claimed.jobs == map[0 := ClaimedJob(NewJob(0), 0, 0)];
    assert claimed == Alone(Opening, {}, {});
  }

  lemma MoveAlone(move: Move, pc: TaskPc, staging: set<nat>, store: set<nat>, pc': TaskPc, staging': set<nat>, store': set<nat>)
    requires Reachable(Alone(pc, staging, store)) && MoveEnabled(Alone(pc, staging, store), 0, move)
    requires move.Open? || move.MakeStaging? || move.Rename? || move.AfterRename?
    requires var w' := Moved(Alone(pc, staging, store), 0, move);
             w'.coordinator.tasks[0] == pc' && w'.staging == staging' && w'.store == store'
    ensures Reachable(Alone(pc', staging', store'))
  {
    Reach(Alone(pc, staging, store), TaskStep(0, move));
    var w' := Moved(Alone(pc, staging, store), 0, move);
    assert w'.coordinator.tasks == map[0 := pc'] && w'.coordinator.signaled == {};
    assert w' == Alone(pc', staging', store');
  }

  lemma FinalizingIsReachable()
    ensures Reachable(Alone(Finalizing, {}, {0}))
  {
    ClaimedIsReachable();
    MoveAlone(Open(true), Opening, {}, {}, Checking, {}, {});
    MoveAlone(MakeStaging(true), Checking, {}, {}, Filling, {0}, {});
    MoveAlone(Rename, Filling, {0}, {}, Renamed, {}, {0});
    MoveAlone(AfterRename(true), Renamed, {}, {0}, Finalizing, {}, {0});
  }

  lemma ReachableIsInv(w: World)
    requires Reachable(w)
    ensures Inv(w)
  {
    var states: seq<World>, events: seq<Event> :| Run(states, events) && states[|events|] == w;
    InvAlongRun(states, events, |events|);
  }

  /** An ordinary import whose last commit is reported as failed although it took effect: in a reachable
      state the job is FAILED while its asset is linked and its directory published. */
  lemma LostCommitInARun()
    ensures exists w :: Reachable(w) && 0 in w.jobs && w.jobs[0].status == Failed && Published(w, 0)
  {
    FinalizingIsReachable();
    var w := Alone(Finalizing, {}, {0});
    ReachableIsInv(w);
    var commit := TaskStep(0, CommitLost(0));
    LostCommitFailsAPublishedJob(w, 0, 0);
    Reach(w, commit);
    Reach(Next(w, commit), TaskStep(0, End));
  }
}
