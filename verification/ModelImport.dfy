/** Import jobs as the coordinator's transactions change them, and the recovery pass over jobs whose
    coordinator has gone. */
module ModelImport {
  import opened Contract

  datatype ImportStatus = Pending | Transferring | Validating | Canceling | Ready | Failed | Canceled

  datatype Job = Job(
    status: ImportStatus, createdAt: int, claimedBy: Option<nat>, claimedAt: Option<int>,
    cancelRequested: bool, asset: Option<nat>)

  type Jobs = map<nat, Job>

  /** Where an asset's files are: the store directory named after an import job, or some other place. */
  datatype Path = StoreDir(job: nat) | Elsewhere(place: nat)

  /** Asset rows by id; the path column is unique. */
  type Assets = map<nat, Path>

  predicate ActiveImport(s: ImportStatus) {
    s == Transferring || s == Validating || s == Canceling
  }

  predicate Ended(s: ImportStatus) {
    s == Ready || s == Failed || s == Canceled
  }

  function NewJob(createdAt: int): Job {
    Job(Pending, createdAt, None, None, false, None)
  }

  function ClaimedJob(j: Job, worker: nat, now: int): Job {
    j.(status := Transferring, claimedBy := Some(worker), claimedAt := Some(now))
  }

  function CancelAsked(j: Job): Job {
    match j.status
    case Pending => j.(status := Canceled, cancelRequested := true)
    case Transferring | Validating => j.(status := Canceling, cancelRequested := true)
    case _ => j
  }

  function Progressed(j: Job, validating: bool, now: int): Job {
    if Ended(j.status) then j
    else j.(status := if j.status == Canceling then Canceling else if validating then Validating else Transferring,
            claimedAt := Some(now))
  }

  function FinalizedJob(j: Job, asset: nat): Job {
    j.(status := Ready, asset := Some(asset))
  }

  function FailedJob(j: Job): Job {
    j.(status := if j.status == Canceling then Canceled else Failed)
  }

  function CanceledOrRetried(j: Job, shuttingDown: bool): Job {
    if shuttingDown && j.status != Canceling then j.(status := Pending, claimedBy := None, claimedAt := None)
    else j.(status := Canceled)
  }

  predicate Stale(j: Job, worker: nat, cutoff: int) {
    && ActiveImport(j.status) && j.claimedBy != Some(worker)
    && (j.claimedAt.Some? ==> j.claimedAt.value < cutoff)
  }

  function StaleJobs(jobs: Jobs, worker: nat, cutoff: int): set<nat> {
    set id | id in jobs && Stale(jobs[id], worker, cutoff)
  }

  predicate Named(assets: Assets, p: Path) {
    p in assets.Values
  }

  /** What recovery makes of one stale job, given whether another asset names its store directory and
      whether all its directories could be removed. */
  function RecoveredJob(j: Job, named: bool, removed: bool): Job {
    if j.asset.Some? then j.(status := Ready)
    else if named || !removed then j.(status := Failed)
    else if j.status == Canceling then j.(status := Canceled, claimedBy := None, claimedAt := None)
    else j.(status := Pending, cancelRequested := false, claimedBy := None, claimedAt := None)
  }

  predicate MustRemove(j: Job, named: bool) {
    j.asset.None? && !named
  }

  predicate ClaimedFirst(jobs: Jobs, id: nat) {
    && id in jobs && jobs[id].status == Pending
    && forall k <- jobs :: jobs[k].status == Pending && k != id ==>
         jobs[id].createdAt < jobs[k].createdAt || (jobs[id].createdAt == jobs[k].createdAt && id < k)
  }

  /** Jobs together with the staging and store directories named after them. */
  datatype Stored = Stored(jobs: Jobs, staging: set<nat>, store: set<nat>)

  function RecoverJob(s: Stored, assets: Assets, id: nat, removable: bool): Stored
    requires id in s.jobs
  {
    var named := Named(assets, StoreDir(id));
    var gone := if MustRemove(s.jobs[id], named) && removable then {id} else {};
    Stored(s.jobs[id := RecoveredJob(s.jobs[id], named, removable)], s.staging - gone, s.store - gone)
  }

  /** A whole pass: `stale` are the jobs to recover, `removable` those whose directories can be removed. */
  function RecoverAll(s: Stored, assets: Assets, stale: set<nat>, removable: set<nat>): Stored {
    var gone := Removed(s.jobs, assets, stale, removable);
    Stored(
      map id | id in s.jobs ::
        if id in stale then RecoveredJob(s.jobs[id], Named(assets, StoreDir(id)), id in removable) else s.jobs[id],
      s.staging - gone, s.store - gone)
  }

  function Removed(jobs: Jobs, assets: Assets, stale: set<nat>, removable: set<nat>): set<nat> {
    set id | id in stale && id in jobs && MustRemove(jobs[id], Named(assets, StoreDir(id))) && id in removable
  }

  /** The coordinator's view of the database and the two directory trees. */
  class ModelImportCoordinator {
    var jobs: Jobs
    var assets: Assets
    var staging: set<nat>
    var store: set<nat>
    var shuttingDown: bool
    const worker: nat

    constructor (worker: nat)
      ensures jobs == map[] && assets == map[] && staging == {} && store == {} && !shuttingDown
      ensures this.worker == worker
    {
      jobs, assets, staging, store, shuttingDown := map[], map[], {}, {}, false;
      this.worker := worker;
    }

    method ClaimNext(now: int) returns (claimed: Option<nat>)
      modifies this`jobs
      ensures claimed.None? <==> forall id <- old(jobs) :: old(jobs)[id].status != Pending
      ensures claimed.None? ==> jobs == old(jobs)
      ensures claimed.Some? ==>
        ClaimedFirst(old(jobs), claimed.value)
        && jobs == old(jobs)[claimed.value := ClaimedJob(old(jobs)[claimed.value], worker, now)]
    {
      var pending := set id | id in jobs && jobs[id].status == Pending;
      if pending == {} {
        assert forall id <- jobs :: id !in pending;
        return None;
      }
      var todo := pending;
      var first: nat :| first in todo;
      todo := todo - {first};
      while todo != {}
        invariant todo <= pending && first in pending
        invariant forall k <- pending - todo :: k != first ==>
          jobs[first].createdAt < jobs[k].createdAt || (jobs[first].createdAt == jobs[k].createdAt && first < k)
        decreases todo
      {
        var k: nat :| k in todo;
        if jobs[k].createdAt < jobs[first].createdAt || (jobs[k].createdAt == jobs[first].createdAt && k < first) {
          first := k;
        }
        todo := todo - {k};
      }
      assert forall k <- jobs :: jobs[k].status == Pending ==> k in pending;
      var j := jobs[first];
      j := j.(status := Transferring);
      j := j.(claimedBy := Some(worker), claimedAt := Some(now));
      jobs := jobs[first := j];
      claimed := Some(first);
    }

    method RequestCancel(id: nat) returns (found: bool)
      modifies this`jobs
      ensures found <==> id in old(jobs)
      ensures jobs == if found then old(jobs)[id := CancelAsked(old(jobs)[id])] else old(jobs)
    {
      if id !in jobs { return false; }
      var j := jobs[id];
      if j.status == Pending {
        j := j.(status := Canceled, cancelRequested := true);
      } else if j.status == Transferring || j.status == Validating {
        j := j.(status := Canceling, cancelRequested := true);
      }
      jobs := jobs[id := j];
      found := true;
    }

    method RecordProgress(id: nat, validating: bool, now: int)
      modifies this`jobs
      ensures jobs == if id in old(jobs) then old(jobs)[id := Progressed(old(jobs)[id], validating, now)] else old(jobs)
    {
      if id !in jobs { return; }
      var j := jobs[id];
      if j.status == Ready || j.status == Failed || j.status == Canceled {
        assert jobs[id := j] == jobs;
        return;
      }
      if j.status != Canceling {
        j := j.(status := if validating then Validating else Transferring);
      }
      j := j.(claimedAt := Some(now));
      jobs := jobs[id := j];
    }

    /** Link the published directory: both rows change, or, when the path is taken, neither. */
    method FinalizeReady(id: nat, asset: nat) returns (committed: bool)
      requires asset !in assets
      modifies this`jobs, this`assets
      ensures committed <==> id in old(jobs) && !Named(old(assets), StoreDir(id))
      ensures committed ==> jobs == old(jobs)[id := FinalizedJob(old(jobs)[id], asset)] && assets == old(assets)[asset := StoreDir(id)]
      ensures !committed ==> jobs == old(jobs) && assets == old(assets)
    {
      if id !in jobs || StoreDir(id) in assets.Values { return false; }
      assets := assets[asset := StoreDir(id)];
      var j := jobs[id];
      j := j.(asset := Some(asset));
      j := j.(status := Ready);
      jobs := jobs[id := j];
      committed := true;
    }

    method MarkFailed(id: nat)
      modifies this`jobs
      ensures jobs == if id in old(jobs) then old(jobs)[id := FailedJob(old(jobs)[id])] else old(jobs)
    {
      if id !in jobs { return; }
      var j := jobs[id];
      j := if j.status == Canceling then j.(status := Canceled) else j.(status := Failed);
      jobs := jobs[id := j];
    }

    method MarkCanceledOrRetry(id: nat)
      modifies this`jobs
      ensures jobs == if id in old(jobs) then old(jobs)[id := CanceledOrRetried(old(jobs)[id], shuttingDown)] else old(jobs)
    {
      if id !in jobs { return; }
      var j := jobs[id];
      if shuttingDown && j.status != Canceling {
        j := j.(status := Pending);
        j := j.(claimedBy := None, claimedAt := None);
      } else {
        j := j.(status := Canceled);
      }
      jobs := jobs[id := j];
    }

    ghost function View(): Stored
      reads this
    {
      Stored(jobs, staging, store)
    }

    method RecoverOne(id: nat, removable: bool)
      requires id in jobs
      modifies this`jobs, this`staging, this`store
      ensures View() == RecoverJob(old(View()), assets, id, removable)
    {
      var j := jobs[id];
      if j.asset.Some? {
        j := j.(status := Ready);
      } else if StoreDir(id) in assets.Values {
        j := j.(status := Failed);
      } else if !removable {
        j := j.(status := Failed);
      } else {
        staging := staging - {id};
        store := store - {id};
        if j.status == Canceling {
          j := j.(status := Canceled);
        } else {
          j := j.(status := Pending, cancelRequested := false);
        }
        j := j.(claimedBy := None, claimedAt := None);
      }
      jobs := jobs[id := j];
    }

    /** One recovery pass.  `removable` says which jobs' directories can be removed without an error;
        an error leaves that job's directories partly in place. */
    method RecoverStaleModelImports(cutoff: int, removable: set<nat>) returns (recovered: nat)
      modifies this`jobs, this`staging, this`store
      ensures View() == RecoverAll(old(View()), assets, StaleJobs(old(jobs), worker, cutoff), removable)
      ensures recovered == |StaleJobs(old(jobs), worker, cutoff)|
    {
      var stale := StaleJobs(jobs, worker, cutoff);
      var todo := stale;
      ghost var (before, done: set<nat>) := (View(), {});
      RecoverNone(before, assets, removable);
      recovered := 0;
      while todo != {}
        invariant done + todo == stale && done !! todo && stale <= before.jobs.Keys
        invariant View() == RecoverAll(before, assets, done, removable)
        invariant recovered + |todo| == |stale|
        decreases todo
      {
        var id: nat :| id in todo;
        RecoverAnother(before, assets, done, removable, id);
        RecoverOne(id, id in removable);
        done := done + {id};
        todo := todo - {id};
        recovered := recovered + 1;
      }
      assert done == stale;
    }
  }

  lemma RecoverNone(s: Stored, assets: Assets, removable: set<nat>)
    ensures RecoverAll(s, assets, {}, removable) == s
  {
    assert Removed(s.jobs, assets, {}, removable) == {};
    assert RecoverAll(s, assets, {}, removable).jobs == s.jobs;
  }

  lemma RecoverAnother(s: Stored, assets: Assets, done: set<nat>, removable: set<nat>, id: nat)
    requires id in s.jobs && id !in done
    ensures id in RecoverAll(s, assets, done, removable).jobs
    ensures RecoverAll(s, assets, done + {id}, removable)
         == RecoverJob(RecoverAll(s, assets, done, removable), assets, id, id in removable)
  {
    assert Removed(s.jobs, assets, done + {id}, removable)
        == Removed(s.jobs, assets, done, removable)
           + if MustRemove(s.jobs[id], Named(assets, StoreDir(id))) && id in removable then {id} else {};
    var a := RecoverAll(s, assets, done + {id}, removable);
    var b := RecoverJob(RecoverAll(s, assets, done, removable), assets, id, id in removable);
    assert a.jobs == b.jobs;
    assert a.staging == b.staging && a.store == b.store;
  }

  /** Recovery gives every stale job the one right status, removes exactly the unpublished directories,
      and touches nothing that is not stale. */
  lemma RecoveryIsExact(s: Stored, assets: Assets, stale: set<nat>, removable: set<nat>, id: nat)
    requires id in s.jobs && (id in stale ==> ActiveImport(s.jobs[id].status))
    ensures var s' := RecoverAll(s, assets, stale, removable);
            var (j, j') := (s.jobs[id], s'.jobs[id]);
            && (id !in stale ==> j' == j && (id in s'.staging <==> id in s.staging) && (id in s'.store <==> id in s.store))
            && (id in stale ==>
                  && !ActiveImport(j'.status)
                  && (j'.status == Ready <==> j.asset.Some?)
                  && (j'.status == Pending || j'.status == Canceled <==>
                        j.asset.None? && !Named(assets, StoreDir(id)) && id in removable)
                  && (j'.status == Canceled ==> j.status == Canceling) && (j'.status == Pending ==> j.status != Canceling)
                  && (j'.status == Pending || j'.status == Canceled ==> id !in s'.staging && id !in s'.store))
            && (Named(assets, StoreDir(id)) ==> (id in s'.store <==> id in s.store))
  {
  }

  // ---- What a user may rely on ----

  /** A cancellation wins over everything but an import that is already over: whatever progress, failure or
      shutdown comes after it, the job ends CANCELED, and asking again changes nothing. */
  lemma CancellationWins(j: Job, validating: bool, now: int, shuttingDown: bool)
    ensures var asked := CancelAsked(j);
            && CancelAsked(asked) == asked
            && (Ended(j.status) ==> asked == j)
            && (!Ended(j.status) ==> asked.status == Canceled || asked.status == Canceling)
            && (j.status == Pending ==> asked.status == Canceled)
            && (ActiveImport(j.status) ==>
                  && Progressed(asked, validating, now).status == Canceling
                  && FailedJob(Progressed(asked, validating, now)).status == Canceled
                  && CanceledOrRetried(Progressed(asked, validating, now), shuttingDown).status == Canceled)
            && (ActiveImport(j.status) ==> RecoveredJob(asked, false, true).status == if j.asset.Some? then Ready else Canceled)
  {
  }

  /** Reporting progress keeps the job from being taken for abandoned by any recovery pass whose cut-off is not
      after it, and never revives a job that is over or lets a cancellation be forgotten. */
  lemma ProgressKeepsTheJob(j: Job, validating: bool, now: int, worker: nat, cutoff: int)
    ensures var j' := Progressed(j, validating, now);
            && (cutoff <= now ==> !Stale(j', worker, cutoff))
            && (Ended(j'.status) <==> Ended(j.status)) && (Ended(j.status) ==> j' == j)
            && (j'.status == Canceling <==> j.status == Canceling)
            && j'.claimedBy == j.claimedBy && j'.asset == j.asset && j'.cancelRequested == j.cancelRequested
  {
  }

  /** A shutdown gives a claimed job back as it was before the claim, progress or not. */
  lemma ShutdownUndoesTheClaim(j: Job, worker: nat, claimedAt: int, validating: bool, now: int)
    requires j.status == Pending && j.claimedBy.None? && j.claimedAt.None?
    ensures CanceledOrRetried(Progressed(ClaimedJob(j, worker, claimedAt), validating, now), true) == j
  {
  }

  /** So the next coordinator claims it first again, if it was the first before. */
  lemma ShutdownKeepsThePlace(jobs: Jobs, id: nat, worker: nat, claimedAt: int, validating: bool, now: int)
    requires ClaimedFirst(jobs, id) && jobs[id].claimedBy.None? && jobs[id].claimedAt.None?
    ensures var claimed := Progressed(ClaimedJob(jobs[id], worker, claimedAt), validating, now);
            var retried := jobs[id := claimed][id := CanceledOrRetried(claimed, true)];
            retried == jobs && ClaimedFirst(retried, id)
  {
    ShutdownUndoesTheClaim(jobs[id], worker, claimedAt, validating, now);
    var claimed := Progressed(ClaimedJob(jobs[id], worker, claimedAt), validating, now);
    assert jobs[id := claimed][id := CanceledOrRetried(claimed, true)] == jobs;
  }

  /** A failure ends a job for good: canceled if that was asked for, failed otherwise. */
  lemma FailureEndsTheJob(j: Job, validating: bool, now: int)
    requires ActiveImport(j.status)
    ensures var failed := FailedJob(j);
            && Ended(failed.status) && (failed.status == Canceled <==> j.status == Canceling) && failed.asset == j.asset
            && CancelAsked(failed) == failed && Progressed(failed, validating, now) == failed
            && !ActiveImport(failed.status)
  {
  }

  /** A pass reaches every job that is still transferring, validating or being canceled under another worker's
      name, or nobody's, with a claim before the cut-off or none; each of them is settled or waits again, and no
      other job is touched. */
  lemma RecoveryReachesTheAbandoned(s: Stored, assets: Assets, worker: nat, cutoff: int, removable: set<nat>, id: nat)
    requires id in s.jobs
    ensures var s' := RecoverAll(s, assets, StaleJobs(s.jobs, worker, cutoff), removable);
            var j := s.jobs[id];
            var abandoned := && j.status in {Transferring, Validating, Canceling} && j.claimedBy != Some(worker)
                             && (j.claimedAt.None? || j.claimedAt.value < cutoff);
            && s'.jobs.Keys == s.jobs.Keys
            && (!abandoned ==> s'.jobs[id] == j)
            && (abandoned ==> s'.jobs[id].status in {Pending, Ready, Failed, Canceled})
            && (abandoned && j.asset.None? && (forall a <- assets :: assets[a] != StoreDir(id)) && id in removable ==>
                  && s'.jobs[id].status == (if j.status == Canceling then Canceled else Pending)
                  && s'.jobs[id].claimedBy == None && id !in s'.staging && id !in s'.store)
            && (s'.jobs[id].status in {Transferring, Validating, Canceling} ==>
                  s'.jobs[id].claimedBy == Some(worker) || (s'.jobs[id].claimedAt.Some? && s'.jobs[id].claimedAt.value >= cutoff))
  {
  }

  /** A claim puts the job in its first phase under the worker's name and time; progress then says which phase it is
      in, as long as nobody has asked to cancel it. */
  lemma PhasesFollow(j: Job, worker: nat, now: int, validating: bool, later: int, asset: nat)
    ensures var claimed := ClaimedJob(j, worker, now);
            && claimed.status == Transferring && claimed.claimedBy == Some(worker) && claimed.claimedAt == Some(now)
            && claimed.asset == j.asset && claimed.cancelRequested == j.cancelRequested && claimed.createdAt == j.createdAt
            && Progressed(claimed, false, later).status == Transferring && Progressed(claimed, true, later).status == Validating
            && Progressed(claimed, validating, later).claimedAt == Some(later)
    ensures FinalizedJob(j, asset).status == Ready && FinalizedJob(j, asset).asset == Some(asset)
  {
  }

  /** How a job begins, and how it ends when it is not finalized: canceled if that was asked for in time, and otherwise
      failed or, at a shutdown, waiting again without a worker. */
  lemma BeginningsAndEnds(j: Job, createdAt: int)
    ensures var first := NewJob(createdAt);
            && first.status == Pending && first.createdAt == createdAt && first.claimedBy == None && first.claimedAt == None
            && !first.cancelRequested && first.asset == None
    ensures j.status == Canceling ==> FailedJob(j) == CanceledOrRetried(j, true) == CanceledOrRetried(j, false) == j.(status := Canceled)
    ensures j.status != Canceling ==>
              && FailedJob(j) == j.(status := Failed) && CanceledOrRetried(j, false) == j.(status := Canceled)
              && CanceledOrRetried(j, true) == j.(status := Pending, claimedBy := None, claimedAt := None)
  {
  }

  /** The job that is claimed is pending, and every other pending one was created later, or at the same time under a
      higher id; and whenever any job is pending there is one to claim. */
  lemma OldestIsFirst(jobs: Jobs, id: nat)
    ensures ClaimedFirst(jobs, id) <==>
      && id in jobs && jobs[id].status == Pending
      && forall k <- jobs :: k != id && jobs[k].status == Pending ==>
           jobs[k].createdAt > jobs[id].createdAt || (jobs[k].createdAt == jobs[id].createdAt && k > id)
  {
  }

  lemma {:induction false} SomeoneIsFirst(jobs: Jobs, pending: set<nat>) returns (id: nat)
    requires pending != {} && forall k <- pending :: k in jobs
    ensures id in pending
    ensures forall k <- pending :: k != id ==>
              jobs[k].createdAt > jobs[id].createdAt || (jobs[k].createdAt == jobs[id].createdAt && k > id)
  {
    id :| id in pending;
    if pending != {id} {
      var other := SomeoneIsFirst(jobs, pending - {id});
      if jobs[other].createdAt < jobs[id].createdAt || (jobs[other].createdAt == jobs[id].createdAt && other < id) {
        id := other;
      }
    }
  }

  lemma ClaimingNeverStalls(jobs: Jobs)
    ensures (exists id :: ClaimedFirst(jobs, id)) <==> exists k <- jobs :: jobs[k].status == Pending
  {
    var pending := set k | k in jobs && jobs[k].status == Pending;
    if k :| k in jobs && jobs[k].status == Pending {
      assert k in pending;
      var id := SomeoneIsFirst(jobs, pending);
      assert ClaimedFirst(jobs, id);
    }
  }
}
