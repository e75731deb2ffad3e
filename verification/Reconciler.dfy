/** The control plane's rows and the transitions that the reconciler and the API routes make on them. */
module Reconciler {
  import opened Contract
  import opened GpuScheduler

  /** RUNNING, or what replaces it: STOPPED for a deployment, TERMINATED for a job. */
  datatype Desired = WantRunning | WantStopped

  datatype ActualState =
    | Created | Queued | Starting | Running | Stopping | Stopped | Canceling | Canceled | Succeeded | Failed

  datatype Row = Row(
    desired: Desired, actual: ActualState, gpuIds: seq<Gpu>, queuedAt: Option<int>, createdAt: int,
    stateVersion: Generation, runtimeGeneration: nat)

  type Rows = map<Owner, Row>

  datatype Snapshot = Snapshot(owner: Owner, generation: Generation, gpuIds: seq<Gpu>, desired: Desired)

  predicate ActiveRow(o: Owner, r: Row) {
    r.actual == Starting || r.actual == Running || r.actual == if IsJob(o) then Canceling else Stopping
  }

  predicate TerminalRow(o: Owner, r: Row) {
    if IsJob(o) then r.actual == Canceled || r.actual == Succeeded || r.actual == Failed
    else r.actual == Created || r.actual == Stopped || r.actual == Failed
  }

  predicate Startable(r: Row) {
    r.actual == Queued && r.desired == WantRunning
  }

  function EffectiveGeneration(r: Row): Generation {
    if r.runtimeGeneration == 0 then r.stateVersion else r.runtimeGeneration
  }

  function SnapshotOf(o: Owner, r: Row): Snapshot {
    Snapshot(o, EffectiveGeneration(r), r.gpuIds, r.desired)
  }

  // ---- The queue ----

  datatype QueueKey = QueueKey(at: int, rank: nat, id: nat)

  /** The type names in string order: deployment, evaluation, training. */
  function Rank(kind: OwnerType): nat {
    match kind
    case Deployment => 0
    case Evaluation => 1
    case Training => 2
  }

  function KeyOf(o: Owner, r: Row): QueueKey {
    QueueKey(if r.queuedAt.Some? then r.queuedAt.value else r.createdAt, Rank(o.kind), o.id)
  }

  predicate Before(a: QueueKey, b: QueueKey) {
    a.at < b.at || (a.at == b.at && (a.rank < b.rank || (a.rank == b.rank && a.id < b.id)))
  }

  function StartableOwners(rows: Rows): set<Owner> {
    set o | o in rows && Startable(rows[o])
  }

  ghost predicate IsHead(rows: Rows, o: Owner) {
    o in StartableOwners(rows) && forall p <- StartableOwners(rows) :: p == o || Before(KeyOf(o, rows[o]), KeyOf(p, rows[p]))
  }

  lemma HeadExists(rows: Rows, among: set<Owner>) returns (head: Owner)
    requires among != {} && among <= rows.Keys
    ensures head in among && forall p <- among :: p == head || Before(KeyOf(head, rows[head]), KeyOf(p, rows[p]))
  {
    head :| head in among;
    if among != {head} {
      var rest := HeadExists(rows, among - {head});
      if Before(KeyOf(rest, rows[rest]), KeyOf(head, rows[head])) { head := rest; }
    }
  }

  ghost function HeadOf(rows: Rows): (o: Owner)
    requires StartableOwners(rows) != {}
    ensures IsHead(rows, o)
  {
    assert exists o :: IsHead(rows, o) by {
      var o := HeadExists(rows, StartableOwners(rows));
      assert IsHead(rows, o);
    }
    var o :| IsHead(rows, o);
    o
  }

  // ---- Claiming ----

  /** Whether the execution of the head can be built: its files and settings are in order, they are
      not, or the attempt itself fails and aborts the round. */
  datatype Preflight = Ready | Unbuildable | Broken

  datatype ClaimResult =
    | ClaimEmpty | ClaimBlocked(holder: Owner) | Claimed(snapshot: Snapshot) | PreflightFailed(owner: Owner) | ClaimError

  ghost function Claim(rows: Rows, leases: LeaseTable, preflight: Preflight, now: int, ttl: nat, group: nat)
    : (Rows, LeaseTable, ClaimResult)
  {
    if StartableOwners(rows) == {} then (rows, leases, ClaimEmpty)
    else
      var o := HeadOf(rows);
      var r := rows[o];
      if preflight == Unbuildable && IsJob(o) then
        (rows[o := r.(actual := Failed, queuedAt := None, runtimeGeneration := 0)], leases, PreflightFailed(o))
      else if preflight != Ready then (rows, leases, ClaimError)
      else
        var (t, acquisition) := Acquire(leases, o, r.stateVersion, r.gpuIds, now, ttl, group);
        match acquisition
        case Acquired(_, _, _) =>
          var claimed := r.(actual := Starting, queuedAt := None, runtimeGeneration := r.stateVersion);
          (rows[o := claimed], t, Claimed(SnapshotOf(o, claimed)))
        case Blocked(holder, _) => (rows[o := r.(runtimeGeneration := 0)], leases, ClaimBlocked(holder))
        case _ => (rows, leases, ClaimError)
  }

  // ---- Observations ----

  function ObservedDeployment(r: Row, response: Response, now: int): Row {
    match response.observed
    case ObservedAbsent =>
      if !response.accepted then r.(actual := Failed)
      else if r.desired == WantRunning then r.(actual := Queued, queuedAt := Some(now), runtimeGeneration := 0)
      else r.(actual := Stopped)
    case ObservedFailed | ObservedSucceeded => r.(actual := Failed)
    case ObservedStarting => r.(actual := if r.desired == WantStopped then Stopping else Starting)
    case ObservedRunning => r.(actual := if r.desired == WantStopped then Stopping else Running)
    case ObservedStopping => r.(actual := Stopping)
  }

  function ObservedJob(r: Row, response: Response, artifactsValid: bool): Row {
    match response.observed
    case ObservedAbsent => r.(actual := if r.desired == WantStopped then Canceled else Failed)
    case ObservedSucceeded => r.(actual := if artifactsValid then Succeeded else Failed)
    case ObservedFailed => r.(actual := Failed)
    case ObservedStarting => r.(actual := if r.desired == WantStopped then Canceling else Starting)
    case ObservedRunning => r.(actual := if r.desired == WantStopped then Canceling else Running)
    case ObservedStopping => r.(actual := Canceling)
  }

  /** The answer concerns the row's current instance. */
  predicate Current(rows: Rows, s: Snapshot) {
    s.owner in rows && rows[s.owner].runtimeGeneration == s.generation
  }

  function Observe(
    rows: Rows, leases: LeaseTable, s: Snapshot, response: Response, artifactsValid: bool, now: int, ttl: nat
  ): (Rows, LeaseTable)
  {
    if !Current(rows, s) then (rows, leases)
    else
      var r := rows[s.owner];
      var r' := if IsJob(s.owner) then ObservedJob(r, response, artifactsValid) else ObservedDeployment(r, response, now);
      (rows[s.owner := r'],
       if EndReport(response.observed) then Release(leases, s.owner, s.generation)
       else Heartbeat(leases, s.owner, s.generation, now, ttl))
  }

  function FailStart(rows: Rows, leases: LeaseTable, s: Snapshot): (Rows, LeaseTable) {
    if !Current(rows, s) then (rows, leases)
    else (rows[s.owner := rows[s.owner].(actual := Failed)], Release(leases, s.owner, s.generation))
  }

  function ReapConfirmed(rows: Rows, leases: LeaseTable, now: int): set<(Owner, Generation)> {
    set g | g in leases && leases[g].expiresAt <= now
            && (leases[g].owner !in rows || TerminalRow(leases[g].owner, rows[leases[g].owner])) ::
      (leases[g].owner, leases[g].generation)
  }

  function ReapTerminal(rows: Rows, leases: LeaseTable, now: int): LeaseTable {
    Reap(leases, ReapConfirmed(rows, leases, now), now)
  }

  function ActionFor(s: Snapshot): Action {
    if s.desired == WantStopped then Stop else Status
  }

  predicate ProbeBeforeStop(s: Snapshot) {
    s.owner.kind == Training && s.desired == WantStopped
  }

  /** After a probe of a terminating training job that is still alive, the same workload is stopped. */
  predicate StopFollows(s: Snapshot, action: Action, reply: Reply) {
    && ProbeBeforeStop(s) && action == Status && reply.Answer? && reply.response.accepted
    && !EndReport(reply.response.observed)
  }

  function FirstAction(s: Snapshot): Action {
    if ProbeBeforeStop(s) then Status else ActionFor(s)
  }

  /** How the agent answers the calls of one inspection. */
  type Calls = (Snapshot, Action) -> Reply

  function ObserveReply(
    rows: Rows, leases: LeaseTable, s: Snapshot, reply: Reply, artifactsValid: bool, now: int, ttl: nat): (Rows, LeaseTable)
  {
    if reply.NoAnswer? then (rows, leases) else Observe(rows, leases, s, reply.response, artifactsValid, now, ttl)
  }

  /** Inspect one active workload: one call, and a stop after the probe of a live terminating training job. */
  function Inspect(
    rows: Rows, leases: LeaseTable, s: Snapshot, agent: Calls, artifactsValid: bool, now: int, ttl: nat): (Rows, LeaseTable)
  {
    var first := agent(s, FirstAction(s));
    var (rows', leases') := ObserveReply(rows, leases, s, first, artifactsValid, now, ttl);
    if StopFollows(s, FirstAction(s), first) then ObserveReply(rows', leases', s, agent(s, Stop), artifactsValid, now, ttl)
    else (rows', leases')
  }

  function InspectAll(
    rows: Rows, leases: LeaseTable, active: seq<Snapshot>, agent: Calls, artifactsValid: Owner -> bool, now: int, ttl: nat)
    : (Rows, LeaseTable)
  {
    if active == [] then (rows, leases)
    else
      var (rows', leases') := Inspect(rows, leases, active[0], agent, artifactsValid(active[0].owner), now, ttl);
      InspectAll(rows', leases', active[1..], agent, artifactsValid, now, ttl)
  }

  lemma ObservationsStayApart(
    rows: Rows, leases: LeaseTable, s: Snapshot, reply: Reply, artifactsValid: bool, now: int, ttl: nat, p: Owner)
    requires p != s.owner
    ensures var (rows', leases') := ObserveReply(rows, leases, s, reply, artifactsValid, now, ttl);
            && (p in rows' <==> p in rows) && (p in rows ==> rows'[p] == rows[p])
            && Owned(leases', p) == Owned(leases, p) && forall g <- Owned(leases, p) :: leases'[g] == leases[g]
  {
    var leases' := ObserveReply(rows, leases, s, reply, artifactsValid, now, ttl).1;
    assert forall g :: g in Owned(leases', p) <==> g in Owned(leases, p);
  }

  /** A workload that is not inspected keeps its row and its leases, whatever the agent answers. */
  lemma {:induction false} InspectionsStayApart(
    rows: Rows, leases: LeaseTable, active: seq<Snapshot>, agent: Calls, artifactsValid: Owner -> bool, now: int, ttl: nat, p: Owner)
    requires forall i :: 0 <= i < |active| ==> active[i].owner != p
    ensures var (rows', leases') := InspectAll(rows, leases, active, agent, artifactsValid, now, ttl);
            && (p in rows' <==> p in rows) && (p in rows ==> rows'[p] == rows[p])
            && Owned(leases', p) == Owned(leases, p) && forall g <- Owned(leases, p) :: leases'[g] == leases[g]
    decreases |active|
  {
    if active != [] {
      var (s, valid) := (active[0], artifactsValid(active[0].owner));
      var first := agent(s, FirstAction(s));
      ObservationsStayApart(rows, leases, s, first, valid, now, ttl, p);
      var (mid, held) := ObserveReply(rows, leases, s, first, valid, now, ttl);
      ObservationsStayApart(mid, held, s, agent(s, Stop), valid, now, ttl, p);
      var (rows', leases') := Inspect(rows, leases, s, agent, valid, now, ttl);
      InspectionsStayApart(rows', leases', active[1..], agent, artifactsValid, now, ttl, p);
    }
  }

  /** A training job that finished on its own is closed by what it achieved, not canceled, although its
      termination was asked for: the stop that would hide the result is never sent. */
  lemma FinishedTrainingIsNotCanceled(
    rows: Rows, leases: LeaseTable, s: Snapshot, agent: Calls, stopped: Reply, artifactsValid: bool, now: int, ttl: nat)
    requires Current(rows, s) && s.owner.kind == Training && s.desired == WantStopped
    requires agent(s, Status).Answer? && agent(s, Status).response.observed == ObservedSucceeded
    ensures var rows' := Inspect(rows, leases, s, agent, artifactsValid, now, ttl).0;
            rows'[s.owner].actual == if artifactsValid then Succeeded else Failed
    ensures var other := (t: Snapshot, a: Action) => if a == Stop then stopped else agent(t, a);
            Inspect(rows, leases, s, other, artifactsValid, now, ttl) == Inspect(rows, leases, s, agent, artifactsValid, now, ttl)
  {
  }

  /** No lease is held by the instance that a snapshot names. */
  predicate LeaseFree(leases: LeaseTable, s: Snapshot) {
    forall g <- leases :: leases[g].owner != s.owner || leases[g].generation != s.generation
  }

  /** A deployment or an evaluation that is to end is asked to stop, and nothing else: the answer to STOP decides,
      and an accepted ABSENT ends the row and gives its cards back. */
  lemma EndingWorkIsStopped(
    rows: Rows, leases: LeaseTable, s: Snapshot, agent: Calls, other: Calls, artifactsValid: bool, now: int, ttl: nat)
    requires s.desired == WantStopped && s.owner.kind != Training && agent(s, Stop) == other(s, Stop)
    ensures Inspect(rows, leases, s, agent, artifactsValid, now, ttl) == Inspect(rows, leases, s, other, artifactsValid, now, ttl)
    ensures var (rows', leases') := Inspect(rows, leases, s, agent, artifactsValid, now, ttl);
            && (agent(s, Stop) == NoAnswer ==> rows' == rows && leases' == leases)
            && (&& s.owner in rows && rows[s.owner].runtimeGeneration == s.generation && rows[s.owner].desired == WantStopped
                && agent(s, Stop).Answer? && agent(s, Stop).response.accepted && agent(s, Stop).response.observed == ObservedAbsent ==>
                  && s.owner in rows' && rows'[s.owner].actual == (if s.owner.kind == Deployment then Stopped else Canceled)
                  && LeaseFree(leases', s))
  {
  }

  /** Work that is to run is only looked at: the answer to STATUS decides. */
  lemma RunningWorkIsObserved(
    rows: Rows, leases: LeaseTable, s: Snapshot, agent: Calls, other: Calls, artifactsValid: bool, now: int, ttl: nat)
    requires s.desired == WantRunning && agent(s, Status) == other(s, Status)
    ensures Inspect(rows, leases, s, agent, artifactsValid, now, ttl) == Inspect(rows, leases, s, other, artifactsValid, now, ttl)
    ensures var (rows', leases') := Inspect(rows, leases, s, agent, artifactsValid, now, ttl);
            && (agent(s, Status) == NoAnswer ==> rows' == rows && leases' == leases)
            && (&& s.owner in rows && rows[s.owner].runtimeGeneration == s.generation && rows[s.owner].desired == WantRunning
                && agent(s, Status).Answer? && agent(s, Status).response.accepted ==>
                  && s.owner in rows'
                  && (agent(s, Status).response.observed == ObservedStarting ==> rows'[s.owner].actual == Starting)
                  && (agent(s, Status).response.observed == ObservedRunning ==> rows'[s.owner].actual == Running)
                  && (agent(s, Status).response.observed == ObservedFailed ==> rows'[s.owner].actual == Failed && LeaseFree(leases', s))
                  && (agent(s, Status).response.observed == ObservedAbsent ==>
                        && LeaseFree(leases', s)
                        && if s.owner.kind == Deployment
                           then rows'[s.owner].actual == Queued && rows'[s.owner].queuedAt == Some(now)
                           else rows'[s.owner].actual == Failed))
  {
  }

  /** A training job that is to end is probed first.  The answer to STOP counts exactly when the probe was
      accepted and reported it alive; then an accepted ABSENT cancels the row and gives its cards back. */
  lemma TerminatingTrainingIsProbedThenStopped(
    rows: Rows, leases: LeaseTable, s: Snapshot, agent: Calls, other: Calls, artifactsValid: bool, now: int, ttl: nat)
    requires s.desired == WantStopped && s.owner.kind == Training && agent(s, Status) == other(s, Status)
    ensures var probe := agent(s, Status);
            var live := && probe.Answer? && probe.response.accepted
                        && probe.response.observed in {ObservedStarting, ObservedRunning, ObservedStopping};
            && (!live || agent(s, Stop) == other(s, Stop) ==>
                  Inspect(rows, leases, s, agent, artifactsValid, now, ttl) == Inspect(rows, leases, s, other, artifactsValid, now, ttl))
            && (&& live && s.owner in rows && rows[s.owner].runtimeGeneration == s.generation && rows[s.owner].desired == WantStopped
                && agent(s, Stop).Answer? && agent(s, Stop).response.accepted && agent(s, Stop).response.observed == ObservedAbsent ==>
                  var (rows', leases') := Inspect(rows, leases, s, agent, artifactsValid, now, ttl);
                  s.owner in rows' && rows'[s.owner].actual == Canceled && LeaseFree(leases', s))
  {
  }

  /** An observation of the current instance leaves its row active exactly when it reports no end, and its
      leases stay or go with the row; any other observation changes nothing. */
  lemma RowAndLeasesEndTogether(
    rows: Rows, leases: LeaseTable, s: Snapshot, response: Response, artifactsValid: bool, now: int, ttl: nat)
    ensures var (rows', leases') := Observe(rows, leases, s, response, artifactsValid, now, ttl);
            && (!Current(rows, s) ==> rows' == rows && leases' == leases)
            && (Current(rows, s) ==>
                  && rows'.Keys == rows.Keys && (ActiveRow(s.owner, rows'[s.owner]) <==> !EndReport(response.observed))
                  && (HeldBy(leases', s.owner, s.generation) ==
                        if ActiveRow(s.owner, rows'[s.owner]) then HeldBy(leases, s.owner, s.generation) else {})
                  && (forall g <- HeldBy(leases', s.owner, s.generation) :: leases'[g].expiresAt == now + ttl))
            && (forall g <- leases :: g !in HeldBy(leases, s.owner, s.generation) ==> g in leases' && leases'[g] == leases[g])
  {
    if Current(rows, s) {
      if EndReport(response.observed) {
        ReleaseUndoesAcquire(leases, s.owner, s.generation, [], now, ttl, 0, s.owner);
      }
    }
  }

  /** A START that is refused undoes its claim: the lease table is what it was before, and of the rows only the
      claimed one has changed, to FAILED; it does not wait again.  Applying the refusal twice changes nothing more. */
  lemma RefusedStartUndoesTheClaim(
    rows: Rows, leases: LeaseTable, preflight: Preflight, now: int, ttl: nat, group: nat)
    ensures var (claimed, held, result) := Claim(rows, leases, preflight, now, ttl, group);
            result.Claimed? && Owned(leases, result.snapshot.owner) == {} ==>
              var o := result.snapshot.owner;
              var (failed, released) := FailStart(claimed, held, result.snapshot);
              && released == leases && o in failed && o in rows
              && failed == rows[o := failed[o]] && failed[o].actual == Failed && failed[o].queuedAt == None
              && FailStart(failed, released, result.snapshot) == (failed, released)
  {
    var (claimed, held, result) := Claim(rows, leases, preflight, now, ttl, group);
    if result.Claimed? && Owned(leases, result.snapshot.owner) == {} {
      var o := HeadOf(rows);
      var r := rows[o];
      ReleaseUndoesAcquire(leases, o, r.stateVersion, r.gpuIds, now, ttl, group, o);
      assert HeldBy(leases, o, r.stateVersion) == {} && Release(leases, o, r.stateVersion) == leases;
      var failed := FailStart(claimed, held, result.snapshot).0;
      assert failed == rows[o := failed[o]];
      assert FailStart(failed, leases, result.snapshot).0 == failed;
    }
  }

  // ---- State by state ----

  /** The queue: first by the time a row was queued, or created if it never was, then deployments before evaluations
      before training jobs, then by id. */
  lemma TheQueueIsOrdered(a: Owner, ra: Row, b: Owner, rb: Row)
    ensures var (at, bt) := (if ra.queuedAt == None then ra.createdAt else ra.queuedAt.value,
                             if rb.queuedAt == None then rb.createdAt else rb.queuedAt.value);
            Before(KeyOf(a, ra), KeyOf(b, rb)) <==>
              || at < bt
              || (at == bt && ((a.kind == Deployment && b.kind != Deployment) || (a.kind == Evaluation && b.kind == Training)))
              || (at == bt && a.kind == b.kind && a.id < b.id)
  {
  }

  /** Which rows wait, which have or may have a container, and which are over. */
  lemma RowStates(o: Owner, r: Row)
    ensures Startable(r) <==> r.actual == Queued && r.desired == WantRunning
    ensures ActiveRow(o, r) <==>
      if o.kind == Deployment then r.actual in {Starting, Running, Stopping} else r.actual in {Starting, Running, Canceling}
    ensures TerminalRow(o, r) <==>
      if o.kind == Deployment then r.actual in {Created, Stopped, Failed} else r.actual in {Canceled, Succeeded, Failed}
    ensures var s := SnapshotOf(o, r);
            && s.owner == o && s.gpuIds == r.gpuIds && s.desired == r.desired
            && (r.runtimeGeneration == 0 ==> s.generation == r.stateVersion)
            && (r.runtimeGeneration > 0 ==> s.generation == r.runtimeGeneration)
  {
  }

  /** What an observation makes of a row.  ABSENT: a deployment that was asked for waits again, one that was not is
      stopped; a job is canceled if that was asked for and failed if not.  An end other than ABSENT fails the row, except
      a job that succeeded and whose results are in order.  Anything else is taken over, as an ending if one was asked for. */
  lemma ObservationsAreApplied(r: Row, response: Response, artifactsValid: bool, now: int)
    ensures var (d, seen) := (ObservedDeployment(r, response, now), response.observed);
            && (seen == ObservedAbsent && response.accepted && r.desired == WantRunning ==>
                  d == r.(actual := Queued, queuedAt := Some(now), runtimeGeneration := 0))
            && (seen == ObservedAbsent && response.accepted && r.desired == WantStopped ==> d == r.(actual := Stopped))
            && (seen == ObservedAbsent && !response.accepted ==> d == r.(actual := Failed))
            && (seen in {ObservedFailed, ObservedSucceeded} ==> d == r.(actual := Failed))
            && (seen == ObservedStopping || (seen in {ObservedStarting, ObservedRunning} && r.desired == WantStopped) ==>
                  d == r.(actual := Stopping))
            && (seen == ObservedStarting && r.desired == WantRunning ==> d == r.(actual := Starting))
            && (seen == ObservedRunning && r.desired == WantRunning ==> d == r.(actual := Running))
    ensures var (j, seen) := (ObservedJob(r, response, artifactsValid), response.observed);
            && (seen == ObservedAbsent && r.desired == WantStopped ==> j == r.(actual := Canceled))
            && (seen == ObservedAbsent && r.desired == WantRunning ==> j == r.(actual := Failed))
            && (seen == ObservedSucceeded && artifactsValid ==> j == r.(actual := Succeeded))
            && (seen == ObservedSucceeded && !artifactsValid ==> j == r.(actual := Failed))
            && (seen == ObservedFailed ==> j == r.(actual := Failed))
            && (seen == ObservedStopping || (seen in {ObservedStarting, ObservedRunning} && r.desired == WantStopped) ==>
                  j == r.(actual := Canceling))
            && (seen == ObservedStarting && r.desired == WantRunning ==> j == r.(actual := Starting))
            && (seen == ObservedRunning && r.desired == WantRunning ==> j == r.(actual := Running))
  {
  }

  /** What a claim makes of the head of the queue: a job whose execution cannot be built has failed, a head whose cards are
      not free waits on, and one whose cards are free is starting, at the version it has; everything else is an error
      that changes nothing. */
  lemma ClaimsAreOfTheHead(rows: Rows, leases: LeaseTable, preflight: Preflight, now: int, ttl: nat, group: nat)
    requires exists o <- rows :: rows[o].actual == Queued && rows[o].desired == WantRunning
    ensures StartableOwners(rows) != {}
    ensures var (head, (rows', leases', result)) := (HeadOf(rows), Claim(rows, leases, preflight, now, ttl, group));
            var (r, acquisition) := (rows[head], Acquire(leases, head, rows[head].stateVersion, rows[head].gpuIds, now, ttl, group));
            && (preflight == Unbuildable && head.kind != Deployment ==>
                  && result == PreflightFailed(head) && leases' == leases
                  && rows' == rows[head := r.(actual := Failed, queuedAt := None, runtimeGeneration := 0)])
            && (preflight == Broken || (preflight == Unbuildable && head.kind == Deployment) ==>
                  result == ClaimError && rows' == rows && leases' == leases)
            && (preflight == Ready && acquisition.1.Acquired? ==>
                  && rows' == rows[head := r.(actual := Starting, queuedAt := None, runtimeGeneration := r.stateVersion)]
                  && leases' == acquisition.0 && result == Claimed(Snapshot(head, r.stateVersion, r.gpuIds, r.desired)))
            && (preflight == Ready && acquisition.1.Blocked? ==>
                  rows' == rows[head := r.(runtimeGeneration := 0)] && leases' == leases && result == ClaimBlocked(acquisition.1.holder))
            && (preflight == Ready && !acquisition.1.Acquired? && !acquisition.1.Blocked? ==>
                  rows' == rows && leases' == leases && result == ClaimError)
  {
    var o :| o in rows && rows[o].actual == Queued && rows[o].desired == WantRunning;
    assert o in StartableOwners(rows);
  }

  /** Without a waiting row there is nothing to claim. */
  lemma NothingToClaim(rows: Rows, leases: LeaseTable, preflight: Preflight, now: int, ttl: nat, group: nat)
    ensures (forall o <- rows :: rows[o].actual != Queued || rows[o].desired != WantRunning) <==>
            Claim(rows, leases, preflight, now, ttl, group) == (rows, leases, ClaimEmpty)
  {
    if StartableOwners(rows) == {} {
      forall o <- rows ensures o !in StartableOwners(rows) {}
    } else {
      assert HeadOf(rows) in StartableOwners(rows);
    }
  }

  /** Reaping takes exactly the expired leases whose row is gone or over. */
  lemma ReapedLeasesAreOver(rows: Rows, leases: LeaseTable, now: int, g: Gpu)
    ensures var leases' := ReapTerminal(rows, leases, now);
            && (g in leases' ==> g in leases && leases'[g] == leases[g])
            && (g in leases && g !in leases' <==>
                  && g in leases && now >= leases[g].expiresAt
                  && (leases[g].owner !in rows
                      || if leases[g].owner.kind == Deployment
                         then rows[leases[g].owner].actual in {Created, Stopped, Failed}
                         else rows[leases[g].owner].actual in {Canceled, Succeeded, Failed}))
  {
    var confirmed := ReapConfirmed(rows, leases, now);
    if g in leases && (leases[g].owner, leases[g].generation) in confirmed {
      var h :| h in leases && (leases[h].owner, leases[h].generation) == (leases[g].owner, leases[g].generation)
               && (leases[h].owner !in rows || TerminalRow(leases[h].owner, rows[leases[h].owner]));
    }
  }

  /** A refused START fails the row it was for, if it still is that instance, and gives its cards back; otherwise it does
      nothing. */
  lemma RefusedStartsFail(rows: Rows, leases: LeaseTable, s: Snapshot)
    ensures var (rows', leases') := FailStart(rows, leases, s);
            && (s.owner !in rows || rows[s.owner].runtimeGeneration != s.generation ==> rows' == rows && leases' == leases)
            && (s.owner in rows && rows[s.owner].runtimeGeneration == s.generation ==>
                  rows' == rows[s.owner := rows[s.owner].(actual := Failed)] && LeaseFree(leases', s))
  {
  }

  /** A pass over several workloads is one inspection after the other. */
  lemma PassesAreInspections(
    rows: Rows, leases: LeaseTable, first: Snapshot, rest: seq<Snapshot>, agent: Calls, artifactsValid: Owner -> bool, now: int, ttl: nat)
    ensures InspectAll(rows, leases, [], agent, artifactsValid, now, ttl) == (rows, leases)
    ensures var (rows', leases') := Inspect(rows, leases, first, agent, artifactsValid(first.owner), now, ttl);
            InspectAll(rows, leases, [first] + rest, agent, artifactsValid, now, ttl)
            == InspectAll(rows', leases', rest, agent, artifactsValid, now, ttl)
  {
    assert ([first] + rest)[1..] == rest;
  }

  // ---- API routes ----

  function NewRow(gpuIds: seq<Gpu>, now: int): Row {
    Row(WantRunning, Queued, gpuIds, Some(now), now, 1, 0)
  }

  function StartedDeployment(r: Row, now: int): Row {
    if r.actual == Running || r.actual == Starting || r.actual == Queued then r.(desired := WantRunning)
    else r.(desired := WantRunning, actual := Queued, queuedAt := Some(now), stateVersion := r.stateVersion + 1)
  }

  function StoppedDeployment(r: Row): Row {
    var r' := r.(desired := WantStopped, stateVersion := r.stateVersion + 1);
    if r.actual == Created || r.actual == Queued || r.actual == Failed then r'.(actual := Stopped, queuedAt := None)
    else if r.actual == Stopped || r.actual == Stopping then r'
    else r'.(actual := Stopping)
  }

  function UpdatedDeployment(o: Owner, r: Row, gpuIds: seq<Gpu>): Row {
    if !TerminalRow(o, r) then r else r.(gpuIds := gpuIds, stateVersion := r.stateVersion + 1)
  }

  function TerminatedTraining(o: Owner, r: Row): Row {
    if TerminalRow(o, r) || (r.desired == WantStopped && r.actual == Canceling) then r
    else CanceledEvaluation(o, r)
  }

  function CanceledEvaluation(o: Owner, r: Row): Row {
    var r' := r.(desired := WantStopped, stateVersion := r.stateVersion + 1);
    if r.actual == Created || r.actual == Queued then r'.(actual := Canceled, queuedAt := None)
    else if TerminalRow(o, r) || r.actual == Canceling then r'
    else r'.(actual := Canceling)
  }

  /** What each request makes of a row, state by state. */
  lemma RequestsAreApplied(o: Owner, r: Row, gpuIds: seq<Gpu>, now: int)
    ensures NewRow(gpuIds, now) ==
      Row(WantRunning, Queued, gpuIds, queuedAt := Some(now), createdAt := now, stateVersion := 1, runtimeGeneration := 0)
    ensures r.actual in {Running, Starting, Queued} ==> StartedDeployment(r, now) == r.(desired := WantRunning)
    ensures r.actual !in {Running, Starting, Queued} ==>
      StartedDeployment(r, now) == r.(desired := WantRunning, actual := Queued, queuedAt := Some(now), stateVersion := r.stateVersion + 1)
    ensures var stopped := r.(desired := WantStopped, stateVersion := r.stateVersion + 1);
            && (r.actual in {Created, Queued, Failed} ==> StoppedDeployment(r) == stopped.(actual := Stopped, queuedAt := None))
            && (r.actual in {Stopped, Stopping} ==> StoppedDeployment(r) == stopped)
            && (r.actual !in {Created, Queued, Failed, Stopped, Stopping} ==> StoppedDeployment(r) == stopped.(actual := Stopping))
    ensures o.kind == Deployment ==>
      UpdatedDeployment(o, r, gpuIds) ==
        if r.actual in {Created, Stopped, Failed} then r.(gpuIds := gpuIds, stateVersion := r.stateVersion + 1) else r
    ensures var canceled := r.(desired := WantStopped, stateVersion := r.stateVersion + 1);
            o.kind != Deployment ==>
              && (r.actual in {Created, Queued} ==> CanceledEvaluation(o, r) == canceled.(actual := Canceled, queuedAt := None))
              && (r.actual in {Canceled, Succeeded, Failed, Canceling} ==> CanceledEvaluation(o, r) == canceled)
              && (r.actual in {Starting, Running, Stopping, Stopped} ==> CanceledEvaluation(o, r) == canceled.(actual := Canceling))
              && (r.actual in {Canceled, Succeeded, Failed} || (r.actual == Canceling && r.desired == WantStopped) ==>
                    TerminatedTraining(o, r) == r)
              && (r.actual !in {Canceled, Succeeded, Failed} && !(r.actual == Canceling && r.desired == WantStopped) ==>
                    TerminatedTraining(o, r) == CanceledEvaluation(o, r))
  {
  }

  // ---- The reconciler as the program runs it ----

  class StateReconciler {
    var rows: Rows
    const leases: GPULeaseManager

    constructor (leases: GPULeaseManager)
      ensures rows == map[] && this.leases == leases
    {
      rows := map[];
      this.leases := leases;
    }

    method FindHead() returns (head: Owner)
      requires StartableOwners(rows) != {}
      ensures head == HeadOf(rows)
    {
      var todo := StartableOwners(rows);
      head :| head in todo;
      todo := todo - {head};
      while todo != {}
        invariant todo <= StartableOwners(rows) && head in StartableOwners(rows) - todo
        invariant forall p <- StartableOwners(rows) - todo :: p == head || Before(KeyOf(head, rows[head]), KeyOf(p, rows[p]))
        decreases todo
      {
        var o :| o in todo;
        if Before(KeyOf(o, rows[o]), KeyOf(head, rows[head])) { head := o; }
        todo := todo - {o};
      }
      assert IsHead(rows, head);
    }

    method ClaimFifoHead(preflight: Preflight, now: int, group: nat) returns (result: ClaimResult)
      modifies this`rows, leases
      ensures (rows, leases.leases, result)
           == Claim(old(rows), old(leases.leases), preflight, now, leases.ttl, group)
    {
      if StartableOwners(rows) == {} { return ClaimEmpty; }
      var o := FindHead();
      var r := rows[o];
      if preflight == Unbuildable && IsJob(o) {
        rows := rows[o := r.(actual := Failed, queuedAt := None, runtimeGeneration := 0)];
        return PreflightFailed(o);
      }
      if preflight != Ready { return ClaimError; }
      r := r.(runtimeGeneration := r.stateVersion);
      var acquisition := leases.TryAcquireLocked(o, r.stateVersion, r.gpuIds, now, group, map[]);
      NoRace(old(leases.leases), o, r.stateVersion, r.gpuIds, now, leases.ttl, group);
      match acquisition {
        case Blocked(holder, _) =>
          rows := rows[o := r.(runtimeGeneration := 0)];
          result := ClaimBlocked(holder);
        case Acquired(_, _, _) =>
          r := r.(actual := Starting);
          r := r.(queuedAt := None);
          rows := rows[o := r];
          result := Claimed(SnapshotOf(o, r));
        case _ =>
          result := ClaimError;
      }
    }

    method ApplyObservation(s: Snapshot, response: Response, artifactsValid: bool, now: int)
      modifies this`rows, leases
      ensures (rows, leases.leases)
           == Observe(old(rows), old(leases.leases), s, response, artifactsValid, now, leases.ttl)
    {
      if s.owner !in rows || rows[s.owner].runtimeGeneration != s.generation { return; }
      var r := rows[s.owner];
      if !IsJob(s.owner) {
        rows := rows[s.owner := ObservedDeployment(r, response, now)];
      } else {
        rows := rows[s.owner := ObservedJob(r, response, artifactsValid)];
      }
      if EndReport(response.observed) {
        var _ := leases.ReleaseGroup(s.owner, s.generation);
      } else {
        var _ := leases.HeartbeatGroup(s.owner, s.generation, now);
      }
    }

    /** The first half of a round: every active workload is inspected in turn. */
    method InspectWorkloads(active: seq<Snapshot>, agent: Calls, artifactsValid: Owner -> bool, now: int) returns (agentErrors: nat)
      modifies this`rows, leases
      ensures (rows, leases.leases) == InspectAll(old(rows), old(leases.leases), active, agent, artifactsValid, now, leases.ttl)
    {
      agentErrors := 0;
      ghost var goal := InspectAll(rows, leases.leases, active, agent, artifactsValid, now, leases.ttl);
      for i := 0 to |active|
        invariant InspectAll(rows, leases.leases, active[i..], agent, artifactsValid, now, leases.ttl) == goal
      {
        assert active[i..][0] == active[i] && active[i..][1..] == active[i + 1..];
        var failed := InspectWorkload(active[i], agent, artifactsValid(active[i].owner), now);
        if failed { agentErrors := agentErrors + 1; }
      }
    }

    method InspectWorkload(s: Snapshot, agent: Calls, artifactsValid: bool, now: int) returns (failed: bool)
      modifies this`rows, leases
      ensures (rows, leases.leases) == Inspect(old(rows), old(leases.leases), s, agent, artifactsValid, now, leases.ttl)
    {
      var probe := s.owner.kind == Training && s.desired == WantStopped;
      var action := if probe then Status else ActionFor(s);
      var reply := agent(s, action);
      if reply.NoAnswer? { return true; }
      ApplyObservation(s, reply.response, artifactsValid, now);
      if !(probe && reply.response.accepted && (reply.response.observed == ObservedStarting
                                                || reply.response.observed == ObservedRunning
                                                || reply.response.observed == ObservedStopping)) {
        return false;
      }
      var stopped := agent(s, Stop);
      if stopped.NoAnswer? { return true; }
      ApplyObservation(s, stopped.response, artifactsValid, now);
      failed := false;
    }

    method FailStartOf(s: Snapshot)
      modifies this`rows, leases
      ensures (rows, leases.leases) == FailStart(old(rows), old(leases.leases), s)
    {
      if s.owner !in rows || rows[s.owner].runtimeGeneration != s.generation { return; }
      rows := rows[s.owner := rows[s.owner].(actual := Failed)];
      var _ := leases.ReleaseGroup(s.owner, s.generation);
    }

    method ReapTerminalExpiredLeases(now: int) returns (count: nat)
      modifies leases
      ensures leases.leases == ReapTerminal(rows, old(leases.leases), now)
    {
      var table := leases.leases;
      var candidates := set g | g in table && table[g].expiresAt <= now :: (table[g].owner, table[g].generation);
      var confirmed: set<(Owner, Generation)> := {};
      var todo := candidates;
      while todo != {}
        invariant todo <= candidates
        invariant confirmed == set k | k in candidates - todo && (k.0 !in rows || TerminalRow(k.0, rows[k.0]))
        decreases todo
      {
        var k :| k in todo;
        if k.0 !in rows || TerminalRow(k.0, rows[k.0]) {
          confirmed := confirmed + {k};
        }
        todo := todo - {k};
      }
      assert confirmed == ReapConfirmed(rows, table, now);
      var reaped := leases.ReapExpiredLocked(confirmed, now);
      count := |reaped|;
    }

    /** One turn of the scheduling loop: claim the head and, if that succeeds, start it; an accepted answer is
        applied as an observation, and a refusal fails the row and gives its leases back. */
    method ScheduleOne(
      agent: Snapshot -> Reply, preflight: Preflight, artifactsValid: Owner -> bool, now: int, group: nat)
      returns (result: ClaimResult)
      requires forall s :: agent(s).Answer? && agent(s).response.accepted ==> agent(s).response.observed != ObservedAbsent
      modifies this`rows, leases
      ensures var (claimed, held, r) := Claim(old(rows), old(leases.leases), preflight, now, leases.ttl, group);
              result == r && (rows, leases.leases) ==
                if !r.Claimed? || agent(r.snapshot).NoAnswer? then (claimed, held)
                else if agent(r.snapshot).response.accepted
                then Observe(claimed, held, r.snapshot, agent(r.snapshot).response, artifactsValid(r.snapshot.owner), now, leases.ttl)
                else FailStart(claimed, held, r.snapshot)
      ensures result.ClaimEmpty? ==> StartableOwners(old(rows)) == {}
      ensures result.ClaimEmpty? || result.ClaimError? ==> rows == old(rows)
      ensures result.ClaimBlocked? ==> SameQueue(old(rows), rows)
      ensures result.Claimed? || result.PreflightFailed? ==> TakesHead(old(rows), rows)
    {
      result := ClaimFifoHead(preflight, now, group);
      if result.Claimed? {
        var s := result.snapshot;
        var reply := agent(s);
        if reply.Answer? {
          if reply.response.accepted {
            ApplyObservation(s, reply.response, artifactsValid(s.owner), now);
          } else {
            FailStartOf(s);
          }
        }
      }
    }

    /** The scheduling loop of one round, with no request arriving meanwhile.  It ends because every
        claim takes a row out of the queue for good, which needs that no START is ever answered with an
        accepted ABSENT.  Rows leave in strict key order, across types, and a blocked head stops it. */
    method ScheduleQueue(
      agent: Snapshot -> Reply, preflight: Owner -> Preflight, artifactsValid: Owner -> bool, now: int, groups: nat -> nat)
      returns (order: seq<Owner>, stop: ClaimResult)
      requires forall s :: agent(s).Answer? && agent(s).response.accepted ==> agent(s).response.observed != ObservedAbsent
      modifies this`rows, leases
      ensures Served(old(rows), rows, order)
      ensures stop.ClaimEmpty? || stop.ClaimBlocked? || stop.ClaimError?
      ensures stop.ClaimEmpty? ==> StartableOwners(rows) == {}
    {
      order := [];
      while true
        invariant Served(old(rows), rows, order)
        decreases StartableOwners(rows)
      {
        ghost var waiting := rows;
        var ready := Ready;
        if StartableOwners(rows) != {} {
          var head := FindHead();
          ready := preflight(head);
        }
        stop := ScheduleOne(agent, ready, artifactsValid, now, groups(|order|));
        match stop {
          case ClaimEmpty => return;
          case ClaimError => return;
          case ClaimBlocked(_) =>
            BlockedKeepsServed(old(rows), waiting, rows, order);
            return;
          case PreflightFailed(o) =>
            HeadExtendsServed(old(rows), waiting, rows, order);
            order := order + [o];
          case Claimed(s) =>
            HeadExtendsServed(old(rows), waiting, rows, order);
            order := order + [s.owner];
        }
      }
    }
  }

  // ---- What the scheduling loop keeps ----

  ghost predicate SameQueue(rows: Rows, rows': Rows) {
    && rows'.Keys == rows.Keys
    && (forall o <- rows :: rows'[o] == rows[o].(runtimeGeneration := rows'[o].runtimeGeneration))
    && (forall o <- rows :: !Startable(rows[o]) ==> rows'[o] == rows[o])
  }

  /** The head has left the queue and no other row has changed. */
  ghost predicate TakesHead(rows: Rows, rows': Rows) {
    && rows'.Keys == rows.Keys && StartableOwners(rows) != {}
    && !Startable(rows'[HeadOf(rows)])
    && forall p <- rows :: p != HeadOf(rows) ==> rows'[p] == rows[p]
  }

  /** Exactly the owners in `order` have left the queue, in key order and before everyone still in it;
      rows that were not waiting are as they were. */
  ghost predicate Served(before: Rows, rows: Rows, order: seq<Owner>) {
    && rows.Keys == before.Keys
    && StartableOwners(rows) == (set o | o in StartableOwners(before) && o !in order)
    && (forall i :: 0 <= i < |order| ==> order[i] in StartableOwners(before))
    && (forall i, j :: 0 <= i < j < |order| ==>
          Before(KeyOf(order[i], before[order[i]]), KeyOf(order[j], before[order[j]])))
    && (forall o <- StartableOwners(rows) :: KeyOf(o, rows[o]) == KeyOf(o, before[o]))
    && (forall o <- StartableOwners(rows), i :: 0 <= i < |order| ==>
          Before(KeyOf(order[i], before[order[i]]), KeyOf(o, before[o])))
    && (forall o <- rows :: o !in StartableOwners(before) ==> rows[o] == before[o])
  }

  lemma BlockedKeepsServed(before: Rows, waiting: Rows, rows: Rows, order: seq<Owner>)
    requires Served(before, waiting, order) && SameQueue(waiting, rows)
    ensures Served(before, rows, order)
  {
    forall o <- rows ensures Startable(rows[o]) <==> Startable(waiting[o]) {
      assert o in waiting;
    }
    assert StartableOwners(rows) == StartableOwners(waiting);
  }

  lemma HeadExtendsServed(before: Rows, waiting: Rows, rows: Rows, order: seq<Owner>)
    requires Served(before, waiting, order) && TakesHead(waiting, rows)
    ensures Served(before, rows, order + [HeadOf(waiting)])
    ensures StartableOwners(rows) < StartableOwners(waiting)
  {
    var head := HeadOf(waiting);
    assert head in StartableOwners(waiting);
    assert StartableOwners(rows) == StartableOwners(waiting) - {head};
    var next := order + [head];
    forall i, j | 0 <= i < j < |next|
      ensures Before(KeyOf(next[i], before[next[i]]), KeyOf(next[j], before[next[j]]))
    {
      if j == |order| {
        assert next[i] == order[i] && next[j] == head;
      } else {
        assert next[i] == order[i] && next[j] == order[j];
      }
    }
    forall o <- StartableOwners(rows), i | 0 <= i < |next|
      ensures Before(KeyOf(next[i], before[next[i]]), KeyOf(o, before[o]))
    {
      assert o in StartableOwners(waiting);
      if i < |order| { assert next[i] == order[i]; }
    }
  }
}
