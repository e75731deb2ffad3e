/** The API routes that change workload rows, field by field as the handlers assign them, and the clean-up
    call that must prove a container absent before a row and its leases are deleted. */
module Routes {
  import opened Contract
  import opened GpuScheduler
  import opened Reconciler

  datatype RouteResult = Ok | NotFound | Refused | Unavailable

  /** What deleting a row may do: remove it with all its owner's leases, or change nothing. */
  function DeleteOutcome(rows: Rows, leases: LeaseTable, o: Owner, agent: Option<Reply>): (Rows, LeaseTable, RouteResult) {
    if o !in rows then (rows, leases, NotFound)
    else if !TerminalRow(o, rows[o]) then (rows, leases, Refused)
    else match agent
      case None => (rows, leases, Unavailable)
      case Some(NoAnswer) => (rows, leases, Unavailable)
      case Some(Answer(response)) =>
        if response.accepted && response.observed == ObservedAbsent then (rows - {o}, ReleaseAll(leases, o), Ok)
        else (rows, leases, Refused)
  }

  class WorkloadRoutes {
    var rows: Rows
    const leases: GPULeaseManager

    constructor (leases: GPULeaseManager)
      ensures rows == map[] && this.leases == leases
    {
      rows := map[];
      this.leases := leases;
    }

    method CreateWorkload(o: Owner, gpuIds: seq<Gpu>, now: int)
      requires o !in rows
      modifies this`rows
      ensures rows == old(rows)[o := NewRow(gpuIds, now)]
    {
      rows := rows[o := Row(WantRunning, Queued, gpuIds, Some(now), now, 1, 0)];
    }

    method UpdateDeployment(o: Owner, gpuIds: seq<Gpu>, tensorParallel: nat, gpuCount: nat) returns (result: RouteResult)
      requires o.kind == Deployment
      modifies this`rows
      ensures result == NotFound <==> o !in old(rows)
      ensures result == Ok <==>
        && o in old(rows) && TerminalRow(o, old(rows)[o])
        && (forall i :: 0 <= i < |gpuIds| ==> gpuIds[i].index < gpuCount) && |gpuIds| == tensorParallel
      ensures rows == if result == Ok then old(rows)[o := UpdatedDeployment(o, old(rows)[o], gpuIds)] else old(rows)
    {
      if o !in rows { return NotFound; }
      var r := rows[o];
      if !(r.actual == Created || r.actual == Stopped || r.actual == Failed) { return Refused; }
      var i := 0;
      while i < |gpuIds|
        invariant 0 <= i <= |gpuIds|
        invariant forall k :: 0 <= k < i ==> gpuIds[k].index < gpuCount
      {
        if gpuIds[i].index >= gpuCount { return Refused; }
        i := i + 1;
      }
      if |gpuIds| != tensorParallel { return Refused; }
      r := r.(gpuIds := gpuIds);
      r := r.(stateVersion := r.stateVersion + 1);
      rows := rows[o := r];
      result := Ok;
    }

    method StartDeployment(o: Owner, now: int) returns (result: RouteResult)
      requires o.kind == Deployment
      modifies this`rows
      ensures result == if o in old(rows) then Ok else NotFound
      ensures rows == if o in old(rows) then old(rows)[o := StartedDeployment(old(rows)[o], now)] else old(rows)
    {
      if o !in rows { return NotFound; }
      var r := rows[o].(desired := WantRunning);
      if r.actual != Running && r.actual != Starting && r.actual != Queued {
        r := r.(actual := Queued);
        r := r.(queuedAt := Some(now));
        r := r.(stateVersion := r.stateVersion + 1);
      }
      rows := rows[o := r];
      result := Ok;
    }

    method StopDeployment(o: Owner) returns (result: RouteResult)
      requires o.kind == Deployment
      modifies this`rows
      ensures result == if o in old(rows) then Ok else NotFound
      ensures rows == if o in old(rows) then old(rows)[o := StoppedDeployment(old(rows)[o])] else old(rows)
    {
      if o !in rows { return NotFound; }
      var r := rows[o].(desired := WantStopped);
      if r.actual == Created || r.actual == Queued || r.actual == Failed {
        r := r.(actual := Stopped);
        r := r.(queuedAt := None);
      } else if r.actual != Stopped && r.actual != Stopping {
        r := r.(actual := Stopping);
      }
      r := r.(stateVersion := r.stateVersion + 1);
      rows := rows[o := r];
      result := Ok;
    }

    method TerminateTraining(o: Owner) returns (result: RouteResult)
      requires o.kind == Training
      modifies this`rows
      ensures result == if o in old(rows) then Ok else NotFound
      ensures rows == if o in old(rows) then old(rows)[o := TerminatedTraining(o, old(rows)[o])] else old(rows)
    {
      if o !in rows { return NotFound; }
      var r := rows[o];
      if TerminalRow(o, r) || (r.desired == WantStopped && r.actual == Canceling) {
        assert rows[o := r] == rows;
        return Ok;
      }
      r := r.(desired := WantStopped);
      if r.actual == Created || r.actual == Queued {
        r := r.(actual := Canceled);
        r := r.(queuedAt := None);
      } else if !TerminalRow(o, r) && r.actual != Canceling {
        r := r.(actual := Canceling);
      }
      r := r.(stateVersion := r.stateVersion + 1);
      rows := rows[o := r];
      result := Ok;
    }

    method CancelEvaluation(o: Owner) returns (result: RouteResult)
      requires o.kind == Evaluation
      modifies this`rows
      ensures result == if o in old(rows) then Ok else NotFound
      ensures rows == if o in old(rows) then old(rows)[o := CanceledEvaluation(o, old(rows)[o])] else old(rows)
    {
      if o !in rows { return NotFound; }
      var r := rows[o].(desired := WantStopped);
      if r.actual == Created || r.actual == Queued {
        r := r.(actual := Canceled);
        r := r.(queuedAt := None);
      } else if !TerminalRow(o, r) && r.actual != Canceling {
        r := r.(actual := Canceling);
      }
      r := r.(stateVersion := r.stateVersion + 1);
      rows := rows[o := r];
      result := Ok;
    }

    /** Deleting asks the agent to clean up first; `agent` is its answer, or nothing when none is configured. */
    method DeleteWorkload(o: Owner, agent: Option<Reply>) returns (result: RouteResult)
      modifies this`rows, leases
      ensures (rows, leases.leases, result) == DeleteOutcome(old(rows), old(leases.leases), o, agent)
    {
      if o !in rows { return NotFound; }
      if !TerminalRow(o, rows[o]) { return Refused; }
      if agent.None? { return Unavailable; }
      result := ConfirmAbsentAndReleaseLeases(o, agent.value);
      if result == Ok {
        rows := rows - {o};
      }
    }

    method ConfirmAbsentAndReleaseLeases(o: Owner, reply: Reply) returns (result: RouteResult)
      modifies leases
      ensures result == if reply.NoAnswer? then Unavailable
                        else if reply.response.accepted && reply.response.observed == ObservedAbsent then Ok else Refused
      ensures leases.leases == if result == Ok then ReleaseAll(old(leases.leases), o) else old(leases.leases)
    {
      if reply.NoAnswer? { return Unavailable; }
      if !reply.response.accepted || reply.response.observed != ObservedAbsent { return Refused; }
      var owned := Owned(leases.leases, o);
      while owned != {}
        invariant owned <= leases.leases.Keys
        invariant forall g :: g in leases.leases <==> g in old(leases.leases) && (old(leases.leases)[g].owner == o ==> g in owned)
        invariant forall g <- leases.leases :: leases.leases[g] == old(leases.leases)[g]
        decreases owned
      {
        var g :| g in owned;
        leases.leases := leases.leases - {g};
        owned := owned - {g};
      }
      assert leases.leases == ReleaseAll(old(leases.leases), o);
      result := Ok;
    }
  }

  // ---- What a user may rely on ----

  /** New work can start, and goes behind everything queued before: the head stays the head, and without any
      other waiting row the new one is the head. */
  lemma NewWorkGoesLast(rows: Rows, o: Owner, gpuIds: seq<Gpu>, now: int)
    requires o !in rows && forall p <- StartableOwners(rows) :: KeyOf(p, rows[p]).at < now
    ensures var rows' := rows[o := NewRow(gpuIds, now)];
            && o in StartableOwners(rows')
            && HeadOf(rows') == (if StartableOwners(rows) == {} then o else HeadOf(rows))
  {
    var rows' := rows[o := NewRow(gpuIds, now)];
    assert StartableOwners(rows') == StartableOwners(rows) + {o};
    if StartableOwners(rows) != {} {
      var head := HeadOf(rows);
      assert head in StartableOwners(rows) && rows'[head] == rows[head];
      assert IsHead(rows', head);
      assert HeadOf(rows') == head;
    }
  }

  /** Asking again for a start changes nothing: a deployment that waits keeps its place however often it is
      started, and one that runs keeps running.  A start after a stop queues it anew, at the time of the
      request and under a version above every one used before. */
  lemma StartRequestsAreIdempotent(r: Row, now: int, later: int)
    ensures StartedDeployment(StartedDeployment(r, now), later) == StartedDeployment(r, now)
    ensures Startable(r) ==> StartedDeployment(r, now) == r
    ensures var restarted := StartedDeployment(StoppedDeployment(r), now);
            && Startable(restarted) && restarted.queuedAt == Some(now) && restarted.stateVersion > r.stateVersion + 1
            && (r.runtimeGeneration <= r.stateVersion ==> restarted.stateVersion > EffectiveGeneration(r))
  {
  }

  /** A stop that finds no container to stop ends the deployment at once and takes it out of the queue; any other
      leaves it active until the agent reports an end, after which it is stopped or failed and not queued again.
      A second stop changes at most the version. */
  lemma StopsEndOrWaitForTheAgent(o: Owner, r: Row, response: Response, now: int)
    requires o.kind == Deployment && (ActiveRow(o, r) || Startable(r) || TerminalRow(o, r))
    ensures var r' := StoppedDeployment(r);
            && (ActiveRow(o, r') <==> ActiveRow(o, r)) && (TerminalRow(o, r') <==> !ActiveRow(o, r)) && !Startable(r')
            && StoppedDeployment(r') == r'.(stateVersion := r'.stateVersion + 1)
    ensures var observed := ObservedDeployment(StoppedDeployment(r), response, now);
            && (TerminalRow(o, observed) <==> EndReport(response.observed)) && !Startable(observed)
            && (!EndReport(response.observed) ==> observed.actual == Stopping)
  {
  }

  /** A termination that is asked for twice is asked for once; a job in the queue ends at once, a running one is
      canceled only by ABSENT, and what it achieved before counts: nothing makes it run again. */
  lemma TerminationMeetsTheAgent(o: Owner, r: Row, response: Response, artifactsValid: bool)
    requires IsJob(o) && (ActiveRow(o, r) || Startable(r) || TerminalRow(o, r))
    ensures TerminatedTraining(o, TerminatedTraining(o, r)) == TerminatedTraining(o, r)
    ensures var r' := TerminatedTraining(o, r);
            && (TerminalRow(o, r) ==> r' == r) && (Startable(r) ==> r'.actual == Canceled && r'.queuedAt == None)
            && (ActiveRow(o, r) ==>
                  var observed := ObservedJob(r', response, artifactsValid);
                  && r'.actual == Canceling && r'.desired == WantStopped
                  && (observed.actual == Canceled <==> response.observed == ObservedAbsent)
                  && (observed.actual == Succeeded <==> response.observed == ObservedSucceeded && artifactsValid)
                  && (observed.actual == Canceling <==> !EndReport(response.observed)))
  {
  }

  /** Canceling an evaluation leads to the same state as terminating a training job; asked for again it only
      raises the version. */
  lemma CancelingIsTerminating(o: Owner, r: Row)
    requires IsJob(o) && (ActiveRow(o, r) || Startable(r) || TerminalRow(o, r))
    ensures CanceledEvaluation(o, r).actual == TerminatedTraining(o, r).actual
    ensures !TerminalRow(o, r) ==> CanceledEvaluation(o, r).desired == TerminatedTraining(o, r).desired == WantStopped
    ensures var r' := CanceledEvaluation(o, r);
            CanceledEvaluation(o, r') == r'.(stateVersion := r'.stateVersion + 1)
  {
  }

  /** A request of a user about one workload; the time is that of the request. */
  datatype Request = AskStart(now: int) | AskStop | AskUpdate(gpuIds: seq<Gpu>) | AskCancel

  function Asked(o: Owner, r: Row, q: Request): Row {
    match q
    case AskStart(now) => if o.kind == Deployment then StartedDeployment(r, now) else r
    case AskStop => if o.kind == Deployment then StoppedDeployment(r) else r
    case AskUpdate(gpuIds) => if o.kind == Deployment then UpdatedDeployment(o, r, gpuIds) else r
    case AskCancel =>
      if o.kind == Training then TerminatedTraining(o, r) else if o.kind == Evaluation then CanceledEvaluation(o, r) else r
  }

  function AllAsked(o: Owner, r: Row, requests: seq<Request>): Row
    decreases |requests|
  {
    if requests == [] then r else AllAsked(o, Asked(o, r, requests[0]), requests[1..])
  }

  /** However often a waiting deployment is started or edited, nothing about it changes, its place least of all,
      as long as it is not stopped. */
  lemma {:induction false} WaitingIsNotDisturbed(o: Owner, r: Row, requests: seq<Request>)
    requires o.kind == Deployment && Startable(r) && AskStop !in requests
    ensures AllAsked(o, r, requests) == r
  {
    if requests != [] {
      assert requests[0] in requests;
      WaitingIsNotDisturbed(o, r, requests[1..]);
    }
  }

  ghost predicate AsksStart(requests: seq<Request>) {
    exists i :: 0 <= i < |requests| && requests[i].AskStart?
  }

  /** No sequence of requests makes live work look ended, changes its generation or its cards, or lowers its
      version, as long as none of them is a start. */
  lemma {:induction false} RequestsLeaveLiveWorkActive(o: Owner, r: Row, requests: seq<Request>)
    requires ActiveRow(o, r) && !AsksStart(requests)
    ensures var r' := AllAsked(o, r, requests);
            && ActiveRow(o, r') && r'.runtimeGeneration == r.runtimeGeneration && r'.gpuIds == r.gpuIds
            && r'.stateVersion >= r.stateVersion
    decreases |requests|
  {
    if requests != [] {
      var rest := requests[1..];
      assert !AsksStart(rest) by {
        assert forall i :: 0 <= i < |rest| ==> rest[i] == requests[i + 1];
      }
      assert !requests[0].AskStart?;
      RequestsLeaveLiveWorkActive(o, Asked(o, r, requests[0]), rest);
    }
  }

  /** Once a job's end was asked for, no further request lets it wait or run again. */
  lemma {:induction false} CanceledJobsStayCanceled(o: Owner, r: Row, requests: seq<Request>)
    requires IsJob(o) && (ActiveRow(o, r) || Startable(r) || r.actual == Canceled) && AskCancel in requests
    ensures var r' := AllAsked(o, r, requests);
            if Startable(r) || r.actual == Canceled then r'.actual == Canceled else r'.actual == Canceling
    decreases |requests|
  {
    var next := Asked(o, r, requests[0]);
    if AskCancel in requests[1..] {
      CanceledJobsStayCanceled(o, next, requests[1..]);
    } else {
      assert requests[0] == AskCancel;
      OtherRequestsLeaveJobs(o, next, requests[1..]);
    }
  }

  lemma {:induction false} OtherRequestsLeaveJobs(o: Owner, r: Row, requests: seq<Request>)
    requires IsJob(o) && AskCancel !in requests
    ensures AllAsked(o, r, requests) == r
  {
    if requests != [] {
      assert requests[0] in requests;
      OtherRequestsLeaveJobs(o, r, requests[1..]);
    }
  }

  /** Leases and the row go together or not at all, and only on an accepted ABSENT.  The cards are then free
      for anyone, nothing of another owner is touched, and deleting again finds nothing. */
  lemma DeletionIsAllOrNothing(
    rows: Rows, leases: LeaseTable, o: Owner, agent: Option<Reply>, p: Owner, generation: Generation, gpuIds: seq<Gpu>, now: int, ttl: nat)
    ensures var (rows', leases', result) := DeleteOutcome(rows, leases, o, agent);
            && (result == Ok <==> o in rows && TerminalRow(o, rows[o]) && agent.Some? && agent.value.Answer?
                                  && agent.value.response.accepted && agent.value.response.observed == ObservedAbsent)
            && (result == Ok ==> o !in rows' && Owned(leases', o) == {} && DeleteOutcome(rows', leases', o, agent) == (rows', leases', NotFound))
            && (result == Ok && p != o && Owned(leases, p) == {} && ValidRequest(gpuIds) && GpuSet(gpuIds) <= Owned(leases, o) ==>
                  Acquire(leases', p, generation, gpuIds, now, ttl, 0).1.Acquired?)
            && (result != Ok ==> rows' == rows && leases' == leases)
            && (p != o ==> (p in rows' <==> p in rows) && Owned(leases', p) == Owned(leases, p))
  {
    var (rows', leases', result) := DeleteOutcome(rows, leases, o, agent);
    assert forall g :: g in Owned(leases', p) ==> g in Owned(leases, p);
    if p != o {
      assert forall g :: g in Owned(leases, p) ==> g in Owned(leases', p);
    }
    if result == Ok && GpuSet(gpuIds) <= Owned(leases, o) {
      assert GpuSet(gpuIds) * leases'.Keys == {};
    }
  }
}
