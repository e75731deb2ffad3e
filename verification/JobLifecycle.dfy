/** Training and evaluation jobs start at most once and end once, for every interleaving of API requests,
    reconciler steps, lost calls, crashes and container changes, with no assumption about any of them. */
module JobLifecycle {
  import opened Contract
  import opened GpuScheduler
  import opened Reconciler
  import opened AllocationSystem

  /** Once stopping was asked for, a job can only be on its way to an end or at one. */
  predicate StopSticks(r: Row) {
    r.desired == WantStopped ==> r.actual == Canceling || r.actual == Canceled || r.actual == Succeeded || r.actual == Failed
  }

  ghost predicate JobRows(rows: Rows, issued: multiset<Owner>) {
    forall o <- rows :: IsJob(o) ==>
      StopSticks(rows[o]) && (rows[o].actual == Created || rows[o].actual == Queued ==> issued[o] == 0)
  }

  ghost predicate JobsHeld(rows: Rows, pc: Pc) {
    && DistinctOwners(Snapshots(pc))
    && forall s <- Snapshots(pc) :: IsJob(s.owner) ==> s.owner in rows && ActiveRow(s.owner, rows[s.owner])
  }

  ghost predicate StartsCounted(y: System) {
    && (forall o: Owner :: IsJob(o) ==> y.issued[o] <= 1)
    && (forall o: Owner :: IsJob(o) && o !in y.used ==> y.issued[o] == 0)
    && (y.pc.Calling? && y.pc.action == Start && IsJob(y.pc.s.owner) ==> y.issued[y.pc.s.owner] == 0)
  }

  ghost predicate JobInv(y: System) {
    y.rows.Keys <= y.used && JobRows(y.rows, y.issued) && JobsHeld(y.rows, y.pc) && StartsCounted(y)
  }

  /** What a step may do to the row of a job: a terminal state stays, so does the wish to stop, and an
      active row is left only when the step drops every snapshot of it. */
  ghost predicate JobStep(o: Owner, r: Row, r': Row) {
    && (TerminalRow(o, r) ==> r'.actual == r.actual)
    && (r.desired == WantStopped ==> r'.desired == WantStopped)
    && StopSticks(r')
    && (r'.actual == Created || r'.actual == Queued ==> r.actual == Created || r.actual == Queued)
  }

  lemma RowChangeKeepsInv(y: System, o: Owner, r': Row, pc: Pc)
    requires JobInv(y) && o in y.rows
    requires IsJob(o) ==> JobStep(o, y.rows[o], r')
    requires DistinctOwners(Snapshots(pc)) && forall s <- Snapshots(pc) :: s in Snapshots(y.pc)
    requires IsJob(o) && ActiveRow(o, y.rows[o]) && !ActiveRow(o, r') ==> forall s <- Snapshots(pc) :: s.owner != o
    requires pc.Calling? && pc.action == Start ==> y.pc.Calling? && y.pc.action == Start && y.pc.s == pc.s
    ensures JobInv(y.(rows := y.rows[o := r'], pc := pc))
  {
    var rows' := y.rows[o := r'];
    forall s <- Snapshots(pc) | IsJob(s.owner) ensures ActiveRow(s.owner, rows'[s.owner]) {
      assert ActiveRow(s.owner, y.rows[s.owner]);
    }
  }

  lemma PcChangeKeepsInv(y: System, pc: Pc)
    requires JobInv(y) && JobsHeld(y.rows, pc)
    requires pc.Calling? && pc.action == Start && IsJob(pc.s.owner) ==> y.issued[pc.s.owner] == 0
    ensures JobInv(y.(pc := pc))
  {
  }

  lemma BeginKeepsInv(y: System, order: seq<Owner>, cfg: Config)
    requires JobInv(y) && Enabled(y, BeginRound(order))
    ensures JobInv(Next(y, BeginRound(order), cfg))
  {
    var pc := Next(y, BeginRound(order), cfg).pc;
    forall i | 0 <= i < |order| ensures order[i] in y.rows && ActiveRow(order[i], y.rows[order[i]]) {
      assert order[i] in order;
    }
    PcChangeKeepsInv(y, pc);
  }

  lemma RpcKeepsInv(y: System, x: Exchange, cfg: Config)
    requires JobInv(y) && Enabled(y, Rpc(x))
    ensures JobInv(Next(y, Rpc(x), cfg))
  {
    var y' := Next(y, Rpc(x), cfg);
    assert Snapshots(y'.pc) == Snapshots(y.pc);
    assert Snapshots(y.pc)[0] == y.pc.s;
    forall o <- y'.rows | IsJob(o) && (y'.rows[o].actual == Created || y'.rows[o].actual == Queued)
      ensures y'.issued[o] == 0
    {
      assert o != y.pc.s.owner;
    }
  }

  lemma HeldRest(pc: Pc, s: Snapshot, todo: seq<Snapshot>)
    requires DistinctOwners(Snapshots(pc)) && Snapshots(pc) == [s] + todo
    ensures DistinctOwners(todo) && s in Snapshots(pc) && forall t <- todo :: t in Snapshots(pc) && t.owner != s.owner
  {
    assert Snapshots(pc)[0] == s;
    assert forall i :: 0 <= i < |todo| ==> todo[i] == Snapshots(pc)[i + 1];
  }

  lemma ApplyKeepsInv(y: System, artifactsValid: bool, now: int, cfg: Config)
    requires JobInv(y) && y.pc.Applying?
    ensures JobInv(Applied(y, artifactsValid, now, cfg))
  {
    var (s, y') := (y.pc.s, Applied(y, artifactsValid, now, cfg));
    HeldRest(y.pc, s, y.pc.todo);
    if StopFollows(s, y.pc.action, y.pc.reply) {
      assert Snapshots(y'.pc) == Snapshots(y.pc);
    }
    if s.owner in y.rows {
      RowChangeKeepsInv(y, s.owner, y'.rows[s.owner], y'.pc);
      assert y'.rows == y.rows[s.owner := y'.rows[s.owner]];
    } else {
      PcChangeKeepsInv(y, y'.pc);
    }
  }

  lemma ClaimKeepsInv(y: System, e: Event, cfg: Config)
    requires JobInv(y) && e.ClaimHead? && Enabled(y, e)
    ensures JobInv(Next(y, e, cfg))
  {
    var y' := Next(y, e, cfg);
    if StartableOwners(y.rows) != {} {
      var o := HeadOf(y.rows);
      assert y'.rows == y.rows[o := y'.rows[o]];
      RowChangeKeepsInv(y, o, y'.rows[o], Idle);
      if y'.pc.Calling? {
        assert Snapshots(y'.pc) == [y'.pc.s];
      }
      PcChangeKeepsInv(y.(rows := y'.rows, pc := Idle), y'.pc);
    }
  }

  lemma DeleteKeepsInv(y: System, o: Owner, x: Exchange, cfg: Config)
    requires JobInv(y) && Enabled(y, DeleteRequest(o, x))
    ensures JobInv(Next(y, DeleteRequest(o, x), cfg))
  {
    var y' := Next(y, DeleteRequest(o, x), cfg);
    forall s <- Snapshots(y.pc) | IsJob(s.owner) ensures s.owner in y'.rows && y'.rows[s.owner] == y.rows[s.owner] {
      assert ActiveRow(s.owner, y.rows[s.owner]);
    }
  }

  /** Steps that change no row, or only add one. */
  lemma PlainStepKeepsInv(y: System, e: Event, cfg: Config)
    requires JobInv(y) && Enabled(y, e)
    requires e.NextWorkload? || e.FinishWorkloads? || e.AbortRound? || e.CreateRequest? || e.AgentRestart? || e.AgentDrift?
    ensures JobInv(Next(y, e, cfg))
  {
    if e.NextWorkload? {
      assert Snapshots(Next(y, e, cfg).pc) == Snapshots(y.pc);
    }
  }

  lemma StepKeepsInv(y: System, e: Event, cfg: Config)
    requires JobInv(y) && Enabled(y, e)
    ensures JobInv(Next(y, e, cfg))
  {
    match e
    case BeginRound(order) => BeginKeepsInv(y, order, cfg);
    case Rpc(x) => RpcKeepsInv(y, x, cfg);
    case ApplyReply(valid, now) => ApplyKeepsInv(y, valid, now, cfg);
    case ClaimHead(_, _, _, _) => ClaimKeepsInv(y, e, cfg);
    case DeleteRequest(o, x) => DeleteKeepsInv(y, o, x, cfg);
    case StartRequest(o, _) => RowChangeKeepsInv(y, o, Next(y, e, cfg).rows[o], y.pc);
    case StopRequest(o) => RowChangeKeepsInv(y, o, Next(y, e, cfg).rows[o], y.pc);
    case UpdateRequest(o, _) => RowChangeKeepsInv(y, o, Next(y, e, cfg).rows[o], y.pc);
    case TerminateRequest(o) => RowChangeKeepsInv(y, o, Next(y, e, cfg).rows[o], y.pc);
    case CancelRequest(o) => RowChangeKeepsInv(y, o, Next(y, e, cfg).rows[o], y.pc);
    case _ => PlainStepKeepsInv(y, e, cfg);
  }

  lemma {:induction false} InvAlongRun(states: seq<System>, events: seq<Event>, cfg: Config, n: nat)
    requires AllocationSystem.Run(states, events, cfg) && n < |states|
    ensures JobInv(states[n])
  {
    if n > 0 {
      InvAlongRun(states, events, cfg, n - 1);
      StepKeepsInv(states[n - 1], events[n - 1], cfg);
    }
  }

  // ---- Results over runs ----

  /** Each job is sent at most one START, and none if it never left the queue. */
  lemma JobsStartAtMostOnce(states: seq<System>, events: seq<Event>, cfg: Config, n: nat, o: Owner)
    requires AllocationSystem.Run(states, events, cfg) && n < |states| && IsJob(o)
    ensures states[n].issued[o] <= 1
    ensures o in states[n].rows && states[n].rows[o].actual == Queued ==> states[n].issued[o] == 0
  {
    InvAlongRun(states, events, cfg, n);
  }

  /** The job `o` has ended as `end` (or its row is gone), with `count` STARTs sent. */
  ghost predicate EndedAs(y: System, o: Owner, end: ActualState, count: nat) {
    && o in y.used && y.issued[o] == count
    && (o in y.rows ==> y.rows[o].actual == end && TerminalRow(o, y.rows[o]))
  }

  lemma AppliedKeepsEnd(y: System, artifactsValid: bool, now: int, cfg: Config, o: Owner, end: ActualState, count: nat)
    requires JobInv(y) && y.pc.Applying? && IsJob(o) && EndedAs(y, o, end, count)
    ensures EndedAs(Applied(y, artifactsValid, now, cfg), o, end, count)
  {
    assert Snapshots(y.pc)[0] == y.pc.s;
  }

  lemma DeletingKeepsEnd(y: System, p: Owner, x: Exchange, cfg: Config, o: Owner, end: ActualState, count: nat)
    requires Enabled(y, DeleteRequest(p, x)) && EndedAs(y, o, end, count)
    ensures EndedAs(Next(y, DeleteRequest(p, x), cfg), o, end, count)
  {
    var y' := Next(y, DeleteRequest(p, x), cfg);
    assert y'.rows == y.rows || y'.rows == y.rows - {p};
  }

  lemma CallingKeepsEnd(y: System, x: Exchange, cfg: Config, o: Owner, end: ActualState, count: nat)
    requires JobInv(y) && Enabled(y, Rpc(x)) && IsJob(o) && EndedAs(y, o, end, count)
    ensures EndedAs(Next(y, Rpc(x), cfg), o, end, count)
  {
    assert Snapshots(y.pc)[0] == y.pc.s;
    assert o != y.pc.s.owner || o !in y.rows;
  }

  lemma ClaimingKeepsEnd(y: System, e: Event, cfg: Config, o: Owner, end: ActualState, count: nat)
    requires Enabled(y, e) && e.ClaimHead? && IsJob(o) && EndedAs(y, o, end, count)
    ensures EndedAs(Next(y, e, cfg), o, end, count)
  {
    assert StartableOwners(y.rows) != {} ==> HeadOf(y.rows) in StartableOwners(y.rows);
  }

  lemma EndIsKept(y: System, e: Event, cfg: Config, o: Owner, end: ActualState, count: nat)
    requires JobInv(y) && Enabled(y, e) && IsJob(o) && EndedAs(y, o, end, count)
    ensures EndedAs(Next(y, e, cfg), o, end, count)
  {
    match e
    case ApplyReply(valid, now) => AppliedKeepsEnd(y, valid, now, cfg, o, end, count);
    case Rpc(x) => CallingKeepsEnd(y, x, cfg, o, end, count);
    case ClaimHead(_, _, _, _) => ClaimingKeepsEnd(y, e, cfg, o, end, count);
    case DeleteRequest(p, x) => DeletingKeepsEnd(y, p, x, cfg, o, end, count);
    case _ =>
  }

  /** CANCELED, SUCCEEDED and FAILED are absorbing for jobs, and no START follows them; a deleted job
      does not come back. */
  lemma {:induction false} EndsAreAbsorbing(states: seq<System>, events: seq<Event>, cfg: Config, i: nat, j: nat, o: Owner)
    requires AllocationSystem.Run(states, events, cfg) && i <= j < |states| && IsJob(o)
    requires o in states[i].rows && TerminalRow(o, states[i].rows[o])
    ensures EndedAs(states[j], o, states[i].rows[o].actual, states[i].issued[o])
    decreases j
  {
    InvAlongRun(states, events, cfg, i);
    if i < j {
      EndsAreAbsorbing(states, events, cfg, i, j - 1, o);
      InvAlongRun(states, events, cfg, j - 1);
      EndIsKept(states[j - 1], events[j - 1], cfg, o, states[i].rows[o].actual, states[i].issued[o]);
    }
  }

  ghost predicate StopAsked(y: System, o: Owner) {
    o in y.used && (o in y.rows ==> y.rows[o].desired == WantStopped)
  }

  lemma StopIsKept(y: System, e: Event, cfg: Config, o: Owner)
    requires JobInv(y) && Enabled(y, e) && IsJob(o) && StopAsked(y, o)
    ensures StopAsked(Next(y, e, cfg), o)
  {
    if e.ClaimHead? {
      assert StartableOwners(y.rows) != {} ==> HeadOf(y.rows) in StartableOwners(y.rows);
    }
  }

  lemma {:induction false} StopIsKeptAlong(states: seq<System>, events: seq<Event>, cfg: Config, i: nat, j: nat, o: Owner)
    requires AllocationSystem.Run(states, events, cfg) && i <= j < |states| && IsJob(o) && StopAsked(states[i], o)
    ensures StopAsked(states[j], o)
    decreases j
  {
    if i < j {
      StopIsKeptAlong(states, events, cfg, i, j - 1, o);
      InvAlongRun(states, events, cfg, j - 1);
      StopIsKept(states[j - 1], events[j - 1], cfg, o);
    }
  }

  /** A job whose stop was asked for never goes back to the queue, to STARTING or to RUNNING. */
  lemma StopRequestsStick(states: seq<System>, events: seq<Event>, cfg: Config, i: nat, j: nat, o: Owner)
    requires AllocationSystem.Run(states, events, cfg) && i <= j < |states| && IsJob(o)
    requires o in states[i].rows && states[i].rows[o].desired == WantStopped
    ensures StopAsked(states[j], o)
    ensures o in states[j].rows ==> states[j].rows[o].actual == Canceling || TerminalRow(o, states[j].rows[o])
  {
    InvAlongRun(states, events, cfg, i);
    StopIsKeptAlong(states, events, cfg, i, j, o);
    InvAlongRun(states, events, cfg, j);
  }
}
