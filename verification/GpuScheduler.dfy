/** Whole-card GPU leases.  The lease table is keyed by card, which is the database's unique constraint. */
module GpuScheduler {
  import opened Contract

  datatype Lease = Lease(
    group: nat, owner: Owner, generation: Generation,
    acquiredAt: int, heartbeatAt: int, expiresAt: int)

  type LeaseTable = map<Gpu, Lease>

  datatype Acquisition =
    | Acquired(gpus: set<Gpu>, group: nat, idempotent: bool)
    | Blocked(holder: Owner, generation: Generation)
    | InvariantError
    | InvalidRequest

  predicate ValidRequest(gpuIds: seq<Gpu>) {
    gpuIds != [] && Distinct(gpuIds) && forall i :: 0 <= i < |gpuIds| ==> 0 <= gpuIds[i].index
  }

  function Owned(t: LeaseTable, o: Owner): set<Gpu> {
    set g | g in t && t[g].owner == o
  }

  function HeldBy(t: LeaseTable, o: Owner, generation: Generation): set<Gpu> {
    set g | g in t && t[g].owner == o && t[g].generation == generation
  }

  /** One complete group: exactly these cards, one generation, one group id. */
  predicate IsGroup(t: LeaseTable, o: Owner, gpus: set<Gpu>, generation: Generation) {
    && Owned(t, o) == gpus
    && (forall g <- gpus :: t[g].generation == generation)
    && (forall g <- gpus, h <- gpus :: t[g].group == t[h].group)
  }

  function Renew(t: LeaseTable, gpus: set<Gpu>, now: int, ttl: nat): LeaseTable {
    map g | g in t :: if g in gpus then t[g].(heartbeatAt := now, expiresAt := now + ttl) else t[g]
  }

  function Grant(t: LeaseTable, gpus: set<Gpu>, lease: Lease): LeaseTable {
    t + map g | g in gpus :: lease
  }

  predicate Least(g: Gpu, gpus: set<Gpu>) {
    g in gpus && forall h <- gpus :: g.index <= h.index
  }

  ghost function LeastOf(gpus: set<Gpu>): (g: Gpu)
    requires gpus != {}
    ensures Least(g, gpus)
  {
    LeastExists(gpus);
    var g :| Least(g, gpus);
    g
  }

  lemma LeastExists(gpus: set<Gpu>)
    requires gpus != {}
    ensures exists g :: Least(g, gpus)
  {
    var x :| x in gpus;
    if gpus == {x} {
      assert Least(x, gpus);
    } else {
      LeastExists(gpus - {x});
      var y :| Least(y, gpus - {x});
      assert Least(if x.index < y.index then x else y, gpus);
    }
  }

  /** Acquire a whole group or nothing.  `group` is the identifier drawn for a new group. */
  ghost function Acquire(
    t: LeaseTable, o: Owner, generation: Generation, gpuIds: seq<Gpu>, now: int, ttl: nat, group: nat
  ): (LeaseTable, Acquisition)
  {
    var gpus := GpuSet(gpuIds);
    if !ValidRequest(gpuIds) then (t, InvalidRequest)
    else if Owned(t, o) != {} then
      if IsGroup(t, o, gpus, generation) then
        (Renew(t, gpus, now, ttl), Acquired(gpus, t[LeastOf(gpus)].group, true))
      else (t, InvariantError)
    else if gpus * t.Keys != {} then
      var first := LeastOf(gpus * t.Keys);
      (t, Blocked(t[first].owner, t[first].generation))
    else
      (Grant(t, gpus, Lease(group, o, generation, now, now, now + ttl)), Acquired(gpus, group, false))
  }

  /** The same when another writer commits the leases `late` between the look at the table and the insert: the
      unique constraint rolls the own group back, and the caller is blocked by what the other wrote. */
  ghost function AcquireRaced(
    t: LeaseTable, o: Owner, generation: Generation, gpuIds: seq<Gpu>, now: int, ttl: nat, group: nat, late: LeaseTable
  ): (LeaseTable, Acquisition)
  {
    var (granted, r) := Acquire(t, o, generation, gpuIds, now, ttl, group);
    if !r.Acquired? || r.idempotent then (granted, r)
    else if GpuSet(gpuIds) * late.Keys != {} then
      var first := LeastOf(GpuSet(gpuIds) * late.Keys);
      (late + t, Blocked(late[first].owner, late[first].generation))
    else (late + granted, r)
  }

  function Heartbeat(t: LeaseTable, o: Owner, generation: Generation, now: int, ttl: nat): LeaseTable {
    Renew(t, HeldBy(t, o, generation), now, ttl)
  }

  function Release(t: LeaseTable, o: Owner, generation: Generation): LeaseTable {
    t - HeldBy(t, o, generation)
  }

  function ReleaseAll(t: LeaseTable, o: Owner): LeaseTable {
    t - Owned(t, o)
  }

  function Reapable(t: LeaseTable, confirmed: set<(Owner, Generation)>, now: int): set<Gpu> {
    set g | g in t && t[g].expiresAt <= now && (t[g].owner, t[g].generation) in confirmed
  }

  function Reap(t: LeaseTable, confirmed: set<(Owner, Generation)>, now: int): LeaseTable {
    t - Reapable(t, confirmed, now)
  }

  /** The lease manager as the program runs it: rows are renewed, inserted and deleted one at a time. */
  class GPULeaseManager {
    var leases: LeaseTable
    const ttl: nat

    constructor (ttlSeconds: nat)
      requires 1 <= ttlSeconds
      ensures leases == map[] && ttl == ttlSeconds
    {
      leases := map[];
      ttl := ttlSeconds;
    }

    method RenewAll(gpus: set<Gpu>, now: int)
      requires gpus <= leases.Keys
      modifies this`leases
      ensures leases == Renew(old(leases), gpus, now, ttl)
    {
      var todo := gpus;
      while todo != {}
        invariant todo <= gpus
        invariant leases == Renew(old(leases), gpus - todo, now, ttl)
        decreases todo
      {
        var g :| g in todo;
        leases := leases[g := leases[g].(heartbeatAt := now, expiresAt := now + ttl)];
        todo := todo - {g};
      }
    }

    method LowestConflict(gpus: set<Gpu>) returns (first: Gpu)
      requires gpus * leases.Keys != {}
      ensures first == LeastOf(gpus * leases.Keys)
    {
      var todo := gpus * leases.Keys;
      first :| first in todo;
      todo := todo - {first};
      while todo != {}
        invariant todo <= gpus * leases.Keys && first in gpus * leases.Keys
        invariant forall h <- gpus * leases.Keys - todo :: first.index <= h.index
        decreases todo
      {
        var g :| g in todo;
        if g.index < first.index { first := g; }
        todo := todo - {g};
      }
    }

    /** Insert a group card by card within a savepoint; a card that is taken undoes all of it. */
    method InsertGroup(gpus: set<Gpu>, lease: Lease) returns (inserted: bool)
      modifies this`leases
      ensures inserted <==> gpus * old(leases).Keys == {}
      ensures leases == if inserted then Grant(old(leases), gpus, lease) else old(leases)
    {
      var savepoint := leases;
      var todo := gpus;
      while todo != {}
        invariant todo <= gpus && (gpus - todo) * savepoint.Keys == {}
        invariant leases == Grant(savepoint, gpus - todo, lease)
        decreases todo
      {
        var g :| g in todo;
        if g in leases {
          assert g in gpus * savepoint.Keys;
          leases := savepoint;
          return false;
        }
        leases := leases[g := lease];
        todo := todo - {g};
      }
      inserted := true;
    }

    /** `late` is what another writer commits just before the insert; only then does it matter. */
    method TryAcquireLocked(o: Owner, generation: Generation, gpuIds: seq<Gpu>, now: int, group: nat, late: LeaseTable)
      returns (r: Acquisition)
      modifies this`leases
      ensures (leases, r) == AcquireRaced(old(leases), o, generation, gpuIds, now, ttl, group, late)
    {
      if !ValidRequest(gpuIds) { return InvalidRequest; }
      var requested := GpuSet(gpuIds);
      assert gpuIds[0] in requested;
      var owned := Owned(leases, o);
      if owned != {} {
        if !IsGroup(leases, o, requested, generation) { return InvariantError; }
        var representative :| representative in owned;
        var existing := leases[representative].group;
        RenewAll(owned, now);
        return Acquired(requested, existing, true);
      }
      if requested * leases.Keys != {} {
        var first := LowestConflict(requested);
        return Blocked(leases[first].owner, leases[first].generation);
      }
      r := InsertOrBlock(requested, Lease(group, o, generation, now, now, now + ttl), late);
    }

    method InsertOrBlock(requested: set<Gpu>, lease: Lease, late: LeaseTable) returns (r: Acquisition)
      requires requested * leases.Keys == {}
      modifies this`leases
      ensures requested * late.Keys == {} ==>
                leases == late + Grant(old(leases), requested, lease) && r == Acquired(requested, lease.group, false)
      ensures requested * late.Keys != {} ==>
                var first := LeastOf(requested * late.Keys);
                leases == late + old(leases) && r == Blocked(late[first].owner, late[first].generation)
    {
      ghost var before := leases;
      leases := late + leases;
      assert requested * leases.Keys == requested * late.Keys by {
        assert leases.Keys == late.Keys + before.Keys;
        assert forall g <- requested :: g !in before by {
          assert forall g <- requested :: g !in requested * before.Keys ==> g !in before;
        }
      }
      var inserted := InsertGroup(requested, lease);
      if inserted {
        assert late + Grant(before, requested, lease) == Grant(late + before, requested, lease);
        return Acquired(requested, lease.group, false);
      }
      var first := LowestConflict(requested);
      assert first in late && first !in requested * before.Keys;
      r := Blocked(leases[first].owner, leases[first].generation);
    }

    method HeartbeatGroup(o: Owner, generation: Generation, now: int) returns (renewed: nat)
      modifies this`leases
      ensures leases == Heartbeat(old(leases), o, generation, now, ttl)
      ensures renewed == |HeldBy(old(leases), o, generation)|
    {
      var held := HeldBy(leases, o, generation);
      RenewAll(held, now);
      renewed := |held|;
    }

    method ReleaseGroup(o: Owner, generation: Generation) returns (deleted: nat)
      modifies this`leases
      ensures leases == Release(old(leases), o, generation)
      ensures deleted == |HeldBy(old(leases), o, generation)|
    {
      var held := HeldBy(leases, o, generation);
      leases := leases - held;
      deleted := |held|;
    }

    method ReapExpiredLocked(confirmed: set<(Owner, Generation)>, now: int)
      returns (reaped: set<(Owner, Generation)>)
      modifies this`leases
      ensures leases == Reap(old(leases), confirmed, now)
      ensures reaped == set g | g in Reapable(old(leases), confirmed, now) ::
                          (old(leases)[g].owner, old(leases)[g].generation)
    {
      var expired := set g | g in leases && leases[g].expiresAt <= now;
      var todo := expired;
      reaped := {};
      ghost var before := leases;
      while todo != {}
        invariant todo <= expired && todo <= leases.Keys
        invariant leases == before - (Reapable(before, confirmed, now) - todo)
        invariant reaped == set g | g in Reapable(before, confirmed, now) - todo ::
                              (before[g].owner, before[g].generation)
        decreases todo
      {
        var g :| g in todo;
        assert leases[g] == before[g];
        ghost var done := Reapable(before, confirmed, now) - todo;
        ghost var done' := Reapable(before, confirmed, now) - (todo - {g});
        if (leases[g].owner, leases[g].generation) in confirmed {
          assert done' == done + {g};
          reaped := reaped + {(leases[g].owner, leases[g].generation)};
          leases := leases - {g};
        } else {
          assert done' == done;
        }
        todo := todo - {g};
      }
    }
  }

  // ---- Runs of the lease manager: groups are all-or-nothing ----

  /** A lease table together with the card set each owner last asked for successfully. */
  datatype World = World(table: LeaseTable, asked: map<Owner, set<Gpu>>)

  datatype Operation =
    | DoAcquire(o: Owner, generation: Generation, gpuIds: seq<Gpu>, now: int, group: nat)
    | DoHeartbeat(o: Owner, generation: Generation, now: int)
    | DoRelease(o: Owner, generation: Generation)
    | DoReleaseAll(o: Owner)
    | DoReap(confirmed: set<(Owner, Generation)>, now: int)

  ghost function Apply(w: World, op: Operation, ttl: nat): World {
    match op
    case DoAcquire(o, generation, gpuIds, now, group) =>
      var (t, r) := Acquire(w.table, o, generation, gpuIds, now, ttl, group);
      World(t, if r.Acquired? then w.asked[o := GpuSet(gpuIds)] else w.asked)
    case DoHeartbeat(o, generation, now) => w.(table := Heartbeat(w.table, o, generation, now, ttl))
    case DoRelease(o, generation) => w.(table := Release(w.table, o, generation))
    case DoReleaseAll(o) => w.(table := ReleaseAll(w.table, o))
    case DoReap(confirmed, now) => w.(table := Reap(w.table, confirmed, now))
  }

  ghost function Run(ops: seq<Operation>, ttl: nat): World {
    if ops == [] then World(map[], map[])
    else Apply(Run(ops[..|ops| - 1], ttl), ops[|ops| - 1], ttl)
  }

  /** Any operation may follow any run, on the table that the run has left. */
  lemma RunsGoOn(ops: seq<Operation>, op: Operation, ttl: nat)
    ensures Run([], ttl) == World(map[], map[]) && Run(ops + [op], ttl) == Apply(Run(ops, ttl), op, ttl)
  {
    assert (ops + [op])[..|ops|] == ops;
  }

  /** An owner holds nothing, or exactly the group it asked for, with every lease of the group alike. */
  ghost predicate WholeOrNothing(w: World) {
    && (forall g <- w.table, h <- w.table :: w.table[g].owner == w.table[h].owner ==> w.table[g] == w.table[h])
    && (forall g <- w.table :: w.table[g].owner in w.asked)
    && (forall g <- w.table :: Owned(w.table, w.table[g].owner) == w.asked[w.table[g].owner])
  }

  /** An acquire call leaves every existing lease with its holder, generation and group; a lease it
      adds lies in the request and goes to a caller that held nothing. */
  lemma AcquireFrame(
    t: LeaseTable, o: Owner, generation: Generation, gpuIds: seq<Gpu>, now: int, ttl: nat, group: nat)
    ensures var (t', r) := Acquire(t, o, generation, gpuIds, now, ttl, group);
            && (forall g <- t :: g in t' && t'[g].owner == t[g].owner && t'[g].generation == t[g].generation
                                 && t'[g].group == t[g].group)
            && (forall g <- t' :: g in t || (Owned(t, o) == {} && g in GpuSet(gpuIds) && t'[g].owner == o && t'[g].generation == generation))
            && (r.Acquired? ==> IsGroup(t', o, GpuSet(gpuIds), generation))
            && (!r.Acquired? ==> t' == t)
  {
    var (t', r) := Acquire(t, o, generation, gpuIds, now, ttl, group);
    var gpus := GpuSet(gpuIds);
    if r.Acquired? && !r.idempotent {
      forall g <- t ensures g !in gpus {
        assert g !in gpus * t.Keys;
      }
      forall g ensures g in Owned(t', o) <==> g in gpus {
        assert g !in Owned(t, o);
      }
      assert Owned(t', o) == gpus;
    } else if r.Acquired? {
      assert Owned(t', o) == Owned(t, o);
    }
  }

  lemma NoRace(t: LeaseTable, o: Owner, generation: Generation, gpuIds: seq<Gpu>, now: int, ttl: nat, group: nat)
    ensures AcquireRaced(t, o, generation, gpuIds, now, ttl, group, map[]) == Acquire(t, o, generation, gpuIds, now, ttl, group)
  {
    assert map[] + Acquire(t, o, generation, gpuIds, now, ttl, group).0 == Acquire(t, o, generation, gpuIds, now, ttl, group).0;
  }

  /** A lost race leaves the caller without a single card and the other writer with all of its own; a race
      that touches none of the requested cards changes nothing for the caller; without one it is Acquire. */
  lemma RacesAreAllOrNothing(
    t: LeaseTable, o: Owner, generation: Generation, gpuIds: seq<Gpu>, now: int, ttl: nat, group: nat, late: LeaseTable)
    requires late.Keys !! t.Keys && forall g <- late :: late[g].owner != o
    ensures var (t', r) := AcquireRaced(t, o, generation, gpuIds, now, ttl, group, late);
            var alone := Acquire(t, o, generation, gpuIds, now, ttl, group);
            && (late == map[] ==> (t', r) == alone)
            && (!alone.1.Acquired? || alone.1.idempotent ==> (t', r) == alone)
            && (r.Acquired? <==> alone.1.Acquired? && (alone.1.idempotent || GpuSet(gpuIds) !! late.Keys))
            && (r.Acquired? ==> IsGroup(t', o, GpuSet(gpuIds), generation))
            && (!r.Acquired? ==> Owned(t', o) == Owned(t, o))
            && (forall g <- t :: g in t' && t'[g].owner == t[g].owner && t'[g].generation == t[g].generation)
            && (alone.1.Acquired? && !alone.1.idempotent ==> forall g <- late :: g in t' && t'[g] == late[g])
            && (alone.1.Acquired? && !r.Acquired? ==> r.Blocked? && exists g <- GpuSet(gpuIds) :: g in late && late[g].owner == r.holder)
  {
    var (t', r) := AcquireRaced(t, o, generation, gpuIds, now, ttl, group, late);
    var (granted, alone) := Acquire(t, o, generation, gpuIds, now, ttl, group);
    AcquireFrame(t, o, generation, gpuIds, now, ttl, group);
    if late == map[] {
      assert late + granted == granted;
    }
    if alone.Acquired? && !alone.idempotent {
      if r.Acquired? {
        forall g <- late ensures g !in granted {
          assert g !in GpuSet(gpuIds) * late.Keys;
        }
        forall g ensures g in Owned(late + granted, o) <==> g in Owned(granted, o) {}
        assert Owned(t', o) == GpuSet(gpuIds);
      } else {
        assert Owned(late + t, o) == Owned(t, o);
        assert LeastOf(GpuSet(gpuIds) * late.Keys) in GpuSet(gpuIds) * late.Keys;
      }
    }
  }

  lemma AcquireKeepsGroupsWhole(
    w: World, o: Owner, generation: Generation, gpuIds: seq<Gpu>, now: int, ttl: nat, group: nat)
    requires WholeOrNothing(w)
    ensures WholeOrNothing(Apply(w, DoAcquire(o, generation, gpuIds, now, group), ttl))
  {
    var w' := Apply(w, DoAcquire(o, generation, gpuIds, now, group), ttl);
    AcquireFrame(w.table, o, generation, gpuIds, now, ttl, group);
    forall g <- w'.table
      ensures w'.table[g].owner in w'.asked
      ensures Owned(w'.table, w'.table[g].owner) == w'.asked[w'.table[g].owner]
    {
      if g in w.table && w.table[g].owner != o { SurvivorsKeepTheirGroup(w, w', g); }
    }
  }

  lemma ApplyKeepsGroupsWhole(w: World, op: Operation, ttl: nat)
    requires WholeOrNothing(w)
    ensures WholeOrNothing(Apply(w, op, ttl))
  {
    if op.DoAcquire? {
      AcquireKeepsGroupsWhole(w, op.o, op.generation, op.gpuIds, op.now, ttl, op.group);
    } else {
      var w' := Apply(w, op, ttl);
      forall g <- w'.table ensures Owned(w'.table, w'.table[g].owner) == w'.asked[w'.table[g].owner] {
        SurvivorsKeepTheirGroup(w, w', g);
      }
    }
  }

  /** A lease that is still there has its whole group still there. */
  lemma SurvivorsKeepTheirGroup(w: World, w': World, g: Gpu)
    requires WholeOrNothing(w) && g in w.table && g in w'.table && w'.table[g].owner == w.table[g].owner
    requires w.table[g].owner in w'.asked && w'.asked[w.table[g].owner] == w.asked[w.table[g].owner]
    requires forall h <- w.table :: w.table[h] == w.table[g] ==> h in w'.table && w'.table[h].owner == w.table[h].owner
    requires forall h <- w'.table :: w'.table[h].owner == w.table[g].owner ==> h in w.table && w.table[h].owner == w.table[g].owner
    ensures Owned(w'.table, w'.table[g].owner) == w'.asked[w'.table[g].owner]
  {
    var o := w.table[g].owner;
    assert Owned(w.table, o) == w.asked[o];
    forall h ensures h in Owned(w'.table, o) <==> h in Owned(w.table, o) {
      if h in Owned(w.table, o) {
        assert w.table[h] == w.table[g];
      }
    }
  }

  /** Over any sequence of acquire, heartbeat, release, clean-up and reap calls, every owner holds
      either no card or exactly its one complete group. */
  lemma {:induction false} GroupsStayWholeOverRuns(ops: seq<Operation>, ttl: nat)
    ensures WholeOrNothing(Run(ops, ttl))
  {
    if ops != [] {
      GroupsStayWholeOverRuns(ops[..|ops| - 1], ttl);
      ApplyKeepsGroupsWhole(Run(ops[..|ops| - 1], ttl), ops[|ops| - 1], ttl);
    }
  }

  /** Each operation keeps an owner's cards, drops all of them, or grants a whole group to an owner
      that held none; only the acquiring owner can gain, and no operation hands a card over. */
  lemma OperationsMoveWholeGroups(w: World, op: Operation, ttl: nat, o: Owner)
    requires WholeOrNothing(w)
    ensures var before, after := Owned(w.table, o), Owned(Apply(w, op, ttl).table, o);
            || after == before
            || after == {}
            || (before == {} && op.DoAcquire? && op.o == o && after == GpuSet(op.gpuIds))
    ensures var t' := Apply(w, op, ttl).table;
            forall g <- w.table :: g in t' ==> t'[g].owner == w.table[g].owner && t'[g].generation == w.table[g].generation
  {
    var t, t' := w.table, Apply(w, op, ttl).table;
    if op.DoAcquire? {
      AcquireFrame(t, op.o, op.generation, op.gpuIds, op.now, ttl, op.group);
    }
    var before, after := Owned(t, o), Owned(t', o);
    if before != {} {
      var g :| g in before;
      forall h <- before ensures h in t' <==> g in t' {
        assert t[h] == t[g];
      }
      if g in t' {
        assert after == before;
      } else {
        assert after == {};
      }
    } else if after != {} {
      var g :| g in after;
      assert op.DoAcquire? && op.o == o;
    }
  }

  /** Re-acquiring with other cards or another generation is refused and changes nothing; with the
      same cards and generation it renews exactly that group. */
  lemma ReacquireIsExact(
    w: World, o: Owner, generation: Generation, gpuIds: seq<Gpu>, now: int, ttl: nat, group: nat)
    requires WholeOrNothing(w) && ValidRequest(gpuIds) && Owned(w.table, o) != {}
    ensures var (t', r) := Acquire(w.table, o, generation, gpuIds, now, ttl, group);
            var same := w.asked[o] == GpuSet(gpuIds) && HeldBy(w.table, o, generation) == Owned(w.table, o);
            && o in w.asked
            && (same ==> r.Acquired? && r.idempotent && t'.Keys == w.table.Keys)
            && (!same ==> r == InvariantError && t' == w.table)
            && (forall g <- w.table :: w.table[g].owner != o ==> t'[g] == w.table[g])
  {
    var g :| g in Owned(w.table, o);
    assert w.table[g].owner == o;
    forall h <- Owned(w.table, o) ensures w.table[h] == w.table[g] {}
    assert HeldBy(w.table, o, generation) == if w.table[g].generation == generation then Owned(w.table, o) else {};
  }

  /** Giving a new group back restores the table as it was before the group was acquired; in general only
      leases of that owner and generation go, and every other owner can be served as if they had never been. */
  lemma ReleaseUndoesAcquire(
    t: LeaseTable, o: Owner, generation: Generation, gpuIds: seq<Gpu>, now: int, ttl: nat, group: nat, p: Owner)
    ensures var (t', r) := Acquire(t, o, generation, gpuIds, now, ttl, group);
            r.Acquired? && !r.idempotent ==> Release(t', o, generation) == t
    ensures var released := Release(t, o, generation);
            && released.Keys == t.Keys - HeldBy(t, o, generation) && HeldBy(released, o, generation) == {}
            && (p != o ==> Owned(released, p) == Owned(t, p))
  {
    var (t', r) := Acquire(t, o, generation, gpuIds, now, ttl, group);
    var (gpus, released) := (GpuSet(gpuIds), Release(t, o, generation));
    if r.Acquired? && !r.idempotent {
      forall g <- t ensures g !in gpus && t[g].owner != o {
        assert g !in gpus * t.Keys && g !in Owned(t, o);
      }
      assert HeldBy(t', o, generation) == gpus;
      assert Release(t', o, generation) == t;
    }
    if p != o {
      assert forall g :: g in Owned(released, p) <==> g in Owned(t, p);
    }
  }

  /** After a successful acquire every card of the request is leased to the caller at that generation until the
      full time from now has passed, and a new group was acquired just now; no clean-up before then takes it. */
  lemma AcquiredLeasesLast(
    t: LeaseTable, o: Owner, generation: Generation, gpuIds: seq<Gpu>, now: int, ttl: nat, group: nat,
    confirmed: set<(Owner, Generation)>, later: int)
    ensures var (t', r) := Acquire(t, o, generation, gpuIds, now, ttl, group);
            r.Acquired? ==>
              && (forall i :: 0 <= i < |gpuIds| ==>
                    && gpuIds[i] in t' && t'[gpuIds[i]].owner == o && t'[gpuIds[i]].generation == generation
                    && t'[gpuIds[i]].heartbeatAt == now && t'[gpuIds[i]].expiresAt == now + ttl
                    && (!r.idempotent ==> t'[gpuIds[i]].acquiredAt == now && t'[gpuIds[i]].group == group))
              && (r.idempotent ==> forall g <- t :: g in t' && t'[g].acquiredAt == t[g].acquiredAt && t'[g].group == t[g].group)
              && (later < now + ttl ==> forall i :: 0 <= i < |gpuIds| ==> gpuIds[i] in Reap(t', confirmed, later))
  {
    AcquireFrame(t, o, generation, gpuIds, now, ttl, group);
    var (t', r) := Acquire(t, o, generation, gpuIds, now, ttl, group);
    if r.Acquired? {
      forall i | 0 <= i < |gpuIds|
        ensures gpuIds[i] in t' && t'[gpuIds[i]].heartbeatAt == now && t'[gpuIds[i]].expiresAt == now + ttl
      {
        assert gpuIds[i] in GpuSet(gpuIds);
      }
    }
  }

  /** A heartbeat moves the expiry of exactly the group it names to the full time from now. */
  lemma HeartbeatsExtend(t: LeaseTable, o: Owner, generation: Generation, now: int, ttl: nat, g: Gpu)
    requires g in t
    ensures var t' := Heartbeat(t, o, generation, now, ttl);
            && g in t' && t'.Keys == t.Keys
            && t'[g].owner == t[g].owner && t'[g].generation == t[g].generation && t'[g].group == t[g].group && t'[g].acquiredAt == t[g].acquiredAt
            && (if t[g].owner == o && t[g].generation == generation
                then t'[g].heartbeatAt == now && t'[g].expiresAt == now + ttl
                else t'[g] == t[g])
  {
  }

  /** A request that is refused names its reason: the list is not one of different card numbers, the caller holds
      another group, or somebody holds the lowest card of the request that is taken. */
  lemma RefusalsNameTheirReason(
    t: LeaseTable, o: Owner, generation: Generation, gpuIds: seq<Gpu>, now: int, ttl: nat, group: nat)
    ensures var r := Acquire(t, o, generation, gpuIds, now, ttl, group).1;
            && (r == InvalidRequest <==>
                  || gpuIds == [] || (exists i :: 0 <= i < |gpuIds| && gpuIds[i].index < 0)
                  || (exists i, j :: 0 <= i < j < |gpuIds| && gpuIds[i] == gpuIds[j]))
            && (r.Blocked? ==> exists i :: 0 <= i < |gpuIds| && gpuIds[i] in t && t[gpuIds[i]].owner == r.holder
                                           && t[gpuIds[i]].generation == r.generation && r.holder != o
                                           && forall j :: 0 <= j < |gpuIds| && gpuIds[j] in t ==> gpuIds[i].index <= gpuIds[j].index)
            && (r == InvariantError ==> exists g <- t :: t[g].owner == o)
            && (r.Acquired? && !r.idempotent ==> forall i :: 0 <= i < |gpuIds| ==> gpuIds[i] !in t)
  {
    var r := Acquire(t, o, generation, gpuIds, now, ttl, group).1;
    if r.Blocked? {
      var first := LeastOf(GpuSet(gpuIds) * t.Keys);
      var i :| 0 <= i < |gpuIds| && gpuIds[i] == first;
      forall j | 0 <= j < |gpuIds| && gpuIds[j] in t ensures first.index <= gpuIds[j].index {
        assert gpuIds[j] in GpuSet(gpuIds) * t.Keys;
      }
      assert t[first].owner != o by {
        assert first !in Owned(t, o);
      }
    }
    if r == InvariantError {
      var g :| g in Owned(t, o);
    }
    if r.Acquired? && !r.idempotent {
      forall i | 0 <= i < |gpuIds| ensures gpuIds[i] !in t {
        assert gpuIds[i] !in GpuSet(gpuIds) * t.Keys && gpuIds[i] in GpuSet(gpuIds);
      }
    }
  }

  /** Reaping takes exactly the leases that have expired and whose owner is confirmed to have ended at that generation. */
  lemma ReapedLeasesHaveExpired(t: LeaseTable, confirmed: set<(Owner, Generation)>, now: int, g: Gpu)
    ensures var t' := Reap(t, confirmed, now);
            && (g in t' <==> g in t && !(now >= t[g].expiresAt && (t[g].owner, t[g].generation) in confirmed))
            && (g in t' ==> t'[g] == t[g])
  {
  }

  /** An owner that holds cards acquires again exactly when it asks for all of them and no other, at their one
      generation, and they are one group. */
  lemma ReacquiresAreWhole(
    t: LeaseTable, o: Owner, generation: Generation, gpuIds: seq<Gpu>, now: int, ttl: nat, group: nat, held: Gpu)
    requires held in t && t[held].owner == o && ValidRequest(gpuIds)
    ensures var r := Acquire(t, o, generation, gpuIds, now, ttl, group).1;
            && (r.Acquired? <==>
                  && (forall g <- t :: t[g].owner == o <==> g in gpuIds)
                  && (forall i :: 0 <= i < |gpuIds| ==> gpuIds[i] in t)
                  && forall g <- t :: t[g].owner == o ==> t[g].generation == generation && t[g].group == t[held].group)
            && (r.Acquired? ==> r.idempotent && r.group == t[held].group && r.gpus == Owned(t, o))
            && (!r.Acquired? ==> r == InvariantError)
  {
    var (gpus, r) := (GpuSet(gpuIds), Acquire(t, o, generation, gpuIds, now, ttl, group).1);
    assert held in Owned(t, o);
    forall g ensures g in gpus <==> g in gpuIds {}
    if && (forall g <- t :: t[g].owner == o <==> g in gpuIds) && (forall i :: 0 <= i < |gpuIds| ==> gpuIds[i] in t)
       && forall g <- t :: t[g].owner == o ==> t[g].generation == generation && t[g].group == t[held].group
    {
      assert Owned(t, o) == gpus;
      assert IsGroup(t, o, gpus, generation);
    }
    if r.Acquired? {
      assert IsGroup(t, o, gpus, generation) && held in gpus;
      assert forall g :: g in Owned(t, o) <==> g in t && t[g].owner == o;
    }
  }
}
