/** One sweep of the reaper as a loop, undisturbed by other tasks. */
module Reaping {
  import opened Wrappers
  import opened Configuration
  import opened Docker
  import opened Registries
  import opened Lifecycle
  import opened Interference

  /** The rows a sweep at `now` takes: past expiry and not inside their boot window. */
  function Taken(c: Config, t: Table, now: real): set<Uuid> {
    set u | u in DueUuids(t, now) && !Protected(c, now, t[u])
  }

  function Expire(t: Table, us: set<Uuid>): Table {
    map u | u in t :: if u in us then t[u].WithStatus(Expired, None) else t[u]
  }

  function Without(f: Fleet, us: set<Uuid>): Fleet {
    map x | x in f && (f[x].uuid.None? || f[x].uuid.value !in us) :: f[x]
  }

  lemma TakenIsReapable(c: Config, t: Table, now: real, queue: seq<Record>)
    requires Lists(queue, t, DueUuids(t, now))
    ensures Reapable(c, now, queue) == Taken(c, t, now)
  {
    forall u | u in Taken(c, t, now)
      ensures u in Reapable(c, now, queue)
    {
      var i :| 0 <= i < |queue| && queue[i].uuid == u;
      assert queue[i] in queue;
    }
  }

  /** Past its expiry, and not still in its boot window. */
  predicate Overdue(c: Config, row: Row, now: real) {
    && (row.status == Starting || row.status == Running) && row.expiresAt < now
    && (row.status == Starting ==> now - row.createdAt >= c.bootTimeout as real)
  }

  /** What a sweep leaves, row by row and container by container: the overdue rows become
      `expired` with no other column changed, and exactly their containers go. */
  lemma OverdueOnly(c: Config, t: Table, f: Fleet, born: map<Cid, Uuid>, now: real)
    requires Consistent(c, t, f, born)
    ensures Expire(t, Taken(c, t, now)).Keys == t.Keys
    ensures forall u | u in t ::
      Expire(t, Taken(c, t, now))[u] == if Overdue(c, t[u], now) then t[u].(status := Expired, error := None) else t[u]
    ensures forall x | x in f :: x in Without(f, Taken(c, t, now)) <==> !Overdue(c, t[born[x]], now)
  {}

  class Reaper {
    const cfg: Config
    const reg: Registry
    const docker: DockerManager

    constructor (c: Config, r: Registry, d: DockerManager)
      ensures cfg == c && reg == r && docker == d
    {
      cfg, reg, docker := c, r, d;
    }

    /** One row: its container goes first, its status is written afterwards. */
    method Take(rec: Record, up: bool)
      modifies reg, docker`fleet
      ensures reg.rows == SetStatus(old(reg.rows), rec.uuid, Expired, None)
      ensures docker.fleet == if up
        then RemoveRef(old(docker.fleet), Ref(rec.row.containerId, Some(rec.row.containerName))) else old(docker.fleet)
    {
      docker.StopAndRemove(rec.row.containerId, Some(rec.row.containerName), up);
      reg.PutStatus(rec.uuid, Expired, None);
    }

    /** Takes exactly the rows in `Taken`, whatever order the database lists them in: their
        status becomes `expired` and, if the daemon obeys, their containers go. Row by row
        this is what `OverdueOnly` says. */
    method Sweep(now: real, up: bool)
      requires Consistent(cfg, reg.rows, docker.fleet, docker.born)
      modifies reg, docker`fleet
      ensures reg.rows == Expire(old(reg.rows), Taken(cfg, old(reg.rows), now))
      ensures docker.fleet == if up then Without(old(docker.fleet), Taken(cfg, old(reg.rows), now))
        else old(docker.fleet)
    {
      var due := reg.DueForReap(now);
      TakenIsReapable(cfg, reg.rows, now, due);
      ghost var rows, fleet, born := reg.rows, docker.fleet, docker.born;
      StartOfSweep(rows, fleet);
      for i := 0 to |due|
        invariant reg.rows == Expire(rows, Reapable(cfg, now, due[..i]))
        invariant docker.fleet == if up then Without(fleet, Reapable(cfg, now, due[..i])) else fleet
      {
        var rec := due[i];
        assert due[..i + 1] == due[..i] + [rec];
        if rec.row.status == Starting && now - rec.row.createdAt < cfg.BootWindow() {
          assert Reapable(cfg, now, due[..i + 1]) == Reapable(cfg, now, due[..i]);
          continue;
        }
        ghost var before := Reapable(cfg, now, due[..i]);
        assert Reapable(cfg, now, due[..i + 1]) == before + {rec.uuid};
        ExpireOne(rows, before, rec.uuid);
        TakeOne(cfg, rows, fleet, born, before, rec.uuid);
        hide Expire, Without, Reapable, Consistent, RemoveRef, Ref, SetStatus;
        Take(rec, up);
      }
      assert due[..|due|] == due;
    }
  }

  lemma ExpireOne(t: Table, us: set<Uuid>, u: Uuid)
    requires u in t
    ensures SetStatus(Expire(t, us), u, Expired, None) == Expire(t, us + {u})
  {}

  /** Removing the container of `u`, whatever was removed before. */
  lemma TakeOne(c: Config, t: Table, f: Fleet, born: map<Cid, Uuid>, us: set<Uuid>, u: Uuid)
    requires Consistent(c, t, f, born) && u in t
    ensures RemoveRef(Without(f, us), Ref(t[u].containerId, Some(t[u].containerName))) == Without(f, us + {u})
  {
    WithoutIsBorn(c, f, born, us);
    assert t[u].containerName == c.ContainerName(u);
    assert t[u].containerId.Some? ==> t[u].containerId.value in born && born[t[u].containerId.value] == u;
    hide Consistent, WellBorn, RemoveRef, Ref;
    RemovalIsExact(c, Without(f, us), born, u, t[u].containerId);
    WithoutOne(f, us, u);
  }

  lemma WithoutIsBorn(c: Config, f: Fleet, born: map<Cid, Uuid>, us: set<Uuid>)
    requires WellBorn(c, f, born)
    ensures WellBorn(c, Without(f, us), born)
  {}

  lemma WithoutOne(f: Fleet, us: set<Uuid>, u: Uuid)
    ensures Others(Without(f, us), u) == Without(f, us + {u})
  {}

  lemma StartOfSweep(t: Table, f: Fleet)
    ensures Expire(t, {}) == t && Without(f, {}) == f
  {}
}
