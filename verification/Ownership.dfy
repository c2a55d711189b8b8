/** What every step keeps, whatever the daemon, the clock and the players do: containers,
    ids and task snapshots always belong to the uuid they were made for. */
module Ownership {
  import opened Wrappers
  import opened Configuration
  import opened Docker
  import opened Registries
  import opened Lifecycle

  ghost predicate OwnId(s: State, u: Uuid, cid: Option<Cid>) {
    cid.Some? ==> cid.value in s.born && s.born[cid.value] == u
  }

  /** A row in state `running` names its container, a package and the url of its uuid. */
  predicate Filled(c: Config, u: Uuid, row: Row) {
    row.status == Running ==>
      row.containerId.Some? && row.packageId.Some? && row.packageId.value != "" && row.rpcUrl == Some(c.RpcUrlFor(u))
  }

  ghost predicate FleetOk(c: Config, s: State) {
    WellBorn(c, s.fleet, s.born) && forall x | x in s.born :: s.born[x] in s.rows
  }

  ghost predicate RowOk(c: Config, s: State, u: Uuid) {
    u in s.rows ==>
      s.rows[u].containerName == c.ContainerName(u) && OwnId(s, u, s.rows[u].containerId) && Filled(c, u, s.rows[u])
  }

  ghost predicate RowsOk(c: Config, s: State) {
    forall u | u in s.rows :: RowOk(c, s, u)
  }

  ghost predicate SpawnOk(s: State, u: Uuid, pc: SpawnPc) {
    && u in s.rows && s.rows[u].status != Running
    && match pc
       case Launching => s.rows[u].containerId == None && forall x | x in s.born :: s.born[x] != u
       case LaunchFailed(_) => s.rows[u].containerId == None
       case Launched(x) => x in s.born && s.born[x] == u
       case _ => s.rows[u].containerId == Some(pc.cid)
  }

  ghost predicate SpawnsOk(s: State) {
    forall u | u in s.spawns :: SpawnOk(s, u, s.spawns[u])
  }

  /** `row` was read from the row of `u` at some earlier time. */
  ghost predicate Snapshot(c: Config, s: State, u: Uuid, row: Row) {
    && u in s.rows && s.rows[u].Identity() == row.Identity()
    && row.containerName == c.ContainerName(u) && OwnId(s, u, row.containerId)
    && (row.status == Running ==> u !in s.spawns)
  }

  ghost predicate KillsOk(c: Config, s: State) {
    forall k | k in s.kills :: Snapshot(c, s, s.kills[k].uuid, s.kills[k].row)
  }

  ghost predicate SweepOk(c: Config, s: State) {
    s.sweep.Sweeping? ==>
      forall i | 0 <= i < |s.sweep.queue| ::
        && Snapshot(c, s, s.sweep.queue[i].uuid, s.sweep.queue[i].row)
        && s.sweep.queue[i].row.IsActive() && s.sweep.queue[i].row.expiresAt < s.sweep.start
  }

  ghost predicate ReturnedOk(s: State) {
    s.returned <= s.rows.Keys && s.returned !! s.spawns.Keys && s.revived <= s.returned
  }

  /** A launch nobody waits for any more has not happened yet. */
  ghost predicate LimboOk(s: State) {
    forall u | u in s.limbo :: u in s.rows && u !in s.spawns && forall x | x in s.born :: s.born[x] != u
  }

  ghost predicate Owned(c: Config, s: State) {
    FleetOk(c, s) && RowsOk(c, s) && SpawnsOk(s) && KillsOk(c, s) && SweepOk(c, s) && ReturnedOk(s) && LimboOk(s)
  }

  // ---- what one step can do, component by component ----

  /** The id a step gets from the daemon, with the uuid it is for. */
  function Creation(st: Step): Option<(Uuid, Cid)> {
    match st
    case Launch(u, x) => Some((u, x))
    case LaunchFails(u, created, _) => if created.Some? then Some((u, created.value)) else None
    case LateLaunch(u, x) => Some((u, x))
    case _ => None
  }

  /** Containers appear only through a launch; every other step can only take some away. */
  lemma FleetMoves(c: Config, s: State, st: Step)
    requires Enabled(c, s, st)
    ensures Creation(st).Some? ==>
      var (u, x) := Creation(st).value;
      && (if st.LateLaunch? then u in s.limbo else u in s.spawns && s.spawns[u] == Launching)
      && CanCreate(c, s, u, x) && x !in s.born
      && (forall y | y in s.fleet :: s.fleet[y].name != c.ContainerName(u))
      && Next(c, s, st).fleet == s.fleet[x := Container(c.ContainerName(u), Some(u))]
      && Next(c, s, st).born == s.born[x := u]
    ensures Creation(st).None? ==>
      && Next(c, s, st).born == s.born
      && forall x | x in Next(c, s, st).fleet :: x in s.fleet && Next(c, s, st).fleet[x] == s.fleet[x]
  {}

  /** The answer a step turns into a `running` row of `u`, if it is the one that ends the
      spawn of `u` successfully. */
  predicate Finishes(s: State, st: Step, u: Uuid) {
    && u in s.spawns
    && ((st == LoopHead(u) && s.spawns[u].AtHead? && s.now >= s.spawns[u].deadline && Usable(s.spawns[u].ready))
        || (st == ReadResume(u) && s.spawns[u].ReadDone? && Complete(s.spawns[u].ready)))
  }

  /** How a step may rewrite an existing row: not at all, by recording the container its
      own spawn launched, by its own spawn's success, or with an inactive status. */
  ghost predicate RowMove(c: Config, s: State, st: Step, u: Uuid, before: Row, after: Row) {
    || after == before
    || (st == RecordContainer(u) && u in s.spawns && s.spawns[u].Launched? &&
      after == before.WithContainer(s.spawns[u].cid))
    || (Finishes(s, st, u) && after == before.WithRunning(c.RpcUrlFor(u), s.spawns[u].ready.value))
    || (!after.IsActive() && after == before.WithStatus(after.status, after.error))
  }

  lemma RowMoves(c: Config, s: State, st: Step, u: Uuid)
    requires Enabled(c, s, st)
    ensures u in s.rows ==> u in Next(c, s, st).rows && RowMove(c, s, st, u, s.rows[u], Next(c, s, st).rows[u])
    ensures u !in s.rows && u in Next(c, s, st).rows ==>
      st.Reserve? && st.uuid == u && Next(c, s, st).rows[u] == ReservedRow(c, st.ip, u, s.now, st.time)
  {}

  lemma IdentityStays(c: Config, s: State, st: Step, u: Uuid)
    requires Enabled(c, s, st) && u in s.rows
    ensures u in Next(c, s, st).rows && Next(c, s, st).rows[u].Identity() == s.rows[u].Identity()
  {
    hide Next, Enabled;
    RowMoves(c, s, st, u);
  }

  /** The spawn a step belongs to. */
  function SpawnOf(st: Step): Option<Uuid> {
    match st
    case Reserve(_, u, _) => Some(u)
    case Launch(u, _) => Some(u)
    case LaunchFails(u, _, _) => Some(u)
    case LateLaunch(u, _) => Some(u)
    case RecordContainer(u) => Some(u)
    case LoopHead(u) => Some(u)
    case ReadEffect(u, _) => Some(u)
    case CallRaises(u, _) => Some(u)
    case ReadResume(u) => Some(u)
    case StatusEffect(u, _) => Some(u)
    case StatusResume(u) => Some(u)
    case RaiseResume(u) => Some(u)
    case CleanUp(u, _) => Some(u)
    case _ => None
  }

  /** The step ends a spawn by an exception: from its launch, from a call while it polls, or
      because the instance exited or is late. */
  predicate FailsSpawn(st: Step) {
    st.CallRaises? || st.RaiseResume?
  }

  /** Kill tasks hold a row read when they started. */
  lemma KillMoves(c: Config, s: State, st: Step, k: nat)
    requires Enabled(c, s, st)
    ensures k in Next(c, s, st).kills ==>
      var pc := Next(c, s, st).kills[k];
      if k in s.kills then pc.uuid == s.kills[k].uuid && pc.row == s.kills[k].row
      else st == KillStart(k, pc.uuid) && pc.uuid in s.rows && pc.row == s.rows[pc.uuid]
  {}

  /** A sweep's queue is read once, when it starts, and only ever loses its head. */
  lemma SweepMoves(c: Config, s: State, st: Step)
    requires Enabled(c, s, st)
    ensures Next(c, s, st).sweep.Sweeping? ==>
      var w := Next(c, s, st).sweep;
      if s.sweep.Sweeping? then
        && w.start == s.sweep.start
        && (w.queue == s.sweep.queue || (s.sweep.queue != [] && w.queue == s.sweep.queue[1..]))
      else
        && st == SweepStart(w.queue) && w.start == s.now && !w.removed
        && Lists(w.queue, s.rows, DueUuids(s.rows, s.now))
  {}

  lemma SpawnsRest(c: Config, s: State, st: Step)
    requires Enabled(c, s, st) && SpawnOf(st).None?
    ensures Next(c, s, st).spawns == s.spawns || Next(c, s, st).spawns == map[]
  {}

  predicate EarlyStep(st: Step) {
    st.Reserve? || st.Launch? || st.LaunchFails? || st.LateLaunch? || st.RecordContainer?
  }

  lemma EarlyStepsSpare(c: Config, s: State, st: Step, u: Uuid)
    requires Enabled(c, s, st) && EarlyStep(st) && SpawnOf(st) != Some(u) && u in Next(c, s, st).spawns
    ensures u in s.spawns && Next(c, s, st).spawns[u] == s.spawns[u]
  {}

  predicate PollingStep(st: Step) {
    st.LoopHead? || st.ReadEffect? || st.ReadResume?
  }

  lemma PollingStepsSpare(c: Config, s: State, st: Step, u: Uuid)
    requires Enabled(c, s, st) && PollingStep(st) && SpawnOf(st) != Some(u) && u in Next(c, s, st).spawns
    ensures u in s.spawns && Next(c, s, st).spawns[u] == s.spawns[u]
  {}

  lemma ClosingStepsSpare(c: Config, s: State, st: Step, u: Uuid)
    requires Enabled(c, s, st) && !EarlyStep(st) && !PollingStep(st)
    requires SpawnOf(st).Some? && SpawnOf(st) != Some(u) && u in Next(c, s, st).spawns
    ensures u in s.spawns && Next(c, s, st).spawns[u] == s.spawns[u]
  {}

  lemma SpawnStarts(c: Config, s: State, st: Step, u: Uuid)
    requires Enabled(c, s, st) && u in Next(c, s, st).spawns && u !in s.spawns
    ensures u !in s.rows && u in Next(c, s, st).rows
  {}

  /** A spawn advances only by its own steps, and starts only with a new row. */
  lemma SpawnMoves(c: Config, s: State, st: Step, u: Uuid)
    requires Enabled(c, s, st)
    ensures u in Next(c, s, st).spawns && SpawnOf(st) != Some(u) ==>
      u in s.spawns && Next(c, s, st).spawns[u] == s.spawns[u]
    ensures u in Next(c, s, st).spawns && u !in s.spawns ==> u !in s.rows && u in Next(c, s, st).rows
  {
    hide Next, Enabled;
    if SpawnOf(st).None? {
      SpawnsRest(c, s, st);
    } else if u in Next(c, s, st).spawns && SpawnOf(st) != Some(u) {
      if EarlyStep(st) {
        EarlyStepsSpare(c, s, st, u);
      } else if PollingStep(st) {
        PollingStepsSpare(c, s, st, u);
      } else {
        ClosingStepsSpare(c, s, st, u);
      }
    }
    if u in Next(c, s, st).spawns && u !in s.spawns {
      SpawnStarts(c, s, st, u);
    }
  }

  lemma ReturnsByOwn(c: Config, s: State, st: Step, u: Uuid)
    requires Enabled(c, s, st) && SpawnOf(st) == Some(u)
    ensures u in Next(c, s, st).returned <==> u in s.returned || Finishes(s, st, u)
    ensures Finishes(s, st, u) ==> u !in Next(c, s, st).spawns
  {}

  lemma ReturnsByOthers(c: Config, s: State, st: Step, u: Uuid)
    requires Enabled(c, s, st) && SpawnOf(st) != Some(u)
    ensures u in Next(c, s, st).returned <==> u in s.returned
    ensures !Finishes(s, st, u)
  {}

  /** Only a successful spawn hands out its uuid, and that ends the spawn. */
  lemma ReturnMoves(c: Config, s: State, st: Step, u: Uuid)
    requires Enabled(c, s, st)
    ensures u in Next(c, s, st).returned <==> u in s.returned || Finishes(s, st, u)
    ensures Finishes(s, st, u) ==> u !in Next(c, s, st).spawns
  {
    hide Next, Enabled, Finishes;
    if SpawnOf(st) == Some(u) {
      ReturnsByOwn(c, s, st, u);
    } else {
      ReturnsByOthers(c, s, st, u);
    }
  }

  lemma RevivedOnSuccess(c: Config, s: State, st: Step, u: Uuid)
    requires Enabled(c, s, st) && Finishes(s, st, u)
    ensures u in Next(c, s, st).revived <==> u in s.revived || (u in s.rows && !s.rows[u].IsActive())
  {}

  lemma RevivedNotOtherwise(c: Config, s: State, st: Step, u: Uuid)
    requires Enabled(c, s, st) && !Finishes(s, st, u)
    ensures u in Next(c, s, st).revived <==> u in s.revived
  {}

  /** A row is revived exactly when its own spawn succeeds after it became inactive. */
  lemma RevivalMoves(c: Config, s: State, st: Step, u: Uuid)
    requires Enabled(c, s, st)
    ensures u in Next(c, s, st).revived <==>
      u in s.revived || (Finishes(s, st, u) && u in s.rows && !s.rows[u].IsActive())
  {
    hide Next, Enabled, Finishes;
    if Finishes(s, st, u) {
      RevivedOnSuccess(c, s, st, u);
    } else {
      RevivedNotOtherwise(c, s, st, u);
    }
  }

  // ---- preservation ----

  /** Only an instance that never had a container gets one. */
  lemma CreationIsFirst(c: Config, s: State, st: Step)
    requires Enabled(c, s, st) && SpawnsOk(s) && LimboOk(s) && Creation(st).Some?
    ensures var u := Creation(st).value.0;
      u in s.rows && forall x | x in s.born :: s.born[x] != u
  {
    hide Next, Enabled;
    FleetMoves(c, s, st);
    var u := Creation(st).value.0;
    assert u in s.spawns ==> SpawnOk(s, u, s.spawns[u]);
  }

  lemma FleetStep(c: Config, s: State, st: Step)
    requires Enabled(c, s, st) && Owned(c, s)
    ensures FleetOk(c, Next(c, s, st))
  {
    hide Next, Enabled, RowsOk, SpawnsOk, KillsOk, SweepOk, ReturnedOk, LimboOk;
    FleetMoves(c, s, st);
    var t := Next(c, s, st);
    if Creation(st).Some? {
      CreationIsFirst(c, s, st);
    }
    forall x | x in t.born
      ensures t.born[x] in t.rows
    {
      RowMoves(c, s, st, t.born[x]);
    }
  }

  lemma OwnIdStays(c: Config, s: State, st: Step, u: Uuid, cid: Option<Cid>)
    requires Enabled(c, s, st) && OwnId(s, u, cid)
    ensures OwnId(Next(c, s, st), u, cid)
  {
    hide Next, Enabled;
    FleetMoves(c, s, st);
  }

  lemma RowStep(c: Config, s: State, st: Step, u: Uuid)
    requires Enabled(c, s, st) && RowOk(c, s, u) && (u in s.spawns ==> SpawnOk(s, u, s.spawns[u]))
    ensures RowOk(c, Next(c, s, st), u)
  {
    hide Next, Enabled;
    RowMoves(c, s, st, u);
    if u in s.rows {
      OwnIdStays(c, s, st, u, s.rows[u].containerId);
      if u in s.spawns && s.spawns[u].Launched? {
        OwnIdStays(c, s, st, u, Some(s.spawns[u].cid));
      }
    }
  }

  lemma RowsStep(c: Config, s: State, st: Step)
    requires Enabled(c, s, st) && Owned(c, s)
    ensures RowsOk(c, Next(c, s, st))
  {
    hide Next, Enabled, FleetOk, KillsOk, SweepOk, ReturnedOk, SpawnOk;
    var t := Next(c, s, st);
    forall u | u in t.rows
      ensures RowOk(c, t, u)
    {
      assert RowOk(c, s, u);
      RowStep(c, s, st, u);
    }
  }

  lemma EarlySpawnStep(c: Config, s: State, st: Step, u: Uuid)
    requires Enabled(c, s, st) && EarlyStep(st) && SpawnOf(st) == Some(u) && u in Next(c, s, st).spawns
    requires u in s.spawns ==> SpawnOk(s, u, s.spawns[u]) && u !in s.limbo
    requires forall x | x in s.born :: s.born[x] in s.rows
    ensures SpawnOk(Next(c, s, st), u, Next(c, s, st).spawns[u])
  {}

  lemma HeadSpawnStep(c: Config, s: State, u: Uuid)
    requires Enabled(c, s, LoopHead(u)) && u in Next(c, s, LoopHead(u)).spawns
    requires u in s.spawns && SpawnOk(s, u, s.spawns[u])
    ensures SpawnOk(Next(c, s, LoopHead(u)), u, Next(c, s, LoopHead(u)).spawns[u])
  {}

  lemma PollingSpawnStep(c: Config, s: State, st: Step, u: Uuid)
    requires Enabled(c, s, st) && SpawnOf(st) == Some(u) && u in Next(c, s, st).spawns
    requires PollingStep(st)
    requires u in s.spawns && SpawnOk(s, u, s.spawns[u])
    ensures SpawnOk(Next(c, s, st), u, Next(c, s, st).spawns[u])
  {
    if st == LoopHead(u) {
      hide Next, Enabled, SpawnOk;
      HeadSpawnStep(c, s, u);
    }
  }

  lemma ClosingSpawnStep(c: Config, s: State, st: Step, u: Uuid)
    requires Enabled(c, s, st) && !EarlyStep(st) && !PollingStep(st)
    requires SpawnOf(st) == Some(u) && u in Next(c, s, st).spawns
    requires u in s.spawns && SpawnOk(s, u, s.spawns[u])
    ensures SpawnOk(Next(c, s, st), u, Next(c, s, st).spawns[u])
  {}

  lemma LateSpawnStep(c: Config, s: State, st: Step, u: Uuid)
    requires Enabled(c, s, st) && !EarlyStep(st) && SpawnOf(st) == Some(u) && u in Next(c, s, st).spawns
    requires u in s.spawns && SpawnOk(s, u, s.spawns[u])
    ensures SpawnOk(Next(c, s, st), u, Next(c, s, st).spawns[u])
  {
    hide Next, Enabled, SpawnOk;
    if PollingStep(st) {
      PollingSpawnStep(c, s, st, u);
    } else {
      ClosingSpawnStep(c, s, st, u);
    }
  }

  lemma LateStepHasSpawn(c: Config, s: State, st: Step, u: Uuid)
    requires Enabled(c, s, st) && !EarlyStep(st) && SpawnOf(st) == Some(u)
    ensures u in s.spawns
  {}

  lemma OtherSpawnStep(c: Config, s: State, st: Step, u: Uuid)
    requires Enabled(c, s, st) && SpawnOf(st) != Some(u) && u in Next(c, s, st).spawns
    requires u in s.spawns && SpawnOk(s, u, s.spawns[u])
    ensures SpawnOk(Next(c, s, st), u, Next(c, s, st).spawns[u])
  {
    hide Next, Enabled;
    SpawnMoves(c, s, st, u);
    RowMoves(c, s, st, u);
    FleetMoves(c, s, st);
  }

  lemma SpawnsStep(c: Config, s: State, st: Step)
    requires Enabled(c, s, st) && Owned(c, s)
    ensures SpawnsOk(Next(c, s, st))
  {
    hide Next, Enabled, SpawnOk;
    var t := Next(c, s, st);
    forall u | u in t.spawns
      ensures SpawnOk(t, u, t.spawns[u])
    {
      if SpawnOf(st) == Some(u) {
        if EarlyStep(st) {
          EarlySpawnStep(c, s, st, u);
        } else {
          LateStepHasSpawn(c, s, st, u);
          LateSpawnStep(c, s, st, u);
        }
      } else {
        SpawnMoves(c, s, st, u);
        OtherSpawnStep(c, s, st, u);
      }
    }
  }

  /** What a task read about `u` stays true of `u` while it waits. */
  lemma SnapshotStays(c: Config, s: State, st: Step, u: Uuid, row: Row)
    requires Enabled(c, s, st) && Snapshot(c, s, u, row)
    ensures Snapshot(c, Next(c, s, st), u, row)
  {
    hide Next, Enabled;
    RowMoves(c, s, st, u);
    SpawnMoves(c, s, st, u);
    OwnIdStays(c, s, st, u, row.containerId);
  }

  lemma SnapshotNow(c: Config, s: State, u: Uuid)
    requires Owned(c, s) && u in s.rows
    ensures Snapshot(c, s, u, s.rows[u])
  {
    if u in s.spawns {
      assert SpawnOk(s, u, s.spawns[u]);
    }
  }

  lemma KillsStep(c: Config, s: State, st: Step)
    requires Enabled(c, s, st) && Owned(c, s)
    ensures KillsOk(c, Next(c, s, st))
  {
    hide Next, Enabled;
    var t := Next(c, s, st);
    forall k | k in t.kills
      ensures Snapshot(c, t, t.kills[k].uuid, t.kills[k].row)
    {
      KillMoves(c, s, st, k);
      if k in s.kills {
        SnapshotStays(c, s, st, s.kills[k].uuid, s.kills[k].row);
      } else {
        SnapshotNow(c, s, t.kills[k].uuid);
        SnapshotStays(c, s, st, t.kills[k].uuid, t.kills[k].row);
      }
    }
  }

  lemma SweepStep(c: Config, s: State, st: Step)
    requires Enabled(c, s, st) && Owned(c, s)
    ensures SweepOk(c, Next(c, s, st))
  {
    hide Next, Enabled;
    SweepMoves(c, s, st);
    var t := Next(c, s, st);
    if t.sweep.Sweeping? {
      forall i | 0 <= i < |t.sweep.queue|
        ensures Snapshot(c, t, t.sweep.queue[i].uuid, t.sweep.queue[i].row)
      {
        var r := t.sweep.queue[i];
        if st.SweepStart? {
          SnapshotNow(c, s, r.uuid);
        }
        SnapshotStays(c, s, st, r.uuid, r.row);
      }
    }
  }

  lemma ReturnedStep(c: Config, s: State, st: Step)
    requires Enabled(c, s, st) && Owned(c, s)
    ensures ReturnedOk(Next(c, s, st))
  {
    hide Next, Enabled;
    var t := Next(c, s, st);
    forall u | u in t.returned
      ensures u in t.rows && u !in t.spawns
    {
      ReturnMoves(c, s, st, u);
      RowMoves(c, s, st, u);
      SpawnMoves(c, s, st, u);
    }
    forall u | u in t.revived
      ensures u in t.returned
    {
      ReturnMoves(c, s, st, u);
      RevivalMoves(c, s, st, u);
    }
  }

  lemma LimboMoves(c: Config, s: State, st: Step, u: Uuid)
    requires Enabled(c, s, st) && u in Next(c, s, st).limbo
    ensures !(st.LateLaunch? && st.u == u) || u !in s.limbo
    ensures u in s.limbo || (st.Restart? && u in s.spawns && s.spawns[u].Launching? && u !in Next(c, s, st).spawns)
  {}

  lemma LimboStep(c: Config, s: State, st: Step)
    requires Enabled(c, s, st) && Owned(c, s)
    ensures LimboOk(Next(c, s, st))
  {
    hide Next, Enabled, FleetOk, RowsOk, KillsOk, SweepOk, ReturnedOk;
    var t := Next(c, s, st);
    FleetMoves(c, s, st);
    forall u | u in t.limbo
      ensures u in t.rows && u !in t.spawns && forall x | x in t.born :: t.born[x] != u
    {
      LimboMoves(c, s, st, u);
      RowMoves(c, s, st, u);
      SpawnMoves(c, s, st, u);
      assert u in s.spawns ==> SpawnOk(s, u, s.spawns[u]);
    }
  }

  lemma OwnedStep(c: Config, s: State, st: Step)
    requires Enabled(c, s, st) && Owned(c, s)
    ensures Owned(c, Next(c, s, st))
  {
    hide Next, Enabled;
    FleetStep(c, s, st);
    RowsStep(c, s, st);
    SpawnsStep(c, s, st);
    KillsStep(c, s, st);
    SweepStep(c, s, st);
    ReturnedStep(c, s, st);
    LimboStep(c, s, st);
  }

  // ---- removals ----

  /** The uuid whose container a step removes. */
  function RemovalOf(s: State, st: Step): Option<Uuid> {
    match st
    case CleanUp(u, _) => Some(u)
    case KillRemove(k, _) => if k in s.kills then Some(s.kills[k].uuid) else None
    case KillAborts(k, _) => if k in s.kills then Some(s.kills[k].uuid) else None
    case SweepRemove(_) => if AtRow(s) then Some(s.sweep.queue[0].uuid) else None
    case SweepAborts(_) => if AtRow(s) then Some(s.sweep.queue[0].uuid) else None
    case _ => None
  }

  /** Whether the daemon carries the removal out. */
  predicate RemovalUp(st: Step) {
    match st
    case CleanUp(_, up) => up
    case KillRemove(_, up) => up
    case KillAborts(_, up) => up
    case SweepRemove(up) => up
    case SweepAborts(up) => up
    case _ => false
  }

  lemma CleanUpRemoval(c: Config, s: State, u: Uuid, up: bool)
    requires Owned(c, s) && u in s.spawns && s.spawns[u].Removing?
    ensures Remove(s, Some(s.spawns[u].cid), None, up) == if up then Others(s.fleet, u) else s.fleet
  {
    hide KillsOk, SweepOk, ReturnedOk;
    assert SpawnOk(s, u, s.spawns[u]) && OwnId(s, u, s.rows[u].containerId);
    RemovalIsExact(c, s.fleet, s.born, u, Some(s.spawns[u].cid));
  }

  lemma SnapshotRemoval(c: Config, s: State, u: Uuid, row: Row, up: bool)
    requires FleetOk(c, s) && Snapshot(c, s, u, row)
    ensures Remove(s, row.containerId, Some(row.containerName), up) == if up then Others(s.fleet, u) else s.fleet
  {
    RemovalIsExact(c, s.fleet, s.born, u, row.containerId);
  }

  /** A removal takes away its instance's container and touches no other instance's,
      whichever of id and name it goes by and however stale the row it was read from. */
  lemma RemovalMoves(c: Config, s: State, st: Step)
    requires Enabled(c, s, st) && Owned(c, s) && RemovalOf(s, st).Some?
    ensures Next(c, s, st).fleet == if RemovalUp(st) then Others(s.fleet, RemovalOf(s, st).value) else s.fleet
  {
    hide FleetOk, RowsOk, SpawnsOk, ReturnedOk, Remove, RemoveRef;
    match st {
      case CleanUp(u, up) => CleanUpRemoval(c, s, u, up);
      case KillRemove(k, up) => SnapshotRemoval(c, s, s.kills[k].uuid, s.kills[k].row, up);
      case KillAborts(k, up) => SnapshotRemoval(c, s, s.kills[k].uuid, s.kills[k].row, up);
      case SweepRemove(up) => SnapshotRemoval(c, s, s.sweep.queue[0].uuid, s.sweep.queue[0].row, up);
      case SweepAborts(up) => SnapshotRemoval(c, s, s.sweep.queue[0].uuid, s.sweep.queue[0].row, up);
      case _ =>
    }
  }

  lemma FleetRests(c: Config, s: State, st: Step)
    requires Enabled(c, s, st) && RemovalOf(s, st).None? && Creation(st).None? && !st.Restart?
    ensures Next(c, s, st).fleet == s.fleet
  {}

  // ---- runs ----

  /** The ownership invariant holds in every reachable state of every interleaving. */
  lemma {:induction false} OwnedAlways(c: Config, ss: seq<State>, steps: seq<Step>, i: nat)
    requires Run(c, ss, steps) && i < |ss|
    ensures Owned(c, ss[i])
  {
    if i > 0 {
      OwnedAlways(c, ss, steps, i - 1);
      OwnedStep(c, ss[i - 1], steps[i - 1]);
    }
  }
}
