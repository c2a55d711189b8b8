/** The life of one instance across a whole run, and its independence from all others. */
module History {
  import opened Wrappers
  import opened Configuration
  import opened Registries
  import opened Lifecycle
  import opened Ownership
  import opened Caps
  import opened Orphans

  // ---- one step ----

  /** Status edges beyond `starting -> running -> inactive`: the only way back is a
      revival, and no row ever returns to `starting`. */
  lemma BackwardEdgeIff(c: Config, s: State, st: Step, u: Uuid)
    requires Enabled(c, s, st) && u in s.rows
    ensures u in Next(c, s, st).rows
    ensures !s.rows[u].IsActive() && Next(c, s, st).rows[u].IsActive() <==> Revives(s, st) && SpawnOf(st) == Some(u)
    ensures Next(c, s, st).rows[u].status == Starting ==> s.rows[u].status == Starting
  {
    hide Next, Enabled;
    RowMoves(c, s, st, u);
    if Revives(s, st) {
      RevivalRow(c, s, st);
    }
  }

  /** What a newly written status tells about the step that wrote it. */
  ghost predicate StatusExplained(c: Config, s: State, st: Step, u: Uuid, status: Status)
    requires u in s.rows
  {
    match status
    case Starting => false
    case Running => Finishes(s, st, u)
    case Killed => st.KillWrite? && st.k in s.kills && s.kills[st.k].uuid == u && s.kills[st.k].row.IsActive()
    case Expired =>
      && st == SweepWrite && AtRow(s) && s.sweep.removed && s.sweep.queue[0].uuid == u
      && s.rows[u].expiresAt < s.sweep.start
    case Error =>
      || (FailsSpawn(st) && SpawnOf(st) == Some(u) && u in s.spawns)
      || (st.Restart? && s.rows[u].IsActive() && Some(u) !in ManagedUuids(s.fleet, st.listed))
  }

  lemma SpawnWrites(c: Config, s: State, st: Step, u: Uuid)
    requires Enabled(c, s, st) && SpawnOf(st).Some? && u in s.rows && u in Next(c, s, st).rows
    requires Next(c, s, st).rows[u].status != s.rows[u].status
    ensures u in s.spawns && SpawnOf(st) == Some(u)
    ensures Next(c, s, st).rows[u].status == (if FailsSpawn(st) then Error else Running)
    ensures !FailsSpawn(st) ==> Finishes(s, st, u)
  {}

  lemma OtherWrites(c: Config, s: State, st: Step, u: Uuid)
    requires Enabled(c, s, st) && SpawnOf(st).None? && u in s.rows && u in Next(c, s, st).rows
    requires Next(c, s, st).rows[u].status != s.rows[u].status
    ensures match Next(c, s, st).rows[u].status
      case Killed => st.KillWrite? && st.k in s.kills && s.kills[st.k].uuid == u && s.kills[st.k].row.IsActive()
      case Expired => st == SweepWrite && AtRow(s) && s.sweep.removed && s.sweep.queue[0].uuid == u
      case Error => st.Restart? && s.rows[u].IsActive() && Some(u) !in ManagedUuids(s.fleet, st.listed)
      case _ => false
  {}

  /** Each status has one kind of author: `running` the row's own spawn, `killed` a kill of
      that uuid, `expired` a sweep that started after the expiry, `error` the row's own
      failing spawn or a restart that found no container. */
  lemma StatusHasAuthor(c: Config, s: State, st: Step, u: Uuid)
    requires Enabled(c, s, st) && Owned(c, s) && u in s.rows && u in Next(c, s, st).rows
    requires Next(c, s, st).rows[u].status != s.rows[u].status
    ensures StatusExplained(c, s, st, u, Next(c, s, st).rows[u].status)
  {
    hide Next, Enabled, FleetOk, RowsOk, KillsOk, SpawnsOk;
    if SpawnOf(st).Some? {
      SpawnWrites(c, s, st, u);
    } else {
      OtherWrites(c, s, st, u);
    }
    if st == SweepWrite && AtRow(s) {
      var r := s.sweep.queue[0];
      assert Snapshot(c, s, r.uuid, r.row);
    }
  }

  /** The instance a step is about. */
  function SubjectOf(s: State, st: Step): Option<Uuid> {
    match st
    case KillStart(_, u) => Some(u)
    case KillRemove(k, _) => if k in s.kills then Some(s.kills[k].uuid) else None
    case KillAborts(k, _) => if k in s.kills then Some(s.kills[k].uuid) else None
    case KillWrite(k) => if k in s.kills then Some(s.kills[k].uuid) else None
    case SweepSkip => if AtRow(s) then Some(s.sweep.queue[0].uuid) else None
    case SweepRemove(_) => if AtRow(s) then Some(s.sweep.queue[0].uuid) else None
    case SweepAborts(_) => if AtRow(s) then Some(s.sweep.queue[0].uuid) else None
    case SweepWrite => if AtRow(s) then Some(s.sweep.queue[0].uuid) else None
    case _ => SpawnOf(st)
  }

  ghost predicate SameContainers(s: State, t: State, v: Uuid) {
    && (forall x | x in t.fleet && t.fleet[x].uuid == Some(v) :: x in s.fleet && s.fleet[x] == t.fleet[x])
    && (forall x | x in s.fleet && s.fleet[x].uuid == Some(v) :: x in t.fleet && s.fleet[x] == t.fleet[x])
  }

  /** Same row, same spawn, same containers. */
  ghost predicate Untouched(s: State, t: State, v: Uuid) {
    && (v in s.rows <==> v in t.rows) && (v in s.rows ==> t.rows[v] == s.rows[v])
    && (v in s.spawns <==> v in t.spawns) && (v in s.spawns ==> t.spawns[v] == s.spawns[v])
    && SameContainers(s, t, v)
  }

  lemma RowsOfOthers(c: Config, s: State, st: Step, v: Uuid)
    requires Enabled(c, s, st) && SubjectOf(s, st).Some? && SubjectOf(s, st) != Some(v)
    ensures v in s.rows <==> v in Next(c, s, st).rows
    ensures v in s.rows ==> Next(c, s, st).rows[v] == s.rows[v]
  {}

  lemma SpawnsOfOthers(c: Config, s: State, st: Step, v: Uuid)
    requires Enabled(c, s, st) && SubjectOf(s, st).Some? && SubjectOf(s, st) != Some(v)
    requires v in s.spawns
    ensures v in Next(c, s, st).spawns
  {}

  lemma FleetOfOthers(c: Config, s: State, st: Step, v: Uuid)
    requires Enabled(c, s, st) && Owned(c, s) && SubjectOf(s, st).Some? && SubjectOf(s, st) != Some(v)
    ensures SameContainers(s, Next(c, s, st), v)
  {
    hide Next, Enabled, Owned;
    if Creation(st).Some? {
      FleetMoves(c, s, st);
    } else if RemovalOf(s, st).Some? {
      RemovalMoves(c, s, st);
    } else {
      FleetRests(c, s, st);
    }
  }

  /** No step of one instance's spawn, kill or reaping touches another instance. */
  lemma Frame(c: Config, s: State, st: Step, v: Uuid)
    requires Enabled(c, s, st) && Owned(c, s) && SubjectOf(s, st).Some? && SubjectOf(s, st) != Some(v)
    ensures Untouched(s, Next(c, s, st), v)
  {
    hide Next, Enabled, FleetOk, RowsOk, KillsOk, SweepOk, SameContainers;
    RowsOfOthers(c, s, st, v);
    SpawnMoves(c, s, st, v);
    FleetOfOthers(c, s, st, v);
    if v in s.spawns {
      assert SpawnOk(s, v, s.spawns[v]);
      SpawnsOfOthers(c, s, st, v);
    }
  }

  // ---- whole runs ----

  /** A uuid is never forgotten and its identifying columns never change. */
  lemma {:induction false} IdentityForever(c: Config, ss: seq<State>, steps: seq<Step>, i: nat, j: nat, u: Uuid)
    requires Run(c, ss, steps) && i <= j < |ss| && u in ss[i].rows
    ensures u in ss[j].rows && ss[j].rows[u].Identity() == ss[i].rows[u].Identity()
    ensures var r, was := ss[j].rows[u], ss[i].rows[u];
      && r.sourceIp == was.sourceIp && r.challenge == was.challenge && r.containerName == was.containerName
      && r.createdAt == was.createdAt && r.expiresAt == was.expiresAt && r.flagMode == was.flagMode
    decreases j
  {
    hide Next;
    if i < j {
      IdentityForever(c, ss, steps, i, j - 1, u);
      RowMoves(c, ss[j - 1], steps[j - 1], u);
    }
  }

  predicate Creates(ss: seq<State>, i: nat, u: Uuid)
    requires i + 1 < |ss|
  {
    u !in ss[i].rows && u in ss[i + 1].rows
  }

  predicate EntersRunning(ss: seq<State>, i: nat, u: Uuid)
    requires i + 1 < |ss|
  {
    u in ss[i].rows && u in ss[i + 1].rows && ss[i].rows[u].status != Running && ss[i + 1].rows[u].status == Running
  }

  /** No uuid is reserved twice. */
  lemma CreatedOnce(c: Config, ss: seq<State>, steps: seq<Step>, i: nat, j: nat, u: Uuid)
    requires Run(c, ss, steps) && i + 1 < |ss| && j + 1 < |ss|
    requires Creates(ss, i, u) && Creates(ss, j, u)
    ensures i == j
  {
    hide Next;
    if i < j {
      IdentityForever(c, ss, steps, i + 1, j, u);
    } else if j < i {
      IdentityForever(c, ss, steps, j + 1, i, u);
    }
  }

  /** Once a spawn has ended it never resumes. */
  lemma {:induction false} SpawnEndsForGood(c: Config, ss: seq<State>, steps: seq<Step>, i: nat, j: nat, u: Uuid)
    requires Run(c, ss, steps) && i <= j < |ss| && u in ss[i].rows && u !in ss[i].spawns
    ensures u !in ss[j].spawns
    decreases j
  {
    hide Next;
    if i < j {
      SpawnEndsForGood(c, ss, steps, i, j - 1, u);
      IdentityForever(c, ss, steps, i, j - 1, u);
      SpawnMoves(c, ss[j - 1], steps[j - 1], u);
    }
  }

  /** A row enters `running` at most once in its life, by the success of its own spawn, and
      only then is its uuid handed out. */
  lemma RunningOnce(c: Config, ss: seq<State>, steps: seq<Step>, i: nat, j: nat, u: Uuid)
    requires Run(c, ss, steps) && i < j && j + 1 < |ss| && EntersRunning(ss, i, u)
    ensures Finishes(ss[i], steps[i], u) && u in ss[i + 1].returned && u !in ss[i].returned
    ensures !EntersRunning(ss, j, u)
  {
    hide Next;
    RowMoves(c, ss[i], steps[i], u);
    ReturnMoves(c, ss[i], steps[i], u);
    OwnedAlways(c, ss, steps, i);
    SpawnEndsForGood(c, ss, steps, i + 1, j, u);
    RowMoves(c, ss[j], steps[j], u);
  }

  /** A running row names a container that was launched for its uuid, a package and the RPC
      url of that uuid; whether the container is still there is another matter, see
      `Presence`. */
  lemma RunningRowsFilled(c: Config, ss: seq<State>, steps: seq<Step>, i: nat, u: Uuid)
    requires Run(c, ss, steps) && i < |ss| && u in ss[i].rows && ss[i].rows[u].status == Running
    ensures var r := ss[i].rows[u];
      && r.containerId.Some? && r.containerId.value in ss[i].born && ss[i].born[r.containerId.value] == u
      && r.packageId.Some? && r.packageId.value != ""
      && r.rpcUrl == Some(c.RpcUrlFor(u))
  {
    hide Next;
    OwnedAlways(c, ss, steps, i);
  }

  lemma ReservationRow(c: Config, s: State, st: Step, u: Uuid)
    requires Enabled(c, s, st) && u !in s.rows && u in Next(c, s, st).rows
    ensures st.Reserve? && Next(c, s, st).rows[u] == ReservedRow(c, st.ip, u, s.now, st.time)
  {
    hide Next, Enabled;
    RowMoves(c, s, st, u);
  }

  /** The reaper never cuts a life short: a row is expired only by a sweep that started
      later than its reservation plus the configured lifetime. */
  lemma ReapedAfterLifetime(c: Config, ss: seq<State>, steps: seq<Step>, k: nat, i: nat, u: Uuid)
    requires Run(c, ss, steps) && k < i && i + 1 < |ss| && Creates(ss, k, u)
    requires u in ss[i].rows && u in ss[i + 1].rows && ss[i].rows[u].status != Expired &&
      ss[i + 1].rows[u].status == Expired
    ensures ss[i].sweep.Sweeping? && ss[k].now + c.Ttl() < ss[i].sweep.start
  {
    hide Next, Enabled, Owned;
    ReservationRow(c, ss[k], steps[k], u);
    IdentityForever(c, ss, steps, k + 1, i, u);
    OwnedAlways(c, ss, steps, i);
    StatusHasAuthor(c, ss[i], steps[i], u);
  }

  // ---- patience ----

  predicate HasDeadline(pc: SpawnPc) {
    pc.AtHead? || pc.Reading? || pc.ReadDone? || pc.Checking? || pc.Checked?
  }

  predicate GaveUp(pc: SpawnPc) {
    pc.Raising? && pc.message == NotReady
  }

  /** A deadline is set once, when the container is recorded, and a spawn gives up for
      lateness only once it is reached. */
  lemma DeadlineMoves(c: Config, s: State, st: Step, u: Uuid)
    requires Enabled(c, s, st) && SpawnOf(st) == Some(u) && u in s.spawns && u in s.rows
    requires u in Next(c, s, st).spawns && HasDeadline(Next(c, s, st).spawns[u])
    ensures || (HasDeadline(s.spawns[u]) && Next(c, s, st).spawns[u].deadline == s.spawns[u].deadline)
            || (st == RecordContainer(u) && Next(c, s, st).spawns[u].deadline == s.now + c.BootWindow())
  {}

  lemma GivingUpMoves(c: Config, s: State, st: Step, u: Uuid)
    requires Enabled(c, s, st) && SpawnOf(st) == Some(u) && u in s.spawns
    requires u in Next(c, s, st).spawns && GaveUp(Next(c, s, st).spawns[u])
    ensures GaveUp(s.spawns[u]) || (HasDeadline(s.spawns[u]) && s.now >= s.spawns[u].deadline)
  {}

  predicate Patient(c: Config, s: State, u: Uuid) {
    u in s.spawns && u in s.rows ==>
      && (HasDeadline(s.spawns[u]) ==> s.spawns[u].deadline >= s.rows[u].createdAt + c.BootWindow())
      && (GaveUp(s.spawns[u]) ==> s.now >= s.rows[u].createdAt + c.BootWindow())
  }

  lemma PatientStep(c: Config, s: State, st: Step, u: Uuid)
    requires Enabled(c, s, st) && Benign(c, s, st) && Patient(c, s, u)
    requires u in s.spawns ==> u in s.rows
    requires u in s.rows ==> s.rows[u].createdAt <= s.now
    ensures Patient(c, Next(c, s, st), u)
  {
    hide Next, Enabled;
    ClockMoves(c, s, st);
    RowMoves(c, s, st, u);
    SpawnMoves(c, s, st, u);
    if u in Next(c, s, st).spawns {
      if u !in s.rows {
        FreshSpawn(c, s, st, u);
      } else if SpawnOf(st) == Some(u) {
        if HasDeadline(Next(c, s, st).spawns[u]) {
          DeadlineMoves(c, s, st, u);
        } else if GaveUp(Next(c, s, st).spawns[u]) {
          GivingUpMoves(c, s, st, u);
        }
      }
    }
  }

  lemma FreshSpawn(c: Config, s: State, st: Step, u: Uuid)
    requires Enabled(c, s, st) && u !in s.spawns && u in Next(c, s, st).spawns
    ensures Next(c, s, st).spawns[u] == Launching
  {}

  lemma {:induction false} PatientAlways(c: Config, ss: seq<State>, steps: seq<Step>, i: nat, u: Uuid)
    requires BenignRun(c, ss, steps) && i < |ss|
    ensures Patient(c, ss[i], u)
  {
    hide Next, Enabled, Benign;
    if i > 0 {
      PatientAlways(c, ss, steps, i - 1, u);
      OwnedAlways(c, ss, steps, i - 1);
      SafeAlways(c, ss, steps, i - 1);
      assert InstanceOk(c, ss[i - 1], u);
      assert u in ss[i - 1].spawns ==> SpawnOk(ss[i - 1], u, ss[i - 1].spawns[u]);
      PatientStep(c, ss[i - 1], steps[i - 1], u);
    }
  }

  /** No spawn gives up for lateness before a whole boot window has passed since its
      reservation. */
  lemma NoEarlyTimeout(c: Config, ss: seq<State>, steps: seq<Step>, i: nat, u: Uuid)
    requires BenignRun(c, ss, steps) && i < |ss|
    requires u in ss[i].spawns && u in ss[i].rows && GaveUp(ss[i].spawns[u])
    ensures ss[i].now - ss[i].rows[u].createdAt >= c.bootTimeout as real
  {
    hide Next, Enabled, Benign;
    PatientAlways(c, ss, steps, i, u);
  }
}
