/** Under the operating assumptions: no container outlives its row, a revived row has no
    container, and the number of containers stays within the total cap. */
module Orphans {
  import opened Wrappers
  import opened Configuration
  import opened Docker
  import opened Registries
  import opened Lifecycle
  import opened Ownership
  import opened Caps
  import opened Sets

  ghost predicate HasContainer(s: State, u: Uuid) {
    exists x :: x in s.fleet && s.fleet[x].uuid == Some(u)
  }

  /** Too late for the launch of `u` to take effect. */
  predicate BootOver(c: Config, s: State, u: Uuid) {
    u in s.rows && s.now - s.rows[u].createdAt >= c.BootWindow()
  }

  predicate InFlight(s: State, u: Uuid) {
    u in s.spawns && !s.spawns[u].Removing?
  }

  predicate CleaningUp(s: State, u: Uuid) {
    u in s.spawns && s.spawns[u].Removing?
  }

  /** Reaped: past its expiry, and nothing of it left or still to come. */
  ghost predicate Spent(s: State, u: Uuid) {
    u in s.rows && s.rows[u].expiresAt < s.now && !HasContainer(s, u)
  }

  /** What the assumptions add for a single instance. */
  ghost predicate InstanceOk(c: Config, s: State, u: Uuid) {
    && (u in s.rows ==> s.rows[u].createdAt <= s.now)
    && (HasContainer(s, u) ==> u in s.rows && (s.rows[u].IsActive() || CleaningUp(s, u)))
    && (InFlight(s, u) && u in s.rows && !s.rows[u].IsActive() ==>
      Spent(s, u) && (s.spawns[u].Launching? ==> BootOver(c, s, u)))
    && (u in s.revived ==> Spent(s, u) && s.rows[u].status != Starting)
    && (u in s.spawns && s.spawns[u].LaunchFailed? ==> !HasContainer(s, u))
  }

  /** A removal for `u` has taken effect and no container of `u` can appear any more. */
  ghost predicate Removed(c: Config, s: State, u: Uuid) {
    !HasContainer(s, u) && (u in s.spawns && s.spawns[u].Launching? ==> BootOver(c, s, u))
  }

  ghost predicate KillSafe(s: State, pc: KillPc) {
    pc.uuid !in s.spawns && (pc.KillWriting? ==> !HasContainer(s, pc.uuid))
  }

  ghost predicate SweepSafe(c: Config, s: State) {
    s.sweep.Sweeping? ==>
      s.sweep.start <= s.now && (AtRow(s) && s.sweep.removed ==> Removed(c, s, s.sweep.queue[0].uuid))
  }

  ghost predicate Safe(c: Config, s: State) {
    && (forall u :: InstanceOk(c, s, u))
    && (forall k | k in s.kills :: KillSafe(s, s.kills[k]))
    && SweepSafe(c, s)
  }

  // ---- component moves ----

  lemma ContainerIsListed(s: State, u: Uuid)
    ensures HasContainer(s, u) <==> Some(u) in LabelledUuids(s.fleet)
  {}

  lemma ClockMoves(c: Config, s: State, st: Step)
    requires Enabled(c, s, st) && Benign(c, s, st)
    ensures s.now <= Next(c, s, st).now
    ensures st.Reserve? ==> Next(c, s, st).now == st.time
  {}

  /** A container of `u` is there after a step only if it was before, or if the step is
      the launch of `u`. */
  lemma ContainerMoves(c: Config, s: State, st: Step, u: Uuid)
    requires Enabled(c, s, st) && Benign(c, s, st)
    ensures HasContainer(Next(c, s, st), u) ==>
      HasContainer(s, u) || (st.Launch? && st.u == u && u in s.spawns && s.spawns[u] == Launching)
  {
    hide Next, Enabled;
    FleetMoves(c, s, st);
    var t := Next(c, s, st);
    if HasContainer(t, u) {
      var x :| x in t.fleet && t.fleet[x].uuid == Some(u);
      if x in s.fleet && s.fleet[x] == t.fleet[x] {
        assert HasContainer(s, u);
      }
    }
  }

  lemma RemovalDone(c: Config, s: State, st: Step)
    requires Enabled(c, s, st) && Benign(c, s, st) && Owned(c, s) && RemovalOf(s, st).Some?
    ensures !HasContainer(Next(c, s, st), RemovalOf(s, st).value)
  {
    hide Next, Enabled, Owned;
    RemovalMoves(c, s, st);
  }

  // ---- preservation ----

  lemma RaisesMoves(c: Config, s: State, st: Step, u: Uuid)
    requires Enabled(c, s, st) && FailsSpawn(st) && SpawnOf(st) == Some(u)
    ensures u in s.spawns && !s.spawns[u].Launching? && !s.spawns[u].Launched?
    ensures u in s.rows && s.rows[u].containerId.Some? && s.rows[u].containerId.value != "" ==>
      CleaningUp(Next(c, s, st), u)
  {}

  /** A spawn that fails with a container recorded goes on to remove it; one that failed
      while launching has none. */
  lemma FailureMoves(c: Config, s: State, st: Step, u: Uuid)
    requires Enabled(c, s, st) && Benign(c, s, st) && Owned(c, s) && InstanceOk(c, s, u)
    requires FailsSpawn(st) && SpawnOf(st) == Some(u)
    ensures HasContainer(Next(c, s, st), u) ==> CleaningUp(Next(c, s, st), u)
  {
    hide Next, Enabled, KillsOk, SweepOk, ReturnedOk;
    RaisesMoves(c, s, st, u);
    ContainerMoves(c, s, st, u);
    assert SpawnOk(s, u, s.spawns[u]) && OwnId(s, u, s.rows[u].containerId);
    if !s.spawns[u].LaunchFailed? {
      assert IsCid(s.spawns[u].cid);
    }
  }

  ghost predicate Deactivated(s: State, t: State, u: Uuid) {
    u in s.rows && s.rows[u].IsActive() && u in t.rows && !t.rows[u].IsActive()
  }

  /** When an active row becomes inactive, its container is already gone or about to be
      removed by its own spawn. */
  lemma DeactivationSafe(c: Config, s: State, st: Step, u: Uuid)
    requires Enabled(c, s, st) && Benign(c, s, st) && Owned(c, s) && Safe(c, s)
    requires Deactivated(s, Next(c, s, st), u)
    ensures HasContainer(Next(c, s, st), u) ==> CleaningUp(Next(c, s, st), u)
    ensures InFlight(Next(c, s, st), u) ==>
      s.rows[u].expiresAt < s.now && !HasContainer(s, u) && Removed(c, s, u) && !st.Launch?
  {
    hide Next, Enabled, FleetOk, RowsOk, KillsOk, SpawnsOk;
    DeactivationMoves(c, s, st, u);
    SpawnMoves(c, s, st, u);
    ContainerMoves(c, s, st, u);
    if FailsSpawn(st) {
      FailureMoves(c, s, st, u);
    } else if st.KillWrite? {
      KillEnabled(c, s, st);
      assert KillSafe(s, s.kills[st.k]);
    } else if st.SweepWrite? {
      SweepEnabled(c, s, st);
    } else {
      RestartMoves(c, s, st);
      ContainerIsListed(s, u);
    }
  }

  lemma KillEnabled(c: Config, s: State, st: Step)
    requires Enabled(c, s, st) && st.KillWrite?
    ensures st.k in s.kills && s.kills[st.k].KillWriting?
  {}

  lemma SweepEnabled(c: Config, s: State, st: Step)
    requires Enabled(c, s, st)
    ensures st.SweepWrite? ==> AtRow(s) && s.sweep.removed
    ensures st.SweepRemove? ==> AtRow(s) && !Protected(c, s.sweep.start, s.sweep.queue[0].row)
  {}

  /** A cleaning-up spawn stays so until its removal takes effect or a restart ends it. */
  lemma CleanUpMoves(c: Config, s: State, st: Step, u: Uuid)
    requires Enabled(c, s, st) && CleaningUp(s, u) && u !in Next(c, s, st).spawns && u in s.rows
    ensures (st.CleanUp? && st.u == u) || st.Restart?
  {}

  lemma LaunchingBefore(c: Config, s: State, st: Step, u: Uuid)
    requires Enabled(c, s, st) && u in s.rows && u in Next(c, s, st).spawns && Next(c, s, st).spawns[u].Launching?
    ensures u in s.spawns && s.spawns[u].Launching?
  {}

  lemma LateStepsFailNoLaunch(c: Config, s: State, st: Step, u: Uuid)
    requires Enabled(c, s, st) && !EarlyStep(st) && SpawnOf(st) == Some(u)
    ensures u in Next(c, s, st).spawns ==> !Next(c, s, st).spawns[u].LaunchFailed?
  {}

  lemma LaunchFailedBefore(c: Config, s: State, st: Step, u: Uuid)
    requires Enabled(c, s, st) && SpawnOf(st) == Some(u) && u in s.spawns
    requires u in Next(c, s, st).spawns && Next(c, s, st).spawns[u].LaunchFailed?
    ensures (s.spawns[u].LaunchFailed? || (st.LaunchFails? && s.spawns[u].Launching?))
  {
    if !EarlyStep(st) {
      LateStepsFailNoLaunch(c, s, st, u);
    }
  }

  /** A restart leaves a container only under a row that is and stays active. */
  lemma RestartSafe(c: Config, s: State, st: Step, u: Uuid)
    requires Enabled(c, s, st) && Benign(c, s, st) && st.Restart?
    ensures HasContainer(Next(c, s, st), u) ==> HasContainer(s, u) && u in s.rows && s.rows[u].IsActive()
    ensures u in s.rows && s.rows[u].IsActive() && HasContainer(s, u) ==> Next(c, s, st).rows[u].IsActive()
  {
    ContainerIsListed(s, u);
  }

  ghost predicate StillCovered(s: State, t: State, u: Uuid) {
    && (u in t.spawns ==> u in s.spawns && t.spawns[u] == s.spawns[u])
    && (HasContainer(t, u) ==> CleaningUp(t, u) || (u in t.rows && t.rows[u].IsActive()))
  }

  lemma CleanUpStep(c: Config, s: State, st: Step, u: Uuid)
    requires Enabled(c, s, st) && Benign(c, s, st) && Owned(c, s) && CleaningUp(s, u) && u in s.rows
    ensures StillCovered(s, Next(c, s, st), u)
  {
    hide Next, Enabled, FleetOk, RowsOk, SpawnsOk, KillsOk, SweepOk;
    RowMoves(c, s, st, u);
    if u in Next(c, s, st).spawns {
      RemovingStays(c, s, st, u);
    } else {
      CleanUpMoves(c, s, st, u);
      if st.Restart? {
        RestartSafe(c, s, st, u);
      } else {
        RemovalDone(c, s, st);
      }
    }
  }

  /** An instance whose row has just become inactive, or whose container is being removed. */
  lemma EndingStep(c: Config, s: State, st: Step, u: Uuid)
    requires Enabled(c, s, st) && Benign(c, s, st) && Owned(c, s) && Safe(c, s)
    requires u in s.rows
    requires CleaningUp(s, u) || Deactivated(s, Next(c, s, st), u)
    ensures InstanceOk(c, Next(c, s, st), u)
  {
    hide Next, Enabled, FleetOk, RowsOk, KillsOk, SweepOk, SweepSafe, KillSafe, SpawnsOk;
    var t := Next(c, s, st);
    assert InstanceOk(c, s, u);
    ClockMoves(c, s, st);
    RowMoves(c, s, st, u);
    ContainerMoves(c, s, st, u);
    RevivalMoves(c, s, st, u);
    if CleaningUp(s, u) {
      CleanUpStep(c, s, st, u);
    } else {
      DeactivationSafe(c, s, st, u);
      if u in t.spawns && t.spawns[u].Launching? {
        LaunchingBefore(c, s, st, u);
      }
    }
  }

  /** Every other instance. */
  lemma OngoingStep(c: Config, s: State, st: Step, u: Uuid)
    requires Enabled(c, s, st) && Benign(c, s, st) && InstanceOk(c, s, u) && !CleaningUp(s, u)
    requires u in s.spawns ==> u in s.rows && (s.spawns[u].Launching? ==> !HasContainer(s, u))
    requires u in s.revived ==> u in s.rows && u !in s.spawns
    requires !Deactivated(s, Next(c, s, st), u)
    ensures InstanceOk(c, Next(c, s, st), u)
  {
    hide Next, Enabled;
    var t := Next(c, s, st);
    ClockMoves(c, s, st);
    RowMoves(c, s, st, u);
    SpawnMoves(c, s, st, u);
    ContainerMoves(c, s, st, u);
    RevivalMoves(c, s, st, u);
    if u in s.rows && u in t.spawns && t.spawns[u].Launching? {
      LaunchingBefore(c, s, st, u);
    }
    if u in s.spawns && u in t.spawns && t.spawns[u].LaunchFailed? && SpawnOf(st) == Some(u) {
      LaunchFailedBefore(c, s, st, u);
    }
  }

  lemma NeverLaunched(c: Config, s: State, u: Uuid)
    requires Owned(c, s) && u in s.spawns && s.spawns[u].Launching?
    ensures !HasContainer(s, u)
  {
    hide RowsOk, KillsOk, SweepOk, ReturnedOk;
    assert SpawnOk(s, u, s.spawns[u]);
  }

  lemma InstanceStep(c: Config, s: State, st: Step, u: Uuid)
    requires Enabled(c, s, st) && Benign(c, s, st) && Owned(c, s) && Safe(c, s)
    ensures InstanceOk(c, Next(c, s, st), u)
  {
    hide Next, Enabled, Benign, FleetOk, RowsOk, KillsOk, SweepOk;
    assert u in s.spawns ==> SpawnOk(s, u, s.spawns[u]);
    if u in s.spawns && s.spawns[u].Launching? {
      NeverLaunched(c, s, u);
    }
    assert InstanceOk(c, s, u);
    RowMoves(c, s, st, u);
    if CleaningUp(s, u) || Deactivated(s, Next(c, s, st), u) {
      EndingStep(c, s, st, u);
    } else {
      OngoingStep(c, s, st, u);
    }
  }

  lemma KillSafeStep(c: Config, s: State, st: Step, k: nat)
    requires Enabled(c, s, st) && Benign(c, s, st) && Owned(c, s) && Safe(c, s) && k in Next(c, s, st).kills
    ensures KillSafe(Next(c, s, st), Next(c, s, st).kills[k])
  {
    hide Next, Enabled, FleetOk, RowsOk, SpawnsOk, SweepOk, SweepSafe, InstanceOk;
    var t := Next(c, s, st);
    var u := t.kills[k].uuid;
    KillMoves(c, s, st, k);
    SpawnMoves(c, s, st, u);
    ContainerMoves(c, s, st, u);
    if t.kills[k].KillWriting? {
      KillStages(c, s, st, k);
    }
    if k in s.kills {
      assert Snapshot(c, s, s.kills[k].uuid, s.kills[k].row) && KillSafe(s, s.kills[k]);
      if st.KillRemove? && st.k == k {
        RemovalDone(c, s, st);
      }
    }
  }

  lemma KillStages(c: Config, s: State, st: Step, k: nat)
    requires Enabled(c, s, st) && k in Next(c, s, st).kills && Next(c, s, st).kills[k].KillWriting?
    ensures k in s.kills && (s.kills[k].KillWriting? || (st.KillRemove? && st.k == k))
  {}

  lemma SweepStages(c: Config, s: State, st: Step)
    requires Enabled(c, s, st) && Next(c, s, st).sweep.Sweeping? && Next(c, s, st).sweep.removed
    ensures s.sweep.Sweeping? && Next(c, s, st).sweep.queue == s.sweep.queue && (s.sweep.removed || st.SweepRemove?)
  {}

  /** The reaper's boot-window guard at work: once its removal has taken effect, nothing of
      that instance is left and nothing can be launched for it any more. */
  lemma SweepSafeStep(c: Config, s: State, st: Step)
    requires Enabled(c, s, st) && Benign(c, s, st) && Owned(c, s) && Safe(c, s)
    ensures SweepSafe(c, Next(c, s, st))
  {
    hide Next, Enabled, FleetOk, RowsOk, SpawnsOk, KillsOk, InstanceOk;
    var t := Next(c, s, st);
    ClockMoves(c, s, st);
    SweepMoves(c, s, st);
    if AtRow(t) && t.sweep.removed {
      SweepStages(c, s, st);
      SweepEnabled(c, s, st);
      var r := s.sweep.queue[0];
      RowMoves(c, s, st, r.uuid);
      SpawnMoves(c, s, st, r.uuid);
      ContainerMoves(c, s, st, r.uuid);
      assert Snapshot(c, s, r.uuid, r.row);
      if r.uuid in t.spawns && t.spawns[r.uuid].Launching? {
        LaunchingBefore(c, s, st, r.uuid);
      }
      if st.SweepRemove? {
        RemovalDone(c, s, st);
      }
    }
  }

  lemma SafeStep(c: Config, s: State, st: Step)
    requires Enabled(c, s, st) && Benign(c, s, st) && Owned(c, s) && Safe(c, s)
    ensures Safe(c, Next(c, s, st))
  {
    hide Next, Enabled, Owned, InstanceOk, KillSafe, SweepSafe, Benign;
    forall u ensures InstanceOk(c, Next(c, s, st), u) { InstanceStep(c, s, st, u); }
    forall k | k in Next(c, s, st).kills
      ensures KillSafe(Next(c, s, st), Next(c, s, st).kills[k])
    {
      KillSafeStep(c, s, st, k);
    }
    SweepSafeStep(c, s, st);
  }

  // ---- the guarantees ----

  lemma {:induction false} SafeAlways(c: Config, ss: seq<State>, steps: seq<Step>, i: nat)
    requires BenignRun(c, ss, steps) && i < |ss|
    ensures Safe(c, ss[i])
  {
    if i > 0 {
      SafeAlways(c, ss, steps, i - 1);
      OwnedAlways(c, ss, steps, i - 1);
      SafeStep(c, ss[i - 1], steps[i - 1]);
    }
  }

  /** No orphans: at every moment, a live container belongs to a row that is `starting` or
      `running`, or its own failed spawn is about to remove it; and no two containers
      belong to one row. */
  lemma NoOrphans(c: Config, ss: seq<State>, steps: seq<Step>, i: nat, x: Cid)
    requires BenignRun(c, ss, steps) && i < |ss| && x in ss[i].fleet
    ensures exists u ::
      && u in ss[i].rows && ss[i].fleet[x] == Container(c.ContainerName(u), Some(u))
      && (ss[i].rows[u].IsActive() || CleaningUp(ss[i], u))
      && (forall y | y in ss[i].fleet && ss[i].fleet[y].uuid == Some(u) :: y == x)
  {
    hide Next, Enabled, Benign, RowsOk, KillsOk, SweepOk, SpawnsOk;
    SafeAlways(c, ss, steps, i);
    OwnedAlways(c, ss, steps, i);
    var s := ss[i];
    var u := s.born[x];
    assert HasContainer(s, u);
    assert InstanceOk(c, s, u);
  }

  /** Any excess over the caps consists of rows that have expired, have no container, and
      that the next sweep takes, since the boot window protects none of them. */
  lemma ExcessIsOverdue(c: Config, ss: seq<State>, steps: seq<Step>, i: nat)
    requires BenignRun(c, ss, steps) && i < |ss|
    ensures forall u | u in ActiveUuids(ss[i].rows) && u in ss[i].revived ::
      u in DueUuids(ss[i].rows, ss[i].now) && !HasContainer(ss[i], u) && !Protected(c, ss[i].now, ss[i].rows[u])
    ensures forall scope :: |ActiveIn(ss[i].rows, scope) - DueUuids(ss[i].rows, ss[i].now)| <= Cap(c, scope)
  {
    hide Next, Enabled, Benign;
    SafeAlways(c, ss, steps, i);
    CapsAlways(c, ss, steps, i);
    var s := ss[i];
    forall u | u in ActiveUuids(s.rows) && u in s.revived
      ensures u in DueUuids(s.rows, s.now) && !HasContainer(s, u) && !Protected(c, s.now, s.rows[u])
    {
      assert InstanceOk(c, s, u);
    }
    forall scope
      ensures |ActiveIn(s.rows, scope) - DueUuids(s.rows, s.now)| <= Cap(c, scope)
    {
      SubsetSize(ActiveIn(s.rows, scope) - DueUuids(s.rows, s.now), ActiveIn(s.rows, scope) - s.revived);
    }
  }

  /** The containers whose rows lie in a scope. */
  function FleetIn(s: State, scope: Scope): set<Cid> {
    set x | x in s.fleet && s.fleet[x].uuid.Some? && s.fleet[x].uuid.value in s.rows &&
      InScope(s.rows[s.fleet[x].uuid.value], scope)
  }

  /** The failed spawns of a scope whose removal is still to come. */
  function CleanUps(s: State, scope: Scope): set<Uuid> {
    set u | u in s.spawns && s.spawns[u].Removing? && u in s.rows && InScope(s.rows[u], scope)
  }

  lemma WholeFleet(c: Config, s: State)
    requires Owned(c, s)
    ensures FleetIn(s, None) == s.fleet.Keys
  {
    hide RowsOk, KillsOk, SweepOk, SpawnsOk;
  }

  /** The host never runs more containers of an address, or in all, than the cap allows,
      plus those of failed spawns about to be removed, even when rows are revived beyond
      the cap. */
  lemma FleetWithinCap(c: Config, ss: seq<State>, steps: seq<Step>, i: nat, scope: Scope)
    requires BenignRun(c, ss, steps) && i < |ss|
    ensures |FleetIn(ss[i], scope)| <= Cap(c, scope) + |CleanUps(ss[i], scope)|
    ensures FleetIn(ss[i], None) == ss[i].fleet.Keys
  {
    hide Next, Enabled, Benign, RowsOk, KillsOk, SweepOk, SpawnsOk;
    SafeAlways(c, ss, steps, i);
    OwnedAlways(c, ss, steps, i);
    CapsAlways(c, ss, steps, i);
    var s := ss[i];
    WholeFleet(c, s);
    var boxes := FleetIn(s, scope);
    var owners := Image(s.born, boxes);
    ImageSize(s.born, boxes);
    var admitted := ActiveIn(s.rows, scope) - s.revived;
    forall u | u in owners
      ensures u in admitted + CleanUps(s, scope)
    {
      var x :| x in boxes && s.born[x] == u;
      assert HasContainer(s, u);
      assert InstanceOk(c, s, u);
    }
    SubsetSize(owners, admitted + CleanUps(s, scope));
    UnionSize(admitted, CleanUps(s, scope));
  }

  // ---- removal is for good ----

  lemma RemovedStep(c: Config, s: State, st: Step, u: Uuid)
    requires Enabled(c, s, st) && Benign(c, s, st) && u in s.rows && Removed(c, s, u)
    ensures u in Next(c, s, st).rows && Removed(c, Next(c, s, st), u)
  {
    hide Next, Enabled;
    ClockMoves(c, s, st);
    RowMoves(c, s, st, u);
    SpawnMoves(c, s, st, u);
    ContainerMoves(c, s, st, u);
    if u in Next(c, s, st).spawns && Next(c, s, st).spawns[u].Launching? {
      LaunchingBefore(c, s, st, u);
    }
  }

  lemma {:induction false} RemovedForGood(c: Config, ss: seq<State>, steps: seq<Step>, i: nat, j: nat, u: Uuid)
    requires BenignRun(c, ss, steps) && i <= j < |ss| && u in ss[i].rows && Removed(c, ss[i], u)
    ensures u in ss[j].rows && Removed(c, ss[j], u)
    decreases j
  {
    hide Next, Enabled, Benign, Removed;
    if i < j {
      RemovedForGood(c, ss, steps, i, j - 1, u);
      RemovedStep(c, ss[j - 1], steps[j - 1], u);
    }
  }

  lemma RemovalEffects(c: Config, s: State, st: Step)
    requires Enabled(c, s, st) && Benign(c, s, st)
    ensures RemovalOf(s, st).Some? ==> st.SweepRemove? || st.KillRemove? || st.CleanUp?
    ensures st.SweepRemove? ==> AtRow(s) && Next(c, s, st).sweep == s.sweep.(removed := true)
    ensures st.CleanUp? ==> st.u in s.spawns && st.u !in Next(c, s, st).spawns
    ensures st.KillRemove? ==>
      st.k in s.kills && Next(c, s, st).kills == s.kills[st.k := KillWriting(s.kills[st.k].uuid, s.kills[st.k].row)]
  {}

  /** Once a removal has taken effect, a kill's, the reaper's or a failed spawn's own, the
      instance never has a container again, whatever other tasks do afterwards; no launch
      overtakes it. */
  lemma GoneForGood(c: Config, ss: seq<State>, steps: seq<Step>, i: nat, j: nat)
    requires BenignRun(c, ss, steps) && i < j < |ss| && RemovalOf(ss[i], steps[i]).Some?
    ensures !HasContainer(ss[j], RemovalOf(ss[i], steps[i]).value)
  {
    hide Next, Enabled, Benign, FleetOk, RowsOk, InstanceOk;
    var s, st, t := ss[i], steps[i], ss[i + 1];
    var u := RemovalOf(s, st).value;
    OwnedAlways(c, ss, steps, i);
    SafeAlways(c, ss, steps, i + 1);
    RemovalEffects(c, s, st);
    if st.SweepRemove? {
      assert Snapshot(c, s, s.sweep.queue[0].uuid, s.sweep.queue[0].row);
    } else if st.CleanUp? {
      assert SpawnOk(s, u, s.spawns[u]);
      RemovalDone(c, s, st);
    } else {
      assert Snapshot(c, s, s.kills[st.k].uuid, s.kills[st.k].row);
      assert KillSafe(t, t.kills[st.k]);
    }
    RowMoves(c, s, st, u);
    RemovedForGood(c, ss, steps, i + 1, j, u);
  }
}
