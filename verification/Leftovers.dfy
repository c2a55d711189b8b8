/** What becomes of a container whose launch raised after creating it. Its id is never
    recorded, so its own failed spawn leaves it alone. */
module Leftovers {
  import opened Wrappers
  import opened Configuration
  import opened Docker
  import opened Registries
  import opened Lifecycle
  import opened Ownership
  import opened Caps
  import opened Orphans

  /** The step takes the container of `u` away, if there is one: a removal for `u` that
      takes effect, or a restart that lists it, finds its row inactive and can remove it. */
  ghost predicate TakesAway(s: State, st: Step, u: Uuid) {
    || (RemovalOf(s, st) == Some(u) && RemovalUp(st))
    || (st.Restart? && st.listed && !OwnerActive(s.rows, Some(u))
        && forall x | x in s.fleet && s.fleet[x].uuid == Some(u) :: x !in st.stuck)
  }

  predicate Supplies(st: Step, u: Uuid) {
    Creation(st).Some? && Creation(st).value.0 == u
  }

  lemma RestartKeeps(c: Config, s: State, st: Step, u: Uuid)
    requires Enabled(c, s, st) && st.Restart?
    ensures HasContainer(Next(c, s, st), u) <==> HasContainer(s, u) && !TakesAway(s, st, u)
  {
    var t := Next(c, s, st);
    if HasContainer(s, u) && !TakesAway(s, st, u) {
      var x :| x in s.fleet && s.fleet[x].uuid == Some(u) &&
        (!st.listed || OwnerActive(s.rows, Some(u)) || x in st.stuck);
      assert x in t.fleet && t.fleet[x].uuid == Some(u);
    }
  }

  /** With no assumption on daemon, clock or players, an instance has a container after a
      step exactly if the step creates it, or if it had one and the step does not take it. */
  lemma PresenceMoves(c: Config, s: State, st: Step, u: Uuid)
    requires Enabled(c, s, st) && Owned(c, s)
    ensures HasContainer(Next(c, s, st), u) <==> Supplies(st, u) || (HasContainer(s, u) && !TakesAway(s, st, u))
  {
    hide Next, Enabled, Owned;
    var t := Next(c, s, st);
    if st.Restart? {
      RestartKeeps(c, s, st, u);
    } else if Creation(st).Some? {
      FleetMoves(c, s, st);
      var x := Creation(st).value.1;
      assert x in t.fleet && x !in s.fleet;
      assert forall y | y in s.fleet :: y in t.fleet && t.fleet[y] == s.fleet[y];
    } else if RemovalOf(s, st).Some? {
      RemovalMoves(c, s, st);
      assert forall x | x in s.fleet && s.fleet[x].uuid == Some(u) && !TakesAway(s, st, u) ::
        x in t.fleet && t.fleet[x] == s.fleet[x];
    } else {
      FleetRests(c, s, st);
    }
  }

  /** No launch of `u` can take effect any more. */
  ghost predicate LaunchOver(s: State, u: Uuid) {
    u in s.rows && (u in s.spawns ==> !s.spawns[u].Launching?) && u !in s.limbo
  }

  lemma LaunchOverStep(c: Config, s: State, st: Step, u: Uuid)
    requires Enabled(c, s, st) && LaunchOver(s, u)
    ensures LaunchOver(Next(c, s, st), u) && !Supplies(st, u)
  {
    hide Next, Enabled;
    RowMoves(c, s, st, u);
    FleetMoves(c, s, st);
    if u in Next(c, s, st).spawns && Next(c, s, st).spawns[u].Launching? {
      LaunchingBefore(c, s, st, u);
    }
    if u in Next(c, s, st).limbo {
      LimboMoves(c, s, st, u);
    }
  }

  lemma {:induction false} PresenceAfter(c: Config, ss: seq<State>, steps: seq<Step>, i: nat, j: nat, u: Uuid)
    requires Run(c, ss, steps) && i <= j < |ss| && LaunchOver(ss[i], u)
    ensures LaunchOver(ss[j], u)
    ensures HasContainer(ss[j], u) <==>
      HasContainer(ss[i], u) && forall k | i <= k < j :: !TakesAway(ss[k], steps[k], u)
    decreases j
  {
    hide Next, Enabled, Owned, LaunchOver, TakesAway, HasContainer;
    if i < j {
      PresenceAfter(c, ss, steps, i, j - 1, u);
      OwnedAlways(c, ss, steps, j - 1);
      LaunchOverStep(c, ss[j - 1], steps[j - 1], u);
      PresenceMoves(c, ss[j - 1], steps[j - 1], u);
    }
  }

  lemma FailedLaunch(c: Config, s: State, st: Step)
    requires Enabled(c, s, st) && Owned(c, s) && st.LaunchFails?
    ensures LaunchOver(Next(c, s, st), st.u)
    ensures HasContainer(Next(c, s, st), st.u) <==> st.created.Some?
  {
    PresenceMoves(c, s, st, st.u);
    NeverLaunched(c, s, st.u);
    hide FleetOk, RowsOk, KillsOk, SweepOk, ReturnedOk;
    assert SpawnOk(s, st.u, s.spawns[st.u]);
  }

  /** A launch that raised leaves a container behind if and only if it had created one, and
      it is still there as long as no removal and no restart takes it. Whatever runs. */
  lemma LeftBehindIff(c: Config, ss: seq<State>, steps: seq<Step>, i: nat, j: nat)
    requires Run(c, ss, steps) && i < j < |ss| && steps[i].LaunchFails?
    ensures HasContainer(ss[j], steps[i].u)
       <==> steps[i].created.Some? && forall k | i < k < j :: !TakesAway(ss[k], steps[k], steps[i].u)
  {
    hide Next, Enabled, Owned, LaunchOver, TakesAway, HasContainer;
    OwnedAlways(c, ss, steps, i);
    FailedLaunch(c, ss[i], steps[i]);
    PresenceAfter(c, ss, steps, i + 1, j, steps[i].u);
  }

  /** The failed spawn itself ends without a removal: its row is inactive and names no
      container, and every container is where it was. */
  lemma FailedLaunchEnds(c: Config, s: State, u: Uuid)
    requires u in s.spawns && s.spawns[u].LaunchFailed? && Owned(c, s)
    ensures Enabled(c, s, RaiseResume(u))
    ensures var t := Next(c, s, RaiseResume(u));
      && u in t.rows && t.rows[u].status == Error && t.rows[u].containerId == None
      && u !in t.spawns && t.fleet == s.fleet && t.returned == s.returned
  {
    hide FleetOk, RowsOk, KillsOk, SweepOk, ReturnedOk;
    assert SpawnOk(s, u, s.spawns[u]);
  }

  // ---- how long it stays ----

  /** A container nobody will remove: its row is inactive, its uuid was never handed out,
      and no task holds its row. */
  ghost predicate Stranded(s: State, u: Uuid) {
    && LaunchOver(s, u) && !s.rows[u].IsActive() && u !in s.spawns && u !in s.returned && HasContainer(s, u)
    && (forall k | k in s.kills :: s.kills[k].uuid != u)
    && NotQueued(s, u)
  }

  lemma NobodyElse(c: Config, s: State, st: Step, u: Uuid)
    requires Enabled(c, s, st) && Stranded(s, u) && !st.Restart? && (st.KillStart? ==> st.u in s.returned)
    ensures !TakesAway(s, st, u) && (st.KillStart? ==> st.u != u)
  {
    hide Next;
  }

  lemma NoKillOf(c: Config, s: State, st: Step, u: Uuid)
    requires Enabled(c, s, st) && (st.KillStart? ==> st.u != u) && forall k | k in s.kills :: s.kills[k].uuid != u
    ensures forall k | k in Next(c, s, st).kills :: Next(c, s, st).kills[k].uuid != u
  {
    hide Next, Enabled;
    forall k | k in Next(c, s, st).kills
      ensures Next(c, s, st).kills[k].uuid != u
    {
      KillMoves(c, s, st, k);
    }
  }

  ghost predicate NotQueued(s: State, u: Uuid) {
    s.sweep.Sweeping? ==> forall i | 0 <= i < |s.sweep.queue| :: s.sweep.queue[i].uuid != u
  }

  lemma NoSweepOf(c: Config, s: State, st: Step, u: Uuid)
    requires Enabled(c, s, st) && NotQueued(s, u) && u in s.rows && !s.rows[u].IsActive()
    ensures NotQueued(Next(c, s, st), u)
  {
    hide Next, Enabled;
    SweepMoves(c, s, st);
  }

  lemma StaysInactive(c: Config, s: State, st: Step, u: Uuid)
    requires Enabled(c, s, st) && u in s.rows && !s.rows[u].IsActive() && u !in s.spawns && u !in s.returned
    ensures u in Next(c, s, st).rows && !Next(c, s, st).rows[u].IsActive()
    ensures u !in Next(c, s, st).spawns && u !in Next(c, s, st).returned
  {
    hide Next, Enabled;
    RowMoves(c, s, st, u);
    SpawnMoves(c, s, st, u);
    ReturnMoves(c, s, st, u);
  }

  lemma StrandedStep(c: Config, s: State, st: Step, u: Uuid)
    requires Enabled(c, s, st) && Owned(c, s) && Stranded(s, u) && !st.Restart? &&
      (st.KillStart? ==> st.u in s.returned)
    ensures Stranded(Next(c, s, st), u)
  {
    NobodyElse(c, s, st, u);
    hide Next, Enabled, Owned, TakesAway, LaunchOver, HasContainer;
    LaunchOverHasRow(s, u);
    LaunchOverStep(c, s, st, u);
    PresenceMoves(c, s, st, u);
    StaysInactive(c, s, st, u);
    NoKillOf(c, s, st, u);
    NoSweepOf(c, s, st, u);
  }

  lemma LaunchOverHasRow(s: State, u: Uuid)
    requires LaunchOver(s, u)
    ensures u in s.rows
  {}

  /** Until the next restart it stays for good, as long as players kill only what they were
      given: the reaper never takes an inactive row. */
  lemma {:induction false} StrandedUntilRestart(c: Config, ss: seq<State>, steps: seq<Step>, i: nat, j: nat, u: Uuid)
    requires Run(c, ss, steps) && i <= j < |ss| && Stranded(ss[i], u)
    requires forall k | i <= k < j :: !steps[k].Restart? && (steps[k].KillStart? ==> steps[k].u in ss[k].returned)
    ensures Stranded(ss[j], u) && HasContainer(ss[j], u)
    decreases j
  {
    hide Next, Enabled, Owned;
    if i < j {
      StrandedUntilRestart(c, ss, steps, i, j - 1, u);
      OwnedAlways(c, ss, steps, j - 1);
      StrandedStep(c, ss[j - 1], steps[j - 1], u);
    }
  }

  // ---- a run in which it happens ----

  const Room: Config := Config("host", 8080, "sui-inst", 180, 1800, None, 1, 1, "pool", "server_issued")
  const First: Cid := seq(64, _ => '0')
  const Second: Cid := seq(64, _ => '1')

  const Story: seq<Step> := [
    Reserve("ip", "u", 0.0), LaunchFails("u", Some(First), "read timed out"), RaiseResume("u"),
    Reserve("ip", "v", 0.0), Launch("v", Second)]

  const RowU: Row := ReservedRow(Room, "ip", "u", 0.0, 0.0)
  const RowV: Row := ReservedRow(Room, "ip", "v", 0.0, 0.0)
  const BoxU: Container := Container(Room.ContainerName("u"), Some("u"))
  const BoxV: Container := Container(Room.ContainerName("v"), Some("v"))

  const S1 := Genesis.(rows := map["u" := RowU], spawns := map["u" := Launching])
  const S2 := S1.(fleet := map[First := BoxU], born := map[First := "u"],
    spawns := map["u" := LaunchFailed("read timed out")])
  const S3 := S2.(rows := map["u" := RowU.WithStatus(Error, Some("read timed out"))], spawns := map[])
  const S4 := S3.(rows := S3.rows["v" := RowV], spawns := map["v" := Launching])
  const S5 := S4.(fleet := map[First := BoxU, Second := BoxV], born := map[First := "u", Second := "v"],
    spawns := map["v" := Launched(Second)])

  const States: seq<State> := [Genesis, S1, S2, S3, S4, S5]

  ghost predicate Goes(s: State, st: Step, t: State) {
    Enabled(Room, s, st) && Next(Room, s, st) == t
  }

  lemma Failing()
    ensures Goes(Genesis, Story[0], S1) && Goes(S1, Story[1], S2) && Goes(S2, Story[2], S3)
  {
    assert ActiveUuids(Genesis.rows) == {} && ActiveUuidsFor(Genesis.rows, "ip") == {};
  }

  lemma Replacing()
    ensures Goes(S3, Story[3], S4)
  {
    assert ActiveUuids(S3.rows) == {} && ActiveUuidsFor(S3.rows, "ip") == {};
  }

  lemma Overfilling()
    ensures Goes(S4, Story[4], S5)
  {
    assert First[0] != Second[0];
    NamesInjective(Room, "u", "v");
    assert "u"[0] != "v"[0];
  }

  lemma LeakRuns()
    ensures Run(Room, States, Story)
  {
    hide Next, Enabled;
    var ss, steps := States, Story;
    assert ss[0] == Genesis && |ss| == |steps| + 1;
    hide States, Story;
    forall i | 0 <= i < |steps|
      ensures Enabled(Room, ss[i], steps[i]) && ss[i + 1] == Next(Room, ss[i], steps[i])
    {
      LeakGoes(i);
    }
  }

  /** With room for one instance, two containers run; the first is stranded and no clean-up
      is pending. */
  lemma LaunchLeaks()
    ensures Run(Room, States, Story)
    ensures Cap(Room, None) == 1 && |States[5].fleet| == 2 && CleanUps(States[5], None) == {}
    ensures Stranded(States[5], "u")
  {
    LeakRuns();
    hide Run;
    assert First[0] != Second[0];
    assert S5.fleet == map[First := BoxU][Second := BoxV];
    assert First in S5.fleet && S5.fleet[First].uuid == Some("u");
  }

  lemma LeakGoes(i: nat)
    requires i < |Story|
    ensures Goes(States[i], Story[i], States[i + 1])
  {
    hide Goes, Next, Enabled;
    Failing();
    Replacing();
    Overfilling();
  }
}
