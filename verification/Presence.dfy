/** The other direction of `Orphans.NoOrphans`, under the operating assumptions: which
    running rows do have a container. */
module Presence {
  import opened Wrappers
  import opened Configuration
  import opened Docker
  import opened Registries
  import opened Lifecycle
  import opened Ownership
  import opened Orphans
  import opened History
  import opened Leftovers

  ghost predicate PendingKill(s: State, u: Uuid) {
    exists k :: k in s.kills && s.kills[k].KillWriting? && s.kills[k].uuid == u && s.kills[k].row.IsActive()
  }

  ghost predicate PendingSweep(s: State, u: Uuid) {
    AtRow(s) && s.sweep.removed && s.sweep.queue[0].uuid == u
  }

  /** A removal for `u` has taken effect and the status write that belongs to it is due. */
  ghost predicate Pending(s: State, u: Uuid) {
    PendingKill(s, u) || PendingSweep(s, u)
  }

  /** The launch of `u` has taken effect, as far as its spawn or its row tell. */
  predicate HasLaunched(s: State, u: Uuid) {
    u in s.rows && (s.rows[u].status == Running ||
      (u in s.spawns && !s.spawns[u].Launching? && !s.spawns[u].LaunchFailed?))
  }

  /** An active row whose launch took effect has its container, unless its removal is
      halfway or the row was revived. */
  ghost predicate Present(s: State, u: Uuid) {
    u in s.rows && HasLaunched(s, u) && s.rows[u].IsActive() && u !in s.revived ==> HasContainer(s, u) || Pending(s, u)
  }

  /** A spawn that cleans up has written its row inactive. */
  ghost predicate CleansInactive(s: State, u: Uuid) {
    CleaningUp(s, u) && u in s.rows ==> !s.rows[u].IsActive()
  }

  /** A kill that saw an inactive row, and so writes no status, kills no active one. */
  ghost predicate IdleKill(s: State, k: nat) {
    k in s.kills && !s.kills[k].row.IsActive() ==> s.kills[k].uuid in s.rows && !s.rows[s.kills[k].uuid].IsActive()
  }

  ghost predicate AllPresent(s: State) {
    && (forall u :: Present(s, u) && CleansInactive(s, u))
    && (forall k :: IdleKill(s, k))
  }

  // ---- preservation ----

  lemma CleansInactiveStep(c: Config, s: State, st: Step, u: Uuid)
    requires Enabled(c, s, st) && Owned(c, s) && CleansInactive(s, u)
    ensures CleansInactive(Next(c, s, st), u)
  {
    hide Next, Enabled, FleetOk, RowsOk, KillsOk, SweepOk, ReturnedOk, LimboOk;
    var t := Next(c, s, st);
    if CleaningUp(t, u) && u in t.rows {
      RowMoves(c, s, st, u);
      SpawnMoves(c, s, st, u);
      assert u in s.spawns ==> SpawnOk(s, u, s.spawns[u]);
      if SpawnOf(st) == Some(u) && !CleaningUp(s, u) {
        CleanUpStarts(c, s, st, u);
      }
    }
  }

  lemma CleanUpStarts(c: Config, s: State, st: Step, u: Uuid)
    requires Enabled(c, s, st) && SpawnOf(st) == Some(u) && !CleaningUp(s, u) && CleaningUp(Next(c, s, st), u)
    ensures u in Next(c, s, st).rows ==> !Next(c, s, st).rows[u].IsActive()
  {}

  lemma IdleKillStep(c: Config, s: State, st: Step, k: nat)
    requires Enabled(c, s, st) && Benign(c, s, st) && Owned(c, s) && Safe(c, s) && IdleKill(s, k)
    ensures IdleKill(Next(c, s, st), k)
  {
    hide Next, Enabled, FleetOk, RowsOk, SpawnsOk, SweepOk, ReturnedOk, LimboOk, InstanceOk, SweepSafe;
    var t := Next(c, s, st);
    KillMoves(c, s, st, k);
    if k in t.kills {
      RowMoves(c, s, st, t.kills[k].uuid);
      if k in s.kills {
        assert KillSafe(s, s.kills[k]);
      } else {
        KillStartsCalm(c, s, st);
      }
    }
  }

  lemma KillStartsCalm(c: Config, s: State, st: Step)
    requires Enabled(c, s, st) && st.KillStart?
    ensures Next(c, s, st).rows == s.rows
  {}

  lemma LaunchedBefore(c: Config, s: State, st: Step, u: Uuid)
    requires Enabled(c, s, st) && Owned(c, s)
    requires HasLaunched(Next(c, s, st), u) && !Supplies(st, u)
    ensures HasLaunched(s, u) && u in s.rows && u in Next(c, s, st).rows
  {
    hide Next, Enabled, FleetOk, RowsOk, KillsOk, SweepOk, ReturnedOk, LimboOk;
    RowMoves(c, s, st, u);
    SpawnMoves(c, s, st, u);
    assert u in s.spawns ==> SpawnOk(s, u, s.spawns[u]);
    if u !in s.spawns && u in Next(c, s, st).spawns {
      FreshSpawn(c, s, st, u);
    } else if SpawnOf(st) == Some(u) && u in s.spawns && (s.spawns[u].Launching? || s.spawns[u].LaunchFailed?) {
      StillUnlaunched(c, s, st, u);
    }
  }

  lemma StillUnlaunched(c: Config, s: State, st: Step, u: Uuid)
    requires Enabled(c, s, st) && SpawnOf(st) == Some(u) && u in s.spawns && !Supplies(st, u)
    requires s.spawns[u].Launching? || (s.spawns[u].LaunchFailed? && u in s.rows && s.rows[u].containerId == None)
    ensures u in Next(c, s, st).spawns ==> Next(c, s, st).spawns[u].Launching? || Next(c, s, st).spawns[u].LaunchFailed?
    ensures !Finishes(s, st, u)
  {}

  /** A pending removal stays pending until its status write makes the row inactive. */
  lemma PendingMoves(c: Config, s: State, st: Step, u: Uuid)
    requires Enabled(c, s, st) && Benign(c, s, st) && !st.Restart? && Pending(s, u) && u in s.rows
    ensures Pending(Next(c, s, st), u) || (u in Next(c, s, st).rows && !Next(c, s, st).rows[u].IsActive())
  {
    hide Next, Enabled;
    if PendingKill(s, u) {
      var k :| k in s.kills && s.kills[k].KillWriting? && s.kills[k].uuid == u && s.kills[k].row.IsActive();
      PendingKillMoves(c, s, st, k);
    } else {
      PendingSweepMoves(c, s, st);
    }
  }

  lemma PendingKillMoves(c: Config, s: State, st: Step, k: nat)
    requires Enabled(c, s, st) && !st.Restart? && k in s.kills && s.kills[k].KillWriting? && s.kills[k].row.IsActive()
    requires s.kills[k].uuid in s.rows
    ensures (k in Next(c, s, st).kills && Next(c, s, st).kills[k] == s.kills[k])
         || (s.kills[k].uuid in Next(c, s, st).rows && !Next(c, s, st).rows[s.kills[k].uuid].IsActive())
  {}

  lemma PendingSweepMoves(c: Config, s: State, st: Step)
    requires Enabled(c, s, st) && !st.Restart? && AtRow(s) && s.sweep.removed && s.sweep.queue[0].uuid in s.rows
    ensures Next(c, s, st).sweep == s.sweep
         || (s.sweep.queue[0].uuid in Next(c, s, st).rows && !Next(c, s, st).rows[s.sweep.queue[0].uuid].IsActive())
  {}

  /** A removal that takes an active row's container leaves its status write pending. */
  lemma TakingIsPending(c: Config, s: State, st: Step, u: Uuid)
    requires Enabled(c, s, st) && Benign(c, s, st) && !st.Restart? && Owned(c, s) && AllPresent(s)
    requires TakesAway(s, st, u) && u in s.rows && s.rows[u].IsActive()
    ensures Pending(Next(c, s, st), u)
  {
    hide Next, Enabled, FleetOk, RowsOk, KillsOk, SweepOk, ReturnedOk, LimboOk, Present;
    RemovalEffects(c, s, st);
    assert !st.CleanUp? by {
      CleanUpEnabled(c, s, st, u);
    }
    if st.KillRemove? {
      assert IdleKill(s, st.k);
      assert Next(c, s, st).kills[st.k].KillWriting?;
    }
  }

  lemma CleanUpEnabled(c: Config, s: State, st: Step, u: Uuid)
    requires Enabled(c, s, st) && CleansInactive(s, u) && u in s.rows && s.rows[u].IsActive()
    ensures st != CleanUp(u, true) && st != CleanUp(u, false)
  {}

  lemma RestartPresent(c: Config, s: State, st: Step, u: Uuid)
    requires Enabled(c, s, st) && Benign(c, s, st) && st.Restart?
    requires u in Next(c, s, st).rows && Next(c, s, st).rows[u].IsActive()
    ensures HasContainer(Next(c, s, st), u)
  {
    assert Some(u) in LabelledUuids(s.fleet);
    var x :| x in s.fleet && s.fleet[x].uuid == Some(u);
    assert x in Next(c, s, st).fleet && Next(c, s, st).fleet[x].uuid == Some(u);
  }

  /** A row that is active after a step and not revived was active before it. */
  lemma ActiveBefore(c: Config, s: State, st: Step, u: Uuid)
    requires Enabled(c, s, st) && u in s.rows && u in Next(c, s, st).rows && Next(c, s, st).rows[u].IsActive()
    requires u !in Next(c, s, st).revived
    ensures s.rows[u].IsActive() && u !in s.revived
  {
    hide Next, Enabled;
    RowMoves(c, s, st, u);
    RevivalMoves(c, s, st, u);
  }

  lemma PresentStep(c: Config, s: State, st: Step, u: Uuid)
    requires Enabled(c, s, st) && Benign(c, s, st) && Owned(c, s) && AllPresent(s)
    ensures Present(Next(c, s, st), u)
  {
    hide Next, Enabled, Benign, Owned, AllPresent, Pending, HasContainer, TakesAway, HasLaunched, Supplies;
    var t := Next(c, s, st);
    if HasLaunched(t, u) && u in t.rows && t.rows[u].IsActive() && u !in t.revived && !HasContainer(t, u) {
      PresenceMoves(c, s, st, u);
      LaunchedBefore(c, s, st, u);
      ActiveBefore(c, s, st, u);
      PresentNow(s, u);
      if st.Restart? {
        RestartPresent(c, s, st, u);
      } else if HasContainer(s, u) {
        TakingIsPending(c, s, st, u);
      } else {
        PendingMoves(c, s, st, u);
      }
    }
  }

  lemma PresentNow(s: State, u: Uuid)
    requires AllPresent(s) && HasLaunched(s, u) && u in s.rows && s.rows[u].IsActive() && u !in s.revived
    ensures HasContainer(s, u) || Pending(s, u)
  {
    assert Present(s, u);
  }

  lemma AllPresentStep(c: Config, s: State, st: Step)
    requires Enabled(c, s, st) && Benign(c, s, st) && Owned(c, s) && Safe(c, s) && AllPresent(s)
    ensures AllPresent(Next(c, s, st))
  {
    hide Next, Enabled, Benign, Owned, Safe, Present, CleansInactive, IdleKill;
    forall u
      ensures Present(Next(c, s, st), u) && CleansInactive(Next(c, s, st), u)
    {
      PresentStep(c, s, st, u);
      CleansInactiveStep(c, s, st, u);
    }
    forall k
      ensures IdleKill(Next(c, s, st), k)
    {
      IdleKillStep(c, s, st, k);
    }
  }

  lemma {:induction false} PresentAlways(c: Config, ss: seq<State>, steps: seq<Step>, i: nat)
    requires BenignRun(c, ss, steps) && i < |ss|
    ensures AllPresent(ss[i])
  {
    hide Next, Enabled, Benign, Owned, Safe;
    if i > 0 {
      PresentAlways(c, ss, steps, i - 1);
      OwnedAlways(c, ss, steps, i - 1);
      SafeAlways(c, ss, steps, i - 1);
      AllPresentStep(c, ss[i - 1], steps[i - 1]);
    }
  }

  /** A running row has its container if and only if it was not revived and no removal is
      halfway between taking the container and writing the status. */
  lemma RunningHasContainerIff(c: Config, ss: seq<State>, steps: seq<Step>, i: nat, u: Uuid)
    requires BenignRun(c, ss, steps) && i < |ss| && u in ss[i].rows && ss[i].rows[u].status == Running
    ensures HasContainer(ss[i], u) <==> u !in ss[i].revived && !Pending(ss[i], u)
  {
    hide Next, Enabled, Benign;
    var s := ss[i];
    PresentAlways(c, ss, steps, i);
    SafeAlways(c, ss, steps, i);
    assert Present(s, u) && InstanceOk(c, s, u);
    if PendingKill(s, u) {
      var k :| k in s.kills && s.kills[k].KillWriting? && s.kills[k].uuid == u && s.kills[k].row.IsActive();
      assert KillSafe(s, s.kills[k]);
    }
  }
}
