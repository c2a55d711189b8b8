/** The per-IP and total caps over all interleavings, with no assumption on the daemon,
    the clock or the players. A scope is one address, or everything. */
module Caps {
  import opened Wrappers
  import opened Configuration
  import opened Registries
  import opened Lifecycle
  import opened Ownership
  import opened Sets

  type Scope = Option<string>

  function Cap(c: Config, scope: Scope): nat {
    var limit := if scope.None? then c.maxTotal else c.maxPerIp;
    if limit < 0 then 0 else limit
  }

  predicate InScope(row: Row, scope: Scope) {
    scope.None? || row.sourceIp == scope.value
  }

  /** The active rows the cap of a scope is meant to bound. */
  function ActiveIn(t: Table, scope: Scope): set<Uuid> {
    if scope.None? then ActiveUuids(t) else ActiveUuidsFor(t, scope.value)
  }

  ghost predicate CapsHold(c: Config, s: State) {
    forall scope :: |ActiveIn(s.rows, scope) - s.revived| <= Cap(c, scope)
  }

  /** The step ends a spawn successfully although its row is no longer active. */
  predicate Revives(s: State, st: Step) {
    && SpawnOf(st).Some? && SpawnOf(st).value in s.rows
    && Finishes(s, st, SpawnOf(st).value) && !s.rows[SpawnOf(st).value].IsActive()
  }

  /** The step is a reservation that goes through. */
  predicate Admits(c: Config, s: State, st: Step) {
    st.Reserve? && Refuses(c, s.rows, st.ip).None? && st.uuid !in s.rows
  }

  lemma AdmissionMoves(c: Config, s: State, st: Step)
    requires Enabled(c, s, st)
    ensures st.Reserve? && !Admits(c, s, st) ==> Next(c, s, st).rows == s.rows
    ensures Admits(c, s, st) ==>
      Next(c, s, st).rows == s.rows[st.uuid := ReservedRow(c, st.ip, st.uuid, s.now, st.time)]
  {}

  lemma RevivalRow(c: Config, s: State, st: Step)
    requires Enabled(c, s, st) && Revives(s, st)
    ensures var u := SpawnOf(st).value;
      Next(c, s, st).rows == s.rows[u := s.rows[u].WithRunning(c.RpcUrlFor(u), s.spawns[u].ready.value)]
  {}

  /** A row becomes active only by an admitted reservation or by a revival. */
  lemma ActiveMoves(c: Config, s: State, st: Step, u: Uuid, scope: Scope)
    requires Enabled(c, s, st) && u in ActiveIn(Next(c, s, st).rows, scope) && u !in ActiveIn(s.rows, scope)
    ensures (Admits(c, s, st) && u == st.uuid && InScope(Next(c, s, st).rows[u], scope) &&
      Next(c, s, st).rows[u].sourceIp == st.ip)
         || (Revives(s, st) && SpawnOf(st) == Some(u) && InScope(s.rows[u], scope))
  {
    hide Next, Enabled;
    RowMoves(c, s, st, u);
    AdmissionMoves(c, s, st);
  }

  lemma CapStep(c: Config, s: State, st: Step, scope: Scope)
    requires Enabled(c, s, st) && |ActiveIn(s.rows, scope) - s.revived| <= Cap(c, scope)
    ensures |ActiveIn(Next(c, s, st).rows, scope) - Next(c, s, st).revived| <= Cap(c, scope)
  {
    hide Next, Enabled;
    var t := Next(c, s, st);
    var before, after := ActiveIn(s.rows, scope) - s.revived, ActiveIn(t.rows, scope) - t.revived;
    var extra := if Admits(c, s, st) && (scope.None? || st.ip == scope.value) then {st.uuid} else {};
    forall u | u in after
      ensures u in before + extra
    {
      RevivalMoves(c, s, st, u);
      if u !in ActiveIn(s.rows, scope) {
        ActiveMoves(c, s, st, u, scope);
      }
    }
    hide Finishes, RowMove;
    SubsetSize(after, before + extra);
    SubsetSize(before, ActiveIn(s.rows, scope));
  }

  lemma CapsStep(c: Config, s: State, st: Step)
    requires Enabled(c, s, st) && CapsHold(c, s)
    ensures CapsHold(c, Next(c, s, st))
  {
    hide Next, Enabled;
    forall scope
      ensures |ActiveIn(Next(c, s, st).rows, scope) - Next(c, s, st).revived| <= Cap(c, scope)
    {
      CapStep(c, s, st, scope);
    }
  }

  /** In every reachable state, the active rows that were not revived respect every cap. */
  lemma {:induction false} CapsAlways(c: Config, ss: seq<State>, steps: seq<Step>, i: nat)
    requires Run(c, ss, steps) && i < |ss|
    ensures CapsHold(c, ss[i])
  {
    if i == 0 {
      forall scope
        ensures ActiveIn(Genesis.rows, scope) == {}
      {}
    } else {
      CapsAlways(c, ss, steps, i - 1);
      CapsStep(c, ss[i - 1], steps[i - 1]);
    }
  }

  lemma RevivalGrows(c: Config, s: State, st: Step, scope: Scope)
    requires Enabled(c, s, st) && Revives(s, st) && InScope(s.rows[SpawnOf(st).value], scope)
    ensures SpawnOf(st).value !in ActiveIn(s.rows, scope)
    ensures ActiveIn(Next(c, s, st).rows, scope) == ActiveIn(s.rows, scope) + {SpawnOf(st).value}
  {
    hide Next, Enabled;
    RevivalRow(c, s, st);
  }

  /** Without a revival in the scope, the active rows grow at most by an admitted
      reservation, which leaves them within the cap. */
  lemma NoRevivalNoBreak(c: Config, s: State, st: Step, scope: Scope)
    requires Enabled(c, s, st) && |ActiveIn(s.rows, scope)| <= Cap(c, scope)
    requires !(Revives(s, st) && InScope(s.rows[SpawnOf(st).value], scope))
    ensures |ActiveIn(Next(c, s, st).rows, scope)| <= Cap(c, scope)
  {
    hide Next, Enabled, Revives;
    var before, after := ActiveIn(s.rows, scope), ActiveIn(Next(c, s, st).rows, scope);
    var extra := if Admits(c, s, st) && (scope.None? || st.ip == scope.value) then {st.uuid} else {};
    forall u | u in after
      ensures u in before + extra
    {
      if u !in before {
        ActiveMoves(c, s, st, u, scope);
      }
    }
    SubsetSize(after, before + extra);
  }

  /** Exactly which steps break a cap: the success of a spawn whose row was killed or
      reaped under it, at a moment when its scope is already full. */
  lemma CapBrokenIff(c: Config, s: State, st: Step, scope: Scope)
    requires Enabled(c, s, st) && |ActiveIn(s.rows, scope)| <= Cap(c, scope)
    ensures |ActiveIn(Next(c, s, st).rows, scope)| > Cap(c, scope)
       <==> Revives(s, st) && InScope(s.rows[SpawnOf(st).value], scope) && |ActiveIn(s.rows, scope)| == Cap(c, scope)
  {
    hide Next, Enabled, Finishes, ActiveIn;
    if Revives(s, st) && InScope(s.rows[SpawnOf(st).value], scope) {
      RevivalGrows(c, s, st, scope);
    } else {
      NoRevivalNoBreak(c, s, st, scope);
    }
  }

  /** The step revives a row of the scope while the scope is full. */
  predicate BreaksCap(c: Config, s: State, st: Step, scope: Scope) {
    Revives(s, st) && InScope(s.rows[SpawnOf(st).value], scope) && |ActiveIn(s.rows, scope)| == Cap(c, scope)
  }

  lemma {:induction false} UnbrokenSoFar(c: Config, ss: seq<State>, steps: seq<Step>, scope: Scope, i: nat)
    requires Run(c, ss, steps) && i < |ss| && forall j | 0 <= j < i :: !BreaksCap(c, ss[j], steps[j], scope)
    ensures |ActiveIn(ss[i].rows, scope)| <= Cap(c, scope)
  {
    hide Next, Enabled, Revives;
    if i == 0 {
      assert ActiveIn(Genesis.rows, scope) == {};
    } else {
      UnbrokenSoFar(c, ss, steps, scope, i - 1);
      hide ActiveIn;
      CapBrokenIff(c, ss[i - 1], steps[i - 1], scope);
    }
  }

  /** Over a whole run: the cap of a scope holds at every moment if and only if no step
      revives a row of the scope while the scope is full. */
  lemma CapHoldsIff(c: Config, ss: seq<State>, steps: seq<Step>, scope: Scope)
    requires Run(c, ss, steps)
    ensures (forall i | 0 <= i < |ss| :: |ActiveIn(ss[i].rows, scope)| <= Cap(c, scope))
       <==> (forall i | 0 <= i < |steps| :: !BreaksCap(c, ss[i], steps[i], scope))
  {
    hide Next, Enabled, Revives, ActiveIn;
    if forall i | 0 <= i < |steps| :: !BreaksCap(c, ss[i], steps[i], scope) {
      forall i | 0 <= i < |ss|
        ensures |ActiveIn(ss[i].rows, scope)| <= Cap(c, scope)
      {
        UnbrokenSoFar(c, ss, steps, scope, i);
      }
    } else {
      var i :| 0 <= i < |steps| && BreaksCap(c, ss[i], steps[i], scope);
      CapBrokenIff(c, ss[i], steps[i], scope);
      assert |ActiveIn(ss[i + 1].rows, scope)| > Cap(c, scope);
    }
  }

  // ---- runs in which nobody interferes with a booting spawn ----

  /** The step writes an inactive status over the row of a spawn still in flight. */
  predicate Interferes(s: State, st: Step) {
    || (st.KillWrite? && st.k in s.kills && s.kills[st.k].uuid in s.spawns)
    || (st.SweepWrite? && AtRow(s) && s.sweep.queue[0].uuid in s.spawns)
  }

  ghost predicate Undisturbed(s: State) {
    && s.revived == {}
    && forall u | u in s.spawns && u in s.rows && !s.spawns[u].Removing? :: s.rows[u].IsActive()
  }

  lemma OwnDeactivation(c: Config, s: State, st: Step, u: Uuid)
    requires Enabled(c, s, st) && SpawnOf(st).Some? && u in s.rows && u in Next(c, s, st).rows
    requires s.rows[u].IsActive() && !Next(c, s, st).rows[u].IsActive()
    ensures FailsSpawn(st) && SpawnOf(st) == Some(u) && u in s.spawns
    ensures u in Next(c, s, st).spawns ==> Next(c, s, st).spawns[u].Removing?
  {}

  lemma OtherDeactivation(c: Config, s: State, st: Step, u: Uuid)
    requires Enabled(c, s, st) && SpawnOf(st).None? && u in s.rows && u in Next(c, s, st).rows
    requires s.rows[u].IsActive() && !Next(c, s, st).rows[u].IsActive()
    ensures
      || (st.KillWrite? && st.k in s.kills && s.kills[st.k].uuid == u)
      || (st.SweepWrite? && AtRow(s) && s.sweep.queue[0].uuid == u)
      || (st.Restart? && Some(u) !in ManagedUuids(s.fleet, st.listed))
  {}

  /** An inactive status is written only by the row's own failing spawn, by a kill, by a
      sweep or by a restart. */
  lemma DeactivationMoves(c: Config, s: State, st: Step, u: Uuid)
    requires Enabled(c, s, st) && u in s.rows && u in Next(c, s, st).rows
    requires s.rows[u].IsActive() && !Next(c, s, st).rows[u].IsActive()
    ensures
      || (FailsSpawn(st) && SpawnOf(st) == Some(u) && u in s.spawns
          && (u in Next(c, s, st).spawns ==> Next(c, s, st).spawns[u].Removing?))
      || (st.KillWrite? && st.k in s.kills && s.kills[st.k].uuid == u)
      || (st.SweepWrite? && AtRow(s) && s.sweep.queue[0].uuid == u)
      || (st.Restart? && Some(u) !in ManagedUuids(s.fleet, st.listed))
  {
    hide Next, Enabled;
    if SpawnOf(st).Some? {
      OwnDeactivation(c, s, st, u);
    } else {
      OtherDeactivation(c, s, st, u);
    }
  }

  lemma RestartMoves(c: Config, s: State, st: Step)
    requires Enabled(c, s, st) && st.Restart?
    ensures Next(c, s, st).spawns == map[] && Next(c, s, st).kills == map[] && Next(c, s, st).sweep == NoSweep
  {}

  lemma RemovingStays(c: Config, s: State, st: Step, u: Uuid)
    requires Enabled(c, s, st) && u in s.spawns && s.spawns[u].Removing? && u in s.rows && u in Next(c, s, st).spawns
    ensures Next(c, s, st).spawns[u] == s.spawns[u]
  {}

  lemma UndisturbedStep(c: Config, s: State, st: Step)
    requires Enabled(c, s, st) && Owned(c, s) && Undisturbed(s) && !Interferes(s, st)
    ensures Undisturbed(Next(c, s, st))
  {
    hide Next, FleetOk, RowsOk, KillsOk, SweepOk, SpawnOk;
    var t := Next(c, s, st);
    forall u | u in t.spawns && u in t.rows && !t.spawns[u].Removing?
      ensures t.rows[u].IsActive()
    {
      hide Enabled;
      SpawnMoves(c, s, st, u);
      RowMoves(c, s, st, u);
      if u in s.rows {
        if s.rows[u].IsActive() && !t.rows[u].IsActive() {
          DeactivationMoves(c, s, st, u);
          if st.Restart? {
            RestartMoves(c, s, st);
          }
        } else if !s.rows[u].IsActive() {
          RemovingStays(c, s, st, u);
        }
      }
    }
    forall u
      ensures u !in t.revived
    {
      RevivalMoves(c, s, st, u);
    }
  }

  /** Both caps hold outright, at every moment, in every run in which no row is killed or
      reaped while its own spawn is in flight. */
  lemma {:induction false} CapsOutright(c: Config, ss: seq<State>, steps: seq<Step>, i: nat)
    requires Run(c, ss, steps) && i < |ss|
    requires forall j | 0 <= j < i :: !Interferes(ss[j], steps[j])
    ensures Undisturbed(ss[i])
    ensures forall scope :: |ActiveIn(ss[i].rows, scope)| <= Cap(c, scope)
  {
    if i > 0 {
      CapsOutright(c, ss, steps, i - 1);
      OwnedAlways(c, ss, steps, i - 1);
      UndisturbedStep(c, ss[i - 1], steps[i - 1]);
    }
    CapsAlways(c, ss, steps, i);
    forall scope
      ensures |ActiveIn(ss[i].rows, scope)| <= Cap(c, scope)
    {
      assert ActiveIn(ss[i].rows, scope) - ss[i].revived == ActiveIn(ss[i].rows, scope);
    }
  }
}
