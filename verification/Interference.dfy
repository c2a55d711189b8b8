/** What a task can count on about the shared registry and fleet across a call into a
    worker thread, while all other tasks run; and the proof that they respect it. */
module Interference {
  import opened Wrappers
  import opened Configuration
  import opened Docker
  import opened Registries
  import opened Lifecycle
  import opened Ownership

  /** Rows, containers and issued ids fit together. */
  predicate Consistent(c: Config, rows: Table, fleet: Fleet, born: map<Cid, Uuid>) {
    && WellBorn(c, fleet, born)
    && (forall x | x in born :: born[x] in rows)
    && (forall u | u in rows ::
          && rows[u].containerName == c.ContainerName(u)
          && (rows[u].containerId.Some? ==> rows[u].containerId.value in born && born[rows[u].containerId.value] == u))
  }

  /** Rows only gain status changes to an inactive status; nobody else records a container
      or a success for the spawn of `u`, nor launches for it. */
  predicate SpareMine(u: Uuid, rows: Table, born: map<Cid, Uuid>, rows': Table, born': map<Cid, Uuid>) {
    && (u in rows && u in rows' ==>
          || rows'[u] == rows[u]
          || (!rows'[u].IsActive() && rows'[u] == rows[u].WithStatus(rows'[u].status, rows'[u].error)))
    && (forall x | x in born' && born'[x] == u :: x in born)
  }

  /** How others may change things during an await of the task that spawns `mine`, or of
      a task that is no spawn. */
  predicate Rely(c: Config, mine: Option<Uuid>, rows: Table, fleet: Fleet, born: map<Cid, Uuid>,
                 rows': Table, fleet': Fleet, born': map<Cid, Uuid>) {
    && Consistent(c, rows', fleet', born')
    && (forall u | u in rows :: u in rows' && rows'[u].Identity() == rows[u].Identity())
    && (forall x | x in born :: x in born' && born'[x] == born[x])
    && (forall x | x in fleet' :: (x in fleet && fleet'[x] == fleet[x]) || x !in born)
    && (mine.Some? ==> SpareMine(mine.value, rows, born, rows', born'))
  }

  ghost predicate RelyStates(c: Config, mine: Option<Uuid>, s: State, t: State) {
    Rely(c, mine, s.rows, s.fleet, s.born, t.rows, t.fleet, t.born)
  }

  lemma OwnedIsConsistent(c: Config, s: State)
    requires Owned(c, s)
    ensures Consistent(c, s.rows, s.fleet, s.born)
  {}

  lemma OthersSpareMine(c: Config, s: State, st: Step, u: Uuid)
    requires Enabled(c, s, st) && u in s.rows && SpawnOf(st) != Some(u)
    ensures SpareMine(u, s.rows, s.born, Next(c, s, st).rows, Next(c, s, st).born)
  {
    hide Next, Enabled;
    FleetMoves(c, s, st);
    RowMoves(c, s, st, u);
  }

  /** Every step of every other task keeps to it. */
  lemma OthersRely(c: Config, s: State, st: Step, mine: Option<Uuid>)
    requires Enabled(c, s, st) && Owned(c, s) && !st.Restart?
    requires mine.Some? ==> mine.value in s.rows && SpawnOf(st) != mine
    ensures RelyStates(c, mine, s, Next(c, s, st))
  {
    hide Next, Enabled, Owned, Consistent, SpareMine, RowMove;
    var t := Next(c, s, st);
    OwnedStep(c, s, st);
    OwnedIsConsistent(c, t);
    FleetMoves(c, s, st);
    forall u | u in s.rows
      ensures u in t.rows && t.rows[u].Identity() == s.rows[u].Identity()
    {
      IdentityStays(c, s, st, u);
    }
    if mine.Some? {
      OthersSpareMine(c, s, st, mine.value);
    }
  }

  lemma RelyTransitive(c: Config, mine: Option<Uuid>, s: State, t: State, w: State)
    requires RelyStates(c, mine, s, t) && RelyStates(c, mine, t, w)
    ensures RelyStates(c, mine, s, w)
  {
    hide Consistent;
  }

  lemma RelyReflexive(c: Config, mine: Option<Uuid>, s: State)
    requires Owned(c, s)
    ensures RelyStates(c, mine, s, s)
  {
    OwnedIsConsistent(c, s);
    hide Owned, Consistent;
  }

  lemma RelyKeepsRows(c: Config, mine: Option<Uuid>, s: State, t: State, u: Uuid)
    requires RelyStates(c, mine, s, t) && u in s.rows
    ensures u in t.rows
  {
    hide Consistent;
  }

  /** A stretch of a run from any state that keeps ownership. */
  ghost predicate Path(c: Config, ss: seq<State>, steps: seq<Step>) {
    && |ss| == |steps| + 1
    && Owned(c, ss[0])
    && forall i | 0 <= i < |steps| :: Enabled(c, ss[i], steps[i]) && ss[i + 1] == Next(c, ss[i], steps[i])
  }

  /** A run is a path from the empty registry. */
  lemma RunIsPath(c: Config, ss: seq<State>, steps: seq<Step>)
    ensures Run(c, ss, steps) <==> Path(c, ss, steps) && ss[0] == Genesis
  {
    hide Next, Enabled, Owned;
    if Run(c, ss, steps) {
      OwnedAlways(c, ss, steps, 0);
    }
  }

  lemma {:induction false} PathOwned(c: Config, ss: seq<State>, steps: seq<Step>, i: nat)
    requires Path(c, ss, steps) && i < |ss|
    ensures Owned(c, ss[i])
  {
    hide Next, Enabled, Owned;
    if i > 0 {
      PathOwned(c, ss, steps, i - 1);
      OwnedStep(c, ss[i - 1], steps[i - 1]);
    }
  }

  lemma PathExtends(c: Config, ss: seq<State>, steps: seq<Step>, st: Step)
    requires Path(c, ss, steps) && Enabled(c, ss[|steps|], st)
    ensures Path(c, ss + [Next(c, ss[|steps|], st)], steps + [st])
  {
    hide Next, Enabled, Owned;
  }

  /** The kill a step belongs to. */
  function KillOf(st: Step): Option<nat> {
    match st
    case KillStart(k, _) => Some(k)
    case KillRemove(k, _) => Some(k)
    case KillAborts(k, _) => Some(k)
    case KillWrite(k) => Some(k)
    case _ => None
  }

  /** The step belongs neither to the waiting spawn or kill nor to a restart. */
  predicate Foreign(st: Step, mine: Option<Uuid>, kill: Option<nat>) {
    !st.Restart? && (mine.Some? ==> SpawnOf(st) != mine) && (kill.Some? ==> KillOf(st) != kill)
  }

  lemma EarlyStepsLeave(c: Config, s: State, st: Step, u: Uuid)
    requires Enabled(c, s, st) && EarlyStep(st) && SpawnOf(st) != Some(u) && u in s.spawns
    ensures u in Next(c, s, st).spawns
  {}

  lemma OtherStepsLeave(c: Config, s: State, st: Step, u: Uuid)
    requires Enabled(c, s, st) && !EarlyStep(st) && !st.Restart? && SpawnOf(st) != Some(u) && u in s.spawns
    ensures u in Next(c, s, st).spawns
  {}

  lemma SpawnWaits(c: Config, s: State, st: Step, u: Uuid)
    requires Enabled(c, s, st) && !st.Restart? && SpawnOf(st) != Some(u)
    ensures u in Next(c, s, st).spawns <==> u in s.spawns
    ensures u in s.spawns ==> Next(c, s, st).spawns[u] == s.spawns[u]
  {
    hide Next, Enabled;
    SpawnMoves(c, s, st, u);
    if u in s.spawns {
      if EarlyStep(st) {
        EarlyStepsLeave(c, s, st, u);
      } else {
        OtherStepsLeave(c, s, st, u);
      }
    }
  }

  lemma KillWaits(c: Config, s: State, st: Step, k: nat)
    requires Enabled(c, s, st) && !st.Restart? && KillOf(st) != Some(k)
    ensures k in Next(c, s, st).kills <==> k in s.kills
    ensures k in s.kills ==> Next(c, s, st).kills[k] == s.kills[k]
  {}

  /** While a task waits, its own position does not change. */
  lemma {:induction false} PathWaits(c: Config, ss: seq<State>, steps: seq<Step>, a: nat, b: nat, mine: Option<Uuid>,
                                     kill: Option<nat>)
    requires Path(c, ss, steps) && a <= b < |ss| && forall j | a <= j < b :: Foreign(steps[j], mine, kill)
    ensures mine.Some? ==> (mine.value in ss[b].spawns <==> mine.value in ss[a].spawns)
    ensures mine.Some? && mine.value in ss[a].spawns ==> ss[b].spawns[mine.value] == ss[a].spawns[mine.value]
    ensures kill.Some? ==> (kill.value in ss[b].kills <==> kill.value in ss[a].kills)
    ensures kill.Some? && kill.value in ss[a].kills ==> ss[b].kills[kill.value] == ss[a].kills[kill.value]
    decreases b
  {
    hide Next, Enabled, Owned;
    if a < b {
      PathWaits(c, ss, steps, a, b - 1, mine, kill);
      if mine.Some? {
        SpawnWaits(c, ss[b - 1], steps[b - 1], mine.value);
      }
      if kill.Some? {
        KillWaits(c, ss[b - 1], steps[b - 1], kill.value);
      }
    }
  }

  /** So does any number of them: whatever other tasks do between two moments of one task,
      short of a restart, keeps to what that task counts on. */
  lemma {:induction false} PathRely(c: Config, ss: seq<State>, steps: seq<Step>, a: nat, b: nat, mine: Option<Uuid>)
    requires Path(c, ss, steps) && a <= b < |ss|
    requires forall j | a <= j < b :: Foreign(steps[j], mine, None)
    requires mine.Some? ==> mine.value in ss[a].rows
    ensures RelyStates(c, mine, ss[a], ss[b])
    decreases b
  {
    hide Next, Enabled, Owned, RelyStates;
    PathOwned(c, ss, steps, a);
    RelyReflexive(c, mine, ss[a]);
    if a < b {
      PathRely(c, ss, steps, a, b - 1, mine);
      if mine.Some? {
        RelyKeepsRows(c, mine, ss[a], ss[b - 1], mine.value);
      }
      PathOwned(c, ss, steps, b - 1);
      OthersRely(c, ss[b - 1], steps[b - 1], mine);
      RelyTransitive(c, mine, ss[a], ss[b - 1], ss[b]);
    }
  }

  /** In particular over whole runs from an empty registry. */
  lemma RunRely(c: Config, ss: seq<State>, steps: seq<Step>, a: nat, b: nat, mine: Option<Uuid>)
    requires Run(c, ss, steps) && a <= b < |ss|
    requires forall j | a <= j < b :: !steps[j].Restart? && (mine.Some? ==> SpawnOf(steps[j]) != mine)
    requires mine.Some? ==> mine.value in ss[a].rows
    ensures RelyStates(c, mine, ss[a], ss[b])
  {
    hide Next, Enabled, Owned, RelyStates;
    RunIsPath(c, ss, steps);
    PathRely(c, ss, steps, a, b, mine);
  }
}
