/** What one sweep of the reaper does, interleaved with everything else, and what it leaves
    behind once the other tasks have finished. */
module Drain {
  import opened Wrappers
  import opened Configuration
  import opened Docker
  import opened Registries
  import opened Lifecycle
  import opened Ownership
  import opened Orphans
  import opened Reaping

  // ---- exactness ----

  /** The steps from `a` up to `b` belong to one sweep: it starts at `a` with `queue` and
      is neither ended nor cut off by a restart. */
  ghost predicate OneSweep(c: Config, ss: seq<State>, steps: seq<Step>, a: nat, b: nat, queue: seq<Record>) {
    && Run(c, ss, steps) && a < b < |ss| && steps[a] == SweepStart(queue)
    && forall j | a < j < b ::
      !steps[j].SweepStart? && !steps[j].SweepEnd? && !steps[j].SweepAborts? && !steps[j].Restart?
  }

  /** The uuids to which the steps from `a` up to `b` write `expired`. */
  function Reaped(ss: seq<State>, steps: seq<Step>, a: nat, b: nat): set<Uuid>
    requires a <= b <= |steps| < |ss|
    decreases b
  {
    if a == b then {}
    else
      var here := if steps[b - 1].SweepWrite? && AtRow(ss[b - 1]) then {ss[b - 1].sweep.queue[0].uuid} else {};
      Reaped(ss, steps, a, b - 1) + here
  }

  lemma QueueMoves(c: Config, s: State, st: Step)
    requires Enabled(c, s, st) && s.sweep.Sweeping? && !st.SweepEnd? && !st.SweepAborts? && !st.Restart?
    ensures !st.SweepStart?
    ensures Next(c, s, st).sweep.Sweeping? && Next(c, s, st).sweep.start == s.sweep.start
    ensures st == SweepSkip || st == SweepWrite ==>
      && AtRow(s) && Next(c, s, st).sweep == Sweeping(s.sweep.start, s.sweep.queue[1..], false)
      && (if st == SweepWrite then s.sweep.removed
        else !s.sweep.removed && Protected(c, s.sweep.start, s.sweep.queue[0].row))
    ensures st.SweepRemove? ==>
      && AtRow(s) && !Protected(c, s.sweep.start, s.sweep.queue[0].row)
      && Next(c, s, st).sweep == s.sweep.(removed := true)
    ensures !st.SweepSkip? && !st.SweepWrite? && !st.SweepRemove? ==> Next(c, s, st).sweep == s.sweep
  {}

  lemma StartMoves(c: Config, s: State, st: Step)
    requires Enabled(c, s, st) && st.SweepStart?
    ensures Next(c, s, st) == s.(sweep := Sweeping(s.now, st.queue, false)) &&
      Lists(st.queue, s.rows, DueUuids(s.rows, s.now))
  {}

  ghost predicate SweepAt(c: Config, w: SweepPc, queue: seq<Record>, start: real, k: nat, reaped: set<Uuid>) {
    && k <= |queue| && w.Sweeping? && w.start == start && w.queue == queue[k..]
    && (w.removed ==> k < |queue| && !Protected(c, start, queue[k].row))
    && reaped == Reapable(c, start, queue[..k])
  }

  lemma {:induction false} SweepProgress(c: Config, ss: seq<State>, steps: seq<Step>, a: nat, b: nat,
                                         queue: seq<Record>) returns (k: nat)
    requires OneSweep(c, ss, steps, a, b, queue)
    ensures SweepAt(c, ss[b].sweep, queue, ss[a].now, k, Reaped(ss, steps, a, b))
    decreases b
  {
    hide Next, Enabled;
    var s, st := ss[b - 1], steps[b - 1];
    if b == a + 1 {
      StartMoves(c, s, st);
      k := 0;
      assert Reapable(c, ss[a].now, queue[..0]) == {};
      assert Reaped(ss, steps, a, a) == {};
    } else {
      k := SweepProgress(c, ss, steps, a, b - 1, queue);
      QueueMoves(c, s, st);
      if st.SweepSkip? || st.SweepWrite? {
        assert queue[..k + 1] == queue[..k] + [queue[k]];
        assert s.sweep.queue[0] == queue[k];
        assert queue[k + 1..] == queue[k..][1..];
        ReapableGrows(c, ss[a].now, queue, k);
        k := k + 1;
      }
    }
  }

  lemma ReapableGrows(c: Config, start: real, queue: seq<Record>, k: nat)
    requires k < |queue|
    ensures Reapable(c, start, queue[..k + 1]) ==
      Reapable(c, start, queue[..k]) + (if Protected(c, start, queue[k].row) then {} else {queue[k].uuid})
  {
    assert queue[..k + 1] == queue[..k] + [queue[k]];
  }

  /** A sweep that reaches its end has written `expired` to exactly the rows that were due
      and outside their boot window when it started, whatever ran in between. */
  lemma SweepExact(c: Config, ss: seq<State>, steps: seq<Step>, a: nat, b: nat, queue: seq<Record>)
    requires OneSweep(c, ss, steps, a, b, queue) && b < |steps| && steps[b] == SweepEnd
    ensures Reaped(ss, steps, a, b) == Taken(c, ss[a].rows, ss[a].now)
    ensures forall u :: u in Reaped(ss, steps, a, b) <==>
      && u in ss[a].rows && (ss[a].rows[u].status == Starting || ss[a].rows[u].status == Running)
      && ss[a].rows[u].expiresAt < ss[a].now
      && (ss[a].rows[u].status == Starting ==> ss[a].now - ss[a].rows[u].createdAt >= c.bootTimeout as real)
  {
    hide Next;
    var k := SweepProgress(c, ss, steps, a, b, queue);
    assert queue[..k] == queue;
    StartMoves(c, ss[a], steps[a]);
    TakenIsReapable(c, ss[a].rows, ss[a].now, queue);
  }

  // ---- draining ----

  /** Nothing is running, and every active row is past its expiry and its boot window. */
  ghost predicate Settled(c: Config, s: State) {
    && s.spawns == map[] && s.kills == map[] && s.sweep == NoSweep
    && forall u | u in s.rows && s.rows[u].IsActive() ::
      s.rows[u].expiresAt < s.now && s.now - s.rows[u].createdAt >= c.BootWindow()
  }

  /** After a first step that starts a sweep, only that sweep and the clock advance. */
  ghost predicate OnlySweep(c: Config, ss: seq<State>, steps: seq<Step>, a: nat, b: nat) {
    && Run(c, ss, steps) && a < b < |ss| && steps[a].SweepStart?
    && forall j | a < j < b ::
      steps[j].Tick? || steps[j].SweepSkip? || steps[j].SweepRemove? || steps[j].SweepWrite? || steps[j].SweepEnd?
  }

  /** Only rows the sweep still has to take are active. */
  ghost predicate Draining(c: Config, s: State) {
    && s.spawns == map[] && s.kills == map[]
    && (s.sweep.NoSweep? ==> ActiveUuids(s.rows) == {})
    && (s.sweep.Sweeping? ==>
         && (forall i | 0 <= i < |s.sweep.queue| :: !Protected(c, s.sweep.start, s.sweep.queue[i].row))
         && (forall u | u in ActiveUuids(s.rows) :: exists i :: 0 <= i < |s.sweep.queue| && s.sweep.queue[i].uuid == u))
  }

  lemma DrainMoves(c: Config, s: State, st: Step)
    requires Enabled(c, s, st)
    requires st.Tick? || st.SweepSkip? || st.SweepRemove? || st.SweepWrite? || st.SweepEnd?
    ensures var t := Next(c, s, st);
      && t.spawns == s.spawns && t.kills == s.kills
      && t.rows == (if st.SweepWrite? then SetStatus(s.rows, s.sweep.queue[0].uuid, Expired, None) else s.rows)
      && (st.SweepEnd? ==> s.sweep.Sweeping? && s.sweep.queue == [] && t.sweep == NoSweep)
      && (st.Tick? ==> t.sweep == s.sweep)
  {}

  lemma DrainStep(c: Config, s: State, st: Step)
    requires Enabled(c, s, st) && Draining(c, s)
    requires st.Tick? || st.SweepSkip? || st.SweepRemove? || st.SweepWrite? || st.SweepEnd?
    ensures Draining(c, Next(c, s, st))
  {
    hide Next, Enabled, Protected;
    var t := Next(c, s, st);
    DrainMoves(c, s, st);
    if s.sweep.Sweeping? && !st.SweepEnd? {
      QueueMoves(c, s, st);
      forall u | u in ActiveUuids(t.rows)
        ensures exists i :: 0 <= i < |t.sweep.queue| && t.sweep.queue[i].uuid == u
      {
        assert u in ActiveUuids(s.rows);
        var i :| 0 <= i < |s.sweep.queue| && s.sweep.queue[i].uuid == u;
        if st.SweepWrite? {
          assert t.sweep.queue[i - 1] == s.sweep.queue[i];
        }
      }
    } else if s.sweep.NoSweep? {
      NotSweeping(c, s, st);
    }
  }

  lemma NotSweeping(c: Config, s: State, st: Step)
    requires Enabled(c, s, st) && s.sweep.NoSweep?
    ensures !st.SweepSkip? && !st.SweepRemove? && !st.SweepWrite? && !st.SweepEnd?
  {}

  lemma {:induction false} DrainRun(c: Config, ss: seq<State>, steps: seq<Step>, a: nat, b: nat)
    requires OnlySweep(c, ss, steps, a, b) && Settled(c, ss[a])
    ensures Draining(c, ss[b])
    decreases b
  {
    hide Next, Enabled;
    var s, st := ss[b - 1], steps[b - 1];
    if b == a + 1 {
      StartMoves(c, s, st);
      forall u | u in ActiveUuids(s.rows)
        ensures u in DueUuids(s.rows, s.now)
      {}
    } else {
      DrainRun(c, ss, steps, a, b - 1);
      DrainStep(c, s, st);
    }
  }

  /** One sweep begun after spawns and kills have finished and every expiry and boot window
      has passed leaves, when it ends, no active row; and under the operating assumptions
      no container either. */
  lemma OneSweepDrains(c: Config, ss: seq<State>, steps: seq<Step>, a: nat, b: nat)
    requires OnlySweep(c, ss, steps, a, b) && Settled(c, ss[a]) && ss[b].sweep == NoSweep
    ensures ActiveUuids(ss[b].rows) == {}
    ensures BenignRun(c, ss, steps) ==> ss[b].fleet == map[]
  {
    hide Next, Enabled, Benign;
    DrainRun(c, ss, steps, a, b);
    if BenignRun(c, ss, steps) && ss[b].fleet != map[] {
      var x :| x in ss[b].fleet;
      NoOrphans(c, ss, steps, b, x);
      assert forall u | u in ss[b].rows :: u !in ActiveUuids(ss[b].rows) && !CleaningUp(ss[b], u);
    }
  }

  /** How many more steps a sweep takes at most. */
  function Remaining(w: SweepPc): nat {
    if w.NoSweep? then 0 else 2 * |w.queue| + 1 - (if w.removed && |w.queue| > 0 then 1 else 0)
  }

  /** A sweep under way can always take a step of its own, and each one brings its end nearer. */
  lemma SweepTerminates(c: Config, s: State)
    requires s.sweep.Sweeping? && (s.sweep.removed ==> s.sweep.queue != [])
    ensures exists st ::
      && Enabled(c, s, st) && (st.SweepSkip? || st == SweepRemove(true) || st.SweepWrite? || st.SweepEnd?)
      && Remaining(Next(c, s, st).sweep) < Remaining(s.sweep)
  {
    var st :=
      if s.sweep.queue == [] then SweepEnd
      else if s.sweep.removed then SweepWrite
      else if Protected(c, s.sweep.start, s.sweep.queue[0].row) then SweepSkip
      else SweepRemove(true);
    assert Enabled(c, s, st) && Remaining(Next(c, s, st).sweep) < Remaining(s.sweep);
  }

  // ---- the steps and the loop agree ----

  /** Sweep, registry and fleet after the first `k` rows of a queue, from the state `s0`. */
  ghost predicate SoloAt(c: Config, s0: State, s: State, queue: seq<Record>, k: nat) {
    && k <= |queue| && SweepAt(c, s.sweep, queue, s0.now, k, Reapable(c, s0.now, queue[..k]))
    && s.rows == Expire(s0.rows, Reapable(c, s0.now, queue[..k]))
    && s.fleet == Without(s0.fleet, Reapable(c, s0.now, queue[..k]) + (if s.sweep.removed then {queue[k].uuid} else {}))
  }

  lemma SoloMoves(c: Config, s: State, st: Step)
    requires Enabled(c, s, st) && Benign(c, s, st) && Owned(c, s)
    requires st.Tick? || st.SweepSkip? || st.SweepRemove? || st.SweepWrite? || st.SweepEnd?
    ensures st.SweepRemove? ==>
      AtRow(s) && !s.sweep.removed && Next(c, s, st).fleet == Others(s.fleet, s.sweep.queue[0].uuid)
    ensures !st.SweepRemove? ==> Next(c, s, st).fleet == s.fleet
  {
    hide Owned;
    if st.SweepRemove? {
      hide Remove, RemoveRef;
      RemovalMoves(c, s, st);
    }
  }

  lemma SoloStep(c: Config, s0: State, s: State, st: Step, queue: seq<Record>, k: nat) returns (k': nat)
    requires Enabled(c, s, st) && Benign(c, s, st) && Owned(c, s) && SoloAt(c, s0, s, queue, k)
    requires st.Tick? || st.SweepSkip? || st.SweepRemove? || st.SweepWrite?
    requires forall r | r in queue :: r.uuid in s0.rows
    ensures SoloAt(c, s0, Next(c, s, st), queue, k')
  {
    hide Next, Enabled, Benign, Owned;
    QueueMoves(c, s, st);
    DrainMoves(c, s, st);
    SoloMoves(c, s, st);
    var done := Reapable(c, s0.now, queue[..k]);
    k' := k;
    if st.SweepSkip? || st.SweepWrite? {
      ReapableGrows(c, s0.now, queue, k);
      assert s.sweep.queue[0] == queue[k] && queue[k + 1..] == queue[k..][1..];
      k' := k + 1;
      assert queue[k] in queue;
      ExpireOne(s0.rows, done, queue[k].uuid);
    } else if st.SweepRemove? {
      WithoutOne(s0.fleet, done, queue[k].uuid);
    }
  }

  lemma {:induction false} SoloRun(c: Config, ss: seq<State>, steps: seq<Step>, a: nat, b: nat, queue: seq<Record>)
    returns (k: nat)
    requires OnlySweep(c, ss, steps, a, b) && BenignRun(c, ss, steps) && steps[a] == SweepStart(queue)
    requires forall j | a < j < b :: !steps[j].SweepEnd?
    ensures SoloAt(c, ss[a], ss[b], queue, k)
    decreases b
  {
    hide Next, Enabled, Benign, Owned;
    StartMoves(c, ss[a], steps[a]);
    if b == a + 1 {
      k := 0;
      assert queue[..0] == [];
      StartOfSweep(ss[a].rows, ss[a].fleet);
    } else {
      k := SoloRun(c, ss, steps, a, b - 1, queue);
      OwnedAlways(c, ss, steps, b - 1);
      k := SoloStep(c, ss[a], ss[b - 1], steps[b - 1], queue, k);
    }
  }

  /** A sweep with nothing in between but the clock has, step by step, the effect that
      `Reaper.Sweep` promises for the loop. */
  lemma StepsMatchLoop(c: Config, ss: seq<State>, steps: seq<Step>, a: nat, b: nat)
    requires OnlySweep(c, ss, steps, a, b) && BenignRun(c, ss, steps) && b < |steps| && steps[b] == SweepEnd
    requires forall j | a < j < b :: !steps[j].SweepEnd?
    ensures ss[b + 1].rows == Expire(ss[a].rows, Taken(c, ss[a].rows, ss[a].now))
    ensures ss[b + 1].fleet == Without(ss[a].fleet, Taken(c, ss[a].rows, ss[a].now))
  {
    hide Next, Enabled, Benign;
    var queue := steps[a].queue;
    var k := SoloRun(c, ss, steps, a, b, queue);
    StartMoves(c, ss[a], steps[a]);
    DrainMoves(c, ss[b], steps[b]);
    OwnedAlways(c, ss, steps, b);
    SoloMoves(c, ss[b], steps[b]);
    TakenIsReapable(c, ss[a].rows, ss[a].now, queue);
    assert queue[..k] == queue;
  }
}
