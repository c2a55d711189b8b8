/** What each decision of a booting spawn rests on, one step at a time and over whole runs. */
module Decisions {
  import opened Wrappers
  import opened Configuration
  import opened Docker
  import opened Registries
  import opened Lifecycle
  import opened Ownership
  import opened History

  /** The answer ends the polling exactly if it names a package and a private key. */
  lemma BreakIff(c: Config, s: State, u: Uuid)
    requires u in s.spawns && s.spawns[u].ReadDone?
    ensures Enabled(c, s, ReadResume(u))
    ensures var ready, t := s.spawns[u].ready, Next(c, s, ReadResume(u));
      && (u !in t.spawns <==> ready.Some? && ready.value.packageId != "" && ready.value.privateKey != "")
      && (u in t.spawns ==> t.spawns[u].Checking? && t.rows == s.rows)
  {}

  /** Before the deadline the spawn polls again; from the deadline on it succeeds exactly if
      the last answer names a package, with or without a key, and raises otherwise. */
  lemma DeadlineIff(c: Config, s: State, u: Uuid)
    requires u in s.spawns && s.spawns[u].AtHead?
    ensures Enabled(c, s, LoopHead(u))
    ensures var pc, t := s.spawns[u], Next(c, s, LoopHead(u));
      && (u in t.spawns && t.spawns[u].Reading? <==> s.now < pc.deadline)
      && (u !in t.spawns <==> s.now >= pc.deadline && pc.ready.Some? && pc.ready.value.packageId != "")
      && (u in t.spawns && !t.spawns[u].Reading? ==> t.spawns[u] == Raising(pc.cid, "instance not ready in time"))
  {}

  /** The container counts as gone. */
  predicate SaysGone(status: Option<string>) {
    status == None || status == Some("exited") || status == Some("dead")
  }

  /** The spawn gives up on its container exactly if there is none or it exited or died;
      with any other status it goes on polling until the same deadline. */
  lemma GoneIff(c: Config, s: State, u: Uuid)
    requires u in s.spawns && s.spawns[u].Checked?
    ensures Enabled(c, s, StatusResume(u))
    ensures var pc, t := s.spawns[u], Next(c, s, StatusResume(u));
      t == At(s, u, if SaysGone(pc.status) then Raising(pc.cid, "container exited during boot")
                    else AtHead(pc.cid, pc.deadline, pc.ready))
  {}

  // ---- over whole runs ----

  ghost predicate AsksStatus(s: State, st: Step, u: Uuid, cid: Cid, status: Option<string>) {
    st == StatusEffect(u, status) && u in s.spawns && s.spawns[u].Checking? && s.spawns[u].cid == cid
  }

  ghost predicate Asked(ss: seq<State>, steps: seq<Step>, i: nat, u: Uuid, cid: Cid, status: Option<string>)
    requires i <= |steps| < |ss|
  {
    exists j :: 0 <= j < i && AsksStatus(ss[j], steps[j], u, cid, status)
  }

  /** The spawn finds its deadline passed and the last answer without a package. */
  ghost predicate FindsLate(s: State, st: Step, u: Uuid) {
    && st == LoopHead(u) && u in s.spawns && s.spawns[u].AtHead? && s.now >= s.spawns[u].deadline
    && (s.spawns[u].ready.None? || s.spawns[u].ready.value.packageId == "")
  }

  ghost predicate WasLate(ss: seq<State>, steps: seq<Step>, i: nat, u: Uuid)
    requires i <= |steps| < |ss|
  {
    exists j :: 0 <= j < i && FindsLate(ss[j], steps[j], u)
  }

  ghost predicate ExitSeen(ss: seq<State>, steps: seq<Step>, i: nat, u: Uuid, cid: Cid)
    requires i <= |steps| < |ss|
  {
    exists status :: SaysGone(status) && Asked(ss, steps, i, u, cid, status)
  }

  ghost predicate Explained(ss: seq<State>, steps: seq<Step>, i: nat, u: Uuid)
    requires i <= |steps| < |ss|
  {
    u in ss[i].spawns ==>
      var pc := ss[i].spawns[u];
      && (pc.Checked? ==> Asked(ss, steps, i, u, pc.cid, pc.status))
      && (pc.Raising? ==>
            || (pc.message == "container exited during boot" && ExitSeen(ss, steps, i, u, pc.cid))
            || (pc.message == "instance not ready in time" && WasLate(ss, steps, i, u)))
  }

  lemma ReasonMoves(c: Config, s: State, st: Step, u: Uuid)
    requires Enabled(c, s, st) && SpawnOf(st) == Some(u) && u in s.spawns && u in s.rows && u in Next(c, s, st).spawns
    ensures var pc, was := Next(c, s, st).spawns[u], s.spawns[u];
      && (pc.Checked? ==> pc == was || AsksStatus(s, st, u, pc.cid, pc.status))
      && (pc.Raising? ==>
            || pc == was
            || (pc.message == "container exited during boot" && was.Checked? && was.cid == pc.cid &&
              SaysGone(was.status))
            || (pc.message == "instance not ready in time" && FindsLate(s, st, u)))
  {}

  lemma ExplainedStep(c: Config, ss: seq<State>, steps: seq<Step>, i: nat, u: Uuid)
    requires Run(c, ss, steps) && i < |steps| && Explained(ss, steps, i, u)
    requires u in ss[i + 1].spawns && (ss[i + 1].spawns[u].Checked? || ss[i + 1].spawns[u].Raising?)
    ensures Explained(ss, steps, i + 1, u)
  {
    hide Next, Enabled, AsksStatus, FindsLate, SaysGone;
    var s, st, pc := ss[i], steps[i], ss[i + 1].spawns[u];
    SpawnMoves(c, s, st, u);
    if u !in s.spawns {
      FreshSpawn(c, s, st, u);
    } else {
      OwnedAlways(c, ss, steps, i);
      assert SpawnOk(s, u, s.spawns[u]);
      if SpawnOf(st) == Some(u) {
        ReasonMoves(c, s, st, u);
      }
      if pc.Checked? && pc != s.spawns[u] {
        assert 0 <= i < i + 1 && AsksStatus(ss[i], steps[i], u, pc.cid, pc.status);
      }
      if pc.Raising? && FindsLate(s, st, u) {
        assert 0 <= i < i + 1 && FindsLate(ss[i], steps[i], u);
      }
    }
    Earlier(ss, steps, i, u);
  }

  lemma Earlier(ss: seq<State>, steps: seq<Step>, i: nat, u: Uuid)
    requires i < |steps| < |ss|
    ensures forall cid, status :: Asked(ss, steps, i, u, cid, status) ==> Asked(ss, steps, i + 1, u, cid, status)
    ensures forall cid :: ExitSeen(ss, steps, i, u, cid) ==> ExitSeen(ss, steps, i + 1, u, cid)
    ensures WasLate(ss, steps, i, u) ==> WasLate(ss, steps, i + 1, u)
  {
    hide AsksStatus, FindsLate, SaysGone;
    forall cid, status | Asked(ss, steps, i, u, cid, status)
      ensures Asked(ss, steps, i + 1, u, cid, status)
    {
      var j :| 0 <= j < i && AsksStatus(ss[j], steps[j], u, cid, status);
      assert 0 <= j < i + 1;
    }
    forall cid | ExitSeen(ss, steps, i, u, cid)
      ensures ExitSeen(ss, steps, i + 1, u, cid)
    {
      var status :| SaysGone(status) && Asked(ss, steps, i, u, cid, status);
      assert Asked(ss, steps, i + 1, u, cid, status);
    }
  }

  lemma {:induction false} ExplainedAlways(c: Config, ss: seq<State>, steps: seq<Step>, i: nat, u: Uuid)
    requires Run(c, ss, steps) && i < |ss|
    ensures Explained(ss, steps, i, u)
  {
    hide Next, Enabled, Asked, ExitSeen, WasLate;
    if i > 0 {
      ExplainedAlways(c, ss, steps, i - 1, u);
      if u in ss[i].spawns && (ss[i].spawns[u].Checked? || ss[i].spawns[u].Raising?) {
        ExplainedStep(c, ss, steps, i - 1, u);
      }
    }
  }

  /** No spawn raises without a reason: in every run it has either been told by the daemon
      that its own container is gone, or found its deadline passed with no package named. */
  lemma RaisesForReason(c: Config, ss: seq<State>, steps: seq<Step>, i: nat, u: Uuid)
    requires Run(c, ss, steps) && i < |ss| && u in ss[i].spawns && ss[i].spawns[u].Raising?
    ensures
      || (ss[i].spawns[u].message == "container exited during boot" && ExitSeen(ss, steps, i, u, ss[i].spawns[u].cid))
      || (ss[i].spawns[u].message == "instance not ready in time" && WasLate(ss, steps, i, u))
  {
    hide Next, Enabled, ExitSeen, WasLate;
    ExplainedAlways(c, ss, steps, i, u);
  }
}
