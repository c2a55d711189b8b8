/** Where the columns of a running row come from, over whole runs: one answer of the row's
    own instance. */
module Provenance {
  import opened Wrappers
  import opened Configuration
  import opened Docker
  import opened Registries
  import opened Lifecycle
  import opened Ownership
  import opened History

  /** The answer a spawn holds, if it is polling. */
  function Held(pc: SpawnPc): Option<Ready> {
    match pc
    case AtHead(_, _, ready) => ready
    case ReadDone(_, _, ready) => ready
    case Checking(_, _, ready) => ready
    case Checked(_, _, ready, _) => ready
    case _ => None
  }

  /** A step reads `answer` out of container `cid` for the spawn of `u`. */
  ghost predicate Reads(s: State, st: Step, u: Uuid, cid: Cid, answer: Ready) {
    && st == ReadEffect(u, Some(answer)) && u in s.spawns && s.spawns[u].Reading? && s.spawns[u].cid == cid
    && cid in s.fleet
  }

  ghost predicate ReadBefore(ss: seq<State>, steps: seq<Step>, i: nat, u: Uuid, cid: Cid, answer: Ready)
    requires i <= |steps| < |ss|
  {
    exists j :: 0 <= j < i && Reads(ss[j], steps[j], u, cid, answer)
  }

  lemma HeldMoves(c: Config, s: State, st: Step, u: Uuid)
    requires Enabled(c, s, st) && SpawnOf(st) == Some(u) && u in s.spawns && u in s.rows
    requires u in Next(c, s, st).spawns && Held(Next(c, s, st).spawns[u]).Some?
    ensures var pc := Next(c, s, st).spawns[u];
      || (Held(s.spawns[u]) == Held(pc) && s.spawns[u].cid == pc.cid)
      || Reads(s, st, u, pc.cid, Held(pc).value)
  {}

  /** Whatever a spawn holds or has written to its row came out of its own container. */
  ghost predicate Sourced(c: Config, ss: seq<State>, steps: seq<Step>, i: nat, u: Uuid)
    requires i <= |steps| < |ss|
  {
    && (u in ss[i].spawns && Held(ss[i].spawns[u]).Some? ==>
          ReadBefore(ss, steps, i, u, ss[i].spawns[u].cid, Held(ss[i].spawns[u]).value))
    && (u in ss[i].rows && ss[i].rows[u].status == Running ==>
          && ss[i].rows[u].containerId.Some?
          && exists answer ::
               && ReadBefore(ss, steps, i, u, ss[i].rows[u].containerId.value, answer)
               && ss[i].rows[u] == ss[i].rows[u].WithRunning(c.RpcUrlFor(u), answer))
  }

  lemma ReadEarlier(ss: seq<State>, steps: seq<Step>, i: nat, u: Uuid, cid: Cid, answer: Ready)
    requires i < |steps| < |ss|
    requires ReadBefore(ss, steps, i, u, cid, answer) || Reads(ss[i], steps[i], u, cid, answer)
    ensures ReadBefore(ss, steps, i + 1, u, cid, answer)
  {
    hide Reads;
    if Reads(ss[i], steps[i], u, cid, answer) {
      assert 0 <= i < i + 1;
    }
  }

  lemma HeldStep(c: Config, ss: seq<State>, steps: seq<Step>, i: nat, u: Uuid)
    requires Run(c, ss, steps) && i < |steps| && Sourced(c, ss, steps, i, u)
    requires u in ss[i + 1].spawns && Held(ss[i + 1].spawns[u]).Some?
    ensures ReadBefore(ss, steps, i + 1, u, ss[i + 1].spawns[u].cid, Held(ss[i + 1].spawns[u]).value)
  {
    hide Next, Enabled, ReadBefore, Reads;
    var s, st, pc := ss[i], steps[i], ss[i + 1].spawns[u];
    SpawnMoves(c, s, st, u);
    if u !in s.spawns {
      FreshSpawn(c, s, st, u);
    } else {
      OwnedAlways(c, ss, steps, i);
      assert SpawnOk(s, u, s.spawns[u]);
      if SpawnOf(st) == Some(u) {
        HeldMoves(c, s, st, u);
      }
    }
    ReadEarlier(ss, steps, i, u, pc.cid, Held(pc).value);
  }

  lemma WrittenStep(c: Config, ss: seq<State>, steps: seq<Step>, i: nat, u: Uuid) returns (answer: Ready)
    requires Run(c, ss, steps) && i < |steps| && Sourced(c, ss, steps, i, u)
    requires u in ss[i + 1].rows && ss[i + 1].rows[u].status == Running
    ensures ss[i + 1].rows[u].containerId.Some?
    ensures ReadBefore(ss, steps, i + 1, u, ss[i + 1].rows[u].containerId.value, answer)
    ensures ss[i + 1].rows[u] == ss[i + 1].rows[u].WithRunning(c.RpcUrlFor(u), answer)
  {
    hide Next, Enabled, ReadBefore, Reads;
    var s, st, row := ss[i], steps[i], ss[i + 1].rows[u];
    RowMoves(c, s, st, u);
    OwnedAlways(c, ss, steps, i);
    if u in s.spawns {
      assert SpawnOk(s, u, s.spawns[u]);
    }
    if s.rows[u].status == Running {
      answer :| ReadBefore(ss, steps, i, u, row.containerId.value, answer) &&
        row == row.WithRunning(c.RpcUrlFor(u), answer);
    } else {
      answer := s.spawns[u].ready.value;
    }
    ReadEarlier(ss, steps, i, u, row.containerId.value, answer);
  }

  lemma {:induction false} SourcedAlways(c: Config, ss: seq<State>, steps: seq<Step>, i: nat, u: Uuid)
    requires Run(c, ss, steps) && i < |ss|
    ensures Sourced(c, ss, steps, i, u)
  {
    hide Next, Enabled, ReadBefore;
    if i > 0 {
      SourcedAlways(c, ss, steps, i - 1, u);
      if u in ss[i].spawns && Held(ss[i].spawns[u]).Some? {
        HeldStep(c, ss, steps, i - 1, u);
      }
      if u in ss[i].rows && ss[i].rows[u].status == Running {
        var answer := WrittenStep(c, ss, steps, i - 1, u);
      }
    }
  }

  lemma ReadsOwn(c: Config, s: State, st: Step, u: Uuid, cid: Cid, answer: Ready)
    requires Owned(c, s) && Reads(s, st, u, cid, answer)
    ensures st == ReadEffect(u, Some(answer)) && cid in s.fleet && s.fleet[cid].uuid == Some(u)
  {
    hide KillsOk, SweepOk, ReturnedOk;
    assert SpawnOk(s, u, s.spawns[u]) && RowOk(c, s, u);
  }

  /** A player is never shown another instance's key or package: the address, key, package
      and objects of a running row are those of one answer that its own spawn read out of
      its own container. */
  lemma RunningRowsSourced(c: Config, ss: seq<State>, steps: seq<Step>, i: nat, u: Uuid)
    requires Run(c, ss, steps) && i < |ss| && u in ss[i].rows && ss[i].rows[u].status == Running
    ensures exists j, answer ::
      && 0 <= j < i && steps[j] == ReadEffect(u, Some(answer))
      && ss[i].rows[u].containerId.Some? && ss[i].rows[u].containerId.value in ss[j].fleet
      && ss[j].fleet[ss[i].rows[u].containerId.value].uuid == Some(u)
      && ss[i].rows[u].rpcUrl == Some(c.RpcUrlFor(u))
      && ss[i].rows[u].playerAddress == Some(answer.playerAddress) &&
        ss[i].rows[u].playerPrivkey == Some(answer.privateKey)
      && ss[i].rows[u].deployerAddress == Some(answer.deployerAddress) &&
        ss[i].rows[u].packageId == Some(answer.packageId)
      && ss[i].rows[u].objects == answer.objects
  {
    hide Next, Enabled;
    SourcedAlways(c, ss, steps, i, u);
    var row := ss[i].rows[u];
    var cid := row.containerId.value;
    var answer :| ReadBefore(ss, steps, i, u, cid, answer) && row == row.WithRunning(c.RpcUrlFor(u), answer);
    var j :| 0 <= j < i && Reads(ss[j], steps[j], u, cid, answer);
    OwnedAlways(c, ss, steps, j);
    hide Owned, Sourced, ReadBefore;
    ReadsOwn(c, ss[j], steps[j], u, cid, answer);
  }
}
