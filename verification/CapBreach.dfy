/** The caps do not hold outright: a run that meets every operating assumption, with room
    for one instance, ends with two active rows from one address. */
module CapBreach {
  import opened Wrappers
  import opened Configuration
  import opened Docker
  import opened Registries
  import opened Lifecycle
  import opened Caps
  import opened Orphans

  const Room: Config := Config("host", 8080, "sui-inst", 10, 5, None, 1, 1, "pool", "server_issued")
  const Id: Cid := seq(64, _ => '0')
  const Answer: Ready := Ready("0xpkg", "key", "0xplayer", "0xdeployer", [])
  const First: Row := ReservedRow(Room, "ip", "u", 0.0, 0.0)

  /** Spawn `u` boots slower than its lifetime; the reaper takes it after its boot window
      while its completed ready.json is on the way; `v` gets the freed place; then `u`
      reports success. */
  const Story: seq<Step> := [
    Reserve("ip", "u", 0.0), Launch("u", Id), RecordContainer("u"), LoopHead("u"), Tick(11.0),
    SweepStart([Record("u", First.WithContainer(Id))]), ReadEffect("u", Some(Answer)), SweepRemove(true), SweepWrite,
    Reserve("ip", "v", 11.0), ReadResume("u")]

  const Box: Fleet := map[Id := Container(Room.ContainerName("u"), Some("u"))]
  const Due: seq<Record> := [Record("u", First.WithContainer(Id))]

  const S1 := Genesis.(rows := map["u" := First], spawns := map["u" := Launching])
  const S2 := S1.(fleet := Box, born := map[Id := "u"], spawns := map["u" := Launched(Id)])
  const S3 := S2.(rows := map["u" := First.WithContainer(Id)], spawns := map["u" := AtHead(Id, 10.0, None)])
  const S4 := S3.(spawns := map["u" := Reading(Id, 10.0)])
  const S5 := S4.(now := 11.0)
  const S6 := S5.(sweep := Sweeping(11.0, Due, false))
  const S7 := S6.(spawns := map["u" := ReadDone(Id, 10.0, Some(Answer))])
  const S8 := S7.(fleet := map[], sweep := Sweeping(11.0, Due, true))
  const S9 := S8.(rows := map["u" := First.WithContainer(Id).WithStatus(Expired, None)],
    sweep := Sweeping(11.0, [], false))
  const S10 := S9.(rows := S9.rows["v" := ReservedRow(Room, "ip", "v", 11.0, 11.0)],
                   spawns := map["u" := ReadDone(Id, 10.0, Some(Answer)), "v" := Launching])
  const S11 := S10.(rows := S10.rows["u" := S9.rows["u"].WithRunning(Room.RpcUrlFor("u"), Answer)],
                    spawns := map["v" := Launching], returned := {"u"}, revived := {"u"})

  const States: seq<State> := [Genesis, S1, S2, S3, S4, S5, S6, S7, S8, S9, S10, S11]

  ghost predicate Goes(s: State, st: Step, t: State) {
    Enabled(Room, s, st) && Benign(Room, s, st) && Next(Room, s, st) == t
  }

  lemma Booting()
    ensures Goes(Genesis, Story[0], S1) && Goes(S1, Story[1], S2) && Goes(S2, Story[2], S3) && Goes(S3, Story[3], S4)
  {
    assert ActiveUuids(Genesis.rows) == {} && ActiveUuidsFor(Genesis.rows, "ip") == {};
  }

  lemma Snapshotting()
    ensures Goes(S4, Story[4], S5) && Goes(S5, Story[5], S6)
  {
    assert DueUuids(S5.rows, 11.0) == {"u"};
    assert Due[0].uuid == "u";
  }

  lemma Reaping()
    ensures Goes(S6, Story[6], S7) && Goes(S7, Story[7], S8)
  {
    assert RemoveRef(Box, Id) == map[];
  }

  lemma Expiring()
    ensures Goes(S8, Story[8], S9)
  {
    assert Due[1..] == [];
  }

  lemma Replacing()
    ensures Goes(S9, Story[9], S10)
  {
    assert ActiveUuids(S9.rows) == {} && ActiveUuidsFor(S9.rows, "ip") == {};
  }

  lemma Reviving()
    ensures Goes(S10, Story[10], S11)
  {
    assert S10.spawns - {"u"} == map["v" := Launching];
  }

  lemma StoryGoes(i: nat)
    requires i < |Story|
    ensures Goes(States[i], Story[i], States[i + 1])
  {
    hide Goes, Next, Enabled, Benign;
    Booting();
    Snapshotting();
    Reaping();
    Expiring();
    Replacing();
    Reviving();
  }

  lemma StoryRuns()
    ensures BenignRun(Room, States, Story)
  {
    hide Next, Enabled, Benign;
    var ss, steps := States, Story;
    assert ss[0] == Genesis && |ss| == |steps| + 1;
    hide States, Story;
    forall i | 0 <= i < |steps|
      ensures Enabled(Room, ss[i], steps[i]) && ss[i + 1] == Next(Room, ss[i], steps[i]) &&
        Benign(Room, ss[i], steps[i])
    {
      StoryGoes(i);
    }
  }

  /** Even under the operating assumptions a cap of one, total and per address, can be
      exceeded; with `CapBrokenIff` this is the only way. */
  lemma CapsCanBreak()
    ensures BenignRun(Room, States, Story)
    ensures Cap(Room, None) == Cap(Room, Some("ip")) == 1
    ensures ActiveUuids(States[11].rows) == ActiveUuidsFor(States[11].rows, "ip") == {"u", "v"}
    ensures States[11].rows["u"].status == Running && !HasContainer(States[11], "u")
  {
    StoryRuns();
    hide BenignRun;
    assert S11.rows["u"].IsActive() && S11.rows["v"].IsActive();
  }
}
