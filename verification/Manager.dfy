/** The instance manager's coroutines. At every await other tasks take any number of their
    own steps. The manager keeps the run it is part of: between two awaits, what the code
    does to registry, fleet and clock is exactly what the steps it adds to that run do. */
module Manager {
  import opened Wrappers
  import opened Configuration
  import opened Docker
  import opened Registries
  import opened Lifecycle
  import opened Ownership
  import opened Interference
  import opened Segments

  datatype SpawnError = Refused(why: Refusal) | DuplicateKey | StartFailed

  /** Why a boot failed, with the text of the exception where others choose it. */
  datatype BootError = LaunchRaised(why: string) | CallRaised(why: string) | ContainerExited | Late

  function Message(e: BootError): string {
    match e
    case LaunchRaised(why) => why
    case CallRaised(why) => why
    case ContainerExited => Exited
    case Late => NotReady
  }

  /** The text a failed boot leaves in the row's error column. */
  lemma MessagesAre(why: string)
    ensures Message(LaunchRaised(why)) == Message(CallRaised(why)) == why
    ensures Message(ContainerExited) == "container exited during boot" && Message(Late) == "instance not ready in time"
  {}

  /** Where a spawn stands when it raises `e`. */
  predicate RaisedAt(pc: SpawnPc, e: BootError) {
    match e
    case LaunchRaised(why) => pc == LaunchFailed(why)
    case CallRaised(_) => pc.Reading? || pc.Checking? || pc.Raising?
    case ContainerExited => pc.Raising? && pc.message == Exited
    case Late => pc.Raising? && pc.message == NotReady
  }

  datatype PlayerView = PlayerView(
    uuid: Uuid, rpcUrl: Option<string>, privateKey: Option<string>, playerAddress: Option<string>,
    packageId: Option<string>, objects: seq<ChainObject>, expiresAt: int, secondsRemaining: nat, challenge: string)

  /** `int(x)` of a float: truncation toward zero. */
  function Truncate(x: real): int {
    if x < 0.0 then -((-x).Floor) else x.Floor
  }

  function ViewOf(u: Uuid, row: Row, now: real): PlayerView {
    PlayerView(u, row.rpcUrl, row.playerPrivkey, row.playerAddress, row.packageId, row.objects,
               Truncate(row.expiresAt),
               if row.expiresAt - now < 0.0 then 0 else Truncate(row.expiresAt - now), row.challenge)
  }

  /** `n` is `x` without its fraction: less than one away, on the side of zero. */
  predicate WholeSeconds(x: real, n: int) {
    if x >= 0.0 then n as real <= x < n as real + 1.0 else n as real - 1.0 < x <= n as real
  }

  lemma ViewIsRow(u: Uuid, row: Row, now: real)
    ensures var v := ViewOf(u, row, now);
      && v.uuid == u && v.rpcUrl == row.rpcUrl && v.privateKey == row.playerPrivkey &&
        v.playerAddress == row.playerAddress
      && v.packageId == row.packageId && v.objects == row.objects && v.challenge == row.challenge
      && WholeSeconds(row.expiresAt, v.expiresAt)
      && (if row.expiresAt <= now then v.secondsRemaining == 0
        else WholeSeconds(row.expiresAt - now, v.secondsRemaining))
  {}

  // ---- what ownership says about a waiting task ----

  lemma LaunchingFacts(c: Config, s: State, u: Uuid)
    requires Owned(c, s) && u in s.spawns && (s.spawns[u].Launching? || s.spawns[u].LaunchFailed?)
    ensures u in s.rows && s.rows[u].containerId == None && s.rows[u].status != Running
    ensures s.spawns[u].Launching? ==> forall x | x in s.born :: s.born[x] != u
  {
    assert SpawnOk(s, u, s.spawns[u]);
  }

  lemma BootingFacts(c: Config, s: State, u: Uuid)
    requires Owned(c, s) && u in s.spawns && !s.spawns[u].Launching? && !s.spawns[u].LaunchFailed?
    ensures u in s.rows && s.rows[u].status != Running
    ensures var cid := s.spawns[u].cid;
      IsCid(cid) && cid in s.born && s.born[cid] == u && (!s.spawns[u].Launched? ==> s.rows[u].containerId == Some(cid))
  {
    assert SpawnOk(s, u, s.spawns[u]) && RowOk(c, s, u);
  }

  lemma NewRowIsIdle(c: Config, s: State, u: Uuid)
    requires Owned(c, s) && u !in s.rows
    ensures u !in s.spawns && forall x | x in s.born :: s.born[x] != u
  {
    assert u in s.spawns ==> SpawnOk(s, u, s.spawns[u]);
  }

  lemma ContainersAreBorn(c: Config, s: State)
    requires Owned(c, s)
    ensures forall x | x in s.fleet :: x in s.born && s.fleet[x].uuid == Some(s.born[x])
  {}

  lemma TakenByCleanUp(c: Config, s: State, u: Uuid, up: bool)
    requires Owned(c, s) && u in s.spawns && s.spawns[u].Removing?
    ensures Remove(s, Some(s.spawns[u].cid), None, up) == if up then Others(s.fleet, u) else s.fleet
  {
    hide Owned, Remove;
    CleanUpRemoval(c, s, u, up);
  }

  lemma TakenByKill(c: Config, s: State, k: nat, up: bool)
    requires Owned(c, s) && k in s.kills
    ensures KillRemoval(s, k, up) == if up then Others(s.fleet, s.kills[k].uuid) else s.fleet
  {
    hide Remove, FleetOk, RowsOk, SpawnsOk, SweepOk, ReturnedOk, LimboOk;
    SnapshotRemoval(c, s, s.kills[k].uuid, s.kills[k].row, up);
  }

  class InstanceManager {
    const cfg: Config
    const reg: Registry
    const docker: DockerManager
    var clock: real
    var world: State            // registry, fleet and clock again, with every task of the event loop
    ghost const start: State    // where the run so far began,
    ghost var ss: seq<State>    // its states, up to `world`,
    ghost var steps: seq<Step>  // and its steps

    /** From any registry and fleet in which ownership holds, with no task under way. */
    constructor (c: Config, r: Registry, d: DockerManager, s: State)
      requires Owned(c, s) && r.rows == s.rows && d.fleet == s.fleet && d.born == s.born
      ensures Valid() && cfg == c && reg == r && docker == d && world == start == s && steps == []
    {
      cfg, reg, docker, clock, world := c, r, d, s.now, s;
      start, ss, steps := s, [s], [];
    }

    ghost predicate Traced()
      reads this
    {
      |ss| == |steps| + 1 && Path(cfg, ss, steps) && ss[0] == start && ss[|steps|] == world && Owned(cfg, world)
    }

    ghost predicate Agrees()
      reads this, reg, docker
    {
      world.now == clock && world.rows == reg.rows && world.fleet == docker.fleet && world.born == docker.born
    }

    /** The run so far is one, and registry, fleet and clock are as it says. */
    ghost predicate Valid()
      reads this, reg, docker
    {
      Traced() && Agrees()
    }

    /** The spawn of `u` stands at `pc`. */
    ghost predicate Holds(u: Uuid, pc: SpawnPc)
      reads this
    {
      u in world.spawns && world.spawns[u] == pc
    }

    /** The instance `u` with container `cid` recorded, while its own spawn still runs. */
    ghost predicate Booting(u: Uuid, cid: Cid)
      reads this, reg, docker
    {
      && Valid() && u in world.spawns && cid in docker.born && docker.born[cid] == u
      && u in reg.rows && reg.rows[u].containerId == Some(cid) && reg.rows[u].status != Running
    }

    /** `u` is reserved and no container id is recorded for it. */
    ghost predicate Unrecorded(u: Uuid)
      reads this, reg, docker
    {
      Valid() && u in reg.rows && reg.rows[u].containerId == None && reg.rows[u].status != Running
    }

    /** Nor was a container ever launched for it. */
    ghost predicate Unlaunched(u: Uuid)
      reads this, reg, docker
    {
      Unrecorded(u) && forall x | x in docker.born :: docker.born[x] != u
    }

    /** The columns of the row of `u` that no update names. */
    ghost function Columns(u: Uuid): Option<(string, string, string, real, real, string)>
      reads reg
    {
      if u in reg.rows then Some(reg.rows[u].Identity()) else None
    }

    ghost predicate NoContainer(u: Uuid)
      reads this, docker
    {
      forall x | x in docker.fleet :: docker.fleet[x].uuid != Some(u)
    }

    /** The row of a successful spawn: running, with its own container and url; key,
        addresses, package and objects are those of one answer that was read out of this
        very container, and the answer names a package. */
    ghost predicate Started(u: Uuid)
      reads reg, docker
    {
      && u in reg.rows && reg.rows[u].status == Running && reg.rows[u].rpcUrl == Some(cfg.RpcUrlFor(u))
      && reg.rows[u].containerId.Some? && reg.rows[u].containerId.value in docker.born
      && docker.born[reg.rows[u].containerId.value] == u
      && exists ready: Ready ::
           && (reg.rows[u].containerId.value, ready) in docker.answers && ready.packageId != ""
           && reg.rows[u].playerAddress == Some(ready.playerAddress)
           && reg.rows[u].playerPrivkey == Some(ready.privateKey)
           && reg.rows[u].deployerAddress == Some(ready.deployerAddress)
           && reg.rows[u].packageId == Some(ready.packageId) && reg.rows[u].objects == ready.objects
    }

    /** The row of `u` was inserted by a call that began at `began` for this caller: its name
        follows from the uuid, and it lives one lifetime from then. */
    ghost predicate ReservedFor(u: Uuid, ip: string, began: real)
      reads this, reg
    {
      && u in reg.rows
      && var row := reg.rows[u];
      && row.sourceIp == ip && row.challenge == cfg.challengeName && row.flagMode == cfg.flagMode
      && row.containerName == cfg.ContainerName(u)
      && began + cfg.Ttl() <= row.expiresAt <= row.createdAt + cfg.Ttl() && row.createdAt <= clock
    }

    // ---- the event loop ----

    /** Adds a step to the run. */
    method Advance(st: Step, ghost next: State)
      requires Traced() && Leads(cfg, world, st, next)
      modifies this`world, this`ss, this`steps
      ensures Traced() && world == next
      ensures ss == old(ss) + [world] && steps == old(steps) + [st]
    {
      hide Next, Enabled, Owned, Path;
      PathExtends(cfg, ss, steps, st);
      OwnedStep(cfg, world, st);
      world := Next(cfg, world, st);
      ss, steps := ss + [world], steps + [st];
    }

    /** A step of the polling spawn of `u` that changes nothing but its position. */
    method Move(u: Uuid, cid: Cid, st: Step, ghost pc: SpawnPc)
      requires Booting(u, cid) && Leads(cfg, world, st, At(world, u, pc))
      modifies this`world, this`ss, this`steps
      ensures Booting(u, cid) && Holds(u, pc) && world.now == old(world.now)
      ensures old(steps) <= steps
    {
      hide Leads, Owned, Path;
      Advance(st, At(world, u, pc));
    }

    /** A reading of the clock, which is taken to be monotone. */
    method ReadClock() returns (t: real)
      modifies this`clock
      ensures t == clock >= old(clock)
    {
      t := *;
      if t < clock {
        t := clock;
      }
      clock := t;
    }

    method Time() returns (t: real)
      requires Traced()
      modifies this`clock, this`world, this`ss, this`steps
      ensures Traced() && world == old(world).(now := t) && t == clock >= old(clock)
      ensures old(steps) <= steps
    {
      t := ReadClock();
      hide Owned, Path, Leads;
      TickLeads(cfg, world, t);
      Advance(Tick(t), world.(now := t));
    }

    /** The polling spawn of `u` reads the clock. */
    method TimeAt(u: Uuid, cid: Cid) returns (t: real)
      requires Booting(u, cid)
      modifies this`clock, this`world, this`ss, this`steps
      ensures Booting(u, cid) && Holds(u, old(world.spawns)[u]) && t == clock == world.now >= old(clock)
      ensures Columns(u) == old(Columns(u)) && old(steps) <= steps
    {
      hide Owned, Path;
      t := Time();
    }

    /** Control is given up: other tasks take any number of their steps. */
    method Yield(mine: Option<Uuid>, kill: Option<nat>)
      requires Valid() && (mine.Some? ==> mine.value in reg.rows)
      modifies this, reg, docker
      ensures Valid() && clock >= old(clock) && old(docker.answers) <= docker.answers
      ensures old(steps) <= steps
      ensures forall j | |old(steps)| <= j < |steps| :: Foreign(steps[j], mine, kill)
      ensures Rely(cfg, mine, old(reg.rows), old(docker.fleet), old(docker.born), reg.rows, docker.fleet, docker.born)
      ensures mine.Some? ==> (mine.value in world.spawns <==> mine.value in old(world.spawns))
      ensures mine.Some? && mine.value in old(world.spawns) ==> Holds(mine.value, old(world.spawns)[mine.value])
      ensures kill.Some? && kill.value in old(world.kills) ==>
        kill.value in world.kills && world.kills[kill.value] == old(world.kills)[kill.value]
    {
      hide Next, Enabled, Owned, Path;
      ghost var a := |steps|;
      var more: int := *;
      while more > 0
        invariant Traced() && world.now >= clock == old(clock)
        invariant old(steps) <= steps && a == |old(steps)| && ss[..a + 1] == old(ss)
        invariant forall j | a <= j < |steps| :: Foreign(steps[j], mine, kill)
        modifies this`world, this`ss, this`steps
      {
        more := more - 1;
        var st: Step := *;
        if Enabled(cfg, world, st) && Foreign(st, mine, kill) && Next(cfg, world, st).now >= world.now {
          Advance(st, Next(cfg, world, st));
        }
      }
      PathRely(cfg, ss, steps, a, |steps|, mine);
      PathWaits(cfg, ss, steps, a, |steps|, mine, kill);
      assert ss[a] == old(world);
      reg.rows, docker.fleet, docker.born, clock := world.rows, world.fleet, world.born, world.now;
      ghost var others: set<(Cid, Ready)> := *;
      docker.answers := docker.answers + others;
    }

    /** An await of the spawn of `u` once its container is recorded. */
    method Await(u: Uuid, cid: Cid)
      requires Booting(u, cid)
      modifies this, reg, docker
      ensures Valid() && Booting(u, cid) && u in reg.rows && Holds(u, old(world.spawns)[u])
      ensures Columns(u) == old(Columns(u)) && clock >= old(clock)
      ensures old(docker.answers) <= docker.answers && old(steps) <= steps
    {
      hide Consistent, Path, Owned;
      Yield(Some(u), None);
    }

    /** `asyncio.sleep`: an await that lasts at least so long. */
    method Sleep(u: Uuid, cid: Cid, seconds: real)
      requires Booting(u, cid)
      modifies this, reg, docker
      ensures Booting(u, cid) && Holds(u, old(world.spawns)[u])
      ensures Columns(u) == old(Columns(u)) && clock >= old(clock) + seconds
      ensures old(docker.answers) <= docker.answers && old(steps) <= steps
    {
      hide Path, Owned, Leads;
      var wake := clock + seconds;
      Await(u, cid);
      if clock < wake {
        clock := wake;
        TickLeads(cfg, world, wake);
        Advance(Tick(wake), world.(now := wake));
      }
    }

    // ---- spawn ----

    /** An await of the spawn of `u` around its launch. */
    method AwaitLaunch(u: Uuid)
      requires Unrecorded(u) && u in world.spawns
      modifies this, reg, docker
      ensures Unrecorded(u) && Holds(u, old(world.spawns)[u])
      ensures Columns(u) == old(Columns(u)) && clock >= old(clock)
      ensures old(Unlaunched(u)) ==> Unlaunched(u)
      ensures old(steps) <= steps
    {
      hide Consistent, Path, Owned;
      Yield(Some(u), None);
    }

    /** From the reservation to the recorded container id and the deadline. `clean` says that
        a launch that raises has created nothing. */
    method Launch(u: Uuid, clean: bool) returns (r: Result<(Cid, real), BootError>)
      requires Unlaunched(u) && Holds(u, Launching)
      modifies this, reg, docker
      ensures Valid() && u in reg.rows && Columns(u) == old(Columns(u)) && clock >= old(clock)
      ensures r.Success? ==>
        && Booting(u, r.value.0) && Holds(u, AtHead(r.value.0, r.value.1, None))
        && old(clock) + cfg.bootTimeout as real <= r.value.1 <= clock + cfg.bootTimeout as real
      ensures r.Failure? ==>
        && r.error.LaunchRaised? && Holds(u, LaunchFailed(r.error.why))
        && Unrecorded(u) && (clean ==> Unlaunched(u))
      ensures old(steps) <= steps
    {
      hide Path, Owned, Leads;
      AwaitLaunch(u);
      ghost var s, fleet, born := world, docker.fleet, docker.born;
      var launched, why, leftover := docker.RunInstance(u, cfg.ContainerName(u), clean);
      if launched.None? {
        FailLaunch(u, why, leftover, fleet, born);
        return Failure(LaunchRaised(why));
      }
      var cid := launched.value;
      LaunchLeads(cfg, s, u, cid);
      Advance(Step.Launch(u, cid), At(Create(cfg, s, u, cid), u, Launched(cid)));
      hide Create, At, IsLaunch;
      var deadline := Record(u, cid);
      return Success((cid, deadline));
    }

    /** The launch call raised; fleet and issued ids were as given before it. */
    method FailLaunch(u: Uuid, why: string, leftover: Option<Cid>, ghost fleet: Fleet, ghost born: map<Cid, Uuid>)
      requires Traced() && Holds(u, Launching) && world.now == clock && world.rows == reg.rows && u in reg.rows
      requires world.fleet == fleet && world.born == born
      requires leftover.None? ==> docker.fleet == fleet && docker.born == born
      requires leftover.Some? ==>
        IsLaunch(fleet, born, docker.fleet, docker.born, u, cfg.ContainerName(u), leftover.value)
      modifies this, reg, docker
      ensures Unrecorded(u) && Holds(u, LaunchFailed(why))
      ensures leftover.None? && (forall x | x in born :: born[x] != u) ==> Unlaunched(u)
      ensures Columns(u) == old(Columns(u)) && clock >= old(clock) && old(steps) <= steps
    {
      hide Path, Owned, Leads;
      ghost var s := world;
      LaunchFailsLeads(cfg, s, u, leftover, why);
      Advance(LaunchFails(u, leftover, why),
        At(if leftover.Some? then Create(cfg, s, u, leftover.value) else s, u, LaunchFailed(why)));
      LaunchingFacts(cfg, world, u);
      hide Create, At, IsLaunch;
      AwaitLaunch(u);
    }

    /** Records the id of the container once the launch call has returned it, and sets the
        deadline. */
    method Record(u: Uuid, cid: Cid) returns (deadline: real)
      requires Valid() && Holds(u, Launched(cid)) && u in reg.rows
      modifies this, reg, docker
      ensures Booting(u, cid) && Holds(u, AtHead(cid, deadline, None))
      ensures old(clock) + cfg.bootTimeout as real <= deadline <= clock + cfg.bootTimeout as real
      ensures Columns(u) == old(Columns(u)) && clock >= old(clock)
      ensures old(steps) <= steps
    {
      hide Path, Owned, Leads;
      AwaitRecord(u, cid);
      reg.PutContainer(u, cid);
      var t := Time();
      deadline := t + cfg.BootWindow();
      RecordLeads(cfg, world, u);
      Advance(RecordContainer(u), At(world.(rows := SetContainer(world.rows, u, cid)), u, AtHead(cid, deadline, None)));
      BootingFacts(cfg, world, u);
    }

    /** The await between the container's creation and the recording of its id. */
    method AwaitRecord(u: Uuid, cid: Cid)
      requires Valid() && Holds(u, Launched(cid)) && u in reg.rows
      modifies this, reg, docker
      ensures Valid() && Holds(u, Launched(cid)) && u in reg.rows
      ensures Columns(u) == old(Columns(u)) && clock >= old(clock)
      ensures old(steps) <= steps
    {
      hide Consistent, Path, Owned;
      Yield(Some(u), None);
    }

    /** The polling loop: leaves with the last answer read, or with the exception raised. */
    method Poll(u: Uuid, cid: Cid, deadline: real)
      returns (r: Result<Option<Ready>, BootError>, ghost rounds: nat)
      requires Booting(u, cid) && Holds(u, AtHead(cid, deadline, None))
      modifies this, reg, docker
      ensures Valid() && u in reg.rows
      ensures Booting(u, cid) && Columns(u) == old(Columns(u)) && clock >= old(clock)
      ensures r.Failure? ==>
        u in world.spawns && (r.error.CallRaised? || r.error.ContainerExited?) && RaisedAt(world.spawns[u], r.error)
      // It rests two seconds between rounds.
      ensures rounds > 0 ==> clock >= old(clock) + 2.0 * (rounds - 1) as real
      // An answer was read out of this container.
      ensures r.Success? && r.value.Some? ==> (cid, r.value.value) in docker.answers
      // It waits until the deadline before it settles for an incomplete answer.
      ensures r.Success? ==>
        || (Complete(r.value) && Holds(u, ReadDone(cid, deadline, r.value)))
        || (clock == world.now >= deadline && Holds(u, AtHead(cid, deadline, r.value)))
      ensures old(steps) <= steps
    {
      hide Path, Owned, Leads, At, Booting, Valid, Traced, Agrees, Columns, Complete, Gone;
      var ready: Option<Ready> := None;
      var t := TimeAt(u, cid);
      rounds := 0;
      while t < deadline
        invariant Booting(u, cid) && Columns(u) == old(Columns(u)) && Holds(u, AtHead(cid, deadline, ready))
        invariant ready.Some? ==> (cid, ready.value) in docker.answers
        invariant old(clock) + 2.0 * rounds as real <= t == clock == world.now && old(steps) <= steps
        decreases deadline - t
      {
        var done;
        r, done := Round(u, cid, deadline);
        rounds := rounds + 1;
        if done || r.Failure? {
          BootingIsValid(u, cid);
          return;
        }
        ready := r.value;
        Sleep(u, cid, 2.0);
        t := TimeAt(u, cid);
      }
      BootingIsValid(u, cid);
      return Success(ready), rounds;
    }

    lemma BootingIsValid(u: Uuid, cid: Cid)
      requires Booting(u, cid)
      ensures Valid() && u in reg.rows
    {}

    /** One round of the loop, up to its sleep; `done` is the break. */
    method Round(u: Uuid, cid: Cid, deadline: real) returns (r: Result<Option<Ready>, BootError>, done: bool)
      requires Booting(u, cid) && u in world.spawns && world.now < deadline
      requires world.spawns[u].AtHead? && world.spawns[u].cid == cid && world.spawns[u].deadline == deadline
      modifies this, reg, docker
      ensures Booting(u, cid) && Columns(u) == old(Columns(u)) && clock >= old(clock) && old(steps) <= steps
      ensures r.Failure? ==>
        u in world.spawns && !done && (r.error.CallRaised? || r.error.ContainerExited?) &&
          RaisedAt(world.spawns[u], r.error)
      ensures r.Success? ==>
        (done <==> r.value.Some? && r.value.value.packageId != "" && r.value.value.privateKey != "")
      ensures r.Success? ==>
        && (if done then Complete(r.value) && Holds(u, ReadDone(cid, deadline, r.value))
          else Holds(u, AtHead(cid, deadline, r.value)))
        && (r.value.Some? ==> (cid, r.value.value) in docker.answers)
    {
      hide Path, Owned, Leads, At, Booting, Valid, Traced, Agrees, Columns, Gone;
      HeadLeads(cfg, world, u);
      Move(u, cid, LoopHead(u), Reading(cid, deadline));
      var answer := AwaitRead(u, cid, deadline);
      if answer.Failure? {
        return Failure(CallRaised(answer.error)), false;
      }
      var ready := answer.value;
      ReadResumeLeads(cfg, world, u);
      if Complete(ready) {
        return Success(ready), true;
      }
      Move(u, cid, ReadResume(u), Checking(cid, deadline, ready));
      var failure, status := CheckAlive(u, cid, deadline, ready);
      return if failure.Some? then Failure(failure.value) else Success(ready), false;
    }

    /** The second half of a round: is the container still there? */
    method CheckAlive(u: Uuid, cid: Cid, deadline: real, ready: Option<Ready>)
      returns (failure: Option<BootError>, status: Result<Option<string>, string>)
      requires Booting(u, cid) && Holds(u, Checking(cid, deadline, ready))
      modifies this, reg, docker
      ensures Booting(u, cid) && Columns(u) == old(Columns(u)) && clock >= old(clock) && old(steps) <= steps
      ensures old(docker.answers) <= docker.answers
      ensures failure.None? ==> Holds(u, AtHead(cid, deadline, ready))
      // It gives up on the container exactly if its status says so.
      ensures failure == Some(ContainerExited) <==>
        status.Success? && (status.value == None || status.value == Some("exited") || status.value == Some("dead"))
      ensures failure.Some? && failure.value.CallRaised? <==> status.Failure?
      ensures failure.Some? ==>
        u in world.spawns && (failure.value.CallRaised? || failure.value.ContainerExited?) &&
          RaisedAt(world.spawns[u], failure.value)
    {
      hide Path, Owned, Leads, At, Booting, Valid, Traced, Agrees, Columns;
      status := AwaitStatus(u, cid, deadline, ready);
      if status.Failure? {
        return Some(CallRaised(status.error)), status;
      }
      StatusResumeLeads(cfg, world, u);
      if status.value == None || status.value == Some("exited") || status.value == Some("dead") {
        Move(u, cid, StatusResume(u), Raising(cid, Exited));
        Await(u, cid);
        return Some(ContainerExited), status;
      }
      Move(u, cid, StatusResume(u), AtHead(cid, deadline, ready));
      return None, status;
    }

    /** The call that reads ready.json, with its await. */
    method AwaitRead(u: Uuid, cid: Cid, deadline: real) returns (answer: Result<Option<Ready>, string>)
      requires Booting(u, cid) && Holds(u, Reading(cid, deadline))
      modifies this, reg, docker
      ensures Booting(u, cid) && Columns(u) == old(Columns(u)) && clock >= old(clock)
      ensures answer.Success? ==> Holds(u, ReadDone(cid, deadline, answer.value))
      ensures answer.Failure? ==> Holds(u, Reading(cid, deadline))
      ensures answer.Success? && answer.value.Some? ==> (cid, answer.value.value) in docker.answers
      ensures old(docker.answers) <= docker.answers && old(steps) <= steps
    {
      hide Path, Owned, Leads, At;
      Await(u, cid);
      answer := docker.ReadReady(cid);
      if answer.Success? {
        ReadLeads(cfg, world, u, answer.value);
        Move(u, cid, ReadEffect(u, answer.value), ReadDone(cid, deadline, answer.value));
      }
      Await(u, cid);
    }

    /** The call that asks for the container's status, with its await. */
    method AwaitStatus(u: Uuid, cid: Cid, deadline: real, ready: Option<Ready>)
      returns (status: Result<Option<string>, string>)
      requires Booting(u, cid) && Holds(u, Checking(cid, deadline, ready))
      modifies this, reg, docker
      ensures Booting(u, cid) && Columns(u) == old(Columns(u)) && clock >= old(clock)
      ensures status.Success? ==> Holds(u, Checked(cid, deadline, ready, status.value))
      ensures status.Failure? ==> Holds(u, Checking(cid, deadline, ready))
      ensures old(docker.answers) <= docker.answers && old(steps) <= steps
    {
      hide Path, Owned, Leads, At;
      Await(u, cid);
      status := docker.ContainerStatus(cid);
      if status.Success? {
        StatusLeads(cfg, world, u, status.value);
        Move(u, cid, StatusEffect(u, status.value), Checked(cid, deadline, ready, status.value));
      }
      Await(u, cid);
    }

    /** Launches the container and polls it until it is ready, gone or late. On success the
        row has been written `running` whatever other tasks wrote to it before. */
    method Boot(u: Uuid, clean: bool) returns (failure: Option<BootError>)
      requires Unlaunched(u) && Holds(u, Launching)
      modifies this, reg, docker
      ensures Valid() && u in reg.rows && Columns(u) == old(Columns(u)) && clock >= old(clock)
      ensures failure.None? ==> Started(u) && u !in world.spawns && u in world.returned
      ensures failure.Some? ==>
        && u in world.spawns && RaisedAt(world.spawns[u], failure.value)
        && if failure.value.LaunchRaised? then Unrecorded(u) && (clean ==> Unlaunched(u))
           else exists cid :: Booting(u, cid)
      ensures failure == Some(Late) ==> clock >= old(clock) + cfg.bootTimeout as real
      ensures old(steps) <= steps
    {
      hide Path, Owned, Leads, At, Booting, Valid, Traced, Agrees, Columns, Unrecorded, Unlaunched, Started;
      var launched := Launch(u, clean);
      if launched.Failure? {
        return Some(launched.error);
      }
      var (cid, deadline) := launched.value;
      var polled, _ := Poll(u, cid, deadline);
      if polled.Failure? {
        return Some(polled.error);
      }
      if !Usable(polled.value) {
        GiveUp(u, cid, deadline, polled.value);
        return Some(Late);
      }
      Succeed(u, cid, deadline, polled.value);
      return None;
    }

    /** The deadline has passed without a usable answer. */
    method GiveUp(u: Uuid, cid: Cid, deadline: real, ready: Option<Ready>)
      requires Booting(u, cid) && world.now >= deadline && Holds(u, AtHead(cid, deadline, ready)) && !Usable(ready)
      modifies this, reg, docker
      ensures Valid() && Booting(u, cid) && u in reg.rows && Holds(u, Raising(cid, NotReady))
      ensures Columns(u) == old(Columns(u)) && clock >= old(clock) && old(steps) <= steps
    {
      hide Path, Owned, Leads, At, Booting, Valid, Traced, Agrees, Columns;
      HeadLeads(cfg, world, u);
      Move(u, cid, LoopHead(u), Raising(cid, NotReady));
      Await(u, cid);
    }

    /** The successful end of a spawn, whatever the row says meanwhile. */
    method Succeed(u: Uuid, cid: Cid, deadline: real, ready: Option<Ready>)
      requires Booting(u, cid) && Usable(ready) && (cid, ready.value) in docker.answers
      requires || (Complete(ready) && Holds(u, ReadDone(cid, deadline, ready)))
               || (clock >= deadline && Holds(u, AtHead(cid, deadline, ready)))
      modifies this`world, this`ss, this`steps, reg
      ensures Valid() && u in reg.rows && Started(u) && u !in world.spawns && u in world.returned
      ensures Columns(u) == old(Columns(u))
      ensures old(steps) <= steps
    {
      hide Path, Owned, Leads;
      var late := world.spawns[u].AtHead?;
      if late {
        HeadLeads(cfg, world, u);
      } else {
        ReadResumeLeads(cfg, world, u);
      }
      ghost var next := Finish(cfg, world, u, ready.value);
      reg.PutRunning(u, cfg.RpcUrlFor(u), ready.value);
      Advance(if late then LoopHead(u) else ReadResume(u), next);
    }

    /** The removal at the end of a failed spawn: by the id it recorded, never by name. If
        the call raises, the spawn ends all the same. */
    method CleanUp(u: Uuid, cid: Cid, up: bool)
      requires Booting(u, cid) && !reg.rows[u].IsActive() && Holds(u, Removing(cid))
      modifies this, reg, docker
      ensures Valid() && u in reg.rows && Columns(u) == old(Columns(u))
      ensures !reg.rows[u].IsActive() && clock >= old(clock) && u !in world.spawns
      ensures up ==> NoContainer(u)
      ensures old(steps) <= steps
    {
      hide Path, Owned, Consistent, Leads, Next, Enabled;
      Yield(Some(u), None);
      CleanUpLeads(cfg, world, u, up);
      TakenByCleanUp(cfg, world, u, up);
      docker.StopAndRemove(Some(cid), None, up);
      Advance(Step.CleanUp(u, up), world.(fleet := Remove(world, Some(cid), None, up), spawns := world.spawns - {u}));
      StaysGone(u, up);
    }

    /** The await after a removal: nobody else launches for `u`. */
    method StaysGone(u: Uuid, up: bool)
      requires Valid() && u in reg.rows && !reg.rows[u].IsActive() && u !in world.spawns && (up ==> NoContainer(u))
      modifies this, reg, docker
      ensures Valid() && u in reg.rows && Columns(u) == old(Columns(u))
      ensures !reg.rows[u].IsActive() && u !in world.spawns && clock >= old(clock) && (up ==> NoContainer(u))
      ensures old(steps) <= steps
    {
      hide Path, Owned, Consistent;
      ContainersAreBorn(cfg, world);
      Yield(Some(u), None);
      ContainersAreBorn(cfg, world);
    }

    /** The exception handler of a spawn: `error` first, then the clean-up, if a container
        was recorded. One that was created but never recorded is left alone. */
    method HandleFailure(u: Uuid, e: BootError, up: bool)
      requires u in world.spawns && RaisedAt(world.spawns[u], e)
      requires Unrecorded(u) || exists cid :: Booting(u, cid)
      modifies this, reg, docker
      ensures Valid() && u in reg.rows && Columns(u) == old(Columns(u))
      ensures !reg.rows[u].IsActive() && clock >= old(clock) && u !in world.spawns
      ensures up && (old(reg.rows[u].containerId.Some?) || old(Unlaunched(u))) ==> NoContainer(u)
      ensures old(reg.rows[u].containerId.None?) ==> reg.rows[u].containerId.None? && docker.fleet == old(docker.fleet)
      ensures old(steps) <= steps
    {
      hide Path, Owned, Leads, Fail;
      ContainersAreBorn(cfg, world);
      var cid := WriteError(u, e);
      if cid.Some? && cid.value != "" {
        CleanUp(u, cid.value, up);
      }
    }

    /** Writes `error` and reads back the id recorded for the clean-up. */
    method WriteError(u: Uuid, e: BootError) returns (cid: Option<Cid>)
      requires Valid() && u in world.spawns && RaisedAt(world.spawns[u], e)
      modifies this`world, this`ss, this`steps, reg
      ensures Valid() && u in reg.rows && Columns(u) == old(Columns(u)) && !reg.rows[u].IsActive() &&
        old(steps) <= steps
      ensures reg.rows[u].status == Error && reg.rows[u].error == Some(Message(e))
      ensures cid == old(reg.rows)[u].containerId && (cid.Some? ==> cid.value != "")
      ensures if cid.Some? then Booting(u, cid.value) && Holds(u, Removing(cid.value))
        else u !in world.spawns && reg.rows[u].containerId == None
    {
      hide Path, Owned, Leads;
      if e.CallRaised? {
        CallRaisesLeads(cfg, world, u, Message(e));
      } else {
        RaiseLeads(cfg, world, u);
      }
      if world.spawns[u].LaunchFailed? {
        LaunchingFacts(cfg, world, u);
      } else {
        BootingFacts(cfg, world, u);
      }
      ghost var next := Fail(world, u, Message(e));
      reg.PutStatus(u, Error, Some(Message(e)));
      var record := reg.Get(u);
      cid := if record.Some? then record.value.containerId else None;
      Advance(if e.CallRaised? then CallRaises(u, Message(e)) else RaiseResume(u), next);
    }

    /** The whole spawn for one caller. `u` is the uuid drawn; `up` says whether the daemon
        carries out the clean-up removal, `clean` that a launch that raises created nothing. */
    method Spawn(ip: string, u: Uuid, up: bool, clean: bool) returns (r: Result<PlayerView, SpawnError>)
      requires Valid()
      modifies this, reg, docker
      // What it and the tasks in between did is a continuation of the run.
      ensures Valid() && old(steps) <= steps
      ensures u !in old(reg.rows) ==> u !in world.spawns && (r.Success? ==> u in world.returned)
      // Refusal depends on the two counts alone, the address's own first, and changes nothing.
      ensures r == Failure(Refused(PerIpLimit)) <==> |ActiveUuidsFor(old(reg.rows), ip)| >= cfg.maxPerIp
      ensures r == Failure(Refused(AtCapacity)) <==>
        |ActiveUuidsFor(old(reg.rows), ip)| < cfg.maxPerIp && |ActiveUuids(old(reg.rows))| >= cfg.maxTotal
      ensures r.Failure? && r.error.Refused? ==> reg.rows == old(reg.rows) && docker.fleet == old(docker.fleet)
      ensures r == Failure(DuplicateKey) ==>
        u in old(reg.rows) && reg.rows == old(reg.rows) && docker.fleet == old(docker.fleet)
      // Success returns the view of the row this call created, for this caller.
      ensures r.Success? ==>
        && u !in old(reg.rows) && u in reg.rows && r.value == ViewOf(u, reg.rows[u], clock)
        && Started(u) && ReservedFor(u, ip, old(clock))
      // What the player is told is the answer read out of this container.
      ensures r.Success? ==> exists ready: Ready ::
        && (reg.rows[u].containerId.value, ready) in docker.answers && ready.packageId != ""
        && r.value.uuid == u && r.value.rpcUrl == Some(cfg.RpcUrlFor(u)) && r.value.challenge == cfg.challengeName
        && r.value.privateKey == Some(ready.privateKey) && r.value.playerAddress == Some(ready.playerAddress)
        && r.value.packageId == Some(ready.packageId) && r.value.objects == ready.objects
      // Its times are those of the row in whole seconds, the remaining ones never negative.
      ensures r.Success? ==> WholeSeconds(reg.rows[u].expiresAt, r.value.expiresAt)
      ensures r.Success? ==>
        if reg.rows[u].expiresAt <= clock then r.value.secondsRemaining == 0
        else WholeSeconds(reg.rows[u].expiresAt - clock, r.value.secondsRemaining)
      // Failure leaves an inactive row and, if the daemon obeys, no container behind; only a
      // container that a raising launch created, so that its id was never recorded, can stay.
      ensures r == Failure(StartFailed) ==>
        && u !in old(reg.rows) && ReservedFor(u, ip, old(clock)) && !reg.rows[u].IsActive()
        && (up && (clean || reg.rows[u].containerId.Some?) ==> NoContainer(u))
    {
      hide Path, Owned, Leads, At, Valid, Traced, Agrees, Started, Unlaunched, Unrecorded, ActiveUuids, ActiveUuidsFor;
      var refused := Admit(ip, u);
      if refused.Some? {
        return Failure(refused.value);
      }
      var failure := Boot(u, clean);
      if failure.Some? {
        HandleFailure(u, failure.value, up);
        return Failure(StartFailed);
      }
      var record := reg.Get(u);
      var now := TimeOf();
      StartedTells(u);
      ViewIsRow(u, record.value, now);
      return Success(ViewOf(u, record.value, now));
    }

    lemma StartedTells(u: Uuid)
      requires Started(u)
      ensures exists ready: Ready ::
        && (reg.rows[u].containerId.value, ready) in docker.answers && ready.packageId != ""
        && reg.rows[u].playerPrivkey == Some(ready.privateKey) && reg.rows[u].playerAddress == Some(ready.playerAddress)
        && reg.rows[u].packageId == Some(ready.packageId) && reg.rows[u].objects == ready.objects
      ensures reg.rows[u].rpcUrl == Some(cfg.RpcUrlFor(u))
    {}

    /** The reservation: the checks and the insertion, with no await in between. */
    method Admit(ip: string, u: Uuid) returns (refused: Option<SpawnError>)
      requires Valid()
      modifies this, reg
      ensures Valid() && old(steps) <= steps && clock >= old(clock)
      ensures refused == Some(Refused(PerIpLimit)) <==> |ActiveUuidsFor(old(reg.rows), ip)| >= cfg.maxPerIp
      ensures refused == Some(Refused(AtCapacity)) <==>
        |ActiveUuidsFor(old(reg.rows), ip)| < cfg.maxPerIp && |ActiveUuids(old(reg.rows))| >= cfg.maxTotal
      ensures refused.Some? && refused.value.Refused? <==> Refuses(cfg, old(reg.rows), ip).Some?
      ensures refused.Some? && refused.value.Refused? ==> Refuses(cfg, old(reg.rows), ip) == Some(refused.value.why)
      ensures refused != Some(StartFailed) && (refused == Some(DuplicateKey) ==> u in old(reg.rows))
      ensures refused.Some? ==> reg.rows == old(reg.rows) && (u !in reg.rows ==> u !in world.spawns)
      ensures refused.None? ==>
        u !in old(reg.rows) && Unlaunched(u) && Holds(u, Launching) && ReservedFor(u, ip, old(clock))
    {
      hide Path, Owned, Consistent, Leads;
      if u !in reg.rows {
        NewRowIsIdle(cfg, world, u);
      }
      ReserveLeads(cfg, world, ip, u, clock);
      var mine := reg.ActiveCountForIp(ip);
      if mine >= cfg.maxPerIp {
        Advance(Reserve(ip, u, clock), world);
        return Some(Refused(PerIpLimit));
      }
      var total := reg.TotalActive();
      if total >= cfg.maxTotal {
        Advance(Reserve(ip, u, clock), world);
        return Some(Refused(AtCapacity));
      }
      var inserted := Insert(ip, u);
      return if inserted then None else Some(DuplicateKey);
    }

    /** The insertion of the row, once the counts leave room. */
    method Insert(ip: string, u: Uuid) returns (inserted: bool)
      requires Valid() && Refuses(cfg, reg.rows, ip).None?
      modifies this, reg
      ensures Valid() && old(steps) <= steps && clock >= old(clock) && (inserted <==> u !in old(reg.rows))
      ensures inserted ==> Unlaunched(u) && Holds(u, Launching) && ReservedFor(u, ip, old(clock))
      ensures !inserted ==> reg.rows == old(reg.rows)
    {
      hide Path, Owned, Leads, Refuses;
      var t0 := Time();
      var t1 := ReadClock();
      inserted := reg.Create(u, ip, cfg.challengeName, cfg.ContainerName(u), t1, t0 + cfg.Ttl(), cfg.flagMode);
      ReserveLeads(cfg, world, ip, u, t1);
      if inserted {
        NewRowIsIdle(cfg, world, u);
        Advance(Reserve(ip, u, t1), At(world.(now := t1, rows := reg.rows), u, Launching));
      } else {
        Advance(Reserve(ip, u, t1), world.(now := t1));
      }
    }

    method TimeOf() returns (t: real)
      requires Valid()
      modifies this`clock, this`world, this`ss, this`steps
      ensures Valid() && t == clock >= old(clock) && old(steps) <= steps
      ensures world.spawns == old(world.spawns) && world.returned == old(world.returned)
    {
      hide Owned, Path;
      t := Time();
    }

    // ---- kill ----

    method FreshKill() returns (k: nat)
      ensures k !in world.kills
    {
      k := 0;
      ghost var tried: set<nat> := {};
      while k in world.kills
        invariant tried <= world.kills.Keys && forall j | j in tried :: j < k
        decreases world.kills.Keys - tried
      {
        tried := tried + {k};
        k := k + 1;
      }
    }

    /** Removes the container first and writes the status afterwards, deciding both by the
        row as it was at the start. `raises` says that the removal call raises, in which case
        the status is never written, whether or not (`up`) the removal took effect. */
    method Kill(u: Uuid, up: bool, raises: bool) returns (r: Result<bool, string>)
      requires Valid()
      modifies this, reg, docker
      ensures Valid() && old(steps) <= steps
      ensures r.Failure? <==> raises && u in old(reg.rows)
      ensures r.Success? ==> (r.value <==> u in old(reg.rows))
      ensures r == Success(false) ==> reg.rows == old(reg.rows) && docker.fleet == old(docker.fleet)
      ensures r == Success(true) && old(reg.rows)[u].IsActive() ==> u in reg.rows && reg.rows[u].status == Killed
      // Every container `u` had, or was ever issued, when the kill began is gone.
      ensures u in old(reg.rows) && up ==>
        forall x | x in docker.fleet && docker.fleet[x].uuid == Some(u) :: x !in old(docker.born)
    {
      hide Path, Owned, Consistent, Leads, Next, Enabled;
      var record := reg.Get(u);
      var k := FreshKill();
      KillStartLeads(cfg, world, k, u);
      if record.None? {
        Advance(KillStart(k, u), world);
        return Success(false);
      }
      var row := record.value;
      Advance(KillStart(k, u), world.(kills := world.kills[k := KillRemoving(u, row)]));
      KillYield(k);
      KillSegment(k, u, row, up, raises);
      KillYield(k);
      if raises {
        var why: string := *;
        return Failure(why);
      }
      WriteKilled(k, u, row);
      return Success(true);
    }

    /** The status write of a kill, decided by the row as it was at the start. */
    method WriteKilled(k: nat, u: Uuid, row: Row)
      requires Valid() && k in world.kills && world.kills[k] == KillWriting(u, row) && u in reg.rows
      modifies this`world, this`ss, this`steps, reg
      ensures Valid() && old(steps) <= steps && u in reg.rows
      ensures if row.status == Starting || row.status == Running then reg.rows[u].status == Killed
        else reg.rows == old(reg.rows)
    {
      hide Path, Owned, Leads;
      KillWriteLeads(cfg, world, k);
      ghost var rows := if row.IsActive() then SetStatus(world.rows, u, Killed, None) else world.rows;
      if row.status == Starting || row.status == Running {
        reg.PutStatus(u, Killed, None);
      }
      Advance(KillWrite(k), world.(rows := rows, kills := world.kills - {k}));
    }

    /** The removal call of a kill. */
    method KillSegment(k: nat, u: Uuid, row: Row, up: bool, raises: bool)
      requires Valid() && k in world.kills && world.kills[k] == KillRemoving(u, row)
      modifies this, docker`fleet
      ensures Valid() && old(steps) <= steps && clock == old(clock)
      ensures docker.fleet == if up then Others(old(docker.fleet), u) else old(docker.fleet)
      ensures !raises ==> k in world.kills && world.kills[k] == KillWriting(u, row)
    {
      hide Path, Owned, Leads, RemoveRef, Ref, Others;
      TakenByKill(cfg, world, k, up);
      KillRemoveLeads(cfg, world, k, up);
      ghost var fleet := KillRemoval(world, k, up);
      docker.StopAndRemove(row.containerId, Some(row.containerName), up);
      if raises {
        Advance(KillAborts(k, up), world.(fleet := fleet, kills := world.kills - {k}));
      } else {
        Advance(KillRemove(k, up), world.(fleet := fleet, kills := world.kills[k := KillWriting(u, row)]));
      }
    }

    /** An await of a kill. */
    method KillYield(k: nat)
      requires Valid()
      modifies this, reg, docker
      ensures Valid() && old(steps) <= steps
      ensures k in old(world.kills) ==> k in world.kills && world.kills[k] == old(world.kills)[k]
      ensures forall u | u in old(reg.rows) :: u in reg.rows
      ensures forall x | x in old(docker.born) :: x in docker.born && docker.born[x] == old(docker.born)[x]
      ensures forall x | x in docker.fleet && x in old(docker.born) ::
        x in old(docker.fleet) && docker.fleet[x] == old(docker.fleet)[x]
    {
      hide Path, Owned, Consistent;
      Yield(None, Some(k));
    }

    // ---- startup ----

    /** Runs alone at startup: removes containers without an active row, then marks active
        rows without a container. `up` and `stuck` say whether the daemon lists containers
        and which removals it fails. */
    method ReconcileStartup(up: bool, stuck: set<Cid>)
      requires "" !in docker.fleet
      modifies this, reg, docker
      ensures reg.rows == ReconciledRows(old(reg.rows), ManagedUuids(old(docker.fleet), up))
      ensures docker.fleet == ReconciledFleet(old(reg.rows), old(docker.fleet), up, stuck)
      // No row appears, goes, or becomes active; a row that stays active is untouched.
      ensures reg.rows.Keys == old(reg.rows.Keys)
      ensures forall u | u in reg.rows && reg.rows[u].IsActive() :: reg.rows[u] == old(reg.rows)[u]
      // Exactly the active rows without a listed container are marked.
      ensures forall u | u in reg.rows ::
        var was := old(reg.rows)[u];
        reg.rows[u] ==
          if (was.status == Starting || was.status == Running) && !(up && Some(u) in LabelledUuids(old(docker.fleet)))
          then was.(status := Error, error := Some("container missing on restart")) else was
      // Exactly the listed containers without an active row go, if they can be removed.
      ensures forall x | x in old(docker.fleet) ::
        var owner := old(docker.fleet)[x].uuid;
        x in docker.fleet <==>
          || !up || x in stuck
          || (owner.Some? && owner.value in old(reg.rows)
              && (old(reg.rows)[owner.value].status == Starting || old(reg.rows)[owner.value].status == Running))
      // If the daemon obeys, containers and active rows then name the same uuids.
      ensures up && stuck == {} ==> LabelledUuids(docker.fleet) == LiveUuids(reg.rows)
      // After a crash it is the step that restarts the run.
      ensures old(Valid()) ==>
        Valid() && Leads(cfg, old(world), Restart(up, stuck), world) && steps == old(steps) + [Restart(up, stuck)]
    {
      ghost var traced := Traced();
      ReconcileAgrees(reg.rows, docker.fleet);
      OnlyDeactivates(reg.rows, ManagedUuids(docker.fleet, up));
      RowByRow(reg.rows, docker.fleet, up, stuck);
      hide ReconciledRows, ReconciledFleet, Kept, LabelsOf, IdsOf, LiveUuids, LabelledUuids, Path, Owned;
      var managed := docker.ListManaged(up);
      var records := reg.AllActive();
      var managedUuids := RemoveOrphans(managed, records, stuck);
      WholeListing(reg.rows, managed, old(docker.fleet), up, stuck);
      MarkMissing(records, managedUuids);
      RestartLeads(cfg, world, up, stuck);
      hide Next, Enabled;
      if traced {
        PathExtends(cfg, ss, steps, Restart(up, stuck));
        OwnedStep(cfg, world, Restart(up, stuck));
      }
      world := Next(cfg, world, Restart(up, stuck));
      ss, steps := ss + [world], steps + [Restart(up, stuck)];
    }

    /** The first loop: collects the labels seen and removes what has no active row. */
    method RemoveOrphans(managed: seq<Listed>, records: seq<Record>, stuck: set<Cid>)
      returns (managedUuids: set<Option<Uuid>>)
      requires Lists(records, reg.rows, ActiveUuids(reg.rows))
      requires forall i | 0 <= i < |managed| ::
        managed[i].id != "" && managed[i].id in docker.fleet && managed[i].uuid == docker.fleet[managed[i].id].uuid
      requires forall i, j | 0 <= i < j < |managed| :: managed[i].id != managed[j].id
      modifies docker`fleet
      ensures managedUuids == LabelsOf(managed)
      ensures docker.fleet == Kept(reg.rows, old(docker.fleet), stuck, IdsOf(managed))
    {
      var active := set r | r in records :: r.uuid;
      assert active == ActiveUuids(reg.rows);
      managedUuids := {};
      assert Kept(reg.rows, docker.fleet, stuck, {}) == docker.fleet;
      for i := 0 to |managed|
        invariant managedUuids == LabelsOf(managed[..i])
        invariant docker.fleet == Kept(reg.rows, old(docker.fleet), stuck, IdsOf(managed[..i]))
      {
        var box := managed[i];
        managedUuids := managedUuids + {box.uuid};
        if box.uuid.None? || box.uuid.value !in active {
          docker.StopAndRemove(Some(box.id), None, box.id !in stuck);
        }
        ListingGrows(managed, i);
        hide Kept, RemoveRef, Ref;
        KeptShrinks(reg.rows, old(docker.fleet), stuck, IdsOf(managed[..i]), box.id);
      }
      assert managed[..|managed|] == managed;
    }

    /** The second loop: the rows read before the removals, checked against the labels. */
    method MarkMissing(records: seq<Record>, managedUuids: set<Option<Uuid>>)
      requires Lists(records, reg.rows, ActiveUuids(reg.rows))
      modifies reg
      ensures reg.rows == ReconciledRows(old(reg.rows), managedUuids)
    {
      assert Marked(reg.rows, managedUuids, {}) == reg.rows;
      assert UuidsOf(records) == ActiveUuids(reg.rows);
      assert forall i | 0 <= i < |records| :: records[i].uuid in reg.rows;
      hide Lists, ActiveUuids;
      for i := 0 to |records|
        invariant reg.rows == Marked(old(reg.rows), managedUuids, UuidsOf(records[..i]))
      {
        var u := records[i].uuid;
        if Some(u) !in managedUuids {
          reg.PutStatus(u, Error, Some(Missing));
        }
        PrefixGrows(records, i);
        hide Marked, UuidsOf;
        MarkedGrows(old(reg.rows), managedUuids, UuidsOf(records[..i]), u);
      }
      assert records[..|records|] == records;
      MarkedAll(old(reg.rows), managedUuids);
    }
  }

  /** The fleet once the containers in `seen` have been dealt with. */
  function Kept(t: Table, f: Fleet, stuck: set<Cid>, seen: set<Cid>): Fleet {
    map x | x in f && (OwnerActive(t, f[x].uuid) || x in stuck || x !in seen) :: f[x]
  }

  /** The rows once those in `seen` have been checked. */
  function Marked(t: Table, managed: set<Option<Uuid>>, seen: set<Uuid>): Table {
    map u | u in t :: if u in seen && Some(u) !in managed then t[u].WithStatus(Error, Some(Missing)) else t[u]
  }

  lemma MarkedAll(t: Table, managed: set<Option<Uuid>>)
    ensures Marked(t, managed, ActiveUuids(t)) == ReconciledRows(t, managed)
  {}

  lemma PrefixGrows(records: seq<Record>, i: nat)
    requires i < |records|
    ensures UuidsOf(records[..i + 1]) == UuidsOf(records[..i]) + {records[i].uuid}
  {
    assert records[..i + 1] == records[..i] + [records[i]];
  }

  lemma ListingGrows(managed: seq<Listed>, i: nat)
    requires i < |managed| && forall j | 0 <= j < i :: managed[j].id != managed[i].id
    ensures IdsOf(managed[..i + 1]) == IdsOf(managed[..i]) + {managed[i].id}
    ensures LabelsOf(managed[..i + 1]) == LabelsOf(managed[..i]) + {managed[i].uuid}
    ensures managed[i].id !in IdsOf(managed[..i])
  {
    assert managed[..i + 1] == managed[..i] + [managed[i]];
  }

  /** Dealing with one more container `x`, labelled as `f` says. */
  lemma KeptShrinks(t: Table, f: Fleet, stuck: set<Cid>, seen: set<Cid>, x: Cid)
    requires x in f && x !in seen && x != ""
    ensures Kept(t, f, stuck, seen + {x}) ==
      if OwnerActive(t, f[x].uuid) || x in stuck then Kept(t, f, stuck, seen)
      else RemoveRef(Kept(t, f, stuck, seen), Ref(Some(x), None))
  {
    assert x in Kept(t, f, stuck, seen);
  }

  lemma MarkedGrows(t: Table, managed: set<Option<Uuid>>, seen: set<Uuid>, u: Uuid)
    requires u in t
    ensures Marked(t, managed, seen + {u}) ==
      if Some(u) in managed then Marked(t, managed, seen)
        else SetStatus(Marked(t, managed, seen), u, Error, Some(Missing))
  {}

  lemma OnlyDeactivates(t: Table, managed: set<Option<Uuid>>)
    ensures ReconciledRows(t, managed).Keys == t.Keys
    ensures forall u | u in t && ReconciledRows(t, managed)[u].IsActive() :: ReconciledRows(t, managed)[u] == t[u]
  {}

  lemma RowByRow(t: Table, f: Fleet, up: bool, stuck: set<Cid>)
    ensures forall u | u in t ::
      ReconciledRows(t, ManagedUuids(f, up))[u] ==
        if (t[u].status == Starting || t[u].status == Running) && !(up && Some(u) in LabelledUuids(f))
        then t[u].(status := Error, error := Some("container missing on restart")) else t[u]
    ensures forall x | x in f ::
      var owner := f[x].uuid;
      x in ReconciledFleet(t, f, up, stuck) <==>
        || !up || x in stuck
        || (owner.Some? && owner.value in t && (t[owner.value].status == Starting || t[owner.value].status == Running))
  {}

  /** Once the whole listing is dealt with, whether or not the daemon gave one. */
  lemma WholeListing(t: Table, managed: seq<Listed>, f: Fleet, up: bool, stuck: set<Cid>)
    requires if up then ListsFleet(managed, f) else managed == []
    ensures LabelsOf(managed) == ManagedUuids(f, up)
    ensures Kept(t, f, stuck, IdsOf(managed)) == ReconciledFleet(t, f, up, stuck)
  {
    if up {
      EveryContainerSeen(managed, f);
    }
  }

  lemma EveryContainerSeen(managed: seq<Listed>, f: Fleet)
    requires ListsFleet(managed, f)
    ensures IdsOf(managed) == f.Keys
    ensures LabelsOf(managed) == LabelledUuids(f)
  {
    forall x | x in f
      ensures x in IdsOf(managed) && f[x].uuid in LabelsOf(managed)
    {
      var i :| 0 <= i < |managed| && managed[i].id == x;
      assert managed[i] in managed;
    }
    forall box | box in managed
      ensures box.id in f && box.uuid in LabelledUuids(f)
    {}
  }

  function LabelsOf(list: seq<Listed>): set<Option<Uuid>> {
    set box | box in list :: box.uuid
  }

  function IdsOf(list: seq<Listed>): set<Cid> {
    set box | box in list :: box.id
  }

  function UuidsOf(list: seq<Record>): set<Uuid> {
    set r | r in list :: r.uuid
  }

  /** The rows whose status is active. */
  function LiveUuids(t: Table): set<Option<Uuid>> {
    set u | u in t && t[u].IsActive() :: Some(u)
  }

  /** Whatever registry and containers the orchestrator finds, a reconciliation the daemon
      carries out leaves containers for exactly the active rows. */
  lemma ReconcileAgrees(t: Table, f: Fleet)
    ensures var t', f' := ReconciledRows(t, LabelledUuids(f)), ReconciledFleet(t, f, true, {});
      LabelledUuids(f') == LiveUuids(t')
  {
    var t', f' := ReconciledRows(t, LabelledUuids(f)), ReconciledFleet(t, f, true, {});
    forall o | o in LiveUuids(t')
      ensures o in LabelledUuids(f')
    {
      var u :| u in t' && t'[u].IsActive() && o == Some(u);
      assert Some(u) in LabelledUuids(f);
      var x :| x in f && f[x].uuid == Some(u);
      assert x in f' && f'[x].uuid == o;
    }
  }

  /** A second reconciliation finds nothing to do. */
  lemma ReconcileIdempotent(t: Table, f: Fleet)
    ensures var t', f' := ReconciledRows(t, LabelledUuids(f)), ReconciledFleet(t, f, true, {});
      ReconciledRows(t', LabelledUuids(f')) == t' && ReconciledFleet(t', f', true, {}) == f'
  {
    var t', f' := ReconciledRows(t, LabelledUuids(f)), ReconciledFleet(t, f, true, {});
    ReconcileAgrees(t, f);
    forall u | u in t' && t'[u].IsActive()
      ensures Some(u) in LabelledUuids(f')
    {
      assert Some(u) in LiveUuids(t');
    }
    forall x | x in f'
      ensures OwnerActive(t', f'[x].uuid)
    {
      assert f'[x].uuid in LabelledUuids(f');
    }
  }
}
