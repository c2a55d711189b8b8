/** Spawns, kills, the reaper and restarts as interleaved tasks over one registry and one
    container fleet. A task gives up control at every call into a worker thread, so each
    effect of such a call and each resumption after it is a step of its own. */
module Lifecycle {
  import opened Wrappers
  import opened Configuration
  import opened Docker
  import opened Registries

  // ---- tasks ----

  /** Where a spawn stands after its reservation. */
  datatype SpawnPc =
    | Launching                                                          // run_instance handed to a thread
    | LaunchFailed(message: string)                                      // run_instance raised, resumption pending
    | Launched(cid: Cid)                                                 // container exists, id not recorded yet
    | AtHead(cid: Cid, deadline: real, ready: Option<Ready>)             // about to test the deadline
    | Reading(cid: Cid, deadline: real)                                  // read_ready handed to a thread
    | ReadDone(cid: Cid, deadline: real, ready: Option<Ready>)           // its answer awaits resumption
    | Checking(cid: Cid, deadline: real, ready: Option<Ready>)           // container_status handed to a thread
    | Checked(cid: Cid, deadline: real, ready: Option<Ready>, status: Option<string>)
    | Raising(cid: Cid, message: string)                                 // fetching logs before the exception
    | Removing(cid: Cid)                                                 // `error` written, removal handed to a thread

  /** A kill holds the row it read when it started. */
  datatype KillPc =
    | KillRemoving(uuid: Uuid, row: Row)
    | KillWriting(uuid: Uuid, row: Row)

  /** A sweep holds its start time and the due rows it read then; `removed` says that the
      removal for the first of them is done and its status write is not. */
  datatype SweepPc = NoSweep | Sweeping(start: real, queue: seq<Record>, removed: bool)

  datatype State = State(
    now: real,
    rows: Table,
    fleet: Fleet,
    born: map<Cid, Uuid>,          // every id the daemon ever issued
    spawns: map<Uuid, SpawnPc>,
    kills: map<nat, KillPc>,
    sweep: SweepPc,
    returned: set<Uuid>,           // uuids handed to their creators
    revived: set<Uuid>,            // rows written back to `running` from an inactive status
    limbo: set<Uuid>)              // launches under way when their process died

  const Genesis := State(0.0, map[], map[], map[], map[], map[], NoSweep, {}, {}, {})

  /** Each step with the code it stands for, in orchestrator/app. */
  datatype Step =
    | Tick(time: real)                                          // the clock moves
    | Reserve(ip: string, uuid: Uuid, time: real)               // instances.py:43-68, up to the launch call
    | Launch(u: Uuid, cid: Cid)                                 // instances.py:93-96, effect
    | LaunchFails(u: Uuid, created: Option<Cid>, message: string) // instances.py:93-96 raises, effect
    | LateLaunch(u: Uuid, cid: Cid)                             // docker_manager.py:46-64, for a process that is gone
    | RecordContainer(u: Uuid)                                  // instances.py:97-100
    | LoopHead(u: Uuid)                                         // instances.py:101, and 114-128 when late
    | ReadEffect(u: Uuid, answer: Option<Ready>)                // instances.py:102, effect
    | CallRaises(u: Uuid, message: string)                      // instances.py:102, 105, 109 or 115 raises, then 73-81
    | ReadResume(u: Uuid)                                       // instances.py:103-104, and 114-128 on a break
    | StatusEffect(u: Uuid, status: Option<string>)             // instances.py:105-107, effect
    | StatusResume(u: Uuid)                                     // instances.py:108-112
    | RaiseResume(u: Uuid)                                      // instances.py:93, 111 or 118, then 73-81
    | CleanUp(u: Uuid, up: bool)                                // instances.py:81, effect; the spawn ends either way
    | KillStart(k: nat, u: Uuid)                                // instances.py:146-149
    | KillRemove(k: nat, up: bool)                              // instances.py:149-153, effect
    | KillAborts(k: nat, up: bool)                              // instances.py:149-153 raises, with or without effect
    | KillWrite(k: nat)                                         // instances.py:154-156
    | SweepStart(queue: seq<Record>)                            // reaper.py:43-44
    | SweepSkip                                                 // reaper.py:48-50
    | SweepRemove(up: bool)                                     // reaper.py:52-56, effect
    | SweepAborts(up: bool)                                     // reaper.py:52-56 raises, with or without effect
    | SweepWrite                                                // reaper.py:57
    | SweepEnd                                                  // reaper.py:44, the list is exhausted
    | Restart(listed: bool, stuck: set<Cid>)                    // a crash, then instances.py:190-207

  // ---- decisions ----

  datatype Refusal = PerIpLimit | AtCapacity

  /** Why a reservation is turned down, if it is. */
  function Refuses(c: Config, t: Table, ip: string): Option<Refusal> {
    if |ActiveUuidsFor(t, ip)| >= c.maxPerIp then Some(PerIpLimit)
    else if |ActiveUuids(t)| >= c.maxTotal then Some(AtCapacity)
    else None
  }

  /** The row a reservation inserts; the clock is read once for the expiry and again for
      the creation time. */
  function ReservedRow(c: Config, ip: string, u: Uuid, t0: real, t1: real): Row {
    FreshRow(ip, c.challengeName, c.ContainerName(u), t1, t0 + c.Ttl(), c.flagMode)
  }

  /** ready.json is complete enough to leave the polling loop. */
  predicate Complete(r: Option<Ready>) {
    r.Some? && r.value.packageId != "" && r.value.privateKey != ""
  }

  /** The test after the loop looks at the package id only. */
  predicate Usable(r: Option<Ready>) {
    r.Some? && r.value.packageId != ""
  }

  predicate Gone(status: Option<string>) {
    status.None? || status.value == "exited" || status.value == "dead"
  }

  /** A booting row younger than the boot window is left alone by the reaper. */
  predicate Protected(c: Config, start: real, row: Row) {
    row.status == Starting && start - row.createdAt < c.BootWindow()
  }

  /** The rows of a sweep's queue it takes. */
  function Reapable(c: Config, start: real, queue: seq<Record>): set<Uuid> {
    set r | r in queue && !Protected(c, start, r.row) :: r.uuid
  }

  const NotReady := "instance not ready in time"
  const Exited := "container exited during boot"
  const Missing := "container missing on restart"

  // ---- startup reconciliation ----

  predicate OwnerActive(t: Table, owner: Option<Uuid>) {
    owner.Some? && owner.value in t && t[owner.value].IsActive()
  }

  function ManagedUuids(f: Fleet, listed: bool): set<Option<Uuid>> {
    if listed then LabelledUuids(f) else {}
  }

  function ReconciledRows(t: Table, managed: set<Option<Uuid>>): Table {
    map u | u in t :: if t[u].IsActive() && Some(u) !in managed then t[u].WithStatus(Error, Some(Missing)) else t[u]
  }

  function ReconciledFleet(t: Table, f: Fleet, listed: bool, stuck: set<Cid>): Fleet {
    map x | x in f && (!listed || OwnerActive(t, f[x].uuid) || x in stuck) :: f[x]
  }

  // ---- steps ----

  predicate Enabled(c: Config, s: State, st: Step) {
    match st
    case Tick(_) => true
    case Reserve(_, _, _) => true
    case Launch(u, x) => u in s.spawns && s.spawns[u].Launching? && CanCreate(c, s, u, x)
    case LaunchFails(u, created, _) =>
      u in s.spawns && s.spawns[u].Launching? && (created.Some? ==> CanCreate(c, s, u, created.value))
    case LateLaunch(u, x) => u in s.limbo && CanCreate(c, s, u, x)
    case RecordContainer(u) => u in s.spawns && s.spawns[u].Launched?
    case LoopHead(u) => u in s.spawns && s.spawns[u].AtHead?
    case ReadEffect(u, answer) =>
      u in s.spawns && s.spawns[u].Reading? && (answer.Some? ==> s.spawns[u].cid in s.fleet)
    case CallRaises(u, _) => u in s.spawns && (s.spawns[u].Reading? || s.spawns[u].Checking? || s.spawns[u].Raising?)
    case ReadResume(u) => u in s.spawns && s.spawns[u].ReadDone?
    case StatusEffect(u, answer) =>
      u in s.spawns && s.spawns[u].Checking? && (answer.Some? ==> s.spawns[u].cid in s.fleet)
    case StatusResume(u) => u in s.spawns && s.spawns[u].Checked?
    case RaiseResume(u) => u in s.spawns && (s.spawns[u].LaunchFailed? || s.spawns[u].Raising?)
    case CleanUp(u, _) => u in s.spawns && s.spawns[u].Removing?
    case KillStart(k, _) => k !in s.kills
    case KillRemove(k, _) => k in s.kills && s.kills[k].KillRemoving?
    case KillAborts(k, _) => k in s.kills && s.kills[k].KillRemoving?
    case KillWrite(k) => k in s.kills && s.kills[k].KillWriting?
    case SweepStart(queue) => s.sweep.NoSweep? && Lists(queue, s.rows, DueUuids(s.rows, s.now))
    case SweepSkip => AtRow(s) && !s.sweep.removed && Protected(c, s.sweep.start, s.sweep.queue[0].row)
    case SweepRemove(_) => AtRow(s) && !s.sweep.removed && !Protected(c, s.sweep.start, s.sweep.queue[0].row)
    case SweepAborts(_) => AtRow(s) && !s.sweep.removed && !Protected(c, s.sweep.start, s.sweep.queue[0].row)
    case SweepWrite => AtRow(s) && s.sweep.removed
    case SweepEnd => s.sweep.Sweeping? && s.sweep.queue == []
    case Restart(_, _) => true
  }

  /** The daemon's contract for a new container: a never-issued id, a free name. */
  predicate CanCreate(c: Config, s: State, u: Uuid, x: Cid) {
    IsCid(x) && x !in s.born && x !in s.fleet && forall y | y in s.fleet :: s.fleet[y].name != c.ContainerName(u)
  }

  function Create(c: Config, s: State, u: Uuid, x: Cid): State {
    s.(fleet := s.fleet[x := Container(c.ContainerName(u), Some(u))], born := s.born[x := u])
  }

  predicate AtRow(s: State) {
    s.sweep.Sweeping? && |s.sweep.queue| > 0
  }

  function At(s: State, u: Uuid, pc: SpawnPc): State {
    s.(spawns := s.spawns[u := pc])
  }

  /** The exception handler up to its removal call: write `error`, then read back the id
      of the container this spawn recorded, if any. */
  function Fail(s: State, u: Uuid, message: string): State {
    var rows := SetStatus(s.rows, u, Error, Some(message));
    var cid := if u in rows then rows[u].containerId else None;
    s.(rows := rows,
       spawns := if cid.Some? && cid.value != "" then s.spawns[u := Removing(cid.value)] else s.spawns - {u})
  }

  /** The successful end of a spawn, with no condition on what the row says meanwhile. */
  function Finish(c: Config, s: State, u: Uuid, ready: Ready): State {
    s.(rows := SetRunning(s.rows, u, c.RpcUrlFor(u), ready),
       spawns := s.spawns - {u},
       returned := s.returned + {u},
       revived := if u in s.rows && !s.rows[u].IsActive() then s.revived + {u} else s.revived)
  }

  function Remove(s: State, cid: Option<Cid>, name: Option<string>, up: bool): Fleet {
    if up then RemoveRef(s.fleet, Ref(cid, name)) else s.fleet
  }

  function KillRemoval(s: State, k: nat, up: bool): Fleet
    requires k in s.kills
  {
    Remove(s, s.kills[k].row.containerId, Some(s.kills[k].row.containerName), up)
  }

  function SweepRemoval(s: State, up: bool): Fleet
    requires AtRow(s)
  {
    Remove(s, s.sweep.queue[0].row.containerId, Some(s.sweep.queue[0].row.containerName), up)
  }

  function Next(c: Config, s: State, st: Step): State
    requires Enabled(c, s, st)
  {
    match st
    case Tick(t) => s.(now := t)
    case Reserve(ip, u, t) =>
      if Refuses(c, s.rows, ip).Some? || u in s.rows then s.(now := t)
      else s.(now := t, rows := s.rows[u := ReservedRow(c, ip, u, s.now, t)], spawns := s.spawns[u := Launching])
    case Launch(u, x) => At(Create(c, s, u, x), u, Launched(x))
    case LaunchFails(u, created, message) =>
      At(if created.Some? then Create(c, s, u, created.value) else s, u, LaunchFailed(message))
    case LateLaunch(u, x) => Create(c, s, u, x).(limbo := s.limbo - {u})
    case RecordContainer(u) =>
      var x := s.spawns[u].cid;
      At(s.(rows := SetContainer(s.rows, u, x)), u, AtHead(x, s.now + c.BootWindow(), None))
    case LoopHead(u) =>
      var pc := s.spawns[u];
      if s.now < pc.deadline then At(s, u, Reading(pc.cid, pc.deadline))
      else if Usable(pc.ready) then Finish(c, s, u, pc.ready.value)
      else At(s, u, Raising(pc.cid, NotReady))
    case ReadEffect(u, answer) => At(s, u, ReadDone(s.spawns[u].cid, s.spawns[u].deadline, answer))
    case CallRaises(u, message) => Fail(s, u, message)
    case ReadResume(u) =>
      var pc := s.spawns[u];
      if Complete(pc.ready) then Finish(c, s, u, pc.ready.value)
      else At(s, u, Checking(pc.cid, pc.deadline, pc.ready))
    case StatusEffect(u, answer) =>
      var pc := s.spawns[u];
      At(s, u, Checked(pc.cid, pc.deadline, pc.ready, answer))
    case StatusResume(u) =>
      var pc := s.spawns[u];
      if Gone(pc.status) then At(s, u, Raising(pc.cid, Exited)) else At(s, u, AtHead(pc.cid, pc.deadline, pc.ready))
    case RaiseResume(u) => Fail(s, u, s.spawns[u].message)
    case CleanUp(u, up) =>
      s.(fleet := Remove(s, Some(s.spawns[u].cid), None, up), spawns := s.spawns - {u})
    case KillStart(k, u) =>
      if u in s.rows then s.(kills := s.kills[k := KillRemoving(u, s.rows[u])]) else s
    case KillRemove(k, up) =>
      s.(fleet := KillRemoval(s, k, up), kills := s.kills[k := KillWriting(s.kills[k].uuid, s.kills[k].row)])
    case KillAborts(k, up) =>
      s.(fleet := KillRemoval(s, k, up), kills := s.kills - {k})
    case KillWrite(k) =>
      var pc := s.kills[k];
      s.(rows := if pc.row.IsActive() then SetStatus(s.rows, pc.uuid, Killed, None) else s.rows,
         kills := s.kills - {k})
    case SweepStart(queue) => s.(sweep := Sweeping(s.now, queue, false))
    case SweepSkip => s.(sweep := s.sweep.(queue := s.sweep.queue[1..]))
    case SweepRemove(up) =>
      s.(fleet := SweepRemoval(s, up), sweep := s.sweep.(removed := true))
    case SweepAborts(up) => s.(fleet := SweepRemoval(s, up), sweep := NoSweep)
    case SweepWrite =>
      s.(rows := SetStatus(s.rows, s.sweep.queue[0].uuid, Expired, None),
         sweep := Sweeping(s.sweep.start, s.sweep.queue[1..], false))
    case SweepEnd => s.(sweep := NoSweep)
    case Restart(listed, stuck) =>
      s.(rows := ReconciledRows(s.rows, ManagedUuids(s.fleet, listed)),
         fleet := ReconciledFleet(s.rows, s.fleet, listed, stuck),
         limbo := s.limbo + (set u | u in s.spawns && s.spawns[u].Launching?),
         spawns := map[], kills := map[], sweep := NoSweep)
  }

  /** The operating assumptions: a launch takes effect within the boot window of its
      reservation and before any crash, or not at all; players kill only instances they were
      given (an unknown uuid is harmless); the clock is monotone; removals and listings
      succeed. */
  predicate Benign(c: Config, s: State, st: Step) {
    match st
    case Tick(t) => s.now <= t
    case Reserve(_, _, t) => s.now <= t
    case Launch(u, _) => u in s.rows && s.now - s.rows[u].createdAt < c.BootWindow()
    case LaunchFails(_, created, _) => created.None?
    case LateLaunch(_, _) => false
    case CleanUp(_, up) => up
    case KillStart(_, u) => u in s.returned || u !in s.rows
    case KillRemove(_, up) => up
    case KillAborts(_, _) => false
    case SweepRemove(up) => up
    case SweepAborts(_) => false
    case Restart(listed, stuck) => listed && stuck == {}
    case _ => true
  }

  // ---- runs ----

  /** A run from an empty registry: state `i + 1` follows state `i` by step `i`. */
  ghost predicate Run(c: Config, ss: seq<State>, steps: seq<Step>) {
    && |ss| == |steps| + 1
    && ss[0] == Genesis
    && forall i | 0 <= i < |steps| :: Enabled(c, ss[i], steps[i]) && ss[i + 1] == Next(c, ss[i], steps[i])
  }

  /** A run all of whose steps meet the operating assumptions. */
  ghost predicate BenignRun(c: Config, ss: seq<State>, steps: seq<Step>) {
    Run(c, ss, steps) && forall i | 0 <= i < |steps| :: Benign(c, ss[i], steps[i])
  }
}
