/** The steps of spawns, kills, restarts and the reaper, each with when it can be taken and
    what it does. */
module Segments {
  import opened Wrappers
  import opened Configuration
  import opened Docker
  import opened Registries
  import opened Lifecycle

  /** `st` can be taken in `s` and leads to `t`. */
  ghost predicate Leads(c: Config, s: State, st: Step, t: State) {
    Enabled(c, s, st) && Next(c, s, st) == t
  }

  lemma TickLeads(c: Config, s: State, time: real)
    ensures Leads(c, s, Tick(time), s.(now := time))
  {}

  lemma ReserveLeads(c: Config, s: State, ip: string, u: Uuid, time: real)
    ensures Leads(c, s, Reserve(ip, u, time),
              if Refuses(c, s.rows, ip).Some? || u in s.rows then s.(now := time)
              else At(s.(now := time, rows := s.rows[u := ReservedRow(c, ip, u, s.now, time)]), u, Launching))
  {}

  lemma LaunchLeads(c: Config, s: State, u: Uuid, x: Cid)
    requires u in s.spawns && s.spawns[u].Launching? && CanCreate(c, s, u, x)
    ensures Leads(c, s, Launch(u, x), At(Create(c, s, u, x), u, Launched(x)))
  {}

  lemma LaunchFailsLeads(c: Config, s: State, u: Uuid, created: Option<Cid>, why: string)
    requires u in s.spawns && s.spawns[u].Launching? && (created.Some? ==> CanCreate(c, s, u, created.value))
    ensures Leads(c, s, LaunchFails(u, created, why),
              At(if created.Some? then Create(c, s, u, created.value) else s, u, LaunchFailed(why)))
  {}

  lemma RecordLeads(c: Config, s: State, u: Uuid)
    requires u in s.spawns && s.spawns[u].Launched?
    ensures var cid := s.spawns[u].cid;
      Leads(c, s, RecordContainer(u),
        At(s.(rows := SetContainer(s.rows, u, cid)), u, AtHead(cid, s.now + c.BootWindow(), None)))
  {}

  lemma HeadLeads(c: Config, s: State, u: Uuid)
    requires u in s.spawns && s.spawns[u].AtHead?
    ensures var pc := s.spawns[u];
      Leads(c, s, LoopHead(u),
        if s.now < pc.deadline then At(s, u, Reading(pc.cid, pc.deadline))
        else if Usable(pc.ready) then Finish(c, s, u, pc.ready.value)
        else At(s, u, Raising(pc.cid, NotReady)))
  {}

  lemma ReadLeads(c: Config, s: State, u: Uuid, answer: Option<Ready>)
    requires u in s.spawns && s.spawns[u].Reading? && (answer.Some? ==> s.spawns[u].cid in s.fleet)
    ensures Leads(c, s, ReadEffect(u, answer), At(s, u, ReadDone(s.spawns[u].cid, s.spawns[u].deadline, answer)))
  {}

  lemma ReadResumeLeads(c: Config, s: State, u: Uuid)
    requires u in s.spawns && s.spawns[u].ReadDone?
    ensures var pc := s.spawns[u];
      Leads(c, s, ReadResume(u),
        if Complete(pc.ready) then Finish(c, s, u, pc.ready.value)
          else At(s, u, Checking(pc.cid, pc.deadline, pc.ready)))
  {}

  lemma StatusLeads(c: Config, s: State, u: Uuid, answer: Option<string>)
    requires u in s.spawns && s.spawns[u].Checking? && (answer.Some? ==> s.spawns[u].cid in s.fleet)
    ensures var pc := s.spawns[u];
      Leads(c, s, StatusEffect(u, answer), At(s, u, Checked(pc.cid, pc.deadline, pc.ready, answer)))
  {}

  lemma StatusResumeLeads(c: Config, s: State, u: Uuid)
    requires u in s.spawns && s.spawns[u].Checked?
    ensures var pc := s.spawns[u];
      Leads(c, s, StatusResume(u),
        At(s, u, if Gone(pc.status) then Raising(pc.cid, Exited) else AtHead(pc.cid, pc.deadline, pc.ready)))
  {}

  lemma RaiseLeads(c: Config, s: State, u: Uuid)
    requires u in s.spawns && (s.spawns[u].LaunchFailed? || s.spawns[u].Raising?)
    ensures Leads(c, s, RaiseResume(u), Fail(s, u, s.spawns[u].message))
  {}

  lemma CallRaisesLeads(c: Config, s: State, u: Uuid, why: string)
    requires u in s.spawns && (s.spawns[u].Reading? || s.spawns[u].Checking? || s.spawns[u].Raising?)
    ensures Leads(c, s, CallRaises(u, why), Fail(s, u, why))
  {}

  lemma CleanUpLeads(c: Config, s: State, u: Uuid, up: bool)
    requires u in s.spawns && s.spawns[u].Removing?
    ensures Leads(c, s, CleanUp(u, up),
      s.(fleet := Remove(s, Some(s.spawns[u].cid), None, up), spawns := s.spawns - {u}))
  {}

  lemma KillStartLeads(c: Config, s: State, k: nat, u: Uuid)
    requires k !in s.kills
    ensures Leads(c, s, KillStart(k, u),
      if u in s.rows then s.(kills := s.kills[k := KillRemoving(u, s.rows[u])]) else s)
  {}

  lemma KillRemoveLeads(c: Config, s: State, k: nat, up: bool)
    requires k in s.kills && s.kills[k].KillRemoving?
    ensures var pc := s.kills[k];
      && Leads(c, s, KillRemove(k, up),
        s.(fleet := KillRemoval(s, k, up), kills := s.kills[k := KillWriting(pc.uuid, pc.row)]))
      && Leads(c, s, KillAborts(k, up), s.(fleet := KillRemoval(s, k, up), kills := s.kills - {k}))
  {}

  lemma KillWriteLeads(c: Config, s: State, k: nat)
    requires k in s.kills && s.kills[k].KillWriting?
    ensures var pc := s.kills[k];
      Leads(c, s, KillWrite(k),
        s.(rows := if pc.row.IsActive() then SetStatus(s.rows, pc.uuid, Killed, None) else s.rows,
           kills := s.kills - {k}))
  {}

  lemma RestartLeads(c: Config, s: State, listed: bool, stuck: set<Cid>)
    ensures Enabled(c, s, Restart(listed, stuck))
    ensures var t := Next(c, s, Restart(listed, stuck));
      && t.rows == ReconciledRows(s.rows, ManagedUuids(s.fleet, listed)) &&
        t.fleet == ReconciledFleet(s.rows, s.fleet, listed, stuck)
      && t.born == s.born && t.now == s.now
      // Every task is gone; launches under way can still take effect.
      && t.spawns == map[] && t.kills == map[] && t.sweep == NoSweep
      && (forall u :: u in t.limbo <==> u in s.limbo || (u in s.spawns && s.spawns[u].Launching?))
  {}

  lemma LateLaunchLeads(c: Config, s: State, u: Uuid, x: Cid)
    requires u in s.limbo && CanCreate(c, s, u, x)
    ensures Leads(c, s, LateLaunch(u, x), Create(c, s, u, x).(limbo := s.limbo - {u}))
  {}

  // ---- the reaper ----

  lemma SweepStartLeads(c: Config, s: State, queue: seq<Record>)
    requires s.sweep.NoSweep? && Lists(queue, s.rows, DueUuids(s.rows, s.now))
    ensures Leads(c, s, SweepStart(queue), s.(sweep := Sweeping(s.now, queue, false)))
  {}

  /** A row still in its boot window is skipped, any other is removed first, or the call
      raises, and is written afterwards. */
  lemma SweepRowLeads(c: Config, s: State, up: bool)
    requires AtRow(s) && !s.sweep.removed
    ensures var row, rest := s.sweep.queue[0].row, s.sweep.queue[1..];
      var booting := row.status == Starting && s.sweep.start - row.createdAt < c.bootTimeout as real;
      && (booting ==> Leads(c, s, SweepSkip, s.(sweep := s.sweep.(queue := rest))))
      && (!booting ==>
            && Leads(c, s, SweepRemove(up), s.(fleet := SweepRemoval(s, up), sweep := s.sweep.(removed := true)))
            && Leads(c, s, SweepAborts(up), s.(fleet := SweepRemoval(s, up), sweep := NoSweep)))
  {}

  lemma SweepWriteLeads(c: Config, s: State)
    requires AtRow(s) && s.sweep.removed
    ensures Leads(c, s, SweepWrite,
              s.(rows := SetStatus(s.rows, s.sweep.queue[0].uuid, Expired, None),
                 sweep := Sweeping(s.sweep.start, s.sweep.queue[1..], false)))
  {}

  lemma SweepEndLeads(c: Config, s: State)
    requires s.sweep.Sweeping? && s.sweep.queue == []
    ensures Leads(c, s, SweepEnd, s.(sweep := NoSweep))
  {}
}
