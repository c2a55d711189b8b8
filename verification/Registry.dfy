/** The instance registry: one row per uuid, never deleted. */
module Registries {
  import opened Wrappers
  import opened Docker
  import opened Sets

  type Uuid = string

  datatype Status = Starting | Running | Expired | Killed | Error

  predicate Active(st: Status) {
    st == Starting || st == Running
  }

  datatype Row = Row(
    sourceIp: string, challenge: string, status: Status,
    containerId: Option<Cid>, containerName: string,
    createdAt: real, expiresAt: real,
    rpcUrl: Option<string>, playerAddress: Option<string>, playerPrivkey: Option<string>,
    deployerAddress: Option<string>, packageId: Option<string>, objects: seq<ChainObject>,
    flagMode: string, error: Option<string>)
  {
    predicate IsActive() {
      Active(status)
    }

    /** The columns an insert fixes and no update names. */
    function Identity(): (string, string, string, real, real, string) {
      (sourceIp, challenge, containerName, createdAt, expiresAt, flagMode)
    }

    function WithContainer(cid: Cid): Row {
      this.(containerId := Some(cid))
    }

    function WithRunning(url: string, ready: Ready): Row {
      this.(status := Running, rpcUrl := Some(url), playerAddress := Some(ready.playerAddress),
            playerPrivkey := Some(ready.privateKey), deployerAddress := Some(ready.deployerAddress),
            packageId := Some(ready.packageId), objects := ready.objects)
    }

    /** Writes the error column too: clearing it unless a message is given. */
    function WithStatus(st: Status, message: Option<string>): Row {
      this.(status := st, error := message)
    }
  }

  type Table = map<Uuid, Row>

  function FreshRow(ip: string, challenge: string, name: string, createdAt: real, expiresAt: real,
                    flagMode: string): Row {
    Row(ip, challenge, Starting, None, name, createdAt, expiresAt, None, None, None, None, None, [], flagMode, None)
  }

  /** An update whose key matches no row changes nothing; there is no condition on status. */
  function SetContainer(t: Table, u: Uuid, cid: Cid): Table {
    if u in t then t[u := t[u].WithContainer(cid)] else t
  }

  function SetRunning(t: Table, u: Uuid, url: string, ready: Ready): Table {
    if u in t then t[u := t[u].WithRunning(url, ready)] else t
  }

  function SetStatus(t: Table, u: Uuid, st: Status, message: Option<string>): Table {
    if u in t then t[u := t[u].WithStatus(st, message)] else t
  }

  function ActiveUuids(t: Table): set<Uuid> {
    set u | u in t && t[u].IsActive()
  }

  function ActiveUuidsFor(t: Table, ip: string): set<Uuid> {
    set u | u in t && t[u].IsActive() && t[u].sourceIp == ip
  }

  /** Active rows whose expiry lies strictly before `now`. */
  function DueUuids(t: Table, now: real): set<Uuid> {
    set u | u in t && t[u].IsActive() && t[u].expiresAt < now
  }

  datatype Record = Record(uuid: Uuid, row: Row)

  /** `out` holds the rows of `us`, each exactly once, in any order. */
  predicate Lists(out: seq<Record>, t: Table, us: set<Uuid>) {
    && (forall i | 0 <= i < |out| :: out[i].uuid in us && out[i].uuid in t && out[i].row == t[out[i].uuid])
    && (forall i, j | 0 <= i < j < |out| :: out[i].uuid != out[j].uuid)
    && (forall u | u in us :: exists i | 0 <= i < |out| :: out[i].uuid == u)
  }

  class Registry {
    var rows: Table

    constructor (t: Table)
      ensures rows == t
    {
      rows := t;
    }

    /** Inserts a `starting` row; a taken primary key is an error that changes nothing. */
    method Create(uuid: Uuid, sourceIp: string, challenge: string, containerName: string,
                  createdAt: real, expiresAt: real, flagMode: string) returns (ok: bool)
      modifies this
      ensures ok <==> uuid !in old(rows)
      ensures rows ==
        if ok then old(rows)[uuid := FreshRow(sourceIp, challenge, containerName, createdAt, expiresAt, flagMode)]
        else old(rows)
      ensures ok ==>
        var row := rows[uuid];
        && row.status == Starting && row.sourceIp == sourceIp && row.challenge == challenge
        && row.containerName == containerName && row.createdAt == createdAt && row.expiresAt == expiresAt
        && row.flagMode == flagMode && row.objects == []
        && row.containerId == row.rpcUrl == row.playerAddress == row.playerPrivkey == None
        && row.deployerAddress == row.packageId == row.error == None
    {
      ok := uuid !in rows;
      if ok {
        rows := rows[uuid := FreshRow(sourceIp, challenge, containerName, createdAt, expiresAt, flagMode)];
      }
    }

    method PutContainer(uuid: Uuid, cid: Cid)
      modifies this
      ensures rows == SetContainer(old(rows), uuid, cid)
      ensures rows.Keys == old(rows.Keys) && forall u | u in rows ::
        rows[u] == if u == uuid then old(rows)[u].(containerId := Some(cid)) else old(rows)[u]
    {
      if uuid in rows {
        rows := rows[uuid := rows[uuid].WithContainer(cid)];
      }
    }

    method PutRunning(uuid: Uuid, url: string, ready: Ready)
      modifies this
      ensures rows == SetRunning(old(rows), uuid, url, ready)
      ensures rows.Keys == old(rows.Keys) && forall u | u in rows && u != uuid :: rows[u] == old(rows)[u]
      ensures uuid in rows ==>
        var row, was := rows[uuid], old(rows)[uuid];
        && row.status == Running && row.rpcUrl == Some(url)
        && row.playerAddress == Some(ready.playerAddress) && row.playerPrivkey == Some(ready.privateKey)
        && row.deployerAddress == Some(ready.deployerAddress) && row.packageId == Some(ready.packageId)
        && row.objects == ready.objects
        && row.containerId == was.containerId && row.error == was.error && row.Identity() == was.Identity()
    {
      if uuid in rows {
        rows := rows[uuid := rows[uuid].WithRunning(url, ready)];
      }
    }

    method PutStatus(uuid: Uuid, st: Status, message: Option<string>)
      modifies this
      ensures rows == SetStatus(old(rows), uuid, st, message)
      ensures rows.Keys == old(rows.Keys) && forall u | u in rows ::
        rows[u] == if u == uuid then old(rows)[u].(status := st, error := message) else old(rows)[u]
    {
      if uuid in rows {
        rows := rows[uuid := rows[uuid].WithStatus(st, message)];
      }
    }

    method Get(uuid: Uuid) returns (r: Option<Row>)
      ensures r == if uuid in rows then Some(rows[uuid]) else None
    {
      r := if uuid in rows then Some(rows[uuid]) else None;
    }

    /** `SELECT COUNT(*)`: visits every row once, in any order. */
    method ActiveCountForIp(ip: string) returns (n: nat)
      ensures n == |ActiveUuidsFor(rows, ip)|
    {
      n := 0;
      ghost var us := ActiveUuidsFor(rows, ip);
      var todo := rows.Keys;
      while todo != {}
        invariant todo <= rows.Keys && n == |us - todo|
        decreases |todo|
      {
        var u :| u in todo;
        OneVisited(us, todo, u);
        todo := todo - {u};
        if rows[u].sourceIp == ip && (rows[u].status == Starting || rows[u].status == Running) {
          n := n + 1;
        }
      }
      assert us - todo == us;
    }

    method TotalActive() returns (n: nat)
      ensures n == |ActiveUuids(rows)|
    {
      n := 0;
      ghost var us := ActiveUuids(rows);
      var todo := rows.Keys;
      while todo != {}
        invariant todo <= rows.Keys && n == |us - todo|
        decreases |todo|
      {
        var u :| u in todo;
        OneVisited(us, todo, u);
        todo := todo - {u};
        if rows[u].status == Starting || rows[u].status == Running {
          n := n + 1;
        }
      }
      assert us - todo == us;
    }

    method AllActive() returns (out: seq<Record>)
      ensures Lists(out, rows, ActiveUuids(rows))
    {
      out := Select(ActiveUuids(rows));
    }

    method DueForReap(now: real) returns (out: seq<Record>)
      ensures Lists(out, rows, DueUuids(rows, now))
    {
      out := Select(DueUuids(rows, now));
    }

    /** Turns the selected rows into a list, in the order the database hands them over. */
    method Select(us: set<Uuid>) returns (out: seq<Record>)
      requires us <= rows.Keys
      ensures Lists(out, rows, us)
    {
      out := [];
      var todo := us;
      while todo != {}
        invariant todo <= us
        invariant Lists(out, rows, us - todo)
        decreases |todo|
      {
        var u :| u in todo;
        ghost var before, seen := out, us - todo;
        out := out + [Record(u, rows[u])];
        todo := todo - {u};
        forall v | v in us - todo
          ensures exists i :: 0 <= i < |out| && out[i].uuid == v
        {
          if v == u {
            assert out[|before|].uuid == v;
          } else {
            assert v in seen;
            var i :| 0 <= i < |before| && before[i].uuid == v;
            assert out[i].uuid == v;
          }
        }
      }
      assert us - todo == us;
    }
  }
}
