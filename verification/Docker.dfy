/** The Docker daemon as the orchestrator sees it: a set of containers addressed by
    id or by name. */
module Docker {
  import opened Wrappers
  import opened Configuration

  type Cid = string

  /** A managed container: its name and its `suictf.uuid` label, if it carries one. */
  datatype Container = Container(name: string, uuid: Option<string>)

  type Fleet = map<Cid, Container>

  datatype Ready = Ready(
    packageId: string, privateKey: string, playerAddress: string, deployerAddress: string, objects: seq<ChainObject>)

  datatype ChainObject = ChainObject(objectId: string, objectType: Option<string>)

  /** Daemon-issued ids are 64 lower-case hexadecimal characters. */
  predicate IsCid(x: Cid) {
    |x| == 64 && forall i | 0 <= i < |x| :: '0' <= x[i] <= '9' || 'a' <= x[i] <= 'f'
  }

  /** `container_id or container_name`, with the empty string for "neither". */
  function Ref(cid: Option<Cid>, name: Option<string>): string {
    if cid.Some? && cid.value != "" then cid.value
    else if name.Some? then name.value
    else ""
  }

  /** The fleet once the container `ref` designates is gone: an id wins over a name,
      and an unknown or empty reference designates nothing. */
  function RemoveRef(f: Fleet, ref: string): Fleet {
    if ref == "" then f
    else if ref in f then f - {ref}
    else map x | x in f && f[x].name != ref :: f[x]
  }

  function LabelledUuids(f: Fleet): set<Option<string>> {
    set x | x in f :: f[x].uuid
  }

  datatype Listed = Listed(id: Cid, name: string, uuid: Option<string>)

  /** `out` lists each container of `f` exactly once, in any order. */
  ghost predicate ListsFleet(out: seq<Listed>, f: Fleet) {
    && (forall i | 0 <= i < |out| ::
      out[i].id in f && out[i].name == f[out[i].id].name && out[i].uuid == f[out[i].id].uuid)
    && (forall i, j | 0 <= i < j < |out| :: out[i].id != out[j].id)
    && (forall x | x in f :: exists i | 0 <= i < |out| :: out[i].id == x)
  }

  /** A container name is never mistaken for an id. */
  lemma NameIsNotCid(c: Config, u: string, x: Cid)
    requires IsCid(x)
    ensures c.ContainerName(u) != x
  {
    assert c.ContainerName(u)[|c.namePrefix|] == '-';
  }

  /** Every container was created for the uuid `born` records for its id, under that
      uuid's name and label, and no uuid got two. */
  predicate WellBorn(c: Config, f: Fleet, born: map<Cid, string>) {
    && (forall x | x in born :: IsCid(x))
    && (forall x, y | x in born && y in born && born[x] == born[y] :: x == y)
    && (forall x | x in f :: x in born && f[x] == Container(c.ContainerName(born[x]), Some(born[x])))
  }

  /** The containers that do not belong to `u`. */
  function Others(f: Fleet, u: string): Fleet {
    map x | x in f && f[x].uuid != Some(u) :: f[x]
  }

  /** Whether it addresses its container by id or, when no id is recorded yet, by name,
      a removal for `u` takes away exactly the container of `u`. */
  lemma RemovalIsExact(c: Config, f: Fleet, born: map<Cid, string>, u: string, cid: Option<Cid>)
    requires WellBorn(c, f, born)
    requires cid.Some? ==> cid.value in born && born[cid.value] == u
    ensures RemoveRef(f, Ref(cid, Some(c.ContainerName(u)))) == Others(f, u)
    ensures cid.Some? ==> RemoveRef(f, Ref(cid, None)) == Others(f, u)
  {
    var name := c.ContainerName(u);
    assert |name| > 0;
    forall x | x in f
      ensures x != name && (f[x].name == name <==> born[x] == u)
      ensures cid.Some? ==> f[x].name != cid.value
    {
      NameIsNotCid(c, u, x);
      NamesInjective(c, born[x], u);
      if cid.Some? {
        NameIsNotCid(c, born[x], cid.value);
      }
    }
    if cid.Some? {
      assert RemoveRef(f, cid.value) == Others(f, u);
    } else {
      assert RemoveRef(f, name) == Others(f, u);
    }
  }

  /** One new container `id` of `uuid`, under an id never issued before and a free name. */
  ghost predicate IsLaunch(f: Fleet, born: map<Cid, string>, f': Fleet, born': map<Cid, string>, uuid: string,
                           name: string, id: Cid) {
    && IsCid(id) && id !in f && id !in born
    && (forall x | x in f :: f[x].name != name)
    && f' == f[id := Container(name, Some(uuid))] && born' == born[id := uuid]
  }

  /** Blocking calls to the daemon. `up` says whether the daemon carries the call out; the
      code swallows the exception when it does not. */
  class DockerManager {
    var fleet: Fleet
    var born: map<Cid, string>
    ghost var answers: set<(Cid, Ready)>   // every answer read so far, with the container it came from

    constructor (f: Fleet, b: map<Cid, string>)
      ensures fleet == f && born == b
    {
      fleet, born, answers := f, b, {};
    }

    method StopAndRemove(containerId: Option<Cid>, containerName: Option<string>, up: bool)
      modifies this`fleet
      ensures fleet == if up then RemoveRef(old(fleet), Ref(containerId, containerName)) else old(fleet)
      // With an id, the name plays no part, whether or not there is such a container.
      ensures up && containerId.Some? && containerId.value != "" ==>
        && (containerId.value in old(fleet) ==> fleet == old(fleet) - {containerId.value})
        && (containerId.value !in old(fleet) ==>
              fleet == map x | x in old(fleet) && old(fleet)[x].name != containerId.value :: old(fleet)[x])
      // Without one, it is the name; the empty string counts as no id.
      ensures up && (containerId.None? || containerId.value == "") && containerName.Some? ==>
        containerName.value != "" && containerName.value !in old(fleet) ==>
        fleet == map x | x in old(fleet) && old(fleet)[x].name != containerName.value :: old(fleet)[x]
      ensures (containerId.None? || containerId.value == "") && (containerName.None? || containerName.value == "") ==>
        fleet == old(fleet)
    {
      var ref := Ref(containerId, containerName);
      if ref == "" || !up {
        return;
      }
      if ref in fleet {
        fleet := fleet - {ref};
      } else {
        fleet := map x | x in fleet && fleet[x].name != ref :: fleet[x];
      }
    }

    /** Launches a container, or raises: always when the name is taken, otherwise at the
        daemon's discretion. `clean` says that a call that raises has created nothing;
        otherwise `leftover` is the container it created all the same, which the code does
        not learn and only the run records. */
    method RunInstance(uuid: string, containerName: string, clean: bool)
      returns (r: Option<Cid>, why: string, leftover: Option<Cid>)
      modifies this`fleet, this`born
      ensures r.Some? ==> leftover.None? && IsLaunch(old(fleet), old(born), fleet, born, uuid, containerName, r.value)
      ensures r.None? && leftover.None? ==> fleet == old(fleet) && born == old(born)
      ensures leftover.Some? ==>
        !clean && IsLaunch(old(fleet), old(born), fleet, born, uuid, containerName, leftover.value)
    {
      var id: Cid := *;
      var created: bool := *;
      var raised: bool := *;
      r, why, leftover := None, *, None;
      var free := IsCid(id) && id !in fleet && id !in born && forall x | x in fleet :: fleet[x].name != containerName;
      if created && free && (raised ==> !clean) {
        fleet := fleet[id := Container(containerName, Some(uuid))];
        born := born[id := uuid];
        if raised {
          leftover := Some(id);
        } else {
          r := Some(id);
        }
      }
    }

    /** The instance's ready.json, or nothing while it is missing or unreadable. A daemon
        error other than "no such container" raises, as does one of the connection. */
    method ReadReady(cid: Cid) returns (r: Result<Option<Ready>, string>)
      modifies this`answers
      ensures r.Success? && r.value.Some? ==> cid in fleet && answers == old(answers) + {(cid, r.value.value)}
      ensures r.Failure? || r.value.None? ==> answers == old(answers)
    {
      r := *;
      if r.Success? && r.value.Some? {
        if cid !in fleet {
          return Success(None);
        }
        answers := answers + {(cid, r.value.value)};
      }
    }

    /** The container's status, or nothing when there is none or the daemon reports an
        error; an error of the connection itself raises. */
    method ContainerStatus(cid: Cid) returns (r: Result<Option<string>, string>)
      ensures r.Success? && r.value.Some? ==> cid in fleet
    {
      r := *;
      if r.Success? && cid !in fleet {
        r := Success(None);
      }
    }

    /** All containers carrying the management label, in the daemon's own order; an
        unreachable daemon yields the empty list. */
    method ListManaged(up: bool) returns (out: seq<Listed>)
      ensures up ==> ListsFleet(out, fleet)
      ensures !up ==> out == []
    {
      out := [];
      if !up {
        return;
      }
      var todo := fleet.Keys;
      while todo != {}
        invariant todo <= fleet.Keys
        invariant ListsFleet(out, map x | x in fleet && x !in todo :: fleet[x])
        decreases |todo|
      {
        var x :| x in todo;
        ghost var before, seen := out, map y | y in fleet && y !in todo :: fleet[y];
        out := out + [Listed(x, fleet[x].name, fleet[x].uuid)];
        todo := todo - {x};
        forall y | y in fleet && y !in todo
          ensures exists i :: 0 <= i < |out| && out[i].id == y
        {
          if y == x {
            assert out[|before|].id == y;
          } else {
            assert y in seen;
            var i :| 0 <= i < |before| && before[i].id == y;
            assert out[i].id == y;
          }
        }
      }
      assert (map x | x in fleet && x !in todo :: fleet[x]) == fleet;
    }
  }
}
