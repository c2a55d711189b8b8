/** Concurrency caps: a total and a count per key, bumped when work is admitted and taken
    back when it ends. The RPC proxy keys requests by uuid; the nc server keys connections
    by address. */
module Admission {
  import opened Wrappers
  import opened Registries

  datatype Limits = Limits(total: int, perKey: int)

  /** The two counters, as the code keeps them. */
  datatype Gate = Gate(total: int, per: map<string, int>)

  const Idle := Gate(0, map[])

  function CountOf(per: map<string, int>, key: string, missing: int): int {
    if key in per then per[key] else missing
  }

  predicate Full(l: Limits, g: Gate, key: string) {
    g.total >= l.total || CountOf(g.per, key, 0) >= l.perKey
  }

  function Begin(l: Limits, g: Gate, key: string): Gate {
    if Full(l, g, key) then g else Gate(g.total + 1, g.per[key := CountOf(g.per, key, 0) + 1])
  }

  function End(g: Gate, key: string): Gate {
    var left := CountOf(g.per, key, 1) - 1;
    Gate(g.total - 1, if left <= 0 then g.per - {key} else g.per[key := left])
  }

  // ---- what the counters should say ----

  /** The counters that describe the work in progress exactly: no zero entries, no stale keys. */
  function Tally(open: multiset<string>): Gate {
    Gate(|open|, map k | k in open :: open[k])
  }

  predicate Room(l: Limits, open: multiset<string>, key: string) {
    |open| < l.total && open[key] < l.perKey
  }

  ghost predicate WithinLimits(l: Limits, open: multiset<string>) {
    && (|open| <= l.total || open == multiset{})
    && forall k :: open[k] <= l.perKey || open[k] == 0
  }

  lemma {:induction false} BeginTally(l: Limits, open: multiset<string>, key: string)
    ensures Full(l, Tally(open), key) <==> !Room(l, open, key)
    ensures Begin(l, Tally(open), key) == Tally(if Room(l, open, key) then open + multiset{key} else open)
  {
    assert CountOf(Tally(open).per, key, 0) == open[key];
  }

  lemma {:induction false} EndTally(open: multiset<string>, key: string)
    requires key in open
    ensures End(Tally(open), key) == Tally(open - multiset{key})
  {}

  lemma {:induction false} LimitsStay(l: Limits, open: multiset<string>, key: string)
    requires WithinLimits(l, open)
    ensures WithinLimits(l, open - multiset{key})
    ensures Room(l, open, key) ==> WithinLimits(l, open + multiset{key})
  {}

  /** The sum of the per-key counts, whatever order they are added in. */
  ghost function Sum(per: map<string, int>): int
    decreases |per|
  {
    if per == map[] then 0 else
    var k :| k in per;
    per[k] + Sum(per - {k})
  }

  lemma {:induction false} SumOfTally(open: multiset<string>)
    ensures Sum(Tally(open).per) == |open|
    decreases |open|
  {
    var per := Tally(open).per;
    if per == map[] {
      assert open == multiset{} by {
        forall k ensures open[k] == 0 { assert k !in per; }
      }
    } else {
      var k :| k in per && Sum(per) == per[k] + Sum(per - {k});
      var rest := open[k := 0];
      assert Tally(rest).per == per - {k};
      assert open == rest + multiset{}[k := open[k]];
      SumOfTally(rest);
    }
  }

  // ---- whole histories ----

  datatype Event = Arrives(key: string) | Finishes(key: string)

  /** The work in progress after a history, deciding each arrival by the work itself. */
  function OpenAfter(l: Limits, events: seq<Event>): multiset<string> {
    if events == [] then multiset{}
    else
      var open := OpenAfter(l, events[..|events| - 1]);
      match events[|events| - 1]
      case Arrives(k) => if Room(l, open, k) then open + multiset{k} else open
      case Finishes(k) => open - multiset{k}
  }

  /** The counters after the same history, each arrival decided by the counters. */
  function GateAfter(l: Limits, events: seq<Event>): Gate {
    if events == [] then Idle
    else
      var g := GateAfter(l, events[..|events| - 1]);
      match events[|events| - 1]
      case Arrives(k) => Begin(l, g, k)
      case Finishes(k) => End(g, k)
  }

  /** Only admitted work finishes, in any order. */
  ghost predicate Lawful(l: Limits, events: seq<Event>) {
    forall i | 0 <= i < |events| && events[i].Finishes? :: events[i].key in OpenAfter(l, events[..i])
  }

  /** The counters follow the work in progress, and the caps hold. */
  lemma {:induction false} CountersFollow(l: Limits, events: seq<Event>)
    requires Lawful(l, events)
    ensures GateAfter(l, events) == Tally(OpenAfter(l, events))
    ensures WithinLimits(l, OpenAfter(l, events))
  {
    hide Tally, WithinLimits, Begin, End, Room;
    if events == [] {
      NothingOpen(l);
    } else {
      var before, last := events[..|events| - 1], events[|events| - 1];
      EarlierLawful(l, events);
      CountersFollow(l, before);
      var open := OpenAfter(l, before);
      LimitsStay(l, open, last.key);
      match last {
        case Arrives(k) => BeginTally(l, open, k);
        case Finishes(k) => EndTally(open, k);
      }
    }
  }

  lemma {:induction false} EarlierLawful(l: Limits, events: seq<Event>)
    requires Lawful(l, events) && events != []
    ensures Lawful(l, events[..|events| - 1])
    ensures events[|events| - 1].Finishes? ==> events[|events| - 1].key in OpenAfter(l, events[..|events| - 1])
  {
    hide OpenAfter;
    var before := events[..|events| - 1];
    forall i | 0 <= i < |before| && before[i].Finishes?
      ensures before[i].key in OpenAfter(l, before[..i])
    {
      assert before[..i] == events[..i] && events[i] == before[i];
    }
  }

  lemma {:induction false} NothingOpen(l: Limits)
    ensures Tally(multiset{}) == Idle && WithinLimits(l, multiset{})
  {}

  /** After any history the counters equal the work in progress, total and key by key, the
      total is the sum of the entries, both caps hold, and when everything has finished the
      counters are back to zero and the table is empty. */
  lemma {:induction false} CountersAgree(l: Limits, events: seq<Event>)
    requires Lawful(l, events)
    ensures GateAfter(l, events) == Tally(OpenAfter(l, events))
    ensures Sum(GateAfter(l, events).per) == GateAfter(l, events).total
    ensures WithinLimits(l, OpenAfter(l, events))
    ensures OpenAfter(l, events) == multiset{} ==> GateAfter(l, events) == Idle
  {
    CountersFollow(l, events);
    SumOfTally(OpenAfter(l, events));
    NothingOpen(l);
  }

  /** The two comparisons and the two increments. */
  lemma AdmitTally(l: Limits, g: Gate, open: multiset<string>, more: multiset<string>, key: string)
    requires g == Tally(open) && WithinLimits(l, open) && more == open + multiset{key}
    ensures g.total >= l.total || CountOf(g.per, key, 0) >= l.perKey <==> !Room(l, open, key)
    ensures Room(l, open, key) ==>
      Gate(g.total + 1, g.per[key := CountOf(g.per, key, 0) + 1]) == Tally(more) && WithinLimits(l, more)
  {
    BeginTally(l, open, key);
    LimitsStay(l, open, key);
  }

  /** Writing the lowered count and then dropping it if it is used up. */
  lemma FinishTally(l: Limits, g: Gate, open: multiset<string>, rest: multiset<string>, key: string)
    requires g == Tally(open) && WithinLimits(l, open) && key in open && rest == open - multiset{key}
    ensures var per := g.per[key := CountOf(g.per, key, 1) - 1];
      && key in per
      && (per[key] <= 0 ==> Gate(g.total - 1, per - {key}) == Tally(rest))
      && (per[key] > 0 ==> Gate(g.total - 1, per) == Tally(rest))
    ensures WithinLimits(l, rest)
  {
    var n := CountOf(g.per, key, 1) - 1;
    assert g.per[key := n] - {key} == g.per - {key};
    EndTally(open, key);
    LimitsStay(l, open, key);
  }

  // ---- the code ----

  /** The counters as fields updated in place; `open` is the work they stand for. */
  class Counters {
    const limits: Limits
    var total: int
    var per: map<string, int>
    ghost var open: multiset<string>

    ghost predicate Valid()
      reads this
    {
      Gate(total, per) == Tally(open) && WithinLimits(limits, open)
    }

    constructor (l: Limits)
      ensures Valid() && limits == l && open == multiset{}
    {
      limits := l;
      total, per, open := 0, map[], multiset{};
    }

    method TryBegin(key: string) returns (admitted: bool)
      requires Valid()
      modifies this
      ensures Valid()
      ensures admitted <==> |old(open)| < limits.total && old(open)[key] < limits.perKey
      ensures open == if admitted then old(open) + multiset{key} else old(open)
    {
      ghost var more := open + multiset{key};
      AdmitTally(limits, Gate(total, per), open, more, key);
      assert Room(limits, open, key) <==> |open| < limits.total && open[key] < limits.perKey;
      hide *;
      if total >= limits.total || CountOf(per, key, 0) >= limits.perKey {
        return false;
      }
      total, per, open := total + 1, per[key := CountOf(per, key, 0) + 1], more;
      return true;
    }

    method Finish(key: string)
      requires Valid() && key in open
      modifies this
      ensures Valid() && open == old(open) - multiset{key}
    {
      ghost var rest := open - multiset{key};
      FinishTally(limits, Gate(total, per), open, rest, key);
      hide *;
      var left := per[key := CountOf(per, key, 1) - 1];
      if left[key] <= 0 {
        left := left - {key};
      }
      assert Gate(total - 1, left) == Tally(rest);
      total, per, open := total - 1, left, rest;
    }

    /** Any number of other arrivals and departures while one piece of work for `mine` is
        in progress, in any order. */
    method Others(mine: string)
      requires Valid() && mine in open
      modifies this
      ensures Valid() && mine in open
    {
      var more: int := *;
      while more > 0
        invariant Valid() && mine in open
      {
        more := more - 1;
        var key: string := *;
        var arrives: bool := *;
        if arrives {
          var admitted := TryBegin(key);
        } else if key in per && (key != mine || per[key] > 1) {
          Finish(key);
        }
      }
    }
  }

  /** The proxy's answer to a request before it is forwarded; `None` lets it through. */
  class Proxy {
    const reg: Registry
    const inflight: Counters

    constructor (r: Registry, i: Counters)
      ensures reg == r && inflight == i
    {
      reg, inflight := r, i;
    }

    method Admit(uuid: Uuid) returns (code: Option<int>)
      requires inflight.Valid()
      modifies inflight
      ensures inflight.Valid()
      ensures code.None? <==>
        && uuid in reg.rows && reg.rows[uuid].status == Running
        && |old(inflight.open)| < inflight.limits.total && old(inflight.open)[uuid] < inflight.limits.perKey
      ensures code.Some? ==>
        code == Some(if uuid !in reg.rows then 404 else if reg.rows[uuid].status != Running then 503 else 429)
      ensures inflight.open == if code.None? then old(inflight.open) + multiset{uuid} else old(inflight.open)
    {
      var record := reg.Get(uuid);
      if record.None? {
        return Some(404);
      }
      if record.value.status != Running {
        return Some(503);
      }
      var admitted := inflight.TryBegin(uuid);
      if !admitted {
        return Some(429);
      }
      return None;
    }
  }
}
