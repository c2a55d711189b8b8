/** The placeholder challenge end to end: the Move pool as a chain of transactions, and the
    flag the orchestrator hands out for it. */
module PoolChallenge {
  import opened Wrappers
  import opened Text
  import opened Docker
  import opened Registries
  import opened SolveCheck

  // ---- the Move module ----

  type U64 = n: nat | n < 0x1_0000_0000_0000_0000

  type ObjectId = string

  datatype Tx =
    | InitPool(id: ObjectId, amount: U64)          // `id` is the object id the chain assigns
    | DrainPool(id: ObjectId)
    | ClaimFlag(id: ObjectId, sender: string)

  /** Shared pools by object id, and the emitted events, oldest first. */
  datatype Ledger = Ledger(pools: map<ObjectId, U64>, claims: seq<string>)

  const Empty := Ledger(map[], [])

  /** Whether a transaction commits rather than aborts. */
  predicate Commits(l: Ledger, tx: Tx) {
    match tx
    case InitPool(id, _) => id !in l.pools
    case DrainPool(id) => id in l.pools
    case ClaimFlag(id, _) => id in l.pools && l.pools[id] == 0
  }

  function Exec(l: Ledger, tx: Tx): Ledger {
    if !Commits(l, tx) then l
    else match tx
      case InitPool(id, amount) => l.(pools := l.pools[id := amount])
      case DrainPool(id) => l.(pools := l.pools[id := 0])
      case ClaimFlag(_, sender) => l.(claims := l.claims + [sender])
  }

  function Replay(txs: seq<Tx>): Ledger {
    if txs == [] then Empty else Exec(Replay(txs[..|txs| - 1]), txs[|txs| - 1])
  }

  /** The module's entry functions on the chain's own storage. */
  class Chain {
    var pools: map<ObjectId, U64>
    var claims: seq<string>
    ghost var history: seq<Tx>

    ghost predicate Valid()
      reads this
    {
      Ledger(pools, claims) == Replay(history)
    }

    constructor ()
      ensures Valid() && history == []
    {
      pools, claims, history := map[], [], [];
    }

    /** Records `tx` as the latest transaction. */
    ghost method Record(tx: Tx)
      modifies this`history
      ensures history == old(history) + [tx] && Replay(history) == Exec(Replay(old(history)), tx)
    {
      history := history + [tx];
      assert history[..|history| - 1] == old(history);
    }

    method Init(amount: U64) returns (id: ObjectId)
      requires Valid()
      modifies this
      ensures Valid() && id !in old(pools) && history == old(history) + [InitPool(id, amount)]
      ensures pools == old(pools)[id := amount] && claims == old(claims)
    {
      id := FreshId();
      pools := pools[id := amount];
      Record(InitPool(id, amount));
    }

    method Drain(id: ObjectId) returns (ok: bool)
      requires Valid()
      modifies this
      ensures Valid() && (ok <==> id in old(pools)) && history == old(history) + [DrainPool(id)]
      ensures pools == (if ok then old(pools)[id := 0] else old(pools)) && claims == old(claims)
    {
      Record(DrainPool(id));
      ok := id in pools;
      if ok {
        pools := pools[id := 0];
      }
    }

    method Claim(id: ObjectId, sender: string) returns (ok: bool)
      requires Valid()
      modifies this
      ensures Valid() && (ok <==> id in old(pools) && old(pools)[id] == 0) &&
        history == old(history) + [ClaimFlag(id, sender)]
      ensures pools == old(pools) && claims == (if ok then old(claims) + [sender] else old(claims))
    {
      Record(ClaimFlag(id, sender));
      ok := id in pools && pools[id] == 0;
      if ok {
        claims := claims + [sender];
      }
    }

    /** An object id no pool has yet. */
    method FreshId() returns (id: ObjectId)
      ensures id !in pools
    {
      id := "0x";
      ghost var taken := pools.Keys;
      ghost var tried: set<ObjectId> := {};
      while id in pools
        invariant tried <= taken && forall t | t in tried :: |t| < |id|
        decreases taken - tried
      {
        tried := tried + {id};
        id := id + "0";
      }
    }
  }

  // ---- the orchestrator's side ----

  datatype Solve = StateSolve(state: StateSpec) | EventSolve(event: EventSpec) | OtherSolve(kind: string)

  datatype FlagAnswer = Solved(flag: string) | Unsolved | UnknownInstance | NotRunning(status: Status)
    | CheckFailed(error: SolveError)

  /** What an instance's RPC can be asked. */
  datatype Rpc = Rpc(objects: string -> Reply, log: seq<Emitted>)

  function CheckSolved(solve: Solve, rpc: Rpc, row: Row): Result<bool, SolveError> {
    match solve
    case StateSolve(spec) => CheckState(spec, rpc.objects, row.objects)
    case EventSolve(spec) => Success(CheckEvent(spec, rpc.log, row.packageId, row.playerAddress))
    case OtherSolve(kind) => Failure(UnknownType(kind))
  }

  function GetFlag(t: Table, u: Uuid, solve: Solve, flag: string, rpc: Rpc): FlagAnswer {
    if u !in t then UnknownInstance
    else if t[u].status != Running then NotRunning(t[u].status)
    else match CheckSolved(solve, rpc, t[u])
      case Failure(e) => CheckFailed(e)
      case Success(solved) => if solved then Solved(flag) else Unsolved
  }

  /** Every request for a flag is answered in one of five ways. A flag is only ever handed out
      for a known row that is running and whose check succeeds, and then it is the
      configured one; no error of any kind yields one. */
  lemma {:induction false} FlagNeedsRunning(t: Table, u: Uuid, solve: Solve, flag: string, rpc: Rpc)
    ensures var answer := GetFlag(t, u, solve, flag, rpc);
      && (answer == UnknownInstance <==> u !in t)
      && (u in t ==> (answer == NotRunning(t[u].status) <==> t[u].status != Running))
      && (answer.NotRunning? ==> u in t && t[u].status != Running)
      && (answer.Solved? ==> answer.flag == flag)
      && (answer.Solved? <==> u in t && t[u].status == Running && CheckSolved(solve, rpc, t[u]) == Success(true))
      && (answer == Unsolved <==> u in t && t[u].status == Running && CheckSolved(solve, rpc, t[u]) == Success(false))
      && (answer.CheckFailed? <==> u in t && t[u].status == Running && CheckSolved(solve, rpc, t[u]).Failure?)
  {
    hide CheckSolved;
  }

  /** An unknown kind of challenge makes the check fail, and an event challenge is decided by
      the event check on the row's own package and player. */
  lemma {:induction false} KindsOfCheck(t: Table, u: Uuid, solve: Solve, flag: string, rpc: Rpc)
    requires u in t && t[u].status == Running
    ensures solve.OtherSolve? ==> GetFlag(t, u, solve, flag, rpc) == CheckFailed(UnknownType(solve.kind))
    ensures solve.EventSolve? ==>
      GetFlag(t, u, solve, flag, rpc) ==
        if CheckEvent(solve.event, rpc.log, t[u].packageId, t[u].playerAddress) then Solved(flag) else Unsolved
  {
    hide CheckEvent, CheckState;
  }

  /** So do a failing RPC on the first matching object and an operator nobody knows. */
  lemma {:induction false} FailedChecks(t: Table, u: Uuid, spec: StateSpec, flag: string, rpc: Rpc, i: nat)
    requires u in t && t[u].status == Running
    requires i < |t[u].objects| && MatchesType(t[u].objects[i], spec.objectType)
    requires forall j | 0 <= j < i :: !MatchesType(t[u].objects[j], spec.objectType)
    ensures var reply, answer := rpc.objects(t[u].objects[i].objectId), GetFlag(t, u, StateSolve(spec), flag, rpc);
      && (reply == RpcError ==> answer == CheckFailed(RpcFailed))
      && (HoldsField(reply, spec.field) && spec.op.Some? && spec.op.value !in {"eq", "ne", "lt", "lte", "gt", "gte"} ==>
            answer == CheckFailed(UnknownOp(spec.op.value)))
  {
    var reply := rpc.objects(t[u].objects[i].objectId);
    if reply == RpcError {
      StateCheckMissing(spec, rpc.objects, t[u].objects, i);
    } else if HoldsField(reply, spec.field) && spec.op.Some? &&
      spec.op.value !in {"eq", "ne", "lt", "lte", "gt", "gte"} {
      UnknownOperatorFails(spec, rpc.objects, t[u].objects, i);
    }
    hide CheckState, MatchesType, HoldsField;
  }

  function Claims(packageId: string, claims: seq<string>): seq<Emitted> {
    seq(|claims|, i requires 0 <= i < |claims| => Emitted(packageId + "::pool::FlagClaimed", claims[i]))
  }

  /** The RPC of an instance whose chain holds `l`: u64 fields come back as text, events
      under the full name of their type. */
  function RpcOf(l: Ledger, packageId: string): Rpc {
    Rpc(id => if id in l.pools then Data(Some(Content(Some(map["balance" := Str(PrintInt(l.pools[id]))])))) else NoData,
        Claims(packageId, l.claims))
  }

  const Placeholder: Solve := StateSolve(StateSpec("::pool::Pool", "balance", Num(0), Some("eq")))

  /** The pool's balance is the seed until it is first drained, and zero ever after. */
  lemma {:induction false} BalanceTellsDrained(txs: seq<Tx>, p: ObjectId)
    requires |txs| > 0 && txs[0] == InitPool(p, 1000000)
    ensures p in Replay(txs).pools
    ensures Replay(txs).pools[p] == if DrainPool(p) in txs then 0 else 1000000
  {
    var front, last := txs[..|txs| - 1], txs[|txs| - 1];
    assert txs == front + [last];
    if front == [] {
      assert Replay(front) == Empty;
    } else {
      BalanceTellsDrained(front, p);
    }
  }

  /** The object list of the row matches the checked type only with the seeded pool. */
  ghost predicate OnlySeeded(objects: seq<ChainObject>, p: ObjectId) {
    && (exists obj | obj in objects :: MatchesType(obj, "::pool::Pool"))
    && forall obj | obj in objects && MatchesType(obj, "::pool::Pool") :: obj.objectId == p
  }

  /** From seeding to flag: over every history of the chain after the seeding, the flag of
      a running instance is handed out if and only if the seeded pool was drained, and
      otherwise the answer is "not solved". */
  lemma {:induction false} FlagIffDrained(t: Table, u: Uuid, flag: string, pkg: string, txs: seq<Tx>, p: ObjectId)
    requires u in t && t[u].status == Running && OnlySeeded(t[u].objects, p)
    requires |txs| > 0 && txs[0] == InitPool(p, 1000000)
    ensures GetFlag(t, u, Placeholder, flag, RpcOf(Replay(txs), pkg)) == if DrainPool(p) in txs then Solved(flag)
      else Unsolved
  {
    hide CoercePair, Apply, MatchesType;
    var l := Replay(txs);
    BalanceTellsDrained(txs, p);
    FoundMatches(t[u].objects, "::pool::Pool");
    var balance := Written(l.pools[p], "", "", 0, "");
    CanonicalText(balance);
    NumericOrder(Eq, balance, Plain(0));
  }

  /** Once handed out, the flag keeps being handed out whatever happens on the chain. */
  lemma {:induction false} FlagForever(t: Table, u: Uuid, flag: string, pkg: string, txs: seq<Tx>, more: seq<Tx>,
                                       p: ObjectId)
    requires u in t && t[u].status == Running && OnlySeeded(t[u].objects, p)
    requires |txs| > 0 && txs[0] == InitPool(p, 1000000)
    requires GetFlag(t, u, Placeholder, flag, RpcOf(Replay(txs), pkg)) == Solved(flag)
    ensures GetFlag(t, u, Placeholder, flag, RpcOf(Replay(txs + more), pkg)) == Solved(flag)
  {
    FlagIffDrained(t, u, flag, pkg, txs, p);
    FlagIffDrained(t, u, flag, pkg, txs + more, p);
  }

  const ByClaim: Solve := EventSolve(EventSpec("::pool::FlagClaimed", Player))

  lemma {:induction false} CountAtMost(log: seq<Emitted>, eventType: string)
    ensures CountType(log, eventType) <= |log|
  {
    if log != [] {
      CountAtMost(log[..|log| - 1], eventType);
    }
  }

  /** The claim-event variant: a flag means the row's own player claimed, and while there
      are at most fifty claims a claim means a flag. */
  lemma {:induction false} EventFlagMeansClaim(t: Table, u: Uuid, flag: string, l: Ledger, pkg: string, player: string)
    requires u in t && t[u].status == Running && pkg != ""
    requires t[u].packageId == Some(pkg) && t[u].playerAddress == Some(player)
    ensures GetFlag(t, u, ByClaim, flag, RpcOf(l, pkg)) == Solved(flag) ==> player in l.claims
    ensures |l.claims| <= PageSize && player in l.claims ==> GetFlag(t, u, ByClaim, flag, RpcOf(l, pkg)) == Solved(flag)
  {
    var suffix := "::pool::FlagClaimed";
    var log := Claims(pkg, l.claims);
    assert "::" <= suffix;
    EventCheckIff(EventSpec(suffix, Player), log, pkg, player);
    CountAtMost(log, pkg + suffix);
    if player in l.claims {
      var i :| 0 <= i < |l.claims| && l.claims[i] == player;
      assert WinAt(log, pkg + suffix, player, i);
    }
  }

  lemma {:induction false} ClaimsConcat(pkg: string, a: seq<string>, b: seq<string>)
    ensures Claims(pkg, a + b) == Claims(pkg, a) + Claims(pkg, b)
  {}

  lemma {:induction false} ClaimsCount(pkg: string, claims: seq<string>)
    ensures CountType(Claims(pkg, claims), pkg + "::pool::FlagClaimed") == |claims|
  {
    if claims != [] {
      var n := |claims| - 1;
      assert Claims(pkg, claims)[..n] == Claims(pkg, claims[..n]);
      ClaimsCount(pkg, claims[..n]);
    }
  }

  /** Unlike the state variant, a flag of the event variant does not stay available: after
      fifty more claims by others the player's own claim no longer counts. */
  lemma {:induction false} EventFlagIsLost(t: Table, u: Uuid, flag: string, l: Ledger, others: seq<string>,
                                           pkg: string, player: string)
    requires u in t && t[u].status == Running && pkg != ""
    requires t[u].packageId == Some(pkg) && t[u].playerAddress == Some(player)
    requires |others| >= PageSize && player !in others
    ensures GetFlag(t, u, ByClaim, flag, RpcOf(l.(claims := l.claims + others), pkg)) == Unsolved
  {
    var suffix := "::pool::FlagClaimed";
    assert "::" <= suffix;
    ClaimsConcat(pkg, l.claims, others);
    ClaimsCount(pkg, others);
    var back := Claims(pkg, others);
    assert forall i | 0 <= i < |back| :: back[i].sender == others[i];
    WinsAreForgotten(EventSpec(suffix, Player), Claims(pkg, l.claims), back, pkg, player);
  }

  /** A claim needs an empty pool at the moment it is made. */
  lemma {:induction false} ClaimsNeedDrain(txs: seq<Tx>, p: ObjectId, i: nat)
    requires |txs| > 0 && txs[0] == InitPool(p, 1000000) && 0 < i < |txs|
    requires txs[i].ClaimFlag? && txs[i].id == p
    ensures Replay(txs[..i + 1]).claims ==
      Replay(txs[..i]).claims + (if DrainPool(p) in txs[..i] then [txs[i].sender] else [])
  {
    assert txs[..i + 1][..i] == txs[..i];
    BalanceTellsDrained(txs[..i], p);
  }
}
