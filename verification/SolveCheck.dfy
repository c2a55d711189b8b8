/** The win condition of a challenge, evaluated against what the instance's RPC returns. */
module SolveCheck {
  import opened Wrappers
  import opened Text
  import opened Docker

  // ---- comparing values ----

  /** A field or manifest value: an integer, or a string as JSON-RPC returns u64 fields. */
  datatype Value = Num(n: int) | Str(s: string)

  /** `int(v)`; `None` is the ValueError. */
  function AsInt(v: Value): Option<int> {
    match v
    case Num(n) => Some(n)
    case Str(s) => ParseInt(s)
  }

  function AsStr(v: Value): string {
    match v
    case Num(n) => PrintInt(n)
    case Str(s) => s
  }

  datatype Pair = Ints(a: int, b: int) | Strings(s: string, t: string)

  /** Both as integers if both read as integers, both as strings otherwise. */
  function CoercePair(v: Value, w: Value): Pair {
    var a, b := AsInt(v), AsInt(w);
    if a.Some? && b.Some? then Ints(a.value, b.value) else Strings(AsStr(v), AsStr(w))
  }

  datatype Op = Eq | Ne | Lt | Lte | Gt | Gte

  function OpNamed(name: string): Option<Op> {
    if name == "eq" then Some(Eq)
    else if name == "ne" then Some(Ne)
    else if name == "lt" then Some(Lt)
    else if name == "lte" then Some(Lte)
    else if name == "gt" then Some(Gt)
    else if name == "gte" then Some(Gte)
    else None
  }

  predicate Before(p: Pair) {
    match p
    case Ints(a, b) => a < b
    case Strings(s, t) => Less(s, t)
  }

  function Flip(p: Pair): Pair {
    match p
    case Ints(a, b) => Ints(b, a)
    case Strings(s, t) => Strings(t, s)
  }

  predicate Same(p: Pair) {
    match p
    case Ints(a, b) => a == b
    case Strings(s, t) => s == t
  }

  predicate Apply(op: Op, p: Pair) {
    match op
    case Eq => Same(p)
    case Ne => !Same(p)
    case Lt => Before(p)
    case Lte => Before(p) || Same(p)
    case Gt => Before(Flip(p))
    case Gte => Before(Flip(p)) || Same(p)
  }

  /** The order an operator names, on integers. */
  predicate Holds(op: Op, a: int, b: int) {
    match op
    case Eq => a == b
    case Ne => a != b
    case Lt => a < b
    case Lte => a <= b
    case Gt => a > b
    case Gte => a >= b
  }

  /** An integer as a field or a manifest may carry it: as a number, or as decimal text with
      white space around it, a sign and leading zeros. */
  datatype Numeral =
    | Plain(n: int)
    | Written(n: int, before: string, sign: string, zeros: nat, after: string)

  function ValueOf(x: Numeral): Value {
    match x
    case Plain(n) => Num(n)
    case Written(n, before, sign, zeros, after) => Str(Spell(before, sign, zeros, n, after))
  }

  ghost predicate Proper(x: Numeral) {
    x.Written? ==> AllBlank(x.before, ForInt) && AllBlank(x.after, ForInt) && SignFits(x.sign, x.n)
  }

  /** A number as such, or written with no more digits than `int()` takes. */
  predicate Readable(x: Numeral) {
    x.Written? ==> x.zeros + Digits(x.n) <= MaxDigits
  }

  /** Just as `str` prints it. */
  predicate Canonical(x: Numeral) {
    x.Written? ==> x.before == x.after == "" && x.zeros == 0 && x.sign == (if x.n < 0 then "-" else "")
  }

  lemma {:induction false} ReadsBack(x: Numeral)
    requires Proper(x)
    ensures AsInt(ValueOf(x)) == if Readable(x) then Some(x.n) else None
  {
    if x.Written? {
      ParseSpelled(ValueOf(x).s, x.n, x.before, x.sign, x.zeros, x.after);
    }
  }

  lemma {:induction false} CanonicalText(x: Numeral)
    requires Canonical(x)
    ensures AsStr(ValueOf(x)) == PrintInt(x.n)
  {
    if x.Written? {
      assert Zeros(0) + PrintNat(Magnitude(x.n)) == PrintNat(Magnitude(x.n));
    }
  }

  /** However the two integers are written, they are compared as numbers if and only if both
      are readable, and then all six operators give the numeric order. `eq` and `ne` on
      canonical numerals are right beyond the limit too. */
  lemma {:induction false} NumericOrder(op: Op, x: Numeral, y: Numeral)
    requires Proper(x) && Proper(y)
    ensures Readable(x) <==> (x.Written? ==> x.zeros + Digits(x.n) <= 4300)
    ensures CoercePair(ValueOf(x), ValueOf(y)).Ints? <==> Readable(x) && Readable(y)
    ensures (Readable(x) && Readable(y)) || ((op == Eq || op == Ne) && Canonical(x) && Canonical(y)) ==>
      (Apply(op, CoercePair(ValueOf(x), ValueOf(y))) <==> Holds(op, x.n, y.n))
  {
    ReadsBack(x);
    ReadsBack(y);
    assert Readable(x) <==> (x.Written? ==> x.zeros + Digits(x.n) <= 4300);
    hide ValueOf, AsInt, AsStr, Less, Readable, Proper;
    if Canonical(x) && Canonical(y) {
      CanonicalText(x);
      CanonicalText(y);
      hide Canonical;
      if PrintInt(x.n) == PrintInt(y.n) {
        PrintIntInjective(x.n, y.n);
      }
    }
  }

  /** Beyond the limit the order can be wrong: any power of ten with more digits, as text,
      counts as less than two. */
  lemma {:induction false} LongTextMisorders(k: nat)
    requires k >= MaxDigits
    ensures var x := Written(Pow10(k), "", "", 0, "");
      && ValueOf(x) == Str("1" + Zeros(k)) && Pow10(k) > 2
      && Apply(Lt, CoercePair(ValueOf(x), Num(2)))
  {
    var x := Written(Pow10(k), "", "", 0, "");
    PrintPow10(k);
    Pow10Positive(k - 1);
    CanonicalText(x);
    assert PrintInt(Pow10(k)) == "1" + Zeros(k);
    ReadsBack(x);
    assert PrintInt(2) == "2";
  }

  /** No unsigned integer of Move, up to 256 bits, comes near the limit as RPC prints it. */
  lemma {:induction false} MoveIntegersAreReadable(x: Numeral)
    requires x.Written? && x.zeros == 0
    requires 0 <= x.n < 0x1_0000000000000000_0000000000000000_0000000000000000_0000000000000000
    ensures Readable(x)
  {
    Pow10OfMove();
    DigitsIff(x.n, 78);
  }

  /** So can a numeral short enough, if it has enough leading zeros. */
  lemma {:induction false} PaddedTextMisorders(k: nat)
    requires k >= MaxDigits
    ensures var x := Written(3, "", "", k, "");
      Proper(x) && Apply(Lt, CoercePair(ValueOf(x), Num(2)))
  {
    var x := Written(3, "", "", k, "");
    ReadsBack(x);
    assert PrintInt(2) == "2";
    assert AsStr(ValueOf(x))[0] == '0';
  }

  /** On every pair, text included, exactly one of lt, eq and gt holds, the other three
      operators are their combinations, and swapping the sides swaps lt and gt. */
  lemma {:induction false} OperatorsPartition(v: Value, w: Value)
    ensures var p := CoercePair(v, w);
      && (Apply(Lt, p) || Apply(Eq, p) || Apply(Gt, p))
      && !(Apply(Lt, p) && Apply(Eq, p)) && !(Apply(Eq, p) && Apply(Gt, p)) && !(Apply(Lt, p) && Apply(Gt, p))
      && (Apply(Ne, p) <==> Apply(Lt, p) || Apply(Gt, p))
      && (Apply(Lte, p) <==> !Apply(Gt, p)) && (Apply(Gte, p) <==> !Apply(Lt, p))
      && (Apply(Gt, p) <==> Apply(Lt, CoercePair(w, v)))
  {
    var p := CoercePair(v, w);
    if p.Strings? {
      LessTotal(p.s, p.t);
    }
  }

  /** Whenever one side does not read as an integer, both are compared as the texts they are,
      integers as printed: `eq` is equality of the texts and `lt` the order of code points. */
  lemma {:induction false} TextOrder(v: Value, w: Value)
    requires (v.Str? && ParseInt(v.s).None?) || (w.Str? && ParseInt(w.s).None?)
    ensures var s, t := if v.Num? then PrintInt(v.n) else v.s, if w.Num? then PrintInt(w.n) else w.s;
      && (Apply(Eq, CoercePair(v, w)) <==> s == t)
      && (Apply(Lt, CoercePair(v, w)) <==> exists k :: Differ(s, t, k))
  {
    var s, t := if v.Num? then PrintInt(v.n) else v.s, if w.Num? then PrintInt(w.n) else w.s;
    LessIff(s, t);
  }

  // ---- state checks ----

  datatype Content = Content(fields: Option<map<string, Value>>)

  /** What `sui_getObject` yields. */
  datatype Reply = RpcError | NoData | Data(content: Option<Content>)

  datatype SolveError = RpcFailed | UnknownOp(op: string) | UnknownType(kind: string)

  datatype StateSpec = StateSpec(objectType: string, field: string, value: Value, op: Option<string>)

  function UpTo(s: string, stop: char): string {
    if s == [] || s[0] == stop then [] else [s[0]] + UpTo(s[1..], stop)
  }

  predicate EndsWith(s: string, suffix: string) {
    |suffix| <= |s| && s[|s| - |suffix|..] == suffix
  }

  /** A type matches up to its generic arguments. */
  predicate MatchesType(obj: ChainObject, suffix: string) {
    EndsWith(UpTo(if obj.objectType.Some? then obj.objectType.value else "", '<'), suffix)
  }

  function FindObject(objects: seq<ChainObject>, suffix: string): Option<ChainObject> {
    if objects == [] then None
    else if MatchesType(objects[0], suffix) then Some(objects[0])
    else FindObject(objects[1..], suffix)
  }

  function GetObjectContent(reply: Reply): Result<Option<Content>, SolveError> {
    match reply
    case RpcError => Failure(RpcFailed)
    case NoData => Success(None)
    case Data(content) => Success(content)
  }

  function CheckState(spec: StateSpec, rpc: string -> Reply, objects: seq<ChainObject>): Result<bool, SolveError> {
    match FindObject(objects, spec.objectType)
    case None => Success(false)
    case Some(target) =>
      match GetObjectContent(rpc(target.objectId))
      case Failure(e) => Failure(e)
      case Success(content) =>
        if content.None? || content.value.fields.None? then Success(false)
        else if spec.field !in content.value.fields.value then Success(false)
        else
          var pair := CoercePair(content.value.fields.value[spec.field], spec.value);
          var name := if spec.op.Some? then spec.op.value else "eq";
          match OpNamed(name)
          case None => Failure(UnknownOp(name))
          case Some(op) => Success(Apply(op, pair))
  }

  lemma {:induction false} UpToCuts(base: string, args: string)
    requires '<' !in base
    ensures UpTo(base, '<') == base && UpTo(base + "<" + args, '<') == base
  {
    if base == "" {
      assert base + "<" + args == "<" + args;
    } else {
      assert '<' !in base[1..];
      assert (base + "<" + args)[1..] == base[1..] + "<" + args;
      UpToCuts(base[1..], args);
    }
  }

  lemma {:induction false} EndsWithIff(s: string, suffix: string)
    ensures EndsWith(s, suffix) <==> exists p :: s == p + suffix
  {
    if EndsWith(s, suffix) {
      assert s == s[..|s| - |suffix|] + suffix;
    }
  }

  /** A struct type matches by the end of its name, with or without generic arguments, which
      play no part; an object without a type matches only the empty suffix. */
  lemma {:induction false} GenericsIgnored(id: string, base: string, args: string, suffix: string)
    requires '<' !in base
    ensures MatchesType(ChainObject(id, Some(base)), suffix) <==> exists p :: base == p + suffix
    ensures MatchesType(ChainObject(id, Some(base + "<" + args)), suffix) <==> exists p :: base == p + suffix
    ensures MatchesType(ChainObject(id, None), suffix) <==> suffix == ""
  {
    UpToCuts(base, args);
    EndsWithIff(base, suffix);
    hide EndsWith;
    assert MatchesType(ChainObject(id, None), suffix) == EndsWith("", suffix);
    EndsWithIff("", suffix);
    if suffix == "" {
      assert "" == "" + suffix;
    }
  }

  /** The object used is the first one in list order whose type matches. */
  lemma {:induction false} FindsFirst(objects: seq<ChainObject>, suffix: string, i: nat)
    requires i < |objects| && MatchesType(objects[i], suffix)
    requires forall j | 0 <= j < i :: !MatchesType(objects[j], suffix)
    ensures FindObject(objects, suffix) == Some(objects[i])
  {
    if i > 0 {
      assert !MatchesType(objects[0], suffix);
      FindsFirst(objects[1..], suffix, i - 1);
    }
  }

  lemma {:induction false} FoundMatches(objects: seq<ChainObject>, suffix: string)
    ensures FindObject(objects, suffix).Some? ==>
      FindObject(objects, suffix).value in objects && MatchesType(FindObject(objects, suffix).value, suffix)
    ensures FindObject(objects, suffix).None? <==> forall obj | obj in objects :: !MatchesType(obj, suffix)
  {
    if objects != [] {
      FoundMatches(objects[1..], suffix);
      assert objects == [objects[0]] + objects[1..];
    }
  }

  /** What an operator's name in the manifest means for numbers. */
  predicate NameHolds(name: string, m: int, n: int) {
    || (name == "eq" && m == n) || (name == "ne" && m != n)
    || (name == "lt" && m < n) || (name == "lte" && m <= n)
    || (name == "gt" && m > n) || (name == "gte" && m >= n)
  }

  /** A state check on a numeric field is decided by the first matching object's value and
      the named operator, equality unless one is named; another name is an error. */
  lemma {:induction false} StateCheckDecides(spec: StateSpec, rpc: string -> Reply, objects: seq<ChainObject>, i: nat,
                                             fields: map<string, Value>, x: Numeral, y: Numeral)
    requires i < |objects| && MatchesType(objects[i], spec.objectType)
    requires forall j | 0 <= j < i :: !MatchesType(objects[j], spec.objectType)
    requires rpc(objects[i].objectId) == Data(Some(Content(Some(fields))))
    requires spec.field in fields && fields[spec.field] == ValueOf(x) && spec.value == ValueOf(y)
    requires Proper(x) && Proper(y) && Readable(x) && Readable(y)
    ensures var name := if spec.op.Some? then spec.op.value else "eq";
      CheckState(spec, rpc, objects) ==
        if name in {"eq", "ne", "lt", "lte", "gt", "gte"} then Success(NameHolds(name, x.n, y.n))
          else Failure(UnknownOp(name))
  {
    hide FindObject, MatchesType, CoercePair, Apply, Proper, Readable, ValueOf;
    FindsFirst(objects, spec.objectType, i);
    var name := if spec.op.Some? then spec.op.value else "eq";
    if OpNamed(name).Some? {
      NumericOrder(OpNamed(name).value, x, y);
    }
  }

  predicate HoldsField(reply: Reply, field: string) {
    reply.Data? && reply.content.Some? && reply.content.value.fields.Some? && field in reply.content.value.fields.value
  }

  /** Without a matching object, or without the field on the first one, a challenge counts
      as unsolved; only a failing RPC is an error. */
  lemma {:induction false} StateCheckMissing(spec: StateSpec, rpc: string -> Reply, objects: seq<ChainObject>, i: nat)
    requires i <= |objects| && forall j | 0 <= j < i :: !MatchesType(objects[j], spec.objectType)
    requires i < |objects| ==>
      MatchesType(objects[i], spec.objectType) && !HoldsField(rpc(objects[i].objectId), spec.field)
    ensures CheckState(spec, rpc, objects) ==
      if i < |objects| && rpc(objects[i].objectId) == RpcError then Failure(RpcFailed) else Success(false)
  {
    if i < |objects| {
      FindsFirst(objects, spec.objectType, i);
    } else {
      FoundMatches(objects, spec.objectType);
    }
  }

  /** A name that is no operator's is an error, whatever the field holds. */
  lemma {:induction false} UnknownOperatorFails(spec: StateSpec, rpc: string -> Reply, objects: seq<ChainObject>,
                                                i: nat)
    requires i < |objects| && MatchesType(objects[i], spec.objectType)
    requires forall j | 0 <= j < i :: !MatchesType(objects[j], spec.objectType)
    requires HoldsField(rpc(objects[i].objectId), spec.field)
    requires spec.op.Some? && spec.op.value !in {"eq", "ne", "lt", "lte", "gt", "gte"}
    ensures CheckState(spec, rpc, objects) == Failure(UnknownOp(spec.op.value))
  {
    FindsFirst(objects, spec.objectType, i);
    hide FindObject, MatchesType, CoercePair, Apply;
  }

  // ---- event checks ----

  datatype Emitted = Emitted(eventType: string, sender: string)

  datatype SenderSpec = Player | Anyone | Address(address: string)

  datatype EventSpec = EventSpec(eventType: string, sender: SenderSpec)

  const PageSize := 50

  /** `suix_queryEvents`: the newest `limit` events of a type, newest first. */
  function Newest(log: seq<Emitted>, eventType: string, limit: nat): seq<Emitted> {
    if log == [] || limit == 0 then []
    else
      var last := log[|log| - 1];
      if last.eventType == eventType then [last] + Newest(log[..|log| - 1], eventType, limit - 1)
      else Newest(log[..|log| - 1], eventType, limit)
  }

  predicate QueryEventExists(log: seq<Emitted>, eventType: string, sender: Option<string>) {
    var events := Newest(log, eventType, PageSize);
    if sender.None? then |events| > 0 else exists ev | ev in events :: ev.sender == sender.value
  }

  function FullType(packageId: string, eventType: string): string {
    if "::" <= eventType then packageId + eventType else eventType
  }

  predicate CheckEvent(spec: EventSpec, log: seq<Emitted>, packageId: Option<string>, playerAddress: Option<string>) {
    if packageId.None? || packageId.value == "" then false
    else
      var sender := match spec.sender
        case Player => playerAddress
        case Anyone => None
        case Address(a) => Some(a);
      QueryEventExists(log, FullType(packageId.value, spec.eventType), sender)
  }

  /** How many events of a type a log holds. */
  function CountType(log: seq<Emitted>, eventType: string): nat {
    if log == [] then 0
    else CountType(log[..|log| - 1], eventType) + (if log[|log| - 1].eventType == eventType then 1 else 0)
  }

  /** Event `i` is one the check is after. */
  predicate WinsAt(log: seq<Emitted>, i: nat, eventType: string, sender: string)
    requires i < |log|
  {
    log[i].eventType == eventType && log[i].sender == sender
  }

  lemma {:induction false} CountLast(log: seq<Emitted>, i: nat, eventType: string)
    requires i < |log|
    ensures CountType(log[i..], eventType)
         == CountType(log[..|log| - 1][i..], eventType) + if log[|log| - 1].eventType == eventType then 1 else 0
  {
    assert log[i..][..|log| - i - 1] == log[..|log| - 1][i..];
  }

  lemma {:induction false} CountGrows(log: seq<Emitted>, i: nat, eventType: string)
    requires i <= |log|
    ensures CountType(log[i..], eventType) <= CountType(log, eventType)
  {
    if i < |log| {
      CountLast(log, i, eventType);
      CountGrows(log[..|log| - 1], i, eventType);
    }
  }

  /** An event is on the page exactly when fewer than `limit` of its type came after it. */
  lemma {:induction false} OnPageIff(log: seq<Emitted>, eventType: string, limit: nat, sender: string)
    ensures (exists ev | ev in Newest(log, eventType, limit) :: ev.sender == sender)
       <==> exists i ::
              0 <= i < |log| && WinsAt(log, i, eventType, sender) && CountType(log[i + 1..], eventType) < limit
  {
    if log != [] && limit > 0 {
      var n := |log| - 1;
      var front, last := log[..n], log[n];
      var rest := if last.eventType == eventType then limit - 1 else limit;
      OnPageIff(front, eventType, rest, sender);
      assert CountType(log[n + 1..], eventType) == 0;
      hide CountType;
      forall i | 0 <= i < n
        ensures WinsAt(log, i, eventType, sender) == WinsAt(front, i, eventType, sender)
        ensures CountType(log[i + 1..], eventType) < limit <==> CountType(front[i + 1..], eventType) < rest
      {
        CountLast(log, i + 1, eventType);
      }
      if exists i :: 0 <= i < n && WinsAt(front, i, eventType, sender) && CountType(front[i + 1..], eventType) < rest {
        var i :| 0 <= i < n && WinsAt(front, i, eventType, sender) && CountType(front[i + 1..], eventType) < rest;
        assert WinsAt(log, i, eventType, sender) && CountType(log[i + 1..], eventType) < limit;
      }
      if WinsAt(log, n, eventType, sender) {
        assert last in Newest(log, eventType, limit);
      }
    }
  }

  ghost predicate WinAt(log: seq<Emitted>, eventType: string, sender: string, i: nat) {
    i < |log| && WinsAt(log, i, eventType, sender)
  }

  /** With the emitter bound, to the row's player by default or to a fixed address, the
      check succeeds exactly when that sender emitted an event of the type that fewer than
      fifty of that type have followed. So success always means such an event is in the
      log, and the converse holds as long as the log has at most fifty of them. */
  lemma {:induction false} EventCheckIff(spec: EventSpec, log: seq<Emitted>, packageId: string, player: string)
    requires packageId != "" && !spec.sender.Anyone?
    ensures var ok := CheckEvent(spec, log, Some(packageId), Some(player));
      var t := if "::" <= spec.eventType then packageId + spec.eventType else spec.eventType;
      var sender := if spec.sender == Player then player else spec.sender.address;
      && (ok <==> exists i :: WinAt(log, t, sender, i) && CountType(log[i + 1..], t) < 50)
      && (ok ==> exists i :: WinAt(log, t, sender, i))
      && (CountType(log, t) <= 50 ==> (ok <==> exists i :: WinAt(log, t, sender, i)))
  {
    var t := FullType(packageId, spec.eventType);
    var sender := if spec.sender == Player then player else spec.sender.address;
    OnPageIff(log, t, PageSize, sender);
    forall i | WinAt(log, t, sender, i)
      ensures CountType(log[i + 1..], t) < CountType(log, t)
    {
      CountAfter(log, i, t);
    }
    assert forall i | 0 <= i < |log| && WinsAt(log, i, t, sender) :: WinAt(log, t, sender, i);
  }

  lemma {:induction false} CountConcat(front: seq<Emitted>, back: seq<Emitted>, eventType: string)
    ensures CountType(front + back, eventType) == CountType(front, eventType) + CountType(back, eventType)
  {
    if back == [] {
      assert front + back == front;
    } else {
      var n := |back| - 1;
      assert (front + back)[..|front| + n] == front + back[..n];
      CountConcat(front, back[..n], eventType);
    }
  }

  /** A win is forgotten: whatever the log holds, once it is followed by fifty events of the
      type of which none is the bound sender's, the check fails. */
  lemma {:induction false} WinsAreForgotten(spec: EventSpec, front: seq<Emitted>, back: seq<Emitted>,
                                            packageId: string, player: string)
    requires packageId != "" && !spec.sender.Anyone?
    requires var t := if "::" <= spec.eventType then packageId + spec.eventType else spec.eventType;
      var sender := if spec.sender == Player then player else spec.sender.address;
      CountType(back, t) >= 50 && forall i | 0 <= i < |back| :: !WinsAt(back, i, t, sender)
    ensures !CheckEvent(spec, front + back, Some(packageId), Some(player))
  {
    var t := FullType(packageId, spec.eventType);
    var sender := if spec.sender == Player then player else spec.sender.address;
    var log := front + back;
    EventCheckIff(spec, log, packageId, player);
    forall i: nat | |front| <= i < |log|
      ensures !WinAt(log, t, sender, i)
    {
      assert log[i] == back[i - |front|] && !WinsAt(back, i - |front|, t, sender);
    }
    forall i: nat | i < |front| && WinAt(log, t, sender, i)
      ensures CountType(log[i + 1..], t) >= 50
    {
      assert log[i + 1..] == front[i + 1..] + back;
      CountConcat(front[i + 1..], back, t);
    }
  }

  lemma {:induction false} PageEmptyIff(log: seq<Emitted>, eventType: string, limit: nat)
    requires limit > 0
    ensures Newest(log, eventType, limit) == [] <==> CountType(log, eventType) == 0
  {
    if log != [] && log[|log| - 1].eventType != eventType {
      PageEmptyIff(log[..|log| - 1], eventType, limit);
    }
  }

  /** Without a bound emitter, one event of the type by anybody at any time is enough. */
  lemma {:induction false} AnyoneCheckIff(suffix: string, log: seq<Emitted>, packageId: string, player: Option<string>)
    requires packageId != ""
    ensures CheckEvent(EventSpec(suffix, Anyone), log, Some(packageId), player) <==>
      CountType(log, if "::" <= suffix then packageId + suffix else suffix) > 0
    // A row without a player address is no binding either.
    ensures CheckEvent(EventSpec(suffix, Player), log, Some(packageId), None) <==>
      CountType(log, if "::" <= suffix then packageId + suffix else suffix) > 0
  {
    PageEmptyIff(log, FullType(packageId, suffix), PageSize);
  }

  /** Without a package no event counts. */
  lemma NoPackageNoWin(spec: EventSpec, log: seq<Emitted>, player: Option<string>)
    ensures !CheckEvent(spec, log, None, player) && !CheckEvent(spec, log, Some(""), player)
  {}

  /** Counting from event `i` on includes event `i`. */
  lemma {:induction false} CountAfter(log: seq<Emitted>, i: nat, eventType: string)
    requires i < |log| && log[i].eventType == eventType
    ensures CountType(log[i + 1..], eventType) < CountType(log, eventType)
  {
    CountGrows(log, i, eventType);
    CountCons(log[i..], eventType);
    assert log[i..][1..] == log[i + 1..];
  }

  lemma {:induction false} CountCons(log: seq<Emitted>, eventType: string)
    requires log != [] && log[0].eventType == eventType
    ensures CountType(log, eventType) == 1 + CountType(log[1..], eventType)
  {
    if |log| > 1 {
      var front := log[..|log| - 1];
      CountCons(front, eventType);
      assert log[1..][..|log| - 2] == front[1..];
    } else {
      assert log[..0] == [] && log[1..] == [];
    }
  }
}
