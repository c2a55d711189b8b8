/** One connection to the nc menu: the lines a client sends, and the calls they cause. A
    session can be cut off at any moment: a send or a read raises once the client is gone,
    and an exception of a call the session made ends it too. */
module NcSession {
  import opened Wrappers
  import opened Text
  import opened Pow
  import opened Admission

  /** A read yields a line, or nothing when it times out; past the last line the client
      has disconnected. */
  type Line = Option<string>

  datatype Event =
    | Issued(pc: Challenge)
    | Accepted(pc: Challenge, solution: string)
    | Denied(pc: Challenge)
    | SpawnCall(ip: string)
    | KillCall(uuid: string)
    | FlagCall(uuid: string)

  /** What a session depends on: the hash, the configured difficulty, the random tokens in
      the order they are drawn, and the client's address. */
  datatype Env = Env(hash: Hash, difficulty: int, token: nat -> string, ip: string)

  function First(lines: seq<Line>): Line {
    if lines == [] then None else lines[0]
  }

  function Rest(lines: seq<Line>): seq<Line> {
    if lines == [] then [] else lines[1..]
  }

  predicate Quits(choice: string) {
    choice == "q" || choice == "quit" || choice == "exit" || choice == "0"
  }

  /** The next line solves the challenge drawn with the `drawn`-th token. */
  predicate Solves(env: Env, lines: seq<Line>, drawn: nat) {
    First(lines).Some? && Verify(env.hash, Challenge(env.token(drawn), env.difficulty), Strip(First(lines).value))
  }

  /** Events, lines left and challenges drawn after one menu choice `1`. */
  function SpawnChoice(env: Env, lines: seq<Line>, drawn: nat): (seq<Event>, seq<Line>, nat) {
    if env.difficulty <= 0 then ([SpawnCall(env.ip)], lines, drawn)
    else
      var pc := Challenge(env.token(drawn), env.difficulty);
      var solution := First(lines);
      if solution.None? || !Verify(env.hash, pc, Strip(solution.value)) then
        ([Issued(pc), Denied(pc)], Rest(lines), drawn + 1)
      else ([Issued(pc), Accepted(pc, solution.value), SpawnCall(env.ip)], Rest(lines), drawn + 1)
  }

  /** The events of a session that nothing cuts off, from the menu on. */
  function Serve(env: Env, lines: seq<Line>, drawn: nat): seq<Event>
    decreases |lines|
  {
    if First(lines).None? then []
    else
      var choice, rest := Strip(lines[0].value), lines[1..];
      if choice == "1" then
        var (events, left, n) := SpawnChoice(env, rest, drawn);
        events + Serve(env, left, n)
      else if choice == "2" then
        (if First(rest).Some? then [KillCall(Strip(First(rest).value))] else []) + Serve(env, Rest(rest), drawn)
      else if choice == "3" then
        (if First(rest).Some? then [FlagCall(Strip(First(rest).value))] else []) + Serve(env, Rest(rest), drawn)
      else if Quits(choice) then []
      else Serve(env, rest, drawn)
  }

  /** A session that is cut off after its first `cut` events. Between any two events, before
      the first and after the last, something is sent, so every value of `cut` can occur. */
  function Until(trace: seq<Event>, cut: nat): seq<Event> {
    if cut < |trace| then trace[..cut] else trace
  }

  lemma {:induction false} UntilConcat(a: seq<Event>, b: seq<Event>, cut: nat)
    ensures Until(a + b, cut) == Until(a, cut) + Until(b, cut - |Until(a, cut)|)
  {
    if cut < |a| {
      assert (a + b)[..cut] == a[..cut];
    } else if cut < |a + b| {
      assert (a + b)[..cut] == a + b[..cut - |a|];
    }
  }

  /** The event a kill or flag choice causes, if its uuid was read. */
  function Call(choice: string, uuid: Line): seq<Event> {
    if uuid.None? then []
    else [if choice == "2" then KillCall(Strip(uuid.value)) else FlagCall(Strip(uuid.value))]
  }

  /** Events, lines left and challenges drawn after one turn of the menu loop that does
      not end it. */
  function Turn(env: Env, lines: seq<Line>, drawn: nat): (seq<Event>, seq<Line>, nat)
    requires First(lines).Some?
  {
    var choice, rest := Strip(lines[0].value), lines[1..];
    if choice == "1" then SpawnChoice(env, rest, drawn)
    else if choice == "2" || choice == "3" then (Call(choice, First(rest)), Rest(rest), drawn)
    else ([], rest, drawn)
  }

  /** A session is its first turn and the session from there on. */
  lemma {:induction false} TurnByTurn(env: Env, lines: seq<Line>, drawn: nat, cut: nat)
    requires First(lines).Some? && !Quits(Strip(lines[0].value))
    ensures var (events, left, n) := Turn(env, lines, drawn);
      && Serve(env, lines, drawn) == events + Serve(env, left, n) && |left| < |lines|
      && Until(Serve(env, lines, drawn), cut) ==
        Until(events, cut) + Until(Serve(env, left, n), cut - |Until(events, cut)|)
  {
    var (events, left, n) := Turn(env, lines, drawn);
    UntilConcat(events, Serve(env, left, n), cut);
  }

  lemma {:induction false} SessionEnds(env: Env, lines: seq<Line>, drawn: nat, cut: nat)
    requires cut == 0 || First(lines).None? || Quits(Strip(First(lines).value))
    ensures Until(Serve(env, lines, drawn), cut) == []
  {
    hide Strip, Verify;
  }

  lemma Associates(a: seq<Event>, b: seq<Event>, d: seq<Event>)
    ensures a + (b + d) == (a + b) + d
  {}

  class NcServer {
    const env: Env
    const connections: Counters

    constructor (e: Env, c: Counters)
      ensures env == e && connections == c
    {
      env, connections := e, c;
    }

    /** The handler: admission by what is open on arrival, the menu loop while other
        connections come and go, and this connection's own counts taken back from what is
        open at the end (`last`), however the session ends. Nothing is read or done for a
        connection over the caps. */
    method Handle(lines: seq<Line>, cut: nat) returns (trace: seq<Event>, ghost last: multiset<string>)
      requires connections.Valid()
      modifies connections
      ensures connections.Valid()
      ensures Room(connections.limits, old(connections.open), env.ip) ==>
        trace == Until(Serve(env, lines, 0), cut) && env.ip in last && connections.open == last - multiset{env.ip}
      ensures !Room(connections.limits, old(connections.open), env.ip) ==>
        trace == [] && connections.open == last == old(connections.open)
    {
      last := connections.open;
      var admitted := connections.TryBegin(env.ip);
      if !admitted {
        return [], last;
      }
      trace := Menu(lines, cut);
      connections.Others(env.ip);
      last := connections.open;
      connections.Finish(env.ip);
    }

    /** A send: it raises once the session has all its `cut` events behind it. */
    method Send(done: nat, cut: nat) returns (ok: bool)
      ensures ok <==> done < cut
    {
      ok := done < cut;
    }

    /** The banner and the menu loop. Sends with no event in between fail together and are
        one send here. */
    method Menu(lines: seq<Line>, cut: nat) returns (trace: seq<Event>)
      ensures trace == Until(Serve(env, lines, 0), cut)
    {
      hide Serve, Strip, Verify, Quits;
      trace := [];
      var left, drawn := lines, 0;
      while true
        invariant |trace| <= cut
        invariant Until(Serve(env, lines, 0), cut) == trace + Until(Serve(env, left, drawn), cut - |trace|)
        decreases |left|
      {
        var alive := Send(|trace|, cut);
        var line := First(left);
        if !alive || line.None? {
          SessionEnds(env, left, drawn, cut - |trace|);
          return;
        }
        var choice := Strip(line.value);
        if Quits(choice) {
          SessionEnds(env, left, drawn, cut - |trace|);
          return;
        }
        ghost var before, whole := trace, Turn(env, left, drawn);
        TurnByTurn(env, left, drawn, cut - |trace|);
        left := left[1..];
        if choice == "1" {
          var events, more, n := DoSpawn(left, drawn, cut - |trace|);
          trace, left, drawn := trace + events, more, n;
        } else if choice == "2" || choice == "3" {
          var uuid := First(left);
          left := Rest(left);
          if uuid.Some? {
            trace := trace + [if choice == "2" then KillCall(Strip(uuid.value)) else FlagCall(Strip(uuid.value))];
          }
        }
        hide SpawnChoice;
        assert trace == before + Until(whole.0, cut - |before|);
        assert |whole.0| > cut - |before| || (left, drawn) == (whole.1, whole.2);
        hide Turn, Call;
        Associates(before, Until(whole.0, cut - |before|), Until(Serve(env, left, drawn), cut - |trace|));
      }
    }

    /** Menu choice 1: the proof-of-work gate in front of the spawn. */
    method DoSpawn(lines: seq<Line>, drawn: nat, cut: nat) returns (events: seq<Event>, left: seq<Line>, n: nat)
      requires cut > 0
      // The spawn call is made exactly if the gate is off, or if the next line solves the
      // challenge just issued and the client is still there.
      ensures SpawnCall(env.ip) in events <==> env.difficulty <= 0 || (Solves(env, lines, drawn) && cut > 2)
      ensures env.difficulty > 0 && SpawnCall(env.ip) in events ==>
        var pc := Challenge(env.token(drawn), env.difficulty);
        events == [Issued(pc), Accepted(pc, lines[0].value), SpawnCall(env.ip)]
      // It continues the session as the whole session says.
      ensures events == Until(SpawnChoice(env, lines, drawn).0, cut) && |left| <= |lines|
      ensures |SpawnChoice(env, lines, drawn).0| <= cut ==>
        (left, n) == (SpawnChoice(env, lines, drawn).1, SpawnChoice(env, lines, drawn).2)
    {
      events, left, n := [], lines, drawn;
      if env.difficulty > 0 {
        var pc := Challenge(env.token(drawn), env.difficulty);
        n := drawn + 1;
        events := [Issued(pc)];
        var alive := Send(1, cut);
        if !alive {
          return;
        }
        var solution := First(left);
        left := Rest(left);
        if solution.None? || !Verify(env.hash, pc, Strip(solution.value)) {
          events := events + [Denied(pc)];
          return;
        }
        events := events + [Accepted(pc, solution.value)];
        alive := Send(2, cut);
        if !alive {
          return;
        }
      }
      events := events + [SpawnCall(env.ip)];
    }
  }

  // ---- the gate ----

  /** Every spawn call comes right after its own accepted solution, which comes right after
      the challenge it solves. */
  ghost predicate Gated(env: Env, trace: seq<Event>) {
    forall i | 0 <= i < |trace| && trace[i].SpawnCall? ::
      && i >= 2 && trace[i - 1].Accepted? && trace[i - 2] == Issued(trace[i - 1].pc)
      && trace[i - 1].pc.difficulty == env.difficulty
      && Verify(env.hash, trace[i - 1].pc, Strip(trace[i - 1].solution))
  }

  /** Every accepted solution is followed by its spawn call. */
  ghost predicate Honoured(trace: seq<Event>) {
    forall i | 0 <= i < |trace| && trace[i].Accepted? :: i + 1 < |trace| && trace[i + 1].SpawnCall?
  }

  lemma {:induction false} GatedConcat(env: Env, a: seq<Event>, b: seq<Event>)
    requires Gated(env, a) && Gated(env, b)
    ensures Gated(env, a + b)
  {
    forall i | 0 <= i < |a + b| && (a + b)[i].SpawnCall?
      ensures i >= 2 && (a + b)[i - 1].Accepted? && (a + b)[i - 2] == Issued((a + b)[i - 1].pc)
      ensures (a + b)[i - 1].pc.difficulty == env.difficulty &&
        Verify(env.hash, (a + b)[i - 1].pc, Strip((a + b)[i - 1].solution))
    {
      if i >= |a| {
        assert b[i - |a|].SpawnCall?;
      }
    }
  }

  lemma {:induction false} HonouredConcat(a: seq<Event>, b: seq<Event>)
    requires Honoured(a) && Honoured(b)
    ensures Honoured(a + b)
  {
    forall i | 0 <= i < |a + b| && (a + b)[i].Accepted?
      ensures i + 1 < |a + b| && (a + b)[i + 1].SpawnCall?
    {
      if i >= |a| {
        assert b[i - |a|].Accepted?;
      }
    }
  }

  lemma {:induction false} TurnGated(env: Env, lines: seq<Line>, drawn: nat)
    requires env.difficulty > 0 && First(lines).Some?
    ensures Gated(env, Turn(env, lines, drawn).0) && Honoured(Turn(env, lines, drawn).0)
  {}

  lemma {:induction false} WholeSessionGated(env: Env, lines: seq<Line>, drawn: nat)
    requires env.difficulty > 0
    ensures Gated(env, Serve(env, lines, drawn)) && Honoured(Serve(env, lines, drawn))
    decreases |lines|
  {
    if First(lines).Some? && !Quits(Strip(lines[0].value)) {
      var (events, left, n) := Turn(env, lines, drawn);
      TurnByTurn(env, lines, drawn, 0);
      TurnGated(env, lines, drawn);
      hide Turn, Serve, Gated, Honoured;
      WholeSessionGated(env, left, n);
      GatedConcat(env, events, Serve(env, left, n));
      HonouredConcat(events, Serve(env, left, n));
    } else {
      assert Serve(env, lines, drawn) == [];
    }
  }

  /** With the gate on, no session spawns without solving, whatever the client sends and
      whenever it goes away. */
  lemma {:induction false} SpawnsAreGated(env: Env, lines: seq<Line>, drawn: nat, cut: nat)
    requires env.difficulty > 0
    ensures Gated(env, Until(Serve(env, lines, drawn), cut))
  {
    WholeSessionGated(env, lines, drawn);
  }

  function Spawns(trace: seq<Event>): nat {
    if trace == [] then 0 else (if trace[0].SpawnCall? then 1 else 0) + Spawns(trace[1..])
  }

  function Solutions(trace: seq<Event>): nat {
    if trace == [] then 0 else (if trace[0].Accepted? then 1 else 0) + Solutions(trace[1..])
  }

  lemma {:induction false} CountsConcat(a: seq<Event>, b: seq<Event>)
    ensures Spawns(a + b) == Spawns(a) + Spawns(b) && Solutions(a + b) == Solutions(a) + Solutions(b)
  {
    if a == [] {
      assert a + b == b;
    } else {
      assert (a + b)[1..] == a[1..] + b;
      CountsConcat(a[1..], b);
    }
  }

  ghost predicate EndsAccepted(trace: seq<Event>) {
    trace != [] && trace[|trace| - 1].Accepted?
  }

  lemma {:induction false} PrefixBalance(env: Env, s: seq<Event>, n: nat)
    requires Gated(env, s) && Honoured(s) && n <= |s|
    ensures Solutions(s[..n]) == Spawns(s[..n]) + if EndsAccepted(s[..n]) then 1 else 0
  {
    if n > 0 {
      PrefixBalance(env, s, n - 1);
      assert s[..n] == s[..n - 1] + [s[n - 1]];
      CountsConcat(s[..n - 1], [s[n - 1]]);
      if EndsAccepted(s[..n - 1]) {
        assert s[n - 2].Accepted?;
      }
    }
  }

  /** Each solution takes the line of the choice and its own. */
  lemma {:induction false} SolutionsCostLines(env: Env, lines: seq<Line>, drawn: nat)
    ensures 2 * Solutions(Serve(env, lines, drawn)) <= |lines|
    decreases |lines|
  {
    if First(lines).Some? && !Quits(Strip(lines[0].value)) {
      var (events, left, n) := Turn(env, lines, drawn);
      TurnByTurn(env, lines, drawn, 0);
      TurnCosts(env, lines, drawn);
      SolutionsCostLines(env, left, n);
      CountsConcat(events, Serve(env, left, n));
    }
  }

  lemma {:induction false} OneEvent(ev: Event)
    ensures Solutions([ev]) == if ev.Accepted? then 1 else 0
  {
    assert [ev][1..] == [];
  }

  lemma {:induction false} TurnCosts(env: Env, lines: seq<Line>, drawn: nat)
    requires First(lines).Some?
    ensures var (events, left, _) := Turn(env, lines, drawn);
      2 * Solutions(events) + |left| <= |lines|
  {
    hide Strip, Verify;
    var (events, left, n) := Turn(env, lines, drawn);
    if events == [] {
    } else if |events| == 1 {
      OneEvent(events[0]);
      assert events == [events[0]];
    } else {
      assert events[..2] == [events[0]] + [events[1]] && events == events[..2] + events[2..];
      CountsConcat([events[0]], [events[1]]);
      CountsConcat(events[..2], events[2..]);
      OneEvent(events[0]);
      OneEvent(events[1]);
      if |events| == 3 {
        assert events[2..] == [events[2]];
        OneEvent(events[2]);
      } else {
        assert events[2..] == [];
      }
    }
  }

  /** In a session that runs to its end, spawn calls equal accepted solutions. In one that
      is cut off at most the last accepted solution goes without its spawn call, namely when
      the client is gone right after pasting it; and there is never a spawn call more than
      solutions. Each solution takes two lines of input. */
  lemma {:induction false} OneSolutionPerSpawn(env: Env, lines: seq<Line>, drawn: nat, cut: nat)
    requires env.difficulty > 0
    ensures var whole := Serve(env, lines, drawn);
      var trace := Until(whole, cut);
      && Solutions(trace) == Spawns(trace) + (if EndsAccepted(trace) then 1 else 0)
      && (cut >= |whole| ==> Solutions(trace) == Spawns(trace))
      && 2 * Solutions(trace) <= |lines|
  {
    var whole := Serve(env, lines, drawn);
    var n := if cut < |whole| then cut else |whole|;
    WholeSessionGated(env, lines, drawn);
    PrefixBalance(env, whole, n);
    assert whole[..|whole|] == whole == whole[..n] + whole[n..];
    CountsConcat(whole[..n], whole[n..]);
    SolutionsCostLines(env, lines, drawn);
  }

  /** A client that answers with what the printed solver prints does get its spawn call,
      unless it goes away before. */
  lemma {:induction false} SolverGetsThrough(env: Env, drawn: nat, n: nat, more: seq<Line>, cut: nat)
    requires 0 < env.difficulty <= 256
    requires var pc := Challenge(env.token(drawn), env.difficulty);
      SolverTest(env.hash, pc, n) && forall m: nat | m < n :: !SolverTest(env.hash, pc, m)
    ensures var pc := Challenge(env.token(drawn), env.difficulty);
      var answer := PrintInt(n) + "\n";
      var gate := [Issued(pc), Accepted(pc, answer), SpawnCall(env.ip)];
      Until(Serve(env, [Some("1\n"), Some(answer)] + more, drawn), cut)
        == if cut < 3 then gate[..cut] else gate + Until(Serve(env, more, drawn + 1), cut - 3)
  {
    var pc := Challenge(env.token(drawn), env.difficulty);
    var answer := PrintInt(n) + "\n";
    SolverRoundTrip(env.hash, pc, n);
    StripIdempotent(answer);
    assert Verify(env.hash, pc, Strip(answer));
    SpawnIsServed(env, "1\n", answer, more, drawn);
    hide Verify, SolverTest, Strip, PrintInt;
    UntilConcat([Issued(pc), Accepted(pc, answer), SpawnCall(env.ip)], Serve(env, more, drawn + 1), cut);
  }

  // ---- what is typed is what is called ----

  /** One thing a player does at the menu, as typed. */
  datatype Request =
    | WantSpawn(choice: string, solution: string)
    | FreeSpawn(choice: string)                    // the gate is off
    | Fumble(choice: string, answer: Line)         // a wrong solution, or none in time
    | Hesitate(choice: string)                     // no uuid in time
    | WantKill(choice: string, uuid: string)
    | WantFlag(choice: string, uuid: string)
    | Noise(text: string)

  predicate Proper(env: Env, r: Request, drawn: nat) {
    match r
    case WantSpawn(choice, solution) =>
      && Strip(choice) == "1" && env.difficulty > 0
      && Verify(env.hash, Challenge(env.token(drawn), env.difficulty), Strip(solution))
    case FreeSpawn(choice) => Strip(choice) == "1" && env.difficulty <= 0
    case Fumble(choice, answer) =>
      && Strip(choice) == "1" && env.difficulty > 0
      && (answer.Some? ==> !Verify(env.hash, Challenge(env.token(drawn), env.difficulty), Strip(answer.value)))
    case Hesitate(choice) => Strip(choice) == "2" || Strip(choice) == "3"
    case WantKill(choice, _) => Strip(choice) == "2"
    case WantFlag(choice, _) => Strip(choice) == "3"
    case Noise(text) => Strip(text) !in {"1", "2", "3", "q", "quit", "exit", "0"}
  }

  function Typed(r: Request): seq<Line> {
    match r
    case WantSpawn(choice, solution) => [Some(choice), Some(solution)]
    case FreeSpawn(choice) => [Some(choice)]
    case Fumble(choice, answer) => [Some(choice), answer]
    case Hesitate(choice) => [Some(choice), None]
    case WantKill(choice, uuid) => [Some(choice), Some(uuid)]
    case WantFlag(choice, uuid) => [Some(choice), Some(uuid)]
    case Noise(text) => [Some(text)]
  }

  function Caused(env: Env, r: Request, drawn: nat): seq<Event> {
    match r
    case WantSpawn(_, solution) =>
      var pc := Challenge(env.token(drawn), env.difficulty);
      [Issued(pc), Accepted(pc, solution), SpawnCall(env.ip)]
    case FreeSpawn(_) => [SpawnCall(env.ip)]
    case Fumble(_, _) =>
      var pc := Challenge(env.token(drawn), env.difficulty);
      [Issued(pc), Denied(pc)]
    case Hesitate(_) => []
    case WantKill(_, uuid) => [KillCall(Strip(uuid))]
    case WantFlag(_, uuid) => [FlagCall(Strip(uuid))]
    case Noise(_) => []
  }

  function Draws(r: Request): nat {
    if r.WantSpawn? || r.Fumble? then 1 else 0
  }

  ghost predicate AllProper(env: Env, script: seq<Request>, drawn: nat) {
    script != [] ==> Proper(env, script[0], drawn) && AllProper(env, script[1..], drawn + Draws(script[0]))
  }

  function AllTyped(script: seq<Request>): seq<Line> {
    if script == [] then [] else Typed(script[0]) + AllTyped(script[1..])
  }

  function AllCaused(env: Env, script: seq<Request>, drawn: nat): seq<Event> {
    if script == [] then [] else Caused(env, script[0], drawn) + AllCaused(env, script[1..], drawn + Draws(script[0]))
  }

  lemma {:induction false} SpawnIsServed(env: Env, choice: string, solution: string, more: seq<Line>, drawn: nat)
    requires Proper(env, WantSpawn(choice, solution), drawn)
    ensures Serve(env, [Some(choice), Some(solution)] + more, drawn)
      == Caused(env, WantSpawn(choice, solution), drawn) + Serve(env, more, drawn + 1)
  {
    var lines := [Some(choice), Some(solution)] + more;
    assert lines[1..] == [Some(solution)] + more && lines[1..][1..] == more;
    hide Verify, Strip;
    assert SpawnChoice(env, lines[1..], drawn) == (Caused(env, WantSpawn(choice, solution), drawn), more, drawn + 1);
  }

  lemma {:induction false} RequestIsServed(env: Env, r: Request, more: seq<Line>, drawn: nat)
    requires Proper(env, r, drawn)
    ensures Serve(env, Typed(r) + more, drawn) == Caused(env, r, drawn) + Serve(env, more, drawn + Draws(r))
  {
    var lines := Typed(r) + more;
    if r.WantSpawn? {
      SpawnIsServed(env, r.choice, r.solution, more, drawn);
    } else if r.Noise? || r.FreeSpawn? {
      assert lines[1..] == more;
    } else {
      assert lines[1..] == [Typed(r)[1]] + more && lines[1..][1..] == more;
    }
  }

  /** However many kills, flag requests, spawns, solved or not, and mistyped or missing lines
      a player enters, in whatever order, each has exactly its own effect, in that order, with
      the uuids stripped; and the session goes on as if it began there. */
  lemma {:induction false} ScriptIsServed(env: Env, script: seq<Request>, more: seq<Line>, drawn: nat) returns (n: nat)
    requires AllProper(env, script, drawn)
    ensures drawn <= n <= drawn + |script|
    ensures Serve(env, AllTyped(script) + more, drawn) == AllCaused(env, script, drawn) + Serve(env, more, n)
    decreases |script|
  {
    hide Serve, Typed, Caused, Proper;
    if script == [] {
      n := drawn;
      assert AllTyped(script) + more == more;
    } else {
      var r, d := script[0], drawn + Draws(script[0]);
      var rest := AllTyped(script[1..]) + more;
      assert AllTyped(script) + more == Typed(r) + rest;
      assert AllCaused(env, script, drawn) == Caused(env, r, drawn) + AllCaused(env, script[1..], d);
      hide AllTyped, AllCaused, Draws;
      RequestIsServed(env, r, rest, drawn);
      n := ScriptIsServed(env, script[1..], more, d);
      Associates(Caused(env, r, drawn), AllCaused(env, script[1..], d), Serve(env, more, n));
    }
  }

  /** Quitting, in any of the four ways, and disconnecting end the session: whatever comes
      after has no effect. */
  lemma {:induction false} LeavingEnds(env: Env, script: seq<Request>, bye: Line, rest: seq<Line>, drawn: nat)
    requires AllProper(env, script, drawn)
    requires bye.Some? ==> Strip(bye.value) in {"q", "quit", "exit", "0"}
    ensures Serve(env, AllTyped(script) + ([bye] + rest), drawn) == AllCaused(env, script, drawn)
  {
    var n := ScriptIsServed(env, script, [bye] + rest, drawn);
    hide Strip;
    assert Serve(env, [bye] + rest, n) == [];
  }

  /** The line that asks for an event, and the uuid line after it. */
  ghost predicate Asked(lines: seq<Line>, ev: Event, i: nat) {
    && i + 1 < |lines| && lines[i].Some? && lines[i + 1].Some?
    && Strip(lines[i].value) == (if ev.KillCall? then "2" else "3")
    && ev == Call(Strip(lines[i].value), lines[i + 1])[0]
  }

  /** Nothing is killed or claimed that was not asked for: whatever the client sends, every
      kill and flag call carries the stripped line right after a choice of that kind. */
  lemma {:induction false} CallsAreAsked(env: Env, lines: seq<Line>, drawn: nat, k: nat) returns (i: nat)
    requires k < |Serve(env, lines, drawn)|
    requires Serve(env, lines, drawn)[k].KillCall? || Serve(env, lines, drawn)[k].FlagCall?
    ensures Asked(lines, Serve(env, lines, drawn)[k], i)
    decreases |lines|
  {
    hide Serve, Strip, Verify, Until;
    SessionEndsOrTurns(env, lines, drawn);
    var (events, left, n) := Turn(env, lines, drawn);
    TurnByTurn(env, lines, drawn, 0);
    if k < |events| {
      i := 0;
      TurnAsked(env, lines, drawn, k);
    } else {
      i := CallsAreAsked(env, left, n, k - |events|);
      LeftIsSuffix(env, lines, drawn);
      i := i + |lines| - |left|;
    }
  }

  lemma {:induction false} TurnAsked(env: Env, lines: seq<Line>, drawn: nat, k: nat)
    requires First(lines).Some? && k < |Turn(env, lines, drawn).0|
    requires Turn(env, lines, drawn).0[k].KillCall? || Turn(env, lines, drawn).0[k].FlagCall?
    ensures Asked(lines, Turn(env, lines, drawn).0[k], 0)
  {
    hide Strip, Verify;
  }

  lemma {:induction false} SessionEndsOrTurns(env: Env, lines: seq<Line>, drawn: nat)
    requires Serve(env, lines, drawn) != []
    ensures First(lines).Some? && !Quits(Strip(lines[0].value))
  {
    hide Strip, Verify;
  }

  lemma {:induction false} LeftIsSuffix(env: Env, lines: seq<Line>, drawn: nat)
    requires First(lines).Some?
    ensures var left := Turn(env, lines, drawn).1;
      |left| < |lines| && left == lines[|lines| - |left|..]
  {}
}
