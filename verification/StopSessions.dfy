/**
 Every session of the interleaved start/stop system is a session of the task alone,
 cut short where stop cleared `run`; what is proved of sessions holds of it.
 */
module StopSessions {
  import opened ClientSession
  import opened SessionProperties
  import opened SessionCalls
  import opened SessionTiming
  import opened StopHandshake

  /** The clients differ in `run` at most. */
  predicate SameButRun(a: Client, b: Client) {
    a.(run := true) == b.(run := true)
  }

  ghost predicate IsSession(c: Client, start: Client, hasTransport: bool, inputs: seq<PassInput>, running: bool) {
    var s := After(Begin(start, hasTransport), inputs);
    SameButRun(c, s) && (running ==> s.run) && (c.now < U64 ==> Ready(start))
  }

  /** The client is as some sequence of passes alone leaves it; `running` says that the
      next pass would be made. */
  ghost predicate FromSession(c: Client, running: bool) {
    exists start, hasTransport, inputs :: IsSession(c, start, hasTransport, inputs, running)
  }

  predicate FreshLog(c: Client) {
    && c.calls == [] && c.events == [] && c.attempts == [] && c.contacts == [c.pingTick] && c.checks == [] && !c.checked
  }

  /** As long as the clock fits 64 bits, no stored tick is in the future. */
  predicate TicksArePast(c: Client) {
    c.now < U64 ==> Ready(c)
  }

  ghost predicate SessionInv(s: System) {
    match s.task
    case FindingTransport => FreshLog(s.client) && TicksArePast(s.client)
    case EnteringInit => FreshLog(s.client) && TicksArePast(s.client) && (s.client.run ==> s.client.hasTransport)
    case ClearingStopped =>
      FreshLog(s.client) && TicksArePast(s.client) && (s.client.run ==> s.client.hasTransport) && s.client.state == Init
    case AtHead => FromSession(s.client, s.client.run)
    case InPass => FromSession(s.client, true)
    case Closing => FromSession(s.client, false)
    case _ => FollowsGrammar(s.client.events) && TicksArePast(s.client)
  }

  lemma PassIgnoresRun(a: Client, b: Client, i: PassInput)
    requires SameButRun(a, b)
    ensures SameButRun(Pass(a, i), Pass(b, i))
  {
    var c := a.(run := true);
    PassOfRunning(a, i);
    PassOfRunning(b, i);
    hide Pass;
  }

  lemma AbortOfRunning(a: Client, d: nat)
    ensures SameButRun(Abort(a, d), Abort(a.(run := true), d))
  {
  }

  lemma InitOfRunning(a: Client, i: PassInput)
    ensures SameButRun(InitPass(a, i), InitPass(a.(run := true), i))
  {
    AbortOfRunning(Attempt(a, i), i.d1);
    hide Abort;
  }

  lemma CheckOfRunning(a: Client, i: PassInput)
    ensures SameButRun(CheckPing(a, i), CheckPing(a.(run := true), i))
  {
    hide Elapsed;
  }

  lemma StartReadOfRunning(a: Client, i: PassInput)
    ensures StartRead(a.(run := true), i) == StartRead(a, i).(run := true)
  {
  }

  lemma DispatchOfRunning(a: Client, e: Event)
    ensures SameButRun(Dispatch(a, e), Dispatch(a.(run := true), e))
  {
  }

  lemma ReadOfRunning(a: Client, i: PassInput)
    ensures SameButRun(ReadData(a, i), ReadData(a.(run := true), i))
  {
    StartReadOfRunning(a, i);
    AbortOfRunning(StartRead(a, i), i.d3);
    if i.received.Some? {
      DispatchOfRunning(StartRead(a, i), DataEvent(i.received.value));
    }
    hide Abort, StartRead, Dispatch;
  }

  lemma TickOfRunning(a: Client, d: nat)
    ensures Tick(a.(run := true), d) == Tick(a, d).(run := true)
  {
  }

  lemma WaitOfRunning(a: Client, i: PassInput)
    ensures SameButRun(WaitPass(a, i), WaitPass(a.(run := true), i))
  {
    TickOfRunning(a, i.d0);
    hide Elapsed;
  }

  lemma PassOfRunning(a: Client, i: PassInput)
    ensures SameButRun(Pass(a, i), Pass(a.(run := true), i))
  {
    var polled := Call(a, PollRead(i.poll));
    var checked, other := CheckPing(polled, i), CheckPing(polled.(run := true), i);
    CheckOfRunning(polled, i);
    ReadOfRunning(checked, i);
    ReadOfRunning(other, i);
    AbortOfRunning(polled, i.d0);
    InitOfRunning(a, i);
    WaitOfRunning(a, i);
    hide InitPass, WaitPass, CheckPing, ReadData, Abort;
  }

  lemma EnterLoop(c: Client)
    requires FreshLog(c) && TicksArePast(c) && c.state == Init && (c.run ==> c.hasTransport)
    ensures FromSession(c, c.run)
  {
    assert After(Begin(c, c.hasTransport), []) == Begin(c, c.hasTransport);
    assert IsSession(c, c, c.hasTransport, [], c.run);
  }

  lemma PassOn(c: Client, i: PassInput)
    requires FromSession(c, true)
    ensures FromSession(Pass(c, i), Pass(c, i).run)
  {
    var start, hasTransport, inputs :| IsSession(c, start, hasTransport, inputs, true);
    var s := After(Begin(start, hasTransport), inputs);
    assert (inputs + [i])[..|inputs|] == inputs;
    PassIgnoresRun(c, s, i);
    RunOfPass(c, s, i);
    PassMovesClock(c, i);
    assert After(Begin(start, hasTransport), inputs + [i]) == Pass(s, i);
    hide Pass, Begin, After;
    assert IsSession(Pass(c, i), start, hasTransport, inputs + [i], Pass(c, i).run);
  }

  /** A pass clears `run` for the same clients, whoever set it. */
  lemma RunOfPass(a: Client, b: Client, i: PassInput)
    requires SameButRun(a, b) && b.run
    ensures Pass(a, i).run ==> Pass(b, i).run
  {
    PassKeepsRun(a, i);
    hide Pass;
    if a.run {
      assert a == b;
    }
  }

  lemma WeakenSession(c: Client, d: Client, running: bool, less: bool)
    requires FromSession(c, running) && SameButRun(c, d) && (less ==> running)
    ensures FromSession(d, less)
  {
    var start, hasTransport, inputs :| IsSession(c, start, hasTransport, inputs, running);
    hide After, Begin;
    assert IsSession(d, start, hasTransport, inputs, less);
  }

  lemma SessionFollowsGrammar(c: Client, running: bool)
    requires FromSession(c, running)
    ensures FollowsGrammar(c.events) && TicksArePast(c)
  {
    var start, hasTransport, inputs :| IsSession(c, start, hasTransport, inputs, running);
    EventsFollowGrammar(start, hasTransport, inputs);
    hide After, Begin, FollowsGrammar;
    if c.now < U64 {
      SessionKeepsTiming(start, hasTransport, inputs);
    }
  }

  lemma EmptyFollowsGrammar()
    ensures FollowsGrammar([])
  {
    assert [] <= Script([]);
  }

  lemma TaskKeepsSession(s: System, found: bool, input: PassInput)
    requires SessionInv(s)
    ensures SessionInv(TaskNext(s, found, input))
  {
    hide FollowsGrammar, FromSession, Pass;
    match s.task
    case ClearingStopped => EnterLoop(s.client);
    case AtHead => if !s.client.run { WeakenSession(s.client, s.client, s.client.run, false); }
    case InPass => PassOn(s.client, input);
    case Closing => SessionFollowsGrammar(s.client, false);
    case _ =>
  }

  lemma ControlKeepsSession(s: System, created: bool)
    requires SessionInv(s) && Handshake(s)
    ensures SessionInv(ControlNext(s, created))
  {
    hide FollowsGrammar, FromSession, TransportInv;
    var t := ControlNext(s, created);
    if s.control == StopClearing {
      if s.task == AtHead {
        WeakenSession(s.client, t.client, s.client.run, false);
      } else if s.task == InPass {
        WeakenSession(s.client, t.client, true, true);
      } else if s.task == Closing {
        WeakenSession(s.client, t.client, false, false);
      }
    }
  }

  lemma {:induction false} RunKeepsSessions(client: Client, moves: seq<Move>)
    requires Ready(client)
    ensures SessionInv(Run(Boot(client), moves))
  {
    if moves == [] {
      EmptyFollowsGrammar();
    } else {
      var s, move := Run(Boot(client), moves[..|moves| - 1]), moves[|moves| - 1];
      RunKeepsSessions(client, moves[..|moves| - 1]);
      RunKeepsHandshake(client, moves[..|moves| - 1]);
      hide TaskNext, ControlNext, FollowsGrammar, FromSession, Handshake;
      match move
      case Task(found, input) => TaskKeepsSession(s, found, input);
      case Control(created) => ControlKeepsSession(s, created);
      case _ =>
    }
  }

  /** However start and stop interleave with the loop: at every loop head the client is
      as a session without a controller leaves it but for `run`, and the events of every
      session follow the grammar. */
  lemma InterleavedSessionsAreSessions(client: Client, moves: seq<Move>)
    requires Ready(client)
    ensures var s := Run(Boot(client), moves);
            && (s.task == AtHead ==> FromSession(s.client, s.client.run))
            && FollowsGrammar(s.client.events)
  {
    RunKeepsSessions(client, moves);
    var s := Run(Boot(client), moves);
    hide Run, FollowsGrammar, FromSession;
    EmptyFollowsGrammar();
    if s.task == AtHead || s.task == InPass || s.task == Closing {
      SessionFollowsGrammar(s.client, if s.task == AtHead then s.client.run else s.task == InPass);
    }
  }

  /** At a loop head, in a pass, or just out of the loop. */
  predicate InSession(t: TaskPc) {
    t == AtHead || t == InPass || t == Closing
  }

  /** The session without a controller that an interleaved one is a part of. */
  lemma LoneSession(client: Client, moves: seq<Move>)
    returns (start: Client, hasTransport: bool, inputs: seq<PassInput>)
    requires Ready(client) && InSession(Run(Boot(client), moves).task)
    ensures var c := Run(Boot(client), moves).client;
            SameButRun(c, After(Begin(start, hasTransport), inputs)) && (c.now < U64 ==> Ready(start))
  {
    RunKeepsSessions(client, moves);
    var s := Run(Boot(client), moves);
    var running := if s.task == AtHead then s.client.run else s.task == InPass;
    hide Run, After, Begin;
    assert FromSession(s.client, running);
    start, hasTransport, inputs :| IsSession(s.client, start, hasTransport, inputs, running);
  }

  /** In every interleaved session too the application is told of each answer of the
      transport what it means, in order, and of nothing else. */
  lemma InterleavedEvents(client: Client, moves: seq<Move>)
    requires Ready(client) && InSession(Run(Boot(client), moves).task)
    ensures var c := Run(Boot(client), moves).client;
            c.events == EventsOf(c.calls) && Orderly(NoPings(c.calls)) && PingsFollowPolls(c.calls)
  {
    var start, hasTransport, inputs := LoneSession(client, moves);
    hide Run, After, Begin, EventsOf, NoPings, Orderly, PingsFollowPolls, Last;
    EventsAreOfTheAnswers(start, hasTransport, inputs);
  }

  /** The reconnect rate bound holds in every interleaved session. */
  lemma InterleavedReconnectRate(client: Client, moves: seq<Move>, i: nat, j: nat)
    requires Ready(client)
    requires InSession(Run(Boot(client), moves).task) && Run(Boot(client), moves).client.now < U64
    requires i <= j < |Run(Boot(client), moves).client.attempts|
    ensures var attempts := Run(Boot(client), moves).client.attempts;
            attempts[i] + 1001 * (j - i) <= attempts[j]
  {
    var start, hasTransport, inputs := LoneSession(client, moves);
    hide Run, After, Begin;
    ReconnectRateIsBounded(start, hasTransport, inputs, i, j);
  }

  /** So does the ping rate bound. */
  lemma InterleavedPingRate(client: Client, moves: seq<Move>, i: nat, j: nat)
    requires Ready(client)
    requires InSession(Run(Boot(client), moves).task) && Run(Boot(client), moves).client.now < U64
    requires i <= j < |PingTimes(Run(Boot(client), moves).client.checks)|
    ensures var pings := PingTimes(Run(Boot(client), moves).client.checks);
            pings[i] + 10001 * (j - i) <= pings[j]
  {
    var start, hasTransport, inputs := LoneSession(client, moves);
    hide Run, After, Begin, PingTimes;
    PingRateIsBounded(start, hasTransport, inputs, i, j);
  }

  /** And every check of it pings exactly when it must. */
  lemma InterleavedPingsAreTimely(client: Client, moves: seq<Move>, d: nat, k: nat)
    requires Ready(client)
    requires InSession(Run(Boot(client), moves).task) && Run(Boot(client), moves).client.now < U64
    requires k < |Run(Boot(client), moves).client.checks|
    requires ChecksWithin(Run(Boot(client), moves).client.checks, d)
    ensures var c := Run(Boot(client), moves).client;
            var check := c.checks[k];
            && 0 < check.contacts <= |c.contacts|
            && (check.pings <==> check.reading > c.contacts[check.contacts - 1] + 10000)
            && (!check.first ==> check.reading <= c.contacts[check.contacts - 1] + 10000 + d)
  {
    var start, hasTransport, inputs := LoneSession(client, moves);
    hide Run, After, Begin, ChecksWithin;
    PingsAreTimely(start, hasTransport, inputs, d, k);
  }

  lemma AbortKeepsSetting(c: Client, d: nat)
    ensures Abort(c, d).autoReconnect == c.autoReconnect
  {
  }

  lemma InitKeepsSetting(c: Client, i: PassInput)
    ensures InitPass(c, i).autoReconnect == c.autoReconnect
  {
    AbortKeepsSetting(Attempt(c, i), i.d1);
    hide Abort;
  }

  lemma CheckKeepsSetting(c: Client, i: PassInput)
    ensures CheckPing(c, i).autoReconnect == c.autoReconnect
  {
    hide Elapsed;
  }

  lemma ReadKeepsSetting(c: Client, i: PassInput)
    ensures ReadData(c, i).autoReconnect == c.autoReconnect
  {
    AbortKeepsSetting(StartRead(c, i), i.d3);
    hide Abort;
  }

  lemma WaitKeepsSetting(c: Client, i: PassInput)
    ensures WaitPass(c, i).autoReconnect == c.autoReconnect
  {
    hide Elapsed;
  }

  lemma PassKeepsSetting(c: Client, i: PassInput)
    ensures Pass(c, i).autoReconnect == c.autoReconnect
  {
    var polled := Call(c, PollRead(i.poll));
    InitKeepsSetting(c, i);
    AbortKeepsSetting(polled, i.d0);
    CheckKeepsSetting(polled, i);
    ReadKeepsSetting(CheckPing(polled, i), i);
    WaitKeepsSetting(c, i);
    hide InitPass, CheckPing, ReadData, WaitPass, Abort;
  }

  lemma {:induction false} AfterKeepsSetting(c: Client, inputs: seq<PassInput>)
    ensures After(c, inputs).autoReconnect == c.autoReconnect
    decreases |inputs|
  {
    hide Pass;
    if inputs != [] {
      AfterKeepsSetting(c, inputs[..|inputs| - 1]);
      PassKeepsSetting(After(c, inputs[..|inputs| - 1]), inputs[|inputs| - 1]);
    }
  }

  lemma StartingKeepsSetting(s: System, found: bool, input: PassInput)
    requires s.task == Starting
    ensures TaskNext(s, found, input).client.autoReconnect == s.client.autoReconnect
  {
    hide Pass, Call;
  }

  lemma InPassKeepsSetting(s: System, found: bool, input: PassInput)
    requires s.task == InPass
    ensures TaskNext(s, found, input).client.autoReconnect == s.client.autoReconnect
  {
    PassKeepsSetting(s.client, input);
    hide Pass, Call;
  }

  lemma PreparingKeepsSetting(s: System, found: bool, input: PassInput)
    requires s.task == FindingTransport || s.task == EnteringInit || s.task == ClearingStopped
    ensures TaskNext(s, found, input).client.autoReconnect == s.client.autoReconnect
  {
    hide Pass, Call;
  }

  lemma EndingKeepsSetting(s: System, found: bool, input: PassInput)
    requires s.task == Gone || s.task == AtHead || s.task == Closing || s.task == Finishing
    ensures TaskNext(s, found, input).client.autoReconnect == s.client.autoReconnect
  {
    hide Pass;
  }

  lemma TaskKeepsSetting(s: System, found: bool, input: PassInput)
    ensures TaskNext(s, found, input).client.autoReconnect == s.client.autoReconnect
  {
    hide TaskNext;
    match s.task
    case Starting => StartingKeepsSetting(s, found, input);
    case InPass => InPassKeepsSetting(s, found, input);
    case FindingTransport => PreparingKeepsSetting(s, found, input);
    case EnteringInit => PreparingKeepsSetting(s, found, input);
    case ClearingStopped => PreparingKeepsSetting(s, found, input);
    case _ => EndingKeepsSetting(s, found, input);
  }

  lemma ControlKeepsSetting(s: System, created: bool)
    ensures ControlNext(s, created).client.autoReconnect == s.client.autoReconnect
  {
  }

  lemma MoveKeepsSetting(s: System, move: Move)
    ensures Next(s, move).client.autoReconnect == s.client.autoReconnect
  {
    hide TaskNext, ControlNext;
    match move
    case Task(found, input) => TaskKeepsSetting(s, found, input);
    case Control(created) => ControlKeepsSetting(s, created);
    case _ =>
  }

  lemma {:induction false} RunKeepsSetting(client: Client, moves: seq<Move>)
    ensures Run(Boot(client), moves).client.autoReconnect == client.autoReconnect
  {
    if moves != [] {
      hide Next;
      RunKeepsSetting(client, moves[..|moves| - 1]);
      MoveKeepsSetting(Run(Boot(client), moves[..|moves| - 1]), moves[|moves| - 1]);
    }
  }

  lemma OneShotIgnoresRun(a: Client, b: Client)
    requires SameButRun(a, b) && OneShot(a)
    ensures OneShot(b)
  {
    assert a.events == b.events && a.attempts == b.attempts && a.state == b.state && a.autoReconnect == b.autoReconnect;
  }

  /** Without automatic reconnection an interleaved session makes one connect attempt at
      most, and nothing follows its first DISCONNECTED. */
  lemma InterleavedOneAttempt(client: Client, moves: seq<Move>)
    requires Ready(client) && !client.autoReconnect && InSession(Run(Boot(client), moves).task)
    ensures OneShot(Run(Boot(client), moves).client)
  {
    var start, hasTransport, inputs := LoneSession(client, moves);
    var c, lone := Run(Boot(client), moves).client, After(Begin(start, hasTransport), inputs);
    RunKeepsSetting(client, moves);
    AfterKeepsSetting(Begin(start, hasTransport), inputs);
    assert !start.autoReconnect;
    hide Run, After, Boot, OneShot, Begin;
    WithoutReconnectOneAttempt(start, hasTransport, inputs);
    OneShotIgnoresRun(lone, c);
  }
}
