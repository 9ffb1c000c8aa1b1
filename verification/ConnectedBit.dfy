/**
 The application's connected bit under start and stop: leaving the loop dispatches no
 event, so a session that stop ends while it is connected leaves the bit set, and the
 next session finds it so until its first event.
 */
module ConnectedBit {
  import opened Bytes
  import opened ClientSession
  import opened SessionProperties
  import opened StopHandshake

  /** The last session has left its loop, and the next has not set `run`. */
  predicate Ended(t: TaskPc) {
    t == Closing || t == Finishing || t == Gone || t == Starting
  }

  predicate InLoopBody(t: TaskPc) {
    t == AtHead || t == InPass
  }

  ghost predicate BitInv(s: System) {
    if InLoopBody(s.task) then BitTracks(s.client, s.bitAtStart)
    else if Ended(s.task) then s.client.serverBit <==> s.lastState == Connected || (s.client.events == [] && s.bitAtStart)
    else s.client.events == [] && s.client.serverBit == s.bitAtStart && (s.task == ClearingStopped ==> s.client.state == Init)
  }

  /** Only stop ends the loop of a connected client. */
  ghost predicate StopInv(s: System) {
    match s.task
    case InPass => !s.client.run ==> s.control == StopWaiting
    case AtHead => !s.client.run && s.client.state == Connected ==> s.control == StopWaiting
    case Closing => s.lastState == Connected ==> s.control == StopWaiting
    case Finishing => s.lastState == Connected ==> s.control == StopWaiting
    case _ => true
  }

  lemma LoopIsSound(s: System)
    requires Handshake(s) && InLoopBody(s.task)
    ensures InLoop(s.client)
  {
  }

  lemma TaskKeepsBit(s: System, found: bool, input: PassInput)
    requires Handshake(s) && BitInv(s)
    ensures BitInv(TaskNext(s, found, input))
  {
    if s.task == InPass {
      LoopIsSound(s);
      PassKeepsTracking(s.client, input, s.bitAtStart);
    }
    hide Pass, Handshake;
  }

  lemma TaskKeepsStop(s: System, found: bool, input: PassInput)
    requires Handshake(s) && BitInv(s) && StopInv(s)
    ensures StopInv(TaskNext(s, found, input))
  {
    if s.task == InPass && s.client.run && !Pass(s.client, input).run {
      LoopIsSound(s);
      PassEndsUnconnected(s.client, input);
    }
    hide Pass, Handshake;
  }

  lemma ControlKeepsBit(s: System, created: bool)
    requires Handshake(s) && BitInv(s) && StopInv(s)
    ensures BitInv(ControlNext(s, created)) && StopInv(ControlNext(s, created))
  {
    hide TransportInv;
  }

  lemma {:induction false} RunKeepsBit(client: Client, moves: seq<Move>)
    ensures BitInv(Run(Boot(client), moves)) && StopInv(Run(Boot(client), moves))
  {
    if moves != [] {
      var s, move := Run(Boot(client), moves[..|moves| - 1]), moves[|moves| - 1];
      RunKeepsBit(client, moves[..|moves| - 1]);
      RunKeepsHandshake(client, moves[..|moves| - 1]);
      hide TaskNext, ControlNext, Handshake;
      match move
      case Task(found, input) =>
        TaskKeepsBit(s, found, input);
        TaskKeepsStop(s, found, input);
      case Control(created) => ControlKeepsBit(s, created);
      case _ =>
    }
  }

  // -------------------------------------------------------------- what it means

  /** At every loop head the connected bit agrees with the client's state if and only if
      this session found the bit clear or has had an event: a stale bit is put right by
      the first event, and by nothing before it. */
  lemma BitAgreesIffEvent(client: Client, moves: seq<Move>)
    requires Run(Boot(client), moves).task == AtHead
    ensures var s := Run(Boot(client), moves);
            BitAgrees(s.client) <==> !s.bitAtStart || s.client.events != []
  {
    RunKeepsBit(client, moves);
    hide Run;
  }

  /** A session that is over leaves the bit set if and only if it was connected when it
      left its loop, or found the bit set and had no event. */
  lemma BitIsLeftSetIff(client: Client, moves: seq<Move>)
    requires Ended(Run(Boot(client), moves).task)
    ensures var s := Run(Boot(client), moves);
            s.client.serverBit <==> s.lastState == Connected || (s.client.events == [] && s.bitAtStart)
  {
    RunKeepsBit(client, moves);
    hide Run;
  }

  /** Only stop does that: when a session leaves its loop connected, stop is waiting. */
  lemma OnlyStopLeavesConnected(client: Client, moves: seq<Move>)
    requires Run(Boot(client), moves).task == Closing || Run(Boot(client), moves).task == Finishing
    ensures Run(Boot(client), moves).lastState == Connected ==> Run(Boot(client), moves).control == StopWaiting
  {
    RunKeepsBit(client, moves);
    hide Run;
  }

  // -------------------------------------------------------------------- a witness

  lemma Extend(s: System, moves: seq<Move>, move: Move)
    ensures Run(s, moves + [move]) == Next(Run(s, moves), move)
  {
    hide Next;
    assert (moves + [move])[..|moves|] == moves;
  }

  /** The clock stands still and the server accepts the connection. */
  const CALM := PassInput(0, 0, 0, 0, true, 0, None)

  /** A running session that nobody has asked to stop. */
  ghost predicate RunningFreely(s: System, task: TaskPc, state: ClientState) {
    && s.task == task && s.control == Idle && !s.stopped
    && s.client.run && s.client.hasTransport && s.client.state == state
    && (s.client.serverBit <==> state == Connected)
  }

  lemma More(s: System, moves: seq<Move>, move: Move) returns (longer: seq<Move>)
    ensures longer == moves + [move] && Run(s, longer) == Next(Run(s, moves), move)
  {
    longer := moves + [move];
    Extend(s, moves, move);
  }

  /** Start returns; the websocket task has yet to run. */
  ghost predicate JustCreated(s: System) {
    s.task == Starting && s.control == Idle && !s.client.serverBit
  }

  /** What the controller's steps of a start do when no task runs. */
  lemma StartMoves(s: System)
    requires s.task == Gone && s.client.state == Unknown
    ensures s.control == Idle ==> Next(s, CallStart) == s.(control := StartChecking)
    ensures s.control == StartChecking ==> Next(s, Control(true)) == s.(control := Creating)
    ensures s.control == Creating ==> Next(s, Control(true)) == s.(task := Starting, control := StartClearing)
  {
    hide TaskNext;
  }

  lemma LastStartMove(s: System)
    requires s.control == StartClearing
    ensures Next(s, Control(true)) == s.(stopped := false, control := Idle)
  {
    hide TaskNext;
  }

  lemma CallingStart(client: Client) returns (moves: seq<Move>)
    requires !client.serverBit
    ensures JustCreated(Run(Boot(client), moves))
  {
    var s0 := Boot(client);
    assert Run(s0, []) == s0;
    hide Run, Next;
    moves := More(s0, [], CallStart);
    StartMoves(s0);
    StartMoves(s0.(control := StartChecking));
    moves := More(s0, moves, Control(true));
    StartMoves(s0.(control := Creating));
    moves := More(s0, moves, Control(true));
    LastStartMove(s0.(task := Starting, control := StartClearing));
    moves := More(s0, moves, Control(true));
  }

  /** Start, and the websocket task up to its first loop head. */
  lemma StartUp(client: Client) returns (moves: seq<Move>)
    requires !client.serverBit
    ensures RunningFreely(Run(Boot(client), moves), AtHead, Init)
  {
    hide Run, Boot, Pass, ControlNext;
    var s0, task := Boot(client), Task(true, CALM);
    moves := CallingStart(client);
    moves := More(s0, moves, task);
    moves := More(s0, moves, task);
    moves := More(s0, moves, task);
    moves := More(s0, moves, task);
  }

  /** One pass connects. */
  lemma GetConnected(s: System, moves: seq<Move>) returns (more: seq<Move>)
    requires RunningFreely(Run(s, moves), AtHead, Init)
    ensures RunningFreely(Run(s, more), AtHead, Connected)
  {
    hide Run;
    more := More(s, moves, Task(true, CALM));
    more := More(s, more, Task(true, CALM));
  }

  /** Stop, called at a loop head, returns ESP_OK. */
  lemma StopThere(s: System, moves: seq<Move>) returns (more: seq<Move>)
    requires RunningFreely(Run(s, moves), AtHead, Connected)
    ensures var t := Run(s, more);
            && t.task == Gone && t.control == Idle && t.stopped && t.client.serverBit
            && more != [] && Run(s, more[..|more| - 1]).control == StopReturning
  {
    hide Run, Pass;
    var control, task := Control(true), Task(true, CALM);
    more := More(s, moves, CallStop);
    more := More(s, more, control);
    more := More(s, more, control);
    more := More(s, more, task);
    more := More(s, more, task);
    more := More(s, more, task);
    more := More(s, more, control);
    var last := more;
    more := More(s, more, control);
    assert more[..|more| - 1] == last;
  }

  /** Start, one pass that connects, stop: stop returns ESP_OK and the bit is still set. */
  lemma StaleBit(client: Client) returns (moves: seq<Move>)
    requires !client.serverBit
    ensures moves != [] && Run(Boot(client), moves[..|moves| - 1]).control == StopReturning
    ensures var s := Run(Boot(client), moves);
            s.task == Gone && s.control == Idle && s.client.serverBit
  {
    hide Run, Boot, RunningFreely;
    moves := StartUp(client);
    moves := GetConnected(Boot(client), moves);
    moves := StopThere(Boot(client), moves);
  }
}
