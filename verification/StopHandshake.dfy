/**
 Starting and stopping the websocket task: one controlling task and the websocket
 task interleave on the client's `run` and `state` fields and on the stopped bit.
 A run is any sequence of moves; a move that is not possible changes nothing.
 */
module StopHandshake {
  import opened ClientSession
  import opened SessionProperties
  import opened SessionCalls

  datatype TaskPc =
    | Gone                       // not created, or deleted
    | Starting                   // about to set run
    | FindingTransport
    | EnteringInit               // about to set the state to INIT
    | ClearingStopped            // about to clear the stopped bit
    | AtHead                     // about to read run
    | InPass
    | Closing                    // out of the loop, about to close the transport
    | Finishing                  // about to set the stopped bit and leave

  datatype ControlPc =
    | Idle
    | StartChecking              // about to read the state
    | Creating
    | StartClearing              // about to clear the stopped bit
    | StopChecking               // about to read run
    | StopClearing               // about to clear run
    | StopWaiting                // waiting for the stopped bit
    | StopReturning              // about to set the state to UNKNOW and return ESP_OK

  datatype System = System(
    client: Client,
    task: TaskPc,
    control: ControlPc,
    stopped: bool,               // STOPPED_BIT
    begun: nat,                  // passes begun in this session
    begunAtStop: nat,            // its value when stop last cleared run
    bitAtStart: bool,            // the application's connected bit when this session began
    lastState: ClientState)      // the state in which the last session left its loop

  datatype Move =
    | CallStart
    | CallStop
    | Control(created: bool)
    | Task(found: bool, input: PassInput)

  function Boot(client: Client): System {
    System(client.(run := false, state := Unknown, calls := [], events := []), Gone, Idle, false, 0, 0,
           client.serverBit, Unknown)
  }

  /** The task has set the state to INIT, or is over. */
  predicate PastInit(t: TaskPc) {
    t != Starting && t != FindingTransport && t != EnteringInit
  }

  function TaskNext(s: System, found: bool, input: PassInput): System {
    match s.task
    case Gone => s
    case Starting =>
      s.(task := FindingTransport, begun := 0, bitAtStart := s.client.serverBit,
         client := s.client.(run := true, calls := [], events := [], attempts := [],
                             contacts := [s.client.pingTick], checks := [], checked := false))
    case FindingTransport =>
      s.(task := EnteringInit, client := s.client.(hasTransport := found, run := s.client.run && found))
    case EnteringInit => s.(task := ClearingStopped, client := s.client.(state := Init))
    case ClearingStopped => s.(task := AtHead, stopped := false)
    case AtHead =>
      if s.client.run then s.(task := InPass, begun := s.begun + 1)
      else s.(task := Closing, lastState := s.client.state)
    case InPass => s.(task := AtHead, client := Pass(s.client, input))
    case Closing => s.(task := Finishing, client := Call(s.client, Close))
    case Finishing => s.(task := Gone, stopped := true, client := s.client.(state := Unknown))
  }

  function ControlNext(s: System, created: bool): System {
    match s.control
    case Idle => s
    case StartChecking => s.(control := if s.client.state == Unknown then Creating else Idle)
    case Creating => if created then s.(task := Starting, control := StartClearing) else s.(control := Idle)
    case StartClearing => s.(stopped := false, control := Idle)
    case StopChecking => s.(control := if s.client.run then StopClearing else Idle)
    case StopClearing => s.(client := s.client.(run := false), begunAtStop := s.begun, control := StopWaiting)
    case StopWaiting => if s.stopped then s.(control := StopReturning) else s
    case StopReturning => s.(client := s.client.(state := Unknown), control := Idle)
  }

  function Next(s: System, move: Move): System {
    match move
    case CallStart => if s.control == Idle && PastInit(s.task) then s.(control := StartChecking) else s
    case CallStop => if s.control == Idle then s.(control := StopChecking) else s
    case Control(created) => ControlNext(s, created)
    case Task(found, input) => TaskNext(s, found, input)
  }

  function Run(s: System, moves: seq<Move>): System {
    if moves == [] then s else Next(Run(s, moves[..|moves| - 1]), moves[|moves| - 1])
  }

  // ------------------------------------------------------------------ invariants

  /** Between the first pass and the end of the loop. */
  predicate Looping(t: TaskPc) {
    t == ClearingStopped || t == AtHead || t == InPass || t == Closing
  }

  predicate MayRun(t: TaskPc) {
    t != Gone && t != Starting && t != Closing && t != Finishing
  }

  predicate StopPending(p: ControlPc) {
    p == StopClearing || p == StopWaiting || p == StopReturning
  }

  ghost predicate TaskInv(s: System) {
    && (s.client.run ==> MayRun(s.task))
    && (s.client.state == Unknown <==> s.task == Gone || !PastInit(s.task))
    && (Looping(s.task) ==> TransportInv(s.client))
    && (s.task == FindingTransport || s.task == EnteringInit ==> s.client.calls == [])
    && (s.task == Gone || s.task == Finishing ==> !IsOpen(s.client.calls))
  }

  ghost predicate ControlInv(s: System) {
    && (s.control == StartChecking ==> PastInit(s.task))
    && (s.control == Creating ==> s.task == Gone)
    && (s.task != Gone && s.control != StartClearing ==> !s.stopped)
    && (StopPending(s.control) ==> s.task != Starting && (s.task == Gone ==> s.stopped))
    && (s.control == StopReturning ==> s.task == Gone)
    && (s.control == StopWaiting || s.control == StopReturning ==> !s.client.run && s.begun == s.begunAtStop)
  }

  ghost predicate Handshake(s: System) {
    TaskInv(s) && ControlInv(s)
  }

  lemma TaskKeepsTask(s: System, found: bool, input: PassInput)
    requires Handshake(s)
    ensures TaskInv(TaskNext(s, found, input))
  {
    hide Pass, Paired, IsOpen;
    if s.task == InPass {
      PassKeepsTransport(s.client, input);
      PassKeepsRun(s.client, input);
    } else if s.task == Closing {
      PairedAppend(s.client.calls, Close);
    } else if s.task == EnteringInit {
      NoCallsYet();
    }
  }

  lemma NoCallsYet()
    ensures Paired([]) && !IsOpen([])
  {
  }

  lemma PassKeepsRun(c: Client, i: PassInput)
    ensures Pass(c, i).run ==> c.run
  {
    InitRunsOnIff(c, i);
    ConnectedRunsOn(c, i);
    hide InitPass, ConnectedPass, Elapsed;
  }

  lemma TaskKeepsControl(s: System, found: bool, input: PassInput)
    requires Handshake(s)
    ensures ControlInv(TaskNext(s, found, input))
  {
    PassKeepsRun(s.client, input);
    hide Pass, TransportInv;
  }

  lemma ControlKeepsAll(s: System, created: bool)
    requires Handshake(s)
    ensures Handshake(ControlNext(s, created))
  {
    hide Paired, IsOpen;
  }

  lemma MoveKeepsHandshake(s: System, move: Move)
    requires Handshake(s)
    ensures Handshake(Next(s, move))
  {
    match move
    case Control(created) => ControlKeepsAll(s, created);
    case Task(found, input) =>
      TaskKeepsTask(s, found, input);
      TaskKeepsControl(s, found, input);
    case _ =>
  }

  lemma {:induction false} RunKeepsHandshake(client: Client, moves: seq<Move>)
    ensures Handshake(Run(Boot(client), moves))
  {
    if moves != [] {
      RunKeepsHandshake(client, moves[..|moves| - 1]);
      hide Next, Handshake;
      MoveKeepsHandshake(Run(Boot(client), moves[..|moves| - 1]), moves[|moves| - 1]);
    }
  }

  // -------------------------------------------------------------- what it means

  /** When stop is about to return ESP_OK, the task has left its loop, closed the
      transport and gone; the bit stop saw was set by this session's task. */
  lemma StopMeansEnded(client: Client, moves: seq<Move>)
    ensures var s := Run(Boot(client), moves);
            s.control == StopReturning ==> s.task == Gone && !IsOpen(s.client.calls) && s.client.state == Unknown
  {
    RunKeepsHandshake(client, moves);
    hide Run, TransportInv;
  }

  /** A set stopped bit that stop can see always belongs to a task that is over. */
  lemma StoppedBitIsNeverStale(client: Client, moves: seq<Move>)
    ensures var s := Run(Boot(client), moves);
            s.stopped && (s.control == StopChecking || StopPending(s.control)) ==> s.task == Gone
  {
    RunKeepsHandshake(client, moves);
    hide Run, TransportInv;
  }

  /** While stop waits, either the bit is set or the task has yet to set it, and no pass
      has begun since `run` was cleared. */
  lemma NoWakeUpIsLost(client: Client, moves: seq<Move>)
    ensures var s := Run(Boot(client), moves);
            s.control == StopWaiting ==>
              && (s.stopped || s.task != Gone)
              && s.begun == s.begunAtStop && !s.client.run
  {
    RunKeepsHandshake(client, moves);
    hide Run, TransportInv;
  }

  /** Start refuses, whatever the controller does, exactly while the websocket task has
      set the state to INIT and is not gone: before that a second start would not be
      stopped, which is why the controller must not call it so early. */
  lemma StartRefusesIff(client: Client, moves: seq<Move>)
    ensures var s := Run(Boot(client), moves);
            ControlNext(s.(control := StartChecking), true).control == Idle <==> s.task != Gone && PastInit(s.task)
  {
    RunKeepsHandshake(client, moves);
    hide Run, TransportInv;
  }

  /** However start and stop interleave with the loop, at every loop head the client is
      in INIT, CONNECTED or WAIT_TIMEOUT with the transport open exactly in CONNECTED. */
  lemma LoopHeadsAreSound(client: Client, moves: seq<Move>)
    ensures var s := Run(Boot(client), moves);
            s.task == AtHead || s.task == InPass ==> TransportInv(s.client)
  {
    RunKeepsHandshake(client, moves);
    hide Run, TransportInv;
  }

  /** How many of its own moves the task is from being gone, once `run` is clear. */
  function Distance(t: TaskPc): nat {
    match t
    case Gone => 0
    case Finishing => 1
    case Closing => 2
    case AtHead => 3
    case InPass => 4
    case ClearingStopped => 4
    case EnteringInit => 5
    case FindingTransport => 6
    case Starting => 7
  }

  function TaskMoves(moves: seq<Move>): nat {
    if moves == [] then 0
    else TaskMoves(moves[..|moves| - 1]) + if moves[|moves| - 1].Task? then 1 else 0
  }

  lemma TaskComesCloser(s: System, move: Move)
    requires Handshake(s) && s.control == StopWaiting && !s.stopped
    ensures var t := Next(s, move);
            && t.control == StopWaiting && !t.client.run
            && (if move.Task? then Distance(t.task) < Distance(s.task) else t.task == s.task)
  {
    hide Pass, TransportInv;
    match move
    case Task(_, input) =>
      PassKeepsRun(s.client, input);
      hide ControlNext;
    case _ => hide TaskNext;
  }

  /** At some moment of the moves the stopped bit is set. */
  ghost predicate Answered(s: System, moves: seq<Move>) {
    exists k :: 0 <= k <= |moves| && Run(s, moves[..k]).stopped
  }

  lemma AnsweredInFront(s: System, moves: seq<Move>)
    requires moves != [] && !Answered(s, moves)
    ensures !Answered(s, moves[..|moves| - 1]) && !Run(s, moves[..|moves| - 1]).stopped
  {
    var front := moves[..|moves| - 1];
    assert forall k :: 0 <= k <= |front| ==> front[..k] == moves[..k];
    assert front[..|front|] == front;
    hide Run;
  }

  lemma {:induction false} StopGetsCloser(s: System, moves: seq<Move>)
    requires Handshake(s) && s.control == StopWaiting
    ensures Answered(s, moves) || (Handshake(Run(s, moves)) && Run(s, moves).control == StopWaiting
                                   && TaskMoves(moves) + Distance(Run(s, moves).task) <= Distance(s.task))
    decreases |moves|
  {
    hide Handshake, Next, Answered;
    if moves != [] && !Answered(s, moves) {
      var front, move := moves[..|moves| - 1], moves[|moves| - 1];
      AnsweredInFront(s, moves);
      StopGetsCloser(s, front);
      MoveKeepsHandshake(Run(s, front), move);
      TaskComesCloser(Run(s, front), move);
    }
  }

  /** Once stop waits, it is answered after at most six further moves of the task. */
  lemma StopIsAnswered(s: System, moves: seq<Move>)
    requires Handshake(s) && s.control == StopWaiting && TaskMoves(moves) >= 6
    ensures Answered(s, moves)
  {
    StopGetsCloser(s, moves);
    assert moves[..|moves|] == moves;
    var t := Run(s, moves);
    hide Run, TaskMoves, TransportInv;
    assert Run(s, moves[..|moves|]) == t;
  }
}
