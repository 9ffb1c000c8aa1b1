/**
 One session of the websocket client task: what each pass of its loop does to the
 client, to the transport, to the event trace and to the application's connected bit.
 The transport's answers and the clock are inputs.
 */
module ClientSession {
  import opened Bytes

  const RECONNECT_TIMEOUT_MS := 1000
  const PING_TIMEOUT_MS := 10000

  const U64 := 0x1_0000_0000_0000_0000

  datatype ClientState = Unknown | Init | Connected | WaitTimeout

  datatype Event = ConnectedEvent | DisconnectedEvent | DataEvent(payload: seq<byte>)

  /** Calls on the transport by the task, with what the transport answered. */
  datatype TransportCall = Connect(ok: bool) | PollRead(result: int) | Read(received: Option<seq<byte>>) | Ping | Close

  /** A reading of the ping check: its time, how many contacts there had been, whether
      it is the first since connecting, and whether it sends a ping. */
  datatype PingCheck = PingCheck(reading: nat, contacts: nat, first: bool, pings: bool)

  datatype Client = Client(
    state: ClientState,
    run: bool,
    hasTransport: bool,
    autoReconnect: bool,
    reconnectTick: nat,
    pingTick: nat,
    waitTimeout: nat,
    now: nat,                          // the clock, in ms
    serverBit: bool,                   // statusCONNECTED_TO_SERVER
    calls: seq<TransportCall>,         // this session's transport calls
    events: seq<Event>,                // this session's dispatched events
    attempts: seq<nat>,                // times of this session's connect calls
    contacts: seq<nat>,                // times of pings sent and of data arriving
    checks: seq<PingCheck>,            // this session's ping checks
    checked: bool)                     // a ping check was made since connecting

  /** What the outside world answers during one pass: how far the clock moves before
      each reading or call, and the transport's results. */
  datatype PassInput = PassInput(
    d0: nat, d1: nat, d2: nat, d3: nat,
    connects: bool,                    // connect returned >= 0
    poll: int,                         // result of poll_read
    received: Option<seq<byte>>)       // None: read returned < 0

  /** Unsigned 64-bit subtraction. */
  function Elapsed(now: nat, since: nat): nat {
    (now - since) % U64
  }

  function Tick(c: Client, d: nat): Client {
    c.(now := c.now + d)
  }

  function Call(c: Client, call: TransportCall): Client {
    c.(calls := c.calls + [call])
  }

  /** Dispatching runs the application's handler before it returns. */
  function Dispatch(c: Client, e: Event): Client {
    c.(events := c.events + [e],
       serverBit := match e
                    case ConnectedEvent => true
                    case DisconnectedEvent => false
                    case DataEvent(_) => c.serverBit)
  }

  function Abort(c: Client, d: nat): Client {
    var closed := Tick(Call(c, Close), d);
    Dispatch(closed.(waitTimeout := RECONNECT_TIMEOUT_MS, reconnectTick := closed.now, state := WaitTimeout),
             DisconnectedEvent)
  }

  /** The connect call. */
  function Attempt(c: Client, i: PassInput): Client {
    var at := Tick(c, i.d0);
    Call(at, Connect(i.connects)).(attempts := at.attempts + [at.now])
  }

  function InitPass(c: Client, i: PassInput): Client {
    if !c.hasTransport then c.(run := false)
    else
      var tried := Attempt(c, i);
      if !i.connects then Abort(tried, i.d1)
      else Dispatch(tried.(state := Connected, checked := false), ConnectedEvent)
  }

  /** The ping check: one reading decides, a second one is stored. */
  function CheckPing(c: Client, i: PassInput): Client {
    var at := Tick(c, i.d0);
    var pings := Elapsed(at.now, at.pingTick) > PING_TIMEOUT_MS;
    var seen := at.(checks := at.checks + [PingCheck(at.now, |at.contacts|, !at.checked, pings)], checked := true);
    if pings then
      var later := Tick(seen, i.d1);
      Call(later.(pingTick := later.now, contacts := later.contacts + [later.now]), Ping)
    else seen
  }

  /** The read call; data on its way counts as a contact. */
  function StartRead(c: Client, i: PassInput): Client {
    var at := Tick(c, i.d2);
    Call(at.(pingTick := at.now, contacts := at.contacts + [at.now]), Read(i.received))
  }

  function ReadData(c: Client, i: PassInput): Client {
    var reading := StartRead(c, i);
    match i.received
    case None => Abort(reading, i.d3)
    case Some(data) => if data == [] then reading else Dispatch(reading, DataEvent(data))
  }

  function ConnectedPass(c: Client, i: PassInput): Client {
    var polled := Call(c, PollRead(i.poll));
    if i.poll < 0 then Abort(polled, i.d0)
    else
      var checked := CheckPing(polled, i);
      if i.poll == 0 then checked else ReadData(checked, i)
  }

  function WaitPass(c: Client, i: PassInput): Client {
    if !c.autoReconnect then c.(run := false)
    else
      var at := Tick(c, i.d0);
      if Elapsed(at.now, at.reconnectTick) > at.waitTimeout then
        var later := Tick(at, i.d1);
        Tick(later.(state := Init, reconnectTick := later.now), i.d2)
      else Tick(at, i.d2)
  }

  /** One pass of the task's loop. */
  function Pass(c: Client, i: PassInput): Client {
    match c.state
    case Init => InitPass(c, i)
    case Connected => ConnectedPass(c, i)
    case WaitTimeout => WaitPass(c, i)
    case Unknown => c
  }

  /** The task up to its loop; the logs of the session start here, the stored ping tick
      counting as the first contact. */
  function Begin(c: Client, hasTransport: bool): Client {
    c.(run := hasTransport, hasTransport := hasTransport, state := Init,
       calls := [], events := [], attempts := [], contacts := [c.pingTick], checks := [], checked := false)
  }

  /** The task after its loop. */
  function Finish(c: Client): Client {
    Call(c, Close).(state := Unknown)
  }

  /** The client after the passes the inputs feed; a pass is made only while `run` holds. */
  function After(c: Client, inputs: seq<PassInput>): Client {
    if inputs == [] then c
    else
      var before := After(c, inputs[..|inputs| - 1]);
      if before.run then Pass(before, inputs[|inputs| - 1]) else before
  }

  /** Before a session: the stored ticks are not in the future. */
  predicate Ready(c: Client) {
    c.reconnectTick <= c.now && c.pingTick <= c.now
  }
}
