/**
 The websocket client as the object whose fields the task updates in place. Every
 method is proved against the function of `ClientSession` that it carries out.
 */
module ClientTask {
  import opened ClientSession
  import opened SessionProperties

  /** What this session has done so far. */
  datatype History = History(calls: seq<TransportCall>, events: seq<Event>, attempts: seq<nat>,
                             contacts: seq<nat>, checks: seq<PingCheck>, checked: bool)

  class WebsocketClient {
    var state: ClientState
    var run: bool
    var hasTransport: bool
    const autoReconnect: bool
    var reconnectTickMs: nat
    var pingTickMs: nat
    var waitTimeoutMs: nat
    var clock: nat
    var serverBit: bool                     // the application's event group
    ghost var log: History

    ghost function Now(): Client
      reads this
    {
      Client(state, run, hasTransport, autoReconnect, reconnectTickMs, pingTickMs, waitTimeoutMs, clock, serverBit,
             log.calls, log.events, log.attempts, log.contacts, log.checks, log.checked)
    }

    /** A reading of the clock, `d` ms after the last one. */
    method TickGetMs(d: nat) returns (ms: nat)
      modifies this`clock
      ensures Now() == Tick(old(Now()), d) && ms == clock
    {
      clock := clock + d;
      ms := clock;
    }

    ghost method Record(call: TransportCall)
      modifies this`log
      ensures Now() == Call(old(Now()), call)
    {
      log := log.(calls := log.calls + [call]);
    }

    /** The application's handler, run by the event loop before the dispatch returns. */
    method EventHandler(e: Event)
      modifies this`serverBit
      ensures serverBit == if e.ConnectedEvent? then true else if e.DisconnectedEvent? then false else old(serverBit)
    {
      match e
      case DataEvent(_) =>
      case ConnectedEvent => serverBit := true;
      case DisconnectedEvent => serverBit := false;
    }

    method DispatchEvent(e: Event)
      modifies this`log, this`serverBit
      ensures Now() == Dispatch(old(Now()), e)
    {
      log := log.(events := log.events + [e]);
      EventHandler(e);
    }

    method AbortConnection(d: nat)
      modifies this
      ensures Now() == Abort(old(Now()), d)
    {
      Record(Close);
      waitTimeoutMs := RECONNECT_TIMEOUT_MS;
      reconnectTickMs := TickGetMs(d);
      state := WaitTimeout;
      DispatchEvent(DisconnectedEvent);
    }

    method ConnectInInit(i: PassInput)
      modifies this
      ensures Now() == InitPass(old(Now()), i)
    {
      if !hasTransport {
        run := false;
        return;
      }
      var at := TickGetMs(i.d0);
      Record(Connect(i.connects));
      log := log.(attempts := log.attempts + [at]);
      if !i.connects {
        AbortConnection(i.d1);
        return;
      }
      state := Connected;
      log := log.(checked := false);
      DispatchEvent(ConnectedEvent);
    }

    method PingIfSilent(i: PassInput)
      modifies this
      ensures Now() == CheckPing(old(Now()), i)
    {
      hide Elapsed;
      var reading := TickGetMs(i.d0);
      var pings := Elapsed(reading, pingTickMs) > PING_TIMEOUT_MS;
      log := log.(checks := log.checks + [PingCheck(reading, |log.contacts|, !log.checked, pings)], checked := true);
      if pings {
        pingTickMs := TickGetMs(i.d1);
        log := log.(contacts := log.contacts + [pingTickMs]);
        Record(Ping);
      }
    }

    method ReceiveInConnected(i: PassInput)
      modifies this
      ensures Now() == ReadData(old(Now()), i)
    {
      pingTickMs := TickGetMs(i.d2);
      log := log.(contacts := log.contacts + [pingTickMs]);
      Record(Read(i.received));
      match i.received {
        case None => AbortConnection(i.d3);
        case Some(data) =>
          if |data| > 0 {
            DispatchEvent(DataEvent(data));
          }
      }
    }

    method PollInConnected(i: PassInput)
      modifies this
      ensures Now() == ConnectedPass(old(Now()), i)
    {
      Record(PollRead(i.poll));
      if i.poll < 0 {
        AbortConnection(i.d0);
        return;
      }
      PingIfSilent(i);
      if i.poll == 0 {
        return;
      }
      ReceiveInConnected(i);
    }

    method WaitToReconnect(i: PassInput)
      modifies this
      ensures Now() == WaitPass(old(Now()), i)
    {
      if !autoReconnect {
        run := false;
        return;
      }
      var reading := TickGetMs(i.d0);
      hide Elapsed;
      if Elapsed(reading, reconnectTickMs) > waitTimeoutMs {
        state := Init;
        reconnectTickMs := TickGetMs(i.d1);
      }
      clock := clock + i.d2;
    }

    method OnePass(i: PassInput)
      modifies this
      ensures Now() == Pass(old(Now()), i)
    {
      hide InitPass, ConnectedPass, WaitPass;
      match state {
        case Init => ConnectInInit(i);
        case Connected => PollInConnected(i);
        case WaitTimeout => WaitToReconnect(i);
        case Unknown =>
      }
    }

    method BeginTask(transportFound: bool)
      modifies this
      ensures Now() == Begin(old(Now()), transportFound)
    {
      run := true;
      hasTransport := transportFound;
      if !hasTransport {
        run := false;
      }
      state := Init;
      log := History([], [], [], [pingTickMs], [], false);
    }

    /** The task: from its start through the passes the inputs feed and, unless they run
        out first, to its end. The transport is then closed, and was used only when open;
        at any time the events so far follow the grammar. */
    method Task(transportFound: bool, inputs: seq<PassInput>) returns (ended: bool)
      modifies this
      ensures var last := After(Begin(old(Now()), transportFound), inputs);
              && ended == !last.run
              && Now() == if ended then Finish(last) else last
      ensures Paired(log.calls) && FollowsGrammar(log.events)
      ensures if ended then state == Unknown && !IsOpen(log.calls) else IsOpen(log.calls) <==> state == Connected
    {
      hide Pass, Begin, Paired, IsOpen, FollowsGrammar, TransportInv;
      ghost var start := Now();
      BeginTask(transportFound);
      ghost var began := Now();
      var k := 0;
      while run && k < |inputs|
        invariant k <= |inputs|
        invariant Now() == After(began, inputs[..k])
      {
        assert inputs[..k + 1][..k] == inputs[..k];
        OnePass(inputs[k]);
        k := k + 1;
      }
      StoppedStays(began, inputs, k);
      TransportIsPaired(start, transportFound, inputs);
      EventsFollowGrammar(start, transportFound, inputs);
      TransportMeans(Now());
      ended := !run;
      if ended {
        Record(Close);
        state := Unknown;
      }
    }
  }

  lemma TransportMeans(c: Client)
    requires TransportInv(c)
    ensures Paired(c.calls) && (IsOpen(c.calls) <==> c.state == Connected)
  {
  }

  /** Once `run` is clear, further inputs change nothing. */
  lemma {:induction false} StoppedStays(c: Client, inputs: seq<PassInput>, k: nat)
    requires k <= |inputs| && (k < |inputs| ==> !After(c, inputs[..k]).run)
    ensures After(c, inputs) == After(c, inputs[..k])
    decreases |inputs|
  {
    hide Pass;
    if k == |inputs| {
      assert inputs[..k] == inputs;
    } else {
      var front := inputs[..|inputs| - 1];
      assert front[..k] == inputs[..k];
      StoppedStays(c, front, k);
    }
  }
}
