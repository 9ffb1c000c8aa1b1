/**
 What every session of the websocket client task keeps, whatever the transport does.
 */
module SessionProperties {
  import opened Bytes
  import opened ClientSession

  // ------------------------------------------------------------------ transport

  /** Whether the transport is open after these calls. */
  function IsOpen(calls: seq<TransportCall>): bool {
    if calls == [] then false
    else
      match calls[|calls| - 1]
      case Connect(ok) => ok
      case Close => false
      case _ => IsOpen(calls[..|calls| - 1])
  }

  /** Connecting needs a closed transport; polling, reading and pinging an open one. */
  predicate Allowed(open: bool, call: TransportCall) {
    match call
    case Connect(_) => !open
    case Close => true
    case _ => open
  }

  ghost predicate Paired(calls: seq<TransportCall>) {
    forall k :: 0 <= k < |calls| ==> Allowed(IsOpen(calls[..k]), calls[k])
  }

  lemma PairedAppend(calls: seq<TransportCall>, call: TransportCall)
    requires Paired(calls) && Allowed(IsOpen(calls), call)
    ensures Paired(calls + [call])
    ensures IsOpen(calls + [call]) == (match call case Connect(ok) => ok case Close => false case _ => IsOpen(calls))
  {
    var longer := calls + [call];
    assert longer[..|calls|] == calls;
    forall k | 0 <= k < |longer| ensures Allowed(IsOpen(longer[..k]), longer[k]) {
      if k < |calls| {
        assert longer[..k] == calls[..k];
      }
    }
  }

  // --------------------------------------------------------------- event grammar

  /** A piece of a session as the application sees it: a connect attempt that failed,
      or a connection with its data and its end. */
  datatype Episode = Refused | Connection(data: seq<seq<byte>>)

  function DataEvents(data: seq<seq<byte>>): seq<Event> {
    if data == [] then [] else DataEvents(data[..|data| - 1]) + [DataEvent(data[|data| - 1])]
  }

  function EpisodeEvents(e: Episode): seq<Event> {
    match e
    case Refused => [DisconnectedEvent]
    case Connection(data) => [ConnectedEvent] + DataEvents(data) + [DisconnectedEvent]
  }

  function Script(episodes: seq<Episode>): seq<Event> {
    if episodes == [] then []
    else Script(episodes[..|episodes| - 1]) + EpisodeEvents(episodes[|episodes| - 1])
  }

  /** The events are the beginning of some sequence of whole episodes. */
  ghost predicate FollowsGrammar(events: seq<Event>) {
    exists episodes :: events <= Script(episodes)
  }

  ghost predicate WholeEpisodes(events: seq<Event>) {
    exists episodes :: events == Script(episodes)
  }

  ghost predicate MidConnection(events: seq<Event>) {
    exists episodes, data :: events == OpenScript(episodes, data)
  }

  function OpenScript(episodes: seq<Episode>, data: seq<seq<byte>>): seq<Event> {
    Script(episodes) + [ConnectedEvent] + DataEvents(data)
  }

  ghost predicate EventsMatchState(c: Client) {
    if c.state == Connected then MidConnection(c.events) else WholeEpisodes(c.events)
  }

  lemma ScriptAppend(episodes: seq<Episode>, e: Episode)
    ensures Script(episodes + [e]) == Script(episodes) + EpisodeEvents(e)
  {
    assert (episodes + [e])[..|episodes|] == episodes;
  }

  lemma RefusedEpisode(events: seq<Event>)
    requires WholeEpisodes(events)
    ensures WholeEpisodes(events + [DisconnectedEvent])
  {
    var episodes :| events == Script(episodes);
    ScriptAppend(episodes, Refused);
    assert events + [DisconnectedEvent] == Script(episodes + [Refused]);
  }

  lemma ConnectionOpens(events: seq<Event>)
    requires WholeEpisodes(events)
    ensures MidConnection(events + [ConnectedEvent])
  {
    var episodes :| events == Script(episodes);
    assert DataEvents([]) == [];
    assert events + [ConnectedEvent] == OpenScript(episodes, []);
  }

  lemma ConnectionReceives(events: seq<Event>, data: seq<byte>)
    requires MidConnection(events)
    ensures MidConnection(events + [DataEvent(data)])
  {
    var episodes, before :| events == OpenScript(episodes, before);
    assert (before + [data])[..|before|] == before;
    assert DataEvents(before + [data]) == DataEvents(before) + [DataEvent(data)];
    assert events + [DataEvent(data)] == OpenScript(episodes, before + [data]);
  }

  lemma CloseScript(episodes: seq<Episode>, data: seq<seq<byte>>)
    ensures OpenScript(episodes, data) + [DisconnectedEvent] == Script(episodes + [Connection(data)])
  {
    ScriptAppend(episodes, Connection(data));
    hide Script, DataEvents;
  }

  lemma ConnectionCloses(events: seq<Event>)
    requires MidConnection(events)
    ensures WholeEpisodes(events + [DisconnectedEvent])
  {
    var episodes, data :| events == OpenScript(episodes, data);
    hide Script, OpenScript;
    CloseScript(episodes, data);
  }

  lemma MatchingEventsFollowGrammar(c: Client)
    requires EventsMatchState(c)
    ensures FollowsGrammar(c.events)
  {
    hide Script, OpenScript;
    if c.state == Connected {
      var episodes, data :| c.events == OpenScript(episodes, data);
      CloseScript(episodes, data);
      assert c.events <= c.events + [DisconnectedEvent];
    }
  }

  // ------------------------------------------------- what each pass keeps: calls

  ghost predicate InLoop(c: Client) {
    c.state == Init || c.state == Connected || c.state == WaitTimeout
  }

  ghost predicate TransportInv(c: Client) {
    && InLoop(c)
    && Paired(c.calls)
    && (IsOpen(c.calls) <==> c.state == Connected)
  }

  lemma AbortKeepsTransport(c: Client, d: nat)
    requires Paired(c.calls)
    ensures TransportInv(Abort(c, d))
  {
    PairedAppend(c.calls, Close);
  }

  lemma InitKeepsTransport(c: Client, i: PassInput)
    requires TransportInv(c) && c.state == Init
    ensures TransportInv(InitPass(c, i))
  {
    hide Paired, IsOpen;
    if c.hasTransport {
      PairedAppend(c.calls, Connect(i.connects));
      var tried := Attempt(c, i);
      if !i.connects {
        AbortKeepsTransport(tried, i.d1);
        hide Abort;
      }
    }
  }

  lemma CheckKeepsTransport(c: Client, i: PassInput)
    requires TransportInv(c) && c.state == Connected
    ensures TransportInv(CheckPing(c, i)) && CheckPing(c, i).state == Connected
  {
    hide Elapsed, Paired, IsOpen;
    PairedAppend(c.calls, Ping);
  }

  lemma ReadKeepsTransport(c: Client, i: PassInput)
    requires TransportInv(c) && c.state == Connected
    ensures TransportInv(ReadData(c, i))
  {
    hide Abort, Paired, IsOpen;
    PairedAppend(c.calls, Read(i.received));
    var reading := StartRead(c, i);
    AbortKeepsTransport(reading, i.d3);
  }

  lemma PassKeepsTransport(c: Client, i: PassInput)
    requires TransportInv(c)
    ensures TransportInv(Pass(c, i))
  {
    hide InitPass, Abort, CheckPing, ReadData, Paired, IsOpen;
    if c.state == Init {
      InitKeepsTransport(c, i);
    } else if c.state == Connected {
      PairedAppend(c.calls, PollRead(i.poll));
      var polled := Call(c, PollRead(i.poll));
      AbortKeepsTransport(polled, i.d0);
      CheckKeepsTransport(polled, i);
      ReadKeepsTransport(CheckPing(polled, i), i);
    } else {
      assert WaitPass(c, i).calls == c.calls by { hide Elapsed; }
    }
  }

  // ------------------------------------------------ what each pass keeps: events

  ghost predicate EventsInv(c: Client) {
    InLoop(c) && EventsMatchState(c)
  }

  lemma AbortKeepsEvents(c: Client, d: nat)
    requires EventsMatchState(c)
    ensures EventsInv(Abort(c, d))
  {
    if c.state == Connected {
      ConnectionCloses(c.events);
    } else {
      RefusedEpisode(c.events);
    }
    hide WholeEpisodes, MidConnection;
  }

  lemma InitKeepsEvents(c: Client, i: PassInput)
    requires EventsInv(c) && c.state == Init
    ensures EventsInv(InitPass(c, i))
  {
    if c.hasTransport {
      ConnectionOpens(c.events);
      var tried := Attempt(c, i);
      AbortKeepsEvents(tried, i.d1);
      hide Abort;
    }
    hide WholeEpisodes, MidConnection;
  }

  lemma CheckKeepsEvents(c: Client, i: PassInput)
    requires EventsInv(c)
    ensures EventsInv(CheckPing(c, i)) && CheckPing(c, i).state == c.state
  {
    hide Elapsed, WholeEpisodes, MidConnection;
  }

  lemma ReadKeepsEvents(c: Client, i: PassInput)
    requires EventsInv(c) && c.state == Connected
    ensures EventsInv(ReadData(c, i))
  {
    var reading := StartRead(c, i);
    AbortKeepsEvents(reading, i.d3);
    if i.received.Some? {
      ConnectionReceives(c.events, i.received.value);
    }
    hide Abort, WholeEpisodes, MidConnection;
  }

  lemma PassKeepsEvents(c: Client, i: PassInput)
    requires EventsInv(c)
    ensures EventsInv(Pass(c, i))
  {
    if c.state == Init {
      InitKeepsEvents(c, i);
    } else if c.state == Connected {
      var polled := Call(c, PollRead(i.poll));
      AbortKeepsEvents(polled, i.d0);
      CheckKeepsEvents(polled, i);
      ReadKeepsEvents(CheckPing(polled, i), i);
    } else {
      var w := WaitPass(c, i);
      assert w.events == c.events && (w.state == Init || w.state == WaitTimeout) by { hide Elapsed; }
      hide WaitPass;
    }
    hide InitPass, Abort, CheckPing, ReadData, WholeEpisodes, MidConnection;
  }

  // ----------------------------------------------- what each pass keeps: the bit

  /** The connected bit says whether the client is connected. */
  predicate BitAgrees(c: Client) {
    c.serverBit <==> c.state == Connected
  }

  lemma ReadKeepsBit(c: Client, i: PassInput)
    requires BitAgrees(c)
    ensures BitAgrees(ReadData(c, i))
  {
  }

  lemma CheckKeepsBit(c: Client, i: PassInput)
    ensures CheckPing(c, i).state == c.state && CheckPing(c, i).serverBit == c.serverBit
  {
    hide Elapsed;
  }

  lemma PassKeepsBit(c: Client, i: PassInput)
    requires InLoop(c) && BitAgrees(c)
    ensures BitAgrees(Pass(c, i))
  {
    if c.state == Connected {
      var polled := Call(c, PollRead(i.poll));
      CheckKeepsBit(polled, i);
      ReadKeepsBit(CheckPing(polled, i), i);
    } else if c.state == WaitTimeout {
      assert WaitPass(c, i).serverBit == c.serverBit && WaitPass(c, i).state != Connected by { hide Elapsed; }
    }
    hide CheckPing, ReadData, WaitPass;
  }

  /** The bit is as the session found it until the first event, and agrees from then on. */
  predicate BitTracks(c: Client, atStart: bool) {
    if c.events == [] then c.state == Init && c.serverBit == atStart else BitAgrees(c)
  }

  lemma AbortAddsEvent(c: Client, d: nat)
    ensures Abort(c, d).events == c.events + [DisconnectedEvent]
  {
  }

  lemma InitExtendsEvents(c: Client, i: PassInput)
    ensures |c.events| <= |InitPass(c, i).events|
  {
    AbortAddsEvent(Attempt(c, i), i.d1);
    hide Abort;
  }

  lemma CheckKeepsEventList(c: Client, i: PassInput)
    ensures CheckPing(c, i).events == c.events
  {
    hide Elapsed;
  }

  lemma ReadExtendsEvents(c: Client, i: PassInput)
    ensures |c.events| <= |ReadData(c, i).events|
  {
    AbortAddsEvent(StartRead(c, i), i.d3);
    hide Abort;
  }

  lemma WaitKeepsEventList(c: Client, i: PassInput)
    ensures WaitPass(c, i).events == c.events
  {
    hide Elapsed;
  }

  lemma PassExtendsEvents(c: Client, i: PassInput)
    ensures |c.events| <= |Pass(c, i).events|
  {
    var polled := Call(c, PollRead(i.poll));
    InitExtendsEvents(c, i);
    AbortAddsEvent(polled, i.d0);
    CheckKeepsEventList(polled, i);
    ReadExtendsEvents(CheckPing(polled, i), i);
    WaitKeepsEventList(c, i);
    hide InitPass, CheckPing, ReadData, WaitPass, Abort;
  }

  lemma PassKeepsTracking(c: Client, i: PassInput, atStart: bool)
    requires InLoop(c) && BitTracks(c, atStart)
    ensures BitTracks(Pass(c, i), atStart)
  {
    if c.events != [] {
      PassKeepsBit(c, i);
      PassExtendsEvents(c, i);
      hide Pass;
    }
  }

  // ------------------------------------------------------- without reconnecting

  /** With automatic reconnection off: one attempt, and a disconnection is the end. */
  ghost predicate OneShot(c: Client) {
    && !c.autoReconnect
    && (c.state == Init ==> c.attempts == [] && c.events == [])
    && |c.attempts| <= 1
    && (forall k :: 0 <= k < |c.events| - 1 ==> c.events[k] != DisconnectedEvent)
    && (c.events != [] && c.events[|c.events| - 1] == DisconnectedEvent ==> c.state == WaitTimeout)
  }

  lemma AbortKeepsOneShot(c: Client, d: nat)
    requires !c.autoReconnect && |c.attempts| <= 1
    requires forall k :: 0 <= k < |c.events| ==> c.events[k] != DisconnectedEvent
    ensures OneShot(Abort(c, d))
  {
  }

  lemma CheckKeepsOneShot(c: Client, i: PassInput)
    ensures var t := CheckPing(c, i);
            t.state == c.state && t.autoReconnect == c.autoReconnect && t.events == c.events && t.attempts == c.attempts
  {
    hide Elapsed;
  }

  lemma ReadKeepsOneShot(c: Client, i: PassInput)
    requires OneShot(c) && c.state == Connected
    ensures OneShot(ReadData(c, i))
  {
    hide Abort;
    AbortKeepsOneShot(StartRead(c, i), i.d3);
  }

  lemma InitKeepsOneShot(c: Client, i: PassInput)
    requires OneShot(c) && c.state == Init
    ensures OneShot(InitPass(c, i))
  {
    hide Abort;
    AbortKeepsOneShot(Attempt(c, i), i.d1);
  }

  lemma PassKeepsOneShot(c: Client, i: PassInput)
    requires OneShot(c) && InLoop(c)
    ensures OneShot(Pass(c, i))
  {
    hide Abort, CheckPing, ReadData, InitPass, Elapsed;
    match c.state
    case Init => InitKeepsOneShot(c, i);
    case Connected =>
      var polled := Call(c, PollRead(i.poll));
      AbortKeepsOneShot(polled, i.d0);
      CheckKeepsOneShot(polled, i);
      ReadKeepsOneShot(CheckPing(polled, i), i);
    case WaitTimeout =>
    case Unknown =>
  }

  // -------------------------------------------------------------------- sessions

  lemma BeginKeepsAll(c: Client, hasTransport: bool)
    ensures TransportInv(Begin(c, hasTransport)) && EventsInv(Begin(c, hasTransport))
    ensures !c.autoReconnect ==> OneShot(Begin(c, hasTransport))
  {
    assert Script([]) == [];
  }

  /** In every session, at every loop head: only INIT, CONNECTED or WAIT_TIMEOUT; the
      transport is open exactly in CONNECTED; connect was only called on a closed
      transport and poll, read and ping only on an open one; and once the task has
      ended the transport is closed. */
  lemma {:induction false} TransportIsPaired(c: Client, hasTransport: bool, inputs: seq<PassInput>)
    ensures var s := After(Begin(c, hasTransport), inputs);
            && TransportInv(s)
            && Paired(Finish(s).calls) && !IsOpen(Finish(s).calls)
    decreases |inputs|
  {
    var b := Begin(c, hasTransport);
    var s := After(b, inputs);
    if inputs == [] {
      BeginKeepsAll(c, hasTransport);
    } else {
      hide Pass, TransportInv, Paired, IsOpen, Finish;
      TransportIsPaired(c, hasTransport, inputs[..|inputs| - 1]);
      PassKeepsTransport(After(b, inputs[..|inputs| - 1]), inputs[|inputs| - 1]);
    }
    EndsClosed(s);
  }

  lemma EndsClosed(s: Client)
    requires TransportInv(s)
    ensures Paired(Finish(s).calls) && !IsOpen(Finish(s).calls)
  {
    PairedAppend(s.calls, Close);
  }

  lemma {:induction false} SessionKeepsEvents(c: Client, hasTransport: bool, inputs: seq<PassInput>)
    ensures EventsInv(After(Begin(c, hasTransport), inputs))
    decreases |inputs|
  {
    var b := Begin(c, hasTransport);
    if inputs == [] {
      BeginKeepsAll(c, hasTransport);
    } else {
      hide Pass, EventsInv;
      SessionKeepsEvents(c, hasTransport, inputs[..|inputs| - 1]);
      PassKeepsEvents(After(b, inputs[..|inputs| - 1]), inputs[|inputs| - 1]);
    }
  }

  /** The events of a session are a prefix of (DISCONNECTED | CONNECTED DATA* DISCONNECTED)*. */
  lemma EventsFollowGrammar(c: Client, hasTransport: bool, inputs: seq<PassInput>)
    ensures FollowsGrammar(After(Begin(c, hasTransport), inputs).events)
  {
    SessionKeepsEvents(c, hasTransport, inputs);
    hide After, FollowsGrammar, EventsMatchState;
    MatchingEventsFollowGrammar(After(Begin(c, hasTransport), inputs));
  }

  /** With automatic reconnection off there is at most one connect attempt, and nothing
      follows the first DISCONNECTED. */
  lemma {:induction false} WithoutReconnectOneAttempt(c: Client, hasTransport: bool, inputs: seq<PassInput>)
    requires !c.autoReconnect
    ensures OneShot(After(Begin(c, hasTransport), inputs))
    decreases |inputs|
  {
    var b := Begin(c, hasTransport);
    if inputs == [] {
      BeginKeepsAll(c, hasTransport);
    } else {
      hide Pass, OneShot, EventsMatchState;
      WithoutReconnectOneAttempt(c, hasTransport, inputs[..|inputs| - 1]);
      SessionKeepsEvents(c, hasTransport, inputs[..|inputs| - 1]);
      PassKeepsOneShot(After(b, inputs[..|inputs| - 1]), inputs[|inputs| - 1]);
    }
  }

  ghost predicate BitAgreesThroughout(c: Client, inputs: seq<PassInput>) {
    forall k :: 0 <= k <= |inputs| ==> BitAgrees(After(c, inputs[..k]))
  }

  lemma {:induction false} BitTracksAfter(c: Client, hasTransport: bool, inputs: seq<PassInput>)
    ensures BitTracks(After(Begin(c, hasTransport), inputs), c.serverBit)
    decreases |inputs|
  {
    var b := Begin(c, hasTransport);
    if inputs != [] {
      hide Pass, BitTracks, EventsMatchState;
      BitTracksAfter(c, hasTransport, inputs[..|inputs| - 1]);
      SessionKeepsEvents(c, hasTransport, inputs[..|inputs| - 1]);
      PassKeepsTracking(After(b, inputs[..|inputs| - 1]), inputs[|inputs| - 1], c.serverBit);
    }
  }

  /** The connected bit agrees with the client's state at every loop head of a session
      if and only if the session starts with the bit clear. */
  lemma BitAgreesIffStartsClear(c: Client, hasTransport: bool, inputs: seq<PassInput>)
    ensures BitAgreesThroughout(Begin(c, hasTransport), inputs) <==> !c.serverBit
  {
    var b := Begin(c, hasTransport);
    if c.serverBit {
      assert inputs[..0] == [];
      assert !BitAgrees(After(b, inputs[..0]));
    } else {
      forall k | 0 <= k <= |inputs| ensures BitAgrees(After(b, inputs[..k])) {
        BitTracksAfter(c, hasTransport, inputs[..k]);
      }
    }
  }

  lemma PassEndsUnconnected(c: Client, i: PassInput)
    requires InLoop(c) && c.run && !Pass(c, i).run
    ensures Pass(c, i).state != Connected
  {
    if c.state == Connected {
      var polled := Call(c, PollRead(i.poll));
      assert CheckPing(polled, i).run == polled.run by { hide Elapsed; }
      hide CheckPing, Elapsed;
    } else {
      hide ConnectedPass, Elapsed;
    }
  }

  lemma {:induction false} EndsUnconnected(c: Client, hasTransport: bool, inputs: seq<PassInput>)
    requires !After(Begin(c, hasTransport), inputs).run
    ensures After(Begin(c, hasTransport), inputs).state != Connected
    decreases |inputs|
  {
    var b := Begin(c, hasTransport);
    if inputs != [] {
      var front, last := inputs[..|inputs| - 1], inputs[|inputs| - 1];
      SessionKeepsEvents(c, hasTransport, front);
      hide Pass, EventsMatchState;
      if After(b, front).run {
        PassEndsUnconnected(After(b, front), last);
      } else {
        EndsUnconnected(c, hasTransport, front);
      }
    }
  }

  /** A session that ends by itself, for want of a transport or of automatic reconnection,
      is not connected; it leaves the bit set only if it found it set and had no event. */
  lemma EndedSessionLeavesBit(c: Client, hasTransport: bool, inputs: seq<PassInput>)
    requires !After(Begin(c, hasTransport), inputs).run
    ensures var s := After(Begin(c, hasTransport), inputs);
            && s.state != Connected
            && Finish(s).state == Unknown && (Finish(s).serverBit <==> c.serverBit && s.events == [])
  {
    EndsUnconnected(c, hasTransport, inputs);
    BitTracksAfter(c, hasTransport, inputs);
    hide After;
  }
}
