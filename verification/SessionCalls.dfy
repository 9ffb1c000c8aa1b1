/**
 What a session makes of the transport's answers: the events it dispatches are those
 the answers call for, in their order, and each answer decides the next call.
 */
module SessionCalls {
  import opened ClientSession
  import opened SessionProperties

  /** What the application is told of one call's answer. */
  function Reaction(call: TransportCall): seq<Event> {
    match call
    case Connect(ok) => if ok then [ConnectedEvent] else [DisconnectedEvent]
    case PollRead(result) => if result < 0 then [DisconnectedEvent] else []
    case Read(None) => [DisconnectedEvent]
    case Read(Some(data)) => if data == [] then [] else [DataEvent(data)]
    case Ping => []
    case Close => []
  }

  function EventsOf(calls: seq<TransportCall>): seq<Event> {
    if calls == [] then [] else EventsOf(calls[..|calls| - 1]) + Reaction(calls[|calls| - 1])
  }

  function NoPings(calls: seq<TransportCall>): seq<TransportCall> {
    if calls == [] then []
    else NoPings(calls[..|calls| - 1]) + if calls[|calls| - 1].Ping? then [] else [calls[|calls| - 1]]
  }

  /** A connection that was made and is still up. */
  predicate Up(call: TransportCall) {
    match call
    case Connect(ok) => ok
    case PollRead(result) => result == 0
    case Read(received) => received.Some?
    case _ => false
  }

  predicate Failed(call: TransportCall) {
    match call
    case Connect(ok) => !ok
    case PollRead(result) => result < 0
    case Read(received) => received.None?
    case _ => false
  }

  /** The call that must come next: poll while the connection is up, read when there is
      something to read, close on a failure and connect after that. */
  predicate Leads(call: TransportCall, next: TransportCall) {
    if Up(call) then next.PollRead?
    else if Failed(call) then next.Close?
    else if call.PollRead? then next.Read?
    else call.Close? && next.Connect?
  }

  /** The calls but for pings: the first connects, and each leads to the next. */
  ghost predicate Orderly(calls: seq<TransportCall>) {
    && (calls != [] ==> calls[0].Connect?)
    && forall k :: 0 < k < |calls| ==> Leads(calls[k - 1], calls[k])
  }

  /** A ping is sent right after a poll that did not fail. */
  ghost predicate PingsFollowPolls(calls: seq<TransportCall>) {
    forall k :: 0 <= k < |calls| && calls[k].Ping? ==> k > 0 && calls[k - 1].PollRead? && calls[k - 1].result >= 0
  }

  ghost predicate CallsInv(calls: seq<TransportCall>) {
    Orderly(NoPings(calls)) && PingsFollowPolls(calls)
  }

  /** The last call but for pings. */
  function Last(calls: seq<TransportCall>): TransportCall {
    var some := NoPings(calls);
    if some == [] then Close else some[|some| - 1]
  }

  ghost predicate AnswersInv(c: Client) {
    && CallsInv(c.calls)
    && c.events == EventsOf(c.calls)
    && (if c.state == Connected then Up(Last(c.calls)) else Last(c.calls).Close?)
    && (c.state == Connected ==> (c.checked <==> !Last(c.calls).Connect?))
  }

  lemma LogAppend(calls: seq<TransportCall>, call: TransportCall)
    ensures EventsOf(calls + [call]) == EventsOf(calls) + Reaction(call)
    ensures NoPings(calls + [call]) == NoPings(calls) + if call.Ping? then [] else [call]
  {
    assert (calls + [call])[..|calls|] == calls;
    hide Reaction;
  }

  lemma PlacesAppend(calls: seq<TransportCall>, call: TransportCall)
    requires PingsFollowPolls(calls)
    requires call.Ping? ==> calls != [] && calls[|calls| - 1].PollRead? && calls[|calls| - 1].result >= 0
    ensures PingsFollowPolls(calls + [call])
  {
  }

  lemma OrderlyAppend(calls: seq<TransportCall>, call: TransportCall)
    requires Orderly(calls) && Leads(if calls == [] then Close else calls[|calls| - 1], call)
    ensures Orderly(calls + [call])
  {
  }

  lemma CallAppend(calls: seq<TransportCall>, call: TransportCall)
    requires CallsInv(calls) && !call.Ping? && Leads(Last(calls), call)
    ensures CallsInv(calls + [call]) && Last(calls + [call]) == call
    ensures EventsOf(calls + [call]) == EventsOf(calls) + Reaction(call)
  {
    LogAppend(calls, call);
    PlacesAppend(calls, call);
    OrderlyAppend(NoPings(calls), call);
    hide EventsOf, NoPings, Orderly, PingsFollowPolls, Reaction, Leads;
  }

  lemma PingAppend(calls: seq<TransportCall>)
    requires CallsInv(calls) && calls != [] && calls[|calls| - 1].PollRead? && calls[|calls| - 1].result >= 0
    ensures CallsInv(calls + [Ping]) && Last(calls + [Ping]) == Last(calls) && EventsOf(calls + [Ping]) == EventsOf(calls)
  {
    LogAppend(calls, Ping);
    PlacesAppend(calls, Ping);
    assert NoPings(calls) + [] == NoPings(calls);
    hide EventsOf, NoPings, Orderly, PingsFollowPolls;
  }

  // ------------------------------------------------------------------- stages

  lemma AbortKeepsAnswers(c: Client, d: nat)
    requires CallsInv(c.calls) && Failed(Last(c.calls)) && c.events + [DisconnectedEvent] == EventsOf(c.calls)
    ensures AnswersInv(Abort(c, d))
  {
    CallAppend(c.calls, Close);
    hide EventsOf, CallsInv, Last;
  }

  lemma InitKeepsAnswers(c: Client, i: PassInput)
    requires AnswersInv(c) && c.state == Init
    ensures AnswersInv(InitPass(c, i))
  {
    CallAppend(c.calls, Connect(i.connects));
    hide EventsOf, CallsInv, Last, Abort;
    if c.hasTransport && !i.connects {
      AbortKeepsAnswers(Attempt(c, i), i.d1);
    }
  }

  /** The ping check leaves what the last poll led to. */
  lemma CheckKeepsAnswers(c: Client, i: PassInput)
    requires CallsInv(c.calls) && c.calls != [] && c.calls[|c.calls| - 1] == PollRead(i.poll) && i.poll >= 0
    ensures var t := CheckPing(c, i);
            CallsInv(t.calls) && Last(t.calls) == Last(c.calls) && EventsOf(t.calls) == EventsOf(c.calls)
            && t.events == c.events && t.state == c.state && t.checked
  {
    PingAppend(c.calls);
    hide EventsOf, CallsInv, Last, Elapsed;
  }

  lemma ReadKeepsAnswers(c: Client, i: PassInput)
    requires CallsInv(c.calls) && c.events == EventsOf(c.calls) && c.state == Connected
    requires Last(c.calls).PollRead? && Last(c.calls).result > 0 && c.checked
    ensures AnswersInv(ReadData(c, i))
  {
    CallAppend(c.calls, Read(i.received));
    StartReadLogs(c, i);
    hide EventsOf, CallsInv, Last, Abort, StartRead;
    if i.received.None? {
      AbortKeepsAnswers(StartRead(c, i), i.d3);
    } else {
      DataIsTold(c, i);
      hide ReadData;
    }
  }

  lemma StartReadLogs(c: Client, i: PassInput)
    ensures var t := StartRead(c, i);
            && t.calls == c.calls + [Read(i.received)] && t.events == c.events
            && t.state == c.state && t.checked == c.checked
  {
  }

  /** A read that succeeds is told whole, unless it is empty. */
  lemma DataIsTold(c: Client, i: PassInput)
    requires i.received.Some?
    ensures var t := ReadData(c, i);
            && t.calls == c.calls + [Read(i.received)] && t.state == c.state && t.checked == c.checked
            && t.events == c.events + Reaction(Read(i.received))
  {
    StartReadLogs(c, i);
    hide StartRead, Abort;
  }

  lemma ConnectedKeepsAnswers(c: Client, i: PassInput)
    requires AnswersInv(c) && c.state == Connected
    ensures AnswersInv(ConnectedPass(c, i))
  {
    var polled := Call(c, PollRead(i.poll));
    CallAppend(c.calls, PollRead(i.poll));
    hide EventsOf, CallsInv, Last, Abort, CheckPing, ReadData;
    if i.poll < 0 {
      AbortKeepsAnswers(polled, i.d0);
    } else {
      CheckKeepsAnswers(polled, i);
      if i.poll > 0 {
        ReadKeepsAnswers(CheckPing(polled, i), i);
      }
    }
  }

  lemma PassKeepsAnswers(c: Client, i: PassInput)
    requires AnswersInv(c)
    ensures AnswersInv(Pass(c, i))
  {
    hide InitPass, ConnectedPass, WaitPass, EventsOf, CallsInv, Last;
    match c.state
    case Init => InitKeepsAnswers(c, i);
    case Connected => ConnectedKeepsAnswers(c, i);
    case WaitTimeout => WaitMakesNoCalls(c, i);
    case Unknown =>
  }

  lemma WaitMakesNoCalls(c: Client, i: PassInput)
    ensures var t := WaitPass(c, i);
            && t.calls == c.calls && t.events == c.events && t.checked == c.checked
            && (c.state == WaitTimeout ==> t.state == Init || t.state == WaitTimeout)
  {
    hide Elapsed;
  }

  // ------------------------------------------------------------------ sessions

  /** At every loop head of every session: the application was told of each answer what
      it means and of nothing else, in order. So the payloads of its DATA events are the
      non-empty results of the reads, CONNECTED stands for the successful connects, and
      DISCONNECTED for the failed connects, polls and reads. Each answer has led to the
      call it must lead to, and the client is connected exactly while the last one says so.
      The ping check counts as the first one until it was made once after the connect. */
  lemma {:induction false} EventsAreOfTheAnswers(c: Client, hasTransport: bool, inputs: seq<PassInput>)
    ensures var s := After(Begin(c, hasTransport), inputs);
            && s.events == EventsOf(s.calls)
            && Orderly(NoPings(s.calls)) && PingsFollowPolls(s.calls)
            && (if s.state == Connected then Up(Last(s.calls)) else Last(s.calls).Close?)
            && (s.state == Connected ==> (s.checked <==> !Last(s.calls).Connect?))
    decreases |inputs|
  {
    var b := Begin(c, hasTransport);
    if inputs == [] {
      assert NoPings([]) == [];
    } else {
      hide Pass, EventsOf, NoPings, Orderly, PingsFollowPolls, Last;
      EventsAreOfTheAnswers(c, hasTransport, inputs[..|inputs| - 1]);
      PassKeepsAnswers(After(b, inputs[..|inputs| - 1]), inputs[|inputs| - 1]);
    }
  }

  /** The answer is the one this pass was given. */
  predicate GivenBy(call: TransportCall, i: PassInput) {
    match call
    case Connect(ok) => ok == i.connects
    case PollRead(result) => result == i.poll
    case Read(received) => received == i.received
    case _ => true
  }

  ghost predicate AddsAnswersOf(before: seq<TransportCall>, after: seq<TransportCall>, i: PassInput) {
    before <= after && forall k :: |before| <= k < |after| ==> GivenBy(after[k], i)
  }

  lemma AddAnswer(before: seq<TransportCall>, after: seq<TransportCall>, call: TransportCall, i: PassInput)
    requires AddsAnswersOf(before, after, i) && GivenBy(call, i)
    ensures AddsAnswersOf(before, after + [call], i)
  {
  }

  lemma AbortLogs(c: Client, d: nat)
    ensures Abort(c, d).calls == c.calls + [Close]
  {
  }

  lemma InitLogs(before: seq<TransportCall>, c: Client, i: PassInput)
    requires AddsAnswersOf(before, c.calls, i)
    ensures AddsAnswersOf(before, InitPass(c, i).calls, i)
  {
    var tried := Attempt(c, i);
    AddAnswer(before, c.calls, Connect(i.connects), i);
    AddAnswer(before, tried.calls, Close, i);
    AbortLogs(tried, i.d1);
    hide AddsAnswersOf, Abort;
  }

  lemma CheckLogs(before: seq<TransportCall>, c: Client, i: PassInput)
    requires AddsAnswersOf(before, c.calls, i)
    ensures AddsAnswersOf(before, CheckPing(c, i).calls, i)
  {
    AddAnswer(before, c.calls, Ping, i);
    hide AddsAnswersOf, Elapsed;
  }

  lemma ReadLogs(before: seq<TransportCall>, c: Client, i: PassInput)
    requires AddsAnswersOf(before, c.calls, i)
    ensures AddsAnswersOf(before, ReadData(c, i).calls, i)
  {
    var reading := StartRead(c, i);
    StartReadLogs(c, i);
    AddAnswer(before, c.calls, Read(i.received), i);
    AddAnswer(before, reading.calls, Close, i);
    AbortLogs(reading, i.d3);
    hide AddsAnswersOf, Abort, StartRead;
  }

  lemma PassLogsItsAnswers(c: Client, i: PassInput)
    ensures AddsAnswersOf(c.calls, Pass(c, i).calls, i)
  {
    assert AddsAnswersOf(c.calls, c.calls, i);
    var polled := Call(c, PollRead(i.poll));
    InitLogs(c.calls, c, i);
    AddAnswer(c.calls, c.calls, PollRead(i.poll), i);
    AddAnswer(c.calls, polled.calls, Close, i);
    AbortLogs(polled, i.d0);
    CheckLogs(c.calls, polled, i);
    ReadLogs(c.calls, CheckPing(polled, i), i);
    WaitMakesNoCalls(c, i);
    hide AddsAnswersOf, InitPass, CheckPing, ReadData, WaitPass, Abort;
  }

  /** The pass asks the transport first what its state calls for. */
  predicate BeginsWith(before: seq<TransportCall>, after: seq<TransportCall>, call: TransportCall) {
    before + [call] <= after
  }

  lemma FirstCall(before: seq<TransportCall>, after: seq<TransportCall>, call: TransportCall, i: PassInput)
    requires AddsAnswersOf(before + [call], after, i)
    ensures BeginsWith(before, after, call)
  {
  }

  lemma Unchanged(calls: seq<TransportCall>, i: PassInput)
    ensures AddsAnswersOf(calls, calls, i)
  {
  }

  lemma InitConnects(c: Client, i: PassInput)
    requires c.hasTransport
    ensures BeginsWith(c.calls, InitPass(c, i).calls, Connect(i.connects))
  {
    AbortLogs(Attempt(c, i), i.d1);
    hide Abort;
  }

  lemma ConnectedPolls(c: Client, i: PassInput)
    ensures BeginsWith(c.calls, ConnectedPass(c, i).calls, PollRead(i.poll))
  {
    var polled := Call(c, PollRead(i.poll));
    Unchanged(polled.calls, i);
    AddAnswer(polled.calls, polled.calls, Close, i);
    AbortLogs(polled, i.d0);
    CheckLogs(polled.calls, polled, i);
    ReadLogs(polled.calls, CheckPing(polled, i), i);
    FirstCall(c.calls, ConnectedPass(c, i).calls, PollRead(i.poll), i) by { hide AddsAnswersOf, CheckPing, ReadData, Abort; }
    hide BeginsWith;
  }

  /** A pass in INIT connects, one in CONNECTED polls, and one in WAIT_TIMEOUT leaves the
      transport alone; the answers in the log are those the transport gave in that pass. */
  lemma PassAsksTheTransport(c: Client, i: PassInput)
    requires InLoop(c)
    ensures AddsAnswersOf(c.calls, Pass(c, i).calls, i)
    ensures match c.state
            case Init =>
              if c.hasTransport then BeginsWith(c.calls, Pass(c, i).calls, Connect(i.connects)) else Pass(c, i).calls == c.calls
            case Connected => BeginsWith(c.calls, Pass(c, i).calls, PollRead(i.poll))
            case _ => Pass(c, i).calls == c.calls
  {
    PassLogsItsAnswers(c, i);
    if c.state == Init && c.hasTransport {
      InitConnects(c, i);
    }
    ConnectedPolls(c, i);
    WaitMakesNoCalls(c, i);
    hide AddsAnswersOf, BeginsWith, ConnectedPass, WaitPass;
  }

  // -------------------------------------------------------------- the loop's end

  lemma ConnectedRunsOn(c: Client, i: PassInput)
    ensures ConnectedPass(c, i).run == c.run
  {
    var polled := Call(c, PollRead(i.poll));
    AbortRunsOn(polled, i.d0);
    CheckRunsOn(polled, i);
    ReadRunsOn(CheckPing(polled, i), i);
    hide Abort, CheckPing, ReadData;
  }

  lemma AbortRunsOn(c: Client, d: nat)
    ensures Abort(c, d).run == c.run
  {
  }

  lemma CheckRunsOn(c: Client, i: PassInput)
    ensures CheckPing(c, i).run == c.run
  {
    hide Elapsed;
  }

  lemma ReadRunsOn(c: Client, i: PassInput)
    ensures ReadData(c, i).run == c.run
  {
    AbortRunsOn(StartRead(c, i), i.d3);
    hide Abort;
  }

  lemma InitRunsOnIff(c: Client, i: PassInput)
    ensures InitPass(c, i).run <==> c.run && c.hasTransport
  {
    AbortRunsOn(Attempt(c, i), i.d1);
    hide Abort;
  }

  /** A pass ends the loop exactly when there is no transport to connect or, after a
      disconnection, reconnecting is not wanted. */
  lemma LoopEndsIff(c: Client, i: PassInput)
    requires InLoop(c) && c.run
    ensures !Pass(c, i).run <==> (c.state == Init && !c.hasTransport) || (c.state == WaitTimeout && !c.autoReconnect)
  {
    InitRunsOnIff(c, i);
    ConnectedRunsOn(c, i);
    hide InitPass, ConnectedPass, Elapsed;
  }

  /** Without a transport no pass is made at all. */
  lemma {:induction false} NoTransportNoPass(c: Client, inputs: seq<PassInput>)
    ensures var s := After(Begin(c, false), inputs);
            s == Begin(c, false) && !s.run && s.calls == [] && s.events == []
  {
    if inputs != [] {
      NoTransportNoPass(c, inputs[..|inputs| - 1]);
      hide Pass;
    }
  }
}
