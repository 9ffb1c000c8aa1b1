/**
 The clocks of a session: how far apart connect attempts and pings are, and when a
 ping is sent.
 */
module SessionTiming {
  import opened ClientSession

  /** Every stored tick is in the past, and a waiting client waits the reconnect timeout. */
  predicate ClockInv(c: Client) {
    && c.reconnectTick <= c.now && c.pingTick <= c.now
    && (c.state == WaitTimeout ==> c.waitTimeout == RECONNECT_TIMEOUT_MS)
  }

  /** The 64-bit subtraction of a past tick is the true distance. */
  lemma NoWrap(now: nat, since: nat)
    requires since <= now < U64
    ensures Elapsed(now, since) == now - since
  {
  }

  ghost predicate Spaced(times: seq<nat>, gap: nat) {
    forall k :: 0 <= k < |times| - 1 ==> times[k] + gap <= times[k + 1]
  }

  lemma {:induction false} SpacedSpan(times: seq<nat>, gap: nat, i: nat, j: nat)
    requires Spaced(times, gap) && i <= j < |times|
    ensures times[i] + gap * (j - i) <= times[j]
  {
    if i < j {
      SpacedSpan(times, gap, i, j - 1);
      assert gap * (j - i) == gap * (j - 1 - i) + gap;
    }
  }

  lemma SpacedAppend(times: seq<nat>, gap: nat, t: nat)
    requires Spaced(times, gap) && (times != [] ==> times[|times| - 1] + gap <= t)
    ensures Spaced(times + [t], gap)
  {
  }

  /** Connect attempts are more than a reconnect timeout apart, and the next one is too. */
  ghost predicate RateInv(c: Client) {
    && Spaced(c.attempts, RECONNECT_TIMEOUT_MS + 1)
    && (c.attempts != [] ==>
          var last := c.attempts[|c.attempts| - 1];
          && last <= c.now
          && (c.state == WaitTimeout ==> last <= c.reconnectTick)
          && (c.state == Init ==> last + RECONNECT_TIMEOUT_MS + 1 <= c.now))
  }

  /** A check pings exactly when more than the ping timeout has passed since the last
      contact, that is the last ping or data. */
  ghost predicate CheckIsExact(contacts: seq<nat>, check: PingCheck) {
    && 0 < check.contacts <= |contacts|
    && (check.pings <==> check.reading > contacts[check.contacts - 1] + PING_TIMEOUT_MS)
  }

  /** At the check before this one, in the same connection, the last contact was recent. */
  ghost predicate WasQuiet(contacts: seq<nat>, checks: seq<PingCheck>, k: nat)
    requires k < |checks|
  {
    !checks[k].first ==>
      && k > 0
      && 0 < checks[k].contacts <= |contacts|
      && checks[k - 1].reading <= contacts[checks[k].contacts - 1] + PING_TIMEOUT_MS
  }

  ghost predicate ChecksOk(contacts: seq<nat>, checks: seq<PingCheck>) {
    && (forall k :: 0 <= k < |checks| ==> CheckIsExact(contacts, checks[k]))
    && (forall k: nat :: k < |checks| ==> WasQuiet(contacts, checks, k))
  }

  ghost predicate ChecksInv(c: Client) {
    && c.contacts != [] && c.pingTick == c.contacts[|c.contacts| - 1]
    && ChecksOk(c.contacts, c.checks)
    && (c.checked ==> c.checks != [] && c.checks[|c.checks| - 1].reading <= c.pingTick + PING_TIMEOUT_MS)
  }

  lemma ContactsGrow(contacts: seq<nat>, checks: seq<PingCheck>, t: nat)
    requires ChecksOk(contacts, checks)
    ensures ChecksOk(contacts + [t], checks)
  {
    var longer := contacts + [t];
    forall k: nat | k < |checks| ensures CheckIsExact(longer, checks[k]) && WasQuiet(longer, checks, k) {
      assert CheckIsExact(contacts, checks[k]) && WasQuiet(contacts, checks, k);
    }
  }

  lemma ChecksGrow(contacts: seq<nat>, checks: seq<PingCheck>, check: PingCheck)
    requires ChecksOk(contacts, checks) && CheckIsExact(contacts, check)
    requires !check.first ==> checks != [] && checks[|checks| - 1].reading <= contacts[check.contacts - 1] + PING_TIMEOUT_MS
    ensures ChecksOk(contacts, checks + [check])
  {
    var longer := checks + [check];
    forall k: nat | k < |longer| ensures CheckIsExact(contacts, longer[k]) && WasQuiet(contacts, longer, k) {
      if k < |checks| {
        assert CheckIsExact(contacts, checks[k]) && WasQuiet(contacts, checks, k);
      }
    }
  }

  /** The times at which pings were decided. */
  function PingTimes(checks: seq<PingCheck>): seq<nat> {
    if checks == [] then []
    else
      var last := checks[|checks| - 1];
      PingTimes(checks[..|checks| - 1]) + if last.pings then [last.reading] else []
  }

  /** Pings are more than a ping timeout apart, and were decided no later than `tick`. */
  ghost predicate PingsOk(checks: seq<PingCheck>, tick: nat) {
    var pings := PingTimes(checks);
    Spaced(pings, PING_TIMEOUT_MS + 1) && (pings != [] ==> pings[|pings| - 1] <= tick)
  }

  lemma PingsGrow(checks: seq<PingCheck>, check: PingCheck, tick: nat, later: nat)
    requires PingsOk(checks, tick) && tick <= later
    requires check.pings ==> tick + PING_TIMEOUT_MS < check.reading <= later
    ensures PingsOk(checks + [check], later)
  {
    var pings := PingTimes(checks);
    assert (checks + [check])[..|checks|] == checks;
    if check.pings {
      SpacedAppend(pings, PING_TIMEOUT_MS + 1, check.reading);
    } else {
      assert pings + [] == pings;
    }
  }

  ghost predicate TimingInv(c: Client) {
    ClockInv(c) && RateInv(c) && ChecksInv(c) && PingsOk(c.checks, c.pingTick)
  }

  // ----------------------------------------------------------------------- stages

  lemma AbortKeepsTiming(c: Client, d: nat)
    requires ClockInv(c) && ChecksInv(c) && PingsOk(c.checks, c.pingTick)
    requires Spaced(c.attempts, RECONNECT_TIMEOUT_MS + 1)
    requires c.attempts != [] ==> c.attempts[|c.attempts| - 1] <= c.now
    ensures TimingInv(Abort(c, d)) && Abort(c, d).now == c.now + d
  {
    hide Spaced, PingsOk, ChecksOk;
  }

  lemma AttemptKeepsTiming(c: Client, i: PassInput)
    requires TimingInv(c) && c.state == Init
    ensures var t := Attempt(c, i);
            && ClockInv(t) && ChecksInv(t) && PingsOk(t.checks, t.pingTick) && c.now <= t.now && t.state == Init
            && Spaced(t.attempts, RECONNECT_TIMEOUT_MS + 1)
            && t.attempts != [] && t.attempts[|t.attempts| - 1] == t.now
  {
    SpacedAppend(c.attempts, RECONNECT_TIMEOUT_MS + 1, c.now + i.d0);
    hide Spaced, PingsOk, ChecksOk;
  }

  lemma InitKeepsTiming(c: Client, i: PassInput)
    requires TimingInv(c) && c.state == Init
    ensures TimingInv(InitPass(c, i)) && c.now <= InitPass(c, i).now
  {
    hide Spaced, PingsOk, Attempt, Abort, ChecksOk;
    if c.hasTransport {
      AttemptKeepsTiming(c, i);
      var tried := Attempt(c, i);
      if !i.connects {
        AbortKeepsTiming(tried, i.d1);
      } else {
        var connected := tried.(state := Connected, checked := false);
        assert TimingInv(connected);
        hide Dispatch, TimingInv;
        DispatchKeepsTiming(connected, ConnectedEvent);
      }
    }
  }

  function CheckNow(c: Client, i: PassInput): PingCheck {
    PingCheck(c.now + i.d0, |c.contacts|, !c.checked, c.now + i.d0 > c.pingTick + PING_TIMEOUT_MS)
  }

  lemma CheckOutcome(c: Client, i: PassInput)
    requires ClockInv(c) && c.now + i.d0 < U64
    ensures var check := CheckNow(c, i);
            var seen := c.(now := c.now + i.d0, checks := c.checks + [check], checked := true);
            var later := c.now + i.d0 + i.d1;
            CheckPing(c, i) == if check.pings
                               then seen.(now := later, pingTick := later, contacts := c.contacts + [later], calls := c.calls + [Ping])
                               else seen
  {
    NoWrap(c.now + i.d0, c.pingTick);
    hide Elapsed;
  }

  lemma CheckKeepsChecks(c: Client, i: PassInput)
    requires ClockInv(c) && ChecksInv(c) && c.now + i.d0 < U64
    ensures ChecksInv(CheckPing(c, i))
  {
    CheckOutcome(c, i);
    var check := CheckNow(c, i);
    ChecksGrow(c.contacts, c.checks, check);
    hide CheckPing, ChecksOk, CheckIsExact, ClockInv;
    if check.pings {
      ContactsGrow(c.contacts, c.checks + [check], c.now + i.d0 + i.d1);
    }
  }

  lemma CheckKeepsPings(c: Client, i: PassInput)
    requires ClockInv(c) && PingsOk(c.checks, c.pingTick) && c.now + i.d0 < U64
    ensures PingsOk(CheckPing(c, i).checks, CheckPing(c, i).pingTick)
  {
    CheckOutcome(c, i);
    var check := CheckNow(c, i);
    hide CheckPing, PingsOk, ClockInv;
    PingsGrow(c.checks, check, c.pingTick, if check.pings then c.now + i.d0 + i.d1 else c.pingTick);
  }

  lemma CheckKeepsTiming(c: Client, i: PassInput)
    requires TimingInv(c) && c.state == Connected && c.now + i.d0 < U64
    ensures TimingInv(CheckPing(c, i)) && CheckPing(c, i).state == Connected
    ensures c.now + i.d0 <= CheckPing(c, i).now
  {
    CheckOutcome(c, i);
    CheckKeepsChecks(c, i);
    CheckKeepsPings(c, i);
    hide CheckPing, Spaced, PingsOk, ChecksInv;
  }

  lemma StartReadKeepsChecks(c: Client, i: PassInput)
    requires ClockInv(c) && ChecksInv(c)
    ensures ChecksInv(StartRead(c, i))
  {
    ContactsGrow(c.contacts, c.checks, c.now + i.d2);
    hide ChecksOk;
  }

  lemma StartReadKeepsTiming(c: Client, i: PassInput)
    requires TimingInv(c) && c.state == Connected
    ensures TimingInv(StartRead(c, i)) && StartRead(c, i).state == Connected && c.now <= StartRead(c, i).now
  {
    StartReadKeepsChecks(c, i);
    LaterTick(c.checks, c.pingTick, c.now + i.d2);
    hide Spaced, PingsOk, ChecksInv;
  }

  lemma ReadKeepsTiming(c: Client, i: PassInput)
    requires TimingInv(c) && c.state == Connected
    ensures TimingInv(ReadData(c, i)) && c.now <= ReadData(c, i).now
  {
    StartReadKeepsTiming(c, i);
    hide StartRead, Abort, Spaced, PingsOk, ChecksInv;
    AbortKeepsTiming(StartRead(c, i), i.d3);
    if i.received.Some? {
      DispatchKeepsTiming(StartRead(c, i), DataEvent(i.received.value));
      hide Dispatch, TimingInv;
    }
  }

  lemma DispatchKeepsTiming(c: Client, e: Event)
    requires TimingInv(c)
    ensures TimingInv(Dispatch(c, e)) && Dispatch(c, e).now == c.now
  {
    hide Spaced, PingsOk, ChecksOk;
  }

  lemma LaterTick(checks: seq<PingCheck>, tick: nat, later: nat)
    requires PingsOk(checks, tick) && tick <= later
    ensures PingsOk(checks, later)
  {
  }

  lemma WaitOutcome(c: Client, i: PassInput)
    requires ClockInv(c) && c.state == WaitTimeout && (c.autoReconnect ==> c.now + i.d0 < U64)
    ensures WaitPass(c, i)
            == if !c.autoReconnect then c.(run := false)
               else if c.now + i.d0 > c.reconnectTick + RECONNECT_TIMEOUT_MS
               then c.(state := Init, reconnectTick := c.now + i.d0 + i.d1, now := c.now + i.d0 + i.d1 + i.d2)
               else c.(now := c.now + i.d0 + i.d2)
  {
    if c.autoReconnect {
      NoWrap(c.now + i.d0, c.reconnectTick);
    }
    hide Elapsed;
  }

  lemma WaitKeepsTiming(c: Client, i: PassInput)
    requires TimingInv(c) && c.state == WaitTimeout && (c.autoReconnect ==> c.now + i.d0 < U64)
    ensures TimingInv(WaitPass(c, i)) && c.now <= WaitPass(c, i).now
  {
    WaitOutcome(c, i);
    hide WaitPass, Spaced, PingsOk, ChecksOk;
  }

  lemma CheckMovesClock(c: Client, i: PassInput)
    ensures c.now + i.d0 <= CheckPing(c, i).now
  {
    hide Elapsed;
  }

  lemma ReadMovesClock(c: Client, i: PassInput)
    ensures c.now <= ReadData(c, i).now
  {
  }

  lemma InitMovesClock(c: Client, i: PassInput)
    ensures c.now <= InitPass(c, i).now
  {
  }

  lemma PassMovesClock(c: Client, i: PassInput)
    ensures c.now <= Pass(c, i).now
    ensures c.state == Connected || (c.state == WaitTimeout && c.autoReconnect) ==> c.now + i.d0 <= Pass(c, i).now
  {
    hide Elapsed;
    if c.state == Connected {
      CheckMovesClock(Call(c, PollRead(i.poll)), i);
      ReadMovesClock(CheckPing(Call(c, PollRead(i.poll)), i), i);
    }
    InitMovesClock(c, i);
    hide CheckPing, ReadData, InitPass;
  }

  lemma PassKeepsTiming(c: Client, i: PassInput)
    requires TimingInv(c) && Pass(c, i).now < U64
    ensures TimingInv(Pass(c, i))
  {
    PassMovesClock(c, i);
    hide Spaced, PingsOk, ChecksOk, InitPass, WaitPass, Abort, CheckPing, ReadData;
    match c.state
    case Init => InitKeepsTiming(c, i);
    case WaitTimeout => WaitKeepsTiming(c, i);
    case Connected =>
      var polled := Call(c, PollRead(i.poll));
      if i.poll < 0 {
        AbortKeepsTiming(polled, i.d0);
      } else {
        CheckKeepsTiming(polled, i);
        ReadKeepsTiming(CheckPing(polled, i), i);
      }
    case Unknown =>
  }

  // ----------------------------------------------------------------------- sessions

  lemma BeginTiming(c: Client, hasTransport: bool)
    requires Ready(c)
    ensures TimingInv(Begin(c, hasTransport))
  {
    assert PingTimes([]) == [];
  }

  lemma {:induction false} ClockIsMonotone(c: Client, inputs: seq<PassInput>)
    requires TimingInv(c) && After(c, inputs).now < U64
    ensures TimingInv(After(c, inputs)) && c.now <= After(c, inputs).now
    decreases |inputs|
  {
    if inputs != [] {
      var before, i := After(c, inputs[..|inputs| - 1]), inputs[|inputs| - 1];
      if before.run {
        PassMovesClock(before, i);
      }
      hide TimingInv, Pass;
      ClockIsMonotone(c, inputs[..|inputs| - 1]);
      if before.run {
        PassKeepsTiming(before, i);
      }
    }
  }

  lemma SessionKeepsTiming(c: Client, hasTransport: bool, inputs: seq<PassInput>)
    requires Ready(c) && After(Begin(c, hasTransport), inputs).now < U64
    ensures TimingInv(After(Begin(c, hasTransport), inputs))
  {
    BeginTiming(c, hasTransport);
    hide TimingInv, After;
    ClockIsMonotone(Begin(c, hasTransport), inputs);
  }

  /** No unsigned subtraction of the loop ever wraps: a stored tick is never in the future. */
  lemma SubtractionsNeverWrap(c: Client, hasTransport: bool, inputs: seq<PassInput>, now: nat)
    requires Ready(c) && After(Begin(c, hasTransport), inputs).now <= now < 0x1_0000_0000_0000_0000
    ensures var s := After(Begin(c, hasTransport), inputs);
            && Elapsed(now, s.reconnectTick) == now - s.reconnectTick
            && Elapsed(now, s.pingTick) == now - s.pingTick
  {
    SessionKeepsTiming(c, hasTransport, inputs);
    var s := After(Begin(c, hasTransport), inputs);
    hide After;
    NoWrap(now, s.reconnectTick);
    NoWrap(now, s.pingTick);
  }

  /** The n-th connect attempt comes at least 1001 * (n - 1) ms after the first. */
  lemma ReconnectRateIsBounded(c: Client, hasTransport: bool, inputs: seq<PassInput>, i: nat, j: nat)
    requires Ready(c) && After(Begin(c, hasTransport), inputs).now < U64
    requires i <= j < |After(Begin(c, hasTransport), inputs).attempts|
    ensures var attempts := After(Begin(c, hasTransport), inputs).attempts;
            attempts[i] + 1001 * (j - i) <= attempts[j]
  {
    SessionKeepsTiming(c, hasTransport, inputs);
    hide After, Spaced;
    SpacedSpan(After(Begin(c, hasTransport), inputs).attempts, RECONNECT_TIMEOUT_MS + 1, i, j);
  }

  /** n pings span at least 10001 * (n - 1) ms. */
  lemma PingRateIsBounded(c: Client, hasTransport: bool, inputs: seq<PassInput>, i: nat, j: nat)
    requires Ready(c) && After(Begin(c, hasTransport), inputs).now < U64
    requires i <= j < |PingTimes(After(Begin(c, hasTransport), inputs).checks)|
    ensures var pings := PingTimes(After(Begin(c, hasTransport), inputs).checks);
            pings[i] + 10001 * (j - i) <= pings[j]
  {
    SessionKeepsTiming(c, hasTransport, inputs);
    hide After, Spaced, PingTimes;
    SpacedSpan(PingTimes(After(Begin(c, hasTransport), inputs).checks), PING_TIMEOUT_MS + 1, i, j);
  }

  /** Readings of the ping check within one connection are at most `d` ms apart. */
  ghost predicate ChecksWithin(checks: seq<PingCheck>, d: nat) {
    forall k :: 0 < k < |checks| && !checks[k].first ==> checks[k].reading <= checks[k - 1].reading + d
  }

  /** A check sends a ping exactly when the last ping or data is more than 10000 ms old;
      and when checks come at most `d` ms apart, a ping after the first check of a
      connection comes at most 10000 + d ms after the last ping or data. */
  lemma PingsAreTimely(c: Client, hasTransport: bool, inputs: seq<PassInput>, d: nat, k: nat)
    requires Ready(c) && After(Begin(c, hasTransport), inputs).now < U64
    requires k < |After(Begin(c, hasTransport), inputs).checks|
    requires ChecksWithin(After(Begin(c, hasTransport), inputs).checks, d)
    ensures var s := After(Begin(c, hasTransport), inputs);
            var check := s.checks[k];
            && 0 < check.contacts <= |s.contacts|
            && (check.pings <==> check.reading > s.contacts[check.contacts - 1] + 10000)
            && (!check.first ==> check.reading <= s.contacts[check.contacts - 1] + 10000 + d)
  {
    SessionKeepsTiming(c, hasTransport, inputs);
    var s := After(Begin(c, hasTransport), inputs);
    hide After, Spaced, PingsOk;
    assert CheckIsExact(s.contacts, s.checks[k]) && WasQuiet(s.contacts, s.checks, k);
  }

  // ------------------------------------------- the times are those of the calls

  function Connects(calls: seq<TransportCall>): nat {
    if calls == [] then 0
    else Connects(calls[..|calls| - 1]) + if calls[|calls| - 1].Connect? then 1 else 0
  }

  function Pings(calls: seq<TransportCall>): nat {
    if calls == [] then 0
    else Pings(calls[..|calls| - 1]) + if calls[|calls| - 1].Ping? then 1 else 0
  }

  function Contacts(calls: seq<TransportCall>): nat {
    if calls == [] then 0
    else Contacts(calls[..|calls| - 1]) + if calls[|calls| - 1].Ping? || calls[|calls| - 1].Read? then 1 else 0
  }

  /** One attempt time for each connect call, one ping time for each ping, and a contact
      for each ping and each read, besides the one the session starts from. */
  ghost predicate LogsAgree(c: Client) {
    && |c.attempts| == Connects(c.calls)
    && |PingTimes(c.checks)| == Pings(c.calls)
    && |c.contacts| == 1 + Contacts(c.calls)
  }

  lemma CallsAppend(calls: seq<TransportCall>, call: TransportCall)
    ensures Connects(calls + [call]) == Connects(calls) + if call.Connect? then 1 else 0
    ensures Pings(calls + [call]) == Pings(calls) + if call.Ping? then 1 else 0
    ensures Contacts(calls + [call]) == Contacts(calls) + if call.Ping? || call.Read? then 1 else 0
  {
    assert (calls + [call])[..|calls|] == calls;
  }

  lemma AbortKeepsLogs(c: Client, d: nat)
    requires LogsAgree(c)
    ensures LogsAgree(Abort(c, d))
  {
    CallsAppend(c.calls, Close);
    hide Connects, Pings, Contacts, PingTimes;
  }

  lemma InitKeepsLogs(c: Client, i: PassInput)
    requires LogsAgree(c)
    ensures LogsAgree(InitPass(c, i))
  {
    CallsAppend(c.calls, Connect(i.connects));
    hide Connects, Pings, Contacts, PingTimes, Abort;
    if c.hasTransport {
      AbortKeepsLogs(Attempt(c, i), i.d1);
    }
  }

  lemma CheckKeepsLogs(c: Client, i: PassInput)
    requires LogsAgree(c)
    ensures LogsAgree(CheckPing(c, i))
  {
    CallsAppend(c.calls, Ping);
    var t := CheckPing(c, i);
    assert t.checks[..|c.checks|] == c.checks;
    hide Connects, Pings, Contacts, Elapsed;
  }

  lemma ReadKeepsLogs(c: Client, i: PassInput)
    requires LogsAgree(c)
    ensures LogsAgree(ReadData(c, i))
  {
    CallsAppend(c.calls, Read(i.received));
    hide Connects, Pings, Contacts, PingTimes, Abort;
    AbortKeepsLogs(StartRead(c, i), i.d3);
  }

  lemma PassKeepsLogs(c: Client, i: PassInput)
    requires LogsAgree(c)
    ensures LogsAgree(Pass(c, i))
  {
    CallsAppend(c.calls, PollRead(i.poll));
    hide Connects, Pings, Contacts, PingTimes, Abort, InitPass, CheckPing, ReadData, Elapsed;
    match c.state
    case Init => InitKeepsLogs(c, i);
    case Connected =>
      var polled := Call(c, PollRead(i.poll));
      AbortKeepsLogs(polled, i.d0);
      CheckKeepsLogs(polled, i);
      ReadKeepsLogs(CheckPing(polled, i), i);
    case _ =>
  }

  /** The times whose distances are bounded are those of all connect calls and all pings
      the session made. */
  lemma {:induction false} TimesAreOfTheCalls(c: Client, hasTransport: bool, inputs: seq<PassInput>)
    ensures LogsAgree(After(Begin(c, hasTransport), inputs))
    decreases |inputs|
  {
    if inputs != [] {
      hide Pass, LogsAgree;
      TimesAreOfTheCalls(c, hasTransport, inputs[..|inputs| - 1]);
      PassKeepsLogs(After(Begin(c, hasTransport), inputs[..|inputs| - 1]), inputs[|inputs| - 1]);
    }
  }

  /** Polls that did not fail. */
  function GoodPolls(calls: seq<TransportCall>): nat {
    if calls == [] then 0
    else
      var last := calls[|calls| - 1];
      GoodPolls(calls[..|calls| - 1]) + if last.PollRead? && last.result >= 0 then 1 else 0
  }

  lemma GoodPollsAppend(calls: seq<TransportCall>, call: TransportCall)
    ensures GoodPolls(calls + [call]) == GoodPolls(calls) + if call.PollRead? && call.result >= 0 then 1 else 0
  {
    assert (calls + [call])[..|calls|] == calls;
  }

  lemma AbortChecksNothing(c: Client, d: nat)
    ensures Abort(c, d).checks == c.checks && GoodPolls(Abort(c, d).calls) == GoodPolls(c.calls)
  {
    GoodPollsAppend(c.calls, Close);
    hide GoodPolls;
  }

  lemma InitChecksNothing(c: Client, i: PassInput)
    ensures InitPass(c, i).checks == c.checks && GoodPolls(InitPass(c, i).calls) == GoodPolls(c.calls)
  {
    var tried := Attempt(c, i);
    GoodPollsAppend(c.calls, Connect(i.connects));
    AbortChecksNothing(tried, i.d1);
    hide GoodPolls, Abort;
  }

  lemma ReadChecksNothing(c: Client, i: PassInput)
    ensures ReadData(c, i).checks == c.checks && GoodPolls(ReadData(c, i).calls) == GoodPolls(c.calls)
  {
    var reading := StartRead(c, i);
    GoodPollsAppend(c.calls, Read(i.received));
    AbortChecksNothing(reading, i.d3);
    hide GoodPolls, Abort;
  }

  lemma CheckIsOne(c: Client, i: PassInput)
    ensures var t := CheckPing(c, i);
            |t.checks| == |c.checks| + 1 && GoodPolls(t.calls) == GoodPolls(c.calls)
  {
    GoodPollsAppend(c.calls, Ping);
    hide GoodPolls, Elapsed;
  }

  lemma ConnectedKeepsCheckCount(c: Client, i: PassInput)
    requires |c.checks| == GoodPolls(c.calls)
    ensures |ConnectedPass(c, i).checks| == GoodPolls(ConnectedPass(c, i).calls)
  {
    var polled := Call(c, PollRead(i.poll));
    GoodPollsAppend(c.calls, PollRead(i.poll));
    AbortChecksNothing(polled, i.d0);
    CheckIsOne(polled, i);
    ReadChecksNothing(CheckPing(polled, i), i);
    hide GoodPolls, CheckPing, ReadData, Abort;
  }

  lemma WaitChecksNothing(c: Client, i: PassInput)
    ensures WaitPass(c, i).checks == c.checks && WaitPass(c, i).calls == c.calls
  {
    hide Elapsed;
  }

  lemma PassKeepsCheckCount(c: Client, i: PassInput)
    requires |c.checks| == GoodPolls(c.calls)
    ensures |Pass(c, i).checks| == GoodPolls(Pass(c, i).calls)
  {
    hide GoodPolls, Pass, InitPass, ConnectedPass, WaitPass;
    match c.state
    case Init =>
      PassInInit(c, i);
      InitChecksNothing(c, i);
    case Connected =>
      PassInConnected(c, i);
      ConnectedKeepsCheckCount(c, i);
    case WaitTimeout =>
      WaitingPass(c, i);
      WaitChecksNothing(c, i);
    case Unknown => assert Pass(c, i) == c by { PassInUnknown(c, i); }
  }

  lemma PassInUnknown(c: Client, i: PassInput)
    requires c.state == Unknown
    ensures Pass(c, i) == c
  {
  }

  /** Every poll that does not fail is followed by one ping check, and nothing else is. */
  lemma {:induction false} EachPollIsChecked(c: Client, hasTransport: bool, inputs: seq<PassInput>)
    ensures var s := After(Begin(c, hasTransport), inputs);
            |s.checks| == GoodPolls(s.calls)
    decreases |inputs|
  {
    if inputs != [] {
      hide Pass, GoodPolls;
      EachPollIsChecked(c, hasTransport, inputs[..|inputs| - 1]);
      PassKeepsCheckCount(After(Begin(c, hasTransport), inputs[..|inputs| - 1]), inputs[|inputs| - 1]);
    }
  }

  // ------------------------------------------------ the times are clock readings

  /** The times a pass records are the readings of the clock in that pass: of the connect
      call, of the ping check, of the ping and of the read. */
  lemma TimesAreReadings(c: Client, i: PassInput)
    requires ClockInv(c) && Pass(c, i).now < U64
    ensures c.state == Init && c.hasTransport ==> Pass(c, i).attempts == c.attempts + [c.now + i.d0]
    ensures c.state == Connected && i.poll >= 0 ==>
              var t, reading := Pass(c, i), c.now + i.d0;
              var pings := reading > c.pingTick + 10000;
              var after := if pings then reading + i.d1 else reading;
              && t.checks == c.checks + [PingCheck(reading, |c.contacts|, !c.checked, pings)]
              && t.contacts == c.contacts + (if pings then [after] else []) + (if i.poll > 0 then [after + i.d2] else [])
  {
    PassMovesClock(c, i);
    hide Pass;
    if c.state == Connected && i.poll >= 0 {
      ConnectedTimes(c, i);
      assert Pass(c, i) == ConnectedPass(c, i) by { PassInConnected(c, i); }
    } else if c.state == Init && c.hasTransport {
      InitTimes(c, i);
      assert Pass(c, i) == InitPass(c, i) by { PassInInit(c, i); }
    }
    hide InitPass, ConnectedPass;
  }

  lemma PassInInit(c: Client, i: PassInput)
    requires c.state == Init
    ensures Pass(c, i) == InitPass(c, i)
  {
    hide InitPass;
  }

  lemma PassInConnected(c: Client, i: PassInput)
    requires c.state == Connected
    ensures Pass(c, i) == ConnectedPass(c, i)
  {
    hide ConnectedPass;
  }

  lemma ConnectedTimes(c: Client, i: PassInput)
    requires ClockInv(c) && c.now + i.d0 < U64 && i.poll >= 0
    ensures var t, check := ConnectedPass(c, i), CheckNow(c, i);
            var after := if check.pings then check.reading + i.d1 else check.reading;
            && t.checks == c.checks + [check]
            && t.contacts == c.contacts + (if check.pings then [after] else []) + (if i.poll > 0 then [after + i.d2] else [])
  {
    var polled := Call(c, PollRead(i.poll));
    CheckOutcome(polled, i);
    ReadTimes(CheckPing(polled, i), i);
    hide CheckPing, ReadData, Elapsed;
  }

  lemma AbortTimes(c: Client, d: nat)
    ensures var t := Abort(c, d);
            t.attempts == c.attempts && t.checks == c.checks && t.contacts == c.contacts
  {
  }

  lemma InitTimes(c: Client, i: PassInput)
    requires c.hasTransport
    ensures InitPass(c, i).attempts == c.attempts + [c.now + i.d0]
  {
    AbortTimes(Attempt(c, i), i.d1);
    hide Abort;
  }

  lemma ReadTimes(c: Client, i: PassInput)
    ensures ReadData(c, i).checks == c.checks && ReadData(c, i).contacts == c.contacts + [c.now + i.d2]
  {
    AbortTimes(StartRead(c, i), i.d3);
    hide Abort;
  }

  // ------------------------------------------------------------- the wait phase

  /** Every pass delays at least `d` ms. */
  ghost predicate DelaysAtLeast(inputs: seq<PassInput>, d: nat) {
    forall k :: 0 <= k < |inputs| ==> inputs[k].d2 >= d
  }

  lemma {:induction false} StillWaiting(c: Client, inputs: seq<PassInput>, d: nat)
    requires ClockInv(c) && c.run && c.autoReconnect && c.state == WaitTimeout
    requires After(c, inputs).now < U64 && DelaysAtLeast(inputs, d)
    requires forall k :: 0 <= k <= |inputs| ==> After(c, inputs[..k]).state != Init
    ensures var w := After(c, inputs);
            && w.state == WaitTimeout && w.run && w.autoReconnect && ClockInv(w)
            && w.reconnectTick == c.reconnectTick && c.now + d * |inputs| <= w.now
            && (inputs != [] ==> c.now + d * (|inputs| - 1) <= c.reconnectTick + RECONNECT_TIMEOUT_MS)
    decreases |inputs|
  {
    if inputs != [] {
      var last := |inputs| - 1;
      var front, i := inputs[..last], inputs[last];
      var before := After(c, front);
      assert inputs[..|inputs|] == inputs;
      assert forall k :: 0 <= k <= last ==> front[..k] == inputs[..k];
      if before.run {
        PassMovesClock(before, i);
      }
      hide Pass, Elapsed;
      StillWaiting(c, front, d);
      WaitOutcome(before, i);
      assert Pass(before, i) == WaitPass(before, i) by { WaitingPass(before, i); }
      assert d * |inputs| == d * last + d;
      hide WaitPass;
    }
  }

  lemma WaitingPass(c: Client, i: PassInput)
    requires c.state == WaitTimeout
    ensures Pass(c, i) == WaitPass(c, i)
  {
    hide WaitPass;
  }

  /** With reconnection on and each delay at least `d` ms, the wait phase ends in INIT
      within floor(1000 / d) + 2 passes. */
  lemma WaitEnds(c: Client, inputs: seq<PassInput>, d: nat)
    requires ClockInv(c) && c.run && c.autoReconnect && c.state == WaitTimeout && d > 0
    requires |inputs| == 1000 / d + 2
    requires After(c, inputs).now < U64 && DelaysAtLeast(inputs, d)
    ensures exists k :: 0 <= k <= |inputs| && After(c, inputs[..k]).state == Init
  {
    if forall k :: 0 <= k <= |inputs| ==> After(c, inputs[..k]).state != Init {
      hide After;
      StillWaiting(c, inputs, d);
      MoreThan(d);
    }
  }

  lemma MoreThan(d: nat)
    requires d > 0
    ensures d * (1000 / d + 1) > 1000
  {
  }

  lemma AbortStartsWait(c: Client, d: nat)
    ensures var t := Abort(c, d);
            t.state == WaitTimeout && t.reconnectTick == t.now && t.waitTimeout == 1000
  {
  }

  lemma EntersWait(c: Client, i: PassInput)
    requires c.state != WaitTimeout && Pass(c, i).state == WaitTimeout
    ensures Pass(c, i).reconnectTick == Pass(c, i).now && Pass(c, i).waitTimeout == 1000
  {
    if c.state == Connected {
      var polled := Call(c, PollRead(i.poll));
      CheckStays(polled, i);
      AbortStartsWait(polled, i.d0);
      ReadEntersWait(CheckPing(polled, i), i);
    } else {
      AbortStartsWait(Attempt(c, i), i.d1);
    }
    hide Abort, CheckPing, ReadData;
  }

  lemma CheckStays(c: Client, i: PassInput)
    ensures CheckPing(c, i).state == c.state
  {
    hide Elapsed;
  }

  lemma ReadEntersWait(c: Client, i: PassInput)
    requires c.state == Connected
    ensures var t := ReadData(c, i);
            t.state == WaitTimeout ==> t.reconnectTick == t.now && t.waitTimeout == 1000
  {
    AbortStartsWait(StartRead(c, i), i.d3);
    hide Abort;
  }

  lemma WaitGoesOn(c: Client, i: PassInput)
    requires c.state == WaitTimeout && Pass(c, i).state == WaitTimeout
    ensures Pass(c, i).reconnectTick == c.reconnectTick && Pass(c, i).waitTimeout == c.waitTimeout
  {
    hide InitPass, ConnectedPass, Elapsed;
  }

  /** The wait that lasts was begun by pass `k`. */
  ghost predicate WaitingSince(c: Client, inputs: seq<PassInput>, k: nat) {
    && k < |inputs| && After(c, inputs[..k]).state != WaitTimeout
    && forall j :: k < j <= |inputs| ==> After(c, inputs[..j]).state == WaitTimeout
  }

  lemma {:induction false} WaitCountsFrom(c: Client, inputs: seq<PassInput>, k: nat)
    requires WaitingSince(c, inputs, k)
    ensures After(c, inputs).reconnectTick == After(c, inputs[..k + 1]).now && After(c, inputs).waitTimeout == 1000
    decreases |inputs|
  {
    var front, last := inputs[..|inputs| - 1], inputs[|inputs| - 1];
    assert inputs[..|inputs|] == inputs;
    assert After(c, inputs).state == WaitTimeout;
    hide Pass;
    if k == |front| {
      assert inputs[..k] == front && inputs[..k + 1] == inputs;
      EntersWait(After(c, front), last);
    } else {
      assert forall j :: 0 <= j <= |front| ==> front[..j] == inputs[..j];
      WaitCountsFrom(c, front, k);
      assert front[..|front|] == front;
      if After(c, front).run {
        WaitGoesOn(After(c, front), last);
      }
    }
  }

  /** The wait is left exactly when more than 1000 ms have passed since the connection
      was given up. */
  lemma WaitIsLeftIff(c: Client, hasTransport: bool, inputs: seq<PassInput>, k: nat, i: PassInput)
    requires Ready(c) && WaitingSince(Begin(c, hasTransport), inputs, k)
    requires var s := After(Begin(c, hasTransport), inputs); s.run && s.autoReconnect && Pass(s, i).now < U64
    ensures var s, givenUp := After(Begin(c, hasTransport), inputs), After(Begin(c, hasTransport), inputs[..k + 1]).now;
            Pass(s, i).state == if s.now + i.d0 > givenUp + 1000 then Init else WaitTimeout
  {
    var b := Begin(c, hasTransport);
    var s := After(b, inputs);
    assert inputs[..|inputs|] == inputs;
    assert s.state == WaitTimeout;
    WaitCountsFrom(b, inputs, k);
    PassMovesClock(s, i);
    SessionKeepsTiming(c, hasTransport, inputs);
    hide After, WaitingSince, Begin;
    WaitOutcome(s, i);
    assert Pass(s, i) == WaitPass(s, i) by { WaitingPass(s, i); }
    hide Pass, WaitPass, Spaced, PingsOk, ChecksOk;
  }
}
