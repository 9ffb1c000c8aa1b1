/**
 What the commands do to the pins, over a whole run.
 */
module MailboxEffects {
  import opened Bytes
  import opened Frames
  import opened MailboxProtocol
  import opened MailboxOrder
  import opened MailboxAnswers

  predicate IsGpio(s: State, n: nat)
    requires n < |s.frames|
  {
    Parse(s.signed, s.frames[n]).endpointId == GPIO_ENDPOINT
  }

  /** The pin levels left by the GPIO commands among the first `k` arrivals whose
      numbers are in `done`, carried out in arrival order. */
  function PinFold(signed: bool, frames: seq<Frame>, done: set<nat>, k: nat): map<int, bool>
    requires k <= |frames|
  {
    if k == 0 then map[]
    else
      var before := PinFold(signed, frames, done, k - 1);
      var m := Parse(signed, frames[k - 1]);
      if k - 1 in done && m.endpointId == GPIO_ENDPOINT then GpioEffect(signed, before, m) else before
  }

  function Handled(s: State): set<nat> {
    set h | h in s.handled :: h.m.n
  }

  /** The arrivals answered `MSG_OK`. */
  function AnsweredOk(s: State): set<nat> {
    set r | r in s.replies && r.status == MSG_OK :: r.n
  }

  lemma {:induction false} FoldIgnoresNewFrames(signed: bool, frames: seq<Frame>, frame: Frame, done: set<nat>, k: nat)
    requires k <= |frames|
    ensures PinFold(signed, frames + [frame], done, k) == PinFold(signed, frames, done, k)
  {
    hide GpioEffect, Parse;
    if k > 0 {
      FoldIgnoresNewFrames(signed, frames, frame, done, k - 1);
      assert (frames + [frame])[k - 1] == frames[k - 1];
    }
  }

  /** Only commands of the GPIO endpoint that do something matter to the fold. */
  lemma {:induction false} FoldDependsOnEffects(signed: bool, frames: seq<Frame>, a: set<nat>, b: set<nat>, k: nat)
    requires k <= |frames|
    requires forall n: nat :: n < k && Effective(Parse(signed, frames[n])) ==> (n in a <==> n in b)
    ensures PinFold(signed, frames, a, k) == PinFold(signed, frames, b, k)
  {
    if k > 0 {
      FoldDependsOnEffects(signed, frames, a, b, k - 1);
      hide Parse;
    }
  }

  /** A command that drives a pin. */
  predicate Effective(m: Message) {
    m.endpointId == GPIO_ENDPOINT && (m.messageType == GPIO_SET_HIGH || m.messageType == GPIO_SET_LOW)
  }

  /** Carrying out one more command, newer than all before it, comes last in the fold. */
  lemma {:induction false} FoldAppends(signed: bool, frames: seq<Frame>, done: set<nat>, n: nat, k: nat)
    requires n < k <= |frames| && n !in done
    requires Parse(signed, frames[n]).endpointId == GPIO_ENDPOINT
    requires forall d :: d in done && d < k && Parse(signed, frames[d]).endpointId == GPIO_ENDPOINT ==> d < n
    ensures PinFold(signed, frames, done + {n}, k)
            == GpioEffect(signed, PinFold(signed, frames, done, k), Parse(signed, frames[n]))
  {
    hide GpioEffect, Parse;
    if k == n + 1 {
      FoldSame(signed, frames, done, done + {n}, n);
    } else {
      FoldAppends(signed, frames, done, n, k - 1);
    }
  }

  lemma {:induction false} FoldSame(signed: bool, frames: seq<Frame>, a: set<nat>, b: set<nat>, k: nat)
    requires k <= |frames|
    requires forall n: nat :: n < k ==> (n in a <==> n in b)
    ensures PinFold(signed, frames, a, k) == PinFold(signed, frames, b, k)
  {
    hide GpioEffect, Parse;
    if k > 0 {
      FoldSame(signed, frames, a, b, k - 1);
    }
  }

  // ------------------------------------------------------------------ invariant

  ghost predicate PinsInv(s: State) {
    s.pins == PinFold(s.signed, s.frames, Handled(s), |s.frames|)
  }

  /** The statuses recorded for GPIO messages: those of handled ones are what the
      handler chose, all others say the message was not carried out. */
  ghost predicate StatusInv(s: State) {
    AnsweringInv(s) && OkMeansHandled(s) && HandledMeansAnswered(s)
  }

  ghost predicate AnsweringInv(s: State) {
    GPIO_ENDPOINT in s.consumers && s.consumers[GPIO_ENDPOINT].Answering? ==>
      var c := s.consumers[GPIO_ENDPOINT]; HandlerRun(GPIO_ENDPOINT, c.m) in s.handled && c.status == GpioStatus(c.m.content)
  }

  ghost predicate OkMeansHandled(s: State) {
    forall r :: r in s.replies && r.status == MSG_OK && IsGpioReply(s, r) ==> GpioHandled(s, r.n)
  }

  ghost predicate HandledMeansAnswered(s: State) {
    forall h :: h in s.handled && h.id == GPIO_ENDPOINT ==>
      ReplyTo(h.m, GpioStatus(h.m.content)) in s.replies || StillAnswering(s, h.m)
  }

  ghost predicate IsGpioReply(s: State, r: Reply) {
    r.n < |s.frames| && IsGpio(s, r.n)
  }

  ghost predicate GpioHandled(s: State, n: nat) {
    n in Handled(s)
  }

  ghost predicate StillAnswering(s: State, h: Msg) {
    GPIO_ENDPOINT in s.consumers && s.consumers[GPIO_ENDPOINT].Answering? && s.consumers[GPIO_ENDPOINT].m == h
  }

  lemma ArriveKeepsPins(s: State, frame: Frame, memory: bool)
    requires Ordered(s) && PinsInv(s)
    ensures PinsInv(Next(s, Arrive(frame, memory)))
  {
    if s.producer == Listening {
      var t := Next(s, Arrive(frame, memory));
      FoldIgnoresNewFrames(s.signed, s.frames, frame, Handled(s), |s.frames|);
      hide Parse, GpioEffect;
      assert HandledInv(s);
      assert Handled(t) == Handled(s);
      assert |s.frames| !in Handled(s);
    }
  }

  lemma GpioHandlerKeepsPins(s: State, status: int)
    requires Ordered(s) && PinsInv(s)
    requires GPIO_ENDPOINT in s.consumers && s.consumers[GPIO_ENDPOINT].Handling?
    ensures PinsInv(ConsumerNext(s, GPIO_ENDPOINT, status))
  {
    var t := ConsumerNext(s, GPIO_ENDPOINT, status);
    var m := s.consumers[GPIO_ENDPOINT].m;
    assert ConsumerInv(s, GPIO_ENDPOINT, s.consumers[GPIO_ENDPOINT]);
    hide GpioEffect, Parse, RepliesInv, AnswersFrame;
    assert Genuine(s, m);
    assert Handled(t) == Handled(s) + {m.n};
    forall d | d in Handled(s) && Parse(s.signed, s.frames[d]).endpointId == GPIO_ENDPOINT ensures d < m.n {
      var h :| h in s.handled && h.m.n == d;
      assert Genuine(s, h.m);
    }
    assert m.n !in Handled(s);
    FoldAppends(s.signed, s.frames, Handled(s), m.n, |s.frames|);
  }

  lemma ConsumerKeepsPins(s: State, e: int, status: int)
    requires Ordered(s) && PinsInv(s) && e in s.consumers
    ensures PinsInv(ConsumerNext(s, e, status))
  {
    var t := ConsumerNext(s, e, status);
    var c := s.consumers[e];
    if e == GPIO_ENDPOINT && c.Handling? {
      GpioHandlerKeepsPins(s, status);
    } else {
      ConsumerMovesQueue(s, e, status);
      assert t.pins == s.pins;
      if c.Handling? {
        assert ConsumerInv(s, e, c);
        hide GpioEffect, Parse, ConsumerNext;
        assert Genuine(s, c.m);
        assert Handled(t) == Handled(s) + {c.m.n};
        FoldDependsOnEffects(s.signed, s.frames, Handled(s), Handled(t), |s.frames|);
      }
    }
  }

  lemma StepKeepsPins(s: State, step: Step)
    requires Ordered(s) && PinsInv(s)
    ensures PinsInv(Next(s, step))
  {
    match step
    case Arrive(frame, memory) => ArriveKeepsPins(s, frame, memory);
    case Producer =>
      ProducerTouchesOnly(s);
      hide ProducerNext, PinFold;
      assert Handled(ProducerNext(s)) == Handled(s);
    case Consumer(e, status) => if e in s.consumers { ConsumerKeepsPins(s, e, status); }
  }

  lemma ArriveKeepsStatus(s: State, frame: Frame, memory: bool)
    requires Ordered(s) && StatusInv(s)
    ensures StatusInv(Next(s, Arrive(frame, memory)))
  {
    hide Parse, AnswersFrame, GpioStatus;
    var t := Next(s, Arrive(frame, memory));
    assert Handled(t) == Handled(s) && AnsweredOk(t) == AnsweredOk(s);
    forall r | r in t.replies && r.status == MSG_OK && IsGpioReply(t, r) ensures GpioHandled(t, r.n) {
      assert r in s.replies && r.n < |s.frames|;
      assert IsGpioReply(s, r);
    }
    forall h | h in t.handled && h.id == GPIO_ENDPOINT
      ensures ReplyTo(h.m, GpioStatus(h.m.content)) in t.replies || StillAnswering(t, h.m)
    {
      assert h in s.handled;
    }
  }

  lemma ProducerKeepsStatus(s: State)
    requires Ordered(s) && StatusInv(s)
    ensures StatusInv(ProducerNext(s))
  {
    var t := ProducerNext(s);
    ProducerTouchesOnly(s);
    hide Parse, AnswersFrame, GpioStatus, StatusFrame, Ordered, Effective;
    hide Heap.ReadMessage, Heap.FreeBody, Heap.FreeMessage;
    assert AnsweredOk(t) == AnsweredOk(s) && Handled(t) == Handled(s);
    forall r | r in t.replies && r.status == MSG_OK && IsGpioReply(t, r) ensures GpioHandled(t, r.n) {
      assert r in s.replies;
      assert IsGpioReply(s, r);
    }
    forall h | h in t.handled && h.id == GPIO_ENDPOINT
      ensures ReplyTo(h.m, GpioStatus(h.m.content)) in t.replies || StillAnswering(t, h.m)
    {
      assert h in s.handled;
    }
  }

  lemma ConsumerKeepsAnswering(s: State, e: int, status: int)
    requires Ordered(s) && AnsweringInv(s) && e in s.consumers
    ensures AnsweringInv(ConsumerNext(s, e, status))
  {
    hide Parse, AnswersFrame, GpioStatus, GpioEffect, ReplyTo, Ordered;
    hide Heap.ReadMessage, Heap.ReadBody, Heap.FreeBody, Heap.FreeMessage;
  }

  lemma ConsumerReplies(s: State, e: int, status: int)
    requires e in s.consumers
    ensures var t := ConsumerNext(s, e, status);
            var c := s.consumers[e];
            && t.replies == (if c.Answering? then s.replies + [ReplyTo(c.m, c.status)] else s.replies)
            && (t.consumers[e].Answering? <==> c.Handling?)
  {
    hide GpioStatus, GpioEffect, ReplyTo;
    hide Heap.ReadMessage, Heap.ReadBody, Heap.FreeBody, Heap.FreeMessage;
  }

  lemma ConsumerKeepsOkMeansHandled(s: State, e: int, status: int)
    requires Ordered(s) && AnsweringInv(s) && OkMeansHandled(s) && e in s.consumers
    ensures OkMeansHandled(ConsumerNext(s, e, status))
  {
    var t := ConsumerNext(s, e, status);
    var c := s.consumers[e];
    ConsumerReplies(s, e, status);
    ConsumerMovesQueue(s, e, status);
    assert ConsumerInv(s, e, c);
    hide Parse, GpioStatus, ConsumerNext, Ordered;
    assert Handled(s) <= Handled(t);
    forall r | r in t.replies && r.status == MSG_OK && IsGpioReply(t, r) ensures GpioHandled(t, r.n) {
      if r in s.replies {
        assert IsGpioReply(s, r);
      } else {
        assert r == ReplyTo(c.m, c.status);
        assert Genuine(s, c.m);
      }
    }
  }

  lemma ConsumerKeepsHandledMeansAnswered(s: State, e: int, status: int)
    requires Ordered(s) && AnsweringInv(s) && HandledMeansAnswered(s) && e in s.consumers
    ensures HandledMeansAnswered(ConsumerNext(s, e, status))
  {
    var t := ConsumerNext(s, e, status);
    var c := s.consumers[e];
    ConsumerReplies(s, e, status);
    ConsumerMovesQueue(s, e, status);
    assert ConsumerInv(s, e, c);
    hide Parse, Ordered, GpioEffect, Heap.ReadMessage, Heap.ReadBody, Heap.FreeBody, Heap.FreeMessage;
    assert AnsweredOk(s) <= AnsweredOk(t);
    forall h | h in t.handled && h.id == GPIO_ENDPOINT
      ensures ReplyTo(h.m, GpioStatus(h.m.content)) in t.replies || StillAnswering(t, h.m)
    {
      if h !in s.handled {
        assert c.Handling? && h == HandlerRun(e, c.m);
      } else if StillAnswering(s, h.m) && e == GPIO_ENDPOINT {
        assert t.replies == s.replies + [ReplyTo(h.m, GpioStatus(h.m.content))];
      }
    }
  }

  lemma StepKeepsStatus(s: State, step: Step)
    requires Ordered(s) && StatusInv(s)
    ensures StatusInv(Next(s, step))
  {
    hide Ordered, AnsweringInv, OkMeansHandled, HandledMeansAnswered;
    match step
    case Arrive(frame, memory) => ArriveKeepsStatus(s, frame, memory);
    case Producer => ProducerKeepsStatus(s);
    case Consumer(e, status) =>
      if e in s.consumers {
        ConsumerKeepsAnswering(s, e, status);
        ConsumerKeepsOkMeansHandled(s, e, status);
        ConsumerKeepsHandledMeansAnswered(s, e, status);
      }
  }

  lemma {:induction false} RunKeepsPins(signed: bool, ids: set<int>, steps: seq<Step>)
    ensures PinsInv(Exec(Init(signed, ids), steps)) && StatusInv(Exec(Init(signed, ids), steps))
  {
    if steps != [] {
      var s := Exec(Init(signed, ids), steps[..|steps| - 1]);
      hide Next, PinsInv, StatusInv;
      ExecStep(Init(signed, ids), steps);
      RunKeepsPins(signed, ids, steps[..|steps| - 1]);
      RunIsOrdered(signed, ids, steps[..|steps| - 1]);
      hide Exec, Init;
      StepKeepsPins(s, steps[|steps| - 1]);
      StepKeepsStatus(s, steps[|steps| - 1]);
    }
  }

  // -------------------------------------------------------------- what it means

  predicate GpioAnswering(s: State) {
    GPIO_ENDPOINT in s.consumers && s.consumers[GPIO_ENDPOINT].Answering?
  }

  lemma EffectiveIffOk(s: State, n: nat)
    requires Ordered(s) && StatusInv(s) && !GpioAnswering(s)
    requires n < |s.frames| && Effective(Parse(s.signed, s.frames[n]))
    ensures n in Handled(s) <==> n in AnsweredOk(s)
  {
    hide Parse, AnswersFrame, AnsweringInv;
    if n in Handled(s) {
      var h :| h in s.handled && h.m.n == n;
      assert Genuine(s, h.m);
    }
    if n in AnsweredOk(s) {
      var r :| r in s.replies && r.status == MSG_OK && r.n == n;
      assert IsGpioReply(s, r);
    }
  }

  /** Whenever the GPIO task is not about to answer, the pins are at the levels left by
      carrying out, in arrival order, exactly the commands answered `MSG_OK`; this holds
      in every interleaving. */
  lemma PinsAreTheAnsweredCommands(signed: bool, ids: set<int>, steps: seq<Step>)
    requires !GpioAnswering(Exec(Init(signed, ids), steps))
    ensures var s := Exec(Init(signed, ids), steps);
            s.pins == PinFold(s.signed, s.frames, AnsweredOk(s), |s.frames|)
  {
    RunKeepsPins(signed, ids, steps);
    RunIsOrdered(signed, ids, steps);
    var s := Exec(Init(signed, ids), steps);
    hide Exec, Init, StatusInv, Ordered, Parse, GpioAnswering;
    forall n: nat | n < |s.frames| && Effective(Parse(s.signed, s.frames[n]))
      ensures n in Handled(s) <==> n in AnsweredOk(s)
    {
      EffectiveIffOk(s, n);
    }
    FoldDependsOnEffects(s.signed, s.frames, Handled(s), AnsweredOk(s), |s.frames|);
  }

  /** On the wire: a command byte 2 or 3 for endpoint 1, and the pin it names. */
  predicate DrivesPin(signed: bool, frame: Frame, pin: int) {
    frame[0] == 1 && (frame[2] == 2 || frame[2] == 3) && CharToInt(signed, frame[3]) == pin
  }

  /** One more arrival changes the level of a pin exactly when it is a command for it
      that is carried out. */
  lemma FoldOneMore(signed: bool, frames: seq<Frame>, done: set<nat>, k: nat, pin: int)
    requires 0 < k <= |frames|
    ensures var before, after := PinFold(signed, frames, done, k - 1), PinFold(signed, frames, done, k);
            if k - 1 in done && DrivesPin(signed, frames[k - 1], pin)
            then pin in after && after[pin] == (frames[k - 1][2] == 2)
            else (pin in after <==> pin in before) && (pin in before ==> after[pin] == before[pin])
  {
    assert frames[k - 1][HEADER_LENGTH..][0] == frames[k - 1][3];
  }

  /** In the fold a pin has the level of the last command for it that was carried out:
      high for command byte 2, low for 3; a pin without one is not driven. */
  lemma {:induction false} LastCommandWins(signed: bool, frames: seq<Frame>, done: set<nat>, k: nat, pin: int)
    requires k <= |frames|
    ensures pin in PinFold(signed, frames, done, k) <==> exists n :: n in done && n < k && DrivesPin(signed, frames[n], pin)
    ensures forall n :: n in done && n < k && DrivesPin(signed, frames[n], pin)
                        && (forall later :: later in done && n < later < k ==> !DrivesPin(signed, frames[later], pin))
                        ==> pin in PinFold(signed, frames, done, k)
                            && PinFold(signed, frames, done, k)[pin] == (frames[n][2] == 2)
  {
    if k > 0 {
      LastCommandWins(signed, frames, done, k - 1, pin);
      FoldOneMore(signed, frames, done, k, pin);
      hide PinFold, DrivesPin;
    }
  }

  /** So whenever the GPIO task is not about to answer, a pin has the level of the last
      command for it that was answered `MSG_OK`. */
  lemma PinsShowTheLastAnswered(signed: bool, ids: set<int>, steps: seq<Step>, pin: int, n: nat)
    requires !GpioAnswering(Exec(Init(signed, ids), steps))
    requires n in AnsweredOk(Exec(Init(signed, ids), steps)) && n < |Exec(Init(signed, ids), steps).frames|
    requires DrivesPin(Exec(Init(signed, ids), steps).signed, Exec(Init(signed, ids), steps).frames[n], pin)
    requires forall later :: later in AnsweredOk(Exec(Init(signed, ids), steps)) && n < later < |Exec(Init(signed, ids), steps).frames|
               ==> !DrivesPin(Exec(Init(signed, ids), steps).signed, Exec(Init(signed, ids), steps).frames[later], pin)
    ensures var s := Exec(Init(signed, ids), steps);
            pin in s.pins && s.pins[pin] == (s.frames[n][2] == 2)
  {
    PinsAreTheAnsweredCommands(signed, ids, steps);
    var s := Exec(Init(signed, ids), steps);
    hide Exec, Init, PinFold, DrivesPin, AnsweredOk, GpioAnswering;
    LastCommandWins(s.signed, s.frames, AnsweredOk(s), |s.frames|, pin);
  }

  lemma OneReplyEach(s: State, q: Reply, r: Reply)
    requires ExactlyOnce(s) && q in s.replies && r in s.replies && q.n == r.n < |s.frames|
    ensures q == r
  {
    var p := PlaceOf(s, r.n);
    var i :| 0 <= i < |s.replies| && s.replies[i] == r;
    var j :| 0 <= j < |s.replies| && s.replies[j] == q;
    assert IsAt(s, r.n, Answered(i)) && IsAt(s, r.n, Answered(j));
  }

  /** A command answered with any other status (not received, unsupported, no memory)
      never touched a pin, provided no reset was disturbed. */
  lemma RejectedCommandsTouchNothing(signed: bool, ids: set<int>, steps: seq<Step>, r: Reply)
    requires AlwaysUndisturbed(Init(signed, ids), steps)
    requires !GpioAnswering(Exec(Init(signed, ids), steps))
    requires r in Exec(Init(signed, ids), steps).replies && r.status != MSG_OK
    ensures var s := Exec(Init(signed, ids), steps);
            && r.n !in AnsweredOk(s)
            && s.pins == PinFold(s.signed, s.frames, AnsweredOk(s) - {r.n}, |s.frames|)
  {
    var s := Exec(Init(signed, ids), steps);
    PinsAreTheAnsweredCommands(signed, ids, steps);
    ExactlyOnceIffUndisturbed(signed, ids, steps);
    RunIsOrdered(signed, ids, steps);
    assert steps[..|steps|] == steps;
    assert ExactlyOnce(s);
    assert RepliesInv(s);
    hide Exec, Init, Ordered, PinFold;
    if r.n in AnsweredOk(s) {
      var q :| q in s.replies && q.status == MSG_OK && q.n == r.n;
      OneReplyEach(s, q, r);
    }
    assert AnsweredOk(s) - {r.n} == AnsweredOk(s);
  }
}
