/**
 The device's methods, called one after another, are runs of the step system: what
 is proved of every interleaving holds of every sequence of calls.
 */
module MailboxCalls {
  import opened Bytes
  import opened Frames
  import opened MailboxProtocol
  import opened MailboxOrder
  import opened MailboxAnswers
  import opened MailboxMemory
  import opened MailboxEffects
  import opened MailboxStatus
  import opened MailboxAtomic
  import opened Device

  /** A DATA event, or a pass of an endpoint task, whose handler answers `status` unless
      it is the GPIO one. */
  datatype Call = Event(frame: Frame, memory: bool) | EndpointPass(id: int, status: int)

  function HandlerOf(id: int, status: int): Handler {
    if id == GPIO_ENDPOINT then Gpio else Other(status)
  }

  function Perform(signed: bool, v: View, call: Call): View {
    match call
    case Event(frame, memory) => Deliver(signed, v, frame, memory)
    case EndpointPass(id, status) => Poll(signed, v, id, HandlerOf(id, status))
  }

  /** Only these endpoints have tasks. */
  predicate PassesAreOf(calls: seq<Call>, ids: set<int>) {
    forall call :: call in calls && call.EndpointPass? ==> call.id in ids
  }

  function PerformAll(signed: bool, v: View, calls: seq<Call>): View {
    if calls == [] then v
    else Perform(signed, PerformAll(signed, v, calls[..|calls| - 1]), calls[|calls| - 1])
  }

  /** The frames that arrive during the calls. */
  function Arrivals(calls: seq<Call>): seq<Frame> {
    if calls == [] then []
    else
      var before := Arrivals(calls[..|calls| - 1]);
      match calls[|calls| - 1]
      case Event(frame, _) => before + [frame]
      case EndpointPass(_, _) => before
  }

  function BytesOf(replies: seq<Reply>): seq<seq<byte>> {
    seq(|replies|, i requires 0 <= i < |replies| => replies[i].bytes)
  }

  function ViewOf(s: State): View {
    View(if s.queue == [] then None else Some(s.queue[0].content), BytesOf(s.replies), s.pins)
  }

  /** Between two calls: nobody is in the middle of anything. */
  ghost predicate Ready(s: State, ids: set<int>) {
    s.producer == Listening && QueueInv(s) && s.consumers == AllPolling(ids)
  }

  function AllPolling(ids: set<int>): map<int, ConsumerPc> {
    map e | e in ids :: Polling
  }

  lemma Extend(s: State, steps: seq<Step>, step: Step)
    ensures AtomicExec(s, steps + [step]) == AtomicNext(AtomicExec(s, steps), step)
  {
    hide AtomicNext;
    assert (steps + [step])[..|steps + [step]| - 1] == steps;
  }

  lemma CoarseIsNext(s: State, step: Step)
    requires Expand(s, step) == [step]
    ensures AtomicNext(s, step) == Next(s, step)
  {
    hide Next;
    assert [step][..0] == [];
    assert Exec(s, []) == s;
    ExecStep(s, [step]);
  }

  /** Lets the producer run until it listens again. */
  lemma RunProducer(s0: State, steps: seq<Step>, s: State) returns (more: seq<Step>, t: State)
    requires s == AtomicExec(s0, steps)
    ensures more == steps + [Producer] && t == ProducerNext(s) && t == AtomicExec(s0, more)
  {
    hide AtomicExec, ProducerNext;
    more := steps + [Producer];
    t := ProducerNext(s);
    Extend(s0, steps, Producer);
    CoarseIsNext(s, Producer);
  }

  lemma RefusedEvent(s0: State, ids: set<int>, steps: seq<Step>, frame: Frame) returns (more: seq<Step>)
    requires Ready(AtomicExec(s0, steps), ids)
    ensures var s, t := AtomicExec(s0, steps), AtomicExec(s0, more);
            Ready(t, ids) && t.signed == s.signed && t.frames == s.frames + [frame]
            && ViewOf(t) == Deliver(s.signed, ViewOf(s), frame, false)
  {
    var s := AtomicExec(s0, steps);
    var arrive := Arrive(frame, false);
    more := steps + [arrive];
    Extend(s0, steps, arrive);
    CoarseIsNext(s, arrive);
    var s1 := Next(s, arrive);
    hide AtomicExec, Parse, AtomicNext;
    var s2;
    more, s2 := RunProducer(s0, more, s1);
    assert s2.replies[..|s.replies|] == s.replies;
    HeaderFields(s.signed, frame);
  }

  lemma HeaderFields(signed: bool, frame: Frame)
    ensures var m := Parse(signed, frame);
            m.endpointId == CharToInt(signed, frame[0]) && m.messageId == CharToInt(signed, frame[1])
  {
  }

  /** From the check to the enqueue, when a message is waiting. */
  lemma EvictionSteps(s0: State, steps: seq<Step>, s: State, m: Msg) returns (more: seq<Step>, t: State)
    requires s == AtomicExec(s0, steps) && s.producer == Checking(m) && |s.queue| == 1
    ensures t == AtomicExec(s0, more)
    ensures t == s.(producer := Posting(m), queue := [], heap := t.heap,
                    replies := s.replies + [ReplyTo(s.queue[0], ERR_NOT_RECEIVED)])
  {
    hide AtomicExec, Parse, AtomicNext, ReplyTo, StatusFrame, Heap.ReadMessage, Heap.FreeBody, Heap.FreeMessage;
    more, t := RunProducer(s0, steps, s);
    more, t := RunProducer(s0, more, t);
    assert t.producer == Evicting(m, s.queue[0]) && t.queue == [];
    more, t := RunProducer(s0, more, t);
    more, t := RunProducer(s0, more, t);
    more, t := RunProducer(s0, more, t);
  }

  lemma ArriveStep(s: State, frame: Frame)
    requires s.producer == Listening
    ensures Next(s, Arrive(frame, true))
            == s.(frames := s.frames + [frame], heap := s.heap.Allocate(|s.frames|),
                  producer := Checking(Msg(|s.frames|, Parse(s.signed, frame))))
  {
  }

  lemma CheckStep(s: State)
    requires s.producer.Checking? && s.queue == []
    ensures ProducerNext(s) == s.(producer := Posting(s.producer.m))
  {
  }

  lemma PostStep(s: State)
    requires s.producer.Posting? && s.queue == []
    ensures ProducerNext(s) == s.(producer := Listening, queue := [s.producer.m], newest := s.producer.m.n)
  {
  }

  lemma BytesAppend(replies: seq<Reply>, r: Reply)
    ensures BytesOf(replies + [r]) == BytesOf(replies) + [r.bytes]
  {
  }

  /** What an accepted event leaves behind. */
  ghost predicate Accepted(s: State, t: State, frame: Frame) {
    var m := Msg(|s.frames|, Parse(s.signed, frame));
    t == s.(frames := s.frames + [frame], heap := t.heap, queue := [m], newest := m.n,
            replies := if s.queue == [] then s.replies else s.replies + [ReplyTo(s.queue[0], ERR_NOT_RECEIVED)])
  }

  lemma AcceptedSteps(s0: State, ids: set<int>, steps: seq<Step>, frame: Frame) returns (more: seq<Step>)
    requires Ready(AtomicExec(s0, steps), ids)
    ensures Accepted(AtomicExec(s0, steps), AtomicExec(s0, more), frame)
  {
    var s := AtomicExec(s0, steps);
    var arrive := Arrive(frame, true);
    more := steps + [arrive];
    Extend(s0, steps, arrive);
    CoarseIsNext(s, arrive);
    ArriveStep(s, frame);
    var t := Next(s, arrive);
    hide AtomicExec, Parse, AtomicNext, ReplyTo, Next, ProducerNext, Expand, Heap.Allocate, Genuine;
    if s.queue != [] {
      more, t := EvictionSteps(s0, more, t, t.producer.m);
    } else {
      CheckStep(t);
      more, t := RunProducer(s0, more, t);
    }
    PostStep(t);
    more, t := RunProducer(s0, more, t);
  }

  lemma AcceptedView(s: State, t: State, ids: set<int>, frame: Frame)
    requires Ready(s, ids) && Accepted(s, t, frame)
    ensures Ready(t, ids) && ViewOf(t) == Deliver(s.signed, ViewOf(s), frame, true)
  {
    if s.queue != [] {
      BytesAppend(s.replies, ReplyTo(s.queue[0], ERR_NOT_RECEIVED));
    }
    hide BytesOf, Parse, StatusFrame;
  }

  lemma AcceptedEvent(s0: State, ids: set<int>, steps: seq<Step>, frame: Frame) returns (more: seq<Step>)
    requires Ready(AtomicExec(s0, steps), ids)
    ensures var s, t := AtomicExec(s0, steps), AtomicExec(s0, more);
            Ready(t, ids) && t.signed == s.signed && t.frames == s.frames + [frame]
            && ViewOf(t) == Deliver(s.signed, ViewOf(s), frame, true)
  {
    hide AtomicExec, Ready, ViewOf, Deliver;
    more := AcceptedSteps(s0, ids, steps, frame);
    AcceptedView(AtomicExec(s0, steps), AtomicExec(s0, more), ids, frame);
  }

  lemma UpdateTwice(consumers: map<int, ConsumerPc>, e: int, a: ConsumerPc, b: ConsumerPc)
    ensures consumers[e := a][e := b] == consumers[e := b]
  {
  }

  /** An endpoint task runs one step. */
  lemma RunTask(s0: State, steps: seq<Step>, s: State, e: int, status: int) returns (more: seq<Step>, t: State)
    requires s == AtomicExec(s0, steps) && e in s.consumers
    requires !(s.consumers[e].Peeking? && s.queue != [])
    ensures t == ConsumerNext(s, e, status) && t == AtomicExec(s0, more)
  {
    hide AtomicExec, ConsumerNext;
    var step := Consumer(e, status);
    more := steps + [step];
    t := ConsumerNext(s, e, status);
    Extend(s0, steps, step);
    CoarseIsNext(s, step);
  }

  lemma PeekOnce(s: State, e: int, status: int)
    requires e in s.consumers && s.consumers[e] == Peeking && |s.queue| == 1
    ensures Next(s, Consumer(e, status)) == s.(consumers := s.consumers[e := Comparing(s.queue[0])])
  {
  }

  lemma CompareOnce(s: State, e: int, status: int)
    requires e in s.consumers && s.consumers[e].Comparing?
    ensures var m := s.consumers[e].m;
            Next(s, Consumer(e, status))
            == s.(heap := s.heap.ReadMessage(m.n),
                  consumers := s.consumers[e := if m.content.endpointId == e then Taking(m) else Polling])
  {
    hide Heap.ReadMessage;
  }

  lemma TakeOnce(s: State, e: int, status: int)
    requires e in s.consumers && s.consumers[e].Taking?
    ensures Next(s, Consumer(e, status)) == s.(queue := [], consumers := s.consumers[e := Handling(s.consumers[e].m)])
  {
  }

  lemma CoarseStepOnce(s: State, step: Step)
    ensures Exec(s, [step]) == Next(s, step)
  {
    hide Next;
    assert [step][..0] == [];
    assert Exec(s, []) == s;
    ExecStep(s, [step]);
  }

  lemma TwoSteps(s: State, a: Step, b: Step)
    ensures Exec(s, [a, b]) == Next(Next(s, a), b)
  {
    hide Next;
    assert [a, b] == [a] + [b];
    ExecSplit(s, [a], [b]);
    CoarseStepOnce(s, a);
    CoarseStepOnce(Next(s, a), b);
  }

  lemma ThreeSteps(s: State, a: Step, b: Step, c: Step)
    ensures Exec(s, [a, b, c]) == Next(Next(Next(s, a), b), c)
  {
    hide Next;
    assert [a, b, c] == [a, b] + [c];
    ExecSplit(s, [a, b], [c]);
    TwoSteps(s, a, b);
    CoarseStepOnce(Next(Next(s, a), b), c);
  }

  /** What looking into a queue that is not empty comes to. */
  lemma CoarseLook(s: State, e: int, status: int)
    requires e in s.consumers && s.consumers[e] == Peeking && |s.queue| == 1
    ensures var m := s.queue[0];
            AtomicNext(s, Consumer(e, status))
            == s.(heap := s.heap.ReadMessage(m.n),
                  queue := if m.content.endpointId == e then [] else s.queue,
                  consumers := s.consumers[e := if m.content.endpointId == e then Handling(m) else Polling])
  {
    var step := Consumer(e, status);
    var m := s.queue[0];
    PeekOnce(s, e, status);
    var a := Next(s, step);
    CompareOnce(a, e, status);
    var b := Next(a, step);
    hide Next, Exec, Heap.ReadMessage;
    if m.content.endpointId == e {
      UpdateTwice(s.consumers, e, Comparing(m), Taking(m));
      TakeOnce(b, e, status);
      UpdateTwice(s.consumers, e, Taking(m), Handling(m));
      ThreeSteps(s, step, step, step);
    } else {
      UpdateTwice(s.consumers, e, Comparing(m), Polling);
      TwoSteps(s, step, step);
    }
  }

  /** An endpoint task looks into a queue that is not empty. */
  lemma LookTask(s0: State, steps: seq<Step>, s: State, e: int, status: int) returns (more: seq<Step>, t: State)
    requires s == AtomicExec(s0, steps) && e in s.consumers && s.consumers[e] == Peeking && |s.queue| == 1
    ensures var m := s.queue[0];
            && t == AtomicExec(s0, more)
            && t == s.(heap := t.heap,
                       queue := if m.content.endpointId == e then [] else s.queue,
                       consumers := s.consumers[e := if m.content.endpointId == e then Handling(m) else Polling])
  {
    hide AtomicExec, AtomicNext, Heap.ReadMessage;
    var step := Consumer(e, status);
    more := steps + [step];
    Extend(s0, steps, step);
    t := AtomicNext(s, step);
    CoarseLook(s, e, status);
  }

  /** From the handler to the next poll. */
  lemma HandlerSteps(s0: State, steps: seq<Step>, s: State, e: int, status: int, m: Msg)
    returns (more: seq<Step>, t: State)
    requires s == AtomicExec(s0, steps) && e in s.consumers && s.consumers[e] == Handling(m)
    ensures t == AtomicExec(s0, more)
    ensures var handler := HandlerOf(e, status);
            t == s.(consumers := s.consumers[e := Polling], heap := t.heap,
                    handled := s.handled + [HandlerRun(e, m)],
                    pins := handler.Effect(s.signed, s.pins, m.content),
                    replies := s.replies + [ReplyTo(m, handler.Status(m.content))])
  {
    hide AtomicExec, AtomicNext, ReplyTo, GpioEffect, GpioStatus;
    hide Heap.ReadMessage, Heap.ReadBody, Heap.FreeBody, Heap.FreeMessage;
    var answer := HandlerOf(e, status).Status(m.content);
    more, t := RunTask(s0, steps, s, e, status);
    more, t := RunTask(s0, more, t, e, status);
    UpdateTwice(s.consumers, e, Answering(m, answer), FreeingBody(m));
    more, t := RunTask(s0, more, t, e, status);
    UpdateTwice(s.consumers, e, FreeingBody(m), FreeingMessage(m));
    more, t := RunTask(s0, more, t, e, status);
    UpdateTwice(s.consumers, e, FreeingMessage(m), Polling);
  }

  /** A look at the queue starts with asking whether anything is in it. */
  lemma PollStep(s: State, e: int, status: int)
    requires e in s.consumers && s.consumers[e] == Polling
    ensures ConsumerNext(s, e, status) == s.(consumers := s.consumers[e := if s.queue != [] then Peeking else Polling])
  {
  }

  predicate TakesOwn(s: State, e: int) {
    s.queue != [] && s.queue[0].content.endpointId == e
  }

  /** What a pass of endpoint task `e` leaves behind. */
  ghost predicate Passed(s: State, t: State, e: int, handler: Handler) {
    if TakesOwn(s, e) then
      var m := s.queue[0];
      t == s.(queue := [], heap := t.heap, handled := t.handled,
              pins := handler.Effect(s.signed, s.pins, m.content),
              replies := s.replies + [ReplyTo(m, handler.Status(m.content))])
    else
      t == s.(heap := t.heap)
  }

  lemma PassSteps(s0: State, steps: seq<Step>, s: State, e: int, status: int) returns (more: seq<Step>, t: State)
    requires s == AtomicExec(s0, steps) && e in s.consumers && s.consumers[e] == Polling && |s.queue| <= 1
    ensures t == AtomicExec(s0, more) && Passed(s, t, e, HandlerOf(e, status))
  {
    PollStep(s, e, status);
    hide AtomicExec, AtomicNext, ReplyTo, ConsumerNext, HandlerOf, Handler.Effect, Handler.Status;
    assert s.consumers[e := Polling] == s.consumers;
    more, t := RunTask(s0, steps, s, e, status);
    if s.queue != [] {
      var m := s.queue[0];
      more, t := LookTask(s0, more, t, e, status);
      if m.content.endpointId == e {
        UpdateTwice(s.consumers, e, Peeking, Handling(m));
        more, t := HandlerSteps(s0, more, t, e, status, m);
        UpdateTwice(s.consumers, e, Handling(m), Polling);
      } else {
        UpdateTwice(s.consumers, e, Peeking, Polling);
      }
    }
  }

  lemma PassView(s: State, t: State, ids: set<int>, e: int, handler: Handler)
    requires Ready(s, ids) && Passed(s, t, e, handler)
    ensures Ready(t, ids) && ViewOf(t) == Poll(s.signed, ViewOf(s), e, handler)
  {
    if TakesOwn(s, e) {
      BytesAppend(s.replies, ReplyTo(s.queue[0], handler.Status(s.queue[0].content)));
    }
    hide BytesOf, StatusFrame, Handler.Effect, Handler.Status;
  }

  lemma EndpointPassRuns(s0: State, ids: set<int>, steps: seq<Step>, e: int, status: int) returns (more: seq<Step>)
    requires Ready(AtomicExec(s0, steps), ids) && e in ids
    ensures var s, t := AtomicExec(s0, steps), AtomicExec(s0, more);
            && Ready(t, ids) && t.signed == s.signed && t.frames == s.frames
            && ViewOf(t) == Poll(s.signed, ViewOf(s), e, HandlerOf(e, status))
  {
    var s := AtomicExec(s0, steps);
    var t;
    more, t := PassSteps(s0, steps, s, e, status);
    PassView(s, t, ids, e, HandlerOf(e, status));
    hide AtomicExec, Ready, ViewOf, Poll, Handler.Effect, Handler.Status;
  }

  /** Every sequence of calls is a run with the same outcome. */
  lemma {:induction false} CallsAreRuns(signed: bool, ids: set<int>, calls: seq<Call>) returns (steps: seq<Step>)
    requires PassesAreOf(calls, ids)
    ensures var s := AtomicExec(Init(signed, ids), steps);
            && Ready(s, ids) && s.signed == signed && s.frames == Arrivals(calls)
            && ViewOf(s) == PerformAll(signed, View(None, [], map[]), calls)
  {
    var s0 := Init(signed, ids);
    if calls == [] {
      steps := [];
      assert BytesOf([]) == [];
    } else {
      steps := CallsAreRuns(signed, ids, calls[..|calls| - 1]);
      hide AtomicExec, Init, Ready, Deliver, Poll, ViewOf;
      match calls[|calls| - 1]
      case Event(frame, memory) =>
        if memory {
          steps := AcceptedEvent(s0, ids, steps, frame);
        } else {
          steps := RefusedEvent(s0, ids, steps, frame);
        }
      case EndpointPass(e, status) => steps := EndpointPassRuns(s0, ids, steps, e, status);
    }
  }

  /** So any sequence of calls answers every frame that left the slot exactly once,
      keeps memory safe and leaves the pins the answered commands ask for. */
  lemma CallsKeepThePromises(signed: bool, ids: set<int>, calls: seq<Call>) returns (s: State)
    requires PassesAreOf(calls, ids)
    ensures s.frames == Arrivals(calls) && ViewOf(s) == PerformAll(signed, View(None, [], map[]), calls)
    ensures ExactlyOnce(s) && Idle(s) && MemorySafe(s)
    ensures s.pins == PinFold(signed, s.frames, AnsweredOk(s), |s.frames|)
    ensures forall r :: r in s.replies ==> r.n < |s.frames| && AnswersFrame(r.bytes, s.frames[r.n], r.status)
    ensures forall r :: r in s.replies && s.frames[r.n][0] == 1 ==> SaysItAll(s, r)
  {
    var steps := CallsAreRuns(signed, ids, calls);
    s := AtomicExec(Init(signed, ids), steps);
    AtomicRunsAreSafe(signed, ids, steps);
    AtomicIsFine(Init(signed, ids), steps);
    RunIsOrdered(signed, ids, Flatten(Init(signed, ids), steps));
    hide Exec, Init, AtomicExec, Flatten, PinFold, AnsweredOk, ExactlyOnce, MemorySafe, ViewOf, PerformAll, AnswersFrame;
    AtomicRunsCarryOutTheAnswered(signed, ids, steps);
    AtomicRunIsUninterrupted(signed, ids, steps);
    var fine := Flatten(Init(signed, ids), steps);
    hide Handled, CommandStatus, NobodyPeeked, AlwaysUninterrupted, AlwaysUndisturbed, GpioAnswering, RepliesInv, Ordered;
    UninterruptedIsUndisturbed(Init(signed, ids), fine);
    forall r | r in s.replies && s.frames[r.n][0] == 1
      ensures SaysItAll(s, r)
    {
      GpioRepliesTell(signed, ids, fine, r);
    }
  }
}
