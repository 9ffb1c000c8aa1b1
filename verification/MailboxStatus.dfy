/**
 What the status bytes say: which arrival a reply answers and what became of it, in the
 bytes themselves.
 */
module MailboxStatus {
  import opened Bytes
  import opened Frames
  import opened MailboxProtocol
  import opened MailboxOrder
  import opened MailboxAnswers
  import opened MailboxEffects

  /** The status byte of a GPIO command by its type byte: 0 for set-input, set-high,
      set-low and reset, 3 for anything else. */
  function CommandStatus(frame: Frame): byte {
    if frame[2] == 1 || frame[2] == 2 || frame[2] == 3 || frame[2] == 5 then 0 else 3
  }

  lemma CommandStatusIsGpio(signed: bool, frame: Frame)
    ensures GpioStatus(Parse(signed, frame)) == CommandStatus(frame) as int
  {
  }

  /** The step adds one reply: on arrival `n`, with this status byte. */
  ghost predicate Replies(s: State, t: State, n: nat, status: byte) {
    && n < |s.frames|
    && |t.replies| == |s.replies| + 1 && t.replies[..|s.replies|] == s.replies
    && var r := t.replies[|s.replies|];
       r.n == n && r.bytes == [s.frames[n][0], status, s.frames[n][1]]
  }

  /** What the producer's step tells the server: 1 for the frame it had no memory for, 2
      for the message it evicts, and nothing else. */
  ghost predicate ProducerTells(s: State, t: State) {
    match s.producer
    case Refusing(n, frame) => n == |s.frames| - 1 && Replies(s, t, n, 1)
    case Evicting(_, prev) => Replies(s, t, prev.n, 2)
    case _ => t.replies == s.replies
  }

  /** What an endpoint task's step tells the server: its handler's status, once the handler
      has run; the GPIO handler's is that of the command. */
  ghost predicate ConsumerTells(s: State, t: State, e: int, status: int)
    requires e in s.consumers && e in t.consumers
  {
    match s.consumers[e]
    case Handling(m) =>
      && m.n < |s.frames| && t.replies == s.replies
      && t.consumers[e] == Answering(m, if e == 1 then CommandStatus(s.frames[m.n]) as int else status)
    case Answering(m, answer) =>
      && Replies(s, t, m.n, IntToChar(answer))
      && CharToInt(s.signed, s.frames[m.n][0]) == e
      && (e == 1 ==> answer == CommandStatus(s.frames[m.n]) as int)
    case _ => t.replies == s.replies
  }

  ghost predicate StepTells(s: State, step: Step) {
    var t := Next(s, step);
    match step
    case Arrive(_, _) => t.replies == s.replies
    case Producer => ProducerTells(s, t)
    case Consumer(e, status) =>
      if e in s.consumers then e in t.consumers && ConsumerTells(s, t, e, status) else t.replies == s.replies
  }

  lemma StatusFrameOf(signed: bool, frame: Frame, status: int)
    ensures var m := Parse(signed, frame);
            StatusFrame(m.endpointId, m.messageId, status) == [frame[0], IntToChar(status), frame[1]]
  {
    StatusNamesFrame(signed, frame, status);
  }

  lemma ProducerTellsIt(s: State)
    requires QueueInv(s) && ProducerInv(s)
    ensures ProducerTells(s, ProducerNext(s))
  {
    hide Parse, Heap.ReadMessage, Heap.FreeBody, Heap.FreeMessage, MailboxProtocol.Send, StatusFrame, IntToChar;
    match s.producer
    case Refusing(n, frame) =>
      StatusFrameOf(s.signed, frame, 1);
      HeaderIds(s.signed, frame);
      assert IntToChar(1) == 1 by { SmallStatus(1); }
    case Evicting(_, prev) =>
      StatusFrameOf(s.signed, s.frames[prev.n], 2);
      assert IntToChar(2) == 2 by { SmallStatus(2); }
    case _ =>
  }

  lemma SmallStatus(i: int)
    requires 0 <= i < 256
    ensures IntToChar(i) as int == i
  {
  }

  lemma HeaderIds(signed: bool, frame: Frame)
    ensures var m := Parse(signed, frame);
            m.endpointId == CharToInt(signed, frame[0]) && m.messageId == CharToInt(signed, frame[1])
  {
  }

  lemma ConsumerTellsIt(s: State, e: int, status: int)
    requires e in s.consumers && ConsumerInv(s, e, s.consumers[e]) && AnsweringInv(s)
    ensures ConsumerTells(s, ConsumerNext(s, e, status), e, status)
  {
    ConsumerReplies(s, e, status);
    var c := s.consumers[e];
    if c.Answering? || c.Handling? {
      var frame := s.frames[c.m.n];
      CommandStatusIsGpio(s.signed, frame);
      HeaderIds(s.signed, frame);
      if c.Answering? {
        StatusFrameOf(s.signed, frame, c.status);
      }
    }
    hide Parse, GpioStatus, GpioEffect, StatusFrame, UnhandledInv, CommandStatus, IntToChar, CharToInt;
    hide Heap.ReadMessage, Heap.ReadBody, Heap.FreeBody, Heap.FreeMessage;
  }

  /** In every interleaving, every step that tells the server something and no other: an
      arrival without memory is answered 1, an evicted message 2, and a command the GPIO
      task has carried out 0 or, if its type is unknown, 3. */
  lemma EveryStepTells(signed: bool, ids: set<int>, steps: seq<Step>, step: Step)
    ensures StepTells(Exec(Init(signed, ids), steps), step)
  {
    var s := Exec(Init(signed, ids), steps);
    RunIsOrdered(signed, ids, steps);
    RunKeepsPins(signed, ids, steps);
    hide Exec, Init, ProducerTells, ConsumerTells, ProducerNext, ConsumerNext;
    match step
    case Arrive(_, _) =>
    case Producer => ProducerTellsIt(s);
    case Consumer(e, status) =>
      if e in s.consumers {
        ConsumerMovesQueue(s, e, status);
        ConsumerTellsIt(s, e, status);
      }
  }

  // ------------------------------------------------------- what the replies say

  predicate ProducerHasMessage(p: ProducerPc, n: nat) {
    !p.Refusing? && (ProducerHolds(p, n) || ((p.Evicting? || p.DroppingBody? || p.DroppingMessage?) && p.prev.n == n))
  }

  /** An arrival without memory never becomes a message. */
  ghost predicate RefusedIsGone(s: State, n: nat) {
    && n < |s.frames|
    && !ProducerHasMessage(s.producer, n)
    && (s.queue != [] ==> s.queue[0].n != n)
    && forall e :: e in s.consumers && (HasPeeked(s.consumers[e]) || HasTaken(s.consumers[e])) ==> s.consumers[e].m.n != n
  }

  ghost predicate RefusedApart(s: State) {
    && (forall n :: n in s.refused ==> RefusedIsGone(s, n))
    && (s.producer.Refusing? ==> s.producer.n in s.refused)
  }

  lemma ArriveKeepsRefused(s: State, frame: Frame, memory: bool)
    requires Ordered(s) && RefusedApart(s)
    ensures RefusedApart(Next(s, Arrive(frame, memory)))
  {
    var t := Next(s, Arrive(frame, memory));
    hide Parse, HandledInv, RepliesInv;
    forall n | n in t.refused ensures RefusedIsGone(t, n) {
      forall e | e in s.consumers ensures ConsumerInv(s, e, s.consumers[e]) {
      }
      if n < |s.frames| {
        assert RefusedIsGone(s, n);
      }
    }
  }

  lemma ProducerKeepsRefused(s: State)
    requires QueueInv(s) && RefusedApart(s)
    ensures RefusedApart(ProducerNext(s))
  {
    ProducerTouchesOnly(s);
    hide ReplyTo, StatusFrame, Genuine, Heap.ReadMessage, Heap.FreeBody, Heap.FreeMessage;
    forall n | n in s.refused ensures RefusedIsGone(ProducerNext(s), n) {
      assert RefusedIsGone(s, n);
    }
  }

  lemma ConsumerKeepsRefused(s: State, e: int, status: int)
    requires e in s.consumers && RefusedApart(s)
    ensures RefusedApart(ConsumerNext(s, e, status))
  {
    var t := ConsumerNext(s, e, status);
    ConsumerMovesQueue(s, e, status);
    ConsumerKeepsItsMessage(s, e, status);
    assert t.refused == s.refused by { hide ReplyTo, GpioEffect, GpioStatus; }
    hide ConsumerNext, ProducerHasMessage;
    forall n | n in s.refused ensures RefusedIsGone(t, n) {
      assert RefusedIsGone(s, n);
    }
  }

  /** The message a task has it had before or has just peeked. */
  lemma ConsumerKeepsItsMessage(s: State, e: int, status: int)
    requires e in s.consumers
    ensures var c, d := s.consumers[e], ConsumerNext(s, e, status).consumers[e];
            HasPeeked(d) || HasTaken(d) ==>
              ((HasPeeked(c) || HasTaken(c)) && d.m == c.m) || (s.queue != [] && d.m == s.queue[0])
  {
    hide ReplyTo, GpioEffect, GpioStatus, Heap.ReadMessage, Heap.ReadBody, Heap.FreeBody, Heap.FreeMessage;
  }

  /** What a reply says: 1 stands for an arrival without memory and only for that; any
      other that is not 2 is the answer of a handler, for the GPIO endpoint the command's. */
  ghost predicate Told(s: State, r: Reply) {
    && r.n < |s.frames|
    && var frame := s.frames[r.n];
       && |r.bytes| == 3 && r.bytes[0] == frame[0] && r.bytes[2] == frame[1]
       && if r.n in s.refused then r.bytes[1] == 1
          else r.bytes[1] == 2 || (r.n in Handled(s) && (frame[0] == 1 ==> r.bytes[1] == CommandStatus(frame)))
  }

  ghost predicate ToldInv(s: State) {
    && (forall r :: r in s.replies ==> Told(s, r))
    && (forall e :: e in s.consumers && s.consumers[e].Answering? ==> s.consumers[e].m.n in Handled(s))
  }

  /** Nothing that a reply says of an old arrival changes. */
  lemma ToldStays(s: State, t: State, r: Reply)
    requires Told(s, r) && s.frames <= t.frames && Handled(s) <= Handled(t)
    requires forall n :: n < |s.frames| ==> (n in t.refused <==> n in s.refused)
    ensures Told(t, r)
  {
    hide Handled, CommandStatus;
  }

  lemma StepGrows(s: State, step: Step)
    ensures var t := Next(s, step);
            && s.frames <= t.frames && Handled(s) <= Handled(t)
            && forall n :: n < |s.frames| ==> (n in t.refused <==> n in s.refused)
  {
    match step
    case Arrive(_, _) =>
    case Producer =>
      ProducerTouchesOnly(s);
      hide ProducerNext;
    case Consumer(e, status) =>
      if e in s.consumers {
        ConsumerMovesQueue(s, e, status);
        assert ConsumerNext(s, e, status).refused == s.refused by { hide ReplyTo, GpioEffect, GpioStatus; }
        hide ConsumerNext;
      }
  }

  lemma EvictedHadMemory(s: State)
    requires RefusedApart(s) && s.producer.Evicting?
    ensures s.producer.prev.n !in s.refused
  {
    assert s.producer.prev.n in s.refused ==> RefusedIsGone(s, s.producer.prev.n);
  }

  lemma AnsweredHadMemory(s: State, e: int)
    requires RefusedApart(s) && e in s.consumers && s.consumers[e].Answering?
    ensures s.consumers[e].m.n !in s.refused
  {
    assert s.consumers[e].m.n in s.refused ==> RefusedIsGone(s, s.consumers[e].m.n);
  }

  lemma NewReplyIsTold(s: State, step: Step, r: Reply)
    requires RefusedApart(s) && ToldInv(s) && StepTells(s, step)
    requires r in Next(s, step).replies && r !in s.replies
    ensures Told(Next(s, step), r)
  {
    var t := Next(s, step);
    StepGrows(s, step);
    hide Next, CommandStatus, IntToChar;
    assert forall x :: x in t.replies[..|s.replies|] ==> x in t.replies;
    match step
    case Arrive(_, _) =>
    case Producer =>
      if s.producer.Evicting? {
        EvictedHadMemory(s);
        assert t.replies == s.replies + [t.replies[|s.replies|]];
      } else if s.producer.Refusing? {
        assert t.replies == s.replies + [t.replies[|s.replies|]];
      }
    case Consumer(e, status) =>
      if e in s.consumers && s.consumers[e].Answering? {
        var m := s.consumers[e].m;
        AnsweredHadMemory(s, e);
        assert t.replies == s.replies + [t.replies[|s.replies|]];
        SmallStatus(CommandStatus(s.frames[m.n]) as int);
      }
  }

  lemma StepKeepsRefused(s: State, step: Step)
    requires Ordered(s) && RefusedApart(s)
    ensures RefusedApart(Next(s, step))
  {
    hide Ordered, RefusedApart, ProducerNext, ConsumerNext;
    match step
    case Arrive(frame, memory) => ArriveKeepsRefused(s, frame, memory);
    case Producer => ProducerKeepsRefused(s) by { QueueIsSound(s); }
    case Consumer(e, status) => if e in s.consumers { ConsumerKeepsRefused(s, e, status); }
  }

  lemma QueueIsSound(s: State)
    requires Ordered(s)
    ensures QueueInv(s)
  {
  }

  lemma StepKeepsHandlers(s: State, step: Step)
    requires forall e :: e in s.consumers && s.consumers[e].Answering? ==> s.consumers[e].m.n in Handled(s)
    ensures var t := Next(s, step);
            forall e :: e in t.consumers && t.consumers[e].Answering? ==> t.consumers[e].m.n in Handled(t)
  {
    StepGrows(s, step);
    match step
    case Arrive(_, _) =>
    case Producer =>
      ProducerTouchesOnly(s);
      hide ProducerNext;
    case Consumer(e, status) =>
      if e in s.consumers {
        ConsumerMovesQueue(s, e, status);
        ConsumerReplies(s, e, status);
        if s.consumers[e].Handling? {
          AnsweringWhatWasHandled(s, e, status);
        }
        hide ConsumerNext;
      }
  }

  lemma AnsweringWhatWasHandled(s: State, e: int, status: int)
    requires e in s.consumers && s.consumers[e].Handling?
    ensures var d := ConsumerNext(s, e, status).consumers[e];
            d.Answering? && d.m == s.consumers[e].m && d.m.n in Handled(ConsumerNext(s, e, status))
  {
    var t := ConsumerNext(s, e, status);
    assert HandlerRun(e, s.consumers[e].m) in t.handled;
    hide GpioEffect, GpioStatus;
  }

  lemma StepKeepsTold(s: State, step: Step)
    requires RefusedApart(s) && ToldInv(s) && StepTells(s, step)
    ensures ToldInv(Next(s, step))
  {
    var t := Next(s, step);
    StepGrows(s, step);
    StepKeepsHandlers(s, step);
    hide Next, StepTells, RefusedApart, Told, Handled;
    forall r | r in t.replies ensures Told(t, r) {
      if r in s.replies {
        ToldStays(s, t, r);
      } else {
        NewReplyIsTold(s, step, r);
      }
    }
  }

  lemma {:induction false} RunKeepsTold(signed: bool, ids: set<int>, steps: seq<Step>)
    ensures RefusedApart(Exec(Init(signed, ids), steps)) && ToldInv(Exec(Init(signed, ids), steps))
  {
    if steps != [] {
      var front, last := steps[..|steps| - 1], steps[|steps| - 1];
      hide Next, RefusedApart, ToldInv, Ordered, StepTells;
      RunKeepsTold(signed, ids, front);
      RunIsOrdered(signed, ids, front);
      EveryStepTells(signed, ids, front, last);
      StepKeepsRefused(Exec(Init(signed, ids), front), last);
      StepKeepsTold(Exec(Init(signed, ids), front), last);
    }
  }

  /** In every interleaving every reply names its frame, says 1 exactly when the arrival
      got no memory, and else says 2 or is a handler's answer. */
  lemma EveryReplyTells(signed: bool, ids: set<int>, steps: seq<Step>, r: Reply)
    requires r in Exec(Init(signed, ids), steps).replies
    ensures Told(Exec(Init(signed, ids), steps), r)
  {
    RunKeepsTold(signed, ids, steps);
    hide Exec, Init, Told;
  }

  /** The whole answer to a GPIO frame. */
  predicate SaysItAll(s: State, r: Reply)
    requires r.n < |s.frames|
  {
    var status := if r.n in s.refused then 1 else if r.n in Handled(s) then CommandStatus(s.frames[r.n]) else 2;
    r.bytes == [1, status, s.frames[r.n][1]]
  }

  /** For a GPIO frame, if no reset was disturbed, the status byte says it all: 1 no
      memory, 2 evicted and never carried out, and after the handler ran 0 if its type byte
      is 1, 2, 3 or 5 and 3 otherwise. */
  lemma GpioRepliesTell(signed: bool, ids: set<int>, steps: seq<Step>, r: Reply)
    requires AlwaysUndisturbed(Init(signed, ids), steps) && !GpioAnswering(Exec(Init(signed, ids), steps))
    requires r in Exec(Init(signed, ids), steps).replies
    ensures var s := Exec(Init(signed, ids), steps);
            && r.n < |s.frames|
            && (s.frames[r.n][0] == 1 ==> SaysItAll(s, r))
  {
    var s := Exec(Init(signed, ids), steps);
    EveryReplyTells(signed, ids, steps, r);
    ExactlyOnceIffUndisturbed(signed, ids, steps);
    RunIsOrdered(signed, ids, steps);
    RunKeepsPins(signed, ids, steps);
    hide Exec, Init, ExactlyOnce, Ordered, StatusInv, PinsInv, GpioAnswering, AlwaysUndisturbed, Told, SaysItAll;
    assert steps[..|steps|] == steps;
    assert ExactlyOnce(s);
    GpioReplyTells(s, r);
  }

  lemma GpioReplyTells(s: State, r: Reply)
    requires Ordered(s) && StatusInv(s) && ExactlyOnce(s) && !GpioAnswering(s)
    requires r in s.replies && Told(s, r)
    ensures r.n < |s.frames| && (s.frames[r.n][0] == 1 ==> SaysItAll(s, r))
  {
    hide Ordered, StatusInv, ExactlyOnce, GpioAnswering, Handled, CommandStatus;
    if s.frames[r.n][0] == 1 && r.n in Handled(s) {
      HandledIsAnswered(s, r);
    }
  }

  lemma HandledIsAnswered(s: State, r: Reply)
    requires Ordered(s) && StatusInv(s) && ExactlyOnce(s) && !GpioAnswering(s)
    requires r in s.replies && r.n < |s.frames| && s.frames[r.n][0] == 1 && r.n in Handled(s)
    ensures r.bytes == [1, CommandStatus(s.frames[r.n]), s.frames[r.n][1]]
  {
    var h :| h in s.handled && h.m.n == r.n;
    var frame := s.frames[r.n];
    HeaderIds(s.signed, frame);
    CommandStatusIsGpio(s.signed, frame);
    StatusFrameOf(s.signed, frame, CommandStatus(frame) as int);
    SmallStatus(CommandStatus(frame) as int);
    hide Parse, GpioStatus, StatusFrame, IntToChar, CommandStatus, ExactlyOnce, RepliesInv, AnsweringInv, OkMeansHandled;
    assert RanProperly(s, h);
    var answer := ReplyTo(h.m, GpioStatus(h.m.content));
    assert answer in s.replies;
    OneReplyEach(s, answer, r);
  }
}
