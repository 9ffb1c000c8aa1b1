/**
 What every interleaving of the mailbox keeps, however the queue calls of the
 producer and of the endpoint tasks alternate.
 */
module MailboxOrder {
  import opened Frames
  import opened MailboxProtocol

  /** The message is the parsed form of the frame its arrival number names. */
  ghost predicate Genuine(s: State, m: Msg) {
    m.n < |s.frames| && m.content == Parse(s.signed, s.frames[m.n])
  }

  ghost predicate QueueInv(s: State) {
    && |s.queue| <= 1
    && -1 <= s.newest < |s.frames|
    && (s.queue != [] ==> s.queue[0].n == s.newest && Genuine(s, s.queue[0]))
    && (QueueEmptied(s.producer) ==> s.queue == [])
  }

  ghost predicate ProducerInv(s: State) {
    match s.producer
    case Listening => true
    case Refusing(n, frame) => n == |s.frames| - 1 && frame == s.frames[n] && s.newest < n
    case Evicting(m, prev) => Newest(s, m) && Genuine(s, prev) && prev.n <= s.newest
    case DroppingBody(m, prev) => Newest(s, m) && Genuine(s, prev) && prev.n <= s.newest
    case DroppingMessage(m, prev) => Newest(s, m) && Genuine(s, prev) && prev.n <= s.newest
    case Checking(m) => Newest(s, m)
    case Receiving(m) => Newest(s, m)
    case Clearing(m) => Newest(s, m)
    case Posting(m) => Newest(s, m)
  }

  ghost predicate Newest(s: State, m: Msg) {
    Genuine(s, m) && m.n == |s.frames| - 1 && s.newest < m.n
  }

  ghost predicate ConsumerInv(s: State, e: int, c: ConsumerPc) {
    HoldsInv(s, e, c) && UnhandledInv(s, e, c)
  }

  ghost predicate HoldsInv(s: State, e: int, c: ConsumerPc) {
    && (HasPeeked(c) || HasTaken(c) ==> Genuine(s, c.m) && c.m.n <= s.newest)
    && (c.Taking? || HasTaken(c) ==> c.m.content.endpointId == e)
    && (HasTaken(c) && s.queue != [] ==> c.m.n < s.queue[0].n)
  }

  /** A task that is about to handle a message has handled only older ones. */
  ghost predicate UnhandledInv(s: State, e: int, c: ConsumerPc) {
    HasPeeked(c) || c.Handling? ==>
      forall h :: h in s.handled && h.id == e ==> h.m.n < c.m.n
  }

  ghost predicate HandledInv(s: State) {
    && (forall h :: h in s.handled ==> RanProperly(s, h))
    && HandledInOrder(s)
  }

  ghost predicate RanProperly(s: State, h: HandlerRun) {
    && Genuine(s, h.m) && h.m.content.endpointId == h.id && h.m.n <= s.newest
    && (s.queue != [] ==> h.m.n < s.queue[0].n)
  }

  /** Each task's handler runs on strictly increasing arrival numbers. */
  ghost predicate HandledInOrder(s: State) {
    forall i, j :: 0 <= i < j < |s.handled| && s.handled[i].id == s.handled[j].id
      ==> s.handled[i].m.n < s.handled[j].m.n
  }

  ghost predicate RepliesInv(s: State) {
    forall r :: r in s.replies ==> r.n < |s.frames| && AnswersFrame(r.bytes, s.frames[r.n], r.status)
  }

  ghost predicate Ordered(s: State) {
    && QueueInv(s)
    && ProducerInv(s)
    && (forall e :: e in s.consumers ==> ConsumerInv(s, e, s.consumers[e]))
    && HandledInv(s)
    && RepliesInv(s)
  }

  lemma ArriveKeepsOrder(s: State, frame: Frame, memory: bool)
    requires Ordered(s)
    ensures Ordered(Next(s, Arrive(frame, memory)))
  {
    var t := Next(s, Arrive(frame, memory));
    assert forall m :: Genuine(s, m) ==> Genuine(t, m);
    forall e | e in t.consumers ensures ConsumerInv(t, e, t.consumers[e]) {
      assert ConsumerInv(s, e, s.consumers[e]);
    }
  }

  lemma ReplyIsGenuine(s: State, m: Msg, status: int)
    requires Genuine(s, m)
    ensures AnswersFrame(ReplyTo(m, status).bytes, s.frames[m.n], status)
  {
    StatusNamesFrame(s.signed, s.frames[m.n], status);
  }

  lemma ProducerKeepsQueue(s: State)
    requires QueueInv(s) && ProducerInv(s)
    ensures QueueInv(ProducerNext(s))
  {
  }

  lemma ProducerKeepsProducer(s: State)
    requires QueueInv(s) && ProducerInv(s)
    ensures ProducerInv(ProducerNext(s))
  {
  }

  lemma ProducerTouchesOnly(s: State)
    ensures var t := ProducerNext(s);
            && t.frames == s.frames && t.signed == s.signed && t.refused == s.refused
            && t.handled == s.handled && t.consumers == s.consumers && t.pins == s.pins
  {
    hide Parse, ReplyTo, StatusFrame, Send, Heap.ReadMessage, Heap.FreeBody, Heap.FreeMessage;
  }

  /** What the producer can do to the queue: nothing, take its message out, or put a newer one in. */
  lemma ProducerMovesQueue(s: State)
    requires QueueInv(s) && ProducerInv(s)
    ensures var t := ProducerNext(s);
            || (t.queue == s.queue && t.newest == s.newest)
            || (t.queue == [] && t.newest == s.newest)
            || (s.queue == [] && |t.queue| == 1 && s.newest < t.newest == t.queue[0].n)
  {
    hide Genuine, ReplyTo, StatusFrame, Heap.ReadMessage, Heap.FreeBody, Heap.FreeMessage;
  }

  lemma ProducerKeepsHandled(s: State)
    requires QueueInv(s) && ProducerInv(s) && HandledInv(s)
    ensures HandledInv(ProducerNext(s))
  {
    ProducerTouchesOnly(s);
    ProducerMovesQueue(s);
    hide ProducerNext, ProducerInv;
  }

  lemma ProducerKeepsConsumer(s: State, e: int)
    requires QueueInv(s) && ProducerInv(s) && e in s.consumers && ConsumerInv(s, e, s.consumers[e])
    ensures ConsumerInv(ProducerNext(s), e, s.consumers[e])
  {
    ProducerTouchesOnly(s);
    ProducerMovesQueue(s);
    hide ProducerNext, ProducerInv;
  }

  lemma ProducerKeepsReplies(s: State)
    requires ProducerInv(s) && RepliesInv(s)
    ensures RepliesInv(ProducerNext(s))
  {
    if s.producer.Refusing? {
      StatusNamesFrame(s.signed, s.producer.frame, ERR_NOT_ENOUGH_MEMORY);
    } else if s.producer.Evicting? {
      ReplyIsGenuine(s, s.producer.prev, ERR_NOT_RECEIVED);
    }
  }

  lemma ProducerKeepsOrder(s: State)
    requires Ordered(s)
    ensures Ordered(ProducerNext(s))
  {
    ProducerKeepsQueue(s);
    ProducerKeepsProducer(s);
    ProducerKeepsHandled(s);
    ProducerKeepsReplies(s);
    ProducerTouchesOnly(s);
    ProducerMovesQueue(s);
    forall e | e in s.consumers ensures ConsumerInv(ProducerNext(s), e, s.consumers[e]) {
      ProducerKeepsConsumer(s, e);
    }
    hide ProducerNext, ProducerInv, ConsumerInv, QueueInv, HandledInv, RepliesInv;
  }

  /** What an endpoint task can do to the queue: nothing, or empty it. */
  lemma ConsumerMovesQueue(s: State, e: int, status: int)
    requires e in s.consumers
    ensures var t := ConsumerNext(s, e, status);
            && t.frames == s.frames && t.signed == s.signed && t.newest == s.newest && t.producer == s.producer
            && t.consumers == s.consumers[e := t.consumers[e]]
            && (t.queue == s.queue || t.queue == [])
            && t.handled == if s.consumers[e].Handling? then s.handled + [HandlerRun(e, s.consumers[e].m)] else s.handled
  {
    hide ReplyTo, GpioEffect, GpioStatus, Heap.ReadMessage, Heap.ReadBody, Heap.FreeBody, Heap.FreeMessage;
  }

  lemma ConsumerKeepsQueue(s: State, e: int, status: int)
    requires QueueInv(s) && ProducerInv(s) && e in s.consumers
    ensures QueueInv(ConsumerNext(s, e, status)) && ProducerInv(ConsumerNext(s, e, status))
  {
    ConsumerMovesQueue(s, e, status);
    hide ConsumerNext;
  }

  lemma LaterRunKeepsOrder(s: State, t: State, h: HandlerRun)
    requires HandledInOrder(s) && t.handled == s.handled + [h]
    requires forall other :: other in s.handled && other.id == h.id ==> other.m.n < h.m.n
    ensures HandledInOrder(t)
  {
  }

  lemma ConsumerKeepsHandled(s: State, e: int, status: int)
    requires HandledInv(s) && e in s.consumers && ConsumerInv(s, e, s.consumers[e])
    ensures HandledInv(ConsumerNext(s, e, status))
  {
    ConsumerMovesQueue(s, e, status);
    var c := s.consumers[e];
    var t := ConsumerNext(s, e, status);
    hide ConsumerNext, HandledInOrder, Parse;
    if c.Handling? {
      LaterRunKeepsOrder(s, t, HandlerRun(e, c.m));
    } else {
      SameHandledSameOrder(s, t);
    }
    hide UnhandledInv;
    forall h | h in t.handled ensures RanProperly(t, h) {
      assert h in s.handled || h == HandlerRun(e, c.m);
    }
  }

  lemma SameHandledSameOrder(s: State, t: State)
    requires t.handled == s.handled
    ensures HandledInOrder(s) == HandledInOrder(t)
  {
  }

  lemma ConsumerKeepsReplies(s: State, e: int, status: int)
    requires RepliesInv(s) && e in s.consumers && ConsumerInv(s, e, s.consumers[e])
    ensures RepliesInv(ConsumerNext(s, e, status))
  {
    var c := s.consumers[e];
    if c.Answering? {
      ReplyIsGenuine(s, c.m, c.status);
    }
  }

  lemma ConsumerKeepsSelf(s: State, e: int, status: int)
    requires QueueInv(s) && e in s.consumers && HoldsInv(s, e, s.consumers[e])
    ensures HoldsInv(ConsumerNext(s, e, status), e, ConsumerNext(s, e, status).consumers[e])
  {
    ConsumerMovesQueue(s, e, status);
    hide Parse, GpioEffect, GpioStatus, ReplyTo;
  }

  /** A task that is about to handle a message peeked it just now or had it before. */
  lemma ConsumerMeans(s: State, e: int, status: int)
    requires e in s.consumers
    ensures var c, d := s.consumers[e], ConsumerNext(s, e, status).consumers[e];
            HasPeeked(d) || d.Handling? ==>
              if c.Peeking? then s.queue != [] && d.m == s.queue[0] else HasPeeked(c) && d.m == c.m
  {
    hide ReplyTo, GpioEffect, GpioStatus, Heap.ReadMessage, Heap.ReadBody, Heap.FreeBody, Heap.FreeMessage;
  }

  lemma ConsumerKeepsUnhandled(s: State, e: int, status: int)
    requires HandledInv(s) && e in s.consumers && UnhandledInv(s, e, s.consumers[e])
    ensures UnhandledInv(ConsumerNext(s, e, status), e, ConsumerNext(s, e, status).consumers[e])
  {
    ConsumerMovesQueue(s, e, status);
    ConsumerMeans(s, e, status);
    hide ConsumerNext, HandledInOrder, Genuine;
  }

  lemma ConsumerKeepsOther(s: State, e: int, status: int, d: int)
    requires e in s.consumers && d in s.consumers && e != d
    requires ConsumerInv(s, e, s.consumers[e]) && ConsumerInv(s, d, s.consumers[d])
    ensures ConsumerInv(ConsumerNext(s, e, status), d, s.consumers[d])
  {
    ConsumerMovesQueue(s, e, status);
    hide ConsumerNext;
  }

  lemma ConsumerKeepsOrder(s: State, e: int, status: int)
    requires Ordered(s) && e in s.consumers
    ensures Ordered(ConsumerNext(s, e, status))
  {
    ConsumerKeepsQueue(s, e, status);
    ConsumerKeepsHandled(s, e, status);
    ConsumerKeepsReplies(s, e, status);
    ConsumerKeepsSelf(s, e, status);
    ConsumerKeepsUnhandled(s, e, status);
    ConsumerMovesQueue(s, e, status);
    var t := ConsumerNext(s, e, status);
    hide ConsumerNext, ProducerInv, ConsumerInv, QueueInv, HandledInv, RepliesInv;
    forall d | d in t.consumers ensures ConsumerInv(t, d, t.consumers[d]) {
      if d != e {
        ConsumerKeepsOther(s, e, status, d);
      }
    }
  }

  lemma StepKeepsOrder(s: State, step: Step)
    requires Ordered(s)
    ensures Ordered(Next(s, step))
  {
    match step
    case Arrive(frame, memory) => ArriveKeepsOrder(s, frame, memory);
    case Producer => ProducerKeepsOrder(s);
    case Consumer(e, status) => if e in s.consumers { ConsumerKeepsOrder(s, e, status); }
  }

  lemma {:induction false} RunIsOrdered(signed: bool, ids: set<int>, steps: seq<Step>)
    ensures Ordered(Exec(Init(signed, ids), steps))
  {
    if steps != [] {
      hide Next;
      RunIsOrdered(signed, ids, steps[..|steps| - 1]);
      StepKeepsOrder(Exec(Init(signed, ids), steps[..|steps| - 1]), steps[|steps| - 1]);
    }
  }

  // ------------------------------------------------------------ what it means

  /** The enqueue never finds the queue full, and the fallback reset never
      discards a message. */
  lemma QueueNeverLosesAMessage(signed: bool, ids: set<int>, steps: seq<Step>)
    ensures var s := Exec(Init(signed, ids), steps);
            && |s.queue| <= 1
            && (s.producer.Posting? ==> Send(s.queue, s.producer.m) == [s.producer.m])
            && (s.producer.Clearing? ==> s.queue == [])
  {
    RunIsOrdered(signed, ids, steps);
  }

  /** Step `k` of the run enqueues `m`. */
  ghost predicate EnqueuesAt(s: State, steps: seq<Step>, k: nat, m: Msg) {
    k < |steps| && steps[k] == Producer && Exec(s, steps[..k]).producer == Posting(m)
  }

  /** Step `k` enqueues `m`, and no later step enqueues anything. */
  ghost predicate LastEnqueuedAt(s: State, steps: seq<Step>, k: nat, m: Msg) {
    EnqueuesAt(s, steps, k, m) && forall j: nat, other :: EnqueuesAt(s, steps, j, other) ==> j <= k
  }

  lemma EnqueuesInFront(s: State, steps: seq<Step>, k: nat, m: Msg)
    requires k < |steps| - 1
    ensures EnqueuesAt(s, steps[..|steps| - 1], k, m) == EnqueuesAt(s, steps, k, m)
  {
    assert steps[..|steps| - 1][..k] == steps[..k];
    hide Exec;
  }

  lemma QueueBefore(s: State, step: Step)
    requires QueueInv(s) && Next(s, step).queue != []
    ensures var q := Next(s, step).queue[0];
            if step == Producer && s.producer.Posting? then s.producer.m == q else s.queue == [q]
  {
    match step
    case Arrive(_, _) =>
    case Producer =>
      hide ReplyTo, StatusFrame, Heap.ReadMessage, Heap.FreeBody, Heap.FreeMessage;
    case Consumer(e, status) =>
      if e in s.consumers {
        ConsumerMovesQueue(s, e, status);
      }
  }

  lemma QueueBeforeLastStep(signed: bool, ids: set<int>, steps: seq<Step>)
    requires Exec(Init(signed, ids), steps).queue != []
    ensures steps != []
    ensures var s := Exec(Init(signed, ids), steps[..|steps| - 1]);
            var q := Exec(Init(signed, ids), steps).queue[0];
            if steps[|steps| - 1] == Producer && s.producer.Posting? then s.producer.m == q else s.queue == [q]
  {
    hide Next;
    if steps != [] {
      ExecStep(Init(signed, ids), steps);
      RunIsOrdered(signed, ids, steps[..|steps| - 1]);
      hide Exec, Init;
      QueueBefore(Exec(Init(signed, ids), steps[..|steps| - 1]), steps[|steps| - 1]);
    }
  }

  /** What the queue holds is the newest message ever enqueued. */
  lemma {:induction false} QueueHoldsTheNewest(signed: bool, ids: set<int>, steps: seq<Step>) returns (k: nat)
    requires Exec(Init(signed, ids), steps).queue != []
    ensures LastEnqueuedAt(Init(signed, ids), steps, k, Exec(Init(signed, ids), steps).queue[0])
  {
    QueueBeforeLastStep(signed, ids, steps);
    hide Next, Exec, Init;
    var s0 := Init(signed, ids);
    var last := |steps| - 1;
    var front := steps[..last];
    var q := Exec(s0, steps).queue[0];
    if steps[last] == Producer && Exec(s0, front).producer.Posting? {
      k := last;
      assert EnqueuesAt(s0, steps, k, q);
    } else {
      k := QueueHoldsTheNewest(signed, ids, front);
      EnqueuesInFront(s0, steps, k, q);
      forall j: nat, other | EnqueuesAt(s0, steps, j, other) ensures j <= k {
        if j < last {
          EnqueuesInFront(s0, steps, j, other);
        }
      }
    }
  }

  /** No handler runs twice on one message or out of arrival order, and a task runs
      its handler only on messages addressed to that task. */
  lemma HandlersRunInArrivalOrder(signed: bool, ids: set<int>, steps: seq<Step>)
    ensures var s := Exec(Init(signed, ids), steps);
            && (forall h :: h in s.handled ==> Genuine(s, h.m) && h.m.content.endpointId == h.id)
            && forall i, j :: 0 <= i < j < |s.handled| && s.handled[i].id == s.handled[j].id
                 ==> s.handled[i].m.n < s.handled[j].m.n
  {
    RunIsOrdered(signed, ids, steps);
  }

  /** Every status reply, on every path, carries its frame's endpoint and message-id bytes. */
  lemma RepliesNameTheirFrames(signed: bool, ids: set<int>, steps: seq<Step>)
    ensures RepliesInv(Exec(Init(signed, ids), steps))
  {
    RunIsOrdered(signed, ids, steps);
  }
}
