/**
 Why the peek, the comparison and the reset must not be interrupted: a run in
 which they are, and what it costs.
 */
module MailboxRace {
  import opened Frames
  import opened MailboxProtocol
  import opened MailboxAnswers

  const FIRST := Message(1, GPIO_SET_HIGH, 7, [5])
  const SECOND := Message(1, GPIO_SET_LOW, 8, [5])
  const M0 := Msg(0, FIRST)
  const M1 := Msg(1, SECOND)

  lemma Three(s: State, a: Step, b: Step, c: Step)
    ensures Exec(s, [a, b, c]) == Next(Next(Next(s, a), b), c)
  {
    var steps := [a, b, c];
    assert Exec(s, []) == s;
    hide Exec, Next;
    assert steps[..0] == [] && steps[..3] == steps;
    ExecTake(s, steps, 0);
    ExecTake(s, steps, 1);
    ExecTake(s, steps, 2);
  }

  /** The first command is in the queue. */
  ghost predicate FirstQueued(s: State, signed: bool) {
    && s.signed == signed && s.frames == [[1, 7, 2, 5]]
    && s.producer == Listening && s.queue == [M0]
    && s.consumers == map[GPIO_ENDPOINT := Polling]
    && s.replies == [] && s.pins == map[]
    && s.heap == Heap({0}, {0}, multiset{}, multiset{}, false)
  }

  lemma QueueFirst(signed: bool) returns (steps: seq<Step>)
    ensures FirstQueued(Exec(Init(signed, {GPIO_ENDPOINT}), steps), signed)
    ensures forall step :: step in steps ==> !step.Consumer?
  {
    var s0 := Init(signed, {GPIO_ENDPOINT});
    var frame: Frame := [1, 7, 2, 5];
    assert Parse(signed, frame) == FIRST;
    assert s0.consumers == map[GPIO_ENDPOINT := Polling];
    steps := [Arrive(frame, true), Producer, Producer];
    Three(s0, Arrive(frame, true), Producer, Producer);
    hide Exec, Parse;
  }

  /** The GPIO task has peeked the first command and is about to reset the queue. */
  ghost predicate AboutToTake(s: State, signed: bool) {
    s.consumers == map[GPIO_ENDPOINT := Taking(M0)] && FirstQueued(s.(consumers := map[GPIO_ENDPOINT := Polling]), signed)
  }

  lemma PeekFirst(s0: State, signed: bool) returns (steps: seq<Step>)
    requires FirstQueued(s0, signed)
    ensures AboutToTake(Exec(s0, steps), signed)
    ensures forall step :: step in steps && step.Consumer? ==> step.id == GPIO_ENDPOINT
  {
    var tick := Consumer(GPIO_ENDPOINT, 0);
    steps := [tick, tick, tick];
    Three(s0, tick, tick, tick);
    hide Exec, StatusFrame, GpioEffect, GpioStatus;
  }

  /** The producer has received the second command and is about to evict the first. */
  ghost predicate AboutToEvict(s: State, signed: bool) {
    && s.signed == signed && |s.frames| == 2
    && s.producer == Evicting(M1, M0) && s.queue == []
    && s.consumers == map[GPIO_ENDPOINT := Taking(M0)]
    && s.replies == [] && s.pins == map[]
    && s.heap == Heap({0, 1}, {0, 1}, multiset{}, multiset{}, false)
  }

  lemma ReceiveSecond(s0: State, signed: bool) returns (steps: seq<Step>)
    requires AboutToTake(s0, signed)
    ensures AboutToEvict(Exec(s0, steps), signed)
  {
    var frame: Frame := [1, 8, 3, 5];
    assert Parse(signed, frame) == SECOND;
    steps := [Arrive(frame, true), Producer, Producer];
    Three(s0, Arrive(frame, true), Producer, Producer);
    hide Exec, Parse, StatusFrame;
  }

  /** The first command is answered "not received" and freed. */
  ghost predicate Overtaken(s: State, signed: bool) {
    && s.signed == signed && |s.frames| == 2
    && s.producer == Posting(M1) && s.queue == []
    && s.consumers == map[GPIO_ENDPOINT := Taking(M0)]
    && s.replies == [ReplyTo(M0, ERR_NOT_RECEIVED)] && s.pins == map[]
    && s.heap == Heap({1}, {1}, multiset{0}, multiset{0}, false)
  }

  lemma Overtake(s0: State, signed: bool) returns (steps: seq<Step>)
    requires AboutToEvict(s0, signed)
    ensures Overtaken(Exec(s0, steps), signed)
  {
    steps := [Producer, Producer, Producer];
    Three(s0, Producer, Producer, Producer);
    hide Exec, StatusFrame;
  }

  /** The second command is lost from the queue and the first carried out. */
  ghost predicate PinMoved(s: State, signed: bool) {
    && s.signed == signed && |s.frames| == 2
    && s.producer == Listening && s.queue == []
    && s.consumers == map[GPIO_ENDPOINT := Answering(M0, MSG_OK)]
    && s.replies == [ReplyTo(M0, ERR_NOT_RECEIVED)] && s.pins == map[5 := true]
    && s.heap == Heap({1}, {1}, multiset{0}, multiset{0}, true)
  }

  lemma MovePin(s0: State, signed: bool) returns (steps: seq<Step>)
    requires Overtaken(s0, signed)
    ensures PinMoved(Exec(s0, steps), signed)
  {
    var tick := Consumer(GPIO_ENDPOINT, 0);
    steps := [Producer, tick, tick];
    Three(s0, Producer, tick, tick);
    hide Exec, StatusFrame;
  }

  /** The damage: the first command is answered both "not received" and "ok" and
      moves its pin, its memory is used and freed after it was freed, and the second
      is neither answered nor held by anyone. */
  ghost predicate Damaged(s: State) {
    && Idle(s) && |s.frames| == 2
    && s.replies == [ReplyTo(M0, ERR_NOT_RECEIVED), ReplyTo(M0, MSG_OK)]
    && s.pins == map[5 := true]
    && s.heap.fault && s.heap.freedMessages[0] == 2
    && 1 in s.heap.liveMessages
    && forall p: Place :: !IsAt(s, 1, p)
  }

  lemma NobodyHoldsTheSecond(s: State, p: Place)
    requires Idle(s) && s.queue == []
    requires s.replies == [ReplyTo(M0, ERR_NOT_RECEIVED), ReplyTo(M0, MSG_OK)]
    ensures !IsAt(s, 1, p)
  {
  }

  lemma Damage(s0: State, signed: bool) returns (steps: seq<Step>)
    requires PinMoved(s0, signed)
    ensures Damaged(Exec(s0, steps))
  {
    var tick := Consumer(GPIO_ENDPOINT, 0);
    steps := [tick, tick, tick];
    Three(s0, tick, tick, tick);
    hide StatusFrame, Exec;
    var s := Exec(s0, steps);
    assert s.consumers == map[GPIO_ENDPOINT := Polling];
    hide Next;
    forall p: Place ensures !IsAt(s, 1, p) {
      NobodyHoldsTheSecond(s, p);
    }
  }

  /** A second command that arrives between the GPIO task's peek and its reset. */
  lemma PeekThenResetRace(signed: bool) returns (steps: seq<Step>)
    ensures Damaged(Exec(Init(signed, {GPIO_ENDPOINT}), steps))
  {
    var s0 := Init(signed, {GPIO_ENDPOINT});
    hide Exec, Init, FirstQueued, AboutToTake, AboutToEvict, Overtaken, PinMoved, Damaged;
    var more;
    steps := QueueFirst(signed);
    more := PeekFirst(Exec(s0, steps), signed);
    ExecSplit(s0, steps, more);
    steps := steps + more;
    more := ReceiveSecond(Exec(s0, steps), signed);
    ExecSplit(s0, steps, more);
    steps := steps + more;
    more := Overtake(Exec(s0, steps), signed);
    ExecSplit(s0, steps, more);
    steps := steps + more;
    more := MovePin(Exec(s0, steps), signed);
    ExecSplit(s0, steps, more);
    steps := steps + more;
    more := Damage(Exec(s0, steps), signed);
    ExecSplit(s0, steps, more);
    steps := steps + more;
  }
}
