/**
 Every frame is answered exactly once, precisely in the runs in which no endpoint
 task finds the queue changed between its peek and its reset.
 */
module MailboxAnswers {
  import opened Frames
  import opened MailboxProtocol
  import opened MailboxOrder

  datatype Place =
    | AtProducer
    | BeingEvicted
    | Queued
    | AtConsumer(id: int)
    | Answered(k: nat)

  ghost predicate IsAt(s: State, n: nat, p: Place) {
    match p
    case AtProducer => ProducerHolds(s.producer, n)
    case BeingEvicted => s.producer.Evicting? && s.producer.prev.n == n
    case Queued => s.queue != [] && s.queue[0].n == n
    case AtConsumer(e) => e in s.consumers && InHandler(s.consumers[e]) && s.consumers[e].m.n == n
    case Answered(k) => k < |s.replies| && s.replies[k].n == n
  }

  ghost predicate OnlyAt(s: State, n: nat, p: Place) {
    IsAt(s, n, p) && forall q :: IsAt(s, n, q) ==> q == p
  }

  ghost predicate AtOnePlace(s: State, n: nat) {
    exists p :: OnlyAt(s, n, p)
  }

  /** Every arrival is at exactly one place; an answered one has exactly one answer. */
  ghost predicate ExactlyOnce(s: State) {
    forall n: nat :: n < |s.frames| ==> AtOnePlace(s, n)
  }

  /** A task about to reset the queue finds there the message it peeked. */
  predicate Undisturbed(s: State, step: Step) {
    (step.Consumer? && step.id in s.consumers && s.consumers[step.id].Taking?)
    ==> s.queue == [s.consumers[step.id].m]
  }

  ghost predicate AlwaysExactlyOnce(s: State, steps: seq<Step>) {
    forall k :: 0 <= k <= |steps| ==> ExactlyOnce(Exec(s, steps[..k]))
  }

  ghost predicate AlwaysUndisturbed(s: State, steps: seq<Step>) {
    forall k :: 0 <= k < |steps| ==> Undisturbed(Exec(s, steps[..k]), steps[k])
  }

  // ------------------------------------------------- undisturbed steps keep it

  lemma ArriveKeepsPlace(s: State, frame: Frame, memory: bool, n: nat)
    requires Ordered(s) && ExactlyOnce(s) && n < |Next(s, Arrive(frame, memory)).frames|
    ensures AtOnePlace(Next(s, Arrive(frame, memory)), n)
  {
    var t := Next(s, Arrive(frame, memory));
    var p: Place;
    if n < |s.frames| {
      assert AtOnePlace(s, n);
      p :| OnlyAt(s, n, p);
    } else {
      p := AtProducer;
      forall e | e in s.consumers && InHandler(s.consumers[e]) ensures s.consumers[e].m.n < |s.frames| {
        assert ConsumerInv(s, e, s.consumers[e]);
      }
    }
    assert t.queue == s.queue && t.consumers == s.consumers && t.replies == s.replies;
    hide Parse, AnswersFrame, ConsumerInv, HandledInv;
    forall q | IsAt(t, n, q) ensures q == p {
      if n < |s.frames| {
        assert IsAt(s, n, q);
      }
    }
    assert OnlyAt(t, n, p);
  }

  /** Where a message that is at `p` goes when the producer steps. */
  function ProducerMoves(s: State, p: Place): Place {
    if p == AtProducer && s.producer.Refusing? then Answered(|s.replies|)
    else if p == AtProducer && s.producer.Posting? then Queued
    else if p == Queued && s.producer.Receiving? then BeingEvicted
    else if p == BeingEvicted && s.producer.Evicting? then Answered(|s.replies|)
    else p
  }

  /** Where a message that is at `q` after the producer's step came from. */
  function ProducerCameFrom(s: State, q: Place): Place {
    if q == Answered(|s.replies|) then (if s.producer.Refusing? then AtProducer else BeingEvicted)
    else if q == Queued && s.producer.Posting? then AtProducer
    else if q == BeingEvicted then Queued
    else q
  }

  lemma ProducerStepsForward(s: State, n: nat, p: Place)
    requires QueueInv(s) && IsAt(s, n, p)
    ensures IsAt(ProducerNext(s), n, ProducerMoves(s, p))
  {
    hide Parse, StatusFrame, Genuine, Heap.ReadMessage, Heap.FreeBody, Heap.FreeMessage;
  }

  lemma ProducerStepsBack(s: State, n: nat, q: Place)
    requires QueueInv(s) && IsAt(ProducerNext(s), n, q)
    ensures var p := ProducerCameFrom(s, q);
            IsAt(s, n, p) && ProducerMoves(s, p) == q
  {
    hide Parse, StatusFrame, Genuine, Heap.ReadMessage, Heap.FreeBody, Heap.FreeMessage;
  }

  lemma ProducerKeepsPlace(s: State, n: nat, p: Place)
    requires QueueInv(s) && OnlyAt(s, n, p)
    ensures OnlyAt(ProducerNext(s), n, ProducerMoves(s, p))
  {
    hide ProducerNext, QueueInv, IsAt, ProducerMoves, ProducerCameFrom;
    ProducerStepsForward(s, n, p);
    forall q | IsAt(ProducerNext(s), n, q) ensures q == ProducerMoves(s, p) {
      ProducerStepsBack(s, n, q);
    }
  }

  function ConsumerMoves(s: State, e: int, p: Place): Place
    requires e in s.consumers
  {
    if p == Queued && s.consumers[e].Taking? then AtConsumer(e)
    else if p == AtConsumer(e) && s.consumers[e].Answering? then Answered(|s.replies|)
    else p
  }

  function ConsumerCameFrom(s: State, e: int, q: Place): Place
    requires e in s.consumers
  {
    if q == Answered(|s.replies|) then AtConsumer(e)
    else if q == AtConsumer(e) && s.consumers[e].Taking? then Queued
    else q
  }

  lemma ConsumerStepsForward(s: State, e: int, status: int, n: nat, p: Place)
    requires e in s.consumers && IsAt(s, n, p) && Undisturbed(s, Consumer(e, status))
    ensures IsAt(ConsumerNext(s, e, status), n, ConsumerMoves(s, e, p))
  {
    hide StatusFrame, GpioEffect, GpioStatus, Heap.ReadMessage, Heap.ReadBody, Heap.FreeBody, Heap.FreeMessage;
  }

  lemma ConsumerStepsBack(s: State, e: int, status: int, n: nat, q: Place)
    requires e in s.consumers && Undisturbed(s, Consumer(e, status))
    requires IsAt(ConsumerNext(s, e, status), n, q)
    ensures var p := ConsumerCameFrom(s, e, q);
            IsAt(s, n, p) && ConsumerMoves(s, e, p) == q
  {
    hide StatusFrame, GpioEffect, GpioStatus, Heap.ReadMessage, Heap.ReadBody, Heap.FreeBody, Heap.FreeMessage;
  }

  lemma ConsumerKeepsPlace(s: State, e: int, status: int, n: nat, p: Place)
    requires e in s.consumers && OnlyAt(s, n, p) && Undisturbed(s, Consumer(e, status))
    ensures OnlyAt(ConsumerNext(s, e, status), n, ConsumerMoves(s, e, p))
  {
    hide ConsumerNext, IsAt, ConsumerMoves, ConsumerCameFrom, Undisturbed;
    ConsumerStepsForward(s, e, status, n, p);
    forall q | IsAt(ConsumerNext(s, e, status), n, q) ensures q == ConsumerMoves(s, e, p) {
      ConsumerStepsBack(s, e, status, n, q);
    }
  }

  lemma UndisturbedKeepsExactlyOnce(s: State, step: Step)
    requires Ordered(s) && ExactlyOnce(s) && Undisturbed(s, step)
    ensures ExactlyOnce(Next(s, step))
  {
    var t := Next(s, step);
    hide AtOnePlace, Undisturbed, QueueInv, ProducerInv, ConsumerInv, HandledInv, RepliesInv, ProducerNext, ConsumerNext;
    forall n: nat | n < |t.frames| ensures AtOnePlace(t, n) {
      match step
      case Arrive(frame, memory) => ArriveKeepsPlace(s, frame, memory, n);
      case Producer =>
        ProducerTouchesOnly(s);
        var p := PlaceOf(s, n);
        ProducerKeepsPlace(s, n, p);
        HasPlace(t, n, ProducerMoves(s, p));
      case Consumer(e, status) =>
        var p := PlaceOf(s, n) by { if e in s.consumers { ConsumerMovesQueue(s, e, status); } }
        if e in s.consumers {
          ConsumerKeepsPlace(s, e, status, n, p);
          HasPlace(t, n, ConsumerMoves(s, e, p));
        } else {
          HasPlace(t, n, p);
        }
    }
  }

  lemma HasPlace(s: State, n: nat, p: Place)
    requires OnlyAt(s, n, p)
    ensures AtOnePlace(s, n)
  {
  }

  lemma PlaceOf(s: State, n: nat) returns (p: Place)
    requires ExactlyOnce(s) && n < |s.frames|
    ensures OnlyAt(s, n, p)
  {
    assert AtOnePlace(s, n);
    p :| OnlyAt(s, n, p);
  }

  // ----------------------------------------- disturbed resets break it at once

  lemma SameNumberSameMessage(s: State, a: Msg, b: Msg)
    requires Genuine(s, a) && Genuine(s, b)
    ensures a.n == b.n ==> a == b
  {
  }

  /** Resetting a queue that no longer holds the peeked message leaves that
      message with two owners, or with one more than it should have. */
  lemma DisturbedBreaksExactlyOnce(s: State, step: Step)
    requires Ordered(s) && ExactlyOnce(s) && !Undisturbed(s, step)
    ensures !ExactlyOnce(Next(s, step))
  {
    var e := step.id;
    var n := s.consumers[e].m.n;
    var t := ConsumerNext(s, e, step.status);
    assert ConsumerInv(s, e, s.consumers[e]);
    if s.queue != [] {
      SameNumberSameMessage(s, s.queue[0], s.consumers[e].m);
    }
    var p := PlaceOf(s, n);
    assert IsAt(t, n, AtConsumer(e));
    assert IsAt(t, n, p);
    assert !AtOnePlace(t, n);
  }

  lemma InitExactlyOnce(signed: bool, ids: set<int>)
    ensures ExactlyOnce(Init(signed, ids))
  {
  }

  lemma AlwaysInFront(s: State, steps: seq<Step>)
    requires steps != []
    ensures var front, last := steps[..|steps| - 1], |steps| - 1;
            && (AlwaysExactlyOnce(s, steps) <==> AlwaysExactlyOnce(s, front) && ExactlyOnce(Exec(s, steps)))
            && (AlwaysUndisturbed(s, steps) <==> AlwaysUndisturbed(s, front) && Undisturbed(Exec(s, front), steps[last]))
  {
    hide Exec, ExactlyOnce, Undisturbed;
    var front, last := steps[..|steps| - 1], |steps| - 1;
    assert forall k :: 0 <= k <= last ==> front[..k] == steps[..k];
    assert steps[..|steps|] == steps;
    if AlwaysExactlyOnce(s, steps) {
      assert ExactlyOnce(Exec(s, steps[..|steps|]));
    }
    if AlwaysUndisturbed(s, steps) {
      assert Undisturbed(Exec(s, steps[..last]), steps[last]);
    }
  }

  /** Over a whole run, every frame has exactly one owner or exactly one answer at
      every moment if and only if no reset finds the queue changed since its peek. */
  lemma {:induction false} ExactlyOnceIffUndisturbed(signed: bool, ids: set<int>, steps: seq<Step>)
    ensures AlwaysExactlyOnce(Init(signed, ids), steps) <==> AlwaysUndisturbed(Init(signed, ids), steps)
  {
    var s0 := Init(signed, ids);
    if steps == [] {
      InitExactlyOnce(signed, ids);
      assert steps[..0] == [];
    } else {
      var front, step := steps[..|steps| - 1], steps[|steps| - 1];
      ExactlyOnceIffUndisturbed(signed, ids, front);
      AlwaysInFront(s0, steps);
      ExecStep(s0, steps);
      RunIsOrdered(signed, ids, front);
      hide Exec, Next, Undisturbed, ExactlyOnce, Ordered, Init, AlwaysUndisturbed;
      if AlwaysExactlyOnce(s0, front) {
        assert front[..|front|] == front;
        assert ExactlyOnce(Exec(s0, front));
        if Undisturbed(Exec(s0, front), step) {
          UndisturbedKeepsExactlyOnce(Exec(s0, front), step);
        } else {
          DisturbedBreaksExactlyOnce(Exec(s0, front), step);
        }
      }
    }
  }

  // ------------------------------------------------------------ idle states

  /** No task is in the middle of a message. */
  predicate Idle(s: State) {
    s.producer == Listening && forall e :: e in s.consumers ==> !InHandler(s.consumers[e])
  }

  ghost predicate HasOneReply(s: State, n: nat) {
    exists k :: OnlyReply(s, n, k)
  }

  ghost predicate OnlyReply(s: State, n: nat, k: nat) {
    k < |s.replies| && s.replies[k].n == n && forall j :: 0 <= j < |s.replies| && s.replies[j].n == n ==> j == k
  }

  ghost predicate HasNoReply(s: State, n: nat) {
    forall j :: 0 <= j < |s.replies| ==> s.replies[j].n != n
  }

  lemma IdleStateAnswered(s: State, n: nat)
    requires ExactlyOnce(s) && Idle(s) && n < |s.frames|
    ensures if s.queue != [] && s.queue[0].n == n then HasNoReply(s, n) else HasOneReply(s, n)
  {
    var p := PlaceOf(s, n);
    assert p.Queued? || p.Answered?;
    assert IsAt(s, n, Queued) <==> s.queue != [] && s.queue[0].n == n;
    assert forall j: nat :: j < |s.replies| && s.replies[j].n == n ==> IsAt(s, n, Answered(j));
    if p.Answered? {
      assert OnlyReply(s, n, p.k);
    }
  }

  /** When every task is idle, the queued frame is unanswered and every other one
      has exactly one answer. */
  lemma IdleMeansAnswered(signed: bool, ids: set<int>, steps: seq<Step>, n: nat)
    requires AlwaysUndisturbed(Init(signed, ids), steps)
    requires Idle(Exec(Init(signed, ids), steps)) && n < |Exec(Init(signed, ids), steps).frames|
    ensures var s := Exec(Init(signed, ids), steps);
            if s.queue != [] && s.queue[0].n == n then HasNoReply(s, n) else HasOneReply(s, n)
  {
    hide Exec, Init, Idle, ExactlyOnce, HasNoReply, HasOneReply, AlwaysUndisturbed;
    ExactlyOnceIffUndisturbed(signed, ids, steps);
    assert steps[..|steps|] == steps;
    IdleStateAnswered(Exec(Init(signed, ids), steps), n);
  }
}
