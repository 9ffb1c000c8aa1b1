/**
 Replies can always still be sent, and a run in which a command is carried out and its
 answer reaches the wire.
 */
module PipelineProgress {
  import opened Bytes
  import MP = MailboxProtocol
  import opened MailboxRace
  import opened ChunkedSend
  import opened Senders
  import opened Pipeline

  lemma JointMore(j: Joint, moves: seq<Move>, move: Move)
    ensures JointRun(j, moves + [move]) == JointNext(JointRun(j, moves), move)
  {
    hide JointNext;
    assert (moves + [move])[..|moves|] == moves;
  }

  /** Steps of the lock's holder are moves of the joint system and concern the senders only. */
  lemma {:induction false} HolderMoves(j0: Joint, moves: seq<Move>, steps: seq<Senders.Step>) returns (longer: seq<Move>)
    requires forall step :: step in steps ==> OfHolder(step)
    ensures var j, k := JointRun(j0, moves), JointRun(j0, longer);
            k == j.(send := Run(j.send, steps))
    decreases |steps|
  {
    if steps == [] {
      longer := moves;
    } else {
      var front, last := steps[..|steps| - 1], steps[|steps| - 1];
      longer := HolderMoves(j0, moves, front);
      var k := JointRun(j0, longer);
      assert last in steps;
      JointMore(j0, longer, Send(last));
      longer := longer + [Send(last)];
      hide JointRun, Senders.Next;
      assert JointNext(k, Send(last)) == k.(send := Senders.Next(k.send, last));
    }
  }

  lemma StepsOfHolder(steps: seq<Senders.Step>)
    requires Extends([], steps)
    ensures forall step :: step in steps ==> OfHolder(step)
  {
  }

  lemma RunNothing(s: Senders.State)
    ensures Run(s, []) == s
  {
  }

  /** The lock can become free while thread `t` goes on waiting. */
  lemma LockCanBeFree(j0: Joint, moves: seq<Move>, t: int) returns (longer: seq<Move>)
    requires var s := JointRun(j0, moves).send; LockInv(s) && t in s.threads && s.threads[t].Waiting?
    ensures var j, k := JointRun(j0, moves), JointRun(j0, longer);
            && k == j.(send := k.send) && LockInv(k.send) && k.send.holder == None
            && t in k.send.threads && k.send.threads[t] == j.send.threads[t]
  {
    var s := JointRun(j0, moves).send;
    if s.holder == None {
      longer := moves;
    } else {
      HolderInTheMiddle(s);
      RunNothing(s);
      hide JointRun, Run, LockInv;
      var steps := HolderCanRelease(s, []);
      StepsOfHolder(steps);
      longer := HolderMoves(j0, moves, steps);
    }
  }

  /** The thread takes the free lock and carries its reply. */
  lemma TakesTheLock(j0: Joint, moves: seq<Move>, t: int) returns (longer: seq<Move>)
    requires var j := JointRun(j0, moves);
             && LockInv(j.send) && j.send.holder == None
             && t in j.send.threads && j.send.threads[t].Waiting? && t in j.current
    ensures var j, k := JointRun(j0, moves), JointRun(j0, longer);
            && k == j.(send := TakeNext(j.send, t), carried := j.carried + [j.current[t]]) && LockInv(k.send)
            && longer == moves + [Send(Take(t))]
  {
    longer := moves + [Send(Take(t))];
    JointMore(j0, moves, Send(Take(t)));
    TakeKeepsLock(JointRun(j0, moves).send, t);
    hide JointRun, LockInv, TakeNext;
  }

  /** The reply of thread `t` is in the last turn at the lock and went out whole. */
  ghost predicate JustSent(k: Joint, t: int, n: nat, data: seq<byte>) {
    && k.carried != [] && k.carried[|k.carried| - 1] == n && |k.send.turns| == |k.carried|
    && t in k.send.threads && k.send.threads[t] == Away
    && var turn := k.send.turns[|k.send.turns| - 1];
       turn.thread == t && turn.data == data && turn.result == Some(|data|)
  }

  /** The holder finishes its turn. */
  lemma FinishesTheTurn(j0: Joint, moves: seq<Move>, t: int, n: nat, data: Data) returns (longer: seq<Move>)
    requires var j := JointRun(j0, moves);
             && LockInv(j.send) && t in j.send.threads && j.send.threads[t].Copying? && j.send.threads[t].data == data
             && |j.send.turns| == |j.carried| && j.carried != [] && j.carried[|j.carried| - 1] == n
    ensures var j, k := JointRun(j0, moves), JointRun(j0, longer);
            k == j.(send := k.send) && JustSent(k, t, n, data)
  {
    hide JointRun, Run, LockInv;
    var j := JointRun(j0, moves);
    RunNothing(j.send);
    var steps := HolderCanFinish(j.send, [], t, data);
    StepsOfHolder(steps);
    longer := HolderMoves(j0, moves, steps);
  }

  lemma WhatItWaitsWith(j: Joint, t: int)
    requires JointInv(j) && t in j.send.threads && j.send.threads[t].Waiting?
    ensures t in j.current && j.current[t] < |j.mail.replies| && j.send.threads[t].data == j.mail.replies[j.current[t]].bytes
    ensures LockInv(j.send) && |j.send.turns| == |j.carried|
  {
    hide LockInv, WireInv, FateInv;
  }

  lemma StillCarries(j: Joint)
    requires JointInv(j)
    ensures |j.send.turns| == |j.carried|
  {
    hide LockInv, WireInv, FateInv, WaitingInv;
  }

  /** From every reachable state a task that waits for the lock with a reply can still get
      it and put the whole reply on the wire. */
  lemma EveryReplyCanBeSent(signed: bool, ids: set<int>, producer: int, size: nat, moves: seq<Move>, t: int)
    returns (longer: seq<Move>)
    requires size > 0
    requires var s := JointRun(Start(signed, ids, producer, size), moves).send;
             t in s.threads && s.threads[t].Waiting?
    ensures var j, k := JointRun(Start(signed, ids, producer, size), moves), JointRun(Start(signed, ids, producer, size), longer);
            && t in j.current && j.current[t] < |j.mail.replies|
            && k.mail == j.mail && k.dropped == j.dropped
            && JustSent(k, t, j.current[t], j.mail.replies[j.current[t]].bytes)
  {
    var j0 := Start(signed, ids, producer, size);
    RunKeepsJoint(signed, ids, producer, size, moves);
    hide JointRun, Start, JointInv, LockInv, JustSent;
    var j := JointRun(j0, moves);
    WhatItWaitsWith(j, t);
    longer := LockCanBeFree(j0, moves, t);
    longer := TakesTheLock(j0, longer, t);
    RunKeepsJoint(signed, ids, producer, size, longer);
    StillCarries(JointRun(j0, longer));
    longer := FinishesTheTurn(j0, longer, t, j.current[t], j.send.threads[t].data);
  }

  // -------------------------------------------------------------------- a witness

  /** Mailbox steps before the first reply are moves of the joint system as they are. */
  lemma {:induction false} QuietMail(signed: bool, ids: set<int>, producer: int, size: nat, steps: seq<MP.Step>)
    returns (moves: seq<Move>)
    requires size > 0 && MP.Exec(MP.Init(signed, ids), steps).replies == []
    requires forall step :: step in steps && step.Consumer? ==> step.id in ids
    ensures var j0, j := Start(signed, ids, producer, size), JointRun(Start(signed, ids, producer, size), moves);
            j.mail == MP.Exec(MP.Init(signed, ids), steps) && j == j0.(mail := j.mail, executed := steps)
    decreases |steps|
  {
    if steps == [] {
      moves := [];
    } else {
      var front, last := steps[..|steps| - 1], steps[|steps| - 1];
      var s := MP.Exec(MP.Init(signed, ids), front);
      MP.ExecStep(MP.Init(signed, ids), steps);
      RepliesGrow(s, last);
      assert last in steps && front + [last] == steps;
      hide JointRun, MP.Exec, MP.Init, MP.Next;
      moves := QuietMail(signed, ids, producer, size, front);
      JointMore(Start(signed, ids, producer, size), moves, Mail(last));
      moves := moves + [Mail(last)];
    }
  }

  /** The GPIO task has carried out the first command and is about to answer it. */
  ghost predicate AboutToAnswer(s: MP.State) {
    && s.frames == [[1, 7, 2, 5]] && s.pins == map[5 := true] && s.replies == []
    && s.consumers == map[1 := MP.Answering(M0, 0)]
  }

  const TICK := MP.Consumer(1, 0)

  lemma CarryOut(s: MP.State, signed: bool)
    requires AboutToTake(s, signed)
    ensures AboutToAnswer(MP.Next(MP.Next(s, TICK), TICK))
  {
  }

  lemma CarryOutFirst(signed: bool) returns (steps: seq<MP.Step>)
    ensures AboutToAnswer(MP.Exec(MP.Init(signed, {1}), steps))
    ensures forall step :: step in steps && step.Consumer? ==> step.id == 1
  {
    var s0 := MP.Init(signed, {1});
    hide MP.Exec, MP.Init, MP.Next, FirstQueued, AboutToTake;
    var queued := QueueFirst(signed);
    var peeked := PeekFirst(MP.Exec(s0, queued), signed);
    MP.ExecSplit(s0, queued, peeked);
    CarryOut(MP.Exec(s0, queued + peeked), signed);
    OneMore(s0, queued + peeked, TICK);
    OneMore(s0, queued + peeked + [TICK], TICK);
    steps := queued + peeked + [TICK] + [TICK];
  }

  lemma AnswerFirst(s: MP.State)
    requires AboutToAnswer(s)
    ensures var t := MP.Next(s, TICK);
            && |t.replies| == 1 && t.replies[0].bytes == [1, 0, 7]
            && t.frames == s.frames && t.pins == s.pins
  {
  }

  /** One turn, whole: the wire is its data. */
  lemma OneTurn(j: Joint, t: int, data: seq<byte>)
    requires JustSent(j, t, 0, data) && |j.mail.replies| == 1 && data != []
    requires Wire(DataWrites(j.send.output)) == InTurn(j.send.turns)
    requires TurnsCarry(j.send.turns, j.mail.replies, j.carried)
    requires forall i, k :: 0 <= i < k < |j.carried| ==> j.carried[i] != j.carried[k]
    requires forall k :: 0 <= k < |j.carried| ==> PieceOf(j, k)
    ensures Wire(DataWrites(j.send.output)) == data
  {
    assert |j.carried| == 1;
    assert PieceOf(j, 0);
    assert j.send.turns[..0] == [];
  }

  /** A set-high command for pin 5 that arrives at the idle device can be carried out and
      its answer, status 0, reach the wire, whatever the size of the transmit buffer. */
  lemma CommandIsAnsweredOnTheWire(signed: bool, producer: int, size: nat) returns (moves: seq<Move>)
    requires size > 0
    ensures var j := JointRun(Start(signed, {1}, producer, size), moves);
            && j.mail.frames == [[1, 7, 2, 5]] && j.mail.pins == map[5 := true] && j.dropped == {}
            && Wire(DataWrites(j.send.output)) == [1, 0, 7]
  {
    var steps := CarryOutFirst(signed);
    var j0 := Start(signed, {1}, producer, size);
    moves := QuietMail(signed, {1}, producer, size, steps);
    var j := JointRun(j0, moves);
    StepsAreSent(signed, {1}, producer, size, moves, TICK);
    AnswerFirst(j.mail);
    JointMore(j0, moves, Mail(TICK));
    hide JointRun, MP.Exec, MP.Init, MP.Next;
    moves := moves + [Mail(TICK)];
    assert j.dropped == {};
    hide Start, Wire, DataWrites, InTurn, PieceOf;
    moves := EveryReplyCanBeSent(signed, {1}, producer, size, moves, 1);
    WireIsReplies(signed, {1}, producer, size, moves);
    OneTurn(JointRun(j0, moves), 1, [1, 0, 7]);
  }
}
