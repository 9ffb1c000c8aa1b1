/**
 From a server frame to the bytes on the wire: the mailbox's tasks and the senders as
 one step system. A task that answers a message is in the send call until the sender
 has released the lock or given up; only then does it go on.
 */
module Pipeline {
  import opened Bytes
  import opened Frames
  import MP = MailboxProtocol
  import MailboxOrder
  import opened MailboxAnswers
  import opened ChunkedSend
  import opened Senders

  datatype Joint = Joint(
    mail: MP.State,
    send: Senders.State,
    producer: int,               // the websocket task's thread; an endpoint task's is its id
    executed: seq<MP.Step>,      // the mailbox steps made so far
    current: map<int, nat>,      // the reply each thread handed over last
    carried: seq<nat>,           // the reply of each turn at the lock
    dropped: set<nat>)           // the replies whose send gave up before its turn

  datatype Move = Mail(mailStep: MP.Step) | Send(sendStep: Senders.Step)

  function Start(signed: bool, ids: set<int>, producer: int, size: nat): Joint
    requires size > 0
  {
    Joint(MP.Init(signed, ids), Senders.Init(size, ids + {producer}), producer, [], map[], [], {})
  }

  function ThreadOf(j: Joint, step: MP.Step): int {
    if step.Consumer? then step.id else j.producer
  }

  /** The thread calls send with the reply's bytes; send refuses an empty message. */
  function HandOver(j: Joint, t: int, n: nat): Joint
    requires n < |j.mail.replies|
  {
    var bytes := j.mail.replies[n].bytes;
    if bytes == [] then j.(dropped := j.dropped + {n})
    else j.(send := Senders.Next(j.send, Begin(t, bytes)), current := j.current[t := n])
  }

  function MailNext(j: Joint, step: MP.Step): Joint {
    var t := ThreadOf(j, step);
    if t !in j.send.threads || j.send.threads[t] != Away then j
    else
      var stepped := j.(mail := MP.Next(j.mail, step), executed := j.executed + [step]);
      if |stepped.mail.replies| <= |j.mail.replies| then stepped
      else HandOver(stepped, t, |j.mail.replies|)
  }

  function SendNext(j: Joint, step: Senders.Step): Joint {
    match step
    case Begin(_, _) => j
    case Take(t) =>
      if t in j.send.threads && j.send.threads[t].Waiting? && j.send.holder == None && t in j.current then
        j.(send := TakeNext(j.send, t), carried := j.carried + [j.current[t]])
      else j
    case GiveUp(t) =>
      if t in j.send.threads && j.send.threads[t].Waiting? && t in j.current then
        j.(send := Senders.Next(j.send, step), dropped := j.dropped + {j.current[t]})
      else j
    case _ => j.(send := Senders.Next(j.send, step))
  }

  function JointNext(j: Joint, move: Move): Joint {
    match move
    case Mail(step) => MailNext(j, step)
    case Send(step) => SendNext(j, step)
  }

  function JointRun(j: Joint, moves: seq<Move>): Joint {
    if moves == [] then j else JointNext(JointRun(j, moves[..|moves| - 1]), moves[|moves| - 1])
  }

  // ------------------------------------------------------------------ invariants

  /** What has become of a reply. */
  datatype Fate = Carried(k: nat) | Dropped | Pending(t: int)

  predicate Meets(j: Joint, n: nat, f: Fate) {
    match f
    case Carried(k) => k < |j.carried| && j.carried[k] == n
    case Dropped => n in j.dropped
    case Pending(t) => t in j.send.threads && j.send.threads[t].Waiting? && t in j.current && j.current[t] == n
  }

  ghost predicate MeetsOnly(j: Joint, n: nat, f: Fate) {
    Meets(j, n, f) && forall g :: Meets(j, n, g) ==> g == f
  }

  ghost predicate HasOneFate(j: Joint, n: nat) {
    exists f :: MeetsOnly(j, n, f)
  }

  ghost predicate FateInv(j: Joint) {
    && (forall n: nat :: n < |j.mail.replies| ==> HasOneFate(j, n))
    && (forall n: nat, f :: Meets(j, n, f) ==> n < |j.mail.replies|)
  }

  /** The k-th turn carries the reply numbered `carried[k]`. */
  ghost predicate TurnsCarry(turns: seq<Turn>, replies: seq<MP.Reply>, carried: seq<nat>) {
    && |carried| == |turns|
    && forall k :: 0 <= k < |carried| ==> carried[k] < |replies| && turns[k].data == replies[carried[k]].bytes
  }

  /** A thread waiting for the lock waits with the reply it handed over. */
  ghost predicate WaitingInv(j: Joint) {
    forall t :: t in j.send.threads && j.send.threads[t].Waiting? ==>
      t in j.current && j.current[t] < |j.mail.replies| && j.send.threads[t].data == j.mail.replies[j.current[t]].bytes
  }

  ghost predicate SendInv(j: Joint) {
    LockInv(j.send) && WireInv(j.send)
  }

  ghost predicate DataInv(j: Joint) {
    TurnsCarry(j.send.turns, j.mail.replies, j.carried) && WaitingInv(j)
  }

  // ----------------------------------------------------------- moves of the mailbox

  /** A mailbox step appends one reply at most. */
  lemma RepliesGrow(s: MP.State, step: MP.Step)
    ensures var t := MP.Next(s, step);
            s.replies <= t.replies && |t.replies| <= |s.replies| + 1
  {
    hide Parse, StatusFrame, MP.GpioEffect, MP.GpioStatus, MP.Send;
    hide MP.Heap.ReadMessage, MP.Heap.ReadBody, MP.Heap.FreeBody, MP.Heap.FreeMessage, MP.Heap.Allocate;
  }

  /** Without a new reply, nothing changes for the old ones. */
  lemma SameFates(j: Joint, k: Joint)
    requires FateInv(j) && |j.mail.replies| == |k.mail.replies|
    requires k.carried == j.carried && k.dropped == j.dropped && k.current == j.current
    requires forall t ::
               (t in j.send.threads && j.send.threads[t].Waiting?) <==> (t in k.send.threads && k.send.threads[t].Waiting?)
    ensures FateInv(k)
  {
    assert forall n, f :: Meets(k, n, f) <==> Meets(j, n, f);
    hide Meets;
    forall n: nat | n < |k.mail.replies| ensures HasOneFate(k, n) {
      assert HasOneFate(j, n);
      var f :| MeetsOnly(j, n, f);
      assert MeetsOnly(k, n, f);
    }
  }

  lemma HandOverKeepsFates(j: Joint, k: Joint, t: int)
    requires FateInv(j) && t in j.send.threads && t in k.send.threads && j.send.threads[t] == Away
    requires |k.mail.replies| == |j.mail.replies| + 1 && k.carried == j.carried
    requires if k.dropped == j.dropped
             then k.send.threads == j.send.threads[t := k.send.threads[t]] && k.send.threads[t].Waiting?
                  && k.current == j.current[t := |j.mail.replies|]
             else k.send.threads == j.send.threads && k.current == j.current && k.dropped == j.dropped + {|j.mail.replies|}
    ensures FateInv(k)
  {
    var n := |j.mail.replies|;
    var fate := if k.dropped == j.dropped then Pending(t) else Dropped;
    assert forall f :: !Meets(j, n, f);
    forall m: nat, f ensures Meets(k, m, f) <==> Meets(j, m, f) || (m == n && f == fate) {
    }
    hide Meets;
    forall m: nat | m <= n ensures HasOneFate(k, m) {
      if m < n {
        assert HasOneFate(j, m);
        var f :| MeetsOnly(j, m, f);
        assert MeetsOnly(k, m, f);
      } else {
        assert MeetsOnly(k, m, fate);
      }
    }
  }

  lemma MailKeepsSend(j: Joint, step: MP.Step)
    requires SendInv(j)
    ensures SendInv(MailNext(j, step))
  {
    hide LockInv, WireInv, Senders.Next, MP.Next;
    var t := ThreadOf(j, step);
    if t in j.send.threads {
      forall data: Data ensures LockInv(Senders.Next(j.send, Begin(t, data))) && WireInv(Senders.Next(j.send, Begin(t, data))) {
        StepKeepsAll(j.send, Begin(t, data));
      }
    }
  }

  lemma MailKeepsData(j: Joint, step: MP.Step)
    requires DataInv(j)
    ensures DataInv(MailNext(j, step))
  {
    RepliesGrow(j.mail, step);
    hide MP.Next;
  }

  lemma MailKeepsFates(j: Joint, step: MP.Step)
    requires FateInv(j)
    ensures FateInv(MailNext(j, step))
  {
    RepliesGrow(j.mail, step);
    var t := ThreadOf(j, step);
    var k := MailNext(j, step);
    assert |j.mail.replies| !in j.dropped by { assert !Meets(j, |j.mail.replies|, Dropped); }
    hide MP.Next, FateInv;
    if t in j.send.threads && j.send.threads[t] == Away {
      if |MP.Next(j.mail, step).replies| <= |j.mail.replies| {
        SameFates(j, k);
      } else {
        HandOverKeepsFates(j, k, t);
      }
    }
  }

  // ------------------------------------------------------------ moves of the senders

  /** A thread that gets the lock carries its reply; one that gives up drops it. */
  lemma LeavingKeepsFates(j: Joint, k: Joint, t: int)
    requires FateInv(j) && t in j.send.threads && j.send.threads[t].Waiting? && t in j.current
    requires t in k.send.threads && !k.send.threads[t].Waiting?
    requires k.mail == j.mail && k.current == j.current
    requires k.send.threads == j.send.threads[t := k.send.threads[t]]
    requires || (k.carried == j.carried + [j.current[t]] && k.dropped == j.dropped)
             || (k.carried == j.carried && k.dropped == j.dropped + {j.current[t]})
    ensures FateInv(k)
  {
    var n := j.current[t];
    var fate := if k.dropped == j.dropped then Carried(|j.carried|) else Dropped;
    assert Meets(j, n, Pending(t)) && HasOneFate(j, n);
    assert n !in j.dropped by { assert !Meets(j, n, Dropped); }
    forall m: nat, f ensures Meets(k, m, f) <==> (Meets(j, m, f) && f != Pending(t)) || (m == n && f == fate) {
    }
    hide Meets;
    forall m: nat | m < |k.mail.replies| ensures HasOneFate(k, m) {
      assert HasOneFate(j, m);
      var f :| MeetsOnly(j, m, f);
      assert MeetsOnly(k, m, if m == n then fate else f);
    }
  }

  /** The other moves concern the holder of the lock. */
  predicate IsOfHolder(step: Senders.Step) {
    OfHolder(step) || step.PingOut?
  }

  lemma HolderKeepsTurns(s: Senders.State, step: Senders.Step)
    requires LockInv(s) && IsOfHolder(step)
    ensures var u := Senders.Next(s, step);
            && |u.turns| == |s.turns|
            && (forall k :: 0 <= k < |s.turns| ==> u.turns[k].data == s.turns[k].data)
            && u.threads.Keys == s.threads.Keys
            && forall t :: t in s.threads && (s.threads[t].Waiting? || u.threads[t].Waiting?) ==> u.threads[t] == s.threads[t]
  {
    hide WriteNext, HolderInv, Finished;
    if step.WriteOut? && step.t in s.threads && s.threads[step.t].Writing? {
      WriterFacts(s, step.t);
      WriterGoesOn(s, step.t, step.result);
      WriteKeepsHolder(s, step.t, step.result);
    }
  }

  lemma SendKeepsSend(j: Joint, step: Senders.Step)
    requires SendInv(j)
    ensures SendInv(SendNext(j, step))
  {
    StepKeepsAll(j.send, step);
    hide LockInv, WireInv;
  }

  lemma SendKeepsData(j: Joint, step: Senders.Step)
    requires LockInv(j.send) && DataInv(j)
    ensures DataInv(SendNext(j, step))
  {
    if IsOfHolder(step) {
      HolderKeepsTurns(j.send, step);
      hide LockInv, Senders.Next;
    }
  }

  lemma SendKeepsFates(j: Joint, step: Senders.Step)
    requires LockInv(j.send) && FateInv(j)
    ensures FateInv(SendNext(j, step))
  {
    var k := SendNext(j, step);
    if IsOfHolder(step) {
      HolderKeepsTurns(j.send, step);
      hide LockInv, Senders.Next, FateInv;
      SameFates(j, k);
    } else if step.Take? || step.GiveUp? {
      hide LockInv, FateInv;
      if k != j {
        LeavingKeepsFates(j, k, step.t);
      }
    }
  }

  // --------------------------------------------------------------------- runs

  ghost predicate JointInv(j: Joint) {
    SendInv(j) && DataInv(j) && FateInv(j)
  }

  lemma MoveKeepsJoint(j: Joint, move: Move)
    requires JointInv(j)
    ensures JointInv(JointNext(j, move))
  {
    hide DataInv, FateInv, MailNext, SendNext;
    match move
    case Mail(step) =>
      MailKeepsSend(j, step);
      MailKeepsData(j, step);
      MailKeepsFates(j, step);
    case Send(step) =>
      SendKeepsSend(j, step);
      SendKeepsData(j, step);
      SendKeepsFates(j, step);
  }

  lemma StartIsJoint(signed: bool, ids: set<int>, producer: int, size: nat)
    requires size > 0
    ensures JointInv(Start(signed, ids, producer, size))
  {
    var j := Start(signed, ids, producer, size);
    RunKeepsAll(size, ids + {producer}, []);
    assert forall n, f :: !Meets(j, n, f);
  }

  lemma {:induction false} RunKeepsJoint(signed: bool, ids: set<int>, producer: int, size: nat, moves: seq<Move>)
    requires size > 0
    ensures JointInv(JointRun(Start(signed, ids, producer, size), moves))
    decreases |moves|
  {
    if moves == [] {
      StartIsJoint(signed, ids, producer, size);
    } else {
      hide JointNext, JointInv, Start;
      RunKeepsJoint(signed, ids, producer, size, moves[..|moves| - 1]);
      MoveKeepsJoint(JointRun(Start(signed, ids, producer, size), moves[..|moves| - 1]), moves[|moves| - 1]);
    }
  }

  lemma MoveExecutes(j: Joint, move: Move)
    ensures var k := JointNext(j, move);
            || (k.mail == j.mail && k.executed == j.executed)
            || (exists step :: k.mail == MP.Next(j.mail, step) && k.executed == j.executed + [step])
  {
    hide MP.Next, Senders.Next;
    if move.Mail? {
      assert JointNext(j, move) != j ==> JointNext(j, move).mail == MP.Next(j.mail, move.mailStep);
    }
  }

  lemma OneMore(s: MP.State, steps: seq<MP.Step>, step: MP.Step)
    ensures MP.Exec(s, steps + [step]) == MP.Next(MP.Exec(s, steps), step)
  {
    assert (steps + [step])[..|steps|] == steps;
    MP.ExecStep(s, steps + [step]);
    hide MP.Exec;
  }

  /** The mailbox of a joint run is in the state its own steps lead to. */
  lemma {:induction false} MailIsRun(signed: bool, ids: set<int>, producer: int, size: nat, moves: seq<Move>)
    requires size > 0
    ensures var j := JointRun(Start(signed, ids, producer, size), moves);
            j.mail == MP.Exec(MP.Init(signed, ids), j.executed)
    decreases |moves|
  {
    if moves != [] {
      var before := JointRun(Start(signed, ids, producer, size), moves[..|moves| - 1]);
      var move := moves[|moves| - 1];
      hide JointNext, MP.Exec, MP.Init, MP.Next;
      MailIsRun(signed, ids, producer, size, moves[..|moves| - 1]);
      MoveExecutes(before, move);
      forall step ensures MP.Exec(MP.Init(signed, ids), before.executed + [step])
                          == MP.Next(MP.Exec(MP.Init(signed, ids), before.executed), step) {
        OneMore(MP.Init(signed, ids), before.executed, step);
      }
    }
  }

  // -------------------------------------------------------------- what it means

  /** The k-th turn at the lock carries an answer to the frame its reply is for; what it
      put on the wire is the whole of it if its caller was told so, and otherwise less. */
  ghost predicate PieceOf(j: Joint, k: nat)
    requires k < |j.carried| && k < |j.send.turns| && j.carried[k] < |j.mail.replies|
  {
    var reply, turn := j.mail.replies[j.carried[k]], j.send.turns[k];
    && reply.n < |j.mail.frames| && AnswersFrame(turn.data, j.mail.frames[reply.n], reply.status)
    && match turn.result
       case None => TakenOf(turn) <= turn.data && k == |j.send.turns| - 1
       case Some(r) => if r > 0 then TakenOf(turn) == turn.data else TakenOf(turn) < turn.data
  }

  lemma TurnsArePieces(j: Joint, k: nat)
    requires LockInv(j.send) && DataInv(j) && MailboxOrder.RepliesInv(j.mail) && k < |j.carried|
    ensures PieceOf(j, k)
  {
    TurnsAreSettled(j.send);
    assert j.mail.replies[j.carried[k]] in j.mail.replies;
    hide LockInv;
  }

  lemma CarriedOnce(j: Joint, i: nat, k: nat)
    requires FateInv(j) && i < |j.carried| && k < |j.carried| && j.carried[i] == j.carried[k]
    ensures i == k
  {
    var n := j.carried[i];
    assert Meets(j, n, Carried(i)) && Meets(j, n, Carried(k));
    assert HasOneFate(j, n);
  }

  /** In every run of the tasks and their senders together, with any lock timeouts and
      partial writes: the data on the wire is, in lock order, one piece for each turn;
      each turn carries a reply of its own, names the frame it answers, and its piece is
      whole precisely when its call succeeded. */
  lemma WireIsReplies(signed: bool, ids: set<int>, producer: int, size: nat, moves: seq<Move>)
    requires size > 0
    ensures var j := JointRun(Start(signed, ids, producer, size), moves);
            && Wire(DataWrites(j.send.output)) == InTurn(j.send.turns)
            && TurnsCarry(j.send.turns, j.mail.replies, j.carried)
            && (forall i, k :: 0 <= i < k < |j.carried| ==> j.carried[i] != j.carried[k])
            && forall k :: 0 <= k < |j.carried| ==> PieceOf(j, k)
  {
    RunKeepsJoint(signed, ids, producer, size, moves);
    MailIsRun(signed, ids, producer, size, moves);
    var j := JointRun(Start(signed, ids, producer, size), moves);
    MailboxOrder.RepliesNameTheirFrames(signed, ids, j.executed);
    hide JointRun, Start, MP.Exec, MP.Init, MailboxOrder.RepliesInv, Wire, DataWrites, InTurn;
    hide LockInv, FateInv, PieceOf, WaitingInv;
    forall k | 0 <= k < |j.carried| ensures PieceOf(j, k) {
      TurnsArePieces(j, k);
    }
    forall i, k | 0 <= i < k < |j.carried| ensures j.carried[i] != j.carried[k] {
      if j.carried[i] == j.carried[k] {
        CarriedOnce(j, i, k);
      }
    }
  }

  /** Every reply a task made is in one turn at the lock, or given up, or still waiting,
      and only one of these. */
  lemma EveryReplyHasOneFate(signed: bool, ids: set<int>, producer: int, size: nat, moves: seq<Move>, n: nat)
    requires size > 0 && n < |JointRun(Start(signed, ids, producer, size), moves).mail.replies|
    ensures HasOneFate(JointRun(Start(signed, ids, producer, size), moves), n)
  {
    RunKeepsJoint(signed, ids, producer, size, moves);
    hide JointRun, HasOneFate;
  }

  lemma DifferentReplies(s: MP.State, i: nat, j: nat)
    requires ExactlyOnce(s) && i < |s.replies| && j < |s.replies| && i != j && s.replies[j].n < |s.frames|
    ensures s.replies[i].n != s.replies[j].n
  {
    var p := PlaceOf(s, s.replies[j].n);
    assert IsAt(s, s.replies[j].n, Answered(j));
    if s.replies[i].n == s.replies[j].n {
      assert IsAt(s, s.replies[j].n, Answered(i));
    }
  }

  /** When no reset was disturbed, no two turns answer the same frame. */
  lemma NoFrameIsAnsweredTwice(signed: bool, ids: set<int>, producer: int, size: nat, moves: seq<Move>, i: nat, k: nat)
    requires size > 0
    requires AlwaysUndisturbed(MP.Init(signed, ids), JointRun(Start(signed, ids, producer, size), moves).executed)
    requires i < k < |JointRun(Start(signed, ids, producer, size), moves).carried|
    ensures var j := JointRun(Start(signed, ids, producer, size), moves);
            && j.carried[i] < |j.mail.replies| && j.carried[k] < |j.mail.replies|
            && j.mail.replies[j.carried[i]].n != j.mail.replies[j.carried[k]].n
  {
    WireIsReplies(signed, ids, producer, size, moves);
    MailIsRun(signed, ids, producer, size, moves);
    var j := JointRun(Start(signed, ids, producer, size), moves);
    hide JointRun, Start, ExactlyOnce, AlwaysUndisturbed, MP.Exec, MP.Init, Wire, DataWrites, InTurn, AnswersFrame;
    ExactlyOnceIffUndisturbed(signed, ids, j.executed);
    assert j.executed[..|j.executed|] == j.executed;
    assert PieceOf(j, k);
    DifferentReplies(j.mail, j.carried[i], j.carried[k]);
  }

  /** Nobody is answering, sending or waiting, no send gave up and every call succeeded. */
  ghost predicate AllSent(j: Joint) {
    && Idle(j.mail) && j.dropped == {}
    && (forall t :: t in j.send.threads ==> j.send.threads[t] == Away)
    && forall turn :: turn in j.send.turns && turn.result.Some? ==> turn.result.value > 0
  }

  lemma QuietWireIsWhole(s: Senders.State)
    requires LockInv(s) && WireInv(s)
    requires forall t :: t in s.threads ==> s.threads[t] == Away
    requires forall turn :: turn in s.turns && turn.result.Some? ==> turn.result.value > 0
    ensures Wire(DataWrites(s.output)) == Messages(s.turns)
  {
    assert s.holder == None;
    hide Wire, DataWrites, InTurn, Messages;
    forall k | 0 <= k < |s.turns| ensures s.turns[k].sent == |s.turns[k].data| {
      assert Finished(s.turns[k], s.size) && s.turns[k] in s.turns;
    }
    WholeTurns(s.turns);
  }

  lemma CarriedBy(j: Joint, r: nat) returns (k: nat)
    requires FateInv(j) && AllSent(j) && r < |j.mail.replies|
    ensures k < |j.carried| && j.carried[k] == r
  {
    assert HasOneFate(j, r);
    var f :| MeetsOnly(j, r, f);
    k := f.k;
  }

  function Below(n: nat): (s: set<nat>)
    ensures |s| == n && forall x: nat :: x in s <==> x < n
  {
    if n == 0 then {} else Below(n - 1) + {n - 1}
  }

  function Elements(s: seq<nat>): (e: set<nat>)
    ensures forall x: nat :: x in e <==> x in s
  {
    if s == [] then {} else Elements(s[..|s| - 1]) + {s[|s| - 1]}
  }

  lemma {:induction false} DistinctCount(s: seq<nat>)
    requires forall i, k :: 0 <= i < k < |s| ==> s[i] != s[k]
    ensures |Elements(s)| == |s|
  {
    if s != [] {
      var front, last := s[..|s| - 1], s[|s| - 1];
      DistinctCount(front);
      assert last !in front;
    }
  }

  lemma AllCarried(j: Joint)
    requires FateInv(j) && AllSent(j)
    requires forall k :: 0 <= k < |j.carried| ==> j.carried[k] < |j.mail.replies|
    requires forall i, k :: 0 <= i < k < |j.carried| ==> j.carried[i] != j.carried[k]
    ensures |j.carried| == |j.mail.replies|
  {
    hide FateInv, AllSent;
    forall r: nat | r < |j.mail.replies| ensures r in j.carried {
      var k := CarriedBy(j, r);
    }
    DistinctCount(j.carried);
    assert Elements(j.carried) == Below(|j.mail.replies|);
  }

  /** What the k-th turn put on the wire of three-byte replies. */
  lemma PieceOnWire(j: Joint, wire: seq<byte>, k: nat)
    requires wire == Messages(j.send.turns) && TurnsCarry(j.send.turns, j.mail.replies, j.carried)
    requires k < |j.carried| && forall i :: 0 <= i < |j.carried| ==> PieceOf(j, i)
    ensures |wire| == 3 * |j.carried| && wire[3 * k..3 * k + 3] == j.send.turns[k].data
  {
    forall turn | turn in j.send.turns ensures |turn.data| == 3 {
      var i :| 0 <= i < |j.send.turns| && j.send.turns[i] == turn;
      assert PieceOf(j, i);
    }
    StatusFramesStayWhole(j.send.turns, k);
  }

  /** The reply of an answered frame is in one turn, and in no other. */
  lemma OneTurnAnswers(j: Joint, n: nat) returns (k: nat)
    requires FateInv(j) && AllSent(j) && TurnsCarry(j.send.turns, j.mail.replies, j.carried) && HasOneReply(j.mail, n)
    ensures k < |j.carried| && j.carried[k] < |j.mail.replies| && j.mail.replies[j.carried[k]].n == n
    ensures forall i :: 0 <= i < |j.carried| && i != k ==> j.mail.replies[j.carried[i]].n != n
  {
    var r :| OnlyReply(j.mail, n, r);
    k := CarriedBy(j, r);
    hide FateInv, AllSent;
    forall i | 0 <= i < |j.carried| && i != k ensures j.mail.replies[j.carried[i]].n != n {
      if j.mail.replies[j.carried[i]].n == n {
        CarriedOnce(j, i, k);
      }
    }
  }

  /** Then the wire is three bytes for each reply, and every frame but the queued one has
      its three bytes there, in one piece and exactly once. */
  lemma WireAnswersEachFrameOnce(signed: bool, ids: set<int>, producer: int, size: nat, moves: seq<Move>, n: nat)
    returns (k: nat)
    requires size > 0 && AllSent(JointRun(Start(signed, ids, producer, size), moves))
    requires AlwaysUndisturbed(MP.Init(signed, ids), JointRun(Start(signed, ids, producer, size), moves).executed)
    requires var s := JointRun(Start(signed, ids, producer, size), moves).mail;
             n < |s.frames| && !(s.queue != [] && s.queue[0].n == n)
    ensures var j := JointRun(Start(signed, ids, producer, size), moves);
            var wire := Wire(DataWrites(j.send.output));
            && |wire| == 3 * |j.mail.replies| && |j.carried| == |j.mail.replies|
            && k < |j.carried| && j.carried[k] < |j.mail.replies| && j.mail.replies[j.carried[k]].n == n
            && AnswersFrame(wire[3 * k..3 * k + 3], j.mail.frames[n], j.mail.replies[j.carried[k]].status)
            && forall i :: 0 <= i < |j.carried| && i != k ==>
                 j.carried[i] < |j.mail.replies| && j.mail.replies[j.carried[i]].n != n
  {
    var j := JointRun(Start(signed, ids, producer, size), moves);
    RunKeepsJoint(signed, ids, producer, size, moves);
    WireIsReplies(signed, ids, producer, size, moves);
    MailIsRun(signed, ids, producer, size, moves);
    hide JointRun, Start, MP.Exec, MP.Init, Idle, AlwaysUndisturbed, Wire, DataWrites, InTurn, Messages;
    hide LockInv, WaitingInv, FateInv, HasNoReply, HasOneReply, PieceOf, Meets;
    QuietWireIsWhole(j.send);
    AllCarried(j);
    IdleMeansAnswered(signed, ids, j.executed, n);
    k := OneTurnAnswers(j, n);
    PieceOnWire(j, Wire(DataWrites(j.send.output)), k);
    PieceNames(j, k);
  }

  lemma PieceNames(j: Joint, k: nat)
    requires k < |j.carried| && k < |j.send.turns| && j.carried[k] < |j.mail.replies| && PieceOf(j, k)
    ensures var reply := j.mail.replies[j.carried[k]];
            reply.n < |j.mail.frames| && AnswersFrame(j.send.turns[k].data, j.mail.frames[reply.n], reply.status)
  {
  }

  // ------------------------------------------------------------ replies are sent

  lemma RepliesAreThreeBytes(signed: bool, ids: set<int>, steps: seq<MP.Step>, k: nat)
    requires k < |MP.Exec(MP.Init(signed, ids), steps).replies|
    ensures |MP.Exec(MP.Init(signed, ids), steps).replies[k].bytes| == 3
  {
    MailboxOrder.RepliesNameTheirFrames(signed, ids, steps);
    var s := MP.Exec(MP.Init(signed, ids), steps);
    hide MP.Exec, MP.Init;
    assert s.replies[k] in s.replies;
  }

  /** A task that is not in a send call makes its mailbox step. If that makes a reply, its
      thread then waits for the lock with just the reply's bytes; nothing is given up. */
  lemma StepsAreSent(signed: bool, ids: set<int>, producer: int, size: nat, moves: seq<Move>, step: MP.Step)
    requires size > 0
    requires var j := JointRun(Start(signed, ids, producer, size), moves);
             ThreadOf(j, step) in j.send.threads && j.send.threads[ThreadOf(j, step)] == Away
    ensures var j := JointRun(Start(signed, ids, producer, size), moves);
            var k, t, n := JointNext(j, Mail(step)), ThreadOf(j, step), |j.mail.replies|;
            && k.mail == MP.Next(j.mail, step) && k.dropped == j.dropped && k.carried == j.carried
            && if |k.mail.replies| == n then k.send == j.send
               else |k.mail.replies| == n + 1 && k.mail.replies[..n] == j.mail.replies
                    && |k.mail.replies[n].bytes| == 3 && k.current == j.current[t := n]
                    && k.send == j.send.(threads := j.send.threads[t := Waiting(k.mail.replies[n].bytes)])
  {
    var j := JointRun(Start(signed, ids, producer, size), moves);
    MailIsRun(signed, ids, producer, size, moves);
    RepliesGrow(j.mail, step);
    OneMore(MP.Init(signed, ids), j.executed, step);
    hide JointRun, Start, MP.Next, MP.Exec, MP.Init;
    if |MP.Next(j.mail, step).replies| > |j.mail.replies| {
      RepliesAreThreeBytes(signed, ids, j.executed + [step], |j.mail.replies|);
    }
  }

  /** The thread waits with reply `n`. */
  predicate WaitsWith(j: Joint, t: int, n: nat) {
    && t in j.send.threads && t in j.current && j.current[t] == n < |j.mail.replies|
    && j.mail.replies[n].bytes != [] && j.send.threads[t] == Waiting(j.mail.replies[n].bytes)
  }

  /** Move `i` of the run gives up waiting with reply `n`. */
  ghost predicate GivesUpAt(j: Joint, moves: seq<Move>, i: nat, n: nat) {
    && i < |moves| && moves[i].Send? && moves[i].sendStep.GiveUp?
    && WaitsWith(JointRun(j, moves[..i]), moves[i].sendStep.t, n)
  }

  lemma GivesUpInFront(j: Joint, moves: seq<Move>, i: nat, n: nat)
    requires moves != [] && GivesUpAt(j, moves[..|moves| - 1], i, n)
    ensures GivesUpAt(j, moves, i, n)
  {
    assert moves[..|moves| - 1][..i] == moves[..i];
    hide JointRun;
  }

  /** Only giving up adds to the dropped replies. */
  lemma MailDropsNothing(signed: bool, ids: set<int>, producer: int, size: nat, moves: seq<Move>, step: MP.Step)
    requires size > 0
    ensures var j := JointRun(Start(signed, ids, producer, size), moves);
            JointNext(j, Mail(step)).dropped == j.dropped
  {
    var j := JointRun(Start(signed, ids, producer, size), moves);
    if ThreadOf(j, step) in j.send.threads && j.send.threads[ThreadOf(j, step)] == Away {
      StepsAreSent(signed, ids, producer, size, moves, step);
      hide JointRun, Start, MP.Next;
    }
  }

  lemma SendDropsGivenUp(j: Joint, step: Senders.Step, n: nat)
    requires WaitingInv(j) && n in SendNext(j, step).dropped && n !in j.dropped
    ensures step.GiveUp? && WaitsWith(j, step.t, n)
  {
    hide Senders.Next;
  }

  /** A reply is given up only by its own thread, while it waits for the lock with it. */
  lemma {:induction false} DroppedWasGivenUp(signed: bool, ids: set<int>, producer: int, size: nat, moves: seq<Move>, n: nat)
    returns (i: nat)
    requires size > 0 && n in JointRun(Start(signed, ids, producer, size), moves).dropped
    ensures GivesUpAt(Start(signed, ids, producer, size), moves, i, n)
    decreases |moves|
  {
    var j0 := Start(signed, ids, producer, size);
    assert moves != [];
    var front, move := moves[..|moves| - 1], moves[|moves| - 1];
    var j := JointRun(j0, front);
    RunKeepsJoint(signed, ids, producer, size, front);
    hide Start, SendInv, FateInv, MailNext, SendNext;
    if n in j.dropped {
      i := DroppedWasGivenUp(signed, ids, producer, size, front, n);
      GivesUpInFront(j0, moves, i, n);
    } else {
      if move.Mail? {
        MailDropsNothing(signed, ids, producer, size, front, move.mailStep);
      } else {
        SendDropsGivenUp(j, move.sendStep, n);
      }
      i := |front|;
    }
  }
}
