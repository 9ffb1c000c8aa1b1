/**
 Any number of tasks sending through the one transmit buffer and its lock, while the
 client task pings without the lock. A run is any sequence of steps; a step that is
 not possible changes nothing.
 */
module Senders {
  import opened Bytes
  import opened ChunkedSend

  type Data = d: seq<byte> | |d| > 0 witness [0]

  datatype Pc =
    | Away
    | Waiting(data: Data)                            // for the lock
    | Copying(data: Data, widx: nat)
    | Writing(data: Data, widx: nat, need: nat)      // the chunk is in the buffer
    | Releasing(r: int)

  /** What goes out on the transport: a data write or a ping. */
  datatype Output = Chunk(w: Write) | PingFrame

  /** One acquisition of the lock: whose data, how much of it was taken, the caller's
      result once it has one, and the writes it made. */
  datatype Turn = Turn(thread: int, data: Data, sent: nat, result: Option<int>, mine: seq<Write>)

  datatype State = State(size: nat, threads: map<int, Pc>, holder: Option<int>, buffer: seq<byte>,
                         output: seq<Output>, turns: seq<Turn>)

  datatype Step =
    | Begin(t: int, data: Data)
    | Take(t: int)
    | GiveUp(t: int)                                 // the lock timed out
    | Copy(t: int)
    | WriteOut(t: int, result: int)
    | Release(t: int)
    | PingOut

  function Init(size: nat, tasks: set<int>): State
    requires size > 0
  {
    State(size, map t | t in tasks :: Away, None, seq(size, _ => 0), [], [])
  }

  function LastTurn(turns: seq<Turn>, turn: Turn): seq<Turn> {
    if turns == [] then turns else turns[|turns| - 1 := turn]
  }

  function Longer(turn: Turn, w: Write): Turn {
    turn.(sent := turn.sent + Taken(w), mine := turn.mine + [w])
  }

  function LogWrite(turns: seq<Turn>, w: Write): seq<Turn> {
    if turns == [] then []
    else
      LastTurn(turns, Longer(turns[|turns| - 1], w))
  }

  function TakeNext(s: State, t: int): State
    requires t in s.threads && s.threads[t].Waiting?
  {
    var data := s.threads[t].data;
    s.(threads := s.threads[t := Copying(data, 0)], holder := Some(t), turns := s.turns + [Turn(t, data, 0, None, [])])
  }

  function CopyNext(s: State, t: int): State
    requires t in s.threads && s.threads[t].Copying?
  {
    var Copying(data, widx) := s.threads[t];
    var need := if widx < |data| then Min(|data| - widx, s.size) else 0;
    if need <= |s.buffer| && widx + need <= |data| then
      s.(threads := s.threads[t := Writing(data, widx, need)], buffer := data[widx..widx + need] + s.buffer[need..])
    else s
  }

  /** The write of the chunk in the buffer; the transport takes no more than offered. */
  function ChunkWrite(s: State, need: nat, answer: int): Write
    requires need <= |s.buffer|
  {
    Write(s.buffer[..need], if answer > need then need else answer)
  }

  function WriteNext(s: State, t: int, answer: int): State
    requires t in s.threads && s.threads[t].Writing?
  {
    var Writing(data, widx, need) := s.threads[t];
    if need > |s.buffer| then s
    else
      var w := ChunkWrite(s, need, answer);
      var result := w.result;
      var out := s.(output := s.output + [Chunk(w)], turns := LogWrite(s.turns, w));
      if result <= 0 then out.(threads := s.threads[t := Releasing(result)])
      else
        var sent := widx + result;
        out.(threads := s.threads[t := if sent < |data| then Copying(data, sent) else Releasing(sent)])
  }

  function ReleaseNext(s: State, t: int): State
    requires t in s.threads && s.threads[t].Releasing?
  {
    s.(threads := s.threads[t := Away], holder := None,
       turns := if s.turns == [] then [] else LastTurn(s.turns, s.turns[|s.turns| - 1].(result := Some(s.threads[t].r))))
  }

  function Next(s: State, step: Step): State {
    match step
    case Begin(t, data) => if t in s.threads && s.threads[t] == Away then s.(threads := s.threads[t := Waiting(data)]) else s
    case Take(t) => if t in s.threads && s.threads[t].Waiting? && s.holder == None then TakeNext(s, t) else s
    case GiveUp(t) => if t in s.threads && s.threads[t].Waiting? then s.(threads := s.threads[t := Away]) else s
    case Copy(t) => if t in s.threads && s.threads[t].Copying? then CopyNext(s, t) else s
    case WriteOut(t, answer) => if t in s.threads && s.threads[t].Writing? then WriteNext(s, t, answer) else s
    case Release(t) => if t in s.threads && s.threads[t].Releasing? then ReleaseNext(s, t) else s
    case PingOut => s.(output := s.output + [PingFrame])
  }

  function Run(s: State, steps: seq<Step>): State {
    if steps == [] then s else Next(Run(s, steps[..|steps| - 1]), steps[|steps| - 1])
  }

  // ------------------------------------------------------------------- invariant

  /** The data writes of the output, pings left out. */
  function DataWrites(output: seq<Output>): seq<Write> {
    if output == [] then []
    else
      var before := DataWrites(output[..|output| - 1]);
      match output[|output| - 1]
      case Chunk(w) => before + [w]
      case PingFrame => before
  }

  function TakenOf(turn: Turn): seq<byte> {
    if turn.sent <= |turn.data| then turn.data[..turn.sent] else turn.data
  }

  /** The prefixes of the callers' data, in lock-acquisition order. */
  function InTurn(turns: seq<Turn>): seq<byte> {
    if turns == [] then [] else InTurn(turns[..|turns| - 1]) + TakenOf(turns[|turns| - 1])
  }

  /** The writes of all turns, in lock-acquisition order. */
  function WritesInTurn(turns: seq<Turn>): seq<Write> {
    if turns == [] then [] else WritesInTurn(turns[..|turns| - 1]) + turns[|turns| - 1].mine
  }

  predicate Holds(pc: Pc) {
    pc.Copying? || pc.Writing? || pc.Releasing?
  }

  /** A caller that is done got its whole data out, or a failure and only a strict prefix. */
  predicate Settled(turn: Turn, r: int) {
    if r > 0 then r == turn.sent == |turn.data| else turn.sent < |turn.data|
  }

  /** The writes of a call under the lock, as a single sender makes them: chunks from the
      front, each taken at least in part but the one, if any, on which it failed; its
      result is that one's. */
  ghost predicate SentInChunks(turn: Turn, size: nat, r: int) {
    && turn.mine != [] && turn.sent == |Wire(turn.mine)|
    && InChunks(turn.data, size, turn.mine) && AllTaken(turn.mine[..|turn.mine| - 1])
    && if r > 0 then r == |turn.data| && Wire(turn.mine) == turn.data && AllTaken(turn.mine)
       else r == turn.mine[|turn.mine| - 1].result && Wire(turn.mine) < turn.data
  }

  ghost predicate Finished(turn: Turn, size: nat) {
    turn.result.Some? && Settled(turn, turn.result.value) && SentInChunks(turn, size, turn.result.value)
  }

  /** So far every write was taken at least in part. */
  ghost predicate SentSoFar(turn: Turn, size: nat) {
    && InChunks(turn.data, size, turn.mine) && AllTaken(turn.mine)
    && turn.sent <= |turn.data| && Wire(turn.mine) == turn.data[..turn.sent]
  }

  ghost predicate HolderInv(s: State, pc: Pc, turn: Turn) {
    && turn.result == None
    && match pc
       case Copying(data, widx) => data == turn.data && widx == turn.sent < |data| && SentSoFar(turn, s.size)
       case Writing(data, widx, need) =>
         && data == turn.data && widx == turn.sent < |data| && need == Min(|data| - widx, s.size) <= |s.buffer|
         && s.buffer[..need] == data[widx..widx + need] && SentSoFar(turn, s.size)
       case Releasing(r) => Settled(turn, r) && SentInChunks(turn, s.size, r)
       case _ => false
  }

  ghost predicate LockInv(s: State) {
    && |s.buffer| == s.size > 0
    && (forall t :: t in s.threads && Holds(s.threads[t]) ==> s.holder == Some(t))
    && match s.holder
       case None => forall k :: 0 <= k < |s.turns| ==> Finished(s.turns[k], s.size)
       case Some(t) =>
         && t in s.threads && s.turns != []
         && s.turns[|s.turns| - 1].thread == t && HolderInv(s, s.threads[t], s.turns[|s.turns| - 1])
         && forall k :: 0 <= k < |s.turns| - 1 ==> Finished(s.turns[k], s.size)
  }

  ghost predicate WireInv(s: State) {
    Wire(DataWrites(s.output)) == InTurn(s.turns) && DataWrites(s.output) == WritesInTurn(s.turns)
  }

  lemma BeginKeepsLock(s: State, step: Step)
    requires LockInv(s) && (step.Begin? || step.GiveUp? || step.PingOut?)
    ensures LockInv(Next(s, step))
  {
  }

  lemma TakeKeepsLock(s: State, t: int)
    requires LockInv(s) && t in s.threads && s.threads[t].Waiting? && s.holder == None
    ensures LockInv(TakeNext(s, t))
  {
  }

  lemma CopyKeepsLock(s: State, t: int)
    requires LockInv(s) && t in s.threads && s.threads[t].Copying?
    ensures LockInv(CopyNext(s, t))
  {
  }

  /** The write of the next chunk extends the call's writes as the chunk loop's do. */
  lemma WriteExtends(turn: Turn, size: nat, need: nat, result: int)
    requires SentSoFar(turn, size) && turn.sent < |turn.data| && need == Min(|turn.data| - turn.sent, size) && result <= need
    ensures var w := Write(turn.data[turn.sent..turn.sent + need], result);
            var longer := Longer(turn, w);
            && InChunks(turn.data, size, longer.mine)
            && longer.sent <= |turn.data| && Wire(longer.mine) == turn.data[..longer.sent]
            && longer.mine[..|longer.mine| - 1] == turn.mine && longer.mine[|longer.mine| - 1] == w
            && longer.sent == if result <= 0 then turn.sent else turn.sent + result
  {
    ChunkSent(turn.data, size, turn.mine, turn.sent, need, result);
    hide InChunks, Wire;
  }

  lemma PrefixLength(turn: Turn)
    requires turn.sent <= |turn.data| && Wire(turn.mine) == turn.data[..turn.sent]
    ensures turn.sent == |Wire(turn.mine)|
    ensures if turn.sent < |turn.data| then Wire(turn.mine) < turn.data else Wire(turn.mine) == turn.data
  {
    hide Wire;
  }

  /** A write either fails, which ends the call, or leaves a rest, or is the last. */
  lemma WriteContinues(turn: Turn, size: nat, need: nat, result: int)
    requires SentSoFar(turn, size) && turn.sent < |turn.data| && need == Min(|turn.data| - turn.sent, size) && result <= need
    ensures var longer := Longer(turn, Write(turn.data[turn.sent..turn.sent + need], result));
            if result <= 0 then longer.sent == turn.sent && Settled(longer, result) && SentInChunks(longer, size, result)
            else longer.sent == turn.sent + result
                 && if longer.sent < |turn.data| then SentSoFar(longer, size)
                    else Settled(longer, longer.sent) && SentInChunks(longer, size, longer.sent)
  {
    var longer := Longer(turn, Write(turn.data[turn.sent..turn.sent + need], result));
    WriteExtends(turn, size, need, result);
    assert longer.data == turn.data;
    PrefixLength(longer);
    hide Longer, InChunks, Wire, Taken;
  }

  lemma SliceJoins(data: seq<byte>, i: nat, k: nat, j: nat)
    requires i <= k <= j <= |data|
    ensures data[..i] + data[i..j][..k - i] == data[..k]
  {
  }

  lemma TakenGrows(turn: Turn, w: Write)
    requires turn.sent + |w.offered| <= |turn.data| && w.offered == turn.data[turn.sent..turn.sent + |w.offered|]
    ensures TakenOf(Longer(turn, w)) == TakenOf(turn) + w.offered[..Taken(w)]
  {
    SliceJoins(turn.data, turn.sent, turn.sent + Taken(w), turn.sent + |w.offered|);
  }

  /** What one write adds to the wire, and to the writer's turn. */
  lemma WriteAdds(s: State, t: int, answer: int)
    requires LockInv(s) && t in s.threads && s.threads[t].Writing?
    ensures var u := WriteNext(s, t, answer);
            var turn := s.turns[|s.turns| - 1];
            var w := ChunkWrite(s, s.threads[t].need, answer);
            && s.turns != []
            && u.output == s.output + [Chunk(w)]
            && u.turns == LastTurn(s.turns, Longer(turn, w))
            && TakenOf(Longer(turn, w)) == TakenOf(turn) + w.offered[..Taken(w)]
  {
    var need := s.threads[t].need;
    var turn := s.turns[|s.turns| - 1];
    assert HolderInv(s, s.threads[t], turn);
    TakenGrows(turn, ChunkWrite(s, need, answer));
    hide TakenOf, Taken, SentSoFar, Longer;
  }

  /** What becomes of the writer. */
  lemma WriterGoesOn(s: State, t: int, answer: int)
    requires t in s.threads && s.threads[t].Writing? && s.threads[t].need <= |s.buffer|
    ensures var u := WriteNext(s, t, answer);
            var Writing(data, widx, need) := s.threads[t];
            && u.size == s.size && u.buffer == s.buffer && u.holder == s.holder
            && u.threads == s.threads[t := Onward(data, widx, ChunkWrite(s, need, answer).result)]
  {
    hide LogWrite, ChunkWrite;
  }

  /** The writer's program counter fits its writes again. */
  lemma LongerHolds(u: State, turn: Turn, w: Write, pc: Pc)
    requires SentSoFar(turn, u.size) && turn.result == None && turn.sent < |turn.data|
    requires NextOf(turn, u.size, w)
    requires pc == Onward(turn.data, turn.sent, w.result)
    ensures HolderInv(u, pc, Longer(turn, w))
  {
    var need := Min(|turn.data| - turn.sent, u.size);
    assert w == Write(turn.data[turn.sent..turn.sent + need], w.result);
    WriteContinues(turn, u.size, need, w.result);
    hide SentSoFar, SentInChunks, Settled, Taken;
  }

  /** The write offers the next chunk of the turn's data. */
  predicate NextOf(turn: Turn, size: nat, w: Write)
    requires turn.sent < |turn.data|
  {
    var need := Min(|turn.data| - turn.sent, size);
    w.offered == turn.data[turn.sent..turn.sent + need] && w.result <= need
  }

  /** Where the writer goes on from a write with this result. */
  function Onward(data: Data, widx: nat, result: int): Pc {
    if result <= 0 then Releasing(result)
    else if widx + result < |data| then Copying(data, widx + result)
    else Releasing(widx + result)
  }

  lemma WriterFacts(s: State, t: int)
    requires LockInv(s) && t in s.threads && s.threads[t].Writing?
    ensures s.holder == Some(t) && s.turns != []
    ensures var Writing(data, widx, need) := s.threads[t];
            var turn := s.turns[|s.turns| - 1];
            && turn.thread == t && turn.data == data && turn.sent == widx < |data| && turn.result == None
            && 0 < need == Min(|data| - widx, s.size) <= |s.buffer| && SentSoFar(turn, s.size)
            && forall answer :: NextOf(turn, s.size, ChunkWrite(s, need, answer))
  {
    hide SentSoFar, Finished;
  }

  lemma LastTurnIs(turns: seq<Turn>, turn: Turn)
    requires turns != []
    ensures var u := LastTurn(turns, turn);
            |u| == |turns| && u[|u| - 1] == turn && forall k :: 0 <= k < |u| - 1 ==> u[k] == turns[k]
  {
  }

  lemma WriteKeepsHolder(s: State, t: int, answer: int)
    requires LockInv(s) && t in s.threads && s.threads[t].Writing?
    ensures var u := WriteNext(s, t, answer);
            && |u.turns| == |s.turns| > 0 && t in u.threads
            && u.turns[|u.turns| - 1].thread == t && u.turns[|u.turns| - 1].data == s.turns[|s.turns| - 1].data
            && HolderInv(u, u.threads[t], u.turns[|u.turns| - 1])
            && forall k :: 0 <= k < |s.turns| - 1 ==> u.turns[k] == s.turns[k]
  {
    WriterFacts(s, t);
    WriteAdds(s, t, answer);
    WriterGoesOn(s, t, answer);
    hide WriteNext, SentSoFar, HolderInv, LastTurn, LockInv, TakenOf, Taken, ChunkWrite, NextOf, Onward;
    var turn := s.turns[|s.turns| - 1];
    var w := ChunkWrite(s, s.threads[t].need, answer);
    var u := WriteNext(s, t, answer);
    LastTurnIs(s.turns, Longer(turn, w));
    LongerHolds(u, turn, w, u.threads[t]);
  }

  lemma WriteKeepsLock(s: State, t: int, answer: int)
    requires LockInv(s) && t in s.threads && s.threads[t].Writing?
    ensures LockInv(WriteNext(s, t, answer))
  {
    WriteKeepsHolder(s, t, answer);
    WriterGoesOn(s, t, answer);
    hide WriteNext, HolderInv, Finished;
  }

  lemma ReleaseKeepsLock(s: State, t: int)
    requires LockInv(s) && t in s.threads && s.threads[t].Releasing?
    ensures LockInv(ReleaseNext(s, t))
  {
  }

  lemma OutputAppend(output: seq<Output>, o: Output)
    ensures DataWrites(output + [o]) == match o case Chunk(w) => DataWrites(output) + [w] case PingFrame => DataWrites(output)
  {
    assert (output + [o])[..|output|] == output;
  }

  lemma TurnAppend(turns: seq<Turn>, turn: Turn)
    ensures InTurn(turns + [turn]) == InTurn(turns) + TakenOf(turn)
    ensures WritesInTurn(turns + [turn]) == WritesInTurn(turns) + turn.mine
  {
    assert (turns + [turn])[..|turns|] == turns;
  }

  /** Replacing the last turn replaces its contribution. */
  lemma TurnReplace(turns: seq<Turn>, turn: Turn)
    requires turns != []
    ensures InTurn(LastTurn(turns, turn)) == InTurn(turns[..|turns| - 1]) + TakenOf(turn)
    ensures InTurn(turns) == InTurn(turns[..|turns| - 1]) + TakenOf(turns[|turns| - 1])
    ensures WritesInTurn(LastTurn(turns, turn)) == WritesInTurn(turns[..|turns| - 1]) + turn.mine
    ensures WritesInTurn(turns) == WritesInTurn(turns[..|turns| - 1]) + turns[|turns| - 1].mine
  {
    assert LastTurn(turns, turn)[..|turns| - 1] == turns[..|turns| - 1];
  }

  lemma WriteKeepsWire(s: State, t: int, answer: int)
    requires LockInv(s) && WireInv(s) && t in s.threads && s.threads[t].Writing?
    ensures WireInv(WriteNext(s, t, answer))
  {
    WriteAdds(s, t, answer);
    var need := s.threads[t].need;
    var w := ChunkWrite(s, need, answer);
    var turn := s.turns[|s.turns| - 1];
    var longer := Longer(turn, w);
    hide Wire, DataWrites, InTurn, WritesInTurn, WriteNext, LockInv, LastTurn, TakenOf, Taken;
    OutputAppend(s.output, Chunk(w));
    WireAppend(DataWrites(s.output), w);
    TurnReplace(s.turns, longer);
    Associative(InTurn(s.turns[..|s.turns| - 1]), TakenOf(turn), w.offered[..Taken(w)]);
    Associative(WritesInTurn(s.turns[..|s.turns| - 1]), turn.mine, [w]);
  }

  lemma Associative<T>(a: seq<T>, b: seq<T>, c: seq<T>)
    ensures a + (b + c) == (a + b) + c
  {
  }

  lemma TakeKeepsWire(s: State, t: int)
    requires WireInv(s) && t in s.threads && s.threads[t].Waiting?
    ensures WireInv(TakeNext(s, t))
  {
    TurnAppend(s.turns, Turn(t, s.threads[t].data, 0, None, []));
    hide Wire, DataWrites, InTurn, WritesInTurn;
  }

  lemma ReleaseKeepsWire(s: State, t: int)
    requires WireInv(s) && t in s.threads && s.threads[t].Releasing?
    ensures WireInv(ReleaseNext(s, t))
  {
    if s.turns != [] {
      TurnReplace(s.turns, s.turns[|s.turns| - 1].(result := Some(s.threads[t].r)));
    }
    hide Wire, DataWrites, InTurn, WritesInTurn;
  }

  lemma StepKeepsAll(s: State, step: Step)
    requires LockInv(s) && WireInv(s)
    ensures LockInv(Next(s, step)) && WireInv(Next(s, step))
  {
    hide TakeNext, CopyNext, WriteNext, ReleaseNext;
    match step
    case Begin(_, _) => BeginKeepsLock(s, step);
    case GiveUp(_) => BeginKeepsLock(s, step);
    case PingOut =>
      BeginKeepsLock(s, step);
      OutputAppend(s.output, PingFrame);
    case Take(t) =>
      if t in s.threads && s.threads[t].Waiting? && s.holder == None {
        TakeKeepsLock(s, t);
        TakeKeepsWire(s, t);
      }
    case Copy(t) =>
      if t in s.threads && s.threads[t].Copying? {
        CopyKeepsLock(s, t);
        CopyKeepsWire(s, t);
      }
    case WriteOut(t, answer) =>
      if t in s.threads && s.threads[t].Writing? {
        WriteKeepsLock(s, t, answer);
        WriteKeepsWire(s, t, answer);
      }
    case Release(t) =>
      if t in s.threads && s.threads[t].Releasing? {
        ReleaseKeepsLock(s, t);
        ReleaseKeepsWire(s, t);
      }
  }

  lemma CopyKeepsWire(s: State, t: int)
    requires WireInv(s) && t in s.threads && s.threads[t].Copying?
    ensures WireInv(CopyNext(s, t))
  {
  }

  lemma {:induction false} RunKeepsAll(size: nat, tasks: set<int>, steps: seq<Step>)
    requires size > 0
    ensures LockInv(Run(Init(size, tasks), steps)) && WireInv(Run(Init(size, tasks), steps))
  {
    if steps != [] {
      hide Next, LockInv, WireInv, Init;
      RunKeepsAll(size, tasks, steps[..|steps| - 1]);
      StepKeepsAll(Run(Init(size, tasks), steps[..|steps| - 1]), steps[|steps| - 1]);
    }
  }

  // --------------------------------------------------------------- what it means

  /** For any number of senders, lock timeouts and partial writes: the data on the wire,
      pings left out, are the callers' prefixes one after another in the order in which
      they got the lock. The writes are those of one turn after another, and each turn but
      a current holder's made them as a single sender's chunk loop does: on after every
      write that took something, until all is taken or a write fails; its result is the
      length or that write's. */
  lemma SendersLinearise(size: nat, tasks: set<int>, steps: seq<Step>)
    requires size > 0
    ensures var s := Run(Init(size, tasks), steps);
            && Wire(DataWrites(s.output)) == InTurn(s.turns) && DataWrites(s.output) == WritesInTurn(s.turns)
            && (forall k :: 0 <= k < |s.turns| && s.turns[k].result.Some? ==>
                  Settled(s.turns[k], s.turns[k].result.value) && SentInChunks(s.turns[k], size, s.turns[k].result.value))
            && (forall k :: 0 <= k < |s.turns| && s.turns[k].result.None? ==> k == |s.turns| - 1 && s.holder.Some?)
  {
    RunKeepsAll(size, tasks, steps);
    SizeIsFixed(size, tasks, steps);
    hide Run, Init, InTurn, WritesInTurn, Wire, DataWrites, LockInv, SentInChunks;
    TurnsAreSettled(Run(Init(size, tasks), steps));
  }

  lemma TurnsAreSettled(s: State)
    requires LockInv(s)
    ensures forall k :: 0 <= k < |s.turns| && s.turns[k].result.Some? ==>
              Settled(s.turns[k], s.turns[k].result.value) && SentInChunks(s.turns[k], s.size, s.turns[k].result.value)
    ensures forall k :: 0 <= k < |s.turns| && s.turns[k].result.None? ==> k == |s.turns| - 1 && s.holder.Some?
  {
    hide Settled, SentInChunks;
    assert forall k :: 0 <= k < |s.turns| - 1 ==> Finished(s.turns[k], s.size);
  }

  /** From the copy into the transmit buffer to the matching write, the buffer keeps
      the chunk of the task that copied it, whatever the other tasks do. */
  lemma BufferIsTheWritersChunk(size: nat, tasks: set<int>, steps: seq<Step>, t: int)
    requires size > 0
    requires t in Run(Init(size, tasks), steps).threads && Run(Init(size, tasks), steps).threads[t].Writing?
    ensures var s := Run(Init(size, tasks), steps);
            var Writing(data, widx, need) := s.threads[t];
            && 0 < need <= size == |s.buffer| && widx + need <= |data|
            && s.buffer[..need] == data[widx..widx + need]
  {
    RunKeepsAll(size, tasks, steps);
    SizeIsFixed(size, tasks, steps);
    hide Run, Init;
  }

  lemma {:induction false} SizeIsFixed(size: nat, tasks: set<int>, steps: seq<Step>)
    requires size > 0
    ensures Run(Init(size, tasks), steps).size == size
  {
    if steps != [] {
      SizeIsFixed(size, tasks, steps[..|steps| - 1]);
    }
  }

  /** When nobody is sending and every caller was told its message went out, the wire
      is exactly the messages, whole, in lock order. */
  lemma AllSentMeansWholeMessages(size: nat, tasks: set<int>, steps: seq<Step>)
    requires size > 0 && Run(Init(size, tasks), steps).holder == None
    requires forall turn :: turn in Run(Init(size, tasks), steps).turns ==> turn.result.Some? && turn.result.value > 0
    ensures var s := Run(Init(size, tasks), steps);
            Wire(DataWrites(s.output)) == Messages(s.turns)
  {
    SendersLinearise(size, tasks, steps);
    var s := Run(Init(size, tasks), steps);
    hide Run, Init, Wire, DataWrites;
    WholeTurns(s.turns);
  }

  function Messages(turns: seq<Turn>): seq<byte> {
    if turns == [] then [] else Messages(turns[..|turns| - 1]) + turns[|turns| - 1].data
  }

  lemma {:induction false} WholeTurns(turns: seq<Turn>)
    requires forall k :: 0 <= k < |turns| ==> turns[k].sent == |turns[k].data|
    ensures InTurn(turns) == Messages(turns)
  {
    if turns != [] {
      WholeTurns(turns[..|turns| - 1]);
    }
  }

  /** Status replies are three bytes long: when all of them went out, the wire is the
      replies, each in one piece at its own place. */
  lemma {:induction false} StatusFramesStayWhole(turns: seq<Turn>, k: nat)
    requires k < |turns| && forall turn :: turn in turns ==> |turn.data| == 3
    ensures |Messages(turns)| == 3 * |turns| && Messages(turns)[3 * k..3 * k + 3] == turns[k].data
  {
    var front := turns[..|turns| - 1];
    if front == [] {
      assert Messages(front) == [];
    } else {
      StatusFramesStayWhole(front, if k < |front| then k else 0);
    }
    hide Messages;
    assert Messages(turns) == Messages(front) + turns[|turns| - 1].data by { MessagesStep(turns); }
  }

  lemma MessagesStep(turns: seq<Turn>)
    requires turns != []
    ensures Messages(turns) == Messages(turns[..|turns| - 1]) + turns[|turns| - 1].data
  {
  }

  // ------------------------------------------------------------------- progress

  /** A step of the lock's holder. */
  predicate OfHolder(step: Step) {
    step.Copy? || step.WriteOut? || step.Release?
  }

  /** The further steps are the holder's. */
  ghost predicate Extends(steps: seq<Step>, more: seq<Step>) {
    steps <= more && forall k :: |steps| <= k < |more| ==> OfHolder(more[k])
  }

  /** The call of thread `t` is over with all its data taken, and nothing else happened. */
  ghost predicate SentWhole(s: State, u: State, t: int, data: Data, before: nat) {
    && LockInv(u) && u.size == s.size && u.holder == None
    && t in s.threads && u.threads == s.threads[t := Away]
    && |u.turns| == before + 1 && before <= |s.turns| && u.turns[..before] == s.turns[..before]
    && u.turns[before].thread == t && u.turns[before].data == data && u.turns[before].result == Some(|data|)
  }

  lemma CopyLeads(s: State, t: int) returns (u: State)
    requires LockInv(s) && t in s.threads && s.threads[t].Copying?
    ensures u == Next(s, Copy(t)) && LockInv(u)
    ensures var Copying(data, widx) := s.threads[t];
            && widx < |data| && s.holder == Some(t) && s.turns != [] && s.turns[|s.turns| - 1].data == data
            && u.threads == s.threads[t := Writing(data, widx, Min(|data| - widx, s.size))]
            && u.turns == s.turns && u.holder == s.holder && u.size == s.size
  {
    CopyKeepsLock(s, t);
    u := CopyNext(s, t);
    assert HolderInv(s, s.threads[t], s.turns[|s.turns| - 1]);
    hide SentSoFar, Finished;
  }

  /** A write the transport takes whole. */
  lemma WriteLeads(s: State, t: int) returns (u: State)
    requires LockInv(s) && t in s.threads && s.threads[t].Writing?
    ensures u == Next(s, WriteOut(t, s.size)) && LockInv(u)
    ensures var Writing(data, widx, need) := s.threads[t];
            && need == Min(|data| - widx, s.size) > 0
            && u.threads == s.threads[t := if widx + need < |data| then Copying(data, widx + need) else Releasing(|data|)]
            && |u.turns| == |s.turns| > 0 && u.turns[..|s.turns| - 1] == s.turns[..|s.turns| - 1]
            && u.turns[|s.turns| - 1].data == s.turns[|s.turns| - 1].data
            && u.holder == s.holder && u.size == s.size
  {
    WriterFacts(s, t);
    WriteKeepsLock(s, t, s.size);
    WriteKeepsHolder(s, t, s.size);
    WriterGoesOn(s, t, s.size);
    u := WriteNext(s, t, s.size);
    hide WriteNext, SentSoFar, Finished, LockInv, HolderInv;
  }

  lemma ReleaseLeads(s: State, t: int) returns (u: State)
    requires LockInv(s) && t in s.threads && s.threads[t].Releasing?
    ensures u == Next(s, Release(t)) && LockInv(u)
    ensures && s.turns != [] && u.threads == s.threads[t := Away] && u.holder == None && u.size == s.size
            && u.turns == LastTurn(s.turns, s.turns[|s.turns| - 1].(result := Some(s.threads[t].r)))
            && s.turns[|s.turns| - 1].thread == t
  {
    ReleaseKeepsLock(s, t);
    u := ReleaseNext(s, t);
  }

  lemma ThreadTwice(threads: map<int, Pc>, t: int, a: Pc, b: Pc)
    ensures threads[t := a][t := b] == threads[t := b]
  {
  }

  lemma RunMore(s: State, steps: seq<Step>, step: Step)
    ensures Run(s, steps + [step]) == Next(Run(s, steps), step)
  {
    hide Next;
    assert (steps + [step])[..|steps|] == steps;
  }

  /** A caller that has the lock can finish, chunk by chunk. */
  lemma {:induction false} HolderCanFinish(s0: State, steps: seq<Step>, t: int, data: Data) returns (more: seq<Step>)
    requires var s := Run(s0, steps);
             LockInv(s) && t in s.threads && s.threads[t].Copying? && s.threads[t].data == data
    ensures Run(s0, steps).turns != []
    ensures SentWhole(Run(s0, steps), Run(s0, more), t, data, |Run(s0, steps).turns| - 1) && Extends(steps, more)
    decreases |data| - Run(s0, steps).threads[t].widx
  {
    hide Run, LockInv, Next, Finished;
    var s := Run(s0, steps);
    var c := CopyLeads(s, t);
    more := steps + [Copy(t)];
    RunMore(s0, steps, Copy(t));
    var w := WriteLeads(c, t);
    RunMore(s0, more, WriteOut(t, c.size));
    more := more + [WriteOut(t, c.size)];
    ThreadTwice(s.threads, t, c.threads[t], w.threads[t]);
    if w.threads[t].Copying? {
      more := HolderCanFinish(s0, more, t, data);
      ThreadTwice(s.threads, t, w.threads[t], Away);
    } else {
      var u := ReleaseLeads(w, t);
      RunMore(s0, more, Release(t));
      more := more + [Release(t)];
      ThreadTwice(s.threads, t, w.threads[t], Away);
    }
  }

  /** A caller waiting for a free lock can take it and send all its data. */
  lemma TakerCanFinish(s0: State, steps: seq<Step>, t: int, data: Data) returns (more: seq<Step>)
    requires var s := Run(s0, steps);
             LockInv(s) && s.holder == None && t in s.threads && s.threads[t] == Waiting(data)
    ensures SentWhole(Run(s0, steps), Run(s0, more), t, data, |Run(s0, steps).turns|)
  {
    var s := Run(s0, steps);
    more := steps + [Take(t)];
    RunMore(s0, steps, Take(t));
    TakeKeepsLock(s, t);
    hide Run, LockInv, Finished;
    more := HolderCanFinish(s0, more, t, data);
    ThreadTwice(s.threads, t, Copying(data, 0), Away);
  }

  /** The lock is free again and its holder gone; nobody else moved. */
  ghost predicate Released(s: State, u: State, t: int) {
    && LockInv(u) && u.holder == None && |u.turns| == |s.turns|
    && t in s.threads && u.threads == s.threads[t := Away]
  }

  lemma ReleaserCanRelease(s0: State, steps: seq<Step>, t: int) returns (more: seq<Step>)
    requires var s := Run(s0, steps); LockInv(s) && t in s.threads && s.threads[t].Releasing?
    ensures Released(Run(s0, steps), Run(s0, more), t) && Extends(steps, more)
  {
    hide Run, LockInv, Next;
    var u := ReleaseLeads(Run(s0, steps), t);
    RunMore(s0, steps, Release(t));
    more := steps + [Release(t)];
  }

  lemma CopierCanRelease(s0: State, steps: seq<Step>, t: int) returns (more: seq<Step>)
    requires var s := Run(s0, steps); LockInv(s) && t in s.threads && s.threads[t].Copying?
    ensures Released(Run(s0, steps), Run(s0, more), t) && Extends(steps, more)
  {
    hide Run, LockInv, Next;
    more := HolderCanFinish(s0, steps, t, Run(s0, steps).threads[t].data);
  }

  lemma WriterCanRelease(s0: State, steps: seq<Step>, t: int) returns (more: seq<Step>)
    requires var s := Run(s0, steps); LockInv(s) && t in s.threads && s.threads[t].Writing?
    ensures Released(Run(s0, steps), Run(s0, more), t) && Extends(steps, more)
  {
    hide Run, LockInv, Next;
    var s := Run(s0, steps);
    var w := WriteLeads(s, t);
    var written := steps + [WriteOut(t, s.size)];
    RunMore(s0, steps, WriteOut(t, s.size));
    if w.threads[t].Releasing? {
      more := ReleaserCanRelease(s0, written, t);
    } else {
      more := CopierCanRelease(s0, written, t);
    }
    ThreadTwice(s.threads, t, w.threads[t], Away);
  }

  /** The lock's holder can let it go, however far it is. */
  lemma HolderCanRelease(s0: State, steps: seq<Step>) returns (more: seq<Step>)
    requires LockInv(Run(s0, steps)) && Run(s0, steps).holder.Some?
    ensures Released(Run(s0, steps), Run(s0, more), Run(s0, steps).holder.value) && Extends(steps, more)
  {
    HolderInTheMiddle(Run(s0, steps));
    hide Run, LockInv;
    var t := Run(s0, steps).holder.value;
    match Run(s0, steps).threads[t]
    case Copying(_, _) => more := CopierCanRelease(s0, steps, t);
    case Writing(_, _, _) => more := WriterCanRelease(s0, steps, t);
    case Releasing(_) => more := ReleaserCanRelease(s0, steps, t);
  }

  lemma HolderInTheMiddle(s: State)
    requires LockInv(s) && s.holder.Some?
    ensures s.holder.value in s.threads && Holds(s.threads[s.holder.value])
  {
    hide Finished, SentSoFar, SentInChunks, Settled;
  }

  /** Nobody is ever locked out: from every reachable state a caller that waits can still
      get the lock and have all its data taken. */
  lemma EveryWaiterCanSend(size: nat, tasks: set<int>, steps: seq<Step>, t: int) returns (more: seq<Step>)
    requires size > 0
    requires t in Run(Init(size, tasks), steps).threads && Run(Init(size, tasks), steps).threads[t].Waiting?
    ensures var u, data := Run(Init(size, tasks), more), Run(Init(size, tasks), steps).threads[t].data;
            && u.turns != [] && u.threads.Keys == Run(Init(size, tasks), steps).threads.Keys
            && u.turns[|u.turns| - 1].thread == t && u.turns[|u.turns| - 1].data == data
            && u.turns[|u.turns| - 1].result == Some(|data|)
  {
    RunKeepsAll(size, tasks, steps);
    var s := Run(Init(size, tasks), steps);
    var data := s.threads[t].data;
    more := steps;
    if s.holder.Some? {
      HolderInTheMiddle(s);
      more := HolderCanRelease(Init(size, tasks), steps);
    }
    hide Run, Init, LockInv;
    more := TakerCanFinish(Init(size, tasks), more, t, data);
  }
}
