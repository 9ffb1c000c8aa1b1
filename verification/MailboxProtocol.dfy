/**
 The mailbox hand-over as a step system. One producer (the websocket task's
 event handler) and any number of endpoint tasks with distinct ids share a queue
 of length one. Every queue call, status reply and `free` is a step of its own.
 A run is any sequence of steps; a step whose task cannot take it changes nothing.
 */
module MailboxProtocol {
  import opened Bytes
  import opened Frames

  const GPIO_ENDPOINT := 1

  const GPIO_SET_INPUT := 1
  const GPIO_SET_HIGH := 2
  const GPIO_SET_LOW := 3
  const GPIO_RESET := 5

  /** A message in memory: its arrival number (known only to the proof) and its fields. */
  datatype Msg = Msg(n: nat, content: Message)

  datatype ProducerPc =
    | Listening
    | Refusing(n: nat, frame: Frame)       // no memory for the message, about to say so
    | Checking(m: Msg)                     // about to ask whether a message is waiting
    | Receiving(m: Msg)                    // about to take the waiting message out
    | Evicting(m: Msg, prev: Msg)           // about to answer it "not received"
    | DroppingBody(m: Msg, prev: Msg)
    | DroppingMessage(m: Msg, prev: Msg)
    | Clearing(m: Msg)                     // fallback: about to reset the queue
    | Posting(m: Msg)                      // about to enqueue the new message

  datatype ConsumerPc =
    | Polling
    | Peeking
    | Comparing(m: Msg)                    // about to read the peeked message's endpoint
    | Taking(m: Msg)                       // about to reset the queue
    | Handling(m: Msg)                     // about to run the handler
    | Answering(m: Msg, status: int)
    | FreeingBody(m: Msg)
    | FreeingMessage(m: Msg)

  /** One answer attempt: which arrival it is for, the status, and the bytes handed to the sender. */
  datatype Reply = Reply(n: nat, status: int, bytes: seq<byte>)

  /** One run of a handler: the task that called it and the message it was given. */
  datatype HandlerRun = HandlerRun(id: int, m: Msg)

  /** The message allocator. `fault` records a read or a free of memory that is not live. */
  datatype Heap = Heap(liveMessages: set<nat>, liveBodies: set<nat>,
                       freedMessages: multiset<nat>, freedBodies: multiset<nat>, fault: bool)
  {
    function Allocate(n: nat): Heap {
      this.(liveMessages := liveMessages + {n}, liveBodies := liveBodies + {n})
    }

    function ReadMessage(n: nat): Heap {
      this.(fault := fault || n !in liveMessages)
    }

    function ReadBody(n: nat): Heap {
      this.(fault := fault || n !in liveBodies)
    }

    function FreeBody(n: nat): Heap {
      this.(fault := fault || n !in liveBodies, liveBodies := liveBodies - {n},
            freedBodies := freedBodies + multiset{n})
    }

    function FreeMessage(n: nat): Heap {
      this.(fault := fault || n !in liveMessages, liveMessages := liveMessages - {n},
            freedMessages := freedMessages + multiset{n})
    }
  }

  datatype State = State(
    signed: bool,                          // whether `char` is signed
    frames: seq<Frame>,                    // every frame that arrived, in order
    refused: set<nat>,                     // arrivals that got no memory
    producer: ProducerPc,
    queue: seq<Msg>,
    newest: int,                           // arrival number of the newest message enqueued, -1 before the first
    consumers: map<int, ConsumerPc>,       // the endpoint tasks by their id
    handled: seq<HandlerRun>,              // in order
    replies: seq<Reply>,
    pins: map<int, bool>,                  // level of every pin driven so far
    heap: Heap)

  datatype Step =
    | Arrive(frame: Frame, memory: bool)
    | Producer
    | Consumer(id: int, status: int)       // `status` is what a handler other than the GPIO one answers

  function Init(signed: bool, ids: set<int>): State {
    State(signed, [], {}, Listening, [], -1, map e | e in ids :: Polling, [], [], map[],
          Heap({}, {}, multiset{}, multiset{}, false))
  }

  function ReplyTo(m: Msg, status: int): Reply {
    Reply(m.n, status, StatusFrame(m.content.endpointId, m.content.messageId, status))
  }

  // ------------------------------------------------------------ GPIO commands

  /** The status the GPIO handler answers. */
  function GpioStatus(m: Message): int {
    if m.messageType in {GPIO_SET_INPUT, GPIO_SET_HIGH, GPIO_SET_LOW, GPIO_RESET} then MSG_OK
    else ERR_UNSUPPORTED_MESSAGE_TYPE
  }

  function GpioPin(signed: bool, m: Message): int {
    CharToInt(signed, m.body[0])
  }

  /** What the GPIO handler does to the pins. */
  function GpioEffect(signed: bool, pins: map<int, bool>, m: Message): map<int, bool> {
    if m.messageType == GPIO_SET_HIGH then pins[GpioPin(signed, m) := true]
    else if m.messageType == GPIO_SET_LOW then pins[GpioPin(signed, m) := false]
    else pins
  }

  // -------------------------------------------------------------------- steps

  function Send(queue: seq<Msg>, m: Msg): seq<Msg> {
    if |queue| < 1 then queue + [m] else queue
  }

  function ProducerNext(s: State): State {
    match s.producer
    case Listening => s
    case Refusing(n, frame) =>
      var reply := StatusFrame(CharToInt(s.signed, frame[0]), CharToInt(s.signed, frame[1]), ERR_NOT_ENOUGH_MEMORY);
      s.(producer := Listening, replies := s.replies + [Reply(n, ERR_NOT_ENOUGH_MEMORY, reply)])
    case Checking(m) =>
      s.(producer := if s.queue != [] then Receiving(m) else Posting(m))
    case Receiving(m) =>
      if s.queue != [] then s.(producer := Evicting(m, s.queue[0]), queue := s.queue[1..])
      else s.(producer := Clearing(m))
    case Evicting(m, prev) =>
      s.(producer := DroppingBody(m, prev), heap := s.heap.ReadMessage(prev.n),
         replies := s.replies + [ReplyTo(prev, ERR_NOT_RECEIVED)])
    case DroppingBody(m, prev) =>
      s.(producer := DroppingMessage(m, prev), heap := s.heap.ReadMessage(prev.n).FreeBody(prev.n))
    case DroppingMessage(m, prev) =>
      s.(producer := Posting(m), heap := s.heap.FreeMessage(prev.n))
    case Clearing(m) =>
      s.(producer := Posting(m), queue := [])
    case Posting(m) =>
      s.(producer := Listening, queue := Send(s.queue, m),
         newest := if s.queue == [] then m.n else s.newest)
  }

  function ConsumerNext(s: State, e: int, status: int): State
    requires e in s.consumers
  {
    match s.consumers[e]
    case Polling =>
      s.(consumers := s.consumers[e := if s.queue != [] then Peeking else Polling])
    case Peeking =>
      s.(consumers := s.consumers[e := if s.queue != [] then Comparing(s.queue[0]) else Polling])
    case Comparing(m) =>
      s.(consumers := s.consumers[e := if m.content.endpointId == e then Taking(m) else Polling],
         heap := s.heap.ReadMessage(m.n))
    case Taking(m) =>
      s.(consumers := s.consumers[e := Handling(m)], queue := [])
    case Handling(m) =>
      var answer := if e == GPIO_ENDPOINT then GpioStatus(m.content) else status;
      s.(consumers := s.consumers[e := Answering(m, answer)],
         handled := s.handled + [HandlerRun(e, m)],
         pins := if e == GPIO_ENDPOINT then GpioEffect(s.signed, s.pins, m.content) else s.pins,
         heap := s.heap.ReadMessage(m.n).ReadBody(m.n))
    case Answering(m, answer) =>
      s.(consumers := s.consumers[e := FreeingBody(m)], heap := s.heap.ReadMessage(m.n),
         replies := s.replies + [ReplyTo(m, answer)])
    case FreeingBody(m) =>
      s.(consumers := s.consumers[e := FreeingMessage(m)], heap := s.heap.ReadMessage(m.n).FreeBody(m.n))
    case FreeingMessage(m) =>
      s.(consumers := s.consumers[e := Polling], heap := s.heap.FreeMessage(m.n))
  }

  function Next(s: State, step: Step): State {
    match step
    case Arrive(frame, memory) =>
      if s.producer != Listening then s
      else
        var n := |s.frames|;
        if memory then
          s.(frames := s.frames + [frame], producer := Checking(Msg(n, Parse(s.signed, frame))),
             heap := s.heap.Allocate(n))
        else
          s.(frames := s.frames + [frame], producer := Refusing(n, frame), refused := s.refused + {n})
    case Producer => ProducerNext(s)
    case Consumer(e, status) => if e in s.consumers then ConsumerNext(s, e, status) else s
  }

  function Exec(s: State, steps: seq<Step>): State {
    if steps == [] then s else Next(Exec(s, steps[..|steps| - 1]), steps[|steps| - 1])
  }

  lemma ExecStep(s: State, steps: seq<Step>)
    requires steps != []
    ensures Exec(s, steps) == Next(Exec(s, steps[..|steps| - 1]), steps[|steps| - 1])
  {
    hide Next;
  }

  lemma ExecTake(s: State, steps: seq<Step>, k: nat)
    requires k < |steps|
    ensures Exec(s, steps[..k + 1]) == Next(Exec(s, steps[..k]), steps[k])
  {
    assert steps[..k + 1][..k] == steps[..k];
    ExecStep(s, steps[..k + 1]);
    hide Exec;
  }

  lemma {:induction false} ExecSplit(s: State, a: seq<Step>, b: seq<Step>)
    ensures Exec(s, a + b) == Exec(Exec(s, a), b)
  {
    hide Next;
    if b == [] {
      assert a + b == a;
    } else {
      ExecSplit(s, a, b[..|b| - 1]);
      assert (a + b)[..|a + b| - 1] == a + b[..|b| - 1];
    }
  }

  // ---------------------------------------------------------------- who holds

  predicate ProducerHolds(p: ProducerPc, n: nat) {
    match p
    case Listening => false
    case Refusing(k, _) => k == n
    case Evicting(m, _) => m.n == n
    case DroppingBody(m, _) => m.n == n
    case DroppingMessage(m, _) => m.n == n
    case Checking(m) => m.n == n
    case Receiving(m) => m.n == n
    case Clearing(m) => m.n == n
    case Posting(m) => m.n == n
  }

  /** The producer has emptied the queue and not yet enqueued. */
  predicate QueueEmptied(p: ProducerPc) {
    p.Evicting? || p.DroppingBody? || p.DroppingMessage? || p.Clearing? || p.Posting?
  }

  /** A task that has peeked but not yet emptied the queue. */
  predicate HasPeeked(c: ConsumerPc) {
    c.Comparing? || c.Taking?
  }

  /** A task that took its message out of the queue and still has it in memory. */
  predicate HasTaken(c: ConsumerPc) {
    c.Handling? || c.Answering? || c.FreeingBody? || c.FreeingMessage?
  }

  /** A task whose message is not answered yet. */
  predicate InHandler(c: ConsumerPc) {
    c.Handling? || c.Answering?
  }
}
