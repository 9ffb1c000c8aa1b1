/**
 Message memory: precisely in the runs whose peeked messages are still in memory when
 they are compared, and still queued when they are taken, each message and its body
 have one owner from allocation to release, are released exactly once and are never
 touched afterwards.
 */
module MailboxMemory {
  import opened Frames
  import opened MailboxProtocol
  import opened MailboxOrder
  import opened MailboxAnswers

  /** A message is two allocations. */
  datatype Part = Record | Payload

  datatype Owner = New | Previous | Slot | Task(id: int)

  function Live(h: Heap, part: Part): set<nat> {
    if part.Record? then h.liveMessages else h.liveBodies
  }

  function Freed(h: Heap, part: Part): multiset<nat> {
    if part.Record? then h.freedMessages else h.freedBodies
  }

  predicate Owns(s: State, n: nat, part: Part, o: Owner) {
    match o
    case New => !s.producer.Refusing? && ProducerHolds(s.producer, n)
    case Previous =>
      && (s.producer.Evicting? || s.producer.DroppingBody? || (s.producer.DroppingMessage? && part.Record?))
      && s.producer.prev.n == n
    case Slot => s.queue != [] && s.queue[0].n == n
    case Task(e) =>
      && e in s.consumers && HasTaken(s.consumers[e]) && s.consumers[e].m.n == n
      && (s.consumers[e].FreeingMessage? ==> part.Record?)
  }

  ghost predicate HasOwner(s: State, n: nat, part: Part) {
    exists o :: Owns(s, n, part, o)
  }

  /** The evicted message is in no task's hands. */
  ghost predicate NoSharing(s: State) {
    s.producer.Evicting? || s.producer.DroppingBody? || s.producer.DroppingMessage? ==>
      forall e :: e in s.consumers && HasTaken(s.consumers[e]) ==> s.consumers[e].m.n != s.producer.prev.n
  }

  /** Live memory is owned memory, and what is no longer live was released once. */
  ghost predicate Accounted(s: State, n: nat, part: Part) {
    && (n in Live(s.heap, part) <==> HasOwner(s, n, part))
    && Freed(s.heap, part)[n] == if n < |s.frames| && n !in s.refused && n !in Live(s.heap, part) then 1 else 0
  }

  ghost predicate RefusedInv(s: State) {
    && (forall n :: n in s.refused ==> n < |s.frames| && forall part :: n !in Live(s.heap, part))
    && (s.producer.Refusing? ==> s.producer.n in s.refused)
  }

  ghost predicate MemorySafe(s: State) {
    && !s.heap.fault
    && NoSharing(s)
    && RefusedInv(s)
    && forall n: nat, part: Part :: Accounted(s, n, part)
  }

  /** A task about to compare its peeked message finds it still in someone's hands or in
      the queue; one about to take it finds it still queued. */
  ghost predicate Harmless(s: State, step: Step) {
    && Undisturbed(s, step)
    && (step.Consumer? && step.id in s.consumers && s.consumers[step.id].Comparing?
        ==> HasOwner(s, s.consumers[step.id].m.n, Record))
  }

  ghost predicate AlwaysMemorySafe(s: State, steps: seq<Step>) {
    forall k :: 0 <= k <= |steps| ==> MemorySafe(Exec(s, steps[..k]))
  }

  ghost predicate AlwaysHarmless(s: State, steps: seq<Step>) {
    forall k :: 0 <= k < |steps| ==> Harmless(Exec(s, steps[..k]), steps[k])
  }

  /** A task that has peeked finds its message still queued when it compares or takes it. */
  predicate Uninterrupted(s: State, step: Step) {
    (step.Consumer? && step.id in s.consumers && HasPeeked(s.consumers[step.id]))
    ==> s.queue == [s.consumers[step.id].m]
  }

  ghost predicate AlwaysUninterrupted(s: State, steps: seq<Step>) {
    forall k :: 0 <= k < |steps| ==> Uninterrupted(Exec(s, steps[..k]), steps[k])
  }

  lemma OwnerIsUnique(s: State, n: nat, part: Part, other: Part, o: Owner, p: Owner)
    requires Ordered(s) && NoSharing(s) && Owns(s, n, part, o) && Owns(s, n, other, p)
    ensures o == p
  {
    hide AnswersFrame, Parse, HandledInv, RepliesInv;
    if o.Task? {
      assert ConsumerInv(s, o.id, s.consumers[o.id]);
    }
    if p.Task? {
      assert ConsumerInv(s, p.id, s.consumers[p.id]);
    }
  }

  // ----------------------------------------------------------------- producer

  predicate ProducerReleases(s: State, n: nat, part: Part) {
    (if part.Record? then s.producer.DroppingMessage? else s.producer.DroppingBody?) && s.producer.prev.n == n
  }

  /** What the producer's step does to the allocator. */
  lemma ProducerUsesHeap(s: State)
    ensures ProducerNext(s).heap ==
            match s.producer
            case Evicting(_, prev) => s.heap.ReadMessage(prev.n)
            case DroppingBody(_, prev) => s.heap.ReadMessage(prev.n).FreeBody(prev.n)
            case DroppingMessage(_, prev) => s.heap.FreeMessage(prev.n)
            case _ => s.heap
  {
    hide ReplyTo, StatusFrame, Send, Parse, Heap.ReadMessage, Heap.FreeBody, Heap.FreeMessage;
  }

  lemma ProducerHeap(s: State, n: nat, part: Part)
    ensures var t := ProducerNext(s);
            && (n in Live(t.heap, part) <==> n in Live(s.heap, part) && !ProducerReleases(s, n, part))
            && Freed(t.heap, part)[n] == Freed(s.heap, part)[n] + if ProducerReleases(s, n, part) then 1 else 0
  {
    hide ProducerNext;
    ProducerUsesHeap(s);
  }

  lemma ProducerOwns(s: State, n: nat, part: Part, o: Owner) returns (q: Owner)
    requires QueueInv(s) && Owns(s, n, part, o) && !(o.Previous? && ProducerReleases(s, n, part))
    ensures Owns(ProducerNext(s), n, part, q)
  {
    hide ReplyTo, StatusFrame, Genuine, Heap.ReadMessage, Heap.FreeBody, Heap.FreeMessage;
    q := if o.New? && s.producer.Posting? then Slot else if o.Slot? && s.producer.Receiving? then Previous else o;
  }

  lemma ProducerOwned(s: State, n: nat, part: Part, q: Owner) returns (o: Owner)
    requires QueueInv(s) && Owns(ProducerNext(s), n, part, q)
    ensures Owns(s, n, part, o) && !(o.Previous? && ProducerReleases(s, n, part))
  {
    hide ReplyTo, StatusFrame, Genuine, Heap.ReadMessage, Heap.FreeBody, Heap.FreeMessage;
    o := if q.Slot? && s.producer.Posting? then New else if q.Previous? && s.producer.Receiving? then Slot else q;
  }

  lemma ProducerAccounts(s: State, n: nat, part: Part)
    requires Ordered(s) && NoSharing(s) && Accounted(s, n, part)
    requires n in Live(s.heap, part) ==> n < |s.frames| && n !in s.refused
    ensures Accounted(ProducerNext(s), n, part)
  {
    var t := ProducerNext(s);
    ProducerHeap(s, n, part);
    ProducerTouchesOnly(s);
    if ProducerReleases(s, n, part) {
      assert Owns(s, n, part, Previous);
    }
    hide ProducerNext, Owns, Live, Freed, ConsumerInv, HandledInv, RepliesInv, ProducerInv, ProducerReleases;
    if o :| Owns(s, n, part, o) {
      if ProducerReleases(s, n, part) {
        forall q | Owns(t, n, part, q) ensures false {
          var c := ProducerOwned(s, n, part, q);
          OwnerIsUnique(s, n, part, part, c, Previous);
        }
      } else {
        var q := ProducerOwns(s, n, part, o);
      }
    } else {
      forall q | Owns(t, n, part, q) ensures false {
        var c := ProducerOwned(s, n, part, q);
      }
    }
  }

  lemma ProducerReadsLive(s: State)
    requires MemorySafe(s)
    ensures !ProducerNext(s).heap.fault
  {
    hide ReplyTo, StatusFrame, NoSharing, RefusedInv;
    if s.producer.Evicting? || s.producer.DroppingBody? || s.producer.DroppingMessage? {
      var n := s.producer.prev.n;
      assert Owns(s, n, Record, Previous);
      assert Accounted(s, n, Record);
      if !s.producer.DroppingMessage? {
        assert Owns(s, n, Payload, Previous);
        assert Accounted(s, n, Payload);
      }
    }
  }

  lemma ProducerKeepsSharing(s: State)
    requires Ordered(s) && NoSharing(s)
    ensures NoSharing(ProducerNext(s))
  {
    ProducerTouchesOnly(s);
    hide ReplyTo, StatusFrame, Genuine, Heap.ReadMessage, Heap.FreeBody, Heap.FreeMessage, HandledInv, RepliesInv;
    assert forall e :: e in s.consumers ==> HoldsInv(s, e, s.consumers[e]);
  }

  lemma ProducerKeepsRefused(s: State)
    requires RefusedInv(s)
    ensures RefusedInv(ProducerNext(s))
  {
    hide ReplyTo, StatusFrame;
    ProducerTouchesOnly(s);
    forall n, part | n in s.refused ensures n !in Live(ProducerNext(s).heap, part) {
      ProducerHeap(s, n, part);
    }
  }

  lemma ProducerKeepsMemory(s: State)
    requires Ordered(s) && MemorySafe(s)
    ensures MemorySafe(ProducerNext(s))
  {
    ProducerReadsLive(s);
    ProducerKeepsSharing(s);
    ProducerKeepsRefused(s);
    hide ProducerNext, Ordered, NoSharing;
    forall n: nat, part: Part ensures Accounted(ProducerNext(s), n, part) {
      assert Accounted(s, n, part);
      LiveIsParsed(s, n, part);
      ProducerAccounts(s, n, part);
    }
  }

  lemma LiveIsParsed(s: State, n: nat, part: Part)
    requires Ordered(s) && RefusedInv(s) && Accounted(s, n, part)
    ensures n in Live(s.heap, part) ==> n < |s.frames| && n !in s.refused
  {
    hide HandledInv, RepliesInv, Parse;
    if o :| Owns(s, n, part, o) {
      if o.Task? {
        assert ConsumerInv(s, o.id, s.consumers[o.id]);
      }
    }
  }

  // ----------------------------------------------------------- endpoint tasks

  predicate ConsumerReleases(s: State, e: int, n: nat, part: Part)
    requires e in s.consumers
  {
    var c := s.consumers[e];
    (if part.Record? then c.FreeingMessage? else c.FreeingBody?) && c.m.n == n
  }

  lemma ConsumerHeap(s: State, e: int, status: int, n: nat, part: Part)
    requires e in s.consumers
    ensures var t := ConsumerNext(s, e, status);
            && (n in Live(t.heap, part) <==> n in Live(s.heap, part) && !ConsumerReleases(s, e, n, part))
            && Freed(t.heap, part)[n] == Freed(s.heap, part)[n] + if ConsumerReleases(s, e, n, part) then 1 else 0
  {
    hide ReplyTo, GpioEffect, GpioStatus;
    var t, c := ConsumerNext(s, e, status), s.consumers[e];
    if c.FreeingBody? {
      assert t.heap == s.heap.ReadMessage(c.m.n).FreeBody(c.m.n);
    } else if c.FreeingMessage? {
      assert t.heap == s.heap.FreeMessage(c.m.n);
    } else {
      assert t.heap == s.heap.(fault := t.heap.fault);
    }
    hide ConsumerNext;
  }

  lemma ConsumerOwns(s: State, e: int, status: int, n: nat, part: Part, o: Owner) returns (q: Owner)
    requires e in s.consumers && Undisturbed(s, Consumer(e, status))
    requires Owns(s, n, part, o) && !(o == Task(e) && ConsumerReleases(s, e, n, part))
    ensures Owns(ConsumerNext(s, e, status), n, part, q)
  {
    hide ReplyTo, GpioEffect, GpioStatus, Heap.ReadMessage, Heap.ReadBody, Heap.FreeBody, Heap.FreeMessage;
    q := if o.Slot? && s.consumers[e].Taking? then Task(e) else o;
  }

  lemma ConsumerOwned(s: State, e: int, status: int, n: nat, part: Part, q: Owner) returns (o: Owner)
    requires e in s.consumers && Undisturbed(s, Consumer(e, status))
    requires Owns(ConsumerNext(s, e, status), n, part, q)
    ensures Owns(s, n, part, o) && !(o == Task(e) && ConsumerReleases(s, e, n, part))
  {
    hide ReplyTo, GpioEffect, GpioStatus, Heap.ReadMessage, Heap.ReadBody, Heap.FreeBody, Heap.FreeMessage;
    o := if q == Task(e) && s.consumers[e].Taking? then Slot else q;
  }

  lemma ConsumerAccounts(s: State, e: int, status: int, n: nat, part: Part)
    requires Ordered(s) && NoSharing(s) && Accounted(s, n, part)
    requires e in s.consumers && Undisturbed(s, Consumer(e, status))
    requires n in Live(s.heap, part) ==> n < |s.frames| && n !in s.refused
    ensures Accounted(ConsumerNext(s, e, status), n, part)
  {
    var t := ConsumerNext(s, e, status);
    ConsumerHeap(s, e, status, n, part);
    ConsumerMovesQueue(s, e, status);
    if ConsumerReleases(s, e, n, part) {
      assert Owns(s, n, part, Task(e));
    }
    hide ConsumerNext, Owns, Live, Freed, Ordered, NoSharing, ConsumerReleases, Undisturbed;
    if o :| Owns(s, n, part, o) {
      if ConsumerReleases(s, e, n, part) {
        forall q | Owns(t, n, part, q) ensures false {
          var c := ConsumerOwned(s, e, status, n, part, q);
          OwnerIsUnique(s, n, part, part, c, Task(e));
        }
      } else {
        var q := ConsumerOwns(s, e, status, n, part, o);
      }
    } else {
      forall q | Owns(t, n, part, q) ensures false {
        var c := ConsumerOwned(s, e, status, n, part, q);
      }
    }
  }

  lemma ConsumerReadsLive(s: State, e: int, status: int)
    requires MemorySafe(s) && e in s.consumers && Harmless(s, Consumer(e, status))
    ensures !ConsumerNext(s, e, status).heap.fault
  {
    hide ReplyTo, GpioEffect, GpioStatus, NoSharing, RefusedInv;
    var c := s.consumers[e];
    if HasPeeked(c) || HasTaken(c) {
      var n := c.m.n;
      if !c.Comparing? {
        assert Owns(s, n, Record, if c.Taking? then Slot else Task(e));
      }
      assert Accounted(s, n, Record);
      if c.Handling? || c.FreeingBody? {
        assert Owns(s, n, Payload, Task(e));
        assert Accounted(s, n, Payload);
      }
    }
  }

  lemma ConsumerKeepsSharing(s: State, e: int, status: int)
    requires Ordered(s) && NoSharing(s) && e in s.consumers && Undisturbed(s, Consumer(e, status))
    ensures NoSharing(ConsumerNext(s, e, status))
  {
    ConsumerMovesQueue(s, e, status);
    hide ReplyTo, GpioEffect, GpioStatus, Genuine, HandledInv, RepliesInv, ConsumerInv, ProducerInv;
    hide Heap.ReadMessage, Heap.ReadBody, Heap.FreeBody, Heap.FreeMessage;
  }

  lemma ConsumerKeepsRefused(s: State, e: int, status: int)
    requires RefusedInv(s) && e in s.consumers
    ensures RefusedInv(ConsumerNext(s, e, status))
  {
    hide ReplyTo, GpioEffect, GpioStatus;
    ConsumerMovesQueue(s, e, status);
    assert ConsumerNext(s, e, status).refused == s.refused;
    forall n, part | n in s.refused ensures n !in Live(ConsumerNext(s, e, status).heap, part) {
      ConsumerHeap(s, e, status, n, part);
    }
  }

  lemma ConsumerKeepsMemory(s: State, e: int, status: int)
    requires Ordered(s) && MemorySafe(s) && e in s.consumers && Harmless(s, Consumer(e, status))
    ensures MemorySafe(ConsumerNext(s, e, status))
  {
    ConsumerReadsLive(s, e, status);
    ConsumerKeepsSharing(s, e, status);
    ConsumerKeepsRefused(s, e, status);
    hide ConsumerNext, Ordered, NoSharing, Undisturbed;
    forall n: nat, part: Part ensures Accounted(ConsumerNext(s, e, status), n, part) {
      assert Accounted(s, n, part);
      LiveIsParsed(s, n, part);
      ConsumerAccounts(s, e, status, n, part);
    }
  }

  // ------------------------------------------------------------------- runs

  lemma ArriveAccounts(s: State, frame: Frame, memory: bool, n: nat, part: Part)
    requires Ordered(s) && MemorySafe(s) && s.producer == Listening
    ensures Accounted(Next(s, Arrive(frame, memory)), n, part)
  {
    var t := Next(s, Arrive(frame, memory));
    assert Accounted(s, n, part);
    LiveIsParsed(s, n, part);
    hide Parse, HandledInv, RepliesInv, ConsumerInv, NoSharing;
    assert forall o :: o != New ==> Owns(t, n, part, o) == Owns(s, n, part, o);
    if memory && n == |s.frames| {
      assert Owns(t, n, part, New);
    }
    assert !Owns(s, n, part, New);
  }

  lemma ArriveKeepsRefused(s: State, frame: Frame, memory: bool)
    requires Ordered(s) && MemorySafe(s)
    ensures RefusedInv(Next(s, Arrive(frame, memory)))
  {
    var t := Next(s, Arrive(frame, memory));
    hide Parse;
    forall n, part: Part | n in t.refused ensures n < |t.frames| && n !in Live(t.heap, part) {
      assert Accounted(s, n, part);
      LiveIsParsed(s, n, part);
    }
  }

  lemma ArriveKeepsMemory(s: State, frame: Frame, memory: bool)
    requires Ordered(s) && MemorySafe(s)
    ensures MemorySafe(Next(s, Arrive(frame, memory)))
  {
    ArriveKeepsRefused(s, frame, memory);
    var t := Next(s, Arrive(frame, memory));
    hide Ordered, RefusedInv, Parse;
    if s.producer == Listening {
      forall n: nat, part: Part ensures Accounted(t, n, part) {
        ArriveAccounts(s, frame, memory, n, part);
      }
    }
  }

  lemma StepKeepsMemory(s: State, step: Step)
    requires Ordered(s) && MemorySafe(s) && Harmless(s, step)
    ensures MemorySafe(Next(s, step))
  {
    hide Ordered, MemorySafe, Harmless;
    match step
    case Arrive(frame, memory) => ArriveKeepsMemory(s, frame, memory);
    case Producer => ProducerKeepsMemory(s);
    case Consumer(e, status) =>
      if e in s.consumers {
        ConsumerKeepsMemory(s, e, status);
      } else {
        assert Next(s, step) == s;
      }
  }

  lemma InitMemorySafe(signed: bool, ids: set<int>)
    ensures MemorySafe(Init(signed, ids))
  {
    forall n: nat, part: Part ensures Accounted(Init(signed, ids), n, part) {
      assert forall o :: !Owns(Init(signed, ids), n, part, o);
    }
  }

  // --------------------------------------------- harmful steps break it at once

  /** Comparing a message that nobody owns reads freed memory. */
  lemma HarmfulCompareBreaks(s: State, e: int, status: int)
    requires MemorySafe(s) && e in s.consumers && s.consumers[e].Comparing?
    requires !HasOwner(s, s.consumers[e].m.n, Record)
    ensures !MemorySafe(ConsumerNext(s, e, status))
  {
    assert Accounted(s, s.consumers[e].m.n, Record);
    hide NoSharing, RefusedInv, Accounted;
  }

  /** Resetting a queue that holds another message leaves that one without an owner. */
  lemma TakeLosesTheQueued(s: State, e: int, status: int)
    requires Ordered(s) && MemorySafe(s) && e in s.consumers && s.consumers[e].Taking?
    requires s.queue != [] && s.queue[0] != s.consumers[e].m
    ensures !MemorySafe(ConsumerNext(s, e, status))
  {
    var t := ConsumerNext(s, e, status);
    var lost := s.queue[0];
    assert Accounted(s, lost.n, Record) && Owns(s, lost.n, Record, Slot);
    assert ConsumerInv(s, e, s.consumers[e]);
    SameNumberSameMessage(s, lost, s.consumers[e].m);
    hide Genuine, HandledInv, RepliesInv, RefusedInv;
    forall o | Owns(t, lost.n, Record, o) ensures false {
      if o != Task(e) {
        OwnerIsUnique(s, lost.n, Record, Record, o, Slot);
      }
    }
    assert !Accounted(t, lost.n, Record);
  }

  /** A message a task is about to take is in no other task's hands. */
  lemma TakenByOneTask(s: State, e: int, n: nat, o: Owner)
    requires Ordered(s) && e in s.consumers && s.consumers[e].Taking? && s.consumers[e].m.n == n
    ensures !(o.Task? && Owns(s, n, Record, o))
  {
    assert ConsumerInv(s, e, s.consumers[e]);
    hide HandledInv, RepliesInv, Parse;
    if o.Task? && o.id in s.consumers {
      assert ConsumerInv(s, o.id, s.consumers[o.id]);
    }
  }

  /** Taking a message out of an empty queue gives it a second owner or, freed, a first. */
  lemma TakeFromEmptyQueue(s: State, e: int, status: int)
    requires Ordered(s) && MemorySafe(s) && e in s.consumers && s.consumers[e].Taking? && s.queue == []
    ensures !MemorySafe(ConsumerNext(s, e, status))
  {
    var t := ConsumerNext(s, e, status);
    var m := s.consumers[e].m;
    assert Accounted(s, m.n, Record);
    assert ConsumerInv(s, e, s.consumers[e]);
    assert Owns(t, m.n, Record, Task(e));
    hide HandledInv, RepliesInv, RefusedInv, Parse;
    if o :| Owns(s, m.n, Record, o) {
      assert !o.Task? by { TakenByOneTask(s, e, m.n, o); }
      assert o.Previous? && !NoSharing(t);
    } else {
      assert !Accounted(t, m.n, Record);
    }
  }

  lemma HarmfulBreaksMemory(s: State, step: Step)
    requires Ordered(s) && MemorySafe(s) && !Harmless(s, step)
    ensures !MemorySafe(Next(s, step))
  {
    var c := s.consumers[step.id];
    hide Ordered, MemorySafe, HasOwner, ConsumerNext;
    if c.Comparing? {
      HarmfulCompareBreaks(s, step.id, step.status);
    } else if s.queue == [] {
      TakeFromEmptyQueue(s, step.id, step.status);
    } else {
      assert |s.queue| == 1 by { QueueIsShort(s); }
      TakeLosesTheQueued(s, step.id, step.status);
    }
  }

  lemma QueueIsShort(s: State)
    requires Ordered(s)
    ensures |s.queue| <= 1
  {
  }

  lemma AlwaysHarmlessInFront(s: State, steps: seq<Step>)
    requires steps != []
    ensures var front, last := steps[..|steps| - 1], |steps| - 1;
            && (AlwaysMemorySafe(s, steps) <==> AlwaysMemorySafe(s, front) && MemorySafe(Exec(s, steps)))
            && (AlwaysHarmless(s, steps) <==> AlwaysHarmless(s, front) && Harmless(Exec(s, front), steps[last]))
  {
    hide Exec, MemorySafe, Harmless;
    var front, last := steps[..|steps| - 1], |steps| - 1;
    assert forall k :: 0 <= k <= last ==> front[..k] == steps[..k];
    assert steps[..|steps|] == steps;
    if AlwaysMemorySafe(s, steps) {
      assert MemorySafe(Exec(s, steps[..|steps|]));
    }
    if AlwaysHarmless(s, steps) {
      assert Harmless(Exec(s, steps[..last]), steps[last]);
    }
  }

  /** At every moment of a run no freed message has been touched, live memory is owned
      memory and everything else was freed exactly once, if and only if every compared
      message still has an owner and every reset finds the message that was peeked. */
  lemma {:induction false} MemorySafeIffHarmless(signed: bool, ids: set<int>, steps: seq<Step>)
    ensures AlwaysMemorySafe(Init(signed, ids), steps) <==> AlwaysHarmless(Init(signed, ids), steps)
  {
    var s0 := Init(signed, ids);
    if steps == [] {
      InitMemorySafe(signed, ids);
      assert steps[..0] == [];
    } else {
      var front, step := steps[..|steps| - 1], steps[|steps| - 1];
      MemorySafeIffHarmless(signed, ids, front);
      AlwaysHarmlessInFront(s0, steps);
      ExecStep(s0, steps);
      RunIsOrdered(signed, ids, front);
      hide Exec, Next, Harmless, MemorySafe, Ordered, Init, AlwaysHarmless;
      if AlwaysMemorySafe(s0, front) {
        assert front[..|front|] == front;
        assert MemorySafe(Exec(s0, front));
        if Harmless(Exec(s0, front), step) {
          StepKeepsMemory(Exec(s0, front), step);
        } else {
          HarmfulBreaksMemory(Exec(s0, front), step);
        }
      }
    }
  }

  lemma HarmlessRunIsMemorySafe(signed: bool, ids: set<int>, steps: seq<Step>)
    requires AlwaysHarmless(Init(signed, ids), steps)
    ensures MemorySafe(Exec(Init(signed, ids), steps))
  {
    MemorySafeIffHarmless(signed, ids, steps);
    hide Exec, MemorySafe;
    assert steps[..|steps|] == steps;
  }

  lemma UninterruptedIsHarmless(s: State, steps: seq<Step>)
    requires AlwaysUninterrupted(s, steps)
    ensures AlwaysHarmless(s, steps)
  {
    hide Exec;
    forall k | 0 <= k < |steps| ensures Harmless(Exec(s, steps[..k]), steps[k]) {
      var t, step := Exec(s, steps[..k]), steps[k];
      assert Uninterrupted(t, step);
      if step.Consumer? && step.id in t.consumers && t.consumers[step.id].Comparing? {
        assert Owns(t, t.consumers[step.id].m.n, Record, Slot);
      }
    }
  }

  /** In particular memory is safe in every run that interrupts no task between its peek
      and its reset. */
  lemma RunIsMemorySafe(signed: bool, ids: set<int>, steps: seq<Step>)
    requires AlwaysUninterrupted(Init(signed, ids), steps)
    ensures MemorySafe(Exec(Init(signed, ids), steps))
  {
    hide Exec, Init, MemorySafe, Harmless, Uninterrupted;
    UninterruptedIsHarmless(Init(signed, ids), steps);
    HarmlessRunIsMemorySafe(signed, ids, steps);
  }

  /** Memory is conserved: an allocated part has an owner or was freed, never both and
      never twice; an arrival that got no memory frees none. */
  lemma EachPartIsFreedOnce(signed: bool, ids: set<int>, steps: seq<Step>, n: nat, part: Part)
    requires AlwaysHarmless(Init(signed, ids), steps)
    requires n < |Exec(Init(signed, ids), steps).frames|
    ensures var s := Exec(Init(signed, ids), steps);
            && !s.heap.fault
            && Freed(s.heap, part)[n] + (if HasOwner(s, n, part) then 1 else 0) == (if n in s.refused then 0 else 1)
  {
    HarmlessRunIsMemorySafe(signed, ids, steps);
    RunIsOrdered(signed, ids, steps);
    var s := Exec(Init(signed, ids), steps);
    hide Exec, Init, Ordered, Owns;
    assert Accounted(s, n, part);
    LiveIsParsed(s, n, part);
  }

  /** No task has a message in its hands. */
  predicate AtRest(s: State) {
    s.producer == Listening && forall e :: e in s.consumers ==> !HasTaken(s.consumers[e])
  }

  lemma RestingOwner(s: State, n: nat, part: Part)
    requires AtRest(s) && |s.queue| <= 1 && Accounted(s, n, part)
    ensures n in Live(s.heap, part) <==> s.queue != [] && s.queue[0].n == n
  {
    if s.queue != [] && s.queue[0].n == n {
      assert Owns(s, n, part, Slot);
    }
  }

  lemma RestingHeap(s: State)
    requires AtRest(s) && QueueInv(s) && MemorySafe(s)
    ensures s.heap.liveMessages == s.heap.liveBodies == set m | m in s.queue :: m.n
  {
    hide AtRest, Genuine;
    forall n: nat, part: Part ensures n in Live(s.heap, part) <==> s.queue != [] && s.queue[0].n == n {
      assert Accounted(s, n, part);
      RestingOwner(s, n, part);
    }
    assert s.heap.liveMessages == Live(s.heap, Record) && s.heap.liveBodies == Live(s.heap, Payload);
  }

  /** With every task at rest, all memory but the queued message's has been released. */
  lemma AtRestOnlyQueueIsLive(signed: bool, ids: set<int>, steps: seq<Step>)
    requires AlwaysHarmless(Init(signed, ids), steps)
    requires AtRest(Exec(Init(signed, ids), steps))
    ensures var s := Exec(Init(signed, ids), steps);
            s.heap.liveMessages == s.heap.liveBodies == set m | m in s.queue :: m.n
  {
    HarmlessRunIsMemorySafe(signed, ids, steps);
    RunIsOrdered(signed, ids, steps);
    hide Exec, Init, MemorySafe, AtRest, QueueInv;
    RestingHeap(Exec(Init(signed, ids), steps));
  }

  // ------------------------------------------------------- how much can be live

  lemma ConsumersAreFixed(signed: bool, ids: set<int>, steps: seq<Step>)
    ensures Exec(Init(signed, ids), steps).consumers.Keys == ids
  {
    if steps != [] {
      var s, step := Exec(Init(signed, ids), steps[..|steps| - 1]), steps[|steps| - 1];
      ConsumersAreFixed(signed, ids, steps[..|steps| - 1]);
      ExecStep(Init(signed, ids), steps);
      hide Exec;
      match step
      case Arrive(_, _) =>
      case Producer => ProducerTouchesOnly(s);
      case Consumer(e, status) => if e in s.consumers { ConsumerMovesQueue(s, e, status); }
    }
  }

  function HeldBy(s: State, e: int): nat {
    if e in s.consumers && HasTaken(s.consumers[e]) then s.consumers[e].m.n else 0
  }

  lemma {:induction false} ImageIsNoLarger(s: State, es: set<int>)
    ensures |set e | e in es :: HeldBy(s, e)| <= |es|
  {
    if e :| e in es {
      var rest := es - {e};
      ImageIsNoLarger(s, rest);
      var image := set d | d in rest :: HeldBy(s, d);
      assert (set d | d in es :: HeldBy(s, d)) == image + {HeldBy(s, e)};
    } else {
      assert (set d | d in es :: HeldBy(s, d)) == {};
    }
  }

  /** The new message, and the queued or the evicted one. */
  function HeldOutside(s: State): set<nat> {
    (match s.producer
     case Listening => {}
     case Refusing(_, _) => {}
     case Checking(m) => {m.n}
     case Receiving(m) => {m.n}
     case Clearing(m) => {m.n}
     case Posting(m) => {m.n}
     case Evicting(m, prev) => {m.n, prev.n}
     case DroppingBody(m, prev) => {m.n, prev.n}
     case DroppingMessage(m, prev) => {m.n, prev.n})
    + if s.queue == [] then {} else {s.queue[0].n}
  }

  lemma HeldOutsideAtMostTwo(s: State)
    requires QueueInv(s)
    ensures |HeldOutside(s)| <= 2
  {
    hide Genuine;
    var q: set<nat> := if s.queue == [] then {} else {s.queue[0].n};
    assert |q| <= 1;
    if QueueEmptied(s.producer) {
      assert q == {};
      match s.producer
      case Evicting(m, prev) => assert HeldOutside(s) == {m.n} + {prev.n};
      case DroppingBody(m, prev) => assert HeldOutside(s) == {m.n} + {prev.n};
      case DroppingMessage(m, prev) => assert HeldOutside(s) == {m.n} + {prev.n};
      case _ =>
    }
  }

  /** With `n` endpoint tasks, at most `n + 2` messages are ever in memory at once. */
  lemma LiveMessagesAreBounded(signed: bool, ids: set<int>, steps: seq<Step>, part: Part)
    requires AlwaysHarmless(Init(signed, ids), steps)
    ensures |Live(Exec(Init(signed, ids), steps).heap, part)| <= |ids| + 2
  {
    HarmlessRunIsMemorySafe(signed, ids, steps);
    RunIsOrdered(signed, ids, steps);
    ConsumersAreFixed(signed, ids, steps);
    var s := Exec(Init(signed, ids), steps);
    hide Exec, Init;
    var tasks := set e | e in ids :: HeldBy(s, e);
    ImageIsNoLarger(s, ids);
    HeldOutsideAtMostTwo(s);
    hide Ordered;
    forall n: nat | n in Live(s.heap, part) ensures n in tasks + HeldOutside(s) {
      assert Accounted(s, n, part);
      var o :| Owns(s, n, part, o);
      if o.Task? {
        assert HeldBy(s, o.id) == n;
      }
    }
    SubsetIsNoLarger(Live(s.heap, part), tasks + HeldOutside(s));
  }

  lemma {:induction false} SubsetIsNoLarger(a: set<nat>, b: set<nat>)
    requires a <= b
    ensures |a| <= |b|
  {
    if x :| x in a {
      SubsetIsNoLarger(a - {x}, b - {x});
    }
  }
}
