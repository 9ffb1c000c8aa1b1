/**
 The mailbox with the peek, the comparison and the reset of an endpoint task taken
 as one step. Such runs are uninterrupted runs of the fine-grained system, so what is
 proved of those holds of them.
 */
module MailboxAtomic {
  import opened Frames
  import opened MailboxProtocol
  import opened MailboxOrder
  import opened MailboxAnswers
  import opened MailboxMemory
  import opened MailboxEffects

  /** The fine-grained steps that one coarse step stands for. */
  function Expand(s: State, step: Step): seq<Step> {
    if step.Consumer? && step.id in s.consumers && s.consumers[step.id].Peeking? && s.queue != [] then
      if s.queue[0].content.endpointId == step.id then [step, step, step] else [step, step]
    else
      [step]
  }

  function AtomicNext(s: State, step: Step): State {
    Exec(s, Expand(s, step))
  }

  function AtomicExec(s: State, steps: seq<Step>): State {
    if steps == [] then s else AtomicNext(AtomicExec(s, steps[..|steps| - 1]), steps[|steps| - 1])
  }

  /** The fine-grained run that a coarse run stands for. */
  function Flatten(s: State, steps: seq<Step>): seq<Step> {
    if steps == [] then []
    else
      var front := steps[..|steps| - 1];
      Flatten(s, front) + Expand(AtomicExec(s, front), steps[|steps| - 1])
  }

  lemma {:induction false} AtomicIsFine(s: State, steps: seq<Step>)
    ensures AtomicExec(s, steps) == Exec(s, Flatten(s, steps))
  {
    hide Next, Expand;
    if steps != [] {
      var front := steps[..|steps| - 1];
      AtomicIsFine(s, front);
      ExecSplit(s, Flatten(s, front), Expand(AtomicExec(s, front), steps[|steps| - 1]));
    }
  }

  /** Between coarse steps no endpoint task has peeked without having taken. */
  ghost predicate NobodyPeeked(s: State) {
    forall e :: e in s.consumers ==> !HasPeeked(s.consumers[e])
  }

  lemma PrefixOfConcat(a: seq<Step>, b: seq<Step>, k: nat)
    requires k < |b|
    ensures (a + b)[..|a| + k] == a + b[..k] && (a + b)[|a| + k] == b[k]
  {
  }

  lemma UninterruptedIn(s: State, a: seq<Step>, b: seq<Step>, k: nat)
    requires AlwaysUninterrupted(Exec(s, a), b) && k < |b|
    ensures Uninterrupted(Exec(s, (a + b)[..|a| + k]), (a + b)[|a| + k])
  {
    hide Exec, Uninterrupted;
    PrefixOfConcat(a, b, k);
    ExecSplit(s, a, b[..k]);
  }

  lemma UninterruptedBefore(s: State, a: seq<Step>, b: seq<Step>, k: nat)
    requires AlwaysUninterrupted(s, a) && k < |a|
    ensures Uninterrupted(Exec(s, (a + b)[..k]), (a + b)[k])
  {
    hide Exec, Uninterrupted;
    assert (a + b)[..k] == a[..k];
  }

  lemma EachUninterrupted(s: State, steps: seq<Step>)
    requires forall k :: 0 <= k < |steps| ==> Uninterrupted(Exec(s, steps[..k]), steps[k])
    ensures AlwaysUninterrupted(s, steps)
  {
    hide Exec, Uninterrupted;
  }

  lemma UninterruptedConcat(s: State, a: seq<Step>, b: seq<Step>)
    requires AlwaysUninterrupted(s, a) && AlwaysUninterrupted(Exec(s, a), b)
    ensures AlwaysUninterrupted(s, a + b)
  {
    hide Exec, Uninterrupted, AlwaysUninterrupted;
    forall k | 0 <= k < |a + b| ensures Uninterrupted(Exec(s, (a + b)[..k]), (a + b)[k]) {
      if k < |a| {
        UninterruptedBefore(s, a, b, k);
      } else {
        UninterruptedIn(s, a, b, k - |a|);
      }
    }
    EachUninterrupted(s, a + b);
  }

  lemma UninterruptedOne(s: State, step: Step)
    requires Uninterrupted(s, step)
    ensures AlwaysUninterrupted(s, [step]) && Exec(s, [step]) == Next(s, step)
  {
    hide Next, Uninterrupted;
    assert [step][..0] == [];
    assert Exec(s, []) == s;
    ExecStep(s, [step]);
  }

  lemma PeekStep(s: State, e: int, status: int)
    requires e in s.consumers && s.consumers[e].Peeking? && |s.queue| == 1 && NobodyPeeked(s)
    ensures var t := Next(s, Consumer(e, status));
            && t == s.(consumers := s.consumers[e := Comparing(s.queue[0])])
            && Uninterrupted(t, Consumer(e, status))
  {
  }

  lemma CompareStep(s: State, e: int, status: int)
    requires e in s.consumers && |s.queue| == 1 && s.consumers[e] == Comparing(s.queue[0])
    requires forall d :: d in s.consumers && d != e ==> !HasPeeked(s.consumers[d])
    ensures var t := Next(s, Consumer(e, status));
            && t.queue == s.queue && t.consumers.Keys == s.consumers.Keys
            && (if s.queue[0].content.endpointId == e
                then t.consumers[e] == Taking(s.queue[0]) && Uninterrupted(t, Consumer(e, status))
                else NobodyPeeked(t))
            && forall d :: d in t.consumers && d != e ==> !HasPeeked(t.consumers[d])
  {
  }

  lemma TakeStep(s: State, e: int, status: int)
    requires e in s.consumers && s.consumers[e].Taking?
    requires forall d :: d in s.consumers && d != e ==> !HasPeeked(s.consumers[d])
    ensures NobodyPeeked(Next(s, Consumer(e, status)))
  {
  }

  lemma OtherStep(s: State, step: Step)
    requires NobodyPeeked(s)
    requires !(step.Consumer? && step.id in s.consumers && s.consumers[step.id].Peeking? && s.queue != [])
    ensures NobodyPeeked(Next(s, step))
  {
    if step.Producer? {
      ProducerTouchesOnly(s);
      hide ProducerNext;
    }
  }

  lemma CoarseStepIsUninterrupted(s: State, step: Step)
    requires QueueInv(s) && NobodyPeeked(s)
    ensures AlwaysUninterrupted(s, Expand(s, step)) && NobodyPeeked(AtomicNext(s, step))
  {
    UninterruptedOne(s, step);
    if step.Consumer? && step.id in s.consumers && s.consumers[step.id].Peeking? && s.queue != [] {
      var e, status := step.id, step.status;
      PeekStep(s, e, status);
      var t := Next(s, step);
      CompareStep(t, e, status);
      hide Next, Exec, Uninterrupted, NobodyPeeked, QueueInv, AlwaysUninterrupted;
      UninterruptedOne(t, step);
      UninterruptedConcat(s, [step], [step]);
      ExecSplit(s, [step], [step]);
      assert [step] + [step] == [step, step];
      if s.queue[0].content.endpointId == e {
        var u := Next(t, step);
        TakeStep(u, e, status);
        UninterruptedOne(u, step);
        UninterruptedConcat(s, [step, step], [step]);
        ExecSplit(s, [step, step], [step]);
        assert [step, step] + [step] == [step, step, step];
      }
    } else {
      OtherStep(s, step);
    }
  }

  lemma {:induction false} AtomicRunIsUninterrupted(signed: bool, ids: set<int>, steps: seq<Step>)
    ensures AlwaysUninterrupted(Init(signed, ids), Flatten(Init(signed, ids), steps))
    ensures NobodyPeeked(AtomicExec(Init(signed, ids), steps))
  {
    var s0 := Init(signed, ids);
    if steps != [] {
      var front, step := steps[..|steps| - 1], steps[|steps| - 1];
      AtomicRunIsUninterrupted(signed, ids, front);
      AtomicIsFine(s0, front);
      RunIsOrdered(signed, ids, Flatten(s0, front));
      hide Next, Exec, Init, Uninterrupted, NobodyPeeked, AlwaysUninterrupted, Expand;
      hide QueueInv, ProducerInv, HandledInv, RepliesInv, ConsumerInv;
      CoarseStepIsUninterrupted(AtomicExec(s0, front), step);
      UninterruptedConcat(s0, Flatten(s0, front), Expand(AtomicExec(s0, front), step));
    }
  }

  lemma UninterruptedIsUndisturbed(s: State, steps: seq<Step>)
    requires AlwaysUninterrupted(s, steps)
    ensures AlwaysUndisturbed(s, steps)
  {
    hide Exec;
    forall k | 0 <= k < |steps| ensures Undisturbed(Exec(s, steps[..k]), steps[k]) {
      assert Uninterrupted(Exec(s, steps[..k]), steps[k]);
    }
  }

  /** With the peek, comparison and reset in one step, for any number of arrivals and
      any interleaving with any endpoint tasks of distinct ids: every frame is in
      exactly one place or answered exactly once, no freed memory is touched, and at
      most two messages more than there are tasks are ever live. */
  lemma AtomicRunsAreSafe(signed: bool, ids: set<int>, steps: seq<Step>)
    ensures var s := AtomicExec(Init(signed, ids), steps);
            && ExactlyOnce(s)
            && MemorySafe(s)
            && |s.heap.liveMessages| <= |ids| + 2 && |s.heap.liveBodies| <= |ids| + 2
  {
    var s0 := Init(signed, ids);
    var fine := Flatten(s0, steps);
    AtomicIsFine(s0, steps);
    AtomicRunIsUninterrupted(signed, ids, steps);
    UninterruptedIsUndisturbed(s0, fine);
    ExactlyOnceIffUndisturbed(signed, ids, fine);
    hide Exec, Init, ExactlyOnce, MemorySafe, AtomicExec, Flatten, NobodyPeeked, AlwaysUninterrupted, AlwaysUndisturbed;
    UninterruptedIsHarmless(s0, fine);
    RunIsMemorySafe(signed, ids, fine);
    LiveMessagesAreBounded(signed, ids, fine, Record);
    LiveMessagesAreBounded(signed, ids, fine, Payload);
    assert fine[..|fine|] == fine;
  }

  /** In such runs the pins are exactly what the commands answered `MSG_OK` leave when
      carried out in arrival order, and no command answered otherwise is among them. */
  lemma AtomicRunsCarryOutTheAnswered(signed: bool, ids: set<int>, steps: seq<Step>)
    requires !GpioAnswering(AtomicExec(Init(signed, ids), steps))
    ensures var s := AtomicExec(Init(signed, ids), steps);
            && s.pins == PinFold(s.signed, s.frames, AnsweredOk(s), |s.frames|)
            && forall r :: r in s.replies && r.status != MSG_OK ==> r.n !in AnsweredOk(s)
  {
    var s0 := Init(signed, ids);
    var fine := Flatten(s0, steps);
    AtomicIsFine(s0, steps);
    AtomicRunIsUninterrupted(signed, ids, steps);
    UninterruptedIsUndisturbed(s0, fine);
    var s := AtomicExec(s0, steps);
    hide Exec, Init, AtomicExec, Flatten, NobodyPeeked, AlwaysUninterrupted, AlwaysUndisturbed, PinFold, AnsweredOk, GpioAnswering;
    PinsAreTheAnsweredCommands(signed, ids, fine);
    forall r | r in s.replies && r.status != MSG_OK ensures r.n !in AnsweredOk(s) {
      RejectedCommandsTouchNothing(signed, ids, fine, r);
    }
  }
}
