/**
 The blocking queue: the single-producer, single-consumer queue with a semaphore that counts its
 items. The producer signals what it has enqueued; the consumer waits before it dequeues.
 */
module BlockingQueue {
  import opened Wrappers
  import Q = SpscQueue
  import QP = SpscProof
  import QT = SpscTheorems
  import M = Semaphore

  type Item = Q.Item

  /** `tryWait`, a wait for some time, and a wait that is repeated until it succeeds. */
  datatype Mode = Try | Timed | Forever

  datatype Producer =
    | Resting
    | Enqueuing
    | Signalling

  datatype Consumer =
    | Idle
    | Waiting(op: Q.Op, mode: Mode)
    | Dequeuing(op: Q.Op)
    | Peeking
    | Returned(r: Option<Item>)
    | Failed                   // the assertion that the inner queue had an item

  datatype State = State(q: Q.State, m: M.State, prod: Producer, cons: Consumer)

  datatype Event =
    | Enqueue(x: Item, alloc: bool)
    | Produce(memory: Option<(Q.Id, Item)>)
    | Call(op: Q.Op, mode: Mode)
    | Consume
    | TimeOut
    | Return

  // ---- Steps: each is one of the inner queue's or of the semaphore's, or hands over ----

  predicate Enabled(s: State, e: Event) {
    match e
    case Enqueue(x, alloc) => s.prod == Resting && Q.Enabled(s.q, Q.Enqueue(x, alloc))
    case Produce(memory) =>
      (match s.prod
       case Resting => false
       case Enqueuing => Q.Enabled(s.q, Q.Produce(memory)) && (s.q.prod == Q.Returned(true) ==> s.m.prod == M.Resting)
       case Signalling => M.Enabled(s.m, M.Produce))
    case Call(op, mode) => s.cons == Idle && s.q.cons == Q.Idle && s.m.cons == M.Idle
    case Consume =>
      (match s.cons
       case Waiting(_, _) => s.q.cons == Q.Idle && (s.m.cons.Done? || M.Enabled(s.m, M.Consume))
       case Dequeuing(_) => s.q.cons != Q.Idle
       case Peeking => s.q.cons != Q.Idle
       case _ => false)
    case TimeOut => s.cons.Waiting? && M.Enabled(s.m, M.GiveUp)
    case Return => s.cons.Returned?
  }

  function ProducerStep(s: State, memory: Option<(Q.Id, Item)>): State
    requires Q.Sound(s.q) && Enabled(s, Produce(memory))
  {
    match s.prod
    case Enqueuing =>
      var q' := Q.Apply(s.q, Q.Produce(memory));
      if s.q.prod == Q.Returned(true) then s.(q := q', m := M.Apply(s.m, M.Signal(1)), prod := Signalling)
      else if s.q.prod.Returned? then s.(q := q', prod := Resting)
      else s.(q := q')
    case Signalling =>
      var m' := M.Apply(s.m, M.Produce);
      s.(m := m', prod := if m'.prod == M.Resting then Resting else Signalling)
  }

  function ConsumerStep(s: State): State
    requires Q.Sound(s.q) && Enabled(s, Consume)
  {
    match s.cons
    case Waiting(op, mode) =>
      if !s.m.cons.Done? then s.(m := M.Apply(s.m, M.Consume))
      else
        var m' := M.Apply(s.m, M.Return);
        if s.m.cons.ok then s.(m := m', q := Q.Apply(s.q, Q.Call(op)), cons := Dequeuing(op))
        else if mode == Forever then s.(m := M.Apply(m', M.Wait))
        else s.(m := m', cons := Returned(None))
    case Dequeuing(_) =>
      if !s.q.cons.Answered? then s.(q := Q.Apply(s.q, Q.Consume))
      else s.(q := Q.Apply(s.q, Q.Return), cons := if s.q.cons.r == None then Failed else Returned(s.q.cons.r))
    case Peeking =>
      if !s.q.cons.Answered? then s.(q := Q.Apply(s.q, Q.Consume))
      else s.(q := Q.Apply(s.q, Q.Return), cons := Returned(s.q.cons.r))
  }

  function Apply(s: State, e: Event): State
    requires Q.Sound(s.q) && Enabled(s, e)
  {
    match e
    case Enqueue(x, alloc) => s.(q := Q.Apply(s.q, Q.Enqueue(x, alloc)), prod := Enqueuing)
    case Produce(memory) => ProducerStep(s, memory)
    case Call(op, mode) =>
      if op.Peek? then s.(q := Q.Apply(s.q, Q.Call(op)), cons := Peeking)
      else s.(m := M.Apply(s.m, if mode == Try then M.TryWait else M.Wait), cons := Waiting(op, mode))
    case Consume => ConsumerStep(s)
    case TimeOut => s.(m := M.Apply(s.m, M.GiveUp))
    case Return => s.(cons := Idle)
  }

  // ---- The invariant ----

  /** What has been enqueued but not signalled. */
  function Unsignalled(p: Producer, qp: Q.Producer, mp: M.Producer): int {
    if (p == Enqueuing && qp == Q.Returned(true)) || (p == Signalling && mp.Adding?) then 1 else 0
  }

  /** What has been acquired but not dequeued. */
  function Undelivered(c: Consumer, qc: Q.Consumer, mc: M.Consumer): int {
    if (c.Waiting? && mc == M.Done(true)) || (c.Dequeuing? && !qc.Answered?) then 1 else 0
  }

  predicate ProducerOk(p: Producer, qp: Q.Producer, mp: M.Producer) {
    match p
    case Resting => qp == Q.Resting && mp == M.Resting
    case Enqueuing => qp != Q.Resting && mp == M.Resting
    case Signalling => qp == Q.Resting && (mp == M.Adding(1) || mp == M.Posting)
  }

  predicate ConsumerOk(c: Consumer, qc: Q.Consumer, mc: M.Consumer, wasEmpty: bool) {
    match c
    case Waiting(op, _) => qc == Q.Idle && mc != M.Idle && !op.Peek?
    case Dequeuing(op) => qc != Q.Idle && mc == M.Idle && !wasEmpty && qc.op == op && !op.Peek?
    case Peeking => qc != Q.Idle && mc == M.Idle && qc.op.Peek?
    case Failed => false
    case _ => qc == Q.Idle && mc == M.Idle
  }

  datatype Aux = Aux(q: Q.Aux, m: M.Aux)

  /** The numbers of items that were enqueued, signalled, acquired and removed. */
  predicate CountsOk(s: State, a: Aux) {
    && a.m.initial == 0
    && |a.q.log| == a.m.signalled + Unsignalled(s.prod, s.q.prod, s.m.prod)
    && |a.q.out| == a.m.acquired - Undelivered(s.cons, s.q.cons, s.m.cons)
  }

  ghost predicate Inv(s: State, a: Aux) {
    && Q.Inv(s.q, a.q) && M.Inv(s.m, a.m)
    && ProducerOk(s.prod, s.q.prod, s.m.prod)
    && ConsumerOk(s.cons, s.q.cons, s.m.cons, a.q.wasEmpty)
    && CountsOk(s, a)
  }

  function AuxApply(s: State, a: Aux, e: Event): Aux
    requires Q.Sound(s.q) && Enabled(s, e)
  {
    match e
    case Enqueue(x, alloc) => a.(q := Q.AuxApply(s.q, a.q, Q.Enqueue(x, alloc)))
    case Produce(memory) =>
      (match s.prod
       case Enqueuing => a.(q := Q.AuxApply(s.q, a.q, Q.Produce(memory)))
       case Signalling => a.(m := M.AuxApply(s.m, a.m, M.Produce)))
    case Call(op, _) => if op.Peek? then a.(q := Q.AuxApply(s.q, a.q, Q.Call(op))) else a
    case Consume =>
      (match s.cons
       case Waiting(op, _) =>
         if !s.m.cons.Done? then a.(m := M.AuxApply(s.m, a.m, M.Consume))
         else if s.m.cons.ok then a.(q := Q.AuxApply(s.q, a.q, Q.Call(op)))
         else a
       case _ => if !s.q.cons.Answered? then a.(q := Q.AuxApply(s.q, a.q, Q.Consume)) else a)
    case _ => a
  }

  // ---- Every step keeps it ----

  /** What one event of the inner queue does. */
  lemma QueueStep(q: Q.State, a: Q.Aux, e: Q.Event)
    requires Q.Inv(q, a) && Q.Enabled(q, e)
    ensures Q.Sound(q) && Q.Inv(Q.Apply(q, e), Q.AuxApply(q, a, e))
    ensures |Q.AuxApply(q, a, e).log| == |a.log| + if QT.Appends(q, e) then 1 else 0
    ensures |Q.AuxApply(q, a, e).out| == |a.out| + if QT.Removes(q, e) then 1 else 0
    ensures |a.out| <= |a.log|
  {
    hide Q.Inv, Q.Apply, Q.AuxApply;
    QP.InvSound(q, a);
    QP.EventKeepsInv(q, a, e);
    QT.Effects(q, a, e);
    QT.Prefix(q, a);
  }

  /** The producer's side of the inner queue has appended its item just when it returns true. */
  lemma QueueProduces(q: Q.State, e: Q.Event)
    requires Q.Sound(q) && Q.Enabled(q, e) && (e.Produce? || e.Enqueue?)
    ensures var q' := Q.Apply(q, e);
      && q'.cons == q.cons && (!q.prod.Returned? ==> q'.prod != Q.Resting)
      && (q.prod.Returned? ==> q'.prod == Q.Resting)
      && (q'.prod == Q.Returned(true) <==> QT.Appends(q, e))
  {
  }

  lemma QueueConsumes(q: Q.State, e: Q.Event)
    requires Q.Sound(q) && Q.Enabled(q, e) && e.Consume?
    ensures var q' := Q.Apply(q, e);
      && q'.prod == q.prod && q'.cons != Q.Idle && q'.cons.op == q.cons.op
      && (!q.cons.op.Peek? && q'.cons.Answered? && q'.cons.r.Some? <==> !q.cons.op.Peek? && QT.Removes(q, e))
  {
  }

  lemma QueueNotes(q: Q.State, a: Q.Aux)
    requires Q.Inv(q, a) && Q.Sound(q) && Q.Enabled(q, Q.Consume)
    ensures Q.AuxApply(q, a, Q.Consume).wasEmpty == if q.cons.Probing? then |a.log| == |a.out| else a.wasEmpty
  {
    hide Q.Inv, Q.Sound;
    QT.Notes(q, a, Q.Consume);
  }

  /** An answer of nothing means that the queue was empty. */
  lemma AnswerFacts(q: Q.State, a: Q.Aux)
    requires Q.Inv(q, a) && q.cons.Answered?
    ensures q.cons.r == None ==> a.wasEmpty
  {
    hide Q.BlocksOk, Q.ChainOk, Q.RingOk, Q.FullOk, Q.DataOk, Q.ProducerOk;
  }

  ghost predicate StepKeeps(s: State, a: Aux, e: Event) {
    Q.Sound(s.q) && Enabled(s, e) && Inv(Apply(s, e), AuxApply(s, a, e))
  }

  lemma ProduceKeeps(s: State, a: Aux, e: Event)
    requires Inv(s, a) && Enabled(s, e) && (e.Produce? || e.Enqueue?)
    ensures StepKeeps(s, a, e)
  {
    hide Q.Inv, Q.Sound, Q.Apply, Q.AuxApply, QT.Appends, QT.Removes;
    if e.Enqueue? {
      QueueStep(s.q, a.q, Q.Enqueue(e.x, e.alloc));
      QueueProduces(s.q, Q.Enqueue(e.x, e.alloc));
      EventOf(s.q, a.q, Q.Enqueue(e.x, e.alloc));
    } else if s.prod == Enqueuing {
      QueueStep(s.q, a.q, Q.Produce(e.memory));
      QueueProduces(s.q, Q.Produce(e.memory));
      EventOf(s.q, a.q, Q.Produce(e.memory));
    } else {
      QP.InvSound(s.q, a.q);
    }
  }

  /** The producer's events remove nothing and the consumer's add nothing, and only calls and probes
      change what the consumer notes. */
  lemma EventOf(q: Q.State, a: Q.Aux, e: Q.Event)
    ensures e.Produce? || e.Enqueue? || e.Return? || e.Call? ==> !QT.Removes(q, e)
    ensures e.Consume? || e.Return? || e.Call? ==> !QT.Appends(q, e)
    ensures e.Produce? || e.Enqueue? ==> Q.AuxApply(q, a, e).wasEmpty == a.wasEmpty
    ensures e.Call? ==> !Q.AuxApply(q, a, e).wasEmpty
    ensures e.Return? ==> Q.AuxApply(q, a, e) == a
  {
  }

  /** One access of the waiting consumer. */
  lemma AccessKeeps(s: State, a: Aux, e: Event)
    requires Inv(s, a) && Enabled(s, e) && e.Consume? && s.cons.Waiting? && !s.m.cons.Done?
    ensures StepKeeps(s, a, e)
  {
    hide Q.Inv, Q.Sound, Q.Apply, Q.AuxApply, QT.Appends, QT.Removes;
    QP.InvSound(s.q, a.q);
  }

  lemma WaitKeeps(s: State, a: Aux, e: Event)
    requires Inv(s, a) && Enabled(s, e)
    requires (e.Consume? && s.cons.Waiting? && s.m.cons == M.Done(false)) || e.TimeOut? || e.Return? || (e.Call? && !e.op.Peek?)
    ensures StepKeeps(s, a, e)
  {
    hide Q.Inv, Q.Sound, Q.Apply, Q.AuxApply, QT.Appends, QT.Removes;
    QP.InvSound(s.q, a.q);
  }

  lemma CallKeeps(s: State, a: Aux, e: Event)
    requires Inv(s, a) && Enabled(s, e)
    requires (e.Consume? && s.cons.Waiting? && s.m.cons == M.Done(true)) || (e.Call? && e.op.Peek?)
    ensures StepKeeps(s, a, e)
  {
    hide Q.Inv, Q.Sound, Q.Apply, Q.AuxApply, QT.Appends, QT.Removes;
    var op := if e.Call? then e.op else s.cons.op;
    QueueStep(s.q, a.q, Q.Call(op));
    EventOf(s.q, a.q, Q.Call(op));
    QueueCalls(s.q, op);
  }

  lemma QueueCalls(q: Q.State, op: Q.Op)
    requires Q.Sound(q) && q.cons == Q.Idle
    ensures var q' := Q.Apply(q, Q.Call(op)); q'.prod == q.prod && q'.cons != Q.Idle && q'.cons.op == op && !q'.cons.Answered?
  {
  }

  /** The inner queue answers a consumer that has acquired an item with an item. */
  lemma NeverFails(s: State, a: Aux)
    requires Inv(s, a) && s.cons.Dequeuing? && s.q.cons.Answered?
    ensures s.q.cons.r != None
  {
    hide Q.Inv;
    AnswerFacts(s.q, a.q);
  }

  lemma DequeueKeeps(s: State, a: Aux, e: Event)
    requires Inv(s, a) && Enabled(s, e) && e.Consume? && !s.cons.Waiting?
    ensures StepKeeps(s, a, e)
  {
    hide Q.Inv, Q.Sound, Q.Apply, Q.AuxApply, QT.Appends, QT.Removes;
    if s.q.cons.Answered? {
      if s.cons.Dequeuing? { NeverFails(s, a); }
      QueueStep(s.q, a.q, Q.Return);
      EventOf(s.q, a.q, Q.Return);
      QueueReturns(s.q);
    } else {
      QueueStep(s.q, a.q, Q.Consume);
      EventOf(s.q, a.q, Q.Consume);
      QueueConsumes(s.q, Q.Consume);
      QueueNotes(s.q, a.q);
      QueueAnswers(s, a);
    }
  }

  lemma QueueReturns(q: Q.State)
    requires Q.Sound(q) && q.cons.Answered?
    ensures var q' := Q.Apply(q, Q.Return); q'.prod == q.prod && q'.cons == Q.Idle
  {
  }

  /** The step after which the consumer has its answer. */
  lemma QueueAnswers(s: State, a: Aux)
    requires Inv(s, a) && Q.Sound(s.q) && Q.Enabled(s.q, Q.Consume)
    ensures Q.Inv(Q.Apply(s.q, Q.Consume), Q.AuxApply(s.q, a.q, Q.Consume))
    ensures s.cons.Dequeuing? ==> (Q.Apply(s.q, Q.Consume).cons.Answered? <==> QT.Removes(s.q, Q.Consume))
    ensures !s.cons.Dequeuing? && s.q.cons != Q.Idle && s.q.cons.op.Peek? ==> !QT.Removes(s.q, Q.Consume)
  {
    hide Q.Inv, Q.Sound, Q.AuxApply;
    QueueStep(s.q, a.q, Q.Consume);
    QueueNotes(s.q, a.q);
    QueueConsumes(s.q, Q.Consume);
    var q', b' := Q.Apply(s.q, Q.Consume), Q.AuxApply(s.q, a.q, Q.Consume);
    if q'.cons.Answered? { AnswerFacts(q', b'); }
    TookNoPeek(s.q, a.q);
    hide Q.Apply;
  }

  lemma TookNoPeek(q: Q.State, a: Q.Aux)
    requires Q.Inv(q, a)
    ensures q.cons.Took? ==> !q.cons.op.Peek?
  {
    hide Q.BlocksOk, Q.ChainOk, Q.RingOk, Q.FullOk, Q.DataOk, Q.ProducerOk;
  }

  lemma EventKeepsInv(s: State, a: Aux, e: Event)
    requires Inv(s, a) && Enabled(s, e)
    ensures StepKeeps(s, a, e)
  {
    hide Inv, StepKeeps, Enabled;
    match e
    case Enqueue(_, _) => ProduceKeeps(s, a, e);
    case Produce(_) => ProduceKeeps(s, a, e);
    case Call(op, _) => if op.Peek? { CallKeeps(s, a, e); } else { WaitKeeps(s, a, e); }
    case Consume =>
      if s.cons.Waiting? {
        if !s.m.cons.Done? { AccessKeeps(s, a, e); } else if s.m.cons.ok { CallKeeps(s, a, e); } else { WaitKeeps(s, a, e); }
      } else {
        DequeueKeeps(s, a, e);
      }
    case TimeOut => WaitKeeps(s, a, e);
    case Return => WaitKeeps(s, a, e);
  }

  // ---- Runs ----

  ghost predicate Start(s: State, a: Aux) {
    QT.Start(s.q, a.q) && M.Start(s.m, a.m) && a.m.initial == 0 && s.prod == Resting && s.cons == Idle
  }

  ghost predicate Leads(r: State, b: Aux, e: Event, s: State, a: Aux) {
    Q.Sound(r.q) && Enabled(r, e) && Apply(r, e) == s && AuxApply(r, b, e) == a
  }

  ghost predicate Traces(es: seq<Event>, s: State, a: Aux) {
    if es == [] then Start(s, a)
    else exists r: State, b: Aux :: Leads(r, b, Last(es), s, a) && Traces(Front(es), r, b)
  }

  lemma StartInv(s: State, a: Aux)
    requires Start(s, a)
    ensures Inv(s, a)
  {
    hide Q.Inv, Q.RingOk, QT.IsNew;
    QT.StartInv(s.q, a.q);
  }

  lemma {:induction false} TracedInv(es: seq<Event>, s: State, a: Aux)
    requires Traces(es, s, a)
    ensures Inv(s, a)
  {
    hide Inv, Start, Apply, AuxApply, Q.Sound, Enabled;
    if es == [] {
      StartInv(s, a);
    } else {
      var r: State, b: Aux :| Leads(r, b, Last(es), s, a) && Traces(Front(es), r, b);
      TracedInv(Front(es), r, b);
      EventKeepsInv(r, b, Last(es));
    }
  }

  /** In every run, the number of items in the queue is the semaphore's balance, and what is enqueued
      but not yet signalled, and what is acquired but not yet dequeued. */
  lemma StoredIsBalance(es: seq<Event>, s: State, a: Aux)
    requires Traces(es, s, a)
    ensures |a.q.log| - |a.q.out| ==
      M.Balance(a.m) + Unsignalled(s.prod, s.q.prod, s.m.prod) + Undelivered(s.cons, s.q.cons, s.m.cons)
    ensures M.Balance(a.m) >= 0
  {
    hide Q.Inv;
    TracedInv(es, s, a);
  }

  /** Hence the inner `try_dequeue` or `pop` after a successful wait never fails: it answers the first
      item, and the assertion behind it holds. */
  lemma AcquiredIsThere(es: seq<Event>, s: State, a: Aux)
    requires Traces(es, s, a)
    ensures s.cons != Failed
    ensures s.cons.Dequeuing? && s.q.cons.Answered? ==> a.q.out != [] && s.q.cons.r == Some(Last(a.q.out))
    ensures s.cons.Dequeuing? && !s.q.cons.Answered? ==> |a.q.log| > |a.q.out|
  {
    hide Q.Inv;
    TracedInv(es, s, a);
    if s.cons.Dequeuing? && s.q.cons.Answered? {
      NeverFails(s, a);
      AnswerLast(s.q, a.q);
    }
  }

  lemma AnswerLast(q: Q.State, a: Q.Aux)
    requires Q.Inv(q, a) && q.cons.Answered?
    ensures q.cons.r.Some? && !q.cons.op.Peek? ==> a.out != [] && q.cons.r.value == Last(a.out)
  {
    hide Q.BlocksOk, Q.ChainOk, Q.RingOk, Q.FullOk, Q.DataOk, Q.ProducerOk;
  }

  /** What has been dequeued is a prefix of what has been enqueued, here too; and when neither side is
      in a call, `size_approx` is exact. */
  lemma SizeIsCount(es: seq<Event>, s: State, a: Aux)
    requires Traces(es, s, a)
    ensures a.q.out <= a.q.log
    ensures s.prod == Resting && (s.cons == Idle || s.cons.Returned?) ==> s.m.count == |a.q.log| - |a.q.out| && s.m.tokens == 0
  {
    hide Q.Inv;
    TracedInv(es, s, a);
    QT.Prefix(s.q, a.q);
  }

  // ---- What the consumer answers ----

  /** A removal answers the item that it removed. */
  lemma ReturnsRemoved(es: seq<Event>, s: State, a: Aux, e: Event)
    requires Traces(es, s, a) && Q.Sound(s.q) && Enabled(s, e) && s.cons.Dequeuing? && Apply(s, e).cons.Returned?
    ensures a.q.out != [] && Apply(s, e).cons.r == Some(Last(a.q.out))
  {
    hide Traces, Q.Sound, Q.Apply, Q.Enabled;
    AcquiredIsThere(es, s, a);
  }

  /** A peek answers the first item, or nothing if the queue was empty when it last looked. */
  lemma PeekReturns(es: seq<Event>, s: State, a: Aux, e: Event)
    requires Traces(es, s, a) && Q.Sound(s.q) && Enabled(s, e) && s.cons == Peeking && Apply(s, e).cons.Returned?
    ensures match Apply(s, e).cons.r
      case None => a.q.wasEmpty
      case Some(x) => |a.q.out| < |a.q.log| && x == a.q.log[|a.q.out|]
  {
    hide Traces, Q.Inv, Q.Sound, Q.Apply, Q.Enabled;
    TracedInv(es, s, a);
    PeekFacts(s.q, a.q);
  }

  lemma PeekFacts(q: Q.State, a: Q.Aux)
    requires Q.Inv(q, a) && q.cons.Answered? && q.cons.op.Peek?
    ensures q.cons.r == None ==> a.wasEmpty
    ensures q.cons.r.Some? ==> |a.out| < |a.log| && q.cons.r.value == a.log[|a.out|]
  {
    hide Q.BlocksOk, Q.ChainOk, Q.RingOk, Q.FullOk, Q.DataOk, Q.ProducerOk;
  }

  /** A run with all its states. */
  ghost predicate Passes(es: seq<Event>, ss: seq<State>, hs: seq<Aux>) {
    && |ss| == |hs| == |es| + 1 && Start(ss[0], hs[0])
    && forall p :: 0 <= p < |es| ==> Leads(ss[p], hs[p], es[p], ss[p + 1], hs[p + 1])
  }

  lemma {:induction false} PassedTraces(es: seq<Event>, ss: seq<State>, hs: seq<Aux>, p: nat)
    requires Passes(es, ss, hs) && p <= |es|
    ensures Traces(es[..p], ss[p], hs[p])
  {
    hide Start, Leads;
    if p > 0 {
      PassedTraces(es, ss, hs, p - 1);
      assert Front(es[..p]) == es[..p - 1] && Last(es[..p]) == es[p - 1];
      assert Leads(ss[p - 1], hs[p - 1], es[p - 1], ss[p - 1 + 1], hs[p - 1 + 1]);
    }
  }

  /** The consumer has been waiting in one call from point `q` of the run to point `p`. */
  ghost predicate WaitsDuring(ss: seq<State>, q: nat, p: nat) {
    q <= p < |ss| && forall r :: q <= r <= p ==> ss[r].cons.Waiting?
  }

  predicate GaveUp(s: State) {
    s.cons.Waiting? && s.m.cons == M.Done(false)
  }

  lemma GivesUp(s: State, a: Aux, e: Event, s': State, a': Aux)
    requires Inv(s, a) && Leads(s, a, e, s', a') && GaveUp(s')
    ensures s.cons.Waiting? && (GaveUp(s) || M.Balance(a'.m) == 0)
  {
    hide Q.Inv, Q.Sound, Q.Apply, Q.AuxApply, Q.Enabled;
  }

  lemma {:induction false} GaveUpAtZero(es: seq<Event>, ss: seq<State>, hs: seq<Aux>, p: nat)
    requires Passes(es, ss, hs) && p <= |es| && GaveUp(ss[p])
    ensures exists q: nat :: WaitsDuring(ss, q, p) && GaveUp(ss[q]) && M.Balance(hs[q].m) == 0
  {
    hide Leads, Start, Inv, Traces, GaveUp;
    if p == 0 {
      NobodyWaits(ss[0], hs[0]);
    } else {
      PassedTraces(es, ss, hs, p - 1);
      TracedInv(es[..p - 1], ss[p - 1], hs[p - 1]);
      assert Leads(ss[p - 1], hs[p - 1], es[p - 1], ss[p - 1 + 1], hs[p - 1 + 1]);
      GivesUp(ss[p - 1], hs[p - 1], es[p - 1], ss[p], hs[p]);
      assert ss[p].cons.Waiting? by { GaveUpWaits(ss[p]); }
      if M.Balance(hs[p].m) == 0 {
        assert WaitsDuring(ss, p, p);
      } else {
        GaveUpAtZero(es, ss, hs, p - 1);
        var q: nat :| WaitsDuring(ss, q, p - 1) && GaveUp(ss[q]) && M.Balance(hs[q].m) == 0;
        assert WaitsDuring(ss, q, p);
      }
    }
  }

  lemma GaveUpWaits(s: State)
    requires GaveUp(s)
    ensures s.cons.Waiting?
  {
  }

  lemma NobodyWaits(s: State, a: Aux)
    requires Start(s, a)
    ensures !GaveUp(s)
  {
  }

  /** The balance is 0, and all that is stored is what the producer has not signalled yet. */
  predicate NoneReady(s: State, a: Aux) {
    M.Balance(a.m) == 0 && |a.q.log| - |a.q.out| == Unsignalled(s.prod, s.q.prod, s.m.prod)
  }

  /** In every run, a dequeue or pop comes back with nothing only if at some moment of its call the balance was 0,
      so that the queue held no item but one that was not signalled yet; and one that waits forever never does. */
  lemma NothingOnlyAtZero(es: seq<Event>, ss: seq<State>, hs: seq<Aux>, p: nat)
    requires Passes(es, ss, hs) && p < |es| && ss[p].cons.Waiting? && ss[p + 1].cons == Returned(None)
    ensures ss[p].cons.mode != Forever
    ensures exists q: nat :: WaitsDuring(ss, q, p) && NoneReady(ss[q], hs[q])
  {
    hide Start, Traces, Q.Apply, Q.AuxApply, Q.Sound, Q.Enabled;
    assert Leads(ss[p], hs[p], es[p], ss[p + 1], hs[p + 1]);
    assert GaveUp(ss[p]);
    GaveUpAtZero(es, ss, hs, p);
    var q: nat :| WaitsDuring(ss, q, p) && GaveUp(ss[q]) && M.Balance(hs[q].m) == 0;
    PassedTraces(es, ss, hs, q);
    StoredIsBalance(es[..q], ss[q], hs[q]);
  }

  /** A `try_dequeue` never waits: it looks at the count once, and then takes or comes back. */
  ghost predicate TriesOnly(s: State) {
    s.cons.Waiting? && s.cons.mode == Try ==> s.m.cons == M.Testing(false) || s.m.cons == M.Taking || s.m.cons.Done?
  }

  lemma TryStep(s: State, a: Aux, e: Event)
    requires Inv(s, a) && TriesOnly(s) && Q.Sound(s.q) && Enabled(s, e)
    ensures TriesOnly(Apply(s, e))
  {
    hide Q.Inv, Q.Sound, Q.Apply, Q.Enabled;
  }

  lemma {:induction false} TryNeverWaits(es: seq<Event>, s: State, a: Aux)
    requires Traces(es, s, a)
    ensures TriesOnly(s)
  {
    hide Inv, Start, Apply, AuxApply, Q.Sound, Enabled, TriesOnly;
    if es == [] {
      NoneTries(s, a);
    } else {
      var r: State, b: Aux :| Leads(r, b, Last(es), s, a) && Traces(Front(es), r, b);
      TryNeverWaits(Front(es), r, b);
      TracedInv(Front(es), r, b);
      TryStep(r, b, Last(es));
    }
  }

  lemma NoneTries(s: State, a: Aux)
    requires Start(s, a)
    ensures TriesOnly(s) && !s.cons.Waiting?
  {
  }

  /** The last call of the consumer, or the timing out of it. */
  function LastCall(es: seq<Event>): Option<Event> {
    if es == [] then None else if Last(es).Call? || Last(es).TimeOut? then Some(Last(es)) else LastCall(Front(es))
  }

  ghost predicate TimedOk(s: State, last: Option<Event>) {
    s.cons.Waiting? && s.cons.mode != Try ==>
      && s.m.cons != M.Testing(false)
      && (s.m.cons == M.Leaving || s.m.cons == M.Rejoining || s.m.cons == M.Retrying || s.m.cons == M.Done(false) ==> last == Some(TimeOut))
  }

  lemma TimedStep(s: State, a: Aux, e: Event, last: Option<Event>)
    requires Inv(s, a) && TimedOk(s, last) && Q.Sound(s.q) && Enabled(s, e)
    ensures TimedOk(Apply(s, e), if e.Call? || e.TimeOut? then Some(e) else last)
  {
    hide Q.Inv, Q.Sound, Q.Apply, Q.Enabled;
  }

  /** In every run, a dequeue with a time comes back with nothing only after it has timed out. */
  lemma {:induction false} WaitsUntilTimeOut(es: seq<Event>, s: State, a: Aux)
    requires Traces(es, s, a)
    ensures TimedOk(s, LastCall(es))
    ensures s.cons.Waiting? && s.cons.mode == Timed && s.m.cons == M.Done(false) ==> LastCall(es) == Some(TimeOut)
  {
    hide Inv, Start, Apply, AuxApply, Q.Sound, Enabled;
    if es == [] {
      NoneTries(s, a);
    } else {
      var r: State, b: Aux :| Leads(r, b, Last(es), s, a) && Traces(Front(es), r, b);
      WaitsUntilTimeOut(Front(es), r, b);
      TracedInv(Front(es), r, b);
      TimedStep(r, b, Last(es), LastCall(Front(es)));
    }
  }
}
