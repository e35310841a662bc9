/** What holds of every run of the single-producer, single-consumer queue. */
module SpscTheorems {
  import opened Wrappers
  import opened SpscQueue
  import opened SpscProof

  /** An empty queue: a ring of empty blocks, with both ends at the first. */
  ghost predicate Start(s: State, a: Aux) {
    && s.prod == Resting && s.cons == Idle && s.largest >= 2
    && RingOk(a.ring, s.next, s.frontBlock, s.tailBlock, 0)
    && (forall b :: b in s.blocks <==> b in a.ring) && s.next.Keys == s.blocks.Keys
    && (forall b :: b in s.blocks ==> IsNew(s.blocks[b]))
    && a == Aux(a.ring, 0, map b | b in s.blocks :: Count(0, 0, 0, 0, 0), [], [], false, 0)
  }

  predicate IsNew(b: Block) {
    |b.data| >= 2 && b.front == b.tail == b.localFront == b.localTail == 0
  }

  ghost predicate Leads(r: State, b: Aux, e: Event, s: State, a: Aux) {
    Sound(r) && Enabled(r, e) && Apply(r, e) == s && AuxApply(r, b, e) == a
  }

  ghost predicate Traces(es: seq<Event>, s: State, a: Aux) {
    if es == [] then Start(s, a)
    else exists r: State, b: Aux :: Leads(r, b, Last(es), s, a) && Traces(Front(es), r, b)
  }

  lemma StartInv(s: State, a: Aux)
    requires Start(s, a)
    ensures Inv(s, a)
  {
    hide Following;
    assert s.frontBlock in a.ring && s.tailBlock in a.ring;
    forall b | b in s.blocks ensures Good(s.blocks[b], a.cnt[b]) { assert IsNew(s.blocks[b]); }
    assert forall i :: 0 <= i < |a.ring| ==> a.ring[i] in a.cnt;
  }

  lemma {:induction false} TracedInv(es: seq<Event>, s: State, a: Aux)
    requires Traces(es, s, a)
    ensures Inv(s, a)
  {
    hide Inv, Start, Apply, AuxApply, Sound, Enabled;
    if es == [] {
      StartInv(s, a);
    } else {
      var r: State, b: Aux :| Leads(r, b, Last(es), s, a) && Traces(Front(es), r, b);
      TracedInv(Front(es), r, b);
      EventKeepsInv(r, b, Last(es));
    }
  }

  /** What has been enqueued and not removed. */
  ghost function Contents(a: Aux): seq<Item>
    requires |a.out| <= |a.log|
  {
    a.log[|a.out|..]
  }

  /** The accesses that make an item part of the queue. */
  predicate Appends(s: State, e: Event) {
    e.Produce? && (s.prod.Raising? || s.prod.Moving?)
  }

  predicate Removes(s: State, e: Event) {
    e.Consume? && s.cons.Took?
  }

  /** One FIFO queue under every interleaving: what has been removed is a prefix of what has been
      enqueued; an event adds the producer's item at the back, or removes the item at the front and
      answers it, or leaves the contents alone. */
  lemma RefinesFifo(es: seq<Event>, s: State, a: Aux, e: Event)
    requires Traces(es, s, a) && Enabled(s, e)
    ensures Sound(s) && a.out <= a.log
    ensures var s', a' := Apply(s, e), AuxApply(s, a, e);
      && a'.out <= a'.log
      && if Appends(s, e) then Contents(a') == Contents(a) + [s.prod.x] && a'.out == a.out
         else if Removes(s, e) then
           Contents(a) != [] && a'.out == a.out + [Contents(a)[0]] && Contents(a') == Contents(a)[1..]
           && s'.cons == Answered(s.cons.op, Some(Contents(a)[0]))
         else Contents(a') == Contents(a) && a'.out == a.out
  {
    hide Inv, Sound, Apply, AuxApply, Traces, Enabled;
    TracedInv(es, s, a);
    StepFacts(s, a, e);
    assert Contents(a) + [] == Contents(a);
  }

  lemma StepFacts(s: State, a: Aux, e: Event)
    requires Inv(s, a) && Enabled(s, e)
    ensures Sound(s) && a.out <= a.log && AuxApply(s, a, e).out <= AuxApply(s, a, e).log
    ensures AuxApply(s, a, e).log == a.log + if Appends(s, e) then [s.prod.x] else []
    ensures AuxApply(s, a, e).out == a.out + if Removes(s, e) then [s.cons.x] else []
    ensures Removes(s, e) ==> |a.out| < |a.log| && s.cons.x == a.log[|a.out|] && Apply(s, e).cons == Answered(s.cons.op, Some(s.cons.x))
  {
    hide Inv, Sound, Apply, AuxApply, Enabled;
    InvSound(s, a);
    EventKeepsInv(s, a, e);
    Prefix(s, a);
    Prefix(Apply(s, e), AuxApply(s, a, e));
    Effects(s, a, e);
  }

  lemma Prefix(s: State, a: Aux)
    requires Inv(s, a)
    ensures a.out <= a.log
  {
  }

  /** What an event does to the histories. */
  lemma Effects(s: State, a: Aux, e: Event)
    requires Inv(s, a) && Sound(s) && Enabled(s, e)
    ensures AuxApply(s, a, e).log == a.log + if Appends(s, e) then [s.prod.x] else []
    ensures AuxApply(s, a, e).out == a.out + if Removes(s, e) then [s.cons.x] else []
    ensures Removes(s, e) ==> |a.out| < |a.log| && s.cons.x == a.log[|a.out|] && Apply(s, e).cons == Answered(s.cons.op, Some(s.cons.x))
  {
    hide Inv, Sound, Next;
    RefFacts(s, a);
    assert a.log + [] == a.log && a.out + [] == a.out;
  }

  /** What the sides note of the length of the queue. */
  lemma Notes(s: State, a: Aux, e: Event)
    requires Inv(s, a) && Sound(s) && Enabled(s, e)
    ensures e.Produce? ==> AuxApply(s, a, e).seen == if s.prod.Checking? then |a.log| - |a.out| else a.seen
    ensures e.Consume? ==> AuxApply(s, a, e).wasEmpty == if s.cons.Probing? then |a.log| == |a.out| else a.wasEmpty
  {
    hide Inv, Sound;
    RefFacts(s, a);
  }

  lemma RefFacts(s: State, a: Aux)
    requires Inv(s, a) && Sound(s)
    ensures s.tailBlock in a.cnt && s.frontBlock in a.cnt && a.k < |a.ring|
    ensures s.prod.Entering? || s.prod.Storing? ==> s.prod.nb in a.cnt
    ensures s.cons.Took? ==> |a.out| < |a.log| && s.cons.x == a.log[|a.out|]
    ensures s.cons.Arriving? ==> s.cons.nb in a.cnt
    ensures s.cons.Crossing? ==> a.k > 0
  {
    hide Good, Holds, FullOk, DataOk, BlocksOk, ChainOk, ProducerOk;
    CountKeys(s, a);
  }

  /** What an operation answers: `Dequeue` and `Pop` the item that they removed last, `Peek` the item
      that is first and stays so until it is removed; and nothing only if the queue was empty at some
      moment of the call. */
  lemma AnswersRight(es: seq<Event>, s: State, a: Aux)
    requires Traces(es, s, a) && s.cons.Answered?
    ensures a.out <= a.log
    ensures var Answered(op, r) := s.cons;
      && (r == None ==> a.wasEmpty)
      && (r.Some? && op.Peek? ==> Contents(a) != [] && r.value == Contents(a)[0])
      && (r.Some? && !op.Peek? ==> a.out != [] && r.value == Last(a.out))
  {
    hide BlocksOk, ChainOk, RingOk, FullOk, DataOk, ProducerOk;
    TracedInv(es, s, a);
  }

  /** An enqueue answers true just when its item has become part of the queue. */
  lemma EnqueueAnswersRight(es: seq<Event>, s: State, a: Aux, e: Event)
    requires Traces(es, s, a) && Enabled(s, e) && !s.prod.Returned?
    ensures Sound(s)
    ensures Apply(s, e).prod == Returned(true) <==> Appends(s, e)
    ensures Apply(s, e).prod == Returned(false) ==> AuxApply(s, a, e).log == a.log
  {
    hide Inv, Traces, Next;
    TracedInv(es, s, a);
    InvSound(s, a);
    hide Sound;
    Effects(s, a, e);
  }

  /** The consumer's assertion: no filled block is skipped, and the block that it moves on to has an item. */
  lemma NextBlockFilled(es: seq<Event>, s: State, a: Aux)
    requires Traces(es, s, a) && s.cons.Arriving?
    ensures s.cons.nb in s.blocks && s.blocks[s.cons.nb].front != s.blocks[s.cons.nb].tail
    ensures s.frontBlock in s.blocks && s.blocks[s.frontBlock].front == s.blocks[s.frontBlock].tail
    ensures s.frontBlock in s.next && s.next[s.frontBlock] == s.cons.nb
  {
    hide Inv, Sound;
    TracedInv(es, s, a);
    InvSound(s, a);
    ArrivingKeeps(s, a);
    Drained(s, a);
  }

  lemma Drained(s: State, a: Aux)
    requires Inv(s, a) && s.cons.Arriving?
    ensures s.cons.nb in s.blocks
    ensures s.frontBlock in s.blocks && s.blocks[s.frontBlock].front == s.blocks[s.frontBlock].tail
    ensures s.frontBlock in s.next && s.next[s.frontBlock] == s.cons.nb
  {
    hide Good, ChainOk, FullOk, DataOk, ProducerOk;
    Ends(s, a);
    FrontNext(s, a);
    Tests(s.blocks[s.frontBlock], a.cnt[s.frontBlock]);
    SecondFacts(s, a);
  }

  /** The producer's assertion: the block that it moves on to, not being the front block, is empty. */
  lemma NextBlockEmpty(es: seq<Event>, s: State, a: Aux)
    requires Traces(es, s, a) && s.prod.Entering?
    ensures s.prod.nb in s.blocks && s.blocks[s.prod.nb].front == s.blocks[s.prod.nb].tail && s.prod.nb != s.frontBlock
  {
    hide Inv, Sound;
    TracedInv(es, s, a);
    InvSound(s, a);
    EnteringKeeps(s, a, None);
    EnteringAhead(s, a);
  }

  lemma EnteringAhead(s: State, a: Aux)
    requires Inv(s, a) && s.prod.Entering?
    ensures s.prod.nb != s.frontBlock
  {
    hide Good, ChainOk, FullOk, DataOk, ConsumerOk;
  }

  // ---- Every call ends ----

  /** The accesses that an enqueue has at most to go. */
  function ProducerToGo(p: Producer): nat {
    match p
    case Resting => 0
    case Returned(_) => 1
    case Raising(_) => 2
    case Writing(_) => 3
    case Moving(_, _) => 2
    case Storing(_, _) => 3
    case Filling(_, _) => 4
    case Entering(_, _) => 5
    case Linking(_, _) => 3
    case Making(_) => 4
    case Stuck(_, _) => 6
    case Checking(_, _) => 7
  }

  /** The accesses that a removal or a peek has at most to go. */
  function ConsumerToGo(c: Consumer): nat {
    match c
    case Idle => 0
    case Answered(_, _) => 1
    case Took(_, _) => 2
    case Taking(_) => 3
    case Crossing(_, _) => 4
    case Arriving(_, _) => 5
    case Leaving(_) => 6
    case Rechecking(_) => 7
    case Comparing(_) => 8
    case Probing(_) => 9
  }

  /** Every access of either side brings its call nearer to its end, whatever the other does. */
  lemma Advances(s: State, e: Event)
    requires Sound(s) && Enabled(s, e)
    ensures e.Produce? ==> ProducerToGo(Apply(s, e).prod) < ProducerToGo(s.prod)
    ensures e.Consume? || e.Return? ==> ConsumerToGo(Apply(s, e).cons) < ConsumerToGo(s.cons)
    ensures e.Enqueue? || e.Produce? ==> Apply(s, e).cons == s.cons
    ensures e.Call? || e.Consume? || e.Return? ==> Apply(s, e).prod == s.prod
  {
    hide Sound, Next;
  }
}
