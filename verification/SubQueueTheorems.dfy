/** What holds of every run of a sub-queue. */
module SubQueueTheorems {
  import opened Wrappers
  import opened Blocks
  import opened BlockDemand
  import opened SubQueue
  import opened SubQueueProof
  import OD = OptimisticDequeue

  /** The contents of the queue: every item enqueued from the head on. */
  ghost function Contents(s: State, a: Aux): seq<Item>
    requires s.q.head <= |a.log|
  {
    a.log[s.q.head..]
  }

  /** The event that publishes what the producer has written. */
  predicate Publishes(s: State, e: Event) {
    e.Produce? && s.prod.Writing? && s.prod.i >= |s.prod.xs|
  }

  predicate Takes(s: State, e: Event) {
    e.Count? && e.t in s.q.pc && s.q.pc[e.t].TakeHead?
  }

  lemma HeadWithinLog(s: State, a: Aux)
    requires Inv(s, a)
    ensures s.q.head <= |a.log| && OD.Inv(s.q, a.od)
  {
  }

  /** What an event does to the history and the head. */
  lemma Effects(s: State, a: Aux, e: Event)
    requires Enabled(s, e) && Safe(s, e) && OD.Inv(s.q, a.od)
    ensures Apply(s, e).q.head == s.q.head + if Takes(s, e) then s.q.pc[e.t].got else 0
    ensures AuxApply(s, a, e).log == a.log + if Publishes(s, e) then s.prod.xs else []
    ensures Publishes(s, e) ==> Apply(s, e).prod == Resting
    ensures Takes(s, e) ==>
      Apply(s, e).work[e.t] == Lookup(Job(s.q.head, s.q.head, s.q.head + s.q.pc[e.t].got, []))
  {
    hide OD.Inv, OD.AuxApply;
    assert a.log + [] == a.log;
  }

  /** The sub-queue is a FIFO queue: items join at the back, all of an enqueue at once, and leave at
      the front, all of a dequeue at once; nothing else changes its contents. */
  lemma RefinesFifo(es: seq<Event>, s: State, a: Aux, e: Event)
    requires Traces(es, s, a) && Enabled(s, e)
    ensures Safe(s, e) && OD.Inv(s.q, a.od)
    ensures var s', a' := Apply(s, e), AuxApply(s, a, e);
      && s.q.head <= |a.log| && s'.q.head <= |a'.log| && a.log <= a'.log
      && if Publishes(s, e) then Contents(s', a') == Contents(s, a) + s.prod.xs
         else if Takes(s, e) then
           s.q.pc[e.t].got <= |Contents(s, a)| && Contents(s', a') == Contents(s, a)[s.q.pc[e.t].got..]
         else Contents(s', a') == Contents(s, a)
  {
    hide Traces, OD.Inv, Inv, Apply, AuxApply;
    TracedInv(es, s, a);
    HeadWithinLog(s, a);
    EventKeepsInv(s, a, e);
    HeadWithinLog(Apply(s, e), AuxApply(s, a, e));
    Effects(s, a, e);
  }

  /** A dequeue that has copied all it took returns exactly the items at the indices it took. */
  lemma ReturnsWhatItTook(es: seq<Event>, s: State, a: Aux, t: Tid)
    requires Traces(es, s, a) && t in s.work && s.work[t].Lookup? && s.work[t].j.cur >= s.work[t].j.hi
    ensures var j := s.work[t].j; j.first <= j.hi <= |a.log| && j.out == a.log[j.first..j.hi]
  {
    hide Traces, OD.Inv, MemoryOk, HoldersOk, ProducerOk, TodoOk;
    TracedInv(es, s, a);
    assert JobOk(t, s.work[t], s.q.pc, s.q.head, s.index, a.log);
  }

  /** No cell is overwritten before it is read: every item not yet counted as dequeued is where its
      index says, in the block that the index holds for it. */
  lemma EveryItemStored(es: seq<Event>, s: State, a: Aux, i: nat)
    requires Traces(es, s, a) && i < |a.log| && i !in a.done
    ensures Stored(s.index, s.cells, i, a.log[i])
  {
    hide Traces, OD.Inv, HoldersOk, ProducerOk, ConsumersOk;
    TracedInv(es, s, a);
    LookupHits(s.index, s.q.tail, a.done, i);
  }

  lemma ClearingFacts(s: State, a: Aux, t: Tid)
    requires MemoryOk(s, a) && HoldersOk(s, a) && t in s.work && s.work[t].Clearing?
    ensures var Clearing(_, b, k) := s.work[t];
      && Entry(s.index, k, b) && b !in s.pool && |DoneIn(a.done, k)| == BLOCK_SIZE
      && (forall u :: u in s.work && u != t && HandOf(u, s.work[u]).Some? ==> s.work[u].b != b)
  {
    hide LiveOk, CellsOk, ProducerHand;
    var Clearing(_, b, k) := s.work[t];
    assert HandOf(t, s.work[t]) == Some((b, Emptied(k, t)));
  }

  /** A block leaves the index only when all of its items have been dequeued, by one consumer. */
  lemma ReleasedOnceEmptied(es: seq<Event>, s: State, a: Aux, t: Tid)
    requires Traces(es, s, a) && t in s.work && s.work[t].Clearing?
    ensures var Clearing(_, b, k) := s.work[t];
      && Entry(s.index, k, b) && b !in s.pool
      && (forall i :: Base(k) <= i < Base(k) + BLOCK_SIZE ==> i in a.done && i < s.q.head)
      && (forall u :: u in s.work && u != t && HandOf(u, s.work[u]).Some? ==> s.work[u].b != b)
  {
    hide Traces, OD.Inv, MemoryOk, HoldersOk, ConsumersOk, ProducerOk, HandOf, DoneIn;
    TracedInv(es, s, a);
    ClearingFacts(s, a, t);
    AllDone(a.done, s.work[t].k);
    DoneBound(s, a);
  }

  /** The items of the enqueue in progress. */
  function GivenItems(p: Producer): Option<seq<Item>> {
    match p
    case Allocating(xs, _, _) => Some(xs)
    case Resetting(xs, _, _, _) => Some(xs)
    case Inserting(xs, _, _, _) => Some(xs)
    case Writing(xs, _, _) => Some(xs)
    case _ => None
  }

  /** What an enqueue publishes is what it was called with. */
  lemma PublishesWhatWasGiven(s: State, e: Event)
    requires Enabled(s, e) && Safe(s, e)
    ensures e.Enqueue? ==> GivenItems(Apply(s, e).prod) == Some(e.xs)
    ensures !e.Enqueue? && GivenItems(Apply(s, e).prod).Some? ==> GivenItems(Apply(s, e).prod) == GivenItems(s.prod)
    ensures Publishes(s, e) ==> GivenItems(s.prod) == Some(s.prod.xs)
  {
    hide BlockBaseDiff, OD.Step, OD.Apply, Num, Cell;
  }

  // ---- The counters ----

  /** What an event does to the counters. */
  function CounterEvent(s: State, e: Event): Option<OD.Event> {
    match e
    case Start(t, max) => Some(OD.Start(t, max))
    case Count(t) => Some(OD.Run(t))
    case Consume(t) => if t in s.work && s.work[t].Lookup? && s.work[t].j.cur >= s.work[t].j.hi then Some(OD.Run(t)) else None
    case Produce => if s.prod.Writing? && s.prod.i >= |s.prod.xs| then Some(OD.Publish(|s.prod.xs|)) else None
    case _ => None
  }

  lemma CounterMoves(s: State, a: Aux, e: Event)
    requires Inv(s, a) && Enabled(s, e) && Safe(s, e)
    ensures match CounterEvent(s, e)
      case None => Apply(s, e).q == s.q
      case Some(c) => OD.Enabled(s.q, c) && Apply(s, e).q == OD.Apply(s.q, c)
  {
    hide OD.Inv, MemoryOk, HoldersOk, ProducerOk, TodoOk, BlockBaseDiff, Num, Cell;
    if e.Consume? { assert JobOk(e.t, s.work[e.t], s.q.pc, s.q.head, s.index, a.log); }
  }

  /** The counters of a run are a run of `OptimisticDequeue`, whose theorems so hold here. */
  lemma {:induction false} CountersRun(es: seq<Event>, s: State, a: Aux)
    requires Traces(es, s, a)
    ensures exists cs :: OD.Reaches(cs, s.q)
  {
    hide Inv, OD.Inv, Apply, AuxApply, Enabled, Safe, OD.Apply, OD.Enabled, CounterEvent, OD.Initial;
    if es == [] {
      assert OD.Reaches([], s.q);
    } else {
      var r: State, b: Aux :| Leads(r, b, Last(es), s, a) && Traces(Front(es), r, b);
      CountersRun(Front(es), r, b);
      var cs :| OD.Reaches(cs, r.q);
      TracedInv(Front(es), r, b);
      CounterMoves(r, b, Last(es));
      if CounterEvent(r, Last(es)).Some? { CounterGoes(cs, r.q, CounterEvent(r, Last(es)).value, s.q); }
    }
  }

  lemma CounterGoes(cs: seq<OD.Event>, r: OD.State, c: OD.Event, q: OD.State)
    requires OD.Reaches(cs, r) && OD.Leads(r, c, q)
    ensures OD.Reaches(cs + [c], q)
  {
    hide OD.Leads;
    assert Front(cs + [c]) == cs && Last(cs + [c]) == c;
  }

  // ---- Once ----

  ghost predicate AllTaken(done: set<nat>, k: nat) {
    forall i :: Base(k) <= i < Base(k) + BLOCK_SIZE ==> i in done
  }

  predicate NoneClearing(work: map<Tid, Work>, k: nat) {
    forall t :: t in work && work[t].Clearing? ==> work[t].k != k
  }

  /** A block with nothing left to dequeue is in the index only while a consumer is about to remove it. */
  lemma IndexedTaken(s: State, a: Aux, k: nat)
    requires Inv(s, a) && AllTaken(a.done, k) && k in s.index
    ensures exists t :: t in s.work && s.work[t].Clearing? && s.work[t].k == k
  {
    hide OD.Inv, ConsumersOk, ProducerOk, LiveOk, CellsOk, PoolOk, ProducerHand;
    AllDone(a.done, k);
    var p := a.place[s.index[k]];
    assert p.Emptied? && HandOf(p.t, s.work[p.t]) == Some((s.index[k], p));
  }

  lemma NotIndexed(s: State, a: Aux, k: nat)
    requires Inv(s, a) && AllTaken(a.done, k) && NoneClearing(s.work, k)
    ensures k !in s.index
  {
    hide Inv;
    if k in s.index { IndexedTaken(s, a, k); }
  }

  lemma DoneGrows(s: State, a: Aux, e: Event)
    requires Enabled(s, e) && Safe(s, e) && OD.Inv(s.q, a.od)
    ensures a.done <= AuxApply(s, a, e).done
  {
    hide OD.Inv, OD.AuxApply;
  }

  /** A consumer comes to remove a block only from counting off the last of its cells. */
  lemma ComesToClear(s: State, e: Event, t: Tid)
    requires Enabled(s, e) && Safe(s, e) && t in Apply(s, e).work && Apply(s, e).work[t].Clearing?
    ensures t in s.work
    ensures s.work[t] == Apply(s, e).work[t] || (s.work[t].Copying? && Apply(s, e).work[t].k == Num(s.work[t].from) && !CopiesMore(s.work[t].j, s.work[t].from))
  {
    hide Num, Cell, OD.Step, OD.Apply, BlockBaseDiff, CopiesMore;
  }

  lemma CountsUndone(s: State, a: Aux, t: Tid)
    requires Inv(s, a) && t in s.work && s.work[t].Copying?
    ensures s.work[t].from !in a.done
  {
    hide OD.Inv, MemoryOk, HoldersOk, ProducerOk, Num;
    assert JobOk(t, s.work[t], s.q.pc, s.q.head, s.index, a.log);
  }

  /** Only a consumer that has just counted off a cell of the block comes to remove it. */
  lemma NoNewClearing(s: State, a: Aux, e: Event, k: nat)
    requires Inv(s, a) && Enabled(s, e) && Safe(s, e) && AllTaken(a.done, k) && NoneClearing(s.work, k)
    ensures NoneClearing(Apply(s, e).work, k)
  {
    hide Inv, Num, Base, Apply, Ready, ProducerReady, CopiesMore;
    forall t | t in Apply(s, e).work && Apply(s, e).work[t].Clearing? ensures Apply(s, e).work[t].k != k {
      ComesToClear(s, e, t);
      if s.work[t].Copying? {
        CountsUndone(s, a, t);
        InBlock(s.work[t].from, Num(s.work[t].from));
      }
    }
  }

  /** A run on from a state. */
  ghost predicate Continues(s: State, a: Aux, es: seq<Event>, s': State, a': Aux) {
    if es == [] then s' == s && a' == a
    else exists r: State, b: Aux :: Leads(r, b, Last(es), s', a') && Continues(s, a, Front(es), r, b)
  }

  lemma {:induction false} StaysGone(s: State, a: Aux, es: seq<Event>, s': State, a': Aux, k: nat)
    requires Inv(s, a) && AllTaken(a.done, k) && NoneClearing(s.work, k) && Continues(s, a, es, s', a')
    ensures Inv(s', a') && AllTaken(a'.done, k) && NoneClearing(s'.work, k)
  {
    hide Inv, OD.Inv, Apply, AuxApply, Enabled, Safe, NoneClearing;
    if es != [] {
      var r: State, b: Aux :| Leads(r, b, Last(es), s', a') && Continues(s, a, Front(es), r, b);
      StaysGone(s, a, Front(es), r, b, k);
      EventKeepsInv(r, b, Last(es));
      DoneGrows(r, b, Last(es));
      NoNewClearing(r, b, Last(es), k);
    }
  }

  /** Removing a block from the index leaves no other consumer about to do so. */
  lemma ClearedAlone(s: State, a: Aux, t: Tid)
    requires Inv(s, a) && t in s.work && s.work[t].Clearing?
    ensures Enabled(s, Consume(t)) && Safe(s, Consume(t)) && OD.Inv(s.q, a.od)
    ensures var k := s.work[t].k;
      AllTaken(a.done, k) && NoneClearing(Apply(s, Consume(t)).work, k) && AuxApply(s, a, Consume(t)).done == a.done
  {
    hide OD.Inv, JobsOk, TodoOk, ProducerOk, MemoryOk, HoldersOk, DoneIn;
    var k := s.work[t].k;
    ClearingFacts(s, a, t);
    AllDone(a.done, k);
    forall u | u in s.work && u != t && s.work[u].Clearing? ensures s.work[u].k != k {
      ClearingFacts(s, a, u);
    }
  }

  /**
   Over two points of a run: once a consumer has removed block number `k` from the index, it is in the index
   in no later state, and no consumer comes to remove it again.
   */
  lemma ReleasedForGood(es: seq<Event>, s: State, a: Aux, t: Tid, more: seq<Event>, s': State, a': Aux)
    requires Traces(es, s, a) && t in s.work && s.work[t].Clearing?
    requires Enabled(s, Consume(t)) && Safe(s, Consume(t)) && OD.Inv(s.q, a.od)
    requires Continues(Apply(s, Consume(t)), AuxApply(s, a, Consume(t)), more, s', a')
    ensures s.work[t].k !in s'.index
    ensures forall u :: u in s'.work && s'.work[u].Clearing? ==> s'.work[u].k != s.work[t].k
  {
    hide Traces, Inv, OD.Inv, Apply, AuxApply, Enabled, Continues;
    TracedInv(es, s, a);
    ClearedAlone(s, a, t);
    EventKeepsInv(s, a, Consume(t));
    StaysGone(Apply(s, Consume(t)), AuxApply(s, a, Consume(t)), more, s', a', s.work[t].k);
    NotIndexed(s', a', s.work[t].k);
  }

  /** What the count of emptied cells comes to is never more than a block has. */
  lemma CountWithinBlock(es: seq<Event>, s: State, a: Aux, t: Tid)
    requires Traces(es, s, a) && t in s.work && s.work[t].Copying? && !CopiesMore(s.work[t].j, s.work[t].from)
    ensures var Copying(j, b, from) := s.work[t];
      b in s.emptied && from <= j.cur && s.emptied[b] + (j.cur - from) <= BLOCK_SIZE
  {
    hide Traces, OD.Inv, HoldersOk, ProducerOk, LiveOk, CellsOk, DoneIn, Num;
    TracedInv(es, s, a);
    var Copying(j, b, from) := s.work[t];
    assert JobOk(t, s.work[t], s.q.pc, s.q.head, s.index, a.log);
    forall i | from <= i < j.cur ensures i !in a.done && Num(i) == Num(from) { SameNum(from, i, j.cur - 1); }
    DoneMore(a.done, from, j.cur, Num(from));
    AllDone(a.done + Range(from, j.cur), Num(from));
  }

  lemma SameNum(from: nat, i: nat, to: nat)
    requires from <= i <= to
    ensures Num(to) == Num(from) ==> Num(i) == Num(from)
  {
    NumOrder(from, i);
    NumOrder(i, to);
  }

  /** Nobody is dequeuing and the producer is at rest. */
  predicate Quiet(s: State) {
    s.prod == Resting && forall t :: t in s.work ==> s.work[t] == Off
  }

  lemma QuietDone(s: State, a: Aux, i: nat)
    requires ConsumersOk(s, a) && |a.od.owner| == s.q.head && forall t :: t in s.work ==> s.work[t] == Off
    ensures i in a.done <==> i < s.q.head
  {
  }

  lemma QuietIndex(s: State, a: Aux, k: nat)
    requires MemoryOk(s, a) && HoldersOk(s, a) && ProducerOk(s) && Quiet(s)
    requires forall i: nat :: i in a.done <==> i < s.q.head
    ensures k in s.index <==> Base(k) < s.q.tail && s.q.head < Base(k) + BLOCK_SIZE
  {
    CoverOrder(k, s.q.tail);
    AllDone(a.done, k);
    assert Base(k) + BLOCK_SIZE - 1 in a.done <==> Base(k) + BLOCK_SIZE - 1 < s.q.head;
    if k in s.index {
      var p := a.place[s.index[k]];
      assert p == Indexed(k);
    }
  }

  /** At rest, exactly the blocks that hold an item still in the queue, or the tail, are in the index,
      and every other block is back in the pool. */
  lemma NothingLeaks(es: seq<Event>, s: State, a: Aux)
    requires Traces(es, s, a) && Quiet(s)
    ensures forall k: nat :: k in s.index <==> Base(k) < s.q.tail && s.q.head < Base(k) + BLOCK_SIZE
    ensures forall b :: b in s.cells ==> (b in s.pool <==> b !in s.index.Values)
  {
    hide Traces, OD.Inv, JobsOk, TodoOk, LiveOk, CellsOk, CountsOk, ProducerOk;
    TracedInv(es, s, a);
    QuietOwner(s, a);
    forall k: nat ensures k in s.index <==> Base(k) < s.q.tail && s.q.head < Base(k) + BLOCK_SIZE {
      QuietIndex(s, a, k);
    }
  }

  lemma QuietOwner(s: State, a: Aux)
    requires Inv(s, a) && Quiet(s)
    ensures forall i: nat :: i in a.done <==> i < s.q.head
  {
  }

  /** When the producer has counted the masked difference down to nothing, it has allocated just the new
      blocks that its items need beyond those that cover the tail. */
  lemma BulkUsesNewBlocks(es: seq<Event>, s: State, a: Aux)
    requires Traces(es, s, a) && s.prod.Writing?
    ensures FirstFresh(s.q.tail) <= |s.prod.chain|
    ensures |s.prod.chain| - FirstFresh(s.q.tail) == NewBlocks(s.q.tail, |s.prod.xs|)
  {
    hide Traces, OD.Inv, MemoryOk, HoldersOk, ConsumersOk;
    TracedInv(es, s, a);
    NeedsBounds(s.q.tail, |s.prod.xs|);
  }

  /** An enqueue that fails leaves nothing behind: at rest the producer holds no block, no block is
      indexed beyond the tail, and every block is in the pool, in the index, or on its way back. */
  lemma FailedEnqueueLeavesNothing(es: seq<Event>, s: State, a: Aux)
    requires Traces(es, s, a) && s.prod == Resting
    ensures forall k :: k in s.index ==> k < Cover(s.q.tail)
    ensures forall b :: b in s.cells ==>
      b in s.pool || b in s.index.Values || exists t :: t in s.work && s.work[t].Returning? && s.work[t].b == b
  {
    hide Traces, OD.Inv, JobsOk, TodoOk, LiveOk, CellsOk, CountsOk;
    TracedInv(es, s, a);
    forall b | b in s.cells
      ensures b in s.pool || b in s.index.Values || exists t :: t in s.work && s.work[t].Returning? && s.work[t].b == b
    {
      if NumberOf(a.place[b]).Some? { assert s.index[NumberOf(a.place[b]).value] == b; }
      if a.place[b].Loose? { assert HandOf(a.place[b].t, s.work[a.place[b].t]) == Some((b, a.place[b])); }
    }
  }

  // ---- What the block index may rely on ----

  lemma YetLive(s: State, a: Aux, t: Tid, i: nat)
    requires Inv(s, a) && t in s.work && s.work[t] != Off && TodoFrom(s.work[t]) <= i < s.work[t].j.hi
    ensures Num(i) in s.index && Num(i) < Cover(s.q.tail)
  {
    hide OD.Inv, HoldersOk, ProducerOk, Num, Cover;
    assert JobOk(t, s.work[t], s.q.pc, s.q.head, s.index, a.log);
    assert i !in a.done;
    LookupHits(s.index, s.q.tail, a.done, i);
    Published(i, s.q.tail);
  }

  lemma Published(i: nat, tail: nat)
    requires i < tail
    ensures Num(i) < Cover(tail)
  {
  }

  lemma YetElsewhere(s: State, a: Aux, t: Tid, u: Tid, i: nat)
    requires Inv(s, a) && t in s.work && s.work[t].Clearing?
    requires u in s.work && s.work[u] != Off && u != t && TodoFrom(s.work[u]) <= i < s.work[u].j.hi
    ensures Num(i) != s.work[t].k
  {
    hide OD.Inv, MemoryOk, HoldersOk, ProducerOk, JobsOk, Num, DoneIn;
    assert i !in a.done;
    ClearingFacts(s, a, t);
    AllDone(a.done, s.work[t].k);
    InBlock(i, s.work[t].k);
  }

  /** The blocks of all indices that a consumer is yet to read are published and in the index. */
  lemma LooksUpLive(es: seq<Event>, s: State, a: Aux, t: Tid, i: nat)
    requires Traces(es, s, a) && t in s.work && s.work[t] != Off && TodoFrom(s.work[t]) <= i < s.work[t].j.hi
    ensures Num(i) in s.index && Num(i) < Cover(s.q.tail)
  {
    hide Traces, Inv, Num, Cover;
    TracedInv(es, s, a);
    YetLive(s, a, t, i);
  }

  /** When a consumer takes a block out of the index, no other consumer is yet to read an index of it. */
  lemma RemovesAlone(es: seq<Event>, s: State, a: Aux, t: Tid, u: Tid, i: nat)
    requires Traces(es, s, a) && t in s.work && s.work[t].Clearing?
    requires u in s.work && s.work[u] != Off && u != t && TodoFrom(s.work[u]) <= i < s.work[u].j.hi
    ensures Num(i) != s.work[t].k
  {
    hide Traces, Inv, Num;
    TracedInv(es, s, a);
    YetElsewhere(s, a, t, u, i);
  }

  // ---- Every call ends ----

  function Beyond(j: Job): nat {
    if j.cur < j.hi then j.hi - j.cur else 0
  }

  /** The accesses that a consumer has at most to go with its indices. */
  function ConsumerToGo(w: Work): nat {
    match w
    case Off => 0
    case Lookup(j) => 1 + 5 * Beyond(j)
    case Copying(j, _, from) => if CopiesMore(j, from) then 5 * Beyond(j) else 4 + 5 * Beyond(j)
    case Clearing(j, _, _) => 3 + 5 * Beyond(j)
    case Returning(j, _) => 2 + 5 * Beyond(j)
  }

  /** Every access of a consumer among the blocks brings it nearer to its end. */
  lemma ConsumerAdvances(s: State, t: Tid)
    requires Ready(s, t) && s.work[t] != Off
    ensures t in WorkStep(s, t).work && ConsumerToGo(WorkStep(s, t).work[t]) < ConsumerToGo(s.work[t])
  {
    hide Num, Cell;
  }

  function Positive(n: int): nat {
    if n > 0 then n else 0
  }

  /** The accesses that the producer has at most to go with its enqueue. */
  function ProducerToGo(p: Producer): nat {
    match p
    case Resting => 0
    case Writing(xs, _, i) => 1 + Positive(|xs| - i)
    case Freeing(blocks) => 1 + |blocks|
    case Undoing(chain, start, j) => 2 + Positive(|chain| - j) + Positive(|chain| - start)
    case Allocating(xs, chain, left) => 4 + |xs| + 2 * |chain| + 6 * Positive(left)
    case Inserting(xs, chain, left, _) => 7 + |xs| + 2 * |chain| + 6 * Positive(left)
    case Resetting(xs, chain, left, _) => 8 + |xs| + 2 * |chain| + 6 * Positive(left)
  }

  lemma StepAdvances(s: State)
    requires ProducerReady(s)
    ensures ProducerToGo(ProducerStep(s).prod) < ProducerToGo(s.prod)
  {
    hide Num, Cell, OD.Apply;
    if s.prod.Writing? && s.prod.i < |s.prod.xs| { Position(s.q.tail + s.prod.i); }
  }

  lemma GrantAdvances(s: State, b: Block)
    requires s.prod.Allocating? && s.prod.left > 0
    ensures ProducerToGo(Resetting(s.prod.xs, s.prod.chain, s.prod.left - BLOCK_SIZE, b)) < ProducerToGo(s.prod)
    ensures ProducerToGo(Undoing(s.prod.chain, FirstFresh(s.q.tail), FirstFresh(s.q.tail))) < ProducerToGo(s.prod)
  {
  }

  /** And every access of the producer. */
  lemma ProducerAdvances(s: State, e: Event)
    requires Enabled(s, e) && Safe(s, e) && (e.Grant? || e.Refuse? || e.Produce?)
    ensures ProducerToGo(Apply(s, e).prod) < ProducerToGo(s.prod)
  {
    hide Num, Cell, ProducerStep, ProducerReady, FirstFresh, ProducerToGo;
    if e.Produce? { StepAdvances(s); } else { GrantAdvances(s, if e.Grant? then e.b else 0); }
  }
}
