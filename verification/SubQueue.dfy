/**
 A producer's sub-queue in memory: blocks of cells, an index from block number to block, a count
 of emptied cells in each block, and a pool of free blocks. One producer enqueues, in bulk or
 singly; any number of consumers dequeue, in the manner of `OptimisticDequeue`.

 The block index is a map here; module `BlockIndex` is its circular table.
 */
module SubQueue {
  import opened Wrappers
  import opened CircularArithmetic
  import opened Blocks
  import opened BlockDemand
  import OD = OptimisticDequeue

  type Tid = OD.Tid
  type Block = nat
  type Item = int

  /** The producer's registers. `chain[j]` is its block number `Num(tail) + j`, and `left` is
      `blockBaseDiff`, what remains to be allocated. */
  datatype Producer =
    | Resting
    | Allocating(xs: seq<Item>, chain: seq<Block>, left: int)
    | Resetting(xs: seq<Item>, chain: seq<Block>, left: int, b: Block)
    | Inserting(xs: seq<Item>, chain: seq<Block>, left: int, b: Block)
    | Undoing(chain: seq<Block>, start: nat, j: nat)
    | Freeing(blocks: seq<Block>)
    | Writing(xs: seq<Item>, chain: seq<Block>, i: nat)

  /** A consumer holds the indices [first, hi), has copied out those below `cur`. */
  datatype Job = Job(first: nat, cur: nat, hi: nat, out: seq<Item>)

  datatype Work =
    | Off
    | Lookup(j: Job)
    | Copying(j: Job, b: Block, from: nat)
    | Clearing(j: Job, b: Block, k: nat)
    | Returning(j: Job, b: Block)

  datatype State = State(
    q: OD.State,
    index: map<nat, Block>,
    cells: map<Block, seq<Item>>,
    emptied: map<Block, nat>,
    pool: set<Block>,
    tailBlock: Option<Block>,
    prod: Producer,
    work: map<Tid, Work>)

  // ---- The consumer ----

  /** What a consumer's next access needs; `SubQueueProof.EventKeepsInv` shows that it is never missing. */
  predicate Ready(s: State, t: Tid) {
    && t in s.work && t in s.q.pc
    && match s.work[t]
       case Off => true
       case Lookup(j) => j.cur < j.hi ==> Num(j.cur) in s.index
       case Copying(j, b, from) => from <= j.cur && b in s.cells && |s.cells[b]| == BLOCK_SIZE && b in s.emptied
       case Clearing(_, _, _) => true
       case Returning(_, _) => true
  }

  function Doing(s: State, t: Tid, w: Work): State {
    s.(work := s.work[t := w])
  }

  predicate CopiesMore(j: Job, from: nat) {
    j.cur < j.hi && Num(j.cur) == Num(from)
  }

  /** The next access of a consumer that has taken its indices. */
  function WorkStep(s: State, t: Tid): State
    requires Ready(s, t) && s.work[t] != Off
  {
    match s.work[t]
    case Lookup(j) =>
      if j.cur < j.hi then Doing(s, t, Copying(j, s.index[Num(j.cur)], j.cur))
      else Doing(s.(q := OD.At(s.q, t, OD.Idle)), t, Off)
    case Copying(j, b, from) =>
      Position(j.cur);
      if CopiesMore(j, from) then
        Doing(s, t, Copying(j.(cur := j.cur + 1, out := j.out + [s.cells[b][Cell(j.cur)]]), b, from))
      else
        var n := s.emptied[b] + (j.cur - from);
        Doing(s.(emptied := s.emptied[b := n]), t, if n == BLOCK_SIZE then Clearing(j, b, Num(from)) else Lookup(j))
    case Clearing(j, b, k) => Doing(s.(index := s.index - {k}), t, Returning(j, b))
    case Returning(j, b) => Doing(s.(pool := s.pool + {b}), t, Lookup(j))
  }

  /** The next access of a consumer among the counters. */
  function CounterStep(s: State, t: Tid): State
    requires t in s.q.pc
  {
    var s' := s.(q := OD.Step(s.q, t));
    if s.q.pc[t].TakeHead? then
      var first := s.q.head;
      Doing(s', t, Lookup(Job(first, first, first + s.q.pc[t].got, [])))
    else s'
  }

  // ---- The producer ----

  /** The number of blocks that hold the items from the tail on, when `n` more are enqueued. */
  function Needs(tail: nat, n: nat): int {
    Cover(tail + n) - Num(tail)
  }

  function FirstFresh(tail: nat): nat {
    if Cell(tail) == 0 then 0 else 1
  }

  predicate ProducerReady(s: State) {
    match s.prod
    case Resting => false
    case Allocating(_, _, left) => left <= 0
    case Resetting(_, _, _, _) => true
    case Inserting(_, _, _, _) => true
    case Undoing(chain, start, j) => start <= |chain|
    case Freeing(_) => true
    case Writing(xs, chain, i) =>
      i < |xs| ==>
        var c := Num(s.q.tail + i) - Num(s.q.tail);
        0 <= c < |chain| && chain[c] in s.cells && |s.cells[chain[c]]| == BLOCK_SIZE
  }

  /** The next access of the producer that is not a choice of its allocator. */
  function ProducerStep(s: State): State
    requires ProducerReady(s)
  {
    var tail := s.q.tail;
    match s.prod
    case Allocating(xs, chain, _) => s.(prod := Writing(xs, chain, 0))
    case Resetting(xs, chain, left, b) => s.(emptied := s.emptied[b := 0], prod := Inserting(xs, chain, left, b))
    case Inserting(xs, chain, left, b) =>
      s.(index := s.index[Num(tail) + |chain| := b], prod := Allocating(xs, chain + [b], left))
    case Undoing(chain, start, j) =>
      if j < |chain| then s.(index := s.index - {Num(tail) + j}, prod := Undoing(chain, start, j + 1))
      else s.(prod := Freeing(chain[start..]))
    case Freeing(blocks) =>
      if blocks == [] then s.(prod := Resting)
      else s.(pool := s.pool + {blocks[0]}, prod := Freeing(blocks[1..]))
    case Writing(xs, chain, i) =>
      if i < |xs| then
        Position(tail + i);
        var b := chain[Num(tail + i) - Num(tail)];
        s.(cells := s.cells[b := s.cells[b][Cell(tail + i) := xs[i]]], prod := Writing(xs, chain, i + 1))
      else
        s.(q := OD.Apply(s.q, OD.Publish(|xs|)), tailBlock := if chain == [] then s.tailBlock else Some(Last(chain)), prod := Resting)
  }

  datatype Event =
    | Start(t: Tid, max: nat)
    | Count(t: Tid)            // a consumer's access among the counters
    | Consume(t: Tid)          // a consumer's access among the blocks
    | Enqueue(xs: seq<Item>)
    | Grant(b: Block)          // the pool gives the producer a block
    | Refuse                   // the index or the pool has no room
    | Produce

  predicate Enabled(s: State, e: Event) {
    match e
    case Start(t, max) => t in s.work && s.work[t] == Off && t in s.q.pc && s.q.pc[t] == OD.Idle && max > 0
    case Count(t) => t in s.work && s.work[t] == Off && t in s.q.pc && s.q.pc[t] != OD.Idle
    case Consume(t) => t in s.work && s.work[t] != Off
    case Enqueue(xs) => s.prod == Resting && |xs| + BLOCK_SIZE <= 2 * HALF
    case Grant(b) => s.prod.Allocating? && s.prod.left > 0 && b in s.pool
    case Refuse => s.prod.Allocating? && s.prod.left > 0
    case Produce => !s.prod.Resting? && (s.prod.Allocating? ==> s.prod.left <= 0)
  }

  /** The start of an enqueue, which masks out of the stored tail how much it must allocate; a tail inside
      a block goes on in the tail block. */
  function StartEnqueue(s: State, xs: seq<Item>): State {
    s.(prod := Allocating(xs, if Cell(s.q.tail) == 0 || s.tailBlock == None then [] else [s.tailBlock.value],
                          BlockBaseDiff(Wrap(s.q.tail, HALF), |xs|)))
  }

  function Apply(s: State, e: Event): State
    requires Enabled(s, e)
    requires e.Consume? ==> Ready(s, e.t)
    requires e.Produce? ==> ProducerReady(s)
  {
    match e
    case Start(t, max) => s.(q := OD.Apply(s.q, OD.Start(t, max)))
    case Count(t) => CounterStep(s, t)
    case Consume(t) => WorkStep(s, t)
    case Enqueue(xs) => StartEnqueue(s, xs)
    case Grant(b) => s.(pool := s.pool - {b}, prod := Resetting(s.prod.xs, s.prod.chain, s.prod.left - BLOCK_SIZE, b))
    case Refuse => s.(prod := Undoing(s.prod.chain, FirstFresh(s.q.tail), FirstFresh(s.q.tail)))
    case Produce => ProducerStep(s)
  }

  // ---- The invariant, over a history that no step reads ----

  /** The place of a block; a block has exactly one. */
  datatype Place =
    | InPool
    | New                        // given to the producer, not yet in the index
    | Indexed(k: nat)
    | Emptied(k: nat, t: Tid)    // in the index; t has emptied its last cell
    | Loose(t: Tid)              // t has removed it from the index
    | Undone                     // the producer has removed it from the index again

  /** `log` is every item enqueued so far, `done` the indices counted as emptied. */
  datatype Aux = Aux(od: OD.Aux, place: map<Block, Place>, done: set<nat>, log: seq<Item>)

  function NumberOf(p: Place): Option<nat> {
    match p
    case Indexed(k) => Some(k)
    case Emptied(k, _) => Some(k)
    case _ => None
  }

  ghost predicate IndexOk(index: map<nat, Block>, place: map<Block, Place>) {
    && (forall k :: k in index ==> index[k] in place && NumberOf(place[index[k]]) == Some(k))
    && (forall b :: b in place && NumberOf(place[b]).Some? ==>
          NumberOf(place[b]).value in index && index[NumberOf(place[b]).value] == b)
  }

  ghost predicate PoolOk(pool: set<Block>, place: map<Block, Place>) {
    forall b :: b in pool <==> b in place && place[b] == InPool
  }

  /** The block in a consumer's hand, and its place. */
  function HandOf(t: Tid, w: Work): Option<(Block, Place)> {
    match w
    case Clearing(_, b, k) => Some((b, Emptied(k, t)))
    case Returning(_, b) => Some((b, Loose(t)))
    case _ => None
  }

  ghost predicate HandsOk(work: map<Tid, Work>, place: map<Block, Place>) {
    && (forall t :: t in work && HandOf(t, work[t]).Some? ==>
          HandOf(t, work[t]).value.0 in place && place[HandOf(t, work[t]).value.0] == HandOf(t, work[t]).value.1)
    && (forall b :: b in place && (place[b].Emptied? || place[b].Loose?) ==>
          place[b].t in work && HandOf(place[b].t, work[place[b].t]) == Some((b, place[b])))
  }

  ghost predicate ProducerHand(prod: Producer, place: map<Block, Place>) {
    && (forall b :: b in place && place[b] == New <==> (prod.Resetting? || prod.Inserting?) && prod.b == b)
    && (forall b :: b in place && place[b] == Undone <==> b in UndoneBlocks(prod))
    && Distinct(UndoneBlocks(prod))
  }

  function UndoneBlocks(prod: Producer): seq<Block> {
    match prod
    case Undoing(chain, start, j) => if start <= j <= |chain| then chain[start..j] else []
    case Freeing(blocks) => blocks
    case _ => []
  }

  predicate Distinct(bs: seq<Block>) {
    forall i, j :: 0 <= i < j < |bs| ==> bs[i] != bs[j]
  }

  ghost predicate BlocksOk(place: map<Block, Place>, cells: map<Block, seq<Item>>, emptied: map<Block, nat>) {
    && cells.Keys == place.Keys && emptied.Keys == place.Keys
    && forall b :: b in cells ==> |cells[b]| == BLOCK_SIZE
  }

  function DoneIn(done: set<nat>, k: nat): set<nat> {
    set i | i in done && Base(k) <= i < Base(k) + BLOCK_SIZE
  }

  /** Each indexed block's count is the number of its emptied cells. */
  ghost predicate CountsOk(index: map<nat, Block>, emptied: map<Block, nat>, place: map<Block, Place>, done: set<nat>) {
    forall k :: k in index && index[k] in emptied && index[k] in place ==>
      && emptied[index[k]] == |DoneIn(done, k)|
      && (place[index[k]] == Indexed(k) ==> emptied[index[k]] < BLOCK_SIZE)
      && (place[index[k]].Emptied? ==> emptied[index[k]] == BLOCK_SIZE)
  }

  /** A block with a published index that is not emptied is in the index. */
  ghost predicate LiveOk(index: map<nat, Block>, tail: nat, done: set<nat>) {
    forall k: nat :: k < Cover(tail) && |DoneIn(done, k)| < BLOCK_SIZE ==> k in index
  }

  ghost predicate CellsOk(index: map<nat, Block>, cells: map<Block, seq<Item>>, done: set<nat>, log: seq<Item>) {
    forall i: nat :: i < |log| && i !in done && Num(i) in index ==> Stored(index, cells, i, log[i])
  }

  ghost predicate Stored(index: map<nat, Block>, cells: map<Block, seq<Item>>, i: nat, x: Item) {
    && Num(i) in index && index[Num(i)] in cells && Cell(i) < |cells[index[Num(i)]]|
    && cells[index[Num(i)]][Cell(i)] == x
  }

  function JobOf(w: Work): Job
    requires w != Off
  {
    w.j
  }

  /** The first index a consumer holds that is not yet counted as emptied. */
  function TodoFrom(w: Work): nat
    requires w != Off
  {
    if w.Copying? then w.from else w.j.cur
  }

  ghost predicate JobOk(t: Tid, w: Work, pcs: map<Tid, OD.Pc>, head: nat, index: map<nat, Block>, log: seq<Item>) {
    && t in pcs
    && (w == Off ==> !pcs[t].Holding?)
    && (w != Off ==>
        && w.j.first <= w.j.cur <= w.j.hi <= head <= |log|
        && pcs[t] == OD.Holding(w.j.first, w.j.hi - w.j.first)
        && w.j.out == log[w.j.first..w.j.cur])
    && (w.Copying? ==>
        && w.j.first <= w.from <= w.j.cur && w.from < w.j.hi
        && Num(w.from) in index && index[Num(w.from)] == w.b
        && (w.from < w.j.cur ==> Num(w.j.cur - 1) == Num(w.from)))
  }

  ghost predicate JobsOk(work: map<Tid, Work>, pcs: map<Tid, OD.Pc>, head: nat, index: map<nat, Block>, log: seq<Item>) {
    forall t :: t in work ==> JobOk(t, work[t], pcs, head, index, log)
  }

  /** Each index taken and not counted as emptied is in the hands of the consumer that took it. */
  ghost predicate TodoOk(work: map<Tid, Work>, owner: seq<Tid>, done: set<nat>) {
    && (forall i :: i in done ==> i < |owner|)
    && (forall t, i :: t in work && work[t] != Off && TodoFrom(work[t]) <= i < work[t].j.hi ==>
          i !in done && i < |owner| && owner[i] == t)
    && (forall i: nat :: i < |owner| && i !in done ==>
          owner[i] in work && work[owner[i]] != Off && TodoFrom(work[owner[i]]) <= i < work[owner[i]].j.hi)
  }

  function ChainOf(prod: Producer): seq<Block> {
    match prod
    case Resting => []
    case Freeing(_) => []
    case _ => prod.chain
  }

  /** Entries [from, |chain|) of the producer's chain are the indexed blocks from its tail's on. */
  ghost predicate ChainIn(index: map<nat, Block>, tail: nat, chain: seq<Block>, from: nat) {
    forall i :: from <= i < |chain| ==> Entry(index, Num(tail) + i, chain[i])
  }

  predicate Entry(index: map<nat, Block>, k: nat, b: Block) {
    k in index && index[k] == b
  }

  ghost predicate TailOk(index: map<nat, Block>, tail: nat, tailBlock: Option<Block>) {
    Cell(tail) != 0 ==> tailBlock.Some? && Num(tail) in index && index[Num(tail)] == tailBlock.value
  }

  /** No block is indexed beyond those that cover the tail and the producer's own. */
  ghost predicate NoneBeyond(index: map<nat, Block>, tail: nat, prod: Producer) {
    forall k :: k in index ==> k < Cover(tail) || (NextEntry(prod) <= k - Num(tail) < |ChainOf(prod)|)
  }

  function NextEntry(prod: Producer): nat {
    if prod.Undoing? then prod.j else 0
  }

  ghost predicate ChainOk(prod: Producer, tail: nat, index: map<nat, Block>, emptied: map<Block, nat>) {
    match prod
    case Resting => true
    case Freeing(_) => true
    case Allocating(xs, chain, left) =>
      FirstFresh(tail) <= |chain| <= Needs(tail, |xs|) && SizeOf(left, Needs(tail, |xs|) - |chain|) && ChainIn(index, tail, chain, 0)
    case Resetting(xs, chain, left, b) =>
      FirstFresh(tail) <= |chain| < Needs(tail, |xs|) && SizeOf(left, Needs(tail, |xs|) - |chain| - 1) && ChainIn(index, tail, chain, 0)
    case Inserting(xs, chain, left, b) =>
      && FirstFresh(tail) <= |chain| < Needs(tail, |xs|) && SizeOf(left, Needs(tail, |xs|) - |chain| - 1)
      && ChainIn(index, tail, chain, 0) && b in emptied && emptied[b] == 0
    case Undoing(chain, start, j) => start == FirstFresh(tail) <= j <= |chain| && ChainIn(index, tail, chain, j)
    case Writing(xs, chain, i) => FirstFresh(tail) <= |chain| == Needs(tail, |xs|) && i <= |xs| && ChainIn(index, tail, chain, 0)
  }

  ghost predicate WrittenOk(prod: Producer, tail: nat, index: map<nat, Block>, cells: map<Block, seq<Item>>) {
    prod.Writing? ==> forall i: nat :: i < prod.i <= |prod.xs| ==> Stored(index, cells, tail + i, prod.xs[i])
  }

  ghost predicate ProducerOk(s: State) {
    && TailOk(s.index, s.q.tail, s.tailBlock)
    && NoneBeyond(s.index, s.q.tail, s.prod)
    && ChainOk(s.prod, s.q.tail, s.index, s.emptied)
    && WrittenOk(s.prod, s.q.tail, s.index, s.cells)
  }

  ghost predicate MemoryOk(s: State, a: Aux) {
    && IndexOk(s.index, a.place)
    && BlocksOk(a.place, s.cells, s.emptied)
    && CountsOk(s.index, s.emptied, a.place, a.done)
    && LiveOk(s.index, s.q.tail, a.done)
    && CellsOk(s.index, s.cells, a.done, a.log)
  }

  ghost predicate HoldersOk(s: State, a: Aux) {
    && PoolOk(s.pool, a.place)
    && HandsOk(s.work, a.place)
    && ProducerHand(s.prod, a.place)
  }

  ghost predicate ConsumersOk(s: State, a: Aux) {
    && JobsOk(s.work, s.q.pc, s.q.head, s.index, a.log)
    && TodoOk(s.work, a.od.owner, a.done)
    && s.work.Keys == s.q.pc.Keys
  }

  ghost predicate Inv(s: State, a: Aux) {
    && OD.Inv(s.q, a.od) && |a.log| == s.q.tail && s.q.head <= s.q.tail
    && MemoryOk(s, a) && HoldersOk(s, a) && ConsumersOk(s, a) && ProducerOk(s)
  }

  // ---- The sub-queue in its own form ----

  /** The blocks, the index and the pool, updated in place, and every thread's registers. */
  class SharedSubQueue {
    var counters: OD.State
    var index: map<nat, Block>
    var cells: map<Block, seq<Item>>
    var elementsCompletelyDequeued: map<Block, nat>
    var freeBlocks: set<Block>
    var tailBlock: Option<Block>
    var producer: Producer
    var consumers: map<Tid, Work>

    function Snapshot(): State
      reads this
    {
      State(counters, index, cells, elementsCompletelyDequeued, freeBlocks, tailBlock, producer, consumers)
    }

    /** Counts cells of a block as emptied; true if the block is now empty. */
    method SetManyEmpty(b: Block, count: nat) returns (empty: bool)
      requires b in elementsCompletelyDequeued
      modifies this`elementsCompletelyDequeued
      ensures elementsCompletelyDequeued == old(elementsCompletelyDequeued)[b := old(elementsCompletelyDequeued)[b] + count]
      ensures empty == (elementsCompletelyDequeued[b] == BLOCK_SIZE)
    {
      var previous := elementsCompletelyDequeued[b];
      elementsCompletelyDequeued := elementsCompletelyDequeued[b := previous + count];
      empty := previous + count == BLOCK_SIZE;
    }

    /** The next access of a consumer that has taken its indices. */
    method AdvanceConsumer(t: Tid)
      requires Ready(Snapshot(), t) && consumers[t] != Off
      modifies this
      ensures Snapshot() == WorkStep(old(Snapshot()), t)
    {
      match consumers[t]
      case Lookup(j) =>
        if j.cur < j.hi {
          consumers := consumers[t := Copying(j, index[Num(j.cur)], j.cur)];
        } else {
          counters := OD.At(counters, t, OD.Idle);
          consumers := consumers[t := Off];
        }
      case Copying(j, b, from) =>
        Position(j.cur);
        if CopiesMore(j, from) {
          var el := cells[b][Cell(j.cur)];
          consumers := consumers[t := Copying(j.(cur := j.cur + 1, out := j.out + [el]), b, from)];
        } else {
          var empty := SetManyEmpty(b, j.cur - from);
          consumers := consumers[t := if empty then Clearing(j, b, Num(from)) else Lookup(j)];
        }
      case Clearing(j, b, k) =>
        index := index - {k};
        consumers := consumers[t := Returning(j, b)];
      case Returning(j, b) =>
        freeBlocks := freeBlocks + {b};
        consumers := consumers[t := Lookup(j)];
    }

    /** The next access of the producer. */
    method AdvanceProducer()
      requires ProducerReady(Snapshot())
      modifies this
      ensures Snapshot() == ProducerStep(old(Snapshot()))
    {
      var tail := counters.tail;
      match producer
      case Allocating(xs, chain, _) =>
        producer := Writing(xs, chain, 0);
      case Resetting(xs, chain, left, b) =>
        elementsCompletelyDequeued := elementsCompletelyDequeued[b := 0];
        producer := Inserting(xs, chain, left, b);
      case Inserting(xs, chain, left, b) =>
        index := index[Num(tail) + |chain| := b];
        producer := Allocating(xs, chain + [b], left);
      case Undoing(chain, start, j) =>
        if j < |chain| {
          index := index - {Num(tail) + j};
          producer := Undoing(chain, start, j + 1);
        } else {
          producer := Freeing(chain[start..]);
        }
      case Freeing(blocks) =>
        if blocks == [] {
          producer := Resting;
        } else {
          freeBlocks := freeBlocks + {blocks[0]};
          producer := Freeing(blocks[1..]);
        }
      case Writing(xs, chain, i) =>
        if i < |xs| {
          Position(tail + i);
          var b := chain[Num(tail + i) - Num(tail)];
          cells := cells[b := cells[b][Cell(tail + i) := xs[i]]];
          producer := Writing(xs, chain, i + 1);
        } else {
          counters := OD.Apply(counters, OD.Publish(|xs|));
          if chain != [] { tailBlock := Some(Last(chain)); }
          producer := Resting;
        }
    }
  }
}
