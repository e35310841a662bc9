/**
 The single-producer, single-consumer queue: a circular list of circular buffers. Producer and
 consumer each make one access to shared memory at a time, in any interleaving; what one of them
 alone reads and writes, it reads and writes together with an access.

 Indices into a buffer wrap around by its size, which is a power of two, as a mask does.
 */
module SpscQueue {
  import opened Wrappers

  type Item = int
  type Id = nat

  /** `localTail` is the consumer's copy of `tail`, `localFront` the producer's of `front`. */
  datatype Block = Block(front: nat, localTail: nat, tail: nat, localFront: nat, data: seq<Item>)

  datatype Op = Dequeue | Pop | Peek

  datatype Producer =
    | Resting
    | Checking(x: Item, alloc: bool)   // the tail block is full, unless the consumer has gone on
    | Writing(x: Item)
    | Raising(x: Item)
    | Stuck(x: Item, alloc: bool)      // the tail block is full
    | Entering(x: Item, nb: Id)        // the next block is free
    | Filling(x: Item, nb: Id)
    | Storing(x: Item, nb: Id)
    | Making(x: Item)
    | Linking(x: Item, nb: Id)
    | Moving(x: Item, nb: Id)
    | Returned(ok: bool)

  datatype Consumer =
    | Idle
    | Probing(op: Op)
    | Comparing(op: Op)
    | Rechecking(op: Op)
    | Leaving(op: Op)
    | Arriving(op: Op, nb: Id)
    | Crossing(op: Op, nb: Id)
    | Taking(op: Op)
    | Took(op: Op, x: Item)
    | Answered(op: Op, r: Option<Item>)

  datatype State = State(
    blocks: map<Id, Block>,
    next: map<Id, Id>,
    frontBlock: Id,
    tailBlock: Id,
    largest: nat,
    prod: Producer,
    cons: Consumer)

  type BlockSize = n: nat | n >= 2 witness 512

  /** The template's limit on the size of a block. */
  const MAX_BLOCK_SIZE: BlockSize

  // ---- Steps ----

  predicate SoundBlock(b: Block) {
    |b.data| >= 2 && b.front < |b.data| && b.tail < |b.data|
  }

  /** Every pointer leads to a block. */
  predicate Sound(s: State) {
    && s.largest >= 2 && s.blocks.Keys == s.next.Keys && s.frontBlock in s.blocks && s.tailBlock in s.blocks
    && (forall b :: b in s.blocks ==> SoundBlock(s.blocks[b]))
    && (s.prod.Entering? || s.prod.Filling? || s.prod.Storing? || s.prod.Linking? || s.prod.Moving? ==> s.prod.nb in s.blocks)
    && (s.cons.Arriving? || s.cons.Crossing? ==> s.cons.nb in s.blocks)
  }

  /** The index after `i` in a buffer. */
  function Next(i: nat, b: Block): nat
    requires |b.data| > 0
  {
    (i + 1) % |b.data|
  }

  datatype Event =
    | Enqueue(x: Item, alloc: bool)
    | Produce(fresh': Option<(Id, Item)>)   // a new block and what is in its memory, should one be needed
    | Call(op: Op)
    | Consume
    | Return

  function NewSize(largest: nat): nat {
    if largest >= MAX_BLOCK_SIZE then largest else largest * 2
  }

  predicate Enabled(s: State, e: Event) {
    match e
    case Enqueue(_, _) => s.prod == Resting
    case Produce(m) => s.prod != Resting && (s.prod.Making? && m.Some? ==> m.value.0 !in s.blocks)
    case Call(_) => s.cons == Idle
    case Consume => s.cons != Idle && !s.cons.Answered?
    case Return => s.cons.Answered?
  }

  function SetBlock(s: State, id: Id, b: Block): State {
    s.(blocks := s.blocks[id := b])
  }

  function ProducerStep(s: State, m: Option<(Id, Item)>): State
    requires Sound(s) && s.prod != Resting && Enabled(s, Produce(m))
  {
    var t := s.tailBlock;
    var b := s.blocks[t];
    match s.prod
    case Checking(x, alloc) =>
      SetBlock(s, t, b.(localFront := b.front)).(prod := if Next(b.tail, b) != b.front then Writing(x) else Stuck(x, alloc))
    case Writing(x) => SetBlock(s, t, b.(data := b.data[b.tail := x])).(prod := Raising(x))
    case Raising(x) => SetBlock(s, t, b.(tail := Next(b.tail, b))).(prod := Returned(true))
    case Stuck(x, alloc) =>
      s.(prod := if s.next[t] != s.frontBlock then Entering(x, s.next[t]) else if alloc then Making(x) else Returned(false))
    case Entering(x, nb) => SetBlock(s, nb, s.blocks[nb].(localFront := s.blocks[nb].front)).(prod := Filling(x, nb))
    case Filling(x, nb) =>
      var n := s.blocks[nb];
      SetBlock(s, nb, n.(data := n.data[n.tail := x])).(prod := Storing(x, nb))
    case Storing(x, nb) =>
      var n := s.blocks[nb];
      SetBlock(s, nb, n.(tail := Next(n.tail, n))).(prod := Moving(x, nb))
    case Making(x) =>
      if m == None then s.(prod := Returned(false))
      else
        var (id, junk) := m.value;
        var size := NewSize(s.largest);
        s.(blocks := s.blocks[id := Block(0, 1, 1, 0, seq(size, i => if i == 0 then x else junk))],
           next := s.next[id := s.next[t]], largest := size, prod := Linking(x, id))
    case Linking(x, nb) => s.(next := s.next[t := nb], prod := Moving(x, nb))
    case Moving(x, nb) => s.(tailBlock := nb, prod := Returned(true))
    case Returned(_) => s.(prod := Resting)
  }

  function ConsumerStep(s: State): State
    requires Sound(s) && Enabled(s, Consume)
  {
    var f := s.frontBlock;
    var b := s.blocks[f];
    match s.cons
    case Probing(op) =>
      SetBlock(s, f, b.(localTail := b.tail)).(cons := if b.front != b.tail then Taking(op) else Comparing(op))
    case Comparing(op) => s.(cons := if f != s.tailBlock then Rechecking(op) else Answered(op, None))
    case Rechecking(op) =>
      SetBlock(s, f, b.(localTail := b.tail)).(cons := if b.front != b.tail then Taking(op) else Leaving(op))
    case Leaving(op) => s.(cons := Arriving(op, s.next[f]))
    case Arriving(op, nb) =>
      var n := s.blocks[nb];
      if op.Peek? then s.(cons := Answered(Peek, Some(n.data[n.front])))
      else SetBlock(s, nb, n.(localTail := n.tail)).(cons := Crossing(op, nb))
    case Crossing(op, nb) => s.(frontBlock := nb, cons := Taking(op))
    case Taking(op) =>
      var x := b.data[b.front];
      s.(cons := if op.Peek? then Answered(Peek, Some(x)) else Took(op, x))
    case Took(op, x) => SetBlock(s, f, b.(front := Next(b.front, b))).(cons := Answered(op, Some(x)))
  }

  function Apply(s: State, e: Event): State
    requires Sound(s) && Enabled(s, e)
  {
    match e
    case Enqueue(x, alloc) =>
      var b := s.blocks[s.tailBlock];
      s.(prod := if Next(b.tail, b) != b.localFront then Writing(x) else Checking(x, alloc))
    case Produce(m) => ProducerStep(s, m)
    case Call(op) =>
      var b := s.blocks[s.frontBlock];
      s.(cons := if b.front != b.localTail then Taking(op) else Probing(op))
    case Consume => ConsumerStep(s)
    case Return => s.(cons := Idle)
  }

  // ---- The invariant, over a history that no step reads ----

  /** A block's indices as if they did not wrap around; `off` is the place in the log of its index 0. */
  datatype Count = Count(f: nat, t: nat, lf: nat, lt: nat, off: int)

  /**
   `ring` is the blocks in order, from the front block on, and the tail block is number `k` of them.
   `log` is everything enqueued and `out` everything removed. `wasEmpty` tells whether the queue was
   empty when the consumer last probed, and `seen` its length when the producer last checked.
   */
  datatype Aux = Aux(ring: seq<Id>, k: nat, cnt: map<Id, Count>, log: seq<Item>, out: seq<Item>, wasEmpty: bool, seen: int)

  function Rotated(ring: seq<Id>): seq<Id>
    requires ring != []
  {
    ring[1..] + [ring[0]]
  }

  function Inserted(ring: seq<Id>, k: nat, nb: Id): seq<Id>
    requires k < |ring|
  {
    ring[..k + 1] + [nb] + ring[k + 1..]
  }

  function AuxProduce(s: State, a: Aux, m: Option<(Id, Item)>): Aux
    requires s.tailBlock in a.cnt && a.k < |a.ring|
    requires s.prod.Entering? || s.prod.Storing? ==> s.prod.nb in a.cnt
  {
    var c := a.cnt[s.tailBlock];
    match s.prod
    case Checking(_, _) => a.(cnt := a.cnt[s.tailBlock := c.(lf := c.f)], seen := |a.log| - |a.out|)
    case Raising(x) => a.(cnt := a.cnt[s.tailBlock := c.(t := c.t + 1)], log := a.log + [x])
    case Entering(_, nb) => a.(cnt := a.cnt[nb := a.cnt[nb].(lf := a.cnt[nb].f, off := |a.log| - a.cnt[nb].f)])
    case Storing(_, nb) => a.(cnt := a.cnt[nb := a.cnt[nb].(t := a.cnt[nb].t + 1)])
    case Making(_) => if m == None then a else a.(cnt := a.cnt[m.value.0 := Count(0, 1, 0, 1, |a.log|)])
    case Linking(_, nb) => a.(ring := Inserted(a.ring, a.k, nb))
    case Moving(x, _) => a.(k := a.k + 1, log := a.log + [x])
    case _ => a
  }

  function AuxConsume(s: State, a: Aux): Aux
    requires s.frontBlock in a.cnt && a.ring != []
    requires s.cons.Arriving? ==> s.cons.nb in a.cnt
    requires s.cons.Crossing? ==> a.k > 0
  {
    var c := a.cnt[s.frontBlock];
    match s.cons
    case Probing(_) => a.(cnt := a.cnt[s.frontBlock := c.(lt := c.t)], wasEmpty := |a.log| == |a.out|)
    case Rechecking(_) => a.(cnt := a.cnt[s.frontBlock := c.(lt := c.t)])
    case Arriving(op, nb) => if op.Peek? then a else a.(cnt := a.cnt[nb := a.cnt[nb].(lt := a.cnt[nb].t)])
    case Crossing(_, _) => a.(ring := Rotated(a.ring), k := a.k - 1)
    case Took(_, x) => a.(cnt := a.cnt[s.frontBlock := c.(f := c.f + 1)], out := a.out + [x])
    case _ => a
  }

  function AuxApply(s: State, a: Aux, e: Event): Aux {
    match e
    case Produce(m) =>
      if s.tailBlock in a.cnt && a.k < |a.ring| && (s.prod.Entering? || s.prod.Storing? ==> s.prod.nb in a.cnt)
      then AuxProduce(s, a, m) else a
    case Consume =>
      if s.frontBlock in a.cnt && a.ring != [] && (s.cons.Arriving? ==> s.cons.nb in a.cnt) && (s.cons.Crossing? ==> a.k > 0)
      then AuxConsume(s, a) else a
    case Call(_) => a.(wasEmpty := false)
    case _ => a
  }

  /** The stored indices are the counts, wrapped; a block never holds more than its size less one. */
  ghost predicate Good(b: Block, c: Count) {
    var n := |b.data|;
    && n >= 2 && b.front == c.f % n && b.tail == c.t % n && b.localFront == c.lf % n && b.localTail == c.lt % n
    && c.lf <= c.f <= c.lt <= c.t < c.lf + n
  }

  ghost predicate BlocksOk(blocks: map<Id, Block>, cnt: map<Id, Count>) {
    && blocks.Keys == cnt.Keys
    && forall b :: b in blocks ==> Good(blocks[b], cnt[b])
  }

  function Following(ring: seq<Id>, i: nat): Id
    requires i < |ring|
  {
    if i + 1 < |ring| then ring[i + 1] else ring[0]
  }

  ghost predicate RingOk(ring: seq<Id>, next: map<Id, Id>, front: Id, tail: Id, k: nat) {
    && k < |ring| && ring[0] == front && ring[k] == tail
    && (forall i, j :: 0 <= i < j < |ring| ==> ring[i] != ring[j])
    && (forall i :: 0 <= i < |ring| ==> ring[i] in next && next[ring[i]] == Following(ring, i))
  }

  function EndOf(ring: seq<Id>, cnt: map<Id, Count>, i: nat): int
    requires i < |ring| && ring[i] in cnt
  {
    cnt[ring[i]].off + cnt[ring[i]].t
  }

  /** The part of the log that block number `i` holds follows on what the block before it holds. */
  ghost predicate Follows(ring: seq<Id>, cnt: map<Id, Count>, i: nat)
    requires 0 < i < |ring| && ring[i] in cnt && ring[i - 1] in cnt
  {
    cnt[ring[i]].off + cnt[ring[i]].f == EndOf(ring, cnt, i - 1)
  }

  /** From the front block to the tail block, the blocks hold what is in the queue. Those between are
      not empty, and the others are. `pending` is a block that the tail is about to move to. */
  ghost predicate ChainOk(ring: seq<Id>, cnt: map<Id, Count>, k: nat, pending: Option<Id>, removed: nat, length: nat) {
    && k < |ring| && (forall i :: 0 <= i < |ring| ==> ring[i] in cnt)
    && cnt[ring[0]].off + cnt[ring[0]].f == removed
    && (forall i :: 0 < i <= k ==> Follows(ring, cnt, i))
    && EndOf(ring, cnt, k) == length
    && (forall i :: 0 < i <= k ==> cnt[ring[i]].f < cnt[ring[i]].t)
    && (forall i :: k < i < |ring| && pending != Some(ring[i]) ==> cnt[ring[i]].f == cnt[ring[i]].t)
  }

  /** Behind the tail block, but not at the front, all blocks are full; the consumer has not been there. */
  ghost predicate FullOk(ring: seq<Id>, cnt: map<Id, Count>, blocks: map<Id, Block>, k: nat) {
    forall i :: 0 < i <= k < |ring| && ring[i] in cnt && ring[i] in blocks ==> Untouched(cnt[ring[i]], |blocks[ring[i]].data|, i < k)
  }

  predicate Untouched(c: Count, size: nat, full: bool) {
    c.f == c.lf && (full ==> c.t == c.lf + size - 1)
  }

  ghost predicate Holds(data: seq<Item>, c: Count, log: seq<Item>) {
    forall j :: c.f <= j < c.t ==> Has(data, c.off, log, j)
  }

  ghost predicate Has(data: seq<Item>, off: int, log: seq<Item>, j: nat) {
    data != [] && 0 <= off + j < |log| && data[j % |data|] == log[off + j]
  }

  ghost predicate DataOk(ring: seq<Id>, cnt: map<Id, Count>, blocks: map<Id, Block>, k: nat, log: seq<Item>) {
    forall i :: 0 <= i <= k < |ring| && ring[i] in cnt && ring[i] in blocks ==> Holds(blocks[ring[i]].data, cnt[ring[i]], log)
  }

  predicate CellIs(b: Block, i: nat, x: Item) {
    b.data != [] && b.data[i % |b.data|] == x
  }

  /** The block that the tail is about to move to holds the new item, next in the log. */
  ghost predicate PendingOk(b: Block, c: Count, length: nat, x: Item) {
    c.t == c.f + 1 && c.lf == c.f && c.off + c.f == length && CellIs(b, c.f, x)
  }

  function Pending(p: Producer): Option<Id> {
    match p
    case Linking(_, nb) => Some(nb)
    case Moving(_, nb) => Some(nb)
    case _ => None
  }

  predicate Vacant(c: Count, length: nat) {
    c.t == c.f == c.lf && c.off + c.f == length
  }

  predicate HasRoom(c: Count, b: Block) {
    c.t + 1 < c.lf + |b.data|
  }

  predicate NoRoom(c: Count, b: Block) {
    c.t + 1 == c.lf + |b.data|
  }

  predicate IsNext(nb: Id, ring: seq<Id>, k: nat) {
    k + 1 < |ring| && nb == ring[k + 1]
  }

  /** `b` and `c` are those of the tail block. */
  ghost predicate ProducerOk(p: Producer, b: Block, c: Count, blocks: map<Id, Block>, next: map<Id, Id>, ring: seq<Id>, k: nat, cnt: map<Id, Count>, length: nat)
    requires k < |ring|
  {
    match p
    case Writing(_) => HasRoom(c, b)
    case Raising(x) => HasRoom(c, b) && CellIs(b, c.t, x)
    case Stuck(_, _) => NoRoom(c, b)
    case Entering(_, nb) => NoRoom(c, b) && IsNext(nb, ring, k)
    case Filling(_, nb) => NoRoom(c, b) && IsNext(nb, ring, k) && nb in cnt && Vacant(cnt[nb], length)
    case Storing(x, nb) =>
      NoRoom(c, b) && IsNext(nb, ring, k) && nb in cnt && Vacant(cnt[nb], length)
      && nb in blocks && CellIs(blocks[nb], cnt[nb].t, x)
    case Making(_) => NoRoom(c, b)
    case Linking(x, nb) =>
      NoRoom(c, b) && nb !in ring && nb in next && next[nb] == Following(ring, k)
      && nb in cnt && nb in blocks && PendingOk(blocks[nb], cnt[nb], length, x)
    case Moving(x, nb) =>
      NoRoom(c, b) && IsNext(nb, ring, k) && nb in cnt && nb in blocks && PendingOk(blocks[nb], cnt[nb], length, x)
    case _ => true
  }

  /** `c` is the front block's. */
  ghost predicate ConsumerOk(q: Consumer, c: Count, ring: seq<Id>, k: nat, cnt: map<Id, Count>, log: seq<Item>, out: seq<Item>, wasEmpty: bool)
    requires k < |ring|
  {
    match q
    case Comparing(_) => k == 0 ==> wasEmpty
    case Rechecking(_) => k > 0
    case Leaving(_) => k > 0 && c.f == c.t
    case Arriving(_, nb) => k > 0 && c.f == c.t && nb == ring[1]
    case Crossing(_, nb) => k > 0 && c.f == c.t && nb == ring[1] && nb in cnt && cnt[nb].f < cnt[nb].lt
    case Taking(_) => c.f < c.lt
    case Took(op, x) => !op.Peek? && c.f < c.lt && |out| < |log| && x == log[|out|]
    case Answered(op, r) =>
      && (r == None ==> wasEmpty)
      && (r.Some? && op.Peek? ==> |out| < |log| && r.value == log[|out|])
      && (r.Some? && !op.Peek? ==> out != [] && r.value == Last(out))
    case _ => true
  }

  ghost predicate Inv(s: State, a: Aux) {
    && s.largest >= 2 && s.next.Keys == s.blocks.Keys
    && s.frontBlock in s.blocks && s.tailBlock in s.blocks && BlocksOk(s.blocks, a.cnt)
    && RingOk(a.ring, s.next, s.frontBlock, s.tailBlock, a.k)
    && ChainOk(a.ring, a.cnt, a.k, Pending(s.prod), |a.out|, |a.log|)
    && FullOk(a.ring, a.cnt, s.blocks, a.k)
    && DataOk(a.ring, a.cnt, s.blocks, a.k, a.log)
    && ProducerOk(s.prod, s.blocks[s.tailBlock], a.cnt[s.tailBlock], s.blocks, s.next, a.ring, a.k, a.cnt, |a.log|)
    && ConsumerOk(s.cons, a.cnt[s.frontBlock], a.ring, a.k, a.cnt, a.log, a.out, a.wasEmpty)
    && a.out <= a.log
  }
}
