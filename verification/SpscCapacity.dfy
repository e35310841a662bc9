/** How much a queue holds when it refuses an item, over every run. */
module SpscCapacity {
  import opened Wrappers
  import opened SpscQueue
  import opened SpscProof
  import opened SpscTheorems
  import opened Powers

  /** `count` blocks of `size` slots can hold this many items while the front block may not be used
      again before it is empty; a lone block can always be filled. */
  function Guaranteed(count: nat, size: nat): int {
    if count <= 1 then size - 1 else (count - 1) * (size - 1)
  }

  /** The blocks that the constructor made are still there, and no block is smaller. */
  ghost predicate Sized(s: State, a: Aux, count: nat, size: nat) {
    && |a.ring| >= count && s.largest >= size >= 2
    && forall b :: b in s.blocks ==> |s.blocks[b].data| >= size
  }

  lemma SizedKept(s: State, a: Aux, e: Event, count: nat, size: nat)
    requires Sized(s, a, count, size) && Sound(s) && Enabled(s, e)
    ensures Sized(Apply(s, e), AuxApply(s, a, e), count, size)
  {
  }

  /** When the producer has found its tail block full, the queue held as much as the block can. */
  ghost predicate SeenOk(s: State, a: Aux) {
    s.prod.Stuck? && s.tailBlock in s.blocks ==> a.seen >= |s.blocks[s.tailBlock].data| - 1
  }

  lemma SeenKept(s: State, a: Aux, e: Event)
    requires Inv(s, a) && SeenOk(s, a) && Enabled(s, e)
    ensures Sound(s) && SeenOk(Apply(s, e), AuxApply(s, a, e))
  {
    hide Inv;
    InvSound(s, a);
    if e.Produce? && s.prod.Checking? { FullSeen(s, a); }
    hide Next;
  }

  lemma FullSeen(s: State, a: Aux)
    requires Inv(s, a)
    ensures s.tailBlock in s.blocks && s.tailBlock in a.cnt && a.k < |a.ring| && |s.blocks[s.tailBlock].data| > 0
    ensures var b := s.blocks[s.tailBlock];
      Next(b.tail, b) == b.front ==> |a.log| - |a.out| >= |b.data| - 1
  {
    hide FullOk, DataOk, ProducerOk, ConsumerOk, Good;
    Ends(s, a);
    Tests(s.blocks[s.tailBlock], a.cnt[s.tailBlock]);
    Forward(s, a);
    Ahead(a.ring, a.cnt, a.k, Pending(s.prod), |a.out|, |a.log|, a.k);
  }

  lemma Forward(s: State, a: Aux)
    requires Inv(s, a)
    ensures forall b :: b in a.cnt ==> a.cnt[b].f <= a.cnt[b].t
  {
    hide FullOk, DataOk, ProducerOk, ConsumerOk, ChainOk;
    forall b | b in a.cnt ensures a.cnt[b].f <= a.cnt[b].t { assert Good(s.blocks[b], a.cnt[b]); }
  }

  /** Every block of the queue starts in the log where the blocks before it end. */
  lemma {:induction false} Ahead(ring: seq<Id>, cnt: map<Id, Count>, k: nat, pending: Option<Id>, removed: nat, length: nat, i: nat)
    requires ChainOk(ring, cnt, k, pending, removed, length) && i <= k && forall b :: b in cnt ==> cnt[b].f <= cnt[b].t
    ensures cnt[ring[i]].off + cnt[ring[i]].f >= removed
  {
    if i > 0 {
      Ahead(ring, cnt, k, pending, removed, length, i - 1);
      assert Follows(ring, cnt, i);
    }
  }

  /** With the tail block full, so are all blocks after the front one. */
  lemma {:induction false} Filled(ring: seq<Id>, cnt: map<Id, Count>, blocks: map<Id, Block>, k: nat, pending: Option<Id>, removed: nat, length: nat, room: int, i: nat)
    requires ChainOk(ring, cnt, k, pending, removed, length) && FullOk(ring, cnt, blocks, k) && i <= k
    requires (forall b :: b in cnt ==> cnt[b].f <= cnt[b].t) && forall b :: b in cnt ==> b in blocks && |blocks[b].data| > room
    requires NoRoom(cnt[ring[k]], blocks[ring[k]])
    ensures EndOf(ring, cnt, i) >= removed + i * room
  {
    if i > 0 {
      Filled(ring, cnt, blocks, k, pending, removed, length, room, i - 1);
      assert Follows(ring, cnt, i);
      assert Untouched(cnt[ring[i]], |blocks[ring[i]].data|, i < k);
      assert i * room == (i - 1) * room + room;
    }
  }

  lemma TailFull(s: State, a: Aux)
    requires Inv(s, a) && s.prod.Stuck?
    ensures s.tailBlock in s.blocks && s.tailBlock in a.cnt && NoRoom(a.cnt[s.tailBlock], s.blocks[s.tailBlock])
  {
    hide DataOk, ConsumerOk, FullOk, RingOk, Good, ChainOk;
  }

  /** A refused item finds at least the guaranteed number of items in the queue, either now or, if the
      consumer has gone on meanwhile, when the producer found its block full. */
  lemma Refused(s: State, a: Aux, count: nat, size: nat)
    requires Inv(s, a) && SeenOk(s, a) && Sized(s, a, count, size)
    requires s.prod.Stuck? && s.tailBlock in s.next && s.next[s.tailBlock] == s.frontBlock
    ensures a.seen >= Guaranteed(count, size) || |a.log| - |a.out| >= Guaranteed(count, size)
  {
    hide FullOk, DataOk, ProducerOk, ConsumerOk, Good, ChainOk, RingOk, NoRoom;
    TailNext(s, a);
    if count >= 2 {
      Ends(s, a);
      TailFull(s, a);
      Forward(s, a);
      CountKeys(s, a);
      Filled(a.ring, a.cnt, s.blocks, a.k, None, |a.out|, |a.log|, size - 1, a.k);
      assert EndOf(a.ring, a.cnt, a.k) == |a.log| by { TailFacts(s, a); }
      MoreBlocks(count - 1, a.k, size - 1);
    }
  }

  lemma MoreBlocks(m: nat, n: nat, x: nat)
    requires m <= n
    ensures m * x <= n * x
  {
  }

  /** The usable slots of the first `i` blocks of a ring. */
  ghost function Slots(ring: seq<Id>, blocks: map<Id, Block>, i: nat): nat {
    if i == 0 || i > |ring| then 0
    else Slots(ring, blocks, i - 1) + if ring[i - 1] in blocks && blocks[ring[i - 1]].data != [] then |blocks[ring[i - 1]].data| - 1 else 0
  }

  ghost function Size(s: State, a: Aux): nat {
    Slots(a.ring, s.blocks, |a.ring|)
  }

  // ---- Filling an empty queue ----

  /** No item of this block has been removed since it became full. */
  predicate Full(c: Count, b: Block) {
    c.f == c.lf && NoRoom(c, b)
  }

  predicate Pushing(p: Producer) {
    p.Stuck? || p.Entering? || p.Filling? || p.Storing? || p.Making? || p.Linking? || p.Moving?
  }

  /** The producer has left the front block, or is about to, only with that block full. */
  predicate Packed(s: State, a: Aux) {
    (a.k > 0 || Pushing(s.prod)) && s.frontBlock in s.blocks && s.frontBlock in a.cnt ==> Full(a.cnt[s.frontBlock], s.blocks[s.frontBlock])
  }

  /** It is so when the queue is empty and the producer rests, and stays so while nothing is removed. */
  lemma EmptyPacked(s: State, a: Aux)
    requires Inv(s, a) && s.prod == Resting && |a.log| == |a.out|
    ensures Packed(s, a)
  {
    hide FullOk, DataOk, ProducerOk, ConsumerOk, RingOk, Good, BlocksOk, NoRoom;
    CountKeys(s, a);
    Forward(s, a);
    RingInside(s, a);
    if a.k > 0 { ItemAhead(a.ring, a.cnt, a.k, None, |a.out|, |a.log|, a.k); }
  }

  lemma {:induction false} ItemAhead(ring: seq<Id>, cnt: map<Id, Count>, k: nat, pending: Option<Id>, removed: nat, length: nat, i: nat)
    requires ChainOk(ring, cnt, k, pending, removed, length) && 0 < i <= k
    requires cnt[ring[0]].f <= cnt[ring[0]].t
    ensures EndOf(ring, cnt, i) > removed
  {
    assert Follows(ring, cnt, i);
    if i > 1 { ItemAhead(ring, cnt, k, pending, removed, length, i - 1); }
  }

  lemma ProducerPacked(s: State, a: Aux, e: Event)
    requires Inv(s, a) && Packed(s, a) && (e.Enqueue? || e.Produce?) && Enabled(s, e)
    ensures Sound(s) && Packed(Apply(s, e), AuxApply(s, a, e))
  {
    hide ChainOk, FullOk, DataOk, ConsumerOk, BlocksOk, Holds, Following;
    InvSound(s, a);
    Ends(s, a);
    Tests(s.blocks[s.tailBlock], a.cnt[s.tailBlock]);
  }

  lemma ConsumerPacked(s: State, a: Aux, e: Event)
    requires Inv(s, a) && Packed(s, a) && !(e.Enqueue? || e.Produce?) && Enabled(s, e) && !s.cons.Took? && !s.cons.Crossing?
    ensures Sound(s) && Packed(Apply(s, e), AuxApply(s, a, e))
  {
    hide ChainOk, FullOk, DataOk, ProducerOk, BlocksOk, Holds, Following;
    InvSound(s, a);
    Ends(s, a);
  }

  lemma {:induction false} AllFull(ring: seq<Id>, cnt: map<Id, Count>, blocks: map<Id, Block>, k: nat, pending: Option<Id>, removed: nat, length: nat, i: nat)
    requires ChainOk(ring, cnt, k, pending, removed, length) && FullOk(ring, cnt, blocks, k) && i <= k
    requires forall b :: b in cnt ==> b in blocks && |blocks[b].data| > 0
    requires Full(cnt[ring[0]], blocks[ring[0]]) && NoRoom(cnt[ring[k]], blocks[ring[k]])
    ensures EndOf(ring, cnt, i) == removed + Slots(ring, blocks, i + 1)
  {
    if i > 0 {
      AllFull(ring, cnt, blocks, k, pending, removed, length, i - 1);
      assert Follows(ring, cnt, i);
      assert Untouched(cnt[ring[i]], |blocks[ring[i]].data|, i < k);
    } else {
      assert Slots(ring, blocks, 0) == 0;
    }
  }

  /** An item is then refused when every slot has an item. */
  lemma PackedFull(s: State, a: Aux)
    requires Inv(s, a) && Packed(s, a) && s.prod.Stuck? && s.tailBlock in s.next && s.next[s.tailBlock] == s.frontBlock
    ensures |a.log| - |a.out| == Size(s, a)
  {
    hide FullOk, DataOk, ProducerOk, ConsumerOk, Good, ChainOk, RingOk, NoRoom;
    TailNext(s, a);
    Ends(s, a);
    TailFull(s, a);
    CountKeys(s, a);
    BlocksSound(s, a);
    AllFull(a.ring, a.cnt, s.blocks, a.k, None, |a.out|, |a.log|, a.k);
    TailFacts(s, a);
  }

  lemma BlocksSound(s: State, a: Aux)
    requires Inv(s, a)
    ensures forall b :: b in a.cnt ==> b in s.blocks && |s.blocks[b].data| > 0
    ensures s.prod.Stuck? ==> ChainOk(a.ring, a.cnt, a.k, None, |a.out|, |a.log|) && FullOk(a.ring, a.cnt, s.blocks, a.k)
  {
    hide FullOk, DataOk, ProducerOk, ConsumerOk, ChainOk, RingOk, NoRoom;
    forall b | b in a.cnt ensures b in s.blocks && |s.blocks[b].data| > 0 { assert Good(s.blocks[b], a.cnt[b]); }
  }

  lemma {:induction false} SlotsSame(ring: seq<Id>, blocks: map<Id, Block>, blocks': map<Id, Block>, i: nat)
    requires forall b :: b in ring ==> b in blocks && b in blocks' && |blocks'[b].data| == |blocks[b].data|
    ensures Slots(ring, blocks', i) == Slots(ring, blocks, i)
  {
    if 0 < i <= |ring| { SlotsSame(ring, blocks, blocks', i - 1); }
  }

  /** Only a new block makes more slots. */
  lemma SizeKept(s: State, a: Aux, e: Event)
    requires Inv(s, a) && (e.Enqueue? || e.Produce?) && Enabled(s, e) && !s.prod.Linking? && !(s.prod.Making? && e.fresh'.Some?)
    ensures Sound(s) && Size(Apply(s, e), AuxApply(s, a, e)) == Size(s, a)
  {
    hide Inv, Next, Slots;
    InvSound(s, a);
    RingInside(s, a);
    var s', a' := Apply(s, e), AuxApply(s, a, e);
    assert a'.ring == a.ring;
    SlotsSame(a.ring, s.blocks, s'.blocks, |a.ring|);
  }

  // ---- Over runs ----

  ghost predicate Run(s0: State, a0: Aux, es: seq<Event>, s: State, a: Aux) {
    if es == [] then s == s0 && a == a0
    else exists r: State, b: Aux :: Leads(r, b, Last(es), s, a) && Run(s0, a0, Front(es), r, b)
  }

  lemma {:induction false} RunKeeps(s0: State, a0: Aux, es: seq<Event>, s: State, a: Aux, count: nat, size: nat)
    requires Start(s0, a0) && Sized(s0, a0, count, size) && Run(s0, a0, es, s, a)
    ensures Inv(s, a) && SeenOk(s, a) && Sized(s, a, count, size)
  {
    hide Inv, Sized, SeenOk, Apply, AuxApply, Sound, Enabled;
    if es == [] {
      StartInv(s, a);
      assert SeenOk(s, a) by { StartSeen(s, a); }
    } else {
      var r: State, b: Aux :| Leads(r, b, Last(es), s, a) && Run(s0, a0, Front(es), r, b);
      RunKeeps(s0, a0, Front(es), r, b, count, size);
      EventKeepsInv(r, b, Last(es));
      SizedKept(r, b, Last(es), count, size);
      SeenKept(r, b, Last(es));
    }
  }

  lemma StartSeen(s: State, a: Aux)
    requires Start(s, a)
    ensures SeenOk(s, a)
  {
  }

  /** In every run, `try_enqueue` returns false, and `enqueue` asks for memory, only if at some moment of the call
      the queue held as many items as the blocks that it was made with guarantee. */
  lemma RefusesOnlyWhenFull(s0: State, a0: Aux, es: seq<Event>, s: State, a: Aux, count: nat, size: nat)
    requires Start(s0, a0) && Sized(s0, a0, count, size) && Run(s0, a0, es, s, a)
    requires s.prod.Stuck? && Enabled(s, Produce(None)) && Sound(s)
    requires Apply(s, Produce(None)).prod == Returned(false) || Apply(s, Produce(None)).prod.Making?
    ensures a.seen >= Guaranteed(count, size) || |a.log| - |a.out| >= Guaranteed(count, size)
  {
    hide Inv, Sized, Start, SeenOk;
    RunKeeps(s0, a0, es, s, a, count, size);
    Refused(s, a, count, size);
  }

  // ---- The sizes of blocks ----

  ghost predicate IsPower(n: nat) {
    exists k: nat :: n == Pow2(k)
  }

  /** Every block's size is a power of two, as its mask must be one less. */
  ghost predicate PowersOnly(s: State) {
    IsPower(s.largest) && forall b :: b in s.blocks ==> IsPower(|s.blocks[b].data|)
  }

  /** A new block has the largest size so far, or twice that while it is below the limit. */
  lemma NewBlocksDouble(s: State, m: Option<(Id, Item)>)
    requires Sound(s) && Enabled(s, Produce(m)) && s.prod.Making? && m.Some?
    ensures var s', id := Apply(s, Produce(m)), m.value.0;
      && id in s'.blocks && |s'.blocks[id].data| == s'.largest
      && (s.largest < MAX_BLOCK_SIZE ==> s'.largest == 2 * s.largest < 2 * MAX_BLOCK_SIZE)
      && (s.largest >= MAX_BLOCK_SIZE ==> s'.largest == s.largest)
  {
  }

  lemma StaysPower(s: State, e: Event)
    requires Sound(s) && Enabled(s, e) && PowersOnly(s)
    ensures PowersOnly(Apply(s, e))
  {
    hide Next, IsPower;
    if e.Produce? && s.prod.Making? && e.fresh'.Some? { DoublePower(s.largest); }
  }

  lemma DoublePower(n: nat)
    requires IsPower(n)
    ensures IsPower(2 * n)
  {
    var k: nat :| n == Pow2(k);
    assert Pow2(k + 1) == 2 * n;
  }

  /** In every run from blocks whose sizes are powers of two, as the constructor makes them, all sizes are. */
  lemma {:induction false} AllPowers(s0: State, a0: Aux, es: seq<Event>, s: State, a: Aux)
    requires PowersOnly(s0) && Run(s0, a0, es, s, a)
    ensures PowersOnly(s)
  {
    hide Apply, AuxApply, Sound, Enabled, PowersOnly;
    if es != [] {
      var r: State, b: Aux :| Leads(r, b, Last(es), s, a) && Run(s0, a0, Front(es), r, b);
      AllPowers(s0, a0, Front(es), r, b);
      StaysPower(r, Last(es));
    }
  }
}
