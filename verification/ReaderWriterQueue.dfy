/** The single-producer, single-consumer queue in its own form: its blocks are updated in place. */
module ReaderWriterQueue {
  import opened Wrappers
  import opened Powers
  import opened CircularArithmetic
  import opened SpscQueue
  import opened SpscProof
  import opened SpscTheorems
  import opened SpscCapacity

  /** One access of the state machine, in a state that keeps its invariants. */
  lemma Go(s: State, a: Aux, e: Event, count: nat, size: nat, filling: bool) returns (s': State, a': Aux)
    requires Inv(s, a) && Sized(s, a, count, size) && SeenOk(s, a) && Enabled(s, e) && (filling ==> Packed(s, a) && !Passes(s, e))
    ensures Sound(s) && s' == Apply(s, e) && a' == AuxApply(s, a, e)
    ensures Reachable(s, s.tailBlock) && Reachable(s, s.frontBlock)
    ensures s.prod.Entering? || s.prod.Filling? || s.prod.Storing? || s.prod.Linking? || s.prod.Moving? ==> Reachable(s, s.prod.nb)
    ensures s.cons.Arriving? || s.cons.Crossing? ==> Reachable(s, s.cons.nb)
    ensures Inv(s', a') && Sized(s', a', count, size) && SeenOk(s', a') && (filling ==> Packed(s', a'))
    ensures (e.Enqueue? || e.Produce?) && !s.prod.Linking? && !(s.prod.Making? && e.fresh'.Some?) ==> Size(s', a') == Size(s, a)
    ensures a'.log == a.log + if Appends(s, e) then [s.prod.x] else []
    ensures a'.out == a.out + if Removes(s, e) then [s.cons.x] else []
    ensures Removes(s, e) ==> |a.out| < |a.log| && s.cons.x == a.log[|a.out|]
    ensures a'.out <= a'.log
    ensures e.Consume? && s.cons.Probing? ==> a'.wasEmpty == (|a.log| == |a.out|)
    ensures e.Consume? && !s.cons.Probing? ==> a'.wasEmpty == a.wasEmpty
    ensures e.Produce? && s.prod.Checking? ==> a'.seen == |a.log| - |a.out|
    ensures e.Produce? && !s.prod.Checking? ==> a'.seen == a.seen
  {
    hide Inv, Sized, SeenOk, Apply, AuxApply, Packed, Size;
    InvSound(s, a);
    if filling { if e.Enqueue? || e.Produce? { ProducerPacked(s, a, e); } else { ConsumerPacked(s, a, e); } }
    if (e.Enqueue? || e.Produce?) && !s.prod.Linking? && !(s.prod.Making? && e.fresh'.Some?) { SizeKept(s, a, e); }
    EventKeepsInv(s, a, e);
    SizedKept(s, a, e, count, size);
    SeenKept(s, a, e);
    Effects(s, a, e);
    Notes(s, a, e);
    s', a' := Apply(s, e), AuxApply(s, a, e);
    Prefix(s', a');
  }

  /** The consumer removes an item or goes on to another block. */
  predicate Passes(s: State, e: Event) {
    !e.Enqueue? && !e.Produce? && (s.cons.Took? || s.cons.Crossing?)
  }

  predicate Reachable(s: State, b: Id) {
    b in s.blocks && b in s.next && SoundBlock(s.blocks[b])
  }

  /** The number of blocks for `n` items, and their size, for any `n` that fits in a word. The blocks have room
      for so many items exactly if `n + 1` is at most half the words; otherwise there is one block of size 0. */
  method Shape(n: nat) returns (m: nat, largest: nat)
    requires n < Pow2(64)
    ensures m > 0 && (Guaranteed(m, largest) >= n <==> n + 1 <= Pow2(63))
    ensures n + 1 > Pow2(63) ==> m == 1 && largest == 0
    ensures n + 1 <= Pow2(63) ==> largest > 0 && (largest >= 2 <==> n > 0)
    ensures m > 1 ==> largest == MAX_BLOCK_SIZE
    ensures m == 1 && largest > 0 ==> LeastPower(n + 1, largest) && largest <= 2 * MAX_BLOCK_SIZE
  {
    hide Pow2, LeastPower;
    PowersForWords();
    var least := CeilToPow2((n + 1) % Pow2(64), 8, 3);
    ShapeFits(n, least);
    m, largest := 1, least;
    if largest > MAX_BLOCK_SIZE * 2 {
      m := (n + MAX_BLOCK_SIZE * 2 - 3) / (MAX_BLOCK_SIZE - 1);
      largest := MAX_BLOCK_SIZE;
      EnoughBlocks(n, m);
    }
  }

  lemma ShapeFits(n: nat, least: nat)
    requires n < Pow2(64) && Pow2(63) < Pow2(64)
    requires var x := (n + 1) % Pow2(64); if 0 < x <= Pow2(63) then LeastPower(x, least) else least == 0
    ensures if n + 1 <= Pow2(63) then LeastPower(n + 1, least) && least >= n + 1 && (least >= 2 <==> n > 0) else least == 0
  {
    hide Pow2, LeastPower;
    if n + 1 < Pow2(64) {
      SmallMod(n + 1, Pow2(64));
      if n + 1 <= Pow2(63) { LeastForOne(n + 1, least); }
    }
  }

  lemma SmallMod(x: nat, m: nat)
    requires x < m
    ensures x % m == x
  {
  }

  predicate Cleared(b: Block, size: nat) {
    |b.data| == size && b.front == b.tail == b.localFront == b.localTail == 0
  }

  /** Blocks 0 to m - 1, each leading to the next and the last to the first, all empty. */
  ghost predicate IsRing(blocks: map<Id, Block>, next: map<Id, Id>, m: nat, size: nat) {
    && (forall b: nat :: b in blocks <==> b < m)
    && (forall b: nat :: b in next <==> b < m)
    && (forall b :: b in blocks ==> Cleared(blocks[b], size))
    && (forall b :: b in next ==> next[b] == if b + 1 < m then b + 1 else 0)
  }

  ghost function NewAux(blocks: map<Id, Block>, m: nat): Aux {
    Aux(seq(m, j => j), 0, map b | b in blocks :: Count(0, 0, 0, 0, 0), [], [], false, 0)
  }

  lemma RingOfOne(blocks: map<Id, Block>, next: map<Id, Id>, size: nat)
    requires IsRing(blocks, next, 1, size)
    ensures blocks.Keys == {0} && |blocks[0].data| == size
  {
    assert 0 in blocks;
  }

  /** Makes the blocks, each leading to the next and the last to the first. */
  method MakeRing(m: nat, size: nat, junk: Item) returns (blocks: map<Id, Block>, next: map<Id, Id>)
    requires m > 0
    ensures IsRing(blocks, next, m, size)
  {
    blocks, next := map[], map[];
    var first: Id, last: Id, i: nat := 0, 0, 0;
    while i != m
      invariant i <= m && (i > 0 ==> last == i - 1)
      invariant forall b: nat :: b in blocks <==> b < i
      invariant forall b: nat :: b in next <==> b < i
      invariant forall b :: b in blocks ==> Cleared(blocks[b], size)
      invariant forall b :: b in next ==> next[b] == if b + 1 < i then b + 1 else 0
    {
      blocks := blocks[i := Block(0, 0, 0, 0, seq(size, _ => junk))];
      if i > 0 { next := next[last := i]; }
      last := i;
      next := next[i := first];
      i := i + 1;
    }
  }

  /** Blocks that each lead to the next and the last of them to the first are an empty queue. */
  lemma NewRing(s: State, a: Aux, m: nat, size: nat)
    requires m > 0 && size >= 2 && s.prod == Resting && s.cons == Idle && s.frontBlock == s.tailBlock == 0 && s.largest == size
    requires IsRing(s.blocks, s.next, m, size) && a == NewAux(s.blocks, m)
    ensures Start(s, a) && Sized(s, a, m, size)
  {
    RingMembers(a.ring, m);
    hide Cleared;
    assert RingOk(a.ring, s.next, 0, 0, 0) by { hide Sized; }
    forall b | b in s.blocks ensures IsNew(s.blocks[b]) && |s.blocks[b].data| >= size { NewBlock(s.blocks[b], size); }
  }

  lemma RingMembers(ring: seq<Id>, m: nat)
    requires ring == seq(m, j => j)
    ensures forall b: nat :: b < m <==> b in ring
  {
    forall b: nat | b < m ensures b in ring { assert ring[b] == b; }
  }

  lemma NewBlock(b: Block, size: nat)
    requires Cleared(b, size) && size >= 2
    ensures IsNew(b) && |b.data| == size
  {
  }

  lemma NewQueue(s: State, a: Aux, m: nat, size: nat)
    requires m > 0 && size >= 2 && s.prod == Resting && s.cons == Idle && s.frontBlock == s.tailBlock == 0 && s.largest == size
    requires IsRing(s.blocks, s.next, m, size) && a == NewAux(s.blocks, m)
    ensures Inv(s, a) && Sized(s, a, m, size) && SeenOk(s, a) && Packed(s, a) && a.log == a.out == []
  {
    hide Inv, Sized, SeenOk, Packed;
    NewRing(s, a, m, size);
    StartInv(s, a);
    StartSeen(s, a);
    EmptyPacked(s, a);
  }

  class Queue {
    var blocks: map<Id, Block>
    var next: map<Id, Id>
    var frontBlock: Id
    var tailBlock: Id
    var largestBlockSize: nat
    ghost var aux: Aux
    ghost var count: nat
    ghost var size: nat
    ghost var filling: bool   // nothing has been removed since the queue was empty

    ghost function Snapshot(p: Producer, c: Consumer): State
      reads this
    {
      State(blocks, next, frontBlock, tailBlock, largestBlockSize, p, c)
    }

    /** The queue as it is while its two sides are at `p` and `c`. */
    ghost predicate At(p: Producer, c: Consumer)
      reads this
    {
      && Inv(Snapshot(p, c), aux) && Sized(Snapshot(p, c), aux, count, size) && SeenOk(Snapshot(p, c), aux)
      && aux.out <= aux.log && (filling ==> Packed(Snapshot(p, c), aux))
    }

    ghost predicate Valid()
      reads this
    {
      At(Resting, Idle)
    }

    ghost function Items(): seq<Item>
      reads this
      requires aux.out <= aux.log
    {
      aux.log[|aux.out|..]
    }

    /** The number of slots. */
    ghost function Capacity(): nat
      reads this
    {
      Slots(aux.ring, blocks, |aux.ring|)
    }

    twostate predicate SameMade()
      reads this
    {
      count == old(count) && size == old(size) && filling == old(filling)
    }

    /** Nothing is enqueued or removed. */
    twostate predicate Still()
      reads this
    {
      aux.log == old(aux.log) && aux.out == old(aux.out) && SameMade()
    }

    /** A queue for at least `n` items: one block, or blocks of the largest size with one to spare. Only for
        some `n` is there a slot for an item at all. */
    constructor (n: nat, junk: Item)
      requires n < Pow2(64)
      ensures 0 < n && n + 1 <= Pow2(63) ==> Valid() && filling && Items() == [] && Guaranteed(count, size) >= n
      ensures n == 0 || n + 1 > Pow2(63) ==> blocks.Keys == {0} && |blocks[0].data| == if n == 0 then 1 else 0
    {
      hide Start, Inv, Sized, SeenOk, LeastPower, Pow2, Packed, Guaranteed, IsRing, NewAux;
      new;
      var m, largest := Shape(n);
      blocks, next := MakeRing(m, largest, junk);
      frontBlock, tailBlock, largestBlockSize := 0, 0, largest;
      count, size, filling := m, largest, true;
      aux := NewAux(blocks, m);
      if 0 < n && n + 1 <= Pow2(63) {
        NewQueue(Snapshot(Resting, Idle), aux, m, largest);
      } else {
        RingOfOne(blocks, next, largest);
      }
    }

    /** The number of items, block by block. */
    method SizeApprox() returns (result: nat)
      requires Valid()
      ensures result == |Items()|
    {
      hide BlocksOk, FullOk, DataOk, ProducerOk, ConsumerOk, ChainOk, Good, Sized, SeenOk;
      ghost var s := Snapshot(Resting, Idle);
      Ends(s, aux);
      RingInside(s, aux);
      result := 0;
      var block := frontBlock;
      ghost var i: nat := 0;
      while true
        invariant i < |aux.ring| && block == aux.ring[i] && result == Held(aux, i)
        decreases |aux.ring| - i
      {
        var b := blocks[block];
        BlockHolds(s, aux, i);
        result := result + (b.tail + |b.data| - b.front) % |b.data|;
        assert next[aux.ring[i]] == Following(aux.ring, i);
        block := next[block];
        i := i + 1;
        if block == frontBlock { break; }
      }
      AllHeld(s, aux);
    }

    /** The slots of all blocks that can hold an item. The queue never holds more, and they are no fewer
        than was guaranteed. */
    method MaxCapacity() returns (result: nat)
      requires Valid()
      ensures result == Capacity()
      ensures |Items()| <= result
      ensures Guaranteed(count, size) <= result
    {
      hide BlocksOk, FullOk, DataOk, ProducerOk, ConsumerOk, ChainOk, Good, Sized, SeenOk, Guaranteed;
      ghost var s := Snapshot(Resting, Idle);
      Ends(s, aux);
      RingInside(s, aux);
      result := 0;
      var block := frontBlock;
      ghost var i: nat := 0;
      while true
        invariant i < |aux.ring| && block == aux.ring[i] && result == Slots(aux.ring, blocks, i)
        decreases |aux.ring| - i
      {
        assert block in blocks && blocks[block].data != [] by { BlockHolds(s, aux, i); }
        result := result + (|blocks[block].data| - 1);
        assert next[aux.ring[i]] == Following(aux.ring, i);
        block := next[block];
        i := i + 1;
        if block == frontBlock { break; }
      }
      EnoughSlots(s, aux, count, size);
    }

    /** Looks for room in the tail block, first with the producer's copy of the front index. */
    method HasRoom(x: Item, alloc: bool) returns (room: bool)
      requires Valid()
      modifies this
      ensures At(if room then Writing(x) else Stuck(x, alloc), Idle) && Still() && Capacity() == old(Capacity())
      ensures !room ==> aux.seen == |aux.log| - |aux.out| && blocks.Keys == old(blocks.Keys)
    {
      hide Inv, Sized, SeenOk, Packed, Slots, Next, Sound, AuxApply;
      ghost var s := Snapshot(Resting, Idle);
      s, aux := Go(s, aux, Enqueue(x, alloc), count, size, filling);
      var b := blocks[tailBlock];
      var nextBlockTail := Next(b.tail, b);
      if nextBlockTail != b.localFront {
        return true;
      }
      s, aux := Go(s, aux, Produce(None), count, size, filling);
      blocks := blocks[tailBlock := b.(localFront := b.front)];
      room := nextBlockTail != b.front;
    }

    method Store(x: Item)
      requires At(Writing(x), Idle)
      modifies this
      ensures Valid() && aux.log == old(aux.log) + [x] && aux.out == old(aux.out) && SameMade()
      ensures Capacity() == old(Capacity())
    {
      hide Inv, Sized, SeenOk, Packed, Slots, Next, Sound, AuxApply;
      ghost var s := Snapshot(Writing(x), Idle);
      s, aux := Go(s, aux, Produce(None), count, size, filling);
      var b := blocks[tailBlock];
      blocks := blocks[tailBlock := b.(data := b.data[b.tail := x])];
      Raise(x);
    }

    method Raise(x: Item)
      requires At(Raising(x), Idle)
      modifies this
      ensures Valid() && aux.log == old(aux.log) + [x] && aux.out == old(aux.out) && SameMade()
      ensures Capacity() == old(Capacity())
    {
      hide Inv, Sized, SeenOk, Packed, Slots, Next, Sound, AuxApply;
      ghost var s := Snapshot(Raising(x), Idle);
      s, aux := Go(s, aux, Produce(None), count, size, filling);
      var b := blocks[tailBlock];
      blocks := blocks[tailBlock := b.(tail := Next(b.tail, b))];
      s, aux := Go(s, aux, Produce(None), count, size, filling);
    }

    /** Goes on to the free block after the tail block. */
    method Advance(x: Item, nb: Id)
      requires At(Entering(x, nb), Idle)
      modifies this
      ensures Valid() && aux.log == old(aux.log) + [x] && aux.out == old(aux.out) && SameMade()
      ensures Capacity() == old(Capacity())
    {
      hide Inv, Sized, SeenOk, Packed, Slots, Next, Sound, AuxApply;
      ghost var s := Snapshot(Entering(x, nb), Idle);
      s, aux := Go(s, aux, Produce(None), count, size, filling);
      blocks := blocks[nb := blocks[nb].(localFront := blocks[nb].front)];
      FillNext(x, nb);
      Move(x, nb);
    }

    method FillNext(x: Item, nb: Id)
      requires At(Filling(x, nb), Idle)
      modifies this
      ensures At(Moving(x, nb), Idle) && Still() && Capacity() == old(Capacity())
    {
      hide Inv, Sized, SeenOk, Packed, Slots, Next, Sound, AuxApply;
      ghost var s := Snapshot(Filling(x, nb), Idle);
      s, aux := Go(s, aux, Produce(None), count, size, filling);
      blocks := blocks[nb := blocks[nb].(data := blocks[nb].data[blocks[nb].tail := x])];
      s, aux := Go(s, aux, Produce(None), count, size, filling);
      blocks := blocks[nb := blocks[nb].(tail := Next(blocks[nb].tail, blocks[nb]))];
    }

    method Move(x: Item, nb: Id)
      requires At(Moving(x, nb), Idle)
      modifies this
      ensures Valid() && aux.log == old(aux.log) + [x] && aux.out == old(aux.out) && SameMade()
      ensures Capacity() == old(Capacity())
    {
      hide Inv, Sized, SeenOk, Packed, Slots, Sound, AuxApply;
      ghost var s := Snapshot(Moving(x, nb), Idle);
      s, aux := Go(s, aux, Produce(None), count, size, filling);
      tailBlock := nb;
      s, aux := Go(s, aux, Produce(None), count, size, filling);
    }

    /** Puts a new block after the tail block. */
    method Expand(x: Item, id: Id, junk: Item)
      requires At(Making(x), Idle) && id !in blocks
      modifies this
      ensures Valid() && aux.log == old(aux.log) + [x] && aux.out == old(aux.out) && SameMade()
    {
      hide Inv, Sized, SeenOk, Packed, Slots, Sound, AuxApply;
      ghost var s := Snapshot(Making(x), Idle);
      s, aux := Go(s, aux, Produce(Some((id, junk))), count, size, filling);
      var newBlockSize := NewSize(largestBlockSize);
      blocks := blocks[id := Block(0, 1, 1, 0, seq(newBlockSize, i => if i == 0 then x else junk))];
      largestBlockSize := newBlockSize;
      next := next[id := next[tailBlock]];
      Link(x, id);
      Move(x, id);
    }

    method Link(x: Item, nb: Id)
      requires At(Linking(x, nb), Idle)
      modifies this
      ensures At(Moving(x, nb), Idle) && Still()
    {
      hide Inv, Sized, SeenOk, Packed, Slots, Sound, AuxApply;
      ghost var s := Snapshot(Linking(x, nb), Idle);
      s, aux := Go(s, aux, Produce(None), count, size, filling);
      next := next[tailBlock := nb];
    }

    /** With the tail block full, goes on to the next block, or makes one, or fails. */
    method GoOn(x: Item, alloc: bool, memory: Option<(Id, Item)>) returns (ok: bool)
      requires At(Stuck(x, alloc), Idle) && (memory.Some? ==> memory.value.0 !in blocks) && aux.seen == |aux.log| - |aux.out|
      modifies this
      ensures Valid() && SameMade()
      ensures aux.log == old(aux.log) + (if ok then [x] else []) && aux.out == old(aux.out)
      ensures alloc && memory.Some? ==> ok
      ensures !ok ==> |aux.log| - |aux.out| >= Guaranteed(count, size)
      ensures !alloc || memory.None? ==> Capacity() == old(Capacity())
      ensures !ok && filling ==> |aux.log| - |aux.out| == old(Capacity())
      ensures Capacity() != old(Capacity()) ==> old(|aux.log| - |aux.out|) >= Guaranteed(count, size)
      ensures Capacity() != old(Capacity()) && filling ==> old(|aux.log| - |aux.out|) == old(Capacity())
    {
      hide Inv, Sized, SeenOk, Packed, Slots, Next, Sound, AuxApply;
      ghost var s := Snapshot(Stuck(x, alloc), Idle);
      assert tailBlock in next by { InvSound(s, aux); BothLinked(s); }
      var nb := next[tailBlock];
      var free := nb != frontBlock;
      if !free {
        Refused(s, aux, count, size);
        if filling { PackedFull(s, aux); }
      }
      s, aux := Go(s, aux, Produce(None), count, size, filling);
      if free {
        Advance(x, nb);
        return true;
      }
      if alloc && memory.Some? {
        Expand(x, memory.value.0, memory.value.1);
        return true;
      }
      GiveUp(x, alloc);
      return false;
    }

    ghost method GiveUp(x: Item, alloc: bool)
      requires At(if alloc then Making(x) else Returned(false), Idle)
      modifies this`aux
      ensures Valid() && Still() && Capacity() == old(Capacity())
    {
      hide Inv, Sized, SeenOk, Packed, Slots, Sound, AuxApply;
      var s := Snapshot(if alloc then Making(x) else Returned(false), Idle);
      if alloc { s, aux := Go(s, aux, Produce(None), count, size, filling); }
      s, aux := Go(s, aux, Produce(None), count, size, filling);
    }

    /** Enqueues `x`. Without room and without leave to allocate, or memory, it fails, and then the queue
        holds at least the guaranteed number of items; nor does it make a block before. While nothing has been
        removed since the queue was empty, it fails, or makes a block, exactly when every slot has an item. */
    method InnerEnqueue(x: Item, alloc: bool, memory: Option<(Id, Item)>) returns (ok: bool)
      requires Valid() && (memory.Some? ==> memory.value.0 !in blocks)
      modifies this
      ensures Valid() && SameMade()
      ensures Items() == if ok then old(Items()) + [x] else old(Items())
      ensures alloc && memory.Some? ==> ok
      ensures !ok ==> |Items()| >= Guaranteed(count, size)
      ensures Capacity() != old(Capacity()) ==> |old(Items())| >= Guaranteed(count, size) && (filling ==> |old(Items())| == old(Capacity()))
      ensures !alloc || memory.None? ==> Capacity() == old(Capacity()) && (filling ==> (ok <==> |old(Items())| < Capacity()))
    {
      hide Inv, Sized, SeenOk, Packed, Slots, Sound;
      var room := HasRoom(x, alloc);
      if room {
        Store(x);
        EnoughSlots(Snapshot(Resting, Idle), aux, count, size);
        return true;
      }
      ok := GoOn(x, alloc, memory);
      EnoughSlots(Snapshot(Resting, Idle), aux, count, size);
    }

    // ---- The consumer ----

    /** Looks for an item in the front block, first with the consumer's copy of the tail index. */
    method Probe(op: Op) returns (found: bool)
      requires Valid()
      modifies this
      ensures At(Resting, if found then Taking(op) else Comparing(op)) && Still()
      ensures !found ==> aux.wasEmpty == (|aux.log| == |aux.out|)
    {
      hide Inv, Sized, SeenOk, Packed, Slots, Sound, AuxApply;
      ghost var s := Snapshot(Resting, Idle);
      s, aux := Go(s, aux, Call(op), count, size, filling);
      var b := blocks[frontBlock];
      if b.front != b.localTail { return true; }
      s, aux := Go(s, aux, Consume, count, size, filling);
      blocks := blocks[frontBlock := b.(localTail := b.tail)];
      found := b.front != b.tail;
    }

    /** Looks whether there is another block, and then for an item in the front block again. */
    method Recheck(op: Op) returns (last: bool, found: bool)
      requires At(Resting, Comparing(op))
      modifies this
      ensures At(Resting, if last then Answered(op, None) else if found then Taking(op) else Leaving(op)) && Still()
      ensures last ==> aux.wasEmpty && old(aux.wasEmpty)
    {
      hide Inv, Sized, SeenOk, Packed, Slots, Sound, AuxApply;
      ghost var s := Snapshot(Resting, Comparing(op));
      s, aux := Go(s, aux, Consume, count, size, filling);
      last, found := frontBlock == tailBlock, false;
      if !last {
        s, aux := Go(s, aux, Consume, count, size, filling);
        var b := blocks[frontBlock];
        blocks := blocks[frontBlock := b.(localTail := b.tail)];
        found := b.front != b.tail;
      } else {
        AnswerFacts(s, aux);
      }
    }

    /** Goes on to the next block. */
    method Cross(op: Op)
      requires At(Resting, Leaving(op)) && !op.Peek? && !filling
      modifies this
      ensures At(Resting, Taking(op)) && Still()
    {
      hide Inv, Sized, SeenOk, Packed, Slots, Sound, AuxApply;
      ghost var s := Snapshot(Resting, Leaving(op));
      s, aux := Go(s, aux, Consume, count, size, filling);
      var nb := next[frontBlock];
      s, aux := Go(s, aux, Consume, count, size, filling);
      blocks := blocks[nb := blocks[nb].(localTail := blocks[nb].tail)];
      Arrive(op, nb);
    }

    method Arrive(op: Op, nb: Id)
      requires At(Resting, Crossing(op, nb)) && !filling
      modifies this
      ensures At(Resting, Taking(op)) && Still()
    {
      hide Inv, Sized, SeenOk, Packed, Slots, Sound, AuxApply;
      ghost var s := Snapshot(Resting, Crossing(op, nb));
      s, aux := Go(s, aux, Consume, count, size, filling);
      frontBlock := nb;
    }

    method Take(op: Op) returns (x: Item)
      requires At(Resting, Taking(op)) && !op.Peek? && !filling
      modifies this
      ensures Valid() && SameMade()
      ensures |old(aux.out)| < |aux.log| && aux.log == old(aux.log) && aux.out == old(aux.out) + [x] && x == aux.log[|old(aux.out)|]
    {
      hide Inv, Sized, SeenOk, Packed, Slots, Sound, AuxApply, Next;
      ghost var s := Snapshot(Resting, Taking(op));
      s, aux := Go(s, aux, Consume, count, size, filling);
      var b := blocks[frontBlock];
      x := b.data[b.front];
      s, aux := Go(s, aux, Consume, count, size, filling);
      blocks := blocks[frontBlock := b.(front := Next(b.front, b))];
      s, aux := Go(s, aux, Return, count, size, filling);
    }

    /** Removes the first item, if there is one; `pop` does the same and drops the item. */
    method TryDequeue(op: Op) returns (r: Option<Item>)
      requires Valid() && !op.Peek?
      modifies this
      ensures Valid() && count == old(count) && size == old(size)
      ensures filling <==> Items() == []
      ensures r == if old(Items()) == [] then None else Some(old(Items())[0])
      ensures Items() == if old(Items()) == [] then [] else old(Items())[1..]
    {
      hide Inv, Sized, SeenOk, Packed, Slots, Sound, AuxApply, Apply;
      filling := false;
      var found := Probe(op);
      if !found {
        var last;
        last, found := Recheck(op);
        if last {
          Answer(op, None);
          Refill();
          return None;
        }
        if !found { Cross(op); }
      }
      var x := Take(op);
      r := Some(x);
      Refill();
    }

    /** Notes whether the queue is empty. */
    ghost method Refill()
      requires Valid()
      modifies this`filling
      ensures Valid() && (filling <==> Items() == [])
    {
      hide Inv, Sized, SeenOk, Packed, Slots, Packed;
      filling := Items() == [];
      if filling { EmptyPacked(Snapshot(Resting, Idle), aux); }
    }

    ghost method Answer(op: Op, r: Option<Item>)
      requires At(Resting, Answered(op, r))
      modifies this`aux
      ensures Valid() && Still()
    {
      hide Inv, Sized, SeenOk, Packed, Slots, Sound, AuxApply;
      var s := Snapshot(Resting, Answered(op, r));
      s, aux := Go(s, aux, Return, count, size, filling);
    }

    /** The first item, if there is one, which stays where it is. */
    method TryPeek() returns (r: Option<Item>)
      requires Valid()
      modifies this
      ensures Valid() && Still()
      ensures r == if Items() == [] then None else Some(Items()[0])
    {
      hide Inv, Sized, SeenOk, Packed, Slots, Sound, AuxApply;
      var found := Probe(Peek);
      if !found {
        var last;
        last, found := Recheck(Peek);
        if last {
          Answer(Peek, None);
          return None;
        }
      }
      r := Look(found);
    }

    /** Returns the first item, of the front block or else of the next. */
    method Look(found: bool) returns (r: Option<Item>)
      requires At(Resting, if found then Taking(Peek) else Leaving(Peek))
      modifies this
      ensures Valid() && Still()
      ensures Items() != [] && r == Some(Items()[0])
    {
      hide Inv, Sized, SeenOk, Packed, Slots, Sound, AuxApply;
      ghost var s := Snapshot(Resting, if found then Taking(Peek) else Leaving(Peek));
      s, aux := Go(s, aux, Consume, count, size, filling);
      var b := frontBlock;
      if !found {
        b := next[frontBlock];
        s, aux := Go(s, aux, Consume, count, size, filling);
      }
      r := Some(blocks[b].data[blocks[b].front]);
      AnswerFacts(s, aux);
      Answer(Peek, r);
    }
  }

  lemma PowersForWords()
    ensures 8 == Pow2(3) && Pow2(63) < Pow2(64)
  {
  }

  /** The least power of two that is at least 1 is 1. */
  lemma LeastForOne(x: nat, r: nat)
    requires LeastPower(x, r) && x > 0
    ensures r >= x && (r >= 2 <==> x > 1)
  {
    assert Pow2(0) == 1;
  }

  /** A block of one cell, as a queue for no items has, is empty by its indices when an item is in it. */
  lemma OneCellStaysEmpty(b: Block)
    requires |b.data| == 1 && b.front == b.tail == 0
    ensures Next(b.tail, b) == b.front
  {
  }

  /** Blocks of the largest size, one of them to spare. */
  lemma EnoughBlocks(n: nat, m: nat)
    requires n > 0 && m == (n + MAX_BLOCK_SIZE * 2 - 3) / (MAX_BLOCK_SIZE - 1)
    ensures m >= 2 && (m - 1) * (MAX_BLOCK_SIZE - 1) >= n
  {
  }

  /** What the blocks before number `i` of the ring hold. */
  ghost function Held(a: Aux, i: nat): int {
    if i == 0 || i > |a.ring| then 0
    else if i - 1 <= a.k < |a.ring| && a.ring[i - 1] in a.cnt then EndOf(a.ring, a.cnt, i - 1) - |a.out|
    else |a.log| - |a.out|
  }

  lemma BlockHolds(s: State, a: Aux, i: nat)
    requires Inv(s, a) && s.prod == Resting && i < |a.ring|
    ensures a.ring[i] in s.blocks && SoundBlock(s.blocks[a.ring[i]])
    ensures var b := s.blocks[a.ring[i]];
      Held(a, i + 1) == Held(a, i) + (b.tail + |b.data| - b.front) % |b.data|
  {
    hide FullOk, DataOk, ProducerOk, ConsumerOk, RingOk, Good, BlocksOk;
    RingInside(s, a);
    CountKeys(s, a);
    BlockGood(s, a, a.ring[i]);
    Occupied(s.blocks[a.ring[i]], a.cnt[a.ring[i]]);
    if 0 < i <= a.k { assert Follows(a.ring, a.cnt, i); }
  }

  lemma BlockGood(s: State, a: Aux, b: Id)
    requires Inv(s, a) && b in s.blocks
    ensures b in a.cnt && Good(s.blocks[b], a.cnt[b])
  {
    hide FullOk, DataOk, ProducerOk, ConsumerOk, RingOk, Good;
  }

  /** The masked difference of the indices is the number of items. */
  lemma Occupied(b: Block, c: Count)
    requires Good(b, c)
    ensures SoundBlock(b) && (b.tail + |b.data| - b.front) % |b.data| == c.t - c.f
  {
    MaskedDifference(c.t, c.f, |b.data|);
  }

  lemma MaskedDifference(t: nat, f: nat, n: nat)
    requires n > 0 && f <= t < f + n
    ensures (t % n + n - f % n) % n == t - f
  {
    var p, q := t / n, f / n;
    assert t == p * n + t % n && f == q * n + f % n;
    assert t % n + n - f % n == (t - f) + (q - p + 1) * n by { assert (q - p + 1) * n == q * n - p * n + n; }
    DivideUnique(t % n + n - f % n, n, q - p + 1, t - f);
  }

  lemma {:induction false} SlotsBound(s: State, a: Aux, i: nat, size: nat)
    requires Inv(s, a) && s.prod == Resting && i <= |a.ring| && size >= 2
    requires forall b :: b in s.blocks ==> |s.blocks[b].data| >= size
    ensures Slots(a.ring, s.blocks, i) >= Held(a, i) && Slots(a.ring, s.blocks, i) >= i * (size - 1)
  {
    hide Inv, Held;
    if i > 0 {
      SlotsBound(s, a, i - 1, size);
      BlockHolds(s, a, i - 1);
      HeldBound(s, a, i - 1);
      assert i * (size - 1) == (i - 1) * (size - 1) + (size - 1);
    } else {
      assert Held(a, 0) == 0 by { HeldNone(a); }
    }
  }

  lemma EnoughSlots(s: State, a: Aux, count: nat, size: nat)
    requires Inv(s, a) && s.prod == Resting && Sized(s, a, count, size)
    ensures var slots := Slots(a.ring, s.blocks, |a.ring|); slots >= |a.log| - |a.out| && slots >= Guaranteed(count, size)
  {
    hide Inv, Held, Slots;
    SlotsBound(s, a, |a.ring|, size);
    AllHeld(s, a);
    if count > 1 { MoreBlocks(count - 1, |a.ring|, size - 1); } else { OneBlock(s, a); MoreBlocks(1, |a.ring|, size - 1); }
  }

  lemma OneBlock(s: State, a: Aux)
    requires Inv(s, a)
    ensures |a.ring| >= 1
  {
    hide BlocksOk, FullOk, DataOk, ProducerOk, ConsumerOk, ChainOk;
  }

  lemma HeldNone(a: Aux)
    ensures Held(a, 0) == 0
  {
  }

  /** A block holds at most one item less than it has slots. */
  lemma HeldBound(s: State, a: Aux, i: nat)
    requires Inv(s, a) && s.prod == Resting && i < |a.ring|
    ensures a.ring[i] in s.blocks && |s.blocks[a.ring[i]].data| > 0
    ensures Held(a, i + 1) - Held(a, i) < |s.blocks[a.ring[i]].data|
  {
    hide Inv, Held;
    BlockHolds(s, a, i);
    var b := s.blocks[a.ring[i]];
    assert (b.tail + |b.data| - b.front) % |b.data| < |b.data|;
  }

  lemma AllHeld(s: State, a: Aux)
    requires Inv(s, a) && s.prod == Resting
    ensures Held(a, |a.ring|) == |a.log| - |a.out|
  {
    hide FullOk, DataOk, ProducerOk, ConsumerOk, RingOk, Good, BlocksOk;
    CountKeys(s, a);
    RingInside(s, a);
  }

  lemma BothLinked(s: State)
    requires Sound(s)
    ensures s.tailBlock in s.next && s.frontBlock in s.next
  {
  }

  /** What an answer means. */
  lemma AnswerFacts(s: State, a: Aux)
    requires Inv(s, a) && s.cons.Answered?
    ensures s.cons.r == None ==> a.wasEmpty
    ensures s.cons.r.Some? && s.cons.op.Peek? ==> |a.out| < |a.log| && s.cons.r.value == a.log[|a.out|]
  {
    hide BlocksOk, ChainOk, RingOk, FullOk, DataOk, ProducerOk;
  }
}
