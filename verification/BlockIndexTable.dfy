/** The block index in its own form, updated in place, and the bulk insertion that is all or nothing. */
module BlockIndexTable {
  import opened Wrappers
  import opened CircularArithmetic
  import opened Blocks
  import opened BlockDemand
  import opened BlockIndex
  import opened BlockIndexRuns

  /** What the environment gives one round of a bulk insertion: whether the sub-queue is full, whether
      there is memory for a larger index and what is in it, and a block, if there is one. */
  datatype Supply = Supply(full: bool, memory: bool, junk: nat -> Option<Block>, block: Option<Block>)

  predicate CanGrow(x: Supply, capacity: nat) {
    x.memory && Fits(2 * capacity)
  }

  /** The memory for an index of twice the capacity, if there is any and the index type can address it. */
  function Memory(x: Supply, capacity: nat): Option<seq<Option<Block>>> {
    if CanGrow(x, capacity) then Some(seq(capacity, x.junk)) else None
  }

  function Capacity(t: Table): nat
    requires t.headers != []
  {
    |Current(t).index|
  }

  /** Memory for a larger index is as large as asked for, and the index type can address it. */
  predicate Suits(t: Table, memory: Option<seq<Option<Block>>>)
    requires t.headers != []
  {
    memory.Some? ==> |memory.value| == |Current(t).index| && Fits(2 * |Current(t).index|)
  }

  lemma SoundKey(t: Table, e: nat, key: int)
    requires Sound(t) && e < |t.keys|
    ensures Sound(StoreKey(t, e, key))
  {
  }

  /** The next slot holds `base` and is the tail. */
  function TakeSlot(t: Table, base: int): Table
    requires Sound(t)
  {
    SoundKey(t, NextEntry(t), base);
    MoveTail(StoreKey(t, NextEntry(t), base), 1)
  }

  predicate Free(t: Table)
    requires Sound(t)
  {
    t.keys[NextEntry(t)] == INVALID_BLOCK_BASE || t.values[NextEntry(t)] == None
  }

  /** The table that an insertion leaves, and the entry to fill if it succeeded. */
  function Inserted(t: Table, base: int, memory: Option<seq<Option<Block>>>): (Option<nat>, Table)
    requires Sound(t) && Suits(t, memory)
  {
    if Free(t) then (Some(NextEntry(t)), TakeSlot(t, base))
    else if memory == None then (None, t)
    else
      GrowSound(t, memory.value);
      var g := Grow(t, memory.value);
      (Some(NextEntry(g)), TakeSlot(g, base))
  }

  class CircularBlockIndex {
    var headers: seq<Header>
    var keys: seq<int>
    var values: seq<Option<Block>>

    function Snapshot(): Table
      reads this
    {
      Table(headers, keys, values)
    }

    method GetEntryForIndex(base: int) returns (e: nat)
      requires Sound(Snapshot())
      ensures e == Lookup(Snapshot(), base)
    {
      var localBlockIndex := Last(headers);
      assert SoundHeader(localBlockIndex, |keys|);
      var tail := localBlockIndex.tail;
      var tailBase := keys[localBlockIndex.index[tail]];
      e := localBlockIndex.index[SlotFor(base, tail, tailBase, |localBlockIndex.index|)];
    }

    method RewindTail()
      requires Sound(Snapshot())
      modifies this`headers
      ensures Snapshot() == MoveTail(old(Snapshot()), -1)
    {
      var h := Last(headers);
      assert SoundHeader(h, |keys|);
      headers := Front(headers) + [h.(tail := (h.tail + |h.index| - 1) % |h.index|)];
    }

    /** Copies the old slots, oldest first, and adds as many new ones. */
    method NewBlockIndex(memory: seq<Option<Block>>)
      requires Sound(Snapshot()) && |memory| == |Current(Snapshot()).index|
      modifies this
      ensures Snapshot() == Grow(old(Snapshot()), memory)
    {
      var prev := Last(headers);
      assert SoundHeader(prev, |keys|);
      var capacity := |prev.index|;
      var index: seq<nat> := [];
      var prevPos := prev.tail;
      while |index| < capacity
        invariant |index| <= capacity && prevPos == (prev.tail + |index|) % capacity
        invariant forall i :: 0 <= i < |index| ==> index[i] == prev.index[(prev.tail + 1 + i) % capacity]
      {
        assert (prevPos + 1) % capacity == (prev.tail + 1 + |index|) % capacity by { NextPlace(prev.tail + |index|, capacity); }
        prevPos := (prevPos + 1) % capacity;
        index := index + [prev.index[prevPos]];
      }
      var first := |keys|;
      var i := 0;
      while i < capacity
        invariant 0 <= i <= capacity && |index| == capacity + i && |keys| == first + i
        invariant headers == old(headers) && values == old(values)
        invariant keys == old(keys) + seq(i, _ => INVALID_BLOCK_BASE)
        invariant forall j :: 0 <= j < capacity ==> index[j] == prev.index[(prev.tail + 1 + j) % capacity]
        invariant forall j :: capacity <= j < capacity + i ==> index[j] == first + (j - capacity)
      {
        keys := keys + [INVALID_BLOCK_BASE];
        index := index + [first + i];
        i := i + 1;
      }
      assert index == Doubled(prev, first).index;
      headers := headers + [Header(index, capacity - 1)];
      values := values + memory;
    }

    method TakeNext(base: int) returns (e: nat)
      requires Sound(Snapshot())
      modifies this
      ensures e == NextEntry(old(Snapshot())) && Snapshot() == TakeSlot(old(Snapshot()), base)
    {
      var h := Last(headers);
      assert SoundHeader(h, |keys|);
      var newTail := (h.tail + 1) % |h.index|;
      e := h.index[newTail];
      keys := keys[e := base];
      headers := Front(headers) + [h.(tail := newTail)];
      ModAdd(h.tail + 1, 1, |h.index|);
    }

    /** Takes the slot after the tail for the block that starts at `base`, in a larger table if it must. */
    method InsertEntry(base: int, memory: Option<seq<Option<Block>>>) returns (entry: Option<nat>)
      requires Sound(Snapshot()) && Suits(Snapshot(), memory)
      modifies this
      ensures (entry, Snapshot()) == Inserted(old(Snapshot()), base, memory)
      ensures entry == None <==> memory == None && !Free(old(Snapshot()))
      ensures entry == None ==> Snapshot() == old(Snapshot())
    {
      hide MoveTail, StoreKey, TakeSlot;
      var h := Last(headers);
      assert SoundHeader(h, |keys|);
      var e := h.index[(h.tail + 1) % |h.index|];
      if keys[e] == INVALID_BLOCK_BASE || values[e] == None {
        e := TakeNext(base);
        return Some(e);
      }
      if memory == None { return None; }
      GrowSound(Snapshot(), memory.value);
      NewBlockIndex(memory.value);
      e := TakeNext(base);
      return Some(e);
    }

    /** One round of a bulk insertion: the next block is in the index, or nothing has changed but that
        the index may have grown. */
    method AddBlock(base: int, supply: Supply, ghost s: State, ghost v: View)
      returns (block: Option<Block>, ghost s': State, ghost v': View)
      requires Inv(s, v) && s.p == Ready && s.t == Snapshot() && base == Key(s.published + |s.chain|)
      requires Sound(s.t)
      modifies this
      ensures Inv(s', v') && s'.t == Snapshot() && SamePublished(s.published, v, v')
      ensures block.Some? ==> s' == s.(t := Snapshot(), chain := s.chain + [block.value]) && block == supply.block && !supply.full
      ensures block == None ==> s' == s.(t := Snapshot(), p := Undoing(0)) && v'.live == v.live
      ensures block == None ==> Refused(supply, s'.t, v', s.published, |s.chain|)
    {
      hide Inv, Key, Inserted, Lookup, TailsOk, NextEntry, Fits;
      if supply.full {
        s', v' := After(s, v, Abort);
        LowPublished(s', v');
        return None, s', v';
      }
      var memory := Memory(supply, Capacity(Snapshot()));
      var entry := InsertEntry(base, memory);
      s', v' := InsertedKeeps(s, v, memory);
      if entry == None {
        FoundFull(s, v);
        LowPublished(s', v');
        return None, s', v';
      }
      s', v' := Fill(entry.value, supply.block, s', v');
      LowPublished(s', v');
      block := supply.block;
    }

    /** Gives the new entry its block; without one, the tail goes back and the entry is cleared. */
    method Fill(e: nat, block: Option<Block>, ghost s: State, ghost v: View) returns (ghost s': State, ghost v': View)
      requires Inv(s, v) && s.p == Requisitioning(e) && s.t == Snapshot()
      modifies this
      ensures Inv(s', v') && s'.t == Snapshot() && SamePublished(s.published, v, v')
      ensures block.Some? ==> s' == s.(t := Snapshot(), p := Ready, chain := s.chain + [block.value])
      ensures block == None ==> s' == s.(t := Snapshot(), p := Undoing(0)) && v'.live == v.live
      ensures s.t.headers != [] && s'.t.headers != [] && Capacity(s'.t) == Capacity(s.t)
    {
      hide Inv, Key, Lookup, TailsOk, NextEntry, Fits;
      StateFacts(s, v);
      if block == None {
        RewindTail();
        s', v' := After(s, v, Produce(false, 0, []));
        StateFacts(s', v');
        values := values[e := None];
        s', v' := After(s', v', Produce(false, 0, []));
      } else {
        values := values[e := block];
        NewAtTail(s, v);
        s', v' := After(s, v, Produce(true, block.value, []));
      }
    }

    /** Takes the call's blocks out of the index again, first to last, as the tail moves back. */
    method TakeBack(startTailIndex: int, chain: seq<Block>, ghost tail: nat, ghost s: State, ghost v: View)
      returns (ghost s': State, ghost v': View)
      requires Inv(s, v) && s.p == Undoing(0) && s.t == Snapshot() && chain == s.chain
      requires startTailIndex == Wrap(tail, HALF) && s.published == Cover(tail)
      modifies this
      ensures Inv(s', v') && s' == s.(t := Snapshot(), p := Ready, chain := []) && SamePublished(s.published, v, v')
      ensures s.t.headers != [] && s'.t.headers != [] && Capacity(s'.t) == Capacity(s.t) && v'.lo == v.lo && v'.hi == v.hi
    {
      hide Inv, Key, Lookup, Wrap, StartBase;
      StateFacts(s, v);
      s', v' := s, v;
      var currentTailIndex := StartBase(startTailIndex);
      FirstKey(tail, startTailIndex, currentTailIndex);
      for i := 0 to |chain|
        invariant Inv(s', v') && s' == s.(t := Snapshot(), p := Undoing(i)) && SamePublished(s.published, v, v')
        invariant s'.t.headers != [] && Capacity(s'.t) == Capacity(s.t) && v'.lo == v.lo && v'.hi == v.hi
        invariant Wrap(currentTailIndex + BLOCK_SIZE, HALF) == Key(Cover(tail) + i)
      {
        currentTailIndex := Wrap(currentTailIndex + BLOCK_SIZE, HALF);
        s', v' := TakeOne(currentTailIndex, i, s', v');
        NextKey(currentTailIndex, Cover(tail) + i);
      }
      StateFacts(s', v');
      s', v' := After(s', v', Produce(true, 0, []));
    }

    /** Clears the entry of the call's block `i`, which has this base, and moves the tail back. */
    method TakeOne(base: int, ghost i: nat, ghost s: State, ghost v: View) returns (ghost s': State, ghost v': View)
      requires Inv(s, v) && s.p == Undoing(i) && i < |s.chain| && s.t == Snapshot() && base == Key(s.published + i)
      modifies this
      ensures Inv(s', v') && s' == s.(t := Snapshot(), p := Undoing(i + 1)) && SamePublished(s.published, v, v')
      ensures s.t.headers != [] && s'.t.headers != [] && Capacity(s'.t) == Capacity(s.t) && v'.lo == v.lo && v'.hi == v.hi
    {
      hide Inv, Key, Lookup;
      StateFacts(s, v);
      var e := GetEntryForIndex(base);
      values := values[e := None];
      s', v' := After(s, v, Produce(true, 0, []));
      StateFacts(s', v');
      RewindTail();
      s', v' := After(s', v', Produce(true, 0, []));
    }

    /**
     Puts the blocks for `count` items from the stored tail on in the index, a supply for each; or, when a
     supply fails, takes back what it has put in and frees those blocks. How many blocks there are is
     only known from the masked difference, which is counted down.
     */
    method AllocateBlocks(startTailIndex: int, count: nat, supply: nat -> Supply, ghost tail: nat, ghost s: State, ghost v: View)
      returns (ok: bool, chain: seq<Block>, freed: seq<Block>, ghost s': State, ghost v': View)
      requires Inv(s, v) && s.p == Ready && s.chain == [] && s.t == Snapshot()
      requires startTailIndex == Wrap(tail, HALF) && s.published == Cover(tail) && count + BLOCK_SIZE <= 2 * HALF
      modifies this
      ensures Inv(s', v') && s' == s.(t := Snapshot(), chain := chain) && SamePublished(s.published, v, v')
      ensures ok ==> |chain| == NewBlocks(tail, count) && freed == []
      ensures !ok ==> chain == [] && |freed| < NewBlocks(tail, count)
      ensures forall i: nat :: i < |chain + freed| ==> supply(i).block == Some((chain + freed)[i])
      ensures !ok ==> Refused(supply(|freed|), s'.t, v', s.published, |freed|)
    {
      hide Inv, Key, Wrap, StartBase, BlockBaseDiff, NewBlocks, SizeOf, Refused;
      chain, freed, ok := [], [], true;
      s', v' := s, v;
      var blockBaseDiff, currentTailIndex := BlockBaseDiff(startTailIndex, count), StartBase(startTailIndex);
      FirstKey(tail, startTailIndex, currentTailIndex);
      StartDown(tail, count, blockBaseDiff);
      while ok && blockBaseDiff > 0
        invariant Inv(s', v') && SamePublished(s.published, v, v')
        invariant s' == s.(t := Snapshot(), chain := chain, p := if ok then Ready else Undoing(0))
        invariant forall i: nat :: i < |chain| ==> supply(i).block == Some(chain[i])
        invariant ok ==> SizeOf(blockBaseDiff, NewBlocks(tail, count) - |chain|) && |chain| <= NewBlocks(tail, count)
        invariant ok ==> Wrap(currentTailIndex + BLOCK_SIZE, HALF) == Key(Cover(tail) + |chain|)
        invariant !ok ==> |chain| < NewBlocks(tail, count) && Refused(supply(|chain|), s'.t, v', s.published, |chain|)
        decreases ok, blockBaseDiff
      {
        CountDown(blockBaseDiff, NewBlocks(tail, count) - |chain|);
        blockBaseDiff := blockBaseDiff - BLOCK_SIZE;
        currentTailIndex := Wrap(currentTailIndex + BLOCK_SIZE, HALF);
        NextKey(currentTailIndex, Cover(tail) + |chain|);
        StateFacts(s', v');
        var b: Option<Block>;
        b, s', v' := AddBlock(currentTailIndex, supply(|chain|), s', v');
        if b == None { ok := false; } else { chain := chain + [b.value]; }
      }
      if ok { CountDown(blockBaseDiff, NewBlocks(tail, count) - |chain|); }
      if !ok {
        ghost var s1, v1 := s', v';
        s', v' := TakeBack(startTailIndex, chain, tail, s', v');
        StillRefused(supply(|chain|), s1.t, v1, s'.t, v', s.published, |chain|);
        chain, freed := [], chain;
      }
    }
  }

  /** A round with this supply fails when the index has the capacity, and is full or not. */
  predicate Fails(x: Supply, capacity: nat, full: bool) {
    x.full || (full && !CanGrow(x, capacity)) || x.block == None
  }

  /** With `n` blocks of the call in the index, its every slot has a key, and the oldest has a block: a
      published one, or the call's own first. */
  predicate Full(v: View, capacity: nat, published: nat, n: nat) {
    v.hi + 1 == v.lo + capacity == published + n && (v.lo in v.live || v.lo == published)
  }

  /** An entry is refused only then. */
  lemma FoundFull(s: State, v: View)
    requires Inv(s, v) && s.p == Ready && Sound(s.t) && !Free(s.t)
    ensures Full(v, Capacity(s.t), s.published, |s.chain|)
  {
    hide LooksOk, PinsOk, SharesOk, ChainOk, NextEntry, Ent, Fits, TailsOk;
    var ix, off, top := Last(s.t.headers).index, Last(v.offs), Last(v.tops);
    NextIs(s.t, s.p, v);
    UnusableSlot(ix, off, s.t.keys, s.t.values, v.lo, v.hi, v.live, top);
    OldestHas(ix, off, s.t.values, v.lo, v.hi, v.live);
  }

  lemma OldestHas(ix: seq<nat>, off: int, values: seq<Option<Block>>, lo: nat, hi: int, live: map<int, Block>)
    requires ValuesOk(ix, off, values, lo, hi, -1, live) && ix != [] && hi + 1 == lo + |ix| && Ent(ix, off, hi + 1) < |values|
    requires values[Ent(ix, off, hi + 1)] != None
    ensures lo in live
  {
    SlotStep(|ix|, off, lo);
    assert Ent(ix, off, hi + 1) == Ent(ix, off, lo);
  }

  lemma LowPublished(s: State, v: View)
    requires Inv(s, v)
    ensures v.lo <= s.published
  {
  }

  /** The round fails with this supply, in a state with `n` of the call's blocks in the index, or taken back. */
  predicate Refused(x: Supply, t: Table, v: View, published: nat, n: nat) {
    t.headers != [] && v.lo <= published && Fails(x, Capacity(t), Full(v, Capacity(t), published, n))
  }

  lemma StillRefused(x: Supply, t: Table, v: View, t': Table, v': View, published: nat, n: nat)
    requires Refused(x, t, v, published, n) && t'.headers != [] && Capacity(t') == Capacity(t)
    requires v'.lo == v.lo && v'.hi == v.hi && SamePublished(published, v, v')
    ensures Refused(x, t', v', published, n)
  {
  }

  lemma FirstKey(tail: nat, startTailIndex: int, current: int)
    requires startTailIndex == Wrap(tail, HALF) && current == StartBase(startTailIndex)
    ensures Wrap(current + BLOCK_SIZE, HALF) == Key(Cover(tail))
  {
    NewBase(tail, 0);
  }

  lemma StartDown(tail: nat, count: nat, diff: int)
    requires diff == BlockBaseDiff(Wrap(tail, HALF), count) && count + BLOCK_SIZE <= 2 * HALF
    ensures SizeOf(diff, NewBlocks(tail, count)) && NewBlocks(tail, count) >= 0
  {
    DemandExactly(tail, count);
    NewBlocksBound(tail, count);
    MultipleSign(BLOCK_SIZE, NewBlocks(tail, count));
  }

  /** Adding a block's size to a base gives that of the next block. */
  lemma NextKey(base: int, n: int)
    requires base == Key(n)
    ensures Wrap(base + BLOCK_SIZE, HALF) == Key(n + 1)
  {
    StoredTail(n * BLOCK_SIZE, BLOCK_SIZE);
    assert n * BLOCK_SIZE + BLOCK_SIZE == (n + 1) * BLOCK_SIZE;
  }

  /** The published blocks are in the table as before. */
  ghost predicate SamePublished(published: nat, v: View, v': View) {
    forall n :: n < published ==> (n in v'.live <==> n in v.live) && (n in v.live ==> v'.live[n] == v.live[n])
  }

  /** When nothing else is in the table, that is all of it. */
  lemma NothingElse(s: State, v: View, s': State, v': View)
    requires Inv(s, v) && Inv(s', v') && s.p == Ready == s'.p && s.chain == [] == s'.chain && s.published == s'.published
    requires SamePublished(s.published, v, v')
    ensures v.tops != [] && v'.tops != [] && v'.live == v.live && Last(v'.tops) == Last(v.tops) == s.published - 1
  {
    hide SharesOk, TailsOk, KeysOk, ValuesOk, LooksOk, PinsOk, ChainOk;
    assert Last(v'.tops) == s.published - 1;
    forall n | n in v.live || n in v'.live ensures n < s.published { }
  }

  lemma NewAtTail(s: State, v: View)
    requires Inv(s, v) && s.p.Requisitioning?
    ensures v.tops != [] && Last(v.tops) == s.published + |s.chain|
  {
    hide LooksOk, PinsOk, ChainOk, TailsOk, SharesOk, KeysOk, ValuesOk, Ent;
  }

  lemma NextPlace(x: int, capacity: nat)
    requires capacity > 0
    ensures (x % capacity + 1) % capacity == (x + 1) % capacity
  {
    var q := x / capacity;
    assert x == q * capacity + x % capacity;
    ModAdd(x % capacity + 1, q, capacity);
  }

  lemma StateFacts(s: State, v: View)
    requires Inv(s, v)
    ensures Sound(s.t) && v.tops != [] && v.offs != []
    ensures SoundHeader(Last(s.t.headers), |s.t.keys|)
    ensures s.p.StoringKey? || s.p.StoringTail? || s.p.Requisitioning? || s.p.Clearing? ==> s.p.e < |s.t.keys|
  {
  }

  /** One of the producer's steps, in a state that keeps the invariant. */
  lemma After(s: State, v: View, e: Event) returns (s': State, v': View)
    requires Inv(s, v) && Sound(s.t) && Step(s, v.live, e).Some?
    ensures v.tops != [] && s' == Step(s, v.live, e).value && v' == Advance(s, v, e) && Inv(s', v')
  {
    EventKeepsInv(s, v, e);
    s', v' := Step(s, v.live, e).value, Advance(s, v, e);
  }

  /** An insertion is a run of the producer's steps. */
  lemma InsertedKeeps(s: State, v: View, memory: Option<seq<Option<Block>>>) returns (s': State, v': View)
    requires Inv(s, v) && s.p == Ready && Sound(s.t) && Suits(s.t, memory)
    ensures var (entry, t) := Inserted(s.t, Key(s.published + |s.chain|), memory);
      s' == s.(t := t, p := if entry.Some? then Requisitioning(entry.value) else Undoing(0))
    ensures Inv(s', v') && v'.live == v.live
    ensures Inserted(s.t, Key(s.published + |s.chain|), memory).0 == None ==> v' == v
  {
    hide Inv, Key, Doubled, Fits, Grow;
    var s1: State, v1: View;
    s1, v1 := After(s, v, Extend);
    if !Free(s.t) && memory == None {
      s', v' := After(s1, v1, Produce(false, 0, []));
    } else if !Free(s.t) {
      s1, v1 := GrownKeeps(s1, v1, memory.value);
      s', v' := TakenKeeps(s1, v1);
    } else {
      s', v' := TakenKeeps(s1, v1);
    }
  }

  lemma GrownKeeps(s: State, v: View, memory: seq<Option<Block>>) returns (s': State, v': View)
    requires Inv(s, v) && s.p == Growing && Sound(s.t) && Suits(s.t, Some(memory))
    ensures Sound(Grow(s.t, memory))
    ensures s' == s.(t := Grow(s.t, memory), p := StoringKey(NextEntry(Grow(s.t, memory)))) && Inv(s', v') && v'.live == v.live
  {
    s', v' := After(s, v, Produce(true, 0, memory));
    GrowSound(s.t, memory);
    hide LooksOk, PinsOk, ChainOk, TailsOk, SharesOk, KeysOk, ValuesOk, Ent, Key, Fits;
    GrowEntry(s.t, v, memory);
  }

  lemma TakenKeeps(s: State, v: View) returns (s': State, v': View)
    requires Inv(s, v) && s.p.StoringKey? && Sound(s.t) && s.p.e == NextEntry(s.t)
    ensures s' == s.(t := TakeSlot(s.t, Key(s.published + |s.chain|)), p := Requisitioning(s.p.e))
    ensures Inv(s', v') && v'.live == v.live
  {
    hide Inv, Key;
    var s1: State, v1: View;
    s1, v1 := After(s, v, Produce(true, 0, []));
    SoundKey(s.t, s.p.e, Key(s.published + |s.chain|));
    s', v' := After(s1, v1, Produce(true, 0, []));
  }
}
