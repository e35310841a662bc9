/**
 How many new blocks an enqueue needs. The producer finds it as a distance of block bases, masked out of
 wrapped indices, and counts it down by a block's size.
 */
module BlockDemand {
  import opened CircularArithmetic
  import opened Blocks

  /** `blockBaseDiff`: from the base of the last index before the stored tail to that of the last new
      index, all in the index type. */
  function BlockBaseDiff(tail: int, count: nat): (r: int)
    ensures 0 <= r < 2 * HALF
  {
    Wrap(BlockBase(Wrap(tail + count - 1, HALF), BLOCK_SIZE) - BlockBase(Wrap(tail - 1, HALF), BLOCK_SIZE), HALF)
  }

  /** The first `currentTailIndex`: the base of the last index before the stored tail. */
  function StartBase(tail: int): int {
    BlockBase(Wrap(tail - 1, HALF), BLOCK_SIZE)
  }

  /** The number of new blocks, beyond those that cover the tail. */
  function NewBlocks(tail: nat, count: nat): int {
    Cover(tail + count) - Cover(tail)
  }

  /** The base before an index, which for index 0 is negative. */
  lemma BaseBefore(i: nat)
    ensures BlockBase(i - 1, BLOCK_SIZE) == BLOCK_SIZE * (Cover(i) - 1)
  {
    Position(i);
    if Cell(i) == 0 {
      DivideUnique(i - 1, BLOCK_SIZE, Num(i) - 1, BLOCK_SIZE - 1);
    } else {
      DivideUnique(i - 1, BLOCK_SIZE, Num(i), Cell(i) - 1);
    }
  }

  lemma MaskWraps(x: int)
    ensures BlockBase(Wrap(x, HALF), BLOCK_SIZE) == Wrap(BlockBase(x, BLOCK_SIZE), HALF)
  {
    var blocks := 2 * HALF / BLOCK_SIZE;
    assert 2 * HALF == BLOCK_SIZE * blocks;
    BlockBaseWraps(x, BLOCK_SIZE, HALF, blocks);
  }

  /** An operation on a stored index is one on the index. */
  lemma StoredTail(tail: int, d: int)
    ensures Wrap(Wrap(tail, HALF) + d, HALF) == Wrap(tail + d, HALF)
  {
    var m := 2 * HALF;
    var q := tail / m;
    assert tail == q * m + tail % m;
    ModAdd(Wrap(tail, HALF) + d, q, m);
  }

  /** For every tail, 0 and those past the wrap included, and every count, the masked difference is the
      size of the new blocks, as the index type stores it. */
  lemma DiffIsDemand(tail: nat, count: nat)
    ensures BlockBaseDiff(Wrap(tail, HALF), count) == Wrap(BLOCK_SIZE * NewBlocks(tail, count), HALF)
  {
    hide BlockBase, Wrap, Cover;
    StoredTail(tail, count - 1);
    StoredTail(tail, -1);
    MaskWraps(tail + count - 1);
    MaskWraps(tail - 1);
    BaseBefore(tail + count);
    BaseBefore(tail);
    WrapSub(BlockBase(tail + count - 1, BLOCK_SIZE), BlockBase(tail - 1, BLOCK_SIZE), HALF);
    Factor(BLOCK_SIZE, Cover(tail + count), Cover(tail));
  }

  lemma Factor(m: int, a: int, b: int)
    ensures m * (a - 1) - m * (b - 1) == m * (a - b)
    ensures m * (a - b) == m * a - m * b
  {
  }

  lemma CoverBounds(i: nat)
    ensures i <= BLOCK_SIZE * Cover(i) < i + BLOCK_SIZE
  {
    Position(i);
  }

  lemma NewBlocksBound(tail: nat, count: nat)
    ensures 0 <= BLOCK_SIZE * NewBlocks(tail, count) < count + BLOCK_SIZE
  {
    hide Cover;
    CoverBounds(tail);
    CoverBounds(tail + count);
    Factor(BLOCK_SIZE, Cover(tail + count), Cover(tail));
    if NewBlocks(tail, count) < 0 { MultipleAtLeast(0 - NewBlocks(tail, count), BLOCK_SIZE); Negate(BLOCK_SIZE, NewBlocks(tail, count)); }
    MultipleSign(BLOCK_SIZE, NewBlocks(tail, count));
  }

  lemma Negate(m: int, d: int)
    ensures (0 - d) * m == 0 - m * d
  {
  }

  lemma MultipleSign(m: nat, d: int)
    requires m > 0
    ensures m * d >= 0 <==> d >= 0
    ensures m * d > 0 <==> d > 0
  {
  }

  /** It is exact just when that size fits in the index type, as it does for any count that leaves a block's
      size of the range. */
  lemma DemandExactly(tail: nat, count: nat)
    ensures BlockBaseDiff(Wrap(tail, HALF), count) == BLOCK_SIZE * NewBlocks(tail, count) <==> BLOCK_SIZE * NewBlocks(tail, count) < 2 * HALF
    ensures count + BLOCK_SIZE <= 2 * HALF ==> BlockBaseDiff(Wrap(tail, HALF), count) == BLOCK_SIZE * NewBlocks(tail, count)
  {
    DiffIsDemand(tail, count);
    NewBlocksBound(tail, count);
    var d := BLOCK_SIZE * NewBlocks(tail, count);
    if d < 2 * HALF { WrapUnique(d, d, 0, HALF); }
  }

  /** For an aligned tail and a count in the last block's size of the range, it is not: the difference is 0. */
  lemma DemandLost()
    ensures BlockBaseDiff(0, 2 * HALF - 1) == 0 && NewBlocks(0, 2 * HALF - 1) > 0
  {
    var count, blocks := 2 * HALF - 1, 2 * HALF / BLOCK_SIZE;
    assert 2 * HALF == blocks * BLOCK_SIZE;
    WrapUnique(0, 0, 0, HALF);
    DiffIsDemand(0, count);
    BaseBefore(count + 1);
    DivideUnique(count, BLOCK_SIZE, blocks - 1, BLOCK_SIZE - 1);
    DivideUnique(0, BLOCK_SIZE, 0, 0);
    assert Cover(0) == 0 && Cover(count) == blocks;
    WrapUnique(BLOCK_SIZE * blocks, 0, 1, HALF);
  }

  /** Counting up from the start, the `n`-th new block's base is the stored base of its number. */
  lemma NewBase(tail: nat, n: int)
    ensures Wrap(StartBase(Wrap(tail, HALF)) + BLOCK_SIZE * (n + 1), HALF) == Wrap((Cover(tail) + n) * BLOCK_SIZE, HALF)
  {
    StoredTail(tail, -1);
    MaskWraps(tail - 1);
    BaseBefore(tail);
    StoredTail(BlockBase(tail - 1, BLOCK_SIZE), BLOCK_SIZE * (n + 1));
    assert BLOCK_SIZE * (Cover(tail) - 1) + BLOCK_SIZE * (n + 1) == (Cover(tail) + n) * BLOCK_SIZE;
  }

  // ---- Counting down ----

  /** `left` is the size of `n` blocks. */
  predicate SizeOf(left: int, n: int) {
    left == BLOCK_SIZE * n
  }

  lemma CountDown(left: int, n: int)
    requires SizeOf(left, n)
    ensures left > 0 <==> n > 0
    ensures SizeOf(left - BLOCK_SIZE, n - 1)
  {
    MultipleSign(BLOCK_SIZE, n);
    assert BLOCK_SIZE * (n - 1) == BLOCK_SIZE * n - BLOCK_SIZE;
  }
}
