/** Indices of a sub-queue, cut into blocks of `BLOCK_SIZE` cells. */
module Blocks {
  type BlockSize = n: nat | n >= 2 witness 32

  /** The traits of a queue choose it; nothing here depends on the choice. */
  const BLOCK_SIZE: BlockSize

  type Half = n: int | n > 0 && 2 * n % BLOCK_SIZE == 0 witness BLOCK_SIZE

  /** Half the number of values of the index type, of which the block size is a divisor as both are
      powers of two. */
  const HALF: Half

  /** The number of the block that holds index `i`. */
  function Num(i: nat): nat { i / BLOCK_SIZE }

  /** The cell of index `i` in its block. */
  function Cell(i: nat): nat { i % BLOCK_SIZE }

  /** The first index of block `k`. */
  function Base(k: nat): nat { k * BLOCK_SIZE }

  /** The number of blocks that cover the indices below `i`. */
  function Cover(i: nat): nat { if Cell(i) == 0 then Num(i) else Num(i) + 1 }

  lemma Position(i: nat)
    ensures Base(Num(i)) + Cell(i) == i && Cell(i) < BLOCK_SIZE
  {
  }

  lemma BaseStep(k: nat)
    ensures Base(k + 1) == Base(k) + BLOCK_SIZE
  {
  }

  lemma {:induction false} BaseOrder(j: nat, k: nat)
    requires j < k
    ensures Base(j) + BLOCK_SIZE <= Base(k)
  {
    BaseStep(k - 1);
    if j < k - 1 { BaseOrder(j, k - 1); }
  }

  /** Block and cell determine the index, and the index its block and cell. */
  lemma InBlock(i: nat, k: nat)
    ensures Num(i) == k <==> Base(k) <= i < Base(k) + BLOCK_SIZE
    ensures Num(i) == k ==> Cell(i) == i - Base(k)
  {
    Position(i);
    if Num(i) < k { BaseOrder(Num(i), k); }
    if k < Num(i) { BaseOrder(k, Num(i)); }
  }

  lemma NumOrder(i: nat, j: nat)
    requires i <= j
    ensures Num(i) <= Num(j)
  {
    Position(i);
    Position(j);
    if Num(j) < Num(i) { BaseOrder(Num(j), Num(i)); }
  }

  lemma NextIndex(i: nat)
    ensures Cell(i) + 1 < BLOCK_SIZE ==> Num(i + 1) == Num(i) && Cell(i + 1) == Cell(i) + 1
    ensures Cell(i) + 1 == BLOCK_SIZE ==> Num(i + 1) == Num(i) + 1 && Cell(i + 1) == 0
  {
    Position(i);
    BaseStep(Num(i));
    if Cell(i) + 1 < BLOCK_SIZE { InBlock(i + 1, Num(i)); } else { InBlock(i + 1, Num(i) + 1); }
  }

  /** Block `k` holds an index below `i` exactly when it is one of the blocks that cover them. */
  lemma CoverOrder(k: nat, i: nat)
    ensures k < Cover(i) <==> Base(k) < i
  {
    Position(i);
    if k < Num(i) { BaseOrder(k, Num(i)); }
    if Num(i) < k { BaseOrder(Num(i), k); }
  }
}
