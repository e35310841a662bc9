/**
 Unsigned indices that wrap around. `half` is half the number of values of the index type, so
 that an N-bit index has `2 * half == 2^N` values.
 */
module CircularArithmetic {

  /** The stored form of an unbounded index. */
  function Wrap(x: int, half: int): (w: int)
    requires half > 0
    ensures 0 <= w < 2 * half
  {
    x % (2 * half)
  }

  /** `a - b` in the index type, compared with half of its range. */
  predicate CircularLessThan(a: int, b: int, half: int)
    requires half > 0
  {
    Wrap(a - b, half) > half
  }

  /** A stored index read as a two's complement number. */
  function ToSigned(w: int, half: int): int {
    if w < half then w else w - 2 * half
  }

  /** Division of signed machine integers, which truncates toward zero. */
  function TruncatedDivision(a: int, b: nat): int
    requires b > 0
  {
    if a >= 0 then a / b else -((-a) / b)
  }

  /** Clearing the low bits of an index, when `size` is a power of two. */
  function BlockBase(x: int, size: nat): int
    requires size > 0
  {
    x - x % size
  }

  lemma MultipleAtLeast(d: int, m: int)
    requires d >= 1 && m >= 0
    ensures d * m >= m
  {
  }

  /** A multiple of `m` smaller than `m` is zero. */
  lemma SmallMultiple(d: int, m: int)
    requires m > 0 && -m < d * m < m
    ensures d == 0
  {
  }

  lemma DivideUnique(x: int, m: int, q: int, r: int)
    requires m > 0 && x == q * m + r && 0 <= r < m
    ensures x / m == q && x % m == r
  {
    var p := x / m;
    assert x == p * m + x % m;
    assert (q - p) * m == q * m - p * m;
    SmallMultiple(q - p, m);
  }

  lemma WrapUnique(x: int, r: int, k: int, half: int)
    requires half > 0 && x == r + k * (2 * half) && 0 <= r < 2 * half
    ensures Wrap(x, half) == r
  {
    DivideUnique(x, 2 * half, k, r);
  }

  /** Wrapping the operands first changes nothing. */
  lemma WrapSub(x: int, y: int, half: int)
    requires half > 0
    ensures Wrap(Wrap(x, half) - Wrap(y, half), half) == Wrap(x - y, half)
  {
    var m := 2 * half;
    var p, q, r := x / m, y / m, (x - y) / m;
    assert Wrap(x, half) - Wrap(y, half) == Wrap(x - y, half) + (r - p + q) * m by {
      assert x == p * m + x % m && y == q * m + y % m && x - y == r * m + (x - y) % m;
      assert (r - p + q) * m == r * m - p * m + q * m;
    }
    WrapUnique(Wrap(x, half) - Wrap(y, half), Wrap(x - y, half), r - p + q, half);
  }

  /** For all indices: the comparison is true exactly when the distance from `x` up to `y`, modulo the
      range, is neither zero nor as much as half of it. */
  lemma CircularLessThanExactly(x: int, y: int, half: int)
    requires half > 0
    ensures CircularLessThan(Wrap(x, half), Wrap(y, half), half) <==> 0 < Wrap(y - x, half) < half
  {
    var m := 2 * half;
    WrapSub(x, y, half);
    var r := Wrap(x - y, half);
    var q := (x - y) / m;
    assert x - y == q * m + r;
    if r == 0 {
      assert y - x == 0 + (-q) * m;
      WrapUnique(y - x, 0, -q, half);
    } else {
      assert y - x == (m - r) + (-q - 1) * m by { assert (-q - 1) * m == -(q * m) - m; }
      WrapUnique(y - x, m - r, -q - 1, half);
    }
  }

  /** Hence it is `<` on indices that are less than half the range apart, even across overflow. */
  lemma CircularLessThanIsLess(x: int, y: int, half: int)
    requires half > 0 && -half < y - x < half
    ensures CircularLessThan(Wrap(x, half), Wrap(y, half), half) <==> x < y
  {
    CircularLessThanExactly(x, y, half);
    if y >= x { WrapUnique(y - x, y - x, 0, half); } else { WrapUnique(y - x, y - x + 2 * half, -1, half); }
  }

  /** The guard of a dequeue, computed on stored counters, is the guard on the unbounded ones. */
  lemma DequeueGuardRefines(count: int, over: int, tail: int, half: int)
    requires half > 0 && -half < tail - (count - over) < half
    ensures CircularLessThan(Wrap(Wrap(count, half) - Wrap(over, half), half), Wrap(tail, half), half) <==> count - over < tail
    ensures tail - (count - over) > 0 ==> Wrap(Wrap(tail, half) - Wrap(count - over, half), half) == tail - (count - over)
  {
    WrapSub(count, over, half);
    CircularLessThanIsLess(count - over, tail, half);
    WrapSub(tail, count - over, half);
    if tail - (count - over) > 0 { WrapUnique(tail - (count - over), tail - (count - over), 0, half); }
  }

  /** The signed division of a difference of two stored block bases is the exact number of blocks from
      one to the other, positive or negative, even across overflow. */
  lemma BlockDistance(p: int, q: int, size: nat, half: int)
    requires half > 0 && size > 0 && -half < (p - q) * size < half
    ensures TruncatedDivision(ToSigned(Wrap(Wrap(p * size, half) - Wrap(q * size, half), half), half), size) == p - q
  {
    WrapSub(p * size, q * size, half);
    var d := (p - q) * size;
    assert p * size - q * size == d;
    if d >= 0 {
      WrapUnique(d, d, 0, half);
      DivideUnique(d, size, p - q, 0);
    } else {
      WrapUnique(d, d + 2 * half, -1, half);
      assert -d == (q - p) * size;
      DivideUnique(-d, size, q - p, 0);
    }
  }

  /** Clearing the low bits commutes with wrapping when blocks divide the range evenly. */
  lemma BlockBaseWraps(x: int, size: nat, half: int, blocks: nat)
    requires half > 0 && size > 0 && 2 * half == size * blocks
    ensures BlockBase(Wrap(x, half), size) == Wrap(BlockBase(x, size), half)
  {
    var m := 2 * half;
    var k, w := x / m, Wrap(x, half);
    assert x == w + k * m;
    assert k * m == (k * blocks) * size;
    ModAdd(w, k * blocks, size);
    assert BlockBase(x, size) == BlockBase(w, size) + k * m;
    assert w % size <= w by { assert w == (w / size) * size + w % size; }
    WrapUnique(BlockBase(x, size), BlockBase(w, size), k, half);
  }

  lemma ModAdd(w: int, k: int, size: nat)
    requires size > 0
    ensures (w + k * size) % size == w % size
  {
    assert (w / size + k) * size == (w / size) * size + k * size;
    DivideUnique(w + k * size, size, w / size + k, w % size);
  }

  /** At a distance of exactly half the range neither index counts as less. */
  lemma HalfApartIsNotLess(x: int, half: int)
    requires half > 0
    ensures !CircularLessThan(Wrap(x, half), Wrap(x + half, half), half)
    ensures !CircularLessThan(Wrap(x + half, half), Wrap(x, half), half)
  {
    CircularLessThanExactly(x, x + half, half);
    CircularLessThanExactly(x + half, x, half);
    assert x + half - x == half && x - (x + half) == -half;
    WrapUnique(half, half, 0, half);
    WrapUnique(-half, half, -1, half);
  }
}
