/**
 The implicit producer's block index: a circular table from block number to block, found by the
 distance from its tail. The table doubles when its next slot is still in use; the old header,
 which slow readers may still hold, shares its entries with the new one.

 The number of values of the index type is a multiple of every capacity, as both are powers of two.
 */
module BlockIndex {
  import opened Wrappers
  import opened CircularArithmetic
  import opened Blocks

  type Block = nat
  type Tid = nat
  const INVALID_BLOCK_BASE: int := 1

  /** The stored first index of block number `n`. */
  function Key(n: int): int {
    Wrap(n * BLOCK_SIZE, HALF)
  }

  /** Entries are named by their places in `keys` and `values`. */
  datatype Header = Header(index: seq<nat>, tail: nat)

  datatype Table = Table(headers: seq<Header>, keys: seq<int>, values: seq<Option<Block>>)

  /** A capacity that the index type can address. */
  predicate Fits(capacity: nat) {
    capacity > 0 && 2 * HALF % capacity == 0 && capacity * BLOCK_SIZE <= HALF
  }

  /** The slot that a reader computes for the block with stored base `base`, from the tail and the key
      at the tail that it has read. */
  function SlotFor(base: int, tail: nat, tailKey: int, capacity: nat): nat
    requires capacity > 0
  {
    var offset := TruncatedDivision(ToSigned(Wrap(base - tailKey, HALF), HALF), BLOCK_SIZE);
    Wrap(tail + Wrap(offset, HALF), HALF) % capacity
  }

  lemma ModMultiple(x: int, m: int, c: int)
    requires m > 0 && c > 0 && m % c == 0
    ensures (x % m) % c == x % c
  {
    var k := m / c;
    assert m == k * c;
    var q := x / m;
    assert x == q * m + x % m;
    assert q * m == (q * k) * c;
    ModAdd(x % m, q * k, c);
  }

  lemma DistanceFits(d: int, size: int, capacity: int, half: int)
    requires size > 0 && 0 - capacity < d < capacity && capacity * size <= half
    ensures 0 - half < d * size < half
  {
  }

  /** A circular slot, computed in the index type, is the slot computed on mathematical numbers. */
  lemma SlotWraps(tail: nat, d: int, capacity: nat)
    requires capacity > 0 && 2 * HALF % capacity == 0
    ensures Wrap(tail + Wrap(d, HALF), HALF) % capacity == (tail + d) % capacity
  {
    var m := 2 * HALF;
    var w, q, k := Wrap(d, HALF), d / m, m / capacity;
    ModMultiple(tail + w, m, capacity);
    assert d == q * m + w && m == k * capacity;
    assert q * m == (q * k) * capacity;
    ModAdd(tail + w, q * k, capacity);
  }

  /** For numbers less than a table apart, a reader's slot is the exact circular distance away, forward
      or backward, whatever has wrapped. */
  lemma SlotExact(n: int, y: int, tail: nat, capacity: nat)
    requires Fits(capacity) && 0 - capacity < n - y < capacity
    ensures SlotFor(Key(n), tail, Key(y), capacity) == (tail + (n - y)) % capacity
  {
    DistanceFits(n - y, BLOCK_SIZE, capacity, HALF);
    BlockDistance(n, y, BLOCK_SIZE, HALF);
    SlotWraps(tail, n - y, capacity);
  }

  // ---- What the table means ----

  /** The slot of number `j` in a table of `capacity` slots whose slots are `off` ahead of its numbers. */
  function Slot(capacity: nat, off: int, j: int): nat
    requires capacity > 0
  {
    (off + j) % capacity
  }

  function Ent(ix: seq<nat>, off: int, j: int): (e: nat)
    requires ix != []
    ensures e in ix
  {
    ix[Slot(|ix|, off, j)]
  }

  ghost predicate Distinct(ix: seq<nat>, entries: nat) {
    && ix != []
    && (forall p :: 0 <= p < |ix| ==> ix[p] < entries)
    && (forall p, q :: 0 <= p < q < |ix| ==> ix[p] != ix[q])
  }

  /** The current table holds the keys of the numbers [lo, hi]; its other slots are unused. */
  ghost predicate KeysOk(ix: seq<nat>, off: int, keys: seq<int>, lo: nat, hi: int) {
    && Distinct(ix, |keys|) && lo - 1 <= hi < lo + |ix|
    && (forall j: int :: lo <= j <= hi ==> keys[Ent(ix, off, j)] == Key(j))
    && (forall j: int :: hi < j < lo + |ix| ==> keys[Ent(ix, off, j)] == INVALID_BLOCK_BASE)
  }

  /** The numbers [lo, hi] have their blocks or none, but for one being inserted. */
  ghost predicate ValuesOk(ix: seq<nat>, off: int, values: seq<Option<Block>>, lo: nat, hi: int, busy: int, live: map<int, Block>) {
    && Distinct(ix, |values|) && hi < lo + |ix|
    && (forall n :: n in live ==> lo <= n <= hi && n != busy)
    && (forall j: int :: lo <= j <= hi && j != busy ==> values[Ent(ix, off, j)] == (if j in live then Some(live[j]) else None))
  }

  /** Every table's tail is the slot of the number in `tops`, which still has its key if it is in use. */
  ghost predicate TailsOk(headers: seq<Header>, offs: seq<int>, tops: seq<int>, hi: int) {
    && |headers| == |offs| == |tops| > 0
    && (forall k :: 0 <= k < |headers| ==> Fits(|headers[k].index|) && tops[k] <= hi)
    && (forall k :: 0 <= k < |headers| ==> headers[k].tail == Slot(|headers[k].index|, offs[k], tops[k]))
  }

  /** The numbers that an old table covers and that still have their keys are in the same entries. */
  ghost predicate SharesOk(headers: seq<Header>, offs: seq<int>, tops: seq<int>, lo: nat) {
    && |headers| == |offs| == |tops| > 0
    && (forall k :: 0 <= k < |headers| ==> headers[k].index != [])
    && (forall k, j: int :: 0 <= k < |headers| && lo <= j <= tops[k] && tops[k] - |headers[k].index| < j ==>
          Ent(headers[k].index, offs[k], j) == Ent(Last(headers).index, Last(offs), j))
  }

  lemma ModCancel(x: int, y: int, c: int)
    requires c > 0 && x % c == y % c && 0 - c < x - y < c
    ensures x == y
  {
    assert x == (x / c) * c + x % c && y == (y / c) * c + y % c;
    assert x - y == (x / c - y / c) * c;
    SmallMultiple(x / c - y / c, c);
  }

  /** Numbers less than a table apart have different entries. */
  lemma EntUnique(ix: seq<nat>, entries: nat, off: int, i: int, j: int)
    requires Distinct(ix, entries) && 0 - |ix| < i - j < |ix| && i != j
    ensures Ent(ix, off, i) != Ent(ix, off, j)
  {
    if Slot(|ix|, off, i) == Slot(|ix|, off, j) { ModCancel(off + i, off + j, |ix|); }
  }

  lemma SlotStep(c: nat, off: int, j: int)
    requires c > 0
    ensures (Slot(c, off, j) + 1) % c == Slot(c, off, j + 1)
    ensures (Slot(c, off, j) + c - 1) % c == Slot(c, off, j - 1)
    ensures Slot(c, off, j + c) == Slot(c, off, j)
  {
    var q := (off + j) / c;
    assert off + j == q * c + Slot(c, off, j);
    ModAdd(Slot(c, off, j) + 1, q, c);
    ModAdd(Slot(c, off, j) - 1, q, c);
    ModAdd(Slot(c, off, j) - 1, 1, c);
    ModAdd(off + j, 1, c);
  }

  lemma KeyValid(n: int)
    ensures Key(n) != INVALID_BLOCK_BASE
  {
    var m := 2 * HALF;
    var q, blocks := n * BLOCK_SIZE / m, m / BLOCK_SIZE;
    assert m == blocks * BLOCK_SIZE;
    assert n * BLOCK_SIZE == q * m + Key(n);
    assert q * m == (q * blocks) * BLOCK_SIZE;
    assert Key(n) == (n - q * blocks) * BLOCK_SIZE by { assert (n - q * blocks) * BLOCK_SIZE == n * BLOCK_SIZE - (q * blocks) * BLOCK_SIZE; }
    if Key(n) == 1 { SmallMultiple(n - q * blocks, BLOCK_SIZE); }
  }

  // ---- What one write does to one part of it ----

  /** The next key takes an unused slot, or the one of the oldest number. */
  lemma KeyStored(ix: seq<nat>, off: int, keys: seq<int>, lo: nat, hi: int)
    requires KeysOk(ix, off, keys, lo, hi)
    ensures KeysOk(ix, off, keys[Ent(ix, off, hi + 1) := Key(hi + 1)], if hi + 1 == lo + |ix| then lo + 1 else lo, hi + 1)
  {
    hide Ent, Slot, Key;
    var keys', lo' := keys[Ent(ix, off, hi + 1) := Key(hi + 1)], if hi + 1 == lo + |ix| then lo + 1 else lo;
    forall j: int | lo' <= j <= hi + 1 ensures keys'[Ent(ix, off, j)] == Key(j) {
      if j <= hi { EntUnique(ix, |keys|, off, j, hi + 1); }
    }
    forall j: int | hi + 1 < j < lo' + |ix| ensures keys'[Ent(ix, off, j)] == INVALID_BLOCK_BASE {
      EntUnique(ix, |keys|, off, j, hi + 1);
    }
  }

  /** Its value is not defined yet. */
  lemma KeyStoredValues(ix: seq<nat>, off: int, values: seq<Option<Block>>, lo: nat, hi: int, live: map<int, Block>)
    requires ValuesOk(ix, off, values, lo, hi, -1, live) && lo - 1 <= hi
    requires hi + 1 == lo + |ix| ==> lo !in live
    ensures ValuesOk(ix, off, values, if hi + 1 == lo + |ix| then lo + 1 else lo, hi + 1, hi + 1, live)
  {
  }

  /** The slot a writer may take is new, or follows a rewound tail, or is of the oldest number, whose
      block is gone. */
  lemma UsableSlot(ix: seq<nat>, off: int, keys: seq<int>, values: seq<Option<Block>>, lo: nat, hi: int, live: map<int, Block>)
    requires KeysOk(ix, off, keys, lo, hi) && ValuesOk(ix, off, values, lo, hi, -1, live)
    requires hi + 1 == lo + |ix|
    requires var e := Ent(ix, off, hi + 1); keys[e] == INVALID_BLOCK_BASE || values[e] == None
    ensures lo !in live
  {
    SlotStep(|ix|, off, lo);
    KeyValid(lo);
    assert Ent(ix, off, hi + 1) == Ent(ix, off, lo);
  }

  /** Only a table whose slots all have keys, and whose tail is not rewound, is found full. */
  lemma UnusableSlot(ix: seq<nat>, off: int, keys: seq<int>, values: seq<Option<Block>>, lo: nat, hi: int, live: map<int, Block>, top: int)
    requires KeysOk(ix, off, keys, lo, hi) && ValuesOk(ix, off, values, lo, hi, -1, live)
    requires lo - 1 <= top <= hi && (forall n :: n in live ==> n <= top)
    requires var e := Ent(ix, off, top + 1); keys[e] != INVALID_BLOCK_BASE && values[e] != None
    ensures top == hi && hi + 1 == lo + |ix|
  {
  }

  lemma ValueStored(ix: seq<nat>, off: int, values: seq<Option<Block>>, lo: nat, hi: int, busy: int, live: map<int, Block>, n: int, x: Option<Block>)
    requires ValuesOk(ix, off, values, lo, hi, busy, live) && lo <= n <= hi && (busy == -1 || busy == n)
    ensures ValuesOk(ix, off, values[Ent(ix, off, n) := x], lo, hi, -1, if x.Some? then live[n := x.value] else live - {n})
  {
    hide Ent;
    var values' := values[Ent(ix, off, n) := x];
    var live' := if x.Some? then live[n := x.value] else live - {n};
    forall j: int | lo <= j <= hi ensures values'[Ent(ix, off, j)] == (if j in live' then Some(live'[j]) else None) {
      if j != n { EntUnique(ix, |values|, off, j, n); }
    }
  }

  /** Another number's value may change while one is being inserted. */
  lemma OtherValueStored(ix: seq<nat>, off: int, values: seq<Option<Block>>, lo: nat, hi: int, busy: int, live: map<int, Block>, n: int)
    requires ValuesOk(ix, off, values, lo, hi, busy, live) && n in live
    ensures ValuesOk(ix, off, values[Ent(ix, off, n) := None], lo, hi, busy, live - {n})
  {
    hide Ent;
    var values' := values[Ent(ix, off, n) := None];
    forall j: int | lo <= j <= hi && j != busy ensures values'[Ent(ix, off, j)] == (if j in live - {n} then Some((live - {n})[j]) else None) {
      if j != n { EntUnique(ix, |values|, off, j, n); }
    }
  }

  /** The tail moves only in the current table. */
  lemma TailStored(headers: seq<Header>, offs: seq<int>, tops: seq<int>, lo: nat, hi: int, top: int)
    requires TailsOk(headers, offs, tops, hi) && SharesOk(headers, offs, tops, lo) && top <= hi
    ensures var headers' := Front(headers) + [Last(headers).(tail := Slot(|Last(headers).index|, Last(offs), top))];
      var tops' := Front(tops) + [top];
      TailsOk(headers', offs, tops', hi) && SharesOk(headers', offs, tops', lo)
  {
  }

  // ---- Doubling ----

  /** A table of twice the capacity: the old entries, oldest first, then as many new ones. */
  function Doubled(h: Header, entries: nat): (r: Header)
    requires h.index != []
    ensures |r.index| == 2 * |h.index|
  {
    var c := |h.index|;
    Header(seq(2 * c, i requires 0 <= i < 2 * c => if i < c then h.index[(h.tail + 1 + i) % c] else entries + (i - c)), c - 1)
  }

  /** The numbers of a full table keep their entries, and the numbers after them get the new ones. */
  lemma DoubledEnt(h: Header, entries: nat, off: int, lo: int, hi: int, j: int)
    requires h.index != [] && hi + 1 == lo + |h.index| && h.tail == Slot(|h.index|, off, hi)
    requires lo <= j < lo + 2 * |h.index|
    ensures Slot(2 * |h.index|, 0 - lo, j) == j - lo
    ensures Ent(Doubled(h, entries).index, 0 - lo, j) == if j <= hi then Ent(h.index, off, j) else entries + (j - hi - 1)
  {
    var c := |h.index|;
    DivideUnique(0 - lo + j, 2 * c, 0, j - lo);
    if j <= hi {
      var q := (off + hi) / c;
      assert off + hi == q * c + h.tail;
      ModAdd(h.tail + 1 + (j - lo), q, c);
      ModAdd(off + j, 1, c);
    }
  }

  lemma DoubledDistinct(h: Header, entries: nat)
    requires Distinct(h.index, entries) && h.tail < |h.index|
    ensures Distinct(Doubled(h, entries).index, entries + |h.index|)
  {
    var ix, c := Doubled(h, entries).index, |h.index|;
    forall p, q | 0 <= p < q < |ix| ensures ix[p] != ix[q] {
      if q < c && (h.tail + 1 + p) % c == (h.tail + 1 + q) % c { ModCancel(h.tail + 1 + p, h.tail + 1 + q, c); }
    }
  }

  lemma DoubledKeys(h: Header, off: int, keys: seq<int>, lo: nat, hi: int)
    requires KeysOk(h.index, off, keys, lo, hi) && hi + 1 == lo + |h.index| && h.tail == Slot(|h.index|, off, hi)
    ensures KeysOk(Doubled(h, |keys|).index, 0 - lo, keys + seq(|h.index|, _ => INVALID_BLOCK_BASE), lo, hi)
  {
    hide Ent, Slot, Doubled;
    assert h.tail < |h.index| by { Remainder(off + hi, |h.index|); }
    DoubledDistinct(h, |keys|);
    var ix, off', keys' := Doubled(h, |keys|).index, 0 - lo, keys + seq(|h.index|, _ => INVALID_BLOCK_BASE);
    forall j: int | lo <= j <= hi ensures keys'[Ent(ix, off', j)] == Key(j) {
      DoubledEnt(h, |keys|, off, lo, hi, j);
      assert keys[Ent(h.index, off, j)] == Key(j);
    }
    forall j: int | hi < j < lo + |ix| ensures keys'[Ent(ix, off', j)] == INVALID_BLOCK_BASE {
      DoubledEnt(h, |keys|, off, lo, hi, j);
    }
  }

  lemma DoubledValues(h: Header, off: int, values: seq<Option<Block>>, junk: seq<Option<Block>>, lo: nat, hi: int, live: map<int, Block>)
    requires ValuesOk(h.index, off, values, lo, hi, -1, live) && hi + 1 == lo + |h.index| && h.tail == Slot(|h.index|, off, hi)
    requires |junk| == |h.index|
    ensures ValuesOk(Doubled(h, |values|).index, 0 - lo, values + junk, lo, hi, -1, live)
  {
    hide Ent, Slot, Doubled;
    assert h.tail < |h.index| by { Remainder(off + hi, |h.index|); }
    DoubledDistinct(h, |values|);
    forall j: int | lo <= j <= hi ensures Ent(Doubled(h, |values|).index, 0 - lo, j) == Ent(h.index, off, j) {
      DoubledEnt(h, |values|, off, lo, hi, j);
    }
  }

  lemma Remainder(x: int, c: nat)
    requires c > 0
    ensures 0 <= Slot(c, x, 0) < c
    ensures forall off: int, j: int {:trigger Slot(c, off, j)} :: 0 <= Slot(c, off, j) < c
  {
  }

  lemma DoubledShares(headers: seq<Header>, offs: seq<int>, tops: seq<int>, lo: nat, hi: int, entries: nat)
    requires TailsOk(headers, offs, tops, hi) && SharesOk(headers, offs, tops, lo)
    requires hi + 1 == lo + |Last(headers).index| && Last(tops) == hi
    ensures SharesOk(headers + [Doubled(Last(headers), entries)], offs + [0 - lo], tops + [hi], lo)
  {
    hide Ent, Slot, Doubled, Fits;
    var headers', offs', tops' := headers + [Doubled(Last(headers), entries)], offs + [0 - lo], tops + [hi];
    forall k, j: int | 0 <= k < |headers'| && lo <= j <= tops'[k] && tops'[k] - |headers'[k].index| < j
      ensures Ent(headers'[k].index, offs'[k], j) == Ent(Last(headers').index, Last(offs'), j) {
      if k < |headers| {
        assert Ent(headers[k].index, offs[k], j) == Ent(Last(headers).index, Last(offs), j);
        DoubledEnt(Last(headers), entries, Last(offs), lo, hi, j);
      }
    }
  }

  lemma DoubledTails(headers: seq<Header>, offs: seq<int>, tops: seq<int>, lo: nat, hi: int, entries: nat)
    requires TailsOk(headers, offs, tops, hi) && Fits(2 * |Last(headers).index|)
    requires hi + 1 == lo + |Last(headers).index| && Last(tops) == hi
    ensures TailsOk(headers + [Doubled(Last(headers), entries)], offs + [0 - lo], tops + [hi], hi)
  {
    var h := Last(headers);
    assert h == headers[|headers| - 1];
    assert Slot(|h.index|, Last(offs), hi) == h.tail;
    DoubledEnt(h, entries, Last(offs), lo, hi, hi);
  }
}
