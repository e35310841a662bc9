/**
 The switch's choice of a shard. A table from keys, which are streams or residues of sequence numbers,
 to shards is filled as keys appear, from the next available shard, round robin.
 */
module ShardTable {
  import opened Wrappers
  import opened CircularArithmetic

  datatype Table = Table(shardOf: map<nat, nat>, next: nat)

  const EMPTY := Table(map[], 0)

  /** The shard of a key, which is assigned if the key is new; `n` is the number of shards. */
  function Assign(t: Table, key: nat, n: nat): (nat, Table)
    requires n > 0
  {
    if key in t.shardOf then (t.shardOf[key], t)
    else (t.next, Table(t.shardOf[key := t.next], Residue(t.next + 1, n)))
  }

  /** What a read finds, which assigns nothing. */
  function Find(t: Table, key: nat): Option<nat> {
    if key in t.shardOf then Some(t.shardOf[key]) else None
  }

  /** The table after appends with these keys. */
  function After(keys: seq<nat>, n: nat): Table
    requires n > 0
  {
    if keys == [] then EMPTY else Assign(After(Front(keys), n), Last(keys), n).1
  }

  /** The shard of the append with key `keys[i]`, at the time of the append. */
  function ShardAt(keys: seq<nat>, i: nat, n: nat): nat
    requires n > 0 && i < |keys|
  {
    Assign(After(keys[..i], n), keys[i], n).0
  }

  // ---- Any keys: the k-th new one gets shard k mod n and keeps it ----

  /** The keys in the order in which they first appear. */
  function NewKeys(keys: seq<nat>): (r: seq<nat>)
    ensures forall k :: k in r <==> k in keys
    ensures forall i, j :: 0 <= i < j < |r| ==> r[i] != r[j]
  {
    if keys == [] then []
    else
      assert keys == Front(keys) + [Last(keys)];
      var r := NewKeys(Front(keys));
      if Last(keys) in r then r else r + [Last(keys)]
  }

  function Residue(x: nat, n: nat): (r: nat)
    requires n > 0
    ensures r < n
  {
    x % n
  }

  lemma NextResidue(k: nat, n: nat)
    requires n > 0
    ensures Residue(Residue(k, n) + 1, n) == Residue(k + 1, n)
    ensures Residue(k + 1, n) == if Residue(k, n) + 1 == n then 0 else Residue(k, n) + 1
    ensures (k + 1) / n == k / n + if Residue(k, n) + 1 == n then 1 else 0
  {
    var q, r := k / n, Residue(k, n);
    assert k == q * n + r;
    ModAdd(r + 1, q, n);
    if r + 1 < n {
      DivideUnique(k + 1, n, q, r + 1);
      DivideUnique(r + 1, n, 0, r + 1);
    } else {
      assert (q + 1) * n == q * n + n;
      DivideUnique(k + 1, n, q + 1, 0);
      DivideUnique(n, n, 1, 0);
    }
  }

  lemma ResidueIs(k: nat, n: nat)
    requires n > 0
    ensures Residue(k, n) == k % n
  {
  }

  lemma SmallResidue(k: nat, n: nat)
    requires k < n
    ensures Residue(k, n) == k
  {
  }

  /** The closed form of the table. */
  lemma {:induction false} ClosedForm(keys: seq<nat>, n: nat)
    requires n > 0
    ensures var t, order := After(keys, n), NewKeys(keys);
      && t.next == Residue(|order|, n)
      && (forall k :: k in t.shardOf <==> k in order)
      && forall i :: 0 <= i < |order| ==> t.shardOf[order[i]] == Residue(i, n)
  {
    if keys != [] {
      ClosedForm(Front(keys), n);
      AssignClosed(After(Front(keys), n), NewKeys(Front(keys)), Last(keys), n);
    }
  }

  /** One key more. */
  lemma AssignClosed(t: Table, order: seq<nat>, key: nat, n: nat)
    requires n > 0 && t.next == Residue(|order|, n) && (forall k :: k in t.shardOf <==> k in order)
    requires forall i :: 0 <= i < |order| ==> t.shardOf[order[i]] == Residue(i, n)
    ensures var t', order' := Assign(t, key, n).1, if key in order then order else order + [key];
      && t'.next == Residue(|order'|, n)
      && (forall k :: k in t'.shardOf <==> k in order')
      && forall i :: 0 <= i < |order'| ==> t'.shardOf[order'[i]] == Residue(i, n)
  {
    hide Residue;
    NextResidue(|order|, n);
  }

  lemma {:induction false} NewKeysGrow(keys: seq<nat>, i: nat)
    requires i <= |keys|
    ensures NewKeys(keys[..i]) <= NewKeys(keys)
  {
    if i < |keys| {
      assert Front(keys)[..i] == keys[..i];
      NewKeysGrow(Front(keys), i);
    } else {
      assert keys[..i] == keys;
    }
  }

  /** With streams: the k-th new stream, from 0, is assigned shard k mod n by its first append, and every
      later append and read of it is given the same. */
  lemma StreamNeverMoves(keys: seq<nat>, i: nat, k: nat, n: nat)
    requires n > 0 && i < |keys| && k < |NewKeys(keys)| && keys[i] == NewKeys(keys)[k]
    ensures ShardAt(keys, i, n) == Residue(k, n)
    ensures forall m :: i < m <= |keys| ==> Find(After(keys[..m], n), keys[i]) == Some(Residue(k, n))
  {
    forall m | i < m <= |keys| ensures Find(After(keys[..m], n), keys[i]) == Some(Residue(k, n)) {
      ClosedForm(keys[..m], n);
      NewKeysGrow(keys, m);
      assert keys[i] in keys[..m];
      var j :| 0 <= j < |NewKeys(keys[..m])| && NewKeys(keys[..m])[j] == keys[i];
      assert NewKeys(keys)[j] == keys[i];
    }
    assert keys[..i + 1] == keys[..i] + [keys[i]];
    assert Front(keys[..i + 1]) == keys[..i];
    assert Find(After(keys[..i + 1], n), keys[i]) == Some(Residue(k, n));
  }

  // ---- Without streams: index g has key g mod n ----

  /** The keys of the indices 1 to `m`. */
  function IndexKeys(m: nat, n: nat): seq<nat>
    requires n > 0
  {
    seq(m, i requires 0 <= i < m => Residue(i + 1, n))
  }

  lemma {:induction false} IndexOrder(m: nat, n: nat)
    requires n > 0
    ensures var order := NewKeys(IndexKeys(m, n));
      && |order| == (if m < n then m else n)
      && forall i :: 0 <= i < |order| ==> order[i] == Residue(i + 1, n)
  {
    hide Residue;
    if m > 0 {
      assert Front(IndexKeys(m, n)) == IndexKeys(m - 1, n);
      IndexOrder(m - 1, n);
      var order := NewKeys(IndexKeys(m - 1, n));
      if m <= n {
        forall i | 0 <= i < m - 1 ensures order[i] != Residue(m, n) { KeysDiffer(i + 1, m, n); }
      } else {
        NextResidue(m - 1, n);
        assert order[Residue(m - 1, n)] == Residue(m, n);
      }
    }
  }

  lemma KeysDiffer(i: nat, j: nat, n: nat)
    requires 0 < i < j <= n
    ensures Residue(i, n) != Residue(j, n)
  {
  }

  /** Index g goes to shard (g - 1) mod n, for every g, and any later read of it to the same. */
  lemma IndexShard(g: nat, m: nat, n: nat)
    requires n > 0 && 1 <= g <= m
    ensures ShardAt(IndexKeys(m, n), g - 1, n) == (g - 1) % n
    ensures Find(After(IndexKeys(m, n), n), g % n) == Some((g - 1) % n)
  {
    hide Residue, After, Find, Assign;
    ResidueIs(g - 1, n);
    ResidueIs(g, n);
    var keys := IndexKeys(m, n);
    IndexOrder(m, n);
    var k := if m < n then g - 1 else Residue(g - 1, n);
    NextResidue(g - 1, n);
    ResidueTwice(g - 1, n);
    StreamNeverMoves(keys, g - 1, k, n);
    assert keys[..m] == keys;
  }

  lemma ResidueTwice(x: nat, n: nat)
    requires n > 0
    ensures Residue(Residue(x, n), n) == Residue(x, n)
  {
  }

  /** How many of the indices 1 to `m` go to shard `s`. */
  function Load(m: nat, s: nat, n: nat): nat
    requires n > 0
  {
    if m == 0 then 0 else Load(m - 1, s, n) + if ShardAt(IndexKeys(m, n), m - 1, n) == s then 1 else 0
  }

  lemma {:induction false} LoadExact(m: nat, s: nat, n: nat)
    requires s < n
    ensures Load(m, s, n) == m / n + if s < m % n then 1 else 0
  {
    hide Residue, ShardAt;
    if m > 0 {
      LoadExact(m - 1, s, n);
      IndexShard(m, m, n);
      NextResidue(m - 1, n);
      LoadStep(m, s, n);
    } else {
      DivideUnique(0, n, 0, 0);
    }
  }

  lemma LoadStep(m: nat, s: nat, n: nat)
    requires s < n && m > 0
    ensures m / n + (if s < m % n then 1 else 0) == (m - 1) / n + (if s < (m - 1) % n then 1 else 0) + if (m - 1) % n == s then 1 else 0
  {
    NextResidue(m - 1, n);
    assert Residue(m, n) == m % n && Residue(m - 1, n) == (m - 1) % n;
  }

  /** Hence the loads of two shards differ by at most one. */
  lemma LoadsBalanced(m: nat, s: nat, u: nat, n: nat)
    requires s < n && u < n
    ensures Load(m, s, n) - Load(m, u, n) <= 1
  {
    LoadExact(m, s, n);
    LoadExact(m, u, n);
  }

  // ---- The table in its own form ----

  class ShardMap {
    var shardOf: map<nat, nat>
    var nextAvailableShard: nat

    function Snapshot(): Table
      reads this
    {
      Table(shardOf, nextAvailableShard)
    }

    constructor ()
      ensures Snapshot() == EMPTY
    {
      shardOf, nextAvailableShard := map[], 0;
    }

    /** The shard of an append's key. */
    method Choose(key: nat, shards: nat) returns (shard: nat)
      requires shards > 0
      modifies this
      ensures (shard, Snapshot()) == Assign(old(Snapshot()), key, shards)
    {
      if key in shardOf {
        shard := shardOf[key];
      } else {
        shard := nextAvailableShard;
        shardOf := shardOf[key := nextAvailableShard];
        nextAvailableShard := Residue(nextAvailableShard + 1, shards);
      }
    }

    /** The shards of appends without streams, numbered from 1, are `(g - 1) % shards`; `chosen[g - 1]` is that of `g`. */
    method ChooseForIndices(m: nat, shards: nat) returns (chosen: seq<nat>)
      requires shards > 0 && Snapshot() == EMPTY
      modifies this
      ensures |chosen| == m && forall i :: 0 <= i < m ==> chosen[i] == i % shards
      ensures Snapshot() == After(IndexKeys(m, shards), shards)
    {
      chosen := [];
      for i := 0 to m
        invariant |chosen| == i && forall j :: 0 <= j < i ==> chosen[j] == j % shards
        invariant Snapshot() == After(IndexKeys(i, shards), shards)
      {
        var shard := Choose(Residue(i + 1, shards), shards);
        var keys := IndexKeys(i + 1, shards);
        assert Front(keys) == IndexKeys(i, shards);
        assert keys[..i] == IndexKeys(i, shards);
        IndexShard(i + 1, i + 1, shards);
        chosen := chosen + [shard];
      }
    }
  }
}
