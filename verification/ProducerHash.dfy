/**
 The hash from thread ids to their implicit producers: a chain of open-addressing tables, of which only
 the newest takes new keys. Older tables stay, and a thread that is found in one of them is added to the
 newest. A thread that exits leaves a tombstone in every table that it is in. Calls are atomic here.

 Slots are found by linear probing from the hash of the id, modulo the capacity, a power of two.
 */
module ProducerHash {
  import opened Wrappers
  import opened CircularArithmetic

  type Tid = nat
  type Producer = nat

  datatype Key = Empty | Tombstone | Id(t: Tid)

  datatype Table = Table(keys: seq<Key>, values: seq<Producer>)

  // ---- Tables ----

  /** The slot after `d` steps. */
  function Slot(h: nat, d: nat, capacity: nat): nat
    requires capacity > 0
  {
    (h + d) % capacity
  }

  /** Probing from `h` passes no empty slot before slot `p`. */
  ghost predicate Reaches(keys: seq<Key>, h: nat, p: nat) {
    exists d: nat :: Path(keys, h, d, p)
  }

  ghost predicate Path(keys: seq<Key>, h: nat, d: nat, p: nat) {
    d < |keys| && Slot(h, d, |keys|) == p && forall e: nat :: e < d ==> keys[Slot(h, e, |keys|)] != Empty
  }

  /** The slots that are not empty; a tombstone is not. */
  function Used(keys: seq<Key>): nat {
    if keys == [] then 0 else Used(Front(keys)) + if Last(keys) == Empty then 0 else 1
  }

  function Ids(keys: seq<Key>): set<Tid> {
    set k | k in keys && k.Id? :: k.t
  }

  ghost predicate Unique(keys: seq<Key>) {
    forall p, q :: 0 <= p < q < |keys| && keys[p].Id? ==> keys[p] != keys[q]
  }

  ghost predicate Reachable(keys: seq<Key>, hash: Tid -> nat) {
    forall p :: 0 <= p < |keys| && keys[p].Id? ==> Reaches(keys, hash(keys[p].t), p)
  }

  /** A table has an empty slot, and probing finds each of its ids. */
  ghost predicate TableOk(t: Table, hash: Tid -> nat) {
    |t.keys| == |t.values| && Used(t.keys) < |t.keys| && Unique(t.keys) && Reachable(t.keys, hash)
  }

  ghost predicate ValuesOk(t: Table, owner: map<Tid, Producer>) {
    |t.keys| == |t.values| && forall p :: 0 <= p < |t.keys| && t.keys[p].Id? ==> t.keys[p].t in owner && t.values[p] == owner[t.keys[p].t]
  }

  lemma {:induction false} UsedBound(keys: seq<Key>)
    ensures Used(keys) <= |keys|
    ensures Used(keys) == |keys| <==> forall p :: 0 <= p < |keys| ==> keys[p] != Empty
  {
    if keys != [] { UsedBound(Front(keys)); }
  }

  lemma {:induction false} UsedStored(keys: seq<Key>, p: nat, k: Key)
    requires p < |keys| && k != Empty
    ensures Used(keys[p := k]) == Used(keys) + if keys[p] == Empty then 1 else 0
  {
    if p == |keys| - 1 {
      assert Front(keys[p := k]) == Front(keys);
    } else {
      UsedStored(Front(keys), p, k);
      assert Front(keys[p := k]) == Front(keys)[p := k];
    }
  }

  lemma {:induction false} IdsBound(keys: seq<Key>)
    ensures |Ids(keys)| <= Used(keys)
  {
    if keys == [] {
      assert Ids(keys) == {};
    } else {
      IdsBound(Front(keys));
      assert keys == Front(keys) + [Last(keys)];
      assert Ids(keys) == Ids(Front(keys)) + if Last(keys).Id? then {Last(keys).t} else {};
    }
  }

  /** Every slot is met within `capacity` steps. */
  lemma SlotMet(h: nat, p: nat, capacity: nat) returns (d: nat)
    requires p < capacity
    ensures d < capacity && Slot(h, d, capacity) == p
  {
    d := (p + (capacity - h % capacity)) % capacity;
    var x := p + (capacity - h % capacity);
    assert h == (h / capacity) * capacity + h % capacity;
    assert x == (x / capacity) * capacity + d;
    var q := h / capacity + 1 - x / capacity;
    assert (h / capacity + 1 - x / capacity) * capacity == (h / capacity) * capacity + capacity - (x / capacity) * capacity;
    assert h + d == p + q * capacity;
    DivideUnique(h + d, capacity, q, p);
  }

  /** Hence every probe ends. */
  lemma ProbeEnds(keys: seq<Key>, h: nat)
    requires Used(keys) < |keys|
    ensures exists d: nat :: d < |keys| && keys[Slot(h, d, |keys|)] == Empty
  {
    UsedBound(keys);
    var p :| 0 <= p < |keys| && keys[p] == Empty;
    var d := SlotMet(h, p, |keys|);
    assert keys[Slot(h, d, |keys|)] == Empty;
  }

  /** A probe that ends at an empty slot without meeting the id shows that it is not there. */
  lemma NotThere(keys: seq<Key>, hash: Tid -> nat, id: Tid, d: nat)
    requires Reachable(keys, hash) && d < |keys| && keys[Slot(hash(id), d, |keys|)] == Empty
    requires forall e: nat :: e < d ==> keys[Slot(hash(id), e, |keys|)] != Id(id)
    ensures Id(id) !in keys
  {
  }

  lemma StillReaches(keys: seq<Key>, keys': seq<Key>, h: nat, p: nat)
    requires Reaches(keys, h, p) && |keys'| == |keys| && forall j :: 0 <= j < |keys| && keys[j] != Empty ==> keys'[j] != Empty
    ensures Reaches(keys', h, p)
  {
    var d: nat :| Path(keys, h, d, p);
    forall e: nat | e < d ensures keys'[Slot(h, e, |keys|)] != Empty { assert keys[Slot(h, e, |keys|)] != Empty; }
    assert Path(keys', h, d, p);
  }

  /** An id that is not in the table takes a slot that probing reaches. */
  lemma Placed(t: Table, hash: Tid -> nat, id: Tid, p: nat, x: Producer)
    requires TableOk(t, hash) && p < |t.keys| && !t.keys[p].Id? && Id(id) !in t.keys && Reaches(t.keys, hash(id), p)
    requires Used(t.keys) + (if t.keys[p] == Empty then 1 else 0) < |t.keys|
    ensures TableOk(Table(t.keys[p := Id(id)], t.values[p := x]), hash)
  {
    var keys' := t.keys[p := Id(id)];
    UsedStored(t.keys, p, Id(id));
    forall q | 0 <= q < |keys'| && keys'[q].Id? ensures Reaches(keys', hash(keys'[q].t), q) {
      StillReaches(t.keys, keys', hash(keys'[q].t), q);
    }
  }

  lemma Buried(t: Table, hash: Tid -> nat, p: nat)
    requires TableOk(t, hash) && p < |t.keys| && t.keys[p].Id?
    ensures TableOk(t.(keys := t.keys[p := Tombstone]), hash)
    ensures t.keys[p] !in t.keys[p := Tombstone]
    ensures Ids(t.keys[p := Tombstone]) == Ids(t.keys) - {t.keys[p].t} && Used(t.keys[p := Tombstone]) == Used(t.keys)
  {
    var keys' := t.keys[p := Tombstone];
    UsedStored(t.keys, p, Tombstone);
    forall q | 0 <= q < |keys'| && keys'[q].Id? ensures Reaches(keys', hash(keys'[q].t), q) {
      StillReaches(t.keys, keys', hash(keys'[q].t), q);
    }
    forall k ensures k in Ids(keys') <==> k in Ids(t.keys) - {t.keys[p].t} {
      if k in Ids(t.keys) && k != t.keys[p].t {
        var q :| 0 <= q < |t.keys| && t.keys[q] == Id(k);
        assert keys'[q] == Id(k);
      }
      if Id(k) in keys' {
        var q :| 0 <= q < |keys'| && keys'[q] == Id(k);
        assert t.keys[q] == Id(k);
      }
    }
  }

  lemma PlacedIds(keys: seq<Key>, p: nat, id: Tid)
    requires p < |keys| && !keys[p].Id?
    ensures Ids(keys[p := Id(id)]) == Ids(keys) + {id}
  {
    var keys' := keys[p := Id(id)];
    forall k ensures k in Ids(keys') <==> k in Ids(keys) + {id} {
      if k in Ids(keys) {
        var q :| 0 <= q < |keys| && keys[q] == Id(k);
        assert keys'[q] == Id(k);
      }
      if Id(k) in keys' {
        var q :| 0 <= q < |keys'| && keys'[q] == Id(k);
        if q != p { assert keys[q] == Id(k); }
      }
      assert keys'[p] == Id(id);
    }
  }

  // ---- The chain of tables; the first is the newest ----

  ghost predicate ChainOk(tables: seq<Table>, hash: Tid -> nat) {
    tables != [] && forall k :: 0 <= k < |tables| ==> TableOk(tables[k], hash)
  }

  ghost predicate OwnersOk(tables: seq<Table>, owner: map<Tid, Producer>) {
    && (forall k :: 0 <= k < |tables| ==> ValuesOk(tables[k], owner))
    && (forall t :: t in owner ==> exists k :: 0 <= k < |tables| && Id(t) in tables[k].keys)
  }

  /** The threads that are yet to be added to the newest table. */
  function Waiting(keys: seq<Key>, owner: map<Tid, Producer>): set<Tid> {
    owner.Keys - Ids(keys)
  }

  /** Every used slot of the newest table and every thread that is yet to be added to it is counted, and
      the count leaves half of the table. */
  ghost predicate CountOk(keys: seq<Key>, owner: map<Tid, Producer>, count: nat) {
    Used(keys) + |Waiting(keys, owner)| <= count && (count == 0 || count < |keys| / 2)
  }

  ghost predicate HashOk(tables: seq<Table>, count: nat, owner: map<Tid, Producer>, hash: Tid -> nat) {
    && ChainOk(tables, hash) && OwnersOk(tables, owner)
    && CountOk(tables[0].keys, owner, count) && Distinct(owner)
  }

  /** No two live threads have the same producer. */
  ghost predicate Distinct(owner: map<Tid, Producer>) {
    forall t, u :: t in owner && u in owner && t != u ==> owner[t] != owner[u]
  }

  lemma SmallerWaiting(keys: seq<Key>, keys': seq<Key>, owner: map<Tid, Producer>, id: Tid)
    requires id in owner && id !in Ids(keys) && Ids(keys') == Ids(keys) + {id}
    ensures |Waiting(keys', owner)| == |Waiting(keys, owner)| - 1
  {
    assert Waiting(keys', owner) == Waiting(keys, owner) - {id};
  }

  function Put(t: Table, p: nat, id: Tid, x: Producer): Table
    requires p < |t.keys| == |t.values|
  {
    Table(t.keys[p := Id(id)], t.values[p := x])
  }

  /** A thread found in an older table has room in the newest. */
  lemma MovedCount(keys: seq<Key>, owner: map<Tid, Producer>, count: nat, id: Tid, p: nat)
    requires CountOk(keys, owner, count) && id in owner && Id(id) !in keys && p < |keys| && !keys[p].Id?
    ensures CountOk(keys[p := Id(id)], owner, count) && Used(keys) + 1 < |keys|
  {
    assert id in Waiting(keys, owner);
    hide Used;
    PlacedIds(keys, p, id);
    SmallerWaiting(keys, keys[p := Id(id)], owner, id);
    UsedStored(keys, p, Id(id));
  }

  lemma MovedOk(tables: seq<Table>, count: nat, owner: map<Tid, Producer>, hash: Tid -> nat, id: Tid, p: nat)
    requires HashOk(tables, count, owner, hash) && id in owner && Id(id) !in tables[0].keys
    requires p < |tables[0].keys| && !tables[0].keys[p].Id? && Reaches(tables[0].keys, hash(id), p)
    ensures |tables[0].values| == |tables[0].keys|
    ensures HashOk(tables[0 := Put(tables[0], p, id, owner[id])], count, owner, hash)
  {
    hide Reaches, Distinct, TableOk, OwnersOk, CountOk, ValuesOk;
    TablesEven(tables, hash);
    MovedCount(tables[0].keys, owner, count, id, p);
    Placed(tables[0], hash, id, p, owner[id]);
    OwnersPut(tables, owner, owner, p, id, owner[id]);
  }

  lemma TablesEven(tables: seq<Table>, hash: Tid -> nat)
    requires ChainOk(tables, hash)
    ensures forall k :: 0 <= k < |tables| ==> |tables[k].keys| == |tables[k].values|
  {
  }

  lemma OwnersPut(tables: seq<Table>, owner: map<Tid, Producer>, owner': map<Tid, Producer>, p: nat, id: Tid, x: Producer)
    requires tables != [] && OwnersOk(tables, owner) && p < |tables[0].keys| && !tables[0].keys[p].Id? && |tables[0].keys| == |tables[0].values|
    requires owner' == owner[id := x] && (id in owner ==> owner[id] == x)
    ensures OwnersOk(tables[0 := Put(tables[0], p, id, x)], owner')
  {
    var tables' := tables[0 := Put(tables[0], p, id, x)];
    forall k | 0 <= k < |tables'| ensures ValuesOk(tables'[k], owner') { assert ValuesOk(tables[k], owner); }
    forall t | t in owner' ensures exists k :: 0 <= k < |tables'| && Id(t) in tables'[k].keys {
      if t == id {
        assert tables'[0].keys[p] == Id(id);
      } else {
        var k :| 0 <= k < |tables| && Id(t) in tables[k].keys;
        var q :| 0 <= q < |tables[k].keys| && tables[k].keys[q] == Id(t);
        assert tables'[k].keys[q] == Id(t);
      }
    }
  }

  lemma AddedCount(keys: seq<Key>, owner: map<Tid, Producer>, count: nat, id: Tid, p: nat, x: Producer)
    requires CountOk(keys, owner, count) && id !in owner && p < |keys| && !keys[p].Id? && count + 1 < |keys| / 2
    ensures CountOk(keys[p := Id(id)], owner[id := x], count + if keys[p] == Empty then 1 else 0) && Used(keys) + 1 < |keys|
  {
    hide Used;
    PlacedIds(keys, p, id);
    UsedStored(keys, p, Id(id));
    assert Waiting(keys[p := Id(id)], owner[id := x]) <= Waiting(keys, owner);
    Smaller(Waiting(keys[p := Id(id)], owner[id := x]), Waiting(keys, owner));
  }

  lemma Smaller(a: set<Tid>, b: set<Tid>)
    requires a <= b
    ensures |a| <= |b|
  {
    assert b == a + (b - a);
  }

  lemma AddedOk(tables: seq<Table>, count: nat, owner: map<Tid, Producer>, hash: Tid -> nat, id: Tid, p: nat, x: Producer)
    requires HashOk(tables, count, owner, hash) && id !in owner && x !in owner.Values && count + 1 < |tables[0].keys| / 2
    requires p < |tables[0].keys| && !tables[0].keys[p].Id? && Reaches(tables[0].keys, hash(id), p)
    ensures |tables[0].values| == |tables[0].keys|
    ensures HashOk(tables[0 := Put(tables[0], p, id, x)], count + (if tables[0].keys[p] == Empty then 1 else 0), owner[id := x], hash)
  {
    hide Reaches, TableOk, OwnersOk, CountOk, ValuesOk;
    TablesEven(tables, hash);
    AddedCount(tables[0].keys, owner, count, id, p, x);
    NotOwned(tables, owner, id);
    Placed(tables[0], hash, id, p, x);
    OwnersPut(tables, owner, owner[id := x], p, id, x);
  }

  /** No table has the id of a thread without a producer. */
  lemma NotOwned(tables: seq<Table>, owner: map<Tid, Producer>, id: Tid)
    requires OwnersOk(tables, owner) && id !in owner
    ensures forall k :: 0 <= k < |tables| ==> Id(id) !in tables[k].keys
  {
  }

  lemma GrownCount(keys: seq<Key>, owner: map<Tid, Producer>, count: nat, keys': seq<Key>)
    requires CountOk(keys, owner, count) && count + 1 < |keys'| / 2 && Used(keys') == 0 && Ids(keys') == {}
    ensures CountOk(keys', owner, count)
  {
    IdsBound(keys);
    hide Used, Ids;
    Together(owner.Keys, Ids(keys), Waiting(keys, owner));
    assert Waiting(keys', owner) == owner.Keys;
  }

  lemma OwnersMore(tables: seq<Table>, owner: map<Tid, Producer>, t: Table)
    requires OwnersOk(tables, owner) && ValuesOk(t, owner)
    ensures OwnersOk([t] + tables, owner)
  {
    hide ValuesOk;
    forall u | u in owner ensures exists k :: 0 <= k < |[t] + tables| && Id(u) in ([t] + tables)[k].keys {
      var k :| 0 <= k < |tables| && Id(u) in tables[k].keys;
      var j := k + 1;
      assert ([t] + tables)[j] == tables[k];
    }
  }

  /** The live threads are no more than what is counted, so that a new table has room for all of them. */
  lemma GrownOk(tables: seq<Table>, count: nat, owner: map<Tid, Producer>, hash: Tid -> nat, t: Table)
    requires HashOk(tables, count, owner, hash) && |t.keys| == |t.values| && count + 1 < |t.keys| / 2
    requires forall p :: 0 <= p < |t.keys| ==> t.keys[p] == Empty
    ensures HashOk([t] + tables, count, owner, hash)
  {
    NewTable(t.keys, t.values, hash, owner);
    hide TableOk, OwnersOk, CountOk, ValuesOk, Used, Ids, Distinct;
    GrownCount(tables[0].keys, owner, count, t.keys);
    OwnersMore(tables, owner, t);
  }

  lemma Together(all: set<Tid>, a: set<Tid>, b: set<Tid>)
    requires all <= a + b
    ensures |all| <= |a| + |b|
  {
    assert a + b == a + (b - a);
    assert a + b == all + ((a + b) - all);
    assert b == (b - a) + (b * a);
  }

  // ---- A thread exits ----

  function Less(owner: map<Tid, Producer>, id: Tid): map<Tid, Producer> {
    owner - {id}
  }

  ghost predicate InSome(tables: seq<Table>, t: Tid) {
    exists k :: 0 <= k < |tables| && Id(t) in tables[k].keys
  }

  /** The first `n` tables do not have the id of the exiting thread any more. */
  ghost predicate Exiting(tables: seq<Table>, count: nat, owner: map<Tid, Producer>, hash: Tid -> nat, id: Tid, n: nat) {
    && ChainOk(tables, hash) && CountOk(tables[0].keys, Less(owner, id), count) && n <= |tables|
    && (forall k :: 0 <= k < |tables| ==> ValuesOk(tables[k], owner))
    && (forall t :: t in owner && t != id ==> InSome(tables, t))
    && (forall k :: 0 <= k < n ==> Id(id) !in tables[k].keys)
  }

  lemma ExitCount(keys: seq<Key>, owner: map<Tid, Producer>, count: nat, id: Tid)
    requires CountOk(keys, owner, count)
    ensures CountOk(keys, Less(owner, id), count)
  {
    hide Used, Ids;
    Smaller(Waiting(keys, Less(owner, id)), Waiting(keys, owner));
  }

  lemma ExitStarts(tables: seq<Table>, count: nat, owner: map<Tid, Producer>, hash: Tid -> nat, id: Tid)
    requires HashOk(tables, count, owner, hash)
    ensures Exiting(tables, count, owner, hash, id, 0) && Distinct(owner)
  {
    hide TableOk, ValuesOk, Used, Ids, Distinct, CountOk;
    ExitCount(tables[0].keys, owner, count, id);
    forall t | t in owner && t != id ensures InSome(tables, t) {
      var k :| 0 <= k < |tables| && Id(t) in tables[k].keys;
    }
  }

  lemma BuriedCount(keys: seq<Key>, owner: map<Tid, Producer>, count: nat, id: Tid, keys': seq<Key>)
    requires CountOk(keys, Less(owner, id), count) && Used(keys') == Used(keys) && Ids(keys') == Ids(keys) - {id} && |keys'| == |keys|
    ensures CountOk(keys', Less(owner, id), count)
  {
    assert Waiting(keys', Less(owner, id)) == Waiting(keys, Less(owner, id));
  }

  lemma StillInSome(tables: seq<Table>, n: nat, p: nat, t: Tid)
    requires n < |tables| && p < |tables[n].keys| && tables[n].keys[p] != Id(t) && InSome(tables, t)
    ensures InSome(tables[n := tables[n].(keys := tables[n].keys[p := Tombstone])], t)
  {
    var tables' := tables[n := tables[n].(keys := tables[n].keys[p := Tombstone])];
    var k :| 0 <= k < |tables| && Id(t) in tables[k].keys;
    var q :| 0 <= q < |tables[k].keys| && tables[k].keys[q] == Id(t);
    assert tables'[k].keys[q] == Id(t);
  }

  lemma ValuesBuried(t: Table, owner: map<Tid, Producer>, p: nat)
    requires ValuesOk(t, owner) && p < |t.keys|
    ensures ValuesOk(t.(keys := t.keys[p := Tombstone]), owner)
  {
  }

  lemma BuriedOk(tables: seq<Table>, count: nat, owner: map<Tid, Producer>, hash: Tid -> nat, id: Tid, n: nat, p: nat)
    requires Exiting(tables, count, owner, hash, id, n) && n < |tables| && p < |tables[n].keys| && tables[n].keys[p] == Id(id)
    ensures Exiting(tables[n := tables[n].(keys := tables[n].keys[p := Tombstone])], count, owner, hash, id, n + 1)
  {
    hide TableOk, InSome, CountOk, Used, Ids, ValuesOk;
    var keys' := tables[n].keys[p := Tombstone];
    var tables' := tables[n := tables[n].(keys := keys')];
    Buried(tables[n], hash, p);
    ValuesBuried(tables[n], owner, p);
    if n == 0 { BuriedCount(tables[0].keys, owner, count, id, keys'); }
    forall t | t in owner && t != id ensures InSome(tables', t) { StillInSome(tables, n, p, t); }
  }

  /** A thread that is in no table any more can be forgotten. */
  lemma ExitEnds(tables: seq<Table>, count: nat, owner: map<Tid, Producer>, hash: Tid -> nat, id: Tid)
    requires Exiting(tables, count, owner, hash, id, |tables|) && Distinct(owner)
    ensures HashOk(tables, count, Less(owner, id), hash)
    ensures forall k :: 0 <= k < |tables| ==> Id(id) !in tables[k].keys
  {
    hide TableOk, CountOk, Used, Ids;
    forall k | 0 <= k < |tables| ensures ValuesOk(tables[k], Less(owner, id)) {
      assert ValuesOk(tables[k], owner) && Id(id) !in tables[k].keys;
    }
    forall t | t in Less(owner, id) ensures exists k :: 0 <= k < |tables| && Id(t) in tables[k].keys { assert InSome(tables, t); }
  }

  class ImplicitProducerHash {
    const hash: Tid -> nat
    var tables: seq<Table>
    var count: nat
    ghost var owner: map<Tid, Producer>   // the live threads and their producers

    ghost predicate Valid()
      reads this
    {
      HashOk(tables, count, owner, hash)
    }

    constructor (hash: Tid -> nat, capacity: nat)
      requires capacity > 0
      ensures Valid() && owner == map[] && this.hash == hash
    {
      this.hash, count, owner := hash, 0, map[];
      tables := [Table(seq(capacity, _ => Empty), seq(capacity, _ => 0))];
      new;
      NewTable(seq(capacity, _ => Empty), seq(capacity, _ => 0), hash, map[]);
    }

    /** Probes a table for an id. */
    method Search(t: Table, id: Tid) returns (found: Option<nat>)
      requires TableOk(t, hash)
      ensures found.Some? ==> found.value < |t.keys| && t.keys[found.value] == Id(id)
      ensures found == None ==> Id(id) !in t.keys
    {
      var d, h := 0, hash(id);
      ProbeEnds(t.keys, h);
      while true
        invariant d < |t.keys|
        invariant forall e: nat :: e < d ==> t.keys[Slot(h, e, |t.keys|)] != Empty && t.keys[Slot(h, e, |t.keys|)] != Id(id)
        decreases |t.keys| - d
      {
        var index := Slot(h, d, |t.keys|);
        if t.keys[index] == Id(id) { return Some(index); }
        if t.keys[index] == Empty {
          NotThere(t.keys, hash, id, d);
          return None;
        }
        d := d + 1;
      }
    }

    /** The first slot from the hash of an id that no id is in. */
    method FreeSlot(t: Table, id: Tid) returns (index: nat)
      requires TableOk(t, hash)
      ensures index < |t.keys| && !t.keys[index].Id? && Reaches(t.keys, hash(id), index)
    {
      var d, h := 0, hash(id);
      ProbeEnds(t.keys, h);
      index := Slot(h, d, |t.keys|);
      while t.keys[index].Id?
        invariant d < |t.keys| && index == Slot(h, d, |t.keys|)
        invariant forall e: nat :: e < d ==> t.keys[Slot(h, e, |t.keys|)] != Empty
        decreases |t.keys| - d
      {
        d := d + 1;
        index := Slot(h, d, |t.keys|);
      }
      assert Path(t.keys, h, d, index);
    }

    /** A table with empty slots only, large enough for the count. */
    method NewHash(newCount: nat) returns (t: Table)
      requires Valid()
      ensures |t.keys| == |t.values| && newCount < |t.keys| / 2 && forall p :: 0 <= p < |t.keys| ==> t.keys[p] == Empty
    {
      hide HashOk;
      HashParts(tables, count, owner, hash);
      hide TableOk, ValuesOk;
      var newCapacity := 2 * |tables[0].keys|;
      while newCount >= newCapacity / 2
        invariant newCapacity > 0 && newCapacity % 2 == 0
        decreases 2 * newCount + 2 - newCapacity
      {
        newCapacity := 2 * newCapacity;
      }
      var keys: seq<Key> := [];
      while |keys| < newCapacity
        invariant |keys| <= newCapacity && forall p :: 0 <= p < |keys| ==> keys[p] == Empty
      {
        keys := keys + [Empty];
      }
      t := Table(keys, seq(newCapacity, _ => 0));
    }

    /** The producer of thread `id`: its own if it has one, which no other thread has; otherwise the one that
        is supplied, if there is one and memory for a larger table should it be needed. */
    method GetOrAdd(id: Tid, memory: bool, producer: Option<Producer>) returns (r: Option<Producer>)
      requires Valid() && (producer.Some? ==> producer.value !in owner.Values)
      modifies this
      ensures Valid()
      ensures id in old(owner) ==> r == Some(old(owner)[id]) && owner == old(owner)
      ensures id !in old(owner) ==> owner == (if r.Some? then old(owner)[id := r.value] else old(owner))
      ensures id !in old(owner) && r.Some? ==> r == producer
      ensures id !in old(owner) ==> (r.Some? <==> producer.Some? && (memory || old(count) + 1 < |old(tables)[0].keys| / 2))
    {
      hide HashOk, Reaches;
      for k := 0 to |tables|
        invariant Valid() && owner == old(owner) && tables == old(tables) && count == old(count)
        invariant forall j :: 0 <= j < k ==> Id(id) !in tables[j].keys
      {
        assert TableOk(tables[k], hash) && ValuesOk(tables[k], owner) by { HashParts(tables, count, owner, hash); }
        var found := Search(tables[k], id);
        if found.Some? {
          var value := tables[k].values[found.value];
          if k > 0 {
            assert TableOk(tables[0], hash) by { HashParts(tables, count, owner, hash); }
            var index := FreeSlot(tables[0], id);
            MovedOk(tables, count, owner, hash, id, index);
            tables := tables[0 := Put(tables[0], index, id, value)];
          }
          return Some(value);
        }
      }
      assert id !in owner by { HashParts(tables, count, owner, hash); }
      r := Add(id, memory, producer);
    }

    method Add(id: Tid, memory: bool, producer: Option<Producer>) returns (r: Option<Producer>)
      requires Valid() && (producer.Some? ==> producer.value !in owner.Values) && id !in owner
      modifies this
      ensures Valid() && owner == (if r.Some? then old(owner)[id := r.value] else old(owner))
      ensures r.Some? ==> r == producer
      ensures r.Some? <==> producer.Some? && (memory || old(count) + 1 < |old(tables)[0].keys| / 2)
    {
      hide HashOk, Reaches;
      HashParts(tables, count, owner, hash);
      var newCount := count + 1;
      if newCount >= |tables[0].keys| / 2 {
        if !memory { return None; }
        var t := NewHash(newCount);
        GrownOk(tables, count, owner, hash, t);
        tables := [t] + tables;
        HashParts(tables, count, owner, hash);
      }
      assert newCount < |tables[0].keys| / 2 + |tables[0].keys| / 4;
      if producer == None { return None; }
      var index := FreeSlot(tables[0], id);
      AddedOk(tables, count, owner, hash, id, index, producer.value);
      count := if tables[0].keys[index] == Tombstone then newCount - 1 else newCount;
      tables := tables[0 := Put(tables[0], index, id, producer.value)];
      owner := owner[id := producer.value];
      r := producer;
    }

    /** Buries the id of a thread in every table; its producer can be used again. */
    method ThreadExited(id: Tid)
      requires Valid() && id in owner
      modifies this
      ensures Valid() && owner == old(owner) - {id}
      ensures forall k :: 0 <= k < |tables| ==> Id(id) !in tables[k].keys
    {
      hide HashOk, TableOk, ValuesOk, CountOk, InSome, Exiting, Distinct;
      ExitStarts(tables, count, owner, hash, id);
      for k := 0 to |tables|
        invariant Exiting(tables, count, owner, hash, id, k) && owner == old(owner) && |tables| == |old(tables)|
      {
        ExitingTable(tables, count, owner, hash, id, k);
        var found := Search(tables[k], id);
        if found.Some? {
          BuriedOk(tables, count, owner, hash, id, k, found.value);
          tables := tables[k := tables[k].(keys := tables[k].keys[found.value := Tombstone])];
        } else {
          NotInTable(tables, count, owner, hash, id, k);
        }
      }
      ExitEnds(tables, count, owner, hash, id);
      owner := owner - {id};
    }
  }

  lemma ExitingTable(tables: seq<Table>, count: nat, owner: map<Tid, Producer>, hash: Tid -> nat, id: Tid, n: nat)
    requires Exiting(tables, count, owner, hash, id, n)
    ensures forall k :: 0 <= k < |tables| ==> TableOk(tables[k], hash)
    ensures forall k :: 0 <= k < n <= |tables| ==> Id(id) !in tables[k].keys
  {
  }

  lemma NotInTable(tables: seq<Table>, count: nat, owner: map<Tid, Producer>, hash: Tid -> nat, id: Tid, n: nat)
    requires Exiting(tables, count, owner, hash, id, n) && n < |tables| && Id(id) !in tables[n].keys
    ensures Exiting(tables, count, owner, hash, id, n + 1)
  {
  }

  lemma HashParts(tables: seq<Table>, count: nat, owner: map<Tid, Producer>, hash: Tid -> nat)
    requires HashOk(tables, count, owner, hash)
    ensures tables != [] && (count == 0 || count < |tables[0].keys| / 2) && |tables[0].keys| == |tables[0].values| > 0
    ensures forall k :: 0 <= k < |tables| ==> TableOk(tables[k], hash) && ValuesOk(tables[k], owner)
    ensures forall t :: t in owner ==> exists k :: 0 <= k < |tables| && Id(t) in tables[k].keys
  {
  }

  lemma NewTable(keys: seq<Key>, values: seq<Producer>, hash: Tid -> nat, owner: map<Tid, Producer>)
    requires |keys| == |values| > 0 && forall p :: 0 <= p < |keys| ==> keys[p] == Empty
    ensures TableOk(Table(keys, values), hash) && ValuesOk(Table(keys, values), owner)
    ensures Used(keys) == 0 && Ids(keys) == {}
  {
    NoneUsed(keys);
  }

  lemma {:induction false} NoneUsed(keys: seq<Key>)
    requires forall p :: 0 <= p < |keys| ==> keys[p] == Empty
    ensures Used(keys) == 0
  {
    if keys != [] { NoneUsed(Front(keys)); }
  }
}
