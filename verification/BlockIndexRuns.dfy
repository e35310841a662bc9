/**
 Runs of the block index: the producer's writes, one at a time, mixed in any order with the reads of
 any number of consumers. The producer inserts blocks, singly or in bulk, and undoes them when an
 allocation fails; a consumer looks up the block it has taken an index of, and the last one to leave
 a block removes it.
 */
module BlockIndexRuns {
  import opened Wrappers
  import opened CircularArithmetic
  import opened Blocks
  import opened BlockIndex

  /** What the producer will do next. `e` is the entry it is filling. */
  datatype Producer =
    | Ready
    | StoringKey(e: nat)
    | StoringTail(e: nat)
    | Requisitioning(e: nat)
    | Growing
    | Clearing(e: nat)
    | Undoing(i: nat)
    | Rewinding(i: nat)

  /** How far a consumer is in looking up block number `n`, the first of those up to `last` of which it
      has taken indices; `k` is the header that it loaded. */
  datatype Look =
    | Away
    | Pinned(n: nat, last: nat)
    | Loaded(n: nat, last: nat, k: nat)
    | Tailed(n: nat, last: nat, k: nat, tail: nat)
    | Keyed(n: nat, last: nat, k: nat, tail: nat, key: int)
    | Found(n: nat, last: nat, k: nat, slot: nat)

  /** `published` counts the blocks before the tail index; `chain` is what the current call has inserted. */
  datatype State = State(t: Table, published: nat, chain: seq<Block>, p: Producer, looks: seq<Look>)

  /** `ok` says whether memory or a block was there; `block` and `junk` are what was got. */
  datatype Event =
    | Extend
    | Abort
    | Publish
    | Produce(ok: bool, block: Block, junk: seq<Option<Block>>)
    | Pin(i: nat, n: nat, last: nat)
    | Read(i: nat)
    | Unpin(i: nat)
    | Release(i: nat)

  /**
   In the current header the numbers [lo, hi] have their keys; `hi` exceeds the number at the tail
   after a rewind. `offs` aligns the headers with the numbers and `tops` are the numbers at their
   tails. `live` maps a number to its block, until that is removed.
   */
  datatype View = View(lo: nat, hi: int, offs: seq<int>, tops: seq<int>, live: map<int, Block>)

  // ---- The writes ----

  function Current(t: Table): Header
    requires t.headers != []
  {
    Last(t.headers)
  }

  predicate Sound(t: Table) {
    && t.headers != [] && |t.keys| == |t.values|
    && forall k :: 0 <= k < |t.headers| ==> SoundHeader(t.headers[k], |t.keys|)
  }

  predicate SoundHeader(h: Header, entries: nat) {
    h.tail < |h.index| && forall p :: 0 <= p < |h.index| ==> h.index[p] < entries
  }

  function NextEntry(t: Table): (e: nat)
    requires Sound(t)
    ensures e < |t.keys|
  {
    var h := Current(t);
    h.index[(h.tail + 1) % |h.index|]
  }

  function StoreKey(t: Table, e: nat, key: int): Table
    requires e < |t.keys|
  {
    t.(keys := t.keys[e := key])
  }

  function StoreValue(t: Table, e: nat, x: Option<Block>): Table
    requires e < |t.values|
  {
    t.(values := t.values[e := x])
  }

  function MoveTail(t: Table, d: int): Table
    requires Sound(t)
  {
    var h := Current(t);
    t.(headers := Front(t.headers) + [h.(tail := (h.tail + |h.index| + d) % |h.index|)])
  }

  /** The values of new entries are whatever their memory held. */
  function Grow(t: Table, junk: seq<Option<Block>>): Table
    requires Sound(t) && |junk| == |Current(t).index|
  {
    Table(t.headers + [Doubled(Current(t), |t.keys|)], t.keys + seq(|junk|, _ => INVALID_BLOCK_BASE), t.values + junk)
  }

  /** The producer's own lookup, which nothing can interleave with. */
  function Lookup(t: Table, base: int): (e: nat)
    requires Sound(t)
    ensures e < |t.values|
  {
    var h := Current(t);
    h.index[SlotFor(base, h.tail, t.keys[h.index[h.tail]], |h.index|)]
  }

  // ---- One step ----

  function ProduceStep(s: State, ok: bool, block: Block, junk: seq<Option<Block>>): (r: Option<State>)
    requires Sound(s.t)
  {
    var t := s.t;
    match s.p
    case Ready => None
    case StoringKey(e) =>
      if e >= |t.keys| then None
      else Some(s.(t := StoreKey(t, e, Key(s.published + |s.chain|)), p := StoringTail(e)))
    case StoringTail(e) =>
      Some(s.(t := MoveTail(t, 1), p := Requisitioning(e)))
    case Requisitioning(e) =>
      if !ok then Some(s.(t := MoveTail(t, -1), p := Clearing(e)))
      else if e >= |t.values| then None
      else Some(s.(t := StoreValue(t, e, Some(block)), p := Ready, chain := s.chain + [block]))
    case Growing =>
      if !ok then Some(s.(p := Undoing(0)))
      else if |junk| != |Current(t).index| || !Fits(2 * |Current(t).index|) then None
      else Some(s.(t := Grow(t, junk), p := StoringKey(|t.keys|)))
    case Clearing(e) =>
      if e >= |t.values| then None
      else Some(s.(t := StoreValue(t, e, None), p := Undoing(0)))
    case Undoing(i) =>
      if i >= |s.chain| then Some(s.(p := Ready, chain := []))
      else Some(s.(t := StoreValue(t, Lookup(t, Key(s.published + i)), None), p := Rewinding(i)))
    case Rewinding(i) =>
      Some(s.(t := MoveTail(t, -1), p := Undoing(i + 1)))
  }

  function ReadStep(t: Table, l: Look): Look
    requires Sound(t)
  {
    match l
    case Pinned(n, last) => Loaded(n, last, |t.headers| - 1)
    case Loaded(n, last, k) => if k >= |t.headers| then l else Tailed(n, last, k, t.headers[k].tail)
    case Tailed(n, last, k, tail) =>
      if k >= |t.headers| || tail >= |t.headers[k].index| then l else Keyed(n, last, k, tail, t.keys[t.headers[k].index[tail]])
    case Keyed(n, last, k, tail, key) =>
      if k >= |t.headers| then l else Found(n, last, k, SlotFor(Key(n), tail, key, |t.headers[k].index|))
    case _ => l
  }

  /** A consumer that is done with a block goes on to the next slot of the header that it loaded. */
  function MoveOn(t: Table, l: Look): Look {
    if l.Found? && l.n < l.last && l.k < |t.headers| && t.headers[l.k].index != [] then
      Found(l.n + 1, l.last, l.k, (l.slot + 1) % |t.headers[l.k].index|)
    else Away
  }

  /** No consumer but `i` is still to read block `n`. */
  predicate Alone(looks: seq<Look>, i: nat, n: nat) {
    forall j :: 0 <= j < |looks| && j != i ==> looks[j].Away? || !(looks[j].n <= n <= looks[j].last)
  }

  predicate AllLive(live: map<int, Block>, n: nat, last: nat) {
    n <= last && forall x :: n <= x <= last ==> x in live
  }

  /** What a consumer must have ensured: it pins only blocks that the producer has published and that are in
      the table, and removes a block only when no other is still to read it; the sub-queue's consumers do
      (`ImplicitProducerTheorems.DemandsMet`). */
  predicate Relies(s: State, live: map<int, Block>, e: Event) {
    match e
    case Pin(_, n, last) => AllLive(live, n, last) && last < s.published
    case Release(i) => i < |s.looks| && s.looks[i].Found? ==> Alone(s.looks, i, s.looks[i].n)
    case _ => true
  }

  /** The step itself, which reads the table and the registers only. */
  function Move(s: State, e: Event): (r: Option<State>)
    requires Sound(s.t)
  {
    match e
    case Extend =>
      if s.p != Ready then None
      else
        var x := NextEntry(s.t);
        Some(s.(p := if s.t.keys[x] == INVALID_BLOCK_BASE || s.t.values[x] == None then StoringKey(x) else Growing))
    case Abort => if s.p != Ready then None else Some(s.(p := Undoing(0)))
    case Publish => if s.p != Ready then None else Some(s.(published := s.published + |s.chain|, chain := []))
    case Produce(ok, block, junk) => ProduceStep(s, ok, block, junk)
    case Pin(i, n, last) => if i >= |s.looks| || s.looks[i] != Away then None else Some(s.(looks := s.looks[i := Pinned(n, last)]))
    case Read(i) => if i >= |s.looks| then None else Some(s.(looks := s.looks[i := ReadStep(s.t, s.looks[i])]))
    case Unpin(i) => if i >= |s.looks| || !s.looks[i].Found? then None else Some(s.(looks := s.looks[i := MoveOn(s.t, s.looks[i])]))
    case Release(i) =>
      if i >= |s.looks| || !s.looks[i].Found? then None
      else
        var l := s.looks[i];
        if l.k >= |s.t.headers| || l.slot >= |s.t.headers[l.k].index| then None
        else Some(s.(t := StoreValue(s.t, s.t.headers[l.k].index[l.slot], None), looks := s.looks[i := MoveOn(s.t, l)]))
  }

  /** A step of the index under what it relies on. */
  function Step(s: State, live: map<int, Block>, e: Event): (r: Option<State>)
    requires Sound(s.t)
  {
    if Relies(s, live, e) then Move(s, e) else None
  }

  /** The view after the step. */
  function Advance(s: State, v: View, e: Event): View
    requires Sound(s.t) && v.tops != []
  {
    match e
    case Produce(ok, block, junk) =>
      var top := Last(v.tops);
      (match s.p
       case StoringKey(_) =>
         if top < v.hi then v else Slid(v, |Current(s.t).index|)
       case StoringTail(_) => v.(tops := Front(v.tops) + [top + 1])
       case Requisitioning(_) => if ok then v.(live := v.live[top := block]) else v.(tops := Front(v.tops) + [top - 1])
       case Growing => if ok then v.(offs := v.offs + [0 - v.lo], tops := v.tops + [top]) else v
       case Undoing(i) => if i < |s.chain| then v.(live := v.live - {s.published + i}) else v
       case Rewinding(_) => v.(tops := Front(v.tops) + [top - 1])
       case _ => v)
    case Release(i) => if i < |s.looks| && s.looks[i].Found? then v.(live := v.live - {s.looks[i].n}) else v
    case _ => v
  }

  // ---- The invariant ----

  function Busy(p: Producer, top: int): int {
    match p
    case StoringTail(_) => top + 1
    case Requisitioning(_) => top
    case Clearing(_) => top + 1
    case _ => -1
  }

  /** How many of the call's blocks have been taken back out, and how far the tail is from the last of them. */
  function Undone(p: Producer): nat {
    match p
    case Undoing(i) => i
    case Rewinding(i) => i + 1
    case _ => 0
  }

  function Ahead(p: Producer): int {
    match p
    case Requisitioning(_) => 1
    case Undoing(i) => 0 - i
    case Rewinding(i) => 0 - i
    case _ => 0
  }

  /** The producer's entry is that of the number being inserted, and of the blocks from the tail index on
      exactly those of the call that have not been undone are in the table. */
  ghost predicate PhaseOk(p: Producer, published: nat, chain: seq<Block>, ix: seq<nat>, off: int, v: View)
    requires v.tops != [] && ix != []
  {
    var top, next := Last(v.tops), published + |chain|;
    && top + 1 == next + Ahead(p) && Undone(p) <= |chain|
    && v.lo <= published && v.lo - 1 <= top <= v.hi
    && (p.StoringKey? || p.StoringTail? || p.Requisitioning? || p.Clearing? ==> p.e == Ent(ix, off, next))
    && (p.StoringTail? || p.Clearing? ==> next <= v.hi)
    && (p.StoringKey? && top == v.hi && v.hi + 1 == v.lo + |ix| ==> v.lo !in v.live)
    && (p.Growing? ==> top == v.hi && v.hi + 1 == v.lo + |ix|)
    && (forall n :: n in v.live ==> n < next)
    && ChainOk(published, chain, Undone(p), v.live)
  }

  /** The call's blocks from the `undone`-th on are in the table, in order. */
  ghost predicate ChainOk(published: nat, chain: seq<Block>, undone: nat, live: map<int, Block>) {
    forall i :: 0 <= i < |chain| ==> HasBlock(published + i, Remaining(chain, undone, i), live)
  }

  function Remaining(chain: seq<Block>, undone: nat, i: nat): Option<Block>
    requires i < |chain|
  {
    if i < undone then None else Some(chain[i])
  }

  ghost predicate HasBlock(n: int, b: Option<Block>, live: map<int, Block>) {
    if b.None? then n !in live else n in live && live[n] == b.value
  }

  /** Header `k` holds number `n` in the current entry. */
  ghost predicate Holds(headers: seq<Header>, tops: seq<int>, k: nat, n: int) {
    && k < |headers| == |tops|
    && (k < |headers| - 1 ==> tops[k] - |headers[k].index| < n <= tops[k])
  }

  /** `tail` was the slot of a number `m` with its key, not before `n`. */
  ghost predicate Seen(c: nat, off: int, tail: nat, n: int, m: int) {
    c > 0 && n <= m < n + c && tail == Slot(c, off, m)
  }

  ghost predicate LookOk(l: Look, headers: seq<Header>, offs: seq<int>, tops: seq<int>, lo: nat, hi: int) {
    && |headers| == |offs| == |tops|
    && (!l.Away? ==> lo <= l.n <= l.last <= hi)
    && (!l.Away? && !l.Pinned? ==>
          Holds(headers, tops, l.k, l.n) && headers[l.k].index != [] && (l.k < |headers| - 1 ==> l.last <= tops[l.k]))
    && (l.Tailed? ==> exists m: int :: Seen(|headers[l.k].index|, offs[l.k], l.tail, l.n, m) && m <= hi && (l.k < |headers| - 1 ==> m <= tops[l.k]))
    && (l.Keyed? ==> exists m: int :: Seen(|headers[l.k].index|, offs[l.k], l.tail, l.n, m) && l.key == Key(m))
    && (l.Found? ==> l.slot == Slot(|headers[l.k].index|, offs[l.k], l.n))
  }

  ghost predicate LooksOk(looks: seq<Look>, headers: seq<Header>, offs: seq<int>, tops: seq<int>, lo: nat, hi: int) {
    forall i :: 0 <= i < |looks| ==> LookOk(looks[i], headers, offs, tops, lo, hi)
  }

  /** What a consumer is looking for is in the table. */
  ghost predicate PinOk(l: Look, published: nat, live: map<int, Block>) {
    !l.Away? ==> l.last < published && AllLive(live, l.n, l.last)
  }

  ghost predicate PinsOk(looks: seq<Look>, published: nat, live: map<int, Block>) {
    forall i :: 0 <= i < |looks| ==> PinOk(looks[i], published, live)
  }

  ghost predicate TableOk(t: Table, p: Producer, v: View) {
    && Sound(t) && |t.headers| == |v.offs| == |v.tops| > 0
    && TailsOk(t.headers, v.offs, v.tops, v.hi)
    && SharesOk(t.headers, v.offs, v.tops, v.lo)
    && KeysOk(Last(t.headers).index, Last(v.offs), t.keys, v.lo, v.hi)
    && ValuesOk(Last(t.headers).index, Last(v.offs), t.values, v.lo, v.hi, Busy(p, Last(v.tops)), v.live)
  }

  ghost predicate Inv(s: State, v: View) {
    && TableOk(s.t, s.p, v)
    && PhaseOk(s.p, s.published, s.chain, Last(s.t.headers).index, Last(v.offs), v)
    && LooksOk(s.looks, s.t.headers, v.offs, v.tops, v.lo, v.hi)
    && PinsOk(s.looks, s.published, v.live)
  }

  // ---- Consumers ----

  /** How the producer can change the headers under a reader. */
  ghost predicate Evolves(headers: seq<Header>, offs: seq<int>, tops: seq<int>, lo: nat, hi: int,
                          headers': seq<Header>, offs': seq<int>, tops': seq<int>, lo': nat, hi': int) {
    && |headers| == |offs| == |tops| > 0 && |headers'| == |offs'| == |tops'| >= |headers|
    && lo <= lo' && hi <= hi'
    && (forall k :: 0 <= k < |headers| ==> headers'[k].index == headers[k].index && offs'[k] == offs[k])
    && (forall k :: 0 <= k < |headers| - 1 ==> tops'[k] == tops[k])
    && (|headers'| > |headers| ==> tops'[|headers| - 1] == hi && hi < lo + |Last(headers).index|)
  }

  lemma LookStable(l: Look, headers: seq<Header>, offs: seq<int>, tops: seq<int>, lo: nat, hi: int,
                   headers': seq<Header>, offs': seq<int>, tops': seq<int>, lo': nat, hi': int)
    requires LookOk(l, headers, offs, tops, lo, hi) && Evolves(headers, offs, tops, lo, hi, headers', offs', tops', lo', hi')
    requires l.Away? || lo' <= l.n
    ensures LookOk(l, headers', offs', tops', lo', hi')
  {
  }

  lemma LooksStable(looks: seq<Look>, published: nat, live: map<int, Block>,
                    headers: seq<Header>, offs: seq<int>, tops: seq<int>, lo: nat, hi: int,
                    headers': seq<Header>, offs': seq<int>, tops': seq<int>, lo': nat, hi': int)
    requires LooksOk(looks, headers, offs, tops, lo, hi) && Evolves(headers, offs, tops, lo, hi, headers', offs', tops', lo', hi')
    requires PinsOk(looks, published, live) && forall n :: n in live ==> lo' <= n
    ensures LooksOk(looks, headers', offs', tops', lo', hi')
  {
    hide LookOk, Evolves;
    forall i | 0 <= i < |looks| ensures LookOk(looks[i], headers', offs', tops', lo', hi') {
      assert LookOk(looks[i], headers, offs, tops, lo, hi);
      if !looks[i].Away? { assert PinOk(looks[i], published, live) && looks[i].n in live; }
      LookStable(looks[i], headers, offs, tops, lo, hi, headers', offs', tops', lo', hi');
    }
  }

  /** Each read of a lookup keeps what the reader knows, whatever the producer has done since. */
  lemma ReadKeeps(t: Table, v: View, p: Producer, l: Look)
    requires TableOk(t, p, v) && LookOk(l, t.headers, v.offs, v.tops, v.lo, v.hi)
    requires l.Away? || l.last <= Last(v.tops)
    ensures LookOk(ReadStep(t, l), t.headers, v.offs, v.tops, v.lo, v.hi)
  {
    hide Ent, Slot, Key, SlotFor, Fits, ValuesOk;
    match l
    case Loaded(n, last, k) =>
      assert Seen(|t.headers[k].index|, v.offs[k], t.headers[k].tail, n, v.tops[k]);
    case Tailed(n, last, k, tail) =>
      if tail < |t.headers[k].index| { KeyRead(t, v, p, l); }
    case Keyed(n, last, k, tail, key) =>
      var m: int :| Seen(|t.headers[k].index|, v.offs[k], tail, n, m) && key == Key(m);
      SlotNear(|t.headers[k].index|, v.offs[k], tail, n, m);
    case _ =>
  }

  /** From the slot and the key of a number, a reader finds that of another, before it or after it. */
  lemma SlotNear(c: nat, off: int, tail: nat, n: nat, m: int)
    requires Fits(c) && 0 - c < n - m < c && tail == Slot(c, off, m)
    ensures SlotFor(Key(n), tail, Key(m), c) == Slot(c, off, n)
  {
    SlotExact(n, m, tail, c);
    var q := (off + m) / c;
    assert off + m == q * c + tail;
    ModAdd(tail + (n - m), q, c);
  }

  lemma KeyRead(t: Table, v: View, p: Producer, l: Look)
    requires TableOk(t, p, v) && LookOk(l, t.headers, v.offs, v.tops, v.lo, v.hi)
    requires l.Tailed? && l.tail < |t.headers[l.k].index|
    ensures exists m: int :: Seen(|t.headers[l.k].index|, v.offs[l.k], l.tail, l.n, m) && t.keys[t.headers[l.k].index[l.tail]] == Key(m)
  {
  }

  lemma SameEntry(headers: seq<Header>, offs: seq<int>, tops: seq<int>, lo: nat, k: nat, n: int)
    requires SharesOk(headers, offs, tops, lo) && Holds(headers, tops, k, n) && n >= lo
    ensures Ent(headers[k].index, offs[k], n) == Ent(Last(headers).index, Last(offs), n)
  {
  }

  /** A finished lookup has the right entry: its key is the block's and its value is the block. */
  lemma FoundRight(t: Table, v: View, p: Producer, l: Look)
    requires TableOk(t, p, v) && LookOk(l, t.headers, v.offs, v.tops, v.lo, v.hi)
    requires l.Found? && l.n in v.live
    ensures l.k < |t.headers| && l.slot < |t.headers[l.k].index|
    ensures var e := t.headers[l.k].index[l.slot];
      && e == Ent(Last(t.headers).index, Last(v.offs), l.n)
      && t.keys[e] == Key(l.n) && t.values[e] == Some(v.live[l.n])
  {
    hide Key, Fits;
    SameEntry(t.headers, v.offs, v.tops, v.lo, l.k, l.n);
    hide Slot;
    assert t.headers[l.k].index[l.slot] == Ent(t.headers[l.k].index, v.offs[l.k], l.n);
  }

  // ---- The producer ----

  lemma EvolvesInPlace(headers: seq<Header>, offs: seq<int>, tops: seq<int>, lo: nat, hi: int, tail: nat, top: int)
    requires |headers| == |offs| == |tops| > 0
    ensures Evolves(headers, offs, tops, lo, hi, Front(headers) + [Last(headers).(tail := tail)], offs, Front(tops) + [top], lo, hi)
  {
  }

  /** The number before the tail's, or after it, is in the slot before it, or after. */
  lemma TailMoves(t: Table, p: Producer, v: View, d: int)
    requires TableOk(t, p, v) && (d == 1 || d == -1)
    ensures var h := Last(t.headers);
      (h.tail + |h.index| + d) % |h.index| == Slot(|h.index|, Last(v.offs), Last(v.tops) + d)
  {
    hide KeysOk, ValuesOk, SharesOk, Fits;
    var h, top := Last(t.headers), Last(v.tops);
    assert h == t.headers[|t.headers| - 1] && h.tail == Slot(|h.index|, Last(v.offs), top);
    SlotStep(|h.index|, Last(v.offs), top);
    ModAdd(h.tail + 1, 1, |h.index|);
  }

  lemma MoveTailTable(t: Table, p: Producer, p': Producer, v: View, d: int)
    requires TableOk(t, p, v) && (d == 1 || d == -1) && Last(v.tops) + d <= v.hi
    requires Busy(p', Last(v.tops) + d) == Busy(p, Last(v.tops))
    ensures TableOk(MoveTail(t, d), p', v.(tops := Front(v.tops) + [Last(v.tops) + d]))
  {
    hide KeysOk, ValuesOk, Fits, Slot, Ent;
    TailMoves(t, p, v, d);
    TailStored(t.headers, v.offs, v.tops, v.lo, v.hi, Last(v.tops) + d);
    hide TailsOk, SharesOk;
  }

  lemma MoveTailLooks(s: State, v: View, d: int, top: int)
    requires Inv(s, v)
    ensures LooksOk(s.looks, MoveTail(s.t, d).headers, v.offs, Front(v.tops) + [top], v.lo, v.hi)
  {
  }

  ghost predicate StepKeeps(s: State, v: View, e: Event)
    requires Sound(s.t) && v.tops != []
  {
    var r := Step(s, v.live, e);
    r.Some? ==> Inv(r.value, Advance(s, v, e))
  }

  lemma MoveTailKeeps(s: State, v: View, e: Event)
    requires Inv(s, v) && e.Produce?
    requires s.p.StoringTail? || (s.p.Requisitioning? && !e.ok) || s.p.Rewinding?
    ensures StepKeeps(s, v, e)
  {
    hide LooksOk, PinsOk, SharesOk, Ent, Slot, Fits, TailsOk, KeysOk, ValuesOk;
    var d := if s.p.StoringTail? then 1 else -1;
    var r, v' := Step(s, v.live, e).value, Advance(s, v, e);
    MoveTailTable(s.t, s.p, r.p, v, d);
    MoveTailLooks(s, v, d, Last(v.tops) + d);
    hide TableOk;
    assert Last(r.t.headers).index == Last(s.t.headers).index && v'.live == v.live;
    assert Last(v'.tops) == Last(v.tops) + d;
    hide PhaseOk;
    MoveTailPhase(s.p, r.p, s.published, s.chain, Last(s.t.headers).index, Last(v.offs), v, d);
  }

  lemma MoveTailPhase(p: Producer, p': Producer, published: nat, chain: seq<Block>, ix: seq<nat>, off: int, v: View, d: int)
    requires v.tops != [] && ix != [] && PhaseOk(p, published, chain, ix, off, v)
    requires (d == 1 && p.StoringTail? && p' == Requisitioning(p.e)) || (d == -1 && p.Requisitioning? && p' == Clearing(p.e))
      || (d == -1 && p.Rewinding? && p' == Undoing(p.i + 1))
    ensures PhaseOk(p', published, chain, ix, off, v.(tops := Front(v.tops) + [Last(v.tops) + d]))
  {
  }

  /** The window of keys after one more, when the tail is not rewound. */
  function Slid(v: View, capacity: nat): View {
    v.(hi := v.hi + 1, lo := if v.hi + 1 == v.lo + capacity then v.lo + 1 else v.lo)
  }

  lemma StoreNewKey(t: Table, e: nat, v: View)
    requires TableOk(t, StoringKey(e), v) && Last(v.tops) == v.hi && e == Ent(Last(t.headers).index, Last(v.offs), v.hi + 1)
    requires v.hi + 1 == v.lo + |Last(t.headers).index| ==> v.lo !in v.live
    requires e < |t.keys|
    ensures TableOk(StoreKey(t, e, Key(v.hi + 1)), StoringTail(e), Slid(v, |Last(t.headers).index|))
  {
    hide Ent, Slot, Fits, Key, SharesOk, TailsOk;
    var ix, off := Last(t.headers).index, Last(v.offs);
    StoreKeyHeaders(t.headers, v.offs, v.tops, v.lo, v.hi);
    KeyStored(ix, off, t.keys, v.lo, v.hi);
    assert v.lo - 1 <= v.hi;
    hide KeysOk;
    KeyStoredValues(ix, off, t.values, v.lo, v.hi, v.live);
  }

  /** After a rewind the key is already there. */
  lemma StoreKeyAgain(t: Table, e: nat, v: View)
    requires TableOk(t, StoringKey(e), v) && v.lo - 1 <= Last(v.tops) < v.hi && e == Ent(Last(t.headers).index, Last(v.offs), Last(v.tops) + 1)
    requires e < |t.keys| && Last(v.tops) + 1 !in v.live
    ensures TableOk(StoreKey(t, e, Key(Last(v.tops) + 1)), StoringTail(e), v)
  {
  }

  /** The window never slides past the call's own blocks. */
  lemma WindowFloor(p: Producer, published: nat, chain: seq<Block>, ix: seq<nat>, off: int, v: View)
    requires v.tops != [] && ix != [] && PhaseOk(p, published, chain, ix, off, v) && p.StoringKey?
    requires Last(v.tops) == v.hi && v.hi + 1 == v.lo + |ix|
    ensures v.lo + 1 <= published && v.lo <= Last(v.tops)
  {
    hide Ent;
    if chain != [] { assert HasBlock(published + 0, Remaining(chain, 0, 0), v.live); }
  }

  lemma StoreKeyHeaders(headers: seq<Header>, offs: seq<int>, tops: seq<int>, lo: nat, hi: int)
    requires TailsOk(headers, offs, tops, hi) && SharesOk(headers, offs, tops, lo)
    ensures forall lo': nat, hi': int {:trigger SharesOk(headers, offs, tops, lo'), TailsOk(headers, offs, tops, hi')} ::
      lo <= lo' && hi <= hi' ==> SharesOk(headers, offs, tops, lo') && TailsOk(headers, offs, tops, hi')
  {
  }

  lemma StoreValueTable(t: Table, p: Producer, p': Producer, v: View, n: int, e: nat, x: Option<Block>)
    requires TableOk(t, p, v) && v.lo <= n <= v.hi && e == Ent(Last(t.headers).index, Last(v.offs), n) && e < |t.values|
    requires Busy(p, Last(v.tops)) in {-1, n} && Busy(p', Last(v.tops)) == -1
    ensures TableOk(StoreValue(t, e, x), p', v.(live := if x.Some? then v.live[n := x.value] else v.live - {n}))
  {
    hide Ent, Slot, Fits, Key, SharesOk, TailsOk, KeysOk;
    ValueStored(Last(t.headers).index, Last(v.offs), t.values, v.lo, v.hi, Busy(p, Last(v.tops)), v.live, n, x);
    hide ValuesOk;
  }

  /** A lookup by the producer gives the number's entry, ahead of the tail or behind it. */
  lemma LookupRight(t: Table, p: Producer, v: View, n: int)
    requires TableOk(t, p, v) && v.lo <= n <= v.hi && v.lo <= Last(v.tops)
    ensures Lookup(t, Key(n)) == Ent(Last(t.headers).index, Last(v.offs), n)
  {
    hide Key, SharesOk, ValuesOk, Fits;
    var h, off, top := Last(t.headers), Last(v.offs), Last(v.tops);
    assert h == t.headers[|t.headers| - 1] && h.tail == Slot(|h.index|, off, top) && top <= v.hi;
    hide TailsOk, Slot, SlotFor;
    assert t.keys[Ent(h.index, off, top)] == Key(top);
    SlotNear(|h.index|, off, h.tail, n, top);
  }

  /** A step that leaves the headers and the window alone. */
  lemma SameHeaders(s: State, v: View, s': State, v': View)
    requires LooksOk(s.looks, s.t.headers, v.offs, v.tops, v.lo, v.hi)
    requires s'.looks == s.looks && s'.t.headers == s.t.headers
    requires v'.offs == v.offs && v'.tops == v.tops && v'.lo == v.lo && v'.hi == v.hi
    ensures LooksOk(s'.looks, s'.t.headers, v'.offs, v'.tops, v'.lo, v'.hi)
  {
  }

  lemma StoreKeyKeeps(s: State, v: View, e: Event)
    requires Inv(s, v) && e.Produce? && s.p.StoringKey?
    ensures StepKeeps(s, v, e)
  {
    hide LooksOk, PinsOk, SharesOk, Ent, Slot, Fits, TailsOk, KeysOk, ValuesOk, Key, ChainOk;
    if s.p.e < |s.t.keys| {
      var x, ix, off := s.p.e, Last(s.t.headers).index, Last(v.offs);
      var r, v' := Step(s, v.live, e).value, Advance(s, v, e);
      if Last(v.tops) < v.hi {
        StoreKeyAgain(s.t, x, v);
        hide TableOk, PinsOk;
        assert r.t.headers == s.t.headers;
      } else {
        if v.hi + 1 == v.lo + |ix| { WindowFloor(s.p, s.published, s.chain, ix, off, v); }
        StoreNewKey(s.t, x, v);
        StoreKeyLooks(s, v, v', |ix|);
      }
      assert r.looks == s.looks;
    }
  }

  lemma StoreKeyLooks(s: State, v: View, v': View, c: nat)
    requires Inv(s, v) && v' == Slid(v, c) && (v.hi + 1 == v.lo + c ==> v.lo !in v.live)
    ensures LooksOk(s.looks, s.t.headers, v'.offs, v'.tops, v'.lo, v'.hi)
  {
  }

  lemma StoreValueKeeps(s: State, v: View, e: Event)
    requires Inv(s, v) && e.Produce? && ((s.p.Requisitioning? && e.ok) || s.p.Clearing?)
    ensures StepKeeps(s, v, e)
  {
    hide LooksOk, SharesOk, Ent, Slot, Fits, TailsOk, KeysOk, ValuesOk, Key;
    if s.p.e < |s.t.values| {
      var n := s.published + |s.chain|;
      var r, v' := Step(s, v.live, e).value, Advance(s, v, e);
      StoreValueTable(s.t, s.p, r.p, v, n, s.p.e, if s.p.Clearing? then None else Some(e.block));
      assert n !in v.live;
      assert v.live - {n} == v.live;
      assert TableOk(r.t, r.p, v');
      hide TableOk;
      forall i | 0 <= i < |r.chain| ensures HasBlock(r.published + i, Remaining(r.chain, 0, i), v'.live) {
        if i < |s.chain| { assert HasBlock(s.published + i, Remaining(s.chain, 0, i), v.live); }
      }
    }
  }

  lemma LiveRange(t: Table, p: Producer, v: View)
    requires TableOk(t, p, v)
    ensures forall n :: n in v.live ==> v.lo <= n <= v.hi
  {
  }

  /** The rollback's lookup finds the block that it is taking back. */
  lemma UndoRight(s: State, v: View)
    requires Inv(s, v) && s.p.Undoing? && s.p.i < |s.chain|
    ensures var n := s.published + s.p.i;
      && v.lo <= n <= v.hi && n in v.live && v.live[n] == s.chain[s.p.i]
      && Lookup(s.t, Key(n)) == Ent(Last(s.t.headers).index, Last(v.offs), n)
  {
    hide LooksOk, SharesOk, Ent, Slot, Fits, TailsOk, KeysOk, ValuesOk, Key, SlotFor, Lookup;
    var n := s.published + s.p.i;
    assert HasBlock(n, Remaining(s.chain, s.p.i, s.p.i), v.live);
    LiveRange(s.t, s.p, v);
    LookupRight(s.t, s.p, v, n);
  }

  lemma UndoKeeps(s: State, v: View, e: Event)
    requires Inv(s, v) && e.Produce? && s.p.Undoing? && s.p.i < |s.chain|
    ensures StepKeeps(s, v, e)
  {
    hide LooksOk, SharesOk, Ent, Slot, Fits, TailsOk, KeysOk, ValuesOk, Key, Lookup;
    var r, v' := Step(s, v.live, e).value, Advance(s, v, e);
    UndoRight(s, v);
    var n := s.published + s.p.i;
    StoreValueTable(s.t, s.p, r.p, v, n, Lookup(s.t, Key(n)), None);
    hide TableOk;
    UndoChain(s.published, s.chain, s.p.i, v.live);
  }

  lemma UndoChain(published: nat, chain: seq<Block>, i: nat, live: map<int, Block>)
    requires ChainOk(published, chain, i, live)
    ensures ChainOk(published, chain, i + 1, live - {published + i})
  {
    var k := i + 1;
    forall j | 0 <= j < |chain| ensures HasBlock(published + j, Remaining(chain, k, j), live - {published + i}) {
      assert HasBlock(published + j, Remaining(chain, i, j), live);
    }
  }

  lemma UndoEnds(s: State, v: View, e: Event)
    requires Inv(s, v) && e.Produce? && s.p.Undoing? && s.p.i >= |s.chain|
    ensures StepKeeps(s, v, e)
  {
    hide LooksOk, SharesOk, Ent, Slot, Fits, TailsOk, KeysOk, ValuesOk, Key;
    var r := Step(s, v.live, e).value;
    assert TableOk(r.t, r.p, v);
    hide TableOk;
    forall n | s.published <= n < s.published + |s.chain| ensures n !in v.live {
      assert HasBlock(n, Remaining(s.chain, s.p.i, n - s.published), v.live);
    }
  }

  // ---- Growing ----

  lemma GrowTable(t: Table, v: View, junk: seq<Option<Block>>)
    requires TableOk(t, Growing, v) && Last(v.tops) == v.hi && v.hi + 1 == v.lo + |Last(t.headers).index|
    requires |junk| == |Current(t).index| && Fits(2 * |Current(t).index|)
    ensures TableOk(Grow(t, junk), StoringKey(|t.keys|), v.(offs := v.offs + [0 - v.lo], tops := v.tops + [v.hi]))
  {
    hide Slot, Ent, Fits, KeysOk, ValuesOk, SharesOk, Doubled;
    var h := Last(t.headers);
    assert h == t.headers[|t.headers| - 1] && h.tail == Slot(|h.index|, Last(v.offs), v.hi);
    DoubledTails(t.headers, v.offs, v.tops, v.lo, v.hi, |t.keys|);
    hide TailsOk;
    DoubledShares(t.headers, v.offs, v.tops, v.lo, v.hi, |t.keys|);
    DoubledKeys(h, Last(v.offs), t.keys, v.lo, v.hi);
    DoubledValues(h, Last(v.offs), t.values, junk, v.lo, v.hi, v.live);
    GrowSound(t, junk);
  }

  lemma GrowSound(t: Table, junk: seq<Option<Block>>)
    requires Sound(t) && |junk| == |Current(t).index|
    ensures Sound(Grow(t, junk))
  {
  }

  /** The entry that the new table gives to the next number is unused. */
  lemma GrowEntry(t: Table, v: View, junk: seq<Option<Block>>)
    requires TableOk(t, Growing, v) && Last(v.tops) == v.hi && v.hi + 1 == v.lo + |Last(t.headers).index|
    requires |junk| == |Current(t).index|
    ensures NextEntry(Grow(t, junk)) == |t.keys| == Ent(Last(Grow(t, junk).headers).index, 0 - v.lo, v.hi + 1)
    ensures Grow(t, junk).keys[|t.keys|] == INVALID_BLOCK_BASE
  {
    hide KeysOk, ValuesOk, SharesOk, Fits;
    var h := Last(t.headers);
    assert h == t.headers[|t.headers| - 1] && h.tail == Slot(|h.index|, Last(v.offs), v.hi);
    DoubledEnt(h, |t.keys|, Last(v.offs), v.lo, v.hi, v.hi + 1);
    GrowSound(t, junk);
    assert |h.index| % (2 * |h.index|) == |h.index| by { DivideUnique(|h.index|, 2 * |h.index|, 0, |h.index|); }
  }

  lemma GrowLooks(s: State, v: View, headers': seq<Header>)
    requires Inv(s, v) && Last(v.tops) == v.hi && |headers'| == |s.t.headers| + 1 && headers'[..|s.t.headers|] == s.t.headers
    ensures LooksOk(s.looks, headers', v.offs + [0 - v.lo], v.tops + [v.hi], v.lo, v.hi)
  {
    hide LooksOk, PhaseOk, PinsOk, Fits, Ent, Slot, SharesOk, TailsOk;
    assert v.hi < v.lo + |Last(s.t.headers).index|;
    forall k | 0 <= k < |s.t.headers| ensures headers'[k].index == s.t.headers[k].index {
      assert headers'[k] == headers'[..|s.t.headers|][k];
    }
    assert Evolves(s.t.headers, v.offs, v.tops, v.lo, v.hi, headers', v.offs + [0 - v.lo], v.tops + [v.hi], v.lo, v.hi);
    LiveRange(s.t, s.p, v);
    hide Evolves, TableOk;
    LooksStable(s.looks, s.published, v.live, s.t.headers, v.offs, v.tops, v.lo, v.hi,
                headers', v.offs + [0 - v.lo], v.tops + [v.hi], v.lo, v.hi);
  }

  lemma GrowKeeps(s: State, v: View, e: Event)
    requires Inv(s, v) && e.Produce? && s.p.Growing?
    ensures StepKeeps(s, v, e)
  {
    hide LooksOk, PinsOk, SharesOk, Ent, Slot, Fits, TailsOk, KeysOk, ValuesOk, Key, ChainOk, Doubled;
    var h := Current(s.t);
    if e.ok && |e.junk| == |h.index| && Fits(2 * |h.index|) {
      GrowTable(s.t, v, e.junk);
      GrowLooks(s, v, Grow(s.t, e.junk).headers);
      GrowEntry(s.t, v, e.junk);
      hide TableOk;
      assert Last(v.tops + [v.hi]) == v.hi && Last(v.offs + [0 - v.lo]) == 0 - v.lo;
    } else if !e.ok {
      assert TableOk(s.t, Undoing(0), v);
    }
  }

  // ---- The other events ----

  lemma ExtendKeeps(s: State, v: View, e: Event)
    requires Inv(s, v) && e.Extend? && s.p.Ready?
    ensures StepKeeps(s, v, e)
  {
    hide LooksOk, PinsOk, SharesOk, Ent, Slot, Fits, TailsOk, KeysOk, ValuesOk, Key, ChainOk;
    var x, ix, off, top := NextEntry(s.t), Last(s.t.headers).index, Last(v.offs), Last(v.tops);
    TailMoves(s.t, s.p, v, 1);
    NextIs(s.t, s.p, v);
    if s.t.keys[x] == INVALID_BLOCK_BASE || s.t.values[x] == None {
      if top == v.hi && v.hi + 1 == v.lo + |ix| { UsableSlot(ix, off, s.t.keys, s.t.values, v.lo, v.hi, v.live); }
      assert TableOk(s.t, StoringKey(x), v);
    } else {
      UnusableSlot(ix, off, s.t.keys, s.t.values, v.lo, v.hi, v.live, top);
      assert TableOk(s.t, Growing, v);
    }
  }

  lemma NextIs(t: Table, p: Producer, v: View)
    requires TableOk(t, p, v)
    ensures NextEntry(t) == Ent(Last(t.headers).index, Last(v.offs), Last(v.tops) + 1)
  {
    hide SharesOk, Slot, Fits, TailsOk, KeysOk, ValuesOk;
    TailMoves(t, p, v, 1);
    ModAdd(Last(t.headers).tail + 1, 1, |Last(t.headers).index|);
  }

  lemma PublishKeeps(s: State, v: View, e: Event)
    requires Inv(s, v) && (e.Publish? || e.Abort?) && s.p.Ready?
    ensures StepKeeps(s, v, e)
  {
    hide LooksOk, SharesOk, Ent, Slot, Fits, TailsOk, KeysOk, ValuesOk, Key;
    var r := Step(s, v.live, e).value;
    assert TableOk(r.t, r.p, v);
  }

  lemma ReadsKeep(s: State, v: View, e: Event)
    requires Inv(s, v) && (e.Pin? || e.Unpin? || e.Read?)
    ensures StepKeeps(s, v, e)
  {
    hide SharesOk, Ent, Slot, Fits, TailsOk, KeysOk, ValuesOk, Key, PhaseOk, LookOk, SlotFor, AllLive, LooksOk, PinsOk, ReadStep, MoveOn;
    if Step(s, v.live, e).Some? {
      LookChanges(s, v, e);
      LooksStored(s, v, e.i, Step(s, v.live, e).value.looks[e.i]);
    }
  }

  lemma LooksStored(s: State, v: View, i: nat, l: Look)
    requires LooksOk(s.looks, s.t.headers, v.offs, v.tops, v.lo, v.hi) && PinsOk(s.looks, s.published, v.live) && i < |s.looks|
    requires LookOk(l, s.t.headers, v.offs, v.tops, v.lo, v.hi) && PinOk(l, s.published, v.live)
    ensures LooksOk(s.looks[i := l], s.t.headers, v.offs, v.tops, v.lo, v.hi) && PinsOk(s.looks[i := l], s.published, v.live)
  {
  }

  lemma LookChanges(s: State, v: View, e: Event)
    requires Inv(s, v) && (e.Pin? || e.Unpin? || e.Read?)
    requires Step(s, v.live, e).Some?
    ensures e.i < |s.looks|
    ensures var l := Step(s, v.live, e).value.looks[e.i];
      LookOk(l, s.t.headers, v.offs, v.tops, v.lo, v.hi) && PinOk(l, s.published, v.live)
  {
    hide SharesOk, Ent, Slot, Fits, TailsOk, KeysOk, ValuesOk, Key, SlotFor, ChainOk, PhaseOk;
    LiveRange(s.t, s.p, v);
    assert LookOk(s.looks[e.i], s.t.headers, v.offs, v.tops, v.lo, v.hi);
    if e.Read? && !s.looks[e.i].Away? {
      TopPublished(s, v);
      ReadKeeps(s.t, v, s.p, s.looks[e.i]);
    }
    if e.Unpin? { MoveOnOk(s.t, v, s.looks[e.i]); }
    if e.Pin? { assert e.n in v.live && e.last in v.live; } else { assert PinOk(s.looks[e.i], s.published, v.live); }
  }

  /** The next slot of the header that a consumer loaded, however old, is that of the next block. */
  lemma MoveOnOk(t: Table, v: View, l: Look)
    requires LookOk(l, t.headers, v.offs, v.tops, v.lo, v.hi) && l.Found? && t.headers != []
    ensures LookOk(MoveOn(t, l), t.headers, v.offs, v.tops, v.lo, v.hi)
  {
    hide Key, Seen;
    if l.n < l.last { SlotStep(|t.headers[l.k].index|, v.offs[l.k], l.n); }
    hide Slot;
  }

  /** The tail is never before a published block. */
  lemma TopPublished(s: State, v: View)
    requires Inv(s, v)
    ensures s.published - 1 <= Last(v.tops)
  {
  }

  /** Removing a block takes the right value out, in the middle of whatever the producer is doing. */
  lemma ReleaseKeeps(s: State, v: View, e: Event)
    requires Inv(s, v) && e.Release?
    ensures StepKeeps(s, v, e)
  {
    hide SharesOk, Ent, Slot, Fits, TailsOk, KeysOk, Key, SlotFor, ChainOk, ValuesOk, LookOk, Alone, AllLive;
    if Step(s, v.live, e).Some? {
      var r, v' := Step(s, v.live, e).value, Advance(s, v, e);
      var l := s.looks[e.i];
      assert LookOk(l, s.t.headers, v.offs, v.tops, v.lo, v.hi);
      PinnedLive(s.looks, s.published, v.live, e.i);
      FoundRight(s.t, v, s.p, l);
      OtherValueStored(Last(s.t.headers).index, Last(v.offs), s.t.values, v.lo, v.hi, Busy(s.p, Last(v.tops)), v.live, l.n);
      assert TableOk(r.t, r.p, v');
      MoveOnOk(s.t, v, l);
      ReleaseLooks(s, v, e.i, MoveOn(s.t, l));
      ReleaseChain(s.published, s.chain, Undone(s.p), v.live, l.n);
    }
  }

  lemma PinnedLive(looks: seq<Look>, published: nat, live: map<int, Block>, i: nat)
    requires PinsOk(looks, published, live) && i < |looks| && !looks[i].Away?
    ensures looks[i].n in live && looks[i].n < published
  {
  }

  lemma ReleaseChain(published: nat, chain: seq<Block>, undone: nat, live: map<int, Block>, n: nat)
    requires ChainOk(published, chain, undone, live) && n < published
    ensures ChainOk(published, chain, undone, live - {n})
  {
  }

  lemma ReleaseLooks(s: State, v: View, i: nat, l: Look)
    requires LooksOk(s.looks, s.t.headers, v.offs, v.tops, v.lo, v.hi) && PinsOk(s.looks, s.published, v.live)
    requires i < |s.looks| && s.looks[i].Found? && Alone(s.looks, i, s.looks[i].n) && l == MoveOn(s.t, s.looks[i])
    requires LookOk(l, s.t.headers, v.offs, v.tops, v.lo, v.hi)
    ensures LooksOk(s.looks[i := l], s.t.headers, v.offs, v.tops, v.lo, v.hi)
    ensures PinsOk(s.looks[i := l], s.published, v.live - {s.looks[i].n})
  {
  }

  // ---- Runs ----

  lemma EventKeepsInv(s: State, v: View, e: Event)
    requires Inv(s, v)
    ensures StepKeeps(s, v, e)
  {
    hide TableOk, PhaseOk, LooksOk, PinsOk;
    match e
    case Extend => if s.p.Ready? { ExtendKeeps(s, v, e); }
    case Abort => if s.p.Ready? { PublishKeeps(s, v, e); }
    case Publish => if s.p.Ready? { PublishKeeps(s, v, e); }
    case Pin(_, _, _) => ReadsKeep(s, v, e);
    case Read(_) => ReadsKeep(s, v, e);
    case Unpin(_) => ReadsKeep(s, v, e);
    case Release(_) => ReleaseKeeps(s, v, e);
    case Produce(ok, _, _) =>
      match s.p
      case Ready =>
      case StoringKey(_) => StoreKeyKeeps(s, v, e);
      case StoringTail(_) => MoveTailKeeps(s, v, e);
      case Requisitioning(_) => if ok { StoreValueKeeps(s, v, e); } else { MoveTailKeeps(s, v, e); }
      case Growing => GrowKeeps(s, v, e);
      case Clearing(_) => StoreValueKeeps(s, v, e);
      case Undoing(i) => if i < |s.chain| { UndoKeeps(s, v, e); } else { UndoEnds(s, v, e); }
      case Rewinding(_) => MoveTailKeeps(s, v, e);
  }

  /** A new index: `capacity` unused entries, with the tail before the first of them. */
  function NewTable(capacity: nat, junk: seq<Option<Block>>): Table
    requires capacity > 0
  {
    Table([Header(seq(capacity, i => i), capacity - 1)], seq(capacity, _ => INVALID_BLOCK_BASE), junk)
  }

  ghost predicate Start(s: State, v: View) {
    && (exists capacity: nat, junk: seq<Option<Block>> :: IsNew(s.t, capacity, junk))
    && s.published == 0 && s.chain == [] && s.p == Ready && (forall i :: 0 <= i < |s.looks| ==> s.looks[i] == Away)
    && v == View(0, -1, [0], [-1], map[])
  }

  ghost predicate IsNew(t: Table, capacity: nat, junk: seq<Option<Block>>) {
    Fits(capacity) && |junk| == capacity && t == NewTable(capacity, junk)
  }

  ghost predicate Leads(r: State, u: View, e: Event, s: State, v: View) {
    Sound(r.t) && u.tops != [] && Step(r, u.live, e) == Some(s) && Advance(r, u, e) == v
  }

  ghost predicate Traces(es: seq<Event>, s: State, v: View) {
    if es == [] then Start(s, v)
    else exists r: State, u: View :: Leads(r, u, Last(es), s, v) && Traces(Front(es), r, u)
  }

  lemma StartInv(s: State, v: View)
    requires Start(s, v)
    ensures Inv(s, v)
  {
    var capacity: nat, junk: seq<Option<Block>> :| IsNew(s.t, capacity, junk);
    hide Fits;
    var h := Last(s.t.headers);
    assert Slot(capacity, 0, -1) == capacity - 1 by { DivideUnique(-1, capacity, -1, capacity - 1); }
    assert SoundHeader(h, capacity);
    forall j: int | 0 <= j < capacity ensures Ent(h.index, 0, j) == j { DivideUnique(j, capacity, 0, j); }
  }

  lemma {:induction false} TracedInv(es: seq<Event>, s: State, v: View)
    requires Traces(es, s, v)
    ensures Inv(s, v)
  {
    hide Inv, Start, Step, Advance;
    if es == [] {
      StartInv(s, v);
    } else {
      var r: State, u: View :| Leads(r, u, Last(es), s, v) && Traces(Front(es), r, u);
      TracedInv(Front(es), r, u);
      EventKeepsInv(r, u, Last(es));
    }
  }

  /** A consumer's lookup ends at the entry that holds its block, whatever has wrapped around, doubled,
      been rewound or been removed since it began, and however old the header that it loaded. */
  lemma LookupFindsBlock(es: seq<Event>, s: State, v: View, i: nat)
    requires Traces(es, s, v) && i < |s.looks| && s.looks[i].Found?
    ensures var l := s.looks[i];
      && l.k < |s.t.headers| && l.slot < |s.t.headers[l.k].index|
      && var e := s.t.headers[l.k].index[l.slot];
      && e < |s.t.keys| == |s.t.values|
      && l.n in v.live && s.t.keys[e] == Key(l.n) && s.t.values[e] == Some(v.live[l.n])
  {
    hide Traces, PhaseOk, SharesOk, KeysOk, ValuesOk, TailsOk, LookOk;
    TracedInv(es, s, v);
    assert LookOk(s.looks[i], s.t.headers, v.offs, v.tops, v.lo, v.hi);
    FoundRight(s.t, v, s.p, s.looks[i]);
    assert SoundHeader(s.t.headers[s.looks[i].k], |s.t.keys|);
  }

  /** The key at the tail that a lookup starts from is never that of an unused entry. */
  lemma TailKeyValid(es: seq<Event>, s: State, v: View, i: nat)
    requires Traces(es, s, v) && i < |s.looks| && s.looks[i].Keyed?
    ensures s.looks[i].key != INVALID_BLOCK_BASE
  {
    hide Traces, PhaseOk, SharesOk, KeysOk, ValuesOk, TailsOk, Key, Seen;
    TracedInv(es, s, v);
    assert LookOk(s.looks[i], s.t.headers, v.offs, v.tops, v.lo, v.hi);
    var l := s.looks[i];
    var m: int :| Seen(|s.t.headers[l.k].index|, v.offs[l.k], l.tail, l.n, m) && l.key == Key(m);
    KeyValid(m);
  }

  /** Every lookup of a failed bulk insertion's rollback hits the entry of the very block that it must
      take back, although the tail has moved back below it meanwhile. */
  lemma RollbackHits(es: seq<Event>, s: State, v: View)
    requires Traces(es, s, v) && s.p.Undoing? && s.p.i < |s.chain|
    ensures Sound(s.t)
    ensures var e := Lookup(s.t, Key(s.published + s.p.i));
      s.t.keys[e] == Key(s.published + s.p.i) && s.t.values[e] == Some(s.chain[s.p.i])
  {
    hide Traces, Inv, Lookup, Key;
    TracedInv(es, s, v);
    UndoEntry(s, v);
  }

  lemma UndoEntry(s: State, v: View)
    requires Inv(s, v) && s.p.Undoing? && s.p.i < |s.chain|
    ensures Sound(s.t)
    ensures var e := Lookup(s.t, Key(s.published + s.p.i));
      s.t.keys[e] == Key(s.published + s.p.i) && s.t.values[e] == Some(s.chain[s.p.i])
  {
    hide LooksOk, PinsOk, PhaseOk, SharesOk, Ent, Fits, TailsOk, KeysOk, ValuesOk, Key, Lookup;
    UndoRight(s, v);
    EntryHolds(s.t, s.p, v, s.published + s.p.i);
  }

  lemma EntryHolds(t: Table, p: Producer, v: View, n: int)
    requires TableOk(t, p, v) && n in v.live
    ensures var e := Ent(Last(t.headers).index, Last(v.offs), n);
      e < |t.keys| == |t.values| && t.keys[e] == Key(n) && t.values[e] == Some(v.live[n])
  {
  }

  /** Between calls, after success or failure, the tail is at the last published block, no other block
      is in the table, and what a rewind left behind is free. */
  lemma AtRest(es: seq<Event>, s: State, v: View)
    requires Traces(es, s, v) && s.p == Ready && s.chain == []
    ensures Sound(s.t) && v.tops != [] && v.offs != []
    ensures var h := Current(s.t);
      && h.tail == Slot(|h.index|, Last(v.offs), s.published - 1)
      && (s.published - 1 >= v.lo ==> s.t.keys[h.index[h.tail]] == Key(s.published - 1))
      && (forall n :: n in v.live ==> n < s.published)
      && (forall n :: s.published <= n <= v.hi ==> s.t.values[Ent(h.index, Last(v.offs), n)] == None)
  {
    hide Traces, LooksOk, SharesOk, PinsOk, Key, Fits;
    TracedInv(es, s, v);
    var h := Last(s.t.headers);
    assert h == s.t.headers[|s.t.headers| - 1] && h.tail == Slot(|h.index|, Last(v.offs), Last(v.tops));
    assert h.index[h.tail] == Ent(h.index, Last(v.offs), s.published - 1);
  }

  /** When the table has doubled, the slot after its tail is unused, as the insertion goes on to assert. */
  lemma GrownSlotUnused(es: seq<Event>, s: State, v: View, e: Event)
    requires Traces(es, s, v) && s.p.Growing? && e.Produce? && e.ok && Sound(s.t) && Step(s, v.live, e).Some?
    ensures var t := Step(s, v.live, e).value.t;
      && Sound(t) && t.keys[NextEntry(t)] == INVALID_BLOCK_BASE
      && Current(t).index != [] && |Current(t).index| == 2 * |Current(s.t).index|
      && t.headers[..|s.t.headers|] == s.t.headers
  {
    hide Traces, LooksOk, SharesOk, PinsOk, Key, Fits, TailsOk, KeysOk, ValuesOk, Doubled, ChainOk;
    TracedInv(es, s, v);
    GrowEntry(s.t, v, e.junk);
    GrowSound(s.t, e.junk);
  }

  // ---- Every call ends ----

  function Stage(l: Look): nat {
    match l
    case Away => 0
    case Pinned(_, _) => 1
    case Loaded(_, _, _) => 2
    case Tailed(_, _, _, _) => 3
    case Keyed(_, _, _, _, _) => 4
    case Found(_, _, _, _) => 5
  }

  /** In every run, each read of a lookup goes on to the next, so that a lookup has found its entry after four. */
  lemma ReadsAdvance(es: seq<Event>, s: State, v: View, i: nat)
    requires Traces(es, s, v) && i < |s.looks| && !s.looks[i].Away? && !s.looks[i].Found?
    ensures Sound(s.t) && Step(s, v.live, Read(i)).Some?
    ensures Stage(Step(s, v.live, Read(i)).value.looks[i]) == Stage(s.looks[i]) + 1
  {
    hide Traces, PhaseOk, SharesOk, KeysOk, ValuesOk, TailsOk, Key, SlotFor;
    TracedInv(es, s, v);
    assert LookOk(s.looks[i], s.t.headers, v.offs, v.tops, v.lo, v.hi);
  }

  /** The accesses that the producer has at most to go, before the next insertion or the end of its call. */
  function ToGo(p: Producer, n: nat): int {
    match p
    case Ready => 0
    case Undoing(i) => 1 + if i < n then 2 * (n - i) else 0
    case Rewinding(i) => if i < n then 2 * (n - i) else 2
    case Clearing(_) => 2 * n + 2
    case Requisitioning(_) => 2 * n + 3
    case StoringTail(_) => 2 * n + 4
    case StoringKey(_) => 2 * n + 5
    case Growing => 2 * n + 6
  }

  lemma ProducerAdvances(s: State, live: map<int, Block>, e: Event)
    requires Sound(s.t) && e.Produce? && Step(s, live, e).Some? && (s.p.Rewinding? ==> s.p.i < |s.chain|)
    ensures var s' := Step(s, live, e).value; 0 <= ToGo(s'.p, |s'.chain|) < ToGo(s.p, |s.chain|)
  {
    hide Sound;
  }
}
