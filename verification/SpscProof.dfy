/** Every access of producer and consumer keeps the queue's invariant. */
module SpscProof {
  import opened Wrappers
  import opened CircularArithmetic
  import opened SpscQueue

  // ---- Wrapped indices ----

  lemma SameWrapped(x: int, y: int, n: int)
    requires n > 0 && y <= x <= y + n
    ensures x % n == y % n <==> x == y || x == y + n
  {
    if x % n == y % n {
      assert x == (x / n) * n + x % n && y == (y / n) * n + y % n;
      assert x - y == (x / n - y / n) * n;
      if x < y + n { SmallMultiple(x / n - y / n, n); }
    } else if x == y + n {
      ModAdd(y, 1, n);
    }
  }

  lemma NextWrapped(x: int, n: int)
    requires n > 0
    ensures (x % n + 1) % n == (x + 1) % n
  {
    var q := x / n;
    assert x == q * n + x % n;
    ModAdd(x % n + 1, q, n);
  }

  /** What the stored indices tell about the counts. */
  lemma Tests(b: Block, c: Count)
    requires Good(b, c)
    ensures SoundBlock(b)
    ensures b.front == b.tail <==> c.f == c.t
    ensures b.front == b.localTail <==> c.f == c.lt
    ensures Next(b.tail, b) == b.localFront <==> c.t + 1 == c.lf + |b.data|
    ensures Next(b.tail, b) == b.front <==> c.t + 1 == c.f + |b.data|
  {
    var n := |b.data|;
    SameWrapped(c.t, c.f, n);
    SameWrapped(c.lt, c.f, n);
    NextWrapped(c.t, n);
    SameWrapped(c.t + 1, c.lf, n);
    if c.t + 1 <= c.f + n { SameWrapped(c.t + 1, c.f, n); }
  }

  // ---- One block ----

  /** The cell that is written holds no item of the queue. */
  lemma Write(b: Block, c: Count, log: seq<Item>, x: Item)
    requires Good(b, c) && Holds(b.data, c, log) && c.t + 1 <= c.lf + |b.data|
    ensures b.tail < |b.data|
    ensures var b' := b.(data := b.data[b.tail := x]); Good(b', c) && Holds(b'.data, c, log) && CellIs(b', c.t, x)
  {
    var data := b.data[b.tail := x];
    forall j | c.f <= j < c.t ensures Has(data, c.off, log, j) {
      assert Has(b.data, c.off, log, j);
      SameWrapped(c.t, j, |b.data|);
    }
  }

  lemma RaiseGood(b: Block, c: Count)
    requires Good(b, c) && HasRoom(c, b)
    ensures |b.data| > 0 && Good(b.(tail := Next(b.tail, b)), c.(t := c.t + 1))
  {
    NextWrapped(c.t, |b.data|);
  }

  lemma Raise(b: Block, c: Count, log: seq<Item>, x: Item)
    requires Good(b, c) && Holds(b.data, c, log) && HasRoom(c, b) && CellIs(b, c.t, x) && c.off + c.t == |log|
    ensures |b.data| > 0
    ensures var b', c' := b.(tail := Next(b.tail, b)), c.(t := c.t + 1); Good(b', c') && Holds(b'.data, c', log + [x])
  {
    RaiseGood(b, c);
    var log' := log + [x];
    forall j | c.f <= j < c.t + 1 ensures Has(b.data, c.off, log', j) {
      if j < c.t { assert Has(b.data, c.off, log, j); }
    }
  }

  lemma CopyFront(b: Block, c: Count, off': int)
    requires Good(b, c)
    ensures Good(b.(localFront := b.front), c.(lf := c.f, off := off'))
  {
  }

  lemma CopyTail(b: Block, c: Count)
    requires Good(b, c)
    ensures Good(b.(localTail := b.tail), c.(lt := c.t))
  {
  }

  lemma HoldsSame(data: seq<Item>, c: Count, c': Count, log: seq<Item>)
    requires Holds(data, c, log) && SameSpan(c, c')
    ensures Holds(data, c', log)
  {
  }

  lemma Take(b: Block, c: Count, log: seq<Item>)
    requires Good(b, c) && c.f < c.lt && Holds(b.data, c, log)
    ensures b.front < |b.data| && 0 <= c.off + c.f < |log| && b.data[b.front] == log[c.off + c.f]
    ensures Good(b.(front := Next(b.front, b)), c.(f := c.f + 1)) && Holds(b.data, c.(f := c.f + 1), log)
  {
    NextWrapped(c.f, |b.data|);
    assert Has(b.data, c.off, log, c.f);
    forall j | c.f + 1 <= j < c.t ensures Has(b.data, c.off, log, j) { }
  }

  // ---- One block changes ----

  /** The copies of indices that each side keeps for itself do not matter to the contents. */
  predicate SameSpan(c: Count, c': Count) {
    c'.f == c.f && c'.t == c.t && c'.off == c.off
  }

  lemma ChainSame(ring: seq<Id>, cnt: map<Id, Count>, k: nat, pending: Option<Id>, removed: nat, length: nat, id: Id, c': Count)
    requires ChainOk(ring, cnt, k, pending, removed, length) && id in cnt && SameSpan(cnt[id], c')
    ensures ChainOk(ring, cnt[id := c'], k, pending, removed, length)
  {
    var cnt' := cnt[id := c'];
    forall i | 0 < i <= k ensures Follows(ring, cnt', i) { assert Follows(ring, cnt, i); }
  }

  lemma ChainRaised(ring: seq<Id>, next: map<Id, Id>, cnt: map<Id, Count>, k: nat, front: Id, tail: Id, removed: nat, length: nat, c': Count)
    requires ChainOk(ring, cnt, k, None, removed, length) && RingOk(ring, next, front, tail, k)
    requires var c := cnt[tail]; c' == c.(t := c.t + 1) && c.f <= c.t
    ensures ChainOk(ring, cnt[tail := c'], k, None, removed, length + 1)
  {
    hide Following;
    var cnt' := cnt[tail := c'];
    forall i | 0 < i <= k ensures Follows(ring, cnt', i) { assert Follows(ring, cnt, i); }
  }

  lemma ChainTaken(ring: seq<Id>, next: map<Id, Id>, cnt: map<Id, Count>, k: nat, front: Id, tail: Id, pending: Option<Id>, removed: nat, length: nat, c': Count)
    requires ChainOk(ring, cnt, k, pending, removed, length) && RingOk(ring, next, front, tail, k)
    requires var c := cnt[front]; c' == c.(f := c.f + 1) && c.f < c.t
    ensures ChainOk(ring, cnt[front := c'], k, pending, removed + 1, length)
  {
    hide Following;
    var cnt' := cnt[front := c'];
    forall i | 0 < i <= k ensures Follows(ring, cnt', i) { assert Follows(ring, cnt, i); }
  }

  lemma FullStored(ring: seq<Id>, cnt: map<Id, Count>, blocks: map<Id, Block>, k: nat, i: nat, id: Id, b': Block, c': Count)
    requires FullOk(ring, cnt, blocks, k) && i < |ring| && ring[i] == id && id in cnt && id in blocks
    requires forall i, j :: 0 <= i < j < |ring| ==> ring[i] != ring[j]
    requires 0 < i <= k ==> Untouched(c', |b'.data|, i < k)
    ensures FullOk(ring, cnt[id := c'], blocks[id := b'], k)
  {
  }

  lemma DataStored(ring: seq<Id>, cnt: map<Id, Count>, blocks: map<Id, Block>, k: nat, log: seq<Item>, i: nat, id: Id, b': Block, c': Count, more: seq<Item>)
    requires DataOk(ring, cnt, blocks, k, log) && i < |ring| && ring[i] == id && id in cnt && id in blocks
    requires forall i, j :: 0 <= i < j < |ring| ==> ring[i] != ring[j]
    requires i <= k ==> Holds(b'.data, c', log + more)
    ensures DataOk(ring, cnt[id := c'], blocks[id := b'], k, log + more)
  {
    var cnt', blocks' := cnt[id := c'], blocks[id := b'];
    forall j | 0 <= j <= k < |ring| && ring[j] in cnt' && ring[j] in blocks' ensures Holds(blocks'[ring[j]].data, cnt'[ring[j]], log + more) {
      if j != i { HoldsStill(blocks[ring[j]].data, cnt[ring[j]], log, more); }
    }
  }

  lemma HoldsStill(data: seq<Item>, c: Count, log: seq<Item>, more: seq<Item>)
    requires Holds(data, c, log)
    ensures Holds(data, c, log + more)
  {
    var log' := log + more;
    forall j | c.f <= j < c.t ensures Has(data, c.off, log', j) { assert Has(data, c.off, log, j); }
  }

  /** What the producer does to the tail block or to one beyond it does not concern the consumer. */
  lemma ConsumerStored(q: Consumer, c: Count, c1: Count, ring: seq<Id>, k: nat, cnt: map<Id, Count>, log: seq<Item>, out: seq<Item>, wasEmpty: bool, id: Id, c': Count, more: seq<Item>)
    requires k < |ring| && ConsumerOk(q, c, ring, k, cnt, log, out, wasEmpty)
    requires id in cnt ==> c'.f == cnt[id].f && c'.lt == cnt[id].lt
    requires c1.f == c.f && c1.lt == c.lt && (k > 0 ==> c1.t == c.t)
    ensures ConsumerOk(q, c1, ring, k, cnt[id := c'], log + more, out, wasEmpty)
  {
  }

  /** What the consumer does to its front block, or to its copy of a tail, does not concern the producer. */
  lemma ProducerStored(p: Producer, b: Block, c: Count, b1: Block, c1: Count, blocks: map<Id, Block>, next: map<Id, Id>, ring: seq<Id>, k: nat, cnt: map<Id, Count>, length: nat, i: nat, id: Id, b': Block, c': Count)
    requires k < |ring| && ProducerOk(p, b, c, blocks, next, ring, k, cnt, length)
    requires i <= k && ring[i] == id && id in cnt && id in blocks
    requires c1.t == c.t && c1.lf == c.lf && b1.data == b.data
    requires forall i, j :: 0 <= i < j < |ring| ==> ring[i] != ring[j]
    ensures ProducerOk(p, b1, c1, blocks[id := b'], next, ring, k, cnt[id := c'], length)
  {
  }

  lemma GoodStored(blocks: map<Id, Block>, cnt: map<Id, Count>, id: Id, b: Block, c: Count)
    requires BlocksOk(blocks, cnt) && Good(b, c)
    ensures BlocksOk(blocks[id := b], cnt[id := c])
  {
  }

  /** Where the front block and the tail block are. */
  lemma Ends(s: State, a: Aux)
    requires Inv(s, a)
    ensures a.k < |a.ring| && a.ring[0] == s.frontBlock && a.ring[a.k] == s.tailBlock
    ensures s.frontBlock in s.blocks && s.frontBlock in a.cnt && Good(s.blocks[s.frontBlock], a.cnt[s.frontBlock])
    ensures s.tailBlock in s.blocks && s.tailBlock in a.cnt && Good(s.blocks[s.tailBlock], a.cnt[s.tailBlock])
    ensures s.frontBlock == s.tailBlock <==> a.k == 0
  {
    hide Good, FullOk, DataOk, ProducerOk, ConsumerOk;
  }

  lemma InvSound(s: State, a: Aux)
    requires Inv(s, a)
    ensures Sound(s)
  {
    hide ChainOk, FullOk, DataOk;
    Ends(s, a);
    forall b | b in s.blocks ensures SoundBlock(s.blocks[b]) { Tests(s.blocks[b], a.cnt[b]); }
    hide Good;
    assert forall i :: 0 <= i < |a.ring| ==> a.ring[i] in s.next;
  }

  // ---- The producer, in the tail block ----

  ghost predicate StepKeeps(s: State, a: Aux, e: Event)
  {
    Sound(s) && Enabled(s, e) && Inv(Apply(s, e), AuxApply(s, a, e))
  }

  /** What a change in the tail block must establish. */
  lemma TailStep(s: State, a: Aux, b': Block, c': Count, more: seq<Item>, p': Producer)
    requires Inv(s, a) && s.tailBlock in s.blocks && s.tailBlock in a.cnt
    requires Good(b', c') && Holds(b'.data, c', a.log + more) && Pending(s.prod) == None == Pending(p')
    requires var c := a.cnt[s.tailBlock]; c'.f == c.f && c'.lt == c.lt && (a.k > 0 ==> c'.f == c'.lf)
    requires ChainOk(a.ring, a.cnt[s.tailBlock := c'], a.k, None, |a.out|, |a.log + more|)
    requires ProducerOk(p', b', c', s.blocks[s.tailBlock := b'], s.next, a.ring, a.k, a.cnt[s.tailBlock := c'], |a.log + more|)
    ensures Inv(s.(blocks := s.blocks[s.tailBlock := b'], prod := p'), a.(cnt := a.cnt[s.tailBlock := c'], log := a.log + more))
  {
    hide Good, ChainOk, FullOk, DataOk, ConsumerOk, ProducerOk, Holds;
    assert s.frontBlock in a.cnt;
    hide BlocksOk;
    var t := s.tailBlock;
    GoodStored(s.blocks, a.cnt, t, b', c');
    FullStored(a.ring, a.cnt, s.blocks, a.k, a.k, t, b', c');
    DataStored(a.ring, a.cnt, s.blocks, a.k, a.log, a.k, t, b', c', more);
    ConsumerStored(s.cons, a.cnt[s.frontBlock], a.cnt[t := c'][s.frontBlock], a.ring, a.k, a.cnt, a.log, a.out, a.wasEmpty, t, c', more);
    assert s.blocks[t := b'].Keys == s.blocks.Keys;
  }

  /** What the invariant says of the tail block. */
  lemma TailFacts(s: State, a: Aux)
    requires Inv(s, a) && s.tailBlock in s.blocks && s.tailBlock in a.cnt
    ensures var b, c := s.blocks[s.tailBlock], a.cnt[s.tailBlock];
      && Holds(b.data, c, a.log) && c.off + c.t == |a.log| && c.f <= c.t < c.f + |b.data| && (a.k > 0 ==> c.f == c.lf)
  {
    hide ConsumerOk, ProducerOk, Holds;
  }

  lemma SeenFree(s: State, a: Aux, seen: int)
    requires Inv(s, a)
    ensures Inv(s, a.(seen := seen))
  {
  }

  lemma CheckingKeeps(s: State, a: Aux, m: Option<(Id, Item)>)
    requires Inv(s, a) && Sound(s) && s.prod.Checking?
    ensures StepKeeps(s, a, Produce(m))
  {
    hide BlocksOk, ChainOk, FullOk, DataOk, ConsumerOk, RingOk, Good, Holds, Next;
    Ends(s, a);
    TailFacts(s, a);
    var t := s.tailBlock;
    var b, c := s.blocks[t], a.cnt[t];
    Tests(b, c);
    CopyFront(b, c, c.off);
    HoldsSame(b.data, c, c.(lf := c.f), a.log);
    var b', c' := b.(localFront := b.front), c.(lf := c.f);
    ChainSame(a.ring, a.cnt, a.k, None, |a.out|, |a.log|, t, c');
    HoldsStill(b'.data, c', a.log, []);
    assert a.log + [] == a.log;
    TailStep(s, a, b', c', [], if Next(b.tail, b) != b.front then Writing(s.prod.x) else Stuck(s.prod.x, s.prod.alloc));
    SeenFree(Apply(s, Produce(m)), a.(cnt := a.cnt[t := c']), |a.log| - |a.out|);
    hide Inv;
  }

  lemma WritingKeeps(s: State, a: Aux, m: Option<(Id, Item)>)
    requires Inv(s, a) && Sound(s) && s.prod.Writing?
    ensures StepKeeps(s, a, Produce(m))
  {
    hide BlocksOk, ChainOk, FullOk, DataOk, ConsumerOk, RingOk, Good, Holds, CellIs, Next;
    Ends(s, a);
    TailFacts(s, a);
    var t := s.tailBlock;
    var b, c := s.blocks[t], a.cnt[t];
    Write(b, c, a.log, s.prod.x);
    var b' := b.(data := b.data[b.tail := s.prod.x]);
    assert a.log + [] == a.log && a.cnt[t := c] == a.cnt;
    TailStep(s, a, b', c, [], Apply(s, Produce(m)).prod);
    hide Inv;
  }

  lemma RaisingFacts(s: State, a: Aux)
    requires Inv(s, a) && s.prod.Raising? && s.tailBlock in s.blocks && s.tailBlock in a.cnt
    ensures var b, c := s.blocks[s.tailBlock], a.cnt[s.tailBlock];
      && HasRoom(c, b) && CellIs(b, c.t, s.prod.x)
      && ChainOk(a.ring, a.cnt[s.tailBlock := c.(t := c.t + 1)], a.k, None, |a.out|, |a.log| + 1)
  {
    hide BlocksOk, ChainOk, FullOk, DataOk, ConsumerOk, Good, Holds, CellIs, RingOk;
    TailFacts(s, a);
    var c := a.cnt[s.tailBlock];
    ChainRaised(a.ring, s.next, a.cnt, a.k, s.frontBlock, s.tailBlock, |a.out|, |a.log|, c.(t := c.t + 1));
  }

  lemma RaisingKeeps(s: State, a: Aux, m: Option<(Id, Item)>)
    requires Inv(s, a) && Sound(s) && s.prod.Raising?
    ensures StepKeeps(s, a, Produce(m))
  {
    hide Inv, BlocksOk, ChainOk, FullOk, DataOk, ConsumerOk, Good, Holds, CellIs, Next, RingOk;
    Ends(s, a);
    TailFacts(s, a);
    RaisingFacts(s, a);
    var b, c := s.blocks[s.tailBlock], a.cnt[s.tailBlock];
    Raise(b, c, a.log, s.prod.x);
    TailStep(s, a, b.(tail := Next(b.tail, b)), c.(t := c.t + 1), [s.prod.x], Returned(true));
  }

  /** The block after the tail block is the front block only if the tail block is the last of the ring. */
  lemma TailNext(s: State, a: Aux)
    requires Inv(s, a) && s.tailBlock in s.next
    ensures s.next[s.tailBlock] == Following(a.ring, a.k)
    ensures s.next[s.tailBlock] != s.frontBlock ==> IsNext(s.next[s.tailBlock], a.ring, a.k)
    ensures s.next[s.tailBlock] == s.frontBlock ==> a.k + 1 == |a.ring|
  {
    hide Good, BlocksOk, ChainOk, FullOk, DataOk, ConsumerOk, ProducerOk;
  }

  lemma ProducerTurns(s: State, a: Aux, p': Producer)
    requires Inv(s, a) && Pending(s.prod) == None == Pending(p')
    requires ProducerOk(p', s.blocks[s.tailBlock], a.cnt[s.tailBlock], s.blocks, s.next, a.ring, a.k, a.cnt, |a.log|)
    ensures Inv(s.(prod := p'), a)
  {
    hide Good, BlocksOk, ChainOk, FullOk, DataOk, ConsumerOk, Holds, ProducerOk, RingOk;
  }

  lemma StuckKeeps(s: State, a: Aux, m: Option<(Id, Item)>)
    requires Inv(s, a) && Sound(s) && (s.prod.Stuck? || s.prod.Returned? || (s.prod.Making? && m == None))
    ensures StepKeeps(s, a, Produce(m))
  {
    hide Good, BlocksOk, ChainOk, FullOk, DataOk, ConsumerOk, Holds, RingOk;
    Ends(s, a);
    TailNext(s, a);
    assert ProducerOk(Apply(s, Produce(m)).prod, s.blocks[s.tailBlock], a.cnt[s.tailBlock], s.blocks, s.next, a.ring, a.k, a.cnt, |a.log|);
    hide ProducerOk;
    ProducerTurns(s, a, Apply(s, Produce(m)).prod);
    hide Inv;
  }

  // ---- The producer, in the next block ----

  /** What a change in a block beyond the tail must establish. */
  lemma AheadStep(s: State, a: Aux, nb: Id, b': Block, c': Count, p': Producer)
    requires Inv(s, a) && IsNext(nb, a.ring, a.k) && nb in s.blocks && nb in a.cnt && Pending(s.prod) == None
    requires Good(b', c') && c'.f == a.cnt[nb].f && c'.lt == a.cnt[nb].lt
    requires ChainOk(a.ring, a.cnt[nb := c'], a.k, Pending(p'), |a.out|, |a.log|)
    requires ProducerOk(p', s.blocks[s.tailBlock], a.cnt[s.tailBlock], s.blocks[nb := b'], s.next, a.ring, a.k, a.cnt[nb := c'], |a.log|)
    ensures Inv(s.(blocks := s.blocks[nb := b'], prod := p'), a.(cnt := a.cnt[nb := c']))
  {
    hide Good, ChainOk, FullOk, DataOk, ConsumerOk, ProducerOk, Holds;
    assert s.frontBlock in a.cnt;
    hide BlocksOk;
    GoodStored(s.blocks, a.cnt, nb, b', c');
    FullStored(a.ring, a.cnt, s.blocks, a.k, a.k + 1, nb, b', c');
    DataStored(a.ring, a.cnt, s.blocks, a.k, a.log, a.k + 1, nb, b', c', []);
    ConsumerStored(s.cons, a.cnt[s.frontBlock], a.cnt[s.frontBlock], a.ring, a.k, a.cnt, a.log, a.out, a.wasEmpty, nb, c', []);
    assert a.log + [] == a.log;
    assert s.blocks[nb := b'].Keys == s.blocks.Keys;
  }

  lemma ChainAhead(ring: seq<Id>, next: map<Id, Id>, front: Id, tail: Id, cnt: map<Id, Count>, k: nat, removed: nat, length: nat, nb: Id, c': Count, pending: Option<Id>)
    requires ChainOk(ring, cnt, k, None, removed, length) && IsNext(nb, ring, k) && RingOk(ring, next, front, tail, k)
    requires c'.f == c'.t || pending == Some(nb)
    ensures ChainOk(ring, cnt[nb := c'], k, pending, removed, length)
  {
    hide Following;
    var cnt' := cnt[nb := c'];
    forall i | 0 < i <= k ensures Follows(ring, cnt', i) { assert Follows(ring, cnt, i); }
  }

  /** A block beyond the tail is empty. */
  lemma AheadFacts(s: State, a: Aux, nb: Id)
    requires Inv(s, a) && IsNext(nb, a.ring, a.k) && Pending(s.prod) == None
    ensures nb in s.blocks && nb in a.cnt && Good(s.blocks[nb], a.cnt[nb]) && a.cnt[nb].f == a.cnt[nb].t
    ensures nb != a.ring[a.k] && nb != a.ring[0]
  {
    hide Good, ConsumerOk, ProducerOk, Holds, FullOk, DataOk;
  }

  lemma EnteringKeeps(s: State, a: Aux, m: Option<(Id, Item)>)
    requires Inv(s, a) && Sound(s) && s.prod.Entering?
    ensures s.prod.nb in s.blocks && s.blocks[s.prod.nb].front == s.blocks[s.prod.nb].tail
    ensures StepKeeps(s, a, Produce(m))
  {
    hide BlocksOk, ChainOk, FullOk, DataOk, ConsumerOk, RingOk, Next;
    var nb := s.prod.nb;
    Ends(s, a);
    AheadFacts(s, a, nb);
    var b, c := s.blocks[nb], a.cnt[nb];
    var b', c' := b.(localFront := b.front), c.(lf := c.f, off := |a.log| - c.f);
    ChainAhead(a.ring, s.next, s.frontBlock, s.tailBlock, a.cnt, a.k, |a.out|, |a.log|, nb, c', None);
    AheadStep(s, a, nb, b', c', Filling(s.prod.x, nb));
    hide Inv;
  }

  lemma FillingKeeps(s: State, a: Aux, m: Option<(Id, Item)>)
    requires Inv(s, a) && Sound(s) && s.prod.Filling?
    ensures StepKeeps(s, a, Produce(m))
  {
    hide BlocksOk, ChainOk, FullOk, DataOk, ConsumerOk, RingOk, Next;
    var nb := s.prod.nb;
    Ends(s, a);
    AheadFacts(s, a, nb);
    var b, c := s.blocks[nb], a.cnt[nb];
    var b' := b.(data := b.data[b.tail := s.prod.x]);
    assert a.cnt[nb := c] == a.cnt;
    AheadStep(s, a, nb, b', c, Storing(s.prod.x, nb));
    hide Inv;
  }

  lemma AheadRoom(s: State, a: Aux)
    requires Inv(s, a) && s.prod.Storing?
    ensures s.prod.nb in s.blocks && s.prod.nb in a.cnt && HasRoom(a.cnt[s.prod.nb], s.blocks[s.prod.nb])
  {
    hide ChainOk, FullOk, DataOk, ConsumerOk, RingOk, Next, CellIs;
  }

  lemma StoringKeeps(s: State, a: Aux, m: Option<(Id, Item)>)
    requires Inv(s, a) && Sound(s) && s.prod.Storing?
    ensures StepKeeps(s, a, Produce(m))
  {
    hide BlocksOk, ChainOk, FullOk, DataOk, ConsumerOk, RingOk, Next;
    var nb := s.prod.nb;
    Ends(s, a);
    AheadFacts(s, a, nb);
    var b, c := s.blocks[nb], a.cnt[nb];
    assert HasRoom(c, b) by { AheadRoom(s, a); }
    RaiseGood(b, c);
    var b', c' := b.(tail := Next(b.tail, b)), c.(t := c.t + 1);
    ChainAhead(a.ring, s.next, s.frontBlock, s.tailBlock, a.cnt, a.k, |a.out|, |a.log|, nb, c', Some(nb));
    AheadStep(s, a, nb, b', c', Moving(s.prod.x, nb));
    hide Inv;
  }

  // ---- The producer makes a block and moves on to it ----

  /** A block that is not in the ring yet does not matter. */
  lemma Outside(s: State, a: Aux, id: Id, b': Block, c': Count, n': Id)
    requires RingOk(a.ring, s.next, s.frontBlock, s.tailBlock, a.k) && id !in a.ring
    requires ChainOk(a.ring, a.cnt, a.k, None, |a.out|, |a.log|) && FullOk(a.ring, a.cnt, s.blocks, a.k) && DataOk(a.ring, a.cnt, s.blocks, a.k, a.log)
    ensures RingOk(a.ring, s.next[id := n'], s.frontBlock, s.tailBlock, a.k)
    ensures ChainOk(a.ring, a.cnt[id := c'], a.k, Some(id), |a.out|, |a.log|)
    ensures FullOk(a.ring, a.cnt[id := c'], s.blocks[id := b'], a.k) && DataOk(a.ring, a.cnt[id := c'], s.blocks[id := b'], a.k, a.log)
  {
    hide Untouched, Holds, Following;
    var cnt' := a.cnt[id := c'];
    forall i | 0 < i <= a.k ensures Follows(a.ring, cnt', i) { assert Follows(a.ring, a.cnt, i); }
  }

  lemma RingInside(s: State, a: Aux)
    requires Inv(s, a)
    ensures forall b :: b in a.ring ==> b in s.blocks
  {
    hide Good, BlocksOk, ChainOk, FullOk, DataOk, ConsumerOk, Holds, ProducerOk, Following;
  }

  lemma NewGood(data: seq<Item>, off: int)
    requires |data| >= 2
    ensures Good(Block(0, 1, 1, 0, data), Count(0, 1, 0, 1, off))
  {
  }

  /** What a new block must be like. */
  lemma AddStep(s: State, a: Aux, id: Id, b': Block, c': Count, x: Item, largest: nat)
    requires Inv(s, a) && s.prod.Making? && id !in s.blocks && s.tailBlock in s.next && largest >= 2
    requires Good(b', c') && PendingOk(b', c', |a.log|, x)
    ensures Inv(s.(blocks := s.blocks[id := b'], next := s.next[id := s.next[s.tailBlock]], largest := largest, prod := Linking(x, id)),
                a.(cnt := a.cnt[id := c']))
  {
    hide BlocksOk, ChainOk, FullOk, DataOk, ConsumerOk, Good, Holds, PendingOk, Following;
    RingInside(s, a);
    TailNext(s, a);
    CountKeys(s, a);
    Outside(s, a, id, b', c', s.next[s.tailBlock]);
    hide RingOk;
    GoodStored(s.blocks, a.cnt, id, b', c');
    ConsumerStored(s.cons, a.cnt[s.frontBlock], a.cnt[s.frontBlock], a.ring, a.k, a.cnt, a.log, a.out, a.wasEmpty, id, c', []);
    assert a.log + [] == a.log;
  }

  lemma MakingKeeps(s: State, a: Aux, id: Id, junk: Item)
    requires Inv(s, a) && Sound(s) && s.prod.Making? && id !in s.blocks
    ensures StepKeeps(s, a, Produce(Some((id, junk))))
  {
    hide BlocksOk, ChainOk, FullOk, DataOk, ConsumerOk, Good, Holds, RingOk, ProducerOk;
    Ends(s, a);
    var b', x := Apply(s, Produce(Some((id, junk)))).blocks[id], s.prod.x;
    NewGood(b'.data, |a.log|);
    AddStep(s, a, id, b', Count(0, 1, 0, 1, |a.log|), x, NewSize(s.largest));
    hide Inv;
  }

  lemma CountKeys(s: State, a: Aux)
    requires Inv(s, a)
    ensures a.cnt.Keys == s.blocks.Keys
  {
    hide ChainOk, FullOk, DataOk, ConsumerOk, Good, Holds, RingOk, ProducerOk;
  }

  lemma InsertedAt(ring: seq<Id>, k: nat, nb: Id)
    requires k < |ring|
    ensures |Inserted(ring, k, nb)| == |ring| + 1
    ensures forall i :: 0 <= i <= k ==> Inserted(ring, k, nb)[i] == ring[i]
    ensures Inserted(ring, k, nb)[k + 1] == nb
    ensures forall i :: k + 1 < i <= |ring| ==> Inserted(ring, k, nb)[i] == ring[i - 1]
  {
  }

  lemma RingInserted(ring: seq<Id>, next: map<Id, Id>, front: Id, tail: Id, k: nat, nb: Id)
    requires RingOk(ring, next, front, tail, k) && nb !in ring && nb in next && next[nb] == Following(ring, k)
    ensures RingOk(Inserted(ring, k, nb), next[tail := nb], front, tail, k)
  {
    InsertedAt(ring, k, nb);
    var ring' := Inserted(ring, k, nb);
    hide Inserted;
    forall i, j | 0 <= i < j < |ring'| ensures ring'[i] != ring'[j] {
      if i == k + 1 { assert ring[j - 1] in ring; }
      if j == k + 1 { assert ring[i] in ring; }
    }
    forall i | 0 <= i < |ring'| ensures ring'[i] in next && next[tail := nb][ring'[i]] == Following(ring', i) {
      if i > k + 1 { assert next[ring[i - 1]] == Following(ring, i - 1); }
    }
  }

  lemma ChainInserted(ring: seq<Id>, cnt: map<Id, Count>, k: nat, nb: Id, removed: nat, length: nat)
    requires ChainOk(ring, cnt, k, Some(nb), removed, length) && nb in cnt && nb !in ring
    ensures ChainOk(Inserted(ring, k, nb), cnt, k, Some(nb), removed, length)
  {
    InsertedAt(ring, k, nb);
    var ring' := Inserted(ring, k, nb);
    hide Inserted;
    forall i | 0 < i <= k ensures Follows(ring', cnt, i) { assert Follows(ring, cnt, i); }
    forall i | k < i < |ring'| && ring'[i] != nb ensures cnt[ring'[i]].f == cnt[ring'[i]].t { assert ring[i - 1] in cnt; }
  }

  lemma LinkingRest(s: State, a: Aux, nb: Id)
    requires a.k < |a.ring| && FullOk(a.ring, a.cnt, s.blocks, a.k) && DataOk(a.ring, a.cnt, s.blocks, a.k, a.log)
    requires s.frontBlock in a.cnt && ConsumerOk(s.cons, a.cnt[s.frontBlock], a.ring, a.k, a.cnt, a.log, a.out, a.wasEmpty)
    ensures var ring' := Inserted(a.ring, a.k, nb);
      && |ring'| > a.k && FullOk(ring', a.cnt, s.blocks, a.k) && DataOk(ring', a.cnt, s.blocks, a.k, a.log)
      && ConsumerOk(s.cons, a.cnt[s.frontBlock], ring', a.k, a.cnt, a.log, a.out, a.wasEmpty)
  {
  }

  lemma LinkingKeeps(s: State, a: Aux, m: Option<(Id, Item)>)
    requires Inv(s, a) && Sound(s) && s.prod.Linking?
    ensures StepKeeps(s, a, Produce(m))
  {
    hide BlocksOk, ChainOk, FullOk, DataOk, ConsumerOk, Good, Holds, RingOk, Following, PendingOk, NoRoom;
    Ends(s, a);
    var nb := s.prod.nb;
    RingInserted(a.ring, s.next, s.frontBlock, s.tailBlock, a.k, nb);
    ChainInserted(a.ring, a.cnt, a.k, nb, |a.out|, |a.log|);
    LinkingRest(s, a, nb);
    InsertedAt(a.ring, a.k, nb);
    hide Inserted;
    assert s.next[s.tailBlock := nb].Keys == s.next.Keys;
  }

  lemma ChainMoved(ring: seq<Id>, next: map<Id, Id>, front: Id, tail: Id, cnt: map<Id, Count>, k: nat, nb: Id, removed: nat, length: nat)
    requires ChainOk(ring, cnt, k, Some(nb), removed, length) && IsNext(nb, ring, k) && RingOk(ring, next, front, tail, k)
    requires var c := cnt[nb]; c.t == c.f + 1 && c.off + c.f == length
    ensures ChainOk(ring, cnt, k + 1, None, removed, length + 1)
    ensures RingOk(ring, next, front, nb, k + 1)
  {
  }

  lemma FullMoved(ring: seq<Id>, cnt: map<Id, Count>, blocks: map<Id, Block>, k: nat, nb: Id, tail: Id)
    requires FullOk(ring, cnt, blocks, k) && IsNext(nb, ring, k) && nb in cnt && cnt[nb].f == cnt[nb].lf
    requires ring[k] == tail && tail in cnt && tail in blocks && NoRoom(cnt[tail], blocks[tail])
    ensures FullOk(ring, cnt, blocks, k + 1)
  {
  }

  lemma DataMoved(ring: seq<Id>, cnt: map<Id, Count>, blocks: map<Id, Block>, k: nat, nb: Id, log: seq<Item>, x: Item)
    requires DataOk(ring, cnt, blocks, k, log) && IsNext(nb, ring, k) && nb in cnt && nb in blocks
    requires PendingOk(blocks[nb], cnt[nb], |log|, x)
    ensures DataOk(ring, cnt, blocks, k + 1, log + [x])
  {
    var log' := log + [x];
    forall i | 0 <= i <= k + 1 && ring[i] in cnt && ring[i] in blocks ensures Holds(blocks[ring[i]].data, cnt[ring[i]], log') {
      if i <= k { HoldsStill(blocks[ring[i]].data, cnt[ring[i]], log, [x]); }
    }
  }

  lemma MovingKeeps(s: State, a: Aux, m: Option<(Id, Item)>)
    requires Inv(s, a) && Sound(s) && s.prod.Moving?
    ensures StepKeeps(s, a, Produce(m))
  {
    hide BlocksOk, ChainOk, FullOk, DataOk, ConsumerOk, Good, Holds, RingOk, CellIs, NoRoom;
    Ends(s, a);
    var nb, x := s.prod.nb, s.prod.x;
    ChainMoved(a.ring, s.next, s.frontBlock, s.tailBlock, a.cnt, a.k, nb, |a.out|, |a.log|);
    FullMoved(a.ring, a.cnt, s.blocks, a.k, nb, s.tailBlock);
    DataMoved(a.ring, a.cnt, s.blocks, a.k, nb, a.log, x);
    MovingConsumer(s.cons, a.cnt[s.frontBlock], a.ring, a.k, a.cnt, a.log, a.out, a.wasEmpty, x);
    assert |a.log + [x]| == |a.log| + 1;
  }

  lemma MovingConsumer(q: Consumer, c: Count, ring: seq<Id>, k: nat, cnt: map<Id, Count>, log: seq<Item>, out: seq<Item>, wasEmpty: bool, x: Item)
    requires k + 1 < |ring| && ConsumerOk(q, c, ring, k, cnt, log, out, wasEmpty)
    ensures ConsumerOk(q, c, ring, k + 1, cnt, log + [x], out, wasEmpty)
  {
  }

  lemma EnqueueKeeps(s: State, a: Aux, e: Event)
    requires Inv(s, a) && Sound(s) && e.Enqueue? && s.prod == Resting
    ensures StepKeeps(s, a, e)
  {
    hide BlocksOk, ChainOk, FullOk, DataOk, ConsumerOk, Good, Holds, RingOk, CellIs, Next;
    Ends(s, a);
    var b, c := s.blocks[s.tailBlock], a.cnt[s.tailBlock];
    Tests(b, c);
    TailRoom(s, a);
    ProducerTurns(s, a, Apply(s, e).prod);
  }

  lemma TailRoom(s: State, a: Aux)
    requires Inv(s, a)
    ensures a.cnt[s.tailBlock].t + 1 <= a.cnt[s.tailBlock].lf + |s.blocks[s.tailBlock].data|
  {
    hide ChainOk, FullOk, DataOk, ConsumerOk, Holds, RingOk, CellIs, ProducerOk;
    assert Good(s.blocks[s.tailBlock], a.cnt[s.tailBlock]);
  }

  // ---- The consumer, in the front block ----

  lemma FrontFacts(s: State, a: Aux)
    requires Inv(s, a)
    ensures var b, c := s.blocks[s.frontBlock], a.cnt[s.frontBlock];
      && Good(b, c) && Holds(b.data, c, a.log) && c.off + c.f == |a.out| && c.f <= c.lt <= c.t
      && (a.k == 0 ==> c.off + c.t == |a.log|)
  {
    hide ConsumerOk, ProducerOk, Holds;
  }

  /** What a change in the front block must establish. */
  lemma FrontStep(s: State, a: Aux, b': Block, c': Count, q': Consumer, out': seq<Item>, wasEmpty': bool)
    requires Inv(s, a) && s.frontBlock in s.blocks && s.frontBlock in a.cnt
    requires Good(b', c') && Holds(b'.data, c', a.log) && out' <= a.log
    requires var c := a.cnt[s.frontBlock]; c'.t == c.t && c'.lf == c.lf && b'.data == s.blocks[s.frontBlock].data
    requires ChainOk(a.ring, a.cnt[s.frontBlock := c'], a.k, Pending(s.prod), |out'|, |a.log|)
    requires ConsumerOk(q', c', a.ring, a.k, a.cnt[s.frontBlock := c'], a.log, out', wasEmpty')
    ensures Inv(s.(blocks := s.blocks[s.frontBlock := b'], cons := q'), a.(cnt := a.cnt[s.frontBlock := c'], out := out', wasEmpty := wasEmpty'))
  {
    hide Good, ChainOk, FullOk, DataOk, ConsumerOk, ProducerOk, Holds;
    assert s.tailBlock in a.cnt;
    hide BlocksOk;
    var f := s.frontBlock;
    GoodStored(s.blocks, a.cnt, f, b', c');
    FullStored(a.ring, a.cnt, s.blocks, a.k, 0, f, b', c');
    HoldsStill(b'.data, c', a.log, []);
    DataStored(a.ring, a.cnt, s.blocks, a.k, a.log, 0, f, b', c', []);
    assert a.log + [] == a.log;
    ProducerStored(s.prod, s.blocks[s.tailBlock], a.cnt[s.tailBlock], s.blocks[f := b'][s.tailBlock], a.cnt[f := c'][s.tailBlock],
                   s.blocks, s.next, a.ring, a.k, a.cnt, |a.log|, 0, f, b', c');
    assert s.blocks[f := b'].Keys == s.blocks.Keys;
  }

  /** Re-reading the tail of the front block. */
  lemma CopyingKeeps(s: State, a: Aux, q': Consumer, wasEmpty': bool)
    requires Inv(s, a) && Sound(s)
    requires var c := a.cnt[s.frontBlock]; ConsumerOk(q', c.(lt := c.t), a.ring, a.k, a.cnt[s.frontBlock := c.(lt := c.t)], a.log, a.out, wasEmpty')
    ensures s.frontBlock in s.blocks && s.frontBlock in a.cnt
    ensures var b, c := s.blocks[s.frontBlock], a.cnt[s.frontBlock];
      Inv(s.(blocks := s.blocks[s.frontBlock := b.(localTail := b.tail)], cons := q'), a.(cnt := a.cnt[s.frontBlock := c.(lt := c.t)], wasEmpty := wasEmpty'))
  {
    hide BlocksOk, ChainOk, FullOk, DataOk, ConsumerOk, RingOk, Good, Holds, ProducerOk;
    Ends(s, a);
    FrontFacts(s, a);
    var b, c := s.blocks[s.frontBlock], a.cnt[s.frontBlock];
    CopyTail(b, c);
    HoldsSame(b.data, c, c.(lt := c.t), a.log);
    ChainSame(a.ring, a.cnt, a.k, Pending(s.prod), |a.out|, |a.log|, s.frontBlock, c.(lt := c.t));
    FrontStep(s, a, b.(localTail := b.tail), c.(lt := c.t), q', a.out, wasEmpty');
  }

  lemma ProbingKeeps(s: State, a: Aux)
    requires Inv(s, a) && Sound(s) && (s.cons.Probing? || s.cons.Rechecking?)
    ensures StepKeeps(s, a, Consume)
  {
    hide BlocksOk, ChainOk, FullOk, DataOk, RingOk, Good, Holds, ProducerOk;
    Ends(s, a);
    FrontFacts(s, a);
    var b, c := s.blocks[s.frontBlock], a.cnt[s.frontBlock];
    Tests(b, c);
    var wasEmpty' := if s.cons.Probing? then |a.log| == |a.out| else a.wasEmpty;
    CopyingKeeps(s, a, Apply(s, Consume).cons, wasEmpty');
    hide Inv;
  }

  lemma TookFacts(s: State, a: Aux)
    requires Inv(s, a) && s.cons.Took?
    ensures var c, Took(op, x) := a.cnt[s.frontBlock], s.cons;
      && !op.Peek? && c.f < c.lt && a.out + [x] <= a.log
      && ConsumerOk(Answered(op, Some(x)), c.(f := c.f + 1), a.ring, a.k, a.cnt[s.frontBlock := c.(f := c.f + 1)], a.log, a.out + [x], a.wasEmpty)
  {
    hide BlocksOk, ChainOk, FullOk, DataOk, Good, Holds, ProducerOk, RingOk;
  }

  lemma TookChain(s: State, a: Aux)
    requires Inv(s, a) && s.cons.Took? && s.frontBlock in a.cnt
    ensures var c := a.cnt[s.frontBlock];
      ChainOk(a.ring, a.cnt[s.frontBlock := c.(f := c.f + 1)], a.k, Pending(s.prod), |a.out| + 1, |a.log|)
  {
    hide BlocksOk, ChainOk, FullOk, DataOk, Good, Holds, ProducerOk, ConsumerOk, RingOk;
    FrontFacts(s, a);
    TookFacts(s, a);
    var c := a.cnt[s.frontBlock];
    ChainTaken(a.ring, s.next, a.cnt, a.k, s.frontBlock, s.tailBlock, Pending(s.prod), |a.out|, |a.log|, c.(f := c.f + 1));
  }

  lemma TookKeeps(s: State, a: Aux)
    requires Inv(s, a) && Sound(s) && s.cons.Took?
    ensures StepKeeps(s, a, Consume)
  {
    hide Inv, BlocksOk, ChainOk, FullOk, DataOk, Good, Holds, ProducerOk, Next, ConsumerOk, RingOk;
    Ends(s, a);
    FrontFacts(s, a);
    TookFacts(s, a);
    TookChain(s, a);
    var b, c := s.blocks[s.frontBlock], a.cnt[s.frontBlock];
    Take(b, c, a.log);
    var b', c' := b.(front := Next(b.front, b)), c.(f := c.f + 1);
    FrontStep(s, a, b', c', Answered(s.cons.op, Some(s.cons.x)), a.out + [s.cons.x], a.wasEmpty);
  }

  lemma ConsumerTurns(s: State, a: Aux, q': Consumer, wasEmpty': bool)
    requires Inv(s, a)
    requires ConsumerOk(q', a.cnt[s.frontBlock], a.ring, a.k, a.cnt, a.log, a.out, wasEmpty')
    ensures Inv(s.(cons := q'), a.(wasEmpty := wasEmpty'))
  {
    hide Good, BlocksOk, ChainOk, FullOk, DataOk, ConsumerOk, Holds, ProducerOk, RingOk;
  }

  lemma FrontNext(s: State, a: Aux)
    requires Inv(s, a) && a.k > 0 && s.frontBlock in s.next
    ensures |a.ring| > 1 && s.next[s.frontBlock] == a.ring[1]
  {
    hide Good, BlocksOk, ChainOk, FullOk, DataOk, ConsumerOk, Holds, ProducerOk;
    assert s.next[a.ring[0]] == Following(a.ring, 0);
  }

  lemma TurningKeeps(s: State, a: Aux, e: Event)
    requires Inv(s, a) && Sound(s) && Enabled(s, e)
    requires e.Call? || e.Return? || (e.Consume? && (s.cons.Comparing? || s.cons.Leaving? || s.cons.Taking?))
    ensures StepKeeps(s, a, e)
  {
    hide BlocksOk, ChainOk, FullOk, DataOk, RingOk, Good, Holds, ProducerOk;
    Ends(s, a);
    FrontFacts(s, a);
    var b, c := s.blocks[s.frontBlock], a.cnt[s.frontBlock];
    Tests(b, c);
    if s.cons.Leaving? { FrontNext(s, a); }
    if s.cons.Taking? { Take(b, c, a.log); }
    var wasEmpty' := if e.Call? then false else a.wasEmpty;
    assert ConsumerOk(Apply(s, e).cons, c, a.ring, a.k, a.cnt, a.log, a.out, wasEmpty');
    hide ConsumerOk;
    ConsumerTurns(s, a, Apply(s, e).cons, wasEmpty');
    hide Inv;
  }

  // ---- The consumer goes on to the next block ----

  /** When the front block is used up, the next block has the next item. */
  lemma SecondFacts(s: State, a: Aux)
    requires Inv(s, a) && s.cons.Arriving?
    ensures a.k >= 1 && |a.ring| > 1 && s.cons.nb == a.ring[1] && s.cons.nb in s.blocks && s.cons.nb in a.cnt
    ensures var b, c := s.blocks[s.cons.nb], a.cnt[s.cons.nb];
      && Good(b, c) && Holds(b.data, c, a.log) && c.f < c.t && c.off + c.f == |a.out|
  {
    hide Good, FullOk, Holds, ProducerOk;
    assert Follows(a.ring, a.cnt, 1);
  }

  lemma FirstCell(b: Block, c: Count, log: seq<Item>)
    requires Good(b, c) && Holds(b.data, c, log) && c.f < c.t
    ensures b.front < |b.data| && 0 <= c.off + c.f < |log| && b.data[b.front] == log[c.off + c.f]
  {
    assert Has(b.data, c.off, log, c.f);
  }

  lemma ArrivingKeeps(s: State, a: Aux)
    requires Inv(s, a) && Sound(s) && s.cons.Arriving?
    ensures s.blocks[s.cons.nb].front != s.blocks[s.cons.nb].tail
    ensures StepKeeps(s, a, Consume)
  {
    hide BlocksOk, ChainOk, FullOk, DataOk, RingOk, Good, Holds, ProducerOk;
    SecondFacts(s, a);
    Ends(s, a);
    var nb := s.cons.nb;
    var b, c := s.blocks[nb], a.cnt[nb];
    Tests(b, c);
    if s.cons.op.Peek? {
      FirstCell(b, c, a.log);
      ConsumerTurns(s, a, Answered(Peek, Some(b.data[b.front])), a.wasEmpty);
    } else {
      CopyTail(b, c);
      SecondStep(s, a, b.(localTail := b.tail), c.(lt := c.t));
    }
    hide Inv;
  }

  lemma SecondStep(s: State, a: Aux, b': Block, c': Count)
    requires Inv(s, a) && Sound(s) && s.cons.Arriving? && s.cons.nb in a.cnt
    requires Good(b', c') && c' == a.cnt[s.cons.nb].(lt := a.cnt[s.cons.nb].t) && b'.data == s.blocks[s.cons.nb].data
    ensures Inv(s.(blocks := s.blocks[s.cons.nb := b'], cons := Crossing(s.cons.op, s.cons.nb)), a.(cnt := a.cnt[s.cons.nb := c']))
  {
    hide BlocksOk, ChainOk, FullOk, DataOk, Good, Holds, ProducerOk;
    SecondFacts(s, a);
    Ends(s, a);
    var nb := s.cons.nb;
    assert nb != s.frontBlock;
    GoodStored(s.blocks, a.cnt, nb, b', c');
    FullSame(s, a, nb, b', c');
    HoldsSame(b'.data, a.cnt[nb], c', a.log);
    HoldsStill(b'.data, c', a.log, []);
    DataStored(a.ring, a.cnt, s.blocks, a.k, a.log, 1, nb, b', c', []);
    assert a.log + [] == a.log;
    ChainSame(a.ring, a.cnt, a.k, Pending(s.prod), |a.out|, |a.log|, nb, c');
    ProducerStored(s.prod, s.blocks[s.tailBlock], a.cnt[s.tailBlock], s.blocks[nb := b'][s.tailBlock], a.cnt[nb := c'][s.tailBlock],
                   s.blocks, s.next, a.ring, a.k, a.cnt, |a.log|, 1, nb, b', c');
    hide RingOk;
    assert s.blocks[nb := b'].Keys == s.blocks.Keys;
  }

  lemma FullSame(s: State, a: Aux, nb: Id, b': Block, c': Count)
    requires FullOk(a.ring, a.cnt, s.blocks, a.k) && nb in s.blocks && nb in a.cnt
    requires c'.f == a.cnt[nb].f && c'.t == a.cnt[nb].t && c'.lf == a.cnt[nb].lf && b'.data == s.blocks[nb].data
    ensures FullOk(a.ring, a.cnt[nb := c'], s.blocks[nb := b'], a.k)
  {
  }

  lemma RotatedAt(ring: seq<Id>)
    requires ring != []
    ensures |Rotated(ring)| == |ring|
    ensures forall i :: 0 <= i < |ring| - 1 ==> Rotated(ring)[i] == ring[i + 1]
    ensures Rotated(ring)[|ring| - 1] == ring[0]
  {
  }

  lemma RingRotated(ring: seq<Id>, next: map<Id, Id>, front: Id, tail: Id, k: nat)
    requires RingOk(ring, next, front, tail, k) && k > 0
    ensures RingOk(Rotated(ring), next, ring[1], tail, k - 1)
  {
  }

  lemma ChainRotated(ring: seq<Id>, cnt: map<Id, Count>, k: nat, pending: Option<Id>, removed: nat, length: nat)
    requires ChainOk(ring, cnt, k, pending, removed, length) && k > 0 && cnt[ring[0]].f == cnt[ring[0]].t
    ensures ChainOk(Rotated(ring), cnt, k - 1, pending, removed, length)
  {
    RotatedAt(ring);
    var ring' := Rotated(ring);
    hide Rotated;
    assert Follows(ring, cnt, 1);
    forall i | 0 < i <= k - 1 ensures Follows(ring', cnt, i) { var j := i + 1; assert Follows(ring, cnt, j); }
  }

  lemma RestRotated(ring: seq<Id>, cnt: map<Id, Count>, blocks: map<Id, Block>, k: nat, log: seq<Item>)
    requires FullOk(ring, cnt, blocks, k) && DataOk(ring, cnt, blocks, k, log) && 0 < k < |ring|
    ensures FullOk(Rotated(ring), cnt, blocks, k - 1) && DataOk(Rotated(ring), cnt, blocks, k - 1, log)
  {
  }

  lemma ProducerRotated(p: Producer, b: Block, c: Count, blocks: map<Id, Block>, next: map<Id, Id>, ring: seq<Id>, k: nat, cnt: map<Id, Count>, length: nat)
    requires 0 < k < |ring| && ProducerOk(p, b, c, blocks, next, ring, k, cnt, length)
    ensures k - 1 < |Rotated(ring)| && ProducerOk(p, b, c, blocks, next, Rotated(ring), k - 1, cnt, length)
  {
  }

  lemma CrossingKeeps(s: State, a: Aux)
    requires Inv(s, a) && Sound(s) && s.cons.Crossing?
    ensures StepKeeps(s, a, Consume)
  {
    hide BlocksOk, ChainOk, FullOk, DataOk, Good, Holds, ProducerOk, RingOk, Rotated;
    Ends(s, a);
    RingRotated(a.ring, s.next, s.frontBlock, s.tailBlock, a.k);
    ChainRotated(a.ring, a.cnt, a.k, Pending(s.prod), |a.out|, |a.log|);
    RestRotated(a.ring, a.cnt, s.blocks, a.k, a.log);
    ProducerRotated(s.prod, s.blocks[s.tailBlock], a.cnt[s.tailBlock], s.blocks, s.next, a.ring, a.k, a.cnt, |a.log|);
  }

  /** Every event keeps the invariant. */
  lemma EventKeepsInv(s: State, a: Aux, e: Event)
    requires Inv(s, a) && Enabled(s, e)
    ensures StepKeeps(s, a, e)
  {
    InvSound(s, a);
    hide Inv, Sound;
    match e
    case Enqueue(_, _) => EnqueueKeeps(s, a, e);
    case Call(_) => TurningKeeps(s, a, e);
    case Return => TurningKeeps(s, a, e);
    case Produce(m) => ProduceKeeps(s, a, m);
    case Consume => ConsumeKeeps(s, a);
  }

  lemma ProduceKeeps(s: State, a: Aux, m: Option<(Id, Item)>)
    requires Inv(s, a) && Sound(s) && Enabled(s, Produce(m))
    ensures StepKeeps(s, a, Produce(m))
  {
    hide Inv, Sound;
    match s.prod
    case Resting =>
    case Checking(_, _) => CheckingKeeps(s, a, m);
    case Writing(_) => WritingKeeps(s, a, m);
    case Raising(_) => RaisingKeeps(s, a, m);
    case Stuck(_, _) => StuckKeeps(s, a, m);
    case Entering(_, _) => EnteringKeeps(s, a, m);
    case Filling(_, _) => FillingKeeps(s, a, m);
    case Storing(_, _) => StoringKeeps(s, a, m);
    case Making(_) => if m == None { StuckKeeps(s, a, m); } else { MakingKeeps(s, a, m.value.0, m.value.1); }
    case Linking(_, _) => LinkingKeeps(s, a, m);
    case Moving(_, _) => MovingKeeps(s, a, m);
    case Returned(_) => StuckKeeps(s, a, m);
  }

  lemma ConsumeKeeps(s: State, a: Aux)
    requires Inv(s, a) && Sound(s) && Enabled(s, Consume)
    ensures StepKeeps(s, a, Consume)
  {
    hide Inv, Sound;
    match s.cons
    case Idle =>
    case Answered(_, _) =>
    case Probing(_) => ProbingKeeps(s, a);
    case Comparing(_) => TurningKeeps(s, a, Consume);
    case Rechecking(_) => ProbingKeeps(s, a);
    case Leaving(_) => TurningKeeps(s, a, Consume);
    case Arriving(_, _) => ArrivingKeeps(s, a);
    case Crossing(_, _) => CrossingKeeps(s, a);
    case Taking(_) => TurningKeeps(s, a, Consume);
    case Took(_, _) => TookKeeps(s, a);
  }
}
