/**
 A producer's sub-queue as a whole: the blocks and counters of `SubQueue`, the circular table of
 `BlockIndexRuns` in the place of its index, and the lock-free list of `FreeList` in the place of its pool.
 Each event is an access of one of them, or several of one thread when but one is to shared memory. What a
 thread does next depends on its registers and on what it reads of the table and the list; the map and the
 set of `SubQueue` are kept as a history only.

 A block that the list cannot give is one that has never been used: it comes from the initial pool or is new.
 */
module ImplicitProducer {
  import opened Wrappers
  import opened Blocks
  import SQ = SubQueue
  import SP = SubQueueProof
  import OD = OptimisticDequeue
  import BI = BlockIndexRuns
  import BT = BlockIndex
  import FL = FreeList

  type Tid = nat
  type Block = nat

  datatype State = State(q: SQ.State, b: BI.State, f: FL.State)

  datatype Event =
    | Begin(t: Tid, max: nat)
    | Count(t: Tid)
    | Read(t: Tid)                                          // a read of a consumer's lookup in the table
    | Consume(t: Tid)
    | Enqueue(xs: seq<SQ.Item>)
    | Extend
    | WriteTable(ok: bool, junk: seq<Option<Block>>)        // the producer's writes to the table before a block is there
    | Ask                                                   // the producer asks the free list for a block
    | Grant(blk: Block)
    | Refuse
    | Produce
    | List(t: Tid)                                          // an access within the free list

  // ---- Where the threads are ----

  /** The thread is not in a call of the free list. */
  predicate Outside(f: FL.State, t: Tid) {
    t in f.pc && f.pc[t] == FL.Idle
  }

  predicate LooksUp(w: SQ.Work) {
    w.Lookup? && w.j.cur < w.j.hi
  }

  predicate Wants(q: SQ.State) {
    q.prod.Allocating? && q.prod.left > 0
  }

  predicate GrowthFits(b: BI.State, ok: bool, junk: seq<Option<Block>>)
    requires BI.Sound(b.t)
  {
    ok && |junk| == |BI.Current(b.t).index| && BT.Fits(2 * |BI.Current(b.t).index|)
  }

  /** The thread is at the place of the event; `me` is the producer's thread. */
  predicate Allowed(me: Tid, s: State, e: Event) {
    BI.Sound(s.b.t) &&
    match e
    case Begin(t, max) => SQ.Enabled(s.q, SQ.Start(t, max)) && Outside(s.f, t)
    case Count(t) => SQ.Enabled(s.q, SQ.Count(t)) && Outside(s.f, t)
    case Read(t) => t in s.q.work && LooksUp(s.q.work[t]) && t < |s.b.looks| && !s.b.looks[t].Away? && !s.b.looks[t].Found?
    case Consume(t) =>
      SQ.Enabled(s.q, SQ.Consume(t)) && Outside(s.f, t) && (LooksUp(s.q.work[t]) ==> t < |s.b.looks| && s.b.looks[t].Found?)
    case Enqueue(xs) => SQ.Enabled(s.q, SQ.Enqueue(xs)) && Outside(s.f, me)
    case Extend => Wants(s.q) && s.b.p.Ready? && Outside(s.f, me)
    case WriteTable(ok, junk) =>
      && Outside(s.f, me)
      && (s.b.p.StoringKey? || s.b.p.StoringTail? || s.b.p.Clearing? || s.b.p.Rewinding? || (s.b.p.Growing? && GrowthFits(s.b, ok, junk)))
    case Ask => Wants(s.q) && s.b.p.Requisitioning? && Outside(s.f, me)
    case Grant(blk) =>
      && Wants(s.q) && s.b.p.Requisitioning? && me in s.f.pc
      && (s.f.pc[me] == FL.GetDrop(blk) || (s.f.pc[me] == FL.Idle && blk in s.q.cells && blk !in s.f.refs))
    case Refuse => Wants(s.q) && (s.b.p.Requisitioning? || s.b.p.Growing?) && Outside(s.f, me)
    case Produce => SQ.Enabled(s.q, SQ.Produce) && Outside(s.f, me) && (s.q.prod.Undoing? ==> s.b.p.Undoing?)
    case List(t) => t in s.f.pc && s.f.pc[t] != FL.Idle && !s.f.pc[t].GetDrop?
  }

  // ---- What the event is in each part ----

  function QEvent(e: Event): Option<SQ.Event> {
    match e
    case Begin(t, max) => Some(SQ.Start(t, max))
    case Count(t) => Some(SQ.Count(t))
    case Consume(t) => Some(SQ.Consume(t))
    case Enqueue(xs) => Some(SQ.Enqueue(xs))
    case Grant(blk) => Some(SQ.Grant(blk))
    case Refuse => Some(SQ.Refuse)
    case Produce => Some(SQ.Produce)
    case _ => None
  }

  /** The consumer's next access takes indices. */
  predicate Takes(c: OD.State, t: Tid) {
    t in c.pc && c.pc[t].TakeHead? && c.pc[t].got > 0
  }

  /** The consumer has emptied the last cell of its block. */
  predicate Empties(q: SQ.State, w: SQ.Work) {
    w.Copying? && w.b in q.emptied && q.emptied[w.b] + (w.j.cur - w.from) == BLOCK_SIZE
  }

  function ConsumerWrites(q: SQ.State, t: Tid): Option<BI.Event> {
    if t !in q.work then None
    else
      match q.work[t]
      case Copying(j, _, from) => if SQ.CopiesMore(j, from) || Empties(q, q.work[t]) then None else Some(BI.Unpin(t))
      case Clearing(_, _, _) => Some(BI.Release(t))
      case _ => None
  }

  function ProducerWrites(p: SQ.Producer): Option<BI.Event> {
    match p
    case Inserting(_, _, _, blk) => Some(BI.Produce(true, blk, []))
    case Undoing(_, _, _) => Some(BI.Produce(true, 0, []))
    case Writing(xs, _, i) => if i < |xs| then None else Some(BI.Publish)
    case _ => None
  }

  function BEvent(s: State, e: Event): Option<BI.Event> {
    match e
    case Count(t) =>
      if Takes(s.q.q, t) then Some(BI.Pin(t, Num(s.q.q.head), Num(s.q.q.head + s.q.q.pc[t].got - 1))) else None
    case Read(t) => Some(BI.Read(t))
    case Consume(t) => ConsumerWrites(s.q, t)
    case Extend => Some(BI.Extend)
    case WriteTable(ok, junk) => Some(BI.Produce(ok, 0, junk))
    case Refuse => Some(BI.Produce(false, 0, []))
    case Produce => ProducerWrites(s.q.prod)
    case _ => None
  }

  function FEvent(me: Tid, s: State, e: Event): Option<FL.Event> {
    match e
    case Consume(t) => if t in s.q.work && s.q.work[t].Returning? then Some(FL.StartAdd(t, s.q.work[t].b)) else None
    case Ask => Some(FL.StartGet(me))
    case Grant(blk) => if me in s.f.pc && s.f.pc[me].GetDrop? then Some(FL.Run(me)) else Some(FL.Create(blk))
    case Produce => if s.q.prod.Freeing? && s.q.prod.blocks != [] then Some(FL.StartAdd(me, s.q.prod.blocks[0])) else None
    case List(t) => Some(FL.Run(t))
    case _ => None
  }

  /** The block that a consumer reads from the table, at the end of its lookup. */
  function Fetched(b: BI.State, t: Tid): Option<Block> {
    if t < |b.looks| && b.looks[t].Found? && b.looks[t].k < |b.t.headers| && b.looks[t].slot < |b.t.headers[b.looks[t].k].index| then
      var x := b.t.headers[b.looks[t].k].index[b.looks[t].slot];
      if x < |b.t.values| then b.t.values[x] else None
    else None
  }

  // ---- What the parts rely on ----

  datatype Aux = Aux(q: SQ.Aux, v: BI.View)

  /** What the sub-queue assumes of the pool, and of the memory that it reaches by its registers. */
  ghost predicate QueueSafe(s: State, a: Aux, e: Event) {
    OD.Inv(s.q.q, a.q.od) && (QEvent(e).Some? ==> SQ.Enabled(s.q, QEvent(e).value) && SP.Safe(s.q, QEvent(e).value))
  }

  /** What the table assumes of consumers, and of the order of the producer's writes. */
  ghost predicate TableSafe(s: State, a: Aux, e: Event) {
    && BI.Sound(s.b.t) && a.v.tops != []
    && (BEvent(s, e).Some? ==> BI.Step(s.b, a.v.live, BEvent(s, e).value).Some?)
  }

  /** What the list assumes: only a caller that has a block adds it, and a new block is new. */
  ghost predicate ListSafe(me: Tid, s: State, e: Event) {
    FL.Typed(s.f) && (FEvent(me, s, e).Some? ==> FL.Enabled(s.f, FEvent(me, s, e).value))
  }

  /** A consumer copies from the block that the index of the sub-queue has. */
  ghost predicate FetchSafe(s: State, e: Event) {
    e.Consume? && e.t in s.q.work && LooksUp(s.q.work[e.t]) ==>
      Num(s.q.work[e.t].j.cur) in s.q.index && Fetched(s.b, e.t) == Some(s.q.index[Num(s.q.work[e.t].j.cur)])
  }

  ghost predicate Safe(me: Tid, s: State, a: Aux, e: Event) {
    QueueSafe(s, a, e) && TableSafe(s, a, e) && ListSafe(me, s, e) && FetchSafe(s, e)
  }

  ghost function QNext(s: State, a: Aux, e: Event): SQ.State
    requires QueueSafe(s, a, e)
  {
    if QEvent(e).None? then s.q else SQ.Apply(s.q, QEvent(e).value)
  }

  ghost function QAux(s: State, a: Aux, e: Event): SQ.Aux
    requires QueueSafe(s, a, e)
  {
    if QEvent(e).None? then a.q else SP.AuxApply(s.q, a.q, QEvent(e).value)
  }

  ghost function BNext(s: State, a: Aux, e: Event): BI.State
    requires TableSafe(s, a, e)
  {
    if BEvent(s, e).None? then s.b else BI.Step(s.b, a.v.live, BEvent(s, e).value).value
  }

  ghost function BView(s: State, a: Aux, e: Event): BI.View
    requires TableSafe(s, a, e)
  {
    if BEvent(s, e).None? then a.v else BI.Advance(s.b, a.v, BEvent(s, e).value)
  }

  ghost function FNext(me: Tid, s: State, e: Event): FL.State
    requires ListSafe(me, s, e)
  {
    if FEvent(me, s, e).None? then s.f else FL.Apply(s.f, FEvent(me, s, e).value)
  }

  ghost function Next(me: Tid, s: State, a: Aux, e: Event): State
    requires Safe(me, s, a, e)
  {
    State(QNext(s, a, e), BNext(s, a, e), FNext(me, s, e))
  }

  ghost function NextAux(me: Tid, s: State, a: Aux, e: Event): Aux
    requires Safe(me, s, a, e)
  {
    Aux(QAux(s, a, e), BView(s, a, e))
  }

  // ---- The invariant ----

  /** The table maps the numbers that the index maps, to the same blocks. */
  ghost predicate SameBlocks(index: map<nat, Block>, live: map<int, Block>) {
    && (forall k: nat :: k in index ==> k in live && live[k] == index[k])
    && (forall k: int :: k in live ==> k >= 0 && k in index)
  }

  /** The blocks that the table has got in this call are those of the chain from the first new one on. */
  predicate Fresh(c: seq<Block>, ff: nat, chain: seq<Block>) {
    ff <= |c| && chain == c[ff..]
  }

  ghost predicate PhaseLink(prod: SQ.Producer, ff: nat, p: BI.Producer, chain: seq<Block>) {
    match prod
    case Resting => p.Ready? && chain == []
    case Allocating(_, c, left) =>
      Fresh(c, ff, chain) && (p.Ready? || (left > 0 && (p.StoringKey? || p.StoringTail? || p.Requisitioning? || p.Growing?)))
    case Resetting(_, c, _, _) => Fresh(c, ff, chain) && p.Requisitioning?
    case Inserting(_, c, _, _) => Fresh(c, ff, chain) && p.Requisitioning?
    case Undoing(c, start, j) => Fresh(c, ff, chain) && start == ff <= j && Undone(p, j - start)
    case Freeing(_) => p.Ready? && chain == []
    case Writing(_, c, _) => Fresh(c, ff, chain) && p.Ready?
  }

  /** The table has taken back the first `n` blocks. */
  predicate Undone(p: BI.Producer, n: nat) {
    match p
    case Clearing(_) => n == 0
    case Undoing(i) => i == n
    case Rewinding(i) => i + 1 == n
    case _ => false
  }

  predicate LookingFor(l: BI.Look, n: nat, last: nat) {
    !l.Away? && l.n == n && l.last == last
  }

  /** A consumer that has yet to read its indices from `cur` on. */
  predicate Ahead(j: SQ.Job, l: BI.Look) {
    if j.cur < j.hi then LookingFor(l, Num(j.cur), Num(j.hi - 1)) else l.Away?
  }

  /** A consumer that is done with block `k`. */
  predicate Leaving(j: SQ.Job, l: BI.Look, k: nat) {
    l.Found? && l.n == k && if j.cur < j.hi then Num(j.cur) == k + 1 && l.last == Num(j.hi - 1) else l.last == k
  }

  predicate LookLink(w: SQ.Work, l: BI.Look) {
    match w
    case Off => l.Away?
    case Lookup(j) => Ahead(j, l)
    case Copying(j, _, from) => l.Found? && from < j.hi && LookingFor(l, Num(from), Num(j.hi - 1))
    case Clearing(j, _, k) => Leaving(j, l, k)
    case Returning(j, _) => Ahead(j, l)
  }

  ghost predicate LooksLink(work: map<Tid, SQ.Work>, looks: seq<BI.Look>) {
    && (forall t :: t in work ==> t < |looks| && LookLink(work[t], looks[t]))
    && (forall t: nat :: t < |looks| && t !in work ==> looks[t].Away?)
  }

  /** The blocks that are not in the pool are in the hands of the list's callers. */
  ghost predicate PoolLink(blocks: set<Block>, pool: set<Block>, nodes: set<Block>, owned: set<Block>) {
    nodes <= blocks && forall b :: b in blocks ==> (b in owned <==> b !in pool)
  }

  ghost predicate Link(me: Tid, s: State, a: Aux) {
    && SameBlocks(s.q.index, a.v.live)
    && s.b.published == Cover(s.q.q.tail)
    && PhaseLink(s.q.prod, SQ.FirstFresh(s.q.q.tail), s.b.p, s.b.chain)
    && LooksLink(s.q.work, s.b.looks)
    && PoolLink(s.q.cells.Keys, s.q.pool, s.f.refs.Keys, s.f.owned)
    && me !in s.q.work
  }

  ghost predicate ListInv(f: FL.State) {
    exists fa :: FL.Inv(f, fa)
  }

  ghost predicate Inv(me: Tid, s: State, a: Aux) {
    SQ.Inv(s.q, a.q) && BI.Inv(s.b, a.v) && ListInv(s.f) && Link(me, s, a)
  }
}
