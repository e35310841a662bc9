/** Every access of producer and consumers keeps the sub-queue's invariant. */
module SubQueueProof {
  import opened Wrappers
  import opened CircularArithmetic
  import opened Blocks
  import opened BlockDemand
  import opened SubQueue
  import OD = OptimisticDequeue

  // ---- Counting emptied cells ----

  function Range(lo: nat, hi: nat): (r: set<nat>)
    ensures forall i :: i in r <==> lo <= i < hi
  {
    if lo < hi then Range(lo, hi - 1) + {hi - 1} else {}
  }

  lemma {:induction false} RangeSize(lo: nat, hi: nat)
    requires lo <= hi
    ensures |Range(lo, hi)| == hi - lo
  {
    if lo < hi {
      RangeSize(lo, hi - 1);
      assert Range(lo, hi) == Range(lo, hi - 1) + {hi - 1};
    } else {
      assert Range(lo, hi) == {};
    }
  }

  lemma SubsetSize<T>(a: set<T>, b: set<T>)
    requires a <= b
    ensures |a| <= |b| && (|a| == |b| ==> a == b)
  {
    assert b == a + (b - a);
  }

  /** A block is emptied exactly when all of its indices are done. */
  lemma AllDone(done: set<nat>, k: nat)
    ensures |DoneIn(done, k)| <= BLOCK_SIZE
    ensures |DoneIn(done, k)| == BLOCK_SIZE <==> forall i :: Base(k) <= i < Base(k) + BLOCK_SIZE ==> i in done
  {
    var r := Range(Base(k), Base(k) + BLOCK_SIZE);
    RangeSize(Base(k), Base(k) + BLOCK_SIZE);
    SubsetSize(DoneIn(done, k), r);
    if forall i :: Base(k) <= i < Base(k) + BLOCK_SIZE ==> i in done {
      assert DoneIn(done, k) == r;
    } else {
      var i :| Base(k) <= i < Base(k) + BLOCK_SIZE && i !in done;
      assert i in r && i !in DoneIn(done, k);
    }
  }

  lemma DoneMore(done: set<nat>, lo: nat, hi: nat, k: nat)
    requires lo <= hi && forall i :: lo <= i < hi ==> i !in done && Num(i) == k
    ensures |DoneIn(done + Range(lo, hi), k)| == |DoneIn(done, k)| + (hi - lo)
    ensures forall m: nat :: m != k ==> DoneIn(done + Range(lo, hi), m) == DoneIn(done, m)
  {
    var r := Range(lo, hi);
    forall i | i in r ensures Base(k) <= i < Base(k) + BLOCK_SIZE { InBlock(i, k); }
    assert DoneIn(done + r, k) == DoneIn(done, k) + r;
    RangeSize(lo, hi);
    forall m: nat | m != k ensures DoneIn(done + r, m) == DoneIn(done, m) {
      forall i | i in r ensures !(Base(m) <= i < Base(m) + BLOCK_SIZE) { InBlock(i, m); }
    }
  }

  /** An index that is published and not done has its block in the index. */
  lemma LookupHits(index: map<nat, Block>, tail: nat, done: set<nat>, i: nat)
    requires LiveOk(index, tail, done) && i < tail && i !in done
    ensures Num(i) in index && |DoneIn(done, Num(i))| < BLOCK_SIZE
  {
    Position(i);
    CoverOrder(Num(i), tail);
    AllDone(done, Num(i));
  }

  // ---- A consumer looks up a block, copies a cell, and finishes ----

  lemma HandsKept(work: map<Tid, Work>, place: map<Block, Place>, t: Tid, w: Work)
    requires HandsOk(work, place) && t in work && HandOf(t, work[t]) == None == HandOf(t, w)
    ensures HandsOk(work[t := w], place)
  {
  }

  lemma TodoKept(work: map<Tid, Work>, owner: seq<Tid>, done: set<nat>, t: Tid, w: Work)
    requires TodoOk(work, owner, done) && t in work && work[t] != Off && w != Off
    requires TodoFrom(w) == TodoFrom(work[t]) && w.j.hi == work[t].j.hi
    ensures TodoOk(work[t := w], owner, done)
  {
  }

  /** What an access that changes nothing but its consumer's registers must establish. */
  lemma WorkOnly(s: State, a: Aux, t: Tid, w: Work)
    requires Inv(s, a) && t in s.work
    requires HandsOk(s.work[t := w], a.place) && TodoOk(s.work[t := w], a.od.owner, a.done)
    requires JobOk(t, w, s.q.pc, s.q.head, s.index, a.log)
    ensures Inv(Doing(s, t, w), a)
  {
    hide OD.Inv, IndexOk, BlocksOk, CountsOk, LiveOk, CellsOk, HandsOk, PoolOk, ProducerHand, TodoOk, JobOk, TailOk, NoneBeyond, ChainOk, WrittenOk;
    assert Doing(s, t, w).work.Keys == s.work.Keys;
  }

  lemma LookupStep(s: State, a: Aux, t: Tid)
    requires Inv(s, a) && t in s.work && s.work[t].Lookup? && s.work[t].j.cur < s.work[t].j.hi
    ensures Ready(s, t) && Inv(WorkStep(s, t), a)
  {
    hide OD.Inv, IndexOk, BlocksOk, CountsOk, CellsOk, PoolOk, ProducerHand, TailOk, NoneBeyond, ChainOk, WrittenOk;
    var j := s.work[t].j;
    assert JobOk(t, s.work[t], s.q.pc, s.q.head, s.index, a.log);
    LookupHits(s.index, s.q.tail, a.done, j.cur);
    var w := Copying(j, s.index[Num(j.cur)], j.cur);
    HandsKept(s.work, a.place, t, w);
    TodoKept(s.work, a.od.owner, a.done, t, w);
    WorkOnly(s, a, t, w);
  }

  lemma CopyStep(s: State, a: Aux, t: Tid)
    requires Inv(s, a) && t in s.work && s.work[t].Copying? && CopiesMore(s.work[t].j, s.work[t].from)
    ensures Ready(s, t) && Inv(WorkStep(s, t), a)
  {
    hide OD.Inv, IndexOk, CountsOk, PoolOk, ProducerHand, TailOk, NoneBeyond, ChainOk, WrittenOk, LiveOk;
    var Copying(j, b, from) := s.work[t];
    assert JobOk(t, s.work[t], s.q.pc, s.q.head, s.index, a.log);
    assert Stored(s.index, s.cells, j.cur, a.log[j.cur]);
    var w := WorkStep(s, t).work[t];
    HandsKept(s.work, a.place, t, w);
    TodoKept(s.work, a.od.owner, a.done, t, w);
    assert a.log[j.first..j.cur + 1] == a.log[j.first..j.cur] + [a.log[j.cur]];
    WorkOnly(s, a, t, w);
  }

  lemma FinishJobs(s: State, a: Aux, t: Tid)
    requires JobsOk(s.work, s.q.pc, s.q.head, s.index, a.log) && t in s.work && t in s.q.pc
    ensures JobsOk(s.work[t := Off], s.q.pc[t := OD.Idle], s.q.head, s.index, a.log)
  {
  }

  lemma FinishCounters(q: OD.State, od: OD.Aux, t: Tid)
    requires OD.Inv(q, od) && t in q.pc && q.pc[t].Holding?
    ensures OD.Inv(OD.At(q, t, OD.Idle), od)
  {
    OD.QuietStep(q, od, t, OD.Idle);
  }

  lemma FinishStep(s: State, a: Aux, t: Tid)
    requires Inv(s, a) && t in s.work && s.work[t].Lookup? && s.work[t].j.cur >= s.work[t].j.hi
    ensures Ready(s, t) && Inv(WorkStep(s, t), a)
  {
    hide OD.Inv, IndexOk, BlocksOk, CountsOk, LiveOk, CellsOk, PoolOk, ProducerHand, TailOk, NoneBeyond, ChainOk, WrittenOk;
    assert JobOk(t, s.work[t], s.q.pc, s.q.head, s.index, a.log);
    FinishCounters(s.q, a.od, t);
    FinishJobs(s, a, t);
    HandsKept(s.work, a.place, t, Off);
    FinishTodo(s.work, a.od.owner, a.done, t);
    assert WorkStep(s, t).work.Keys == s.work.Keys && WorkStep(s, t).q.pc.Keys == s.q.pc.Keys;
  }

  lemma FinishTodo(work: map<Tid, Work>, owner: seq<Tid>, done: set<nat>, t: Tid)
    requires TodoOk(work, owner, done) && t in work && work[t].Lookup? && work[t].j.cur >= work[t].j.hi
    ensures TodoOk(work[t := Off], owner, done)
  {
  }

  // ---- A consumer counts the cells it has emptied ----

  ghost function MarkAux(s: State, a: Aux, t: Tid): Aux
    requires Ready(s, t) && s.work[t].Copying?
  {
    var Copying(j, b, from) := s.work[t];
    var n := s.emptied[b] + (j.cur - from);
    a.(done := a.done + Range(from, j.cur),
       place := if n == BLOCK_SIZE then a.place[b := Emptied(Num(from), t)] else a.place)
  }

  lemma SameBlock(index: map<nat, Block>, place: map<Block, Place>, k: nat, m: nat)
    requires IndexOk(index, place) && k in index && m in index && index[k] == index[m]
    ensures k == m
  {
  }

  /** The indices a consumer is about to mark are all in one block. */
  lemma SpanInBlock(from: nat, cur: nat)
    requires from < cur && Num(cur - 1) == Num(from)
    ensures forall i :: from <= i < cur ==> Num(i) == Num(from)
  {
    forall i | from <= i < cur ensures Num(i) == Num(from) {
      NumOrder(from, i);
      NumOrder(i, cur - 1);
    }
  }

  lemma MarkCounts(index: map<nat, Block>, emptied: map<Block, nat>, place: map<Block, Place>, done: set<nat>, t: Tid, from: nat, cur: nat)
    requires IndexOk(index, place) && CountsOk(index, emptied, place, done) && emptied.Keys == place.Keys
    requires from < cur && Num(cur - 1) == Num(from) && Num(from) in index
    requires forall i :: from <= i < cur ==> i !in done
    ensures var b, k := index[Num(from)], Num(from);
      && b in emptied && b in place && place[b] == Indexed(k)
      && var n := emptied[b] + (cur - from);
      && n == |DoneIn(done + Range(from, cur), k)|
      && n <= BLOCK_SIZE
      && CountsOk(index, emptied[b := n], if n == BLOCK_SIZE then place[b := Emptied(k, t)] else place, done + Range(from, cur))
  {
    SpanInBlock(from, cur);
    DoneMore(done, from, cur, Num(from));
    AllDone(done, Num(from));
    AllDone(done + Range(from, cur), Num(from));
    forall k | k in index && index[k] == index[Num(from)] ensures k == Num(from) { SameBlock(index, place, k, Num(from)); }
  }

  lemma MarkIndex(index: map<nat, Block>, place: map<Block, Place>, b: Block, k: nat, t: Tid)
    requires IndexOk(index, place) && b in place && place[b] == Indexed(k)
    ensures IndexOk(index, place[b := Emptied(k, t)])
  {
  }

  lemma MarkHolders(s: State, a: Aux, t: Tid, b: Block, k: nat, w: Work)
    requires HoldersOk(s, a) && t in s.work && HandOf(t, s.work[t]) == None && b in a.place && a.place[b] == Indexed(k)
    requires w.Clearing? && w.b == b && w.k == k
    ensures HoldersOk(Doing(s, t, w), a.(place := a.place[b := Emptied(k, t)]))
  {
  }

  lemma MarkTodo(work: map<Tid, Work>, owner: seq<Tid>, done: set<nat>, t: Tid, w: Work)
    requires TodoOk(work, owner, done) && t in work && work[t].Copying? && work[t].from <= work[t].j.cur <= work[t].j.hi
    requires w != Off && !w.Copying? && w.j == work[t].j
    ensures TodoOk(work[t := w], owner, done + Range(work[t].from, work[t].j.cur))
  {
    var more := Range(work[t].from, work[t].j.cur);
    forall i | i in done + more ensures i < |owner| {
      if i !in done { assert TodoFrom(work[t]) <= i < work[t].j.hi; }
    }
    forall u, i | u in work && u != t && work[u] != Off && TodoFrom(work[u]) <= i < work[u].j.hi ensures i !in more {
      assert i !in done && i < |owner| && owner[i] == u;
    }
  }

  lemma MarkLive(index: map<nat, Block>, tail: nat, done: set<nat>, more: set<nat>)
    requires LiveOk(index, tail, done)
    ensures LiveOk(index, tail, done + more)
  {
    forall k: nat | k < Cover(tail) && |DoneIn(done + more, k)| < BLOCK_SIZE ensures k in index {
      SubsetSize(DoneIn(done, k), DoneIn(done + more, k));
    }
  }

  lemma MarkChain(prod: Producer, tail: nat, index: map<nat, Block>, emptied: map<Block, nat>, place: map<Block, Place>, b: Block, n: nat, k: nat)
    requires ChainOk(prod, tail, index, emptied) && ProducerHand(prod, place) && b in place && place[b] == Indexed(k)
    ensures ChainOk(prod, tail, index, emptied[b := n])
  {
  }

  lemma MarkMemory(s: State, a: Aux, t: Tid)
    requires MemoryOk(s, a) && t in s.work && Ready(s, t) && s.work[t].Copying? && !CopiesMore(s.work[t].j, s.work[t].from)
    requires var Copying(j, b, from) := s.work[t];
      && from < j.cur && Num(j.cur - 1) == Num(from) && Num(from) in s.index && s.index[Num(from)] == b
      && forall i :: from <= i < j.cur ==> i !in a.done
    ensures MemoryOk(WorkStep(s, t), MarkAux(s, a, t))
    ensures var Copying(j, b, from) := s.work[t]; b in a.place && a.place[b] == Indexed(Num(from))
  {
    hide HoldersOk, ConsumersOk, ProducerOk, LiveOk, CountsOk, DoneIn, Num, Base;
    var Copying(j, b, from) := s.work[t];
    MarkCounts(s.index, s.emptied, a.place, a.done, t, from, j.cur);
    MarkIndex(s.index, a.place, b, Num(from), t);
    MarkLive(s.index, s.q.tail, a.done, Range(from, j.cur));
    assert b in s.emptied;
  }

  lemma MarkStep(s: State, a: Aux, t: Tid)
    requires Inv(s, a) && t in s.work && s.work[t].Copying? && !CopiesMore(s.work[t].j, s.work[t].from)
    ensures Ready(s, t) && Inv(WorkStep(s, t), MarkAux(s, a, t))
  {
    hide OD.Inv, MemoryOk, HandsOk, PoolOk, TailOk, NoneBeyond, WrittenOk, ChainOk, ProducerHand;
    var Copying(j, b, from) := s.work[t];
    assert JobOk(t, s.work[t], s.q.pc, s.q.head, s.index, a.log);
    MarkReady(s, a, t);
    var s', a' := WorkStep(s, t), MarkAux(s, a, t);
    MarkMemory(s, a, t);
    var w := s'.work[t];
    if w.Clearing? { MarkHolders(s, a, t, b, Num(from), w); } else { HandsKept(s.work, a.place, t, w); }
    MarkTodo(s.work, a.od.owner, a.done, t, w);
    MarkChain(s.prod, s.q.tail, s.index, s.emptied, a.place, b, s'.emptied[b], Num(from));
    assert s'.work.Keys == s.work.Keys;
  }

  lemma MarkReady(s: State, a: Aux, t: Tid)
    requires MemoryOk(s, a) && ConsumersOk(s, a) && t in s.work && s.work[t].Copying?
    ensures Ready(s, t)
    ensures var Copying(j, b, from) := s.work[t];
      forall i :: from <= i < j.cur ==> i !in a.done
  {
    hide CountsOk, LiveOk, CellsOk;
    assert JobOk(t, s.work[t], s.q.pc, s.q.head, s.index, a.log);
  }

  // ---- A consumer takes an emptied block out of the index and returns it ----

  /** Nobody still needs the entry of an emptied block. */
  lemma ClearedUnused(index: map<nat, Block>, emptied: map<Block, nat>, place: map<Block, Place>, done: set<nat>, k: nat, t: Tid)
    requires CountsOk(index, emptied, place, done) && emptied.Keys == place.Keys && k in index && index[k] in place
    requires place[index[k]] == Emptied(k, t)
    ensures |DoneIn(done, k)| == BLOCK_SIZE
    ensures forall i :: i !in done ==> Num(i) != k
  {
    AllDone(done, k);
    forall i: nat | i !in done ensures Num(i) != k { InBlock(i, k); }
  }

  ghost function ClearAux(a: Aux, t: Tid, b: Block): Aux {
    a.(place := a.place[b := Loose(t)])
  }

  lemma ClearMemory(s: State, a: Aux, t: Tid, b: Block, k: nat)
    requires MemoryOk(s, a) && b in a.place && a.place[b] == Emptied(k, t)
    ensures MemoryOk(s.(index := s.index - {k}), ClearAux(a, t, b))
    ensures forall i :: i !in a.done ==> Num(i) != k
  {
    ClearedUnused(s.index, s.emptied, a.place, a.done, k, t);
  }

  lemma ClearJobs(s: State, a: Aux, t: Tid, w: Work, k: nat)
    requires ConsumersOk(s, a) && t in s.work && s.work[t].Clearing? && w.Returning? && w.j == s.work[t].j
    requires forall i :: i !in a.done ==> Num(i) != k
    ensures ConsumersOk(Doing(s, t, w).(index := s.index - {k}), a)
  {
    hide Num;
    TodoKept(s.work, a.od.owner, a.done, t, w);
    var work' := s.work[t := w];
    forall u | u in work' ensures JobOk(u, work'[u], s.q.pc, s.q.head, s.index - {k}, a.log) {
      assert JobOk(u, s.work[u], s.q.pc, s.q.head, s.index, a.log);
      if s.work[u].Copying? { assert s.work[u].from !in a.done; }
    }
    assert work'.Keys == s.work.Keys;
  }

  lemma ChainKept(index: map<nat, Block>, index': map<nat, Block>, tail: nat, chain: seq<Block>, from: nat)
    requires forall k :: k >= Num(tail) && k in index ==> k in index' && index'[k] == index[k]
    ensures ChainIn(index, tail, chain, from) ==> ChainIn(index', tail, chain, from)
  {
  }

  lemma ClearProducer(s: State, a: Aux, k: nat)
    requires ProducerOk(s) && s.q.head <= s.q.tail
    requires forall i :: i in a.done ==> i < s.q.head
    requires forall i :: i !in a.done ==> Num(i) != k
    ensures ProducerOk(s.(index := s.index - {k}))
  {
    var tail, index' := s.q.tail, s.index - {k};
    InBlock(Base(k) + BLOCK_SIZE - 1, k);
    Position(tail);
    assert Base(k) + BLOCK_SIZE - 1 in a.done;
    if Num(tail) < k { BaseOrder(Num(tail), k); }
    assert k < Num(tail);
    ChainKept(s.index, index', tail, ChainOf(s.prod), NextEntry(s.prod));
    if s.prod.Writing? {
      forall i: nat | i < s.prod.i <= |s.prod.xs| ensures Stored(index', s.cells, tail + i, s.prod.xs[i]) {
        NumOrder(tail, tail + i);
        assert Stored(s.index, s.cells, tail + i, s.prod.xs[i]);
      }
    }
  }

  lemma ClearHolders(s: State, a: Aux, t: Tid, w: Work)
    requires HoldersOk(s, a) && t in s.work && s.work[t].Clearing? && w == Returning(s.work[t].j, s.work[t].b)
    ensures HoldersOk(Doing(s, t, w), ClearAux(a, t, s.work[t].b))
    ensures s.work[t].b in a.place && a.place[s.work[t].b] == Emptied(s.work[t].k, t)
  {
  }

  lemma DoneBound(s: State, a: Aux)
    requires Inv(s, a)
    ensures forall i :: i in a.done ==> i < s.q.head
  {
  }

  lemma ClearStep(s: State, a: Aux, t: Tid)
    requires Inv(s, a) && t in s.work && s.work[t].Clearing?
    ensures Ready(s, t) && Inv(WorkStep(s, t), ClearAux(a, t, s.work[t].b))
  {
    hide OD.Inv, IndexOk, BlocksOk, CountsOk, LiveOk, CellsOk, PoolOk, HandsOk, ProducerHand, TodoOk, TailOk, NoneBeyond, ChainOk, WrittenOk;
    var Clearing(j, b, k) := s.work[t];
    var w := Returning(j, b);
    ClearHolders(s, a, t, w);
    ClearMemory(s, a, t, b, k);
    ClearJobs(s, a, t, w, k);
    DoneBound(s, a);
    ClearProducer(s, a, k);
  }

  lemma ReturnHolders(s: State, a: Aux, t: Tid, w: Work)
    requires HoldersOk(s, a) && t in s.work && s.work[t].Returning? && w == Lookup(s.work[t].j)
    ensures s.work[t].b in a.place && a.place[s.work[t].b] == Loose(t)
    ensures HoldersOk(Doing(s, t, w).(pool := s.pool + {s.work[t].b}), a.(place := a.place[s.work[t].b := InPool]))
  {
  }

  /** A block outside the index may change its place outside the index. */
  lemma PlaceOutside(s: State, a: Aux, b: Block, p: Place)
    requires MemoryOk(s, a) && b in a.place && NumberOf(a.place[b]) == None == NumberOf(p)
    ensures MemoryOk(s, a.(place := a.place[b := p]))
  {
  }

  lemma ReturnStep(s: State, a: Aux, t: Tid)
    requires Inv(s, a) && t in s.work && s.work[t].Returning?
    ensures Ready(s, t) && Inv(WorkStep(s, t), a.(place := a.place[s.work[t].b := InPool]))
  {
    hide OD.Inv, IndexOk, BlocksOk, CountsOk, LiveOk, CellsOk, PoolOk, HandsOk, ProducerHand, TodoOk, TailOk, NoneBeyond, ChainOk, WrittenOk;
    var Returning(j, b) := s.work[t];
    var w := Lookup(j);
    assert JobOk(t, s.work[t], s.q.pc, s.q.head, s.index, a.log);
    ReturnHolders(s, a, t, w);
    PlaceOutside(s, a, b, InPool);
    TodoKept(s.work, a.od.owner, a.done, t, w);
    assert s.work[t := w].Keys == s.work.Keys;
  }

  ghost function WorkAux(s: State, a: Aux, t: Tid): Aux
    requires Ready(s, t) && s.work[t] != Off
  {
    match s.work[t]
    case Copying(j, b, from) => if CopiesMore(j, from) then a else MarkAux(s, a, t)
    case Clearing(_, b, _) => ClearAux(a, t, b)
    case Returning(_, b) => a.(place := a.place[b := InPool])
    case _ => a
  }

  lemma WorkKeepsInv(s: State, a: Aux, t: Tid)
    requires Inv(s, a) && t in s.work && s.work[t] != Off
    ensures Ready(s, t) && Inv(WorkStep(s, t), WorkAux(s, a, t))
  {
    hide Inv;
    match s.work[t]
    case Lookup(j) => if j.cur < j.hi { LookupStep(s, a, t); } else { FinishStep(s, a, t); }
    case Copying(j, b, from) => if CopiesMore(j, from) { CopyStep(s, a, t); } else { MarkStep(s, a, t); }
    case Clearing(_, _, _) => ClearStep(s, a, t);
    case Returning(_, _) => ReturnStep(s, a, t);
  }

  // ---- A consumer's accesses among the counters ----

  lemma CounterShape(q: OD.State, e: OD.Event)
    requires OD.Enabled(q, e) && !e.Publish? && (e.Run? ==> !q.pc[e.t].Holding?)
    ensures var q' := OD.Apply(q, e);
      && q'.tail == q.tail && q'.pc.Keys == q.pc.Keys && q'.pc == q.pc[e.t := q'.pc[e.t]]
      && if e.Run? && q.pc[e.t].TakeHead? then
           q'.head == q.head + q.pc[e.t].got && q'.pc[e.t] == OD.Holding(q.head, q.pc[e.t].got)
         else q'.head == q.head && !q'.pc[e.t].Holding?
  {
  }

  lemma CounterEffects(q: OD.State, od: OD.Aux, e: OD.Event)
    requires OD.Inv(q, od) && OD.Enabled(q, e) && !e.Publish?
    ensures var q', od' := OD.Apply(q, e), OD.AuxApply(q, od, e);
      && OD.Inv(q', od') && |od.owner| == q.head && q'.head <= q'.tail
      && od'.owner == od.owner + if e.Run? && q.pc[e.t].TakeHead? then seq(q.pc[e.t].got, _ => e.t) else []
  {
    OD.EventKeepsInv(q, od, e);
    OD.HeadBound(OD.Apply(q, e), OD.AuxApply(q, od, e));
    assert e.Run? ==> OD.ThreadOk(q, od.slots, e.t, q.pc[e.t]);
    hide OD.LiveOk, OD.SlotsOk, OD.ThreadsOk, OD.ThreadOk, OD.Tally, OD.Paint;
  }

  lemma OtherJobs(s: State, a: Aux, pcs: map<Tid, OD.Pc>, head: nat, t: Tid)
    requires JobsOk(s.work, s.q.pc, s.q.head, s.index, a.log) && t in s.work && s.q.head <= head <= |a.log|
    requires t in s.q.pc && t in pcs && pcs.Keys == s.q.pc.Keys && pcs == s.q.pc[t := pcs[t]]
    ensures forall u :: u in s.work && u != t ==> JobOk(u, s.work[u], pcs, head, s.index, a.log)
  {
  }

  lemma QuietCounter(s: State, a: Aux, e: OD.Event)
    requires Inv(s, a) && OD.Enabled(s.q, e) && !e.Publish? && e.t in s.work && s.work[e.t] == Off
    requires e.Run? ==> !s.q.pc[e.t].TakeHead? && !s.q.pc[e.t].Holding?
    ensures Inv(s.(q := OD.Apply(s.q, e)), a.(od := OD.AuxApply(s.q, a.od, e)))
  {
    hide OD.Inv, OD.Apply, OD.AuxApply, IndexOk, BlocksOk, CountsOk, LiveOk, CellsOk, PoolOk, HandsOk, ProducerHand, TodoOk, TailOk, NoneBeyond, ChainOk, WrittenOk;
    CounterShape(s.q, e);
    CounterEffects(s.q, a.od, e);
    assert a.od.owner + [] == a.od.owner;
    OtherJobs(s, a, OD.Apply(s.q, e).pc, s.q.head, e.t);
  }

  lemma TakeTodo(work: map<Tid, Work>, owner: seq<Tid>, done: set<nat>, t: Tid, got: nat, owner': seq<Tid>)
    requires TodoOk(work, owner, done) && t in work && work[t] == Off
    requires owner <= owner' && |owner'| == |owner| + got && forall i :: |owner| <= i < |owner'| ==> owner'[i] == t
    ensures TodoOk(work[t := Lookup(Job(|owner|, |owner|, |owner| + got, []))], owner', done)
  {
    var work' := work[t := Lookup(Job(|owner|, |owner|, |owner| + got, []))];
    forall u, i | u in work' && work'[u] != Off && TodoFrom(work'[u]) <= i < work'[u].j.hi
      ensures i !in done && i < |owner'| && owner'[i] == u
    {
      if u != t {
        assert work'[u] == work[u] && i !in done;
        assert owner'[i] == owner[i];
      }
    }
    forall i: nat | i < |owner'| && i !in done
      ensures owner'[i] in work' && work'[owner'[i]] != Off && TodoFrom(work'[owner'[i]]) <= i < work'[owner'[i]].j.hi
    {
      if i < |owner| { assert owner'[i] == owner[i]; }
    }
    assert TodoOk(work', owner', done);
  }

  /** A consumer takes its indices from the head. */
  lemma TakeStep(s: State, a: Aux, t: Tid)
    requires Inv(s, a) && t in s.work && s.work[t] == Off && t in s.q.pc && s.q.pc[t].TakeHead?
    ensures Inv(CounterStep(s, t), a.(od := OD.AuxApply(s.q, a.od, OD.Run(t))))
  {
    hide OD.Inv, OD.AuxApply, IndexOk, BlocksOk, CountsOk, LiveOk, CellsOk, PoolOk, ProducerHand, TailOk, NoneBeyond, ChainOk, WrittenOk, TodoOk;
    var s' := CounterStep(s, t);
    CounterShape(s.q, OD.Run(t));
    CounterEffects(s.q, a.od, OD.Run(t));
    OtherJobs(s, a, s'.q.pc, s'.q.head, t);
    TakeTodo(s.work, a.od.owner, a.done, t, s.q.pc[t].got, OD.AuxApply(s.q, a.od, OD.Run(t)).owner);
    HandsKept(s.work, a.place, t, s'.work[t]);
    assert s'.work.Keys == s.work.Keys;
  }

  // ---- The producer ----

  lemma NeedsBounds(tail: nat, n: nat)
    ensures FirstFresh(tail) <= Needs(tail, n)
    ensures Num(tail) + FirstFresh(tail) == Cover(tail)
  {
    NumOrder(tail, tail + n);
    Position(tail + n);
    if Num(tail + n) == Num(tail) { InBlock(tail + n, Num(tail)); InBlock(tail, Num(tail)); }
  }

  lemma StartStep(s: State, a: Aux, xs: seq<Item>)
    requires Inv(s, a) && s.prod == Resting && |xs| + BLOCK_SIZE <= 2 * HALF
    ensures Inv(StartEnqueue(s, xs), a)
  {
    hide OD.Inv, HandsOk, PoolOk, IndexOk, BlocksOk, CountsOk, LiveOk, CellsOk, JobsOk, TodoOk, BlockBaseDiff;
    NeedsBounds(s.q.tail, |xs|);
    DemandExactly(s.q.tail, |xs|);
    var s' := StartEnqueue(s, xs);
    assert ProducerHand(s'.prod, a.place);
    assert ProducerOk(s');
  }

  lemma GrantHolders(s: State, a: Aux, b: Block)
    requires HoldersOk(s, a) && s.prod.Allocating? && b in s.pool
    ensures b in a.place && a.place[b] == InPool
    ensures HoldersOk(s.(pool := s.pool - {b}, prod := Resetting(s.prod.xs, s.prod.chain, s.prod.left - BLOCK_SIZE, b)), a.(place := a.place[b := New]))
  {
  }

  lemma GrantStep(s: State, a: Aux, b: Block)
    requires Inv(s, a) && Enabled(s, Grant(b))
    ensures Inv(Apply(s, Grant(b)), a.(place := a.place[b := New]))
  {
    hide OD.Inv, HandsOk, PoolOk, ProducerHand, IndexOk, BlocksOk, CountsOk, LiveOk, CellsOk, JobsOk, TodoOk, SizeOf, Needs;
    CountDown(s.prod.left, Needs(s.q.tail, |s.prod.xs|) - |s.prod.chain|) by { hide OD.Inv, MemoryOk, HoldersOk, ConsumersOk, SizeOf; }
    GrantHolders(s, a, b);
    PlaceOutside(s, a, b, New);
  }

  lemma ResetMemory(s: State, a: Aux, b: Block)
    requires MemoryOk(s, a) && b in a.place && a.place[b] == New
    ensures MemoryOk(s.(emptied := s.emptied[b := 0]), a)
  {
  }

  lemma ResetStep(s: State, a: Aux)
    requires Inv(s, a) && s.prod.Resetting?
    ensures Inv(ProducerStep(s), a)
  {
    hide OD.Inv, HandsOk, PoolOk, IndexOk, BlocksOk, CountsOk, LiveOk, CellsOk, JobsOk, TodoOk;
    ResetMemory(s, a, s.prod.b);
  }

  /** Blocks from the tail's cover on hold no index that has been dequeued. */
  lemma NoneDoneBeyond(tail: nat, done: set<nat>, k: nat)
    requires k >= Cover(tail) && forall i :: i in done ==> i < tail
    ensures DoneIn(done, k) == {}
    ensures forall i: nat :: i < tail ==> Num(i) < k
  {
    CoverOrder(k, tail);
    forall i: nat | i < tail ensures Num(i) < k { Position(i); CoverOrder(Num(i), tail); }
  }

  ghost function InsertAux(a: Aux, b: Block, k: nat): Aux {
    a.(place := a.place[b := Indexed(k)])
  }

  lemma InsertCells(s: State, a: Aux, b: Block, k: nat)
    requires CellsOk(s.index, s.cells, a.done, a.log)
    requires forall i: nat :: i < |a.log| ==> Num(i) < k
    ensures CellsOk(s.index[k := b], s.cells, a.done, a.log)
  {
  }

  lemma InsertIndexed(index: map<nat, Block>, place: map<Block, Place>, b: Block, k: nat)
    requires IndexOk(index, place) && b in place && place[b] == New && k !in index
    ensures IndexOk(index[k := b], place[b := Indexed(k)])
  {
  }

  lemma InsertCounted(index: map<nat, Block>, emptied: map<Block, nat>, place: map<Block, Place>, done: set<nat>, b: Block, k: nat)
    requires IndexOk(index, place) && CountsOk(index, emptied, place, done) && b in place && place[b] == New && k !in index
    requires DoneIn(done, k) == {} && b in emptied && emptied[b] == 0
    ensures CountsOk(index[k := b], emptied, place[b := Indexed(k)], done)
  {
  }

  lemma InsertLive(index: map<nat, Block>, tail: nat, done: set<nat>, b: Block, k: nat)
    requires LiveOk(index, tail, done)
    ensures LiveOk(index[k := b], tail, done)
  {
  }

  lemma InsertMemory(s: State, a: Aux, b: Block, k: nat)
    requires MemoryOk(s, a) && b in a.place && a.place[b] == New && b in s.emptied && s.emptied[b] == 0 && k !in s.index
    requires DoneIn(a.done, k) == {} && forall i: nat :: i < |a.log| ==> Num(i) < k
    ensures MemoryOk(s.(index := s.index[k := b]), InsertAux(a, b, k))
  {
    hide CellsOk, Num, DoneIn, IndexOk, CountsOk, LiveOk;
    InsertCells(s, a, b, k);
    InsertIndexed(s.index, a.place, b, k);
    InsertCounted(s.index, s.emptied, a.place, a.done, b, k);
    InsertLive(s.index, s.q.tail, a.done, b, k);
    assert InsertAux(a, b, k).place.Keys == a.place.Keys;
  }

  lemma JobsIndex(s: State, a: Aux, index': map<nat, Block>, k: nat)
    requires ConsumersOk(s, a) && s.q.head <= |a.log|
    requires forall i: nat :: i < |a.log| ==> Num(i) < k
    requires forall m :: m < k && m in s.index ==> m in index' && index'[m] == s.index[m]
    ensures ConsumersOk(s.(index := index'), a)
  {
  }

  lemma InsertHolders(s: State, a: Aux)
    requires HoldersOk(s, a) && s.prod.Inserting?
    ensures s.prod.b in a.place && a.place[s.prod.b] == New
    ensures HoldersOk(s.(prod := Allocating(s.prod.xs, s.prod.chain + [s.prod.b], s.prod.left)), InsertAux(a, s.prod.b, Num(s.q.tail) + |s.prod.chain|))
  {
  }

  lemma InsertProducer(s: State)
    requires ProducerOk(s) && s.prod.Inserting? && Num(s.q.tail) + |s.prod.chain| !in s.index
    ensures ProducerOk(ProducerStep(s))
  {
  }

  lemma InsertStep(s: State, a: Aux)
    requires Inv(s, a) && s.prod.Inserting?
    ensures Inv(ProducerStep(s), InsertAux(a, s.prod.b, Num(s.q.tail) + |s.prod.chain|))
  {
    hide OD.Inv, MemoryOk, HoldersOk, ConsumersOk, ProducerOk, Num;
    var k := Num(s.q.tail) + |s.prod.chain|;
    DoneBound(s, a);
    InsertFacts(s, a, k);
    InsertHolders(s, a);
    InsertMemory(s, a, s.prod.b, k);
    InsertProducer(s);
    JobsIndex(s, a, s.index[k := s.prod.b], k);
    InsertedSame(s, a, k);
  }

  /** The insertion's effect, put together. */
  lemma InsertedSame(s: State, a: Aux, k: nat)
    requires s.prod.Inserting? && k == Num(s.q.tail) + |s.prod.chain|
    requires ConsumersOk(s.(index := s.index[k := s.prod.b]), a) && MemoryOk(s.(index := s.index[k := s.prod.b]), InsertAux(a, s.prod.b, k))
    requires HoldersOk(s.(prod := Allocating(s.prod.xs, s.prod.chain + [s.prod.b], s.prod.left)), InsertAux(a, s.prod.b, k))
    ensures ConsumersOk(ProducerStep(s), InsertAux(a, s.prod.b, k)) && MemoryOk(ProducerStep(s), InsertAux(a, s.prod.b, k))
    ensures HoldersOk(ProducerStep(s), InsertAux(a, s.prod.b, k))
  {
    hide JobsOk, TodoOk, HandsOk, PoolOk, ProducerHand, IndexOk, BlocksOk, CountsOk, LiveOk, CellsOk, Num;
  }

  lemma InsertFacts(s: State, a: Aux, k: nat)
    requires ProducerOk(s) && s.prod.Inserting? && k == Num(s.q.tail) + |s.prod.chain| && |a.log| == s.q.tail
    requires s.q.head <= s.q.tail && forall i :: i in a.done ==> i < s.q.head
    ensures k !in s.index && DoneIn(a.done, k) == {} && s.prod.b in s.emptied && s.emptied[s.prod.b] == 0
    ensures forall i: nat :: i < |a.log| ==> Num(i) < k
  {
    hide WrittenOk, TailOk;
    NeedsBounds(s.q.tail, |s.prod.xs|);
    NoneDoneBeyond(s.q.tail, a.done, k);
  }

  lemma RefuseStep(s: State, a: Aux)
    requires Inv(s, a) && Enabled(s, Refuse)
    ensures Inv(Apply(s, Refuse), a)
  {
    hide OD.Inv, HandsOk, PoolOk, IndexOk, BlocksOk, CountsOk, LiveOk, CellsOk, JobsOk, TodoOk;
    NeedsBounds(s.q.tail, |s.prod.xs|);
    var s' := Apply(s, Refuse);
    assert ChainOk(s'.prod, s.q.tail, s.index, s.emptied);
    assert ProducerHand(s'.prod, a.place);
  }

  ghost function UndoAux(s: State, a: Aux): Aux
    requires s.prod.Undoing?
  {
    var Undoing(chain, start, j) := s.prod;
    if j < |chain| then a.(place := a.place[chain[j] := Undone]) else a
  }

  lemma UndoMemory(s: State, a: Aux, k: nat, b: Block)
    requires MemoryOk(s, a) && Entry(s.index, k, b) && k >= Cover(s.q.tail) && b in a.place && a.place[b] == Indexed(k)
    ensures MemoryOk(s.(index := s.index - {k}), a.(place := a.place[b := Undone]))
  {
    assert a.place[b := Undone].Keys == a.place.Keys;
  }

  lemma UndoHolders(s: State, a: Aux)
    requires HoldersOk(s, a) && s.prod.Undoing? && s.prod.start <= s.prod.j < |s.prod.chain|
    requires var b := s.prod.chain[s.prod.j]; b in a.place && a.place[b].Indexed?
    ensures HoldersOk(s.(prod := s.prod.(j := s.prod.j + 1)), UndoAux(s, a))
  {
    hide HandsOk, PoolOk, ProducerHand;
    var b := s.prod.chain[s.prod.j];
    UndoPool(s.pool, a.place, b);
    UndoHands(s.work, a.place, b);
    UndoHand(s.prod, a.place);
  }

  lemma UndoHand(prod: Producer, place: map<Block, Place>)
    requires ProducerHand(prod, place) && prod.Undoing? && prod.start <= prod.j < |prod.chain|
    requires var b := prod.chain[prod.j]; b in place && place[b].Indexed?
    ensures ProducerHand(prod.(j := prod.j + 1), place[prod.chain[prod.j] := Undone])
  {
    var Undoing(chain, start, j) := prod;
    assert chain[start..j + 1] == chain[start..j] + [chain[j]];
  }

  lemma UndoPool(pool: set<Block>, place: map<Block, Place>, b: Block)
    requires PoolOk(pool, place) && b in place && place[b].Indexed?
    ensures PoolOk(pool, place[b := Undone])
  {
  }

  lemma UndoHands(work: map<Tid, Work>, place: map<Block, Place>, b: Block)
    requires HandsOk(work, place) && b in place && place[b].Indexed?
    ensures HandsOk(work, place[b := Undone])
  {
  }

  lemma UndoFacts(s: State, a: Aux)
    requires MemoryOk(s, a) && ProducerOk(s) && s.prod.Undoing? && s.prod.j < |s.prod.chain|
    requires |a.log| == s.q.tail && forall i :: i in a.done ==> i < s.q.tail
    ensures var k := Num(s.q.tail) + s.prod.j;
      && k >= Cover(s.q.tail) && Entry(s.index, k, s.prod.chain[s.prod.j])
      && s.prod.chain[s.prod.j] in a.place && a.place[s.prod.chain[s.prod.j]] == Indexed(k)
      && forall i: nat :: i < |a.log| ==> Num(i) < k
  {
    hide LiveOk, CellsOk, WrittenOk, TailOk, NoneBeyond;
    var k := Num(s.q.tail) + s.prod.j;
    NeedsBounds(s.q.tail, 0);
    NoneDoneBeyond(s.q.tail, a.done, k);
  }

  lemma UndoProducer(s: State)
    requires ProducerOk(s) && s.prod.Undoing? && s.prod.j < |s.prod.chain|
    ensures ProducerOk(s.(index := s.index - {Num(s.q.tail) + s.prod.j}, prod := s.prod.(j := s.prod.j + 1)))
  {
  }

  function Undid(s: State): State
    requires s.prod.Undoing?
  {
    s.(index := s.index - {Num(s.q.tail) + s.prod.j}, prod := s.prod.(j := s.prod.j + 1))
  }

  lemma UndoParts(s: State, a: Aux)
    requires MemoryOk(s, a) && HoldersOk(s, a) && ConsumersOk(s, a) && ProducerOk(s)
    requires |a.log| == s.q.tail && s.q.head <= s.q.tail && forall i :: i in a.done ==> i < s.q.tail
    requires s.prod.Undoing? && s.prod.j < |s.prod.chain|
    ensures MemoryOk(Undid(s), UndoAux(s, a)) && HoldersOk(Undid(s), UndoAux(s, a))
    ensures ConsumersOk(Undid(s), UndoAux(s, a)) && ProducerOk(Undid(s))
  {
    hide PoolOk, HandsOk, ProducerHand, IndexOk, BlocksOk, CountsOk, LiveOk, CellsOk, JobsOk, TodoOk, TailOk, NoneBeyond, WrittenOk;
    var k := Num(s.q.tail) + s.prod.j;
    UndoFacts(s, a);
    UndoHolders(s, a);
    UndoMemory(s, a, k, s.prod.chain[s.prod.j]);
    JobsIndex(s, a, s.index - {k}, k);
    UndoProducer(s);
  }

  lemma UndoStep(s: State, a: Aux)
    requires Inv(s, a) && s.prod.Undoing? && s.prod.j < |s.prod.chain|
    ensures ProducerReady(s) && Inv(ProducerStep(s), UndoAux(s, a))
  {
    hide OD.Inv, MemoryOk, HoldersOk, ConsumersOk, TailOk, NoneBeyond, WrittenOk;
    DoneBound(s, a);
    UndoParts(s, a);
    assert ProducerStep(s) == Undid(s);
  }

  lemma UndoneStep(s: State, a: Aux)
    requires Inv(s, a) && s.prod.Undoing? && s.prod.j >= |s.prod.chain|
    ensures ProducerReady(s) && Inv(ProducerStep(s), a)
  {
    hide OD.Inv, HandsOk, PoolOk, IndexOk, BlocksOk, CountsOk, LiveOk, CellsOk, JobsOk, TodoOk;
    var Undoing(chain, start, j) := s.prod;
    assert start <= j == |chain|;
    assert chain[start..] == chain[start..j];
    assert ProducerStep(s) == s.(prod := Freeing(chain[start..]));
    assert ProducerHand(Freeing(chain[start..]), a.place);
    assert NoneBeyond(s.index, s.q.tail, Freeing(chain[start..]));
  }

  ghost function FreeAux(s: State, a: Aux): Aux
    requires s.prod.Freeing?
  {
    if s.prod.blocks == [] then a else a.(place := a.place[s.prod.blocks[0] := InPool])
  }

  lemma FreeHolders(s: State, a: Aux)
    requires HoldersOk(s, a) && s.prod.Freeing? && s.prod.blocks != []
    ensures var b := s.prod.blocks[0];
      && b in a.place && a.place[b] == Undone
      && HoldersOk(s.(pool := s.pool + {b}, prod := Freeing(s.prod.blocks[1..])), a.(place := a.place[b := InPool]))
  {
    var bs := s.prod.blocks;
    assert bs == [bs[0]] + bs[1..];
    assert forall b :: b in bs <==> b == bs[0] || b in bs[1..];
    assert bs[0] !in bs[1..];
  }

  lemma FreeStep(s: State, a: Aux)
    requires Inv(s, a) && s.prod.Freeing?
    ensures Inv(ProducerStep(s), FreeAux(s, a))
  {
    hide OD.Inv, HandsOk, PoolOk, IndexOk, BlocksOk, CountsOk, LiveOk, CellsOk, JobsOk, TodoOk, TailOk;
    if s.prod.blocks != [] {
      FreeHolders(s, a);
      PlaceOutside(s, a, s.prod.blocks[0], InPool);
    }
    assert NoneBeyond(s.index, s.q.tail, ProducerStep(s).prod);
    assert HoldersOk(ProducerStep(s), FreeAux(s, a));
    assert MemoryOk(ProducerStep(s), FreeAux(s, a));
    assert ProducerOk(ProducerStep(s));
  }

  lemma AllocatedStep(s: State, a: Aux)
    requires Inv(s, a) && s.prod.Allocating? && s.prod.left <= 0
    ensures ProducerReady(s) && Inv(ProducerStep(s), a)
  {
    hide OD.Inv, HandsOk, PoolOk, IndexOk, BlocksOk, CountsOk, LiveOk, CellsOk, JobsOk, TodoOk, TailOk, SizeOf, Needs;
    assert ChainOk(s.prod, s.q.tail, s.index, s.emptied);
    CountDown(s.prod.left, Needs(s.q.tail, |s.prod.xs|) - |s.prod.chain|);
  }

  // ---- The producer writes its items and publishes them ----

  /** Two indices share a cell of a block only if they are the same index. */
  lemma OneIndexPerCell(index: map<nat, Block>, place: map<Block, Place>, i: nat, j: nat)
    requires IndexOk(index, place) && Num(i) in index && Num(j) in index
    requires index[Num(i)] == index[Num(j)] && Cell(i) == Cell(j)
    ensures i == j
  {
  }

  lemma WriteKeeps(index: map<nat, Block>, place: map<Block, Place>, cells: map<Block, seq<Item>>, at: nat, x: Item, i: nat, y: Item)
    requires IndexOk(index, place) && Num(at) in index && index[Num(at)] in cells && |cells[index[Num(at)]]| == BLOCK_SIZE
    requires Cell(at) < BLOCK_SIZE && i != at && Stored(index, cells, i, y)
    ensures var b := index[Num(at)]; Stored(index, cells[b := cells[b][Cell(at) := x]], i, y)
  {
  }

  /** The block of the producer's next item is the one its chain names. */
  lemma WriteBlock(s: State, a: Aux)
    requires ProducerOk(s) && MemoryOk(s, a) && s.prod.Writing? && s.prod.i < |s.prod.xs|
    ensures ProducerReady(s) && Cell(s.q.tail + s.prod.i) < BLOCK_SIZE
    ensures var at := s.q.tail + s.prod.i;
      && Num(at) >= Num(s.q.tail) && Num(at) - Num(s.q.tail) < |s.prod.chain|
      && Entry(s.index, Num(at), s.prod.chain[Num(at) - Num(s.q.tail)]) && s.index[Num(at)] in s.cells
  {
    hide CountsOk, LiveOk, CellsOk, TailOk, NoneBeyond, WrittenOk;
    var Writing(xs, chain, i) := s.prod;
    var tail := s.q.tail;
    Position(tail + i);
    NumOrder(tail, tail + i);
    CoverOrder(Num(tail + i), tail + |xs|);
    assert Entry(s.index, Num(tail) + (Num(tail + i) - Num(tail)), chain[Num(tail + i) - Num(tail)]);
  }

  lemma WriteMemory(s: State, a: Aux, b: Block, at: nat, x: Item)
    requires MemoryOk(s, a) && Entry(s.index, Num(at), b) && b in s.cells && Cell(at) < BLOCK_SIZE && at >= |a.log|
    ensures MemoryOk(s.(cells := s.cells[b := s.cells[b][Cell(at) := x]]), a)
  {
    hide CountsOk, LiveOk;
    var cells' := s.cells[b := s.cells[b][Cell(at) := x]];
    assert cells'.Keys == s.cells.Keys;
    forall i: nat | i < |a.log| && i !in a.done && Num(i) in s.index ensures Stored(s.index, cells', i, a.log[i]) {
      WriteKeeps(s.index, a.place, s.cells, at, x, i, a.log[i]);
    }
  }

  lemma WriteWritten(s: State, a: Aux, b: Block)
    requires ProducerOk(s) && MemoryOk(s, a) && s.prod.Writing? && s.prod.i < |s.prod.xs|
    requires Entry(s.index, Num(s.q.tail + s.prod.i), b) && b in s.cells && Cell(s.q.tail + s.prod.i) < BLOCK_SIZE
    ensures ProducerOk(s.(cells := s.cells[b := s.cells[b][Cell(s.q.tail + s.prod.i) := s.prod.xs[s.prod.i]]], prod := s.prod.(i := s.prod.i + 1)))
  {
    hide CountsOk, LiveOk, CellsOk, TailOk;
    var Writing(xs, chain, i) := s.prod;
    var at := s.q.tail + i;
    var cells' := s.cells[b := s.cells[b][Cell(at) := xs[i]]];
    forall m: nat | m < i + 1 ensures Stored(s.index, cells', s.q.tail + m, xs[m]) {
      if m < i { WriteKeeps(s.index, a.place, s.cells, at, xs[i], s.q.tail + m, xs[m]); }
    }
  }

  lemma WriteStep(s: State, a: Aux)
    requires Inv(s, a) && s.prod.Writing? && s.prod.i < |s.prod.xs|
    ensures ProducerReady(s) && Inv(ProducerStep(s), a)
  {
    hide OD.Inv, HandsOk, PoolOk, IndexOk, BlocksOk, CountsOk, LiveOk, CellsOk, JobsOk, TodoOk, TailOk, NoneBeyond, ChainOk, WrittenOk;
    var at := s.q.tail + s.prod.i;
    WriteBlock(s, a);
    var b := s.prod.chain[Num(at) - Num(s.q.tail)];
    WriteMemory(s, a, b, at, s.prod.xs[s.prod.i]);
    WriteWritten(s, a, b);
    assert ProducerStep(s) == s.(cells := s.cells[b := s.cells[b][Cell(at) := s.prod.xs[s.prod.i]]], prod := s.prod.(i := s.prod.i + 1));
  }

  ghost function PublishAux(a: Aux, xs: seq<Item>): Aux {
    a.(log := a.log + xs)
  }

  lemma ChainCovers(tail: nat, n: nat, chain: seq<Block>, k: nat)
    requires |chain| == Needs(tail, n)
    ensures k < Cover(tail) || Num(tail) <= k < Num(tail) + |chain| ==> k < Cover(tail + n)
    ensures k < Cover(tail + n) ==> k < Cover(tail) || Num(tail) <= k < Num(tail) + |chain|
  {
  }

  lemma PublishMemory(s: State, a: Aux, tail': nat)
    requires MemoryOk(s, a) && ProducerOk(s) && s.prod.Writing? && s.prod.i >= |s.prod.xs| && |a.log| == s.q.tail
    requires tail' == s.q.tail + |s.prod.xs|
    ensures LiveOk(s.index, tail', a.done) && CellsOk(s.index, s.cells, a.done, a.log + s.prod.xs)
    ensures TailOk(s.index, tail', if s.prod.chain == [] then s.tailBlock else Some(Last(s.prod.chain)))
    ensures NoneBeyond(s.index, tail', Resting)
  {
    hide IndexOk, BlocksOk, CountsOk;
    var Writing(xs, chain, i) := s.prod;
    var tail, log' := s.q.tail, a.log + xs;
    forall k | k in s.index ensures k < Cover(tail') { ChainCovers(tail, |xs|, chain, k); }
    forall k: nat | k < Cover(tail') && |DoneIn(a.done, k)| < BLOCK_SIZE ensures k in s.index {
      ChainCovers(tail, |xs|, chain, k);
      if k >= Cover(tail) { assert Entry(s.index, Num(tail) + (k - Num(tail)), chain[k - Num(tail)]); }
    }
    forall m: nat | m < |log'| && m !in a.done && Num(m) in s.index ensures Stored(s.index, s.cells, m, log'[m]) {
      if m >= tail { assert Stored(s.index, s.cells, tail + (m - tail), xs[m - tail]); }
    }
    if Cell(tail') != 0 {
      Position(tail');
      NumOrder(tail, tail');
      assert Entry(s.index, Num(tail) + (|chain| - 1), chain[|chain| - 1]);
    }
  }

  lemma PublishJobs(s: State, a: Aux, xs: seq<Item>)
    requires ConsumersOk(s, a)
    ensures JobsOk(s.work, s.q.pc, s.q.head, s.index, a.log + xs)
  {
  }

  lemma PublishStep(s: State, a: Aux)
    requires Inv(s, a) && s.prod.Writing? && s.prod.i >= |s.prod.xs|
    ensures ProducerReady(s) && Inv(ProducerStep(s), PublishAux(a, s.prod.xs))
  {
    hide OD.Inv, HandsOk, PoolOk, IndexOk, BlocksOk, CountsOk, LiveOk, CellsOk, JobsOk, TodoOk, TailOk, NoneBeyond;
    OD.PublishKeepsInv(s.q, a.od, |s.prod.xs|);
    PublishMemory(s, a, s.q.tail + |s.prod.xs|);
    PublishJobs(s, a, s.prod.xs);
  }

  // ---- All runs ----

  ghost function ProducerAux(s: State, a: Aux): Aux {
    match s.prod
    case Inserting(_, chain, _, b) => InsertAux(a, b, Num(s.q.tail) + |chain|)
    case Undoing(_, _, _) => UndoAux(s, a)
    case Freeing(_) => FreeAux(s, a)
    case Writing(xs, _, i) => if i < |xs| then a else PublishAux(a, xs)
    case _ => a
  }

  lemma ProducerKeepsInv(s: State, a: Aux)
    requires Inv(s, a) && Enabled(s, Produce)
    ensures ProducerReady(s) && Inv(ProducerStep(s), ProducerAux(s, a))
  {
    hide Inv, ProducerStep;
    match s.prod
    case Allocating(_, _, _) => AllocatedStep(s, a);
    case Resetting(_, _, _, _) => ResetStep(s, a);
    case Inserting(_, _, _, _) => InsertStep(s, a);
    case Undoing(chain, _, j) => if j < |chain| { UndoStep(s, a); } else { UndoneStep(s, a); }
    case Freeing(_) => FreeStep(s, a);
    case Writing(xs, _, i) => if i < |xs| { WriteStep(s, a); } else { PublishStep(s, a); }
  }

  /** The event's own demands always hold: no lookup misses and no write goes astray. */
  ghost predicate Safe(s: State, e: Event) {
    && (e.Consume? ==> Ready(s, e.t))
    && (e.Produce? ==> ProducerReady(s))
  }

  ghost function AuxApply(s: State, a: Aux, e: Event): Aux
    requires Enabled(s, e) && Safe(s, e) && OD.Inv(s.q, a.od)
  {
    match e
    case Start(t, max) => a.(od := OD.AuxApply(s.q, a.od, OD.Start(t, max)))
    case Count(t) => a.(od := OD.AuxApply(s.q, a.od, OD.Run(t)))
    case Consume(t) => WorkAux(s, a, t)
    case Enqueue(_) => a
    case Grant(b) => a.(place := a.place[b := New])
    case Refuse => a
    case Produce => ProducerAux(s, a)
  }

  lemma CountKeepsInv(s: State, a: Aux, t: Tid)
    requires Inv(s, a) && Enabled(s, Count(t))
    ensures Inv(CounterStep(s, t), a.(od := OD.AuxApply(s.q, a.od, OD.Run(t))))
  {
    assert !s.q.pc[t].Holding? by {
      hide OD.Inv, MemoryOk, HoldersOk, ProducerOk, TodoOk;
      assert JobOk(t, s.work[t], s.q.pc, s.q.head, s.index, a.log);
    }
    if s.q.pc[t].TakeHead? { TakeStep(s, a, t); } else { QuietCounter(s, a, OD.Run(t)); }
  }

  lemma EventKeepsInv(s: State, a: Aux, e: Event)
    requires Inv(s, a) && Enabled(s, e)
    ensures Safe(s, e) && Inv(Apply(s, e), AuxApply(s, a, e))
  {
    assert OD.Inv(s.q, a.od);
    hide Inv, OD.Inv, OD.AuxApply, OD.Apply, WorkStep, ProducerStep, CounterStep, WorkAux, ProducerAux, StartEnqueue;
    match e
    case Start(t, max) => QuietCounter(s, a, OD.Start(t, max));
    case Count(t) => CountKeepsInv(s, a, t);
    case Consume(t) => WorkKeepsInv(s, a, t);
    case Enqueue(xs) => StartStep(s, a, xs);
    case Grant(b) => GrantStep(s, a, b);
    case Refuse => RefuseStep(s, a);
    case Produce => ProducerKeepsInv(s, a);
  }

  /** An empty queue over a pool of blocks that hold anything at all. */
  ghost predicate Initial(s: State) {
    && OD.Initial(s.q) && s.work.Keys == s.q.pc.Keys
    && s.index == map[] && s.cells.Keys == s.emptied.Keys == s.pool
    && (forall b :: b in s.cells ==> |s.cells[b]| == BLOCK_SIZE)
    && s.tailBlock == None && s.prod == Resting
    && forall t :: t in s.work ==> s.work[t] == Off
  }

  ghost predicate Leads(r: State, b: Aux, e: Event, s: State, a: Aux) {
    Enabled(r, e) && Safe(r, e) && OD.Inv(r.q, b.od) && s == Apply(r, e) && a == AuxApply(r, b, e)
  }

  /** Some interleaving `es` of atomic steps and calls leads from an initial state to `s`, with history `a`. */
  ghost predicate Traces(es: seq<Event>, s: State, a: Aux) {
    if es == [] then Initial(s) && a == InitialAux(s)
    else exists r: State, b: Aux :: Leads(r, b, Last(es), s, a) && Traces(Front(es), r, b)
  }

  ghost function InitialAux(s: State): Aux {
    Aux(OD.Aux([], []), map b | b in s.pool :: InPool, {}, [])
  }

  lemma InitialInv(s: State)
    requires Initial(s)
    ensures Inv(s, InitialAux(s))
  {
    var a := InitialAux(s);
    assert a.place.Keys == s.pool;
    assert OD.Inv(s.q, a.od);
    Position(0);
    CoverOrder(0, 0);
  }

  lemma {:induction false} TracedInv(es: seq<Event>, s: State, a: Aux)
    requires Traces(es, s, a)
    ensures Inv(s, a)
  {
    hide Inv;
    if es == [] {
      InitialInv(s);
    } else {
      var r: State, b: Aux :| Leads(r, b, Last(es), s, a) && Traces(Front(es), r, b);
      TracedInv(Front(es), r, b);
      EventKeepsInv(r, b, Last(es));
    }
  }
}
