/** Every event of a sub-queue as a whole keeps what its parts rely on. */
module ImplicitProducerProof {
  import opened Wrappers
  import opened Blocks
  import opened ImplicitProducer
  import SQ = SubQueue
  import SP = SubQueueProof
  import ST = SubQueueTheorems
  import OD = OptimisticDequeue
  import BI = BlockIndexRuns
  import BT = BlockIndex
  import FL = FreeList

  // ---- The parts ----

  lemma QueueBasics(q: SQ.State, a: SQ.Aux)
    requires SQ.Inv(q, a)
    ensures OD.Inv(q.q, a.od) && q.work.Keys == q.q.pc.Keys
  {
    hide OD.Inv, SQ.MemoryOk, SQ.HoldersOk, SQ.ProducerOk, SQ.JobsOk, SQ.TodoOk;
  }

  lemma TableBasics(b: BI.State, v: BI.View)
    requires BI.Inv(b, v)
    ensures BI.Sound(b.t) && v.tops != [] && b.t.headers != []
  {
    hide BI.PhaseOk, BI.LooksOk, BI.PinsOk, BI.Sound;
    assert BI.Sound(b.t);
  }

  lemma ListBasics(f: FL.State)
    requires ListInv(f)
    ensures FL.Typed(f)
  {
    hide FL.Typed;
    var fa :| FL.Inv(f, fa);
  }

  /** With each part's demands met, each part keeps its invariant. */
  lemma PartsKept(me: Tid, s: State, a: Aux, e: Event)
    requires SQ.Inv(s.q, a.q) && BI.Inv(s.b, a.v) && ListInv(s.f) && Safe(me, s, a, e)
    ensures SQ.Inv(QNext(s, a, e), QAux(s, a, e)) && BI.Inv(BNext(s, a, e), BView(s, a, e)) && ListInv(FNext(me, s, e))
  {
    hide SQ.Inv, BI.Inv, FL.Inv, FL.Typed, OD.Inv, SQ.Apply, SP.AuxApply, BI.Step, BI.Advance, FL.Apply, FL.AuxApply, QEvent, BEvent, FEvent, FetchSafe;
    if QEvent(e).Some? { SP.EventKeepsInv(s.q, a.q, QEvent(e).value); }
    if BEvent(s, e).Some? { BI.EventKeepsInv(s.b, a.v, BEvent(s, e).value); }
    if FEvent(me, s, e).Some? {
      var fa :| FL.Inv(s.f, fa);
      FL.EventKeepsInv(s.f, fa, FEvent(me, s, e).value);
    }
  }

  lemma QueueMet(s: State, a: Aux, e: Event)
    requires SQ.Inv(s.q, a.q) && (QEvent(e).Some? ==> SQ.Enabled(s.q, QEvent(e).value))
    ensures QueueSafe(s, a, e)
  {
    hide SQ.Inv, OD.Inv, SQ.Apply, SP.AuxApply, QEvent, SQ.Enabled, SP.Safe;
    QueueBasics(s.q, a.q);
    if QEvent(e).Some? { SP.EventKeepsInv(s.q, a.q, QEvent(e).value); }
  }

  // ---- Indices and blocks ----

  /** An index from `first` on in block `x`. */
  function Within(first: nat, x: nat): nat {
    if Base(x) < first then first else Base(x)
  }

  lemma Between(first: nat, hi: nat, x: nat)
    requires first < hi && Num(first) <= x <= Num(hi - 1)
    ensures first <= Within(first, x) < hi && Num(Within(first, x)) == x
  {
    Position(first);
    Position(hi - 1);
    BaseStep(x);
    InBlock(Base(x), x);
    if Base(x) < first {
      if Num(first) < x { BaseOrder(Num(first), x); }
    } else if x < Num(hi - 1) {
      BaseOrder(x, Num(hi - 1));
    }
  }

  // ---- A consumer looks up ----

  /** All blocks from that of `from` to that of `hi - 1` are in the table and published. */
  lemma LiveAll(q: SQ.State, a: SQ.Aux, live: map<int, Block>, t: Tid, from: nat, hi: nat)
    requires SQ.Inv(q, a) && SameBlocks(q.index, live)
    requires t in q.work && q.work[t] != SQ.Off && SQ.TodoFrom(q.work[t]) <= from < hi <= q.work[t].j.hi
    ensures BI.AllLive(live, Num(from), Num(hi - 1)) && Num(hi - 1) < Cover(q.q.tail)
  {
    hide SQ.Inv, Num, Cover;
    NumOrder(from, hi - 1);
    ST.YetLive(q, a, t, hi - 1);
    forall x: int | Num(from) <= x <= Num(hi - 1) ensures x in live {
      Between(from, hi, x);
      ST.YetLive(q, a, t, Within(from, x));
    }
  }

  lemma CountEffects(q: SQ.State, t: Tid)
    requires SQ.Enabled(q, SQ.Count(t))
    ensures var q' := SQ.CounterStep(q, t);
      && q'.index == q.index && q'.prod == q.prod && q'.cells == q.cells && q'.pool == q.pool && q'.q.tail == q.q.tail
      && q'.work == if q.q.pc[t].TakeHead? then
                      q.work[t := SQ.Lookup(SQ.Job(q.q.head, q.q.head, q.q.head + q.q.pc[t].got, []))] else q.work
  {
  }

  /** Indices that are taken are of blocks that the table has. */
  lemma TakesLive(q: SQ.State, a: SQ.Aux, live: map<int, Block>, t: Tid)
    requires SQ.Inv(q, a) && SameBlocks(q.index, live) && SQ.Enabled(q, SQ.Count(t)) && Takes(q.q, t)
    ensures var n, last := Num(q.q.head), Num(q.q.head + q.q.pc[t].got - 1);
      BI.AllLive(live, n, last) && last < Cover(q.q.tail)
  {
    hide SQ.Inv, Num, Cover, SQ.CounterStep, BI.AllLive, OD.Inv, SP.AuxApply, SameBlocks;
    SP.EventKeepsInv(q, a, SQ.Count(t));
    QueueBasics(q, a);
    CountEffects(q, t);
    LiveAll(SQ.CounterStep(q, t), SP.AuxApply(q, a, SQ.Count(t)), live, t, q.q.head, q.q.head + q.q.pc[t].got);
  }

  // ---- Events of consumers ----

  ghost predicate Keeps(me: Tid, s: State, a: Aux, e: Event) {
    Safe(me, s, a, e) && Link(me, Next(me, s, a, e), NextAux(me, s, a, e))
  }

  lemma LooksAt(work: map<Tid, SQ.Work>, looks: seq<BI.Look>, t: Tid)
    requires LooksLink(work, looks)
    ensures t in work ==> t < |looks| && LookLink(work[t], looks[t])
  {
  }

  lemma LooksSet(work: map<Tid, SQ.Work>, looks: seq<BI.Look>, t: Tid, w: SQ.Work, l: BI.Look)
    requires LooksLink(work, looks) && t in work && t < |looks| && LookLink(w, l)
    ensures LooksLink(work[t := w], looks[t := l])
  {
    hide LookLink;
  }

  lemma LooksSame(work: map<Tid, SQ.Work>, looks: seq<BI.Look>, t: Tid, w: SQ.Work)
    requires LooksLink(work, looks) && t in work && t < |looks| && LookLink(w, looks[t])
    ensures LooksLink(work[t := w], looks)
  {
    hide LookLink;
  }

  lemma BeginKeeps(me: Tid, s: State, a: Aux, e: Event)
    requires Inv(me, s, a) && Allowed(me, s, e) && e.Begin?
    ensures Keeps(me, s, a, e)
  {
    hide SQ.Inv, BI.Inv, ListInv, OD.Inv, SameBlocks, LooksLink, PhaseLink, PoolLink, SP.AuxApply, FL.Typed, BI.Sound;
    TableBasics(s.b, a.v);
    ListBasics(s.f);
    QueueMet(s, a, e);
  }

  lemma PinMoves(b: BI.State, v: BI.View, t: Tid, n: nat, last: nat)
    requires BI.Sound(b.t) && v.tops != [] && t < |b.looks| && b.looks[t].Away? && BI.AllLive(v.live, n, last) && last < b.published
    ensures BI.Step(b, v.live, BI.Pin(t, n, last)) == Some(b.(looks := b.looks[t := BI.Pinned(n, last)]))
    ensures BI.Advance(b, v, BI.Pin(t, n, last)) == v
  {
  }

  lemma CountKeeps(me: Tid, s: State, a: Aux, e: Event)
    requires Inv(me, s, a) && Allowed(me, s, e) && e.Count?
    ensures Keeps(me, s, a, e)
  {
    hide SQ.Inv, BI.Inv, ListInv, OD.Inv, SameBlocks, LooksLink, PhaseLink, PoolLink, SP.AuxApply, FL.Typed, BI.Sound, SQ.CounterStep, BI.Step, BI.Advance, BI.AllLive, Num, Cover;
    TableBasics(s.b, a.v);
    ListBasics(s.f);
    QueueMet(s, a, e);
    QueueBasics(s.q, a.q);
    CountEffects(s.q, e.t);
    LooksAt(s.q.work, s.b.looks, e.t);
    var q' := SQ.CounterStep(s.q, e.t);
    if Takes(s.q.q, e.t) {
      TakesLive(s.q, a.q, a.v.live, e.t);
      var n, last := Num(s.q.q.head), Num(s.q.q.head + s.q.q.pc[e.t].got - 1);
      PinMoves(s.b, a.v, e.t, n, last);
      LooksSet(s.q.work, s.b.looks, e.t, q'.work[e.t], BI.Pinned(n, last));
    } else if s.q.q.pc[e.t].TakeHead? {
      LooksSame(s.q.work, s.b.looks, e.t, q'.work[e.t]);
    }
  }

  lemma ReadMoves(b: BI.State, v: BI.View, t: Tid)
    requires BI.Inv(b, v) && BI.Sound(b.t) && v.tops != [] && t < |b.looks| && !b.looks[t].Away?
    ensures BI.Step(b, v.live, BI.Read(t)) == Some(b.(looks := b.looks[t := BI.ReadStep(b.t, b.looks[t])]))
    ensures BI.Advance(b, v, BI.Read(t)) == v
    ensures var l, l' := b.looks[t], BI.ReadStep(b.t, b.looks[t]); !l'.Away? && l'.n == l.n && l'.last == l.last
  {
    hide BI.Inv;
  }

  lemma ReadKeeps(me: Tid, s: State, a: Aux, e: Event)
    requires Inv(me, s, a) && Allowed(me, s, e) && e.Read?
    ensures Keeps(me, s, a, e)
  {
    hide SQ.Inv, BI.Inv, ListInv, OD.Inv, SameBlocks, LooksLink, PhaseLink, PoolLink, FL.Typed, BI.Sound, BI.Step, BI.Advance, Num, Cover, BI.ReadStep;
    TableBasics(s.b, a.v);
    ListBasics(s.f);
    QueueMet(s, a, e);
    LooksAt(s.q.work, s.b.looks, e.t);
    ReadMoves(s.b, a.v, e.t);
    var l := BI.ReadStep(s.b.t, s.b.looks[e.t]);
    assert s.q.work[e.t := s.q.work[e.t]] == s.q.work;
    LooksSet(s.q.work, s.b.looks, e.t, s.q.work[e.t], l);
  }

  /** What a consumer does with its registers; the tail, the producer and the set of blocks stay. */
  ghost predicate Turns(q: SQ.State, t: Tid, w: SQ.Work, q': SQ.State) {
    && t in q.work && q'.work == q.work[t := w] && q'.prod == q.prod && q'.q.tail == q.q.tail && q'.cells == q.cells
  }

  lemma LookupTurns(q: SQ.State, t: Tid)
    requires SQ.Ready(q, t) && q.work[t].Lookup?
    ensures var j, q' := q.work[t].j, SQ.WorkStep(q, t);
      && Turns(q, t, if j.cur < j.hi then SQ.Copying(j, q.index[Num(j.cur)], j.cur) else SQ.Off, q')
      && q'.index == q.index && q'.pool == q.pool
  {
  }

  lemma CopyingTurns(q: SQ.State, t: Tid)
    requires SQ.Ready(q, t) && q.work[t].Copying?
    ensures var j, b, from := q.work[t].j, q.work[t].b, q.work[t].from;
      var q' := SQ.WorkStep(q, t);
      && b in q.cells && |q.cells[b]| > Cell(j.cur)
      && Turns(q, t, if SQ.CopiesMore(j, from) then SQ.Copying(j.(cur := j.cur + 1, out := j.out + [q.cells[b][Cell(j.cur)]]), b, from)
                     else if Empties(q, q.work[t]) then SQ.Clearing(j, b, Num(from)) else SQ.Lookup(j), q')
      && q'.index == q.index && q'.pool == q.pool
  {
    Position(q.work[t].j.cur);
  }

  lemma ClearingTurns(q: SQ.State, t: Tid)
    requires SQ.Ready(q, t) && q.work[t].Clearing?
    ensures var j, b, k := q.work[t].j, q.work[t].b, q.work[t].k;
      var q' := SQ.WorkStep(q, t);
      Turns(q, t, SQ.Returning(j, b), q') && q'.index == q.index - {k} && q'.pool == q.pool
  {
  }

  lemma ReturningTurns(q: SQ.State, t: Tid)
    requires SQ.Ready(q, t) && q.work[t].Returning?
    ensures var j, b := q.work[t].j, q.work[t].b;
      var q' := SQ.WorkStep(q, t);
      Turns(q, t, SQ.Lookup(j), q') && q'.index == q.index && q'.pool == q.pool + {b}
  {
  }

  /** The end of a lookup has the block that the index of the sub-queue has. */
  lemma TableFetches(b: BI.State, v: BI.View, index: map<nat, Block>, t: Tid, n: nat)
    requires BI.Inv(b, v) && SameBlocks(index, v.live) && t < |b.looks| && b.looks[t].Found? && b.looks[t].n == n
    ensures n in index && Fetched(b, t) == Some(index[n])
  {
    hide BI.PhaseOk, BI.LookOk, BT.SharesOk, BT.KeysOk, BT.ValuesOk, BT.TailsOk;
    BI.PinnedLive(b.looks, b.published, v.live, t);
    assert BI.LookOk(b.looks[t], b.t.headers, v.offs, v.tops, v.lo, v.hi);
    BI.FoundRight(b.t, v, b.p, b.looks[t]);
    assert BI.SoundHeader(b.t.headers[b.looks[t].k], |b.t.keys|);
  }

  lemma LookupKeeps(me: Tid, s: State, a: Aux, e: Event)
    requires Inv(me, s, a) && Allowed(me, s, e) && e.Consume? && s.q.work[e.t].Lookup?
    ensures Keeps(me, s, a, e)
  {
    hide SQ.Inv, BI.Inv, ListInv, OD.Inv, SameBlocks, LooksLink, PhaseLink, PoolLink, SP.AuxApply, FL.Typed, BI.Sound, SQ.WorkStep, Num, Cover, Fetched;
    TableBasics(s.b, a.v);
    ListBasics(s.f);
    QueueMet(s, a, e);
    LooksAt(s.q.work, s.b.looks, e.t);
    LookupTurns(s.q, e.t);
    var j := s.q.work[e.t].j;
    if j.cur < j.hi { TableFetches(s.b, a.v, s.q.index, e.t, Num(j.cur)); }
    LooksSame(s.q.work, s.b.looks, e.t, SQ.WorkStep(s.q, e.t).work[e.t]);
  }

  /** After the last cell of a block that it holds, a consumer is at the next block, or at its end. */
  lemma NextBlock(q: SQ.State, a: SQ.Aux, t: Tid)
    requires SQ.Inv(q, a) && t in q.work && q.work[t].Copying? && !SQ.CopiesMore(q.work[t].j, q.work[t].from)
    ensures var j, from := q.work[t].j, q.work[t].from;
      && from < j.cur && from < j.hi && (j.cur < j.hi ==> Num(j.cur) == Num(from) + 1) && (j.cur >= j.hi ==> Num(j.hi - 1) == Num(from))
  {
    hide OD.Inv, SQ.MemoryOk, SQ.HoldersOk, SQ.ProducerOk, SQ.TodoOk, Num;
    assert SQ.JobOk(t, q.work[t], q.q.pc, q.q.head, q.index, a.log);
    var j, from := q.work[t].j, q.work[t].from;
    if from < j.cur { NextIndex(j.cur - 1); Position(j.cur - 1); }
  }

  lemma MoveOnMoves(b: BI.State, v: BI.View, t: Tid)
    requires BI.Inv(b, v) && t < |b.looks| && b.looks[t].Found?
    ensures var l, l' := b.looks[t], BI.MoveOn(b.t, b.looks[t]);
      if l.n < l.last then l'.Found? && l'.n == l.n + 1 && l'.last == l.last else l'.Away?
  {
    hide BI.PhaseOk, BI.TableOk;
    assert BI.LookOk(b.looks[t], b.t.headers, v.offs, v.tops, v.lo, v.hi);
  }

  lemma UnpinMoves(b: BI.State, v: BI.View, t: Tid)
    requires BI.Sound(b.t) && v.tops != [] && t < |b.looks| && b.looks[t].Found?
    ensures BI.Step(b, v.live, BI.Unpin(t)) == Some(b.(looks := b.looks[t := BI.MoveOn(b.t, b.looks[t])]))
    ensures BI.Advance(b, v, BI.Unpin(t)) == v
  {
  }

  lemma CopyingKeeps(me: Tid, s: State, a: Aux, e: Event)
    requires Inv(me, s, a) && Allowed(me, s, e) && e.Consume? && s.q.work[e.t].Copying?
    ensures Keeps(me, s, a, e)
  {
    hide SQ.Inv, BI.Inv, ListInv, OD.Inv, SameBlocks, LooksLink, PhaseLink, PoolLink, SP.AuxApply, FL.Typed, BI.Sound, SQ.WorkStep, Num, Cover, BI.Step, BI.Advance, BI.MoveOn, SQ.Ready;
    TableBasics(s.b, a.v);
    ListBasics(s.f);
    QueueMet(s, a, e);
    LooksAt(s.q.work, s.b.looks, e.t);
    CopyingTurns(s.q, e.t);
    var j, b, from := s.q.work[e.t].j, s.q.work[e.t].b, s.q.work[e.t].from;
    var w := SQ.WorkStep(s.q, e.t).work[e.t];
    if !SQ.CopiesMore(j, from) {
      NextBlock(s.q, a.q, e.t);
      if !Empties(s.q, s.q.work[e.t]) {
        UnpinMoves(s.b, a.v, e.t);
        MoveOnMoves(s.b, a.v, e.t);
        LinkOrder(j, from, s.b.looks[e.t]);
        LooksSet(s.q.work, s.b.looks, e.t, w, BI.MoveOn(s.b.t, s.b.looks[e.t]));
      } else {
        LooksSame(s.q.work, s.b.looks, e.t, w);
      }
    } else {
      LooksSame(s.q.work, s.b.looks, e.t, w);
    }
  }

  lemma LinkOrder(j: SQ.Job, from: nat, l: BI.Look)
    requires from < j.hi && LookingFor(l, Num(from), Num(j.hi - 1)) && (j.cur < j.hi ==> Num(j.cur) == Num(from) + 1)
    ensures j.cur < j.hi ==> l.n < l.last
  {
    hide Num;
    if j.cur < j.hi { NumOrder(j.cur, j.hi - 1); }
  }

  // ---- A consumer gives a block back ----

  /** No other consumer is yet to look at, or at, the block that is being removed. */
  lemma OtherLook(q: SQ.State, a: SQ.Aux, l: BI.Look, t: Tid, u: Tid)
    requires SQ.Inv(q, a) && t in q.work && q.work[t].Clearing? && u in q.work && u != t && LookLink(q.work[u], l)
    ensures l.Away? || !(l.n <= q.work[t].k <= l.last)
  {
    hide SQ.Inv, Num;
    var w, k := q.work[u], q.work[t].k;
    if w.Clearing? { OtherClears(q, a, t, u); }
    if !l.Away? && l.n <= k <= l.last && !(w.Clearing? && w.k == k) {
      var from := SQ.TodoFrom(w);
      Between(from, w.j.hi, k);
      ST.YetElsewhere(q, a, t, u, Within(from, k));
    }
  }

  lemma OtherClears(q: SQ.State, a: SQ.Aux, t: Tid, u: Tid)
    requires SQ.Inv(q, a) && t in q.work && q.work[t].Clearing? && u in q.work && u != t && q.work[u].Clearing?
    ensures q.work[u].k != q.work[t].k
  {
    hide OD.Inv, SQ.MemoryOk, SQ.HoldersOk, SQ.ConsumersOk, SQ.ProducerOk, SQ.DoneIn;
    ST.ClearingFacts(q, a, t);
    ST.ClearingFacts(q, a, u);
  }

  lemma AloneThere(q: SQ.State, a: SQ.Aux, looks: seq<BI.Look>, t: Tid)
    requires SQ.Inv(q, a) && LooksLink(q.work, looks) && t in q.work && q.work[t].Clearing?
    ensures BI.Alone(looks, t, q.work[t].k)
  {
    hide SQ.Inv, LookLink;
    forall u | 0 <= u < |looks| && u != t ensures looks[u].Away? || !(looks[u].n <= q.work[t].k <= looks[u].last) {
      if u in q.work { OtherLook(q, a, looks[u], t, u); }
    }
  }

  lemma ReleaseMoves(b: BI.State, v: BI.View, t: Tid)
    requires BI.Inv(b, v) && BI.Sound(b.t) && v.tops != [] && t < |b.looks| && b.looks[t].Found? && BI.Alone(b.looks, t, b.looks[t].n)
    ensures BI.Step(b, v.live, BI.Release(t)).Some?
    ensures var b' := BI.Step(b, v.live, BI.Release(t)).value;
      b'.looks == b.looks[t := BI.MoveOn(b.t, b.looks[t])] && b'.p == b.p && b'.chain == b.chain && b'.published == b.published
    ensures BI.Advance(b, v, BI.Release(t)) == v.(live := v.live - {b.looks[t].n})
  {
    hide BI.PhaseOk, BI.LookOk, BT.SharesOk, BT.KeysOk, BT.ValuesOk, BT.TailsOk, BI.MoveOn, BI.Alone;
    BI.PinnedLive(b.looks, b.published, v.live, t);
    assert BI.LookOk(b.looks[t], b.t.headers, v.offs, v.tops, v.lo, v.hi);
    BI.FoundRight(b.t, v, b.p, b.looks[t]);
    assert BI.SoundHeader(b.t.headers[b.looks[t].k], |b.t.keys|);
  }

  lemma SameWithout(index: map<nat, Block>, live: map<int, Block>, k: nat)
    requires SameBlocks(index, live)
    ensures SameBlocks(index - {k}, live - {k})
  {
  }

  lemma ClearingKeeps(me: Tid, s: State, a: Aux, e: Event)
    requires Inv(me, s, a) && Allowed(me, s, e) && e.Consume? && s.q.work[e.t].Clearing?
    ensures Keeps(me, s, a, e)
  {
    hide SQ.Inv, BI.Inv, ListInv, OD.Inv, SameBlocks, LooksLink, PhaseLink, PoolLink, SP.AuxApply, FL.Typed, BI.Sound, SQ.WorkStep, Num, Cover, BI.Step, BI.Advance, BI.MoveOn, BI.Alone, SQ.Ready;
    TableBasics(s.b, a.v);
    ListBasics(s.f);
    QueueMet(s, a, e);
    LooksAt(s.q.work, s.b.looks, e.t);
    ClearingTurns(s.q, e.t);
    var j, b, k := s.q.work[e.t].j, s.q.work[e.t].b, s.q.work[e.t].k;
    AloneThere(s.q, a.q, s.b.looks, e.t);
    ReleaseMoves(s.b, a.v, e.t);
    MoveOnMoves(s.b, a.v, e.t);
    SameWithout(s.q.index, a.v.live, k);
    LeaveOrder(j, k, s.b.looks[e.t]);
    LooksSet(s.q.work, s.b.looks, e.t, SQ.Returning(j, b), BI.MoveOn(s.b.t, s.b.looks[e.t]));
  }

  lemma LeaveOrder(j: SQ.Job, k: nat, l: BI.Look)
    requires Leaving(j, l, k)
    ensures j.cur < j.hi <==> l.n < l.last
  {
    hide Num;
    if j.cur < j.hi { NumOrder(j.cur, j.hi - 1); }
  }

  /** A block in hand is not in the pool. */
  lemma ReturnedOwned(q: SQ.State, a: SQ.Aux, t: Tid)
    requires SQ.Inv(q, a) && t in q.work && q.work[t].Returning?
    ensures q.work[t].b in q.cells && q.work[t].b !in q.pool
  {
    hide OD.Inv, SQ.ConsumersOk, SQ.ProducerOk, SQ.CountsOk, SQ.LiveOk, SQ.CellsOk, SQ.IndexOk, SQ.ProducerHand;
    assert SQ.HandOf(t, q.work[t]) == Some((q.work[t].b, SQ.Loose(t)));
  }

  lemma PoolGiven(blocks: set<Block>, pool: set<Block>, nodes: set<Block>, owned: set<Block>, b: Block)
    requires PoolLink(blocks, pool, nodes, owned) && b in blocks && b !in pool
    ensures b in owned && PoolLink(blocks, pool + {b}, nodes, owned - {b})
  {
  }

  lemma AddMoves(f: FL.State, t: Tid, n: Block)
    requires FL.Typed(f) && Outside(f, t) && n in f.owned
    ensures FL.Enabled(f, FL.StartAdd(t, n))
    ensures var f' := FL.Apply(f, FL.StartAdd(t, n)); f'.refs == f.refs && f'.owned == f.owned - {n}
  {
  }

  lemma ReturningKeeps(me: Tid, s: State, a: Aux, e: Event)
    requires Inv(me, s, a) && Allowed(me, s, e) && e.Consume? && s.q.work[e.t].Returning?
    ensures Keeps(me, s, a, e)
  {
    hide SQ.Inv, BI.Inv, ListInv, OD.Inv, SameBlocks, LooksLink, PhaseLink, PoolLink, SP.AuxApply, FL.Typed, BI.Sound, SQ.WorkStep, Num, Cover, SQ.Ready, FL.Apply;
    TableBasics(s.b, a.v);
    ListBasics(s.f);
    QueueMet(s, a, e);
    LooksAt(s.q.work, s.b.looks, e.t);
    ReturningTurns(s.q, e.t);
    ReturnedOwned(s.q, a.q, e.t);
    PoolGiven(s.q.cells.Keys, s.q.pool, s.f.refs.Keys, s.f.owned, s.q.work[e.t].b);
    AddMoves(s.f, e.t, s.q.work[e.t].b);
    LooksSame(s.q.work, s.b.looks, e.t, SQ.Lookup(s.q.work[e.t].j));
  }

  lemma ConsumeKeeps(me: Tid, s: State, a: Aux, e: Event)
    requires Inv(me, s, a) && Allowed(me, s, e) && e.Consume?
    ensures Keeps(me, s, a, e)
  {
    hide Inv, Keeps;
    match s.q.work[e.t]
    case Lookup(_) => LookupKeeps(me, s, a, e);
    case Copying(_, _, _) => CopyingKeeps(me, s, a, e);
    case Clearing(_, _, _) => ClearingKeeps(me, s, a, e);
    case Returning(_, _) => ReturningKeeps(me, s, a, e);
  }

  // ---- The producer gets blocks ----

  lemma EnqueueMoves(q: SQ.State, a: SQ.Aux, xs: seq<SQ.Item>)
    requires SQ.Inv(q, a)
    ensures var q' := SQ.StartEnqueue(q, xs);
      && q'.prod.Allocating? && |q'.prod.chain| == SQ.FirstFresh(q.q.tail)
      && q'.index == q.index && q'.pool == q.pool && q'.cells == q.cells && q'.work == q.work && q'.q == q.q
  {
    hide OD.Inv, SQ.MemoryOk, SQ.HoldersOk, SQ.ConsumersOk, SQ.NoneBeyond, SQ.ChainOk, SQ.WrittenOk, Cell;
  }

  lemma EnqueueKeeps(me: Tid, s: State, a: Aux, e: Event)
    requires Inv(me, s, a) && Allowed(me, s, e) && e.Enqueue?
    ensures Keeps(me, s, a, e)
  {
    hide SQ.Inv, BI.Inv, ListInv, OD.Inv, SameBlocks, LooksLink, PoolLink, SP.AuxApply, FL.Typed, BI.Sound, Num, Cover, Cell, SQ.StartEnqueue;
    TableBasics(s.b, a.v);
    ListBasics(s.f);
    QueueMet(s, a, e);
    EnqueueMoves(s.q, a.q, e.xs);
  }

  lemma ExtendMoves(b: BI.State, v: BI.View)
    requires BI.Sound(b.t) && v.tops != [] && b.p.Ready?
    ensures var r := BI.Step(b, v.live, BI.Extend);
      r.Some? && r.value == b.(p := r.value.p) && (r.value.p.StoringKey? || r.value.p.Growing?)
    ensures BI.Advance(b, v, BI.Extend) == v
  {
    hide BI.NextEntry;
  }

  lemma ExtendKeeps(me: Tid, s: State, a: Aux, e: Event)
    requires Inv(me, s, a) && Allowed(me, s, e) && e.Extend?
    ensures Keeps(me, s, a, e)
  {
    hide SQ.Inv, BI.Inv, ListInv, OD.Inv, SameBlocks, LooksLink, PoolLink, SP.AuxApply, FL.Typed, BI.Sound, Num, Cover, Cell, BI.Step, BI.Advance;
    TableBasics(s.b, a.v);
    ListBasics(s.f);
    QueueMet(s, a, e);
    ExtendMoves(s.b, a.v);
  }

  /** The producer's entry is one of the table. */
  lemma EntryInside(b: BI.State, v: BI.View)
    requires BI.Inv(b, v) && (b.p.StoringKey? || b.p.Requisitioning? || b.p.Clearing?)
    ensures b.p.e < |b.t.keys| == |b.t.values|
  {
    hide BI.LooksOk, BI.PinsOk, BT.TailsOk, BT.SharesOk, BT.KeysOk, BT.ValuesOk, BI.ChainOk;
    var h := b.t.headers[|b.t.headers| - 1];
    assert BI.SoundHeader(h, |b.t.keys|);
  }

  /** What the producer's write is to do next. */
  ghost predicate Follows(p: BI.Producer, p': BI.Producer) {
    match p
    case StoringKey(_) => p'.StoringTail?
    case StoringTail(_) => p'.Requisitioning?
    case Growing => p'.StoringKey?
    case Clearing(_) => p' == BI.Undoing(0)
    case Rewinding(i) => p' == BI.Undoing(i + 1)
    case _ => false
  }

  lemma WriteMoves(b: BI.State, v: BI.View, ok: bool, junk: seq<Option<Block>>)
    requires BI.Inv(b, v) && BI.Sound(b.t) && v.tops != []
    requires b.p.StoringKey? || b.p.StoringTail? || b.p.Clearing? || b.p.Rewinding? || (b.p.Growing? && GrowthFits(b, ok, junk))
    ensures BI.Step(b, v.live, BI.Produce(ok, 0, junk)).Some?
    ensures var b' := BI.Step(b, v.live, BI.Produce(ok, 0, junk)).value;
      Follows(b.p, b'.p) && b'.published == b.published && b'.chain == b.chain && b'.looks == b.looks
    ensures BI.Advance(b, v, BI.Produce(ok, 0, junk)).live == v.live
  {
    hide BI.Inv, BI.Sound, BI.MoveTail, BI.Grow, BI.StoreKey, BI.StoreValue, BT.Fits;
    if b.p.StoringKey? || b.p.Clearing? { EntryInside(b, v); }
  }

  lemma WriteKeeps(me: Tid, s: State, a: Aux, e: Event)
    requires Inv(me, s, a) && Allowed(me, s, e) && e.WriteTable?
    ensures Keeps(me, s, a, e)
  {
    hide SQ.Inv, BI.Inv, ListInv, OD.Inv, SameBlocks, LooksLink, PoolLink, SP.AuxApply, FL.Typed, BI.Sound, Num, Cover, Cell, BI.Step, BI.Advance;
    TableBasics(s.b, a.v);
    ListBasics(s.f);
    QueueMet(s, a, e);
    WriteMoves(s.b, a.v, e.ok, e.junk);
  }

  lemma AskKeeps(me: Tid, s: State, a: Aux, e: Event)
    requires Inv(me, s, a) && Allowed(me, s, e) && e.Ask?
    ensures Keeps(me, s, a, e)
  {
    hide SQ.Inv, BI.Inv, ListInv, OD.Inv, SameBlocks, LooksLink, PoolLink, SP.AuxApply, FL.Typed, BI.Sound, Num, Cover, Cell, PhaseLink;
    TableBasics(s.b, a.v);
    ListBasics(s.f);
    QueueMet(s, a, e);
  }

  lemma ListMoves(f: FL.State, t: Tid)
    requires FL.Typed(f) && t in f.pc && f.pc[t] != FL.Idle && !f.pc[t].GetDrop?
    ensures FL.Enabled(f, FL.Run(t)) && FL.KnownPc(f.refs.Keys, f.pc[t]) && f.next.Keys == f.refs.Keys
    ensures var f' := FL.Apply(f, FL.Run(t)); f'.refs.Keys == f.refs.Keys && f'.owned == f.owned
  {
  }

  lemma ListKeeps(me: Tid, s: State, a: Aux, e: Event)
    requires Inv(me, s, a) && Allowed(me, s, e) && e.List?
    ensures Keeps(me, s, a, e)
  {
    hide SQ.Inv, BI.Inv, ListInv, OD.Inv, SameBlocks, LooksLink, PoolLink, SP.AuxApply, FL.Typed, BI.Sound, Num, Cover, Cell, PhaseLink, FL.Apply;
    TableBasics(s.b, a.v);
    ListBasics(s.f);
    QueueMet(s, a, e);
    ListMoves(s.f, e.t);
  }

  /** A node that is being handed out has no other owner. */
  lemma HandedOut(f: FL.State, t: Tid)
    requires ListInv(f) && t in f.pc && f.pc[t].GetDrop?
    ensures f.pc[t].n in f.refs && f.pc[t].n !in f.owned
  {
    hide FL.Inv, FL.Local;
    var fa :| FL.Inv(f, fa);
    FL.Before(f, fa, t, f.pc[t].n);
    FL.PoppedWord(f, fa, t, f.pc[t].n);
  }

  lemma DropMoves(f: FL.State, t: Tid)
    requires FL.Typed(f) && t in f.pc && f.pc[t].GetDrop?
    ensures FL.Enabled(f, FL.Run(t)) && FL.KnownPc(f.refs.Keys, f.pc[t]) && f.next.Keys == f.refs.Keys
    ensures var f' := FL.Apply(f, FL.Run(t)); f'.refs.Keys == f.refs.Keys && f'.owned == f.owned + {f.pc[t].n}
  {
  }

  lemma CreateMoves(f: FL.State, n: Block)
    requires FL.Typed(f) && n !in f.refs
    ensures n !in f.owned && FL.Enabled(f, FL.Create(n))
    ensures var f' := FL.Apply(f, FL.Create(n)); f'.refs.Keys == f.refs.Keys + {n} && f'.owned == f.owned + {n}
  {
  }

  lemma PoolTaken(blocks: set<Block>, pool: set<Block>, nodes: set<Block>, owned: set<Block>, nodes': set<Block>, b: Block)
    requires PoolLink(blocks, pool, nodes, owned) && b in blocks && b !in owned && nodes' <= nodes + {b}
    ensures b in pool && PoolLink(blocks, pool - {b}, nodes', owned + {b})
  {
  }

  /** The block that the producer gets was in nobody's hands. */
  lemma Given(me: Tid, s: State, e: Event)
    requires ListInv(s.f) && PoolLink(s.q.cells.Keys, s.q.pool, s.f.refs.Keys, s.f.owned) && Allowed(me, s, e) && e.Grant?
    ensures ListSafe(me, s, e) && e.blk in s.q.pool
    ensures var f' := FNext(me, s, e); PoolLink(s.q.cells.Keys, s.q.pool - {e.blk}, f'.refs.Keys, f'.owned)
  {
    hide ListInv, FL.Typed, BI.Sound, FL.Apply;
    ListBasics(s.f);
    if s.f.pc[me].GetDrop? {
      HandedOut(s.f, me);
      DropMoves(s.f, me);
    } else {
      CreateMoves(s.f, e.blk);
    }
    PoolTaken(s.q.cells.Keys, s.q.pool, s.f.refs.Keys, s.f.owned, FNext(me, s, e).refs.Keys, e.blk);
  }

  lemma GrantKeeps(me: Tid, s: State, a: Aux, e: Event)
    requires Inv(me, s, a) && Allowed(me, s, e) && e.Grant?
    ensures Keeps(me, s, a, e)
  {
    hide SQ.Inv, BI.Inv, ListInv, OD.Inv, SameBlocks, LooksLink, PoolLink, SP.AuxApply, FL.Typed, BI.Sound, Num, Cover, Cell, FNext, ListSafe;
    TableBasics(s.b, a.v);
    Given(me, s, e);
    QueueMet(s, a, e);
  }

  lemma RefuseMoves(b: BI.State, v: BI.View)
    requires BI.Sound(b.t) && v.tops != [] && (b.p.Requisitioning? || b.p.Growing?)
    ensures BI.Step(b, v.live, BI.Produce(false, 0, [])).Some?
    ensures var b' := BI.Step(b, v.live, BI.Produce(false, 0, [])).value;
      Undone(b'.p, 0) && b'.published == b.published && b'.chain == b.chain && b'.looks == b.looks
    ensures BI.Advance(b, v, BI.Produce(false, 0, [])).live == v.live
  {
    hide BI.Sound, BI.MoveTail;
  }

  lemma RefuseKeeps(me: Tid, s: State, a: Aux, e: Event)
    requires Inv(me, s, a) && Allowed(me, s, e) && e.Refuse?
    ensures Keeps(me, s, a, e)
  {
    hide SQ.Inv, BI.Inv, ListInv, OD.Inv, SameBlocks, LooksLink, PoolLink, SP.AuxApply, FL.Typed, BI.Sound, Num, Cover, Cell, BI.Step, BI.Advance;
    TableBasics(s.b, a.v);
    ListBasics(s.f);
    QueueMet(s, a, e);
    RefuseMoves(s.b, a.v);
  }

  // ---- The producer goes on ----

  /** What the producer changes besides its registers. */
  ghost predicate Stays(q: SQ.State, q': SQ.State) {
    q'.q == q.q && q'.work == q.work && q'.cells.Keys == q.cells.Keys
  }

  lemma PlainMoves(q: SQ.State)
    requires SQ.ProducerReady(q) && (q.prod.Allocating? || q.prod.Resetting? || (q.prod.Writing? && q.prod.i < |q.prod.xs|))
    ensures var q' := SQ.ProducerStep(q);
      && Stays(q, q') && q'.index == q.index && q'.pool == q.pool
      && match q.prod
         case Allocating(xs, c, _) => q'.prod == SQ.Writing(xs, c, 0)
         case Resetting(xs, c, left, b) => q'.prod == SQ.Inserting(xs, c, left, b)
         case Writing(xs, c, i) => q'.prod == SQ.Writing(xs, c, i + 1)
         case _ => true
  {
    if q.prod.Writing? { Position(q.q.tail + q.prod.i); }
  }

  lemma PlainKeeps(me: Tid, s: State, a: Aux, e: Event)
    requires Inv(me, s, a) && Allowed(me, s, e) && e.Produce?
    requires s.q.prod.Allocating? || s.q.prod.Resetting? || (s.q.prod.Writing? && s.q.prod.i < |s.q.prod.xs|)
    ensures Keeps(me, s, a, e)
  {
    hide SQ.Inv, BI.Inv, ListInv, OD.Inv, SameBlocks, LooksLink, PoolLink, SP.AuxApply, FL.Typed, BI.Sound, Num, Cover, Cell, SQ.ProducerStep, SQ.ProducerReady;
    TableBasics(s.b, a.v);
    ListBasics(s.f);
    QueueMet(s, a, e);
    PlainMoves(s.q);
  }

  lemma InsertTurns(q: SQ.State)
    requires SQ.ProducerReady(q) && q.prod.Inserting?
    ensures var q', p := SQ.ProducerStep(q), q.prod;
      && Stays(q, q') && q'.index == q.index[Num(q.q.tail) + |p.chain| := p.b] && q'.pool == q.pool
      && q'.prod == SQ.Allocating(p.xs, p.chain + [p.b], p.left)
  {
  }

  lemma InsertMoves(b: BI.State, v: BI.View, blk: Block)
    requires BI.Inv(b, v) && BI.Sound(b.t) && v.tops != [] && b.p.Requisitioning?
    ensures BI.Step(b, v.live, BI.Produce(true, blk, [])).Some?
    ensures var b' := BI.Step(b, v.live, BI.Produce(true, blk, [])).value;
      b'.p == BI.Ready && b'.published == b.published && b'.chain == b.chain + [blk] && b'.looks == b.looks
    ensures BI.Advance(b, v, BI.Produce(true, blk, [])).live == v.live[b.published + |b.chain| := blk]
  {
    hide BI.Sound, BI.StoreValue, BI.TableOk, BI.LooksOk, BI.PinsOk, BI.ChainOk, BT.Ent;
    EntryInside(b, v);
  }

  lemma SameWith(index: map<nat, Block>, live: map<int, Block>, k: nat, b: Block)
    requires SameBlocks(index, live)
    ensures SameBlocks(index[k := b], live[k := b])
  {
  }

  lemma FreshAt(c: seq<Block>, ff: nat, chain: seq<Block>, b: Block)
    requires Fresh(c, ff, chain)
    ensures Fresh(c + [b], ff, chain + [b]) && |c| == ff + |chain|
  {
  }

  lemma InsertKeeps(me: Tid, s: State, a: Aux, e: Event)
    requires Inv(me, s, a) && Allowed(me, s, e) && e.Produce? && s.q.prod.Inserting?
    ensures Keeps(me, s, a, e)
  {
    hide SQ.Inv, BI.Inv, ListInv, OD.Inv, SameBlocks, LooksLink, PoolLink, SP.AuxApply, FL.Typed, BI.Sound, Num, Cover, Cell, SQ.ProducerStep, SQ.ProducerReady, BI.Step, BI.Advance, Fresh, SQ.FirstFresh;
    TableBasics(s.b, a.v);
    ListBasics(s.f);
    QueueMet(s, a, e);
    InsertTurns(s.q);
    var c, blk := s.q.prod.chain, s.q.prod.b;
    InsertMoves(s.b, a.v, blk);
    FreshAt(c, SQ.FirstFresh(s.q.q.tail), s.b.chain, blk);
    SP.NeedsBounds(s.q.q.tail, 0);
    SameWith(s.q.index, a.v.live, Num(s.q.q.tail) + |c|, blk);
  }

  lemma UndoTurns(q: SQ.State)
    requires SQ.ProducerReady(q) && q.prod.Undoing?
    ensures var q', c, start, j := SQ.ProducerStep(q), q.prod.chain, q.prod.start, q.prod.j;
      && Stays(q, q') && q'.pool == q.pool && start <= |c|
      && q'.index == (if j < |c| then q.index - {Num(q.q.tail) + j} else q.index)
      && q'.prod == (if j < |c| then SQ.Undoing(c, start, j + 1) else SQ.Freeing(c[start..]))
  {
  }

  lemma UndoMoves(b: BI.State, v: BI.View)
    requires BI.Sound(b.t) && v.tops != [] && b.p.Undoing?
    ensures BI.Step(b, v.live, BI.Produce(true, 0, [])).Some?
    ensures var b', i := BI.Step(b, v.live, BI.Produce(true, 0, [])).value, b.p.i;
      && b'.published == b.published && b'.looks == b.looks
      && (if i < |b.chain| then b'.p == BI.Rewinding(i) && b'.chain == b.chain else b'.p == BI.Ready && b'.chain == [])
    ensures BI.Advance(b, v, BI.Produce(true, 0, [])).live == if b.p.i < |b.chain| then v.live - {b.published + b.p.i} else v.live
  {
    hide BI.Sound, BI.StoreValue, BI.Lookup;
  }

  lemma UndoKeeps(me: Tid, s: State, a: Aux, e: Event)
    requires Inv(me, s, a) && Allowed(me, s, e) && e.Produce? && s.q.prod.Undoing?
    ensures Keeps(me, s, a, e)
  {
    hide SQ.Inv, BI.Inv, ListInv, OD.Inv, SameBlocks, LooksLink, PoolLink, SP.AuxApply, FL.Typed, BI.Sound, Num, Cover, Cell, SQ.ProducerStep, SQ.ProducerReady, BI.Step, BI.Advance, SQ.FirstFresh;
    TableBasics(s.b, a.v);
    ListBasics(s.f);
    QueueMet(s, a, e);
    UndoTurns(s.q);
    UndoMoves(s.b, a.v);
    SP.NeedsBounds(s.q.q.tail, 0);
    if s.q.prod.j < |s.q.prod.chain| { SameWithout(s.q.index, a.v.live, Num(s.q.q.tail) + s.q.prod.j); }
  }

  lemma FreeTurns(q: SQ.State)
    requires SQ.ProducerReady(q) && q.prod.Freeing?
    ensures var q', bs := SQ.ProducerStep(q), q.prod.blocks;
      && Stays(q, q') && q'.index == q.index
      && q'.pool == (if bs == [] then q.pool else q.pool + {bs[0]})
      && q'.prod == (if bs == [] then SQ.Resting else SQ.Freeing(bs[1..]))
  {
  }

  lemma FreedOwned(q: SQ.State, a: SQ.Aux)
    requires SQ.Inv(q, a) && q.prod.Freeing? && q.prod.blocks != []
    ensures q.prod.blocks[0] in q.cells && q.prod.blocks[0] !in q.pool
  {
    hide OD.Inv, SQ.ConsumersOk, SQ.ProducerOk, SQ.CountsOk, SQ.LiveOk, SQ.CellsOk, SQ.IndexOk, SQ.HandsOk, SQ.Distinct;
    assert q.prod.blocks[0] in SQ.UndoneBlocks(q.prod);
  }

  lemma FreeKeeps(me: Tid, s: State, a: Aux, e: Event)
    requires Inv(me, s, a) && Allowed(me, s, e) && e.Produce? && s.q.prod.Freeing?
    ensures Keeps(me, s, a, e)
  {
    hide SQ.Inv, BI.Inv, ListInv, OD.Inv, SameBlocks, LooksLink, PoolLink, SP.AuxApply, FL.Typed, BI.Sound, Num, Cover, Cell, SQ.ProducerStep, SQ.ProducerReady, FL.Apply;
    TableBasics(s.b, a.v);
    ListBasics(s.f);
    QueueMet(s, a, e);
    FreeTurns(s.q);
    if s.q.prod.blocks != [] {
      FreedOwned(s.q, a.q);
      PoolGiven(s.q.cells.Keys, s.q.pool, s.f.refs.Keys, s.f.owned, s.q.prod.blocks[0]);
      AddMoves(s.f, me, s.q.prod.blocks[0]);
    }
  }

  lemma PublishTurns(q: SQ.State, a: SQ.Aux)
    requires SQ.Inv(q, a) && SQ.ProducerReady(q) && q.prod.Writing? && q.prod.i >= |q.prod.xs|
    ensures var q' := SQ.ProducerStep(q);
      && q'.work == q.work && q'.cells == q.cells && q'.index == q.index && q'.pool == q.pool && q'.prod == SQ.Resting
      && Cover(q'.q.tail) == Num(q.q.tail) + |q.prod.chain|
  {
    hide OD.Inv, SQ.MemoryOk, SQ.HoldersOk, SQ.ConsumersOk, SQ.TailOk, SQ.NoneBeyond, SQ.WrittenOk, SQ.ChainIn, Num, Cover, Cell;
  }

  lemma PublishMoves(b: BI.State, v: BI.View)
    requires BI.Sound(b.t) && v.tops != [] && b.p.Ready?
    ensures BI.Step(b, v.live, BI.Publish) == Some(b.(published := b.published + |b.chain|, chain := []))
    ensures BI.Advance(b, v, BI.Publish) == v
  {
  }

  lemma PublishKeeps(me: Tid, s: State, a: Aux, e: Event)
    requires Inv(me, s, a) && Allowed(me, s, e) && e.Produce? && s.q.prod.Writing? && s.q.prod.i >= |s.q.prod.xs|
    ensures Keeps(me, s, a, e)
  {
    hide SQ.Inv, BI.Inv, ListInv, OD.Inv, SameBlocks, LooksLink, PoolLink, SP.AuxApply, FL.Typed, BI.Sound, Num, Cover, Cell, SQ.ProducerStep, SQ.ProducerReady, BI.Step, BI.Advance, SQ.FirstFresh;
    TableBasics(s.b, a.v);
    ListBasics(s.f);
    QueueMet(s, a, e);
    PublishTurns(s.q, a.q);
    PublishMoves(s.b, a.v);
    SP.NeedsBounds(s.q.q.tail, 0);
  }

  lemma ProduceKeeps(me: Tid, s: State, a: Aux, e: Event)
    requires Inv(me, s, a) && Allowed(me, s, e) && e.Produce?
    ensures Keeps(me, s, a, e)
  {
    hide Inv, Keeps;
    match s.q.prod
    case Resting =>
    case Inserting(_, _, _, _) => InsertKeeps(me, s, a, e);
    case Undoing(_, _, _) => UndoKeeps(me, s, a, e);
    case Freeing(_) => FreeKeeps(me, s, a, e);
    case Writing(xs, _, i) => if i < |xs| { PlainKeeps(me, s, a, e); } else { PublishKeeps(me, s, a, e); }
    case _ => PlainKeeps(me, s, a, e);
  }

  // ---- All events ----

  /** Wherever the threads are, every part's demands are met by the others, and all invariants are kept. */
  lemma EventKeepsInv(me: Tid, s: State, a: Aux, e: Event)
    requires Inv(me, s, a) && Allowed(me, s, e)
    ensures Safe(me, s, a, e) && Inv(me, Next(me, s, a, e), NextAux(me, s, a, e))
  {
    hide SQ.Inv, BI.Inv, ListInv, Link, Allowed, QNext, QAux, BNext, BView, FNext, QueueSafe, TableSafe, ListSafe, FetchSafe;
    match e {
      case Begin(_, _) => BeginKeeps(me, s, a, e);
      case Count(_) => CountKeeps(me, s, a, e);
      case Read(_) => ReadKeeps(me, s, a, e);
      case Consume(_) => ConsumeKeeps(me, s, a, e);
      case Enqueue(_) => EnqueueKeeps(me, s, a, e);
      case Extend => ExtendKeeps(me, s, a, e);
      case WriteTable(_, _) => WriteKeeps(me, s, a, e);
      case Ask => AskKeeps(me, s, a, e);
      case Grant(_) => GrantKeeps(me, s, a, e);
      case Refuse => RefuseKeeps(me, s, a, e);
      case Produce => ProduceKeeps(me, s, a, e);
      case List(_) => ListKeeps(me, s, a, e);
    }
    PartsKept(me, s, a, e);
  }
}
