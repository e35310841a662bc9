/** What holds of every run of a sub-queue as a whole. */
module ImplicitProducerTheorems {
  import opened Wrappers
  import opened Blocks
  import opened ImplicitProducer
  import opened ImplicitProducerProof
  import SQ = SubQueue
  import SP = SubQueueProof
  import ST = SubQueueTheorems
  import OD = OptimisticDequeue
  import BI = BlockIndexRuns
  import FL = FreeList

  /** An empty sub-queue with a new table, no blocks in use, and a look for every consumer. */
  ghost predicate Start(me: Tid, s: State, a: Aux) {
    && SP.Initial(s.q) && a.q == SP.InitialAux(s.q) && BI.Start(s.b, a.v) && FL.Initial(s.f)
    && me !in s.q.work && forall t :: t in s.q.work ==> t < |s.b.looks|
  }

  ghost predicate Leads(me: Tid, r: State, c: Aux, e: Event, s: State, a: Aux) {
    Allowed(me, r, e) && Safe(me, r, c, e) && s == Next(me, r, c, e) && a == NextAux(me, r, c, e)
  }

  ghost predicate Traces(me: Tid, es: seq<Event>, s: State, a: Aux) {
    if es == [] then Start(me, s, a)
    else exists r: State, c: Aux :: Leads(me, r, c, Last(es), s, a) && Traces(me, Front(es), r, c)
  }

  lemma StartLink(me: Tid, s: State, a: Aux)
    requires Start(me, s, a)
    ensures Link(me, s, a)
  {
    hide BI.IsNew, OD.Initial;
    assert s.q.q.tail == 0 by { TailZero(s.q.q); }
    Position(0);
  }

  lemma TailZero(c: OD.State)
    requires OD.Initial(c)
    ensures c.tail == 0
  {
  }

  lemma StartInv(me: Tid, s: State, a: Aux)
    requires Start(me, s, a)
    ensures Inv(me, s, a)
  {
    hide SQ.Inv, BI.Inv, FL.Inv, SP.Initial, BI.Start, Link;
    SP.InitialInv(s.q);
    BI.StartInv(s.b, a.v);
    assert FL.Reaches([], s.f);
    FL.ReachedInv([], s.f);
    StartLink(me, s, a);
  }

  lemma {:induction false} TracedInv(me: Tid, es: seq<Event>, s: State, a: Aux)
    requires Traces(me, es, s, a)
    ensures Inv(me, s, a)
  {
    hide Start, Inv, Allowed, Safe, Next, NextAux;
    if es == [] {
      StartInv(me, s, a);
    } else {
      var r: State, c: Aux :| Leads(me, r, c, Last(es), s, a) && Traces(me, Front(es), r, c);
      TracedInv(me, Front(es), r, c);
      EventKeepsInv(me, r, c, Last(es));
    }
  }

  /**
   In every run, all that one part relies on is ensured by the others: the table is asked only for blocks that
   it has, and a consumer removes a block alone; what the table gives is the block that the index has; the free
   list gives only blocks of the pool, and gets only what its callers hold.
   */
  lemma DemandsMet(me: Tid, es: seq<Event>, s: State, a: Aux, e: Event)
    requires Traces(me, es, s, a) && Allowed(me, s, e)
    ensures Safe(me, s, a, e)
  {
    hide Traces, Inv, Allowed, Safe, Next, NextAux;
    TracedInv(me, es, s, a);
    EventKeepsInv(me, s, a, e);
  }

  // ---- The parts of a run are runs of the parts ----

  lemma QueueGoes(qs: seq<SQ.Event>, q: SQ.State, a: SQ.Aux, e: SQ.Event, q': SQ.State, a': SQ.Aux)
    requires SP.Traces(qs, q, a) && SP.Leads(q, a, e, q', a')
    ensures SP.Traces(qs + [e], q', a')
  {
    hide SP.Leads;
    assert Front(qs + [e]) == qs && Last(qs + [e]) == e;
  }

  lemma TableGoes(bs: seq<BI.Event>, b: BI.State, v: BI.View, e: BI.Event, b': BI.State, v': BI.View)
    requires BI.Traces(bs, b, v) && BI.Leads(b, v, e, b', v')
    ensures BI.Traces(bs + [e], b', v')
  {
    hide BI.Leads;
    assert Front(bs + [e]) == bs && Last(bs + [e]) == e;
  }

  lemma ListGoes(fs: seq<FL.Event>, f: FL.State, e: FL.Event, f': FL.State)
    requires FL.Reaches(fs, f) && FL.Leads(f, e, f')
    ensures FL.Reaches(fs + [e], f')
  {
    hide FL.Leads;
    assert Front(fs + [e]) == fs && Last(fs + [e]) == e;
  }

  /** With the circular table for its index and the free list for its pool, the sub-queue runs as with the map
      and the set. */
  lemma {:induction false} QueueRuns(me: Tid, es: seq<Event>, s: State, a: Aux)
    requires Traces(me, es, s, a)
    ensures exists qs :: SP.Traces(qs, s.q, a.q)
  {
    hide SP.Initial, BI.Start, FL.Initial, SQ.Enabled, SP.Safe, SQ.Apply, SP.AuxApply, OD.Inv, TableSafe, ListSafe, FetchSafe, Allowed, BNext, FNext, BView;
    if es == [] {
      assert SP.Traces([], s.q, a.q);
    } else {
      var r: State, c: Aux :| Leads(me, r, c, Last(es), s, a) && Traces(me, Front(es), r, c);
      QueueRuns(me, Front(es), r, c);
      var qs :| SP.Traces(qs, r.q, c.q);
      if QEvent(Last(es)).Some? { QueueGoes(qs, r.q, c.q, QEvent(Last(es)).value, s.q, a.q); }
    }
  }

  /** The table is used as its own runs say. */
  lemma {:induction false} TableRuns(me: Tid, es: seq<Event>, s: State, a: Aux)
    requires Traces(me, es, s, a)
    ensures exists bs :: BI.Traces(bs, s.b, a.v)
  {
    hide SP.Initial, BI.Start, FL.Initial, BI.Step, BI.Advance, BI.Sound, QueueSafe, ListSafe, FetchSafe, Allowed, QNext, FNext, QAux, BEvent;
    if es == [] {
      assert BI.Traces([], s.b, a.v);
    } else {
      var r: State, c: Aux :| Leads(me, r, c, Last(es), s, a) && Traces(me, Front(es), r, c);
      TableRuns(me, Front(es), r, c);
      var bs :| BI.Traces(bs, r.b, c.v);
      if BEvent(r, Last(es)).Some? { TableGoes(bs, r.b, c.v, BEvent(r, Last(es)).value, s.b, a.v); }
    }
  }

  /** And so is the free list. */
  lemma {:induction false} ListRuns(me: Tid, es: seq<Event>, s: State, a: Aux)
    requires Traces(me, es, s, a)
    ensures exists fs :: FL.Reaches(fs, s.f)
  {
    hide SP.Initial, BI.Start, FL.Initial, FL.Apply, FL.Enabled, FL.Typed, QueueSafe, TableSafe, FetchSafe, Allowed, QNext, BNext, QAux, BView, FEvent;
    if es == [] {
      assert FL.Reaches([], s.f);
    } else {
      var r: State, c: Aux :| Leads(me, r, c, Last(es), s, a) && Traces(me, Front(es), r, c);
      ListRuns(me, Front(es), r, c);
      var fs :| FL.Reaches(fs, r.f);
      if FEvent(me, r, Last(es)).Some? { ListGoes(fs, r.f, FEvent(me, r, Last(es)).value, s.f); }
    }
  }

  // ---- What follows for the whole ----

  /** What a consumer gets from the table at the end of a lookup is the block that holds its item, in the cell
      of its index. */
  lemma FetchesItsItem(me: Tid, es: seq<Event>, s: State, a: Aux, t: Tid)
    requires Traces(me, es, s, a) && t in s.q.work && LooksUp(s.q.work[t]) && t < |s.b.looks| && s.b.looks[t].Found?
    ensures Fetched(s.b, t).Some?
    ensures var b, i := Fetched(s.b, t).value, s.q.work[t].j.cur;
      b in s.q.cells && Cell(i) < |s.q.cells[b]| && i < |a.q.log| && s.q.cells[b][Cell(i)] == a.q.log[i]
  {
    hide Traces, SQ.Inv, BI.Inv, ListInv, Fetched, SameBlocks, PhaseLink, PoolLink, LooksLink, SP.Traces;
    TracedInv(me, es, s, a);
    var i := s.q.work[t].j.cur;
    LooksAt(s.q.work, s.b.looks, t);
    TableFetches(s.b, a.v, s.q.index, t, Num(i));
    YetUndone(s.q, a.q, t);
    QueueRuns(me, es, s, a);
    var qs :| SP.Traces(qs, s.q, a.q);
    ST.EveryItemStored(qs, s.q, a.q, i);
  }

  lemma YetUndone(q: SQ.State, a: SQ.Aux, t: Tid)
    requires SQ.Inv(q, a) && t in q.work && LooksUp(q.work[t])
    ensures q.work[t].j.cur < |a.log| && q.work[t].j.cur !in a.done
  {
    hide OD.Inv, SQ.MemoryOk, SQ.HoldersOk, SQ.ProducerOk;
    assert SQ.JobOk(t, q.work[t], q.q.pc, q.q.head, q.index, a.log);
    assert SQ.TodoFrom(q.work[t]) <= q.work[t].j.cur < q.work[t].j.hi;
  }

  /** Nobody is in a call of the queue or of the list. */
  ghost predicate Rests(s: State) {
    ST.Quiet(s.q) && forall t :: t in s.f.pc ==> s.f.pc[t] == FL.Idle
  }

  /** At rest the table has just the blocks between head and tail, and every block that was ever used is
      either in the table or on the free list, and not in both. */
  lemma NoBlockLost(me: Tid, es: seq<Event>, s: State, a: Aux)
    requires Traces(me, es, s, a) && Rests(s)
    ensures forall k: int :: k in a.v.live <==> k >= 0 && Base(k) < s.q.q.tail && s.q.q.head < Base(k) + BLOCK_SIZE
    ensures exists list :: FL.ListOk(s.f.head, s.f.next, list) && forall n :: n in s.f.refs ==> (n in list) != (n in a.v.live.Values)
  {
    hide Traces, SQ.Inv, BI.Inv, ListInv, PhaseLink, LooksLink, SP.Traces, FL.Reaches, FL.ListOk;
    TracedInv(me, es, s, a);
    QueueRuns(me, es, s, a);
    var qs :| SP.Traces(qs, s.q, a.q);
    ST.NothingLeaks(qs, s.q, a.q);
    ListRuns(me, es, s, a);
    var fs :| FL.Reaches(fs, s.f);
    FL.NothingLost(fs, s.f);
    SameValues(s.q.index, a.v.live);
  }

  lemma SameValues(index: map<nat, Block>, live: map<int, Block>)
    requires SameBlocks(index, live)
    ensures index.Values == live.Values
  {
    forall b | b in index.Values ensures b in live.Values {
      var k: nat :| k in index && index[k] == b;
      assert live[k] == b;
    }
    forall k | k in live ensures live[k] in index.Values {
      assert index[k] in index.Values;
    }
  }

  // ---- No thread is stuck ----

  /** Only the producer gets from the list, and then it needs a block for the entry it has made. */
  ghost predicate GetsRight(me: Tid, pc: map<Tid, FL.Pc>, asks: bool) {
    forall t :: t in pc && FL.InGet(pc[t]) ==> t == me && asks
  }

  predicate Asks(s: State) {
    Wants(s.q) && s.b.p.Requisitioning?
  }

  lemma GetStays(f: FL.State, t: Tid)
    requires FL.Typed(f) && t in f.pc && f.pc[t] != FL.Idle && FL.KnownPc(f.refs.Keys, f.pc[t])
    ensures var f' := FL.Apply(f, FL.Run(t));
      f'.pc == f.pc[t := f'.pc[t]] && (FL.InGet(f'.pc[t]) ==> FL.InGet(f.pc[t])) && (f.pc[t].GetDrop? ==> f'.pc[t] == FL.Idle)
  {
    hide FL.Typed, FL.KnownPc;
  }

  /** Consumers leave the producer where it is. */
  lemma ConsumersApart(me: Tid, s: State, a: Aux, e: Event)
    requires Safe(me, s, a, e) && (e.Begin? || e.Count? || e.Read? || e.Consume?)
    ensures QNext(s, a, e).prod == s.q.prod && BNext(s, a, e).p == s.b.p
    ensures GetsRight(me, s.f.pc, Asks(s)) ==> GetsRight(me, FNext(me, s, e).pc, Asks(s))
  {
    hide FL.Typed, OD.Inv, BI.Sound, BI.ReadStep, BI.MoveOn, BI.StoreValue, OD.Step, FetchSafe, BI.Relies, SQ.CopiesMore, Empties;
  }

  lemma PlacesKept(me: Tid, s: State, a: Aux, e: Event)
    requires Allowed(me, s, e) && Safe(me, s, a, e) && GetsRight(me, s.f.pc, Asks(s))
    ensures GetsRight(me, FNext(me, s, e).pc, Asks(Next(me, s, a, e)))
  {
    hide FL.Typed, OD.Inv, BI.Sound, BI.Step, SQ.Apply, FetchSafe, QueueSafe, TableSafe, SQ.Enabled, FL.InGet, FL.Step;
    assert !FL.InGet(FL.Idle) && forall n :: !FL.InGet(FL.AddFlag(n)) by { GetPlaces(); }
    match e
    case Begin(_, _) => ConsumersApart(me, s, a, e);
    case Count(_) => ConsumersApart(me, s, a, e);
    case Read(_) => ConsumersApart(me, s, a, e);
    case Consume(_) => ConsumersApart(me, s, a, e);
    case List(t) => ListBack(me, s, a, e);
    case Grant(_) => ListBack(me, s, a, e);
    case _ =>
  }

  lemma GetPlaces()
    ensures !FL.InGet(FL.Idle) && forall n :: !FL.InGet(FL.AddFlag(n))
  {
  }

  lemma ListBack(me: Tid, s: State, a: Aux, e: Event)
    requires Allowed(me, s, e) && Safe(me, s, a, e) && GetsRight(me, s.f.pc, Asks(s)) && (e.List? || e.Grant?)
    ensures GetsRight(me, FNext(me, s, e).pc, Asks(Next(me, s, a, e)))
  {
    hide OD.Inv, BI.Sound, BI.Step, SQ.Apply, FetchSafe, QueueSafe, TableSafe, FL.InGet, FL.Step;
    GetPlaces();
    var t := if e.List? then e.t else me;
    if s.f.pc[t] != FL.Idle { GetStays(s.f, t); }
  }

  lemma {:induction false} TracedPlaces(me: Tid, es: seq<Event>, s: State, a: Aux)
    requires Traces(me, es, s, a)
    ensures GetsRight(me, s.f.pc, Asks(s))
  {
    hide SP.Initial, BI.Start, Allowed, Safe, QNext, BNext, FNext, NextAux, FL.InGet;
    if es == [] {
      GetPlaces();
    } else {
      var r: State, c: Aux :| Leads(me, r, c, Last(es), s, a) && Traces(me, Front(es), r, c);
      TracedPlaces(me, Front(es), r, c);
      PlacesKept(me, r, c, Last(es));
    }
  }

  function Mover(me: Tid, e: Event): Tid {
    match e
    case Begin(t, _) => t
    case Count(t) => t
    case Read(t) => t
    case Consume(t) => t
    case List(t) => t
    case _ => me
  }

  /** In every run, a consumer that has taken indices, and the producer in the middle of an enqueue, always has
      a next access: no lookup is without its look, and no rollback without its place. */
  lemma NeverStuck(me: Tid, es: seq<Event>, s: State, a: Aux, t: Tid)
    requires Traces(me, es, s, a) && t in s.f.pc
    requires (t in s.q.work && s.q.work[t] != SQ.Off) || (t == me && s.q.prod != SQ.Resting)
    ensures exists e :: Allowed(me, s, e) && Mover(me, e) == t
  {
    hide Traces, SQ.Inv, BI.Inv, ListInv, SameBlocks, PoolLink, Cover, Num, BI.Sound, FL.Typed, LooksLink, Allowed;
    TracedInv(me, es, s, a);
    TracedPlaces(me, es, s, a);
    TableBasics(s.b, a.v);
    var e := Turn(me, s, t);
    TurnAllowed(me, s, t);
    assert Mover(me, e) == t;
  }

  /** The next access of a thread. */
  function Turn(me: Tid, s: State, t: Tid): (e: Event)
    ensures t in s.q.work || t == me ==> Mover(me, e) == t
  {
    if t in s.f.pc && s.f.pc[t] != FL.Idle then
      if s.f.pc[t].GetDrop? && t == me then Grant(s.f.pc[t].n) else List(t)
    else if t in s.q.work then
      if LooksUp(s.q.work[t]) && t < |s.b.looks| && !s.b.looks[t].Found? then Read(t) else Consume(t)
    else
      match s.b.p
      case Growing => Refuse
      case StoringKey(_) => WriteTable(true, [])
      case StoringTail(_) => WriteTable(true, [])
      case Clearing(_) => WriteTable(true, [])
      case Rewinding(_) => WriteTable(true, [])
      case Requisitioning(_) => if Wants(s.q) then Ask else Produce
      case _ => if Wants(s.q) then Extend else Produce
  }

  lemma TurnAllowed(me: Tid, s: State, t: Tid)
    requires BI.Sound(s.b.t) && LooksLink(s.q.work, s.b.looks) && GetsRight(me, s.f.pc, Asks(s)) && me !in s.q.work && t in s.f.pc
    requires PhaseLink(s.q.prod, SQ.FirstFresh(s.q.q.tail), s.b.p, s.b.chain)
    requires (t in s.q.work && s.q.work[t] != SQ.Off) || (t == me && s.q.prod != SQ.Resting)
    ensures Allowed(me, s, Turn(me, s, t))
  {
    hide BI.Sound, LooksLink, Num, SQ.FirstFresh;
    LooksAt(s.q.work, s.b.looks, t);
    if s.f.pc[t].GetDrop? { assert FL.InGet(s.f.pc[t]); }
  }
}
