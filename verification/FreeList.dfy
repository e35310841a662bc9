/**
 The lock-free free list of the concurrent queue: a stack whose nodes carry a reference
 count and a "should be on free list" bit packed into one 32-bit word.

 Each label of `Pc` is the point just before one atomic access of the shared memory; `Step`
 performs that access. Threads interleave freely, under sequential consistency.
 */
module FreeList {
  import opened Wrappers

  type Node = nat
  type Tid = nat

  const SHOULD_BE_ON_FREELIST: int := 0x8000_0000
  const WORD: int := 0x1_0000_0000

  /** Where `add_knowing_refcount_is_zero` returns to: out of `add`, or into the loop of `try_get`. */
  datatype Caller = FromAdd | FromGet(head: Option<Node>)

  datatype Pc =
    | Idle
    | AddFlag(n: Node)
    | LoadHead(n: Node, k: Caller)
    | StoreNext(n: Node, h: Option<Node>, k: Caller)
    | StoreRefs(n: Node, h: Option<Node>, k: Caller)
    | CasHead(n: Node, h: Option<Node>, k: Caller)
    | FailFlag(n: Node, h: Option<Node>, k: Caller)
    | GetLoad
    | GetRefs(n: Node)
    | GetAcquire(n: Node, r: int)
    | GetNext(n: Node)
    | GetPop(n: Node, h: Option<Node>)
    | GetCheck(n: Node)
    | GetDrop(n: Node)
    | GetUndo(n: Node, h: Option<Node>)

  /** `owned` holds the nodes in the hands of the list's callers. */
  datatype State = State(
    head: Option<Node>,
    refs: map<Node, int>,
    next: map<Node, Option<Node>>,
    pc: map<Tid, Pc>,
    owned: set<Node>)

  predicate KnownOpt(nodes: set<Node>, o: Option<Node>) {
    o.Some? ==> o.value in nodes
  }

  predicate KnownCaller(nodes: set<Node>, k: Caller) {
    k.FromGet? ==> KnownOpt(nodes, k.head)
  }

  predicate KnownPc(nodes: set<Node>, p: Pc) {
    match p
    case Idle => true
    case GetLoad => true
    case LoadHead(n, k) => n in nodes && KnownCaller(nodes, k)
    case StoreNext(n, h, k) => n in nodes && KnownOpt(nodes, h) && KnownCaller(nodes, k)
    case StoreRefs(n, h, k) => n in nodes && KnownOpt(nodes, h) && KnownCaller(nodes, k)
    case CasHead(n, h, k) => n in nodes && KnownOpt(nodes, h) && KnownCaller(nodes, k)
    case FailFlag(n, h, k) => n in nodes && KnownOpt(nodes, h) && KnownCaller(nodes, k)
    case GetPop(n, h) => n in nodes && KnownOpt(nodes, h)
    case GetUndo(n, h) => n in nodes && KnownOpt(nodes, h)
    case _ => p.n in nodes
  }

  /** Every pointer points at a node. */
  ghost predicate Typed(s: State) {
    && s.next.Keys == s.refs.Keys
    && s.owned <= s.refs.Keys
    && KnownOpt(s.refs.Keys, s.head)
    && (forall n :: n in s.next ==> KnownOpt(s.refs.Keys, s.next[n]))
    && (forall t :: t in s.pc ==> KnownPc(s.refs.Keys, s.pc[t]))
  }

  function Wrap(w: int): int { w % WORD }

  /** The loop of `try_get` goes on while the head it read is not null. */
  function Loop(h: Option<Node>): Pc {
    if h.Some? then GetRefs(h.value) else Idle
  }

  function Resume(k: Caller): Pc {
    match k
    case FromAdd => Idle
    case FromGet(h) => Loop(h)
  }

  function At(s: State, t: Tid, p: Pc): State {
    s.(pc := s.pc[t := p])
  }

  /** The next atomic access of thread `t`. */
  function Step(s: State, t: Tid): State
    requires t in s.pc && KnownPc(s.refs.Keys, s.pc[t]) && s.next.Keys == s.refs.Keys
  {
    match s.pc[t]
    case Idle => s
    case AddFlag(n) =>
      var old_ := s.refs[n];
      var s' := s.(refs := s.refs[n := Wrap(old_ + SHOULD_BE_ON_FREELIST)]);
      At(s', t, if old_ == 0 then LoadHead(n, FromAdd) else Idle)
    case LoadHead(n, k) => At(s, t, StoreNext(n, s.head, k))
    case StoreNext(n, h, k) => At(s.(next := s.next[n := h]), t, StoreRefs(n, h, k))
    case StoreRefs(n, h, k) => At(s.(refs := s.refs[n := 1]), t, CasHead(n, h, k))
    case CasHead(n, h, k) =>
      if s.head == h then At(s.(head := Some(n)), t, Resume(k))
      else At(s, t, FailFlag(n, s.head, k))
    case FailFlag(n, h, k) =>
      var old_ := s.refs[n];
      var s' := s.(refs := s.refs[n := Wrap(old_ + (SHOULD_BE_ON_FREELIST - 1))]);
      At(s', t, if old_ == 1 then StoreNext(n, h, k) else Resume(k))
    case GetLoad => At(s, t, Loop(s.head))
    case GetRefs(n) => At(s, t, GetAcquire(n, s.refs[n]))
    case GetAcquire(n, r) =>
      if r % SHOULD_BE_ON_FREELIST == 0 || s.refs[n] != r then At(s, t, GetLoad)
      else At(s.(refs := s.refs[n := Wrap(r + 1)]), t, GetNext(n))
    case GetNext(n) => At(s, t, GetPop(n, s.next[n]))
    case GetPop(n, h) =>
      if s.head == Some(n) then At(s.(head := h), t, GetCheck(n))
      else At(s, t, GetUndo(n, s.head))
    case GetCheck(n) => At(s, t, GetDrop(n))
    case GetDrop(n) =>
      At(s.(refs := s.refs[n := Wrap(s.refs[n] - 2)], owned := s.owned + {n}), t, Idle)
    case GetUndo(n, h) =>
      var old_ := s.refs[n];
      var s' := s.(refs := s.refs[n := Wrap(old_ - 1)]);
      At(s', t, if old_ == SHOULD_BE_ON_FREELIST + 1 then LoadHead(n, FromGet(h)) else Loop(h))
  }

  /** What the callers may do: run a thread, start a call in an idle one, or make a new node. */
  datatype Event = Run(t: Tid) | StartAdd(t: Tid, n: Node) | StartGet(t: Tid) | Create(n: Node)

  predicate Enabled(s: State, e: Event) {
    match e
    case Run(t) => t in s.pc && s.pc[t] != Idle
    case StartAdd(t, n) => t in s.pc && s.pc[t] == Idle && n in s.owned
    case StartGet(t) => t in s.pc && s.pc[t] == Idle
    case Create(n) => n !in s.refs
  }

  function Apply(s: State, e: Event): State
    requires Enabled(s, e) && s.next.Keys == s.refs.Keys
    requires e.Run? ==> KnownPc(s.refs.Keys, s.pc[e.t])
  {
    match e
    case Run(t) => Step(s, t)
    case StartAdd(t, n) => At(s.(owned := s.owned - {n}), t, AddFlag(n))
    case StartGet(t) => At(s, t, GetLoad)
    case Create(n) => s.(refs := s.refs[n := 0], next := s.next[n := None], owned := s.owned + {n})
  }

  // ---- The invariant, over a history that no step reads ----

  /** The place of a node; a node has exactly one. */
  datatype Place =
    | OnList
    | Owned
    | Adding(t: Tid)        // add was called, its flag not yet set
    | Unlinked(t: Tid)      // t re-adds it: count zero, flag set
    | Linking(t: Tid)       // t has published its count, not yet its place on the list
    | Popped(t: Tid)        // t has taken it off the list
    | Pending               // flag set; the last thread to drop a reference will re-add it

  datatype Aux = Aux(list: seq<Node>, place: map<Node, Place>)

  predicate Holds(p: Pc, n: Node) {
    match p
    case GetNext(m) => m == n
    case GetPop(m, _) => m == n
    case GetCheck(m) => m == n
    case GetDrop(m) => m == n
    case GetUndo(m, _) => m == n
    case _ => false
  }

  /** The threads that hold a counted reference to `n`. */
  function Holders(pc: map<Tid, Pc>, n: Node): set<Tid> {
    set t | t in pc && Holds(pc[t], n)
  }

  function Tail(list: seq<Node>, i: nat): Option<Node> {
    if i < |list| then Some(list[i]) else None
  }

  ghost predicate ListOk(head: Option<Node>, next: map<Node, Option<Node>>, list: seq<Node>) {
    && (forall i :: 0 <= i < |list| ==> list[i] in next)
    && (forall i, j :: 0 <= i < j < |list| ==> list[i] != list[j])
    && head == Tail(list, 0)
    && (forall i :: 0 <= i < |list| ==> next[list[i]] == Tail(list, i + 1))
  }

  /** The 32-bit word a node in place `p` with `c` references must hold. */
  function WordFor(p: Place, c: int): int {
    match p
    case OnList => 1 + c
    case Owned => c
    case Adding(_) => c
    case Unlinked(_) => SHOULD_BE_ON_FREELIST
    case Linking(_) => 1 + c
    case Popped(_) => 1 + c
    case Pending => SHOULD_BE_ON_FREELIST + c
  }

  /** The thread a place waits for. */
  function OwnerOf(p: Place): Option<Tid> {
    match p
    case Adding(t) => Some(t)
    case Unlinked(t) => Some(t)
    case Linking(t) => Some(t)
    case Popped(t) => Some(t)
    case _ => None
  }

  /** The place that thread `t`, about to do `p`, has its node in; `None` when any will do. */
  function PlaceFor(t: Tid, p: Pc): Option<Place> {
    if p.AddFlag? then Some(Adding(t))
    else if p.LoadHead? || p.StoreNext? || p.StoreRefs? then Some(Unlinked(t))
    else if p.CasHead? || p.FailFlag? then Some(Linking(t))
    else if p.GetCheck? || p.GetDrop? then Some(Popped(t))
    else None
  }

  function NodeOf(p: Pc): Option<Node> {
    if p.Idle? || p.GetLoad? then None else Some(p.n)
  }

  /** The successor that thread has read from, or written to, its node. */
  function NextFor(p: Pc): Option<Option<Node>> {
    if p.StoreRefs? || p.CasHead? || p.GetPop? then Some(p.h) else None
  }

  ghost predicate NodeOk(s: State, a: Aux, n: Node)
    requires n in s.refs && n in a.place
  {
    var c := Count(s.pc, n);
    && s.refs[n] == WordFor(a.place[n], c)
    && (n in a.list <==> a.place[n] == OnList)
    && (n in s.owned <==> a.place[n] == Owned)
    && (a.place[n].Unlinked? ==> c == 0)
    && (a.place[n].Pending? ==> c > 0)
    && OwnerOk(s.pc, n, a.place[n])
  }

  predicate OwnerOk(pc: map<Tid, Pc>, n: Node, p: Place) {
    OwnerOf(p).Some? ==>
      var t := OwnerOf(p).value;
      t in pc && NodeOf(pc[t]) == Some(n) && PlaceFor(t, pc[t]) == Some(p)
  }

  predicate ThreadOk(next: map<Node, Option<Node>>, place: map<Node, Place>, t: Tid, p: Pc) {
    NodeOf(p).Some? && NodeOf(p).value in next && NodeOf(p).value in place ==>
      LocalOk(t, p, next[NodeOf(p).value], place[NodeOf(p).value])
  }

  predicate LocalOk(t: Tid, p: Pc, x: Option<Node>, pl: Place) {
    && (PlaceFor(t, p).Some? ==> pl == PlaceFor(t, p).value)
    && (NextFor(p).Some? ==> x == NextFor(p).value)
  }

  ghost predicate Inv(s: State, a: Aux) {
    && Typed(s)
    && a.place.Keys == s.refs.Keys
    && |s.pc| < SHOULD_BE_ON_FREELIST - 1
    && ListOk(s.head, s.next, a.list)
    && NodesOk(s, a)
    && ThreadsOk(s, a)
  }

  ghost predicate NodesOk(s: State, a: Aux) {
    forall n :: n in s.refs && n in a.place ==> NodeOk(s, a, n)
  }

  ghost predicate ThreadsOk(s: State, a: Aux) {
    forall t :: t in s.pc ==> ThreadOk(s.next, a.place, t, s.pc[t])
  }

  ghost function AuxStep(s: State, a: Aux, t: Tid): Aux
    requires t in s.pc && KnownPc(s.refs.Keys, s.pc[t]) && s.next.Keys == s.refs.Keys
  {
    match s.pc[t]
    case AddFlag(n) => a.(place := a.place[n := if s.refs[n] == 0 then Unlinked(t) else Pending])
    case StoreRefs(n, _, _) => a.(place := a.place[n := Linking(t)])
    case CasHead(n, h, _) =>
      if s.head == h then Aux([n] + a.list, a.place[n := OnList]) else a
    case FailFlag(n, _, _) => a.(place := a.place[n := if s.refs[n] == 1 then Unlinked(t) else Pending])
    case GetPop(n, _) =>
      if s.head == Some(n) && a.list != [] then Aux(a.list[1..], a.place[n := Popped(t)]) else a
    case GetDrop(n) => a.(place := a.place[n := Owned])
    case GetUndo(n, _) =>
      if s.refs[n] == SHOULD_BE_ON_FREELIST + 1 then a.(place := a.place[n := Unlinked(t)]) else a
    case _ => a
  }

  // ---- Counting references ----

  lemma SubsetSize<T>(a: set<T>, b: set<T>)
    requires a <= b
    ensures |a| <= |b|
  {
    assert b == a + (b - a);
  }

  lemma HoldersBound(pc: map<Tid, Pc>, n: Node)
    ensures |Holders(pc, n)| <= |pc|
  {
    SubsetSize(Holders(pc, n), pc.Keys);
  }

  /** The number of references held; the count a node's word must agree with. */
  function Count(pc: map<Tid, Pc>, n: Node): nat {
    |Holders(pc, n)|
  }

  function One(b: bool): int { if b then 1 else 0 }

  lemma CountMove(pc: map<Tid, Pc>, t: Tid, p: Pc, n: Node)
    requires t in pc
    ensures Count(pc[t := p], n) == Count(pc, n) + One(Holds(p, n)) - One(Holds(pc[t], n))
  {
    HoldersMove(pc, t, p, n);
    if Holds(pc[t], n) {
      assert Holders(pc, n) + {t} == Holders(pc, n);
    }
  }

  lemma HoldersMove(pc: map<Tid, Pc>, t: Tid, p: Pc, n: Node)
    requires t in pc
    ensures Holders(pc[t := p], n) == if Holds(p, n) then Holders(pc, n) + {t} else Holders(pc, n) - {t}
    ensures t in Holders(pc, n) <==> Holds(pc[t], n)
  {
  }

  // ---- Every step keeps the invariant ----

  /** A step of `t` on node `n` that changes what is stored about no other node. */
  ghost predicate OnlyAt(s: State, a: Aux, s': State, a': Aux, t: Tid, n: Node) {
    && t in s.pc && n in s.refs && n in s.next && n in a.place
    && s'.pc.Keys == s.pc.Keys && s'.pc == s.pc[t := s'.pc[t]]
    && s'.refs.Keys == s.refs.Keys && s'.refs == s.refs[n := s'.refs[n]]
    && s'.next.Keys == s.next.Keys && s'.next == s.next[n := s'.next[n]]
    && a'.place.Keys == a.place.Keys && a'.place == a.place[n := a'.place[n]]
    && (forall m :: m in s.refs && m != n ==> (m in s'.owned <==> m in s.owned) && (m in a'.list <==> m in a.list))
    && (forall m :: Holds(s'.pc[t], m) ==> m == n)
  }

  lemma OtherNodes(s: State, a: Aux, s': State, a': Aux, t: Tid, n: Node)
    requires NodesOk(s, a) && OnlyAt(s, a, s', a', t, n)
    requires NodeOf(s.pc[t]) == Some(n) || NodeOf(s.pc[t]) == None
    requires NodeOk(s', a', n)
    ensures NodesOk(s', a')
  {
    forall m | m in s'.refs && m in a'.place ensures NodeOk(s', a', m) {
      if m != n {
        assert NodeOk(s, a, m);
        HoldersMove(s.pc, t, s'.pc[t], m);
        assert Holders(s'.pc, m) == Holders(s.pc, m);
      }
    }
  }

  lemma OtherThreads(s: State, a: Aux, s': State, a': Aux, t: Tid, n: Node)
    requires ThreadsOk(s, a) && OnlyAt(s, a, s', a', t, n)
    requires a'.place[n] == a.place[n] || OwnerOf(a.place[n]) == None || OwnerOf(a.place[n]) == Some(t)
    requires s'.next[n] == s.next[n] || (Count(s.pc, n) == 0 && a.place[n] == Unlinked(t))
    requires ThreadOk(s'.next, a'.place, t, s'.pc[t])
    ensures ThreadsOk(s', a')
  {
    forall u | u in s'.pc ensures ThreadOk(s'.next, a'.place, u, s'.pc[u]) {
      if u != t {
        assert ThreadOk(s.next, a.place, u, s.pc[u]);
        if NodeOf(s.pc[u]) == Some(n) {
          assert LocalOk(u, s.pc[u], s.next[n], a.place[n]);
          if s.pc[u].GetPop? { assert u in Holders(s.pc, n); }
        }
      }
    }
  }

  lemma StaysTyped(s: State, a: Aux, s': State, a': Aux, t: Tid, n: Node)
    requires Typed(s) && OnlyAt(s, a, s', a', t, n)
    requires s'.owned <= s'.refs.Keys && KnownOpt(s.refs.Keys, s'.head)
    requires KnownOpt(s.refs.Keys, s'.next[n]) && KnownPc(s.refs.Keys, s'.pc[t])
    ensures Typed(s')
  {
  }

  lemma Push(head: Option<Node>, next: map<Node, Option<Node>>, list: seq<Node>, n: Node)
    requires ListOk(head, next, list) && n !in list && n in next && next[n] == head
    ensures ListOk(Some(n), next, [n] + list)
    ensures forall m :: m in [n] + list <==> m == n || m in list
  {
  }

  lemma Pop(head: Option<Node>, next: map<Node, Option<Node>>, list: seq<Node>, n: Node)
    requires ListOk(head, next, list) && head == Some(n)
    ensures list != [] && list[0] == n && ListOk(next[n], next, list[1..])
    ensures forall m :: m in list[1..] <==> m != n && m in list
  {
  }

  /** All that the step of `t` may start from, with nothing said of other nodes or threads. */
  ghost predicate Local(s: State, a: Aux, t: Tid, n: Node) {
    && t in s.pc && NodeOf(s.pc[t]) == Some(n) && KnownPc(s.refs.Keys, s.pc[t])
    && s.next.Keys == s.refs.Keys && a.place.Keys == s.refs.Keys && s.owned <= s.refs.Keys
    && KnownOpt(s.refs.Keys, s.head) && KnownOpt(s.refs.Keys, s.next[n])
    && Count(s.pc, n) <= |s.pc| < SHOULD_BE_ON_FREELIST - 1
    && NodeOk(s, a, n)
    && LocalOk(t, s.pc[t], s.next[n], a.place[n])
    && ListOk(s.head, s.next, a.list)
  }

  /** All that the step of `t` must establish for the invariant to hold again. */
  ghost predicate Good(s: State, a: Aux, s': State, a': Aux, t: Tid, n: Node) {
    && OnlyAt(s, a, s', a', t, n)
    && (a'.place[n] == a.place[n] || OwnerOf(a.place[n]) == None || OwnerOf(a.place[n]) == Some(t))
    && (s'.next[n] == s.next[n] || (Count(s.pc, n) == 0 && a.place[n] == Unlinked(t)))
    && s'.owned <= s'.refs.Keys && KnownOpt(s.refs.Keys, s'.head)
    && KnownOpt(s.refs.Keys, s'.next[n]) && KnownPc(s.refs.Keys, s'.pc[t])
    && NodeOk(s', a', n) && ThreadOk(s'.next, a'.place, t, s'.pc[t])
    && ListOk(s'.head, s'.next, a'.list)
  }

  lemma Before(s: State, a: Aux, t: Tid, n: Node)
    requires Inv(s, a) && t in s.pc && NodeOf(s.pc[t]) == Some(n)
    ensures Local(s, a, t, n)
  {
    assert ThreadOk(s.next, a.place, t, s.pc[t]);
    HoldersBound(s.pc, n);
  }

  lemma After(s: State, a: Aux, s': State, a': Aux, t: Tid, n: Node)
    requires Inv(s, a) && t in s.pc && (NodeOf(s.pc[t]) == Some(n) || NodeOf(s.pc[t]) == None)
    requires Good(s, a, s', a', t, n)
    ensures Inv(s', a')
  {
    OtherNodes(s, a, s', a', t, n);
    OtherThreads(s, a, s', a', t, n);
    StaysTyped(s, a, s', a', t, n);
  }

  /** The word stays right when a reference is taken or given back. */
  lemma CountWord(s: State, a: Aux, t: Tid, n: Node)
    requires Local(s, a, t, n) && (s.pc[t].GetUndo? || s.pc[t].GetAcquire?)
    ensures n in Step(s, t).refs && n in AuxStep(s, a, t).place
    ensures NodeOk(Step(s, t), AuxStep(s, a, t), n)
  {
    CountMove(s.pc, t, Step(s, t).pc[t], n);
  }

  lemma StepAddFlag(s: State, a: Aux, t: Tid, n: Node)
    requires Local(s, a, t, n) && s.pc[t].AddFlag?
    ensures Good(s, a, Step(s, t), AuxStep(s, a, t), t, n)
  {
    CountMove(s.pc, t, Step(s, t).pc[t], n);
  }

  lemma StepLoadHead(s: State, a: Aux, t: Tid, n: Node)
    requires Local(s, a, t, n) && s.pc[t].LoadHead?
    ensures Good(s, a, Step(s, t), AuxStep(s, a, t), t, n)
  {
    CountMove(s.pc, t, Step(s, t).pc[t], n);
  }

  lemma StepStoreNext(s: State, a: Aux, t: Tid, n: Node)
    requires Local(s, a, t, n) && s.pc[t].StoreNext?
    ensures Good(s, a, Step(s, t), AuxStep(s, a, t), t, n)
  {
    CountMove(s.pc, t, Step(s, t).pc[t], n);
  }

  lemma StepStoreRefs(s: State, a: Aux, t: Tid, n: Node)
    requires Local(s, a, t, n) && s.pc[t].StoreRefs?
    ensures Good(s, a, Step(s, t), AuxStep(s, a, t), t, n)
  {
    CountMove(s.pc, t, Step(s, t).pc[t], n);
  }

  lemma StepCasHead(s: State, a: Aux, t: Tid, n: Node)
    requires Local(s, a, t, n) && s.pc[t].CasHead?
    ensures Good(s, a, Step(s, t), AuxStep(s, a, t), t, n)
  {
    CountMove(s.pc, t, Step(s, t).pc[t], n);
    if s.head == s.pc[t].h { Push(s.head, s.next, a.list, n); }
  }

  lemma StepFailFlag(s: State, a: Aux, t: Tid, n: Node)
    requires Local(s, a, t, n) && s.pc[t].FailFlag?
    ensures Good(s, a, Step(s, t), AuxStep(s, a, t), t, n)
  {
    CountMove(s.pc, t, Step(s, t).pc[t], n);
  }

  lemma StepGetAcquire(s: State, a: Aux, t: Tid, n: Node)
    requires Local(s, a, t, n) && s.pc[t].GetAcquire?
    ensures Good(s, a, Step(s, t), AuxStep(s, a, t), t, n)
  {
    CountWord(s, a, t, n);
  }

  lemma StepGetNext(s: State, a: Aux, t: Tid, n: Node)
    requires Local(s, a, t, n) && s.pc[t].GetNext?
    ensures Good(s, a, Step(s, t), AuxStep(s, a, t), t, n)
  {
    CountMove(s.pc, t, Step(s, t).pc[t], n);
  }

  lemma StepGetPop(s: State, a: Aux, t: Tid, n: Node)
    requires Local(s, a, t, n) && s.pc[t].GetPop?
    ensures Good(s, a, Step(s, t), AuxStep(s, a, t), t, n)
  {
    CountMove(s.pc, t, Step(s, t).pc[t], n);
    if s.head == Some(n) { Pop(s.head, s.next, a.list, n); }
  }

  lemma StepGetCheck(s: State, a: Aux, t: Tid, n: Node)
    requires Local(s, a, t, n) && s.pc[t].GetCheck?
    ensures Good(s, a, Step(s, t), AuxStep(s, a, t), t, n)
  {
    CountMove(s.pc, t, Step(s, t).pc[t], n);
  }

  lemma StepGetDrop(s: State, a: Aux, t: Tid, n: Node)
    requires Local(s, a, t, n) && s.pc[t].GetDrop?
    ensures Good(s, a, Step(s, t), AuxStep(s, a, t), t, n)
  {
    CountMove(s.pc, t, Step(s, t).pc[t], n);
  }

  lemma StepGetUndo(s: State, a: Aux, t: Tid, n: Node)
    requires Local(s, a, t, n) && s.pc[t].GetUndo?
    ensures Good(s, a, Step(s, t), AuxStep(s, a, t), t, n)
  {
    CountWord(s, a, t, n);
  }

  lemma StepGetRefs(s: State, a: Aux, t: Tid, n: Node)
    requires Local(s, a, t, n) && s.pc[t].GetRefs?
    ensures Good(s, a, Step(s, t), AuxStep(s, a, t), t, n)
  {
    CountMove(s.pc, t, Step(s, t).pc[t], n);
  }

  lemma StepKeepsInv(s: State, a: Aux, t: Tid)
    requires Inv(s, a) && t in s.pc && NodeOf(s.pc[t]).Some?
    ensures Inv(Step(s, t), AuxStep(s, a, t))
  {
    var n := NodeOf(s.pc[t]).value;
    Before(s, a, t, n);
    match s.pc[t]
    case AddFlag(_) => StepAddFlag(s, a, t, n); After(s, a, Step(s, t), AuxStep(s, a, t), t, n);
    case LoadHead(_, _) => StepLoadHead(s, a, t, n); After(s, a, Step(s, t), AuxStep(s, a, t), t, n);
    case StoreNext(_, _, _) => StepStoreNext(s, a, t, n); After(s, a, Step(s, t), AuxStep(s, a, t), t, n);
    case StoreRefs(_, _, _) => StepStoreRefs(s, a, t, n); After(s, a, Step(s, t), AuxStep(s, a, t), t, n);
    case CasHead(_, _, _) => StepCasHead(s, a, t, n); After(s, a, Step(s, t), AuxStep(s, a, t), t, n);
    case FailFlag(_, _, _) => StepFailFlag(s, a, t, n); After(s, a, Step(s, t), AuxStep(s, a, t), t, n);
    case GetRefs(_) => StepGetRefs(s, a, t, n); After(s, a, Step(s, t), AuxStep(s, a, t), t, n);
    case GetAcquire(_, _) => StepGetAcquire(s, a, t, n); After(s, a, Step(s, t), AuxStep(s, a, t), t, n);
    case GetNext(_) => StepGetNext(s, a, t, n); After(s, a, Step(s, t), AuxStep(s, a, t), t, n);
    case GetPop(_, _) => StepGetPop(s, a, t, n); After(s, a, Step(s, t), AuxStep(s, a, t), t, n);
    case GetCheck(_) => StepGetCheck(s, a, t, n); After(s, a, Step(s, t), AuxStep(s, a, t), t, n);
    case GetDrop(_) => StepGetDrop(s, a, t, n); After(s, a, Step(s, t), AuxStep(s, a, t), t, n);
    case GetUndo(_, _) => StepGetUndo(s, a, t, n); After(s, a, Step(s, t), AuxStep(s, a, t), t, n);
  }

  lemma NoNodeNodes(s: State, a: Aux, t: Tid, p: Pc)
    requires NodesOk(s, a) && t in s.pc && NodeOf(s.pc[t]) == None && (NodeOf(p) == None || p.GetRefs?)
    ensures NodesOk(At(s, t, p), a)
  {
    forall m | m in s.refs && m in a.place ensures NodeOk(At(s, t, p), a, m) {
      assert NodeOk(s, a, m);
      CountMove(s.pc, t, p, m);
    }
  }

  lemma NoNodeThreads(s: State, a: Aux, t: Tid, p: Pc)
    requires Typed(s) && ThreadsOk(s, a) && t in s.pc
    requires KnownPc(s.refs.Keys, p) && (NodeOf(p) == None || p.GetRefs?)
    ensures Typed(At(s, t, p)) && ThreadsOk(At(s, t, p), a) && |At(s, t, p).pc| == |s.pc|
  {
  }

  /** A thread that holds no node moves on, or starts to. */
  lemma NoNodeStep(s: State, a: Aux, t: Tid, p: Pc)
    requires Inv(s, a) && t in s.pc && NodeOf(s.pc[t]) == None
    requires KnownPc(s.refs.Keys, p) && (NodeOf(p) == None || p.GetRefs?)
    ensures Inv(At(s, t, p), a)
  {
    NoNodeNodes(s, a, t, p);
    NoNodeThreads(s, a, t, p);
  }

  lemma NoNodeMoves(s: State, a: Aux, t: Tid)
    requires t in s.pc && s.pc[t] != Idle && NodeOf(s.pc[t]) == None && s.next.Keys == s.refs.Keys
    ensures Step(s, t) == At(s, t, Loop(s.head)) && AuxStep(s, a, t) == a
  {
  }

  lemma StartAddGood(s: State, a: Aux, t: Tid, n: Node)
    requires Enabled(s, StartAdd(t, n)) && s.next.Keys == s.refs.Keys && n in s.refs && n in a.place && n in s.next && NodeOk(s, a, n)
    requires ListOk(s.head, s.next, a.list) && s.owned <= s.refs.Keys
    requires KnownOpt(s.refs.Keys, s.head) && KnownOpt(s.refs.Keys, s.next[n])
    ensures Good(s, a, Apply(s, StartAdd(t, n)), a.(place := a.place[n := Adding(t)]), t, n)
  {
    CountMove(s.pc, t, AddFlag(n), n);
  }

  lemma StartAddKeepsInv(s: State, a: Aux, t: Tid, n: Node)
    requires Inv(s, a) && Enabled(s, StartAdd(t, n))
    ensures Inv(Apply(s, StartAdd(t, n)), a.(place := a.place[n := Adding(t)]))
  {
    assert KnownOpt(s.refs.Keys, s.next[n]);
    StartAddGood(s, a, t, n);
    After(s, a, Apply(s, StartAdd(t, n)), a.(place := a.place[n := Adding(t)]), t, n);
  }

  lemma CreateNodes(s: State, a: Aux, n: Node)
    requires NodesOk(s, a) && n !in s.refs && n !in a.list && Count(s.pc, n) == 0 && a.place.Keys == s.refs.Keys
    requires s.next.Keys == s.refs.Keys && n !in s.owned
    ensures NodesOk(Apply(s, Create(n)), a.(place := a.place[n := Owned]))
  {
  }

  lemma CreateThreads(s: State, a: Aux, n: Node)
    requires Typed(s) && ThreadsOk(s, a) && n !in s.refs && a.place.Keys == s.refs.Keys
    ensures Typed(Apply(s, Create(n))) && ThreadsOk(Apply(s, Create(n)), a.(place := a.place[n := Owned]))
    ensures Count(s.pc, n) == 0
  {
    var s', a' := Apply(s, Create(n)), a.(place := a.place[n := Owned]);
    forall u | u in s.pc
      ensures KnownPc(s'.refs.Keys, s'.pc[u]) && ThreadOk(s'.next, a'.place, u, s'.pc[u]) && !Holds(s.pc[u], n)
    {
      assert KnownPc(s.refs.Keys, s.pc[u]) && ThreadOk(s.next, a.place, u, s.pc[u]);
    }
    assert Holders(s.pc, n) == {};
  }

  lemma CreateKeepsInv(s: State, a: Aux, n: Node)
    requires Inv(s, a) && Enabled(s, Create(n))
    ensures Inv(Apply(s, Create(n)), a.(place := a.place[n := Owned]))
  {
    CreateThreads(s, a, n);
    CreateNodes(s, a, n);
  }

  // ---- All runs ----

  ghost function AuxApply(s: State, a: Aux, e: Event): Aux
    requires Inv(s, a) && Enabled(s, e)
  {
    match e
    case Run(t) => AuxStep(s, a, t)
    case StartAdd(t, n) => a.(place := a.place[n := Adding(t)])
    case StartGet(t) => a
    case Create(n) => a.(place := a.place[n := Owned])
  }

  lemma EventKeepsInv(s: State, a: Aux, e: Event)
    requires Inv(s, a) && Enabled(s, e)
    ensures Inv(Apply(s, e), AuxApply(s, a, e))
  {
    hide Step, AuxStep, NodesOk, ThreadsOk, ListOk;
    match e
    case Run(t) =>
      if NodeOf(s.pc[t]).Some? {
        StepKeepsInv(s, a, t);
      } else {
        NoNodeMoves(s, a, t);
        NoNodeStep(s, a, t, Loop(s.head));
      }
    case StartAdd(t, n) => StartAddKeepsInv(s, a, t, n);
    case StartGet(t) => NoNodeStep(s, a, t, GetLoad);
    case Create(n) => CreateKeepsInv(s, a, n);
  }

  /** An empty list, no nodes yet, and every thread outside the list's functions. */
  ghost predicate Initial(s: State) {
    && s.head == None && s.refs == map[] && s.next == map[] && s.owned == {}
    && |s.pc| < SHOULD_BE_ON_FREELIST - 1
    && forall t :: t in s.pc ==> s.pc[t] == Idle
  }

  /** Some interleaving `es` of atomic steps and calls leads from an initial state to `s`. */
  ghost predicate Reaches(es: seq<Event>, s: State) {
    if es == [] then Initial(s)
    else
      exists r: State :: Leads(r, Last(es), s) && Reaches(Front(es), r)
  }

  ghost predicate Leads(r: State, e: Event, s: State) {
    Typed(r) && Enabled(r, e) && s == Apply(r, e)
  }

  lemma {:induction false} ReachedInv(es: seq<Event>, s: State)
    requires Reaches(es, s)
    ensures exists a :: Inv(s, a)
  {
    if es == [] {
      var a := Aux([], map[]);
      assert Inv(s, a);
    } else {
      var e := Last(es);
      var r: State :| Leads(r, e, s) && Reaches(Front(es), r);
      ReachedInv(Front(es), r);
      var a :| Inv(r, a);
      EventKeepsInv(r, a, e);
    }
  }

  /** The nodes a thread has taken off the list, or is putting back. */
  predicate InHand(s: State, t: Tid, n: Node) {
    t in s.pc && PlaceFor(t, s.pc[t]).Some? && NodeOf(s.pc[t]) == Some(n)
  }

  /** The flag is set and some thread still holds a reference. */
  predicate ReAddPending(s: State, n: Node) {
    n in s.refs && s.refs[n] > SHOULD_BE_ON_FREELIST
  }

  ghost predicate ExactlyOnePlace(s: State, list: seq<Node>, n: Node) {
    if n in list then n !in s.owned && (forall t: Tid :: !InHand(s, t, n)) && !ReAddPending(s, n)
    else if n in s.owned then (forall t: Tid :: !InHand(s, t, n)) && !ReAddPending(s, n)
    else if ReAddPending(s, n) then forall t: Tid :: !InHand(s, t, n)
    else exists t: Tid :: InHand(s, t, n) && forall u: Tid :: InHand(s, u, n) ==> u == t
  }

  lemma OnePlace(s: State, a: Aux, n: Node)
    requires n in s.refs && n in a.place && NodeOk(s, a, n) && Count(s.pc, n) < SHOULD_BE_ON_FREELIST - 1
    requires forall t: Tid :: InHand(s, t, n) ==> OwnerOf(a.place[n]) == Some(t)
    ensures ExactlyOnePlace(s, a.list, n)
  {
    if OwnerOf(a.place[n]).Some? { assert InHand(s, OwnerOf(a.place[n]).value, n); }
  }

  lemma HandOwns(s: State, a: Aux, t: Tid, n: Node)
    requires ThreadsOk(s, a) && s.next.Keys == s.refs.Keys == a.place.Keys && n in s.refs && InHand(s, t, n)
    ensures OwnerOf(a.place[n]) == Some(t)
  {
  }

  lemma EachOnePlace(s: State, a: Aux)
    requires ThreadsOk(s, a) && NodesOk(s, a) && |s.pc| < SHOULD_BE_ON_FREELIST - 1
    requires s.next.Keys == s.refs.Keys == a.place.Keys
    ensures forall n :: n in s.refs ==> ExactlyOnePlace(s, a.list, n)
  {
    forall n | n in s.refs ensures ExactlyOnePlace(s, a.list, n) {
      forall t: Tid | InHand(s, t, n) ensures OwnerOf(a.place[n]) == Some(t) { HandOwns(s, a, t, n); }
      HoldersBound(s.pc, n);
      OnePlace(s, a, n);
    }
  }

  /** In every reachable state each node is in exactly one place: on the list, with a caller, in the
      hands of one thread, or waiting for the last reference to be dropped. */
  lemma EveryNodeHasOnePlace(es: seq<Event>, s: State)
    requires Reaches(es, s)
    ensures exists list :: ListOk(s.head, s.next, list) && forall n :: n in s.refs ==> ExactlyOnePlace(s, list, n)
  {
    ReachedInv(es, s);
    var a :| Inv(s, a);
    EachOnePlace(s, a);
  }

  lemma PoppedWord(s: State, a: Aux, t: Tid, n: Node)
    requires Local(s, a, t, n) && Pops(s.pc[t])
    ensures n in s.refs && n !in s.owned && 0 <= s.refs[n] < SHOULD_BE_ON_FREELIST
    ensures OwnerOf(a.place[n]) == Some(t)
  {
  }

  /** `try_get` never hands a node to two callers, and its assert that the flag is clear holds. */
  lemma TryGetHandsOutOnce(es: seq<Event>, s: State, t: Tid)
    requires Reaches(es, s) && t in s.pc && Pops(s.pc[t])
    ensures var n := s.pc[t].n;
      && n in s.refs && n !in s.owned
      && 0 <= s.refs[n] < SHOULD_BE_ON_FREELIST
      && forall u: Tid :: InHand(s, u, n) ==> u == t
  {
    ReachedInv(es, s);
    var a :| Inv(s, a);
    var n := s.pc[t].n;
    Before(s, a, t, n);
    PoppedWord(s, a, t, n);
    forall u: Tid | InHand(s, u, n) ensures u == t { HandOwns(s, a, u, n); }
  }

  /** No ABA: when the compare-and-swap of `try_get` finds its node at the head, the successor it
      read long before is still that node's successor. */
  lemma PopSwapsInTheSuccessor(es: seq<Event>, s: State, t: Tid)
    requires Reaches(es, s) && t in s.pc && s.pc[t].GetPop?
    ensures var n := s.pc[t].n; n in s.next && s.pc[t].h == s.next[n]
  {
    ReachedInv(es, s);
    var a :| Inv(s, a);
    Before(s, a, t, s.pc[t].n);
  }

  lemma NextChangesAt(s: State, e: Event)
    requires Enabled(s, e) && s.next.Keys == s.refs.Keys
    requires e.Run? ==> KnownPc(s.refs.Keys, s.pc[e.t])
    ensures forall n :: n in s.next && (e.Run? && s.pc[e.t].StoreNext? ==> s.pc[e.t].n != n) ==>
      n in Apply(s, e).next && Apply(s, e).next[n] == s.next[n]
  {
  }

  /** `next` is stable while any thread holds a reference. */
  lemma NextStableWhileReferenced(es: seq<Event>, s: State, e: Event, n: Node)
    requires Reaches(es, s) && Typed(s) && Enabled(s, e) && n in s.next && Holders(s.pc, n) != {}
    ensures n in Apply(s, e).next && Apply(s, e).next[n] == s.next[n]
  {
    NextChangesAt(s, e);
    if e.Run? && s.pc[e.t].StoreNext? {
      ReachedInv(es, s);
      var a :| Inv(s, a);
      Before(s, a, e.t, s.pc[e.t].n);
    }
  }

  // ---- What try_get answers ----

  /** The thread is in `try_get`, perhaps adding a node on the way. */
  predicate InGet(p: Pc) {
    match p
    case Idle => false
    case AddFlag(_) => false
    case LoadHead(_, k) => k.FromGet?
    case StoreNext(_, _, k) => k.FromGet?
    case StoreRefs(_, _, k) => k.FromGet?
    case CasHead(_, _, k) => k.FromGet?
    case FailFlag(_, _, k) => k.FromGet?
    case _ => true
  }

  /** The head that the thread read at its failed pop, when it may still end its loop by that. */
  function HeadRead(p: Pc): Option<Option<Node>> {
    match p
    case GetUndo(_, h) => Some(h)
    case LoadHead(_, FromGet(h)) => Some(h)
    case StoreNext(_, _, FromGet(h)) => Some(h)
    case StoreRefs(_, _, FromGet(h)) => Some(h)
    case CasHead(_, _, FromGet(h)) => Some(h)
    case FailFlag(_, _, FromGet(h)) => Some(h)
    case _ => None
  }

  /** The event ends a call of `try_get` by thread `t` without a node. */
  predicate AnswersNull(s: State, s': State, t: Tid) {
    t in s.pc && t in s'.pc && InGet(s.pc[t]) && !s.pc[t].GetDrop? && s'.pc[t] == Idle
  }

  /** A call that ends without a node read its last head as null, just then or at its failed pop. */
  lemma NullRead(s: State, e: Event, s': State, t: Tid)
    requires Leads(s, e, s') && AnswersNull(s, s', t)
    ensures (s.pc[t] == GetLoad && s.head == None) || HeadRead(s.pc[t]) == Some(None)
  {
    hide Typed;
  }

  lemma NullKept(s: State, e: Event, s': State, t: Tid)
    requires Leads(s, e, s') && t in s'.pc && HeadRead(s'.pc[t]) == Some(None)
    ensures t in s.pc && InGet(s.pc[t]) && (HeadRead(s.pc[t]) == Some(None) || s.head == None)
    ensures InGet(s'.pc[t])
  {
    hide Typed;
  }

  /** A run with all its states. */
  ghost predicate Passes(es: seq<Event>, ss: seq<State>) {
    && |ss| == |es| + 1 && Initial(ss[0])
    && forall p :: 0 <= p < |es| ==> Leads(ss[p], es[p], ss[p + 1])
  }

  /** Thread `t` has been in one call of `try_get` from point `q` of the run to point `p`. */
  ghost predicate During(ss: seq<State>, q: nat, p: nat, t: Tid) {
    q <= p < |ss| && forall r :: q <= r <= p ==> t in ss[r].pc && InGet(ss[r].pc[t])
  }

  lemma {:induction false} NullSince(es: seq<Event>, ss: seq<State>, p: nat, t: Tid)
    requires Passes(es, ss) && p <= |es| && t in ss[p].pc && HeadRead(ss[p].pc[t]) == Some(None)
    ensures exists q: nat :: During(ss, q, p, t) && ss[q].head == None
  {
    hide Leads, Initial, InGet, HeadRead;
    if p == 0 {
      NoneRead(ss[0], t);
    } else {
      assert Leads(ss[p - 1], es[p - 1], ss[p - 1 + 1]);
      NullKept(ss[p - 1], es[p - 1], ss[p], t);
      if ss[p - 1].head == None {
        assert During(ss, p - 1, p, t);
      } else {
        NullSince(es, ss, p - 1, t);
        var q: nat :| During(ss, q, p - 1, t) && ss[q].head == None;
        assert During(ss, q, p, t);
      }
    }
  }

  lemma NoneRead(s: State, t: Tid)
    requires Initial(s) && t in s.pc
    ensures HeadRead(s.pc[t]) == None
  {
  }

  /** In every run, `try_get` answers null only if at some moment of the call the list was empty. */
  lemma NullOnlyIfEmpty(es: seq<Event>, ss: seq<State>, p: nat, t: Tid)
    requires Passes(es, ss) && p < |es| && AnswersNull(ss[p], ss[p + 1], t)
    ensures exists q: nat :: During(ss, q, p, t) && ss[q].head == None
  {
    hide Leads, Initial, InGet, HeadRead;
    assert Leads(ss[p], es[p], ss[p + 1]);
    NullRead(ss[p], es[p], ss[p + 1], t);
    if HeadRead(ss[p].pc[t]) == Some(None) { NullSince(es, ss, p, t); } else { assert During(ss, p, p, t); }
  }

  // ---- A thread alone ----

  /** Thread `t` makes `k` accesses in a row. */
  ghost predicate RunsOn(s: State, t: Tid, k: nat, s': State)
    decreases k
  {
    if k == 0 then s' == s else exists r: State :: Leads(s, Run(t), r) && RunsOn(r, t, k - 1, s')
  }

  ghost predicate Asking(s: State, t: Tid) {
    t in s.pc && s.pc[t] == GetLoad && forall u :: u in s.pc && u != t ==> s.pc[u] == Idle
  }

  lemma Moves(s: State, a: Aux, t: Tid)
    requires Inv(s, a) && t in s.pc && s.pc[t] != Idle
    ensures Leads(s, Run(t), Step(s, t)) && Inv(Step(s, t), AuxStep(s, a, t))
  {
    hide NodesOk, ThreadsOk, ListOk, Step, AuxStep;
    EventKeepsInv(s, a, Run(t));
  }

  lemma AloneFacts(s: State, a: Aux, t: Tid, list: seq<Node>)
    requires Inv(s, a) && Asking(s, t) && ListOk(s.head, s.next, list) && list != []
    ensures s.head == Some(list[0]) && list[0] in s.refs && s.refs[list[0]] == 1 && s.next[list[0]] == Tail(list, 1)
    ensures ListOk(Tail(list, 1), s.next, list[1..])
  {
    var n := list[0];
    Pop(s.head, s.next, list, n);
    assert a.list != [] && a.list[0] == n;
    assert NodeOk(s, a, n);
    assert Holders(s.pc, n) == {};
  }

  /** The states of such a thread's accesses up to its pop, and then. */
  function Reading(s: State, t: Tid, k: nat, n: Node, x: Option<Node>): State {
    if k == 0 then s
    else if k == 1 then At(s, t, GetRefs(n))
    else if k == 2 then At(s, t, GetAcquire(n, 1))
    else if k == 3 then At(s.(refs := s.refs[n := 2]), t, GetNext(n))
    else if k == 4 then At(s.(refs := s.refs[n := 2]), t, GetPop(n, x))
    else if k == 5 then At(s.(refs := s.refs[n := 2], head := x), t, GetCheck(n))
    else if k == 6 then At(s.(refs := s.refs[n := 2], head := x), t, GetDrop(n))
    else At(s.(refs := s.refs[n := 0], head := x, owned := s.owned + {n}), t, Idle)
  }

  lemma ReadingSteps(s: State, t: Tid, k: nat, n: Node)
    requires k < 7 && Typed(s) && Asking(s, t) && s.head == Some(n) && n in s.refs && s.refs[n] == 1
    ensures n in s.next
    ensures var r := Reading(s, t, k, n, s.next[n]);
      && t in r.pc && r.pc[t] != Idle && KnownPc(r.refs.Keys, r.pc[t]) && r.next.Keys == r.refs.Keys
      && Step(r, t) == Reading(s, t, k + 1, n, s.next[n])
  {
    var r := Reading(s, t, k, n, s.next[n]);
    assert r.refs.Keys == s.refs.Keys;
    assert k < 3 ==> s.refs[n := 1] == s.refs;
  }

  lemma {:induction false} ReadsOn(s: State, a: Aux, t: Tid, k: nat, n: Node, b: Aux)
    requires k <= 7 && Inv(s, a) && Asking(s, t) && s.head == Some(n) && n in s.refs && s.refs[n] == 1 && n in s.next
    requires Inv(Reading(s, t, k, n, s.next[n]), b)
    ensures RunsOn(Reading(s, t, k, n, s.next[n]), t, 7 - k, Reading(s, t, 7, n, s.next[n]))
    decreases 7 - k
  {
    hide Inv, Reading, Leads, Step, AuxStep;
    if k < 7 {
      TypedInv(s, a);
      ReadingSteps(s, t, k, n);
      var r := Reading(s, t, k, n, s.next[n]);
      Moves(r, b, t);
      ReadsOn(s, a, t, k + 1, n, AuxStep(r, b, t));
    }
  }

  lemma TypedInv(s: State, a: Aux)
    requires Inv(s, a)
    ensures Typed(s)
  {
  }

  /** A thread alone takes the first node off the list. */
  lemma AloneGets(es: seq<Event>, s: State, t: Tid, list: seq<Node>) returns (s': State)
    requires Reaches(es, s) && Asking(s, t) && ListOk(s.head, s.next, list) && list != []
    ensures RunsOn(s, t, 7, s') && t in s'.pc && s'.pc[t] == Idle
    ensures list[0] !in s.owned && s'.owned == s.owned + {list[0]} && ListOk(s'.head, s'.next, list[1..])
  {
    hide Inv, Reaches, ListOk, Leads;
    ReachedInv(es, s);
    var a :| Inv(s, a);
    var n := list[0];
    AloneFacts(s, a, t, list);
    TypedInv(s, a);
    ReadsOn(s, a, t, 0, n, a);
    s' := Reading(s, t, 7, n, s.next[n]);
    NotOwned(s, a, n);
  }

  lemma NotOwned(s: State, a: Aux, n: Node)
    requires Inv(s, a) && s.head == Some(n)
    ensures n !in s.owned
  {
    assert n in a.list && NodeOk(s, a, n);
  }

  /** And finds nothing just on an empty list. */
  lemma AloneFindsNothing(s: State, t: Tid)
    requires Typed(s) && Asking(s, t) && s.head == None
    ensures Leads(s, Run(t), s.(pc := s.pc[t := Idle]))
  {
    hide Typed;
  }

  // ---- And one that adds ----

  ghost predicate Giving(s: State, t: Tid, n: Node) {
    t in s.pc && s.pc[t] == AddFlag(n) && forall u :: u in s.pc && u != t ==> s.pc[u] == Idle
  }

  function Writing(s: State, t: Tid, k: nat, n: Node): State {
    var flagged := s.(refs := s.refs[n := SHOULD_BE_ON_FREELIST]);
    var linked := flagged.(next := s.next[n := s.head]);
    if k == 0 then s
    else if k == 1 then At(flagged, t, LoadHead(n, FromAdd))
    else if k == 2 then At(flagged, t, StoreNext(n, s.head, FromAdd))
    else if k == 3 then At(linked, t, StoreRefs(n, s.head, FromAdd))
    else if k == 4 then At(linked.(refs := s.refs[n := 1]), t, CasHead(n, s.head, FromAdd))
    else At(linked.(refs := s.refs[n := 1], head := Some(n)), t, Idle)
  }

  lemma WritingSteps(s: State, t: Tid, k: nat, n: Node)
    requires k < 5 && Typed(s) && Giving(s, t, n) && n in s.refs && s.refs[n] == 0
    ensures var r := Writing(s, t, k, n);
      && t in r.pc && r.pc[t] != Idle && KnownPc(r.refs.Keys, r.pc[t]) && r.next.Keys == r.refs.Keys
      && Step(r, t) == Writing(s, t, k + 1, n)
  {
    var r := Writing(s, t, k, n);
    assert r.refs.Keys == s.refs.Keys && r.next.Keys == s.next.Keys;
    assert s.refs[n := SHOULD_BE_ON_FREELIST][n := 1] == s.refs[n := 1];
  }

  lemma {:induction false} WritesOn(s: State, a: Aux, t: Tid, k: nat, n: Node, b: Aux)
    requires k <= 5 && Inv(s, a) && Giving(s, t, n) && n in s.refs && s.refs[n] == 0 && Inv(Writing(s, t, k, n), b)
    ensures RunsOn(Writing(s, t, k, n), t, 5 - k, Writing(s, t, 5, n))
    decreases 5 - k
  {
    hide Inv, Writing, Leads, Step, AuxStep;
    if k < 5 {
      TypedInv(s, a);
      WritingSteps(s, t, k, n);
      var r := Writing(s, t, k, n);
      Moves(r, b, t);
      WritesOn(s, a, t, k + 1, n, AuxStep(r, b, t));
    }
  }

  lemma GivingFacts(s: State, a: Aux, t: Tid, n: Node)
    requires Inv(s, a) && Giving(s, t, n)
    ensures n in s.refs && s.refs[n] == 0 && n !in a.list && ListOk(s.head, s.next, a.list)
  {
    Before(s, a, t, n);
    assert Holders(s.pc, n) == {};
  }

  /** A thread alone puts the node that it adds in front. */
  lemma AloneAdds(es: seq<Event>, s: State, t: Tid, n: Node) returns (s': State, list: seq<Node>)
    requires Reaches(es, s) && Giving(s, t, n)
    ensures RunsOn(s, t, 5, s') && t in s'.pc && s'.pc[t] == Idle
    ensures ListOk(s.head, s.next, list) && ListOk(s'.head, s'.next, [n] + list) && s'.owned == s.owned
  {
    hide Inv, Reaches, ListOk, Leads;
    ReachedInv(es, s);
    var a :| Inv(s, a);
    GivingFacts(s, a, t, n);
    WritesOn(s, a, t, 0, n, a);
    s', list := Writing(s, t, 5, n), a.list;
    Prepended(s.head, s.next, list, n);
  }

  lemma Prepended(head: Option<Node>, next: map<Node, Option<Node>>, list: seq<Node>, n: Node)
    requires ListOk(head, next, list) && n !in list
    ensures ListOk(Some(n), next[n := head], [n] + list)
  {
  }

  lemma IdleNodes(s: State, list: seq<Node>, n: Node)
    requires n in s.refs && ExactlyOnePlace(s, list, n) && s.refs[n] <= SHOULD_BE_ON_FREELIST
    requires forall t :: t in s.pc ==> s.pc[t] == Idle
    ensures (n in list) != (n in s.owned)
  {
  }

  lemma IdleWords(s: State, a: Aux, n: Node)
    requires n in s.refs && n in a.place && NodeOk(s, a, n)
    requires forall t :: t in s.pc ==> s.pc[t] == Idle
    ensures s.refs[n] <= SHOULD_BE_ON_FREELIST
  {
  }

  /** No node is lost: with no call in progress each one is on the list or with a caller. */
  lemma NothingLost(es: seq<Event>, s: State)
    requires Reaches(es, s) && forall t :: t in s.pc ==> s.pc[t] == Idle
    ensures exists list :: ListOk(s.head, s.next, list) && forall n :: n in s.refs ==> (n in list) != (n in s.owned)
  {
    hide Reaches, Inv, ListOk;
    ReachedInv(es, s);
    var a :| Inv(s, a);
    IdleSplit(s, a);
  }

  /** At rest each node is on the list or owned. */
  lemma IdleSplit(s: State, a: Aux)
    requires Inv(s, a) && forall t :: t in s.pc ==> s.pc[t] == Idle
    ensures ListOk(s.head, s.next, a.list) && forall n :: n in s.refs ==> (n in a.list) != (n in s.owned)
  {
    EachOnePlace(s, a);
    forall n | n in s.refs ensures (n in a.list) != (n in s.owned) {
      IdleWords(s, a, n);
      IdleNodes(s, a.list, n);
    }
  }

  // ---- The list in its own form ----

  /** The shared words, updated in place, and the threads' registers. */
  class SharedList {
    var freeListHead: Option<Node>
    var freeListRefs: map<Node, int>
    var freeListNext: map<Node, Option<Node>>
    var registers: map<Tid, Pc>
    var callers: set<Node>

    function Snapshot(): State
      reads this
    {
      State(freeListHead, freeListRefs, freeListNext, registers, callers)
    }

    /** What `Typed` says of the thread about to move. */
    predicate Ready(t: Tid)
      reads this
    {
      t in registers && KnownPc(freeListRefs.Keys, registers[t]) && freeListNext.Keys == freeListRefs.Keys
    }

    constructor (threads: set<Tid>)
      requires |threads| < SHOULD_BE_ON_FREELIST - 1
      ensures Initial(Snapshot()) && registers.Keys == threads
    {
      freeListHead, freeListRefs, freeListNext, callers := None, map[], map[], {};
      registers := map t | t in threads :: Idle;
      new;
      assert registers.Keys == threads;
    }

    method FetchAdd(n: Node, delta: int) returns (previous: int)
      requires n in freeListRefs
      modifies this`freeListRefs
      ensures previous == old(freeListRefs)[n]
      ensures freeListRefs == old(freeListRefs)[n := Wrap(previous + delta)]
    {
      previous := freeListRefs[n];
      freeListRefs := freeListRefs[n := Wrap(previous + delta)];
    }

    method CompareExchangeHead(expected: Option<Node>, desired: Option<Node>) returns (ok: bool, seen: Option<Node>)
      modifies this`freeListHead
      ensures seen == old(freeListHead) && ok == (seen == expected)
      ensures freeListHead == if ok then desired else seen
    {
      seen := freeListHead;
      ok := seen == expected;
      if ok { freeListHead := desired; }
    }

    method CompareExchangeRefs(n: Node, expected: int, desired: int) returns (ok: bool)
      requires n in freeListRefs
      modifies this`freeListRefs
      ensures ok == (old(freeListRefs)[n] == expected)
      ensures freeListRefs == if ok then old(freeListRefs)[n := desired] else old(freeListRefs)
    {
      ok := freeListRefs[n] == expected;
      if ok { freeListRefs := freeListRefs[n := desired]; }
    }

    /** The steps of `add` and `add_knowing_refcount_is_zero`. */
    method AdvanceAdd(t: Tid)
      requires Ready(t) && PlaceFor(t, registers[t]).Some? && !Pops(registers[t])
      modifies this
      ensures Snapshot() == Step(old(Snapshot()), t)
    {
      match registers[t]
      case AddFlag(n) =>
        var previous := FetchAdd(n, SHOULD_BE_ON_FREELIST);
        registers := registers[t := if previous == 0 then LoadHead(n, FromAdd) else Idle];
      case LoadHead(n, k) =>
        registers := registers[t := StoreNext(n, freeListHead, k)];
      case StoreNext(n, h, k) =>
        freeListNext := freeListNext[n := h];
        registers := registers[t := StoreRefs(n, h, k)];
      case StoreRefs(n, h, k) =>
        freeListRefs := freeListRefs[n := 1];
        registers := registers[t := CasHead(n, h, k)];
      case CasHead(n, h, k) =>
        var ok, seen := CompareExchangeHead(h, Some(n));
        registers := registers[t := if ok then Resume(k) else FailFlag(n, seen, k)];
      case FailFlag(n, h, k) =>
        var previous := FetchAdd(n, SHOULD_BE_ON_FREELIST - 1);
        registers := registers[t := if previous == 1 then StoreNext(n, h, k) else Resume(k)];
    }

    /** The steps of `try_get`, up to its compare-and-swap of the head. */
    method AdvanceGet(t: Tid)
      requires Ready(t)
      requires var p := registers[t]; p.GetLoad? || p.GetRefs? || p.GetAcquire? || p.GetNext? || p.GetPop?
      modifies this
      ensures Snapshot() == Step(old(Snapshot()), t)
    {
      match registers[t]
      case GetLoad =>
        registers := registers[t := Loop(freeListHead)];
      case GetRefs(n) =>
        registers := registers[t := GetAcquire(n, freeListRefs[n])];
      case GetAcquire(n, r) =>
        if r % SHOULD_BE_ON_FREELIST == 0 {
          registers := registers[t := GetLoad];
        } else {
          var ok := CompareExchangeRefs(n, r, Wrap(r + 1));
          registers := registers[t := if ok then GetNext(n) else GetLoad];
        }
      case GetNext(n) =>
        registers := registers[t := GetPop(n, freeListNext[n])];
      case GetPop(n, h) =>
        var ok, seen := CompareExchangeHead(Some(n), h);
        registers := registers[t := if ok then GetCheck(n) else GetUndo(n, seen)];
    }

    /** The steps of `try_get` after its compare-and-swap of the head. */
    method AdvanceDrop(t: Tid)
      requires Ready(t) && (Pops(registers[t]) || registers[t].GetUndo?)
      modifies this
      ensures Snapshot() == Step(old(Snapshot()), t)
    {
      match registers[t]
      case GetCheck(n) =>
        registers := registers[t := GetDrop(n)];
      case GetDrop(n) =>
        var _ := FetchAdd(n, -2);
        callers := callers + {n};
        registers := registers[t := Idle];
      case GetUndo(n, h) =>
        var previous := FetchAdd(n, -1);
        registers := registers[t := if previous == SHOULD_BE_ON_FREELIST + 1 then LoadHead(n, FromGet(h)) else Loop(h)];
    }
  }

  predicate Pops(p: Pc) {
    p.GetCheck? || p.GetDrop?
  }
}
