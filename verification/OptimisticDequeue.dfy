/**
 The counters by which any number of consumers share one producer's sub-queue: each consumer
 claims items optimistically, looks at the tail again, gives back what it over-claimed, and
 only then takes indices from the head. A single dequeue is a bulk dequeue of at most one.
 */
module OptimisticDequeue {
  import opened Wrappers

  type Tid = nat

  /** Each label is the point just before one atomic access. */
  datatype Pc =
    | Idle
    | ReadTail(max: nat)
    | ReadOver(max: nat, tl: nat)
    | ReadCount(max: nat, tl: nat, oc: int)
    | Claim(want: nat, oc: int)
    | Recheck(my: nat, want: nat, oc: int)
    | GiveBack(my: nat, want: nat, got: nat)
    | TakeHead(my: nat, got: nat)
    | Holding(first: nat, count: nat)

  datatype State = State(tail: nat, count: nat, over: int, head: nat, pc: map<Tid, Pc>)

  function At(s: State, t: Tid, p: Pc): State {
    s.(pc := s.pc[t := p])
  }

  function Min(a: int, b: int): (m: int)
    ensures m == a || m == b
  {
    if a < b then a else b
  }

  /** The items a consumer asks for, given the values it has read. */
  function Desired(max: nat, tl: nat, c: nat, oc: int): int {
    Min(tl - (c - oc), max)
  }

  function Step(s: State, t: Tid): State
    requires t in s.pc
  {
    match s.pc[t]
    case ReadTail(max) => At(s, t, ReadOver(max, s.tail))
    case ReadOver(max, tl) => At(s, t, ReadCount(max, tl, s.over))
    case ReadCount(max, tl, oc) =>
      if tl - (s.count - oc) > 0 then At(s, t, Claim(Desired(max, tl, s.count, oc), oc)) else At(s, t, Idle)
    case Claim(want, oc) => At(s.(count := s.count + want), t, Recheck(s.count, want, oc))
    case Recheck(my, want, oc) =>
      var available := s.tail - (my - oc);
      if available <= 0 then At(s, t, GiveBack(my, want, 0))
      else if available < want then At(s, t, GiveBack(my, want, available))
      else At(s, t, TakeHead(my, want))
    case GiveBack(my, want, got) =>
      At(s.(over := s.over + (want - got)), t, if got > 0 then TakeHead(my, got) else Idle)
    case TakeHead(my, got) => At(s.(head := s.head + got), t, Holding(s.head, got))
    case Holding(_, _) => At(s, t, Idle)
    case Idle => s
  }

  datatype Event = Run(t: Tid) | Start(t: Tid, max: nat) | Publish(n: nat)

  predicate Enabled(s: State, e: Event) {
    match e
    case Run(t) => t in s.pc && s.pc[t] != Idle
    case Start(t, _) => t in s.pc && s.pc[t] == Idle
    case Publish(_) => true
  }

  function Apply(s: State, e: Event): State
    requires Enabled(s, e)
  {
    match e
    case Run(t) => Step(s, t)
    case Start(t, max) => At(s, t, ReadTail(max))
    case Publish(n) => s.(tail := s.tail + n)
  }

  // ---- The fate of each claimed item, over a history that no step reads ----

  datatype Slot = InFlight(t: Tid) | Granted(t: Tid) | Taken | Over

  /** `slots[i]` is the fate of the i-th item ever claimed; `owner[i]` took index i. */
  datatype Aux = Aux(slots: seq<Slot>, owner: seq<Tid>)

  datatype Kind = IsOver | IsTaken | IsLive

  predicate Is(k: Kind, x: Slot) {
    match k
    case IsOver => x == Over
    case IsTaken => x == Taken
    case IsLive => x == Taken || x.Granted?
  }

  /** How many of the first `n` claims are of kind `k`. */
  function Tally(slots: seq<Slot>, n: nat, k: Kind): (c: nat)
    requires n <= |slots|
    ensures c <= n
  {
    if n == 0 then 0 else Tally(slots, n - 1, k) + if Is(k, slots[n - 1]) then 1 else 0
  }

  function Paint(slots: seq<Slot>, lo: nat, hi: nat, x: Slot): (r: seq<Slot>)
    requires lo <= hi <= |slots|
    ensures |r| == |slots|
    ensures forall i :: 0 <= i < |slots| ==> r[i] == if lo <= i < hi then x else slots[i]
  {
    slots[..lo] + seq(hi - lo, _ => x) + slots[hi..]
  }

  function Overlap(n: nat, lo: nat, hi: nat): nat
    requires lo <= hi
  {
    if n <= lo then 0 else if n <= hi then n - lo else hi - lo
  }

  function Change(n: nat, lo: nat, hi: nat, before: bool, after: bool): int
    requires lo <= hi
  {
    if before == after then 0 else if after then Overlap(n, lo, hi) else 0 - Overlap(n, lo, hi)
  }

  lemma {:induction false} TallyPaint(slots: seq<Slot>, n: nat, k: Kind, lo: nat, hi: nat, was: Slot, x: Slot)
    requires n <= |slots| && lo <= hi <= |slots|
    requires forall i :: lo <= i < hi ==> slots[i] == was
    ensures Tally(Paint(slots, lo, hi, x), n, k) == Tally(slots, n, k) + Change(n, lo, hi, Is(k, was), Is(k, x))
  {
    if n > 0 { TallyPaint(slots, n - 1, k, lo, hi, was, x); }
  }

  lemma {:induction false} TallyPrefix(a: seq<Slot>, b: seq<Slot>, n: nat, k: Kind)
    requires n <= |a| <= |b| && forall i :: 0 <= i < n ==> a[i] == b[i]
    ensures Tally(a, n, k) == Tally(b, n, k)
  {
    if n > 0 { TallyPrefix(a, b, n - 1, k); }
  }

  lemma {:induction false} TallyGrows(slots: seq<Slot>, m: nat, n: nat, k: Kind)
    requires m <= n <= |slots|
    ensures Tally(slots, m, k) <= Tally(slots, n, k) <= Tally(slots, m, k) + (n - m)
  {
    if m < n { TallyGrows(slots, m, n - 1, k); }
  }

  lemma {:induction false} LiveAndOver(slots: seq<Slot>, n: nat)
    requires n <= |slots|
    ensures Tally(slots, n, IsLive) + Tally(slots, n, IsOver) <= n
    ensures Tally(slots, n, IsTaken) <= Tally(slots, n, IsLive)
  {
    if n > 0 { LiveAndOver(slots, n - 1); }
  }

  /** Up to and including claim `g`, no more than `bound` claims can end with an item. */
  predicate Fits(slots: seq<Slot>, g: nat, bound: int)
    requires g < |slots|
  {
    g + 1 - Tally(slots, g + 1, IsOver) <= bound
  }

  lemma {:induction false} LiveBound(slots: seq<Slot>, n: nat, bound: nat)
    requires n <= |slots|
    requires forall g :: 0 <= g < n && Is(IsLive, slots[g]) ==> Fits(slots, g, bound)
    ensures Tally(slots, n, IsLive) <= bound
  {
    if n > 0 {
      if Is(IsLive, slots[n - 1]) {
        assert Fits(slots, n - 1, bound);
        LiveAndOver(slots, n);
      } else {
        LiveBound(slots, n - 1, bound);
      }
    }
  }

  /** The claims a thread has open: granted in [lo, mid), still in flight in [mid, hi). */
  datatype Span = Span(lo: nat, mid: nat, hi: nat)

  function SpanOf(p: Pc): Span {
    match p
    case Recheck(my, want, _) => Span(my, my, my + want)
    case GiveBack(my, want, got) => Span(my, my + got, my + want)
    case TakeHead(my, got) => Span(my, my + got, my + got)
    case _ => Span(0, 0, 0)
  }

  ghost predicate SlotOk(s: State, a: Aux, i: nat)
    requires i < |a.slots|
  {
    match a.slots[i]
    case InFlight(t) => t in s.pc && SpanOf(s.pc[t]).mid <= i < SpanOf(s.pc[t]).hi
    case Granted(t) => t in s.pc && SpanOf(s.pc[t]).lo <= i < SpanOf(s.pc[t]).mid
    case _ => true
  }

  ghost predicate ThreadOk(s: State, slots: seq<Slot>, t: Tid, p: Pc) {
    var w := SpanOf(p);
    && w.lo <= w.mid <= w.hi <= |slots|
    && (forall i :: w.lo <= i < w.mid ==> slots[i] == Granted(t))
    && (forall i :: w.mid <= i < w.hi ==> slots[i] == InFlight(t))
    && match p
       case ReadOver(_, tl) => tl <= s.tail
       case ReadCount(_, tl, oc) => tl <= s.tail && oc <= s.over
       case Claim(_, oc) => oc <= s.over
       case Recheck(my, _, oc) => oc <= Tally(slots, my, IsOver)
       case _ => true
  }

  ghost predicate Counters(s: State, a: Aux) {
    && |a.slots| == s.count
    && Tally(a.slots, s.count, IsOver) == s.over
    && Tally(a.slots, s.count, IsTaken) == s.head
    && |a.owner| == s.head
  }

  ghost predicate LiveOk(s: State, slots: seq<Slot>) {
    forall g :: 0 <= g < |slots| && Is(IsLive, slots[g]) ==> Fits(slots, g, s.tail)
  }

  ghost predicate SlotsOk(s: State, a: Aux) {
    forall i :: 0 <= i < |a.slots| ==> SlotOk(s, a, i)
  }

  ghost predicate ThreadsOk(s: State, a: Aux) {
    forall t :: t in s.pc ==> ThreadOk(s, a.slots, t, s.pc[t])
  }

  ghost predicate Inv(s: State, a: Aux) {
    Counters(s, a) && LiveOk(s, a.slots) && SlotsOk(s, a) && ThreadsOk(s, a)
  }

  // ---- Every event keeps the invariant ----

  ghost function AuxStep(s: State, a: Aux, t: Tid): Aux
    requires t in s.pc && ThreadOk(s, a.slots, t, s.pc[t])
  {
    match s.pc[t]
    case Claim(want, _) => a.(slots := a.slots + seq(want, _ => InFlight(t)))
    case Recheck(my, want, oc) =>
      var got := Granting(s, my, want, oc);
      a.(slots := Paint(a.slots, my, my + got, Granted(t)))
    case GiveBack(my, want, got) => a.(slots := Paint(a.slots, my + got, my + want, Over))
    case TakeHead(my, got) => Aux(Paint(a.slots, my, my + got, Taken), a.owner + seq(got, _ => t))
    case _ => a
  }

  /** The items a consumer finds it may take when it looks at the tail again. */
  function Granting(s: State, my: nat, want: nat, oc: int): (got: nat)
    ensures got <= want
  {
    var available := s.tail - (my - oc);
    if available <= 0 then 0 else Min(available, want)
  }

  lemma QuietThreads(s: State, slots: seq<Slot>, t: Tid, p: Pc, u: Tid)
    requires t in s.pc && u in s.pc && u != t && ThreadOk(s, slots, u, s.pc[u])
    ensures ThreadOk(At(s, t, p), slots, u, s.pc[u])
  {
  }

  lemma QuietSlots(s: State, a: Aux, t: Tid, p: Pc)
    requires SlotsOk(s, a) && t in s.pc
    requires SpanOf(s.pc[t]) == SpanOf(p) == Span(0, 0, 0)
    ensures SlotsOk(At(s, t, p), a)
  {
    forall i | 0 <= i < |a.slots| ensures SlotOk(At(s, t, p), a, i) { assert SlotOk(s, a, i); }
  }

  /** A step that only reads. */
  lemma QuietStep(s: State, a: Aux, t: Tid, p: Pc)
    requires Inv(s, a) && t in s.pc && SpanOf(s.pc[t]) == SpanOf(p) == Span(0, 0, 0)
    requires ThreadOk(s, a.slots, t, p)
    ensures Inv(At(s, t, p), a)
  {
    QuietSlots(s, a, t, p);
    assert At(s, t, p).pc.Keys == s.pc.Keys;
    forall u | u in s.pc && u != t ensures ThreadOk(At(s, t, p), a.slots, u, s.pc[u]) {
      assert ThreadOk(s, a.slots, u, s.pc[u]);
    }
  }

  lemma PublishKeepsInv(s: State, a: Aux, n: nat)
    requires Inv(s, a)
    ensures Inv(Apply(s, Publish(n)), a)
  {
    var s' := Apply(s, Publish(n));
    forall t | t in s.pc ensures ThreadOk(s', a.slots, t, s.pc[t]) { assert ThreadOk(s, a.slots, t, s.pc[t]); }
    forall i | 0 <= i < |a.slots| ensures SlotOk(s', a, i) { assert SlotOk(s, a, i); }
  }

  /** The claims [lo, hi) of thread `t` go from one fate to the next. */
  ghost predicate Repaints(slots: seq<Slot>, slots': seq<Slot>, t: Tid, lo: nat, hi: nat, was: Slot, x: Slot) {
    && lo <= hi <= |slots| && (was == InFlight(t) || was == Granted(t))
    && (x == Granted(t) || x == Over || x == Taken)
    && (forall i :: lo <= i < hi ==> slots[i] == was)
    && slots' == Paint(slots, lo, hi, x)
  }

  lemma RepaintTally(slots: seq<Slot>, slots': seq<Slot>, t: Tid, lo: nat, hi: nat, was: Slot, x: Slot)
    requires Repaints(slots, slots', t, lo, hi, was, x)
    ensures forall n :: 0 <= n <= |slots| ==> Tally(slots, n, IsOver) <= Tally(slots', n, IsOver)
    ensures Tally(slots', |slots|, IsOver) == Tally(slots, |slots|, IsOver) + if x == Over then hi - lo else 0
    ensures Tally(slots', |slots|, IsTaken) == Tally(slots, |slots|, IsTaken) + if x == Taken then hi - lo else 0
  {
    forall n | 0 <= n <= |slots| ensures Tally(slots, n, IsOver) <= Tally(slots', n, IsOver) {
      TallyPaint(slots, n, IsOver, lo, hi, was, x);
    }
    TallyPaint(slots, |slots|, IsOver, lo, hi, was, x);
    TallyPaint(slots, |slots|, IsTaken, lo, hi, was, x);
  }

  lemma RepaintOther(s: State, s': State, slots: seq<Slot>, slots': seq<Slot>, t: Tid, lo: nat, hi: nat, was: Slot, x: Slot, u: Tid, p: Pc)
    requires Repaints(slots, slots', t, lo, hi, was, x) && u != t && s'.tail == s.tail && s.over <= s'.over
    requires p.Recheck? ==> p.my <= |slots| && Tally(slots, p.my, IsOver) <= Tally(slots', p.my, IsOver)
    requires ThreadOk(s, slots, u, p)
    ensures ThreadOk(s', slots', u, p)
  {
    var w := SpanOf(p);
    forall i | w.lo <= i < w.hi ensures slots'[i] == slots[i] {
      assert slots[i] == Granted(u) || slots[i] == InFlight(u);
    }
  }

  lemma RepaintThreads(s: State, a: Aux, s': State, a': Aux, t: Tid, lo: nat, hi: nat, was: Slot, x: Slot)
    requires ThreadsOk(s, a) && t in s.pc && Repaints(a.slots, a'.slots, t, lo, hi, was, x)
    requires s'.pc.Keys == s.pc.Keys && s'.pc == s.pc[t := s'.pc[t]] && s'.tail == s.tail && s.over <= s'.over
    requires ThreadOk(s', a'.slots, t, s'.pc[t])
    ensures ThreadsOk(s', a')
  {
    RepaintTally(a.slots, a'.slots, t, lo, hi, was, x);
    forall u | u in s'.pc ensures ThreadOk(s', a'.slots, u, s'.pc[u]) {
      if u != t { RepaintOther(s, s', a.slots, a'.slots, t, lo, hi, was, x, u, s.pc[u]); }
    }
  }

  lemma RepaintSlots(s: State, a: Aux, s': State, a': Aux, t: Tid, lo: nat, hi: nat, was: Slot, x: Slot)
    requires SlotsOk(s, a) && t in s.pc && Repaints(a.slots, a'.slots, t, lo, hi, was, x)
    requires s'.pc.Keys == s.pc.Keys && s'.pc == s.pc[t := s'.pc[t]]
    requires SpanMoves(SpanOf(s.pc[t]), SpanOf(s'.pc[t]), t, lo, hi, x)
    ensures SlotsOk(s', a')
  {
    forall i | 0 <= i < |a'.slots| ensures SlotOk(s', a', i) { assert SlotOk(s, a, i); }
  }

  lemma ClaimThreads(s: State, a: Aux, t: Tid)
    requires ThreadsOk(s, a) && t in s.pc && s.pc[t].Claim? && |a.slots| == s.count
    requires s.pc[t].oc <= Tally(a.slots, s.count, IsOver)
    ensures ThreadsOk(Step(s, t), AuxStep(s, a, t))
  {
    var s', a' := Step(s, t), AuxStep(s, a, t);
    TallyPrefix(a.slots, a'.slots, s.count, IsOver);
    assert s'.pc.Keys == s.pc.Keys;
    forall u | u in s'.pc ensures ThreadOk(s', a'.slots, u, s'.pc[u]) {
      if u != t {
        assert ThreadOk(s, a.slots, u, s.pc[u]);
        if s.pc[u].Recheck? { TallyPrefix(a.slots, a'.slots, s.pc[u].my, IsOver); }
      }
    }
  }

  lemma ClaimSlots(s: State, a: Aux, t: Tid)
    requires SlotsOk(s, a) && LiveOk(s, a.slots) && t in s.pc && s.pc[t].Claim? && |a.slots| == s.count
    requires ThreadOk(s, a.slots, t, s.pc[t])
    ensures SlotsOk(Step(s, t), AuxStep(s, a, t)) && LiveOk(Step(s, t), AuxStep(s, a, t).slots)
  {
    var s', a' := Step(s, t), AuxStep(s, a, t);
    forall i | 0 <= i < |a'.slots| ensures SlotOk(s', a', i) {
      if i < |a.slots| { assert SlotOk(s, a, i); }
    }
    forall g | 0 <= g < |a'.slots| && Is(IsLive, a'.slots[g]) ensures Fits(a'.slots, g, s'.tail) {
      assert Fits(a.slots, g, s.tail);
      TallyPrefix(a.slots, a'.slots, g + 1, IsOver);
    }
  }

  lemma {:induction false} TallyInFlight(slots: seq<Slot>, m: nat, n: nat, k: Kind)
    requires m <= n <= |slots| && forall i :: m <= i < n ==> slots[i].InFlight?
    ensures Tally(slots, n, k) == Tally(slots, m, k)
  {
    if m < n { TallyInFlight(slots, m, n - 1, k); }
  }

  lemma ClaimKeepsInv(s: State, a: Aux, t: Tid)
    requires Inv(s, a) && t in s.pc && s.pc[t].Claim?
    ensures Inv(Step(s, t), AuxStep(s, a, t))
  {
    assert ThreadOk(s, a.slots, t, s.pc[t]);
    var a' := AuxStep(s, a, t);
    ClaimThreads(s, a, t);
    ClaimSlots(s, a, t);
    TallyPrefix(a.slots, a'.slots, s.count, IsOver);
    TallyPrefix(a.slots, a'.slots, s.count, IsTaken);
    TallyInFlight(a'.slots, s.count, |a'.slots|, IsOver);
    TallyInFlight(a'.slots, s.count, |a'.slots|, IsTaken);
  }

  /** Granting is safe: the consumer read the overcommit before it claimed, so every item given back
      that it counted lies before its own claims. */
  lemma GrantFits(s: State, slots: seq<Slot>, slots': seq<Slot>, t: Tid, my: nat, want: nat, oc: int)
    requires LiveOk(s, slots) && my + want <= |slots| && oc <= Tally(slots, my, IsOver)
    requires forall i :: my <= i < my + want ==> slots[i] == InFlight(t)
    requires slots' == Paint(slots, my, my + Granting(s, my, want, oc), Granted(t))
    ensures LiveOk(s, slots')
  {
    var hi := my + Granting(s, my, want, oc);
    RepaintTally(slots, slots', t, my, hi, InFlight(t), Granted(t));
    forall g | 0 <= g < |slots'| && Is(IsLive, slots'[g]) ensures Fits(slots', g, s.tail) {
      if my <= g < hi {
        TallyGrows(slots, my, g + 1, IsOver);
      } else {
        assert Fits(slots, g, s.tail);
      }
    }
  }

  /** Repainting a claim that is not live, or leaving it live, keeps every claim within the bound. */
  lemma RepaintLive(s: State, slots: seq<Slot>, slots': seq<Slot>, t: Tid, lo: nat, hi: nat, was: Slot, x: Slot)
    requires LiveOk(s, slots) && Repaints(slots, slots', t, lo, hi, was, x)
    requires Is(IsLive, x) ==> Is(IsLive, was)
    ensures LiveOk(s, slots')
  {
    RepaintTally(slots, slots', t, lo, hi, was, x);
    forall g | 0 <= g < |slots'| && Is(IsLive, slots'[g]) ensures Fits(slots', g, s.tail) {
      assert Fits(slots, g, s.tail);
    }
  }

  ghost predicate SpanMoves(v: Span, w: Span, t: Tid, lo: nat, hi: nat, x: Slot) {
    if x == Granted(t) then v.lo == v.mid == lo && w == Span(lo, hi, v.hi)
    else if x == Over then v.mid == lo && v.hi == hi && (if v.lo == v.mid then w == Span(0, 0, 0) else w == Span(v.lo, v.mid, v.mid))
    else v == Span(lo, hi, hi) && w == Span(0, 0, 0)
  }

  /** What a step that repaints its thread's claims does. */
  ghost predicate RepaintStep(s: State, a: Aux, s': State, a': Aux, t: Tid, lo: nat, hi: nat, was: Slot, x: Slot) {
    && t in s.pc && Repaints(a.slots, a'.slots, t, lo, hi, was, x)
    && s'.pc.Keys == s.pc.Keys && s'.pc == s.pc[t := s'.pc[t]] && s'.tail == s.tail && s'.count == s.count
    && s'.over == s.over + (if x == Over then hi - lo else 0)
    && s'.head == s.head + (if x == Taken then hi - lo else 0)
    && |a'.owner| == s'.head
    && ThreadOk(s', a'.slots, t, s'.pc[t]) && SpanMoves(SpanOf(s.pc[t]), SpanOf(s'.pc[t]), t, lo, hi, x)
  }

  lemma RepaintInv(s: State, a: Aux, s': State, a': Aux, t: Tid, lo: nat, hi: nat, was: Slot, x: Slot)
    requires Inv(s, a) && RepaintStep(s, a, s', a', t, lo, hi, was, x) && LiveOk(s', a'.slots)
    ensures Inv(s', a')
  {
    RepaintTally(a.slots, a'.slots, t, lo, hi, was, x);
    RepaintThreads(s, a, s', a', t, lo, hi, was, x);
    RepaintSlots(s, a, s', a', t, lo, hi, was, x);
  }

  lemma ThreadFact(s: State, a: Aux, t: Tid)
    requires Inv(s, a) && t in s.pc
    ensures ThreadOk(s, a.slots, t, s.pc[t]) && |a.owner| == s.head && LiveOk(s, a.slots)
  {
  }

  lemma RecheckThread(s: State, a: Aux, t: Tid)
    requires t in s.pc && s.pc[t].Recheck? && ThreadOk(s, a.slots, t, s.pc[t]) && |a.owner| == s.head
    ensures var Recheck(my, want, oc) := s.pc[t];
      RepaintStep(s, a, Step(s, t), AuxStep(s, a, t), t, my, my + Granting(s, my, want, oc), InFlight(t), Granted(t))
  {
  }

  lemma GiveBackThread(s: State, a: Aux, t: Tid)
    requires t in s.pc && s.pc[t].GiveBack? && ThreadOk(s, a.slots, t, s.pc[t]) && |a.owner| == s.head
    ensures var GiveBack(my, want, got) := s.pc[t];
      RepaintStep(s, a, Step(s, t), AuxStep(s, a, t), t, my + got, my + want, InFlight(t), Over)
  {
  }

  lemma TakeHeadThread(s: State, a: Aux, t: Tid)
    requires t in s.pc && s.pc[t].TakeHead? && ThreadOk(s, a.slots, t, s.pc[t]) && |a.owner| == s.head
    ensures var TakeHead(my, got) := s.pc[t];
      RepaintStep(s, a, Step(s, t), AuxStep(s, a, t), t, my, my + got, Granted(t), Taken)
  {
  }

  /** Giving a claim back, or taking what it granted, leaves every claim within the bound. */
  lemma UngrantedLive(s: State, a: Aux, s': State, a': Aux, t: Tid, lo: nat, hi: nat, was: Slot, x: Slot)
    requires LiveOk(s, a.slots) && RepaintStep(s, a, s', a', t, lo, hi, was, x) && (Is(IsLive, x) ==> Is(IsLive, was))
    ensures LiveOk(s', a'.slots)
  {
    hide ThreadOk, SpanMoves;
    RepaintLive(s, a.slots, a'.slots, t, lo, hi, was, x);
  }

  lemma RecheckLive(s: State, a: Aux, t: Tid)
    requires t in s.pc && s.pc[t].Recheck? && ThreadOk(s, a.slots, t, s.pc[t]) && LiveOk(s, a.slots)
    ensures LiveOk(Step(s, t), AuxStep(s, a, t).slots)
  {
    hide LiveOk;
    var Recheck(my, want, oc) := s.pc[t];
    GrantFits(s, a.slots, AuxStep(s, a, t).slots, t, my, want, oc);
    SameTail(s, Step(s, t), AuxStep(s, a, t).slots);
  }

  lemma SameTail(s: State, s': State, slots: seq<Slot>)
    requires LiveOk(s, slots) && s'.tail == s.tail
    ensures LiveOk(s', slots)
  {
  }

  lemma RecheckKeepsInv(s: State, a: Aux, t: Tid)
    requires Inv(s, a) && t in s.pc && s.pc[t].Recheck?
    ensures ThreadOk(s, a.slots, t, s.pc[t]) && Inv(Step(s, t), AuxStep(s, a, t))
  {
    hide Inv, RepaintStep, LiveOk, ThreadOk, Step, AuxStep, Granting;
    ThreadFact(s, a, t);
    var Recheck(my, want, oc) := s.pc[t];
    RecheckThread(s, a, t);
    RecheckLive(s, a, t);
    RepaintInv(s, a, Step(s, t), AuxStep(s, a, t), t, my, my + Granting(s, my, want, oc), InFlight(t), Granted(t));
  }

  lemma GiveBackKeepsInv(s: State, a: Aux, t: Tid)
    requires Inv(s, a) && t in s.pc && s.pc[t].GiveBack?
    ensures ThreadOk(s, a.slots, t, s.pc[t]) && Inv(Step(s, t), AuxStep(s, a, t))
  {
    hide Inv, RepaintStep, LiveOk, Step, AuxStep;
    ThreadFact(s, a, t);
    var GiveBack(my, want, got) := s.pc[t];
    GiveBackThread(s, a, t);
    UngrantedLive(s, a, Step(s, t), AuxStep(s, a, t), t, my + got, my + want, InFlight(t), Over);
    RepaintInv(s, a, Step(s, t), AuxStep(s, a, t), t, my + got, my + want, InFlight(t), Over);
  }

  lemma TakeHeadKeepsInv(s: State, a: Aux, t: Tid)
    requires Inv(s, a) && t in s.pc && s.pc[t].TakeHead?
    ensures ThreadOk(s, a.slots, t, s.pc[t]) && Inv(Step(s, t), AuxStep(s, a, t))
  {
    hide Inv, RepaintStep, LiveOk, ThreadOk, Step, AuxStep;
    ThreadFact(s, a, t);
    var TakeHead(my, got) := s.pc[t];
    TakeHeadThread(s, a, t);
    UngrantedLive(s, a, Step(s, t), AuxStep(s, a, t), t, my, my + got, Granted(t), Taken);
    RepaintInv(s, a, Step(s, t), AuxStep(s, a, t), t, my, my + got, Granted(t), Taken);
  }

  ghost function AuxApply(s: State, a: Aux, e: Event): Aux
    requires Inv(s, a) && Enabled(s, e)
  {
    if e.Run? then AuxStep(s, a, e.t) else a
  }

  lemma EventKeepsInv(s: State, a: Aux, e: Event)
    requires Inv(s, a) && Enabled(s, e)
    ensures Inv(Apply(s, e), AuxApply(s, a, e))
  {
    match e
    case Publish(n) => PublishKeepsInv(s, a, n);
    case Start(t, max) => QuietStep(s, a, t, ReadTail(max));
    case Run(t) =>
      assert ThreadOk(s, a.slots, t, s.pc[t]);
      if s.pc[t].Claim? { ClaimKeepsInv(s, a, t); }
      else if s.pc[t].Recheck? { RecheckKeepsInv(s, a, t); }
      else if s.pc[t].GiveBack? { GiveBackKeepsInv(s, a, t); }
      else if s.pc[t].TakeHead? { TakeHeadKeepsInv(s, a, t); }
      else { QuietStep(s, a, t, Step(s, t).pc[t]); }
  }

  // ---- All runs ----

  ghost predicate Initial(s: State) {
    && s.tail == 0 && s.count == 0 && s.over == 0 && s.head == 0
    && forall t :: t in s.pc ==> s.pc[t] == Idle
  }

  /** Some interleaving `es` of atomic steps, calls and publications leads from an initial state to `s`. */
  ghost predicate Reaches(es: seq<Event>, s: State) {
    if es == [] then Initial(s)
    else exists r: State :: Leads(r, Last(es), s) && Reaches(Front(es), r)
  }

  ghost predicate Leads(r: State, e: Event, s: State) {
    Enabled(r, e) && s == Apply(r, e)
  }

  lemma {:induction false} ReachedInv(es: seq<Event>, s: State)
    requires Reaches(es, s)
    ensures exists a :: Inv(s, a)
  {
    if es == [] {
      assert Inv(s, Aux([], []));
    } else {
      var e := Last(es);
      var r: State :| Leads(r, e, s) && Reaches(Front(es), r);
      ReachedInv(Front(es), r);
      var a :| Inv(r, a);
      EventKeepsInv(r, a, e);
    }
  }

  lemma HeadBound(s: State, a: Aux)
    requires Inv(s, a)
    ensures s.head <= s.tail
  {
    LiveBound(a.slots, |a.slots|, s.tail);
    LiveAndOver(a.slots, |a.slots|);
  }

  /** The head never passes the tail, and the indices a consumer takes start at the head and were all
      published before it took them. The head only grows, so no index is taken twice. */
  lemma TakesPublishedIndices(es: seq<Event>, s: State, e: Event)
    requires Reaches(es, s) && Enabled(s, e)
    ensures s.head <= Apply(s, e).head <= s.tail
    ensures e.Run? && s.pc[e.t].TakeHead? ==>
      Apply(s, e).pc[e.t] == Holding(s.head, s.pc[e.t].got) && Apply(s, e).head == s.head + s.pc[e.t].got
    ensures !(e.Run? && s.pc[e.t].TakeHead?) ==> Apply(s, e).head == s.head
  {
    ReachedInv(es, s);
    var a :| Inv(s, a);
    EventKeepsInv(s, a, e);
    HeadBound(s, a);
    if e.Run? { HeadBound(Apply(s, e), AuxApply(s, a, e)); }
  }

  /** The states that a run passes through. */
  ghost predicate Passes(es: seq<Event>, ss: seq<State>) {
    |ss| == |es| + 1 && Initial(ss[0]) && forall p :: 0 <= p < |es| ==> Leads(ss[p], es[p], ss[p + 1])
  }

  lemma {:induction false} ReachedPasses(es: seq<Event>, s: State)
    requires Reaches(es, s)
    ensures exists ss :: Passes(es, ss) && Last(ss) == s
  {
    if es == [] {
      assert Passes(es, [s]);
    } else {
      var r: State :| Leads(r, Last(es), s) && Reaches(Front(es), r);
      ReachedPasses(Front(es), r);
      var ss :| Passes(Front(es), ss) && Last(ss) == r;
      assert Passes(es, ss + [s]) && Last(ss + [s]) == s;
    }
  }

  lemma {:induction false} PassedReaches(es: seq<Event>, ss: seq<State>)
    requires Passes(es, ss)
    ensures Reaches(es, Last(ss))
  {
    if es != [] {
      PassesFront(es, ss);
      PassedReaches(Front(es), Front(ss));
      assert Leads(ss[|es| - 1], es[|es| - 1], ss[|es| - 1 + 1]);
      assert Leads(Last(Front(ss)), Last(es), Last(ss));
    }
  }

  lemma PassesFront(es: seq<Event>, ss: seq<State>)
    requires Passes(es, ss) && es != []
    ensures Passes(Front(es), Front(ss))
    ensures Leads(Last(Front(ss)), Last(es), Last(ss))
  {
    hide Leads, Initial;
    forall p | 0 <= p < |Front(es)| ensures Leads(Front(ss)[p], Front(es)[p], Front(ss)[p + 1]) {
      assert Leads(ss[p], es[p], ss[p + 1]);
    }
    assert Leads(ss[|es| - 1], es[|es| - 1], ss[|es| - 1 + 1]);
  }

  /** A consumer takes index `i` from the head. */
  predicate Takes(s: State, e: Event, i: nat) {
    e.Run? && e.t in s.pc && s.pc[e.t].TakeHead? && s.head <= i < s.head + s.pc[e.t].got
  }

  /** An event takes just the indices by which it moves the head on. */
  lemma TakesOn(r: State, e: Event, s: State, i: nat)
    requires Leads(r, e, s)
    ensures r.head <= s.head && (Takes(r, e, i) <==> r.head <= i < s.head)
  {
  }

  /** Over every run: the takings tile the indices below the head. An index is below the head exactly when
      some event of the run took it; only one did; and it was published by then. */
  lemma {:induction false} EveryIndexHasOneOwner(es: seq<Event>, ss: seq<State>, i: nat)
    requires Passes(es, ss)
    ensures i < Last(ss).head <==> exists p :: 0 <= p < |es| && Takes(ss[p], es[p], i)
    ensures forall p :: 0 <= p < |es| && Takes(ss[p], es[p], i) ==> i < ss[p].tail
    ensures forall p, q :: 0 <= p < |es| && 0 <= q < |es| && Takes(ss[p], es[p], i) && Takes(ss[q], es[q], i) ==> p == q
  {
    hide Leads, Takes, Initial, Reaches, Enabled;
    if es == [] {
      assert ss[0].head == 0 by { NothingTaken(ss[0]); }
    } else {
      PassesFront(es, ss);
      EveryIndexHasOneOwner(Front(es), Front(ss), i);
      var n := |es| - 1;
      var r := ss[n];
      TakesOn(r, es[n], Last(ss), i);
      PassedReaches(Front(es), Front(ss));
      if Takes(r, es[n], i) { TakenPublished(Front(es), r, es[n], i); }
      forall p | 0 <= p < |es| && Takes(ss[p], es[p], i) ensures p == n || Takes(Front(ss)[p], Front(es)[p], i) { }
      if i < r.head {
        var p :| 0 <= p < |Front(es)| && Takes(Front(ss)[p], Front(es)[p], i);
        assert Takes(ss[p], es[p], i);
      }
    }
  }

  lemma NothingTaken(s: State)
    requires Initial(s)
    ensures s.head == 0
  {
  }

  lemma TakenPublished(es: seq<Event>, r: State, e: Event, i: nat)
    requires Reaches(es, r) && Takes(r, e, i)
    ensures i < r.tail
  {
    assert Enabled(r, e);
    TakesPublishedIndices(es, r, e);
  }

  lemma {:induction false} SettledTally(slots: seq<Slot>, n: nat)
    requires n <= |slots| && forall i :: 0 <= i < n ==> slots[i] == Taken || slots[i] == Over
    ensures Tally(slots, n, IsTaken) + Tally(slots, n, IsOver) == n
  {
    if n > 0 { SettledTally(slots, n - 1); }
  }

  predicate NoneInFlight(s: State) {
    forall t :: t in s.pc ==> s.pc[t] == Idle || s.pc[t].Holding?
  }

  lemma SettledBalance(s: State, a: Aux)
    requires Inv(s, a) && NoneInFlight(s)
    ensures s.count - s.over == s.head
  {
    forall i | 0 <= i < |a.slots| ensures a.slots[i] == Taken || a.slots[i] == Over { assert SlotOk(s, a, i); }
    SettledTally(a.slots, |a.slots|);
  }

  /** With no consumer between claiming and taking, the claims less the overcommit are the head. */
  lemma QuiescentBalance(es: seq<Event>, s: State)
    requires Reaches(es, s) && NoneInFlight(s)
    ensures s.count - s.over == s.head
  {
    hide Reaches, Inv;
    ReachedInv(es, s);
    var a :| Inv(s, a);
    SettledBalance(s, a);
  }

  /** The producer publishes `n` items, then `t` makes its next access. */
  function Next(s: State, t: Tid, n: nat): State
    requires t in s.pc
  {
    Step(Apply(s, Publish(n)), t)
  }

  /** A consumer that meets no other one in flight gets all it asks for of what it first saw, and
      fails only if it saw an empty queue, however much the producer publishes meanwhile. */
  lemma AloneFailsOnlyOnEmpty(es: seq<Event>, s: State, t: Tid, max: nat, p: nat, q: nat, r: nat, u: nat, v: nat)
    requires Reaches(es, s) && NoneInFlight(s) && t in s.pc && s.pc[t] == Idle
    ensures s.head <= s.tail
    ensures
      var s1 := Step(Apply(s, Start(t, max)), t);
      var s3 := Next(Next(s1, t, p), t, q);
      if s.head == s.tail then s3.pc[t] == Idle
      else
        var s6 := Next(Next(Next(s3, t, r), t, u), t, v);
        s6.pc[t] == Holding(s.head, Min(max, s.tail - s.head)) && s6.over == s.over
  {
    ReachedInv(es, s);
    var a :| Inv(s, a);
    SettledBalance(s, a);
    HeadBound(s, a);
    SoloRun(s, t, max, p, q, r, u, v);
  }

  lemma SoloRun(s: State, t: Tid, max: nat, p: nat, q: nat, r: nat, u: nat, v: nat)
    requires t in s.pc && s.pc[t] == Idle && s.count - s.over == s.head <= s.tail
    ensures
      var s1 := Step(Apply(s, Start(t, max)), t);
      var s3 := Next(Next(s1, t, p), t, q);
      if s.head == s.tail then s3.pc[t] == Idle
      else
        var s6 := Next(Next(Next(s3, t, r), t, u), t, v);
        s6.pc[t] == Holding(s.head, Min(max, s.tail - s.head)) && s6.over == s.over
  {
  }

  // ---- How much a dequeue must take ----

  /** What the second look at the tail granted. */
  function GrantOf(p: Pc): Option<nat> {
    match p
    case GiveBack(_, _, got) => Some(got)
    case TakeHead(_, got) => Some(got)
    case _ => None
  }

  /** The second look grants all that was claimed, or else all that is published beyond the claims before. */
  lemma GrantMaximal(s: State, t: Tid)
    requires t in s.pc && s.pc[t].Recheck?
    ensures var p, g := s.pc[t], GrantOf(Step(s, t).pc[t]);
      g.Some? && g.value <= p.want && (g.value == p.want || p.my + g.value >= s.tail + p.oc)
    ensures var p := Step(s, t).pc[t];
      p.GiveBack? && p.got > 0 ==> Step(Step(s, t), t).pc[t] == TakeHead(p.my, p.got)
  {
  }

  /** The first look claims all that was asked for, or else all that it saw published beyond the claims. */
  lemma ClaimMaximal(s: State, t: Tid)
    requires t in s.pc && s.pc[t].ReadCount?
    ensures var ReadCount(max, tl, oc) := s.pc[t];
      match Step(s, t).pc[t]
      case Claim(want, over) => over == oc && want <= max && (want == max || s.count + want >= tl + oc)
      case Idle => s.count >= tl + oc
      case _ => false
  {
  }

  /** Thread `t` has been in one call from point `q` of the run to point `p`. */
  ghost predicate During(es: seq<Event>, ss: seq<State>, q: nat, p: nat, t: Tid) {
    && 1 <= q <= p < |ss| == |es| + 1 && es[q - 1].Start? && es[q - 1].t == t
    && forall r :: q <= r <= p ==> t in ss[r].pc && ss[r].pc[t] != Idle
  }

  function Asked(es: seq<Event>, q: nat): nat
    requires 1 <= q <= |es| && es[q - 1].Start?
  {
    es[q - 1].max
  }

  ghost predicate Covers(ss: seq<State>, q: nat, p: nat, got: nat, k: nat, r: nat, m: nat) {
    q <= k <= p < |ss| && q <= r <= p && q <= m <= p && ss[k].count + got >= ss[m].tail + ss[r].over
  }

  /** The claims that one count of the call showed, with `got` more, were enough for all items up to a tail of
      the call, over and above an overcommit of the call. */
  ghost predicate Covered(ss: seq<State>, q: nat, p: nat, got: nat) {
    exists k: nat, r: nat, m: nat :: Covers(ss, q, p, got, k, r, m)
  }

  /** `got` is what was asked for, or is fewer because no more was to be had. */
  ghost predicate Enough(ss: seq<State>, q: nat, p: nat, max: nat, got: nat) {
    got <= max && (got < max ==> Covered(ss, q, p, got))
  }

  ghost predicate TailSeen(ss: seq<State>, q: nat, p: nat, tl: nat) {
    exists m: nat :: q <= m <= p < |ss| && ss[m].tail == tl
  }

  ghost predicate OverSeen(ss: seq<State>, q: nat, p: nat, oc: int) {
    exists r: nat :: q <= r <= p < |ss| && ss[r].over == oc
  }

  ghost predicate CountSeen(ss: seq<State>, q: nat, p: nat, my: nat) {
    exists k: nat :: q <= k <= p < |ss| && ss[k].count == my
  }

  /** What the registers of a consumer say of its call. */
  ghost predicate Knows(ss: seq<State>, q: nat, p: nat, max: nat, pc: Pc)
    requires p < |ss|
  {
    match pc
    case ReadTail(n) => n == max
    case ReadOver(n, tl) => n == max && TailSeen(ss, q, p, tl)
    case ReadCount(n, tl, oc) => n == max && TailSeen(ss, q, p, tl) && OverSeen(ss, q, p, oc)
    case Claim(want, oc) => OverSeen(ss, q, p, oc) && Enough(ss, q, p, max, want)
    case Recheck(my, want, oc) => OverSeen(ss, q, p, oc) && CountSeen(ss, q, p, my) && Enough(ss, q, p, max, want)
    case GiveBack(_, _, got) => Enough(ss, q, p, max, got)
    case TakeHead(_, got) => Enough(ss, q, p, max, got)
    case Holding(_, count) => Enough(ss, q, p, max, count)
    case Idle => true
  }

  lemma KnowsOn(ss: seq<State>, q: nat, p: nat, max: nat, pc: Pc)
    requires p + 1 < |ss| && Knows(ss, q, p, max, pc)
    ensures Knows(ss, q, p + 1, max, pc)
  {
    forall got: nat | Covered(ss, q, p, got) ensures Covered(ss, q, p + 1, got) {
      var k: nat, r: nat, m: nat :| Covers(ss, q, p, got, k, r, m);
      assert Covers(ss, q, p + 1, got, k, r, m);
    }
  }

  lemma LooksOn(ss: seq<State>, q: nat, p: nat, max: nat, t: Tid)
    requires q <= p && p + 1 < |ss| && t in ss[p].pc && ss[p + 1] == Step(ss[p], t) && Knows(ss, q, p, max, ss[p].pc[t])
    requires ss[p].pc[t].ReadTail? || ss[p].pc[t].ReadOver? || ss[p].pc[t].ReadCount?
    ensures Knows(ss, q, p + 1, max, ss[p + 1].pc[t])
    ensures ss[p + 1].pc[t] == Idle ==> Enough(ss, q, p + 1, max, 0)
  {
    var s := ss[p];
    if s.pc[t].ReadCount? {
      ClaimMaximal(s, t);
      var ReadCount(_, tl, oc) := s.pc[t];
      var m: nat :| q <= m <= p && ss[m].tail == tl;
      var r: nat :| q <= r <= p && ss[r].over == oc;
      var got := if ss[p + 1].pc[t].Claim? then ss[p + 1].pc[t].want else 0;
      if got < max || got == 0 {
        if s.count + got >= tl + oc { assert Covers(ss, q, p + 1, got, p, r, m); }
      }
    }
  }

  lemma GrantsOn(ss: seq<State>, q: nat, p: nat, max: nat, t: Tid)
    requires q <= p && p + 1 < |ss| && t in ss[p].pc && ss[p + 1] == Step(ss[p], t) && Knows(ss, q, p, max, ss[p].pc[t])
    requires ss[p].pc[t].Recheck?
    ensures Knows(ss, q, p + 1, max, ss[p + 1].pc[t])
  {
    KnowsOn(ss, q, p, max, ss[p].pc[t]);
    GrantMaximal(ss[p], t);
    var Recheck(my, want, oc) := ss[p].pc[t];
    var g := GrantOf(ss[p + 1].pc[t]).value;
    if g < want {
      var k: nat :| q <= k <= p && ss[k].count == my;
      var r: nat :| q <= r <= p && ss[r].over == oc;
      assert Covers(ss, q, p + 1, g, k, r, p);
    }
  }

  lemma CallOn(ss: seq<State>, q: nat, p: nat, max: nat, t: Tid)
    requires q <= p && p + 1 < |ss| && t in ss[p].pc && ss[p + 1] == Step(ss[p], t) && Knows(ss, q, p, max, ss[p].pc[t])
    requires ss[p].pc[t] != Idle
    ensures Knows(ss, q, p + 1, max, ss[p + 1].pc[t])
    ensures ss[p + 1].pc[t] == Idle && !ss[p].pc[t].Holding? ==> Enough(ss, q, p + 1, max, 0)
  {
    hide Enough, Covered, TailSeen, OverSeen, CountSeen;
    KnowsOn(ss, q, p, max, ss[p].pc[t]);
    match ss[p].pc[t]
    case ReadTail(_) => LooksOn(ss, q, p, max, t);
    case ReadOver(_, _) => LooksOn(ss, q, p, max, t);
    case ReadCount(_, _, _) => LooksOn(ss, q, p, max, t);
    case Recheck(_, _, _) => GrantsOn(ss, q, p, max, t);
    case Claim(_, _) => assert CountSeen(ss, q, p + 1, ss[p].count) by { SeenNow(ss, q, p); }
    case _ =>
  }

  lemma SeenNow(ss: seq<State>, q: nat, p: nat)
    requires q <= p && p + 1 < |ss|
    ensures CountSeen(ss, q, p + 1, ss[p].count)
  {
  }

  lemma StartKnows(r: State, e: Event, ss: seq<State>, p: nat)
    requires e.Start? && p < |ss| && Leads(r, e, ss[p])
    ensures e.t in ss[p].pc && ss[p].pc[e.t] != Idle && Knows(ss, p, p, e.max, ss[p].pc[e.t])
  {
  }

  lemma AllIdle(s: State, t: Tid)
    requires Initial(s) && t in s.pc
    ensures s.pc[t] == Idle
  {
  }

  lemma OtherMoves(r: State, e: Event, s: State, t: Tid)
    requires Leads(r, e, s) && t in s.pc && !(e.Start? && e.t == t) && e != Run(t)
    ensures t in r.pc && s.pc[t] == r.pc[t]
  {
  }

  lemma OwnMoves(r: State, e: Event, s: State, t: Tid)
    requires Leads(r, e, s) && e == Run(t)
    ensures t in r.pc && r.pc[t] != Idle && s == Step(r, t)
  {
  }

  lemma {:induction false} KnowsAll(es: seq<Event>, ss: seq<State>, p: nat, t: Tid)
    requires Passes(es, ss) && p <= |es| && t in ss[p].pc && ss[p].pc[t] != Idle
    ensures exists q: nat :: During(es, ss, q, p, t) && Knows(ss, q, p, Asked(es, q), ss[p].pc[t])
  {
    hide Knows, Initial, Step;
    if p == 0 {
      AllIdle(ss[0], t);
    } else {
      var e := es[p - 1];
      assert Leads(ss[p - 1], e, ss[p - 1 + 1]);
      if e.Start? && e.t == t {
        assert During(es, ss, p, p, t) && Knows(ss, p, p, Asked(es, p), ss[p].pc[t]) by { StartKnows(ss[p - 1], e, ss, p); }
      } else {
        if e == Run(t) { OwnMoves(ss[p - 1], e, ss[p], t); } else { OtherMoves(ss[p - 1], e, ss[p], t); }
        KnowsAll(es, ss, p - 1, t);
        var q: nat :| During(es, ss, q, p - 1, t) && Knows(ss, q, p - 1, Asked(es, q), ss[p - 1].pc[t]);
        if e == Run(t) { CallOn(ss, q, p - 1, Asked(es, q), t); } else { KnowsOn(ss, q, p - 1, Asked(es, q), ss[p].pc[t]); }
        assert During(es, ss, q, p, t);
      }
    }
  }

  /** In every run, a dequeue that takes fewer items than it was asked for does so only because, by what it read
      during its call, the claims before its own and what it takes cover all the items up to the tail. */
  lemma FewerOnlyIfCovered(es: seq<Event>, ss: seq<State>, p: nat, t: Tid)
    requires Passes(es, ss) && p <= |es| && t in ss[p].pc && ss[p].pc[t].Holding?
    ensures exists q: nat :: During(es, ss, q, p, t) && Enough(ss, q, p, Asked(es, q), ss[p].pc[t].count)
  {
    hide Leads, Initial, Enough;
    KnowsAll(es, ss, p, t);
  }

  /** And so for one that takes none. */
  lemma NoneOnlyIfCovered(es: seq<Event>, ss: seq<State>, p: nat, t: Tid)
    requires Passes(es, ss) && p < |es| && t in ss[p].pc && ss[p].pc[t] != Idle && !ss[p].pc[t].Holding?
    requires es[p] == Run(t) && t in ss[p + 1].pc && ss[p + 1].pc[t] == Idle
    ensures exists q: nat :: During(es, ss, q, p, t) && Enough(ss, q, p + 1, Asked(es, q), 0)
  {
    hide Initial, Enough, Knows, Step;
    assert Leads(ss[p], es[p], ss[p + 1]);
    KnowsAll(es, ss, p, t);
    var q: nat :| During(es, ss, q, p, t) && Knows(ss, q, p, Asked(es, q), ss[p].pc[t]);
    CallOn(ss, q, p, Asked(es, q), t);
  }

  /** Thread `t` makes `k` accesses in a row. */
  function Runs(s: State, t: Tid, k: nat): (r: State)
    requires t in s.pc
    ensures r.pc.Keys == s.pc.Keys
  {
    if k == 0 then s else Step(Runs(s, t, k - 1), t)
  }

  /** Of five items, two consumers that both ask for four and have both seen none claimed take four and one. */
  lemma TwoShareFive(s: State)
    requires Initial(s) && 0 in s.pc && 1 in s.pc
    ensures
      var s1 := Apply(Apply(Apply(s, Publish(5)), Start(0, 4)), Start(1, 4));
      var s2 := Runs(Runs(Runs(Runs(s1, 0, 3), 1, 3), 0, 3), 1, 4);
      s2.pc[0] == Holding(0, 4) && s2.pc[1] == Holding(4, 1) && s2.head == s2.tail == 5
  {
    var s1 := Apply(Apply(Apply(s, Publish(5)), Start(0, 4)), Start(1, 4));
    hide Runs, Step;
    ClaimsFour(s1, 0);
    var a := Runs(s1, 0, 3);
    ClaimsFour(a, 1);
    var b := Runs(a, 1, 3);
    TakesFour(b, 0);
    TakesOne(Runs(b, 0, 3), 1);
  }

  lemma RunsEach(s: State, t: Tid)
    requires t in s.pc
    ensures Runs(s, t, 3) == Step(Step(Step(s, t), t), t) && Runs(s, t, 4) == Step(Runs(s, t, 3), t)
  {
    assert Runs(s, t, 0) == s && Runs(s, t, 1) == Step(s, t) && Runs(s, t, 2) == Step(Runs(s, t, 1), t);
  }

  lemma ClaimsFour(s: State, t: Tid)
    requires t in s.pc && s.pc[t] == ReadTail(4) && s.tail == 5 && s.count == s.over == 0
    ensures Runs(s, t, 3) == s.(pc := s.pc[t := Claim(4, 0)])
  {
    hide Runs;
    RunsEach(s, t);
  }

  lemma TakesFour(s: State, t: Tid)
    requires t in s.pc && s.pc[t] == Claim(4, 0) && s.tail == 5 && s.count == s.over == s.head == 0
    ensures Runs(s, t, 3) == s.(count := 4, head := 4, pc := s.pc[t := Holding(0, 4)])
  {
    hide Runs;
    RunsEach(s, t);
  }

  lemma TakesOne(s: State, t: Tid)
    requires t in s.pc && s.pc[t] == Claim(4, 0) && s.tail == 5 && s.count == s.head == 4 && s.over == 0
    ensures Runs(s, t, 4) == s.(count := 8, over := 3, head := 5, pc := s.pc[t := Holding(4, 1)])
  {
    hide Runs;
    RunsEach(s, t);
  }

  /** The accesses that a dequeue has at most to go. */
  function ToGo(p: Pc): nat {
    match p
    case Idle => 0
    case Holding(_, _) => 1
    case TakeHead(_, _) => 2
    case GiveBack(_, _, _) => 3
    case Recheck(_, _, _) => 4
    case Claim(_, _) => 5
    case ReadCount(_, _, _) => 6
    case ReadOver(_, _) => 7
    case ReadTail(_) => 8
  }

  /** Every access of a dequeue brings it nearer to its end, whatever others do. */
  lemma Advances(s: State, t: Tid)
    requires t in s.pc && s.pc[t] != Idle
    ensures ToGo(Step(s, t).pc[t]) < ToGo(s.pc[t])
    ensures forall u :: u in s.pc && u != t ==> u in Step(s, t).pc && Step(s, t).pc[u] == s.pc[u]
  {
  }

  // ---- The counters in their own form ----

  /** The four atomic counters of a sub-queue, and its consumers' registers. */
  class SharedCounters {
    var tailIndex: nat
    var dequeueOptimisticCount: nat
    var dequeueOvercommit: int
    var headIndex: nat
    var registers: map<Tid, Pc>

    function Snapshot(): State
      reads this
    {
      State(tailIndex, dequeueOptimisticCount, dequeueOvercommit, headIndex, registers)
    }

    constructor (threads: set<Tid>)
      ensures Initial(Snapshot()) && registers.Keys == threads
    {
      tailIndex, dequeueOptimisticCount, dequeueOvercommit, headIndex := 0, 0, 0, 0;
      registers := map t | t in threads :: Idle;
      new;
      assert registers.Keys == threads;
    }

    /** One atomic access of a dequeue. */
    method Advance(t: Tid)
      requires t in registers
      modifies this
      ensures Snapshot() == Step(old(Snapshot()), t)
    {
      match registers[t]
      case ReadTail(max) =>
        registers := registers[t := ReadOver(max, tailIndex)];
      case ReadOver(max, tl) =>
        registers := registers[t := ReadCount(max, tl, dequeueOvercommit)];
      case ReadCount(max, tl, oc) =>
        var desired := tl - (dequeueOptimisticCount - oc);
        if desired > 0 {
          desired := if desired < max then desired else max;
          registers := registers[t := Claim(desired, oc)];
        } else {
          registers := registers[t := Idle];
        }
      case Claim(want, oc) =>
        registers := registers[t := Recheck(dequeueOptimisticCount, want, oc)];
        dequeueOptimisticCount := dequeueOptimisticCount + want;
      case Recheck(my, want, oc) =>
        var actual := tailIndex - (my - oc);
        if actual > 0 {
          actual := if want < actual then want else actual;
          registers := registers[t := if actual < want then GiveBack(my, want, actual) else TakeHead(my, actual)];
        } else {
          registers := registers[t := GiveBack(my, want, 0)];
        }
      case GiveBack(my, want, got) =>
        dequeueOvercommit := dequeueOvercommit + (want - got);
        registers := registers[t := if got > 0 then TakeHead(my, got) else Idle];
      case TakeHead(my, got) =>
        registers := registers[t := Holding(headIndex, got)];
        headIndex := headIndex + got;
      case Holding(_, _) =>
        registers := registers[t := Idle];
      case Idle =>
    }

    method Publish(n: nat)
      modifies this`tailIndex
      ensures Snapshot() == Apply(old(Snapshot()), Event.Publish(n))
    {
      tailIndex := tailIndex + n;
    }
  }
}
