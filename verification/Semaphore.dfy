/**
 The counting semaphore of one producer and one consumer. Its count goes to -1 while the consumer
 waits, or is about to wait, for a token of the kernel's semaphore; a wait that is given up must undo
 that, unless it finds that it has been signalled after all.
 */
module Semaphore {
  import opened Wrappers

  datatype Producer =
    | Resting
    | Adding(n: int)     // about to add n to the count
    | Posting            // about to post a token

  datatype Consumer =
    | Idle
    | Testing(wait: bool)
    | Taking
    | Spinning(left: nat)
    | Joining             // about to count itself as waiting
    | Sleeping
    | Leaving
    | Rejoining
    | Retrying
    | Done(ok: bool)

  datatype State = State(count: int, tokens: nat, prod: Producer, cons: Consumer)

  const SPINS: nat := 1024

  /** `GiveUp` is a wait that times out, or fails, or that was to take no time. */
  datatype Event =
    | Signal(n: int)
    | Produce
    | TryWait
    | Wait
    | Consume
    | GiveUp
    | Return

  predicate Enabled(s: State, e: Event) {
    match e
    case Signal(n) => s.prod == Resting && n >= 0
    case Produce => s.prod != Resting
    case TryWait => s.cons == Idle
    case Wait => s.cons == Idle
    case Consume => s.cons != Idle && !s.cons.Done? && (s.cons == Sleeping ==> s.tokens > 0)
    case GiveUp => s.cons == Sleeping
    case Return => s.cons.Done?
  }

  function ProducerStep(s: State): State
    requires s.prod != Resting
  {
    match s.prod
    case Adding(n) => s.(count := s.count + n, prod := if s.count < 0 then Posting else Resting)
    case Posting => s.(tokens := s.tokens + 1, prod := Resting)
  }

  function ConsumerStep(s: State): State
    requires Enabled(s, Consume)
  {
    match s.cons
    case Testing(wait) => s.(cons := if s.count > 0 then Taking else if wait then Spinning(SPINS) else Done(false))
    case Taking => s.(count := s.count - 1, cons := Done(true))
    case Spinning(left) =>
      s.(cons := if left == 0 then Joining else if s.count > 0 then Taking else Spinning(left - 1))
    case Joining => s.(count := s.count - 1, cons := if s.count > 0 then Done(true) else Sleeping)
    case Sleeping => s.(tokens := s.tokens - 1, cons := Done(true))
    case Leaving => s.(count := s.count + 1, cons := if s.count < 0 then Done(false) else Rejoining)
    case Rejoining => s.(count := s.count - 1, cons := if s.count > 0 then Retrying else Leaving)
    case Retrying => if s.tokens > 0 then s.(tokens := s.tokens - 1, cons := Done(true)) else s.(cons := Leaving)
  }

  function Apply(s: State, e: Event): State
    requires Enabled(s, e)
  {
    match e
    case Signal(n) => s.(prod := Adding(n))
    case Produce => ProducerStep(s)
    case TryWait => s.(cons := Testing(false))
    case Wait => s.(cons := Testing(true))
    case Consume => ConsumerStep(s)
    case GiveUp => s.(cons := Leaving)
    case Return => s.(cons := Idle)
  }

  // ---- The invariant ----

  /** What has been signalled and acquired since the start, at which the count was `initial`. */
  datatype Aux = Aux(initial: nat, signalled: int, acquired: nat)

  function Acquires(s: State, e: Event): bool {
    && Enabled(s, e) && e.Consume?
    && (s.cons == Taking || s.cons == Sleeping || (s.cons == Joining && s.count > 0) || (s.cons == Retrying && s.tokens > 0))
  }

  function AuxApply(s: State, a: Aux, e: Event): Aux {
    a.(signalled := a.signalled + if e.Produce? && s.prod.Adding? then s.prod.n else 0,
       acquired := a.acquired + if Acquires(s, e) then 1 else 0)
  }

  function Balance(a: Aux): int {
    a.initial + a.signalled - a.acquired
  }

  /** The consumer counts itself as waiting. */
  predicate Counted(c: Consumer) {
    c == Sleeping || c == Leaving || c == Retrying
  }

  /** A token is due to the consumer: it is posted, or the producer is about to post it. */
  predicate Owed(s: State) {
    s.cons == Rejoining || (Counted(s.cons) && s.count >= 0)
  }

  predicate Inv(s: State, a: Aux) {
    && s.count == Balance(a) - (if Counted(s.cons) then 1 else 0)
    && Balance(a) >= 0
    && s.tokens + (if s.prod == Posting then 1 else 0) == (if Owed(s) then 1 else 0)
    && (s.cons == Taking || s.cons == Rejoining ==> s.count > 0)
  }

  /** The calls that the rest of the program makes. */
  predicate Allowed(s: State, e: Event) {
    Enabled(s, e) && (e.Signal? ==> e.n >= 1) && (s.prod.Adding? ==> s.prod.n >= 1)
  }

  lemma EventKeepsInv(s: State, a: Aux, e: Event)
    requires Inv(s, a) && Allowed(s, e)
    ensures Inv(Apply(s, e), AuxApply(s, a, e))
  {
  }

  /** The assertion in `signal` allows a count of 0, but that breaks the balance: adding `n` keeps the
      invariant exactly when `n` is positive or nobody waits. */
  lemma AddingKeepsExactly(s: State, a: Aux, n: nat)
    requires Inv(s, a) && s.prod == Adding(n)
    ensures Inv(Apply(s, Produce), AuxApply(s, a, Produce)) <==> n >= 1 || s.count >= 0
  {
  }

  // ---- Runs ----

  ghost predicate Start(s: State, a: Aux) {
    s == State(a.initial, 0, Resting, Idle) && a == Aux(a.initial, 0, 0)
  }

  ghost predicate Leads(r: State, b: Aux, e: Event, s: State, a: Aux) {
    Allowed(r, e) && Apply(r, e) == s && AuxApply(r, b, e) == a
  }

  ghost predicate Traces(es: seq<Event>, s: State, a: Aux) {
    if es == [] then Start(s, a)
    else exists r: State, b: Aux :: Leads(r, b, Last(es), s, a) && Traces(Front(es), r, b)
  }

  lemma {:induction false} TracedInv(es: seq<Event>, s: State, a: Aux)
    requires Traces(es, s, a)
    ensures Inv(s, a)
  {
    if es != [] {
      var r: State, b: Aux :| Leads(r, b, Last(es), s, a) && Traces(Front(es), r, b);
      TracedInv(Front(es), r, b);
      EventKeepsInv(r, b, Last(es));
    }
  }

  /** In every run, with timeouts at any moment: the count never falls below -1, no more is acquired
      than was signalled, and at most one token is outstanding. */
  lemma CountBounds(es: seq<Event>, s: State, a: Aux)
    requires Traces(es, s, a)
    ensures s.count >= -1 && a.acquired <= a.initial + a.signalled
    ensures s.tokens + (if s.prod == Posting then 1 else 0) <= 1
    ensures s.prod == Posting ==> s.tokens == 0
  {
    TracedInv(es, s, a);
  }

  /** When both sides are idle, the count is what was signalled and not acquired, and no token is left. */
  lemma QuiescentBalance(es: seq<Event>, s: State, a: Aux)
    requires Traces(es, s, a) && s.prod == Resting && (s.cons == Idle || s.cons.Done?)
    ensures s.count == a.initial + a.signalled - a.acquired && s.tokens == 0
  {
    TracedInv(es, s, a);
  }

  /** A `tryWait` or a wait fails only at a balance of 0, which it leaves as it is; one that is owed a token is
      never given up; and it succeeds exactly when it acquires. */
  lemma GivenUpOnlyAtZero(es: seq<Event>, s: State, a: Aux, e: Event)
    requires Traces(es, s, a) && Allowed(s, e)
    ensures s.cons != Done(false) && Apply(s, e).cons == Done(false) ==> Balance(a) == 0 == Balance(AuxApply(s, a, e))
    ensures Owed(s) ==> Apply(s, e).cons != Done(false)
    ensures Acquires(s, e) <==> !s.cons.Done? && Apply(s, e).cons == Done(true)
  {
    TracedInv(es, s, a);
  }

  /** A `tryWait` at a balance of more than 0 succeeds in two accesses, whatever the producer does between
      them. */
  lemma TryWaitTakes(es: seq<Event>, s: State, a: Aux, e: Event)
    requires Traces(es, s, a) && s.cons == Testing(false) && Balance(a) > 0
    requires e.Signal? || e.Produce?
    ensures Enabled(s, Consume)
    ensures var s1 := Apply(s, Consume);
      Enabled(s1, Consume) && Apply(s1, Consume).cons == Done(true)
      && (Allowed(s1, e) ==> Enabled(Apply(s1, e), Consume) && Apply(Apply(s1, e), Consume).cons == Done(true))
  {
    TracedInv(es, s, a);
  }

  /** The last call of the consumer, or the giving up of it. */
  function LastCall(es: seq<Event>): Option<Event> {
    if es == [] then None
    else if Last(es).TryWait? || Last(es).Wait? || Last(es).GiveUp? then Some(Last(es))
    else LastCall(Front(es))
  }

  predicate CallOk(c: Consumer, last: Option<Event>) {
    match c
    case Idle => true
    case Testing(wait) => last == Some(if wait then Wait else TryWait)
    case Spinning(_) => last == Some(Wait)
    case Joining => last == Some(Wait)
    case Sleeping => last == Some(Wait)
    case Leaving => last == Some(GiveUp)
    case Rejoining => last == Some(GiveUp)
    case Retrying => last == Some(GiveUp)
    case Taking => true
    case Done(ok) => ok || last == Some(TryWait) || last == Some(GiveUp)
  }

  /** In every run, only a `tryWait` comes back with nothing by itself; a wait does so only once it has timed out. */
  lemma {:induction false} WaitsUntilGivenUp(es: seq<Event>, s: State, a: Aux)
    requires Traces(es, s, a)
    ensures CallOk(s.cons, LastCall(es))
    ensures s.cons == Done(false) ==> LastCall(es) == Some(TryWait) || LastCall(es) == Some(GiveUp)
  {
    if es != [] {
      var r: State, b: Aux :| Leads(r, b, Last(es), s, a) && Traces(Front(es), r, b);
      WaitsUntilGivenUp(Front(es), r, b);
    }
  }

  /** Without the condition on `signal`: a consumer that waits while 0 is signalled is sent a token, and
      so acquires what nobody has signalled. */
  lemma SignalNothing(s: State, a: Aux)
    requires Inv(s, a) && s.prod == Adding(0) && s.cons == Sleeping && s.count < 0
    ensures var s', a' := ProducerStep(s), AuxApply(s, a, Produce);
      && s'.prod == Posting && s'.cons == Sleeping && Balance(a') == Balance(a) == 0
      && var s'' := ProducerStep(s'); Enabled(s'', Consume) && Acquires(s'', Consume)
  {
  }

  // ---- The semaphore in its own form ----

  class LightweightSemaphore {
    var m_count: int
    var m_sema: nat
    var producer: Producer
    var consumer: Consumer

    function Snapshot(): State
      reads this
    {
      State(m_count, m_sema, producer, consumer)
    }

    constructor (initialCount: nat)
      ensures Snapshot() == State(initialCount, 0, Resting, Idle)
    {
      m_count, m_sema, producer, consumer := initialCount, 0, Resting, Idle;
    }

    method FetchAdd(n: int) returns (previous: int)
      modifies this`m_count
      ensures previous == old(m_count) && m_count == old(m_count) + n
    {
      previous := m_count;
      m_count := m_count + n;
    }

    method AdvanceProducer()
      requires producer != Resting
      modifies this
      ensures Snapshot() == ProducerStep(old(Snapshot()))
    {
      match producer
      case Adding(n) =>
        var oldCount := FetchAdd(n);
        producer := if oldCount < 0 then Posting else Resting;
      case Posting =>
        m_sema := m_sema + 1;
        producer := Resting;
    }

    method AdvanceConsumer()
      requires Enabled(Snapshot(), Consume)
      modifies this
      ensures Snapshot() == ConsumerStep(old(Snapshot()))
    {
      match consumer
      case Testing(wait) =>
        consumer := if m_count > 0 then Taking else if wait then Spinning(SPINS) else Done(false);
      case Taking =>
        var _ := FetchAdd(-1);
        consumer := Done(true);
      case Spinning(left) =>
        consumer := if left == 0 then Joining else if m_count > 0 then Taking else Spinning(left - 1);
      case Joining =>
        var oldCount := FetchAdd(-1);
        consumer := if oldCount > 0 then Done(true) else Sleeping;
      case Sleeping =>
        m_sema := m_sema - 1;
        consumer := Done(true);
      case Leaving =>
        var oldCount := FetchAdd(1);
        consumer := if oldCount < 0 then Done(false) else Rejoining;
      case Rejoining =>
        var oldCount := FetchAdd(-1);
        consumer := if oldCount > 0 then Retrying else Leaving;
      case Retrying =>
        if m_sema > 0 {
          m_sema := m_sema - 1;
          consumer := Done(true);
        } else {
          consumer := Leaving;
        }
    }
  }
}
