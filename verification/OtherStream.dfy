/** A run in which a read that names another stream than the append's finds nothing, although every server
    of the append's shard has replied. */
module OtherStream {
  import opened Wrappers
  import opened SharedLog
  import opened Reads
  import SharedLogTheorems
  import ShardTable

  /** Two shards of one server each. */
  const TWO := Config(1, [{0}, {1}], true)

  function First(): Req { Req(0, 0, 5, 42) }

  function Second(): Req { Req(1, 0, 6, 43) }

  lemma Extends(es: seq<REvent>, s: RState, a: RAux, e: REvent, s': RState, a': RAux)
    requires RTraces(TWO, es, s, a) && REnabled(TWO, s, e) && RApply(TWO, s, e) == s' && RAuxApply(TWO, s, a, e) == a'
    ensures RTraces(TWO, es + [e], s', a')
  {
    hide RApply, RAuxApply, REnabled;
    assert Front(es + [e]) == es && Last(es + [e]) == e;
    assert RLeads(TWO, s, a, Last(es + [e]), s', a');
  }

  /** One more event of the log. */
  lemma Logs(es: seq<REvent>, s: RState, a: RAux, e: Event, log: State, alog: Aux)
    requires RTraces(TWO, es, s, a) && Enabled(TWO, s.log, e) && Apply(TWO, s.log, e) == log && AuxApply(TWO, s.log, a.log, e) == alog
    ensures RTraces(TWO, es + [Log(e)], s.(log := log), a.(log := alog))
  {
    hide Apply, AuxApply, Enabled;
    Extends(es, s, a, Log(e), s.(log := log), a.(log := alog));
  }

  lemma Sends(d: nat, i: nat, r: Req)
    ensures Multicast({d}, i, r) == multiset{Store(d, i, r)}
  {
    assert (set s | s in {d} :: Store(s, i, r)) == {Store(d, i, r)};
  }

  const ONE := ShardTable.Table(map[5 := 0], 1)
  const BOTH := ShardTable.Table(map[5 := 0, 6 := 1], 0)
  const HELD: map<(Server, nat), Entry> := map[(0, 1) := 42]

  /** Clients that wait for the appends in `w`. */
  function Clients(w: Option<Req>, w': Option<Req>): map<Client, ClientState> {
    map[0 := ClientState(0, w), 1 := ClientState(0, w')]
  }

  /** The log after the first `k` events of the run. */
  function LogAt(k: nat): State {
    var r, c := First(), Clients(Some(First()), None);
    if k == 0 then State(multiset{}, multiset{}, 0, ShardTable.EMPTY, map[], [Free], map[], Clients(None, None))
    else if k == 1 then State(multiset{AppendReq(r)}, multiset{}, 0, ShardTable.EMPTY, map[], [Free], map[], c)
    else if k == 2 then State(multiset{Store(0, 1, r)}, multiset{}, 1, ONE, map[], [Free], map[], c)
    else if k == 3 then State(multiset{}, multiset{Ack(0, 1, r)}, 1, ONE, map[], [Free], HELD, c)
    else if k == 4 then State(multiset{Ack(0, 1, r)}, multiset{}, 1, ONE, map[], [Free], HELD, c)
    else if k == 5 then State(multiset{}, multiset{}, 1, ONE, map[], [Got(0, 1, r)], HELD, c)
    else if k == 6 then State(multiset{}, multiset{}, 1, ONE, map[], [Missed(1, r)], HELD, c)
    else if k == 7 then State(multiset{}, multiset{}, 1, ONE, map[1 := 1], [Answering(1, r)], HELD, c)
    else if k == 8 then
      State(multiset{AppendReq(Second())}, multiset{}, 1, ONE, map[1 := 1], [Answering(1, r)], HELD, Clients(Some(r), Some(Second())))
    else
      State(multiset{Store(1, 2, Second())}, multiset{}, 2, BOTH, map[1 := 1], [Answering(1, r)], HELD, Clients(Some(r), Some(Second())))
  }

  function AuxAt(k: nat): Aux {
    var r, q := First(), Second();
    if k == 0 then Aux([], [], {}, {}, map[])
    else if k == 1 then Aux([], [], {}, {r}, map[])
    else if k < 5 then Aux([r], [0], {}, {r}, map[])
    else if k < 8 then Aux([r], [0], {(0, 1)}, {r}, map[])
    else if k == 8 then Aux([r], [0], {(0, 1)}, {r, q}, map[])
    else Aux([r, q], [0, 1], {(0, 1)}, {r, q}, map[])
  }

  function EventAt(k: nat): Event
    requires k < 9
  {
    var r := First();
    if k == 0 then Append(0, 5, 42)
    else if k == 1 then Sequence(r)
    else if k == 2 then StoreEntry(0, 1, r)
    else if k == 3 then SendAck(Ack(0, 1, r))
    else if k == 4 then Take(0, 0, 1, r)
    else if k == 5 || k == 6 then Handle(0)
    else if k == 7 then Append(1, 6, 43)
    else Sequence(Second())
  }

  ghost predicate StepAt(k: nat)
    requires k < 9
  {
    && Enabled(TWO, LogAt(k), EventAt(k))
    && Apply(TWO, LogAt(k), EventAt(k)) == LogAt(k + 1)
    && AuxApply(TWO, LogAt(k), AuxAt(k), EventAt(k)) == AuxAt(k + 1)
  }

  lemma Numbered()
    ensures StepAt(0) && StepAt(1)
  {
    hide ShardTable.Assign, Multicast;
    FirstAssigned();
    Sends(0, 1, First());
  }

  lemma FirstAssigned()
    ensures ShardTable.Assign(ShardTable.EMPTY, 5, 2) == (0, ONE)
  {
    assert ShardTable.Residue(1, 2) == 1;
  }

  lemma Kept()
    ensures StepAt(2) && StepAt(3)
  {
  }

  lemma Taken()
    ensures StepAt(4)
  {
  }

  lemma CountedIt()
    ensures StepAt(5) && StepAt(6)
  {
  }

  lemma SecondAsked()
    ensures StepAt(7)
  {
  }

  lemma SecondNumbered()
    ensures StepAt(8)
  {
    hide ShardTable.Assign, Multicast;
    SecondAssigned();
    Sends(1, 2, Second());
  }

  lemma SecondAssigned()
    ensures ShardTable.Assign(ONE, 6, 2) == (1, BOTH)
  {
    assert ShardTable.Residue(2, 2) == 0;
  }

  function Events(k: nat): seq<REvent>
    requires k <= 9
  {
    seq(k, i requires 0 <= i < k => Log(EventAt(i)))
  }

  /** The state after the first `k` events, and after the reading has come so far. */
  function At(k: nat, rnet: multiset<RPacket>, reader: Reader): RState {
    RState(LogAt(k), rnet, map[0 := reader])
  }

  lemma {:induction false} Appended(k: nat)
    requires k <= 9
    ensures RTraces(TWO, Events(k), At(k, multiset{}, Reader(0, None)), RAux(AuxAt(k), map[], map[]))
  {
    hide StepAt, RTraces, Enabled, Apply, AuxApply;
    if k == 0 {
      Begins();
    } else {
      Appended(k - 1);
      Numbered(); Kept(); Taken(); CountedIt(); SecondAsked(); SecondNumbered();
      assert StepAt(k - 1);
      Goes(k - 1);
      assert Events(k) == Events(k - 1) + [Log(EventAt(k - 1))];
    }
  }

  lemma Begins()
    ensures RTraces(TWO, [], At(0, multiset{}, Reader(0, None)), RAux(AuxAt(0), map[], map[])) && Events(0) == []
  {
  }

  lemma Goes(k: nat)
    requires k < 9 && StepAt(k) && RTraces(TWO, Events(k), At(k, multiset{}, Reader(0, None)), RAux(AuxAt(k), map[], map[]))
    ensures RTraces(TWO, Events(k) + [Log(EventAt(k))], At(k + 1, multiset{}, Reader(0, None)), RAux(AuxAt(k + 1), map[], map[]))
  {
    hide RTraces, Enabled, Apply, AuxApply, LogAt, AuxAt, EventAt;
    Logs(Events(k), At(k, multiset{}, Reader(0, None)), RAux(AuxAt(k), map[], map[]), EventAt(k), LogAt(k + 1), AuxAt(k + 1));
  }

  // ---- The read ----

  function Asks(): RPacket { ReadReq(0, 0, 1, 6) }

  function Sent(): RPacket { Forward(1, 0, 0, 1, 6) }

  function Answer(): RPacket { Reply(1, 0, 0, 1, 6, None) }

  function Response(): RPacket { ReadResp(1, 0, 0, 1, 6, None) }

  function Before(p: RPacket): RState { At(9, multiset{p}, Reader(0, Some(1))) }

  function Reading(): (es: seq<REvent>)
    ensures |es| == 5
  {
    [Read(0, 1, 6), Route(Asks()), Serve(Sent()), Relay(Answer()), Deliver(Response())]
  }

  function Found(): RAux { RAux(AuxAt(9), map[(0, 0) := Result(1, 1, 6, None)], map[]) }

  lemma AskedAndRouted()
    ensures var s, a := At(9, multiset{}, Reader(0, None)), RAux(AuxAt(9), map[], map[]);
      REnabled(TWO, s, Reading()[0]) && RApply(TWO, s, Reading()[0]) == Before(Asks()) && RAuxApply(TWO, s, a, Reading()[0]) == a
    ensures var s, a := Before(Asks()), RAux(AuxAt(9), map[], map[]);
      REnabled(TWO, s, Reading()[1]) && RApply(TWO, s, Reading()[1]) == Before(Sent()) && RAuxApply(TWO, s, a, Reading()[1]) == a
  {
    assert (set v | v in {1} :: Forward(v, 0, 0, 1, 6)) == {Sent()};
    assert Forwards({1}, 0, 0, 1, 6) == multiset{Sent()};
  }

  lemma ServedAndRelayed()
    ensures var s, a := Before(Sent()), RAux(AuxAt(9), map[], map[]);
      REnabled(TWO, s, Reading()[2]) && RApply(TWO, s, Reading()[2]) == Before(Answer()) && RAuxApply(TWO, s, a, Reading()[2]) == a
    ensures var s, a := Before(Answer()), RAux(AuxAt(9), map[], map[]);
      REnabled(TWO, s, Reading()[3]) && RApply(TWO, s, Reading()[3]) == Before(Response()) && RAuxApply(TWO, s, a, Reading()[3]) == a
  {
  }

  lemma Delivered()
    ensures var s, a := Before(Response()), RAux(AuxAt(9), map[], map[]);
      && REnabled(TWO, s, Reading()[4])
      && RApply(TWO, s, Reading()[4]) == At(9, multiset{}, Reader(1, None))
      && RAuxApply(TWO, s, a, Reading()[4]) == Found()
  {
  }

  /** A read of the first append's number that names the second's stream is answered by the second's shard,
      which has nothing; yet the first's shard has its entry, and all of it has replied. */
  lemma OtherStreamFindsNothing() returns (es: seq<REvent>, s: RState, a: RAux)
    ensures RTraces(TWO, es, s, a) && Disjoint(TWO) && AllReply(TWO, a.log, 1)
    ensures (0, 0) in a.results && a.results[(0, 0)] == Result(1, 1, 6, None)
    ensures (0, 1) in s.log.stor && s.log.stor[(0, 1)] == 42 && |a.log.reqs| > 0 && a.log.reqs[0] == First()
  {
    hide RTraces, REnabled, RApply, RAuxApply, LogAt, AuxAt, Reading, Asks, Sent, Answer, Response;
    Appended(9);
    AskedAndRouted();
    ServedAndRelayed();
    Delivered();
    a := RAux(AuxAt(9), map[], map[]);
    es := Events(9);
    Extends(es, At(9, multiset{}, Reader(0, None)), a, Reading()[0], Before(Asks()), a);
    es := es + [Reading()[0]];
    Extends(es, Before(Asks()), a, Reading()[1], Before(Sent()), a);
    es := es + [Reading()[1]];
    Extends(es, Before(Sent()), a, Reading()[2], Before(Answer()), a);
    es := es + [Reading()[2]];
    Extends(es, Before(Answer()), a, Reading()[3], Before(Response()), a);
    es := es + [Reading()[3]];
    s := At(9, multiset{}, Reader(1, None));
    Extends(es, Before(Response()), a, Reading()[4], s, Found());
    es, a := es + [Reading()[4]], Found();
    AtTheEnd();
  }

  lemma AtTheEnd()
    ensures AuxAt(9).reqs == [First(), Second()] && AuxAt(9).dests == [0, 1] && LogAt(9).stor == HELD
    ensures AllReply(TWO, AuxAt(9), 1)
  {
  }
}
