/** What can still happen: from every state of every run an append can return, and a read can. */
module LogProgress {
  import opened Wrappers
  import opened SharedLog
  import opened SharedLogProof
  import opened SharedLogTheorems
  import R = Reads
  import ShardTable

  // ---- Going on ----

  lemma Nowhere(cfg: Config, s: State, a: Aux)
    ensures Continues(cfg, s, a, [], s, a)
  {
  }

  lemma Further(cfg: Config, s: State, a: Aux, es: seq<Event>, r: State, b: Aux, e: Event)
    requires Continues(cfg, s, a, es, r, b) && ConfigOk(cfg) && Enabled(cfg, r, e)
    ensures Continues(cfg, s, a, es + [e], Apply(cfg, r, e), AuxApply(cfg, r, b, e))
  {
    hide Apply, AuxApply, Enabled;
    assert Front(es + [e]) == es && Last(es + [e]) == e;
    assert Leads(cfg, r, b, Last(es + [e]), Apply(cfg, r, e), AuxApply(cfg, r, b, e));
  }

  lemma {:induction false} Together(cfg: Config, s: State, a: Aux, es: seq<Event>, r: State, b: Aux, more: seq<Event>, s': State, a': Aux)
    requires Continues(cfg, s, a, es, r, b) && Continues(cfg, r, b, more, s', a')
    ensures Continues(cfg, s, a, es + more, s', a')
  {
    hide Leads;
    if more == [] {
      assert es + more == es;
    } else {
      var x: State, y: Aux :| Leads(cfg, x, y, Last(more), s', a') && Continues(cfg, r, b, Front(more), x, y);
      Together(cfg, s, a, es, r, b, Front(more), x, y);
      assert Front(es + more) == es + Front(more) && Last(es + more) == Last(more);
    }
  }

  // ---- One server after the other ----

  /** The client of request `r` waits for its answer, and thread `t` is free. */
  predicate Waits(s: State, t: nat, r: Req) {
    && t < |s.threads| && s.threads[t] == Free
    && r.client in s.clients && s.clients[r.client] == ClientState(r.nonce, Some(r))
  }

  /** The servers in `left` have yet to store number `i`, and `n` replies are counted. */
  ghost predicate Sent(s: State, i: nat, r: Req, left: set<Server>, n: nat) {
    Recorded(s.acks, i) == n && forall v :: v in left ==> Store(v, i, r) in s.net
  }

  /** A server stores and sends its reply. */
  lemma Replies(cfg: Config, s: State, a: Aux, t: nat, i: nat, r: Req, left: set<Server>, n: nat, v: Server)
    returns (es: seq<Event>, s': State, a': Aux)
    requires ConfigOk(cfg) && Waits(s, t, r) && Sent(s, i, r, left, n) && v in left
    ensures Continues(cfg, s, a, es, s', a') && a'.answers == a.answers
    ensures Waits(s', t, r) && Sent(s', i, r, left - {v}, n) && Ack(v, i, r) in s'.net
  {
    hide Continues;
    Nowhere(cfg, s, a);
    var e := StoreEntry(v, i, r);
    Further(cfg, s, a, [], s, a, e);
    var s1, a1 := Apply(cfg, s, e), AuxApply(cfg, s, a, e);
    var f := SendAck(Ack(v, i, r));
    Further(cfg, s, a, [] + [e], s1, a1, f);
    es, s', a' := [] + [e] + [f], Apply(cfg, s1, f), AuxApply(cfg, s1, a1, f);
  }

  /** Thread `t` is at `h`, while the client of `r` waits. */
  predicate Busy(s: State, t: nat, r: Req, h: Handler) {
    && t < |s.threads| && s.threads[t] == h
    && r.client in s.clients && s.clients[r.client] == ClientState(r.nonce, Some(r))
  }

  lemma GotStep(cfg: Config, s: State, t: nat, v: Server, i: nat, r: Req, left: set<Server>, n: nat)
    requires Busy(s, t, r, Got(v, i, r)) && Sent(s, i, r, left, n)
    ensures var s' := HandleStep(cfg, s, t);
      if i in s.acks then Busy(s', t, r, Counted(cfg, n + 1, i, r)) && Sent(s', i, r, left, n + 1)
      else Busy(s', t, r, Missed(i, r)) && Sent(s', i, r, left, n) && i !in s'.acks
  {
  }

  lemma MissedStep(cfg: Config, s: State, t: nat, i: nat, r: Req, left: set<Server>, n: nat)
    requires Busy(s, t, r, Missed(i, r)) && Sent(s, i, r, left, n) && i !in s.acks
    ensures var s' := HandleStep(cfg, s, t); Busy(s', t, r, Counted(cfg, n + 1, i, r)) && Sent(s', i, r, left, n + 1)
  {
  }

  lemma AnswerStep(cfg: Config, s: State, t: nat, i: nat, r: Req, left: set<Server>, n: nat)
    requires Busy(s, t, r, Answering(i, r)) && Sent(s, i, r, left, n)
    ensures var s' := HandleStep(cfg, s, t); Waits(s', t, r) && Sent(s', i, r, left, n) && AppendResp(i, r) in s'.net
  {
  }

  lemma TakeStep(cfg: Config, s: State, a: Aux, t: nat, i: nat, r: Req, left: set<Server>, n: nat, v: Server)
    requires ConfigOk(cfg) && Waits(s, t, r) && Sent(s, i, r, left, n) && Ack(v, i, r) in s.net
    ensures Enabled(cfg, s, Take(t, v, i, r)) && AuxApply(cfg, s, a, Take(t, v, i, r)).answers == a.answers
    ensures var s' := Apply(cfg, s, Take(t, v, i, r)); Busy(s', t, r, Got(v, i, r)) && Sent(s', i, r, left, n)
  {
  }

  lemma BusyHandles(cfg: Config, s: State, t: nat, r: Req, h: Handler)
    requires Busy(s, t, r, h) && h != Free
    ensures Enabled(cfg, s, Handle(t))
  {
  }

  lemma Rests(cfg: Config, s: State, t: nat, r: Req, n: nat, i: nat)
    requires Busy(s, t, r, Counted(cfg, n, i, r)) && n < cfg.threshold
    ensures Waits(s, t, r)
  {
  }

  /** The switch takes the reply and counts it. */
  lemma Counts(cfg: Config, s: State, a: Aux, t: nat, i: nat, r: Req, left: set<Server>, n: nat, v: Server)
    returns (es: seq<Event>, s': State, a': Aux)
    requires ConfigOk(cfg) && Waits(s, t, r) && Sent(s, i, r, left, n) && Ack(v, i, r) in s.net
    ensures Continues(cfg, s, a, es, s', a') && a'.answers == a.answers
    ensures Waits(s', t, r) && Sent(s', i, r, left, n + 1)
    ensures n + 1 >= cfg.threshold ==> AppendResp(i, r) in s'.net
  {
    hide Continues, Busy, Sent, Waits, Apply, AuxApply, Enabled, HandleStep;
    Nowhere(cfg, s, a);
    var e := Take(t, v, i, r);
    TakeStep(cfg, s, a, t, i, r, left, n, v);
    Further(cfg, s, a, [], s, a, e);
    es, s', a' := [] + [e], Apply(cfg, s, e), AuxApply(cfg, s, a, e);
    GotStep(cfg, s', t, v, i, r, left, n);
    BusyHandles(cfg, s', t, r, Got(v, i, r));
    var known := i in s'.acks;
    es, s', a' := Handles(cfg, s, a, es, s', a', t);
    if !known {
      MissedStep(cfg, s', t, i, r, left, n);
      BusyHandles(cfg, s', t, r, Missed(i, r));
      es, s', a' := Handles(cfg, s, a, es, s', a', t);
    }
    if n + 1 >= cfg.threshold {
      AnswerStep(cfg, s', t, i, r, left, n + 1);
      BusyHandles(cfg, s', t, r, Answering(i, r));
      es, s', a' := Handles(cfg, s, a, es, s', a', t);
    } else {
      Rests(cfg, s', t, r, n + 1, i);
    }
  }

  lemma Handles(cfg: Config, s: State, a: Aux, es: seq<Event>, r: State, b: Aux, t: nat) returns (es': seq<Event>, s': State, a': Aux)
    requires ConfigOk(cfg) && Continues(cfg, s, a, es, r, b) && Enabled(cfg, r, Handle(t))
    ensures Continues(cfg, s, a, es', s', a') && s' == HandleStep(cfg, r, t) && a' == b
  {
    Further(cfg, s, a, es, r, b, Handle(t));
    es', s', a' := es + [Handle(t)], HandleStep(cfg, r, t), b;
  }

  /** When the servers that are left are enough, the answer can be sent. */
  lemma {:induction false} CanAnswer(cfg: Config, s: State, a: Aux, t: nat, i: nat, r: Req, left: set<Server>, n: nat)
    returns (es: seq<Event>, s': State, a': Aux)
    requires ConfigOk(cfg) && Waits(s, t, r) && Sent(s, i, r, left, n) && left != {} && n + |left| >= cfg.threshold
    ensures Continues(cfg, s, a, es, s', a') && a'.answers == a.answers
    ensures Waits(s', t, r) && AppendResp(i, r) in s'.net
    decreases |left|
  {
    hide Continues, Waits, Sent;
    var v :| v in left;
    es, s', a' := Replies(cfg, s, a, t, i, r, left, n, v);
    var es2, s2, a2 := Counts(cfg, s', a', t, i, r, left - {v}, n, v);
    Together(cfg, s, a, es, s', a', es2, s2, a2);
    es, s', a' := es + es2, s2, a2;
    if n + 1 < cfg.threshold {
      assert |left - {v}| == |left| - 1;
      es2, s2, a2 := CanAnswer(cfg, s', a', t, i, r, left - {v}, n + 1);
      Together(cfg, s, a, es, s', a', es2, s2, a2);
      es, s', a' := es + es2, s2, a2;
    }
  }

  // ---- An append ----

  /** No reply to a number is counted before it is given. */
  lemma NoneCounted(cfg: Config, s: State, a: Aux, i: nat)
    requires Inv(cfg, s, a) && i > s.maxIdx
    ensures Recorded(s.acks, i) == 0
  {
    hide ContentOk, ThreadsContent, RequestsOk, ClientsOk, OnceOk, SentOk, ResponsesOk, AnswersOk, ShardsOk, Positive;
    assert Recorded(s.acks, i) + Uncounted(s.threads, i) <= |Voters(a.received, i)|;
    assert forall k :: k in a.received ==> k.1 <= |a.reqs|;
    assert Voters(a.received, i) == {};
  }

  /** The shard that the next request of a stream will be sent to. */
  function NextShard(cfg: Config, s: State, stream: nat): set<Server>
    requires ConfigOk(cfg)
  {
    var (d, _) := ShardTable.Assign(s.table, Key(cfg, s.maxIdx + 1, stream), |cfg.shards|);
    if d < |cfg.shards| then cfg.shards[d] else {}
  }

  lemma SequenceStep(cfg: Config, s: State, a: Aux, t: nat, r: Req)
    requires Inv(cfg, s, a) && ConfigOk(cfg) && Waits(s, t, r) && AppendReq(r) in s.net && s.maxIdx + 1 < LIMIT
    ensures Enabled(cfg, s, Sequence(r)) && AuxApply(cfg, s, a, Sequence(r)).answers == a.answers
    ensures var s' := Apply(cfg, s, Sequence(r)); Waits(s', t, r) && Sent(s', s.maxIdx + 1, r, NextShard(cfg, s, r.stream), 0)
  {
    hide Inv, ShardTable.Assign, Key;
    NoneCounted(cfg, s, a, s.maxIdx + 1);
  }

  lemma AppendStep(cfg: Config, s: State, a: Aux, t: nat, c: Client, stream: nat, entry: Entry)
    requires ConfigOk(cfg) && Enabled(cfg, s, Append(c, stream, entry)) && t < |s.threads| && s.threads[t] == Free
    ensures AuxApply(cfg, s, a, Append(c, stream, entry)).answers == a.answers
    ensures var s', r := Apply(cfg, s, Append(c, stream, entry)), Req(c, s.clients[c].nonce, stream, entry);
      Waits(s', t, r) && AppendReq(r) in s'.net && s'.maxIdx == s.maxIdx && s'.table == s.table
  {
  }

  lemma ReceiveStep(cfg: Config, s: State, a: Aux, t: nat, i: nat, r: Req)
    requires ConfigOk(cfg) && Waits(s, t, r) && AppendResp(i, r) in s.net
    ensures Enabled(cfg, s, Receive(i, r))
    ensures var a' := AuxApply(cfg, s, a, Receive(i, r)); (r.client, r.nonce) in a'.answers && a'.answers[(r.client, r.nonce)] == i
    ensures var s' := Apply(cfg, s, Receive(i, r));
      && r.client in s'.clients && s'.clients[r.client] == ClientState(r.nonce + 1, None) && t < |s'.threads| && s'.threads[t] == Free
  {
  }

  /**
   From every state of every run: if a client has no append on its way, a thread of the switch is free, and the
   threshold is within the shard that is next for the stream, then the client's append can return, with the next
   number.
   */
  lemma {:induction false} AppendCanReturn(cfg: Config, es: seq<Event>, s: State, a: Aux, t: nat, c: Client, stream: nat, entry: Entry)
    returns (more: seq<Event>, s': State, a': Aux)
    requires Traces(cfg, es, s, a) && ConfigOk(cfg) && t < |s.threads| && s.threads[t] == Free && s.maxIdx + 1 < LIMIT
    requires Enabled(cfg, s, Append(c, stream, entry))
    requires var shard := NextShard(cfg, s, stream); shard != {} && cfg.threshold <= |shard|
    ensures Continues(cfg, s, a, more, s', a')
    ensures (c, s.clients[c].nonce) in a'.answers && a'.answers[(c, s.clients[c].nonce)] == s.maxIdx + 1
    ensures c in s'.clients && s'.clients[c] == ClientState(s.clients[c].nonce + 1, None) && t < |s'.threads| && s'.threads[t] == Free
  {
    hide Traces, Inv, Continues, Waits, Sent, Apply, AuxApply, NextShard;
    TracedInv(cfg, es, s, a);
    var e, r, i := Append(c, stream, entry), Req(c, s.clients[c].nonce, stream, entry), s.maxIdx + 1;
    AppendStep(cfg, s, a, t, c, stream, entry);
    Nowhere(cfg, s, a);
    Further(cfg, s, a, [], s, a, e);
    EventKeepsInv(cfg, s, a, e);
    var s1, a1 := Apply(cfg, s, e), AuxApply(cfg, s, a, e);
    SequenceStep(cfg, s1, a1, t, r);
    SameNext(cfg, s, s1, stream);
    Further(cfg, s, a, [] + [e], s1, a1, Sequence(r));
    more, s', a' := [] + [e] + [Sequence(r)], Apply(cfg, s1, Sequence(r)), AuxApply(cfg, s1, a1, Sequence(r));
    var es2, s2, a2 := CanAnswer(cfg, s', a', t, i, r, NextShard(cfg, s1, stream), 0);
    Together(cfg, s, a, more, s', a', es2, s2, a2);
    more := more + es2;
    ReceiveStep(cfg, s2, a2, t, i, r);
    Further(cfg, s, a, more, s2, a2, Receive(i, r));
    more, s', a' := more + [Receive(i, r)], Apply(cfg, s2, Receive(i, r)), AuxApply(cfg, s2, a2, Receive(i, r));
  }

  lemma SameNext(cfg: Config, s: State, s': State, stream: nat)
    requires ConfigOk(cfg) && s'.table == s.table && s'.maxIdx == s.maxIdx
    ensures NextShard(cfg, s', stream) == NextShard(cfg, s, stream)
  {
  }

  // ---- A read ----

  lemma ReadFurther(cfg: Config, es: seq<R.REvent>, s: R.RState, a: R.RAux, e: R.REvent)
    requires R.RTraces(cfg, es, s, a) && ConfigOk(cfg) && R.REnabled(cfg, s, e)
    ensures R.RTraces(cfg, es + [e], R.RApply(cfg, s, e), R.RAuxApply(cfg, s, a, e))
  {
    hide R.RApply, R.RAuxApply, R.REnabled;
    assert Front(es + [e]) == es && Last(es + [e]) == e;
    assert R.RLeads(cfg, s, a, Last(es + [e]), R.RApply(cfg, s, e), R.RAuxApply(cfg, s, a, e));
  }

  /** What a client waits for. */
  predicate Reads(s: R.RState, c: Client, n: nat) {
    c in s.readers && s.readers[c].nonce == n && s.readers[c].waiting.Some?
  }

  lemma AskStep(cfg: Config, s: R.RState, a: R.RAux, c: Client, i: nat, stream: nat)
    requires ConfigOk(cfg) && R.REnabled(cfg, s, R.Read(c, i, stream))
    ensures R.RAuxApply(cfg, s, a, R.Read(c, i, stream)) == a
    ensures var s', p := R.RApply(cfg, s, R.Read(c, i, stream)), R.ReadReq(c, s.readers[c].nonce, i, stream);
      Reads(s', c, s.readers[c].nonce) && p in s'.rnet && s'.log == s.log && R.REnabled(cfg, s', R.Route(p))
  {
  }

  lemma RouteStep(cfg: Config, s: R.RState, a: R.RAux, p: R.RPacket, v: Server, n: nat)
    requires ConfigOk(cfg) && R.REnabled(cfg, s, R.Route(p)) && Reads(s, p.c, n) && R.Forward(v, p.c, p.n, p.i, p.stream) in R.RApply(cfg, s, R.Route(p)).rnet
    ensures R.RAuxApply(cfg, s, a, R.Route(p)) == a
    ensures var s', q := R.RApply(cfg, s, R.Route(p)), R.Forward(v, p.c, p.n, p.i, p.stream);
      Reads(s', p.c, n) && s'.log == s.log && R.REnabled(cfg, s', R.Serve(q))
  {
    hide R.Judge;
  }

  lemma ServeStep(cfg: Config, s: R.RState, a: R.RAux, q: R.RPacket, n: nat)
    requires ConfigOk(cfg) && R.REnabled(cfg, s, R.Serve(q)) && Reads(s, q.c, n)
    ensures R.RAuxApply(cfg, s, a, R.Serve(q)) == a
    ensures var s', x := R.RApply(cfg, s, R.Serve(q)), R.Reply(q.s, q.c, q.n, q.i, q.stream, R.Lookup(s.log.stor, q.s, q.i));
      Reads(s', q.c, n) && s'.log == s.log && R.REnabled(cfg, s', R.Relay(x))
  {
  }

  lemma RelayStep(cfg: Config, s: R.RState, a: R.RAux, x: R.RPacket, n: nat)
    requires ConfigOk(cfg) && R.REnabled(cfg, s, R.Relay(x)) && Reads(s, x.c, n)
    ensures R.RAuxApply(cfg, s, a, R.Relay(x)) == a
    ensures var s', y := R.RApply(cfg, s, R.Relay(x)), R.ReadResp(x.s, x.c, x.n, x.i, x.stream, x.x);
      Reads(s', x.c, n) && s'.log == s.log && R.REnabled(cfg, s', R.Deliver(y))
  {
  }

  lemma DeliverStep(cfg: Config, s: R.RState, a: R.RAux, y: R.RPacket)
    requires ConfigOk(cfg) && R.REnabled(cfg, s, R.Deliver(y)) && Reads(s, y.c, y.n)
    ensures var a' := R.RAuxApply(cfg, s, a, R.Deliver(y));
      (y.c, y.n) in a'.results && a'.results[(y.c, y.n)] == R.Result(y.s, y.i, y.stream, y.x)
    ensures var s' := R.RApply(cfg, s, R.Deliver(y)); y.c in s'.readers && s'.readers[y.c] == R.Reader(y.n + 1, None)
  {
  }

  /** Server `v` is of the shard of the append that returned a number, and a read by this stream goes there. */
  predicate HasReturned(cfg: Config, a: Aux, q: (Client, nat), stream: nat, v: Server) {
    q in a.answers
    && var i := a.answers[q];
    && 1 <= i <= |a.reqs| == |a.dests| && a.dests[i - 1] < |cfg.shards| && v in cfg.shards[a.dests[i - 1]]
    && (cfg.useStreams ==> stream == a.reqs[i - 1].stream)
  }

  /** The client's read with the nonce returned `x`, and it can read again. */
  predicate HasRead(s: R.RState, a: R.RAux, c: Client, n: nat, x: R.Result) {
    (c, n) in a.results && a.results[(c, n)] == x && c in s.readers && s.readers[c] == R.Reader(n + 1, None)
  }

  /**
   From every state of every run: a client that is not reading can read any number that an append has returned,
   by its stream or without streams, and gets the answer of any server of its shard: just what that holds.
   */
  lemma {:induction false} ReadCanReturn(cfg: Config, es: seq<R.REvent>, s: R.RState, a: R.RAux, q: (Client, nat), c: Client, stream: nat, v: Server)
    returns (more: seq<R.REvent>, s': R.RState, a': R.RAux)
    requires R.RTraces(cfg, es, s, a) && ConfigOk(cfg) && HasReturned(cfg, a.log, q, stream, v)
    requires R.REnabled(cfg, s, R.Read(c, a.log.answers[q], stream))
    ensures R.RTraces(cfg, es + more, s', a') && s'.log == s.log
    ensures HasRead(s', a', c, s.readers[c].nonce, R.Result(v, a.log.answers[q], stream, R.Lookup(s.log.stor, v, a.log.answers[q])))
  {
    hide R.RTraces, R.RApply, R.RAuxApply, Reads, R.Lookup;
    var n, i := s.readers[c].nonce, a.log.answers[q];
    var e0, p := R.Read(c, i, stream), R.ReadReq(c, n, i, stream);
    AskStep(cfg, s, a, c, i, stream);
    ReadFurther(cfg, es, s, a, e0);
    var s1 := R.RApply(cfg, s, e0);
    R.AnsweredIsForwarded(cfg, es + [e0], s1, a, p, q, v);
    RouteStep(cfg, s1, a, p, v, n);
    ReadFurther(cfg, es + [e0], s1, a, R.Route(p));
    var s2, f := R.RApply(cfg, s1, R.Route(p)), R.Forward(v, c, n, i, stream);
    ServeStep(cfg, s2, a, f, n);
    ReadFurther(cfg, es + [e0] + [R.Route(p)], s2, a, R.Serve(f));
    var s3, x := R.RApply(cfg, s2, R.Serve(f)), R.Reply(v, c, n, i, stream, R.Lookup(s.log.stor, v, i));
    RelayStep(cfg, s3, a, x, n);
    ReadFurther(cfg, es + [e0] + [R.Route(p)] + [R.Serve(f)], s3, a, R.Relay(x));
    var s4, y := R.RApply(cfg, s3, R.Relay(x)), R.ReadResp(v, c, n, i, stream, x.x);
    DeliverStep(cfg, s4, a, y);
    ReadFurther(cfg, es + [e0] + [R.Route(p)] + [R.Serve(f)] + [R.Relay(x)], s4, a, R.Deliver(y));
    more := [e0, R.Route(p), R.Serve(f), R.Relay(x), R.Deliver(y)];
    assert es + more == es + [e0] + [R.Route(p)] + [R.Serve(f)] + [R.Relay(x)] + [R.Deliver(y)];
    s', a' := R.RApply(cfg, s4, R.Deliver(y)), R.RAuxApply(cfg, s4, a, R.Deliver(y));
    assert s'.log == s4.log by { SameLog(cfg, s4, y); }
  }

  lemma SameLog(cfg: Config, s: R.RState, y: R.RPacket)
    requires ConfigOk(cfg) && R.REnabled(cfg, s, R.Deliver(y))
    ensures R.RApply(cfg, s, R.Deliver(y)).log == s.log
  {
  }
}
