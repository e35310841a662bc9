/** Every step of the shared log's protocol keeps its invariant. */
module SharedLogProof {
  import opened Wrappers
  import opened SharedLog
  import ShardTable

  ghost predicate StepKeeps(cfg: Config, s: State, a: Aux, e: Event) {
    ConfigOk(cfg) && Enabled(cfg, s, e) && Inv(cfg, Apply(cfg, s, e), AuxApply(cfg, s, a, e))
  }

  // ---- Packets leave the network ----

  lemma Shrinks(cfg: Config, s: State, a: Aux, net': multiset<Packet>)
    requires Inv(cfg, s, a) && net' <= s.net
    ensures ContentOk(net', a.reqs) && RequestsOk(net', a.reqs, a.asked) && OnceOk(net', s.outbox, a.received)
    ensures SentOk(cfg, net', a.reqs, a.dests) && RepliesOk(net', s.outbox, a.received, s.stor)
    ensures ResponsesOk(cfg, net', s.threads, s.acks)
  {
    hide Content, Held, ShardsOk, CountsOk, AnswersOk, StoredOk, ClientsOk, ThreadsContent;
    assert forall p :: p in net' ==> p in s.net;
    forall s1, i, r ensures Once(net', s.outbox, a.received, s1, i, r) {
      assert Once(s.net, s.outbox, a.received, s1, i, r) by { assert s.net[Store(s1, i, r)] >= 0; }
    }
  }

  lemma LoseKeeps(cfg: Config, s: State, a: Aux, e: Event)
    requires Inv(cfg, s, a) && Enabled(cfg, s, e) && e.Lose?
    ensures StepKeeps(cfg, s, a, e)
  {
    hide ContentOk, ThreadsContent, RequestsOk, ClientsOk, OnceOk, StoredOk, SentOk, RepliesOk, CountsOk, ResponsesOk, AnswersOk, ShardsOk;
    Shrinks(cfg, s, a, Remove(s.net, e.p));
  }

  // ---- A client asks ----

  lemma NewNonce(clients: map<Client, ClientState>, asked: set<Req>, r: Req)
    requires ClientsOk(clients, asked) && r.client in clients && clients[r.client].waiting == None && r.nonce == clients[r.client].nonce
    ensures r !in asked
    ensures ClientsOk(clients[r.client := clients[r.client].(waiting := Some(r))], asked + {r})
  {
  }

  lemma RequestAdded(net: multiset<Packet>, reqs: seq<Req>, asked: set<Req>, r: Req)
    requires RequestsOk(net, reqs, asked) && r !in asked
    ensures RequestsOk(net + multiset{AppendReq(r)}, reqs, asked + {r})
  {
  }

  /** A request or a response, unlike what goes to and from the servers. */
  lemma OtherAdded(cfg: Config, s: State, a: Aux, p: Packet)
    requires Inv(cfg, s, a) && (p.AppendReq? || p.AppendResp?) && Content(p, a.reqs)
    ensures var net' := s.net + multiset{p};
      && ContentOk(net', a.reqs) && OnceOk(net', s.outbox, a.received)
      && SentOk(cfg, net', a.reqs, a.dests) && RepliesOk(net', s.outbox, a.received, s.stor)
    ensures p.AppendReq? ==> ResponsesOk(cfg, s.net + multiset{p}, s.threads, s.acks)
  {
    hide Content, Held, ShardsOk, CountsOk, AnswersOk, StoredOk, ClientsOk, ThreadsContent, RequestsOk;
    var net' := s.net + multiset{p};
    assert forall q :: q in net' ==> q in s.net || q == p;
    forall s1, i, r ensures Once(net', s.outbox, a.received, s1, i, r) {
      assert Once(s.net, s.outbox, a.received, s1, i, r) by { assert s.net[Store(s1, i, r)] >= 0; }
      assert net'[Store(s1, i, r)] == s.net[Store(s1, i, r)] && net'[Ack(s1, i, r)] == s.net[Ack(s1, i, r)];
    }
  }

  lemma AppendKeeps(cfg: Config, s: State, a: Aux, e: Event)
    requires Inv(cfg, s, a) && Enabled(cfg, s, e) && e.Append?
    ensures StepKeeps(cfg, s, a, e)
  {
    hide ContentOk, ThreadsContent, RequestsOk, ClientsOk, OnceOk, StoredOk, SentOk, RepliesOk, CountsOk, ResponsesOk, AnswersOk, ShardsOk;
    var r := Req(e.c, s.clients[e.c].nonce, e.stream, e.entry);
    NewNonce(s.clients, a.asked, r);
    RequestAdded(s.net, a.reqs, a.asked, r);
    OtherAdded(cfg, s, a, AppendReq(r));
  }

  lemma GiveUpKeeps(cfg: Config, s: State, a: Aux, e: Event)
    requires Inv(cfg, s, a) && Enabled(cfg, s, e) && e.GiveUp?
    ensures StepKeeps(cfg, s, a, e)
  {
    hide ContentOk, ThreadsContent, RequestsOk, OnceOk, StoredOk, SentOk, RepliesOk, CountsOk, ResponsesOk, AnswersOk, ShardsOk;
  }

  // ---- The switch sequences ----

  lemma ContentGrows(net: multiset<Packet>, reqs: seq<Req>, r: Req)
    requires ContentOk(net, reqs)
    ensures ContentOk(net, reqs + [r])
  {
  }

  lemma Sequenced(net: multiset<Packet>, reqs: seq<Req>, asked: set<Req>, r: Req, more: multiset<Packet>)
    requires RequestsOk(net, reqs, asked) && AppendReq(r) in net && forall p :: p in more ==> p.Store?
    ensures RequestsOk(Remove(net, AppendReq(r)) + more, reqs + [r], asked)
  {
  }

  lemma MulticastOf(shard: set<Server>, i: nat, r: Req, p: Packet)
    ensures Multicast(shard, i, r)[p] == if p.Store? && p.s in shard && p.i == i && p.r == r then 1 else 0
  {
  }

  /** Nothing on its way or taken has the new number yet. */
  lemma NumberUnused(cfg: Config, s: State, a: Aux, sv: Server, r: Req)
    requires Inv(cfg, s, a)
    ensures var i := |a.reqs| + 1;
      s.net[Store(sv, i, r)] == 0 && s.outbox[Ack(sv, i, r)] == 0 && s.net[Ack(sv, i, r)] == 0 && (sv, i) !in a.received
  {
  }

  lemma SequencedOnce(cfg: Config, s: State, a: Aux, r: Req, shard: set<Server>)
    requires Inv(cfg, s, a)
    ensures OnceOk(Remove(s.net, AppendReq(r)) + Multicast(shard, |a.reqs| + 1, r), s.outbox, a.received)
  {
    hide ContentOk, ThreadsContent, RequestsOk, ClientsOk, StoredOk, SentOk, RepliesOk, CountsOk, ResponsesOk, AnswersOk, ShardsOk, Multicast;
    var i := |a.reqs| + 1;
    var net' := Remove(s.net, AppendReq(r)) + Multicast(shard, i, r);
    forall s1, j, q ensures Once(net', s.outbox, a.received, s1, j, q) {
      MulticastOf(shard, i, r, Store(s1, j, q));
      MulticastOf(shard, i, r, Ack(s1, j, q));
      assert Once(s.net, s.outbox, a.received, s1, j, q) by { assert s.net[Store(s1, j, q)] >= 0; }
      if j == i { NumberUnused(cfg, s, a, s1, q); }
    }
  }

  lemma HeldGrows(cfg: Config, s: State, a: Aux, r: Req, d: nat)
    requires Inv(cfg, s, a)
    ensures StoredOk(cfg, s.stor, a.reqs + [r], a.dests + [d])
    ensures SentOk(cfg, s.net, a.reqs + [r], a.dests + [d])
  {
  }

  lemma SentMore(cfg: Config, net: multiset<Packet>, more: multiset<Packet>, p0: Packet, reqs: seq<Req>, dests: seq<nat>)
    requires SentOk(cfg, net, reqs, dests) && SentOk(cfg, more, reqs, dests)
    ensures SentOk(cfg, Remove(net, p0) + more, reqs, dests)
  {
  }

  lemma ShardsGrow(cfg: Config, table: ShardTable.Table, reqs: seq<Req>, dests: seq<nat>, r: Req)
    requires ConfigOk(cfg) && ShardsOk(cfg, table, reqs, dests)
    ensures var (d, table') := ShardTable.Assign(table, Key(cfg, |reqs| + 1, r.stream), |cfg.shards|);
      d < |cfg.shards| && ShardsOk(cfg, table', reqs + [r], dests + [d])
  {
    var key := Key(cfg, |reqs| + 1, r.stream);
    var keys := Keys(cfg, reqs + [r]);
    assert Front(keys) == Keys(cfg, reqs) && Last(keys) == key;
    hide Key, Keys;
    assert ShardTable.After(keys, |cfg.shards|) == ShardTable.Assign(table, key, |cfg.shards|).1;
    hide ShardTable.After;
    var (d, table') := ShardTable.Assign(table, key, |cfg.shards|);
    forall i | 0 <= i < |dests + [d]| ensures Placed(cfg, table', i + 1, (reqs + [r])[i].stream, (dests + [d])[i]) {
      if i < |dests| { assert Placed(cfg, table, i + 1, reqs[i].stream, dests[i]); }
    }
  }

  lemma ContentMore(net: multiset<Packet>, more: multiset<Packet>, p0: Packet, reqs: seq<Req>)
    requires ContentOk(net, reqs) && ContentOk(more, reqs)
    ensures ContentOk(Remove(net, p0) + more, reqs)
  {
  }

  lemma AnswersGrow(cfg: Config, answers: map<(Client, nat), nat>, acks: map<nat, nat>, reqs: seq<Req>, r: Req)
    requires AnswersOk(cfg, answers, acks, reqs)
    ensures AnswersOk(cfg, answers, acks, reqs + [r])
  {
  }

  lemma ThreadsGrow(threads: seq<Handler>, reqs: seq<Req>, r: Req)
    requires ThreadsContent(threads, reqs)
    ensures ThreadsContent(threads, reqs + [r])
  {
  }

  lemma RestMore(cfg: Config, s: State, a: Aux, p0: Packet, more: multiset<Packet>)
    requires Inv(cfg, s, a) && forall p :: p in more ==> p.Store?
    ensures RepliesOk(Remove(s.net, p0) + more, s.outbox, a.received, s.stor)
    ensures ResponsesOk(cfg, Remove(s.net, p0) + more, s.threads, s.acks)
  {
  }

  lemma SequenceKeeps(cfg: Config, s: State, a: Aux, e: Event)
    requires Inv(cfg, s, a) && Enabled(cfg, s, e) && e.Sequence?
    ensures StepKeeps(cfg, s, a, e)
  {
    hide ContentOk, ThreadsContent, RequestsOk, ClientsOk, OnceOk, StoredOk, SentOk, RepliesOk, CountsOk, ResponsesOk, AnswersOk, ShardsOk,
      Multicast, Key, ShardTable.Assign;
    var r, i := e.r, s.maxIdx + 1;
    var (d, table') := ShardTable.Assign(s.table, Key(cfg, i, r.stream), |cfg.shards|);
    ShardsGrow(cfg, s.table, a.reqs, a.dests, r);
    var more := Multicast(cfg.shards[d], i, r);
    NewSent(cfg, a.reqs + [r], a.dests + [d], cfg.shards[d], i, r);
    Sequenced(s.net, a.reqs, a.asked, r, more);
    ContentGrows(s.net, a.reqs, r);
    ContentGrows(s.outbox, a.reqs, r);
    ContentMore(s.net, more, AppendReq(r), a.reqs + [r]);
    ThreadsGrow(s.threads, a.reqs, r);
    SequencedOnce(cfg, s, a, r, cfg.shards[d]);
    HeldGrows(cfg, s, a, r, d);
    SentMore(cfg, s.net, more, AppendReq(r), a.reqs + [r], a.dests + [d]);
    RestMore(cfg, s, a, AppendReq(r), more);
    AnswersGrow(cfg, a.answers, s.acks, a.reqs, r);
  }

  lemma NewSent(cfg: Config, reqs: seq<Req>, dests: seq<nat>, shard: set<Server>, i: nat, r: Req)
    requires i == |reqs| == |dests| > 0 && reqs[i - 1] == r && dests[i - 1] < |cfg.shards| && cfg.shards[dests[i - 1]] == shard
    ensures ContentOk(Multicast(shard, i, r), reqs) && SentOk(cfg, Multicast(shard, i, r), reqs, dests)
    ensures forall p :: p in Multicast(shard, i, r) ==> p.Store?
  {
  }

  // ---- A server stores and replies ----

  /** A server's copy becomes a reply, and a reply goes out; both keep the number of each. */
  lemma OnceMoves(net: multiset<Packet>, outbox: multiset<Packet>, received: set<(Server, nat)>, net': multiset<Packet>, outbox': multiset<Packet>)
    requires OnceOk(net, outbox, received)
    requires forall s, i, r {:trigger net'[Store(s, i, r)]} {:trigger outbox'[Ack(s, i, r)]} ::
      net'[Store(s, i, r)] + outbox'[Ack(s, i, r)] + net'[Ack(s, i, r)] <= net[Store(s, i, r)] + outbox[Ack(s, i, r)] + net[Ack(s, i, r)]
    ensures OnceOk(net', outbox', received)
  {
    forall s, i, r ensures Once(net', outbox', received, s, i, r) {
      assert Once(net, outbox, received, s, i, r) by { assert net[Store(s, i, r)] >= 0; }
      assert net'[Store(s, i, r)] >= 0;
    }
  }

  /** Storing keeps a number's entry if there is one, and that is the same. */
  lemma StoredSame(cfg: Config, s: State, a: Aux, sv: Server, i: nat, r: Req)
    requires Inv(cfg, s, a) && Store(sv, i, r) in s.net
    ensures var stor' := if (sv, i) in s.stor then s.stor else s.stor[(sv, i) := r.entry];
      StoredOk(cfg, stor', a.reqs, a.dests) && (sv, i) in stor'
  {
  }

  lemma StoredOnce(net: multiset<Packet>, outbox: multiset<Packet>, received: set<(Server, nat)>, s: Server, i: nat, r: Req)
    requires OnceOk(net, outbox, received) && Store(s, i, r) in net
    ensures OnceOk(Remove(net, Store(s, i, r)), outbox + multiset{Ack(s, i, r)}, received)
  {
    OnceMoves(net, outbox, received, Remove(net, Store(s, i, r)), outbox + multiset{Ack(s, i, r)});
  }

  lemma SentOnce(net: multiset<Packet>, outbox: multiset<Packet>, received: set<(Server, nat)>, p: Packet)
    requires OnceOk(net, outbox, received) && p in outbox && p.Ack?
    ensures OnceOk(net + multiset{p}, outbox - multiset{p}, received)
  {
    OnceMoves(net, outbox, received, net + multiset{p}, outbox - multiset{p});
  }

  lemma OutboxMore(net: multiset<Packet>, outbox: multiset<Packet>, received: set<(Server, nat)>, stor: map<(Server, nat), Entry>, stor': map<(Server, nat), Entry>, q: Packet, reqs: seq<Req>)
    requires RepliesOk(net, outbox, received, stor) && ContentOk(outbox, reqs) && Content(q, reqs)
    requires (forall k :: k in stor ==> k in stor') && q.Ack? && (q.s, q.i) in stor'
    ensures RepliesOk(net, outbox + multiset{q}, received, stor') && ContentOk(outbox + multiset{q}, reqs)
  {
  }

  lemma StoreKeeps(cfg: Config, s: State, a: Aux, e: Event)
    requires Inv(cfg, s, a) && Enabled(cfg, s, e) && e.StoreEntry?
    ensures StepKeeps(cfg, s, a, e)
  {
    hide ThreadsContent, RequestsOk, ClientsOk, OnceOk, StoredOk, SentOk, CountsOk, ResponsesOk, AnswersOk, ShardsOk, RepliesOk, ContentOk;
    var p, q := Store(e.s, e.i, e.r), Ack(e.s, e.i, e.r);
    Shrinks(cfg, s, a, Remove(s.net, p));
    StoredSame(cfg, s, a, e.s, e.i, e.r);
    StoredOnce(s.net, s.outbox, a.received, e.s, e.i, e.r);
    assert Content(p, a.reqs) by { InNet(s.net, a.reqs, p); }
    var stor' := if (e.s, e.i) in s.stor then s.stor else s.stor[(e.s, e.i) := e.r.entry];
    OutboxMore(Remove(s.net, p), s.outbox, a.received, s.stor, stor', q, a.reqs);
  }

  lemma InNet(net: multiset<Packet>, reqs: seq<Req>, p: Packet)
    requires ContentOk(net, reqs) && p in net
    ensures Content(p, reqs)
  {
  }

  /** A reply on its way. */
  lemma AckAdded(cfg: Config, s: State, a: Aux, p: Packet)
    requires Inv(cfg, s, a) && p in s.outbox
    ensures p.Ack?
    ensures var net' := s.net + multiset{p};
      && ContentOk(net', a.reqs) && SentOk(cfg, net', a.reqs, a.dests) && ResponsesOk(cfg, net', s.threads, s.acks)
      && RepliesOk(net', s.outbox - multiset{p}, a.received, s.stor)
  {
    hide ThreadsContent, RequestsOk, ClientsOk, OnceOk, StoredOk, CountsOk, AnswersOk, ShardsOk, Content, Held, Enough;
    assert forall x :: x in s.net + multiset{p} ==> x in s.net || x == p;
  }

  lemma SendAckKeeps(cfg: Config, s: State, a: Aux, e: Event)
    requires Inv(cfg, s, a) && Enabled(cfg, s, e) && e.SendAck?
    ensures StepKeeps(cfg, s, a, e)
  {
    hide ThreadsContent, RequestsOk, ClientsOk, OnceOk, StoredOk, SentOk, CountsOk, ResponsesOk, AnswersOk, ShardsOk, RepliesOk, ContentOk;
    AckAdded(cfg, s, a, e.p);
    SentOnce(s.net, s.outbox, a.received, e.p);
    AckOnly(s.net, a.reqs, a.asked, e.p);
    OutboxLess(s.outbox, e.p, a.reqs);
  }

  lemma OutboxLess(outbox: multiset<Packet>, p: Packet, reqs: seq<Req>)
    requires ContentOk(outbox, reqs)
    ensures ContentOk(outbox - multiset{p}, reqs)
  {
  }

  lemma AckOnly(net: multiset<Packet>, reqs: seq<Req>, asked: set<Req>, p: Packet)
    requires RequestsOk(net, reqs, asked) && !p.AppendReq?
    ensures RequestsOk(net + multiset{p}, reqs, asked)
  {
  }

  // ---- The switch counts ----

  lemma {:induction false} UncountedStored(threads: seq<Handler>, t: nat, h: Handler, i: nat)
    requires t < |threads|
    ensures Uncounted(threads[t := h], i) == Uncounted(threads, i) - Weight(threads[t], i) + Weight(h, i)
  {
    hide Weight;
    if t == |threads| - 1 {
      assert Front(threads[t := h]) == Front(threads);
    } else {
      UncountedStored(Front(threads), t, h, i);
      assert Front(threads[t := h]) == Front(threads)[t := h];
    }
  }

  lemma VotersMore(received: set<(Server, nat)>, s: Server, i: nat, j: nat)
    requires (s, i) !in received
    ensures |Voters(received + {(s, i)}, j)| == |Voters(received, j)| + if j == i then 1 else 0
  {
    if j == i {
      assert Voters(received + {(s, i)}, i) == Voters(received, i) + {s};
      assert s !in Voters(received, i);
    } else {
      assert Voters(received + {(s, i)}, j) == Voters(received, j);
    }
  }

  lemma TakenCounts(acks: map<nat, nat>, threads: seq<Handler>, received: set<(Server, nat)>, t: nat, s: Server, i: nat, r: Req)
    requires CountsOk(acks, threads, received) && (s, i) !in received && t < |threads| && threads[t] == Free
    ensures CountsOk(acks, threads[t := Got(s, i, r)], received + {(s, i)})
  {
    hide Voters, Uncounted;
    forall j: nat ensures Recorded(acks, j) + Uncounted(threads[t := Got(s, i, r)], j) <= |Voters(received + {(s, i)}, j)| {
      UncountedStored(threads, t, Got(s, i, r), j);
      VotersMore(received, s, i, j);
      assert Recorded(acks, j) + Uncounted(threads, j) <= |Voters(received, j)|;
    }
  }

  /** A reply that is taken makes its sender a new voter, who will send no more. */
  lemma TakenOnce(net: multiset<Packet>, outbox: multiset<Packet>, received: set<(Server, nat)>, s: Server, i: nat, r: Req, reqs: seq<Req>)
    requires OnceOk(net, outbox, received) && Ack(s, i, r) in net && ContentOk(net, reqs) && ContentOk(outbox, reqs)
    ensures (s, i) !in received
    ensures OnceOk(Remove(net, Ack(s, i, r)), outbox, received + {(s, i)})
  {
    assert net[Ack(s, i, r)] >= 1;
    assert Once(net, outbox, received, s, i, r);
    var net', received' := Remove(net, Ack(s, i, r)), received + {(s, i)};
    forall s1, j, q ensures Once(net', outbox, received', s1, j, q) {
      assert net[Store(s1, j, q)] >= 0;
      assert Once(net, outbox, received, s1, j, q);
      if s1 == s && j == i && q != r { OtherContent(net, outbox, s, i, r, q, reqs); }
    }
  }

  lemma OtherContent(net: multiset<Packet>, outbox: multiset<Packet>, s: Server, i: nat, r: Req, q: Req, reqs: seq<Req>)
    requires Ack(s, i, r) in net && ContentOk(net, reqs) && ContentOk(outbox, reqs) && q != r
    ensures net[Store(s, i, q)] == 0 && net[Ack(s, i, q)] == 0 && outbox[Ack(s, i, q)] == 0
  {
  }

  lemma TakeKeeps(cfg: Config, s: State, a: Aux, e: Event)
    requires Inv(cfg, s, a) && Enabled(cfg, s, e) && e.Take?
    ensures StepKeeps(cfg, s, a, e)
  {
    hide RequestsOk, ClientsOk, OnceOk, StoredOk, SentOk, CountsOk, ResponsesOk, AnswersOk, ShardsOk, Voters, Uncounted;
    var p := Ack(e.s, e.i, e.r);
    Shrinks(cfg, s, a, Remove(s.net, p));
    TakenOnce(s.net, s.outbox, a.received, e.s, e.i, e.r, a.reqs);
    TakenCounts(s.acks, s.threads, a.received, e.t, e.s, e.i, e.r);
    assert Content(p, a.reqs);
    ThreadsTurn(cfg, Remove(s.net, p), s.threads, s.acks, e.t, Got(e.s, e.i, e.r));
  }

  lemma ThreadsTurn(cfg: Config, net: multiset<Packet>, threads: seq<Handler>, acks: map<nat, nat>, t: nat, h: Handler)
    requires ResponsesOk(cfg, net, threads, acks) && t < |threads| && (h.Answering? ==> Enough(cfg, acks, h.i))
    ensures ResponsesOk(cfg, net, threads[t := h], acks)
  {
  }

  lemma CountsTurn(acks: map<nat, nat>, threads: seq<Handler>, received: set<(Server, nat)>, t: nat, h: Handler, acks': map<nat, nat>)
    requires CountsOk(acks, threads, received) && t < |threads|
    requires forall j: nat :: Recorded(acks', j) + Weight(h, j) <= Recorded(acks, j) + Weight(threads[t], j)
    ensures CountsOk(acks', threads[t := h], received)
  {
    hide Voters, Uncounted, Recorded, Weight;
    forall j: nat ensures Recorded(acks', j) + Uncounted(threads[t := h], j) <= |Voters(received, j)| {
      UncountedStored(threads, t, h, j);
      assert Recorded(acks, j) + Uncounted(threads, j) <= |Voters(received, j)|;
    }
  }

  /** Counts only grow. */
  lemma MoreAcks(cfg: Config, net: multiset<Packet>, threads: seq<Handler>, acks: map<nat, nat>, acks': map<nat, nat>, answers: map<(Client, nat), nat>, reqs: seq<Req>)
    requires ResponsesOk(cfg, net, threads, acks) && AnswersOk(cfg, answers, acks, reqs)
    requires forall i :: i in acks ==> i in acks' && acks'[i] >= acks[i]
    ensures ResponsesOk(cfg, net, threads, acks') && AnswersOk(cfg, answers, acks', reqs)
  {
  }

  lemma HandleKeeps(cfg: Config, s: State, a: Aux, e: Event)
    requires Inv(cfg, s, a) && Enabled(cfg, s, e) && e.Handle? && !s.threads[e.t].Answering?
    ensures StepKeeps(cfg, s, a, e)
  {
    hide ContentOk, RequestsOk, ClientsOk, OnceOk, StoredOk, SentOk, RepliesOk, CountsOk, ResponsesOk, AnswersOk, ShardsOk, Voters, Uncounted;
    var r := Apply(cfg, s, e);
    var h, h' := s.threads[e.t], r.threads[e.t];
    CountsTurn(s.acks, s.threads, a.received, e.t, h', r.acks);
    MoreAcks(cfg, s.net, s.threads, s.acks, r.acks, a.answers, a.reqs);
    ThreadsTurn(cfg, s.net, s.threads, r.acks, e.t, h');
    assert Given(a.reqs, h.i, h.r);
  }

  lemma AnswerKeeps(cfg: Config, s: State, a: Aux, e: Event)
    requires Inv(cfg, s, a) && Enabled(cfg, s, e) && e.Handle? && s.threads[e.t].Answering?
    ensures StepKeeps(cfg, s, a, e)
  {
    hide ContentOk, RequestsOk, ClientsOk, OnceOk, StoredOk, SentOk, RepliesOk, CountsOk, ResponsesOk, AnswersOk, ShardsOk, Voters, Uncounted, Enough;
    var h := s.threads[e.t];
    var p := AppendResp(h.i, h.r);
    AnsweringFacts(cfg, s.net, s.threads, s.acks, e.t);
    assert Given(a.reqs, h.i, h.r);
    CountsTurn(s.acks, s.threads, a.received, e.t, Free, s.acks);
    ThreadsTurn(cfg, s.net, s.threads, s.acks, e.t, Free);
    OtherAdded(cfg, s, a, p);
    AckOnly(s.net, a.reqs, a.asked, p);
    ResponseAdded(cfg, s.net, s.threads[e.t := Free], s.acks, p);
  }

  lemma AnsweringFacts(cfg: Config, net: multiset<Packet>, threads: seq<Handler>, acks: map<nat, nat>, t: nat)
    requires ResponsesOk(cfg, net, threads, acks) && t < |threads| && threads[t].Answering?
    ensures Enough(cfg, acks, threads[t].i)
  {
  }

  lemma ResponseAdded(cfg: Config, net: multiset<Packet>, threads: seq<Handler>, acks: map<nat, nat>, p: Packet)
    requires ResponsesOk(cfg, net, threads, acks) && p.AppendResp? && Enough(cfg, acks, p.i)
    ensures ResponsesOk(cfg, net + multiset{p}, threads, acks)
  {
  }

  // ---- A client is answered ----

  lemma ReceiveKeeps(cfg: Config, s: State, a: Aux, e: Event)
    requires Inv(cfg, s, a) && Enabled(cfg, s, e) && e.Receive?
    ensures StepKeeps(cfg, s, a, e)
  {
    hide ThreadsContent, RequestsOk, ClientsOk, OnceOk, StoredOk, SentOk, RepliesOk, CountsOk, ShardsOk, Enough;
    var p := AppendResp(e.i, e.r);
    Shrinks(cfg, s, a, Remove(s.net, p));
    assert Content(p, a.reqs) && Enough(cfg, s.acks, e.i);
    NonceUsed(s.clients, a.asked, e.r.client);
    hide ContentOk, ResponsesOk;
  }

  lemma NonceUsed(clients: map<Client, ClientState>, asked: set<Req>, c: Client)
    requires ClientsOk(clients, asked) && c in clients
    ensures ClientsOk(clients[c := ClientState(clients[c].nonce + 1, None)], asked)
  {
  }

  lemma HandleAll(cfg: Config, s: State, a: Aux, e: Event)
    requires Inv(cfg, s, a) && Enabled(cfg, s, e) && e.Handle?
    ensures StepKeeps(cfg, s, a, e)
  {
    hide Inv, StepKeeps;
    if s.threads[e.t].Answering? { AnswerKeeps(cfg, s, a, e); } else { HandleKeeps(cfg, s, a, e); }
  }

  lemma EventKeepsInv(cfg: Config, s: State, a: Aux, e: Event)
    requires Inv(cfg, s, a) && Enabled(cfg, s, e)
    ensures StepKeeps(cfg, s, a, e)
  {
    hide Inv, StepKeeps, Enabled;
    match e
    case Append(_, _, _) => AppendKeeps(cfg, s, a, e);
    case Lose(_) => LoseKeeps(cfg, s, a, e);
    case Sequence(_) => SequenceKeeps(cfg, s, a, e);
    case StoreEntry(_, _, _) => StoreKeeps(cfg, s, a, e);
    case SendAck(_) => SendAckKeeps(cfg, s, a, e);
    case Take(_, _, _, _) => TakeKeeps(cfg, s, a, e);
    case Handle(t) => HandleAll(cfg, s, a, e);
    case Receive(_, _) => ReceiveKeeps(cfg, s, a, e);
    case GiveUp(_) => GiveUpKeeps(cfg, s, a, e);
  }
}
