/** The storage server, the switch and the client of the shared log in their own form, each a loop over
    the packets that arrive. */
module LogNodes {
  import opened Wrappers
  import opened SharedLog
  import Reads
  import ShardTable

  class LogStorage {
    const id: Server
    var concurrentStor: map<nat, Entry>
    var maxAppendIdx: nat

    /** Stores an entry unless there is one. */
    method Put(idx: nat, entry: Entry) returns (inserted: bool)
      modifies this`concurrentStor
      ensures inserted == (idx !in old(concurrentStor))
      ensures concurrentStor == if inserted then old(concurrentStor)[idx := entry] else old(concurrentStor)
    {
      inserted := idx !in concurrentStor;
      if inserted { concurrentStor := concurrentStor[idx := entry]; }
    }

    method Get(idx: nat) returns (entry: Option<Entry>)
      ensures entry == if idx in concurrentStor then Some(concurrentStor[idx]) else None
    {
      if idx in concurrentStor { entry := Some(concurrentStor[idx]); } else { entry := None; }
    }

    /** Stores all entries of a batch, and only then returns the replies. What was stored stays, and a
        number that is new gets the first entry for it in the batch. */
    method AppendServer(batch: seq<Packet>) returns (replies: seq<Packet>)
      requires forall p :: p in batch ==> p.Store?
      modifies this
      ensures |replies| == |batch| && maxAppendIdx == if batch == [] then old(maxAppendIdx) else Last(batch).i
      ensures forall j :: 0 <= j < |batch| ==> replies[j] == Ack(id, batch[j].i, batch[j].r) && batch[j].i in concurrentStor
      ensures forall k :: k in old(concurrentStor) ==> k in concurrentStor && concurrentStor[k] == old(concurrentStor)[k]
      ensures forall k :: k in concurrentStor && k !in old(concurrentStor) ==>
        exists j :: 0 <= j < |batch| && FirstFor(batch, j, k) && concurrentStor[k] == batch[j].r.entry
    {
      replies := [];
      for n := 0 to |batch|
        invariant |replies| == n && maxAppendIdx == if n == 0 then old(maxAppendIdx) else batch[n - 1].i
        invariant forall j :: 0 <= j < n ==> replies[j] == Ack(id, batch[j].i, batch[j].r) && batch[j].i in concurrentStor
        invariant forall k :: k in old(concurrentStor) ==> k in concurrentStor && concurrentStor[k] == old(concurrentStor)[k]
        invariant forall k :: k in concurrentStor && k !in old(concurrentStor) ==>
          exists j :: 0 <= j < n && FirstFor(batch, j, k) && concurrentStor[k] == batch[j].r.entry
      {
        var p := batch[n];
        assert p in batch;
        ghost var before := concurrentStor;
        var inserted := Put(p.i, p.r.entry);
        if inserted {
          assert FirstFor(batch, n, p.i) by {
            forall j | 0 <= j < n ensures batch[j].i != p.i { assert batch[j].i in before; }
          }
        }
        maxAppendIdx := p.i;
        replies := replies + [Ack(id, p.i, p.r)];
      }
    }
  }

  ghost predicate FirstFor(batch: seq<Packet>, j: nat, k: nat) {
    j < |batch| && batch[j].Store? && batch[j].i == k && forall m :: 0 <= m < j && batch[m].Store? ==> batch[m].i != k
  }

  class LogSwitch {
    const cfg: Config
    var maxIdx: nat
    var shardOf: map<nat, nat>
    var nextAvailableShard: nat
    var ackMap: map<nat, nat>

    function Table(): ShardTable.Table
      reads this
    {
      ShardTable.Table(shardOf, nextAvailableShard)
    }

    /** Numbers a request and chooses its shard, as the protocol's step does. */
    method AppendRequest(r: Req, ghost s: State) returns (i: nat, d: nat)
      requires ConfigOk(cfg) && Enabled(cfg, s, Sequence(r)) && s.maxIdx == maxIdx && s.table == Table()
      modifies this`maxIdx, this`shardOf, this`nextAvailableShard
      ensures var s' := Apply(cfg, s, Sequence(r));
        && maxIdx == s'.maxIdx == i && Table() == s'.table
        && (d < |cfg.shards| ==> s'.net == Remove(s.net, AppendReq(r)) + Multicast(cfg.shards[d], i, r))
    {
      maxIdx := maxIdx + 1;
      i := maxIdx;
      var keyId := if cfg.useStreams then r.stream else ShardTable.Residue(i, |cfg.shards|);
      if keyId in shardOf {
        d := shardOf[keyId];
      } else {
        d := nextAvailableShard;
        shardOf := shardOf[keyId := nextAvailableShard];
        nextAvailableShard := ShardTable.Residue(nextAvailableShard + 1, |cfg.shards|);
      }
    }

    /** Counts a reply and says whether there are enough of them, as the steps of a thread that no other
        interrupts. */
    method CountReply(i: nat) returns (gotQuorum: bool)
      modifies this`ackMap
      ensures ackMap == old(ackMap)[i := Recorded(old(ackMap), i) + 1]
      ensures gotQuorum <==> Enough(cfg, ackMap, i)
    {
      gotQuorum := false;
      if i in ackMap {
        ackMap := ackMap[i := ackMap[i] + 1];
        if ackMap[i] >= cfg.threshold { gotQuorum := true; }
      } else {
        ackMap := ackMap[i := 1];
        if ackMap[i] >= cfg.threshold { gotQuorum := true; }
      }
    }

    /**
     Counts all replies of a batch, and answers each that is at least the `threshold`-th to its number, in their
     order. In the state `s` of the protocol, of whose free thread `t` this is the work, it does to the counts and
     to the network just what that thread's steps do when no other interrupts them.
     */
    method AppendResponse(batch: seq<Packet>, ghost s: State, ghost t: nat) returns (answers: seq<Packet>, ghost es: seq<Event>, ghost s': State)
      requires forall p :: p in batch ==> p.Ack?
      requires ConfigOk(cfg) && s.acks == ackMap && multiset(batch) <= s.net && t < |s.threads| && s.threads[t] == Free
      modifies this`ackMap
      ensures forall i :: Recorded(ackMap, i) == Recorded(old(ackMap), i) + Replies(batch, i)
      ensures AnswersTo(cfg.threshold, old(ackMap), batch, answers)
      ensures Goes(cfg, s, es, s') && forall e :: e in es ==> Works(t, e)
      ensures s' == s.(acks := ackMap, net := s.net - multiset(batch) + multiset(answers))
    {
      hide Round;
      answers, es, s' := [], [], s;
      RoundStarts(cfg, s, t, batch);
      for n := 0 to |batch|
        invariant Round(cfg, s, t, ackMap, batch, n, answers, es, s')
      {
        assert batch[n] in batch;
        es, s' := RoundGoesOn(cfg, s, t, ackMap, batch, n, answers, es, s');
        var gotQuorum := CountReply(batch[n].i);
        if gotQuorum { answers := answers + [AppendResp(batch[n].i, batch[n].r)]; }
      }
      RoundEnds(cfg, s, t, ackMap, batch, answers, es, s');
    }

    /** Decides about a read. */
    method ReadRequest(i: nat, stream: nat, ghost s: State) returns (v: Reads.Verdict)
      requires ConfigOk(cfg) && s.maxIdx == maxIdx && s.table == Table() && s.acks == ackMap
      ensures v == Reads.Judge(cfg, s, i, stream)
    {
      if i > maxIdx { return Reads.Reject; }
      if i !in ackMap || ackMap[i] < cfg.threshold { return Reads.Recirculate; }
      var keyId := if cfg.useStreams then stream else ShardTable.Residue(i, |cfg.shards|);
      if keyId !in shardOf || shardOf[keyId] >= |cfg.shards| || cfg.shards[shardOf[keyId]] == {} { return Reads.Reject; }
      v := Reads.ToShard(shardOf[keyId]);
    }
  }

  /** The number of replies to `i`. */
  function Replies(batch: seq<Packet>, i: nat): nat {
    if batch == [] then 0 else Replies(Front(batch), i) + if Last(batch).Ack? && Last(batch).i == i then 1 else 0
  }

  /** With reply `n` of the batch there are enough replies to its number, if `acks` are the counts before. */
  predicate Completes(threshold: nat, acks: map<nat, nat>, batch: seq<Packet>, n: nat)
    requires n < |batch|
  {
    batch[n].Ack? && Recorded(acks, batch[n].i) + Replies(batch[..n + 1], batch[n].i) >= threshold
  }

  /** `ns` is the places below `n` of just such replies, in order. */
  ghost predicate Picks(threshold: nat, acks: map<nat, nat>, batch: seq<Packet>, n: nat, ns: seq<nat>)
    requires n <= |batch|
  {
    && (forall j :: 0 <= j < |ns| ==> ns[j] < n && Completes(threshold, acks, batch, ns[j]))
    && (forall j, k :: 0 <= j < k < |ns| ==> ns[j] < ns[k])
    && (forall m: nat :: m < n && Completes(threshold, acks, batch, m) ==> m in ns)
  }

  /** The answers are to the replies at these places: to the request, with the number, of each. */
  ghost predicate Answers(batch: seq<Packet>, ns: seq<nat>, answers: seq<Packet>) {
    |answers| == |ns| && forall j :: 0 <= j < |ns| ==> ns[j] < |batch| && IsAnswer(batch[ns[j]], answers[j])
  }

  predicate IsAnswer(p: Packet, q: Packet) {
    p.Ack? && q.AppendResp? && q.i == p.i && q.r == p.r
  }

  /** The answers are, in order, to just the replies that complete their number. */
  ghost predicate AnswersTo(threshold: nat, acks: map<nat, nat>, batch: seq<Packet>, answers: seq<Packet>) {
    exists ns: seq<nat> :: Picks(threshold, acks, batch, |batch|, ns) && Answers(batch, ns, answers)
  }

  // ---- The protocol's steps of one thread ----

  predicate Works(t: nat, e: Event) {
    (e.Take? || e.Handle?) && e.t == t
  }

  ghost predicate Goes(cfg: Config, s: State, es: seq<Event>, s': State)
    requires ConfigOk(cfg)
  {
    if es == [] then s' == s
    else exists r: State :: Enabled(cfg, r, Last(es)) && Apply(cfg, r, Last(es)) == s' && Goes(cfg, s, Front(es), r)
  }

  lemma Goes1(cfg: Config, s: State, es: seq<Event>, r: State, e: Event, s': State)
    requires ConfigOk(cfg) && Goes(cfg, s, es, r) && Enabled(cfg, r, e) && Apply(cfg, r, e) == s'
    ensures Goes(cfg, s, es + [e], s')
  {
    hide Apply, Enabled;
    assert Front(es + [e]) == es && Last(es + [e]) == e;
  }

  lemma {:induction false} GoesOn(cfg: Config, s: State, es: seq<Event>, r: State, more: seq<Event>, s': State)
    requires ConfigOk(cfg) && Goes(cfg, s, es, r) && Goes(cfg, r, more, s')
    ensures Goes(cfg, s, es + more, s')
  {
    hide Apply, Enabled;
    if more == [] {
      assert es + more == es;
    } else {
      var x: State :| Enabled(cfg, x, Last(more)) && Apply(cfg, x, Last(more)) == s' && Goes(cfg, r, Front(more), x);
      GoesOn(cfg, s, es, r, Front(more), x);
      assert Front(es + more) == es + Front(more) && Last(es + more) == Last(more);
    }
  }

  /** What one reply makes of the state, when its thread is not interrupted. */
  function Handled(cfg: Config, s: State, p: Packet): State
    requires p.Ack?
  {
    var n := Recorded(s.acks, p.i) + 1;
    s.(net := Remove(s.net, p) + (if n >= cfg.threshold then multiset{AppendResp(p.i, p.r)} else multiset{}), acks := s.acks[p.i := n])
  }

  lemma OneReply(cfg: Config, s: State, t: nat, p: Packet) returns (es: seq<Event>, s': State)
    requires ConfigOk(cfg) && t < |s.threads| && s.threads[t] == Free && p in s.net && p.Ack?
    ensures Goes(cfg, s, es, s') && (forall e :: e in es ==> Works(t, e)) && s' == Handled(cfg, s, p)
  {
    hide Goes, Remove;
    var e := Take(t, p.s, p.i, p.r);
    var a := s.(net := Remove(s.net, p), threads := s.threads[t := Got(p.s, p.i, p.r)]);
    GoesNowhere(cfg, s);
    Goes1(cfg, s, [], s, e, a);
    var n := Recorded(s.acks, p.i) + 1;
    var more, b := OneCount(cfg, a, t);
    assert [] + [e] == [e];
    GoesOn(cfg, s, [e], a, more, b);
    es, s' := [e] + more, Handled(cfg, s, p);
    assert b.threads[t := Free] == s.threads;
    if n < cfg.threshold {
      assert Remove(s.net, p) + multiset{} == Remove(s.net, p) && b.threads == s.threads;
      assert b == s';
    } else {
      Goes1(cfg, s, es, b, Handle(t), s');
      es := es + [Handle(t)];
    }
  }

  /** A thread that has taken a reply counts it, in one step or in two. */
  lemma OneCount(cfg: Config, a: State, t: nat) returns (es: seq<Event>, b: State)
    requires ConfigOk(cfg) && t < |a.threads| && a.threads[t].Got?
    ensures Goes(cfg, a, es, b) && forall e :: e in es ==> Works(t, e)
    ensures var Got(_, i, r) := a.threads[t];
      var n := Recorded(a.acks, i) + 1;
      b == a.(acks := a.acks[i := n], threads := a.threads[t := Counted(cfg, n, i, r)])
  {
    hide Goes;
    var Got(_, i, r) := a.threads[t];
    var n := Recorded(a.acks, i) + 1;
    b := a.(acks := a.acks[i := n], threads := a.threads[t := Counted(cfg, n, i, r)]);
    GoesNowhere(cfg, a);
    es := [];
    var m := a;
    if i !in a.acks {
      m := a.(threads := a.threads[t := Missed(i, r)]);
      Goes1(cfg, a, es, a, Handle(t), m);
      es := es + [Handle(t)];
    }
    Goes1(cfg, a, es, m, Handle(t), b);
    es := es + [Handle(t)];
  }

  lemma GoesNowhere(cfg: Config, s: State)
    requires ConfigOk(cfg)
    ensures Goes(cfg, s, [], s)
  {
  }

  /** `n` replies of a batch are counted and answered, from the state `s` on. */
  ghost predicate Round(cfg: Config, s: State, t: nat, acks: map<nat, nat>, batch: seq<Packet>, n: nat, answers: seq<Packet>, es: seq<Event>, s': State)
    requires ConfigOk(cfg)
  {
    n <= |batch| && RoundAnswers(cfg.threshold, s.acks, acks, batch, n, answers) && RoundSteps(cfg, s, t, acks, batch, n, answers, es, s')
  }

  ghost predicate RoundAnswers(threshold: nat, before: map<nat, nat>, acks: map<nat, nat>, batch: seq<Packet>, n: nat, answers: seq<Packet>)
    requires n <= |batch|
  {
    && (forall i :: Recorded(acks, i) == Recorded(before, i) + Replies(batch[..n], i))
    && (exists ns: seq<nat> :: Picks(threshold, before, batch, n, ns) && Answers(batch, ns, answers))
  }

  ghost predicate RoundSteps(cfg: Config, s: State, t: nat, acks: map<nat, nat>, batch: seq<Packet>, n: nat, answers: seq<Packet>, es: seq<Event>, s': State)
    requires ConfigOk(cfg) && n <= |batch|
  {
    && Goes(cfg, s, es, s') && (forall e :: e in es ==> Works(t, e))
    && s' == s.(acks := acks, net := s.net - multiset(batch[..n]) + multiset(answers))
  }

  /** The answers with that to the next reply, which brings the count of its number to `c`. */
  function WithAnswer(threshold: nat, answers: seq<Packet>, p: Packet, c: nat): seq<Packet>
    requires p.Ack?
  {
    if c >= threshold then answers + [AppendResp(p.i, p.r)] else answers
  }

  lemma RoundStarts(cfg: Config, s: State, t: nat, batch: seq<Packet>)
    requires ConfigOk(cfg)
    ensures Round(cfg, s, t, s.acks, batch, 0, [], [], s)
  {
    assert Picks(cfg.threshold, s.acks, batch, 0, []) && Answers(batch, [], []);
    assert s.net - multiset(batch[..0]) + multiset([]) == s.net;
  }

  lemma AnswersGoOn(threshold: nat, before: map<nat, nat>, acks: map<nat, nat>, batch: seq<Packet>, n: nat, answers: seq<Packet>)
    requires n < |batch| && batch[n].Ack? && RoundAnswers(threshold, before, acks, batch, n, answers)
    ensures var p := batch[n];
      var c := Recorded(acks, p.i) + 1;
      RoundAnswers(threshold, before, acks[p.i := c], batch, n + 1, WithAnswer(threshold, answers, p, c))
  {
    hide Picks, Answers, Replies, Completes;
    CountsOn(batch, n);
    CompletesExactly(threshold, before, batch, n);
    var ns: seq<nat> :| Picks(threshold, before, batch, n, ns) && Answers(batch, ns, answers);
    PicksOn(threshold, before, batch, n, ns, answers, Recorded(acks, batch[n].i) + 1 >= threshold);
  }

  lemma StepsGoOn(cfg: Config, s: State, t: nat, acks: map<nat, nat>, batch: seq<Packet>, n: nat, answers: seq<Packet>, es: seq<Event>, s': State)
    returns (es': seq<Event>, s'': State)
    requires ConfigOk(cfg) && n < |batch| && batch[n].Ack? && multiset(batch) <= s.net && t < |s.threads| && s.threads[t] == Free
    requires RoundSteps(cfg, s, t, acks, batch, n, answers, es, s')
    ensures var p := batch[n];
      var c := Recorded(acks, p.i) + 1;
      RoundSteps(cfg, s, t, acks[p.i := c], batch, n + 1, WithAnswer(cfg.threshold, answers, p, c), es', s'')
  {
    hide Goes, Handled, Recorded, Remove, WithAnswer, Works;
    var p := batch[n];
    NextTaken(s.net, batch, n, answers);
    var more, r := OneReply(cfg, s', t, p);
    GoesOn(cfg, s, es, s', more, r);
    HandledOn(cfg, s', p, answers, s.net - multiset(batch[..n + 1]));
    es', s'' := es + more, r;
  }

  lemma RoundGoesOn(cfg: Config, s: State, t: nat, acks: map<nat, nat>, batch: seq<Packet>, n: nat, answers: seq<Packet>, es: seq<Event>, s': State)
    returns (es': seq<Event>, s'': State)
    requires ConfigOk(cfg) && n < |batch| && batch[n].Ack? && multiset(batch) <= s.net && t < |s.threads| && s.threads[t] == Free
    requires Round(cfg, s, t, acks, batch, n, answers, es, s')
    ensures var p := batch[n];
      var c := Recorded(acks, p.i) + 1;
      Round(cfg, s, t, acks[p.i := c], batch, n + 1, WithAnswer(cfg.threshold, answers, p, c), es', s'')
  {
    hide RoundAnswers, RoundSteps;
    AnswersGoOn(cfg.threshold, s.acks, acks, batch, n, answers);
    es', s'' := StepsGoOn(cfg, s, t, acks, batch, n, answers, es, s');
  }

  lemma RoundEnds(cfg: Config, s: State, t: nat, acks: map<nat, nat>, batch: seq<Packet>, answers: seq<Packet>, es: seq<Event>, s': State)
    requires ConfigOk(cfg) && Round(cfg, s, t, acks, batch, |batch|, answers, es, s')
    ensures forall i :: Recorded(acks, i) == Recorded(s.acks, i) + Replies(batch, i)
    ensures AnswersTo(cfg.threshold, s.acks, batch, answers)
    ensures Goes(cfg, s, es, s') && forall e :: e in es ==> Works(t, e)
    ensures s' == s.(acks := acks, net := s.net - multiset(batch) + multiset(answers))
  {
    assert batch[..|batch|] == batch;
  }

  lemma CountsOn(batch: seq<Packet>, n: nat)
    requires n < |batch| && batch[n].Ack?
    ensures forall i :: Replies(batch[..n + 1], i) == Replies(batch[..n], i) + if batch[n].i == i then 1 else 0
  {
    assert Front(batch[..n + 1]) == batch[..n] && Last(batch[..n + 1]) == batch[n];
  }

  lemma CompletesExactly(threshold: nat, acks: map<nat, nat>, batch: seq<Packet>, n: nat)
    requires n < |batch| && batch[n].Ack?
    ensures Completes(threshold, acks, batch, n) <==> Recorded(acks, batch[n].i) + Replies(batch[..n + 1], batch[n].i) >= threshold
  {
  }

  lemma PicksOn(threshold: nat, acks: map<nat, nat>, batch: seq<Packet>, n: nat, ns: seq<nat>, answers: seq<Packet>, enough: bool)
    requires n < |batch| && batch[n].Ack? && (enough <==> Completes(threshold, acks, batch, n))
    requires Picks(threshold, acks, batch, n, ns) && Answers(batch, ns, answers)
    ensures var p := batch[n];
      if enough then Picks(threshold, acks, batch, n + 1, ns + [n]) && Answers(batch, ns + [n], answers + [AppendResp(p.i, p.r)])
      else Picks(threshold, acks, batch, n + 1, ns)
  {
    hide Completes;
  }

  lemma HandledOn(cfg: Config, s: State, p: Packet, answers: seq<Packet>, left: multiset<Packet>)
    requires p.Ack? && Remove(s.net, p) == left + multiset(answers)
    ensures Handled(cfg, s, p).acks == s.acks[p.i := Recorded(s.acks, p.i) + 1]
    ensures Handled(cfg, s, p) == s.(acks := Handled(cfg, s, p).acks, net := Handled(cfg, s, p).net)
    ensures Handled(cfg, s, p).net == left + multiset(WithAnswer(cfg.threshold, answers, p, Recorded(s.acks, p.i) + 1))
  {
  }

  lemma NextTaken(net: multiset<Packet>, batch: seq<Packet>, n: nat, answers: seq<Packet>)
    requires n < |batch| && multiset(batch) <= net
    ensures batch[n] in net - multiset(batch[..n]) + multiset(answers)
    ensures Remove(net - multiset(batch[..n]) + multiset(answers), batch[n]) == net - multiset(batch[..n + 1]) + multiset(answers)
  {
    assert batch == batch[..n] + [batch[n]] + batch[n + 1..];
    assert batch[..n + 1] == batch[..n] + [batch[n]];
  }

  class LogClient {
    const id: Client
    var appendNonce: nat
    var highestIdxSeen: nat

    /** Waits for the response with the nonce of the append; 0 if the client ends first. Responses to
        earlier appends are passed over. */
    method AwaitAppend(inbox: seq<Packet>) returns (returnIdx: nat)
      modifies this`appendNonce, this`highestIdxSeen
      ensures appendNonce == old(appendNonce) + 1
      ensures if exists j :: 0 <= j < |inbox| && Matches(inbox[j], old(appendNonce))
              then exists j: nat :: FirstMatch(inbox, j, old(appendNonce)) && returnIdx == inbox[j].i == highestIdxSeen
              else returnIdx == 0 && highestIdxSeen == old(highestIdxSeen)
    {
      returnIdx := 0;
      var gotQuorum, n := false, 0;
      while !gotQuorum && n < |inbox|
        invariant 0 <= n <= |inbox| && appendNonce == old(appendNonce)
        invariant if gotQuorum then n > 0 && FirstMatch(inbox, n - 1, appendNonce) && returnIdx == inbox[n - 1].i == highestIdxSeen
                  else returnIdx == 0 && highestIdxSeen == old(highestIdxSeen) && forall j :: 0 <= j < n ==> !Matches(inbox[j], appendNonce)
      {
        if Matches(inbox[n], appendNonce) {
          highestIdxSeen := inbox[n].i;
          returnIdx := inbox[n].i;
          gotQuorum := true;
        }
        n := n + 1;
      }
      appendNonce := appendNonce + 1;
    }
  }

  predicate Matches(p: Packet, nonce: nat) {
    p.AppendResp? && p.r.nonce == nonce
  }

  ghost predicate FirstMatch(inbox: seq<Packet>, j: nat, nonce: nat) {
    j < |inbox| && Matches(inbox[j], nonce) && forall m :: 0 <= m < j ==> !Matches(inbox[m], nonce)
  }
}
