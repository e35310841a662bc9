/** What holds of every run of the shared log's append protocol. */
module SharedLogTheorems {
  import opened Wrappers
  import opened SharedLog
  import opened SharedLogProof
  import ShardTable

  ghost predicate Start(cfg: Config, s: State, a: Aux) {
    && ConfigOk(cfg) && a == Aux([], [], {}, {}, map[])
    && s.net == multiset{} == s.outbox && s.maxIdx == 0 && s.table == ShardTable.EMPTY && s.acks == map[] && s.stor == map[]
    && (forall t :: 0 <= t < |s.threads| ==> s.threads[t] == Free)
    && (forall c :: c in s.clients ==> s.clients[c].waiting == None)
  }

  ghost predicate Leads(cfg: Config, r: State, b: Aux, e: Event, s: State, a: Aux) {
    ConfigOk(cfg) && Enabled(cfg, r, e) && Apply(cfg, r, e) == s && AuxApply(cfg, r, b, e) == a
  }

  ghost predicate Traces(cfg: Config, es: seq<Event>, s: State, a: Aux) {
    if es == [] then Start(cfg, s, a)
    else exists r: State, b: Aux :: Leads(cfg, r, b, Last(es), s, a) && Traces(cfg, Front(es), r, b)
  }

  lemma {:induction false} NoneUncounted(threads: seq<Handler>, i: nat)
    requires forall t :: 0 <= t < |threads| ==> threads[t] == Free
    ensures Uncounted(threads, i) == 0
  {
    if threads != [] { NoneUncounted(Front(threads), i); }
  }

  lemma StartInv(cfg: Config, s: State, a: Aux)
    requires Start(cfg, s, a)
    ensures Inv(cfg, s, a)
  {
    forall sv, i, r ensures Once(s.net, s.outbox, a.received, sv, i, r) { }
    forall i: nat ensures Recorded(s.acks, i) + Uncounted(s.threads, i) <= |Voters(a.received, i)| { NoneUncounted(s.threads, i); }
    assert Keys(cfg, []) == [];
  }

  lemma {:induction false} TracedInv(cfg: Config, es: seq<Event>, s: State, a: Aux)
    requires Traces(cfg, es, s, a)
    ensures Inv(cfg, s, a)
  {
    hide Inv, Start, Apply, AuxApply, Enabled;
    if es == [] {
      StartInv(cfg, s, a);
    } else {
      var r: State, b: Aux :| Leads(cfg, r, b, Last(es), s, a) && Traces(cfg, Front(es), r, b);
      TracedInv(cfg, Front(es), r, b);
      EventKeepsInv(cfg, r, b, Last(es));
    }
  }

  /** The entry with number `i` is the request's, and these servers of its shard hold it. */
  ghost predicate HeldBy(cfg: Config, s: State, a: Aux, i: nat, holders: set<Server>) {
    1 <= i <= |a.reqs| == |a.dests| && a.dests[i - 1] < |cfg.shards| && holders <= cfg.shards[a.dests[i - 1]]
    && forall v :: v in holders ==> (v, i) in s.stor && s.stor[(v, i)] == a.reqs[i - 1].entry
  }

  /** Those whose reply was taken hold the entry. */
  lemma VotersHold(cfg: Config, s: State, a: Aux, i: nat)
    requires Inv(cfg, s, a) && 1 <= i <= |a.reqs|
    ensures HeldBy(cfg, s, a, i, Voters(a.received, i))
    ensures Recorded(s.acks, i) <= |Voters(a.received, i)|
  {
  }

  /** Number `i` was given to the one request of the client with the nonce, and to no other. */
  ghost predicate OwnNumber(a: Aux, k: (Client, nat), i: nat) {
    && 1 <= i <= |a.reqs|
    && var r := a.reqs[i - 1];
    && r.client == k.0 && r.nonce == k.1 && r in a.asked
    && (forall q :: q in a.asked && q.client == k.0 && q.nonce == k.1 ==> q == r)
    && (forall j :: Given(a.reqs, j, r) ==> j == i)
  }

  /**
   An append of a client, with some nonce, that returns number `i` was given that number by the switch,
   as its only request with that nonce and with no other number; and at least `threshold` distinct
   servers of its shard hold just its entry under `i`.
   */
  lemma AppendSafe(cfg: Config, es: seq<Event>, s: State, a: Aux, c: Client, n: nat)
    requires Traces(cfg, es, s, a) && (c, n) in a.answers
    ensures OwnNumber(a, (c, n), a.answers[(c, n)])
    ensures exists holders :: HeldBy(cfg, s, a, a.answers[(c, n)], holders) && |holders| >= cfg.threshold
  {
    hide Inv, Traces, HeldBy, Voters;
    TracedInv(cfg, es, s, a);
    AnswerFacts(cfg, s, a, (c, n));
    var i := a.answers[(c, n)];
    VotersHold(cfg, s, a, i);
    assert HeldBy(cfg, s, a, i, Voters(a.received, i));
  }

  lemma AnswerFacts(cfg: Config, s: State, a: Aux, k: (Client, nat))
    requires Inv(cfg, s, a) && k in a.answers
    ensures OwnNumber(a, k, a.answers[k]) && Recorded(s.acks, a.answers[k]) >= cfg.threshold
  {
    hide ContentOk, ThreadsContent, OnceOk, SentOk, StoredOk, RepliesOk, CountsOk, ResponsesOk, ShardsOk;
    var i := a.answers[k];
    assert Answered(a.reqs, k, i);
    assert a.reqs[i - 1] in a.asked;
  }

  /** The count of replies never exceeds the replies that were taken from distinct servers, for any
      number of threads. */
  lemma CountedAtMost(cfg: Config, es: seq<Event>, s: State, a: Aux, i: nat)
    requires Traces(cfg, es, s, a) && i in s.acks
    ensures s.acks[i] <= |Voters(a.received, i)|
  {
    hide ContentOk, ThreadsContent, RequestsOk, ClientsOk, OnceOk, SentOk, StoredOk, RepliesOk, ResponsesOk, AnswersOk, ShardsOk, Voters;
    TracedInv(cfg, es, s, a);
    assert Recorded(s.acks, i) + Uncounted(s.threads, i) <= |Voters(a.received, i)|;
  }

  /** Numbers are given in order, without gaps, each to a request that gets no other. */
  lemma NumbersUnique(cfg: Config, es: seq<Event>, s: State, a: Aux)
    requires Traces(cfg, es, s, a)
    ensures s.maxIdx == |a.reqs|
    ensures forall i, j :: 0 <= i < j < |a.reqs| ==> a.reqs[i] != a.reqs[j]
    ensures forall k, m :: k in a.answers && m in a.answers && a.answers[k] == a.answers[m] ==> k == m
  {
    hide ContentOk, ThreadsContent, ClientsOk, OnceOk, SentOk, StoredOk, RepliesOk, ResponsesOk, CountsOk, ShardsOk;
    TracedInv(cfg, es, s, a);
    forall k, m | k in a.answers && m in a.answers && a.answers[k] == a.answers[m] ensures k == m {
      assert Answered(a.reqs, k, a.answers[k]) && Answered(a.reqs, m, a.answers[m]);
    }
  }

  // ---- What is so stays so ----

  /** What servers hold, the numbers given, the counts and the answers only grow. */
  ghost predicate Grows(cfg: Config, s: State, a: Aux, s': State, a': Aux) {
    && s.maxIdx <= s'.maxIdx && a.reqs <= a'.reqs && a.dests <= a'.dests && a.received <= a'.received
    && (forall k :: k in s.stor ==> k in s'.stor && s'.stor[k] == s.stor[k])
    && (forall i :: i in s.acks ==> i in s'.acks && s'.acks[i] >= s.acks[i])
    && (forall k :: k in s.table.shardOf ==> k in s'.table.shardOf && s'.table.shardOf[k] == s.table.shardOf[k])
    && (forall k :: k in a.answers ==> k in a'.answers && a'.answers[k] == a.answers[k])
  }

  lemma StepGrows(cfg: Config, s: State, a: Aux, e: Event)
    requires Inv(cfg, s, a) && Enabled(cfg, s, e)
    ensures Grows(cfg, s, a, Apply(cfg, s, e), AuxApply(cfg, s, a, e))
  {
    hide Inv, Grows, Enabled, Apply, AuxApply;
    assert ConfigOk(cfg) by { ConfigGood(cfg, s, a); }
    match e
    case Receive(i, r) => ReceiveGrows(cfg, s, a, e);
    case Handle(t) => HandleGrows(cfg, s, a, e);
    case _ => OtherGrows(cfg, s, a, e);
  }

  lemma ReceiveGrows(cfg: Config, s: State, a: Aux, e: Event)
    requires Inv(cfg, s, a) && Enabled(cfg, s, e) && e.Receive?
    ensures ConfigOk(cfg) && Grows(cfg, s, a, Apply(cfg, s, e), AuxApply(cfg, s, a, e))
  {
    hide Inv, Remove;
    ConfigGood(cfg, s, a);
    NotAnswered(cfg, s, a, e.i, e.r);
  }

  lemma HandleGrows(cfg: Config, s: State, a: Aux, e: Event)
    requires ConfigOk(cfg) && Enabled(cfg, s, e) && e.Handle?
    ensures Grows(cfg, s, a, Apply(cfg, s, e), AuxApply(cfg, s, a, e))
  {
  }

  lemma OtherGrows(cfg: Config, s: State, a: Aux, e: Event)
    requires ConfigOk(cfg) && Enabled(cfg, s, e) && !e.Handle? && !e.Receive?
    ensures Grows(cfg, s, a, Apply(cfg, s, e), AuxApply(cfg, s, a, e))
  {
  }

  lemma ConfigGood(cfg: Config, s: State, a: Aux)
    requires Inv(cfg, s, a)
    ensures ConfigOk(cfg)
  {
  }

  /** A client that waits has had no answer with its nonce. */
  lemma NotAnswered(cfg: Config, s: State, a: Aux, i: nat, r: Req)
    requires Inv(cfg, s, a) && AppendResp(i, r) in s.net
    ensures (r.client, r.nonce) in a.answers ==> a.answers[(r.client, r.nonce)] == i
  {
  }

  /** A run on from a state. */
  ghost predicate Continues(cfg: Config, s: State, a: Aux, es: seq<Event>, s': State, a': Aux) {
    if es == [] then s' == s && a' == a
    else exists r: State, b: Aux :: Leads(cfg, r, b, Last(es), s', a') && Continues(cfg, s, a, Front(es), r, b)
  }

  lemma {:induction false} ContinuedGrows(cfg: Config, s: State, a: Aux, es: seq<Event>, s': State, a': Aux)
    requires Inv(cfg, s, a) && Continues(cfg, s, a, es, s', a')
    ensures Inv(cfg, s', a') && Grows(cfg, s, a, s', a')
  {
    hide Inv, Apply, AuxApply, Enabled;
    if es != [] {
      var r: State, b: Aux :| Leads(cfg, r, b, Last(es), s', a') && Continues(cfg, s, a, Front(es), r, b);
      ContinuedGrows(cfg, s, a, Front(es), r, b);
      EventKeepsInv(cfg, r, b, Last(es));
      StepGrows(cfg, r, b, Last(es));
      GrowsOn(cfg, s, a, r, b, s', a');
    }
  }

  lemma GrowsOn(cfg: Config, s: State, a: Aux, r: State, b: Aux, s': State, a': Aux)
    requires Grows(cfg, s, a, r, b) && Grows(cfg, r, b, s', a')
    ensures Grows(cfg, s, a, s', a')
  {
  }

  /** Whatever happens next, the servers that hold an entry hold it forever, and an answer stands. */
  lemma HeldForever(cfg: Config, es: seq<Event>, s: State, a: Aux, more: seq<Event>, s': State, a': Aux, i: nat, holders: set<Server>)
    requires Traces(cfg, es, s, a) && Continues(cfg, s, a, more, s', a') && HeldBy(cfg, s, a, i, holders)
    ensures HeldBy(cfg, s', a', i, holders) && a'.reqs[i - 1] == a.reqs[i - 1]
    ensures forall k :: k in a.answers && a.answers[k] == i ==> k in a'.answers && a'.answers[k] == i
  {
    hide Inv;
    TracedInv(cfg, es, s, a);
    ContinuedGrows(cfg, s, a, more, s', a');
    assert |a'.reqs| == |a'.dests| by { SameLength(cfg, s', a'); }
  }

  lemma SameLength(cfg: Config, s: State, a: Aux)
    requires Inv(cfg, s, a)
    ensures |a.reqs| == |a.dests|
  {
  }

  // ---- What is asked is what was called for, and what is counted is answered ----

  /** Every request of a run, and so every entry that has a number, is that of a client's call. */
  lemma {:induction false} RequestsAsGiven(cfg: Config, es: seq<Event>, s: State, a: Aux, r: Req)
    requires Traces(cfg, es, s, a) && r in a.asked
    ensures Append(r.client, r.stream, r.entry) in es
  {
    hide Apply, Enabled, Start;
    if es == [] {
      NothingAsked(cfg, s, a);
    } else {
      var q: State, b: Aux :| Leads(cfg, q, b, Last(es), s, a) && Traces(cfg, Front(es), q, b);
      if r in b.asked { RequestsAsGiven(cfg, Front(es), q, b, r); }
    }
  }

  lemma NothingAsked(cfg: Config, s: State, a: Aux)
    requires Start(cfg, s, a)
    ensures a.asked == {} && s.acks == map[]
  {
  }

  /** A thread that counts a reply and finds enough of them goes on to answer, and sends the number to the
      client with its next step; one that does not is free again. */
  lemma CountingAnswers(cfg: Config, s: State, t: nat)
    requires ConfigOk(cfg) && Enabled(cfg, s, Handle(t))
    ensures var s', h := Apply(cfg, s, Handle(t)), s.threads[t];
      if h.Answering? then s'.net == s.net + multiset{AppendResp(h.i, h.r)} && s'.acks == s.acks && s'.threads[t] == Free
      else if s'.acks == s.acks then s'.threads[t] == (if h.Got? then Missed(h.i, h.r) else Free) && (h.Got? <==> h.i !in s.acks)
      else
        && s'.acks == s.acks[h.i := Recorded(s.acks, h.i) + 1]
        && (s'.threads[t] == Answering(h.i, h.r) <==> Recorded(s'.acks, h.i) >= cfg.threshold)
        && (s'.threads[t] == Free <==> Recorded(s'.acks, h.i) < cfg.threshold)
  {
  }

  /** A run with all its states. */
  ghost predicate Passes(cfg: Config, es: seq<Event>, ss: seq<State>, hs: seq<Aux>) {
    && |ss| == |hs| == |es| + 1 && Start(cfg, ss[0], hs[0])
    && forall p :: 0 <= p < |es| ==> Leads(cfg, ss[p], hs[p], es[p], ss[p + 1], hs[p + 1])
  }

  lemma {:induction false} PassedTraces(cfg: Config, es: seq<Event>, ss: seq<State>, hs: seq<Aux>, p: nat)
    requires Passes(cfg, es, ss, hs) && p <= |es|
    ensures Traces(cfg, es[..p], ss[p], hs[p])
  {
    hide Start, Leads;
    if p > 0 {
      PassedTraces(cfg, es, ss, hs, p - 1);
      assert Front(es[..p]) == es[..p - 1] && Last(es[..p]) == es[p - 1];
      assert Leads(cfg, ss[p - 1], hs[p - 1], es[p - 1], ss[p - 1 + 1], hs[p - 1 + 1]);
    }
  }

  /** A thread answers number `i`, with the request that was given it. */
  predicate IsAnswering(s: State, a: Aux, t: nat, i: nat) {
    t < |s.threads| && s.threads[t].Answering? && s.threads[t].i == i && Given(a.reqs, i, s.threads[t].r)
  }

  lemma ReachedNow(cfg: Config, s: State, a: Aux, e: Event, s': State, a': Aux, i: nat)
    requires Inv(cfg, s, a) && Leads(cfg, s, a, e, s', a') && Enough(cfg, s'.acks, i) && !Enough(cfg, s.acks, i)
    ensures e.Handle? && IsAnswering(s', a', e.t, i)
  {
    hide RequestsOk, ClientsOk, OnceOk, SentOk, StoredOk, RepliesOk, CountsOk, ResponsesOk, ShardsOk, AnswersOk, ContentOk, Positive;
    if e.Handle? { CountingAnswers(cfg, s, e.t); }
  }

  /** In every run, a number whose count has reached the threshold was answered by a thread, to the request
      that was given it. */
  lemma {:induction false} EnoughWasAnswered(cfg: Config, es: seq<Event>, ss: seq<State>, hs: seq<Aux>, p: nat, i: nat)
    requires Passes(cfg, es, ss, hs) && p <= |es| && Enough(cfg, ss[p].acks, i)
    ensures exists q: nat, t: nat :: q <= p && IsAnswering(ss[q], hs[q], t, i)
  {
    hide Leads, Start, Inv, Traces, IsAnswering, Enough;
    if p == 0 {
      NothingAsked(cfg, ss[0], hs[0]);
      NotEnough(cfg, ss[0].acks, i);
    } else {
      assert Leads(cfg, ss[p - 1], hs[p - 1], es[p - 1], ss[p - 1 + 1], hs[p - 1 + 1]);
      if Enough(cfg, ss[p - 1].acks, i) {
        EnoughWasAnswered(cfg, es, ss, hs, p - 1, i);
      } else {
        PassedTraces(cfg, es, ss, hs, p - 1);
        TracedInv(cfg, es[..p - 1], ss[p - 1], hs[p - 1]);
        ReachedNow(cfg, ss[p - 1], hs[p - 1], es[p - 1], ss[p], hs[p], i);
        assert IsAnswering(ss[p], hs[p], es[p - 1].t, i);
      }
    }
  }

  lemma NotEnough(cfg: Config, acks: map<nat, nat>, i: nat)
    ensures acks == map[] ==> !Enough(cfg, acks, i)
  {
  }

  /** A client that waits for an answer with a nonce takes the first one, with its number; any other changes
      nothing. */
  lemma ReceiveAnswers(cfg: Config, s: State, a: Aux, i: nat, r: Req)
    requires ConfigOk(cfg) && Enabled(cfg, s, Receive(i, r))
    ensures var s', a', c := Apply(cfg, s, Receive(i, r)), AuxApply(cfg, s, a, Receive(i, r)), s.clients[r.client];
      if c.waiting.Some? && c.nonce == r.nonce then
        (r.client, r.nonce) in a'.answers && a'.answers[(r.client, r.nonce)] == i && s'.clients[r.client].waiting == None
        && s'.clients[r.client].nonce == r.nonce + 1
      else s'.clients == s.clients && a'.answers == a.answers
  {
  }

  // ---- Shards ----

  lemma ShardFacts(cfg: Config, s: State, a: Aux)
    requires Inv(cfg, s, a)
    ensures ConfigOk(cfg) && s.maxIdx == |a.reqs| == |a.dests| && ShardsOk(cfg, s.table, a.reqs, a.dests)
  {
  }

  /** Without streams, number `i` is kept by shard (i - 1) mod n. */
  lemma ShardOfNumber(cfg: Config, es: seq<Event>, s: State, a: Aux, i: nat)
    requires Traces(cfg, es, s, a) && !cfg.useStreams && 1 <= i <= s.maxIdx
    ensures |a.dests| == s.maxIdx && |cfg.shards| > 0 && a.dests[i - 1] == (i - 1) % |cfg.shards|
  {
    hide Inv, Traces, ShardTable.After, ShardTable.Find;
    TracedInv(cfg, es, s, a);
    ShardFacts(cfg, s, a);
    var n := |cfg.shards|;
    assert Keys(cfg, a.reqs) == ShardTable.IndexKeys(s.maxIdx, n);
    ShardTable.IndexShard(i, s.maxIdx, n);
    assert Placed(cfg, s.table, i - 1 + 1, a.reqs[i - 1].stream, a.dests[i - 1]);
  }

  function Streams(reqs: seq<Req>): seq<nat> {
    seq(|reqs|, j requires 0 <= j < |reqs| => reqs[j].stream)
  }

  /** With streams, the entries of a stream are all kept by the shard of the stream, k mod n for the
      k-th new one. */
  lemma ShardOfStream(cfg: Config, es: seq<Event>, s: State, a: Aux, i: nat, k: nat)
    requires Traces(cfg, es, s, a) && cfg.useStreams && 1 <= i <= s.maxIdx == |a.reqs|
    requires var order := ShardTable.NewKeys(Streams(a.reqs)); k < |order| && order[k] == a.reqs[i - 1].stream
    ensures |a.dests| == s.maxIdx && |cfg.shards| > 0 && a.dests[i - 1] == k % |cfg.shards|
  {
    hide Inv, Traces, ShardTable.After, ShardTable.Residue, ShardsOk;
    TracedInv(cfg, es, s, a);
    ShardFacts(cfg, s, a);
    StreamShard(cfg, s.table, a.reqs, a.dests, i, k);
  }

  lemma StreamShard(cfg: Config, table: ShardTable.Table, reqs: seq<Req>, dests: seq<nat>, i: nat, k: nat)
    requires ConfigOk(cfg) && cfg.useStreams && 1 <= i <= |reqs| && ShardsOk(cfg, table, reqs, dests)
    requires var order := ShardTable.NewKeys(Streams(reqs)); k < |order| && order[k] == reqs[i - 1].stream
    ensures |dests| == |reqs| && dests[i - 1] == k % |cfg.shards|
  {
    hide ShardTable.After, ShardTable.Residue, ShardTable.NewKeys;
    ShardTable.ResidueIs(k, |cfg.shards|);
    assert Keys(cfg, reqs) == Streams(reqs);
    ShardTable.ClosedForm(Keys(cfg, reqs), |cfg.shards|);
    assert Placed(cfg, table, i - 1 + 1, reqs[i - 1].stream, dests[i - 1]);
  }
}
