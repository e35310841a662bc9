/**
 Reading the shared log, beside the appends. The switch forwards a read to the shard of its number once
 that has been appended with enough replies; it sends a read that is too early back to itself, and
 rejects one beyond the last number. A server answers with the entry that it holds, or with none.
 The switch also answers with the last number that it has given.
 */
module Reads {
  import opened Wrappers
  import opened SharedLog
  import SharedLogProof
  import SharedLogTheorems
  import ShardTable

  /** A read names a stream; `s` is the server that a read is forwarded to, and whose answer it is. */
  datatype RPacket =
    | ReadReq(c: Client, n: nat, i: nat, stream: nat)
    | Rejected(c: Client, n: nat, i: nat)
    | Forward(s: Server, c: Client, n: nat, i: nat, stream: nat)
    | Reply(s: Server, c: Client, n: nat, i: nat, stream: nat, x: Option<Entry>)
    | ReadResp(s: Server, c: Client, n: nat, i: nat, stream: nat, x: Option<Entry>)
    | TailReq(c: Client, n: nat)
    | TailResp(c: Client, n: nat, t: nat)

  /** `waiting` is the number that the client reads. */
  datatype Reader = Reader(nonce: nat, waiting: Option<nat>)

  datatype RState = RState(log: State, rnet: multiset<RPacket>, readers: map<Client, Reader>)

  datatype REvent =
    | Log(e: Event)
    | LoseRead(p: RPacket)
    | Read(c: Client, i: nat, stream: nat)
    | Route(p: RPacket)        // the switch takes a read
    | Serve(p: RPacket)        // a server takes a forwarded read
    | Relay(p: RPacket)        // the switch takes a reply
    | Deliver(p: RPacket)      // a client takes a response
    | AskTail(c: Client, n: nat)
    | TellTail(p: RPacket)     // the switch takes a question for the tail

  predicate REnabled(cfg: Config, s: RState, e: REvent) {
    match e
    case Log(le) => Enabled(cfg, s.log, le)
    case LoseRead(p) => p in s.rnet
    case Read(c, _, _) => c in s.readers && s.readers[c].waiting == None && s.readers[c].nonce + 1 < LIMIT
    case Route(p) => p in s.rnet && p.ReadReq?
    case Serve(p) => p in s.rnet && p.Forward?
    case Relay(p) => p in s.rnet && p.Reply?
    case Deliver(p) => p in s.rnet && p.ReadResp? && p.c in s.readers
    case AskTail(_, _) => true
    case TellTail(p) => p in s.rnet && p.TailReq?
  }

  /** Where the switch sends a read, if anywhere. */
  datatype Verdict = Reject | Recirculate | ToShard(d: nat)

  function Judge(cfg: Config, s: State, i: nat, stream: nat): Verdict
    requires ConfigOk(cfg)
  {
    if i > s.maxIdx then Reject
    else if !Enough(cfg, s.acks, i) then Recirculate
    else
      match ShardTable.Find(s.table, Key(cfg, i, stream))
      case None => Reject
      case Some(d) => if d >= |cfg.shards| || cfg.shards[d] == {} then Reject else ToShard(d)
  }

  function Forwards(shard: set<Server>, c: Client, n: nat, i: nat, stream: nat): multiset<RPacket> {
    multiset(set s | s in shard :: Forward(s, c, n, i, stream))
  }

  function Lookup(stor: map<(Server, nat), Entry>, s: Server, i: nat): Option<Entry> {
    if (s, i) in stor then Some(stor[(s, i)]) else None
  }

  function RApply(cfg: Config, s: RState, e: REvent): RState
    requires ConfigOk(cfg) && REnabled(cfg, s, e)
  {
    match e
    case Log(le) => s.(log := Apply(cfg, s.log, le))
    case LoseRead(p) => s.(rnet := s.rnet - multiset{p})
    case Read(c, i, stream) =>
      s.(rnet := s.rnet + multiset{ReadReq(c, s.readers[c].nonce, i, stream)}, readers := s.readers[c := s.readers[c].(waiting := Some(i))])
    case Route(p) =>
      (match Judge(cfg, s.log, p.i, p.stream)
       case Recirculate => s
       case Reject => s.(rnet := s.rnet - multiset{p} + multiset{Rejected(p.c, p.n, p.i)})
       case ToShard(d) => if d < |cfg.shards| then s.(rnet := s.rnet - multiset{p} + Forwards(cfg.shards[d], p.c, p.n, p.i, p.stream)) else s)
    case Serve(p) => s.(rnet := s.rnet - multiset{p} + multiset{Reply(p.s, p.c, p.n, p.i, p.stream, Lookup(s.log.stor, p.s, p.i))})
    case Relay(p) => s.(rnet := s.rnet - multiset{p} + multiset{ReadResp(p.s, p.c, p.n, p.i, p.stream, p.x)})
    case Deliver(p) =>
      var r := s.readers[p.c];
      s.(rnet := s.rnet - multiset{p},
         readers := if r.waiting.Some? && r.nonce == p.n then s.readers[p.c := Reader(r.nonce + 1, None)] else s.readers)
    case AskTail(c, n) => s.(rnet := s.rnet + multiset{TailReq(c, n)})
    case TellTail(p) => s.(rnet := s.rnet - multiset{p} + multiset{TailResp(p.c, p.n, s.log.maxIdx)})
  }

  /**
   `results` is what the reads returned, by client and nonce.
   `floors` is, for a question for the tail, the last number at the time it was first asked.
   */
  datatype Result = Result(s: Server, i: nat, stream: nat, x: Option<Entry>)

  datatype RAux = RAux(log: Aux, results: map<(Client, nat), Result>, floors: map<(Client, nat), nat>)

  function RAuxApply(cfg: Config, s: RState, a: RAux, e: REvent): RAux
    requires ConfigOk(cfg) && REnabled(cfg, s, e)
  {
    match e
    case Log(le) => a.(log := AuxApply(cfg, s.log, a.log, le))
    case Deliver(p) =>
      var r := s.readers[p.c];
      if r.waiting.Some? && r.nonce == p.n then a.(results := a.results[(p.c, p.n) := Result(p.s, p.i, p.stream, p.x)]) else a
    case AskTail(c, n) => if (c, n) in a.floors then a else a.(floors := a.floors[(c, n) := s.log.maxIdx])
    case _ => a
  }

  // ---- The invariant ----

  /** The number can be read: it was given, and enough replies to it were counted. */
  predicate Readable(cfg: Config, log: State, a: Aux, i: nat) {
    1 <= i <= |a.reqs| == |a.dests| && a.dests[i - 1] < |cfg.shards| && Enough(cfg, log.acks, i)
  }

  /** The read went to the shard to which its stream, or its number, is mapped. */
  predicate Routed(cfg: Config, log: State, s: Server, i: nat, stream: nat) {
    ConfigOk(cfg) && match ShardTable.Find(log.table, Key(cfg, i, stream))
      case None => false
      case Some(d) => d < |cfg.shards| && s in cfg.shards[d]
  }

  /** All servers of the shard of number `i` must reply before an append returns. */
  predicate AllReply(cfg: Config, a: Aux, i: nat) {
    1 <= i <= |a.dests| && a.dests[i - 1] < |cfg.shards| && cfg.threshold >= |cfg.shards[a.dests[i - 1]]|
  }

  /** What server `s` answered for number `i` is its entry or nothing; if all of the shard must reply, it is
      the entry exactly when the server is of the append's shard. */
  predicate Right(cfg: Config, log: State, a: Aux, s: Server, i: nat, stream: nat, x: Option<Entry>) {
    && Readable(cfg, log, a, i) && Routed(cfg, log, s, i, stream)
    && (x.Some? ==> x.value == a.reqs[i - 1].entry && s in cfg.shards[a.dests[i - 1]])
    && (AllReply(cfg, a, i) ==> (x.Some? <==> s in cfg.shards[a.dests[i - 1]]))
  }

  predicate PacketOk(cfg: Config, log: State, a: RAux, p: RPacket) {
    match p
    case Forward(s, _, _, i, stream) => Readable(cfg, log, a.log, i) && Routed(cfg, log, s, i, stream)
    case Reply(s, _, _, i, stream, x) => Right(cfg, log, a.log, s, i, stream, x)
    case ReadResp(s, _, _, i, stream, x) => Right(cfg, log, a.log, s, i, stream, x)
    case TailReq(c, n) => (c, n) in a.floors && a.floors[(c, n)] <= log.maxIdx
    case TailResp(c, n, t) => (c, n) in a.floors && a.floors[(c, n)] <= t <= log.maxIdx
    case _ => true
  }

  ghost predicate PacketsOk(cfg: Config, log: State, a: RAux, rnet: multiset<RPacket>) {
    forall p :: p in rnet ==> PacketOk(cfg, log, a, p)
  }

  predicate ResultOk(cfg: Config, log: State, a: RAux, r: Result) {
    Right(cfg, log, a.log, r.s, r.i, r.stream, r.x)
  }

  ghost predicate ResultsOk(cfg: Config, log: State, a: RAux) {
    && (forall k :: k in a.results ==> ResultOk(cfg, log, a, a.results[k]))
    && (forall k :: k in a.floors ==> a.floors[k] <= log.maxIdx)
  }

  ghost predicate RInv(cfg: Config, s: RState, a: RAux) {
    Inv(cfg, s.log, a.log) && PacketsOk(cfg, s.log, a, s.rnet) && ResultsOk(cfg, s.log, a)
  }

  ghost predicate StepKeeps(cfg: Config, s: RState, a: RAux, e: REvent) {
    ConfigOk(cfg) && REnabled(cfg, s, e) && RInv(cfg, RApply(cfg, s, e), RAuxApply(cfg, s, a, e))
  }

  // ---- Appends go on ----

  lemma RightStays(cfg: Config, s: State, a: Aux, s': State, a': Aux, sv: Server, i: nat, stream: nat, x: Option<Entry>)
    requires SharedLogTheorems.Grows(cfg, s, a, s', a') && Right(cfg, s, a, sv, i, stream, x) && |a'.reqs| == |a'.dests|
    ensures Right(cfg, s', a', sv, i, stream, x)
  {
    hide Key;
  }

  lemma LogKeeps(cfg: Config, s: RState, a: RAux, e: REvent)
    requires RInv(cfg, s, a) && REnabled(cfg, s, e) && e.Log?
    ensures StepKeeps(cfg, s, a, e)
  {
    hide Inv, Apply, AuxApply, Enabled, Right;
    SharedLogProof.EventKeepsInv(cfg, s.log, a.log, e.e);
    SharedLogTheorems.StepGrows(cfg, s.log, a.log, e.e);
    SharedLogTheorems.ConfigGood(cfg, s.log, a.log);
    var s', a' := Apply(cfg, s.log, e.e), AuxApply(cfg, s.log, a.log, e.e);
    SharedLogTheorems.SameLength(cfg, s', a');
    forall p | p in s.rnet ensures PacketOk(cfg, s', a.(log := a'), p) {
      assert PacketOk(cfg, s.log, a, p);
      PacketStays(cfg, s.log, a, s', a', p);
    }
    forall k | k in a.results ensures ResultOk(cfg, s', a.(log := a'), a.results[k]) {
      var r := a.results[k];
      assert ResultOk(cfg, s.log, a, r);
      RightStays(cfg, s.log, a.log, s', a', r.s, r.i, r.stream, r.x);
    }
  }

  lemma PacketStays(cfg: Config, s: State, a: RAux, s': State, a': Aux, p: RPacket)
    requires SharedLogTheorems.Grows(cfg, s, a.log, s', a') && PacketOk(cfg, s, a, p) && |a'.reqs| == |a'.dests|
    ensures PacketOk(cfg, s', a.(log := a'), p)
  {
    hide Key, Right;
    if p.Reply? || p.ReadResp? { RightStays(cfg, s, a.log, s', a', p.s, p.i, p.stream, p.x); }
  }

  // ---- The switch and the servers handle reads ----

  /** The shard that a read is forwarded to is that of the append. */
  lemma SameShard(cfg: Config, s: State, a: Aux, i: nat, stream: nat)
    requires Inv(cfg, s, a) && ConfigOk(cfg) && Judge(cfg, s, i, stream).ToShard?
    ensures Readable(cfg, s, a, i)
    ensures !cfg.useStreams || stream == a.reqs[i - 1].stream ==> Judge(cfg, s, i, stream).d == a.dests[i - 1]
  {
    hide Key, Keys, ShardTable.After, ContentOk, ThreadsContent, RequestsOk, ClientsOk, OnceOk, SentOk, StoredOk, ResponsesOk, AnswersOk;
    CountedGiven(cfg, s, a, i);
    assert Placed(cfg, s.table, i - 1 + 1, a.reqs[i - 1].stream, a.dests[i - 1]);
    KeyOfRead(cfg, i, stream, a.reqs[i - 1].stream);
  }

  lemma KeyOfRead(cfg: Config, i: nat, stream: nat, stream': nat)
    requires ConfigOk(cfg)
    ensures !cfg.useStreams || stream == stream' ==> Key(cfg, i, stream) == Key(cfg, i, stream')
  {
  }

  /** A count is only kept for a number that was given. */
  lemma CountedGiven(cfg: Config, s: State, a: Aux, i: nat)
    requires Inv(cfg, s, a) && i <= s.maxIdx && Enough(cfg, s.acks, i)
    ensures i >= 1
  {
    hide ContentOk, ThreadsContent, RequestsOk, ClientsOk, OnceOk, SentOk, ResponsesOk, AnswersOk, ShardsOk;
    assert Recorded(s.acks, i) + Uncounted(s.threads, i) <= |Voters(a.received, i)|;
    var v :| v in Voters(a.received, i);
    assert (v, i) in a.received;
    assert Held(cfg, a.reqs, a.dests, (v, i).0, (v, i).1, s.stor[(v, i)]);
  }

  lemma ForwardsOf(shard: set<Server>, c: Client, n: nat, i: nat, stream: nat)
    ensures forall p :: p in Forwards(shard, c, n, i, stream) ==> p.Forward? && p.s in shard && p.i == i && p.stream == stream
  {
  }

  lemma Replaced(cfg: Config, log: State, a: RAux, rnet: multiset<RPacket>, p: RPacket, more: multiset<RPacket>)
    requires PacketsOk(cfg, log, a, rnet) && PacketsOk(cfg, log, a, more)
    ensures PacketsOk(cfg, log, a, rnet - multiset{p} + more)
  {
  }

  lemma RouteKeeps(cfg: Config, s: RState, a: RAux, e: REvent)
    requires RInv(cfg, s, a) && REnabled(cfg, s, e) && e.Route?
    ensures StepKeeps(cfg, s, a, e)
  {
    hide Inv, ResultsOk, Readable, Forwards, Key;
    var p := e.p;
    SharedLogTheorems.ConfigGood(cfg, s.log, a.log);
    match Judge(cfg, s.log, p.i, p.stream)
    case Recirculate =>
    case Reject =>
      assert PacketOk(cfg, s.log, a, Rejected(p.c, p.n, p.i));
      Replaced(cfg, s.log, a, s.rnet, p, multiset{Rejected(p.c, p.n, p.i)});
    case ToShard(d) =>
      SameShard(cfg, s.log, a.log, p.i, p.stream);
      var more := Forwards(cfg.shards[d], p.c, p.n, p.i, p.stream);
      ForwardsOf(cfg.shards[d], p.c, p.n, p.i, p.stream);
      forall q | q in more ensures PacketOk(cfg, s.log, a, q) { }
      Replaced(cfg, s.log, a, s.rnet, p, more);
  }

  /** What a server answers is right: it holds nothing of another shard's, and when all of its shard must
      have replied it has the entry. */
  lemma ServedRight(cfg: Config, log: State, a: Aux, sv: Server, i: nat, stream: nat)
    requires Inv(cfg, log, a) && Readable(cfg, log, a, i) && Routed(cfg, log, sv, i, stream)
    ensures Right(cfg, log, a, sv, i, stream, Lookup(log.stor, sv, i))
  {
    hide Inv, Voters, Enough, Key;
    SharedLogTheorems.VotersHold(cfg, log, a, i);
    if (sv, i) in log.stor { StoredEntry(cfg, log, a, sv, i); }
    if AllReply(cfg, a, i) {
      AllOfShard(Voters(a.received, i), cfg.shards[a.dests[i - 1]]) by { EnoughRecorded(cfg, log.acks, i); }
    }
  }

  lemma EnoughRecorded(cfg: Config, acks: map<nat, nat>, i: nat)
    requires Enough(cfg, acks, i)
    ensures Recorded(acks, i) >= cfg.threshold
  {
  }

  lemma AllOfShard(voters: set<Server>, shard: set<Server>)
    requires voters <= shard && |voters| >= |shard|
    ensures voters == shard
  {
    assert shard == voters + (shard - voters);
  }

  lemma StoredEntry(cfg: Config, log: State, a: Aux, sv: Server, i: nat)
    requires Inv(cfg, log, a) && (sv, i) in log.stor
    ensures 1 <= i <= |a.reqs| == |a.dests| && log.stor[(sv, i)] == a.reqs[i - 1].entry
    ensures a.dests[i - 1] < |cfg.shards| && sv in cfg.shards[a.dests[i - 1]]
  {
    hide ContentOk, ThreadsContent, RequestsOk, ClientsOk, OnceOk, SentOk, ResponsesOk, AnswersOk, ShardsOk, CountsOk;
    assert Held(cfg, a.reqs, a.dests, (sv, i).0, (sv, i).1, log.stor[(sv, i)]);
  }

  lemma ServeKeeps(cfg: Config, s: RState, a: RAux, e: REvent)
    requires RInv(cfg, s, a) && REnabled(cfg, s, e) && (e.Serve? || e.Relay?)
    ensures StepKeeps(cfg, s, a, e)
  {
    hide Inv, ResultsOk, Right, Lookup;
    var p := e.p;
    SharedLogTheorems.ConfigGood(cfg, s.log, a.log);
    assert PacketOk(cfg, s.log, a, p);
    if e.Serve? {
      ServedRight(cfg, s.log, a.log, p.s, p.i, p.stream);
      Replaced(cfg, s.log, a, s.rnet, p, multiset{Reply(p.s, p.c, p.n, p.i, p.stream, Lookup(s.log.stor, p.s, p.i))});
    } else {
      Replaced(cfg, s.log, a, s.rnet, p, multiset{ReadResp(p.s, p.c, p.n, p.i, p.stream, p.x)});
    }
  }

  lemma ClientKeeps(cfg: Config, s: RState, a: RAux, e: REvent)
    requires RInv(cfg, s, a) && REnabled(cfg, s, e) && (e.LoseRead? || e.Read?)
    ensures StepKeeps(cfg, s, a, e)
  {
  }

  lemma Fewer(cfg: Config, log: State, a: RAux, rnet: multiset<RPacket>, p: RPacket)
    requires PacketsOk(cfg, log, a, rnet)
    ensures PacketsOk(cfg, log, a, rnet - multiset{p})
  {
  }

  lemma DeliverKeeps(cfg: Config, s: RState, a: RAux, e: REvent)
    requires RInv(cfg, s, a) && REnabled(cfg, s, e) && e.Deliver?
    ensures StepKeeps(cfg, s, a, e)
  {
    hide Inv, Right, Readable, PacketsOk;
    SharedLogTheorems.ConfigGood(cfg, s.log, a.log);
    DeliveredRight(cfg, s.log, a, s.rnet, e.p);
    Fewer(cfg, s.log, a, s.rnet, e.p);
    ResultsFree(cfg, s.log, a, s.rnet - multiset{e.p}, RAuxApply(cfg, s, a, e).results);
  }

  lemma DeliveredRight(cfg: Config, log: State, a: RAux, rnet: multiset<RPacket>, p: RPacket)
    requires PacketsOk(cfg, log, a, rnet) && p in rnet && p.ReadResp?
    ensures Right(cfg, log, a.log, p.s, p.i, p.stream, p.x)
  {
  }

  lemma ResultsFree(cfg: Config, log: State, a: RAux, rnet: multiset<RPacket>, results: map<(Client, nat), Result>)
    requires PacketsOk(cfg, log, a, rnet)
    ensures PacketsOk(cfg, log, a.(results := results), rnet)
  {
  }

  lemma FloorAdded(cfg: Config, log: State, a: RAux, rnet: multiset<RPacket>, k: (Client, nat))
    requires PacketsOk(cfg, log, a, rnet)
    ensures var floors := if k in a.floors then a.floors else a.floors[k := log.maxIdx];
      PacketsOk(cfg, log, a.(floors := floors), rnet)
  {
  }

  lemma AskKeeps(cfg: Config, s: RState, a: RAux, e: REvent)
    requires RInv(cfg, s, a) && REnabled(cfg, s, e) && e.AskTail?
    ensures StepKeeps(cfg, s, a, e)
  {
    hide Inv, Right, Readable, PacketsOk;
    SharedLogTheorems.ConfigGood(cfg, s.log, a.log);
    var a', p := RAuxApply(cfg, s, a, e), TailReq(e.c, e.n);
    FloorAdded(cfg, s.log, a, s.rnet, (e.c, e.n));
    assert PacketOk(cfg, s.log, a', p);
    Added(cfg, s.log, a', s.rnet, p);
  }

  lemma Added(cfg: Config, log: State, a: RAux, rnet: multiset<RPacket>, p: RPacket)
    requires PacketsOk(cfg, log, a, rnet) && PacketOk(cfg, log, a, p)
    ensures PacketsOk(cfg, log, a, rnet + multiset{p})
  {
  }

  lemma TellKeeps(cfg: Config, s: RState, a: RAux, e: REvent)
    requires RInv(cfg, s, a) && REnabled(cfg, s, e) && e.TellTail?
    ensures StepKeeps(cfg, s, a, e)
  {
    hide Inv, Right, Readable;
    SharedLogTheorems.ConfigGood(cfg, s.log, a.log);
    assert PacketOk(cfg, s.log, a, e.p);
    var p := TailResp(e.p.c, e.p.n, s.log.maxIdx);
    assert PacketOk(cfg, s.log, a, p);
    hide PacketOk;
    assert PacketsOk(cfg, s.log, a, multiset{p});
    Replaced(cfg, s.log, a, s.rnet, e.p, multiset{p});
    hide PacketsOk;
  }

  lemma REventKeepsInv(cfg: Config, s: RState, a: RAux, e: REvent)
    requires RInv(cfg, s, a) && REnabled(cfg, s, e)
    ensures StepKeeps(cfg, s, a, e)
  {
    hide RInv, StepKeeps, REnabled;
    match e
    case Log(_) => LogKeeps(cfg, s, a, e);
    case Route(_) => RouteKeeps(cfg, s, a, e);
    case Serve(_) => ServeKeeps(cfg, s, a, e);
    case Relay(_) => ServeKeeps(cfg, s, a, e);
    case AskTail(_, _) => AskKeeps(cfg, s, a, e);
    case TellTail(_) => TellKeeps(cfg, s, a, e);
    case Deliver(_) => DeliverKeeps(cfg, s, a, e);
    case _ => ClientKeeps(cfg, s, a, e);
  }

  // ---- Runs ----

  ghost predicate RStart(cfg: Config, s: RState, a: RAux) {
    SharedLogTheorems.Start(cfg, s.log, a.log) && s.rnet == multiset{} && a.results == map[] && a.floors == map[]
  }

  ghost predicate RLeads(cfg: Config, r: RState, b: RAux, e: REvent, s: RState, a: RAux) {
    ConfigOk(cfg) && REnabled(cfg, r, e) && RApply(cfg, r, e) == s && RAuxApply(cfg, r, b, e) == a
  }

  ghost predicate RTraces(cfg: Config, es: seq<REvent>, s: RState, a: RAux) {
    if es == [] then RStart(cfg, s, a)
    else exists r: RState, b: RAux :: RLeads(cfg, r, b, Last(es), s, a) && RTraces(cfg, Front(es), r, b)
  }

  lemma {:induction false} RTracedInv(cfg: Config, es: seq<REvent>, s: RState, a: RAux)
    requires RTraces(cfg, es, s, a)
    ensures RInv(cfg, s, a)
  {
    hide Inv, RApply, RAuxApply, REnabled, SharedLogTheorems.Start;
    if es == [] {
      SharedLogTheorems.StartInv(cfg, s.log, a.log);
    } else {
      var r: RState, b: RAux :| RLeads(cfg, r, b, Last(es), s, a) && RTraces(cfg, Front(es), r, b);
      RTracedInv(cfg, Front(es), r, b);
      REventKeepsInv(cfg, r, b, Last(es));
    }
  }

  /** In every run, a read on its way to a server has a number that was given and of which enough replies
      were counted; and the server is of the shard to which the read's stream, or number, is mapped. */
  lemma ForwardedOnlyIfAcked(cfg: Config, es: seq<REvent>, s: RState, a: RAux, p: RPacket)
    requires RTraces(cfg, es, s, a) && p in s.rnet && p.Forward?
    ensures 1 <= p.i <= s.log.maxIdx == |a.log.reqs| == |a.log.dests|
    ensures p.i in s.log.acks && s.log.acks[p.i] >= cfg.threshold
    ensures Routed(cfg, s.log, p.s, p.i, p.stream)
  {
    hide Inv, RTraces, Routed, ResultsOk;
    RTracedInv(cfg, es, s, a);
    assert PacketOk(cfg, s.log, a, p);
    SharedLogTheorems.ShardFacts(cfg, s.log, a.log);
  }

  /** The shard of an append is that to which its number is mapped or, with streams, its own stream. */
  lemma AppendsShard(cfg: Config, es: seq<REvent>, s: RState, a: RAux, i: nat, stream: nat)
    requires RTraces(cfg, es, s, a) && 1 <= i <= s.log.maxIdx
    ensures ConfigOk(cfg) && s.log.maxIdx == |a.log.reqs| == |a.log.dests|
    ensures !cfg.useStreams || stream == a.log.reqs[i - 1].stream ==>
      ShardTable.Find(s.log.table, Key(cfg, i, stream)) == Some(a.log.dests[i - 1])
  {
    hide Inv, RTraces, PacketsOk, ResultsOk, Key, Keys, ShardTable.After;
    RTracedInv(cfg, es, s, a);
    SharedLogTheorems.ShardFacts(cfg, s.log, a.log);
    assert Placed(cfg, s.log.table, i - 1 + 1, a.log.reqs[i - 1].stream, a.log.dests[i - 1]);
    KeyOfRead(cfg, i, stream, a.log.reqs[i - 1].stream);
  }

  lemma ResultRight(cfg: Config, es: seq<REvent>, s: RState, a: RAux, k: (Client, nat))
    requires RTraces(cfg, es, s, a) && k in a.results
    ensures ResultOk(cfg, s.log, a, a.results[k])
  {
    hide Inv, RTraces, PacketsOk, ResultOk;
    RTracedInv(cfg, es, s, a);
  }

  /** An entry that a read of number `i` returns is the one appended there. When as many replies are needed
      as the append's shard has servers, a read that is answered returns the entry exactly when the server
      that answered is of that shard, and otherwise nothing. */
  lemma ReadRight(cfg: Config, es: seq<REvent>, s: RState, a: RAux, k: (Client, nat))
    requires RTraces(cfg, es, s, a) && k in a.results
    ensures var r := a.results[k];
      && 1 <= r.i <= |a.log.reqs| == |a.log.dests| && a.log.dests[r.i - 1] < |cfg.shards|
      && (r.x.Some? ==> r.x.value == a.log.reqs[r.i - 1].entry && r.s in cfg.shards[a.log.dests[r.i - 1]])
      && (AllReply(cfg, a.log, r.i) ==> (r.x.Some? <==> r.s in cfg.shards[a.log.dests[r.i - 1]]))
      && Routed(cfg, s.log, r.s, r.i, r.stream)
  {
    hide RTraces, Routed;
    ResultRight(cfg, es, s, a, k);
  }

  /** No server is in two shards. */
  predicate Disjoint(cfg: Config) {
    forall d, e :: 0 <= d < e < |cfg.shards| ==> cfg.shards[d] !! cfg.shards[e]
  }

  /** Hence, with streams or without: it returns the entry if and only if the stream that it names is mapped
      to the append's shard, as that of the append is. */
  lemma FoundExactly(cfg: Config, es: seq<REvent>, s: RState, a: RAux, k: (Client, nat))
    requires RTraces(cfg, es, s, a) && k in a.results && Disjoint(cfg)
    requires ConfigOk(cfg) && AllReply(cfg, a.log, a.results[k].i)
    ensures var r := a.results[k];
      && 1 <= r.i <= |a.log.reqs| == |a.log.dests|
      && (r.x.Some? <==> ShardTable.Find(s.log.table, Key(cfg, r.i, r.stream)) == Some(a.log.dests[r.i - 1]))
      && (!cfg.useStreams || r.stream == a.log.reqs[r.i - 1].stream ==> r.x == Some(a.log.reqs[r.i - 1].entry))
  {
    hide RTraces, Key;
    ReadRight(cfg, es, s, a, k);
    var r := a.results[k];
    ResultGiven(cfg, es, s, a, r.i);
    AppendsShard(cfg, es, s, a, r.i, r.stream);
    var d, e := ShardTable.Find(s.log.table, Key(cfg, r.i, r.stream)).value, a.log.dests[r.i - 1];
    if r.s in cfg.shards[e] { OneShard(cfg, r.s, d, e); }
  }

  lemma OneShard(cfg: Config, s: Server, d: nat, e: nat)
    requires Disjoint(cfg) && d < |cfg.shards| && e < |cfg.shards| && s in cfg.shards[d] && s in cfg.shards[e]
    ensures d == e
  {
  }

  lemma ResultGiven(cfg: Config, es: seq<REvent>, s: RState, a: RAux, i: nat)
    requires RTraces(cfg, es, s, a) && i <= |a.log.reqs|
    ensures i <= s.log.maxIdx
  {
    hide Inv, RTraces, PacketsOk, ResultsOk;
    RTracedInv(cfg, es, s, a);
    SharedLogTheorems.ShardFacts(cfg, s.log, a.log);
  }

  /** Two reads of one number do not return different entries. */
  lemma ReadsAgree(cfg: Config, es: seq<REvent>, s: RState, a: RAux, k: (Client, nat), m: (Client, nat))
    requires RTraces(cfg, es, s, a) && k in a.results && m in a.results && a.results[k].i == a.results[m].i
    requires a.results[k].x.Some? && a.results[m].x.Some?
    ensures a.results[k].x == a.results[m].x
  {
    hide RTraces, Routed;
    ReadRight(cfg, es, s, a, k);
    ReadRight(cfg, es, s, a, m);
  }

  /** A read returns what an append returned: if an append of entry `x` was answered with a number, no
      read of that number returns another entry. */
  lemma ReadsWhatWasAppended(cfg: Config, es: seq<REvent>, s: RState, a: RAux, k: (Client, nat), q: (Client, nat))
    requires RTraces(cfg, es, s, a) && k in a.results && q in a.log.answers && a.results[k].i == a.log.answers[q] && a.results[k].x.Some?
    ensures exists r :: r in a.log.asked && r.client == q.0 && r.nonce == q.1 && a.results[k].x == Some(r.entry)
  {
    hide RTraces, Inv, PacketsOk, ResultsOk, Routed;
    ReadRight(cfg, es, s, a, k);
    RTracedInv(cfg, es, s, a);
    SharedLogTheorems.AnswerFacts(cfg, s.log, a.log, q);
    assert a.log.reqs[a.log.answers[q] - 1] in a.log.asked;
  }

  /** The answer to a question for the tail is a number between the last one at the time of the question
      and the last one now. */
  lemma TailBetween(cfg: Config, es: seq<REvent>, s: RState, a: RAux, c: Client, n: nat, t: nat)
    requires RTraces(cfg, es, s, a) && TailResp(c, n, t) in s.rnet
    ensures (c, n) in a.floors && a.floors[(c, n)] <= t <= s.log.maxIdx
  {
    hide RTraces, Inv;
    RTracedInv(cfg, es, s, a);
    assert PacketOk(cfg, s.log, a, TailResp(c, n, t));
  }

  // ---- Where a read goes ----

  /** What the switch makes of a read: beyond the last number it is rejected; one whose number has not been
      answered for by enough servers goes back to the switch; any other goes to every server of the shard that
      its stream, or number, is mapped to, and is rejected only if there is none. */
  lemma RouteAnswers(cfg: Config, s: RState, p: RPacket)
    requires ConfigOk(cfg) && REnabled(cfg, s, Route(p))
    ensures var s', rest := RApply(cfg, s, Route(p)), s.rnet - multiset{p};
      if p.i > s.log.maxIdx then s' == s.(rnet := rest + multiset{Rejected(p.c, p.n, p.i)})
      else if p.i !in s.log.acks || s.log.acks[p.i] < cfg.threshold then s' == s
      else if forall v: Server :: !Routed(cfg, s.log, v, p.i, p.stream) then s' == s.(rnet := rest + multiset{Rejected(p.c, p.n, p.i)})
      else
        && rest <= s'.rnet
        && (forall v: Server :: Routed(cfg, s.log, v, p.i, p.stream) <==> Forward(v, p.c, p.n, p.i, p.stream) in s'.rnet - rest)
        && (forall q :: q in s'.rnet - rest ==> q.Forward? && q == Forward(q.s, p.c, p.n, p.i, p.stream))
  {
    hide Key;
    match ShardTable.Find(s.log.table, Key(cfg, p.i, p.stream))
    case None =>
    case Some(d) =>
      if d < |cfg.shards| && cfg.shards[d] != {} {
        var v :| v in cfg.shards[d];
        assert Routed(cfg, s.log, v, p.i, p.stream);
      }
  }

  /** A read of a number that an append has returned, by its own stream or without streams, is neither rejected
      nor sent back, now or later: it goes to all servers of the append's shard. */
  lemma AnsweredIsForwarded(cfg: Config, es: seq<REvent>, s: RState, a: RAux, p: RPacket, q: (Client, nat), v: Server)
    requires RTraces(cfg, es, s, a) && REnabled(cfg, s, Route(p)) && ConfigOk(cfg)
    requires q in a.log.answers && p.i == a.log.answers[q]
    requires 1 <= p.i <= |a.log.reqs| == |a.log.dests| && a.log.dests[p.i - 1] < |cfg.shards| && v in cfg.shards[a.log.dests[p.i - 1]]
    requires cfg.useStreams ==> p.stream == a.log.reqs[p.i - 1].stream
    ensures Forward(v, p.c, p.n, p.i, p.stream) in RApply(cfg, s, Route(p)).rnet
  {
    hide RTraces, Inv, PacketsOk, ResultsOk, Key, RApply;
    RTracedInv(cfg, es, s, a);
    AnsweredEnough(cfg, s.log, a.log, q);
    AppendsShard(cfg, es, s, a, p.i, p.stream);
    RouteAnswers(cfg, s, p);
    assert Routed(cfg, s.log, v, p.i, p.stream);
  }

  lemma AnsweredEnough(cfg: Config, log: State, a: Aux, q: (Client, nat))
    requires Inv(cfg, log, a) && q in a.answers
    ensures Enough(cfg, log.acks, a.answers[q]) && 1 <= a.answers[q] <= |a.reqs| == log.maxIdx
  {
    hide ContentOk, ThreadsContent, RequestsOk, ClientsOk, OnceOk, SentOk, StoredOk, RepliesOk, CountsOk, ResponsesOk, ShardsOk;
    assert Answered(a.reqs, q, a.answers[q]);
  }

  // ---- What is read is what was called for ----

  predicate AskedFor(es: seq<REvent>, p: RPacket) {
    IsRead(p) ==> Read(p.c, p.i, p.stream) in es
  }

  ghost predicate AllAskedFor(es: seq<REvent>, s: RState, a: RAux) {
    && (forall p :: p in s.rnet ==> AskedFor(es, p))
    && (forall k :: k in a.results ==> Read(k.0, a.results[k].i, a.results[k].stream) in es)
  }

  predicate IsRead(p: RPacket) {
    p.ReadReq? || p.Forward? || p.Reply? || p.ReadResp?
  }

  predicate SameRead(p: RPacket, q: RPacket) {
    IsRead(p) && IsRead(q) && q.c == p.c && q.i == p.i && q.stream == p.stream
  }

  /** A packet of a read is of one that was there before, or of a call. */
  lemma NewPacket(cfg: Config, s: RState, e: REvent, q: RPacket)
    requires ConfigOk(cfg) && REnabled(cfg, s, e) && q in RApply(cfg, s, e).rnet && q !in s.rnet && IsRead(q)
    ensures e == Read(q.c, q.i, q.stream) || ((e.Route? || e.Serve? || e.Relay?) && e.p in s.rnet && SameRead(e.p, q))
  {
    hide Apply, Enabled, Judge;
  }

  lemma NewResult(cfg: Config, s: RState, a: RAux, e: REvent, k: (Client, nat))
    requires ConfigOk(cfg) && REnabled(cfg, s, e) && k in RAuxApply(cfg, s, a, e).results
    ensures var x := RAuxApply(cfg, s, a, e).results[k];
      (k in a.results && a.results[k] == x) || (e.Deliver? && e.p in s.rnet && e.p.ReadResp? && e.p.c == k.0 && e.p.i == x.i && e.p.stream == x.stream)
  {
    hide AuxApply, Enabled;
  }

  lemma AskedOn(cfg: Config, es: seq<REvent>, r: RState, b: RAux, e: REvent, s: RState, a: RAux)
    requires AllAskedFor(es, r, b) && RLeads(cfg, r, b, e, s, a)
    ensures AllAskedFor(es + [e], s, a)
  {
    hide RApply, RAuxApply, REnabled;
    forall p | p in s.rnet ensures AskedFor(es + [e], p) {
      if p in r.rnet { assert AskedFor(es, p); }
      else if IsRead(p) {
        NewPacket(cfg, r, e, p);
        if e.Route? || e.Serve? || e.Relay? { assert AskedFor(es, e.p); }
      }
    }
    forall k | k in a.results ensures Read(k.0, a.results[k].i, a.results[k].stream) in es + [e] {
      NewResult(cfg, r, b, e, k);
      if e.Deliver? && e.p in r.rnet { assert AskedFor(es, e.p); }
    }
  }

  /** A read returns the number, and names the stream, of a call of its client. */
  lemma {:induction false} ReadAsGiven(cfg: Config, es: seq<REvent>, s: RState, a: RAux)
    requires RTraces(cfg, es, s, a)
    ensures AllAskedFor(es, s, a)
    ensures forall k :: k in a.results ==> Read(k.0, a.results[k].i, a.results[k].stream) in es
  {
    hide RLeads, AskedFor;
    if es != [] {
      var r: RState, b: RAux :| RLeads(cfg, r, b, Last(es), s, a) && RTraces(cfg, Front(es), r, b);
      ReadAsGiven(cfg, Front(es), r, b);
      AskedOn(cfg, Front(es), r, b, Last(es), s, a);
      assert Front(es) + [Last(es)] == es;
    }
  }
}
