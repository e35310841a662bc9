/**
 Appending to the shared log. A client sends an entry to the switch; the switch gives it the next
 sequence number and sends it to every server of a shard; a server stores it once, and then replies;
 the switch counts the replies, and answers the client when there are enough of them. The network
 loses and reorders packets, but does not repeat or invent them.

 One thread sequences. Any number of threads take replies. Sequence numbers and nonces fit in 32 bits.
 */
module SharedLog {
  import opened Wrappers
  import ShardTable

  type Server = nat
  type Client = nat
  type Entry = int

  datatype Req = Req(client: Client, nonce: nat, stream: nat, entry: Entry)

  datatype Packet =
    | AppendReq(r: Req)
    | Store(s: Server, i: nat, r: Req)
    | Ack(s: Server, i: nat, r: Req)
    | AppendResp(i: nat, r: Req)

  /** A log without shards has one. */
  datatype Config = Config(threshold: nat, shards: seq<set<Server>>, useStreams: bool)

  /** A thread of the switch that has taken a reply. */
  datatype Handler =
    | Free
    | Got(s: Server, i: nat, r: Req)
    | Missed(i: nat, r: Req)       // there was no count for the number
    | Answering(i: nat, r: Req)

  datatype ClientState = ClientState(nonce: nat, waiting: Option<Req>)

  datatype State = State(
    net: multiset<Packet>,
    outbox: multiset<Packet>,           // replies of servers that have stored, not sent yet
    maxIdx: nat,
    table: ShardTable.Table,
    acks: map<nat, nat>,
    threads: seq<Handler>,
    stor: map<(Server, nat), Entry>,
    clients: map<Client, ClientState>)

  datatype Event =
    | Append(c: Client, stream: nat, entry: Entry)
    | Lose(p: Packet)
    | Sequence(r: Req)
    | StoreEntry(s: Server, i: nat, r: Req)
    | SendAck(p: Packet)
    | Take(t: nat, s: Server, i: nat, r: Req)
    | Handle(t: nat)
    | Receive(i: nat, r: Req)
    | GiveUp(c: Client)

  const LIMIT := 0x1_0000_0000

  predicate ConfigOk(cfg: Config) {
    |cfg.shards| > 0
  }

  /** The key of an append or a read in the table of shards. */
  function Key(cfg: Config, i: nat, stream: nat): nat
    requires ConfigOk(cfg)
  {
    if cfg.useStreams then stream else ShardTable.Residue(i, |cfg.shards|)
  }

  predicate Enabled(cfg: Config, s: State, e: Event) {
    match e
    case Append(c, _, _) => c in s.clients && s.clients[c].waiting == None && s.clients[c].nonce + 1 < LIMIT
    case Lose(p) => p in s.net
    case Sequence(r) => AppendReq(r) in s.net && s.maxIdx + 1 < LIMIT
    case StoreEntry(sv, i, r) => Store(sv, i, r) in s.net
    case SendAck(p) => p in s.outbox
    case Take(t, sv, i, r) => t < |s.threads| && s.threads[t] == Free && Ack(sv, i, r) in s.net
    case Handle(t) => t < |s.threads| && s.threads[t] != Free
    case Receive(i, r) => AppendResp(i, r) in s.net && r.client in s.clients
    case GiveUp(c) => c in s.clients && s.clients[c].waiting.Some?
  }

  /** A packet for every server of the shard. */
  function Multicast(shard: set<Server>, i: nat, r: Req): multiset<Packet> {
    multiset(set s | s in shard :: Store(s, i, r))
  }

  function Remove(net: multiset<Packet>, p: Packet): multiset<Packet> {
    net - multiset{p}
  }

  /** The thread after the count for `i` has become `n`. */
  function Counted(cfg: Config, n: nat, i: nat, r: Req): Handler {
    if n >= cfg.threshold then Answering(i, r) else Free
  }

  function HandleStep(cfg: Config, s: State, t: nat): State
    requires Enabled(cfg, s, Handle(t))
  {
    match s.threads[t]
    case Got(_, i, r) =>
      if i in s.acks then
        var n := s.acks[i] + 1;
        s.(acks := s.acks[i := n], threads := s.threads[t := Counted(cfg, n, i, r)])
      else s.(threads := s.threads[t := Missed(i, r)])
    case Missed(i, r) =>
      if i !in s.acks then s.(acks := s.acks[i := 1], threads := s.threads[t := Counted(cfg, 1, i, r)])
      else s.(threads := s.threads[t := Free])
    case Answering(i, r) => s.(net := s.net + multiset{AppendResp(i, r)}, threads := s.threads[t := Free])
  }

  function Apply(cfg: Config, s: State, e: Event): State
    requires ConfigOk(cfg) && Enabled(cfg, s, e)
  {
    match e
    case Append(c, stream, entry) =>
      var r := Req(c, s.clients[c].nonce, stream, entry);
      s.(net := s.net + multiset{AppendReq(r)}, clients := s.clients[c := s.clients[c].(waiting := Some(r))])
    case Lose(p) => s.(net := Remove(s.net, p))
    case Sequence(r) =>
      var i := s.maxIdx + 1;
      var (d, table') := ShardTable.Assign(s.table, Key(cfg, i, r.stream), |cfg.shards|);
      var shard := if d < |cfg.shards| then cfg.shards[d] else {};
      s.(maxIdx := i, table := table', net := Remove(s.net, AppendReq(r)) + Multicast(shard, i, r))
    case StoreEntry(sv, i, r) =>
      s.(net := Remove(s.net, Store(sv, i, r)),
         stor := if (sv, i) in s.stor then s.stor else s.stor[(sv, i) := r.entry],
         outbox := s.outbox + multiset{Ack(sv, i, r)})
    case SendAck(p) => s.(outbox := s.outbox - multiset{p}, net := s.net + multiset{p})
    case Take(t, sv, i, r) => s.(net := Remove(s.net, Ack(sv, i, r)), threads := s.threads[t := Got(sv, i, r)])
    case Handle(t) => HandleStep(cfg, s, t)
    case Receive(i, r) =>
      var c := s.clients[r.client];
      s.(net := Remove(s.net, AppendResp(i, r)),
         clients := if c.waiting.Some? && c.nonce == r.nonce then s.clients[r.client := ClientState(c.nonce + 1, None)] else s.clients)
    case GiveUp(c) => s.(clients := s.clients[c := ClientState(s.clients[c].nonce + 1, None)])
  }

  // ---- The history, which no step reads ----

  /**
   `reqs[i - 1]` is the request that was given number i, `dests[i - 1]` its shard; `received` is whose
   reply to which number the switch has taken; `asked` is every request made, and `answers` gives the
   number that an append by a client, with its nonce, returned.
   */
  datatype Aux = Aux(reqs: seq<Req>, dests: seq<nat>, received: set<(Server, nat)>, asked: set<Req>, answers: map<(Client, nat), nat>)

  function AuxApply(cfg: Config, s: State, a: Aux, e: Event): Aux
    requires ConfigOk(cfg) && Enabled(cfg, s, e)
  {
    match e
    case Append(c, stream, entry) => a.(asked := a.asked + {Req(c, s.clients[c].nonce, stream, entry)})
    case Sequence(r) =>
      a.(reqs := a.reqs + [r],
         dests := a.dests + [ShardTable.Assign(s.table, Key(cfg, s.maxIdx + 1, r.stream), |cfg.shards|).0])
    case Take(_, sv, i, _) => a.(received := a.received + {(sv, i)})
    case Receive(i, r) =>
      var c := s.clients[r.client];
      if c.waiting.Some? && c.nonce == r.nonce then a.(answers := a.answers[(r.client, r.nonce) := i]) else a
    case _ => a
  }

  /** The servers whose reply to number `i` the switch has taken. */
  function Voters(received: set<(Server, nat)>, i: nat): set<Server> {
    set v | v in received && v.1 == i :: v.0
  }

  // ---- The invariant ----

  /** Number `i` was given to `r`. */
  predicate Given(reqs: seq<Req>, i: nat, r: Req) {
    1 <= i <= |reqs| && reqs[i - 1] == r
  }

  predicate Content(p: Packet, reqs: seq<Req>) {
    p.AppendReq? || Given(reqs, p.i, p.r)
  }

  ghost predicate ContentOk(net: multiset<Packet>, reqs: seq<Req>) {
    forall p :: p in net ==> Content(p, reqs)
  }

  ghost predicate ThreadsContent(threads: seq<Handler>, reqs: seq<Req>) {
    forall t :: 0 <= t < |threads| && threads[t] != Free ==> Given(reqs, threads[t].i, threads[t].r)
  }

  /** Every request is on its way at most once, and then has no number yet. */
  ghost predicate RequestsOk(net: multiset<Packet>, reqs: seq<Req>, asked: set<Req>) {
    && (forall r :: net[AppendReq(r)] <= 1)
    && (forall r :: AppendReq(r) in net ==> r in asked && r !in reqs)
    && (forall i :: 0 <= i < |reqs| ==> reqs[i] in asked)
    && (forall i, j :: 0 <= i < j < |reqs| ==> reqs[i] != reqs[j])
  }

  /** A client uses each nonce once. */
  ghost predicate ClientsOk(clients: map<Client, ClientState>, asked: set<Req>) {
    && (forall r :: r in asked ==> r.client in clients && UsedNonce(clients[r.client], r))
    && (forall r, r' :: r in asked && r' in asked && r.client == r'.client && r.nonce == r'.nonce ==> r == r')
  }

  predicate UsedNonce(c: ClientState, r: Req) {
    r.nonce < c.nonce || (r.nonce == c.nonce && c.waiting == Some(r))
  }

  ghost predicate OnceOk(net: multiset<Packet>, outbox: multiset<Packet>, received: set<(Server, nat)>) {
    forall s, i, r {:trigger net[Store(s, i, r)]} {:trigger net[Ack(s, i, r)]} {:trigger outbox[Ack(s, i, r)]} ::
      Once(net, outbox, received, s, i, r)
  }

  /** A server has one copy of an entry to store or to reply to, until its reply is taken. */
  ghost predicate Once(net: multiset<Packet>, outbox: multiset<Packet>, received: set<(Server, nat)>, s: Server, i: nat, r: Req) {
    net[Store(s, i, r)] + outbox[Ack(s, i, r)] + net[Ack(s, i, r)] + (if (s, i) in received then 1 else 0) <= 1
  }

  /** A server holds number `i` if it is in the shard, and then the entry that was given that number. */
  predicate Held(cfg: Config, reqs: seq<Req>, dests: seq<nat>, s: Server, i: nat, x: Entry) {
    1 <= i <= |reqs| == |dests| && dests[i - 1] < |cfg.shards| && s in cfg.shards[dests[i - 1]] && x == reqs[i - 1].entry
  }

  ghost predicate StoredOk(cfg: Config, stor: map<(Server, nat), Entry>, reqs: seq<Req>, dests: seq<nat>) {
    forall k :: k in stor ==> Held(cfg, reqs, dests, k.0, k.1, stor[k])
  }

  ghost predicate SentOk(cfg: Config, net: multiset<Packet>, reqs: seq<Req>, dests: seq<nat>) {
    forall p :: p in net && p.Store? ==> Held(cfg, reqs, dests, p.s, p.i, p.r.entry)
  }

  /** Nobody replies before storing. */
  ghost predicate RepliesOk(net: multiset<Packet>, outbox: multiset<Packet>, received: set<(Server, nat)>, stor: map<(Server, nat), Entry>) {
    && (forall p :: p in net && p.Ack? ==> (p.s, p.i) in stor)
    && (forall p :: p in outbox ==> p.Ack? && (p.s, p.i) in stor)
    && (forall v :: v in received ==> v in stor)
  }

  /** The threads that have taken a reply to `i` and have not counted it. */
  function Uncounted(threads: seq<Handler>, i: nat): nat {
    if threads == [] then 0
    else Uncounted(Front(threads), i) + Weight(Last(threads), i)
  }

  function Weight(h: Handler, i: nat): nat {
    if (h.Got? || h.Missed?) && h.i == i then 1 else 0
  }

  function Recorded(acks: map<nat, nat>, i: nat): nat {
    if i in acks then acks[i] else 0
  }

  /** No reply is counted twice, and some may not be counted. */
  ghost predicate CountsOk(acks: map<nat, nat>, threads: seq<Handler>, received: set<(Server, nat)>) {
    forall i: nat {:trigger Recorded(acks, i)} :: Recorded(acks, i) + Uncounted(threads, i) <= |Voters(received, i)|
  }

  ghost predicate Positive(acks: map<nat, nat>) {
    forall i :: i in acks ==> acks[i] >= 1
  }

  predicate Enough(cfg: Config, acks: map<nat, nat>, i: nat) {
    i in acks && acks[i] >= cfg.threshold
  }

  ghost predicate ResponsesOk(cfg: Config, net: multiset<Packet>, threads: seq<Handler>, acks: map<nat, nat>) {
    && (forall p :: p in net && p.AppendResp? ==> Enough(cfg, acks, p.i))
    && (forall t :: 0 <= t < |threads| && threads[t].Answering? ==> Enough(cfg, acks, threads[t].i))
  }

  ghost predicate AnswersOk(cfg: Config, answers: map<(Client, nat), nat>, acks: map<nat, nat>, reqs: seq<Req>) {
    forall k :: k in answers ==> Answered(reqs, k, answers[k]) && Enough(cfg, acks, answers[k])
  }

  predicate Answered(reqs: seq<Req>, k: (Client, nat), i: nat) {
    1 <= i <= |reqs| && reqs[i - 1].client == k.0 && reqs[i - 1].nonce == k.1
  }

  function Keys(cfg: Config, reqs: seq<Req>): seq<nat>
    requires ConfigOk(cfg)
  {
    seq(|reqs|, i requires 0 <= i < |reqs| => Key(cfg, i + 1, reqs[i].stream))
  }

  predicate Placed(cfg: Config, table: ShardTable.Table, i: nat, stream: nat, d: nat)
    requires ConfigOk(cfg)
  {
    d < |cfg.shards| && ShardTable.Find(table, Key(cfg, i, stream)) == Some(d)
  }

  /** The table is what the requests so far have made of it, and holds the shard of each of them. */
  ghost predicate ShardsOk(cfg: Config, table: ShardTable.Table, reqs: seq<Req>, dests: seq<nat>)
    requires ConfigOk(cfg)
  {
    && table == ShardTable.After(Keys(cfg, reqs), |cfg.shards|)
    && table.next < |cfg.shards| && |dests| == |reqs|
    && (forall i :: 0 <= i < |dests| ==> Placed(cfg, table, i + 1, reqs[i].stream, dests[i]))
    && (forall k :: k in table.shardOf ==> table.shardOf[k] < |cfg.shards|)
  }

  ghost predicate Inv(cfg: Config, s: State, a: Aux) {
    && ConfigOk(cfg) && s.maxIdx == |a.reqs| == |a.dests|
    && ContentOk(s.net, a.reqs) && ContentOk(s.outbox, a.reqs) && ThreadsContent(s.threads, a.reqs)
    && RequestsOk(s.net, a.reqs, a.asked)
    && ClientsOk(s.clients, a.asked)
    && OnceOk(s.net, s.outbox, a.received)
    && StoredOk(cfg, s.stor, a.reqs, a.dests) && SentOk(cfg, s.net, a.reqs, a.dests)
    && RepliesOk(s.net, s.outbox, a.received, s.stor)
    && CountsOk(s.acks, s.threads, a.received) && Positive(s.acks)
    && ResponsesOk(cfg, s.net, s.threads, s.acks)
    && AnswersOk(cfg, a.answers, s.acks, a.reqs)
    && ShardsOk(cfg, s.table, a.reqs, a.dests)
  }
}
