/**
 The batching of outgoing packets: a call adds a packet to a buffer, or with no packet just polls, and
 sends the buffer when it is full, has enough packets or is old enough. The clock's readings are
 parameters.
 */
module Batcher {
  import opened Wrappers

  type Byte = x: int | 0 <= x < 256
  type Packet = seq<Byte>

  const MAX_PACKET_SIZE := 8192

  /** The place of the number of entries in the header of a packet. */
  const NUM_ENTRIES := 2

  datatype Config = Config(batchOn: bool, batchSize: nat, batchTimeout: real)

  /** The packets in the buffer, and when it was sent last. */
  datatype Batch = Batch(pending: seq<Packet>, timer: real)

  /** A call's packet, which is empty for a poll, and the times before and after sending. */
  datatype Call = Call(packet: Packet, now: real, after: real)

  function Flat(ps: seq<Packet>): Packet {
    if ps == [] then [] else Flat(Front(ps)) + Last(ps)
  }

  function Accept(cfg: Config, pending: seq<Packet>, p: Packet): seq<Packet> {
    if p == [] then pending else if cfg.batchOn then pending + [p] else [p]
  }

  predicate KeepsWaiting(cfg: Config, pending: seq<Packet>, c: Call, timer: real) {
    && cfg.batchOn && |pending| < cfg.batchSize && |Flat(pending)| + |c.packet| < MAX_PACKET_SIZE
    && c.now - timer < cfg.batchTimeout
  }

  /** The batch after a call, and what was sent. */
  function Step(cfg: Config, b: Batch, c: Call): (Batch, Option<seq<Packet>>) {
    var pending := Accept(cfg, b.pending, c.packet);
    if KeepsWaiting(cfg, pending, c, b.timer) || pending == [] then (b.(pending := pending), None)
    else (Batch([], c.after), Some(pending))
  }

  /** The packet fits into the buffer. */
  predicate Fits(cfg: Config, b: Batch, p: Packet) {
    (if cfg.batchOn then |Flat(b.pending)| else 0) + |p| <= MAX_PACKET_SIZE
  }

  // ---- Runs ----

  datatype Run = Run(b: Batch, sent: seq<seq<Packet>>)

  function After(cfg: Config, start: real, cs: seq<Call>): Run {
    if cs == [] then Run(Batch([], start), [])
    else
      var r := After(cfg, start, Front(cs));
      var (b, out) := Step(cfg, r.b, Last(cs));
      Run(b, if out == None then r.sent else r.sent + [out.value])
  }

  /** The packets of the calls, in order. */
  function Packets(cs: seq<Call>): seq<Packet> {
    if cs == [] then [] else Packets(Front(cs)) + (if Last(cs).packet == [] then [] else [Last(cs).packet])
  }

  function Join(batches: seq<seq<Packet>>): seq<Packet> {
    if batches == [] then [] else Join(Front(batches)) + Last(batches)
  }

  /** Without loss, repetition or reordering: what was sent, batch by batch, and what is waiting is what
      was given, whatever the clock. */
  lemma {:induction false} Conserved(cfg: Config, start: real, cs: seq<Call>)
    ensures var r := After(cfg, start, cs); Join(r.sent) + r.b.pending == Packets(cs)
    ensures !cfg.batchOn ==> After(cfg, start, cs).b.pending == []
  {
    if cs != [] {
      Conserved(cfg, start, Front(cs));
      var r := After(cfg, start, Front(cs));
      var (b, out) := Step(cfg, r.b, Last(cs));
      var pending := Accept(cfg, r.b.pending, Last(cs).packet);
      assert Join(r.sent) + pending == Packets(cs);
      if out.Some? {
        assert Front(r.sent + [out.value]) == r.sent && out.value == pending;
        assert Join(r.sent + [out.value]) + [] == Join(r.sent) + pending;
      }
    }
  }

  /** A packet fits that is at most one byte longer than the one accepted before it in the same batch. */
  lemma NextFits(cfg: Config, start: real, cs: seq<Call>, p: Packet)
    requires |p| <= MAX_PACKET_SIZE
    requires var pending := After(cfg, start, cs).b.pending; pending != [] ==> |p| <= |Last(pending)| + 1
    ensures Fits(cfg, After(cfg, start, cs).b, p)
  {
    Room(cfg, start, cs);
  }

  lemma {:induction false} Room(cfg: Config, start: real, cs: seq<Call>)
    ensures var pending := After(cfg, start, cs).b.pending;
      && (pending != [] ==> cfg.batchOn && |Flat(pending)| + |Last(pending)| < MAX_PACKET_SIZE)
      && forall q :: q in pending ==> q != []
  {
    if cs != [] {
      Room(cfg, start, Front(cs));
      var r := After(cfg, start, Front(cs));
      var pending := Accept(cfg, r.b.pending, Last(cs).packet);
      if Last(cs).packet != [] && pending != [] { assert Last(pending) == Last(cs).packet; }
    }
  }

  /** Hence with packets of one length the buffer never overflows, over any mix of sends and polls and
      any clock. */
  lemma {:induction false} EqualLengthsFit(cfg: Config, start: real, cs: seq<Call>, p: Packet, length: nat)
    requires 1 <= length <= MAX_PACKET_SIZE && |p| <= length
    requires forall c :: c in cs ==> c.packet == [] || |c.packet| == length
    ensures Fits(cfg, After(cfg, start, cs).b, p)
  {
    PendingFrom(cfg, start, cs);
    var pending := After(cfg, start, cs).b.pending;
    if pending != [] { assert Last(pending) in pending; }
    NextFits(cfg, start, cs, p);
  }

  lemma {:induction false} PendingFrom(cfg: Config, start: real, cs: seq<Call>)
    ensures forall q :: q in After(cfg, start, cs).b.pending ==> exists c :: c in cs && c.packet == q && q != []
  {
    if cs != [] {
      PendingFrom(cfg, start, Front(cs));
      var r := After(cfg, start, Front(cs));
      var pending := Accept(cfg, r.b.pending, Last(cs).packet);
      forall q | q in pending ensures exists c :: c in cs && c.packet == q && q != [] {
        if q in r.b.pending {
          var c :| c in Front(cs) && c.packet == q && q != [];
          assert c in cs;
        } else {
          assert Last(cs) in cs;
        }
      }
    }
  }

  function Zeros(n: nat): Packet {
    seq(n, _ => 0)
  }

  /** When batches are sent: none waits longer than the call that makes it full, numerous enough or too old, or
      than a call without batching; and no batch is sent before. */
  lemma SendsWhenDue(cfg: Config, start: real, cs: seq<Call>)
    requires cs != []
    ensures var c, r, r' := Last(cs), After(cfg, start, Front(cs)), After(cfg, start, cs);
      && (r'.b.pending != [] ==>
            && cfg.batchOn && |r'.b.pending| < cfg.batchSize && |Flat(r'.b.pending)| + |c.packet| < MAX_PACKET_SIZE
            && c.now - r.b.timer < cfg.batchTimeout && r'.sent == r.sent && r'.b.timer == r.b.timer)
      && (r'.sent != r.sent ==>
            && |r'.sent| == |r.sent| + 1 && r'.b.pending == [] && r'.b.timer == c.after
            && (!cfg.batchOn || |Last(r'.sent)| >= cfg.batchSize || |Flat(Last(r'.sent))| + |c.packet| >= MAX_PACKET_SIZE
                || c.now - r.b.timer >= cfg.batchTimeout))
  {
  }

  // ---- Which lengths fit ----

  /** Every packet of the run fitted. */
  predicate AllFit(cfg: Config, start: real, cs: seq<Call>) {
    cs == [] || (AllFit(cfg, start, Front(cs)) && Fits(cfg, After(cfg, start, Front(cs)).b, Last(cs).packet))
  }

  /** A packet of length `p` given after one of length `l`, in a run that has not gone past the buffer. Calls
      that only poll may come between the two. */
  predicate Follows(cfg: Config, start: real, cs: seq<Call>, q: Packet, l: nat, p: nat) {
    AllFit(cfg, start, cs) && Packets(cs) != [] && |Last(Packets(cs))| == l && |q| == p
  }

  ghost predicate AlwaysFits(l: nat, p: nat) {
    forall cfg: Config, start: real, cs: seq<Call>, q: Packet :: Follows(cfg, start, cs, q, l, p) ==> Fits(cfg, After(cfg, start, cs).b, q)
  }

  lemma AfterLast(cfg: Config, start: real, cs: seq<Call>, q: Packet, l: nat, p: nat)
    requires Follows(cfg, start, cs, q, l, p) && p <= MAX_PACKET_SIZE && (p <= l + 1 || 2 * l >= MAX_PACKET_SIZE)
    ensures Fits(cfg, After(cfg, start, cs).b, q)
  {
    Conserved(cfg, start, cs);
    Room(cfg, start, cs);
    var r := After(cfg, start, cs);
    if r.b.pending != [] {
      assert Last(r.b.pending) == Last(Join(r.sent) + r.b.pending);
      assert |Flat(r.b.pending)| >= l;
    }
  }

  const GROWING := Config(true, 10000, 1.0)

  function Given(n: nat): Call { Call(Zeros(n), 0.0, 0.0) }

  /** `n` packets of one byte. */
  function Ones(n: nat): seq<Call> {
    if n == 0 then [] else Ones(n - 1) + [Given(1)]
  }

  lemma {:induction false} OnesWait(n: nat)
    requires n < MAX_PACKET_SIZE - 1
    ensures AllFit(GROWING, 0.0, Ones(n))
    ensures var b := After(GROWING, 0.0, Ones(n)).b; |b.pending| == n == |Flat(b.pending)| && b.timer == 0.0
  {
    hide After, AllFit, Flat;
    if n == 0 {
      NothingWaits();
    } else {
      OnesWait(n - 1);
      AddWaits(Ones(n - 1), n - 1, 1);
    }
  }

  lemma NothingWaits()
    ensures AllFit(GROWING, 0.0, []) && After(GROWING, 0.0, []).b == Batch([], 0.0) && Flat([]) == []
  {
  }

  lemma AddWaits(cs: seq<Call>, n: nat, l: nat)
    requires n < MAX_PACKET_SIZE - 1 && l > 0 && AllFit(GROWING, 0.0, cs)
    requires var b := After(GROWING, 0.0, cs).b; |b.pending| == n && b.timer == 0.0 && |Flat(b.pending)| + 2 * l < MAX_PACKET_SIZE
    ensures AllFit(GROWING, 0.0, cs + [Given(l)]) && Packets(cs + [Given(l)]) == Packets(cs) + [Zeros(l)]
    ensures var b, b' := After(GROWING, 0.0, cs).b, After(GROWING, 0.0, cs + [Given(l)]).b;
      |b'.pending| == n + 1 && |Flat(b'.pending)| == |Flat(b.pending)| + l && b'.timer == 0.0
  {
    var cs', b := cs + [Given(l)], After(GROWING, 0.0, cs).b;
    assert Front(cs') == cs && Last(cs') == Given(l);
    var pending := b.pending + [Zeros(l)];
    assert Front(pending) == b.pending && Last(pending) == Zeros(l);
    assert KeepsWaiting(GROWING, pending, Given(l), b.timer);
  }

  /** Enough packets of one byte and one of length `l` leave no room for a packet that is two bytes longer. */
  lemma LongerOverflows(l: nat, p: nat) returns (cs: seq<Call>)
    requires 1 <= l && 2 * l < MAX_PACKET_SIZE && p >= l + 2
    ensures Follows(GROWING, 0.0, cs, Zeros(p), l, p) && !Fits(GROWING, After(GROWING, 0.0, cs).b, Zeros(p))
  {
    var n := MAX_PACKET_SIZE - 1 - 2 * l;
    OnesWait(n);
    AddWaits(Ones(n), n, l);
    cs := Ones(n) + [Given(l)];
  }

  /** Without batching only the packet's own length counts. */
  lemma OversizeOverflows(l: nat, p: nat) returns (cfg: Config, cs: seq<Call>)
    requires 1 <= l <= MAX_PACKET_SIZE < p
    ensures Follows(cfg, 0.0, cs, Zeros(p), l, p) && !Fits(cfg, After(cfg, 0.0, cs).b, Zeros(p))
  {
    cfg, cs := Config(false, 1, 1.0), [Given(l)];
    assert Front(cs) == [] && Packets(cs) == Packets([]) + [Zeros(l)];
  }

  /** A packet of length `p` given after one of length `l` fits, whatever the configuration, the calls so far
      and the clock, if and only if it is not too long for the buffer, and is at most one byte longer than
      that one, or that one was too long to leave anything waiting. */
  lemma FitsExactly(l: nat, p: nat)
    requires 1 <= l <= MAX_PACKET_SIZE
    ensures AlwaysFits(l, p) <==> p <= MAX_PACKET_SIZE && (p <= l + 1 || 2 * l >= MAX_PACKET_SIZE)
  {
    if p > MAX_PACKET_SIZE {
      var cfg, cs := OversizeOverflows(l, p);
    } else if p <= l + 1 || 2 * l >= MAX_PACKET_SIZE {
      forall cfg: Config, start: real, cs: seq<Call>, q: Packet | Follows(cfg, start, cs, q, l, p)
        ensures Fits(cfg, After(cfg, start, cs).b, q)
      {
        AfterLast(cfg, start, cs, q, l, p);
      }
    } else {
      var cs := LongerOverflows(l, p);
    }
  }

  /** A batch that fits in the buffer has no more packets than its header can count. */
  lemma {:induction false} CountFits(ps: seq<Packet>)
    requires forall q :: q in ps ==> q != []
    ensures |ps| <= |Flat(ps)|
    ensures |Flat(ps)| <= MAX_PACKET_SIZE ==> |ps| % 65536 == |ps|
  {
    if ps != [] {
      assert forall q :: q in Front(ps) ==> q in ps;
      assert Last(ps) in ps;
      CountFits(Front(ps));
    }
  }

  // ---- The buffer ----

  /** What is sent for a batch: its packets one after the other, with the number of them, high byte first,
      in the first packet's header. */
  function Image(ps: seq<Packet>): Packet {
    var bytes, n := Flat(ps), |ps| % 65536;
    seq(|bytes|, i requires 0 <= i < |bytes| =>
      if i == NUM_ENTRIES then n / 256 else if i == NUM_ENTRIES + 1 then n % 256 else bytes[i])
  }

  // ---- What a receiver makes of it ----

  /** The number of packets that a batch's header gives. */
  function Entries(bytes: Packet): nat
    requires |bytes| >= 4
  {
    (bytes[NUM_ENTRIES] as int) * 256 + bytes[NUM_ENTRIES + 1]
  }

  /** The packets of these lengths that follow on each other. */
  function Split(bytes: Packet, lengths: seq<nat>): seq<Packet>
    decreases |lengths|
  {
    if lengths == [] || Last(lengths) > |bytes| then []
    else var at := |bytes| - Last(lengths); Split(bytes[..at], Front(lengths)) + [bytes[at..]]
  }

  function Lengths(ps: seq<Packet>): seq<nat> {
    seq(|ps|, i requires 0 <= i < |ps| => |ps[i]|)
  }

  lemma {:induction false} SplitFlat(ps: seq<Packet>)
    ensures Split(Flat(ps), Lengths(ps)) == ps
  {
    if ps != [] {
      SplitFlat(Front(ps));
      assert Front(Lengths(ps)) == Lengths(Front(ps)) && Last(Lengths(ps)) == |Last(ps)|;
      assert Flat(ps)[..|Flat(Front(ps))|] == Flat(Front(ps)) && Flat(ps)[|Flat(Front(ps))|..] == Last(ps);
      assert Front(ps) + [Last(ps)] == ps;
    }
  }

  lemma {:induction false} FlatStart(ps: seq<Packet>, i: nat)
    requires ps != [] && i < |ps[0]|
    ensures i < |Flat(ps)| && Flat(ps)[i] == ps[0][i]
  {
    if |ps| == 1 {
      assert Front(ps) == [] && Flat(ps) == Flat([]) + ps[0];
    } else {
      FlatStart(Front(ps), i);
    }
  }

  function Put(p: Packet, i: nat, x: Byte): Packet
    requires i < |p|
  {
    p[..i] + [x] + p[i + 1..]
  }

  lemma PutFirst(a: Packet, b: Packet, i: nat, x: Byte)
    requires i < |a|
    ensures Put(a + b, i, x) == Put(a, i, x) + b
  {
  }

  lemma FlatLast(ps: seq<Packet>)
    requires ps != []
    ensures Flat(ps) == Flat(Front(ps)) + Last(ps)
    ensures |ps| == 1 ==> Flat(ps) == ps[0]
  {
    if |ps| == 1 { assert Flat(Front(ps)) == []; }
  }

  lemma {:induction false} FlatStored(ps: seq<Packet>, i: nat, x: Byte)
    requires ps != [] && i < |ps[0]|
    ensures i < |Flat(ps)| && Flat(ps[0 := Put(ps[0], i, x)]) == Put(Flat(ps), i, x)
  {
    hide Flat, Put;
    FlatStart(ps, i);
    var ps' := ps[0 := Put(ps[0], i, x)];
    FlatLast(ps);
    FlatLast(ps');
    if |ps| > 1 {
      FlatStored(Front(ps), i, x);
      FlatStart(Front(ps), i);
      PutFirst(Flat(Front(ps)), Last(ps), i, x);
      assert Front(ps') == Front(ps)[0 := Put(ps[0], i, x)] && Last(ps') == Last(ps);
    }
  }

  /** The batch with the number of its packets in the header of the first. */
  function Stamped(ps: seq<Packet>): seq<Packet>
    requires ps != [] && |ps[0]| >= 4
  {
    ps[0 := Put(Put(ps[0], NUM_ENTRIES, |ps| % 65536 / 256), NUM_ENTRIES + 1, |ps| % 65536 % 256)]
  }

  /** A receiver of the batch's bytes finds the number of its packets, and in their places the packets, all
      bytes of which are as they were given but for the first one's number of entries. */
  ghost predicate Decodes(ps: seq<Packet>, bytes: Packet) {
    && ps != [] && |ps[0]| >= 4 && |bytes| >= 4 && |bytes| == |Flat(ps)|
    && Entries(bytes) == |ps|
    && var qs := Split(bytes, Lengths(ps));
    && |qs| == |ps| && (forall k :: 1 <= k < |ps| ==> qs[k] == ps[k]) && |qs[0]| == |ps[0]|
    && forall i :: 0 <= i < |ps[0]| && i != NUM_ENTRIES && i != NUM_ENTRIES + 1 ==> qs[0][i] == ps[0][i]
  }

  lemma ImageDecodes(ps: seq<Packet>)
    requires ps != [] && |ps[0]| >= 4 && (forall q :: q in ps ==> q != []) && |Flat(ps)| <= MAX_PACKET_SIZE
    ensures Decodes(ps, Image(ps))
    ensures forall i :: 0 <= i < |Flat(ps)| && i != NUM_ENTRIES && i != NUM_ENTRIES + 1 ==> Image(ps)[i] == Flat(ps)[i]
  {
    hide Flat, Split;
    CountFits(ps);
    FlatStart(ps, 3);
    var hi, lo := |ps| % 65536 / 256, |ps| % 65536 % 256;
    var qs := ps[0 := Put(ps[0], NUM_ENTRIES, hi)];
    FlatStored(ps, NUM_ENTRIES, hi);
    FlatStored(qs, NUM_ENTRIES + 1, lo);
    assert qs[0 := Put(qs[0], NUM_ENTRIES + 1, lo)] == Stamped(ps);
    assert Image(ps) == Flat(Stamped(ps));
    SplitFlat(Stamped(ps));
    assert Lengths(Stamped(ps)) == Lengths(ps);
  }

  /** What waits, and what was sent, fitted in the buffer. */
  lemma {:induction false} BatchesFit(cfg: Config, start: real, cs: seq<Call>)
    requires AllFit(cfg, start, cs)
    ensures var r := After(cfg, start, cs);
      && |Flat(r.b.pending)| <= MAX_PACKET_SIZE
      && forall j :: 0 <= j < |r.sent| ==> r.sent[j] != [] && |Flat(r.sent[j])| <= MAX_PACKET_SIZE
  {
    if cs != [] {
      BatchesFit(cfg, start, Front(cs));
      Conserved(cfg, start, Front(cs));
      var r := After(cfg, start, Front(cs));
      var p := Last(cs).packet;
      assert Front(r.b.pending + [p]) == r.b.pending && Front([p]) == [] && Flat([p]) == Flat([]) + p;
    }
  }

  lemma {:induction false} InBatches(batches: seq<seq<Packet>>, j: nat, q: Packet)
    requires j < |batches| && q in batches[j]
    ensures q in Join(batches)
  {
    if j < |batches| - 1 { InBatches(Front(batches), j, q); }
  }

  lemma {:induction false} PacketsFrom(cs: seq<Call>, q: Packet)
    requires q in Packets(cs)
    ensures q != [] && exists c :: c in cs && c.packet == q
  {
    if q in Packets(Front(cs)) {
      PacketsFrom(Front(cs), q);
      var c :| c in Front(cs) && c.packet == q;
      assert c in cs;
    } else {
      assert Last(cs) in cs;
    }
  }

  /** In every run in which no copy went past the buffer, and packets have a header: the bytes of each batch
      that was sent decode to its packets, and these are all those given, in order, but the ones that wait. */
  lemma SentDecodes(cfg: Config, start: real, cs: seq<Call>)
    requires AllFit(cfg, start, cs) && forall c :: c in cs ==> c.packet == [] || |c.packet| >= 4
    ensures var r := After(cfg, start, cs);
      && Join(r.sent) + r.b.pending == Packets(cs)
      && forall j :: 0 <= j < |r.sent| ==> Decodes(r.sent[j], Image(r.sent[j]))
  {
    hide Decodes, Image, Flat, Split;
    Conserved(cfg, start, cs);
    BatchesFit(cfg, start, cs);
    var r := After(cfg, start, cs);
    forall j | 0 <= j < |r.sent| ensures Decodes(r.sent[j], Image(r.sent[j])) {
      forall q | q in r.sent[j] ensures |q| >= 4 {
        InBatches(r.sent, j, q);
        assert q in Join(r.sent) + r.b.pending;
        PacketsFrom(cs, q);
      }
      ImageDecodes(r.sent[j]);
    }
  }

  /** The source copies a packet that does not fit past the end of the buffer; what happens then is open. */
  datatype Outcome = Waits | Sent(bytes: Packet) | PastBuffer

  class Sender {
    const cfg: Config
    var finalSendPacket: array<Byte>
    var runningPktSize: nat
    var numPkts: nat
    var batchTimer: real
    ghost var pending: seq<Packet>

    ghost predicate Valid()
      reads this, finalSendPacket
    {
      && finalSendPacket.Length == MAX_PACKET_SIZE
      && runningPktSize == |Flat(pending)| <= MAX_PACKET_SIZE && numPkts == |pending|
      && finalSendPacket[..runningPktSize] == Flat(pending)
      && (forall q :: q in pending ==> q != []) && (!cfg.batchOn ==> pending == [])
    }

    constructor (cfg: Config, start: real)
      ensures Valid() && fresh(finalSendPacket) && pending == [] && batchTimer == start && this.cfg == cfg
    {
      this.cfg := cfg;
      finalSendPacket := new Byte[MAX_PACKET_SIZE](_ => 0);
      runningPktSize, numPkts, batchTimer, pending := 0, 0, start, [];
    }

    method Copy(packet: Packet, at: nat)
      requires finalSendPacket.Length == MAX_PACKET_SIZE && at + |packet| <= MAX_PACKET_SIZE
      modifies finalSendPacket
      ensures finalSendPacket[..at + |packet|] == old(finalSendPacket[..at]) + packet
    {
      for i := 0 to |packet|
        invariant finalSendPacket[..at + i] == old(finalSendPacket[..at]) + packet[..i]
      {
        finalSendPacket[at + i] := packet[i];
        assert finalSendPacket[..at + i + 1] == finalSendPacket[..at + i] + [packet[i]];
      }
      assert packet[..|packet|] == packet;
    }

    /** Copies a packet that fits behind those of the batch, or over them. */
    method Add(packet: Packet)
      requires Valid() && Fits(cfg, Batch(pending, batchTimer), packet)
      modifies this, finalSendPacket
      ensures finalSendPacket == old(finalSendPacket) && batchTimer == old(batchTimer)
      ensures pending == Accept(cfg, old(pending), packet)
      ensures runningPktSize == |Flat(pending)| <= MAX_PACKET_SIZE && numPkts == |pending|
      ensures finalSendPacket[..runningPktSize] == Flat(pending) && forall q :: q in pending ==> q != []
    {
      if cfg.batchOn && |packet| > 0 {
        Copy(packet, runningPktSize);
        runningPktSize := runningPktSize + |packet|;
        numPkts := numPkts + 1;
        pending := pending + [packet];
        assert Front(pending) == old(pending);
      } else if !cfg.batchOn && |packet| > 0 {
        Copy(packet, 0);
        runningPktSize := |packet|;
        numPkts := 1;
        pending := [packet];
        assert Flat([packet]) == Flat([]) + packet;
      }
    }

    /** Adds a packet, or polls. */
    method SendUdpPacket(packet: Packet, now: real, after: real) returns (outcome: Outcome)
      requires Valid()
      modifies this, finalSendPacket
      ensures Valid() && finalSendPacket == old(finalSendPacket)
      ensures outcome == PastBuffer <==> !Fits(cfg, old(Batch(pending, batchTimer)), packet)
      ensures outcome != PastBuffer ==>
        var (b, out) := Step(cfg, old(Batch(pending, batchTimer)), Call(packet, now, after));
        && Batch(pending, batchTimer) == b
        && outcome == match out { case None => Waits case Some(ps) => Sent(Image(ps)) }
    {
      if |packet| > 0 && (if cfg.batchOn then runningPktSize else 0) + |packet| > MAX_PACKET_SIZE {
        return PastBuffer;
      }
      Add(packet);
      var dur := now - batchTimer;
      if cfg.batchOn && numPkts < cfg.batchSize && runningPktSize + |packet| < MAX_PACKET_SIZE && dur < cfg.batchTimeout {
        return Waits;
      }
      outcome := Flush(after);
    }

    /** Sends what is in the buffer, if anything. */
    method Flush(after: real) returns (outcome: Outcome)
      requires finalSendPacket.Length == MAX_PACKET_SIZE && runningPktSize == |Flat(pending)| <= MAX_PACKET_SIZE
      requires numPkts == |pending| && finalSendPacket[..runningPktSize] == Flat(pending) && forall q :: q in pending ==> q != []
      modifies this, finalSendPacket
      ensures Valid() && finalSendPacket == old(finalSendPacket)
      ensures pending == [] && batchTimer == if old(pending) == [] then old(batchTimer) else after
      ensures outcome == if old(pending) == [] then Waits else Sent(Image(old(pending)))
    {
      CountFits(pending);
      if runningPktSize == 0 || numPkts == 0 {
        return Waits;
      }
      Stamp();
      outcome := Sent(finalSendPacket[..runningPktSize]);
      runningPktSize, numPkts, batchTimer, pending := 0, 0, after, [];
    }

    /** Writes the number of packets into the first header. */
    method Stamp()
      requires finalSendPacket.Length == MAX_PACKET_SIZE && runningPktSize == |Flat(pending)| <= MAX_PACKET_SIZE
      requires numPkts == |pending| && finalSendPacket[..runningPktSize] == Flat(pending)
      modifies finalSendPacket
      ensures finalSendPacket[..runningPktSize] == Image(pending)
    {
      var n := numPkts % 65536;
      finalSendPacket[NUM_ENTRIES] := n / 256;
      finalSendPacket[NUM_ENTRIES + 1] := n % 256;
    }
  }
}
