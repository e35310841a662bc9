/**
 Sending over a raw socket. The sender keeps one Ethernet header and one IP header, and changes both for
 every packet. The checksum that it puts into the IP header is of the first 40 bytes of the packet's buffer,
 where at that time there is only the Ethernet header; the IP header is copied into the buffer later.

 Headers are read in words, low byte first, as the checksum reads them. A buffer's bytes are zero when it is
 new. What is beyond a buffer of less than 40 bytes is a parameter.
 */
module RawPackets {
  import opened CircularArithmetic
  import opened Checksum

  /** Words in an Ethernet and in an IP header, and the words that the checksum is taken of. */
  const ETH := 7
  const IP := 10
  const SUMMED := 20

  /** The IP header's words for its length, its checksum and its destination. */
  const TOT_LEN := 1
  const CHECK := 5
  const DADDR := 8

  type EthHeader = h: seq<Word> | |h| == ETH witness [0, 0, 0, 0, 0, 0, 0]
  type IpHeader = h: seq<Word> | |h| == IP witness [0, 0, 0, 0, 0, 0, 0, 0, 0, 0]
  type Beyond = h: seq<Word> | |h| == 3 witness [0, 0, 0]

  /** A number of 16 bits with its high byte first. */
  function NetworkOrder(x: nat): Word {
    x % 256 * 256 + x / 256 % 256
  }

  /** The words that are summed: they are those of the Ethernet header, then zeros up to the end of the buffer. */
  function Summed(eth: EthHeader, pktLen: nat, past: Beyond): (words: seq<Word>)
    ensures |words| == SUMMED
  {
    seq(SUMMED, k requires 0 <= k < SUMMED =>
      if k < ETH then eth[k] else if 2 * (k + 1) <= 2 * (ETH + IP) + pktLen then 0 else past[k - ETH - IP])
  }

  function EthFor(eth: EthHeader, mac: (Word, Word, Word), ethType: nat): EthHeader {
    [mac.0, mac.1, mac.2, eth[3], eth[4], eth[5], NetworkOrder(ethType)]
  }

  /** The IP header for a packet, before its checksum. */
  function IpFor(ip: IpHeader, pktLen: nat, dst: (Word, Word)): IpHeader {
    ip[TOT_LEN := NetworkOrder(2 * IP + pktLen)][DADDR := dst.0][DADDR + 1 := dst.1]
  }

  /** The IP header that is sent, when these words were summed. */
  function SentHeader(ip: IpHeader, summed: seq<Word>): IpHeader {
    ip[CHECK := Complement(OnesSum(summed))]
  }

  /** What a receiver checks. */
  predicate Verifies(ip: IpHeader) {
    OnesSum(ip) == ONES
  }

  /** A header verifies exactly if the words that were summed have the same ones' complement sum as the header
      without its checksum, or the one is 0 and the other is all ones. */
  lemma VerifiesExactly(ip: IpHeader, summed: seq<Word>)
    ensures var a, x := OnesSum(summed), OnesSum(ip[CHECK := 0]);
      Verifies(SentHeader(ip, summed)) <==> a == x || (a == 0 && x == ONES)
  {
    var cleared := ip[CHECK := 0];
    HeaderVerifies(cleared, CHECK, Complement(OnesSum(summed)));
    assert cleared[CHECK := Complement(OnesSum(summed))] == SentHeader(ip, summed);
  }

  lemma {:induction false} SumZeros(front: seq<Word>, n: nat)
    ensures Sum(front + Repeat(0, n)) == Sum(front)
  {
    if n > 0 {
      var words := front + Repeat(0, n);
      SumRepeat(0, n - 1);
      assert words[..|words| - 1] == front + Repeat(0, n - 1);
      SumZeros(front, n - 1);
    } else {
      assert front + Repeat(0, 0) == front;
    }
  }

  lemma {:induction false} RepeatAt(x: Word, n: nat, k: nat)
    requires k < n
    ensures |Repeat(x, n)| == n && Repeat(x, n)[k] == x
  {
    if k < n - 1 { RepeatAt(x, n - 1, k); } else { SumRepeat(x, n - 1); }
  }

  /** With a payload of 6 bytes or more the sum is the Ethernet header's. */
  lemma SumsEthernet(eth: EthHeader, pktLen: nat, past: Beyond)
    requires pktLen >= 6
    ensures Sum(Summed(eth, pktLen, past)) == Sum(eth) && OnesSum(Summed(eth, pktLen, past)) == OnesSum(eth)
  {
    var words := Summed(eth, pktLen, past);
    var zeros := Repeat(0, SUMMED - ETH);
    SumRepeat(0, SUMMED - ETH);
    assert words == eth + zeros by {
      forall k | ETH <= k < SUMMED ensures words[k] == zeros[k - ETH] { RepeatAt(0, SUMMED - ETH, k - ETH); }
    }
    SumZeros(eth, SUMMED - ETH);
    OnesSumReduced(eth);
    OnesSumReduced(words);
  }

  /** So a header with a payload of that size verifies exactly if the words of the two headers, its checksum
      left out, have the same sum modulo 65535, and its own are not all 0 while the other's are not. */
  lemma HeadersAgreeExactly(eth: EthHeader, ip: IpHeader, pktLen: nat, past: Beyond)
    requires pktLen >= 6
    ensures var e, x := Sum(eth), Sum(ip[CHECK := 0]);
      Verifies(SentHeader(ip, Summed(eth, pktLen, past))) <==> e % ONES == x % ONES && (x == 0 ==> e == 0)
  {
    VerifiesExactly(ip, Summed(eth, pktLen, past));
    SumsEthernet(eth, pktLen, past);
    OnesSumReduced(eth);
    OnesSumReduced(ip[CHECK := 0]);
    ReducedExactly(Sum(eth), Sum(ip[CHECK := 0]));
  }

  lemma ReducedExactly(e: nat, x: nat)
    ensures (Reduced(e) == Reduced(x) || (Reduced(e) == 0 && Reduced(x) == ONES)) <==> e % ONES == x % ONES && (x == 0 ==> e == 0)
  {
    Residues(e);
    Residues(x);
  }

  lemma Residues(n: nat)
    ensures n > 0 ==> Reduced(n) == if n % ONES == 0 then ONES else n % ONES
  {
    if n > 0 {
      var q, r := n / ONES, n % ONES;
      if r == 0 { DivideUnique(n - 1, ONES, q - 1, ONES - 1); } else { DivideUnique(n - 1, ONES, q, r - 1); }
    }
  }

  // ---- The sender ----

  /** The IP header of a sender: version 4 and five words of 32 bits, number 54321, 64 hops, protocol 255. */
  function NewIpHeader(self: (Word, Word)): IpHeader {
    [0x0045, NetworkOrder(20), NetworkOrder(54321), 0, 0xFF40, 0, self.0, self.1, self.0, self.1]
  }

  /** What a receiver makes of a word with its high byte first. */
  function FromNetwork(w: Word): nat {
    w % 256 * 256 + w / 256
  }

  lemma NetworkRoundTrip(x: nat)
    ensures FromNetwork(NetworkOrder(x)) == x % 65536
  {
    var h, l := x / 256 % 256, x % 256;
    DivideUnique(l * 256 + h, 256, l, h);
    var q := x / 256 / 256;
    assert x == q * 65536 + (h * 256 + l);
    DivideUnique(x, 65536, q, h * 256 + l);
  }

  /** The fields of the headers that are sent, as a receiver reads them: where the packet goes, its kind and
      length are those of the call, and the rest are those of the kept headers. */
  lemma FieldsSent(eth: EthHeader, mac: (Word, Word, Word), ethType: nat, ip: IpHeader, pktLen: nat, dst: (Word, Word), summed: seq<Word>)
    ensures var e := EthFor(eth, mac, ethType);
      e[0] == mac.0 && e[1] == mac.1 && e[2] == mac.2 && e[3..6] == eth[3..6] && FromNetwork(e[6]) == ethType % 65536
    ensures var h := SentHeader(IpFor(ip, pktLen, dst), summed);
      && FromNetwork(h[TOT_LEN]) == (20 + pktLen) % 65536 && h[DADDR] == dst.0 && h[DADDR + 1] == dst.1
      && h[0] == ip[0] && h[2..CHECK] == ip[2..CHECK] && h[CHECK + 1..DADDR] == ip[CHECK + 1..DADDR]
  {
    NetworkRoundTrip(ethType);
    NetworkRoundTrip(20 + pktLen);
  }

  /** The fields of a new header: version 4, five words of 32 bits, number 54321, 64 hops, protocol 255, and
      the sender's address twice. */
  lemma FieldsNew(self: (Word, Word))
    ensures var h := NewIpHeader(self);
      && h[0] % 256 / 16 == 4 && h[0] % 16 == 5 && h[0] / 256 == 0 && FromNetwork(h[TOT_LEN]) == 20 && FromNetwork(h[2]) == 54321
      && h[3] == 0 && h[4] % 256 == 64 && h[4] / 256 == 255 && h[CHECK] == 0 && (h[6], h[7]) == self == (h[DADDR], h[DADDR + 1])
  {
    hide NetworkOrder, FromNetwork;
    NetworkRoundTrip(20);
    NetworkRoundTrip(54321);
  }

  class RawSender {
    const ethHdr: array<Word>
    const ipHdr: array<Word>

    ghost predicate Valid() {
      ethHdr.Length == ETH && ipHdr.Length == IP && ethHdr != ipHdr
    }

    constructor (eth: EthHeader, self: (Word, Word))
      ensures Valid() && fresh(ethHdr) && fresh(ipHdr) && ethHdr[..] == eth && ipHdr[..] == NewIpHeader(self)
    {
      ethHdr := new Word[ETH](i requires 0 <= i < ETH => eth[i]);
      var ip := NewIpHeader(self);
      ipHdr := new Word[IP](i requires 0 <= i < IP => ip[i]);
      new;
      assert ethHdr[..] == eth && ipHdr[..] == ip;
    }

    /** Changes both headers, and returns them as they are sent, one after the other. */
    method SendPacket(mac: (Word, Word, Word), ethType: nat, dst: (Word, Word), pktLen: nat, past: Beyond) returns (headers: seq<Word>)
      requires Valid()
      modifies ethHdr, ipHdr
      ensures var eth := EthFor(old(ethHdr[..]), mac, ethType);
        && ethHdr[..] == eth
        && ipHdr[..] == SentHeader(IpFor(old(ipHdr[..]), pktLen, dst), Summed(eth, pktLen, past))
      ensures headers == ethHdr[..] + ipHdr[..]
    {
      ethHdr[0], ethHdr[1], ethHdr[2] := mac.0, mac.1, mac.2;
      ethHdr[6] := NetworkOrder(ethType);
      var packet := Summed(ethHdr[..], pktLen, past);
      ipHdr[TOT_LEN] := NetworkOrder(2 * IP + pktLen);
      ipHdr[DADDR], ipHdr[DADDR + 1] := dst.0, dst.1;
      UpToLimit(packet);
      ipHdr[CHECK] := Compute(packet);
      headers := ethHdr[..] + ipHdr[..];
    }
  }

  /** A packet of 100 bytes from 10.0.0.1 to 10.0.0.2, broadcast by 02:00:00:00:00:01: its header does not
      verify. */
  lemma SentHeaderFails(past: Beyond)
    ensures var eth := EthFor([0, 0, 0, 0x0002, 0, 0x0100, 0], (ONES, ONES, ONES), 0x0800);
      var ip := IpFor(NewIpHeader((0x000A, 0x0100)), 100, (0x000A, 0x0200));
      !Verifies(SentHeader(ip, Summed(eth, 100, past)))
  {
    hide Sum, Reduced, Verifies, Summed;
    var eth := EthFor([0, 0, 0, 0x0002, 0, 0x0100, 0], (ONES, ONES, ONES), 0x0800);
    var ip := IpFor(NewIpHeader((0x000A, 0x0100)), 100, (0x000A, 0x0200));
    HeadersAgreeExactly(eth, ip, 100, past);
    var h := ip[CHECK := 0];
    EthSum(eth);
    IpSum(h);
    assert eth == [ONES, ONES, ONES, 0x0002, 0, 0x0100, 0x0008];
    assert h == [0x0045, 0x7800, 0x31D4, 0, 0xFF40, 0, 0x000A, 0x0100, 0x000A, 0x0200];
    assert Sum(eth) == 3 * ONES + 0x10A && Sum(h) == 0x1AC6D;
  }

  lemma EthSum(h: EthHeader)
    ensures Sum(h) == h[0] as int + h[1] + h[2] + h[3] + h[4] + h[5] + h[6]
  {
    SumOfFive(h, 5);
    SumUpTo(h, 6);
    SumUpTo(h, 7);
    assert h[..7] == h;
  }

  lemma IpSum(h: IpHeader)
    ensures Sum(h) == h[0] as int + h[1] + h[2] + h[3] + h[4] + h[5] + h[6] + h[7] + h[8] + h[9]
  {
    SumOfFive(h, 5);
    SumOfFive(h, 10);
    assert h[..10] == h;
  }

  lemma SumUpTo(words: seq<Word>, n: nat)
    requires 1 <= n <= |words|
    ensures Sum(words[..n]) == Sum(words[..n - 1]) + words[n - 1]
  {
    assert words[..n][..n - 1] == words[..n - 1];
  }

  lemma SumOfFive(words: seq<Word>, n: nat)
    requires 5 <= n <= |words|
    ensures Sum(words[..n]) == Sum(words[..n - 5]) + words[n - 5] + words[n - 4] + words[n - 3] + words[n - 2] + words[n - 1]
  {
    SumUpTo(words, n);
    SumUpTo(words, n - 1);
    SumUpTo(words, n - 2);
    SumUpTo(words, n - 3);
    SumUpTo(words, n - 4);
  }
}
