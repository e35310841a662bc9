/**
 The header checksum: 16-bit words are added in a wide register, which is folded twice, and the
 complement of the result is the checksum. It should be the complement of the ones' complement sum
 (section 1 of RFC 1071, section 3.1 of RFC 791).
 */
module Checksum {
  import opened CircularArithmetic

  const WORD := 65536
  const ONES := 65535

  type Word = x: int | 0 <= x < 65536

  function Sum(words: seq<Word>): (r: nat)
    ensures r <= |words| * ONES
  {
    if words == [] then 0 else Sum(words[..|words| - 1]) + words[|words| - 1]
  }

  /** Addition in ones' complement: a carry out of the high bit is added back in. */
  function Add(x: Word, y: Word): Word {
    if x + y < WORD then x + y else x + y - ONES
  }

  function OnesSum(words: seq<Word>): Word {
    if words == [] then 0 else Add(OnesSum(words[..|words| - 1]), words[|words| - 1])
  }

  function Complement(x: Word): Word { ONES - x }

  /** One fold of the register's high part into its low part. */
  function Fold(sum: nat): nat { sum / WORD + sum % WORD }

  /** The second fold, `sum += sum >> 16`, does not clear the high part; the result is cut to 16 bits. */
  function Twice(sum: nat): nat { Fold(sum) + Fold(sum) / WORD }

  function Cut(x: nat): Word { x % WORD }

  /** The ones' complement sum is the sum modulo 65535, with 65535 and not 0 for a nonzero multiple. */
  function Reduced(sum: nat): Word {
    if sum == 0 then 0 else (sum - 1) % ONES + 1
  }

  lemma {:induction false} OnesSumReduced(words: seq<Word>)
    ensures OnesSum(words) == Reduced(Sum(words))
  {
    if words != [] {
      var front, x := words[..|words| - 1], words[|words| - 1];
      OnesSumReduced(front);
      AddReduced(Sum(front), x);
    }
  }

  lemma AddReduced(sum: nat, x: Word)
    ensures Add(Reduced(sum), x) == Reduced(sum + x)
  {
  }

  lemma FoldReduced(sum: nat)
    ensures Reduced(Fold(sum)) == Reduced(sum)
  {
  }

  /** Adding the high part of the folded sum to its low part does not carry again. */
  predicate FoldsEnough(sum: nat) {
    Fold(sum) % WORD + Fold(sum) / WORD < WORD
  }

  /** Two folds are right exactly then, for the sums that a count in an `int` allows. */
  lemma TwiceExactly(sum: nat)
    requires sum < 0x8000_0000 * WORD
    ensures Cut(Twice(sum)) == Reduced(sum) <==> FoldsEnough(sum)
  {
    var f := Fold(sum);
    var h, l := f / WORD, f % WORD;
    assert f == h * WORD + l;
    FoldReduced(sum);
    FoldReduced(f);
    if h + l < WORD {
      DivideUnique(f + h, WORD, h, l + h);
      if h + l > 0 { DivideUnique(h + l - 1, ONES, 0, h + l - 1); }
    } else {
      CarryLost(f, h, l);
    }
  }

  /** A second carry is lost: the result is one short. */
  lemma CarryLost(f: nat, h: nat, l: nat)
    requires f == h * WORD + l && l < WORD && WORD <= h + l && h < ONES
    ensures Cut(f + h) != Reduced(h + l)
  {
  }

  // ---- The function ----

  method Compute(buf: seq<Word>) returns (sum: Word)
    requires |buf| < 0x8000_0000
    ensures sum == Complement(Cut(Twice(Sum(buf))))
    ensures sum == Complement(OnesSum(buf)) <==> FoldsEnough(Sum(buf))
  {
    var wide: nat := 0;
    var nwords, i := |buf|, 0;
    while nwords > 0
      invariant 0 <= nwords && i >= 0 && i + nwords == |buf| && wide == Sum(buf[..i])
    {
      assert buf[..i + 1][..i] == buf[..i];
      wide := wide + buf[i];
      i := i + 1;
      nwords := nwords - 1;
    }
    assert buf[..i] == buf;
    TwiceExactly(wide);
    OnesSumReduced(buf);
    wide := wide / WORD + wide % WORD;
    wide := wide + wide / WORD;
    sum := Complement(Cut(wide));
  }

  /** Two folds are enough for all buffers of up to 65538 words. */
  lemma UpToLimit(buf: seq<Word>)
    requires |buf| <= 65538
    ensures FoldsEnough(Sum(buf))
  {
  }

  function Repeat(x: Word, n: nat): seq<Word> {
    if n == 0 then [] else Repeat(x, n - 1) + [x]
  }

  lemma {:induction false} SumRepeat(x: Word, n: nat)
    ensures |Repeat(x, n)| == n && Sum(Repeat(x, n)) == n * x
  {
    if n > 0 { SumRepeat(x, n - 1); }
  }

  /** And for no more: with 65539 words the checksum can be wrong. */
  lemma OverLimit()
    ensures var buf := Repeat(ONES, 65538) + [1]; |buf| == 65539 && !FoldsEnough(Sum(buf))
  {
    SumRepeat(ONES, 65538);
    assert (Repeat(ONES, 65538) + [1])[..65538] == Repeat(ONES, 65538);
  }

  // ---- What a checksum is for ----

  lemma {:induction false} SumStored(words: seq<Word>, k: nat, c: Word)
    requires k < |words|
    ensures Sum(words[k := c]) == Sum(words) - words[k] + c
  {
    var n := |words| - 1;
    if k < n {
      SumStored(words[..n], k, c);
      assert words[k := c][..n] == words[..n][k := c];
    } else {
      assert words[k := c][..n] == words[..n];
    }
  }

  /** Words with a 0 among them add up to all ones when their own checksum takes its place; and no other
      value there does that, except that all ones and 0 are both zero. */
  lemma HeaderVerifies(words: seq<Word>, k: nat, c: Word)
    requires k < |words| && words[k] == 0
    ensures OnesSum(words[k := c]) == ONES <==> c == Complement(OnesSum(words)) || (c == ONES && OnesSum(words) == ONES)
  {
    SumStored(words, k, c);
    OnesSumReduced(words);
    OnesSumReduced(words[k := c]);
    AddReduced(Sum(words), c);
  }
}
