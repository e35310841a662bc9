/** Powers of two, the sizes of blocks, tables and index types. */
module Powers {
  function Pow2(n: nat): (r: nat)
    ensures r >= 1 && (n >= 1 ==> r >= 2)
  {
    if n == 0 then 1 else 2 * Pow2(n - 1)
  }

  lemma {:induction false} Pow2Add(m: nat, n: nat)
    ensures Pow2(m + n) == Pow2(m) * Pow2(n)
  {
    if m > 0 {
      Pow2Add(m - 1, n);
      Twice(Pow2(m - 1), Pow2(n));
    }
  }

  lemma Twice(a: nat, b: nat)
    ensures 2 * a * b == 2 * (a * b)
  {
  }

  lemma {:induction false} Pow2Grows(m: nat, n: nat)
    requires m <= n
    ensures Pow2(m) <= Pow2(n)
  {
    if m < n { Pow2Grows(m, n - 1); }
  }

  // ---- Bits ----

  /** Bitwise or. */
  function Or(a: nat, b: nat): nat {
    if a == 0 then b
    else if b == 0 then a
    else 2 * Or(a / 2, b / 2) + if a % 2 == 1 || b % 2 == 1 then 1 else 0
  }

  /** A shift to the right by `n` bits. */
  function Shift(x: nat, n: nat): nat {
    if n == 0 then x else Shift(x / 2, n - 1)
  }

  /** `n` one bits. */
  function Ones(n: nat): nat {
    if n == 0 then 0 else 2 * Ones(n - 1) + 1
  }

  /** The number of bits, without leading zeros. */
  function Bits(x: nat): nat {
    if x == 0 then 0 else Bits(x / 2) + 1
  }

  lemma {:induction false} OnesPower(n: nat)
    ensures Ones(n) + 1 == Pow2(n)
  {
    if n > 0 { OnesPower(n - 1); }
  }

  lemma {:induction false} BitsBound(x: nat)
    requires x > 0
    ensures Bits(x) > 0 && Pow2(Bits(x) - 1) <= x < Pow2(Bits(x)) && Shift(x, Bits(x) - 1) == 1
  {
    if x > 1 { BitsBound(x / 2); }
  }

  lemma {:induction false} ShiftAdd(x: nat, m: nat, n: nat)
    ensures Shift(Shift(x, m), n) == Shift(x, m + n)
  {
    if m > 0 { ShiftAdd(x / 2, m - 1, n); }
  }

  lemma {:induction false} ShiftZero(n: nat)
    ensures Shift(0, n) == 0
  {
    if n > 0 { ShiftZero(n - 1); }
  }

  lemma {:induction false} OrShift(a: nat, b: nat, n: nat)
    ensures Shift(Or(a, b), n) == Or(Shift(a, n), Shift(b, n))
  {
    ShiftZero(n);
    if n > 0 && a > 0 && b > 0 { OrShift(a / 2, b / 2, n - 1); }
  }

  lemma {:induction false} OnesShift(n: nat, k: nat)
    requires k <= n
    ensures Shift(Ones(n), k) == Ones(n - k)
  {
    if k > 0 { OnesShift(n - 1, k - 1); }
  }

  /** n ones and k other bits, with k ones put over those. */
  lemma {:induction false} OrOnes(y: nat, n: nat, k: nat)
    requires Shift(y, k) == Ones(n)
    ensures Or(y, Ones(k)) == Ones(n + k)
  {
    if k > 0 { OrOnes(y / 2, n, k - 1); }
  }

  // ---- Rounding up to a power of two by smearing bits ----

  function SmearOnce(x: nat, n: nat): nat {
    Or(x, Shift(x, n))
  }

  function Least(a: nat, b: nat): nat {
    if a <= b then a else b
  }

  /** The first `n` of the `bits` bits of `x`, or all if there are no more, are ones. */
  predicate Smeared(x: nat, bits: nat, n: nat) {
    Shift(x, bits - Least(n, bits)) == Ones(Least(n, bits))
  }

  lemma SmearBits(x: nat, n: nat, l: nat, k: nat, m: nat)
    requires Shift(x, m + k) == Ones(l) && Shift(x, m + n) == Ones(k)
    ensures Shift(Or(x, Shift(x, n)), m) == Ones(l + k)
  {
    hide Shift, Or, Ones;
    ShiftAdd(x, m, k);
    ShiftAdd(x, n, m);
    OrShift(x, Shift(x, n), m);
    OrOnes(Shift(x, m), l, k);
  }

  lemma SmearMore(x: nat, bits: nat, n: nat, k: nat, m: nat)
    requires m + k + n == bits && k <= n && Shift(x, m + k) == Ones(n)
    ensures Shift(Or(x, Shift(x, n)), m) == Ones(n + k)
  {
    hide Shift, Or, Ones;
    ShiftAdd(x, m + k, n - k);
    OnesShift(n, n - k);
    SmearBits(x, n, n, k, m);
  }

  lemma SmearAll(x: nat, bits: nat, n: nat)
    requires n >= bits && Shift(x, 0) == Ones(bits)
    ensures Shift(Or(x, Shift(x, n)), 0) == Ones(bits)
  {
    assert Ones(0) == 0;
    hide Shift, Or, Ones;
    ShiftAdd(x, bits, n - bits);
    OneShift(x, bits);
    ShiftZero(n - bits);
    SmearBits(x, n, bits, 0, 0);
  }

  /** Each shift by as many bits as are smeared already doubles their number. */
  lemma SmearStep(x: nat, bits: nat, n: nat)
    requires Smeared(x, bits, n)
    ensures Smeared(SmearOnce(x, n), bits, 2 * n)
  {
    hide Shift, Or, Ones;
    if n <= bits {
      var k := Least(n, bits - n);
      SmearMore(x, bits, n, k, bits - n - k);
    } else {
      SmearAll(x, bits, n);
    }
  }

  lemma OneShift(x: nat, bits: nat)
    requires Shift(x, 0) == Ones(bits)
    ensures Shift(x, bits) == 0
  {
  }

  /** `r` is the least power of two that is at least `x`. */
  ghost predicate LeastPower(x: nat, r: nat) {
    && (exists k :: r == Pow2(k)) && r >= x
    && forall k :: Pow2(k) >= x ==> Pow2(k) >= r
  }

  lemma LeastPowerOfBits(x: nat)
    requires x > 0
    ensures LeastPower(x, Pow2(Bits(x - 1)))
  {
    var b := Bits(x - 1);
    if x > 1 { BitsBound(x - 1); }
    forall k | Pow2(k) >= x ensures Pow2(k) >= Pow2(b) {
      if k < b { Pow2Grows(k, b - 1); } else { Pow2Grows(b, k); }
    }
  }

  /**
   Rounds `x` up by smearing the bits of `x - 1` to the right and adding one, in words of `bytes`
   bytes, a power of two: exactly the least power of two, if that fits in a word, and otherwise 0, as for
   0 itself, where `x - 1` wraps around.
   */
  method CeilToPow2(x: nat, bytes: nat, ghost byteLog: nat) returns (r: nat)
    requires bytes == Pow2(byteLog) && x < Pow2(8 * bytes)
    ensures if 0 < x <= Pow2(8 * bytes - 1) then LeastPower(x, r) else r == 0
  {
    hide Shift, Or, Pow2, LeastPower, Ones, Bits, Smeared, SmearOnce;
    var y: nat := if x == 0 then Pow2(8 * bytes) - 1 else x - 1;
    ghost var word := y;
    ghost var bits := Bits(y);
    FirstSmeared(y);
    SmearStep(y, bits, 1);
    y := SmearOnce(y, 1);
    SmearStep(y, bits, 2);
    y := SmearOnce(y, 2);
    SmearStep(y, bits, 4);
    y := SmearOnce(y, 4);
    var i: nat := 1;
    ghost var j := 0;
    assert i == Pow2(j) by { PowerValues(); }
    while i < bytes
      invariant j <= byteLog && i == Pow2(j) && Smeared(y, bits, 8 * i)
      decreases byteLog - j
    {
      NextPower(j, byteLog);
      SmearStep(y, bits, 8 * i);
      y := SmearOnce(y, 8 * i);
      i := 2 * i;
      j := j + 1;
    }
    BitsWithin(word, 8 * bytes);
    AllSmeared(y, bits, 8 * i);
    if x > 0 {
      LeastPowerOfBits(x);
      WordOrNot(x, 8 * bytes);
    } else {
      WordOfOnes(8 * bytes);
    }
    r := if y + 1 == Pow2(8 * bytes) then 0 else y + 1;
  }

  lemma PowerValues()
    ensures Pow2(0) == 1
  {
  }

  lemma FirstSmeared(y: nat)
    ensures Smeared(y, Bits(y), 1)
  {
    assert Ones(1) == 1;
    if y > 0 { BitsBound(y); }
  }

  lemma NextPower(j: nat, k: nat)
    requires j <= k && Pow2(j) < Pow2(k)
    ensures j < k && Pow2(j + 1) == 2 * Pow2(j) <= Pow2(k)
  {
    Pow2Grows(j + 1, k);
  }

  lemma AllSmeared(y: nat, bits: nat, n: nat)
    requires Smeared(y, bits, n) && bits <= n
    ensures y + 1 == Pow2(bits)
  {
    OnesPower(bits);
  }

  lemma BitsWithin(x: nat, n: nat)
    requires x < Pow2(n)
    ensures Bits(x) <= n
  {
  }

  lemma WordOfOnes(n: nat)
    requires n > 0
    ensures Bits(Pow2(n) - 1) == n
  {
    var b := Bits(Pow2(n) - 1);
    BitsWithin(Pow2(n) - 1, n);
    BitsBound(Pow2(n) - 1);
    if b < n { Pow2Grows(b, n - 1); }
  }

  lemma WordOrNot(x: nat, n: nat)
    requires 0 < x < Pow2(n) && n > 0
    ensures x <= Pow2(n - 1) <==> Bits(x - 1) < n
    ensures Bits(x - 1) < n ==> Pow2(Bits(x - 1)) < Pow2(n)
  {
    if x > 1 { BitsBound(x - 1); }
    BitsWithin(x - 1, n);
    if Bits(x - 1) < n {
      Pow2Grows(Bits(x - 1), n - 1);
    } else {
      assert x - 1 >= Pow2(n - 1);
    }
  }
}
