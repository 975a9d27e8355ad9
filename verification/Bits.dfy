/** The bit tricks the queues rest on: rounding up to a power of two, index masking, and comparing
    counters that wrap. A `size_t` is a natural number below 2^64; shifts and ors are spelled out on bits. */
module Bits {
  import opened Modulo

  const WORD: int := 0x1_0000_0000_0000_0000
  const HALF: int := 0x8000_0000_0000_0000

  function Pow2(n: nat): (r: nat)
    ensures 1 <= r
  {
    if n == 0 then 1 else 2 * Pow2(n - 1)
  }

  function Bit(a: nat, i: nat): nat { if i == 0 then a % 2 else Bit(a / 2, i - 1) }

  /** `a >> k` */
  function Shr(a: nat, k: nat): nat { if k == 0 then a else Shr(a / 2, k - 1) }

  /** `a | b` */
  function Or(a: nat, b: nat): nat {
    if a == 0 && b == 0 then 0
    else 2 * Or(a / 2, b / 2) + (if a % 2 == 1 || b % 2 == 1 then 1 else 0)
  }

  ghost predicate IsPow2(p: nat) { exists n: nat :: n <= p && p == Pow2(n) }

  ghost predicate Ones(a: nat, lo: int, hi: nat) {
    forall i: nat :: lo <= i < hi ==> Bit(a, i) == 1
  }

  lemma {:induction false} ShrBit(a: nat, k: nat, i: nat)
    ensures Bit(Shr(a, k), i) == Bit(a, i + k)
  {
    if k != 0 {
      ShrBit(a / 2, k - 1, i);
    }
  }

  lemma OrHalf(a: nat, b: nat)
    ensures Or(a, b) / 2 == Or(a / 2, b / 2) && Or(a, b) % 2 == if a % 2 == 1 || b % 2 == 1 then 1 else 0
  {
  }

  lemma {:induction false} OrBit(a: nat, b: nat, i: nat)
    ensures Bit(Or(a, b), i) == if Bit(a, i) == 1 || Bit(b, i) == 1 then 1 else 0
    decreases i
  {
    hide Or;
    OrHalf(a, b);
    if i != 0 { OrBit(a / 2, b / 2, i - 1); }
  }

  lemma {:induction false} OrBelow(a: nat, b: nat, n: nat)
    requires a < Pow2(n) && b < Pow2(n)
    ensures Or(a, b) < Pow2(n)
  {
    if n != 0 && !(a == 0 && b == 0) {
      OrBelow(a / 2, b / 2, n - 1);
    }
  }

  lemma {:induction false} ShrBelow(a: nat, k: nat, n: nat)
    requires a < Pow2(n)
    ensures Shr(a, k) < Pow2(n)
  {
    if k != 0 {
      ShrBelow(a / 2, k - 1, n);
    }
  }

  /** A number below 2^n with all n low bits set is 2^n - 1. */
  lemma {:induction false} AllOnes(a: nat, n: nat)
    requires a < Pow2(n) && Ones(a, 0, n)
    ensures a + 1 == Pow2(n)
  {
    if n != 0 {
      assert Bit(a, 0) == 1;
      forall i: nat | 0 <= i < n - 1 ensures Bit(a / 2, i) == 1 {
        assert Bit(a, i + 1) == 1;
      }
      AllOnes(a / 2, n - 1);
    }
  }

  lemma {:induction false} TopBit(a: nat, n: nat)
    requires 0 < n && Pow2(n - 1) <= a < Pow2(n)
    ensures Bit(a, n - 1) == 1
  {
    if n != 1 {
      TopBit(a / 2, n - 1);
    }
  }

  function BitLength(a: nat): (n: nat)
    ensures a < Pow2(n) && (0 < a ==> 0 < n && Pow2(n - 1) <= a)
  {
    if a == 0 then 0 else BitLength(a / 2) + 1
  }

  /** `x | (x >> t)` doubles a run of t ones at the top of an n-bit number. */
  lemma DoubleOnes(a: nat, n: nat, t: nat)
    requires a < Pow2(n) && Ones(a, n - t, n)
    ensures var b := Or(a, Shr(a, t)); b < Pow2(n) && Ones(b, n - 2 * t, n)
  {
    ShrBelow(a, t, n);
    OrBelow(a, Shr(a, t), n);
    forall i: nat | n - 2 * t <= i < n ensures Bit(Or(a, Shr(a, t)), i) == 1 {
      ShrBit(a, t, i);
      OrBit(a, Shr(a, t), i);
      assert i < n - t ==> n - t <= i + t < n;
    }
  }

  lemma {:induction false} Pow2Monotone(m: nat, n: nat)
    requires m <= n
    ensures Pow2(m) <= Pow2(n)
  {
    if m < n { Pow2Monotone(m, n - 1); }
  }

  lemma {:induction false} Pow2Above(n: nat)
    ensures n <= Pow2(n)
  {
    if n != 0 { Pow2Above(n - 1); }
  }

  /** The loop shifts by 8, 16 and 32 after the straight-line shifts by 1, 2 and 4; the result is the least
      power of two not below x. */
  method CeilToPow2(x0: nat) returns (x: nat)
    requires 1 <= x0 <= HALF
    ensures IsPow2(x) && x0 <= x
    ensures forall p :: IsPow2(p) && x0 <= p ==> x <= p
  {
    hide Shr, Or, Bit, Pow2, BitLength, IsPow2, Ones;
    x := x0 - 1;
    ghost var n := BitLength(x);
    TopOne(x);
    DoubleOnes(x, n, 1);
    x := Or(x, Shr(x, 1));
    DoubleOnes(x, n, 2);
    x := Or(x, Shr(x, 2));
    DoubleOnes(x, n, 4);
    x := Or(x, Shr(x, 4));
    var i: nat := 1;
    while i < 8
      invariant 1 <= i && (i == 1 || i == 2 || i == 4 || i == 8)
      invariant x < Pow2(n) && Ones(x, n - 8 * i, n)
    {
      DoubleOnes(x, n, 8 * i);
      x := Or(x, Shr(x, 8 * i));
      i := 2 * i;
    }
    FewerOnes(x, n - 64, n);
    AllOnes(x, n);
    x := x + 1;
    LeastPow2(x0);
  }

  lemma FewerOnes(a: nat, lo: int, hi: nat)
    requires lo <= 0 && Ones(a, lo, hi)
    ensures Ones(a, 0, hi)
  {
  }

  lemma TopOne(a: nat)
    requires a < HALF
    ensures var n := BitLength(a); a < Pow2(n) && Ones(a, n - 1, n) && n <= 63
  {
    BitLengthBelow(a);
    if a != 0 { TopBit(a, BitLength(a)); }
  }

  lemma LeastPow2(a: nat)
    requires 1 <= a
    ensures var p := Pow2(BitLength(a - 1)); IsPow2(p) && a <= p && forall q :: IsPow2(q) && a <= q ==> p <= q
  {
    var n := BitLength(a - 1);
    Pow2Above(n);
    forall p | IsPow2(p) && a <= p ensures Pow2(n) <= p {
      var m: nat :| p == Pow2(m);
      if m < n { Pow2Monotone(m, n - 1); } else { Pow2Monotone(n, m); }
    }
  }

  lemma BitLengthBelow(a: nat)
    requires a < HALF
    ensures BitLength(a) <= 63
  {
    if 63 < BitLength(a) {
      Pow2Monotone(63, BitLength(a) - 1);
      assert Pow2(63) == HALF by {
        Pow2Of(16);
        Pow2Plus(16, 16);
        Pow2Plus(32, 16);
        Pow2Plus(48, 15);
      }
    }
  }

  lemma Pow2Of(n: nat)
    requires n == 16
    ensures Pow2(n) == 65536 && Pow2(n - 1) == 32768
  {
    assert Pow2(4) == 16;
    assert Pow2(8) == 256;
    assert Pow2(12) == 4096;
  }

  lemma {:induction false} Pow2Plus(m: nat, n: nat)
    ensures Pow2(m + n) == Pow2(m) * Pow2(n)
  {
    if n != 0 { Pow2Plus(m, n - 1); }
  }

  /** `a & b` */
  function And(a: nat, b: nat): nat {
    if a == 0 || b == 0 then 0 else 2 * And(a / 2, b / 2) + (if a % 2 == 1 && b % 2 == 1 then 1 else 0)
  }

  /** Masking with a power of two less one is the remainder: what the index computations of all the rings and
      hash tables come to. */
  lemma {:induction false} MaskIsRemainder(a: nat, n: nat)
    ensures And(a, Pow2(n) - 1) == a % Pow2(n)
  {
    hide And;
    AndNone(a);
    if n != 0 {
      HalfRemainder(a, Pow2(n - 1));
      AndHalf(a, Pow2(n) - 1);
      MaskIsRemainder(a / 2, n - 1);
    }
  }

  lemma AndNone(a: nat)
    ensures And(a, 0) == 0
  {
  }

  lemma AndHalf(a: nat, b: nat)
    requires b % 2 == 1
    ensures And(a, b) == 2 * And(a / 2, b / 2) + a % 2
  {
  }

  lemma HalfRemainder(a: nat, p: nat)
    requires 0 < p
    ensures a % (2 * p) == 2 * (a / 2 % p) + a % 2
  {
    var q, r := a / 2 / p, a / 2 % p;
    assert a / 2 == q * p + r;
    Unique(a, 2 * p, q, 2 * r + a % 2);
  }

  /** `circular_less_than` on two 64-bit counters. */
  predicate CircularLessThan(a: nat, b: nat)
    requires a < WORD && b < WORD
  {
    (if b <= a then a - b else a + WORD - b) > HALF
  }

  /** On two counters less than a word apart, the comparison of the wrapped values is that of the counts they
      stand for exactly when the first is less than half the word behind, or at most half the word ahead. */
  lemma CircularOrder(a: int, b: int)
    requires -WORD < a - b < WORD
    ensures (CircularLessThan(a % WORD, b % WORD) <==> a < b) <==> -HALF < a - b <= HALF
  {
  }
}
