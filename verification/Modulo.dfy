/** Remainders: what the masks of power-of-two capacities compute. */
module Modulo {

  lemma {:induction false} ModMultiple(a: int, c: nat, q: int)
    requires 0 < c
    ensures (a + q * c) % c == a % c
    decreases if q < 0 then -q else q
  {
    if 0 < q {
      ModMultiple(a + c, c, q - 1);
      assert a + q * c == (a + c) + (q - 1) * c;
      ModOnce(a, c);
    } else if q < 0 {
      ModMultiple(a - c, c, q + 1);
      assert a + q * c == (a - c) + (q + 1) * c;
      ModOnce(a - c, c);
    }
  }

  lemma ModOnce(a: int, c: nat)
    requires 0 < c
    ensures (a + c) % c == a % c
  {
    var q, r := a / c, a % c;
    assert a + c == (q + 1) * c + r;
    Unique(a + c, c, q + 1, r);
  }

  lemma Unique(a: int, c: nat, q: int, r: int)
    requires 0 < c && a == q * c + r && 0 <= r < c
    ensures a % c == r
  {
    var d := a / c - q;
    assert a == (a / c) * c + a % c;
    assert (a / c) * c - q * c == d * c;
    assert d * c == r - a % c;
    assert 0 < d ==> c <= d * c;
    assert d < 0 ==> d * c <= -1 * c;
  }

  lemma ModAdd(a: int, d: int, c: nat)
    requires 0 < c
    ensures (a % c + d) % c == (a + d) % c
  {
    assert a == (a / c) * c + a % c;
    assert a + d == (a % c + d) + (a / c) * c;
    ModMultiple(a % c + d, c, a / c);
  }
}
