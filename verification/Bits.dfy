/** Bitwise operators on numbers, and when they are sums, quotients and remainders. */
module Bits {

  function Pow2(k: nat): (p: nat)
    ensures p >= 1
  {
    if k == 0 then 1 else 2 * Pow2(k - 1)
  }

  function Or(a: nat, b: nat): nat {
    if a == 0 && b == 0 then 0 else (if a % 2 == 1 || b % 2 == 1 then 1 else 0) + 2 * Or(a / 2, b / 2)
  }

  function And(a: nat, b: nat): nat {
    if a == 0 || b == 0 then 0 else (if a % 2 == 1 && b % 2 == 1 then 1 else 0) + 2 * And(a / 2, b / 2)
  }

  /** A 32-bit shift to the left, which drops the bits that leave the word. */
  function Shl(a: nat, k: nat): (r: nat)
    ensures r < 0x1_0000_0000
  {
    a * Pow2(k) % 0x1_0000_0000
  }

  function Shr(a: nat, k: nat): nat {
    if k == 0 then a else Shr(a / 2, k - 1)
  }

  // ---------------------------------------------------------------- arithmetic

  lemma DivModUnique(x: int, m: int, q: int, r: int)
    requires m > 0 && x == q * m + r && 0 <= r < m
    ensures x / m == q && x % m == r
  {
    var d := x / m - q;
    assert x == (x / m) * m + x % m;
    assert d * m == r - x % m;
    Multiples(d, m);
  }

  lemma Multiples(d: int, m: int)
    requires m > 0
    ensures d >= 1 ==> d * m >= m
    ensures d <= -1 ==> d * m <= -m
  {
    if d >= 1 {
      assert (d - 1) * m >= 0;
    } else if d <= -1 {
      assert (-d - 1) * m >= 0;
    }
  }

  /** Dividing by two and then by `m` is dividing by `2 * m`. */
  lemma Halve(x: nat, m: nat)
    requires m > 0
    ensures x / (2 * m) == x / 2 / m && x % (2 * m) == x % 2 + 2 * (x / 2 % m)
  {
    var q, r := x / 2 / m, x / 2 % m;
    assert x / 2 == q * m + r;
    assert x == q * (2 * m) + (x % 2 + 2 * r) by {
      assert x == 2 * (x / 2) + x % 2;
      assert 2 * (q * m) == q * (2 * m);
    }
    DivModUnique(x, 2 * m, q, x % 2 + 2 * r);
  }

  lemma {:induction false} ShrDivides(a: nat, k: nat)
    ensures Shr(a, k) == a / Pow2(k)
  {
    if k > 0 {
      ShrDivides(a / 2, k - 1);
      Halve(a, Pow2(k - 1));
    }
  }

  lemma {:induction false} ShrUndoes(a: nat, k: nat)
    ensures Shr(a * Pow2(k), k) == a
  {
    if k > 0 {
      Regroup(a, Pow2(k - 1));
      ShrUndoes(a, k - 1);
    }
  }

  // ---------------------------------------------------------------- or

  lemma {:induction false} OrNothing(a: nat)
    ensures Or(a, 0) == a
  {
    if a != 0 {
      OrNothing(a / 2);
    }
  }

  lemma {:induction false} OrSwaps(a: nat, b: nat)
    ensures Or(a, b) == Or(b, a)
  {
    if a != 0 || b != 0 {
      OrSwaps(a / 2, b / 2);
    }
  }

  /** Fields that do not overlap are added. */
  lemma {:induction false} OrAdds(a: nat, b: nat, k: nat)
    requires a % Pow2(k) == 0 && b < Pow2(k)
    ensures Or(a, b) == a + b
    decreases k
  {
    if k == 0 {
      OrNothing(a);
    } else {
      Halve(a, Pow2(k - 1));
      OrAdds(a / 2, b / 2, k - 1);
    }
  }

  // ---------------------------------------------------------------- and

  lemma AndOdd(w: nat, m: nat)
    ensures And(w, 2 * m + 1) == w % 2 + 2 * And(w / 2, m)
  {
  }

  /** A mask of low bits takes the remainder. */
  lemma {:induction false} AndLow(w: nat, k: nat)
    ensures And(w, Pow2(k) - 1) == w % Pow2(k)
    decreases k
  {
    if k > 0 {
      var p := Pow2(k - 1);
      Halve(w, p);
      AndLow(w / 2, k - 1);
      AndOdd(w, p - 1);
      hide And;
    }
  }

  lemma AndDouble(w: nat, m: nat)
    ensures And(w, 2 * m) == 2 * And(w / 2, m)
  {
  }

  lemma Regroup(a: nat, p: nat)
    ensures a * (2 * p) == 2 * (a * p)
  {
  }

  /** A shifted mask takes the field it covers, in its place. */
  lemma {:induction false} AndHigh(w: nat, m: nat, k: nat)
    ensures And(w, m * Pow2(k)) == And(Shr(w, k), m) * Pow2(k)
    decreases k
  {
    hide And;
    if k == 0 {
      assert Pow2(0) == 1 && Shr(w, 0) == w;
    } else {
      var p := Pow2(k - 1);
      assert Pow2(k) == 2 * p && Shr(w, k) == Shr(w / 2, k - 1);
      hide Pow2;
      hide Shr;
      AndHigh(w / 2, m, k - 1);
      var f := And(Shr(w, k), m);
      Regroup(m, p);
      AndDouble(w, m * p);
      Regroup(f, p);
    }
  }

  /** The field of `n` bits at bit `k`. */
  lemma Field(w: nat, n: nat, k: nat)
    ensures Shr(And(w, (Pow2(n) - 1) * Pow2(k)), k) == w / Pow2(k) % Pow2(n)
    ensures And(w, (Pow2(n) - 1) * Pow2(k)) == w / Pow2(k) % Pow2(n) * Pow2(k)
  {
    AndHigh(w, Pow2(n) - 1, k);
    AndLow(Shr(w, k), n);
    ShrDivides(w, k);
    ShrUndoes(Shr(w, k) % Pow2(n), k);
  }

  // ---------------------------------------------------------------- with the powers written out

  lemma Powers()
    ensures Pow2(0) == 1 && Pow2(1) == 2 && Pow2(2) == 4 && Pow2(3) == 8 && Pow2(4) == 16 && Pow2(5) == 32
    ensures Pow2(6) == 64 && Pow2(10) == 0x400 && Pow2(14) == 0x4000 && Pow2(16) == 0x1_0000
    ensures Pow2(18) == 0x4_0000 && Pow2(26) == 0x400_0000 && Pow2(28) == 0x1000_0000
  {
  }

  lemma FieldOf(w: nat, n: nat, k: nat, q: nat, p: nat, mask: nat)
    requires Pow2(n) == q && Pow2(k) == p && mask == (q - 1) * p
    ensures Shr(And(w, mask), k) == w / p % q && And(w, mask) == w / p % q * p
  {
    Field(w, n, k);
  }

  lemma ShlTimes(a: nat, k: nat, p: nat)
    requires Pow2(k) == p && a * p < 0x1_0000_0000
    ensures Shl(a, k) == a * p
  {
  }

  lemma OrSum(a: nat, b: nat, k: nat, p: nat)
    requires Pow2(k) == p && a % p == 0 && b < p
    ensures Or(a, b) == a + b && Or(b, a) == a + b
  {
    OrAdds(a, b, k);
    OrSwaps(a, b);
  }
}
