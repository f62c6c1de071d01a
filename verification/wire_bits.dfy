/** Bits and digits of the numbers on the wire, apart from how they are encoded. */
module WireBits {
  import opened Common

  /** Bit `j`, counted from the lowest. */
  predicate Bit(n: nat, j: nat) {
    if j == 0 then n % 2 == 1 else Bit(n / 2, j - 1)
  }

  /** The number whose bit `i`, below `j`, is set where exactly one of `a` and `b` has it. */
  function BitsApart(a: nat, b: nat, j: nat): (r: nat)
    ensures r < Pow2(j)
  {
    if j == 0 then 0
    else BitsApart(a, b, j - 1) + if Bit(a, j - 1) != Bit(b, j - 1) then Pow2(j - 1) else 0
  }

  /** The number made of the lowest `j` bits. */
  function Low(n: nat, j: nat): nat {
    if j == 0 then 0 else n % 2 + 2 * Low(n / 2, j - 1)
  }

  lemma {:induction false} LowIsAll(n: nat, j: nat)
    requires n < Pow2(j)
    ensures Low(n, j) == n
    decreases j
  {
    if j > 0 { LowIsAll(n / 2, j - 1); }
  }

  lemma {:induction false} NextBit(n: nat, j: nat)
    ensures Low(n, j + 1) == Low(n, j) + if Bit(n, j) then Pow2(j) else 0
    decreases j
  {
    if j > 0 { NextBit(n / 2, j - 1); }
  }

  /** If `c` has exactly the bits in which `a` and `b` differ, then `c` and `b` differ in the bits of `a`. */
  lemma {:induction false} ApartAgain(a: nat, b: nat, c: nat, j: nat)
    requires forall i | 0 <= i < j :: Bit(c, i) <==> Bit(a, i) != Bit(b, i)
    ensures BitsApart(c, b, j) == Low(a, j)
  {
    if j > 0 {
      ApartAgain(a, b, c, j - 1);
      NextBit(a, j - 1);
    }
  }

  // ---- digits ----

  lemma {:induction false} MoreTimes(x: nat, y: nat, d: nat)
    requires x <= y
    ensures x * d <= y * d
    decreases d
  {
    if d > 0 {
      MoreTimes(x, y, d - 1);
      assert x * d == x * (d - 1) + x && y * d == y * (d - 1) + y;
    }
  }

  lemma QuotientIsUnique(d: nat, q: nat, r: nat, q': nat, r': nat)
    requires q * d + r == q' * d + r' && r < d && r' < d
    ensures q == q'
  {
    if q < q' { MoreTimes(q + 1, q', d); }
    if q' < q { MoreTimes(q' + 1, q, d); }
  }

  lemma Divides(n: nat, d: nat)
    requires d > 0
    ensures n == (n / d) * d + n % d && 0 <= n % d < d
  {
  }

  lemma Regroup(n: nat, m: nat, low: nat, q: nat, r: nat, d: nat)
    requires n == 256 * m + low && m == q * d + r && low < 256 && r < d
    ensures n == q * (256 * d) + (256 * r + low) && 256 * r + low < 256 * d
  {
  }

  lemma QuotientFrom(n: nat, d: nat, q: nat, r: nat)
    requires n == q * d + r && r < d
    ensures n / d == q
  {
    Divides(n, d);
    QuotientIsUnique(d, n / d, n % d, q, r);
  }

  lemma RegroupedQuotient(n: nat, m: nat, low: nat, q: nat, r: nat, d: nat)
    requires n == 256 * m + low && m == q * d + r && low < 256 && r < d
    ensures n / (256 * d) == q
  {
    Regroup(n, m, low, q, r, d);
    QuotientFrom(n, 256 * d, q, 256 * r + low);
  }

  /** Dropping one digit and then others is dropping them at once. */
  lemma DivideTwice(n: nat, d: nat)
    requires d > 0
    ensures n / (256 * d) == n / 256 / d
  {
    var m := n / 256;
    Divides(m, d);
    RegroupedQuotient(n, m, n % 256, m / d, m % d, d);
  }
}
