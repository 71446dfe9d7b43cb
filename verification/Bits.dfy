/** Unsigned integers as natural numbers: the bitwise operators the sources
    apply to them, and the residues that a power-of-two mask computes. */
module Bits {
  const TWO_32: nat := 0x1_0000_0000
  const TWO_63: int := 0x8000_0000_0000_0000
  const TWO_64: nat := 0x1_0000_0000_0000_0000


  function Pow2(k: nat): (r: nat)
    ensures r >= 1
  {
    if k == 0 then 1 else 2 * Pow2(k - 1)
  }

  /** The `&` operator, bit by bit. */
  function And(a: nat, b: nat): (r: nat)
    ensures r <= a && r <= b
  {
    if a == 0 || b == 0 then 0
    else (if a % 2 == 1 && b % 2 == 1 then 1 else 0) + 2 * And(a / 2, b / 2)
  }

  /** The `|` operator, bit by bit. */
  function Or(a: nat, b: nat): nat
    decreases a + b
  {
    if a == 0 then b else if b == 0 then a
    else (if a % 2 == 1 || b % 2 == 1 then 1 else 0) + 2 * Or(a / 2, b / 2)
  }

  /** The `<<` operator, one place at a time. */
  function Shl(a: nat, k: nat): nat { if k == 0 then a else 2 * Shl(a, k - 1) }

  /** The `>>` operator, one place at a time. */
  function Shr(a: nat, k: nat): nat { if k == 0 then a else Shr(a / 2, k - 1) }

  /** The condition both queues check at compile time. */
  predicate PowerOfTwo(n: nat) { n > 0 && And(n, n - 1) == 0 }

  /** Quotient and remainder are determined by their defining equation. */
  lemma DivModUnique(x: int, q: int, r: int, n: int)
    requires 0 <= r < n && x == q * n + r
    ensures x / n == q && x % n == r
  {
    var d := x / n - q;
    assert d * n == r - x % n by { assert x == (x / n) * n + x % n; }
    assert d >= 1 ==> d * n >= n;
    assert d <= -1 ==> d * n <= -n;
  }

  /** Two different numbers on the same slot are at least a whole lap apart. */
  lemma LapApart(a: int, b: int, n: int)
    requires n > 0 && a % n == b % n && a < b
    ensures a + n <= b
  {
    var d := b / n - a / n;
    assert b - a == d * n by {
      assert a == (a / n) * n + a % n;
      assert b == (b / n) * n + b % n;
    }
    assert d <= 0 ==> d * n <= 0;
    assert (d - 1) * n >= 0;
  }

  /** Whole laps do not change the slot. */
  lemma SameSlot(x: int, y: int, k: int, n: int)
    requires n > 0 && x == y + k * n
    ensures x % n == y % n
  {
    assert x == (y / n + k) * n + y % n by { assert y == (y / n) * n + y % n; }
    DivModUnique(x, y / n + k, y % n, n);
  }

  lemma AddLap(a: int, n: int)
    requires n > 0
    ensures (a + n) % n == a % n
  {
    SameSlot(a + n, a, 1, n);
  }

  lemma Congruent(a: int, b: int, n: int)
    requires n > 0
    ensures a % n == b % n <==> (a - b) % n == 0
  {
    var qa, qb, q := a / n, b / n, (a - b) / n;
    assert a == qa * n + a % n && b == qb * n + b % n && a - b == q * n + (a - b) % n;
    if a % n == b % n {
      assert a - b == 0 + (qa - qb) * n;
      SameSlot(a - b, 0, qa - qb, n);
      DivModUnique(0, 0, 0, n);
    } else if (a - b) % n == 0 {
      SameSlot(a, b, q, n);
    }
  }

  lemma ResidueDifference(a: int, b: int, n: int)
    requires n > 0
    ensures (a % n - b % n) % n == (a - b) % n
  {
    var qa, qb := a / n, b / n;
    assert a % n - b % n == (a - b) + (qb - qa) * n by {
      assert a == qa * n + a % n && b == qb * n + b % n;
    }
    SameSlot(a % n - b % n, a - b, qb - qa, n);
  }

  lemma WithinLap(x: int, n: int)
    requires n > 0
    ensures x % n == x <==> 0 <= x < n
  {
    if 0 <= x < n { DivModUnique(x, 0, x, n); }
  }

  lemma LastSlot(x: int, n: int)
    requires n > 0
    ensures (x + 1) % n == 0 <==> x % n == n - 1
    ensures (x % n + 1) % n == (x + 1) % n
  {
    var q, r := x / n, x % n;
    assert x == q * n + r;
    SameSlot(x + 1, r + 1, q, n);
    if r + 1 < n {
      DivModUnique(r + 1, 0, r + 1, n);
    } else {
      DivModUnique(r + 1, 1, 0, n);
    }
  }

  /** Every slot has exactly one number in a window of one lap. */
  lemma InWindow(low: int, h: int, n: int) returns (t: int)
    requires n > 0
    ensures low <= t < low + n && t % n == h % n
  {
    t := low + (h - low) % n;
    var q := (h - low) / n;
    assert h - low == q * n + (h - low) % n;
    assert t == (h / n - q) * n + h % n by { assert h == (h / n) * n + h % n; }
    DivModUnique(t, h / n - q, h % n, n);
  }

  lemma ModDouble(x: nat, n: nat)
    requires n > 0
    ensures x % (2 * n) == x % 2 + 2 * ((x / 2) % n)
  {
    var q, r := (x / 2) / n, (x / 2) % n;
    assert x == q * (2 * n) + (x % 2 + 2 * r) by { assert x / 2 == q * n + r; }
    DivModUnique(x, q, x % 2 + 2 * r, 2 * n);
  }

  /** Masking with a power of two less one is taking the residue. */
  lemma {:induction false} AndMask(x: nat, k: nat)
    ensures And(x, Pow2(k) - 1) == x % Pow2(k)
  {
    if k == 0 {
    } else if x == 0 {
      DivModUnique(0, 0, 0, Pow2(k));
    } else {
      var m := Pow2(k) - 1;
      assert m % 2 == 1 && m / 2 == Pow2(k - 1) - 1;
      AndMask(x / 2, k - 1);
      ModDouble(x, Pow2(k - 1));
    }
  }

  lemma {:induction false} AndSelf(a: nat)
    ensures And(a, a) == a
  {
    if a != 0 { AndSelf(a / 2); }
  }

  /** The compile-time check admits exactly the powers of two (and 0, which is excluded). */
  lemma {:induction false} PowerOfTwoIsPow2(n: nat) returns (k: nat)
    requires PowerOfTwo(n)
    ensures n == Pow2(k)
  {
    if n == 1 {
      k := 0;
    } else if n % 2 == 1 {
      assert (n - 1) / 2 == n / 2;
      AndSelf(n / 2);
      assert false;
    } else {
      assert (n - 1) / 2 == n / 2 - 1;
      k := PowerOfTwoIsPow2(n / 2);
      k := k + 1;
    }
  }

  lemma MaskIsMod(x: nat, n: nat)
    requires PowerOfTwo(n)
    ensures And(x, n - 1) == x % n
  {
    var k := PowerOfTwoIsPow2(n);
    AndMask(x, k);
  }

  /** Adding to a number whose low bits are clear is or-ing. */
  lemma {:induction false} OrDisjoint(a: nat, b: nat, k: nat)
    requires b < Pow2(k)
    ensures Or(Shl(a, k), b) == Shl(a, k) + b
  {
    if k != 0 && b != 0 {
      var s := Shl(a, k);
      assert s % 2 == 0 && s / 2 == Shl(a, k - 1);
      OrDisjoint(a, b / 2, k - 1);
      if s != 0 { assert Or(s, b) == b % 2 + 2 * Or(s / 2, b / 2); }
    }
  }

  lemma {:induction false} ShlSum(a: nat, b: nat, k: nat)
    ensures Shl(a, k) + Shl(b, k) == Shl(a + b, k)
  {
    if k != 0 { ShlSum(a, b, k - 1); }
  }

  lemma {:induction false} ShlBound(a: nat, b: nat, k: nat)
    requires a < Pow2(b)
    ensures Shl(a, k) < Pow2(k + b)
  {
    if k != 0 { ShlBound(a, b, k - 1); }
  }

  lemma {:induction false} ShlTwice(a: nat, i: nat, j: nat)
    ensures Shl(a, i + j) == Shl(Shl(a, i), j)
  {
    if j != 0 { ShlTwice(a, i, j - 1); }
  }

  lemma {:induction false} ShrTwice(a: nat, i: nat, j: nat)
    ensures Shr(a, i + j) == Shr(Shr(a, i), j)
    decreases i
  {
    if i != 0 { ShrTwice(a / 2, i - 1, j); }
  }

  /** Eight places are one byte. */
  lemma EightPlaces(a: nat)
    ensures Shl(a, 8) == 256 * a && Shr(a, 8) == a / 256
  {
    assert Shl(a, 1) == 2 * a;
    assert Shl(a, 2) == 2 * Shl(a, 1);
    assert Shl(a, 4) == 4 * Shl(a, 2);
    assert Shl(a, 6) == 4 * Shl(a, 4);
    assert Shr(a, 8) == Shr(a / 4, 6);
    assert Shr(a / 4, 6) == Shr(a / 16, 4);
    assert Shr(a / 16, 4) == Shr(a / 64, 2);
    assert Shr(a / 64, 2) == Shr(a / 128, 1);
    assert Shr(a / 128, 1) == Shr(a / 256, 0);
  }

  lemma Pow2Eight(k: nat)
    ensures Pow2(k + 8) == 256 * Pow2(k)
  {
    assert Pow2(k + 2) == 4 * Pow2(k);
    assert Pow2(k + 4) == 4 * Pow2(k + 2);
    assert Pow2(k + 6) == 4 * Pow2(k + 4);
  }

  lemma {:induction false} Pow2Sum(i: nat, j: nat)
    ensures Pow2(i + j) == Pow2(i) * Pow2(j)
  {
    if i != 0 { Pow2Sum(i - 1, j); }
  }

  lemma {:induction false} Pow2Grows(i: nat, j: nat)
    requires i < j
    ensures Pow2(i) < Pow2(j)
  {
    if i + 1 < j { Pow2Grows(i, j - 1); }
  }

  lemma WordSizes()
    ensures Pow2(8) == 0x100 && Pow2(16) == 0x1_0000 && Pow2(32) == 0x1_0000_0000
    ensures Pow2(64) == 0x1_0000_0000_0000_0000
    ensures TWO_32 == 0x1_0000_0000 && TWO_63 == 0x8000_0000_0000_0000 && TWO_64 == 0x1_0000_0000_0000_0000
  {
    assert Pow2(4) == 16;
    Pow2Sum(4, 4);
    Pow2Sum(8, 8);
    Pow2Sum(16, 16);
    Pow2Sum(32, 32);
  }

  lemma Pow2IsPowerOfTwo(k: nat)
    ensures PowerOfTwo(Pow2(k))
  {
    AndMask(Pow2(k), k);
    DivModUnique(Pow2(k), 1, 0, Pow2(k));
  }
}
