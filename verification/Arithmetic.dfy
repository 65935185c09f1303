/** Arithmetic and counting that several of the models share: quotients, the slots of a ring that is
    indexed with wrap-around, and sizes of sets. */
module Arithmetic {

  lemma MulLe(a: int, b: int, n: nat)
    requires a <= b
    ensures a * n <= b * n && n * a <= n * b
  {
    assert (b - a) * n >= 0;
  }

  lemma DivBounds(x: nat, y: nat)
    requires y > 0
    ensures x / y * y <= x < (x / y + 1) * y
  {
  }

  lemma Quotient(x: nat, y: nat, q: nat)
    requires y > 0 && q * y <= x < (q + 1) * y
    ensures x / y == q
  {
    DivBounds(x, y);
    if x / y + 1 <= q {
      MulLe(x / y + 1, q, y);
      assert false;
    } else if q + 1 <= x / y {
      MulLe(q + 1, x / y, y);
      assert false;
    }
  }

  lemma Remainder(x: nat, t: nat, q: nat, m: nat)
    requires t > 0 && x == q * t + m && m < t
    ensures x / t == q && x % t == m
  {
    Quotient(x, t, q);
  }

  lemma StepDiv(p: nat, t: nat)
    requires t > 0
    ensures if p % t + 1 == t then (p + 1) % t == 0 && (p + 1) / t == p / t + 1
            else (p + 1) % t == p % t + 1 && (p + 1) / t == p / t
  {
    var q, m := p / t, p % t;
    assert p == q * t + m;
    if m + 1 == t {
      Remainder(p + 1, t, q + 1, 0);
    } else {
      Remainder(p + 1, t, q, m + 1);
    }
  }

  // ---------------------------------------------------------------- rings of n slots

  /** Element number i of everything ever put into the ring is in this slot. */
  function Slot(i: nat, n: nat): (r: nat)
    requires n > 0
    ensures r < n
  {
    i % n
  }

  /** An index moved on by one. */
  function Bump(i: nat, n: nat): nat { if i + 1 >= n then 0 else i + 1 }

  lemma BumpSlot(i: nat, n: nat)
    requires n > 0
    ensures Bump(Slot(i, n), n) == Slot(i + 1, n)
  {
    StepDiv(i, n);
  }

  /** Elements less than n apart never share a slot. */
  lemma SlotsApart(i: nat, j: nat, n: nat)
    requires i < j < i + n
    ensures Slot(i, n) != Slot(j, n)
  {
    if i % n == j % n {
      Remainder(j, n, j / n, i % n);
      var a, b := i / n, j / n;
      assert i == a * n + i % n && j == b * n + i % n;
      if b <= a {
        MulLe(b, a, n);
      } else {
        MulLe(a + 1, b, n);
      }
    }
  }

  /** The index tests of a ring with one unused slot: full means n - 1 elements, empty none. */
  lemma FullEmpty(put: nat, taken: nat, n: nat)
    requires n > 1 && taken <= put <= taken + n - 1
    ensures Bump(Slot(put, n), n) == Slot(taken, n) <==> put == taken + n - 1
    ensures Slot(put, n) == Slot(taken, n) <==> put == taken
  {
    BumpSlot(put, n);
    if put + 1 < taken + n {
      SlotsApart(taken, put + 1, n);
    } else {
      Remainder(put + 1, n, taken / n + 1, taken % n);
    }
    if taken < put {
      SlotsApart(taken, put, n);
    }
  }

  // ---------------------------------------------------------------- sets

  lemma SubsetSize<T>(a: set<T>, b: set<T>)
    ensures a <= b ==> |a| <= |b|
  {
    if a <= b {
      assert b == a + (b - a);
    }
  }
}
