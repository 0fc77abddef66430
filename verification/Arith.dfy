/** Quotients and remainders that several components share. */
module Arith {

  lemma OneMoreTimes(n: nat, q: int)
    ensures n * (q + 1) == n * q + n
  {
  }

  /** Two multiples of n that differ are at least n apart. */
  lemma {:induction false} Multiples(n: nat, a: int, b: int)
    ensures a < b ==> n * a + n <= n * b
    decreases b - a
  {
    if a + 1 < b { Multiples(n, a, b - 1); }
    OneMoreTimes(n, b - 1);
  }

  /** Quotient and remainder are determined. */
  lemma DivModIs(q: nat, r: nat, n: nat)
    requires r < n
    ensures (n * q + r) / n == q && (n * q + r) % n == r
  {
    var x := n * q + r;
    assert x == n * (x / n) + x % n;
    Multiples(n, x / n, q);
    Multiples(n, q, x / n);
  }

  lemma DivMod(k: nat, n: nat)
    requires 0 < n
    ensures k == k / n * n + k % n
  {
  }

  /** The remainder and the quotient by repeated subtraction. */
  function Place(x: nat, n: nat): (r: nat)
    requires 0 < n
    ensures r < n
  {
    if x < n then x else Place(x - n, n)
  }

  function Rounds(x: nat, n: nat): nat
    requires 0 < n
  {
    if x < n then 0 else 1 + Rounds(x - n, n)
  }

  lemma {:induction false} RoundsAndPlace(x: nat, n: nat)
    requires 0 < n
    ensures x == n * Rounds(x, n) + Place(x, n)
  {
    if n <= x {
      RoundsAndPlace(x - n, n);
      OneMoreTimes(n, Rounds(x - n, n));
    }
  }

  /** They are those of / and %. */
  lemma PlaceIsRemainder(x: nat, n: nat)
    requires 0 < n
    ensures Place(x, n) == x % n && Rounds(x, n) == x / n
  {
    RoundsAndPlace(x, n);
    DivModIs(Rounds(x, n), Place(x, n), n);
  }

  lemma {:induction false} NextPlace(x: nat, n: nat)
    requires 0 < n
    ensures Place(x + 1, n) == if Place(x, n) + 1 < n then Place(x, n) + 1 else 0
  {
    if n <= x { NextPlace(x - n, n); }
  }

  /** Positions less than n apart lie in different places. */
  lemma {:induction false} DifferentPlaces(a: nat, b: nat, n: nat)
    requires a < b < a + n
    ensures Place(a, n) != Place(b, n)
  {
    if n <= a { DifferentPlaces(a - n, b - n, n); }
  }

  /** Within a round the places follow each other. */
  lemma {:induction false} FurtherPlace(x: nat, k: nat, n: nat)
    requires 0 < n && Place(x, n) + k < n
    ensures Place(x + k, n) == Place(x, n) + k
  {
    if n <= x { FurtherPlace(x - n, k, n); }
  }

  lemma {:induction false} NextRound(x: nat, n: nat)
    requires 0 < n
    ensures Place(x + n, n) == Place(x, n) && Rounds(x + n, n) == Rounds(x, n) + 1
  {
  }
}
