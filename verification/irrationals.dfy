/**
  The two irrational constants the calculations use: the golden ratio
  phi = (1 + sqrt 5) / 2 and the square root of two. Neither is a rational
  number, so neither can be written as a Dafny real literal; instead they
  travel as a `Constants` value whose `Valid` predicate pins each of them
  down exactly by its defining equation and sign.
 */
module Irrationals {

  datatype Constants = Constants(phi: real, sqrt2: real) {

    /** phi is the positive root of x*x == x + 1, sqrt2 the positive root of x*x == 2. */
    predicate Valid() {
      && phi > 1.0
      && phi * phi == phi + 1.0
      && sqrt2 > 0.0
      && sqrt2 * sqrt2 == 2.0
    }
  }

  /** x raised to a natural power, x^0 == 1. */
  function Pow(x: real, n: nat): real {
    if n == 0 then 1.0 else x * Pow(x, n - 1)
  }

  /** Multiplying a power by its base raises the exponent by one (the other end from `Pow`'s body). */
  lemma {:induction false} PowSucc(x: real, n: nat)
    ensures Pow(x, n + 1) == Pow(x, n) * x
  {
    if n > 0 {
      PowSucc(x, n - 1);
    }
  }

  /** Powers of a positive base are positive. */
  lemma {:induction false} PowPositive(x: real, n: nat)
    requires x > 0.0
    ensures Pow(x, n) > 0.0
  {
    if n > 0 {
      PowPositive(x, n - 1);
    }
  }

  /** The golden ratio lies strictly between 1 and 2. */
  lemma PhiBounds(k: Constants)
    requires k.Valid()
    ensures 1.0 < k.phi < 2.0
  {
    var p := k.phi;
    // p * (p - 1) == 1 with p > 1 forces p - 1 < 1.
    assert (p - 1.0) * p == 1.0;
    assert (p - 1.0) * p > (p - 1.0) * 1.0;
  }

  /** The golden ratio's powers obey the Fibonacci recurrence. */
  lemma PhiPowRecurrence(k: Constants, n: nat)
    requires k.Valid()
    ensures Pow(k.phi, n + 2) == Pow(k.phi, n + 1) + Pow(k.phi, n)
  {
    var p := k.phi;
    calc {
      Pow(p, n + 2);
      p * (p * Pow(p, n));
      (p * p) * Pow(p, n);
      (p + 1.0) * Pow(p, n);
      p * Pow(p, n) + Pow(p, n);
    }
  }
}
