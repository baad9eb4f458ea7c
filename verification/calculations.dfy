/**
  The closed-form frequency generators: harmonic series, Pythagorean ratio,
  Fibonacci scaling, golden ratio, prime harmonics, phi spiral, quantum
  levels, fractal recursion, resonance cascade and the combined matrix.
  Frequencies are exact reals; phi and sqrt2 come from a valid `Constants`.
 */
module Calculations {

  import opened Irrationals
  import opened Outcomes
  import opened SortedSets

  /** max(n, 0): the number of iterations of Python's range(n). */
  function RangeLength(n: int): nat {
    if n > 0 then n else 0
  }

  // ---------------------------------------------------------------------------
  // Harmonic series

  /** [base * (n + 1) for n in range(count)]. */
  function HarmonicSeries(base: real, count: int): (r: seq<real>)
    ensures |r| == RangeLength(count)
    ensures forall n :: 0 <= n < |r| ==> r[n] == base * (n + 1) as real
  {
    if count <= 0 then [] else HarmonicSeries(base, count - 1) + [base * count as real]
  }

  /** A shorter harmonic series is a prefix of a longer one over the same base. */
  lemma {:induction false} HarmonicSeriesPrefix(base: real, m: nat, n: nat)
    requires m <= n
    ensures HarmonicSeries(base, m) == HarmonicSeries(base, n)[..m]
  {
    if m < n {
      HarmonicSeriesPrefix(base, m, n - 1);
      assert HarmonicSeries(base, n)[..n - 1] == HarmonicSeries(base, n - 1);
    }
  }

  // ---------------------------------------------------------------------------
  // Pythagorean ratio

  /** freq * (numerator / denominator); a zero denominator raises. */
  function PythagoreanRatio(freq: real, numerator: real, denominator: real): (r: Result<real>)
    ensures r.Err? <==> denominator == 0.0
    ensures r.Err? ==> r.fault == ZeroDivision
    ensures r.Ok? ==> r.value * denominator == freq * numerator
  {
    if denominator == 0.0 then Err(ZeroDivision) else Ok(freq * (numerator / denominator))
  }

  // ---------------------------------------------------------------------------
  // Fibonacci

  /** The twelve tabulated Fibonacci numbers. */
  const FibonacciTable: seq<int> := [1, 1, 2, 3, 5, 8, 13, 21, 34, 55, 89, 144]

  /** The Fibonacci numbers, starting 1, 1. */
  function Fib(n: nat): nat {
    if n < 2 then 1 else Fib(n - 1) + Fib(n - 2)
  }

  /** The table holds the first twelve Fibonacci numbers. */
  lemma FibonacciTableIsFib()
    ensures |FibonacciTable| == 12
    ensures forall i :: 0 <= i < 12 ==> FibonacciTable[i] == Fib(i)
  {
    assert Fib(11) == 144 by {
      assert Fib(2) == 2 && Fib(3) == 3 && Fib(4) == 5 && Fib(5) == 8 && Fib(6) == 13;
      assert Fib(7) == 21 && Fib(8) == 34 && Fib(9) == 55 && Fib(10) == 89;
    }
  }

  /**
    base * fibonacci[index], where an index at or past the end clamps to the
    last entry and a negative index counts from the end as Python's does;
    below -12 the index is out of range.
   */
  function FibonacciFrequency(base: real, index: int): (r: Result<real>)
    ensures 0 <= index < 12 ==> r.Ok? && r.value == base * Fib(index) as real
    ensures index >= 12 ==> r.Ok? && r.value == base * 144.0
    ensures -12 <= index < 0 ==> r.Ok? && r.value == base * Fib(12 + index) as real
    ensures index < -12 <==> r.Err?
    ensures r.Err? ==> r.fault == IndexOutOfRange(index)
  {
    FibonacciTableIsFib();
    var n := |FibonacciTable|;
    if index < n then
      if index >= 0 then
        assert FibonacciTable[index] == Fib(index);
        Ok(base * (FibonacciTable[index] as real))
      else if index >= -n then
        assert FibonacciTable[n + index] == Fib(n + index);
        Ok(base * (FibonacciTable[n + index] as real))
      else Err(IndexOutOfRange(index))
    else
      assert FibonacciTable[n - 1] == 144;
      Ok(base * FibonacciTable[n - 1] as real)
  }

  /**
    The same lookup with a float index. The comparison with the table's
    length comes first, so a float at or past the end clamps to the last
    entry like a whole index does; a smaller one reaches the list subscript,
    which rejects a float (None).
   */
  function FibonacciFrequencyOfReal(base: real, index: real): (r: Option<real>)
    ensures r.Some? <==> index >= 12.0
    ensures forall n: int :: n >= 12 && r.Some? ==> r.value == FibonacciFrequency(base, n).value
  {
    var n := |FibonacciTable|;
    if index < n as real then None
    else
      assert FibonacciTable[n - 1] == 144;
      Some(base * FibonacciTable[n - 1] as real)
  }

  // ---------------------------------------------------------------------------
  // Golden ratio

  /** base * phi. */
  function GoldenRatioFrequency(k: Constants, base: real): (r: real)
    requires k.Valid()
    ensures r * r == base * r + base * base
    ensures base > 0.0 ==> base < r < 2.0 * base
    ensures base < 0.0 ==> 2.0 * base < r < base
  {
    PhiBounds(k);
    var r := base * k.phi;
    assert r * r == base * base * (k.phi * k.phi);
    r
  }

  // ---------------------------------------------------------------------------
  // Primes

  /** The default prime list. */
  const DefaultPrimes: seq<int> := [2, 3, 5, 7, 11, 13, 17, 19, 23, 29]

  /** The base scaled by a whole factor. */
  function Times(base: real, factor: int): real {
    base * factor as real
  }

  /** [base * p for p in primes]. */
  function PrimeHarmonics(base: real, primes: seq<int>): (r: seq<real>)
    ensures |r| == |primes|
    ensures forall i :: 0 <= i < |r| ==> r[i] == base * primes[i] as real
  {
    if |primes| == 0 then []
    else [Times(base, primes[0])] + PrimeHarmonics(base, primes[1..])
  }

  /** Scaling a concatenation of prime lists scales each part. */
  lemma {:induction false} PrimeHarmonicsConcat(base: real, p: seq<int>, q: seq<int>)
    ensures PrimeHarmonics(base, p + q) == PrimeHarmonics(base, p) + PrimeHarmonics(base, q)
  {
    if |p| == 0 {
      assert p + q == q;
    } else {
      var pq := p + q;
      assert pq[0] == p[0];
      assert pq[1..] == p[1..] + q;
      PrimeHarmonicsConcat(base, p[1..], q);
    }
  }

  /** n has no divisor strictly between 1 and itself. */
  predicate IsPrime(n: int) {
    n >= 2 && forall d :: 2 <= d < n ==> n % d != 0
  }

  /** The default list is the first ten primes: ascending, all prime, and no prime below 30 missing. */
  lemma DefaultPrimesAreFirstTen()
    ensures |DefaultPrimes| == 10
    ensures forall i, j :: 0 <= i < j < |DefaultPrimes| ==> DefaultPrimes[i] < DefaultPrimes[j]
    ensures forall i :: 0 <= i < |DefaultPrimes| ==> IsPrime(DefaultPrimes[i])
    ensures forall n :: 0 <= n < 30 ==> (IsPrime(n) <==> n in DefaultPrimes)
  {
    DefaultPrimesArePrime();
    NoOtherPrimesBelow30();
  }

  /** Each default entry is prime. */
  lemma DefaultPrimesArePrime()
    ensures forall i :: 0 <= i < |DefaultPrimes| ==> IsPrime(DefaultPrimes[i])
  {
    forall i | 0 <= i < |DefaultPrimes|
      ensures IsPrime(DefaultPrimes[i])
    {
      var p := DefaultPrimes[i];
      forall d | 2 <= d < p
        ensures p % d != 0
      {
        // A divisor of a prime this small is at most 5 or has a cofactor at most 5.
        if d * d <= p {
          assert d <= 5;
        }
      }
    }
  }

  /** Every number below 30 missing from the list is composite or less than 2. */
  lemma NoOtherPrimesBelow30()
    ensures forall n :: 0 <= n < 30 && n !in DefaultPrimes ==> !IsPrime(n)
  {
    forall n | 0 <= n < 30 && n !in DefaultPrimes
      ensures !IsPrime(n)
    {
      if n >= 2 {
        // Every composite below 30 has 2, 3 or 5 as a factor.
        var d := if n % 2 == 0 then 2 else if n % 3 == 0 then 3 else 5;
        assert n % d == 0;
      }
    }
  }

  // ---------------------------------------------------------------------------
  // Phi spiral

  /** [base * phi ** n for n in range(count)]. */
  function PhiSpiral(k: Constants, base: real, count: int): (r: seq<real>)
    requires k.Valid()
    ensures |r| == RangeLength(count)
    ensures forall n :: 0 <= n < |r| ==> r[n] == base * Pow(k.phi, n)
  {
    if count <= 0 then [] else PhiSpiral(k, base, count - 1) + [base * Pow(k.phi, count - 1)]
  }

  /** Consecutive spiral values grow by phi and, like Fibonacci numbers, each is the sum of the two before. */
  lemma PhiSpiralRecurrence(k: Constants, base: real, count: int, n: nat)
    requires k.Valid()
    requires n + 1 < RangeLength(count)
    ensures PhiSpiral(k, base, count)[n + 1] == PhiSpiral(k, base, count)[n] * k.phi
    ensures n + 2 < RangeLength(count) ==>
              PhiSpiral(k, base, count)[n + 2] == PhiSpiral(k, base, count)[n + 1] + PhiSpiral(k, base, count)[n]
  {
    PowSucc(k.phi, n);
    ScaledRatio(PhiSpiral(k, base, count)[n], PhiSpiral(k, base, count)[n + 1], base, Pow(k.phi, n), k.phi);
    if n + 2 < RangeLength(count) {
      PhiPowRecurrence(k, n);
      ScaledSum(PhiSpiral(k, base, count)[n], PhiSpiral(k, base, count)[n + 1], PhiSpiral(k, base, count)[n + 2],
                base, Pow(k.phi, n), Pow(k.phi, n + 1));
    }
  }

  /** Scaling by a common factor keeps a ratio: base * (p * f) is (base * p) times f. */
  lemma ScaledRatio(a: real, b: real, base: real, p: real, f: real)
    requires a == base * p && b == base * (p * f)
    ensures b == a * f
  {
  }

  /** Scaling by a common factor keeps a sum: base * (p + q) is base * p plus base * q. */
  lemma ScaledSum(a: real, b: real, c: real, base: real, p: real, q: real)
    requires a == base * p && b == base * q && c == base * (q + p)
    ensures c == b + a
  {
  }

  /** The golden-ratio frequency is the second point of the phi spiral. */
  lemma GoldenRatioOnSpiral(k: Constants, base: real)
    requires k.Valid()
    ensures GoldenRatioFrequency(k, base) == PhiSpiral(k, base, 2)[1]
  {
  }

  // ---------------------------------------------------------------------------
  // Quantum levels

  /** freq * level ** 2: a whole level gives freq times the level's integer square, and the level's sign does not matter. */
  function QuantumHarmonic(freq: real, level: real): (r: real)
    ensures level == level.Floor as real ==> r == freq * (level.Floor * level.Floor) as real
    ensures r == freq * ((-level) * (-level))
  {
    assert level == level.Floor as real ==> (level.Floor * level.Floor) as real == level * level;
    freq * (level * level)
  }

  /** Level n sits on the (n*n)-th harmonic, and consecutive levels are 2n+1 harmonics apart. */
  lemma QuantumLevelsAreSquareHarmonics(freq: real, n: nat)
    requires n >= 1
    ensures QuantumHarmonic(freq, n as real) == HarmonicSeries(freq, n * n)[n * n - 1]
    ensures QuantumHarmonic(freq, (n + 1) as real) - QuantumHarmonic(freq, n as real)
            == freq * (2 * n + 1) as real
    ensures QuantumHarmonic(freq, -(n as real)) == QuantumHarmonic(freq, n as real)
  {
    assert (n * n) as real == n as real * n as real;
    assert ((n + 1) * (n + 1)) as real == (n + 1) as real * (n + 1) as real;
  }

  // ---------------------------------------------------------------------------
  // Fractal

  /** The j-th value the fractal loop appends, in closed form: base * 2^i at j = 2i, base * 2^(i+1) / phi at j = 2i + 1. */
  function FractalValue(k: Constants, base: real, j: nat): real
    requires k.Valid()
  {
    if j % 2 == 0 then base * Pow(2.0, j / 2) else base * Pow(2.0, j / 2 + 1) / k.phi
  }

  /**
    The list the fractal loop builds before deduplication: start with
    [base]; each of `depth` rounds appends last * 2 / phi and then that
    value times phi.
   */
  function FractalTrail(k: Constants, base: real, depth: nat): (r: seq<real>)
    requires k.Valid()
    ensures |r| == 1 + 2 * depth
    ensures forall j :: 0 <= j < |r| ==> r[j] == FractalValue(k, base, j)
  {
    if depth == 0 then [base]
    else
      var t := FractalTrail(k, base, depth - 1);
      var a := t[|t| - 1] * 2.0 / k.phi;
      var r := t + [a, a * k.phi];
      FractalRound(k, base, depth - 1, t[|t| - 1]);
      assert r[2 * depth - 1] == a == FractalValue(k, base, 2 * depth - 1);
      assert r[2 * depth] == a * k.phi == FractalValue(k, base, 2 * depth);
      r
  }

  /** One round of the loop maps base * 2^d to base * 2^(d+1) / phi and then to base * 2^(d+1). */
  lemma FractalRound(k: Constants, base: real, d: nat, last: real)
    requires k.Valid()
    requires last == FractalValue(k, base, 2 * d)
    ensures last * 2.0 / k.phi == FractalValue(k, base, 2 * d + 1)
    ensures last * 2.0 / k.phi * k.phi == FractalValue(k, base, 2 * d + 2)
  {
    PowSucc(2.0, d);
    assert (2 * d) / 2 == d && (2 * d + 1) / 2 == d && (2 * d + 2) / 2 == d + 1;
    assert last * 2.0 == base * Pow(2.0, d + 1);
  }

  /** sorted(set(trail)): the fractal frequencies. */
  function FractalFrequencies(k: Constants, base: real, depth: int): (r: seq<real>)
    requires k.Valid()
    ensures StrictlyAscending(r)
    ensures forall x :: x in r <==> x in FractalTrail(k, base, RangeLength(depth))
    ensures |r| <= 1 + 2 * RangeLength(depth)
  {
    SortedSet(FractalTrail(k, base, RangeLength(depth)))
  }

  /** Each trail step strictly increases for a positive base and strictly decreases for a negative one. */
  lemma FractalTrailSteps(k: Constants, base: real, j: nat)
    requires k.Valid()
    ensures base > 0.0 ==> FractalValue(k, base, j) < FractalValue(k, base, j + 1)
    ensures base < 0.0 ==> FractalValue(k, base, j) > FractalValue(k, base, j + 1)
  {
    PhiBounds(k);
    var i := j / 2;
    PowPositive(2.0, i + 1);
    PowSucc(2.0, i);
    var y := base * Pow(2.0, i + 1);
    assert base > 0.0 ==> y > 0.0;
    assert base < 0.0 ==> y < 0.0;
    if j % 2 == 0 {
      // base * 2^i, then base * 2^(i+1) / phi: that is y / 2 against y / phi with phi < 2.
      assert FractalValue(k, base, j) == y / 2.0;
      assert FractalValue(k, base, j + 1) == y / k.phi;
      InverseOrder(y, k.phi, 2.0);
    } else {
      // base * 2^(i+1) / phi, then base * 2^(i+1): y / phi against y / 1 with 1 < phi.
      assert (j + 1) / 2 == i + 1;
      assert FractalValue(k, base, j) == y / k.phi;
      assert FractalValue(k, base, j + 1) == y / 1.0;
      InverseOrder(y, 1.0, k.phi);
    }
  }

  /** Dividing by the smaller of two positive reals gives the larger magnitude. */
  lemma InverseOrder(y: real, p: real, q: real)
    requires 0.0 < p < q
    ensures y > 0.0 ==> y / q < y / p
    ensures y < 0.0 ==> y / q > y / p
  {
    assert y / p - y / q == y * (q - p) / (p * q);
  }

  /** Adjacent strict increase makes a list strictly ascending. */
  lemma {:induction false} AscendingFromSteps(s: seq<real>)
    requires forall j :: 0 <= j < |s| - 1 ==> s[j] < s[j + 1]
    ensures StrictlyAscending(s)
  {
    if |s| > 1 {
      AscendingFromSteps(s[1..]);
      assert forall j :: 1 <= j < |s| ==> s[0] < s[1] <= s[j];
    }
  }

  /** Adjacent strict decrease makes a list strictly descending. */
  lemma {:induction false} DescendingFromSteps(s: seq<real>)
    requires forall j :: 0 <= j < |s| - 1 ==> s[j] > s[j + 1]
    ensures StrictlyDescending(s)
  {
    if |s| > 1 {
      DescendingFromSteps(s[1..]);
      assert forall j :: 1 <= j < |s| ==> s[0] > s[1] >= s[j];
    }
  }

  /**
    Nothing is merged away unless the base is zero: a positive base gives
    the whole trail in generation order, a negative base the trail reversed,
    and a zero base the single value 0.
   */
  lemma FractalShape(k: Constants, base: real, depth: int)
    requires k.Valid()
    ensures base > 0.0 ==> FractalFrequencies(k, base, depth) == FractalTrail(k, base, RangeLength(depth))
    ensures base < 0.0 ==> FractalFrequencies(k, base, depth) == Reverse(FractalTrail(k, base, RangeLength(depth)))
    ensures base != 0.0 ==> |FractalFrequencies(k, base, depth)| == 1 + 2 * RangeLength(depth)
    ensures base == 0.0 ==> FractalFrequencies(k, base, depth) == [0.0]
  {
    var d := RangeLength(depth);
    var t := FractalTrail(k, base, d);
    forall j | 0 <= j < |t| - 1
      ensures base > 0.0 ==> t[j] < t[j + 1]
      ensures base < 0.0 ==> t[j] > t[j + 1]
    {
      FractalTrailSteps(k, base, j);
    }
    if base > 0.0 {
      AscendingFromSteps(t);
      SortedSetOfAscending(t);
    } else if base < 0.0 {
      DescendingFromSteps(t);
      SortedSetOfDescending(t);
    } else {
      assert forall i :: 0 <= i < |t| ==> t[i] == FractalValue(k, 0.0, i) == 0.0;
      SortedSetOfConstant(t, 0.0);
    }
  }

  // ---------------------------------------------------------------------------
  // Resonance cascade

  /** Start with [base] and append last * sqrt2 for each of steps - 1 further steps. */
  function ResonanceCascade(k: Constants, base: real, steps: int): (r: seq<real>)
    ensures |r| == if steps > 1 then steps else 1
    ensures r[0] == base
  {
    if steps <= 1 then [base]
    else
      var c := ResonanceCascade(k, base, steps - 1);
      c + [c[|c| - 1] * k.sqrt2]
  }

  /** Each step of the cascade multiplies by sqrt2. */
  lemma {:induction false} ResonanceCascadeStep(k: Constants, base: real, steps: int, i: nat)
    ensures var c := ResonanceCascade(k, base, steps);
            i + 1 < |c| ==> c[i + 1] == c[i] * k.sqrt2
  {
    var c := ResonanceCascade(k, base, steps);
    if steps > 1 && i + 1 < |c| {
      var p := ResonanceCascade(k, base, steps - 1);
      assert c[..|p|] == p;
      if i + 1 < |p| {
        ResonanceCascadeStep(k, base, steps - 1, i);
        assert c[i + 1] == c[..|p|][i + 1] && c[i] == c[..|p|][i];
      } else {
        assert c[i] == c[..|p|][|p| - 1];
        assert c[i + 1] == p[|p| - 1] * k.sqrt2;
      }
    }
  }

  /** Every second step of the cascade doubles: it climbs an octave per two steps. */
  lemma ResonanceCascadeOctave(k: Constants, base: real, steps: int, i: nat)
    requires k.Valid()
    ensures var c := ResonanceCascade(k, base, steps);
            i + 2 < |c| ==> c[i + 2] == 2.0 * c[i]
  {
    var c := ResonanceCascade(k, base, steps);
    if i + 2 < |c| {
      ResonanceCascadeStep(k, base, steps, i);
      ResonanceCascadeStep(k, base, steps, i + 1);
      assert (c[i] * k.sqrt2) * k.sqrt2 == c[i] * (k.sqrt2 * k.sqrt2);
    }
  }

  /** The i-th value of the cascade is base * sqrt2^i. */
  lemma {:induction false} ResonanceCascadeClosedForm(k: Constants, base: real, steps: int, i: nat)
    ensures var c := ResonanceCascade(k, base, steps);
            i < |c| ==> c[i] == base * Pow(k.sqrt2, i)
  {
    var c := ResonanceCascade(k, base, steps);
    if 0 < i < |c| {
      ResonanceCascadeClosedForm(k, base, steps, i - 1);
      ResonanceCascadeStep(k, base, steps, i - 1);
      PowSucc(k.sqrt2, i - 1);
      assert (base * Pow(k.sqrt2, i - 1)) * k.sqrt2 == base * (Pow(k.sqrt2, i - 1) * k.sqrt2);
    }
  }

  /** Three steps from 1 Hz give [1, sqrt2, 2]. */
  lemma ResonanceCascadeThreeSteps(k: Constants)
    requires k.Valid()
    ensures ResonanceCascade(k, 1.0, 3) == [1.0, k.sqrt2, 2.0]
  {
    var c := ResonanceCascade(k, 1.0, 3);
    ResonanceCascadeStep(k, 1.0, 3, 0);
    ResonanceCascadeOctave(k, 1.0, 3, 0);
  }

  // ---------------------------------------------------------------------------
  // Custom frequency matrix

  /** Python's xs[:n]: the first n elements, or all but the last -n when n is negative. */
  function SlicePrefix(xs: seq<int>, n: int): (r: seq<int>)
    ensures |r| <= |xs| && r == xs[..|r|]
    ensures 0 <= n <= |xs| ==> |r| == n
    ensures n >= |xs| ==> r == xs
    ensures -|xs| <= n < 0 ==> |xs| - |r| == -n
    ensures n < -|xs| ==> r == []
  {
    var end := if n >= 0 then (if n < |xs| then n else |xs|)
               else (if |xs| + n > 0 then |xs| + n else 0);
    xs[..end]
  }

  /** [fibonacci frequency of index i for i in range(min(size, 12))]. */
  function FibonacciPart(base: real, size: int): (r: seq<real>)
    ensures |r| == RangeLength(if size < 12 then size else 12)
    ensures forall i :: 0 <= i < |r| ==> r[i] == base * Fib(i) as real
  {
    var n := RangeLength(if size < 12 then size else 12);
    seq(n, i requires 0 <= i < n => FibonacciFrequency(base, i).value)
  }

  /** The primes the matrix scales: the default list sliced by size. */
  function MatrixPrimes(size: int): seq<int> {
    SlicePrefix(DefaultPrimes, size)
  }

  /** The unsorted concatenation of the enabled sub-generators. */
  function MatrixParts(k: Constants, base: real, fib: bool, phi: bool, primes: bool, size: int): seq<real>
    requires k.Valid()
  {
    (if fib then FibonacciPart(base, size) else [])
    + (if phi then PhiSpiral(k, base, size) else [])
    + (if primes then PrimeHarmonics(base, MatrixPrimes(size)) else [])
  }

  /** sorted(set(parts)): the combined frequency matrix. */
  function FrequencyMatrix(k: Constants, base: real, fib: bool, phi: bool, primes: bool, size: int): (r: seq<real>)
    requires k.Valid()
    ensures StrictlyAscending(r)
    ensures forall x :: x in r <==>
              || (fib && x in FibonacciPart(base, size))
              || (phi && x in PhiSpiral(k, base, size))
              || (primes && x in PrimeHarmonics(base, MatrixPrimes(size)))
  {
    SortedSet(MatrixParts(k, base, fib, phi, primes, size))
  }

  /** With every sub-generator switched off the matrix is empty. */
  lemma FrequencyMatrixEmpty(k: Constants, base: real, size: int)
    requires k.Valid()
    ensures FrequencyMatrix(k, base, false, false, false, size) == []
  {
    assert MatrixParts(k, base, false, false, false, size) == [];
  }
}
