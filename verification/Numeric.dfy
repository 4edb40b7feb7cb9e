/** The two roundings the emulator applies to exact amounts: Python's round(), ties to even,
    and a NUMERIC column with four decimals, ties away from zero. */
module Numeric {

  function Abs(x: real): real {
    if x < 0.0 then -x else x
  }

  function Max(a: int, b: int): int {
    if a < b then b else a
  }

  /** Python's round(x): the nearest integer, ties to the even one. */
  function RoundHalfEven(x: real): int {
    var low := x.Floor;
    var rest := x - low as real;
    if rest < 0.5 then low
    else if rest > 0.5 then low + 1
    else if low % 2 == 0 then low else low + 1
  }

  /** Python's round(x, 4). */
  function Round4(x: real): real {
    RoundHalfEven(x * 10000.0) as real / 10000.0
  }

  /** What a NUMERIC(p, 4) column keeps of x. */
  function Numeric4(x: real): real {
    if x >= 0.0 then (x * 10000.0 + 0.5).Floor as real / 10000.0
    else -((-x * 10000.0 + 0.5).Floor as real / 10000.0)
  }

  /** x is a whole number of ten-thousandths: a value such a column can hold. */
  predicate Ticks(x: real) {
    (x * 10000.0).Floor as real == x * 10000.0
  }

  lemma RoundIsNearest(x: real)
    ensures -0.5 <= x - RoundHalfEven(x) as real <= 0.5
  {
  }

  lemma RoundKeepsWhole(n: int)
    ensures RoundHalfEven(n as real) == n
  {
  }

  lemma RoundMonotone(x: real, y: real)
    requires x <= y
    ensures RoundHalfEven(x) <= RoundHalfEven(y)
  {
    assert x.Floor <= y.Floor;
  }

  lemma Round4Near(x: real)
    ensures Abs(x - Round4(x)) <= 0.00005
  {
    RoundIsNearest(x * 10000.0);
  }

  lemma Numeric4KeepsTicks(x: real)
    requires Ticks(x)
    ensures Numeric4(x) == x
  {
    var n := (x * 10000.0).Floor;
    assert (n as real + 0.5).Floor == n;
    assert (-n as real + 0.5).Floor == -n;
  }

  lemma Numeric4IsTicks(x: real)
    ensures Ticks(Numeric4(x))
  {
    var n := if x >= 0.0 then (x * 10000.0 + 0.5).Floor else -(-x * 10000.0 + 0.5).Floor;
    assert Numeric4(x) * 10000.0 == n as real;
  }

  lemma FloorOfWhole(n: int, x: real)
    requires x == n as real
    ensures x.Floor == n
  {
  }

  lemma TicksAdd(x: real, y: real)
    requires Ticks(x) && Ticks(y)
    ensures Ticks(x + y) && Ticks(x - y)
  {
    var m, n := (x * 10000.0).Floor, (y * 10000.0).Floor;
    FloorOfWhole(m + n, (x + y) * 10000.0);
    FloorOfWhole(m - n, (x - y) * 10000.0);
  }

  lemma Numeric4Monotone(x: real, y: real)
    requires x <= y
    ensures Numeric4(x) <= Numeric4(y)
  {
    if x >= 0.0 {
      assert (x * 10000.0 + 0.5).Floor <= (y * 10000.0 + 0.5).Floor;
    } else if y < 0.0 {
      assert (-y * 10000.0 + 0.5).Floor <= (-x * 10000.0 + 0.5).Floor;
    }
  }

  /** The sum f(0) + ... + f(n-1), as SQL's SUM or Python's sum over a table. */
  function Sum(n: nat, f: nat -> real): real {
    if n == 0 then 0.0 else Sum(n - 1, f) + f(n - 1)
  }

  /** How many i below n satisfy p, as SQL's COUNT with a condition. */
  function Count(n: nat, p: nat -> bool): nat {
    if n == 0 then 0 else Count(n - 1, p) + if p(n - 1) then 1 else 0
  }

  /** Equal summands, then only zeros, give the same sum. */
  lemma {:induction false} SumSame(n: nat, f: nat -> real, m: nat, g: nat -> real)
    requires n <= m
    requires forall i :: 0 <= i < n ==> f(i) == g(i)
    requires forall i :: n <= i < m ==> g(i) == 0.0
    ensures Sum(n, f) == Sum(m, g)
  {
    if n < m {
      SumSame(n, f, m - 1, g);
    } else if n > 0 {
      SumSame(n - 1, f, n - 1, g);
    }
  }

  /** Changing one summand moves the sum by exactly new minus old. */
  lemma {:induction false} SumChange(n: nat, f: nat -> real, g: nat -> real, k: nat)
    requires k < n
    requires forall i :: 0 <= i < n && i != k ==> f(i) == g(i)
    ensures Sum(n, g) == Sum(n, f) + g(k) - f(k)
  {
    if k == n - 1 {
      SumSame(n - 1, f, n - 1, g);
    } else {
      SumChange(n - 1, f, g, k);
    }
  }

  lemma {:induction false} SumBounded(n: nat, f: nat -> real, p: nat -> bool, bound: real)
    requires forall i :: 0 <= i < n ==> if p(i) then f(i) <= bound else f(i) == 0.0
    ensures Sum(n, f) <= Count(n, p) as real * bound
  {
    if n > 0 {
      SumBounded(n - 1, f, p, bound);
      var c := Count(n - 1, p);
      assert (c + 1) as real * bound == c as real * bound + bound;
    }
  }

  lemma {:induction false} CountSame(n: nat, p: nat -> bool, m: nat, q: nat -> bool)
    requires n <= m
    requires forall i :: 0 <= i < n ==> p(i) == q(i)
    requires forall i :: n <= i < m ==> !q(i)
    ensures Count(n, p) == Count(m, q)
  {
    if n < m {
      CountSame(n, p, m - 1, q);
    } else if n > 0 {
      CountSame(n - 1, p, n - 1, q);
    }
  }

  lemma {:induction false} CountChange(n: nat, p: nat -> bool, q: nat -> bool, k: nat)
    requires k < n
    requires forall i :: 0 <= i < n && i != k ==> p(i) == q(i)
    ensures Count(n, q) + (if p(k) then 1 else 0) == Count(n, p) + (if q(k) then 1 else 0)
  {
    if k == n - 1 {
      CountSame(n - 1, p, n - 1, q);
    } else {
      CountChange(n - 1, p, q, k);
    }
  }

  lemma {:induction false} CountZero(n: nat, p: nat -> bool)
    ensures Count(n, p) == 0 <==> forall i :: 0 <= i < n ==> !p(i)
  {
    if n > 0 {
      CountZero(n - 1, p);
    }
  }

  /** A property and its negation split the range. */
  lemma {:induction false} CountSplit(n: nat, p: nat -> bool, q: nat -> bool)
    requires forall i :: 0 <= i < n ==> p(i) == !q(i)
    ensures Count(n, p) + Count(n, q) == n
  {
    if n > 0 {
      CountSplit(n - 1, p, q);
    }
  }

  /** x added up n times; see TimesIsProduct. */
  function Times(n: nat, x: real): real {
    if n == 0 then 0.0 else Times(n - 1, x) + x
  }

  lemma {:induction false} TimesIsProduct(n: nat, x: real)
    ensures Times(n, x) == n as real * x
  {
    if n > 0 {
      TimesIsProduct(n - 1, x);
    }
  }

  // ---------- which neighbour is taken ----------

  /** Python's round takes the nearest whole number, and of two equally near the even one. */
  lemma RoundTiesToEven(x: real, n: int)
    ensures RoundHalfEven(x) == n <==>
            (-0.5 < x - n as real < 0.5 || (Abs(x - n as real) == 0.5 && n % 2 == 0))
  {
  }

  /** A four-decimal column takes the nearest amount it can hold, and of two equally near the one farther from zero. */
  lemma Numeric4TiesAway(x: real, n: int)
    ensures Numeric4(x) == n as real / 10000.0 <==>
            var off := x * 10000.0 - n as real;
            -0.5 < off < 0.5 || (off == -0.5 && n > 0) || (off == 0.5 && n < 0)
  {
    var up := (x * 10000.0 + 0.5).Floor;
    var down := (-x * 10000.0 + 0.5).Floor;
    if x >= 0.0 {
      assert Numeric4(x) == n as real / 10000.0 <==> up == n;
    } else {
      assert Numeric4(x) == n as real / 10000.0 <==> -down == n;
    }
  }
}
