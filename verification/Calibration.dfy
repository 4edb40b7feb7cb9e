/** Calibration: the binning loop, and two inequalities that hold for every list of bets and every number of bins. */
module Calibration {
  import opened Numeric
  import opened Outcomes
  import opened Performance

  /** lower is inclusive, upper exclusive except for the last bin; the averages are None when the bin is empty. */
  datatype CalibrationBin = CalibrationBin(
    lower: real,
    upper: real,
    count: nat,
    confidence: Option<real>,
    accuracy: Option<real>
  )

  predicate Probabilities(bets: seq<GradedBet>) {
    forall i :: 0 <= i < |bets| ==> 0.0 <= bets[i].probability <= 1.0
  }

  /** Python's int(x): towards zero. */
  function Truncate(x: real): int {
    if x >= 0.0 then x.Floor else -(-x).Floor
  }

  /** min(index, n - 1) */
  function Clamp(index: int, n: nat): int {
    if index < n - 1 then index else n - 1
  }

  function BinIndex(probability: real, n: nat): int {
    Clamp(Truncate(probability * n as real), n)
  }

  function Bucket(bets: seq<GradedBet>, n: nat, i: nat): seq<GradedBet> {
    Filter(bets, (bet: GradedBet) => BinIndex(bet.probability, n) == i)
  }

  function Won(bet: GradedBet): real {
    if bet.status.WON? then 1.0 else 0.0
  }

  function Probability(bet: GradedBet): real {
    bet.probability
  }

  function BinOf(contents: seq<GradedBet>, i: nat, n: nat): CalibrationBin
    requires n > 0
  {
    CalibrationBin(i as real / n as real, (i + 1) as real / n as real, |contents|,
                   Mean(Over(contents, Probability), |contents|), Mean(Over(contents, Won), |contents|))
  }

  function Bins(bets: seq<GradedBet>, n: nat): seq<CalibrationBin>
    requires n > 0
  {
    var decided := DecidedBets(bets);
    seq(n, i requires 0 <= i < n => BinOf(Bucket(decided, n, i), i, n))
  }

  lemma BinIndexInRange(probability: real, n: nat)
    requires n > 0 && 0.0 <= probability <= 1.0
    ensures 0 <= BinIndex(probability, n) < n
  {
    assert probability * n as real >= 0.0;
  }

  lemma DecidedProbabilities(bets: seq<GradedBet>)
    requires Probabilities(bets)
    ensures Probabilities(DecidedBets(bets))
  {
    var keep := (bet: GradedBet) => Decided(bet);
    FilterMembers(bets, keep);
    assert forall i :: 0 <= i < |DecidedBets(bets)| ==> DecidedBets(bets)[i] in DecidedBets(bets);
  }

  /** The bucketing loop and the loop over buckets. */
  method CalibrationBins(bets: seq<GradedBet>, n: nat) returns (bins: seq<CalibrationBin>)
    requires n > 0 && Probabilities(bets)
    ensures bins == Bins(bets, n)
  {
    var decided := DecidedBets(bets);
    DecidedProbabilities(bets);
    var buckets: seq<seq<GradedBet>> := seq(n, _ => []);
    for k := 0 to |decided|
      invariant |buckets| == n
      invariant forall i :: 0 <= i < n ==> buckets[i] == Bucket(decided[..k], n, i)
    {
      var bet := decided[k];
      BinIndexInRange(bet.probability, n);
      var index := BinIndex(bet.probability, n);
      assert decided[..k + 1] == decided[..k] + [bet];
      forall i: nat | i < n
        ensures Bucket(decided[..k + 1], n, i) == Bucket(decided[..k], n, i) + if i == index then [bet] else []
      {
        FilterAppend(decided[..k], bet, (b: GradedBet) => BinIndex(b.probability, n) == i);
      }
      buckets := buckets[index := buckets[index] + [bet]];
    }
    assert decided[..|decided|] == decided;
    bins := [];
    for i := 0 to n
      invariant bins == Bins(bets, n)[..i]
    {
      bins := bins + [BinOf(buckets[i], i, n)];
    }
  }

  lemma QuotientBounds(x: real, p: real, n: nat)
    requires n > 0
    ensures x <= p * n as real ==> x / n as real <= p
    ensures p * n as real < x ==> p < x / n as real
  {
    var q := x / n as real;
    assert q * n as real == x;
    if q > p {
      ScaleStrictly(p, q, n as real);
    } else if p > q {
      ScaleStrictly(q, p, n as real);
    }
  }

  /** A bet's bin is one of the n and its bounds hold the bet's probability; only the last bin includes its upper
      bound. */
  lemma BoundsHoldTheBet(probability: real, n: nat, contents: seq<GradedBet>)
    requires n > 0 && 0.0 <= probability <= 1.0
    ensures var i := BinIndex(probability, n);
            && 0 <= i < n
            && BinOf(contents, i, n).lower <= probability <= BinOf(contents, i, n).upper
            && (probability == BinOf(contents, i, n).upper ==> i == n - 1 && probability == 1.0)
  {
    BinIndexInRange(probability, n);
    var i := BinIndex(probability, n);
    ScaleOrder(0.0, probability, n as real);
    ScaleOrder(probability, 1.0, n as real);
    QuotientBounds(i as real, probability, n);
    if i < n - 1 {
      QuotientBounds((i + 1) as real, probability, n);
    } else {
      assert (i + 1) as real / n as real == 1.0;
    }
  }

  // ---------- expected calibration error and Brier score ----------

  function CountIn(bins: seq<CalibrationBin>): nat {
    if bins == [] then 0 else CountIn(bins[..|bins| - 1]) + bins[|bins| - 1].count
  }

  function WeightedGap(bin: CalibrationBin, total: nat): real
    requires total > 0
  {
    if bin.count > 0 && bin.accuracy.Some? && bin.confidence.Some?
    then (bin.count as real / total as real) * Abs(bin.accuracy.value - bin.confidence.value)
    else 0.0
  }

  function WeightedGaps(bins: seq<CalibrationBin>, total: nat): real
    requires total > 0
  {
    if bins == [] then 0.0
    else WeightedGaps(bins[..|bins| - 1], total) + WeightedGap(bins[|bins| - 1], total)
  }

  function ExpectedCalibrationError(bins: seq<CalibrationBin>): Option<real> {
    var total := CountIn(bins);
    if total == 0 then None else Some(WeightedGaps(bins, total))
  }

  /** How far the outcome lies from the prediction. */
  function Gap(bet: GradedBet): real {
    Won(bet) - bet.probability
  }

  function AbsGap(bet: GradedBet): real {
    Abs(Gap(bet))
  }

  function SquaredGap(bet: GradedBet): real {
    Gap(bet) * Gap(bet)
  }

  function BrierScore(bets: seq<GradedBet>): Option<real> {
    var decided := DecidedBets(bets);
    Mean(Over(decided, SquaredGap), |decided|)
  }

  // ---------- sums over bins ----------

  function BinGap(bets: seq<GradedBet>, n: nat, i: nat): real {
    Over(Bucket(bets, n, i), Gap)
  }

  function AbsBinGap(bets: seq<GradedBet>, n: nat): nat -> real {
    (i: nat) => Abs(BinGap(bets, n, i))
  }

  function BinSize(bets: seq<GradedBet>, n: nat): nat -> real {
    (i: nat) => |Bucket(bets, n, i)| as real
  }

  lemma BucketAppend(bets: seq<GradedBet>, bet: GradedBet, n: nat, i: nat)
    ensures Bucket(bets + [bet], n, i) == Bucket(bets, n, i) + if BinIndex(bet.probability, n) == i then [bet] else []
    ensures BinGap(bets + [bet], n, i) == BinGap(bets, n, i) + if BinIndex(bet.probability, n) == i then Gap(bet) else 0.0
  {
    FilterAppend(bets, bet, (b: GradedBet) => BinIndex(b.probability, n) == i);
    assert Bucket(bets, n, i) + [] == Bucket(bets, n, i);
    OverAppend(Bucket(bets, n, i), bet, Gap);
  }

  lemma {:induction false} EmptyBins(n: nat, m: nat)
    ensures Sum(m, BinSize([], n)) == 0.0 && Sum(m, AbsBinGap([], n)) == 0.0
  {
    if m > 0 {
      EmptyBins(n, m - 1);
    }
  }

  /** Every bet lands in exactly one bin. */
  lemma {:induction false} BinSizesAddUp(bets: seq<GradedBet>, n: nat)
    requires n > 0 && Probabilities(bets)
    ensures Sum(n, BinSize(bets, n)) == |bets| as real
  {
    if bets == [] {
      EmptyBins(n, n);
    } else {
      var rest, bet := bets[..|bets| - 1], bets[|bets| - 1];
      assert bets == rest + [bet];
      BinSizesAddUp(rest, n);
      BinIndexInRange(bet.probability, n);
      forall i: nat ensures Bucket(bets, n, i) == Bucket(rest, n, i) + if BinIndex(bet.probability, n) == i then [bet] else [] {
        BucketAppend(rest, bet, n, i);
      }
      SumChange(n, BinSize(rest, n), BinSize(bets, n), BinIndex(bet.probability, n));
    }
  }

  /** The triangle inequality: gaps inside a bin can only cancel. */
  lemma {:induction false} BinGapsAtMostGaps(bets: seq<GradedBet>, n: nat)
    requires n > 0 && Probabilities(bets)
    ensures Sum(n, AbsBinGap(bets, n)) <= Over(bets, AbsGap)
  {
    if bets == [] {
      EmptyBins(n, n);
    } else {
      var rest, bet := bets[..|bets| - 1], bets[|bets| - 1];
      assert bets == rest + [bet];
      BinGapsAtMostGaps(rest, n);
      BinIndexInRange(bet.probability, n);
      var index := BinIndex(bet.probability, n);
      forall i: nat ensures BinGap(bets, n, i) == BinGap(rest, n, i) + if index == i then Gap(bet) else 0.0 {
        BucketAppend(rest, bet, n, i);
      }
      SumChange(n, AbsBinGap(rest, n), AbsBinGap(bets, n), index);
    }
  }

  lemma MulPositive(a: real, b: real)
    requires a > 0.0 && b > 0.0
    ensures a * b > 0.0
  {
  }

  lemma SquareNonnegative(x: real)
    ensures x * x >= 0.0
  {
  }

  /** t*a*a + q >= 2*x*a when t*q >= x*x. */
  lemma MixedTerm(t: real, a: real, q: real, x: real)
    requires t > 0.0 && x * x <= t * q
    ensures 2.0 * (x * a) <= t * (a * a) + q
  {
    var d := t * (a * a) + q - 2.0 * (x * a);
    assert t * d == (t * a - x) * (t * a - x) + (t * q - x * x);
    SquareNonnegative(t * a - x);
    if d < 0.0 {
      MulPositive(t, -d);
    }
  }

  lemma GrowSquare(t: real, a: real, q: real, x: real)
    requires t >= 0.0 && x * x <= t * q && (t == 0.0 ==> x == 0.0 && q == 0.0)
    ensures (x + a) * (x + a) <= (t + 1.0) * (q + a * a)
  {
    if t > 0.0 {
      MixedTerm(t, a, q, x);
    }
    assert (x + a) * (x + a) == x * x + 2.0 * (x * a) + a * a;
    assert (t + 1.0) * (q + a * a) == t * q + t * (a * a) + q + a * a;
  }

  /** Cauchy and Schwarz: the sum of |gap|, squared, is at most the number of bets times the sum of squares. */
  lemma {:induction false} SumOfGapsSquared(bets: seq<GradedBet>)
    ensures Over(bets, AbsGap) * Over(bets, AbsGap) <= |bets| as real * Over(bets, SquaredGap)
    ensures Over(bets, AbsGap) >= 0.0
  {
    if bets != [] {
      var rest, bet := bets[..|bets| - 1], bets[|bets| - 1];
      SumOfGapsSquared(rest);
      assert AbsGap(bet) * AbsGap(bet) == SquaredGap(bet);
      GrowSquare(|rest| as real, AbsGap(bet), Over(rest, SquaredGap), Over(rest, AbsGap));
    }
  }

  // ---------- the error as a sum of bin gaps ----------

  lemma {:induction false} GapIsWinsLessProbabilities(bets: seq<GradedBet>)
    ensures Over(bets, Gap) == Over(bets, Won) - Over(bets, Probability)
  {
    if bets != [] {
      GapIsWinsLessProbabilities(bets[..|bets| - 1]);
    }
  }

  lemma WeightTimesTotal(c: real, t: real, w: real, p: real)
    requires c > 0.0 && t > 0.0
    ensures (c / t) * Abs(w / c - p / c) * t == Abs(w - p)
  {
    var a, b := w / c, p / c;
    assert a * c == w && b * c == p;
    assert (a - b) * c == w - p;
    assert Abs(a - b) * c == Abs(w - p) by {
      if a - b >= 0.0 { assert (a - b) * c >= 0.0; } else { assert (a - b) * c < 0.0; }
    }
    var r := c / t;
    assert r * t == c;
    assert r * Abs(a - b) * t == r * t * Abs(a - b);
  }

  lemma GapOfBin(bin: CalibrationBin, total: nat, w: real, p: real)
    requires bin.count > 0 && total > 0
    requires bin.accuracy == Some(w / bin.count as real) && bin.confidence == Some(p / bin.count as real)
    ensures Times(total, WeightedGap(bin, total)) == Abs(w - p)
  {
    WeightTimesTotal(bin.count as real, total as real, w, p);
    TimesIsProduct(total, WeightedGap(bin, total));
  }

  lemma WeightedGapScaled(contents: seq<GradedBet>, i: nat, n: nat, total: nat)
    requires n > 0 && total > 0
    ensures Times(total, WeightedGap(BinOf(contents, i, n), total)) == Abs(Over(contents, Gap))
  {
    GapIsWinsLessProbabilities(contents);
    var bin := BinOf(contents, i, n);
    if contents != [] {
      GapOfBin(bin, total, Over(contents, Won), Over(contents, Probability));
    } else {
      assert WeightedGap(bin, total) == 0.0;
      TimesIsProduct(total, 0.0);
    }
  }

  lemma {:induction false} TimesAdds(n: nat, a: real, b: real)
    ensures Times(n, a + b) == Times(n, a) + Times(n, b)
  {
    if n > 0 {
      TimesAdds(n - 1, a, b);
    }
  }

  function GapOf(bins: seq<CalibrationBin>, total: nat): nat -> real
    requires total > 0
  {
    (i: nat) => if i < |bins| then WeightedGap(bins[i], total) else 0.0
  }

  lemma {:induction false} SumOfGaps(bins: seq<CalibrationBin>, total: nat)
    requires total > 0
    ensures WeightedGaps(bins, total) == Sum(|bins|, GapOf(bins, total))
  {
    if bins != [] {
      var n := |bins| - 1;
      SumOfGaps(bins[..n], total);
      SumSame(n, GapOf(bins[..n], total), n, GapOf(bins, total));
    }
  }

  lemma {:induction false} ScaleSum(n: nat, g: nat -> real, t: nat, f: nat -> real)
    requires forall i: nat :: i < n ==> Times(t, g(i)) == f(i)
    ensures Times(t, Sum(n, g)) == Sum(n, f)
  {
    if n > 0 {
      ScaleSum(n - 1, g, t, f);
      TimesAdds(t, Sum(n - 1, g), g(n - 1));
    } else {
      TimesIsProduct(t, 0.0);
    }
  }

  lemma GapAt(bets: seq<GradedBet>, n: nat, total: nat, i: nat)
    requires total > 0 && i < n
    ensures Times(total, GapOf(Bins(bets, n), total)(i)) == AbsBinGap(DecidedBets(bets), n)(i)
  {
    WeightedGapScaled(Bucket(DecidedBets(bets), n, i), i, n, total);
    assert GapOf(Bins(bets, n), total)(i) == WeightedGap(BinOf(Bucket(DecidedBets(bets), n, i), i, n), total);
  }

  lemma LastBin(bets: seq<GradedBet>, n: nat, m: nat)
    requires 0 < m <= n
    ensures Bins(bets, n)[..m][..m - 1] == Bins(bets, n)[..m - 1]
    ensures Bins(bets, n)[..m][m - 1] == BinOf(Bucket(DecidedBets(bets), n, m - 1), m - 1, n)
  {
  }

  lemma WeightedGapsAreBinGaps(bets: seq<GradedBet>, n: nat, total: nat)
    requires n > 0 && total > 0
    ensures Times(total, WeightedGaps(Bins(bets, n), total)) == Sum(n, AbsBinGap(DecidedBets(bets), n))
  {
    var g, f := GapOf(Bins(bets, n), total), AbsBinGap(DecidedBets(bets), n);
    SumOfGaps(Bins(bets, n), total);
    forall i: nat | i < n ensures Times(total, g(i)) == f(i) {
      GapAt(bets, n, total, i);
    }
    ScaleSum(n, g, total, f);
  }

  lemma {:induction false} CountsAreBinSizes(bets: seq<GradedBet>, n: nat, m: nat)
    requires m <= n && n > 0
    ensures CountIn(Bins(bets, n)[..m]) as real == Sum(m, BinSize(DecidedBets(bets), n))
  {
    if m > 0 {
      CountsAreBinSizes(bets, n, m - 1);
      LastBin(bets, n, m);
    }
  }

  lemma CountIsDecided(bets: seq<GradedBet>, n: nat)
    requires n > 0 && Probabilities(bets)
    ensures CountIn(Bins(bets, n)) == |DecidedBets(bets)|
  {
    DecidedProbabilities(bets);
    BinSizesAddUp(DecidedBets(bets), n);
    CountsAreBinSizes(bets, n, n);
    assert Bins(bets, n)[..n] == Bins(bets, n);
  }

  /** value is the mean of count figures that add up to total. */
  ghost predicate IsMean(value: Option<real>, total: real, count: nat) {
    (value.None? <==> count == 0) && (value.Some? ==> Times(count, value.value) == total)
  }

  lemma MeanIsMean(total: real, count: nat)
    ensures IsMean(Mean(total, count), total, count)
  {
    if count > 0 {
      TimesIsProduct(count, total / count as real);
    }
  }

  /** The error is the mean, over the decided bets, of the bins' absolute gaps. */
  lemma ErrorIsBinGaps(bets: seq<GradedBet>, n: nat)
    requires n > 0 && Probabilities(bets)
    ensures var decided := DecidedBets(bets);
            IsMean(ExpectedCalibrationError(Bins(bets, n)), Sum(n, AbsBinGap(decided, n)), |decided|)
  {
    CountIsDecided(bets, n);
    if DecidedBets(bets) != [] {
      WeightedGapsAreBinGaps(bets, n, |DecidedBets(bets)|);
    }
  }

  lemma SquareMonotone(a: real, b: real)
    requires 0.0 <= a <= b
    ensures a * a <= b * b
  {
    assert (b - a) * (b + a) >= 0.0;
  }

  lemma {:induction false} SumNonnegative(n: nat, f: nat -> real)
    requires forall i :: 0 <= i < n ==> f(i) >= 0.0
    ensures Sum(n, f) >= 0.0
  {
    if n > 0 {
      SumNonnegative(n - 1, f);
    }
  }

  lemma Assoc(a: real, b: real, c: real)
    ensures a * (b * c) == (a * c) * b
  {
  }

  lemma SquareOfGapsBound(bets: seq<GradedBet>, n: nat, gaps: real)
    requires n > 0 && Probabilities(bets) && gaps == Sum(n, AbsBinGap(bets, n))
    ensures gaps * gaps <= Times(|bets|, Over(bets, SquaredGap))
  {
    TimesIsProduct(|bets|, Over(bets, SquaredGap));
    BinGapsAtMostGaps(bets, n);
    SumOfGapsSquared(bets);
    SumNonnegative(n, AbsBinGap(bets, n));
    SquareMonotone(gaps, Over(bets, AbsGap));
  }

  lemma FirstMultiple(e: real, t: real, b: real, gaps: real, q: real)
    requires e * t == gaps && b * t == q
    ensures (e * e - b) * t == e * gaps - q
  {
    assert (e * e - b) * t == e * (e * t) - b * t;
  }

  lemma SecondMultiple(e: real, t: real, gaps: real, q: real)
    requires e * t == gaps
    ensures (e * gaps - q) * t == gaps * gaps - t * q
  {
    assert (e * gaps - q) * t == (e * t) * gaps - t * q;
  }

  lemma SquareBelowMean(e: real, t: real, b: real, gaps: real, q: real)
    requires t > 0.0 && e * t == gaps && b * t == q && gaps * gaps <= t * q
    ensures e * e <= b
  {
    FirstMultiple(e, t, b, gaps, q);
    SecondMultiple(e, t, gaps, q);
    if e * e > b {
      MulPositive(e * e - b, t);
      MulPositive(e * gaps - q, t);
    }
  }

  lemma SquaredMeanBound(error: real, count: nat, q: real, gaps: real, mean: real)
    requires count > 0 && Times(count, error) == gaps && Times(count, mean) == q && gaps * gaps <= Times(count, q)
    ensures error * error <= mean
  {
    TimesIsProduct(count, error);
    TimesIsProduct(count, mean);
    TimesIsProduct(count, q);
    SquareBelowMean(error, count as real, mean, gaps, q);
  }

  lemma ErrorBound(error: Option<real>, brier: Option<real>, count: nat, gaps: real, q: real)
    requires IsMean(error, gaps, count) && IsMean(brier, q, count) && gaps * gaps <= Times(count, q)
    ensures (error.None? <==> brier.None?) && (error.Some? ==> error.value * error.value <= brier.value)
  {
    if count > 0 {
      SquaredMeanBound(error.value, count, q, gaps, brier.value);
    }
  }

  /** Calibration error squared never exceeds the Brier score, whatever the bets and the number of bins. */
  lemma ErrorSquaredAtMostBrier(bets: seq<GradedBet>, n: nat)
    requires n > 0 && Probabilities(bets)
    ensures var error, brier := ExpectedCalibrationError(Bins(bets, n)), BrierScore(bets);
            (error.None? <==> brier.None?) && (error.Some? ==> error.value * error.value <= brier.value)
  {
    var decided := DecidedBets(bets);
    var gaps, q := Sum(n, AbsBinGap(decided, n)), Over(decided, SquaredGap);
    ErrorIsBinGaps(bets, n);
    DecidedProbabilities(bets);
    SquareOfGapsBound(decided, n, gaps);
    MeanIsMean(q, |decided|);
    ErrorBound(ExpectedCalibrationError(Bins(bets, n)), BrierScore(bets), |decided|, gaps, q);
  }

  // ---------- finer bins ----------

  lemma FloorBetween(x: real, low: int, high: int)
    requires low as real <= x < high as real
    ensures low <= x.Floor < high
  {
  }

  lemma ScaleStrictly(a: real, b: real, r: real)
    requires a < b && r > 0.0
    ensures a * r < b * r
  {
    MulPositive(b - a, r);
    Difference(a, b, r);
  }

  lemma Difference(a: real, b: real, r: real)
    ensures (b - a) * r == b * r - a * r
  {
  }

  lemma ScaleOrder(a: real, b: real, r: real)
    requires a <= b && r > 0.0
    ensures a * r <= b * r
  {
    if a < b {
      ScaleStrictly(a, b, r);
    }
  }

  lemma IntTimes(a: int, b: int)
    ensures (a * b) as real == a as real * b as real
  {
  }

  lemma ScaledReals(a: real, z: real, b: real, r: real, low: real, mid: real, high: real)
    requires r > 0.0 && a <= z < b && low == a * r && mid == z * r && high == b * r
    ensures low <= mid < high
  {
    ScaleOrder(a, z, r);
    ScaleStrictly(z, b, r);
  }

  lemma ScaledBetween(y: int, z: real, k: nat)
    requires k > 0 && y as real <= z < (y + 1) as real
    ensures (y * k) as real <= z * k as real < ((y + 1) * k) as real
  {
    var a, b, r := y as real, (y + 1) as real, k as real;
    IntTimes(y, k);
    IntTimes(y + 1, k);
    ScaledReals(a, z, b, r, (y * k) as real, z * r, ((y + 1) * k) as real);
  }

  lemma NestedFloor(p: real, n: nat, k: nat, fine: nat)
    requires n > 0 && k > 0 && p >= 0.0 && fine == k * n
    ensures (p * fine as real).Floor / k == (p * n as real).Floor
  {
    var z := p * n as real;
    var y := z.Floor;
    assert fine as real == k as real * n as real;
    Assoc(p, k as real, n as real);
    ScaledBetween(y, z, k);
    FloorBetween(p * fine as real, y * k, (y + 1) * k);
    Quotient((p * fine as real).Floor, y, k);
  }

  lemma MulMonotone(a: int, b: int, k: nat)
    requires a <= b
    ensures a * k <= b * k
  {
  }

  lemma Quotient(x: int, y: int, k: nat)
    requires k > 0 && y * k <= x < (y + 1) * k
    ensures x / k == y
  {
    var q := x / k;
    assert q * k <= x < q * k + k;
    if q < y {
      MulMonotone(q + 1, y, k);
    }
    if q > y {
      MulMonotone(y + 1, q, k);
    }
  }

  /** Clamping to the last index commutes with dividing by k. */
  lemma ClampedQuotient(x: int, n: nat, k: nat, fine: nat)
    requires n > 0 && k > 0 && fine == k * n
    ensures Clamp(x, fine) / k == Clamp(x / k, n)
  {
    MulMonotone(1, n, k);
    assert (n - 1) * k == fine - k && (n - 1 + 1) * k == fine;
    Quotient(fine - 1, n - 1, k);
    var q := x / k;
    assert q * k <= x < q * k + k;
    if x < fine - 1 {
      if q >= n {
        MulMonotone(n, q, k);
      }
    } else if q < n - 1 {
      MulMonotone(q + 1, n - 1, k);
    }
  }

  lemma IndexIsClampedFloor(p: real, n: nat)
    requires p >= 0.0
    ensures BinIndex(p, n) == Clamp((p * n as real).Floor, n)
  {
    assert p * n as real >= 0.0;
  }

  /** A finer bin's index over k is the coarser bin's, the clamp at 1.0 included. */
  lemma FinerIndex(p: real, n: nat, k: nat, fine: nat)
    requires n > 0 && k > 0 && 0.0 <= p <= 1.0 && fine == k * n
    ensures BinIndex(p, fine) / k == BinIndex(p, n)
  {
    NestedFloor(p, n, k, fine);
    IndexIsClampedFloor(p, n);
    IndexIsClampedFloor(p, fine);
    var x: int := (p * fine as real).Floor;
    ClampedQuotient(x, n, k, fine);
  }

  lemma {:induction false} SumSplit(a: nat, b: nat, f: nat -> real)
    ensures Sum(a + b, f) == Sum(a, f) + Sum(b, (j: nat) => f(a + j))
  {
    if b > 0 {
      SumSplit(a, b - 1, f);
    }
  }

  lemma {:induction false} AbsOfSum(n: nat, f: nat -> real)
    ensures Abs(Sum(n, f)) <= Sum(n, (j: nat) => Abs(f(j)))
  {
    if n > 0 {
      AbsOfSum(n - 1, f);
    }
  }

  function FineGaps(bets: seq<GradedBet>, fine: nat, from: nat): nat -> real {
    (j: nat) => BinGap(bets, fine, from + j)
  }

  lemma NoGap(n: nat, i: nat)
    ensures BinGap([], n, i) == 0.0
  {
    assert Bucket([], n, i) == [];
  }

  lemma {:induction false} NoGaps(fine: nat, from: nat, k: nat)
    ensures Sum(k, FineGaps([], fine, from)) == 0.0
  {
    if k > 0 {
      NoGaps(fine, from, k - 1);
      NoGap(fine, from + (k - 1));
    }
  }

  /** A coarse bin's gap is the sum of the gaps of the k fine bins it covers. */
  lemma {:induction false} CoarseGap(bets: seq<GradedBet>, n: nat, k: nat, fine: nat, i: nat, from: nat)
    requires n > 0 && k > 0 && Probabilities(bets) && fine == k * n && from == i * k
    ensures BinGap(bets, n, i) == Sum(k, FineGaps(bets, fine, from))
  {
    if bets == [] {
      NoGaps(fine, from, k);
      NoGap(n, i);
    } else {
      var rest, bet := bets[..|bets| - 1], bets[|bets| - 1];
      assert bets == rest + [bet];
      CoarseGap(rest, n, k, fine, i, from);
      FinerIndex(bet.probability, n, k, fine);
      BucketAppend(rest, bet, n, i);
      var at := BinIndex(bet.probability, fine);
      forall j: nat ensures BinGap(bets, fine, j) == BinGap(rest, fine, j) + if at == j then Gap(bet) else 0.0 {
        BucketAppend(rest, bet, fine, j);
      }
      InBlock(at, i, k);
      MoveOne(FineGaps(rest, fine, from), FineGaps(bets, fine, from), k, at - from, Gap(bet));
    }
  }

  /** Adding to one place below k adds as much to the sum; adding elsewhere leaves it. */
  lemma MoveOne(before: nat -> real, after: nat -> real, k: nat, at: int, gap: real)
    requires forall j: nat :: j < k ==> after(j) == before(j) + if at == j then gap else 0.0
    ensures Sum(k, after) == Sum(k, before) + if 0 <= at < k then gap else 0.0
  {
    if 0 <= at < k {
      SumChange(k, before, after, at);
    } else {
      SumSame(k, before, k, after);
    }
  }

  lemma InBlock(at: int, i: nat, k: nat)
    requires k > 0
    ensures at / k == i <==> i * k <= at < i * k + k
  {
    if i * k <= at < i * k + k {
      assert (i + 1) * k == i * k + k;
      Quotient(at, i, k);
    }
  }

  lemma {:induction false} BlockAtMostFine(bets: seq<GradedBet>, fine: nat, from: nat, k: nat)
    ensures Abs(Sum(k, FineGaps(bets, fine, from)))
         <= Sum(from + k, AbsBinGap(bets, fine)) - Sum(from, AbsBinGap(bets, fine))
  {
    SumSplit(from, k, AbsBinGap(bets, fine));
    AbsOfSum(k, FineGaps(bets, fine, from));
    SumSame(k, (j: nat) => Abs(FineGaps(bets, fine, from)(j)), k, (j: nat) => AbsBinGap(bets, fine)(from + j));
  }

  lemma CoarseGapAtMostFine(bets: seq<GradedBet>, n: nat, k: nat, fine: nat, i: nat, from: nat)
    requires n > 0 && k > 0 && Probabilities(bets) && fine == k * n && from == i * k
    ensures Abs(BinGap(bets, n, i)) <= Sum(from + k, AbsBinGap(bets, fine)) - Sum(from, AbsBinGap(bets, fine))
  {
    CoarseGap(bets, n, k, fine, i, from);
    BlockAtMostFine(bets, fine, from, k);
  }

  lemma {:induction false} CoarseGapsAtMostFine(bets: seq<GradedBet>, n: nat, k: nat, fine: nat, m: nat, at: nat)
    requires n > 0 && k > 0 && Probabilities(bets) && fine == k * n && at == m * k
    ensures Sum(m, AbsBinGap(bets, n)) <= Sum(at, AbsBinGap(bets, fine))
  {
    if m > 0 {
      OneLess(m, k, at);
      CoarseGapsAtMostFine(bets, n, k, fine, m - 1, at - k);
      CoarseGapAtMostFine(bets, n, k, fine, m - 1, at - k);
    }
  }

  lemma OneLess(m: nat, k: nat, at: nat)
    requires m > 0 && at == m * k
    ensures at - k == (m - 1) * k >= 0
  {
  }

  lemma {:induction false} TimesOrders(n: nat, a: real, b: real)
    requires n > 0 && Times(n, a) <= Times(n, b)
    ensures a <= b
  {
    if n > 1 && a > b {
      TimesOrders(n - 1, a, b);
    }
  }

  lemma FinerErrorBound(coarse: Option<real>, fine: Option<real>, count: nat, a: real, b: real)
    requires IsMean(coarse, a, count) && IsMean(fine, b, count) && a <= b
    ensures (coarse.None? <==> fine.None?) && (coarse.Some? ==> coarse.value <= fine.value)
  {
    if count > 0 {
      TimesOrders(count, coarse.value, fine.value);
    }
  }

  /** Splitting every bin into k never lowers the error. */
  lemma FinerBinsNeverLowerError(bets: seq<GradedBet>, n: nat, k: nat)
    requires n > 0 && k > 0 && k * n > 0 && Probabilities(bets)
    ensures var coarse, fine := ExpectedCalibrationError(Bins(bets, n)), ExpectedCalibrationError(Bins(bets, k * n));
            (coarse.None? <==> fine.None?) && (coarse.Some? ==> coarse.value <= fine.value)
  {
    ErrorIsBinGaps(bets, n);
    ErrorIsBinGaps(bets, k * n);
    DecidedProbabilities(bets);
    var decided := DecidedBets(bets);
    assert n * k == k * n;
    CoarseGapsAtMostFine(decided, n, k, k * n, n, n * k);
    FinerErrorBound(ExpectedCalibrationError(Bins(bets, n)), ExpectedCalibrationError(Bins(bets, k * n)), |decided|,
                    Sum(n, AbsBinGap(decided, n)), Sum(k * n, AbsBinGap(decided, k * n)));
  }

  // ---------- bins and scores in terms of the bets ----------

  /** The bet was won or lost at a probability between i/n and (i + 1)/n, the last bin taking in 1. */
  predicate InBin(bet: GradedBet, n: nat, i: nat) {
    && bet.status in {WON, LOST}
    && i as real <= bet.probability * n as real
    && (bet.probability * n as real < (i + 1) as real || (i + 1 == n && bet.probability == 1.0))
  }

  function InsideBin(bets: seq<GradedBet>, n: nat, i: nat): seq<GradedBet> {
    Filter(bets, (bet: GradedBet) => InBin(bet, n, i))
  }

  lemma TruncateIs(x: real, i: int)
    requires x >= 0.0
    ensures Truncate(x) == i <==> i as real <= x < (i + 1) as real
  {
  }

  lemma BinIndexIs(bet: GradedBet, n: nat, i: nat)
    requires i < n && 0.0 <= bet.probability <= 1.0 && bet.status in {WON, LOST}
    ensures BinIndex(bet.probability, n) == i <==> InBin(bet, n, i)
  {
    ProbabilityScaled(bet.probability, n as real, bet.probability * n as real);
    IndexIs(bet.probability * n as real, n, i);
  }

  lemma ProbabilityScaled(p: real, r: real, x: real)
    requires 0.0 <= p <= 1.0 && r > 0.0 && x == p * r
    ensures 0.0 <= x <= r && (x == r <==> p == 1.0)
  {
    ScaleOrder(0.0, p, r);
    ScaleOrder(p, 1.0, r);
    if p < 1.0 {
      ScaleStrictly(p, 1.0, r);
    }
  }

  lemma IndexIs(x: real, n: nat, i: nat)
    requires i < n && 0.0 <= x <= n as real
    ensures Clamp(Truncate(x), n) == i <==>
            i as real <= x && (x < (i + 1) as real || (i + 1 == n && x == n as real))
  {
    TruncateIs(x, i);
    TruncateIs(x, n);
  }

  lemma {:induction false} FilterTwice(bets: seq<GradedBet>, p: GradedBet -> bool, q: GradedBet -> bool, r: GradedBet -> bool)
    requires forall bet :: bet in bets ==> r(bet) == (p(bet) && q(bet))
    ensures Filter(Filter(bets, p), q) == Filter(bets, r)
  {
    if bets != [] {
      var rest, bet := bets[..|bets| - 1], bets[|bets| - 1];
      FilterTwice(rest, p, q, r);
      assert Filter(bets, p) == Filter(rest, p) + if p(bet) then [bet] else [];
      if p(bet) {
        FilterAppend(Filter(rest, p), bet, q);
      } else {
        assert Filter(bets, p) == Filter(rest, p);
        assert Filter(bets, r) == Filter(rest, r);
      }
    }
  }

  lemma BucketIsInside(bets: seq<GradedBet>, n: nat, i: nat)
    requires i < n && Probabilities(bets)
    ensures Bucket(DecidedBets(bets), n, i) == InsideBin(bets, n, i)
  {
    forall bet | bet in bets
      ensures InBin(bet, n, i) == (Decided(bet) && BinIndex(bet.probability, n) == i)
    {
      if bet.status in {WON, LOST} {
        BinIndexIs(bet, n, i);
      }
    }
    FilterTwice(bets, (bet: GradedBet) => Decided(bet), (bet: GradedBet) => BinIndex(bet.probability, n) == i,
                (bet: GradedBet) => InBin(bet, n, i));
  }

  lemma {:induction false} WonIsTally(bets: seq<GradedBet>)
    ensures Over(bets, Won) == Tally(bets, WON) as real
  {
    if bets != [] {
      WonIsTally(bets[..|bets| - 1]);
    }
  }

  lemma {:induction false} OverBetween(bets: seq<GradedBet>, f: GradedBet -> real, low: real, high: real)
    requires forall bet :: bet in bets ==> low <= f(bet) <= high
    ensures Times(|bets|, low) <= Over(bets, f) <= Times(|bets|, high)
  {
    if bets != [] {
      OverBetween(bets[..|bets| - 1], f, low, high);
    }
  }

  lemma MeanBetween(total: real, count: nat, low: real, high: real)
    requires count > 0 && Times(count, low) <= total <= Times(count, high)
    ensures low <= total / count as real <= high
  {
    TimesIsProduct(count, low);
    TimesIsProduct(count, high);
    QuotientBounds(total, high, count);
    QuotientBounds(total, low, count);
  }

  lemma InsideBounds(bet: GradedBet, n: nat, i: nat)
    requires i < n && InBin(bet, n, i)
    ensures i as real / n as real <= bet.probability <= (i + 1) as real / n as real
  {
    QuotientBounds(i as real, bet.probability, n);
    QuotientBounds((i + 1) as real, bet.probability, n);
    if i + 1 == n {
      assert (i + 1) as real / n as real == 1.0;
    }
  }

  /** What a bin says of the decided bets inside it: how many there are; their mean probability, which lies between its
      bounds; and what share of them was won. */
  lemma BinDescribesItsBets(bets: seq<GradedBet>, n: nat, i: nat)
    requires i < n && Probabilities(bets)
    ensures var bin, inside := Bins(bets, n)[i], InsideBin(bets, n, i);
            && bin.count == |inside|
            && bin.lower == i as real / n as real && bin.upper == (i + 1) as real / n as real
            && IsMean(bin.confidence, Over(inside, (bet: GradedBet) => bet.probability), |inside|)
            && IsMean(bin.accuracy, Tally(inside, WON) as real, |inside|)
            && (bin.confidence.Some? ==> bin.lower <= bin.confidence.value <= bin.upper)
  {
    var inside := InsideBin(bets, n, i);
    BucketIsInside(bets, n, i);
    OverSame(inside, Probability, (bet: GradedBet) => bet.probability);
    WonIsTally(inside);
    MeanIsMean(Over(inside, Probability), |inside|);
    MeanIsMean(Over(inside, Won), |inside|);
    if inside != [] {
      FilterMembers(bets, (bet: GradedBet) => InBin(bet, n, i));
      forall bet | bet in inside ensures i as real / n as real <= Probability(bet) <= (i + 1) as real / n as real {
        InsideBounds(bet, n, i);
      }
      OverBetween(inside, Probability, i as real / n as real, (i + 1) as real / n as real);
      MeanBetween(Over(inside, Probability), |inside|, i as real / n as real, (i + 1) as real / n as real);
    }
  }

  /** The error is the mean, over the won and lost bets, of how far the wins in each bin are from what its probabilities
      add up to. */
  lemma ErrorInWins(bets: seq<GradedBet>, n: nat)
    requires n > 0 && Probabilities(bets)
    ensures IsMean(ExpectedCalibrationError(Bins(bets, n)), Sum(n, WinGap(bets, n)), Tally(bets, WON) + Tally(bets, LOST))
  {
    var decided := DecidedBets(bets);
    ErrorIsBinGaps(bets, n);
    DecidedTally(bets);
    forall i: nat | i < n ensures AbsBinGap(decided, n)(i) == WinGap(bets, n)(i) {
      var inside := InsideBin(bets, n, i);
      BucketIsInside(bets, n, i);
      GapIsWinsLessProbabilities(inside);
      WonIsTally(inside);
      OverSame(inside, Probability, (bet: GradedBet) => bet.probability);
    }
    SumSame(n, AbsBinGap(decided, n), n, WinGap(bets, n));
  }

  function WinGap(bets: seq<GradedBet>, n: nat): nat -> real {
    (i: nat) =>
      var inside := InsideBin(bets, n, i);
      Abs(Tally(inside, WON) as real - Over(inside, (bet: GradedBet) => bet.probability))
  }

  /** The squared distances of the probability from what happened, over won and lost bets. */
  function SquaredErrors(bets: seq<GradedBet>): real {
    if bets == [] then 0.0
    else
      var n := |bets| - 1;
      SquaredErrors(bets[..n]) + SquaredError(bets[n])
  }

  function SquaredError(bet: GradedBet): real {
    match bet.status
    case WON => (1.0 - bet.probability) * (1.0 - bet.probability)
    case LOST => bet.probability * bet.probability
    case _ => 0.0
  }

  lemma GapIsError(bet: GradedBet)
    requires Decided(bet)
    ensures SquaredGap(bet) == SquaredError(bet)
  {
    SquareOfNegative(bet.probability);
  }

  lemma SquareOfNegative(p: real)
    ensures (0.0 - p) * (0.0 - p) == p * p
  {
  }

  lemma {:induction false} SquaredGapsAreErrors(bets: seq<GradedBet>)
    ensures Over(DecidedBets(bets), SquaredGap) == SquaredErrors(bets)
  {
    if bets != [] {
      var rest, bet := bets[..|bets| - 1], bets[|bets| - 1];
      SquaredGapsAreErrors(rest);
      assert bets == rest + [bet];
      FilterAppend(rest, bet, (b: GradedBet) => Decided(b));
      if Decided(bet) {
        GapIsError(bet);
        OverAppend(DecidedBets(rest), bet, SquaredGap);
      } else {
        assert DecidedBets(bets) == DecidedBets(rest);
      }
    }
  }

  /** The Brier score is the mean squared distance of the probability from what happened. */
  lemma BrierIsMeanSquare(bets: seq<GradedBet>)
    ensures IsMean(BrierScore(bets), SquaredErrors(bets), Tally(bets, WON) + Tally(bets, LOST))
  {
    SquaredGapsAreErrors(bets);
    DecidedTally(bets);
    MeanIsMean(Over(DecidedBets(bets), SquaredGap), |DecidedBets(bets)|);
  }
}
