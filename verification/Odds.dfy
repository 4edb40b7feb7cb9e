/** American and decimal odds, and how far rounding carries a parlay's price. */
module Odds {
  import opened Numeric
  import opened Outcomes
  import opened Parlay

  /** None stands for the ValueError on zero. */
  function AmericanToDecimal(american: int): Option<real> {
    if american == 0 then None
    else if american > 0 then Some(1.0 + american as real / 100.0)
    else Some(1.0 + 100.0 / (-american) as real)
  }

  /** None stands for the ValueError on odds of 1 or less. */
  function DecimalToAmerican(odds: real): Option<int> {
    if odds <= 1.0 then None
    else if odds >= 2.0 then Some(RoundHalfEven((odds - 1.0) * 100.0))
    else Some(-RoundHalfEven(100.0 / (odds - 1.0)))
  }

  lemma DivBelow(a: real, b: real, c: real)
    requires b > 0.0
    ensures a < c * b ==> a / b < c
    ensures a >= c * b ==> a / b >= c
    ensures a / b * b == a
  {
    var q := a / b;
    assert q * b == a;
    if q < c { assert (c - q) * b > 0.0; }
    if q >= c { assert (q - c) * b >= 0.0; }
  }

  /** What a favourite's American price is before rounding lies above 100. */
  lemma FavouriteAbove100(odds: real)
    requires 1.0 < odds < 2.0
    ensures 100.0 / (odds - 1.0) > 100.0
    ensures RoundHalfEven(100.0 / (odds - 1.0)) >= 100
  {
    var x := odds - 1.0;
    DivBelow(100.0, x, 100.0);
    assert 100.0 / x != 100.0 by { assert 100.0 / x * x == 100.0; }
    RoundMonotone(100.0, 100.0 / x);
    RoundKeepsWhole(100);
  }

  /** The conversion to decimal and back returns the American odds exactly for the two standard ranges. */
  lemma AmericanRoundTrip(american: int)
    ensures var d := AmericanToDecimal(american);
            american >= 100 || american < -100 <==>
            d.Some? && DecimalToAmerican(d.value) == Some(american)
  {
    if american > 0 {
      var d := 1.0 + american as real / 100.0;
      if american >= 100 {
        assert (d - 1.0) * 100.0 == american as real;
        RoundKeepsWhole(american);
      } else {
        FavouriteAbove100(d);
      }
    } else if american < 0 {
      var b := (-american) as real;
      var q := 100.0 / b;
      DivBelow(100.0, b, 1.0);
      if american < -100 {
        assert q > 0.0 by { DivBelow(100.0, b, 0.0); assert q * b == 100.0; }
        assert 100.0 / q == b by { DivBelow(100.0, q, b); assert 100.0 / q * q == 100.0; assert (100.0 / q - b) * q == 0.0; }
        RoundKeepsWhole(-american);
      } else {
        RoundMonotone(100.0, q * 100.0);
        RoundKeepsWhole(100);
      }
    }
  }

  /** Longer decimal odds never convert to shorter American odds. */
  lemma DecimalToAmericanMonotone(a: real, b: real)
    requires 1.0 < a <= b
    ensures DecimalToAmerican(a).value <= DecimalToAmerican(b).value
  {
    if a >= 2.0 {
      RoundMonotone((a - 1.0) * 100.0, (b - 1.0) * 100.0);
    } else if b >= 2.0 {
      FavouriteAbove100(a);
      RoundMonotone(100.0, (b - 1.0) * 100.0);
      RoundKeepsWhole(100);
    } else {
      var x, y := a - 1.0, b - 1.0;
      DivBelow(100.0, x, 100.0 / y);
      assert 100.0 / y * x <= 100.0 by {
        DivBelow(100.0, y, 0.0);
        MulNonnegative(100.0 / y, y - x);
      }
      RoundMonotone(100.0 / y, 100.0 / x);
    }
  }

  /** There and back through American odds moves a decimal price by at most half a cent. */
  lemma DecimalRoundTripError(odds: real)
    requires odds > 1.0
    ensures var back := AmericanToDecimal(DecimalToAmerican(odds).value);
            back.Some? && Abs(back.value - odds) <= 0.005
  {
    if odds >= 2.0 {
      RoundIsNearest((odds - 1.0) * 100.0);
      RoundMonotone(100.0, (odds - 1.0) * 100.0);
      RoundKeepsWhole(100);
    } else {
      FavouriteAbove100(odds);
      var y := odds - 1.0;
      var x := 100.0 / y;
      var r := RoundHalfEven(x) as real;
      RoundIsNearest(x);
      var q := 100.0 / r;
      assert q * r == 100.0 && x * y == 100.0;
      FavouriteError(x, r, y, q);
    }
  }

  lemma MulNonnegative(a: real, b: real)
    requires a >= 0.0 && b >= 0.0
    ensures a * b >= 0.0
  {
  }

  lemma ScaledBound(t: real, r: real)
    requires r >= 100.0 && t * r <= 0.5
    ensures t <= 0.005
  {
    if t > 0.005 {
      MulNonnegative(t, r - 100.0);
    }
  }

  lemma UnitScale(y: real, e: real)
    requires 0.0 < y < 1.0 && -0.5 <= e <= 0.5
    ensures -0.5 <= y * e <= 0.5
  {
    if e >= 0.0 {
      MulNonnegative(1.0 - y, e);
    } else {
      MulNonnegative(1.0 - y, -e);
    }
  }

  lemma FavouriteError(x: real, r: real, y: real, q: real)
    requires x > 100.0 && r >= 100.0 && -0.5 <= x - r <= 0.5
    requires x * y == 100.0 && q * r == 100.0
    ensures -0.005 <= q - y <= 0.005
  {
    // (q - y) * r == 100 - y * r == y * (x - r), and 0 < y < 1
    assert 0.0 < y < 1.0;
    assert (q - y) * r == y * (x - r);
    var e := x - r;
    UnitScale(y, e);
    assert (y - q) * r == -(y * e);
    ScaledBound(q - y, r);
    ScaledBound(y - q, r);
  }

  // ---------- a parlay's price chain ----------

  predicate CapturedPrice(odds: real) {
    odds > 1.0 && Ticks(odds)
  }

  /** What place_parlay stores: the product rounded to four places, and its American form. */
  function StoredDecimal(decimals: seq<real>): real {
    Round4(Product(decimals))
  }

  lemma {:induction false} ProductAboveOne(decimals: seq<real>)
    requires decimals != []
    requires forall i :: 0 <= i < |decimals| ==> CapturedPrice(decimals[i])
    ensures Product(decimals) >= 1.0001
  {
    assert CapturedPrice(decimals[0]);
    var n := (decimals[0] * 10000.0).Floor;
    assert decimals[0] >= 1.0001 by { assert n > 10000; }
    if |decimals| > 1 {
      ProductAboveOne(decimals[1..]);
      assert decimals[0] * Product(decimals[1..]) >= decimals[0] * 1.0;
    } else {
      assert decimals[1..] == [];
    }
  }

  lemma {:induction false} AllWonDecimals(legs: seq<Priced>, decimals: seq<real>)
    requires |legs| == |decimals|
    requires forall i :: 0 <= i < |legs| ==> legs[i] == Priced(WON, decimals[i])
    ensures WonDecimals(legs) == decimals
  {
    if legs != [] {
      AllWonDecimals(legs[1..], decimals[1..]);
    }
  }

  /** A parlay that wins with every leg standing settles within 0.00005 of its stored decimal price and within
      0.00505 of the decimal value of its stored American price, whatever the number of legs. */
  lemma PriceChain(decimals: seq<real>)
    requires decimals != []
    requires forall i :: 0 <= i < |decimals| ==> CapturedPrice(decimals[i])
    ensures var s := SettleParlay(seq(|decimals|, _ => WON), decimals);
            var stored := StoredDecimal(decimals);
            var american := DecimalToAmerican(stored);
            && s.Settled? && s.status.WON?
            && Abs(s.price - stored) <= 0.00005
            && american.Some? && AmericanToDecimal(american.value).Some?
            && Abs(s.price - AmericanToDecimal(american.value).value) <= 0.00505
  {
    var won := seq(|decimals|, _ => WON);
    var legs := seq(|won|, i requires 0 <= i < |won| => Priced(won[i], decimals[i]));
    assert legs[0].status.WON?;
    AllWonDecimals(legs, decimals);
    ProductAboveOne(decimals);
    Round4Near(Product(decimals));
    DecimalRoundTripError(StoredDecimal(decimals));
  }
}
