/** Parlay pricing and settlement. */
module Parlay {
  import opened Outcomes
  import opened Grading

  /** A leg as settlement sees it: its status and the decimal odds captured for it. */
  datatype Priced = Priced(status: Status, odds: real)

  /** None stands for "still open"; misaligned inputs raise. */
  datatype Settlement = Misaligned | Undecided | Settled(status: Status, price: real)

  function Product(decimals: seq<real>): real {
    if decimals == [] then 1.0 else decimals[0] * Product(decimals[1..])
  }

  /** The product of the legs' decimals; no legs raises. */
  function CombinedDecimal(decimals: seq<real>): Option<real> {
    if decimals == [] then None else Some(Product(decimals))
  }

  function WonDecimals(legs: seq<Priced>): seq<real> {
    if legs == [] then []
    else if legs[0].status.WON? then [legs[0].odds] + WonDecimals(legs[1..])
    else WonDecimals(legs[1..])
  }

  predicate Any(legs: seq<Priced>, status: Status) {
    exists i :: 0 <= i < |legs| && legs[i].status == status
  }

  predicate AllDropped(legs: seq<Priced>) {
    forall i :: 0 <= i < |legs| ==> legs[i].status in {PUSH, VOID}
  }

  function SettleLegs(legs: seq<Priced>): Settlement {
    if Any(legs, OPEN) then Undecided
    else
      var repriced := Product(WonDecimals(legs));
      if Any(legs, LOST) then Settled(LOST, repriced)
      else if AllDropped(legs) then Settled(PUSH, 1.0)
      else Settled(WON, repriced)
  }

  function SettleParlay(statuses: seq<Status>, decimals: seq<real>): Settlement {
    if |statuses| != |decimals| then Misaligned
    else SettleLegs(seq(|statuses|, i requires 0 <= i < |statuses| => Priced(statuses[i], decimals[i])))
  }

  // ---------- settlement is rolling the stake ----------

  /** Carry the stake leg by leg: a win multiplies it, a dropped leg keeps it, a loss leaves nothing. */
  function Roll(stake: real, legs: seq<Priced>): real
    decreases |legs|
  {
    if legs == [] then stake
    else
      match legs[0].status
      case WON => Roll(stake * legs[0].odds, legs[1..])
      case LOST => Roll(0.0, legs[1..])
      case _ => Roll(stake, legs[1..])
  }

  lemma {:induction false} RollNothing(legs: seq<Priced>)
    ensures Roll(0.0, legs) == 0.0
  {
    if legs != [] {
      RollNothing(legs[1..]);
    }
  }

  lemma {:induction false} RollSurvivors(stake: real, legs: seq<Priced>)
    ensures if Any(legs, LOST) then Roll(stake, legs) == 0.0
            else Roll(stake, legs) == stake * Product(WonDecimals(legs))
    decreases |legs|
  {
    if legs != [] {
      var rest := legs[1..];
      assert forall i :: 0 < i < |legs| ==> legs[i] == rest[i - 1];
      match legs[0].status
      case LOST => RollNothing(rest);
      case WON =>
        RollSurvivors(stake * legs[0].odds, rest);
        var d := Product(WonDecimals(rest));
        assert WonDecimals(legs)[1..] == WonDecimals(rest);
        assert stake * legs[0].odds * d == stake * (legs[0].odds * d);
      case _ =>
        RollSurvivors(stake, rest);
        assert WonDecimals(legs) == WonDecimals(rest);
    }
  }

  lemma {:induction false} DroppedOnlyPriceOne(legs: seq<Priced>)
    requires AllDropped(legs)
    ensures WonDecimals(legs) == []
  {
    if legs != [] {
      DroppedOnlyPriceOne(legs[1..]);
    }
  }

  /** A decided parlay pays exactly what rolling the stake through its legs leaves, less the stake. */
  lemma SettlementIsRolling(stake: real, legs: seq<Priced>)
    requires !Any(legs, OPEN)
    ensures var s := SettleLegs(legs);
            s.Settled? && ProfitLoss(s.status, stake, s.price) == Roll(stake, legs) - stake
  {
    RollSurvivors(stake, legs);
    if AllDropped(legs) {
      DroppedOnlyPriceOne(legs);
    }
  }

  // ---------- settlement is a homomorphism ----------

  function Neutral(): Settlement {
    Settled(PUSH, 1.0)
  }

  /** Put the settlements of two groups of legs together. */
  function Join(a: Settlement, b: Settlement): Settlement {
    if a.Misaligned? || b.Misaligned? then Misaligned
    else if a.Undecided? || b.Undecided? then Undecided
    else
      var status := if a.status.LOST? || b.status.LOST? then LOST
                    else if a.status.WON? || b.status.WON? then WON else PUSH;
      Settled(status, a.price * b.price)
  }

  lemma {:induction false} WonDecimalsConcat(a: seq<Priced>, b: seq<Priced>)
    ensures WonDecimals(a + b) == WonDecimals(a) + WonDecimals(b)
  {
    if a == [] {
      assert a + b == b;
    } else {
      assert (a + b)[1..] == a[1..] + b;
      WonDecimalsConcat(a[1..], b);
    }
  }

  lemma {:induction false} ProductConcat(a: seq<real>, b: seq<real>)
    ensures Product(a + b) == Product(a) * Product(b)
  {
    if a == [] {
      assert a + b == b;
    } else {
      assert (a + b)[1..] == a[1..] + b;
      ProductConcat(a[1..], b);
      assert a[0] * (Product(a[1..]) * Product(b)) == (a[0] * Product(a[1..])) * Product(b);
    }
  }

  lemma ConditionsConcat(a: seq<Priced>, b: seq<Priced>)
    ensures forall status :: Any(a + b, status) <==> Any(a, status) || Any(b, status)
    ensures AllDropped(a + b) <==> AllDropped(a) && AllDropped(b)
  {
    var ab := a + b;
    assert forall i :: 0 <= i < |a| ==> ab[i] == a[i];
    assert forall i :: 0 <= i < |b| ==> ab[|a| + i] == b[i];
  }

  /** Settling all the legs is joining the settlements of any two consecutive groups. */
  lemma {:induction false} SettleConcat(a: seq<Priced>, b: seq<Priced>)
    ensures SettleLegs(a + b) == Join(SettleLegs(a), SettleLegs(b))
  {
    ConditionsConcat(a, b);
    WonDecimalsConcat(a, b);
    ProductConcat(WonDecimals(a), WonDecimals(b));
    if AllDropped(a) { DroppedOnlyPriceOne(a); }
    if AllDropped(b) { DroppedOnlyPriceOne(b); }
  }

  lemma JoinIsCommutativeMonoid(a: Settlement, b: Settlement, c: Settlement)
    ensures Join(a, b) == Join(b, a)
    ensures Join(Join(a, b), c) == Join(a, Join(b, c))
    ensures (a.Settled? ==> a.status in {WON, LOST, PUSH}) ==> Join(a, Neutral()) == a
  {
    if a.Settled? && b.Settled? && c.Settled? {
      assert (a.price * b.price) * c.price == a.price * (b.price * c.price);
    }
  }

  lemma SwapGroups(a: seq<Priced>, b: seq<Priced>, c: seq<Priced>)
    ensures SettleLegs(a + (b + c)) == SettleLegs(b + (a + c))
  {
    SettleConcat(a, b + c);
    SettleConcat(b, c);
    SettleConcat(b, a + c);
    SettleConcat(a, c);
    var x, y, z := SettleLegs(a), SettleLegs(b), SettleLegs(c);
    JoinIsCommutativeMonoid(x, y, z);
    JoinIsCommutativeMonoid(y, x, z);
  }

  lemma RemoveOne(a: seq<Priced>, k: nat)
    requires k < |a|
    ensures multiset(a[..k] + a[k + 1..]) == multiset(a) - multiset{a[k]}
  {
    assert a == a[..k] + [a[k]] + a[k + 1..];
  }

  lemma SameTail(x: Priced, a: seq<Priced>, b: seq<Priced>)
    requires SettleLegs(a) == SettleLegs(b)
    ensures SettleLegs([x] + a) == SettleLegs([x] + b)
  {
    SettleConcat([x], a);
    SettleConcat([x], b);
  }

  lemma FindOne(x: Priced, tail: seq<Priced>, b: seq<Priced>) returns (before: seq<Priced>, after: seq<Priced>)
    requires multiset([x] + tail) == multiset(b)
    ensures b == before + ([x] + after)
    ensures multiset(tail) == multiset(before + after)
  {
    assert x in multiset(b);
    var k :| 0 <= k < |b| && b[k] == x;
    before, after := b[..k], b[k + 1..];
    RemoveOne(b, k);
    assert multiset(tail) == multiset([x] + tail) - multiset{x};
  }

  /** The order of the legs does not matter. */
  lemma {:induction false} SettlePermutation(a: seq<Priced>, b: seq<Priced>)
    requires multiset(a) == multiset(b)
    ensures SettleLegs(a) == SettleLegs(b)
  {
    if a == [] {
      assert |b| == |multiset(b)| == 0;
    } else {
      var x, tail := a[0], a[1..];
      assert a == [x] + tail;
      var before, after := FindOne(x, tail, b);
      SettlePermutation(tail, before + after);
      SameTail(x, tail, before + after);
      SwapGroups([x], before, after);
    }
  }

  /** Legs that pushed or were voided can be added anywhere without moving the settlement. */
  lemma DroppedLegsAreNeutral(a: seq<Priced>, dropped: seq<Priced>, b: seq<Priced>)
    requires AllDropped(dropped)
    ensures SettleLegs(a + dropped + b) == SettleLegs(a + b)
  {
    SettleConcat(a + dropped, b);
    SettleConcat(a, dropped);
    SettleConcat(a, b);
    assert SettleLegs(dropped) == Neutral();
    JoinIsCommutativeMonoid(SettleLegs(a), Neutral(), SettleLegs(b));
  }

  // ---------- outcomes over whole parlays ----------

  /** The legs of an n-game moneyline parlay after the scores are in. */
  function MoneylineLegs(sides: seq<Side>, scores: seq<(int, int)>, decimals: seq<real>): seq<Priced>
    requires |sides| == |scores| == |decimals|
  {
    seq(|sides|, i requires 0 <= i < |sides| =>
      var grade := GradeBet(MONEYLINE, Some(sides[i]), None, scores[i].0, scores[i].1, true);
      Priced(if grade.Some? then grade.value else OPEN, decimals[i]))
  }

  /** Of all the HOME/DRAW/AWAY vectors over n three-way games, exactly the vector of winners wins the parlay;
      every other one loses and none pushes. */
  lemma OneMoneylineVectorWins(sides: seq<Side>, scores: seq<(int, int)>, decimals: seq<real>)
    requires 0 < |sides| == |scores| == |decimals|
    requires forall i :: 0 <= i < |sides| ==> sides[i] in {HOME, DRAW, AWAY}
    ensures var winners := seq(|scores|, i requires 0 <= i < |scores| => Winner(scores[i].0, scores[i].1));
            var s := SettleLegs(MoneylineLegs(sides, scores, decimals));
            s.Settled? && s.status == if sides == winners then WON else LOST
  {
    var winners := seq(|scores|, i requires 0 <= i < |scores| => Winner(scores[i].0, scores[i].1));
    var legs := MoneylineLegs(sides, scores, decimals);
    assert forall i :: 0 <= i < |sides| ==> legs[i].status == if sides[i] == winners[i] then WON else LOST;
    if sides != winners {
      var i :| 0 <= i < |sides| && sides[i] != winners[i];
      assert legs[i].status.LOST?;
    } else {
      assert legs[0].status.WON?;
    }
  }

  /** Two parlays whose legs take opposite sides never both win, and push only together. */
  lemma MirroredParlays(legs: seq<Priced>, mirrored: seq<Priced>)
    requires |legs| == |mirrored|
    requires forall i :: 0 <= i < |legs| ==> !legs[i].status.OPEN? && mirrored[i].status == Mirror(legs[i].status)
    ensures var s, m := SettleLegs(legs), SettleLegs(mirrored);
            && s.Settled? && m.Settled?
            && (s.status.WON? ==> m.status.LOST?) && (m.status.WON? ==> s.status.LOST?)
            && (s.status.PUSH? <==> m.status.PUSH?)
  {
    var s, m := SettleLegs(legs), SettleLegs(mirrored);
    if s.status.WON? {
      var i :| 0 <= i < |legs| && legs[i].status !in {PUSH, VOID};
      assert mirrored[i].status.LOST?;
    }
    if m.status.WON? {
      var i :| 0 <= i < |legs| && mirrored[i].status !in {PUSH, VOID};
      assert legs[i].status.LOST?;
    }
  }

  /** The side, and the line, of the bet against this one on the same spread. */
  function Against(pick: (Side, real)): (Side, real) {
    (if pick.0.HOME? then AWAY else HOME, -pick.1)
  }

  /** The legs of an n-game spread parlay after the scores are in. */
  function SpreadLegs(picks: seq<(Side, real)>, scores: seq<(int, int)>, decimals: seq<real>): seq<Priced>
    requires |picks| == |scores| == |decimals|
  {
    seq(|picks|, i requires 0 <= i < |picks| =>
      var grade := GradeBet(SPREAD, Some(picks[i].0), Some(picks[i].1), scores[i].0, scores[i].1, false);
      Priced(if grade.Some? then grade.value else OPEN, decimals[i]))
  }

  lemma MirroredSpread(pick: (Side, real), home: int, away: int)
    requires pick.0 in {HOME, AWAY}
    ensures var s := GradeBet(SPREAD, Some(pick.0), Some(pick.1), home, away, false);
            var m := GradeBet(SPREAD, Some(Against(pick).0), Some(Against(pick).1), home, away, false);
            s in {Some(WON), Some(LOST), Some(PUSH)} && m == Some(Mirror(s.value))
  {
    OppositeSidesMirror(pick.1, home, away, 0.0);
    OppositeSidesMirror(-pick.1, home, away, 0.0);
    assert -(-pick.1) == pick.1;
  }

  /** A parlay of spreads and the parlay against it, for any sides, lines, scores and prices: each leg loses exactly
      where the leg against it wins, the two never both win, and they push only together. */
  lemma {:induction false} MirroredSpreadParlays(picks: seq<(Side, real)>, scores: seq<(int, int)>, decimals: seq<real>,
                                                 against: seq<real>)
    requires |picks| == |scores| == |decimals| == |against|
    requires forall i :: 0 <= i < |picks| ==> picks[i].0 in {HOME, AWAY}
    ensures var mirrored := seq(|picks|, i requires 0 <= i < |picks| => Against(picks[i]));
            var legs, others := SpreadLegs(picks, scores, decimals), SpreadLegs(mirrored, scores, against);
            var s, m := SettleLegs(legs), SettleLegs(others);
            && (forall i :: 0 <= i < |picks| ==>
                  && !legs[i].status.OPEN? && !others[i].status.OPEN?
                  && (legs[i].status.LOST? <==> others[i].status.WON?)
                  && (legs[i].status.WON? <==> others[i].status.LOST?))
            && s.Settled? && m.Settled?
            && (s.status.WON? ==> m.status.LOST?) && (m.status.WON? ==> s.status.LOST?)
            && (s.status.PUSH? <==> m.status.PUSH?)
  {
    var mirrored := seq(|picks|, i requires 0 <= i < |picks| => Against(picks[i]));
    var legs, others := SpreadLegs(picks, scores, decimals), SpreadLegs(mirrored, scores, against);
    forall i | 0 <= i < |picks|
      ensures legs[i].status in {WON, LOST, PUSH} && others[i].status == Mirror(legs[i].status)
    {
      MirroredSpread(picks[i], scores[i].0, scores[i].1);
    }
    MirroredParlays(legs, others);
  }
}
