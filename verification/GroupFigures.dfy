/** What the figures of a group say of its bets. */
module GroupFigures {
  import opened Numeric
  import opened Outcomes
  import opened Odds
  import opened Performance
  import opened Calibration
  import opened Breakdown

  /** The counts of a group are by status. */
  lemma GroupCountsItsBets(name: string, members: seq<GradedBet>)
    ensures var g := GroupOf(name, members);
            && g.name == name && g.totalBets == |members|
            && g.wins == Tally(members, WON) && g.losses == Tally(members, LOST) && g.pushes == Tally(members, PUSH)
  {
    HowManyIsTally(members, With(WON), WON);
    HowManyIsTally(members, With(LOST), LOST);
    HowManyIsTally(members, With(PUSH), PUSH);
  }

  /** Its win rate is the share of the won among the won and lost. */
  lemma WinRateOfGroup(name: string, members: seq<GradedBet>)
    ensures var g := GroupOf(name, members); IsShare(g.winRate, g.wins, g.wins + g.losses)
  {
    WinRateIsShare(HowMany(members, With(WON)), HowMany(members, With(LOST)));
  }

  /** Its profit is the sum of the profits, and its ROI that sum by the sum of the stakes; its edge is the mean, in
      percent. */
  lemma GroupAddsItsMoney(name: string, members: seq<GradedBet>)
    ensures var g := GroupOf(name, members);
            && g.profit == Over(members, (bet: GradedBet) => bet.profit)
            && IsReturn(g.roi, g.profit, Over(members, (bet: GradedBet) => bet.stake))
    ensures IsMean(GroupOf(name, members).averageEdge, Over(members, (bet: GradedBet) => 100.0 * bet.edge), |members|)
  {
    OverSame(members, Profit, (bet: GradedBet) => bet.profit);
    OverSame(members, Stake, (bet: GradedBet) => bet.stake);
    RoiIsReturn(Over(members, Profit), Over(members, Stake));
    EdgeInPercent(members);
  }

  /** part is this share of whole; of nothing the share is zero. */
  predicate IsShare(share: real, part: nat, whole: nat) {
    if whole == 0 then share == 0.0 else Times(whole, share) == part as real
  }

  lemma WinRateIsShare(wins: nat, losses: nat)
    ensures IsShare(WinRate(wins, losses), wins, wins + losses)
  {
    if wins + losses > 0 {
      TimesIsProduct(wins + losses, WinRate(wins, losses));
    }
  }

  /** Of no stake the return is zero. */
  predicate IsReturn(roi: real, profit: real, wagered: real) {
    if wagered == 0.0 then roi == 0.0 else IsWeightedMean(roi, wagered, profit)
  }

  lemma RoiIsReturn(profit: real, wagered: real)
    ensures IsReturn(Roi(profit, wagered), profit, wagered)
  {
  }

  lemma {:induction false} PercentOver(bets: seq<GradedBet>)
    ensures Over(bets, (bet: GradedBet) => 100.0 * bet.edge) == 100.0 * Over(bets, Edge)
  {
    if bets != [] {
      PercentOver(bets[..|bets| - 1]);
    }
  }

  lemma PercentOfMean(total: real, count: nat)
    requires count > 0
    ensures Times(count, (total / count as real) * 100.0) == 100.0 * total
  {
    var q := total / count as real;
    TimesIsProduct(count, q * 100.0);
    assert q * count as real == total;
  }

  lemma EdgeInPercent(bets: seq<GradedBet>)
    ensures IsMean(Percent(Mean(Over(bets, Edge), |bets|)), Over(bets, (bet: GradedBet) => 100.0 * bet.edge), |bets|)
  {
    PercentOver(bets);
    if bets != [] {
      PercentOfMean(Over(bets, Edge), |bets|);
    }
  }

  /** The mean closing-line value is over the bets that have one. */
  lemma ClvDescribesItsBets(name: string, members: seq<GradedBet>)
    ensures var tracked := Filter(members, (bet: GradedBet) => bet.clv.Some?);
            IsMean(GroupOf(name, members).averageClv,
                   Over(tracked, (bet: GradedBet) => if bet.clv.Some? then bet.clv.value else 0.0), |tracked|)
  {
    var keep := (bet: GradedBet) => bet.clv.Some?;
    FilterSame(members, HasClv, keep);
    var tracked := Filter(members, keep);
    OverSame(tracked, Clv, (bet: GradedBet) => if bet.clv.Some? then bet.clv.value else 0.0);
    MeanIsMean(Over(tracked, Clv), |tracked|);
  }

  lemma {:induction false} FilterSame(bets: seq<GradedBet>, p: GradedBet -> bool, q: GradedBet -> bool)
    requires forall bet :: bet in bets ==> p(bet) == q(bet)
    ensures Filter(bets, p) == Filter(bets, q)
  {
    if bets != [] {
      FilterSame(bets[..|bets| - 1], p, q);
    }
  }

  /** The profit each bet carries is what its status pays at its odds. */
  predicate Settled(bets: seq<GradedBet>) {
    forall bet :: bet in bets ==>
      bet.stake > 0.0 && bet.odds >= 1.0 && bet.profit == ProfitLoss(bet.status, bet.stake, bet.odds)
  }

  lemma PaysBySign(bet: GradedBet)
    requires Settled([bet])
    ensures (bet.status.WON? ==> bet.profit >= 0.0) && (bet.status.LOST? ==> bet.profit == -bet.stake < 0.0)
    ensures !bet.status.WON? && !bet.status.LOST? ==> bet.profit == 0.0
  {
    assert bet in [bet];
    LossAtMostStake(bet.status, bet.stake, bet.odds);
    StakeTimes(bet.stake, bet.odds - 1.0);
  }

  lemma StakeTimes(stake: real, gain: real)
    requires stake > 0.0 && gain >= 0.0
    ensures stake * gain >= 0.0
  {
  }

  /** A group without losses is not in the red, and one with losses and no win is. */
  lemma {:induction false} ProfitFollowsWins(name: string, members: seq<GradedBet>)
    requires Settled(members)
    ensures var g := GroupOf(name, members);
            && (g.losses == 0 ==> g.profit >= 0.0)
            && (g.wins == 0 ==> g.profit <= 0.0)
            && (g.wins == 0 && g.losses > 0 ==> g.profit < 0.0)
  {
    HowManyIsTally(members, With(WON), WON);
    HowManyIsTally(members, With(LOST), LOST);
    ProfitSigns(members);
  }

  lemma {:induction false} ProfitSigns(members: seq<GradedBet>)
    requires Settled(members)
    ensures var profit := Over(members, Profit);
            && (Tally(members, LOST) == 0 ==> profit >= 0.0)
            && (Tally(members, WON) == 0 ==> profit <= 0.0)
            && (Tally(members, WON) == 0 && Tally(members, LOST) > 0 ==> profit < 0.0)
  {
    if members != [] {
      var rest, bet := members[..|members| - 1], members[|members| - 1];
      assert forall b :: b in rest ==> b in members;
      ProfitSigns(rest);
      assert bet in members;
      PaysBySign(bet);
    }
  }

  /** The average American odds convert to within half a cent of the mean decimal odds; there are none without bets, or
      when that mean is zero. */
  lemma AverageOddsNearMean(bets: seq<GradedBet>)
    requires !MeanOddsRaise(bets)
    ensures IsMean(MeanOdds(bets), Over(bets, (bet: GradedBet) => bet.odds), |bets|)
    ensures AverageOdds(bets).None? <==> MeanOdds(bets) in {None, Some(0.0)}
    ensures AverageOdds(bets).Some? ==>
              var back := AmericanToDecimal(AverageOdds(bets).value);
              MeanOdds(bets).value > 1.0 && back.Some? && Abs(back.value - MeanOdds(bets).value) <= 0.005
  {
    OverSame(bets, OddsFigure, (bet: GradedBet) => bet.odds);
    MeanIsMean(Over(bets, OddsFigure), |bets|);
    if MeanOdds(bets).Some? && MeanOdds(bets).value > 1.0 {
      DecimalRoundTripError(MeanOdds(bets).value);
    }
  }
}
