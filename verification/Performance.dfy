/** The graded bets the analytics read, and the ratios they share. Amounts are exact. */
module Performance {
  import opened Outcomes

  /** `month` is the placement time formatted as year and month. */
  datatype GradedBet = GradedBet(
    league: string,
    market: string,
    sportsbook: string,
    stake: real,
    odds: real,
    probability: real,
    edge: real,
    status: Status,
    profit: real,
    clv: Option<real>,
    month: string,
    gradedAt: int,
    isParlay: bool,
    isLive: bool
  )

  predicate Decided(bet: GradedBet) {
    bet.status in {WON, LOST}
  }

  function Filter(bets: seq<GradedBet>, keep: GradedBet -> bool): seq<GradedBet> {
    if bets == [] then []
    else
      var n := |bets| - 1;
      Filter(bets[..n], keep) + if keep(bets[n]) then [bets[n]] else []
  }

  function DecidedBets(bets: seq<GradedBet>): seq<GradedBet> {
    Filter(bets, (bet: GradedBet) => Decided(bet))
  }

  /** The sum of a figure over the bets. */
  function Over(bets: seq<GradedBet>, figure: GradedBet -> real): real {
    if bets == [] then 0.0
    else
      var n := |bets| - 1;
      Over(bets[..n], figure) + figure(bets[n])
  }

  function HowMany(bets: seq<GradedBet>, which: GradedBet -> bool): nat {
    |Filter(bets, which)|
  }

  function Mean(total: real, count: nat): Option<real> {
    if count == 0 then None else Some(total / count as real)
  }

  /** Win rate over decided bets; pushes are not in the denominator. */
  function WinRate(wins: nat, losses: nat): real {
    if wins + losses == 0 then 0.0 else wins as real / (wins + losses) as real
  }

  function Roi(profit: real, wagered: real): real {
    if wagered == 0.0 then 0.0 else profit / wagered
  }

  lemma {:induction false} FilterMembers(bets: seq<GradedBet>, keep: GradedBet -> bool)
    ensures forall bet :: bet in Filter(bets, keep) <==> bet in bets && keep(bet)
  {
    if bets != [] {
      var n := |bets| - 1;
      FilterMembers(bets[..n], keep);
      assert bets == bets[..n] + [bets[n]];
    }
  }

  lemma FilterAppend(bets: seq<GradedBet>, bet: GradedBet, keep: GradedBet -> bool)
    ensures Filter(bets + [bet], keep) == Filter(bets, keep) + if keep(bet) then [bet] else []
  {
    assert (bets + [bet])[..|bets|] == bets;
  }

  lemma OverAppend(bets: seq<GradedBet>, bet: GradedBet, figure: GradedBet -> real)
    ensures Over(bets + [bet], figure) == Over(bets, figure) + figure(bet)
  {
    assert (bets + [bet])[..|bets|] == bets;
  }

  // ---------- counting by status ----------

  /** How many of the bets have this status. */
  function Tally(bets: seq<GradedBet>, status: Status): nat {
    if bets == [] then 0
    else
      var n := |bets| - 1;
      Tally(bets[..n], status) + if bets[n].status == status then 1 else 0
  }

  lemma {:induction false} HowManyIsTally(bets: seq<GradedBet>, which: GradedBet -> bool, status: Status)
    requires forall bet :: bet in bets ==> which(bet) == (bet.status == status)
    ensures HowMany(bets, which) == Tally(bets, status)
  {
    if bets != [] {
      HowManyIsTally(bets[..|bets| - 1], which, status);
    }
  }

  lemma {:induction false} OverSame(bets: seq<GradedBet>, f: GradedBet -> real, g: GradedBet -> real)
    requires forall bet :: bet in bets ==> f(bet) == g(bet)
    ensures Over(bets, f) == Over(bets, g)
  {
    if bets != [] {
      OverSame(bets[..|bets| - 1], f, g);
    }
  }

  lemma {:induction false} FilterConcat(a: seq<GradedBet>, b: seq<GradedBet>, keep: GradedBet -> bool)
    ensures Filter(a + b, keep) == Filter(a, keep) + Filter(b, keep)
  {
    if b == [] {
      assert a + b == a;
    } else {
      var n := |b| - 1;
      assert (a + b)[..|a + b| - 1] == a + b[..n];
      FilterConcat(a, b[..n], keep);
    }
  }

  /** Exactly the won and lost bets are decided: each of them counts, and a pushed, voided or open one can stand anywhere
      in the list without being seen. */
  lemma {:induction false} DecidedAreWonOrLost(before: seq<GradedBet>, bet: GradedBet, after: seq<GradedBet>)
    ensures forall b :: b in DecidedBets(before) <==> b in before && (b.status == WON || b.status == LOST)
    ensures bet.status in {PUSH, VOID, OPEN} ==> DecidedBets(before + [bet] + after) == DecidedBets(before + after)
    ensures bet.status in {WON, LOST} ==>
              DecidedBets(before + [bet] + after) == DecidedBets(before) + [bet] + DecidedBets(after)
  {
    var keep := (b: GradedBet) => Decided(b);
    FilterMembers(before, keep);
    FilterConcat(before + [bet], after, keep);
    FilterAppend(before, bet, keep);
    FilterConcat(before, after, keep);
  }

  lemma {:induction false} DecidedTally(bets: seq<GradedBet>)
    ensures |DecidedBets(bets)| == Tally(bets, WON) + Tally(bets, LOST)
  {
    if bets != [] {
      DecidedTally(bets[..|bets| - 1]);
    }
  }
}
