/** Overall metrics and their breakdown by any grouping key: the groups partition the bets, so their figures add up. */
module Breakdown {
  import opened Numeric
  import opened Outcomes
  import opened Odds
  import opened Performance
  import opened Calibration
  import opened Streaks

  datatype Group = Group(
    name: string,
    totalBets: nat,
    wins: nat,
    losses: nat,
    pushes: nat,
    winRate: real,
    roi: real,
    profit: real,
    averageClv: Option<real>,
    averageEdge: Option<real>
  )

  datatype Metrics = Metrics(
    totalBets: nat,
    wins: nat,
    losses: nat,
    pushes: nat,
    winRate: real,
    roi: real,
    wagered: real,
    profit: real,
    averageOdds: Option<int>,
    averageEdge: Option<real>,
    averageClv: Option<real>,
    currentStreak: int,
    longestWin: nat,
    longestLoss: nat,
    brier: Option<real>,
    calibration: Option<real>
  )

  function With(status: Status): GradedBet -> bool {
    (bet: GradedBet) => bet.status == status
  }

  function Stake(bet: GradedBet): real {
    bet.stake
  }

  function Profit(bet: GradedBet): real {
    bet.profit
  }

  function Edge(bet: GradedBet): real {
    bet.edge
  }

  function OddsFigure(bet: GradedBet): real {
    bet.odds
  }

  function Clv(bet: GradedBet): real {
    if bet.clv.Some? then bet.clv.value else 0.0
  }

  function HasClv(bet: GradedBet): bool {
    bet.clv.Some?
  }

  function Percent(mean: Option<real>): Option<real> {
    if mean.Some? then Some(mean.value * 100.0) else None
  }

  function AverageClv(bets: seq<GradedBet>): Option<real> {
    Mean(Over(Filter(bets, HasClv), Clv), HowMany(bets, HasClv))
  }

  /** The figures of one group. */
  function GroupOf(name: string, members: seq<GradedBet>): Group {
    var wins, losses := HowMany(members, With(WON)), HowMany(members, With(LOST));
    Group(name, |members|, wins, losses, HowMany(members, With(PUSH)), WinRate(wins, losses),
          Roi(Over(members, Profit), Over(members, Stake)), Over(members, Profit), AverageClv(members),
          Percent(Mean(Over(members, Edge), |members|)))
  }

  function MeanOdds(bets: seq<GradedBet>): Option<real> {
    Mean(Over(bets, OddsFigure), |bets|)
  }

  /** The conversion of the mean decimal odds raises. A mean of exactly zero is taken for no mean. */
  predicate MeanOddsRaise(bets: seq<GradedBet>) {
    MeanOdds(bets).Some? && MeanOdds(bets).value <= 1.0 && MeanOdds(bets).value != 0.0
  }

  function AverageOdds(bets: seq<GradedBet>): Option<int> {
    var mean := MeanOdds(bets);
    if mean.None? || mean.value == 0.0 then None else DecimalToAmerican(mean.value)
  }

  /** None stands for the ValueError of decimal_to_american. */
  method ComputePerformance(bets: seq<GradedBet>) returns (r: Option<Metrics>)
    requires Probabilities(bets)
    ensures r.None? <==> MeanOddsRaise(bets)
    ensures r.Some? ==> IsPerformance(bets, r.value)
  {
    var wins, losses := HowMany(bets, With(WON)), HowMany(bets, With(LOST));
    var wagered, profit := Over(bets, Stake), Over(bets, Profit);
    var current, longestWin, longestLoss := Streaks.Streaks(bets);
    if MeanOddsRaise(bets) {
      return None;
    }
    var bins := CalibrationBins(bets, 10);
    r := Some(Metrics(|bets|, wins, losses, HowMany(bets, With(PUSH)), WinRate(wins, losses), Roi(profit, wagered),
                      wagered, profit, AverageOdds(bets), Percent(Mean(Over(bets, Edge), |bets|)), AverageClv(bets),
                      current, longestWin, longestLoss, BrierScore(bets), ExpectedCalibrationError(bins)));
  }

  /** The figures of all bets as one group, the streaks as declared, the Brier score and the ten-bin error. */
  ghost predicate IsPerformance(bets: seq<GradedBet>, m: Metrics)
    requires Probabilities(bets)
  {
    && (var g := GroupOf("", bets);
        && m.totalBets == g.totalBets && m.wins == g.wins && m.losses == g.losses && m.pushes == g.pushes
        && m.winRate == g.winRate && m.roi == g.roi && m.profit == g.profit
        && m.averageClv == g.averageClv && m.averageEdge == g.averageEdge)
    && m.wagered == Over(bets, Stake) && m.averageOdds == AverageOdds(bets)
    && Current(DecidedStatuses(bets), m.currentStreak)
    && Longest(DecidedStatuses(bets), WON, m.longestWin) && Longest(DecidedStatuses(bets), LOST, m.longestLoss)
    && m.brier == BrierScore(bets) && m.calibration == ExpectedCalibrationError(Bins(bets, 10))
  }

  // ---------- sorted(grouped): names in code-point order ----------

  predicate NotAfter(a: string, b: string) {
    if a == "" then true
    else if b == "" then false
    else if a[0] != b[0] then a[0] < b[0]
    else NotAfter(a[1..], b[1..])
  }

  /** Dictionary order: after the longest common beginning, a has ended or goes on with the smaller character. */
  lemma {:induction false} NotAfterIsDictionaryOrder(a: string, b: string)
    ensures NotAfter(a, b) <==>
            exists k: nat :: k <= |a| && k <= |b| && a[..k] == b[..k] && (k == |a| || (k < |b| && a[k] < b[k]))
  {
    if a == "" {
      assert a[..0] == b[..0];
    } else if b != "" {
      if a[0] == b[0] {
        NotAfterIsDictionaryOrder(a[1..], b[1..]);
        if NotAfter(a, b) {
          var k: nat :| k <= |a| - 1 && k <= |b| - 1 && a[1..][..k] == b[1..][..k]
                        && (k == |a| - 1 || (k < |b| - 1 && a[1..][k] < b[1..][k]));
          assert a[..k + 1] == [a[0]] + a[1..][..k] && b[..k + 1] == [b[0]] + b[1..][..k];
          assert k + 1 == |a| || (k + 1 < |b| && a[k + 1] < b[k + 1]);
        }
        if k: nat :| k <= |a| && k <= |b| && a[..k] == b[..k] && (k == |a| || (k < |b| && a[k] < b[k])) {
          assert k > 0;
          assert a[1..][..k - 1] == a[..k][1..] && b[1..][..k - 1] == b[..k][1..];
        }
      } else if a[0] < b[0] {
        assert a[..0] == b[..0];
      } else if k: nat :| k <= |a| && k <= |b| && a[..k] == b[..k] && (k == |a| || (k < |b| && a[k] < b[k])) {
        assert k > 0 && a[..k][0] == b[..k][0];
      }
    }
  }

  lemma {:induction false} NotAfterTotal(a: string, b: string)
    ensures NotAfter(a, b) || NotAfter(b, a)
    ensures NotAfter(a, b) && NotAfter(b, a) ==> a == b
  {
    if a != "" && b != "" && a[0] == b[0] {
      NotAfterTotal(a[1..], b[1..]);
      assert a == [a[0]] + a[1..] && b == [b[0]] + b[1..];
    }
  }

  lemma {:induction false} NotAfterTransitive(a: string, b: string, c: string)
    requires NotAfter(a, b) && NotAfter(b, c)
    ensures NotAfter(a, c)
  {
    if a != "" && b != "" && c != "" && a[0] == b[0] == c[0] {
      NotAfterTransitive(a[1..], b[1..], c[1..]);
    }
  }

  /** Strictly ascending, hence without repeats. */
  predicate Ascending(names: seq<string>) {
    forall i, j :: 0 <= i < j < |names| ==> NotAfter(names[i], names[j]) && names[i] != names[j]
  }

  function InsertName(name: string, rest: seq<string>): seq<string> {
    if rest == [] then [name]
    else if NotAfter(name, rest[0]) then [name] + rest
    else [rest[0]] + InsertName(name, rest[1..])
  }

  function SortNames(names: seq<string>): seq<string> {
    if names == [] then [] else InsertName(names[0], SortNames(names[1..]))
  }

  lemma {:induction false} InsertNameMembers(name: string, rest: seq<string>)
    ensures forall n :: n in InsertName(name, rest) <==> n == name || n in rest
  {
    if rest != [] {
      InsertNameMembers(name, rest[1..]);
      assert rest == [rest[0]] + rest[1..];
    }
  }

  lemma {:induction false} InsertNameAscends(name: string, rest: seq<string>)
    requires Ascending(rest) && name !in rest
    ensures Ascending(InsertName(name, rest))
  {
    if rest != [] {
      if NotAfter(name, rest[0]) {
        forall j | 0 <= j < |rest| ensures NotAfter(name, rest[j]) && name != rest[j] {
          if j > 0 {
            NotAfterTransitive(name, rest[0], rest[j]);
          }
          assert rest[j] in rest;
        }
      } else {
        var tail := InsertName(name, rest[1..]);
        InsertNameAscends(name, rest[1..]);
        InsertNameMembers(name, rest[1..]);
        NotAfterTotal(name, rest[0]);
        forall j | 0 <= j < |tail| ensures NotAfter(rest[0], tail[j]) && rest[0] != tail[j] {
          assert tail[j] in tail;
          if tail[j] != name {
            var i :| 0 <= i < |rest[1..]| && rest[1..][i] == tail[j];
            assert rest[i + 1] == tail[j];
          }
          assert rest[0] in rest;
        }
      }
    }
  }

  predicate Distinct(names: seq<string>) {
    forall i, j :: 0 <= i < j < |names| ==> names[i] != names[j]
  }

  lemma {:induction false} SortNamesAscends(names: seq<string>)
    requires Distinct(names)
    ensures Ascending(SortNames(names))
    ensures forall n :: n in SortNames(names) <==> n in names
  {
    if names != [] {
      SortNamesAscends(names[1..]);
      assert names[0] !in names[1..];
      InsertNameMembers(names[0], SortNames(names[1..]));
      InsertNameAscends(names[0], SortNames(names[1..]));
      assert names == [names[0]] + names[1..];
    }
  }

  // ---------- the breakdown ----------

  function Members(bets: seq<GradedBet>, key: GradedBet -> string, name: string): seq<GradedBet> {
    Filter(bets, (bet: GradedBet) => key(bet) == name)
  }

  function Names(groups: seq<Group>): seq<string> {
    seq(|groups|, i requires 0 <= i < |groups| => groups[i].name)
  }

  ghost predicate Occurs(bets: seq<GradedBet>, key: GradedBet -> string, name: string) {
    exists bet :: bet in bets && key(bet) == name
  }

  /** One group per key that occurs, in ascending order, with the figures of exactly its bets. */
  ghost predicate IsBreakdown(bets: seq<GradedBet>, key: GradedBet -> string, groups: seq<Group>) {
    && Ascending(Names(groups))
    && (forall name :: name in Names(groups) <==> Occurs(bets, key, name))
    && (forall i :: 0 <= i < |groups| ==> groups[i] == GroupOf(groups[i].name, Members(bets, key, groups[i].name)))
  }

  /** The dictionary's keys, in insertion order, and its contents after the first bets. */
  ghost predicate Grouped(bets: seq<GradedBet>, key: GradedBet -> string, order: seq<string>,
                          grouped: map<string, seq<GradedBet>>)
  {
    && Distinct(order)
    && (forall name :: name in order <==> Occurs(bets, key, name))
    && (forall name :: name in grouped <==> name in order)
    && (forall name :: name in grouped ==> grouped[name] == Members(bets, key, name))
  }

  lemma OccursNext(bets: seq<GradedBet>, bet: GradedBet, key: GradedBet -> string, name: string)
    ensures Occurs(bets + [bet], key, name) <==> key(bet) == name || Occurs(bets, key, name)
  {
    assert bet in bets + [bet];
    if b :| b in bets && key(b) == name {
      assert b in bets + [bet];
    }
  }

  lemma MembersNext(bets: seq<GradedBet>, bet: GradedBet, key: GradedBet -> string, name: string)
    ensures Members(bets + [bet], key, name) == Members(bets, key, name) + if key(bet) == name then [bet] else []
  {
    FilterAppend(bets, bet, (b: GradedBet) => key(b) == name);
  }

  lemma {:induction false} NoMembers(bets: seq<GradedBet>, key: GradedBet -> string, name: string)
    requires forall bet :: bet in bets ==> key(bet) != name
    ensures Members(bets, key, name) == []
  {
    if bets != [] {
      var n := |bets| - 1;
      assert bets[n] in bets && forall bet :: bet in bets[..n] ==> bet in bets;
      NoMembers(bets[..n], key, name);
    }
  }

  lemma KnownName(bets: seq<GradedBet>, bet: GradedBet, key: GradedBet -> string, order: seq<string>,
                  grouped: map<string, seq<GradedBet>>, name: string)
    requires Grouped(bets, key, order, grouped) && name in grouped && name == key(bet)
    ensures Grouped(bets + [bet], key, order, grouped[name := grouped[name] + [bet]])
  {
    var after := grouped[name := grouped[name] + [bet]];
    forall n: string ensures n in order <==> Occurs(bets + [bet], key, n) {
      OccursNext(bets, bet, key, n);
    }
    forall n | n in after ensures after[n] == Members(bets + [bet], key, n) {
      MembersNext(bets, bet, key, n);
    }
  }

  lemma NewName(bets: seq<GradedBet>, bet: GradedBet, key: GradedBet -> string, order: seq<string>,
                grouped: map<string, seq<GradedBet>>, name: string)
    requires Grouped(bets, key, order, grouped) && name !in grouped && name == key(bet)
    ensures Grouped(bets + [bet], key, order + [name], grouped[name := [bet]])
  {
    var after := grouped[name := [bet]];
    assert name !in order && !Occurs(bets, key, name);
    assert forall i :: 0 <= i < |order| ==> order[i] in order;
    forall n: string ensures n in order + [name] <==> Occurs(bets + [bet], key, n) {
      OccursNext(bets, bet, key, n);
    }
    NoMembers(bets, key, name);
    forall n | n in after ensures after[n] == Members(bets + [bet], key, n) {
      MembersNext(bets, bet, key, n);
    }
  }

  /** The grouping loop. */
  method GroupBets(bets: seq<GradedBet>, key: GradedBet -> string)
    returns (order: seq<string>, grouped: map<string, seq<GradedBet>>)
    ensures Grouped(bets, key, order, grouped)
  {
    order, grouped := [], map[];
    for k := 0 to |bets|
      invariant Grouped(bets[..k], key, order, grouped)
    {
      var bet := bets[k];
      assert bets[..k + 1] == bets[..k] + [bet];
      var name := key(bet);
      if name in grouped {
        KnownName(bets[..k], bet, key, order, grouped, name);
        grouped := grouped[name := grouped[name] + [bet]];
      } else {
        NewName(bets[..k], bet, key, order, grouped, name);
        order := order + [name];
        grouped := grouped[name := [bet]];
      }
    }
    assert bets[..|bets|] == bets;
  }

  method ComputeBreakdown(bets: seq<GradedBet>, key: GradedBet -> string) returns (groups: seq<Group>)
    ensures IsBreakdown(bets, key, groups)
  {
    var order, grouped := GroupBets(bets, key);
    var names := SortNames(order);
    SortNamesAscends(order);
    groups := [];
    for i := 0 to |names|
      invariant |groups| == i
      invariant forall j :: 0 <= j < i ==> groups[j].name == names[j]
      invariant forall j :: 0 <= j < i ==> groups[j] == GroupOf(names[j], grouped[names[j]])
    {
      assert names[i] in names;
      groups := groups + [GroupOf(names[i], grouped[names[i]])];
    }
    assert Names(groups) == names;
    assert forall j :: 0 <= j < |names| ==> names[j] in names;
  }

  // ---------- partition laws ----------

  function GroupTotal(bets: seq<GradedBet>, key: GradedBet -> string, names: seq<string>, figure: GradedBet -> real)
    : nat -> real
  {
    (i: nat) => if i < |names| then Over(Members(bets, key, names[i]), figure) else 0.0
  }

  lemma {:induction false} NothingToSum(key: GradedBet -> string, names: seq<string>, figure: GradedBet -> real, n: nat)
    ensures Sum(n, GroupTotal([], key, names, figure)) == 0.0
  {
    if n > 0 {
      NothingToSum(key, names, figure, n - 1);
    }
  }

  /** Any figure summed group by group is the figure summed over all bets. */
  lemma {:induction false} GroupsAddUp(bets: seq<GradedBet>, key: GradedBet -> string, names: seq<string>,
                                       figure: GradedBet -> real)
    requires Distinct(names) && forall bet :: bet in bets ==> key(bet) in names
    ensures Sum(|names|, GroupTotal(bets, key, names, figure)) == Over(bets, figure)
  {
    if bets == [] {
      NothingToSum(key, names, figure, |names|);
    } else {
      var rest, bet := bets[..|bets| - 1], bets[|bets| - 1];
      assert bets == rest + [bet];
      GroupsAddUp(rest, key, names, figure);
      assert bet in bets;
      var at :| 0 <= at < |names| && names[at] == key(bet);
      var before, after := GroupTotal(rest, key, names, figure), GroupTotal(bets, key, names, figure);
      forall i | 0 <= i < |names| ensures after(i) == before(i) + if i == at then figure(bet) else 0.0 {
        MembersAppend(rest, bet, key, names[i], figure);
      }
      SumChange(|names|, before, after, at);
    }
  }

  lemma MembersAppend(rest: seq<GradedBet>, bet: GradedBet, key: GradedBet -> string, name: string,
                      figure: GradedBet -> real)
    ensures Over(Members(rest + [bet], key, name), figure)
         == Over(Members(rest, key, name), figure) + if key(bet) == name then figure(bet) else 0.0
  {
    var members := Members(rest, key, name);
    FilterAppend(rest, bet, (b: GradedBet) => key(b) == name);
    OverAppend(members, bet, figure);
    assert members + [] == members;
  }

  function One(bet: GradedBet): real {
    1.0
  }

  function Indicator(which: GradedBet -> bool): GradedBet -> real {
    (bet: GradedBet) => if which(bet) then 1.0 else 0.0
  }

  lemma {:induction false} CountsAreSums(bets: seq<GradedBet>, which: GradedBet -> bool)
    ensures HowMany(bets, which) as real == Over(bets, Indicator(which))
    ensures |bets| as real == Over(bets, One)
  {
    if bets != [] {
      CountsAreSums(bets[..|bets| - 1], which);
    }
  }

  /** Summing a figure the groups carry. */
  function OfGroups(groups: seq<Group>, figure: Group -> real): nat -> real {
    (i: nat) => if i < |groups| then figure(groups[i]) else 0.0
  }

  lemma EveryKeyHasItsGroup(bets: seq<GradedBet>, key: GradedBet -> string, groups: seq<Group>)
    requires IsBreakdown(bets, key, groups)
    ensures Distinct(Names(groups)) && forall bet :: bet in bets ==> key(bet) in Names(groups)
  {
    forall bet | bet in bets ensures key(bet) in Names(groups) {
      assert Occurs(bets, key, key(bet));
    }
  }

  lemma GroupFigureAddsUp(bets: seq<GradedBet>, key: GradedBet -> string, groups: seq<Group>,
                          figure: GradedBet -> real, ofGroup: Group -> real)
    requires IsBreakdown(bets, key, groups)
    requires forall i :: 0 <= i < |groups| ==> ofGroup(groups[i]) == Over(Members(bets, key, groups[i].name), figure)
    ensures Sum(|groups|, OfGroups(groups, ofGroup)) == Over(bets, figure)
  {
    var names := Names(groups);
    EveryKeyHasItsGroup(bets, key, groups);
    GroupsAddUp(bets, key, names, figure);
    SumSame(|groups|, OfGroups(groups, ofGroup), |groups|, GroupTotal(bets, key, names, figure));
  }

  function TotalBets(g: Group): real { g.totalBets as real }
  function Wins(g: Group): real { g.wins as real }
  function Losses(g: Group): real { g.losses as real }
  function Pushes(g: Group): real { g.pushes as real }
  function GroupProfit(g: Group): real { g.profit }

  /** The groups' bets, wins, losses, pushes and profit add up to the overall figures, whatever the key. */
  lemma BreakdownAddsUp(bets: seq<GradedBet>, key: GradedBet -> string, groups: seq<Group>)
    requires IsBreakdown(bets, key, groups)
    ensures var overall := GroupOf("", bets);
            && Sum(|groups|, OfGroups(groups, TotalBets)) == overall.totalBets as real
            && Sum(|groups|, OfGroups(groups, Wins)) == overall.wins as real
            && Sum(|groups|, OfGroups(groups, Losses)) == overall.losses as real
            && Sum(|groups|, OfGroups(groups, Pushes)) == overall.pushes as real
            && Sum(|groups|, OfGroups(groups, GroupProfit)) == overall.profit
  {
    CountAddsUp(bets, key, groups, WON, Wins);
    CountAddsUp(bets, key, groups, LOST, Losses);
    CountAddsUp(bets, key, groups, PUSH, Pushes);
    GroupFigureAddsUp(bets, key, groups, Profit, GroupProfit);
    forall i | 0 <= i < |groups| ensures TotalBets(groups[i]) == Over(Members(bets, key, groups[i].name), One) {
      CountsAreSums(Members(bets, key, groups[i].name), With(WON));
    }
    GroupFigureAddsUp(bets, key, groups, One, TotalBets);
    CountsAreSums(bets, With(WON));
  }

  lemma CountAddsUp(bets: seq<GradedBet>, key: GradedBet -> string, groups: seq<Group>, status: Status,
                    count: Group -> real)
    requires IsBreakdown(bets, key, groups)
    requires forall i :: 0 <= i < |groups| ==>
               count(groups[i]) == HowMany(Members(bets, key, groups[i].name), With(status)) as real
    ensures Sum(|groups|, OfGroups(groups, count)) == HowMany(bets, With(status)) as real
  {
    forall i | 0 <= i < |groups|
      ensures count(groups[i]) == Over(Members(bets, key, groups[i].name), Indicator(With(status)))
    {
      CountsAreSums(Members(bets, key, groups[i].name), With(status));
    }
    GroupFigureAddsUp(bets, key, groups, Indicator(With(status)), count);
    CountsAreSums(bets, With(status));
  }

  // ---------- ratios ----------

  lemma RoiTimesWagered(profit: real, wagered: real)
    requires wagered != 0.0
    ensures Roi(profit, wagered) * wagered == profit
  {
  }

  lemma {:induction false} StakesArePositive(bets: seq<GradedBet>)
    requires bets != [] && forall bet :: bet in bets ==> bet.stake > 0.0
    ensures Over(bets, Stake) > 0.0
  {
    var n := |bets| - 1;
    assert bets[n] in bets && forall bet :: bet in bets[..n] ==> bet in bets;
    if n > 0 {
      StakesArePositive(bets[..n]);
    }
  }

  function StakeTotal(bets: seq<GradedBet>, key: GradedBet -> string, groups: seq<Group>): nat -> real {
    GroupTotal(bets, key, Names(groups), Stake)
  }

  function WeightedRoi(bets: seq<GradedBet>, key: GradedBet -> string, groups: seq<Group>): nat -> real {
    (i: nat) => if i < |groups| then groups[i].roi * StakeTotal(bets, key, groups)(i) else 0.0
  }

  lemma GroupIsNotEmpty(bets: seq<GradedBet>, key: GradedBet -> string, groups: seq<Group>, i: nat)
    requires IsBreakdown(bets, key, groups) && i < |groups|
    ensures Members(bets, key, groups[i].name) != []
    ensures forall bet :: bet in Members(bets, key, groups[i].name) ==> bet in bets
  {
    assert Names(groups)[i] in Names(groups);
    var bet :| bet in bets && key(bet) == groups[i].name;
    FilterMembers(bets, (b: GradedBet) => key(b) == groups[i].name);
    assert bet in Members(bets, key, groups[i].name);
  }

  lemma RoiOfGroup(bets: seq<GradedBet>, key: GradedBet -> string, groups: seq<Group>, i: nat)
    requires IsBreakdown(bets, key, groups) && i < |groups|
    requires forall bet :: bet in bets ==> bet.stake > 0.0
    ensures WeightedRoi(bets, key, groups)(i) == GroupTotal(bets, key, Names(groups), Profit)(i)
  {
    var members := Members(bets, key, groups[i].name);
    GroupIsNotEmpty(bets, key, groups, i);
    StakesArePositive(members);
    RoiTimesWagered(Over(members, Profit), Over(members, Stake));
    assert groups[i] == GroupOf(groups[i].name, members);
    assert Names(groups)[i] == groups[i].name;
    assert StakeTotal(bets, key, groups)(i) == Over(members, Stake);
    assert GroupTotal(bets, key, Names(groups), Profit)(i) == Over(members, Profit);
  }

  lemma WeightedRoisAreProfit(bets: seq<GradedBet>, key: GradedBet -> string, groups: seq<Group>)
    requires IsBreakdown(bets, key, groups)
    requires forall bet :: bet in bets ==> bet.stake > 0.0
    ensures Sum(|groups|, WeightedRoi(bets, key, groups)) == Over(bets, Profit)
  {
    var weighted, profits := WeightedRoi(bets, key, groups), GroupTotal(bets, key, Names(groups), Profit);
    EveryKeyHasItsGroup(bets, key, groups);
    GroupsAddUp(bets, key, Names(groups), Profit);
    forall i: nat | i < |groups| ensures weighted(i) == profits(i) {
      RoiOfGroup(bets, key, groups, i);
    }
    SumSame(|groups|, weighted, |groups|, profits);
  }

  /** What the groups staked adds up to what all bets staked. */
  lemma StakesAddUp(bets: seq<GradedBet>, key: GradedBet -> string, groups: seq<Group>)
    requires IsBreakdown(bets, key, groups)
    ensures Sum(|groups|, StakeTotal(bets, key, groups)) == Over(bets, Stake)
  {
    EveryKeyHasItsGroup(bets, key, groups);
    GroupsAddUp(bets, key, Names(groups), Stake);
  }

  predicate PositiveStakes(bets: seq<GradedBet>) {
    forall bet :: bet in bets ==> bet.stake > 0.0
  }

  lemma {:induction false} RoiParts(bets: seq<GradedBet>, key: GradedBet -> string, groups: seq<Group>)
    requires IsBreakdown(bets, key, groups)
    requires bets != [] && PositiveStakes(bets)
    ensures Over(bets, Stake) > 0.0 && Sum(|groups|, WeightedRoi(bets, key, groups)) == Over(bets, Profit)
  {
    StakesArePositive(bets);
    WeightedRoisAreProfit(bets, key, groups);
  }

  /** mean times the sum of the weights is the weighted sum. */
  predicate IsWeightedMean(mean: real, weights: real, weighted: real) {
    mean * weights == weighted
  }

  /** Overall ROI is the mean of the groups' ROIs, weighted by what each group staked, and no other number is. */
  lemma {:induction false} RoiIsStakeWeighted(bets: seq<GradedBet>, key: GradedBet -> string, groups: seq<Group>, roi: real)
    requires IsBreakdown(bets, key, groups)
    requires bets != [] && PositiveStakes(bets)
    ensures roi == Roi(Over(bets, Profit), Over(bets, Stake)) <==>
            IsWeightedMean(roi, Over(bets, Stake), Sum(|groups|, WeightedRoi(bets, key, groups)))
  {
    RoiParts(bets, key, groups);
    RoiIsTheRatio(roi, Over(bets, Profit), Over(bets, Stake), Sum(|groups|, WeightedRoi(bets, key, groups)));
  }

  lemma RoiIsTheRatio(roi: real, profit: real, wagered: real, weighted: real)
    requires wagered > 0.0 && weighted == profit
    ensures roi == Roi(profit, wagered) <==> IsWeightedMean(roi, wagered, weighted)
  {
    RoiTimesWagered(profit, wagered);
  }

  function DecidedIn(groups: seq<Group>): nat {
    if groups == [] then 0
    else
      var n := |groups| - 1;
      DecidedIn(groups[..n]) + groups[n].wins + groups[n].losses
  }

  function WinsIn(groups: seq<Group>): nat {
    if groups == [] then 0
    else
      var n := |groups| - 1;
      WinsIn(groups[..n]) + groups[n].wins
  }

  lemma FigureOfGroup(groups: seq<Group>, figure: Group -> real, i: nat)
    requires i < |groups|
    ensures OfGroups(groups, figure)(i) == figure(groups[i])
  {
  }

  lemma {:induction false} CountsInGroups(groups: seq<Group>, n: nat)
    requires n <= |groups|
    ensures WinsIn(groups[..n]) as real == Sum(n, OfGroups(groups, Wins))
    ensures DecidedIn(groups[..n]) as real == Sum(n, OfGroups(groups, Wins)) + Sum(n, OfGroups(groups, Losses))
  {
    if n > 0 {
      CountsInGroups(groups, n - 1);
      assert |groups[..n]| == n && groups[..n][..n - 1] == groups[..n - 1];
      FigureOfGroup(groups, Wins, n - 1);
      FigureOfGroup(groups, Losses, n - 1);
    }
  }

  lemma {:induction false} TimesPlus(a: nat, b: nat, x: real)
    ensures Times(a + b, x) == Times(a, x) + Times(b, x)
  {
    if b > 0 {
      TimesPlus(a, b - 1, x);
    }
  }

  predicate RateOf(g: Group) {
    g.winRate == WinRate(g.wins, g.losses)
  }

  lemma RateBounds(wins: nat, losses: nat, lo: real, hi: real)
    requires wins + losses > 0 ==> lo <= WinRate(wins, losses) <= hi
    ensures Times(wins + losses, lo) <= wins as real <= Times(wins + losses, hi)
  {
    var decided := wins + losses;
    if decided > 0 {
      TimesIsProduct(decided, lo);
      TimesIsProduct(decided, hi);
      QuotientBetween(wins as real, decided as real, lo, hi);
    }
  }

  lemma QuotientBetween(w: real, d: real, lo: real, hi: real)
    requires d > 0.0 && lo <= w / d <= hi
    ensures d * lo <= w <= d * hi
  {
    var q := w / d;
    assert q * d == w;
    ScaleOrder(lo, q, d);
    ScaleOrder(q, hi, d);
  }

  lemma {:induction false} GroupRateBounds(groups: seq<Group>, lo: real, hi: real)
    requires forall i :: 0 <= i < |groups| ==> RateOf(groups[i])
    requires forall i :: 0 <= i < |groups| && groups[i].wins + groups[i].losses > 0 ==> lo <= groups[i].winRate <= hi
    ensures Times(DecidedIn(groups), lo) <= WinsIn(groups) as real <= Times(DecidedIn(groups), hi)
  {
    if groups != [] {
      var n := |groups| - 1;
      var g := groups[n];
      GroupRateBounds(groups[..n], lo, hi);
      RateBounds(g.wins, g.losses, lo, hi);
      TimesPlus(DecidedIn(groups[..n]), g.wins + g.losses, lo);
      TimesPlus(DecidedIn(groups[..n]), g.wins + g.losses, hi);
    }
  }

  lemma RateFromBounds(wins: nat, losses: nat, lo: real, hi: real)
    requires wins + losses > 0
    requires Times(wins + losses, lo) <= wins as real <= Times(wins + losses, hi)
    ensures lo <= WinRate(wins, losses) <= hi
  {
    var decided := wins + losses;
    var rate := WinRate(wins, losses);
    TimesIsProduct(decided, rate);
    TimesOrders(decided, lo, rate);
    TimesOrders(decided, rate, hi);
  }

  /** Whatever bounds hold for the win rates of the groups with decided bets hold for the overall win rate: it lies
      between the lowest and the highest. */
  lemma WinRateLiesBetweenGroups(bets: seq<GradedBet>, key: GradedBet -> string, groups: seq<Group>, lo: real, hi: real)
    requires IsBreakdown(bets, key, groups)
    requires forall i :: 0 <= i < |groups| && groups[i].wins + groups[i].losses > 0 ==> lo <= groups[i].winRate <= hi
    requires GroupOf("", bets).wins + GroupOf("", bets).losses > 0
    ensures lo <= GroupOf("", bets).winRate <= hi
  {
    var overall := GroupOf("", bets);
    BreakdownAddsUp(bets, key, groups);
    assert groups[..|groups|] == groups;
    CountsInGroups(groups, |groups|);
    GroupRateBounds(groups, lo, hi);
    RateFromBounds(overall.wins, overall.losses, lo, hi);
  }
}
