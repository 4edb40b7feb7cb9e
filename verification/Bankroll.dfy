/** Money over every run: snapshots agree with the tables, claims are counted once, and concurrent placements can
    overdraw the bankroll by no more than what was in flight. */
module Bankroll {
  import opened Numeric
  import opened Outcomes
  import opened Grading
  import opened Parlay
  import opened Tables
  import opened Protocol
  import opened Safety

  // ---------- the three transactions that move money ----------

  /** A (re-)grade moves total profit by exactly the new grade's profit less the old one's. */
  lemma GradeMovesProfit(db: Db, bet: nat, status: Status, profit: real, force: bool)
    requires ApplyGrade(db, bet, status, profit, force).1.Applied?
    ensures var db' := ApplyGrade(db, bet, status, profit, force).0;
            TotalProfit(db') == TotalProfit(db) + Numeric4(profit) - ProfitOf(db, bet)
  {
    var db' := ApplyGrade(db, bet, status, profit, force).0;
    SumChange(|db.bets|, (b: nat) => ProfitOf(db, b), (b: nat) => ProfitOf(db', b), bet);
  }

  lemma GradeMovesExposure(db: Db, bet: nat, status: Status, profit: real, force: bool)
    requires ApplyGrade(db, bet, status, profit, force).1.Applied? && !status.OPEN?
    ensures var db' := ApplyGrade(db, bet, status, profit, force).0;
            OpenExposure(db') == OpenExposure(db) - StakeAtRisk(db, bet)
  {
    var db' := ApplyGrade(db, bet, status, profit, force).0;
    SumChange(|db.bets|, (b: nat) => StakeAtRisk(db, b), (b: nat) => StakeAtRisk(db', b), bet);
  }

  lemma InsertMovesMoney(db: Db, row: Bet, legs: seq<Leg>)
    requires GradesMatch(db) && Insert(db, row, legs).1.Created?
    ensures var db' := Insert(db, row, legs).0;
            TotalProfit(db') == TotalProfit(db) && OpenExposure(db') == OpenExposure(db) + Stored(row).stake
  {
    var db' := Insert(db, row, legs).0;
    SumSame(|db.bets|, (b: nat) => ProfitOf(db, b), |db.bets|, (b: nat) => ProfitOf(db', b));
    SumSame(|db.bets|, (b: nat) => StakeAtRisk(db, b), |db.bets|, (b: nat) => StakeAtRisk(db', b));
  }

  lemma LegsMoveNothing(db: Db, leg: nat, status: Status)
    ensures var db' := GradeLeg(db, leg, status).0;
            TotalProfit(db') == TotalProfit(db) && OpenExposure(db') == OpenExposure(db)
  {
    var db' := GradeLeg(db, leg, status).0;
    SumSame(|db.bets|, (b: nat) => ProfitOf(db, b), |db.bets|, (b: nat) => ProfitOf(db', b));
    SumSame(|db.bets|, (b: nat) => StakeAtRisk(db, b), |db.bets|, (b: nat) => StakeAtRisk(db', b));
  }

  // ---------- the effect of any step, in one place ----------

  datatype Effect =
    | Nothing
    | Graded(bet: nat, status: Status, price: real, force: bool)
    | LegGraded(leg: nat, legStatus: Status)
    | Placed(order: Order)

  function Effects(db: Db, e: Effect): Db {
    match e
    case Nothing => db
    case Graded(bet, status, price, force) => GradeAt(db, bet, status, price, force).0
    case LegGraded(leg, status) => GradeLeg(db, leg, status).0
    case Placed(order) => Insert(db, order.row, order.legs).0
  }

  /** What the next step of a process does to the tables. */
  function EffectOf(db: Db, p: Proc): Effect {
    match p
    case GradeBets(job, bets, _, _) =>
      if bets == [] || bets[0] >= |db.bets| then Nothing
      else
        var bet := db.bets[bets[0]];
        var outcome := Outcome(bet.terms, job.feed);
        if outcome.None? then Nothing
        else Graded(bets[0], outcome.value, bet.odds, false)
    case GradeLegs(job, legs, _, _) =>
      if legs == [] || legs[0] >= |db.legs| then Nothing
      else
        var outcome := Outcome(db.legs[legs[0]].terms, job.feed);
        if outcome.None? then Nothing else LegGraded(legs[0], outcome.value)
    case SettleParents(parents, ClaimParent(status, price), force, _) =>
      if parents == [] || parents[0] >= |db.bets| then Nothing
      else Graded(parents[0], status, price, force)
    case ManualClaim(bet, status, force) =>
      if bet >= |db.bets| then Nothing
      else Graded(bet, status, OddsOf(db, bet), force)
    case InsertOrder(order) => Placed(order)
    case _ => Nothing
  }

  /** Claims a process has won so far; a killed one keeps what it claimed. */
  function Claims(p: Proc): nat {
    match p
    case GradeBets(_, _, _, graded) => graded
    case GradeLegs(_, _, _, graded) => graded
    case SettleParents(_, _, _, graded) => graded
    case Done(graded) => graded
    case Raised(graded) => graded
    case Killed(was) => Claims(was)
    case _ => 0
  }

  predicate Wins(db: Db, e: Effect) {
    e.Graded? && GradeAt(db, e.bet, e.status, e.price, e.force).1.Applied?
  }

  ghost predicate MatchesEffect(db: Db, p: Proc, step: (Db, Proc)) {
    && step.0 == Effects(db, EffectOf(db, p))
    && Claims(step.1) == Claims(p) + if Wins(db, EffectOf(db, p)) then 1 else 0
  }

  lemma StepEffects(db: Db, p: Proc)
    ensures p.GradeBets? ==> MatchesEffect(db, p, StepBet(db, p))
    ensures p.GradeLegs? ==> MatchesEffect(db, p, StepLeg(db, p))
  {
  }

  lemma StepParentEffect(db: Db, p: Proc)
    requires p.SettleParents?
    ensures MatchesEffect(db, p, StepParent(db, p))
  {
  }

  lemma {:induction false} AdvanceEffect(db: Db, p: Proc, rows: seq<nat>)
    ensures MatchesEffect(db, p, Advance(db, p, rows))
  {
    if p.SettleParents? {
      StepParentEffect(db, p);
    } else {
      StepEffects(db, p);
    }
  }

  lemma EffectIsDecisive(db: Db, p: Proc)
    requires Consistent(db) && Ready(db, p)
    ensures var e := EffectOf(db, p);
            && (e.Graded? ==> !e.status.OPEN?)
            && (e.LegGraded? ==> !e.legStatus.OPEN?)
            && (e.Placed? ==> ValidOrder(e.order))
  {
    match p
    case GradeBets(job, bets, _, _) =>
      if bets != [] && bets[0] < |db.bets| { OutcomeIsDecisive(db.bets[bets[0]].terms, job.feed); }
    case GradeLegs(job, legs, _, _) =>
      if legs != [] && legs[0] < |db.legs| { OutcomeIsDecisive(db.legs[legs[0]].terms, job.feed); }
    case SettleParents(parents, ClaimParent(_, _), _, _) =>
      ParentSettles(db, parents[0]);
    case _ =>
  }

  // ---------- ledger agreement ----------

  /** The last snapshot shows the tables as they are now, but for bets placed since. */
  ghost predicate LedgerAgrees(db: Db) {
    db.snapshots != [] ==>
      var last := db.snapshots[|db.snapshots| - 1];
      && last.(openBets := OpenBetsCount(db)) == Aggregate(db)
      && OpenBetsCount(db) + last.totalBets == |db.bets|
  }

  lemma OpenAndGradedSplit(db: Db)
    requires GradesMatch(db)
    ensures OpenBetsCount(db) + Aggregate(db).totalBets == |db.bets|
  {
    CountSplit(|db.bets|, (b: nat) => OpenBet(db, b), (b: nat) => b in db.grades);
  }

  /** Bets that are not graded add nothing to the aggregates. */
  lemma {:induction false} AggregateSame(before: Db, after: Db)
    requires GradesMatch(before)
    requires after.starting == before.starting && after.grades == before.grades
    requires |before.bets| <= |after.bets|
    requires forall i :: 0 <= i < |before.bets| ==> after.bets[i] == before.bets[i]
    ensures Aggregate(after).(openBets := 0) == Aggregate(before).(openBets := 0)
  {
    var n, m := |before.bets|, |after.bets|;
    SumSame(n, (b: nat) => ProfitOf(before, b), m, (b: nat) => ProfitOf(after, b));
    SumSame(n, (b: nat) => GradedStake(before, b), m, (b: nat) => GradedStake(after, b));
    CountSame(n, (b: nat) => b in before.grades, m, (b: nat) => b in after.grades);
    CountSame(n, (b: nat) => GradedAs(before, WON, b), m, (b: nat) => GradedAs(after, WON, b));
    CountSame(n, (b: nat) => GradedAs(before, LOST, b), m, (b: nat) => GradedAs(after, LOST, b));
  }

  /** Each winning claim appends one snapshot, taken of the tables as that transaction leaves them, open bets included. */
  lemma {:induction false} WinAppendsFresh(db: Db, e: Effect)
    requires Wins(db, e) && GradesMatch(Effects(db, e))
    ensures var db' := Effects(db, e);
            && db'.snapshots == db.snapshots + [Aggregate(db')]
            && Aggregate(db').openBets + Aggregate(db').totalBets == |db'.bets|
  {
    var db' := Effects(db, e);
    var graded := db'.(snapshots := db.snapshots);
    OpenAndGradedSplit(db');
    AggregateSame(graded, db');
    CountSame(|db'.bets|, (b: nat) => OpenBet(graded, b), |db'.bets|, (b: nat) => OpenBet(db', b));
  }

  lemma {:induction false} WinKeepsLedger(db: Db, e: Effect)
    requires Wins(db, e) && GradesMatch(Effects(db, e))
    ensures LedgerAgrees(Effects(db, e))
  {
    WinAppendsFresh(db, e);
    OpenAndGradedSplit(Effects(db, e));
  }

  lemma {:induction false} EffectKeepsLedger(db: Db, e: Effect)
    requires GradesMatch(db) && GradesMatch(Effects(db, e)) && LedgerAgrees(db)
    ensures LedgerAgrees(Effects(db, e))
  {
    if Wins(db, e) {
      WinKeepsLedger(db, e);
    } else {
      OpenAndGradedSplit(Effects(db, e));
      AggregateSame(db, Effects(db, e));
    }
  }

  /** After every step of every run, forced re-grades included, the newest snapshot equals a fresh fold over the
      tables: balance, wagered, profit, graded, won and lost; and its graded count plus the bets open now is every
      bet ever placed. */
  lemma {:induction false} LedgerAlwaysAgrees(s: Sys, actions: seq<Action>)
    requires Safe(s) && LedgerAgrees(s.db)
    ensures LedgerAgrees(Run(s, actions).db)
  {
    if actions != [] {
      var before := actions[..|actions| - 1];
      var a := actions[|actions| - 1];
      LedgerAlwaysAgrees(s, before);
      var t := Run(s, before);
      RunSafe(s, before);
      RunSafe(s, actions);
      if a.Step? && a.i < |t.procs| {
        AdvanceEffect(t.db, t.procs[a.i], a.rows);
        EffectKeepsLedger(t.db, EffectOf(t.db, t.procs[a.i]));
      }
    }
  }

  /** Either no bet, grade or snapshot of `before` moved, or one snapshot was appended, of the tables as they now are. */
  ghost predicate SnapshotsKeepUp(before: Db, after: Db) {
    if after.snapshots == before.snapshots then before.bets <= after.bets && after.grades == before.grades
    else
      && after.snapshots == before.snapshots + [Aggregate(after)]
      && Aggregate(after).openBets + Aggregate(after).totalBets == |after.bets|
  }

  lemma {:induction false} EffectKeepsUp(db: Db, e: Effect)
    requires GradesMatch(Effects(db, e))
    ensures SnapshotsKeepUp(db, Effects(db, e))
  {
    if Wins(db, e) {
      WinAppendsFresh(db, e);
    }
  }

  /** Every snapshot of every run was, when appended, a fresh fold over the tables, open bets included; and no bet
      leaves OPEN and no grade changes without one. */
  lemma {:induction false} SnapshotsAreFresh(s: Sys, actions: seq<Action>, a: Action)
    requires Safe(s)
    ensures SnapshotsKeepUp(Run(s, actions).db, Act(Run(s, actions), a).db)
  {
    RunSafe(s, actions);
    ActSafe(Run(s, actions), a);
    ActKeepsUp(Run(s, actions), a);
  }

  lemma {:induction false} StepKeepsUp(db: Db, p: Proc, rows: seq<nat>)
    requires GradesMatch(Advance(db, p, rows).0)
    ensures SnapshotsKeepUp(db, Advance(db, p, rows).0)
  {
    AdvanceEffect(db, p, rows);
    EffectKeepsUp(db, EffectOf(db, p));
  }

  lemma {:induction false} ActKeepsUp(s: Sys, a: Action)
    requires Safe(Act(s, a))
    ensures SnapshotsKeepUp(s.db, Act(s, a).db)
  {
    if a.Step? && a.i < |s.procs| {
      StepKeepsUp(s.db, s.procs[a.i], a.rows);
    }
  }

  // ---------- claims are counted once ----------

  function TotalClaims(procs: seq<Proc>): nat {
    if procs == [] then 0 else TotalClaims(procs[..|procs| - 1]) + Claims(procs[|procs| - 1])
  }

  /** The bet rows that have left OPEN. */
  function GradedRows(db: Db): nat {
    Count(|db.bets|, (b: nat) => b < |db.bets| && !OpenBet(db, b))
  }

  predicate Unforced(p: Proc) {
    match p
    case SettleParents(_, _, force, _) => !force
    case ManualFind(_, _, force) => !force
    case ManualLegs(_, force) => !force
    case ManualClaim(_, _, force) => !force
    case Killed(was) => Unforced(was)
    case _ => true
  }

  predicate AllUnforced(procs: seq<Proc>) {
    forall i :: 0 <= i < |procs| ==> Unforced(procs[i])
  }

  predicate UnforcedActions(actions: seq<Action>) {
    forall i :: 0 <= i < |actions| && actions[i].Spawn? ==> Unforced(actions[i].p)
  }

  lemma {:induction false} TotalClaimsUpdate(procs: seq<Proc>, i: nat, p: Proc)
    requires i < |procs|
    ensures TotalClaims(procs[i := p]) + Claims(procs[i]) == TotalClaims(procs) + Claims(p)
  {
    var n := |procs| - 1;
    if i < n {
      TotalClaimsUpdate(procs[..n], i, p);
      assert procs[i := p][..n] == procs[..n][i := p];
    } else {
      assert procs[i := p][..n] == procs[..n];
    }
  }

  lemma {:induction false} UnforcedStays(db: Db, p: Proc, rows: seq<nat>)
    requires Unforced(p)
    ensures Unforced(Advance(db, p, rows).1)
    ensures EffectOf(db, p).Graded? ==> !EffectOf(db, p).force
  {
  }

  lemma EffectCountsRows(db: Db, e: Effect)
    requires GradesMatch(db) && (e.Graded? ==> !e.force && !e.status.OPEN?)
    ensures GradedRows(Effects(db, e)) == GradedRows(db) + if Wins(db, e) then 1 else 0
  {
    var db' := Effects(db, e);
    var p := (b: nat) => b < |db.bets| && !OpenBet(db, b);
    var q := (b: nat) => b < |db'.bets| && !OpenBet(db', b);
    if Wins(db, e) {
      CountChange(|db.bets|, p, q, e.bet);
    } else {
      CountSame(|db.bets|, p, |db'.bets|, q);
    }
  }

  lemma StepCounts(db: Db, p: Proc, rows: seq<nat>)
    requires Consistent(db) && Ready(db, p) && Unforced(p)
    ensures var (db', p') := Advance(db, p, rows);
            Unforced(p') && Claims(p') + GradedRows(db) == Claims(p) + GradedRows(db')
  {
    AdvanceEffect(db, p, rows);
    EffectIsDecisive(db, p);
    UnforcedStays(db, p, rows);
    EffectCountsRows(db, EffectOf(db, p));
  }

  lemma ReplacedCounts(procs: seq<Proc>, i: nat, p: Proc, before: nat, after: nat)
    requires i < |procs| && AllUnforced(procs) && Unforced(p)
    requires Claims(p) + before == Claims(procs[i]) + after
    ensures AllUnforced(procs[i := p]) && TotalClaims(procs[i := p]) + before == TotalClaims(procs) + after
  {
    TotalClaimsUpdate(procs, i, p);
  }

  lemma {:induction false} ActCounts(s: Sys, a: Action)
    requires Safe(s) && AllUnforced(s.procs) && (a.Spawn? ==> Unforced(a.p))
    ensures var s' := Act(s, a);
            && AllUnforced(s'.procs)
            && TotalClaims(s'.procs) + GradedRows(s.db) == TotalClaims(s.procs) + GradedRows(s'.db)
  {
    match a
    case Spawn(p) =>
      assert (s.procs + [p])[..|s.procs|] == s.procs;
    case Kill(i) =>
      if i < |s.procs| {
        ReplacedCounts(s.procs, i, Killed(s.procs[i]), GradedRows(s.db), GradedRows(s.db));
      }
    case Step(i, rows) =>
      if i < |s.procs| {
        assert Ready(s.db, s.procs[i]);
        StepCounts(s.db, s.procs[i], rows);
        var (db, p) := Advance(s.db, s.procs[i], rows);
        ReplacedCounts(s.procs, i, p, GradedRows(s.db), GradedRows(db));
      }
  }

  /** Over any interleaving of unforced calls, kills included, the counts the calls hold add up to exactly the number
      of bet rows that left OPEN: no grade is counted twice and none is missed. */
  lemma {:induction false} ClaimsCountGradedRows(s: Sys, actions: seq<Action>)
    requires Safe(s) && AllUnforced(s.procs) && UnforcedActions(actions)
    ensures var t := Run(s, actions);
            && AllUnforced(t.procs)
            && TotalClaims(t.procs) + GradedRows(s.db) == TotalClaims(s.procs) + GradedRows(t.db)
  {
    if actions != [] {
      var before := actions[..|actions| - 1];
      ClaimsCountGradedRows(s, before);
      RunSafe(s, before);
      ActCounts(Run(s, before), actions[|actions| - 1]);
    }
  }

  // ---------- amounts the columns can hold ----------

  /** Stakes are positive and every amount is a whole number of ten-thousandths. */
  ghost predicate Funded(db: Db) {
    && Ticks(db.starting)
    && (forall i :: 0 <= i < |db.bets| ==> db.bets[i].stake > 0.0 && Ticks(db.bets[i].stake))
    && (forall i :: i in db.grades ==> Ticks(db.grades[i].profit))
  }

  lemma EffectKeepsFunds(db: Db, e: Effect)
    requires Funded(db)
    ensures Funded(Effects(db, e))
  {
    match e
    case Graded(bet, status, price, _) => Numeric4IsTicks(ProfitLoss(status, StakeOf(db, bet), price));
    case Placed(order) => Numeric4IsTicks(order.row.stake);
    case _ =>
  }

  lemma {:induction false} RunFunded(s: Sys, actions: seq<Action>)
    requires Safe(s) && Funded(s.db)
    ensures Funded(Run(s, actions).db)
  {
    if actions != [] {
      var before := actions[..|actions| - 1];
      var a := actions[|actions| - 1];
      RunFunded(s, before);
      RunSafe(s, before);
      var t := Run(s, before);
      if a.Step? && a.i < |t.procs| {
        AdvanceEffect(t.db, t.procs[a.i], a.rows);
        EffectKeepsFunds(t.db, EffectOf(t.db, t.procs[a.i]));
      }
    }
  }

  lemma {:induction false} SumOfTicks(n: nat, f: nat -> real)
    requires forall i :: 0 <= i < n ==> Ticks(f(i))
    ensures Ticks(Sum(n, f))
  {
    if n > 0 {
      SumOfTicks(n - 1, f);
      TicksAdd(Sum(n - 1, f), f(n - 1));
    } else {
      assert Sum(0, f) * 10000.0 == 0.0;
    }
  }

  lemma FundsAreTicks(db: Db)
    requires Funded(db)
    ensures Ticks(TotalProfit(db)) && Ticks(OpenExposure(db)) && Ticks(Available(db))
  {
    assert Ticks(0.0) by { assert 0.0 * 10000.0 == 0.0; }
    SumOfTicks(|db.bets|, (b: nat) => ProfitOf(db, b));
    SumOfTicks(|db.bets|, (b: nat) => StakeAtRisk(db, b));
    TicksAdd(db.starting, TotalProfit(db));
    TicksAdd(db.starting + TotalProfit(db), OpenExposure(db));
  }

  /** The balance column of the newest snapshot is, to the last digit, the bankroll the service derives:
      starting bankroll plus the sum of all grade profits. */
  lemma {:induction false} SnapshotBalanceIsBankroll(s: Sys, actions: seq<Action>)
    requires Safe(s) && Funded(s.db) && LedgerAgrees(s.db)
    ensures var db := Run(s, actions).db;
            db.snapshots != [] ==> db.snapshots[|db.snapshots| - 1].balance == db.starting + TotalProfit(db)
  {
    LedgerAlwaysAgrees(s, actions);
    RunFunded(s, actions);
    BalanceIsBankroll(Run(s, actions).db);
  }

  lemma BalanceIsBankroll(db: Db)
    requires LedgerAgrees(db) && Funded(db)
    ensures db.snapshots != [] ==> db.snapshots[|db.snapshots| - 1].balance == db.starting + TotalProfit(db)
  {
    FundsAreTicks(db);
    TicksAdd(db.starting, TotalProfit(db));
    Numeric4KeepsTicks(db.starting + TotalProfit(db));
  }
}
