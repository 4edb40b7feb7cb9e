/** What one transaction moves, figure by figure: the bankroll check and every column of a snapshot. */
module Movements {
  import opened Numeric
  import opened Outcomes
  import opened Parlay
  import opened Tables
  import opened Protocol
  import opened Safety
  import opened Bankroll

  function One(b: bool): nat {
    if b then 1 else 0
  }

  /** What a bet has paid so far. */
  function Paid(db: Db, bet: nat): real {
    if bet in db.grades then db.grades[bet].profit else 0.0
  }

  /** The stakes of the open bets. */
  function OpenStakes(bets: seq<Bet>): real {
    if bets == [] then 0.0
    else
      var n := |bets| - 1;
      OpenStakes(bets[..n]) + if bets[n].status.OPEN? then bets[n].stake else 0.0
  }

  /** What the first n bets have paid. */
  function PaidUpTo(db: Db, n: nat): real {
    if n == 0 then 0.0 else PaidUpTo(db, n - 1) + Paid(db, n - 1)
  }

  // ---------- what is available ----------

  lemma {:induction false} ExposureIsOpenStakes(db: Db, n: nat)
    requires n <= |db.bets|
    ensures Sum(n, (b: nat) => StakeAtRisk(db, b)) == OpenStakes(db.bets[..n])
  {
    if n > 0 {
      ExposureIsOpenStakes(db, n - 1);
      assert db.bets[..n][..n - 1] == db.bets[..n - 1];
    }
  }

  lemma {:induction false} ProfitIsPaid(db: Db, n: nat)
    ensures Sum(n, (b: nat) => ProfitOf(db, b)) == PaidUpTo(db, n)
  {
    if n > 0 {
      ProfitIsPaid(db, n - 1);
    }
  }

  /** What a stake is checked against: the starting bankroll, and all that was won and lost, less the open stakes. */
  lemma AvailableIs(db: Db)
    ensures Available(db) == db.starting + PaidUpTo(db, |db.bets|) - OpenStakes(db.bets)
  {
    ExposureIsOpenStakes(db, |db.bets|);
    ProfitIsPaid(db, |db.bets|);
    assert db.bets[..|db.bets|] == db.bets;
  }

  /** A first grade frees the stake and adds the stored profit; a forced re-grade replaces the old profit by the new. */
  lemma GradeMovesAvailable(db: Db, bet: nat, status: Status, profit: real, force: bool)
    requires ApplyGrade(db, bet, status, profit, force).1.Applied? && !status.OPEN?
    ensures var db' := ApplyGrade(db, bet, status, profit, force).0;
            Available(db') == Available(db) + Numeric4(profit) - Paid(db, bet)
                              + if db.bets[bet].status.OPEN? then db.bets[bet].stake else 0.0
  {
    GradeMovesProfit(db, bet, status, profit, force);
    GradeMovesExposure(db, bet, status, profit, force);
  }

  /** A placement takes exactly its stored stake, one that creates no row nothing; grading a leg moves nothing. */
  lemma OthersMoveAvailable(db: Db, row: Bet, legs: seq<Leg>, leg: nat, status: Status)
    requires GradesMatch(db)
    ensures var (db', inserted) := Insert(db, row, legs);
            Available(db') == Available(db) - if inserted.Created? then Numeric4(row.stake) else 0.0
    ensures Available(GradeLeg(db, leg, status).0) == Available(db)
  {
    if Insert(db, row, legs).1.Created? {
      InsertMovesMoney(db, row, legs);
    }
    LegsMoveNothing(db, leg, status);
  }

  /** In every reachable state the balance of the newest snapshot is what is available plus the open stakes. */
  lemma BalanceIsAvailableAndOpen(s: Sys, actions: seq<Action>)
    requires Safe(s) && Funded(s.db) && LedgerAgrees(s.db)
    ensures var db := Run(s, actions).db;
            db.snapshots != [] ==>
              db.snapshots[|db.snapshots| - 1].balance == Available(db) + OpenStakes(db.bets)
  {
    var db := Run(s, actions).db;
    SnapshotBalanceIsBankroll(s, actions);
    AvailableIs(db);
    ProfitIsPaid(db, |db.bets|);
  }

  // ---------- what a snapshot records ----------

  /** The columns of the figures after a grade, from those before it: `was` and `now` are the bet's row, `paid` is what
      the bet pays now less what it had paid. */
  predicate Moved(before: Snapshot, after: Snapshot, was: Bet, now: Bet, paid: real) {
    && after.wins + One(was.status.WON?) == before.wins + One(now.status.WON?)
    && after.losses + One(was.status.LOST?) == before.losses + One(now.status.LOST?)
    && after.totalBets == before.totalBets + One(was.status.OPEN?)
    && after.totalWagered == before.totalWagered + (if was.status.OPEN? then was.stake else 0.0)
    && after.totalProfit == before.totalProfit + paid
  }

  lemma GradeMovesCounts(db: Db, bet: nat, status: Status, profit: real, force: bool)
    requires GradesMatch(db) && ApplyGrade(db, bet, status, profit, force).1.Applied? && !status.OPEN?
    ensures var a, b := Aggregate(db), Aggregate(ApplyGrade(db, bet, status, profit, force).0);
            && b.wins + One(db.bets[bet].status.WON?) == a.wins + One(status.WON?)
            && b.losses + One(db.bets[bet].status.LOST?) == a.losses + One(status.LOST?)
  {
    var n, db' := |db.bets|, ApplyGrade(db, bet, status, profit, force).0;
    CountChange(n, (b: nat) => GradedAs(db, WON, b), (b: nat) => GradedAs(db', WON, b), bet);
    CountChange(n, (b: nat) => GradedAs(db, LOST, b), (b: nat) => GradedAs(db', LOST, b), bet);
  }

  lemma GradeMovesTotals(db: Db, bet: nat, status: Status, profit: real, force: bool)
    requires GradesMatch(db) && ApplyGrade(db, bet, status, profit, force).1.Applied? && !status.OPEN?
    ensures var a, b := Aggregate(db), Aggregate(ApplyGrade(db, bet, status, profit, force).0);
            && b.totalBets == a.totalBets + One(db.bets[bet].status.OPEN?)
            && b.totalWagered == a.totalWagered + (if db.bets[bet].status.OPEN? then db.bets[bet].stake else 0.0)
            && b.openBets + One(db.bets[bet].status.OPEN?) == a.openBets
  {
    var n, db' := |db.bets|, ApplyGrade(db, bet, status, profit, force).0;
    CountChange(n, (b: nat) => b in db.grades, (b: nat) => b in db'.grades, bet);
    SumChange(n, (b: nat) => GradedStake(db, b), (b: nat) => GradedStake(db', b), bet);
    CountChange(n, (b: nat) => OpenBet(db, b), (b: nat) => OpenBet(db', b), bet);
  }

  /** One grading transaction moves the figures by this one bet: a first grade adds it, a forced re-grade takes its old
      status out and puts the new one in. */
  lemma GradeMovesFigures(db: Db, bet: nat, status: Status, profit: real, force: bool)
    requires GradesMatch(db) && ApplyGrade(db, bet, status, profit, force).1.Applied? && !status.OPEN?
    ensures var db' := ApplyGrade(db, bet, status, profit, force).0;
            && Moved(Aggregate(db), Aggregate(db'), db.bets[bet], db'.bets[bet], Numeric4(profit) - Paid(db, bet))
            && Aggregate(db').openBets + One(db.bets[bet].status.OPEN?) == Aggregate(db).openBets
            && Aggregate(db').balance == Numeric4(db.starting + Aggregate(db').totalProfit)
  {
    GradeMovesCounts(db, bet, status, profit, force);
    GradeMovesTotals(db, bet, status, profit, force);
    GradeMovesProfit(db, bet, status, profit, force);
  }

  lemma {:induction false} SumOfZeros(n: nat, f: nat -> real)
    requires forall i :: 0 <= i < n ==> f(i) == 0.0
    ensures Sum(n, f) == 0.0
  {
    if n > 0 {
      SumOfZeros(n - 1, f);
    }
  }

  /** Before anything is graded every figure is zero. */
  lemma NothingGraded(db: Db)
    requires db.grades == map[]
    ensures var a := Aggregate(db);
            a.totalWagered == 0.0 && a.totalProfit == 0.0 && a.totalBets == 0 && a.wins == 0 && a.losses == 0
            && a.balance == Numeric4(db.starting)
  {
    var n := |db.bets|;
    SumOfZeros(n, (b: nat) => GradedStake(db, b));
    SumOfZeros(n, (b: nat) => ProfitOf(db, b));
    CountZero(n, (b: nat) => b in db.grades);
    CountZero(n, (b: nat) => GradedAs(db, WON, b));
    CountZero(n, (b: nat) => GradedAs(db, LOST, b));
  }

  /** The figures of the newest snapshot; zero before the first. */
  function Figures(db: Db): Snapshot {
    if db.snapshots == [] then Snapshot(db.starting, 0.0, 0.0, 0, 0, 0, 0) else db.snapshots[|db.snapshots| - 1]
  }

  ghost predicate FirstIsZero(db: Db) {
    db.snapshots == [] ==> db.grades == map[]
  }

  lemma FiguresAgree(db: Db)
    requires LedgerAgrees(db) && FirstIsZero(db)
    ensures var f, a := Figures(db), Aggregate(db);
            f.totalWagered == a.totalWagered && f.totalProfit == a.totalProfit && f.totalBets == a.totalBets
            && f.wins == a.wins && f.losses == a.losses
  {
    if db.snapshots == [] {
      NothingGraded(db);
    }
  }

  lemma {:induction false} FirstStaysZero(s: Sys, actions: seq<Action>)
    requires Safe(s) && FirstIsZero(s.db)
    ensures FirstIsZero(Run(s, actions).db)
  {
    if actions != [] {
      var n := |actions| - 1;
      FirstStaysZero(s, actions[..n]);
      SnapshotsAreFresh(s, actions[..n], actions[n]);
    }
  }

  /** The step graded this bet: one snapshot more, moved from the one before it by this bet alone. */
  ghost predicate RecordsGrade(t: Db, u: Db, bet: nat) {
    && bet < |t.bets| && |u.bets| == |t.bets| && bet in u.grades
    && u.bets == t.bets[bet := t.bets[bet].(status := u.bets[bet].status)] && !u.bets[bet].status.OPEN?
    && |u.snapshots| == |t.snapshots| + 1 && u.snapshots[..|t.snapshots|] == t.snapshots
    && Moved(Figures(t), Figures(u), t.bets[bet], u.bets[bet], Paid(u, bet) - Paid(t, bet))
    && Figures(u).balance == Numeric4(u.starting + Figures(u).totalProfit)
    && Figures(u).openBets + Figures(u).totalBets == |u.bets|
  }

  lemma {:induction false} WinRecords(db: Db, e: Effect)
    requires Wins(db, e) && !e.status.OPEN? && GradesMatch(db) && GradesMatch(Effects(db, e))
    requires LedgerAgrees(db) && FirstIsZero(db)
    ensures RecordsGrade(db, Effects(db, e), e.bet)
  {
    var profit := ProfitLoss(e.status, StakeOf(db, e.bet), e.price);
    WinAppendsFresh(db, e);
    GradeMovesFigures(db, e.bet, e.status, profit, e.force);
    FiguresAgree(db);
  }

  /** Either nothing was graded, or one bet was. */
  ghost predicate MovesBetByBet(t: Db, u: Db) {
    if u.snapshots == t.snapshots then t.bets <= u.bets && u.grades == t.grades
    else exists bet: nat :: RecordsGrade(t, u, bet)
  }

  lemma {:induction false} EffectMoves(db: Db, e: Effect)
    requires GradesMatch(db) && GradesMatch(Effects(db, e)) && LedgerAgrees(db) && FirstIsZero(db)
    requires e.Graded? ==> !e.status.OPEN?
    ensures MovesBetByBet(db, Effects(db, e))
  {
    if Wins(db, e) {
      WinRecords(db, e);
    } else {
      EffectKeepsUp(db, e);
    }
  }

  /** Over every run, forced re-grades included: a step appends a snapshot exactly when it grades a bet, and the figures
      of the new snapshot are those of the one before it (zero before the first) moved by that bet. */
  lemma {:induction false} SnapshotsMoveBetByBet(s: Sys, actions: seq<Action>, a: Action)
    requires Safe(s) && LedgerAgrees(s.db) && FirstIsZero(s.db)
    ensures MovesBetByBet(Run(s, actions).db, Act(Run(s, actions), a).db)
  {
    var t := Run(s, actions);
    RunSafe(s, actions);
    ActSafe(t, a);
    LedgerAlwaysAgrees(s, actions);
    FirstStaysZero(s, actions);
    ActMoves(t, a);
  }

  lemma {:induction false} StepMoves(db: Db, p: Proc, rows: seq<nat>)
    requires Consistent(db) && Ready(db, p) && LedgerAgrees(db) && FirstIsZero(db)
    requires GradesMatch(Advance(db, p, rows).0)
    ensures MovesBetByBet(db, Advance(db, p, rows).0)
  {
    AdvanceEffect(db, p, rows);
    EffectIsDecisive(db, p);
    EffectMoves(db, EffectOf(db, p));
  }

  lemma {:induction false} ActMoves(s: Sys, a: Action)
    requires Safe(s) && Safe(Act(s, a)) && LedgerAgrees(s.db) && FirstIsZero(s.db)
    ensures MovesBetByBet(s.db, Act(s, a).db)
  {
    if a.Step? && a.i < |s.procs| {
      StepMoves(s.db, s.procs[a.i], a.rows);
    }
  }

  // ---------- what a transaction writes ----------

  /** The amount as a four-decimal column holds it. */
  predicate Kept4(stored: real, given: real) {
    Ticks(stored) && Abs(stored - given) <= 0.00005
  }

  lemma Numeric4IsKept(x: real)
    ensures Kept4(Numeric4(x), x)
  {
    Numeric4IsTicks(x);
  }

  predicate StoredAs(stored: Bet, row: Bet) {
    && stored.game == row.game && stored.isParlay == row.isParlay && stored.terms == row.terms
    && stored.key == row.key && stored.startAt == row.startAt && stored.status == OPEN
    && Kept4(stored.odds, row.odds) && Kept4(stored.stake, row.stake)
  }

  predicate LegStoredAs(stored: Leg, leg: Leg, parent: nat) {
    && stored.parent == parent && stored.index == leg.index && stored.game == leg.game && stored.terms == leg.terms
    && stored.status == OPEN && Kept4(stored.odds, leg.odds)
  }

  /** An insert fails its stake check, or finds the key's row, and then writes nothing; or it adds the row, open, and its
      legs below it, keeping every column and rounding only the amounts. */
  lemma InsertWrites(db: Db, row: Bet, legs: seq<Leg>)
    ensures var (db', inserted) := Insert(db, row, legs);
            match inserted
            case CheckFailed => db' == db && Numeric4(row.stake) <= 0.0
            case Replayed(id) => db' == db && id < |db.bets| && db.bets[id].key == row.key
            case Created(id) =>
              && id == |db.bets| && |db'.bets| == id + 1 && db'.bets[..id] == db.bets && StoredAs(db'.bets[id], row)
              && db'.bets[id].stake > 0.0 && (forall i :: 0 <= i < id ==> db.bets[i].key != row.key)
              && |db'.legs| == |db.legs| + |legs| && db'.legs[..|db.legs|] == db.legs
              && (forall i :: 0 <= i < |legs| ==> LegStoredAs(db'.legs[|db.legs| + i], legs[i], id))
              && db'.grades == db.grades && db'.snapshots == db.snapshots && db'.starting == db.starting
  {
    FindKeyCorrect(db.bets, row.key);
    Numeric4IsKept(row.odds);
    Numeric4IsKept(row.stake);
    forall i | 0 <= i < |legs| ensures Kept4(Numeric4(legs[i].odds), legs[i].odds) {
      Numeric4IsKept(legs[i].odds);
    }
  }

  /** A grade claims a bet that is open, or any bet when forced; it changes that bet's status and grade and appends one
      snapshot. Otherwise it writes nothing. */
  lemma GradeWrites(db: Db, bet: nat, status: Status, profit: real, force: bool)
    ensures var (db', claim) := ApplyGrade(db, bet, status, profit, force);
            if claim.Applied? then
              && bet < |db.bets| == |db'.bets| && (force || db.bets[bet].status == OPEN)
              && db'.bets[bet].status == status && db'.bets[bet].(status := db.bets[bet].status) == db.bets[bet]
              && (forall i :: 0 <= i < |db.bets| && i != bet ==> db'.bets[i] == db.bets[i])
              && db'.grades.Keys == db.grades.Keys + {bet} && Kept4(db'.grades[bet].profit, profit)
              && (forall i :: i in db.grades && i != bet ==> db'.grades[i] == db.grades[i])
              && db'.legs == db.legs && db'.starting == db.starting
              && |db'.snapshots| == |db.snapshots| + 1 && db'.snapshots[..|db.snapshots|] == db.snapshots
            else
              && db' == db
              && (claim.NotClaimed? <==> bet >= |db.bets| || (!force && db.bets[bet].status != OPEN))
  {
    Numeric4IsKept(profit);
  }

  /** A leg is claimed exactly while it is open, and only its status changes. */
  lemma LegWrites(db: Db, leg: nat, status: Status)
    ensures var (db', claimed) := GradeLeg(db, leg, status);
            && (claimed <==> leg < |db.legs| && db.legs[leg].status == OPEN)
            && (!claimed ==> db' == db)
            && (claimed ==>
                  && db'.legs[leg] == db.legs[leg].(status := status) && |db'.legs| == |db.legs|
                  && (forall i :: 0 <= i < |db.legs| && i != leg ==> db'.legs[i] == db.legs[i])
                  && db' == db.(legs := db'.legs))
  {
  }
}
