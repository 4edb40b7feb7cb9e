/** The emulator's tables as values, and every repository transaction as one atomic step on them.
    A row's id is its position: rows are never deleted and the service's ids are opaque. */
module Tables {
  import opened Numeric
  import opened Outcomes
  import opened Parlay

  datatype Bet = Bet(
    game: Option<nat>,
    isParlay: bool,
    terms: Terms,
    odds: real,
    stake: real,
    key: string,
    startAt: Option<int>,
    status: Status
  )

  datatype Leg = Leg(parent: nat, index: nat, game: Option<nat>, terms: Terms, odds: real, status: Status)

  datatype Grade = Grade(profit: real)

  datatype Snapshot = Snapshot(
    balance: real,
    totalWagered: real,
    totalProfit: real,
    openBets: nat,
    totalBets: nat,
    wins: nat,
    losses: nat
  )

  /** `starting` is the configured bankroll; it never changes. */
  datatype Db = Db(
    starting: real,
    bets: seq<Bet>,
    grades: map<nat, Grade>,
    legs: seq<Leg>,
    snapshots: seq<Snapshot>
  )

  // ---------- queries ----------

  predicate OpenBet(db: Db, bet: nat) {
    bet < |db.bets| && db.bets[bet].status.OPEN?
  }

  predicate OpenLeg(db: Db, leg: nat) {
    leg < |db.legs| && db.legs[leg].status.OPEN?
  }

  predicate OpenBetOn(db: Db, game: nat, bet: nat) {
    OpenBet(db, bet) && db.bets[bet].game == Some(game)
  }

  predicate OpenLegOn(db: Db, game: nat, leg: nat) {
    OpenLeg(db, leg) && db.legs[leg].game == Some(game)
  }

  predicate LegOf(db: Db, parent: nat, leg: nat) {
    leg < |db.legs| && db.legs[leg].parent == parent
  }

  /** Rows the fallback sweep takes games from: open, with a game, started (for a leg: its parent) before the cutoff. */
  predicate SweptBet(db: Db, cutoff: int, bet: nat) {
    OpenBet(db, bet) && db.bets[bet].game.Some? && StartedBefore(db, bet, cutoff)
  }

  predicate SweptLeg(db: Db, cutoff: int, leg: nat) {
    OpenLeg(db, leg) && db.legs[leg].game.Some? && StartedBefore(db, db.legs[leg].parent, cutoff)
  }

  predicate StartedBefore(db: Db, bet: nat, cutoff: int) {
    bet < |db.bets| && db.bets[bet].startAt.Some? && db.bets[bet].startAt.value < cutoff
  }

  /** The positions below n that satisfy p, in table order. */
  function Select(n: nat, p: nat -> bool): seq<nat> {
    if n == 0 then [] else Select(n - 1, p) + if p(n - 1) then [n - 1] else []
  }

  function LegsOf(db: Db, parent: nat): seq<nat> {
    Select(|db.legs|, (leg: nat) => LegOf(db, parent, leg))
  }

  function OpenLegCount(db: Db, parent: nat): nat {
    Count(|db.legs|, (leg: nat) => LegOf(db, parent, leg) && OpenLeg(db, leg))
  }

  /** settle_parlay over the leg rows of one parent. */
  function ParentSettlement(db: Db, parent: nat): Settlement {
    LegSettlement(db.legs, LegsOf(db, parent))
  }

  function LegSettlement(legs: seq<Leg>, ids: seq<nat>): Settlement {
    if forall i :: 0 <= i < |ids| ==> ids[i] < |legs| then
      SettleParlay(seq(|ids|, i requires 0 <= i < |ids| => legs[ids[i]].status),
                   seq(|ids|, i requires 0 <= i < |ids| => legs[ids[i]].odds))
    else Misaligned
  }

  function ProfitOf(db: Db, bet: nat): real {
    if bet in db.grades then db.grades[bet].profit else 0.0
  }

  function StakeAtRisk(db: Db, bet: nat): real {
    if OpenBet(db, bet) then db.bets[bet].stake else 0.0
  }

  function GradedStake(db: Db, bet: nat): real {
    if bet in db.grades && bet < |db.bets| then db.bets[bet].stake else 0.0
  }

  predicate GradedAs(db: Db, status: Status, bet: nat) {
    bet in db.grades && bet < |db.bets| && db.bets[bet].status == status
  }

  function TotalProfit(db: Db): real {
    Sum(|db.bets|, (bet: nat) => ProfitOf(db, bet))
  }

  function OpenExposure(db: Db): real {
    Sum(|db.bets|, (bet: nat) => StakeAtRisk(db, bet))
  }

  function OpenBetsCount(db: Db): nat {
    Count(|db.bets|, (bet: nat) => OpenBet(db, bet))
  }

  /** The aggregates apply_grade selects, as one fresh fold over the tables. */
  function Aggregate(db: Db): Snapshot {
    Snapshot(
      Numeric4(db.starting + TotalProfit(db)),
      Sum(|db.bets|, (bet: nat) => GradedStake(db, bet)),
      TotalProfit(db),
      OpenBetsCount(db),
      Count(|db.bets|, (bet: nat) => bet in db.grades),
      Count(|db.bets|, (bet: nat) => GradedAs(db, WON, bet)),
      Count(|db.bets|, (bet: nat) => GradedAs(db, LOST, bet)))
  }

  // ---------- transactions ----------

  datatype Claim = NotClaimed | Collision | Applied

  function ApplyGrade(db: Db, bet: nat, status: Status, profit: real, force: bool): (Db, Claim) {
    if bet >= |db.bets| || (!force && !db.bets[bet].status.OPEN?) then (db, NotClaimed)
    else if !force && bet in db.grades then (db, Collision)
    else
      var graded := db.(bets := db.bets[bet := db.bets[bet].(status := status)],
                        grades := db.grades[bet := Grade(Numeric4(profit))]);
      (graded.(snapshots := graded.snapshots + [Aggregate(graded)]), Applied)
  }

  function StakeOf(db: Db, bet: nat): real {
    if bet < |db.bets| then db.bets[bet].stake else 0.0
  }

  function OddsOf(db: Db, bet: nat): real {
    if bet < |db.bets| then db.bets[bet].odds else 0.0
  }

  /** Every grading path's call: apply_grade with the profit of this status at this price. */
  function GradeAt(db: Db, bet: nat, status: Status, price: real, force: bool): (Db, Claim) {
    ApplyGrade(db, bet, status, ProfitLoss(status, StakeOf(db, bet), price), force)
  }

  function GradeLeg(db: Db, leg: nat, status: Status): (Db, bool) {
    if OpenLeg(db, leg) then (db.(legs := db.legs[leg := db.legs[leg].(status := status)]), true)
    else (db, false)
  }

  datatype Inserted = Created(id: nat) | Replayed(id: nat) | CheckFailed

  function FindKey(bets: seq<Bet>, key: string): Option<nat> {
    if bets == [] then None
    else
      var n := |bets| - 1;
      if bets[n].key == key then Some(n) else FindKey(bets[..n], key)
  }

  /** The row as its columns keep it. */
  function Stored(row: Bet): Bet {
    row.(odds := Numeric4(row.odds), stake := Numeric4(row.stake), status := OPEN)
  }

  function StoredLegs(parent: nat, legs: seq<Leg>): seq<Leg> {
    seq(|legs|, i requires 0 <= i < |legs| =>
      legs[i].(parent := parent, odds := Numeric4(legs[i].odds), status := OPEN))
  }

  /** insert_idempotent (no legs) and insert_parlay: one row per key, legs only beside a created parent. */
  function Insert(db: Db, row: Bet, legs: seq<Leg>): (Db, Inserted) {
    if Stored(row).stake <= 0.0 then (db, CheckFailed)
    else
      var found := FindKey(db.bets, row.key);
      if found.Some? then (db, Replayed(found.value))
      else
        var id := |db.bets|;
        (db.(bets := db.bets + [Stored(row)], legs := db.legs + StoredLegs(id, legs)), Created(id))
  }

  // ---------- facts about the queries ----------

  lemma {:induction false} SelectMembers(n: nat, p: nat -> bool)
    ensures forall x: nat :: x in Select(n, p) <==> x < n && p(x)
  {
    if n > 0 {
      SelectMembers(n - 1, p);
    }
  }

  lemma {:induction false} SelectSame(n: nat, m: nat, p: nat -> bool, q: nat -> bool)
    requires n <= m
    requires forall i :: 0 <= i < n ==> p(i) == q(i)
    requires forall i :: n <= i < m ==> !q(i)
    ensures Select(n, p) == Select(m, q)
  {
    if n < m {
      SelectSame(n, m - 1, p, q);
    } else if n > 0 {
      SelectSame(n - 1, n - 1, p, q);
    }
  }

  lemma {:induction false} FindKeyCorrect(bets: seq<Bet>, key: string)
    ensures var found := FindKey(bets, key);
            if found.Some? then found.value < |bets| && bets[found.value].key == key
            else forall i :: 0 <= i < |bets| ==> bets[i].key != key
  {
    if bets != [] {
      FindKeyCorrect(bets[..|bets| - 1], key);
    }
  }

  lemma NoOpenLegs(db: Db, parent: nat)
    ensures OpenLegCount(db, parent) == 0 <==> forall leg: nat :: LegOf(db, parent, leg) ==> !OpenLeg(db, leg)
  {
    var p := (leg: nat) => LegOf(db, parent, leg) && OpenLeg(db, leg);
    CountZero(|db.legs|, p);
    if OpenLegCount(db, parent) == 0 {
      forall leg: nat | LegOf(db, parent, leg) ensures !OpenLeg(db, leg) {
        assert !p(leg);
      }
    }
  }

  lemma LegsOfMembers(db: Db, parent: nat)
    ensures forall leg: nat :: leg in LegsOf(db, parent) <==> LegOf(db, parent, leg)
    ensures forall i :: 0 <= i < |LegsOf(db, parent)| ==> LegOf(db, parent, LegsOf(db, parent)[i])
  {
    SelectMembers(|db.legs|, (leg: nat) => LegOf(db, parent, leg));
    forall i | 0 <= i < |LegsOf(db, parent)| ensures LegOf(db, parent, LegsOf(db, parent)[i]) {
      assert LegsOf(db, parent)[i] in LegsOf(db, parent);
    }
  }

  // ---------- what a parlay earns, said of its leg rows ----------

  /** The statuses and odds of the parent's leg rows, in table order. */
  function ParentRows(legs: seq<Leg>, parent: nat): seq<Priced> {
    if legs == [] then []
    else
      var n := |legs| - 1;
      ParentRows(legs[..n], parent) + if legs[n].parent == parent then [Priced(legs[n].status, legs[n].odds)] else []
  }

  predicate HasLeg(legs: seq<Leg>, parent: nat, status: Status) {
    exists leg :: 0 <= leg < |legs| && legs[leg].parent == parent && legs[leg].status == status
  }

  predicate LegsDropped(legs: seq<Leg>, parent: nat) {
    forall leg :: 0 <= leg < |legs| && legs[leg].parent == parent ==> legs[leg].status in {PUSH, VOID}
  }

  /** The grade of a parlay whose legs are decided: LOST with one lost leg, PUSH when every leg dropped out, else WON;
      and in units, what rolling the stake through the rows leaves, less the stake. */
  ghost predicate Earns(legs: seq<Leg>, parent: nat, stake: real, status: Status, profit: real) {
    && status in {WON, LOST, PUSH} && !HasLeg(legs, parent, OPEN)
    && (status.LOST? <==> HasLeg(legs, parent, LOST))
    && (status.PUSH? <==> LegsDropped(legs, parent))
    && profit == Numeric4(Roll(stake, ParentRows(legs, parent)) - stake)
  }

  lemma EarnsOneGrade(legs: seq<Leg>, parent: nat, stake: real, a: Status, p: real, b: Status, q: real)
    requires Earns(legs, parent, stake, a, p) && Earns(legs, parent, stake, b, q)
    ensures a == b && p == q
  {
  }

  lemma {:induction false} RowsOfSelected(legs: seq<Leg>, parent: nat, n: nat, p: nat -> bool)
    requires n <= |legs| && forall i :: 0 <= i < n ==> p(i) == (legs[i].parent == parent)
    ensures var ids := Select(n, p);
            && (forall i :: 0 <= i < |ids| ==> ids[i] < n)
            && ParentRows(legs[..n], parent)
               == seq(|ids|, i requires 0 <= i < |ids| && ids[i] < |legs| => Priced(legs[ids[i]].status, legs[ids[i]].odds))
  {
    if n > 0 {
      RowsOfSelected(legs, parent, n - 1, p);
      assert legs[..n][..n - 1] == legs[..n - 1];
    }
  }

  lemma {:induction false} RowStatuses(legs: seq<Leg>, parent: nat)
    ensures forall status :: Any(ParentRows(legs, parent), status) <==> HasLeg(legs, parent, status)
    ensures AllDropped(ParentRows(legs, parent)) <==> LegsDropped(legs, parent)
  {
    if legs != [] {
      var n := |legs| - 1;
      RowStatuses(legs[..n], parent);
      var last := if legs[n].parent == parent then [Priced(legs[n].status, legs[n].odds)] else [];
      ConditionsConcat(ParentRows(legs[..n], parent), last);
      LastLeg(legs, parent);
      assert legs[n].parent == parent ==> last[0] == Priced(legs[n].status, legs[n].odds);
    }
  }

  lemma LastLeg(legs: seq<Leg>, parent: nat)
    requires legs != []
    ensures var n := |legs| - 1;
            && (forall status :: HasLeg(legs, parent, status) <==>
                  HasLeg(legs[..n], parent, status) || (legs[n].parent == parent && legs[n].status == status))
            && (LegsDropped(legs, parent) <==>
                  LegsDropped(legs[..n], parent) && (legs[n].parent == parent ==> legs[n].status in {PUSH, VOID}))
  {
    var n := |legs| - 1;
    assert forall i :: 0 <= i < n ==> legs[i] == legs[..n][i];
  }

  /** settle_parlay over the parent's rows is settling what ParentRows lists. */
  lemma SettlesRows(db: Db, parent: nat)
    ensures ParentSettlement(db, parent) == SettleLegs(ParentRows(db.legs, parent))
  {
    var p := (leg: nat) => LegOf(db, parent, leg);
    var ids := LegsOf(db, parent);
    RowsOfSelected(db.legs, parent, |db.legs|, p);
    assert db.legs[..|db.legs|] == db.legs;
    var statuses := seq(|ids|, i requires 0 <= i < |ids| => db.legs[ids[i]].status);
    var decimals := seq(|ids|, i requires 0 <= i < |ids| => db.legs[ids[i]].odds);
    assert seq(|statuses|, i requires 0 <= i < |statuses| => Priced(statuses[i], decimals[i]))
        == ParentRows(db.legs, parent);
  }

  /** What the code claims for a parent is what its rows earn, and nothing else is. */
  lemma SettlementEarns(db: Db, parent: nat, stake: real, status: Status, profit: real)
    requires ParentSettlement(db, parent).Settled?
    ensures var s := ParentSettlement(db, parent);
            Earns(db.legs, parent, stake, status, profit) <==>
            status == s.status && profit == Numeric4(ProfitLoss(s.status, stake, s.price))
  {
    var rows := ParentRows(db.legs, parent);
    SettlesRows(db, parent);
    RowStatuses(db.legs, parent);
    SettlementIsRolling(stake, rows);
    LostNotDropped(rows);
  }

  lemma LostNotDropped(rows: seq<Priced>)
    ensures Any(rows, LOST) ==> !AllDropped(rows)
  {
  }

  /** A parent settles exactly when none of its legs is open; the "settled is None" case needs an open one. */
  lemma ParentSettles(db: Db, parent: nat)
    ensures var s := ParentSettlement(db, parent);
            if forall leg: nat :: LegOf(db, parent, leg) ==> !OpenLeg(db, leg)
            then s.Settled? && s.status in {WON, LOST, PUSH} else s.Undecided?
  {
    SettlesRows(db, parent);
    RowStatuses(db.legs, parent);
    OpenLegs(db, parent);
  }

  lemma OpenLegs(db: Db, parent: nat)
    ensures HasLeg(db.legs, parent, OPEN) <==> !(forall leg: nat :: LegOf(db, parent, leg) ==> !OpenLeg(db, leg))
  {
    if leg :| 0 <= leg < |db.legs| && db.legs[leg].parent == parent && db.legs[leg].status == OPEN {
      assert LegOf(db, parent, leg) && OpenLeg(db, leg);
    }
  }
}
