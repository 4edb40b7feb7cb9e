/** What every interleaving keeps: rows only move forward, the tables stay consistent, and every process's cached
    reads stay true until it uses them. Forced re-grades and kills are included. */
module Safety {
  import opened Numeric
  import opened Outcomes
  import opened Grading
  import opened Parlay
  import opened Tables
  import opened Protocol

  // ---------- how the tables may change ----------

  /** after continues before: columns other than status never change, nothing reopens, decided legs are final, and
      legs are only ever added to new parents. */
  ghost predicate Evolves(before: Db, after: Db) {
    && after.starting == before.starting
    && |before.bets| <= |after.bets| && |before.legs| <= |after.legs|
    && (forall i :: 0 <= i < |before.bets| ==>
          && after.bets[i].(status := OPEN) == before.bets[i].(status := OPEN)
          && (after.bets[i].status.OPEN? ==> before.bets[i].status.OPEN?))
    && (forall i :: 0 <= i < |before.legs| ==>
          && after.legs[i].(status := OPEN) == before.legs[i].(status := OPEN)
          && (!before.legs[i].status.OPEN? ==> after.legs[i] == before.legs[i]))
    && (forall i :: |before.legs| <= i < |after.legs| ==> after.legs[i].parent >= |before.bets|)
  }

  ghost predicate NoOpenLeg(db: Db, parent: nat) {
    forall leg: nat :: LegOf(db, parent, leg) ==> !OpenLeg(db, leg)
  }

  ghost predicate IsParlay(db: Db, bet: nat) {
    bet < |db.bets| && db.bets[bet].isParlay
  }

  ghost predicate IsSingle(db: Db, bet: nat) {
    bet < |db.bets| && !db.bets[bet].isParlay
  }

  /** The grade a decided parent must carry: what its leg rows earn. */
  ghost predicate CarriesSettlement(db: Db, parent: nat)
    requires parent < |db.bets|
  {
    && parent in db.grades
    && Earns(db.legs, parent, db.bets[parent].stake, db.bets[parent].status, db.grades[parent].profit)
  }

  /** In the code's terms. */
  lemma CarriesWhatSettles(db: Db, parent: nat)
    requires parent < |db.bets| && NoOpenLeg(db, parent)
    ensures var s := ParentSettlement(db, parent);
            && s.Settled?
            && (CarriesSettlement(db, parent) <==>
                && parent in db.grades && db.bets[parent].status == s.status
                && db.grades[parent].profit == Numeric4(ProfitLoss(s.status, StakeOf(db, parent), s.price)))
  {
    ParentSettles(db, parent);
    if parent in db.grades {
      SettlementEarns(db, parent, db.bets[parent].stake, db.bets[parent].status, db.grades[parent].profit);
    }
  }

  /** A bet is open exactly while it has no grade row. */
  ghost predicate GradesMatch(db: Db) {
    && (forall i :: 0 <= i < |db.bets| ==> (i in db.grades <==> !db.bets[i].status.OPEN?))
    && (forall i :: i in db.grades ==> i < |db.bets|)
  }

  /** Foreign keys, and one row per idempotency key. */
  ghost predicate RowsMatch(db: Db) {
    && (forall i :: 0 <= i < |db.legs| ==> IsParlay(db, db.legs[i].parent))
    && (forall i :: 0 <= i < |db.bets| && db.bets[i].isParlay ==> db.bets[i].game.None?)
    && (forall i, j :: 0 <= i < j < |db.bets| ==> db.bets[i].key != db.bets[j].key)
  }

  /** A parent has legs; once graded none is open and it carries exactly their settlement. */
  ghost predicate ParentMatches(db: Db, parent: nat)
    requires parent < |db.bets|
  {
    && (exists leg: nat :: LegOf(db, parent, leg))
    && (!db.bets[parent].status.OPEN? ==> NoOpenLeg(db, parent) && CarriesSettlement(db, parent))
  }

  ghost predicate Consistent(db: Db) {
    && GradesMatch(db)
    && RowsMatch(db)
    && (forall i: nat :: IsParlay(db, i) ==> ParentMatches(db, i))
  }

  /** What each process may rely on at its next step. */
  ghost predicate Ready(db: Db, p: Proc) {
    match p
    case FindLegs(_, bets) => forall bet :: bet in bets ==> IsSingle(db, bet)
    case GradeBets(_, bets, legs, _) =>
      (forall bet :: bet in bets ==> IsSingle(db, bet)) && (forall leg :: leg in legs ==> leg < |db.legs|)
    case GradeLegs(_, legs, parents, _) =>
      (forall leg :: leg in legs ==> leg < |db.legs|) && (forall q :: q in parents ==> IsParlay(db, q))
    case SettleParents(parents, stage, _, _) =>
      && (forall q :: q in parents ==> IsParlay(db, q))
      && (!stage.CountLegs? ==> parents != [] && NoOpenLeg(db, parents[0]))
      && (stage.ClaimParent? ==> ParentSettlement(db, parents[0]) == Settled(stage.status, stage.price))
    case ManualLegs(bet, _) => IsParlay(db, bet)
    case ManualClaim(bet, status, _) => IsSingle(db, bet) && !status.OPEN?
    case CheckBankroll(order) => ValidOrder(order)
    case InsertOrder(order) => ValidOrder(order) && order.row.stake > 0.0
    case _ => true
  }

  ghost predicate Safe(s: Sys) {
    Consistent(s.db) && forall i :: 0 <= i < |s.procs| ==> Ready(s.db, s.procs[i])
  }

  lemma EvolvesTransitive(a: Db, b: Db, c: Db)
    requires Evolves(a, b) && Evolves(b, c)
    ensures Evolves(a, c)
  {
    forall i | 0 <= i < |a.bets|
      ensures c.bets[i].(status := OPEN) == a.bets[i].(status := OPEN)
      ensures c.bets[i].status.OPEN? ==> a.bets[i].status.OPEN?
    {
      assert b.bets[i].(status := OPEN) == a.bets[i].(status := OPEN);
    }
    forall i | 0 <= i < |a.legs|
      ensures c.legs[i].(status := OPEN) == a.legs[i].(status := OPEN)
      ensures !a.legs[i].status.OPEN? ==> c.legs[i] == a.legs[i]
    {
      assert b.legs[i].(status := OPEN) == a.legs[i].(status := OPEN);
    }
    forall i | |a.legs| <= i < |c.legs| ensures c.legs[i].parent >= |a.bets| {
      if i < |b.legs| {
        assert c.legs[i].(status := OPEN) == b.legs[i].(status := OPEN);
        assert c.legs[i].(status := OPEN).parent == b.legs[i].(status := OPEN).parent;
      }
    }
  }

  lemma LegOfStable(before: Db, after: Db, parent: nat)
    requires Evolves(before, after) && parent < |before.bets|
    ensures forall leg: nat :: LegOf(after, parent, leg) <==> LegOf(before, parent, leg)
    ensures LegsOf(after, parent) == LegsOf(before, parent)
  {
    forall leg: nat ensures LegOf(after, parent, leg) <==> LegOf(before, parent, leg) {
      if leg < |before.legs| {
        assert after.legs[leg].(status := OPEN).parent == before.legs[leg].(status := OPEN).parent;
      }
    }
    SelectSame(|before.legs|, |after.legs|,
               (leg: nat) => LegOf(before, parent, leg), (leg: nat) => LegOf(after, parent, leg));
  }

  /** Once no leg of a parent is open, its settlement is final. */
  lemma SettlementIsFinal(before: Db, after: Db, parent: nat)
    requires Evolves(before, after) && parent < |before.bets| && NoOpenLeg(before, parent)
    ensures NoOpenLeg(after, parent)
    ensures ParentSettlement(after, parent) == ParentSettlement(before, parent)
  {
    LegOfStable(before, after, parent);
    var ids := LegsOf(before, parent);
    SelectMembers(|before.legs|, (leg: nat) => LegOf(before, parent, leg));
    forall i | 0 <= i < |ids| ensures ids[i] < |before.legs| && after.legs[ids[i]] == before.legs[ids[i]] {
      assert ids[i] in ids;
      assert LegOf(before, parent, ids[i]);
    }
    assert seq(|ids|, i requires 0 <= i < |ids| => before.legs[ids[i]].status)
        == seq(|ids|, i requires 0 <= i < |ids| => after.legs[ids[i]].status);
    assert seq(|ids|, i requires 0 <= i < |ids| => before.legs[ids[i]].odds)
        == seq(|ids|, i requires 0 <= i < |ids| => after.legs[ids[i]].odds);
  }

  lemma KindsStay(before: Db, after: Db)
    requires Evolves(before, after)
    ensures forall bet: nat :: IsParlay(before, bet) ==> IsParlay(after, bet)
    ensures forall bet: nat :: IsSingle(before, bet) ==> IsSingle(after, bet)
  {
    forall bet: nat | bet < |before.bets| ensures after.bets[bet].isParlay == before.bets[bet].isParlay {
      assert after.bets[bet].(status := OPEN).isParlay == before.bets[bet].(status := OPEN).isParlay;
    }
  }

  /** Another process's step never spoils what this one relies on. */
  lemma ReadyStable(before: Db, after: Db, p: Proc)
    requires Evolves(before, after) && Ready(before, p)
    ensures Ready(after, p)
  {
    KindsStay(before, after);
    if p.SettleParents? && !p.stage.CountLegs? {
      assert p.parents[0] in p.parents;
      assert IsParlay(before, p.parents[0]);
      SettlementIsFinal(before, after, p.parents[0]);
    }
  }

  // ---------- each transaction ----------

  lemma ApplyGradeEvolves(db: Db, bet: nat, status: Status, profit: real, force: bool)
    requires !status.OPEN?
    ensures Evolves(db, ApplyGrade(db, bet, status, profit, force).0)
  {
  }

  lemma GradeLegEvolves(db: Db, leg: nat, status: Status)
    requires !status.OPEN?
    ensures Evolves(db, GradeLeg(db, leg, status).0)
  {
  }

  lemma InsertEvolves(db: Db, row: Bet, legs: seq<Leg>)
    ensures Evolves(db, Insert(db, row, legs).0)
  {
  }

  /** A parent whose row and grade a transaction does not touch keeps matching its legs. */
  lemma ParentKept(before: Db, after: Db, parent: nat)
    requires Evolves(before, after) && Consistent(before) && IsParlay(before, parent)
    requires after.bets[parent] == before.bets[parent]
    requires parent in after.grades <==> parent in before.grades
    requires parent in before.grades ==> after.grades[parent] == before.grades[parent]
    ensures ParentMatches(after, parent)
  {
    assert ParentMatches(before, parent);
    LegOfStable(before, after, parent);
    var leg: nat :| LegOf(before, parent, leg);
    assert LegOf(after, parent, leg);
    if !before.bets[parent].status.OPEN? {
      SettlementKept(before, after, parent);
    }
  }

  lemma SettlementKept(before: Db, after: Db, parent: nat)
    requires Evolves(before, after) && parent < |before.bets| && NoOpenLeg(before, parent)
    requires CarriesSettlement(before, parent)
    requires after.bets[parent] == before.bets[parent]
    requires parent in after.grades && after.grades[parent] == before.grades[parent]
    ensures NoOpenLeg(after, parent) && CarriesSettlement(after, parent)
  {
    SettlementIsFinal(before, after, parent);
    CarriesWhatSettles(before, parent);
    CarriesWhatSettles(after, parent);
  }

  lemma RowsKept(before: Db, after: Db)
    requires Evolves(before, after) && RowsMatch(before)
    requires |after.bets| == |before.bets| && |after.legs| == |before.legs|
    ensures RowsMatch(after)
    ensures forall i: nat :: IsParlay(after, i) <==> IsParlay(before, i)
  {
    forall i: nat | i < |before.bets|
      ensures after.bets[i].isParlay == before.bets[i].isParlay
      ensures after.bets[i].game == before.bets[i].game
      ensures after.bets[i].key == before.bets[i].key
    {
      assert after.bets[i].(status := OPEN) == before.bets[i].(status := OPEN);
    }
    forall i | 0 <= i < |after.legs| ensures IsParlay(after, after.legs[i].parent) {
      assert IsParlay(before, before.legs[i].parent);
      assert after.legs[i].(status := OPEN).parent == before.legs[i].(status := OPEN).parent;
    }
  }

  /** A single takes any decisive grade; a parent only the one its legs settle at. The unforced plain INSERT never
      meets an existing grade row. */
  lemma {:induction false} ApplyGradeConsistent(db: Db, bet: nat, status: Status, profit: real, force: bool)
    requires Consistent(db) && bet < |db.bets| && !status.OPEN?
    requires db.bets[bet].isParlay ==>
               && NoOpenLeg(db, bet)
               && var s := ParentSettlement(db, bet);
                  s.Settled? && s.status == status && profit == ProfitLoss(status, StakeOf(db, bet), s.price)
    ensures var (db', claim) := ApplyGrade(db, bet, status, profit, force);
            Consistent(db') && !claim.Collision?
  {
    var (db', claim) := ApplyGrade(db, bet, status, profit, force);
    ApplyGradeEvolves(db, bet, status, profit, force);
    if claim.Applied? {
      RowsKept(db, db');
      forall i: nat | IsParlay(db', i) ensures ParentMatches(db', i) {
        if i != bet {
          ParentKept(db, db', i);
        } else {
          assert ParentMatches(db, i);
          LegOfStable(db, db', i);
          var leg: nat :| LegOf(db, i, leg);
          assert LegOf(db', i, leg);
          SettlementIsFinal(db, db', i);
          CarriesWhatSettles(db', i);
        }
      }
    }
  }

  lemma GradeLegConsistent(db: Db, leg: nat, status: Status)
    requires Consistent(db) && !status.OPEN?
    ensures Consistent(GradeLeg(db, leg, status).0)
  {
    var db' := GradeLeg(db, leg, status).0;
    GradeLegEvolves(db, leg, status);
    RowsKept(db, db');
    forall i: nat | IsParlay(db', i) ensures ParentMatches(db', i) {
      ParentKept(db, db', i);
    }
  }

  lemma {:induction false} InsertConsistent(db: Db, order: Order)
    requires Consistent(db) && ValidOrder(order)
    ensures Consistent(Insert(db, order.row, order.legs).0)
  {
    var (db', inserted) := Insert(db, order.row, order.legs);
    InsertEvolves(db, order.row, order.legs);
    FindKeyCorrect(db.bets, order.row.key);
    if inserted.Created? {
      forall i: nat | IsParlay(db', i) ensures ParentMatches(db', i) {
        if i < |db.bets| {
          ParentKept(db, db', i);
        } else {
          assert LegOf(db', i, |db.legs|);
        }
      }
      forall i | 0 <= i < |db'.legs| ensures IsParlay(db', db'.legs[i].parent) {
        if i < |db.legs| {
          assert IsParlay(db, db.legs[i].parent);
        }
      }
    }
  }

  // ---------- each process's step ----------

  lemma ClaimSingleSafe(db: Db, bet: nat, status: Status, force: bool)
    requires Consistent(db) && IsSingle(db, bet) && !status.OPEN?
    ensures var (db', claim) := GradeAt(db, bet, status, OddsOf(db, bet), force);
            Consistent(db') && Evolves(db, db') && !claim.Collision?
  {
    var profit := ProfitLoss(status, StakeOf(db, bet), OddsOf(db, bet));
    ApplyGradeConsistent(db, bet, status, profit, force);
    ApplyGradeEvolves(db, bet, status, profit, force);
  }

  lemma {:induction false} StepBetSafe(db: Db, p: Proc)
    requires p.GradeBets? && Consistent(db) && Ready(db, p)
    ensures var (db', p') := StepBet(db, p); Consistent(db') && Evolves(db, db') && Ready(db', p')
  {
    if p.bets != [] {
      var bet := p.bets[0];
      assert bet in p.bets;
      var outcome := Outcome(db.bets[bet].terms, p.job.feed);
      if outcome.Some? {
        OutcomeIsDecisive(db.bets[bet].terms, p.job.feed);
        ClaimSingleSafe(db, bet, outcome.value, false);
        ReadyStable(db, StepBet(db, p).0, p);
      }
    }
  }

  lemma {:induction false} StepLegSafe(db: Db, p: Proc)
    requires p.GradeLegs? && Consistent(db) && Ready(db, p)
    ensures var (db', p') := StepLeg(db, p); Consistent(db') && Evolves(db, db') && Ready(db', p')
  {
    if p.legs != [] {
      var leg := p.legs[0];
      assert leg in p.legs;
      assert forall l :: l in p.legs[1..] ==> l in p.legs;
      assert IsParlay(db, db.legs[leg].parent);
      var outcome := Outcome(db.legs[leg].terms, p.job.feed);
      if outcome.Some? {
        OutcomeIsDecisive(db.legs[leg].terms, p.job.feed);
        GradeLegConsistent(db, leg, outcome.value);
        GradeLegEvolves(db, leg, outcome.value);
        ReadyStable(db, StepLeg(db, p).0, p);
        var (db', p') := StepLeg(db, p);
        assert IsParlay(db', db.legs[leg].parent);
        assert forall q :: q in p'.parents ==> q in p.parents || q == db.legs[leg].parent;
      }
    }
  }

  /** Grading a parent with what its settled legs give. */
  lemma ClaimParentSafe(db: Db, parent: nat, status: Status, price: real, force: bool)
    requires Consistent(db) && IsParlay(db, parent) && NoOpenLeg(db, parent)
    requires ParentSettlement(db, parent) == Settled(status, price)
    ensures var (db', claim) := GradeAt(db, parent, status, price, force);
            Consistent(db') && Evolves(db, db') && !claim.Collision?
  {
    ParentSettles(db, parent);
    var profit := ProfitLoss(status, StakeOf(db, parent), price);
    ApplyGradeConsistent(db, parent, status, profit, force);
    ApplyGradeEvolves(db, parent, status, profit, force);
  }

  lemma StepParentReadSafe(db: Db, p: Proc)
    requires p.SettleParents? && !p.stage.ClaimParent? && Ready(db, p)
    ensures StepParent(db, p).0 == db && Ready(db, StepParent(db, p).1)
  {
    if p.parents != [] {
      assert p.parents[0] in p.parents;
      NoOpenLegs(db, p.parents[0]);
    }
  }

  /** The claiming step moves on to the remaining parents, which are still parlays. */
  lemma StepParentClaims(db: Db, parents: seq<nat>, status: Status, price: real, force: bool, graded: nat)
    requires parents != [] && forall q :: q in parents ==> IsParlay(db, q)
    requires Evolves(db, GradeAt(db, parents[0], status, price, force).0)
    requires !GradeAt(db, parents[0], status, price, force).1.Collision?
    ensures var (db', p') := StepParent(db, SettleParents(parents, ClaimParent(status, price), force, graded));
            db' == GradeAt(db, parents[0], status, price, force).0 && Ready(db', p')
  {
    var (db', claim) := GradeAt(db, parents[0], status, price, force);
    KindsStay(db, db');
    assert forall q :: q in parents[1..] ==> q in parents;
  }

  lemma StepParentSafe(db: Db, p: Proc)
    requires p.SettleParents? && Consistent(db) && Ready(db, p)
    ensures var (db', p') := StepParent(db, p); Consistent(db') && Evolves(db, db') && Ready(db', p')
  {
    if p.stage.ClaimParent? && p.parents != [] {
      assert p.parents[0] in p.parents;
      ClaimParentSafe(db, p.parents[0], p.stage.status, p.stage.price, p.force);
      StepParentClaims(db, p.parents, p.stage.status, p.stage.price, p.force, p.graded);
    } else {
      StepParentReadSafe(db, p);
    }
  }

  lemma StepPlacerSafe(db: Db, p: Proc)
    requires p.CheckBankroll? || p.InsertOrder?
    requires Consistent(db) && Ready(db, p)
    ensures var (db', p') := StepPlacer(db, p); Consistent(db') && Evolves(db, db') && Ready(db', p')
  {
    if p.InsertOrder? {
      InsertConsistent(db, p.order);
      InsertEvolves(db, p.order.row, p.order.legs);
    }
  }

  lemma StepManualFindSafe(db: Db, id: nat, feed: Option<Feed>, force: bool)
    ensures Ready(db, StepManualFind(db, id, feed, force))
  {
    if id < |db.bets| && feed.Some? {
      OutcomeIsDecisive(db.bets[id].terms, feed.value);
    }
  }

  lemma BetsWithGamesAreSingles(db: Db)
    requires RowsMatch(db)
    ensures forall bet: nat :: bet < |db.bets| && db.bets[bet].game.Some? ==> IsSingle(db, bet)
  {
  }

  lemma FindLegsSafe(db: Db, p: Proc, rows: seq<nat>)
    requires p.FindLegs? && Ready(db, p)
    ensures Ready(db, Advance(db, p, rows).1)
  {
    GradingOrderMembers(db, p.bets);
  }

  predicate Manual(p: Proc) {
    p.ManualFind? || p.ManualLegs? || p.ManualClaim?
  }

  lemma {:induction false} ManualStepSafe(db: Db, p: Proc, rows: seq<nat>)
    requires Consistent(db) && Ready(db, p) && Manual(p)
    ensures var (db', p') := Advance(db, p, rows); Consistent(db') && Evolves(db, db') && Ready(db', p')
  {
    if p.ManualFind? {
      StepManualFindSafe(db, p.bet, p.feed, p.force);
    } else if p.ManualClaim? {
      ClaimSingleSafe(db, p.bet, p.status, p.force);
    }
  }

  lemma {:induction false} QueryStepSafe(db: Db, p: Proc, rows: seq<nat>)
    requires Consistent(db) && Ready(db, p) && (p.FindBets? || p.FindLegs?)
    ensures var (db', p') := Advance(db, p, rows); Consistent(db') && Evolves(db, db') && Ready(db', p')
  {
    if p.FindBets? {
      BetsWithGamesAreSingles(db);
    } else {
      FindLegsSafe(db, p, rows);
    }
  }

  lemma {:induction false} AdvanceSafe(db: Db, p: Proc, rows: seq<nat>)
    requires Consistent(db) && Ready(db, p)
    ensures var (db', p') := Advance(db, p, rows); Consistent(db') && Evolves(db, db') && Ready(db', p')
  {
    if p.FindBets? || p.FindLegs? {
      QueryStepSafe(db, p, rows);
    } else if Manual(p) {
      ManualStepSafe(db, p, rows);
    } else if p.GradeBets? {
      StepBetSafe(db, p);
    } else if p.GradeLegs? {
      StepLegSafe(db, p);
    } else if p.SettleParents? {
      StepParentSafe(db, p);
    } else if p.CheckBankroll? || p.InsertOrder? {
      StepPlacerSafe(db, p);
    }
  }

  // ---------- every run ----------

  lemma {:induction false} ActSafe(s: Sys, a: Action)
    requires Safe(s)
    ensures Safe(Act(s, a)) && Evolves(s.db, Act(s, a).db)
  {
    match a
    case Spawn(_) =>
    case Kill(_) =>
    case Step(i, rows) =>
      if i < |s.procs| {
        AdvanceSafe(s.db, s.procs[i], rows);
        var s' := Act(s, a);
        forall j | 0 <= j < |s'.procs| ensures Ready(s'.db, s'.procs[j]) {
          if j != i {
            ReadyStable(s.db, s'.db, s.procs[j]);
          }
        }
      }
  }

  /** Protocol safety over every run: the tables stay consistent, every process's cached reads stay true, decided
      legs never change, no bet reopens and no immutable column moves. Forced calls and kills are allowed. */
  lemma {:induction false} RunSafe(s: Sys, actions: seq<Action>)
    requires Safe(s)
    ensures Safe(Run(s, actions)) && Evolves(s.db, Run(s, actions).db)
  {
    if actions != [] {
      var before := actions[..|actions| - 1];
      RunSafe(s, before);
      ActSafe(Run(s, before), actions[|actions| - 1]);
      EvolvesTransitive(s.db, Run(s, before).db, Run(s, actions).db);
    }
  }

  /** Branches that _settle_parlay_if_decided keeps only defensively are never taken: after a zero count of open legs
      the parent is found and its legs settle, and no claim collides with an existing grade row. */
  lemma DefensiveBranchesUnreachable(s: Sys, actions: seq<Action>, i: nat)
    requires Safe(s) && i < |Run(s, actions).procs|
    ensures var db, p := Run(s, actions).db, Run(s, actions).procs[i];
            && (p.SettleParents? && p.stage.FetchParent? ==> p.parents != [] && p.parents[0] < |db.bets|)
            && (p.SettleParents? && p.stage.FetchLegs? ==>
                  p.parents != [] && ParentSettlement(db, p.parents[0]).Settled?)
            && (forall bet: nat, status, profit :: !ApplyGrade(db, bet, status, profit, false).1.Collision?)
  {
    RunSafe(s, actions);
    var db, p := Run(s, actions).db, Run(s, actions).procs[i];
    assert Ready(db, p);
    if p.SettleParents? && !p.stage.CountLegs? {
      assert p.parents[0] in p.parents;
      ParentSettles(db, p.parents[0]);
    }
  }

  /** In every reachable state a graded parlay has no open leg and carries exactly what its leg rows earn. */
  lemma GradedParlayEarns(s: Sys, actions: seq<Action>, parent: nat)
    requires Safe(s)
    requires IsParlay(Run(s, actions).db, parent) && parent in Run(s, actions).db.grades
    ensures var db := Run(s, actions).db;
            Earns(db.legs, parent, db.bets[parent].stake, db.bets[parent].status, db.grades[parent].profit)
  {
    RunSafe(s, actions);
    assert ParentMatches(Run(s, actions).db, parent);
  }
}
