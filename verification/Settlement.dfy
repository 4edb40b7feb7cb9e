/** No settlement is lost: whoever claims a parlay's last open leg keeps the parent until it is graded. */
module Settlement {
  import opened Outcomes
  import opened Parlay
  import opened Tables
  import opened Protocol
  import opened Safety

  /** Every leg is decided, the parent is not graded yet. */
  ghost predicate AwaitsSettlement(db: Db, parent: nat) {
    IsParlay(db, parent) && OpenBet(db, parent) && NoOpenLeg(db, parent)
  }

  /** The process still has the parent on its list of parents to settle. */
  predicate Owes(p: Proc, parent: nat) {
    match p
    case GradeLegs(_, _, parents, _) => parent in parents
    case SettleParents(parents, _, _, _) => parent in parents
    case Killed(was) => Owes(was, parent)
    case _ => false
  }

  /** Somebody is responsible for every parent that awaits settlement. */
  ghost predicate Covered(s: Sys) {
    forall q: nat :: AwaitsSettlement(s.db, q) ==> exists i :: 0 <= i < |s.procs| && Owes(s.procs[i], q)
  }

  lemma GradeTouchesOne(db: Db, bet: nat, status: Status, price: real, force: bool, q: nat)
    requires !status.OPEN? && q < |db.bets|
    requires AwaitsSettlement(GradeAt(db, bet, status, price, force).0, q)
    ensures AwaitsSettlement(db, q)
    ensures GradeAt(db, bet, status, price, force).1 in {Applied, NotClaimed} ==> q != bet
  {
    var db' := GradeAt(db, bet, status, price, force).0;
    ApplyGradeEvolves(db, bet, status, ProfitLoss(status, StakeOf(db, bet), price), force);
    LegOfStable(db, db', q);
    forall leg: nat | LegOf(db, q, leg) ensures !OpenLeg(db, leg) {
      assert LegOf(db', q, leg);
    }
  }

  /** A step leaves no parent behind: one that awaits settlement afterwards and is not this process's own was
      already somebody else's. */
  lemma {:induction false} StepKeepsCover(db: Db, p: Proc, rows: seq<nat>, q: nat)
    requires Consistent(db) && Ready(db, p) && !Terminal(p)
    requires var (db', p') := Advance(db, p, rows); AwaitsSettlement(db', q) && !Owes(p', q)
    ensures AwaitsSettlement(db, q) && !Owes(p, q)
  {
    match p
    case GradeBets(job, bets, _, _) =>
      if bets != [] {
        assert bets[0] in bets;
        var bet := db.bets[bets[0]];
        var outcome := Grading.Outcome(bet.terms, job.feed);
        if outcome.Some? {
          Grading.OutcomeIsDecisive(bet.terms, job.feed);
          GradeTouchesOne(db, bets[0], outcome.value, bet.odds, false, q);
        }
      }
    case GradeLegs(_, _, _, _) => LegStepKeepsCover(db, p, q);
    case SettleParents(_, _, _, _) => ParentStepKeepsCover(db, p, q);
    case ManualClaim(id, status, force) =>
      if id < |db.bets| {
        GradeTouchesOne(db, id, status, OddsOf(db, id), force, q);
      }
    case InsertOrder(order) => InsertKeepsCover(db, order, q);
    case _ =>
  }

  lemma {:induction false} LegStepKeepsCover(db: Db, p: Proc, q: nat)
    requires Consistent(db) && Ready(db, p) && p.GradeLegs?
    requires var (db', p') := StepLeg(db, p); AwaitsSettlement(db', q) && !Owes(p', q)
    ensures AwaitsSettlement(db, q) && !Owes(p, q)
  {
    var (db', p') := StepLeg(db, p);
    if p.legs != [] {
      StepLegSafe(db, p);
      LegOfStable(db, db', q);
      forall leg: nat | LegOf(db, q, leg) ensures !OpenLeg(db, leg) {
        assert LegOf(db', q, leg) && !OpenLeg(db', leg);
      }
    }
  }

  lemma {:induction false} ParentStepKeepsCover(db: Db, p: Proc, q: nat)
    requires Consistent(db) && Ready(db, p) && p.SettleParents?
    requires var (db', p') := StepParent(db, p); AwaitsSettlement(db', q) && !Owes(p', q)
    ensures AwaitsSettlement(db, q) && !Owes(p, q)
  {
    if p.parents != [] {
      var parent := p.parents[0];
      assert parent in p.parents;
      assert forall x :: x in p.parents ==> x == parent || x in p.parents[1..];
      match p.stage
      case CountLegs => NoOpenLegs(db, parent);
      case FetchParent =>
      case FetchLegs => ParentSettles(db, parent);
      case ClaimParent(status, price) =>
        ParentSettles(db, parent);
        ClaimParentSafe(db, parent, status, price, p.force);
        GradeTouchesOne(db, parent, status, price, p.force, q);
    }
  }

  lemma InsertKeepsCover(db: Db, order: Order, q: nat)
    requires Consistent(db) && ValidOrder(order)
    requires AwaitsSettlement(Insert(db, order.row, order.legs).0, q)
    ensures AwaitsSettlement(db, q)
  {
    var (db', inserted) := Insert(db, order.row, order.legs);
    if inserted.Created? {
      InsertEvolves(db, order.row, order.legs);
      if q == |db.bets| {
        assert LegOf(db', q, |db.legs|) && OpenLeg(db', |db.legs|);
      } else {
        LegOfStable(db, db', q);
        forall leg: nat | LegOf(db, q, leg) ensures !OpenLeg(db, leg) {
          assert LegOf(db', q, leg);
        }
      }
    }
  }

  lemma {:induction false} ActCovered(s: Sys, a: Action)
    requires Safe(s) && Covered(s)
    ensures Covered(Act(s, a))
  {
    var s' := Act(s, a);
    forall q: nat | AwaitsSettlement(s'.db, q) ensures exists i :: 0 <= i < |s'.procs| && Owes(s'.procs[i], q) {
      match a
      case Spawn(_) =>
        var i :| 0 <= i < |s.procs| && Owes(s.procs[i], q);
        assert Owes(s'.procs[i], q);
      case Kill(k) =>
        var i :| 0 <= i < |s.procs| && Owes(s.procs[i], q);
        assert Owes(s'.procs[i], q);
      case Step(k, rows) =>
        if k < |s.procs| && !Terminal(s.procs[k]) {
          if !Owes(s'.procs[k], q) {
            StepKeepsCover(s.db, s.procs[k], rows, q);
            var i :| 0 <= i < |s.procs| && Owes(s.procs[i], q);
            assert Owes(s'.procs[i], q);
          }
        } else {
          var i :| 0 <= i < |s.procs| && Owes(s.procs[i], q);
          assert Owes(s'.procs[i], q);
        }
    }
  }

  /** In every reachable state a parlay that is open with no open leg is pending in some grader (a killed one keeps
      what it still owed). */
  lemma {:induction false} RunCovered(s: Sys, actions: seq<Action>)
    requires Safe(s) && Covered(s)
    ensures Covered(Run(s, actions))
  {
    if actions != [] {
      var before := actions[..|actions| - 1];
      RunCovered(s, before);
      RunSafe(s, before);
      ActCovered(Run(s, before), actions[|actions| - 1]);
    }
  }

  ghost predicate Finished(s: Sys) {
    forall i :: 0 <= i < |s.procs| ==> s.procs[i].Done? || s.procs[i].Raised?
  }

  /** Once every process has returned or raised, every fully decided parlay is graded with what its legs settle at. */
  lemma NoLostSettlement(s: Sys, actions: seq<Action>, parent: nat)
    requires Safe(s) && Covered(s)
    requires Finished(Run(s, actions))
    requires IsParlay(Run(s, actions).db, parent) && NoOpenLeg(Run(s, actions).db, parent)
    ensures CarriesSettlement(Run(s, actions).db, parent)
  {
    var t := Run(s, actions);
    RunCovered(s, actions);
    RunSafe(s, actions);
    assert ParentMatches(t.db, parent);
    if t.db.bets[parent].status.OPEN? {
      assert AwaitsSettlement(t.db, parent);
    }
  }

  // ---------- what a killed grader leaves behind ----------

  /** A manual call on the parent is under way, or the parent is graded. */
  ghost predicate Rescue(db: Db, p: Proc, parent: nat) {
    || (IsParlay(db, parent) && !OpenBet(db, parent))
    || p.Killed?
    || (AwaitsSettlement(db, parent) &&
          match p
          case ManualFind(bet, _, _) => bet == parent
          case ManualLegs(bet, _) => bet == parent
          case SettleParents(parents, _, _, _) => parent in parents
          case _ => false)
  }

  lemma RescueStable(before: Db, after: Db, p: Proc, parent: nat)
    requires Evolves(before, after) && Rescue(before, p, parent)
    ensures Rescue(after, p, parent)
  {
    if IsParlay(before, parent) {
      assert after.bets[parent].(status := OPEN).isParlay == before.bets[parent].(status := OPEN).isParlay;
      if NoOpenLeg(before, parent) {
        SettlementIsFinal(before, after, parent);
      }
    }
  }

  lemma {:induction false} RescueParentStep(db: Db, p: Proc, parent: nat)
    requires Consistent(db) && Ready(db, p) && p.SettleParents?
    requires AwaitsSettlement(db, parent) && Owes(p, parent)
    ensures var (db', p') := StepParent(db, p); Rescue(db', p', parent)
  {
    var (db', p') := StepParent(db, p);
    StepParentSafe(db, p);
    RescueStable(db, db', p, parent);
    if AwaitsSettlement(db', parent) && !Owes(p', parent) {
      ParentStepKeepsCover(db, p, parent);
    }
  }

  lemma RescueStep(db: Db, p: Proc, rows: seq<nat>, parent: nat)
    requires Consistent(db) && Ready(db, p) && !Terminal(p) && Rescue(db, p, parent)
    ensures var (db', p') := Advance(db, p, rows); Rescue(db', p', parent)
  {
    if !OpenBet(db, parent) {
      AdvanceSafe(db, p, rows);
      RescueStable(db, Advance(db, p, rows).0, Done(0), parent);
    } else if p.SettleParents? {
      RescueParentStep(db, p, parent);
    } else {
      NoOpenLegs(db, parent);
    }
  }

  lemma {:induction false} RescueAct(s: Sys, a: Action, i: nat, parent: nat)
    requires Safe(s) && i < |s.procs| && Rescue(s.db, s.procs[i], parent)
    ensures i < |Act(s, a).procs| && Rescue(Act(s, a).db, Act(s, a).procs[i], parent)
  {
    ActSafe(s, a);
    if a.Step? && a.i == i && !Terminal(s.procs[i]) {
      RescueStep(s.db, s.procs[i], a.rows, parent);
    } else {
      RescueStable(s.db, Act(s, a).db, s.procs[i], parent);
    }
  }

  /** Whatever runs beside it, one manual call made on a parlay that awaits settlement leaves it graded with what its
      legs settle at, if the call itself is not killed. */
  lemma ManualCallSettles(s: Sys, actions: seq<Action>, i: nat, parent: nat)
    requires Safe(s) && i < |s.procs| && AwaitsSettlement(s.db, parent)
    requires s.procs[i].ManualFind? && s.procs[i].bet == parent
    ensures var t := Run(s, actions);
            && i < |t.procs| && parent < |t.db.bets|
            && (t.procs[i].Done? || t.procs[i].Raised? ==> CarriesSettlement(t.db, parent))
  {
    var t := Run(s, actions);
    RescueRun(s, actions, i, parent);
    RunSafe(s, actions);
    if t.procs[i].Done? || t.procs[i].Raised? {
      assert ParentMatches(t.db, parent);
    }
  }

  lemma {:induction false} RescueRun(s: Sys, actions: seq<Action>, i: nat, parent: nat)
    requires Safe(s) && i < |s.procs| && Rescue(s.db, s.procs[i], parent)
    ensures i < |Run(s, actions).procs| && Rescue(Run(s, actions).db, Run(s, actions).procs[i], parent)
  {
    if actions != [] {
      var before := actions[..|actions| - 1];
      RescueRun(s, before, i, parent);
      RunSafe(s, before);
      RescueAct(Run(s, before), actions[|actions| - 1], i, parent);
    }
  }

  lemma RunOneMore(s: Sys, actions: seq<Action>, a: Action)
    ensures Run(s, actions + [a]) == Act(Run(s, actions), a)
  {
    assert (actions + [a])[..|actions + [a]| - 1] == actions;
  }

  /** s after process i alone has made n steps. */
  ghost function Alone(s: Sys, i: nat, n: nat): Sys {
    Run(s, seq(n, _ => Step(i, [])))
  }

  lemma AloneStep(s: Sys, i: nat, n: nat, from: (Db, Proc), to: (Db, Proc))
    requires i < |s.procs| && Alone(s, i, n) == Sys(from.0, s.procs[i := from.1])
    requires Advance(from.0, from.1, []) == to
    ensures Alone(s, i, n + 1) == Sys(to.0, s.procs[i := to.1])
  {
    assert seq(n + 1, _ => Step(i, [])) == seq(n, _ => Step(i, [])) + [Step(i, [])];
    RunOneMore(s, seq(n, _ => Step(i, [])), Step(i, []));
  }

  /** The states such a manual call passes through. */
  function ManualStage(db: Db, parent: nat, feed: Option<Grading.Feed>, force: bool, n: nat): (Db, Proc)
    requires parent < |db.bets|
  {
    var settled := ParentSettlement(db, parent);
    if n == 0 then (db, ManualFind(parent, feed, force))
    else if n == 1 then (db, ManualLegs(parent, force))
    else if n == 2 then (db, SettleParents([parent], CountLegs, force, 0))
    else if n == 3 then (db, SettleParents([parent], FetchParent, force, 0))
    else if n == 4 then (db, SettleParents([parent], FetchLegs, force, 0))
    else if !settled.Settled? then (db, Raised(0))
    else if n == 5 then (db, SettleParents([parent], ClaimParent(settled.status, settled.price), force, 0))
    else
      (GradeAt(db, parent, settled.status, settled.price, force).0,
       if n == 6 then SettleParents([], CountLegs, force, 1) else Done(1))
  }

  lemma {:induction false} ReadsAdvance(db: Db, parent: nat, feed: Option<Grading.Feed>, force: bool, n: nat)
    requires AwaitsSettlement(db, parent) && n < 5
    ensures var from := ManualStage(db, parent, feed, force, n);
            Advance(from.0, from.1, []) == ManualStage(db, parent, feed, force, n + 1)
  {
    NoOpenLegs(db, parent);
    ParentSettles(db, parent);
  }

  lemma ClaimAdvances(db: Db, parent: nat, status: Status, price: real, force: bool)
    requires OpenBet(db, parent)
    requires force || parent !in db.grades
    ensures StepParent(db, SettleParents([parent], ClaimParent(status, price), force, 0))
         == (GradeAt(db, parent, status, price, force).0,
             SettleParents([], CountLegs, force, 1))
  {
    assert [parent][1..] == [];
  }

  lemma {:induction false} ManualStageAdvances(db: Db, parent: nat, feed: Option<Grading.Feed>, force: bool, n: nat)
    requires GradesMatch(db) && AwaitsSettlement(db, parent) && n < 7
    ensures var from := ManualStage(db, parent, feed, force, n);
            Advance(from.0, from.1, []) == ManualStage(db, parent, feed, force, n + 1)
  {
    ParentSettles(db, parent);
    if n < 5 {
      ReadsAdvance(db, parent, feed, force, n);
    } else if n == 5 {
      var settled := ParentSettlement(db, parent);
      ClaimAdvances(db, parent, settled.status, settled.price, force);
    }
  }

  lemma {:induction false} ManualAloneAt(s: Sys, i: nat, parent: nat, n: nat)
    requires Safe(s) && i < |s.procs| && AwaitsSettlement(s.db, parent) && n <= 7
    requires s.procs[i].ManualFind? && s.procs[i].bet == parent
    ensures var at := ManualStage(s.db, parent, s.procs[i].feed, s.procs[i].force, n);
            Alone(s, i, n) == Sys(at.0, s.procs[i := at.1])
  {
    if n > 0 {
      var feed, force := s.procs[i].feed, s.procs[i].force;
      ManualAloneAt(s, i, parent, n - 1);
      ManualStageAdvances(s.db, parent, feed, force, n - 1);
      AloneStep(s, i, n - 1, ManualStage(s.db, parent, feed, force, n - 1), ManualStage(s.db, parent, feed, force, n));
    }
  }

  /** Run alone, that manual call returns after seven steps, having claimed the parent itself. */
  lemma ManualCallAlone(s: Sys, i: nat, parent: nat)
    requires Safe(s) && i < |s.procs| && AwaitsSettlement(s.db, parent)
    requires s.procs[i].ManualFind? && s.procs[i].bet == parent
    ensures var t := Alone(s, i, 7);
            i < |t.procs| && t.procs[i] == Done(1) && parent < |t.db.bets| && CarriesSettlement(t.db, parent)
  {
    ParentSettles(s.db, parent);
    ManualAloneAt(s, i, parent, 7);
    ManualCallSettles(s, seq(7, _ => Step(i, [])), i, parent);
  }
}
