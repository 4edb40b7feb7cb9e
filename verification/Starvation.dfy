/** What "no step raises" costs when it fails: one open score bet that cannot be graded stops every grader of its game
    before the parlay legs, for ever. */
module Starvation {
  import opened Outcomes
  import opened Grading
  import opened Tables
  import opened Protocol
  import opened Safety
  import opened Bankroll

  /** An open single on a score market of this game. */
  ghost predicate Blocker(db: Db, game: nat, bet: nat) {
    OpenBetOn(db, game, bet) && IsSingle(db, bet) && !IsProp(db.bets[bet].terms.market)
  }

  /** No call brings a feed this bet could be graded from. */
  predicate CannotGrade(terms: Terms, game: nat, bet: nat, call: Proc) {
    match call
    case FindBets(job) => job.game == game ==> Outcome(terms, job.feed).None?
    case ManualFind(id, feed, _) => id == bet && feed.Some? ==> Outcome(terms, feed.value).None?
    case _ => true
  }

  /** The process cannot get past the blocker: it still has it queued, or never works on this game's legs. */
  ghost predicate Stuck(db: Db, terms: Terms, game: nat, bet: nat, p: Proc) {
    match p
    case FindBets(_) => CannotGrade(terms, game, bet, p)
    case ManualFind(_, _, _) => CannotGrade(terms, game, bet, p)
    case FindLegs(job, bets) =>
      if job.game == game then Outcome(terms, job.feed).None? && bet in bets else bet !in bets
    case GradeBets(job, bets, legs, _) =>
      && (if job.game == game then Outcome(terms, job.feed).None? && bet in bets else bet !in bets)
      && (forall leg :: leg in legs ==> leg < |db.legs| && db.legs[leg].game == Some(job.game))
    case GradeLegs(job, legs, _, _) =>
      job.game != game && (forall leg :: leg in legs ==> leg < |db.legs| && db.legs[leg].game == Some(job.game))
    case ManualClaim(id, _, _) => id != bet
    case _ => true
  }

  lemma StuckStable(before: Db, after: Db, terms: Terms, game: nat, bet: nat, p: Proc)
    requires Evolves(before, after) && Stuck(before, terms, game, bet, p)
    ensures Stuck(after, terms, game, bet, p)
  {
    forall leg: nat | leg < |before.legs| ensures after.legs[leg].game == before.legs[leg].game {
      assert after.legs[leg].(status := OPEN).game == before.legs[leg].(status := OPEN).game;
    }
  }

  /** The effect leaves the blocker and the legs of its game alone. */
  ghost predicate Spares(db: Db, game: nat, bet: nat, e: Effect) {
    match e
    case Graded(id, _, _, _) => id != bet
    case LegGraded(leg, _) => leg < |db.legs| && db.legs[leg].game != Some(game)
    case _ => true
  }

  lemma StuckSpares(db: Db, game: nat, bet: nat, p: Proc)
    requires Consistent(db) && Ready(db, p) && Blocker(db, game, bet)
    requires Stuck(db, db.bets[bet].terms, game, bet, p)
    ensures Spares(db, game, bet, EffectOf(db, p))
  {
    match p
    case GradeBets(_, bets, _, _) => assert bets != [] ==> bets[0] in bets;
    case GradeLegs(_, legs, _, _) => assert legs != [] ==> legs[0] in legs;
    case SettleParents(parents, _, _, _) => assert parents != [] ==> parents[0] in parents;
    case _ =>
  }

  lemma SparedRows(db: Db, game: nat, bet: nat, e: Effect)
    requires Blocker(db, game, bet) && Spares(db, game, bet, e)
    ensures var db' := Effects(db, e);
            && bet < |db'.bets| && db'.bets[bet] == db.bets[bet] && |db.legs| <= |db'.legs|
            && forall leg :: 0 <= leg < |db.legs| && db.legs[leg].game == Some(game) ==> db'.legs[leg] == db.legs[leg]
  {
  }

  lemma QueriesStuck(db: Db, game: nat, bet: nat, p: Proc, rows: seq<nat>)
    requires Blocker(db, game, bet) && Stuck(db, db.bets[bet].terms, game, bet, p)
    requires p.FindBets? || p.FindLegs?
    ensures Stuck(db, db.bets[bet].terms, game, bet, Advance(db, p, rows).1)
  {
    if p.FindLegs? {
      GradingOrderMembers(db, p.bets);
    }
  }

  lemma StepBetStuck(db: Db, game: nat, bet: nat, p: Proc)
    requires p.GradeBets? && Ready(db, p) && Blocker(db, game, bet)
    requires Stuck(db, db.bets[bet].terms, game, bet, p)
    ensures Stuck(db, db.bets[bet].terms, game, bet, StepBet(db, p).1)
  {
    if p.bets != [] {
      assert p.bets[0] in p.bets;
      assert forall b :: b in p.bets[1..] ==> b in p.bets;
      assert bet in p.bets && bet != p.bets[0] ==> bet in p.bets[1..];
    }
  }

  lemma StepLegStuck(db: Db, game: nat, bet: nat, p: Proc)
    requires p.GradeLegs? && Blocker(db, game, bet) && Stuck(db, db.bets[bet].terms, game, bet, p)
    ensures Stuck(db, db.bets[bet].terms, game, bet, StepLeg(db, p).1)
  {
    if p.legs != [] {
      assert forall l :: l in p.legs[1..] ==> l in p.legs;
    }
  }

  lemma RestStuck(db: Db, game: nat, bet: nat, p: Proc, rows: seq<nat>)
    requires Blocker(db, game, bet) && Stuck(db, db.bets[bet].terms, game, bet, p)
    requires !p.FindBets? && !p.FindLegs? && !p.GradeBets? && !p.GradeLegs?
    ensures Stuck(db, db.bets[bet].terms, game, bet, Advance(db, p, rows).1)
  {
    var p' := Advance(db, p, rows).1;
    match p
    case SettleParents(_, _, _, _) => assert p'.SettleParents? || p'.Done? || p'.Raised?;
    case ManualFind(_, _, _) => assert p'.ManualLegs? || p'.ManualClaim? || p'.Raised?;
    case ManualLegs(_, _) => assert p'.SettleParents? || p'.Raised?;
    case ManualClaim(_, _, _) => assert p'.Done? || p'.Raised?;
    case CheckBankroll(_) => assert p'.InsertOrder? || p'.Raised?;
    case InsertOrder(_) => assert p'.Done? || p'.Raised?;
    case _ =>
  }

  lemma {:induction false} AdvanceStuck(db: Db, game: nat, bet: nat, p: Proc, rows: seq<nat>)
    requires Consistent(db) && Ready(db, p) && Blocker(db, game, bet)
    requires Stuck(db, db.bets[bet].terms, game, bet, p)
    ensures Stuck(db, db.bets[bet].terms, game, bet, Advance(db, p, rows).1)
  {
    if p.FindBets? || p.FindLegs? {
      QueriesStuck(db, game, bet, p, rows);
    } else if p.GradeBets? {
      StepBetStuck(db, game, bet, p);
    } else if p.GradeLegs? {
      StepLegStuck(db, game, bet, p);
    } else {
      RestStuck(db, game, bet, p, rows);
    }
  }

  ghost predicate Starved(s: Sys, game: nat, bet: nat) {
    && Blocker(s.db, game, bet)
    && forall i :: 0 <= i < |s.procs| ==> Stuck(s.db, s.db.bets[bet].terms, game, bet, s.procs[i])
  }

  lemma {:induction false} ActStarved(s: Sys, a: Action, game: nat, bet: nat)
    requires Safe(s) && Starved(s, game, bet)
    requires a.Spawn? ==> CannotGrade(s.db.bets[bet].terms, game, bet, a.p)
    ensures var s' := Act(s, a);
            && Starved(s', game, bet) && s'.db.bets[bet] == s.db.bets[bet] && |s.db.legs| <= |s'.db.legs|
            && forall leg :: 0 <= leg < |s.db.legs| && s.db.legs[leg].game == Some(game) ==>
                 s'.db.legs[leg] == s.db.legs[leg]
  {
    if a.Step? && a.i < |s.procs| {
      var p := s.procs[a.i];
      AdvanceEffect(s.db, p, a.rows);
      StuckSpares(s.db, game, bet, p);
      SparedRows(s.db, game, bet, EffectOf(s.db, p));
      AdvanceStuck(s.db, game, bet, p, a.rows);
      ActSafe(s, a);
      var s' := Act(s, a);
      forall i | 0 <= i < |s'.procs| ensures Stuck(s'.db, s'.db.bets[bet].terms, game, bet, s'.procs[i]) {
        StuckStable(s.db, s'.db, s.db.bets[bet].terms, game, bet, s'.procs[i]);
      }
    }
  }

  /** While one open score bet of a game cannot be graded, no run settles any parlay leg of that game: every grader
      raises on the bet before it reaches the legs, however often the event or the poller retries, and a manual or
      forced call on the bet raises too. */
  lemma {:induction false} OneBadBetStarvesTheGame(db: Db, actions: seq<Action>, game: nat, bet: nat)
    requires Consistent(db) && Blocker(db, game, bet)
    requires forall i :: 0 <= i < |actions| && actions[i].Spawn? ==>
               CannotGrade(db.bets[bet].terms, game, bet, actions[i].p)
    ensures var s := Run(Sys(db, []), actions);
            && Starved(s, game, bet) && s.db.bets[bet] == db.bets[bet] && |db.legs| <= |s.db.legs|
            && forall leg :: 0 <= leg < |db.legs| && db.legs[leg].game == Some(game) ==>
                 s.db.legs[leg] == db.legs[leg]
  {
    if actions != [] {
      var before := actions[..|actions| - 1];
      OneBadBetStarvesTheGame(db, before, game, bet);
      RunSafe(Sys(db, []), before);
      ActStarved(Run(Sys(db, []), before), actions[|actions| - 1], game, bet);
    }
  }

  /** Score terms that every result grades; the rest no result grades. */
  predicate Gradeable(terms: Terms) {
    && terms.market in {SPREAD, TOTAL, MONEYLINE} && terms.side.Some?
    && (terms.side.value.DRAW? ==> terms.market.MONEYLINE? && IsSoccer(terms.league))
  }

  /** Whether a score bet can be graded shows in its terms alone, before any game is played. */
  lemma UngradeableExactly(terms: Terms, feed: Feed)
    requires !IsProp(terms.market)
    ensures Outcome(terms, feed).None? <==> !Gradeable(terms)
  {
  }

  /** Such a bet exists: the draw of a two-way moneyline passes the request validation of a placement, and no result
      grades it. */
  lemma DrawOnTwoWayMoneylineIsUngradeable(line: Option<real>, feed: Feed)
    ensures Outcome(Terms(NBA, MONEYLINE, Some(DRAW), line, None, None, None), feed).None?
  {
  }

  /** The terms of one stored bet are enough: whatever the feeds, calls and interleavings, an open score bet with
      ungradeable terms stays open and keeps every parlay leg of its game as it is. */
  lemma UngradeableTermsStarveTheGame(db: Db, actions: seq<Action>, game: nat, bet: nat)
    requires Consistent(db) && Blocker(db, game, bet) && !Gradeable(db.bets[bet].terms)
    ensures var s := Run(Sys(db, []), actions);
            && Starved(s, game, bet) && s.db.bets[bet] == db.bets[bet] && |db.legs| <= |s.db.legs|
            && forall leg :: 0 <= leg < |db.legs| && db.legs[leg].game == Some(game) ==>
                 s.db.legs[leg] == db.legs[leg]
  {
    forall feed ensures Outcome(db.bets[bet].terms, feed).None? {
      UngradeableExactly(db.bets[bet].terms, feed);
    }
    OneBadBetStarvesTheGame(db, actions, game, bet);
  }

  // ---------- legs that nothing grades ----------

  predicate KnownStat(stat: Option<string>) {
    stat.Some? && StatFields(stat.value).Some?
  }

  /** The side belongs to the prop type, or to the one inferred from it. */
  predicate SideFits(propType: Option<PropType>, side: Side) {
    match propType
    case Some(YES_NO) => side in {YES, NO}
    case Some(OVER_UNDER) => side in {OVER, UNDER}
    case None => side in {YES, NO, OVER, UNDER}
  }

  /** Terms that at least one result or box score grades. */
  predicate SomeFeedGrades(terms: Terms) {
    if IsProp(terms.market) then
      && terms.market.PLAYER_PROP? && terms.side.Some? && SideFits(terms.propType, terms.side.value)
      && terms.player !in {None, Some("")} && KnownStat(terms.stat)
    else Gradeable(terms)
  }

  lemma {:induction false} ExtractZeros(fields: seq<string>, line: map<string, real>)
    requires forall f :: f in fields ==> f in line
    ensures ExtractStat(fields, line).Some?
  {
    if fields != [] {
      ExtractZeros(fields[1..], line);
    }
  }

  lemma OneLineGrades(terms: Terms)
    requires terms.market.PLAYER_PROP? && SomeFeedGrades(terms)
    ensures exists feed :: Outcome(terms, feed).Some?
  {
    var fields := StatFields(terms.stat.value).value;
    var zeros := map f | f in fields :: 0.0;
    var line := PlayerLine(terms.player.value, zeros);
    ExtractZeros(fields, zeros);
    assert FindPlayerLine([line] + [], terms.player.value) == Some(line);
    assert Outcome(terms, Feed(GameResult(0, 0, None, None), Some(Box([line], [])))).Some?;
  }

  /** Whether anything at all could grade a bet or leg shows in its terms alone. */
  lemma NeverGradedExactly(terms: Terms)
    ensures (forall feed :: Outcome(terms, feed).None?) <==> !SomeFeedGrades(terms)
  {
    if SomeFeedGrades(terms) {
      if terms.market.PLAYER_PROP? {
        OneLineGrades(terms);
      } else {
        UngradeableExactly(terms, Feed(GameResult(0, 0, None, None), None));
      }
    }
  }

  /** A parlay waits for such a leg. */
  ghost predicate Waits(db: Db, leg: nat, row: Leg) {
    leg < |db.legs| && db.legs[leg] == row && row.status.OPEN? && !SomeFeedGrades(row.terms)
  }

  lemma {:induction false} ActWaits(s: Sys, a: Action, leg: nat, row: Leg)
    requires Safe(s) && Waits(s.db, leg, row)
    ensures Waits(Act(s, a).db, leg, row)
  {
    if a.Step? && a.i < |s.procs| {
      NeverGradedExactly(row.terms);
      AdvanceEffect(s.db, s.procs[a.i], a.rows);
      var e := EffectOf(s.db, s.procs[a.i]);
      assert e.LegGraded? ==> e.leg != leg;
    }
  }

  lemma WaitingParentIsOpen(db: Db, leg: nat, row: Leg)
    requires Consistent(db) && Waits(db, leg, row)
    ensures OpenBet(db, row.parent) && IsParlay(db, row.parent)
  {
    assert IsParlay(db, row.parent) && ParentMatches(db, row.parent);
    assert LegOf(db, row.parent, leg);
  }

  /** A parlay with one open leg that nothing grades never settles: over every run, forced calls included, it stays open
      and its stake stays in the open exposure. */
  lemma {:induction false} UngradeableLegKeepsParlayOpen(s: Sys, actions: seq<Action>, leg: nat, row: Leg)
    requires Safe(s) && Waits(s.db, leg, row)
    ensures var db := Run(s, actions).db;
            && Waits(db, leg, row) && OpenBet(db, row.parent)
            && StakeAtRisk(db, row.parent) == StakeAtRisk(s.db, row.parent)
  {
    RunSafe(s, actions);
    if actions != [] {
      var n := |actions| - 1;
      UngradeableLegKeepsParlayOpen(s, actions[..n], leg, row);
      RunSafe(s, actions[..n]);
      ActWaits(Run(s, actions[..n]), actions[n], leg, row);
    }
    WaitingParentIsOpen(s.db, leg, row);
    WaitingParentIsOpen(Run(s, actions).db, leg, row);
    var q := row.parent;
    assert Run(s, actions).db.bets[q].(status := OPEN).stake == s.db.bets[q].(status := OPEN).stake;
  }
}
