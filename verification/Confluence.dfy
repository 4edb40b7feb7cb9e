/** Confluence: with a fixed set of bets and one result per game, every finished run ends with the same tables,
    those of a one-pass specification over the games that were delivered. */
module Confluence {
  import opened Numeric
  import opened Outcomes
  import opened Grading
  import opened Parlay
  import opened Tables
  import opened Protocol
  import opened Safety
  import opened Settlement
  import opened Bankroll

  // ---------- what a call delivers ----------

  /** A feed that tells the truth about a game; its box score may not have landed yet. */
  predicate Faithful(truth: Feed, feed: Feed) {
    feed.result == truth.result && (feed.box.None? || feed.box == truth.box)
  }

  function GameOf(db: Db, bet: nat): Option<nat> {
    if bet < |db.bets| then db.bets[bet].game else None
  }

  /** The call can grade this single bet. */
  ghost predicate TargetsBet(db: Db, call: Proc, bet: nat) {
    IsSingle(db, bet) &&
    match call
    case FindBets(job) => GameOf(db, bet) == Some(job.game) && Outcome(db.bets[bet].terms, job.feed).Some?
    case ManualFind(id, feed, _) =>
      id == bet && GameOf(db, bet).Some? && feed.Some? && Outcome(db.bets[bet].terms, feed.value).Some?
    case _ => false
  }

  /** The call can grade this leg. */
  ghost predicate TargetsLeg(db: Db, call: Proc, leg: nat) {
    leg < |db.legs| && call.FindBets? && db.legs[leg].game == Some(call.job.game)
    && Outcome(db.legs[leg].terms, call.job.feed).Some?
  }

  ghost predicate BetDelivered(db: Db, calls: seq<Proc>, bet: nat) {
    exists i :: 0 <= i < |calls| && TargetsBet(db, calls[i], bet)
  }

  ghost predicate LegDelivered(db: Db, calls: seq<Proc>, leg: nat) {
    exists i :: 0 <= i < |calls| && TargetsLeg(db, calls[i], leg)
  }

  /** An unforced call whose feed is the truth about its game, and none of whose open score bets raises. */
  ghost predicate Regular(db: Db, world: nat -> Feed, call: Proc) {
    match call
    case FindBets(job) =>
      && Faithful(world(job.game), job.feed)
      && (forall bet: nat :: OpenBetOn(db, job.game, bet) && !IsProp(db.bets[bet].terms.market) ==>
            Outcome(db.bets[bet].terms, job.feed).Some?)
    case ManualFind(bet, feed, force) =>
      !force && (feed.Some? && GameOf(db, bet).Some? ==> Faithful(world(GameOf(db, bet).value), feed.value))
    case _ => false
  }

  /** Only such calls start, and none is killed. */
  ghost predicate RegularActions(db: Db, world: nat -> Feed, actions: seq<Action>) {
    forall i :: 0 <= i < |actions| ==>
      !actions[i].Kill? && (actions[i].Spawn? ==> Regular(db, world, actions[i].p))
  }

  function Calls(actions: seq<Action>): seq<Proc> {
    if actions == [] then []
    else
      var last := actions[|actions| - 1];
      Calls(actions[..|actions| - 1]) + if last.Spawn? then [last.p] else []
  }

  // ---------- the one-pass specification ----------

  function StatusFrom(terms: Terms, feed: Feed): Status {
    var outcome := Outcome(terms, feed);
    if outcome.Some? then outcome.value else OPEN
  }

  ghost function FinalLeg(db: Db, world: nat -> Feed, calls: seq<Proc>, leg: nat): Leg
    requires leg < |db.legs|
  {
    var row := db.legs[leg];
    if OpenLeg(db, leg) && LegDelivered(db, calls, leg) && row.game.Some?
    then row.(status := StatusFrom(row.terms, world(row.game.value))) else row
  }

  ghost function FinalLegs(db: Db, world: nat -> Feed, calls: seq<Proc>): seq<Leg> {
    seq(|db.legs|, leg requires 0 <= leg < |db.legs| => FinalLeg(db, world, calls, leg))
  }

  /** The grade of a delivered single: status and price. */
  ghost function SingleGrade(db: Db, world: nat -> Feed, calls: seq<Proc>, bet: nat): (Status, real)
    requires bet < |db.bets|
  {
    var row := db.bets[bet];
    if BetDelivered(db, calls, bet) && row.game.Some? then
      (StatusFrom(row.terms, world(row.game.value)), row.odds)
    else (OPEN, 0.0)
  }

  /** A bet whose status is OPEN has no grade. */
  ghost predicate StaysOpen(after: Db, bet: nat)
    requires bet < |after.bets|
  {
    after.bets[bet].status.OPEN? && bet !in after.grades
  }

  /** Where one bet ends: untouched if it was graded before; a single at the grade its game gives it; a parlay open
      while one of its legs ends open, else at what its legs' final rows earn. */
  ghost predicate EndsAsSpecified(before: Db, world: nat -> Feed, calls: seq<Proc>, after: Db, bet: nat)
    requires bet < |before.bets| && bet < |after.bets|
  {
    if !OpenBet(before, bet) then
      && after.bets[bet] == before.bets[bet]
      && (bet in after.grades <==> bet in before.grades)
      && (bet in before.grades ==> after.grades[bet] == before.grades[bet])
    else if before.bets[bet].isParlay then
      && after.bets[bet] == before.bets[bet].(status := after.bets[bet].status)
      && ParlayEnds(FinalLegs(before, world, calls), after, bet)
    else
      var (status, price) := SingleGrade(before, world, calls, bet);
      && after.bets[bet] == before.bets[bet].(status := status)
      && (bet in after.grades <==> !status.OPEN?)
      && (bet in after.grades ==>
            after.grades[bet] == Grade(Numeric4(ProfitLoss(status, StakeOf(before, bet), price))))
  }

  ghost predicate ParlayEnds(legs: seq<Leg>, after: Db, bet: nat)
    requires bet < |after.bets|
  {
    if HasLeg(legs, bet, OPEN) then StaysOpen(after, bet)
    else
      && bet in after.grades
      && Earns(legs, bet, after.bets[bet].stake, after.bets[bet].status, after.grades[bet].profit)
  }

  ghost predicate OnePass(before: Db, world: nat -> Feed, calls: seq<Proc>, after: Db) {
    && after.legs == FinalLegs(before, world, calls)
    && |after.bets| == |before.bets|
    && (forall bet :: bet in after.grades ==> bet < |before.bets|)
    && forall bet: nat :: bet < |before.bets| ==> EndsAsSpecified(before, world, calls, after, bet)
  }

  // ---------- what has happened so far ----------

  ghost predicate BetOnTrack(before: Db, world: nat -> Feed, calls: seq<Proc>, db: Db, bet: nat)
    requires bet < |before.bets| && bet < |db.bets|
  {
    if db.bets[bet] == before.bets[bet] then
      bet in before.grades ==> bet in db.grades && db.grades[bet] == before.grades[bet]
    else
      && OpenBet(before, bet)
      && (!db.bets[bet].isParlay ==>
            && BetDelivered(before, calls, bet) && GameOf(before, bet).Some?
            && db.bets[bet].status == StatusFrom(db.bets[bet].terms, world(GameOf(before, bet).value))
            && bet in db.grades
            && db.grades[bet]
               == Grade(Numeric4(ProfitLoss(db.bets[bet].status, StakeOf(before, bet), OddsOf(before, bet)))))
  }

  ghost predicate LegOnTrack(before: Db, world: nat -> Feed, calls: seq<Proc>, db: Db, leg: nat)
    requires leg < |before.legs| && leg < |db.legs|
  {
    db.legs[leg] == before.legs[leg] ||
    (&& OpenLeg(before, leg) && LegDelivered(before, calls, leg) && before.legs[leg].game.Some?
     && db.legs[leg].status == StatusFrom(db.legs[leg].terms, world(before.legs[leg].game.value)))
  }

  ghost predicate OnTrack(before: Db, world: nat -> Feed, calls: seq<Proc>, db: Db) {
    && Evolves(before, db) && |db.bets| == |before.bets| && |db.legs| == |before.legs|
    && (forall bet: nat :: bet < |db.bets| ==> BetOnTrack(before, world, calls, db, bet))
    && (forall leg: nat :: leg < |db.legs| ==> LegOnTrack(before, world, calls, db, leg))
  }

  /** Every target of the call that is still open is in these queues. */
  ghost predicate BetsCover(db: Db, call: Proc, bets: seq<nat>) {
    forall bet: nat :: TargetsBet(db, call, bet) && OpenBet(db, bet) ==> bet in bets
  }

  ghost predicate LegsCover(db: Db, call: Proc, legs: seq<nat>) {
    forall leg: nat :: TargetsLeg(db, call, leg) && OpenLeg(db, leg) ==> leg in legs
  }

  ghost predicate BetQueue(before: Db, game: nat, bets: seq<nat>) {
    forall bet :: bet in bets ==> OpenBetOn(before, game, bet) && IsSingle(before, bet)
  }

  ghost predicate LegQueue(before: Db, game: nat, legs: seq<nat>) {
    forall leg :: leg in legs ==> OpenLegOn(before, game, leg)
  }

  /** How far a process has come since it started as `call`. */
  ghost predicate Follows(before: Db, db: Db, call: Proc, p: Proc) {
    match p
    case FindBets(_) => call == p
    case FindLegs(job, bets) => call == FindBets(job) && BetQueue(before, job.game, bets) && BetsCover(db, call, bets)
    case GradeBets(job, bets, legs, _) =>
      && call == FindBets(job)
      && BetQueue(before, job.game, bets) && BetsCover(db, call, bets)
      && LegQueue(before, job.game, legs) && LegsCover(db, call, legs)
    case GradeLegs(job, legs, _, _) =>
      && call == FindBets(job) && BetsCover(db, call, [])
      && LegQueue(before, job.game, legs) && LegsCover(db, call, legs)
    case SettleParents(_, _, force, _) => !force && BetsCover(db, call, []) && LegsCover(db, call, [])
    case ManualFind(_, _, _) => call == p
    case ManualLegs(bet, force) => !force && call.ManualFind? && call.bet == bet && IsParlay(db, bet)
    case ManualClaim(bet, status, force) =>
      && !force && call.ManualFind? && call.bet == bet && TargetsBet(db, call, bet)
      && Outcome(db.bets[bet].terms, call.feed.value) == Some(status)
    case Done(_) => BetsCover(db, call, []) && LegsCover(db, call, [])
    case Raised(_) => BetsCover(db, call, []) && LegsCover(db, call, [])
    case _ => false
  }

  lemma FaithfulOutcome(terms: Terms, truth: Feed, feed: Feed)
    requires Faithful(truth, feed) && Outcome(terms, feed).Some?
    ensures Outcome(terms, feed) == Outcome(terms, truth)
  {
  }

  lemma SameRows(before: Db, db: Db)
    requires Evolves(before, db)
    ensures forall bet: nat :: bet < |before.bets| ==>
              && db.bets[bet].terms == before.bets[bet].terms && db.bets[bet].game == before.bets[bet].game
              && db.bets[bet].isParlay == before.bets[bet].isParlay
              && StakeOf(db, bet) == StakeOf(before, bet) && OddsOf(db, bet) == OddsOf(before, bet)
              && (OpenBet(db, bet) ==> OpenBet(before, bet))
    ensures forall leg: nat :: leg < |before.legs| ==>
              && db.legs[leg].terms == before.legs[leg].terms && db.legs[leg].game == before.legs[leg].game
              && (OpenLeg(db, leg) ==> OpenLeg(before, leg))
  {
    forall bet: nat | bet < |before.bets|
      ensures db.bets[bet].(status := before.bets[bet].status) == before.bets[bet]
    {
      assert db.bets[bet].(status := OPEN) == before.bets[bet].(status := OPEN);
    }
    forall leg: nat | leg < |before.legs|
      ensures db.legs[leg].(status := before.legs[leg].status) == before.legs[leg]
    {
      assert db.legs[leg].(status := OPEN) == before.legs[leg].(status := OPEN);
    }
  }

  lemma SameTargets(before: Db, db: Db, call: Proc)
    requires Evolves(before, db) && |db.bets| == |before.bets| && |db.legs| == |before.legs|
    ensures forall bet: nat :: TargetsBet(db, call, bet) == TargetsBet(before, call, bet)
    ensures forall leg: nat :: TargetsLeg(db, call, leg) == TargetsLeg(before, call, leg)
  {
    SameRows(before, db);
  }

  lemma {:induction false} FollowsStable(before: Db, db: Db, after: Db, call: Proc, p: Proc)
    requires Evolves(db, after) && |after.bets| == |db.bets| && |after.legs| == |db.legs|
    requires Follows(before, db, call, p)
    ensures Follows(before, after, call, p)
  {
    SameRows(db, after);
    SameTargets(db, after, call);
  }

  // ---------- a process's own step ----------

  lemma FindLegsFollows(before: Db, db: Db, call: Proc, p: Proc, rows: seq<nat>)
    requires p.FindLegs? && Follows(before, db, call, p)
    requires Evolves(before, db) && |db.bets| == |before.bets| && |db.legs| == |before.legs|
    ensures Follows(before, db, call, Advance(db, p, rows).1)
  {
    GradingOrderMembers(db, p.bets);
    SameRows(before, db);
    forall bet: nat | TargetsBet(db, call, bet) && OpenBet(db, bet) ensures bet in GradingOrder(db, p.bets) {
      assert bet in p.bets;
    }
  }

  lemma FindBetsFollows(before: Db, db: Db, call: Proc, p: Proc, rows: seq<nat>)
    requires p.FindBets? && Follows(before, db, call, p) && RowsMatch(db)
    requires Evolves(before, db) && |db.bets| == |before.bets| && |db.legs| == |before.legs|
    ensures Follows(before, db, call, Advance(db, p, rows).1)
  {
    SameRows(before, db);
    BetsWithGamesAreSingles(db);
    if ListsOpenBets(db, p.job.game, rows) {
      forall bet | bet in rows ensures OpenBetOn(before, p.job.game, bet) && IsSingle(before, bet) {
        assert OpenBetOn(db, p.job.game, bet);
      }
    }
  }

  /** A bet that can be graded leaves the queue graded; one that cannot leaves it untouched. */
  lemma StepBetTakesHead(db: Db, p: Proc)
    requires p.GradeBets? && p.bets != [] && p.bets[0] < |db.bets| && GradesMatch(db)
    requires Outcome(db.bets[p.bets[0]].terms, p.job.feed).Some? || IsProp(db.bets[p.bets[0]].terms.market)
    ensures var (db', p') := StepBet(db, p);
            && p'.GradeBets? && p'.job == p.job && p'.bets == p.bets[1..] && p'.legs == p.legs
            && (Outcome(db.bets[p.bets[0]].terms, p.job.feed).Some? ==> !OpenBet(db', p.bets[0]))
  {
    if Outcome(db.bets[p.bets[0]].terms, p.job.feed).Some? {
      OutcomeIsDecisive(db.bets[p.bets[0]].terms, p.job.feed);
    }
  }

  lemma CoverAfterHead(db: Db, after: Db, call: Proc, bets: seq<nat>)
    requires Evolves(db, after) && |after.bets| == |db.bets| && |after.legs| == |db.legs|
    requires bets != [] && BetsCover(db, call, bets)
    requires TargetsBet(db, call, bets[0]) ==> !OpenBet(after, bets[0])
    ensures BetsCover(after, call, bets[1..])
  {
    SameRows(db, after);
    SameTargets(db, after, call);
    forall b: nat | TargetsBet(after, call, b) && OpenBet(after, b) ensures b in bets[1..] {
      assert TargetsBet(db, call, b) && OpenBet(db, b);
      assert b in bets && b != bets[0];
    }
  }

  lemma {:induction false} StepBetFollows(before: Db, db: Db, call: Proc, p: Proc)
    requires p.GradeBets? && Follows(before, db, call, p)
    requires p.bets != [] && p.bets[0] < |before.bets| ==>
               Outcome(before.bets[p.bets[0]].terms, p.job.feed).Some? || IsProp(before.bets[p.bets[0]].terms.market)
    requires Evolves(before, db) && |db.bets| == |before.bets| && |db.legs| == |before.legs|
    requires GradesMatch(db) && Evolves(db, StepBet(db, p).0)
    ensures Follows(before, StepBet(db, p).0, call, StepBet(db, p).1)
  {
    if p.bets != [] {
      var bet := p.bets[0];
      assert bet in p.bets;
      SameRows(before, db);
      assert OpenBetOn(before, p.job.game, bet);
      StepBetTakesHead(db, p);
      CoverAfterHead(db, StepBet(db, p).0, call, p.bets);
      FollowsStable(before, db, StepBet(db, p).0, call, p);
      assert forall b :: b in p.bets[1..] ==> b in p.bets;
    }
  }

  lemma {:induction false} StepLegFollows(before: Db, db: Db, call: Proc, p: Proc)
    requires p.GradeLegs? && Follows(before, db, call, p)
    requires Evolves(before, db) && |db.bets| == |before.bets| && |db.legs| == |before.legs|
    requires Evolves(db, StepLeg(db, p).0)
    ensures Follows(before, StepLeg(db, p).0, call, StepLeg(db, p).1)
  {
    var (db', p') := StepLeg(db, p);
    SameRows(before, db);
    SameTargets(db, db', call);
    if p.legs != [] {
      var leg := p.legs[0];
      assert leg in p.legs;
      assert forall l :: l in p.legs[1..] ==> l in p.legs;
      forall l: nat | TargetsLeg(db', call, l) && OpenLeg(db', l) ensures l in p.legs[1..] {
        assert TargetsLeg(db, call, l) && OpenLeg(db, l);
        assert l in p.legs && l != leg;
      }
    }
  }

  lemma {:induction false} StepParentFollows(before: Db, db: Db, call: Proc, p: Proc)
    requires p.SettleParents? && Follows(before, db, call, p)
    requires Evolves(db, StepParent(db, p).0)
    ensures Follows(before, StepParent(db, p).0, call, StepParent(db, p).1)
  {
    SameTargets(db, StepParent(db, p).0, call);
  }

  lemma {:induction false} ManualFollows(before: Db, db: Db, call: Proc, p: Proc, rows: seq<nat>)
    requires p.ManualFind? || p.ManualLegs? || p.ManualClaim?
    requires Follows(before, db, call, p) && Unforced(p) && GradesMatch(db)
    requires Evolves(db, Advance(db, p, rows).0)
    ensures Follows(before, Advance(db, p, rows).0, call, Advance(db, p, rows).1)
  {
    SameTargets(db, Advance(db, p, rows).0, call);
  }

  lemma {:induction false} AdvanceFollows(before: Db, db: Db, world: nat -> Feed, call: Proc, p: Proc, rows: seq<nat>)
    requires Consistent(db) && Ready(db, p) && Follows(before, db, call, p) && Regular(before, world, call)
    requires Evolves(before, db) && |db.bets| == |before.bets| && |db.legs| == |before.legs|
    ensures Follows(before, Advance(db, p, rows).0, call, Advance(db, p, rows).1)
  {
    AdvanceSafe(db, p, rows);
    match p
    case FindBets(_) => FindBetsFollows(before, db, call, p, rows);
    case FindLegs(_, _) => FindLegsFollows(before, db, call, p, rows);
    case GradeBets(job, bets, _, _) =>
      if bets != [] {
        assert bets[0] in bets;
        assert OpenBetOn(before, job.game, bets[0]);
      }
      StepBetFollows(before, db, call, p);
    case GradeLegs(_, _, _, _) => StepLegFollows(before, db, call, p);
    case SettleParents(_, _, _, _) => StepParentFollows(before, db, call, p);
    case ManualFind(_, _, _) => ManualFollows(before, db, call, p, rows);
    case ManualLegs(_, _) => ManualFollows(before, db, call, p, rows);
    case ManualClaim(_, _, _) => ManualFollows(before, db, call, p, rows);
    case _ =>
  }

  // ---------- what a step may do to the tables ----------

  /** A step grades only what its call delivers, and with the true outcome. */
  ghost predicate Allowed(before: Db, world: nat -> Feed, calls: seq<Proc>, db: Db, e: Effect) {
    match e
    case Nothing => true
    case Graded(bet, status, price, force) =>
      && !force && !status.OPEN? && bet < |db.bets|
      && (IsSingle(before, bet) ==>
            && BetDelivered(before, calls, bet) && GameOf(before, bet).Some? && price == OddsOf(before, bet)
            && status == StatusFrom(before.bets[bet].terms, world(GameOf(before, bet).value)))
    case LegGraded(leg, status) =>
      && !status.OPEN? && leg < |before.legs| && LegDelivered(before, calls, leg) && before.legs[leg].game.Some?
      && status == StatusFrom(before.legs[leg].terms, world(before.legs[leg].game.value))
    case Placed(_) => false
  }

  lemma TargetIsDelivered(before: Db, world: nat -> Feed, calls: seq<Proc>, i: nat, bet: nat, feed: Feed)
    requires i < |calls| && Regular(before, world, calls[i]) && TargetsBet(before, calls[i], bet)
    requires calls[i].FindBets? ==> feed == calls[i].job.feed
    requires calls[i].ManualFind? ==> Some(feed) == calls[i].feed
    ensures BetDelivered(before, calls, bet) && GameOf(before, bet).Some?
    ensures Outcome(before.bets[bet].terms, feed)
         == Some(StatusFrom(before.bets[bet].terms, world(GameOf(before, bet).value)))
  {
    FaithfulOutcome(before.bets[bet].terms, world(GameOf(before, bet).value), feed);
  }

  lemma {:induction false} StepIsAllowed(before: Db, world: nat -> Feed, calls: seq<Proc>, db: Db, i: nat, p: Proc)
    requires Consistent(db) && Ready(db, p) && Unforced(p)
    requires Evolves(before, db) && |db.bets| == |before.bets| && |db.legs| == |before.legs|
    requires i < |calls| && Regular(before, world, calls[i]) && Follows(before, db, calls[i], p)
    ensures Allowed(before, world, calls, db, EffectOf(db, p))
  {
    EffectIsDecisive(db, p);
    SameRows(before, db);
    SameTargets(before, db, calls[i]);
    match p
    case GradeBets(job, bets, _, _) =>
      if bets != [] && bets[0] < |db.bets| {
        assert bets[0] in bets;
        if Outcome(db.bets[bets[0]].terms, job.feed).Some? {
          TargetIsDelivered(before, world, calls, i, bets[0], job.feed);
        }
      }
    case GradeLegs(job, legs, _, _) =>
      if legs != [] && legs[0] < |db.legs| {
        assert legs[0] in legs;
        var terms := before.legs[legs[0]].terms;
        if Outcome(terms, job.feed).Some? {
          assert TargetsLeg(before, calls[i], legs[0]);
          FaithfulOutcome(terms, world(job.game), job.feed);
        }
      }
    case SettleParents(parents, ClaimParent(_, _), _, _) =>
      assert parents[0] in parents && IsParlay(db, parents[0]);
    case ManualClaim(bet, status, _) =>
      TargetIsDelivered(before, world, calls, i, bet, calls[i].feed.value);
    case _ =>
  }

  lemma {:induction false} BetStaysOnTrack(before: Db, world: nat -> Feed, calls: seq<Proc>, db: Db, e: Effect, bet: nat)
    requires OnTrack(before, world, calls, db) && GradesMatch(db) && GradesMatch(before)
    requires Allowed(before, world, calls, db, e) && bet < |before.bets|
    requires Evolves(before, Effects(db, e)) && |Effects(db, e).bets| == |db.bets|
    ensures BetOnTrack(before, world, calls, Effects(db, e), bet)
  {
    assert BetOnTrack(before, world, calls, db, bet);
    SameRows(before, db);
    SameRows(before, Effects(db, e));
  }

  lemma LegStaysOnTrack(before: Db, world: nat -> Feed, calls: seq<Proc>, db: Db, e: Effect, leg: nat)
    requires OnTrack(before, world, calls, db)
    requires Allowed(before, world, calls, db, e) && leg < |before.legs|
    requires Evolves(before, Effects(db, e)) && |Effects(db, e).legs| == |db.legs|
    ensures LegOnTrack(before, world, calls, Effects(db, e), leg)
  {
    assert LegOnTrack(before, world, calls, db, leg);
    SameRows(before, db);
  }

  lemma {:induction false} EffectStaysOnTrack(before: Db, world: nat -> Feed, calls: seq<Proc>, db: Db, e: Effect)
    requires OnTrack(before, world, calls, db) && GradesMatch(db) && GradesMatch(before)
    requires Allowed(before, world, calls, db, e) && Evolves(db, Effects(db, e))
    ensures OnTrack(before, world, calls, Effects(db, e))
  {
    var after := Effects(db, e);
    EvolvesTransitive(before, db, after);
    forall bet: nat | bet < |after.bets| ensures BetOnTrack(before, world, calls, after, bet) {
      BetStaysOnTrack(before, world, calls, db, e, bet);
    }
    forall leg: nat | leg < |after.legs| ensures LegOnTrack(before, world, calls, after, leg) {
      LegStaysOnTrack(before, world, calls, db, e, leg);
    }
  }

  lemma MoreCallsOnTrack(before: Db, world: nat -> Feed, calls: seq<Proc>, call: Proc, db: Db)
    requires OnTrack(before, world, calls, db)
    ensures OnTrack(before, world, calls + [call], db)
  {
    forall bet: nat | bet < |db.bets| ensures BetOnTrack(before, world, calls + [call], db, bet) {
      assert BetOnTrack(before, world, calls, db, bet);
      if BetDelivered(before, calls, bet) {
        var i :| 0 <= i < |calls| && TargetsBet(before, calls[i], bet);
        assert TargetsBet(before, (calls + [call])[i], bet);
      }
    }
    forall leg: nat | leg < |db.legs| ensures LegOnTrack(before, world, calls + [call], db, leg) {
      assert LegOnTrack(before, world, calls, db, leg);
      if LegDelivered(before, calls, leg) {
        var i :| 0 <= i < |calls| && TargetsLeg(before, calls[i], leg);
        assert TargetsLeg(before, (calls + [call])[i], leg);
      }
    }
  }

  // ---------- whole runs ----------

  ghost predicate Tracks(before: Db, world: nat -> Feed, calls: seq<Proc>, s: Sys) {
    && OnTrack(before, world, calls, s.db)
    && |s.procs| == |calls| && AllUnforced(s.procs)
    && (forall i :: 0 <= i < |calls| ==>
          Regular(before, world, calls[i]) && Follows(before, s.db, calls[i], s.procs[i]))
  }

  lemma {:induction false} StepTracks(before: Db, world: nat -> Feed, calls: seq<Proc>, s: Sys, i: nat, rows: seq<nat>)
    requires Safe(s) && GradesMatch(before) && Tracks(before, world, calls, s) && i < |s.procs|
    ensures Tracks(before, world, calls, Act(s, Step(i, rows)))
  {
    var (db, p) := (s.db, s.procs[i]);
    var s' := Act(s, Step(i, rows));
    AdvanceSafe(db, p, rows);
    AdvanceEffect(db, p, rows);
    UnforcedStays(db, p, rows);
    StepIsAllowed(before, world, calls, db, i, p);
    EffectStaysOnTrack(before, world, calls, db, EffectOf(db, p));
    forall j | 0 <= j < |calls| ensures Follows(before, s'.db, calls[j], s'.procs[j]) {
      if j == i {
        AdvanceFollows(before, db, world, calls[i], p, rows);
      } else {
        FollowsStable(before, db, s'.db, calls[j], s.procs[j]);
      }
    }
  }

  lemma {:induction false} RunTracks(before: Db, world: nat -> Feed, actions: seq<Action>)
    requires Consistent(before) && RegularActions(before, world, actions)
    ensures Tracks(before, world, Calls(actions), Run(Sys(before, []), actions))
  {
    var s := Sys(before, []);
    if actions == [] {
      forall bet: nat | bet < |before.bets| ensures BetOnTrack(before, world, [], before, bet) {}
    } else {
      var earlier := actions[..|actions| - 1];
      var a := actions[|actions| - 1];
      RunTracks(before, world, earlier);
      RunSafe(s, earlier);
      var t := Run(s, earlier);
      match a
      case Spawn(p) =>
        MoreCallsOnTrack(before, world, Calls(earlier), p, t.db);
      case Step(i, rows) =>
        assert Calls(actions) == Calls(earlier);
        if i < |t.procs| {
          StepTracks(before, world, Calls(earlier), t, i, rows);
        }
      case Kill(_) =>
    }
  }

  lemma FinishedLeg(before: Db, world: nat -> Feed, calls: seq<Proc>, s: Sys, leg: nat)
    requires Tracks(before, world, calls, s) && Finished(s) && leg < |before.legs|
    ensures s.db.legs[leg] == FinalLeg(before, world, calls, leg)
  {
    assert LegOnTrack(before, world, calls, s.db, leg);
    SameRows(before, s.db);
    assert s.db.legs[leg].(status := OPEN) == before.legs[leg].(status := OPEN);
    if OpenLeg(before, leg) && LegDelivered(before, calls, leg) {
      var i :| 0 <= i < |calls| && TargetsLeg(before, calls[i], leg);
      SameTargets(before, s.db, calls[i]);
      assert Follows(before, s.db, calls[i], s.procs[i]);
      assert !OpenLeg(s.db, leg);
    }
  }

  lemma {:induction false} FinishedSingle(before: Db, world: nat -> Feed, calls: seq<Proc>, s: Sys, bet: nat)
    requires GradesMatch(before) && GradesMatch(s.db)
    requires Tracks(before, world, calls, s) && Finished(s) && IsSingle(before, bet)
    ensures EndsAsSpecified(before, world, calls, s.db, bet)
  {
    assert BetOnTrack(before, world, calls, s.db, bet);
    SameRows(before, s.db);
    assert s.db.bets[bet].(status := OPEN) == before.bets[bet].(status := OPEN);
    if OpenBet(before, bet) && BetDelivered(before, calls, bet) {
      var i :| 0 <= i < |calls| && TargetsBet(before, calls[i], bet);
      SameTargets(before, s.db, calls[i]);
      assert Follows(before, s.db, calls[i], s.procs[i]);
      assert !OpenBet(s.db, bet);
    }
  }

  lemma FinishedParlay(before: Db, world: nat -> Feed, calls: seq<Proc>, s: Sys, bet: nat)
    requires Consistent(before) && Consistent(s.db)
    requires Tracks(before, world, calls, s) && IsParlay(before, bet)
    requires s.db.legs == FinalLegs(before, world, calls)
    requires NoOpenLeg(s.db, bet) ==> CarriesSettlement(s.db, bet)
    ensures EndsAsSpecified(before, world, calls, s.db, bet)
  {
    assert BetOnTrack(before, world, calls, s.db, bet);
    SameRows(before, s.db);
    OpenLegs(s.db, bet);
    assert ParentMatches(s.db, bet);
    assert s.db.bets[bet].(status := OPEN) == before.bets[bet].(status := OPEN);
  }

  /** Whatever the order, repetition or interleaving of regular calls, a finished run ends with the tables of the
      one-pass specification over what the calls delivered. */
  lemma {:induction false} FinishedRunIsOnePass(before: Db, world: nat -> Feed, actions: seq<Action>)
    requires Consistent(before) && Covered(Sys(before, []))
    requires RegularActions(before, world, actions) && Finished(Run(Sys(before, []), actions))
    ensures OnePass(before, world, Calls(actions), Run(Sys(before, []), actions).db)
  {
    var calls, s := Calls(actions), Run(Sys(before, []), actions);
    RunTracks(before, world, actions);
    RunSafe(Sys(before, []), actions);
    forall leg: nat | leg < |before.legs| ensures s.db.legs[leg] == FinalLeg(before, world, calls, leg) {
      FinishedLeg(before, world, calls, s, leg);
    }
    assert s.db.legs == FinalLegs(before, world, calls);
    forall bet: nat | bet < |before.bets| ensures EndsAsSpecified(before, world, calls, s.db, bet) {
      SameRows(before, s.db);
      if IsParlay(before, bet) {
        if NoOpenLeg(s.db, bet) {
          NoLostSettlement(Sys(before, []), actions, bet);
        }
        FinishedParlay(before, world, calls, s, bet);
      } else {
        FinishedSingle(before, world, calls, s, bet);
      }
    }
  }

  /** The two lists of calls deliver the same bets and legs. */
  ghost predicate SameDeliveries(db: Db, calls: seq<Proc>, others: seq<Proc>) {
    && (forall bet: nat :: BetDelivered(db, calls, bet) <==> BetDelivered(db, others, bet))
    && (forall leg: nat :: LegDelivered(db, calls, leg) <==> LegDelivered(db, others, leg))
  }

  lemma SameEnd(before: Db, world: nat -> Feed, calls: seq<Proc>, others: seq<Proc>, a: Db, b: Db, bet: nat)
    requires bet < |before.bets| == |a.bets| == |b.bets|
    requires SameDeliveries(before, calls, others)
    requires FinalLegs(before, world, calls) == FinalLegs(before, world, others)
    requires EndsAsSpecified(before, world, calls, a, bet) && EndsAsSpecified(before, world, others, b, bet)
    ensures a.bets[bet] == b.bets[bet]
    ensures bet in a.grades <==> bet in b.grades
    ensures bet in a.grades ==> a.grades[bet] == b.grades[bet]
  {
    var legs := FinalLegs(before, world, calls);
    if IsParlay(before, bet) && OpenBet(before, bet) && !HasLeg(legs, bet, OPEN) {
      EarnsOneGrade(legs, bet, before.bets[bet].stake, a.bets[bet].status, a.grades[bet].profit,
                    b.bets[bet].status, b.grades[bet].profit);
    }
  }

  /** Confluence: finished runs that delivered the same games agree on every bet, leg and grade. */
  lemma {:induction false} FinishedRunsAgree(before: Db, world: nat -> Feed, one: seq<Action>, two: seq<Action>)
    requires Consistent(before) && Covered(Sys(before, []))
    requires RegularActions(before, world, one) && Finished(Run(Sys(before, []), one))
    requires RegularActions(before, world, two) && Finished(Run(Sys(before, []), two))
    requires SameDeliveries(before, Calls(one), Calls(two))
    ensures var a, b := Run(Sys(before, []), one).db, Run(Sys(before, []), two).db;
            a.bets == b.bets && a.legs == b.legs && a.grades == b.grades
  {
    var a, b := Run(Sys(before, []), one).db, Run(Sys(before, []), two).db;
    FinishedRunIsOnePass(before, world, one);
    FinishedRunIsOnePass(before, world, two);
    assert FinalLegs(before, world, Calls(one)) == FinalLegs(before, world, Calls(two));
    forall bet: nat | bet < |before.bets|
      ensures a.bets[bet] == b.bets[bet]
      ensures bet in a.grades <==> bet in b.grades
      ensures bet in a.grades ==> a.grades[bet] == b.grades[bet]
    {
      assert EndsAsSpecified(before, world, Calls(one), a, bet);
      assert EndsAsSpecified(before, world, Calls(two), b, bet);
      SameEnd(before, world, Calls(one), Calls(two), a, b, bet);
    }
    assert a.grades.Keys == b.grades.Keys;
  }
}
