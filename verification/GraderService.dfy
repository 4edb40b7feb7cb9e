/** grade_game and grade_manual as they run, proved to be runs of the protocol and to leave nothing of their game
    ungraded. */
module GraderService {
  import opened Numeric
  import opened Outcomes
  import opened Grading
  import opened Parlay
  import opened Tables
  import opened Protocol
  import opened Safety
  import opened Settlement
  import opened Bankroll
  import opened Confluence
  import opened Starvation
  import opened Repository

  /** An open score bet of the game that this feed cannot grade: grading the game raises on it. */
  ghost predicate HasBlocker(db: Db, job: Job) {
    exists bet: nat :: Blocks(db, job, bet)
  }

  ghost predicate Blocks(db: Db, job: Job, bet: nat) {
    OpenBetOn(db, job.game, bet) && !IsProp(db.bets[bet].terms.market)
    && Outcome(db.bets[bet].terms, job.feed).None?
  }

  /** Whether grading a game raises shows before the call, whatever its result: some open score bet on it has terms that
      nothing grades. */
  lemma {:induction false} RaisesExactly(db: Db, job: Job)
    ensures HasBlocker(db, job) <==>
            exists bet: nat :: OpenBetOn(db, job.game, bet) && !IsProp(db.bets[bet].terms.market)
                               && !Gradeable(db.bets[bet].terms)
  {
    forall bet: nat | OpenBetOn(db, job.game, bet) && !IsProp(db.bets[bet].terms.market)
      ensures Blocks(db, job, bet) <==> !Gradeable(db.bets[bet].terms)
    {
      UngradeableExactly(db.bets[bet].terms, job.feed);
    }
    if bet: nat :| Blocks(db, job, bet) {
      assert OpenBetOn(db, job.game, bet) && !Gradeable(db.bets[bet].terms);
    }
  }

  /** Nothing this feed can grade is open any more. */
  ghost predicate NothingLeft(db: Db, job: Job) {
    BetsCover(db, FindBets(job), []) && LegsCover(db, FindBets(job), [])
  }

  /** No other call starts. */
  ghost predicate OnlyCall(actions: seq<Action>, call: Proc) {
    forall i :: 0 <= i < |actions| && actions[i].Spawn? ==> actions[i].p == call
  }

  /** From fresh tables `start`, these actions lead to a lone process p over db. */
  ghost predicate Reached(start: Db, actions: seq<Action>, db: Db, p: Proc) {
    Run(Sys(start, []), actions) == Sys(db, [p])
  }

  lemma Starts(start: Db, call: Proc)
    requires Fresh(call)
    ensures Reached(start, [Spawn(call)], start, call)
  {
    assert [Spawn(call)][..0] == [];
    assert Run(Sys(start, []), []) == Sys(start, []);
  }

  lemma Continues(start: Db, actions: seq<Action>, db: Db, p: Proc, rows: seq<nat>)
    requires Reached(start, actions, db, p)
    ensures var (db', p') := Advance(db, p, rows); Reached(start, actions + [Step(0, rows)], db', p')
  {
    RunOneMore(Sys(start, []), actions, Step(0, rows));
  }

  /** _settle_parlay_if_decided run without interruption. */
  function SettleIfDecided(db: Db, parent: nat, force: bool): (Db, bool) {
    if OpenLegCount(db, parent) > 0 || parent >= |db.bets| then (db, false)
    else
      var s := ParentSettlement(db, parent);
      if s.Settled? then
        var (db', claim) := GradeAt(db, parent, s.status, s.price, force);
        (db', claim.Applied?)
      else (db, false)
  }

  /** The parent has no open leg, and its row can be claimed. */
  predicate Settleable(db: Db, parent: nat, force: bool) {
    && parent < |db.bets| && !HasLeg(db.legs, parent, OPEN)
    && (force || (db.bets[parent].status.OPEN? && parent !in db.grades))
  }

  lemma SettlesOrLeaves(db: Db, parent: nat, force: bool)
    ensures var (db', applied) := SettleIfDecided(db, parent, force);
            && (applied <==> Settleable(db, parent, force))
            && (if applied then db'.legs == db.legs && parent < |db'.bets| && CarriesSettlement(db', parent) else db' == db)
  {
    NoOpenLegs(db, parent);
    OpenLegs(db, parent);
    ParentSettles(db, parent);
    if Settleable(db, parent, force) {
      var s := ParentSettlement(db, parent);
      var stake := db.bets[parent].stake;
      SettlementEarns(db, parent, stake, s.status, Numeric4(ProfitLoss(s.status, stake, s.price)));
    }
  }

  lemma ContinuesTo(start: Db, actions: seq<Action>, db: Db, p: Proc, to: (Db, Proc))
    requires Reached(start, actions, db, p) && Advance(db, p, []) == to
    ensures Reached(start, actions + [Step(0, [])], to.0, to.1)
  {
    Continues(start, actions, db, p, []);
  }

  lemma SettleReads(db: Db, parents: seq<nat>, force: bool, graded: nat)
    requires parents != [] && IsParlay(db, parents[0]) && NoOpenLeg(db, parents[0])
    ensures var s := ParentSettlement(db, parents[0]);
            && s.Settled?
            && StepParent(db, SettleParents(parents, CountLegs, force, graded))
               == (db, SettleParents(parents, FetchParent, force, graded))
            && StepParent(db, SettleParents(parents, FetchParent, force, graded))
               == (db, SettleParents(parents, FetchLegs, force, graded))
            && StepParent(db, SettleParents(parents, FetchLegs, force, graded))
               == (db, SettleParents(parents, ClaimParent(s.status, s.price), force, graded))
  {
    NoOpenLegs(db, parents[0]);
    ParentSettles(db, parents[0]);
  }

  lemma SettleClaims(db: Db, parents: seq<nat>, status: Status, price: real, force: bool, graded: nat)
    requires parents != [] && !GradeAt(db, parents[0], status, price, force).1.Collision?
    ensures var g := GradeAt(db, parents[0], status, price, force);
            var p' := SettleParents(parents[1..], CountLegs, force, graded + if g.1.Applied? then 1 else 0);
            StepParent(db, SettleParents(parents, ClaimParent(status, price), force, graded)) == (g.0, p')
  {
  }

  /** With no leg open, its three reads lead to the claim. */
  lemma SettleReadsContinue(start: Db, actions: seq<Action>, db: Db, parents: seq<nat>, force: bool, graded: nat)
    requires parents != [] && IsParlay(db, parents[0]) && NoOpenLeg(db, parents[0])
    requires Reached(start, actions, db, SettleParents(parents, CountLegs, force, graded))
    ensures var s := ParentSettlement(db, parents[0]);
            && s.Settled?
            && Reached(start, actions + [Step(0, [])] + [Step(0, [])] + [Step(0, [])], db,
                       SettleParents(parents, ClaimParent(s.status, s.price), force, graded))
  {
    SettleReads(db, parents, force, graded);
    var s := ParentSettlement(db, parents[0]);
    var fetched := SettleParents(parents, FetchParent, force, graded);
    var listed := SettleParents(parents, FetchLegs, force, graded);
    var claiming := SettleParents(parents, ClaimParent(s.status, s.price), force, graded);
    ContinuesTo(start, actions, db, SettleParents(parents, CountLegs, force, graded), (db, fetched));
    ContinuesTo(start, actions + [Step(0, [])], db, fetched, (db, listed));
    ContinuesTo(start, actions + [Step(0, [])] + [Step(0, [])], db, listed, (db, claiming));
  }

  lemma ClaimContinues(start: Db, actions: seq<Action>, db: Db, parents: seq<nat>, status: Status, price: real,
                       force: bool, graded: nat)
    requires parents != [] && !GradeAt(db, parents[0], status, price, force).1.Collision?
    requires Reached(start, actions, db, SettleParents(parents, ClaimParent(status, price), force, graded))
    ensures var g := GradeAt(db, parents[0], status, price, force);
            Reached(start, actions + [Step(0, [])], g.0,
                    SettleParents(parents[1..], CountLegs, force, graded + if g.1.Applied? then 1 else 0))
  {
    var claiming := SettleParents(parents, ClaimParent(status, price), force, graded);
    SettleClaims(db, parents, status, price, force, graded);
    ContinuesTo(start, actions, db, claiming, StepParent(db, claiming));
  }

  /** A leg is open, or the parent settles and its claim cannot collide. */
  ghost predicate Decides(db: Db, parent: nat, force: bool) {
    OpenLegCount(db, parent) > 0
    || (NoOpenLeg(db, parent)
        && var s := ParentSettlement(db, parent);
           s.Settled? && !GradeAt(db, parent, s.status, s.price, force).1.Collision?)
  }

  lemma SettleIsSafe(db: Db, parent: nat, force: bool)
    requires Consistent(db) && IsParlay(db, parent)
    ensures Decides(db, parent, force)
    ensures Consistent(SettleIfDecided(db, parent, force).0) && Evolves(db, SettleIfDecided(db, parent, force).0)
  {
    if OpenLegCount(db, parent) == 0 {
      NoOpenLegs(db, parent);
      ParentSettles(db, parent);
      var s := ParentSettlement(db, parent);
      ClaimParentSafe(db, parent, s.status, s.price, force);
    }
  }

  /** Its reads and its claim are the next steps of the protocol. */
  lemma {:induction false} SettleContinues(start: Db, actions: seq<Action>, db: Db, parents: seq<nat>, force: bool, graded: nat, call: Proc)
    returns (more: seq<Action>)
    requires parents != [] && IsParlay(db, parents[0]) && Decides(db, parents[0], force)
    requires Reached(start, actions, db, SettleParents(parents, CountLegs, force, graded))
    ensures var (db', applied) := SettleIfDecided(db, parents[0], force);
            Reached(start, more, db', SettleParents(parents[1..], CountLegs, force, graded + if applied then 1 else 0))
    ensures OnlyCall(actions, call) ==> OnlyCall(more, call)
  {
    var parent := parents[0];
    more := actions + [Step(0, [])];
    if OpenLegCount(db, parent) > 0 {
      ContinuesTo(start, actions, db, SettleParents(parents, CountLegs, force, graded),
                  (db, SettleParents(parents[1..], CountLegs, force, graded)));
    } else {
      SettleReadsContinue(start, actions, db, parents, force, graded);
      var s := ParentSettlement(db, parent);
      more := more + [Step(0, [])] + [Step(0, [])];
      ClaimContinues(start, more, db, parents, s.status, s.price, force, graded);
      more := more + [Step(0, [])];
    }
  }

  // ---------- what each loop of grade_game keeps ----------

  /** Rows of other games are as they were. */
  ghost predicate OthersKept(start: Db, db: Db, game: nat) {
    && |db.bets| == |start.bets| && |db.legs| == |start.legs|
    && (forall i :: 0 <= i < |start.bets| && start.bets[i].game.Some? && start.bets[i].game != Some(game) ==>
          db.bets[i] == start.bets[i])
    && (forall i :: 0 <= i < |start.legs| && start.legs[i].game != Some(game) ==> db.legs[i] == start.legs[i])
  }

  /** The call has come as far as p; if it had nothing to do it has done nothing. */
  ghost predicate Underway(start: Db, actions: seq<Action>, db: Db, job: Job, p: Proc) {
    && Consistent(start)
    && Reached(start, actions, db, p) && OnlyCall(actions, FindBets(job))
    && Follows(start, db, FindBets(job), p)
    && OthersKept(start, db, job.game)
    && (NothingLeft(start, job) ==> db == start && Claims(p) == 0 && Idle(p))
  }

  /** No parent has been touched. */
  predicate Idle(p: Proc) {
    match p
    case GradeLegs(_, _, parents, _) => parents == []
    case SettleParents(parents, _, _, _) => parents == []
    case _ => true
  }

  lemma UnderwayIsSafe(start: Db, actions: seq<Action>, db: Db, job: Job, p: Proc)
    requires Underway(start, actions, db, job, p)
    ensures Consistent(db) && Ready(db, p) && Evolves(start, db)
  {
    RunSafe(Sys(start, []), actions);
    assert [p][0] == p;
  }

  lemma Begins(start: Db, job: Job)
    requires Consistent(start)
    ensures Underway(start, [Spawn(FindBets(job))], start, job, FindBets(job))
  {
    Starts(start, FindBets(job));
  }

  lemma {:induction false} QueryContinues(start: Db, actions: seq<Action>, db: Db, job: Job, p: Proc, rows: seq<nat>)
    requires Underway(start, actions, db, job, p) && (p.FindBets? || p.FindLegs?)
    ensures Underway(start, actions + [Step(0, rows)], db, job, Advance(db, p, rows).1)
  {
    UnderwayIsSafe(start, actions, db, job, p);
    Continues(start, actions, db, p, rows);
    if p.FindBets? {
      FindBetsFollows(start, db, FindBets(job), p, rows);
    } else {
      FindLegsFollows(start, db, FindBets(job), p, rows);
    }
  }

  lemma BetKeepsOthers(start: Db, db: Db, p: Proc)
    requires p.GradeBets? && OthersKept(start, db, p.job.game)
    requires p.bets != [] && p.bets[0] < |start.bets| ==> start.bets[p.bets[0]].game == Some(p.job.game)
    ensures OthersKept(start, StepBet(db, p).0, p.job.game)
  {
  }

  lemma BetIdles(start: Db, p: Proc)
    requires p.GradeBets? && p.bets != [] && OpenBetOn(start, p.job.game, p.bets[0]) && IsSingle(start, p.bets[0])
    requires NothingLeft(start, p.job) && !Blocks(start, p.job, p.bets[0]) && Claims(p) == 0
    ensures StepBet(start, p).0 == start && Claims(StepBet(start, p).1) == 0 && Idle(StepBet(start, p).1)
  {
    assert !TargetsBet(start, FindBets(p.job), p.bets[0]);
  }

  lemma {:induction false} BetContinues(start: Db, actions: seq<Action>, db: Db, job: Job, p: Proc)
    requires Underway(start, actions, db, job, p) && p.GradeBets?
    requires p.bets != [] ==> !Blocks(start, job, p.bets[0])
    ensures Underway(start, actions + [Step(0, [])], StepBet(db, p).0, job, StepBet(db, p).1)
  {
    UnderwayIsSafe(start, actions, db, job, p);
    Continues(start, actions, db, p, []);
    StepBetSafe(db, p);
    assert p.bets != [] ==> p.bets[0] in p.bets;
    StepBetFollows(start, db, FindBets(job), p);
    BetKeepsOthers(start, db, p);
    if NothingLeft(start, job) && p.bets != [] {
      BetIdles(start, p);
    }
  }

  lemma LegKeepsOthers(start: Db, db: Db, p: Proc)
    requires p.GradeLegs? && OthersKept(start, db, p.job.game)
    requires p.legs != [] && p.legs[0] < |start.legs| ==> start.legs[p.legs[0]].game == Some(p.job.game)
    ensures OthersKept(start, StepLeg(db, p).0, p.job.game)
  {
  }

  lemma LegIdles(start: Db, p: Proc)
    requires p.GradeLegs? && p.legs != [] && OpenLegOn(start, p.job.game, p.legs[0])
    requires NothingLeft(start, p.job) && Idle(p)
    ensures StepLeg(start, p).0 == start && Idle(StepLeg(start, p).1)
  {
    assert !TargetsLeg(start, FindBets(p.job), p.legs[0]);
  }

  lemma {:induction false} LegContinues(start: Db, actions: seq<Action>, db: Db, job: Job, p: Proc)
    requires Underway(start, actions, db, job, p) && p.GradeLegs?
    ensures Underway(start, actions + [Step(0, [])], StepLeg(db, p).0, job, StepLeg(db, p).1)
  {
    UnderwayIsSafe(start, actions, db, job, p);
    Continues(start, actions, db, p, []);
    StepLegSafe(db, p);
    assert p.legs != [] ==> p.legs[0] in p.legs;
    StepLegFollows(start, db, FindBets(job), p);
    LegKeepsOthers(start, db, p);
    if NothingLeft(start, job) && p.legs != [] {
      LegIdles(start, p);
    }
  }

  lemma ParentKeepsOthers(start: Db, db: Db, parent: nat, game: nat)
    requires OthersKept(start, db, game) && (parent < |start.bets| ==> start.bets[parent].game.None?)
    ensures OthersKept(start, SettleIfDecided(db, parent, false).0, game)
  {
  }

  lemma {:induction false} ParentContinues(start: Db, actions: seq<Action>, db: Db, job: Job, parents: seq<nat>, graded: nat)
    returns (more: seq<Action>)
    requires Underway(start, actions, db, job, SettleParents(parents, CountLegs, false, graded)) && parents != []
    ensures var (db', applied) := SettleIfDecided(db, parents[0], false);
            Underway(start, more, db', job,
                     SettleParents(parents[1..], CountLegs, false, graded + if applied then 1 else 0))
  {
    var p := SettleParents(parents, CountLegs, false, graded);
    UnderwayIsSafe(start, actions, db, job, p);
    assert parents[0] in parents;
    SettleIsSafe(db, parents[0], false);
    more := SettleContinues(start, actions, db, parents, false, graded, FindBets(job));
    SameRows(start, db);
    ParentKeepsOthers(start, db, parents[0], job.game);
    FollowsStable(start, db, SettleIfDecided(db, parents[0], false).0, FindBets(job), p);
  }

  /** What the call has kept, and that its count is of the rows that left OPEN; nothing to do means nothing done. */
  ghost predicate Kept(start: Db, db: Db, job: Job, count: nat) {
    && Consistent(db) && Evolves(start, db) && OthersKept(start, db, job.game)
    && count + GradedRows(start) == GradedRows(db)
    && (NothingLeft(start, job) ==> db == start && count == 0)
  }

  /** The end of the call: what it leaves, and what its count says. */
  lemma {:induction false} Ends(start: Db, actions: seq<Action>, db: Db, job: Job, p: Proc)
    requires Underway(start, actions, db, job, p)
    ensures Kept(start, db, job, Claims(p))
    ensures p.Done? || p.SettleParents? ==> NothingLeft(db, job)
  {
    UnderwayIsSafe(start, actions, db, job, p);
    ClaimsCountGradedRows(Sys(start, []), actions);
    assert TotalClaims([p]) == Claims(p) by {
      assert [p][..0] == [];
    }
  }

  /** The call is over: it raised on an ungradeable score bet, or it left nothing that its feed can grade. */
  ghost predicate Ended(start: Db, actions: seq<Action>, db: Db, job: Job, r: Proc) {
    && (r.Done? || r.Raised?)
    && Reached(start, actions, db, r)
    && Kept(start, db, job, Claims(r))
    && (r.Raised? <==> HasBlocker(start, job)) && (r.Raised? ==> HasBlocker(db, job))
    && (r.Done? ==> NothingLeft(db, job))
  }

  /** What _grade_one and _apply_prop_grade do with one bet; None is the ValueError, or a prop without an outcome. */
  function GradeSingle(db: Db, bet: nat, feed: Feed, force: bool): (Db, Option<Claim>)
    requires bet < |db.bets|
  {
    var outcome := Outcome(db.bets[bet].terms, feed);
    if outcome.None? then (db, None)
    else
      var (db', claim) := GradeAt(db, bet, outcome.value, db.bets[bet].odds, force);
      (db', Some(claim))
  }

  function GradeQueued(db: Db, bet: nat, feed: Feed): (Db, Option<Claim>)
    requires bet < |db.bets|
  {
    GradeSingle(db, bet, feed, false)
  }

  lemma StepBetIs(db: Db, job: Job, bets: seq<nat>, legs: seq<nat>, graded: nat)
    requires bets != [] && bets[0] < |db.bets| && GradesMatch(db)
    ensures var (db', claim) := GradeQueued(db, bets[0], job.feed);
            var p' :=
              if claim.None? && !IsProp(db.bets[bets[0]].terms.market) then Raised(graded)
              else GradeBets(job, bets[1..], legs, graded + if claim == Some(Applied) then 1 else 0);
            StepBet(db, GradeBets(job, bets, legs, graded)) == (db', p')
  {
  }

  lemma {:induction false} RaiseContinues(start: Db, actions: seq<Action>, db: Db, job: Job, p: Proc)
    requires Underway(start, actions, db, job, p) && p.GradeBets? && p.bets != [] && p.bets[0] < |db.bets|
    requires Outcome(db.bets[p.bets[0]].terms, job.feed).None? && !IsProp(db.bets[p.bets[0]].terms.market)
    ensures Reached(start, actions + [Step(0, [])], db, Raised(p.graded))
    ensures HasBlocker(start, job)
  {
    UnderwayIsSafe(start, actions, db, job, p);
    SameRows(start, db);
    Continues(start, actions, db, p, []);
    assert p.bets[0] in p.bets;
    assert Blocks(start, job, p.bets[0]);
  }

  /** The next queued row is a row of the tables, with the terms it started with. */
  lemma QueueHead(start: Db, actions: seq<Action>, db: Db, job: Job, p: Proc)
    requires Underway(start, actions, db, job, p) && p.GradeBets? && p.bets != []
    ensures p.bets[0] < |db.bets| == |start.bets| && GradesMatch(db)
    ensures db.bets[p.bets[0]].terms == start.bets[p.bets[0]].terms
  {
    UnderwayIsSafe(start, actions, db, job, p);
    assert p.bets[0] in p.bets;
    SameRows(start, db);
  }

  /** The bet that blocks stays open whatever the call does. */
  lemma StillBlocked(start: Db, actions: seq<Action>, db: Db, job: Job, p: Proc)
    requires Consistent(start) && Reached(start, actions, db, p) && OnlyCall(actions, FindBets(job))
    requires HasBlocker(start, job)
    ensures HasBlocker(db, job)
  {
    var bet: nat :| Blocks(start, job, bet);
    BetsWithGamesAreSingles(start);
    OneBadBetStarvesTheGame(start, actions, job.game, bet);
    assert Blocks(db, job, bet);
  }

  lemma {:induction false} RaiseEnds(start: Db, actions: seq<Action>, db: Db, job: Job, p: Proc)
    requires Underway(start, actions, db, job, p) && p.GradeBets? && p.bets != [] && p.bets[0] < |db.bets|
    requires Outcome(db.bets[p.bets[0]].terms, job.feed).None? && !IsProp(db.bets[p.bets[0]].terms.market)
    ensures Ended(start, actions + [Step(0, [])], db, job, Raised(p.graded))
  {
    RaiseContinues(start, actions, db, job, p);
    StillBlocked(start, actions, db, job, p);
    Ends(start, actions, db, job, p);
    RaisedEnds(start, actions + [Step(0, [])], db, job, p.graded);
  }

  lemma RaisedEnds(start: Db, actions: seq<Action>, db: Db, job: Job, graded: nat)
    requires Kept(start, db, job, graded) && Reached(start, actions, db, Raised(graded))
    requires HasBlocker(start, job) && HasBlocker(db, job)
    ensures Ended(start, actions, db, job, Raised(graded))
  {
  }

  /** One turn of the per-bet loop: it raises exactly on a bet that blocks, and goes on with the rest otherwise. */
  lemma {:induction false} BetTurn(start: Db, actions: seq<Action>, db: Db, job: Job, p: Proc)
    requires Underway(start, actions, db, job, p) && p.GradeBets? && p.bets != []
    requires p.bets[0] < |db.bets|
    ensures var (db', claim) := GradeQueued(db, p.bets[0], job.feed);
            var one := if claim == Some(Applied) then 1 else 0;
            if claim.None? && !IsProp(db.bets[p.bets[0]].terms.market)
            then Ended(start, actions + [Step(0, [])], db', job, Raised(p.graded))
            else !Blocks(start, job, p.bets[0])
                 && Underway(start, actions + [Step(0, [])], db', job,
                             GradeBets(job, p.bets[1..], p.legs, p.graded + one))
  {
    QueueHead(start, actions, db, job, p);
    StepBetIs(db, job, p.bets, p.legs, p.graded);
    if Outcome(db.bets[p.bets[0]].terms, job.feed).None? && !IsProp(db.bets[p.bets[0]].terms.market) {
      RaiseEnds(start, actions, db, job, p);
    } else {
      BetContinues(start, actions, db, job, p);
    }
  }

  lemma LegHead(start: Db, actions: seq<Action>, db: Db, job: Job, p: Proc)
    requires Underway(start, actions, db, job, p) && p.GradeLegs? && p.legs != []
    ensures p.legs[0] < |db.legs|
  {
    UnderwayIsSafe(start, actions, db, job, p);
    assert p.legs[0] in p.legs;
  }

  lemma NothingToDo(start: Db, actions: seq<Action>, db: Db, job: Job)
    requires Underway(start, actions, db, job, Done(0)) && !HasBlocker(start, job)
    ensures Ended(start, actions, db, job, Done(0))
  {
    Ends(start, actions, db, job, Done(0));
  }

  lemma {:induction false} DoneEnds(start: Db, actions: seq<Action>, db: Db, job: Job, graded: nat)
    requires Underway(start, actions, db, job, SettleParents([], CountLegs, false, graded)) && !HasBlocker(start, job)
    ensures Ended(start, actions + [Step(0, [])], db, job, Done(graded))
  {
    var p := SettleParents([], CountLegs, false, graded);
    Ends(start, actions, db, job, p);
    Returns(start, actions, db, graded);
  }

  lemma Returns(start: Db, actions: seq<Action>, db: Db, graded: nat)
    requires Reached(start, actions, db, SettleParents([], CountLegs, false, graded))
    ensures Reached(start, actions + [Step(0, [])], db, Done(graded))
  {
    ContinuesTo(start, actions, db, SettleParents([], CountLegs, false, graded), (db, Done(graded)));
  }

  ghost predicate NoneBlocks(start: Db, job: Job, bets: seq<nat>) {
    forall bet: nat :: bet in bets ==> !Blocks(start, job, bet)
  }

  /** A queue that has every open score bet of the game, none of which raises, means no bet raises. */
  lemma NoBlocker(start: Db, job: Job, bets: seq<nat>)
    requires ListsOpenBets(start, job.game, bets)
    requires NoneBlocks(start, job, GradingOrder(start, bets))
    ensures !HasBlocker(start, job)
  {
    GradingOrderMembers(start, bets);
    assert forall bet: nat :: Blocks(start, job, bet) ==> bet in bets;
  }

  // ---------- grade_manual ----------

  /** grade_manual answers with an error: no such bet, graded and not forced, legs still open, or no result for it. */
  ghost predicate Refuses(db: Db, bet: nat, feed: Option<Feed>, force: bool) {
    || bet >= |db.bets|
    || (!OpenBet(db, bet) && !force)
    || (if db.bets[bet].isParlay then !NoOpenLeg(db, bet)
        else db.bets[bet].game.None? || feed.None? || Outcome(db.bets[bet].terms, feed.value).None?)
  }

  /** The bet carries the grade the rules give it, and every other row is as it was. */
  ghost predicate RegradesOnly(db: Db, after: Db, bet: nat, feed: Option<Feed>)
    requires bet < |db.bets|
  {
    && after.legs == db.legs && |after.bets| == |db.bets|
    && (forall i :: 0 <= i < |db.bets| && i != bet ==> after.bets[i] == db.bets[i])
    && (forall i :: i != bet ==> (i in after.grades <==> i in db.grades))
    && (forall i :: i in db.grades && i != bet ==> after.grades[i] == db.grades[i])
    && (if db.bets[bet].isParlay then CarriesSettlement(after, bet)
        else
          && feed.Some?
          && Outcome(db.bets[bet].terms, feed.value) == Some(after.bets[bet].status)
          && bet in after.grades
          && after.grades[bet].profit
             == Numeric4(ProfitLoss(after.bets[bet].status, db.bets[bet].stake, db.bets[bet].odds)))
  }

  lemma GradeAtRegrades(db: Db, bet: nat, status: Status, price: real, force: bool)
    requires GradesMatch(db) && bet < |db.bets| && (OpenBet(db, bet) || force)
    ensures var (after, claim) := GradeAt(db, bet, status, price, force);
            && claim.Applied? && after.legs == db.legs
            && after.bets == db.bets[bet := db.bets[bet].(status := status)]
            && after.grades == db.grades[bet := Grade(Numeric4(ProfitLoss(status, db.bets[bet].stake, price)))]
  {
  }

  lemma {:induction false} SettleRegrades(db: Db, bet: nat, feed: Option<Feed>, force: bool)
    requires Consistent(db) && !Refuses(db, bet, feed, force) && db.bets[bet].isParlay
    ensures var (after, applied) := SettleIfDecided(db, bet, force);
            applied && Consistent(after) && Evolves(db, after) && RegradesOnly(db, after, bet, feed)
  {
    NoOpenLegs(db, bet);
    ParentSettles(db, bet);
    SettleIsSafe(db, bet, force);
    var s := ParentSettlement(db, bet);
    GradeAtRegrades(db, bet, s.status, s.price, force);
    LegOfStable(db, SettleIfDecided(db, bet, force).0, bet);
    assert ParentMatches(SettleIfDecided(db, bet, force).0, bet);
  }

  lemma FindContinues(start: Db, bet: nat, feed: Option<Feed>, force: bool) returns (actions: seq<Action>)
    ensures Reached(start, actions, start, StepManualFind(start, bet, feed, force))
  {
    var call := ManualFind(bet, feed, force);
    Starts(start, call);
    ContinuesTo(start, [Spawn(call)], start, call, (start, StepManualFind(start, bet, feed, force)));
    actions := [Spawn(call)] + [Step(0, [])];
  }

  lemma ManualRefused(start: Db, bet: nat, feed: Option<Feed>, force: bool) returns (actions: seq<Action>)
    requires Refuses(start, bet, feed, force)
    ensures Reached(start, actions, start, Raised(0))
  {
    actions := FindContinues(start, bet, feed, force);
    if bet < |start.bets| && (OpenBet(start, bet) || force) && start.bets[bet].isParlay {
      NoOpenLegs(start, bet);
      ContinuesTo(start, actions, start, ManualLegs(bet, force), (start, Raised(0)));
      actions := actions + [Step(0, [])];
    }
  }

  lemma {:induction false} ParlaySteps(start: Db, bet: nat, feed: Option<Feed>, force: bool) returns (actions: seq<Action>)
    requires StepManualFind(start, bet, feed, force) == ManualLegs(bet, force) && OpenLegCount(start, bet) == 0
    requires IsParlay(start, bet) && Decides(start, bet, force) && SettleIfDecided(start, bet, force).1
    ensures Reached(start, actions, SettleIfDecided(start, bet, force).0, Done(1))
  {
    actions := FindContinues(start, bet, feed, force);
    ContinuesTo(start, actions, start, ManualLegs(bet, force), (start, SettleParents([bet], CountLegs, force, 0)));
    actions := actions + [Step(0, [])];
    actions := SettleContinues(start, actions, start, [bet], force, 0, ManualFind(bet, feed, force));
    var after := SettleIfDecided(start, bet, force).0;
    assert [bet][1..] == [];
    ContinuesTo(start, actions, after, SettleParents([], CountLegs, force, 1), (after, Done(1)));
    actions := actions + [Step(0, [])];
  }

  lemma ManualParlay(start: Db, bet: nat, feed: Option<Feed>, force: bool) returns (actions: seq<Action>)
    requires Consistent(start) && !Refuses(start, bet, feed, force) && start.bets[bet].isParlay
    ensures Reached(start, actions, SettleIfDecided(start, bet, force).0, Done(1))
  {
    NoOpenLegs(start, bet);
    SettleIsSafe(start, bet, force);
    SettleRegrades(start, bet, feed, force);
    actions := ParlaySteps(start, bet, feed, force);
  }

  lemma SingleSteps(start: Db, bet: nat, status: Status, feed: Option<Feed>, force: bool) returns (actions: seq<Action>)
    requires StepManualFind(start, bet, feed, force) == ManualClaim(bet, status, force)
    requires GradeAt(start, bet, status, OddsOf(start, bet), force).1.Applied?
    ensures Reached(start, actions, GradeAt(start, bet, status, OddsOf(start, bet), force).0, Done(1))
  {
    actions := FindContinues(start, bet, feed, force);
    var after := GradeAt(start, bet, status, OddsOf(start, bet), force).0;
    ContinuesTo(start, actions, start, ManualClaim(bet, status, force), (after, Done(1)));
    actions := actions + [Step(0, [])];
  }

  lemma {:induction false} ManualSingle(start: Db, bet: nat, status: Status, feed: Option<Feed>, force: bool)
    returns (actions: seq<Action>)
    requires Consistent(start) && !Refuses(start, bet, feed, force) && !start.bets[bet].isParlay
    requires Outcome(start.bets[bet].terms, feed.value) == Some(status)
    ensures var after := GradeAt(start, bet, status, OddsOf(start, bet), force).0;
            Reached(start, actions, after, Done(1)) && Consistent(after) && Evolves(start, after)
            && RegradesOnly(start, after, bet, feed)
  {
    GradeAtRegrades(start, bet, status, start.bets[bet].odds, force);
    actions := SingleSteps(start, bet, status, feed, force);
    OutcomeIsDecisive(start.bets[bet].terms, feed.value);
    ClaimSingleSafe(start, bet, status, force);
    SingleRegrades(start, bet, status, feed, force);
  }

  lemma SingleRegrades(start: Db, bet: nat, status: Status, feed: Option<Feed>, force: bool)
    requires GradesMatch(start) && bet < |start.bets| && (OpenBet(start, bet) || force) && !start.bets[bet].isParlay
    requires feed.Some? && Outcome(start.bets[bet].terms, feed.value) == Some(status)
    ensures RegradesOnly(start, GradeAt(start, bet, status, OddsOf(start, bet), force).0, bet, feed)
  {
    GradeAtRegrades(start, bet, status, start.bets[bet].odds, force);
  }

  /** The bet loops have taken the first i of the queue, none of which blocks. */
  ghost predicate InBetQueue(start: Db, actions: seq<Action>, db: Db, job: Job, queue: seq<nat>, i: nat, legs: seq<nat>,
                             graded: nat)
    requires i <= |queue|
  {
    Underway(start, actions, db, job, GradeBets(job, queue[i..], legs, graded)) && NoneBlocks(start, job, queue[..i])
  }

  lemma BetQueueStarts(start: Db, actions: seq<Action>, db: Db, job: Job, queue: seq<nat>, legs: seq<nat>)
    requires Underway(start, actions, db, job, GradeBets(job, queue, legs, 0))
    ensures InBetQueue(start, actions, db, job, queue, 0, legs, 0)
  {
    assert queue[0..] == queue;
  }

  lemma QueueSlices(start: Db, job: Job, queue: seq<nat>, i: nat)
    requires i < |queue| && NoneBlocks(start, job, queue[..i])
    ensures queue[i..] != [] && queue[i..][0] == queue[i] && queue[i..][1..] == queue[i + 1..]
    ensures !Blocks(start, job, queue[i]) ==> NoneBlocks(start, job, queue[..i + 1])
  {
    assert queue[i..][1..] == queue[i + 1..] && queue[..i + 1] == queue[..i] + [queue[i]];
  }

  /** BetTurn, for the next of the queue. */
  lemma {:induction false} QueueTurn(start: Db, actions: seq<Action>, db: Db, job: Job, queue: seq<nat>, i: nat,
                                     legs: seq<nat>, graded: nat)
    requires i < |queue| && InBetQueue(start, actions, db, job, queue, i, legs, graded)
    ensures queue[i] < |db.bets|
    ensures var (db', claim) := GradeQueued(db, queue[i], job.feed);
            var more := actions + [Step(0, [])];
            if claim.None? && !IsProp(db.bets[queue[i]].terms.market)
            then Ended(start, more, db', job, Raised(graded))
            else InBetQueue(start, more, db', job, queue, i + 1, legs, graded + if claim == Some(Applied) then 1 else 0)
  {
    var p := GradeBets(job, queue[i..], legs, graded);
    QueueSlices(start, job, queue, i);
    QueueHead(start, actions, db, job, p);
    BetTurn(start, actions, db, job, p);
  }

  lemma {:induction false} BetQueueEnds(start: Db, actions: seq<Action>, db: Db, job: Job, queue: seq<nat>,
                                        legs: seq<nat>, graded: nat)
    requires InBetQueue(start, actions, db, job, queue, |queue|, legs, graded)
    ensures Underway(start, actions + [Step(0, [])], db, job, GradeLegs(job, legs, [], graded))
    ensures NoneBlocks(start, job, queue)
  {
    assert queue[|queue|..] == [] && queue[..|queue|] == queue;
    BetContinues(start, actions, db, job, GradeBets(job, [], legs, graded));
  }

  /** The loop over legs has taken the first i of them. */
  ghost predicate InLegQueue(start: Db, actions: seq<Action>, db: Db, job: Job, legs: seq<nat>, i: nat,
                             parents: seq<nat>, graded: nat)
    requires i <= |legs|
  {
    Underway(start, actions, db, job, GradeLegs(job, legs[i..], parents, graded))
  }

  /** What one turn does to the tables and to the touched parents. */
  function MarkLeg(db: Db, leg: nat, feed: Feed, parents: seq<nat>): (Db, seq<nat>)
    requires leg < |db.legs|
  {
    var outcome := Outcome(db.legs[leg].terms, feed);
    if outcome.None? then (db, parents)
    else
      var (db', claimed) := GradeLeg(db, leg, outcome.value);
      var parent := db.legs[leg].parent;
      (db', if claimed && parent !in parents then parents + [parent] else parents)
  }

  lemma LegQueueStarts(start: Db, actions: seq<Action>, db: Db, job: Job, legs: seq<nat>, graded: nat)
    requires Underway(start, actions, db, job, GradeLegs(job, legs, [], graded))
    ensures InLegQueue(start, actions, db, job, legs, 0, [], graded)
  {
    assert legs[0..] == legs;
  }

  lemma StepLegIs(db: Db, job: Job, legs: seq<nat>, parents: seq<nat>, graded: nat)
    requires legs != [] && legs[0] < |db.legs|
    ensures var (db', touched) := MarkLeg(db, legs[0], job.feed, parents);
            StepLeg(db, GradeLegs(job, legs, parents, graded)) == (db', GradeLegs(job, legs[1..], touched, graded))
  {
  }

  lemma {:induction false} LegTurn(start: Db, actions: seq<Action>, db: Db, job: Job, legs: seq<nat>, i: nat,
                                   parents: seq<nat>, graded: nat)
    requires i < |legs| && InLegQueue(start, actions, db, job, legs, i, parents, graded)
    ensures legs[i] < |db.legs|
    ensures var (db', touched) := MarkLeg(db, legs[i], job.feed, parents);
            InLegQueue(start, actions + [Step(0, [])], db', job, legs, i + 1, touched, graded)
  {
    var p := GradeLegs(job, legs[i..], parents, graded);
    assert p.legs[0] == legs[i] && p.legs[1..] == legs[i + 1..];
    LegHead(start, actions, db, job, p);
    StepLegIs(db, job, p.legs, parents, graded);
    LegContinues(start, actions, db, job, p);
  }

  lemma {:induction false} LegQueueEnds(start: Db, actions: seq<Action>, db: Db, job: Job, legs: seq<nat>,
                                        parents: seq<nat>, graded: nat)
    requires InLegQueue(start, actions, db, job, legs, |legs|, parents, graded)
    ensures Underway(start, actions + [Step(0, [])], db, job, SettleParents(parents, CountLegs, false, graded))
  {
    assert legs[|legs|..] == [];
    LegContinues(start, actions, db, job, GradeLegs(job, [], parents, graded));
  }

  /** The loop over touched parents has attempted the first i of them. */
  ghost predicate InParentQueue(start: Db, actions: seq<Action>, db: Db, job: Job, parents: seq<nat>, i: nat,
                                total: nat)
    requires i <= |parents|
  {
    Underway(start, actions, db, job, SettleParents(parents[i..], CountLegs, false, total))
  }

  lemma ParentQueueStarts(start: Db, actions: seq<Action>, db: Db, job: Job, parents: seq<nat>, graded: nat)
    requires Underway(start, actions, db, job, SettleParents(parents, CountLegs, false, graded))
    ensures InParentQueue(start, actions, db, job, parents, 0, graded)
  {
    assert parents[0..] == parents;
  }

  lemma {:induction false} ParentTurn(start: Db, actions: seq<Action>, db: Db, job: Job, parents: seq<nat>, i: nat,
                                      total: nat)
    returns (more: seq<Action>)
    requires i < |parents| && InParentQueue(start, actions, db, job, parents, i, total)
    ensures var (db', applied) := SettleIfDecided(db, parents[i], false);
            InParentQueue(start, more, db', job, parents, i + 1, total + if applied then 1 else 0)
  {
    assert parents[i..][0] == parents[i] && parents[i..][1..] == parents[i + 1..];
    more := ParentContinues(start, actions, db, job, parents[i..], total);
  }

  lemma ParentQueueEnds(start: Db, actions: seq<Action>, db: Db, job: Job, parents: seq<nat>, total: nat)
    requires InParentQueue(start, actions, db, job, parents, |parents|, total)
    ensures Underway(start, actions, db, job, SettleParents([], CountLegs, false, total))
  {
    assert parents[|parents|..] == [];
  }

  class GraderService {
    const repo: PaperBetRepository

    constructor (repo: PaperBetRepository)
      ensures this.repo == repo
    {
      this.repo := repo;
    }

    /** _grade_one and _apply_prop_grade. */
    method GradeOne(bet: nat, feed: Feed, force: bool) returns (claim: Option<Claim>)
      requires bet < |repo.bets|
      modifies repo
      ensures (repo.State(), claim) == GradeSingle(old(repo.State()), bet, feed, force)
    {
      var row := repo.bets[bet];
      var outcome := Outcome(row.terms, feed);
      if outcome.None? {
        return None;
      }
      var applied := repo.ApplyGrade(bet, outcome.value, ProfitLoss(outcome.value, row.stake, row.odds), force);
      claim := Some(applied);
    }

    method SettleParlayIfDecided(parent: nat, force: bool) returns (applied: bool)
      modifies repo
      ensures (repo.State(), applied) == SettleIfDecided(old(repo.State()), parent, force)
      ensures applied <==> Settleable(old(repo.State()), parent, force)
      ensures if applied then repo.State().legs == old(repo.State()).legs && parent < |repo.State().bets|
                              && CarriesSettlement(repo.State(), parent)
              else repo.State() == old(repo.State())
    {
      SettlesOrLeaves(repo.State(), parent, force);
      if OpenLegCount(repo.State(), parent) > 0 {
        return false;
      }
      if parent >= |repo.bets| {
        return false;
      }
      var settled := ParentSettlement(repo.State(), parent);
      if !settled.Settled? {
        return false;
      }
      var profit := ProfitLoss(settled.status, repo.bets[parent].stake, settled.price);
      var claim := repo.ApplyGrade(parent, settled.status, profit, force);
      applied := claim.Applied?;
    }

    /** One turn of the loops over score bets and player props. */
    method TakeBet(job: Job, queue: seq<nat>, i: nat, ghost legs: seq<nat>, ghost graded: nat, ghost start: Db,
                   ghost actions: seq<Action>)
      returns (raised: bool, one: nat, ghost more: seq<Action>)
      requires i < |queue| && InBetQueue(start, actions, repo.State(), job, queue, i, legs, graded)
      modifies repo
      ensures if raised then Ended(start, more, repo.State(), job, Raised(graded))
              else InBetQueue(start, more, repo.State(), job, queue, i + 1, legs, graded + one)
    {
      QueueTurn(start, actions, repo.State(), job, queue, i, legs, graded);
      more := actions + [Step(0, [])];
      var market := repo.bets[queue[i]].terms.market;
      var claim := GradeOne(queue[i], job.feed, false);
      raised := claim.None? && !IsProp(market);
      one := if claim == Some(Applied) then 1 else 0;
    }

    /** The loops over score bets and player props. */
    method GradeBetQueue(job: Job, queue: seq<nat>, ghost legs: seq<nat>, ghost start: Db, ghost actions: seq<Action>)
      returns (raised: bool, graded: nat, ghost more: seq<Action>)
      requires Underway(start, actions, repo.State(), job, GradeBets(job, queue, legs, 0))
      modifies repo
      ensures if raised then Ended(start, more, repo.State(), job, Raised(graded))
              else Underway(start, more, repo.State(), job, GradeLegs(job, legs, [], graded))
      ensures !raised ==> NoneBlocks(start, job, queue)
    {
      graded, more := 0, actions;
      var i := 0;
      BetQueueStarts(start, actions, repo.State(), job, queue, legs);
      while i < |queue|
        invariant i <= |queue| && InBetQueue(start, more, repo.State(), job, queue, i, legs, graded)
      {
        var raises, one, next := TakeBet(job, queue, i, legs, graded, start, more);
        more := next;
        if raises {
          return true, graded, more;
        }
        graded := graded + one;
        i := i + 1;
      }
      BetQueueEnds(start, more, repo.State(), job, queue, legs, graded);
      more := more + [Step(0, [])];
      raised := false;
    }

    /** One turn of the loop of _grade_parlay_legs over legs. */
    method TakeLeg(job: Job, legs: seq<nat>, i: nat, parents: seq<nat>, ghost graded: nat, ghost start: Db,
                   ghost actions: seq<Action>)
      returns (touched: seq<nat>, ghost more: seq<Action>)
      requires i < |legs| && InLegQueue(start, actions, repo.State(), job, legs, i, parents, graded)
      modifies repo
      ensures InLegQueue(start, more, repo.State(), job, legs, i + 1, touched, graded)
    {
      LegTurn(start, actions, repo.State(), job, legs, i, parents, graded);
      more := actions + [Step(0, [])];
      touched := parents;
      var leg := repo.legs[legs[i]];
      var outcome := Outcome(leg.terms, job.feed);
      if outcome.Some? {
        var claimed := repo.GradeLeg(legs[i], outcome.value);
        if claimed && leg.parent !in parents {
          touched := parents + [leg.parent];
        }
      }
    }

    /** The loop of _grade_parlay_legs over legs; `parents` is its insertion-ordered set. */
    method GradeLegQueue(job: Job, legs: seq<nat>, ghost graded: nat, ghost start: Db, ghost actions: seq<Action>)
      returns (parents: seq<nat>, ghost more: seq<Action>)
      requires Underway(start, actions, repo.State(), job, GradeLegs(job, legs, [], graded))
      modifies repo
      ensures Underway(start, more, repo.State(), job, SettleParents(parents, CountLegs, false, graded))
    {
      parents, more := [], actions;
      LegQueueStarts(start, actions, repo.State(), job, legs, graded);
      for i := 0 to |legs|
        invariant InLegQueue(start, more, repo.State(), job, legs, i, parents, graded)
      {
        var touched, next := TakeLeg(job, legs, i, parents, graded, start, more);
        parents, more := touched, next;
      }
      LegQueueEnds(start, more, repo.State(), job, legs, parents, graded);
      more := more + [Step(0, [])];
    }

    /** The loop of _grade_parlay_legs over the touched parents. */
    method SettleTouched(job: Job, parents: seq<nat>, graded: nat, ghost start: Db, ghost actions: seq<Action>)
      returns (total: nat, ghost more: seq<Action>)
      requires Underway(start, actions, repo.State(), job, SettleParents(parents, CountLegs, false, graded))
      modifies repo
      ensures Underway(start, more, repo.State(), job, SettleParents([], CountLegs, false, total))
    {
      total, more := graded, actions;
      ParentQueueStarts(start, actions, repo.State(), job, parents, graded);
      for i := 0 to |parents|
        invariant InParentQueue(start, more, repo.State(), job, parents, i, total)
      {
        more := ParentTurn(start, more, repo.State(), job, parents, i, total);
        var applied := SettleParlayIfDecided(parents[i], false);
        total := total + if applied then 1 else 0;
      }
      ParentQueueEnds(start, more, repo.State(), job, parents, total);
    }

    /** Grade all open bets and parlay legs on a game. Raised stands for the ValueError an ungradeable score bet lets
        escape. The ghost actions are the call as a run of the protocol. */
    method GradeGame(job: Job) returns (r: Proc, ghost actions: seq<Action>)
      requires Consistent(repo.State())
      modifies repo
      ensures r.Done? || r.Raised?
      ensures Reached(old(repo.State()), actions, repo.State(), r)
      ensures Consistent(repo.State()) && Evolves(old(repo.State()), repo.State())
      ensures OthersKept(old(repo.State()), repo.State(), job.game)
      ensures Claims(r) + GradedRows(old(repo.State())) == GradedRows(repo.State())
      ensures r.Raised? <==> HasBlocker(old(repo.State()), job)
      ensures r.Raised? ==> HasBlocker(repo.State(), job)
      ensures r.Done? ==> NothingLeft(repo.State(), job)
      ensures r.Done? && NothingLeft(old(repo.State()), job) ==> repo.State() == old(repo.State()) && r == Done(0)
    {
      ghost var start := repo.State();
      Begins(start, job);
      actions := [Spawn(FindBets(job))];
      var bets := repo.OpenBetsForGame(job.game);
      QueryContinues(start, actions, start, job, FindBets(job), bets);
      actions := actions + [Step(0, bets)];
      var legs := repo.OpenParlayLegsForGame(job.game);
      QueryContinues(start, actions, start, job, FindLegs(job, bets), legs);
      actions := actions + [Step(0, legs)];
      if bets == [] && legs == [] {
        NoBlocker(start, job, bets);
        NothingToDo(start, actions, start, job);
        return Done(0), actions;
      }
      var queue := GradingOrder(repo.State(), bets);
      var raised, graded, grading := GradeBetQueue(job, queue, legs, start, actions);
      actions := grading;
      if raised {
        return Raised(graded), actions;
      }
      NoBlocker(start, job, bets);
      var parents, marking := GradeLegQueue(job, legs, graded, start, actions);
      var total, settling := SettleTouched(job, parents, graded, start, marking);
      DoneEnds(start, settling, repo.State(), job, total);
      actions := settling + [Step(0, [])];
      r := Done(total);
    }

    /** Manually (re-)grade a bet; Raised stands for its error answers. `feed` is what upstream has for the bet's
        game, if it is final. */
    method GradeManual(bet: nat, feed: Option<Feed>, force: bool) returns (r: Proc, ghost actions: seq<Action>)
      requires Consistent(repo.State())
      modifies repo
      ensures r == if Refuses(old(repo.State()), bet, feed, force) then Raised(0) else Done(1)
      ensures Reached(old(repo.State()), actions, repo.State(), r)
      ensures Consistent(repo.State()) && Evolves(old(repo.State()), repo.State())
      ensures r.Raised? ==> repo.State() == old(repo.State())
      ensures r.Done? ==> RegradesOnly(old(repo.State()), repo.State(), bet, feed)
    {
      ghost var start := repo.State();
      if bet >= |repo.bets| || (!repo.bets[bet].status.OPEN? && !force) {
        actions := ManualRefused(start, bet, feed, force);
        return Raised(0), actions;
      }
      var row := repo.bets[bet];
      if row.isParlay {
        NoOpenLegs(start, bet);
        if OpenLegCount(repo.State(), bet) > 0 {
          actions := ManualRefused(start, bet, feed, force);
          return Raised(0), actions;
        }
        actions := ManualParlay(start, bet, feed, force);
        SettleRegrades(start, bet, feed, force);
        var _ := SettleParlayIfDecided(bet, force);
        return Done(1), actions;
      }
      if row.game.None? || feed.None? || Outcome(row.terms, feed.value).None? {
        actions := ManualRefused(start, bet, feed, force);
        return Raised(0), actions;
      }
      var status := Outcome(row.terms, feed.value).value;
      actions := ManualSingle(start, bet, status, feed, force);
      var _ := GradeOne(bet, feed.value, force);
      r := Done(1);
    }
  }
}
