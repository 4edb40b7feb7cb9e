/** The fallback poller: one cycle sweeps every game that may still have something open, and leaves nothing for the
    next cycle to do. */
module Poller {
  import opened Outcomes
  import opened Grading
  import opened Tables
  import opened Protocol
  import opened Safety
  import opened Starvation
  import opened Bankroll
  import opened Confluence
  import opened Repository
  import opened GraderService

  /** What upstream answers for a game: its result once final, None while it is not or when the call fails. */
  type Upstream = nat -> Option<Feed>

  function Distinct(games: seq<nat>): seq<nat> {
    if games == [] then []
    else
      var n := |games| - 1;
      var rest := Distinct(games[..n]);
      if games[n] in rest then rest else rest + [games[n]]
  }

  lemma {:induction false} DistinctMembers(games: seq<nat>)
    ensures NoDuplicates(Distinct(games))
    ensures forall g :: g in Distinct(games) <==> g in games
  {
    if games != [] {
      var n := |games| - 1;
      DistinctMembers(games[..n]);
      assert games == games[..n] + [games[n]];
    }
  }

  ghost predicate SweptGame(db: Db, cutoff: int, game: nat) {
    || (exists bet: nat :: SweptBet(db, cutoff, bet) && db.bets[bet].game == Some(game))
    || (exists leg: nat :: SweptLeg(db, cutoff, leg) && db.legs[leg].game == Some(game))
  }

  /** Grading this game raises. */
  ghost predicate Blocked(db: Db, upstream: Upstream, game: nat) {
    upstream(game).Some? && HasBlocker(db, Job(game, upstream(game).value))
  }

  /** Nothing upstream has on this game can be graded any more. */
  ghost predicate Exhausted(db: Db, upstream: Upstream, game: nat) {
    upstream(game).Some? ==> NothingLeft(db, Job(game, upstream(game).value))
  }

  ghost predicate CaughtUp(db: Db, cutoff: int, upstream: Upstream) {
    forall g: nat :: SweptGame(db, cutoff, g) ==> Exhausted(db, upstream, g) || Blocked(db, upstream, g)
  }

  ghost predicate NoneBlocked(db: Db, upstream: Upstream, games: set<nat>) {
    forall g :: g in games ==> !Blocked(db, upstream, g)
  }

  /** Singles and legs of this game are as they were. */
  ghost predicate GameKept(before: Db, after: Db, game: nat) {
    && |after.bets| == |before.bets| && |after.legs| == |before.legs|
    && (forall i :: 0 <= i < |before.bets| && before.bets[i].game == Some(game) ==> after.bets[i] == before.bets[i])
    && (forall i :: 0 <= i < |before.legs| && before.legs[i].game == Some(game) ==> after.legs[i] == before.legs[i])
  }

  lemma ExhaustedStays(before: Db, after: Db, upstream: Upstream, game: nat)
    requires Evolves(before, after) && |after.bets| == |before.bets| && |after.legs| == |before.legs|
    requires Exhausted(before, upstream, game)
    ensures Exhausted(after, upstream, game)
  {
    if upstream(game).Some? {
      SameRows(before, after);
      SameTargets(before, after, FindBets(Job(game, upstream(game).value)));
    }
  }

  /** Grading one game neither adds nor clears a bet that raises, on that game or any other. */
  lemma BlockedStays(before: Db, after: Db, upstream: Upstream, job: Job, game: nat)
    requires Evolves(before, after) && OthersKept(before, after, job.game) && upstream(job.game) == Some(job.feed)
    requires HasBlocker(before, job) ==> HasBlocker(after, job)
    ensures Blocked(before, upstream, game) <==> Blocked(after, upstream, game)
  {
    SameRows(before, after);
    if Blocked(after, upstream, game) {
      var j := Job(game, upstream(game).value);
      var bet: nat :| Blocks(after, j, bet);
      assert Blocks(before, j, bet);
    }
    if Blocked(before, upstream, game) && game != job.game {
      var j := Job(game, upstream(game).value);
      var bet: nat :| Blocks(before, j, bet);
      assert Blocks(after, j, bet);
    }
  }

  lemma SweptBefore(before: Db, after: Db, cutoff: int, game: nat)
    requires Evolves(before, after) && |after.bets| == |before.bets| && |after.legs| == |before.legs|
    requires SweptGame(after, cutoff, game)
    ensures SweptGame(before, cutoff, game)
  {
    forall i | 0 <= i < |before.bets|
      ensures after.bets[i].startAt == before.bets[i].startAt && after.bets[i].game == before.bets[i].game
    {
      assert after.bets[i].(status := OPEN).startAt == before.bets[i].(status := OPEN).startAt;
      assert after.bets[i].(status := OPEN).game == before.bets[i].(status := OPEN).game;
    }
    forall i | 0 <= i < |before.legs|
      ensures after.legs[i].parent == before.legs[i].parent && after.legs[i].game == before.legs[i].game
      ensures OpenLeg(after, i) ==> OpenLeg(before, i)
    {
      assert after.legs[i].(status := OPEN).parent == before.legs[i].(status := OPEN).parent;
      assert after.legs[i].(status := OPEN).game == before.legs[i].(status := OPEN).game;
    }
    if bet: nat :| SweptBet(after, cutoff, bet) && after.bets[bet].game == Some(game) {
      assert SweptBet(before, cutoff, bet) && before.bets[bet].game == Some(game);
    } else {
      var leg: nat :| SweptLeg(after, cutoff, leg) && after.legs[leg].game == Some(game);
      assert SweptLeg(before, cutoff, leg) && before.legs[leg].game == Some(game);
    }
  }

  /** The same games raise. */
  ghost predicate SameBlocked(start: Db, db: Db, upstream: Upstream) {
    forall g: nat :: Blocked(start, upstream, g) <==> Blocked(db, upstream, g)
  }

  ghost predicate Handled(db: Db, upstream: Upstream, done: set<nat>) {
    forall g :: g in done ==> Exhausted(db, upstream, g) || Blocked(db, upstream, g)
  }

  ghost predicate OnlyMoved(start: Db, db: Db, upstream: Upstream, done: set<nat>) {
    forall g: nat :: g !in done || upstream(g).None? ==> GameKept(start, db, g)
  }

  ghost predicate Counted(start: Db, db: Db, upstream: Upstream, done: set<nat>, graded: nat) {
    && graded + GradedRows(start) <= GradedRows(db)
    && (NoneBlocked(start, upstream, done) ==> graded + GradedRows(start) == GradedRows(db))
  }

  ghost predicate IdleWhenCaughtUp(start: Db, db: Db, cutoff: int, upstream: Upstream, done: set<nat>, graded: nat) {
    CaughtUp(start, cutoff, upstream) ==> graded == 0 && (NoneBlocked(start, upstream, done) ==> db == start)
  }

  ghost predicate SameSize(start: Db, db: Db) {
    |db.bets| == |start.bets| && |db.legs| == |start.legs|
  }

  ghost function Firsts(games: seq<nat>, i: nat): set<nat>
    requires i <= |games|
  {
    set j | 0 <= j < i :: games[j]
  }

  lemma FirstsNext(games: seq<nat>, i: nat)
    requires i < |games|
    ensures Firsts(games, i + 1) == Firsts(games, i) + {games[i]}
  {
  }

  /** What a cycle has kept and done after working through the first i games. */
  ghost predicate Cycle(start: Db, db: Db, cutoff: int, upstream: Upstream, games: seq<nat>, i: nat, graded: nat)
    requires i <= |games|
  {
    var done := Firsts(games, i);
    && Consistent(db) && Evolves(start, db) && SameSize(start, db)
    && SameBlocked(start, db, upstream) && Handled(db, upstream, done) && OnlyMoved(start, db, upstream, done)
    && Counted(start, db, upstream, done, graded)
    && IdleWhenCaughtUp(start, db, cutoff, upstream, done, graded)
  }

  lemma {:induction false} CycleSkips(start: Db, db: Db, cutoff: int, upstream: Upstream, games: seq<nat>, i: nat,
                                      graded: nat)
    requires i < |games| && Cycle(start, db, cutoff, upstream, games, i, graded) && upstream(games[i]).None?
    ensures Cycle(start, db, cutoff, upstream, games, i + 1, graded)
  {
    var done, game := Firsts(games, i), games[i];
    FirstsNext(games, i);
    assert Exhausted(db, upstream, game) && !Blocked(start, upstream, game);
    assert NoneBlocked(start, upstream, done + {game}) ==> NoneBlocked(start, upstream, done) by {
      assert forall g :: g in done ==> g in done + {game};
    }
  }

  /** One call of grade_game, as its contract has it. */
  ghost predicate GameGraded(before: Db, after: Db, job: Job, r: Proc) {
    && Evolves(before, after) && OthersKept(before, after, job.game)
    && (r.Done? || r.Raised?)
    && Claims(r) + GradedRows(before) == GradedRows(after)
    && (r.Raised? <==> HasBlocker(before, job)) && (r.Raised? ==> HasBlocker(after, job))
    && (r.Done? ==> NothingLeft(after, job))
    && (r.Done? && NothingLeft(before, job) ==> after == before && r == Done(0))
  }

  lemma HandledNext(start: Db, before: Db, after: Db, upstream: Upstream, done: set<nat>, job: Job, r: Proc)
    requires SameBlocked(start, before, upstream) && Handled(before, upstream, done)
    requires GameGraded(before, after, job, r) && upstream(job.game) == Some(job.feed)
    ensures SameBlocked(start, after, upstream) && Handled(after, upstream, done + {job.game})
  {
    forall g: nat ensures Blocked(before, upstream, g) <==> Blocked(after, upstream, g) {
      BlockedStays(before, after, upstream, job, g);
    }
    forall g | g in done + {job.game} ensures Exhausted(after, upstream, g) || Blocked(after, upstream, g) {
      if g != job.game && Exhausted(before, upstream, g) {
        ExhaustedStays(before, after, upstream, g);
      }
    }
  }

  lemma MovedNext(start: Db, before: Db, after: Db, upstream: Upstream, done: set<nat>, game: nat)
    requires Evolves(start, before) && OnlyMoved(start, before, upstream, done)
    requires OthersKept(before, after, game) && upstream(game).Some?
    ensures OnlyMoved(start, after, upstream, done + {game})
  {
    SameRows(start, before);
    forall g: nat | g !in done + {game} || upstream(g).None? ensures GameKept(start, after, g) {
      assert g in done ==> g in done + {game};
    }
  }

  lemma NoneBlockedNext(start: Db, upstream: Upstream, done: set<nat>, game: nat)
    ensures NoneBlocked(start, upstream, done + {game}) ==>
              NoneBlocked(start, upstream, done) && !Blocked(start, upstream, game)
  {
    assert game in done + {game};
    assert forall g :: g in done ==> g in done + {game};
  }

  lemma CountedNext(start: Db, before: Db, after: Db, upstream: Upstream, done: set<nat>, graded: nat, game: nat, r: Proc)
    requires Counted(start, before, upstream, done, graded)
    requires (r.Done? || r.Raised?) && Claims(r) + GradedRows(before) == GradedRows(after)
    requires r.Raised? <==> Blocked(start, upstream, game)
    ensures Counted(start, after, upstream, done + {game}, graded + if r.Done? then r.graded else 0)
  {
    NoneBlockedNext(start, upstream, done, game);
  }

  lemma IdleNext(start: Db, before: Db, after: Db, cutoff: int, upstream: Upstream, done: set<nat>, graded: nat,
                 game: nat, r: Proc)
    requires IdleWhenCaughtUp(start, before, cutoff, upstream, done, graded)
    requires (r.Done? || r.Raised?) && (r.Raised? <==> Blocked(start, upstream, game))
    requires SweptGame(start, cutoff, game)
    requires r.Done? && Exhausted(start, upstream, game) ==> after == before && r == Done(0)
    ensures IdleWhenCaughtUp(start, after, cutoff, upstream, done + {game},
                             graded + if r.Done? then r.graded else 0)
  {
    NoneBlockedNext(start, upstream, done, game);
  }

  lemma {:induction false} CycleGrades(start: Db, before: Db, after: Db, cutoff: int, upstream: Upstream,
                                       games: seq<nat>, i: nat, graded: nat, job: Job, r: Proc)
    requires i < |games| && Cycle(start, before, cutoff, upstream, games, i, graded) && Consistent(after)
    requires GameGraded(before, after, job, r) && job.game == games[i]
    requires upstream(job.game) == Some(job.feed) && SweptGame(start, cutoff, job.game)
    ensures Cycle(start, after, cutoff, upstream, games, i + 1, graded + if r.Done? then r.graded else 0)
  {
    var done := Firsts(games, i);
    FirstsNext(games, i);
    EvolvesTransitive(start, before, after);
    HandledNext(start, before, after, upstream, done, job, r);
    MovedNext(start, before, after, upstream, done, job.game);
    assert Blocked(start, upstream, job.game) <==> Blocked(before, upstream, job.game);
    CountedNext(start, before, after, upstream, done, graded, job.game, r);
    if Exhausted(start, upstream, job.game) {
      ExhaustedStays(start, before, upstream, job.game);
    }
    IdleNext(start, before, after, cutoff, upstream, done, graded, job.game, r);
  }

  /** No swept game raises. */
  ghost predicate NoSweptBlocked(db: Db, cutoff: int, upstream: Upstream) {
    forall g: nat :: SweptGame(db, cutoff, g) ==> !Blocked(db, upstream, g)
  }

  /** What one cycle over the swept games does: afterwards each is exhausted or raises, all other rows are as they were,
      and the count is of the rows that left OPEN. Nothing left to do means nothing counted, and nothing changed if no
      game raises. */
  ghost predicate CycleDone(start: Db, db: Db, cutoff: int, upstream: Upstream, graded: nat) {
    && Consistent(db) && Evolves(start, db) && SameSize(start, db)
    && CaughtUp(db, cutoff, upstream)
    && graded + GradedRows(start) <= GradedRows(db)
    && (NoSweptBlocked(start, cutoff, upstream) ==> graded + GradedRows(start) == GradedRows(db))
    && (forall g: nat :: !SweptGame(start, cutoff, g) || upstream(g).None? ==> GameKept(start, db, g))
    && (CaughtUp(start, cutoff, upstream) ==> graded == 0)
    && (CaughtUp(start, cutoff, upstream) && NoSweptBlocked(start, cutoff, upstream) ==> db == start)
  }

  lemma CycleStarts(db: Db, cutoff: int, upstream: Upstream, games: seq<nat>)
    requires Consistent(db)
    ensures Cycle(db, db, cutoff, upstream, games, 0, 0)
  {
  }

  lemma CycleEnds(start: Db, db: Db, cutoff: int, upstream: Upstream, games: seq<nat>, graded: nat)
    requires Cycle(start, db, cutoff, upstream, games, |games|, graded)
    requires forall g: nat :: g in games <==> SweptGame(start, cutoff, g)
    ensures CycleDone(start, db, cutoff, upstream, graded)
  {
    forall g: nat | SweptGame(db, cutoff, g) ensures Exhausted(db, upstream, g) || Blocked(db, upstream, g) {
      SweptBefore(start, db, cutoff, g);
    }
    assert NoSweptBlocked(start, cutoff, upstream) ==> NoneBlocked(start, upstream, Firsts(games, |games|));
  }

  /** After a cycle a swept row is open only if its game raises, is not final upstream, or cannot grade it. */
  lemma OnlyUngradeableStaysOpen(db: Db, cutoff: int, upstream: Upstream, game: nat, bet: nat, leg: nat)
    requires CaughtUp(db, cutoff, upstream) && upstream(game).Some? && !Blocked(db, upstream, game)
    ensures SweptBet(db, cutoff, bet) && IsSingle(db, bet) && db.bets[bet].game == Some(game) ==>
              Outcome(db.bets[bet].terms, upstream(game).value).None?
    ensures SweptLeg(db, cutoff, leg) && db.legs[leg].game == Some(game) ==>
              Outcome(db.legs[leg].terms, upstream(game).value).None?
  {
    var call := FindBets(Job(game, upstream(game).value));
    if SweptBet(db, cutoff, bet) && IsSingle(db, bet) && db.bets[bet].game == Some(game) {
      assert SweptGame(db, cutoff, game) && !TargetsBet(db, call, bet);
    }
    if SweptLeg(db, cutoff, leg) && db.legs[leg].game == Some(game) {
      assert SweptGame(db, cutoff, game) && !TargetsLeg(db, call, leg);
    }
  }

  function Total(counts: seq<nat>): nat {
    if counts == [] then 0 else Total(counts[..|counts| - 1]) + counts[|counts| - 1]
  }

  /** Every open score bet is one that some result, and so every result, grades. */
  ghost predicate AllGradeable(db: Db) {
    forall bet: nat :: OpenBet(db, bet) && db.bets[bet].game.Some? && !IsProp(db.bets[bet].terms.market) ==>
      Gradeable(db.bets[bet].terms)
  }

  lemma NoneEverBlocks(start: Db, db: Db, cutoff: int, upstream: Upstream)
    requires Evolves(start, db) && |db.bets| == |start.bets| && AllGradeable(start)
    ensures NoSweptBlocked(db, cutoff, upstream)
  {
    forall g: nat ensures !Blocked(db, upstream, g) {
      forall bet: nat | OpenBetOn(db, g, bet) && !IsProp(db.bets[bet].terms.market)
        ensures Gradeable(db.bets[bet].terms)
      {
        SameRow(start, db, bet);
        assert OpenBet(start, bet);
      }
      if upstream(g).Some? {
        RaisesExactly(db, Job(g, upstream(g).value));
      }
    }
  }

  lemma SameRow(before: Db, after: Db, bet: nat)
    requires Evolves(before, after) && bet < |before.bets|
    ensures var a, b := after.bets[bet], before.bets[bet];
            a.terms == b.terms && a.game == b.game && a.startAt == b.startAt && (a.status.OPEN? ==> b.status.OPEN?)
  {
    var a, b := after.bets[bet].(status := OPEN), before.bets[bet].(status := OPEN);
    assert a == b && a.terms == b.terms && a.game == b.game && a.startAt == b.startAt;
  }

  /** No stored start lies between the two cutoffs. */
  ghost predicate NoneStarts(db: Db, from: int, to: int) {
    forall bet: nat :: StartedBefore(db, bet, to) ==> StartedBefore(db, bet, from)
  }

  /** Between cycle k and the one before it nothing stored has started and upstream's answers have not changed. */
  ghost predicate NothingNew(db: Db, cutoffs: seq<int>, answers: seq<Upstream>, k: nat) {
    0 < k < |cutoffs| == |answers| && answers[k] == answers[k - 1] && NoneStarts(db, cutoffs[k - 1], cutoffs[k])
  }

  lemma StillCaughtUp(start: Db, db: Db, from: int, to: int, upstream: Upstream)
    requires Evolves(start, db) && |db.bets| == |start.bets| && NoneStarts(start, from, to)
    requires CaughtUp(db, from, upstream)
    ensures CaughtUp(db, to, upstream)
  {
    forall bet: nat | StartedBefore(db, bet, to) ensures StartedBefore(db, bet, from) {
      SameRow(start, db, bet);
      assert StartedBefore(start, bet, to);
    }
    forall g: nat | SweptGame(db, to, g) ensures SweptGame(db, from, g) {
      if bet: nat :| SweptBet(db, to, bet) && db.bets[bet].game == Some(g) {
        assert SweptBet(db, from, bet);
      } else {
        var leg: nat :| SweptLeg(db, to, leg) && db.legs[leg].game == Some(g);
        assert SweptLeg(db, from, leg);
      }
    }
  }

  /** What the first cycles have done: all they counted left OPEN, and it is all that did when no open score bet was
      ungradeable. A cycle for which nothing new has started or become final grades nothing, however far its cutoff has
      moved. */
  ghost predicate Polled(start: Db, db: Db, cutoffs: seq<int>, answers: seq<Upstream>, counts: seq<nat>) {
    && |counts| <= |cutoffs| == |answers|
    && Continues(start, db)
    && (counts != [] ==> CaughtUp(db, cutoffs[|counts| - 1], answers[|counts| - 1]))
    && CountsLeftOpen(start, db, counts)
    && QuietCounts(start, cutoffs, answers, counts)
  }

  ghost predicate Continues(start: Db, db: Db) {
    Consistent(db) && Evolves(start, db) && SameSize(start, db)
  }

  lemma ContinuesOn(start: Db, before: Db, after: Db)
    requires Continues(start, before) && Continues(before, after)
    ensures Continues(start, after)
  {
    EvolvesTransitive(start, before, after);
  }

  ghost predicate QuietCounts(start: Db, cutoffs: seq<int>, answers: seq<Upstream>, counts: seq<nat>) {
    forall k: nat :: k < |counts| && NothingNew(start, cutoffs, answers, k) ==> counts[k] == 0
  }

  ghost predicate CountsLeftOpen(start: Db, db: Db, counts: seq<nat>) {
    && Total(counts) + GradedRows(start) <= GradedRows(db)
    && (AllGradeable(start) ==> Total(counts) + GradedRows(start) == GradedRows(db))
  }

  lemma CountsNext(start: Db, before: Db, after: Db, cutoff: int, upstream: Upstream, counts: seq<nat>, graded: nat)
    requires CountsLeftOpen(start, before, counts) && Evolves(start, before) && SameSize(start, before)
    requires graded + GradedRows(before) <= GradedRows(after)
    requires NoSweptBlocked(before, cutoff, upstream) ==> graded + GradedRows(before) == GradedRows(after)
    ensures CountsLeftOpen(start, after, counts + [graded])
  {
    if AllGradeable(start) {
      NoneEverBlocks(start, before, cutoff, upstream);
    }
    assert (counts + [graded])[..|counts|] == counts;
  }

  lemma QuietNext(start: Db, before: Db, cutoffs: seq<int>, answers: seq<Upstream>, k: nat, graded: nat)
    requires Evolves(start, before) && SameSize(start, before) && k < |cutoffs| == |answers|
    requires k > 0 ==> CaughtUp(before, cutoffs[k - 1], answers[k - 1])
    requires CaughtUp(before, cutoffs[k], answers[k]) ==> graded == 0
    ensures NothingNew(start, cutoffs, answers, k) ==> graded == 0
  {
    if NothingNew(start, cutoffs, answers, k) {
      StillCaughtUp(start, before, cutoffs[k - 1], cutoffs[k], answers[k]);
    }
  }

  lemma {:induction false} PolledNext(start: Db, before: Db, after: Db, cutoffs: seq<int>, answers: seq<Upstream>,
                                      counts: seq<nat>, graded: nat)
    requires Polled(start, before, cutoffs, answers, counts) && |counts| < |cutoffs|
    requires CycleDone(before, after, cutoffs[|counts|], answers[|counts|], graded)
    ensures Polled(start, after, cutoffs, answers, counts + [graded])
  {
    var k := |counts|;
    CountsNext(start, before, after, cutoffs[k], answers[k], counts, graded);
    QuietNext(start, before, cutoffs, answers, k, graded);
    ContinuesOn(start, before, after);
  }

  class GradingPoller {
    const repo: PaperBetRepository
    const grader: GraderService

    constructor (repo: PaperBetRepository, grader: GraderService)
      ensures this.repo == repo && this.grader == grader
    {
      this.repo, this.grader := repo, grader;
    }

    /** The two sweep queries, united in order without repeats. */
    method Candidates(cutoff: int) returns (games: seq<nat>)
      ensures NoDuplicates(games)
      ensures forall g: nat :: g in games <==> SweptGame(repo.State(), cutoff, g)
    {
      var gameIds := repo.OpenGameIdsStartedBefore(cutoff);
      var legGameIds := repo.OpenParlayLegGameIdsStartedBefore(cutoff);
      games := Distinct(gameIds + legGameIds);
      DistinctMembers(gameIds + legGameIds);
    }

    /** The body of the sweep for one game. A game whose grading raises is passed over, uncounted. */
    method PollGame(cutoff: int, upstream: Upstream, games: seq<nat>, i: nat, graded: nat, ghost start: Db)
      returns (total: nat)
      requires grader.repo == repo && i < |games| && Cycle(start, repo.State(), cutoff, upstream, games, i, graded)
      requires SweptGame(start, cutoff, games[i])
      modifies repo
      ensures Cycle(start, repo.State(), cutoff, upstream, games, i + 1, total)
    {
      ghost var before := repo.State();
      var feed := upstream(games[i]);
      if feed.None? {
        CycleSkips(start, before, cutoff, upstream, games, i, graded);
        return graded;
      }
      var r, _ := grader.GradeGame(Job(games[i], feed.value));
      CycleGrades(start, before, repo.State(), cutoff, upstream, games, i, graded, Job(games[i], feed.value), r);
      total := graded + if r.Done? then r.graded else 0;
    }

    /** One polling cycle: the number of bets graded. */
    method RunOnce(cutoff: int, upstream: Upstream) returns (graded: nat)
      requires Consistent(repo.State()) && grader.repo == repo
      modifies repo
      ensures CycleDone(old(repo.State()), repo.State(), cutoff, upstream, graded)
    {
      ghost var start := repo.State();
      var games := Candidates(cutoff);
      graded := 0;
      CycleStarts(start, cutoff, upstream, games);
      for i := 0 to |games|
        invariant Cycle(start, repo.State(), cutoff, upstream, games, i, graded)
      {
        assert games[i] in games;
        graded := PollGame(cutoff, upstream, games, i, graded, start);
      }
      CycleEnds(start, repo.State(), cutoff, upstream, games, graded);
    }

    /** The polling loop over the cutoffs and answers of successive cycles; counts is what it logs. */
    method Run(cutoffs: seq<int>, answers: seq<Upstream>) returns (counts: seq<nat>)
      requires Consistent(repo.State()) && grader.repo == repo && |answers| == |cutoffs|
      modifies repo
      ensures |counts| == |cutoffs| && Polled(old(repo.State()), repo.State(), cutoffs, answers, counts)
    {
      ghost var start := repo.State();
      counts := [];
      for k := 0 to |cutoffs|
        invariant |counts| == k && Polled(start, repo.State(), cutoffs, answers, counts)
      {
        ghost var before := repo.State();
        var graded := RunOnce(cutoffs[k], answers[k]);
        PolledNext(start, before, repo.State(), cutoffs, answers, counts, graded);
        counts := counts + [graded];
      }
    }
  }
}
