/** The settlement protocol: any number of graders, manual calls and placers over the shared tables.
    Each process advances by one atomic step at a time; anything may happen between two steps. */
module Protocol {
  import opened Outcomes
  import opened Grading
  import opened Parlay
  import opened Tables

  /** What one completed game brings to a grader. */
  datatype Job = Job(game: nat, feed: Feed)

  /** A validated placement: the bet row and, for a parlay, its leg rows. */
  datatype Order = Order(row: Bet, legs: seq<Leg>)

  /** Where _settle_parlay_if_decided stands with the first pending parent. */
  datatype Stage = CountLegs | FetchParent | FetchLegs | ClaimParent(status: Status, price: real)

  datatype Proc =
    | FindBets(job: Job)
    | FindLegs(job: Job, bets: seq<nat>)
    | GradeBets(job: Job, bets: seq<nat>, legs: seq<nat>, graded: nat)
    | GradeLegs(job: Job, legs: seq<nat>, parents: seq<nat>, graded: nat)
    | SettleParents(parents: seq<nat>, stage: Stage, force: bool, graded: nat)
    | ManualFind(bet: nat, feed: Option<Feed>, force: bool)
    | ManualLegs(bet: nat, force: bool)
    | ManualClaim(bet: nat, status: Status, force: bool)
    | CheckBankroll(order: Order)
    | InsertOrder(order: Order)
    | Done(graded: nat)
    | Raised(graded: nat)
    | Killed(was: Proc)

  predicate Terminal(p: Proc) {
    p.Done? || p.Raised? || p.Killed?
  }

  /** The shapes a process starts in. */
  predicate Fresh(p: Proc) {
    p.FindBets? || p.ManualFind? || (p.CheckBankroll? && ValidOrder(p.order))
  }

  /** What place_bet and place_parlay hand to the repository: a single with its game and no legs, or a parent
      without a game and at least two legs. */
  predicate ValidOrder(order: Order) {
    && order.row.isParlay == (order.legs != [])
    && (order.row.isParlay ==> order.row.game.None? && |order.legs| >= 2)
    && (!order.row.isParlay ==> order.row.game.Some?)
    && forall i :: 0 <= i < |order.legs| ==> order.legs[i].index == i
  }

  predicate NoDuplicates(rows: seq<nat>) {
    forall i, j :: 0 <= i < j < |rows| ==> rows[i] != rows[j]
  }

  /** rows is an answer, in any order, to the query for the open bets (legs) of a game. */
  ghost predicate ListsOpenBets(db: Db, game: nat, rows: seq<nat>) {
    NoDuplicates(rows) && forall bet: nat :: bet in rows <==> OpenBetOn(db, game, bet)
  }

  ghost predicate ListsOpenLegs(db: Db, game: nat, rows: seq<nat>) {
    NoDuplicates(rows) && forall leg: nat :: leg in rows <==> OpenLegOn(db, game, leg)
  }

  function Keep(db: Db, rows: seq<nat>, props: bool): seq<nat> {
    if rows == [] then []
    else
      var rest := Keep(db, rows[1..], props);
      if rows[0] < |db.bets|
         && (if props then db.bets[rows[0]].terms.market.PLAYER_PROP? else !IsProp(db.bets[rows[0]].terms.market))
      then [rows[0]] + rest else rest
  }

  /** Score bets first, then player props; team and game props are skipped. */
  function GradingOrder(db: Db, rows: seq<nat>): seq<nat> {
    Keep(db, rows, false) + Keep(db, rows, true)
  }

  // ---------- one atomic step of each process ----------

  function StepBet(db: Db, p: Proc): (Db, Proc)
    requires p.GradeBets?
  {
    if p.bets == [] then (db, GradeLegs(p.job, p.legs, [], p.graded))
    else if p.bets[0] >= |db.bets| then (db, GradeBets(p.job, p.bets[1..], p.legs, p.graded))
    else
      var bet := db.bets[p.bets[0]];
      var outcome := Outcome(bet.terms, p.job.feed);
      if outcome.None? then
        (db, if IsProp(bet.terms.market) then GradeBets(p.job, p.bets[1..], p.legs, p.graded) else Raised(p.graded))
      else
        var (db', claim) := GradeAt(db, p.bets[0], outcome.value, bet.odds, false);
        match claim
        case NotClaimed => (db', GradeBets(p.job, p.bets[1..], p.legs, p.graded))
        case Applied => (db', GradeBets(p.job, p.bets[1..], p.legs, p.graded + 1))
        case Collision => (db', Raised(p.graded))
  }

  function StepLeg(db: Db, p: Proc): (Db, Proc)
    requires p.GradeLegs?
  {
    if p.legs == [] then (db, SettleParents(p.parents, CountLegs, false, p.graded))
    else if p.legs[0] >= |db.legs| then (db, GradeLegs(p.job, p.legs[1..], p.parents, p.graded))
    else
      var leg := db.legs[p.legs[0]];
      var outcome := Outcome(leg.terms, p.job.feed);
      if outcome.None? then (db, GradeLegs(p.job, p.legs[1..], p.parents, p.graded))
      else
        var (db', claimed) := GradeLeg(db, p.legs[0], outcome.value);
        var parents := if claimed && leg.parent !in p.parents then p.parents + [leg.parent] else p.parents;
        (db', GradeLegs(p.job, p.legs[1..], parents, p.graded))
  }

  function StepParent(db: Db, p: Proc): (Db, Proc)
    requires p.SettleParents?
  {
    if p.parents == [] then (db, Done(p.graded))
    else
      var parent := p.parents[0];
      var next := SettleParents(p.parents[1..], CountLegs, p.force, p.graded);
      match p.stage
      case CountLegs =>
        (db, if OpenLegCount(db, parent) > 0 then next else SettleParents(p.parents, FetchParent, p.force, p.graded))
      case FetchParent =>
        (db, if parent >= |db.bets| then next else SettleParents(p.parents, FetchLegs, p.force, p.graded))
      case FetchLegs =>
        var settled := ParentSettlement(db, parent);
        (db, if settled.Settled?
             then SettleParents(p.parents, ClaimParent(settled.status, settled.price), p.force, p.graded)
             else next)
      case ClaimParent(status, price) =>
        var (db', claim) := GradeAt(db, parent, status, price, p.force);
        match claim
        case NotClaimed => (db', next)
        case Applied => (db', SettleParents(p.parents[1..], CountLegs, p.force, p.graded + 1))
        case Collision => (db', Raised(p.graded))
  }

  function StepManualFind(db: Db, id: nat, feed: Option<Feed>, force: bool): Proc {
    if id >= |db.bets| || (!db.bets[id].status.OPEN? && !force) then Raised(0)
    else if db.bets[id].isParlay then ManualLegs(id, force)
    else if db.bets[id].game.None? || feed.None? then Raised(0)
    else
      var outcome := Outcome(db.bets[id].terms, feed.value);
      if outcome.Some? then ManualClaim(id, outcome.value, force) else Raised(0)
  }

  function StepManualLegs(db: Db, id: nat, force: bool): Proc {
    if OpenLegCount(db, id) > 0 then Raised(0) else SettleParents([id], CountLegs, force, 0)
  }

  function StepManualClaim(db: Db, id: nat, status: Status, force: bool): (Db, Proc) {
    var (db', claim) := GradeAt(db, id, status, OddsOf(db, id), force);
    (db', match claim case NotClaimed => Done(0) case Applied => Done(1) case Collision => Raised(0))
  }

  /** Bankroll not committed to open bets: what _check_bankroll compares a stake with. */
  function Available(db: Db): real {
    db.starting + TotalProfit(db) - OpenExposure(db)
  }

  function StepPlacer(db: Db, p: Proc): (Db, Proc)
    requires p.CheckBankroll? || p.InsertOrder?
  {
    match p
    case CheckBankroll(order) =>
      (db, if order.row.stake <= 0.0 || order.row.stake > Available(db) then Raised(0) else InsertOrder(order))
    case InsertOrder(order) =>
      var (db', inserted) := Insert(db, order.row, order.legs);
      (db', if inserted.CheckFailed? then Raised(0) else Done(0))
  }

  /** One atomic step. `rows` is the database's answer when the step is a query; other steps ignore it. */
  ghost function Advance(db: Db, p: Proc, rows: seq<nat>): (Db, Proc) {
    match p
    case FindBets(job) =>
      (db, if ListsOpenBets(db, job.game, rows) then FindLegs(job, rows) else p)
    case FindLegs(job, bets) =>
      (db, if !ListsOpenLegs(db, job.game, rows) then p
           else if bets == [] && rows == [] then Done(0)
           else GradeBets(job, GradingOrder(db, bets), rows, 0))
    case GradeBets(_, _, _, _) => StepBet(db, p)
    case GradeLegs(_, _, _, _) => StepLeg(db, p)
    case SettleParents(_, _, _, _) => StepParent(db, p)
    case ManualFind(id, feed, force) => (db, StepManualFind(db, id, feed, force))
    case ManualLegs(id, force) => (db, StepManualLegs(db, id, force))
    case ManualClaim(id, status, force) => StepManualClaim(db, id, status, force)
    case CheckBankroll(_) => StepPlacer(db, p)
    case InsertOrder(_) => StepPlacer(db, p)
    case _ => (db, p)
  }

  // ---------- the system ----------

  datatype Sys = Sys(db: Db, procs: seq<Proc>)

  /** A process starts, a process makes its next step, or a process is killed where it stands. */
  datatype Action = Spawn(p: Proc) | Step(i: nat, rows: seq<nat>) | Kill(i: nat)

  /** An action that is not possible changes nothing. */
  ghost function Act(s: Sys, a: Action): Sys {
    match a
    case Spawn(p) => if Fresh(p) then s.(procs := s.procs + [p]) else s
    case Step(i, rows) =>
      if i < |s.procs| then
        var (db, p) := Advance(s.db, s.procs[i], rows);
        Sys(db, s.procs[i := p])
      else s
    case Kill(i) =>
      if i < |s.procs| && !Terminal(s.procs[i]) then s.(procs := s.procs[i := Killed(s.procs[i])]) else s
  }

  ghost function Run(s: Sys, actions: seq<Action>): Sys {
    if actions == [] then s else Act(Run(s, actions[..|actions| - 1]), actions[|actions| - 1])
  }

  lemma {:induction false} RunConcat(s: Sys, first: seq<Action>, second: seq<Action>)
    ensures Run(s, first + second) == Run(Run(s, first), second)
  {
    if second == [] {
      assert first + second == first;
    } else {
      var n := |second| - 1;
      assert (first + second)[..|first + second| - 1] == first + second[..n];
      RunConcat(s, first, second[..n]);
    }
  }

  lemma {:induction false} KeepMembers(db: Db, rows: seq<nat>, props: bool)
    ensures forall bet: nat :: bet in Keep(db, rows, props) <==>
              && bet in rows && bet < |db.bets|
              && (if props then db.bets[bet].terms.market.PLAYER_PROP? else !IsProp(db.bets[bet].terms.market))
  {
    if rows != [] {
      KeepMembers(db, rows[1..], props);
    }
  }

  lemma GradingOrderMembers(db: Db, rows: seq<nat>)
    ensures forall bet: nat :: bet in GradingOrder(db, rows) <==>
              && bet in rows && bet < |db.bets|
              && (IsProp(db.bets[bet].terms.market) ==> db.bets[bet].terms.market.PLAYER_PROP?)
  {
    KeepMembers(db, rows, false);
    KeepMembers(db, rows, true);
  }
}
