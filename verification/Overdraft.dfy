/** How far concurrent placements can overdraw the bankroll: each is checked against what is available, then inserted,
    with anything in between. */
module Overdraft {
  import opened Numeric
  import opened Outcomes
  import opened Parlay
  import opened Tables
  import opened Protocol
  import opened Safety
  import opened Bankroll

  /** The stake a placement has had checked but not inserted yet. */
  function InFlight(p: Proc): real {
    if p.InsertOrder? then Numeric4(p.order.row.stake) else 0.0
  }

  predicate Checked(p: Proc) {
    p.InsertOrder?
  }

  function TotalInFlight(procs: seq<Proc>): real {
    if procs == [] then 0.0 else TotalInFlight(procs[..|procs| - 1]) + InFlight(procs[|procs| - 1])
  }

  function CheckedCount(procs: seq<Proc>): nat {
    if procs == [] then 0
    else CheckedCount(procs[..|procs| - 1]) + if Checked(procs[|procs| - 1]) then 1 else 0
  }

  /** The order asks for a stake of at most `most` once stored, at prices that are not negative. */
  predicate OrderWithin(order: Order, most: real) {
    && Numeric4(order.row.stake) <= most
    && order.row.odds >= 0.0 && forall i :: 0 <= i < |order.legs| ==> order.legs[i].odds >= 0.0
  }

  predicate StakesWithin(procs: seq<Proc>, most: real) {
    forall i :: 0 <= i < |procs| && (procs[i].CheckBankroll? || procs[i].InsertOrder?) ==>
      OrderWithin(procs[i].order, most)
  }

  /** No stored price is negative. */
  ghost predicate PricesNonnegative(db: Db) {
    && (forall i :: 0 <= i < |db.bets| ==> db.bets[i].odds >= 0.0)
    && (forall i :: 0 <= i < |db.legs| ==> db.legs[i].odds >= 0.0)
  }

  lemma EffectKeepsPrices(db: Db, e: Effect, most: real)
    requires PricesNonnegative(db) && (e.Placed? ==> OrderWithin(e.order, most))
    ensures PricesNonnegative(Effects(db, e))
  {
    if e.Placed? {
      assert Numeric4(0.0) == 0.0;
      Numeric4Monotone(0.0, e.order.row.odds);
      forall i | 0 <= i < |e.order.legs| ensures Numeric4(e.order.legs[i].odds) >= 0.0 {
        Numeric4Monotone(0.0, e.order.legs[i].odds);
      }
    }
  }

  lemma {:induction false} ActKeepsPrices(s: Sys, a: Action, most: real)
    requires PricesNonnegative(s.db) && StakesWithin(s.procs, most)
    ensures PricesNonnegative(Act(s, a).db)
  {
    if a.Step? && a.i < |s.procs| {
      var e := EffectOf(s.db, s.procs[a.i]);
      AdvanceEffect(s.db, s.procs[a.i], a.rows);
      assert e.Placed? ==> s.procs[a.i].InsertOrder?;
      EffectKeepsPrices(s.db, e, most);
    }
  }

  lemma {:induction false} InFlightUpdate(procs: seq<Proc>, i: nat, p: Proc)
    requires i < |procs|
    ensures TotalInFlight(procs[i := p]) == TotalInFlight(procs) + InFlight(p) - InFlight(procs[i])
    ensures CheckedCount(procs[i := p]) + (if Checked(procs[i]) then 1 else 0)
         == CheckedCount(procs) + (if Checked(p) then 1 else 0)
  {
    var n := |procs| - 1;
    if i < n {
      InFlightUpdate(procs[..n], i, p);
      assert procs[i := p][..n] == procs[..n][i := p];
    } else {
      assert procs[i := p][..n] == procs[..n];
    }
  }

  lemma {:induction false} ProductNonnegative(decimals: seq<real>)
    requires forall i :: 0 <= i < |decimals| ==> decimals[i] >= 0.0
    ensures Product(decimals) >= 0.0
  {
    if decimals != [] {
      ProductNonnegative(decimals[1..]);
    }
  }

  lemma {:induction false} WonDecimalsNonnegative(legs: seq<Priced>)
    requires forall i :: 0 <= i < |legs| ==> legs[i].odds >= 0.0
    ensures forall i :: 0 <= i < |WonDecimals(legs)| ==> WonDecimals(legs)[i] >= 0.0
  {
    if legs != [] {
      WonDecimalsNonnegative(legs[1..]);
    }
  }

  lemma SettlementPriceNonnegative(db: Db, parent: nat)
    requires PricesNonnegative(db)
    ensures ParentSettlement(db, parent).Settled? ==> ParentSettlement(db, parent).price >= 0.0
  {
    var ids := LegsOf(db, parent);
    if forall i :: 0 <= i < |ids| ==> ids[i] < |db.legs| {
      var statuses := seq(|ids|, i requires 0 <= i < |ids| => db.legs[ids[i]].status);
      var decimals := seq(|ids|, i requires 0 <= i < |ids| => db.legs[ids[i]].odds);
      var priced := seq(|statuses|, i requires 0 <= i < |statuses| => Priced(statuses[i], decimals[i]));
      WonDecimalsNonnegative(priced);
      ProductNonnegative(WonDecimals(priced));
    }
  }

  /** An unforced grade never lowers what is available. */
  lemma GradeNeverLowersAvailable(db: Db, bet: nat, status: Status, odds: real)
    requires Funded(db) && GradesMatch(db) && bet < |db.bets| && !status.OPEN? && odds >= 0.0
    ensures Available(GradeAt(db, bet, status, odds, false).0)
         >= Available(db)
  {
    var stake := StakeOf(db, bet);
    var profit := ProfitLoss(status, stake, odds);
    if ApplyGrade(db, bet, status, profit, false).1.Applied? {
      GradeMovesProfit(db, bet, status, profit, false);
      GradeMovesExposure(db, bet, status, profit, false);
      LossAtMostStake(status, stake, odds);
      Numeric4Monotone(-stake, profit);
      TicksAdd(0.0, stake);
      Numeric4KeepsTicks(-stake);
    }
  }

  lemma {:induction false} StepKeepsHeadroom(db: Db, p: Proc, rows: seq<nat>)
    requires Consistent(db) && Ready(db, p) && Funded(db) && PricesNonnegative(db) && Unforced(p) && !p.InsertOrder?
    ensures Available(Advance(db, p, rows).0) >= Available(db)
  {
    AdvanceEffect(db, p, rows);
    EffectIsDecisive(db, p);
    UnforcedStays(db, p, rows);
    var e := EffectOf(db, p);
    match e
    case Graded(bet, status, _, _) =>
      if p.SettleParents? {
        SettlementPriceNonnegative(db, bet);
        GradeNeverLowersAvailable(db, bet, status, p.stage.price);
      } else {
        GradeNeverLowersAvailable(db, bet, status, db.bets[bet].odds);
      }
    case LegGraded(leg, status) => LegsMoveNothing(db, leg, status);
    case _ =>
  }

  /** What is available covers everything in flight, but for `short` units. */
  ghost predicate Headroom(s: Sys, short: real) {
    Available(s.db) - TotalInFlight(s.procs) >= -short
  }

  /** In no state of the run are more than `limit` placements between their check and their insert. */
  ghost predicate AtMostInFlight(s: Sys, actions: seq<Action>, limit: nat) {
    && CheckedCount(Run(s, actions).procs) <= limit
    && (actions != [] ==> AtMostInFlight(s, actions[..|actions| - 1], limit))
  }

  lemma StoredNonnegative(stake: real)
    requires stake >= 0.0
    ensures Numeric4(stake) >= 0.0
  {
  }

  lemma StoredWithin(stake: real, available: real)
    requires stake <= available && Ticks(available)
    ensures Numeric4(stake) <= available
  {
    Numeric4Monotone(stake, available);
    Numeric4KeepsTicks(available);
  }

  lemma {:induction false} InFlightBounded(procs: seq<Proc>, most: real)
    requires forall i :: 0 <= i < |procs| ==> 0.0 <= InFlight(procs[i]) <= if Checked(procs[i]) then most else 0.0
    ensures 0.0 <= TotalInFlight(procs) <= Times(CheckedCount(procs), most)
  {
    if procs != [] {
      var n := |procs| - 1;
      InFlightBounded(procs[..n], most);
    }
  }

  lemma SafeInFlight(s: Sys, most: real)
    requires Safe(s) && StakesWithin(s.procs, most)
    ensures 0.0 <= TotalInFlight(s.procs) <= Times(CheckedCount(s.procs), most)
  {
    forall i | 0 <= i < |s.procs|
      ensures 0.0 <= InFlight(s.procs[i]) <= if Checked(s.procs[i]) then most else 0.0
    {
      assert Ready(s.db, s.procs[i]);
      if Checked(s.procs[i]) {
        StoredNonnegative(s.procs[i].order.row.stake);
      }
    }
    InFlightBounded(s.procs, most);
  }

  lemma {:induction false} TimesMonotone(a: nat, b: nat, stake: real)
    requires a <= b && stake >= 0.0
    ensures 0.0 <= Times(a, stake) <= Times(b, stake)
    decreases b
  {
    if a < b {
      TimesMonotone(a, b - 1, stake);
    } else if a > 0 {
      TimesMonotone(a - 1, b - 1, stake);
    }
  }

  /** Fewer than `limit` placements hold at most limit - 1 stakes. */
  lemma OthersBounded(s: Sys, limit: nat, most: real)
    requires Safe(s) && StakesWithin(s.procs, most) && most >= 0.0 && CheckedCount(s.procs) < limit
    ensures TotalInFlight(s.procs) <= Times(limit - 1, most)
  {
    SafeInFlight(s, most);
    TimesMonotone(CheckedCount(s.procs), limit - 1, most);
  }

  lemma CheckKeepsHeadroom(s: Sys, i: nat, short: real)
    requires Funded(s.db) && i < |s.procs| && s.procs[i].CheckBankroll? && Headroom(s, short)
    requires StepPlacer(s.db, s.procs[i]).1.InsertOrder? ==> TotalInFlight(s.procs) <= short
    ensures Headroom(Act(s, Step(i, [])), short)
  {
    var p' := StepPlacer(s.db, s.procs[i]).1;
    InFlightUpdate(s.procs, i, p');
    if p'.InsertOrder? {
      FundsAreTicks(s.db);
      StoredWithin(s.procs[i].order.row.stake, Available(s.db));
    }
  }

  lemma {:induction false} InsertKeepsHeadroom(s: Sys, i: nat, short: real)
    requires Safe(s) && i < |s.procs| && s.procs[i].InsertOrder? && Headroom(s, short)
    ensures Headroom(Act(s, Step(i, [])), short)
  {
    var order := s.procs[i].order;
    InFlightUpdate(s.procs, i, StepPlacer(s.db, s.procs[i]).1);
    assert Ready(s.db, s.procs[i]);
    StoredNonnegative(order.row.stake);
    if Insert(s.db, order.row, order.legs).1.Created? {
      InsertMovesMoney(s.db, order.row, order.legs);
    }
  }

  lemma KillKeepsHeadroom(s: Sys, i: nat, short: real)
    requires Safe(s) && Headroom(s, short)
    ensures Headroom(Act(s, Kill(i)), short)
  {
    if i < |s.procs| && !Terminal(s.procs[i]) {
      InFlightUpdate(s.procs, i, Killed(s.procs[i]));
      if s.procs[i].InsertOrder? {
        assert Ready(s.db, s.procs[i]);
        StoredNonnegative(s.procs[i].order.row.stake);
      }
    }
  }

  /** Graders never come to hold a checked order. */
  lemma {:induction false} GraderHoldsNothing(db: Db, p: Proc, rows: seq<nat>)
    requires !p.CheckBankroll? && !p.InsertOrder?
    ensures !Checked(Advance(db, p, rows).1)
  {
  }

  lemma HeadroomStays(s: Sys, i: nat, db: Db, p: Proc, short: real)
    requires Headroom(s, short) && i < |s.procs| && !Checked(s.procs[i]) && !Checked(p)
    requires Available(db) >= Available(s.db)
    ensures Headroom(Sys(db, s.procs[i := p]), short)
  {
    InFlightUpdate(s.procs, i, p);
  }

  lemma {:induction false} OtherStepKeepsHeadroom(s: Sys, i: nat, rows: seq<nat>, short: real)
    requires Safe(s) && Funded(s.db) && PricesNonnegative(s.db) && AllUnforced(s.procs) && Headroom(s, short)
    requires i < |s.procs| && !s.procs[i].CheckBankroll? && !s.procs[i].InsertOrder?
    ensures Headroom(Act(s, Step(i, rows)), short)
  {
    var (db, p) := Advance(s.db, s.procs[i], rows);
    StepKeepsHeadroom(s.db, s.procs[i], rows);
    GraderHoldsNothing(s.db, s.procs[i], rows);
    HeadroomStays(s, i, db, p, short);
  }

  lemma {:induction false} ActKeepsHeadroom(s: Sys, a: Action, limit: nat, most: real)
    requires Safe(s) && Funded(s.db) && PricesNonnegative(s.db)
    requires AllUnforced(s.procs) && StakesWithin(s.procs, most)
    requires most >= 0.0 && limit >= 1 && Headroom(s, Times(limit - 1, most))
    requires CheckedCount(Act(s, a).procs) <= limit
    ensures Headroom(Act(s, a), Times(limit - 1, most))
  {
    var short := Times(limit - 1, most);
    match a
    case Spawn(p) =>
      assert (s.procs + [p])[..|s.procs|] == s.procs;
    case Kill(i) => KillKeepsHeadroom(s, i, short);
    case Step(i, rows) =>
      if i < |s.procs| {
        if s.procs[i].CheckBankroll? {
          var p' := StepPlacer(s.db, s.procs[i]).1;
          InFlightUpdate(s.procs, i, p');
          if p'.InsertOrder? {
            OthersBounded(s, limit, most);
          }
          CheckKeepsHeadroom(s, i, short);
        } else if s.procs[i].InsertOrder? {
          InsertKeepsHeadroom(s, i, short);
        } else {
          OtherStepKeepsHeadroom(s, i, rows, short);
        }
      }
  }

  /** Orders spawned along the run stay within the bound. */
  predicate OrdersWithin(actions: seq<Action>, most: real) {
    forall i :: 0 <= i < |actions| && actions[i].Spawn? ==> StakesWithin([actions[i].p], most)
  }

  lemma {:induction false} ActKeepsStakes(s: Sys, a: Action, most: real)
    requires StakesWithin(s.procs, most) && OrdersWithin([a], most)
    ensures StakesWithin(Act(s, a).procs, most)
  {
    if a.Spawn? {
      assert [a][0] == a && [a.p][0] == a.p;
    }
  }

  lemma {:induction false} HeadroomRun(s: Sys, actions: seq<Action>, limit: nat, most: real)
    requires Safe(s) && Funded(s.db) && PricesNonnegative(s.db)
    requires AllUnforced(s.procs) && StakesWithin(s.procs, most)
    requires UnforcedActions(actions) && OrdersWithin(actions, most)
    requires most >= 0.0 && limit >= 1 && Headroom(s, Times(limit - 1, most))
    requires AtMostInFlight(s, actions, limit)
    ensures Headroom(Run(s, actions), Times(limit - 1, most)) && StakesWithin(Run(s, actions).procs, most)
    ensures PricesNonnegative(Run(s, actions).db)
  {
    if actions != [] {
      var before := actions[..|actions| - 1];
      var a := actions[|actions| - 1];
      HeadroomRun(s, before, limit, most);
      RunSafe(s, before);
      RunFunded(s, before);
      ClaimsCountGradedRows(s, before);
      ActKeepsStakes(Run(s, before), a, most);
      ActKeepsPrices(Run(s, before), a, most);
      ActKeepsHeadroom(Run(s, before), a, limit, most);
    }
  }

  /** The overdraft bound: with at most `limit` placements between check and insert at any time, each of at most `most`
      units at prices that are not negative, and no forced re-grade, starting bankroll plus profit less open exposure never falls below minus
      limit - 1 such stakes over any run. One placement at a time is always solvent. */
  lemma {:induction false} OverdraftBound(db: Db, actions: seq<Action>, limit: nat, most: real)
    requires Consistent(db) && Funded(db) && PricesNonnegative(db) && Available(db) >= 0.0
    requires UnforcedActions(actions) && OrdersWithin(actions, most) && most >= 0.0 && limit >= 1
    requires AtMostInFlight(Sys(db, []), actions, limit)
    ensures Available(Run(Sys(db, []), actions).db) >= -Times(limit - 1, most)
  {
    var s := Sys(db, []);
    TimesMonotone(0, limit - 1, most);
    HeadroomRun(s, actions, limit, most);
    RunSafe(s, actions);
    SafeInFlight(Run(s, actions), most);
  }

  // ---------- the bound is reached ----------

  function Key(i: nat): string {
    seq(i, _ => 'k')
  }

  function Wager(i: nat, stake: real): Order {
    var terms := Terms(NBA, MONEYLINE, Some(HOME), None, None, None, None);
    Order(Bet(Some(0), false, terms, 2.0, stake, Key(i), None, OPEN), [])
  }

  function Empty(starting: real): Db {
    Db(starting, [], map[], [], [])
  }

  /** k placers start and pass the check, none inserts. */
  function CheckAll(k: nat, stake: real): seq<Action> {
    if k == 0 then []
    else CheckAll(k - 1, stake) + [Spawn(CheckBankroll(Wager(k - 1, stake)))] + [Step(k - 1, [])]
  }

  /** Then n of them insert. */
  function InsertAll(n: nat, k: nat, stake: real): seq<Action> {
    if n == 0 then CheckAll(k, stake) else InsertAll(n - 1, k, stake) + [Step(n - 1, [])]
  }

  lemma ExtendRun(s: Sys, actions: seq<Action>, a: Action, limit: nat)
    requires AtMostInFlight(s, actions, limit) && CheckedCount(Act(Run(s, actions), a).procs) <= limit
    ensures Run(s, actions + [a]) == Act(Run(s, actions), a)
    ensures AtMostInFlight(s, actions + [a], limit)
  {
    assert (actions + [a])[..|actions + [a]| - 1] == actions;
  }

  function Waiting(k: nat, stake: real): seq<Proc> {
    seq(k, i requires 0 <= i < k => InsertOrder(Wager(i, stake)))
  }

  lemma {:induction false} WaitingCount(k: nat, stake: real)
    ensures CheckedCount(Waiting(k, stake)) == k
  {
    if k > 0 {
      WaitingCount(k - 1, stake);
      assert Waiting(k, stake)[..k - 1] == Waiting(k - 1, stake);
    }
  }

  /** One more placer starts and passes the check on an empty table. */
  lemma OneMoreWaits(k: nat, stake: real)
    requires stake > 0.0
    ensures var started := Act(Sys(Empty(stake), Waiting(k, stake)), Spawn(CheckBankroll(Wager(k, stake))));
            && started == Sys(Empty(stake), Waiting(k, stake) + [CheckBankroll(Wager(k, stake))])
            && Act(started, Step(k, [])) == Sys(Empty(stake), Waiting(k + 1, stake))
  {
    var db, order := Empty(stake), Wager(k, stake);
    assert Available(db) == stake;
    var procs := Waiting(k, stake) + [CheckBankroll(order)];
    assert StepPlacer(db, CheckBankroll(order)) == (db, InsertOrder(order));
    assert procs[k := InsertOrder(order)] == Waiting(k + 1, stake);
  }

  /** These actions take empty tables to k placers that have all passed the check. */
  ghost predicate AllChecked(actions: seq<Action>, k: nat, stake: real, limit: nat) {
    var s := Sys(Empty(stake), []);
    Run(s, actions) == Sys(Empty(stake), Waiting(k, stake)) && AtMostInFlight(s, actions, limit)
  }

  lemma {:induction false} NoneChecked(stake: real, limit: nat)
    ensures AllChecked([], 0, stake, limit)
  {
    assert Waiting(0, stake) == [];
  }

  lemma {:induction false} CheckAllRun(k: nat, stake: real, limit: nat)
    requires stake > 0.0 && k <= limit
    ensures AllChecked(CheckAll(k, stake), k, stake, limit)
  {
    if k == 0 {
      NoneChecked(stake, limit);
    } else {
      CheckAllRun(k - 1, stake, limit);
      OneMoreChecks(CheckAll(k - 1, stake), k - 1, stake, limit);
    }
  }

  lemma {:induction false} OneMoreChecks(earlier: seq<Action>, k: nat, stake: real, limit: nat)
    requires stake > 0.0 && k < limit && AllChecked(earlier, k, stake, limit)
    ensures AllChecked(earlier + [Spawn(CheckBankroll(Wager(k, stake)))] + [Step(k, [])], k + 1, stake, limit)
  {
    var s := Sys(Empty(stake), []);
    var p := CheckBankroll(Wager(k, stake));
    CheckedWaiting(k, stake);
    OneMoreWaits(k, stake);
    ExtendRun(s, earlier, Spawn(p), limit);
    ExtendRun(s, earlier + [Spawn(p)], Step(k, []), limit);
  }

  lemma CheckedWaiting(k: nat, stake: real)
    ensures CheckedCount(Waiting(k, stake) + [CheckBankroll(Wager(k, stake))]) == k
    ensures CheckedCount(Waiting(k + 1, stake)) == k + 1
  {
    WaitingCount(k, stake);
    WaitingCount(k + 1, stake);
    assert (Waiting(k, stake) + [CheckBankroll(Wager(k, stake))])[..k] == Waiting(k, stake);
  }

  /** The state after n of the k placers have inserted. */
  ghost predicate Inserted(t: Sys, n: nat, k: nat, stake: real) {
    && |t.procs| == k && |t.db.bets| == n && t.db.grades == map[]
    && (forall i :: n <= i < k ==> t.procs[i] == InsertOrder(Wager(i, stake)))
    && (forall i :: 0 <= i < n ==> t.db.bets[i] == Stored(Wager(i, stake).row))
    && Available(t.db) == stake - Times(n, stake)
  }

  lemma {:induction false} InsertNext(t: Sys, n: nat, k: nat, stake: real)
    requires stake > 0.0 && Ticks(stake) && n < k && Inserted(t, n, k, stake)
    ensures var t' := Act(t, Step(n, []));
            && Inserted(t', n + 1, k, stake)
            && CheckedCount(t'.procs) <= CheckedCount(t.procs)
  {
    var order := Wager(n, stake);
    Numeric4KeepsTicks(stake);
    forall i | 0 <= i < n ensures t.db.bets[i].key != order.row.key {
      assert |t.db.bets[i].key| == i;
    }
    FindKeyCorrect(t.db.bets, order.row.key);
    assert Insert(t.db, order.row, order.legs).1.Created?;
    InsertMovesMoney(t.db, order.row, order.legs);
    InFlightUpdate(t.procs, n, Done(0));
  }

  /** These actions take empty tables to that state with no more than k placements ever in flight. */
  ghost predicate Reaches(actions: seq<Action>, n: nat, k: nat, stake: real) {
    var s := Sys(Empty(stake), []);
    AtMostInFlight(s, actions, k) && Inserted(Run(s, actions), n, k, stake)
  }

  lemma ReachesNext(actions: seq<Action>, n: nat, k: nat, stake: real)
    requires stake > 0.0 && Ticks(stake) && n < k && Reaches(actions, n, k, stake)
    ensures Reaches(actions + [Step(n, [])], n + 1, k, stake)
  {
    var s := Sys(Empty(stake), []);
    var t := Run(s, actions);
    assert CheckedCount(t.procs) <= k;
    InsertNext(t, n, k, stake);
    ExtendRun(s, actions, Step(n, []), k);
  }

  lemma {:induction false} NoneInserted(actions: seq<Action>, k: nat, stake: real)
    requires AllChecked(actions, k, stake, k)
    ensures Reaches(actions, 0, k, stake)
  {
    assert Available(Empty(stake)) == stake;
  }

  lemma {:induction false} InsertAllRun(n: nat, k: nat, stake: real)
    requires stake > 0.0 && Ticks(stake) && n <= k
    ensures Reaches(InsertAll(n, k, stake), n, k, stake)
  {
    if n == 0 {
      CheckAllRun(k, stake, k);
      NoneInserted(CheckAll(k, stake), k, stake);
    } else {
      InsertAllRun(n - 1, k, stake);
      ReachesNext(InsertAll(n - 1, k, stake), n - 1, k, stake);
    }
  }

  lemma {:induction false} CheckAllUnforced(k: nat, stake: real)
    ensures UnforcedActions(CheckAll(k, stake))
  {
    if k > 0 {
      CheckAllUnforced(k - 1, stake);
    }
  }

  lemma {:induction false} InsertAllUnforced(n: nat, k: nat, stake: real)
    ensures UnforcedActions(InsertAll(n, k, stake))
  {
    if n == 0 {
      CheckAllUnforced(k, stake);
    } else {
      InsertAllUnforced(n - 1, k, stake);
    }
  }

  lemma {:induction false} WagerWithin(i: nat, stake: real)
    requires Ticks(stake)
    ensures StakesWithin([CheckBankroll(Wager(i, stake))], stake)
  {
    Numeric4KeepsTicks(stake);
  }

  lemma {:induction false} CheckAllWithin(k: nat, stake: real)
    requires Ticks(stake)
    ensures OrdersWithin(CheckAll(k, stake), stake)
  {
    if k > 0 {
      CheckAllWithin(k - 1, stake);
      WagerWithin(k - 1, stake);
    }
  }

  lemma {:induction false} InsertAllWithin(n: nat, k: nat, stake: real)
    requires Ticks(stake)
    ensures OrdersWithin(InsertAll(n, k, stake), stake)
  {
    if n == 0 {
      CheckAllWithin(k, stake);
    } else {
      InsertAllWithin(n - 1, k, stake);
    }
  }

  lemma EmptyIsSolvent(stake: real)
    requires stake > 0.0 && Ticks(stake)
    ensures var db := Empty(stake); Consistent(db) && Funded(db) && PricesNonnegative(db) && Available(db) >= 0.0
  {
    assert Available(Empty(stake)) == stake;
  }

  /** No better bound holds: from empty tables and a bankroll of one stake, which meet all that OverdraftBound asks, a
      run of wagers of that stake with `limit` placements in flight ends at exactly minus limit - 1 stakes. */
  lemma OverdraftBoundIsReached(limit: nat, stake: real)
    requires limit >= 1 && stake > 0.0 && Ticks(stake)
    ensures var db := Empty(stake); Consistent(db) && Funded(db) && PricesNonnegative(db) && Available(db) >= 0.0
    ensures exists actions ::
              && UnforcedActions(actions) && OrdersWithin(actions, stake)
              && AtMostInFlight(Sys(Empty(stake), []), actions, limit)
              && Available(Run(Sys(Empty(stake), []), actions).db) == -Times(limit - 1, stake)
  {
    var actions := InsertAll(limit, limit, stake);
    InsertAllRun(limit, limit, stake);
    InsertAllUnforced(limit, limit, stake);
    InsertAllWithin(limit, limit, stake);
    EmptyIsSolvent(stake);
    assert Available(Run(Sys(Empty(stake), []), actions).db) == -Times(limit - 1, stake);
  }
}
