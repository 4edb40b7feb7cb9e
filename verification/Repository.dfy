/** The repository: tables updated in place, one method per transaction, each proved to be its atomic step. */
module Repository {
  import opened Numeric
  import opened Outcomes
  import opened Tables
  import opened Protocol

  lemma {:induction false} SelectNoDuplicates(n: nat, p: nat -> bool)
    ensures NoDuplicates(Select(n, p))
  {
    if n > 0 {
      SelectNoDuplicates(n - 1, p);
      SelectMembers(n - 1, p);
      var earlier := Select(n - 1, p);
      assert forall i :: 0 <= i < |earlier| ==> earlier[i] in earlier;
    }
  }

  class PaperBetRepository {
    const starting: real
    var bets: seq<Bet>
    var grades: map<nat, Grade>
    var legs: seq<Leg>
    var snapshots: seq<Snapshot>

    function State(): Db
      reads this
    {
      Db(starting, bets, grades, legs, snapshots)
    }

    constructor (starting: real)
      ensures State() == Db(starting, [], map[], [], [])
    {
      this.starting := starting;
      bets, grades, legs, snapshots := [], map[], [], [];
    }

    /** Claim the row, write or upsert the grade, append the snapshot of the tables as they now are. */
    method ApplyGrade(bet: nat, status: Status, profit: real, force: bool) returns (claim: Claim)
      modifies this
      ensures (State(), claim) == Tables.ApplyGrade(old(State()), bet, status, profit, force)
    {
      if bet >= |bets| || (!force && !bets[bet].status.OPEN?) {
        return NotClaimed;
      }
      if !force && bet in grades {
        return Collision;
      }
      bets := bets[bet := bets[bet].(status := status)];
      grades := grades[bet := Grade(Numeric4(profit))];
      snapshots := snapshots + [Aggregate(State())];
      claim := Applied;
    }

    method GradeLeg(leg: nat, status: Status) returns (claimed: bool)
      modifies this
      ensures (State(), claimed) == Tables.GradeLeg(old(State()), leg, status)
    {
      claimed := leg < |legs| && legs[leg].status.OPEN?;
      if claimed {
        legs := legs[leg := legs[leg].(status := status)];
      }
    }

    /** insert_idempotent, and insert_parlay when there are legs. */
    method Insert(row: Bet, newLegs: seq<Leg>) returns (inserted: Inserted)
      modifies this
      ensures (State(), inserted) == Tables.Insert(old(State()), row, newLegs)
    {
      if Stored(row).stake <= 0.0 {
        return CheckFailed;
      }
      var found := FindKey(bets, row.key);
      if found.Some? {
        return Replayed(found.value);
      }
      inserted := Created(|bets|);
      legs := legs + StoredLegs(|bets|, newLegs);
      bets := bets + [Stored(row)];
    }

    method OpenBetsForGame(game: nat) returns (rows: seq<nat>)
      ensures ListsOpenBets(State(), game, rows)
    {
      var db := State();
      var p := (bet: nat) => OpenBetOn(db, game, bet);
      rows := Select(|bets|, p);
      SelectMembers(|bets|, p);
      SelectNoDuplicates(|bets|, p);
    }

    method OpenParlayLegsForGame(game: nat) returns (rows: seq<nat>)
      ensures ListsOpenLegs(State(), game, rows)
    {
      var db := State();
      var p := (leg: nat) => OpenLegOn(db, game, leg);
      rows := Select(|legs|, p);
      SelectMembers(|legs|, p);
      SelectNoDuplicates(|legs|, p);
    }

    method OpenGameIdsStartedBefore(cutoff: int) returns (games: seq<nat>)
      ensures NoDuplicates(games)
      ensures forall g: nat ::
                g in games <==> exists bet: nat :: SweptBet(State(), cutoff, bet) && State().bets[bet].game == Some(g)
    {
      games := [];
      for bet := 0 to |bets|
        invariant NoDuplicates(games)
        invariant forall g: nat :: g in games <==>
                    exists b: nat :: b < bet && SweptBet(State(), cutoff, b) && bets[b].game == Some(g)
      {
        if SweptBet(State(), cutoff, bet) && bets[bet].game.value !in games {
          games := games + [bets[bet].game.value];
        }
      }
    }

    method OpenParlayLegGameIdsStartedBefore(cutoff: int) returns (games: seq<nat>)
      ensures NoDuplicates(games)
      ensures forall g: nat ::
                g in games <==> exists leg: nat :: SweptLeg(State(), cutoff, leg) && State().legs[leg].game == Some(g)
    {
      games := [];
      for leg := 0 to |legs|
        invariant NoDuplicates(games)
        invariant forall g: nat :: g in games <==>
                    exists l: nat :: l < leg && SweptLeg(State(), cutoff, l) && legs[l].game == Some(g)
      {
        if SweptLeg(State(), cutoff, leg) && legs[leg].game.value !in games {
          games := games + [legs[leg].game.value];
        }
      }
    }
  }
}
