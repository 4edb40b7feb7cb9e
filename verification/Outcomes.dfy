/** The vocabulary shared by bets and parlay legs, and the money an outcome moves. */
module Outcomes {

  datatype Option<+T> = None | Some(value: T)

  datatype Status = OPEN | WON | LOST | PUSH | VOID

  datatype Side = HOME | AWAY | DRAW | OVER | UNDER | YES | NO

  datatype Market = SPREAD | TOTAL | MONEYLINE | PLAYER_PROP | TEAM_PROP | GAME_PROP | FUTURE | LIVE

  datatype League = NFL | NBA | MLB | NCAA_FB | NCAA_BB | NCAA_BSB | FIFA_WC | EPL | NHL | NCAA_HKY

  datatype PropType = OVER_UNDER | YES_NO

  /** The immutable terms a single bet or a parlay leg is graded on. */
  datatype Terms = Terms(
    league: League,
    market: Market,
    side: Option<Side>,
    line: Option<real>,
    player: Option<string>,
    stat: Option<string>,
    propType: Option<PropType>
  )

  predicate IsProp(market: Market) {
    market in {PLAYER_PROP, TEAM_PROP, GAME_PROP}
  }

  /** Profit or loss in units: a win pays stake * (odds - 1), a loss costs the stake. */
  function ProfitLoss(status: Status, stake: real, odds: real): real {
    match status
    case WON => stake * (odds - 1.0)
    case LOST => -stake
    case _ => 0.0
  }

  /** No outcome costs more than the stake, at any price that is not negative. */
  lemma LossAtMostStake(status: Status, stake: real, odds: real)
    requires stake >= 0.0 && odds >= 0.0
    ensures ProfitLoss(status, stake, odds) >= -stake
  {
    assert stake * odds >= 0.0;
    assert stake * (odds - 1.0) == stake * odds - stake;
  }
}
