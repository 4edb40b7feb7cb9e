/** Placing bets and parlays: what a placement must pass, the rows it writes, and why the fallback sweep later finds
    them. */
module Placement {
  import opened Numeric
  import opened Outcomes
  import opened Parlay
  import opened Odds
  import opened Tables
  import opened Protocol
  import opened Safety
  import opened Bankroll
  import opened Overdraft
  import opened Starvation
  import opened Repository

  datatype LegRequest = LegRequest(
    game: nat,
    market: Market,
    side: Side,
    player: Option<string>,
    stat: Option<string>,
    propType: Option<PropType>
  )

  datatype BetRequest = BetRequest(leg: LegRequest, stake: real, isLive: bool)

  datatype GameStatus = SCHEDULED | IN_PROGRESS | FINAL | POSTPONED | CANCELLED | SUSPENDED

  /** What statistics-service knows of a game; `start` is None when its scheduled start does not parse. */
  datatype GameInfo = GameInfo(league: League, status: GameStatus, start: Option<int>)

  /** The decimal price and line captured from lines-service, which may answer any number. */
  datatype Quote = Quote(price: real, line: Option<real>)

  datatype Fault = UnsupportedMarket | MissingTerms | WrongSide | Repeats

  datatype LegKey = LegKey(game: Option<nat>, market: Market, player: Option<string>, stat: Option<string>)

  function KeyOf(leg: LegRequest): LegKey {
    LegKey(Some(leg.game), leg.market, leg.player, leg.stat)
  }

  function RowKey(leg: Leg): LegKey {
    LegKey(leg.game, leg.terms.market, leg.terms.player, leg.terms.stat)
  }

  predicate SidesMatch(propType: PropType, side: Side) {
    match propType
    case YES_NO => side in {YES, NO}
    case OVER_UNDER => side in {OVER, UNDER}
  }

  // ---------- validation ----------

  /** What is wrong with leg i, given the legs before it; the first reason that applies. */
  ghost function FaultAt(legs: seq<LegRequest>, i: nat): Option<Fault>
    requires i < |legs|
  {
    var leg := legs[i];
    if leg.market !in {SPREAD, TOTAL, MONEYLINE, PLAYER_PROP} then Some(UnsupportedMarket)
    else if leg.market.PLAYER_PROP? && (leg.stat in {None, Some("")} || leg.propType.None?) then Some(MissingTerms)
    else if leg.market.PLAYER_PROP? && !SidesMatch(leg.propType.value, leg.side) then Some(WrongSide)
    else if exists j :: 0 <= j < i && KeyOf(legs[j]) == KeyOf(leg) then Some(Repeats)
    else None
  }

  ghost predicate Fit(legs: seq<LegRequest>) {
    forall i :: 0 <= i < |legs| ==> FaultAt(legs, i).None?
  }

  /** validate_parlay_legs: the first leg at fault and why, or None. */
  method ValidateParlayLegs(legs: seq<LegRequest>) returns (fault: Option<(nat, Fault)>)
    ensures fault.None? <==> Fit(legs)
    ensures fault.Some? ==>
              && fault.value.0 < |legs| && FaultAt(legs, fault.value.0) == Some(fault.value.1)
              && forall j :: 0 <= j < fault.value.0 ==> FaultAt(legs, j).None?
  {
    var seen: set<LegKey> := {};
    for index := 0 to |legs|
      invariant forall k :: k in seen <==> exists j :: 0 <= j < index && KeyOf(legs[j]) == k
      invariant forall j :: 0 <= j < index ==> FaultAt(legs, j).None?
    {
      var leg := legs[index];
      ghost var expected := FaultAt(legs, index);
      if leg.market !in {SPREAD, TOTAL, MONEYLINE, PLAYER_PROP} {
        return Some((index, UnsupportedMarket));
      }
      if leg.market.PLAYER_PROP? {
        if leg.stat in {None, Some("")} || leg.propType.None? {
          return Some((index, MissingTerms));
        }
        if !SidesMatch(leg.propType.value, leg.side) {
          return Some((index, WrongSide));
        }
      }
      if KeyOf(leg) in seen {
        return Some((index, Repeats));
      }
      seen := seen + {KeyOf(leg)};
    }
    fault := None;
  }

  /** No two legs of an accepted parlay bet on one selection: each pair differs in game, market, player or stat. */
  lemma FitLegsAreApart(legs: seq<LegRequest>)
    requires Fit(legs)
    ensures forall i, j :: 0 <= i < j < |legs| ==> KeyOf(legs[i]) != KeyOf(legs[j])
  {
    forall i, j | 0 <= i < j < |legs| ensures KeyOf(legs[i]) != KeyOf(legs[j]) {
      assert FaultAt(legs, j).None?;
    }
  }

  /** A team market, or a player prop that names a statistic and a type whose sides include the leg's. */
  predicate Supported(leg: LegRequest) {
    || leg.market in {SPREAD, TOTAL, MONEYLINE}
    || (&& leg.market.PLAYER_PROP? && leg.stat.Some? && leg.stat.value != ""
        && leg.propType.Some? && SideFits(leg.propType, leg.side))
  }

  predicate SameSelection(a: LegRequest, b: LegRequest) {
    a.game == b.game && a.market == b.market && a.player == b.player && a.stat == b.stat
  }

  /** A parlay is accepted exactly when each leg is supported and no two are on one game, market, player and stat. */
  lemma FitExactly(legs: seq<LegRequest>)
    ensures Fit(legs) <==>
            && (forall i :: 0 <= i < |legs| ==> Supported(legs[i]))
            && (forall i, j :: 0 <= i < j < |legs| ==> !SameSelection(legs[i], legs[j]))
  {
    forall i: nat | i < |legs| ensures FaultAt(legs, i).None? <==> Supported(legs[i]) && IsFirst(legs, i) {
      NoFault(legs, i);
    }
    if forall i: nat :: i < |legs| ==> IsFirst(legs, i) {
      forall i, j | 0 <= i < j < |legs| ensures !SameSelection(legs[i], legs[j]) {
        assert IsFirst(legs, j);
      }
    }
    if forall i, j :: 0 <= i < j < |legs| ==> !SameSelection(legs[i], legs[j]) {
      assert forall i: nat :: i < |legs| ==> IsFirst(legs, i);
    }
  }

  /** No earlier leg is on the same selection. */
  predicate IsFirst(legs: seq<LegRequest>, i: nat)
    requires i < |legs|
  {
    forall j :: 0 <= j < i ==> !SameSelection(legs[j], legs[i])
  }

  lemma NoFault(legs: seq<LegRequest>, i: nat)
    requires i < |legs|
    ensures FaultAt(legs, i).None? <==> Supported(legs[i]) && IsFirst(legs, i)
  {
    var leg := legs[i];
    if leg.propType.Some? {
      SidesFit(leg);
    }
    assert leg.stat in {None, Some("")} <==> !(leg.stat.Some? && leg.stat.value != "");
    var repeats := exists j :: 0 <= j < i && KeyOf(legs[j]) == KeyOf(leg);
    if j :| 0 <= j < i && SameSelection(legs[j], leg) {
      assert KeyOf(legs[j]) == KeyOf(leg);
      assert repeats;
    } else {
      assert forall j :: 0 <= j < i ==> KeyOf(legs[j]) != KeyOf(leg);
      assert !repeats && IsFirst(legs, i);
    }
    assert repeats <==> !IsFirst(legs, i);
  }

  lemma SidesFit(leg: LegRequest)
    requires leg.propType.Some?
    ensures SidesMatch(leg.propType.value, leg.side) <==> SideFits(leg.propType, leg.side)
  {
  }

  // ---------- the rows of a placement ----------

  predicate NotStarted(game: GameInfo, now: int) {
    game.status.SCHEDULED? && (game.start.None? || game.start.value > now)
  }

  function TermsOf(leg: LegRequest, league: League, line: Option<real>): Terms {
    Terms(league, leg.market, Some(leg.side), line, leg.player, leg.stat, leg.propType)
  }

  /** start is the earliest parsed start of these games, None when none of them parses. */
  ghost predicate Earliest(start: Option<int>, games: seq<GameInfo>) {
    && (start.None? <==> forall i :: 0 <= i < |games| ==> games[i].start.None?)
    && (start.Some? ==>
          && (exists i :: 0 <= i < |games| && games[i].start == start)
          && (forall i :: 0 <= i < |games| && games[i].start.Some? ==> start.value <= games[i].start.value))
  }

  /** The rows place_parlay builds from its legs, their games and the captured quotes. */
  ghost predicate ParlayRows(order: Order, legs: seq<LegRequest>, games: seq<GameInfo>, quotes: seq<Quote>, stake: real,
                             key: string)
  {
    && |games| == |quotes| == |legs| == |order.legs| > 0
    && (forall i :: 0 <= i < |legs| ==>
          order.legs[i] == Leg(0, i, Some(legs[i].game), TermsOf(legs[i], games[i].league, quotes[i].line),
                               quotes[i].price, OPEN))
    && Earliest(order.row.startAt, games)
    && order.row == Bet(None, true, order.row.terms, StoredDecimal(Prices(quotes)), stake, key, order.row.startAt, OPEN)
    && order.row.terms == Terms(games[0].league, legs[0].market, None, None, None, None, None)
  }

  function Prices(quotes: seq<Quote>): seq<real> {
    seq(|quotes|, i requires 0 <= i < |quotes| => quotes[i].price)
  }

  datatype Refusal = BadStake | BadLeg(index: nat, fault: Fault) | GameClosed(at: nat) | NoLine(at: nat)
                   | Overdrawn | NoPrice | RowRejected

  datatype Answer = Refused(why: Refusal) | Accepted(row: Inserted)

  /** Every condition place_parlay and the table check. */
  ghost predicate Admissible(db: Db, legs: seq<LegRequest>, stake: real, games: nat -> Option<GameInfo>,
                             quotes: nat -> Option<Quote>, clock: nat -> int)
  {
    && stake > 0.0 && Fit(legs)
    && (forall i: nat :: i < |legs| ==> LegRefusal(games, quotes, clock, i).None?)
    && stake <= Available(db) && Numeric4(stake) > 0.0
    && (forall q :: Answers(quotes, q) && |q| == |legs| ==> StoredDecimal(Prices(q)) > 1.0)
  }

  /** Why the loop over legs stops at leg i, if it gets there. */
  ghost function LegRefusal(games: nat -> Option<GameInfo>, quotes: nat -> Option<Quote>, clock: nat -> int, i: nat)
    : Option<Refusal>
  {
    if games(i).None? || !NotStarted(games(i).value, clock(i)) then Some(GameClosed(i))
    else if quotes(i).None? then Some(NoLine(i))
    else None
  }

  /** Every condition place_bet and the table check. */
  ghost predicate BetAdmissible(db: Db, request: BetRequest, game: Option<GameInfo>, quote: Option<Quote>, now: int) {
    && request.stake > 0.0 && game.Some? && quote.Some? && OpenForBetting(request, game.value, now)
    && request.stake <= Available(db) && Numeric4(request.stake) > 0.0
  }

  ghost predicate Answers<T>(answers: nat -> Option<T>, values: seq<T>) {
    forall i: nat :: i < |values| ==> answers(i) == Some(values[i])
  }

  /** What place_parlay hands over is an order the protocol's invariants are stated for. */
  lemma ParlayRowsAreValid(order: Order, legs: seq<LegRequest>, games: seq<GameInfo>, quotes: seq<Quote>, stake: real,
                           key: string)
    requires ParlayRows(order, legs, games, quotes, stake, key) && |legs| >= 2
    ensures ValidOrder(order)
  {
  }

  /** What is wrong with a bet that place_bet refuses, in the order it checks. */
  ghost predicate BetFault(db: Db, request: BetRequest, game: Option<GameInfo>, quote: Option<Quote>, now: int,
                           why: Refusal)
  {
    match why
    case BadStake => request.stake <= 0.0
    case GameClosed(_) => request.stake > 0.0 && (game.None? || !OpenForBetting(request, game.value, now))
    case NoLine(_) => request.stake > 0.0 && game.Some? && OpenForBetting(request, game.value, now) && quote.None?
    case Overdrawn =>
      && 0.0 < request.stake && game.Some? && OpenForBetting(request, game.value, now) && quote.Some?
      && request.stake > Available(db)
    case RowRejected => request.stake <= Available(db) && Numeric4(request.stake) <= 0.0 < request.stake
    case _ => false
  }

  /** The same for a parlay. */
  ghost predicate ParlayFault(db: Db, legs: seq<LegRequest>, stake: real, games: nat -> Option<GameInfo>,
                              quotes: nat -> Option<Quote>, clock: nat -> int, why: Refusal)
  {
    match why
    case BadStake => stake <= 0.0
    case BadLeg(i, fault) => stake > 0.0 && i < |legs| && FaultAt(legs, i) == Some(fault)
    case GameClosed(i) =>
      && stake > 0.0 && Fit(legs) && i < |legs| && (games(i).None? || !NotStarted(games(i).value, clock(i)))
    case NoLine(i) =>
      && stake > 0.0 && Fit(legs) && i < |legs| && quotes(i).None? && games(i).Some? && NotStarted(games(i).value, clock(i))
    case Overdrawn => Fit(legs) && stake > Available(db) && 0.0 < stake
    case NoPrice => Fit(legs) && stake <= Available(db)
    case RowRejected => Fit(legs) && stake <= Available(db) && Numeric4(stake) <= 0.0 < stake
  }

  predicate OpenForBetting(request: BetRequest, game: GameInfo, now: int) {
    if request.isLive then game.status in {SCHEDULED, IN_PROGRESS} else NotStarted(game, now)
  }

  /** The row of a single bet. A live bet whose game's start does not parse is dated now, so that the sweep finds it. */
  ghost function SingleRow(request: BetRequest, key: string, game: GameInfo, quote: Quote, now: int): Bet {
    Bet(Some(request.leg.game), false, TermsOf(request.leg, game.league, quote.line), quote.price, request.stake, key,
        if request.isLive && game.start.None? then Some(now) else game.start, OPEN)
  }

  class BetService {
    const repo: PaperBetRepository

    constructor (repo: PaperBetRepository)
      ensures this.repo == repo
    {
      this.repo := repo;
    }

    /** The loop of place_parlay over legs: fetch, check, capture, collect; it stops at the first leg refused. */
    method CaptureLegs(legs: seq<LegRequest>, games: nat -> Option<GameInfo>, quotes: nat -> Option<Quote>,
                       clock: nat -> int)
      returns (refusal: Option<Refusal>, rows: seq<Leg>, start: Option<int>, prices: seq<real>,
               ghost infos: seq<GameInfo>, ghost captured: seq<Quote>)
      ensures refusal.None? ==> forall i: nat :: i < |legs| ==> LegRefusal(games, quotes, clock, i).None?
      ensures refusal.Some? ==>
                exists i: nat :: i < |legs| && LegRefusal(games, quotes, clock, i) == refusal
                                 && forall j: nat :: j < i ==> LegRefusal(games, quotes, clock, j).None?
      ensures refusal.None? ==>
                && Answers(games, infos) && Answers(quotes, captured) && |infos| == |captured| == |legs| == |rows|
                && prices == Prices(captured) && Earliest(start, infos)
                && forall i :: 0 <= i < |legs| ==>
                     rows[i] == Leg(0, i, Some(legs[i].game), TermsOf(legs[i], infos[i].league, captured[i].line),
                                    captured[i].price, OPEN)
    {
      rows, start, prices, infos, captured := [], None, [], [], [];
      for index := 0 to |legs|
        invariant |infos| == |captured| == |rows| == index
        invariant Answers(games, infos) && Answers(quotes, captured)
        invariant forall i: nat :: i < index ==> LegRefusal(games, quotes, clock, i).None?
        invariant prices == Prices(captured) && Earliest(start, infos)
        invariant forall i :: 0 <= i < index ==>
                    rows[i] == Leg(0, i, Some(legs[i].game), TermsOf(legs[i], infos[i].league, captured[i].line),
                                   captured[i].price, OPEN)
      {
        ghost var expected := LegRefusal(games, quotes, clock, index);
        var game := games(index);
        if game.None? || !NotStarted(game.value, clock(index)) {
          return Some(GameClosed(index)), [], None, [], [], [];
        }
        var quote := quotes(index);
        if quote.None? {
          return Some(NoLine(index)), [], None, [], [], [];
        }
        if game.value.start.Some? && (start.None? || game.value.start.value < start.value) {
          start := game.value.start;
        }
        assert Prices(captured + [quote.value]) == Prices(captured) + [quote.value.price];
        prices := prices + [quote.value.price];
        var leg := legs[index];
        rows := rows + [Leg(0, index, Some(leg.game), TermsOf(leg, game.value.league, quote.value.line),
                            quote.value.price, OPEN)];
        infos := infos + [game.value];
        captured := captured + [quote.value];
        assert infos[index] == game.value;
      }
      refusal := None;
    }

    method PlaceParlay(legs: seq<LegRequest>, stake: real, key: string, games: nat -> Option<GameInfo>,
                       quotes: nat -> Option<Quote>, clock: nat -> int)
      returns (r: Answer, ghost order: Order, ghost infos: seq<GameInfo>)
      requires |legs| >= 2
      modifies repo
      ensures r.Refused? ==> repo.State() == old(repo.State())
      ensures r.Refused? ==> ParlayFault(old(repo.State()), legs, stake, games, quotes, clock, r.why)
      ensures r.Accepted? <==> Admissible(old(repo.State()), legs, stake, games, quotes, clock)
      ensures forall id :: FindKey(old(repo.State()).bets, key) == Some(id) ==>
                && repo.State() == old(repo.State())
                && (r == Accepted(Replayed(id)) <==> Admissible(old(repo.State()), legs, stake, games, quotes, clock))
      ensures r.Accepted? ==>
                && (repo.State(), r.row) == Insert(old(repo.State()), order.row, order.legs)
                && Answers(games, infos) && ValidOrder(order)
                && (exists q :: Answers(quotes, q) && ParlayRows(order, legs, infos, q, stake, key))
                && (forall i, j :: 0 <= i < j < |order.legs| ==> RowKey(order.legs[i]) != RowKey(order.legs[j]))
    {
      order := Order(Bet(None, true, Terms(NBA, SPREAD, None, None, None, None, None), 1.0, stake, key, None, OPEN), []);
      infos := [];
      if stake <= 0.0 {
        return Refused(BadStake), order, infos;
      }
      var fault := ValidateParlayLegs(legs);
      if fault.Some? {
        return Refused(BadLeg(fault.value.0, fault.value.1)), order, infos;
      }
      var refusal, rows, start, prices, games', captured := CaptureLegs(legs, games, quotes, clock);
      if refusal.Some? {
        return Refused(refusal.value), order, infos;
      }
      if stake > Available(repo.State()) {
        return Refused(Overdrawn), order, infos;
      }
      assert forall q :: Answers(quotes, q) && |q| == |legs| ==> q == captured;
      var combined := Round4(CombinedDecimal(prices).value);
      if DecimalToAmerican(combined).None? {
        return Refused(NoPrice), order, infos;
      }
      var row := Bet(None, true, Terms(rows[0].terms.league, rows[0].terms.market, None, None, None, None, None),
                     combined, stake, key, start, OPEN);
      order := Order(row, rows);
      infos := games';
      assert ParlayRows(order, legs, infos, captured, stake, key);
      ParlayRowsAreValid(order, legs, infos, captured, stake, key);
      FitLegsAreApart(legs);
      var inserted := repo.Insert(row, rows);
      r := if inserted.CheckFailed? then Refused(RowRejected) else Accepted(inserted);
    }

    method PlaceBet(request: BetRequest, key: string, game: Option<GameInfo>, quote: Option<Quote>, now: int)
      returns (r: Answer)
      modifies repo
      ensures r.Refused? ==> repo.State() == old(repo.State())
      ensures r.Refused? ==> BetFault(old(repo.State()), request, game, quote, now, r.why)
      ensures r.Accepted? <==> BetAdmissible(old(repo.State()), request, game, quote, now)
      ensures forall id :: FindKey(old(repo.State()).bets, key) == Some(id) ==>
                && repo.State() == old(repo.State())
                && (r == Accepted(Replayed(id)) <==> BetAdmissible(old(repo.State()), request, game, quote, now))
      ensures r.Accepted? ==>
                var row := SingleRow(request, key, game.value, quote.value, now);
                && (repo.State(), r.row) == Insert(old(repo.State()), row, []) && ValidOrder(Order(row, []))
    {
      if request.stake <= 0.0 {
        return Refused(BadStake);
      }
      if game.None? || !OpenForBetting(request, game.value, now) {
        return Refused(GameClosed(0));
      }
      if quote.None? {
        return Refused(NoLine(0));
      }
      if request.stake > Available(repo.State()) {
        return Refused(Overdrawn);
      }
      var start := game.value.start;
      if request.isLive && start.None? {
        start := Some(now);
      }
      var leg := request.leg;
      var row := Bet(Some(leg.game), false, TermsOf(leg, game.value.league, quote.value.line), quote.value.price,
                     request.stake, key, start, OPEN);
      var inserted := repo.Insert(row, []);
      r := if inserted.CheckFailed? then Refused(RowRejected) else Accepted(inserted);
    }
  }

  // ---------- the sweep covers what was placed ----------

  lemma RowsStay(before: Db, after: Db, bet: nat, leg: nat)
    requires Evolves(before, after)
    ensures bet < |before.bets| ==> after.bets[bet].startAt == before.bets[bet].startAt
                                    && after.bets[bet].game == before.bets[bet].game
                                    && after.bets[bet].key == before.bets[bet].key
    ensures leg < |before.legs| ==> after.legs[leg].parent == before.legs[leg].parent
                                    && after.legs[leg].game == before.legs[leg].game
                                    && after.legs[leg].index == before.legs[leg].index
                                    && after.legs[leg].terms == before.legs[leg].terms
  {
    if bet < |before.bets| {
      var a, b := after.bets[bet].(status := OPEN), before.bets[bet].(status := OPEN);
      assert a == b && a.startAt == b.startAt && a.game == b.game && a.key == b.key;
    }
    if leg < |before.legs| {
      var a, b := after.legs[leg].(status := OPEN), before.legs[leg].(status := OPEN);
      assert a == b && a.parent == b.parent && a.game == b.game && a.index == b.index && a.terms == b.terms;
    }
  }

  /** In every later state, an open leg of an accepted parlay is in the sweep exactly when some leg's parsed start lies
      before the cutoff; so once its own start has passed it is, and a parlay none of whose starts parses never is. */
  lemma SweepCoversParlay(db: Db, order: Order, legs: seq<LegRequest>, games: seq<GameInfo>, quotes: seq<Quote>,
                          stake: real, key: string, later: Db, cutoff: int, i: nat)
    requires ParlayRows(order, legs, games, quotes, stake, key) && i < |legs|
    requires Insert(db, order.row, order.legs).1.Created? && Evolves(Insert(db, order.row, order.legs).0, later)
    ensures var leg := |db.legs| + i;
            && LegOf(later, |db.bets|, leg) && later.legs[leg].game == Some(legs[i].game)
            && (OpenLeg(later, leg) ==>
                  (SweptLeg(later, cutoff, leg) <==>
                   exists j :: 0 <= j < |games| && games[j].start.Some? && games[j].start.value < cutoff))
            && (OpenLeg(later, leg) && games[i].start.Some? && games[i].start.value < cutoff ==>
                  SweptLeg(later, cutoff, leg))
  {
    var placed := Insert(db, order.row, order.legs).0;
    RowsStay(placed, later, |db.bets|, |db.legs| + i);
    assert placed.legs[|db.legs| + i] == StoredLegs(|db.bets|, order.legs)[i];
    assert placed.bets[|db.bets|].startAt == order.row.startAt;
  }

  /** A single is swept, at some cutoff, exactly when it was placed live or its game's start parsed. */
  lemma SweepCoversSingle(db: Db, request: BetRequest, key: string, game: GameInfo, quote: Quote, now: int, later: Db)
    requires var row := SingleRow(request, key, game, quote, now);
             && Insert(db, row, []).1.Created? && Evolves(Insert(db, row, []).0, later)
    requires OpenBet(later, |db.bets|)
    ensures (exists cutoff :: SweptBet(later, cutoff, |db.bets|)) <==> request.isLive || game.start.Some?
    ensures forall cutoff :: SweptBet(later, cutoff, |db.bets|) <==>
              if game.start.Some? then game.start.value < cutoff else request.isLive && now < cutoff
  {
    var row := SingleRow(request, key, game, quote, now);
    var placed := Insert(db, row, []).0;
    RowsStay(placed, later, |db.bets|, |later.legs|);
    assert placed.bets[|db.bets|].startAt == row.startAt && placed.bets[|db.bets|].game == row.game;
    if row.startAt.Some? {
      assert SweptBet(later, row.startAt.value + 1, |db.bets|);
    }
  }

  // ---------- one row per key, legs numbered and apart, over every run ----------

  /** Each parent's legs carry the indices 0, 1, 2, ... in table order. */
  ghost predicate Numbered(db: Db) {
    forall parent: nat, k: nat :: k < |LegsOf(db, parent)| ==> IndexAt(db, LegsOf(db, parent), k)
  }

  ghost predicate IndexAt(db: Db, ids: seq<nat>, k: nat)
    requires k < |ids|
  {
    ids[k] < |db.legs| && db.legs[ids[k]].index == k
  }

  /** No two legs of one parent share a selection key. */
  ghost predicate Apart(legs: seq<Leg>) {
    forall i, j :: 0 <= i < j < |legs| && legs[i].parent == legs[j].parent ==> RowKey(legs[i]) != RowKey(legs[j])
  }

  /** The order's legs bet on different selections, as validation guarantees. */
  ghost predicate ApartOrder(p: Proc) {
    match p
    case CheckBankroll(order) => forall i, j :: 0 <= i < j < |order.legs| ==> RowKey(order.legs[i]) != RowKey(order.legs[j])
    case InsertOrder(order) => forall i, j :: 0 <= i < j < |order.legs| ==> RowKey(order.legs[i]) != RowKey(order.legs[j])
    case _ => true
  }

  lemma {:induction false} SelectRange(n: nat, m: nat, p: nat -> bool)
    requires n <= m
    requires forall i :: 0 <= i < n ==> !p(i)
    requires forall i :: n <= i < m ==> p(i)
    ensures |Select(m, p)| == m - n
    ensures forall k :: 0 <= k < m - n ==> Select(m, p)[k] == n + k
  {
    if m > n {
      SelectRange(n, m - 1, p);
    } else if n > 0 {
      SelectRange(n - 1, n - 1, p);
    }
  }

  lemma InsertKeepsLegs(db: Db, order: Order)
    requires Consistent(db) && ValidOrder(order) && Numbered(db) && Apart(db.legs) && ApartOrder(InsertOrder(order))
    ensures var db' := Insert(db, order.row, order.legs).0; Numbered(db') && Apart(db'.legs)
  {
    var (db', inserted) := Insert(db, order.row, order.legs);
    InsertEvolves(db, order.row, order.legs);
    if inserted.Created? {
      forall parent: nat, k: nat | k < |LegsOf(db', parent)| ensures IndexAt(db', LegsOf(db', parent), k) {
        if parent < |db.bets| {
          LegOfStable(db, db', parent);
          assert IndexAt(db, LegsOf(db, parent), k);
        } else {
          NewLegs(db, db', order, parent);
        }
      }
      forall i, j | 0 <= i < j < |db'.legs| && db'.legs[i].parent == db'.legs[j].parent
        ensures RowKey(db'.legs[i]) != RowKey(db'.legs[j])
      {
        if i < |db.legs| {
          assert IsParlay(db, db.legs[i].parent);
        }
      }
    }
  }

  lemma NewLegs(db: Db, db': Db, order: Order, parent: nat)
    requires Consistent(db) && ValidOrder(order) && parent >= |db.bets|
    requires Insert(db, order.row, order.legs) == (db', Created(|db.bets|))
    ensures forall k: nat :: k < |LegsOf(db', parent)| ==> IndexAt(db', LegsOf(db', parent), k)
  {
    var p := (leg: nat) => LegOf(db', parent, leg);
    forall i | 0 <= i < |db.legs| ensures !p(i) {
      assert IsParlay(db, db.legs[i].parent);
    }
    if parent == |db.bets| {
      SelectRange(|db.legs|, |db'.legs|, p);
    } else {
      SelectRange(|db'.legs|, |db'.legs|, p);
    }
  }

  lemma StatusKeepsLegs(db: Db, db': Db)
    requires Evolves(db, db') && |db'.legs| == |db.legs| && |db'.bets| == |db.bets| && RowsMatch(db)
    requires Numbered(db) && Apart(db.legs)
    ensures Numbered(db') && Apart(db'.legs)
  {
    forall leg: nat | leg < |db.legs|
      ensures db'.legs[leg].parent == db.legs[leg].parent && db'.legs[leg].index == db.legs[leg].index
      ensures RowKey(db'.legs[leg]) == RowKey(db.legs[leg])
    {
      RowsStay(db, db', |db.bets|, leg);
    }
    forall parent: nat, k: nat | k < |LegsOf(db', parent)| ensures IndexAt(db', LegsOf(db', parent), k) {
      SelectSame(|db.legs|, |db'.legs|,
                 (leg: nat) => LegOf(db, parent, leg), (leg: nat) => LegOf(db', parent, leg));
      assert IndexAt(db, LegsOf(db, parent), k);
    }
  }

  ghost predicate WellKept(s: Sys) {
    Numbered(s.db) && Apart(s.db.legs) && forall i :: 0 <= i < |s.procs| ==> ApartOrder(s.procs[i])
  }

  lemma {:induction false} StepKeepsLegs(db: Db, p: Proc, rows: seq<nat>)
    requires Consistent(db) && Ready(db, p) && Numbered(db) && Apart(db.legs) && ApartOrder(p)
    ensures var (db', p') := Advance(db, p, rows); Numbered(db') && Apart(db'.legs) && ApartOrder(p')
  {
    AdvanceEffect(db, p, rows);
    if p.InsertOrder? {
      InsertKeepsLegs(db, p.order);
    } else {
      AdvanceSafe(db, p, rows);
      StatusKeepsLegs(db, Advance(db, p, rows).0);
      AdvanceKeepsApart(db, p, rows);
    }
  }

  lemma {:induction false} AdvanceKeepsApart(db: Db, p: Proc, rows: seq<nat>)
    requires ApartOrder(p)
    ensures ApartOrder(Advance(db, p, rows).1)
  {
    var p' := Advance(db, p, rows).1;
    match p
    case CheckBankroll(order) => assert p' in {Raised(0), InsertOrder(order)};
    case GradeBets(_, _, _, _) => assert p'.GradeBets? || p'.GradeLegs? || p'.Raised?;
    case GradeLegs(_, _, _, _) => assert p'.GradeLegs? || p'.SettleParents?;
    case SettleParents(_, _, _, _) => assert p'.SettleParents? || p'.Done? || p'.Raised?;
    case _ => assert !p'.CheckBankroll? && (p'.InsertOrder? ==> p' == p);
  }

  lemma ActKeepsRows(s: Sys, a: Action)
    requires Safe(s) && WellKept(s) && (a.Spawn? ==> ApartOrder(a.p))
    ensures WellKept(Act(s, a))
  {
    if a.Step? && a.i < |s.procs| {
      assert Ready(s.db, s.procs[a.i]);
      StepKeepsLegs(s.db, s.procs[a.i], a.rows);
    }
  }

  /** Over every run of requests whose orders passed validation, each parlay has its legs exactly once: indices 0 to
      n - 1 in order, on pairwise different selections; and no two rows share an idempotency key. */
  lemma {:induction false} RunKeepsRows(s: Sys, actions: seq<Action>)
    requires Safe(s) && WellKept(s)
    requires forall i :: 0 <= i < |actions| && actions[i].Spawn? ==> ApartOrder(actions[i].p)
    ensures var t := Run(s, actions);
            && WellKept(t)
            && forall i, j :: 0 <= i < j < |t.db.bets| ==> t.db.bets[i].key != t.db.bets[j].key
  {
    RunSafe(s, actions);
    if actions != [] {
      var n := |actions| - 1;
      RunKeepsRows(s, actions[..n]);
      RunSafe(s, actions[..n]);
      ActKeepsRows(Run(s, actions[..n]), actions[n]);
    }
  }

  lemma SafeAfterInsert(s: Sys, order: Order)
    requires Safe(s) && ValidOrder(order)
    ensures Safe(Sys(Insert(s.db, order.row, order.legs).0, s.procs))
  {
    var db := Insert(s.db, order.row, order.legs).0;
    InsertConsistent(s.db, order);
    InsertEvolves(s.db, order.row, order.legs);
    forall i | 0 <= i < |s.procs| ensures Ready(db, s.procs[i]) {
      ReadyStable(s.db, db, s.procs[i]);
    }
  }

  lemma InsertedRow(db: Db, row: Bet, legs: seq<Leg>)
    requires !Insert(db, row, legs).1.CheckFailed?
    ensures var (after, first) := Insert(db, row, legs);
            first.id < |after.bets| && after.bets[first.id].key == row.key
  {
    FindKeyCorrect(db.bets, row.key);
  }

  lemma InsertAgain(db: Db, row: Bet, legs: seq<Leg>, id: nat)
    requires forall i, j :: 0 <= i < j < |db.bets| ==> db.bets[i].key != db.bets[j].key
    requires id < |db.bets| && db.bets[id].key == row.key && Stored(row).stake > 0.0
    ensures Insert(db, row, legs) == (db, Replayed(id))
    ensures forall bet: nat :: bet < |db.bets| && db.bets[bet].key == row.key <==> bet == id
  {
    FindKeyCorrect(db.bets, row.key);
  }

  /** Once a key has its row, whatever runs in between, inserting with that key returns that row and writes nothing: one
      row per key for ever. */
  lemma ReplayReturnsTheRow(s: Sys, order: Order, actions: seq<Action>, again: Order)
    requires Safe(s) && ValidOrder(order)
    requires again.row.key == order.row.key && Stored(again.row).stake > 0.0
    requires !Insert(s.db, order.row, order.legs).1.CheckFailed?
    ensures var (db, first) := Insert(s.db, order.row, order.legs);
            var t := Run(Sys(db, s.procs), actions);
            && Insert(t.db, again.row, again.legs) == (t.db, Replayed(first.id))
            && (forall bet: nat :: bet < |t.db.bets| && t.db.bets[bet].key == order.row.key <==> bet == first.id)
  {
    var (db, first) := Insert(s.db, order.row, order.legs);
    SafeAfterInsert(s, order);
    InsertedRow(s.db, order.row, order.legs);
    RunSafe(Sys(db, s.procs), actions);
    var t := Run(Sys(db, s.procs), actions);
    RowsStay(db, t.db, first.id, |t.db.legs|);
    InsertAgain(t.db, again.row, again.legs, first.id);
  }

  /** A request repeated with its idempotency key is checked again before its row is looked up. A bet of the whole
      bankroll is accepted once; repeated with the same key while it is open it is refused, whatever its game and
      price are by then. PlaceBet says exactly when a repeated request gets its row. */
  lemma ReplayIsRefused(request: BetRequest, key: string, game: GameInfo, quote: Quote, now: int)
    requires BetAdmissible(Empty(request.stake), request, Some(game), Some(quote), now)
    requires Ticks(request.stake)
    ensures var (db, first) := Insert(Empty(request.stake), SingleRow(request, key, game, quote, now), []);
            && first == Created(0) && FindKey(db.bets, key) == Some(0)
            && forall game', quote', now' :: !BetAdmissible(db, request, game', quote', now')
  {
    var empty, row := Empty(request.stake), SingleRow(request, key, game, quote, now);
    Numeric4KeepsTicks(request.stake);
    FindKeyCorrect(empty.bets, key);
    var (db, first) := Insert(empty, row, []);
    InsertMovesMoney(empty, row, []);
    FindKeyCorrect(db.bets, key);
    assert Available(empty) == request.stake;
  }

  /** An accepted pregame bet is on a scheduled game that has not started: its row starts after the clock, so no sweep up
      to then takes it. A live one is on a game that is scheduled or under way, and its row always has a start. */
  lemma AcceptedBetIsOpenForBetting(db: Db, request: BetRequest, key: string, game: GameInfo, quote: Quote, now: int,
                                    later: Db, cutoff: int)
    requires BetAdmissible(db, request, Some(game), Some(quote), now)
    requires Insert(db, SingleRow(request, key, game, quote, now), []).1.Created?
    requires Evolves(Insert(db, SingleRow(request, key, game, quote, now), []).0, later)
    ensures !request.isLive ==>
              && game.status == SCHEDULED
              && (game.start.Some? ==> game.start.value > now)
              && (cutoff <= now ==> !SweptBet(later, cutoff, |db.bets|))
    ensures request.isLive ==>
              && (game.status == SCHEDULED || game.status == IN_PROGRESS)
              && SingleRow(request, key, game, quote, now).startAt.Some?
  {
    if OpenBet(later, |db.bets|) {
      SweepCoversSingle(db, request, key, game, quote, now, later);
    }
  }

  /** An accepted parlay's games are all scheduled and none had started when its leg was looked at. */
  lemma AcceptedLegsAreUnstarted(db: Db, legs: seq<LegRequest>, stake: real, games: nat -> Option<GameInfo>,
                                 quotes: nat -> Option<Quote>, clock: nat -> int, i: nat)
    requires Admissible(db, legs, stake, games, quotes, clock) && i < |legs|
    ensures games(i).Some? && games(i).value.status == SCHEDULED && quotes(i).Some?
    ensures games(i).value.start.Some? ==> games(i).value.start.value > clock(i)
  {
    assert LegRefusal(games, quotes, clock, i).None?;
  }

  /** Scheduled games that have not started are open to both kinds of bet; games under way to live bets alone; all others
      to none. */
  lemma WhoMayBet(request: BetRequest, game: GameInfo, now: int)
    ensures game.status == SCHEDULED && (game.start.None? || game.start.value > now) ==> OpenForBetting(request, game, now)
    ensures game.status == SCHEDULED && game.start.Some? && game.start.value <= now ==>
              (OpenForBetting(request, game, now) <==> request.isLive)
    ensures game.status == IN_PROGRESS ==> (OpenForBetting(request, game, now) <==> request.isLive)
    ensures game.status in {FINAL, POSTPONED, CANCELLED, SUSPENDED} ==> !OpenForBetting(request, game, now)
  {
  }

  /** What is stored for a selection is what was asked for, on the league of its game and at the captured line. */
  predicate AsAsked(terms: Terms, leg: LegRequest, game: GameInfo, quote: Quote) {
    && terms.league == game.league && terms.market == leg.market && terms.side == Some(leg.side)
    && terms.player == leg.player && terms.stat == leg.stat && terms.propType == leg.propType
    && terms.line == quote.line
  }

  /** The rows of an accepted bet and of an accepted parlay carry the requests they come from, at the captured prices. */
  lemma RowsAreAsAsked(request: BetRequest, key: string, game: GameInfo, quote: Quote, now: int, order: Order,
                       legs: seq<LegRequest>, games: seq<GameInfo>, quotes: seq<Quote>, stake: real)
    ensures var row := SingleRow(request, key, game, quote, now);
            && row.game == Some(request.leg.game) && !row.isParlay && AsAsked(row.terms, request.leg, game, quote)
            && row.odds == quote.price && row.stake == request.stake && row.key == key
    ensures ParlayRows(order, legs, games, quotes, stake, key) ==>
              && order.row.isParlay && order.row.stake == stake && order.row.key == key && |order.legs| == |legs|
              && forall i :: 0 <= i < |legs| ==>
                   && order.legs[i].game == Some(legs[i].game) && order.legs[i].index == i
                   && order.legs[i].odds == quotes[i].price && AsAsked(order.legs[i].terms, legs[i], games[i], quotes[i])
  {
  }
}
