/** Pure grading: final scores or a box score, plus the terms, give an outcome.
    None stands for the ValueError of grade_bet and the reason string of resolve_player_prop. */
module Grading {
  import opened Outcomes

  datatype GameResult = GameResult(home: int, away: int, regulationHome: Option<int>, regulationAway: Option<int>)

  /** One player's line of a box score; `fields` holds the columns that sport records. */
  datatype PlayerLine = PlayerLine(slug: string, fields: map<string, real>)

  /** The players of each team in the array of the box score's sport. */
  datatype Box = Box(home: seq<PlayerLine>, away: seq<PlayerLine>)

  /** What upstream answers about one game. */
  datatype Feed = Feed(result: GameResult, box: Option<Box>)

  function Settle(result: real): Status {
    if result > 0.0 then WON else if result < 0.0 then LOST else PUSH
  }

  predicate IsSoccer(league: League) {
    league in {FIFA_WC, EPL}
  }

  /** Soccer settles on the regulation score when both halves of it are known. */
  function SettlementScores(result: GameResult, league: League): (int, int) {
    if IsSoccer(league) && result.regulationHome.Some? && result.regulationAway.Some? then
      (result.regulationHome.value, result.regulationAway.value)
    else
      (result.home, result.away)
  }

  function GradeBet(market: Market, side: Option<Side>, line: Option<real>, home: int, away: int, threeWay: bool)
    : Option<Status>
  {
    if side.None? then None
    else if side.value.DRAW? && !(threeWay && market.MONEYLINE?) then None
    else
      var margin := home - away;
      var selected := if side.value.HOME? then margin else -margin;
      var handicap := if line.Some? then line.value else 0.0;
      match market
      case SPREAD => Some(Settle(selected as real + handicap))
      case TOTAL =>
        var over := (home + away) as real - handicap;
        Some(Settle(if side.value.OVER? then over else -over))
      case MONEYLINE =>
        if threeWay then Some(if side.value == Winner(home, away) then WON else LOST)
        else Some(Settle(selected as real))
      case _ => None
  }

  function Winner(home: int, away: int): Side {
    if home > away then HOME else if home < away then AWAY else DRAW
  }

  /** The box-score columns a stat type adds up. */
  function StatFields(stat: string): Option<seq<string>> {
    match stat
    case "player_goal_scorer_anytime" => Some(["goals"])
    case "player_shots" => Some(["shots"])
    case "player_shots_on_target" => Some(["shots_on_target"])
    case "player_points" => Some(["points"])
    case "player_rebounds" => Some(["rebounds"])
    case "player_assists" => Some(["assists"])
    case "player_threes" => Some(["three_pointers_made"])
    case "player_points_rebounds_assists" => Some(["points", "rebounds", "assists"])
    case "batter_hits" => Some(["hits"])
    case "batter_total_bases" => Some(["total_bases"])
    case "batter_home_runs" => Some(["home_runs"])
    case "pitcher_strikeouts" => Some(["strikeouts_pitching"])
    case _ => None
  }

  function ExtractStat(fields: seq<string>, line: map<string, real>): Option<real> {
    if fields == [] then Some(0.0)
    else if fields[0] !in line then None
    else
      var rest := ExtractStat(fields[1..], line);
      if rest.None? then None else Some(line[fields[0]] + rest.value)
  }

  /** The first line with that slug, the home team's players before the away team's. */
  function FindPlayerLine(players: seq<PlayerLine>, slug: string): Option<PlayerLine> {
    if players == [] then None
    else if players[0].slug == slug then Some(players[0])
    else FindPlayerLine(players[1..], slug)
  }

  function GradePlayerProp(propType: PropType, side: Side, line: Option<real>, actual: real): Option<Status> {
    match propType
    case YES_NO =>
      if side !in {YES, NO} then None
      else Some(if side.YES? == (actual > 0.0) then WON else LOST)
    case OVER_UNDER =>
      if side !in {OVER, UNDER} then None
      else
        var over := actual - (if line.Some? then line.value else 0.0);
        if over > 0.0 then Some(if side.OVER? then WON else LOST)
        else if over < 0.0 then Some(if side.UNDER? then WON else LOST)
        else Some(PUSH)
  }

  function ResolvePlayerProp(box: Box, terms: Terms): Option<Status> {
    if terms.side.None? || terms.player in {None, Some("")} || terms.stat in {None, Some("")} then None
    else
      var fields := StatFields(terms.stat.value);
      var player := FindPlayerLine(box.home + box.away, terms.player.value);
      if fields.None? || player.None? then None
      else
        var actual := ExtractStat(fields.value, player.value.fields);
        if actual.None? then None
        else
          var propType :=
            if terms.propType.Some? then terms.propType.value
            else if terms.side.value in {YES, NO} then YES_NO else OVER_UNDER;
          GradePlayerProp(propType, terms.side.value, terms.line, actual.value)
  }

  /** The status these terms earn from one game, or None when they cannot be graded from it. */
  function Outcome(terms: Terms, feed: Feed): Option<Status> {
    if IsProp(terms.market) then
      if terms.market.PLAYER_PROP? && feed.box.Some? then ResolvePlayerProp(feed.box.value, terms) else None
    else
      var (home, away) := SettlementScores(feed.result, terms.league);
      GradeBet(terms.market, terms.side, terms.line, home, away,
               IsSoccer(terms.league) && terms.market.MONEYLINE?)
  }

  /** A grade is never OPEN and never VOID. */
  lemma OutcomeIsDecisive(terms: Terms, feed: Feed)
    ensures Outcome(terms, feed) in {None, Some(WON), Some(LOST), Some(PUSH)}
  {
  }

  /** The status the other side of the same market gets. */
  function Mirror(status: Status): Status {
    match status
    case WON => LOST
    case LOST => WON
    case other => other
  }

  /** Opposite sides of a two-way market mirror each other: a spread against the negated line, a total or an
      over/under prop on the same line, a two-way moneyline and a yes/no prop. */
  lemma OppositeSidesMirror(line: real, home: int, away: int, actual: real)
    ensures var s := GradeBet(SPREAD, Some(HOME), Some(line), home, away, false);
            s.Some? && GradeBet(SPREAD, Some(AWAY), Some(-line), home, away, false) == Some(Mirror(s.value))
    ensures var s := GradeBet(TOTAL, Some(OVER), Some(line), home, away, false);
            s.Some? && GradeBet(TOTAL, Some(UNDER), Some(line), home, away, false) == Some(Mirror(s.value))
    ensures var s := GradeBet(MONEYLINE, Some(HOME), None, home, away, false);
            s.Some? && GradeBet(MONEYLINE, Some(AWAY), None, home, away, false) == Some(Mirror(s.value))
    ensures var s := GradePlayerProp(OVER_UNDER, OVER, Some(line), actual);
            s.Some? && GradePlayerProp(OVER_UNDER, UNDER, Some(line), actual) == Some(Mirror(s.value))
    ensures var s := GradePlayerProp(YES_NO, YES, Some(line), actual);
            s.Some? && GradePlayerProp(YES_NO, NO, Some(line), actual) == Some(Mirror(s.value))
  {
  }

  // ---------- outcomes in terms of the scores ----------

  /** A line that is not set counts as zero. */
  function Points(line: Option<real>): real {
    if line.Some? then line.value else 0.0
  }

  /** The backed team's score and the other's. Anything but HOME backs the away team. */
  function Backed(side: Side, home: int, away: int): (int, int) {
    if side.HOME? then (home, away) else (away, home)
  }

  /** Won when ahead, lost when behind, pushed when level. */
  predicate ByComparison(grade: Option<Status>, mine: real, theirs: real) {
    && grade in {Some(WON), Some(LOST), Some(PUSH)}
    && (grade == Some(WON) <==> mine > theirs)
    && (grade == Some(LOST) <==> mine < theirs)
    && (grade == Some(PUSH) <==> mine == theirs)
  }

  /** A spread bet compares the backed score plus the line with the other score; a total, on the over, the sum of the
      scores with the line, otherwise the line with the sum; a two-way moneyline the backed score with the other. */
  lemma TwoWayByScores(side: Side, line: Option<real>, home: int, away: int, threeWay: bool)
    requires !side.DRAW?
    ensures var (mine, theirs) := Backed(side, home, away);
            && ByComparison(GradeBet(SPREAD, Some(side), line, home, away, threeWay),
                            mine as real + Points(line), theirs as real)
            && ByComparison(GradeBet(MONEYLINE, Some(side), line, home, away, false), mine as real, theirs as real)
    ensures var sum := (home + away) as real;
            ByComparison(GradeBet(TOTAL, Some(side), line, home, away, threeWay),
                         if side.OVER? then sum else Points(line), if side.OVER? then Points(line) else sum)
  {
  }

  /** A three-way moneyline never pushes: HOME wins when the home team is ahead, AWAY when the away team is, DRAW when
      they are level, and any other side loses. */
  lemma ThreeWayByScores(side: Side, line: Option<real>, home: int, away: int)
    ensures var grade := GradeBet(MONEYLINE, Some(side), line, home, away, true);
            && grade in {Some(WON), Some(LOST)}
            && (grade == Some(WON) <==>
                (side.HOME? && home > away) || (side.AWAY? && home < away) || (side.DRAW? && home == away))
  {
  }

  /** How good an outcome is for the bettor. */
  function Rank(status: Status): int {
    match status
    case LOST => 0
    case WON => 2
    case _ => 1
  }

  /** One more point for the backed team, or for the over, never worsens a grade, and neither does a longer line for a
      spread. */
  lemma MorePointsNeverHurt(side: Side, line: real, more: real, home: int, away: int, threeWay: bool)
    requires side in {HOME, AWAY} && more >= line
    ensures var (h, a) := if side.HOME? then (home + 1, away) else (home, away + 1);
            && Rank(GradeBet(SPREAD, Some(side), Some(line), home, away, threeWay).value)
               <= Rank(GradeBet(SPREAD, Some(side), Some(line), h, a, threeWay).value)
            && Rank(GradeBet(MONEYLINE, Some(side), Some(line), home, away, threeWay).value)
               <= Rank(GradeBet(MONEYLINE, Some(side), Some(line), h, a, threeWay).value)
            && Rank(GradeBet(TOTAL, Some(OVER), Some(line), home, away, threeWay).value)
               <= Rank(GradeBet(TOTAL, Some(OVER), Some(line), h, a, threeWay).value)
            && Rank(GradeBet(TOTAL, Some(UNDER), Some(line), h, a, threeWay).value)
               <= Rank(GradeBet(TOTAL, Some(UNDER), Some(line), home, away, threeWay).value)
            && Rank(GradeBet(SPREAD, Some(side), Some(line), home, away, threeWay).value)
               <= Rank(GradeBet(SPREAD, Some(side), Some(more), home, away, threeWay).value)
  {
  }

  // ---------- which scores, and which statistics ----------

  /** Soccer settles on the regulation score alone when both halves are known; otherwise, and in every other league, on
      the final score alone. */
  lemma WhichScores(home: int, away: int, regulation: (int, int), league: League)
    ensures var final := GameResult(home, away, None, None);
            SettlementScores(final, league) == (home, away)
            && SettlementScores(final.(regulationHome := Some(regulation.0)), league) == (home, away)
            && SettlementScores(final.(regulationAway := Some(regulation.1)), league) == (home, away)
    ensures var both := GameResult(home, away, Some(regulation.0), Some(regulation.1));
            SettlementScores(both, league) == if league == FIFA_WC || league == EPL then regulation else (home, away)
  {
  }

  /** A score bet is graded on those scores; a moneyline is three-way in soccer and only there. */
  lemma ScoreOutcome(terms: Terms, feed: Feed)
    requires terms.market in {SPREAD, TOTAL, MONEYLINE} && terms.side.Some?
    ensures var (home, away) := SettlementScores(feed.result, terms.league);
            var side := terms.side.value;
            && (terms.market.SPREAD? && !side.DRAW? ==>
                  ByComparison(Outcome(terms, feed), Backed(side, home, away).0 as real + Points(terms.line),
                               Backed(side, home, away).1 as real))
            && (terms.market.TOTAL? && side.OVER? ==>
                  ByComparison(Outcome(terms, feed), (home + away) as real, Points(terms.line)))
            && (terms.market.TOTAL? && side !in {OVER, DRAW} ==>
                  ByComparison(Outcome(terms, feed), Points(terms.line), (home + away) as real))
            && (terms.market.MONEYLINE? && terms.league !in {FIFA_WC, EPL} && !side.DRAW? ==>
                  ByComparison(Outcome(terms, feed), Backed(side, home, away).0 as real, Backed(side, home, away).1 as real))
            && (terms.market.MONEYLINE? && terms.league in {FIFA_WC, EPL} ==>
                  && Outcome(terms, feed) in {Some(WON), Some(LOST)}
                  && (Outcome(terms, feed) == Some(WON) <==>
                      (side.HOME? && home > away) || (side.AWAY? && home < away) || (side.DRAW? && home == away)))
  {
  }

  /** An over/under prop compares the statistic with its line; a yes/no prop asks whether it is positive, and never
      pushes. */
  lemma PropByStatistic(side: Side, line: Option<real>, actual: real)
    ensures side in {OVER, UNDER} ==>
              ByComparison(GradePlayerProp(OVER_UNDER, side, line, actual),
                           if side.OVER? then actual else Points(line), if side.OVER? then Points(line) else actual)
    ensures side in {YES, NO} ==>
              GradePlayerProp(YES_NO, side, line, actual) == Some(if side.YES? <==> actual > 0.0 then WON else LOST)
    ensures side !in {OVER, UNDER} ==> GradePlayerProp(OVER_UNDER, side, line, actual).None?
    ensures side !in {YES, NO} ==> GradePlayerProp(YES_NO, side, line, actual).None?
  {
  }

  /** The sum of the named columns. */
  function Column(line: map<string, real>, field: string): real {
    if field in line then line[field] else 0.0
  }

  /** A combined statistic needs all of its columns and is their sum. */
  lemma {:induction false} ExtractAdds(fields: seq<string>, more: seq<string>, line: map<string, real>)
    ensures ExtractStat([], line) == Some(0.0)
    ensures ExtractStat(fields, line).Some? <==> forall f :: f in fields ==> f in line
    ensures var a, b, both := ExtractStat(fields, line), ExtractStat(more, line), ExtractStat(fields + more, line);
            both == if a.Some? && b.Some? then Some(a.value + b.value) else None
    ensures forall f :: ExtractStat([f], line) == if f in line then Some(line[f]) else None
  {
    if fields == [] {
      assert fields + more == more;
    } else {
      assert (fields + more)[1..] == fields[1..] + more;
      ExtractAdds(fields[1..], more, line);
      assert forall f :: f in fields <==> f == fields[0] || f in fields[1..];
    }
  }

  /** The combined statistic reads what the three props on points, rebounds and assists read; each other one a column
      of its own. */
  lemma StatColumns()
    ensures var pra := StatFields("player_points_rebounds_assists");
            var points, rebounds, assists :=
              StatFields("player_points"), StatFields("player_rebounds"), StatFields("player_assists");
            && points == Some(["points"]) && rebounds == Some(["rebounds"]) && assists == Some(["assists"])
            && pra == Some(points.value + rebounds.value + assists.value)
    ensures StatFields("player_goal_scorer_anytime") == Some(["goals"])
    ensures StatFields("player_shots") == Some(["shots"]) && StatFields("player_shots_on_target") == Some(["shots_on_target"])
    ensures StatFields("player_threes") == Some(["three_pointers_made"])
    ensures StatFields("batter_hits") == Some(["hits"]) && StatFields("batter_total_bases") == Some(["total_bases"])
    ensures StatFields("batter_home_runs") == Some(["home_runs"])
    ensures StatFields("pitcher_strikeouts") == Some(["strikeouts_pitching"])
  {
    assert ["points"] + ["rebounds"] + ["assists"] == ["points", "rebounds", "assists"];
  }

  /** The player found is the first with the slug; nobody is found exactly when nobody has it. */
  lemma {:induction false} FirstWithSlug(players: seq<PlayerLine>, slug: string)
    ensures var found := FindPlayerLine(players, slug);
            if found.None? then forall i :: 0 <= i < |players| ==> players[i].slug != slug
            else exists k :: 0 <= k < |players| && found == Some(players[k]) && players[k].slug == slug
                             && forall i :: 0 <= i < k ==> players[i].slug != slug
  {
    if players != [] && players[0].slug != slug {
      FirstWithSlug(players[1..], slug);
      var found := FindPlayerLine(players[1..], slug);
      if found.Some? {
        var k :| 0 <= k < |players| - 1 && found == Some(players[1..][k]) && players[1..][k].slug == slug
                 && forall i :: 0 <= i < k ==> players[1..][i].slug != slug;
        assert players[k + 1].slug == slug && found == Some(players[k + 1]);
        forall i | 0 <= i < k + 1 ensures players[i].slug != slug {
          assert i > 0 ==> players[i] == players[1..][i - 1];
        }
      }
    }
  }

  /** The statistic of a player prop in one box score: the columns of its stat on the first line with its slug. */
  ghost predicate Recorded(terms: Terms, box: Box, actual: real) {
    && terms.player.Some? && terms.stat.Some?
    && StatFields(terms.stat.value).Some?
    && FindPlayerLine(box.home + box.away, terms.player.value).Some?
    && ExtractStat(StatFields(terms.stat.value).value, FindPlayerLine(box.home + box.away, terms.player.value).value.fields)
       == Some(actual)
  }

  /** A player prop is graded on that statistic, as the type it has or its side implies; without a box score, or with
      nothing recorded, it is not graded. Team and game props never are. */
  lemma PropOutcome(terms: Terms, feed: Feed, actual: real)
    ensures terms.market in {TEAM_PROP, GAME_PROP} ==> Outcome(terms, feed).None?
    ensures terms.market.PLAYER_PROP? && feed.box.None? ==> Outcome(terms, feed).None?
    ensures terms.market.PLAYER_PROP? && Outcome(terms, feed).Some? ==>
              exists recorded :: Recorded(terms, feed.box.value, recorded)
    ensures terms.market.PLAYER_PROP? && terms.side.Some? && feed.box.Some? && Recorded(terms, feed.box.value, actual)
            && terms.player != Some("") && terms.stat != Some("") ==>
              && (terms.side.value in {OVER, UNDER} && terms.propType in {None, Some(OVER_UNDER)} ==>
                    ByComparison(Outcome(terms, feed), if terms.side.value.OVER? then actual else Points(terms.line),
                                 if terms.side.value.OVER? then Points(terms.line) else actual))
              && (terms.side.value in {YES, NO} && terms.propType in {None, Some(YES_NO)} ==>
                    Outcome(terms, feed) == Some(if terms.side.value.YES? <==> actual > 0.0 then WON else LOST))
  {
    if terms.market.PLAYER_PROP? && Outcome(terms, feed).Some? {
      var fields := StatFields(terms.stat.value).value;
      var player := FindPlayerLine(feed.box.value.home + feed.box.value.away, terms.player.value).value;
      assert Recorded(terms, feed.box.value, ExtractStat(fields, player.fields).value);
    }
  }
}
