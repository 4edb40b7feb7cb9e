# Bookie emulator: settlement, money, analytics and schema rewriting

A Dafny model of a paper-betting service. Bets and parlays are placed against a bankroll, graded when
games complete (by an event subscriber, a fallback poller and a manual endpoint, all at once), and
summarised by performance analytics.

The model has five parts.

- **The settlement engine.** `Tables` holds the bets, parlay legs, grade rows and bankroll snapshots as one value, and
  each database transaction as a function on it. `Protocol` is a state machine of any number of graders, manual calls
  and placers: each keeps a program counter, its cached query answers and its list of touched parlays, and moves by one
  transaction or read at a time, in any interleaving, with kills allowed. `Safety`, `Settlement`, `Confluence`,
  `Bankroll`, `Movements`, `Overdraft` and `Starvation` prove what holds over every run. `Repository`, `GraderService`, `Poller` and
  `Placement` are the classes with their loops and in-place updates. `GradeGame` and `GradeManual` carry, as a ghost
  result, the run of the protocol they perform, so what is proved of runs holds of the methods.
- **Grading and parlays.** `Grading` decides one bet from a score or box score; `Parlay` settles legs and shows that
  settling is rolling the stake; `Odds` bounds what the odds conversions and roundings do to a price.
- **Analytics.** `Streaks`, `Calibration`, `Breakdown` and `GroupFigures`: the loops, what they mean, and the inequalities
  between them.
- **The ledger.** `Ledger`: keyset paging, over one table and while it grows.
- **Schemas.** `Schema` rewrites an OpenAPI 3.1 schema to 3.0, `SchemaMeaning` says which JSON values a schema accepts
  in either dialect, `SchemaPreserved` proves the rewriting keeps them, `SchemaRepeats` says when rewriting again changes
  nothing, and `SchemaLimits` says when it keeps what a schema accepts that uses a construct beyond those FastAPI emits.

Money, odds and lines are exact reals; columns of type NUMERIC with four decimals round half away from zero (`Numeric4`)
and Python's `round` rounds half to even. Row ids are table positions. Upstream answers, clocks and query orders are
parameters or part of the run.

Where the code does something its own documentation does not say, the model follows the code:

- An open score bet whose terms no result can grade (a draw on a two-way moneyline passes placement) makes every
  `grade_game` call on its game raise before the parlay legs are reached, so those legs never settle
  (`Starvation.UngradeableTermsStarveTheGame`); which terms do this is exact (`Starvation.UngradeableExactly`), and so is
  when a call raises (`GraderService.GraderService.GradeGame`).
- An unparseable start is replaced by the placement time for live singles only, so that the sweep finds them. A pregame
  single whose start does not parse, and a parlay none of whose starts parses, never enters the sweep (`Placement.SweepCoversSingle`, `Placement.SweepCoversParlay`).
- The route documents that replaying an idempotency key returns the existing bet. The placement first passes validation
  and the bankroll check again, so a replay can be refused (`Placement.ReplayIsRefused`); it returns the row exactly when
  the request could be placed anew (`Placement.BetService.PlaceBet`, `Placement.BetService.PlaceParlay`).
- The schema rewriting is not idempotent: a second pass takes the boolean it wrote for a bound. It changes nothing exactly
  for schemas without an exclusive bound (`SchemaRepeats.IdempotentExactly`).
- The price conversions return American odds unchanged for every price of +100 and up or below -100, and for no other
  (`Odds.AmericanRoundTrip`): -100 comes back as +100.

## Model

| member | source | states |
|---|---|---|
| Outcomes.LossAtMostStake | src/bookie_emulator/core/grading.py:94-100 | No outcome costs more than the stake at any price that is not negative |
| Grading.OutcomeIsDecisive | src/bookie_emulator/core/grading.py:34-91 | Grading a score bet or prop yields WON, LOST, PUSH or a refusal, never OPEN or VOID |
| Grading.OppositeSidesMirror | src/bookie_emulator/core/grading.py:61-91 | Opposite sides of a spread (line negated), total, two-way moneyline, over/under or yes/no prop get mirrored outcomes for every score and line |
| Grading.TwoWayByScores | src/bookie_emulator/core/grading.py:61-89 | A spread wins, loses or pushes as the backed score plus the line is above, below or level with the other; a total as the sum is against the line; a two-way moneyline as the backed score is against the other |
| Grading.ThreeWayByScores | src/bookie_emulator/core/grading.py:83-87 | A three-way moneyline wins exactly for the side ahead, or for DRAW when level, and never pushes |
| Grading.MorePointsNeverHurt | src/bookie_emulator/core/grading.py:61-89 | One more point for the backed team, or for the over, or a longer line, never worsens a grade |
| Grading.WhichScores | src/bookie_emulator/core/settlement.py:42-56 | The two soccer leagues settle on the regulation score when both halves are known, everything else on the final score |
| Grading.ScoreOutcome | src/bookie_emulator/services/grader.py:229-248 | A stored score bet's outcome is that comparison on those scores, three-way in soccer moneylines and nowhere else |
| Grading.PropByStatistic | src/bookie_emulator/core/prop_grading.py:184-205 | An over/under prop compares the statistic with its line, a yes/no prop asks whether it is positive and never pushes, foreign sides are refused |
| Grading.ExtractAdds | src/bookie_emulator/core/prop_grading.py:40-51 | A combined statistic needs every one of its columns and is their sum |
| Grading.StatColumns | src/bookie_emulator/core/prop_grading.py:49-72 | Which columns each known statistic reads; the combined one reads those of its three parts |
| Grading.FirstWithSlug | src/bookie_emulator/core/prop_grading.py:109-120 | The line found is the first with the slug; none is found exactly when nobody has it |
| Grading.PropOutcome | src/bookie_emulator/core/prop_grading.py:143-162 | A player prop is graded on its recorded statistic by the type it has or its side implies, and not at all without a box score or record; team and game props never are |
| Starvation.UngradeableExactly | src/bookie_emulator/core/grading.py:57-91 | A score bet is refused by every result, or by none: exactly when its side is missing, it is a draw outside a three-way moneyline, or its market has no score rule |
| Starvation.DrawOnTwoWayMoneylineIsUngradeable | src/bookie_emulator/core/grading.py:59-60 | The draw of a two-way moneyline is a bet no result grades |
| Parlay.RollSurvivors | src/bookie_emulator/core/parlay.py:34-54 | Rolling a stake through legs leaves nothing after a loss, otherwise the stake times the product of the won decimals |
| Parlay.SettlementIsRolling | src/bookie_emulator/core/parlay.py:34-54 | With no open leg, the profit of the settled parlay is exactly what rolling the stake leg by leg leaves, less the stake |
| Parlay.SettleConcat | src/bookie_emulator/core/parlay.py:34-54 | Settling two groups of legs together is joining their settlements: a homomorphism over concatenation, open legs included |
| Parlay.JoinIsCommutativeMonoid | src/bookie_emulator/core/parlay.py:34-54 | Joining settlements is commutative and associative with the all-dropped settlement as its neutral element |
| Parlay.SettlePermutation | src/bookie_emulator/core/parlay.py:34-54 | The order of the legs never changes the settlement |
| Parlay.DroppedLegsAreNeutral | src/bookie_emulator/core/parlay.py:50-54 | Pushed or voided legs can be added anywhere without changing the settlement |
| Parlay.OneMoneylineVectorWins | src/bookie_emulator/core/parlay.py:43-54 | Of all HOME/DRAW/AWAY vectors over n three-way games exactly the winners' vector settles WON, every other LOST, none PUSH |
| Parlay.MirroredParlays | src/bookie_emulator/core/parlay.py:43-54 | Two parlays whose legs take opposite sides never both win, and push only together |
| Parlay.MirroredSpreadParlays | src/bookie_emulator/core/grading.py:61-68 | For any sides, lines, scores and prices, leg i of a spread parlay loses exactly where the opposite side at the negated line wins; the two parlays never both win, and push only together |
| Odds.AmericanRoundTrip | src/bookie_emulator/core/odds.py:4-19 | To decimal and back returns the American odds if and only if they are at least 100 or below -100 |
| Odds.DecimalToAmericanMonotone | src/bookie_emulator/core/odds.py:13-19 | Longer decimal odds never convert to shorter American odds, across the change of formula at 2 and the half-even rounding |
| Odds.DecimalRoundTripError | src/bookie_emulator/core/odds.py:4-19 | Decimal odds above 1 converted there and back move by at most 0.005 |
| Odds.PriceChain | src/bookie_emulator/services/bets.py:280-297 | For any number of captured legs, a parlay won with none dropped settles within 0.00005 of its stored decimal and within 0.00505 of its stored American price |
| Numeric.RoundTiesToEven | src/bookie_emulator/core/odds.py:18-19 | The rounding of American odds takes the nearest whole number, and of two the even one |
| Numeric.Numeric4TiesAway | src/bookie_emulator/db/tables.py:77-78 | A stored amount is the nearest one with four decimals, and of two the one farther from zero |
| Tables.FindKeyCorrect | src/bookie_emulator/db/repository.py:286-288 | The replay lookup returns the row with that idempotency key, and finds nothing exactly when there is none |
| Tables.NoOpenLegs | src/bookie_emulator/db/repository.py:347-354 | The open-leg count is zero exactly when every leg of the parent is decided |
| Tables.ParentSettles | src/bookie_emulator/services/grader.py:466-469 | A parent's legs settle, to WON, LOST or PUSH, exactly when none is open; otherwise the settlement is undecided |
| Tables.SettlementEarns | src/bookie_emulator/services/grader.py:466-478 | What is claimed for a parent is exactly what its leg rows earn: LOST with one lost leg, PUSH when all dropped out, else WON, with the profit of rolling the stake through the rows in table order |
| Repository.PaperBetRepository.ApplyGrade | src/bookie_emulator/db/repository.py:479-547 | The transaction's whole effect: guarded or forced claim, inserted or upserted grade, appended snapshot; nothing else changes |
| Repository.PaperBetRepository.GradeLeg | src/bookie_emulator/db/repository.py:336-345 | A leg is claimed only while open; a lost claim changes nothing |
| Repository.PaperBetRepository.Insert | src/bookie_emulator/db/repository.py:271-322 | Stake check first, then the existing row on a replayed key, otherwise the bet with its legs in one transaction |
| Repository.PaperBetRepository.OpenBetsForGame | src/bookie_emulator/db/repository.py:431-435 | Exactly the open bets on the game, each once |
| Repository.PaperBetRepository.OpenParlayLegsForGame | src/bookie_emulator/db/repository.py:330-334 | Exactly the open legs on the game, each once |
| Repository.PaperBetRepository.OpenGameIdsStartedBefore | src/bookie_emulator/db/repository.py:437-450 | Exactly the games of open bets stored as started before the cutoff, each once |
| Repository.PaperBetRepository.OpenParlayLegGameIdsStartedBefore | src/bookie_emulator/db/repository.py:356-377 | Exactly the games of open legs whose parent's earliest start lies before the cutoff, each once |
| Safety.RunSafe | src/bookie_emulator/services/grader.py:49-488 | Over every interleaving, forced calls and kills included: a bet is open exactly when it has no grade row, a graded parent has no open leg and carries exactly what its legs settle at, decided legs and immutable columns never change, cached reads stay true |
| Safety.ApplyGradeConsistent | src/bookie_emulator/db/repository.py:496-512 | A grading transaction keeps all table invariants, and the unforced plain INSERT never meets an existing grade row |
| Safety.SettlementIsFinal | src/bookie_emulator/db/repository.py:336-354 | Once a parent has no open leg, no later step reopens one or changes what the legs settle at |
| Safety.GradedParlayEarns | src/bookie_emulator/services/grader.py:452-488 | In every reachable state a graded parlay has no open leg and carries the status and profit its leg rows earn |
| Safety.DefensiveBranchesUnreachable | src/bookie_emulator/services/grader.py:460-469 | In every reachable state the "not found" and "settled is None" branches after a zero leg count are dead, and no claim collides with a grade row |
| Settlement.RunCovered | src/bookie_emulator/services/grader.py:445-488 | In every reachable state an open parlay with no open leg is still pending in some grader, a killed one keeping what it owed |
| Settlement.NoLostSettlement | src/bookie_emulator/services/grader.py:445-488 | Once every process has returned or raised, each fully decided parlay is graded with the status and profit its leg rows earn |
| Settlement.ManualCallSettles | src/bookie_emulator/services/grader.py:140-159 | A manual call on a parlay left undecided by a killed grader ends with it settled, whatever interleaves |
| Settlement.ManualCallAlone | src/bookie_emulator/services/grader.py:134-159 | Alone, that manual call returns after seven steps having claimed the parent itself |
| Confluence.FinishedRunIsOnePass | src/bookie_emulator/services/grader.py:71-128 | Every finished unforced run with one true result per game and no raising step, in any order, repetition or interleaving, ends with the tables of a one-pass specification: each delivered single at its outcome and odds, each parlay open while a leg is, else at what its final leg rows earn |
| Confluence.FinishedRunsAgree | src/bookie_emulator/services/grader.py:401-450 | Two such runs that delivered the same bets and legs end with equal bets, legs and grade rows |
| Bankroll.GradeMovesProfit | src/bookie_emulator/db/repository.py:502-512 | A grade or forced re-grade moves total profit by exactly the new grade's profit less the old one's |
| Bankroll.LedgerAlwaysAgrees | src/bookie_emulator/db/repository.py:514-546 | After every step of every run, forced re-grades included, the newest snapshot equals a fresh fold over the tables but for bets placed since, and its graded count plus the bets open now is every bet ever placed |
| Bankroll.SnapshotsAreFresh | src/bookie_emulator/db/repository.py:514-546 | At every step of every run, either no bet leaves OPEN and no grade changes, or exactly one snapshot is appended that equals a fresh fold over the tables as the step leaves them, open bets included |
| Bankroll.SnapshotBalanceIsBankroll | src/bookie_emulator/services/bankroll.py:34-36 | The newest snapshot's stored balance equals starting bankroll plus the sum of all grade profits, with no rounding lost |
| Movements.GradeWrites | src/bookie_emulator/db/repository.py:496-512 | A grade claims an open bet, or any bet when forced, writes that bet's status and rounded profit and one snapshot, and nothing else; unclaimed it writes nothing |
| Movements.LegWrites | src/bookie_emulator/db/repository.py:336-345 | A leg is claimed exactly while open and only its status changes |
| Movements.InsertWrites | src/bookie_emulator/db/repository.py:271-322 | An insert keeps every column of the row and its legs, opens them, rounds only the amounts, to the nearest, and leaves all other rows; refused or replayed it writes nothing |
| Movements.GradeMovesFigures | src/bookie_emulator/db/repository.py:514-546 | One grade moves the snapshot's figures by that bet: a first grade adds one to wins iff WON and to losses iff LOST and its stake to the wagered; a re-grade takes the old status out and the new one in |
| Movements.NothingGraded | src/bookie_emulator/db/repository.py:514-546 | Before anything is graded every figure of a snapshot is zero |
| Movements.SnapshotsMoveBetByBet | src/bookie_emulator/db/repository.py:514-546 | Over every run, two successive snapshots differ by exactly the one bet graded between them, forced re-grades included, the first from zero |
| Movements.AvailableIs | src/bookie_emulator/services/bets.py:416-423 | What a stake is checked against is the starting bankroll plus all that bets have paid less the open stakes |
| Movements.GradeMovesAvailable | src/bookie_emulator/services/bets.py:416-423 | A first grade raises what is available by exactly the stored stake and the stored profit; a re-grade by new less old profit |
| Movements.OthersMoveAvailable | src/bookie_emulator/services/bets.py:416-423 | A created row lowers what is available by exactly its stored stake; a replay, a failed check and a leg grade move nothing |
| Movements.BalanceIsAvailableAndOpen | src/bookie_emulator/services/bankroll.py:34-36 | In every reachable state the newest stored balance is what is available plus the open stakes |
| Bankroll.ClaimsCountGradedRows | src/bookie_emulator/services/grader.py:82-128 | Over every interleaving of unforced calls, kills included, the counts the calls hold add up to exactly the bet rows that left OPEN |
| Overdraft.GradeNeverLowersAvailable | src/bookie_emulator/services/bets.py:416-423 | An unforced grade never lowers the available bankroll |
| Overdraft.OverdraftBound | src/bookie_emulator/services/bets.py:167-202 | With at most K placements between check and insert, stakes of at most M, no negative price and no forced re-grade, available bankroll never falls below -(K-1)*M over any run; K = 1 is solvency |
| Overdraft.OverdraftBoundIsReached | src/bookie_emulator/services/bets.py:167-202 | The bound is tight under its own hypotheses: for every K and stake M, empty tables meet all of them and a run of wagers of M ends at exactly -(K-1)*M |
| Starvation.OneBadBetStarvesTheGame | src/bookie_emulator/services/grader.py:83-119 | While one open score bet of a game cannot be graded from any feed the calls bring, no run changes that bet or any parlay leg of the game |
| Starvation.UngradeableTermsStarveTheGame | src/bookie_emulator/services/grader.py:83-119 | The stored terms are enough: an open score bet with ungradeable terms stays open and freezes its game's legs over every run of every call |
| Starvation.NeverGradedExactly | src/bookie_emulator/core/prop_grading.py:143-162 | Terms that no result and no box score grades are exactly those missing a side, player or known stat, with a side foreign to the prop type, on a team or game prop, or with ungradeable score terms |
| Starvation.UngradeableLegKeepsParlayOpen | src/bookie_emulator/services/grader.py:401-450 | A parlay with one open leg of such terms stays open, its stake in the exposure, over every run, forced calls included |
| GraderService.RaisesExactly | src/bookie_emulator/services/grader.py:83-100 | Whether a call on a game raises is decided by the stored terms alone, whatever the result |
| GraderService.GraderService.GradeOne | src/bookie_emulator/services/grader.py:214-279 | The bet is graded at its stored odds and stake by one transaction, forced or not, or left alone when its terms give no outcome |
| GraderService.GraderService.TakeBet | src/bookie_emulator/services/grader.py:83-100 | One turn of the bet loop raises exactly on an ungradeable score bet and otherwise is one protocol step that counts a won claim |
| GraderService.GraderService.GradeBetQueue | src/bookie_emulator/services/grader.py:83-109 | The bet loops, score bets then player props, are protocol steps to the leg phase, or end raised at the first bet that blocks |
| GraderService.GraderService.TakeLeg | src/bookie_emulator/services/grader.py:401-446 | One turn of the leg loop is one protocol step that remembers the parent exactly of a won claim |
| GraderService.GraderService.GradeLegQueue | src/bookie_emulator/services/grader.py:400-446 | The leg loop claims each gradeable leg and hands every parent of a won claim to the settling phase |
| GraderService.GraderService.SettleTouched | src/bookie_emulator/services/grader.py:447-450 | The parent loop attempts every touched parent and counts exactly the settlements it claimed |
| GraderService.GraderService.SettleParlayIfDecided | src/bookie_emulator/services/grader.py:452-488 | The parent is claimed exactly when no leg row is open and its row can be claimed, and then carries what its leg rows earn; otherwise nothing changes |
| GraderService.GraderService.GradeGame | src/bookie_emulator/services/grader.py:49-128 | The call is a run of the protocol; it raises if and only if a score bet on the game is ungradeable; its count is the rows that left OPEN; returning, it leaves nothing of the game gradeable; a second call changes nothing; other games' rows stay |
| GraderService.GraderService.GradeManual | src/bookie_emulator/services/grader.py:130-212 | The call is a run of the protocol; it is refused in exactly the listed cases and then changes nothing; otherwise only that bet's row and grade change, to its outcome or its legs' settlement |
| Poller.GradingPoller.Candidates | src/bookie_emulator/services/poller.py:42-45 | Exactly the games of swept bets and swept legs, each once |
| Poller.GradingPoller.PollGame | src/bookie_emulator/services/poller.py:45-65 | One game's turn keeps the cycle's invariant, a game not final or raising included |
| Poller.GradingPoller.RunOnce | src/bookie_emulator/services/poller.py:36-66 | After a cycle every swept game is exhausted or raises; games not swept or not final keep their rows; the count is the rows that left OPEN when no game raises and never more; a second cycle returns 0 and, when no game raises, changes nothing |
| Poller.GradingPoller.Run | src/bookie_emulator/services/poller.py:68-79 | Over any cutoffs and answers: every cycle's count is of rows that left OPEN, and the counts are all of them when no open score bet is ungradeable; a cycle to which nothing stored has newly started and whose answers are unchanged grades nothing |
| Poller.OnlyUngradeableStaysOpen | src/bookie_emulator/services/poller.py:36-66 | After a cycle, a swept single or leg of a final game that does not raise is open only if its terms give no outcome |
| Placement.ValidateParlayLegs | src/bookie_emulator/services/bets.py:64-109 | Accepts exactly the fit leg lists, and otherwise names the first leg at fault and its first fault |
| Placement.FitLegsAreApart | src/bookie_emulator/services/bets.py:85-109 | Any two legs of an accepted parlay differ in game, market, player or stat |
| Placement.FitExactly | src/bookie_emulator/services/bets.py:85-109 | A parlay is accepted exactly when every leg is a team market, or a player prop with a statistic and a type whose sides include its side, and no two legs are on one game, market, player and stat |
| Placement.ParlayRowsAreValid | src/bookie_emulator/services/bets.py:286-309 | The rows of a parlay form an order for which the protocol invariants are stated: no game on the parent, indices in order |
| Placement.RowsAreAsAsked | src/bookie_emulator/services/bets.py:176-275 | The rows of a bet or parlay carry the requested game, market, side, player and statistic, the league of the game, and the captured line and price |
| Placement.BetService.CaptureLegs | src/bookie_emulator/services/bets.py:242-276 | The leg loop names the first leg refused and whether for its game or its price; otherwise it yields every leg's row in order, all prices and the earliest parsed start |
| Placement.BetService.PlaceParlay | src/bookie_emulator/services/bets.py:210-309 | Accepted exactly when validation, every leg, the bankroll and the price allow it; a refusal changes nothing and names what fails; an accepted order is inserted whole with its minimal start and pairwise different legs; with a stored key nothing is written and the row is returned exactly when all that still holds |
| Placement.BetService.PlaceBet | src/bookie_emulator/services/bets.py:143-202 | Accepted exactly when stake, game state (live or pregame), price and bankroll allow it; a refusal changes nothing and names the first condition that fails; with a stored key nothing is written and the row is returned exactly when all that still holds |
| Placement.SweepCoversParlay | src/bookie_emulator/db/repository.py:356-377 | In every later state an open leg of an accepted parlay is swept exactly when some leg's parsed start lies before the cutoff, so always once its own has |
| Placement.SweepCoversSingle | src/bookie_emulator/services/bets.py:169-173 | An open single is swept exactly from its parsed start on; without one, a live bet from its placement on and a pregame bet never |
| Placement.AcceptedBetIsOpenForBetting | src/bookie_emulator/services/bets.py:150-158 | An accepted pregame bet is on a scheduled game starting after the clock, so no sweep up to then takes it; a live one on a game scheduled or under way, and always with a start |
| Placement.AcceptedLegsAreUnstarted | src/bookie_emulator/services/bets.py:242-248 | Each game of an accepted parlay is scheduled and had not started when its leg was looked at |
| Placement.WhoMayBet | src/bookie_emulator/services/bets.py:150-158 | For every game status, whether pregame and live bets are admitted |
| Placement.RunKeepsRows | src/bookie_emulator/db/repository.py:291-322 | Over every run each parlay has its legs exactly once, indices 0 to n-1, on pairwise different selections, and idempotency keys are unique |
| Placement.ReplayReturnsTheRow | src/bookie_emulator/db/repository.py:271-322 | Once a key has a row, whatever runs in between, inserting with that key returns that row, writes nothing, and the row stays the only one with it |
| Placement.ReplayIsRefused | src/bookie_emulator/api/routes/bets.py:58-64 | Replaying a key does not always return the bet: one of the whole bankroll, accepted, cannot be placed again with its key while open, whatever its game and price by then |
| Streaks.SortByTimeIsStable | src/bookie_emulator/core/performance.py:117-117 | Sorting by grading time orders, is a permutation, and keeps list order at equal times |
| Streaks.Streaks | src/bookie_emulator/core/performance.py:111-129 | Longest win and loss are the longest contiguous blocks of the decided sequence; current is the signed length of its final block |
| Streaks.StreaksIgnoreListOrder | src/bookie_emulator/core/performance.py:117-117 | With distinct grading times the streaks depend only on which bets there are |
| Performance.DecidedAreWonOrLost | src/bookie_emulator/core/performance.py:117-117 | Exactly the won and lost bets enter streaks, Brier score and bins; a pushed, voided or open one is never seen, wherever it stands |
| Calibration.CalibrationBins | src/bookie_emulator/core/performance.py:140-163 | The bucketing loops compute for each of the n bins the statistics of exactly the decided bets with its index |
| Calibration.BoundsHoldTheBet | src/bookie_emulator/core/performance.py:148-157 | A bet's bin exists and its bounds hold the bet's probability, the upper one only in the last bin |
| Calibration.BinDescribesItsBets | src/bookie_emulator/core/performance.py:147-162 | A bin counts exactly the won and lost bets with a probability inside its bounds; its confidence is their mean probability and lies between the bounds; its accuracy is the share of them won |
| Calibration.ErrorInWins | src/bookie_emulator/core/performance.py:166-176 | The calibration error is the mean over won and lost bets of how far each bin's wins are from the sum of its probabilities |
| Calibration.BrierIsMeanSquare | src/bookie_emulator/core/performance.py:132-137 | The Brier score is the mean over won and lost bets of the squared distance of the probability from what happened |
| Calibration.CountIsDecided | src/bookie_emulator/core/performance.py:169-169 | The bin counts add up to the decided bets |
| Calibration.ErrorIsBinGaps | src/bookie_emulator/core/performance.py:166-176 | The calibration error is the sum of the bins' absolute gaps over the number of decided bets, None exactly when there are none |
| Calibration.SumOfGapsSquared | src/bookie_emulator/core/performance.py:132-137 | Cauchy-Schwarz for the bets: the squared sum of absolute gaps is at most their number times the sum of squared gaps |
| Calibration.ErrorSquaredAtMostBrier | src/bookie_emulator/core/performance.py:132-176 | For every list of bets and every number of bins, the squared calibration error is at most the Brier score |
| Calibration.FinerIndex | src/bookie_emulator/core/performance.py:148-148 | The index in k*n bins divided by k is the index in n bins, truncation and the clamp at 1 included |
| Calibration.FinerBinsNeverLowerError | src/bookie_emulator/core/performance.py:166-176 | Splitting every bin into k never lowers the calibration error |
| Breakdown.ComputePerformance | src/bookie_emulator/core/performance.py:183-209 | The metrics are the single-group figures of all bets, with the streaks as declared and the Brier score and ten-bin error; it raises exactly when the mean decimal odds are not zero and at most 1 |
| Breakdown.SortNamesAscends | src/bookie_emulator/core/performance.py:227-227 | Sorting group names keeps exactly the names and orders them, without repeats |
| Breakdown.NotAfterIsDictionaryOrder | src/bookie_emulator/core/performance.py:227-227 | Names are compared in dictionary order |
| Breakdown.GroupBets | src/bookie_emulator/core/performance.py:223-225 | The grouping loop puts every bet into the group of its key, in order, and creates no empty group |
| Breakdown.ComputeBreakdown | src/bookie_emulator/core/performance.py:221-248 | One group per occurring key, names strictly ascending, each with the figures of exactly its members |
| GroupFigures.GroupCountsItsBets | src/bookie_emulator/core/performance.py:229-231 | A group's wins, losses and pushes are the numbers of its bets with that status |
| GroupFigures.WinRateOfGroup | src/bookie_emulator/core/performance.py:101-104 | The win rate is the share of the won among the won and lost, zero without any |
| GroupFigures.GroupAddsItsMoney | src/bookie_emulator/core/performance.py:232-245 | Profit is the sum of the profits, ROI that sum by the sum of the stakes, the edge the mean in percent |
| GroupFigures.ClvDescribesItsBets | src/bookie_emulator/core/performance.py:244-244 | The closing-line value is the mean over the bets that have one |
| GroupFigures.ProfitFollowsWins | src/bookie_emulator/core/performance.py:229-232 | When bets carry what their status pays, a group without losses is not in the red, and one with losses and no win is |
| GroupFigures.AverageOddsNearMean | src/bookie_emulator/core/performance.py:189-201 | The average American odds convert to within 0.005 of the mean decimal odds |
| Breakdown.GroupsAddUp | src/bookie_emulator/core/performance.py:221-248 | Any per-bet figure summed group by group is the sum over all bets |
| Breakdown.BreakdownAddsUp | src/bookie_emulator/core/performance.py:183-248 | For every key the groups' bets, wins, losses, pushes and profit sum to the overall figures |
| Breakdown.StakesAddUp | src/bookie_emulator/core/performance.py:187-242 | The groups' stakes sum to the overall amount wagered |
| Breakdown.RoiIsStakeWeighted | src/bookie_emulator/core/performance.py:107-108 | With positive stakes, the overall ROI is the one number that is the stake-weighted mean of the group ROIs |
| Breakdown.WinRateLiesBetweenGroups | src/bookie_emulator/core/performance.py:101-104 | The overall win rate lies between the lowest and highest win rate of the groups with decided bets |
| Ledger.ListLedger | src/bookie_emulator/db/repository.py:391-409 | A page holds the newest matching rows past the cursor, at most the limit, and has_more says exactly whether one is left |
| Ledger.FollowPages | src/bookie_emulator/api/routes/bets.py:96-102 | Following next_cursor terminates; pages together descend strictly, list only matching rows and every key that always matches; over a fixed table they are the filtered ledger in order |
| Ledger.PresentAtStartIsListedOnce | src/bookie_emulator/db/repository.py:391-409 | With a filter on immutable columns, a row present at the start is listed exactly once while bets are placed and graded between pages, equal placement times included |
| Ledger.EachFilterNarrows | src/bookie_emulator/db/repository.py:219-243 | Every filter that is set keeps exactly the rows meeting it out of those the others keep; no filter keeps all |
| Ledger.OpenAndGradedSplitTheLedger | src/bookie_emulator/db/repository.py:227-230 | The open and the graded rows are together the ledger, each row in one of the two |
| Ledger.DescendingIsNewestFirst | src/bookie_emulator/db/repository.py:398-398 | Later placements come first, and of two at one instant the higher id |
| Schema.DowngradeSchema | scripts/export_openapi.py:28-64 | The key-by-key rewriting of nested dictionaries and lists terminates and computes the recursive rewriting |
| Schema.PrepareNode | scripts/export_openapi.py:35-57 | The pops, updates and insertions at one node, in their order, give the prepared node |
| SchemaPreserved.PreparedMeans | scripts/export_openapi.py:35-57 | The changes at one emitted node keep what it accepts once 3.0's rules read it |
| SchemaPreserved.Preserved | scripts/export_openapi.py:28-64 | For every emitted schema and every JSON value the rewritten schema accepts it in 3.0 exactly when the original does in 3.1 |
| SchemaPreserved.DefinitionsKept | scripts/export_openapi.py:28-64 | A meaning of the references satisfies a set of recursive 3.1 definitions exactly when it satisfies their rewritten forms in 3.0 |
| SchemaPreserved.OutputIs30 | scripts/export_openapi.py:28-64 | The rewritten schema holds no const, numeric exclusive bound, null type or reference with siblings, at any depth |
| SchemaRepeats.IdempotentExactly | scripts/export_openapi.py:28-64 | For every emitted schema whose annotations are inert data, rewriting its rewritten form changes nothing if and only if no exclusive bound occurs in it at any depth |
| SchemaRepeats.AnnotationsSurvive | scripts/export_openapi.py:28-64 | Title, description, default and examples survive at every rewritten node with their values, a merged member's own taking precedence, and none is invented |
| SchemaLimits.NotIdempotent | scripts/export_openapi.py:35-41 | The smallest input: one exclusive bound, whose written boolean a second pass takes for a number |
| SchemaLimits.DoubleLowerBound | scripts/export_openapi.py:36-38 | With both lower bounds at one node the meaning survives if and only if the inclusive bound is at most the exclusive one |
| SchemaLimits.DoubleUpperBound | scripts/export_openapi.py:39-41 | With both upper bounds the meaning survives if and only if the inclusive bound is at least the exclusive one |
| SchemaLimits.ConstBesideEnum | scripts/export_openapi.py:55-57 | The enum beside a const is overwritten; the meaning survives if and only if it lists the constant |
| SchemaLimits.NullableAlready | scripts/export_openapi.py:53-53 | A schema that already says nullable keeps its meaning if and only if it accepts null without it |
| SchemaLimits.BesideNullable | scripts/export_openapi.py:43-53 | Any keywords beside an anyOf of null and several members: the meaning survives if and only if they accept null |
| SchemaLimits.BesideMerged | scripts/export_openapi.py:48-50 | The same beside an anyOf of null and one member, when it shares no keyword with them |
| SchemaLimits.SharedMinimum | scripts/export_openapi.py:48-50 | A keyword on both is overwritten by the member's: of two lower bounds, the meaning survives if and only if the outer is at most the inner |
| SchemaLimits.NullOnly | scripts/export_openapi.py:44-53 | A nullable anyOf with nothing else in it accepts only null before and everything after |
| SchemaLimits.NestedNullable | scripts/export_openapi.py:44-50 | A nullable anyOf directly inside another keeps its meaning for every member, but leaves a null type in the output |
| SchemaLimits.MergedBound | scripts/export_openapi.py:48-50 | An exclusive bound in the merged member of a nullable anyOf is missed, on either side: the meaning survives if and only if the rest of the member accepts only numbers beyond it |
| SchemaLimits.MergedBoundIsMissed | scripts/export_openapi.py:48-50 | The smallest input: the optional number above a bound comes out accepting the bound |
| SchemaLimits.PropertyNamedConst | scripts/export_openapi.py:55-57 | A property called const is taken for the keyword: what it demanded is lost and a property called enum is refused, whatever the demand |
| SchemaLimits.PropertyNamedRef | scripts/export_openapi.py:61-64 | A property called $ref among others is taken for a reference: what it demanded is lost and a property called allOf is refused, whatever the demand |
| SchemaLimits.ReferenceBesideAllOf | scripts/export_openapi.py:61-64 | For every list of members the reference beside their allOf is lost; the meaning survives if and only if the reference accepts whatever all of them accept |

## Left out

- HTTP clients and routes, envelopes, Redis publishing, telemetry, health and migrations: plumbing with no hard property.
- Postgres isolation inside a transaction: each transaction is one atomic step.
- The gap between the two reads of the bankroll check: they are one step; split, a loss graded in between would add its stake to the bound.
- Floating point: probabilities, odds, lines and stakes are exact reals, rounded where the code or a four-decimal column rounds.
- Overflow of NUMERIC columns, and the rounding of line values to two decimals.
- Closing lines, CLV matching and choosing among sportsbook lines: filters and an argmin over upstream data; the price and line they yield are parameters.
- Team name reconciliation and its cache: a placement without market data is a missing price.
- Repository.PaperBetRepository.ApplyGrade: does not model the description, score, closing-line and CLV columns of a grade row, nor the average CLV of a snapshot; they are copied from upstream and decide nothing.
- GraderService.GraderService.GradeOne: does not model closing lines and CLV, for the same reason.
- Bankroll.LedgerAlwaysAgrees: does not model the average CLV of a snapshot.
- Bankroll.SnapshotsAreFresh: does not model the average CLV of a snapshot.
- American odds, labels and sportsbook columns of placed rows.
- Player name folding: player slugs are opaque keys.
- Team and game props: skipped by the code, and in the model never graded.
- Row ids are table positions and ledger ids are numbers in UUID order.
- Immutable columns that a grader caches with a bet or leg are read from the row again; `Safety.RunSafe` proves they never change.
- Cursor encoding and the rejection of malformed cursors: a cursor is a (placed_at, id) pair.
- Formatting of group keys, and which of the five keys is asked for: the key is any function from bets to strings.
- The poller's endless loop is a list of cycles; its clock, its sleep and upstream answers are parameters, and cancellation is a kill.
- Schema.DowngradeSchema: computes a new tree; that the code also changes the caller's dictionaries in place is not modelled.
- SchemaPreserved.Preserved: states schemas in schema positions; the walk over the rest of an OpenAPI document, where no keyword applies, is not stated.
- JSON Schema keywords outside the rewritten and applicator ones are an arbitrary assertion common to both dialects.
- SchemaRepeats.IdempotentExactly: speaks of annotation values that mention none of const, $ref, anyOf and the exclusive bounds as keys; an example or default that does is rewritten as if it were a schema.
- Schemas outside the emitted fragment for another reason than those of `SchemaLimits`: boolean subschemas, lists of types, bounds that are not numbers, keywords shared with a merged member other than the lower bound.
- Confluence.FinishedRunIsOnePass: assumes that no step raises, as one ungradeable score bet stops its game (`Starvation.OneBadBetStarvesTheGame`).
- Overdraft.OverdraftBound: excludes forced re-grades, since turning a win into a loss takes money back at any time.
