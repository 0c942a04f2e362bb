# Verification model of the football prediction backend

A Dafny model of the parts of the backend of the Football Analytics & ML Prediction Platform whose correctness rests on an argument rather than
on a single function: who may hold which refresh token while any number of requests interleave,
what a prediction may have seen, when the model registry may change its champion, how many times a
code or a budget can be spent, and a handful of algorithms (score matrices, Shin's method, the
periodic-string check, temporal windows).

Each part is modelled in the form its source has. Dictionaries and rows that the source updates are
variables or class fields that methods reassign, with their loops; what those methods compute is tied
to functions, and the theorems are lemmas about the functions and about runs. Interleaved database
code is a state machine with one function per statement.

Files, by part:

* **Refresh tokens** - `TokenFamilies` (rows, decisions, the chain of a family), `RefreshProtocol` (the
  state machine: statements under READ COMMITTED, advisory and row locks, Redis calls that may take effect
  without an answer, late, or never), `RefreshInvariant`, `RefreshSteps`, `RefreshWrites` (the invariant and
  its preservation), `RefreshTheorems`, `RefreshOutcomes`, `RefreshHistory`, `RefreshDeadlock`, `ReplayBudget`,
  `ReplayAccounting`, `RefreshJudgement`, `RefreshCauses` (the results), `BlindRevocation` (a counterexample run),
  `TokenStore` (the same operations as uninterrupted code, and the Lua scripts).
* **Ratings and features** - `Chronology` (sort, batches, and what a pass over batches is), `Elo`,
  `EloRatings`, `GlickoRatings`, `GoalRatings` (the three passes), `RatingHistory` and `GoalRates` (what they make of the
  matches), `Features` and `FeatureHistory` (the feature walk), `DixonColes`, `Shin`, `Sums`, `Reals`.
* **Training** - `TemporalWindows`, `ConsensusTraining`, `ConsensusFailures`, `ConsensusOutcome`, `OutOfSample`,
  `EndToEnd` (the composition of everything above).
* **Registry** - `ModelRegistry` (rows, the champion rule, rollback), `ChampionSelection` (the rule in columns),
  `RegistryHistory` (what runs of the operations
  keep, and undo), `RegistryAdmin` (the operations, with the session's rows and the database's rows apart and every
  flushed row checked).
* **Promo codes** - `PromoProtocol` (state machine), `PromoInvariant`, `PromoHistory`, `PromoBatches`.
* **Limits** - `Counters` (the Lua scripts), `Limits`.
* **Configuration** - `SecretStrings`, `BookmakerRanges`.

Numbers are exact: floats are reals, `decimal` columns are integers or reals. `exp`, `log`, `10^x`, `sqrt`,
rounding, the softmax, the Glicko-2 update and the learners are parameters, used only through the facts a
statement names (`exp > 0`, `exp(x + y) = exp(x) exp(y)`, `exp(log x) = x`, `10^x` increasing, `sqrt(x)^2 = x`). Hashes
are injective.

## What was found

* **A replay can hand out a dead token.** `revoke_all_user_tokens` locks the families it read as live, but its
  UPDATE goes by user. A family opened by a login in between is revoked without its lock, so a replay that holds
  that lock may commit after it and return a token already revoked. `RefreshHistory.ReplayIsLiveExactly` gives the
  schedules in which it does, `RefreshHistory.ReplaysAreLiveWithoutLogins` says that without such a login it never
  does, `BlindRevocation.ReplayCanReturnARevokedToken` is a run in which it does.
* **Two mass revocations of one user can deadlock** for the same reason, on the rows neither has listed
  (`RefreshDeadlock.MassRevocationsCanDeadlock`); every circle of waiting transactions contains two of them
  (`RefreshDeadlock.DeadlockNeedsTwoMassRevocations`).
* **A refused replay may be counted**: the doc string of `claim` says a refusal counts nothing. It counts a use exactly
  if the script took one and its answer was lost or came too late, or the limiter did not answer, or giving it back
  has not reached Redis (`ReplayAccounting.RefusalCountsExactly`; `ReplayAccounting.LostAnswerCounts` and
  `ReplayAccounting.SilentLimiterCounts` are runs).
* **Rolling back a re-evaluation does not restore accuracy.** `apply_champion_selection` writes the new metrics into
  the session's rows before it takes the snapshot, so the snapshot holds the new accuracy:
  `ModelRegistry.ReevaluationKeepsItsAccuracy` says exactly when a row gets its old one back,
  `ModelRegistry.RollbackKeepsANewAccuracy` is a run where it does not.
* **An empty rollback preview can hide a change**: accuracies are restored but not compared, and a champion outside
  the snapshot is demoted (`ModelRegistry.EmptyPreviewIsNoOpExactly`, `ModelRegistry.EmptyPreviewCanChangeAccuracy`,
  `RegistryHistory.EmptyPreviewAfterPromotions`).
* **Auto weights reach every version of a method**, invisible ones included, if any version is visible and has an
  accuracy (`RegistryHistory.SharesGoToAllVersions`, `RegistryHistory.InvisibleRowGetsAShare`); the doc string says
  everyone else gets 0.
* **Consensus training raises instead of skipping**, in two ways and no third, on tables of 200 rows or more that the
  base methods cover (`ConsensusFailures.FailsExactlyWhen`): when all rows share one kickoff instant
  (`ConsensusFailures.OneKickoffFails`), and when there are fewer than seven instants and the floors are met: the first
  window then has fewer than four, its warm-up block is empty, and LightGBM, which refuses a data set without rows, is
  fitted on it (`ConsensusFailures.EmptyFitExactlyWhen`; `ConsensusFailures.ThreeKickoffsFail` is 3 x 70 fixtures).
* **Leaky defences lower the goals expected against them.** `_run_dixon_coles` fits a defence that grows with the goals a
  team has conceded, and `expected_goals` subtracts it from the opponent's rate: the rates are goals scored over goals
  the opponent conceded (`GoalRates.RatesFromGoals`), so the more a team has conceded, the fewer goals its opponent is
  expected to score (`GoalRates.ConcedingMoreLowersTheRate`).
* **Shin's proportion is not the one that was tested**: after the bisection stops, the midpoint of the interval already
  halved is used, a quarter of the interval before away from the proportion that summed to 1 (`Shin.LastTested`,
  `Shin.EarlyExitUsesAnother`).
* **A daily budget may reset just before midnight**: whole seconds are cut off the time to live, so a first view not on
  a whole second lets the key expire in the last second of its day (`Limits.DayKeysExpireAroundMidnight`,
  `Limits.EarlyReset`).

## Model

| member | source | states |
|---|---|---|
| TokenFamilies.ChainConsequences | backend/app/models/refresh_token.py:1-9 | in a chained table: no two tokens share a replacement, a replacement stays in the family, and an unrevoked token is the only one of its family |
| TokenFamilies.RotationKeepsTable | backend/app/services/auth.py:534-541 | a rotation's two writes keep one chain per family, one owner per family and unique hashes, and change no other row |
| TokenFamilies.RevocationKeepsTable | backend/app/services/auth.py:373-379 | revoking any rows keeps every chain and un-revokes nothing |
| TokenFamilies.LoginKeepsTable | backend/app/services/auth.py:346-355 | a login's row opens a chain of its own |
| RefreshInvariant.Frame | backend/app/services/auth.py:358-366 | what a transaction relies on under its locks survives every step of every other transaction |
| RefreshTheorems.StepKeepsInv | backend/app/services/auth.py:475-558 | every statement of every interleaving keeps the invariant; no committed change un-revokes a token or re-points one |
| RefreshTheorems.RunKeepsInv | backend/app/services/auth.py:561-599 | so does every run |
| RefreshTheorems.EveryFamilyIsAChain | backend/app/services/auth.py:475-558 | in every reachable state each family is one replaced_by chain: all tokens exactly once, every one but the last revoked and pointing at the next |
| RefreshTheorems.RotatedAtMostOnce | backend/app/services/auth.py:534-537 | two finished transactions that rotated the presented token of one hash are the same transaction |
| RefreshTheorems.AwaitedKeysAscend | backend/app/services/auth.py:630-645 | a transaction that waits for a lock whose holder waits too awaits a smaller key |
| RefreshTheorems.NoWaitCycle | backend/app/services/auth.py:626-652 | no chain of rotations, logouts and mass revocations waiting on family locks ever closes |
| RefreshTheorems.RevocationKills | backend/app/services/auth.py:373-379 | committing a revocation leaves no live token in any family it locked |
| RefreshTheorems.DeadForever | backend/app/services/auth.py:500-529 | a family without a live token never gets one again, over any run |
| RefreshTheorems.RevokedFamilyNeverIssues | backend/app/services/auth.py:500-529 | a presentation begun after its family is dead never rotates, replays or gets the benign conflict, whatever is still in Redis |
| RefreshJudgement.JudgementIsFinal | backend/app/services/auth.py:382-530 | over any run: a spent token judged with an unused, unrevoked replacement created at most the grace period ago ends in the conflict or aborts; with any other it never ends in the conflict, and if it commits every token of the family is revoked |
| RefreshJudgement.LateIsReuse | backend/app/services/auth.py:509-530 | judged later than its replacement was created plus the grace period, a presentation never ends in the conflict, and if it commits the family is dead |
| RefreshJudgement.InTimeIsADuplicate | backend/app/services/auth.py:382-394 | judged in time, with the replacement unrevoked and unused, it never ends in a revocation |
| RefreshCauses.ReplaysAnswerTheRotatingClient | backend/app/services/auth.py:403-472 | behind every finished replay stand, in this order, the commit of a rotation of the same token into the token handed back, for the same user agent and subnet; a reading of that token unrevoked, unused and unexpired; and a check that the window is open and the account active with the stamp of that commit |
| RefreshCauses.LiveAnswersHaveCauses | backend/app/services/auth.py:497-541 | behind every finished rotation stands a live, unexpired row of the presented hash and an active account; behind every refusal a live row that has expired or an account missing or inactive; behind an unknown token that no row had its hash |
| RefreshCauses.UnspentTokensAreDecided | backend/app/services/auth.py:531-541 | a live row is refused exactly if it has expired or the account is missing or inactive, and can otherwise be rotated; it is never loaded for a replay |
| RefreshCauses.SpentTokensAreLoaded | backend/app/services/auth.py:500-508 | a spent one is looked up for a replay exactly if Redis is there and the window is above 0 |
| RefreshCauses.RotationsWriteBothRows | backend/app/services/auth.py:538-541 | the two rows a rotation writes, column by column |
| RefreshCauses.RotationsAreRemembered | backend/app/services/auth.py:561-599 | a committed rotation is remembered exactly if Redis is there, the window is above 0 and user agent and address are known, for these and the stamp at the commit |
| RefreshOutcomes.RotationIssuesTheLiveToken | backend/app/services/auth.py:534-558 | a committed rotation replaces exactly the presented live token by one new row, which is the family's only unrevoked one |
| RefreshOutcomes.ReplayReturnsTheLastToken | backend/app/services/auth.py:403-472 | a committed replay changes no row and returns the last token of the presented token's family, the only one that can be unrevoked |
| RefreshHistory.ReplayIsLiveExactly | backend/app/services/auth.py:403-472 | the token a committed replay returns is live exactly if no mass revocation has committed that listed the user's families before that token's family existed and began its UPDATE when the token did |
| RefreshHistory.ReachableReplayIsLiveExactly | backend/app/services/auth.py:403-472 | so it is in every reachable state, by the run that leads to it |
| RefreshHistory.OverlookedIsNew | backend/app/services/auth.py:630-645 | a family that appears between a listing and an UPDATE is opened by a login of that user that commits in between |
| RefreshHistory.ReplaysAreLiveWithoutLogins | backend/app/services/auth.py:626-652 | if no login of the user commits between the listing and the UPDATE of any mass revocation, every committed replay returns a live token |
| RefreshDeadlock.DeadlockNeedsTwoMassRevocations | backend/app/services/auth.py:626-652 | every circle of transactions waiting for each other, on family locks or rows, contains two mass revocations of one user in their UPDATE |
| RefreshDeadlock.MassRevocationsCanDeadlock | backend/app/services/auth.py:636-652 | a run in which two mass revocations and two logins close such a circle |
| RefreshOutcomes.MassRevocationLeavesNothingLive | backend/app/services/auth.py:626-652 | whatever ran in between, once a mass revocation commits every family live when it listed them has no live token left |
| BlindRevocation.ReplayCanReturnARevokedToken | backend/app/services/auth.py:403-472 | a run in which a replay returns a token already revoked when it commits |
| ReplayBudget.ReplaysAreCapped | backend/app/services/refresh_replay.py:179-204 | no token is ever replayed more often than the maximum, though calls may take effect unanswered, late or never |
| ReplayAccounting.UsesAreCounted | backend/app/services/refresh_replay.py:49-81 | after any run the stored count of an entry is the number of presentations that took a use and did not give it back, calls lost, late and dropped included |
| ReplayAccounting.RefusalCountsExactly | backend/app/services/refresh_replay.py:179-204 | a refused presentation stays counted exactly if the script took a use and the answer was lost or late, the limiter did not answer, or the release has not arrived |
| ReplayAccounting.ReplaysAreCounted | backend/app/services/refresh_replay.py:60-70 | every successful replay is among the counted presentations |
| ReplayAccounting.LostAnswerCounts | backend/app/services/refresh_replay.py:179-204 | a run in which a refusal counts because the answer of the claim is lost |
| ReplayAccounting.SilentLimiterCounts | backend/app/services/refresh_replay.py:179-204 | a run in which a refusal counts because the limiter does not answer |
| TokenStore.Tokens.constructor | backend/app/models/refresh_token.py:22-38 | an empty table is well formed |
| TokenStore.Tokens.Issue | backend/app/services/auth.py:346-355 | one live row in a new family, everything else untouched |
| TokenStore.Tokens.Revoke | backend/app/services/auth.py:373-379 | exactly the rows in scope are revoked, in whatever order |
| TokenStore.Tokens.RevokeFamily | backend/app/services/auth.py:373-379 | exactly the family's live rows are revoked and the family is dead |
| TokenStore.Tokens.Logout | backend/app/services/auth.py:602-623 | the presented token's family is dead, an unknown token changes nothing |
| TokenStore.Tokens.Present | backend/app/services/auth.py:475-558 | each presentation has exactly one outcome, with what it does to the rows, and keeps every chain; a spent token that is not replayed is a conflict exactly if its replacement is there, unrevoked, points nowhere and was created at most `grace` ago on the database clock, and otherwise every token of its family ends up revoked |
| TokenStore.Tokens.Decide | backend/app/services/auth.py:500-558 | the same decision once the row is found, refusals included |
| TokenStore.PresentedInColumns | backend/app/services/auth.py:382-558 | every outcome of a presentation, replays and rotations included, as an if-and-only-if on the columns, clocks, account, entry and client it is decided on |
| TokenStore.Tokens.Rotate | backend/app/services/auth.py:534-537 | the presented row points at the one new row, nothing else changes |
| TokenStore.Tokens.RevokeAll | backend/app/services/auth.py:626-652 | locks the user's live families in ascending key order, revokes exactly the user's live rows, counts them, and leaves those families dead |
| TokenStore.Tokens.LockInOrder | backend/app/services/auth.py:643-644 | the keys taken are those of the families, ascending |
| TokenStore.ReplayedIsTheLiveToken | backend/app/services/auth.py:403-472 | uninterrupted, a replay returns the family's one live token |
| TokenStore.ReplayEntries.Remember | backend/app/services/refresh_replay.py:49-54 | a fresh entry with no use counted replaces any older one |
| TokenStore.ReplayEntries.Claim | backend/app/services/refresh_replay.py:60-70 | one use more and its count while fewer than the cap are counted, -1 without an entry, -2 and nothing counted at the cap |
| TokenStore.ReplayEntries.Release | backend/app/services/refresh_replay.py:73-81 | one use less, never below zero, never recreating the entry |
| TokenStore.ReplayEntries.ClaimWithin | backend/app/services/refresh_replay.py:179-204 | a refusal, by the cap or by the address budget, leaves the count as it was |
| Chronology.ChronologicalSorts | backend/app/ml/chronology.py:32-34 | the chronological list is sorted by (kickoff, id) and is a permutation of the input |
| Chronology.SortedUnique | backend/app/ml/chronology.py:9-10 | fixtures with distinct ids have one chronological order |
| Chronology.OrderOfArrival | backend/app/ml/chronology.py:9-10 | so the order never depends on how the list arrived |
| Chronology.FlatGroup | backend/app/ml/chronology.py:37-40 | the batches, one after the other, are the chronological list |
| Chronology.GroupEarlier | backend/app/ml/chronology.py:37-40 | a batch has one kickoff, and the batches before it are the batches of exactly the fixtures that kick off before it |
| Chronology.StateAtBatch | backend/app/ml/chronology.py:11-14 | the state a pass holds at a batch is that of the strictly earlier fixtures alone |
| Chronology.OnlyThePastMatters | backend/app/ml/chronology.py:6-14 | two lists with the same strictly earlier fixtures, in any order, give the same state |
| Chronology.PrequentialDone | backend/app/ml/training.py:167-185 | a pass that records batch by batch maps exactly the listed fixtures, each to the prediction from its strict past |
| Elo.ExpectedHome | backend/app/ml/elo.py:43-45 | the expectation lies strictly between 0 and 1 |
| Elo.Update | backend/app/ml/elo.py:47-59 | the two new ratings sum to the two old ones |
| Elo.WinnerGains | backend/app/ml/elo.py:47-59 | rating moves from the loser to the winner |
| Elo.MarginOfVictory | backend/app/ml/elo.py:18-59 | a one-goal win moves k times what the expectation left open, two goals half as much again, three three quarters more and each further goal an eighth; a defeat moves the mirror image |
| Elo.DrawFavoursTheUnderdog | backend/app/ml/elo.py:43-59 | a draw moves rating to the home side exactly if it was not the favourite, home advantage included |
| Elo.Prob1x2IsDistribution | backend/app/ml/elo.py:61-72 | 1X2 is a distribution |
| Elo.SplitByTheLead | backend/app/ml/elo.py:61-72 | home against away win is the power of the lead, the draw is draw_scale times twice the smaller expectation, and the three sum to 1: this fixes all three |
| Elo.FavouriteIsLikelier | backend/app/ml/elo.py:61-72 | the home win is likelier than the away win exactly if home rating plus advantage exceed the away rating, and as likely exactly if they equal it |
| Elo.DrawPeaksWhenLevel | backend/app/ml/elo.py:61-72 | the draw is at most draw_scale, and that exactly between sides level with home advantage included |
| Elo.SidesExchange | backend/app/ml/elo.py:61-72 | the same lead the other way round exchanges the home and away probabilities and leaves the draw |
| EloRatings.RunElo | backend/app/ml/training.py:167-185 | predictions for exactly the listed fixtures, each from the ratings of strictly earlier results, the home win likelier than the away win exactly if the home side leads with 65 points added |
| EloRatings.FavouriteInThePass | backend/app/ml/training.py:167-185 | each prediction splits home against away by the lead over 400, and gives the draw at most 0.28, exactly between level sides |
| RatingHistory.StandardGain | backend/app/ml/elo.py:28-59 | with the standard configuration a one-goal win moves 20 points times what the expectation left open, a two-goal win half as much again, a draw what it is off one half |
| RatingHistory.RatingAfterBatch | backend/app/ml/training.py:174-184 | after a batch a rating is the one before it plus what the team's home matches moved to it, minus what its away matches moved to their home sides |
| RatingHistory.WinnersRise | backend/app/ml/elo.py:47-59 | after a match the winner stands higher than before and the loser lower, by as much |
| RatingHistory.NewTeamsStartLevel | backend/app/ml/training.py:167-209 | a team without an earlier match is predicted from 1500, with deviation 350 and volatility 0.06 |
| EloRatings.RunBatch | backend/app/ml/training.py:174-182 | a batch is predicted, and its changes summed, from the ratings before it |
| EloRatings.Apply | backend/app/ml/training.py:183-184 | applying the changes team by team, in any order, adds each team's change once |
| EloRatings.NoLeakage | backend/app/ml/training.py:167-185 | no score at or after kickoff, and no input order, reaches a prediction |
| EloRatings.RatingsAreConserved | backend/app/ml/elo.py:1-7 | after any history the ratings sum to 1500 for each rated team |
| EloRatings.RatingsBeforeKickoffAreConserved | backend/app/ml/training.py:174-184 | so do the ratings any prediction is made from |
| EloRatings.BatchOrderIsIrrelevant | backend/app/ml/training.py:174-184 | a batch in any order, a team playing twice included, changes every rating alike |
| EloRatings.LaterRatingsIgnoreBatchOrder | backend/app/ml/training.py:174-184 | and so all later ratings |
| GlickoRatings.RunGlicko | backend/app/ml/training.py:188-209 | predictions for exactly the listed fixtures, each from the players after strictly earlier rating periods, the home win likelier than the away win exactly if the home side leads with 30 points added |
| GlickoRatings.FavouriteInThePass | backend/app/ml/training.py:188-209 | each prediction splits home against away by the lead over 400, and gives the draw at most 0.28, exactly between level sides |
| RatingHistory.PeriodResults | backend/app/ml/training.py:197-206 | the update of a team gets one result for each of its matches of the batch, in order: the opponent as before the batch, and 1, 0.5 or 0 by the score |
| RatingHistory.PeriodUpdates | backend/app/ml/training.py:207-208 | after a batch a team that played is the update of its former self by exactly these results, and any other team is as before |
| GlickoRatings.RunBatch | backend/app/ml/training.py:197-206 | every result of a batch is against the opponent before the batch |
| GlickoRatings.Update | backend/app/ml/training.py:207-208 | every team of the batch is updated once, with all its results |
| GlickoRatings.NoLeakage | backend/app/ml/training.py:188-209 | no score at or after kickoff, and no input order, reaches a prediction |
| GlickoRatings.BatchOrderIsIrrelevant | backend/app/ml/features.py:165-167 | batch order does not matter if the update does not look at the order of results |
| GoalRatings.RunDixonColes | backend/app/ml/training.py:218-256 | predictions for exactly the listed fixtures, each from the goals of strictly earlier matches |
| GoalRatings.PredictBatch | backend/app/ml/training.py:233-244 | the batch is predicted from strengths fitted on the statistics before it |
| GoalRatings.FitBatch | backend/app/ml/training.py:234-241 | each team has its strength from the statistics, teams without matches strength 0 |
| GoalRatings.CountBatch | backend/app/ml/training.py:245-255 | the goals of the batch are added to both sides and the league |
| GoalRatings.NoLeakage | backend/app/ml/training.py:218-256 | no score at or after kickoff, and no input order, reaches a prediction |
| GoalRates.RatesByStrength | backend/app/ml/dixon_coles.py:135-145 | home advantage multiplies the home rate alone; a side's attack multiplies its own rate and its defence divides the other's |
| GoalRates.RatesFromGoals | backend/app/ml/training.py:233-241 | the expected goals of either side are its own goals per match against those its opponent has conceded, 0.3 added to each, times exp(0.25) at home; the league average only stands in for a team without matches |
| GoalRates.AverageIs | backend/app/ml/training.py:233 | the league average is goals per team-match, 1.35 before the first match and never below 0.2 |
| GoalRates.ConcedingMoreLowersTheRate | backend/app/ml/training.py:239-241 | of two histories that differ only in goals the away side conceded, the one with more gives the home side the lower expected goals |
| GoalRates.PassUsesTheseRates | backend/app/ml/training.py:242-244 | the predictions of the pass are the 1X2 of these two rates, with rho -0.05 and ten goals a side |
| FeatureHistory.StrengthsComeFromEarlierTotals | backend/app/ml/training.py:221-228 | the running statistics are the totals of goals and matches over the strictly earlier fixtures |
| Features.Walk.FeatureRow | backend/app/ml/features.py:115-137 | a row is read from the state as it is; reading only creates missing teams |
| Features.Walk.Note | backend/app/ml/features.py:174-206 | one fixture's points, xG and dates, ratings untouched until the batch ends |
| Features.Walk.AdvanceBatch | backend/app/ml/features.py:157-213 | rating changes come from the ratings before the batch and are applied after it |
| Features.BuildFeatureTable | backend/app/ml/features.py:81-112 | one row per fixture, in chronological order, each read from the state of strictly earlier fixtures and labelled 0 for a home win, 1 for a draw, 2 for an away win |
| Features.RowsAreLabelled | backend/app/ml/features.py:73-78 | row by row: id, kickoff and the label by the score |
| Features.RatingColumnsAgree | backend/app/ml/features.py:107-130 | for every history and Glicko-2 update the rating columns are the pre-match ratings of the separate passes, and the difference column their difference |
| Features.TableAgreesWithPasses | backend/app/ml/training.py:83-84 | so the Elo and Glicko-2 probabilities of a fixture follow from its row |
| Features.NoLeakage | backend/app/ml/features.py:3-9 | a row's features depend on no simultaneous or later score or shot, nor on the order of the input |
| FeatureHistory.RowsRememberTheRecentPast | backend/app/ml/features.py:131-143 | for both sides of every row: form is the mean of the last five results at 3, 1 and 0 points, rolling xG that of the last five known values at 0.2 a shot on target and 0.09 another one, or else the prior, and rest the whole days since the last kickoff; 0 and 7 without any match |
| FeatureHistory.PriorIsTheLeagueMean | backend/app/ml/features.py:11-13 | the prior is the mean known xG per team-match of the league's strictly earlier matches, 1.35 without any |
| FeatureHistory.LastFiveGrows | backend/app/ml/features.py:100-102 | a deque of five holds the last five of everything appended |
| DixonColes.CorrectionMovesNoMass | backend/app/ml/dixon_coles.py:24-48 | for all rates and every rho the low-score correction leaves every row sum, column sum and the total as they were |
| GoalRates.CorrectionMoves | backend/app/ml/dixon_coles.py:24-45 | the correction moves rho times the chance of 1-1 from each of 0-0 and 1-1 to each of 1-0 and 0-1, and changes no other cell |
| GoalRates.PmfSteps | backend/app/ml/dixon_coles.py:20-21 | each goal count is lam / (k + 1) times as likely as the one before, and 0 has exp(-lam) |
| GoalRates.SidesExchange | backend/app/ml/dixon_coles.py:36-55 | exchanging the rates transposes the matrix and exchanges the home and away probabilities |
| DixonColes.RatesHaveMass | backend/app/ml/dixon_coles.py:46-48 | non-negative rates leave something to normalise by |
| DixonColes.ScoresSumToOne | backend/app/ml/dixon_coles.py:36-48 | the normalised matrix sums to 1 |
| DixonColes.OneXTwoSumsToOne | backend/app/ml/dixon_coles.py:51-55 | 1X2 sums to 1, from any current score |
| DixonColes.OverUnderSumToOne | backend/app/ml/dixon_coles.py:58-68 | over and under sum to 1 for every line |
| GoalRates.WholeLinesFallUnder | backend/app/ml/dixon_coles.py:58-68 | a total that hits a whole line counts as under |
| DixonColes.ScoreMatrix | backend/app/ml/dixon_coles.py:36-48 | the array holds the corrected product divided by its mass |
| DixonColes.CorrectedMatrix | backend/app/ml/dixon_coles.py:42-45 | the in-place loop corrects the four low-score cells and no other |
| DixonColes.OneXTwo | backend/app/ml/dixon_coles.py:51-55 | the sums below, on and above the diagonal |
| DixonColes.TotalOverUnder | backend/app/ml/dixon_coles.py:58-68 | each cell counts on the side of the line its total falls on |
| DixonColes.InPlayOneXTwo | backend/app/ml/dixon_coles.py:90-118 | the remaining goals' distribution added to the current score |
| DixonColes.InPlayHasMass | backend/app/ml/dixon_coles.py:79-87 | non-negative pre-match rates leave something to normalise by at every minute |
| GoalRates.LeftIsProportional | backend/app/ml/dixon_coles.py:79-87 | a rate is scaled by the minutes left over the minutes of the match, to nothing from the last minute on |
| DixonColes.KickOffIsPreMatch | backend/app/ml/dixon_coles.py:71-118 | at 0-0 and minute 0 the in-play 1X2 is the pre-match 1X2 |
| DixonColes.FinalWhistleDecides | backend/app/ml/dixon_coles.py:79-85 | from the final minute on the current outcome has probability 1 |
| DixonColes.Predict1x2 | backend/app/ml/dixon_coles.py:135-150 | expected goals of the two sides, then their matrix's 1X2 |
| Shin.ShinDevig | backend/app/ml/market.py:16-41 | fails exactly for fewer than two odds or any at most 1; otherwise positive probabilities that sum to 1, strictly larger exactly for strictly shorter odds |
| Shin.Bisect | backend/app/ml/market.py:28-37 | 0 <= lo <= hi <= 0.999 throughout, each moved end seen on its side of 1, until 200 halvings or an end within the tolerance |
| Shin.SolutionIsBracketed | backend/app/ml/market.py:28-37 | the one proportion at which the probabilities sum to 1, if there is one, never leaves the interval, so the midpoint is within half its width of it |
| Shin.LastTested | backend/app/ml/market.py:28-39 | the last proportion tested is an end of the interval and sums to 1 within the tolerance unless all halvings are used up; the one used is a quarter of the interval before away from it |
| Shin.EarlyExitUsesAnother | backend/app/ml/market.py:28-39 | odds whose tested proportion sums to 1 exactly and whose used one sums to more than 1.1 |
| Shin.DevigOrders | backend/app/ml/market.py:11-13 | at any proportion below 1 the probabilities keep the order of the odds |
| TemporalWindows.WindowsPartition | backend/app/ml/splits.py:34-37 | the windows list each row exactly once, in order |
| TemporalWindows.WindowByRank | backend/app/ml/splits.py:23-27 | a row is past a cut exactly when that fraction of the distinct instants is at or before its own |
| TemporalWindows.WindowsAreOrdered | backend/app/ml/splits.py:3-7 | no instant is split, and later windows kick off strictly later |
| TemporalWindows.AssertOrderedDisjoint | backend/app/ml/splits.py:40-55 | complains exactly when some window does not lie strictly after all earlier ones |
| ConsensusTraining.PlansAreOutOfSample | backend/app/ml/ml_training.py:180-188 | of the plan: every row fitted on kicks off strictly before every row the fit is applied to; blocks make up the first window, windows the table |
| OutOfSample.CalibrationIsOutOfSample | backend/app/ml/ml_training.py:208-223 | of the training: whatever calibration makes of one stacked row, labels (and features and base predictions of other rows) at or after that row's kickoff do not change it |
| OutOfSample.StackingIsOutOfSample | backend/app/ml/ml_training.py:199-222 | of the training: whatever stacking makes of one stacked row of any block, labels (and features and base predictions of other rows) at or after that row's kickoff do not change it |
| OutOfSample.CalibrationRow | backend/app/ml/ml_training.py:208-211 | a calibration row carries its fixture's three base predictions and those of a model of exactly the first window |
| OutOfSample.MetaRow | backend/app/ml/ml_training.py:202-206 | a stacking row carries its fixture's three base predictions and those of a model of exactly the blocks before its own |
| OutOfSample.TestRow | backend/app/ml/ml_training.py:212-214 | a test row carries its fixture's three base predictions and those of a model of exactly the first two windows |
| ConsensusOutcome.WindowsByTenths | backend/app/ml/ml_training.py:180 | a row is in the first, second or third window by whether the rank of its instant is below six tenths, below eight tenths, or beyond, of the number of instants |
| ConsensusOutcome.BlocksByQuarters | backend/app/ml/ml_training.py:183-187 | and in a block of the first window by quarters of that window's instants |
| ConsensusTraining.CutsExactlyWhen | backend/app/ml/splits.py:32-33 | an ordered table can be cut exactly when it has two different kickoffs |
| ConsensusFailures.EmptyFitExactlyWhen | backend/app/ml/ml_training.py:180-205 | a base model is fitted on no rows exactly if the first window has fewer than four kickoffs, that is the table fewer than seven; otherwise no block is empty |
| ConsensusFailures.FailsExactlyWhen | backend/app/ml/ml_training.py:170-214 | training raises exactly for covered tables of 200 rows or more with one kickoff, or with two to six and every floor and the class check passed; the guard never complains |
| ConsensusFailures.OneKickoffFails | backend/app/ml/ml_training.py:173-185 | 200 covered rows of one kickoff for which training raises |
| ConsensusFailures.ThreeKickoffsFail | backend/app/ml/ml_training.py:180-205 | 3 x 70 covered rows that meet every floor and for which training raises |
| ConsensusTraining.RollingOrigin | backend/app/ml/ml_training.py:202-205 | block b is predicted by a model of blocks 0 to b - 1; an exception exactly if one of them has no rows to be fitted on |
| ConsensusTraining.TrainConsensus | backend/app/ml/ml_training.py:170-231 | the outcome - skips, and the exceptions of cutting, of the guard and of a fit on no rows included - of the index-set logic for any learners; what that is the rows of ConsensusOutcome and OutOfSample say |
| ConsensusOutcome.SkipsExactly | backend/app/ml/ml_training.py:170-200 | which skip it is, exactly: below 200 rows, a base prediction missing, below 60 stacking, 40 calibration or 40 test rows, or one class, in this order |
| ConsensusOutcome.TrainedOn | backend/app/ml/ml_training.py:216-231 | the prediction of a test row is the model that stacking and calibration make of their stacked rows and those rows' labels, applied to its stacked row |
| ConsensusOutcome.OnlyTestRows | backend/app/ml/ml_training.py:224-231 | exactly the rows of the test window are predicted |
| ConsensusTraining.Guard | backend/app/ml/ml_training.py:180-187 | both calls of the guard pass on every plan |
| ConsensusTraining.NoLeakage | backend/app/ml/ml_training.py:3-6 | a stored prediction depends on its row's own features and base predictions and on strictly earlier rows only |
| EndToEnd.Train | backend/app/ml/training.py:59-135 | the passes and the training, composed, with every outcome of the training |
| EndToEnd.NoResultReachesItsPrediction | backend/app/ml/ml_training.py:3-6 | changing scores and shots at or after a fixture's kickoff, its own included, does not change its consensus prediction |
| ModelRegistry.FlushSafeExactly | backend/app/models/model_registry.py:44-56 | every order of writing rows keeps at most one champion at each write exactly if no two rows are champion before or after |
| ModelRegistry.TwoAtOnce | backend/app/ml/registry.py:119-122 | a title moved within one flush meets the index in some order of the writes |
| ModelRegistry.CrownedMovesTheTitle | backend/app/ml/registry.py:301-305 | promotion after demotion moves the title and nothing else |
| ModelRegistry.TargetsUnique | backend/app/ml/registry.py:169-213 | which row an evaluation belongs to does not depend on the order the rows are read in |
| ModelRegistry.BestOf | backend/app/ml/registry.py:288 | the best eligible method beats every other by Brier, log loss, name |
| ModelRegistry.ChampionRule | backend/app/ml/registry.py:288-299 | re-evaluating any table, an eligible title holder loses exactly if some eligible method is better and lower in Brier by the margin, and then to the best; if no eligible method holds the title the best gets it |
| ModelRegistry.WinnerHoldsTheTitle | backend/app/ml/registry.py:301-305 | the winner is eligible, has the samples and four finite numbers, its evaluated row is enabled and then the only champion; with nobody eligible only metrics change |
| ChampionSelection.TargetExactly | backend/app/ml/registry.py:169-213 | the evaluated row is the version the metrics name, or else the one trained last, never trained counting as first and ties going to the higher version |
| ChampionSelection.EligibleExactly | backend/app/ml/registry.py:276-283 | eligible is exactly who is evaluated with four finite numbers and the minimum of samples on an enabled row |
| ChampionSelection.TheBestWins | backend/app/ml/registry.py:276-305 | in numbers: nobody wins exactly if nobody may; the lowest Brier wins, ties by log loss and name, unless a title holder who may is within the margin; the winner's row is then the one champion; and a snapshot is taken exactly if the title moves |
| ChampionSelection.StoresEachColumn | backend/app/ml/registry.py:265-274 | each evaluated row stores its method's Brier and log loss to 6, ROI to 4 and accuracy to 2 decimals and the samples, none for what is not finite; nothing else changes but status and weight |
| ChampionSelection.WeighsTheAble | backend/app/ml/registry.py:317-325 | in auto mode an evaluated row has its share of the softmax over the accuracies of those eligible, other versions of evaluated methods nothing, all others keep theirs |
| ModelRegistry.ReevaluationIsIdempotent | backend/app/ml/registry.py:242-244 | a second run on the same metrics takes no snapshot, changes no row and returns the same winner |
| RegistryHistory.PerformsKeepsSound | backend/app/ml/registry.py:116-128 | every operation keeps one champion at most in the table and in every snapshot, and loses no row and no snapshot |
| RegistryHistory.TitleMovesLeaveASnapshot | backend/app/ml/registry.py:301-302 | no operation but a rollback changes who holds the title without taking a snapshot |
| RegistryHistory.RollbackUndoes | backend/app/ml/registry.py:131-166 | after an operation that took a snapshot and any further operations, rolling back to it succeeds, gives every row of then its status, switches and weight back and the accuracy the operation left it, leaves the title to the champion of then, and empties the preview |
| RegistryHistory.RollbackSparesTheRest | backend/app/ml/registry.py:153-164 | a rollback changes no other column, and a row the snapshot does not know at most by taking its title |
| ModelRegistry.ReevaluationKeepsItsAccuracy | backend/app/ml/registry.py:263-302 | after a re-evaluation a rollback restores a row's former accuracy exactly if the run had not changed it |
| ModelRegistry.RollbackKeepsANewAccuracy | backend/app/ml/registry.py:263-302 | a re-evaluation whose rollback leaves the accuracy the run stored |
| ModelRegistry.EmptyPreviewIsNoOpExactly | backend/app/services/model_admin.py:203-244 | an empty preview means no change exactly if no accuracy differs and no champion is outside the snapshot |
| ModelRegistry.EmptyPreviewCanDemote | backend/app/services/model_admin.py:203-244 | a rollback with an empty preview that takes the title from a later version |
| ModelRegistry.EmptyPreviewCanChangeAccuracy | backend/app/services/model_admin.py:203-244 | a rollback with an empty preview that changes an accuracy |
| RegistryHistory.EmptyPreviewAfterPromotions | backend/app/services/model_admin.py:203-244 | two trainings and two promotions after which the first snapshot has an empty preview and its rollback takes the title away |
| RegistryAdmin.Registry.Flush | backend/app/ml/registry.py:116-128 | rows written one at a time in any order, with at most one champion after each |
| RegistryAdmin.Registry.TakeSnapshot | backend/app/ml/registry.py:104-113 | the session's rows as they are |
| RegistryAdmin.Registry.DemoteChampions | backend/app/ml/registry.py:116-128 | every champion but the kept one is demoted and flushed |
| RegistryAdmin.Registry.LatestRowPerMethod | backend/app/ml/registry.py:169-182 | the most recently trained row of each method, ties by version |
| RegistryAdmin.Registry.RowsFor | backend/app/ml/registry.py:196-213 | the evaluated version, else the latest |
| RegistryAdmin.Registry.BestMethod | backend/app/ml/registry.py:288 | the minimum over the eligible methods |
| RegistryAdmin.Registry.ApplyChampionSelection | backend/app/ml/registry.py:233-328 | table, winner and snapshot of a re-evaluation, the winner by the champion rule and in numbers: enabled row, four finite numbers, the minimum of samples, and nobody exactly if nobody meets these; at most one champion at every row write |
| RegistryAdmin.Registry.Promote | backend/app/services/model_admin.py:134-170 | the row is the only champion, snapshot first, warning below the minimum; at most one champion at every row write |
| RegistryAdmin.Registry.Demote | backend/app/services/model_admin.py:173-185 | a champion is a challenger after a snapshot, anything else is left alone |
| RegistryAdmin.Registry.Rollback | backend/app/ml/registry.py:131-166 | the restored table for every snapshot there is, never refused for naming many champions, with at most one champion at every row write |
| RegistryAdmin.Registry.RollbackDiff | backend/app/services/model_admin.py:203-244 | exactly the snapshot's rows whose status, weight or switches would change |
| RegistryAdmin.Registry.RecomputeAutoWeights | backend/app/services/model_admin.py:84-95 | every row carries its method's share of the softmax over visible accuracies |
| RegistryHistory.SharesGoToAllVersions | backend/app/services/model_admin.py:84-95 | a row carries its method's share if some version of the method is visible with an accuracy, else 0 |
| RegistryHistory.InvisibleRowGetsAShare | backend/app/services/model_admin.py:84-95 | an invisible version without accuracy that holds all the weight |
| RegistryAdmin.Registry.SetWeightingMode | backend/app/services/model_admin.py:98-107 | switching to auto recomputes the weights at once |
| RegistryAdmin.Registry.SetManualWeights | backend/app/services/model_admin.py:110-122 | refused outside manual mode or unless the weights sum to 100 within the tolerance, and then nothing changes |
| RegistryAdmin.Registry.UpsertRun | backend/app/ml/registry.py:51-82 | a new version enters as challenger, a known one keeps status and metrics |
| PromoInvariant.StepKeepsInv | backend/app/services/promo.py:193-239 | every statement of every interleaving keeps the invariant |
| PromoHistory.CheckDecides | backend/app/services/promo.py:201-212 | a check clears a code exactly if its batch is there, neither is disabled, the batch has no end or one to come, and neither is bound to somebody else; each failing condition has its own error, in the order of the source |
| PromoHistory.RedemptionsAreEntitled | backend/app/services/promo.py:193-239 | behind every committed redemption: a lookup by the presented hash, then a check at some `now` with batch and code enabled, unexpired and bound to nobody else, then a claim of an active code with a slot left, then the commit |
| PromoHistory.RefusalsHaveCauses | backend/app/services/promo.py:193-239 | behind every refusal: the lookup, check, claim or record that found its reason, the earlier checks having passed |
| PromoInvariant.ActivationsAreConserved | backend/app/services/promo.py:215-232 | a code's counter is its number of committed redemptions, at most its maximum, and active means a slot is left |
| PromoInvariant.OncePerUser | backend/app/models/promo.py:117-121 | two successful redemptions of a code by one user are the same redemption |
| PromoInvariant.KillIsFinal | backend/app/services/promo.py:169-183 | after a kill commits its batch and every code of it are disabled, over any run |
| PromoHistory.KillsTakeTheWholeBatch | backend/app/services/promo.py:169-183 | a kill of an unknown batch is refused, of any other it takes on every code of the batch there is |
| PromoInvariant.NothingIsClaimedAfterAKill | backend/app/services/promo.py:169-183 | and no claim of one succeeds, not even of a redemption that had passed every check before |
| PromoHistory.ChecksFailAfterAKill | backend/app/services/promo.py:205-206 | nor does any check of one clear: it refuses the code as disabled |
| PromoInvariant.RedemptionsEndWithAKill | backend/app/services/promo.py:169-183 | over any run after a kill no code joins the batch and the redemptions and counters of its codes stay |
| PromoBatches.GenerateBatch | backend/app/services/promo.py:112-166 | exactly the requested number of codes with distinct hashes, only repeats skipped; sizes refused exactly off the multiples of 500 or above the cap |
| PromoBatches.FullBatchesFit | backend/app/services/promo.py:145-165 | a full batch meets the uniqueness of hashes |
| Counters.Redis.IncrementWithTtl | backend/app/services/counters.py:16-22 | the count, with a deadline set only if there was none |
| Counters.Redis.IncrementWithinLimit | backend/app/services/counters.py:26-39 | one unit more within the limit, else nothing but a missing deadline healed |
| Counters.Redis.IncrementDistinct | backend/app/services/counters.py:46-68 | a member is charged once, refused without trace when the budget is spent |
| Counters.Redis.DecrementFloorZero | backend/app/services/counters.py:71-77 | one unit back, never below zero, never creating a key |
| Limits.DistinctViewsAreCounted | backend/app/services/limits.py:92-120 | after any run of calls a view counter is the number of matches charged in its window, at most the limit, and every key expires |
| Limits.AcceptedStaysAccepted | backend/app/services/limits.py:102-107 | an accepted match is neither refused nor charged again before its window's deadline, whatever is called in between |
| Limits.ViewReturnsWhatRemains | backend/app/services/limits.py:140-149 | what a view returns is what match_views_remaining then reports |
| Limits.AgreesExactlyWithinTheLimit | backend/app/services/limits.py:140-149 | for any limit the two agree exactly if the counter is not above it |
| Limits.DayKeysExpireAroundMidnight | backend/app/services/limits.py:77-81 | a day key expires within a second of midnight, and exactly at it only from a whole second |
| Limits.EarlyReset | backend/app/services/limits.py:3-6 | two matches accepted on one day under a limit of one |
| Limits.HourKeysExpireAroundTheHour | backend/app/services/limits.py:58-61 | an hour key expires within a second of the hour's end, and exactly at it only from a whole second |
| Limits.AttemptsAreCounted | backend/app/services/limits.py:64-74 | every redemption attempt counts against its hour and is let through exactly while the count, itself included, is within the limit |
| Limits.RunsStayWithinTheLimit | backend/app/services/limits.py:123-137 | a backtester run takes one unit of its day within the limit and is refused exactly when it is spent; unlimited runs count nothing |
| Limits.UnlimitedReservationsAreCounted | backend/app/services/limits.py:165-183 | an unlimited tier's reservation is never refused and counts all the same |
| Limits.PushesAreCounted | backend/app/services/limits.py:156-189 | a delivered push counts one and a released one gives one back, never below zero, and neither touches another counter |
| Limits.ReservationsStayWithinTheLimit | backend/app/services/limits.py:165-183 | a reservation takes one unit within the limit and is refused exactly when it is spent |
| Limits.ReservationsNeverExceedTheLimit | backend/app/services/limits.py:165-189 | over any run within a day's window the counter is the number of reservations accepted and not released, and never above the limit |
| Limits.ReleaseUndoesReserve | backend/app/services/limits.py:186-189 | releasing the same day gives the unit back |
| Limits.ConsumeMatchView | backend/app/services/limits.py:92-120 | the call on the server is the modelled one |
| Limits.MatchViewsRemaining | backend/app/services/limits.py:140-149 | consumes nothing |
| Limits.Reserve | backend/app/services/limits.py:165-183 | the call on the server is the modelled one |
| Limits.Release | backend/app/services/limits.py:186-189 | the call on the server is the modelled one |
| SecretStrings.PeriodicExactly | backend/app/core/config.py:78-80 | true exactly of a block repeated two or more times |
| SecretStrings.CommutingWords | backend/app/core/config.py:78-80 | words that commute are powers of one word |
| SecretStrings.HasMonotonicRun | backend/app/core/config.py:83-92 | true exactly if some stretch of the given length steps by +1, or by -1, throughout, in a value of two characters or more |
| BookmakerRanges.Validate | backend/app/core/config.py:471-492 | accepts exactly the lists of ranges that partition all dates in order |
| BookmakerRanges.WellFormedExactly | backend/app/core/config.py:471-492 | open ends, contiguity and no empty range are the same as partitioning all dates |

## Left out

- The Redis client's retries, encryption and decoding of a replay entry, audit rows, access tokens, CSRF tokens and cookies: no effect on the rows.
- A rotation's INSERT of the new row and UPDATE of the old one are one step; both are under the family lock and invisible until the commit.
- The database's abort of one of two deadlocked transactions is the step `Abort`, which may happen at any time.
- The per-address replay limiter answers by a parameter; its own counting is the script in `Counters`.
- Password login, lockout, e-mail verification and two-factor authentication.
- Float rounding everywhere: all arithmetic is exact, and for weights the preview's tolerance of 0.01 is equality of hundredths.
- The Glicko-2 update, the softmax, rounding, LightGBM and the stacking and calibration models are parameters; the one
  thing said of LightGBM itself is that a fit on no rows raises.
- `train_lightgbm`, MLflow logging, prediction rows and the market pass of `run_training`: no argument beyond those of `train_consensus`.
- Total-goals and half-time markets and the shot-coordinate xG model.
- `ScoreMatrix` for `max_goals` below 1, where the source raises an index error.
- DistinctIds as a requirement of the passes is the primary key of the fixture table.
- One `_TeamState` object per team is a value in the walk's dictionary, so aliasing of those objects is not modelled.
- Interleaving inside a registry operation: each runs under the registry lock; `upsert_run` is one statement between operations.
- A rollback of the caller's transaction after a registry operation, which returns to a table seen before.
- `current_registry_rows`, notes, log-loss and ROI history: display only.
- Subscriptions granted by a redemption, and the strings of codes: their hash is opaque.
- Eviction of Redis keys, and wrong-type errors.
- Push budgets over midnight: a release is of the same day.
- `is_placeholder_secret` beyond its periodic and monotonic checks, entropy estimates, network ranges and the other settings.
- Dates are unbounded integers: a range that starts at the first representable date counts as leaving earlier dates open.
- HTTP routes, the user interface, providers, migrations and the command line.
