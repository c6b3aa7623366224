# Game engine of a multiplayer drawing game

A Dafny model of the server side of a multiplayer drawing game and of the stores it must
agree with, with machine-checked properties over every run. Run `dafny verify dfyconfig.toml`
in this directory.

## What is modelled

**Rooms and matches.** A room is opened, joined, hosted and set up (`WaitingRoom`), starts a
match by compare-and-set (`StartTransaction`), plays it, and returns. `RoomLifecycle` composes
the two sides and shows that each start is where the match theorems begin. `HallLaws` and
`StartLaws` say in plain terms what each action of the room does and what a start means.

**The session protocol** (`GameSession`) goes LOADING, THEME_SELECTING, DRAWING, EVALUATING,
ROUND_SUMMARY, the next round or FINISHED, then WAITING. It is driven by client messages,
disconnects and timer callbacks, each a function from one room's stored world to the next,
including what a handler has already changed when it goes on to fail. `SessionService` is the
same code as it runs, updating fields, stores and timer maps in place; each method is proved to
be one of those steps. `SessionInvariants` and `SessionRuns` hold what every run keeps, how
long a match is, and that no stale timer survives. `PhaseLaws` states the protocol a second
time, as a table of what ends each phase and what follows, and proves that every step of every
run acts by it.

**Votes to payouts.** `MatchHistory` relates the tables to a plain record of accepted lines and
ratings; `MatchScores` shows that final scores are sums of latest ratings; `Standings` that
placements are competition ranks; `Payout` that rewards are paid once and the ledger balances;
`MatchPayout` and `StoredResults` put these together, and `RoundRankings` does it for what is
shown after each round. `EvaluationGate` covers the ready tests and
`DrawingPipeline` the way of a stroke from sender to viewer. `Leftovers` follows a stroke list
across phases and matches, and `SessionProgress` shows that every match can be finished.

**Items** (`Items`, `ItemLaws`, `ItemService`): a phase's inventory snapshot spent under cooldowns and
settled at the end. **Ranking** (`Ranking`, `RankingLaws`, `RankingService`): the snapshot table against the
full rankings. **Friends** (`Friends`, `FriendLaws`, `FriendLists`, `FriendService`): requests, friendships
and blocks, and the lists read out of them.

## How to read the model

- A handler is one atomic step. This matters: a patch of the stored state is a read followed by
  a write (src/game-state/game-state.store.ts:23-30), and finer interleavings of handlers break
  several invariants. `SummaryRaces` is the exception: there the two handlers with guard sets
  are taken apart at their awaits and interleave freely with everything else.
- A `World` is one room's. Clock readings, connected sockets, the random theme and selector,
  and whether the item settlement and the payout were accepted are inputs (`Env`). Database and
  Redis listing orders are inputs or arbitrary choices. Ids come from a sequence that others
  draw from too.
- A refusal is a value. Where a handler fails half way, the model keeps what was already written.
- A timer carries the match and round that armed it as a label; no handler reads the label.
- No run is promised to get anywhere: THEME_SELECTING has no timer, a refused finalize has
  already cancelled the phase timer, and a malformed line or an unsettled item keeps its phase
  from ending. `SessionProgress` shows that without these the next input always leads on.

## Results that differ from what the code suggests

- The total shown in a round ranking is never cumulative (`RoundRankings.RankingTotalIsTheRoundScore`).
- The broadcast ready count can say everyone is ready when somebody is not, in ROUND_SUMMARY
  and EVALUATING, exactly as `EvaluationGate.SummaryErrsExactly` says.
- Strokes of a player who left during DRAWING stay under a key without a match id, and prefix
  the same user's drawing of the same round of a later match (`DrawingPipeline.CommitsWhatWasSent`,
  `DrawingPipeline.DepartedStrokesSurvive`); `Leftovers.SecondMatchStartsWithLeftovers` is a
  room's life in which this happens.
- A rating accepted after its round's summary was computed and before it is merged is missing
  from the totals, if it changes anything (`SummaryRaces.OnlyRerating`,
  `SummaryRaces.RatingDuringMergeIsLost`).
- Refused settings can leave a TEAM room without teams, and the start test accepts it
  (`WaitingRoom.RefusedSettingsCanStartTeamless`).
- A room whose game was aborted stays IN_PROGRESS until it is deleted (`RoomLifecycle.AbortIsFinal`).
- Rows of an older period start are never deleted, and every query reads them
  (`Ranking.OlderStartsAreRead`). They also block: the table allows one row per user and period,
  so a rebuild that would keep a user with an older row is refused (`Ranking.RebuildsExactly`),
  and the hourly job stops there. One coin leader over two days is enough to freeze all three
  rankings (`Ranking.SameLeaderFreezesRankings`).
- A blocked user without a profile is in the friend list but not found by search
  (`Friends.SearchIsExact`).

## Model

| member | source | states |
|---|---|---|
| `SessionInvariants.StepKeeps` | src/game/session/game-session.service.ts:53-541 | Every client message, disconnect and timer callback, refused ones included, keeps the reachable-state invariant: phase and context agree, endsAt is set exactly in the timed phases, the theme exactly from DRAWING to ROUND_SUMMARY, 1 <= round <= rounds, at least two members on distinct positive ids, active players are distinct members, ready is within active in DRAWING, at most one pending timer which fits the phase |
| `SessionRuns.ReachableOk` | src/game/session/game-session.service.ts:53-541 | Any sequence of inputs after a start leaves the live state satisfying that invariant |
| `SessionRuns.StepMoves` | src/game/entities/game-session.entity.ts:41-163 | One step stays in its phase and round or makes exactly the next phase change; match id and round count stay, members only leave |
| `SessionRuns.RunCounts` | src/game/session/game-session.service.ts:377-467 | Phase changes made plus phase changes left is constant over a run, so nothing is skipped or repeated |
| `SessionRuns.MatchLength` | src/game/finished/finished-return.service.ts:41-56 | A match that is not aborted is back in WAITING after exactly 4 * rounds + 2 phase changes, never more, and FINISHED is reached with one left, after the last round |
| `SessionRuns.TimersAreCurrent` | src/game/session/game-session.service.ts:554-666 | In every reachable live state at most one callback is pending, and it was armed by the match, round and phase (the drawing instance for DRAWING) the game is in |
| `SessionRuns.DrawingEndsUnlessUnsettled` | src/game/session/game-session.service.ts:233-274 | From a reachable DRAWING state an advance succeeds unless the item settlement is refused, and then changes nothing |
| `SessionRuns.EvaluationEndsUnlessMalformed` | src/game/evaluation/evaluation.service.ts:258-302 | From a reachable EVALUATING state an advance succeeds exactly when every drawing committed for the round is well formed |
| `SessionProgress.EveryMatchCanFinish` | src/game/session/game-session.service.ts:377-467 | From every reachable state with well-formed lines and something left to happen, a selector who can choose or a pending callback, exactly one accepted input per phase change left plays the match to WAITING with nobody leaving: no phase is a trap |
| `PhaseLaws.EveryStepActsAsStated` | src/game/session/game-session.service.ts:53-541 | The protocol as a table, over every run and naming no handler: for each phase exactly which message, departure or callback ends it (who chose, who is active, who is ready, whether enough was rated, whether items settled and lines are well formed), every field of the state entered, and what an input that does not end the phase changes |
| `PhaseLaws.MatchIsThreeRounds` | src/game/constants/game.constant.ts:26-37 | Three rounds: five seconds of loading, fourteen phase changes to WAITING, FINISHED only after round three |
| `PhaseLaws.LinesAsStated` | src/game/drawing/drawing.service.ts:29-47 | A line is appended under round and sender exactly for an active player in DRAWING, and otherwise nothing changes |
| `PhaseLaws.VotesAsStated` | src/game/evaluation/evaluation.service.ts:150-211 | A rating from 0 to 10 is stored exactly when a remaining member gives it to another remaining member's committed drawing of the round |
| `SummaryRaces.EachPhaseOnce` | src/game/session/game-session.service.ts:321-467 | With both handlers split at their awaits and any number of calls interleaved with all other handlers, a live match has merged once per EVALUATING phase left and exited once per ROUND_SUMMARY phase left; its totals are those merges in order, and the k-th is the rating sums of round k over the tables at the moment its summary was computed |
| `SummaryRaces.OneAtATime` | src/game/session/game-session.service.ts:321-359 | Whatever is suspended, a merge turns EVALUATING into ROUND_SUMMARY, and an exit is taken only from ROUND_SUMMARY |
| `SummaryRaces.OnlyRerating` | src/game/session/game-session.service.ts:333-345 | While a computed record waits to be merged it stays the sums of the ratings as they stand, except exactly when a rating that differs from the voter's earlier one is accepted in between |
| `SummaryRaces.RatingDuringMergeIsLost` | src/game/evaluation/evaluation.service.ts:150-211 | Witness: such a rating is answered as accepted, and the totals get the record without it |
| `SummaryRaces.SummaryAloneIsAtomic` | src/game/session/game-session.service.ts:321-359 | The pieces of advanceToRoundSummary run without interruption are the one step the session model takes; a failing computation merges nothing and frees the guard |
| `SummaryRaces.ExitAloneIsAtomic` | src/game/session/game-session.service.ts:377-467 | So are the pieces of advanceFromRoundSummary, on every branch |
| `SummaryRaces.NextKeeps` | src/game/session/game-session.service.ts:545-547 | What a suspended handler read stays what is stored, at most one summary and one exit are under way, and each holds its guard |
| `MatchHistory.StepLedger` | src/game/evaluation/evaluation.service.ts:150-211 | Every step keeps the stroke lists, drawing rows, vote rows and totals in agreement with a plain record of the lines and ratings accepted |
| `MatchHistory.MatchOk` | src/game/session/game-session.service.ts:53-541 | That agreement and the state invariant hold after any inputs of a match begun with a fresh id |
| `MatchHistory.MergeTotalsOk` | src/game/evaluation/evaluation.service.ts:213-222 | The keys of a round are new to the totals, so merging adds entries and changes none |
| `MatchScores.ScoresAreLatestRatings` | src/game/session/game-session.service.ts:669-694 | In every run a remaining user is scored exactly when a drawing of theirs was committed in a merged round, at the sum over those rounds of the latest rating of each player, between 0 and 10 per other starting player and round |
| `MatchScores.SumByVoter` | src/game/evaluation/evaluation-vote.repository.ts:64-97 | Summing the vote rows of a drawing is summing what each voter last gave it |
| `MatchScores.DrawingBounds` | src/game/evaluation/evaluation.service.ts:150-211 | No drawing earns more than the top score from everybody but its author |
| `RoundRankings.SummaryIsOfTheRound` | src/game/evaluation/evaluation.service.ts:224-302 | Over every run, whatever ends an evaluation: the ranking has exactly one row per player still active, at the sum of the latest ratings that member's drawing of the round got, best first and then the lower member id, and beside it exactly the drawings committed for the round |
| `RoundRankings.RankingTotalIsTheRoundScore` | src/game/evaluation/evaluation.service.ts:224-256 | The total in a round ranking is keyed by the round's own drawing: it is that same sum of latest ratings once more and never accumulates |
| `DrawingKeys.IdRoundTrip` | src/game/drawing/drawing.repository.ts:17-19 | A printed match:member:round id reads back as the same three numbers |
| `DrawingKeys.IdsDiffer` | src/game/drawing/drawing.repository.ts:17-19 | Different drawings have different ids |
| `Standings.ResultsAreRanks` | src/game/session/game-session.service.ts:697-722 | Every scored user appears once, best first with ties by user id, at one plus the number of strictly higher scores |
| `Standings.PayFollowsScore` | src/game/finished/policies/reward.policy.ts:3-18 | Equal scores are placed and paid equally, a higher score is never paid less, and every place pays something |
| `MatchPayout.PayoutFollowsRatings` | src/game/finished/match-finalize.service.ts:16-70 | Over every run, paying a match not yet paid credits each remaining player who drew with 120, 90, 70, 50, 40 or 30 exp and 80, 60, 45, 30, 25 or 20 coins by the number of players their latest ratings put ahead, and no other profile |
| `StoredResults.ResultsFollowRatings` | src/game/finished/match-finalize.service.ts:30-43 | Over every run, finalizing stores for each remaining player who drew exactly the sum of their latest ratings and one place below the players strictly ahead, whatever an earlier finalize stored, and leaves all other rows |
| `SessionLoops.MergeTotals` | src/game/evaluation/evaluation.service.ts:213-222 | The loop adds the round record to the totals entry by entry, an absent entry counting 0 |
| `SessionLoops.BuildRankings` | src/game/evaluation/evaluation.service.ts:224-256 | One row per active user with a member id, holding the score and total recorded under that member's drawing of the round; sorted by score, then total, then member id |
| `SessionLoops.ComputeFinalScores` | src/game/session/game-session.service.ts:669-694 | The split-and-accumulate loop yields each user's total over the entries whose middle part is that user's member id |
| `SessionLoops.AssignPlacements` | src/game/session/game-session.service.ts:707-722 | The running last score and placement give every entry of a sorted list one plus the number of strictly higher scores |
| `SessionLoops.BuildFinalResults` | src/game/session/game-session.service.ts:697-722 | Sorting and placing the score record gives the standings the payout theorems speak of |
| `Ordering.SortSorts` | src/game/session/game-session.service.ts:700-705 | The stable sort behind every ranking leaves no pair out of order |
| `Ordering.SortedUnique` | src/ranking/ranking.service.ts:90-125 | A list has one sorted arrangement, so the order rows were read in never shows |
| `EvaluationGate.NoDeadEnd` | src/game/evaluation/evaluation.service.ts:81-100 | In any reachable evaluation a member who then rates every currently active other passes the completeness gate, whoever left before |
| `EvaluationGate.GateRefusesExactly` | src/game/evaluation/evaluation.service.ts:81-124 | Over every run a player not yet ready is refused, with nothing changed, if and only if the members whose drawing of the round the player has rated, by the record of ratings, are fewer than the other active players |
| `EvaluationGate.RatingIsAccepted` | src/game/evaluation/evaluation.service.ts:150-211 | Such a rating is accepted and recorded for that voter and drawing and nothing else changes |
| `EvaluationGate.CountMeansEveryone` | src/game/drawing/entities/drawing.entity.ts:37-66 | In DRAWING the count that ends the phase, and the broadcast summary, say exactly that every active player is ready |
| `EvaluationGate.SummaryErrsExactly` | src/game/utils/game-phase-ready.util.ts:48-58 | The broadcast allReady agrees with asking everyone exactly when nobody is missing or the ready ids of outsiders are fewer than the missing players |
| `EvaluationGate.LeaverStillCounts` | src/game/utils/game-phase-ready.util.ts:48-58 | When a ready member leaves a round summary the stored state satisfies the invariant, and the broadcast is wrong from then on exactly when the leaver and earlier leavers among the ready are at least as many as the members not ready |
| `EvaluationGate.SummaryCanErr` | src/game/utils/game-phase-ready.util.ts:48-58 | Witness: three members, two ready, one of those leaves; both states satisfy the invariant, the second is what the departure stores, and its count says everyone while one player is not ready |
| `DrawingPipeline.ViewersReceiveWhatWasSent` | src/game/session/game-session.service.ts:285-317 | In a match begun on empty stroke lists, when DRAWING ends a viewer receives for each other active player exactly the lines that player sent in the round, in order, under an id that decodes to that player's member |
| `DrawingPipeline.CommitsWhatWasSent` | src/game/drawing/drawing.service.ts:98-125 | Ending DRAWING commits for each active player what was left over under the key and then the lines accepted this round; so exactly the lines of the round if and only if nothing was left over |
| `DrawingPipeline.ViewerReceivesOthers` | src/game/session/game-session.service.ts:291-313 | Whatever the shuffle, the drawings received are one per other active player, each showing that player's committed row |
| `DrawingPipeline.EvaluatorsSeeActive` | src/game/drawing/drawing.service.ts:128-169 | The drawings read back for evaluators are exactly the active players' |
| `DrawingPipeline.DepartedStrokesSurvive` | src/game/drawing/drawing.service.ts:120-124 | The cleanup empties the active players' lists and leaves the list of a player who left |
| `Leftovers.ListStaysUntilCommit` | src/game/drawing/drawing.store.ts:48-62 | Over any run the list of a round and user is what it was plus the lines accepted under it, until a commit of that round with the user active |
| `Leftovers.LobbyRunGoneStays` | src/game/drawing/drawing.service.ts:98-125 | The list of a user no longer in the member map stays through the rest of the match, its end and whatever happens in the room, until the next start |
| `Leftovers.LeftoversReachNextMatch` | src/game/drawing/drawing.store.ts:60-62 | From any playable DRAWING state of three or more: a player still in the room who draws a line and drops out, the others finishing, is in the room's next match with that line already in the list of that round |
| `Leftovers.SecondMatchStartsWithLeftovers` | src/game/drawing/drawing.store.ts:60-62 | Witness from the creation of a room, event by event: the second start begins with the third player's line of round one in place |
| `SessionLoops.ShuffleArray` | src/game/session/game-session.service.ts:568-575 | Any random draw gives a rearrangement |
| `SessionLoops.DrawingsForViewer` | src/game/session/game-session.service.ts:291-313 | A shuffled arrangement of the other users, each with a drawing and member id presented in that order |
| `SessionLoops.InvertMembersOrThrow` | src/game/drawing/drawing.service.ts:142-160 | The inversion is refused exactly when two users share a member id, and otherwise maps each id to its user |
| `SessionLoops.KeyRowsByUser` | src/game/drawing/drawing.service.ts:162-168 | The rows of a round keyed by user, one for each mapped user that has a row |
| `SessionService.GameSessionService.InitializeGameState` | src/waiting/waiting.service.ts:326-345 | A start replaces the stored state and arms the loading timer |
| `SessionService.GameSessionService.LoadingEnds` | src/game/session/game-session.service.ts:152-181 | The loading callback is a step of the model: it acts only in LOADING and only with a selector |
| `SessionService.GameSessionService.StartDrawingPhase` | src/game/session/game-session.service.ts:184-230 | A finalize is a step of the model; a refused one has already cancelled the phase timer |
| `SessionService.GameSessionService.ForceStartDrawingPhase` | src/game/session/game-session.service.ts:474-541 | The forced start replaces the phase timer and enters DRAWING without a selector check |
| `SessionService.GameSessionService.SendDrawingLine` | src/game/drawing/drawing.service.ts:29-47 | A line is appended under round and user only for an active player in a drawing context |
| `SessionService.GameSessionService.SubmitDrawing` | src/game/drawing/drawing.service.ts:50-76 | Marking ready and, when the count is reached, advancing, is a step of the model |
| `SessionService.GameSessionService.CommitAllActiveUsersToDb` | src/game/drawing/drawing.service.ts:185-224 | Refused, with nothing written, when a listed user has no member id; otherwise the upsert loop leaves one row per listed user holding the loaded strokes |
| `SessionService.GameSessionService.ForceCommitForEvaluating` | src/game/drawing/drawing.service.ts:98-125 | Rows first, then the cleanup of the same users' lists; a refused commit leaves both tables |
| `SessionService.GameSessionService.GetDrawingsByUserId` | src/game/drawing/drawing.service.ts:128-169 | Refused exactly for a duplicated member id; otherwise the round's rows by user |
| `SessionService.GameSessionService.AdvanceToEvaluating` | src/game/session/game-session.service.ts:233-274 | Settlement, commit, inversion, patch, timer and guard reset add up to the model's step, with the partial effects of each refusal |
| `SessionService.GameSessionService.EmitStartEvaluation` | src/game/session/game-session.service.ts:285-317 | What one socket is sent when the evaluation starts |
| `SessionService.GameSessionService.SubmitEvaluation` | src/game/evaluation/evaluation.service.ts:150-211 | A vote passes the checks in the code's order and upserts one row |
| `SessionService.GameSessionService.ToggleEvaluationReady` | src/game/evaluation/evaluation.service.ts:102-148 | The completeness gate, the toggle and the all-ready advance are a step of the model |
| `SessionService.GameSessionService.ComputeRoundSummary` | src/game/evaluation/evaluation.service.ts:258-302 | Sums, merge, ranking and drawings of the round, or the refusal of a malformed drawing |
| `SessionService.GameSessionService.AdvanceToRoundSummary` | src/game/session/game-session.service.ts:321-359 | A step of the model; the guard is released on a failure and kept on success |
| `SessionService.GameSessionService.ToggleSummaryReady` | src/game/round-summary/round-summary.service.ts:45-81 | The toggle and, when every member is ready, the exit, are a step of the model |
| `SessionService.GameSessionService.AdvanceFromRoundSummary` | src/game/session/game-session.service.ts:377-467 | A step of the model; on the last round what is handed to the payout is the standings of the scores read from the totals |
| `SessionService.GameSessionService.ReturnRoomToWaiting` | src/game/finished/finished-return.service.ts:41-69 | FINISHED becomes WAITING, and the room's return timer is dropped whatever happens |
| `SessionService.GameSessionService.LeaveThemeSelecting` | src/game/topic/topic.service.ts:36-67 | Only the selector's departure forces a theme |
| `SessionService.GameSessionService.LeaveDrawing` | src/game/drawing/drawing.service.ts:79-95 | An active player's departure may end DRAWING |
| `SessionService.GameSessionService.LeaveEvaluating` | src/game/evaluation/evaluation.service.ts:47-73 | An active player's departure may end EVALUATING |
| `SessionService.GameSessionService.HandleDisconnect` | src/game/session/game-session.service.ts:53-149 | A departure aborts, shrinks the member map, or ends the phase, as the model's step does |
| `SessionService.GameSessionService.OnReadyToggle` | src/game/game.gateway.ts:160-200 | The toggle is dispatched by phase |
| `SessionService.GameSessionService.OnTimeout` | src/game/session/game-session.service.ts:596-630 | A pending callback stops being pending, checks what its closure checks, and acts |
| `SessionService.GameSessionService.SchedulePhaseTimer` | src/game/session/game-session.service.ts:596-630 | The phase timer in the room's slot is cleared before the next is armed |
| `Entities.GameSessionEntity.StartThemeSelection` | src/game/entities/game-session.entity.ts:41-55 | LOADING only; otherwise the state is untouched |
| `Entities.GameSessionEntity.StartDrawing` | src/game/entities/game-session.entity.ts:57-96 | The checks in order, and every field of the DRAWING state |
| `Entities.GameSessionEntity.AdvanceToThemeSelecting` | src/game/entities/game-session.entity.ts:118-150 | Succeeds exactly from a ROUND_SUMMARY that is not of the last round, and then raises the round by one |
| `Entities.GameSessionEntity.AdvanceToFinished` | src/game/entities/game-session.entity.ts:152-163 | ROUND_SUMMARY only; theme, deadline and context are dropped |
| `Entities.DrawingPhaseContextEntity.MarkReady` | src/game/drawing/entities/drawing.entity.ts:51-57 | Refused exactly for a user who is not active; true exactly when newly ready |
| `Entities.DrawingPhaseContextEntity.RemoveUser` | src/game/drawing/entities/drawing.entity.ts:59-66 | Removes from both lists exactly when the user is active |
| `Stores.DrawingStore.AppendStroke` | src/game/drawing/drawing.store.ts:9-24 | Appends to the one list of round and user |
| `Stores.DrawingStore.CleanupStrokes` | src/game/drawing/drawing.store.ts:48-58 | Deletes the listed users' lists of the round and no other |
| `Stores.DrawingRepository.GetDrawingsByMatchAndRound` | src/game/drawing/drawing.repository.ts:73-87 | Refused exactly when a row of the round is malformed; otherwise every row of the round under its id |
| `Stores.EvaluationVoteRepository.UpsertVoteByDrawingKey` | src/game/evaluation/evaluation-vote.repository.ts:11-48 | Refused exactly when the drawing has no row; otherwise the voter's rating replaces any earlier one |
| `Stores.EvaluationVoteRepository.SumRatingsByDrawingKey` | src/game/evaluation/evaluation-vote.repository.ts:64-97 | One entry per drawing of the round at the sum of its ratings, 0 where nobody voted |
| `Stores.EvaluationVoteRepository.CountDistinctTargetsByVoter` | src/game/evaluation/evaluation-vote.repository.ts:99-120 | The number of distinct members the voter rated in the round |
| `Payout.LedgerAgrees` | src/game/finished/match-finalize.service.ts:16-63 | Over any sequence of finalize calls, repeats and re-scored results included, a rewarded row keeps its amounts and every profile gains exactly what the rewarded rows of its members record, in both currencies |
| `Payout.FailsExactly` | src/game/finished/finished.repository.ts:45-54 | With distinct member ids the transaction is rolled back exactly when a listed player with a member id, not yet paid, has no profile |
| `Payout.PaysEach` | src/game/finished/match-finalize.service.ts:27-57 | For distinct users and a match not yet paid, everyone listed with a member id is credited once with their own reward and nobody else changes |
| `Payout.PaysStandings` | src/game/finished/match-finalize.service.ts:16-63 | The first finalize of final standings succeeds and pays by one plus the number of strictly higher scores |
| `StoredResults.StoresWhatIsListed` | src/game/finished/finished.repository.ts:21-32 | A finalize that settles leaves every listed user with a member id a row of exactly the listed score and placement, rewarded and re-scored rows included, and no other row changes; one that does not settle changes none |
| `Payout.AwardedAfter` | src/game/finished/finished.repository.ts:34-43 | After a call a row is rewarded exactly when it was before or its member was listed |
| `Payout.FinishedRepository.UpsertMatchResult` | src/game/finished/finished.repository.ts:21-32 | Score and placement are overwritten, the reward is not |
| `Payout.FinishedRepository.ConfirmRewardOnce` | src/game/finished/finished.repository.ts:34-43 | Counts one and writes exactly for a row not yet rewarded |
| `Payout.FinishedRepository.IncrementUserProfile` | src/game/finished/finished.repository.ts:45-54 | Credits a profile or fails when there is none |
| `Payout.MatchFinalizeService.FinalizeFromFinalResults` | src/game/finished/match-finalize.service.ts:16-63 | The loops inside the transaction are the model's settlement: all of it, or nothing |
| `Payout.MatchFinalizeService.BuildRewards` | src/game/finished/match-finalize.service.ts:19-25 | One reward per user, the last entry deciding |
| `Payout.MatchFinalizeService.PayResult` | src/game/finished/match-finalize.service.ts:30-54 | One pass of the loop: skipped without a member id; otherwise the row holds the listed score and placement, and is paid unless already paid, failing without a profile |
| `Items.RemainingIsInitialMinusUses` | src/game/item/stores/game-inventory.store.ts:22-40 | In every run a slot stays between 0 and its snapshot, and what is missing is exactly the number of accepted uses since it was opened |
| `Items.CommitCharges` | src/item/services/item-inventory.service.ts:20-29 | A settlement that goes through lowers every row by exactly what the phase used and forgets the phase, any other changes nothing, and repeating it does nothing |
| `Items.SettlesExactly` | src/item/repositories/user-game-item.repository.ts:16-38 | A settlement goes through exactly when every slot's uses are still in stock |
| `Items.CacheAgreesWithLedger` | src/game/item/game-item.service.ts:52-116 | At every moment the database holds what a ledger charging each accepted use at once would hold, plus the uses not charged yet |
| `Items.SettlesWhenSpendingAlone` | src/game/item/game-item.service.ts:109-116 | A phase whose players' holdings are charged by no other phase meanwhile always settles |
| `Items.UsesAreSpaced` | src/game/item/domain/game-item-usage.domain.ts:32-45 | Accepted uses of a slot are at least a cooldown apart, whatever order the clock readings come in |
| `Items.UsesInWindow` | src/game/item/stores/cooldown.store.ts:20-26 | No window of length W sees more uses than the initial quantity or W / cooldown + 1 |
| `ItemLaws.UsesAreDecidedByHistory` | src/game/item/domain/game-item-usage.domain.ts:33-45 | In every run a use is accepted exactly when what the user held at the opening is not used up, a cooldown has passed since the last accepted use and the item is known, in this order; it takes one from its slot and touches nothing else, and a refused use changes nothing |
| `ItemService.GameInventoryStore.InitUser` | src/game/item/stores/game-inventory.store.ts:22-27 | Every listed item starts at its quantity; nothing else changes |
| `ItemService.GameInventoryStore.GetRemaining` | src/game/item/stores/game-inventory.store.ts:29-32 | 0 for an item never opened, and reading changes no entry |
| `ItemService.GameInventoryStore.Decrement` | src/game/item/stores/game-inventory.store.ts:34-40 | Lowers one slot, never below zero |
| `ItemService.GameInventoryStore.ExtractUsed` | src/game/item/stores/game-inventory.store.ts:42-54 | Each used slot of the phase once, with its count |
| `ItemService.ItemInventoryService.DecrementQuantityTx` | src/item/repositories/user-game-item.repository.ts:16-38 | Refused exactly when the row holds less than is taken |
| `ItemService.ItemInventoryService.ApplyUsedQuantities` | src/item/services/item-inventory.service.ts:20-29 | For any list, rows of no use and repeated holdings included: every holding is charged the sum of its rows if all are in stock, and otherwise none is |
| `ItemService.GameItemService.InitInventory` | src/game/item/game-item.service.ts:21-24 | The user's rows become the phase's snapshot |
| `ItemService.GameItemService.UseItem` | src/game/item/game-item.service.ts:52-107 | Quantity, cooldown and specification are checked in that order; an accepted use takes one and sets the cooldown |
| `ItemService.GameItemService.CommitInventory` | src/game/item/game-item.service.ts:109-116 | The stores are cleared exactly when the settlement succeeds |
| `WaitingRoom.HostedAndWithinCapacity` | src/waiting/waiting.store.ts:64-77 | In every run of joins, leaves, kicks, disconnects, toggles and settings, accepted or not, a room with members has a host who is one of them and ready, and never more than maxPlayers |
| `WaitingRoom.SuccessorIsEarliest` | src/waiting/waiting.store.ts:196-210 | A departing host is replaced by an earliest joiner of those left, who becomes ready; otherwise the host stays, and no other entry changes |
| `WaitingRoom.TeamsKeptExactly` | src/waiting/waiting.service.ts:199-232 | Everyone has a team exactly in TEAM mode after any handler except a settings update the room refuses after the teams were rewritten for another mode; after that one it fails |
| `WaitingRoom.TeamsFollowMode` | src/waiting/waiting.service.ts:234-252 | So it holds over every run without such a refusal |
| `WaitingRoom.EveryTeamStartIsEven` | src/waiting/entities/waiting.entity.ts:212-223 | Every TEAM start of such a run has RED and BLUE exactly equal, though the test allows a difference of one |
| `WaitingRoom.RefusedSettingsCanStartTeamless` | src/waiting/waiting.service.ts:220-224 | In any full public TEAM room one refused update strips every team, and after readying up the TEAM game starts with nobody on a team |
| `WaitingRoom.ResetKeepsMembers` | src/waiting/waiting.service.ts:234-252 | The reset gives every listed player a team fitting the mode, unreadies all but the host and moves nobody |
| `HallLaws.ActionsAsStated` | src/waiting/waiting.service.ts:83-290 | After any life of a waiting room, every join, toggle, team change, settings update, kick, leave, disconnect and deletion is accepted exactly under the stated condition and leaves exactly the stated room, host, teams and readiness; newcomers join the smaller team and a reset leaves the teams as even as can be |
| `StartLaws.StartNeedsEveryoneReady` | src/waiting/entities/waiting.entity.ts:163-223 | After any life of a waiting room a start is accepted exactly when the host asks, the room is waiting and of a fitting size, there is somebody else, everybody else is ready, and in TEAM mode the sides differ by at most one; then all members are ready |
| `WaitingService.RoomEntity.Update` | src/room/entities/room.entity.ts:78-91 | Only the fields sent are assigned; refused exactly when the result does not validate |
| `WaitingService.RoomEntity.Validate` | src/room/entities/room.entity.ts:88-128 | Player count by mode, a password for a private room, none kept for a public one |
| `WaitingService.WaitingStore.LeaveRoom` | src/waiting/waiting.store.ts:64-77 | Removes the member and hands on the host key only when the host left |
| `WaitingService.WaitingStore.AutoTransferHost` | src/waiting/waiting.store.ts:196-210 | Hands the key to the first of the earliest joiners, or clears the room |
| `WaitingService.WaitingStore.ClearRoom` | src/waiting/waiting.store.ts:176-189 | Clears members and host; an already empty room keeps its host key |
| `WaitingService.WaitingStore.TryAssignHost` | src/waiting/waiting.store.ts:191-194 | Takes the key exactly when nobody holds it |
| `WaitingService.WaitingService.JoinRoom` | src/waiting/waiting.service.ts:83-120 | A join is a step of the model, checks in the code's order |
| `WaitingService.WaitingService.ToggleReady` | src/waiting/waiting.service.ts:159-163 | Refused for the host and for strangers |
| `WaitingService.WaitingService.ChangeTeam` | src/waiting/entities/waiting.entity.ts:79-106 | Refused in SOLO mode, for no team, for strangers and for a full team |
| `WaitingService.WaitingService.UpdateSettings` | src/waiting/waiting.service.ts:199-232 | Teams are rewritten before the room can refuse |
| `WaitingService.WaitingService.ResetTeamsForMode` | src/waiting/waiting.service.ts:234-252 | The loop over the players in listing order |
| `WaitingService.WaitingService.UpdateRoomWhileWaiting` | src/room/room.service.ts:55-83 | The row is stored exactly when there is one and the update validates |
| `WaitingService.WaitingService.RemoveRoom` | src/room/room.service.ts:49-53 | The deletion request removes the room row and leaves members and host |
| `WaitingService.WaitingService.KickPlayer` | src/waiting/waiting.service.ts:254-280 | Only the host, never oneself, only a member |
| `WaitingService.WaitingService.LeaveRoom` | src/waiting/waiting.service.ts:282-290 | The last to leave takes the room row along |
| `WaitingService.WaitingService.HandleDisconnect` | src/waiting/waiting.service.ts:455-507 | During a game the membership stays unless one member is left |
| `WaitingService.WaitingService.HandleLeave` | src/waiting/waiting.service.ts:509-542 | Leaving is allowed during a game |
| `RoomLifecycle.LiveGameIsProtected` | src/waiting/waiting.repository.ts:72-90 | In every life of a room, while the stored phase lies between LOADING and FINISHED the room, if it still exists, is IN_PROGRESS and no start changes anything |
| `RoomLifecycle.StartsAreSeparated` | src/game/finished/finished-return.service.ts:41-56 | Between two successful starts the room's game returned to WAITING |
| `RoomLifecycle.EveryStartBegins` | src/waiting/waiting.service.ts:326-374 | Every start begins on no timers, over no running game, with a fresh match id and a one-to-one member map: the hypothesis of every match theorem |
| `StartLaws.EveryMatchStartsReady` | src/waiting/waiting.service.ts:292-320 | In every life of a room a start succeeds exactly under that condition; three to six members, all ready, at the request of one of them; a refused start changes nothing |
| `RoomLifecycle.StartMapIsInjective` | src/waiting/waiting.repository.ts:92-151 | The member map of a start has exactly the players, on distinct positive ids, the same id as at an earlier start, and the missing-row error cannot occur |
| `RoomLifecycle.AbortIsFinal` | src/game/session/game-session.service.ts:67-88 | The departure that leaves one player of a live game removes the game, and whatever comes after, there is none, the room if it still exists stays IN_PROGRESS, and no start succeeds |
| `RoomLifecycle.LobbyKeeps` | src/waiting/waiting.service.ts:292-374 | The waiting-room and session invariants and their link hold after any event of either side |
| `StartTransaction.WaitingRepository.StartGameTx` | src/waiting/waiting.repository.ts:44-70 | Done exactly for a WAITING room with players whose ids all map; otherwise nothing is written |
| `StartTransaction.WaitingRepository.MarkRoomInProgress` | src/waiting/waiting.repository.ts:72-90 | The compare-and-set, and which of the two errors otherwise |
| `StartTransaction.WaitingRepository.SyncRoomMembers` | src/waiting/waiting.repository.ts:92-132 | One row per player, an existing row keeping its id |
| `StartTransaction.WaitingRepository.BuildMemberMap` | src/waiting/waiting.repository.ts:134-151 | The saved rows by user, refused exactly when a player is missing or has id 0 |
| `StartTransaction.ValidatedStartsSucceed` | src/waiting/waiting.service.ts:292-320 | In a lobby in order a validated start is never refused by its transaction, and every player it maps is ready |
| `Ranking.CoinTop4IsExact` | src/ranking/ranking.service.ts:109-125 | Right after a rebuild, with one period start in the table and a profile for every scored user, the coin query answers with the top four of all profiles |
| `Ranking.ScoreTop4IsExactAboveZero` | src/ranking/ranking.service.ts:90-107 | The positive rows of the score query are exactly the first four, or all there are, of everyone who scored above zero |
| `RankingLaws.CoinQueryIsTopFour` | src/ranking/ranking.service.ts:109-125 | The same in plain terms: at most four profiles, each with its coins and level, more coins first, then the higher level, then the smaller id, and nobody left out is better than anybody listed |
| `RankingLaws.ScoreQueryIsTopFour` | src/ranking/ranking.service.ts:90-107 | Likewise for everyone whose results add up to more than zero, by that sum, level and id |
| `Ranking.RebuildsExactly` | prisma/schema.prisma:132 | A rebuild goes through if and only if no user it would keep holds a row of the period under another start: rows are unique by user and period, and only the rows of the rebuilt start are deleted first |
| `Ranking.JobsFreeze` | src/ranking/ranking.service.ts:82-87 | While a user the daily rebuild would keep holds a daily row of another day, no run of the job changes any row of any period |
| `Ranking.SameLeaderFreezesRankings` | src/ranking/ranking.service.ts:82-87 | Witness from an empty table: after the first job, as long as the same user leads by coins, no job of a later day changes the table |
| `Ranking.OlderStartsAreRead` | src/ranking/ranking.repository.ts:70-92 | After a rebuild that goes through a query reads the new rows and every row of another start, so only the rebuilt start if and only if the table held no other of the period; after a refused one it reads the old table |
| `Ranking.TotalsAreSums` | src/ranking/ranking.service.ts:22-26 | The running map is each user's sum of scores, for exactly the users with a result |
| `Ranking.TopOfPart` | src/ranking/ranking.service.ts:33-50 | The top of a part that contains the top of the whole is the top of the whole |
| `Ranking.SnapshotIsSmall` | src/ranking/ranking.service.ts:57-57 | At most eight users are kept |
| `RankingService.RankingService.RebuildSnapshot` | src/ranking/ranking.service.ts:11-79 | The job leaves the table as the model's rebuild, or untouched with a unique-key error |
| `RankingService.RankingService.RunSnapshotJobOnce` | src/ranking/ranking.service.ts:82-87 | Daily, weekly and monthly in turn; the first refusal ends the job with what is done |
| `RankingService.RankingRepository.ReplaceSnapshot` | src/ranking/ranking.repository.ts:51-67 | Rows of the period start are deleted and the list inserted, or, when an inserted user and period is already there, neither |
| `RankingService.RankingService.RebuildAndRank` | src/ranking/ranking.service.ts:11-125 | Rebuilding and asking at once gives the true coin top four and the true positive score top four |
| `Friends.EveryRunOk` | prisma/schema.prisma:138-166 | In every run no self row, at most one row per two users, and no friend row across a block in either direction |
| `Friends.RelationsMirror` | src/friend/entities/mappers/friend.mapper.ts:194-215 | FRIEND is symmetric and SENT on one side is RECEIVED on the other |
| `FriendLaws.EventsActAsStated` | src/friend/friend.service.ts:90-150 | After any run, said of relations alone: a request, cancel, answer, removal, block or unblock is accepted exactly under the stated relation of its two users, makes them what is stated on both sides (an accepted answer FRIEND, a refusal nothing), and concerns no other pair |
| `Friends.ListIsExact` | src/friend/friend.service.ts:47-84 | Whatever order the rows come in, the list names each related user once with its relation, leaving out exactly those not blocked who have no profile |
| `Friends.ListsMirror` | src/friend/friend.service.ts:47-84 | In every run two users' lists mirror each other |
| `Friends.SearchIsExact` | src/friend/friend.service.ts:172-213 | A search finds exactly the list entries that match the keyword and have a profile |
| `Friends.SearchFiltersList` | src/friend/entities/mappers/friend.mapper.ts:98-133 | When everybody listed has a profile, searching is filtering the list, entry for entry |
| `FriendLists.SortSorts` | src/friend/friend.service.ts:247-280 | Both display sorts leave no pair out of order: by relation and, among friends, online first and then nickname; by online and level in a search |
| `FriendLists.SortIsStable` | src/friend/friend.service.ts:247-280 | Entries the comparator does not tell apart stay in the order they came in |
| `FriendLists.StableSortUnique` | src/friend/friend.service.ts:247-280 | Being in order and keeping ties determines the shown list |
| `FriendLists.ShownListIsExact` | src/friend/friend.service.ts:247-271 | The shown friend list holds each related user once with relation, presence and level, in order |
| `FriendLists.ShownInOrder` | src/friend/friend.service.ts:247-271 | Received before sent before friends before blocked; among friends online first, then by the collation |
| `FriendLists.FoundInOrder` | src/friend/friend.service.ts:273-280 | In a search online first, then the higher level |
| `FriendLists.NicknamesIgnoreCase` | src/friend/friend.service.ts:282-291 | A nickname keyword matches exactly where it occurs in the nickname, whatever the case of basic letters |
| `FriendLists.TagsAreFound` | src/friend/friend.service.ts:26-35 | Four digits, with or without a leading # and blanks around, search by that tag |
| `FriendLists.OthersAreNicknames` | src/friend/friend.service.ts:26-35 | Any other keyword searches by nickname, without the blanks around and one leading # |
| `FriendLists.BlankFindsEverybody` | src/friend/friend.service.ts:282-291 | A blank keyword matches every user |
| `FriendService.FriendService.SendRequest` | src/friend/friend.service.ts:90-102 | A request is a step of the model, checks in the code's order |
| `FriendService.FriendService.CancelRequest` | src/friend/friend.service.ts:104-117 | Only the requester, only while pending |
| `FriendService.FriendService.RespondFriendRequest` | src/friend/friend.service.ts:119-141 | Only the receiver, only while pending; accepting marks the row accepted, refusing deletes it |
| `FriendService.FriendService.RemoveFriend` | src/friend/friend.service.ts:143-150 | Only an accepted row |
| `FriendService.FriendService.BlockUser` | src/block/block.service.ts:43-63 | Deletes the row in either direction before the block is written |
| `FriendService.FriendService.UnblockUser` | src/block/block.service.ts:65-77 | Only an existing block |
| `FriendService.FriendService.GetFriendList` | src/friend/friend.service.ts:47-84 | The loops, filters and sort give the model's list in display order, for some order of the rows |
| `FriendService.FriendService.SearchFriendsWithRelation` | src/friend/friend.service.ts:172-213 | The keyword split, loops, filters and sort give the model's search in display order, for some order of the rows |
| `FriendService.BuildEntries` | src/friend/entities/mappers/friend.mapper.ts:115-132 | One entry per listed user with a row or a block |
| `FriendService.MapRows` | src/friend/entities/mappers/friend.mapper.ts:107-113 | A later row of the same user replaces an earlier one |

## Left out

- Socket, HTTP and Swagger layers, DTO validation, exception filters, logging and broadcasts: only the service step an event triggers is modelled.
- The debugging handler that stores arbitrary phases (src/game/topic/topic.gateway.ts:62-103): it voids every invariant.
- Redis and Prisma: maps and keyed tables with atomic transactions and unique keys; expiry and connection failures are not modelled, and printing and parsing of stored JSON are taken as inverse.
- Interleavings of handlers other than the two split in `SummaryRaces`; in particular two item uses between the read and the decrement, two crossing friend requests, and two settings updates at once.
- Liveness of timed phases: the code does not guarantee it.
- Leftovers.ListStaysUntilCommit: a stroke list also expires an hour after its last line (src/game/drawing/drawing.service.ts:40-46); the results on leftovers hold within that hour.
- Outfits, the tool and color of a line, and chat: carried along without affecting a decision modelled here.
- DrawingKeys.Number: reads digit strings and the empty string; the other spellings JavaScript accepts (signs, exponents, blanks, hexadecimal) read as not a number.
- GameTypes.Trim: strips space, tab, newline and carriage return only.
- Friends.Lower: lower-cases the 26 basic letters only.
- FriendLists.CardOf: presence and the place the Korean collation gives a nickname are inputs.
- Sizes and points of a line are integers; a stored line of the wrong shape is any list of points of odd or too short length, or a size not above 0.
- Item specifications, target nicknames and the effect payload of a use: the specification is an input of the use.
- Room passwords are compared outside; the hash is kept as the text it came from.
- Foreign keys of match results and room members, and match status: rows referred to are assumed to exist.
- A stored state without a match id, without a member map, or with a member id that is not a number: the model's state always has them, so those errors of the drawing service cannot arise.
- Calendar bounds of ranking periods, and the choice of results within them: inputs.
- Shop, wardrobe, outfit conversion, room paging, signup, tokens and roles, friend recommendations, and the user search among strangers.
- Random theme and selector choice: arbitrary inputs; phase instances are numbered instead of given random identifiers.
