/**
 * The session service of one room as it runs: stored state patched in place, timer map and
 * guard, stores called in sequence. Each handler is proved to be one step of GameSession.
 */
module SessionService {
  import opened Collections
  import opened DrawingKeys
  import opened GameTypes
  import opened Scoring
  import opened DrawingPipeline
  import opened Entities
  import opened Stores
  import SessionLoops
  import S = GameSession

  datatype DrawingRow = DrawingRow(key: DrawingKey, lines: seq<DrawLine>)

  class GameSessionService {
    const drawingStore: DrawingStore
    const drawingRepository: DrawingRepository
    const voteRepository: EvaluationVoteRepository
    var game: Option<GameState>
    var timers: map<nat, Timer>
    var phaseTimer: Option<nat>
    var returnTimer: Option<nat>
    var nextTimer: nat
    var summaryTransitionGuard: bool
    var nextInstance: nat

    ghost predicate Valid() {
      voteRepository.drawingRepository == drawingRepository
    }

    ghost function World(): World
      reads this, drawingStore, drawingRepository, voteRepository
    {
      GameTypes.World(game, Tables(drawingStore.strokes, drawingRepository.drawings, voteRepository.votes),
                      Timing(timers, phaseTimer, returnTimer, nextTimer), summaryTransitionGuard, nextInstance)
    }

    constructor (drawingStore: DrawingStore, drawingRepository: DrawingRepository, voteRepository: EvaluationVoteRepository)
      requires voteRepository.drawingRepository == drawingRepository
      ensures Valid() && this.drawingStore == drawingStore && this.drawingRepository == drawingRepository
      ensures this.voteRepository == voteRepository
      ensures game == None && timers == map[] && !summaryTransitionGuard
    {
      this.drawingStore := drawingStore;
      this.drawingRepository := drawingRepository;
      this.voteRepository := voteRepository;
      game, timers, phaseTimer, returnTimer, nextTimer := None, map[], None, None, 0;
      summaryTransitionGuard, nextInstance := false, 0;
    }

    // ---------- timers ----------

    method ClearPhaseTimer()
      modifies this`timers, this`phaseTimer
      ensures World() == S.ClearPhaseTimer(old(World()))
    {
      if phaseTimer.Some? {
        timers := timers - {phaseTimer.value};
        phaseTimer := None;
      }
    }

    method SetTimeout(task: Task, g: GameState) returns (id: nat)
      modifies this`timers, this`nextTimer
      ensures id == old(nextTimer) && nextTimer == id + 1
      ensures timers == old(timers)[id := Timer(task, g.matchId, Round(g))]
    {
      id := nextTimer;
      timers := timers[id := Timer(task, g.matchId, Round(g))];
      nextTimer := nextTimer + 1;
    }

    method SchedulePhaseTimer(task: Task, g: GameState)
      modifies this`timers, this`phaseTimer, this`nextTimer
      ensures World() == old(World()).(timing := S.Arm(S.ClearPhase(old(World()).timing), task, g))
    {
      ClearPhaseTimer();
      var timer := SetTimeout(task, g);
      phaseTimer := Some(timer);
    }

    method CancelReturn()
      modifies this`timers, this`returnTimer
      ensures World() == old(World()).(timing := S.CancelReturn(old(World()).timing))
    {
      if returnTimer.Some? {
        timers := timers - {returnTimer.value};
        returnTimer := None;
      }
    }

    // ---------- LOADING and THEME_SELECTING ----------

    method InitializeGameState(matchId: nat, memberOf: map<nat, nat>, now: int)
      modifies this
      ensures World() == S.InitializeGame(old(World()), matchId, memberOf, now)
    {
      var g := GameState(LOADING, Some(now + LOADING_PHASE_DURATION_MS), Some(1), Some(TOTAL_ROUNDS), matchId, memberOf,
                         None, [], map[], NoContext);
      game := Some(g);
      var _ := SetTimeout(StartThemes, g);
    }

    method LoadingEnds(env: Env) returns (reply: Reply)
      modifies this
      ensures Effect(World(), reply) == S.LoadingEnds(old(World()), env)
    {
      if game.None? || game.value.phase != LOADING { return Ignored; }
      if env.selector.None? { return Ignored; }
      var entity := new GameSessionEntity.Restore(game.value);
      var r := entity.StartThemeSelection(env.selector.value, env.now);
      game := Some(entity.state);
      return Done;
    }

    method StartDrawingPhase(userId: nat, typedValue: string, env: Env) returns (reply: Reply)
      modifies this
      ensures Effect(World(), reply) == S.StartDrawingPhase(old(World()), userId, typedValue, env)
    {
      if game.None? { return Refused(STATE_NOT_FOUND); }
      var state := game.value;
      ClearPhaseTimer();
      var entity := new GameSessionEntity.Restore(state);
      var trimmed := Trim(typedValue);
      var theme := if trimmed != "" then trimmed else env.theme;
      var memberUserIds := Ascending(state.memberOf.Keys);
      var activeUserIds := Keep(memberUserIds, env.connected);
      var r := entity.StartDrawing(userId, theme, activeUserIds, nextInstance, env.now);
      if r.Err? { return Refused(r.error); }
      game := Some(entity.state);
      var timer := SetTimeout(EndDrawing(nextInstance), entity.state);
      nextInstance := nextInstance + 1;
      phaseTimer := Some(timer);
      return Done;
    }

    method ForceStartDrawingPhase(selectedTopic: string, env: Env) returns (reply: Reply)
      modifies this
      ensures Effect(World(), reply) == S.ForceStartDrawing(old(World()), selectedTopic, env)
    {
      if game.None? { return Ignored; }
      var state := game.value;
      ClearPhaseTimer();
      var activeUserIds := Keep(Ascending(state.memberOf.Keys), env.connected);
      var currentRound := OrIfZero(state.currentRound, 1);
      var totalRounds := OrIfZero(state.totalRounds, TOTAL_ROUNDS);
      var patched := state.(phase := DRAWING, currentTheme := Some(selectedTopic),
                            endsAt := Some(env.now + DRAWING_DURATION_MS), currentRound := Some(currentRound),
                            totalRounds := Some(totalRounds),
                            phaseContext := DrawingContext(nextInstance, activeUserIds, []),
                            recentThemes := RecordTheme(selectedTopic, state.recentThemes));
      game := Some(patched);
      var timer := SetTimeout(EndDrawing(nextInstance), patched);
      nextInstance := nextInstance + 1;
      phaseTimer := Some(timer);
      return Done;
    }

    // ---------- DRAWING ----------

    method SendDrawingLine(userId: nat, line: DrawLine) returns (reply: Reply)
      modifies drawingStore
      ensures Effect(World(), reply) == S.SendDrawingLine(old(World()), userId, line)
    {
      if game.None? { return Refused(STATE_NOT_FOUND); }
      var state := game.value;
      if !state.phaseContext.DrawingContext? { return Refused(CONTEXT_INVALID); }
      if userId !in state.phaseContext.activeUserIds { return Refused(USER_NOT_ACTIVE); }
      drawingStore.AppendStroke(Or(state.currentRound, 1), userId, line);
      return Done;
    }

    method SubmitDrawing(userId: nat, env: Env) returns (reply: Reply)
      requires Valid()
      modifies this, drawingStore, drawingRepository
      ensures Effect(World(), reply) == S.Submit(old(World()), userId, env)
    {
      if game.None? { return Refused(STATE_NOT_FOUND); }
      var state := game.value;
      if !state.phaseContext.DrawingContext? { return Refused(CONTEXT_INVALID); }
      var entity := new DrawingPhaseContextEntity.FromPhaseContext(state.phaseContext);
      var r := entity.MarkReady(userId);
      if r.Err? { return Refused(r.error); }
      game := Some(state.(phaseContext := entity.ToPlain()));
      if entity.IsReadyToAdvance() {
        reply := AdvanceToEvaluating(None, env);
      } else {
        reply := Done;
      }
    }

    /** Every active user's row is prepared before any is written, so a missing member id writes nothing. */
    method CommitAllActiveUsersToDb(g: GameState, round: nat, activeUserIds: seq<nat>) returns (r: Result<(), Error>)
      modifies drawingRepository
      ensures r == if forall u | u in activeUserIds :: u in g.memberOf then Ok(()) else Err(ROOM_MEMBER_ID_MISSING)
      ensures drawingRepository.drawings ==
              if forall u | u in activeUserIds :: u in g.memberOf
              then S.CommitRows(g, round, activeUserIds, drawingStore.strokes, old(drawingRepository.drawings))
              else old(drawingRepository.drawings)
    {
      var rows: seq<DrawingRow> := [];
      for i := 0 to |activeUserIds|
        invariant drawingRepository.drawings == old(drawingRepository.drawings)
        invariant |rows| == i && forall j | 0 <= j < i ::
                    && activeUserIds[j] in g.memberOf
                    && rows[j] == DrawingRow(DrawingKey(g.matchId, g.memberOf[activeUserIds[j]], round),
                                             StrokesAt(drawingStore.strokes, StrokeKey(round, activeUserIds[j])))
      {
        if activeUserIds[i] !in g.memberOf { return Err(ROOM_MEMBER_ID_MISSING); }
        var lines := drawingStore.LoadStrokes(round, activeUserIds[i]);
        rows := rows + [DrawingRow(DrawingKey(g.matchId, g.memberOf[activeUserIds[i]], round), lines)];
      }
      for i := 0 to |rows|
        invariant drawingRepository.drawings ==
                  S.CommitRows(g, round, activeUserIds[..i], drawingStore.strokes, old(drawingRepository.drawings))
      {
        assert activeUserIds[..i + 1][..i] == activeUserIds[..i];
        drawingRepository.Upsert(rows[i].key, rows[i].lines);
      }
      assert activeUserIds[..|activeUserIds|] == activeUserIds;
      return Ok(());
    }

    method ForceCommitForEvaluating(g: GameState, round: nat, activeUserIds: seq<nat>) returns (r: Result<(), Error>)
      modifies drawingStore, drawingRepository
      ensures r == if forall u | u in activeUserIds :: u in g.memberOf then Ok(()) else Err(ROOM_MEMBER_ID_MISSING)
      ensures Tables(drawingStore.strokes, drawingRepository.drawings, voteRepository.votes) ==
              if forall u | u in activeUserIds :: u in g.memberOf then S.Committed(g, round, activeUserIds, old(World()).tables)
              else old(World()).tables
    {
      r := CommitAllActiveUsersToDb(g, round, activeUserIds);
      if r.Err? { return; }
      drawingStore.CleanupStrokes(round, activeUserIds);
    }

    method GetDrawingsByUserId(g: GameState, round: nat) returns (r: Result<map<nat, seq<DrawLine>>, Error>)
      ensures r.Ok? <==> Injective(g.memberOf)
      ensures r == if r.Ok? then Ok(S.DrawingsByUser(g, round, drawingRepository.drawings))
                   else Err(ROOM_MEMBER_ID_DUPLICATED)
    {
      var inverted := SessionLoops.InvertMembersOrThrow(g.memberOf);
      if inverted.Err? { return Err(inverted.error); }
      var rows := drawingRepository.FindManyByMatchIdAndRound(g.matchId, round);
      var out := SessionLoops.KeyRowsByUser(g, round, drawingRepository.drawings, rows, inverted.value);
      return Ok(out);
    }

    method CommitAndEvaluate(g: GameState, round: nat, active: seq<nat>, now: int) returns (reply: Reply)
      requires Valid()
      modifies this, drawingStore, drawingRepository
      ensures Effect(World(), reply) == S.CommitAndEvaluate(old(World()), g, round, active, now)
    {
      var committed := ForceCommitForEvaluating(g, round, active);
      if committed.Err? { return Refused(committed.error); }
      var drawings := GetDrawingsByUserId(g, round);
      if drawings.Err? { return Refused(drawings.error); }
      var patched := g.(phase := EVALUATING, endsAt := Some(now + EVALUATING_DURATION_MS),
                        phaseContext := EvaluatingContext(active, []));
      game := Some(patched);
      ClearPhaseTimer();
      summaryTransitionGuard := false;
      SchedulePhaseTimer(EndEvaluating, patched);
      return Done;
    }

    method AdvanceToEvaluating(expected: Option<nat>, env: Env) returns (reply: Reply)
      requires Valid()
      modifies this, drawingStore, drawingRepository
      ensures Effect(World(), reply) == S.AdvanceToEvaluating(old(World()), expected, env)
    {
      if game.None? || game.value.phase != DRAWING { return Ignored; }
      var state := game.value;
      if !state.phaseContext.DrawingContext? { return Ignored; }
      var drawingCtx := state.phaseContext;
      if expected.Some? && drawingCtx.phaseInstanceId != expected.value { return Ignored; }
      if OrIfZero(state.currentRound, 0) == 0 { return Ignored; }
      var round := state.currentRound.value;
      if !env.itemsSettled { return Refused(INVENTORY_NEGATIVE); }

      var active := drawingCtx.activeUserIds;
      reply := CommitAndEvaluate(state, round, active, env.now);
    }

    /** What one socket receives when the evaluation starts; a socket without a user is skipped. */
    method EmitStartEvaluation(g: GameState, round: nat, viewer: nat) returns (sent: seq<SentDrawing>, targets: seq<nat>)
      requires Injective(g.memberOf)
      ensures
        var byUser := S.DrawingsByUser(g, round, drawingRepository.drawings);
        multiset(targets) == multiset(OtherUsers(byUser, viewer)) && sent == Deliver(g, round, byUser, targets)
    {
      var r := GetDrawingsByUserId(g, round);
      sent, targets := SessionLoops.DrawingsForViewer(g, round, r.value, viewer);
    }

    // ---------- EVALUATING ----------

    method SubmitEvaluation(userId: nat, drawingId: string, score: int) returns (reply: Reply)
      requires Valid()
      modifies voteRepository
      ensures Effect(World(), reply) == S.SubmitVote(old(World()), userId, drawingId, score)
    {
      if game.None? { return Refused(STATE_NOT_FOUND); }
      var state := game.value;
      if state.phase != EVALUATING { return Refused(INVALID_PHASE); }
      if !(SCORE_MIN <= score <= SCORE_MAX) { return Refused(INVALID_SCORE); }
      if state.currentRound.None? { return Refused(ROUND_MISSING); }
      var round := state.currentRound.value;
      var key := ParseDrawingId(drawingId);
      if key.None? { return Refused(DRAWING_ID_INVALID); }
      if key.value.matchId != state.matchId || key.value.round != round { return Refused(DRAWING_ID_INVALID); }
      if userId !in state.memberOf { return Refused(CONTEXT_INVALID); }
      if state.memberOf[userId] == key.value.memberId { return Refused(SELF_EVALUATION_NOT_ALLOWED); }
      if key.value.memberId !in state.memberOf.Values { return Refused(DRAWING_ID_INVALID); }
      var r := voteRepository.UpsertVoteByDrawingKey(key.value, userId, score);
      if r.Err? { return Refused(r.error); }
      return Done;
    }

    method ToggleEvaluationReady(userId: nat, env: Env) returns (reply: Reply)
      requires Valid() && game.Some? && game.value.phase == EVALUATING
      modifies this
      ensures Effect(World(), reply) == S.ToggleEvaluationReady(old(World()), old(game).value, userId, env)
    {
      var state := game.value;
      var ctx := state.phaseContext;
      if !ctx.EvaluatingContext? { return Refused(CONTEXT_INVALID); }
      var alreadyReady := userId in ctx.readyUserIds;
      if !alreadyReady {
        if state.currentRound.None? { return Refused(EVALUATION_INCOMPLETE); }
        var required := |Without(ctx.activeUserIds, userId)|;
        var submitted := voteRepository.CountDistinctTargetsByVoter(state.matchId, state.currentRound.value, userId);
        if submitted < required { return Refused(EVALUATION_INCOMPLETE); }
      }
      var nextReady := if alreadyReady then Without(ctx.readyUserIds, userId) else Dedup(ctx.readyUserIds + [userId]);
      game := Some(state.(phaseContext := EvaluatingContext(ctx.activeUserIds, nextReady)));
      if S.IsAllReady(game.value.phaseContext) {
        reply := AdvanceToRoundSummary(env);
      } else {
        reply := Done;
      }
    }

    method ComputeRoundSummary(g: GameState) returns (r: Result<S.RoundSummary, Error>)
      requires Valid()
      ensures r == S.ComputeRoundSummary(g, drawingRepository.drawings, voteRepository.votes)
    {
      var ctx := g.phaseContext;
      if !ctx.EvaluatingContext? { return Err(CONTEXT_INVALID); }
      if g.currentRound.None? { return Err(ROUND_MISSING); }
      var round := g.currentRound.value;
      var roundScores := voteRepository.SumRatingsByDrawingKey(g.matchId, round);
      var updatedTotals := SessionLoops.MergeTotals(g.totalScores, roundScores);
      var rankings := SessionLoops.BuildRankings(g, ctx.activeUserIds, round, roundScores, updatedTotals);
      var drawingsById := drawingRepository.GetDrawingsByMatchAndRound(g.matchId, round);
      if drawingsById.Err? { return Err(drawingsById.error); }
      return Ok(S.RoundSummary(RoundSummaryContext(rankings, drawingsById.value, []), updatedTotals));
    }

    method EnterRoundSummary(g: GameState, summary: S.RoundSummary, now: int)
      requires phaseTimer.None? && summaryTransitionGuard
      modifies this
      ensures World() == S.EnterRoundSummary(old(World()), g, summary, now)
    {
      var patched := g.(phase := ROUND_SUMMARY, endsAt := Some(now + ROUND_SUMMARY_DURATION_MS),
                        phaseContext := summary.context, totalScores := summary.totals);
      game := Some(patched);
      SchedulePhaseTimer(EndSummary, patched);
    }

    method AdvanceToRoundSummary(env: Env) returns (reply: Reply)
      requires Valid()
      modifies this
      ensures Effect(World(), reply) == S.AdvanceToRoundSummary(old(World()), env)
    {
      if game.None? { return Refused(STATE_NOT_FOUND); }
      if game.value.phase != EVALUATING { return Ignored; }
      if summaryTransitionGuard { return Ignored; }
      summaryTransitionGuard := true;
      var state := game.value;
      ClearPhaseTimer();
      var summary := ComputeRoundSummary(state);
      if summary.Err? {
        summaryTransitionGuard := false;
        return Refused(summary.error);
      }
      EnterRoundSummary(state, summary.value, env.now);
      return Done;
    }

    // ---------- ROUND_SUMMARY and FINISHED ----------

    method ToggleSummaryReady(userId: nat, env: Env) returns (reply: Reply, finalResults: seq<Placed>)
      requires game.Some? && game.value.phase == ROUND_SUMMARY
      modifies this
      ensures Effect(World(), reply) == S.ToggleSummaryReady(old(World()), old(game).value, userId, env)
    {
      finalResults := [];
      var state := game.value;
      if userId !in state.memberOf { return Ignored, []; }
      var ctx := state.phaseContext;
      if !ctx.RoundSummaryContext? { return Ignored, []; }
      var wasReady := userId in ctx.readyUserIds;
      var nextReady := if wasReady then Without(ctx.readyUserIds, userId) else ctx.readyUserIds + [userId];
      game := Some(state.(phaseContext := RoundSummaryContext(ctx.rankings, ctx.drawingsById, nextReady)));
      if |state.memberOf| > 0 && forall u | u in state.memberOf :: u in nextReady {
        reply, finalResults := AdvanceFromRoundSummary(env);
      } else {
        reply := Done;
      }
    }

    /** On the last round the standings of the merged totals are what is handed to the payout. */
    method AdvanceFromRoundSummary(env: Env) returns (reply: Reply, finalResults: seq<Placed>)
      modifies this
      ensures Effect(World(), reply) == S.AdvanceFromRoundSummary(old(World()), env)
      ensures old(game).Some? && old(game).value.phase == ROUND_SUMMARY && IsLastRound(old(game).value) ==>
                finalResults == FinalResults(FinalScores(old(game).value.memberOf, old(game).value.totalScores))
    {
      finalResults := [];
      if game.None? || game.value.phase != ROUND_SUMMARY { return Ignored, []; }
      var state := game.value;
      ClearPhaseTimer();
      var entity := new GameSessionEntity.Restore(state);
      if IsLastRound(state) {
        var r := entity.AdvanceToFinished();
        game := Some(entity.state);
        var scores := SessionLoops.ComputeFinalScores(entity.state.memberOf, entity.state.totalScores);
        finalResults := SessionLoops.BuildFinalResults(scores);
        if !env.payoutStored { return Refused(PAYOUT_FAILED), finalResults; }
        CancelReturn();
        var timer := SetTimeout(ReturnToWaiting, state);
        returnTimer := Some(timer);
        return Done, finalResults;
      }
      if env.selector.None? { return Ignored, []; }
      var r := entity.AdvanceToThemeSelecting(env.now + THEME_SELECTING_DURATION_MS, env.selector.value);
      game := Some(entity.state);
      return Done, [];
    }

    method ReturnRoomToWaiting() returns (reply: Reply)
      modifies this
      ensures Effect(World(), reply) == S.ReturnRoom(old(World()))
    {
      if game.None? || game.value.phase != FINISHED {
        reply := Ignored;
      } else {
        game := Some(game.value.(phase := WAITING, endsAt := None, phaseContext := NoContext, currentTheme := None));
        reply := Done;
      }
      CancelReturn();
    }

    // ---------- disconnects, ready toggles, timers ----------

    method LeaveThemeSelecting(g: GameState, userId: nat, env: Env) returns (reply: Reply)
      requires game == Some(g)
      modifies this
      ensures Effect(World(), reply) == S.LeaveThemeSelecting(old(World()), g, userId, env)
    {
      if g.phaseContext.ThemeContext? && g.phaseContext.selectorId == userId && env.theme != "" {
        reply := ForceStartDrawingPhase(env.theme, env);
      } else {
        reply := Done;
      }
    }

    method LeaveDrawing(g: GameState, userId: nat, env: Env) returns (reply: Reply)
      requires Valid() && game == Some(g)
      modifies this, drawingStore, drawingRepository
      ensures Effect(World(), reply) == S.LeaveDrawing(old(World()), g, userId, env)
    {
      if !g.phaseContext.DrawingContext? { return Done; }
      var entity := new DrawingPhaseContextEntity.FromPhaseContext(g.phaseContext);
      var removed := entity.RemoveUser(userId);
      if !removed { return Done; }
      game := Some(g.(phaseContext := entity.ToPlain()));
      if !entity.IsReadyToAdvance() { return Done; }
      reply := AdvanceToEvaluating(None, env);
    }

    method LeaveEvaluating(g: GameState, userId: nat, env: Env) returns (reply: Reply)
      requires Valid() && game == Some(g)
      modifies this
      ensures Effect(World(), reply) == S.LeaveEvaluating(old(World()), g, userId, env)
    {
      var ctx := g.phaseContext;
      if !ctx.EvaluatingContext? || userId !in ctx.activeUserIds { return Done; }
      var next := EvaluatingContext(Without(ctx.activeUserIds, userId), Without(ctx.readyUserIds, userId));
      game := Some(g.(phaseContext := next));
      if !S.IsAllReady(next) { return Done; }
      reply := AdvanceToRoundSummary(env);
    }

    method LeavePhase(g: GameState, userId: nat, env: Env) returns (reply: Reply)
      requires Valid() && game == Some(g)
      modifies this, drawingStore, drawingRepository
      ensures Effect(World(), reply) == S.LeavePhase(old(World()), g, userId, env)
    {
      if g.phase == THEME_SELECTING {
        reply := LeaveThemeSelecting(g, userId, env);
      } else if g.phase == DRAWING {
        reply := LeaveDrawing(g, userId, env);
      } else if g.phase == EVALUATING {
        reply := LeaveEvaluating(g, userId, env);
      } else {
        reply := Done;
      }
    }

    method Abort()
      modifies this
      ensures World() == S.ClearPhaseTimer(old(World())).(game := None)
    {
      ClearPhaseTimer();
      game := None;
    }

    method HandleDisconnect(userId: nat, env: Env) returns (reply: Reply)
      requires Valid()
      modifies this, drawingStore, drawingRepository
      ensures Effect(World(), reply) == S.HandleDisconnect(old(World()), userId, env)
    {
      if game.None? { return Ignored; }
      var state := game.value;
      var remainingMembers := state.memberOf - {userId};
      if |remainingMembers| <= 1 {
        Abort();
        return Done;
      }
      var patched := state.(memberOf := remainingMembers);
      game := Some(patched);
      reply := LeavePhase(patched, userId, env);
    }

    method OnReadyToggle(userId: nat, env: Env) returns (reply: Reply)
      requires Valid()
      modifies this
      ensures Effect(World(), reply) == S.ToggleReady(old(World()), userId, env)
    {
      if game.None? { return Refused(STATE_NOT_FOUND); }
      if game.value.phase == EVALUATING {
        reply := ToggleEvaluationReady(userId, env);
      } else if game.value.phase == ROUND_SUMMARY {
        var finalResults;
        reply, finalResults := ToggleSummaryReady(userId, env);
      } else {
        reply := Refused(INVALID_PHASE);
      }
    }

    method OnTimeout(timer: nat, env: Env) returns (reply: Reply)
      requires Valid()
      modifies this, drawingStore, drawingRepository
      ensures Effect(World(), reply) == S.Fire(old(World()), timer, env)
    {
      if timer !in timers { return Ignored; }
      var task := timers[timer].task;
      timers := timers - {timer};
      match task
      case StartThemes => reply := LoadingEnds(env);
      case EndDrawing(instance) => reply := AdvanceToEvaluating(Some(instance), env);
      case EndEvaluating =>
        if game.None? || game.value.phase != EVALUATING { return Ignored; }
        reply := AdvanceToRoundSummary(env);
      case EndSummary =>
        var finalResults;
        reply, finalResults := AdvanceFromRoundSummary(env);
      case ReturnToWaiting => reply := ReturnRoomToWaiting();
    }
  }
}
