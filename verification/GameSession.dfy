/**
 * The session protocol of one room: every client message, disconnect and timer
 * callback as one atomic step on the stored world. Each step takes the branches
 * of its handler in order, including what a handler has already changed when it
 * goes on to fail.
 */
module GameSession {
  import opened Collections
  import opened DrawingKeys
  import opened Ordering
  import opened GameTypes
  import opened Scoring

  // ---------- timers ----------

  function ClearPhase(t: Timing): Timing {
    if t.phaseSlot.Some? then t.(timers := t.timers - {t.phaseSlot.value}, phaseSlot := None) else t
  }

  function Arm(t: Timing, task: Task, g: GameState): Timing {
    Timing(t.timers[t.nextTimer := Timer(task, g.matchId, Round(g))], Some(t.nextTimer), t.returnSlot, t.nextTimer + 1)
  }

  function CancelReturn(t: Timing): Timing {
    if t.returnSlot.Some? then t.(timers := t.timers - {t.returnSlot.value}, returnSlot := None) else t
  }

  function ArmReturn(t: Timing, g: GameState): Timing {
    var c := CancelReturn(t);
    Timing(c.timers[c.nextTimer := Timer(ReturnToWaiting, g.matchId, Round(g))], c.phaseSlot, Some(c.nextTimer),
           c.nextTimer + 1)
  }

  ghost function ClearPhaseTimer(w: World): World {
    w.(timing := ClearPhase(w.timing))
  }

  // ---------- LOADING and THEME_SELECTING ----------

  /** A new match: the stored state is replaced and the untracked loading timer is set. */
  ghost function InitializeGame(w: World, matchId: nat, memberOf: map<nat, nat>, now: int): World {
    var g := GameState(LOADING, Some(now + LOADING_PHASE_DURATION_MS), Some(1), Some(TOTAL_ROUNDS), matchId,
                       memberOf, None, [], map[], NoContext);
    var t := w.timing;
    w.(game := Some(g),
       timing := t.(timers := t.timers[t.nextTimer := Timer(StartThemes, matchId, 1)], nextTimer := t.nextTimer + 1))
  }

  function ThemesStarted(g: GameState, selectorId: nat, now: int): GameState {
    g.(phase := THEME_SELECTING, endsAt := Some(now + THEME_SELECTING_DURATION_MS), currentTheme := None,
       phaseContext := ThemeContext(selectorId))
  }

  ghost function LoadingEnds(w: World, env: Env): Effect {
    if w.game.None? || w.game.value.phase != LOADING then Effect(w, Ignored)
    else if env.selector.None? then Effect(w, Ignored)
    else Effect(w.(game := Some(ThemesStarted(w.game.value, env.selector.value, env.now))), Done)
  }

  function DrawingStarted(g: GameState, theme: string, active: seq<nat>, instance: nat, now: int): GameState {
    g.(phase := DRAWING,
       currentTheme := Some(theme),
       endsAt := Some(now + DRAWING_DURATION_MS),
       currentRound := Some(OrIfZero(g.currentRound, 1)),
       totalRounds := Some(OrIfZero(g.totalRounds, TOTAL_ROUNDS)),
       phaseContext := DrawingContext(instance, active, []),
       recentThemes := RecordTheme(theme, g.recentThemes))
  }

  function StartDrawing(g: GameState, userId: nat, theme: string, active: seq<nat>, instance: nat, now: int)
    : Result<GameState, Error>
  {
    if g.phase != THEME_SELECTING then Err(PHASE_MUST_BE_THEME_SELECTING)
    else if !g.phaseContext.ThemeContext? then Err(CONTEXT_INVALID)
    else if g.phaseContext.selectorId != userId then Err(PERMISSION_DENIED_SELECTOR)
    else if Trim(theme) == "" then Err(THEME_INVALID)
    else Ok(DrawingStarted(g, Trim(theme), active, instance, now))
  }

  function ActiveMembers(g: GameState, connected: set<nat>): seq<nat> {
    Keep(Ascending(g.memberOf.Keys), connected)
  }

  /** A finalize cancels the room's phase timer before anything is validated. */
  ghost function StartDrawingPhase(w: World, userId: nat, typedValue: string, env: Env): Effect {
    if w.game.None? then Effect(w, Refused(STATE_NOT_FOUND))
    else
      var c := ClearPhaseTimer(w);
      var g := w.game.value;
      var theme := if Trim(typedValue) != "" then Trim(typedValue) else env.theme;
      var started := StartDrawing(g, userId, theme, ActiveMembers(g, env.connected), w.nextInstance, env.now);
      if started.Err? then Effect(c, Refused(started.error))
      else
        Effect(World(Some(started.value), w.tables, Arm(c.timing, EndDrawing(w.nextInstance), started.value),
                     w.summaryGuard, w.nextInstance + 1), Done)
  }

  ghost function ForceStartDrawing(w: World, topic: string, env: Env): Effect {
    if w.game.None? then Effect(w, Ignored)
    else
      var g := DrawingStarted(w.game.value, topic, ActiveMembers(w.game.value, env.connected), w.nextInstance, env.now);
      Effect(World(Some(g), w.tables, Arm(ClearPhase(w.timing), EndDrawing(w.nextInstance), g),
                   w.summaryGuard, w.nextInstance + 1), Done)
  }

  // ---------- DRAWING ----------

  ghost function SendDrawingLine(w: World, userId: nat, line: DrawLine): Effect {
    if w.game.None? then Effect(w, Refused(STATE_NOT_FOUND))
    else
      var g := w.game.value;
      if !g.phaseContext.DrawingContext? then Effect(w, Refused(CONTEXT_INVALID))
      else if userId !in g.phaseContext.activeUserIds then Effect(w, Refused(USER_NOT_ACTIVE))
      else
        var k := StrokeKey(Round(g), userId);
        Effect(w.(tables := w.tables.(strokes := w.tables.strokes[k := StrokesAt(w.tables.strokes, k) + [line]])), Done)
  }

  predicate IsReadyToAdvance(ctx: PhaseContext)
    requires ctx.DrawingContext?
  {
    |ctx.activeUserIds| > 0 && |ctx.readyUserIds| >= |ctx.activeUserIds|
  }

  function MarkReady(ctx: PhaseContext, userId: nat): PhaseContext
    requires ctx.DrawingContext?
  {
    if userId in ctx.readyUserIds then ctx
    else DrawingContext(ctx.phaseInstanceId, ctx.activeUserIds, ctx.readyUserIds + [userId])
  }

  function RemoveUser(ctx: PhaseContext, userId: nat): PhaseContext
    requires ctx.DrawingContext? || ctx.EvaluatingContext?
  {
    var active, ready := Without(ctx.activeUserIds, userId), Without(ctx.readyUserIds, userId);
    if ctx.DrawingContext? then DrawingContext(ctx.phaseInstanceId, active, ready) else EvaluatingContext(active, ready)
  }

  ghost function Submit(w: World, userId: nat, env: Env): Effect {
    if w.game.None? then Effect(w, Refused(STATE_NOT_FOUND))
    else
      var g := w.game.value;
      if !g.phaseContext.DrawingContext? then Effect(w, Refused(CONTEXT_INVALID))
      else if userId !in g.phaseContext.activeUserIds then Effect(w, Refused(USER_NOT_ACTIVE))
      else
        var ctx := MarkReady(g.phaseContext, userId);
        var marked := w.(game := Some(g.(phaseContext := ctx)));
        if IsReadyToAdvance(ctx) then AdvanceToEvaluating(marked, None, env) else Effect(marked, Done)
  }

  /** The rows upserted for the active users, one key per member of this match and round. */
  function CommitRows(g: GameState, round: nat, active: seq<nat>, strokes: map<StrokeKey, seq<DrawLine>>,
                      drawings: map<DrawingKey, seq<DrawLine>>): map<DrawingKey, seq<DrawLine>>
    requires forall u | u in active :: u in g.memberOf
  {
    if active == [] then drawings
    else
      var u := active[|active| - 1];
      CommitRows(g, round, active[..|active| - 1], strokes, drawings)
        [DrawingKey(g.matchId, g.memberOf[u], round) := StrokesAt(strokes, StrokeKey(round, u))]
  }

  function Cleanup(round: nat, active: seq<nat>, strokes: map<StrokeKey, seq<DrawLine>>): map<StrokeKey, seq<DrawLine>> {
    strokes - (set u | u in active :: StrokeKey(round, u))
  }

  function Committed(g: GameState, round: nat, active: seq<nat>, t: Tables): Tables
    requires forall u | u in active :: u in g.memberOf
  {
    Tables(Cleanup(round, active, t.strokes), CommitRows(g, round, active, t.strokes, t.drawings), t.votes)
  }

  function DrawingsByUser(g: GameState, round: nat, drawings: map<DrawingKey, seq<DrawLine>>): map<nat, seq<DrawLine>> {
    map u | u in g.memberOf && u != 0 && DrawingKey(g.matchId, g.memberOf[u], round) in drawings
      :: drawings[DrawingKey(g.matchId, g.memberOf[u], round)]
  }

  function EvaluatingStarted(g: GameState, active: seq<nat>, now: int): GameState {
    g.(phase := EVALUATING, endsAt := Some(now + EVALUATING_DURATION_MS), phaseContext := EvaluatingContext(active, []))
  }

  /** With items settled: commit unless somebody has no member id, then stop at a duplicated one or enter EVALUATING. */
  ghost function CommitAndEvaluate(w: World, g: GameState, round: nat, active: seq<nat>, now: int): Effect {
    if !(forall u | u in active :: u in g.memberOf) then Effect(w, Refused(ROOM_MEMBER_ID_MISSING))
    else if !Injective(g.memberOf) then
      Effect(w.(tables := Committed(g, round, active, w.tables)), Refused(ROOM_MEMBER_ID_DUPLICATED))
    else
      var tables := Committed(g, round, active, w.tables);
      var next := EvaluatingStarted(g, active, now);
      Effect(World(Some(next), tables, Arm(ClearPhase(w.timing), EndEvaluating, next), false, w.nextInstance), Done)
  }

  /**
   * DRAWING to EVALUATING. Items are settled first; then the active users' strokes are
   * committed and cleaned up; only then can a duplicated member id still stop the change.
   */
  ghost function AdvanceToEvaluating(w: World, expected: Option<nat>, env: Env): Effect {
    if w.game.None? || w.game.value.phase != DRAWING then Effect(w, Ignored)
    else
      var g := w.game.value;
      var ctx := g.phaseContext;
      if !ctx.DrawingContext? then Effect(w, Ignored)
      else if expected.Some? && ctx.phaseInstanceId != expected.value then Effect(w, Ignored)
      else if OrIfZero(g.currentRound, 0) == 0 then Effect(w, Ignored)
      else if !env.itemsSettled then Effect(w, Refused(INVENTORY_NEGATIVE))
      else CommitAndEvaluate(w, g, g.currentRound.value, ctx.activeUserIds, env.now)
  }

  // ---------- EVALUATING ----------

  predicate IsAllReady(ctx: PhaseContext)
    requires ctx.EvaluatingContext?
  {
    |ctx.activeUserIds| > 0 && forall u | u in ctx.activeUserIds :: u in ctx.readyUserIds
  }

  ghost function SubmitVote(w: World, userId: nat, drawingId: string, score: int): Effect {
    if w.game.None? then Effect(w, Refused(STATE_NOT_FOUND))
    else
      var g := w.game.value;
      if g.phase != EVALUATING then Effect(w, Refused(INVALID_PHASE))
      else if !(SCORE_MIN <= score <= SCORE_MAX) then Effect(w, Refused(INVALID_SCORE))
      else if g.currentRound.None? then Effect(w, Refused(ROUND_MISSING))
      else
        var key := ParseDrawingId(drawingId);
        if key.None? || key.value.matchId != g.matchId || key.value.round != g.currentRound.value
        then Effect(w, Refused(DRAWING_ID_INVALID))
        else if userId !in g.memberOf then Effect(w, Refused(CONTEXT_INVALID))
        else if g.memberOf[userId] == key.value.memberId then Effect(w, Refused(SELF_EVALUATION_NOT_ALLOWED))
        else if key.value.memberId !in g.memberOf.Values || key.value !in w.tables.drawings
        then Effect(w, Refused(DRAWING_ID_INVALID))
        else Effect(w.(tables := w.tables.(votes := w.tables.votes[VoteKey(key.value, userId) := score])), Done)
  }

  ghost predicate IsEvaluationComplete(g: GameState, votes: map<VoteKey, int>, userId: nat)
    requires g.phaseContext.EvaluatingContext?
  {
    g.currentRound.Some? &&
    |DistinctTargets(votes, g.matchId, g.currentRound.value, userId)| >= |Without(g.phaseContext.activeUserIds, userId)|
  }

  function ToggledEvaluation(ctx: PhaseContext, userId: nat): PhaseContext
    requires ctx.EvaluatingContext?
  {
    EvaluatingContext(ctx.activeUserIds,
                      if userId in ctx.readyUserIds then Without(ctx.readyUserIds, userId)
                      else Dedup(ctx.readyUserIds + [userId]))
  }

  ghost function ToggleEvaluationReady(w: World, g: GameState, userId: nat, env: Env): Effect
    requires w.game == Some(g) && g.phase == EVALUATING
  {
    var ctx := g.phaseContext;
    if !ctx.EvaluatingContext? then Effect(w, Refused(CONTEXT_INVALID))
    else if userId !in ctx.readyUserIds && !IsEvaluationComplete(g, w.tables.votes, userId)
    then Effect(w, Refused(EVALUATION_INCOMPLETE))
    else
      var next := ToggledEvaluation(ctx, userId);
      var toggled := w.(game := Some(g.(phaseContext := next)));
      if IsAllReady(next) then AdvanceToRoundSummary(toggled, env) else Effect(toggled, Done)
  }

  datatype RoundSummary = RoundSummary(context: PhaseContext, totals: map<string, int>)

  ghost function DrawingsById(drawings: map<DrawingKey, seq<DrawLine>>, matchId: nat, round: nat)
    : map<string, seq<DrawLine>>
  {
    IdsDiffer();
    var rows := OfRound(drawings, matchId, round);
    map id | id in (set d | d in rows :: DrawingId(d)) :: drawings[ParseDrawingId(id).value]
  }

  ghost function ComputeRoundSummary(g: GameState, drawings: map<DrawingKey, seq<DrawLine>>, votes: map<VoteKey, int>)
    : Result<RoundSummary, Error>
  {
    if !g.phaseContext.EvaluatingContext? then Err(CONTEXT_INVALID)
    else if g.currentRound.None? then Err(ROUND_MISSING)
    else
      var round := g.currentRound.value;
      var scores := RoundScores(drawings, votes, g.matchId, round);
      var totals := MergeTotals(g.totalScores, scores);
      var rankings := Sort(RankRows(g, g.phaseContext.activeUserIds, round, scores, totals));
      var rows := OfRound(drawings, g.matchId, round);
      if !(forall d | d in rows :: IsValidDrawData(drawings[d])) then Err(DRAW_DATA_INVALID)
      else
        Ok(RoundSummary(RoundSummaryContext(rankings, DrawingsById(drawings, g.matchId, round), []), totals))
  }

  ghost function EnterRoundSummary(w: World, g: GameState, summary: RoundSummary, now: int): World {
    var next := g.(phase := ROUND_SUMMARY, endsAt := Some(now + ROUND_SUMMARY_DURATION_MS),
                   phaseContext := summary.context, totalScores := summary.totals);
    World(Some(next), w.tables, Arm(w.timing, EndSummary, next), true, w.nextInstance)
  }

  /** EVALUATING to ROUND_SUMMARY. The guard stays taken until the next EVALUATING begins. */
  ghost function AdvanceToRoundSummary(w: World, env: Env): Effect {
    if w.game.None? then Effect(w, Refused(STATE_NOT_FOUND))
    else if w.game.value.phase != EVALUATING || w.summaryGuard then Effect(w, Ignored)
    else
      var c := ClearPhaseTimer(w);
      var g := w.game.value;
      var summary := ComputeRoundSummary(g, w.tables.drawings, w.tables.votes);
      if summary.Err? then Effect(c, Refused(summary.error))
      else Effect(EnterRoundSummary(c, g, summary.value, env.now), Done)
  }

  // ---------- ROUND_SUMMARY and FINISHED ----------

  function ToggledSummary(ctx: PhaseContext, userId: nat): PhaseContext
    requires ctx.RoundSummaryContext?
  {
    RoundSummaryContext(ctx.rankings, ctx.drawingsById,
                        if userId in ctx.readyUserIds then Without(ctx.readyUserIds, userId)
                        else ctx.readyUserIds + [userId])
  }

  ghost function ToggleSummaryReady(w: World, g: GameState, userId: nat, env: Env): Effect
    requires w.game == Some(g) && g.phase == ROUND_SUMMARY
  {
    if userId !in g.memberOf || !g.phaseContext.RoundSummaryContext? then Effect(w, Ignored)
    else
      var next := ToggledSummary(g.phaseContext, userId);
      var toggled := w.(game := Some(g.(phaseContext := next)));
      if |g.memberOf| > 0 && forall u | u in g.memberOf :: u in next.readyUserIds then AdvanceFromRoundSummary(toggled, env)
      else Effect(toggled, Done)
  }

  function NextRound(g: GameState, selectorId: nat, now: int): GameState {
    g.(phase := THEME_SELECTING, endsAt := Some(now + THEME_SELECTING_DURATION_MS), currentTheme := None,
       currentRound := Some(Round(g) + 1), phaseContext := ThemeContext(selectorId))
  }

  function Finished(g: GameState): GameState {
    g.(phase := FINISHED, endsAt := None, currentTheme := None, phaseContext := NoContext)
  }

  /** ROUND_SUMMARY to the next round, or to FINISHED where results are paid before the return is scheduled. */
  ghost function AdvanceFromRoundSummary(w: World, env: Env): Effect {
    if w.game.None? || w.game.value.phase != ROUND_SUMMARY then Effect(w, Ignored)
    else
      var c := ClearPhaseTimer(w);
      var g := w.game.value;
      if IsLastRound(g) then
        if env.payoutStored
        then Effect(c.(game := Some(Finished(g)), timing := ArmReturn(c.timing, g)), Done)
        else Effect(c.(game := Some(Finished(g))), Refused(PAYOUT_FAILED))
      else if env.selector.None? then Effect(c, Ignored)
      else Effect(c.(game := Some(NextRound(g, env.selector.value, env.now))), Done)
  }

  /** FINISHED to WAITING; whatever happens the room's return timer entry is dropped. */
  ghost function ReturnRoom(w: World): Effect {
    var c := w.(timing := CancelReturn(w.timing));
    if w.game.None? || w.game.value.phase != FINISHED then Effect(c, Ignored)
    else
      var g := w.game.value.(phase := WAITING, endsAt := None, phaseContext := NoContext, currentTheme := None);
      Effect(c.(game := Some(g)), Done)
  }

  // ---------- disconnects ----------

  ghost function LeaveThemeSelecting(w: World, g: GameState, userId: nat, env: Env): Effect {
    var shrunk := w.(game := Some(g));
    if g.phaseContext.ThemeContext? && g.phaseContext.selectorId == userId && env.theme != ""
    then ForceStartDrawing(shrunk, env.theme, env)
    else Effect(shrunk, Done)
  }

  ghost function LeaveDrawing(w: World, g: GameState, userId: nat, env: Env): Effect {
    var ctx := g.phaseContext;
    if !ctx.DrawingContext? || userId !in ctx.activeUserIds then Effect(w.(game := Some(g)), Done)
    else
      var removed := w.(game := Some(g.(phaseContext := RemoveUser(ctx, userId))));
      if IsReadyToAdvance(RemoveUser(ctx, userId)) then AdvanceToEvaluating(removed, None, env)
      else Effect(removed, Done)
  }

  ghost function LeaveEvaluating(w: World, g: GameState, userId: nat, env: Env): Effect {
    var ctx := g.phaseContext;
    if !ctx.EvaluatingContext? || userId !in ctx.activeUserIds then Effect(w.(game := Some(g)), Done)
    else
      var removed := w.(game := Some(g.(phaseContext := RemoveUser(ctx, userId))));
      if IsAllReady(RemoveUser(ctx, userId)) then AdvanceToRoundSummary(removed, env)
      else Effect(removed, Done)
  }

  function Leave(g: GameState, userId: nat): GameState {
    g.(memberOf := g.memberOf - {userId})
  }

  ghost function LeavePhase(w: World, g: GameState, userId: nat, env: Env): Effect {
    match g.phase
    case THEME_SELECTING => LeaveThemeSelecting(w, g, userId, env)
    case DRAWING => LeaveDrawing(w, g, userId, env)
    case EVALUATING => LeaveEvaluating(w, g, userId, env)
    case _ => Effect(w.(game := Some(g)), Done)
  }

  /** A departure shrinks the member map, ends the game when one is left, or may end the phase. */
  ghost function HandleDisconnect(w: World, userId: nat, env: Env): Effect {
    if w.game.None? then Effect(w, Ignored)
    else
      var g := Leave(w.game.value, userId);
      if |g.memberOf| <= 1 then Effect(ClearPhaseTimer(w).(game := None), Done)
      else LeavePhase(w, g, userId, env)
  }

  // ---------- one step ----------

  ghost function ToggleReady(w: World, userId: nat, env: Env): Effect {
    if w.game.None? then Effect(w, Refused(STATE_NOT_FOUND))
    else if w.game.value.phase == EVALUATING then ToggleEvaluationReady(w, w.game.value, userId, env)
    else if w.game.value.phase == ROUND_SUMMARY then ToggleSummaryReady(w, w.game.value, userId, env)
    else Effect(w, Refused(INVALID_PHASE))
  }

  /** A pending callback runs: it stops being pending, checks what its closure checks, and acts. */
  ghost function Fired(w: World, timer: nat): World {
    w.(timing := w.timing.(timers := w.timing.timers - {timer}))
  }

  ghost function Fire(w: World, timer: nat, env: Env): Effect {
    if timer !in w.timing.timers then Effect(w, Ignored)
    else
      var fired := Fired(w, timer);
      match w.timing.timers[timer].task
      case StartThemes => LoadingEnds(fired, env)
      case EndDrawing(instance) => AdvanceToEvaluating(fired, Some(instance), env)
      case EndEvaluating =>
        if w.game.None? || w.game.value.phase != EVALUATING then Effect(fired, Ignored)
        else AdvanceToRoundSummary(fired, env)
      case EndSummary => AdvanceFromRoundSummary(fired, env)
      case ReturnToWaiting => ReturnRoom(fired)
  }

  ghost function Step(w: World, e: Event, env: Env): Effect {
    match e
    case Finalize(userId, typedValue) => StartDrawingPhase(w, userId, typedValue, env)
    case SendLine(userId, line) => SendDrawingLine(w, userId, line)
    case SubmitDrawing(userId) => Submit(w, userId, env)
    case SubmitEvaluation(userId, drawingId, score) => SubmitVote(w, userId, drawingId, score)
    case ReadyToggle(userId) => ToggleReady(w, userId, env)
    case Disconnect(userId) => HandleDisconnect(w, userId, env)
    case TimerFires(timer) => Fire(w, timer, env)
  }
}
