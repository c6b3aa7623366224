/** What every reachable state of a room satisfies, and how far a match is from its end. */
module SessionInvariants {
  import opened Collections
  import opened GameTypes
  import opened GameSession

  ghost predicate Timed(p: Phase) {
    p != FINISHED && p != WAITING
  }

  ghost predicate Themed(p: Phase) {
    p == DRAWING || p == EVALUATING || p == ROUND_SUMMARY
  }

  ghost predicate MembersOk(memberOf: map<nat, nat>) {
    && |memberOf| >= 2
    && Injective(memberOf)
    && forall u | u in memberOf :: u > 0 && memberOf[u] > 0
  }

  ghost predicate ActiveOk(active: seq<nat>, memberOf: map<nat, nat>) {
    Distinct(active) && forall u | u in active :: u in memberOf
  }

  ghost predicate ContextOk(g: GameState) {
    match g.phase
    case LOADING => g.phaseContext.NoContext?
    case THEME_SELECTING => g.phaseContext.ThemeContext?
    case DRAWING =>
      && g.phaseContext.DrawingContext?
      && ActiveOk(g.phaseContext.activeUserIds, g.memberOf)
      && Distinct(g.phaseContext.readyUserIds)
      && forall u | u in g.phaseContext.readyUserIds :: u in g.phaseContext.activeUserIds
    case EVALUATING =>
      && g.phaseContext.EvaluatingContext?
      && ActiveOk(g.phaseContext.activeUserIds, g.memberOf)
      && Distinct(g.phaseContext.readyUserIds)
    case ROUND_SUMMARY => g.phaseContext.RoundSummaryContext? && Distinct(g.phaseContext.readyUserIds)
    case FINISHED => g.phaseContext.NoContext?
    case WAITING => g.phaseContext.NoContext?
  }

  ghost predicate RoundsOk(g: GameState) {
    && g.currentRound.Some? && g.totalRounds.Some?
    && 1 <= g.currentRound.value <= g.totalRounds.value
    && (g.phase == LOADING ==> g.currentRound.value == 1)
    && (g.phase == FINISHED || g.phase == WAITING ==> g.currentRound == g.totalRounds)
  }

  ghost predicate GameOk(g: GameState) {
    && ContextOk(g)
    && RoundsOk(g)
    && MembersOk(g.memberOf)
    && (g.endsAt.Some? <==> Timed(g.phase))
    && (g.currentTheme.Some? <==> Themed(g.phase))
  }

  /** A pending timer was armed by the very phase of the very round the game is in now. */
  ghost predicate Fits(t: Timer, g: GameState) {
    && t.matchId == g.matchId && t.round == Round(g)
    && match t.task
       case StartThemes => g.phase == LOADING
       case EndDrawing(instance) =>
         g.phase == DRAWING && g.phaseContext.DrawingContext? && g.phaseContext.phaseInstanceId == instance
       case EndEvaluating => g.phase == EVALUATING
       case EndSummary => g.phase == ROUND_SUMMARY
       case ReturnToWaiting => g.phase == FINISHED
  }

  ghost predicate TimerOk(t: Timing, game: Option<GameState>, id: nat)
    requires id in t.timers
  {
    && id < t.nextTimer
    && (game.Some? ==> Fits(t.timers[id], game.value))
    && match t.timers[id].task
       case StartThemes => true
       case ReturnToWaiting => t.returnSlot == Some(id)
       case _ => game.Some? && t.phaseSlot == Some(id)
  }

  /** At most one callback is pending, it is the one in its slot, and it fits the phase the game is in. */
  ghost predicate TimingOk(t: Timing, game: Option<GameState>) {
    && (forall id | id in t.timers :: TimerOk(t, game, id))
    && (forall a, b | a in t.timers && b in t.timers :: a == b)
  }

  ghost predicate WorldOk(w: World) {
    && (w.game.Some? ==> GameOk(w.game.value))
    && TimingOk(w.timing, w.game)
    && (w.game.Some? && w.game.value.phase == EVALUATING ==> !w.summaryGuard)
  }

  // ---------- each handler keeps it ----------

  lemma ActiveMembersOk(g: GameState, connected: set<nat>)
    ensures ActiveOk(ActiveMembers(g, connected), g.memberOf)
  {
  }

  ghost predicate SameInstance(g: GameState, n: GameState) {
    && n.phase == g.phase && n.matchId == g.matchId && Round(n) == Round(g)
    && (n.phaseContext.DrawingContext? <==> g.phaseContext.DrawingContext?)
    && (n.phaseContext.DrawingContext? ==> n.phaseContext.phaseInstanceId == g.phaseContext.phaseInstanceId)
  }

  lemma SameInstanceKeepsTiming(t: Timing, g: GameState, n: GameState)
    requires TimingOk(t, Some(g)) && SameInstance(g, n)
    ensures TimingOk(t, Some(n))
  {
  }

  lemma ClearLeavesNone(t: Timing, g: GameState)
    requires TimingOk(t, Some(g)) && g.phase != LOADING && g.phase != FINISHED
    ensures ClearPhase(t).timers == map[]
  {
  }

  lemma ClearKeepsTiming(t: Timing, game: Option<GameState>)
    requires TimingOk(t, game)
    ensures TimingOk(ClearPhase(t), game)
  {
  }

  lemma ArmKeepsTiming(t: Timing, task: Task, g: GameState)
    requires t.timers == map[] && Fits(Timer(task, g.matchId, Round(g)), g)
    requires task != StartThemes && task != ReturnToWaiting
    ensures TimingOk(Arm(t, task, g), Some(g))
  {
  }

  lemma AdvanceToEvaluatingKeeps(w: World, expected: Option<nat>, env: Env)
    requires WorldOk(w)
    ensures WorldOk(AdvanceToEvaluating(w, expected, env).world)
  {
    var r := AdvanceToEvaluating(w, expected, env);
    if r.reply == Done {
      ClearLeavesNone(w.timing, w.game.value);
      ArmKeepsTiming(ClearPhase(w.timing), EndEvaluating, r.world.game.value);
    }
  }

  lemma AdvanceToRoundSummaryKeeps(w: World, env: Env)
    requires WorldOk(w)
    ensures WorldOk(AdvanceToRoundSummary(w, env).world)
  {
    var r := AdvanceToRoundSummary(w, env);
    if r.reply == Done {
      ClearLeavesNone(w.timing, w.game.value);
      ArmKeepsTiming(ClearPhase(w.timing), EndSummary, r.world.game.value);
    } else {
      ClearKeepsTiming(w.timing, w.game);
    }
  }

  lemma AdvanceFromRoundSummaryKeeps(w: World, env: Env)
    requires WorldOk(w)
    ensures WorldOk(AdvanceFromRoundSummary(w, env).world)
  {
    if w.game.Some? && w.game.value.phase == ROUND_SUMMARY {
      var g := w.game.value;
      var t := ClearPhase(w.timing);
      ClearLeavesNone(w.timing, g);
      assert CancelReturn(t).timers == map[];
      assert TimerOk(ArmReturn(t, g), Some(Finished(g)), t.nextTimer);
    }
  }

  lemma StartDrawingKeeps(w: World, userId: nat, typedValue: string, env: Env)
    requires WorldOk(w)
    ensures WorldOk(StartDrawingPhase(w, userId, typedValue, env).world)
  {
    var r := StartDrawingPhase(w, userId, typedValue, env);
    if r.reply == Done {
      ClearLeavesNone(w.timing, w.game.value);
      ArmKeepsTiming(ClearPhase(w.timing), EndDrawing(w.nextInstance), r.world.game.value);
      ActiveMembersOk(w.game.value, env.connected);
    } else {
      ClearKeepsTiming(w.timing, w.game);
    }
  }

  lemma ForceStartKeeps(w: World, topic: string, env: Env)
    requires WorldOk(w) && w.game.Some? && w.game.value.phase == THEME_SELECTING
    ensures WorldOk(ForceStartDrawing(w, topic, env).world)
  {
    var r := ForceStartDrawing(w, topic, env);
    ClearLeavesNone(w.timing, w.game.value);
    ArmKeepsTiming(ClearPhase(w.timing), EndDrawing(w.nextInstance), r.world.game.value);
    ActiveMembersOk(w.game.value, env.connected);
  }

  lemma SubmitKeeps(w: World, userId: nat, env: Env)
    requires WorldOk(w)
    ensures WorldOk(Submit(w, userId, env).world)
  {
    if w.game.Some? && w.game.value.phaseContext.DrawingContext? && userId in w.game.value.phaseContext.activeUserIds {
      var g := w.game.value;
      var marked := w.(game := Some(g.(phaseContext := MarkReady(g.phaseContext, userId))));
      SameInstanceKeepsTiming(w.timing, w.game.value, marked.game.value);
      AdvanceToEvaluatingKeeps(marked, None, env);
    }
  }

  lemma ToggleEvaluationKeeps(w: World, g: GameState, userId: nat, env: Env)
    requires WorldOk(w) && w.game == Some(g) && g.phase == EVALUATING
    ensures WorldOk(ToggleEvaluationReady(w, g, userId, env).world)
  {
    var toggled := w.(game := Some(g.(phaseContext := ToggledEvaluation(g.phaseContext, userId))));
    SameInstanceKeepsTiming(w.timing, w.game.value, toggled.game.value);
    AdvanceToRoundSummaryKeeps(toggled, env);
  }

  lemma ToggleSummaryKeeps(w: World, g: GameState, userId: nat, env: Env)
    requires WorldOk(w) && w.game == Some(g) && g.phase == ROUND_SUMMARY
    ensures WorldOk(ToggleSummaryReady(w, g, userId, env).world)
  {
    var toggled := w.(game := Some(g.(phaseContext := ToggledSummary(g.phaseContext, userId))));
    SameInstanceKeepsTiming(w.timing, w.game.value, toggled.game.value);
    AdvanceFromRoundSummaryKeeps(toggled, env);
  }

  lemma AbortKeeps(w: World)
    requires WorldOk(w)
    ensures WorldOk(ClearPhaseTimer(w).(game := None))
  {
  }

  lemma LeaveThemeSelectingKeeps(w: World, userId: nat, env: Env)
    requires WorldOk(w) && w.game.Some? && w.game.value.phase == THEME_SELECTING
    requires |Leave(w.game.value, userId).memberOf| >= 2
    ensures WorldOk(LeaveThemeSelecting(w, Leave(w.game.value, userId), userId, env).world)
  {
    var g := Leave(w.game.value, userId);
    SameInstanceKeepsTiming(w.timing, w.game.value, g);
    ForceStartKeeps(w.(game := Some(g)), env.theme, env);
  }

  ghost function Departed(w: World, userId: nat): World
    requires w.game.Some? && (w.game.value.phaseContext.DrawingContext? || w.game.value.phaseContext.EvaluatingContext?)
  {
    var g := Leave(w.game.value, userId);
    w.(game := Some(g.(phaseContext := RemoveUser(g.phaseContext, userId))))
  }

  lemma DepartedOk(w: World, userId: nat)
    requires WorldOk(w) && w.game.Some? && (w.game.value.phase == DRAWING || w.game.value.phase == EVALUATING)
    requires |Leave(w.game.value, userId).memberOf| >= 2
    ensures WorldOk(Departed(w, userId))
  {
  }

  lemma LeaveDrawingKeeps(w: World, userId: nat, env: Env)
    requires WorldOk(w) && w.game.Some? && w.game.value.phase == DRAWING
    requires |Leave(w.game.value, userId).memberOf| >= 2
    ensures WorldOk(LeaveDrawing(w, Leave(w.game.value, userId), userId, env).world)
  {
    if userId in w.game.value.phaseContext.activeUserIds {
      DepartedOk(w, userId);
      AdvanceToEvaluatingKeeps(Departed(w, userId), None, env);
    } else {
      SameInstanceKeepsTiming(w.timing, w.game.value, Leave(w.game.value, userId));
    }
  }

  lemma LeaveEvaluatingKeeps(w: World, userId: nat, env: Env)
    requires WorldOk(w) && w.game.Some? && w.game.value.phase == EVALUATING
    requires |Leave(w.game.value, userId).memberOf| >= 2
    ensures WorldOk(LeaveEvaluating(w, Leave(w.game.value, userId), userId, env).world)
  {
    if userId in w.game.value.phaseContext.activeUserIds {
      DepartedOk(w, userId);
      AdvanceToRoundSummaryKeeps(Departed(w, userId), env);
    } else {
      SameInstanceKeepsTiming(w.timing, w.game.value, Leave(w.game.value, userId));
    }
  }

  lemma DisconnectKeeps(w: World, userId: nat, env: Env)
    requires WorldOk(w)
    ensures WorldOk(HandleDisconnect(w, userId, env).world)
  {
    if w.game.Some? {
      var g := Leave(w.game.value, userId);
      if |g.memberOf| <= 1 {
        AbortKeeps(w);
      } else {
        match g.phase
        case THEME_SELECTING => LeaveThemeSelectingKeeps(w, userId, env);
        case DRAWING => LeaveDrawingKeeps(w, userId, env);
        case EVALUATING => LeaveEvaluatingKeeps(w, userId, env);
        case _ => SameInstanceKeepsTiming(w.timing, w.game.value, g);
      }
    }
  }

  lemma FiredOk(w: World, timer: nat)
    requires WorldOk(w) && timer in w.timing.timers
    ensures WorldOk(Fired(w, timer)) && Fired(w, timer).timing.timers == map[]
    ensures TimerOk(w.timing, w.game, timer)
  {
  }

  lemma FireKeeps(w: World, timer: nat, env: Env)
    requires WorldOk(w)
    ensures WorldOk(Fire(w, timer, env).world)
  {
    if timer in w.timing.timers {
      FiredOk(w, timer);
      var fired := Fired(w, timer);
      match w.timing.timers[timer].task
      case StartThemes =>
      case EndDrawing(instance) => AdvanceToEvaluatingKeeps(fired, Some(instance), env);
      case EndEvaluating => AdvanceToRoundSummaryKeeps(fired, env);
      case EndSummary => AdvanceFromRoundSummaryKeeps(fired, env);
      case ReturnToWaiting =>
    }
  }

  /** Every message, disconnect and timer callback keeps the invariant. */
  lemma StepKeeps(w: World, e: Event, env: Env)
    requires WorldOk(w)
    ensures WorldOk(Step(w, e, env).world)
  {
    match e
    case Finalize(userId, typedValue) => StartDrawingKeeps(w, userId, typedValue, env);
    case SendLine(userId, line) =>
    case SubmitDrawing(userId) => SubmitKeeps(w, userId, env);
    case SubmitEvaluation(userId, drawingId, score) =>
    case ReadyToggle(userId) =>
      if w.game.Some? && w.game.value.phase == EVALUATING {
        ToggleEvaluationKeeps(w, w.game.value, userId, env);
      } else if w.game.Some? && w.game.value.phase == ROUND_SUMMARY {
        ToggleSummaryKeeps(w, w.game.value, userId, env);
      }
    case Disconnect(userId) => DisconnectKeeps(w, userId, env);
    case TimerFires(timer) => FireKeeps(w, timer, env);
  }
}
