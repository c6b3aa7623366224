/**
 * The protocol once more, as a table: for each phase exactly which inputs end it, what the state
 * entered then is, and what an input that does not end it changes. Nothing here mentions a handler.
 */
module PhaseLaws {
  import opened Collections
  import opened GameTypes
  import opened DrawingKeys
  import opened Scoring
  import opened GameSession
  import opened SessionInvariants
  import opened SessionRuns
  import opened MatchHistory
  import opened EvaluationGate

  // ---------- who is there and who is ready afterwards ----------

  function MembersAfter(g: GameState, e: Event): map<nat, nat> {
    if e.Disconnect? then g.memberOf - {e.userId} else g.memberOf
  }

  /** The departure that leaves one member, or none, removes the game. */
  ghost predicate Aborts(g: GameState, e: Event) {
    e.Disconnect? && |MembersAfter(g, e)| <= 1
  }

  predicate Leaves(e: Event, u: nat) {
    e.Disconnect? && e.userId == u
  }

  predicate HasActive(ctx: PhaseContext) {
    ctx.DrawingContext? || ctx.EvaluatingContext?
  }

  predicate HasReady(ctx: PhaseContext) {
    HasActive(ctx) || ctx.RoundSummaryContext?
  }

  predicate ActiveAfter(g: GameState, e: Event, u: nat)
    requires HasActive(g.phaseContext)
  {
    u in g.phaseContext.activeUserIds && !Leaves(e, u)
  }

  /** Enough ratings given: as many members rated as there are other active players. */
  ghost predicate MayBeReady(g: GameState, h: History, s: Start, u: nat)
    requires g.phaseContext.EvaluatingContext?
  {
    |RatedMembers(h.ratings, s, Round(g), u)| >= |OthersActive(g, u)|
  }

  ghost predicate ReadyAfter(g: GameState, h: History, s: Start, e: Event, u: nat)
    requires HasReady(g.phaseContext)
  {
    var (ctx, ready) := (g.phaseContext, u in g.phaseContext.readyUserIds);
    match ctx
    case DrawingContext(_, active, _) => (ready || (e == SubmitDrawing(u) && u in active)) && !Leaves(e, u)
    case EvaluatingContext(active, _) =>
      if e == ReadyToggle(u) then !ready && MayBeReady(g, h, s, u) else ready && !(Leaves(e, u) && u in active)
    case RoundSummaryContext(_, _, _) => if e == ReadyToggle(u) && u in g.memberOf then !ready else ready
  }

  ghost predicate AllReadyAfter(g: GameState, h: History, s: Start, e: Event)
    requires HasActive(g.phaseContext)
  {
    && (exists u :: ActiveAfter(g, e, u))
    && (forall u :: ActiveAfter(g, e, u) ==> ReadyAfter(g, h, s, e, u))
  }

  // ---------- what ends a phase ----------

  predicate TimesOut(w: World, e: Event) {
    e.TimerFires? && e.timer in w.timing.timers
  }

  ghost predicate WellFormedRound(t: Tables, g: GameState) {
    forall d, l | d in t.drawings && d.matchId == g.matchId && d.round == Round(g) && l in t.drawings[d] ::
      l.size > 0 && |l.points| >= 2 && |l.points| % 2 == 0
  }

  /** The theme a finalize goes by. */
  function Chosen(e: Event, env: Env): string
    requires e.Finalize?
  {
    if Trim(e.typedValue) != "" then Trim(e.typedValue) else Trim(env.theme)
  }

  ghost predicate ThemeEnds(g: GameState, e: Event, env: Env) {
    && g.phaseContext.ThemeContext?
    && ((e.Finalize? && e.userId == g.phaseContext.selectorId && Chosen(e, env) != "")
        || (Leaves(e, g.phaseContext.selectorId) && env.theme != ""))
  }

  ghost predicate DrawingEnds(w: World, g: GameState, h: History, s: Start, e: Event, env: Env) {
    && g.phaseContext.DrawingContext? && env.itemsSettled
    && (TimesOut(w, e)
        || ((e.SubmitDrawing? || e.Disconnect?) && e.userId in g.phaseContext.activeUserIds && AllReadyAfter(g, h, s, e)))
  }

  ghost predicate EvaluationEnds(w: World, g: GameState, h: History, s: Start, e: Event) {
    && g.phaseContext.EvaluatingContext? && WellFormedRound(w.tables, g)
    && (TimesOut(w, e)
        || (e.ReadyToggle? && (e.userId in g.phaseContext.readyUserIds || MayBeReady(g, h, s, e.userId)) && AllReadyAfter(g, h, s, e))
        || (e.Disconnect? && e.userId in g.phaseContext.activeUserIds && AllReadyAfter(g, h, s, e)))
  }

  ghost predicate SummaryEnds(w: World, g: GameState, h: History, s: Start, e: Event, env: Env) {
    && g.phaseContext.RoundSummaryContext? && (Round(g) == Or(g.totalRounds, 0) || env.selector.Some?)
    && (TimesOut(w, e)
        || (e.ReadyToggle? && e.userId in g.memberOf && forall u | u in g.memberOf :: ReadyAfter(g, h, s, e, u)))
  }

  ghost predicate Ends(w: World, g: GameState, h: History, s: Start, e: Event, env: Env) {
    match g.phase
    case LOADING => TimesOut(w, e) && env.selector.Some?
    case THEME_SELECTING => ThemeEnds(g, e, env)
    case DRAWING => DrawingEnds(w, g, h, s, e, env)
    case EVALUATING => EvaluationEnds(w, g, h, s, e)
    case ROUND_SUMMARY => SummaryEnds(w, g, h, s, e, env)
    case FINISHED => TimesOut(w, e)
    case WAITING => false
  }

  // ---------- what the state is afterwards ----------

  ghost predicate SameMatch(g: GameState, n: GameState, e: Event) {
    n.matchId == g.matchId && n.totalRounds == g.totalRounds && n.memberOf == MembersAfter(g, e)
  }

  /** Nothing but members, active and ready players has changed. */
  ghost predicate Continues(g: GameState, n: GameState, h: History, s: Start, e: Event) {
    && SameMatch(g, n, e) && n.phase == g.phase && n.endsAt == g.endsAt && n.currentRound == g.currentRound
    && n.currentTheme == g.currentTheme && n.recentThemes == g.recentThemes && n.totalScores == g.totalScores
    && (!HasReady(g.phaseContext) ==> n.phaseContext == g.phaseContext)
    && (HasReady(g.phaseContext) ==>
          && HasReady(n.phaseContext)
          && forall u :: u in n.phaseContext.readyUserIds <==> ReadyAfter(g, h, s, e, u))
    && (HasActive(g.phaseContext) ==>
          && HasActive(n.phaseContext)
          && forall u :: u in n.phaseContext.activeUserIds <==> ActiveAfter(g, e, u))
    && (g.phaseContext.DrawingContext? ==>
          n.phaseContext.DrawingContext? && n.phaseContext.phaseInstanceId == g.phaseContext.phaseInstanceId)
    && (g.phaseContext.EvaluatingContext? ==> n.phaseContext.EvaluatingContext?)
    && (g.phaseContext.RoundSummaryContext? ==>
          && n.phaseContext.RoundSummaryContext?
          && n.phaseContext.rankings == g.phaseContext.rankings && n.phaseContext.drawingsById == g.phaseContext.drawingsById)
  }

  ghost predicate EntersThemes(g: GameState, n: GameState, round: nat, env: Env) {
    && n.phase == THEME_SELECTING && env.selector.Some? && n.phaseContext == ThemeContext(env.selector.value)
    && n.endsAt == Some(env.now + 32000) && n.currentRound == Some(round) && n.currentTheme == None
    && n.recentThemes == g.recentThemes && n.totalScores == g.totalScores
  }

  /** The connected members start drawing, nobody ready; the theme becomes the newest of at most three. */
  ghost predicate EntersDrawing(w: World, g: GameState, n: GameState, e: Event, env: Env) {
    && n.phase == DRAWING && n.phaseContext.DrawingContext? && n.phaseContext.readyUserIds == []
    && Ascends(n.phaseContext.activeUserIds) && n.phaseContext.phaseInstanceId == w.nextInstance
    && (forall u :: u in n.phaseContext.activeUserIds <==> u in MembersAfter(g, e) && u in env.connected)
    && n.endsAt == Some(env.now + 92000) && n.currentRound == g.currentRound && n.totalScores == g.totalScores
    && n.currentTheme == Some(if e.Finalize? then Chosen(e, env) else env.theme)
    && n.recentThemes == [n.currentTheme.value] + (if |g.recentThemes| <= 2 then g.recentThemes else g.recentThemes[..2])
  }

  ghost predicate EntersEvaluation(g: GameState, n: GameState, e: Event, env: Env)
    requires HasActive(g.phaseContext)
  {
    && n.phase == EVALUATING && n.phaseContext.EvaluatingContext? && n.phaseContext.readyUserIds == []
    && (forall u :: u in n.phaseContext.activeUserIds <==> ActiveAfter(g, e, u))
    && n.endsAt == Some(env.now + 60000) && n.currentRound == g.currentRound && n.currentTheme == g.currentTheme
    && n.recentThemes == g.recentThemes && n.totalScores == g.totalScores
  }

  ghost predicate EntersSummary(g: GameState, n: GameState, env: Env) {
    && n.phase == ROUND_SUMMARY && n.phaseContext.RoundSummaryContext? && n.phaseContext.readyUserIds == []
    && n.endsAt == Some(env.now + 32000) && n.currentRound == g.currentRound && n.currentTheme == g.currentTheme
    && n.recentThemes == g.recentThemes
  }

  ghost predicate Rests(g: GameState, n: GameState, phase: Phase) {
    && n.phase == phase && n.phaseContext == NoContext && n.endsAt == None && n.currentTheme == None
    && n.currentRound == g.currentRound && n.recentThemes == g.recentThemes && n.totalScores == g.totalScores
  }

  ghost predicate Enters(w: World, g: GameState, n: GameState, e: Event, env: Env) {
    && SameMatch(g, n, e)
    && match g.phase
       case LOADING => EntersThemes(g, n, Round(g), env)
       case THEME_SELECTING => EntersDrawing(w, g, n, e, env)
       case DRAWING => HasActive(g.phaseContext) && EntersEvaluation(g, n, e, env)
       case EVALUATING => EntersSummary(g, n, env)
       case ROUND_SUMMARY =>
         if Round(g) == Or(g.totalRounds, 0) then Rests(g, n, FINISHED) else EntersThemes(g, n, Round(g) + 1, env)
       case FINISHED => Rests(g, n, WAITING)
       case WAITING => false
  }

  /** The table: aborted, ended into the next phase, or continuing in this one. */
  ghost predicate ActsAsStated(w: World, v: World, h: History, s: Start, e: Event, env: Env)
    requires w.game.Some?
  {
    var g := w.game.value;
    if Aborts(g, e) then v.game.None?
    else v.game.Some? && if Ends(w, g, h, s, e, env) then Enters(w, g, v.game.value, e, env) else Continues(g, v.game.value, h, s, e)
  }

  // ---------- the rows of the table ----------

  /** Messages the phase has no use for. */
  predicate Ignored(p: Phase, e: Event) {
    && !e.Disconnect? && !e.TimerFires?
    && (p == THEME_SELECTING ==> !e.Finalize?) && (p == DRAWING ==> !e.SubmitDrawing?)
    && (p == EVALUATING || p == ROUND_SUMMARY ==> !e.ReadyToggle?)
  }

  lemma IgnoredLeavesGame(w: World, e: Event, env: Env)
    requires w.game.Some? && GameOk(w.game.value) && Ignored(w.game.value.phase, e)
    ensures Step(w, e, env).world.game == w.game
  {
  }

  lemma IgnoredContinues(g: GameState, h: History, s: Start, e: Event)
    requires GameOk(g) && Ignored(g.phase, e)
    ensures Continues(g, g, h, s, e)
  {
  }

  lemma IgnoredDoesNotEnd(w: World, h: History, s: Start, e: Event, env: Env)
    requires w.game.Some? && GameOk(w.game.value) && Ignored(w.game.value.phase, e)
    ensures !Ends(w, w.game.value, h, s, e, env) && !Aborts(w.game.value, e)
  {
  }

  lemma IgnoredLaw(w: World, h: History, s: Start, e: Event, env: Env)
    requires WorldOk(w) && w.game.Some? && Ignored(w.game.value.phase, e)
    ensures ActsAsStated(w, Step(w, e, env).world, h, s, e, env)
  {
    IgnoredLeavesGame(w, e, env);
    IgnoredContinues(w.game.value, h, s, e);
    IgnoredDoesNotEnd(w, h, s, e, env);
  }

  /** A phase that waits for nobody loses the member and goes on. */
  lemma LeavesWaitingForNobody(w: World, h: History, s: Start, userId: nat, env: Env)
    requires WorldOk(w) && w.game.Some?
    requires var p := w.game.value.phase; p != THEME_SELECTING && p != DRAWING && p != EVALUATING
    ensures ActsAsStated(w, HandleDisconnect(w, userId, env).world, h, s, Disconnect(userId), env)
  {
  }

  lemma LoadingTimerLaw(w: World, h: History, s: Start, timer: nat, env: Env)
    requires WorldOk(w) && w.game.Some? && w.game.value.phase == LOADING
    ensures ActsAsStated(w, Fire(w, timer, env).world, h, s, TimerFires(timer), env)
  {
    if timer in w.timing.timers { FiredOk(w, timer); }
  }

  lemma LoadingLaw(w: World, h: History, s: Start, e: Event, env: Env)
    requires WorldOk(w) && w.game.Some? && w.game.value.phase == LOADING
    ensures ActsAsStated(w, Step(w, e, env).world, h, s, e, env)
  {
    match e
    case Disconnect(userId) => LeavesWaitingForNobody(w, h, s, userId, env);
    case TimerFires(timer) => LoadingTimerLaw(w, h, s, timer, env);
    case _ => IgnoredLaw(w, h, s, e, env);
  }

  lemma RestingTimerLaw(w: World, h: History, s: Start, timer: nat, env: Env)
    requires WorldOk(w) && w.game.Some? && (w.game.value.phase == FINISHED || w.game.value.phase == WAITING)
    ensures ActsAsStated(w, Fire(w, timer, env).world, h, s, TimerFires(timer), env)
  {
    if timer in w.timing.timers { FiredOk(w, timer); }
  }

  lemma RestingLaw(w: World, h: History, s: Start, e: Event, env: Env)
    requires WorldOk(w) && w.game.Some? && (w.game.value.phase == FINISHED || w.game.value.phase == WAITING)
    ensures ActsAsStated(w, Step(w, e, env).world, h, s, e, env)
  {
    match e
    case Disconnect(userId) => LeavesWaitingForNobody(w, h, s, userId, env);
    case TimerFires(timer) => RestingTimerLaw(w, h, s, timer, env);
    case _ => IgnoredLaw(w, h, s, e, env);
  }

  lemma {:induction false} TrimEndKeepsStart(t: string)
    ensures TrimEnd(t) == "" || (t != "" && TrimEnd(t)[0] == t[0])
    ensures TrimEnd(t) == "" || !IsBlank(TrimEnd(t)[|TrimEnd(t)| - 1])
  {
    if t != "" && IsBlank(t[|t| - 1]) { TrimEndKeepsStart(t[..|t| - 1]); }
  }

  lemma {:induction false} TrimStartEnds(t: string)
    ensures TrimStart(t) == "" || !IsBlank(TrimStart(t)[0])
  {
    if t != "" && IsBlank(t[0]) { TrimStartEnds(t[1..]); }
  }

  lemma TrimTwice(t: string)
    ensures Trim(Trim(t)) == Trim(t)
  {
    TrimStartEnds(t);
    TrimEndKeepsStart(TrimStart(t));
  }

  lemma DrawingEntered(w: World, g: GameState, k: GameState, h: History, s: Start, e: Event, theme: string, env: Env)
    requires k == g.(memberOf := MembersAfter(g, e)) && GameOk(g) && g.phase == THEME_SELECTING
    requires theme == if e.Finalize? then Chosen(e, env) else env.theme
    ensures Enters(w, g, DrawingStarted(k, theme, ActiveMembers(k, env.connected), w.nextInstance, env.now), e, env)
  {
    ActiveMembersOk(k, env.connected);
  }

  lemma FinalizeStores(w: World, userId: nat, typedValue: string, env: Env)
    requires WorldOk(w) && w.game.Some? && w.game.value.phase == THEME_SELECTING
    ensures
      var (g, e) := (w.game.value, Finalize(userId, typedValue));
      StartDrawingPhase(w, userId, typedValue, env).world.game ==
      if ThemeEnds(g, e, env)
      then Some(DrawingStarted(g, Chosen(e, env), ActiveMembers(g, env.connected), w.nextInstance, env.now)) else w.game
  {
    TrimTwice(typedValue);
  }

  lemma FinalizeLaw(w: World, h: History, s: Start, userId: nat, typedValue: string, env: Env)
    requires WorldOk(w) && w.game.Some? && w.game.value.phase == THEME_SELECTING
    ensures ActsAsStated(w, StartDrawingPhase(w, userId, typedValue, env).world, h, s, Finalize(userId, typedValue), env)
  {
    var (g, e) := (w.game.value, Finalize(userId, typedValue));
    FinalizeStores(w, userId, typedValue, env);
    if ThemeEnds(g, e, env) {
      DrawingEntered(w, g, g, h, s, e, Chosen(e, env), env);
    } else {
      SameContinues(g, h, s, e);
    }
  }

  lemma SelectorLeavesLaw(w: World, h: History, s: Start, userId: nat, env: Env)
    requires WorldOk(w) && w.game.Some? && w.game.value.phase == THEME_SELECTING
    ensures ActsAsStated(w, HandleDisconnect(w, userId, env).world, h, s, Disconnect(userId), env)
  {
    var g := w.game.value;
    SelectorLeavesStores(w, userId, env);
    if ThemeEnds(g, Disconnect(userId), env) {
      DrawingEntered(w, g, Leave(g, userId), h, s, Disconnect(userId), env.theme, env);
    }
  }

  lemma SelectorLeavesStores(w: World, userId: nat, env: Env)
    requires WorldOk(w) && w.game.Some? && w.game.value.phase == THEME_SELECTING
    ensures
      var (g, e) := (w.game.value, Disconnect(userId));
      var k := Leave(g, userId);
      HandleDisconnect(w, userId, env).world.game ==
      if Aborts(g, e) then None
      else if ThemeEnds(g, e, env)
      then Some(DrawingStarted(k, env.theme, ActiveMembers(k, env.connected), w.nextInstance, env.now)) else Some(k)
  {
  }

  lemma ThemeTimerLaw(w: World, h: History, s: Start, timer: nat, env: Env)
    requires WorldOk(w) && w.game.Some? && w.game.value.phase == THEME_SELECTING
    ensures ActsAsStated(w, Fire(w, timer, env).world, h, s, TimerFires(timer), env)
  {
    SameContinues(w.game.value, h, s, TimerFires(timer));
    if timer in w.timing.timers { FiredOk(w, timer); }
  }

  lemma ThemeLaw(w: World, h: History, s: Start, e: Event, env: Env)
    requires WorldOk(w) && w.game.Some? && w.game.value.phase == THEME_SELECTING
    ensures ActsAsStated(w, Step(w, e, env).world, h, s, e, env)
  {
    match e
    case Finalize(userId, typedValue) => FinalizeLaw(w, h, s, userId, typedValue, env);
    case Disconnect(userId) => SelectorLeavesLaw(w, h, s, userId, env);
    case TimerFires(timer) => ThemeTimerLaw(w, h, s, timer, env);
    case _ => IgnoredLaw(w, h, s, e, env);
  }

  // ---------- DRAWING ----------

  lemma EvaluationEntered(u: World, expected: Option<nat>, env: Env)
    requires WorldOk(u) && u.game.Some? && u.game.value.phase == DRAWING
    requires expected.Some? ==> expected.value == u.game.value.phaseContext.phaseInstanceId
    ensures
      var k := u.game.value;
      AdvanceToEvaluating(u, expected, env).world.game ==
      if env.itemsSettled then Some(EvaluatingStarted(k, k.phaseContext.activeUserIds, env.now)) else u.game
  {
  }

  lemma EntersFromDrawing(g: GameState, k: GameState, h: History, s: Start, e: Event, env: Env)
    requires g.phase == DRAWING && HasActive(g.phaseContext) && Continues(g, k, h, s, e)
    ensures
      var n := EvaluatingStarted(k, k.phaseContext.activeUserIds, env.now);
      SameMatch(g, n, e) && EntersEvaluation(g, n, e, env)
  {
  }

  /** The count that ends the phase asks whether everybody still active is ready. */
  lemma DrawingCount(g: GameState, k: GameState, h: History, s: Start, e: Event)
    requires GameOk(k) && k.phase == DRAWING && g.phaseContext.DrawingContext? && Continues(g, k, h, s, e)
    ensures IsReadyToAdvance(k.phaseContext) <==> AllReadyAfter(g, h, s, e)
  {
    CountMeansEveryone(k);
    if k.phaseContext.activeUserIds != [] {
      assert ActiveAfter(g, e, k.phaseContext.activeUserIds[0]);
    }
  }

  lemma MarkedContinues(w: World, h: History, s: Start, userId: nat)
    requires WorldOk(w) && w.game.Some? && w.game.value.phase == DRAWING && userId in w.game.value.phaseContext.activeUserIds
    ensures
      var g := w.game.value;
      var k := g.(phaseContext := MarkReady(g.phaseContext, userId));
      WorldOk(w.(game := Some(k))) && Continues(g, k, h, s, SubmitDrawing(userId))
  {
    var g := w.game.value;
    SameInstanceKeepsTiming(w.timing, g, g.(phaseContext := MarkReady(g.phaseContext, userId)));
  }

  lemma UnmarkedContinues(g: GameState, h: History, s: Start, userId: nat)
    requires GameOk(g) && g.phase == DRAWING && userId !in g.phaseContext.activeUserIds
    ensures Continues(g, g, h, s, SubmitDrawing(userId))
  {
  }

  lemma SubmitLaw(w: World, h: History, s: Start, userId: nat, env: Env)
    requires WorldOk(w) && w.game.Some? && w.game.value.phase == DRAWING
    ensures ActsAsStated(w, Submit(w, userId, env).world, h, s, SubmitDrawing(userId), env)
  {
    var g := w.game.value;
    if userId in g.phaseContext.activeUserIds {
      var k := g.(phaseContext := MarkReady(g.phaseContext, userId));
      MarkedContinues(w, h, s, userId);
      DrawingCount(g, k, h, s, SubmitDrawing(userId));
      EvaluationEntered(w.(game := Some(k)), None, env);
      EntersFromDrawing(g, k, h, s, SubmitDrawing(userId), env);
    } else {
      UnmarkedContinues(g, h, s, userId);
    }
  }

  lemma DrawerGoneContinues(g: GameState, h: History, s: Start, userId: nat)
    requires GameOk(g) && g.phase == DRAWING
    ensures
      var n := Leave(g, userId);
      Continues(g, if userId in g.phaseContext.activeUserIds then n.(phaseContext := RemoveUser(n.phaseContext, userId)) else n,
                h, s, Disconnect(userId))
  {
  }

  lemma LeaveDrawingLaw(w: World, h: History, s: Start, userId: nat, env: Env)
    requires WorldOk(w) && w.game.Some? && w.game.value.phase == DRAWING
    ensures ActsAsStated(w, HandleDisconnect(w, userId, env).world, h, s, Disconnect(userId), env)
  {
    var g := w.game.value;
    if |Leave(g, userId).memberOf| >= 2 {
      DrawerGoneContinues(g, h, s, userId);
      if userId in g.phaseContext.activeUserIds {
        var u := Departed(w, userId);
        DepartedOk(w, userId);
        DrawingCount(g, u.game.value, h, s, Disconnect(userId));
        EvaluationEntered(u, None, env);
        EntersFromDrawing(g, u.game.value, h, s, Disconnect(userId), env);
      }
    }
  }

  lemma SameContinues(g: GameState, h: History, s: Start, e: Event)
    requires GameOk(g) && !e.SubmitDrawing? && !e.ReadyToggle? && !e.Disconnect?
    ensures Continues(g, g, h, s, e)
  {
  }

  lemma DrawingTimerLaw(w: World, h: History, s: Start, timer: nat, env: Env)
    requires WorldOk(w) && w.game.Some? && w.game.value.phase == DRAWING
    ensures ActsAsStated(w, Fire(w, timer, env).world, h, s, TimerFires(timer), env)
  {
    var g := w.game.value;
    SameContinues(g, h, s, TimerFires(timer));
    if timer in w.timing.timers {
      FiredOk(w, timer);
      EvaluationEntered(Fired(w, timer), Some(w.timing.timers[timer].task.phaseInstanceId), env);
      EntersFromDrawing(g, g, h, s, TimerFires(timer), env);
    }
  }

  lemma DrawingLaw(w: World, h: History, s: Start, e: Event, env: Env)
    requires WorldOk(w) && w.game.Some? && w.game.value.phase == DRAWING
    ensures ActsAsStated(w, Step(w, e, env).world, h, s, e, env)
  {
    match e
    case SubmitDrawing(userId) => SubmitLaw(w, h, s, userId, env);
    case Disconnect(userId) => LeaveDrawingLaw(w, h, s, userId, env);
    case TimerFires(timer) => DrawingTimerLaw(w, h, s, timer, env);
    case _ => IgnoredLaw(w, h, s, e, env);
  }

  // ---------- EVALUATING ----------

  lemma WellFormedMeans(t: Tables, g: GameState)
    ensures WellFormedRound(t, g) <==> forall d | d in OfRound(t.drawings, g.matchId, Round(g)) :: IsValidDrawData(t.drawings[d])
  {
  }

  /** From the state reached, the summary is entered exactly when the round's lines are well formed. */
  lemma SummaryEntered(u: World, env: Env)
    requires WorldOk(u) && u.game.Some? && u.game.value.phase == EVALUATING
    ensures
      var (k, n) := (u.game.value, AdvanceToRoundSummary(u, env).world.game);
      if WellFormedRound(u.tables, k)
      then
        && n.Some? && n.value.matchId == k.matchId && n.value.totalRounds == k.totalRounds && n.value.memberOf == k.memberOf
        && EntersSummary(k, n.value, env)
      else n == u.game
  {
    SummaryComputed(u);
    SummaryPatched(u, env);
  }

  /** What the advance stores, in terms of the summary computed. */
  lemma SummaryPatched(u: World, env: Env)
    requires u.game.Some? && u.game.value.phase == EVALUATING && !u.summaryGuard
    ensures
      var k := u.game.value;
      var summary := ComputeRoundSummary(k, u.tables.drawings, u.tables.votes);
      AdvanceToRoundSummary(u, env).world.game ==
      if summary.Err? then u.game
      else Some(k.(phase := ROUND_SUMMARY, endsAt := Some(env.now + ROUND_SUMMARY_DURATION_MS),
                   phaseContext := summary.value.context, totalScores := summary.value.totals))
  {
  }

  lemma SummaryComputed(u: World)
    requires u.game.Some? && GameOk(u.game.value) && u.game.value.phase == EVALUATING
    ensures
      var summary := ComputeRoundSummary(u.game.value, u.tables.drawings, u.tables.votes);
      && (summary.Ok? <==> WellFormedRound(u.tables, u.game.value))
      && (summary.Ok? ==> summary.value.context.RoundSummaryContext? && summary.value.context.readyUserIds == [])
  {
    WellFormedMeans(u.tables, u.game.value);
  }

  lemma EntersFromEvaluation(g: GameState, k: GameState, n: GameState, h: History, s: Start, e: Event, env: Env)
    requires Continues(g, k, h, s, e) && EntersSummary(k, n, env)
    requires n.matchId == k.matchId && n.totalRounds == k.totalRounds && n.memberOf == k.memberOf
    ensures SameMatch(g, n, e) && EntersSummary(g, n, env)
  {
  }

  lemma EvaluationCount(g: GameState, k: GameState, h: History, s: Start, e: Event)
    requires g.phaseContext.EvaluatingContext? && k.phaseContext.EvaluatingContext? && Continues(g, k, h, s, e)
    ensures IsAllReady(k.phaseContext) <==> AllReadyAfter(g, h, s, e)
  {
    if k.phaseContext.activeUserIds != [] {
      assert ActiveAfter(g, e, k.phaseContext.activeUserIds[0]);
    }
  }

  /** The step reached u and asks for the summary if everybody is ready. */
  lemma AskedSummary(w: World, u: World, v: World, h: History, s: Start, e: Event, env: Env)
    requires w.game.Some? && w.game.value.phase == EVALUATING && w.game.value.phaseContext.EvaluatingContext? && !Aborts(w.game.value, e)
    requires WorldOk(u) && u.tables == w.tables && u.game.Some? && u.game.value.phase == EVALUATING
    requires Continues(w.game.value, u.game.value, h, s, e)
    requires v == if IsAllReady(u.game.value.phaseContext) then AdvanceToRoundSummary(u, env).world else u
    requires IsAllReady(u.game.value.phaseContext) && WellFormedRound(w.tables, w.game.value) <==>
             EvaluationEnds(w, w.game.value, h, s, e)
    ensures ActsAsStated(w, v, h, s, e, env)
  {
    var (g, k) := (w.game.value, u.game.value);
    if IsAllReady(k.phaseContext) {
      SummaryEntered(u, env);
      assert WellFormedRound(u.tables, k) <==> WellFormedRound(w.tables, g);
      SummaryAnswered(w, v, k, h, s, e, env);
    }
  }

  lemma SummaryAnswered(w: World, v: World, k: GameState, h: History, s: Start, e: Event, env: Env)
    requires w.game.Some? && w.game.value.phase == EVALUATING && !Aborts(w.game.value, e) && Continues(w.game.value, k, h, s, e)
    requires
      if EvaluationEnds(w, w.game.value, h, s, e)
      then
        && v.game.Some? && v.game.value.matchId == k.matchId && v.game.value.totalRounds == k.totalRounds
        && v.game.value.memberOf == k.memberOf && EntersSummary(k, v.game.value, env)
      else v.game == Some(k)
    ensures ActsAsStated(w, v, h, s, e, env)
  {
    if EvaluationEnds(w, w.game.value, h, s, e) { EntersFromEvaluation(w.game.value, k, v.game.value, h, s, e, env); }
  }

  lemma GateMeans(w: World, h: History, s: Start, userId: nat)
    requires WorldOk(w) && LedgerOk(w, h, s) && w.game.Some? && w.game.value.phase == EVALUATING
    ensures IsEvaluationComplete(w.game.value, w.tables.votes, userId) <==> MayBeReady(w.game.value, h, s, userId)
  {
    var g := w.game.value;
    TargetsAreRated(h, s, g, w.tables, Round(g), userId);
    OthersCounted(g, userId);
  }

  lemma ToggledContinues(w: World, h: History, s: Start, userId: nat)
    requires WorldOk(w) && w.game.Some? && w.game.value.phase == EVALUATING
    requires userId in w.game.value.phaseContext.readyUserIds || MayBeReady(w.game.value, h, s, userId)
    ensures
      var g := w.game.value;
      var k := g.(phaseContext := ToggledEvaluation(g.phaseContext, userId));
      WorldOk(w.(game := Some(k))) && Continues(g, k, h, s, ReadyToggle(userId))
  {
    var g := w.game.value;
    SameInstanceKeepsTiming(w.timing, g, g.(phaseContext := ToggledEvaluation(g.phaseContext, userId)));
  }

  lemma UntoggledContinues(g: GameState, h: History, s: Start, userId: nat)
    requires GameOk(g) && g.phase == EVALUATING && userId !in g.phaseContext.readyUserIds && !MayBeReady(g, h, s, userId)
    ensures Continues(g, g, h, s, ReadyToggle(userId))
  {
  }

  lemma ToggleLaw(w: World, h: History, s: Start, userId: nat, env: Env)
    requires WorldOk(w) && LedgerOk(w, h, s) && w.game.Some? && w.game.value.phase == EVALUATING
    ensures ActsAsStated(w, ToggleReady(w, userId, env).world, h, s, ReadyToggle(userId), env)
  {
    var g := w.game.value;
    GateMeans(w, h, s, userId);
    if userId in g.phaseContext.readyUserIds || MayBeReady(g, h, s, userId) {
      var u := w.(game := Some(g.(phaseContext := ToggledEvaluation(g.phaseContext, userId))));
      ToggledContinues(w, h, s, userId);
      EvaluationCount(g, u.game.value, h, s, ReadyToggle(userId));
      AskedSummary(w, u, ToggleReady(w, userId, env).world, h, s, ReadyToggle(userId), env);
    } else {
      UntoggledContinues(g, h, s, userId);
    }
  }

  lemma EvaluatorGoneContinues(g: GameState, h: History, s: Start, userId: nat)
    requires GameOk(g) && g.phase == EVALUATING
    ensures
      var n := Leave(g, userId);
      Continues(g, if userId in g.phaseContext.activeUserIds then n.(phaseContext := RemoveUser(n.phaseContext, userId)) else n,
                h, s, Disconnect(userId))
  {
  }

  lemma LeaveEvaluationLaw(w: World, h: History, s: Start, userId: nat, env: Env)
    requires WorldOk(w) && w.game.Some? && w.game.value.phase == EVALUATING
    ensures ActsAsStated(w, HandleDisconnect(w, userId, env).world, h, s, Disconnect(userId), env)
  {
    var g := w.game.value;
    if |Leave(g, userId).memberOf| >= 2 {
      EvaluatorGoneContinues(g, h, s, userId);
      if userId in g.phaseContext.activeUserIds {
        var u := Departed(w, userId);
        DepartedOk(w, userId);
        EvaluationCount(g, u.game.value, h, s, Disconnect(userId));
        AskedSummary(w, u, HandleDisconnect(w, userId, env).world, h, s, Disconnect(userId), env);
      }
    }
  }

  lemma EvaluationTimerLaw(w: World, h: History, s: Start, timer: nat, env: Env)
    requires WorldOk(w) && w.game.Some? && w.game.value.phase == EVALUATING
    ensures ActsAsStated(w, Fire(w, timer, env).world, h, s, TimerFires(timer), env)
  {
    var g := w.game.value;
    SameContinues(g, h, s, TimerFires(timer));
    if timer in w.timing.timers {
      FiredOk(w, timer);
      var u := Fired(w, timer);
      SummaryEntered(u, env);
      if WellFormedRound(w.tables, g) {
        EntersFromEvaluation(g, g, AdvanceToRoundSummary(u, env).world.game.value, h, s, TimerFires(timer), env);
      }
    }
  }

  lemma EvaluationLaw(w: World, h: History, s: Start, e: Event, env: Env)
    requires WorldOk(w) && LedgerOk(w, h, s) && w.game.Some? && w.game.value.phase == EVALUATING
    ensures ActsAsStated(w, Step(w, e, env).world, h, s, e, env)
  {
    match e
    case ReadyToggle(userId) => ToggleLaw(w, h, s, userId, env);
    case Disconnect(userId) => LeaveEvaluationLaw(w, h, s, userId, env);
    case TimerFires(timer) => EvaluationTimerLaw(w, h, s, timer, env);
    case _ => IgnoredLaw(w, h, s, e, env);
  }

  // ---------- ROUND_SUMMARY ----------

  /** From the state reached, the last round's summary is followed by the end, another's by the next round. */
  lemma NextEntered(u: World, env: Env)
    requires WorldOk(u) && u.game.Some? && u.game.value.phase == ROUND_SUMMARY
    ensures
      var (k, n) := (u.game.value, AdvanceFromRoundSummary(u, env).world.game);
      if Round(k) == Or(k.totalRounds, 0) then n == Some(Finished(k))
      else if env.selector.Some? then n == Some(NextRound(k, env.selector.value, env.now))
      else n == u.game
  {
  }

  lemma SummaryToggledContinues(w: World, h: History, s: Start, userId: nat)
    requires WorldOk(w) && w.game.Some? && w.game.value.phase == ROUND_SUMMARY && userId in w.game.value.memberOf
    ensures
      var g := w.game.value;
      var k := g.(phaseContext := ToggledSummary(g.phaseContext, userId));
      WorldOk(w.(game := Some(k))) && Continues(g, k, h, s, ReadyToggle(userId))
  {
    var g := w.game.value;
    SameInstanceKeepsTiming(w.timing, g, g.(phaseContext := ToggledSummary(g.phaseContext, userId)));
  }

  lemma EntersFromSummary(w: World, g: GameState, k: GameState, h: History, s: Start, e: Event, env: Env)
    requires g.phase == ROUND_SUMMARY && GameOk(k) && Continues(g, k, h, s, e)
    ensures Round(g) == Or(g.totalRounds, 0) ==> Enters(w, g, Finished(k), e, env)
    ensures Round(g) != Or(g.totalRounds, 0) && env.selector.Some? ==> Enters(w, g, NextRound(k, env.selector.value, env.now), e, env)
  {
  }

  lemma SummaryToggleLaw(w: World, h: History, s: Start, userId: nat, env: Env)
    requires WorldOk(w) && w.game.Some? && w.game.value.phase == ROUND_SUMMARY
    ensures ActsAsStated(w, ToggleReady(w, userId, env).world, h, s, ReadyToggle(userId), env)
  {
    var g := w.game.value;
    if userId in g.memberOf {
      var u := w.(game := Some(g.(phaseContext := ToggledSummary(g.phaseContext, userId))));
      SummaryToggledContinues(w, h, s, userId);
      NextEntered(u, env);
      EntersFromSummary(w, g, u.game.value, h, s, ReadyToggle(userId), env);
    }
  }

  lemma SummaryTimerLaw(w: World, h: History, s: Start, timer: nat, env: Env)
    requires WorldOk(w) && w.game.Some? && w.game.value.phase == ROUND_SUMMARY
    ensures ActsAsStated(w, Fire(w, timer, env).world, h, s, TimerFires(timer), env)
  {
    var g := w.game.value;
    SameContinues(g, h, s, TimerFires(timer));
    if timer in w.timing.timers {
      FiredOk(w, timer);
      NextEntered(Fired(w, timer), env);
      EntersFromSummary(w, g, g, h, s, TimerFires(timer), env);
    }
  }

  lemma SummaryLaw(w: World, h: History, s: Start, e: Event, env: Env)
    requires WorldOk(w) && w.game.Some? && w.game.value.phase == ROUND_SUMMARY
    ensures ActsAsStated(w, Step(w, e, env).world, h, s, e, env)
  {
    match e
    case ReadyToggle(userId) => SummaryToggleLaw(w, h, s, userId, env);
    case TimerFires(timer) => SummaryTimerLaw(w, h, s, timer, env);
    case Disconnect(userId) => LeavesWaitingForNobody(w, h, s, userId, env);
    case _ => IgnoredLaw(w, h, s, e, env);
  }

  // ---------- what lines and votes write ----------

  /** A line is stored, under round and sender, exactly for an active player while drawing goes on. */
  lemma LinesAsStated(w: World, userId: nat, line: DrawLine, env: Env)
    requires WorldOk(w) && w.game.Some?
    ensures
      var (g, r) := (w.game.value, Step(w, SendLine(userId, line), env));
      var k := StrokeKey(Round(g), userId);
      && (r.reply == Done <==> g.phase == DRAWING && HasActive(g.phaseContext) && userId in g.phaseContext.activeUserIds)
      && r.world == if r.reply == Done
                    then w.(tables := w.tables.(strokes := w.tables.strokes[k := StrokesAt(w.tables.strokes, k) + [line]]))
                    else w
  {
  }

  /** The id names the committed drawing of another member in this round. */
  ghost predicate NamesDrawingOf(w: World, g: GameState, drawingId: string, target: nat) {
    && target in g.memberOf
    && ParseDrawingId(drawingId) == Some(DrawingKey(g.matchId, g.memberOf[target], Round(g)))
    && DrawingKey(g.matchId, g.memberOf[target], Round(g)) in w.tables.drawings
  }

  /** A rating from 0 to 10 is stored exactly when a member gives it to another member's drawing of the round. */
  lemma VotesAsStated(w: World, userId: nat, drawingId: string, score: int, env: Env)
    requires WorldOk(w) && w.game.Some?
    ensures
      var (g, r) := (w.game.value, Step(w, SubmitEvaluation(userId, drawingId, score), env));
      && (r.reply == Done <==>
            && g.phase == EVALUATING && 0 <= score <= 10 && userId in g.memberOf
            && exists target :: target != userId && NamesDrawingOf(w, g, drawingId, target))
      && (r.reply == Done ==>
            && ParseDrawingId(drawingId).Some?
            && r.world == w.(tables := w.tables.(votes := w.tables.votes[VoteKey(ParseDrawingId(drawingId).value, userId) := score])))
      && (r.reply != Done ==> r.world == w)
  {
    var (g, r) := (w.game.value, Step(w, SubmitEvaluation(userId, drawingId, score), env));
    if r.reply == Done {
      var target :| target in g.memberOf && g.memberOf[target] == ParseDrawingId(drawingId).value.memberId;
      assert NamesDrawingOf(w, g, drawingId, target);
    }
    forall target | target != userId && NamesDrawingOf(w, g, drawingId, target) && userId in g.memberOf
      ensures g.memberOf[userId] != g.memberOf[target] && g.memberOf[target] in g.memberOf.Values {}
  }

  // ---------- over every run ----------

  lemma StepActsAsStated(w: World, h: History, s: Start, e: Event, env: Env)
    requires WorldOk(w) && LedgerOk(w, h, s) && w.game.Some?
    ensures ActsAsStated(w, Step(w, e, env).world, h, s, e, env)
  {
    match w.game.value.phase
    case LOADING => LoadingLaw(w, h, s, e, env);
    case THEME_SELECTING => ThemeLaw(w, h, s, e, env);
    case DRAWING => DrawingLaw(w, h, s, e, env);
    case EVALUATING => EvaluationLaw(w, h, s, e, env);
    case ROUND_SUMMARY => SummaryLaw(w, h, s, e, env);
    case _ => RestingLaw(w, h, s, e, env);
  }

  /** After any inputs of a match, the next one does exactly what the table says. */
  lemma EveryStepActsAsStated(w: World, s: Start, now: int, inputs: seq<Input>, e: Event, env: Env)
    requires Begins(w, s) && Match(w, s, now, inputs).game.Some?
    ensures ActsAsStated(Match(w, s, now, inputs), Step(Match(w, s, now, inputs), e, env).world, MatchRecord(w, s, now, inputs), s, e, env)
  {
    MatchOk(w, s, now, inputs);
    StepActsAsStated(Match(w, s, now, inputs), MatchRecord(w, s, now, inputs), s, e, env);
  }

  /** A match is three rounds: five seconds of loading, fourteen phase changes to WAITING, the end after round three. */
  lemma MatchIsThreeRounds(w: World, s: Start, now: int, inputs: seq<Input>)
    requires Begins(w, s) && Match(w, s, now, inputs).game.Some?
    ensures
      var first := Match(w, s, now, []);
      var g := Match(w, s, now, inputs).game.value;
      && first.game.Some? && first.game.value.phase == LOADING && first.game.value.endsAt == Some(now + 5000)
      && first.game.value.memberOf == s.memberOf && first.game.value.totalScores == map[]
      && Round(g) <= 3 && (g.phase == FINISHED ==> Round(g) == 3)
      && (g.phase == WAITING <==> PhaseChanges(first, inputs) == 14)
  {
    MatchLength(w, s.matchId, s.memberOf, now, inputs);
    MatchOk(w, s, now, inputs);
    RunCounts(InitializeGame(w, s.matchId, s.memberOf, now), inputs);
  }
}
