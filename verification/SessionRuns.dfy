/** Whole runs of a match: phase changes are counted exactly, and no stale timer is ever pending. */
module SessionRuns {
  import opened Collections
  import opened GameTypes
  import opened Scoring
  import opened GameSession
  import opened SessionInvariants

  datatype Input = Input(event: Event, env: Env)

  ghost function Run(w: World, inputs: seq<Input>): World {
    if inputs == [] then w
    else
      var before := Run(w, inputs[..|inputs| - 1]);
      var last := inputs[|inputs| - 1];
      Step(before, last.event, last.env).world
  }

  /** How many phase changes are left until the room is back in WAITING. */
  function PhasesLeft(g: GameState): int {
    var roundsAfter := Or(g.totalRounds, TOTAL_ROUNDS) - Round(g);
    match g.phase
    case LOADING => 4 * roundsAfter + 6
    case THEME_SELECTING => 4 * roundsAfter + 5
    case DRAWING => 4 * roundsAfter + 4
    case EVALUATING => 4 * roundsAfter + 3
    case ROUND_SUMMARY => 4 * roundsAfter + 2
    case FINISHED => 1
    case WAITING => 0
  }

  ghost predicate Shrinks(before: map<nat, nat>, after: map<nat, nat>) {
    forall u | u in after :: u in before && after[u] == before[u]
  }

  /** One step stays in its phase and round, or makes exactly the next phase change. */
  ghost predicate Moves(g: GameState, n: GameState) {
    && n.matchId == g.matchId
    && n.totalRounds == g.totalRounds
    && Shrinks(g.memberOf, n.memberOf)
    && if n.phase == g.phase then n.currentRound == g.currentRound else PhasesLeft(n) == PhasesLeft(g) - 1
  }

  ghost predicate WorldMoves(w: World, v: World) {
    && (w.game.None? ==> v.game.None?)
    && (w.game.Some? && v.game.Some? ==> Moves(w.game.value, v.game.value))
  }

  ghost predicate SamePhase(g: GameState, n: GameState) {
    && n.matchId == g.matchId && n.totalRounds == g.totalRounds && n.currentRound == g.currentRound
    && n.phase == g.phase && Shrinks(g.memberOf, n.memberOf)
  }

  lemma EvaluatingMoves(w: World, g: GameState, expected: Option<nat>, env: Env)
    requires WorldOk(w) && w.game.Some? && SamePhase(g, w.game.value)
    ensures WorldMoves(w.(game := Some(g)), AdvanceToEvaluating(w, expected, env).world)
  {
  }

  ghost predicate SummaryFollows(w: World, v: World) {
    v.game == w.game ||
    (w.game.Some? && v.game.Some? && w.game.value.phase == EVALUATING &&
     var (g, n) := (w.game.value, v.game.value);
     && n.phase == ROUND_SUMMARY && n.matchId == g.matchId && n.totalRounds == g.totalRounds
     && n.currentRound == g.currentRound && n.memberOf == g.memberOf)
  }

  lemma RoundSummaryFollows(w: World, env: Env)
    ensures SummaryFollows(w, AdvanceToRoundSummary(w, env).world)
  {
  }

  lemma RoundSummaryMoves(w: World, g: GameState, env: Env)
    requires WorldOk(w) && w.game.Some? && SamePhase(g, w.game.value)
    ensures WorldMoves(w.(game := Some(g)), AdvanceToRoundSummary(w, env).world)
  {
    RoundSummaryFollows(w, env);
    FollowsMoves(w, AdvanceToRoundSummary(w, env).world, g);
  }

  lemma FollowsMoves(w: World, v: World, g: GameState)
    requires w.game.Some? && SamePhase(g, w.game.value) && SummaryFollows(w, v)
    ensures WorldMoves(w.(game := Some(g)), v)
  {
  }

  lemma NextPhaseMoves(g: GameState, n: GameState, selectorId: nat, now: int)
    requires GameOk(n) && SamePhase(g, n) && n.phase == ROUND_SUMMARY
    ensures IsLastRound(n) ==> Moves(g, Finished(n))
    ensures !IsLastRound(n) ==> Moves(g, NextRound(n, selectorId, now))
  {
  }

  lemma FromRoundSummaryMoves(w: World, g: GameState, env: Env)
    requires WorldOk(w) && w.game.Some? && SamePhase(g, w.game.value)
    ensures WorldMoves(w.(game := Some(g)), AdvanceFromRoundSummary(w, env).world)
  {
    var n := w.game.value;
    if n.phase == ROUND_SUMMARY {
      NextPhaseMoves(g, n, Or(env.selector, 0), env.now);
      var v := AdvanceFromRoundSummary(w, env).world;
      assert v.game == w.game || v.game == Some(Finished(n)) || v.game == Some(NextRound(n, Or(env.selector, 0), env.now));
    }
  }

  lemma DisconnectMoves(w: World, userId: nat, env: Env)
    requires WorldOk(w) && w.game.Some?
    ensures WorldMoves(w, HandleDisconnect(w, userId, env).world)
  {
    var g := w.game.value;
    var n := Leave(g, userId);
    if |n.memberOf| >= 2 && (g.phase == DRAWING || g.phase == EVALUATING) && userId in g.phaseContext.activeUserIds {
      DepartedOk(w, userId);
      var d := Departed(w, userId);
      assert w.(game := Some(g)) == w && d.(game := Some(g)) == w;
      if g.phase == DRAWING {
        EvaluatingMoves(d, g, None, env);
      } else {
        RoundSummaryMoves(d, g, env);
      }
    }
  }

  lemma ToggleEvaluationMoves(w: World, g: GameState, userId: nat, env: Env)
    requires WorldOk(w) && w.game == Some(g) && g.phase == EVALUATING
    ensures WorldMoves(w, ToggleEvaluationReady(w, g, userId, env).world)
  {
    var toggled := w.(game := Some(g.(phaseContext := ToggledEvaluation(g.phaseContext, userId))));
    SameInstanceKeepsTiming(w.timing, w.game.value, toggled.game.value);
    assert toggled.(game := Some(g)) == w;
    RoundSummaryMoves(toggled, g, env);
  }

  lemma ToggleSummaryMoves(w: World, g: GameState, userId: nat, env: Env)
    requires WorldOk(w) && w.game == Some(g) && g.phase == ROUND_SUMMARY
    ensures WorldMoves(w, ToggleSummaryReady(w, g, userId, env).world)
  {
    var toggled := w.(game := Some(g.(phaseContext := ToggledSummary(g.phaseContext, userId))));
    SameInstanceKeepsTiming(w.timing, w.game.value, toggled.game.value);
    assert toggled.(game := Some(g)) == w;
    FromRoundSummaryMoves(toggled, g, env);
  }

  lemma SubmitMoves(w: World, userId: nat, env: Env)
    requires WorldOk(w) && w.game.Some?
    ensures WorldMoves(w, Submit(w, userId, env).world)
  {
    var g := w.game.value;
    if g.phaseContext.DrawingContext? && userId in g.phaseContext.activeUserIds {
      var marked := w.(game := Some(g.(phaseContext := MarkReady(g.phaseContext, userId))));
      SameInstanceKeepsTiming(w.timing, w.game.value, marked.game.value);
      assert marked.(game := Some(g)) == w;
      EvaluatingMoves(marked, g, None, env);
    }
  }

  lemma FireMoves(w: World, timer: nat, env: Env)
    requires WorldOk(w) && w.game.Some?
    ensures WorldMoves(w, Fire(w, timer, env).world)
  {
    if timer in w.timing.timers {
      FiredOk(w, timer);
      var fired := Fired(w, timer);
      match w.timing.timers[timer].task
      case StartThemes =>
      case EndDrawing(instance) => EvaluatingMoves(fired, w.game.value, Some(instance), env);
      case EndEvaluating => RoundSummaryMoves(fired, w.game.value, env);
      case EndSummary => FromRoundSummaryMoves(fired, w.game.value, env);
      case ReturnToWaiting =>
    }
  }

  lemma StartDrawingMoves(w: World, userId: nat, typedValue: string, env: Env)
    requires WorldOk(w) && w.game.Some?
    ensures WorldMoves(w, StartDrawingPhase(w, userId, typedValue, env).world)
  {
  }

  lemma VoteMoves(w: World, userId: nat, drawingId: string, score: int)
    ensures SubmitVote(w, userId, drawingId, score).world.game == w.game
  {
  }

  lemma ToggleMoves(w: World, userId: nat, env: Env)
    requires WorldOk(w) && w.game.Some?
    ensures WorldMoves(w, ToggleReady(w, userId, env).world)
  {
    if w.game.value.phase == EVALUATING {
      ToggleEvaluationMoves(w, w.game.value, userId, env);
    } else if w.game.value.phase == ROUND_SUMMARY {
      ToggleSummaryMoves(w, w.game.value, userId, env);
    }
  }

  lemma NoGameMoves(w: World, e: Event, env: Env)
    requires w.game.None?
    ensures Step(w, e, env).world.game.None?
  {
  }

  lemma StepMoves(w: World, e: Event, env: Env)
    requires WorldOk(w)
    ensures WorldMoves(w, Step(w, e, env).world)
  {
    if w.game.None? {
      NoGameMoves(w, e, env);
    } else {
      match e
      case Finalize(userId, typedValue) => StartDrawingMoves(w, userId, typedValue, env);
      case SendLine(userId, line) =>
      case SubmitDrawing(userId) => SubmitMoves(w, userId, env);
      case SubmitEvaluation(userId, drawingId, score) => VoteMoves(w, userId, drawingId, score);
      case ReadyToggle(userId) => ToggleMoves(w, userId, env);
      case Disconnect(userId) => DisconnectMoves(w, userId, env);
      case TimerFires(timer) => FireMoves(w, timer, env);
    }
  }

  // ---------- runs ----------

  lemma {:induction false} RunKeeps(w: World, inputs: seq<Input>)
    requires WorldOk(w)
    ensures WorldOk(Run(w, inputs))
  {
    if inputs != [] {
      var last := inputs[|inputs| - 1];
      RunKeeps(w, inputs[..|inputs| - 1]);
      StepKeeps(Run(w, inputs[..|inputs| - 1]), last.event, last.env);
    }
  }

  lemma StartOk(w: World, matchId: nat, memberOf: map<nat, nat>, now: int)
    requires w.timing.timers == map[] && MembersOk(memberOf)
    ensures WorldOk(InitializeGame(w, matchId, memberOf, now))
  {
  }

  /** Every state a match can reach, whatever its clients, timers and sockets do. */
  lemma ReachableOk(w: World, matchId: nat, memberOf: map<nat, nat>, now: int, inputs: seq<Input>)
    requires w.timing.timers == map[] && MembersOk(memberOf)
    ensures
      var v := Run(InitializeGame(w, matchId, memberOf, now), inputs);
      v.game.Some? ==> GameOk(v.game.value)
  {
    StartOk(w, matchId, memberOf, now);
    RunKeeps(InitializeGame(w, matchId, memberOf, now), inputs);
  }

  ghost function PhaseChanges(w: World, inputs: seq<Input>): nat {
    if inputs == [] then 0
    else
      var front := inputs[..|inputs| - 1];
      var (before, after) := (Run(w, front), Run(w, inputs));
      PhaseChanges(w, front)
      + if before.game.Some? && after.game.Some? && before.game.value.phase != after.game.value.phase then 1 else 0
  }

  /** Nothing is skipped and nothing is repeated: each phase change uses up exactly one of those left. */
  lemma {:induction false} RunCounts(w: World, inputs: seq<Input>)
    requires WorldOk(w) && Run(w, inputs).game.Some?
    ensures w.game.Some?
    ensures PhasesLeft(w.game.value) == PhasesLeft(Run(w, inputs).game.value) + PhaseChanges(w, inputs)
    ensures Run(w, inputs).game.value.matchId == w.game.value.matchId
    ensures Run(w, inputs).game.value.totalRounds == w.game.value.totalRounds
    ensures Shrinks(w.game.value.memberOf, Run(w, inputs).game.value.memberOf)
  {
    if inputs != [] {
      var front := inputs[..|inputs| - 1];
      var last := inputs[|inputs| - 1];
      RunKeeps(w, front);
      StepMoves(Run(w, front), last.event, last.env);
      RunCounts(w, front);
      var (g, n) := (Run(w, front).game.value, Run(w, inputs).game.value);
      assert n.phase == g.phase ==> PhasesLeft(n) == PhasesLeft(g);
    }
  }

  /**
   * A match that is not aborted is back in WAITING after exactly 4 * rounds + 2 phase
   * changes, no sooner and no later; and FINISHED is entered with one change left,
   * when every round has had its summary.
   */
  lemma MatchLength(w: World, matchId: nat, memberOf: map<nat, nat>, now: int, inputs: seq<Input>)
    requires w.timing.timers == map[] && MembersOk(memberOf)
    requires Run(InitializeGame(w, matchId, memberOf, now), inputs).game.Some?
    ensures
      var start := InitializeGame(w, matchId, memberOf, now);
      var g := Run(start, inputs).game.value;
      && (g.phase == WAITING <==> PhaseChanges(start, inputs) == 4 * TOTAL_ROUNDS + 2)
      && (g.phase == FINISHED <==> PhaseChanges(start, inputs) == 4 * TOTAL_ROUNDS + 1)
      && (g.phase == FINISHED ==> g.currentRound == Some(TOTAL_ROUNDS))
      && PhaseChanges(start, inputs) <= 4 * TOTAL_ROUNDS + 2
  {
    var start := InitializeGame(w, matchId, memberOf, now);
    StartOk(w, matchId, memberOf, now);
    RunKeeps(start, inputs);
    RunCounts(start, inputs);
  }

  // ---------- timers ----------

  /**
   * In every reachable live state at most one callback is pending, and it was armed by
   * the phase of the match and round the game is in: no stale timer can end a later phase.
   */
  lemma TimersAreCurrent(w: World, matchId: nat, memberOf: map<nat, nat>, now: int, inputs: seq<Input>)
    requires w.timing.timers == map[] && MembersOk(memberOf)
    requires Run(InitializeGame(w, matchId, memberOf, now), inputs).game.Some?
    ensures
      var v := Run(InitializeGame(w, matchId, memberOf, now), inputs);
      && |v.timing.timers| <= 1
      && forall id | id in v.timing.timers :: Fits(v.timing.timers[id], v.game.value)
  {
    var v := Run(InitializeGame(w, matchId, memberOf, now), inputs);
    StartOk(w, matchId, memberOf, now);
    RunKeeps(InitializeGame(w, matchId, memberOf, now), inputs);
    forall id | id in v.timing.timers ensures Fits(v.timing.timers[id], v.game.value) {
      assert TimerOk(v.timing, v.game, id);
    }
    if v.timing.timers != map[] {
      var id :| id in v.timing.timers;
      assert v.timing.timers.Keys == {id};
    }
  }

  /** When a drawing timer fires, only an unsettled item inventory can keep the phase from ending. */
  lemma DrawingEndsUnlessUnsettled(w: World, expected: Option<nat>, env: Env)
    requires WorldOk(w) && w.game.Some? && w.game.value.phase == DRAWING
    requires expected.Some? ==> w.game.value.phaseContext.phaseInstanceId == expected.value
    ensures AdvanceToEvaluating(w, expected, env).reply == (if env.itemsSettled then Done else Refused(INVENTORY_NEGATIVE))
    ensures !env.itemsSettled ==> AdvanceToEvaluating(w, expected, env).world == w
  {
  }

  /** The evaluation ends when asked unless a committed line is malformed; then it never can. */
  lemma EvaluationEndsUnlessMalformed(w: World, env: Env)
    requires WorldOk(w) && w.game.Some? && w.game.value.phase == EVALUATING
    ensures
      var g := w.game.value;
      AdvanceToRoundSummary(w, env).reply ==
      if forall d | d in OfRound(w.tables.drawings, g.matchId, g.currentRound.value) :: IsValidDrawData(w.tables.drawings[d])
      then Done else Refused(DRAW_DATA_INVALID)
  {
  }
}
