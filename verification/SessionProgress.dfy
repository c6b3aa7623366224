/**
 * No reachable phase is a trap: as long as the lines are well formed and the outside accepts,
 * one more input changes the phase, so every match can be played to its end.
 */
module SessionProgress {
  import opened Collections
  import opened GameTypes
  import opened GameSession
  import opened SessionInvariants
  import opened SessionRuns
  import opened MatchHistory

  /** Something is left to happen: a pending callback, or a selector who can choose. */
  ghost predicate Driven(w: World) {
    && w.game.Some?
    && (w.game.value.phase == WAITING || w.game.value.phase == THEME_SELECTING || w.timing.timers != map[])
  }

  ghost predicate WellFormed(t: Tables) {
    && (forall k | k in t.strokes :: IsValidDrawData(t.strokes[k]))
    && (forall d | d in t.drawings :: IsValidDrawData(t.drawings[d]))
  }

  /** The outside accepts: a selector is found, items settle, the payout is stored. */
  predicate Accepting(env: Env) {
    env.selector.Some? && env.itemsSettled && env.payoutStored
  }

  /** The selector chooses; in every other phase the pending callback fires. */
  ghost function Drive(w: World): Event
    requires Driven(w) && w.game.value.phase != WAITING
  {
    if w.game.value.phase == THEME_SELECTING
    then Finalize(if w.game.value.phaseContext.ThemeContext? then w.game.value.phaseContext.selectorId else 0, "theme")
    else TimerFires(Pick(w.timing.timers))
  }

  ghost predicate Advances(w: World, v: World) {
    && w.game.Some? && Driven(v) && v.game.value.memberOf == w.game.value.memberOf
    && v.game.value.phase != w.game.value.phase
    && (w.game.value.phase != DRAWING ==> v.tables == w.tables)
  }

  lemma ThemeIsChosen(w: World, env: Env)
    requires WorldOk(w) && w.game.Some? && w.game.value.phase == THEME_SELECTING
    ensures Advances(w, Step(w, Finalize(w.game.value.phaseContext.selectorId, "theme"), env).world)
  {
    assert TrimStart("theme") == "theme" && TrimEnd("theme") == "theme";
    var v := StartDrawingPhase(w, w.game.value.phaseContext.selectorId, "theme", env).world;
    assert w.timing.nextTimer in v.timing.timers;
  }

  lemma DrawingTimesOut(w: World, timer: nat, env: Env)
    requires WorldOk(w) && w.game.Some? && w.game.value.phase == DRAWING && timer in w.timing.timers && env.itemsSettled
    ensures Advances(w, Fire(w, timer, env).world)
    ensures Fire(w, timer, env).world.game.value.phase == EVALUATING
    ensures Commits(w, Fire(w, timer, env).world)
  {
    FiredOk(w, timer);
    var fired := Fired(w, timer);
    var instance := w.timing.timers[timer].task.phaseInstanceId;
    DrawingEndsUnlessUnsettled(fired, Some(instance), env);
    AdvanceToEvaluatingCommits(fired, Some(instance), env);
    assert fired.timing.nextTimer in Fire(w, timer, env).world.timing.timers;
  }

  lemma EvaluationTimesOut(w: World, timer: nat, env: Env)
    requires WorldOk(w) && WellFormed(w.tables)
    requires w.game.Some? && w.game.value.phase == EVALUATING && timer in w.timing.timers
    ensures Advances(w, Fire(w, timer, env).world)
  {
    FiredOk(w, timer);
    var fired := Fired(w, timer);
    EvaluationEndsUnlessMalformed(fired, env);
    AdvanceToRoundSummaryMerges(fired, env);
    assert fired.timing.nextTimer in AdvanceToRoundSummary(fired, env).world.timing.timers;
  }

  lemma SummaryTimesOut(w: World, timer: nat, env: Env)
    requires WorldOk(w) && Accepting(env)
    requires w.game.Some? && w.game.value.phase == ROUND_SUMMARY && timer in w.timing.timers
    ensures Advances(w, Fire(w, timer, env).world)
  {
    FiredOk(w, timer);
    var c := ClearPhase(Fired(w, timer).timing);
    assert c.nextTimer in ArmReturn(c, w.game.value).timers;
  }

  lemma LoadingOrFinishedTimesOut(w: World, timer: nat, env: Env)
    requires WorldOk(w) && Accepting(env) && timer in w.timing.timers
    requires w.game.Some? && (w.game.value.phase == LOADING || w.game.value.phase == FINISHED)
    ensures Advances(w, Fire(w, timer, env).world)
    ensures w.game.value.phase == FINISHED ==>
              w.timing.timers[timer].task.ReturnToWaiting? && Fire(w, timer, env).reply == Done
              && Fire(w, timer, env).world.game.value.phase == WAITING
  {
    FiredOk(w, timer);
  }

  lemma CommitKeepsWellFormed(w: World, v: World)
    requires w.game.Some? && v.game.Some? && GameOk(w.game.value) && w.game.value.phase == DRAWING
    requires Commits(w, v) && WellFormed(w.tables)
    ensures WellFormed(v.tables)
  {
    var g := w.game.value;
    CommittedRows(g, Round(g), g.phaseContext.activeUserIds, w.tables.strokes, w.tables.drawings);
  }

  lemma TimeoutAdvances(w: World, timer: nat, env: Env)
    requires WorldOk(w) && w.game.Some? && WellFormed(w.tables) && Accepting(env) && timer in w.timing.timers
    requires w.game.value.phase != WAITING && w.game.value.phase != THEME_SELECTING && w.game.value.phase != DRAWING
    ensures Advances(w, Fire(w, timer, env).world)
  {
    match w.game.value.phase
    case EVALUATING => EvaluationTimesOut(w, timer, env);
    case ROUND_SUMMARY => SummaryTimesOut(w, timer, env);
    case _ => LoadingOrFinishedTimesOut(w, timer, env);
  }

  lemma DrawingAdvances(w: World, timer: nat, env: Env)
    requires WorldOk(w) && w.game.Some? && WellFormed(w.tables) && Accepting(env) && timer in w.timing.timers
    requires w.game.value.phase == DRAWING
    ensures Advances(w, Fire(w, timer, env).world) && WellFormed(Fire(w, timer, env).world.tables)
  {
    DrawingTimesOut(w, timer, env);
    CommitKeepsWellFormed(w, Fire(w, timer, env).world);
  }

  lemma FiringAdvances(w: World, timer: nat, env: Env)
    requires WorldOk(w) && w.game.Some? && WellFormed(w.tables) && Accepting(env) && timer in w.timing.timers
    requires w.game.value.phase != WAITING && w.game.value.phase != THEME_SELECTING
    ensures Advances(w, Step(w, TimerFires(timer), env).world) && WellFormed(Step(w, TimerFires(timer), env).world.tables)
  {
    if w.game.value.phase == DRAWING {
      DrawingAdvances(w, timer, env);
    } else {
      TimeoutAdvances(w, timer, env);
    }
  }

  /** The driving input is accepted, changes the phase and keeps the members and the well-formed tables. */
  lemma DriveAdvances(w: World, env: Env)
    requires WorldOk(w) && Driven(w) && WellFormed(w.tables) && Accepting(env) && w.game.value.phase != WAITING
    ensures Advances(w, Step(w, Drive(w), env).world) && WellFormed(Step(w, Drive(w), env).world.tables)
  {
    if w.game.value.phase == THEME_SELECTING {
      ThemeIsChosen(w, env);
    } else {
      FiringAdvances(w, Pick(w.timing.timers), env);
    }
  }

  /** From here the match can be played to WAITING with nobody leaving, in just the phase changes left. */
  lemma {:induction false} EveryMatchCanFinish(w: World, env: Env) returns (inputs: seq<Input>)
    requires WorldOk(w) && Driven(w) && WellFormed(w.tables) && Accepting(env)
    ensures
      var v := Run(w, inputs);
      && v.game.Some? && v.game.value.phase == WAITING && v.game.value.memberOf == w.game.value.memberOf
      && |inputs| == PhasesLeft(w.game.value)
    decreases PhasesLeft(w.game.value)
  {
    if w.game.value.phase == WAITING {
      inputs := [];
    } else {
      var first := Input(Drive(w), env);
      var v := Step(w, first.event, env).world;
      DriveAdvances(w, env);
      StepKeeps(w, first.event, env);
      StepMoves(w, first.event, env);
      var rest := EveryMatchCanFinish(v, env);
      inputs := [first] + rest;
      RunFrom(w, first, rest);
    }
  }

  lemma {:induction false} RunFrom(w: World, first: Input, rest: seq<Input>)
    ensures Run(w, [first] + rest) == Run(Step(w, first.event, first.env).world, rest)
  {
    if rest == [] {
      assert [first] + rest == [first] && [first][..0] == [];
      assert Run(w, []) == w;
    } else {
      var all := [first] + rest;
      assert all[..|all| - 1] == [first] + rest[..|rest| - 1];
      RunFrom(w, first, rest[..|rest| - 1]);
    }
  }
}
