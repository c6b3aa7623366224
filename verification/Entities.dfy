/** The two short-lived objects handlers build from stored state, mutate step by step, and read back. */
module Entities {
  import opened Collections
  import opened GameTypes
  import S = GameSession

  class GameSessionEntity {
    var state: GameState

    constructor Restore(state: GameState)
      ensures this.state == state
    {
      this.state := state;
    }

    method StartThemeSelection(selectorId: nat, now: int) returns (r: Result<(), Error>)
      modifies this
      ensures r == if old(state).phase == LOADING then Ok(()) else Err(PHASE_MUST_BE_LOADING)
      ensures state == if r.Ok? then S.ThemesStarted(old(state), selectorId, now) else old(state)
    {
      if state.phase != LOADING { return Err(PHASE_MUST_BE_LOADING); }
      state := state.(phase := THEME_SELECTING);
      state := state.(endsAt := Some(now + THEME_SELECTING_DURATION_MS));
      state := state.(currentTheme := None);
      state := state.(phaseContext := ThemeContext(selectorId));
      return Ok(());
    }

    method StartDrawing(userId: nat, theme: string, activeUserIds: seq<nat>, instance: nat, now: int)
      returns (r: Result<(), Error>)
      modifies this
      ensures
        var started := S.StartDrawing(old(state), userId, theme, activeUserIds, instance, now);
        if started.Ok? then r == Ok(()) && state == started.value
        else r == Err(started.error) && state == old(state)
    {
      if state.phase != THEME_SELECTING { return Err(PHASE_MUST_BE_THEME_SELECTING); }
      var context := state.phaseContext;
      if !context.ThemeContext? { return Err(CONTEXT_INVALID); }
      if context.selectorId != userId { return Err(PERMISSION_DENIED_SELECTOR); }
      var trimmed := Trim(theme);
      if trimmed == "" { return Err(THEME_INVALID); }

      state := state.(phase := DRAWING);
      state := state.(currentTheme := Some(trimmed));
      state := state.(endsAt := Some(now + DRAWING_DURATION_MS));
      if state.currentRound.None? || state.currentRound.value == 0 { state := state.(currentRound := Some(1)); }
      if state.totalRounds.None? || state.totalRounds.value == 0 { state := state.(totalRounds := Some(TOTAL_ROUNDS)); }
      state := state.(phaseContext := DrawingContext(instance, activeUserIds, []));
      state := state.(recentThemes := RecordTheme(trimmed, state.recentThemes));
      return Ok(());
    }

    method AdvanceToThemeSelecting(endsAt: int, selectorId: nat) returns (r: Result<(), Error>)
      modifies this
      ensures r.Ok? <==> old(state).phase == ROUND_SUMMARY && !IsLastRound(old(state))
      ensures r.Err? ==> r.error == CONTEXT_INVALID && state == old(state)
      ensures r.Ok? ==> state == S.NextRound(old(state), selectorId, endsAt - THEME_SELECTING_DURATION_MS)
    {
      if state.phase != ROUND_SUMMARY { return Err(CONTEXT_INVALID); }
      var currentRound := Or(state.currentRound, 1);
      if IsLastRound(state) { return Err(CONTEXT_INVALID); }
      state := state.(currentTheme := None);
      state := state.(endsAt := None);
      state := state.(phaseContext := NoContext);
      state := state.(currentRound := Some(currentRound + 1));
      state := state.(phase := THEME_SELECTING);
      state := state.(endsAt := Some(endsAt));
      state := state.(phaseContext := ThemeContext(selectorId));
      return Ok(());
    }

    method AdvanceToFinished() returns (r: Result<(), Error>)
      modifies this
      ensures r == if old(state).phase == ROUND_SUMMARY then Ok(()) else Err(CONTEXT_INVALID)
      ensures state == if r.Ok? then S.Finished(old(state)) else old(state)
    {
      if state.phase != ROUND_SUMMARY { return Err(CONTEXT_INVALID); }
      state := state.(currentTheme := None);
      state := state.(endsAt := None);
      state := state.(phaseContext := NoContext);
      state := state.(phase := FINISHED);
      return Ok(());
    }
  }

  class DrawingPhaseContextEntity {
    const phaseInstanceId: nat
    var activeUserIds: seq<nat>
    var readyUserIds: seq<nat>

    constructor FromPhaseContext(ctx: PhaseContext)
      requires ctx.DrawingContext?
      ensures ToPlain() == ctx
    {
      phaseInstanceId := ctx.phaseInstanceId;
      activeUserIds := ctx.activeUserIds;
      readyUserIds := ctx.readyUserIds;
    }

    function ToPlain(): PhaseContext
      reads this
    {
      DrawingContext(phaseInstanceId, activeUserIds, readyUserIds)
    }

    predicate IsReadyToAdvance()
      reads this
    {
      |activeUserIds| > 0 && |readyUserIds| >= |activeUserIds|
    }

    method MarkReady(userId: nat) returns (r: Result<bool, Error>)
      modifies this
      ensures r.Err? <==> userId !in old(activeUserIds)
      ensures r.Err? ==> r.error == USER_NOT_ACTIVE && ToPlain() == old(ToPlain())
      ensures r.Ok? ==> ToPlain() == S.MarkReady(old(ToPlain()), userId) && (r.value <==> userId !in old(readyUserIds))
    {
      if userId !in activeUserIds { return Err(USER_NOT_ACTIVE); }
      if userId in readyUserIds { return Ok(false); }
      readyUserIds := readyUserIds + [userId];
      return Ok(true);
    }

    method RemoveUser(userId: nat) returns (removed: bool)
      modifies this
      ensures removed <==> userId in old(activeUserIds)
      ensures ToPlain() == if removed then S.RemoveUser(old(ToPlain()), userId) else old(ToPlain())
    {
      if userId !in activeUserIds { return false; }
      activeUserIds := Without(activeUserIds, userId);
      readyUserIds := Without(readyUserIds, userId);
      return true;
    }
  }
}
