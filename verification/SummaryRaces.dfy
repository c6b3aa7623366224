/**
 * The two guarded handlers taken apart at their awaits: advanceToRoundSummary and
 * advanceFromRoundSummary may be entered any number of times, by timers, ready toggles and
 * disconnects, and resumed in any order, with every other handler running in between.
 * Reading, testing and taking the summary guard is one step.
 */
module SummaryRaces {
  import opened Collections
  import opened DrawingKeys
  import opened GameTypes
  import opened Scoring
  import opened GameSession
  import opened SessionInvariants
  import opened MatchHistory

  /** Where a suspended handler goes on. */
  datatype Pending =
    | Summarizing(seen: GameState)
    | Merging(seen: GameState, scores: map<string, int>, context: PhaseContext, totals: map<string, int>)
    | ArmingSummary
    | Exiting
    | Leaving(seen: GameState)
    | Paying(patched: GameState)

  /** `merges` and `exits` only record what was patched. */
  datatype Race = Race(
    world: World,
    exitGuard: bool,
    pending: map<nat, Pending>,
    nextId: nat,
    merges: seq<map<string, int>>,
    exits: nat)

  datatype Move = Elsewhere(event: Event, env: Env) | CallSummary | CallExit | Resume(id: nat, env: Env)

  function Suspend(r: Race, p: Pending): Race {
    r.(pending := r.pending[r.nextId := p], nextId := r.nextId + 1)
  }

  function End(r: Race, id: nat): Race {
    r.(pending := r.pending - {id})
  }

  function Continue(r: Race, id: nat, p: Pending): Race {
    r.(pending := r.pending[id := p])
  }

  function Unguard(w: World): World {
    w.(summaryGuard := false)
  }

  ghost function EnterSummary(r: Race): Race {
    var w := r.world;
    if w.game.None? || w.game.value.phase != EVALUATING || w.summaryGuard then r
    else Suspend(r, Summarizing(w.game.value)).(world := ClearPhaseTimer(w).(summaryGuard := true))
  }

  ghost function Summarize(r: Race, id: nat, g: GameState): Race {
    var summary := ComputeRoundSummary(g, r.world.tables.drawings, r.world.tables.votes);
    if summary.Err? then End(r, id).(world := Unguard(r.world))
    else
      var scores := RoundScores(r.world.tables.drawings, r.world.tables.votes, g.matchId, g.currentRound.value);
      Continue(r, id, Merging(g, scores, summary.value.context, summary.value.totals))
  }

  function MergePatch(g: GameState, context: PhaseContext, totals: map<string, int>, now: int): GameState {
    g.(phase := ROUND_SUMMARY, endsAt := Some(now + ROUND_SUMMARY_DURATION_MS), phaseContext := context,
       totalScores := totals)
  }

  function Merge(r: Race, id: nat, p: Pending, now: int): Race
    requires p.Merging?
  {
    if r.world.game.None? then End(r, id).(world := Unguard(r.world))
    else
      Continue(r, id, ArmingSummary).(
        world := r.world.(game := Some(MergePatch(r.world.game.value, p.context, p.totals, now))),
        merges := r.merges + [p.scores])
  }

  function ArmSummary(r: Race, id: nat): Race {
    var w := r.world;
    if w.game.None? || w.game.value.phase != ROUND_SUMMARY || w.game.value.endsAt.None? then End(r, id)
    else End(r, id).(world := w.(timing := Arm(ClearPhase(w.timing), EndSummary, w.game.value)))
  }

  function EnterExit(r: Race): Race {
    if r.exitGuard then r else Suspend(r, Exiting).(exitGuard := true)
  }

  function LeaveGuard(r: Race, id: nat): Race {
    End(r, id).(exitGuard := false)
  }

  ghost function ReadForExit(r: Race, id: nat): Race {
    var w := r.world;
    if w.game.None? || w.game.value.phase != ROUND_SUMMARY then LeaveGuard(r, id)
    else Continue(r, id, Leaving(w.game.value)).(world := ClearPhaseTimer(w))
  }

  function ExitPatch(g: GameState, next: GameState): GameState {
    g.(phase := next.phase, endsAt := next.endsAt, phaseContext := next.phaseContext, currentTheme := next.currentTheme,
       currentRound := next.currentRound)
  }

  function Exit(r: Race, id: nat, seen: GameState, env: Env): Race {
    if !IsLastRound(seen) && env.selector.None? then LeaveGuard(r, id)
    else if r.world.game.None? then LeaveGuard(r, id)
    else
      var next := if IsLastRound(seen) then Finished(seen) else NextRound(seen, env.selector.value, env.now);
      var patched := ExitPatch(r.world.game.value, next);
      var after := if IsLastRound(seen) then Continue(r, id, Paying(patched)) else LeaveGuard(r, id);
      after.(world := r.world.(game := Some(patched)), exits := r.exits + 1)
  }

  function Pay(r: Race, id: nat, patched: GameState, env: Env): Race {
    var w := if env.payoutStored then r.world.(timing := ArmReturn(r.world.timing, patched)) else r.world;
    LeaveGuard(r, id).(world := w)
  }

  ghost function ResumeAt(r: Race, id: nat, env: Env): Race {
    if id !in r.pending then r
    else
      match r.pending[id]
      case Summarizing(g) => Summarize(r, id, g)
      case Merging(_, _, _, _) => Merge(r, id, r.pending[id], env.now)
      case ArmingSummary => ArmSummary(r, id)
      case Exiting => ReadForExit(r, id)
      case Leaving(g) => Exit(r, id, g, env)
      case Paying(g) => Pay(r, id, g, env)
  }

  /** The other handlers, each atomic; where one would go on to call a guarded handler, that call is a move of its own. */
  ghost function Other(w: World, e: Event, env: Env): World {
    match e
    case ReadyToggle(userId) => OtherToggle(w, userId)
    case Disconnect(userId) =>
      if w.game.Some? && w.game.value.phase == EVALUATING then OtherLeave(w, w.game.value, userId)
      else HandleDisconnect(w, userId, env).world
    case TimerFires(timer) =>
      if timer in w.timing.timers && (w.timing.timers[timer].task.EndEvaluating? || w.timing.timers[timer].task.EndSummary?)
      then Fired(w, timer) else Fire(w, timer, env).world
    case _ => Step(w, e, env).world
  }

  ghost function OtherToggle(w: World, userId: nat): World {
    if w.game.None? then w
    else
      var g := w.game.value;
      if g.phase == EVALUATING && g.phaseContext.EvaluatingContext? &&
         (userId in g.phaseContext.readyUserIds || IsEvaluationComplete(g, w.tables.votes, userId))
      then w.(game := Some(g.(phaseContext := ToggledEvaluation(g.phaseContext, userId))))
      else if g.phase == ROUND_SUMMARY && g.phaseContext.RoundSummaryContext? && userId in g.memberOf
      then w.(game := Some(g.(phaseContext := ToggledSummary(g.phaseContext, userId))))
      else w
  }

  ghost function OtherLeave(w: World, g: GameState, userId: nat): World {
    var left := Leave(g, userId);
    if |left.memberOf| <= 1 then ClearPhaseTimer(w).(game := None)
    else if g.phaseContext.EvaluatingContext? && userId in g.phaseContext.activeUserIds
    then w.(game := Some(left.(phaseContext := RemoveUser(g.phaseContext, userId))))
    else w.(game := Some(left))
  }

  ghost function Next(r: Race, m: Move): Race {
    match m
    case Elsewhere(event, env) => r.(world := Other(r.world, event, env))
    case CallSummary => EnterSummary(r)
    case CallExit => EnterExit(r)
    case Resume(id, env) => ResumeAt(r, id, env)
  }

  ghost function RunRace(r: Race, moves: seq<Move>): Race {
    if moves == [] then r else Next(RunRace(r, moves[..|moves| - 1]), moves[|moves| - 1])
  }

  // ---------- what the interleavings keep ----------

  predicate InSummary(p: Pending) {
    p.Summarizing? || p.Merging?
  }

  predicate InExit(p: Pending) {
    p.Exiting? || p.Leaving? || p.Paying?
  }

  predicate Closed(g: GameState) {
    g.phase == FINISHED || g.phase == WAITING
  }

  /** What a suspended handler read is still what is stored, as far as it will overwrite it. */
  ghost predicate StillThere(seen: GameState, game: Option<GameState>) {
    && RoundsOk(seen)
    && (game.Some? ==>
          && game.value.phase == seen.phase && game.value.matchId == seen.matchId
          && game.value.currentRound == seen.currentRound && game.value.totalRounds == seen.totalRounds
          && game.value.totalScores == seen.totalScores)
  }

  ghost predicate PendingOk(r: Race, id: nat)
    requires id in r.pending
  {
    && id < r.nextId
    && match r.pending[id]
       case Summarizing(g) => r.world.summaryGuard && g.phase == EVALUATING && StillThere(g, r.world.game)
       case Merging(g, scores, context, totals) =>
         r.world.summaryGuard && g.phase == EVALUATING && StillThere(g, r.world.game) && totals == MergeTotals(g.totalScores, scores)
       case ArmingSummary => true
       case Exiting => r.exitGuard
       case Leaving(g) => r.exitGuard && g.phase == ROUND_SUMMARY && StillThere(g, r.world.game)
       case Paying(g) => r.exitGuard
  }

  ghost function MergeAll(merges: seq<map<string, int>>): map<string, int> {
    if merges == [] then map[] else MergeTotals(MergeAll(merges[..|merges| - 1]), merges[|merges| - 1])
  }

  ghost predicate Counted(g: GameState, merges: seq<map<string, int>>, exits: nat) {
    && RoundsOk(g) && g.totalRounds == Some(TOTAL_ROUNDS)
    && |merges| == MergedThrough(g)
    && g.totalScores == MergeAll(merges)
    && exits == Round(g) - 1 + if Closed(g) then 1 else 0
  }

  ghost predicate RaceOk(r: Race) {
    && (forall id | id in r.pending :: PendingOk(r, id))
    && (forall a, b | a in r.pending && b in r.pending && InSummary(r.pending[a]) && InSummary(r.pending[b]) :: a == b)
    && (forall a, b | a in r.pending && b in r.pending && InExit(r.pending[a]) && InExit(r.pending[b]) :: a == b)
    && (r.world.game.Some? ==> Counted(r.world.game.value, r.merges, r.exits))
  }

  ghost predicate Keeps(g: GameState, n: GameState) {
    && RoundsOk(n) && n.matchId == g.matchId && n.totalScores == g.totalScores
    && n.currentRound == g.currentRound && n.totalRounds == g.totalRounds
    && MergedThrough(n) == MergedThrough(g) && (Closed(n) <==> Closed(g))
    && (g.phase == EVALUATING || g.phase == ROUND_SUMMARY ==> n.phase == g.phase)
    && (n.phase == EVALUATING && g.phase != EVALUATING ==> g.phase == DRAWING)
  }

  /** What the other handlers may do to the fields the guarded ones overwrite. */
  ghost predicate Undisturbed(w: World, v: World) {
    && (w.game.None? ==> v.game.None?)
    && (w.game.Some? && v.game.Some? ==> Keeps(w.game.value, v.game.value))
    && (v.summaryGuard == w.summaryGuard || (w.game.Some? && w.game.value.phase == DRAWING))
  }

  lemma EvaluatingUndisturbed(w: World, u: World, expected: Option<nat>, env: Env)
    requires w.game.Some? && RoundsOk(w.game.value) && Undisturbed(w, u) && u.game.Some?
    requires u.summaryGuard == w.summaryGuard && u.game.value.phase == w.game.value.phase
    ensures Undisturbed(w, AdvanceToEvaluating(u, expected, env).world)
  {
  }

  lemma ThemeLeaveUndisturbed(w: World, g: GameState, userId: nat, env: Env)
    requires w.game.Some? && RoundsOk(w.game.value) && g == Leave(w.game.value, userId) && g.phase == THEME_SELECTING
    ensures Undisturbed(w, LeaveThemeSelecting(w, g, userId, env).world)
  {
    DrawingStartKeeps(w.game.value, g, env.theme, ActiveMembers(g, env.connected), w.nextInstance, env.now);
    assert Keeps(w.game.value, g);
  }

  lemma DrawingStartKeeps(g: GameState, left: GameState, theme: string, active: seq<nat>, instance: nat, now: int)
    requires RoundsOk(g) && g.phase == THEME_SELECTING && left == g.(memberOf := left.memberOf)
    ensures Keeps(g, DrawingStarted(left, theme, active, instance, now))
  {
  }

  lemma DrawingLeaveUndisturbed(w: World, g: GameState, userId: nat, env: Env)
    requires w.game.Some? && RoundsOk(w.game.value) && g == Leave(w.game.value, userId) && g.phase == DRAWING
    ensures Undisturbed(w, LeaveDrawing(w, g, userId, env).world)
  {
    if g.phaseContext.DrawingContext? && userId in g.phaseContext.activeUserIds {
      EvaluatingUndisturbed(w, w.(game := Some(g.(phaseContext := RemoveUser(g.phaseContext, userId)))), None, env);
    }
  }

  lemma LeaveUndisturbed(w: World, userId: nat, env: Env)
    requires w.game.Some? && RoundsOk(w.game.value) && w.game.value.phase != EVALUATING
    ensures Undisturbed(w, HandleDisconnect(w, userId, env).world)
  {
    var g := Leave(w.game.value, userId);
    if g.phase == THEME_SELECTING {
      ThemeLeaveUndisturbed(w, g, userId, env);
    } else if g.phase == DRAWING {
      DrawingLeaveUndisturbed(w, g, userId, env);
    }
  }

  lemma SubmitUndisturbed(w: World, userId: nat, env: Env)
    requires w.game.Some? && RoundsOk(w.game.value)
    ensures Undisturbed(w, Submit(w, userId, env).world)
  {
    var g := w.game.value;
    if g.phaseContext.DrawingContext? && userId in g.phaseContext.activeUserIds {
      EvaluatingUndisturbed(w, w.(game := Some(g.(phaseContext := MarkReady(g.phaseContext, userId)))), None, env);
    }
  }

  lemma FireUndisturbed(w: World, timer: nat, env: Env)
    requires w.game.Some? && RoundsOk(w.game.value)
    ensures Undisturbed(w, Other(w, TimerFires(timer), env))
  {
    if timer in w.timing.timers && w.timing.timers[timer].task.EndDrawing? {
      EvaluatingUndisturbed(w, Fired(w, timer), Some(w.timing.timers[timer].task.phaseInstanceId), env);
    }
  }

  lemma StartUndisturbed(w: World, userId: nat, typedValue: string, env: Env)
    requires w.game.Some? && RoundsOk(w.game.value)
    ensures Undisturbed(w, StartDrawingPhase(w, userId, typedValue, env).world)
  {
  }

  lemma VoteUndisturbed(w: World, userId: nat, drawingId: string, score: int)
    requires w.game.Some? && RoundsOk(w.game.value)
    ensures Undisturbed(w, SubmitVote(w, userId, drawingId, score).world)
  {
  }

  lemma ToggleUndisturbed(w: World, userId: nat)
    requires w.game.Some? && RoundsOk(w.game.value)
    ensures Undisturbed(w, OtherToggle(w, userId))
  {
  }

  lemma EvaluatorLeaveUndisturbed(w: World, userId: nat)
    requires w.game.Some? && RoundsOk(w.game.value) && w.game.value.phase == EVALUATING
    ensures Undisturbed(w, OtherLeave(w, w.game.value, userId))
  {
  }

  lemma OtherUndisturbed(w: World, e: Event, env: Env)
    requires w.game.Some? ==> RoundsOk(w.game.value)
    ensures Undisturbed(w, Other(w, e, env))
  {
    if w.game.Some? {
      match e
      case Finalize(userId, typedValue) => StartUndisturbed(w, userId, typedValue, env);
      case SendLine(userId, line) =>
      case SubmitDrawing(userId) => SubmitUndisturbed(w, userId, env);
      case SubmitEvaluation(userId, drawingId, score) => VoteUndisturbed(w, userId, drawingId, score);
      case ReadyToggle(userId) => ToggleUndisturbed(w, userId);
      case Disconnect(userId) =>
        if w.game.value.phase == EVALUATING {
          EvaluatorLeaveUndisturbed(w, userId);
        } else {
          LeaveUndisturbed(w, userId, env);
        }
      case TimerFires(timer) => FireUndisturbed(w, timer, env);
    }
  }

  lemma ElsewhereKeeps(r: Race, v: World)
    requires RaceOk(r) && Undisturbed(r.world, v)
    ensures RaceOk(r.(world := v))
  {
  }

  lemma EnterSummaryKeeps(r: Race)
    requires RaceOk(r)
    ensures RaceOk(EnterSummary(r))
  {
  }

  lemma EnterExitKeeps(r: Race)
    requires RaceOk(r)
    ensures RaceOk(EnterExit(r))
  {
    var n := EnterExit(r);
    forall id | id in n.pending ensures PendingOk(n, id) {
      if id in r.pending { assert PendingOk(r, id); }
    }
    forall a, b | a in n.pending && b in n.pending && InExit(n.pending[a]) && InExit(n.pending[b]) ensures a == b {
      if a in r.pending { assert PendingOk(r, a); }
      if b in r.pending { assert PendingOk(r, b); }
    }
  }

  lemma SummarizeKeeps(r: Race, id: nat)
    requires RaceOk(r) && id in r.pending && r.pending[id].Summarizing?
    ensures RaceOk(Summarize(r, id, r.pending[id].seen))
  {
    var n := Summarize(r, id, r.pending[id].seen);
    assert PendingOk(r, id);
    forall i | i in n.pending ensures PendingOk(n, i) {
      assert i in r.pending && PendingOk(r, i);
    }
  }

  lemma MergeKeeps(r: Race, id: nat, now: int)
    requires RaceOk(r) && id in r.pending && r.pending[id].Merging?
    ensures RaceOk(Merge(r, id, r.pending[id], now))
  {
    var n := Merge(r, id, r.pending[id], now);
    assert PendingOk(r, id);
    forall i | i in n.pending ensures PendingOk(n, i) {
      assert i in r.pending && PendingOk(r, i);
    }
    assert n.merges != r.merges ==> n.merges[..|n.merges| - 1] == r.merges;
  }

  lemma ArmSummaryKeeps(r: Race, id: nat)
    requires RaceOk(r) && id in r.pending
    ensures RaceOk(ArmSummary(r, id))
  {
  }

  lemma LeaveGuardKeeps(r: Race, id: nat)
    requires RaceOk(r) && id in r.pending && InExit(r.pending[id])
    ensures RaceOk(LeaveGuard(r, id))
  {
  }

  lemma ReadForExitKeeps(r: Race, id: nat)
    requires RaceOk(r) && id in r.pending && r.pending[id].Exiting?
    ensures RaceOk(ReadForExit(r, id))
  {
    LeaveGuardKeeps(r, id);
    var n := ReadForExit(r, id);
    assert PendingOk(r, id);
    if n.pending.Keys == r.pending.Keys {
      forall i | i in n.pending ensures PendingOk(n, i) {
        assert i in r.pending && PendingOk(r, i);
      }
    }
  }

  lemma ExitCounts(g: GameState, seen: GameState, merges: seq<map<string, int>>, exits: nat, selector: nat, now: int)
    requires Counted(g, merges, exits) && seen.phase == ROUND_SUMMARY && StillThere(seen, Some(g))
    ensures IsLastRound(seen) ==> Counted(ExitPatch(g, Finished(seen)), merges, exits + 1)
    ensures !IsLastRound(seen) ==> Counted(ExitPatch(g, NextRound(seen, selector, now)), merges, exits + 1)
  {
  }

  lemma ExitKeeps(r: Race, id: nat, env: Env)
    requires RaceOk(r) && id in r.pending && r.pending[id].Leaving?
    ensures RaceOk(Exit(r, id, r.pending[id].seen, env))
  {
    LeaveGuardKeeps(r, id);
    var seen := r.pending[id].seen;
    var n := Exit(r, id, seen, env);
    assert PendingOk(r, id);
    if r.world.game.Some? {
      ExitCounts(r.world.game.value, seen, r.merges, r.exits, Or(env.selector, 0), env.now);
    }
    forall i | i in n.pending ensures PendingOk(n, i) {
      assert i in r.pending && PendingOk(r, i);
    }
  }

  lemma PayKeeps(r: Race, id: nat, env: Env)
    requires RaceOk(r) && id in r.pending && r.pending[id].Paying?
    ensures RaceOk(Pay(r, id, r.pending[id].patched, env))
  {
  }

  lemma ResumeKeeps(r: Race, id: nat, env: Env)
    requires RaceOk(r)
    ensures RaceOk(ResumeAt(r, id, env))
  {
    if id in r.pending {
      match r.pending[id]
      case Summarizing(g) => SummarizeKeeps(r, id);
      case Merging(_, _, _, _) => MergeKeeps(r, id, env.now);
      case ArmingSummary => ArmSummaryKeeps(r, id);
      case Exiting => ReadForExitKeeps(r, id);
      case Leaving(g) => ExitKeeps(r, id, env);
      case Paying(g) => PayKeeps(r, id, env);
    }
  }

  lemma NextKeeps(r: Race, m: Move)
    requires RaceOk(r)
    ensures RaceOk(Next(r, m))
  {
    match m
    case Elsewhere(event, env) =>
      OtherUndisturbed(r.world, event, env);
      ElsewhereKeeps(r, Other(r.world, event, env));
    case CallSummary => EnterSummaryKeeps(r);
    case CallExit => EnterExitKeeps(r);
    case Resume(id, env) => ResumeKeeps(r, id, env);
  }

  lemma {:induction false} RaceKeeps(r: Race, moves: seq<Move>)
    requires RaceOk(r)
    ensures RaceOk(RunRace(r, moves))
  {
    if moves != [] {
      RaceKeeps(r, moves[..|moves| - 1]);
      NextKeeps(RunRace(r, moves[..|moves| - 1]), moves[|moves| - 1]);
    }
  }

  ghost function StartRace(w: World, matchId: nat, memberOf: map<nat, nat>, now: int): Race {
    Race(InitializeGame(w, matchId, memberOf, now), false, map[], 0, [], 0)
  }

  lemma StartRaceOk(w: World, matchId: nat, memberOf: map<nat, nat>, now: int)
    ensures RaceOk(StartRace(w, matchId, memberOf, now))
  {
  }

  // ---------- where the merged records come from ----------

  /** The i-th move computed this record: the round's rating sums over the tables of that moment. */
  ghost predicate SummarizedAt(s: Race, moves: seq<Move>, i: nat, round: nat, scores: map<string, int>) {
    && i < |moves| && moves[i].Resume?
    && var r := RunRace(s, moves[..i]);
    && moves[i].id in r.pending && r.pending[moves[i].id].Summarizing?
    && var g := r.pending[moves[i].id].seen;
    && g.phase == EVALUATING && g.currentRound == Some(round)
    && scores == RoundScores(r.world.tables.drawings, r.world.tables.votes, g.matchId, round)
  }

  ghost predicate Summarized(s: Race, moves: seq<Move>, round: nat, scores: map<string, int>) {
    exists i: nat :: SummarizedAt(s, moves, i, round, scores)
  }

  lemma StillSummarized(s: Race, moves: seq<Move>, round: nat, scores: map<string, int>)
    requires moves != [] && Summarized(s, moves[..|moves| - 1], round, scores)
    ensures Summarized(s, moves, round, scores)
  {
    var front := moves[..|moves| - 1];
    var i: nat :| SummarizedAt(s, front, i, round, scores);
    assert front[..i] == moves[..i];
    assert SummarizedAt(s, moves, i, round, scores);
  }

  ghost predicate MergeIsOf(r: Race, m: Move, n: Race) {
    || n.merges == r.merges
    || (m.Resume? && m.id in r.pending && r.pending[m.id].Merging? && n.merges == r.merges + [r.pending[m.id].scores]
        && r.pending[m.id].seen.currentRound == Some(|r.merges| + 1))
  }

  ghost predicate MergingIsOf(r: Race, m: Move, p: Pending, i: nat)
    requires p.Merging?
  {
    || (i in r.pending && r.pending[i] == p)
    || (m.Resume? && m.id == i && i in r.pending && r.pending[i].Summarizing? && r.pending[i].seen == p.seen && p.seen.currentRound.Some?
        && p.scores == RoundScores(r.world.tables.drawings, r.world.tables.votes, p.seen.matchId, p.seen.currentRound.value))
  }

  lemma MoveOrigins(r: Race, m: Move)
    requires RaceOk(r)
    ensures MergeIsOf(r, m, Next(r, m))
  {
    if m.Resume? && m.id in r.pending { assert PendingOk(r, m.id); }
  }

  lemma PendingOrigins(r: Race, m: Move)
    requires RaceOk(r)
    ensures forall i | i in Next(r, m).pending && Next(r, m).pending[i].Merging? :: MergingIsOf(r, m, Next(r, m).pending[i], i)
  {
    if m.Resume? && m.id in r.pending { assert PendingOk(r, m.id); }
  }

  ghost predicate Originated(s: Race, moves: seq<Move>) {
    var r := RunRace(s, moves);
    && (forall k: nat | k < |r.merges| :: Summarized(s, moves, k + 1, r.merges[k]))
    && (forall i | i in r.pending && r.pending[i].Merging? ::
          r.pending[i].seen.currentRound.Some? && Summarized(s, moves, r.pending[i].seen.currentRound.value, r.pending[i].scores))
  }

  lemma {:induction false} RecordsOriginate(s: Race, moves: seq<Move>)
    requires RaceOk(s) && s.merges == [] && s.pending == map[]
    ensures Originated(s, moves)
  {
    if moves != [] {
      var front := moves[..|moves| - 1];
      RecordsOriginate(s, front);
      RaceKeeps(s, front);
      MoveOrigins(RunRace(s, front), moves[|moves| - 1]);
      PendingOrigins(RunRace(s, front), moves[|moves| - 1]);
      MergesOriginate(s, moves);
      var n := RunRace(s, moves);
      forall i | i in n.pending && n.pending[i].Merging?
        ensures n.pending[i].seen.currentRound.Some? && Summarized(s, moves, n.pending[i].seen.currentRound.value, n.pending[i].scores)
      {
        OneOriginates(s, moves, n.pending[i], i);
      }
    }
  }

  lemma MergesOriginate(s: Race, moves: seq<Move>)
    requires moves != [] && Originated(s, moves[..|moves| - 1])
    requires MergeIsOf(RunRace(s, moves[..|moves| - 1]), moves[|moves| - 1], RunRace(s, moves))
    ensures
      var n := RunRace(s, moves);
      forall k: nat | k < |n.merges| :: Summarized(s, moves, k + 1, n.merges[k])
  {
    var (r, n) := (RunRace(s, moves[..|moves| - 1]), RunRace(s, moves));
    forall k: nat | k < |n.merges| ensures Summarized(s, moves, k + 1, n.merges[k]) {
      StillSummarized(s, moves, k + 1, n.merges[k]);
    }
  }

  lemma LastMoveSummarizes(s: Race, moves: seq<Move>, p: Pending, i: nat)
    requires moves != [] && RaceOk(RunRace(s, moves[..|moves| - 1])) && p.Merging?
    requires MergingIsOf(RunRace(s, moves[..|moves| - 1]), moves[|moves| - 1], p, i)
    requires i !in RunRace(s, moves[..|moves| - 1]).pending || RunRace(s, moves[..|moves| - 1]).pending[i] != p
    ensures p.seen.currentRound.Some? && Summarized(s, moves, p.seen.currentRound.value, p.scores)
  {
    assert PendingOk(RunRace(s, moves[..|moves| - 1]), i);
    assert SummarizedAt(s, moves, |moves| - 1, p.seen.currentRound.value, p.scores);
  }

  lemma OneOriginates(s: Race, moves: seq<Move>, p: Pending, i: nat)
    requires moves != [] && Originated(s, moves[..|moves| - 1]) && RaceOk(RunRace(s, moves[..|moves| - 1])) && p.Merging?
    requires MergingIsOf(RunRace(s, moves[..|moves| - 1]), moves[|moves| - 1], p, i)
    ensures p.seen.currentRound.Some? && Summarized(s, moves, p.seen.currentRound.value, p.scores)
  {
    var r := RunRace(s, moves[..|moves| - 1]);
    if i in r.pending && r.pending[i] == p {
      StillSummarized(s, moves, p.seen.currentRound.value, p.scores);
    } else {
      LastMoveSummarizes(s, moves, p, i);
    }
  }

  /**
   * However many handlers race, a live match has merged exactly once per EVALUATING phase
   * it has left and has taken exactly one exit per ROUND_SUMMARY phase it has left; its totals
   * are those merges in order, and the one of each round is that round's rating sums over the
   * tables of the moment its summary was computed.
   */
  lemma EachPhaseOnce(w: World, matchId: nat, memberOf: map<nat, nat>, now: int, moves: seq<Move>)
    requires RunRace(StartRace(w, matchId, memberOf, now), moves).world.game.Some?
    ensures
      var s := StartRace(w, matchId, memberOf, now);
      var r := RunRace(s, moves);
      var g := r.world.game.value;
      && 1 <= Round(g) <= TOTAL_ROUNDS
      && |r.merges| == MergedThrough(g) && g.totalScores == MergeAll(r.merges)
      && (forall k: nat | k < |r.merges| :: Summarized(s, moves, k + 1, r.merges[k]))
      && r.exits == (if Closed(g) then TOTAL_ROUNDS else Round(g) - 1)
  {
    StartRaceOk(w, matchId, memberOf, now);
    RaceKeeps(StartRace(w, matchId, memberOf, now), moves);
    RecordsOriginate(StartRace(w, matchId, memberOf, now), moves);
  }

  /** No move merges or exits twice, whatever is pending. */
  lemma OneAtATime(r: Race, m: Move)
    requires RaceOk(r)
    ensures |Next(r, m).merges| > |r.merges| ==>
              && r.world.game.Some? && r.world.game.value.phase == EVALUATING
              && Next(r, m).world.game.Some? && Next(r, m).world.game.value.phase == ROUND_SUMMARY
    ensures Next(r, m).exits > r.exits ==> r.world.game.Some? && r.world.game.value.phase == ROUND_SUMMARY
  {
    if m.Resume? && m.id in r.pending { assert PendingOk(r, m.id); }
  }

  // ---------- ratings accepted while a merge is pending ----------

  function RatingAt(votes: map<VoteKey, int>, v: VoteKey): int {
    if v in votes then votes[v] else 0
  }

  lemma RatingMovesSum(votes: map<VoteKey, int>, v: VoteKey, score: int)
    ensures RatingSum(votes[v := score], v.drawing) == RatingSum(votes, v.drawing) - RatingAt(votes, v) + score
  {
    var (before, after) := (VotesOn(votes, v.drawing), VotesOn(votes[v := score], v.drawing));
    TotalRemove(after, v);
    if v in votes {
      TotalRemove(before, v);
      assert after - {v} == before - {v};
    } else {
      assert after - {v} == before;
    }
  }

  lemma SameSumsSameRecord(drawings: map<DrawingKey, seq<DrawLine>>, votes: map<VoteKey, int>, other: map<VoteKey, int>,
                           matchId: nat, round: nat)
    requires forall d | d in OfRound(drawings, matchId, round) :: RatingSum(other, d) == RatingSum(votes, d)
    ensures RoundScores(drawings, other, matchId, round) == RoundScores(drawings, votes, matchId, round)
  {
    IsRecord(RoundScores(drawings, other, matchId, round), drawings, votes, matchId, round);
  }

  /** A rating changes the round's record exactly when it differs from the one before, a missing one counting 0. */
  lemma RatingChangesRecord(drawings: map<DrawingKey, seq<DrawLine>>, votes: map<VoteKey, int>, v: VoteKey, score: int,
                            matchId: nat, round: nat)
    requires v.drawing in OfRound(drawings, matchId, round)
    ensures RoundScores(drawings, votes[v := score], matchId, round) == RoundScores(drawings, votes, matchId, round) <==>
            score == RatingAt(votes, v)
  {
    RatingMovesSum(votes, v, score);
    if score == RatingAt(votes, v) {
      forall d | d in OfRound(drawings, matchId, round) ensures RatingSum(votes[v := score], d) == RatingSum(votes, d) {
        if d != v.drawing { VoteKeepsOtherSums(votes, v, score, d); }
      }
      SameSumsSameRecord(drawings, votes, votes[v := score], matchId, round);
    } else {
      assert RoundScores(drawings, votes, matchId, round)[DrawingId(v.drawing)] == RatingSum(votes, v.drawing);
      assert RoundScores(drawings, votes[v := score], matchId, round)[DrawingId(v.drawing)] == RatingSum(votes[v := score], v.drawing);
    }
  }

  lemma IsRecord(record: map<string, int>, drawings: map<DrawingKey, seq<DrawLine>>, votes: map<VoteKey, int>, matchId: nat, round: nat)
    requires forall d | d in OfRound(drawings, matchId, round) :: DrawingId(d) in record && record[DrawingId(d)] == RatingSum(votes, d)
    requires forall id | id in record ::
               ParseDrawingId(id).Some? && Prints(id, ParseDrawingId(id).value) && ParseDrawingId(id).value in OfRound(drawings, matchId, round)
    ensures record == RoundScores(drawings, votes, matchId, round)
  {
    forall id | id in record ensures exists d | d in OfRound(drawings, matchId, round) :: id == DrawingId(d) {
      assert id == DrawingId(ParseDrawingId(id).value);
    }
    IsRoundScores(record, drawings, votes, matchId, round);
  }

  /** The record about to be merged is still the round's rating sums over the tables as they stand. */
  ghost predicate UpToDate(w: World, p: Pending)
    requires p.Merging?
  {
    p.seen.currentRound.Some? &&
    p.scores == RoundScores(w.tables.drawings, w.tables.votes, p.seen.matchId, p.seen.currentRound.value)
  }

  lemma FiringLeavesRatings(w: World, timer: nat, env: Env)
    requires w.game.Some? && w.game.value.phase == EVALUATING && RoundsOk(w.game.value)
    ensures
      var v := Other(w, TimerFires(timer), env);
      v.tables.votes == w.tables.votes && v.tables.drawings == w.tables.drawings
  {
  }

  lemma LeavingLeavesRatings(w: World, userId: nat, env: Env)
    requires w.game.Some? && w.game.value.phase == EVALUATING
    ensures Other(w, Disconnect(userId), env).tables == w.tables
  {
  }

  lemma TogglingLeavesRatings(w: World, userId: nat, env: Env)
    ensures Other(w, ReadyToggle(userId), env).tables == w.tables
  {
  }

  lemma DrawingLeavesRatings(w: World, e: Event, env: Env)
    requires w.game.Some? && w.game.value.phase == EVALUATING && (e.Finalize? || e.SendLine? || e.SubmitDrawing?)
    ensures Step(w, e, env).world.tables.votes == w.tables.votes && Step(w, e, env).world.tables.drawings == w.tables.drawings
  {
  }

  lemma OthersLeaveRatings(w: World, e: Event, env: Env)
    requires w.game.Some? && w.game.value.phase == EVALUATING && RoundsOk(w.game.value) && !e.SubmitEvaluation?
    ensures Other(w, e, env).tables.votes == w.tables.votes && Other(w, e, env).tables.drawings == w.tables.drawings
  {
    match e
    case TimerFires(timer) => FiringLeavesRatings(w, timer, env);
    case Disconnect(userId) => LeavingLeavesRatings(w, userId, env);
    case ReadyToggle(userId) => TogglingLeavesRatings(w, userId, env);
    case _ => DrawingLeavesRatings(w, e, env);
  }

  /** A rating accepted now that differs from the one before. */
  ghost predicate Rerates(w: World, e: Event) {
    && e.SubmitEvaluation? && SubmitVote(w, e.userId, e.drawingId, e.score).reply == Done && ParseDrawingId(e.drawingId).Some?
    && e.score != RatingAt(w.tables.votes, VoteKey(ParseDrawingId(e.drawingId).value, e.userId))
  }

  lemma VoteDisturbs(w: World, e: Event, p: Pending)
    requires w.game.Some? && w.game.value.phase == EVALUATING && e.SubmitEvaluation?
    requires p.Merging? && StillThere(p.seen, w.game) && UpToDate(w, p)
    ensures UpToDate(SubmitVote(w, e.userId, e.drawingId, e.score).world, p) <==> !Rerates(w, e)
  {
    var r := SubmitVote(w, e.userId, e.drawingId, e.score);
    if r.reply == Done {
      var key := ParseDrawingId(e.drawingId).value;
      RatingChangesRecord(w.tables.drawings, w.tables.votes, VoteKey(key, e.userId), e.score, p.seen.matchId, p.seen.currentRound.value);
    }
  }

  /**
   * While a computed record waits to be merged, exactly one thing puts it out of date: a rating
   * still accepted in between that differs from the voter's earlier one.
   */
  lemma OnlyRerating(r: Race, id: nat, event: Event, env: Env)
    requires RaceOk(r) && id in r.pending && r.pending[id].Merging? && UpToDate(r.world, r.pending[id])
    requires r.world.game.Some?
    ensures UpToDate(Next(r, Elsewhere(event, env)).world, r.pending[id]) <==> !Rerates(r.world, event)
  {
    assert PendingOk(r, id);
    if event.SubmitEvaluation? {
      VoteDisturbs(r.world, event, r.pending[id]);
    } else {
      OthersLeaveRatings(r.world, event, env);
    }
  }

  /**
   * Witness: a rating that changes something, accepted between the computation and the merge,
   * is answered Done and missing from the totals: what is merged is the record without it.
   */
  lemma RatingDuringMergeIsLost(w: World, id: nat, event: Event, env: Env)
    requires w.game.Some? && w.game.value.phase == EVALUATING && RoundsOk(w.game.value) && !w.summaryGuard
    requires ComputeRoundSummary(w.game.value, w.tables.drawings, w.tables.votes).Ok? && Rerates(w, event)
    ensures
      var g := w.game.value;
      var computed := ResumeAt(EnterSummary(Race(w, false, map[], id, [], 0)), id, env);
      var done := ResumeAt(Next(computed, Elsewhere(event, env)), id, env);
      && done.merges == [RoundScores(w.tables.drawings, w.tables.votes, g.matchId, g.currentRound.value)]
      && done.merges[0] != RoundScores(done.world.tables.drawings, done.world.tables.votes, g.matchId, g.currentRound.value)
      && done.world.game.Some? && done.world.game.value.phase == ROUND_SUMMARY
      && done.world.game.value.totalScores == MergeTotals(g.totalScores, done.merges[0])
  {
    var g := w.game.value;
    var entered := EnterSummary(Race(w, false, map[], id, [], 0));
    assert entered.pending == map[id := Summarizing(g)];
    var computed := Summarize(entered, id, g);
    SameRerates(w, computed.world, event);
    VoteAfterComputing(computed, id, event, env);
  }

  lemma VoteAfterComputing(computed: Race, id: nat, event: Event, env: Env)
    requires computed.world.game.Some? && computed.world.game.value.phase == EVALUATING && RoundsOk(computed.world.game.value)
    requires id in computed.pending && computed.pending[id].Merging? && computed.pending[id].seen == computed.world.game.value
    requires UpToDate(computed.world, computed.pending[id]) && Rerates(computed.world, event)
    ensures
      var p := computed.pending[id];
      var done := ResumeAt(Next(computed, Elsewhere(event, env)), id, env);
      && done.merges == computed.merges + [p.scores] && !UpToDate(done.world, p)
      && done.world.game.Some? && done.world.game.value.phase == ROUND_SUMMARY && done.world.game.value.totalScores == p.totals
  {
    VoteDisturbs(computed.world, event, computed.pending[id]);
    var voted := computed.(world := SubmitVote(computed.world, event.userId, event.drawingId, event.score).world);
    VoteLeavesGame(computed.world, event.userId, event.drawingId, event.score);
    assert Next(computed, Elsewhere(event, env)) == voted;
    MergesInto(voted, id, env, computed.world.game.value);
  }

  lemma SameRerates(w: World, u: World, e: Event)
    requires u.game == w.game && u.tables == w.tables
    ensures Rerates(u, e) == Rerates(w, e)
  {
  }

  lemma VoteLeavesGame(w: World, userId: nat, drawingId: string, score: int)
    ensures SubmitVote(w, userId, drawingId, score).world.game == w.game
  {
  }

  lemma MergesInto(r: Race, id: nat, env: Env, g: GameState)
    requires id in r.pending && r.pending[id].Merging? && r.world.game == Some(g)
    ensures
      var done := ResumeAt(r, id, env);
      && done.merges == r.merges + [r.pending[id].scores] && done.world.tables == r.world.tables
      && done.world.game.Some? && done.world.game.value.phase == ROUND_SUMMARY
      && done.world.game.value.totalScores == r.pending[id].totals
  {
  }

  lemma MergesAsAtomic(w: World, computed: Race, p: Pending, env: Env, id: nat)
    requires w.game.Some? && p.Merging? && computed.pending == map[id := p]
    requires computed.world == ClearPhaseTimer(w).(summaryGuard := true)
    ensures
      var done := ResumeAt(ResumeAt(computed, id, env), id, env);
      && done.pending == map[] && done.merges == computed.merges + [p.scores]
      && done.world == EnterRoundSummary(ClearPhaseTimer(w), w.game.value, RoundSummary(p.context, p.totals), env.now)
  {
  }

  lemma FailsAsAtomic(w: World, entered: Race, env: Env, id: nat)
    requires w.game.Some? && w.game.value.phase == EVALUATING && !w.summaryGuard
    requires ComputeRoundSummary(w.game.value, w.tables.drawings, w.tables.votes).Err?
    requires entered.world == ClearPhaseTimer(w).(summaryGuard := true)
    requires entered.pending == map[id := Summarizing(w.game.value)] && entered.merges == []
    ensures
      var failed := ResumeAt(entered, id, env);
      && failed.pending == map[] && failed.merges == [] && !failed.world.summaryGuard
      && failed.world == AdvanceToRoundSummary(w, env).world
      && ResumeAt(ResumeAt(failed, id, env), id, env) == failed
  {
  }

  /**
   * Left alone, the pieces of each guarded handler add up to the atomic step of the session
   * model, also when the computation fails: then nothing is merged and the guard is free again.
   */
  lemma SummaryAloneIsAtomic(w: World, env: Env, id: nat)
    requires w.game.Some? && w.game.value.phase == EVALUATING && !w.summaryGuard
    ensures
      var done := ResumeAt(ResumeAt(ResumeAt(EnterSummary(Race(w, false, map[], id, [], 0)), id, env), id, env), id, env);
      var computed := ComputeRoundSummary(w.game.value, w.tables.drawings, w.tables.votes);
      && done.world == AdvanceToRoundSummary(w, env).world && done.pending == map[]
      && done.world.summaryGuard == computed.Ok? && |done.merges| == (if computed.Ok? then 1 else 0)
  {
    var g := w.game.value;
    var entered := EnterSummary(Race(w, false, map[], id, [], 0));
    assert entered.pending == map[id := Summarizing(g)];
    if ComputeRoundSummary(g, w.tables.drawings, w.tables.votes).Ok? {
      var computed := Summarize(entered, id, g);
      assert computed.pending == map[id := computed.pending[id]];
      MergesAsAtomic(w, computed, computed.pending[id], env, id);
    } else {
      FailsAsAtomic(w, entered, env, id);
    }
  }

  lemma ExitAloneIsAtomic(w: World, env: Env, id: nat)
    requires w.game.Some? && w.game.value.phase == ROUND_SUMMARY
    ensures
      var read := ResumeAt(EnterExit(Race(w, false, map[], id, [], 0)), id, env);
      var left := ResumeAt(read, id, env);
      var done := ResumeAt(left, id, env);
      done.world == AdvanceFromRoundSummary(w, env).world && done.pending == map[] && !done.exitGuard
  {
  }
}
