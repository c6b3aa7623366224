/**
 * What the tables hold, against a plain record of what was accepted: every line sent and
 * every rating given since the match began, in order.
 */
module MatchHistory {
  import opened Collections
  import opened DrawingKeys
  import opened Ordering
  import opened GameTypes
  import opened Scoring
  import opened GameSession
  import opened SessionInvariants
  import opened SessionRuns

  datatype Rating = Rating(drawing: DrawingKey, voterId: nat, score: int)

  datatype History = History(sent: map<StrokeKey, seq<DrawLine>>, ratings: seq<Rating>)

  const NO_HISTORY := History(map[], [])

  /** How the match began: its id, its players, and the stroke lists left over from earlier. */
  datatype Start = Start(matchId: nat, memberOf: map<nat, nat>, strokes: map<StrokeKey, seq<DrawLine>>)

  ghost function Record(h: History, w: World, e: Event, env: Env): History {
    if w.game.None? || Step(w, e, env).reply != Done then h
    else
      match e
      case SendLine(userId, line) =>
        var k := StrokeKey(Round(w.game.value), userId);
        h.(sent := h.sent[k := StrokesAt(h.sent, k) + [line]])
      case SubmitEvaluation(userId, drawingId, score) =>
        var key := ParseDrawingId(drawingId);
        if key.Some? then h.(ratings := h.ratings + [Rating(key.value, userId, score)]) else h
      case _ => h
  }

  ghost function RunHistory(w: World, inputs: seq<Input>): History {
    if inputs == [] then NO_HISTORY
    else
      var front := inputs[..|inputs| - 1];
      var last := inputs[|inputs| - 1];
      Record(RunHistory(w, front), Run(w, front), last.event, last.env)
  }

  /** The last rating a voter gave a drawing. */
  function Latest(ratings: seq<Rating>, d: DrawingKey, voterId: nat): Option<int> {
    if ratings == [] then None
    else
      var r := ratings[|ratings| - 1];
      if r.drawing == d && r.voterId == voterId then Some(r.score) else Latest(ratings[..|ratings| - 1], d, voterId)
  }

  function CommittedThrough(g: GameState): int {
    if g.phase == LOADING || g.phase == THEME_SELECTING || g.phase == DRAWING then Round(g) - 1 else Round(g)
  }

  function MergedThrough(g: GameState): int {
    if g.phase == EVALUATING then Round(g) - 1 else CommittedThrough(g)
  }

  /** The votes table is the latest rating per voter and drawing, all by players on others' drawings. */
  ghost predicate VotesOk(h: History, s: Start, votes: map<VoteKey, int>, drawings: map<DrawingKey, seq<DrawLine>>) {
    && (forall v: VoteKey | v.drawing.matchId == s.matchId ::
          Latest(h.ratings, v.drawing, v.voterId) == if v in votes then Some(votes[v]) else None)
    && (forall v: VoteKey | v in votes && v.drawing.matchId == s.matchId ::
          && v.drawing in drawings
          && v.voterId in s.memberOf && s.memberOf[v.voterId] != v.drawing.memberId
          && SCORE_MIN <= votes[v] <= SCORE_MAX)
  }

  /** Rows of this match: one per committed round and player, none beyond the committed rounds. */
  ghost predicate DrawingsOk(s: Start, g: GameState, drawings: map<DrawingKey, seq<DrawLine>>) {
    forall d | d in drawings && d.matchId == s.matchId ::
      1 <= d.round <= CommittedThrough(g) && d.memberId in s.memberOf.Values
  }

  /** The totals record: exactly the drawings of the merged rounds, each at the sum of its ratings. */
  ghost predicate TotalsOk(s: Start, g: GameState, drawings: map<DrawingKey, seq<DrawLine>>, votes: map<VoteKey, int>) {
    && (forall d | d in drawings && d.matchId == s.matchId && d.round <= MergedThrough(g) ::
          DrawingId(d) in g.totalScores && g.totalScores[DrawingId(d)] == RatingSum(votes, d))
    && (forall id | id in g.totalScores ::
          && ParseDrawingId(id).Some?
          && var d := ParseDrawingId(id).value;
             Prints(id, d) && d in drawings && d.matchId == s.matchId && d.round <= MergedThrough(g))
  }

  /** Until a round is committed its stroke lists hold what was left over and then what was sent. */
  ghost predicate StrokesOk(h: History, s: Start, g: GameState, strokes: map<StrokeKey, seq<DrawLine>>) {
    forall k: StrokeKey | k.round > CommittedThrough(g) ::
      StrokesAt(strokes, k) == StrokesAt(s.strokes, k) + StrokesAt(h.sent, k)
  }

  /** Whoever is still active in an evaluation has a row for that round. */
  ghost predicate ActiveCommitted(g: GameState, drawings: map<DrawingKey, seq<DrawLine>>) {
    g.phase == EVALUATING && g.phaseContext.EvaluatingContext? ==>
      forall u | u in g.phaseContext.activeUserIds && u in g.memberOf ::
        DrawingKey(g.matchId, g.memberOf[u], Round(g)) in drawings
  }

  ghost predicate LedgerOk(w: World, h: History, s: Start) {
    w.game.Some? ==>
      var g := w.game.value;
      && g.matchId == s.matchId
      && Shrinks(s.memberOf, g.memberOf)
      && StrokesOk(h, s, g, w.tables.strokes)
      && DrawingsOk(s, g, w.tables.drawings)
      && VotesOk(h, s, w.tables.votes, w.tables.drawings)
      && TotalsOk(s, g, w.tables.drawings, w.tables.votes)
      && ActiveCommitted(g, w.tables.drawings)
  }

  /** No row of this match exists yet; match ids are issued fresh. */
  ghost predicate FreshMatch(w: World, matchId: nat) {
    && (forall d | d in w.tables.drawings :: d.matchId != matchId)
    && (forall v | v in w.tables.votes :: v.drawing.matchId != matchId)
  }

  lemma StartLedger(w: World, matchId: nat, memberOf: map<nat, nat>, now: int)
    requires FreshMatch(w, matchId)
    ensures LedgerOk(InitializeGame(w, matchId, memberOf, now), NO_HISTORY, Start(matchId, memberOf, w.tables.strokes))
  {
  }

  // ---------- steps that leave the tables alone ----------

  ghost predicate Untouched(w: World, v: World) {
    && v.tables == w.tables
    && (w.game.Some? && v.game.Some? ==>
          var (g, n) := (w.game.value, v.game.value);
          && n.matchId == g.matchId && Shrinks(g.memberOf, n.memberOf) && n.totalScores == g.totalScores
          && CommittedThrough(n) == CommittedThrough(g) && MergedThrough(n) == MergedThrough(g)
          && (n.phase == EVALUATING && n.phaseContext.EvaluatingContext? ==>
                && g.phase == EVALUATING && g.phaseContext.EvaluatingContext? && Round(n) == Round(g)
                && forall u | u in n.phaseContext.activeUserIds :: u in g.phaseContext.activeUserIds))
  }

  lemma FrameLedger(w: World, v: World, h: History, s: Start)
    requires LedgerOk(w, h, s) && w.game.Some? && Untouched(w, v)
    ensures LedgerOk(v, h, s)
  {
  }

  // ---------- steps that write them ----------

  lemma SendLineLedger(w: World, userId: nat, line: DrawLine, env: Env, h: History, s: Start)
    requires WorldOk(w) && LedgerOk(w, h, s)
    ensures LedgerOk(SendDrawingLine(w, userId, line).world, Record(h, w, SendLine(userId, line), env), s)
  {
  }

  lemma {:induction false} LatestAppend(ratings: seq<Rating>, r: Rating, d: DrawingKey, voterId: nat)
    ensures Latest(ratings + [r], d, voterId) ==
            if r.drawing == d && r.voterId == voterId then Some(r.score) else Latest(ratings, d, voterId)
  {
  }

  lemma VoteKeepsOtherSums(votes: map<VoteKey, int>, v: VoteKey, score: int, d: DrawingKey)
    requires d != v.drawing
    ensures RatingSum(votes[v := score], d) == RatingSum(votes, d)
  {
    assert VotesOn(votes[v := score], d) == VotesOn(votes, d);
  }

  lemma VoteLedger(w: World, userId: nat, drawingId: string, score: int, env: Env, h: History, s: Start)
    requires WorldOk(w) && LedgerOk(w, h, s)
    ensures LedgerOk(SubmitVote(w, userId, drawingId, score).world,
                     Record(h, w, SubmitEvaluation(userId, drawingId, score), env), s)
  {
    var r := SubmitVote(w, userId, drawingId, score);
    if r.reply == Done {
      var g := w.game.value;
      var vote := VoteKey(ParseDrawingId(drawingId).value, userId);
      var rating := Rating(vote.drawing, userId, score);
      var next := h.(ratings := h.ratings + [rating]);
      RatedAgrees(h, s, w.tables, vote, score);
      forall d | d in w.tables.drawings && d.matchId == s.matchId && d.round <= MergedThrough(g)
        ensures RatingSum(r.world.tables.votes, d) == RatingSum(w.tables.votes, d)
      {
        VoteKeepsOtherSums(w.tables.votes, vote, score, d);
      }
    }
  }

  /** One accepted rating, in the history and in the vote table. */
  lemma RatedAgrees(h: History, s: Start, t: Tables, vote: VoteKey, score: int)
    requires VotesOk(h, s, t.votes, t.drawings) && SCORE_MIN <= score <= SCORE_MAX && vote.drawing in t.drawings
    requires vote.voterId in s.memberOf && s.memberOf[vote.voterId] != vote.drawing.memberId
    ensures VotesOk(h.(ratings := h.ratings + [Rating(vote.drawing, vote.voterId, score)]), s, t.votes[vote := score], t.drawings)
  {
    var rating := Rating(vote.drawing, vote.voterId, score);
    forall v: VoteKey | v.drawing.matchId == s.matchId
      ensures Latest(h.ratings + [rating], v.drawing, v.voterId) ==
              if v in t.votes[vote := score] then Some(t.votes[vote := score][v]) else None
    {
      LatestAppend(h.ratings, rating, v.drawing, v.voterId);
    }
  }

  lemma {:induction false} CommittedRows(g: GameState, round: nat, active: seq<nat>,
                                         strokes: map<StrokeKey, seq<DrawLine>>, drawings: map<DrawingKey, seq<DrawLine>>)
    requires forall u | u in active :: u in g.memberOf
    requires Injective(g.memberOf)
    ensures
      var after := CommitRows(g, round, active, strokes, drawings);
      && (forall u | u in active :: DrawingKey(g.matchId, g.memberOf[u], round) in after
            && after[DrawingKey(g.matchId, g.memberOf[u], round)] == StrokesAt(strokes, StrokeKey(round, u)))
      && (forall d | d in drawings :: d in after)
      && (forall d | d in after && (d !in drawings || after[d] != drawings[d]) ::
            exists u | u in active :: d == DrawingKey(g.matchId, g.memberOf[u], round))
  {
    if active != [] {
      var front := active[..|active| - 1];
      var last := active[|active| - 1];
      assert active == front + [last];
      CommittedRows(g, round, front, strokes, drawings);
      assert last in active;
    }
  }

  /** Rows added for the round being committed disturb no vote and no total. */
  lemma NewRowsLedger(g: GameState, n: GameState, before: map<DrawingKey, seq<DrawLine>>,
                      after: map<DrawingKey, seq<DrawLine>>, votes: map<VoteKey, int>, h: History, s: Start)
    requires g.matchId == s.matchId && Shrinks(s.memberOf, g.memberOf)
    requires n.totalScores == g.totalScores && MergedThrough(n) == MergedThrough(g) == Round(g) - 1
    requires CommittedThrough(n) == Round(g) && CommittedThrough(g) == Round(g) - 1 && Round(g) >= 1
    requires DrawingsOk(s, g, before) && VotesOk(h, s, votes, before) && TotalsOk(s, g, before, votes)
    requires forall d | d in before :: d in after
    requires forall d | d in after && d !in before ::
               d.matchId == g.matchId && d.round == Round(g) && d.memberId in g.memberOf.Values
    ensures DrawingsOk(s, n, after) && VotesOk(h, s, votes, after) && TotalsOk(s, n, after, votes)
  {
  }

  lemma CleanupStrokes(g: GameState, active: seq<nat>, strokes: map<StrokeKey, seq<DrawLine>>, k: StrokeKey)
    requires k.round > Round(g)
    ensures StrokesAt(Cleanup(Round(g), active, strokes), k) == StrokesAt(strokes, k)
  {
  }

  ghost predicate Commits(w: World, v: World)
    requires w.game.Some? && v.game.Some?
    requires w.game.value.phaseContext.DrawingContext?
    requires forall u | u in w.game.value.phaseContext.activeUserIds :: u in w.game.value.memberOf
  {
    var (g, n) := (w.game.value, v.game.value);
    var active := g.phaseContext.activeUserIds;
    && n.phase == EVALUATING && n.matchId == g.matchId && n.memberOf == g.memberOf
    && n.currentRound == g.currentRound && n.totalScores == g.totalScores
    && n.phaseContext == EvaluatingContext(active, [])
    && v.tables == Committed(g, Round(g), active, w.tables)
  }

  lemma AdvanceToEvaluatingCommits(w: World, expected: Option<nat>, env: Env)
    requires WorldOk(w) && AdvanceToEvaluating(w, expected, env).reply == Done
    ensures w.game.Some? && w.game.value.phase == DRAWING && Commits(w, AdvanceToEvaluating(w, expected, env).world)
  {
  }

  lemma CommitLedger(w: World, v: World, h: History, s: Start)
    requires w.game.Some? && v.game.Some? && GameOk(w.game.value) && w.game.value.phase == DRAWING
    requires LedgerOk(w, h, s) && Commits(w, v)
    ensures LedgerOk(v, h, s)
  {
    var (g, n) := (w.game.value, v.game.value);
    var t := w.tables;
    CommittedRows(g, Round(g), g.phaseContext.activeUserIds, t.strokes, t.drawings);
    NewRowsLedger(g, n, t.drawings, v.tables.drawings, t.votes, h, s);
    forall k: StrokeKey | k.round > Round(g) ensures StrokesAt(v.tables.strokes, k) == StrokesAt(t.strokes, k) {
      CleanupStrokes(g, g.phaseContext.activeUserIds, t.strokes, k);
    }
  }

  lemma AdvanceToEvaluatingLedger(w: World, expected: Option<nat>, env: Env, h: History, s: Start)
    requires WorldOk(w) && LedgerOk(w, h, s)
    ensures LedgerOk(AdvanceToEvaluating(w, expected, env).world, h, s)
  {
    var r := AdvanceToEvaluating(w, expected, env);
    if r.reply == Done {
      AdvanceToEvaluatingCommits(w, expected, env);
      CommitLedger(w, r.world, h, s);
    }
  }

  ghost predicate Merges(w: World, v: World) {
    && w.game.Some? && v.game.Some? && v.tables == w.tables
    && var (g, n) := (w.game.value, v.game.value);
    && g.phase == EVALUATING && g.phaseContext.EvaluatingContext? && n.phase == ROUND_SUMMARY
    && n.matchId == g.matchId && n.memberOf == g.memberOf && n.currentRound == g.currentRound
    && n.totalScores == MergeTotals(g.totalScores, RoundScores(w.tables.drawings, w.tables.votes, g.matchId, Round(g)))
    && n.phaseContext.RoundSummaryContext?
    && n.phaseContext.rankings ==
       Sort(RankRows(g, g.phaseContext.activeUserIds, Round(g),
                     RoundScores(w.tables.drawings, w.tables.votes, g.matchId, Round(g)), n.totalScores))
  }

  lemma AdvanceToRoundSummaryMerges(w: World, env: Env)
    ensures
      var r := AdvanceToRoundSummary(w, env);
      if r.reply == Done then Merges(w, r.world) else r.world.game == w.game && r.world.tables == w.tables
  {
  }

  /** The round's keys are new to the record, so the merge only adds entries. */
  lemma MergeTotalsOk(s: Start, g: GameState, n: GameState, drawings: map<DrawingKey, seq<DrawLine>>,
                      votes: map<VoteKey, int>)
    requires g.matchId == s.matchId && MergedThrough(g) == Round(g) - 1 && MergedThrough(n) == Round(g)
    requires TotalsOk(s, g, drawings, votes)
    requires n.totalScores == MergeTotals(g.totalScores, RoundScores(drawings, votes, g.matchId, Round(g)))
    ensures TotalsOk(s, n, drawings, votes)
    ensures forall d | d in OfRound(drawings, g.matchId, Round(g)) :: DrawingId(d) !in g.totalScores
  {
    IdsDiffer();
  }

  lemma MergeLedger(w: World, v: World, h: History, s: Start)
    requires w.game.Some? && RoundsOk(w.game.value) && LedgerOk(w, h, s) && Merges(w, v)
    ensures LedgerOk(v, h, s)
  {
    MergeTotalsOk(s, w.game.value, v.game.value, w.tables.drawings, w.tables.votes);
  }

  lemma SameGameLedger(w: World, v: World, h: History, s: Start)
    requires LedgerOk(w, h, s) && v.game == w.game && v.tables == w.tables
    ensures LedgerOk(v, h, s)
  {
  }

  lemma AdvanceToRoundSummaryLedger(w: World, env: Env, h: History, s: Start)
    requires WorldOk(w) && LedgerOk(w, h, s)
    ensures LedgerOk(AdvanceToRoundSummary(w, env).world, h, s)
  {
    var r := AdvanceToRoundSummary(w, env);
    AdvanceToRoundSummaryMerges(w, env);
    if r.reply == Done {
      MergeLedger(w, r.world, h, s);
    } else {
      SameGameLedger(w, r.world, h, s);
    }
  }

  lemma FromRoundSummaryUntouched(w: World, env: Env)
    requires w.game.Some? && RoundsOk(w.game.value)
    ensures Untouched(w, AdvanceFromRoundSummary(w, env).world)
  {
  }

  lemma AdvanceFromRoundSummaryLedger(w: World, env: Env, h: History, s: Start)
    requires WorldOk(w) && LedgerOk(w, h, s)
    ensures LedgerOk(AdvanceFromRoundSummary(w, env).world, h, s)
  {
    if w.game.Some? {
      FromRoundSummaryUntouched(w, env);
      FrameLedger(w, AdvanceFromRoundSummary(w, env).world, h, s);
    }
  }

  lemma SubmitLedger(w: World, userId: nat, env: Env, h: History, s: Start)
    requires WorldOk(w) && LedgerOk(w, h, s)
    ensures LedgerOk(Submit(w, userId, env).world, h, s)
  {
    if w.game.Some? && w.game.value.phaseContext.DrawingContext? && userId in w.game.value.phaseContext.activeUserIds {
      var g := w.game.value;
      var marked := w.(game := Some(g.(phaseContext := MarkReady(g.phaseContext, userId))));
      SameInstanceKeepsTiming(w.timing, w.game.value, marked.game.value);
      FrameLedger(w, marked, h, s);
      AdvanceToEvaluatingLedger(marked, None, env, h, s);
    }
  }

  lemma ToggleEvaluationLedger(w: World, g: GameState, userId: nat, env: Env, h: History, s: Start)
    requires WorldOk(w) && LedgerOk(w, h, s) && w.game == Some(g) && g.phase == EVALUATING
    ensures LedgerOk(ToggleEvaluationReady(w, g, userId, env).world, h, s)
  {
    var toggled := w.(game := Some(g.(phaseContext := ToggledEvaluation(g.phaseContext, userId))));
    SameInstanceKeepsTiming(w.timing, w.game.value, toggled.game.value);
    FrameLedger(w, toggled, h, s);
    AdvanceToRoundSummaryLedger(toggled, env, h, s);
  }

  lemma ToggleSummaryLedger(w: World, g: GameState, userId: nat, env: Env, h: History, s: Start)
    requires WorldOk(w) && LedgerOk(w, h, s) && w.game == Some(g) && g.phase == ROUND_SUMMARY
    ensures LedgerOk(ToggleSummaryReady(w, g, userId, env).world, h, s)
  {
    var toggled := w.(game := Some(g.(phaseContext := ToggledSummary(g.phaseContext, userId))));
    SameInstanceKeepsTiming(w.timing, w.game.value, toggled.game.value);
    FrameLedger(w, toggled, h, s);
    AdvanceFromRoundSummaryLedger(toggled, env, h, s);
  }

  lemma LeaveDrawingLedger(w: World, userId: nat, env: Env, h: History, s: Start)
    requires WorldOk(w) && LedgerOk(w, h, s) && w.game.Some? && w.game.value.phase == DRAWING
    requires |Leave(w.game.value, userId).memberOf| >= 2
    ensures LedgerOk(LeaveDrawing(w, Leave(w.game.value, userId), userId, env).world, h, s)
  {
    if userId in w.game.value.phaseContext.activeUserIds {
      DepartedOk(w, userId);
      FrameLedger(w, Departed(w, userId), h, s);
      AdvanceToEvaluatingLedger(Departed(w, userId), None, env, h, s);
    } else {
      FrameLedger(w, w.(game := Some(Leave(w.game.value, userId))), h, s);
    }
  }

  lemma LeaveEvaluatingLedger(w: World, userId: nat, env: Env, h: History, s: Start)
    requires WorldOk(w) && LedgerOk(w, h, s) && w.game.Some? && w.game.value.phase == EVALUATING
    requires |Leave(w.game.value, userId).memberOf| >= 2
    ensures LedgerOk(LeaveEvaluating(w, Leave(w.game.value, userId), userId, env).world, h, s)
  {
    if userId in w.game.value.phaseContext.activeUserIds {
      DepartedOk(w, userId);
      FrameLedger(w, Departed(w, userId), h, s);
      AdvanceToRoundSummaryLedger(Departed(w, userId), env, h, s);
    } else {
      FrameLedger(w, w.(game := Some(Leave(w.game.value, userId))), h, s);
    }
  }

  lemma LeaveThemeUntouched(w: World, userId: nat, env: Env)
    requires w.game.Some? && w.game.value.phase == THEME_SELECTING && RoundsOk(w.game.value)
    ensures Untouched(w, LeaveThemeSelecting(w, Leave(w.game.value, userId), userId, env).world)
  {
  }

  lemma DisconnectLedger(w: World, userId: nat, env: Env, h: History, s: Start)
    requires WorldOk(w) && LedgerOk(w, h, s)
    ensures LedgerOk(HandleDisconnect(w, userId, env).world, h, s)
  {
    if w.game.Some? && |Leave(w.game.value, userId).memberOf| >= 2 {
      var v := HandleDisconnect(w, userId, env).world;
      match w.game.value.phase
      case THEME_SELECTING =>
        LeaveThemeUntouched(w, userId, env);
        FrameLedger(w, v, h, s);
      case DRAWING => LeaveDrawingLedger(w, userId, env, h, s);
      case EVALUATING => LeaveEvaluatingLedger(w, userId, env, h, s);
      case _ => FrameLedger(w, v, h, s);
    }
  }

  lemma FireLedger(w: World, timer: nat, env: Env, h: History, s: Start)
    requires WorldOk(w) && LedgerOk(w, h, s)
    ensures LedgerOk(Fire(w, timer, env).world, h, s)
  {
    if timer in w.timing.timers && w.game.Some? {
      FiredOk(w, timer);
      var fired := Fired(w, timer);
      FrameLedger(w, fired, h, s);
      match w.timing.timers[timer].task
      case StartThemes => FrameLedger(w, Fire(w, timer, env).world, h, s);
      case EndDrawing(instance) => AdvanceToEvaluatingLedger(fired, Some(instance), env, h, s);
      case EndEvaluating => AdvanceToRoundSummaryLedger(fired, env, h, s);
      case EndSummary => AdvanceFromRoundSummaryLedger(fired, env, h, s);
      case ReturnToWaiting => FrameLedger(w, Fire(w, timer, env).world, h, s);
    }
  }

  lemma StartDrawingUntouched(w: World, userId: nat, typedValue: string, env: Env)
    requires w.game.Some? && RoundsOk(w.game.value)
    ensures Untouched(w, StartDrawingPhase(w, userId, typedValue, env).world)
  {
  }

  /** Every step keeps the tables in agreement with the record of what was accepted. */
  lemma StepLedger(w: World, e: Event, env: Env, h: History, s: Start)
    requires WorldOk(w) && LedgerOk(w, h, s)
    ensures LedgerOk(Step(w, e, env).world, Record(h, w, e, env), s)
  {
    match e
    case Finalize(userId, typedValue) =>
      if w.game.Some? {
        StartDrawingUntouched(w, userId, typedValue, env);
        FrameLedger(w, StartDrawingPhase(w, userId, typedValue, env).world, h, s);
      }
    case SendLine(userId, line) => SendLineLedger(w, userId, line, env, h, s);
    case SubmitDrawing(userId) => SubmitLedger(w, userId, env, h, s);
    case SubmitEvaluation(userId, drawingId, score) => VoteLedger(w, userId, drawingId, score, env, h, s);
    case ReadyToggle(userId) =>
      if w.game.Some? && w.game.value.phase == EVALUATING {
        ToggleEvaluationLedger(w, w.game.value, userId, env, h, s);
      } else if w.game.Some? && w.game.value.phase == ROUND_SUMMARY {
        ToggleSummaryLedger(w, w.game.value, userId, env, h, s);
      }
    case Disconnect(userId) => DisconnectLedger(w, userId, env, h, s);
    case TimerFires(timer) => FireLedger(w, timer, env, h, s);
  }

  /** A match that began on empty timers with players in hand and a fresh id. */
  ghost predicate Begins(w: World, s: Start) {
    w.timing.timers == map[] && MembersOk(s.memberOf) && FreshMatch(w, s.matchId) && s.strokes == w.tables.strokes
  }

  ghost function Match(w: World, s: Start, now: int, inputs: seq<Input>): World {
    Run(InitializeGame(w, s.matchId, s.memberOf, now), inputs)
  }

  ghost function MatchRecord(w: World, s: Start, now: int, inputs: seq<Input>): History {
    RunHistory(InitializeGame(w, s.matchId, s.memberOf, now), inputs)
  }

  lemma {:induction false} MatchOk(w: World, s: Start, now: int, inputs: seq<Input>)
    requires Begins(w, s)
    ensures WorldOk(Match(w, s, now, inputs)) && LedgerOk(Match(w, s, now, inputs), MatchRecord(w, s, now, inputs), s)
  {
    if inputs == [] {
      StartOk(w, s.matchId, s.memberOf, now);
      StartLedger(w, s.matchId, s.memberOf, now);
    } else {
      var front := inputs[..|inputs| - 1];
      var last := inputs[|inputs| - 1];
      MatchOk(w, s, now, front);
      StepKeeps(Match(w, s, now, front), last.event, last.env);
      StepLedger(Match(w, s, now, front), last.event, last.env, MatchRecord(w, s, now, front), s);
    }
  }
}
