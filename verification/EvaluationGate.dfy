/** The ready tests: an evaluation always has a way forward, and counting agrees with asking everyone. */
module EvaluationGate {
  import opened Collections
  import opened DrawingKeys
  import opened GameTypes
  import opened Scoring
  import opened GameSession
  import opened SessionInvariants
  import opened SessionRuns
  import opened MatchHistory

  function KeyOf(g: GameState, userId: nat): DrawingKey
    requires userId in g.memberOf
  {
    DrawingKey(g.matchId, g.memberOf[userId], Round(g))
  }

  /** A rating of any other active player's drawing, by any member, is accepted and recorded. */
  lemma RatingIsAccepted(w: World, h: History, s: Start, userId: nat, target: nat, score: int)
    requires WorldOk(w) && LedgerOk(w, h, s) && w.game.Some? && w.game.value.phase == EVALUATING
    requires userId in w.game.value.memberOf && target != userId
    requires target in w.game.value.phaseContext.activeUserIds && SCORE_MIN <= score <= SCORE_MAX
    ensures
      var g := w.game.value;
      var r := SubmitVote(w, userId, DrawingId(KeyOf(g, target)), score);
      && r.reply == Done && r.world.game == w.game
      && r.world.tables == w.tables.(votes := w.tables.votes[VoteKey(KeyOf(g, target), userId) := score])
  {
    var g := w.game.value;
    IdRoundTrip(KeyOf(g, target));
    assert g.memberOf[target] in g.memberOf.Values;
    assert g.memberOf[userId] != g.memberOf[target];
  }

  /** Having rated every other active player is enough, however the active list came to be. */
  lemma RatedAllIsComplete(g: GameState, votes: map<VoteKey, int>, userId: nat)
    requires GameOk(g) && g.phase == EVALUATING
    requires forall x | x in g.phaseContext.activeUserIds && x != userId :: VoteKey(KeyOf(g, x), userId) in votes
    ensures IsEvaluationComplete(g, votes, userId)
  {
    var others := Without(g.phaseContext.activeUserIds, userId);
    var asSet := set x | x in others;
    DistinctCardinality(others, asSet);
    var targets := DistinctTargets(votes, g.matchId, Round(g), userId);
    forall x | x in asSet ensures g.memberOf[x] in targets {
      assert VoteKey(KeyOf(g, x), userId) in votes;
    }
    InjectiveImageSize(asSet, g.memberOf, targets);
  }

  ghost function RateAll(w: World, userId: nat, targets: seq<nat>, score: int): World
    requires w.game.Some?
  {
    if targets == [] then w
    else
      var before := RateAll(w, userId, targets[..|targets| - 1], score);
      var target := targets[|targets| - 1];
      if before.game.Some? && target in before.game.value.memberOf
      then SubmitVote(before, userId, DrawingId(KeyOf(before.game.value, target)), score).world
      else before
  }

  lemma {:induction false} RateAllRecords(w: World, h: History, s: Start, userId: nat, targets: seq<nat>, score: int)
    returns (after: History)
    requires WorldOk(w) && LedgerOk(w, h, s) && w.game.Some? && w.game.value.phase == EVALUATING
    requires userId in w.game.value.memberOf && SCORE_MIN <= score <= SCORE_MAX
    requires forall x | x in targets :: x in w.game.value.phaseContext.activeUserIds && x != userId
    ensures
      var v := RateAll(w, userId, targets, score);
      && WorldOk(v) && LedgerOk(v, after, s) && v.game == w.game
      && forall x | x in targets :: VoteKey(KeyOf(w.game.value, x), userId) in v.tables.votes
  {
    after := h;
    if targets != [] {
      var front := targets[..|targets| - 1];
      var last := targets[|targets| - 1];
      assert targets == front + [last];
      after := RateAllRecords(w, h, s, userId, front, score);
      after := RateOneRecords(RateAll(w, userId, front, score), after, s, userId, last, score);
    }
  }

  lemma RateOneRecords(w: World, h: History, s: Start, userId: nat, target: nat, score: int) returns (after: History)
    requires WorldOk(w) && LedgerOk(w, h, s) && w.game.Some? && w.game.value.phase == EVALUATING
    requires userId in w.game.value.memberOf && SCORE_MIN <= score <= SCORE_MAX
    requires target in w.game.value.phaseContext.activeUserIds && target != userId
    ensures
      var v := SubmitVote(w, userId, DrawingId(KeyOf(w.game.value, target)), score).world;
      && WorldOk(v) && LedgerOk(v, after, s) && v.game == w.game
      && v.tables.votes == w.tables.votes[VoteKey(KeyOf(w.game.value, target), userId) := score]
  {
    var id := DrawingId(KeyOf(w.game.value, target));
    var env := Env(0, {}, "", None, false, false);
    RatingIsAccepted(w, h, s, userId, target, score);
    StepKeeps(w, SubmitEvaluation(userId, id, score), env);
    VoteLedger(w, userId, id, score, env, h, s);
    after := Record(h, w, SubmitEvaluation(userId, id, score), env);
  }

  /**
   * No dead end: in any reachable evaluation, a player who then rates every currently active
   * other passes the completeness gate, whoever has left before.
   */
  lemma NoDeadEnd(w: World, s: Start, now: int, inputs: seq<Input>, userId: nat, score: int, env: Env)
    requires Begins(w, s) && SCORE_MIN <= score <= SCORE_MAX
    requires
      var v := Match(w, s, now, inputs);
      v.game.Some? && v.game.value.phase == EVALUATING && userId in v.game.value.memberOf
    ensures
      var v := Match(w, s, now, inputs);
      v.game.value.phaseContext.EvaluatingContext? &&
      var others := Without(v.game.value.phaseContext.activeUserIds, userId);
      var rated := RateAll(v, userId, others, score);
      && rated.game == v.game && IsEvaluationComplete(v.game.value, rated.tables.votes, userId)
      && ToggleReady(rated, userId, env).reply != Refused(EVALUATION_INCOMPLETE)
  {
    MatchOk(w, s, now, inputs);
    var v := Match(w, s, now, inputs);
    var g := v.game.value;
    var others := Without(g.phaseContext.activeUserIds, userId);
    var after := RateAllRecords(v, MatchRecord(w, s, now, inputs), s, userId, others, score);
    RatedAllIsComplete(g, RateAll(v, userId, others, score).tables.votes, userId);
  }

  // ---------- the gate, said of the ratings given ----------

  /** The members whose drawing of a round the voter has rated, by the plain record of ratings. */
  ghost function RatedMembers(ratings: seq<Rating>, s: Start, round: nat, voterId: nat): set<nat> {
    set m | m in s.memberOf.Values && Latest(ratings, DrawingKey(s.matchId, m, round), voterId).Some?
  }

  ghost function OthersActive(g: GameState, userId: nat): set<nat>
    requires g.phaseContext.EvaluatingContext?
  {
    set u | u in g.phaseContext.activeUserIds && u != userId
  }

  lemma TargetsAreRated(h: History, s: Start, g: GameState, t: Tables, round: nat, voterId: nat)
    requires VotesOk(h, s, t.votes, t.drawings) && DrawingsOk(s, g, t.drawings)
    ensures DistinctTargets(t.votes, s.matchId, round, voterId) == RatedMembers(h.ratings, s, round, voterId)
  {
    forall m: nat
      ensures m in DistinctTargets(t.votes, s.matchId, round, voterId) <==> m in RatedMembers(h.ratings, s, round, voterId)
    {
      var v := VoteKey(DrawingKey(s.matchId, m, round), voterId);
      assert Latest(h.ratings, v.drawing, v.voterId) == if v in t.votes then Some(t.votes[v]) else None;
      assert m in DistinctTargets(t.votes, s.matchId, round, voterId) <==> v in t.votes;
    }
  }

  lemma OthersCounted(g: GameState, userId: nat)
    requires g.phaseContext.EvaluatingContext? && Distinct(g.phaseContext.activeUserIds)
    ensures |Without(g.phaseContext.activeUserIds, userId)| == |OthersActive(g, userId)|
  {
    DistinctCardinality(Without(g.phaseContext.activeUserIds, userId), OthersActive(g, userId));
  }

  /** Refused as incomplete, with nothing changed, exactly for fewer members rated than others active. */
  ghost predicate RefusedWhenFewer(v: World, r: Effect, ratings: seq<Rating>, s: Start, userId: nat) {
    && v.game.Some? && v.game.value.phaseContext.EvaluatingContext?
    && var g := v.game.value;
    && (r.reply == Refused(EVALUATION_INCOMPLETE) <==> |RatedMembers(ratings, s, Round(g), userId)| < |OthersActive(g, userId)|)
    && (r.reply == Refused(EVALUATION_INCOMPLETE) ==> r.world == v)
  }

  /**
   * Over every run: a player not yet ready is refused, and nothing changes, if and only if the
   * members whose drawings of the round the player has rated are fewer than the other active
   * players.
   */
  lemma GateRefusesExactly(w: World, s: Start, now: int, inputs: seq<Input>, userId: nat, env: Env)
    requires Begins(w, s)
    requires
      var v := Match(w, s, now, inputs);
      && v.game.Some? && v.game.value.phase == EVALUATING && v.game.value.phaseContext.EvaluatingContext?
      && userId !in v.game.value.phaseContext.readyUserIds
    ensures
      var v := Match(w, s, now, inputs);
      RefusedWhenFewer(v, Step(v, ReadyToggle(userId), env), MatchRecord(w, s, now, inputs).ratings, s, userId)
  {
    MatchOk(w, s, now, inputs);
    GateInLedger(Match(w, s, now, inputs), MatchRecord(w, s, now, inputs), s, userId, env);
  }

  lemma GateInLedger(v: World, h: History, s: Start, userId: nat, env: Env)
    requires WorldOk(v) && LedgerOk(v, h, s) && v.game.Some? && v.game.value.phase == EVALUATING
    requires userId !in v.game.value.phaseContext.readyUserIds
    ensures
      RefusedWhenFewer(v, Step(v, ReadyToggle(userId), env), h.ratings, s, userId)
  {
    var g := v.game.value;
    TargetsAreRated(h, s, g, v.tables, Round(g), userId);
    OthersCounted(g, userId);
  }

  // ---------- counting ready players ----------

  function ReadyUserIds(g: GameState): seq<nat> {
    if g.phaseContext.DrawingContext? || g.phaseContext.EvaluatingContext? || g.phaseContext.RoundSummaryContext?
    then g.phaseContext.readyUserIds else []
  }

  function ReadyTargets(g: GameState): seq<nat> {
    if (g.phase == DRAWING || g.phase == EVALUATING) && (g.phaseContext.DrawingContext? || g.phaseContext.EvaluatingContext?)
    then g.phaseContext.activeUserIds
    else if g.phase == ROUND_SUMMARY then Ascending(g.memberOf.Keys)
    else []
  }

  /** What the ready summary broadcasts as allReady: a comparison of two counts. */
  predicate SummaryAllReady(g: GameState) {
    |ReadyTargets(g)| > 0 && |ReadyUserIds(g)| >= |ReadyTargets(g)|
  }

  predicate EveryTargetReady(g: GameState) {
    |ReadyTargets(g)| > 0 && forall u | u in ReadyTargets(g) :: u in ReadyUserIds(g)
  }

  lemma SeqAsSet(s: seq<nat>) returns (t: set<nat>)
    requires Distinct(s)
    ensures |t| == |s| && forall x :: x in t <==> x in s
  {
    t := set x | x in s;
    DistinctCardinality(s, t);
  }

  /** In DRAWING the count that ends the phase says exactly that every active player is ready. */
  lemma CountMeansEveryone(g: GameState)
    requires GameOk(g) && g.phase == DRAWING
    ensures IsReadyToAdvance(g.phaseContext) <==> EveryTargetReady(g)
    ensures SummaryAllReady(g) <==> EveryTargetReady(g)
  {
    var active := SeqAsSet(g.phaseContext.activeUserIds);
    var ready := SeqAsSet(g.phaseContext.readyUserIds);
    assert ready <= active && active == ready + (active - ready);
    assert |active| == |ready| + |active - ready|;
    if |ready| >= |active| { assert active - ready == {}; }
    if active <= ready { assert active == ready; }
  }

  ghost function Missing(g: GameState): set<nat> {
    set u | u in ReadyTargets(g) && u !in ReadyUserIds(g)
  }

  ghost function Outsiders(g: GameState): set<nat> {
    set u | u in ReadyUserIds(g) && u !in ReadyTargets(g)
  }

  lemma CountVersusInclusion(ready: set<nat>, targets: set<nat>)
    ensures |ready| >= |targets| <==> |ready - targets| >= |targets - ready|
    ensures targets <= ready <==> targets - ready == {}
    ensures targets <= ready ==> |ready| >= |targets|
  {
    var both := ready * targets;
    assert ready == both + (ready - targets) && targets == both + (targets - ready);
    assert |ready| == |both| + |ready - targets| && |targets| == |both| + |targets - ready|;
  }

  /**
   * In EVALUATING and ROUND_SUMMARY ready ids can belong to nobody the phase waits for, and
   * the broadcast count is wrong exactly when those outsiders cover the players still missing.
   */
  lemma SummaryErrsExactly(g: GameState)
    requires GameOk(g)
    ensures (SummaryAllReady(g) <==> EveryTargetReady(g)) <==> (Missing(g) == {} || |Outsiders(g)| < |Missing(g)|)
  {
    var ready := SeqAsSet(ReadyUserIds(g));
    var targets := SeqAsSet(ReadyTargets(g));
    assert Missing(g) == targets - ready && Outsiders(g) == ready - targets;
    assert EveryTargetReady(g) <==> |targets| > 0 && targets <= ready;
    CountVersusInclusion(ready, targets);
  }

  /**
   * A ready member leaves a round summary for which at least two others stay: the broadcast then
   * says everyone is ready although somebody is not, exactly when the leaver and the ready ids of
   * earlier leavers are at least as many as the members not ready yet.
   */
  lemma LeaverStillCounts(w: World, userId: nat, env: Env)
    requires w.game.Some? && GameOk(w.game.value)
    requires w.game.value.phase == ROUND_SUMMARY && |w.game.value.memberOf| > 2
    requires userId in w.game.value.memberOf && userId in ReadyUserIds(w.game.value)
    ensures
      var g := w.game.value;
      var left := Leave(g, userId);
      && HandleDisconnect(w, userId, env).world.game == Some(left) && GameOk(left)
      && (SummaryAllReady(left) && !EveryTargetReady(left) <==> Missing(g) != {} && |Outsiders(g)| + 1 >= |Missing(g)|)
  {
    var g := w.game.value;
    var left := Leave(g, userId);
    LeavingSummaryKeeps(g, userId);
    LeavingMovesOut(g, userId);
    SummaryErrsExactly(left);
    EveryTargetReadyMeans(left);
  }

  lemma LeavingSummaryKeeps(g: GameState, userId: nat)
    requires GameOk(g) && g.phase == ROUND_SUMMARY && |g.memberOf| > 2 && userId in g.memberOf
    ensures GameOk(Leave(g, userId)) && |Leave(g, userId).memberOf| > 1
  {
    LeaveOneLess(g.memberOf, userId);
  }

  /** The leaver stops being waited for and stays among the ready ids. */
  lemma LeavingMovesOut(g: GameState, userId: nat)
    requires g.phase == ROUND_SUMMARY && userId in g.memberOf && userId in ReadyUserIds(g)
    ensures
      var left := Leave(g, userId);
      Missing(left) == Missing(g) && Outsiders(left) == Outsiders(g) + {userId} && |Outsiders(left)| == |Outsiders(g)| + 1
  {
    forall u ensures u in Missing(Leave(g, userId)) <==> u in Missing(g) {
      LeavingTargets(g, userId, u);
    }
    forall u ensures u in Outsiders(Leave(g, userId)) <==> u in Outsiders(g) || u == userId {
      LeavingTargets(g, userId, u);
    }
    OneMoreOutsider(Outsiders(g), Outsiders(Leave(g, userId)), userId);
  }

  lemma OneMoreOutsider(before: set<nat>, after: set<nat>, userId: nat)
    requires userId !in before && forall u :: u in after <==> u in before || u == userId
    ensures after == before + {userId} && |after| == |before| + 1
  {
    assert after == before + {userId};
  }

  lemma LeavingTargets(g: GameState, userId: nat, u: nat)
    requires g.phase == ROUND_SUMMARY
    ensures u in ReadyTargets(Leave(g, userId)) <==> u in ReadyTargets(g) && u != userId
    ensures u in ReadyUserIds(Leave(g, userId)) <==> u in ReadyUserIds(g)
    ensures userId in g.memberOf ==> userId in ReadyTargets(g)
  {
    assert u in Leave(g, userId).memberOf.Keys <==> u in g.memberOf.Keys && u != userId;
  }

  lemma EveryTargetReadyMeans(g: GameState)
    requires |ReadyTargets(g)| > 0
    ensures EveryTargetReady(g) <==> Missing(g) == {}
  {
    if Missing(g) == {} {
      forall u | u in ReadyTargets(g) ensures u in ReadyUserIds(g) {
        assert u !in Missing(g);
      }
    }
  }

  lemma LeaveOneLess(memberOf: map<nat, nat>, userId: nat)
    requires userId in memberOf
    ensures |memberOf - {userId}| == |memberOf| - 1
  {
    assert (memberOf - {userId}).Keys == memberOf.Keys - {userId};
    assert |memberOf.Keys| == |memberOf| && |(memberOf - {userId}).Keys| == |memberOf - {userId}|;
  }

  lemma ThreeMembers(m: map<nat, nat>)
    requires m == map[1 := 11, 2 := 12, 3 := 13]
    ensures |m| == 3 && MembersOk(m) && m.Keys == {1, 2, 3}
  {
    assert m.Keys == {1, 2, 3} && |m| == |m.Keys|;
  }

  /** Three members of whom two are ready: one of the two leaves, and the count is wrong. */
  lemma SummaryCanErr(w: World, env: Env)
    requires
      w.game == Some(GameState(ROUND_SUMMARY, Some(0), Some(1), Some(3), 1, map[1 := 11, 2 := 12, 3 := 13], Some("t"), [],
                               map[], RoundSummaryContext([], map[], [1, 2])))
    ensures
      var g := w.game.value;
      var left := Leave(g, 1);
      && GameOk(g) && GameOk(left) && HandleDisconnect(w, 1, env).world.game == Some(left)
      && !SummaryAllReady(g) && SummaryAllReady(left) && !EveryTargetReady(left)
  {
    var g := w.game.value;
    ThreeMembers(g.memberOf);
    TwoOfThreeReady(g);
    LeaverStillCounts(w, 1, env);
  }

  lemma TwoOfThreeReady(g: GameState)
    requires g.phase == ROUND_SUMMARY && g.memberOf.Keys == {1, 2, 3} && ReadyUserIds(g) == [1, 2]
    ensures Missing(g) == {3} && !SummaryAllReady(g)
  {
    assert 3 in ReadyTargets(g);
  }
}
