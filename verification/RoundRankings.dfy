/** What players are shown when a round is over: the ranking and the drawings, against the record of ratings. */
module RoundRankings {
  import opened Collections
  import opened DrawingKeys
  import opened Ordering
  import opened GameTypes
  import opened Scoring
  import opened GameSession
  import opened SessionInvariants
  import opened SessionRuns
  import opened MatchHistory
  import opened MatchScores

  /** Best round score first, then the lower member id; nobody twice. */
  ghost predicate Descends(rows: seq<Row>) {
    forall i, j | 0 <= i < j < |rows| ::
      rows[i].major > rows[j].major || (rows[i].major == rows[j].major && rows[i].id < rows[j].id)
  }

  /** Exactly one row per member listed, at the latest ratings of that member's drawing of the round. */
  ghost predicate RanksRound(rows: seq<Row>, members: set<nat>, ratings: seq<Rating>, s: Start, round: nat) {
    && |rows| == |members| && Descends(rows)
    && (forall m | m in members :: exists i | 0 <= i < |rows| :: rows[i].id == m)
    && (forall i | 0 <= i < |rows| ::
          && rows[i].id in members
          && rows[i].major == rows[i].minor == LatestSum(ratings, DrawingKey(s.matchId, rows[i].id, round), Ascending(s.memberOf.Keys)))
  }

  /** Every drawing committed for the round, under its printed id. */
  ghost predicate ShowsRound(shown: map<string, seq<DrawLine>>, drawings: map<DrawingKey, seq<DrawLine>>, matchId: nat, round: nat) {
    && (forall d | d in drawings && d.matchId == matchId && d.round == round ::
          DrawingId(d) in shown && shown[DrawingId(d)] == drawings[d])
    && (forall id | id in shown :: exists d | d in drawings :: d.matchId == matchId && d.round == round && id == DrawingId(d))
  }

  ghost function MembersOf(g: GameState, active: seq<nat>): set<nat>
    requires forall u | u in active :: u in g.memberOf
  {
    set u | u in active :: g.memberOf[u]
  }

  // ---------- the rows before sorting ----------

  lemma {:induction false} RowsListed(g: GameState, active: seq<nat>, round: nat, scores: map<string, int>, totals: map<string, int>)
    requires forall u | u in active :: u in g.memberOf
    ensures
      var rows := RankRows(g, active, round, scores, totals);
      && |rows| == |active|
      && forall i | 0 <= i < |active| ::
           var id := DrawingId(DrawingKey(g.matchId, g.memberOf[active[i]], round));
           rows[i] == Row(g.memberOf[active[i]], ScoreAt(scores, id), ScoreAt(totals, id))
  {
    if active != [] {
      var front := active[..|active| - 1];
      assert active == front + [active[|active| - 1]];
      RowsListed(g, front, round, scores, totals);
    }
  }

  /** What a row shows for a member, whether or not the drawing was committed. */
  lemma ShownScore(h: History, s: Start, g: GameState, t: Tables, memberId: nat)
    requires g.matchId == s.matchId && VotesOk(h, s, t.votes, t.drawings) && TotalsOk(s, g, t.drawings, t.votes)
    requires MergedThrough(g) < Round(g)
    ensures
      var d := DrawingKey(g.matchId, memberId, Round(g));
      var scores := RoundScores(t.drawings, t.votes, g.matchId, Round(g));
      && ScoreAt(scores, DrawingId(d)) == LatestSum(h.ratings, d, Ascending(s.memberOf.Keys))
      && ScoreAt(MergeTotals(g.totalScores, scores), DrawingId(d)) == ScoreAt(scores, DrawingId(d))
  {
    var d := DrawingKey(g.matchId, memberId, Round(g));
    var scores := RoundScores(t.drawings, t.votes, g.matchId, Round(g));
    IdRoundTrip(d);
    TableSumIsLatestSum(h, s, t.votes, t.drawings, d);
    if d !in t.drawings { UncommittedEarnsNothing(h, s, t, d); }
    RoundIsNewToTotals(s, g, t, memberId);
    RowRepeats(g.totalScores, scores, DrawingId(d));
  }

  lemma RowsFit(h: History, s: Start, g: GameState, t: Tables, active: seq<nat>)
    requires g.matchId == s.matchId && VotesOk(h, s, t.votes, t.drawings) && TotalsOk(s, g, t.drawings, t.votes)
    requires MergedThrough(g) < Round(g) && ActiveOk(active, g.memberOf) && Injective(g.memberOf)
    ensures
      var scores := RoundScores(t.drawings, t.votes, g.matchId, Round(g));
      var rows := RankRows(g, active, Round(g), scores, MergeTotals(g.totalScores, scores));
      && |rows| == |active|
      && forall i | 0 <= i < |active| ::
           var sum := LatestSum(h.ratings, DrawingKey(s.matchId, g.memberOf[active[i]], Round(g)), Ascending(s.memberOf.Keys));
           rows[i] == Row(g.memberOf[active[i]], sum, sum)
  {
    var scores := RoundScores(t.drawings, t.votes, g.matchId, Round(g));
    RowsListed(g, active, Round(g), scores, MergeTotals(g.totalScores, scores));
    forall i | 0 <= i < |active|
      ensures
        var rows := RankRows(g, active, Round(g), scores, MergeTotals(g.totalScores, scores));
        var sum := LatestSum(h.ratings, DrawingKey(s.matchId, g.memberOf[active[i]], Round(g)), Ascending(s.memberOf.Keys));
        rows[i] == Row(g.memberOf[active[i]], sum, sum)
    {
      ShownScore(h, s, g, t, g.memberOf[active[i]]);
    }
  }

  // ---------- sorting them ----------

  /** Sorting rows of distinct ids, each with its score shown twice, gives the ranking of those ids. */
  lemma SortedRows(rows: seq<Row>, sum: nat -> int)
    requires forall i, j | 0 <= i < j < |rows| :: rows[i].id != rows[j].id
    requires forall i | 0 <= i < |rows| :: rows[i] == Row(rows[i].id, sum(rows[i].id), sum(rows[i].id))
    ensures |Sort(rows)| == |rows| && Descends(Sort(rows))
    ensures forall r :: r in Sort(rows) <==> r in rows
  {
    var sorted := Sort(rows);
    SortSorts(rows);
    Rearranged(rows, sorted);
    forall i, j | 0 <= i < j < |sorted|
      ensures sorted[i].major > sorted[j].major || (sorted[i].major == sorted[j].major && sorted[i].id < sorted[j].id)
    {
      assert sorted[i] in rows && sorted[j] in rows && sorted[i] != sorted[j];
      assert !Before(sorted[j], sorted[i]);
    }
  }

  lemma MembersCounted(g: GameState, active: seq<nat>)
    requires ActiveOk(active, g.memberOf) && Injective(g.memberOf)
    ensures |MembersOf(g, active)| == |active|
  {
    var ids := seq(|active|, i requires 0 <= i < |active| => g.memberOf[active[i]]);
    forall m ensures m in ids <==> m in MembersOf(g, active) {
      if m in MembersOf(g, active) {
        var u :| u in active && g.memberOf[u] == m;
        var i :| 0 <= i < |active| && active[i] == u;
        assert ids[i] == m;
      }
    }
    DistinctCardinality(ids, MembersOf(g, active));
  }

  lemma SortedRanksRound(rows: seq<Row>, g: GameState, active: seq<nat>, ratings: seq<Rating>, s: Start)
    requires ActiveOk(active, g.memberOf) && Injective(g.memberOf) && |rows| == |active|
    requires forall i | 0 <= i < |active| ::
               var sum := LatestSum(ratings, DrawingKey(s.matchId, g.memberOf[active[i]], Round(g)), Ascending(s.memberOf.Keys));
               rows[i] == Row(g.memberOf[active[i]], sum, sum)
    ensures RanksRound(Sort(rows), MembersOf(g, active), ratings, s, Round(g))
  {
    var sum := (m: nat) => LatestSum(ratings, DrawingKey(s.matchId, m, Round(g)), Ascending(s.memberOf.Keys));
    SortedRows(rows, sum);
    MembersCounted(g, active);
    var sorted := Sort(rows);
    forall m | m in MembersOf(g, active) ensures exists i | 0 <= i < |sorted| :: sorted[i].id == m {
      var u :| u in active && g.memberOf[u] == m;
      var j :| 0 <= j < |active| && active[j] == u;
      assert rows[j] in sorted;
      var i :| 0 <= i < |sorted| && sorted[i] == rows[j];
    }
    forall i | 0 <= i < |sorted|
      ensures sorted[i].id in MembersOf(g, active) && sorted[i].major == sorted[i].minor == sum(sorted[i].id)
    {
      assert sorted[i] in rows;
      var j :| 0 <= j < |rows| && rows[j] == sorted[i];
      assert active[j] in active;
    }
  }

  // ---------- the step that ends the evaluation ----------

  lemma SummaryRanks(u: World, env: Env, h: History, s: Start)
    requires WorldOk(u) && LedgerOk(u, h, s) && AdvanceToRoundSummary(u, env).reply == Done
    ensures
      var (g, n) := (u.game.value, AdvanceToRoundSummary(u, env).world.game.value);
      && g.phaseContext.EvaluatingContext? && n.phaseContext.RoundSummaryContext?
      && RanksRound(n.phaseContext.rankings, MembersOf(g, g.phaseContext.activeUserIds), h.ratings, s, Round(g))
  {
    var g := u.game.value;
    AdvanceToRoundSummaryMerges(u, env);
    RowsFit(h, s, g, u.tables, g.phaseContext.activeUserIds);
    var scores := RoundScores(u.tables.drawings, u.tables.votes, g.matchId, Round(g));
    SortedRanksRound(RankRows(g, g.phaseContext.activeUserIds, Round(g), scores, MergeTotals(g.totalScores, scores)),
                     g, g.phaseContext.activeUserIds, h.ratings, s);
  }

  lemma SummaryShows(u: World, env: Env)
    requires u.game.Some? && RoundsOk(u.game.value) && AdvanceToRoundSummary(u, env).reply == Done
    ensures
      var (g, n) := (u.game.value, AdvanceToRoundSummary(u, env).world.game.value);
      && n.phaseContext.RoundSummaryContext? && n.phaseContext.readyUserIds == []
      && ShowsRound(n.phaseContext.drawingsById, u.tables.drawings, g.matchId, Round(g))
  {
    var g := u.game.value;
    IdsDiffer();
    forall d | d in OfRound(u.tables.drawings, g.matchId, Round(g)) ensures ParseDrawingId(DrawingId(d)) == Some(d) {
      IdRoundTrip(d);
    }
  }

  /** Who is still evaluating when the step ends the phase: a departing player no longer is. */
  function StillActive(g: GameState, e: Event): seq<nat>
    requires g.phaseContext.EvaluatingContext?
  {
    if e.Disconnect? then Without(g.phaseContext.activeUserIds, e.userId) else g.phaseContext.activeUserIds
  }

  /** u is the state the step had reached when it asked for the summary. */
  ghost predicate Reached(u: World, v: World, e: Event) {
    && u.game.Some? && v.game.Some? && u.tables == v.tables
    && var (g, k) := (v.game.value, u.game.value);
    && k.matchId == g.matchId && Round(k) == Round(g) && Shrinks(g.memberOf, k.memberOf)
    && g.phaseContext.EvaluatingContext? && k.phaseContext.EvaluatingContext?
    && k.phaseContext.activeUserIds == StillActive(g, e)
  }

  ghost predicate EndsThrough(u: World, v: World, e: Event, env: Env, h: History, s: Start) {
    && WorldOk(u) && LedgerOk(u, h, s) && Reached(u, v, e)
    && AdvanceToRoundSummary(u, env).reply == Done && AdvanceToRoundSummary(u, env).world == Step(v, e, env).world
  }

  ghost predicate EndsEvaluation(v: World, e: Event, env: Env) {
    && v.game.Some? && v.game.value.phase == EVALUATING
    && Step(v, e, env).world.game.Some? && Step(v, e, env).world.game.value.phase == ROUND_SUMMARY
  }

  lemma NotDoneStays(u: World, env: Env)
    requires u.game.Some? && u.game.value.phase == EVALUATING && AdvanceToRoundSummary(u, env).reply != Done
    ensures AdvanceToRoundSummary(u, env).world.game == u.game
  {
  }

  lemma EndsByToggle(v: World, userId: nat, env: Env, h: History, s: Start) returns (u: World)
    requires WorldOk(v) && LedgerOk(v, h, s) && EndsEvaluation(v, ReadyToggle(userId), env)
    ensures EndsThrough(u, v, ReadyToggle(userId), env, h, s)
  {
    u := Toggled(v, userId);
    ToggledOk(v, userId, h, s);
    ToggleReaches(v, userId, env);
  }

  ghost function Toggled(v: World, userId: nat): World
    requires v.game.Some? && v.game.value.phaseContext.EvaluatingContext?
  {
    v.(game := Some(v.game.value.(phaseContext := ToggledEvaluation(v.game.value.phaseContext, userId))))
  }

  lemma ToggledOk(v: World, userId: nat, h: History, s: Start)
    requires WorldOk(v) && LedgerOk(v, h, s) && v.game.Some? && v.game.value.phase == EVALUATING
    ensures WorldOk(Toggled(v, userId)) && LedgerOk(Toggled(v, userId), h, s)
  {
    SameInstanceKeepsTiming(v.timing, v.game.value, Toggled(v, userId).game.value);
    FrameLedger(v, Toggled(v, userId), h, s);
  }

  lemma ToggleReaches(v: World, userId: nat, env: Env)
    requires EndsEvaluation(v, ReadyToggle(userId), env) && v.game.value.phaseContext.EvaluatingContext?
    ensures
      var u := Toggled(v, userId);
      && Reached(u, v, ReadyToggle(userId)) && AdvanceToRoundSummary(u, env).reply == Done
      && AdvanceToRoundSummary(u, env).world == Step(v, ReadyToggle(userId), env).world
  {
    var u := Toggled(v, userId);
    assert Step(v, ReadyToggle(userId), env) == ToggleEvaluationReady(v, v.game.value, userId, env);
    if AdvanceToRoundSummary(u, env).reply != Done { NotDoneStays(u, env); }
  }

  lemma EndsByLeaving(v: World, userId: nat, env: Env, h: History, s: Start) returns (u: World)
    requires WorldOk(v) && LedgerOk(v, h, s) && EndsEvaluation(v, Disconnect(userId), env)
    ensures EndsThrough(u, v, Disconnect(userId), env, h, s)
  {
    u := Departed(v, userId);
    DepartedOk(v, userId);
    FrameLedger(v, u, h, s);
    if AdvanceToRoundSummary(u, env).reply != Done { NotDoneStays(u, env); }
  }

  lemma EndsByTimer(v: World, timer: nat, env: Env, h: History, s: Start) returns (u: World)
    requires WorldOk(v) && LedgerOk(v, h, s) && EndsEvaluation(v, TimerFires(timer), env)
    ensures EndsThrough(u, v, TimerFires(timer), env, h, s)
  {
    u := Fired(v, timer);
    FiredOk(v, timer);
    FrameLedger(v, u, h, s);
    if AdvanceToRoundSummary(u, env).reply != Done { NotDoneStays(u, env); }
  }

  lemma OthersDoNotEnd(v: World, e: Event, env: Env)
    requires WorldOk(v) && EndsEvaluation(v, e, env)
    ensures e.ReadyToggle? || e.Disconnect? || e.TimerFires?
  {
  }

  lemma SummaryInLedger(v: World, e: Event, env: Env, h: History, s: Start)
    requires WorldOk(v) && LedgerOk(v, h, s) && EndsEvaluation(v, e, env)
    ensures RoundShown(v, e, env, h.ratings, s)
  {
    OthersDoNotEnd(v, e, env);
    var u: World;
    match e {
      case ReadyToggle(userId) => u := EndsByToggle(v, userId, env, h, s);
      case Disconnect(userId) => u := EndsByLeaving(v, userId, env, h, s);
      case TimerFires(timer) => u := EndsByTimer(v, timer, env, h, s);
    }
    ShownThrough(u, v, e, env, h, s);
  }

  lemma ShownThrough(u: World, v: World, e: Event, env: Env, h: History, s: Start)
    requires EndsThrough(u, v, e, env, h, s)
    ensures RoundShown(v, e, env, h.ratings, s)
  {
    ShownBy(u, v, AdvanceToRoundSummary(u, env).world, e, env, h, s);
  }

  lemma ShownBy(u: World, v: World, n: World, e: Event, env: Env, h: History, s: Start)
    requires WorldOk(u) && LedgerOk(u, h, s) && Reached(u, v, e)
    requires AdvanceToRoundSummary(u, env).reply == Done && n == AdvanceToRoundSummary(u, env).world
    ensures ShownIn(v, n, StillActive(v.game.value, e), h.ratings, s)
  {
    SummaryRanks(u, env, h, s);
    SummaryShows(u, env);
    SameMembers(u.game.value, v.game.value, StillActive(v.game.value, e));
  }

  lemma SameMembers(k: GameState, g: GameState, active: seq<nat>)
    requires Shrinks(g.memberOf, k.memberOf) && forall u | u in active :: u in k.memberOf
    ensures (forall u | u in active :: u in g.memberOf) && MembersOf(k, active) == MembersOf(g, active)
  {
  }

  /** The state entered shows the ranking of those still active and the drawings of the round. */
  ghost predicate ShownIn(v: World, n: World, active: seq<nat>, ratings: seq<Rating>, s: Start) {
    && v.game.Some? && n.game.Some? && n.game.value.phaseContext.RoundSummaryContext?
    && var (g, shown) := (v.game.value, n.game.value.phaseContext);
    && (forall u | u in active :: u in g.memberOf)
    && RanksRound(shown.rankings, MembersOf(g, active), ratings, s, Round(g))
    && ShowsRound(shown.drawingsById, v.tables.drawings, s.matchId, Round(g))
    && shown.readyUserIds == []
  }

  ghost predicate RoundShown(v: World, e: Event, env: Env, ratings: seq<Rating>, s: Start) {
    && v.game.Some? && v.game.value.phaseContext.EvaluatingContext?
    && ShownIn(v, Step(v, e, env).world, StillActive(v.game.value, e), ratings, s)
  }

  /**
   * Over every run: whatever ends an evaluation, the ranking shown has exactly one row per player
   * still active, at the sum of the latest ratings their drawing of the round got, best first and
   * the lower member id first among equals, and beside it exactly the drawings of the round.
   */
  lemma SummaryIsOfTheRound(w: World, s: Start, now: int, inputs: seq<Input>, e: Event, env: Env)
    requires Begins(w, s) && EndsEvaluation(Match(w, s, now, inputs), e, env)
    ensures RoundShown(Match(w, s, now, inputs), e, env, MatchRecord(w, s, now, inputs).ratings, s)
  {
    MatchOk(w, s, now, inputs);
    SummaryInLedger(Match(w, s, now, inputs), e, env, MatchRecord(w, s, now, inputs), s);
  }

  /**
   * The total shown in a round's ranking is looked up by the round's own drawing, which the
   * running record does not hold before: it is the round's score once more, never a sum over
   * rounds.
   */
  lemma RankingTotalIsTheRoundScore(w: World, s: Start, now: int, inputs: seq<Input>, e: Event, env: Env, r: Row)
    requires Begins(w, s) && EndsEvaluation(Match(w, s, now, inputs), e, env)
    ensures
      var n := Step(Match(w, s, now, inputs), e, env).world;
      var (ratings, round) := (MatchRecord(w, s, now, inputs).ratings, Round(Match(w, s, now, inputs).game.value));
      && n.game.Some? && n.game.value.phaseContext.RoundSummaryContext?
      && (r in n.game.value.phaseContext.rankings ==>
            r.minor == r.major == LatestSum(ratings, DrawingKey(s.matchId, r.id, round), Ascending(s.memberOf.Keys)))
  {
    SummaryIsOfTheRound(w, s, now, inputs, e, env);
    var rows := Step(Match(w, s, now, inputs), e, env).world.game.value.phaseContext.rankings;
    if r in rows {
      var i :| 0 <= i < |rows| && rows[i] == r;
    }
  }
}
