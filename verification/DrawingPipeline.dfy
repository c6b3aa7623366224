/**
 * Strokes to committed rows to evaluators: what a round commits for each active player, and
 * what each viewer is sent.
 */
module DrawingPipeline {
  import opened Collections
  import opened DrawingKeys
  import opened GameTypes
  import opened GameSession
  import opened SessionInvariants
  import opened SessionRuns
  import opened MatchHistory

  datatype SentDrawing = SentDrawing(drawingId: string, lines: seq<DrawLine>)

  /** One target's drawing; a target without a drawing or a member id is dropped. */
  function Presented(g: GameState, round: nat, byUser: map<nat, seq<DrawLine>>, u: nat): seq<SentDrawing> {
    if u in byUser && u in g.memberOf && g.memberOf[u] != 0
    then [SentDrawing(DrawingId(DrawingKey(g.matchId, g.memberOf[u], round)), byUser[u])]
    else []
  }

  /** One viewer's drawings, in the order the targets were shuffled into. */
  function Deliver(g: GameState, round: nat, byUser: map<nat, seq<DrawLine>>, targets: seq<nat>): seq<SentDrawing> {
    if targets == [] then []
    else
      Deliver(g, round, byUser, targets[..|targets| - 1]) + Presented(g, round, byUser, targets[|targets| - 1])
  }

  function OtherUsers(byUser: map<nat, seq<DrawLine>>, viewer: nat): seq<nat> {
    Without(Ascending(byUser.Keys), viewer)
  }

  /** The round's rows of the table after the commit are one per active player. */
  lemma RoundRowsAreActive(w: World, v: World, h: History, s: Start, userId: nat)
    requires WorldOk(w) && LedgerOk(w, h, s) && w.game.Some? && v.game.Some? && w.game.value.phase == DRAWING
    requires Commits(w, v) && userId in w.game.value.memberOf
    ensures
      var g := w.game.value;
      var d := DrawingKey(g.matchId, g.memberOf[userId], Round(g));
      && (d in v.tables.drawings <==> userId in g.phaseContext.activeUserIds)
      && (d in v.tables.drawings ==>
            v.tables.drawings[d] ==
            StrokesAt(s.strokes, StrokeKey(Round(g), userId)) + StrokesAt(h.sent, StrokeKey(Round(g), userId)))
  {
    var g := w.game.value;
    CommittedRows(g, Round(g), g.phaseContext.activeUserIds, w.tables.strokes, w.tables.drawings);
  }

  /**
   * Ending the drawing phase of any reachable match commits for each active player the lines
   * left over under that player's key and then the lines accepted this round, in send order;
   * so exactly the lines of the round if and only if nothing was left over.
   */
  lemma CommitsWhatWasSent(w: World, s: Start, now: int, inputs: seq<Input>, env: Env, userId: nat)
    requires Begins(w, s)
    requires
      var v := Match(w, s, now, inputs);
      && v.game.Some? && v.game.value.phase == DRAWING && env.itemsSettled
      && v.game.value.phaseContext.DrawingContext? && userId in v.game.value.phaseContext.activeUserIds
    ensures
      var v := Match(w, s, now, inputs);
      var g := v.game.value;
      var k := StrokeKey(Round(g), userId);
      var sent := StrokesAt(MatchRecord(w, s, now, inputs).sent, k);
      var r := AdvanceToEvaluating(v, None, env);
      && r.reply == Done && userId in g.memberOf
      && var d := DrawingKey(g.matchId, g.memberOf[userId], Round(g));
      && d in r.world.tables.drawings
      && r.world.tables.drawings[d] == StrokesAt(s.strokes, k) + sent
      && (r.world.tables.drawings[d] == sent <==> StrokesAt(s.strokes, k) == [])
  {
    MatchOk(w, s, now, inputs);
    var v := Match(w, s, now, inputs);
    var h := MatchRecord(w, s, now, inputs);
    DrawingEndsUnlessUnsettled(v, None, env);
    AdvanceToEvaluatingCommits(v, None, env);
    RoundRowsAreActive(v, AdvanceToEvaluating(v, None, env).world, h, s, userId);
  }

  /** The drawings read back for evaluators are exactly the active players'. */
  lemma EvaluatorsSeeActive(w: World, v: World, h: History, s: Start)
    requires WorldOk(w) && LedgerOk(w, h, s) && w.game.Some? && v.game.Some? && w.game.value.phase == DRAWING
    requires Commits(w, v)
    ensures
      var g := w.game.value;
      forall u :: u in DrawingsByUser(g, Round(g), v.tables.drawings) <==> u in g.phaseContext.activeUserIds
  {
    var g := w.game.value;
    forall u | u in g.memberOf
      ensures u in DrawingsByUser(g, Round(g), v.tables.drawings) <==> u in g.phaseContext.activeUserIds
    {
      RoundRowsAreActive(w, v, h, s, u);
    }
  }

  lemma {:induction false} DeliverEach(g: GameState, round: nat, byUser: map<nat, seq<DrawLine>>, targets: seq<nat>)
    requires forall u | u in targets :: u in byUser && u in g.memberOf && g.memberOf[u] != 0
    ensures |Deliver(g, round, byUser, targets)| == |targets|
    ensures forall i | 0 <= i < |targets| ::
              Deliver(g, round, byUser, targets)[i] ==
              SentDrawing(DrawingId(DrawingKey(g.matchId, g.memberOf[targets[i]], round)), byUser[targets[i]])
  {
    if targets != [] {
      DeliverEach(g, round, byUser, targets[..|targets| - 1]);
    }
  }

  lemma TargetsAreOthers(active: seq<nat>, byUser: map<nat, seq<DrawLine>>, viewer: nat, targets: seq<nat>)
    requires Distinct(active) && forall u :: u in byUser <==> u in active
    requires multiset(targets) == multiset(OtherUsers(byUser, viewer))
    ensures Distinct(targets) && |targets| == |Without(active, viewer)|
    ensures forall u :: u in targets <==> u in active && u != viewer
  {
    var others := OtherUsers(byUser, viewer);
    Rearranged(others, targets);
    var asSet := set u | u in others;
    DistinctCardinality(others, asSet);
    DistinctCardinality(Without(active, viewer), asSet);
  }

  /** x shows u's committed row of the round under an id that decodes to u's member id. */
  ghost predicate Shows(g: GameState, drawings: map<DrawingKey, seq<DrawLine>>, x: SentDrawing, u: nat)
    requires u in g.memberOf
  {
    var d := DrawingKey(g.matchId, g.memberOf[u], Round(g));
    ParseDrawingId(x.drawingId) == Some(d) && d in drawings && x.lines == drawings[d]
  }

  lemma DeliveredShows(g: GameState, drawings: map<DrawingKey, seq<DrawLine>>, targets: seq<nat>)
    requires forall u | u in g.memberOf :: g.memberOf[u] > 0
    requires forall u | u in targets :: u in DrawingsByUser(g, Round(g), drawings)
    ensures
      var sent := Deliver(g, Round(g), DrawingsByUser(g, Round(g), drawings), targets);
      && |sent| == |targets|
      && forall i | 0 <= i < |sent| :: targets[i] in g.memberOf && Shows(g, drawings, sent[i], targets[i])
  {
    var byUser := DrawingsByUser(g, Round(g), drawings);
    DeliverEach(g, Round(g), byUser, targets);
    var sent := Deliver(g, Round(g), byUser, targets);
    forall i | 0 <= i < |sent| ensures targets[i] in g.memberOf && Shows(g, drawings, sent[i], targets[i]) {
      assert targets[i] in byUser;
      IdRoundTrip(DrawingKey(g.matchId, g.memberOf[targets[i]], Round(g)));
    }
  }

  /**
   * Whatever the shuffle, a viewer of a reachable match receives one drawing for each other
   * active player and no more: the i-th shows the i-th shuffled player's committed row, and
   * the shuffled players are distinct and are exactly the other active ones.
   */
  lemma ViewerReceivesOthers(w: World, h: History, s: Start, v: World, viewer: nat, targets: seq<nat>)
    requires WorldOk(w) && LedgerOk(w, h, s) && w.game.Some? && v.game.Some? && w.game.value.phase == DRAWING
    requires Commits(w, v)
    requires multiset(targets) ==
             multiset(OtherUsers(DrawingsByUser(w.game.value, Round(w.game.value), v.tables.drawings), viewer))
    ensures
      var g := w.game.value;
      var sent := Deliver(g, Round(g), DrawingsByUser(g, Round(g), v.tables.drawings), targets);
      && |sent| == |targets| == |Without(g.phaseContext.activeUserIds, viewer)|
      && Distinct(targets)
      && (forall u :: u in targets <==> u in g.phaseContext.activeUserIds && u != viewer)
      && (forall i | 0 <= i < |sent| :: targets[i] in g.memberOf && Shows(g, v.tables.drawings, sent[i], targets[i]))
  {
    var g := w.game.value;
    var byUser := DrawingsByUser(g, Round(g), v.tables.drawings);
    EvaluatorsSeeActive(w, v, h, s);
    TargetsAreOthers(g.phaseContext.activeUserIds, byUser, viewer, targets);
    DeliveredShows(g, v.tables.drawings, targets);
  }

  /** The i-th drawing is what the i-th target sent in the round, under an id naming that target's member. */
  ghost predicate ShowsWhatWasSent(g: GameState, h: History, sent: seq<SentDrawing>, targets: seq<nat>) {
    && |sent| == |targets|
    && forall i | 0 <= i < |sent| ::
         && targets[i] in g.memberOf
         && ParseDrawingId(sent[i].drawingId) == Some(DrawingKey(g.matchId, g.memberOf[targets[i]], Round(g)))
         && sent[i].lines == StrokesAt(h.sent, StrokeKey(Round(g), targets[i]))
  }

  ghost predicate AreOthers(g: GameState, viewer: nat, targets: seq<nat>) {
    && Distinct(targets) && g.phaseContext.DrawingContext?
    && forall u :: u in targets <==> u in g.phaseContext.activeUserIds && u != viewer
  }

  lemma ReceivesWhatWasSent(w: World, h: History, s: Start, v: World, viewer: nat, targets: seq<nat>)
    requires WorldOk(w) && LedgerOk(w, h, s) && w.game.Some? && v.game.Some? && w.game.value.phase == DRAWING
    requires Commits(w, v) && s.strokes == map[]
    requires multiset(targets) ==
             multiset(OtherUsers(DrawingsByUser(w.game.value, Round(w.game.value), v.tables.drawings), viewer))
    ensures AreOthers(w.game.value, viewer, targets)
    ensures
      var g := w.game.value;
      ShowsWhatWasSent(g, h, Deliver(g, Round(g), DrawingsByUser(g, Round(g), v.tables.drawings), targets), targets)
  {
    var g := w.game.value;
    ViewerReceivesOthers(w, h, s, v, viewer, targets);
    var sent := Deliver(g, Round(g), DrawingsByUser(g, Round(g), v.tables.drawings), targets);
    forall i | 0 <= i < |sent|
      ensures targets[i] in g.memberOf && sent[i].lines == StrokesAt(h.sent, StrokeKey(Round(g), targets[i]))
    {
      assert Shows(g, v.tables.drawings, sent[i], targets[i]);
      RoundRowsAreActive(w, v, h, s, targets[i]);
    }
  }

  /**
   * Round trip of a match begun on empty stroke lists: when its drawing phase ends, a viewer
   * receives, in the shuffled order, for each other active player exactly the lines that player
   * sent this round, under an id that decodes to that player's member.
   */
  lemma ViewersReceiveWhatWasSent(w: World, s: Start, now: int, inputs: seq<Input>, env: Env, after: World,
                                  viewer: nat, targets: seq<nat>)
    requires Begins(w, s) && s.strokes == map[] && env.itemsSettled
    requires Match(w, s, now, inputs).game.Some? && Match(w, s, now, inputs).game.value.phase == DRAWING
    requires after == AdvanceToEvaluating(Match(w, s, now, inputs), None, env).world
    requires
      var g := Match(w, s, now, inputs).game.value;
      multiset(targets) == multiset(OtherUsers(DrawingsByUser(g, Round(g), after.tables.drawings), viewer))
    ensures
      var g := Match(w, s, now, inputs).game.value;
      var sent := Deliver(g, Round(g), DrawingsByUser(g, Round(g), after.tables.drawings), targets);
      AreOthers(g, viewer, targets) && ShowsWhatWasSent(g, MatchRecord(w, s, now, inputs), sent, targets)
  {
    MatchOk(w, s, now, inputs);
    CommitsAndContinues(Match(w, s, now, inputs), env, after);
    ReceivesWhatWasSent(Match(w, s, now, inputs), MatchRecord(w, s, now, inputs), s, after, viewer, targets);
  }

  lemma CommitsAndContinues(w: World, env: Env, after: World)
    requires WorldOk(w) && w.game.Some? && w.game.value.phase == DRAWING && env.itemsSettled
    requires after == AdvanceToEvaluating(w, None, env).world
    ensures after.game.Some? && Commits(w, after)
  {
  }

  /** A player who left mid-drawing keeps a stroke list that the round's cleanup does not reach. */
  lemma DepartedStrokesSurvive(w: World, v: World, userId: nat)
    requires w.game.Some? && v.game.Some? && GameOk(w.game.value) && w.game.value.phase == DRAWING && Commits(w, v)
    ensures
      var k := StrokeKey(Round(w.game.value), userId);
      StrokesAt(v.tables.strokes, k) ==
      if userId in w.game.value.phaseContext.activeUserIds then [] else StrokesAt(w.tables.strokes, k)
  {
  }
}
