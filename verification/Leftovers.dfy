/**
 * Stroke lists across phases and matches: what empties a list, and how the list of a player who
 * left is still there when that player starts the next match of the room.
 */
module Leftovers {
  import opened Collections
  import opened GameTypes
  import opened GameSession
  import opened SessionInvariants
  import opened SessionRuns
  import opened MatchHistory
  import opened SessionProgress
  import opened RoomLifecycle
  import W = WaitingRoom

  /** The step ended this very round's DRAWING with the user among the active. */
  ghost predicate Empties(w: World, v: World, k: StrokeKey) {
    && w.game.Some? && w.game.value.phase == DRAWING && Round(w.game.value) == k.round
    && v.game.Some? && v.game.value.phase == EVALUATING && v.game.value.phaseContext.EvaluatingContext?
    && k.userId in v.game.value.phaseContext.activeUserIds
  }

  ghost predicate KeepsOrEmpties(w: World, v: World, k: StrokeKey) {
    StrokesAt(v.tables.strokes, k) == if Empties(w, v, k) then [] else StrokesAt(w.tables.strokes, k)
  }

  /** u is w with its state patched within the same phase and round. */
  ghost predicate Patched(w: World, u: World) {
    && w.game.Some? && u.game.Some? && u.tables == w.tables
    && u.game.value.phase == w.game.value.phase && u.game.value.currentRound == w.game.value.currentRound
    && Injective(u.game.value.memberOf)
  }

  lemma EvaluatingKeeps(w: World, u: World, expected: Option<nat>, env: Env, k: StrokeKey)
    requires Patched(w, u)
    ensures KeepsOrEmpties(w, AdvanceToEvaluating(u, expected, env).world, k)
  {
  }

  lemma SummaryKeeps(w: World, u: World, env: Env, k: StrokeKey)
    requires Patched(w, u) && w.game.value.phase == EVALUATING
    ensures KeepsOrEmpties(w, AdvanceToRoundSummary(u, env).world, k)
  {
    AdvanceToRoundSummaryMerges(u, env);
  }

  lemma SubmitKeepsLists(w: World, userId: nat, env: Env, k: StrokeKey)
    requires WorldOk(w) && w.game.Some?
    ensures KeepsOrEmpties(w, Submit(w, userId, env).world, k)
  {
    var g := w.game.value;
    if g.phaseContext.DrawingContext? && userId in g.phaseContext.activeUserIds {
      EvaluatingKeeps(w, w.(game := Some(g.(phaseContext := MarkReady(g.phaseContext, userId)))), None, env, k);
    }
  }

  lemma DisconnectKeepsLists(w: World, userId: nat, env: Env, k: StrokeKey)
    requires WorldOk(w) && w.game.Some?
    ensures KeepsOrEmpties(w, HandleDisconnect(w, userId, env).world, k)
  {
    var g := w.game.value;
    if |Leave(g, userId).memberOf| >= 2 && (g.phase == DRAWING || g.phase == EVALUATING) && userId in g.phaseContext.activeUserIds {
      if g.phase == DRAWING {
        EvaluatingKeeps(w, Departed(w, userId), None, env, k);
      } else {
        SummaryKeeps(w, Departed(w, userId), env, k);
      }
    }
  }

  lemma ToggleKeepsLists(w: World, userId: nat, env: Env, k: StrokeKey)
    requires WorldOk(w) && w.game.Some?
    ensures KeepsOrEmpties(w, ToggleReady(w, userId, env).world, k)
  {
    var g := w.game.value;
    if g.phase == EVALUATING && g.phaseContext.EvaluatingContext? {
      SummaryKeeps(w, w.(game := Some(g.(phaseContext := ToggledEvaluation(g.phaseContext, userId)))), env, k);
    }
  }

  lemma FireKeepsLists(w: World, timer: nat, env: Env, k: StrokeKey)
    requires WorldOk(w) && w.game.Some?
    ensures KeepsOrEmpties(w, Fire(w, timer, env).world, k)
  {
    if timer in w.timing.timers {
      match w.timing.timers[timer].task
      case EndDrawing(instance) => EvaluatingKeeps(w, Fired(w, timer), Some(instance), env, k);
      case EndEvaluating => if w.game.value.phase == EVALUATING { SummaryKeeps(w, Fired(w, timer), env, k); }
      case _ =>
    }
  }

  /** The line a step adds under a key. */
  ghost function Sent(w: World, e: Event, env: Env, k: StrokeKey): seq<DrawLine> {
    if e.SendLine? && w.game.Some? && k == StrokeKey(Round(w.game.value), e.userId) && Step(w, e, env).reply == Done then [e.line]
    else []
  }

  lemma LineOnList(w: World, userId: nat, line: DrawLine, env: Env, k: StrokeKey)
    requires w.game.Some?
    ensures
      var v := Step(w, SendLine(userId, line), env).world;
      !Empties(w, v, k) && StrokesAt(v.tables.strokes, k) == StrokesAt(w.tables.strokes, k) + Sent(w, SendLine(userId, line), env, k)
  {
  }

  /** A list grows by an accepted line, is emptied by the commit of its round with its user active, and else stays. */
  lemma StepOnList(w: World, e: Event, env: Env, k: StrokeKey)
    requires WorldOk(w)
    ensures
      var v := Step(w, e, env).world;
      StrokesAt(v.tables.strokes, k) == if Empties(w, v, k) then [] else StrokesAt(w.tables.strokes, k) + Sent(w, e, env, k)
  {
    var v := Step(w, e, env).world;
    assert StrokesAt(w.tables.strokes, k) + [] == StrokesAt(w.tables.strokes, k);
    if w.game.None? {
      NoGameStays(w, e, env);
    } else {
      match e
      case Finalize(userId, typedValue) => FinalizeKeepsLists(w, userId, typedValue, env, k);
      case SendLine(userId, line) => LineOnList(w, userId, line, env, k);
      case SubmitDrawing(userId) => SubmitKeepsLists(w, userId, env, k);
      case SubmitEvaluation(userId, drawingId, score) => VoteKeepsLists(w, userId, drawingId, score, k);
      case ReadyToggle(userId) => ToggleKeepsLists(w, userId, env, k);
      case Disconnect(userId) => DisconnectKeepsLists(w, userId, env, k);
      case TimerFires(timer) => FireKeepsLists(w, timer, env, k);
    }
  }

  lemma FinalizeKeepsLists(w: World, userId: nat, typedValue: string, env: Env, k: StrokeKey)
    ensures KeepsOrEmpties(w, StartDrawingPhase(w, userId, typedValue, env).world, k)
  {
  }

  lemma VoteKeepsLists(w: World, userId: nat, drawingId: string, score: int, k: StrokeKey)
    ensures KeepsOrEmpties(w, SubmitVote(w, userId, drawingId, score).world, k)
  {
  }

  ghost predicate NeverEmptied(w: World, inputs: seq<Input>, k: StrokeKey) {
    forall i | 0 <= i < |inputs| :: !Empties(Run(w, inputs[..i]), Run(w, inputs[..i + 1]), k)
  }

  /** Over any run a list only grows, by exactly the lines accepted under its key, until a commit of its round with its user active. */
  lemma {:induction false} ListStaysUntilCommit(w: World, inputs: seq<Input>, k: StrokeKey)
    requires WorldOk(w) && NeverEmptied(w, inputs, k)
    ensures StrokesAt(Run(w, inputs).tables.strokes, k) ==
            StrokesAt(w.tables.strokes, k) + StrokesAt(RunHistory(w, inputs).sent, k)
  {
    if inputs != [] {
      var front := inputs[..|inputs| - 1];
      var last := inputs[|inputs| - 1];
      forall i | 0 <= i < |front| ensures !Empties(Run(w, front[..i]), Run(w, front[..i + 1]), k) {
        assert front[..i] == inputs[..i] && front[..i + 1] == inputs[..i + 1];
      }
      ListStaysUntilCommit(w, front, k);
      RunKeeps(w, front);
      assert inputs[..|inputs| - 1 + 1] == inputs;
      assert !Empties(Run(w, inputs[..|inputs| - 1]), Run(w, inputs[..|inputs| - 1 + 1]), k);
      StepOnList(Run(w, front), last.event, last.env, k);
      RecordsSent(RunHistory(w, front), Run(w, front), last.event, last.env, k);
    }
  }

  lemma RecordsSent(h: History, w: World, e: Event, env: Env, k: StrokeKey)
    ensures StrokesAt(Record(h, w, e, env).sent, k) == StrokesAt(h.sent, k) + Sent(w, e, env, k)
  {
  }

  // ---------- a player who left ----------

  ghost predicate Gone(w: World, userId: nat) {
    w.game.Some? ==> userId !in w.game.value.memberOf
  }

  /** Nobody adds to or empties the list of a user who is no longer in the member map. */
  lemma GoneStays(w: World, e: Event, env: Env, k: StrokeKey)
    requires WorldOk(w) && Gone(w, k.userId)
    ensures Gone(Step(w, e, env).world, k.userId)
    ensures StrokesAt(Step(w, e, env).world.tables.strokes, k) == StrokesAt(w.tables.strokes, k)
  {
    StepKeeps(w, e, env);
    StepMoves(w, e, env);
    StepOnList(w, e, env, k);
  }

  lemma LobbyGoneStays(l: Lobby, e: LobbyEvent, k: StrokeKey)
    requires LobbyOk(l) && Gone(l.world, k.userId) && !e.StartGame?
    ensures Gone(LobbyStep(l, e).world, k.userId)
    ensures StrokesAt(LobbyStep(l, e).world.tables.strokes, k) == StrokesAt(l.world.tables.strokes, k)
  {
    if e.InGame? { GoneStays(l.world, e.event, e.env, k); }
  }

  /** Through the rest of the match, its end, and whatever happens at the door, until the next start. */
  lemma {:induction false} LobbyRunGoneStays(l: Lobby, run: seq<LobbyEvent>, k: StrokeKey)
    requires LobbyOk(l) && AllUserIdsOk(run) && Gone(l.world, k.userId) && forall e | e in run :: !e.StartGame?
    ensures LobbyOk(RunLobby(l, run)) && Gone(RunLobby(l, run).world, k.userId)
    ensures StrokesAt(RunLobby(l, run).world.tables.strokes, k) == StrokesAt(l.world.tables.strokes, k)
  {
    if run != [] {
      var front := run[..|run| - 1];
      assert run == front + [run[|run| - 1]];
      LobbyRunGoneStays(l, front, k);
      LobbyKeeps(RunLobby(l, front), run[|run| - 1]);
      LobbyGoneStays(RunLobby(l, front), run[|run| - 1], k);
    }
  }

  // ---------- playing a room's match to its end ----------

  lemma {:induction false} RunLobbyFrom(l: Lobby, first: LobbyEvent, rest: seq<LobbyEvent>)
    ensures RunLobby(l, [first] + rest) == RunLobby(LobbyStep(l, first), rest)
  {
    if rest == [] {
      assert [first] + rest == [first] && [first][..0] == [];
      assert RunLobby(l, []) == l;
    } else {
      var all := [first] + rest;
      assert all[..|all| - 1] == [first] + rest[..|rest| - 1];
      RunLobbyFrom(l, first, rest[..|rest| - 1]);
    }
  }

  lemma {:induction false} RunLobbyAppend(l: Lobby, a: seq<LobbyEvent>, b: seq<LobbyEvent>)
    ensures RunLobby(l, a + b) == RunLobby(RunLobby(l, a), b)
  {
    if b == [] {
      assert a + b == a;
    } else {
      assert (a + b)[..|a + b| - 1] == a + b[..|b| - 1];
      RunLobbyAppend(l, a, b[..|b| - 1]);
    }
  }

  ghost predicate Playable(l: Lobby) {
    LobbyOk(l) && Driven(l.world) && WellFormed(l.world.tables)
  }

  lemma DriveInWorld(w: World, env: Env)
    requires WorldOk(w) && Driven(w) && WellFormed(w.tables) && Accepting(env) && w.game.value.phase != WAITING
    ensures
      var v := Step(w, Drive(w), env).world;
      && Driven(v) && WellFormed(v.tables) && v.game.value.phase != w.game.value.phase
      && PhasesLeft(v.game.value) == PhasesLeft(w.game.value) - 1
  {
    DriveAdvances(w, env);
    StepMoves(w, Drive(w), env);
  }

  /** The room row hears of the one driving input that ends a match. */
  lemma DriveInHall(l: Lobby, env: Env)
    requires WorldOk(l.world) && Driven(l.world) && Accepting(env) && l.world.game.value.phase != WAITING
    ensures
      var (n, v) := (LobbyStep(l, InGame(Drive(l.world), env)), Step(l.world, Drive(l.world), env).world);
      && n.world == v
      && n.hall == (if l.world.game.value.phase == FINISHED then W.WithStatus(l.hall, W.WAITING) else l.hall)
  {
    var (w, e) := (l.world, Drive(l.world));
    if e.TimerFires? {
      FiredOk(w, e.timer);
      if w.game.value.phase == FINISHED { LoadingOrFinishedTimesOut(w, e.timer, env); }
    }
  }

  lemma DriveInLobby(l: Lobby, env: Env)
    requires Playable(l) && Accepting(env) && l.world.game.value.phase != WAITING
    ensures
      var n := LobbyStep(l, InGame(Drive(l.world), env));
      && Playable(n) && n.world.game.value.phase != l.world.game.value.phase
      && n.hall == (if n.world.game.value.phase == WAITING then W.WithStatus(l.hall, W.WAITING) else l.hall)
      && PhasesLeft(n.world.game.value) == PhasesLeft(l.world.game.value) - 1
  {
    DriveInWorld(l.world, env);
    DriveInHall(l, env);
    LobbyKeeps(l, InGame(Drive(l.world), env));
    WaitingIsNext(l.world, Drive(l.world), env);
  }

  lemma WaitingIsNext(w: World, e: Event, env: Env)
    requires WorldOk(w) && w.game.Some? && Step(w, e, env).world.game.Some?
    requires Step(w, e, env).world.game.value.phase != w.game.value.phase
    ensures Step(w, e, env).world.game.value.phase == WAITING <==> w.game.value.phase == FINISHED
  {
    StepMoves(w, e, env);
  }

  /** The room's match is played out and the room is WAITING again, its membership untouched. */
  lemma {:induction false} PlayToWaiting(l: Lobby, env: Env) returns (run: seq<LobbyEvent>)
    requires Playable(l) && Accepting(env) && l.world.game.value.phase != WAITING
    ensures forall e | e in run :: e.InGame?
    ensures RunLobby(l, run).hall == W.WithStatus(l.hall, W.WAITING)
    decreases PhasesLeft(l.world.game.value)
  {
    var first := InGame(Drive(l.world), env);
    var n := LobbyStep(l, first);
    DriveInLobby(l, env);
    if n.world.game.value.phase == WAITING {
      run := [first];
      RunLobbyFrom(l, first, []);
      assert [first] + [] == [first];
      assert RunLobby(n, []) == n;
    } else {
      var rest := PlayToWaiting(n, env);
      run := [first] + rest;
      RunLobbyFrom(l, first, rest);
    }
  }

  // ---------- the list reaches the next match ----------

  /** A player draws one line. */
  lemma LineIsDrawn(l: Lobby, userId: nat, line: DrawLine, env: Env)
    requires Playable(l) && l.world.game.value.phase == DRAWING && IsValidDrawData([line])
    requires userId in l.world.game.value.phaseContext.activeUserIds
    ensures
      var n := LobbyStep(l, InGame(SendLine(userId, line), env));
      var k := StrokeKey(Round(l.world.game.value), userId);
      && Playable(n) && n.hall == l.hall && n.world.game == l.world.game
      && StrokesAt(n.world.tables.strokes, k) == StrokesAt(l.world.tables.strokes, k) + [line]
  {
    LobbyKeeps(l, InGame(SendLine(userId, line), env));
  }

  /** A player leaves the game: it goes on, and the list is kept. */
  lemma DrawerLeaves(l: Lobby, userId: nat, env: Env)
    requires Playable(l) && l.world.game.value.phase == DRAWING && Accepting(env)
    requires userId in l.world.game.value.phaseContext.activeUserIds && |l.world.game.value.memberOf| >= 3
    ensures
      var n := LobbyStep(l, InGame(Disconnect(userId), env));
      var k := StrokeKey(Round(l.world.game.value), userId);
      && Playable(n) && n.hall == l.hall && n.world.game.value.phase != WAITING && Gone(n.world, userId)
      && StrokesAt(n.world.tables.strokes, k) == StrokesAt(l.world.tables.strokes, k)
  {
    OneFewer(l.world.game.value.memberOf, userId);
    LobbyKeeps(l, InGame(Disconnect(userId), env));
    DisconnectPlays(l, userId, env);
    DepartureIsDriven(l.world, userId, env);
    DepartureKeepsList(l.world, userId, env);
  }

  lemma DisconnectPlays(l: Lobby, userId: nat, env: Env)
    ensures LobbyStep(l, InGame(Disconnect(userId), env)) == l.(world := HandleDisconnect(l.world, userId, env).world)
  {
  }

  lemma DepartureKeepsList(w: World, userId: nat, env: Env)
    requires WorldOk(w) && w.game.Some? && Gone(HandleDisconnect(w, userId, env).world, userId)
    ensures
      var k := StrokeKey(Round(w.game.value), userId);
      StrokesAt(HandleDisconnect(w, userId, env).world.tables.strokes, k) == StrokesAt(w.tables.strokes, k)
  {
    DisconnectKeeps(w, userId, env);
    DisconnectKeepsLists(w, userId, env, StrokeKey(Round(w.game.value), userId));
  }

  lemma OneFewer(m: map<nat, nat>, userId: nat)
    ensures |m - {userId}| >= |m| - 1
  {
    assert m.Keys - {userId} == (m - {userId}).Keys;
    assert |m.Keys - {userId}| >= |m.Keys| - 1;
  }

  lemma DepartureIsDriven(w: World, userId: nat, env: Env)
    requires WorldOk(w) && Driven(w) && WellFormed(w.tables) && w.game.value.phase == DRAWING && env.itemsSettled
    requires userId in w.game.value.phaseContext.activeUserIds && |Leave(w.game.value, userId).memberOf| >= 2
    ensures
      var v := HandleDisconnect(w, userId, env).world;
      && Driven(v) && WellFormed(v.tables) && Gone(v, userId) && (v.game.value.phase == DRAWING || v.game.value.phase == EVALUATING)
  {
    DepartedOk(w, userId);
    var d := Departed(w, userId);
    if IsReadyToAdvance(d.game.value.phaseContext) {
      var v := AdvanceToEvaluating(d, None, env).world;
      DrawingEndsUnlessUnsettled(d, None, env);
      AdvanceToEvaluatingCommits(d, None, env);
      CommitKeepsWellFormed(d, v);
      assert d.timing.nextTimer in v.timing.timers;
    }
  }

  /** The room can be started again as it stands. */
  ghost predicate Restartable(h: W.Hall) {
    h.room.Some? && h.host.Some? && W.ValidateStart(W.WithStatus(h, W.WAITING), h.host.value).Ok?
  }

  function StartAgain(h: W.Hall, now: int): LobbyEvent {
    StartGame(Or(h.host, 0), [], 0, 0, now)
  }

  /** A start that succeeds, of a match the player is in, with the list already under the player's key. */
  ghost predicate BeginsWith(l: Lobby, e: LobbyEvent, k: StrokeKey, list: seq<DrawLine>) {
    && e.StartGame? && Starts(l, e) && k.userId in StartMap(l, e)
    && var s := Start(MatchIdOf(l, e), StartMap(l, e), l.world.tables.strokes);
       Begins(l.world, s) && StrokesAt(s.strokes, k) == list
  }

  ghost predicate AllInGame(run: seq<LobbyEvent>) {
    forall e | e in run :: e.InGame?
  }

  lemma PlayedOut(l: Lobby, env: Env, userId: nat, k: StrokeKey) returns (run: seq<LobbyEvent>)
    requires Playable(l) && Accepting(env) && l.world.game.value.phase != WAITING && Gone(l.world, userId)
    requires userId in l.hall.members && Restartable(l.hall) && k.userId == userId
    ensures AllInGame(run)
    ensures BeginsWith(RunLobby(l, run), StartAgain(l.hall, env.now), k, StrokesAt(l.world.tables.strokes, k))
  {
    run := PlayToWaiting(l, env);
    LobbyRunGoneStays(l, run, k);
    RestartBegins(RunLobby(l, run), l.hall, userId, env.now);
  }

  lemma DrawnAndLeft(l: Lobby, userId: nat, line: DrawLine, env: Env)
    requires Playable(l) && l.world.game.value.phase == DRAWING && Accepting(env) && IsValidDrawData([line])
    requires userId in l.world.game.value.phaseContext.activeUserIds && |l.world.game.value.memberOf| >= 3
    ensures
      var n := LobbyStep(LobbyStep(l, InGame(SendLine(userId, line), env)), InGame(Disconnect(userId), env));
      var k := StrokeKey(Round(l.world.game.value), userId);
      && Playable(n) && n.hall == l.hall && n.world.game.value.phase != WAITING && Gone(n.world, userId)
      && StrokesAt(n.world.tables.strokes, k) == StrokesAt(l.world.tables.strokes, k) + [line]
  {
    LineIsDrawn(l, userId, line, env);
    DrawerLeaves(LobbyStep(l, InGame(SendLine(userId, line), env)), userId, env);
  }

  /**
   * A player still in the room who draws a line and drops out of the game finds that line in
   * front of the drawing of the same round of the next match: the second start begins with it.
   */
  lemma LeftoversReachNextMatch(l: Lobby, userId: nat, line: DrawLine, env: Env) returns (run: seq<LobbyEvent>)
    requires Playable(l) && l.world.game.value.phase == DRAWING && Accepting(env) && IsValidDrawData([line])
    requires userId in l.world.game.value.phaseContext.activeUserIds && |l.world.game.value.memberOf| >= 3
    requires userId in l.hall.members && Restartable(l.hall)
    ensures AllInGame(run)
    ensures
      var k := StrokeKey(Round(l.world.game.value), userId);
      BeginsWith(RunLobby(l, run), StartAgain(l.hall, env.now), k, StrokesAt(l.world.tables.strokes, k) + [line])
  {
    var (draw, leave) := (InGame(SendLine(userId, line), env), InGame(Disconnect(userId), env));
    DrawnAndLeft(l, userId, line, env);
    var rest := PlayedOut(LobbyStep(LobbyStep(l, draw), leave), env, userId, StrokeKey(Round(l.world.game.value), userId));
    run := [draw] + ([leave] + rest);
    RunTwoFrom(l, draw, leave, rest);
  }

  lemma RunTwoFrom(l: Lobby, a: LobbyEvent, b: LobbyEvent, rest: seq<LobbyEvent>)
    ensures RunLobby(l, [a] + ([b] + rest)) == RunLobby(LobbyStep(LobbyStep(l, a), b), rest)
  {
    RunLobbyFrom(l, a, [b] + rest);
    RunLobbyFrom(LobbyStep(l, a), b, rest);
  }

  lemma RestartBegins(end: Lobby, h: W.Hall, userId: nat, now: int)
    requires LobbyOk(end) && end.hall == W.WithStatus(h, W.WAITING) && Restartable(h) && userId in h.members
    ensures
      var again := StartAgain(h, now);
      && Starts(end, again) && userId in StartMap(end, again)
      && Begins(end.world, Start(MatchIdOf(end, again), StartMap(end, again), end.world.tables.strokes))
  {
    var again := StartAgain(h, now);
    StartMapIsInjective(end, again);
    StartBegins(end, again);
  }

  // ---------- a room where it happens ----------

  function ReadyPlayer(joinedAt: int): W.Player {
    W.Player(W.NONE, true, joinedAt)
  }

  ghost predicate SoloRoom(h: W.Hall) {
    W.Opened(h) && h.room.value.mode == W.SOLO && !h.room.value.isPrivate && h.room.value.status == W.WAITING
  }

  lemma FirstJoin(h: W.Hall)
    requires SoloRoom(h)
    ensures W.JoinRoom(h, 1, true, 0).hall == W.Hall(h.room, map[1 := ReadyPlayer(0)], Some(1))
  {
  }

  lemma LaterJoin(h: W.Hall, room: W.Room, userId: nat, joinedAt: int)
    requires h.room == Some(room) && room.mode == W.SOLO && !room.isPrivate && room.status == W.WAITING
    requires userId !in h.members && |h.members| < room.maxPlayers && h.host.Some? && h.host != Some(userId)
    ensures W.Toggle(W.JoinRoom(h, userId, true, joinedAt).hall, userId).hall ==
            h.(members := h.members[userId := ReadyPlayer(joinedAt)])
  {
  }

  /** A host and two players who join and ready up. */
  function Arrivals(): seq<LobbyEvent> {
    [AtDoor(W.Join(1, true, 0)), AtDoor(W.Join(2, true, 1)), AtDoor(W.ToggleReady(2)),
     AtDoor(W.Join(3, true, 2)), AtDoor(W.ToggleReady(3))]
  }

  lemma RunFive(l: Lobby, a: LobbyEvent, b: LobbyEvent, c: LobbyEvent, d: LobbyEvent, e: LobbyEvent)
    ensures RunLobby(l, [a, b, c, d, e]) == LobbyStep(LobbyStep(LobbyStep(LobbyStep(LobbyStep(l, a), b), c), d), e)
  {
    assert [a, b, c, d, e] == [a] + ([b] + ([c] + ([d] + ([e] + []))));
    RunLobbyFrom(l, a, [b] + ([c] + ([d] + ([e] + []))));
    RunLobbyFrom(LobbyStep(l, a), b, [c] + ([d] + ([e] + [])));
    RunLobbyFrom(LobbyStep(LobbyStep(l, a), b), c, [d] + ([e] + []));
    RunLobbyFrom(LobbyStep(LobbyStep(LobbyStep(l, a), b), c), d, [e] + []);
    RunLobbyFrom(LobbyStep(LobbyStep(LobbyStep(LobbyStep(l, a), b), c), d), e, []);
  }

  lemma ThreeReady(l: Lobby)
    requires SoloRoom(l.hall)
    ensures RunLobby(l, Arrivals()) ==
            l.(hall := W.Hall(l.hall.room, map[1 := ReadyPlayer(0), 2 := ReadyPlayer(1), 3 := ReadyPlayer(2)], Some(1)))
  {
    var room := l.hall.room.value;
    var one := W.Hall(l.hall.room, map[1 := ReadyPlayer(0)], Some(1));
    var two := one.(members := one.members[2 := ReadyPlayer(1)]);
    FirstJoin(l.hall);
    LaterJoin(one, room, 2, 1);
    LaterJoin(two, room, 3, 2);
    RunFive(l, Arrivals()[0], Arrivals()[1], Arrivals()[2], Arrivals()[3], Arrivals()[4]);
    assert two.members[3 := ReadyPlayer(2)] == map[1 := ReadyPlayer(0), 2 := ReadyPlayer(1), 3 := ReadyPlayer(2)];
  }

  lemma ThreeCanStart(h: W.Hall)
    requires h.room.Some? && h.room.value.mode == W.SOLO && h.host == Some(1) && h.room.value.status == W.WAITING
    requires h.members == map[1 := ReadyPlayer(0), 2 := ReadyPlayer(1), 3 := ReadyPlayer(2)]
    ensures W.ValidateStart(h, 1).Ok? && Restartable(W.WithStatus(h, W.IN_PROGRESS))
  {
    assert h.members.Keys == {1, 2, 3};
    assert |h.members| == |h.members.Keys|;
    assert 2 in h.members && h.host != Some(2);
  }

  lemma LoadingLeadsToThemes(w: World, env: Env)
    requires WorldOk(w) && Driven(w) && w.game.value.phase == LOADING && Accepting(env)
    ensures
      var v := Step(w, Drive(w), env).world;
      && v.game.Some? && v.game.value.phase == THEME_SELECTING && Round(v.game.value) == 1 && v.tables == w.tables
      && v.game.value.memberOf == w.game.value.memberOf
  {
    FiredOk(w, Pick(w.timing.timers));
  }

  lemma ThemesLeadToDrawing(w: World, env: Env)
    requires WorldOk(w) && Driven(w) && w.game.value.phase == THEME_SELECTING
    requires forall u | u in w.game.value.memberOf :: u in env.connected
    ensures
      var v := Step(w, Drive(w), env).world;
      && v.game.Some? && v.game.value.phase == DRAWING && v.game.value.phaseContext.DrawingContext? && v.tables == w.tables
      && Round(v.game.value) == Round(w.game.value) && v.game.value.memberOf == w.game.value.memberOf
      && forall u | u in w.game.value.memberOf :: u in v.game.value.phaseContext.activeUserIds
  {
    ThemeIsChosen(w, env);
  }

  /** A game in some phase of round one, with the hall, tables and members the lobby had. */
  ghost predicate FirstRound(n: Lobby, l: Lobby, phase: Phase) {
    && Playable(n) && n.hall == l.hall && n.world.tables == l.world.tables && l.world.game.Some?
    && n.world.game.value.phase == phase && Round(n.world.game.value) == 1
    && n.world.game.value.memberOf == l.world.game.value.memberOf
  }

  lemma DriveInFirstRound(l: Lobby, start: Lobby, phase: Phase, env: Env)
    requires Playable(l) && Accepting(env) && l.world.game.value.phase != WAITING && phase != WAITING
    requires FirstRound(l, start, l.world.game.value.phase)
    requires
      var v := Step(l.world, Drive(l.world), env).world;
      && v.game.Some? && v.game.value.phase == phase && Round(v.game.value) == 1 && v.tables == l.world.tables
      && v.game.value.memberOf == l.world.game.value.memberOf
    ensures FirstRound(LobbyStep(l, InGame(Drive(l.world), env)), start, phase)
  {
    DriveInLobby(l, env);
    DriveInHall(l, env);
  }

  lemma Loads(l: Lobby, env: Env)
    requires Playable(l) && l.world.game.value.phase == LOADING && Accepting(env)
    ensures FirstRound(LobbyStep(l, InGame(Drive(l.world), env)), l, THEME_SELECTING)
  {
    LoadingLeadsToThemes(l.world, env);
    DriveInFirstRound(l, l, THEME_SELECTING, env);
  }

  ghost predicate AllActive(w: World) {
    && w.game.Some? && w.game.value.phaseContext.DrawingContext?
    && forall u | u in w.game.value.memberOf :: u in w.game.value.phaseContext.activeUserIds
  }

  lemma Chooses(l: Lobby, start: Lobby, env: Env)
    requires FirstRound(l, start, THEME_SELECTING) && Accepting(env)
    requires forall u | u in l.world.game.value.memberOf :: u in env.connected
    ensures FirstRound(LobbyStep(l, InGame(Drive(l.world), env)), start, DRAWING)
    ensures AllActive(LobbyStep(l, InGame(Drive(l.world), env)).world)
  {
    ThemesLeadToDrawing(l.world, env);
    DriveInFirstRound(l, start, DRAWING, env);
    DriveInHall(l, env);
  }

  /** Two inputs take a started match to its first drawing phase with everybody active. */
  lemma FirstDrawing(l: Lobby, env: Env) returns (run: seq<LobbyEvent>)
    requires Playable(l) && l.world.game.value.phase == LOADING && Accepting(env)
    requires forall u | u in l.world.game.value.memberOf :: u in env.connected
    ensures AllInGame(run) && FirstRound(RunLobby(l, run), l, DRAWING) && AllActive(RunLobby(l, run).world)
  {
    var load := InGame(Drive(l.world), env);
    var loaded := LobbyStep(l, load);
    Loads(l, env);
    var choose := InGame(Drive(loaded.world), env);
    Chooses(loaded, l, env);
    run := [load] + ([choose] + []);
    RunLobbyFrom(l, load, [choose] + []);
    RunLobbyFrom(loaded, choose, []);
    assert RunLobby(LobbyStep(loaded, choose), []) == LobbyStep(loaded, choose);
  }

  lemma StartIsPlayable(l: Lobby, e: LobbyEvent)
    requires LobbyOk(l) && WellFormed(l.world.tables) && e.StartGame? && W.ValidateStart(l.hall, e.requesterId).Ok?
    ensures
      var n := LobbyStep(l, e);
      && Starts(l, e) && Playable(n) && n.world.game.value.phase == LOADING && n.world.tables == l.world.tables
      && n.hall == W.WithStatus(l.hall, W.IN_PROGRESS) && n.world.game.value.memberOf.Keys == l.hall.members.Keys
  {
    StartMapIsInjective(l, e);
    LobbyKeeps(l, e);
    assert l.world.timing.nextTimer in LobbyStep(l, e).world.timing.timers;
  }

  /** A room's first round: three players, all drawing, ready to start again. */
  ghost predicate ThreeDraw(n: Lobby, l: Lobby) {
    && Playable(n) && n.world.tables == l.world.tables && n.world.game.value.phase == DRAWING && Round(n.world.game.value) == 1
    && n.world.game.value.memberOf.Keys == {1, 2, 3} && AllActive(n.world)
    && 3 in n.hall.members && Restartable(n.hall)
  }

  ghost predicate ThreeInHall(h: W.Hall) {
    && h.room.Some? && h.room.value.mode == W.SOLO && h.host == Some(1) && h.room.value.status == W.WAITING
    && h.members == map[1 := ReadyPlayer(0), 2 := ReadyPlayer(1), 3 := ReadyPlayer(2)]
  }

  lemma ThreeAreStarted(n: Lobby, h: W.Hall)
    requires ThreeInHall(h) && n.hall == W.WithStatus(h, W.IN_PROGRESS)
    requires n.world.game.Some? && n.world.game.value.memberOf.Keys == h.members.Keys
    ensures n.world.game.value.memberOf.Keys == {1, 2, 3} && 3 in n.hall.members && Restartable(n.hall)
  {
    ThreeCanStart(h);
    assert h.members.Keys == {1, 2, 3};
  }

  lemma StartOfThree(l: Lobby) returns (start: LobbyEvent)
    requires LobbyOk(l) && WellFormed(l.world.tables) && ThreeInHall(l.hall)
    ensures UserIdsOk(start)
    ensures
      var n := LobbyStep(l, start);
      && Playable(n) && n.world.game.value.phase == LOADING && n.world.tables == l.world.tables
      && n.world.game.value.memberOf.Keys == {1, 2, 3} && 3 in n.hall.members && Restartable(n.hall)
  {
    start := StartGame(1, [], 0, 0, 0);
    ThreeCanStart(l.hall);
    StartIsPlayable(l, start);
    ThreeAreStarted(LobbyStep(l, start), l.hall);
  }

  lemma ThreeStart(l: Lobby, env: Env) returns (run: seq<LobbyEvent>)
    requires LobbyOk(l) && WellFormed(l.world.tables) && ThreeInHall(l.hall)
    requires Accepting(env) && env.connected == {1, 2, 3}
    ensures AllUserIdsOk(run) && ThreeDraw(RunLobby(l, run), l)
  {
    var start := StartOfThree(l);
    var started := LobbyStep(l, start);
    var opening := FirstDrawing(started, env);
    run := [start] + opening;
    RunLobbyFrom(l, start, opening);
  }

  lemma ThirdLeaves(n: Lobby, l: Lobby, line: DrawLine, env: Env) returns (run: seq<LobbyEvent>)
    requires ThreeDraw(n, l) && Accepting(env) && IsValidDrawData([line])
    ensures AllInGame(run)
    ensures BeginsWith(RunLobby(n, run), StartAgain(n.hall, env.now), StrokeKey(1, 3),
                       StrokesAt(l.world.tables.strokes, StrokeKey(1, 3)) + [line])
  {
    var g := n.world.game.value;
    assert |g.memberOf| == |g.memberOf.Keys| == 3;
    run := LeftoversReachNextMatch(n, 3, line, env);
  }

  /**
   * Witness, from the creation of a room: three players start, the third draws a line in round
   * one and drops out, the others finish; the same three start again, and the stroke list of
   * round one already holds that line before anybody draws.
   */
  lemma SecondMatchStartsWithLeftovers(l: Lobby, line: DrawLine, env: Env) returns (run: seq<LobbyEvent>, again: LobbyEvent)
    requires Created(l) && SoloRoom(l.hall) && WellFormed(l.world.tables)
    requires Accepting(env) && env.connected == {1, 2, 3} && IsValidDrawData([line])
    ensures AllUserIdsOk(run)
    ensures BeginsWith(RunLobby(l, run), again, StrokeKey(1, 3), StrokesAt(l.world.tables.strokes, StrokeKey(1, 3)) + [line])
  {
    var ready := RunLobby(l, Arrivals());
    ThreeReady(l);
    LifeOk(l, Arrivals());
    var first := ThreeStart(ready, env);
    var drawing := RunLobby(ready, first);
    var rest := ThirdLeaves(drawing, ready, line, env);
    again := StartAgain(drawing.hall, env.now);
    run := Arrivals() + (first + rest);
    RunLobbyAppend(l, Arrivals(), first + rest);
    RunLobbyAppend(ready, first, rest);
  }
}
