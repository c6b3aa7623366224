/**
 * A room over its whole life: waiting, starting, playing, returning, with members and sockets
 * coming and going throughout. Ties the waiting room to the session protocol.
 */
module RoomLifecycle {
  import opened Collections
  import opened GameTypes
  import opened GameSession
  import opened SessionInvariants
  import opened SessionRuns
  import opened MatchHistory
  import W = WaitingRoom

  /** The room, its RoomMember rows by user, the next free ids, and the game it holds. */
  datatype Lobby = Lobby(hall: W.Hall, memberRows: map<nat, nat>, nextMember: nat, nextMatch: nat, world: World)

  datatype LobbyEvent =
    | AtDoor(action: W.HallEvent)
    | StartGame(requesterId: nat, order: seq<nat>, memberId: nat, matchId: nat, now: int)
    | InGame(event: Event, env: Env)

  // ---------- starting a game ----------

  /** Ids come from a sequence other rooms draw from too: at least the next one. */
  function Issue(requested: nat, next: nat): nat {
    if requested >= next then requested else next
  }

  /** Rows are upserted one player after another; a player seen before keeps the row's id. */
  function UpsertMembers(rows: map<nat, nat>, players: seq<nat>, next: nat): map<nat, nat> {
    if players == [] then rows
    else
      var before := UpsertMembers(rows, players[..|players| - 1], next);
      var u := players[|players| - 1];
      if u in before then before else before[u := next + |players|]
  }

  function MemberMap(rows: map<nat, nat>, players: seq<nat>): map<nat, nat> {
    map u | u in players && u in rows :: rows[u]
  }

  predicate Mapped(memberOf: map<nat, nat>, players: seq<nat>) {
    forall u | u in players :: u in memberOf && memberOf[u] != 0
  }

  /** What the start transaction would store as the member map. */
  function StartMap(l: Lobby, e: LobbyEvent): map<nat, nat>
    requires e.StartGame?
  {
    var players := W.PlayersIn(e.order, l.hall.members);
    MemberMap(UpsertMembers(l.memberRows, players, Issue(e.memberId, l.nextMember)), players)
  }

  predicate Starts(l: Lobby, e: LobbyEvent) {
    && e.StartGame? && W.ValidateStart(l.hall, e.requesterId).Ok?
    && Mapped(StartMap(l, e), W.PlayersIn(e.order, l.hall.members))
  }

  function MatchIdOf(l: Lobby, e: LobbyEvent): nat
    requires e.StartGame?
  {
    Issue(e.matchId, l.nextMatch)
  }

  /** Validation, then WAITING to IN_PROGRESS, rows, map and match in one transaction, then the new state. */
  ghost function StartMatch(l: Lobby, e: LobbyEvent): Lobby
    requires e.StartGame?
  {
    if !Starts(l, e) then l
    else
      var players := W.PlayersIn(e.order, l.hall.members);
      var first := Issue(e.memberId, l.nextMember);
      Lobby(W.WithStatus(l.hall, W.IN_PROGRESS), UpsertMembers(l.memberRows, players, first), first + |players| + 1,
            MatchIdOf(l, e) + 1, InitializeGame(l.world, MatchIdOf(l, e), StartMap(l, e), e.now))
  }

  /** The return timer fired on a finished game: its state is WAITING, and the room row follows. */
  ghost predicate Returns(w: World, e: Event, env: Env) {
    && e.TimerFires? && e.timer in w.timing.timers && w.timing.timers[e.timer].task.ReturnToWaiting?
    && Step(w, e, env).reply == Done
  }

  ghost function Play(l: Lobby, e: Event, env: Env): Lobby {
    var stepped := l.(world := Step(l.world, e, env).world);
    if Returns(l.world, e, env) then stepped.(hall := W.WithStatus(l.hall, W.WAITING)) else stepped
  }

  ghost function LobbyStep(l: Lobby, e: LobbyEvent): Lobby {
    match e
    case AtDoor(action) => if action.SetStatus? then l else l.(hall := W.Handle(l.hall, action).hall)
    case StartGame(_, _, _, _, _) => StartMatch(l, e)
    case InGame(event, env) => Play(l, event, env)
  }

  ghost function RunLobby(l: Lobby, run: seq<LobbyEvent>): Lobby {
    if run == [] then l else LobbyStep(RunLobby(l, run[..|run| - 1]), run[|run| - 1])
  }

  // ---------- rows appear only under the running match ----------

  ghost predicate RowsFrom(w: World, v: World) {
    && (forall d | d in v.tables.drawings :: d in w.tables.drawings || (w.game.Some? && d.matchId == w.game.value.matchId))
    && (forall k | k in v.tables.votes :: k in w.tables.votes || (w.game.Some? && k.drawing.matchId == w.game.value.matchId))
  }

  ghost predicate SameMatch(w: World, u: World) {
    w.game.Some? && u.game.Some? && u.game.value.matchId == w.game.value.matchId && u.tables == w.tables
  }

  lemma EvaluatingRows(w: World, u: World, expected: Option<nat>, env: Env)
    requires SameMatch(w, u) && Injective(u.game.value.memberOf)
    ensures RowsFrom(w, AdvanceToEvaluating(u, expected, env).world)
  {
    var g := u.game.value;
    if g.phaseContext.DrawingContext? && (forall x | x in g.phaseContext.activeUserIds :: x in g.memberOf) && g.currentRound.Some? {
      CommittedRows(g, g.currentRound.value, g.phaseContext.activeUserIds, u.tables.strokes, u.tables.drawings);
    }
  }

  lemma SummaryRows(w: World, u: World, env: Env)
    requires SameMatch(w, u)
    ensures RowsFrom(w, AdvanceToRoundSummary(u, env).world)
  {
  }

  lemma DisconnectRows(w: World, userId: nat, env: Env)
    requires WorldOk(w) && w.game.Some?
    ensures RowsFrom(w, HandleDisconnect(w, userId, env).world)
  {
    var g := w.game.value;
    if |Leave(g, userId).memberOf| >= 2 && (g.phase == DRAWING || g.phase == EVALUATING) && userId in g.phaseContext.activeUserIds {
      if g.phase == DRAWING {
        EvaluatingRows(w, Departed(w, userId), None, env);
      } else {
        SummaryRows(w, Departed(w, userId), env);
      }
    }
  }

  lemma SubmitRows(w: World, userId: nat, env: Env)
    requires WorldOk(w) && w.game.Some?
    ensures RowsFrom(w, Submit(w, userId, env).world)
  {
    var g := w.game.value;
    if g.phaseContext.DrawingContext? && userId in g.phaseContext.activeUserIds {
      EvaluatingRows(w, w.(game := Some(g.(phaseContext := MarkReady(g.phaseContext, userId)))), None, env);
    }
  }

  lemma EvaluationToggleRows(w: World, g: GameState, userId: nat, env: Env)
    requires w.game == Some(g) && g.phase == EVALUATING
    ensures RowsFrom(w, ToggleEvaluationReady(w, g, userId, env).world)
  {
    if g.phaseContext.EvaluatingContext? {
      SummaryRows(w, w.(game := Some(g.(phaseContext := ToggledEvaluation(g.phaseContext, userId)))), env);
    }
  }

  lemma SummaryToggleRows(w: World, g: GameState, userId: nat, env: Env)
    requires w.game == Some(g) && g.phase == ROUND_SUMMARY
    ensures RowsFrom(w, ToggleSummaryReady(w, g, userId, env).world)
  {
  }

  lemma ToggleRows(w: World, userId: nat, env: Env)
    requires w.game.Some?
    ensures RowsFrom(w, ToggleReady(w, userId, env).world)
  {
    if w.game.value.phase == EVALUATING {
      EvaluationToggleRows(w, w.game.value, userId, env);
    } else if w.game.value.phase == ROUND_SUMMARY {
      SummaryToggleRows(w, w.game.value, userId, env);
    }
  }

  lemma FireRows(w: World, timer: nat, env: Env)
    requires WorldOk(w) && w.game.Some?
    ensures RowsFrom(w, Fire(w, timer, env).world)
  {
    if timer in w.timing.timers {
      match w.timing.timers[timer].task
      case EndDrawing(instance) => EvaluatingRows(w, Fired(w, timer), Some(instance), env);
      case EndEvaluating => SummaryRows(w, Fired(w, timer), env);
      case _ =>
    }
  }

  lemma StepRows(w: World, e: Event, env: Env)
    requires WorldOk(w)
    ensures RowsFrom(w, Step(w, e, env).world)
  {
    if w.game.Some? {
      match e
      case SubmitDrawing(userId) => SubmitRows(w, userId, env);
      case ReadyToggle(userId) => ToggleRows(w, userId, env);
      case Disconnect(userId) => DisconnectRows(w, userId, env);
      case TimerFires(timer) => FireRows(w, timer, env);
      case _ =>
    }
  }

  // ---------- the member map ----------

  ghost predicate RowsOk(rows: map<nat, nat>, next: nat) {
    Injective(rows) && forall u | u in rows :: 0 < rows[u] <= next
  }

  lemma {:induction false} UpsertedRows(rows: map<nat, nat>, players: seq<nat>, next: nat, low: nat)
    requires RowsOk(rows, low) && low <= next
    ensures
      var after := UpsertMembers(rows, players, next);
      && RowsOk(after, next + |players|)
      && (forall u :: u in after <==> u in rows || u in players)
      && (forall u | u in rows :: after[u] == rows[u])
  {
    if players != [] {
      var front := players[..|players| - 1];
      assert players == front + [players[|players| - 1]];
      UpsertedRows(rows, front, next, low);
    }
  }

  /** The map of a start: one positive id per starting player, kept from an earlier start, no id twice, nobody else. */
  lemma StartMapIsInjective(l: Lobby, e: LobbyEvent)
    requires e.StartGame? && RowsOk(l.memberRows, l.nextMember)
    ensures StartMap(l, e).Keys == l.hall.members.Keys && Injective(StartMap(l, e))
    ensures forall u | u in StartMap(l, e) :: StartMap(l, e)[u] > 0
    ensures Mapped(StartMap(l, e), W.PlayersIn(e.order, l.hall.members))
    ensures forall u | u in StartMap(l, e) && u in l.memberRows :: StartMap(l, e)[u] == l.memberRows[u]
  {
    UpsertedRows(l.memberRows, W.PlayersIn(e.order, l.hall.members), Issue(e.memberId, l.nextMember), l.nextMember);
  }

  // ---------- what the lobby keeps ----------

  ghost predicate Idle(w: World) {
    && w.timing.timers == map[]
    && (w.game.None? || w.game.value.phase == WAITING)
  }

  ghost predicate MatchesBelow(w: World, next: nat) {
    && (w.game.Some? ==> w.game.value.matchId < next)
    && (forall d | d in w.tables.drawings :: d.matchId < next)
    && (forall k | k in w.tables.votes :: k.drawing.matchId < next)
  }

  ghost predicate LobbyOk(l: Lobby) {
    && W.HostOk(l.hall) && W.CapacityOk(l.hall)
    && (forall u | u in l.hall.members :: u > 0)
    && RowsOk(l.memberRows, l.nextMember)
    && WorldOk(l.world) && MatchesBelow(l.world, l.nextMatch)
    && (l.hall.room.Some? && l.hall.room.value.status == W.WAITING ==> Idle(l.world))
  }

  lemma WaitingHasNoTimers(v: World)
    requires WorldOk(v) && v.game.Some? && v.game.value.phase == WAITING
    ensures v.timing.timers == map[]
  {
  }

  /** A step on a room without a running game sets no timer and starts none. */
  lemma IdleStays(w: World, e: Event, env: Env)
    requires WorldOk(w) && Idle(w)
    ensures Idle(Step(w, e, env).world)
  {
    StepKeeps(w, e, env);
    StepMoves(w, e, env);
    var v := Step(w, e, env).world;
    if v.game.Some? {
      WaitingHasNoTimers(v);
    } else if w.game.None? {
      NoGameStays(w, e, env);
    } else {
      AbortIdle(w, e, env);
    }
  }

  lemma NoGameStays(w: World, e: Event, env: Env)
    requires w.game.None?
    ensures Step(w, e, env).world.game.None?
    ensures forall id | id in Step(w, e, env).world.timing.timers :: id in w.timing.timers
    ensures Step(w, e, env).world.tables == w.tables
  {
  }

  lemma AbortIdle(w: World, e: Event, env: Env)
    requires w.game.Some? && Idle(w) && Step(w, e, env).world.game.None?
    ensures Step(w, e, env).world.timing.timers == map[]
  {
    assert e.Disconnect?;
  }

  lemma PlayKeeps(l: Lobby, e: Event, env: Env)
    requires LobbyOk(l)
    ensures LobbyOk(Play(l, e, env))
  {
    var v := Step(l.world, e, env).world;
    StepKeeps(l.world, e, env);
    StepMoves(l.world, e, env);
    StepRows(l.world, e, env);
    if Returns(l.world, e, env) {
      assert v.game.Some? && v.game.value.phase == WAITING;
      WaitingHasNoTimers(v);
    } else if l.hall.room.Some? && l.hall.room.value.status == W.WAITING {
      IdleStays(l.world, e, env);
    }
    if l.world.game.None? { NoGameStays(l.world, e, env); }
    assert MatchesBelow(v, l.nextMatch);
  }

  /** Who joins has a user id, and user ids are positive. */
  ghost predicate UserIdsOk(e: LobbyEvent) {
    e.AtDoor? && e.action.Join? ==> e.action.userId > 0
  }

  lemma SettingsMembers(h: W.Hall, requesterId: nat, s: W.Settings, order: seq<nat>)
    ensures W.ApplySettings(h, requesterId, s, order).hall.members.Keys == h.members.Keys
  {
    if h.room.Some? && W.Resets(h.room.value, s) {
      W.ResetKeepsMembers(h.members, W.PlayersIn(order, h.members), s.mode.value, h.host);
    }
  }

  lemma DepartureMembers(h: W.Hall, userId: nat, order: seq<nat>)
    ensures W.StoreLeave(h, userId, order).members.Keys <= h.members.Keys
    ensures W.LeaveRoom(h, userId, order).members.Keys <= h.members.Keys
  {
  }

  lemma EntryMembers(h: W.Hall, e: W.HallEvent)
    requires e.Join? || e.ToggleReady? || e.ChangeTeam? || e.DeleteRoom? || e.SetStatus?
    ensures W.Handle(h, e).hall.members.Keys <= h.members.Keys + if e.Join? then {e.userId} else {}
  {
  }

  lemma HandleMembers(h: W.Hall, e: W.HallEvent)
    ensures W.Handle(h, e).hall.members.Keys <= h.members.Keys + if e.Join? then {e.userId} else {}
  {
    match e
    case UpdateSettings(requesterId, settings, order) => SettingsMembers(h, requesterId, settings, order);
    case Kick(requesterId, target, order) => DepartureMembers(h, target, order);
    case Leave(userId, order) => DepartureMembers(h, userId, order);
    case Disconnect(userId, order) => DepartureMembers(h, userId, order);
    case _ => EntryMembers(h, e);
  }

  lemma HandleStatus(h: W.Hall, e: W.HallEvent)
    requires !e.SetStatus?
    ensures W.Handle(h, e).hall.room.Some? ==> h.room.Some? && W.Handle(h, e).hall.room.value.status == h.room.value.status
  {
  }

  /**
   * A successful start is where a match begins: on no timers, over no running game, with a
   * fresh match id and a one-to-one map of at least two players. All that is proved of a
   * match from its start therefore holds of every match this room ever plays.
   */
  lemma StartBegins(l: Lobby, e: LobbyEvent)
    requires LobbyOk(l) && Starts(l, e)
    ensures Idle(l.world)
    ensures StartMap(l, e).Keys == l.hall.members.Keys
    ensures Begins(l.world, Start(MatchIdOf(l, e), StartMap(l, e), l.world.tables.strokes))
  {
    StartMapIsInjective(l, e);
    assert |l.hall.members.Keys| >= 3 && |StartMap(l, e).Keys| == |l.hall.members.Keys|;
  }

  lemma StartKeeps(l: Lobby, e: LobbyEvent)
    requires LobbyOk(l) && e.StartGame?
    ensures LobbyOk(StartMatch(l, e))
  {
    if Starts(l, e) {
      StartBegins(l, e);
      StartOk(l.world, MatchIdOf(l, e), StartMap(l, e), e.now);
      UpsertedRows(l.memberRows, W.PlayersIn(e.order, l.hall.members), Issue(e.memberId, l.nextMember), l.nextMember);
    }
  }

  lemma LobbyKeeps(l: Lobby, e: LobbyEvent)
    requires LobbyOk(l) && UserIdsOk(e)
    ensures LobbyOk(LobbyStep(l, e))
  {
    match e
    case AtDoor(action) =>
      if !action.SetStatus? {
        W.HandleKeeps(l.hall, action);
        HandleMembers(l.hall, action);
        assert forall u | u in W.Handle(l.hall, action).hall.members :: u in l.hall.members || (action.Join? && u == action.userId);
        HandleStatus(l.hall, action);
      }
    case StartGame(_, _, _, _, _) => StartKeeps(l, e);
    case InGame(event, env) => PlayKeeps(l, event, env);
  }

  // ---------- whole lives ----------

  /** A room just created: nobody in it, no row of it anywhere, and whatever older matches left in the tables. */
  ghost predicate Created(l: Lobby) {
    && W.Opened(l.hall) && l.memberRows == map[]
    && l.world.game.None? && l.world.timing.timers == map[]
    && MatchesBelow(l.world, l.nextMatch)
  }

  ghost predicate AllUserIdsOk(run: seq<LobbyEvent>) {
    forall e | e in run :: UserIdsOk(e)
  }

  lemma {:induction false} LifeOk(l: Lobby, run: seq<LobbyEvent>)
    requires Created(l) && AllUserIdsOk(run)
    ensures LobbyOk(RunLobby(l, run))
  {
    if run != [] {
      var front := run[..|run| - 1];
      assert run == front + [run[|run| - 1]];
      LifeOk(l, front);
      LobbyKeeps(RunLobby(l, front), run[|run| - 1]);
    }
  }

  /**
   * At most one live game per room: in every life of a room, while its stored phase lies
   * between LOADING and FINISHED the room is IN_PROGRESS, so no start can succeed and the
   * running game is never overwritten.
   */
  lemma LiveGameIsProtected(l: Lobby, run: seq<LobbyEvent>, e: LobbyEvent)
    requires Created(l) && AllUserIdsOk(run) && e.StartGame?
    requires RunLobby(l, run).world.game.Some? && RunLobby(l, run).world.game.value.phase != WAITING
    ensures
      var at := RunLobby(l, run);
      && (at.hall.room.Some? ==> at.hall.room.value.status == W.IN_PROGRESS)
      && StartMatch(at, e) == at
  {
    LifeOk(l, run);
  }

  /** Every start a room ever makes begins a match in the sense of the match theorems. */
  lemma EveryStartBegins(l: Lobby, run: seq<LobbyEvent>, e: LobbyEvent)
    requires Created(l) && AllUserIdsOk(run) && Starts(RunLobby(l, run), e)
    ensures
      var at := RunLobby(l, run);
      && StartMap(at, e).Keys == at.hall.members.Keys
      && Begins(at.world, Start(MatchIdOf(at, e), StartMap(at, e), at.world.tables.strokes))
  {
    LifeOk(l, run);
    StartBegins(RunLobby(l, run), e);
  }

  ghost predicate NotWaiting(l: Lobby) {
    l.hall.room.Some? ==> l.hall.room.value.status == W.IN_PROGRESS
  }

  ghost predicate ReturnsAt(l: Lobby, run: seq<LobbyEvent>, k: nat)
    requires k < |run|
  {
    run[k].InGame? && Returns(RunLobby(l, run[..k]).world, run[k].event, run[k].env)
  }

  lemma NotWaitingStays(l: Lobby, e: LobbyEvent)
    requires NotWaiting(l) && !(e.InGame? && Returns(l.world, e.event, e.env))
    ensures NotWaiting(LobbyStep(l, e)) && !Starts(l, e)
  {
    if e.AtDoor? && !e.action.SetStatus? { HandleStatus(l.hall, e.action); }
  }

  lemma {:induction false} NoReturnNoWaiting(l: Lobby, run: seq<LobbyEvent>)
    requires NotWaiting(l) && forall k: nat | k < |run| :: !ReturnsAt(l, run, k)
    ensures NotWaiting(RunLobby(l, run))
  {
    if run != [] {
      var front := run[..|run| - 1];
      forall k: nat | k < |front| ensures !ReturnsAt(l, front, k) {
        assert front[..k] == run[..k];
        assert !ReturnsAt(l, run, k);
      }
      NoReturnNoWaiting(l, front);
      assert !ReturnsAt(l, run, |run| - 1);
      NotWaitingStays(RunLobby(l, front), run[|run| - 1]);
    }
  }

  /** Between two successful starts of a room its game returned to WAITING. */
  lemma StartsAreSeparated(l: Lobby, first: LobbyEvent, run: seq<LobbyEvent>, second: LobbyEvent)
    requires Starts(l, first) && Starts(RunLobby(LobbyStep(l, first), run), second)
    ensures exists k: nat :: k < |run| && ReturnsAt(LobbyStep(l, first), run, k)
  {
    var started := LobbyStep(l, first);
    if forall k: nat | k < |run| :: !ReturnsAt(started, run, k) {
      NoReturnNoWaiting(started, run);
    }
  }

  lemma {:induction false} GamelessStays(l: Lobby, run: seq<LobbyEvent>, e: LobbyEvent)
    requires l.world.game.None? && NotWaiting(l)
    ensures RunLobby(l, run).world.game.None? && NotWaiting(RunLobby(l, run)) && !Starts(RunLobby(l, run), e)
  {
    if run != [] {
      var front := run[..|run| - 1];
      var last := run[|run| - 1];
      GamelessStays(l, front, last);
      var at := RunLobby(l, front);
      if last.InGame? { NoGameStays(at.world, last.event, last.env); }
      NotWaitingStays(at, last);
    }
  }

  /**
   * The departure that leaves one player ends a live game for good: whatever comes after, there
   * is no game, the room if it still exists is IN_PROGRESS, and no start succeeds.
   */
  lemma AbortIsFinal(l: Lobby, userId: nat, env: Env, run: seq<LobbyEvent>, e: LobbyEvent)
    requires LobbyOk(l) && l.world.game.Some? && l.world.game.value.phase != WAITING
    requires |Leave(l.world.game.value, userId).memberOf| <= 1
    ensures
      var aborted := LobbyStep(l, InGame(Disconnect(userId), env));
      var at := RunLobby(aborted, run);
      && aborted.world.game.None? && at.world.game.None?
      && (at.hall.room.Some? ==> at.hall.room.value.status == W.IN_PROGRESS) && !Starts(at, e)
  {
    GamelessStays(LobbyStep(l, InGame(Disconnect(userId), env)), run, e);
  }
}
