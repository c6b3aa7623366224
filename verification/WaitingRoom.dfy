/**
 * The waiting room: who is in it, who hosts it, teams, and what may start a game. Redis
 * lists members in no particular order, so every listing is an input of the step.
 */
module WaitingRoom {
  import opened Collections

  datatype RoomMode = SOLO | TEAM

  datatype RoomStatus = WAITING | IN_PROGRESS

  datatype Team = NONE | RED | BLUE

  datatype WaitingError =
    | ROOM_NOT_FOUND | GAME_ALREADY_STARTED | ROOM_FULL | ROOM_INVALID_PASSWORD
    | HOST_CANNOT_TOGGLE_READY | PLAYER_NOT_FOUND
    | SOLO_MODE_NO_TEAMS | INVALID_TEAM | TEAM_FULL
    | PERMISSION_DENIED | CANNOT_KICK_SELF | MAX_PLAYERS_LESS_THAN_CURRENT
    | SOLO_MODE_PLAYERS | TEAM_MODE_PLAYERS | PRIVATE_ROOM_NEEDS_PASSWORD
    | GAME_START_NOT_HOST | GAME_START_NOT_ENOUGH_PLAYERS | NOT_ALL_PLAYERS_READY | TEAM_IMBALANCE

  const SOLO_MIN_PLAYERS := 3
  const SOLO_MAX_PLAYERS := 6

  predicate IsTeamSize(n: int) {
    n == 4 || n == 6
  }

  datatype Room = Room(mode: RoomMode, maxPlayers: int, isPrivate: bool, hashedPassword: Option<string>, status: RoomStatus)

  datatype Player = Player(team: Team, isReady: bool, joinedAt: int)

  datatype Settings = Settings(mode: Option<RoomMode>, maxPlayers: Option<int>, isPrivate: Option<bool>, password: Option<string>)

  /** One room: its row, and the members and host key beside it. */
  datatype Hall = Hall(room: Option<Room>, members: map<nat, Player>, host: Option<nat>)

  datatype Reply = Reply(hall: Hall, result: Result<(), WaitingError>)

  datatype HallEvent =
    | Join(userId: nat, passwordMatches: bool, joinedAt: int)
    | ToggleReady(userId: nat)
    | ChangeTeam(userId: nat, team: Team)
    | UpdateSettings(requesterId: nat, settings: Settings, order: seq<nat>)
    | Kick(requesterId: nat, targetUserId: nat, order: seq<nat>)
    | Leave(userId: nat, order: seq<nat>)
    | Disconnect(userId: nat, order: seq<nat>)
    | DeleteRoom
    | SetStatus(status: RoomStatus)  // a game starts or is over

  // ---------- the room row ----------

  function ValidatePlayerCount(r: Room): Result<(), WaitingError> {
    if r.mode == SOLO && !(SOLO_MIN_PLAYERS <= r.maxPlayers <= SOLO_MAX_PLAYERS) then Err(SOLO_MODE_PLAYERS)
    else if r.mode == TEAM && !IsTeamSize(r.maxPlayers) then Err(TEAM_MODE_PLAYERS)
    else Ok(())
  }

  /** A public room forgets its password; a private one must have one. */
  function Validated(r: Room): Result<Room, WaitingError> {
    var count := ValidatePlayerCount(r);
    if count.Err? then Err(count.error)
    else if r.isPrivate && (r.hashedPassword.None? || r.hashedPassword.value == "") then Err(PRIVATE_ROOM_NEEDS_PASSWORD)
    else Ok(if r.isPrivate then r else r.(hashedPassword := None))
  }

  /** Only the fields sent are assigned; an empty password counts as not sent. */
  function Merged(r: Room, s: Settings): Room {
    Room(Or(s.mode, r.mode), Or(s.maxPlayers, r.maxPlayers), Or(s.isPrivate, r.isPrivate),
         if s.password.Some? && s.password.value != "" then s.password else r.hashedPassword, r.status)
  }

  // ---------- reading the members ----------

  predicate Lists(order: seq<nat>, members: map<nat, Player>) {
    Distinct(order) && (forall u | u in order :: u in members) && forall u | u in members :: u in order
  }

  /** The members in the order the store happens to return them. */
  function PlayersIn(order: seq<nat>, members: map<nat, Player>): (r: seq<nat>)
    ensures Lists(r, members)
  {
    if Lists(order, members) then order else Ascending(members.Keys)
  }

  function OnTeam(members: map<nat, Player>, team: Team): set<nat> {
    set u | u in members && members[u].team == team
  }

  /** The first of those who joined earliest: what a stable sort by joinedAt puts first. */
  function Earliest(players: seq<nat>, members: map<nat, Player>): (r: nat)
    requires players != [] && forall u | u in players :: u in members
    ensures r in players && forall u | u in players :: members[r].joinedAt <= members[u].joinedAt
  {
    if |players| == 1 then players[0]
    else
      var rest := Earliest(players[1..], members);
      assert forall u | u in players :: u == players[0] || u in players[1..];
      if members[players[0]].joinedAt <= members[rest].joinedAt then players[0] else rest
  }

  // ---------- the store ----------

  function MakeReady(members: map<nat, Player>, userId: nat): map<nat, Player>
    requires userId in members
  {
    members[userId := members[userId].(isReady := true)]
  }

  function ClearHall(h: Hall): Hall {
    if h.members == map[] then h else h.(members := map[], host := None)
  }

  function TransferHost(h: Hall, order: seq<nat>): Hall {
    if h.members == map[] then ClearHall(h)
    else
      var players := PlayersIn(order, h.members);
      assert players != [] by { var u :| u in h.members; assert u in players; }
      var next := Earliest(players, h.members);
      h.(host := Some(next), members := MakeReady(h.members, next))
  }

  function StoreLeave(h: Hall, userId: nat, order: seq<nat>): Hall {
    var left := h.(members := h.members - {userId});
    if h.host == Some(userId) then TransferHost(left, order) else left
  }

  // ---------- the handlers ----------

  function InitialTeam(h: Hall, room: Room): Team {
    if room.mode == SOLO then NONE
    else if |OnTeam(h.members, RED)| <= |OnTeam(h.members, BLUE)| then RED else BLUE
  }

  /** Joins, and takes the host key when nobody holds it. */
  function Enter(h: Hall, userId: nat, player: Player): Hall {
    var joined := h.(members := h.members[userId := player]);
    if h.host.None? then joined.(host := Some(userId), members := MakeReady(joined.members, userId)) else joined
  }

  function JoinRoom(h: Hall, userId: nat, passwordMatches: bool, joinedAt: int): Reply {
    if h.room.None? then Reply(h, Err(ROOM_NOT_FOUND))
    else
      var room := h.room.value;
      if userId in h.members then Reply(h, Ok(()))
      else if room.status != WAITING then Reply(h, Err(GAME_ALREADY_STARTED))
      else if |h.members| >= room.maxPlayers then Reply(h, Err(ROOM_FULL))
      else if room.isPrivate && Or(room.hashedPassword, "") != "" && !passwordMatches then Reply(h, Err(ROOM_INVALID_PASSWORD))
      else Reply(Enter(h, userId, Player(InitialTeam(h, room), false, joinedAt)), Ok(()))
  }

  function Toggle(h: Hall, userId: nat): Reply {
    if h.room.None? then Reply(h, Err(ROOM_NOT_FOUND))
    else if h.host == Some(userId) then Reply(h, Err(HOST_CANNOT_TOGGLE_READY))
    else if userId !in h.members then Reply(h, Err(PLAYER_NOT_FOUND))
    else Reply(h.(members := h.members[userId := h.members[userId].(isReady := !h.members[userId].isReady)]), Ok(()))
  }

  /** `Math.ceil(maxPlayers / 2)` */
  function MaxPerTeam(room: Room): int {
    (room.maxPlayers + 1) / 2
  }

  function Reteam(h: Hall, userId: nat, team: Team): Reply {
    if h.room.None? then Reply(h, Err(ROOM_NOT_FOUND))
    else if h.room.value.mode == SOLO then Reply(h, Err(SOLO_MODE_NO_TEAMS))
    else if team == NONE then Reply(h, Err(INVALID_TEAM))
    else if userId !in h.members then Reply(h, Err(PLAYER_NOT_FOUND))
    else if |OnTeam(h.members, team) - {userId}| >= MaxPerTeam(h.room.value) then Reply(h, Err(TEAM_FULL))
    else Reply(h.(members := h.members[userId := h.members[userId].(team := team)]), Ok(()))
  }

  function ResetTeam(mode: RoomMode, index: nat): Team {
    if mode == SOLO then NONE else if index % 2 == 0 then RED else BLUE
  }

  /** Player by player in listing order: a team by position, and unready except the host. */
  function ResetTeams(members: map<nat, Player>, players: seq<nat>, mode: RoomMode, host: Option<nat>): map<nat, Player>
    requires forall u | u in players :: u in members
  {
    if players == [] then members
    else
      var last := |players| - 1;
      var u := players[last];
      var p := members[u];
      ResetTeams(members, players[..last], mode, host)
        [u := Player(ResetTeam(mode, last), host == Some(u) && p.isReady, p.joinedAt)]
  }

  predicate Resets(room: Room, s: Settings) {
    s.mode.Some? && room.mode != s.mode.value
  }

  /** Teams are written before the room accepts the settings, and stay written if it does not. */
  function ApplySettings(h: Hall, requesterId: nat, s: Settings, order: seq<nat>): Reply {
    if h.room.None? then Reply(h, Err(ROOM_NOT_FOUND))
    else if h.host != Some(requesterId) then Reply(h, Err(PERMISSION_DENIED))
    else if s.maxPlayers.Some? && s.maxPlayers.value != 0 && s.maxPlayers.value < |h.members|
    then Reply(h, Err(MAX_PLAYERS_LESS_THAN_CURRENT))
    else
      var room := h.room.value;
      var members := if Resets(room, s) then ResetTeams(h.members, PlayersIn(order, h.members), s.mode.value, h.host) else h.members;
      var updated := Validated(Merged(room, s));
      if updated.Err? then Reply(h.(members := members), Err(updated.error))
      else Reply(h.(members := members, room := Some(updated.value)), Ok(()))
  }

  function KickPlayer(h: Hall, requesterId: nat, targetUserId: nat, order: seq<nat>): Reply {
    if h.room.None? then Reply(h, Err(ROOM_NOT_FOUND))
    else if h.host != Some(requesterId) then Reply(h, Err(PERMISSION_DENIED))
    else if requesterId == targetUserId then Reply(h, Err(CANNOT_KICK_SELF))
    else if targetUserId !in h.members then Reply(h, Err(PLAYER_NOT_FOUND))
    else Reply(StoreLeave(h, targetUserId, order), Ok(()))
  }

  /** The last to leave takes the room row along. */
  function LeaveRoom(h: Hall, userId: nat, order: seq<nat>): Hall {
    var left := StoreLeave(h, userId, order);
    if left.members == map[] then ClearHall(left).(room := None) else left
  }

  function HandleLeave(h: Hall, userId: nat, order: seq<nat>): Reply {
    if h.room.None? then Reply(h, Err(ROOM_NOT_FOUND)) else Reply(LeaveRoom(h, userId, order), Ok(()))
  }

  /** A disconnect during a game keeps the membership, unless one member is left. */
  function HandleDisconnect(h: Hall, userId: nat, order: seq<nat>): Reply {
    if h.room.None? then Reply(h, Ok(()))
    else if h.room.value.status == WAITING then Reply(LeaveRoom(h, userId, order), Ok(()))
    else if |h.members| == 1 then Reply(ClearHall(h), Ok(()))
    else Reply(h, Ok(()))
  }

  /** The row is deleted whatever is going on in the room; the members' keys stay. */
  function RemoveRoom(h: Hall): Reply {
    if h.room.None? then Reply(h, Err(ROOM_NOT_FOUND)) else Reply(h.(room := None), Ok(()))
  }

  function WithStatus(h: Hall, status: RoomStatus): Hall {
    if h.room.None? then h else h.(room := Some(h.room.value.(status := status)))
  }

  function Handle(h: Hall, e: HallEvent): Reply {
    match e
    case Join(userId, passwordMatches, joinedAt) => JoinRoom(h, userId, passwordMatches, joinedAt)
    case ToggleReady(userId) => Toggle(h, userId)
    case ChangeTeam(userId, team) => Reteam(h, userId, team)
    case UpdateSettings(requesterId, settings, order) => ApplySettings(h, requesterId, settings, order)
    case Kick(requesterId, targetUserId, order) => KickPlayer(h, requesterId, targetUserId, order)
    case Leave(userId, order) => HandleLeave(h, userId, order)
    case Disconnect(userId, order) => HandleDisconnect(h, userId, order)
    case DeleteRoom => RemoveRoom(h)
    case SetStatus(status) => Reply(WithStatus(h, status), Ok(()))
  }

  // ---------- starting ----------

  predicate EveryoneReady(h: Hall) {
    (exists u | u in h.members :: h.host != Some(u)) && forall u | u in h.members && h.host != Some(u) :: h.members[u].isReady
  }

  function Difference(a: int, b: int): int {
    if a < b then b - a else a - b
  }

  function ValidateStart(h: Hall, requesterId: nat): Result<(), WaitingError> {
    if h.room.None? then Err(ROOM_NOT_FOUND)
    else
      var room := h.room.value;
      if h.host != Some(requesterId) then Err(GAME_START_NOT_HOST)
      else if room.status != WAITING then Err(GAME_ALREADY_STARTED)
      else if room.mode == SOLO && |h.members| < SOLO_MIN_PLAYERS then Err(GAME_START_NOT_ENOUGH_PLAYERS)
      else if room.mode == TEAM && !IsTeamSize(|h.members|) then Err(GAME_START_NOT_ENOUGH_PLAYERS)
      else if !EveryoneReady(h) then Err(NOT_ALL_PLAYERS_READY)
      else if room.mode == TEAM && Difference(|OnTeam(h.members, RED)|, |OnTeam(h.members, BLUE)|) > 1 then Err(TEAM_IMBALANCE)
      else Ok(())
  }

  // ---------- what every run keeps ----------

  /** A room with members is hosted by a ready one of them; one without has no host yet. */
  ghost predicate HostOk(h: Hall) {
    h.room.Some? ==>
      if h.members == map[] then h.host.None?
      else h.host.Some? && h.host.value in h.members && h.members[h.host.value].isReady
  }

  ghost predicate CapacityOk(h: Hall) {
    h.room.Some? ==> ValidatePlayerCount(h.room.value).Ok? && |h.members| <= h.room.value.maxPlayers
  }

  ghost predicate TeamsFit(members: map<nat, Player>, mode: RoomMode) {
    forall u | u in members :: members[u].team != NONE <==> mode == TEAM
  }

  ghost predicate TeamsOk(h: Hall) {
    h.room.Some? ==> TeamsFit(h.members, h.room.value.mode)
  }

  lemma {:induction false} ResetKeepsMembers(members: map<nat, Player>, players: seq<nat>, mode: RoomMode, host: Option<nat>)
    requires forall u | u in players :: u in members
    ensures
      var after := ResetTeams(members, players, mode, host);
      && after.Keys == members.Keys
      && (forall u | u in members ::
            && after[u].joinedAt == members[u].joinedAt
            && (u in players ==> (after[u].team != NONE <==> mode == TEAM) && after[u].isReady == (host == Some(u) && members[u].isReady))
            && (u !in players ==> after[u] == members[u]))
  {
    if players != [] {
      var last := |players| - 1;
      ResetKeepsMembers(members, players[..last], mode, host);
      assert players == players[..last] + [players[last]];
    }
  }

  lemma StoreLeaveOk(h: Hall, userId: nat, order: seq<nat>)
    requires HostOk(h) && CapacityOk(h) && h.room.Some?
    ensures
      var left := StoreLeave(h, userId, order);
      && left.room == h.room && CapacityOk(left)
      && left.members.Keys == h.members.Keys - {userId}
      && (left.members != map[] ==> HostOk(left))
      && (TeamsOk(h) ==> TeamsOk(left))
  {
  }

  lemma SettingsOk(h: Hall, requesterId: nat, s: Settings, order: seq<nat>)
    requires HostOk(h) && CapacityOk(h)
    ensures HostOk(ApplySettings(h, requesterId, s, order).hall)
    ensures CapacityOk(ApplySettings(h, requesterId, s, order).hall)
  {
    if h.room.Some? && Resets(h.room.value, s) {
      ResetKeepsMembers(h.members, PlayersIn(order, h.members), s.mode.value, h.host);
      assert |ResetTeams(h.members, PlayersIn(order, h.members), s.mode.value, h.host).Keys| == |h.members.Keys|;
    }
  }

  lemma LeaveOk(h: Hall, userId: nat, order: seq<nat>)
    requires HostOk(h) && CapacityOk(h)
    ensures HostOk(HandleLeave(h, userId, order).hall) && CapacityOk(HandleLeave(h, userId, order).hall)
    ensures HostOk(HandleDisconnect(h, userId, order).hall) && CapacityOk(HandleDisconnect(h, userId, order).hall)
    ensures TeamsOk(h) ==> TeamsOk(HandleLeave(h, userId, order).hall) && TeamsOk(HandleDisconnect(h, userId, order).hall)
  {
    if h.room.Some? { StoreLeaveOk(h, userId, order); }
  }

  lemma JoinOk(h: Hall, userId: nat, passwordMatches: bool, joinedAt: int)
    requires HostOk(h) && CapacityOk(h)
    ensures HostOk(JoinRoom(h, userId, passwordMatches, joinedAt).hall) && CapacityOk(JoinRoom(h, userId, passwordMatches, joinedAt).hall)
    ensures TeamsOk(h) ==> TeamsOk(JoinRoom(h, userId, passwordMatches, joinedAt).hall)
  {
  }

  lemma ToggleOk(h: Hall, userId: nat, team: Team)
    requires HostOk(h) && CapacityOk(h)
    ensures HostOk(Toggle(h, userId).hall) && CapacityOk(Toggle(h, userId).hall)
    ensures HostOk(Reteam(h, userId, team).hall) && CapacityOk(Reteam(h, userId, team).hall)
  {
  }

  lemma KickOk(h: Hall, requesterId: nat, target: nat, order: seq<nat>)
    requires HostOk(h) && CapacityOk(h)
    ensures HostOk(KickPlayer(h, requesterId, target, order).hall) && CapacityOk(KickPlayer(h, requesterId, target, order).hall)
    ensures TeamsOk(h) ==> TeamsOk(KickPlayer(h, requesterId, target, order).hall)
  {
  }

  /** Host and capacity survive every handler, rejected ones included. */
  lemma HandleKeeps(h: Hall, e: HallEvent)
    requires HostOk(h) && CapacityOk(h)
    ensures HostOk(Handle(h, e).hall) && CapacityOk(Handle(h, e).hall)
  {
    match e
    case Join(userId, passwordMatches, joinedAt) => JoinOk(h, userId, passwordMatches, joinedAt);
    case ToggleReady(userId) => ToggleOk(h, userId, NONE);
    case ChangeTeam(userId, team) => ToggleOk(h, userId, team);
    case UpdateSettings(requesterId, settings, order) => SettingsOk(h, requesterId, settings, order);
    case Kick(requesterId, targetUserId, order) => KickOk(h, requesterId, targetUserId, order);
    case Leave(userId, order) => LeaveOk(h, userId, order);
    case Disconnect(userId, order) => LeaveOk(h, userId, order);
    case DeleteRoom =>
    case SetStatus(status) =>
  }

  function RunHall(h: Hall, run: seq<HallEvent>): Hall {
    if run == [] then h else Handle(RunHall(h, run[..|run| - 1]), run[|run| - 1]).hall
  }

  /** A room as it is created: accepted by validation, with nobody in it. */
  ghost predicate Opened(h: Hall) {
    h.room.Some? && ValidatePlayerCount(h.room.value).Ok? && h.members == map[] && h.host.None?
  }

  /**
   * In every run of joins, leaves, kicks, disconnects, toggles and settings, accepted or not, a
   * room with members has a host who is one of them and ready, and never more than maxPlayers.
   */
  lemma {:induction false} HostedAndWithinCapacity(h: Hall, run: seq<HallEvent>)
    requires Opened(h)
    ensures HostOk(RunHall(h, run)) && CapacityOk(RunHall(h, run))
  {
    if run != [] {
      HostedAndWithinCapacity(h, run[..|run| - 1]);
      HandleKeeps(RunHall(h, run[..|run| - 1]), run[|run| - 1]);
    }
  }

  ghost predicate JoinedFirst(members: map<nat, Player>, userId: nat) {
    userId in members && forall u | u in members :: members[userId].joinedAt <= members[u].joinedAt
  }

  /**
   * A departing host is replaced by an earliest joiner of those left, who becomes ready; when
   * anybody else departs the host stays, and no other entry changes either way.
   */
  lemma SuccessorIsEarliest(h: Hall, userId: nat, order: seq<nat>)
    requires HostOk(h) && h.room.Some? && userId in h.members
    ensures
      var left := LeaveRoom(h, userId, order);
      && left.members.Keys == h.members.Keys - {userId}
      && (left.room.None? <==> left.members == map[])
      && (left.members != map[] ==>
            && left.host.Some?
            && (if h.host == Some(userId)
                then JoinedFirst(left.members, left.host.value) && left.members[left.host.value].isReady
                else left.host == h.host)
            && forall u | u in left.members && (h.host != Some(userId) || left.host != Some(u)) :: left.members[u] == h.members[u])
  {
  }

  // ---------- teams ----------

  /** The settings are refused by the room after the teams were already rewritten for another mode. */
  predicate RejectedAfterReset(h: Hall, e: HallEvent) {
    && e.UpdateSettings? && h.room.Some?
    && h.host == Some(e.requesterId)
    && !(e.settings.maxPlayers.Some? && e.settings.maxPlayers.value != 0 && e.settings.maxPlayers.value < |h.members|)
    && Resets(h.room.value, e.settings)
    && Validated(Merged(h.room.value, e.settings)).Err?
  }

  lemma SettingsTeams(h: Hall, e: HallEvent)
    requires HostOk(h) && TeamsOk(h) && e.UpdateSettings?
    ensures TeamsOk(Handle(h, e).hall) <==> !RejectedAfterReset(h, e)
  {
    if h.room.Some? && Resets(h.room.value, e.settings) {
      ResetKeepsMembers(h.members, PlayersIn(e.order, h.members), e.settings.mode.value, h.host);
    }
  }

  /** Everyone has a team exactly in TEAM mode, after any handler but a settings update refused after the reset. */
  lemma TeamsKeptExactly(h: Hall, e: HallEvent)
    requires HostOk(h) && CapacityOk(h) && TeamsOk(h)
    ensures TeamsOk(Handle(h, e).hall) <==> !RejectedAfterReset(h, e)
  {
    match e
    case Join(userId, passwordMatches, joinedAt) => JoinOk(h, userId, passwordMatches, joinedAt);
    case ToggleReady(userId) =>
    case ChangeTeam(userId, team) =>
    case UpdateSettings(requesterId, settings, order) => SettingsTeams(h, e);
    case Kick(requesterId, targetUserId, order) => KickOk(h, requesterId, targetUserId, order);
    case Leave(userId, order) => LeaveOk(h, userId, order);
    case Disconnect(userId, order) => LeaveOk(h, userId, order);
    case DeleteRoom =>
    case SetStatus(status) =>
  }

  ghost predicate SettingsAccepted(h: Hall, run: seq<HallEvent>) {
    forall k | 0 <= k < |run| :: !RejectedAfterReset(RunHall(h, run[..k]), run[k])
  }

  lemma {:induction false} TeamsFollowMode(h: Hall, run: seq<HallEvent>)
    requires Opened(h) && SettingsAccepted(h, run)
    ensures TeamsOk(RunHall(h, run))
  {
    if run != [] {
      var front := run[..|run| - 1];
      forall k | 0 <= k < |front| ensures !RejectedAfterReset(RunHall(h, front[..k]), front[k]) {
        assert front[..k] == run[..k] && front[k] == run[k];
      }
      TeamsFollowMode(h, front);
      HostedAndWithinCapacity(h, front);
      assert !RejectedAfterReset(RunHall(h, run[..|run| - 1]), run[|run| - 1]);
      TeamsKeptExactly(RunHall(h, front), run[|run| - 1]);
    }
  }

  /** The code tests for a difference of at most one; with everyone on a team the sides are equal. */
  lemma TeamStartIsEven(h: Hall, requesterId: nat)
    requires TeamsOk(h) && ValidateStart(h, requesterId).Ok? && h.room.value.mode == TEAM
    ensures |OnTeam(h.members, RED)| == |OnTeam(h.members, BLUE)|
    ensures |OnTeam(h.members, RED)| + |OnTeam(h.members, BLUE)| == |h.members|
  {
    var (red, blue) := (OnTeam(h.members, RED), OnTeam(h.members, BLUE));
    assert h.members.Keys == red + blue && red !! blue;
    assert |h.members.Keys| == |red| + |blue|;
  }

  /** So does every TEAM start of a run whose settings updates were accepted. */
  lemma EveryTeamStartIsEven(h: Hall, run: seq<HallEvent>, requesterId: nat)
    requires Opened(h) && SettingsAccepted(h, run)
    requires ValidateStart(RunHall(h, run), requesterId).Ok? && RunHall(h, run).room.value.mode == TEAM
    ensures
      var members := RunHall(h, run).members;
      |OnTeam(members, RED)| == |OnTeam(members, BLUE)| > 0
  {
    TeamsFollowMode(h, run);
    TeamStartIsEven(RunHall(h, run), requesterId);
  }

  /** Ask for SOLO, and for private without a password: the first resets teams, the second is refused. */
  const SOLO_IN_PRIVATE := Settings(Some(SOLO), None, Some(true), None)

  function Toggles(users: seq<nat>): seq<HallEvent> {
    if users == [] then [] else Toggles(users[..|users| - 1]) + [ToggleReady(users[|users| - 1])]
  }

  lemma {:induction false} TogglesReady(h: Hall, users: seq<nat>)
    requires h.room.Some? && Distinct(users)
    requires forall u | u in users :: u in h.members && h.host != Some(u) && !h.members[u].isReady
    ensures
      var after := RunHall(h, Toggles(users));
      && after.room == h.room && after.host == h.host && after.members.Keys == h.members.Keys
      && (forall u | u in h.members :: after.members[u].team == h.members[u].team)
      && (forall u | u in h.members :: after.members[u].isReady == (u in users || h.members[u].isReady))
  {
    if users != [] {
      var last := |users| - 1;
      assert users == users[..last] + [users[last]];
      assert users[last] !in users[..last];
      TogglesReady(h, users[..last]);
      assert Toggles(users)[..|Toggles(users)| - 1] == Toggles(users[..last]);
    }
  }

  lemma TeamlessStarts(h: Hall)
    requires HostOk(h) && h.room.Some? && h.room.value.mode == TEAM && h.room.value.status == WAITING
    requires IsTeamSize(|h.members|) && forall u | u in h.members :: h.members[u].isReady && h.members[u].team == NONE
    ensures ValidateStart(h, h.host.value).Ok?
  {
    assert OnTeam(h.members, RED) == {} && OnTeam(h.members, BLUE) == {};
    var others := h.members.Keys - {h.host.value};
    assert h.members.Keys == others + {h.host.value};
    assert |others| == |h.members.Keys| - 1;
    var u :| u in others;
  }

  lemma RefusalStripsTeams(h: Hall)
    requires HostOk(h) && h.members != map[] && h.room == Some(Room(TEAM, |h.members|, false, None, WAITING))
    ensures
      var refused := ApplySettings(h, h.host.value, SOLO_IN_PRIVATE, []);
      && refused.result.Err? && refused.hall.room == h.room && refused.hall.host == h.host
      && refused.hall.members.Keys == h.members.Keys
      && forall u | u in h.members ::
           refused.hall.members[u].team == NONE && (refused.hall.members[u].isReady <==> h.host == Some(u))
  {
    ResetKeepsMembers(h.members, PlayersIn([], h.members), SOLO, h.host);
  }

  /**
   * In any full public TEAM room the host's refused update strips every team, and once the
   * others are ready again the game starts, in TEAM mode, with nobody on a team.
   */
  lemma RefusedSettingsCanStartTeamless(h: Hall)
    requires HostOk(h) && h.room == Some(Room(TEAM, |h.members|, false, None, WAITING)) && IsTeamSize(|h.members|)
    ensures
      var refused := ApplySettings(h, h.host.value, SOLO_IN_PRIVATE, []);
      var others := Without(PlayersIn([], h.members), h.host.value);
      var ready := RunHall(refused.hall, Toggles(others));
      && refused.result.Err? && ready.room == h.room && ready.members.Keys == h.members.Keys
      && (forall u | u in ready.members :: ready.members[u].team == NONE)
      && ValidateStart(ready, h.host.value).Ok?
  {
    var others := Without(PlayersIn([], h.members), h.host.value);
    RefusalStripsTeams(h);
    var refused := ApplySettings(h, h.host.value, SOLO_IN_PRIVATE, []).hall;
    TogglesReady(refused, others);
    var ready := RunHall(refused, Toggles(others));
    assert |ready.members.Keys| == |h.members.Keys|;
    TeamlessStarts(ready);
  }
}
