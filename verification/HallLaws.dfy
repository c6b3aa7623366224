/** What every waiting-room action does: exactly when it is accepted, and who and what is there afterwards. */
module HallLaws {
  import opened Collections
  import opened WaitingRoom

  // ---------- when an action is accepted ----------

  ghost function Side(members: map<nat, Player>, team: Team): set<nat> {
    set u | u in members && members[u].team == team
  }

  ghost predicate MayEnter(h: Hall, userId: nat, passwordMatches: bool)
    requires h.room.Some?
  {
    var room := h.room.value;
    || userId in h.members
    || (room.status == WAITING && |h.members| < room.maxPlayers
        && (room.isPrivate && room.hashedPassword.Some? && room.hashedPassword.value != "" ==> passwordMatches))
  }

  /** At most half of the room, rounded up, on one side. */
  ghost predicate MaySwitch(h: Hall, userId: nat, team: Team)
    requires h.room.Some?
  {
    && h.room.value.mode == TEAM && team != NONE && userId in h.members
    && 2 * |set u | u in h.members && u != userId && h.members[u].team == team| < h.room.value.maxPlayers
  }

  /** Three to six alone, four or six in teams, and a password for a private room. */
  predicate RoomFits(r: Room) {
    && (match r.mode case SOLO => 3 <= r.maxPlayers <= 6 case TEAM => r.maxPlayers == 4 || r.maxPlayers == 6)
    && (r.isPrivate ==> r.hashedPassword.Some? && r.hashedPassword.value != "")
  }

  /** Each field sent replaces the room's, except an empty password. */
  function Asked(r: Room, s: Settings): Room {
    var mode := match s.mode case Some(m) => m case None => r.mode;
    var maxPlayers := match s.maxPlayers case Some(n) => n case None => r.maxPlayers;
    var isPrivate := match s.isPrivate case Some(b) => b case None => r.isPrivate;
    var password := match s.password case Some(p) => if p == "" then r.hashedPassword else Some(p) case None => r.hashedPassword;
    Room(mode, maxPlayers, isPrivate, password, r.status)
  }

  predicate LeavesRoomFor(s: Settings, n: nat) {
    match s.maxPlayers case None => true case Some(m) => m == 0 || m >= n
  }

  ghost predicate Accepted(h: Hall, e: HallEvent) {
    match e
    case Join(u, passwordMatches, _) => h.room.Some? && MayEnter(h, u, passwordMatches)
    case ToggleReady(u) => h.room.Some? && u in h.members && h.host != Some(u)
    case ChangeTeam(u, team) => h.room.Some? && MaySwitch(h, u, team)
    case UpdateSettings(u, s, _) =>
      h.room.Some? && h.host == Some(u) && LeavesRoomFor(s, |h.members|) && RoomFits(Asked(h.room.value, s))
    case Kick(u, target, _) => h.room.Some? && h.host == Some(u) && u != target && target in h.members
    case Leave(_, _) => h.room.Some?
    case DeleteRoom => h.room.Some?
    case _ => true
  }

  // ---------- what it leaves ----------

  ghost predicate SameExcept(h: Hall, n: Hall, userId: nat) {
    forall u | u != userId :: (u in n.members <==> u in h.members) && (u in h.members ==> n.members[u] == h.members[u])
  }

  /** Everyone in the room as before but one member, now as given. */
  ghost predicate Becomes(h: Hall, n: Hall, userId: nat, p: Player) {
    n.room == h.room && SameExcept(h, n, userId) && userId in n.members && n.members[userId] == p
  }

  /** One member fewer; the last takes the room along, a host is followed by an earliest joiner, now ready. */
  ghost predicate Departs(h: Hall, n: Hall, userId: nat) {
    && n.members.Keys == h.members.Keys - {userId}
    && (n.members == map[] ==> n.room.None? && n.host == h.host)
    && (n.members != map[] ==>
          && n.room == h.room
          && (h.host != Some(userId) ==> n.host == h.host && SameExcept(h, n, userId))
          && (h.host == Some(userId) ==>
                && n.host.Some? && JoinedFirst(n.members, n.host.value)
                && n.members[n.host.value] == h.members[n.host.value].(isReady := true)
                && forall u | u in n.members && u != n.host.value :: n.members[u] == h.members[u]))
  }

  /** The newcomer goes to the smaller side, the red one when equal, and hosts a room nobody hosts. */
  ghost predicate Enters(h: Hall, n: Hall, userId: nat, joinedAt: int)
    requires h.room.Some?
  {
    var team := if h.room.value.mode == SOLO then NONE else if |Side(h.members, RED)| <= |Side(h.members, BLUE)| then RED else BLUE;
    && Becomes(h, n, userId, Player(team, h.host.None?, joinedAt))
    && n.host == if h.host.None? then Some(userId) else h.host
  }

  /** Everybody in a team exactly in TEAM mode, the sides as even as can be, nobody ready but the host. */
  ghost predicate Reteamed(h: Hall, n: Hall, mode: RoomMode) {
    && n.members.Keys == h.members.Keys && n.host == h.host
    && (forall u | u in h.members ::
          && n.members[u].joinedAt == h.members[u].joinedAt
          && n.members[u].isReady == (h.host == Some(u) && h.members[u].isReady)
          && (n.members[u].team == NONE <==> mode == SOLO))
    && (mode == TEAM ==> |Side(n.members, RED)| - |Side(n.members, BLUE)| == |h.members| % 2)
  }

  predicate ChangesMode(r: Room, s: Settings) {
    match s.mode case None => false case Some(mode) => mode != r.mode
  }

  ghost predicate Resettled(h: Hall, n: Hall, s: Settings)
    requires h.room.Some?
  {
    if ChangesMode(h.room.value, s) then Reteamed(h, n, Asked(h.room.value, s).mode) else n.members == h.members && n.host == h.host
  }

  ghost predicate LeavesBehind(h: Hall, n: Hall, e: HallEvent)
    requires Accepted(h, e)
  {
    match e
    case Join(u, _, joinedAt) => if u in h.members then n == h else Enters(h, n, u, joinedAt)
    case ToggleReady(u) => Becomes(h, n, u, h.members[u].(isReady := !h.members[u].isReady)) && n.host == h.host
    case ChangeTeam(u, team) => Becomes(h, n, u, h.members[u].(team := team)) && n.host == h.host
    case UpdateSettings(_, s, _) =>
      var asked := Asked(h.room.value, s);
      n.room == Some(if asked.isPrivate then asked else asked.(hashedPassword := None)) && Resettled(h, n, s)
    case Kick(_, target, _) => n.room == h.room && n.host == h.host && target !in n.members && SameExcept(h, n, target)
    case Leave(u, _) => Departs(h, n, u)
    case Disconnect(u, _) =>
      if h.room.None? then n == h
      else if h.room.value.status == WAITING then Departs(h, n, u)
      else if |h.members| == 1 then n == Hall(h.room, map[], None)
      else n == h
    case DeleteRoom => n == Hall(None, h.members, h.host)
    case SetStatus(status) => n.members == h.members && n.host == h.host && (n.room.Some? <==> h.room.Some?)
                              && (h.room.Some? ==> n.room.value == h.room.value.(status := status))
  }

  /** A refused action changes nothing, but for settings that reset the teams before the room refused them. */
  ghost predicate Refuses(h: Hall, n: Hall, e: HallEvent) {
    if e.UpdateSettings? && h.room.Some? && h.host == Some(e.requesterId) && LeavesRoomFor(e.settings, |h.members|)
    then n.room == h.room && Resettled(h, n, e.settings)
    else n == h
  }

  // ---------- the proofs ----------

  lemma ValidatedMeans(r: Room)
    ensures Validated(r).Ok? <==> RoomFits(r)
    ensures Validated(r).Ok? ==> Validated(r).value == if r.isPrivate then r else r.(hashedPassword := None)
  {
  }

  lemma MergedMeans(r: Room, s: Settings)
    ensures Merged(r, s) == Asked(r, s) && (Resets(r, s) <==> ChangesMode(r, s))
  {
  }

  ghost function Among(players: seq<nat>, members: map<nat, Player>, team: Team): set<nat> {
    set u | u in players && u in members && members[u].team == team
  }

  lemma OneMoreOnSide(before: map<nat, Player>, after: map<nat, Player>, front: seq<nat>, last: nat, team: Team)
    requires last !in front && last in after && after.Keys == before.Keys
    requires forall u | u in front && u in before :: after[u] == before[u]
    ensures |Among(front + [last], after, team)| == |Among(front, before, team)| + if after[last].team == team then 1 else 0
  {
    assert Among(front + [last], after, team) == Among(front, before, team) + if after[last].team == team then {last} else {};
  }

  lemma FrontListed(players: seq<nat>, members: map<nat, Player>)
    requires players != [] && Distinct(players) && forall u | u in players :: u in members
    ensures
      var (front, last) := (players[..|players| - 1], players[|players| - 1]);
      && players == front + [last] && Distinct(front) && last !in front && last in members
      && forall u | u in front :: u in players && u in members
  {
    var front := players[..|players| - 1];
    forall i, j | 0 <= i < j < |front| ensures front[i] != front[j] {
      assert front[i] == players[i] && front[j] == players[j];
    }
  }

  lemma ResetLast(members: map<nat, Player>, players: seq<nat>, host: Option<nat>)
    requires players != [] && Distinct(players) && forall u | u in players :: u in members
    ensures
      var (front, last) := (players[..|players| - 1], players[|players| - 1]);
      var (before, after) := (ResetTeams(members, front, TEAM, host), ResetTeams(members, players, TEAM, host));
      && last in after && after.Keys == before.Keys == members.Keys
      && after[last].team == (if |front| % 2 == 0 then RED else BLUE)
      && forall u | u in front && u in before :: after[u] == before[u]
  {
    FrontListed(players, members);
    ResetKeepsMembers(members, players, TEAM, host);
    ResetKeepsMembers(members, players[..|players| - 1], TEAM, host);
  }

  /** Positions alternate, so the sides of a reset differ by the odd one out. */
  lemma {:induction false} ResetCounts(members: map<nat, Player>, players: seq<nat>, host: Option<nat>)
    requires Distinct(players) && forall u | u in players :: u in members
    ensures |Among(players, ResetTeams(members, players, TEAM, host), RED)| == (|players| + 1) / 2
    ensures |Among(players, ResetTeams(members, players, TEAM, host), BLUE)| == |players| / 2
  {
    if players == [] {
      assert Among([], members, RED) == {} && Among([], members, BLUE) == {};
    } else {
      var (front, last) := (players[..|players| - 1], players[|players| - 1]);
      FrontListed(players, members);
      ResetLast(members, players, host);
      ResetCounts(members, front, host);
      OneMoreOnSide(ResetTeams(members, front, TEAM, host), ResetTeams(members, players, TEAM, host), front, last, RED);
      OneMoreOnSide(ResetTeams(members, front, TEAM, host), ResetTeams(members, players, TEAM, host), front, last, BLUE);
    }
  }

  lemma ResetSides(members: map<nat, Player>, players: seq<nat>, host: Option<nat>)
    requires Lists(players, members)
    ensures
      var after := ResetTeams(members, players, TEAM, host);
      |Side(after, RED)| - |Side(after, BLUE)| == |members| % 2
  {
    var after := ResetTeams(members, players, TEAM, host);
    ResetKeepsMembers(members, players, TEAM, host);
    ResetCounts(members, players, host);
    DistinctCardinality(players, members.Keys);
    assert |members.Keys| == |members|;
    assert Side(after, RED) == Among(players, after, RED);
    assert Side(after, BLUE) == Among(players, after, BLUE);
  }

  lemma ResetMeans(h: Hall, order: seq<nat>, mode: RoomMode)
    ensures Reteamed(h, h.(members := ResetTeams(h.members, PlayersIn(order, h.members), mode, h.host)), mode)
  {
    var players := PlayersIn(order, h.members);
    ResetKeepsMembers(h.members, players, mode, h.host);
    if mode == TEAM { ResetSides(h.members, players, h.host); }
  }

  lemma SettingsAsStated(h: Hall, requesterId: nat, s: Settings, order: seq<nat>)
    ensures
      var (e, r) := (UpdateSettings(requesterId, s, order), ApplySettings(h, requesterId, s, order));
      && (r.result.Ok? <==> Accepted(h, e))
      && (if Accepted(h, e) then LeavesBehind(h, r.hall, e) else Refuses(h, r.hall, e))
  {
    if h.room.Some? {
      MergedMeans(h.room.value, s);
      ValidatedMeans(Asked(h.room.value, s));
      if Resets(h.room.value, s) { ResetMeans(h, order, s.mode.value); }
    }
  }

  lemma SwitchCount(h: Hall, userId: nat, team: Team)
    ensures OnTeam(h.members, team) - {userId} == set u | u in h.members && u != userId && h.members[u].team == team
  {
  }

  lemma EntryAsStated(h: Hall, e: HallEvent)
    requires e.Join? || e.ToggleReady? || e.ChangeTeam?
    ensures Handle(h, e).result.Ok? <==> Accepted(h, e)
    ensures if Accepted(h, e) then LeavesBehind(h, Handle(h, e).hall, e) else Refuses(h, Handle(h, e).hall, e)
  {
    assert OnTeam(h.members, RED) == Side(h.members, RED) && OnTeam(h.members, BLUE) == Side(h.members, BLUE);
    if e.ChangeTeam? { SwitchCount(h, e.userId, e.team); }
  }

  lemma DepartureAsStated(h: Hall, userId: nat, order: seq<nat>)
    requires HostOk(h) && h.room.Some?
    ensures Departs(h, LeaveRoom(h, userId, order), userId)
  {
    if userId in h.members {
      SuccessorIsEarliest(h, userId, order);
    } else {
      assert h.members - {userId} == h.members;
    }
  }

  lemma ExitAsStated(h: Hall, e: HallEvent)
    requires HostOk(h) && (e.Kick? || e.Leave? || e.Disconnect? || e.DeleteRoom? || e.SetStatus?)
    ensures Handle(h, e).result.Ok? <==> Accepted(h, e)
    ensures if Accepted(h, e) then LeavesBehind(h, Handle(h, e).hall, e) else Refuses(h, Handle(h, e).hall, e)
  {
    if h.room.Some? && e.Leave? { DepartureAsStated(h, e.userId, e.order); }
    if h.room.Some? && e.Disconnect? { DepartureAsStated(h, e.userId, e.order); }
  }

  /** After any life of a waiting room, the next action is accepted exactly when stated, and leaves what is stated. */
  lemma ActionsAsStated(h: Hall, run: seq<HallEvent>, e: HallEvent)
    requires Opened(h)
    ensures
      var at := RunHall(h, run);
      var n := RunHall(h, run + [e]);
      && (Handle(at, e).result.Ok? <==> Accepted(at, e))
      && (if Accepted(at, e) then LeavesBehind(at, n, e) else Refuses(at, n, e))
  {
    HostedAndWithinCapacity(h, run);
    assert (run + [e])[..|run|] == run;
    var at := RunHall(h, run);
    match e
    case UpdateSettings(requesterId, s, order) => SettingsAsStated(at, requesterId, s, order);
    case Join(_, _, _) => EntryAsStated(at, e);
    case ToggleReady(_) => EntryAsStated(at, e);
    case ChangeTeam(_, _) => EntryAsStated(at, e);
    case _ => ExitAsStated(at, e);
  }
}
