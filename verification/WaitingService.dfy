/** The waiting service as it runs: Redis keys and the room row changed in place, in the order the code changes them. */
module WaitingService {
  import opened Collections
  import opened WaitingRoom

  /** A room loaded for an update; a refused update leaves its fields assigned, but nobody stores it. */
  class RoomEntity {
    var props: Room

    constructor Load(props: Room)
      ensures this.props == props
    {
      this.props := props;
    }

    method Update(s: Settings) returns (r: Result<(), WaitingError>)
      modifies this
      ensures
        var validated := Validated(Merged(old(props), s));
        if validated.Ok? then r == Ok(()) && props == validated.value
        else r == Err(validated.error) && props == Merged(old(props), s)
    {
      if s.mode.Some? { props := props.(mode := s.mode.value); }
      if s.maxPlayers.Some? { props := props.(maxPlayers := s.maxPlayers.value); }
      if s.isPrivate.Some? { props := props.(isPrivate := s.isPrivate.value); }
      if s.password.Some? && s.password.value != "" { props := props.(hashedPassword := s.password); }
      r := Validate();
    }

    method Validate() returns (r: Result<(), WaitingError>)
      modifies this
      ensures
        var validated := Validated(old(props));
        if validated.Ok? then r == Ok(()) && props == validated.value else r == Err(validated.error) && props == old(props)
    {
      if props.mode == SOLO && (props.maxPlayers < SOLO_MIN_PLAYERS || props.maxPlayers > SOLO_MAX_PLAYERS) {
        return Err(SOLO_MODE_PLAYERS);
      }
      if props.mode == TEAM && !IsTeamSize(props.maxPlayers) { return Err(TEAM_MODE_PLAYERS); }
      if props.isPrivate {
        if Or(props.hashedPassword, "") == "" { return Err(PRIVATE_ROOM_NEEDS_PASSWORD); }
      } else {
        props := props.(hashedPassword := None);
      }
      return Ok(());
    }
  }

  class WaitingStore {
    var memberIds: set<nat>
    var players: map<nat, Player>
    var host: Option<nat>

    ghost predicate Valid()
      reads this
    {
      memberIds == players.Keys
    }

    constructor ()
      ensures Valid() && players == map[] && host.None?
    {
      memberIds, players, host := {}, map[], None;
    }

    method JoinRoom(userId: nat, player: Player)
      requires Valid()
      modifies this`memberIds, this`players
      ensures Valid() && players == old(players)[userId := player]
    {
      memberIds := memberIds + {userId};
      players := players[userId := player];
    }

    method TryAssignHost(userId: nat) returns (taken: bool)
      modifies this`host
      ensures taken <==> old(host).None?
      ensures host == if taken then Some(userId) else old(host)
    {
      taken := host.None?;
      if taken { host := Some(userId); }
    }

    method SetReady(userId: nat, isReady: bool)
      requires Valid() && userId in players
      modifies this`players
      ensures Valid() && players == old(players)[userId := old(players)[userId].(isReady := isReady)]
    {
      players := players[userId := players[userId].(isReady := isReady)];
    }

    method SetTeam(userId: nat, team: Team)
      requires Valid() && userId in players
      modifies this`players
      ensures Valid() && players == old(players)[userId := old(players)[userId].(team := team)]
    {
      players := players[userId := players[userId].(team := team)];
    }

    method GetPlayers(order: seq<nat>) returns (list: seq<nat>)
      ensures list == PlayersIn(order, players)
    {
      list := PlayersIn(order, players);
    }

    method ClearRoom()
      requires Valid()
      modifies this
      ensures Valid()
      ensures players == map[] && host == (if old(players) == map[] then old(host) else None)
    {
      if memberIds == {} { return; }
      var left := memberIds;
      while left != {}
        invariant left <= memberIds && players == map u | u in old(players) && u in left :: old(players)[u]
        decreases left
      {
        var userId :| userId in left;
        players := players - {userId};
        left := left - {userId};
      }
      memberIds, host := {}, None;
    }

    method AutoTransferHost(order: seq<nat>)
      requires Valid()
      modifies this
      ensures Valid()
      ensures forall room :: Hall(room, players, host) == TransferHost(Hall(room, old(players), old(host)), order)
    {
      var list := GetPlayers(order);
      if list == [] {
        assert forall u | u in players :: u in list;
        ClearRoom();
        return;
      }
      assert list[0] in players;
      var next := Earliest(list, players);
      host := Some(next);
      SetReady(next, true);
    }

    method LeaveRoom(userId: nat, order: seq<nat>)
      requires Valid()
      modifies this
      ensures Valid()
      ensures forall room :: Hall(room, players, host) == StoreLeave(Hall(room, old(players), old(host)), userId, order)
    {
      var isHost := host == Some(userId);
      memberIds := memberIds - {userId};
      players := players - {userId};
      if isHost { AutoTransferHost(order); }
    }
  }

  class WaitingService {
    const store: WaitingStore
    var room: Option<Room>

    ghost predicate Valid()
      reads store
    {
      store.Valid()
    }

    function Contents(): Hall
      reads this, store
    {
      Hall(room, store.players, store.host)
    }

    constructor (store: WaitingStore, room: Room)
      requires store.Valid()
      ensures Valid() && this.store == store && this.room == Some(room)
    {
      this.store := store;
      this.room := Some(room);
    }

    method JoinRoom(userId: nat, passwordMatches: bool, joinedAt: int) returns (r: Result<(), WaitingError>)
      requires Valid()
      modifies store
      ensures Valid() && Reply(Contents(), r) == WaitingRoom.JoinRoom(old(Contents()), userId, passwordMatches, joinedAt)
    {
      if room.None? { return Err(ROOM_NOT_FOUND); }
      if userId !in store.players {
        if room.value.status != WAITING { return Err(GAME_ALREADY_STARTED); }
        if |store.players| >= room.value.maxPlayers { return Err(ROOM_FULL); }
      }
      if userId in store.players { return Ok(()); }
      if room.value.isPrivate && Or(room.value.hashedPassword, "") != "" {
        if !passwordMatches { return Err(ROOM_INVALID_PASSWORD); }
      }
      var player := Player(InitialTeam(Contents(), room.value), false, joinedAt);
      store.JoinRoom(userId, player);
      var isHost := store.TryAssignHost(userId);
      if isHost { store.SetReady(userId, true); }
      return Ok(());
    }

    method ToggleReady(userId: nat) returns (r: Result<(), WaitingError>)
      requires Valid()
      modifies store
      ensures Valid() && Reply(Contents(), r) == Toggle(old(Contents()), userId)
    {
      if room.None? { return Err(ROOM_NOT_FOUND); }
      if store.host == Some(userId) { return Err(HOST_CANNOT_TOGGLE_READY); }
      if userId !in store.players { return Err(PLAYER_NOT_FOUND); }
      store.SetReady(userId, !store.players[userId].isReady);
      return Ok(());
    }

    method ChangeTeam(userId: nat, team: Team) returns (r: Result<(), WaitingError>)
      requires Valid()
      modifies store
      ensures Valid() && Reply(Contents(), r) == Reteam(old(Contents()), userId, team)
    {
      if room.None? { return Err(ROOM_NOT_FOUND); }
      if room.value.mode == SOLO { return Err(SOLO_MODE_NO_TEAMS); }
      if team == NONE { return Err(INVALID_TEAM); }
      if userId !in store.players { return Err(PLAYER_NOT_FOUND); }
      var targetTeamCount := |OnTeam(store.players, team) - {userId}|;
      if targetTeamCount >= MaxPerTeam(room.value) { return Err(TEAM_FULL); }
      store.SetTeam(userId, team);
      return Ok(());
    }

    method ResetPlayer(userId: nat, team: Team)
      requires Valid() && userId in store.players
      modifies store
      ensures
        var p := old(store.players)[userId];
        && Valid() && store.host == old(store.host)
        && store.players == old(store.players)[userId := Player(team, store.host == Some(userId) && p.isReady, p.joinedAt)]
    {
      store.SetTeam(userId, team);
      if store.host != Some(userId) { store.SetReady(userId, false); }
    }

    /** Player by player in listing order, as the updates are issued. */
    method ResetTeamsForMode(mode: RoomMode, order: seq<nat>)
      requires Valid()
      modifies store
      ensures Valid() && store.host == old(store.host)
      ensures store.players == ResetTeams(old(store.players), PlayersIn(order, old(store.players)), mode, store.host)
    {
      var list := store.GetPlayers(order);
      for i := 0 to |list|
        invariant Valid() && store.host == old(store.host)
        invariant store.players == ResetTeams(old(store.players), list[..i], mode, store.host)
      {
        ResetNext(old(store.players), list, i, mode, store.host);
        var newTeam := if mode == SOLO then NONE else if i % 2 == 0 then RED else BLUE;
        ResetPlayer(list[i], newTeam);
      }
      assert list[..|list|] == list;
    }

    method UpdateSettings(requesterId: nat, s: Settings, order: seq<nat>) returns (r: Result<(), WaitingError>)
      requires Valid()
      modifies this, store
      ensures Valid() && Reply(Contents(), r) == ApplySettings(old(Contents()), requesterId, s, order)
    {
      if room.None? { return Err(ROOM_NOT_FOUND); }
      if store.host != Some(requesterId) { return Err(PERMISSION_DENIED); }
      if s.maxPlayers.Some? && s.maxPlayers.value != 0 {
        if s.maxPlayers.value < |store.players| { return Err(MAX_PLAYERS_LESS_THAN_CURRENT); }
      }
      if Resets(room.value, s) { ResetTeamsForMode(s.mode.value, order); }
      r := UpdateRoomWhileWaiting(s);
    }

    method UpdateRoomWhileWaiting(s: Settings) returns (r: Result<(), WaitingError>)
      modifies this
      ensures old(room).None? ==> r == Err(ROOM_NOT_FOUND) && room == old(room)
      ensures old(room).Some? ==>
                var updated := Validated(Merged(old(room).value, s));
                if updated.Ok? then r == Ok(()) && room == Some(updated.value) else r == Err(updated.error) && room == old(room)
    {
      if room.None? { return Err(ROOM_NOT_FOUND); }
      var entity := new RoomEntity.Load(room.value);
      r := entity.Update(s);
      if r.Err? { return; }
      room := Some(entity.props);
    }

    method KickPlayer(requesterId: nat, targetUserId: nat, order: seq<nat>) returns (r: Result<(), WaitingError>)
      requires Valid()
      modifies store
      ensures Valid() && Reply(Contents(), r) == WaitingRoom.KickPlayer(old(Contents()), requesterId, targetUserId, order)
    {
      if room.None? { return Err(ROOM_NOT_FOUND); }
      if store.host != Some(requesterId) { return Err(PERMISSION_DENIED); }
      if requesterId == targetUserId { return Err(CANNOT_KICK_SELF); }
      if targetUserId !in store.players { return Err(PLAYER_NOT_FOUND); }
      store.LeaveRoom(targetUserId, order);
      return Ok(());
    }

    method LeaveRoom(userId: nat, order: seq<nat>)
      requires Valid()
      modifies this, store
      ensures Valid() && Contents() == WaitingRoom.LeaveRoom(old(Contents()), userId, order)
    {
      store.LeaveRoom(userId, order);
      if store.players == map[] {
        store.ClearRoom();
        room := None;
      }
    }

    method RemoveRoom() returns (r: Result<(), WaitingError>)
      modifies this
      ensures Reply(Contents(), r) == WaitingRoom.RemoveRoom(old(Contents()))
    {
      if room.None? { return Err(ROOM_NOT_FOUND); }
      room := None;
      return Ok(());
    }

    method HandleLeave(userId: nat, order: seq<nat>) returns (r: Result<(), WaitingError>)
      requires Valid()
      modifies this, store
      ensures Valid() && Reply(Contents(), r) == WaitingRoom.HandleLeave(old(Contents()), userId, order)
    {
      if room.None? { return Err(ROOM_NOT_FOUND); }
      LeaveRoom(userId, order);
      return Ok(());
    }

    method HandleDisconnect(userId: nat, order: seq<nat>) returns (r: Result<(), WaitingError>)
      requires Valid()
      modifies this, store
      ensures Valid() && Reply(Contents(), r) == WaitingRoom.HandleDisconnect(old(Contents()), userId, order)
    {
      if room.None? { return Ok(()); }
      var isGameInProgress := room.value.status != WAITING;
      var wasLastPlayer := |store.players| == 1;
      if !isGameInProgress {
        LeaveRoom(userId, order);
      } else if wasLastPlayer {
        store.ClearRoom();
      }
      return Ok(());
    }
  }

  lemma ResetNext(members: map<nat, Player>, list: seq<nat>, i: nat, mode: RoomMode, host: Option<nat>)
    requires Distinct(list) && i < |list| && forall u | u in list :: u in members
    ensures
      var before := ResetTeams(members, list[..i], mode, host);
      && list[i] in before && before[list[i]] == members[list[i]]
      && ResetTeams(members, list[..i + 1], mode, host) ==
         before[list[i] := Player(ResetTeam(mode, i), host == Some(list[i]) && before[list[i]].isReady, before[list[i]].joinedAt)]
  {
    assert list[..i + 1][..i] == list[..i];
    ResetKeepsMembers(members, list[..i], mode, host);
    assert list[i] !in list[..i];
  }
}
