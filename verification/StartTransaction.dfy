/** The transaction that starts a game: the room row is compared and set, rows upserted one by one, the map built. */
module StartTransaction {
  import opened Collections
  import opened RoomLifecycle
  import W = WaitingRoom

  datatype StartError = NO_PLAYERS | ROOM_NOT_FOUND | ROOM_ALREADY_STARTED | MEMBER_MAPPING_MISSING

  datatype SavedMember = SavedMember(id: nat, userId: nat)

  datatype GameSessionResult = GameSessionResult(matchId: nat, memberOf: map<nat, nat>)

  class WaitingRepository {
    var status: Option<W.RoomStatus>
    var memberRows: map<nat, nat>
    var lastMember: nat
    var nextMatch: nat

    method MarkRoomInProgress() returns (r: Result<(), StartError>)
      modifies this`status
      ensures r == if old(status).None? then Err(ROOM_NOT_FOUND)
                   else if old(status).value != W.WAITING then Err(ROOM_ALREADY_STARTED) else Ok(())
      ensures status == if r.Ok? then Some(W.IN_PROGRESS) else old(status)
    {
      if status != Some(W.WAITING) {
        if status.None? { return Err(ROOM_NOT_FOUND); }
        return Err(ROOM_ALREADY_STARTED);
      }
      status := Some(W.IN_PROGRESS);
      return Ok(());
    }

    method SyncRoomMembers(players: seq<nat>, first: nat) returns (saved: seq<SavedMember>)
      modifies this`memberRows
      ensures memberRows == UpsertMembers(old(memberRows), players, first)
      ensures |saved| == |players|
      ensures forall j | 0 <= j < |players| :: players[j] in memberRows && saved[j] == SavedMember(memberRows[players[j]], players[j])
    {
      saved := [];
      for i := 0 to |players|
        invariant memberRows == UpsertMembers(old(memberRows), players[..i], first)
        invariant |saved| == i
        invariant forall j | 0 <= j < i :: players[j] in memberRows && saved[j] == SavedMember(memberRows[players[j]], players[j])
      {
        assert players[..i + 1][..i] == players[..i];
        if players[i] !in memberRows { memberRows := memberRows[players[i] := first + i + 1]; }
        saved := saved + [SavedMember(memberRows[players[i]], players[i])];
      }
      assert players[..|players|] == players;
    }

    method BuildMemberMap(saved: seq<SavedMember>, players: seq<nat>) returns (r: Result<map<nat, nat>, StartError>)
      requires |saved| == |players|
      requires forall j | 0 <= j < |players| :: players[j] in memberRows && saved[j] == SavedMember(memberRows[players[j]], players[j])
      ensures r == if Mapped(MemberMap(memberRows, players), players) then Ok(MemberMap(memberRows, players))
                   else Err(MEMBER_MAPPING_MISSING)
    {
      var memberOf: map<nat, nat> := map[];
      for i := 0 to |saved|
        invariant forall u :: u in memberOf <==> u in players[..i]
        invariant forall u | u in memberOf :: u in memberRows && memberOf[u] == memberRows[u]
      {
        assert players[..i + 1] == players[..i] + [players[i]];
        memberOf := memberOf[saved[i].userId := saved[i].id];
      }
      assert players[..|players|] == players;
      assert memberOf == MemberMap(memberRows, players);
      for i := 0 to |players|
        invariant forall j | 0 <= j < i :: players[j] in memberOf && memberOf[players[j]] != 0
      {
        if players[i] !in memberOf || memberOf[players[i]] == 0 {
          assert players[i] in players;
          return Err(MEMBER_MAPPING_MISSING);
        }
      }
      return Ok(memberOf);
    }

    /** Refused, nothing is written; done, the room is IN_PROGRESS and everyone listed has a row. */
    method StartGameTx(players: seq<nat>, memberId: nat, matchId: nat) returns (r: Result<GameSessionResult, StartError>)
      modifies this
      ensures
        var first := Issue(memberId, old(lastMember));
        var rows := UpsertMembers(old(memberRows), players, first);
        && (r.Ok? <==> players != [] && old(status) == Some(W.WAITING) && Mapped(MemberMap(rows, players), players))
        && (r.Ok? ==>
              && r.value == GameSessionResult(Issue(matchId, old(nextMatch)), MemberMap(rows, players))
              && status == Some(W.IN_PROGRESS) && memberRows == rows
              && lastMember == first + |players| + 1 && nextMatch == r.value.matchId + 1)
        && (r.Err? ==>
              && status == old(status) && memberRows == old(memberRows)
              && lastMember == old(lastMember) && nextMatch == old(nextMatch))
    {
      if players == [] { return Err(NO_PLAYERS); }
      var marked := MarkRoomInProgress();
      if marked.Err? { return Err(marked.error); }
      var before := memberRows;
      var first := Issue(memberId, lastMember);
      var saved := SyncRoomMembers(players, first);
      var memberOf := BuildMemberMap(saved, players);
      if memberOf.Err? {
        status, memberRows := Some(W.WAITING), before;
        return Err(memberOf.error);
      }
      var id := Issue(matchId, nextMatch);
      lastMember, nextMatch := first + |players| + 1, id + 1;
      return Ok(GameSessionResult(id, memberOf.value));
    }
  }

  /** In a lobby whose rows are in order a validated start is never refused by its transaction. */
  lemma ValidatedStartsSucceed(l: Lobby, e: LobbyEvent)
    requires LobbyOk(l) && e.StartGame? && W.ValidateStart(l.hall, e.requesterId).Ok?
    ensures
      var players := W.PlayersIn(e.order, l.hall.members);
      && Starts(l, e) && players != [] && l.hall.room.value.status == W.WAITING
      && (forall u | u in players :: l.hall.members[u].isReady)
      && StartMatch(l, e).hall.room.value.status == W.IN_PROGRESS
      && StartMatch(l, e).memberRows == UpsertMembers(l.memberRows, players, Issue(e.memberId, l.nextMember))
      && StartMatch(l, e).world.game.Some? && StartMatch(l, e).world.game.value.memberOf == StartMap(l, e)
  {
    StartMapIsInjective(l, e);
    var u :| u in l.hall.members && l.hall.host != Some(u);
    assert u in W.PlayersIn(e.order, l.hall.members);
  }
}
