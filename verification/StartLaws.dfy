/** What a validated start means: who may ask for it, in which room, and that everybody is ready. */
module StartLaws {
  import opened Collections
  import opened RoomLifecycle
  import W = WaitingRoom

  /** Membership of a mode's size: three or more alone, four or six in teams. */
  predicate SizeFits(mode: W.RoomMode, n: nat) {
    match mode
    case SOLO => n >= 3
    case TEAM => n == 4 || n == 6
  }

  ghost predicate SidesEven(members: map<nat, W.Player>) {
    var red := set u | u in members && members[u].team == W.RED;
    var blue := set u | u in members && members[u].team == W.BLUE;
    -1 <= |red| - |blue| <= 1
  }

  /** The host asks, in a waiting room of the right size, with somebody else there and nobody else unready. */
  ghost predicate MayStart(h: W.Hall, requesterId: nat) {
    && h.room.Some? && h.host == Some(requesterId) && h.room.value.status == W.WAITING
    && SizeFits(h.room.value.mode, |h.members|)
    && (exists u | u in h.members :: u != requesterId)
    && (forall u | u in h.members && u != requesterId :: h.members[u].isReady)
    && (h.room.value.mode == W.TEAM ==> SidesEven(h.members))
  }

  lemma StartsExactly(h: W.Hall, requesterId: nat)
    ensures W.ValidateStart(h, requesterId).Ok? <==> MayStart(h, requesterId)
  {
    assert W.OnTeam(h.members, W.RED) == set u | u in h.members && h.members[u].team == W.RED;
    assert W.OnTeam(h.members, W.BLUE) == set u | u in h.members && h.members[u].team == W.BLUE;
  }

  /** After any life of a waiting room: validation accepts exactly such a start, and then all members are ready, the host too. */
  lemma StartNeedsEveryoneReady(h: W.Hall, run: seq<W.HallEvent>, requesterId: nat)
    requires W.Opened(h)
    ensures
      var at := W.RunHall(h, run);
      && (W.ValidateStart(at, requesterId).Ok? <==> MayStart(at, requesterId))
      && (W.ValidateStart(at, requesterId).Ok? ==> forall u | u in at.members :: at.members[u].isReady)
  {
    StartsExactly(W.RunHall(h, run), requesterId);
    W.HostedAndWithinCapacity(h, run);
  }

  /** Every match a room ever starts begins at its host's request with all members ready, and not otherwise. */
  lemma EveryMatchStartsReady(l: Lobby, run: seq<LobbyEvent>, e: LobbyEvent)
    requires Created(l) && AllUserIdsOk(run) && e.StartGame?
    ensures
      var at := RunLobby(l, run);
      && (Starts(at, e) <==> MayStart(at.hall, e.requesterId))
      && (Starts(at, e) ==>
            && e.requesterId in at.hall.members
            && (forall u | u in at.hall.members :: at.hall.members[u].isReady)
            && 3 <= |at.hall.members| <= 6)
      && (!Starts(at, e) ==> RunLobby(l, run + [e]) == at)
  {
    var at := RunLobby(l, run);
    LifeOk(l, run);
    StartsExactly(at.hall, e.requesterId);
    StartMapIsInjective(at, e);
    assert (run + [e])[..|run|] == run;
  }
}
