/** The friend and block services over their two tables, and the mapper's loops that build the lists. */
module FriendService {
  import opened Collections
  import opened Friends
  import opened FriendLists

  class FriendRepository {
    var friends: map<Pair, FriendStatus>

    method FindFriendship(userId: nat, targetUserId: nat) returns (row: Option<Pair>)
      ensures row == Find(friends, userId, targetUserId)
    {
      row := Find(friends, userId, targetUserId);
    }

    method CreateFriendship(userId: nat, targetUserId: nat)
      modifies this
      ensures friends == old(friends)[Pair(userId, targetUserId) := PENDING]
    {
      friends := friends[Pair(userId, targetUserId) := PENDING];
    }

    method UpdateFriendshipStatus(row: Pair, status: FriendStatus)
      modifies this
      ensures friends == old(friends)[row := status]
    {
      friends := friends[row := status];
    }

    method DeleteFriendship(row: Pair)
      modifies this
      ensures friends == old(friends) - {row}
    {
      friends := friends - {row};
    }

    method DeleteFriendshipIfExists(userId: nat, targetUserId: nat)
      modifies this
      ensures friends == old(friends) - {Pair(userId, targetUserId), Pair(targetUserId, userId)}
    {
      friends := friends - {Pair(userId, targetUserId), Pair(targetUserId, userId)};
    }

    /** A user's rows, in whatever order the database returns them. */
    method FindFriendships(userId: nat) returns (rows: seq<Pair>)
      ensures Distinct(rows) && forall p :: p in rows <==> p in friends && Touches(p, userId)
    {
      rows := [];
      var left := set p | p in friends && Touches(p, userId);
      while left != {}
        invariant Distinct(rows) && forall p | p in left :: p in friends && Touches(p, userId) && p !in rows
        invariant forall p :: p in friends && Touches(p, userId) <==> p in rows || p in left
        decreases left
      {
        var p :| p in left;
        rows := rows + [p];
        left := left - {p};
      }
    }
  }

  class BlockRepository {
    var blocks: set<Block>

    method FindBlockedUsers(userId: nat) returns (blocked: seq<nat>)
      ensures Distinct(blocked) && forall b :: b in blocked <==> Block(userId, b) in blocks
    {
      blocked := [];
      var left := set b | b in blocks && b.blockerId == userId :: b.blockedId;
      assert forall u | u in left :: Block(userId, u) in blocks;
      assert forall u | Block(userId, u) in blocks :: u in left by {
        forall u | Block(userId, u) in blocks ensures u in left {
          assert Block(userId, u).blockedId == u;
        }
      }
      while left != {}
        invariant Distinct(blocked) && forall b | b in left :: Block(userId, b) in blocks && b !in blocked
        invariant forall b :: Block(userId, b) in blocks <==> b in blocked || b in left
        decreases left
      {
        var b :| b in left;
        blocked := blocked + [b];
        left := left - {b};
      }
    }
  }

  // ---------- the mapper ----------

  /** friendshipMap filled row by row, a later row replacing an earlier one. */
  method MapRows(rows: seq<Pair>, userId: nat) returns (rowMap: map<nat, Pair>)
    ensures rowMap == RowMap(rows, userId)
  {
    rowMap := map[];
    for i := 0 to |rows|
      invariant rowMap == RowMap(rows[..i], userId)
    {
      assert rows[..i + 1][..i] == rows[..i];
      rowMap := rowMap[OtherOf(rows[i], userId) := rows[i]];
    }
    assert rows[..|rows|] == rows;
  }

  method ValidUsers(ids: seq<nat>, users: map<nat, User>) returns (valid: seq<nat>)
    ensures valid == WithProfile(ids, users)
  {
    valid := [];
    for i := 0 to |ids|
      invariant valid == WithProfile(ids[..i], users)
    {
      assert ids[..i + 1][..i] == ids[..i];
      if HasProfile(users, ids[i]) { valid := valid + [ids[i]]; }
    }
    assert ids[..|ids|] == ids;
  }

  method BuildEntries(g: Graph, userId: nat, ids: seq<nat>, rowMap: map<nat, Pair>, blocked: seq<nat>) returns (out: seq<Entry>)
    requires forall u | u in rowMap :: rowMap[u] in g.friends
    ensures out == Entries(g, userId, ids, rowMap, blocked)
  {
    out := [];
    for i := 0 to |ids|
      invariant out == Entries(g, userId, ids[..i], rowMap, blocked)
    {
      assert ids[..i + 1][..i] == ids[..i];
      if ids[i] in rowMap {
        var row := rowMap[ids[i]];
        out := out + [Entry(ids[i], DetermineRelation(row, g.friends[row], userId, ids[i], blocked))];
      } else if ids[i] in blocked {
        out := out + [Entry(ids[i], BLOCKED)];
      }
    }
    assert ids[..|ids|] == ids;
  }

  method NotListed(ids: seq<nat>, entries: seq<Entry>) returns (rest: seq<nat>)
    ensures rest == Excluding(ids, entries)
  {
    var listed := set e | e in entries :: e.userId;
    rest := [];
    for i := 0 to |ids|
      invariant rest == Excluding(ids[..i], entries)
    {
      assert ids[..i + 1][..i] == ids[..i];
      assert ids[i] in listed <==> exists e | e in entries :: e.userId == ids[i];
      if ids[i] !in listed { rest := rest + [ids[i]]; }
    }
    assert ids[..|ids|] == ids;
  }

  class FriendService {
    const friendRepository: FriendRepository
    const blockRepository: BlockRepository
    const users: map<nat, User>

    constructor (friendRepository: FriendRepository, blockRepository: BlockRepository, users: map<nat, User>)
      ensures this.friendRepository == friendRepository && this.blockRepository == blockRepository && this.users == users
    {
      this.friendRepository := friendRepository;
      this.blockRepository := blockRepository;
      this.users := users;
    }

    function Contents(): Graph
      reads friendRepository, blockRepository
    {
      Graph(users, friendRepository.friends, blockRepository.blocks)
    }

    method SendRequest(userId: nat, targetUserId: nat) returns (r: Result<(), FriendError>)
      modifies friendRepository
      ensures Outcome(Contents(), r) == Send(old(Contents()), userId, targetUserId)
    {
      if userId == targetUserId { return Err(CANNOT_REQUEST_SELF); }
      if targetUserId !in users { return Err(USER_NOT_FOUND); }
      if Block(targetUserId, userId) in blockRepository.blocks { return Err(BLOCKED_BY_TARGET); }
      if Block(userId, targetUserId) in blockRepository.blocks { return Err(BLOCKING_TARGET); }
      var existing := friendRepository.FindFriendship(userId, targetUserId);
      if existing.Some? {
        if friendRepository.friends[existing.value] == PENDING { return Err(ALREADY_SENT_REQUEST); }
        return Err(ALREADY_FRIEND);
      }
      friendRepository.CreateFriendship(userId, targetUserId);
      return Ok(());
    }

    method CancelRequest(userId: nat, targetUserId: nat) returns (r: Result<(), FriendError>)
      modifies friendRepository
      ensures Outcome(Contents(), r) == Cancel(old(Contents()), userId, targetUserId)
    {
      var request := friendRepository.FindFriendship(userId, targetUserId);
      if request.None? { return Err(REQUEST_NOT_FOUND); }
      if friendRepository.friends[request.value] != PENDING { return Err(REQUEST_ALREADY_PROCESSED); }
      if request.value.requesterId != userId { return Err(CANNOT_CANCEL_RECEIVED_REQUEST); }
      friendRepository.DeleteFriendship(request.value);
      return Ok(());
    }

    method RespondFriendRequest(userId: nat, requesterId: nat, accept: bool) returns (r: Result<(), FriendError>)
      modifies friendRepository
      ensures Outcome(Contents(), r) == Answer(old(Contents()), userId, requesterId, accept)
      ensures r.Ok? ==>
                friendRepository.friends ==
                if accept then old(friendRepository.friends)[Pair(requesterId, userId) := ACCEPTED]
                else old(friendRepository.friends) - {Pair(requesterId, userId)}
    {
      var request := friendRepository.FindFriendship(requesterId, userId);
      if request.None? { return Err(REQUEST_NOT_FOUND); }
      if friendRepository.friends[request.value] != PENDING { return Err(REQUEST_ALREADY_PROCESSED); }
      if request.value.requesterId != requesterId { return Err(CANNOT_RESPOND_OWN_REQUEST); }
      if !accept {
        friendRepository.DeleteFriendship(request.value);
      } else {
        friendRepository.UpdateFriendshipStatus(request.value, ACCEPTED);
      }
      return Ok(());
    }

    method RemoveFriend(userId: nat, friendUserId: nat) returns (r: Result<(), FriendError>)
      modifies friendRepository
      ensures Outcome(Contents(), r) == Remove(old(Contents()), userId, friendUserId)
    {
      var friendship := friendRepository.FindFriendship(userId, friendUserId);
      if friendship.None? { return Err(REQUEST_NOT_FOUND); }
      if friendRepository.friends[friendship.value] != ACCEPTED { return Err(NOT_A_FRIEND); }
      friendRepository.DeleteFriendship(friendship.value);
      return Ok(());
    }

    method BlockUser(userId: nat, targetUserId: nat) returns (r: Result<(), FriendError>)
      modifies friendRepository, blockRepository
      ensures Outcome(Contents(), r) == BlockTarget(old(Contents()), userId, targetUserId)
    {
      if targetUserId !in users { return Err(USER_NOT_FOUND); }
      if userId == targetUserId { return Err(CANNOT_SELF_BLOCK); }
      if Block(userId, targetUserId) in blockRepository.blocks { return Err(ALREADY_BLOCKED); }
      friendRepository.DeleteFriendshipIfExists(userId, targetUserId);
      blockRepository.blocks := blockRepository.blocks + {Block(userId, targetUserId)};
      return Ok(());
    }

    method UnblockUser(userId: nat, targetUserId: nat) returns (r: Result<(), FriendError>)
      modifies blockRepository
      ensures Outcome(Contents(), r) == Unblock(old(Contents()), userId, targetUserId)
    {
      if targetUserId !in users { return Err(USER_NOT_FOUND); }
      if Block(userId, targetUserId) !in blockRepository.blocks { return Err(BLOCK_NOT_FOUND); }
      blockRepository.blocks := blockRepository.blocks - {Block(userId, targetUserId)};
      return Ok(());
    }

    method GetFriendList(userId: nat, view: View) returns (list: seq<Card>, ghost rows: seq<Pair>, ghost blocked: seq<nat>)
      ensures ReadFor(Contents(), userId, rows, blocked)
      ensures list == Sort(ByRelation, Cards(FriendList(Contents(), userId, rows, blocked), users, view))
    {
      var found := friendRepository.FindFriendships(userId);
      var blockedIds := blockRepository.FindBlockedUsers(userId);
      rows, blocked := found, blockedIds;
      var valid := ValidUsers(OthersOf(found, userId), users);
      var rowMap := MapRows(found, userId);
      RowMapRows(found, userId);
      var friends := BuildEntries(Contents(), userId, valid, rowMap, blockedIds);
      var rest := NotListed(blockedIds, friends);
      list := Sort(ByRelation, Cards(friends + BlockedEntries(rest), users, view));
    }

    method SearchFriendsWithRelation(userId: nat, keyword: string, view: View)
      returns (list: seq<Card>, ghost rows: seq<Pair>, ghost blocked: seq<nat>)
      ensures ReadFor(Contents(), userId, rows, blocked)
      ensures
        var found := SearchRelated(Contents(), userId, rows, blocked, MatchingUsers(users, ParseKeyword(keyword)));
        list == Sort(ByOnlineAndLevel, Cards(found, users, view))
    {
      var parsed := ParseKeyword(keyword);
      var found := friendRepository.FindFriendships(userId);
      var blockedIds := blockRepository.FindBlockedUsers(userId);
      rows, blocked := found, blockedIds;
      var filtered := Keep(OthersOf(found, userId) + blockedIds, MatchingUsers(users, parsed));
      var rowMap := MapRows(found, userId);
      RowMapRows(found, userId);
      var valid := ValidUsers(filtered, users);
      var related := BuildEntries(Contents(), userId, valid, rowMap, blockedIds);
      list := Sort(ByOnlineAndLevel, Cards(related, users, view));
    }
  }
}
