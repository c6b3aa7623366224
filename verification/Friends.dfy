/** Friend requests, friendships and blocks as one relation machine, and the lists read out of it. */
module Friends {
  import opened Collections

  datatype FriendStatus = PENDING | ACCEPTED

  /** A friend row's unique key. */
  datatype Pair = Pair(requesterId: nat, receiverId: nat)

  datatype Block = Block(blockerId: nat, blockedId: nat)

  /** profile holds the level shown, when the user has a profile. */
  datatype User = User(nickname: string, tag: string, profile: Option<nat>)

  datatype Graph = Graph(users: map<nat, User>, friends: map<Pair, FriendStatus>, blocks: set<Block>)

  datatype FriendError =
    | CANNOT_REQUEST_SELF | USER_NOT_FOUND | BLOCKED_BY_TARGET | BLOCKING_TARGET | ALREADY_SENT_REQUEST | ALREADY_FRIEND
    | REQUEST_NOT_FOUND | REQUEST_ALREADY_PROCESSED | CANNOT_CANCEL_RECEIVED_REQUEST | CANNOT_RESPOND_OWN_REQUEST
    | NOT_A_FRIEND | CANNOT_SELF_BLOCK | ALREADY_BLOCKED | BLOCK_NOT_FOUND

  datatype Outcome = Outcome(graph: Graph, result: Result<(), FriendError>)

  datatype FriendEvent =
    | SendRequest(userId: nat, targetUserId: nat)
    | CancelRequest(userId: nat, targetUserId: nat)
    | Respond(userId: nat, requesterId: nat, accept: bool)
    | RemoveFriend(userId: nat, friendUserId: nat)
    | BlockUser(userId: nat, targetUserId: nat)
    | UnblockUser(userId: nat, targetUserId: nat)

  // ---------- the handlers ----------

  /** The row between two users, whichever of them asked. */
  function Find(friends: map<Pair, FriendStatus>, a: nat, b: nat): Option<Pair> {
    if Pair(a, b) in friends then Some(Pair(a, b))
    else if Pair(b, a) in friends then Some(Pair(b, a))
    else None
  }

  function ValidateRequest(g: Graph, userId: nat, target: nat): Result<(), FriendError> {
    var existing := Find(g.friends, userId, target);
    if userId == target then Err(CANNOT_REQUEST_SELF)
    else if target !in g.users then Err(USER_NOT_FOUND)
    else if Block(target, userId) in g.blocks then Err(BLOCKED_BY_TARGET)
    else if Block(userId, target) in g.blocks then Err(BLOCKING_TARGET)
    else if existing.Some? then Err(if g.friends[existing.value] == PENDING then ALREADY_SENT_REQUEST else ALREADY_FRIEND)
    else Ok(())
  }

  function Send(g: Graph, userId: nat, target: nat): Outcome {
    var valid := ValidateRequest(g, userId, target);
    if valid.Err? then Outcome(g, valid) else Outcome(g.(friends := g.friends[Pair(userId, target) := PENDING]), Ok(()))
  }

  function Cancel(g: Graph, userId: nat, target: nat): Outcome {
    var row := Find(g.friends, userId, target);
    if row.None? then Outcome(g, Err(REQUEST_NOT_FOUND))
    else if g.friends[row.value] != PENDING then Outcome(g, Err(REQUEST_ALREADY_PROCESSED))
    else if row.value.requesterId != userId then Outcome(g, Err(CANNOT_CANCEL_RECEIVED_REQUEST))
    else Outcome(g.(friends := g.friends - {row.value}), Ok(()))
  }

  function Answer(g: Graph, userId: nat, requesterId: nat, accept: bool): Outcome {
    var row := Find(g.friends, requesterId, userId);
    if row.None? then Outcome(g, Err(REQUEST_NOT_FOUND))
    else if g.friends[row.value] != PENDING then Outcome(g, Err(REQUEST_ALREADY_PROCESSED))
    else if row.value.requesterId != requesterId then Outcome(g, Err(CANNOT_RESPOND_OWN_REQUEST))
    else if accept then Outcome(g.(friends := g.friends[row.value := ACCEPTED]), Ok(()))
    else Outcome(g.(friends := g.friends - {row.value}), Ok(()))
  }

  function Remove(g: Graph, userId: nat, friend: nat): Outcome {
    var row := Find(g.friends, userId, friend);
    if row.None? then Outcome(g, Err(REQUEST_NOT_FOUND))
    else if g.friends[row.value] != ACCEPTED then Outcome(g, Err(NOT_A_FRIEND))
    else Outcome(g.(friends := g.friends - {row.value}), Ok(()))
  }

  function BlockTarget(g: Graph, userId: nat, target: nat): Outcome {
    if target !in g.users then Outcome(g, Err(USER_NOT_FOUND))
    else if userId == target then Outcome(g, Err(CANNOT_SELF_BLOCK))
    else if Block(userId, target) in g.blocks then Outcome(g, Err(ALREADY_BLOCKED))
    else Outcome(g.(friends := g.friends - {Pair(userId, target), Pair(target, userId)},
                    blocks := g.blocks + {Block(userId, target)}), Ok(()))
  }

  function Unblock(g: Graph, userId: nat, target: nat): Outcome {
    if target !in g.users then Outcome(g, Err(USER_NOT_FOUND))
    else if Block(userId, target) !in g.blocks then Outcome(g, Err(BLOCK_NOT_FOUND))
    else Outcome(g.(blocks := g.blocks - {Block(userId, target)}), Ok(()))
  }

  function Handle(g: Graph, e: FriendEvent): Outcome {
    match e
    case SendRequest(userId, target) => Send(g, userId, target)
    case CancelRequest(userId, target) => Cancel(g, userId, target)
    case Respond(userId, requesterId, accept) => Answer(g, userId, requesterId, accept)
    case RemoveFriend(userId, friend) => Remove(g, userId, friend)
    case BlockUser(userId, target) => BlockTarget(g, userId, target)
    case UnblockUser(userId, target) => Unblock(g, userId, target)
  }

  function RunGraph(g: Graph, run: seq<FriendEvent>): Graph {
    if run == [] then g else Handle(RunGraph(g, run[..|run| - 1]), run[|run| - 1]).graph
  }

  // ---------- what every run keeps ----------

  /** No self row, one row per two users, no friend row across a block in either direction. */
  ghost predicate GraphOk(g: Graph) {
    && (forall p | p in g.friends ::
          && p.requesterId != p.receiverId
          && Pair(p.receiverId, p.requesterId) !in g.friends
          && Block(p.requesterId, p.receiverId) !in g.blocks
          && Block(p.receiverId, p.requesterId) !in g.blocks)
    && (forall b | b in g.blocks :: b.blockerId != b.blockedId)
  }

  lemma HandleKeeps(g: Graph, e: FriendEvent)
    requires GraphOk(g)
    ensures GraphOk(Handle(g, e).graph)
  {
  }

  lemma {:induction false} EveryRunOk(users: map<nat, User>, run: seq<FriendEvent>)
    ensures GraphOk(RunGraph(Graph(users, map[], {}), run))
    ensures RunGraph(Graph(users, map[], {}), run).users == users
  {
    if run != [] {
      EveryRunOk(users, run[..|run| - 1]);
      HandleKeeps(RunGraph(Graph(users, map[], {}), run[..|run| - 1]), run[|run| - 1]);
    }
  }

  // ---------- relations ----------

  datatype Relation = REQUEST_RECEIVED | REQUEST_SENT | FRIEND | BLOCKED

  datatype Entry = Entry(userId: nat, relation: Relation)

  /** What one user is to another, said directly of the tables. */
  function RelationTo(g: Graph, userId: nat, other: nat): Option<Relation> {
    if Block(userId, other) in g.blocks then Some(BLOCKED)
    else if Pair(userId, other) in g.friends then Some(if g.friends[Pair(userId, other)] == ACCEPTED then FRIEND else REQUEST_SENT)
    else if Pair(other, userId) in g.friends then Some(if g.friends[Pair(other, userId)] == ACCEPTED then FRIEND else REQUEST_RECEIVED)
    else None
  }

  /** FRIEND is symmetric, and a request sent is a request received on the other side. */
  lemma RelationsMirror(g: Graph, a: nat, b: nat)
    requires GraphOk(g)
    ensures RelationTo(g, a, b) == Some(FRIEND) <==> RelationTo(g, b, a) == Some(FRIEND)
    ensures RelationTo(g, a, b) == Some(REQUEST_SENT) <==> RelationTo(g, b, a) == Some(REQUEST_RECEIVED)
  {
  }

  // ---------- keywords ----------

  datatype Keyword = ByTag(value: string) | ByNickname(value: string)

  /** `toLowerCase()`, on the letters it is modelled for. */
  function Lower(s: string): (r: string)
    ensures |r| == |s|
  {
    seq(|s|, i requires 0 <= i < |s| => if 'A' <= s[i] <= 'Z' then s[i] - 'A' + 'a' else s[i])
  }

  predicate Contains(s: string, t: string) {
    t <= s || (s != "" && Contains(s[1..], t))
  }

  predicate Matches(u: User, k: Keyword) {
    match k
    case ByTag(value) => u.tag == value
    case ByNickname(value) => Contains(Lower(u.nickname), Lower(value))
  }

  function MatchingUsers(users: map<nat, User>, k: Keyword): set<nat> {
    set u | u in users && Matches(users[u], k)
  }

  // ---------- the friend list ----------

  function OtherOf(p: Pair, userId: nat): nat {
    if p.requesterId == userId then p.receiverId else p.requesterId
  }

  predicate Touches(p: Pair, userId: nat) {
    p.requesterId == userId || p.receiverId == userId
  }

  /** A user's friend rows and blocked users, as the database happens to order them. */
  ghost predicate ReadFor(g: Graph, userId: nat, rows: seq<Pair>, blocked: seq<nat>) {
    && Distinct(rows) && (forall p :: p in rows <==> p in g.friends && Touches(p, userId))
    && Distinct(blocked) && (forall b :: b in blocked <==> Block(userId, b) in g.blocks)
  }

  predicate HasProfile(users: map<nat, User>, u: nat) {
    u in users && users[u].profile.Some?
  }

  function DetermineRelation(p: Pair, status: FriendStatus, userId: nat, target: nat, blocked: seq<nat>): Relation {
    if target in blocked then BLOCKED
    else if status == ACCEPTED then FRIEND
    else if p.requesterId == userId then REQUEST_SENT
    else REQUEST_RECEIVED
  }

  /** friendshipMap: the last row read for each other user. */
  function RowMap(rows: seq<Pair>, userId: nat): map<nat, Pair> {
    if rows == [] then map[]
    else RowMap(rows[..|rows| - 1], userId)[OtherOf(rows[|rows| - 1], userId) := rows[|rows| - 1]]
  }

  function OthersOf(rows: seq<Pair>, userId: nat): (r: seq<nat>)
    ensures |r| == |rows| && forall i | 0 <= i < |rows| :: r[i] == OtherOf(rows[i], userId)
  {
    seq(|rows|, i requires 0 <= i < |rows| => OtherOf(rows[i], userId))
  }

  function WithProfile(ids: seq<nat>, users: map<nat, User>): seq<nat> {
    if ids == [] then []
    else WithProfile(ids[..|ids| - 1], users) + if HasProfile(users, ids[|ids| - 1]) then [ids[|ids| - 1]] else []
  }

  /** One entry per listed user; one with no row is listed only when blocked. */
  function Entries(g: Graph, userId: nat, ids: seq<nat>, rowMap: map<nat, Pair>, blocked: seq<nat>): seq<Entry>
    requires forall u | u in rowMap :: rowMap[u] in g.friends
  {
    if ids == [] then []
    else
      var u := ids[|ids| - 1];
      Entries(g, userId, ids[..|ids| - 1], rowMap, blocked) +
      if u in rowMap then [Entry(u, DetermineRelation(rowMap[u], g.friends[rowMap[u]], userId, u, blocked))]
      else if u in blocked then [Entry(u, BLOCKED)]
      else []
  }

  function Excluding(ids: seq<nat>, entries: seq<Entry>): seq<nat> {
    if ids == [] then []
    else
      var u := ids[|ids| - 1];
      Excluding(ids[..|ids| - 1], entries) + if exists e | e in entries :: e.userId == u then [] else [u]
  }

  function BlockedEntries(ids: seq<nat>): (r: seq<Entry>)
    ensures |r| == |ids| && forall i | 0 <= i < |ids| :: r[i] == Entry(ids[i], BLOCKED)
  {
    seq(|ids|, i requires 0 <= i < |ids| => Entry(ids[i], BLOCKED))
  }

  lemma {:induction false} RowMapRows(rows: seq<Pair>, userId: nat)
    ensures forall u | u in RowMap(rows, userId) :: RowMap(rows, userId)[u] in rows && OtherOf(RowMap(rows, userId)[u], userId) == u
    ensures forall u :: u in RowMap(rows, userId) <==> u in OthersOf(rows, userId)
  {
    if rows != [] {
      var last := |rows| - 1;
      RowMapRows(rows[..last], userId);
      assert rows == rows[..last] + [rows[last]];
      assert OthersOf(rows, userId) == OthersOf(rows[..last], userId) + [OtherOf(rows[last], userId)];
    }
  }

  /** Friends with a profile, by row, and then the blocked users not among them. */
  function FriendList(g: Graph, userId: nat, rows: seq<Pair>, blocked: seq<nat>): seq<Entry>
    requires forall p | p in rows :: p in g.friends
  {
    RowMapRows(rows, userId);
    var friends := Entries(g, userId, WithProfile(OthersOf(rows, userId), g.users), RowMap(rows, userId), blocked);
    friends + BlockedEntries(Excluding(blocked, friends))
  }

  /** Related users that match the keyword, each with its relation. */
  function SearchRelated(g: Graph, userId: nat, rows: seq<Pair>, blocked: seq<nat>, matching: set<nat>): seq<Entry>
    requires forall p | p in rows :: p in g.friends
  {
    RowMapRows(rows, userId);
    Entries(g, userId, WithProfile(Keep(OthersOf(rows, userId) + blocked, matching), g.users), RowMap(rows, userId), blocked)
  }

  function Matching(entries: seq<Entry>, matching: set<nat>): seq<Entry> {
    if entries == [] then []
    else
      var e := entries[|entries| - 1];
      Matching(entries[..|entries| - 1], matching) + if e.userId in matching then [e] else []
  }

  // ---------- what the lists say ----------

  /** The reference list: each user named, with the relation the tables give. */
  function Related(g: Graph, userId: nat, ids: seq<nat>): seq<Entry> {
    if ids == [] then []
    else
      var u := ids[|ids| - 1];
      Related(g, userId, ids[..|ids| - 1]) + if RelationTo(g, userId, u).Some? then [Entry(u, RelationTo(g, userId, u).value)] else []
  }

  lemma {:induction false} RelatedHolds(g: Graph, userId: nat, ids: seq<nat>, e: Entry)
    ensures e in Related(g, userId, ids) <==> e.userId in ids && RelationTo(g, userId, e.userId) == Some(e.relation)
  {
    if ids != [] {
      assert ids == ids[..|ids| - 1] + [ids[|ids| - 1]];
      RelatedHolds(g, userId, ids[..|ids| - 1], e);
    }
  }

  ghost predicate ListsOnce(entries: seq<Entry>) {
    forall i, j | 0 <= i < j < |entries| :: entries[i].userId != entries[j].userId
  }

  lemma {:induction false} RelatedOnce(g: Graph, userId: nat, ids: seq<nat>)
    requires Distinct(ids)
    ensures ListsOnce(Related(g, userId, ids))
  {
    if ids != [] {
      var front := ids[..|ids| - 1];
      RelatedOnce(g, userId, front);
      var before := Related(g, userId, front);
      forall i | 0 <= i < |before| ensures before[i].userId != ids[|ids| - 1] {
        RelatedHolds(g, userId, front, before[i]);
        assert before[i] in before;
      }
    }
  }

  lemma {:induction false} RelatedAppend(g: Graph, userId: nat, a: seq<nat>, b: seq<nat>)
    ensures Related(g, userId, a + b) == Related(g, userId, a) + Related(g, userId, b)
  {
    if b == [] {
      assert a + b == a;
    } else {
      assert (a + b)[..|a + b| - 1] == a + b[..|b| - 1];
      RelatedAppend(g, userId, a, b[..|b| - 1]);
    }
  }

  ghost predicate RowMapFits(g: Graph, userId: nat, rowMap: map<nat, Pair>) {
    && (forall u | u in rowMap :: rowMap[u] in g.friends && (rowMap[u] == Pair(userId, u) || rowMap[u] == Pair(u, userId)))
    && (forall u | u !in rowMap :: Pair(userId, u) !in g.friends && Pair(u, userId) !in g.friends)
  }

  lemma {:induction false} EntriesAreRelated(g: Graph, userId: nat, ids: seq<nat>, rowMap: map<nat, Pair>, blocked: seq<nat>)
    requires GraphOk(g) && RowMapFits(g, userId, rowMap)
    requires forall b :: b in blocked <==> Block(userId, b) in g.blocks
    ensures Entries(g, userId, ids, rowMap, blocked) == Related(g, userId, ids)
  {
    if ids != [] {
      EntriesAreRelated(g, userId, ids[..|ids| - 1], rowMap, blocked);
    }
  }

  lemma OthersHold(g: Graph, userId: nat, rows: seq<Pair>, u: nat)
    requires GraphOk(g) && forall p :: p in rows <==> p in g.friends && Touches(p, userId)
    ensures u in OthersOf(rows, userId) <==> Pair(userId, u) in g.friends || Pair(u, userId) in g.friends
  {
    var others := OthersOf(rows, userId);
    if u in others {
      var i :| 0 <= i < |rows| && others[i] == u;
      assert rows[i] in rows && (rows[i] == Pair(userId, u) || rows[i] == Pair(u, userId));
    }
    if Pair(userId, u) in g.friends || Pair(u, userId) in g.friends {
      var p := if Pair(userId, u) in g.friends then Pair(userId, u) else Pair(u, userId);
      assert p in rows && OtherOf(p, userId) == u;
      var i :| 0 <= i < |rows| && rows[i] == p;
      assert others[i] == u;
    }
  }

  lemma OthersDistinct(g: Graph, userId: nat, rows: seq<Pair>)
    requires GraphOk(g) && Distinct(rows) && forall p | p in rows :: p in g.friends && Touches(p, userId)
    ensures Distinct(OthersOf(rows, userId))
  {
  }

  lemma ReadRows(g: Graph, userId: nat, rows: seq<Pair>, blocked: seq<nat>)
    requires GraphOk(g) && ReadFor(g, userId, rows, blocked)
    ensures RowMapFits(g, userId, RowMap(rows, userId))
    ensures Distinct(OthersOf(rows, userId)) && forall u | u in OthersOf(rows, userId) :: u !in blocked
  {
    RowMapRows(rows, userId);
    OthersDistinct(g, userId, rows);
    forall u ensures u in OthersOf(rows, userId) <==> Pair(userId, u) in g.friends || Pair(u, userId) in g.friends {
      OthersHold(g, userId, rows, u);
    }
  }

  lemma {:induction false} ExcludesNobody(ids: seq<nat>, entries: seq<Entry>)
    requires forall e | e in entries :: e.userId !in ids
    ensures Excluding(ids, entries) == ids
  {
    if ids != [] {
      assert ids == ids[..|ids| - 1] + [ids[|ids| - 1]];
      ExcludesNobody(ids[..|ids| - 1], entries);
    }
  }

  lemma {:induction false} BlockedAreRelated(g: Graph, userId: nat, ids: seq<nat>)
    requires forall b | b in ids :: Block(userId, b) in g.blocks
    ensures BlockedEntries(ids) == Related(g, userId, ids)
  {
    if ids != [] {
      var last := |ids| - 1;
      assert ids == ids[..last] + [ids[last]];
      BlockedAreRelated(g, userId, ids[..last]);
      assert BlockedEntries(ids) == BlockedEntries(ids[..last]) + [Entry(ids[last], BLOCKED)];
    }
  }

  lemma {:induction false} ProfileMembers(ids: seq<nat>, users: map<nat, User>)
    ensures forall u :: u in WithProfile(ids, users) <==> u in ids && HasProfile(users, u)
    ensures Distinct(ids) ==> Distinct(WithProfile(ids, users))
    ensures (forall u | u in ids :: HasProfile(users, u)) ==> WithProfile(ids, users) == ids
  {
    if ids != [] {
      assert ids == ids[..|ids| - 1] + [ids[|ids| - 1]];
      ProfileMembers(ids[..|ids| - 1], users);
    }
  }

  /** The list, in terms of the reference: friends with a profile, then everyone blocked. */
  lemma ListIsRelated(g: Graph, userId: nat, rows: seq<Pair>, blocked: seq<nat>)
    requires GraphOk(g) && ReadFor(g, userId, rows, blocked)
    ensures FriendList(g, userId, rows, blocked) ==
            Related(g, userId, WithProfile(OthersOf(rows, userId), g.users) + blocked)
  {
    ReadRows(g, userId, rows, blocked);
    var ids := WithProfile(OthersOf(rows, userId), g.users);
    var friends := Related(g, userId, ids);
    EntriesAreRelated(g, userId, ids, RowMap(rows, userId), blocked);
    ProfileMembers(OthersOf(rows, userId), g.users);
    forall e | e in friends ensures e.userId !in blocked {
      RelatedHolds(g, userId, ids, e);
    }
    ExcludesNobody(blocked, friends);
    BlockedAreRelated(g, userId, blocked);
    RelatedAppend(g, userId, ids, blocked);
  }

  lemma ListNamesOnce(g: Graph, userId: nat, rows: seq<Pair>, blocked: seq<nat>)
    requires GraphOk(g) && ReadFor(g, userId, rows, blocked)
    ensures ListsOnce(FriendList(g, userId, rows, blocked))
  {
    ListIsRelated(g, userId, rows, blocked);
    ReadRows(g, userId, rows, blocked);
    ProfileMembers(OthersOf(rows, userId), g.users);
    DistinctJoin(WithProfile(OthersOf(rows, userId), g.users), blocked);
    RelatedOnce(g, userId, WithProfile(OthersOf(rows, userId), g.users) + blocked);
  }

  lemma DistinctJoin(a: seq<nat>, b: seq<nat>)
    requires Distinct(a) && Distinct(b) && forall u | u in a :: u !in b
    ensures Distinct(a + b)
  {
    forall i, j | 0 <= i < j < |a + b| ensures (a + b)[i] != (a + b)[j] {
      if i < |a| <= j { assert a[i] in a && b[j - |a|] in b; }
    }
  }

  /**
   * Whatever order the database answers in, the friend list names each related user once with
   * its relation, leaving out exactly those not blocked who have no profile.
   */
  lemma ListIsExact(g: Graph, userId: nat, rows: seq<Pair>, blocked: seq<nat>, e: Entry)
    requires GraphOk(g) && ReadFor(g, userId, rows, blocked)
    ensures ListsOnce(FriendList(g, userId, rows, blocked))
    ensures e in FriendList(g, userId, rows, blocked) <==>
            RelationTo(g, userId, e.userId) == Some(e.relation) && (e.relation == BLOCKED || HasProfile(g.users, e.userId))
  {
    ListNamesOnce(g, userId, rows, blocked);
    ListIsRelated(g, userId, rows, blocked);
    OthersHold(g, userId, rows, e.userId);
    ProfileMembers(OthersOf(rows, userId), g.users);
    RelatedHolds(g, userId, WithProfile(OthersOf(rows, userId), g.users) + blocked, e);
  }

  /** In every run, one's FRIEND lists the other as FRIEND, and a SENT is the other's RECEIVED. */
  lemma ListsMirror(users: map<nat, User>, run: seq<FriendEvent>, a: nat, b: nat,
                    rowsA: seq<Pair>, blockedA: seq<nat>, rowsB: seq<Pair>, blockedB: seq<nat>)
    requires HasProfile(users, a) && HasProfile(users, b)
    requires
      var g := RunGraph(Graph(users, map[], {}), run);
      ReadFor(g, a, rowsA, blockedA) && ReadFor(g, b, rowsB, blockedB)
    ensures
      var g := RunGraph(Graph(users, map[], {}), run);
      var (listA, listB) := (FriendList(g, a, rowsA, blockedA), FriendList(g, b, rowsB, blockedB));
      && (Entry(b, FRIEND) in listA <==> Entry(a, FRIEND) in listB)
      && (Entry(b, REQUEST_SENT) in listA <==> Entry(a, REQUEST_RECEIVED) in listB)
  {
    var g := RunGraph(Graph(users, map[], {}), run);
    EveryRunOk(users, run);
    RelationsMirror(g, a, b);
    ListIsExact(g, a, rowsA, blockedA, Entry(b, FRIEND));
    ListIsExact(g, b, rowsB, blockedB, Entry(a, FRIEND));
    ListIsExact(g, a, rowsA, blockedA, Entry(b, REQUEST_SENT));
    ListIsExact(g, b, rowsB, blockedB, Entry(a, REQUEST_RECEIVED));
  }

  // ---------- the search ----------

  lemma SearchIsRelated(g: Graph, userId: nat, rows: seq<Pair>, blocked: seq<nat>, matching: set<nat>)
    requires GraphOk(g) && ReadFor(g, userId, rows, blocked)
    ensures SearchRelated(g, userId, rows, blocked, matching) ==
            Related(g, userId, WithProfile(Keep(OthersOf(rows, userId) + blocked, matching), g.users))
  {
    ReadRows(g, userId, rows, blocked);
    EntriesAreRelated(g, userId, WithProfile(Keep(OthersOf(rows, userId) + blocked, matching), g.users), RowMap(rows, userId), blocked);
  }

  lemma {:induction false} KeepAppend(a: seq<nat>, b: seq<nat>, keep: set<nat>)
    ensures Keep(a + b, keep) == Keep(a, keep) + Keep(b, keep)
  {
    if a == [] {
      assert a + b == b;
    } else {
      assert (a + b)[1..] == a[1..] + b;
      KeepAppend(a[1..], b, keep);
    }
  }

  lemma {:induction false} MatchingRelated(g: Graph, userId: nat, ids: seq<nat>, matching: set<nat>)
    ensures Matching(Related(g, userId, ids), matching) == Related(g, userId, Keep(ids, matching))
  {
    if ids != [] {
      var (front, last) := (ids[..|ids| - 1], ids[|ids| - 1]);
      assert ids == front + [last];
      MatchingRelated(g, userId, front, matching);
      KeepAppend(front, [last], matching);
      RelatedAppend(g, userId, Keep(front, matching), Keep([last], matching));
      MatchingAppend(Related(g, userId, front), last, g, userId, matching);
    }
  }

  lemma MatchingAppend(before: seq<Entry>, u: nat, g: Graph, userId: nat, matching: set<nat>)
    ensures
      var added := if RelationTo(g, userId, u).Some? then [Entry(u, RelationTo(g, userId, u).value)] else [];
      Matching(before + added, matching) == Matching(before, matching) + Related(g, userId, Keep([u], matching))
  {
    if RelationTo(g, userId, u).Some? {
      var e := Entry(u, RelationTo(g, userId, u).value);
      assert (before + [e])[..|before|] == before;
    } else {
      assert before + [] == before;
    }
    assert Keep([u], matching) == if u in matching then [u] else [];
    assert [u][..0] == [];
  }

  /** When everybody listed has a profile, searching is filtering the list, entry for entry. */
  lemma SearchFiltersList(g: Graph, userId: nat, rows: seq<Pair>, blocked: seq<nat>, k: Keyword)
    requires GraphOk(g) && ReadFor(g, userId, rows, blocked)
    requires forall u | u in OthersOf(rows, userId) || u in blocked :: HasProfile(g.users, u)
    ensures SearchRelated(g, userId, rows, blocked, MatchingUsers(g.users, k)) ==
            Matching(FriendList(g, userId, rows, blocked), MatchingUsers(g.users, k))
  {
    var (others, matching) := (OthersOf(rows, userId), MatchingUsers(g.users, k));
    ListIsRelated(g, userId, rows, blocked);
    SearchIsRelated(g, userId, rows, blocked, matching);
    ProfileMembers(others, g.users);
    ProfileMembers(Keep(others + blocked, matching), g.users);
    MatchingRelated(g, userId, others + blocked, matching);
  }

  /** Searching differs from the list in one thing only: a blocked user without a profile is not found. */
  lemma SearchIsExact(g: Graph, userId: nat, rows: seq<Pair>, blocked: seq<nat>, k: Keyword, e: Entry)
    requires GraphOk(g) && ReadFor(g, userId, rows, blocked)
    ensures
      var found := SearchRelated(g, userId, rows, blocked, MatchingUsers(g.users, k));
      e in found <==>
      e in FriendList(g, userId, rows, blocked) && e.userId in MatchingUsers(g.users, k) && HasProfile(g.users, e.userId)
  {
    var (others, matching) := (OthersOf(rows, userId), MatchingUsers(g.users, k));
    SearchIsRelated(g, userId, rows, blocked, matching);
    ListIsRelated(g, userId, rows, blocked);
    ProfileMembers(others, g.users);
    ProfileMembers(Keep(others + blocked, matching), g.users);
    RelatedHolds(g, userId, WithProfile(Keep(others + blocked, matching), g.users), e);
    RelatedHolds(g, userId, WithProfile(others, g.users) + blocked, e);
  }
}
