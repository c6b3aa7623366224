/** The loops of the session and evaluation services that build records and lists from stored state. */
module SessionLoops {
  import opened Collections
  import opened DrawingKeys
  import opened Ordering
  import opened GameTypes
  import opened Scoring
  import opened DrawingPipeline
  import S = GameSession

  method MergeTotals(base: map<string, int>, delta: map<string, int>) returns (out: map<string, int>)
    ensures out == Scoring.MergeTotals(base, delta)
  {
    out := base;
    var left := delta.Keys;
    while left != {}
      invariant left <= delta.Keys
      invariant out == map id | id in base.Keys + (delta.Keys - left) ::
                         ScoreAt(base, id) + if id in left then 0 else ScoreAt(delta, id)
      decreases left
    {
      var id :| id in left;
      out := out[id := ScoreAt(out, id) + delta[id]];
      left := left - {id};
    }
  }

  method BuildRankings(g: GameState, active: seq<nat>, round: nat, roundScores: map<string, int>, totals: map<string, int>)
    returns (items: seq<Row>)
    ensures items == Sort(RankRows(g, active, round, roundScores, totals))
    ensures forall r :: r in items <==>
              && (exists u | u in active && u in g.memberOf :: g.memberOf[u] == r.id)
              && r.major == ScoreAt(roundScores, DrawingId(DrawingKey(g.matchId, r.id, round)))
              && r.minor == ScoreAt(totals, DrawingId(DrawingKey(g.matchId, r.id, round)))
    ensures forall i, j | 0 <= i < j < |items| :: items[i].major >= items[j].major
  {
    items := [];
    for i := 0 to |active|
      invariant items == RankRows(g, active[..i], round, roundScores, totals)
    {
      assert active[..i + 1][..i] == active[..i];
      if active[i] in g.memberOf { items := items + [RankRow(g, active[i], round, roundScores, totals)]; }
    }
    assert active[..|active|] == active;
    SortedRankRows(g, active, round, roundScores, totals);
    items := Sort(items);
  }

  lemma SortedRankRows(g: GameState, active: seq<nat>, round: nat, roundScores: map<string, int>, totals: map<string, int>)
    ensures
      var items := Sort(RankRows(g, active, round, roundScores, totals));
      && (forall r :: r in items <==>
            && (exists u | u in active && u in g.memberOf :: g.memberOf[u] == r.id)
            && r.major == ScoreAt(roundScores, DrawingId(DrawingKey(g.matchId, r.id, round)))
            && r.minor == ScoreAt(totals, DrawingId(DrawingKey(g.matchId, r.id, round))))
      && (forall i, j | 0 <= i < j < |items| :: items[i].major >= items[j].major)
  {
    var rows := RankRows(g, active, round, roundScores, totals);
    SortSorts(rows);
    forall r
      ensures r in Sort(rows) <==>
              && (exists u | u in active && u in g.memberOf :: g.memberOf[u] == r.id)
              && r.major == ScoreAt(roundScores, DrawingId(DrawingKey(g.matchId, r.id, round)))
              && r.minor == ScoreAt(totals, DrawingId(DrawingKey(g.matchId, r.id, round)))
    {
      RankRowsHold(g, active, round, roundScores, totals, r);
      assert r in Sort(rows) <==> r in multiset(rows);
    }
  }

  lemma {:induction false} RankRowsHold(g: GameState, active: seq<nat>, round: nat, roundScores: map<string, int>,
                                        totals: map<string, int>, r: Row)
    ensures r in RankRows(g, active, round, roundScores, totals) <==>
            && (exists u | u in active && u in g.memberOf :: g.memberOf[u] == r.id)
            && r.major == ScoreAt(roundScores, DrawingId(DrawingKey(g.matchId, r.id, round)))
            && r.minor == ScoreAt(totals, DrawingId(DrawingKey(g.matchId, r.id, round)))
  {
    if active != [] {
      var (front, last) := (active[..|active| - 1], active[|active| - 1]);
      assert active == front + [last];
      RankRowsHold(g, front, round, roundScores, totals, r);
    }
  }

  lemma InvertMore(users: seq<nat>, i: nat, memberOf: map<nat, nat>)
    requires i < |users| && forall u | u in users :: u in memberOf
    ensures Scoring.Invert(users[..i + 1], memberOf) == Scoring.Invert(users[..i], memberOf)[memberOf[users[i]] := users[i]]
  {
    assert users[..i + 1][..i] == users[..i];
  }

  method InvertMembers(memberOf: map<nat, nat>) returns (userByMember: map<nat, nat>)
    ensures userByMember == UserByMember(memberOf)
  {
    var users := Ascending(memberOf.Keys);
    userByMember := map[];
    for i := 0 to |users|
      invariant userByMember == Invert(users[..i], memberOf)
    {
      InvertMore(users, i, memberOf);
      userByMember := userByMember[memberOf[users[i]] := users[i]];
    }
    assert users[..|users|] == users;
  }

  /** The same inversion for evaluators, refusing two users on one member id. */
  method InvertMembersOrThrow(memberOf: map<nat, nat>) returns (r: Result<map<nat, nat>, Error>)
    ensures r.Ok? <==> Injective(memberOf)
    ensures r.Err? ==> r.error == ROOM_MEMBER_ID_DUPLICATED
    ensures r.Ok? ==> forall rm :: rm in r.value <==> rm in memberOf.Values
    ensures r.Ok? ==> forall u | u in memberOf :: r.value[memberOf[u]] == u
  {
    var users := Ascending(memberOf.Keys);
    var out: map<nat, nat> := map[];
    for i := 0 to |users|
      invariant forall j | 0 <= j < i :: memberOf[users[j]] in out && out[memberOf[users[j]]] == users[j]
      invariant forall rm | rm in out :: out[rm] in users && memberOf[out[rm]] == rm
    {
      var rm := memberOf[users[i]];
      if rm in out && out[rm] != users[i] {
        assert memberOf[out[rm]] == rm;
        return Err(ROOM_MEMBER_ID_DUPLICATED);
      }
      out := out[rm := users[i]];
    }
    forall u | u in memberOf ensures memberOf[u] in out && out[memberOf[u]] == u {
      assert u in users;
    }
    return Ok(out);
  }

  /** The rows read back and keyed by user; a row of somebody no longer in the map is skipped. */
  method KeyRowsByUser(g: GameState, round: nat, drawings: map<DrawingKey, seq<DrawLine>>, rows: seq<DrawingKey>,
                       userByMember: map<nat, nat>) returns (out: map<nat, seq<DrawLine>>)
    requires forall d :: d in rows <==> d in OfRound(drawings, g.matchId, round)
    requires Injective(g.memberOf) && forall rm :: rm in userByMember <==> rm in g.memberOf.Values
    requires forall u | u in g.memberOf :: userByMember[g.memberOf[u]] == u
    ensures out == S.DrawingsByUser(g, round, drawings)
  {
    out := map[];
    for i := 0 to |rows|
      invariant forall u | u in out ::
                  && u in g.memberOf && u != 0 && DrawingKey(g.matchId, g.memberOf[u], round) in rows[..i]
                  && DrawingKey(g.matchId, g.memberOf[u], round) in drawings
                  && out[u] == drawings[DrawingKey(g.matchId, g.memberOf[u], round)]
      invariant forall u | u in g.memberOf && u != 0 && DrawingKey(g.matchId, g.memberOf[u], round) in rows[..i] :: u in out
    {
      var row := rows[i];
      assert row in rows;
      assert rows[..i + 1] == rows[..i] + [row];
      if row.memberId in userByMember {
        var userId := userByMember[row.memberId];
        if userId != 0 { out := out[userId := drawings[row]]; }
      }
    }
    assert rows[..|rows|] == rows;
  }

  /** Fisher-Yates on a copy; any random draw gives a rearrangement. */
  method ShuffleArray(list: seq<nat>) returns (shuffled: seq<nat>)
    ensures multiset(shuffled) == multiset(list)
  {
    var a := new nat[|list|](i requires 0 <= i < |list| => list[i]);
    assert a[..] == list;
    var i := a.Length - 1;
    while i > 0
      invariant multiset(a[..]) == multiset(list)
    {
      var j :| 0 <= j <= i;
      a[i], a[j] := a[j], a[i];
      i := i - 1;
    }
    shuffled := a[..];
  }

  /** What one connected socket is sent when an evaluation starts. */
  method DrawingsForViewer(g: GameState, round: nat, byUser: map<nat, seq<DrawLine>>, viewer: nat)
    returns (sent: seq<SentDrawing>, targets: seq<nat>)
    ensures multiset(targets) == multiset(OtherUsers(byUser, viewer))
    ensures sent == Deliver(g, round, byUser, targets)
  {
    targets := ShuffleArray(OtherUsers(byUser, viewer));
    sent := [];
    for i := 0 to |targets|
      invariant sent == Deliver(g, round, byUser, targets[..i])
    {
      assert targets[..i + 1][..i] == targets[..i];
      sent := sent + Presented(g, round, byUser, targets[i]);
    }
    assert targets[..|targets|] == targets;
  }

  ghost function Owned(totals: map<string, int>, owners: map<string, Option<nat>>, userId: nat): map<string, int> {
    map id | id in totals && id in owners && owners[id] == Some(userId) :: totals[id]
  }

  lemma OwnedAnother(done: map<string, int>, owners: map<string, Option<nat>>, id: string, value: int, userId: nat)
    requires id !in done && id in owners
    ensures Owned(done[id := value], owners, userId) ==
            if owners[id] == Some(userId) then Owned(done, owners, userId)[id := value] else Owned(done, owners, userId)
  {
  }

  /** The running scores are the sums over the entries handled so far. */
  ghost predicate Accumulated(out: map<nat, int>, done: map<string, int>, owners: map<string, Option<nat>>) {
    && (forall u: nat :: u in out <==> Owned(done, owners, u) != map[])
    && (forall u | u in out :: out[u] == Total(Owned(done, owners, u)))
  }

  function Added(out: map<nat, int>, owner: Option<nat>, value: int): map<nat, int> {
    if owner.None? then out else out[owner.value := (if owner.value in out then out[owner.value] else 0) + value]
  }

  lemma OwnedSumAnother(done: map<string, int>, owners: map<string, Option<nat>>, id: string, value: int, userId: nat)
    requires id !in done && id in owners && owners[id] == Some(userId)
    ensures Owned(done[id := value], owners, userId) != map[]
    ensures Total(Owned(done[id := value], owners, userId)) == Total(Owned(done, owners, userId)) + value
  {
    OwnedAnother(done, owners, id, value, userId);
    assert id in Owned(done[id := value], owners, userId);
    TotalInsert(Owned(done, owners, userId), id, value);
  }

  lemma AccumulatedAnother(out: map<nat, int>, done: map<string, int>, owners: map<string, Option<nat>>, id: string, value: int)
    requires Accumulated(out, done, owners) && id !in done && id in owners
    ensures Accumulated(Added(out, owners[id], value), done[id := value], owners)
  {
    forall u: nat | owners[id] != Some(u) ensures Owned(done[id := value], owners, u) == Owned(done, owners, u) {
      OwnedAnother(done, owners, id, value, u);
    }
    if owners[id].Some? { OwnedSumAnother(done, owners, id, value, owners[id].value); }
  }

  /** Adds every owned entry to its owner's running score. */
  method AccumulateByOwner(totals: map<string, int>, owners: map<string, Option<nat>>) returns (out: map<nat, int>)
    requires owners.Keys == totals.Keys
    ensures Accumulated(out, totals, owners)
  {
    out := map[];
    ghost var done: map<string, int> := map[];
    var left := totals.Keys;
    while left != {}
      invariant left <= totals.Keys && done == map id | id in totals && id !in left :: totals[id]
      invariant Accumulated(out, done, owners)
      decreases left
    {
      var id :| id in left;
      var owner := owners[id];
      AccumulatedAnother(out, done, owners, id, totals[id]);
      if owner.Some? {
        out := out[owner.value := (if owner.value in out then out[owner.value] else 0) + totals[id]];
      }
      done := done[id := totals[id]];
      left := left - {id};
    }
    assert done == totals;
  }

  lemma OwnedEntries(totals: map<string, int>, byMember: map<nat, nat>, owners: map<string, Option<nat>>, userId: nat)
    requires owners.Keys == totals.Keys && forall id | id in totals :: owners[id] == OwnerOf(byMember, id)
    ensures Owned(totals, owners, userId) == EntriesOf(totals, byMember, userId)
  {
  }

  lemma EntriesHaveMembers(memberOf: map<nat, nat>, totals: map<string, int>, userId: nat)
    requires EntriesOf(totals, UserByMember(memberOf), userId) != map[]
    ensures userId in memberOf
  {
    OwnersAreMembers(memberOf);
    var id :| id in EntriesOf(totals, UserByMember(memberOf), userId);
  }

  lemma OwnedScores(memberOf: map<nat, nat>, totals: map<string, int>, owners: map<string, Option<nat>>, out: map<nat, int>)
    requires forall u: nat :: Owned(totals, owners, u) == EntriesOf(totals, UserByMember(memberOf), u)
    requires Accumulated(out, totals, owners)
    ensures out == FinalScores(memberOf, totals)
  {
    forall u | u in out ensures u in memberOf {
      EntriesHaveMembers(memberOf, totals, u);
    }
  }

  method ComputeFinalScores(memberOf: map<nat, nat>, totals: map<string, int>) returns (out: map<nat, int>)
    ensures out == FinalScores(memberOf, totals)
  {
    var byMember := InvertMembers(memberOf);
    var owners := map id | id in totals :: OwnerOf(byMember, id);
    out := AccumulateByOwner(totals, owners);
    forall u: nat ensures Owned(totals, owners, u) == EntriesOf(totals, byMember, u) {
      OwnedEntries(totals, byMember, owners, u);
    }
    OwnedScores(memberOf, totals, owners, out);
  }

  lemma {:induction false} InvertedAreUsers(users: seq<nat>, memberOf: map<nat, nat>)
    requires forall u | u in users :: u in memberOf
    ensures forall rm | rm in Invert(users, memberOf) :: Invert(users, memberOf)[rm] in users
  {
    if users != [] {
      InvertedAreUsers(users[..|users| - 1], memberOf);
    }
  }

  lemma OwnersAreMembers(memberOf: map<nat, nat>)
    ensures forall rm | rm in UserByMember(memberOf) :: UserByMember(memberOf)[rm] in memberOf
  {
    InvertedAreUsers(Ascending(memberOf.Keys), memberOf);
  }

  method BuildFinalResults(scores: map<nat, int>) returns (results: seq<Placed>)
    ensures results == FinalResults(scores)
  {
    SortSorts(ScoreRows(Ascending(scores.Keys), scores));
    results := AssignPlacements(Standings(scores));
  }

  /** The running placement: a new score takes its 1-based index, an equal one the placement before it. */
  method AssignPlacements(sorted: seq<Row>) returns (results: seq<Placed>)
    requires Sorted(sorted)
    ensures |results| == |sorted| && forall j | 0 <= j < |sorted| :: results[j] == Place(sorted, sorted[j])
  {
    var lastScore: Option<int> := None;
    var lastPlacement: nat := 0;
    results := [];
    for i := 0 to |sorted|
      invariant |results| == i && forall j | 0 <= j < i :: results[j] == Place(sorted, sorted[j])
      invariant if i == 0 then lastScore == None
                else lastScore == Some(sorted[i - 1].major) && lastPlacement == 1 + CountAbove(sorted, sorted[i - 1].major)
    {
      if lastScore != Some(sorted[i].major) {
        FirstOfScore(sorted, i);
        lastPlacement := i + 1;
        lastScore := Some(sorted[i].major);
      }
      results := results + [Placed(sorted[i].id, sorted[i].major, lastPlacement)];
    }
  }

  lemma EarlierAbove(s: seq<Row>, i: nat, j: nat)
    requires Sorted(s) && j < i < |s| && s[i - 1].major != s[i].major
    ensures s[j].major > s[i].major
  {
    assert !Before(s[i], s[i - 1]) && (j < i - 1 ==> !Before(s[i - 1], s[j]));
  }

  lemma LaterNotAbove(s: seq<Row>, i: nat, j: nat)
    requires Sorted(s) && i <= j < |s|
    ensures s[j].major <= s[i].major
  {
    assert i < j ==> !Before(s[j], s[i]);
  }

  lemma FirstOfScore(s: seq<Row>, i: nat)
    requires Sorted(s) && i < |s| && (i > 0 ==> s[i - 1].major != s[i].major)
    ensures CountAbove(s, s[i].major) == i
  {
    var (front, rest) := (s[..i], s[i..]);
    assert s == front + rest;
    CountAboveAppend(front, rest, s[i].major);
    forall r | r in front ensures r.major > s[i].major {
      var j :| 0 <= j < i && s[j] == r;
      EarlierAbove(s, i, j);
    }
    forall r | r in rest ensures r.major <= s[i].major {
      var j :| 0 <= j < |rest| && rest[j] == r;
      LaterNotAbove(s, i, i + j);
    }
    CountAboveAll(front, s[i].major);
    CountAboveNone(rest, s[i].major);
  }
}
