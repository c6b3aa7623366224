/** Final standings and what they pay: placements are competition ranks, and rewards follow the scores. */
module Standings {
  import opened Collections
  import opened Ordering
  import opened Scoring

  datatype Reward = Reward(exp: nat, coin: nat)

  /** The reward table; an absent placement earns nothing, one past the table the last row. */
  function RewardByPlacement(placement: Option<nat>): Reward {
    match placement
    case None => Reward(0, 0)
    case Some(p) =>
      if p == 1 then Reward(120, 80)
      else if p == 2 then Reward(90, 60)
      else if p == 3 then Reward(70, 45)
      else if p == 4 then Reward(50, 30)
      else if p == 5 then Reward(40, 25)
      else Reward(30, 20)
  }

  /** `result.placement || undefined` */
  function RewardOf(r: Placed): Reward {
    RewardByPlacement(if r.placement == 0 then None else Some(r.placement))
  }

  lemma RewardNeverRises(p: nat, q: nat)
    requires 1 <= p <= q
    ensures RewardByPlacement(Some(p)).exp >= RewardByPlacement(Some(q)).exp > 0
    ensures RewardByPlacement(Some(p)).coin >= RewardByPlacement(Some(q)).coin > 0
  {
  }

  lemma RowsOfStandings(scores: map<nat, int>, r: Row)
    ensures r in Standings(scores) <==> r.id in scores && r == Row(r.id, scores[r.id], 0)
  {
    var users := Ascending(scores.Keys);
    var rows := ScoreRows(users, scores);
    assert r in Standings(scores) <==> r in multiset(rows);
    if r.id in scores && r == Row(r.id, scores[r.id], 0) {
      assert r.id in users;
      var i :| 0 <= i < |users| && users[i] == r.id;
      assert rows[i] == r;
    }
  }

  ghost function Higher(scores: map<nat, int>, x: int): set<nat> {
    set u | u in scores && scores[u] > x
  }

  ghost function HigherAmong(users: seq<nat>, scores: map<nat, int>, x: int): set<nat>
    requires forall u | u in users :: u in scores
  {
    set u | u in users && scores[u] > x
  }

  lemma {:induction false} CountAboveUsers(users: seq<nat>, scores: map<nat, int>, x: int)
    requires Ascends(users) && forall u | u in users :: u in scores
    ensures CountAbove(ScoreRows(users, scores), x) == |HigherAmong(users, scores, x)|
  {
    if users == [] {
      assert HigherAmong(users, scores, x) == {};
    } else {
      var rest := users[1..];
      CountAboveUsers(rest, scores, x);
      HigherAmongMore(users, scores, x);
      assert ScoreRows(users, scores)[1..] == ScoreRows(rest, scores);
    }
  }

  lemma HigherAmongMore(users: seq<nat>, scores: map<nat, int>, x: int)
    requires users != [] && Ascends(users) && forall u | u in users :: u in scores
    ensures |HigherAmong(users, scores, x)| == |HigherAmong(users[1..], scores, x)| + if scores[users[0]] > x then 1 else 0
  {
    assert users[0] !in users[1..];
    assert HigherAmong(users, scores, x) ==
           HigherAmong(users[1..], scores, x) + if scores[users[0]] > x then {users[0]} else {};
  }

  lemma StandingsOrder(scores: map<nat, int>)
    ensures |Standings(scores)| == |scores|
    ensures Sorted(Standings(scores))
    ensures forall i, j | 0 <= i < j < |Standings(scores)| :: Standings(scores)[i].id != Standings(scores)[j].id
  {
    var s := Standings(scores);
    var users := Ascending(scores.Keys);
    var rows := ScoreRows(users, scores);
    SortSorts(rows);
    Rearranged(rows, s);
    forall i, j | 0 <= i < j < |s| ensures s[i].id != s[j].id {
      RowsOfStandings(scores, s[i]);
      RowsOfStandings(scores, s[j]);
    }
  }

  lemma StandingsPlace(scores: map<nat, int>, r: Row)
    requires r in Standings(scores)
    ensures r.id in scores && r == Row(r.id, scores[r.id], 0)
    ensures CountAbove(Standings(scores), r.major) == |Higher(scores, r.major)|
  {
    RowsOfStandings(scores, r);
    AboveIsHigher(scores, Ascending(scores.Keys), Standings(scores), r.major);
  }

  lemma AboveIsHigher(scores: map<nat, int>, users: seq<nat>, sorted: seq<Row>, x: int)
    requires Ascends(users) && (forall u :: u in users <==> u in scores)
    requires multiset(sorted) == multiset(ScoreRows(users, scores))
    ensures CountAbove(sorted, x) == |Higher(scores, x)|
  {
    CountAbovePermuted(sorted, ScoreRows(users, scores), x);
    CountAboveUsers(users, scores, x);
    assert Higher(scores, x) == HigherAmong(users, scores, x);
  }

  ghost predicate InOrder(a: Placed, b: Placed) {
    a.score > b.score || (a.score == b.score && a.userId < b.userId)
  }

  lemma ResultAt(scores: map<nat, int>, i: nat)
    requires i < |Standings(scores)|
    ensures |FinalResults(scores)| == |Standings(scores)|
    ensures
      var (r, row) := (FinalResults(scores)[i], Standings(scores)[i]);
      && r.userId == row.id && r.score == row.major && row == Row(r.userId, r.score, 0)
      && r.userId in scores && r.score == scores[r.userId] && r.placement == 1 + |Higher(scores, r.score)|
  {
    StandingsPlace(scores, Standings(scores)[i]);
  }

  lemma ResultsInOrder(scores: map<nat, int>, i: nat, j: nat)
    requires i < j < |Standings(scores)|
    ensures |FinalResults(scores)| == |Standings(scores)| && InOrder(FinalResults(scores)[i], FinalResults(scores)[j])
  {
    StandingsOrder(scores);
    ResultAt(scores, i);
    ResultAt(scores, j);
    assert !Before(Standings(scores)[j], Standings(scores)[i]);
  }

  lemma EveryoneIsPlaced(scores: map<nat, int>, u: nat)
    requires u in scores
    ensures exists r | r in FinalResults(scores) :: r.userId == u
  {
    var s := Standings(scores);
    RowsOfStandings(scores, Row(u, scores[u], 0));
    var i :| 0 <= i < |s| && s[i] == Row(u, scores[u], 0);
    ResultAt(scores, i);
    assert FinalResults(scores)[i] in FinalResults(scores);
  }

  lemma ResultIsRank(scores: map<nat, int>, r: Placed)
    requires r in FinalResults(scores)
    ensures r.userId in scores && r.score == scores[r.userId] && r.placement == 1 + |Higher(scores, r.score)|
  {
    StandingsOrder(scores);
    var i :| 0 <= i < |FinalResults(scores)| && FinalResults(scores)[i] == r;
    ResultAt(scores, i);
  }

  /**
   * Every scored user appears exactly once, best first with ties in user order, placed one
   * below the number of users with a strictly higher score.
   */
  lemma ResultsAreRanks(scores: map<nat, int>)
    ensures |FinalResults(scores)| == |scores|
    ensures forall i, j | 0 <= i < j < |FinalResults(scores)| :: InOrder(FinalResults(scores)[i], FinalResults(scores)[j])
    ensures forall r | r in FinalResults(scores) ::
              r.userId in scores && r.score == scores[r.userId] && r.placement == 1 + |Higher(scores, r.score)|
    ensures forall u | u in scores :: exists r | r in FinalResults(scores) :: r.userId == u
  {
    var results := FinalResults(scores);
    StandingsOrder(scores);
    forall i, j | 0 <= i < j < |results| ensures InOrder(results[i], results[j]) {
      ResultsInOrder(scores, i, j);
    }
    forall r | r in results
      ensures r.userId in scores && r.score == scores[r.userId] && r.placement == 1 + |Higher(scores, r.score)|
    {
      ResultIsRank(scores, r);
    }
    forall u | u in scores ensures exists r | r in results :: r.userId == u {
      EveryoneIsPlaced(scores, u);
    }
  }

  lemma FewerAboveHigher(scores: map<nat, int>, x: int, y: int)
    requires x >= y
    ensures |Higher(scores, x)| <= |Higher(scores, y)|
  {
    var (above, more) := (Higher(scores, x), Higher(scores, y));
    assert more == above + (more - above);
    assert |more| == |above| + |more - above|;
  }

  /** Equal scores are paid equally, and a higher score is never paid less. */
  lemma PayFollowsScore(scores: map<nat, int>, a: Placed, b: Placed)
    requires a in FinalResults(scores) && b in FinalResults(scores) && a.score >= b.score
    ensures RewardOf(a).exp >= RewardOf(b).exp > 0 && RewardOf(a).coin >= RewardOf(b).coin > 0
    ensures a.score == b.score ==> a.placement == b.placement && RewardOf(a) == RewardOf(b)
  {
    ResultsAreRanks(scores);
    FewerAboveHigher(scores, a.score, b.score);
    RewardNeverRises(a.placement, b.placement);
  }
}
