/**
 * Votes to totals to final standings, as functions of the stored tables: per-drawing
 * sums, the merge into the running record, reading the record back per user, placements.
 */
module Scoring {
  import opened Collections
  import opened DrawingKeys
  import opened Ordering
  import opened GameTypes

  datatype Placed = Placed(userId: nat, score: int, placement: nat)

  ghost function VotesOn(votes: map<VoteKey, int>, d: DrawingKey): map<VoteKey, int> {
    map v | v in votes && v.drawing == d :: votes[v]
  }

  ghost function RatingSum(votes: map<VoteKey, int>, d: DrawingKey): int {
    Total(VotesOn(votes, d))
  }

  function OfRound<T>(drawings: map<DrawingKey, T>, matchId: nat, round: nat): set<DrawingKey> {
    set d | d in drawings && d.matchId == matchId && d.round == round
  }

  /** The record sumRatingsByDrawingKey returns: every drawing of the round, unrated ones at 0. */
  ghost function RoundScores<T>(drawings: map<DrawingKey, T>, votes: map<VoteKey, int>, matchId: nat, round: nat)
    : (r: map<string, int>)
    ensures forall d | d in OfRound(drawings, matchId, round) :: DrawingId(d) in r && r[DrawingId(d)] == RatingSum(votes, d)
    ensures forall id | id in r ::
              ParseDrawingId(id).Some? && Prints(id, ParseDrawingId(id).value)
              && ParseDrawingId(id).value in OfRound(drawings, matchId, round)
  {
    IdsDiffer();
    var rows := OfRound(drawings, matchId, round);
    map id | id in (set d | d in rows :: DrawingId(d)) :: RatingSum(votes, ParseDrawingId(id).value)
  }

  /** The record is determined by its entries. */
  lemma IsRoundScores<T>(out: map<string, int>, drawings: map<DrawingKey, T>, votes: map<VoteKey, int>, matchId: nat, round: nat)
    requires forall d | d in OfRound(drawings, matchId, round) :: DrawingId(d) in out && out[DrawingId(d)] == RatingSum(votes, d)
    requires forall id | id in out :: exists d | d in OfRound(drawings, matchId, round) :: id == DrawingId(d)
    ensures out == RoundScores(drawings, votes, matchId, round)
  {
  }

  function DistinctTargets(votes: map<VoteKey, int>, matchId: nat, round: nat, voterId: nat): set<nat> {
    set v | v in votes && v.voterId == voterId && v.drawing.matchId == matchId && v.drawing.round == round
      :: v.drawing.memberId
  }

  function MergeTotals(base: map<string, int>, delta: map<string, int>): map<string, int> {
    map id | id in base.Keys + delta.Keys :: ScoreAt(base, id) + ScoreAt(delta, id)
  }

  function RankRow(g: GameState, userId: nat, round: nat, roundScores: map<string, int>, totals: map<string, int>): Row
    requires userId in g.memberOf
  {
    var id := DrawingId(DrawingKey(g.matchId, g.memberOf[userId], round));
    Row(g.memberOf[userId], ScoreAt(roundScores, id), ScoreAt(totals, id))
  }

  function RankRows(g: GameState, active: seq<nat>, round: nat, roundScores: map<string, int>, totals: map<string, int>)
    : seq<Row>
  {
    if active == [] then []
    else
      var u := active[|active| - 1];
      RankRows(g, active[..|active| - 1], round, roundScores, totals)
      + if u in g.memberOf then [RankRow(g, u, round, roundScores, totals)] else []
  }

  /** memberIdToUserId built in key order; a later user would overwrite an earlier one. */
  function Invert(users: seq<nat>, memberOf: map<nat, nat>): map<nat, nat>
    requires forall u | u in users :: u in memberOf
  {
    if users == [] then map[]
    else
      var last := users[|users| - 1];
      Invert(users[..|users| - 1], memberOf)[memberOf[last] := last]
  }

  function UserByMember(memberOf: map<nat, nat>): map<nat, nat> {
    Invert(Ascending(memberOf.Keys), memberOf)
  }

  /** Whose entry a totals key is: three parts, the middle one a member id still in the map. */
  function OwnerOf(userByMember: map<nat, nat>, id: string): Option<nat> {
    var parts := Split(id);
    if |parts| != 3 then None
    else
      var memberId := Number(parts[1]);
      if memberId.Some? && memberId.value in userByMember then Some(userByMember[memberId.value]) else None
  }

  ghost function EntriesOf(totals: map<string, int>, userByMember: map<nat, nat>, userId: nat): map<string, int> {
    map id | id in totals && OwnerOf(userByMember, id) == Some(userId) :: totals[id]
  }

  ghost function FinalScores(memberOf: map<nat, nat>, totals: map<string, int>): map<nat, int> {
    var byMember := UserByMember(memberOf);
    map u | u in memberOf && EntriesOf(totals, byMember, u) != map[] :: Total(EntriesOf(totals, byMember, u))
  }

  function ScoreRows(users: seq<nat>, scores: map<nat, int>): (rows: seq<Row>)
    requires forall u | u in users :: u in scores
    ensures |rows| == |users|
    ensures forall i | 0 <= i < |users| :: rows[i] == Row(users[i], scores[users[i]], 0)
  {
    if users == [] then [] else [Row(users[0], scores[users[0]], 0)] + ScoreRows(users[1..], scores)
  }

  /** Object.entries in ascending user order, then a stable sort by score. */
  function Standings(scores: map<nat, int>): seq<Row> {
    Sort(ScoreRows(Ascending(scores.Keys), scores))
  }

  /** Standard competition ranking: one plus the number of strictly higher scores. */
  function Place(all: seq<Row>, r: Row): Placed {
    Placed(r.id, r.major, 1 + CountAbove(all, r.major))
  }

  function PlaceAll(standings: seq<Row>): (results: seq<Placed>)
    ensures |results| == |standings|
    ensures forall i | 0 <= i < |standings| :: results[i] == Place(standings, standings[i])
  {
    seq(|standings|, i requires 0 <= i < |standings| => Place(standings, standings[i]))
  }

  function FinalResults(scores: map<nat, int>): seq<Placed> {
    PlaceAll(Standings(scores))
  }
}
