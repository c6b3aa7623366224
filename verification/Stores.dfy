/** The stroke lists and the drawing and vote tables, with the loops their repositories run. */
module Stores {
  import opened Collections
  import opened DrawingKeys
  import opened GameTypes
  import opened Scoring
  import S = GameSession

  class DrawingStore {
    var strokes: map<StrokeKey, seq<DrawLine>>

    method AppendStroke(round: nat, userId: nat, line: DrawLine)
      modifies this
      ensures
        var k := StrokeKey(round, userId);
        strokes == old(strokes)[k := StrokesAt(old(strokes), k) + [line]]
    {
      var k := StrokeKey(round, userId);
      var lines := StrokesAt(strokes, k);
      strokes := strokes[k := lines + [line]];
    }

    method LoadStrokes(round: nat, userId: nat) returns (lines: seq<DrawLine>)
      ensures lines == StrokesAt(strokes, StrokeKey(round, userId))
    {
      lines := [];
      if StrokeKey(round, userId) in strokes { lines := strokes[StrokeKey(round, userId)]; }
    }

    method CleanupStrokes(round: nat, userIds: seq<nat>)
      modifies this
      ensures strokes == S.Cleanup(round, userIds, old(strokes))
    {
      for i := 0 to |userIds|
        invariant strokes == S.Cleanup(round, userIds[..i], old(strokes))
      {
        strokes := strokes - {StrokeKey(round, userIds[i])};
        assert userIds[..i + 1] == userIds[..i] + [userIds[i]];
      }
      assert userIds[..|userIds|] == userIds;
    }
  }

  lemma IsDrawingsById(byId: map<string, seq<DrawLine>>, drawings: map<DrawingKey, seq<DrawLine>>, matchId: nat, round: nat)
    requires forall d | d in OfRound(drawings, matchId, round) :: DrawingId(d) in byId && byId[DrawingId(d)] == drawings[d]
    requires forall id | id in byId :: exists d | d in OfRound(drawings, matchId, round) :: id == DrawingId(d)
    ensures byId == S.DrawingsById(drawings, matchId, round)
  {
    IdsDiffer();
    var expected := S.DrawingsById(drawings, matchId, round);
    forall id | id in byId ensures id in expected && expected[id] == byId[id] {
      var d :| d in OfRound(drawings, matchId, round) && id == DrawingId(d);
    }
  }

  /** Rows listed with their printed ids: each drawing's id is a name, and each name some drawing's id. */
  lemma NamesCover(rows: seq<DrawingKey>, names: seq<string>, all: set<DrawingKey>)
    requires |names| == |rows| && forall i | 0 <= i < |rows| :: names[i] == DrawingId(rows[i])
    requires forall d :: d in rows <==> d in all
    ensures forall d | d in all :: exists j | 0 <= j < |rows| :: rows[j] == d && names[j] == DrawingId(d)
    ensures forall id | id in names :: exists d | d in all :: id == DrawingId(d)
  {
  }

  class DrawingRepository {
    var drawings: map<DrawingKey, seq<DrawLine>>

    method Upsert(key: DrawingKey, lines: seq<DrawLine>)
      modifies this
      ensures drawings == old(drawings)[key := lines]
    {
      drawings := drawings[key := lines];
    }

    /** The rows of a round, in whatever order the database returns them. */
    method FindManyByMatchIdAndRound(matchId: nat, round: nat) returns (rows: seq<DrawingKey>)
      ensures forall d :: d in rows <==> d in OfRound(drawings, matchId, round)
    {
      rows := [];
      var left := OfRound(drawings, matchId, round);
      while left != {}
        invariant left <= OfRound(drawings, matchId, round)
        invariant forall d :: d in rows <==> d in OfRound(drawings, matchId, round) - left
        decreases left
      {
        var d :| d in left;
        rows := rows + [d];
        left := left - {d};
      }
    }

    method GetDrawingsByMatchAndRound(matchId: nat, round: nat) returns (r: Result<map<string, seq<DrawLine>>, Error>)
      ensures r.Ok? <==> forall d | d in OfRound(drawings, matchId, round) :: IsValidDrawData(drawings[d])
      ensures r.Err? ==> r.error == DRAW_DATA_INVALID
      ensures r.Ok? ==> r.value == S.DrawingsById(drawings, matchId, round)
    {
      var rows := FindManyByMatchIdAndRound(matchId, round);
      forall d | d in rows ensures d in drawings {
        assert d in OfRound(drawings, matchId, round);
      }
      var names := seq(|rows|, i requires 0 <= i < |rows| => DrawingId(rows[i]));
      IdsDiffer();
      r := FillDrawings(rows, names);
      if r.Err? { return; }
      NamesCover(rows, names, OfRound(drawings, matchId, round));
      IsDrawingsById(r.value, drawings, matchId, round);
    }

    /** Row by row under its printed id, stopping at the first malformed drawing. */
    method FillDrawings(rows: seq<DrawingKey>, names: seq<string>) returns (r: Result<map<string, seq<DrawLine>>, Error>)
      requires |names| == |rows| && forall d | d in rows :: d in drawings
      requires forall i, j | 0 <= i < |rows| && 0 <= j < |rows| && names[i] == names[j] :: rows[i] == rows[j]
      ensures r.Ok? <==> forall d | d in rows :: IsValidDrawData(drawings[d])
      ensures r.Err? ==> r.error == DRAW_DATA_INVALID
      ensures r.Ok? ==> forall j | 0 <= j < |rows| :: names[j] in r.value && r.value[names[j]] == drawings[rows[j]]
      ensures r.Ok? ==> forall id | id in r.value :: id in names
    {
      var byId: map<string, seq<DrawLine>> := map[];
      for i := 0 to |rows|
        invariant forall j | 0 <= j < i :: IsValidDrawData(drawings[rows[j]])
        invariant forall j | 0 <= j < i :: names[j] in byId && byId[names[j]] == drawings[rows[j]]
        invariant forall id | id in byId :: id in names
      {
        assert rows[i] in rows;
        if !IsValidDrawData(drawings[rows[i]]) { return Err(DRAW_DATA_INVALID); }
        byId := byId[names[i] := drawings[rows[i]]];
      }
      return Ok(byId);
    }
  }

  class EvaluationVoteRepository {
    const drawingRepository: DrawingRepository
    var votes: map<VoteKey, int>

    constructor (drawingRepository: DrawingRepository)
      ensures this.drawingRepository == drawingRepository && votes == map[]
    {
      this.drawingRepository := drawingRepository;
      votes := map[];
    }

    method UpsertVoteByDrawingKey(key: DrawingKey, voterId: nat, rating: int) returns (r: Result<(), Error>)
      modifies this
      ensures r == if key in drawingRepository.drawings then Ok(()) else Err(DRAWING_ID_INVALID)
      ensures votes == if r.Ok? then old(votes)[VoteKey(key, voterId) := rating] else old(votes)
    {
      if key !in drawingRepository.drawings { return Err(DRAWING_ID_INVALID); }
      votes := votes[VoteKey(key, voterId) := rating];
      return Ok(());
    }

    /** Sums grouped by drawing, then one entry per drawing of the round, 0 where nobody voted. */
    method SumRatingsByDrawingKey(matchId: nat, round: nat) returns (out: map<string, int>)
      ensures out == RoundScores(drawingRepository.drawings, votes, matchId, round)
    {
      var rows := drawingRepository.FindManyByMatchIdAndRound(matchId, round);
      var sums := GroupRatings(rows);
      var names := seq(|rows|, i requires 0 <= i < |rows| => DrawingId(rows[i]));
      IdsDiffer();
      out := FillRecord(rows, names, sums);
      NamesCover(rows, names, OfRound(drawingRepository.drawings, matchId, round));
      IsRoundScores(out, drawingRepository.drawings, votes, matchId, round);
    }

    method FillRecord(rows: seq<DrawingKey>, names: seq<string>, sums: map<DrawingKey, int>) returns (out: map<string, int>)
      requires |names| == |rows| && forall i, j | 0 <= i < |rows| && 0 <= j < |rows| && names[i] == names[j] :: rows[i] == rows[j]
      ensures forall j | 0 <= j < |rows| ::
                names[j] in out && out[names[j]] == if rows[j] in sums then sums[rows[j]] else 0
      ensures forall id | id in out :: id in names
    {
      out := map[];
      for i := 0 to |rows|
        invariant forall j | 0 <= j < i ::
                    names[j] in out && out[names[j]] == if rows[j] in sums then sums[rows[j]] else 0
        invariant forall id | id in out :: id in names
      {
        out := out[names[i] := if rows[i] in sums then sums[rows[i]] else 0];
      }
    }

    method GroupRatings(ids: seq<DrawingKey>) returns (sums: map<DrawingKey, int>)
      ensures forall d | d in ids :: (if d in sums then sums[d] else 0) == RatingSum(votes, d)
    {
      sums := map[];
      ghost var done: map<VoteKey, int> := map[];
      var left := votes.Keys;
      while left != {}
        invariant left <= votes.Keys && done == map v | v in votes && v !in left :: votes[v]
        invariant forall d | d in ids :: (if d in sums then sums[d] else 0) == Total(VotesOn(done, d))
        decreases left
      {
        var v :| v in left;
        var d := v.drawing;
        if d in ids {
          TotalInsert(VotesOn(done, d), v, votes[v]);
          sums := sums[d := (if d in sums then sums[d] else 0) + votes[v]];
        }
        ghost var next := done[v := votes[v]];
        forall e | e in ids ensures VotesOn(next, e) == if e == d then VotesOn(done, e)[v := votes[v]] else VotesOn(done, e) {
        }
        done := next;
        left := left - {v};
      }
      assert done == votes;
    }

    method CountDistinctTargetsByVoter(matchId: nat, round: nat, voterId: nat) returns (n: nat)
      ensures n == |DistinctTargets(votes, matchId, round, voterId)|
    {
      var rows := set v | v in votes && v.voterId == voterId && v.drawing.matchId == matchId && v.drawing.round == round;
      var distinct: set<nat> := {};
      var left := rows;
      while left != {}
        invariant left <= rows
        invariant distinct == set v | v in rows && v !in left :: v.drawing.memberId
        decreases left
      {
        var v :| v in left;
        distinct := distinct + {v.drawing.memberId};
        left := left - {v};
      }
      assert distinct == DistinctTargets(votes, matchId, round, voterId);
      n := |distinct|;
    }
  }
}
