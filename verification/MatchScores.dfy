/**
 * The scores read back out of the totals record are, for every run of a match, the sums
 * over its rounds of the latest rating each player gave.
 */
module MatchScores {
  import opened Collections
  import opened DrawingKeys
  import opened GameTypes
  import opened Scoring
  import opened SessionInvariants
  import opened SessionRuns
  import opened MatchHistory

  /** The reference: what each of the listed voters last gave a drawing, added up. */
  function LatestSum(ratings: seq<Rating>, d: DrawingKey, voters: seq<nat>): int {
    if voters == [] then 0 else Or(Latest(ratings, d, voters[0]), 0) + LatestSum(ratings, d, voters[1..])
  }

  /** A member's ratings over the first rounds of the match. */
  function Earned(ratings: seq<Rating>, s: Start, memberId: nat, rounds: nat): int {
    if rounds == 0 then 0
    else Earned(ratings, s, memberId, rounds - 1)
         + LatestSum(ratings, DrawingKey(s.matchId, memberId, rounds), Ascending(s.memberOf.Keys))
  }

  // ---------- one drawing ----------

  lemma {:induction false} SumByVoter(m: map<VoteKey, int>, ratings: seq<Rating>, d: DrawingKey, voters: seq<nat>)
    requires Distinct(voters)
    requires forall v | v in m :: v.drawing == d && v.voterId in voters
    requires forall p | p in voters ::
               Latest(ratings, d, p) == if VoteKey(d, p) in m then Some(m[VoteKey(d, p)]) else None
    ensures Total(m) == LatestSum(ratings, d, voters)
  {
    if voters == [] {
      assert m == map[];
    } else {
      var v := VoteKey(d, voters[0]);
      var rest := m - {v};
      forall w | w in rest ensures w.voterId in voters[1..] {
        var i :| 0 <= i < |voters| && voters[i] == w.voterId;
        assert i > 0 && voters[1..][i - 1] == w.voterId;
      }
      forall p | p in voters[1..] ensures Latest(ratings, d, p) == if VoteKey(d, p) in rest then Some(rest[VoteKey(d, p)]) else None {
        assert p != voters[0];
      }
      SumByVoter(rest, ratings, d, voters[1..]);
      if v in m {
        TotalRemove(m, v);
      } else {
        assert rest == m;
      }
    }
  }

  lemma TableSumIsLatestSum(h: History, s: Start, votes: map<VoteKey, int>, drawings: map<DrawingKey, seq<DrawLine>>, d: DrawingKey)
    requires VotesOk(h, s, votes, drawings) && d.matchId == s.matchId
    ensures RatingSum(votes, d) == LatestSum(h.ratings, d, Ascending(s.memberOf.Keys))
  {
    var m := VotesOn(votes, d);
    var voters := Ascending(s.memberOf.Keys);
    forall p | p in voters ensures Latest(h.ratings, d, p) == if VoteKey(d, p) in m then Some(m[VoteKey(d, p)]) else None {
      assert VoteKey(d, p).drawing.matchId == s.matchId;
    }
    SumByVoter(m, h.ratings, d, voters);
  }

  /** No drawing earns more than the top score from everybody but its author. */
  lemma DrawingBounds(h: History, s: Start, votes: map<VoteKey, int>, drawings: map<DrawingKey, seq<DrawLine>>, d: DrawingKey)
    requires VotesOk(h, s, votes, drawings) && d.matchId == s.matchId && d.memberId in s.memberOf.Values
    ensures 0 <= RatingSum(votes, d) <= SCORE_MAX * (|s.memberOf| - 1)
  {
    var m := VotesOn(votes, d);
    var author :| author in s.memberOf && s.memberOf[author] == d.memberId;
    var others := s.memberOf.Keys - {author};
    var voterOf := map v | v in m :: v.voterId;
    InjectiveImageSize(m.Keys, voterOf, others);
    TotalBounds(m, SCORE_MAX);
  }

  // ---------- reading the record back ----------

  lemma {:induction false} InvertInjective(users: seq<nat>, memberOf: map<nat, nat>)
    requires Distinct(users) && Injective(memberOf) && forall u | u in users :: u in memberOf
    ensures forall u | u in users :: memberOf[u] in Invert(users, memberOf) && Invert(users, memberOf)[memberOf[u]] == u
    ensures forall rm | rm in Invert(users, memberOf) ::
              Invert(users, memberOf)[rm] in users && memberOf[Invert(users, memberOf)[rm]] == rm
  {
    if users != [] {
      var front := users[..|users| - 1];
      assert users == front + [users[|users| - 1]];
      InvertInjective(front, memberOf);
    }
  }

  lemma UserByMemberInverts(memberOf: map<nat, nat>)
    requires Injective(memberOf)
    ensures forall u | u in memberOf :: memberOf[u] in UserByMember(memberOf) && UserByMember(memberOf)[memberOf[u]] == u
    ensures forall rm | rm in UserByMember(memberOf) ::
              UserByMember(memberOf)[rm] in memberOf && memberOf[UserByMember(memberOf)[rm]] == rm
  {
    InvertInjective(Ascending(memberOf.Keys), memberOf);
  }

  lemma OwnerOfPrinted(memberOf: map<nat, nat>, d: DrawingKey, userId: nat)
    requires Injective(memberOf) && userId in memberOf
    ensures OwnerOf(UserByMember(memberOf), DrawingId(d)) == Some(userId) <==> memberOf[userId] == d.memberId
  {
    UserByMemberInverts(memberOf);
    IdRoundTrip(d);
  }

  function RoundOf(entries: map<string, int>): map<string, nat> {
    map id | id in entries && ParseDrawingId(id).Some? :: ParseDrawingId(id).value.round
  }

  /** The entries whose id names one of the first rounds. */
  function Through(entries: map<string, int>, roundOf: map<string, nat>, rounds: nat): map<string, int> {
    map id | id in entries && id in roundOf && roundOf[id] <= rounds :: entries[id]
  }

  lemma ThroughNext(entries: map<string, int>, roundOf: map<string, nat>, k: nat, next: string)
    requires k >= 1 && forall id | id in entries :: id in roundOf && (roundOf[id] == k <==> id == next)
    ensures next !in Through(entries, roundOf, k - 1)
    ensures Through(entries, roundOf, k) ==
            if next in entries then Through(entries, roundOf, k - 1)[next := entries[next]]
            else Through(entries, roundOf, k - 1)
  {
  }

  /** A user's entries hold one id per committed round, at that drawing's rating sum. */
  ghost predicate EntriesFit(entries: map<string, int>, s: Start, memberId: nat, rounds: nat,
                             drawings: map<DrawingKey, seq<DrawLine>>, votes: map<VoteKey, int>)
  {
    && (forall id | id in entries ::
          && ParseDrawingId(id).Some?
          && var d := ParseDrawingId(id).value;
             Prints(id, d) && d.matchId == s.matchId && d.memberId == memberId && 1 <= d.round <= rounds && d in drawings)
    && (forall r: nat | 1 <= r <= rounds && DrawingKey(s.matchId, memberId, r) in drawings ::
          var d := DrawingKey(s.matchId, memberId, r);
          DrawingId(d) in entries && entries[DrawingId(d)] == RatingSum(votes, d))
  }

  lemma EntriesOfFit(g: GameState, h: History, s: Start, t: Tables, userId: nat)
    requires GameOk(g) && g.matchId == s.matchId && userId in g.memberOf
    requires DrawingsOk(s, g, t.drawings) && TotalsOk(s, g, t.drawings, t.votes)
    ensures EntriesFit(EntriesOf(g.totalScores, UserByMember(g.memberOf), userId), s, g.memberOf[userId],
                       MergedThrough(g), t.drawings, t.votes)
  {
    var byMember := UserByMember(g.memberOf);
    var entries := EntriesOf(g.totalScores, byMember, userId);
    forall id | id in entries
      ensures ParseDrawingId(id).Some? && ParseDrawingId(id).value.memberId == g.memberOf[userId]
    {
      OwnerOfPrinted(g.memberOf, ParseDrawingId(id).value, userId);
    }
    forall r: nat | 1 <= r <= MergedThrough(g) && DrawingKey(s.matchId, g.memberOf[userId], r) in t.drawings
      ensures var d := DrawingKey(s.matchId, g.memberOf[userId], r);
              DrawingId(d) in entries && entries[DrawingId(d)] == RatingSum(t.votes, d)
    {
      OwnerOfPrinted(g.memberOf, DrawingKey(s.matchId, g.memberOf[userId], r), userId);
    }
  }

  lemma EntryOfRound(entries: map<string, int>, s: Start, memberId: nat, rounds: nat, k: nat, t: Tables)
    requires 1 <= k <= rounds && EntriesFit(entries, s, memberId, rounds, t.drawings, t.votes)
    ensures
      var d := DrawingKey(s.matchId, memberId, k);
      && (DrawingId(d) in entries <==> d in t.drawings)
      && forall id | id in entries ::
           id in RoundOf(entries) && (RoundOf(entries)[id] == k <==> id == DrawingId(d))
  {
    var d := DrawingKey(s.matchId, memberId, k);
    IdRoundTrip(d);
    forall id | id in entries ensures ParseDrawingId(id).value.round == k <==> id == DrawingId(d) {
      var key := ParseDrawingId(id).value;
      assert key.round == k ==> key == d;
    }
  }

  lemma UncommittedEarnsNothing(h: History, s: Start, t: Tables, d: DrawingKey)
    requires VotesOk(h, s, t.votes, t.drawings) && d.matchId == s.matchId && d !in t.drawings
    ensures RatingSum(t.votes, d) == 0
  {
  }

  /** One more round adds what the committed drawing of that round was rated, or nothing. */
  lemma RoundAdds(entries: map<string, int>, s: Start, memberId: nat, rounds: nat, k: nat, t: Tables)
    requires 1 <= k <= rounds && EntriesFit(entries, s, memberId, rounds, t.drawings, t.votes)
    ensures
      var d := DrawingKey(s.matchId, memberId, k);
      Total(Through(entries, RoundOf(entries), k)) ==
      Total(Through(entries, RoundOf(entries), k - 1)) + if d in t.drawings then RatingSum(t.votes, d) else 0
  {
    var d := DrawingKey(s.matchId, memberId, k);
    var before := Through(entries, RoundOf(entries), k - 1);
    EntryOfRound(entries, s, memberId, rounds, k, t);
    ThroughNext(entries, RoundOf(entries), k, DrawingId(d));
    if d in t.drawings {
      TotalInsert(before, DrawingId(d), entries[DrawingId(d)]);
    }
  }

  ghost predicate AddsLatest(entries: map<string, int>, roundOf: map<string, nat>, ratings: seq<Rating>, s: Start,
                             memberId: nat, k: nat)
    requires k >= 1
  {
    Total(Through(entries, roundOf, k)) ==
    Total(Through(entries, roundOf, k - 1))
    + LatestSum(ratings, DrawingKey(s.matchId, memberId, k), Ascending(s.memberOf.Keys))
  }

  lemma {:induction false} RoundsAddUp(entries: map<string, int>, roundOf: map<string, nat>, ratings: seq<Rating>, s: Start,
                                       memberId: nat, k: nat)
    requires Through(entries, roundOf, 0) == map[]
    requires forall j: nat | 1 <= j <= k :: AddsLatest(entries, roundOf, ratings, s, memberId, j)
    ensures Total(Through(entries, roundOf, k)) == Earned(ratings, s, memberId, k)
    decreases k
  {
    if k > 0 {
      RoundsAddUp(entries, roundOf, ratings, s, memberId, k - 1);
      assert AddsLatest(entries, roundOf, ratings, s, memberId, k);
    }
  }

  lemma RoundAddsLatest(entries: map<string, int>, h: History, s: Start, memberId: nat, rounds: nat, k: nat, t: Tables)
    requires 1 <= k <= rounds && VotesOk(h, s, t.votes, t.drawings)
    requires EntriesFit(entries, s, memberId, rounds, t.drawings, t.votes)
    ensures AddsLatest(entries, RoundOf(entries), h.ratings, s, memberId, k)
  {
    var d := DrawingKey(s.matchId, memberId, k);
    RoundAdds(entries, s, memberId, rounds, k, t);
    TableSumIsLatestSum(h, s, t.votes, t.drawings, d);
    if d !in t.drawings { UncommittedEarnsNothing(h, s, t, d); }
  }

  lemma ThroughEnds(entries: map<string, int>, s: Start, memberId: nat, rounds: nat, t: Tables)
    requires EntriesFit(entries, s, memberId, rounds, t.drawings, t.votes)
    ensures Through(entries, RoundOf(entries), 0) == map[]
    ensures Through(entries, RoundOf(entries), rounds) == entries
  {
  }

  lemma EntriesSum(entries: map<string, int>, h: History, s: Start, memberId: nat, rounds: nat, t: Tables)
    requires VotesOk(h, s, t.votes, t.drawings)
    requires EntriesFit(entries, s, memberId, rounds, t.drawings, t.votes)
    ensures Total(entries) == Earned(h.ratings, s, memberId, rounds)
  {
    var roundOf := RoundOf(entries);
    ThroughEnds(entries, s, memberId, rounds, t);
    forall j: nat | 1 <= j <= rounds ensures AddsLatest(entries, roundOf, h.ratings, s, memberId, j) {
      RoundAddsLatest(entries, h, s, memberId, rounds, j, t);
    }
    RoundsAddUp(entries, roundOf, h.ratings, s, memberId, rounds);
  }

  lemma EarnedStep(h: History, s: Start, memberId: nat, k: nat, t: Tables)
    requires 1 <= k && VotesOk(h, s, t.votes, t.drawings) && memberId in s.memberOf.Values
    ensures
      var last := Earned(h.ratings, s, memberId, k) - Earned(h.ratings, s, memberId, k - 1);
      0 <= last <= SCORE_MAX * (|s.memberOf| - 1)
  {
    var d := DrawingKey(s.matchId, memberId, k);
    TableSumIsLatestSum(h, s, t.votes, t.drawings, d);
    DrawingBounds(h, s, t.votes, t.drawings, d);
  }

  lemma {:induction false} EarnedBounds(h: History, s: Start, memberId: nat, k: nat, t: Tables)
    requires VotesOk(h, s, t.votes, t.drawings) && memberId in s.memberOf.Values
    ensures 0 <= Earned(h.ratings, s, memberId, k) <= SCORE_MAX * (|s.memberOf| - 1) * k
    decreases k
  {
    if k > 0 {
      var cap := SCORE_MAX * (|s.memberOf| - 1);
      EarnedBounds(h, s, memberId, k - 1, t);
      EarnedStep(h, s, memberId, k, t);
      assert cap * k == cap * (k - 1) + cap;
    }
  }

  /** A drawing of the member was committed in one of the first rounds. */
  ghost predicate Drew(matchId: nat, memberId: nat, rounds: int, drawings: map<DrawingKey, seq<DrawLine>>) {
    exists r: nat | 1 <= r <= rounds :: DrawingKey(matchId, memberId, r) in drawings
  }

  lemma EntriesNonempty(entries: map<string, int>, s: Start, memberId: nat, rounds: nat, t: Tables)
    requires EntriesFit(entries, s, memberId, rounds, t.drawings, t.votes)
    ensures entries != map[] <==> Drew(s.matchId, memberId, rounds, t.drawings)
  {
  }

  /** The standing of one user against the record of ratings, in any state that agrees with it. */
  lemma ScoreOfUser(g: GameState, h: History, s: Start, t: Tables, userId: nat)
    requires GameOk(g) && g.matchId == s.matchId && Shrinks(s.memberOf, g.memberOf) && userId in g.memberOf
    requires DrawingsOk(s, g, t.drawings) && TotalsOk(s, g, t.drawings, t.votes) && VotesOk(h, s, t.votes, t.drawings)
    ensures
      var scores := FinalScores(g.memberOf, g.totalScores);
      var (rounds, memberId) := (MergedThrough(g), g.memberOf[userId]);
      && (userId in scores <==> Drew(s.matchId, memberId, rounds, t.drawings))
      && (userId in scores ==>
            && scores[userId] == Earned(h.ratings, s, memberId, rounds)
            && 0 <= scores[userId] <= SCORE_MAX * (|s.memberOf| - 1) * rounds)
  {
    var rounds := MergedThrough(g);
    var memberId := g.memberOf[userId];
    var entries := EntriesOf(g.totalScores, UserByMember(g.memberOf), userId);
    EntriesOfFit(g, h, s, t, userId);
    EntriesSum(entries, h, s, memberId, rounds, t);
    EntriesNonempty(entries, s, memberId, rounds, t);
    assert memberId == s.memberOf[userId];
    EarnedBounds(h, s, memberId, rounds, t);
  }

  /**
   * Final scores over every run: a remaining user is scored exactly when a drawing of theirs
   * was committed in a merged round, at the sum over those rounds of the latest ratings
   * given to them, which is between 0 and 10 per other starting player and round.
   */
  lemma ScoresAreLatestRatings(w: World, s: Start, now: int, inputs: seq<Input>, userId: nat)
    requires Begins(w, s)
    requires Match(w, s, now, inputs).game.Some? && userId in Match(w, s, now, inputs).game.value.memberOf
    ensures
      var v := Match(w, s, now, inputs);
      var g := v.game.value;
      var scores := FinalScores(g.memberOf, g.totalScores);
      var (rounds, memberId) := (MergedThrough(g), g.memberOf[userId]);
      && (userId in scores <==> Drew(s.matchId, memberId, rounds, v.tables.drawings))
      && (userId in scores ==>
            && scores[userId] == Earned(MatchRecord(w, s, now, inputs).ratings, s, memberId, rounds)
            && 0 <= scores[userId] <= SCORE_MAX * (|s.memberOf| - 1) * rounds)
  {
    MatchOk(w, s, now, inputs);
    var v := Match(w, s, now, inputs);
    ScoreOfUser(v.game.value, MatchRecord(w, s, now, inputs), s, v.tables, userId);
  }

  // ---------- what a round ranking calls the total ----------

  lemma RoundIsNewToTotals(s: Start, g: GameState, t: Tables, memberId: nat)
    requires TotalsOk(s, g, t.drawings, t.votes) && MergedThrough(g) < Round(g)
    ensures DrawingId(DrawingKey(g.matchId, memberId, Round(g))) !in g.totalScores
  {
    IdRoundTrip(DrawingKey(g.matchId, memberId, Round(g)));
  }

  lemma RowRepeats(base: map<string, int>, delta: map<string, int>, id: string)
    requires id !in base
    ensures ScoreAt(MergeTotals(base, delta), id) == ScoreAt(delta, id)
  {
  }
}
