/** The match results a finalize stores, the rows rankings are later summed from. */
module StoredResults {
  import opened Collections
  import opened GameTypes
  import opened Scoring
  import opened Standings
  import opened SessionInvariants
  import opened SessionRuns
  import opened MatchHistory
  import opened Payout
  import opened MatchPayout

  /** A result the call lists is of this member. */
  ghost predicate IsOf(memberOf: map<nat, nat>, r: Placed, memberId: nat) {
    memberId != 0 && r.userId in memberOf && memberOf[r.userId] == memberId
  }

  ghost predicate Holds(results: map<ResultKey, MatchResult>, matchId: nat, memberId: nat, r: Placed) {
    var k := ResultKey(matchId, memberId);
    k in results && results[k].score == r.score && results[k].placement == r.placement
  }

  ghost predicate SameRow(before: map<ResultKey, MatchResult>, after: map<ResultKey, MatchResult>, k: ResultKey) {
    (k in after <==> k in before) && (k in before ==> after[k] == before[k])
  }

  lemma PayOneStores(bank: Bank, matchId: nat, memberOf: map<nat, nat>, reward: Reward, r: Placed, k: ResultKey)
    requires PayOne(bank, matchId, memberOf, reward, r).Some?
    ensures
      var after := PayOne(bank, matchId, memberOf, reward, r).value.results;
      if k.matchId == matchId && IsOf(memberOf, r, k.memberId) then Holds(after, matchId, k.memberId, r)
      else SameRow(bank.results, after, k)
  {
  }

  lemma {:induction false} OthersStay(bank: Bank, matchId: nat, memberOf: map<nat, nat>, rewards: map<nat, Reward>,
                                      results: seq<Placed>, k: ResultKey)
    requires forall r | r in results :: r.userId in rewards
    requires PayAll(bank, matchId, memberOf, rewards, results).Some?
    requires k.matchId != matchId || forall r | r in results :: !IsOf(memberOf, r, k.memberId)
    ensures SameRow(bank.results, PayAll(bank, matchId, memberOf, rewards, results).value.results, k)
  {
    if results != [] {
      var (front, last) := (results[..|results| - 1], results[|results| - 1]);
      assert results == front + [last] && last in results;
      OthersStay(bank, matchId, memberOf, rewards, front, k);
      PayOneStores(PayAll(bank, matchId, memberOf, rewards, front).value, matchId, memberOf, rewards[last.userId], last, k);
    }
  }

  lemma {:induction false} ListedIsStored(bank: Bank, matchId: nat, memberOf: map<nat, nat>, rewards: map<nat, Reward>,
                                          results: seq<Placed>, r: Placed, memberId: nat)
    requires DistinctUsers(results) && Injective(memberOf) && forall x | x in results :: x.userId in rewards
    requires PayAll(bank, matchId, memberOf, rewards, results).Some?
    requires r in results && IsOf(memberOf, r, memberId)
    ensures Holds(PayAll(bank, matchId, memberOf, rewards, results).value.results, matchId, memberId, r)
  {
    var (front, last) := (results[..|results| - 1], results[|results| - 1]);
    assert results == front + [last] && last in results;
    var before := PayAll(bank, matchId, memberOf, rewards, front).value;
    PayOneStores(before, matchId, memberOf, rewards[last.userId], last, ResultKey(matchId, memberId));
    if r != last {
      assert r in front && r.userId != last.userId;
      ListedIsStored(bank, matchId, memberOf, rewards, front, r, memberId);
    }
  }

  /**
   * A finalize that settles leaves every listed user with a member id a row of exactly the listed
   * score and placement, re-scored and rewarded rows included, and touches no other row; one that
   * does not settle touches none.
   */
  lemma StoresWhatIsListed(bank: Bank, c: Call)
    requires DistinctUsers(c.results) && Injective(c.memberOf)
    ensures
      var after := FinalizeMatch(bank, c);
      if Settle(bank, c).None? then after == bank
      else
        && (forall r, memberId | r in c.results && IsOf(c.memberOf, r, memberId) :: Holds(after.results, c.matchId, memberId, r))
        && (forall k: ResultKey | k.matchId != c.matchId || (forall r | r in c.results :: !IsOf(c.memberOf, r, k.memberId)) ::
              SameRow(bank.results, after.results, k))
  {
    if Settle(bank, c).Some? {
      RewardMapCovers(c.results);
      forall r, memberId | r in c.results && IsOf(c.memberOf, r, memberId)
        ensures Holds(FinalizeMatch(bank, c).results, c.matchId, memberId, r)
      {
        ListedIsStored(bank, c.matchId, c.memberOf, RewardMap(c.results), c.results, r, memberId);
      }
      forall k: ResultKey | k.matchId != c.matchId || (forall r | r in c.results :: !IsOf(c.memberOf, r, k.memberId))
        ensures SameRow(bank.results, FinalizeMatch(bank, c).results, k)
      {
        OthersStay(bank, c.matchId, c.memberOf, RewardMap(c.results), c.results, k);
      }
    }
  }

  // ---------- the results of a match ----------

  /** Everyone scored has a row with what the ratings earned and one place below those ahead; other rows are as before. */
  ghost predicate ResultsStored(before: map<ResultKey, MatchResult>, after: map<ResultKey, MatchResult>, h: History, s: Start,
                                g: GameState, t: Tables)
  {
    && (forall u | u in Scored(s, g, t) ::
          var k := ResultKey(s.matchId, g.memberOf[u]);
          k in after && after[k].score == EarnedBy(h, s, g, u) && after[k].placement == 1 + |Ahead(h, s, g, t, u)|)
    && (forall k: ResultKey | k.matchId != s.matchId || (forall u | u in Scored(s, g, t) :: g.memberOf[u] != k.memberId) ::
          SameRow(before, after, k))
  }

  lemma StandingsSettle(bank: Bank, scores: map<nat, int>, matchId: nat, memberOf: map<nat, nat>)
    requires Injective(memberOf) && forall u | u in scores :: u in bank.profiles
    ensures Settle(bank, Call(matchId, FinalResults(scores), memberOf)).Some?
    ensures DistinctUsers(FinalResults(scores))
  {
    var results := FinalResults(scores);
    ResultsAreRanks(scores);
    StandingsAreDistinct(scores);
    RewardMapCovers(results);
    FailsExactly(bank, matchId, memberOf, RewardMap(results), results);
  }

  lemma ScoredIsStored(results: map<ResultKey, MatchResult>, matchId: nat, memberOf: map<nat, nat>, scores: map<nat, int>, u: nat)
    requires u in scores && u in memberOf && memberOf[u] != 0
    requires forall r, memberId | r in FinalResults(scores) && IsOf(memberOf, r, memberId) :: Holds(results, matchId, memberId, r)
    ensures
      var k := ResultKey(matchId, memberOf[u]);
      k in results && results[k].score == scores[u] && results[k].placement == 1 + |Higher(scores, scores[u])|
  {
    ResultsAreRanks(scores);
    var r :| r in FinalResults(scores) && r.userId == u;
    assert IsOf(memberOf, r, memberOf[u]);
  }

  lemma UnscoredIsUnlisted(memberOf: map<nat, nat>, scores: map<nat, int>, memberId: nat)
    requires forall u | u in scores && u in memberOf :: memberOf[u] != memberId
    ensures forall r | r in FinalResults(scores) :: !IsOf(memberOf, r, memberId)
  {
    ResultsAreRanks(scores);
  }

  lemma StoresWhatFits(bank: Bank, scores: map<nat, int>, h: History, s: Start, g: GameState, t: Tables)
    requires ScoresFit(scores, h, s, g, t) && MembersOk(g.memberOf) && g.matchId == s.matchId
    requires forall u | u in g.memberOf :: u in bank.profiles
    ensures ResultsStored(bank.results, FinalizeMatch(bank, Call(g.matchId, FinalResults(scores), g.memberOf)).results, h, s, g, t)
  {
    var c := Call(g.matchId, FinalResults(scores), g.memberOf);
    StandingsSettle(bank, scores, g.matchId, g.memberOf);
    StoresWhatIsListed(bank, c);
    var after := FinalizeMatch(bank, c).results;
    forall u | u in Scored(s, g, t)
      ensures
        var k := ResultKey(s.matchId, g.memberOf[u]);
        k in after && after[k].score == EarnedBy(h, s, g, u) && after[k].placement == 1 + |Ahead(h, s, g, t, u)|
    {
      ScoredIsStored(after, g.matchId, g.memberOf, scores, u);
      AheadIsHigher(scores, h, s, g, t, u);
    }
    forall k: ResultKey | k.matchId != s.matchId || (forall u | u in Scored(s, g, t) :: g.memberOf[u] != k.memberId)
      ensures SameRow(bank.results, after, k)
    {
      if k.matchId == s.matchId { UnscoredIsUnlisted(g.memberOf, scores, k.memberId); }
    }
  }

  /**
   * Over every run: finalizing the match stores for each remaining player who drew exactly the
   * sum of their latest ratings and one place below the players strictly ahead, whatever an
   * earlier finalize stored, and leaves the rows of everybody else and of other matches alone.
   */
  lemma ResultsFollowRatings(w: World, s: Start, now: int, inputs: seq<Input>, bank: Bank)
    requires Begins(w, s) && Match(w, s, now, inputs).game.Some?
    requires forall u | u in s.memberOf :: u in bank.profiles
    ensures
      var v := Match(w, s, now, inputs);
      ResultsStored(bank.results, FinalizeMatch(bank, PayoutCall(v.game.value)).results, MatchRecord(w, s, now, inputs), s,
                    v.game.value, v.tables)
  {
    MatchOk(w, s, now, inputs);
    var (v, h) := (Match(w, s, now, inputs), MatchRecord(w, s, now, inputs));
    StoresLedger(v, h, s, bank);
  }

  lemma StoresLedger(v: World, h: History, s: Start, bank: Bank)
    requires WorldOk(v) && LedgerOk(v, h, s) && v.game.Some? && forall u | u in s.memberOf :: u in bank.profiles
    ensures ResultsStored(bank.results, FinalizeMatch(bank, PayoutCall(v.game.value)).results, h, s, v.game.value, v.tables)
  {
    var g := v.game.value;
    ScoresInTerms(g, h, s, v.tables);
    StoresWhatFits(bank, FinalScores(g.memberOf, g.totalScores), h, s, g, v.tables);
  }
}
