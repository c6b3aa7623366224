/** From ratings to coins: what the payout of a finished match credits, over every run that reaches it. */
module MatchPayout {
  import opened Collections
  import opened GameTypes
  import opened Scoring
  import opened Standings
  import opened SessionInvariants
  import opened SessionRuns
  import opened MatchHistory
  import opened MatchScores
  import opened Payout

  /** Remaining players with a drawing committed in a merged round. */
  ghost function Scored(s: Start, g: GameState, t: Tables): set<nat> {
    set u | u in g.memberOf && Drew(s.matchId, g.memberOf[u], MergedThrough(g), t.drawings)
  }

  /** What a player earned: the latest ratings given over the merged rounds. */
  ghost function EarnedBy(h: History, s: Start, g: GameState, userId: nat): int
    requires userId in g.memberOf
  {
    if MergedThrough(g) < 0 then 0 else Earned(h.ratings, s, g.memberOf[userId], MergedThrough(g))
  }

  ghost function Ahead(h: History, s: Start, g: GameState, t: Tables, userId: nat): set<nat>
    requires userId in g.memberOf
  {
    set u | u in Scored(s, g, t) && EarnedBy(h, s, g, u) > EarnedBy(h, s, g, userId)
  }

  /** The scores read back from the record are what the ratings earned, for just those who drew. */
  ghost predicate ScoresFit(scores: map<nat, int>, h: History, s: Start, g: GameState, t: Tables) {
    && scores.Keys == Scored(s, g, t)
    && forall u | u in scores :: scores[u] == EarnedBy(h, s, g, u)
  }

  lemma ScoreInTerms(g: GameState, h: History, s: Start, t: Tables, u: nat)
    requires GameOk(g) && g.matchId == s.matchId && Shrinks(s.memberOf, g.memberOf) && u in g.memberOf
    requires DrawingsOk(s, g, t.drawings) && TotalsOk(s, g, t.drawings, t.votes) && VotesOk(h, s, t.votes, t.drawings)
    ensures u in FinalScores(g.memberOf, g.totalScores) <==> u in Scored(s, g, t)
    ensures u in FinalScores(g.memberOf, g.totalScores) ==>
              FinalScores(g.memberOf, g.totalScores)[u] == EarnedBy(h, s, g, u)
  {
    ScoreOfUser(g, h, s, t, u);
  }

  lemma FitsEach(scores: map<nat, int>, h: History, s: Start, g: GameState, t: Tables)
    requires scores.Keys <= g.memberOf.Keys
    requires forall u | u in g.memberOf :: u in scores <==> u in Scored(s, g, t)
    requires forall u | u in scores :: scores[u] == EarnedBy(h, s, g, u)
    ensures ScoresFit(scores, h, s, g, t)
  {
  }

  lemma ScoresInTerms(g: GameState, h: History, s: Start, t: Tables)
    requires GameOk(g) && g.matchId == s.matchId && Shrinks(s.memberOf, g.memberOf)
    requires DrawingsOk(s, g, t.drawings) && TotalsOk(s, g, t.drawings, t.votes) && VotesOk(h, s, t.votes, t.drawings)
    ensures ScoresFit(FinalScores(g.memberOf, g.totalScores), h, s, g, t)
  {
    var scores := FinalScores(g.memberOf, g.totalScores);
    forall u | u in g.memberOf ensures u in scores <==> u in Scored(s, g, t) { ScoreInTerms(g, h, s, t, u); }
    forall u | u in scores ensures scores[u] == EarnedBy(h, s, g, u) { ScoreInTerms(g, h, s, t, u); }
    FitsEach(scores, h, s, g, t);
  }

  /** What a place pays, by the number of players ahead; from five on it stays the same. */
  const PRIZES: seq<Reward> := [Reward(120, 80), Reward(90, 60), Reward(70, 45), Reward(50, 30), Reward(40, 25), Reward(30, 20)]

  function Prize(ahead: nat): Reward {
    PRIZES[if ahead < 5 then ahead else 5]
  }

  lemma PrizeOfPlace(ahead: nat)
    ensures RewardByPlacement(Some(1 + ahead)) == Prize(ahead)
  {
  }

  /** The profile is credited once the prize of the place the ratings earn, or not at all. */
  ghost predicate PaidFor(before: Bank, after: Bank, h: History, s: Start, g: GameState, t: Tables, userId: nat) {
    && userId in before.profiles && userId in after.profiles
    && after.profiles[userId] ==
       if userId in Scored(s, g, t)
       then
         var (p, prize) := (before.profiles[userId], Prize(|Ahead(h, s, g, t, userId)|));
         Profile(p.exp + prize.exp, p.coin + prize.coin)
       else before.profiles[userId]
  }

  lemma AheadIsHigher(scores: map<nat, int>, h: History, s: Start, g: GameState, t: Tables, userId: nat)
    requires ScoresFit(scores, h, s, g, t) && userId in scores
    ensures userId in g.memberOf && Ahead(h, s, g, t, userId) == Higher(scores, scores[userId])
  {
  }

  lemma PaysWhatFits(bank: Bank, scores: map<nat, int>, h: History, s: Start, g: GameState, t: Tables, userId: nat)
    requires ScoresFit(scores, h, s, g, t) && MembersOk(g.memberOf) && userId in bank.profiles
    requires forall u | u in g.memberOf :: u in bank.profiles
    requires forall k | k in bank.results && k.matchId == g.matchId :: bank.results[k].awarded.None?
    ensures PaidFor(bank, FinalizeMatch(bank, Call(g.matchId, FinalResults(scores), g.memberOf)), h, s, g, t, userId)
  {
    var after := FinalizeMatch(bank, Call(g.matchId, FinalResults(scores), g.memberOf));
    PaysStandings(bank, g.matchId, g.memberOf, scores, userId);
    PaidAsRanked(bank, after, scores, h, s, g, t, userId);
  }

  lemma PaidAsRanked(before: Bank, after: Bank, scores: map<nat, int>, h: History, s: Start, g: GameState, t: Tables, userId: nat)
    requires ScoresFit(scores, h, s, g, t) && userId in before.profiles && userId in after.profiles
    requires after.profiles[userId] ==
             if userId in scores
             then Credit(before.profiles[userId], RewardByPlacement(Some(1 + |Higher(scores, scores[userId])|)))
             else before.profiles[userId]
    ensures PaidFor(before, after, h, s, g, t, userId)
  {
    if userId in scores {
      AheadIsHigher(scores, h, s, g, t, userId);
      PrizeOfPlace(|Higher(scores, scores[userId])|);
    }
  }

  /** What advanceFromRoundSummary hands over when the last round is done. */
  ghost function PayoutCall(g: GameState): Call {
    Call(g.matchId, FinalResults(FinalScores(g.memberOf, g.totalScores)), g.memberOf)
  }

  /**
   * Whatever the clients did before: paying the standings of a match not yet paid credits each
   * remaining player who drew with the reward of the place their latest ratings earn, one below
   * the number of players strictly ahead, and leaves every other profile as it was.
   */
  lemma PayoutFollowsRatings(w: World, s: Start, now: int, inputs: seq<Input>, bank: Bank, userId: nat)
    requires Begins(w, s) && Match(w, s, now, inputs).game.Some? && userId in bank.profiles
    requires forall u | u in s.memberOf :: u in bank.profiles
    requires forall k | k in bank.results && k.matchId == s.matchId :: bank.results[k].awarded.None?
    ensures
      var v := Match(w, s, now, inputs);
      PaidFor(bank, FinalizeMatch(bank, PayoutCall(v.game.value)), MatchRecord(w, s, now, inputs), s, v.game.value, v.tables, userId)
  {
    MatchOk(w, s, now, inputs);
    PaysLedger(Match(w, s, now, inputs), MatchRecord(w, s, now, inputs), s, bank, userId);
  }

  lemma PaysLedger(v: World, h: History, s: Start, bank: Bank, userId: nat)
    requires WorldOk(v) && LedgerOk(v, h, s) && v.game.Some? && userId in bank.profiles
    requires forall u | u in s.memberOf :: u in bank.profiles
    requires forall k | k in bank.results && k.matchId == s.matchId :: bank.results[k].awarded.None?
    ensures PaidFor(bank, FinalizeMatch(bank, PayoutCall(v.game.value)), h, s, v.game.value, v.tables, userId)
  {
    var g := v.game.value;
    ScoresInTerms(g, h, s, v.tables);
    PaysWhatFits(bank, FinalScores(g.memberOf, g.totalScores), h, s, g, v.tables, userId);
  }
}
