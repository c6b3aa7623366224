/**
 * Paying a finished match: one transaction upserts a result row per ranked player and pays
 * each row once. Rows and profiles are the two tables involved.
 */
module Payout {
  import opened Collections
  import opened Scoring
  import opened Standings

  datatype ResultKey = ResultKey(matchId: nat, memberId: nat)

  /** `awarded` is what awardedXp and awardedCoin hold once rewardedAt is set. */
  datatype MatchResult = MatchResult(score: int, placement: nat, awarded: Option<Reward>)

  datatype Profile = Profile(exp: int, coin: int)

  datatype Bank = Bank(results: map<ResultKey, MatchResult>, profiles: map<nat, Profile>)

  datatype PayoutError = PROFILE_NOT_FOUND

  // ---------- the transaction as a function ----------

  /** The reward record; a user listed twice keeps the last entry. */
  function RewardMap(results: seq<Placed>): map<nat, Reward> {
    if results == [] then map[]
    else
      var last := results[|results| - 1];
      RewardMap(results[..|results| - 1])[last.userId := RewardOf(last)]
  }

  lemma {:induction false} RewardMapCovers(results: seq<Placed>)
    ensures forall r | r in results :: r.userId in RewardMap(results)
  {
    if results != [] {
      RewardMapCovers(results[..|results| - 1]);
      assert results == results[..|results| - 1] + [results[|results| - 1]];
    }
  }

  /** A missing member id, or 0, means the row is skipped. */
  function MemberOf(memberOf: map<nat, nat>, userId: nat): nat {
    if userId in memberOf then memberOf[userId] else 0
  }

  function AwardOf(bank: Bank, k: ResultKey): Option<Reward> {
    if k in bank.results then bank.results[k].awarded else None
  }

  function Credit(p: Profile, r: Reward): Profile {
    Profile(p.exp + r.exp, p.coin + r.coin)
  }

  function PayOne(bank: Bank, matchId: nat, memberOf: map<nat, nat>, reward: Reward, r: Placed): Option<Bank> {
    var memberId := MemberOf(memberOf, r.userId);
    var k := ResultKey(matchId, memberId);
    if memberId == 0 then Some(bank)
    else if AwardOf(bank, k).Some? then
      Some(Bank(bank.results[k := MatchResult(r.score, r.placement, AwardOf(bank, k))], bank.profiles))
    else if r.userId !in bank.profiles then None
    else
      Some(Bank(bank.results[k := MatchResult(r.score, r.placement, Some(reward))],
                bank.profiles[r.userId := Credit(bank.profiles[r.userId], reward)]))
  }

  /** None: a profile was missing, and the transaction is rolled back. */
  function PayAll(bank: Bank, matchId: nat, memberOf: map<nat, nat>, rewards: map<nat, Reward>, results: seq<Placed>)
    : Option<Bank>
    requires forall r | r in results :: r.userId in rewards
  {
    if results == [] then Some(bank)
    else
      var front := PayAll(bank, matchId, memberOf, rewards, results[..|results| - 1]);
      var last := results[|results| - 1];
      assert last in results;
      if front.None? then None else PayOne(front.value, matchId, memberOf, rewards[last.userId], last)
  }

  datatype Call = Call(matchId: nat, results: seq<Placed>, memberOf: map<nat, nat>)

  function Settle(bank: Bank, c: Call): Option<Bank> {
    RewardMapCovers(c.results);
    PayAll(bank, c.matchId, c.memberOf, RewardMap(c.results), c.results)
  }

  function FinalizeMatch(bank: Bank, c: Call): Bank {
    Or(Settle(bank, c), bank)
  }

  function FinalizeAll(bank: Bank, calls: seq<Call>): Bank {
    if calls == [] then bank else FinalizeMatch(FinalizeAll(bank, calls[..|calls| - 1]), calls[|calls| - 1])
  }

  // ---------- the tables and the service ----------

  class FinishedRepository {
    var results: map<ResultKey, MatchResult>
    var profiles: map<nat, Profile>

    function Contents(): Bank
      reads this
    {
      Bank(results, profiles)
    }

    method UpsertMatchResult(k: ResultKey, score: int, placement: nat) returns (rewardedAt: Option<Reward>)
      modifies this`results
      ensures rewardedAt == AwardOf(old(Contents()), k)
      ensures results == old(results)[k := MatchResult(score, placement, rewardedAt)]
    {
      if k in results {
        results := results[k := results[k].(score := score, placement := placement)];
      } else {
        results := results[k := MatchResult(score, placement, None)];
      }
      rewardedAt := results[k].awarded;
    }

    method ConfirmRewardOnce(k: ResultKey, reward: Reward) returns (count: nat)
      modifies this`results
      ensures count == if k in old(results) && old(results)[k].awarded.None? then 1 else 0
      ensures results == if count == 1 then old(results)[k := old(results)[k].(awarded := Some(reward))] else old(results)
    {
      if k !in results || results[k].awarded.Some? { return 0; }
      results := results[k := results[k].(awarded := Some(reward))];
      return 1;
    }

    method IncrementUserProfile(userId: nat, reward: Reward) returns (r: Result<(), PayoutError>)
      modifies this`profiles
      ensures r == if userId in old(profiles) then Ok(()) else Err(PROFILE_NOT_FOUND)
      ensures profiles ==
              if r.Ok? then old(profiles)[userId := Credit(old(profiles)[userId], reward)] else old(profiles)
    {
      if userId !in profiles { return Err(PROFILE_NOT_FOUND); }
      profiles := profiles[userId := Credit(profiles[userId], reward)];
      return Ok(());
    }
  }

  class MatchFinalizeService {
    const finishedRepository: FinishedRepository

    constructor (finishedRepository: FinishedRepository)
      ensures this.finishedRepository == finishedRepository
    {
      this.finishedRepository := finishedRepository;
    }

    method BuildRewards(finalResults: seq<Placed>) returns (finalRewards: map<nat, Reward>)
      ensures finalRewards == RewardMap(finalResults)
    {
      finalRewards := map[];
      for i := 0 to |finalResults|
        invariant finalRewards == RewardMap(finalResults[..i])
      {
        assert finalResults[..i + 1][..i] == finalResults[..i];
        finalRewards := finalRewards[finalResults[i].userId := RewardOf(finalResults[i])];
      }
      assert finalResults[..|finalResults|] == finalResults;
    }

    method PayResult(matchId: nat, memberOf: map<nat, nat>, reward: Reward, r: Placed)
      returns (done: Result<(), PayoutError>)
      modifies finishedRepository
      ensures
        var paid := PayOne(old(finishedRepository.Contents()), matchId, memberOf, reward, r);
        if paid.Some? then done.Ok? && finishedRepository.Contents() == paid.value else done == Err(PROFILE_NOT_FOUND)
      ensures
        var k := ResultKey(matchId, MemberOf(memberOf, r.userId));
        k.memberId != 0 ==>
          && k in finishedRepository.results && finishedRepository.results[k].score == r.score
          && finishedRepository.results[k].placement == r.placement
    {
      var memberId := MemberOf(memberOf, r.userId);
      if memberId == 0 { return Ok(()); }
      var k := ResultKey(matchId, memberId);
      var rewardedAt := finishedRepository.UpsertMatchResult(k, r.score, r.placement);
      if rewardedAt.Some? { return Ok(()); }
      var count := finishedRepository.ConfirmRewardOnce(k, reward);
      if count != 1 { return Ok(()); }
      done := finishedRepository.IncrementUserProfile(r.userId, reward);
    }

    /** Everything is written or, when a profile is missing, nothing. */
    method FinalizeFromFinalResults(c: Call) returns (r: Result<map<nat, Reward>, PayoutError>)
      modifies finishedRepository
      ensures r == if Settle(old(finishedRepository.Contents()), c).Some? then Ok(RewardMap(c.results)) else Err(PROFILE_NOT_FOUND)
      ensures finishedRepository.Contents() == FinalizeMatch(old(finishedRepository.Contents()), c)
    {
      var rewards := BuildRewards(c.results);
      RewardMapCovers(c.results);
      var before := finishedRepository.Contents();
      for i := 0 to |c.results|
        invariant PayAll(before, c.matchId, c.memberOf, rewards, c.results[..i]) == Some(finishedRepository.Contents())
      {
        assert c.results[..i + 1][..i] == c.results[..i];
        var done := PayResult(c.matchId, c.memberOf, rewards[c.results[i].userId], c.results[i]);
        if done.Err? {
          FailureLasts(before, c.matchId, c.memberOf, rewards, c.results, i + 1);
          finishedRepository.results, finishedRepository.profiles := before.results, before.profiles;
          return Err(done.error);
        }
      }
      assert c.results[..|c.results|] == c.results;
      return Ok(rewards);
    }
  }

  lemma {:induction false} FailureLasts(bank: Bank, matchId: nat, memberOf: map<nat, nat>, rewards: map<nat, Reward>,
                                        results: seq<Placed>, i: nat)
    requires i <= |results| && forall r | r in results :: r.userId in rewards
    requires PayAll(bank, matchId, memberOf, rewards, results[..i]).None?
    ensures PayAll(bank, matchId, memberOf, rewards, results).None?
    decreases |results|
  {
    if i == |results| {
      assert results[..i] == results;
    } else {
      assert results[..|results| - 1][..i] == results[..i];
      FailureLasts(bank, matchId, memberOf, rewards, results[..|results| - 1], i);
    }
  }

  // ---------- the ledger ----------

  datatype Currency = Exp | Coin

  function Worth(r: Reward, c: Currency): int {
    if c == Exp then r.exp else r.coin
  }

  function Balance(p: Profile, c: Currency): int {
    if c == Exp then p.exp else p.coin
  }

  /** The amounts recorded on a user's rewarded results; members belong to users. */
  ghost function Awards(results: map<ResultKey, MatchResult>, owner: map<nat, nat>, userId: nat, c: Currency)
    : map<ResultKey, int>
  {
    map k | k in results && results[k].awarded.Some? && k.memberId in owner && owner[k.memberId] == userId
      :: Worth(results[k].awarded.value, c)
  }

  /** What a profile holds beyond everything recorded as awarded to its user. */
  ghost function Unexplained(bank: Bank, owner: map<nat, nat>, userId: nat, c: Currency): int
    requires userId in bank.profiles
  {
    Balance(bank.profiles[userId], c) - Total(Awards(bank.results, owner, userId, c))
  }

  /** Rows once rewarded keep their amounts, and every gain is explained by a row. */
  ghost predicate Explains(a: Bank, b: Bank, owner: map<nat, nat>) {
    && a.profiles.Keys == b.profiles.Keys
    && (forall k | AwardOf(a, k).Some? :: AwardOf(b, k) == AwardOf(a, k))
    && (forall u, c | u in a.profiles :: Unexplained(b, owner, u, c) == Unexplained(a, owner, u, c))
  }

  ghost predicate Owned(owner: map<nat, nat>, memberOf: map<nat, nat>) {
    forall u | u in memberOf && memberOf[u] != 0 :: memberOf[u] in owner && owner[memberOf[u]] == u
  }

  lemma NewAward(results: map<ResultKey, MatchResult>, k: ResultKey, m: MatchResult, owner: map<nat, nat>, userId: nat, c: Currency)
    requires m.awarded.Some? && (k in results ==> results[k].awarded.None?) && k.memberId in owner
    ensures Total(Awards(results[k := m], owner, userId, c)) ==
            Total(Awards(results, owner, userId, c)) + if owner[k.memberId] == userId then Worth(m.awarded.value, c) else 0
  {
    var before := Awards(results, owner, userId, c);
    if owner[k.memberId] == userId {
      assert Awards(results[k := m], owner, userId, c) == before[k := Worth(m.awarded.value, c)];
      TotalInsert(before, k, Worth(m.awarded.value, c));
    } else {
      assert Awards(results[k := m], owner, userId, c) == before;
    }
  }

  lemma PayOneExplains(bank: Bank, matchId: nat, memberOf: map<nat, nat>, reward: Reward, r: Placed, owner: map<nat, nat>)
    requires Owned(owner, memberOf)
    requires PayOne(bank, matchId, memberOf, reward, r).Some?
    ensures Explains(bank, PayOne(bank, matchId, memberOf, reward, r).value, owner)
  {
    var after := PayOne(bank, matchId, memberOf, reward, r).value;
    var k := ResultKey(matchId, MemberOf(memberOf, r.userId));
    forall u, c | u in bank.profiles ensures Unexplained(after, owner, u, c) == Unexplained(bank, owner, u, c) {
      if k.memberId != 0 && AwardOf(bank, k).None? {
        NewAward(bank.results, k, after.results[k], owner, u, c);
      } else {
        assert Awards(after.results, owner, u, c) == Awards(bank.results, owner, u, c);
      }
    }
  }

  lemma {:induction false} PayAllExplains(bank: Bank, matchId: nat, memberOf: map<nat, nat>, rewards: map<nat, Reward>,
                                          results: seq<Placed>, owner: map<nat, nat>)
    requires Owned(owner, memberOf) && forall r | r in results :: r.userId in rewards
    requires PayAll(bank, matchId, memberOf, rewards, results).Some?
    ensures Explains(bank, PayAll(bank, matchId, memberOf, rewards, results).value, owner)
  {
    if results != [] {
      var front := results[..|results| - 1];
      var last := results[|results| - 1];
      assert last in results;
      PayAllExplains(bank, matchId, memberOf, rewards, front, owner);
      var before := PayAll(bank, matchId, memberOf, rewards, front).value;
      PayOneExplains(before, matchId, memberOf, rewards[last.userId], last, owner);
    }
  }

  /**
   * Over any sequence of finalize calls, repeated and re-scored ones included: a rewarded row
   * keeps its amounts forever, and what each profile gained is exactly what the rows of that
   * user's members gained. So no row is ever paid twice.
   */
  lemma {:induction false} LedgerAgrees(bank: Bank, calls: seq<Call>, owner: map<nat, nat>)
    requires forall c | c in calls :: Owned(owner, c.memberOf)
    ensures Explains(bank, FinalizeAll(bank, calls), owner)
  {
    if calls != [] {
      var front := calls[..|calls| - 1];
      var last := calls[|calls| - 1];
      assert calls == front + [last];
      LedgerAgrees(bank, front, owner);
      var before := FinalizeAll(bank, front);
      RewardMapCovers(last.results);
      if Settle(before, last).Some? {
        PayAllExplains(before, last.matchId, last.memberOf, RewardMap(last.results), last.results, owner);
      }
    }
  }

  // ---------- when a payout fails, and what one pays ----------

  predicate Unpayable(bank: Bank, matchId: nat, memberOf: map<nat, nat>, r: Placed) {
    var memberId := MemberOf(memberOf, r.userId);
    memberId != 0 && AwardOf(bank, ResultKey(matchId, memberId)).None? && r.userId !in bank.profiles
  }

  ghost predicate Lists(results: seq<Placed>, memberOf: map<nat, nat>, memberId: nat) {
    exists r | r in results :: MemberOf(memberOf, r.userId) == memberId
  }

  lemma ListsMore(front: seq<Placed>, last: Placed, memberOf: map<nat, nat>, memberId: nat)
    ensures Lists(front + [last], memberOf, memberId) <==>
            Lists(front, memberOf, memberId) || MemberOf(memberOf, last.userId) == memberId
  {
  }

  lemma PayOneAwards(bank: Bank, matchId: nat, memberOf: map<nat, nat>, reward: Reward, r: Placed, k: ResultKey)
    requires PayOne(bank, matchId, memberOf, reward, r).Some?
    ensures
      var after := PayOne(bank, matchId, memberOf, reward, r).value;
      && after.profiles.Keys == bank.profiles.Keys
      && (AwardOf(after, k).Some? <==>
            AwardOf(bank, k).Some? || (k.matchId == matchId && k.memberId != 0 && MemberOf(memberOf, r.userId) == k.memberId))
  {
  }

  /** A row is awarded after the transaction when it was before, or when the call lists its member. */
  lemma {:induction false} AwardedAfter(bank: Bank, matchId: nat, memberOf: map<nat, nat>, rewards: map<nat, Reward>,
                                        results: seq<Placed>, k: ResultKey)
    requires forall r | r in results :: r.userId in rewards
    requires PayAll(bank, matchId, memberOf, rewards, results).Some?
    ensures
      var after := PayAll(bank, matchId, memberOf, rewards, results).value;
      && after.profiles.Keys == bank.profiles.Keys
      && (AwardOf(after, k).Some? <==>
            AwardOf(bank, k).Some? || (k.matchId == matchId && k.memberId != 0 && Lists(results, memberOf, k.memberId)))
  {
    if results != [] {
      var front := results[..|results| - 1];
      var last := results[|results| - 1];
      assert results == front + [last] && last in results;
      AwardedAfter(bank, matchId, memberOf, rewards, front, k);
      ListsMore(front, last, memberOf, k.memberId);
      PayOneAwards(PayAll(bank, matchId, memberOf, rewards, front).value, matchId, memberOf, rewards[last.userId], last, k);
    }
  }

  /** The call is rolled back exactly when it lists a player with a member id, not yet paid, who has no profile. */
  lemma {:induction false} FailsExactly(bank: Bank, matchId: nat, memberOf: map<nat, nat>, rewards: map<nat, Reward>,
                                        results: seq<Placed>)
    requires Injective(memberOf) && forall r | r in results :: r.userId in rewards
    ensures PayAll(bank, matchId, memberOf, rewards, results).None? <==>
            exists r | r in results :: Unpayable(bank, matchId, memberOf, r)
  {
    if results != [] {
      var front := results[..|results| - 1];
      var last := results[|results| - 1];
      assert results == front + [last] && last in results;
      FailsExactly(bank, matchId, memberOf, rewards, front);
      if PayAll(bank, matchId, memberOf, rewards, front).Some? {
        LastDecides(bank, matchId, memberOf, rewards, front, last);
      } else {
        var r :| r in front && Unpayable(bank, matchId, memberOf, r);
        assert r in results;
      }
    }
  }

  lemma LastDecides(bank: Bank, matchId: nat, memberOf: map<nat, nat>, rewards: map<nat, Reward>, front: seq<Placed>, last: Placed)
    requires Injective(memberOf) && forall r | r in front :: r.userId in rewards
    requires PayAll(bank, matchId, memberOf, rewards, front).Some? && last.userId in rewards
    requires forall r | r in front :: !Unpayable(bank, matchId, memberOf, r)
    ensures PayOne(PayAll(bank, matchId, memberOf, rewards, front).value, matchId, memberOf, rewards[last.userId], last).None? <==>
            Unpayable(bank, matchId, memberOf, last)
  {
  }

  ghost predicate DistinctUsers(results: seq<Placed>) {
    forall i, j | 0 <= i < j < |results| :: results[i].userId != results[j].userId
  }

  /** Everyone listed with a member id is credited once, nobody else changes. */
  lemma {:induction false} PaysEach(bank: Bank, matchId: nat, memberOf: map<nat, nat>, rewards: map<nat, Reward>,
                                    results: seq<Placed>, userId: nat)
    requires Injective(memberOf) && DistinctUsers(results) && forall r | r in results :: r.userId in rewards
    requires forall k | k in bank.results && k.matchId == matchId :: bank.results[k].awarded.None?
    requires PayAll(bank, matchId, memberOf, rewards, results).Some? && userId in bank.profiles
    ensures
      var after := PayAll(bank, matchId, memberOf, rewards, results).value;
      && userId in after.profiles
      && after.profiles[userId] ==
         if MemberOf(memberOf, userId) != 0 && exists r | r in results :: r.userId == userId
         then Credit(bank.profiles[userId], rewards[userId]) else bank.profiles[userId]
  {
    if results != [] {
      var front := results[..|results| - 1];
      var last := results[|results| - 1];
      assert results == front + [last] && last in results;
      PaysEach(bank, matchId, memberOf, rewards, front, userId);
      var k := ResultKey(matchId, MemberOf(memberOf, last.userId));
      AwardedAfter(bank, matchId, memberOf, rewards, front, k);
      assert forall r | r in front :: r.userId != last.userId;
      assert k.memberId != 0 ==> !Lists(front, memberOf, k.memberId);
    }
  }

  lemma {:induction false} RewardMapOf(results: seq<Placed>, r: Placed)
    requires DistinctUsers(results) && r in results
    ensures r.userId in RewardMap(results) && RewardMap(results)[r.userId] == RewardOf(r)
  {
    var front := results[..|results| - 1];
    assert results == front + [results[|results| - 1]];
    if r != results[|results| - 1] {
      RewardMapOf(front, r);
    }
  }

  lemma StandingsAreDistinct(scores: map<nat, int>)
    ensures DistinctUsers(FinalResults(scores))
  {
    var results := FinalResults(scores);
    ResultsAreRanks(scores);
    forall i, j | 0 <= i < j < |results| ensures results[i].userId != results[j].userId {
      assert results[i] in results && results[j] in results;
      assert InOrder(results[i], results[j]);
    }
  }

  /**
   * The first finalize of a match pays every scored player for one plus the number of strictly
   * higher scores, and changes no other profile.
   */
  lemma PaysStandings(bank: Bank, matchId: nat, memberOf: map<nat, nat>, scores: map<nat, int>, userId: nat)
    requires Injective(memberOf) && forall u | u in scores :: u in memberOf && memberOf[u] != 0 && u in bank.profiles
    requires forall k | k in bank.results && k.matchId == matchId :: bank.results[k].awarded.None?
    requires userId in bank.profiles
    ensures
      var c := Call(matchId, FinalResults(scores), memberOf);
      var after := FinalizeMatch(bank, c);
      && Settle(bank, c).Some?
      && userId in after.profiles
      && after.profiles[userId] ==
         if userId in scores
         then Credit(bank.profiles[userId], RewardByPlacement(Some(1 + |Higher(scores, scores[userId])|)))
         else bank.profiles[userId]
  {
    var results := FinalResults(scores);
    ResultsAreRanks(scores);
    RewardMapCovers(results);
    StandingsAreDistinct(scores);
    FailsExactly(bank, matchId, memberOf, RewardMap(results), results);
    PaysEach(bank, matchId, memberOf, RewardMap(results), results, userId);
    if userId in scores {
      var r :| r in results && r.userId == userId;
      RewardMapOf(results, r);
    }
  }
}
