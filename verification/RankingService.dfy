/** The snapshot job and its queries, over the stats table they delete from and insert into. */
module RankingService {
  import opened Collections
  import opened Ordering
  import opened Ranking

  class RankingRepository {
    var userStats: map<StatKey, Stat>

    /** One transaction: the rows of the period start are deleted, then the list inserted; a violated key undoes both. */
    method ReplaceSnapshot(period: StatsPeriod, start: int, insertData: seq<Insert>) returns (r: Result<(), StatsError>)
      modifies this
      ensures
        var done := InsertAll(WithoutStart(old(userStats), period, start), insertData);
        if done.Ok? then r == Ok(()) && userStats == done.value else r == Err(UNIQUE_CONSTRAINT) && userStats == old(userStats)
    {
      var before := userStats;
      userStats := WithoutStart(userStats, period, start);
      var kept := userStats;
      for i := 0 to |insertData|
        invariant InsertAll(kept, insertData[..i]) == Ok(userStats)
      {
        assert insertData[..i + 1][..i] == insertData[..i];
        if insertData[i].key in userStats {
          RefusalLasts(kept, insertData, i + 1);
          userStats := before;
          return Err(UNIQUE_CONSTRAINT);
        }
        userStats := userStats[insertData[i].key := insertData[i].stat];
      }
      assert insertData[..|insertData|] == insertData;
      return Ok(());
    }

    /** The users with a row of the period, in the order the table happens to hold them. */
    method FindUsers(period: StatsPeriod) returns (users: seq<nat>)
      ensures UsersIn(userStats, period, users)
    {
      users := [];
      var left := set k | k in userStats && k.period == period :: k.userId;
      forall u: nat ensures u in left <==> StatKey(u, period) in userStats {
        assert StatKey(u, period).userId == u;
      }
      while left != {}
        invariant Distinct(users) && forall u | u in left :: StatKey(u, period) in userStats && u !in users
        invariant forall u :: StatKey(u, period) in userStats <==> u in users || u in left
        decreases left
      {
        var u :| u in left;
        users := users + [u];
        left := left - {u};
      }
    }

    method FindScoreRankings(period: StatsPeriod) returns (rows: seq<Row>, ghost users: seq<nat>)
      ensures UsersIn(userStats, period, users) && rows == ScoreRankings(userStats, period, users)
    {
      var found := FindUsers(period);
      users := found;
      rows := ScoreRankings(userStats, period, found);
    }

    method FindCoinRankings(period: StatsPeriod) returns (rows: seq<Row>, ghost users: seq<nat>)
      ensures UsersIn(userStats, period, users) && rows == CoinRankings(userStats, period, users)
    {
      var found := FindUsers(period);
      users := found;
      rows := CoinRankings(userStats, period, found);
    }
  }

  lemma {:induction false} RefusalLasts(table: map<StatKey, Stat>, data: seq<Insert>, i: nat)
    requires i <= |data| && InsertAll(table, data[..i]).Err?
    ensures InsertAll(table, data).Err?
    decreases |data|
  {
    if i == |data| {
      assert data[..i] == data;
    } else {
      assert data[..|data| - 1][..i] == data[..i];
      RefusalLasts(table, data[..|data| - 1], i);
    }
  }

  class RankingService {
    const rankingRepository: RankingRepository

    constructor (rankingRepository: RankingRepository)
      ensures this.rankingRepository == rankingRepository
    {
      this.rankingRepository := rankingRepository;
    }

    method SumScores(results: seq<MatchScore>) returns (scoreMap: map<nat, int>)
      ensures scoreMap == Totals(results)
    {
      scoreMap := map[];
      for i := 0 to |results|
        invariant scoreMap == Totals(results[..i])
      {
        assert results[..i + 1][..i] == results[..i];
        var userId := results[i].userId;
        scoreMap := scoreMap[userId := ValueOr(scoreMap, userId, 0) + results[i].score];
      }
      assert results[..|results|] == results;
    }

    method TargetIds(results: seq<MatchScore>, profiles: map<nat, UserProfile>) returns (targetIds: seq<nat>)
      ensures targetIds == Targets(results, profiles)
    {
      var scoreMap := SumScores(results);
      var (coinMap, levelMap) := (Coins(profiles), Levels(profiles));
      var scoreTop4 := IdsOf(TopOf(RowsFor(Ascending(scoreMap.Keys), scoreMap, levelMap)));
      var coinTop4 := IdsOf(TopOf(RowsFor(Ascending(profiles.Keys), coinMap, levelMap)));
      targetIds := Dedup(scoreTop4 + coinTop4);
    }

    /** Aggregate, rank twice, keep the two top fours, replace the rows of the period start, or change nothing. */
    method RebuildSnapshot(period: StatsPeriod, start: int, results: seq<MatchScore>, profiles: map<nat, UserProfile>)
      returns (r: Result<(), StatsError>)
      modifies rankingRepository
      ensures rankingRepository.userStats == Rebuilt(old(rankingRepository.userStats), period, start, results, profiles)
      ensures r == if Rebuild(old(rankingRepository.userStats), period, start, results, profiles).Ok? then Ok(())
                   else Err(UNIQUE_CONSTRAINT)
    {
      var targetIds := TargetIds(results, profiles);
      r := rankingRepository.ReplaceSnapshot(period, start, InsertData(targetIds, period, start, results, profiles));
    }

    method RebuildPeriod(j: Job, period: StatsPeriod) returns (r: Result<(), StatsError>)
      modifies rankingRepository
      ensures
        var done := RebuildFor(old(rankingRepository.userStats), j, period);
        && (r.Ok? <==> done.Ok?)
        && rankingRepository.userStats == if done.Ok? then done.value else old(rankingRepository.userStats)
    {
      r := RebuildSnapshot(period, StartOf(j, period), ResultsOf(j, period), j.profiles);
    }

    /** Daily, weekly, monthly; a refusal leaves the rest of the job undone. */
    method RunSnapshotJobOnce(j: Job) returns (r: Result<(), StatsError>)
      modifies rankingRepository
      ensures rankingRepository.userStats == RunJob(old(rankingRepository.userStats), j)
      ensures r.Ok? <==> Completes(old(rankingRepository.userStats), j, PERIODS)
    {
      assert PERIODS[1..] == [WEEKLY, MONTHLY] && [WEEKLY, MONTHLY][1..] == [MONTHLY] && [MONTHLY][1..] == [];
      NextPeriod(rankingRepository.userStats, j, PERIODS);
      r := RebuildPeriod(j, DAILY);
      if r.Err? { return; }
      NextPeriod(rankingRepository.userStats, j, [WEEKLY, MONTHLY]);
      r := RebuildPeriod(j, WEEKLY);
      if r.Err? { return; }
      NextPeriod(rankingRepository.userStats, j, [MONTHLY]);
      r := RebuildPeriod(j, MONTHLY);
    }

    method GetScoreTop4(period: StatsPeriod) returns (rows: seq<Row>, ghost users: seq<nat>)
      ensures UsersIn(rankingRepository.userStats, period, users)
      ensures rows == ScoreRankings(rankingRepository.userStats, period, users)
    {
      rows, users := rankingRepository.FindScoreRankings(period);
    }

    method GetCoinTop4(period: StatsPeriod) returns (rows: seq<Row>, ghost users: seq<nat>)
      ensures UsersIn(rankingRepository.userStats, period, users)
      ensures rows == CoinRankings(rankingRepository.userStats, period, users)
    {
      rows, users := rankingRepository.FindCoinRankings(period);
    }

    /** Rebuild and ask at once, over a table that holds one start of the period. */
    method RebuildAndRank(period: StatsPeriod, start: int, results: seq<MatchScore>, profiles: map<nat, UserProfile>)
      returns (scores: seq<Row>, coins: seq<Row>)
      requires OneStart(rankingRepository.userStats, period, start) && forall u | u in Totals(results) :: u in profiles
      modifies rankingRepository
      ensures coins == TopOf(CoinRows(profiles))
      ensures Positive(scores) == TopOf(Positive(ScoreRows(results, profiles)))
    {
      var r := RebuildSnapshot(period, start, results, profiles);
      ghost var users;
      scores, users := GetScoreTop4(period);
      ScoreTop4IsExactAboveZero(old(rankingRepository.userStats), period, start, results, profiles, users);
      coins, users := GetCoinTop4(period);
      CoinTop4IsExact(old(rankingRepository.userStats), period, start, results, profiles, users);
    }
  }

  lemma NextPeriod(table: map<StatKey, Stat>, j: Job, periods: seq<StatsPeriod>)
    requires periods != []
    ensures
      var r := RebuildFor(table, j, periods[0]);
      && (r.Ok? ==> RebuildPeriods(table, j, periods) == RebuildPeriods(r.value, j, periods[1..]))
      && (r.Ok? ==> (Completes(table, j, periods) <==> Completes(r.value, j, periods[1..])))
      && (r.Err? ==> RebuildPeriods(table, j, periods) == table && !Completes(table, j, periods))
  {
  }
}
