/** The two top fours in plain terms: who is in them, in what order, and that nobody left out is better. */
module RankingLaws {
  import opened Collections
  import opened Ordering
  import opened Ranking

  /** More first, then the higher level, then the smaller id. */
  predicate Better(u: nat, v: nat, amount: map<nat, int>, level: map<nat, int>)
    requires u in amount && v in amount && u in level && v in level
  {
    || amount[u] > amount[v]
    || (amount[u] == amount[v] && level[u] > level[v])
    || (amount[u] == amount[v] && level[u] == level[v] && u < v)
  }

  /** The best four of the candidates, or all of them, best first, each with amount and level. */
  ghost predicate IsTopFour(rows: seq<Row>, amount: map<nat, int>, level: map<nat, int>)
    requires level.Keys == amount.Keys
  {
    && |rows| == (if |amount| <= 4 then |amount| else 4)
    && (forall r | r in rows :: r.id in amount && r.major == amount[r.id] && r.minor == level[r.id])
    && (forall i, j | 0 <= i < j < |rows| :: rows[i].id in amount && rows[j].id in amount && Better(rows[i].id, rows[j].id, amount, level))
    && (forall u, r | u in amount && r in rows && (forall x | x in rows :: x.id != u) :: r.id in amount && Better(r.id, u, amount, level))
  }

  ghost predicate RowsOfEach(rows: seq<Row>, amount: map<nat, int>, level: map<nat, int>)
    requires level.Keys == amount.Keys
  {
    Distinct(rows) && forall r :: r in rows <==> r.id in amount && r == Row(r.id, amount[r.id], level[r.id])
  }

  lemma RowsCounted(rows: seq<Row>, amount: map<nat, int>, level: map<nat, int>)
    requires level.Keys == amount.Keys && RowsOfEach(rows, amount, level)
    ensures |rows| == |amount|
  {
    var ids := IdsOf(rows);
    forall i, j | 0 <= i < j < |ids| ensures ids[i] != ids[j] {
      assert rows[i] in rows && rows[j] in rows;
    }
    forall u ensures u in ids <==> u in amount.Keys {
      if u in amount {
        var r := Row(u, amount[u], level[u]);
        assert r in rows;
        var i :| 0 <= i < |rows| && rows[i] == r;
        assert ids[i] == u;
      }
      if u in ids {
        var i :| 0 <= i < |ids| && ids[i] == u;
        assert rows[i] in rows;
      }
    }
    DistinctCardinality(ids, amount.Keys);
    assert |amount.Keys| == |amount|;
  }

  lemma SortedIsBetter(sorted: seq<Row>, amount: map<nat, int>, level: map<nat, int>, i: nat, j: nat)
    requires level.Keys == amount.Keys && RowsOfEach(sorted, amount, level) && Sorted(sorted) && i < j < |sorted|
    ensures sorted[i].id in amount && sorted[j].id in amount && Better(sorted[i].id, sorted[j].id, amount, level)
  {
    assert sorted[i] in sorted && sorted[j] in sorted && sorted[i] != sorted[j];
    assert !Before(sorted[j], sorted[i]);
  }

  lemma TopIsTopFour(rows: seq<Row>, amount: map<nat, int>, level: map<nat, int>)
    requires level.Keys == amount.Keys && RowsOfEach(rows, amount, level)
    ensures IsTopFour(TopOf(rows), amount, level)
  {
    var (sorted, top) := (Sort(rows), TopOf(rows));
    SortSorts(rows);
    Rearranged(rows, sorted);
    RowsCounted(rows, amount, level);
    forall r | r in top ensures r in sorted {}
    forall i, j | 0 <= i < j < |top| ensures top[i].id in amount && top[j].id in amount && Better(top[i].id, top[j].id, amount, level) {
      SortedIsBetter(sorted, amount, level, i, j);
    }
    forall u, r | u in amount && r in top && (forall x | x in top :: x.id != u)
      ensures r.id in amount && Better(r.id, u, amount, level)
    {
      LeftOutIsWorse(sorted, top, amount, level, u, r);
    }
  }

  lemma LeftOutIsWorse(sorted: seq<Row>, top: seq<Row>, amount: map<nat, int>, level: map<nat, int>, u: nat, r: Row)
    requires level.Keys == amount.Keys && RowsOfEach(sorted, amount, level) && Sorted(sorted) && top <= sorted
    requires u in amount && r in top && forall x | x in top :: x.id != u
    ensures r.id in amount && Better(r.id, u, amount, level)
  {
    assert Row(u, amount[u], level[u]) in sorted;
    var j :| 0 <= j < |sorted| && sorted[j] == Row(u, amount[u], level[u]);
    var i :| 0 <= i < |top| && top[i] == r;
    assert forall k | 0 <= k < |top| :: sorted[k] == top[k] && top[k].id != u;
    SortedIsBetter(sorted, amount, level, i, j);
  }

  // ---------- coins ----------

  function CoinOf(profiles: map<nat, UserProfile>): map<nat, int> {
    map u | u in profiles :: profiles[u].coin
  }

  function LevelOf(profiles: map<nat, UserProfile>): map<nat, int> {
    map u | u in profiles :: profiles[u].level
  }

  /** Right after a rebuild the coin query answers with the four best profiles, in order. */
  lemma CoinQueryIsTopFour(table: map<StatKey, Stat>, period: StatsPeriod, start: int, results: seq<MatchScore>,
                           profiles: map<nat, UserProfile>, users: seq<nat>)
    requires OneStart(table, period, start) && UsersIn(Rebuilt(table, period, start, results, profiles), period, users)
    requires forall u | u in Totals(results) :: u in profiles
    ensures IsTopFour(CoinRankings(Rebuilt(table, period, start, results, profiles), period, users), CoinOf(profiles), LevelOf(profiles))
  {
    CoinTop4IsExact(table, period, start, results, profiles, users);
    var rows := CoinRows(profiles);
    forall r ensures r in rows <==> r.id in profiles && r == Row(r.id, profiles[r.id].coin, profiles[r.id].level) {
      RowsHold(Ascending(profiles.Keys), Coins(profiles), Levels(profiles), r);
    }
    TopIsTopFour(rows, CoinOf(profiles), LevelOf(profiles));
  }

  // ---------- scores ----------

  /** Everyone whose results of the period add up to more than zero, with that sum. */
  function ScoredAboveZero(results: seq<MatchScore>): map<nat, int> {
    map u | u in (set r | r in results && ScoreSum(results, r.userId) > 0 :: r.userId) :: ScoreSum(results, u)
  }

  /** A user without a profile counts as level one. */
  function LevelsOf(users: set<nat>, profiles: map<nat, UserProfile>): map<nat, int> {
    map u | u in users :: if u in profiles then profiles[u].level else 1
  }

  lemma PositiveHolds(rows: seq<Row>, r: Row)
    ensures r in Positive(rows) <==> r in rows && r.major > 0
  {
    PositiveCount(rows, r);
  }

  lemma PositiveDistinct(rows: seq<Row>)
    requires forall r :: multiset(rows)[r] <= 1
    ensures Distinct(Positive(rows))
  {
    var positive := Positive(rows);
    forall i, j | 0 <= i < j < |positive| ensures positive[i] != positive[j] {
      if positive[i] == positive[j] {
        TwiceIfRepeated(positive, i, j);
        PositiveCount(rows, positive[i]);
      }
    }
  }

  lemma PositiveScoreRow(results: seq<MatchScore>, profiles: map<nat, UserProfile>, r: Row)
    ensures
      var amount := ScoredAboveZero(results);
      var level := LevelsOf(amount.Keys, profiles);
      r in Positive(ScoreRows(results, profiles)) <==> r.id in amount && r == Row(r.id, amount[r.id], level[r.id])
  {
    PositiveHolds(ScoreRows(results, profiles), r);
    RowsHold(Ascending(Totals(results).Keys), Totals(results), Levels(profiles), r);
    TotalsAreSums(results, r.id);
    if exists x | x in results :: x.userId == r.id {
      var x :| x in results && x.userId == r.id;
    }
  }

  /** Among those who scored above zero the score query answers with the four best sums, in order. */
  lemma ScoreQueryIsTopFour(table: map<StatKey, Stat>, period: StatsPeriod, start: int, results: seq<MatchScore>,
                            profiles: map<nat, UserProfile>, users: seq<nat>)
    requires OneStart(table, period, start) && UsersIn(Rebuilt(table, period, start, results, profiles), period, users)
    ensures
      var amount := ScoredAboveZero(results);
      IsTopFour(Positive(ScoreRankings(Rebuilt(table, period, start, results, profiles), period, users)), amount,
                LevelsOf(amount.Keys, profiles))
  {
    var amount := ScoredAboveZero(results);
    ScoreTop4IsExactAboveZero(table, period, start, results, profiles, users);
    DistinctRows(Ascending(Totals(results).Keys), Totals(results), Levels(profiles));
    PositiveDistinct(ScoreRows(results, profiles));
    forall r
      ensures r in Positive(ScoreRows(results, profiles)) <==>
              r.id in amount && r == Row(r.id, amount[r.id], LevelsOf(amount.Keys, profiles)[r.id])
    {
      PositiveScoreRow(results, profiles, r);
    }
    TopIsTopFour(Positive(ScoreRows(results, profiles)), amount, LevelsOf(amount.Keys, profiles));
  }
}
