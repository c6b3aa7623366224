/**
 * The ranking snapshot: a table rebuilt from match results and profiles, meant to answer
 * top-4 questions about everybody with a handful of rows.
 */
module Ranking {
  import opened Collections
  import opened Ordering

  datatype StatsPeriod = DAILY | WEEKLY | MONTHLY

  datatype UserProfile = UserProfile(coin: int, level: int)

  /** A completed match's result within the period's bounds. */
  datatype MatchScore = MatchScore(userId: nat, score: int)

  /** The table's unique key; the period's start is not part of it. */
  datatype StatKey = StatKey(userId: nat, period: StatsPeriod)

  datatype Stat = Stat(periodStart: int, totalScore: int, coinBalance: int, level: int)

  datatype Insert = Insert(key: StatKey, stat: Stat)

  datatype StatsError = UNIQUE_CONSTRAINT

  const TOP: nat := 4

  function ValueOr(m: map<nat, int>, u: nat, fallback: int): int {
    if u in m then m[u] else fallback
  }

  /** scoreMap: each result added to its user's running total. */
  function Totals(results: seq<MatchScore>): map<nat, int> {
    if results == [] then map[]
    else
      var before := Totals(results[..|results| - 1]);
      var r := results[|results| - 1];
      before[r.userId := ValueOr(before, r.userId, 0) + r.score]
  }

  function Coins(profiles: map<nat, UserProfile>): map<nat, int> {
    map u | u in profiles :: profiles[u].coin
  }

  function Levels(profiles: map<nat, UserProfile>): map<nat, int> {
    map u | u in profiles :: profiles[u].level
  }

  function RowOf(u: nat, majors: map<nat, int>, levels: map<nat, int>): Row {
    Row(u, ValueOr(majors, u, 0), ValueOr(levels, u, 1))
  }

  function RowsFor(users: seq<nat>, majors: map<nat, int>, levels: map<nat, int>): (rows: seq<Row>)
    ensures |rows| == |users| && forall i | 0 <= i < |users| :: rows[i] == RowOf(users[i], majors, levels)
  {
    seq(|users|, i requires 0 <= i < |users| => RowOf(users[i], majors, levels))
  }

  function IdsOf(rows: seq<Row>): (ids: seq<nat>)
    ensures |ids| == |rows| && forall i | 0 <= i < |rows| :: ids[i] == rows[i].id
  {
    seq(|rows|, i requires 0 <= i < |rows| => rows[i].id)
  }

  function TopOf(rows: seq<Row>): seq<Row> {
    Take(Sort(rows), TOP)
  }

  /** Everyone who scored in the period, ranked by summed score, level and id. */
  function ScoreRows(results: seq<MatchScore>, profiles: map<nat, UserProfile>): seq<Row> {
    RowsFor(Ascending(Totals(results).Keys), Totals(results), Levels(profiles))
  }

  /** Every profile, ranked by coin, level and id. */
  function CoinRows(profiles: map<nat, UserProfile>): seq<Row> {
    RowsFor(Ascending(profiles.Keys), Coins(profiles), Levels(profiles))
  }

  /** The users the snapshot keeps: the two top fours, each once. */
  function Targets(results: seq<MatchScore>, profiles: map<nat, UserProfile>): seq<nat> {
    Dedup(IdsOf(TopOf(ScoreRows(results, profiles))) + IdsOf(TopOf(CoinRows(profiles))))
  }

  function StatOf(u: nat, start: int, results: seq<MatchScore>, profiles: map<nat, UserProfile>): Stat {
    Stat(start, ValueOr(Totals(results), u, 0), ValueOr(Coins(profiles), u, 0), ValueOr(Levels(profiles), u, 1))
  }

  // ---------- replacing the snapshot ----------

  function WithoutStart(table: map<StatKey, Stat>, period: StatsPeriod, start: int): map<StatKey, Stat> {
    map k | k in table && !(k.period == period && table[k].periodStart == start) :: table[k]
  }

  /** Rows inserted one after another; a key already present violates the unique index. */
  function InsertAll(table: map<StatKey, Stat>, data: seq<Insert>): Result<map<StatKey, Stat>, StatsError> {
    if data == [] then Ok(table)
    else
      var front := InsertAll(table, data[..|data| - 1]);
      var last := data[|data| - 1];
      if front.Err? then front
      else if last.key in front.value then Err(UNIQUE_CONSTRAINT)
      else Ok(front.value[last.key := last.stat])
  }

  function InsertData(targets: seq<nat>, period: StatsPeriod, start: int, results: seq<MatchScore>,
                      profiles: map<nat, UserProfile>): (data: seq<Insert>)
    ensures |data| == |targets|
    ensures forall i | 0 <= i < |targets| ::
              data[i] == Insert(StatKey(targets[i], period), StatOf(targets[i], start, results, profiles))
  {
    seq(|targets|, i requires 0 <= i < |targets| =>
      Insert(StatKey(targets[i], period), StatOf(targets[i], start, results, profiles)))
  }

  /** Delete the rows of the period start, then insert one row per target. */
  function Rebuild(table: map<StatKey, Stat>, period: StatsPeriod, start: int, results: seq<MatchScore>,
                   profiles: map<nat, UserProfile>): Result<map<StatKey, Stat>, StatsError>
  {
    InsertAll(WithoutStart(table, period, start), InsertData(Targets(results, profiles), period, start, results, profiles))
  }

  /** What the transaction leaves: all of it, or the table as it was. */
  function Rebuilt(table: map<StatKey, Stat>, period: StatsPeriod, start: int, results: seq<MatchScore>,
                   profiles: map<nat, UserProfile>): map<StatKey, Stat>
  {
    var r := Rebuild(table, period, start, results, profiles);
    if r.Ok? then r.value else table
  }

  // ---------- the queries ----------

  /** The users with a row of the period, in whatever order the table holds them. */
  ghost predicate UsersIn(table: map<StatKey, Stat>, period: StatsPeriod, users: seq<nat>) {
    Distinct(users) && forall u :: u in users <==> StatKey(u, period) in table
  }

  /** The query filters by period only, whatever start a row has. */
  function ScoreRankings(table: map<StatKey, Stat>, period: StatsPeriod, users: seq<nat>): seq<Row>
    requires forall u | u in users :: StatKey(u, period) in table
  {
    TopOf(seq(|users|, i requires 0 <= i < |users| =>
      var s := table[StatKey(users[i], period)]; Row(users[i], s.totalScore, s.level)))
  }

  function CoinRankings(table: map<StatKey, Stat>, period: StatsPeriod, users: seq<nat>): seq<Row>
    requires forall u | u in users :: StatKey(u, period) in table
  {
    TopOf(seq(|users|, i requires 0 <= i < |users| =>
      var s := table[StatKey(users[i], period)]; Row(users[i], s.coinBalance, s.level)))
  }

  // ---------- totals ----------

  /** The reference sum of one user's scores. */
  function ScoreSum(results: seq<MatchScore>, u: nat): int {
    if results == [] then 0 else (if results[0].userId == u then results[0].score else 0) + ScoreSum(results[1..], u)
  }

  lemma {:induction false} ScoreSumAppend(a: seq<MatchScore>, r: MatchScore, u: nat)
    ensures ScoreSum(a + [r], u) == ScoreSum(a, u) + if r.userId == u then r.score else 0
  {
    if a == [] {
      assert [r][1..] == [];
      assert a + [r] == [r];
    } else {
      assert (a + [r])[1..] == a[1..] + [r];
      ScoreSumAppend(a[1..], r, u);
    }
  }

  lemma {:induction false} TotalsAreSums(results: seq<MatchScore>, u: nat)
    ensures ValueOr(Totals(results), u, 0) == ScoreSum(results, u)
    ensures u in Totals(results) <==> exists r | r in results :: r.userId == u
  {
    if results != [] {
      var front := results[..|results| - 1];
      var last := results[|results| - 1];
      assert results == front + [last];
      TotalsAreSums(front, u);
      ScoreSumAppend(front, last, u);
      assert last in results;
    }
  }

  // ---------- the top of a part is the top of the whole ----------

  lemma SameHead(p: seq<Row>, s: seq<Row>)
    requires Sorted(p) && Sorted(s) && p != []
    requires multiset(s) <= multiset(p) && p[0] in multiset(s)
    ensures s != [] && s[0] == p[0]
  {
    assert s[0] in multiset(s);
    var i :| 0 <= i < |p| && p[i] == s[0];
    var j :| 0 <= j < |s| && s[j] == p[0];
    assert i > 0 ==> !Before(p[i], p[0]);
    assert j > 0 ==> !Before(s[j], s[0]);
  }

  lemma TailWithin(p: seq<Row>, s: seq<Row>)
    requires p != [] && s != [] && p[0] == s[0] && multiset(s) <= multiset(p)
    ensures multiset(s[1..]) <= multiset(p[1..])
  {
    TailBag(p);
    TailBag(s);
  }

  /** A sorted part that contains the first n of the sorted whole begins with them. */
  lemma SameStart(p: seq<Row>, s: seq<Row>, n: nat)
    requires 0 < n <= |p| && n <= |s| && p[0] == s[0] && s[1..][..n - 1] == p[1..][..n - 1]
    ensures s[..n] == p[..n]
  {
    assert s[..n] == [s[0]] + s[1..][..n - 1] && p[..n] == [p[0]] + p[1..][..n - 1];
  }

  lemma {:induction false} PartBegins(p: seq<Row>, s: seq<Row>, n: nat)
    requires Sorted(p) && Sorted(s) && n <= |p|
    requires multiset(s) <= multiset(p) && multiset(p[..n]) <= multiset(s)
    ensures n <= |s| && s[..n] == p[..n]
    decreases n
  {
    if n > 0 {
      var top := p[..n];
      assert top[0] in multiset(top);
      SameHead(p, s);
      TailWithin(p, s);
      TailWithin(s, top);
      assert p[1..][..n - 1] == top[1..];
      PartBegins(p[1..], s[1..], n - 1);
      SameStart(p, s, n);
    }
  }

  lemma TopOfPart(whole: seq<Row>, part: seq<Row>)
    requires multiset(part) <= multiset(whole) && multiset(TopOf(whole)) <= multiset(part)
    ensures TopOf(part) == TopOf(whole)
  {
    var (p, s) := (Sort(whole), Sort(part));
    SortSorts(whole);
    SortSorts(part);
    var n := |TopOf(whole)|;
    assert p[..n] == TopOf(whole);
    PartBegins(p, s, n);
    SizeOfPart(multiset(s), multiset(p));
    assert |s| == |multiset(s)| && |p| == |multiset(p)|;
  }

  lemma SizeOfPart(a: multiset<Row>, b: multiset<Row>)
    requires a <= b
    ensures |a| <= |b|
  {
    assert b == a + (b - a);
  }

  lemma BagWithin(a: seq<Row>, b: seq<Row>)
    requires forall r :: multiset(a)[r] <= 1
    requires forall r | r in a :: r in b
    ensures multiset(a) <= multiset(b)
  {
    forall r | r in multiset(a) ensures multiset(a)[r] <= multiset(b)[r] {
      assert r in a && r in b;
    }
  }

  lemma DistinctRows(users: seq<nat>, majors: map<nat, int>, levels: map<nat, int>)
    requires Distinct(users)
    ensures forall r :: multiset(RowsFor(users, majors, levels))[r] <= 1
    ensures forall r :: multiset(TopOf(RowsFor(users, majors, levels)))[r] <= 1
  {
    var rows := RowsFor(users, majors, levels);
    assert Distinct(rows);
    forall r ensures multiset(rows)[r] <= 1 && multiset(TopOf(rows))[r] <= 1 {
      OnceInDistinct(rows, r);
      var sorted := Sort(rows);
      var n := |TopOf(rows)|;
      assert sorted == sorted[..n] + sorted[n..] && TopOf(rows) == sorted[..n];
    }
  }

  lemma RowsHold(users: seq<nat>, majors: map<nat, int>, levels: map<nat, int>, r: Row)
    ensures r in RowsFor(users, majors, levels) <==> r.id in users && r == RowOf(r.id, majors, levels)
  {
  }

  lemma TopHolds(rows: seq<Row>, r: Row)
    requires r in TopOf(rows)
    ensures r in rows && r.id in IdsOf(TopOf(rows))
  {
    assert r in Sort(rows);
    assert r in multiset(Sort(rows));
    var i :| 0 <= i < |TopOf(rows)| && TopOf(rows)[i] == r;
    assert IdsOf(TopOf(rows))[i] == r.id;
  }

  // ---------- positive rows come first ----------

  function Positive(rows: seq<Row>): (r: seq<Row>)
    ensures forall x | x in r :: x.major > 0
  {
    if rows == [] then []
    else if rows[0].major > 0 then [rows[0]] + Positive(rows[1..])
    else Positive(rows[1..])
  }

  function NonPositive(rows: seq<Row>): (r: seq<Row>)
    ensures forall x | x in r :: x.major <= 0
  {
    if rows == [] then []
    else if rows[0].major <= 0 then [rows[0]] + NonPositive(rows[1..])
    else NonPositive(rows[1..])
  }

  lemma {:induction false} PositiveBag(rows: seq<Row>)
    ensures multiset(Positive(rows)) + multiset(NonPositive(rows)) == multiset(rows)
  {
    if rows != [] {
      PositiveBag(rows[1..]);
      assert rows == [rows[0]] + rows[1..];
    }
  }

  lemma PositiveCount(rows: seq<Row>, r: Row)
    ensures multiset(Positive(rows))[r] == if r.major > 0 then multiset(rows)[r] else 0
  {
    PositiveBag(rows);
    assert multiset(rows)[r] == multiset(Positive(rows))[r] + multiset(NonPositive(rows))[r];
    if r.major > 0 {
      assert r !in NonPositive(rows);
    } else {
      assert r !in Positive(rows);
    }
  }

  lemma {:induction false} PositiveParts(a: seq<Row>, b: seq<Row>)
    requires (forall x | x in a :: x.major > 0) && forall x | x in b :: x.major <= 0
    ensures Positive(a + b) == a
  {
    if a != [] {
      assert (a + b)[1..] == a[1..] + b;
      PositiveParts(a[1..], b);
    } else if b != [] {
      assert a + b == b && b[1..] == [] + b[1..];
      PositiveParts([], b[1..]);
    } else {
      assert a + b == [];
    }
  }

  lemma SortSplits(rows: seq<Row>)
    ensures Sort(rows) == Sort(Positive(rows)) + Sort(NonPositive(rows))
  {
    var (a, b) := (Sort(Positive(rows)), Sort(NonPositive(rows)));
    SortSorts(rows);
    PartsSorted(rows);
    PositiveBag(rows);
    SortedUnique(Sort(rows), a + b);
  }

  lemma PartsSorted(rows: seq<Row>)
    ensures Sorted(Sort(Positive(rows)) + Sort(NonPositive(rows)))
  {
    SortSorts(Positive(rows));
    SortSorts(NonPositive(rows));
    SortKeepsSigns(rows);
  }

  lemma SortKeepsSigns(rows: seq<Row>)
    ensures forall x | x in Sort(Positive(rows)) :: x.major > 0
    ensures forall x | x in Sort(NonPositive(rows)) :: x.major <= 0
  {
    forall x | x in Sort(Positive(rows)) ensures x.major > 0 {
      assert x in multiset(Sort(Positive(rows)));
    }
    forall x | x in Sort(NonPositive(rows)) ensures x.major <= 0 {
      assert x in multiset(Sort(NonPositive(rows)));
    }
  }

  lemma TakePositives(a: seq<Row>, b: seq<Row>)
    requires (forall x | x in a :: x.major > 0) && forall x | x in b :: x.major <= 0
    ensures Positive(Take(a + b, TOP)) == Take(a, TOP)
  {
    var (n, m) := (|Take(a, TOP)|, |Take(a + b, TOP)| - |Take(a, TOP)|);
    assert Take(a + b, TOP) == a[..n] + b[..m];
    PositiveParts(a[..n], b[..m]);
  }

  lemma PositivesOfTop(rows: seq<Row>)
    ensures Positive(TopOf(rows)) == TopOf(Positive(rows))
  {
    SortSplits(rows);
    SortKeepsSigns(rows);
    TakePositives(Sort(Positive(rows)), Sort(NonPositive(rows)));
  }

  // ---------- when a rebuild goes through ----------

  lemma {:induction false} InsertsAt(table: map<StatKey, Stat>, data: seq<Insert>, k: StatKey)
    requires InsertAll(table, data).Ok?
    ensures
      var after := InsertAll(table, data).value;
      && (k in after <==> k in table || exists i | 0 <= i < |data| :: data[i].key == k)
      && (k in table ==> after[k] == table[k])
      && (forall i | 0 <= i < |data| && data[i].key == k :: k !in table && after[k] == data[i].stat)
  {
    if data != [] {
      InsertsAt(table, data[..|data| - 1], k);
    }
  }

  lemma {:induction false} InsertsExactly(table: map<StatKey, Stat>, data: seq<Insert>)
    requires forall i, j | 0 <= i < j < |data| :: data[i].key != data[j].key
    ensures InsertAll(table, data).Ok? <==> forall i | 0 <= i < |data| :: data[i].key !in table
  {
    if data != [] {
      var front := data[..|data| - 1];
      InsertsExactly(table, front);
      if InsertAll(table, front).Ok? { InsertsAt(table, front, data[|data| - 1].key); }
    }
  }

  /** The user already has a row of the period, of another start than the one rebuilt. */
  predicate HeldElsewhere(table: map<StatKey, Stat>, period: StatsPeriod, start: int, u: nat) {
    StatKey(u, period) in table && table[StatKey(u, period)].periodStart != start
  }

  lemma TargetsOnce(results: seq<MatchScore>, profiles: map<nat, UserProfile>, period: StatsPeriod, start: int)
    ensures
      var data := InsertData(Targets(results, profiles), period, start, results, profiles);
      forall i, j | 0 <= i < j < |data| :: data[i].key != data[j].key
  {
    assert Distinct(Targets(results, profiles));
  }

  /**
   * A rebuild goes through if and only if no user it would keep holds a row of the period from
   * another start; otherwise the insert violates the unique key and the delete is undone too.
   */
  lemma RebuildsExactly(table: map<StatKey, Stat>, period: StatsPeriod, start: int, results: seq<MatchScore>,
                        profiles: map<nat, UserProfile>)
    ensures Rebuild(table, period, start, results, profiles).Ok? <==>
            forall u | u in Targets(results, profiles) :: !HeldElsewhere(table, period, start, u)
  {
    var (targets, kept) := (Targets(results, profiles), WithoutStart(table, period, start));
    var data := InsertData(targets, period, start, results, profiles);
    TargetsOnce(results, profiles, period, start);
    InsertsExactly(kept, data);
    forall i | 0 <= i < |data| ensures data[i].key in kept <==> HeldElsewhere(table, period, start, targets[i]) {}
    forall u | u in targets ensures HeldElsewhere(table, period, start, u) <==> StatKey(u, period) in kept {}
  }

  /** After a rebuild that went through: the targets' new rows, and every row that was not of this start. */
  lemma RebuiltAt(table: map<StatKey, Stat>, period: StatsPeriod, start: int, results: seq<MatchScore>,
                  profiles: map<nat, UserProfile>, k: StatKey)
    requires Rebuild(table, period, start, results, profiles).Ok?
    ensures
      var after := Rebuilt(table, period, start, results, profiles);
      if k.period == period && k.userId in Targets(results, profiles)
      then k in after && after[k] == StatOf(k.userId, start, results, profiles)
      else if k in table && !(k.period == period && table[k].periodStart == start) then k in after && after[k] == table[k]
      else k !in after
  {
    var (targets, kept) := (Targets(results, profiles), WithoutStart(table, period, start));
    var data := InsertData(targets, period, start, results, profiles);
    InsertsAt(kept, data, k);
    if k.period == period && k.userId in targets {
      var i :| 0 <= i < |targets| && targets[i] == k.userId;
      assert data[i].key == k;
    } else {
      forall i | 0 <= i < |data| ensures data[i].key != k {
        assert targets[i] in targets;
      }
    }
  }

  // ---------- the snapshot answers ----------

  ghost predicate OneStart(table: map<StatKey, Stat>, period: StatsPeriod, start: int) {
    forall k | k in table && k.period == period :: table[k].periodStart == start
  }

  lemma OneStartRebuilds(table: map<StatKey, Stat>, period: StatsPeriod, start: int, results: seq<MatchScore>,
                         profiles: map<nat, UserProfile>)
    requires OneStart(table, period, start)
    ensures Rebuild(table, period, start, results, profiles).Ok?
  {
    RebuildsExactly(table, period, start, results, profiles);
  }

  lemma UsersAreTargets(table: map<StatKey, Stat>, period: StatsPeriod, start: int, results: seq<MatchScore>,
                        profiles: map<nat, UserProfile>, users: seq<nat>)
    requires OneStart(table, period, start) && UsersIn(Rebuilt(table, period, start, results, profiles), period, users)
    ensures forall u :: u in users <==> u in Targets(results, profiles)
    ensures forall u | u in users :: Rebuilt(table, period, start, results, profiles)[StatKey(u, period)] == StatOf(u, start, results, profiles)
  {
    OneStartRebuilds(table, period, start, results, profiles);
    forall u: nat
      ensures u in users <==> u in Targets(results, profiles)
      ensures u in users ==> Rebuilt(table, period, start, results, profiles)[StatKey(u, period)] == StatOf(u, start, results, profiles)
    {
      RebuiltAt(table, period, start, results, profiles, StatKey(u, period));
    }
  }

  /** What a query reads right after a rebuild: one row per target, with the values of the moment. */
  lemma ReadsTargets(table: map<StatKey, Stat>, period: StatsPeriod, start: int, results: seq<MatchScore>,
                     profiles: map<nat, UserProfile>, users: seq<nat>)
    requires OneStart(table, period, start) && UsersIn(Rebuilt(table, period, start, results, profiles), period, users)
    ensures forall u :: u in users <==> u in Targets(results, profiles)
    ensures
      var after := Rebuilt(table, period, start, results, profiles);
      && ScoreRankings(after, period, users) == TopOf(RowsFor(users, Totals(results), Levels(profiles)))
      && CoinRankings(after, period, users) == TopOf(RowsFor(users, Coins(profiles), Levels(profiles)))
  {
    UsersAreTargets(table, period, start, results, profiles, users);
    ReadsStats(Rebuilt(table, period, start, results, profiles), period, start, users, results, profiles);
  }

  lemma ReadsStats(table: map<StatKey, Stat>, period: StatsPeriod, start: int, users: seq<nat>, results: seq<MatchScore>,
                   profiles: map<nat, UserProfile>)
    requires forall u | u in users :: StatKey(u, period) in table && table[StatKey(u, period)] == StatOf(u, start, results, profiles)
    ensures ScoreRankings(table, period, users) == TopOf(RowsFor(users, Totals(results), Levels(profiles)))
    ensures CoinRankings(table, period, users) == TopOf(RowsFor(users, Coins(profiles), Levels(profiles)))
  {
    assert seq(|users|, i requires 0 <= i < |users| =>
             var s := table[StatKey(users[i], period)]; Row(users[i], s.totalScore, s.level))
           == RowsFor(users, Totals(results), Levels(profiles));
    assert seq(|users|, i requires 0 <= i < |users| =>
             var s := table[StatKey(users[i], period)]; Row(users[i], s.coinBalance, s.level))
           == RowsFor(users, Coins(profiles), Levels(profiles));
  }

  /** With a profile for every scored user, the coin query answers for everybody. */
  lemma CoinTop4IsExact(table: map<StatKey, Stat>, period: StatsPeriod, start: int, results: seq<MatchScore>,
                        profiles: map<nat, UserProfile>, users: seq<nat>)
    requires OneStart(table, period, start) && UsersIn(Rebuilt(table, period, start, results, profiles), period, users)
    requires forall u | u in Totals(results) :: u in profiles
    ensures CoinRankings(Rebuilt(table, period, start, results, profiles), period, users) == TopOf(CoinRows(profiles))
  {
    ReadsTargets(table, period, start, results, profiles, users);
    var (coins, levels) := (Coins(profiles), Levels(profiles));
    var (part, whole) := (RowsFor(users, coins, levels), CoinRows(profiles));
    TargetsAreKnown(results, profiles);
    DistinctRows(users, coins, levels);
    DistinctRows(Ascending(profiles.Keys), coins, levels);
    forall r | r in part ensures r in whole {
      RowsHold(users, coins, levels, r);
      RowsHold(Ascending(profiles.Keys), coins, levels, r);
    }
    forall r | r in TopOf(whole) ensures r in part {
      TopHolds(whole, r);
      RowsHold(Ascending(profiles.Keys), coins, levels, r);
      RowsHold(users, coins, levels, r);
    }
    BagWithin(part, whole);
    BagWithin(TopOf(whole), part);
    TopOfPart(whole, part);
  }

  lemma ScoredAreKnown(results: seq<MatchScore>, profiles: map<nat, UserProfile>, u: nat)
    requires u in IdsOf(TopOf(ScoreRows(results, profiles)))
    ensures u in Totals(results)
  {
    var scored := TopOf(ScoreRows(results, profiles));
    var i :| 0 <= i < |scored| && scored[i].id == u;
    TopHolds(ScoreRows(results, profiles), scored[i]);
    RowsHold(Ascending(Totals(results).Keys), Totals(results), Levels(profiles), scored[i]);
  }

  lemma OwnersAreKnown(profiles: map<nat, UserProfile>, u: nat)
    requires u in IdsOf(TopOf(CoinRows(profiles)))
    ensures u in profiles
  {
    var owned := TopOf(CoinRows(profiles));
    var i :| 0 <= i < |owned| && owned[i].id == u;
    TopHolds(CoinRows(profiles), owned[i]);
    RowsHold(Ascending(profiles.Keys), Coins(profiles), Levels(profiles), owned[i]);
  }

  lemma TargetsAreKnown(results: seq<MatchScore>, profiles: map<nat, UserProfile>)
    ensures forall u | u in Targets(results, profiles) :: u in Totals(results) || u in profiles
  {
    forall u | u in IdsOf(TopOf(ScoreRows(results, profiles))) ensures u in Totals(results) {
      ScoredAreKnown(results, profiles, u);
    }
    forall u | u in IdsOf(TopOf(CoinRows(profiles))) ensures u in profiles {
      OwnersAreKnown(profiles, u);
    }
  }

  /**
   * The positive rows the score query answers with are exactly the first of everybody who
   * scored above zero, four of them or all there are; what follows them may be users who only
   * have coins.
   */
  lemma ScoreTop4IsExactAboveZero(table: map<StatKey, Stat>, period: StatsPeriod, start: int, results: seq<MatchScore>,
                                  profiles: map<nat, UserProfile>, users: seq<nat>)
    requires OneStart(table, period, start) && UsersIn(Rebuilt(table, period, start, results, profiles), period, users)
    ensures Positive(ScoreRankings(Rebuilt(table, period, start, results, profiles), period, users)) ==
            TopOf(Positive(ScoreRows(results, profiles)))
  {
    ReadsTargets(table, period, start, results, profiles, users);
    var (totals, levels) := (Totals(results), Levels(profiles));
    var (part, whole) := (RowsFor(users, totals, levels), ScoreRows(results, profiles));
    PositivesOfTop(part);
    PositivesOfTop(whole);
    PositiveRowsScored(users, totals, levels);
    forall r | r in TopOf(whole) ensures r in part {
      TopHolds(whole, r);
      RowsHold(Ascending(totals.Keys), totals, levels, r);
      RowsHold(users, totals, levels, r);
    }
    DistinctRows(Ascending(totals.Keys), totals, levels);
    PositivesWithin(TopOf(whole), part);
    TopOfPart(Positive(whole), Positive(part));
  }

  lemma PositivesWithin(a: seq<Row>, b: seq<Row>)
    requires forall r :: multiset(a)[r] <= 1
    requires forall r | r in a && r.major > 0 :: r in b
    ensures multiset(Positive(a)) <= multiset(Positive(b))
  {
    forall r ensures multiset(Positive(a))[r] <= multiset(Positive(b))[r] {
      PositiveCount(a, r);
      PositiveCount(b, r);
      if r in a && r.major > 0 { assert r in b; }
    }
  }

  lemma PositiveRowsScored(users: seq<nat>, totals: map<nat, int>, levels: map<nat, int>)
    requires Distinct(users)
    ensures multiset(Positive(RowsFor(users, totals, levels))) <= multiset(Positive(RowsFor(Ascending(totals.Keys), totals, levels)))
  {
    var (part, whole) := (RowsFor(users, totals, levels), RowsFor(Ascending(totals.Keys), totals, levels));
    DistinctRows(users, totals, levels);
    forall r | r in part && r.major > 0 ensures r in whole {
      RowsHold(users, totals, levels, r);
      RowsHold(Ascending(totals.Keys), totals, levels, r);
    }
    PositivesWithin(part, whole);
  }

  // ---------- rows of other starts ----------

  /**
   * A rebuild that goes through keeps every row of another start, and every query by period
   * reads it beside the new ones; a refused one leaves the whole table to keep answering.
   */
  lemma OlderStartsAreRead(table: map<StatKey, Stat>, period: StatsPeriod, start: int, results: seq<MatchScore>,
                           profiles: map<nat, UserProfile>, users: seq<nat>)
    requires UsersIn(Rebuilt(table, period, start, results, profiles), period, users)
    ensures
      var r := Rebuild(table, period, start, results, profiles);
      if r.Ok?
      then
        && (forall u :: u in users <==> u in Targets(results, profiles) || HeldElsewhere(table, period, start, u))
        && (forall u | HeldElsewhere(table, period, start, u) ::
              u !in Targets(results, profiles) && r.value[StatKey(u, period)] == table[StatKey(u, period)])
        && ((forall u | u in users :: r.value[StatKey(u, period)].periodStart == start) <==> OneStart(table, period, start))
      else
        && Rebuilt(table, period, start, results, profiles) == table
        && (forall u :: u in users <==> StatKey(u, period) in table)
  {
    var r := Rebuild(table, period, start, results, profiles);
    RebuildsExactly(table, period, start, results, profiles);
    if r.Ok? {
      forall u: nat
        ensures u in users <==> u in Targets(results, profiles) || HeldElsewhere(table, period, start, u)
        ensures HeldElsewhere(table, period, start, u) ==> StatKey(u, period) in r.value && r.value[StatKey(u, period)] == table[StatKey(u, period)]
        ensures u in Targets(results, profiles) ==> r.value[StatKey(u, period)].periodStart == start
      {
        RebuiltAt(table, period, start, results, profiles, StatKey(u, period));
      }
      OthersAreHeld(table, period, start);
    }
  }

  lemma OthersAreHeld(table: map<StatKey, Stat>, period: StatsPeriod, start: int)
    ensures OneStart(table, period, start) <==> forall u :: !HeldElsewhere(table, period, start, u)
  {
    if forall u :: !HeldElsewhere(table, period, start, u) {
      forall k | k in table && k.period == period ensures table[k].periodStart == start {
        assert k == StatKey(k.userId, period) && !HeldElsewhere(table, period, start, k.userId);
      }
    }
  }

  // ---------- the hourly job ----------

  /** One run of the job: the three periods' starts and results, and the profiles of the moment. */
  datatype Job = Job(starts: map<StatsPeriod, int>, results: map<StatsPeriod, seq<MatchScore>>, profiles: map<nat, UserProfile>)

  function StartOf(j: Job, period: StatsPeriod): int {
    if period in j.starts then j.starts[period] else 0
  }

  function ResultsOf(j: Job, period: StatsPeriod): seq<MatchScore> {
    if period in j.results then j.results[period] else []
  }

  function RebuildFor(table: map<StatKey, Stat>, j: Job, period: StatsPeriod): Result<map<StatKey, Stat>, StatsError> {
    Rebuild(table, period, StartOf(j, period), ResultsOf(j, period), j.profiles)
  }

  /** Each period is its own transaction; the first refusal ends the job with what is done. */
  function RebuildPeriods(table: map<StatKey, Stat>, j: Job, periods: seq<StatsPeriod>): map<StatKey, Stat>
    decreases |periods|
  {
    if periods == [] then table
    else
      var r := RebuildFor(table, j, periods[0]);
      if r.Err? then table else RebuildPeriods(r.value, j, periods[1..])
  }

  /** No period is refused. */
  predicate Completes(table: map<StatKey, Stat>, j: Job, periods: seq<StatsPeriod>)
    decreases |periods|
  {
    periods == [] || (var r := RebuildFor(table, j, periods[0]); r.Ok? && Completes(r.value, j, periods[1..]))
  }

  const PERIODS := [DAILY, WEEKLY, MONTHLY]

  function RunJob(table: map<StatKey, Stat>, j: Job): map<StatKey, Stat> {
    RebuildPeriods(table, j, PERIODS)
  }

  function RunJobs(table: map<StatKey, Stat>, jobs: seq<Job>): map<StatKey, Stat> {
    if jobs == [] then table else RunJob(RunJobs(table, jobs[..|jobs| - 1]), jobs[|jobs| - 1])
  }

  /** The user with most coins, then the highest level, then the smallest id. */
  function CoinLeader(profiles: map<nat, UserProfile>): nat
    requires profiles != map[]
  {
    CoinRowsNonempty(profiles);
    TopOf(CoinRows(profiles))[0].id
  }

  lemma CoinRowsNonempty(profiles: map<nat, UserProfile>)
    requires profiles != map[]
    ensures |TopOf(CoinRows(profiles))| > 0
  {
    assert |CoinRows(profiles)| == |profiles.Keys|;
    assert profiles.Keys != {};
  }

  lemma LeaderIsTarget(results: seq<MatchScore>, profiles: map<nat, UserProfile>)
    requires profiles != map[]
    ensures CoinLeader(profiles) in Targets(results, profiles)
  {
    CoinRowsNonempty(profiles);
    assert IdsOf(TopOf(CoinRows(profiles)))[0] == CoinLeader(profiles);
  }

  /** While a user the daily rebuild would keep holds a daily row of another day, the job changes no table row at all. */
  lemma {:induction false} JobsFreeze(table: map<StatKey, Stat>, jobs: seq<Job>, u: nat)
    requires StatKey(u, DAILY) in table
    requires forall j | j in jobs ::
               StartOf(j, DAILY) != table[StatKey(u, DAILY)].periodStart && u in Targets(ResultsOf(j, DAILY), j.profiles)
    ensures RunJobs(table, jobs) == table
  {
    if jobs != [] {
      var last := jobs[|jobs| - 1];
      assert jobs == jobs[..|jobs| - 1] + [last];
      JobsFreeze(table, jobs[..|jobs| - 1], u);
      RebuildsExactly(table, DAILY, StartOf(last, DAILY), ResultsOf(last, DAILY), last.profiles);
      assert HeldElsewhere(table, DAILY, StartOf(last, DAILY), u);
    }
  }

  lemma RebuildKeepsOtherPeriods(table: map<StatKey, Stat>, period: StatsPeriod, start: int, results: seq<MatchScore>,
                                 profiles: map<nat, UserProfile>, k: StatKey)
    requires Rebuild(table, period, start, results, profiles).Ok? && k.period != period
    ensures
      var after := Rebuild(table, period, start, results, profiles).value;
      (k in after <==> k in table) && (k in table ==> after[k] == table[k])
  {
    RebuiltAt(table, period, start, results, profiles, k);
  }

  lemma FirstDailyKeepsLeader(j: Job)
    requires j.profiles != map[]
    ensures
      var (r, k) := (RebuildFor(map[], j, DAILY), StatKey(CoinLeader(j.profiles), DAILY));
      r.Ok? && k in r.value && r.value[k].periodStart == StartOf(j, DAILY)
  {
    OneStartRebuilds(map[], DAILY, StartOf(j, DAILY), ResultsOf(j, DAILY), j.profiles);
    RebuiltAt(map[], DAILY, StartOf(j, DAILY), ResultsOf(j, DAILY), j.profiles, StatKey(CoinLeader(j.profiles), DAILY));
    LeaderIsTarget(ResultsOf(j, DAILY), j.profiles);
  }

  /** The first job over an empty table leaves the coin leader a daily row of its day. */
  lemma FirstJobKeepsLeader(j: Job)
    requires j.profiles != map[]
    ensures
      var (after, k) := (RunJob(map[], j), StatKey(CoinLeader(j.profiles), DAILY));
      k in after && after[k].periodStart == StartOf(j, DAILY)
  {
    FirstDailyKeepsLeader(j);
    var r := RebuildFor(map[], j, DAILY);
    assert PERIODS[0] == DAILY && PERIODS[1..] == [WEEKLY, MONTHLY];
    RestOfJobKeepsDaily(r.value, j, PERIODS[1..], StatKey(CoinLeader(j.profiles), DAILY));
  }

  lemma {:induction false} RestOfJobKeepsDaily(table: map<StatKey, Stat>, j: Job, periods: seq<StatsPeriod>, k: StatKey)
    requires k.period == DAILY && DAILY !in periods && k in table
    ensures k in RebuildPeriods(table, j, periods) && RebuildPeriods(table, j, periods)[k] == table[k]
    decreases |periods|
  {
    if periods != [] {
      var r := RebuildFor(table, j, periods[0]);
      if r.Ok? {
        RebuildKeepsOtherPeriods(table, periods[0], StartOf(j, periods[0]), ResultsOf(j, periods[0]), j.profiles, k);
        RestOfJobKeepsDaily(r.value, j, periods[1..], k);
      }
    }
  }

  /**
   * Witness: from an empty table, the first day's job fills it, and as long as the same user
   * leads by coin no job of a later day changes anything: all three rankings stay those of the
   * first job.
   */
  lemma SameLeaderFreezesRankings(first: Job, later: seq<Job>)
    requires first.profiles != map[]
    requires forall j | j in later ::
               StartOf(j, DAILY) != StartOf(first, DAILY) && j.profiles != map[] && CoinLeader(j.profiles) == CoinLeader(first.profiles)
    ensures RunJobs(RunJob(map[], first), later) == RunJob(map[], first)
    ensures StatKey(CoinLeader(first.profiles), DAILY) in RunJob(map[], first)
  {
    FirstJobKeepsLeader(first);
    forall j | j in later ensures CoinLeader(first.profiles) in Targets(ResultsOf(j, DAILY), j.profiles) {
      LeaderIsTarget(ResultsOf(j, DAILY), j.profiles);
    }
    JobsFreeze(RunJob(map[], first), later, CoinLeader(first.profiles));
  }

  lemma SnapshotIsSmall(results: seq<MatchScore>, profiles: map<nat, UserProfile>)
    ensures |Targets(results, profiles)| <= 2 * TOP
  {
    var ids := IdsOf(TopOf(ScoreRows(results, profiles))) + IdsOf(TopOf(CoinRows(profiles)));
    DedupShrinks(ids);
  }

  lemma {:induction false} DedupShrinks(s: seq<nat>)
    ensures |Dedup(s)| <= |s|
  {
    if s != [] { DedupShrinks(s[..|s| - 1]); }
  }
}
