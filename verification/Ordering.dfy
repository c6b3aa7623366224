/**
 * The one ordering behind every list the server ranks: a first score and a
 * second score descending, then an id ascending. Round rankings, final
 * results and the top-4 tables are all instances of it.
 */
module Ordering {
  datatype Row = Row(id: nat, major: int, minor: int)

  predicate Before(a: Row, b: Row) {
    || a.major > b.major
    || (a.major == b.major && a.minor > b.minor)
    || (a.major == b.major && a.minor == b.minor && a.id < b.id)
  }

  ghost predicate Sorted(s: seq<Row>) {
    forall i, j | 0 <= i < j < |s| :: !Before(s[j], s[i])
  }

  function Insert(x: Row, s: seq<Row>): (r: seq<Row>)
    ensures multiset(r) == multiset(s) + multiset{x}
  {
    if s == [] || !Before(s[0], x) then [x] + s
    else
      assert s == [s[0]] + s[1..];
      [s[0]] + Insert(x, s[1..])
  }

  /** `Array.prototype.sort`, which is stable, with the comparator `Before`. */
  function Sort(s: seq<Row>): (r: seq<Row>)
    ensures multiset(r) == multiset(s)
    ensures |r| == |s|
  {
    if s == [] then []
    else
      assert s == [s[0]] + s[1..];
      var r := Insert(s[0], Sort(s[1..]));
      assert |multiset(r)| == |multiset(s)|;
      r
  }

  lemma {:induction false} InsertSorted(x: Row, s: seq<Row>)
    requires Sorted(s)
    ensures Sorted(Insert(x, s))
  {
    if s == [] {
    } else if !Before(s[0], x) {
      forall i | 0 <= i < |s| ensures !Before(s[i], x) {
        assert i > 0 ==> !Before(s[i], s[0]);
      }
    } else {
      var rest := Insert(x, s[1..]);
      InsertSorted(x, s[1..]);
      forall j | 0 <= j < |rest| ensures !Before(rest[j], s[0]) {
        assert rest[j] in multiset(rest);
        if rest[j] != x {
          assert rest[j] in multiset(s[1..]);
          var k :| 0 <= k < |s[1..]| && s[1..][k] == rest[j];
          assert s[k + 1] == rest[j];
        }
      }
    }
  }

  lemma {:induction false} SortSorts(s: seq<Row>)
    ensures Sorted(Sort(s))
  {
    if s != [] {
      SortSorts(s[1..]);
      InsertSorted(s[0], Sort(s[1..]));
    }
  }

  lemma SortedHead(s: seq<Row>, t: seq<Row>)
    requires Sorted(s) && Sorted(t) && multiset(s) == multiset(t) && s != [] && t != []
    ensures s[0] == t[0]
  {
    assert s[0] in multiset(s) && t[0] in multiset(t);
    var i :| 0 <= i < |t| && t[i] == s[0];
    var j :| 0 <= j < |s| && s[j] == t[0];
    assert i > 0 ==> !Before(t[i], t[0]);
    assert j > 0 ==> !Before(s[j], s[0]);
  }

  lemma TailBag(s: seq<Row>)
    requires s != []
    ensures multiset(s[1..]) == multiset(s) - multiset{s[0]}
  {
    assert s == [s[0]] + s[1..];
  }

  /** A list has only one sorted arrangement, so a sort's input order is immaterial. */
  lemma {:induction false} SortedUnique(s: seq<Row>, t: seq<Row>)
    requires Sorted(s) && Sorted(t) && multiset(s) == multiset(t)
    ensures s == t
    decreases |s|
  {
    assert |s| == |multiset(s)| == |multiset(t)| == |t|;
    if s != [] {
      SortedHead(s, t);
      TailBag(s);
      TailBag(t);
      SortedUnique(s[1..], t[1..]);
      assert s == [s[0]] + s[1..] && t == [t[0]] + t[1..];
    }
  }

  function Take(s: seq<Row>, n: nat): seq<Row> {
    if |s| <= n then s else s[..n]
  }

  /** How many rows of s score strictly more than x. */
  function CountAbove(s: seq<Row>, x: int): nat {
    if s == [] then 0 else (if s[0].major > x then 1 else 0) + CountAbove(s[1..], x)
  }

  lemma {:induction false} CountAboveAppend(s: seq<Row>, t: seq<Row>, x: int)
    ensures CountAbove(s + t, x) == CountAbove(s, x) + CountAbove(t, x)
  {
    if s == [] {
      assert s + t == t;
    } else {
      assert (s + t)[1..] == s[1..] + t;
      CountAboveAppend(s[1..], t, x);
    }
  }

  lemma {:induction false} CountAboveAll(s: seq<Row>, x: int)
    requires forall r | r in s :: r.major > x
    ensures CountAbove(s, x) == |s|
  {
    if s != [] { CountAboveAll(s[1..], x); }
  }

  lemma {:induction false} CountAboveNone(s: seq<Row>, x: int)
    requires forall r | r in s :: r.major <= x
    ensures CountAbove(s, x) == 0
  {
    if s != [] { CountAboveNone(s[1..], x); }
  }

  /** Counting does not depend on the order of the rows. */
  lemma {:induction false} CountAbovePermuted(s: seq<Row>, t: seq<Row>, x: int)
    requires multiset(s) == multiset(t)
    ensures CountAbove(s, x) == CountAbove(t, x)
  {
    if s == [] {
      assert |t| == |multiset(t)| == 0;
    } else {
      TailBag(s);
      assert s[0] in multiset(t);
      var i :| 0 <= i < |t| && t[i] == s[0];
      var rest := t[..i] + t[i + 1..];
      assert t == t[..i] + ([t[i]] + t[i + 1..]);
      assert multiset(t) == multiset(rest) + multiset{t[i]};
      assert multiset(rest) == multiset(t) - multiset{t[i]};
      CountAboveAppend(t[..i], [t[i]] + t[i + 1..], x);
      CountAboveAppend(t[..i], t[i + 1..], x);
      CountAbovePermuted(s[1..], rest, x);
    }
  }
}
