/** Options, ascending enumeration of number keys, and sums over maps. */
module Collections {

  datatype Option<+T> = None | Some(value: T)

  datatype Result<+T, +E> = Ok(value: T) | Err(error: E)

  /** `value ?? fallback` */
  function Or<T>(o: Option<T>, fallback: T): T {
    if o.Some? then o.value else fallback
  }

  predicate Distinct<T(==)>(s: seq<T>) {
    forall i, j | 0 <= i < j < |s| :: s[i] != s[j]
  }

  predicate Ascends(s: seq<nat>) {
    forall i, j | 0 <= i < j < |s| :: s[i] < s[j]
  }

  // `list.filter((id) => id !== x)`
  function Without(s: seq<nat>, x: nat): (r: seq<nat>)
    ensures forall y :: y in r <==> y in s && y != x
    ensures |r| <= |s|
    ensures Distinct(s) ==> Distinct(r)
    ensures Distinct(s) ==> |r| == |s| - (if x in s then 1 else 0)
  {
    if s == [] then []
    else
      var rest := Without(s[1..], x);
      assert forall j | 0 <= j < |rest| :: rest[j] in s[1..];
      assert Distinct(s) ==> Distinct(s[1..]) && s[0] !in s[1..];
      if s[0] == x then rest else [s[0]] + rest
  }

  // `list.filter((id) => keep.has(id))`
  function Keep(s: seq<nat>, keep: set<nat>): (r: seq<nat>)
    ensures forall y :: y in r <==> y in s && y in keep
    ensures Ascends(s) ==> Ascends(r)
  {
    if s == [] then []
    else
      var rest := Keep(s[1..], keep);
      assert forall j | 0 <= j < |rest| :: rest[j] in s[1..];
      assert Ascends(s) ==> Ascends(s[1..]) && forall y | y in s[1..] :: s[0] < y;
      if s[0] in keep then [s[0]] + rest else rest
  }

  // `Array.from(new Set(list))`
  function Dedup(s: seq<nat>): (r: seq<nat>)
    ensures forall y :: y in r <==> y in s
    ensures Distinct(r)
  {
    if s == [] then []
    else
      var front := Dedup(s[..|s| - 1]);
      var x := s[|s| - 1];
      assert s == s[..|s| - 1] + [x];
      if x in front then front else front + [x]
  }

  predicate IsLeast(s: set<nat>, x: nat) {
    x in s && forall y | y in s :: x <= y
  }

  lemma LeastOfMore(s: set<nat>, x: nat, z: nat)
    requires x in s && IsLeast(s - {x}, z)
    ensures IsLeast(s, if x < z then x else z)
  {
    forall y | y in s ensures y == x || y in s - {x} {}
  }

  lemma LeastExists(s: set<nat>)
    requires s != {}
    ensures exists x :: IsLeast(s, x)
  {
    var x :| x in s;
    if s == {x} {
      assert IsLeast(s, x);
    } else {
      LeastExists(s - {x});
      var z :| IsLeast(s - {x}, z);
      LeastOfMore(s, x, z);
    }
  }

  function LeastFirst(s: set<nat>): seq<nat> {
    if s == {} then []
    else
      LeastExists(s);
      var x :| x in s && forall y | y in s :: x <= y;
      [x] + LeastFirst(s - {x})
  }

  lemma {:induction false} LeastFirstMembers(s: set<nat>)
    ensures |LeastFirst(s)| == |s|
    ensures forall x :: x in LeastFirst(s) <==> x in s
  {
    if s != {} {
      LeastFirstMembers(s - {LeastFirst(s)[0]});
    }
  }

  lemma {:induction false} LeastFirstAscends(s: set<nat>)
    ensures Ascends(LeastFirst(s))
  {
    if s != {} {
      var r := LeastFirst(s);
      var rest := s - {r[0]};
      LeastFirstAscends(rest);
      LeastFirstMembers(rest);
      forall j | 0 < j < |r| ensures r[0] < r[j] {
        assert r[j] == LeastFirst(rest)[j - 1];
        assert r[j] in rest;
      }
    }
  }

  /** A JavaScript object with number keys lists them in ascending order. */
  function Ascending(s: set<nat>): (r: seq<nat>)
    ensures |r| == |s|
    ensures forall x :: x in r <==> x in s
    ensures Ascends(r)
  {
    LeastFirstMembers(s);
    LeastFirstAscends(s);
    LeastFirst(s)
  }

  lemma DistinctCardinality(s: seq<nat>, t: set<nat>)
    requires Distinct(s) && forall x :: x in s <==> x in t
    ensures |s| == |t|
  {
    if s == [] {
      assert t == {};
    } else {
      assert s[0] in t;
      forall x ensures x in s[1..] <==> x in t - {s[0]} {
        if x in s[1..] {
          var i :| 0 <= i < |s[1..]| && s[1..][i] == x;
          assert s[0] != s[i + 1];
        }
      }
      DistinctCardinality(s[1..], t - {s[0]});
    }
  }

  lemma {:induction false} OnceInDistinct<T>(s: seq<T>, x: T)
    requires Distinct(s)
    ensures multiset(s)[x] <= 1
  {
    if s != [] {
      assert s == [s[0]] + s[1..];
      OnceInDistinct(s[1..], x);
      if s[0] == x { assert x !in s[1..]; }
    }
  }

  lemma TwiceIfRepeated<T>(s: seq<T>, i: nat, j: nat)
    requires i < j < |s| && s[i] == s[j]
    ensures multiset(s)[s[i]] >= 2
  {
    assert s == s[..j] + s[j..];
    assert s[..j][i] == s[i] && s[j..][0] == s[i];
  }

  /** A rearrangement of distinct elements is distinct, as long, and has the same members. */
  lemma Rearranged<T>(s: seq<T>, t: seq<T>)
    requires multiset(s) == multiset(t) && Distinct(s)
    ensures Distinct(t) && |t| == |s|
    ensures forall x :: x in t <==> x in s
  {
    assert |s| == |multiset(s)| == |multiset(t)| == |t|;
    assert forall x :: x in t <==> x in multiset(t);
    assert forall x :: x in s <==> x in multiset(s);
    forall i, j | 0 <= i < j < |t| ensures t[i] != t[j] {
      if t[i] == t[j] {
        TwiceIfRepeated(t, i, j);
        OnceInDistinct(s, t[i]);
      }
    }
  }

  /** Pigeonhole: an injective image inside another set bounds the size. */
  lemma InjectiveImageSize<A, B>(source: set<A>, f: map<A, B>, target: set<B>)
    requires source <= f.Keys
    requires forall a, b | a in source && b in source && a != b :: f[a] != f[b]
    requires forall a | a in source :: f[a] in target
    ensures |source| <= |target|
  {
    if source != {} {
      var a :| a in source;
      InjectiveImageSize(source - {a}, f, target - {f[a]});
    }
  }

  ghost predicate Injective<K, V>(m: map<K, V>) {
    forall a, b | a in m && b in m && m[a] == m[b] :: a == b
  }

  ghost function Pick<K, V>(m: map<K, V>): (k: K)
    requires m != map[]
    ensures k in m
  {
    var k :| k in m;
    k
  }

  /** The sum of a map's values. */
  ghost function Total<K>(m: map<K, int>): int {
    if m == map[] then 0
    else
      var k := Pick(m);
      m[k] + Total(m - {k})
  }

  lemma {:induction false} TotalRemove<K>(m: map<K, int>, k: K)
    requires k in m
    ensures Total(m) == m[k] + Total(m - {k})
    decreases |m|
  {
    var p := Pick(m);
    if p != k {
      TotalRemove(m - {p}, k);
      TotalRemove(m - {k}, p);
      assert m - {p} - {k} == m - {k} - {p};
    }
  }

  lemma TotalInsert<K>(m: map<K, int>, k: K, v: int)
    requires k !in m
    ensures Total(m[k := v]) == Total(m) + v
  {
    TotalRemove(m[k := v], k);
    assert m[k := v] - {k} == m;
  }

  lemma {:induction false} TotalBounds<K>(m: map<K, int>, cap: int)
    requires 0 <= cap && forall k | k in m :: 0 <= m[k] <= cap
    ensures 0 <= Total(m) <= cap * |m|
    decreases |m|
  {
    if m != map[] {
      var p := Pick(m);
      TotalBounds(m - {p}, cap);
      assert |m - {p}| == |m| - 1;
      assert cap * |m| == cap * (|m| - 1) + cap;
    }
  }

  lemma {:induction false} TotalZero<K>(m: map<K, int>)
    requires forall k | k in m :: m[k] == 0
    ensures Total(m) == 0
    decreases |m|
  {
    if m != map[] {
      var p := Pick(m);
      TotalZero(m - {p});
    }
  }
}
