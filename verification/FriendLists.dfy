/** How friend lists are shown: the two stable sorts, and the keyword a search starts from. */
module FriendLists {
  import opened Collections
  import opened Friends

  /** What the sorts look at; place is where the collation in use puts the nickname. */
  datatype Card = Card(entry: Entry, isOnline: bool, level: nat, place: int)

  datatype Order = ByRelation | ByOnlineAndLevel

  function Rank(r: Relation): nat {
    match r
    case REQUEST_RECEIVED => 0
    case REQUEST_SENT => 1
    case FRIEND => 2
    case BLOCKED => 3
  }

  /** The comparator answers a negative number. */
  predicate Before(o: Order, a: Card, b: Card) {
    match o
    case ByRelation =>
      if a.entry.relation != b.entry.relation then Rank(a.entry.relation) < Rank(b.entry.relation)
      else a.entry.relation == FRIEND && if a.isOnline != b.isOnline then a.isOnline else a.place < b.place
    case ByOnlineAndLevel =>
      if a.isOnline != b.isOnline then a.isOnline else a.level > b.level
  }

  predicate Tied(o: Order, a: Card, b: Card) {
    !Before(o, a, b) && !Before(o, b, a)
  }

  ghost predicate Sorted(o: Order, s: seq<Card>) {
    forall i, j | 0 <= i < j < |s| :: !Before(o, s[j], s[i])
  }

  /** The cards of a list that the comparator does not tell from c, in list order. */
  function Ties(o: Order, s: seq<Card>, c: Card): seq<Card> {
    if s == [] then []
    else if Tied(o, s[0], c) then [s[0]] + Ties(o, s[1..], c)
    else Ties(o, s[1..], c)
  }

  function Insert(o: Order, x: Card, s: seq<Card>): (r: seq<Card>)
    ensures multiset(r) == multiset(s) + multiset{x}
  {
    if s == [] || !Before(o, s[0], x) then [x] + s
    else
      assert s == [s[0]] + s[1..];
      [s[0]] + Insert(o, x, s[1..])
  }

  /** `Array.prototype.sort` with one of the two comparators. */
  function Sort(o: Order, s: seq<Card>): (r: seq<Card>)
    ensures multiset(r) == multiset(s)
  {
    if s == [] then []
    else
      assert s == [s[0]] + s[1..];
      Insert(o, s[0], Sort(o, s[1..]))
  }

  lemma InsertHolds(o: Order, x: Card, s: seq<Card>, y: Card)
    requires y in Insert(o, x, s)
    ensures y == x || y in s
  {
    assert y in multiset(Insert(o, x, s));
    assert y in multiset(s) ==> y in s;
  }

  lemma {:induction false} InsertSorted(o: Order, x: Card, s: seq<Card>)
    requires Sorted(o, s)
    ensures Sorted(o, Insert(o, x, s))
  {
    if s == [] {
    } else if !Before(o, s[0], x) {
      forall i | 0 <= i < |s| ensures !Before(o, s[i], x) {
        assert i > 0 ==> !Before(o, s[i], s[0]);
      }
    } else {
      InsertSorted(o, x, s[1..]);
      forall y | y in Insert(o, x, s[1..]) ensures !Before(o, y, s[0]) {
        InsertHolds(o, x, s[1..], y);
      }
    }
  }

  lemma {:induction false} SortSorts(o: Order, s: seq<Card>)
    ensures Sorted(o, Sort(o, s))
  {
    if s != [] {
      SortSorts(o, s[1..]);
      InsertSorted(o, s[0], Sort(o, s[1..]));
    }
  }

  lemma TiesOfHead(o: Order, x: Card, s: seq<Card>, c: Card)
    ensures Ties(o, [x] + s, c) == if Tied(o, x, c) then [x] + Ties(o, s, c) else Ties(o, s, c)
  {
    assert ([x] + s)[1..] == s;
  }

  lemma {:induction false} InsertTies(o: Order, x: Card, s: seq<Card>, c: Card)
    ensures Ties(o, Insert(o, x, s), c) == if Tied(o, x, c) then [x] + Ties(o, s, c) else Ties(o, s, c)
  {
    if s == [] || !Before(o, s[0], x) {
      TiesOfHead(o, x, s, c);
    } else {
      TiesOfHead(o, s[0], Insert(o, x, s[1..]), c);
      InsertTies(o, x, s[1..], c);
    }
  }

  /** Cards the comparator does not tell apart stay in the order they came in. */
  lemma {:induction false} SortIsStable(o: Order, s: seq<Card>, c: Card)
    ensures Ties(o, Sort(o, s), c) == Ties(o, s, c)
  {
    if s != [] {
      SortIsStable(o, s[1..], c);
      InsertTies(o, s[0], Sort(o, s[1..]), c);
    }
  }

  lemma {:induction false} TiesHold(o: Order, s: seq<Card>, c: Card, x: Card)
    ensures x in Ties(o, s, c) <==> x in s && Tied(o, x, c)
  {
    if s != [] { TiesHold(o, s[1..], c, x); }
  }

  lemma SameHead(o: Order, s: seq<Card>, t: seq<Card>)
    requires Sorted(o, s) && Sorted(o, t) && s != [] && t != []
    requires forall c :: Ties(o, s, c) == Ties(o, t, c)
    ensures s[0] == t[0]
  {
    TiesHold(o, s, s[0], s[0]);
    TiesHold(o, t, s[0], s[0]);
    TiesHold(o, t, t[0], t[0]);
    TiesHold(o, s, t[0], t[0]);
    assert s[0] in t && t[0] in s;
    assert Tied(o, t[0], s[0]) by {
      var i :| 0 <= i < |t| && t[i] == s[0];
      var j :| 0 <= j < |s| && s[j] == t[0];
      assert i > 0 ==> !Before(o, t[i], t[0]);
      assert j > 0 ==> !Before(o, s[j], s[0]);
    }
    assert Ties(o, s, s[0])[0] == s[0] && Ties(o, t, s[0])[0] == t[0];
  }

  /** The sorted list is determined by what is in order and by the order ties came in. */
  lemma {:induction false} StableSortUnique(o: Order, s: seq<Card>, t: seq<Card>)
    requires Sorted(o, s) && Sorted(o, t) && forall c :: Ties(o, s, c) == Ties(o, t, c)
    ensures s == t
    decreases |s|
  {
    if s == [] || t == [] {
      if s != [] { TiesHold(o, s, s[0], s[0]); }
      if t != [] { TiesHold(o, t, t[0], t[0]); }
    } else {
      SameHead(o, s, t);
      forall c ensures Ties(o, s[1..], c) == Ties(o, t[1..], c) {
        assert Ties(o, s, c) == Ties(o, t, c);
        if Tied(o, s[0], c) {
          assert Ties(o, s, c)[1..] == Ties(o, s[1..], c) && Ties(o, t, c)[1..] == Ties(o, t[1..], c);
        }
      }
      StableSortUnique(o, s[1..], t[1..]);
      assert s == [s[0]] + s[1..] && t == [t[0]] + t[1..];
    }
  }

  // ---------- what is shown ----------

  /** Who is online, and where the Korean collation puts each nickname. */
  datatype View = View(online: set<nat>, collation: map<string, int>)

  function LevelOf(users: map<nat, User>, u: nat): nat {
    if HasProfile(users, u) then users[u].profile.value else 1
  }

  function PlaceOf(users: map<nat, User>, u: nat, collation: map<string, int>): int {
    if u in users && users[u].nickname in collation then collation[users[u].nickname] else 0
  }

  function CardOf(e: Entry, users: map<nat, User>, v: View): Card {
    Card(e, e.userId in v.online, LevelOf(users, e.userId), PlaceOf(users, e.userId, v.collation))
  }

  function Cards(list: seq<Entry>, users: map<nat, User>, v: View): (cards: seq<Card>)
    ensures |cards| == |list| && forall i | 0 <= i < |list| :: cards[i] == CardOf(list[i], users, v)
  {
    seq(|list|, i requires 0 <= i < |list| => CardOf(list[i], users, v))
  }

  lemma SortHolds(o: Order, s: seq<Card>, c: Card)
    ensures c in Sort(o, s) <==> c in s
  {
    assert c in Sort(o, s) <==> c in multiset(Sort(o, s));
    assert c in s <==> c in multiset(s);
  }

  lemma CardsHold(list: seq<Entry>, users: map<nat, User>, v: View, c: Card)
    ensures c in Cards(list, users, v) <==> c.entry in list && c == CardOf(c.entry, users, v)
  {
    if c.entry in list && c == CardOf(c.entry, users, v) {
      var i :| 0 <= i < |list| && list[i] == c.entry;
      assert Cards(list, users, v)[i] == c;
    }
  }

  /** The shown friend list: everybody related, requests received first, blocked users last, friends online first. */
  lemma ShownListIsExact(g: Graph, userId: nat, rows: seq<Pair>, blocked: seq<nat>, v: View, c: Card)
    requires GraphOk(g) && ReadFor(g, userId, rows, blocked)
    ensures
      var shown := Sort(ByRelation, Cards(FriendList(g, userId, rows, blocked), g.users, v));
      && Sorted(ByRelation, shown) && |shown| == |FriendList(g, userId, rows, blocked)|
      && (c in shown <==>
          && (c.isOnline <==> c.entry.userId in v.online) && c.place == PlaceOf(g.users, c.entry.userId, v.collation)
          && c.level == (if HasProfile(g.users, c.entry.userId) then g.users[c.entry.userId].profile.value else 1)
          && RelationTo(g, userId, c.entry.userId) == Some(c.entry.relation)
          && (c.entry.relation == BLOCKED || HasProfile(g.users, c.entry.userId)))
  {
    var list := FriendList(g, userId, rows, blocked);
    var cards := Cards(list, g.users, v);
    SortSorts(ByRelation, cards);
    assert |Sort(ByRelation, cards)| == |multiset(Sort(ByRelation, cards))| == |multiset(cards)| == |cards|;
    SortHolds(ByRelation, cards, c);
    CardsHold(list, g.users, v, c);
    ListIsExact(g, userId, rows, blocked, c.entry);
  }

  /** In a friend list: received, sent, friends, blocked; among friends online first, then by the collation. */
  lemma ShownInOrder(cards: seq<Card>, i: nat, j: nat)
    requires i < j < |Sort(ByRelation, cards)|
    ensures
      var (a, b) := (Sort(ByRelation, cards)[i], Sort(ByRelation, cards)[j]);
      var (first, second) := (a.entry.relation, b.entry.relation);
      && (second == REQUEST_RECEIVED ==> first == REQUEST_RECEIVED)
      && (second == REQUEST_SENT ==> first == REQUEST_RECEIVED || first == REQUEST_SENT)
      && (first == BLOCKED ==> second == BLOCKED)
      && (first == second == FRIEND ==> (b.isOnline ==> a.isOnline) && (a.isOnline == b.isOnline ==> a.place <= b.place))
  {
    SortSorts(ByRelation, cards);
    var sorted := Sort(ByRelation, cards);
    assert !Before(ByRelation, sorted[j], sorted[i]);
  }

  /** In a search: online first, then the higher level. */
  lemma FoundInOrder(cards: seq<Card>, i: nat, j: nat)
    requires i < j < |Sort(ByOnlineAndLevel, cards)|
    ensures
      var (a, b) := (Sort(ByOnlineAndLevel, cards)[i], Sort(ByOnlineAndLevel, cards)[j]);
      (b.isOnline ==> a.isOnline) && (a.isOnline == b.isOnline ==> a.level >= b.level)
  {
    SortSorts(ByOnlineAndLevel, cards);
    var sorted := Sort(ByOnlineAndLevel, cards);
    assert !Before(ByOnlineAndLevel, sorted[j], sorted[i]);
  }

  // ---------- the keyword ----------

  /** What `trim` removes: white space and line terminators. */
  predicate White(c: char) {
    || c in {'\t', '\n', '\r', ' '} || c in {'\U{0B}', '\U{0C}', '\U{A0}', '\U{1680}', '\U{FEFF}'}
    || '\U{2000}' <= c <= '\U{200A}' || c in {'\U{2028}', '\U{2029}', '\U{202F}', '\U{205F}', '\U{3000}'}
  }

  function TrimStart(s: string): string {
    if s != "" && White(s[0]) then TrimStart(s[1..]) else s
  }

  function TrimEnd(s: string): string {
    if s != "" && White(s[|s| - 1]) then TrimEnd(s[..|s| - 1]) else s
  }

  predicate FourDigits(s: string) {
    |s| == 4 && forall c | c in s :: '0' <= c <= '9'
  }

  function ParseKeyword(keyword: string): Keyword {
    var trimmed := TrimEnd(TrimStart(keyword));
    var normalized := if trimmed != "" && trimmed[0] == '#' then trimmed[1..] else trimmed;
    if FourDigits(normalized) then ByTag(normalized) else ByNickname(normalized)
  }

  predicate Blank(s: string) {
    forall c | c in s :: White(c)
  }

  lemma {:induction false} TrimStartDrops(left: string, s: string)
    requires Blank(left) && (s == "" || !White(s[0]))
    ensures TrimStart(left + s) == s
  {
    if left == "" {
      assert left + s == s;
    } else {
      assert (left + s)[1..] == left[1..] + s;
      TrimStartDrops(left[1..], s);
    }
  }

  lemma {:induction false} TrimEndDrops(s: string, right: string)
    requires Blank(right) && (s == "" || !White(s[|s| - 1]))
    ensures TrimEnd(s + right) == s
  {
    if right == "" {
      assert s + right == s;
    } else {
      assert (s + right)[..|s + right| - 1] == s + right[..|right| - 1];
      TrimEndDrops(s, right[..|right| - 1]);
    }
  }

  lemma TrimDrops(left: string, s: string, right: string)
    requires Blank(left) && Blank(right) && s != "" && !White(s[0]) && !White(s[|s| - 1])
    ensures TrimEnd(TrimStart(left + s + right)) == s
  {
    assert left + s + right == left + (s + right);
    TrimStartDrops(left, s + right);
    TrimEndDrops(s, right);
  }

  /** Four digits, with or without a leading '#' and whatever blanks around, ask for that tag. */
  lemma TagsAreFound(left: string, tag: string, right: string)
    requires Blank(left) && Blank(right) && FourDigits(tag)
    ensures ParseKeyword(left + tag + right) == ByTag(tag) && ParseKeyword(left + ("#" + tag) + right) == ByTag(tag)
  {
    assert tag[0] in tag && tag[3] in tag;
    TrimDrops(left, tag, right);
    TrimDrops(left, "#" + tag, right);
    assert ("#" + tag)[1..] == tag;
  }

  /** Anything else asks for a nickname: its letters without the blanks around and one leading '#'. */
  lemma OthersAreNicknames(left: string, name: string, right: string)
    requires Blank(left) && Blank(right) && name != "" && !White(name[0]) && !White(name[|name| - 1])
    requires !FourDigits(name) && !(name[0] == '#' && FourDigits(name[1..]))
    ensures ParseKeyword(left + name + right) == ByNickname(if name[0] == '#' then name[1..] else name)
  {
    TrimDrops(left, name, right);
  }

  /** The same letter, in either case. */
  predicate SameLetter(a: char, b: char) {
    a == b || ('A' <= a <= 'Z' && b == a - 'A' + 'a') || ('A' <= b <= 'Z' && a == b - 'A' + 'a')
  }

  ghost predicate OccursAt(s: string, t: string, i: nat) {
    i + |t| <= |s| && forall k | 0 <= k < |t| :: SameLetter(s[i + k], t[k])
  }

  lemma LowerSame(a: char, b: char)
    ensures Lower([a]) == Lower([b]) <==> SameLetter(a, b)
  {
    assert Lower([a])[0] == Lower([b])[0] <==> SameLetter(a, b);
  }

  lemma PrefixIgnoresCase(s: string, t: string)
    ensures Lower(t) <= Lower(s) <==> OccursAt(s, t, 0)
  {
    if |t| <= |s| {
      forall k | 0 <= k < |t| ensures Lower(t)[k] == Lower(s)[k] <==> SameLetter(s[k], t[k]) {
        LowerSame(s[k], t[k]);
        assert Lower([s[k]])[0] == Lower(s)[k] && Lower([t[k]])[0] == Lower(t)[k];
      }
      assert Lower(t) <= Lower(s) <==> forall k | 0 <= k < |t| :: Lower(t)[k] == Lower(s)[k];
    }
  }

  /** A nickname keyword matches where it occurs somewhere in the nickname, whatever the case of its letters. */
  lemma {:induction false} NicknamesIgnoreCase(s: string, t: string)
    ensures Contains(Lower(s), Lower(t)) <==> exists i :: OccursAt(s, t, i)
  {
    PrefixIgnoresCase(s, t);
    if s != "" {
      NicknamesIgnoreCase(s[1..], t);
      assert Lower(s)[1..] == Lower(s[1..]);
      forall i: nat ensures OccursAt(s[1..], t, i) <==> OccursAt(s, t, i + 1) {
        if i + |t| <= |s[1..]| {
          forall k | 0 <= k < |t| ensures SameLetter(s[1..][i + k], t[k]) <==> SameLetter(s[i + 1 + k], t[k]) {}
        }
      }
      if i: nat :| OccursAt(s, t, i) && i > 0 {
        assert OccursAt(s[1..], t, i - 1);
      }
    }
  }

  /** A blank keyword finds everybody. */
  lemma BlankFindsEverybody(users: map<nat, User>, keyword: string)
    requires Blank(keyword)
    ensures MatchingUsers(users, ParseKeyword(keyword)) == users.Keys
  {
    TrimStartDrops(keyword, "");
    assert keyword + "" == keyword;
    forall u: User ensures Matches(u, ByNickname("")) {
      assert Lower("") == "";
    }
  }
}
