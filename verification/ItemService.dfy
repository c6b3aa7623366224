/** The item stores as nested tables updated in place, and the service that drives them and the database. */
module ItemService {
  import opened Collections
  import opened Items

  datatype InventoryRow = InventoryRow(itemId: nat, quantity: nat)

  datatype UsedRow = UsedRow(holding: Holding, used: int)

  type Table<T> = map<string, map<nat, map<nat, T>>>

  predicate Has<T>(t: Table<T>, s: Slot) {
    s.phaseKey in t && s.userId in t[s.phaseKey] && s.itemId in t[s.phaseKey][s.userId]
  }

  function Slots<T>(t: Table<T>): (slots: set<Slot>)
    ensures forall s :: s in slots <==> Has(t, s)
  {
    set p, u, i | p in t && u in t[p] && i in t[p][u] :: Slot(p, u, i)
  }

  /** A nested table as one map; tables created empty on reading do not show. */
  function Flat<T>(t: Table<T>): (flat: map<Slot, T>)
    ensures forall s :: s in flat <==> Has(t, s)
    ensures forall s | Has(t, s) :: flat[s] == t[s.phaseKey][s.userId][s.itemId]
  {
    map s | s in Slots(t) :: t[s.phaseKey][s.userId][s.itemId]
  }

  lemma SameFlat<T>(t: Table<T>, flat: map<Slot, T>)
    requires forall s :: s in flat <==> Has(t, s)
    requires forall s | Has(t, s) :: flat[s] == t[s.phaseKey][s.userId][s.itemId]
    ensures Flat(t) == flat
  {
  }

  lemma PutFlat<T>(t: Table<T>, s: Slot, value: T)
    requires s.phaseKey in t && s.userId in t[s.phaseKey]
    ensures
      var items: map<nat, T> := t[s.phaseKey][s.userId][s.itemId := value];
      var users: map<nat, map<nat, T>> := t[s.phaseKey][s.userId := items];
      Flat(t[s.phaseKey := users]) == Flat(t)[s := value]
  {
    var items: map<nat, T> := t[s.phaseKey][s.userId][s.itemId := value];
    var users: map<nat, map<nat, T>> := t[s.phaseKey][s.userId := items];
    var after: Table<T> := t[s.phaseKey := users];
    forall k: Slot ensures Has(after, k) <==> Has(t, k) || k == s {}
    forall k: Slot | Has(after, k)
      ensures after[k.phaseKey][k.userId][k.itemId] == if k == s then value else t[k.phaseKey][k.userId][k.itemId] {}
    SameFlat(after, Flat(t)[s := value]);
  }

  class NestedTable<T> {
    var table: Table<T>

    constructor ()
      ensures table == map[]
    {
      table := map[];
    }

    function Contents(): map<Slot, T>
      reads this
    {
      Flat(table)
    }

    method Phase(phaseKey: string)
      modifies this
      ensures Contents() == old(Contents()) && phaseKey in table
    {
      if phaseKey !in table { table := table[phaseKey := map[]]; }
      SameFlat(table, old(Contents()));
    }

    method User(phaseKey: string, userId: nat)
      modifies this
      ensures Contents() == old(Contents()) && phaseKey in table && userId in table[phaseKey]
    {
      Phase(phaseKey);
      ghost var before := Contents();
      var users: map<nat, map<nat, T>> := table[phaseKey];
      if userId !in users {
        users := users[userId := map[]];
        table := table[phaseKey := users];
      }
      SameFlat(table, before);
    }

    method Put(s: Slot, value: T)
      modifies this
      ensures Contents() == old(Contents())[s := value]
    {
      User(s.phaseKey, s.userId);
      PutFlat(table, s, value);
      var users: map<nat, map<nat, T>> := table[s.phaseKey];
      var items: map<nat, T> := users[s.userId];
      items := items[s.itemId := value];
      users := users[s.userId := items];
      table := table[s.phaseKey := users];
    }

    method Get(s: Slot) returns (r: Option<T>)
      modifies this
      ensures Contents() == old(Contents())
      ensures r == if s in Contents() then Some(Contents()[s]) else None
    {
      User(s.phaseKey, s.userId);
      r := if s.itemId in table[s.phaseKey][s.userId] then Some(table[s.phaseKey][s.userId][s.itemId]) else None;
    }

    method Clear(phaseKey: string)
      modifies this
      ensures Contents() == map s | s in old(Contents()) && s.phaseKey != phaseKey :: old(Contents())[s]
    {
      table := table - {phaseKey};
      SameFlat(table, map s | s in old(Contents()) && s.phaseKey != phaseKey :: old(Contents())[s]);
    }
  }

  // ---------- listings ----------

  function Plus(used: map<Holding, nat>, row: UsedRow): map<Holding, nat> {
    if row.used <= 0 then used else used[row.holding := QuantityOf(used, row.holding) + row.used]
  }

  /** What the rows of a list take from each holding together; rows of no use take nothing. */
  function Sums(list: seq<UsedRow>): map<Holding, nat> {
    if list == [] then map[] else Plus(Sums(list[..|list| - 1]), list[|list| - 1])
  }

  /** Every row takes something, and no two from the same holding. */
  ghost predicate Once(list: seq<UsedRow>) {
    && (forall j | 0 <= j < |list| :: list[j].used > 0)
    && forall j, k | 0 <= j < k < |list| :: list[j].holding != list[k].holding
  }

  lemma {:induction false} SumsKeys(list: seq<UsedRow>, h: Holding)
    ensures h in Sums(list) <==> exists j | 0 <= j < |list| :: list[j].holding == h && list[j].used > 0
  {
    if list != [] { SumsKeys(list[..|list| - 1], h); }
  }

  lemma {:induction false} SumsAppend(a: seq<UsedRow>, b: seq<UsedRow>)
    requires Sums(a).Keys !! Sums(b).Keys
    ensures Sums(a + b) == Sums(a) + Sums(b)
  {
    if b == [] {
      assert a + b == a;
    } else {
      assert (a + b)[..|a + b| - 1] == a + b[..|b| - 1];
      PlusAcross(Sums(a), Sums(b[..|b| - 1]), b[|b| - 1]);
      SumsAppend(a, b[..|b| - 1]);
    }
  }

  /** Rows that come later only add to what is taken. */
  lemma {:induction false} SumsGrow(list: seq<UsedRow>, i: nat, h: Holding)
    requires i <= |list|
    ensures QuantityOf(Sums(list[..i]), h) <= QuantityOf(Sums(list), h)
  {
    if i == |list| {
      assert list[..i] == list;
    } else {
      assert list[..|list| - 1][..i] == list[..i];
      SumsGrow(list[..|list| - 1], i, h);
    }
  }

  lemma OnceAppend(a: seq<UsedRow>, b: seq<UsedRow>)
    requires Once(a) && Once(b) && Sums(a).Keys !! Sums(b).Keys
    ensures Once(a + b)
  {
    forall j, k | 0 <= j < k < |a + b| ensures (a + b)[j].holding != (a + b)[k].holding {
      if j < |a| <= k {
        SumsKeys(a, a[j].holding);
        SumsKeys(b, b[k - |a|].holding);
      }
    }
  }

  lemma PlusAcross(a: map<Holding, nat>, b: map<Holding, nat>, row: UsedRow)
    requires a.Keys !! Plus(b, row).Keys
    ensures a.Keys !! b.Keys && Plus(a + b, row) == a + Plus(b, row)
  {
  }

  function Listed(list: seq<InventoryRow>): map<nat, nat> {
    if list == [] then map[]
    else
      var last := list[|list| - 1];
      Listed(list[..|list| - 1])[last.itemId := last.quantity]
  }

  function SnapshotOf(listed: map<nat, nat>, phaseKey: string, userId: nat): map<Slot, ItemState> {
    map s | s in (set i | i in listed :: Slot(phaseKey, userId, i)) :: ItemState(listed[s.itemId], listed[s.itemId])
  }

  lemma SnapshotMore(listed: map<nat, nat>, phaseKey: string, userId: nat, row: InventoryRow)
    ensures SnapshotOf(listed[row.itemId := row.quantity], phaseKey, userId) ==
            SnapshotOf(listed, phaseKey, userId)[Slot(phaseKey, userId, row.itemId) := ItemState(row.quantity, row.quantity)]
  {
  }

  lemma PlusMore<K, V>(a: map<K, V>, b: map<K, V>, k: K, v: V)
    ensures a + b[k := v] == (a + b)[k := v]
  {
  }

  lemma InitMore(before: map<Slot, ItemState>, phaseKey: string, userId: nat, items: seq<InventoryRow>, i: nat)
    requires i < |items|
    ensures before + SnapshotOf(Listed(items[..i + 1]), phaseKey, userId) ==
            (before + SnapshotOf(Listed(items[..i]), phaseKey, userId))
              [Slot(phaseKey, userId, items[i].itemId) := ItemState(items[i].quantity, items[i].quantity)]
  {
    assert items[..i + 1][..i] == items[..i];
    SnapshotMore(Listed(items[..i]), phaseKey, userId, items[i]);
    PlusMore(before, SnapshotOf(Listed(items[..i]), phaseKey, userId), Slot(phaseKey, userId, items[i].itemId),
             ItemState(items[i].quantity, items[i].quantity));
  }

  function OwnedItems(rows: map<Holding, nat>, userId: nat): set<nat> {
    set h | h in rows && h.userId == userId :: h.itemId
  }

  function OwnedQuantities(rows: map<Holding, nat>, userId: nat): map<nat, nat> {
    map i | i in OwnedItems(rows, userId) :: QuantityOf(rows, Holding(userId, i))
  }

  lemma SnapshotOfOwned(rows: map<Holding, nat>, phaseKey: string, userId: nat)
    ensures SnapshotOf(OwnedQuantities(rows, userId), phaseKey, userId) == Snapshot(rows, phaseKey, userId)
  {
  }

  /** The used quantities of some of a user's items, and of some of a phase's users. */
  function UserUsed(userId: nat, u: map<nat, ItemState>, items: set<nat>): (r: map<Holding, nat>)
    requires items <= u.Keys
    ensures forall h :: h in r <==> h.userId == userId && h.itemId in items && Used(u[h.itemId]) > 0
    ensures forall h | h in r :: r[h] == Used(u[h.itemId])
  {
    map h | h in (set i | i in items && Used(u[i]) > 0 :: Holding(userId, i)) :: Used(u[h.itemId])
  }

  function PhaseUsed(p: map<nat, map<nat, ItemState>>, users: set<nat>): (r: map<Holding, nat>)
    requires users <= p.Keys
    ensures forall h :: h in r <==> h.userId in users && h.itemId in p[h.userId] && Used(p[h.userId][h.itemId]) > 0
    ensures forall h | h in r :: r[h] == Used(p[h.userId][h.itemId])
  {
    map h | h in (set x, i | x in users && i in p[x] && Used(p[x][i]) > 0 :: Holding(x, i)) :: Used(p[h.userId][h.itemId])
  }

  lemma PhaseUsedMoreAt(p: map<nat, map<nat, ItemState>>, users: set<nat>, userId: nat, h: Holding)
    requires users <= p.Keys && userId in p && userId !in users
    ensures
      var more := PhaseUsed(p, users + {userId});
      var (before, mine) := (PhaseUsed(p, users), UserUsed(userId, p[userId], p[userId].Keys));
      && (h in more <==> h in before || h in mine) && !(h in before && h in mine)
      && (h in more ==> more[h] == if h in mine then mine[h] else before[h])
  {
  }

  lemma PhaseUsedMore(p: map<nat, map<nat, ItemState>>, users: set<nat>, userId: nat)
    requires users <= p.Keys && userId in p && userId !in users
    ensures PhaseUsed(p, users + {userId}) == PhaseUsed(p, users) + UserUsed(userId, p[userId], p[userId].Keys)
    ensures PhaseUsed(p, users).Keys !! UserUsed(userId, p[userId], p[userId].Keys).Keys
  {
    var more := PhaseUsed(p, users + {userId});
    var (before, mine) := (PhaseUsed(p, users), UserUsed(userId, p[userId], p[userId].Keys));
    DisjointUnion(more, before, mine) by {
      forall h ensures (h in more <==> h in before || h in mine) && !(h in before && h in mine)
        && (h in more ==> more[h] == if h in mine then mine[h] else before[h])
      {
        PhaseUsedMoreAt(p, users, userId, h);
      }
    }
  }

  lemma DisjointUnion<K, V>(c: map<K, V>, a: map<K, V>, b: map<K, V>)
    requires forall k :: (k in c <==> k in a || k in b) && !(k in a && k in b)
    requires forall k | k in c :: c[k] == if k in b then b[k] else a[k]
    ensures c == a + b && a.Keys !! b.Keys
  {
  }

  lemma UserUsedMore(userId: nat, u: map<nat, ItemState>, items: set<nat>, itemId: nat)
    requires items <= u.Keys && itemId in u && itemId !in items
    ensures UserUsed(userId, u, items + {itemId}) ==
            if Used(u[itemId]) > 0 then UserUsed(userId, u, items)[Holding(userId, itemId) := Used(u[itemId])]
            else UserUsed(userId, u, items)
    ensures Holding(userId, itemId) !in UserUsed(userId, u, items)
  {
  }

  lemma ExtractMore(userId: nat, u: map<nat, ItemState>, done: set<nat>, itemId: nat, out: seq<UsedRow>)
    requires done <= u.Keys && itemId in u && itemId !in done
    requires Once(out) && Sums(out) == UserUsed(userId, u, done)
    ensures
      var next := if Used(u[itemId]) > 0 then out + [UsedRow(Holding(userId, itemId), Used(u[itemId]))] else out;
      Once(next) && Sums(next) == UserUsed(userId, u, done + {itemId})
  {
    UserUsedMore(userId, u, done, itemId);
    if Used(u[itemId]) > 0 { OnceMore(out, UsedRow(Holding(userId, itemId), Used(u[itemId]))); }
  }

  lemma OnceMore(out: seq<UsedRow>, row: UsedRow)
    requires Once(out) && row.used > 0 && row.holding !in Sums(out)
    ensures Once(out + [row]) && Sums(out + [row]) == Sums(out)[row.holding := row.used]
  {
    SumsKeys(out, row.holding);
    assert (out + [row])[..|out|] == out;
  }

  lemma UsedInAt(items: map<Slot, ItemState>, phaseKey: string, h: Holding)
    ensures
      var s := Slot(phaseKey, h.userId, h.itemId);
      h in UsedIn(items, phaseKey) <==> s in items && Used(items[s]) > 0
    ensures h in UsedIn(items, phaseKey) ==> UsedIn(items, phaseKey)[h] == Used(items[Slot(phaseKey, h.userId, h.itemId)])
  {
  }

  lemma PhaseUsedAllAt(t: Table<ItemState>, phaseKey: string, h: Holding)
    requires phaseKey in t
    ensures
      var (used, expected) := (UsedIn(Flat(t), phaseKey), PhaseUsed(t[phaseKey], t[phaseKey].Keys));
      (h in used <==> h in expected) && (h in used ==> used[h] == expected[h])
  {
  }

  lemma PhaseUsedAll(t: Table<ItemState>, phaseKey: string)
    ensures phaseKey in t ==> UsedIn(Flat(t), phaseKey) == PhaseUsed(t[phaseKey], t[phaseKey].Keys)
    ensures phaseKey !in t ==> UsedIn(Flat(t), phaseKey) == map[]
  {
    if phaseKey in t {
      var (used, expected) := (UsedIn(Flat(t), phaseKey), PhaseUsed(t[phaseKey], t[phaseKey].Keys));
      forall h ensures (h in used <==> h in expected) && (h in used ==> used[h] == expected[h]) {
        PhaseUsedAllAt(t, phaseKey, h);
      }
    } else {
      forall h ensures h !in UsedIn(Flat(t), phaseKey) {
        UsedInAt(Flat(t), phaseKey, h);
      }
    }
  }

  lemma ChargeMore(rows: map<Holding, nat>, used: map<Holding, nat>, row: UsedRow)
    requires Covers(rows, used) && row.used > 0
    ensures
      var left := QuantityOf(Charge(rows, used), row.holding);
      && left == QuantityOf(rows, row.holding) - QuantityOf(used, row.holding)
      && (left >= row.used ==>
            Covers(rows, Plus(used, row)) && Charge(rows, Plus(used, row)) == Charge(rows, used)[row.holding := left - row.used])
  {
  }

  lemma NotCovered(rows: map<Holding, nat>, list: seq<UsedRow>, i: nat)
    requires i < |list| && QuantityOf(rows, list[i].holding) < QuantityOf(Sums(list[..i + 1]), list[i].holding)
    ensures !Covers(rows, Sums(list))
  {
    SumsGrow(list, i + 1, list[i].holding);
  }

  class GameInventoryStore {
    const inv: NestedTable<ItemState>

    constructor ()
      ensures fresh(inv) && inv.Contents() == map[]
    {
      inv := new NestedTable<ItemState>();
      new;
      SameFlat(inv.table, map[]);
    }

    method InitUser(phaseKey: string, userId: nat, items: seq<InventoryRow>)
      modifies inv
      ensures inv.Contents() == old(inv.Contents()) + SnapshotOf(Listed(items), phaseKey, userId)
    {
      for i := 0 to |items|
        invariant inv.Contents() == old(inv.Contents()) + SnapshotOf(Listed(items[..i]), phaseKey, userId)
      {
        inv.Put(Slot(phaseKey, userId, items[i].itemId), ItemState(items[i].quantity, items[i].quantity));
        InitMore(old(inv.Contents()), phaseKey, userId, items, i);
      }
      assert items[..|items|] == items;
    }

    method GetRemaining(s: Slot) returns (remaining: nat)
      modifies inv
      ensures inv.Contents() == old(inv.Contents()) && remaining == RemainingAt(inv.Contents(), s)
    {
      var st := inv.Get(s);
      remaining := if st.Some? then st.value.remaining else 0;
    }

    method Decrement(s: Slot) returns (remaining: nat)
      modifies inv
      ensures
        var before := if s in old(inv.Contents()) then old(inv.Contents())[s] else ItemState(0, 0);
        && remaining == (if before.remaining > 0 then before.remaining - 1 else 0)
        && inv.Contents() == old(inv.Contents())[s := ItemState(before.initial, remaining)]
    {
      var found := inv.Get(s);
      var st := Or(found, ItemState(0, 0));
      remaining := if st.remaining > 0 then st.remaining - 1 else 0;
      inv.Put(s, ItemState(st.initial, remaining));
    }

    /** Every slot of the phase that was used, user by user and item by item. */
    method ExtractUsed(phaseKey: string) returns (out: seq<UsedRow>)
      ensures Once(out) && Sums(out) == UsedIn(inv.Contents(), phaseKey)
    {
      out := [];
      PhaseUsedAll(inv.table, phaseKey);
      if phaseKey !in inv.table { return; }
      var p := inv.table[phaseKey];
      var users := p.Keys;
      while users != {}
        invariant users <= p.Keys
        invariant Once(out) && Sums(out) == PhaseUsed(p, p.Keys - users)
        decreases users
      {
        var userId :| userId in users;
        var rows := ExtractUser(userId, p[userId]);
        PhaseUsedMore(p, p.Keys - users, userId);
        assert p.Keys - (users - {userId}) == p.Keys - users + {userId};
        SumsAppend(out, rows);
        OnceAppend(out, rows);
        out := out + rows;
        users := users - {userId};
      }
      assert p.Keys - users == p.Keys;
    }

    method ExtractUser(userId: nat, u: map<nat, ItemState>) returns (out: seq<UsedRow>)
      ensures Once(out) && Sums(out) == UserUsed(userId, u, u.Keys)
    {
      out := [];
      var items := u.Keys;
      while items != {}
        invariant items <= u.Keys
        invariant Once(out) && Sums(out) == UserUsed(userId, u, u.Keys - items)
        decreases items
      {
        var itemId :| itemId in items;
        var used := Used(u[itemId]);
        assert u.Keys - (items - {itemId}) == u.Keys - items + {itemId};
        ExtractMore(userId, u, u.Keys - items, itemId, out);
        if used > 0 { out := out + [UsedRow(Holding(userId, itemId), used)]; }
        items := items - {itemId};
      }
      assert u.Keys - items == u.Keys;
    }
  }

  class ItemInventoryService {
    var rows: map<Holding, nat>

    /** A user's rows, in the order the database returns them. */
    method GetUserInventoryRows(userId: nat) returns (out: seq<InventoryRow>)
      ensures Listed(out) == OwnedQuantities(rows, userId)
    {
      out := [];
      var mine := OwnedItems(rows, userId);
      var left := mine;
      while left != {}
        invariant left <= mine
        invariant Listed(out) == map i | i in mine && i !in left :: QuantityOf(rows, Holding(userId, i))
        decreases left
      {
        var i :| i in left;
        var row := InventoryRow(i, QuantityOf(rows, Holding(userId, i)));
        assert (out + [row])[..|out|] == out;
        out := out + [row];
        left := left - {i};
      }
    }

    method DecrementQuantityTx(h: Holding, used: nat) returns (r: Result<(), ItemError>)
      requires used > 0
      modifies this
      ensures r == if QuantityOf(old(rows), h) >= used then Ok(()) else Err(INVENTORY_NEGATIVE)
      ensures rows == if r.Ok? then old(rows)[h := QuantityOf(old(rows), h) - used] else old(rows)
    {
      var quantity := QuantityOf(rows, h);
      if quantity < used { return Err(INVENTORY_NEGATIVE); }
      rows := rows[h := quantity - used];
      return Ok(());
    }

    /** One transaction: the first row that would go negative undoes all of them. */
    method ApplyUsedQuantities(list: seq<UsedRow>) returns (r: Result<(), ItemError>)
      modifies this
      ensures r == if Covers(old(rows), Sums(list)) then Ok(()) else Err(INVENTORY_NEGATIVE)
      ensures rows == if Covers(old(rows), Sums(list)) then Charge(old(rows), Sums(list)) else old(rows)
    {
      var before := rows;
      assert Charge(before, map[]) == before;
      for i := 0 to |list|
        invariant Covers(before, Sums(list[..i])) && rows == Charge(before, Sums(list[..i]))
      {
        var row := list[i];
        assert list[..i + 1][..i] == list[..i];
        if row.used > 0 {
          ChargeMore(before, Sums(list[..i]), row);
          var done := DecrementQuantityTx(row.holding, row.used);
          if done.Err? {
            NotCovered(before, list, i);
            rows := before;
            return Err(done.error);
          }
        }
      }
      assert list[..|list|] == list;
      return Ok(());
    }
  }

  class GameItemService {
    const inventoryDb: ItemInventoryService
    const cooldowns: NestedTable<int>
    const invStore: GameInventoryStore

    constructor (inventoryDb: ItemInventoryService)
      ensures this.inventoryDb == inventoryDb && fresh(cooldowns) && fresh(invStore.inv)
      ensures Contents() == Fresh(inventoryDb.rows)
    {
      this.inventoryDb := inventoryDb;
      cooldowns := new NestedTable<int>();
      invStore := new GameInventoryStore();
      new;
      SameFlat(cooldowns.table, map[]);
    }

    function Contents(): Cache
      reads inventoryDb, cooldowns, invStore.inv
    {
      Cache(invStore.inv.Contents(), cooldowns.Contents(), inventoryDb.rows)
    }

    method InitInventory(phaseKey: string, userId: nat)
      modifies invStore.inv
      ensures Contents() == OpenUser(old(Contents()), phaseKey, userId)
    {
      var rows := inventoryDb.GetUserInventoryRows(userId);
      invStore.InitUser(phaseKey, userId, rows);
      SnapshotOfOwned(inventoryDb.rows, phaseKey, userId);
    }

    method UseItem(s: Slot, now: int, spec: Option<ItemSpec>) returns (r: Result<Decision, ItemError>)
      modifies invStore.inv, cooldowns
      ensures r == Decide(now, RemainingAt(old(Contents()).items, s), EndsAt(old(Contents()).cooldowns, s), spec)
      ensures Contents() == Items.UseItem(old(Contents()), s, now, spec)
    {
      var remaining := invStore.GetRemaining(s);
      var endsAt := cooldowns.Get(s);
      r := Decide(now, remaining, Or(endsAt, 0), spec);
      if r.Ok? { Spend(s, r.value); }
    }

    method Spend(s: Slot, d: Decision)
      requires d.newRemaining + 1 == RemainingAt(Contents().items, s)
      modifies invStore.inv, cooldowns
      ensures Contents() == Spent(old(Contents()), s, d)
    {
      TakeOne(s);
      cooldowns.Put(s, d.newCooldownEndsAt);
    }

    method TakeOne(s: Slot)
      requires RemainingAt(Contents().items, s) > 0
      modifies invStore.inv
      ensures
        var items := old(Contents()).items;
        Contents() == old(Contents()).(items := items[s := ItemState(items[s].initial, items[s].remaining - 1)])
    {
      var _ := invStore.Decrement(s);
    }

    method CommitInventory(phaseKey: string) returns (r: Result<(), ItemError>)
      modifies invStore.inv, cooldowns, inventoryDb
      ensures r == if Settles(old(Contents()), phaseKey) then Ok(()) else Err(INVENTORY_NEGATIVE)
      ensures Contents() == CommitPhase(old(Contents()), phaseKey)
    {
      ghost var used;
      r, used := SettlePhase(phaseKey);
      if r.Ok? { ClearPhase(phaseKey); }
    }

    method SettlePhase(phaseKey: string) returns (r: Result<(), ItemError>, ghost used: map<Holding, nat>)
      modifies inventoryDb
      ensures used == UsedIn(invStore.inv.Contents(), phaseKey)
      ensures r == if Covers(old(inventoryDb.rows), used) then Ok(()) else Err(INVENTORY_NEGATIVE)
      ensures inventoryDb.rows == if r.Ok? then Charge(old(inventoryDb.rows), used) else old(inventoryDb.rows)
    {
      var usedList := invStore.ExtractUsed(phaseKey);
      used := Sums(usedList);
      r := SettleUsed(usedList);
    }

    method ClearPhase(phaseKey: string)
      modifies invStore.inv, cooldowns
      ensures Contents() ==
              Cache(DropItems(old(Contents()).items, phaseKey), DropCooldowns(old(Contents()).cooldowns, phaseKey),
                    inventoryDb.rows)
    {
      invStore.inv.Clear(phaseKey);
      cooldowns.Clear(phaseKey);
    }

    method SettleUsed(usedList: seq<UsedRow>) returns (r: Result<(), ItemError>)
      modifies inventoryDb
      ensures r == if Covers(old(inventoryDb.rows), Sums(usedList)) then Ok(()) else Err(INVENTORY_NEGATIVE)
      ensures inventoryDb.rows ==
              if r.Ok? then Charge(old(inventoryDb.rows), Sums(usedList)) else old(inventoryDb.rows)
    {
      if |usedList| == 0 {
        NothingToCharge(inventoryDb.rows);
        return Ok(());
      }
      r := inventoryDb.ApplyUsedQuantities(usedList);
    }
  }

  lemma NothingToCharge(rows: map<Holding, nat>)
    ensures Charge(rows, map[]) == rows
  {
  }
}
