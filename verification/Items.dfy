/**
 * Items in a drawing phase: a snapshot of the inventory is spent in memory under cooldowns
 * and charged to the database when the phase ends. Phases, users and rooms interleave freely.
 */
module Items {
  import opened Collections

  datatype Slot = Slot(phaseKey: string, userId: nat, itemId: nat)

  datatype Holding = Holding(userId: nat, itemId: nat)

  datatype ItemState = ItemState(initial: nat, remaining: nat)

  datatype ItemSpec = ItemSpec(cooldownMs: nat, durationMs: nat)

  datatype ItemError = NOT_ENOUGH | COOLDOWN_REMAINING | SPEC_NOT_FOUND | INVENTORY_NEGATIVE

  datatype Decision = Decision(newRemaining: nat, newCooldownEndsAt: int)

  /** The two in-memory stores and the owned-quantity rows. */
  datatype Cache = Cache(items: map<Slot, ItemState>, cooldowns: map<Slot, int>, rows: map<Holding, nat>)

  datatype ItemEvent =
    | Open(phaseKey: string, userId: nat)
    | Use(slot: Slot, now: int, spec: Option<ItemSpec>)
    | Commit(phaseKey: string)
    | Restock(holding: Holding, quantity: nat)

  function HoldingOf(s: Slot): Holding {
    Holding(s.userId, s.itemId)
  }

  function QuantityOf(rows: map<Holding, nat>, h: Holding): nat {
    if h in rows then rows[h] else 0
  }

  function RemainingAt(items: map<Slot, ItemState>, s: Slot): nat {
    if s in items then items[s].remaining else 0
  }

  function EndsAt(cooldowns: map<Slot, int>, s: Slot): int {
    if s in cooldowns then cooldowns[s] else 0
  }

  /** `Math.max(0, initial - remaining)` */
  function Used(st: ItemState): nat {
    if st.initial > st.remaining then st.initial - st.remaining else 0
  }

  /** Quantity is looked at first, then the cooldown, then the specification. */
  function Decide(now: int, remaining: nat, cooldownEndsAt: int, spec: Option<ItemSpec>): Result<Decision, ItemError> {
    if remaining <= 0 then Err(NOT_ENOUGH)
    else if cooldownEndsAt > now then Err(COOLDOWN_REMAINING)
    else if spec.None? then Err(SPEC_NOT_FOUND)
    else Ok(Decision(remaining - 1, now + spec.value.cooldownMs))
  }

  // ---------- the steps ----------

  function Snapshot(rows: map<Holding, nat>, phaseKey: string, userId: nat): map<Slot, ItemState> {
    map s | s in (set h | h in rows && h.userId == userId :: Slot(phaseKey, userId, h.itemId))
      :: ItemState(QuantityOf(rows, HoldingOf(s)), QuantityOf(rows, HoldingOf(s)))
  }

  function OpenUser(c: Cache, phaseKey: string, userId: nat): Cache {
    c.(items := c.items + Snapshot(c.rows, phaseKey, userId))
  }

  predicate Accepts(c: Cache, s: Slot, now: int, spec: Option<ItemSpec>) {
    Decide(now, RemainingAt(c.items, s), EndsAt(c.cooldowns, s), spec).Ok?
  }

  function Spent(c: Cache, s: Slot, d: Decision): Cache
    requires s in c.items
  {
    Cache(c.items[s := ItemState(c.items[s].initial, d.newRemaining)], c.cooldowns[s := d.newCooldownEndsAt], c.rows)
  }

  function UseItem(c: Cache, s: Slot, now: int, spec: Option<ItemSpec>): Cache {
    var d := Decide(now, RemainingAt(c.items, s), EndsAt(c.cooldowns, s), spec);
    if d.Err? then c else Spent(c, s, d.value)
  }

  function UsedIn(items: map<Slot, ItemState>, phaseKey: string): map<Holding, nat> {
    map h | h in (set s | s in items && s.phaseKey == phaseKey && Used(items[s]) > 0 :: HoldingOf(s))
      :: Used(items[Slot(phaseKey, h.userId, h.itemId)])
  }

  predicate Covers(rows: map<Holding, nat>, used: map<Holding, nat>) {
    forall h | h in used :: QuantityOf(rows, h) >= used[h]
  }

  function Charge(rows: map<Holding, nat>, used: map<Holding, nat>): map<Holding, nat>
    requires Covers(rows, used)
  {
    map h | h in rows :: if h in used then rows[h] - used[h] else rows[h]
  }

  function DropItems(items: map<Slot, ItemState>, phaseKey: string): map<Slot, ItemState> {
    map s | s in items && s.phaseKey != phaseKey :: items[s]
  }

  function DropCooldowns(cooldowns: map<Slot, int>, phaseKey: string): map<Slot, int> {
    map s | s in cooldowns && s.phaseKey != phaseKey :: cooldowns[s]
  }

  predicate Settles(c: Cache, phaseKey: string) {
    Covers(c.rows, UsedIn(c.items, phaseKey))
  }

  /** One transaction over all holdings; only when it succeeds are the stores cleared. */
  function CommitPhase(c: Cache, phaseKey: string): Cache {
    if !Settles(c, phaseKey) then c
    else Cache(DropItems(c.items, phaseKey), DropCooldowns(c.cooldowns, phaseKey), Charge(c.rows, UsedIn(c.items, phaseKey)))
  }

  function Apply(c: Cache, e: ItemEvent): Cache {
    match e
    case Open(phaseKey, userId) => OpenUser(c, phaseKey, userId)
    case Use(s, now, spec) => UseItem(c, s, now, spec)
    case Commit(phaseKey) => CommitPhase(c, phaseKey)
    case Restock(h, quantity) => c.(rows := c.rows[h := QuantityOf(c.rows, h) + quantity])
  }

  function RunItems(c: Cache, run: seq<ItemEvent>): Cache {
    if run == [] then c else Apply(RunItems(c, run[..|run| - 1]), run[|run| - 1])
  }

  // ---------- uses since a slot was opened ----------

  /** The times at which uses of a slot were accepted since it was last opened. */
  function UseTimes(c: Cache, run: seq<ItemEvent>, s: Slot): seq<int> {
    if run == [] then []
    else
      var before := RunItems(c, run[..|run| - 1]);
      var times := UseTimes(c, run[..|run| - 1], s);
      match run[|run| - 1]
      case Open(phaseKey, userId) =>
        if s.phaseKey == phaseKey && s.userId == userId && HoldingOf(s) in before.rows then [] else times
      case Use(slot, now, spec) => if slot == s && Accepts(before, s, now, spec) then times + [now] else times
      case Commit(phaseKey) => if s.phaseKey == phaseKey && Settles(before, phaseKey) then [] else times
      case Restock(_, _) => times
  }

  ghost predicate FixedCooldown(run: seq<ItemEvent>, itemId: nat, cooldownMs: nat) {
    forall e | e in run && e.Use? && e.slot.itemId == itemId && e.spec.Some? :: e.spec.value.cooldownMs == cooldownMs
  }

  ghost predicate Spaced(times: seq<int>, cooldownMs: nat) {
    forall k | 0 <= k < |times| - 1 :: times[k] + cooldownMs <= times[k + 1]
  }

  const EMPTY: Cache := Cache(map[], map[], map[])

  /** The stores begin empty; only the database has rows. */
  function Fresh(rows: map<Holding, nat>): Cache {
    EMPTY.(rows := rows)
  }

  ghost predicate SlotAgrees(c: Cache, s: Slot, times: seq<int>) {
    if s in c.items then c.items[s].remaining <= c.items[s].initial && |times| == c.items[s].initial - c.items[s].remaining
    else times == []
  }

  lemma OneMoreAgrees(c: Cache, run: seq<ItemEvent>, s: Slot)
    requires run != [] && SlotAgrees(RunItems(c, run[..|run| - 1]), s, UseTimes(c, run[..|run| - 1], s))
    ensures SlotAgrees(RunItems(c, run), s, UseTimes(c, run, s))
  {
    var (before, times) := (RunItems(c, run[..|run| - 1]), UseTimes(c, run[..|run| - 1], s));
    match run[|run| - 1]
    case Open(phaseKey, userId) => OpenAgrees(before, s, times, phaseKey, userId);
    case _ =>
  }

  lemma OpenAgrees(c: Cache, s: Slot, times: seq<int>, phaseKey: string, userId: nat)
    requires SlotAgrees(c, s, times)
    ensures SlotAgrees(OpenUser(c, phaseKey, userId), s,
                       if s.phaseKey == phaseKey && s.userId == userId && HoldingOf(s) in c.rows then [] else times)
  {
    assert s in Snapshot(c.rows, phaseKey, userId) <==> s.phaseKey == phaseKey && s.userId == userId && HoldingOf(s) in c.rows;
  }

  /**
   * Conservation: whatever was opened, used, committed or bought, a slot never goes below zero
   * or above its snapshot, and what is missing is exactly the number of accepted uses.
   */
  lemma {:induction false} RemainingIsInitialMinusUses(rows: map<Holding, nat>, run: seq<ItemEvent>, s: Slot)
    ensures SlotAgrees(RunItems(Fresh(rows), run), s, UseTimes(Fresh(rows), run, s))
  {
    if run != [] {
      RemainingIsInitialMinusUses(rows, run[..|run| - 1], s);
      OneMoreAgrees(Fresh(rows), run, s);
    }
  }

  ghost predicate CoolsDown(c: Cache, s: Slot, times: seq<int>, cooldownMs: nat) {
    && Spaced(times, cooldownMs)
    && (times != [] ==> EndsAt(c.cooldowns, s) == times[|times| - 1] + cooldownMs)
  }

  lemma AcceptedUseCoolsDown(c: Cache, s: Slot, now: int, spec: Option<ItemSpec>, times: seq<int>, cooldownMs: nat)
    requires CoolsDown(c, s, times, cooldownMs) && Accepts(c, s, now, spec) && spec.value.cooldownMs == cooldownMs
    ensures CoolsDown(UseItem(c, s, now, spec), s, times + [now], cooldownMs)
  {
  }

  lemma OtherUseCoolsDown(c: Cache, s: Slot, now: int, spec: Option<ItemSpec>, other: Slot, times: seq<int>, cooldownMs: nat)
    requires CoolsDown(c, other, times, cooldownMs) && (other != s || !Accepts(c, s, now, spec))
    ensures CoolsDown(UseItem(c, s, now, spec), other, times, cooldownMs)
  {
  }

  /** Accepted uses of a slot are a cooldown apart, whatever order the clock readings come in. */
  lemma {:induction false} UsesAreSpaced(rows: map<Holding, nat>, run: seq<ItemEvent>, s: Slot, cooldownMs: nat)
    requires FixedCooldown(run, s.itemId, cooldownMs)
    ensures CoolsDown(RunItems(Fresh(rows), run), s, UseTimes(Fresh(rows), run, s), cooldownMs)
  {
    if run != [] {
      var front := run[..|run| - 1];
      var last := run[|run| - 1];
      assert last in run && forall e | e in front :: e in run;
      UsesAreSpaced(rows, front, s, cooldownMs);
      var before := RunItems(Fresh(rows), front);
      var times := UseTimes(Fresh(rows), front, s);
      if last.Use? {
        if last.slot == s && Accepts(before, s, last.now, last.spec) {
          AcceptedUseCoolsDown(before, s, last.now, last.spec, times, cooldownMs);
        } else {
          OtherUseCoolsDown(before, last.slot, last.now, last.spec, s, times, cooldownMs);
        }
      }
    }
  }

  lemma {:induction false} SpacedApart(times: seq<int>, cooldownMs: nat, i: nat, j: nat)
    requires Spaced(times, cooldownMs) && i <= j < |times|
    ensures times[i] + cooldownMs * (j - i) <= times[j]
    decreases j
  {
    if i < j {
      SpacedApart(times, cooldownMs, i, j - 1);
      assert cooldownMs * (j - i) == cooldownMs * (j - 1 - i) + cooldownMs;
    }
  }

  function Within(times: seq<int>, from: int, length: nat): set<nat> {
    set k: nat | k < |times| && from <= times[k] <= from + length
  }

  function UpTo(n: nat): (s: set<nat>)
    ensures |s| == n + 1 && forall k: nat :: k in s <==> k <= n
  {
    if n == 0 then {0} else UpTo(n - 1) + {n}
  }

  lemma {:induction false} TimesGrow(d: nat, n: nat, m: nat)
    requires n <= m
    ensures d * n <= d * m
    decreases m
  {
  }

  lemma TimesFit(m: nat, length: nat, d: nat)
    requires d > 0 && d * m <= length
    ensures m <= length / d
  {
    var q := length / d;
    assert length == q * d + length % d;
    if m >= q + 1 { TimesGrow(d, q + 1, m); }
  }

  lemma RankFits(times: seq<int>, cooldownMs: nat, from: int, length: nat, first: nat, k: nat)
    requires Spaced(times, cooldownMs) && cooldownMs > 0
    requires first <= k && first in Within(times, from, length) && k in Within(times, from, length)
    ensures k - first <= length / cooldownMs
  {
    SpacedApart(times, cooldownMs, first, k);
    TimesFit(k - first, length, cooldownMs);
  }

  lemma LimitedRanks(window: set<nat>, first: nat, most: nat)
    requires forall k | k in window :: first <= k <= first + most
    ensures |window| <= most + 1
  {
    var rank := map k | k in window :: k - first;
    InjectiveImageSize(window, rank, UpTo(most));
  }

  lemma WindowBound(times: seq<int>, cooldownMs: nat, from: int, length: nat)
    requires Spaced(times, cooldownMs) && cooldownMs > 0
    ensures |Within(times, from, length)| <= length / cooldownMs + 1
  {
    var window := Within(times, from, length);
    if window != {} {
      LeastExists(window);
      var first: nat :| IsLeast(window, first);
      forall k | k in window ensures k - first <= length / cooldownMs {
        RankFits(times, cooldownMs, from, length, first, k);
      }
      LimitedRanks(window, first, length / cooldownMs);
    }
  }

  /** Rate limit: no window of the given length sees more uses than stock and cooldown allow. */
  lemma UsesInWindow(rows: map<Holding, nat>, run: seq<ItemEvent>, s: Slot, cooldownMs: nat, from: int, length: nat)
    requires FixedCooldown(run, s.itemId, cooldownMs) && cooldownMs > 0
    requires s in RunItems(Fresh(rows), run).items
    ensures
      var uses := |Within(UseTimes(Fresh(rows), run, s), from, length)|;
      uses <= length / cooldownMs + 1 && uses <= RunItems(Fresh(rows), run).items[s].initial
  {
    var times := UseTimes(Fresh(rows), run, s);
    UsesAreSpaced(rows, run, s, cooldownMs);
    WindowBound(times, cooldownMs, from, length);
    RemainingIsInitialMinusUses(rows, run, s);
    IndicesBound(times, from, length);
  }

  lemma IndicesBound(times: seq<int>, from: int, length: nat)
    ensures |Within(times, from, length)| <= |times|
  {
    var window := Within(times, from, length);
    if times == [] {
      assert window == {};
    } else {
      LimitedRanks(window, 0, |times| - 1);
    }
  }

  // ---------- settlement ----------

  function UsedAt(items: map<Slot, ItemState>, s: Slot): nat {
    if s in items then Used(items[s]) else 0
  }

  /** The settlement of a phase goes through exactly when every slot's uses are still in stock. */
  lemma SettlesExactly(c: Cache, phaseKey: string)
    ensures Settles(c, phaseKey) <==>
            forall s | s in c.items && s.phaseKey == phaseKey :: Used(c.items[s]) <= QuantityOf(c.rows, HoldingOf(s))
  {
  }

  lemma CommitLowers(c: Cache, phaseKey: string, h: Holding)
    ensures QuantityOf(CommitPhase(c, phaseKey).rows, h) ==
            QuantityOf(c.rows, h) - (if Settles(c, phaseKey) then UsedAt(c.items, Slot(phaseKey, h.userId, h.itemId)) else 0)
  {
    if Settles(c, phaseKey) { ChargedRow(c.rows, c.items, phaseKey, h); }
  }

  lemma CommitForgets(c: Cache, phaseKey: string)
    requires Settles(c, phaseKey)
    ensures
      var after := CommitPhase(c, phaseKey);
      && after.rows.Keys == c.rows.Keys
      && (forall s: Slot :: s in after.items <==> s in c.items && s.phaseKey != phaseKey)
      && (forall s | s in after.items :: after.items[s] == c.items[s])
  {
  }

  lemma CommitTwice(c: Cache, phaseKey: string)
    requires Settles(c, phaseKey)
    ensures CommitPhase(CommitPhase(c, phaseKey), phaseKey) == CommitPhase(c, phaseKey)
  {
    ForgottenPhase(CommitPhase(c, phaseKey), phaseKey);
  }

  /**
   * All or nothing: a settlement that goes through lowers each row by exactly what the phase
   * used of it and forgets the phase; any other leaves everything; repeating it does nothing.
   */
  lemma CommitCharges(c: Cache, phaseKey: string, h: Holding)
    ensures
      var after := CommitPhase(c, phaseKey);
      && QuantityOf(after.rows, h) ==
         QuantityOf(c.rows, h) - (if Settles(c, phaseKey) then UsedAt(c.items, Slot(phaseKey, h.userId, h.itemId)) else 0)
      && (!Settles(c, phaseKey) ==> after == c)
      && (Settles(c, phaseKey) ==>
            && after.rows.Keys == c.rows.Keys
            && (forall s: Slot :: s in after.items <==> s in c.items && s.phaseKey != phaseKey)
            && (forall s | s in after.items :: after.items[s] == c.items[s])
            && CommitPhase(after, phaseKey) == after)
  {
    CommitLowers(c, phaseKey, h);
    if Settles(c, phaseKey) {
      CommitForgets(c, phaseKey);
      CommitTwice(c, phaseKey);
    }
  }

  lemma ChargedRow(rows: map<Holding, nat>, items: map<Slot, ItemState>, phaseKey: string, h: Holding)
    requires Covers(rows, UsedIn(items, phaseKey))
    ensures QuantityOf(Charge(rows, UsedIn(items, phaseKey)), h) ==
            QuantityOf(rows, h) - UsedAt(items, Slot(phaseKey, h.userId, h.itemId))
  {
  }

  lemma ForgottenPhase(c: Cache, phaseKey: string)
    requires forall s | s in c.items :: s.phaseKey != phaseKey
    requires forall s | s in c.cooldowns :: s.phaseKey != phaseKey
    ensures CommitPhase(c, phaseKey) == c
  {
    assert UsedIn(c.items, phaseKey) == map[];
    assert DropItems(c.items, phaseKey) == c.items;
    assert DropCooldowns(c.cooldowns, phaseKey) == c.cooldowns;
    assert Charge(c.rows, map[]) == c.rows;
  }

  // ---------- the simple ledger ----------

  /** Uses of a holding, in any phase, that have not been charged yet. */
  ghost function Uncharged(items: map<Slot, ItemState>, h: Holding): map<Slot, int> {
    map s | s in items && HoldingOf(s) == h :: Used(items[s])
  }

  /** What a ledger that charged each accepted use at once would have recorded. */
  function LedgerChange(c: Cache, run: seq<ItemEvent>, h: Holding): int {
    if run == [] then 0
    else
      var before := RunItems(c, run[..|run| - 1]);
      LedgerChange(c, run[..|run| - 1], h) +
      match run[|run| - 1]
      case Use(s, now, spec) => if HoldingOf(s) == h && Accepts(before, s, now, spec) then -1 else 0
      case Restock(holding, quantity) => if holding == h then quantity else 0
      case _ => 0
  }

  /** Phase keys are new and participants distinct, so no user is opened twice in a phase. */
  ghost predicate OpensOnce(c: Cache, run: seq<ItemEvent>) {
    forall k | 0 <= k < |run| && run[k].Open? ::
      forall s | s in RunItems(c, run[..k]).items :: !(s.phaseKey == run[k].phaseKey && s.userId == run[k].userId)
  }

  lemma OpenUncharged(c: Cache, phaseKey: string, userId: nat, h: Holding)
    requires forall s | s in c.items :: !(s.phaseKey == phaseKey && s.userId == userId)
    ensures Total(Uncharged(OpenUser(c, phaseKey, userId).items, h)) == Total(Uncharged(c.items, h))
  {
    var s := Slot(phaseKey, userId, h.itemId);
    var (before, after) := (Uncharged(c.items, h), Uncharged(OpenUser(c, phaseKey, userId).items, h));
    if h.userId == userId && h in c.rows {
      assert s in Snapshot(c.rows, phaseKey, userId);
      assert after == before[s := 0];
      TotalInsert(before, s, 0);
    } else {
      assert after == before;
    }
  }

  lemma OneMoreUncharged(items: map<Slot, ItemState>, s: Slot, st: ItemState, h: Holding)
    requires s in items && Used(st) == Used(items[s]) + 1 && HoldingOf(s) == h
    ensures Total(Uncharged(items[s := st], h)) == Total(Uncharged(items, h)) + 1
  {
    var (before, after) := (Uncharged(items, h), Uncharged(items[s := st], h));
    assert after == before[s := Used(st)];
    TotalRemove(before, s);
    TotalRemove(after, s);
    assert before - {s} == after - {s};
  }

  lemma OtherUncharged(items: map<Slot, ItemState>, s: Slot, st: ItemState, h: Holding)
    requires HoldingOf(s) != h
    ensures Uncharged(items[s := st], h) == Uncharged(items, h)
  {
  }

  lemma UseUncharged(c: Cache, s: Slot, now: int, spec: Option<ItemSpec>, h: Holding)
    requires Accepts(c, s, now, spec) && c.items[s].remaining <= c.items[s].initial
    ensures Total(Uncharged(UseItem(c, s, now, spec).items, h)) ==
            Total(Uncharged(c.items, h)) + if HoldingOf(s) == h then 1 else 0
  {
    var st := ItemState(c.items[s].initial, c.items[s].remaining - 1);
    assert UseItem(c, s, now, spec).items == c.items[s := st];
    if HoldingOf(s) == h {
      OneMoreUncharged(c.items, s, st, h);
    } else {
      OtherUncharged(c.items, s, st, h);
    }
  }

  lemma CommitUncharged(c: Cache, phaseKey: string, h: Holding)
    requires Settles(c, phaseKey)
    ensures Total(Uncharged(CommitPhase(c, phaseKey).items, h)) ==
            Total(Uncharged(c.items, h)) - UsedAt(c.items, Slot(phaseKey, h.userId, h.itemId))
  {
    var s := Slot(phaseKey, h.userId, h.itemId);
    var (before, after) := (Uncharged(c.items, h), Uncharged(CommitPhase(c, phaseKey).items, h));
    if s in c.items {
      TotalRemove(before, s);
      assert before - {s} == after;
    } else {
      assert after == before;
    }
  }

  /**
   * Write-back agrees with the ledger: at every moment the database holds what the ledger
   * holds plus the uses no phase has charged yet.
   */
  lemma {:induction false} CacheAgreesWithLedger(rows: map<Holding, nat>, run: seq<ItemEvent>, h: Holding)
    requires OpensOnce(Fresh(rows), run)
    ensures
      var c := RunItems(Fresh(rows), run);
      QuantityOf(c.rows, h) == QuantityOf(rows, h) + LedgerChange(Fresh(rows), run, h) + Total(Uncharged(c.items, h))
  {
    if run == [] {
      assert Uncharged(Fresh(rows).items, h) == map[];
    } else {
      var front := run[..|run| - 1];
      var c := RunItems(Fresh(rows), front);
      forall k | 0 <= k < |front| && front[k].Open?
        ensures forall s | s in RunItems(Fresh(rows), front[..k]).items :: !(s.phaseKey == front[k].phaseKey && s.userId == front[k].userId)
      {
        assert front[..k] == run[..k] && front[k] == run[k];
      }
      CacheAgreesWithLedger(rows, front, h);
      match run[|run| - 1]
      case Open(phaseKey, userId) => OpenUncharged(c, phaseKey, userId, h);
      case Use(s, now, spec) =>
        if Accepts(c, s, now, spec) {
          RemainingIsInitialMinusUses(rows, front, s);
          UseUncharged(c, s, now, spec, h);
        }
      case Commit(phaseKey) =>
        CommitCharges(c, phaseKey, h);
        if Settles(c, phaseKey) { CommitUncharged(c, phaseKey, h); }
      case Restock(holding, quantity) =>
    }
  }

  // ---------- when a settlement is sure to go through ----------

  ghost predicate Backed(c: Cache, phaseKey: string) {
    forall s | s in c.items && s.phaseKey == phaseKey :: c.items[s].initial <= QuantityOf(c.rows, HoldingOf(s))
  }

  /** Only the settlement of another phase that used the same holdings can take the backing away. */
  lemma StaysBacked(c: Cache, e: ItemEvent, phaseKey: string)
    requires Backed(c, phaseKey)
    requires e.Commit? && e.phaseKey != phaseKey ==>
               forall s | s in c.items && s.phaseKey == phaseKey :: UsedAt(c.items, Slot(e.phaseKey, s.userId, s.itemId)) == 0
    ensures Backed(Apply(c, e), phaseKey)
  {
  }

  lemma BackedSettles(c: Cache, phaseKey: string)
    requires Backed(c, phaseKey)
    ensures Settles(c, phaseKey)
  {
  }

  ghost predicate SpendsAlone(c: Cache, run: seq<ItemEvent>, phaseKey: string) {
    forall k | 0 <= k < |run| && run[k].Commit? && run[k].phaseKey != phaseKey ::
      forall s | s in RunItems(c, run[..k]).items && s.phaseKey == phaseKey ::
        UsedAt(RunItems(c, run[..k]).items, Slot(run[k].phaseKey, s.userId, s.itemId)) == 0
  }

  /** A phase whose players' items are charged for no other phase meanwhile always settles. */
  lemma {:induction false} SettlesWhenSpendingAlone(rows: map<Holding, nat>, run: seq<ItemEvent>, phaseKey: string)
    requires SpendsAlone(Fresh(rows), run, phaseKey)
    ensures Backed(RunItems(Fresh(rows), run), phaseKey) && Settles(RunItems(Fresh(rows), run), phaseKey)
  {
    if run != [] {
      var front := run[..|run| - 1];
      forall k | 0 <= k < |front| && front[k].Commit? && front[k].phaseKey != phaseKey
        ensures forall s | s in RunItems(Fresh(rows), front[..k]).items && s.phaseKey == phaseKey ::
                  UsedAt(RunItems(Fresh(rows), front[..k]).items, Slot(front[k].phaseKey, s.userId, s.itemId)) == 0
      {
        assert front[..k] == run[..k] && front[k] == run[k];
      }
      SettlesWhenSpendingAlone(rows, front, phaseKey);
      StaysBacked(RunItems(Fresh(rows), front), run[|run| - 1], phaseKey);
    }
    BackedSettles(RunItems(Fresh(rows), run), phaseKey);
  }
}
