/** When a use of an item is accepted, said of what was opened and used before rather than of the stores. */
module ItemLaws {
  import opened Collections
  import opened Items

  /** What the user held when the slot was last opened, while its phase is not settled. */
  function StockOf(c: Cache, run: seq<ItemEvent>, s: Slot): Option<nat> {
    if run == [] then None
    else
      var before := RunItems(c, run[..|run| - 1]);
      var stock := StockOf(c, run[..|run| - 1], s);
      match run[|run| - 1]
      case Open(phaseKey, userId) =>
        if s.phaseKey == phaseKey && s.userId == userId && HoldingOf(s) in before.rows then Some(before.rows[HoldingOf(s)]) else stock
      case Commit(phaseKey) => if s.phaseKey == phaseKey && Settles(before, phaseKey) then None else stock
      case _ => stock
  }

  /** When the slot was last used with success, while its phase is not settled. */
  function LastUse(c: Cache, run: seq<ItemEvent>, s: Slot): Option<int> {
    if run == [] then None
    else
      var before := RunItems(c, run[..|run| - 1]);
      var last := LastUse(c, run[..|run| - 1], s);
      match run[|run| - 1]
      case Use(slot, now, spec) => if slot == s && Accepts(before, s, now, spec) then Some(now) else last
      case Commit(phaseKey) => if s.phaseKey == phaseKey && Settles(before, phaseKey) then None else last
      case _ => last
  }

  lemma {:induction false} StockIsInitial(rows: map<Holding, nat>, run: seq<ItemEvent>, s: Slot)
    ensures
      var c := RunItems(Fresh(rows), run);
      StockOf(Fresh(rows), run, s) == if s in c.items then Some(c.items[s].initial) else None
  {
    if run != [] {
      var before := RunItems(Fresh(rows), run[..|run| - 1]);
      StockIsInitial(rows, run[..|run| - 1], s);
      match run[|run| - 1]
      case Open(phaseKey, userId) => OpenedAt(before, phaseKey, userId, s);
      case _ =>
    }
  }

  lemma OpenedAt(c: Cache, phaseKey: string, userId: nat, s: Slot)
    ensures
      var after := OpenUser(c, phaseKey, userId).items;
      if s.phaseKey == phaseKey && s.userId == userId && HoldingOf(s) in c.rows
      then s in after && after[s] == ItemState(c.rows[HoldingOf(s)], c.rows[HoldingOf(s)])
      else (s in after <==> s in c.items) && (s in after ==> after[s] == c.items[s])
  {
    assert s in Snapshot(c.rows, phaseKey, userId) <==> s.phaseKey == phaseKey && s.userId == userId && HoldingOf(s) in c.rows;
  }

  lemma {:induction false} CooldownFollowsLastUse(rows: map<Holding, nat>, run: seq<ItemEvent>, s: Slot, cooldownMs: nat)
    requires FixedCooldown(run, s.itemId, cooldownMs)
    ensures
      var (c, last) := (RunItems(Fresh(rows), run), LastUse(Fresh(rows), run, s));
      EndsAt(c.cooldowns, s) == if last.Some? then last.value + cooldownMs else 0
  {
    if run != [] {
      var front := run[..|run| - 1];
      assert run[|run| - 1] in run && forall e | e in front :: e in run;
      CooldownFollowsLastUse(rows, front, s, cooldownMs);
    }
  }

  /** Stock left, then the cooldown over, then a known item, in this order. */
  function Expected(stock: Option<nat>, uses: nat, last: Option<int>, cooldownMs: nat, now: int, spec: Option<ItemSpec>)
    : Result<Decision, ItemError>
  {
    if stock.None? || uses >= stock.value then Err(NOT_ENOUGH)
    else if last.Some? && now < last.value + cooldownMs then Err(COOLDOWN_REMAINING)
    else if spec.None? then Err(SPEC_NOT_FOUND)
    else Ok(Decision(stock.value - uses - 1, now + spec.value.cooldownMs))
  }

  lemma UseTakesOne(c: Cache, s: Slot, now: int, spec: Option<ItemSpec>)
    ensures
      var after := UseItem(c, s, now, spec);
      if Accepts(c, s, now, spec)
      then
        && s in c.items && after.rows == c.rows && after.items.Keys == c.items.Keys
        && after.items[s] == c.items[s].(remaining := c.items[s].remaining - 1)
        && forall k | k in c.items && k != s :: after.items[k] == c.items[k]
      else after == c
  {
  }

  /**
   * In every run a use is accepted exactly when what was held at the opening is not used up, the
   * cooldown since the last accepted use is over and the item is known; it then takes one from
   * its slot and touches no other slot and no row, and a refused use changes nothing.
   */
  lemma UsesAreDecidedByHistory(rows: map<Holding, nat>, run: seq<ItemEvent>, s: Slot, cooldownMs: nat, now: nat, spec: Option<ItemSpec>)
    requires FixedCooldown(run, s.itemId, cooldownMs)
    ensures
      var (first, c) := (Fresh(rows), RunItems(Fresh(rows), run));
      var after := RunItems(first, run + [Use(s, now, spec)]);
      var reply := Decide(now, RemainingAt(c.items, s), EndsAt(c.cooldowns, s), spec);
      && reply == Expected(StockOf(first, run, s), |UseTimes(first, run, s)|, LastUse(first, run, s), cooldownMs, now, spec)
      && (reply.Err? ==> after == c)
      && (reply.Ok? ==>
            && s in c.items && after.rows == c.rows && after.items.Keys == c.items.Keys
            && after.items[s] == c.items[s].(remaining := reply.value.newRemaining)
            && forall k | k in c.items && k != s :: after.items[k] == c.items[k])
  {
    StockIsInitial(rows, run, s);
    RemainingIsInitialMinusUses(rows, run, s);
    CooldownFollowsLastUse(rows, run, s, cooldownMs);
    assert (run + [Use(s, now, spec)])[..|run|] == run;
    UseTakesOne(RunItems(Fresh(rows), run), s, now, spec);
  }
}
