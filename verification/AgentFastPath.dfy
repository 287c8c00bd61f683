/** The fast path on values: which windows may serve a charge, and what spending from them in order does. */
module AgentFastPath {
  import opened AgentTypes
  import opened AgentState
  import opened AgentSystem
  import opened AgentRuns
  import opened Sums

  datatype ChargeResult = Admitted | NegativeCharge | StorageFailed | LeaseUnavailable | TooLarge | CreditUnavailable

  predicate Spendable(c: Live, r: Rule, up: bool, now: int) {
    && c.window.rule == r.id && c.window.upload == up && !c.closed
    && (exists l :: l in r.Leases() && l.id == c.window.lease && now < l.expiresAt)
    && c.window.owner == r.Owner() && now < c.window.until
  }

  /** The windows that may serve a charge, oldest first. */
  function Eligible(credits: map<Id, Live>, order: seq<Id>, r: Rule, up: bool, now: int): seq<Id> {
    if order == [] then []
    else
      var front, id := Eligible(credits, order[..|order| - 1], r, up, now), order[|order| - 1];
      if id in credits && Spendable(credits[id], r, up, now) then front + [id] else front
  }

  function SpareOf(credits: map<Id, Live>, id: Id): int {
    if id in credits then credits[id].window.capacity - credits[id].used else 0
  }

  function SpareIn(credits: map<Id, Live>, ids: seq<Id>): int {
    if ids == [] then 0 else SpareIn(credits, ids[..|ids| - 1]) + SpareOf(credits, ids[|ids| - 1])
  }

  function LargestLease(leases: seq<Lease>): int {
    if leases == [] then 0 else Max(LargestLease(leases[..|leases| - 1]), leases[|leases| - 1].bytes)
  }

  /** The outcome that the open windows, the rule and the clock allow. */
  function Verdict(credits: map<Id, Live>, order: seq<Id>, failed: bool, r: Rule, until: int, up: bool, n: int, now: int): ChargeResult {
    if n < 0 then NegativeCharge
    else if failed then StorageFailed
    else if r.lease.None? then LeaseUnavailable
    else if r.tcp && n > LargestLease(r.Leases()) then TooLarge
    else if now >= until then LeaseUnavailable
    else
      var eligible := Eligible(credits, order, r, up, now);
      if eligible != [] && n <= SpareIn(credits, eligible) then Admitted else CreditUnavailable
  }

  predicate Distinct(ids: seq<Id>) {
    forall i, j :: 0 <= i < j < |ids| ==> ids[i] != ids[j]
  }

  lemma {:induction false} EligibleAreSpendable(credits: map<Id, Live>, order: seq<Id>, r: Rule, up: bool, now: int)
    requires Distinct(order)
    ensures var ids := Eligible(credits, order, r, up, now);
            && Distinct(ids)
            && forall id :: id in ids ==> id in order && id in credits && Spendable(credits[id], r, up, now)
  {
    if order != [] {
      var front, id := order[..|order| - 1], order[|order| - 1];
      EligibleAreSpendable(credits, front, r, up, now);
      assert id !in front;
    }
  }

  /** The window is the rule's own, open and current in that direction, and on a lease that has not expired. */
  ghost predicate PurseHolds(c: Live, r: Rule, up: bool, now: int) {
    && c.window.rule == r.id && c.window.upload == up && c.window.owner == r.Owner() && !c.closed && now < c.window.until
    && exists l :: l in r.Leases() && l.id == c.window.lease && now < l.expiresAt
  }

  /** What a rule may spend in one direction: the unspent bytes of its own open windows on leases that have not expired. */
  ghost function PurseOf(r: Rule, up: bool, now: int): Live -> int {
    (c: Live) => if PurseHolds(c, r, up, now) then c.window.capacity - c.used else 0
  }

  ghost function Purse(credits: map<Id, Live>, r: Rule, up: bool, now: int): int {
    Sum(credits, PurseOf(r, up, now))
  }

  /** The listed windows. */
  ghost function Among(credits: map<Id, Live>, ids: seq<Id>): map<Id, Live> {
    map id | id in credits && id in ids :: credits[id]
  }

  lemma SpendableIs(c: Live, r: Rule, up: bool, now: int)
    ensures Spendable(c, r, up, now) <==> PurseHolds(c, r, up, now)
  {
  }

  lemma AmongGrows(credits: map<Id, Live>, front: seq<Id>, id: Id)
    requires id in credits
    ensures Among(credits, front + [id]) == Among(credits, front)[id := credits[id]]
  {
  }

  lemma {:induction false} SpareIsPurse(credits: map<Id, Live>, order: seq<Id>, r: Rule, up: bool, now: int)
    requires Distinct(order) && forall id :: id in order ==> id in credits
    ensures SpareIn(credits, Eligible(credits, order, r, up, now)) == Purse(Among(credits, order), r, up, now)
  {
    hide Spendable, PurseHolds;
    if order == [] {
      assert Among(credits, order) == map[];
      SumUnfolds(Among(credits, order), PurseOf(r, up, now));
    } else {
      var front, id := order[..|order| - 1], order[|order| - 1];
      SpareIsPurse(credits, front, r, up, now);
      assert id !in front && order == front + [id];
      AmongGrows(credits, front, id);
      SpendableIs(credits[id], r, up, now);
      SumPut(Among(credits, front), PurseOf(r, up, now), id, credits[id]);
      var ids := Eligible(credits, front, r, up, now);
      assert (ids + [id])[..|ids|] == ids;
    }
  }

  /** A window serves a charge if and only if it is the rule's own, open, unexpired and in that direction. */
  lemma {:induction false} EligibleMeans(credits: map<Id, Live>, order: seq<Id>, r: Rule, up: bool, now: int, id: Id)
    ensures id in Eligible(credits, order, r, up, now) <==> id in order && id in credits && PurseHolds(credits[id], r, up, now)
  {
    if order != [] {
      EligibleMeans(credits, order[..|order| - 1], r, up, now, id);
      assert id in order <==> id in order[..|order| - 1] || id == order[|order| - 1];
    }
  }

  lemma {:induction false} LargestLeaseMeans(leases: seq<Lease>, n: int)
    ensures n > LargestLease(leases) <==> 0 < n && forall l :: l in leases ==> l.bytes < n
  {
    if leases != [] {
      LargestLeaseMeans(leases[..|leases| - 1], n);
      assert forall l :: l in leases <==> l in leases[..|leases| - 1] || l == leases[|leases| - 1];
    }
  }

  /** No lease of a TCP rule could ever hold the payload. */
  ghost predicate Oversized(r: Rule, n: int) {
    r.tcp && 0 < n && forall l :: l in r.Leases() ==> l.bytes < n
  }

  /** A charge is admitted if and only if the rule is leased and current and its own windows in that direction hold it. */
  lemma VerdictMeans(credits: map<Id, Live>, order: seq<Id>, failed: bool, r: Rule, until: int, up: bool, n: int, now: int)
    requires Distinct(order) && forall id :: id in order <==> id in credits
    ensures var v := Verdict(credits, order, failed, r, until, up, n, now);
            && (v == NegativeCharge <==> n < 0)
            && (v == StorageFailed <==> 0 <= n && failed)
            && (v == TooLarge <==> 0 <= n && !failed && r.lease.Some? && Oversized(r, n))
            && (v == LeaseUnavailable <==> 0 <= n && !failed && (r.lease.None? || (!Oversized(r, n) && until <= now)))
            && (v == Admitted <==>
                  && 0 <= n <= Purse(credits, r, up, now) && !failed && r.lease.Some? && !Oversized(r, n) && now < until
                  && exists id :: id in credits && PurseHolds(credits[id], r, up, now))
  {
    hide Purse, LargestLease, SpareIn, Eligible, PurseHolds;
    LargestLeaseMeans(r.Leases(), n);
    SpareIsPurse(credits, order, r, up, now);
    assert Among(credits, order) == credits;
    forall id ensures id in Eligible(credits, order, r, up, now) <==> id in order && id in credits && PurseHolds(credits[id], r, up, now) {
      EligibleMeans(credits, order, r, up, now, id);
    }
    assert Eligible(credits, order, r, up, now) != [] ==> Eligible(credits, order, r, up, now)[0] in Eligible(credits, order, r, up, now);
  }

  /** Eligible windows keep their order. */
  lemma {:induction false} EligibleInOrder(credits: map<Id, Live>, order: seq<Id>, r: Rule, up: bool, now: int, i: int, j: int)
    requires 0 <= i < j < |order| && Distinct(order)
    requires order[i] in Eligible(credits, order, r, up, now) && order[j] in Eligible(credits, order, r, up, now)
    ensures var ids := Eligible(credits, order, r, up, now);
            exists a, b :: 0 <= a < b < |ids| && ids[a] == order[i] && ids[b] == order[j]
  {
    var front, id := order[..|order| - 1], order[|order| - 1];
    var ids := Eligible(credits, front, r, up, now);
    EligibleMeans(credits, front, r, up, now, order[i]);
    EligibleMeans(credits, front, r, up, now, order[j]);
    EligibleMeans(credits, order, r, up, now, order[i]);
    EligibleMeans(credits, order, r, up, now, order[j]);
    assert order[i] in front;
    if j < |order| - 1 {
      assert order[j] in front;
      EligibleInOrder(credits, front, r, up, now, i, j);
      var a, b :| 0 <= a < b < |ids| && ids[a] == front[i] && ids[b] == front[j];
      assert Eligible(credits, order, r, up, now)[a] == order[i] && Eligible(credits, order, r, up, now)[b] == order[j];
    } else {
      var a :| 0 <= a < |ids| && ids[a] == order[i];
      assert Eligible(credits, order, r, up, now)[a] == order[i] && Eligible(credits, order, r, up, now)[|ids|] == order[j];
    }
  }

  /** `after` serves `n` bytes from the listed windows of `before`, emptying each before touching the next. */
  ghost predicate Drained(before: map<Id, Live>, after: map<Id, Live>, ids: seq<Id>, n: int, now: int) {
    && after.Keys == before.Keys
    && SpareIn(after, ids) == SpareIn(before, ids) - n
    && (forall id :: id in before ==>
          && after[id].window == before[id].window && after[id].closed == before[id].closed
          && before[id].used <= after[id].used && after[id].last == (if after[id].used == before[id].used then before[id].last else now)
          && (id !in ids ==> after[id] == before[id])
          && (id in ids ==> after[id].used <= after[id].window.capacity))
    && (forall i, j :: 0 <= i < j < |ids| && ids[i] in before && ids[j] in before && after[ids[j]] != before[ids[j]] ==>
          after[ids[i]].used == after[ids[i]].window.capacity)
  }

  lemma {:induction false} SpareUnchanged(a: map<Id, Live>, b: map<Id, Live>, ids: seq<Id>)
    requires forall id :: id in ids ==> SpareOf(a, id) == SpareOf(b, id)
    ensures SpareIn(a, ids) == SpareIn(b, ids)
  {
    if ids != [] {
      SpareUnchanged(a, b, ids[..|ids| - 1]);
    }
  }

  lemma {:induction false} SpareMoves(credits: map<Id, Live>, ids: seq<Id>, k: int, c: Live)
    requires Distinct(ids) && 0 <= k < |ids| && ids[k] in credits
    ensures SpareIn(credits[ids[k] := c], ids)
         == SpareIn(credits, ids) - SpareOf(credits, ids[k]) + (c.window.capacity - c.used)
  {
    var front := ids[..|ids| - 1];
    if k == |ids| - 1 {
      SpareUnchanged(credits, credits[ids[k] := c], front);
    } else {
      SpareMoves(credits, front, k, c);
    }
  }

  lemma {:induction false} EmptyHasNoSpare(credits: map<Id, Live>, ids: seq<Id>)
    requires forall id :: id in ids ==> SpareOf(credits, id) == 0
    ensures SpareIn(credits, ids) == 0
  {
    if ids != [] {
      EmptyHasNoSpare(credits, ids[..|ids| - 1]);
    }
  }

  /** The first `k` windows are empty and the others untouched. */
  ghost predicate Serving(before: map<Id, Live>, credits: map<Id, Live>, ids: seq<Id>, k: int) {
    && 0 <= k <= |ids| && (forall id :: id in ids ==> id in before && id in credits)
    && (forall i :: 0 <= i < k ==> SpareOf(credits, ids[i]) == 0)
    && (forall i :: k <= i < |ids| ==> credits[ids[i]] == before[ids[i]])
  }

  lemma DrainStep(before: map<Id, Live>, credits: map<Id, Live>, ids: seq<Id>, k: int, served: int, debit: int, now: int)
    requires Distinct(ids) && Drained(before, credits, ids, served, now) && Serving(before, credits, ids, k) && k < |ids|
    requires 0 < debit <= SpareOf(credits, ids[k])
    ensures var after := credits[ids[k] := credits[ids[k]].(used := credits[ids[k]].used + debit, last := now)];
            && Drained(before, after, ids, served + debit, now)
            && (debit == SpareOf(credits, ids[k]) ==> Serving(before, after, ids, k + 1))
  {
    var c := credits[ids[k]].(used := credits[ids[k]].used + debit, last := now);
    SpareMoves(credits, ids, k, c);
  }

  ghost predicate AllOpen(credits: map<Id, Live>, ids: seq<Id>, now: int) {
    forall id :: id in ids ==>
      id in credits && !credits[id].closed && now < credits[id].window.until && SpareOf(credits, id) >= 0
  }

  lemma DrainedNothing(credits: map<Id, Live>, ids: seq<Id>, now: int)
    requires AllOpen(credits, ids, now)
    ensures Drained(credits, credits, ids, 0, now) && Serving(credits, credits, ids, 0)
  {
  }

  lemma {:induction false} EligibleSame(a: map<Id, Live>, b: map<Id, Live>, order: seq<Id>, r: Rule, up: bool, now: int)
    requires a.Keys == b.Keys && forall id :: id in a ==> a[id].window == b[id].window && a[id].closed == b[id].closed
    ensures Eligible(a, order, r, up, now) == Eligible(b, order, r, up, now)
  {
    if order != [] {
      EligibleSame(a, b, order[..|order| - 1], r, up, now);
    }
  }

  /**
   * A charge takes exactly its bytes from the rule's own open windows in its direction, the first in the list first, and
   * leaves every other window as it was.
   */
  lemma DrainMeans(before: map<Id, Live>, after: map<Id, Live>, order: seq<Id>, r: Rule, up: bool, n: int, now: int)
    requires Distinct(order) && (forall id :: id in order <==> id in before)
    requires Drained(before, after, Eligible(before, order, r, up, now), n, now)
    ensures after.Keys == before.Keys && Purse(after, r, up, now) == Purse(before, r, up, now) - n
    ensures forall id :: id in before ==>
              && before[id].used <= after[id].used
              && after[id] == before[id].(used := after[id].used, last := if after[id].used == before[id].used then before[id].last else now)
    ensures forall id :: id in before && after[id] != before[id] ==>
              PurseHolds(before[id], r, up, now) && after[id].used <= before[id].window.capacity
    ensures forall i, j :: 0 <= i < j < |order| && after[order[j]] != before[order[j]] && order[i] in Eligible(before, order, r, up, now) ==>
              after[order[i]].used == after[order[i]].window.capacity
  {
    hide SpareIn, Eligible, Purse, PurseHolds;
    var ids := Eligible(before, order, r, up, now);
    EligibleSame(before, after, order, r, up, now);
    SpareIsPurse(before, order, r, up, now);
    SpareIsPurse(after, order, r, up, now);
    assert Among(before, order) == before && Among(after, order) == after;
    forall id | id in before && after[id] != before[id] ensures PurseHolds(before[id], r, up, now) {
      EligibleMeans(before, order, r, up, now, id);
    }
    forall i, j | 0 <= i < j < |order| && after[order[j]] != before[order[j]] && order[i] in ids
      ensures after[order[i]].used == after[order[i]].window.capacity
    {
      assert order[j] in ids;
      EligibleInOrder(before, order, r, up, now, i, j);
    }
  }

  lemma DrainedAll(before: map<Id, Live>, credits: map<Id, Live>, ids: seq<Id>, served: int, now: int)
    requires Drained(before, credits, ids, served, now) && Serving(before, credits, ids, |ids|)
    ensures served == SpareIn(before, ids)
  {
    EmptyHasNoSpare(credits, ids);
  }

  // ----- When to ask for more -----

  /** The window size that a direction is worth, and when that was last seen. */
  datatype Aimed = Aimed(size: int, last: int)

  const GROWTH_TIME: int := 100_000_000

  /** A window that was used up quickly asks for one four times as large. */
  function Wanted(c: Live, now: int): int {
    if c.used >= WINDOW_SIZE && now - c.window.startedAt < GROWTH_TIME then Max(c.window.capacity, Min(TCP_WINDOW, 4 * c.window.capacity))
    else c.window.capacity
  }

  function Largest(credits: map<Id, Live>, ids: seq<Id>, least: int, now: int): int {
    if ids == [] then least
    else
      var rest, id := Largest(credits, ids[..|ids| - 1], least, now), ids[|ids| - 1];
      if id in credits then Max(rest, Wanted(credits[id], now)) else rest
  }

  /** The size to ask for: what the direction asked for lately and what its windows show, or the smallest. */
  function Aim(credits: map<Id, Live>, ids: seq<Id>, before: Option<Aimed>, adaptive: bool, now: int): int {
    if !adaptive then WINDOW_SIZE
    else Largest(credits, ids, if before.Some? && now - before.value.last < IDLE_TIMEOUT then Max(WINDOW_SIZE, before.value.size) else WINDOW_SIZE, now)
  }

  /** How many of the windows still hold something. */
  function Unspent(credits: map<Id, Live>, ids: seq<Id>): nat {
    if ids == [] then 0 else Unspent(credits, ids[..|ids| - 1]) + (if SpareOf(credits, ids[|ids| - 1]) > 0 then 1 else 0)
  }

  lemma {:induction false} LargestMeans(credits: map<Id, Live>, ids: seq<Id>, least: int, now: int, t: int)
    ensures Largest(credits, ids, least, now) <= t <==> least <= t && forall id :: id in ids && id in credits ==> Wanted(credits[id], now) <= t
  {
    if ids != [] {
      LargestMeans(credits, ids[..|ids| - 1], least, now, t);
      assert forall id :: id in ids <==> id in ids[..|ids| - 1] || id == ids[|ids| - 1];
    }
  }

  /**
   * The aim is the least size of at least 256 KiB that covers what the direction asked for within the last second, the
   * rule's open windows in that direction, and four times any of them that was used up within a tenth of a second, at
   * most 2 MiB; without adaptation it is 256 KiB.
   */
  lemma AimMeans(credits: map<Id, Live>, order: seq<Id>, r: Rule, up: bool, before: Option<Aimed>, adaptive: bool, now: int, t: int)
    ensures Aim(credits, Eligible(credits, order, r, up, now), before, adaptive, now) <= t <==>
              && 262_144 <= t
              && (adaptive ==>
                    && (before.Some? && now - before.value.last < 1_000_000_000 ==> before.value.size <= t)
                    && forall id :: id in order && id in credits && PurseHolds(credits[id], r, up, now) ==>
                         && credits[id].window.capacity <= t
                         && (credits[id].used >= 262_144 && now - credits[id].window.startedAt < 100_000_000 ==>
                               2_097_152 <= t || 4 * credits[id].window.capacity <= t))
  {
    hide Eligible, Largest;
    var ids := Eligible(credits, order, r, up, now);
    var least := if before.Some? && now - before.value.last < IDLE_TIMEOUT then Max(WINDOW_SIZE, before.value.size) else WINDOW_SIZE;
    LargestMeans(credits, ids, least, now, t);
    forall id ensures id in ids <==> id in order && id in credits && PurseHolds(credits[id], r, up, now) {
      EligibleMeans(credits, order, r, up, now, id);
    }
  }

  ghost function HoldsSome(r: Rule, up: bool, now: int): Live -> int {
    (c: Live) => if PurseHolds(c, r, up, now) && c.used < c.window.capacity then 1 else 0
  }

  lemma {:induction false} UnspentMeans(credits: map<Id, Live>, order: seq<Id>, r: Rule, up: bool, now: int)
    requires Distinct(order) && forall id :: id in order ==> id in credits
    ensures Unspent(credits, Eligible(credits, order, r, up, now)) == Sum(Among(credits, order), HoldsSome(r, up, now))
  {
    hide Spendable, PurseHolds;
    if order == [] {
      assert Among(credits, order) == map[];
      SumUnfolds(Among(credits, order), HoldsSome(r, up, now));
    } else {
      var front, id := order[..|order| - 1], order[|order| - 1];
      UnspentMeans(credits, front, r, up, now);
      assert id !in front && order == front + [id];
      AmongGrows(credits, front, id);
      SpendableIs(credits[id], r, up, now);
      SumPut(Among(credits, front), HoldsSome(r, up, now), id, credits[id]);
      var ids := Eligible(credits, front, r, up, now);
      assert (ids + [id])[..|ids|] == ids;
    }
  }

  // ----- A charge is a sequence of single debits -----

  datatype Debit = Debit(window: Id, n: int)

  ghost predicate CanSpendAll(s: System, debits: seq<Debit>)
    decreases |debits|
  {
    debits == [] ||
    (CanSpend(s, debits[0].window, debits[0].n) && CanSpendAll(Spend(s, debits[0].window, debits[0].n), debits[1..]))
  }

  ghost function SpendAll(s: System, debits: seq<Debit>): System
    requires CanSpendAll(s, debits)
    decreases |debits|
  {
    if debits == [] then s else SpendAll(Spend(s, debits[0].window, debits[0].n), debits[1..])
  }

  lemma {:induction false} SpendAllSnoc(s: System, debits: seq<Debit>, d: Debit)
    requires CanSpendAll(s, debits) && CanSpend(SpendAll(s, debits), d.window, d.n)
    ensures CanSpendAll(s, debits + [d])
    ensures SpendAll(s, debits + [d]) == Spend(SpendAll(s, debits), d.window, d.n)
    decreases |debits|
  {
    hide Spend;
    if debits == [] {
      assert debits + [d] == [d] && [d][1..] == [];
      assert CanSpendAll(Spend(s, d.window, d.n), []);
    } else {
      assert (debits + [d])[1..] == debits[1..] + [d];
      SpendAllSnoc(Spend(s, debits[0].window, debits[0].n), debits[1..], d);
    }
  }

  lemma {:induction false} SpendAllKeepsCore(terms: Terms, s: System, debits: seq<Debit>)
    requires Core(terms, s) && CanSpendAll(s, debits)
    ensures Core(terms, SpendAll(s, debits))
    decreases |debits|
  {
    hide Core, Spend;
    if debits != [] {
      SpendKeepsCore(terms, s, debits[0].window, debits[0].n);
      SpendAllKeepsCore(terms, Spend(s, debits[0].window, debits[0].n), debits[1..]);
    }
  }
}
