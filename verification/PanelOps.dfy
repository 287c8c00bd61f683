/** What the panel does to its books: grant a lease, settle usage, close a lease, change a quota. */
module PanelOps {
  import opened AgentTypes
  import opened AgentSystem
  import opened Sums
  import opened Rates
  import opened PanelBooks

  // ----- Granting -----

  datatype Ask = Ask(user: Id, rule: Id, node: Id, num: int, den: int, requested: int)

  /** What an entitlement leaves for a request of `n`; a quota of zero leaves all of it. */
  function Remaining(ent: Entitlement, n: int): int {
    if ent.quota == 0 then n else ent.quota - ent.allotted
  }

  /** The lease that entitlement `e` can fund, if any. */
  ghost function Offer(b: Books, e: Id, a: Ask, now: int): Option<Row>
    requires e in b.ents
  {
    var ent := b.ents[e];
    var budget := Min(Min(a.requested, MAX_OUTSTANDING - Outstanding(b.rows, a.user)), Remaining(ent, a.requested));
    var raw := Raw(budget, a.num, a.den);
    if a.requested <= 0 || a.requested > MAX_REQUEST || a.num <= 0 || a.den <= 0 || now >= ent.expiresAt
       || budget <= 0 || raw <= 0 || raw >= INT64
    then None
    else Some(Row(a.user, a.node, a.rule, e, raw, Min(now + LEASE_TIME, ent.expiresAt), 0, a.num, a.den, budget, false))
  }

  function Granted(b: Books, l: Id, r: Row): Books
    requires r.ent in b.ents
  {
    b.(ents := Adjusted(b.ents, r.ent, r.budget, 0), rows := b.rows[l := r])
  }

  /** A budget that the request, the account's ceiling and the quota allow. */
  ghost predicate Reservable(b: Books, e: Id, a: Ask, n: int)
    requires e in b.ents
  {
    && 0 < n <= a.requested && Outstanding(b.rows, a.user) + n <= 536_870_912
    && (b.ents[e].quota == 0 || b.ents[e].allotted + n <= b.ents[e].quota)
  }

  /**
   * A lease is offered if and only if the request is between one byte and 256 MiB at a positive rate, the entitlement has
   * not expired, and a budget that buys a byte is allowed. It then gets the largest budget allowed, the most bytes that
   * this budget pays for, and as much time as both five minutes and the entitlement allow.
   */
  lemma OfferIsLargest(b: Books, e: Id, a: Ask, now: int)
    requires e in b.ents
    ensures Offer(b, e, a, now).Some? <==>
              && 0 < a.requested <= 268_435_456 && 0 < a.num && 0 < a.den && now < b.ents[e].expiresAt
              && (exists n :: Reservable(b, e, a, n) && a.num <= n * a.den)
              && (forall n :: Reservable(b, e, a, n) ==> n * a.den < INT64 * a.num)
    ensures Offer(b, e, a, now).Some? ==>
              var r := Offer(b, e, a, now).value;
              && r == Row(a.user, a.node, a.rule, e, r.bytes, r.expiresAt, 0, a.num, a.den, r.budget, false)
              && Reservable(b, e, a, r.budget) && (forall n :: Reservable(b, e, a, n) ==> n <= r.budget)
              && 0 < r.bytes && (forall v :: v <= r.bytes <==> v * a.num <= r.budget * a.den)
              && r.expiresAt <= now + 300_000_000_000 && r.expiresAt <= b.ents[e].expiresAt
              && (r.expiresAt == now + 300_000_000_000 || r.expiresAt == b.ents[e].expiresAt)
  {
    hide Outstanding;
    var most := Min(Min(a.requested, MAX_OUTSTANDING - Outstanding(b.rows, a.user)), Remaining(b.ents[e], a.requested));
    forall n ensures Reservable(b, e, a, n) <==> 0 < n <= most { }
    hide Reservable, Remaining;
    if 0 < a.num && 0 < a.den && 0 < most {
      RawBuys(most, a.num, a.den);
      hide Raw;
      forall n | 0 < n <= most ensures n * a.den <= most * a.den { MulMonotone(n, most, a.den); }
      assert Reservable(b, e, a, most);
    }
  }

  lemma RawBuys(budget: int, num: int, den: int)
    requires 0 < num && 0 < den && 0 < budget
    ensures var raw := Raw(budget, num, den);
            && (forall v :: v <= raw <==> v * num <= budget * den)
            && (0 < raw <==> num <= budget * den) && (raw < INT64 <==> budget * den < INT64 * num)
  {
    var raw := Raw(budget, num, den);
    RawIsFloor(budget, num, den);
    forall v ensures v <= raw <==> v * num <= budget * den { RawIsMost(budget, num, den, v); }
    assert 1 <= raw <==> 1 * num <= budget * den;
    assert INT64 <= raw <==> INT64 * num <= budget * den;
  }

  lemma RawIsMost(budget: int, num: int, den: int, v: int)
    requires 0 < num && 0 < den
    ensures v <= Raw(budget, num, den) <==> v * num <= budget * den
  {
    var raw := Raw(budget, num, den);
    RawIsFloor(budget, num, den);
    hide Raw;
    if v <= raw {
      MulMonotone(v, raw, num);
    } else {
      MulMonotone(raw + 1, v, num);
      assert (raw + 1) * num == raw * num + num;
    }
  }

  lemma NothingRecorded(usage: map<UsageId, Usage>, l: Id)
    requires forall k :: k in usage ==> usage[k].lease != l
    ensures Recorded(usage, l) == 0
  {
    SumZero(usage, OfRecords(l));
  }

  lemma GrantKeepsRows(b: Books, e: Id, a: Ask, now: int, l: Id)
    requires RowsOk(b.ents, b.rows) && e in b.ents && Offer(b, e, a, now).Some?
    ensures var r := Offer(b, e, a, now).value; RowOk(r) && r.Cost(r.used) == 0 && RowsOk(b.ents, b.rows[l := r])
  {
    var r := Offer(b, e, a, now).value;
    BudgetCoversItsBytes(r.budget, r.num, r.den);
    ChargeOfNothing(r.num, r.den);
    hide Priced, Raw;
  }

  lemma GrantKeepsOutstanding(b: Books, e: Id, a: Ask, now: int, l: Id)
    requires WithinOutstanding(b.rows) && e in b.ents && Offer(b, e, a, now).Some? && l !in b.rows
    ensures WithinOutstanding(b.rows[l := Offer(b, e, a, now).value])
  {
    hide Raw, Outstanding;
    var r := Offer(b, e, a, now).value;
    var more := b.rows[l := r];
    forall user ensures Outstanding(more, user) <= MAX_OUTSTANDING {
      OutstandingMoves(b.rows, l, r, user);
    }
  }

  lemma GrantKeepsBacked(rows: map<Id, Row>, usage: map<UsageId, Usage>, l: Id, r: Row)
    requires Backed(rows, usage) && l !in rows && r.used == 0
    ensures Backed(rows[l := r], usage)
  {
    NothingRecorded(usage, l);
  }

  /** A granted lease keeps the books balanced: budgets never exceed the quota or the account's ceiling. */
  lemma GrantKeepsBalance(b: Books, e: Id, a: Ask, now: int, l: Id)
    requires Balanced(b) && e in b.ents && l !in b.rows && Offer(b, e, a, now).Some?
    ensures Balanced(Granted(b, l, Offer(b, e, a, now).value))
  {
    hide Conserved, WithinOutstanding, Backed, Priced, Raw, Outstanding;
    var r := Offer(b, e, a, now).value;
    GrantKeepsRows(b, e, a, now, l);
    GrantKeepsOutstanding(b, e, a, now, l);
    GrantKeepsBacked(b.rows, b.usage, l, r);
    RowMoves(b.ents, b.rows, l, r);
  }

  // ----- Settling one record -----

  predicate WellFormed(u: Usage) {
    0 <= u.up && 0 <= u.down && 0 < u.startedAt <= u.endedAt
  }

  /** The record names an open lease as it was granted and lies within its time. */
  predicate Belongs(rows: map<Id, Row>, u: Usage) {
    && u.lease in rows
    && var r := rows[u.lease];
       !r.closed && r.node == u.node && r.rule == u.rule && r.ent == u.entitlement && u.endedAt <= r.expiresAt
  }

  /** A record that was never seen. */
  function Settled(b: Books, u: Usage): Books
    requires u.lease in b.rows && b.rows[u.lease].ent in b.ents
  {
    var r := b.rows[u.lease];
    Books(Adjusted(b.ents, r.ent, 0, r.Cost(r.used + u.Bytes()) - r.Cost(r.used)),
          b.rows[u.lease := r.(used := r.used + u.Bytes())],
          b.usage[u.id := u])
  }

  function SettleOne(b: Books, u: Usage): Option<Books> {
    if !WellFormed(u) then None
    else if u.id in b.usage then (if b.usage[u.id] == u then Some(b) else None)
    else if !Belongs(b.rows, u) || b.rows[u.lease].ent !in b.ents || u.Bytes() > b.rows[u.lease].bytes - b.rows[u.lease].used then None
    else Some(Settled(b, u))
  }

  lemma RowStaysOk(ents: map<Id, Entitlement>, rows: map<Id, Row>, l: Id, r: Row, allotted: int, used: int)
    requires RowsOk(ents, rows) && RowOk(r) && r.ent in ents
    ensures RowsOk(Adjusted(ents, r.ent, allotted, used), rows[l := r])
  {
    hide RowOk;
  }

  lemma QuotaStays(ents: map<Id, Entitlement>, e: Id, allotted: int, used: int)
    requires WithinQuota(ents) && e in ents && allotted <= 0
    ensures WithinQuota(Adjusted(ents, e, allotted, used))
  {
  }

  lemma SettledKeepsBacked(rows: map<Id, Row>, usage: map<UsageId, Usage>, u: Usage)
    requires Backed(rows, usage) && u.id !in usage && Belongs(rows, u) && WellFormed(u)
    ensures Backed(rows[u.lease := rows[u.lease].(used := rows[u.lease].used + u.Bytes())], usage[u.id := u])
  {
    forall l ensures Recorded(usage[u.id := u], l) == Recorded(usage, l) + (if u.lease == l then u.Bytes() else 0) {
      RecordedPut(usage, u, l);
    }
    hide Recorded;
  }

  lemma SettledKeepsOutstanding(rows: map<Id, Row>, l: Id, used: int)
    requires WithinOutstanding(rows) && l in rows
    ensures WithinOutstanding(rows[l := rows[l].(used := used)])
  {
    hide Outstanding;
    var more := rows[l := rows[l].(used := used)];
    forall user ensures Outstanding(more, user) == Outstanding(rows, user) {
      OutstandingMoves(rows, l, rows[l].(used := used), user);
    }
  }

  lemma SettledKeepsBalance(b: Books, u: Usage)
    requires Balanced(b) && WellFormed(u) && u.id !in b.usage && Belongs(b.rows, u) && b.rows[u.lease].ent in b.ents
    requires u.Bytes() <= b.rows[u.lease].bytes - b.rows[u.lease].used
    ensures Balanced(Settled(b, u))
  {
    hide Conserved, WithinOutstanding, Backed, Priced, RowsOk, WithinQuota, Adjusted;
    RowIsOk(b, u.lease);
    var before := b.rows[u.lease];
    var r := before.(used := before.used + u.Bytes());
    RowStaysOk(b.ents, b.rows, u.lease, r, 0, r.Cost(r.used) - before.Cost(before.used));
    QuotaStays(b.ents, r.ent, 0, r.Cost(r.used) - before.Cost(before.used));
    SettledKeepsBacked(b.rows, b.usage, u);
    SettledKeepsOutstanding(b.rows, u.lease, r.used);
    RowMoves(b.ents, b.rows, u.lease, r);
  }

  lemma RowIsOk(b: Books, l: Id)
    requires Balanced(b) && l in b.rows
    ensures RowOk(b.rows[l]) && b.rows[l].ent in b.ents
  {
    hide RowOk;
  }

  lemma SettleOneKeepsBalance(b: Books, u: Usage)
    requires Balanced(b) && SettleOne(b, u).Some?
    ensures Balanced(SettleOne(b, u).value)
  {
    hide Balanced, Settled;
    if u.id !in b.usage {
      SettledKeepsBalance(b, u);
    }
  }

  // ----- Settling batches -----

  /** A batch settles record by record; if one is refused nothing changes. */
  function SettleAll(b: Books, records: seq<Usage>): Option<Books>
    decreases |records|
  {
    if records == [] then Some(b)
    else
      var next := SettleOne(b, records[0]);
      if next.None? then None else SettleAll(next.value, records[1..])
  }

  lemma {:induction false} SettleAllKeepsBalance(b: Books, records: seq<Usage>)
    requires Balanced(b) && SettleAll(b, records).Some?
    ensures Balanced(SettleAll(b, records).value)
    decreases |records|
  {
    hide Balanced, SettleOne;
    if records != [] {
      SettleOneKeepsBalance(b, records[0]);
      SettleAllKeepsBalance(SettleOne(b, records[0]).value, records[1..]);
    }
  }

  // ----- Closing -----

  /** Close a lease whose use the Agent and the panel agree on, and release what it did not spend. */
  function Closed(b: Books, l: Id): Books
    requires l in b.rows && b.rows[l].ent in b.ents
  {
    var r := b.rows[l];
    b.(ents := Adjusted(b.ents, r.ent, r.Cost(r.used) - r.budget, 0), rows := b.rows[l := r.(closed := true)])
  }

  function RetireLease(b: Books, node: Id, l: Id, used: int): Option<Books> {
    if used < 0 || l !in b.rows || b.rows[l].node != node || b.rows[l].used != used then None
    else if b.rows[l].closed then Some(b)
    else
      var r := b.rows[l];
      var refund := r.budget - r.Cost(r.used);
      if refund < 0 || r.ent !in b.ents || b.ents[r.ent].allotted < refund then None else Some(Closed(b, l))
  }

  lemma ClosedKeepsOutstanding(rows: map<Id, Row>, l: Id)
    requires WithinOutstanding(rows) && l in rows && !rows[l].closed && 0 < rows[l].budget
    ensures WithinOutstanding(rows[l := rows[l].(closed := true)])
  {
    hide Outstanding;
    var more := rows[l := rows[l].(closed := true)];
    forall user ensures Outstanding(more, user) <= Outstanding(rows, user) {
      OutstandingMoves(rows, l, rows[l].(closed := true), user);
    }
  }

  lemma ClosedKeepsBacked(rows: map<Id, Row>, usage: map<UsageId, Usage>, l: Id)
    requires Backed(rows, usage) && l in rows
    ensures Backed(rows[l := rows[l].(closed := true)], usage)
  {
    hide Recorded;
  }

  /** A closed lease gives its whole budget back to the account's ceiling, and nobody else's. */
  lemma ClosingFreesBudget(b: Books, l: Id, user: Id)
    requires l in b.rows && b.rows[l].ent in b.ents && !b.rows[l].closed
    ensures Outstanding(Closed(b, l).rows, user) == Outstanding(b.rows, user) - (if b.rows[l].user == user then b.rows[l].budget else 0)
  {
    OutstandingMoves(b.rows, l, b.rows[l].(closed := true), user);
    hide Outstanding, Priced, Adjusted;
  }

  /** A granted lease takes its budget from the ceiling of its own account. */
  lemma GrantTakesBudget(b: Books, l: Id, r: Row, user: Id)
    requires l !in b.rows && r.ent in b.ents && !r.closed
    ensures Outstanding(Granted(b, l, r).rows, user) == Outstanding(b.rows, user) + (if r.user == user then r.budget else 0)
  {
    OutstandingMoves(b.rows, l, r, user);
    hide Outstanding, Adjusted;
  }

  lemma RetireKeepsBalance(b: Books, node: Id, l: Id, used: int)
    requires Balanced(b) && RetireLease(b, node, l, used).Some?
    ensures Balanced(RetireLease(b, node, l, used).value)
  {
    if !b.rows[l].closed {
      assert RowOk(b.rows[l]);
      hide Conserved, WithinOutstanding, Priced, RowsOk, WithinQuota, Adjusted, Backed;
      var r := b.rows[l].(closed := true);
      RowIsCovered(b.rows[l]);
      RowStaysOk(b.ents, b.rows, l, r, r.Cost(r.used) - r.budget, 0);
      QuotaStays(b.ents, r.ent, r.Cost(r.used) - r.budget, 0);
      ClosedKeepsBacked(b.rows, b.usage, l);
      ClosedKeepsOutstanding(b.rows, l);
      RowMoves(b.ents, b.rows, l, b.rows[l].(closed := true));
    }
  }

  /** The refund is never negative and never more than what is allocated, so a matching retirement is always accepted. */
  lemma RetirementIsAccepted(b: Books, node: Id, l: Id, used: int)
    requires Balanced(b)
    ensures RetireLease(b, node, l, used).Some? <==> l in b.rows && b.rows[l].node == node && b.rows[l].used == used
  {
    if l in b.rows && b.rows[l].node == node && b.rows[l].used == used && !b.rows[l].closed {
      var r := b.rows[l];
      RowIsCovered(r);
      hide Priced;
      forall k | k in b.rows - {l} ensures 0 <= ReservedOf(r.ent)((b.rows - {l})[k]) {
        RowIsCovered(b.rows[k]);
      }
      SumRemove(b.rows, ReservedOf(r.ent), l);
      SumNonNegative(b.rows - {l}, ReservedOf(r.ent));
    }
  }

  // ----- Quotas -----

  /** An add-on: unlimited absorbs everything, and an unlimited add-on lifts the quota. */
  function Extended(b: Books, e: Id, q: int): Books
    requires e in b.ents
  {
    b.(ents := b.ents[e := b.ents[e].(quota := if q == 0 || b.ents[e].quota == 0 then 0 else b.ents[e].quota + q)])
  }

  /** A refund takes quota back only if it is neither used nor reserved. */
  function Reduced(b: Books, e: Id, removed: int): Option<Books>
    requires e in b.ents
  {
    var ent := b.ents[e];
    if ent.quota - removed >= ent.allotted && ent.quota - removed >= ent.used
    then Some(b.(ents := b.ents[e := ent.(quota := ent.quota - removed)]))
    else if removed == 0 then Some(b)
    else None
  }

  /**
   * A refund that is accepted leaves no request more than it had before, unless it takes the quota to exactly zero:
   * then the entitlement counts as unlimited.
   */
  lemma RefundCurbs(b: Books, e: Id, removed: int)
    requires Balanced(b) && e in b.ents && 0 <= removed && Reduced(b, e, removed).Some?
    ensures (forall n :: Remaining(Reduced(b, e, removed).value.ents[e], n) <= Remaining(b.ents[e], n))
       <==> removed == 0 || removed != b.ents[e].quota
  {
    UseIsAllocated(b, e);
    var before, after := b.ents[e], Reduced(b, e, removed).value.ents[e];
    hide Balanced;
    if removed != 0 && removed == before.quota {
      assert Remaining(after, before.quota + 1) > Remaining(before, before.quota + 1);
    }
  }

  /** A full refund of an entitlement that was never used makes it fund every request in full. */
  lemma FullRefundLiftsTheQuota(b: Books, e: Id, a: Ask, now: int)
    requires Balanced(b) && e in b.ents && 0 < b.ents[e].quota && b.ents[e].allotted == 0 && now < b.ents[e].expiresAt
    requires b.ents[e].quota < a.requested <= MAX_REQUEST && a.requested <= MAX_OUTSTANDING - Outstanding(b.rows, a.user)
    requires a.num == 1 && a.den == 1
    ensures Offer(b, e, a, now).Some? && Offer(b, e, a, now).value.budget == b.ents[e].quota
    ensures var c := Reduced(b, e, b.ents[e].quota);
            c.Some? && Offer(c.value, e, a, now).Some? && Offer(c.value, e, a, now).value.budget == a.requested
  {
    UseIsAllocated(b, e);
    hide Balanced, Outstanding;
  }

  /** A purchase opens the next version. */
  function Purchased(b: Books, e: Id, user: Id, version: int, quota: int, expiresAt: int): Books {
    b.(ents := b.ents[e := Entitlement(user, version, quota, expiresAt, 0, 0)])
  }

  /** An add-on leaves every request its bytes more, and an unlimited one everything; nothing else moves. */
  lemma ExtensionAdds(b: Books, e: Id, q: int, n: int)
    requires e in b.ents && 0 <= q && 0 <= b.ents[e].quota
    ensures var c := Extended(b, e, q);
            && c == b.(ents := b.ents[e := b.ents[e].(quota := c.ents[e].quota)])
            && Remaining(c.ents[e], n) == (if q == 0 || b.ents[e].quota == 0 then n else Remaining(b.ents[e], n) + q)
  {
  }

  lemma QuotaKeepsBalance(b: Books, e: Id, q: int)
    requires Balanced(b) && e in b.ents && 0 <= q
    ensures Balanced(Extended(b, e, q))
    ensures Reduced(b, e, q).Some? ==> Balanced(Reduced(b, e, q).value)
  {
    UseIsAllocated(b, e);
    hide WithinOutstanding, Backed, RowOk;
  }

  lemma PurchaseKeepsBalance(b: Books, e: Id, user: Id, version: int, quota: int, expiresAt: int)
    requires Balanced(b) && e !in b.ents && 0 <= quota
    ensures Balanced(Purchased(b, e, user, version, quota, expiresAt))
  {
    hide WithinOutstanding, Backed, RowOk, Priced;
    SumZero(b.rows, ReservedOf(e));
    SumZero(b.rows, ChargedOf(e));
  }
}
