/** The panel's books: entitlements, the leases granted from them and the usage that was settled. */
module PanelBooks {
  import opened AgentTypes
  import opened AgentSystem
  import opened Sums
  import opened Rates

  const MAX_REQUEST: int := 268_435_456
  const MAX_OUTSTANDING: int := 536_870_912
  const MAX_BATCH: int := 500
  const LEASE_TIME: int := 300_000_000_000
  const INT64: int := 0x8000_0000_0000_0000

  /** A quota of zero is unlimited. */
  datatype Entitlement = Entitlement(user: Id, version: int, quota: int, expiresAt: int, allotted: int, used: int)

  /** A lease with its reservation; `num / den` is its multiplier. */
  datatype Row = Row(user: Id, node: Id, rule: Id, ent: Id, bytes: int, expiresAt: int, used: int,
                     num: int, den: int, budget: int, closed: bool)
  {
    function Cost(v: int): int {
      Priced(v, num, den)
    }

    /** What the lease takes from its entitlement: its whole budget, or its final charge once it is closed. */
    function Reserved(): int {
      if closed then Cost(used) else budget
    }
  }

  datatype Books = Books(ents: map<Id, Entitlement>, rows: map<Id, Row>, usage: map<UsageId, Usage>)

  // ----- Totals -----

  ghost function ReservedOf(e: Id): Row -> int {
    (r: Row) => if r.ent == e then r.Reserved() else 0
  }

  ghost function ChargedOf(e: Id): Row -> int {
    (r: Row) => if r.ent == e then r.Cost(r.used) else 0
  }

  ghost function OpenOf(user: Id): Row -> int {
    (r: Row) => if r.user == user && !r.closed then r.budget else 0
  }

  ghost function Outstanding(rows: map<Id, Row>, user: Id): int {
    Sum(rows, OpenOf(user))
  }

  // ----- The invariant -----

  predicate RowOk(r: Row) {
    && 0 < r.num && 0 < r.den && 0 < r.budget <= MAX_REQUEST
    && 0 <= r.used <= r.bytes && r.Cost(r.bytes) <= r.budget
  }

  ghost predicate RowsOk(ents: map<Id, Entitlement>, rows: map<Id, Row>) {
    forall l :: l in rows ==> RowOk(rows[l]) && rows[l].ent in ents
  }

  /** Conservation: allocations are the open budgets and the closed charges, use is the sum of the charges. */
  ghost predicate Conserved(ents: map<Id, Entitlement>, rows: map<Id, Row>) {
    forall e :: e in ents ==> ents[e].allotted == Sum(rows, ReservedOf(e)) && ents[e].used == Sum(rows, ChargedOf(e))
  }

  ghost predicate WithinQuota(ents: map<Id, Entitlement>) {
    forall e :: e in ents ==> 0 <= ents[e].quota && (ents[e].quota != 0 ==> ents[e].allotted <= ents[e].quota)
  }

  ghost predicate WithinOutstanding(rows: map<Id, Row>) {
    forall user :: Outstanding(rows, user) <= MAX_OUTSTANDING
  }

  /** A settled record names its lease as it was granted and lies within its time. */
  predicate Filed(rows: map<Id, Row>, u: Usage) {
    && u.lease in rows && rows[u.lease].node == u.node && rows[u.lease].rule == u.rule && rows[u.lease].ent == u.entitlement
    && 0 <= u.up && 0 <= u.down && 0 < u.startedAt <= u.endedAt <= rows[u.lease].expiresAt
  }

  /** A lease's use is a function of the set of settled records. */
  ghost predicate Backed(rows: map<Id, Row>, usage: map<UsageId, Usage>) {
    && (forall l :: l in rows ==> rows[l].used == Recorded(usage, l))
    && (forall k :: k in usage ==> usage[k].id == k && Filed(rows, usage[k]))
  }

  ghost predicate Balanced(b: Books) {
    RowsOk(b.ents, b.rows) && Conserved(b.ents, b.rows) && WithinQuota(b.ents) && WithinOutstanding(b.rows) && Backed(b.rows, b.usage)
  }

  // ----- Moving one row -----

  /** What replacing a row does to its entitlement. */
  function Adjusted(ents: map<Id, Entitlement>, e: Id, allotted: int, used: int): map<Id, Entitlement>
    requires e in ents
  {
    ents[e := ents[e].(allotted := ents[e].allotted + allotted, used := ents[e].used + used)]
  }

  lemma RowMoves(ents: map<Id, Entitlement>, rows: map<Id, Row>, l: Id, r: Row)
    requires Conserved(ents, rows) && r.ent in ents && (l in rows ==> rows[l].ent == r.ent)
    ensures var before := if l in rows then rows[l].Reserved() else 0;
            var charged := if l in rows then rows[l].Cost(rows[l].used) else 0;
            Conserved(Adjusted(ents, r.ent, r.Reserved() - before, r.Cost(r.used) - charged), rows[l := r])
  {
    hide Priced;
    forall e | e in ents
      ensures Sum(rows[l := r], ReservedOf(e))
           == Sum(rows, ReservedOf(e)) + (if e == r.ent then r.Reserved() - (if l in rows then rows[l].Reserved() else 0) else 0)
      ensures Sum(rows[l := r], ChargedOf(e))
           == Sum(rows, ChargedOf(e)) + (if e == r.ent then r.Cost(r.used) - (if l in rows then rows[l].Cost(rows[l].used) else 0) else 0)
    {
      SumPut(rows, ReservedOf(e), l, r);
      SumPut(rows, ChargedOf(e), l, r);
    }
  }

  lemma OutstandingMoves(rows: map<Id, Row>, l: Id, r: Row, user: Id)
    ensures Outstanding(rows[l := r], user)
         == Outstanding(rows, user) + OpenOf(user)(r) - (if l in rows then OpenOf(user)(rows[l]) else 0)
  {
    SumPut(rows, OpenOf(user), l, r);
  }

  /** Charges never exceed what is reserved for them. */
  lemma RowIsCovered(r: Row)
    requires RowOk(r)
    ensures 0 <= r.Cost(r.used) <= r.Reserved()
  {
    ChargeIsMonotone(0, r.used, r.num, r.den);
    ChargeIsMonotone(r.used, r.bytes, r.num, r.den);
    ChargeOfNothing(r.num, r.den);
  }

  /** Use never exceeds allocation, and neither exceeds a nonzero quota. */
  lemma UseIsAllocated(b: Books, e: Id)
    requires Balanced(b) && e in b.ents
    ensures 0 <= b.ents[e].used <= b.ents[e].allotted
    ensures b.ents[e].quota != 0 ==> b.ents[e].allotted <= b.ents[e].quota
  {
    hide Priced;
    forall l | l in b.rows ensures 0 <= ChargedOf(e)(b.rows[l]) <= ReservedOf(e)(b.rows[l]) {
      RowIsCovered(b.rows[l]);
    }
    SumNonNegative(b.rows, ChargedOf(e));
    SumMonotone(b.rows, ChargedOf(e), b.rows, ReservedOf(e));
  }
}
