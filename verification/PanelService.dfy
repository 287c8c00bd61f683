/** The panel's quota service over its tables. */
module PanelService {
  import opened AgentTypes
  import opened AgentSystem
  import opened Sums
  import opened Rates
  import opened PanelBooks
  import opened PanelOps
  import opened PanelSettlement

  /** The newest entitlement of a user. */
  ghost predicate Latest(ents: map<Id, Entitlement>, user: Id, e: Id) {
    e in ents && ents[e].user == user && forall o :: o in ents && ents[o].user == user ==> ents[o].version <= ents[e].version
  }

  method SumOutstanding(rows: map<Id, Row>, user: Id) returns (n: int)
    ensures n == Outstanding(rows, user)
  {
    n := 0;
    var todo := rows.Keys;
    assert rows - todo == map[];
    SumUnfolds(rows - todo, OpenOf(user));
    while todo != {}
      invariant todo <= rows.Keys && n == Outstanding(rows - todo, user)
      decreases |todo|
    {
      var l :| l in todo;
      var r := rows[l];
      assert rows - (todo - {l}) == (rows - todo)[l := r];
      OutstandingMoves(rows - todo, l, r, user);
      if r.user == user && !r.closed {
        n := n + r.budget;
      }
      todo := todo - {l};
    }
    assert rows - todo == rows;
  }

  // ----- A batch, as one transaction -----

  /** The running totals of a batch: use per lease, charge per entitlement, records to insert. */
  datatype Totals = Totals(used: map<Id, int>, charges: map<Id, int>, inserts: map<UsageId, Usage>)

  function RowsWith(rows: map<Id, Row>, used: map<Id, int>): map<Id, Row> {
    map l | l in rows :: if l in used then rows[l].(used := used[l]) else rows[l]
  }

  function EntsWith(ents: map<Id, Entitlement>, charges: map<Id, int>): map<Id, Entitlement> {
    map e | e in ents :: if e in charges then ents[e].(used := ents[e].used + charges[e]) else ents[e]
  }

  /** The books with the totals written back. */
  function Overlay(b: Books, t: Totals): Books {
    Books(EntsWith(b.ents, t.charges), RowsWith(b.rows, t.used), b.usage + t.inserts)
  }

  function Running(rows: map<Id, Row>, used: map<Id, int>, l: Id): int
    requires l in rows
  {
    if l in used then used[l] else rows[l].used
  }

  function Add(b: Books, t: Totals, u: Usage): Totals
    requires u.lease in b.rows
  {
    var r, before := b.rows[u.lease], Running(b.rows, t.used, u.lease);
    var delta := r.Cost(before + u.Bytes()) - r.Cost(before);
    Totals(t.used[u.lease := before + u.Bytes()],
           t.charges[r.ent := (if r.ent in t.charges then t.charges[r.ent] else 0) + delta],
           t.inserts[u.id := u])
  }

  lemma RowsStep(rows: map<Id, Row>, used: map<Id, int>, l: Id, v: int)
    requires l in rows
    ensures l in RowsWith(rows, used) && RowsWith(rows, used)[l] == rows[l].(used := Running(rows, used, l))
    ensures RowsWith(rows, used)[l := rows[l].(used := v)] == RowsWith(rows, used[l := v])
  {
  }

  lemma EntsStep(ents: map<Id, Entitlement>, charges: map<Id, int>, e: Id, delta: int)
    requires e in ents
    ensures e in EntsWith(ents, charges)
    ensures Adjusted(EntsWith(ents, charges), e, 0, delta)
         == EntsWith(ents, charges[e := (if e in charges then charges[e] else 0) + delta])
  {
  }

  lemma OverlayStep(b: Books, t: Totals, u: Usage)
    requires u.lease in b.rows && b.rows[u.lease].ent in b.ents
    ensures u.lease in Overlay(b, t).rows && Overlay(b, t).rows[u.lease].ent in Overlay(b, t).ents
    ensures Settled(Overlay(b, t), u) == Overlay(b, Add(b, t, u))
  {
    hide Priced, RowsWith, EntsWith, Adjusted;
    var r, before := b.rows[u.lease], Running(b.rows, t.used, u.lease);
    RowsStep(b.rows, t.used, u.lease, before + u.Bytes());
    EntsStep(b.ents, t.charges, r.ent, r.Cost(before + u.Bytes()) - r.Cost(before));
    UsageStep(b.usage, t.inserts, u);
  }

  lemma UsageStep(usage: map<UsageId, Usage>, inserts: map<UsageId, Usage>, u: Usage)
    ensures (usage + inserts)[u.id := u] == usage + inserts[u.id := u]
  {
  }

  lemma OverlayNothing(b: Books)
    ensures Overlay(b, Totals(map[], map[], map[])) == b
  {
    assert b.usage + map[] == b.usage;
    assert EntsWith(b.ents, map[]) == b.ents && RowsWith(b.rows, map[]) == b.rows;
  }

  /** The test made on one new record against the running totals. */
  predicate Payable(b: Books, t: Totals, u: Usage) {
    Belongs(b.rows, u) && u.Bytes() <= b.rows[u.lease].bytes - Running(b.rows, t.used, u.lease)
  }

  lemma OverlayAccepts(b: Books, t: Totals, u: Usage)
    requires WellFormed(u) && u.id !in b.usage && u.id !in t.inserts && RowsOk(b.ents, b.rows)
    ensures SettleOne(Overlay(b, t), u).Some? <==> Payable(b, t, u)
    ensures Payable(b, t, u) ==> u.lease in b.rows && SettleOne(Overlay(b, t), u) == Some(Overlay(b, Add(b, t, u)))
  {
    var o := Overlay(b, t);
    assert Belongs(o.rows, u) <==> Belongs(b.rows, u);
    if Belongs(b.rows, u) {
      OverlayStep(b, t, u);
      RowsStep(b.rows, t.used, u.lease, 0);
    }
    assert u.id !in o.usage;
    hide Priced, Add, Settled, RowsWith;
  }

  // ----- Removing duplicates -----

  /** Distinct records, in the order of their first appearance. */
  ghost predicate UniqueOf(records: seq<Usage>, unique: seq<Usage>) {
    && (forall u :: u in unique <==> u in records)
    && (forall i, j :: 0 <= i < j < |unique| ==> unique[i].id != unique[j].id)
  }

  method Deduplicate(records: seq<Usage>) returns (ok: bool, unique: seq<Usage>)
    ensures ok ==> UniqueOf(records, unique) && forall u :: u in records ==> WellFormed(u)
    ensures !ok ==> exists u, v :: u in records && v in records && (!WellFormed(u) || (u.id == v.id && u != v))
  {
    var payloads: map<UsageId, Usage> := map[];
    unique := [];
    var i := 0;
    while i < |records|
      invariant 0 <= i <= |records| && UniqueOf(records[..i], unique)
      invariant forall u :: u in unique <==> u.id in payloads && payloads[u.id] == u
      invariant forall k :: k in payloads ==> payloads[k].id == k
      invariant forall u :: u in unique ==> WellFormed(u)
    {
      var u := records[i];
      assert records[..i + 1] == records[..i] + [u] && u in records;
      if !WellFormed(u) { return false, unique; }
      if u.id in payloads {
        if payloads[u.id] != u {
          assert payloads[u.id] in unique && payloads[u.id] in records[..i];
          return false, unique;
        }
      } else {
        payloads := payloads[u.id := u];
        unique := unique + [u];
      }
      i := i + 1;
    }
    assert records[..i] == records;
    ok := true;
  }

  /** The records that the books do not hold yet. */
  ghost predicate FreshOf(usage: map<UsageId, Usage>, unique: seq<Usage>, news: seq<Usage>) {
    && (forall u :: u in news <==> u in unique && u.id !in usage)
    && (forall i, j :: 0 <= i < j < |news| ==> news[i].id != news[j].id)
  }

  method SelectFresh(usage: map<UsageId, Usage>, unique: seq<Usage>) returns (ok: bool, news: seq<Usage>)
    requires forall i, j :: 0 <= i < j < |unique| ==> unique[i].id != unique[j].id
    ensures ok <==> forall u :: u in unique && u.id in usage ==> usage[u.id] == u
    ensures ok ==> FreshOf(usage, unique, news)
  {
    news := [];
    var i := 0;
    while i < |unique|
      invariant 0 <= i <= |unique| && FreshOf(usage, unique[..i], news)
      invariant forall u :: u in unique[..i] && u.id in usage ==> usage[u.id] == u
    {
      var u := unique[i];
      assert unique[..i + 1] == unique[..i] + [u] && u in unique;
      if u.id in usage {
        if usage[u.id] != u { return false, news; }
      } else {
        forall j | 0 <= j < |news| ensures news[j].id != u.id {
          assert news[j] in news && news[j] in unique[..i];
        }
        news := news + [u];
      }
      i := i + 1;
    }
    assert unique[..i] == unique;
    ok := true;
  }

  lemma {:induction false} DuplicatesSettle(b: Books, records: seq<Usage>)
    requires forall u :: u in records ==> WellFormed(u) && u.id in b.usage && b.usage[u.id] == u
    ensures SettleAll(b, records) == Some(b)
  {
    if records != [] {
      assert records[0] in records;
      DuplicatesSettle(b, records[1..]);
    }
  }

  lemma {:induction false} SettledStaysKnown(b: Books, records: seq<Usage>, k: UsageId)
    requires SettleAll(b, records).Some? && k in b.usage
    ensures k in SettleAll(b, records).value.usage && SettleAll(b, records).value.usage[k] == b.usage[k]
    decreases |records|
  {
    if records != [] {
      SettledStaysKnown(SettleOne(b, records[0]).value, records[1..], k);
    }
  }

  /** The known records of a batch, in the order they appear. */
  ghost function Known(usage: map<UsageId, Usage>, records: seq<Usage>): seq<Usage> {
    if records == [] then []
    else (if records[0].id in usage then [records[0]] else []) + Known(usage, records[1..])
  }

  lemma {:induction false} KnownIs(usage: map<UsageId, Usage>, records: seq<Usage>, u: Usage)
    ensures u in Known(usage, records) <==> u in records && u.id in usage
  {
    if records != [] {
      KnownIs(usage, records[1..], u);
      assert u in records <==> u == records[0] || u in records[1..];
    }
  }

  /** Dropping repeated and already known records does not change the outcome of a batch. */
  lemma FreshSettlesTheSame(b: Books, records: seq<Usage>, unique: seq<Usage>, news: seq<Usage>)
    requires Balanced(b) && UniqueOf(records, unique) && FreshOf(b.usage, unique, news)
    requires forall u :: u in records ==> WellFormed(u)
    requires forall u :: u in unique && u.id in b.usage ==> b.usage[u.id] == u
    ensures SettleAll(b, records) == SettleAll(b, news)
  {
    hide Balanced;
    var known := Known(b.usage, records);
    forall u ensures u in known <==> u in records && u.id in b.usage { KnownIs(b.usage, records, u); }
    SettlementIsOfASet(b, records, known + news);
    SettlementSplits(b, known, news);
    DuplicatesSettle(b, known);
  }

  lemma {:induction false} RefusedBatch(b: Books, records: seq<Usage>, u: Usage, v: Usage)
    requires Balanced(b) && u in records && v in records && (!WellFormed(u) || (u.id == v.id && u != v))
    ensures SettleAll(b, records).None?
  {
    SettlementAccepts(b, records);
    hide Balanced;
  }

  lemma {:induction false} SettleSnoc(b: Books, records: seq<Usage>, u: Usage)
    ensures SettleAll(b, records + [u])
         == var c := SettleAll(b, records); if c.None? then None else SettleOne(c.value, u)
  {
    SettlementSplits(b, records, [u]);
    var c := SettleAll(b, records);
    if c.Some? {
      assert [u][1..] == [];
    }
  }

  lemma PrefixRefuses(b: Books, records: seq<Usage>, i: int)
    requires 0 <= i <= |records| && SettleAll(b, records[..i]).None?
    ensures SettleAll(b, records).None?
  {
    assert records == records[..i] + records[i..];
    SettlementSplits(b, records[..i], records[i..]);
  }

  /** What the first `i` new records amount to. */
  ghost predicate Amounts(b: Books, news: seq<Usage>, i: int, t: Totals) {
    0 <= i <= |news| && SettleAll(b, news[..i]) == Some(Overlay(b, t)) && Inserted(news, i, t.inserts)
  }

  ghost predicate Inserted(news: seq<Usage>, i: int, inserts: map<UsageId, Usage>)
    requires 0 <= i <= |news|
  {
    forall k :: k in inserts <==> exists j :: 0 <= j < i && news[j].id == k
  }

  lemma InsertedStep(usage: map<UsageId, Usage>, news: seq<Usage>, i: int, inserts: map<UsageId, Usage>)
    requires FreshOf(usage, news, news) && 0 <= i < |news| && Inserted(news, i, inserts)
    ensures news[i].id !in usage && news[i].id !in inserts && Inserted(news, i + 1, inserts[news[i].id := news[i]])
  {
    assert news[i] in news;
  }

  lemma AmountsStep(b: Books, news: seq<Usage>, i: int, t: Totals)
    requires Balanced(b) && FreshOf(b.usage, news, news) && (forall u :: u in news ==> WellFormed(u))
    requires Amounts(b, news, i, t) && i < |news|
    ensures if Payable(b, t, news[i]) then news[i].lease in b.rows && Amounts(b, news, i + 1, Add(b, t, news[i]))
            else SettleAll(b, news).None?
  {
    hide Balanced, FreshOf, SettleOne, Overlay, Payable, SettleAll, WellFormed, Inserted;
    var u := news[i];
    assert news[..i + 1] == news[..i] + [u] && u in news;
    InsertedStep(b.usage, news, i, t.inserts);
    SettleSnoc(b, news[..i], u);
    RowsAreOk(b);
    OverlayAccepts(b, t, u);
    if !Payable(b, t, u) {
      PrefixRefuses(b, news, i + 1);
    }
  }

  lemma RowsAreOk(b: Books)
    requires Balanced(b)
    ensures RowsOk(b.ents, b.rows)
  {
  }

  /** Run the new records of a batch against running totals, without touching the tables. */
  method Accumulate(b: Books, news: seq<Usage>) returns (ok: bool, t: Totals)
    requires Balanced(b) && FreshOf(b.usage, news, news) && forall u :: u in news ==> WellFormed(u)
    ensures ok <==> SettleAll(b, news).Some?
    ensures ok ==> SettleAll(b, news) == Some(Overlay(b, t))
  {
    t := Totals(map[], map[], map[]);
    OverlayNothing(b);
    assert news[..0] == [];
    hide Balanced, FreshOf, WellFormed, Payable, Add, Overlay, SettleAll;
    assert SettleAll(b, []) == Some(b) by { EmptySettles(b); }
    var i := 0;
    while i < |news|
      invariant Amounts(b, news, i, t)
    {
      AmountsStep(b, news, i, t);
      if !Payable(b, t, news[i]) { return false, t; }
      t := Add(b, t, news[i]);
      i := i + 1;
    }
    assert news[..i] == news;
    ok := true;
  }

  lemma EmptySettles(b: Books)
    ensures SettleAll(b, []) == Some(b)
  {
  }

  // ----- The service -----

  class Service {
    var ents: map<Id, Entitlement>
    var rows: map<Id, Row>
    var usage: map<UsageId, Usage>

    function Tables(): Books
      reads this
    {
      Books(ents, rows, usage)
    }

    constructor ()
      ensures Balanced(Tables()) && Tables() == Books(map[], map[], map[])
    {
      ents, rows, usage := map[], map[], map[];
      new;
      forall user ensures Outstanding(rows, user) == 0 { SumUnfolds(rows, OpenOf(user)); }
      hide Outstanding;
    }

    method FindLatest(user: Id) returns (e: Option<Id>)
      ensures e.Some? ==> Latest(ents, user, e.value)
      ensures e.None? ==> forall o :: o in ents ==> ents[o].user != user
    {
      e := None;
      var todo := ents.Keys;
      while todo != {}
        invariant todo <= ents.Keys
        invariant e.Some? ==> e.value in ents && ents[e.value].user == user
        invariant forall o :: o in ents && o !in todo && ents[o].user == user ==> e.Some? && ents[o].version <= ents[e.value].version
        decreases |todo|
      {
        var o :| o in todo;
        if ents[o].user == user && (e.None? || ents[e.value].version < ents[o].version) {
          e := Some(o);
        }
        todo := todo - {o};
      }
    }

    /** Reserve part of the newest entitlement for a lease; the reservation is made before the lease is published. */
    method AllocateBudget(a: Ask, now: int, l: Id) returns (e: Option<Id>, lease: Option<Lease>)
      requires Balanced(Tables()) && l !in rows
      modifies this
      ensures Balanced(Tables())
      ensures e.Some? ==> Latest(old(ents), a.user, e.value)
      ensures e.None? ==> forall o :: o in old(ents) ==> old(ents)[o].user != a.user
      ensures lease.Some? <==> e.Some? && Offer(old(Tables()), e.value, a, now).Some?
      ensures if lease.Some?
              then var r := Offer(old(Tables()), e.value, a, now).value;
                   Tables() == Granted(old(Tables()), l, r) && lease.value == Lease(l, r.ent, r.bytes, r.expiresAt)
              else Tables() == old(Tables())
    {
      hide Balanced, Outstanding, Raw, Latest;
      lease := None;
      e := FindLatest(a.user);
      if e.None? { return; }
      LatestExists(ents, a.user, e.value);
      var outstanding := SumOutstanding(rows, a.user);
      var ent := ents[e.value];
      if a.requested <= 0 || a.requested > MAX_REQUEST || a.num <= 0 || a.den <= 0 || now >= ent.expiresAt { return; }
      var remaining := if ent.quota == 0 then a.requested else ent.quota - ent.allotted;
      var budget := Min(Min(a.requested, MAX_OUTSTANDING - outstanding), remaining);
      var raw := Raw(budget, a.num, a.den);
      if budget <= 0 || raw <= 0 || raw >= INT64 { return; }
      GrantKeepsBalance(Tables(), e.value, a, now, l);
      var deadline := Min(now + LEASE_TIME, ent.expiresAt);
      ents := ents[e.value := ent.(allotted := ent.allotted + budget)];
      rows := rows[l := Row(a.user, a.node, a.rule, e.value, raw, deadline, 0, a.num, a.den, budget, false)];
      lease := Some(Lease(l, e.value, raw, deadline));
    }

    /**
     * Settle a batch in one transaction: drop repeated and known records, test and total the new ones, then write the
     * counters and the records. The outcome is that of settling the records one by one.
     */
    method SettleUsageBatch(records: seq<Usage>) returns (ok: bool)
      requires Balanced(Tables())
      modifies this
      ensures Balanced(Tables())
      ensures ok <==> |records| <= 500 && SettleAll(old(Tables()), records).Some?
      ensures Tables() == if ok then SettleAll(old(Tables()), records).value else old(Tables())
    {
      hide Balanced, WellFormed, SettleAll, UniqueOf, Overlay;
      if |records| > MAX_BATCH { return false; }
      var unique, news, t;
      ok, unique := Deduplicate(records);
      if !ok {
        ghost var u, v :| u in records && v in records && (!WellFormed(u) || (u.id == v.id && u != v));
        RefusedBatch(Tables(), records, u, v);
        return;
      }
      UniqueIsDistinct(records, unique);
      ok, news := SelectFresh(usage, unique);
      if !ok {
        ghost var u :| u in unique && u.id in usage && usage[u.id] != u;
        ConflictIsRefused(Tables(), records, u);
        return;
      }
      FreshSettlesTheSame(Tables(), records, unique, news);
      ok, t := Accumulate(Tables(), news);
      if !ok { return; }
      SettleAllKeepsBalance(Tables(), records);
      OverlayIs(Tables(), t);
      ents, rows, usage := EntsWith(ents, t.charges), RowsWith(rows, t.used), usage + t.inserts;
    }

    /** Take quota back for a refund, if it is neither used nor reserved. */
    method ReduceQuota(e: Id, removed: int) returns (ok: bool)
      requires Balanced(Tables()) && e in ents && 0 <= removed
      modifies this
      ensures Balanced(Tables())
      ensures ok <==> removed == 0 || old(ents)[e].allotted + removed <= old(ents)[e].quota
      ensures if ok then Reduced(old(Tables()), e, removed) == Some(Tables()) else Tables() == old(Tables())
    {
      UseIsAllocated(Tables(), e);
      QuotaKeepsBalance(Tables(), e, removed);
      hide Balanced;
      var ent := ents[e];
      ok := true;
      if ent.quota - removed >= ent.allotted && ent.quota - removed >= ent.used {
        ents := ents[e := ent.(quota := ent.quota - removed)];
      } else if removed != 0 {
        ok := false;
      }
    }

    /** Close a lease whose use the Agent and the panel agree on, and release what it did not spend. */
    method RetireLease(node: Id, l: Id, used: int) returns (ok: bool)
      requires Balanced(Tables())
      modifies this
      ensures Balanced(Tables())
      ensures ok <==> l in old(rows) && old(rows)[l].node == node && old(rows)[l].used == used
      ensures Tables() == if ok && !old(rows)[l].closed then Closed(old(Tables()), l) else old(Tables())
    {
      RetirementIsAccepted(Tables(), node, l, used);
      if PanelOps.RetireLease(Tables(), node, l, used).Some? {
        RetireKeepsBalance(Tables(), node, l, used);
      }
      hide Balanced, Priced;
      ok := used >= 0 && l in rows && rows[l].node == node && rows[l].used == used;
      if !ok || rows[l].closed { return; }
      var r := rows[l];
      var refund := r.budget - r.Cost(r.used);
      if refund < 0 || r.ent !in ents || ents[r.ent].allotted < refund { return false; }
      rows := rows[l := r.(closed := true)];
      ents := ents[r.ent := ents[r.ent].(allotted := ents[r.ent].allotted - refund)];
    }
  }

  lemma LatestExists(ents: map<Id, Entitlement>, user: Id, e: Id)
    requires Latest(ents, user, e)
    ensures e in ents
  {
  }

  lemma UniqueIsDistinct(records: seq<Usage>, unique: seq<Usage>)
    requires UniqueOf(records, unique)
    ensures forall i, j :: 0 <= i < j < |unique| ==> unique[i].id != unique[j].id
    ensures forall u :: u in unique ==> u in records
  {
  }

  lemma OverlayIs(b: Books, t: Totals)
    ensures Overlay(b, t) == Books(EntsWith(b.ents, t.charges), RowsWith(b.rows, t.used), b.usage + t.inserts)
  {
  }
}
