/** Settlement is a function of the set of records: order, repetition and the split into batches do not matter. */
module PanelSettlement {
  import opened AgentTypes
  import opened AgentSystem
  import opened Sums
  import opened Rates
  import opened PanelBooks
  import opened PanelOps

  function Merged(usage: map<UsageId, Usage>, records: seq<Usage>): map<UsageId, Usage>
    decreases |records|
  {
    if records == [] then usage else Merged(usage[records[0].id := records[0]], records[1..])
  }

  /** Every record is valid, agrees with what its identifier already names, and belongs to an open lease if it is new. */
  ghost predicate Compatible(rows: map<Id, Row>, usage: map<UsageId, Usage>, records: seq<Usage>) {
    && (forall u :: u in records ==>
          && WellFormed(u)
          && (if u.id in usage then usage[u.id] == u else Belongs(rows, u)))
    && (forall u, v :: u in records && v in records && u.id == v.id ==> u == v)
  }

  /** The leases can pay for all that would then be recorded. */
  ghost predicate Affordable(rows: map<Id, Row>, usage: map<UsageId, Usage>) {
    forall l :: l in rows ==> Recorded(usage, l) <= rows[l].bytes
  }

  ghost predicate Acceptable(b: Books, records: seq<Usage>) {
    Compatible(b.rows, b.usage, records) && Affordable(b.rows, Merged(b.usage, records))
  }

  // ----- What a batch leaves alone -----

  ghost predicate SameTerms(a: map<Id, Row>, b: map<Id, Row>) {
    a.Keys == b.Keys && forall l :: l in a ==> b[l] == a[l].(used := b[l].used)
  }

  ghost predicate SameFunds(a: map<Id, Entitlement>, b: map<Id, Entitlement>) {
    a.Keys == b.Keys && forall e :: e in a ==> b[e] == a[e].(used := b[e].used)
  }

  lemma {:induction false} SettleAllFrame(b: Books, records: seq<Usage>)
    requires SettleAll(b, records).Some?
    ensures var c := SettleAll(b, records).value;
            SameTerms(b.rows, c.rows) && SameFunds(b.ents, c.ents) && c.usage == Merged(b.usage, records)
    decreases |records|
  {
    hide SettleOne, SameTerms, SameFunds;
    if records == [] {
      SameAsItself(b);
    } else {
      SettleOneFrame(b, records[0]);
      var next := SettleOne(b, records[0]).value;
      SettleAllFrame(next, records[1..]);
      TermsFollow(b, next, SettleAll(b, records).value);
    }
  }

  lemma SameAsItself(b: Books)
    ensures SameTerms(b.rows, b.rows) && SameFunds(b.ents, b.ents)
  {
  }

  lemma SettleOneFrame(b: Books, u: Usage)
    requires SettleOne(b, u).Some?
    ensures var c := SettleOne(b, u).value;
            SameTerms(b.rows, c.rows) && SameFunds(b.ents, c.ents) && c.usage == b.usage[u.id := u]
  {
    hide Priced;
    var c := SettleOne(b, u).value;
    assert c.usage == b.usage[u.id := u];
  }

  lemma TermsFollow(b: Books, c: Books, d: Books)
    requires SameTerms(b.rows, c.rows) && SameTerms(c.rows, d.rows) && SameFunds(b.ents, c.ents) && SameFunds(c.ents, d.ents)
    ensures SameTerms(b.rows, d.rows) && SameFunds(b.ents, d.ents)
  {
  }

  /** Books that balance are determined by their terms and their records. */
  lemma BalancedIsDetermined(a: Books, b: Books)
    requires Balanced(a) && Balanced(b) && SameTerms(a.rows, b.rows) && SameFunds(a.ents, b.ents) && a.usage == b.usage
    ensures a == b
  {
    hide Recorded, Priced, WithinQuota, WithinOutstanding, RowOk;
    assert a.rows == b.rows;
    assert a.ents == b.ents;
  }

  // ----- When a batch is accepted -----

  lemma BelongsStays(a: map<Id, Row>, b: map<Id, Row>, u: Usage)
    requires SameTerms(a, b)
    ensures Belongs(a, u) <==> Belongs(b, u)
  {
  }

  lemma CompatibleTail(rows: map<Id, Row>, more: map<Id, Row>, usage: map<UsageId, Usage>, records: seq<Usage>)
    requires records != [] && SameTerms(rows, more)
    requires WellFormed(records[0]) && (if records[0].id in usage then usage[records[0].id] == records[0] else Belongs(rows, records[0]))
    ensures Compatible(rows, usage, records) <==> Compatible(more, usage[records[0].id := records[0]], records[1..])
  {
    var u, rest := records[0], records[1..];
    forall v ensures Belongs(rows, v) <==> Belongs(more, v) { BelongsStays(rows, more, v); }
    hide Belongs, WellFormed;
    assert forall v :: v in records <==> v == u || v in rest;
  }

  lemma {:induction false} MergedGrows(usage: map<UsageId, Usage>, records: seq<Usage>, l: Id)
    requires forall u :: u in records ==> 0 <= u.Bytes() && (u.id in usage ==> usage[u.id] == u)
    requires forall u, v :: u in records && v in records && u.id == v.id ==> u == v
    ensures Recorded(usage, l) <= Recorded(Merged(usage, records), l)
    decreases |records|
  {
    if records != [] {
      var u := records[0];
      if u.id in usage {
        assert usage[u.id := u] == usage;
      } else {
        RecordedPut(usage, u, l);
      }
      assert u in records;
      hide Recorded;
      MergedGrows(usage[u.id := u], records[1..], l);
    }
  }

  lemma NewRecordFits(b: Books, records: seq<Usage>)
    requires Balanced(b) && Acceptable(b, records) && records != [] && records[0].id !in b.usage
    ensures Belongs(b.rows, records[0]) && WellFormed(records[0])
    ensures records[0].Bytes() <= b.rows[records[0].lease].bytes - b.rows[records[0].lease].used
  {
    var u := records[0];
    assert u in records;
    hide Recorded, Conserved, RowsOk;
    forall v | v in records ensures 0 <= v.Bytes() { assert WellFormed(v); }
    RecordedPut(b.usage, u, u.lease);
    assert forall v :: v in records[1..] ==> v in records;
    MergedGrows(b.usage[u.id := u], records[1..], u.lease);
  }

  lemma SettledHasSameTerms(b: Books, u: Usage)
    requires u.lease in b.rows && b.rows[u.lease].ent in b.ents
    ensures SameTerms(b.rows, Settled(b, u).rows)
  {
    hide Priced;
  }

  lemma AffordableStays(a: map<Id, Row>, b: map<Id, Row>, usage: map<UsageId, Usage>)
    requires SameTerms(a, b)
    ensures Affordable(a, usage) <==> Affordable(b, usage)
  {
    hide Recorded;
  }

  /** The first record of a batch: what it does and what is left to accept. */
  lemma AcceptFirst(b: Books, records: seq<Usage>)
    requires Balanced(b) && records != [] && SettleOne(b, records[0]).Some?
    ensures Acceptable(b, records) <==> Acceptable(SettleOne(b, records[0]).value, records[1..])
  {
    var u := records[0];
    var next := SettleOne(b, u).value;
    if u.id in b.usage {
      assert b.usage[u.id := u] == b.usage && next == b;
      assert SameTerms(b.rows, b.rows);
    } else {
      SettledHasSameTerms(b, u);
    }
    hide Settled, SameTerms, Affordable, Compatible, Belongs, WellFormed;
    CompatibleTail(b.rows, next.rows, b.usage, records);
    AffordableStays(b.rows, next.rows, Merged(b.usage, records));
  }

  /** A batch is accepted exactly when its records are compatible with the books and the leases can pay for them. */
  lemma {:induction false} SettlementAccepts(b: Books, records: seq<Usage>)
    requires Balanced(b)
    ensures SettleAll(b, records).Some? <==> Acceptable(b, records)
    decreases |records|
  {
    if records == [] {
      EmptyIsAcceptable(b);
    } else {
      hide Balanced, Acceptable, SettleOne;
      var u := records[0];
      FirstIsAccepted(b, records);
      if SettleOne(b, u).Some? {
        SettleOneKeepsBalance(b, u);
        AcceptFirst(b, records);
        SettlementAccepts(SettleOne(b, u).value, records[1..]);
      }
    }
  }

  lemma EmptyIsAcceptable(b: Books)
    requires Balanced(b)
    ensures Acceptable(b, [])
  {
    hide Recorded;
    forall l | l in b.rows ensures Recorded(b.usage, l) <= b.rows[l].bytes { assert RowOk(b.rows[l]); }
  }

  lemma FirstIsAccepted(b: Books, records: seq<Usage>)
    requires Balanced(b) && records != []
    ensures Acceptable(b, records) ==> SettleOne(b, records[0]).Some?
  {
    if Acceptable(b, records) {
      assert records[0] in records;
      if records[0].id !in b.usage {
        NewRecordFits(b, records);
        assert RowOk(b.rows[records[0].lease]) && b.rows[records[0].lease].ent in b.ents;
      }
    }
  }

  // ----- Sets of records -----

  lemma {:induction false} MergedIs(usage: map<UsageId, Usage>, records: seq<Usage>, k: UsageId)
    requires forall u, v :: u in records && v in records && u.id == v.id ==> u == v
    ensures k in Merged(usage, records) <==> k in usage || exists u :: u in records && u.id == k
    ensures forall u :: u in records && u.id == k ==> Merged(usage, records)[k] == u
    ensures k in usage && (forall u :: u in records ==> u.id != k) ==> Merged(usage, records)[k] == usage[k]
    decreases |records|
  {
    if records != [] {
      var u, rest := records[0], records[1..];
      MergedIs(usage[u.id := u], rest, k);
      assert forall v :: v in records <==> v == u || v in rest;
    }
  }

  lemma SameSetMerges(usage: map<UsageId, Usage>, xs: seq<Usage>, ys: seq<Usage>)
    requires forall u :: u in xs <==> u in ys
    requires forall u, v :: u in xs && v in xs && u.id == v.id ==> u == v
    ensures Merged(usage, xs) == Merged(usage, ys)
  {
    forall k ensures k in Merged(usage, xs) <==> k in Merged(usage, ys)
             ensures k in Merged(usage, xs) ==> Merged(usage, xs)[k] == Merged(usage, ys)[k] {
      MergedIs(usage, xs, k);
      MergedIs(usage, ys, k);
    }
  }

  /** Any two arrangements of the same records have the same outcome, accepted or not. */
  lemma SettlementIsOfASet(b: Books, xs: seq<Usage>, ys: seq<Usage>)
    requires Balanced(b) && forall u :: u in xs <==> u in ys
    ensures SettleAll(b, xs) == SettleAll(b, ys)
  {
    SettlementAccepts(b, xs);
    SettlementAccepts(b, ys);
    if Compatible(b.rows, b.usage, xs) {
      SameSetMerges(b.usage, xs, ys);
    }
    assert Compatible(b.rows, b.usage, xs) <==> Compatible(b.rows, b.usage, ys);
    hide Balanced, Compatible, Affordable;
    if Acceptable(b, xs) {
      SettleAllKeepsBalance(b, xs);
      SettleAllKeepsBalance(b, ys);
      SettleAllFrame(b, xs);
      SettleAllFrame(b, ys);
      var c, d := SettleAll(b, xs).value, SettleAll(b, ys).value;
      TermsCompose(b, c, d);
      BalancedIsDetermined(c, d);
    }
  }

  lemma TermsCompose(b: Books, c: Books, d: Books)
    requires SameTerms(b.rows, c.rows) && SameTerms(b.rows, d.rows) && SameFunds(b.ents, c.ents) && SameFunds(b.ents, d.ents)
    ensures SameTerms(c.rows, d.rows) && SameFunds(c.ents, d.ents)
  {
  }

  lemma {:induction false} SettlementSplits(b: Books, xs: seq<Usage>, ys: seq<Usage>)
    ensures SettleAll(b, xs + ys) == var c := SettleAll(b, xs); if c.None? then None else SettleAll(c.value, ys)
    decreases |xs|
  {
    hide SettleOne;
    if xs == [] {
      assert xs + ys == ys;
    } else {
      assert (xs + ys)[1..] == xs[1..] + ys;
      if SettleOne(b, xs[0]).Some? {
        SettlementSplits(SettleOne(b, xs[0]).value, xs[1..], ys);
      }
    }
  }

  /** Sending a settled batch again, whole or in part, in any order, changes nothing. */
  lemma ReplayIsANoOp(b: Books, xs: seq<Usage>, again: seq<Usage>)
    requires Balanced(b) && SettleAll(b, xs).Some? && forall u :: u in again ==> u in xs
    ensures SettleAll(SettleAll(b, xs).value, again) == SettleAll(b, xs)
  {
    SettlementSplits(b, xs, again);
    SettlementIsOfASet(b, xs, xs + again);
  }

  /** An identifier that already names another record refuses the whole batch. */
  lemma {:induction false} ConflictIsRefused(b: Books, records: seq<Usage>, u: Usage)
    requires u in records && u.id in b.usage && b.usage[u.id] != u
    ensures SettleAll(b, records).None?
    decreases |records|
  {
    if records[0] != u && SettleOne(b, records[0]).Some? {
      ConflictIsRefused(SettleOne(b, records[0]).value, records[1..], u);
    }
  }
}
