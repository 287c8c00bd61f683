/** What becomes of the Agents' reports: a true report is accepted, and a stopped lease can always be closed. */
module Delivery {
  import opened AgentTypes
  import opened AgentState
  import opened AgentSystem
  import opened AgentRuns
  import opened Sums
  import opened PanelBooks
  import opened PanelOps
  import opened PanelSettlement
  import opened EndToEnd

  // ----- True records fit the books -----

  /** A record of an Agent, seen from the panel's row: it belongs there until the lease is closed. */
  lemma RecordBelongs(terms: Terms, w: World, n: Id, k: UsageId)
    requires WorldInv(terms, w) && n in w.nodes && k in w.nodes[n].history
    ensures var u := w.nodes[n].history[k];
            && WellFormed(u) && GrantedTo(w.books.rows, n, u.lease)
            && (!w.books.rows[u.lease].closed ==> Belongs(w.books.rows, u))
  {
    hide Node, Balanced, Genuine, ClosedIsFinal, Truthful, WellFormed;
    NodeIsCore(terms, w, n);
    assert Signed(n, w.nodes[n]) && Proper(terms, w.books.rows, n, w.nodes[n].history[k]);
  }

  /** A record is settled already or its lease is open. */
  lemma RecordIsWelcome(terms: Terms, w: World, n: Id, k: UsageId)
    requires WorldInv(terms, w) && n in w.nodes && k in w.nodes[n].history
    ensures var u := w.nodes[n].history[k]; WellFormed(u) && (k in w.books.usage || Belongs(w.books.rows, u))
  {
    RecordBelongs(terms, w, n, k);
    hide WorldInv, Belongs, WellFormed;
    var l := w.nodes[n].history[k].lease;
    if w.books.rows[l].closed {
      ClosedIsSettled(terms, w, l, k);
    }
  }

  lemma RecordedWithin(terms: Terms, s: System, l: Id)
    requires Core(terms, s) && 0 < terms(l).bytes
    ensures Recorded(s.history, l) <= terms(l).bytes
  {
    hide PendingOk, Capped, HistoryOk, IssuedOk, MeterOk, WindowsOk, BudgetsOk, AdmittedOk, ForgottenOk, ConfigOk, Recorded;
  }

  /** Nothing that the books would then hold for a lease is more than its holder recorded. */
  lemma MergedIsGenuine(terms: Terms, w: World, n: Id, records: seq<Usage>, l: Id)
    requires WorldInv(terms, w) && n in w.nodes && l in w.books.rows
    requires forall u :: u in records ==> u.id in w.nodes[n].history && w.nodes[n].history[u.id] == u
    ensures w.books.rows[l].node in w.nodes
    ensures var made, after := w.nodes[w.books.rows[l].node].history, Merged(w.books.usage, records);
            forall k :: k in after && after[k].lease == l ==> k in made && made[k] == after[k]
  {
    var m, after := w.books.rows[l].node, Merged(w.books.usage, records);
    assert m in w.nodes;
    forall k | k in after && after[k].lease == l ensures k in w.nodes[m].history && w.nodes[m].history[k] == after[k] {
      MergedIs(w.books.usage, records, k);
      if u :| u in records && u.id == k {
        RecordBelongs(terms, w, n, k);
      } else {
        SettledIsMade(terms, w, k);
      }
    }
  }

  /** A settled record is one of its lease's holder. */
  lemma SettledIsMade(terms: Terms, w: World, k: UsageId)
    requires WorldInv(terms, w) && k in w.books.usage
    ensures var u := w.books.usage[k];
            && u.lease in w.books.rows && w.books.rows[u.lease].node in w.nodes
            && k in w.nodes[w.books.rows[u.lease].node].history && w.nodes[w.books.rows[u.lease].node].history[k] == u
  {
    hide Node, Truthful, RowsNamed, ClosedIsFinal, Conserved, RowsOk, WithinQuota, WithinOutstanding, Recorded;
  }

  lemma MergedIsAffordable(terms: Terms, w: World, n: Id, records: seq<Usage>)
    requires WorldInv(terms, w) && n in w.nodes
    requires forall u :: u in records ==> u.id in w.nodes[n].history && w.nodes[n].history[u.id] == u
    ensures Affordable(w.books.rows, Merged(w.books.usage, records))
  {
    hide WorldInv, Recorded, Core, EndToEnd.Local, Merged;
    forall l | l in w.books.rows ensures Recorded(Merged(w.books.usage, records), l) <= w.books.rows[l].bytes {
      MergedIsGenuine(terms, w, n, records, l);
      RowIsNamed(terms, w, l);
      var m := w.books.rows[l].node;
      NodeIsCore(terms, w, m);
      HistoryIsPositive(terms, w, m);
      PartOfRecords(Merged(w.books.usage, records), w.nodes[m].history, l);
      RecordedWithin(terms, w.nodes[m], l);
    }
  }

  lemma RowIsNamed(terms: Terms, w: World, l: Id)
    requires WorldInv(terms, w) && l in w.books.rows
    ensures 0 < w.books.rows[l].bytes == terms(l).bytes && w.books.rows[l].node in w.nodes
  {
    hide Node, Balanced, Genuine, ClosedIsFinal, Truthful;
  }

  // ----- True reports are accepted -----

  /** An identifier that two Agents drew names two records, and only one of them can be settled. */
  ghost predicate Clashes(b: Books, records: seq<Usage>) {
    exists u :: u in records && u.id in b.usage && b.usage[u.id] != u
  }

  /**
   * Whatever part of its records an Agent reports, and however late, repeated or reordered the report arrives, the
   * panel accepts it, except if another Agent's settled record carries one of the identifiers.
   */
  lemma TrueReportSettles(terms: Terms, w: World, n: Id, records: seq<Usage>)
    requires WorldInv(terms, w) && n in w.nodes
    requires forall u :: u in records ==> u.id in w.nodes[n].history && w.nodes[n].history[u.id] == u
    ensures SettleAll(w.books, records).Some? <==> !Clashes(w.books, records)
  {
    hide WorldInv, Balanced, Belongs, WellFormed, SettleAll, Affordable, Merged;
    BooksBalance(terms, w);
    SettlementAccepts(w.books, records);
    MergedIsAffordable(terms, w, n, records);
    forall u | u in records ensures WellFormed(u) && (u.id in w.books.usage || Belongs(w.books.rows, u)) {
      RecordIsWelcome(terms, w, n, u.id);
    }
  }

  lemma BooksBalance(terms: Terms, w: World)
    requires WorldInv(terms, w)
    ensures Balanced(w.books)
  {
    hide Node, Balanced, Genuine, RowsNamed, ClosedIsFinal, Truthful;
  }

  /** Identifiers are drawn so that no two Agents ever use the same one. */
  ghost predicate Apart(nodes: map<Id, System>) {
    forall m, n, k :: m in nodes && n in nodes && k in nodes[m].history && k in nodes[n].history ==> m == n
  }

  lemma ApartNeverClashes(terms: Terms, w: World, n: Id, records: seq<Usage>)
    requires WorldInv(terms, w) && n in w.nodes && Apart(w.nodes)
    requires forall u :: u in records ==> u.id in w.nodes[n].history && w.nodes[n].history[u.id] == u
    ensures !Clashes(w.books, records)
  {
    forall u | u in records && u.id in w.books.usage ensures w.books.usage[u.id] == u {
      SettledIsMade(terms, w, u.id);
    }
  }

  /** No message on the wire is ever refused, and neither is any selection of the records that still wait. */
  lemma NoReportIsRefused(terms: Terms, w: World, n: Id, records: seq<Usage>)
    requires WorldInv(terms, w) && Apart(w.nodes)
    requires Reported(n, records) in w.net || (n in w.nodes && forall u :: u in records ==> u in w.nodes[n].disk.pending)
    ensures SettleAll(w.books, records).Some?
  {
    if Reported(n, records) in w.net {
      assert Truthful(w.nodes, w.books, Reported(n, records)) by { hide Node, Balanced, Genuine, RowsNamed, ClosedIsFinal; }
    } else {
      UsageIsTrue(terms, w, n, records);
    }
    hide WorldInv, SettleAll, Clashes;
    ApartNeverClashes(terms, w, n, records);
    TrueReportSettles(terms, w, n, records);
  }

  // ----- A stopped lease can be closed -----

  lemma MadeIsMerged(made: map<UsageId, Usage>, usage: map<UsageId, Usage>, waiting: seq<Usage>, k: UsageId)
    requires forall u :: u in waiting ==> u.id in made && made[u.id] == u
    requires k in made && made[k].id == k && (made[k] in waiting || (k in usage && usage[k] == made[k]))
    ensures k in Merged(usage, waiting) && Merged(usage, waiting)[k] == made[k]
  {
    MergedIs(usage, waiting, k);
    if u :| u in waiting && u.id == k {
      assert u == made[k];
    }
  }

  lemma SettledIsPositive(b: Books, records: seq<Usage>)
    requires Balanced(b) && SettleAll(b, records).Some?
    ensures var c := SettleAll(b, records).value;
            c.usage == Merged(b.usage, records) && Balanced(c) && forall k :: k in c.usage ==> 0 <= c.usage[k].Bytes()
  {
    SettleAllFrame(b, records);
    SettleAllKeepsBalance(b, records);
    hide SettleAll, RowsOk, Conserved, WithinQuota, WithinOutstanding;
  }

  /** Once what waits is settled the panel holds exactly the records that the lease's holder made for it. */
  lemma SettledIsComplete(terms: Terms, w: World, n: Id, l: Id)
    requires WorldInv(terms, w) && Apart(w.nodes) && n in w.nodes && GrantedTo(w.books.rows, n, l)
    ensures SettleAll(w.books, w.nodes[n].disk.pending).Some?
    ensures Recorded(SettleAll(w.books, w.nodes[n].disk.pending).value.usage, l) == Recorded(w.nodes[n].history, l)
  {
    hide WorldInv, SettleAll, Recorded, Core, EndToEnd.Local, Balanced, Apart;
    var made, waiting := w.nodes[n].history, w.nodes[n].disk.pending;
    NoReportIsRefused(terms, w, n, waiting);
    UsageIsTrue(terms, w, n, waiting);
    BooksBalance(terms, w);
    SettledIsPositive(w.books, waiting);
    MergedIsGenuine(terms, w, n, waiting, l);
    HistoryIsPositive(terms, w, n);
    RecordsAreKept(terms, w, n);
    forall k | k in made ensures k in Merged(w.books.usage, waiting) && Merged(w.books.usage, waiting)[k] == made[k] {
      MadeIsMerged(made, w.books.usage, waiting, k);
    }
    PartOfRecords(made, Merged(w.books.usage, waiting), l);
    PartOfRecords(Merged(w.books.usage, waiting), made, l);
  }

  lemma RecordsAreKept(terms: Terms, w: World, n: Id)
    requires WorldInv(terms, w) && n in w.nodes
    ensures forall k :: k in w.nodes[n].history ==> w.nodes[n].history[k] in w.nodes[n].disk.pending
                                                    || (k in w.books.usage && w.books.usage[k] == w.nodes[n].history[k])
  {
    NodeIsCore(terms, w, n);
    hide WorldInv, Core;
  }

  /**
   * A lease that its Agent has stopped can always be closed: the panel settles what waits, and then accepts the
   * retirement with the Agent's total.
   */
  lemma StoppedLeaseCloses(terms: Terms, w: World, n: Id, l: Id)
    requires WorldInv(terms, w) && Apart(w.nodes) && n in w.nodes
    requires l in w.nodes[n].disk.retired && l !in w.nodes[n].forgotten
    ensures SettleAll(w.books, w.nodes[n].disk.pending).Some?
    ensures RetireLease(SettleAll(w.books, w.nodes[n].disk.pending).value, n, l, w.nodes[n].disk.Used(l)).Some?
  {
    hide WorldInv, SettleAll, Recorded, Core, EndToEnd.Local, Balanced, Apart, RetireLease;
    var waiting := w.nodes[n].disk.pending;
    StoppedIsGranted(terms, w, n, l);
    SettledIsComplete(terms, w, n, l);
    BooksBalance(terms, w);
    SettledIsPositive(w.books, waiting);
    var c := SettleAll(w.books, waiting).value;
    SettleAllFrame(w.books, waiting);
    RowIsBacked(c, l);
    RetirementIsAccepted(c, n, l, w.nodes[n].disk.Used(l));
  }

  lemma StoppedIsGranted(terms: Terms, w: World, n: Id, l: Id)
    requires WorldInv(terms, w) && n in w.nodes && l in w.nodes[n].disk.retired && l !in w.nodes[n].forgotten
    ensures GrantedTo(w.books.rows, n, l) && w.nodes[n].disk.Used(l) == Recorded(w.nodes[n].history, l)
  {
    NodeIsCore(terms, w, n);
    hide WorldInv, PendingOk, LeasesOk, WindowsOk, BudgetsOk, Capped, ConfigOk, MeterOk, IssuedOk, HistoryOk, ForgottenOk, AdmittedOk, Recorded;
  }

  lemma RowIsBacked(b: Books, l: Id)
    requires Balanced(b) && l in b.rows
    ensures b.rows[l].used == Recorded(b.usage, l)
  {
    hide RowsOk, Conserved, WithinQuota, WithinOutstanding, Recorded;
  }
}
