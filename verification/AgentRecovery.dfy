/** What a crash costs: recovery bills the uncertain remainder of every window, and a stopped lease never moves again. */
module AgentRecovery {
  import opened AgentTypes
  import opened AgentState
  import opened AgentSystem
  import opened AgentRuns
  import opened AgentPlanner
  import opened AgentBatches
  import opened Sums

  // ----- Recovery -----

  /** Close a window as if all of it had been spent. */
  function RecoveryEvent(disk: Disk, w: Window, now: int): Event
    requires w.lease in disk.leases
  {
    var next := w.(confirmed := w.capacity, sequence := w.sequence + 1, closed := true);
    Progress(next, if w.Left() > 0 then Some(ReportOf(disk, next, w.Left(), true, Min(now, w.until))) else None)
  }

  /** Recovery logs one event per window; `ids` is the order in which it visits them. */
  function Recovered(s: System, ids: seq<Id>): System
    decreases |ids|
  {
    if ids == [] || ids[0] !in s.disk.windows || s.disk.windows[ids[0]].lease !in s.disk.leases then s
    else Recovered(Post(s, RecoveryEvent(s.disk, s.disk.windows[ids[0]], s.now)), ids[1..])
  }

  /** The record of a recovered window bills all of its rest, in its direction, up to the restart or its end, and says so. */
  lemma RecoveryRecordIs(disk: Disk, w: Window, now: int)
    requires w.lease in disk.leases
    ensures var e := RecoveryEvent(disk, w, now);
            && e.window == w.(confirmed := w.capacity, sequence := w.sequence + 1, closed := true)
            && (e.usage.Some? <==> w.confirmed < w.capacity)
            && (e.usage.Some? ==>
                  e.usage.value == Usage(Report(w.id, w.sequence + 1), disk.node, w.rule, w.lease, disk.leases[w.lease].entitlement, w.startedAt,
                                         if now < w.until then now else w.until,
                                         if w.upload then w.capacity - w.confirmed else 0, if w.upload then 0 else w.capacity - w.confirmed, true))
  {
  }

  lemma RecoveryIsReady(terms: Terms, s: System, id: Id)
    requires Core(terms, s) && !s.running && id in s.disk.windows
    ensures s.disk.windows[id].lease in s.disk.leases
    ensures Ready(terms, s, RecoveryEvent(s.disk, s.disk.windows[id], s.now))
  {
    hide Core;
    OpenWindow(terms, s, id);
  }

  lemma RecoveryMoves(s: System, id: Id, l: Id)
    requires id in s.disk.windows && s.disk.windows[id].id == id && s.disk.windows[id].lease in s.disk.leases
    requires 0 <= s.disk.windows[id].Left()
    ensures var t := Post(s, RecoveryEvent(s.disk, s.disk.windows[id], s.now));
            && t.disk.windows == s.disk.windows - {id}
            && t.disk.Used(l) == s.disk.Used(l) + Weight(OfLease(l), s.disk.windows[id])
            && t.disk.Liability(l) == s.disk.Liability(l) - Weight(OfLease(l), s.disk.windows[id])
            && t.admitted == s.admitted && t.forgotten == s.forgotten && t.running == s.running && t.now == s.now
            && t.disk.leases == s.disk.leases
  {
    HeldDrop(s.disk.windows, OfLease(l), id);
    hide Held;
  }

  /**
   * Recovery never fails, closes every window, and leaves each lease billed for exactly what it had been billed
   * plus what its windows could still have spent.
   */
  lemma {:induction false} RecoverySettles(terms: Terms, s: System, ids: seq<Id>, l: Id)
    requires Core(terms, s) && !s.running && Lists(s.disk.windows, ids)
    ensures var t := Recovered(s, ids);
            && Core(terms, t) && t.disk.windows == map[]
            && t.disk.Used(l) == s.disk.Used(l) + s.disk.Liability(l)
            && t.admitted == s.admitted && t.forgotten == s.forgotten && t.disk.leases == s.disk.leases
    decreases |ids|
  {
    hide Core, Ready, Post, RecoveryEvent, Lists;
    if ids == [] {
      NothingListed(s.disk.windows, l);
    } else {
      var id := ids[0];
      FirstListed(s.disk.windows, ids);
      OpenWindow(terms, s, id);
      RecoveryIsReady(terms, s, id);
      RecoveryMoves(s, id, l);
      var t := Post(s, RecoveryEvent(s.disk, s.disk.windows[id], s.now));
      PostKeepsCore(terms, s, RecoveryEvent(s.disk, s.disk.windows[id], s.now));
      ListsTail(s.disk.windows, ids);
      RecoverySettles(terms, t, ids[1..], l);
    }
  }

  lemma NothingListed(windows: map<Id, Window>, l: Id)
    requires Lists(windows, [])
    ensures windows == map[] && Held(windows, OfLease(l)) == 0
  {
    SumUnfolds(windows, By(OfLease(l)));
  }

  lemma FirstListed(windows: map<Id, Window>, ids: seq<Id>)
    requires Lists(windows, ids) && ids != []
    ensures ids[0] in windows
  {
    assert ids[0] in ids;
  }

  lemma ListsTail(windows: map<Id, Window>, ids: seq<Id>)
    requires Lists(windows, ids) && ids != []
    ensures Lists(windows - {ids[0]}, ids[1..])
  {
    forall id ensures id in ids[1..] <==> id in windows - {ids[0]} {
      if id in windows && id != ids[0] {
        assert id in ids;
      }
    }
  }

  /** After any crash and the recovery that follows, no admitted byte is unbilled and no lease is overspent. */
  lemma CrashNeverUnderbills(terms: Terms, s: System, k: int, ids: seq<Id>, l: Id)
    requires Safe(terms, s) && 0 <= k <= |s.inflight| && 0 < terms(l).bytes
    requires Lists(PostAll(s, s.inflight[..k]).disk.windows, ids)
    ensures var crashed := PostAll(s, s.inflight[..k]).(inflight := [], running := false);
            var t := Recovered(crashed, ids);
            && Crashes(s, crashed) && Snapshot(crashed.disk) && t.disk.windows == map[]
            && (l !in t.forgotten ==> Spent(crashed.admitted, l) <= t.disk.Used(l) <= terms(l).bytes)
  {
    hide Staged, PostAll, Recovered, Lists;
    var u := PostAll(s, s.inflight[..k]);
    var crashed := u.(inflight := [], running := false);
    PostAllKeepsCore(terms, s, s.inflight, k);
    CoreIgnores(terms, u, crashed);
    InvIsAccepted(terms, crashed.disk);
    hide Core, Snapshot;
    RecoverySettles(terms, crashed, ids, l);
    LeaseIsCovered(terms, crashed, l);
  }

  // ----- The price of uncertainty -----

  ghost function SpareBy(q: Measure): Live -> int {
    (c: Live) => Weight(q, c.window.(confirmed := c.used))
  }

  /** Bytes that open windows hold and nobody has spent. */
  ghost function Spare(meter: map<Id, Live>, q: Measure): int {
    Sum(meter, SpareBy(q))
  }

  ghost function SpentBy(q: Measure): Live -> int {
    (c: Live) => Weight(q, c.window) - Weight(q, c.window.(confirmed := c.used))
  }

  /** What the open windows of a rule or an owner hold is what was spent from them and a bounded rest. */
  lemma SpareIsBounded(terms: Terms, s: System, q: Measure)
    requires Core(terms, s) && (q.OfRule? || q.OfOwner?)
    ensures Held(s.disk.windows, q) == Sum(s.meter, SpentBy(q)) + Spare(s.meter, q)
    ensures 0 <= Spare(s.meter, q) <= if q.OfRule? then TCP_RULE_CREDITS else ACCOUNT_CREDITS
  {
    hide PendingOk, LeasesOk, BudgetsOk, ConfigOk, IssuedOk, HistoryOk, BilledOk, ForgottenOk, AdmittedOk, WindowsOk;
    assert Held(s.disk.windows, q) <= Cap(q);
    SumNonNegative(s.meter, SpareBy(q));
    SumMonotone(s.meter, SpareBy(q), s.disk.windows, By(q));
    SumSplit(s.disk.windows, By(q), s.meter, SpentBy(q), SpareBy(q));
  }

  // ----- What recovery bills -----

  predicate Counts(q: Measure, w: Window) {
    match q
    case OfRule(r) => w.rule == r
    case OfOwner(o) => w.owner == o
    case OfLease(l) => w.lease == l
    case _ => false
  }

  /** The bytes of a report on one of these windows, if the window belongs to what is measured. */
  ghost function BillOn(windows: map<Id, Window>, q: Measure): Usage -> int {
    (u: Usage) => if u.id.Report? && u.id.window in windows && Counts(q, windows[u.id.window]) then u.Bytes() else 0
  }

  /** What the records made between two states bill on the given windows. */
  ghost function Bill(before: map<UsageId, Usage>, after: map<UsageId, Usage>, windows: map<Id, Window>, q: Measure): int {
    Sum(after - before.Keys, BillOn(windows, q))
  }

  ghost predicate KeepsRecords(before: map<UsageId, Usage>, after: map<UsageId, Usage>) {
    forall k :: k in before ==> k in after && after[k] == before[k]
  }

  lemma OneMoreBill(before: map<UsageId, Usage>, after: map<UsageId, Usage>, u: Usage, windows: map<Id, Window>, q: Measure)
    requires u.id !in before && KeepsRecords(before[u.id := u], after)
    ensures KeepsRecords(before, after)
    ensures Bill(before, after, windows, q) == Bill(before[u.id := u], after, windows, q) + BillOn(windows, q)(u)
  {
    var rest := after - before[u.id := u].Keys;
    assert after[u.id] == u;
    assert after - before.Keys == rest[u.id := u];
    SumPut(rest, BillOn(windows, q), u.id, u);
  }

  lemma RecoveryRecord(s: System, w: Window, windows: map<Id, Window>, q: Measure)
    requires w.id in windows && windows[w.id] == w && w.lease in s.disk.leases && WindowShape(w)
    requires Report(w.id, w.sequence + 1) !in s.history && (q.OfRule? || q.OfOwner? || q.OfLease?)
    ensures var e := RecoveryEvent(s.disk, w, s.now);
            && e.Progress?
            && Post(s, e).history == (if e.usage.Some? then s.history[e.usage.value.id := e.usage.value] else s.history)
            && (e.usage.Some? ==> e.usage.value.id !in s.history && e.usage.value.recovery
                                  && BillOn(windows, q)(e.usage.value) == Weight(q, w))
            && (e.usage.None? ==> Weight(q, w) == 0)
  {
  }

  lemma FreshReport(terms: Terms, s: System, w: Window)
    requires Core(terms, s) && w.id in s.disk.windows && s.disk.windows[w.id] == w
    ensures Report(w.id, w.sequence + 1) !in s.history
  {
    hide Inv, MeterOk, BilledOk, ForgottenOk, AdmittedOk;
    ReportIsNew(s.disk.pending, s.disk.windows, s.history, s.issued, w.(sequence := w.sequence + 1));
  }

  /** The records that recovery makes bill every rule, owner and lease exactly what its open windows held. */
  lemma {:induction false} RecoveryBills(terms: Terms, s: System, ids: seq<Id>, windows: map<Id, Window>, q: Measure)
    requires Core(terms, s) && !s.running && Lists(s.disk.windows, ids) && (q.OfRule? || q.OfOwner? || q.OfLease?)
    requires forall id :: id in s.disk.windows ==> id in windows && windows[id] == s.disk.windows[id]
    ensures var t := Recovered(s, ids);
            && KeepsRecords(s.history, t.history) && Bill(s.history, t.history, windows, q) == Held(s.disk.windows, q)
            && forall k :: k in t.history && k !in s.history ==> t.history[k].recovery
    decreases |ids|
  {
    hide Core, Ready, Post, RecoveryEvent, Lists, Held, Bill, Counts;
    if ids == [] {
      NothingBilled(s, windows, q);
    } else {
      var id := ids[0];
      FirstListed(s.disk.windows, ids);
      OpenWindow(terms, s, id);
      RecoveryIsReady(terms, s, id);
      RecoveryMoves(s, id, id);
      FreshReport(terms, s, s.disk.windows[id]);
      RecoveryRecord(s, s.disk.windows[id], windows, q);
      var e := RecoveryEvent(s.disk, s.disk.windows[id], s.now);
      PostKeepsCore(terms, s, e);
      ListsTail(s.disk.windows, ids);
      HeldDrop(s.disk.windows, q, id);
      RecoveryBills(terms, Post(s, e), ids[1..], windows, q);
      if e.usage.Some? {
        OneMoreBill(s.history, Recovered(s, ids).history, e.usage.value, windows, q);
      }
    }
  }

  lemma NothingBilled(s: System, windows: map<Id, Window>, q: Measure)
    requires Lists(s.disk.windows, [])
    ensures KeepsRecords(s.history, s.history) && Bill(s.history, s.history, windows, q) == 0 && Held(s.disk.windows, q) == 0
  {
    assert s.history - s.history.Keys == map[];
    SumUnfolds(s.history - s.history.Keys, BillOn(windows, q));
    assert s.disk.windows == map[];
    SumUnfolds(s.disk.windows, By(q));
  }

  /**
   * The price of not knowing. After a crash with any prefix of the batch on disk, recovery bills a rule or an owner what
   * was really spent from its open windows and at most 4 MiB per rule, 8 MiB per owner, beyond it.
   */
  lemma RecoveryExcess(terms: Terms, s: System, k: int, ids: seq<Id>, q: Measure)
    requires Safe(terms, s) && 0 <= k <= |s.inflight| && (q.OfRule? || q.OfOwner?)
    requires Lists(PostAll(s, s.inflight[..k]).disk.windows, ids)
    ensures var crashed := PostAll(s, s.inflight[..k]).(inflight := [], running := false);
            var bill := Bill(crashed.history, Recovered(crashed, ids).history, crashed.disk.windows, q);
            && Crashes(s, crashed) && bill == Held(crashed.disk.windows, q)
            && 0 <= bill - Sum(crashed.meter, SpentBy(q)) <= (if q.OfRule? then TCP_RULE_CREDITS else ACCOUNT_CREDITS)
  {
    hide Staged, PostAll, Recovered, Lists, Held, Bill, Spare;
    var u := PostAll(s, s.inflight[..k]);
    var crashed := u.(inflight := [], running := false);
    PostAllKeepsCore(terms, s, s.inflight, k);
    CoreIgnores(terms, u, crashed);
    hide Core;
    RecoveryBills(terms, crashed, ids, crashed.disk.windows, q);
    SpareIsBounded(terms, crashed, q);
  }

  // ----- Stopped leases -----

  /** A lease that the writer will never spend from again. */
  ghost predicate Stopped(s: System, l: Id) {
    l in s.disk.retired || l in s.forgotten
  }

  lemma PostKeepsStopped(terms: Terms, s: System, e: Event, l: Id)
    requires Core(terms, s) && Ready(terms, s, e) && Stopped(s, l)
    ensures Stopped(Post(s, e), l)
    ensures Recorded(Post(s, e).history, l) == Recorded(s.history, l)
    ensures Spent(Post(s, e).admitted, l) == Spent(s.admitted, l)
  {
    hide PendingOk, LeasesOk, BudgetsOk, ConfigOk, Capped, BilledOk, AdmittedOk, MeterOk, Recorded;
    match e
    case Progress(w, u) =>
      if u.Some? {
        assert WindowOk(s.disk.leases, s.disk.retired.Keys, w.id, s.disk.windows[w.id]);
        ReportIsNew(s.disk.pending, s.disk.windows, s.history, s.issued, w);
        RecordedPut(s.history, u.value, l);
      }
    case Charge(u, _) => RecordedPut(s.history, u, l);
    case _ =>
  }

  lemma {:induction false} PostAllKeepsStopped(terms: Terms, s: System, events: seq<Event>, k: int, l: Id)
    requires Core(terms, s) && Staged(terms, s, events) && 0 <= k <= |events| && Stopped(s, l)
    ensures var t := PostAll(s, events[..k]);
            Stopped(t, l) && Recorded(t.history, l) == Recorded(s.history, l) && Spent(t.admitted, l) == Spent(s.admitted, l)
    decreases |events|
  {
    hide Core, Ready, Post, Recorded, Stopped;
    if k > 0 {
      PostKeepsCore(terms, s, events[0]);
      PostKeepsStopped(terms, s, events[0], l);
      PostAllKeepsStopped(terms, Post(s, events[0]), events[1..], k - 1, l);
      assert events[..k][1..] == events[1..][..k - 1];
    }
  }

  /** No step of any kind, not even a crash, moves what was billed or admitted on a stopped lease. */
  lemma StoppedIsFinal(terms: Terms, s: System, t: System, l: Id)
    requires Safe(terms, s) && Next(terms, s, t) && Stopped(s, l)
    ensures Stopped(t, l)
    ensures Recorded(t.history, l) == Recorded(s.history, l)
    ensures Spent(t.admitted, l) == Spent(s.admitted, l)
  {
    hide Ready, Post, Recorded, Core, Froze, PostAll, Prune, Prunable;
    if Crashes(s, t) {
      var k :| 0 <= k <= |s.inflight| && t == PostAll(s, s.inflight[..k]).(inflight := [], running := false);
      PostAllKeepsStopped(terms, s, s.inflight, k, l);
    } else if AppliesOne(s, t) {
      PostKeepsStopped(terms, s, s.inflight[0], l);
    } else if Forgets(s, t) {
      ForgetKeepsStopped(s, t, l);
    } else if exists id, n :: CanSpend(s, id, n) && t == Spend(s, id, n) {
      var id, n :| CanSpend(s, id, n) && t == Spend(s, id, n);
      SpendIsOnLive(terms, s, id, l);
    }
  }

  lemma ForgetKeepsStopped(s: System, t: System, l: Id)
    requires Forgets(s, t) && Stopped(s, l)
    ensures Stopped(t, l)
  {
  }

  lemma SpendIsOnLive(terms: Terms, s: System, id: Id, l: Id)
    requires Core(terms, s) && id in s.meter && Stopped(s, l)
    ensures s.meter[id].window.lease != l
  {
    hide PendingOk, LeasesOk, BudgetsOk, ConfigOk, Capped, BilledOk, AdmittedOk, IssuedOk, HistoryOk;
    assert WindowOk(s.disk.leases, s.disk.retired.Keys, id, s.disk.windows[id]);
  }
}
