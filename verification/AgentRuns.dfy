/** Whole runs of an Agent: every interleaving of the fast path, the writer, crashes and restarts. */
module AgentRuns {
  import opened AgentTypes
  import opened AgentState
  import opened AgentSystem
  import opened Sums

  // ----- The steps -----

  /** The fast path may spend from a window that is open, current and not frozen. */
  ghost predicate CanSpend(s: System, id: Id, n: int) {
    && s.running && id in s.meter && !s.meter[id].closed && s.now < s.meter[id].window.until
    && 0 < n <= s.meter[id].window.capacity - s.meter[id].used
  }

  ghost function Debited(meter: map<Id, Live>, id: Id, n: int, now: int): map<Id, Live>
    requires id in meter
  {
    meter[id := meter[id].(used := meter[id].used + n, last := now)]
  }

  ghost function Spend(s: System, id: Id, n: int): System
    requires id in s.meter
  {
    s.(meter := Debited(s.meter, id, n, s.now), admitted := Billed(s.admitted, s.meter[id].window.lease, n))
  }

  /** Freezing stops the fast path; it never changes what was spent. */
  ghost predicate Froze(before: map<Id, Live>, after: map<Id, Live>) {
    && before.Keys == after.Keys
    && forall id :: id in before ==>
         after[id] == before[id].(closed := after[id].closed) && (before[id].closed ==> after[id].closed)
  }

  /** The writer freezes what it is about to close and hands a batch to the log. */
  ghost predicate Stages(terms: Terms, s: System, t: System) {
    && s.inflight == []
    && t == s.(meter := t.meter, inflight := t.inflight)
    && Froze(s.meter, t.meter)
    && Staged(terms, t, t.inflight)
  }

  ghost predicate AppliesOne(s: System, t: System) {
    s.inflight != [] && t == Post(s, s.inflight[0]).(inflight := s.inflight[1..])
  }

  /** Some prefix of the batch reached the disk; memory is gone. */
  ghost predicate Crashes(s: System, t: System) {
    exists k :: 0 <= k <= |s.inflight| && t == PostAll(s, s.inflight[..k]).(inflight := [], running := false)
  }

  ghost predicate Restarts(s: System, t: System) {
    !s.running && s.inflight == [] && s.disk.windows == map[] && t == s.(running := true)
  }

  ghost predicate Forgets(s: System, t: System) {
    && s.inflight == []
    && t == s.(disk := Prune(s.disk, s.now), forgotten := s.forgotten + Prunable(s.disk, s.now))
  }

  ghost predicate Next(terms: Terms, s: System, t: System) {
    || (exists id, n :: CanSpend(s, id, n) && t == Spend(s, id, n))
    || Stages(terms, s, t)
    || AppliesOne(s, t)
    || Crashes(s, t)
    || Restarts(s, t)
    || Forgets(s, t)
    || (s.now <= t.now && t == s.(now := t.now))
  }

  ghost predicate Init(s: System) {
    && s.disk == Disk(s.disk.node, Config(false, [], 0), map[], [], map[], map[], map[])
    && s.meter == map[] && s.running && s.inflight == [] && s.admitted == map[]
    && s.issued == {} && s.history == map[] && s.forgotten == {}
  }

  // ----- Spending -----

  lemma SpendKeepsMeter(windows: map<Id, Window>, meter: map<Id, Live>, now: int, id: Id, n: int)
    requires MeterOk(windows, meter, now) && id in meter && 0 < n <= meter[id].window.capacity - meter[id].used
    ensures MeterOk(windows, Debited(meter, id, n, now), now)
  {
  }

  lemma SpendKeepsAdmitted(admitted: map<Id, int>, history: map<UsageId, Usage>, meter: map<Id, Live>, now: int, id: Id, n: int)
    requires AdmittedOk(admitted, history, meter) && id in meter
    ensures AdmittedOk(Billed(admitted, meter[id].window.lease, n), history, Debited(meter, id, n, now))
  {
    var c := meter[id].(used := meter[id].used + n, last := now);
    forall l
      ensures Spent(Billed(admitted, meter[id].window.lease, n), l)
           <= Recorded(history, l) + Unsettled(meter[id := c], l)
    {
      UnsettledPut(meter, id, c, l);
    }
  }

  lemma SpendKeepsCore(terms: Terms, s: System, id: Id, n: int)
    requires Core(terms, s) && CanSpend(s, id, n)
    ensures Core(terms, Spend(s, id, n))
  {
    hide Inv, MeterOk, IssuedOk, HistoryOk, BilledOk, ForgottenOk, AdmittedOk;
    SpendKeepsMeter(s.disk.windows, s.meter, s.now, id, n);
    SpendKeepsAdmitted(s.admitted, s.history, s.meter, s.now, id, n);
  }

  lemma AdmittedCommutes(m: map<Id, int>, l: Id, n: int, e: Event)
    ensures AdmittedAfter(Billed(m, l, n), e) == Billed(AdmittedAfter(m, e), l, n)
  {
  }

  /** What spending needs to know about an event that is ready. */
  lemma MeterContinues(terms: Terms, s: System, id: Id, e: Event)
    requires Core(terms, s) && Ready(terms, s, e) && s.running && id in s.meter && !s.meter[id].closed
    ensures LeavesOpen(s.meter[id], id, e)
  {
    hide Inv, HistoryOk, BilledOk, ForgottenOk, AdmittedOk, ValidReserve;
  }

  lemma MeterCommutes(meter: map<Id, Live>, id: Id, n: int, now: int, e: Event)
    requires id in meter && LeavesOpen(meter[id], id, e)
    ensures id in MeterAfter(meter, e)
    ensures MeterAfter(Debited(meter, id, n, now), e) == Debited(MeterAfter(meter, e), id, n, now)
    ensures var c := MeterAfter(meter, e)[id];
            && c.used == meter[id].used && c.closed == meter[id].closed && c.window.lease == meter[id].window.lease
            && c.window.capacity == meter[id].window.capacity && c.window.until == meter[id].window.until
  {
  }

  lemma SpendKeepsReady(terms: Terms, s: System, id: Id, n: int, e: Event)
    requires CanSpend(s, id, n) && Ready(terms, s, e)
    ensures Ready(terms, Spend(s, id, n), e)
  {
    hide Valid;
  }

  /** An event that neither opens nor closes window `id`. */
  ghost predicate LeavesOpen(c: Live, id: Id, e: Event) {
    && (e.Reserve? ==> e.window.id != id)
    && (e.Progress? && e.window.id == id ==> !e.window.closed && Continues(c.window, e.window))
  }

  lemma PostSpend(s: System, id: Id, n: int, e: Event)
    requires CanSpend(s, id, n) && LeavesOpen(s.meter[id], id, e)
    ensures id in Post(s, e).meter && CanSpend(Post(s, e), id, n)
    ensures Post(Spend(s, id, n), e) == Spend(Post(s, e), id, n)
  {
    hide MeterAfter, Debited, Apply, HistoryAfter, AdmittedAfter, Billed;
    MeterCommutes(s.meter, id, n, s.now, e);
    AdmittedCommutes(s.admitted, s.meter[id].window.lease, n, e);
  }

  /** A debit commutes with any staged event: closing events have frozen their window already. */
  lemma SpendCommutes(terms: Terms, s: System, id: Id, n: int, e: Event)
    requires Core(terms, s) && CanSpend(s, id, n) && Ready(terms, s, e)
    ensures id in Post(s, e).meter && CanSpend(Post(s, e), id, n)
    ensures Post(Spend(s, id, n), e) == Spend(Post(s, e), id, n)
  {
    hide Core, Ready, Post, Spend;
    MeterContinues(terms, s, id, e);
    PostSpend(s, id, n, e);
  }

  lemma {:induction false} SpendKeepsStaged(terms: Terms, s: System, id: Id, n: int, events: seq<Event>)
    requires Core(terms, s) && CanSpend(s, id, n) && Staged(terms, s, events)
    ensures Staged(terms, Spend(s, id, n), events)
    decreases |events|
  {
    hide Core, Ready, CanSpend, Post;
    if events != [] {
      SpendKeepsReady(terms, s, id, n, events[0]);
      SpendCommutes(terms, s, id, n, events[0]);
      PostKeepsCore(terms, s, events[0]);
      SpendKeepsStaged(terms, Post(s, events[0]), id, n, events[1..]);
    }
  }

  // ----- Time -----

  lemma {:induction false} TimeKeepsStaged(terms: Terms, s: System, now: int, events: seq<Event>)
    requires s.now <= now && Staged(terms, s, events)
    ensures Staged(terms, s.(now := now), events)
    decreases |events|
  {
    if events != [] {
      assert Ready(terms, s.(now := now), events[0]);
      assert Post(s.(now := now), events[0]) == Post(s, events[0]).(now := now);
      hide Ready, Post;
      TimeKeepsStaged(terms, Post(s, events[0]), now, events[1..]);
    }
  }

  lemma TimeKeepsCore(terms: Terms, s: System, now: int)
    requires Core(terms, s) && s.now <= now
    ensures Core(terms, s.(now := now))
  {
    hide Inv, IssuedOk, HistoryOk, BilledOk, AdmittedOk;
  }

  // ----- The batch -----

  lemma {:induction false} PostAllKeepsCore(terms: Terms, s: System, events: seq<Event>, k: int)
    requires Core(terms, s) && Staged(terms, s, events) && 0 <= k <= |events|
    ensures Core(terms, PostAll(s, events[..k]))
    decreases |events|
  {
    hide Core, Ready, Post;
    if k > 0 {
      PostKeepsCore(terms, s, events[0]);
      PostAllKeepsCore(terms, Post(s, events[0]), events[1..], k - 1);
      assert events[..k][1..] == events[1..][..k - 1];
    }
  }

  lemma {:induction false} StagedIgnoresBatch(terms: Terms, s: System, batch: seq<Event>, events: seq<Event>)
    requires Staged(terms, s, events)
    ensures Staged(terms, s.(inflight := batch), events)
    decreases |events|
  {
    if events != [] {
      assert Post(s.(inflight := batch), events[0]) == Post(s, events[0]).(inflight := batch);
      assert Ready(terms, s.(inflight := batch), events[0]);
      hide Ready, Post;
      StagedIgnoresBatch(terms, Post(s, events[0]), batch, events[1..]);
    }
  }

  lemma FreezeKeepsCore(terms: Terms, s: System, t: System)
    requires Core(terms, s) && Froze(s.meter, t.meter) && t == s.(meter := t.meter, inflight := t.inflight)
    ensures Core(terms, t)
  {
    hide Inv, IssuedOk, HistoryOk, BilledOk, ForgottenOk;
    forall l ensures Unsettled(s.meter, l) <= Unsettled(t.meter, l) {
      SumMonotone(s.meter, OnLease(l), t.meter, OnLease(l));
    }
  }

  // ----- Forgetting -----

  lemma ForgetBilled(terms: Terms, disk: Disk, history: map<UsageId, Usage>, forgotten: set<Id>, gone: set<Id>)
    requires LeasesOk(disk.leases, disk.used) && Agrees(terms, disk.leases) && gone <= disk.leases.Keys
    requires BilledOk(terms, disk.used, history, forgotten)
    ensures BilledOk(terms, disk.used - gone, history, forgotten + gone)
  {
  }

  lemma PrunableHasExpired(terms: Terms, disk: Disk, now: int)
    requires Inv(terms, disk)
    ensures var gone := Prunable(disk, now);
            && LeasesOk(disk.leases, disk.used) && Agrees(terms, disk.leases) && gone <= disk.leases.Keys
            && forall l :: l in gone ==> terms(l).expiresAt <= now
  {
    hide LeasesOk, PendingOk, BudgetsOk, Capped, WindowsOk, ConfigOk, LeasesOf, NoWindowOn;
  }

  lemma ForgetForgotten(terms: Terms, disk: Disk, forgotten: set<Id>, now: int)
    requires ForgottenOk(terms, disk.windows, forgotten, now)
    requires forall l :: l in Prunable(disk, now) ==> terms(l).expiresAt <= now
    ensures ForgottenOk(terms, disk.windows, forgotten + Prunable(disk, now), now)
  {
    PrunableIsUnreferenced(disk, now);
    hide Prunable;
  }

  lemma ForgetKeepsCore(terms: Terms, s: System)
    requires Core(terms, s)
    ensures Core(terms, s.(disk := Prune(s.disk, s.now), forgotten := s.forgotten + Prunable(s.disk, s.now)))
  {
    hide Inv, IssuedOk, HistoryOk, BilledOk, AdmittedOk, MeterOk, ForgottenOk, Prunable;
    var gone := Prunable(s.disk, s.now);
    PruneKeepsInv(terms, s.disk, s.now);
    PrunableHasExpired(terms, s.disk, s.now);
    ForgetBilled(terms, s.disk, s.history, s.forgotten, gone);
    ForgetForgotten(terms, s.disk, s.forgotten, s.now);
  }

  // ----- Every step, every run -----

  lemma InitIsSafe(terms: Terms, s: System)
    requires Init(s)
    ensures Safe(terms, s)
  {
    forall q: Measure ensures Held(s.disk.windows, q) == 0 {
      SumUnfolds(s.disk.windows, By(q));
    }
    forall l ensures Recorded(s.history, l) == 0 && Unsettled(s.meter, l) == 0 {
      SumUnfolds(s.history, OfRecords(l));
      SumUnfolds(s.meter, OnLease(l));
    }
    hide Held, Recorded, Unsettled;
    assert Inv(terms, s.disk);
  }

  lemma NextKeepsSafe(terms: Terms, s: System, t: System)
    requires Safe(terms, s) && Next(terms, s, t)
    ensures Safe(terms, t)
  {
    hide Core, Ready, Post;
    if s.now <= t.now && t == s.(now := t.now) {
      TimeKeepsCore(terms, s, t.now);
      TimeKeepsStaged(terms, s, t.now, s.inflight);
    } else if Stages(terms, s, t) {
      FreezeKeepsCore(terms, s, t);
    } else if AppliesOne(s, t) {
      var next := Post(s, s.inflight[0]);
      PostKeepsCore(terms, s, s.inflight[0]);
      CoreIgnores(terms, next, t);
      StagedIgnoresBatch(terms, next, t.inflight, t.inflight);
    } else if Crashes(s, t) {
      var k :| 0 <= k <= |s.inflight| && t == PostAll(s, s.inflight[..k]).(inflight := [], running := false);
      PostAllKeepsCore(terms, s, s.inflight, k);
      CoreIgnores(terms, PostAll(s, s.inflight[..k]), t);
    } else if Restarts(s, t) {
      CoreIgnores(terms, s, t);
    } else if Forgets(s, t) {
      ForgetKeepsCore(terms, s);
    } else {
      var id, n :| CanSpend(s, id, n) && t == Spend(s, id, n);
      SpendKeepsCore(terms, s, id, n);
      SpendKeepsStaged(terms, s, id, n, s.inflight);
    }
  }

  lemma CoreIgnores(terms: Terms, s: System, t: System)
    requires Core(terms, s) && t == s.(inflight := t.inflight, running := t.running)
    ensures Core(terms, t)
  {
  }

  // ----- What a reader may rely on in every reachable state -----

  ghost predicate Steps(terms: Terms, trace: seq<System>) {
    trace != [] && forall i :: 0 <= i < |trace| - 1 ==> Next(terms, trace[i], trace[i + 1])
  }

  ghost predicate Run(terms: Terms, trace: seq<System>) {
    Steps(terms, trace) && Init(trace[0])
  }

  lemma {:induction false} StepsAreSafe(terms: Terms, trace: seq<System>)
    requires Steps(terms, trace) && Safe(terms, trace[0])
    ensures Safe(terms, trace[|trace| - 1])
    decreases |trace|
  {
    hide Safe, Next;
    var last := |trace| - 1;
    if last > 0 {
      var before := trace[..last];
      forall i | 0 <= i < |before| - 1 ensures Next(terms, before[i], before[i + 1]) {
        assert before[i] == trace[i] && before[i + 1] == trace[i + 1];
      }
      StepsAreSafe(terms, before);
      NextKeepsSafe(terms, trace[last - 1], trace[last]);
    }
  }

  lemma RunIsSafe(terms: Terms, trace: seq<System>)
    requires Run(terms, trace)
    ensures Safe(terms, trace[|trace| - 1])
  {
    hide Safe, Next, Init;
    InitIsSafe(terms, trace[0]);
    StepsAreSafe(terms, trace);
  }

  lemma UnsettledBounded(windows: map<Id, Window>, meter: map<Id, Live>, now: int, l: Id)
    requires MeterOk(windows, meter, now)
    ensures 0 <= Unsettled(meter, l) <= Held(windows, OfLease(l))
  {
    SumNonNegative(meter, OnLease(l));
    SumMonotone(meter, OnLease(l), windows, By(OfLease(l)));
  }

  /**
   * Over every run, including crashes: what was admitted on a lease is covered by what is billed or metered,
   * that is covered by what the open windows may still cost, and all of it fits the lease.
   */
  lemma AdmissionIsCovered(terms: Terms, trace: seq<System>, l: Id)
    requires Run(terms, trace) && 0 < terms(l).bytes
    ensures var s := trace[|trace| - 1];
            && Spent(s.admitted, l) <= terms(l).bytes
            && (l !in s.forgotten ==>
                  && Spent(s.admitted, l) <= s.disk.Used(l) + Unsettled(s.meter, l)
                  && Unsettled(s.meter, l) <= s.disk.Liability(l)
                  && s.disk.Used(l) + s.disk.Liability(l) <= terms(l).bytes)
  {
    RunIsSafe(terms, trace);
    LeaseIsCovered(terms, trace[|trace| - 1], l);
  }

  lemma LeaseIsCovered(terms: Terms, s: System, l: Id)
    requires Core(terms, s) && 0 < terms(l).bytes
    ensures Spent(s.admitted, l) <= terms(l).bytes
    ensures l !in s.forgotten ==>
              && Spent(s.admitted, l) <= s.disk.Used(l) + Unsettled(s.meter, l)
              && Unsettled(s.meter, l) <= s.disk.Liability(l)
              && s.disk.Used(l) + s.disk.Liability(l) <= terms(l).bytes
  {
    hide PendingOk, Capped, HistoryOk, IssuedOk;
    UnsettledBounded(s.disk.windows, s.meter, s.now, l);
    if l !in s.disk.leases || l in s.forgotten {
      NoneHeld(s.disk.windows, l);
    }
  }
}
