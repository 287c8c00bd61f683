/** What the writer's batches amount to, field by field. */
module AgentOutcomes {
  import opened AgentTypes
  import opened AgentState
  import opened AgentSystem
  import opened AgentRuns
  import opened AgentPlanner
  import opened AgentBatches
  import opened AgentSettling

  // ----- Names in a configuration -----

  /** Some rule of the configuration names the lease. */
  ghost predicate Names(c: Config, l: Id) {
    exists r, x :: r in c.rules && x in r.Leases() && x.id == l
  }

  /** Some enabled rule names the lease. */
  ghost predicate Uses(c: Config, l: Id) {
    exists r, x :: r in c.rules && r.enabled && x in r.Leases() && x.id == l
  }

  lemma {:induction false} LeasesMean(rules: seq<Rule>, x: Lease)
    ensures x in LeasesOf(rules) <==> exists r :: r in rules && x in r.Leases()
    ensures x in LeasesOf(EnabledRules(rules)) <==> exists r :: r in rules && r.enabled && x in r.Leases()
    ensures x in LeasesOf(FundedRules(rules)) <==> exists r :: r in rules && r.enabled && r.lease.Some? && x in r.Leases()
  {
    if rules != [] {
      var r, rest := rules[0], rules[1..];
      LeasesMean(rest, x);
      LeasesCons(r, rest);
      LeasesCons(r, EnabledRules(rest));
      LeasesCons(r, FundedRules(rest));
      assert [r] + rest == rules && [] + EnabledRules(rest) == EnabledRules(rest) && [] + FundedRules(rest) == FundedRules(rest);
      assert forall o :: o in rules <==> o == r || o in rest;
    }
  }

  lemma NamesMean(c: Config, l: Id)
    ensures l in Ids(LeasesOf(c.rules)) <==> Names(c, l)
    ensures l in Active(c) <==> Uses(c, l)
  {
    forall x ensures x in LeasesOf(c.rules) <==> exists r :: r in c.rules && x in r.Leases()
             ensures x in LeasesOf(EnabledRules(c.rules)) <==> exists r :: r in c.rules && r.enabled && x in r.Leases()
    {
      LeasesMean(c.rules, x);
    }
    hide LeasesOf, EnabledRules;
  }

  /**
   * A configuration is accepted if and only if no funded rule names a known lease on other terms and the registry has
   * room for the leases of the funded rules.
   */
  lemma ConfigIsValidIff(s: Disk, c: Config)
    ensures ValidConfig(s, c) <==>
              && (forall r, x :: r in c.rules && r.enabled && r.lease.Some? && x in r.Leases() && x.id in s.leases ==> s.leases[x.id] == x)
              && |s.leases.Keys + set r, x | r in c.rules && r.enabled && r.lease.Some? && x in r.Leases() :: x.id| <= MAX_LEASES
  {
    hide LeasesOf, FundedRules, Ids;
    FundedIds(c);
    forall x ensures x in LeasesOf(FundedRules(c.rules)) <==> exists r :: r in c.rules && r.enabled && r.lease.Some? && x in r.Leases() {
      LeasesMean(c.rules, x);
    }
  }

  lemma FundedIds(c: Config)
    ensures Ids(LeasesOf(FundedRules(c.rules))) == set r, x | r in c.rules && r.enabled && r.lease.Some? && x in r.Leases() :: x.id
  {
    hide LeasesOf, FundedRules;
    forall l
      ensures l in Ids(LeasesOf(FundedRules(c.rules))) <==> exists r, x :: r in c.rules && r.enabled && r.lease.Some? && x in r.Leases() && x.id == l
    {
      FundedId(c, l);
    }
  }

  lemma FundedId(c: Config, l: Id)
    ensures l in Ids(LeasesOf(FundedRules(c.rules))) <==> exists r, x :: r in c.rules && r.enabled && r.lease.Some? && x in r.Leases() && x.id == l
  {
    hide LeasesOf, FundedRules;
    forall x ensures x in LeasesOf(FundedRules(c.rules)) <==> exists r :: r in c.rules && r.enabled && r.lease.Some? && x in r.Leases() {
      LeasesMean(c.rules, x);
    }
  }

  // ----- What every settlement keeps -----

  /** Nothing is admitted, forgotten or lost: records are only added, and what leaves the meter is billed. */
  ghost predicate Accounted(s: System, u: System) {
    && u.disk.node == s.disk.node && s.disk.pending <= u.disk.pending
    && u.admitted == s.admitted && u.issued == s.issued && u.forgotten == s.forgotten && u.now == s.now && u.running == s.running
    && (forall l :: u.disk.Used(l) + Unsettled(u.meter, l) == s.disk.Used(l) + Unsettled(s.meter, l))
  }

  /** Every new record is the report of one window: what was spent from it since the last one, up to its last use. */
  ghost predicate Records(s: System, u: System) {
    forall k :: k in u.history ==> (k in s.history && u.history[k] == s.history[k]) || ReportOn(s, k, u.history[k])
  }

  lemma ReportIs(disk: Disk, w: Window, c: Live, close: bool)
    requires w.lease in disk.leases
    ensures var e := SettleEvent(disk, w, c, close);
            && (e.usage.Some? <==> w.confirmed < c.used)
            && (e.usage.Some? ==>
                  e.usage.value == Usage(Report(w.id, w.sequence + 1), disk.node, w.rule, w.lease, disk.leases[w.lease].entitlement, w.startedAt,
                                         if c.last < w.until then c.last else w.until,
                                         if w.upload then c.used - w.confirmed else 0, if w.upload then 0 else c.used - w.confirmed, false))
  {
  }

  /** The events of a settlement are settlements of listed windows. */
  lemma {:induction false} ProgressSettles(disk: Disk, meter: map<Id, Live>, trigger: Trigger, now: int, ids: seq<Id>, room: int, e: Event)
    requires Watched(disk, meter, ids) && e in ProgressEvents(disk, meter, trigger, now, ids, room)
    ensures exists id, close :: id in ids && id in disk.windows && id in meter && disk.windows[id].lease in disk.leases
                                && e == SettleEvent(disk, disk.windows[id], meter[id], close)
    decreases |ids|
  {
    WatchedTail(disk, meter, ids);
    hide Closes, SettleEvent;
    var w, c := disk.windows[ids[0]], meter[ids[0]];
    var close := Closes(disk, trigger, w, c, now);
    var left := if close || c.used == w.confirmed || room <= 0 then room else room - 1;
    if e in ProgressEvents(disk, meter, trigger, now, ids[1..], left) {
      ProgressSettles(disk, meter, trigger, now, ids[1..], left, e);
    } else {
      assert e == SettleEvent(disk, w, c, close) && ids[0] in ids;
    }
  }

  /** What a sequence of progress events does besides closing windows. */
  lemma {:induction false} ProgressFrame(s: System, events: seq<Event>)
    requires forall e :: e in events ==> e.Progress?
    ensures var u := PostAll(s, events);
            && u.disk.node == s.disk.node && u.disk.config == s.disk.config && u.disk.leases == s.disk.leases && u.disk.retired == s.disk.retired
            && s.disk.pending <= u.disk.pending && u.admitted == s.admitted && u.issued == s.issued && u.forgotten == s.forgotten
            && u.now == s.now && u.running == s.running
            && (forall k :: k in u.history ==>
                  (k in s.history && u.history[k] == s.history[k])
                  || exists e :: e in events && e.usage.Some? && e.usage.value.id == k && e.usage.value == u.history[k])
    decreases |events|
  {
    if events != [] {
      assert events[0] in events;
      ProgressFrame(Post(s, events[0]), events[1..]);
      assert forall e :: e in events[1..] ==> e in events;
    }
  }

  /** The record is the report of a window since its last one. */
  ghost predicate ReportOn(s: System, k: UsageId, u: Usage) {
    && k.Report? && k.window in s.disk.windows && k.window in s.meter
    && var w, c := s.disk.windows[k.window], s.meter[k.window];
       && k.sequence == w.sequence + 1 && w.confirmed < c.used && w.lease in s.disk.leases
       && u == Usage(k, s.disk.node, w.rule, w.lease, s.disk.leases[w.lease].entitlement, w.startedAt,
                     if c.last < w.until then c.last else w.until,
                     if w.upload then c.used - w.confirmed else 0, if w.upload then 0 else c.used - w.confirmed, false)
  }

  lemma EventReports(terms: Terms, s: System, trigger: Trigger, ids: seq<Id>, e: Event)
    requires Core(terms, s) && Lists(s.disk.windows, ids) && Watched(s.disk, Readied(s, trigger).meter, ids)
    requires e in Settlement(s.disk, Readied(s, trigger).meter, trigger, s.now, ids) && e.Progress? && e.usage.Some?
    ensures ReportOn(s, e.usage.value.id, e.usage.value)
  {
    hide Core, Closes, Freeze, ProgressEvents, SettleEvent, Watched;
    var t := Readied(s, trigger);
    ReadiedKeepsCore(terms, s, trigger, ids);
    ProgressSettles(s.disk, t.meter, trigger, s.now, ids, MAX_PENDING - s.disk.Slots(), e);
    var id, close :| id in ids && id in s.disk.windows && id in t.meter && s.disk.windows[id].lease in s.disk.leases
                     && e == SettleEvent(s.disk, s.disk.windows[id], t.meter[id], close);
    OpenWindow(terms, s, id);
    ReportIs(s.disk, s.disk.windows[id], t.meter[id], close);
    assert t.meter[id] == s.meter[id].(closed := t.meter[id].closed);
  }

  lemma SettlementRecords(terms: Terms, s: System, trigger: Trigger, ids: seq<Id>)
    requires Core(terms, s) && Lists(s.disk.windows, ids) && Watched(s.disk, Readied(s, trigger).meter, ids)
    ensures Records(s, SettledBy(s, trigger, ids))
  {
    hide Core, Lists, PostAll, Freeze, Settlement, Watched, ReportOn;
    var t := Readied(s, trigger);
    var events := Settlement(s.disk, t.meter, trigger, s.now, ids);
    SettlementIsCreditBatch(terms, s, trigger, ids);
    ProgressFrame(t, events);
    forall e | e in events && e.usage.Some? ensures ReportOn(s, e.usage.value.id, e.usage.value) {
      EventReports(terms, s, trigger, ids, e);
    }
  }

  /** What a settlement leaves: the same configuration and registry, and every byte accounted for. */
  lemma SettlementAccounts(terms: Terms, s: System, trigger: Trigger, ids: seq<Id>)
    requires Core(terms, s) && Lists(s.disk.windows, ids) && Watched(s.disk, Readied(s, trigger).meter, ids)
    ensures var u := SettledBy(s, trigger, ids);
            && Accounted(s, u) && Records(s, u) && Settles(s, trigger, u.disk.windows, u.meter)
            && u.disk.config == s.disk.config && u.disk.leases == s.disk.leases && u.disk.retired == s.disk.retired
  {
    hide Core, Closes, PostAll, Freeze, Settlement, Records, Settles, Unsettled;
    var t := Readied(s, trigger);
    SettlementIsCreditBatch(terms, s, trigger, ids);
    ProgressFrame(t, Settlement(s.disk, t.meter, trigger, s.now, ids));
    SettlementRecords(terms, s, trigger, ids);
    SettlementSettles(terms, s, trigger, ids);
    forall l ensures SettledBy(s, trigger, ids).disk.Used(l) + Unsettled(SettledBy(s, trigger, ids).meter, l) == s.disk.Used(l) + Unsettled(s.meter, l) {
      RebalanceConserves(terms, s, trigger, ids, l);
    }
  }

  // ----- Jobs -----

  /** The settled system once only the registry moves on. */
  ghost predicate Settled(s: System, u: System, trigger: Trigger) {
    Accounted(s, u) && Records(s, u) && Settles(s, trigger, u.disk.windows, u.meter)
  }

  ghost predicate Flushed(s: System, u: System, trigger: Trigger) {
    Settled(s, u, trigger) && u.disk.config == s.disk.config && u.disk.leases == s.disk.leases && u.disk.retired == s.disk.retired
  }

  /**
   * A configuration was adopted: the leases of its enabled rules are registered, the leases that only the one before it
   * used are stopped but not confirmed, and no other lease changed.
   */
  ghost predicate Adopted(s: System, u: System, c: Config) {
    && Settled(s, u, Configuring(c)) && u.disk.config == c
    && (forall l :: l in u.disk.leases <==> l in s.disk.leases || Uses(c, l))
    && (forall l :: l in s.disk.leases ==> u.disk.leases[l] == s.disk.leases[l])
    && (forall r, x :: r in c.rules && r.enabled && x in r.Leases() ==> x.id in u.disk.leases && u.disk.leases[x.id] == x)
    && (forall l :: l in u.disk.retired <==> l in s.disk.retired || (Names(s.disk.config, l) && !Uses(c, l)))
    && (forall l :: l in u.disk.retired ==> u.disk.retired[l] == (l in s.disk.retired && s.disk.retired[l]))
  }

  /** A lease was stopped, with its windows closed and settled; its confirmation, if there was one, is not undone. */
  ghost predicate Halted(s: System, u: System, l: Id) {
    && Settled(s, u, Retiring(l)) && u.disk.config == s.disk.config && u.disk.leases == s.disk.leases
    && u.disk.retired == s.disk.retired[l := l in s.disk.retired && s.disk.retired[l]]
    && NoWindowOn(u.disk.windows, l)
  }

  /** What remains is in the order it was in. */
  ghost predicate InOrder(before: seq<Usage>, after: seq<Usage>) {
    forall i, j :: 0 <= i < j < |after| ==> exists a, b :: 0 <= a < b < |before| && before[a] == after[i] && before[b] == after[j]
  }

  /** Exactly the records that were not acknowledged remain. */
  ghost predicate Dropped(s: System, u: System, ids: set<UsageId>) {
    && u == s.(disk := s.disk.(pending := u.disk.pending))
    && (forall x :: x in u.disk.pending <==> x in s.disk.pending && x.id !in ids)
    && InOrder(s.disk.pending, u.disk.pending)
  }

  ghost predicate Confirmed(s: System, u: System, l: Id) {
    u == s.(disk := s.disk.(retired := s.disk.retired[l := true]))
  }

  /** A lease that nothing refers to any more: its stop was confirmed and it has expired. */
  ghost predicate Spoiled(d: Disk, now: int, l: Id) {
    && l in d.leases && l in d.retired && d.retired[l] && d.leases[l].expiresAt <= now && !Names(d.config, l)
    && (forall u :: u in d.pending ==> u.lease != l) && (forall id :: id in d.windows ==> d.windows[id].lease != l)
  }

  ghost predicate KeptOf<T>(before: map<Id, T>, after: map<Id, T>, gone: set<Id>) {
    (forall l :: l in after <==> l in before && l !in gone) && forall l :: l in after ==> after[l] == before[l]
  }

  /** Pruning forgets exactly the spoiled leases and touches nothing else. */
  ghost predicate Pruned(s: System, u: System) {
    && (forall l :: l in u.forgotten <==> l in s.forgotten || Spoiled(s.disk, s.now, l))
    && u == s.(disk := s.disk.(leases := u.disk.leases, used := u.disk.used, retired := u.disk.retired), forgotten := u.forgotten)
    && var gone := set l | l in s.disk.leases && Spoiled(s.disk, s.now, l);
       KeptOf(s.disk.leases, u.disk.leases, gone) && KeptOf(s.disk.used, u.disk.used, gone) && KeptOf(s.disk.retired, u.disk.retired, gone)
  }

  lemma PruneIsPruned(s: System, u: System)
    requires Forgets(s, u)
    ensures Pruned(s, u)
  {
    forall l ensures l in Ids(LeasesOf(s.disk.config.rules)) <==> Names(s.disk.config, l) { NamesMean(s.disk.config, l); }
    hide LeasesOf, Names;
    assert Prunable(s.disk, s.now) == set l | l in s.disk.leases && Spoiled(s.disk, s.now, l);
    assert forall l :: Spoiled(s.disk, s.now, l) ==> l in s.disk.leases;
  }

  lemma {:induction false} DropKeepsOrder(pending: seq<Usage>, ids: set<UsageId>)
    ensures InOrder(pending, Unacknowledged(pending, ids))
  {
    if pending != [] {
      var front, last := pending[..|pending| - 1], pending[|pending| - 1];
      var rest := Unacknowledged(front, ids);
      DropKeepsOrder(front, ids);
      AckKeepsMembers(front, ids);
      var after := Unacknowledged(pending, ids);
      forall i, j | 0 <= i < j < |after|
        ensures exists a, b :: 0 <= a < b < |pending| && pending[a] == after[i] && pending[b] == after[j]
      {
        if j < |rest| {
          var a, b :| 0 <= a < b < |front| && front[a] == rest[i] && front[b] == rest[j];
          assert pending[a] == after[i] && pending[b] == after[j];
        } else {
          assert rest[i] in rest;
          var a :| 0 <= a < |front| && front[a] == rest[i];
          assert pending[a] == after[i] && pending[|pending| - 1] == after[j];
        }
      }
    }
  }

  lemma DropIsDropped(s: System, ids: set<UsageId>)
    ensures Dropped(s, Post(s, Ack(ids)), ids)
  {
    AckKeepsMembers(s.disk.pending, ids);
    DropKeepsOrder(s.disk.pending, ids);
    hide InOrder, Unacknowledged;
  }

  lemma ConfirmIsConfirmed(s: System, l: Id)
    ensures Confirmed(s, Post(s, RetireAck(l)), l)
  {
  }

  lemma HaltIsHalted(terms: Terms, s: System, ids: seq<Id>, l: Id)
    requires Core(terms, s) && Lists(s.disk.windows, ids) && Watched(s.disk, Readied(s, Retiring(l)).meter, ids)
    ensures var t := Readied(s, Retiring(l));
            Halted(s, PostAll(t, Settlement(s.disk, t.meter, Retiring(l), s.now, ids) + [Retire(l)]), l)
  {
    hide Core, Settlement, Freeze, PostAll, SettledBy;
    var t, m := Readied(s, Retiring(l)), SettledBy(s, Retiring(l), ids);
    SettlementAccounts(terms, s, Retiring(l), ids);
    PostAllSnoc(t, Settlement(s.disk, t.meter, Retiring(l), s.now, ids), Retire(l));
    assert m == PostAll(t, Settlement(s.disk, t.meter, Retiring(l), s.now, ids)) by { SettledByIs(s, Retiring(l), ids); }
    LastEventKeepsSettled(s, m, Retire(l), Retiring(l));
    hide Records, Accounted, Settled;
    assert Stop(m.disk.retired, {l}) == m.disk.retired[l := l in m.disk.retired && m.disk.retired[l]];
  }

  lemma SettledByIs(s: System, trigger: Trigger, ids: seq<Id>)
    requires Watched(s.disk, Readied(s, trigger).meter, ids)
    ensures SettledBy(s, trigger, ids) == PostAll(Readied(s, trigger), Settlement(s.disk, Readied(s, trigger).meter, trigger, s.now, ids))
  {
    hide PostAll, Settlement, Freeze;
  }

  lemma LastEventKeepsSettled(s: System, m: System, e: Event, trigger: Trigger)
    requires Settled(s, m, trigger) && (e.SetConfig? || e.Retire?)
    ensures Settled(s, Post(m, e), trigger)
  {
    hide Settles, Register, Stop, LeasesOf, Active;
  }

  lemma RegisterIs(terms: Terms, s: Disk, c: Config)
    requires Inv(terms, s) && ConfigOk(terms, c)
    ensures var u := Apply(s, SetConfig(c));
            && (forall l :: l in u.leases <==> l in s.leases || Uses(c, l))
            && (forall l :: l in u.leases ==> u.leases[l] == terms(l))
            && (forall l :: l in s.leases ==> s.leases[l] == terms(l))
            && (forall r, x :: r in c.rules && r.enabled && x in r.Leases() ==> x.id in u.leases && x == terms(x.id))
  {
    hide PendingOk, BudgetsOk, Capped, LeasesOk, WindowsOk, Register, LeasesOf, EnabledRules, FundedRules, Stop, Active;
    EnabledIsHonest(terms, c);
    Registered(s.leases, LeasesOf(EnabledRules(c.rules)), terms);
    forall l ensures l in Active(c) <==> Uses(c, l) { NamesMean(c, l); }
    forall r, x | r in c.rules && r.enabled && x in r.Leases() ensures Uses(c, x.id) && x == terms(x.id) { LeasesMean(c.rules, x); }
    ActiveIs(c);
  }

  lemma ActiveIs(c: Config)
    ensures Active(c) == Ids(LeasesOf(EnabledRules(c.rules)))
  {
  }

  lemma StopIs(s: Disk, c: Config)
    ensures var u := Apply(s, SetConfig(c));
            && (forall l :: l in u.retired <==> l in s.retired || (Names(s.config, l) && !Uses(c, l)))
            && (forall l :: l in u.retired ==> u.retired[l] == (l in s.retired && s.retired[l]))
  {
    forall l ensures l in Ids(LeasesOf(s.config.rules)) <==> Names(s.config, l) { NamesMean(s.config, l); }
    forall l ensures l in Active(c) <==> Uses(c, l) { NamesMean(c, l); }
    hide LeasesOf, Active, Names, Uses, Register, Ids;
  }

  lemma ConfigIsAdopted(terms: Terms, s: System, ids: seq<Id>, c: Config)
    requires Core(terms, s) && Lists(s.disk.windows, ids) && Watched(s.disk, Readied(s, Configuring(c)).meter, ids) && ConfigOk(terms, c)
    ensures var t := Readied(s, Configuring(c));
            Adopted(s, PostAll(t, Settlement(s.disk, t.meter, Configuring(c), s.now, ids) + [SetConfig(c)]), c)
  {
    hide Core, Settlement, Freeze, PostAll, SettledBy, Settled, ConfigOk, Accounted, Records, Settles, Names, Uses, Apply;
    var t, m := Readied(s, Configuring(c)), SettledBy(s, Configuring(c), ids);
    SettlementAccounts(terms, s, Configuring(c), ids);
    assert Settled(s, m, Configuring(c)) by { SettledAgain(s, m, Configuring(c)); }
    PostAllSnoc(t, Settlement(s.disk, t.meter, Configuring(c), s.now, ids), SetConfig(c));
    SettledByIs(s, Configuring(c), ids);
    LastEventKeepsSettled(s, m, SetConfig(c), Configuring(c));
    SettlementOutcome(terms, s, Configuring(c), ids);
    CoreIsInv(terms, m);
    RegisterIs(terms, m.disk, c);
    StopIs(m.disk, c);
    ConfigSets(m.disk, c);
  }

  lemma SettledAgain(s: System, m: System, trigger: Trigger)
    requires Accounted(s, m) && Records(s, m) && Settles(s, trigger, m.disk.windows, m.meter)
    ensures Settled(s, m, trigger)
  {
    hide Accounted, Records, Settles;
  }

  lemma ConfigSets(d: Disk, c: Config)
    ensures Apply(d, SetConfig(c)).config == c
  {
    hide Register, Stop, LeasesOf;
  }

  lemma CoreIsInv(terms: Terms, s: System)
    requires Core(terms, s)
    ensures Inv(terms, s.disk)
  {
    hide Inv, MeterOk, IssuedOk, HistoryOk, BilledOk, ForgottenOk, AdmittedOk;
  }
}
