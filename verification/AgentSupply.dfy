/**
 * One pass of the writer for one request: when does it leave enough spendable credit behind? The answer needs the
 * true use of every window, so it is stated over the whole system.
 */
module AgentSupply {
  import opened AgentTypes
  import opened AgentState
  import opened AgentSystem
  import opened AgentRuns
  import opened AgentPlanner
  import opened AgentBatches
  import opened AgentRecovery
  import opened AgentFastPath
  import opened AgentWriter
  import opened AgentStore
  import opened AgentSettling
  import opened AgentSizing
  import opened Sums

  /** Unspent bytes in the open windows of one rule and direction. */
  ghost function OnHand(meter: map<Id, Live>, rule: Id, up: bool): int {
    Spare(meter, Way(rule, up))
  }

  // ----- Listed totals are totals -----

  ghost function Part(meter: map<Id, Live>, ids: seq<Id>): map<Id, Live> {
    map id | id in meter && id in ids :: meter[id]
  }

  lemma PartGrows(meter: map<Id, Live>, ids: seq<Id>, id: Id)
    requires id in meter && id !in ids
    ensures Part(meter, ids + [id]) == Part(meter, ids)[id := meter[id]] && id !in Part(meter, ids)
  {
  }

  ghost function Ones(rule: Id, up: bool): Live -> int {
    (c: Live) => Weight(InPool(rule, up), c.window)
  }

  lemma {:induction false} ListedTotals(meter: map<Id, Live>, ids: seq<Id>, rule: Id, up: bool)
    requires Distinct(ids) && Unfrozen(meter) && forall id :: id in ids ==> id in meter
    ensures PoolSpare(meter, ids, rule, up) == Spare(Part(meter, ids), Way(rule, up))
    ensures PoolSize(meter, ids, rule, up) == Sum(Part(meter, ids), Ones(rule, up))
  {
    if ids == [] {
      assert Part(meter, ids) == map[];
      SumUnfolds(Part(meter, ids), SpareBy(Way(rule, up)));
      SumUnfolds(Part(meter, ids), Ones(rule, up));
    } else {
      var front, id := ids[..|ids| - 1], ids[|ids| - 1];
      ListedTotals(meter, front, rule, up);
      assert ids == front + [id] && id !in front;
      PartGrows(meter, front, id);
      hide Part;
      SumPut(Part(meter, front), SpareBy(Way(rule, up)), id, meter[id]);
      SumPut(Part(meter, front), Ones(rule, up), id, meter[id]);
    }
  }

  lemma PoolTotals(terms: Terms, s: System, order: seq<Id>, rule: Id, up: bool)
    requires Core(terms, s) && Unfrozen(s.meter) && Lists(s.disk.windows, order)
    ensures PoolSpare(s.meter, order, rule, up) == OnHand(s.meter, rule, up)
    ensures PoolSize(s.meter, order, rule, up) == Held(s.disk.windows, InPool(rule, up))
  {
    hide Core;
    forall id | id in s.disk.windows ensures id in s.meter && s.meter[id].window == s.disk.windows[id] { OpenWindow(terms, s, id); }
    KeysAgree(terms, s);
    ListedTotals(s.meter, order, rule, up);
    assert Part(s.meter, order) == s.meter;
    SumMonotone(s.meter, Ones(rule, up), s.disk.windows, By(InPool(rule, up)));
    SumMonotone(s.disk.windows, By(InPool(rule, up)), s.meter, Ones(rule, up));
  }

  /**
   * A request takes back its rule's credit if and only if the rule has windows with unspent bytes, the direction holds too
   * little, and a new window cannot be had otherwise: the direction is full, a limit is in the way, or no lease can pay.
   */
  lemma RebalanceMeans(terms: Terms, s: System, order: seq<Id>, r: Request)
    requires Core(terms, s) && Unfrozen(s.meter) && Lists(s.disk.windows, order)
    ensures Unbalanced(s.disk, s.meter, order, r, s.now) <==>
              var up, down := OnHand(s.meter, r.rule.id, r.upload), OnHand(s.meter, r.rule.id, !r.upload);
              && 0 < r.n && up < r.n && up + down != 0
              && (Held(s.disk.windows, InPool(r.rule.id, r.upload)) > 0 || Held(s.disk.windows, InPool(r.rule.id, !r.upload)) > 0)
              && !(&& Held(s.disk.windows, InPool(r.rule.id, r.upload)) < 2
                   && r.n + Held(s.disk.windows, OfRule(r.rule.id)) <= (if r.rule.tcp then 4_194_304 else 1_048_576)
                   && r.n + Held(s.disk.windows, OfOwner(r.rule.Owner())) <= 8_388_608
                   && exists l :: l in r.rule.Leases() && CanPay(s.disk, l, r.until, r.n, s.now))
  {
    hide Core, Held, Lists, PoolSize, PoolSpare, OnHand, CanPay, Available;
    PoolTotals(terms, s, order, r.rule.id, r.upload);
    PoolTotals(terms, s, order, r.rule.id, !r.upload);
    forall l ensures Available(s.disk, Some(l), r.until, r.n, s.now).None? <==> CanPay(s.disk, l, r.until, r.n, s.now) {
      AvailableIsPayable(s.disk, l, r.until, r.n, s.now);
    }
  }

  lemma SurvivingSpare(s: System, u: System, trigger: Trigger, q: Measure)
    requires u.meter.Keys == Surviving(s, trigger).Keys && forall id :: id in u.meter ==> Kept(s.meter[id], u.meter[id])
    ensures Spare(u.meter, q) == Spare(Surviving(s, trigger), q)
    ensures Unfrozen(s.meter) ==> Unfrozen(u.meter)
  {
    hide Closes;
    SumMonotone(u.meter, SpareBy(q), Surviving(s, trigger), SpareBy(q));
    SumMonotone(Surviving(s, trigger), SpareBy(q), u.meter, SpareBy(q));
  }

  // ----- A request that deserves credit -----

  /** The request is for the rule as it is configured now. */
  ghost predicate Timely(s: System, r: Request) {
    && 0 < r.n <= WINDOW_SIZE && !r.prime
    && s.disk.config.present && Current(s.disk.config.rules, r.rule) == Some(r.rule)
    && s.now < r.until && s.now < s.disk.config.validUntil
  }

  /** The request fits the bytes of a lease that nobody has spent, whatever windows hold them. */
  ghost predicate Funded(terms: Terms, s: System, r: Request, l: Lease) {
    && l in r.rule.Leases() && l == terms(l.id) && s.now < l.expiresAt && l.id !in s.disk.retired && LeaseCapacity(s.disk, [l])
    && r.n <= l.bytes - s.disk.Used(l.id) - Unsettled(s.meter, l.id)
  }

  ghost predicate Headroom(s: System, r: Request) {
    && r.n <= ACCOUNT_CREDITS - Held(s.disk.windows, OfOwner(r.rule.Owner()))
    && s.disk.Slots() + |s.disk.windows| < MAX_PENDING
  }

  /** A lease belongs to one rule. */
  ghost predicate OwnLeases(windows: map<Id, Window>, rule: Rule) {
    forall id :: id in windows && windows[id].lease in Ids(rule.Leases()) ==> windows[id].rule == rule.id
  }

  // ----- When the planner grants -----

  /** What the planner needs to find in the state it plans against. */
  ghost predicate Affordable(disk: Disk, staged: seq<Event>, r: Request, l: Lease, paused: bool, now: int) {
    && l in r.rule.Leases() && Available(disk, Some(l), Min(r.until, disk.config.validUntil), r.n, now).None?
    && Foreseen(disk.windows, staged, InPool(r.rule.id, r.upload)) < 2
    && r.n <= RuleCap(r.rule.tcp, paused) - Foreseen(disk.windows, staged, OfRule(r.rule.id))
    && r.n <= ACCOUNT_CREDITS - Foreseen(disk.windows, staged, OfOwner(r.rule.Owner()))
    && disk.Slots() + |staged| < MAX_PENDING
    && (forall e :: e in staged ==> e.Progress?)
  }

  lemma {:induction false} NothingReserved(events: seq<Event>, l: Id)
    requires forall e :: e in events ==> e.Progress?
    ensures ReservedFor(events, l) == 0 && Grants(events) == []
  {
    if events != [] {
      assert events[0] in events;
      NothingReserved(events[1..], l);
    }
  }

  /** If some lease of the rule can pay, the planner finds one that can. */
  lemma {:induction false} FundingIsFound(disk: Disk, primary: Option<Lease>, leases: seq<Lease>, until: int, staged: seq<Event>, n: int, now: int, l: Lease)
    requires (forall e :: e in staged ==> e.Progress?) && 0 < n && l in leases && Available(disk, Some(l), until, n, now).None?
    ensures var f := Funding(disk, primary, leases, until, staged, n, now);
            f.Some? && Available(disk, f, until, n, now).None?
  {
    NothingReserved(staged, leases[0].id);
    hide Available;
    if Available(disk, Some(leases[0]), until, n, now).Some? {
      FundingIsFound(disk, primary, leases[1..], until, staged, n, now, l);
    }
  }

  lemma AvailableForLess(disk: Disk, lease: Option<Lease>, until: int, n: int, now: int)
    requires Available(disk, lease, until, n, now).None? && 0 < n
    ensures Available(disk, lease, until, 0, now).None? && lease.Some? && LeaseCapacity(disk, [lease.value])
    ensures n <= lease.value.bytes - disk.Used(lease.value.id) - disk.Liability(lease.value.id)
  {
    hide Held, LeaseCapacity;
  }

  lemma DecisionIsGranted(disk: Disk, staged: seq<Event>, r: Request, l: Lease, paused: bool, now: int, id: Id)
    requires Affordable(disk, staged, r, l, paused, now) && 0 < r.n <= WINDOW_SIZE && !r.prime
    requires disk.config.present && Current(disk.config.rules, r.rule) == Some(r.rule)
    ensures Decide(disk, staged, r, paused, now, id).Granted?
  {
    hide Available, Held, Foreseen, LeaseCapacity, Funding, Current;
    var until := Min(r.until, disk.config.validUntil);
    var f := Funding(disk, r.rule.lease, r.rule.Leases(), until, staged, r.n, now);
    FundingIsFound(disk, r.rule.lease, r.rule.Leases(), until, staged, r.n, now, l);
    AvailableForLess(disk, f, until, r.n, now);
    NothingReserved(staged, f.value.id);
    assert [f.value] + Grants(staged) == [f.value];
    GrantableSize(disk, staged, r, f.value, paused);
  }

  lemma GrantableSize(disk: Disk, staged: seq<Event>, r: Request, l: Lease, paused: bool)
    requires !r.prime && 0 < r.n <= WINDOW_SIZE && ReservedFor(staged, l.id) == 0
    requires r.n <= RuleCap(r.rule.tcp, paused) - Foreseen(disk.windows, staged, OfRule(r.rule.id))
    requires r.n <= ACCOUNT_CREDITS - Foreseen(disk.windows, staged, OfOwner(r.rule.Owner()))
    requires r.n <= l.bytes - disk.Used(l.id) - disk.Liability(l.id)
    ensures r.n <= Grantable(disk, staged, r, r.rule, l, paused)
  {
    hide Foreseen, Held, ReservedFor;
  }

  lemma AvailableForMore(disk: Disk, l: Lease, until: int, n: int, now: int)
    requires Available(disk, Some(l), until, 0, now).None? && 0 < n <= l.bytes - disk.Used(l.id) - disk.Liability(l.id)
    ensures Available(disk, Some(l), until, n, now).None?
  {
    hide Held, LeaseCapacity;
  }

  lemma GrantedFrom(disk: Disk, staged: seq<Event>, r: Request, paused: bool, now: int, id: Id)
    requires disk.config.present && Current(disk.config.rules, r.rule) == Some(r.rule) && Decide(disk, staged, r, paused, now, id).Granted?
    ensures var e := Decide(disk, staged, r, paused, now, id).event;
            && e.Reserve? && e.window.rule == r.rule.id && e.window.upload == r.upload && e.window.owner == r.rule.Owner()
            && e.window.tcp == r.rule.tcp && e.grant in r.rule.Leases()
            && Available(disk, Some(e.grant), Min(r.until, disk.config.validUntil), 0, now).None?
  {
    hide Available, Held, Foreseen, LeaseCapacity, Current, Grantable, Funding, Min;
    var until := Min(r.until, disk.config.validUntil);
    FundingIsOffered(disk, r.rule.lease, r.rule.Leases(), until, staged, r.n, now);
    AvailableNeedsLease(disk, Funding(disk, r.rule.lease, r.rule.Leases(), until, staged, r.n, now), until, 0, now);
    assert r.rule.lease.Some? ==> r.rule.Leases()[0] == r.rule.lease.value;
  }

  /** The planner grants exactly when some lease can pay and there is room in every total. */
  lemma GrantedIffAffordable(disk: Disk, staged: seq<Event>, r: Request, paused: bool, now: int, id: Id)
    requires 0 < now && 0 < r.n <= WINDOW_SIZE && !r.prime && (forall e :: e in staged ==> e.Progress?)
    requires disk.config.present && Current(disk.config.rules, r.rule) == Some(r.rule)
    ensures Decide(disk, staged, r, paused, now, id).Granted? <==> exists l :: Affordable(disk, staged, r, l, paused, now)
  {
    hide Decide, Available, Held, Foreseen, LeaseCapacity, Current, Grantable, WindowCap, RuleCap;
    if Decide(disk, staged, r, paused, now, id).Granted? {
      var e := Decide(disk, staged, r, paused, now, id).event;
      GrantIsMade(disk, staged, r, paused, now, id);
      GrantableIsBounded(disk, staged, r, r.rule, e.grant, paused);
      GrantedFrom(disk, staged, r, paused, now, id);
      NothingReserved(staged, e.grant.id);
      AvailableForMore(disk, e.grant, Min(r.until, disk.config.validUntil), r.n, now);
      assert Affordable(disk, staged, r, e.grant, paused, now);
    }
    if l :| Affordable(disk, staged, r, l, paused, now) {
      DecisionIsGranted(disk, staged, r, l, paused, now, id);
    }
  }

  // ----- A settlement only releases -----

  lemma {:induction false} ShiftsRelease(windows: map<Id, Window>, events: seq<Event>, q: Measure)
    requires Plausible(windows, events) && (forall e :: e in events ==> e.Progress?)
    requires forall id :: id in windows ==> WindowShape(windows[id])
    ensures Shifts(windows, events, q) <= 0
  {
    if events != [] {
      assert events[0] in events;
      ShiftsRelease(windows, events[1..], q);
    }
  }

  lemma {:induction false} ProgressCount(disk: Disk, meter: map<Id, Live>, trigger: Trigger, now: int, ids: seq<Id>, room: int)
    requires Watched(disk, meter, ids)
    ensures |ProgressEvents(disk, meter, trigger, now, ids, room)| <= |ids|
    decreases |ids|
  {
    if ids != [] {
      WatchedTail(disk, meter, ids);
      hide Closes, Watched;
      var w, c := disk.windows[ids[0]], meter[ids[0]];
      var close := Closes(disk, trigger, w, c, now);
      ProgressCount(disk, meter, trigger, now, ids[1..], if close || c.used == w.confirmed || room <= 0 then room else room - 1);
    }
  }

  lemma {:induction false} ListedSize(windows: map<Id, Window>, ids: seq<Id>)
    requires Lists(windows, ids)
    ensures |ids| == |windows|
    decreases |ids|
  {
    if ids == [] {
      assert windows == map[];
    } else {
      FirstListed(windows, ids);
      ListsTail(windows, ids);
      ListedSize(windows - {ids[0]}, ids[1..]);
      assert (windows - {ids[0]}).Keys == windows.Keys - {ids[0]};
    }
  }

  /** The events of a settlement: progress only, one per window at most, and every measure shrinks. */
  lemma SettlementShrinks(terms: Terms, s: System, trigger: Trigger, ids: seq<Id>, q: Measure)
    requires Core(terms, s) && Lists(s.disk.windows, ids) && Watched(s.disk, Readied(s, trigger).meter, ids)
    ensures var events := Settlement(s.disk, Readied(s, trigger).meter, trigger, s.now, ids);
            && (forall e :: e in events ==> e.Progress?) && |events| <= |s.disk.windows|
            && Foreseen(s.disk.windows, events, q) <= Held(s.disk.windows, q)
            && Foreseen(s.disk.windows, events, q) == Held(SettledBy(s, trigger, ids).disk.windows, q)
  {
    hide Core, Closes, Freeze, PostAll, CreditBatch, Plausible, Held;
    var t := Readied(s, trigger);
    var events := Settlement(s.disk, t.meter, trigger, s.now, ids);
    SettlementIsCreditBatch(terms, s, trigger, ids);
    SettlementIsPlausible(terms, s, trigger, ids);
    forall id | id in s.disk.windows ensures WindowShape(s.disk.windows[id]) { OpenWindow(terms, s, id); }
    ShiftsRelease(s.disk.windows, events, q);
    ListedSize(s.disk.windows, ids);
    ProgressCount(s.disk, t.meter, trigger, s.now, ids, MAX_PENDING - s.disk.Slots());
    ForeseenIsHeld(t, events, q);
  }

  // ----- The planner can pay when nothing stands in the way -----

  lemma AvailableIs(terms: Terms, s: System, r: Request, l: Lease, until: int)
    requires Core(terms, s) && 0 < r.n && s.now < until && s.now < l.expiresAt && l == terms(l.id) && l.id !in s.disk.retired
    requires LeaseCapacity(s.disk, [l]) && s.disk.Slots() < MAX_PENDING
    requires r.n <= l.bytes - s.disk.Used(l.id) - s.disk.Liability(l.id)
    ensures Available(s.disk, Some(l), until, r.n, s.now).None?
  {
    RegistryAgrees(terms, s, l);
    UsedIsNatural(terms, s, l.id);
    hide Core, LeaseCapacity;
  }

  lemma UsedIsNatural(terms: Terms, s: System, l: Id)
    requires Core(terms, s)
    ensures 0 <= s.disk.Used(l) && 0 <= Unsettled(s.meter, l) <= s.disk.Liability(l)
  {
    hide PendingOk, BudgetsOk, Capped, IssuedOk, HistoryOk, BilledOk, ForgottenOk, AdmittedOk, ConfigOk, WindowsOk;
    UnsettledBounded(s.disk.windows, s.meter, s.now, l);
    hide MeterOk, Held, Unsettled;
  }

  /** The request fits the rule's limit beside what stays open; a paused TCP rule plans with the smaller limit. */
  ghost predicate RuleFits(s: System, ids: seq<Id>, r: Request, paused: bool)
    requires Watched(s.disk, Readied(s, Flush).meter, ids)
  {
    r.n <= RuleCap(r.rule.tcp, paused) - Held(SettledBy(s, Flush, ids).disk.windows, OfRule(r.rule.id))
  }

  /** The state the planner works against, with everything it will look at. */
  lemma PlanIsAffordable(terms: Terms, s: System, ids: seq<Id>, r: Request, l: Lease, paused: bool)
    requires Core(terms, s) && Lists(s.disk.windows, ids) && Watched(s.disk, Readied(s, Flush).meter, ids) && Timely(s, r)
    requires l in r.rule.Leases() && Available(s.disk, Some(l), Min(r.until, s.disk.config.validUntil), r.n, s.now).None?
    requires r.n <= ACCOUNT_CREDITS - Held(s.disk.windows, OfOwner(r.rule.Owner()))
    requires s.disk.Slots() + |Settlement(s.disk, Readied(s, Flush).meter, Flush, s.now, ids)| < MAX_PENDING
    requires Held(SettledBy(s, Flush, ids).disk.windows, InPool(r.rule.id, r.upload)) < 2 && RuleFits(s, ids, r, paused)
    ensures Affordable(s.disk, Settlement(s.disk, Readied(s, Flush).meter, Flush, s.now, ids), r, l, paused, s.now)
  {
    hide Core, Available, Held, Settlement, Foreseen, Freeze, PostAll, SettledBy;
    SettlementShrinks(terms, s, Flush, ids, InPool(r.rule.id, r.upload));
    SettlementShrinks(terms, s, Flush, ids, OfRule(r.rule.id));
    SettlementShrinks(terms, s, Flush, ids, OfOwner(r.rule.Owner()));
  }

  ghost predicate NoneOf(windows: map<Id, Window>, rule: Id) {
    forall id :: id in windows ==> windows[id].rule != rule
  }

  lemma NoneOfHeld(windows: map<Id, Window>, rule: Id, up: bool)
    requires NoneOf(windows, rule)
    ensures Held(windows, InPool(rule, up)) == 0 && Held(windows, OfRule(rule)) == 0
  {
    SumZero(windows, By(InPool(rule, up)));
    SumZero(windows, By(OfRule(rule)));
  }

  lemma EmptyRuleIsAffordable(terms: Terms, m: System, ids: seq<Id>, r: Request, l: Lease, paused: bool)
    requires Core(terms, m) && Lists(m.disk.windows, ids) && Watched(m.disk, Readied(m, Flush).meter, ids) && Timely(m, r)
    requires NoneOf(m.disk.windows, r.rule.id) && NoWindowOn(m.disk.windows, l.id)
    requires l in r.rule.Leases() && l == terms(l.id) && m.now < l.expiresAt && l.id !in m.disk.retired && LeaseCapacity(m.disk, [l])
    requires r.n <= l.bytes - m.disk.Used(l.id) && r.n <= ACCOUNT_CREDITS - Held(m.disk.windows, OfOwner(r.rule.Owner()))
    requires m.disk.Slots() + |Settlement(m.disk, Readied(m, Flush).meter, Flush, m.now, ids)| < MAX_PENDING
    ensures Affordable(m.disk, Settlement(m.disk, Readied(m, Flush).meter, Flush, m.now, ids), r, l, paused, m.now)
  {
    hide Core, Available, Held, Settlement, Freeze, SettledBy, Closes, LeaseCapacity, Affordable;
    var u := SettledBy(m, Flush, ids);
    NoneHeld(m.disk.windows, l.id);
    SettledWindows(terms, m, Flush, ids);
    assert NoneOf(u.disk.windows, r.rule.id);
    NoneOfHeld(u.disk.windows, r.rule.id, r.upload);
    AvailableIs(terms, m, r, l, Min(r.until, m.disk.config.validUntil));
    PlanIsAffordable(terms, m, ids, r, l, paused);
  }

  /** Every window of the rule is used up. */
  ghost predicate AllFull(s: System, rule: Id) {
    forall id :: id in s.meter && s.meter[id].window.rule == rule ==> s.meter[id].used == s.meter[id].window.capacity
  }

  lemma FullIsSettled(terms: Terms, s: System, rule: Id, l: Id)
    requires Core(terms, s) && AllFull(s, rule)
    requires forall id :: id in s.disk.windows && s.disk.windows[id].lease == l ==> s.disk.windows[id].rule == rule
    ensures s.disk.Liability(l) <= Unsettled(s.meter, l)
  {
    hide Core;
    KeysAgree(terms, s);
    forall id | id in s.disk.windows ensures By(OfLease(l))(s.disk.windows[id]) <= OnLease(l)(s.meter[id]) {
      OpenWindow(terms, s, id);
    }
    SumMonotone(s.disk.windows, By(OfLease(l)), s.meter, OnLease(l));
  }

  lemma FullRuleCloses(terms: Terms, s: System, ids: seq<Id>, rule: Id)
    requires Core(terms, s) && Lists(s.disk.windows, ids) && Watched(s.disk, Readied(s, Flush).meter, ids) && AllFull(s, rule)
    ensures NoneOf(SettledBy(s, Flush, ids).disk.windows, rule)
  {
    hide Core, SettledBy, Freeze;
    SettledWindows(terms, s, Flush, ids);
    var u := SettledBy(s, Flush, ids);
    forall id | id in u.disk.windows ensures u.disk.windows[id].rule != rule {
      OpenWindow(terms, s, id);
    }
  }

  lemma FullRuleIsAffordable(terms: Terms, s: System, ids: seq<Id>, r: Request, l: Lease, paused: bool)
    requires Core(terms, s) && Lists(s.disk.windows, ids) && Watched(s.disk, Readied(s, Flush).meter, ids) && Timely(s, r)
    requires AllFull(s, r.rule.id) && OwnLeases(s.disk.windows, r.rule) && Funded(terms, s, r, l) && Headroom(s, r)
    ensures Affordable(s.disk, Settlement(s.disk, Readied(s, Flush).meter, Flush, s.now, ids), r, l, paused, s.now)
  {
    hide Core, Available, Held, Settlement, Freeze, SettledBy, LeaseCapacity, Affordable, AllFull, Unsettled;
    FullRuleCloses(terms, s, ids, r.rule.id);
    NoneOfHeld(SettledBy(s, Flush, ids).disk.windows, r.rule.id, r.upload);
    assert l.id in Ids(r.rule.Leases());
    FullIsSettled(terms, s, r.rule.id, l.id);
    AvailableIs(terms, s, r, l, Min(r.until, s.disk.config.validUntil));
    SettlementShrinks(terms, s, Flush, ids, OfRule(r.rule.id));
    PlanIsAffordable(terms, s, ids, r, l, paused);
  }

  lemma AvailableEarlier(disk: Disk, l: Lease, until: int, sooner: int, n: int, now: int)
    requires Available(disk, Some(l), until, n, now).None? && now < sooner
    ensures Available(disk, Some(l), sooner, n, now).None?
  {
    hide Held, LeaseCapacity;
  }

  lemma RoomyIsAffordable(terms: Terms, s: System, ids: seq<Id>, r: Request, paused: bool) returns (l: Lease)
    requires Core(terms, s) && Lists(s.disk.windows, ids) && Watched(s.disk, Readied(s, Flush).meter, ids) && Timely(s, r)
    requires Roomy(s.disk, Held(s.disk.windows, InPool(r.rule.id, r.upload)), r, s.now)
    requires s.disk.Slots() + |s.disk.windows| < MAX_PENDING && RuleFits(s, ids, r, paused)
    ensures Affordable(s.disk, Settlement(s.disk, Readied(s, Flush).meter, Flush, s.now, ids), r, l, paused, s.now)
  {
    hide Core, Available, Held, Settlement, Freeze, SettledBy, LeaseCapacity, Affordable, Foreseen;
    l :| l in r.rule.Leases() && Available(s.disk, Some(l), r.until, r.n, s.now).None?;
    AvailableEarlier(s.disk, l, r.until, Min(r.until, s.disk.config.validUntil), r.n, s.now);
    SettlementShrinks(terms, s, Flush, ids, InPool(r.rule.id, r.upload));
    SettlementShrinks(terms, s, Flush, ids, OfRule(r.rule.id));
    PlanIsAffordable(terms, s, ids, r, l, paused);
  }

  // ----- The state after rebalancing -----

  lemma RebalanceEmpties(terms: Terms, s: System, order: seq<Id>, r: Request, l: Lease)
    requires Core(terms, s) && Lists(s.disk.windows, order) && Watched(s.disk, Readied(s, Rebalance(r.rule.id)).meter, order)
    requires OwnLeases(s.disk.windows, r.rule) && l in r.rule.Leases()
    ensures var u := SettledBy(s, Rebalance(r.rule.id), order);
            NoneOf(u.disk.windows, r.rule.id) && NoWindowOn(u.disk.windows, l.id)
  {
    hide Core, SettledBy, Freeze;
    SettledWindows(terms, s, Rebalance(r.rule.id), order);
    assert l.id in Ids(r.rule.Leases());
  }

  lemma SettlementSurroundings(terms: Terms, s: System, trigger: Trigger, order: seq<Id>)
    requires Core(terms, s) && Lists(s.disk.windows, order) && Watched(s.disk, Readied(s, trigger).meter, order)
    ensures var u := SettledBy(s, trigger, order);
            && u.disk.retired == s.disk.retired && u.disk.config == s.disk.config && u.now == s.now
            && u.disk.leases.Keys == s.disk.leases.Keys
            && u.disk.Slots() <= s.disk.Slots() + |s.disk.windows| && |u.disk.windows| <= |s.disk.windows|
  {
    hide Core, Closes, Staged, PostAll, Settlement, Freeze, CreditBatch, Held, Foreseen;
    var t := Readied(s, trigger);
    var events := Settlement(s.disk, t.meter, trigger, s.now, order);
    SettlementIsStaged(terms, s, trigger, order);
    SettlementIsCreditBatch(terms, s, trigger, order);
    SettlementShrinks(terms, s, trigger, order, OfLease(s.disk.node));
    NoGrants(events);
    BatchOutcome(terms, t, events, s.disk.node);
    assert Ids([]) == {};
    SettledWindows(terms, s, trigger, order);
    var u := SettledBy(s, trigger, order);
    SubsetSize(u.disk.windows.Keys, s.disk.windows.Keys);
  }

  // With a free slot for every window a settlement reports all that was spent, so a second one finds nothing.

  lemma {:induction false} EverythingIsReported(disk: Disk, meter: map<Id, Live>, trigger: Trigger, now: int, ids: seq<Id>, room: int, id: Id)
    requires Watched(disk, meter, ids) && (forall x :: x in ids ==> disk.windows[x].id == x)
    requires |ids| <= room && id in ids && meter[id].used != disk.windows[id].confirmed
    ensures exists e :: e in ProgressEvents(disk, meter, trigger, now, ids, room) && e.Progress? && e.window.id == id
    decreases |ids|
  {
    WatchedTail(disk, meter, ids);
    hide Closes;
    var w, c := disk.windows[ids[0]], meter[ids[0]];
    var close := Closes(disk, trigger, w, c, now);
    var left := if close || c.used == w.confirmed || room <= 0 then room else room - 1;
    var rest := ProgressEvents(disk, meter, trigger, now, ids[1..], left);
    if ids[0] == id {
      assert SettleEvent(disk, w, c, close) in ProgressEvents(disk, meter, trigger, now, ids, room);
    } else {
      EverythingIsReported(disk, meter, trigger, now, ids[1..], left, id);
      var e :| e in rest && e.Progress? && e.window.id == id;
      assert e in ProgressEvents(disk, meter, trigger, now, ids, room);
    }
  }

  /** A window without an event had nothing to report. */
  lemma UntouchedIsReported(terms: Terms, s: System, trigger: Trigger, order: seq<Id>, id: Id)
    requires Core(terms, s) && Lists(s.disk.windows, order) && Watched(s.disk, Readied(s, trigger).meter, order)
    requires s.disk.Slots() + |s.disk.windows| <= MAX_PENDING && id in s.disk.windows
    requires forall e :: e in Settlement(s.disk, Readied(s, trigger).meter, trigger, s.now, order) ==> e.Progress? && e.window.id != id
    ensures id in Readied(s, trigger).meter && Readied(s, trigger).meter[id].used == s.disk.windows[id].confirmed
  {
    hide Core, Closes, Freeze, ProgressEvents;
    ListedSize(s.disk.windows, order);
    forall x | x in order ensures s.disk.windows[x].id == x { OpenWindow(terms, s, x); }
    if Readied(s, trigger).meter[id].used != s.disk.windows[id].confirmed {
      EverythingIsReported(s.disk, Readied(s, trigger).meter, trigger, s.now, order, MAX_PENDING - s.disk.Slots(), id);
    }
  }

  lemma SettledIsReported(terms: Terms, s: System, trigger: Trigger, order: seq<Id>, id: Id)
    requires Core(terms, s) && Lists(s.disk.windows, order) && Watched(s.disk, Readied(s, trigger).meter, order)
    requires s.disk.Slots() + |s.disk.windows| <= MAX_PENDING && id in SettledBy(s, trigger, order).disk.windows
    ensures id in s.meter && SettledBy(s, trigger, order).disk.windows[id].confirmed == s.meter[id].used
  {
    hide Core, Closes, Staged, PostAll, Freeze, CreditBatch, ProgressEvents, Lists, Watched;
    var t := Readied(s, trigger);
    var events := Settlement(s.disk, t.meter, trigger, s.now, order);
    SettlementIsStaged(terms, s, trigger, order);
    SettlementIsExact(terms, s, trigger, order);
    SettlementIsCreditBatch(terms, s, trigger, order);
    BatchIsDistinct(s.disk.windows, events);
    SettledWindows(terms, s, trigger, order);
    if exists e :: e in events && e.window.id == id {
      ProgressLands(terms, t, events, id);
    } else {
      UntouchedStays(terms, t, events, id);
      UntouchedIsReported(terms, s, trigger, order, id);
    }
  }

  lemma {:induction false} NothingToReport(disk: Disk, meter: map<Id, Live>, trigger: Trigger, now: int, ids: seq<Id>, room: int)
    requires Watched(disk, meter, ids)
    requires forall id :: id in ids ==> meter[id].used == disk.windows[id].confirmed && !Closes(disk, trigger, disk.windows[id], meter[id], now)
    ensures ProgressEvents(disk, meter, trigger, now, ids, room) == []
    decreases |ids|
  {
    if ids != [] {
      WatchedTail(disk, meter, ids);
      hide Closes;
      NothingToReport(disk, meter, trigger, now, ids[1..], room);
    }
  }

  lemma SurvivorStaysOpen(a: Disk, b: Disk, rule: Id, w: Window, x: Window, c: Live, d: Live, now: int)
    requires a.config == b.config && x.rule == w.rule && x.capacity == w.capacity && x.until == w.until && d.used == c.used && d.last == c.last
    requires !Closes(a, Rebalance(rule), w, c, now)
    ensures !Closes(b, Flush, x, d, now)
  {
  }

  lemma SettledNeedsNoReport(terms: Terms, s: System, rule: Id, order: seq<Id>, id: Id)
    requires Core(terms, s) && Lists(s.disk.windows, order) && Watched(s.disk, Readied(s, Rebalance(rule)).meter, order)
    requires s.disk.Slots() + |s.disk.windows| <= MAX_PENDING && id in SettledBy(s, Rebalance(rule), order).disk.windows
    ensures var m := SettledBy(s, Rebalance(rule), order);
            && id in m.meter && m.meter[id].used == m.disk.windows[id].confirmed
            && !Closes(m.disk, Flush, m.disk.windows[id], m.meter[id], m.now)
  {
    hide Core, Closes, SettledBy, Freeze, Kept, Surviving, Watched;
    var m := SettledBy(s, Rebalance(rule), order);
    SettledIsSurviving(terms, s, Rebalance(rule), order);
    SettledWindows(terms, s, Rebalance(rule), order);
    SettlementSurroundings(terms, s, Rebalance(rule), order);
    SettledIsReported(terms, s, Rebalance(rule), order, id);
    OpenWindow(terms, s, id);
    OpenWindow(terms, m, id);
    KeptFields(s.meter[id], m.meter[id]);
    SurvivorStaysOpen(s.disk, m.disk, rule, s.disk.windows[id], m.disk.windows[id], s.meter[id], m.meter[id], s.now);
  }

  /** After a rebalance with a free slot for every window a flush has nothing to do. */
  lemma SettledNeedsNothing(terms: Terms, s: System, rule: Id, order: seq<Id>, ids: seq<Id>)
    requires Core(terms, s) && Lists(s.disk.windows, order) && Watched(s.disk, Readied(s, Rebalance(rule)).meter, order)
    requires s.disk.Slots() + |s.disk.windows| <= MAX_PENDING
    requires var m := SettledBy(s, Rebalance(rule), order); Lists(m.disk.windows, ids) && Watched(m.disk, Readied(m, Flush).meter, ids)
    ensures var m := SettledBy(s, Rebalance(rule), order);
            Settlement(m.disk, Readied(m, Flush).meter, Flush, m.now, ids) == []
  {
    hide Core, Closes, PostAll, SettledBy, Freeze, ProgressEvents;
    var m := SettledBy(s, Rebalance(rule), order);
    var meter := Readied(m, Flush).meter;
    forall id | id in ids
      ensures meter[id].used == m.disk.windows[id].confirmed && !Closes(m.disk, Flush, m.disk.windows[id], meter[id], m.now)
    {
      SettledNeedsNoReport(terms, s, rule, order, id);
      FreezeLeavesOpen(m.disk, m.meter, Flush, m.now, id);
    }
    NothingToReport(m.disk, meter, Flush, m.now, ids, MAX_PENDING - m.disk.Slots());
  }

  lemma KeptFields(a: Live, b: Live)
    requires Kept(a, b)
    ensures b.used == a.used && b.last == a.last && b.window.rule == a.window.rule && b.window.capacity == a.window.capacity
    ensures b.window.until == a.window.until && b.closed == a.closed
  {
  }

  lemma RebalancedIsAffordable(terms: Terms, s: System, order: seq<Id>, ids: seq<Id>, r: Request, l: Lease, paused: bool)
    requires Core(terms, s) && Lists(s.disk.windows, order) && Watched(s.disk, Readied(s, Rebalance(r.rule.id)).meter, order)
    requires Timely(s, r) && OwnLeases(s.disk.windows, r.rule) && Funded(terms, s, r, l) && Headroom(s, r)
    requires var m := SettledBy(s, Rebalance(r.rule.id), order);
             Lists(m.disk.windows, ids) && Watched(m.disk, Readied(m, Flush).meter, ids)
    ensures var m := SettledBy(s, Rebalance(r.rule.id), order);
            && Core(terms, m) && Timely(m, r)
            && Affordable(m.disk, Settlement(m.disk, Readied(m, Flush).meter, Flush, m.now, ids), r, l, paused, m.now)
  {
    hide Core, Available, Held, Settlement, Freeze, SettledBy, Closes, LeaseCapacity, Affordable, Unsettled, OwnLeases, Foreseen, Watched, NoneOf, NoWindowOn;
    var m := SettledBy(s, Rebalance(r.rule.id), order);
    SettledWindows(terms, s, Rebalance(r.rule.id), order);
    RebalanceEmpties(terms, s, order, r, l);
    RebalanceConserves(terms, s, Rebalance(r.rule.id), order, l.id);
    SettlementSurroundings(terms, s, Rebalance(r.rule.id), order);
    SettlementShrinks(terms, s, Rebalance(r.rule.id), order, OfOwner(r.rule.Owner()));
    UsedIsNatural(terms, m, l.id);
    CapacityStays(s.disk, m.disk, l);
    SettledNeedsNothing(terms, s, r.rule.id, order, ids);
    EmptyRuleIsAffordable(terms, m, ids, r, l, paused);
  }

  lemma CapacityStays(a: Disk, b: Disk, l: Lease)
    requires a.leases.Keys == b.leases.Keys && LeaseCapacity(a, [l])
    ensures LeaseCapacity(b, [l])
  {
  }

  // ----- One pass -----

  /** The planner's decision on the request. */
  ghost function Verdict(m: System, ids: seq<Id>, r: Request, paused: bool, id: Id): Decision
    requires Watched(m.disk, Readied(m, Flush).meter, ids)
  {
    Decide(m.disk, Settlement(m.disk, Readied(m, Flush).meter, Flush, m.now, ids), r, paused, m.now, id)
  }

  /** The state once the settlement and, if granted, the reservation have been applied. */
  ghost function Passed(m: System, ids: seq<Id>, r: Request, paused: bool, id: Id): System
    requires Watched(m.disk, Readied(m, Flush).meter, ids)
  {
    PostAll(Readied(m, Flush),
            Reservations(m.disk, Settlement(m.disk, Readied(m, Flush).meter, Flush, m.now, ids), [r], paused, m.now, [id]))
  }

  lemma OneReservation(disk: Disk, staged: seq<Event>, r: Request, paused: bool, now: int, id: Id)
    ensures var d := Decide(disk, staged, r, paused, now, id);
            Reservations(disk, staged, [r], paused, now, [id]) == if d.Granted? then staged + [d.event] else staged
  {
    hide Decide;
    assert [r][1..] == [] && [id][1..] == [];
  }

  lemma PassSettles(terms: Terms, m: System, ids: seq<Id>, r: Request, paused: bool, id: Id)
    requires Core(terms, m) && Lists(m.disk.windows, ids) && Watched(m.disk, Readied(m, Flush).meter, ids)
    ensures var u, d := SettledBy(m, Flush, ids), Verdict(m, ids, r, paused, id);
            Passed(m, ids, r, paused, id) == if d.Granted? then Post(u, d.event) else u
  {
    hide Core, Decide, PostAll, Settlement, Freeze, Post;
    var t := Readied(m, Flush);
    var progress := Settlement(m.disk, t.meter, Flush, m.now, ids);
    OneReservation(m.disk, progress, r, paused, m.now, id);
    var d := Verdict(m, ids, r, paused, id);
    if d.Granted? {
      PostAllSnoc(t, progress, d.event);
    }
  }

  lemma SpareIsNatural(terms: Terms, s: System, q: Measure)
    requires Core(terms, s) && q.Way?
    ensures 0 <= Spare(s.meter, q)
  {
    hide Core;
    KeysAgree(terms, s);
    forall id | id in s.meter ensures 0 <= SpareBy(q)(s.meter[id]) { OpenWindow(terms, s, id); }
    SumNonNegative(s.meter, SpareBy(q));
  }

  /** What is on hand after the pass: what survived, and the new window. */
  lemma PassOnHand(terms: Terms, m: System, ids: seq<Id>, r: Request, paused: bool, id: Id)
    requires Core(terms, m) && Lists(m.disk.windows, ids) && Watched(m.disk, Readied(m, Flush).meter, ids) && 0 < m.now
    requires id !in m.issued && m.disk.config.present && Current(m.disk.config.rules, r.rule) == Some(r.rule)
    ensures var q, d, out := Way(r.rule.id, r.upload), Verdict(m, ids, r, paused, id), Passed(m, ids, r, paused, id);
            && 0 <= Spare(Surviving(m, Flush), q)
            && OnHand(out.meter, r.rule.id, r.upload)
               == Spare(Surviving(m, Flush), q) + (if d.Granted? then d.event.window.capacity else 0)
            && (d.Granted? && 0 < r.n ==> r.n <= d.event.window.capacity)
            && (Unfrozen(m.meter) ==> Unfrozen(out.meter))
  {
    hide *;
    var q, d, u := Way(r.rule.id, r.upload), Verdict(m, ids, r, paused, id), SettledBy(m, Flush, ids);
    SettledIsSurviving(terms, m, Flush, ids);
    SurvivingSpare(m, u, Flush, q);
    SpareIsNatural(terms, u, q);
    PassSettles(terms, m, ids, r, paused, id);
    OnHandIs(Passed(m, ids, r, paused, id).meter, r.rule.id, r.upload);
    if d.Granted? {
      GrantedFacts(terms, m, ids, r, paused, id);
      FreshWindowAdds(u, d.event, q);
    }
  }

  lemma OnHandIs(meter: map<Id, Live>, rule: Id, up: bool)
    ensures OnHand(meter, rule, up) == Spare(meter, Way(rule, up))
  {
  }

  lemma GrantedFacts(terms: Terms, m: System, ids: seq<Id>, r: Request, paused: bool, id: Id)
    requires Core(terms, m) && Lists(m.disk.windows, ids) && Watched(m.disk, Readied(m, Flush).meter, ids) && 0 < m.now
    requires id !in m.issued && m.disk.config.present && Current(m.disk.config.rules, r.rule) == Some(r.rule)
    requires Verdict(m, ids, r, paused, id).Granted?
    ensures var e := Verdict(m, ids, r, paused, id).event;
            && e.Reserve? && e.window.id !in SettledBy(m, Flush, ids).meter
            && e.window.rule == r.rule.id && e.window.upload == r.upload && (0 < r.n ==> r.n <= e.window.capacity)
  {
    hide Core, Decide, Settlement, Freeze, Closes, SettledBy, Held, Foreseen, LeaseCapacity, Current, Kept;
    var progress := Settlement(m.disk, Readied(m, Flush).meter, Flush, m.now, ids);
    GrantIsSized(m.disk, progress, r, paused, m.now, id);
    GrantedFrom(m.disk, progress, r, paused, m.now, id);
    IdIsFresh(terms, m, id);
    SettledIsSurviving(terms, m, Flush, ids);
  }

  lemma FreshWindowAdds(u: System, e: Event, q: Measure)
    requires e.Reserve? && e.window.id !in u.meter && q == Way(e.window.rule, e.window.upload)
    ensures Spare(Post(u, e).meter, q) == Spare(u.meter, q) + e.window.capacity
    ensures Unfrozen(u.meter) ==> Unfrozen(Post(u, e).meter)
  {
    SumPut(u.meter, SpareBy(q), e.window.id, Live(e.window, 0, e.window.startedAt, false));
  }

  // ----- A shortage is always met -----

  lemma SumZeroEach<K, V>(m: map<K, V>, f: V -> int, k: K)
    requires k in m && Sum(m, f) == 0 && forall x :: x in m ==> 0 <= f(m[x])
    ensures f(m[k]) == 0
  {
    SumRemove(m, f, k);
    SumNonNegative(m - {k}, f);
  }

  lemma NoPoolNoWindows(windows: map<Id, Window>, rule: Id)
    requires Held(windows, InPool(rule, true)) == 0 && Held(windows, InPool(rule, false)) == 0
    ensures NoneOf(windows, rule)
  {
    forall id | id in windows ensures windows[id].rule != rule {
      SumZeroEach(windows, By(InPool(rule, windows[id].upload)), id);
    }
  }

  lemma PoolIsNatural(windows: map<Id, Window>, rule: Id, up: bool)
    ensures 0 <= Held(windows, InPool(rule, up))
  {
    SumNonNegative(windows, By(InPool(rule, up)));
  }

  lemma NoSpareIsFull(terms: Terms, s: System, rule: Id)
    requires Core(terms, s) && OnHand(s.meter, rule, true) == 0 && OnHand(s.meter, rule, false) == 0
    ensures AllFull(s, rule)
  {
    hide Core;
    KeysAgree(terms, s);
    forall id | id in s.meter && s.meter[id].window.rule == rule ensures s.meter[id].used == s.meter[id].window.capacity {
      var q := Way(rule, s.meter[id].window.upload);
      forall x | x in s.meter ensures 0 <= SpareBy(q)(s.meter[x]) { OpenWindow(terms, s, x); }
      SumZeroEach(s.meter, SpareBy(q), id);
    }
  }

  /** If the direction holds less than the request and the rule's limit has room, the planner can pay: after rebalancing if it must. */
  lemma ShortageIsAffordable(terms: Terms, s: System, order: seq<Id>, ids: seq<Id>, r: Request, l: Lease, paused: bool)
    returns (payer: Lease)
    requires Core(terms, s) && Unfrozen(s.meter) && Lists(s.disk.windows, order)
    requires Watched(s.disk, Readied(s, Rebalance(r.rule.id)).meter, order)
    requires var m := Rebalanced(s, order, r); Lists(m.disk.windows, ids) && Watched(m.disk, Readied(m, Flush).meter, ids)
    requires Timely(s, r) && OwnLeases(s.disk.windows, r.rule) && Funded(terms, s, r, l) && Headroom(s, r)
    requires OnHand(s.meter, r.rule.id, r.upload) < r.n && RuleFits(Rebalanced(s, order, r), ids, r, paused)
    ensures var m := Rebalanced(s, order, r);
            && Core(terms, m) && Timely(m, r)
            && Affordable(m.disk, Settlement(m.disk, Readied(m, Flush).meter, Flush, m.now, ids), r, payer, paused, m.now)
  {
    hide Core, Held, Settlement, Freeze, SettledBy, LeaseCapacity, Affordable, Roomy, Unsettled, Watched, OnHand, PoolSpare, PoolSize, RuleFits;
    payer := l;
    PoolTotals(terms, s, order, r.rule.id, true);
    PoolTotals(terms, s, order, r.rule.id, false);
    PoolIsNatural(s.disk.windows, r.rule.id, true);
    PoolIsNatural(s.disk.windows, r.rule.id, false);
    var size, other := PoolSize(s.meter, order, r.rule.id, r.upload), PoolSize(s.meter, order, r.rule.id, !r.upload);
    if Unbalanced(s.disk, s.meter, order, r, s.now) {
      RebalancedIsAffordable(terms, s, order, ids, r, l, paused);
    } else if size == 0 && other == 0 {
      EmptyCase(terms, s, ids, r, l, paused);
    } else if OnHand(s.meter, r.rule.id, r.upload) + OnHand(s.meter, r.rule.id, !r.upload) == 0 {
      SpareIsOnHand(terms, s, r.rule.id);
      NoSpareIsFull(terms, s, r.rule.id);
      FullRuleIsAffordable(terms, s, ids, r, l, paused);
    } else {
      payer := RoomyIsAffordable(terms, s, ids, r, paused);
    }
  }

  /** Windows of the size that a paused planner gives out. */
  ghost predicate SmallRule(windows: map<Id, Window>, rule: Id) {
    forall id :: id in windows && windows[id].rule == rule ==> windows[id].capacity <= WINDOW_SIZE
  }

  lemma {:induction false} SmallRuleIsBounded(windows: map<Id, Window>, rule: Id)
    requires SmallRule(windows, rule) && forall id :: id in windows ==> WindowShape(windows[id])
    ensures Held(windows, OfRule(rule)) <= WINDOW_SIZE * (Held(windows, InPool(rule, true)) + Held(windows, InPool(rule, false)))
    decreases |windows|
  {
    if windows == map[] {
      SumUnfolds(windows, By(OfRule(rule)));
      SumUnfolds(windows, By(InPool(rule, true)));
      SumUnfolds(windows, By(InPool(rule, false)));
    } else {
      hide Held;
      var id :| id in windows;
      HeldDrop(windows, OfRule(rule), id);
      HeldDrop(windows, InPool(rule, true), id);
      HeldDrop(windows, InPool(rule, false), id);
      SmallRuleIsBounded(windows - {id}, rule);
    }
  }

  lemma PoolsAreCapped(terms: Terms, s: System, rule: Id, up: bool)
    requires Core(terms, s)
    ensures Held(s.disk.windows, InPool(rule, up)) <= 2
  {
    hide PendingOk, LeasesOk, BudgetsOk, ConfigOk, WindowsOk, Held, MeterOk, IssuedOk, HistoryOk, BilledOk, ForgottenOk, AdmittedOk;
    assert InPool(rule, up).Bounded() && Cap(InPool(rule, up)) == 2;
  }

  lemma NoneOfFits(terms: Terms, s: System, ids: seq<Id>, r: Request, paused: bool)
    requires Core(terms, s) && Lists(s.disk.windows, ids) && Watched(s.disk, Readied(s, Flush).meter, ids)
    requires r.n <= WINDOW_SIZE && (NoneOf(s.disk.windows, r.rule.id) || AllFull(s, r.rule.id))
    ensures RuleFits(s, ids, r, paused)
  {
    hide Core, SettledBy, Freeze, Held, Closes, AllFull;
    if AllFull(s, r.rule.id) {
      FullRuleCloses(terms, s, ids, r.rule.id);
    } else {
      SettledWindows(terms, s, Flush, ids);
    }
    NoneOfHeld(SettledBy(s, Flush, ids).disk.windows, r.rule.id, r.upload);
  }

  lemma RoomyFits(terms: Terms, s: System, ids: seq<Id>, r: Request, paused: bool)
    requires Core(terms, s) && Lists(s.disk.windows, ids) && Watched(s.disk, Readied(s, Flush).meter, ids)
    requires r.n <= WINDOW_SIZE && Roomy(s.disk, Held(s.disk.windows, InPool(r.rule.id, r.upload)), r, s.now)
    requires paused && r.rule.tcp ==> SmallRule(s.disk.windows, r.rule.id)
    ensures RuleFits(s, ids, r, paused)
  {
    hide Core, SettledBy, Freeze, Held, Available, Foreseen, Settlement;
    SettlementShrinks(terms, s, Flush, ids, OfRule(r.rule.id));
    if paused && r.rule.tcp {
      forall id | id in s.disk.windows ensures WindowShape(s.disk.windows[id]) { OpenWindow(terms, s, id); }
      SmallRuleIsBounded(s.disk.windows, r.rule.id);
      PoolsAreCapped(terms, s, r.rule.id, true);
      PoolsAreCapped(terms, s, r.rule.id, false);
    }
  }

  /**
   * In a shortage the rule's limit always has room: the writer takes the rule's credit back first if it must. While TCP
   * growth is paused this needs the rule's windows to be of the size that a paused planner gives out.
   */
  lemma ShortageFits(terms: Terms, s: System, order: seq<Id>, ids: seq<Id>, r: Request, paused: bool)
    requires Core(terms, s) && Unfrozen(s.meter) && Lists(s.disk.windows, order) && 0 < r.n <= WINDOW_SIZE
    requires Watched(s.disk, Readied(s, Rebalance(r.rule.id)).meter, order)
    requires var m := Rebalanced(s, order, r); Lists(m.disk.windows, ids) && Watched(m.disk, Readied(m, Flush).meter, ids)
    requires OnHand(s.meter, r.rule.id, r.upload) < r.n
    requires paused && r.rule.tcp ==> SmallRule(s.disk.windows, r.rule.id)
    ensures RuleFits(Rebalanced(s, order, r), ids, r, paused)
  {
    hide Core, Held, Settlement, Freeze, SettledBy, Roomy, Watched, OnHand, PoolSpare, PoolSize, RuleFits, Closes;
    PoolTotals(terms, s, order, r.rule.id, true);
    PoolTotals(terms, s, order, r.rule.id, false);
    PoolIsNatural(s.disk.windows, r.rule.id, true);
    PoolIsNatural(s.disk.windows, r.rule.id, false);
    var size, other := PoolSize(s.meter, order, r.rule.id, r.upload), PoolSize(s.meter, order, r.rule.id, !r.upload);
    if Unbalanced(s.disk, s.meter, order, r, s.now) {
      RebalanceClears(terms, s, order, r.rule.id);
      NoneOfFits(terms, SettledBy(s, Rebalance(r.rule.id), order), ids, r, paused);
    } else if size == 0 && other == 0 {
      NoPoolNoWindows(s.disk.windows, r.rule.id);
      NoneOfFits(terms, s, ids, r, paused);
    } else if OnHand(s.meter, r.rule.id, r.upload) + OnHand(s.meter, r.rule.id, !r.upload) == 0 {
      SpareIsOnHand(terms, s, r.rule.id);
      NoSpareIsFull(terms, s, r.rule.id);
      NoneOfFits(terms, s, ids, r, paused);
    } else {
      RoomyFits(terms, s, ids, r, paused);
    }
  }

  lemma RebalanceClears(terms: Terms, s: System, order: seq<Id>, rule: Id)
    requires Core(terms, s) && Lists(s.disk.windows, order) && Watched(s.disk, Readied(s, Rebalance(rule)).meter, order)
    ensures Core(terms, SettledBy(s, Rebalance(rule), order)) && NoneOf(SettledBy(s, Rebalance(rule), order).disk.windows, rule)
  {
    hide Core, SettledBy, Freeze;
    SettledWindows(terms, s, Rebalance(rule), order);
  }

  lemma SpareIsOnHand(terms: Terms, s: System, rule: Id)
    requires Core(terms, s)
    ensures 0 <= OnHand(s.meter, rule, true) && 0 <= OnHand(s.meter, rule, false)
  {
    hide Core;
    SpareIsNatural(terms, s, Way(rule, true));
    SpareIsNatural(terms, s, Way(rule, false));
  }

  lemma EmptyCase(terms: Terms, s: System, ids: seq<Id>, r: Request, l: Lease, paused: bool)
    requires Core(terms, s) && Lists(s.disk.windows, ids) && Watched(s.disk, Readied(s, Flush).meter, ids)
    requires Timely(s, r) && OwnLeases(s.disk.windows, r.rule) && Funded(terms, s, r, l) && Headroom(s, r)
    requires Held(s.disk.windows, InPool(r.rule.id, true)) == 0 && Held(s.disk.windows, InPool(r.rule.id, false)) == 0
    ensures Affordable(s.disk, Settlement(s.disk, Readied(s, Flush).meter, Flush, s.now, ids), r, l, paused, s.now)
  {
    hide Core, Held, Settlement, Freeze, LeaseCapacity, Affordable, Unsettled, Foreseen;
    NoPoolNoWindows(s.disk.windows, r.rule.id);
    UsedIsNatural(terms, s, l.id);
    assert l.id in Ids(r.rule.Leases());
    SettlementShrinks(terms, s, Flush, ids, OfRule(r.rule.id));
    EmptyRuleIsAffordable(terms, s, ids, r, l, paused);
  }

  /**
   * Credit is not stranded. For a timely request that fits the unspent bytes of a lease of its rule, with account and
   * spool headroom, the direction holds enough after one pass unless it already held enough in windows that this very
   * pass closes as idle or expired, what survives is too little, and no lease can pay for a new window while the old
   * ones still count against it.
   */
  lemma NoStrandedCredit(terms: Terms, s: System, order: seq<Id>, ids: seq<Id>, r: Request, l: Lease, paused: bool, id: Id)
    requires Core(terms, s) && Unfrozen(s.meter) && 0 < s.now && id !in s.issued && Lists(s.disk.windows, order)
    requires Watched(s.disk, Readied(s, Rebalance(r.rule.id)).meter, order)
    requires var m := Rebalanced(s, order, r);
             Lists(m.disk.windows, ids) && Watched(m.disk, Readied(m, Flush).meter, ids) && 0 < m.now && id !in m.issued
    requires Timely(s, r) && OwnLeases(s.disk.windows, r.rule) && Funded(terms, s, r, l) && Headroom(s, r)
    ensures var m := Rebalanced(s, order, r);
            r.n <= OnHand(Passed(m, ids, r, paused, id).meter, r.rule.id, r.upload)
            <==> || (OnHand(s.meter, r.rule.id, r.upload) < r.n && RuleFits(m, ids, r, paused))
                 || r.n <= Spare(Surviving(m, Flush), Way(r.rule.id, r.upload))
                 || exists payer :: Affordable(m.disk, Settlement(m.disk, Readied(m, Flush).meter, Flush, m.now, ids), r, payer, paused, m.now)
  {
    hide Core, Settlement, Freeze, SettledBy, Surviving, Unsettled, Watched, OnHand, PoolSpare, Rebalanced, Affordable, Headroom, Funded, OwnLeases, Decide, CreditBatch, RuleFits;
    var m := Rebalanced(s, order, r);
    var progress := Settlement(m.disk, Readied(m, Flush).meter, Flush, m.now, ids);
    if OnHand(s.meter, r.rule.id, r.upload) >= r.n {
      EnoughIsNotRebalanced(terms, s, order, r);
    } else {
      RebalancedKeeps(terms, s, order, r);
    }
    if OnHand(s.meter, r.rule.id, r.upload) < r.n && RuleFits(m, ids, r, paused) {
      var payer := ShortageIsAffordable(terms, s, order, ids, r, l, paused);
      assert exists x :: Affordable(m.disk, progress, r, x, paused, m.now);
    }
    SettlementIsCreditBatch(terms, m, Flush, ids);
    GrantedIffAffordable(m.disk, progress, r, paused, m.now, id);
    PassOnHand(terms, m, ids, r, paused, id);
  }

  lemma RebalancedKeeps(terms: Terms, s: System, order: seq<Id>, r: Request)
    requires Core(terms, s) && Lists(s.disk.windows, order) && Watched(s.disk, Readied(s, Rebalance(r.rule.id)).meter, order)
    ensures Core(terms, Rebalanced(s, order, r)) && Rebalanced(s, order, r).disk.config == s.disk.config && Rebalanced(s, order, r).now == s.now
  {
    hide Core, SettledBy, Freeze, Unbalanced;
    SettledWindows(terms, s, Rebalance(r.rule.id), order);
    SettlementSurroundings(terms, s, Rebalance(r.rule.id), order);
  }

  lemma EnoughIsNotRebalanced(terms: Terms, s: System, order: seq<Id>, r: Request)
    requires Core(terms, s) && Unfrozen(s.meter) && Lists(s.disk.windows, order)
    requires Watched(s.disk, Readied(s, Rebalance(r.rule.id)).meter, order) && r.n <= OnHand(s.meter, r.rule.id, r.upload)
    ensures Rebalanced(s, order, r) == s
  {
    hide Core, Freeze, SettledBy, Roomy, OnHand;
    PoolTotals(terms, s, order, r.rule.id, r.upload);
  }

  /** With no idle or expired window in the direction nothing that is on hand is lost. */
  lemma FreshCreditStays(terms: Terms, s: System, rule: Id, up: bool)
    requires Core(terms, s)
    requires forall id :: id in s.meter && s.meter[id].window.rule == rule && s.meter[id].window.upload == up ==>
               !Idle(s.disk, s.meter[id].window, s.meter[id], s.now) && s.now < s.meter[id].window.until
    ensures Spare(Surviving(s, Flush), Way(rule, up)) == OnHand(s.meter, rule, up)
  {
    hide Core, Idle;
    KeysAgree(terms, s);
    var lost := s.meter - Surviving(s, Flush).Keys;
    forall id | id in lost ensures SpareBy(Way(rule, up))(lost[id]) == 0 { OpenWindow(terms, s, id); }
    SumZero(lost, SpareBy(Way(rule, up)));
    hide Closes;
    SumParts(s.meter, Surviving(s, Flush), SpareBy(Way(rule, up)));
  }

  lemma SurvivingIsLess(terms: Terms, s: System, rule: Id, up: bool)
    requires Core(terms, s)
    ensures Spare(Surviving(s, Flush), Way(rule, up)) <= OnHand(s.meter, rule, up)
  {
    hide Core, Closes;
    KeysAgree(terms, s);
    var lost := s.meter - Surviving(s, Flush).Keys;
    forall id | id in lost ensures 0 <= SpareBy(Way(rule, up))(lost[id]) { OpenWindow(terms, s, id); }
    SumNonNegative(lost, SpareBy(Way(rule, up)));
    SumParts(s.meter, Surviving(s, Flush), SpareBy(Way(rule, up)));
  }

  /**
   * What the store can rely on: for a timely request that fits the unspent bytes of a lease of its rule, with account and
   * spool headroom and no idle or expired window in the direction, one pass leaves enough on hand, paused or not.
   */
  lemma CreditIsSupplied(terms: Terms, s: System, order: seq<Id>, ids: seq<Id>, r: Request, l: Lease, paused: bool, id: Id)
    requires Core(terms, s) && Tame(paused, s) && 0 < s.now && id !in s.issued && Lists(s.disk.windows, order)
    requires Watched(s.disk, Readied(s, Rebalance(r.rule.id)).meter, order)
    requires var m := Rebalanced(s, order, r);
             Lists(m.disk.windows, ids) && Watched(m.disk, Readied(m, Flush).meter, ids) && 0 < m.now && id !in m.issued
    requires Timely(s, r) && OwnLeases(s.disk.windows, r.rule) && Funded(terms, s, r, l) && Headroom(s, r)
    requires forall x :: x in s.meter && s.meter[x].window.rule == r.rule.id && s.meter[x].window.upload == r.upload ==>
               !Idle(s.disk, s.meter[x].window, s.meter[x], s.now) && s.now < s.meter[x].window.until
    ensures r.n <= OnHand(Passed(Rebalanced(s, order, r), ids, r, paused, id).meter, r.rule.id, r.upload)
  {
    hide Core, Freeze, Surviving, Watched, OnHand, Rebalanced, Headroom, Funded, OwnLeases, RuleFits, Passed, Idle, Affordable, Settlement, Spare;
    NoStrandedCredit(terms, s, order, ids, r, l, paused, id);
    if OnHand(s.meter, r.rule.id, r.upload) < r.n {
      ShortageFits(terms, s, order, ids, r, paused);
    } else {
      EnoughIsNotRebalanced(terms, s, order, r);
      FreshCreditStays(terms, s, r.rule.id, r.upload);
    }
  }

  lemma {:induction false} SumParts<K, V>(m: map<K, V>, part: map<K, V>, f: V -> int)
    requires part.Keys <= m.Keys && forall k :: k in part ==> part[k] == m[k]
    ensures Sum(m, f) == Sum(part, f) + Sum(m - part.Keys, f)
    decreases |part|
  {
    if part == map[] {
      assert m - part.Keys == m;
      SumUnfolds(part, f);
    } else {
      var k :| k in part;
      SumParts(m - {k}, part - {k}, f);
      SumRemove(m, f, k);
      SumRemove(part, f, k);
      assert m - {k} - (part - {k}).Keys == m - part.Keys;
    }
  }
}
