/**
 * Windows stay with the rule and the owner that they were opened for, so what the writer supplies is what the fast path
 * can spend.
 */
module AgentHousing {
  import opened AgentTypes
  import opened AgentState
  import opened AgentSystem
  import opened AgentRuns
  import opened AgentPlanner
  import opened AgentBatches
  import opened AgentRecovery
  import opened AgentSettling
  import opened AgentOrder
  import opened AgentOutcomes
  import opened AgentSizing
  import opened AgentStore
  import AgentFastPath
  import AgentSupply
  import opened Sums

  /** The rule that each lease was granted for. */
  type Homes = Id -> Id

  /** Rules have different names, and each lease is named under the rule that it was granted for. */
  ghost predicate Tidy(home: Homes, c: Config) {
    && (forall i, j :: 0 <= i < j < |c.rules| ==> c.rules[i].id != c.rules[j].id)
    && (forall r, l :: r in c.rules && l in r.Leases() ==> home(l.id) == r.id)
    && (!c.present ==> c.rules == [])
  }

  /** The window belongs to a configured rule, is on one of its leases and counts against its owner. */
  ghost predicate At(home: Homes, c: Config, w: Window) {
    && home(w.lease) == w.rule
    && (c.present ==> exists o, l :: o in c.rules && o.id == w.rule && o.Owner() == w.owner && l in o.Leases() && l.id == w.lease)
  }

  ghost predicate Housed(home: Homes, d: Disk) {
    Tidy(home, d.config) && forall id :: id in d.windows ==> At(home, d.config, d.windows[id])
  }

  lemma SameRule(c: Config, home: Homes, a: Rule, b: Rule)
    requires Tidy(home, c) && a in c.rules && b in c.rules && a.id == b.id
    ensures a == b
  {
  }

  // ----- Every job keeps the windows housed -----

  lemma SettledKeepsHoused(home: Homes, s: System, trigger: Trigger, windows: map<Id, Window>, meter: map<Id, Live>)
    requires Housed(home, s.disk) && Settles(s, trigger, windows, meter)
    ensures forall id :: id in windows ==> At(home, s.disk.config, windows[id])
  {
    hide Meant, Worn, Tidy;
  }

  /** A window that a new configuration leaves open belongs to the same rule there, with the same owner. */
  lemma CarriedIsAt(home: Homes, was: Config, now: Config, w: Window)
    requires Tidy(home, was) && Tidy(home, now) && At(home, was, w) && Carried(was, now, w)
    ensures At(home, now, w)
  {
    var r, o, l :| && r in now.rules && r.enabled && (r.tcp || r.udpCredit) && r.lease.Some?
                   && l in r.Leases() && l.id == w.lease && o in was.rules && o.id == r.id && o.SameForwarding(r);
    assert home(l.id) == r.id;
    var x, y :| x in was.rules && x.id == w.rule && x.Owner() == w.owner && y in x.Leases() && y.id == w.lease;
    SameRule(was, home, x, o);
    assert r.user == o.user;
  }

  lemma AdoptedKeepsHoused(home: Homes, s: System, u: System, c: Config)
    requires Housed(home, s.disk) && Adopted(s, u, c) && Tidy(home, c)
    ensures Housed(home, u.disk)
  {
    hide Accounted, Records, Tidy, At, Carried, Worn, Names, Uses;
    forall id | id in u.disk.windows ensures At(home, c, u.disk.windows[id]) {
      CarriedIsAt(home, s.disk.config, c, s.disk.windows[id]);
      AtIgnores(home, c, s.disk.windows[id], u.disk.windows[id]);
    }
  }

  lemma AtIgnores(home: Homes, c: Config, v: Window, w: Window)
    requires At(home, c, v) && w.rule == v.rule && w.lease == v.lease && w.owner == v.owner
    ensures At(home, c, w)
  {
  }

  lemma FlushedKeepsHoused(home: Homes, s: System, u: System, trigger: Trigger)
    requires Housed(home, s.disk) && Flushed(s, u, trigger)
    ensures Housed(home, u.disk)
  {
    hide Accounted, Records, Tidy, At, Settles;
    SettledKeepsHoused(home, s, trigger, u.disk.windows, u.meter);
  }

  lemma HaltedKeepsHoused(home: Homes, s: System, u: System, l: Id)
    requires Housed(home, s.disk) && Halted(s, u, l)
    ensures Housed(home, u.disk)
  {
    hide Accounted, Records, Tidy, At, Settles;
    SettledKeepsHoused(home, s, Retiring(l), u.disk.windows, u.meter);
  }

  /** A granted window is housed, and it ends later than now. */
  lemma GrantIsHoused(home: Homes, disk: Disk, staged: seq<Event>, r: Request, paused: bool, now: int, id: Id)
    requires Tidy(home, disk.config) && (!disk.config.present ==> forall l :: l in r.rule.Leases() ==> home(l.id) == r.rule.id)
    requires Decide(disk, staged, r, paused, now, id).Granted?
    ensures var e := Decide(disk, staged, r, paused, now, id).event;
            e.Reserve? && At(home, disk.config, e.window) && now < e.window.until
  {
    hide Decide, Foreseen, Held, LeaseCapacity, Available, Funding, AgentSizing.Fits, CanPay, ReservedFor, Grants, Current, Serves;
    GrantIsMade(disk, staged, r, paused, now, id);
    DecisionIsDue(disk, staged, r, paused, now, id);
    ResolvedIsJudged(disk, r);
    var (rule, until) := Resolved(disk, r).value;
    var e := Decide(disk, staged, r, paused, now, id).event;
    FundingIsOffered(disk, rule.lease, rule.Leases(), until, staged, r.n, now);
    assert rule.lease.Some? ==> rule.Leases()[0] == rule.lease.value;
    assert e.grant in rule.Leases();
    AvailableNeedsLease(disk, Some(e.grant), until, 0, now);
  }

  lemma {:induction false} ReservationsAreHoused(home: Homes, disk: Disk, staged: seq<Event>, requests: seq<Request>, paused: bool, now: int, ids: seq<Id>)
    requires |requests| <= |ids| && Tidy(home, disk.config)
    requires !disk.config.present ==> forall r, l :: r in requests && l in r.rule.Leases() ==> home(l.id) == r.rule.id
    requires forall e :: e in staged ==> e.Progress? || (e.Reserve? && At(home, disk.config, e.window))
    ensures forall e :: e in Reservations(disk, staged, requests, paused, now, ids) ==> e.Progress? || (e.Reserve? && At(home, disk.config, e.window))
    decreases |requests|
  {
    hide Decide, Tidy, At;
    if requests != [] {
      assert requests[0] in requests;
      var d := Decide(disk, staged, requests[0], paused, now, ids[0]);
      if d.Granted? {
        GrantIsHoused(home, disk, staged, requests[0], paused, now, ids[0]);
      }
      ReservationsAreHoused(home, disk, if d.Granted? then staged + [d.event] else staged, requests[1..], paused, now, ids[1..]);
    }
  }

  lemma {:induction false} EventsKeepHoused(home: Homes, terms: Terms, s: System, events: seq<Event>)
    requires Housed(home, s.disk) && Staged(terms, s, events)
    requires forall e :: e in events ==> e.Progress? || (e.Reserve? && At(home, s.disk.config, e.window))
    ensures Housed(home, PostAll(s, events).disk)
    decreases |events|
  {
    hide Ready, Tidy, Staged, PostAll, Post;
    if events == [] {
      NoSurroundings(s);
    } else {
      assert events[0] in events;
      StagedTail(terms, s, events);
      EventKeepsHoused(home, terms, s, events[0]);
      EventsKeepHoused(home, terms, Post(s, events[0]), events[1..]);
    }
  }

  lemma EventKeepsHoused(home: Homes, terms: Terms, s: System, e: Event)
    requires Housed(home, s.disk) && Ready(terms, s, e) && (e.Progress? || (e.Reserve? && At(home, s.disk.config, e.window)))
    ensures Housed(home, Post(s, e).disk) && Post(s, e).disk.config == s.disk.config
  {
    hide Tidy, At, Ready;
    if e.Progress? {
      ProgressKeepsFields(terms, s, e);
      AtIgnores(home, s.disk.config, s.disk.windows[e.window.id], e.window);
    }
  }

  lemma ProgressKeepsFields(terms: Terms, s: System, e: Event)
    requires Ready(terms, s, e) && e.Progress?
    ensures e.window.id in s.disk.windows
    ensures var w := s.disk.windows[e.window.id]; e.window.rule == w.rule && e.window.lease == w.lease && e.window.owner == w.owner
  {
  }

  lemma {:induction false} RebalancingKeepsHoused(home: Homes, terms: Terms, s: System, order: seq<Id>, requests: seq<Request>)
    requires Core(terms, s) && Lists(s.disk.windows, order) && Aged(s.disk.windows, order) && s.inflight == [] && Housed(home, s.disk)
    ensures var (t, ids) := RebalanceEach(s, order, requests);
            && Core(terms, t) && Lists(t.disk.windows, ids) && Aged(t.disk.windows, ids) && t.inflight == [] && Housed(home, t.disk)
            && t.now == s.now && t.disk.config == s.disk.config
  {
    hide Core, Lists, Aged, Housed, RebalanceOne;
    if requests != [] {
      RebalancingKeepsHoused(home, terms, s, order, requests[..|requests| - 1]);
      var (t, ids) := RebalanceEach(s, order, requests[..|requests| - 1]);
      OneRebalance(home, terms, t, ids, requests[|requests| - 1]);
    }
  }

  lemma OneRebalance(home: Homes, terms: Terms, s: System, order: seq<Id>, r: Request)
    requires Core(terms, s) && Lists(s.disk.windows, order) && Aged(s.disk.windows, order) && s.inflight == [] && Housed(home, s.disk)
    ensures var (t, ids) := RebalanceOne(s, order, r);
            && Core(terms, t) && Lists(t.disk.windows, ids) && Aged(t.disk.windows, ids) && t.inflight == [] && Housed(home, t.disk)
            && t.now == s.now && t.disk.config == s.disk.config
  {
    hide Core, Lists, Aged, Housed, Unbalanced, Settlement, Freeze, PostAll, OrderAll, Staged, Watched, Flushed, Accounted, Records, Settles;
    var trigger := Rebalance(r.rule.id);
    if Watched(s.disk, Readied(s, trigger).meter, order) && Unbalanced(s.disk, s.meter, order, r, s.now) {
      var events := Settlement(s.disk, Readied(s, trigger).meter, trigger, s.now, order);
      SettlementIsStaged(terms, s, trigger, order);
      SettlementIsCreditBatch(terms, s, trigger, order);
      BatchKeepsAged(terms, Readied(s, trigger), events, order);
      SettlementOutcome(terms, s, trigger, order);
      SettlementAccounts(terms, s, trigger, order);
      FlushIsFlushed(terms, s, trigger, order);
      FlushedKeepsHoused(home, s, SettledBy(s, trigger, order), trigger);
      BatchIsQuiet(Readied(s, trigger), events);
      assert Accounted(s, SettledBy(s, trigger, order));
      SameTimeAfter(s, SettledBy(s, trigger, order));
    }
  }

  lemma SameTimeAfter(s: System, u: System)
    requires Accounted(s, u)
    ensures u.now == s.now
  {
    hide Unsettled;
  }

  lemma {:induction false} BatchIsQuiet(s: System, events: seq<Event>)
    ensures PostAll(s, events).inflight == s.inflight
    decreases |events|
  {
    hide Apply, MeterAfter, HistoryAfter, AdmittedAfter;
    if events != [] {
      BatchIsQuiet(Post(s, events[0]), events[1..]);
    }
  }

  /** What the panel owes for a job: leases under the rules that they were granted for. */
  ghost predicate TidyJob(home: Homes, d: Disk, job: Job) {
    match job
    case Credit(requests, _) => !d.config.present ==> forall r, l :: r in requests && l in r.rule.Leases() ==> home(l.id) == r.rule.id
    case Configure(c) => Tidy(home, c)
    case _ => true
  }

  /** Whatever the writer is asked to do, every open window stays with its rule, its lease and its owner. */
  lemma JobKeepsHoused(home: Homes, terms: Terms, job: Job, ok: bool, s: System, order: seq<Id>, u: System, paused: bool)
    requires Core(terms, s) && Lists(s.disk.windows, order) && Aged(s.disk.windows, order) && s.inflight == [] && 0 < s.now
    requires job.Credit? ==> |job.requests| <= |job.drawn| && Unused(RebalanceEach(s, order, job.requests).0, [], job.drawn) && HonestRequests(terms, job.requests)
    requires Housed(home, s.disk) && TidyJob(home, s.disk, job) && Outcome(job, ok, s, order, u, paused)
    ensures Housed(home, u.disk)
  {
    hide Core, Lists, Aged, Housed, Flushed, Adopted, Halted, PostAll, Settlement, Reservations, RebalanceEach, Watched, Unused, HonestRequests, ValidConfig, Freeze;
    match job {
      case Credit(requests, drawn) =>
        RebalancingKeepsHoused(home, terms, s, order, requests);
        var (plan, ids) := RebalanceEach(s, order, requests);
        PassKeepsHoused(home, terms, plan, ids, requests, paused, drawn);
      case FlushAll => FlushedKeepsHoused(home, s, u, Flush);
      case Shut => FlushedKeepsHoused(home, s, u, CloseAll);
      case Configure(c) => if ok { AdoptedKeepsHoused(home, s, u, c); }
      case Halt(l) => if ok { HaltedKeepsHoused(home, s, u, l); }
      case Drop(_) => HousedIgnores(home, s.disk, u.disk);
      case Done(_) => HousedIgnores(home, s.disk, u.disk);
    }
  }

  lemma HousedIgnores(home: Homes, d: Disk, e: Disk)
    requires Housed(home, d) && e.config == d.config && e.windows == d.windows
    ensures Housed(home, e)
  {
    hide Tidy, At;
  }

  lemma PassKeepsHoused(home: Homes, terms: Terms, s: System, ids: seq<Id>, requests: seq<Request>, paused: bool, drawn: seq<Id>)
    requires Core(terms, s) && s.inflight == [] && 0 < s.now && Lists(s.disk.windows, ids)
    requires |requests| <= |drawn| && Unused(s, [], drawn) && HonestRequests(terms, requests) && Housed(home, s.disk)
    requires TidyJob(home, s.disk, Credit(requests, drawn)) && Watched(s.disk, Readied(s, Flush).meter, ids)
    ensures var t := Readied(s, Flush);
            Housed(home, PostAll(t, Reservations(s.disk, Settlement(s.disk, t.meter, Flush, s.now, ids), requests, paused, s.now, drawn)).disk)
  {
    hide Core, Lists, PostAll, Settlement, Reservations, Watched, Unused, HonestRequests, Freeze, Staged, At, Tidy;
    var t := Readied(s, Flush);
    var progress := Settlement(s.disk, t.meter, Flush, s.now, ids);
    var all := Reservations(s.disk, progress, requests, paused, s.now, drawn);
    SettlementIsCreditBatch(terms, s, Flush, ids);
    ReservationsAreHoused(home, s.disk, progress, requests, paused, s.now, drawn);
    CreditBatchIsStaged(terms, s, ids, requests, paused, drawn);
    StagedIgnoresBatch(terms, t.(inflight := all), [], all);
    assert t.(inflight := all).(inflight := []) == t;
    EventsKeepHoused(home, terms, t, all);
  }

  // ----- What is supplied can be spent -----

  /** Every open window is current, and everything that was open for it before still is. */
  lemma PassIsCurrent(home: Homes, terms: Terms, m: System, ids: seq<Id>, r: Request, paused: bool, id: Id)
    requires Core(terms, m) && Lists(m.disk.windows, ids) && Watched(m.disk, Readied(m, Flush).meter, ids) && 0 < m.now
    requires Housed(home, m.disk) && m.disk.config.present
    ensures var p := AgentSupply.Passed(m, ids, r, paused, id);
            && Housed(home, p.disk) && p.disk.config == m.disk.config && p.now == m.now
            && forall x :: x in p.disk.windows ==> m.now < p.disk.windows[x].until
  {
    hide Core, Lists, Freeze, Settlement, PostAll, SettledBy, Housed, Decide, Accounted, Records, Settles, AgentSupply.Passed, Watched;
    var u := SettledBy(m, Flush, ids);
    SettlementAccounts(terms, m, Flush, ids);
    FlushIsFlushed(terms, m, Flush, ids);
    FlushedKeepsHoused(home, m, u, Flush);
    SameTimeAfter(m, u);
    SettledEndsLater(m, Flush, u.disk.windows, u.meter);
    AgentSupply.PassSettles(terms, m, ids, r, paused, id);
    var d := AgentSupply.Verdict(m, ids, r, paused, id);
    if d.Granted? {
      GrantStaysHoused(home, m, ids, r, paused, id, u);
    }
  }

  lemma SettledEndsLater(s: System, trigger: Trigger, windows: map<Id, Window>, meter: map<Id, Live>)
    requires Settles(s, trigger, windows, meter)
    ensures forall x :: x in windows ==> s.now < windows[x].until
  {
    hide Meant;
  }

  lemma GrantStaysHoused(home: Homes, m: System, ids: seq<Id>, r: Request, paused: bool, id: Id, u: System)
    requires Watched(m.disk, Readied(m, Flush).meter, ids) && AgentSupply.Verdict(m, ids, r, paused, id).Granted?
    requires Housed(home, m.disk) && m.disk.config.present && Housed(home, u.disk) && u.disk.config == m.disk.config && u.now == m.now
    requires forall x :: x in u.disk.windows ==> m.now < u.disk.windows[x].until
    ensures var p := Post(u, AgentSupply.Verdict(m, ids, r, paused, id).event);
            && Housed(home, p.disk) && p.disk.config == m.disk.config && p.now == m.now
            && forall x :: x in p.disk.windows ==> m.now < p.disk.windows[x].until
  {
    hide Freeze, Settlement, Decide, Tidy, At, Watched;
    GrantIsHoused(home, m.disk, Settlement(m.disk, Readied(m, Flush).meter, Flush, m.now, ids), r, paused, m.now, id);
  }

  lemma {:induction false} FundedIsShorter(rules: seq<Rule>)
    ensures |LeasesOf(FundedRules(rules))| <= |LeasesOf(EnabledRules(rules))|
    ensures |LeasesOf(FundedRules(rules))| == |LeasesOf(EnabledRules(rules))| ==>
              forall r :: r in rules && r.enabled && r.Leases() != [] ==> r.lease.Some?
  {
    if rules != [] {
      var r, rest := rules[0], rules[1..];
      FundedIsShorter(rest);
      LeasesCons(r, EnabledRules(rest));
      LeasesCons(r, FundedRules(rest));
      assert [] + EnabledRules(rest) == EnabledRules(rest) && [] + FundedRules(rest) == FundedRules(rest);
    }
  }

  /** All that the windows of a rule hold in one direction is its to spend. */
  lemma PurseIsOnHand(home: Homes, terms: Terms, p: System, r: Rule, up: bool)
    requires Core(terms, p) && Unfrozen(p.meter) && Housed(home, p.disk) && p.disk.config.present && r in p.disk.config.rules
    requires forall x :: x in p.disk.windows ==> p.now < p.disk.windows[x].until
    ensures AgentFastPath.Purse(p.meter, r, up, p.now) == AgentSupply.OnHand(p.meter, r.id, up)
  {
    hide Core, Tidy, At;
    KeysAgree(terms, p);
    forall x | x in p.meter
      ensures AgentFastPath.PurseOf(r, up, p.now)(p.meter[x]) == SpareBy(Way(r.id, up))(p.meter[x])
    {
      OwnWindowServes(home, terms, p, r, x);
    }
    SumMonotone(p.meter, AgentFastPath.PurseOf(r, up, p.now), p.meter, SpareBy(Way(r.id, up)));
    SumMonotone(p.meter, SpareBy(Way(r.id, up)), p.meter, AgentFastPath.PurseOf(r, up, p.now));
  }

  lemma OwnWindowServes(home: Homes, terms: Terms, p: System, r: Rule, x: Id)
    requires Core(terms, p) && Housed(home, p.disk) && p.disk.config.present && r in p.disk.config.rules
    requires x in p.meter && x in p.disk.windows && p.now < p.disk.windows[x].until
    ensures p.meter[x].window == p.disk.windows[x]
    ensures p.disk.windows[x].rule == r.id ==>
              p.disk.windows[x].owner == r.Owner() && exists l :: l in r.Leases() && l.id == p.disk.windows[x].lease && p.now < l.expiresAt
  {
    hide Core, Tidy;
    OpenWindow(terms, p, x);
    var w := p.disk.windows[x];
    if w.rule == r.id {
      var o, l :| o in p.disk.config.rules && o.id == w.rule && o.Owner() == w.owner && l in o.Leases() && l.id == w.lease;
      SameRule(p.disk.config, home, o, r);
      LeaseOutlives(terms, p, x, o, l);
    }
  }

  lemma LeaseOutlives(terms: Terms, p: System, x: Id, o: Rule, l: Lease)
    requires Core(terms, p) && x in p.disk.windows && o in p.disk.config.rules && l in o.Leases() && l.id == p.disk.windows[x].lease
    ensures p.disk.windows[x].until <= l.expiresAt
  {
    LeasesMean(p.disk.config.rules, l);
    hide MeterOk, IssuedOk, HistoryOk, BilledOk, ForgottenOk, AdmittedOk, PendingOk, BudgetsOk, Capped, LeasesOk, LeasesOf, EnabledRules, FundedRules;
    assert WindowOk(p.disk.leases, p.disk.retired.Keys, x, p.disk.windows[x]);
  }

  lemma HousedOwns(home: Homes, d: Disk, r: Rule)
    requires Housed(home, d) && r in d.config.rules
    ensures AgentSupply.OwnLeases(d.windows, r)
  {
  }

  lemma CurrentIsIn(rules: seq<Rule>, r: Rule)
    requires Current(rules, r) == Some(r)
    ensures r in rules && r.enabled
  {
    CurrentIsFirst(rules, r);
  }

  lemma ServedIsLeased(terms: Terms, s: System, r: Rule)
    requires Core(terms, s) && r in s.disk.config.rules && r.enabled && r.Leases() != []
    ensures r.lease.Some?
  {
    FundedIsShorter(s.disk.config.rules);
    ConfigIsOk(terms, s);
    hide Core, LeasesOf, EnabledRules, FundedRules, Honest;
  }

  /**
   * The pass serves the charge that asked for it. For a timely request that fits the unspent bytes of a lease of its rule,
   * with account and spool headroom and no idle or expired window in the direction, the fast path admits the request's
   * bytes after one pass, whatever the rule had on hand before, paused or not.
   */
  lemma ChargeIsAdmitted(home: Homes, terms: Terms, s: System, order: seq<Id>, ids: seq<Id>, r: Request, l: Lease, paused: bool, id: Id,
                         listed: seq<Id>)
    requires Core(terms, s) && Tame(paused, s) && Housed(home, s.disk) && 0 < s.now && id !in s.issued && Lists(s.disk.windows, order)
    requires Watched(s.disk, Readied(s, Rebalance(r.rule.id)).meter, order)
    requires var m := Rebalanced(s, order, r);
             Lists(m.disk.windows, ids) && Watched(m.disk, Readied(m, Flush).meter, ids) && 0 < m.now && id !in m.issued
    requires AgentSupply.Timely(s, r) && AgentSupply.Funded(terms, s, r, l) && AgentSupply.Headroom(s, r)
    requires forall x :: x in s.meter && s.meter[x].window.rule == r.rule.id && s.meter[x].window.upload == r.upload ==>
               !Idle(s.disk, s.meter[x].window, s.meter[x], s.now) && s.now < s.meter[x].window.until
    requires Lists(AgentSupply.Passed(Rebalanced(s, order, r), ids, r, paused, id).disk.windows, listed)
    ensures var p := AgentSupply.Passed(Rebalanced(s, order, r), ids, r, paused, id);
            AgentFastPath.Verdict(p.meter, listed, false, r.rule, r.until, r.upload, r.n, p.now) == AgentFastPath.Admitted
  {
    hide *;
    var m := Rebalanced(s, order, r);
    var p := AgentSupply.Passed(m, ids, r, paused, id);
    RequestIsCurrent(s, r);
    HousedOwns(home, s.disk, r.rule);
    AgentSupply.CreditIsSupplied(terms, s, order, ids, r, l, paused, id);
    RebalancedIsHoused(home, terms, s, order, r);
    ConfiguredIsHonest(terms, s, r.rule);
    PassIsCurrent(home, terms, m, ids, r, paused, id);
    PassedIsTame(terms, m, ids, r, paused, id);
    PurseIsOnHand(home, terms, p, r.rule, r.upload);
    ListedMeter(terms, p, listed);
    AgentFastPath.VerdictMeans(p.meter, listed, false, r.rule, r.until, r.upload, r.n, p.now);
    FundedFits(terms, s, r, l);
    ServedIsLeased(terms, s, r.rule);
    SomethingServes(home, terms, p, r.rule, r.upload, r.n);
  }

  lemma ConfiguredIsHonest(terms: Terms, s: System, r: Rule)
    requires Core(terms, s) && r in s.disk.config.rules
    ensures forall l :: l in r.Leases() ==> l == terms(l.id)
  {
    ConfigIsOk(terms, s);
    hide Core, LeasesOf, EnabledRules, FundedRules;
    forall l | l in r.Leases() ensures l == terms(l.id) { LeasesMean(s.disk.config.rules, l); }
  }

  lemma RequestIsCurrent(s: System, r: Request)
    requires AgentSupply.Timely(s, r)
    ensures r.rule in s.disk.config.rules && r.rule.enabled && s.disk.config.present && s.now < r.until && 0 < r.n
  {
    CurrentIsIn(s.disk.config.rules, r.rule);
  }

  lemma RebalancedIsHoused(home: Homes, terms: Terms, s: System, order: seq<Id>, r: Request)
    requires Core(terms, s) && Housed(home, s.disk) && Lists(s.disk.windows, order) && Watched(s.disk, Readied(s, Rebalance(r.rule.id)).meter, order)
    ensures var m := Rebalanced(s, order, r); Core(terms, m) && Housed(home, m.disk) && m.disk.config == s.disk.config && m.now == s.now
    ensures forall paused :: Tame(paused, s) ==> Tame(paused, Rebalanced(s, order, r))
  {
    hide Core, Lists, Freeze, SettledBy, Housed, Unbalanced, Accounted, Records, Settles, Tame, Watched;
    if Unbalanced(s.disk, s.meter, order, r, s.now) {
      var u := SettledBy(s, Rebalance(r.rule.id), order);
      SettledIsSurviving(terms, s, Rebalance(r.rule.id), order);
      SettlementAccounts(terms, s, Rebalance(r.rule.id), order);
      FlushIsFlushed(terms, s, Rebalance(r.rule.id), order);
      FlushedKeepsHoused(home, s, u, Rebalance(r.rule.id));
      SameTimeAfter(s, u);
      forall paused | Tame(paused, s) ensures Tame(paused, u) { SettledIsTame(terms, s, Rebalance(r.rule.id), order, paused); }
    }
  }

  lemma PassedIsTame(terms: Terms, m: System, ids: seq<Id>, r: Request, paused: bool, id: Id)
    requires Core(terms, m) && Tame(paused, m) && 0 < m.now && Lists(m.disk.windows, ids) && Watched(m.disk, Readied(m, Flush).meter, ids)
    requires id !in m.issued && forall l :: l in r.rule.Leases() ==> l == terms(l.id)
    ensures Core(terms, AgentSupply.Passed(m, ids, r, paused, id)) && Unfrozen(AgentSupply.Passed(m, ids, r, paused, id).meter)
  {
    hide Core, Freeze, Settlement, PostAll, Reservations, Staged, Lists, Watched;
    assert [r][0] == r && [id][0] == id;
    PassIsTame(terms, m, ids, [r], paused, [id]);
    var t := Readied(m, Flush).(inflight := []);
    var all := Reservations(m.disk, Settlement(m.disk, Readied(m, Flush).meter, Flush, m.now, ids), [r], paused, m.now, [id]);
    SettlementIsStaged(terms, m, Flush, ids);
    SettlementIsCreditBatch(terms, m, Flush, ids);
    ReservationsAreStaged(terms, Readied(m, Flush), Settlement(m.disk, Readied(m, Flush).meter, Flush, m.now, ids), [r], paused, [id]);
    PostAllKeepsCore(terms, Readied(m, Flush), all, |all|);
    assert all[..|all|] == all;
  }

  lemma FundedFits(terms: Terms, s: System, r: Request, l: Lease)
    requires Core(terms, s) && AgentSupply.Funded(terms, s, r, l)
    ensures l in r.rule.Leases() && r.rule.Leases() != [] && !AgentFastPath.Oversized(r.rule, r.n)
  {
    hide Core, LeaseCapacity, Unsettled;
    AgentSupply.UsedIsNatural(terms, s, l.id);
  }

  lemma SomethingServes(home: Homes, terms: Terms, p: System, r: Rule, up: bool, n: int)
    requires Core(terms, p) && Unfrozen(p.meter) && Housed(home, p.disk) && p.disk.config.present && r in p.disk.config.rules
    requires forall x :: x in p.disk.windows ==> p.now < p.disk.windows[x].until
    requires 0 < n <= AgentSupply.OnHand(p.meter, r.id, up)
    ensures exists x :: x in p.meter && AgentFastPath.PurseHolds(p.meter[x], r, up, p.now)
  {
    hide Core, Housed;
    KeysAgree(terms, p);
    if forall x :: x in p.meter ==> p.meter[x].window.rule != r.id || p.meter[x].window.upload != up {
      SumZero(p.meter, SpareBy(Way(r.id, up)));
    } else {
      var x :| x in p.meter && p.meter[x].window.rule == r.id && p.meter[x].window.upload == up;
      OwnWindowServes(home, terms, p, r, x);
    }
  }
}
