/** Small concrete runs: they show that the exceptions to the general statements are real and reachable. */
module AgentExamples {
  import opened AgentTypes
  import opened AgentState
  import opened AgentSystem
  import opened AgentRuns
  import opened AgentPlanner
  import opened AgentBatches
  import opened AgentRecovery
  import opened AgentReach
  import opened AgentSettling
  import opened AgentStore
  import opened AgentSupply
  import opened Sums

  /** One TCP rule with one lease and one open window that nobody has spent from. */
  datatype Sample = Sample(node: Id, rule: Id, lease: Id, window: Id, ent: Id, bytes: int, capacity: int, upload: bool, now: int, expires: int)
  {
    predicate Sane() {
      0 < capacity <= bytes && capacity <= TCP_WINDOW && 1 <= now < expires
    }

    ghost function Terms(): Terms {
      (l: Id) => Lease(l, ent, bytes, expires)
    }

    function Grant(): Lease {
      Lease(lease, ent, bytes, expires)
    }

    function Rule(): Rule {
      AgentTypes.Rule(rule, None, true, false, true, Some(Grant()), None, 0)
    }

    function Config(): Config {
      AgentTypes.Config(true, [Rule()], expires)
    }

    function Window(): Window {
      AgentTypes.Window(window, Local(rule), rule, lease, upload, capacity, 0, 0, 1, expires, false, true)
    }

    function Live(): Live {
      AgentTypes.Live(Window(), 0, 1, false)
    }

    ghost function Blank(): System {
      System(Disk(node, AgentTypes.Config(false, [], 0), map[], [], map[], map[], map[]), map[], true, [], 1, map[], {}, map[], {})
    }

    ghost function Configured(): System {
      Blank().(disk := Blank().disk.(config := Config(), leases := map[lease := Grant()]))
    }

    ghost function Opened(): System {
      Configured().(disk := Configured().disk.(windows := map[window := Window()]), meter := map[window := Live()], issued := {window})
    }

    ghost function Waited(): System {
      Opened().(now := now)
    }
  }

  // ----- The run -----

  lemma EventReaches(terms: Terms, s: System, e: Event)
    requires s.inflight == [] && Ready(terms, s, e)
    ensures Reaches(terms, s, Post(s, e))
  {
    hide Ready, Post, Reaches, Stages;
    ReadyIsStaged(terms, s, e);
    BatchReaches(terms, s, s, [e]);
  }

  lemma SampleLeases(x: Sample)
    ensures LeasesOf([x.Rule()]) == [x.Grant()] && x.Rule().Leases() == [x.Grant()] && Ids([x.Grant()]) == {x.lease}
    ensures EnabledRules([x.Rule()]) == [x.Rule()] && FundedRules([x.Rule()]) == [x.Rule()]
  {
    assert [x.Rule()][1..] == [];
  }

  lemma ConfigureIsReady(x: Sample)
    requires x.Sane()
    ensures Ready(x.Terms(), x.Blank(), SetConfig(x.Config())) && Post(x.Blank(), SetConfig(x.Config())) == x.Configured()
  {
    SampleLeases(x);
    hide LeasesOf, EnabledRules, FundedRules;
    assert {} + {x.lease} == {x.lease};
    assert LeasesOf([]) == [] by { NoLeases(); }
    assert Register(map[], [x.Grant()]) == map[x.lease := x.Grant()] by { OneRegistered(x.Grant()); }
    assert Stop(map[], Ids([]) - Active(x.Config())) == map[];
  }

  lemma NoLeases()
    ensures LeasesOf([]) == [] && Ids([]) == {}
  {
  }

  lemma OneRegistered(l: Lease)
    ensures Register(map[], [l]) == map[l.id := l]
  {
    assert [l][1..] == [];
    assert map[][l.id := l] == map[l.id := l];
  }

  lemma NothingHeld(q: Measure)
    ensures Held(map[], q) == 0
  {
    SumUnfolds<Id, Window>(map[], By(q));
  }

  lemma OpenIsReady(x: Sample)
    requires x.Sane()
    ensures Ready(x.Terms(), x.Configured(), Reserve(x.Window(), x.Grant()))
    ensures Post(x.Configured(), Reserve(x.Window(), x.Grant())) == x.Opened()
  {
    NothingHeld(InPool(x.rule, x.upload));
    NothingHeld(OfRule(x.rule));
    NothingHeld(OfOwner(Local(x.rule)));
    NothingHeld(OfLease(x.lease));
    hide Held;
    SampleLeases(x);
    assert {x.lease} + {x.lease} == {x.lease};
    var s := x.Configured();
    assert s.disk.leases[x.lease := x.Grant()] == s.disk.leases;
    assert s.disk.windows[x.window := x.Window()] == map[x.window := x.Window()];
    assert s.meter[x.window := x.Live()] == map[x.window := x.Live()];
  }

  /** Configure, reserve, wait: the sample is a reachable state. */
  lemma SampleIsReached(x: Sample)
    requires x.Sane()
    ensures Init(x.Blank()) && Reaches(x.Terms(), x.Blank(), x.Opened()) && Reaches(x.Terms(), x.Blank(), x.Waited())
    ensures Core(x.Terms(), x.Opened()) && Core(x.Terms(), x.Waited())
  {
    var terms := x.Terms();
    ConfigureIsReady(x);
    OpenIsReady(x);
    hide Ready, Post, Reaches, Staged, Core;
    InitIsSafe(terms, x.Blank());
    EventReaches(terms, x.Blank(), SetConfig(x.Config()));
    EventReaches(terms, x.Configured(), Reserve(x.Window(), x.Grant()));
    ReachesTrans(terms, x.Blank(), x.Configured(), x.Opened());
    WaitingReaches(terms, x.Opened(), x.Waited());
    ReachesTrans(terms, x.Blank(), x.Opened(), x.Waited());
    ReachesSafe(terms, x.Blank(), x.Opened());
    ReachesSafe(terms, x.Blank(), x.Waited());
  }

  // ----- What the sample holds -----

  lemma SampleHeld(x: Sample, q: Measure)
    ensures Held(x.Waited().disk.windows, q) == Weight(q, x.Window())
  {
    HeldPut(map[], q, x.window, x.Window());
    NothingHeld(q);
    assert map[][x.window := x.Window()] == map[x.window := x.Window()];
  }

  lemma SampleSpare(x: Sample, up: bool)
    ensures OnHand(x.Waited().meter, x.rule, up) == if up == x.upload then x.capacity else 0
    ensures Unsettled(x.Waited().meter, x.lease) == 0
  {
    var meter, q := x.Waited().meter, Way(x.rule, up);
    SumRemove(meter, SpareBy(q), x.window);
    assert meter - {x.window} == map[];
    SumUnfolds(meter - {x.window}, SpareBy(q));
    SumZero(meter, OnLease(x.lease));
  }

  function Ask(x: Sample, up: bool): Request {
    Request(x.Rule(), x.expires, up, 1, false, 0)
  }

  lemma SampleDeserves(x: Sample, up: bool)
    requires x.Sane()
    ensures var s, r := x.Waited(), Ask(x, up);
            && Unfrozen(s.meter) && Timely(s, r) && Funded(x.Terms(), s, r, x.Grant()) && Headroom(s, r)
            && OwnLeases(s.disk.windows, r.rule) && Lists(s.disk.windows, [x.window])
            && Watched(s.disk, Readied(s, Rebalance(x.rule)).meter, [x.window]) && Watched(s.disk, Readied(s, Flush).meter, [x.window])
  {
    hide Held, Unsettled, OnHand, Spare, LeasesOf, Core, Reaches, Freeze;
    var s := x.Waited();
    SampleLeases(x);
    SampleIsReached(x);
    SampleSpare(x, true);
    SampleHeld(x, OfOwner(Local(x.rule)));
    assert |s.disk.windows| == 1 && s.disk.leases.Keys + Ids([x.Grant()]) == {x.lease} && |{x.lease}| == 1;
    assert x.Rule().SameForwarding(x.Rule());
    assert Lists(s.disk.windows, [x.window]);
    ReadiedKeepsCore(x.Terms(), s, Rebalance(x.rule), [x.window]);
    ReadiedKeepsCore(x.Terms(), s, Flush, [x.window]);
  }

  // ----- Idle credit -----

  /** A one-byte lease, all of it in one unspent window that has been idle for a second. */
  function Quiet(node: Id, rule: Id, lease: Id, window: Id, ent: Id): (x: Sample)
    ensures x.Sane()
  {
    Sample(node, rule, lease, window, ent, 1, 1, true, 1 + IDLE_TIMEOUT, 11 + IDLE_TIMEOUT)
  }

  lemma QuietCloses(x: Sample)
    requires x.Sane() && x.now - 1 >= IDLE_TIMEOUT
    ensures Spare(Surviving(x.Waited(), Flush), Way(x.rule, x.upload)) == 0
  {
    var s := x.Waited();
    assert s.disk.config.rules[0] == x.Rule();
    assert Idle(s.disk, s.disk.windows[x.window], s.meter[x.window], s.now);
    assert Surviving(s, Flush) == map[];
    SumUnfolds(Surviving(s, Flush), SpareBy(Way(x.rule, x.upload)));
  }

  /** While the window still counts there is not a byte of the lease left to plan with. */
  lemma HeldLeaseCannotPay(x: Sample, staged: seq<Event>, r: Request, l: Lease, paused: bool)
    requires x.Sane() && x.capacity == x.bytes && r.rule == x.Rule() && 0 < r.n
    ensures !Affordable(x.Waited().disk, staged, r, l, paused, x.now)
  {
    SampleLeases(x);
    SampleHeld(x, OfLease(x.lease));
    if Affordable(x.Waited().disk, staged, r, l, paused, x.now) {
      hide Foreseen, Held;
      AvailableForLess(x.Waited().disk, Some(l), Min(r.until, x.expires), r.n, x.now);
    }
  }

  /**
   * The exception is real: the byte is unspent, the account and the spool are empty, and yet the pass closes the idle
   * window, still counts its byte as taken while planning, and leaves nothing on hand. The state is reachable.
   */
  lemma IdleCreditIsStranded(node: Id, rule: Id, lease: Id, window: Id, ent: Id, id: Id)
    requires id != window
    ensures var x := Quiet(node, rule, lease, window, ent);
            var s, r := x.Waited(), Ask(x, true);
            && Init(x.Blank()) && Reaches(x.Terms(), x.Blank(), s)
            && Tame(false, s) && Timely(s, r) && Funded(x.Terms(), s, r, x.Grant()) && Headroom(s, r) && OwnLeases(s.disk.windows, r.rule)
            && Lists(s.disk.windows, [window]) && Watched(s.disk, Readied(s, Rebalance(rule)).meter, [window])
            && Rebalanced(s, [window], r) == s && Watched(s.disk, Readied(s, Flush).meter, [window])
            && OnHand(s.meter, rule, true) == 1 && OnHand(Passed(s, [window], r, false, id).meter, rule, true) < 1
  {
    var x := Quiet(node, rule, lease, window, ent);
    var s, r := x.Waited(), Ask(x, true);
    hide Core, Reaches, OnHand, Spare, Surviving, Timely, Funded, Headroom, OwnLeases, Watched, Lists, Affordable, Rebalanced, RuleFits, Init, Passed, Held, Settlement, Freeze;
    SampleIsReached(x);
    SampleDeserves(x, true);
    SampleSpare(x, true);
    QuietCloses(x);
    EnoughIsNotRebalanced(x.Terms(), s, [window], r);
    forall l ensures !Affordable(s.disk, Settlement(s.disk, Readied(s, Flush).meter, Flush, s.now, [window]), r, l, false, s.now) {
      HeldLeaseCannotPay(x, Settlement(s.disk, Readied(s, Flush).meter, Flush, s.now, [window]), r, l, false);
    }
    NoStrandedCredit(x.Terms(), s, [window], [window], r, x.Grant(), false, id);
  }

  // ----- A paused rule with a large window -----

  /** Two of four MiB of a lease in one fresh download window. */
  function Large(node: Id, rule: Id, lease: Id, window: Id, ent: Id): (x: Sample)
    ensures x.Sane()
  {
    Sample(node, rule, lease, window, ent, TCP_RULE_CREDITS, TCP_WINDOW, false, 1, 11)
  }

  lemma FreshNeedsNothing(x: Sample)
    requires x.Sane() && x.now == 1 && Watched(x.Waited().disk, Readied(x.Waited(), Flush).meter, [x.window])
    ensures Settlement(x.Waited().disk, Readied(x.Waited(), Flush).meter, Flush, x.now, [x.window]) == []
  {
    var s := x.Waited();
    assert !Closes(s.disk, Flush, s.disk.windows[x.window], s.meter[x.window], s.now);
    FreezeLeavesOpen(s.disk, s.meter, Flush, s.now, x.window);
    hide Closes, Freeze;
    NothingToReport(s.disk, Readied(s, Flush).meter, Flush, s.now, [x.window], MAX_PENDING - s.disk.Slots());
  }

  lemma LargeIsRoomy(x: Sample, order: seq<Id>)
    requires x.Sane() && x.bytes == TCP_RULE_CREDITS && x.capacity == TCP_WINDOW && !x.upload && Core(x.Terms(), x.Waited())
    requires Lists(x.Waited().disk.windows, order) && Watched(x.Waited().disk, Readied(x.Waited(), Rebalance(x.rule)).meter, order)
    ensures Rebalanced(x.Waited(), order, Ask(x, true)) == x.Waited()
  {
    hide Core, Held, Freeze, SettledBy, LeaseCapacity;
    var s, r := x.Waited(), Ask(x, true);
    SampleDeserves(x, true);
    SampleLeases(x);
    SampleHeld(x, InPool(x.rule, true));
    SampleHeld(x, OfRule(x.rule));
    SampleHeld(x, OfOwner(Local(x.rule)));
    SampleHeld(x, OfLease(x.lease));
    PoolTotals(x.Terms(), s, order, x.rule, true);
    AvailableIs(x.Terms(), s, r, x.Grant(), r.until);
    hide Available;
    assert Roomy(s.disk, PoolSize(s.meter, order, x.rule, true), r, s.now);
  }

  /**
   * With a large window open a paused rule can refuse a request that fits: the writer finds room under the large limit and
   * takes nothing back, and the planner then plans under the small one. The store never pauses with such a window open.
   */
  lemma PausedCreditIsStranded(node: Id, rule: Id, lease: Id, window: Id, ent: Id, id: Id)
    requires id != window
    ensures var x := Large(node, rule, lease, window, ent);
            var s, r := x.Waited(), Ask(x, true);
            && Core(x.Terms(), s) && Unfrozen(s.meter) && !Tame(true, s) && Timely(s, r) && Funded(x.Terms(), s, r, x.Grant())
            && Headroom(s, r) && OwnLeases(s.disk.windows, r.rule)
            && Lists(s.disk.windows, [window]) && Watched(s.disk, Readied(s, Rebalance(rule)).meter, [window])
            && Rebalanced(s, [window], r) == s && Watched(s.disk, Readied(s, Flush).meter, [window])
            && OnHand(Passed(s, [window], r, true, id).meter, rule, true) < 1
  {
    hide *;
    var x := Large(node, rule, lease, window, ent);
    var s, r := x.Waited(), Ask(x, true);
    LargeFacts(node, rule, lease, window, ent);
    SampleIsReached(x);
    SampleDeserves(x, true);
    SampleSpare(x, true);
    LargeIsRoomy(x, [window]);
    LargeDoesNotFit(x);
    SurvivingIsLess(x.Terms(), s, rule, true);
    NoStrandedCredit(x.Terms(), s, [window], [window], r, x.Grant(), true, id);
  }

  lemma LargeFacts(node: Id, rule: Id, lease: Id, window: Id, ent: Id)
    ensures var x := Large(node, rule, lease, window, ent);
            && x.rule == rule && x.window == window && !x.upload && x.capacity == TCP_WINDOW && x.bytes == TCP_RULE_CREDITS && x.now == 1
            && Ask(x, true).rule.id == rule && Ask(x, true).upload && Ask(x, true).n == 1
            && x.Waited().now == 1 && x.Waited().issued == {window} && !Tame(true, x.Waited())
  {
    var x := Large(node, rule, lease, window, ent);
    assert x.Waited().disk.windows[window].capacity == TCP_WINDOW;
  }

  lemma LargeDoesNotFit(x: Sample)
    requires x.Sane() && x.capacity == TCP_WINDOW && x.now == 1 && Core(x.Terms(), x.Waited())
    requires Lists(x.Waited().disk.windows, [x.window]) && Watched(x.Waited().disk, Readied(x.Waited(), Flush).meter, [x.window])
    ensures var s, r := x.Waited(), Ask(x, true);
            && !RuleFits(s, [x.window], r, true)
            && forall l :: !Affordable(s.disk, Settlement(s.disk, Readied(s, Flush).meter, Flush, s.now, [x.window]), r, l, true, s.now)
  {
    hide Core, Held, Settlement, Freeze, Foreseen, SettledBy, Available, Watched;
    FreshNeedsNothing(x);
    SampleHeld(x, OfRule(x.rule));
    SettlementShrinks(x.Terms(), x.Waited(), Flush, [x.window], OfRule(x.rule));
    EmptyForeseen(x.Waited().disk.windows, OfRule(x.rule));
  }

  lemma EmptyForeseen(windows: map<Id, Window>, q: Measure)
    ensures Foreseen(windows, [], q) == Held(windows, q)
  {
  }

  /** A lease named under a disabled rule is never registered, and the configuration that drops it would not restart. */
  lemma DisabledLeaseBreaks(x: Sample)
    requires x.Sane()
    ensures var named := AgentTypes.Config(true, [x.Rule().(enabled := false)], x.expires);
            var dropped := AgentTypes.Config(true, [], x.expires);
            var d := Apply(x.Blank().disk, SetConfig(named));
            && Valid(x.Blank().disk, SetConfig(named)) && Snapshot(d)
            && Valid(d, SetConfig(dropped)) && !Snapshot(Apply(d, SetConfig(dropped)))
  {
    hide LeasesOf, EnabledRules, FundedRules, Ids, Snapshot, Inv;
    var r := x.Rule().(enabled := false);
    var named, dropped := AgentTypes.Config(true, [r], x.expires), AgentTypes.Config(true, [], x.expires);
    var b, d := x.Blank().disk, Apply(x.Blank().disk, SetConfig(named));
    DisabledRule(x);
    NoRules();
    NothingStopped();
    assert b.(config := AgentTypes.Config(false, [], 0)) == b;
    assert d == b.(config := named);
    BlankIsInv(x);
    ConfigRestarts(x.Terms(), b, named);
    StrangerBreaks(x.Terms(), d, dropped);
  }

  lemma BlankIsInv(x: Sample)
    ensures Inv(x.Terms(), x.Blank().disk)
  {
    InitIsSafe(x.Terms(), x.Blank());
    hide Inv, Staged;
  }

  lemma DisabledRule(x: Sample)
    ensures var r := x.Rule().(enabled := false);
            && LeasesOf([r]) == [x.Grant()] && Ids([x.Grant()]) == {x.lease} && EnabledRules([r]) == [] && FundedRules([r]) == []
  {
    var r := x.Rule().(enabled := false);
    LeasesCons(r, []);
    RulesCons(r, []);
    assert [r] + [] == [r];
  }

  lemma NoRules()
    ensures LeasesOf([]) == [] && EnabledRules([]) == [] && FundedRules([]) == [] && Ids([]) == {}
  {
  }

  lemma NothingStopped()
    ensures Stop(map[], {}) == map[]
  {
  }

  /** The validator lets a lease be stopped under an open window; the result would not restart. */
  lemma ValidatorIsNotEnough(node: Id, rule: Id, lease: Id, window: Id, ent: Id)
    ensures var x := Quiet(node, rule, lease, window, ent);
            && Init(x.Blank()) && Reaches(x.Terms(), x.Blank(), x.Waited())
            && Valid(x.Waited().disk, Retire(lease)) && !Snapshot(Apply(x.Waited().disk, Retire(lease)))
  {
    var x := Quiet(node, rule, lease, window, ent);
    SampleIsReached(x);
    hide Inv, Snapshot, Reaches;
    StopRestarts(x.Terms(), x.Waited().disk, lease);
    assert x.Waited().disk.windows[window].lease == lease;
  }
}
