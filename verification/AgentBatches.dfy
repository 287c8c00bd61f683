/** Every batch that the writer plans applies event by event, and every prefix of it leaves a state that restarts. */
module AgentBatches {
  import opened AgentTypes
  import opened AgentState
  import opened AgentSystem
  import opened AgentRuns
  import opened AgentPlanner

  /** `ids` lists every open window once. */
  ghost predicate Lists(windows: map<Id, Window>, ids: seq<Id>) {
    && (forall i, j :: 0 <= i < j < |ids| ==> ids[i] != ids[j])
    && (forall id :: id in ids <==> id in windows)
  }

  /** Windows that the trigger closes stop serving the fast path at once. */
  function Freeze(disk: Disk, meter: map<Id, Live>, trigger: Trigger, now: int): map<Id, Live> {
    map id | id in meter ::
      meter[id].(closed := meter[id].closed || (id in disk.windows && Closes(disk, trigger, disk.windows[id], meter[id], now)))
  }

  /** The progress part of a batch, planned over all windows with all the room there is. */
  ghost function Settlement(disk: Disk, meter: map<Id, Live>, trigger: Trigger, now: int, ids: seq<Id>): seq<Event>
    requires Watched(disk, meter, ids)
  {
    ProgressEvents(disk, meter, trigger, now, ids, MAX_PENDING - disk.Slots())
  }

  lemma FreezeIsFrozen(disk: Disk, meter: map<Id, Live>, trigger: Trigger, now: int, ids: seq<Id>)
    requires Watched(disk, meter, ids)
    ensures Froze(meter, Freeze(disk, meter, trigger, now))
    ensures Watched(disk, Freeze(disk, meter, trigger, now), ids)
    ensures Frozen(disk, Freeze(disk, meter, trigger, now), trigger, now, ids)
  {
    var frozen := Freeze(disk, meter, trigger, now);
    forall id | id in ids && Closes(disk, trigger, disk.windows[id], frozen[id], now) ensures frozen[id].closed {
      assert frozen[id] == meter[id].(closed := frozen[id].closed);
      assert Closes(disk, trigger, disk.windows[id], meter[id], now);
    }
  }

  lemma AllAreWatched(terms: Terms, s: System, ids: seq<Id>)
    requires Core(terms, s) && Lists(s.disk.windows, ids)
    ensures Watched(s.disk, s.meter, ids)
  {
    hide Core;
    forall id | id in ids ensures id in s.disk.windows && id in s.meter && s.disk.windows[id].lease in s.disk.leases {
      OpenWindow(terms, s, id);
    }
  }

  /** The system with the windows that a trigger closes frozen. */
  ghost function Readied(s: System, trigger: Trigger): System {
    s.(meter := Freeze(s.disk, s.meter, trigger, s.now))
  }

  lemma ReadiedKeepsCore(terms: Terms, s: System, trigger: Trigger, ids: seq<Id>)
    requires Core(terms, s) && Lists(s.disk.windows, ids)
    ensures var t := Readied(s, trigger);
            && Core(terms, t) && Froze(s.meter, t.meter)
            && Watched(s.disk, t.meter, ids) && Frozen(s.disk, t.meter, trigger, s.now, ids)
            && SeenAs(t, s.disk, t.meter, ids)
  {
    hide Core, Freeze, Closes;
    AllAreWatched(terms, s, ids);
    FreezeIsFrozen(s.disk, s.meter, trigger, s.now, ids);
    FreezeKeepsCore(terms, s, Readied(s, trigger));
  }

  lemma SettlementIsStaged(terms: Terms, s: System, trigger: Trigger, ids: seq<Id>)
    requires Core(terms, s) && Lists(s.disk.windows, ids)
    ensures var t := Readied(s, trigger);
            && Core(terms, t) && Froze(s.meter, t.meter) && Watched(s.disk, t.meter, ids)
            && Staged(terms, t, Settlement(s.disk, t.meter, trigger, s.now, ids))
  {
    hide Core, Freeze, Staged, Frozen, SeenAs;
    var t := Readied(s, trigger);
    ReadiedKeepsCore(terms, s, trigger, ids);
    ProgressIsStaged(terms, t, s.disk, t.meter, trigger, s.now, ids, MAX_PENDING - s.disk.Slots());
  }

  // ----- What a settlement leaves open -----

  lemma {:induction false} ProgressTargets(disk: Disk, meter: map<Id, Live>, trigger: Trigger, now: int, ids: seq<Id>, room: int)
    requires Watched(disk, meter, ids) && forall id :: id in ids ==> disk.windows[id].id == id
    ensures var events := ProgressEvents(disk, meter, trigger, now, ids, room);
            && (forall e :: e in events ==> e.Progress? && e.window.id in ids)
            && (forall i, j :: 0 <= i < j < |events| ==> events[i].window.id != events[j].window.id)
    decreases |ids|
  {
    if ids != [] {
      WatchedTail(disk, meter, ids);
      hide Closes;
      var w, c := disk.windows[ids[0]], meter[ids[0]];
      var close := Closes(disk, trigger, w, c, now);
      var left := if close || c.used == w.confirmed || room <= 0 then room else room - 1;
      ProgressTargets(disk, meter, trigger, now, ids[1..], left);
    }
  }

  /** A window that the trigger closes has its closing event in the batch. */
  lemma {:induction false} ClosersAreClosed(disk: Disk, meter: map<Id, Live>, trigger: Trigger, now: int, ids: seq<Id>, room: int, id: Id)
    requires Watched(disk, meter, ids) && (forall x :: x in ids ==> disk.windows[x].id == x)
    requires id in ids && Closes(disk, trigger, disk.windows[id], meter[id], now)
    ensures exists e :: e in ProgressEvents(disk, meter, trigger, now, ids, room) && e.Progress? && e.window.id == id && e.window.closed
    decreases |ids|
  {
    WatchedTail(disk, meter, ids);
    hide Closes;
    var w, c := disk.windows[ids[0]], meter[ids[0]];
    var close := Closes(disk, trigger, w, c, now);
    var left := if close || c.used == w.confirmed || room <= 0 then room else room - 1;
    var rest := ProgressEvents(disk, meter, trigger, now, ids[1..], left);
    if ids[0] == id {
      assert ProgressEvents(disk, meter, trigger, now, ids, room) == [SettleEvent(disk, w, c, true)] + rest;
      assert SettleEvent(disk, w, c, true) in ProgressEvents(disk, meter, trigger, now, ids, room);
    } else {
      ClosersAreClosed(disk, meter, trigger, now, ids[1..], left, id);
      var e :| e in rest && e.Progress? && e.window.id == id && e.window.closed;
      assert e in ProgressEvents(disk, meter, trigger, now, ids, room);
    }
  }

  /** What is open after a batch of progress events was open before, and no event closed it. */
  lemma {:induction false} SurvivorsWereNotClosed(terms: Terms, s: System, events: seq<Event>, id: Id)
    requires Staged(terms, s, events) && (forall e :: e in events ==> e.Progress?)
    requires id in PostAll(s, events).disk.windows
    requires forall i, j :: 0 <= i < j < |events| ==> events[i].window.id != events[j].window.id
    ensures id in s.disk.windows && PostAll(s, events).disk.windows[id].lease == s.disk.windows[id].lease
    ensures forall e :: e in events && e.window.id == id ==> !e.window.closed
    decreases |events|
  {
    if events != [] {
      var e := events[0];
      assert e in events;
      PostWindows(s, e);
      SurvivorsWereNotClosed(terms, Post(s, e), events[1..], id);
      hide Post, PostAll, Staged;
      if e.window.id == id && e.window.closed {
        assert false;
      }
    }
  }

  lemma {:induction false} NoGrants(events: seq<Event>)
    requires forall e :: e in events ==> e.Progress?
    ensures Grants(events) == []
  {
    if events != [] {
      assert events[0] in events;
      NoGrants(events[1..]);
    }
  }

  lemma SettlementIsCreditBatch(terms: Terms, s: System, trigger: Trigger, ids: seq<Id>)
    requires Core(terms, s) && Lists(s.disk.windows, ids) && Watched(s.disk, Readied(s, trigger).meter, ids)
    ensures var events := Settlement(s.disk, Readied(s, trigger).meter, trigger, s.now, ids);
            CreditBatch(s.disk.windows, events) && forall e :: e in events ==> e.Progress?
  {
    hide Core, Closes, Freeze;
    forall id | id in ids ensures s.disk.windows[id].id == id { OpenWindow(terms, s, id); }
    ProgressTargets(s.disk, Readied(s, trigger).meter, trigger, s.now, ids, MAX_PENDING - s.disk.Slots());
  }

  /** Settlement leaves the registry alone and leaves open no window that the trigger closes. */
  lemma SettlementOutcome(terms: Terms, s: System, trigger: Trigger, ids: seq<Id>)
    requires Core(terms, s) && Lists(s.disk.windows, ids) && Watched(s.disk, Readied(s, trigger).meter, ids)
    ensures var u := PostAll(Readied(s, trigger), Settlement(s.disk, Readied(s, trigger).meter, trigger, s.now, ids));
            && Core(terms, u) && u.disk.leases.Keys == s.disk.leases.Keys
            && (forall id :: id in u.disk.windows ==>
                  && id in s.disk.windows && id in s.meter && u.disk.windows[id].lease == s.disk.windows[id].lease
                  && !Closes(s.disk, trigger, s.disk.windows[id], s.meter[id], s.now))
  {
    hide Core, Staged, Closes, PostAll, CreditBatch, Settlement, Freeze;
    var t := Readied(s, trigger);
    var events := Settlement(s.disk, t.meter, trigger, s.now, ids);
    SettlementIsStaged(terms, s, trigger, ids);
    SettlementIsCreditBatch(terms, s, trigger, ids);
    NoGrants(events);
    BatchOutcome(terms, t, events, s.disk.node);
    assert Ids([]) == {};
    forall id | id in PostAll(t, events).disk.windows
      ensures id in s.disk.windows && id in s.meter && PostAll(t, events).disk.windows[id].lease == s.disk.windows[id].lease
      ensures !Closes(s.disk, trigger, s.disk.windows[id], s.meter[id], s.now)
    {
      SurvivorIsKept(terms, s, trigger, ids, id);
    }
  }

  lemma FreezeKeepsClosing(disk: Disk, meter: map<Id, Live>, trigger: Trigger, now: int, id: Id)
    requires id in meter && id in disk.windows
    ensures id in Freeze(disk, meter, trigger, now)
    ensures Closes(disk, trigger, disk.windows[id], Freeze(disk, meter, trigger, now)[id], now)
         == Closes(disk, trigger, disk.windows[id], meter[id], now)
  {
  }

  lemma SurvivorIsKept(terms: Terms, s: System, trigger: Trigger, ids: seq<Id>, id: Id)
    requires Core(terms, s) && Lists(s.disk.windows, ids) && Watched(s.disk, Readied(s, trigger).meter, ids)
    requires id in PostAll(Readied(s, trigger), Settlement(s.disk, Readied(s, trigger).meter, trigger, s.now, ids)).disk.windows
    ensures var u := PostAll(Readied(s, trigger), Settlement(s.disk, Readied(s, trigger).meter, trigger, s.now, ids));
            && id in s.disk.windows && id in s.meter && u.disk.windows[id].lease == s.disk.windows[id].lease
            && !Closes(s.disk, trigger, s.disk.windows[id], s.meter[id], s.now)
  {
    hide Core, Staged, Post, PostAll, Closes, Freeze, ProgressEvents, Watched;
    var t := Readied(s, trigger);
    var events := Settlement(s.disk, t.meter, trigger, s.now, ids);
    forall x | x in ids ensures s.disk.windows[x].id == x { OpenWindow(terms, s, x); }
    SettlementIsStaged(terms, s, trigger, ids);
    ProgressTargets(s.disk, t.meter, trigger, s.now, ids, MAX_PENDING - s.disk.Slots());
    SurvivorsWereNotClosed(terms, t, events, id);
    OpenWindow(terms, s, id);
    FreezeKeepsClosing(s.disk, s.meter, trigger, s.now, id);
    if Closes(s.disk, trigger, s.disk.windows[id], s.meter[id], s.now) {
      ClosersAreClosed(s.disk, t.meter, trigger, s.now, ids, MAX_PENDING - s.disk.Slots(), id);
    }
  }

  // ----- The batches -----

  /** Progress, then reservations for any number of requests. */
  lemma CreditBatchIsStaged(terms: Terms, s: System, ids: seq<Id>, requests: seq<Request>, paused: bool, drawn: seq<Id>)
    requires Core(terms, s) && s.inflight == [] && 0 < s.now && Lists(s.disk.windows, ids)
    requires |requests| <= |drawn| && Unused(s, [], drawn) && HonestRequests(terms, requests)
    requires Watched(s.disk, Readied(s, Flush).meter, ids)
    ensures var t := Readied(s, Flush);
            var progress := Settlement(s.disk, t.meter, Flush, s.now, ids);
            Stages(terms, s, t.(inflight := Reservations(s.disk, progress, requests, paused, s.now, drawn)))
  {
    hide Core, Staged, CreditBatch, Settlement, PostAll;
    var t := Readied(s, Flush);
    var progress := Settlement(s.disk, t.meter, Flush, s.now, ids);
    SettlementIsStaged(terms, s, Flush, ids);
    SettlementIsCreditBatch(terms, s, Flush, ids);
    assert Unused(t, progress, drawn);
    ReservationsAreStaged(terms, t, progress, requests, paused, drawn);
    var all := Reservations(s.disk, progress, requests, paused, s.now, drawn);
    StagedIgnoresBatch(terms, t, all, all);
  }

  lemma {:induction false} KeptAreActive(current: seq<Rule>, rules: seq<Rule>, l: Lease)
    requires l in LeasesOf(KeptRules(current, rules))
    ensures l in LeasesOf(EnabledRules(rules))
  {
    if rules != [] {
      var r, kept, enabled := rules[0], KeptRules(current, rules[1..]), EnabledRules(rules[1..]);
      LeasesCons(r, kept);
      LeasesCons(r, enabled);
      assert [] + kept == kept && [] + enabled == enabled;
      if l in LeasesOf(kept) {
        KeptAreActive(current, rules[1..], l);
      }
    }
  }

  /** A lease keeps its windows only through a rule that still sends the same traffic to the same place. */
  lemma {:induction false} KeptIsCompatible(current: seq<Rule>, rules: seq<Rule>, l: Lease)
    requires l in LeasesOf(KeptRules(current, rules))
    ensures exists r, o :: r in rules && o in current && r.enabled && r.UsesCredit() && l in r.Leases() && o.id == r.id && o.SameForwarding(r)
  {
    if rules != [] {
      var r, kept := rules[0], KeptRules(current, rules[1..]);
      LeasesCons(r, kept);
      assert [] + kept == kept;
      if l in LeasesOf(kept) {
        KeptIsCompatible(current, rules[1..], l);
        var x, o :| x in rules[1..] && o in current && x.enabled && x.UsesCredit() && l in x.Leases() && o.id == x.id && o.SameForwarding(x);
        assert x in rules;
      } else {
        assert r in rules;
      }
    }
  }

  /** A new configuration leaves a window open only if its lease still serves a rule with unchanged forwarding. */
  lemma ConfigRevokes(terms: Terms, s: System, ids: seq<Id>, c: Config, id: Id)
    requires Core(terms, s) && Lists(s.disk.windows, ids) && Watched(s.disk, Readied(s, Configuring(c)).meter, ids)
    requires id in PostAll(Readied(s, Configuring(c)), Settlement(s.disk, Readied(s, Configuring(c)).meter, Configuring(c), s.now, ids)).disk.windows
    ensures id in s.disk.windows
    ensures exists l: Lease, r: Rule, o: Rule :: l.id == s.disk.windows[id].lease && l in r.Leases() && r in c.rules && o in s.disk.config.rules
                              && r.enabled && r.UsesCredit() && o.id == r.id && o.SameForwarding(r)
  {
    hide Core, Settlement, PostAll, Freeze, KeptRules, LeasesOf, Idle;
    SettlementOutcome(terms, s, Configuring(c), ids);
    var kept := LeasesOf(KeptRules(s.disk.config.rules, c.rules));
    var l :| l in kept && l.id == s.disk.windows[id].lease;
    KeptIsCompatible(s.disk.config.rules, c.rules, l);
  }

  /** After any settlement no open window is used up, expired, or idle under a TCP rule. */
  lemma SettledIsCurrent(terms: Terms, s: System, trigger: Trigger, ids: seq<Id>, id: Id)
    requires Core(terms, s) && Lists(s.disk.windows, ids) && Watched(s.disk, Readied(s, trigger).meter, ids)
    requires id in PostAll(Readied(s, trigger), Settlement(s.disk, Readied(s, trigger).meter, trigger, s.now, ids)).disk.windows
    ensures id in s.disk.windows && id in s.meter
    ensures var w, c := s.disk.windows[id], s.meter[id];
            && c.used < w.capacity && s.now < w.until
            && (forall r :: r in s.disk.config.rules && r.tcp && r.id == w.rule ==> s.now - c.last < IDLE_TIMEOUT)
            && (trigger.Rebalance? ==> w.rule != trigger.rule) && (trigger.Retiring? ==> w.lease != trigger.lease) && !trigger.CloseAll?
  {
    hide Core, Settlement, PostAll, Freeze, KeptRules, LeasesOf;
    SettlementOutcome(terms, s, trigger, ids);
    OpenWindow(terms, s, id);
  }

  lemma SurvivorsAreActive(s: System, u: System, c: Config)
    requires forall id :: id in u.disk.windows ==>
               && id in s.disk.windows && id in s.meter && u.disk.windows[id].lease == s.disk.windows[id].lease
               && !Closes(s.disk, Configuring(c), s.disk.windows[id], s.meter[id], s.now)
    ensures forall id :: id in u.disk.windows ==> u.disk.windows[id].lease in Active(c)
  {
    forall id | id in u.disk.windows ensures u.disk.windows[id].lease in Active(c) {
      var kept := LeasesOf(KeptRules(s.disk.config.rules, c.rules));
      assert u.disk.windows[id].lease in Ids(kept);
      var l :| l in kept && l.id == u.disk.windows[id].lease;
      KeptAreActive(s.disk.config.rules, c.rules, l);
    }
  }

  lemma ConfigStaysValid(terms: Terms, s: Disk, u: System, c: Config)
    requires Core(terms, u) && u.disk.leases.Keys == s.leases.Keys && ConfigOk(terms, c) && ValidConfig(s, c)
    ensures ValidConfig(u.disk, c)
  {
    hide Core, LeasesOf, FundedRules, EnabledRules;
    EnabledIsHonest(terms, c);
    forall l | l in LeasesOf(FundedRules(c.rules)) ensures l.id in u.disk.leases ==> u.disk.leases[l.id] == l {
      RegistryAgrees(terms, u, l);
    }
  }

  lemma ConfigIsReady(terms: Terms, s: System, u: System, c: Config)
    requires Core(terms, u) && u.disk.leases.Keys == s.disk.leases.Keys
    requires ConfigOk(terms, c) && ValidConfig(s.disk, c) && Familiar(s.disk.leases, c)
    requires forall id :: id in u.disk.windows ==>
               && id in s.disk.windows && id in s.meter && u.disk.windows[id].lease == s.disk.windows[id].lease
               && !Closes(s.disk, Configuring(c), s.disk.windows[id], s.meter[id], s.now)
    ensures Ready(terms, u, SetConfig(c))
  {
    hide Core, Closes, ValidConfig, ConfigOk, Active;
    SurvivorsAreActive(s, u, c);
    ConfigStaysValid(terms, s.disk, u, c);
  }

  /** Settle and close what a new configuration revokes, then adopt it. */
  lemma ConfigBatchIsStaged(terms: Terms, s: System, ids: seq<Id>, c: Config)
    requires Core(terms, s) && s.inflight == [] && Lists(s.disk.windows, ids)
    requires ConfigOk(terms, c) && ValidConfig(s.disk, c) && Familiar(s.disk.leases, c)
    requires Watched(s.disk, Readied(s, Configuring(c)).meter, ids)
    ensures var t := Readied(s, Configuring(c));
            Stages(terms, s, t.(inflight := Settlement(s.disk, t.meter, Configuring(c), s.now, ids) + [SetConfig(c)]))
  {
    hide Core, Staged, CreditBatch, Settlement, PostAll, Closes, Ready, ConfigOk, ValidConfig;
    var t := Readied(s, Configuring(c));
    var events := Settlement(s.disk, t.meter, Configuring(c), s.now, ids);
    SettlementIsStaged(terms, s, Configuring(c), ids);
    SettlementOutcome(terms, s, Configuring(c), ids);
    ConfigIsReady(terms, s, PostAll(t, events), c);
    StagedSnoc(terms, t, events, SetConfig(c));
    StagedIgnoresBatch(terms, t, events + [SetConfig(c)], events + [SetConfig(c)]);
  }

  /** Settle and close every window of a lease, then stop it. */
  lemma RetireBatchIsStaged(terms: Terms, s: System, ids: seq<Id>, l: Id)
    requires Core(terms, s) && s.inflight == [] && Lists(s.disk.windows, ids) && l in s.disk.leases
    requires Watched(s.disk, Readied(s, Retiring(l)).meter, ids)
    ensures var t := Readied(s, Retiring(l));
            Stages(terms, s, t.(inflight := Settlement(s.disk, t.meter, Retiring(l), s.now, ids) + [Retire(l)]))
  {
    hide Core, Staged, CreditBatch, Settlement, PostAll;
    var t := Readied(s, Retiring(l));
    var events := Settlement(s.disk, t.meter, Retiring(l), s.now, ids);
    SettlementIsStaged(terms, s, Retiring(l), ids);
    SettlementOutcome(terms, s, Retiring(l), ids);
    assert Ready(terms, PostAll(t, events), Retire(l));
    hide Ready;
    StagedSnoc(terms, t, events, Retire(l));
    StagedIgnoresBatch(terms, t, events + [Retire(l)], events + [Retire(l)]);
  }

  /** Wherever a torn write cuts a staged batch, the surviving prefix restarts. */
  lemma PrefixRestarts(terms: Terms, s: System, k: int)
    requires Safe(terms, s) && 0 <= k <= |s.inflight|
    ensures Snapshot(PostAll(s, s.inflight[..k]).disk)
  {
    hide Staged, PostAll;
    PostAllKeepsCore(terms, s, s.inflight, k);
    InvIsAccepted(terms, PostAll(s, s.inflight[..k]).disk);
  }
}
