/** What a settlement leaves open, and what the store keeps true of its open windows between batches. */
module AgentSettling {
  import opened AgentTypes
  import opened AgentState
  import opened AgentSystem
  import opened AgentRuns
  import opened AgentPlanner
  import opened AgentBatches
  import opened AgentFastPath
  import opened Sums

  /** The system once a trigger has been planned, logged and applied. */
  ghost function SettledBy(s: System, trigger: Trigger, order: seq<Id>): System
    requires Watched(s.disk, Readied(s, trigger).meter, order)
  {
    PostAll(Readied(s, trigger), Settlement(s.disk, Readied(s, trigger).meter, trigger, s.now, order))
  }

  lemma KeysAgree(terms: Terms, s: System)
    requires Core(terms, s)
    ensures s.meter.Keys == s.disk.windows.Keys
  {
    hide Inv, IssuedOk, HistoryOk, BilledOk, ForgottenOk, AdmittedOk;
  }

  // ----- What a settlement does to the meter -----

  /** Every event settles its window to exactly what was spent, and closes it if and only if the trigger does. */
  ghost predicate Exact(disk: Disk, meter: map<Id, Live>, trigger: Trigger, now: int, events: seq<Event>) {
    forall e :: e in events ==>
      && e.Progress? && e.window.id in meter && e.window.id in disk.windows
      && e.window.confirmed == meter[e.window.id].used && Continues(disk.windows[e.window.id], e.window)
      && (e.window.closed <==> Closes(disk, trigger, disk.windows[e.window.id], meter[e.window.id], now))
  }

  lemma {:induction false} ProgressIsExact(disk: Disk, meter: map<Id, Live>, trigger: Trigger, now: int, ids: seq<Id>, room: int)
    requires Watched(disk, meter, ids)
    requires forall id :: id in ids ==> disk.windows[id].id == id && disk.windows[id].confirmed <= meter[id].used
    ensures Exact(disk, meter, trigger, now, ProgressEvents(disk, meter, trigger, now, ids, room))
    decreases |ids|
  {
    if ids != [] {
      WatchedTail(disk, meter, ids);
      hide Closes, Watched;
      var w, c := disk.windows[ids[0]], meter[ids[0]];
      var close := Closes(disk, trigger, w, c, now);
      ProgressIsExact(disk, meter, trigger, now, ids[1..], if close || c.used == w.confirmed || room <= 0 then room else room - 1);
    }
  }

  lemma SettlementIsExact(terms: Terms, s: System, trigger: Trigger, ids: seq<Id>)
    requires Core(terms, s) && Lists(s.disk.windows, ids) && Watched(s.disk, Readied(s, trigger).meter, ids)
    ensures Exact(s.disk, Readied(s, trigger).meter, trigger, s.now, Settlement(s.disk, Readied(s, trigger).meter, trigger, s.now, ids))
  {
    hide Core, Closes;
    var meter := Readied(s, trigger).meter;
    forall id | id in ids ensures s.disk.windows[id].id == id && s.disk.windows[id].confirmed <= meter[id].used {
      OpenWindow(terms, s, id);
    }
    ProgressIsExact(s.disk, meter, trigger, s.now, ids, MAX_PENDING - s.disk.Slots());
  }

  /** The same window, further along. */
  ghost predicate Kept(a: Live, b: Live) {
    b.used == a.used && b.last == a.last && b.closed == a.closed && b.window == a.window.(confirmed := b.window.confirmed, sequence := b.window.sequence, closed := b.window.closed)
  }

  lemma {:induction false} SettledMeter(terms: Terms, s: System, events: seq<Event>, id: Id)
    requires Core(terms, s) && Staged(terms, s, events) && id in s.meter
    requires forall e :: e in events ==> e.Progress?
    requires forall i, j :: 0 <= i < j < |events| ==> events[i].window.id != events[j].window.id
    requires forall e :: e in events && e.window.id == id ==> !e.window.closed
    ensures id in PostAll(s, events).meter && Kept(s.meter[id], PostAll(s, events).meter[id])
    decreases |events|
  {
    hide Core, Ready, Staged, PostAll;
    if events == [] {
      assert PostAll(s, events) == s by { NoSurroundings(s); }
    } else {
      var e := events[0];
      assert e in events;
      StagedTail(terms, s, events);
      PostKeepsCore(terms, s, e);
      PostKeeps(terms, s, e, id);
      SettledMeter(terms, Post(s, e), events[1..], id);
    }
  }

  lemma PostKeeps(terms: Terms, s: System, e: Event, id: Id)
    requires Core(terms, s) && Ready(terms, s, e) && e.Progress? && id in s.meter && (e.window.id == id ==> !e.window.closed)
    ensures id in Post(s, e).meter && Kept(s.meter[id], Post(s, e).meter[id])
  {
    hide Core;
    if e.window.id == id {
      OpenWindow(terms, s, id);
    }
  }

  /** The windows that a trigger leaves open, as they were. */
  ghost function Surviving(s: System, trigger: Trigger): map<Id, Live> {
    map id | id in s.meter && id in s.disk.windows && !Closes(s.disk, trigger, s.disk.windows[id], s.meter[id], s.now) :: s.meter[id]
  }

  lemma FreezeLeavesOpen(disk: Disk, meter: map<Id, Live>, trigger: Trigger, now: int, id: Id)
    requires id in meter && id in disk.windows && !Closes(disk, trigger, disk.windows[id], meter[id], now)
    ensures id in Freeze(disk, meter, trigger, now) && Freeze(disk, meter, trigger, now)[id] == meter[id]
  {
    hide Closes;
  }

  lemma SurvivorStays(terms: Terms, s: System, trigger: Trigger, ids: seq<Id>, id: Id)
    requires Core(terms, s) && Lists(s.disk.windows, ids) && Watched(s.disk, Readied(s, trigger).meter, ids)
    requires id in Surviving(s, trigger)
    ensures id in SettledBy(s, trigger, ids).meter && Kept(s.meter[id], SettledBy(s, trigger, ids).meter[id])
  {
    hide Core, Closes, Staged, PostAll, Settlement, Freeze, CreditBatch, Kept;
    var t := Readied(s, trigger);
    var events := Settlement(s.disk, t.meter, trigger, s.now, ids);
    SettlementIsStaged(terms, s, trigger, ids);
    SettlementIsExact(terms, s, trigger, ids);
    SettlementIsCreditBatch(terms, s, trigger, ids);
    BatchIsDistinct(s.disk.windows, events);
    FreezeLeavesOpen(s.disk, s.meter, trigger, s.now, id);
    SettledMeter(terms, t, events, id);
  }

  lemma BatchIsDistinct(windows: map<Id, Window>, events: seq<Event>)
    requires CreditBatch(windows, events) && forall e :: e in events ==> e.Progress?
    ensures forall i, j :: 0 <= i < j < |events| ==> events[i].window.id != events[j].window.id
  {
  }

  /** After a settlement exactly the surviving windows are open, with the same bytes spent. */
  lemma SettledIsSurviving(terms: Terms, s: System, trigger: Trigger, ids: seq<Id>)
    requires Core(terms, s) && Lists(s.disk.windows, ids) && Watched(s.disk, Readied(s, trigger).meter, ids)
    ensures var u := SettledBy(s, trigger, ids);
            && Core(terms, u) && u.meter.Keys == u.disk.windows.Keys == Surviving(s, trigger).Keys
            && forall id :: id in u.meter ==> Kept(s.meter[id], u.meter[id])
  {
    hide Core, Closes, PostAll, Settlement, Freeze, Kept;
    var u := SettledBy(s, trigger, ids);
    SettlementOutcome(terms, s, trigger, ids);
    KeysAgree(terms, u);
    forall id | id in Surviving(s, trigger) ensures id in u.meter && Kept(s.meter[id], u.meter[id]) {
      SurvivorStays(terms, s, trigger, ids, id);
    }
    assert forall id :: id in u.meter ==> id in Surviving(s, trigger);
  }

  /** What is open after a settlement was open before, with the same rule and lease. */
  lemma SettledWindows(terms: Terms, s: System, trigger: Trigger, ids: seq<Id>)
    requires Core(terms, s) && Lists(s.disk.windows, ids) && Watched(s.disk, Readied(s, trigger).meter, ids)
    ensures var u := SettledBy(s, trigger, ids);
            && Core(terms, u)
            && forall id :: id in u.disk.windows ==>
                 && id in s.disk.windows && id in s.meter && u.disk.windows[id].rule == s.disk.windows[id].rule
                 && u.disk.windows[id].lease == s.disk.windows[id].lease
                 && !Closes(s.disk, trigger, s.disk.windows[id], s.meter[id], s.now)
  {
    hide Core, Closes, SettledBy, Freeze;
    SettledIsSurviving(terms, s, trigger, ids);
    var u := SettledBy(s, trigger, ids);
    forall id | id in u.disk.windows
      ensures id in s.disk.windows && id in s.meter && u.disk.windows[id].rule == s.disk.windows[id].rule
      ensures u.disk.windows[id].lease == s.disk.windows[id].lease
      ensures !Closes(s.disk, trigger, s.disk.windows[id], s.meter[id], s.now)
    {
      assert id in Surviving(s, trigger);
      OpenWindow(terms, s, id);
      OpenWindow(terms, u, id);
    }
  }

  /** Where a batch of progress leaves one window: at its event, or where it was. */
  lemma {:induction false} ProgressLands(terms: Terms, s: System, events: seq<Event>, id: Id)
    requires Staged(terms, s, events) && (forall e :: e in events ==> e.Progress?)
    requires forall i, j :: 0 <= i < j < |events| ==> events[i].window.id != events[j].window.id
    requires id in PostAll(s, events).disk.windows
    ensures forall e :: e in events && e.window.id == id ==> PostAll(s, events).disk.windows[id] == e.window
    decreases |events|
  {
    hide Ready, Staged, PostAll;
    if events != [] {
      var e := events[0];
      assert e in events;
      StagedTail(terms, s, events);
      ProgressLands(terms, Post(s, e), events[1..], id);
      forall x | x in events && x.window.id == id ensures PostAll(s, events).disk.windows[id] == x.window {
        if x == e {
          UntouchedStays(terms, Post(s, e), events[1..], id);
        } else {
          assert x in events[1..];
        }
      }
    }
  }

  lemma {:induction false} UntouchedStays(terms: Terms, s: System, events: seq<Event>, id: Id)
    requires Staged(terms, s, events) && forall e :: e in events ==> e.Progress? && e.window.id != id
    requires id in PostAll(s, events).disk.windows
    ensures id in s.disk.windows && PostAll(s, events).disk.windows[id] == s.disk.windows[id]
    decreases |events|
  {
    hide Ready, Staged, PostAll;
    if events == [] {
      NoSurroundings(s);
    } else {
      assert events[0] in events;
      StagedTail(terms, s, events);
      PostWindows(s, events[0]);
      UntouchedStays(terms, Post(s, events[0]), events[1..], id);
    }
  }

  // ----- What a settlement bills -----

  /** Settling moves bytes from the meter to the bill, and no others. */
  lemma SettleConserves(terms: Terms, s: System, e: Event, l: Id)
    requires Core(terms, s) && Ready(terms, s, e) && e.Progress? && e.window.id in s.meter && e.window.confirmed == s.meter[e.window.id].used
    ensures Post(s, e).disk.Used(l) + Unsettled(Post(s, e).meter, l) == s.disk.Used(l) + Unsettled(s.meter, l)
  {
    hide Core, Unsettled, ValidReserve, ValidCharge, ValidConfig;
    var w := e.window;
    OpenWindow(terms, s, w.id);
    UnsettledPut(s.meter, w.id, s.meter[w.id].(window := w), l);
    UnsettledDrop(s.meter, w.id, l);
  }

  lemma {:induction false} SettlingConserves(terms: Terms, s: System, events: seq<Event>, l: Id)
    requires Core(terms, s) && Staged(terms, s, events)
    requires forall e :: e in events ==> e.Progress? && e.window.id in s.meter && e.window.confirmed == s.meter[e.window.id].used
    requires forall i, j :: 0 <= i < j < |events| ==> events[i].window.id != events[j].window.id
    ensures PostAll(s, events).disk.Used(l) + Unsettled(PostAll(s, events).meter, l) == s.disk.Used(l) + Unsettled(s.meter, l)
    decreases |events|
  {
    hide Core, Ready, Staged, PostAll, Unsettled;
    if events == [] {
      assert PostAll(s, events) == s by { NoSurroundings(s); }
    } else {
      var e := events[0];
      assert e in events;
      StagedTail(terms, s, events);
      PostKeepsCore(terms, s, e);
      SettleConserves(terms, s, e, l);
      forall x | x in events[1..]
        ensures x.Progress? && x.window.id in Post(s, e).meter && x.window.confirmed == Post(s, e).meter[x.window.id].used
      {
        assert x in events;
        PostKeeps(terms, s, e, x.window.id);
      }
      SettlingConserves(terms, Post(s, e), events[1..], l);
    }
  }

  lemma RebalanceConserves(terms: Terms, s: System, trigger: Trigger, order: seq<Id>, l: Id)
    requires Core(terms, s) && Lists(s.disk.windows, order) && Watched(s.disk, Readied(s, trigger).meter, order)
    ensures var u := SettledBy(s, trigger, order);
            u.disk.Used(l) + Unsettled(u.meter, l) == s.disk.Used(l) + Unsettled(s.meter, l)
  {
    hide Core, Closes, Staged, PostAll, Settlement, Freeze, CreditBatch, Unsettled;
    var t := Readied(s, trigger);
    var events := Settlement(s.disk, t.meter, trigger, s.now, order);
    SettlementIsStaged(terms, s, trigger, order);
    SettlementIsExact(terms, s, trigger, order);
    SettlementIsCreditBatch(terms, s, trigger, order);
    BatchIsDistinct(s.disk.windows, events);
    SettlingConserves(terms, t, events, l);
    FreezeSettlesNothing(s.meter, t.meter, l);
  }

  lemma FreezeSettlesNothing(before: map<Id, Live>, after: map<Id, Live>, l: Id)
    requires Froze(before, after)
    ensures Unsettled(before, l) == Unsettled(after, l)
  {
    SumMonotone(before, OnLease(l), after, OnLease(l));
    SumMonotone(after, OnLease(l), before, OnLease(l));
  }

  // ----- Exactly what a settlement closes -----

  /** The window serves no more: it is used up, past its end, or idle for a second under a TCP rule. */
  ghost predicate Worn(disk: Disk, w: Window, c: Live, now: int) {
    || c.used == w.capacity
    || w.until <= now
    || (c.last + 1_000_000_000 <= now && exists r :: r in disk.config.rules && r.tcp && r.id == w.rule)
  }

  /** The lease of the window still pays for a rule that forwards as it did. */
  ghost predicate Carried(was: Config, now: Config, w: Window) {
    exists r, o, l :: && r in now.rules && r.enabled && (r.tcp || r.udpCredit) && r.lease.Some?
                      && l in r.Leases() && l.id == w.lease && o in was.rules && o.id == r.id && o.SameForwarding(r)
  }

  /** The windows that a trigger is about. */
  ghost predicate Meant(disk: Disk, trigger: Trigger, w: Window) {
    match trigger
    case Flush => false
    case CloseAll => true
    case Rebalance(rule) => w.rule == rule
    case Retiring(lease) => w.lease == lease
    case Configuring(c) => !Carried(disk.config, c, w)
  }

  lemma {:induction false} KeptServes(current: seq<Rule>, rules: seq<Rule>, l: Lease)
    ensures l in LeasesOf(KeptRules(current, rules)) <==>
              exists r, o :: && r in rules && r.enabled && (r.tcp || r.udpCredit) && r.lease.Some? && l in r.Leases()
                             && o in current && o.id == r.id && o.SameForwarding(r)
  {
    if rules != [] {
      var r, kept := rules[0], KeptRules(current, rules[1..]);
      KeptServes(current, rules[1..], l);
      LeasesCons(r, kept);
      assert [] + kept == kept;
      assert r in rules && forall x :: x in rules[1..] ==> x in rules;
      if x, o :| x in rules && x.enabled && (x.tcp || x.udpCredit) && x.lease.Some? && l in x.Leases() && o in current && o.id == x.id && o.SameForwarding(x) {
        assert x == r || x in rules[1..];
      }
    }
  }

  lemma CarriedIsKept(was: Config, now: Config, w: Window)
    ensures w.lease in Ids(LeasesOf(KeptRules(was.rules, now.rules))) <==> Carried(was, now, w)
  {
    hide KeptRules, LeasesOf;
    forall l ensures l in LeasesOf(KeptRules(was.rules, now.rules)) <==>
               exists r, o :: && r in now.rules && r.enabled && (r.tcp || r.udpCredit) && r.lease.Some? && l in r.Leases()
                              && o in was.rules && o.id == r.id && o.SameForwarding(r)
    {
      KeptServes(was.rules, now.rules, l);
    }
  }

  lemma ClosesIs(disk: Disk, trigger: Trigger, w: Window, c: Live, now: int)
    ensures Closes(disk, trigger, w, c, now) <==> Meant(disk, trigger, w) || Worn(disk, w, c, now)
  {
    if trigger.Configuring? {
      CarriedIsKept(disk.config, trigger.config, w);
    }
    hide Carried, KeptRules, LeasesOf, Ids;
  }

  /** The same window, with the same bytes spent from it; only what is confirmed has moved up to them. */
  ghost predicate SameWindow(v: Window, c: Live, w: Window, d: Live) {
    && w == v.(confirmed := w.confirmed, sequence := w.sequence) && (w.confirmed == v.confirmed || w.confirmed == c.used)
    && d == c.(window := w)
  }

  /**
   * A settlement closes the windows that its trigger is about and those that serve no more, and no other. What it leaves
   * open is the same window with the same bytes spent.
   */
  lemma SettledIff(terms: Terms, s: System, trigger: Trigger, ids: seq<Id>, id: Id)
    requires Core(terms, s) && Lists(s.disk.windows, ids) && Watched(s.disk, Readied(s, trigger).meter, ids)
    ensures var u := SettledBy(s, trigger, ids);
            && Core(terms, u)
            && (id in u.disk.windows <==>
                  id in s.disk.windows && id in s.meter && !Meant(s.disk, trigger, s.disk.windows[id]) && !Worn(s.disk, s.disk.windows[id], s.meter[id], s.now))
            && (id in u.disk.windows ==> id in u.meter && SameWindow(s.disk.windows[id], s.meter[id], u.disk.windows[id], u.meter[id]))
  {
    hide Core, Closes, SettledBy, Freeze, Meant, Worn, Kept;
    SettledIsSurviving(terms, s, trigger, ids);
    if id in s.disk.windows {
      OpenWindow(terms, s, id);
      ClosesIs(s.disk, trigger, s.disk.windows[id], s.meter[id], s.now);
    }
    if id in SettledBy(s, trigger, ids).disk.windows {
      assert id in Surviving(s, trigger);
      OpenWindow(terms, SettledBy(s, trigger, ids), id);
      SurvivorConfirmed(terms, s, trigger, ids, id);
    }
  }

  /** The open windows once a trigger has had its effect. */
  ghost predicate Settles(s: System, trigger: Trigger, windows: map<Id, Window>, meter: map<Id, Live>) {
    && (forall id :: id in windows <==>
          id in s.disk.windows && id in s.meter && !Meant(s.disk, trigger, s.disk.windows[id]) && !Worn(s.disk, s.disk.windows[id], s.meter[id], s.now))
    && (forall id :: id in windows ==> id in meter && SameWindow(s.disk.windows[id], s.meter[id], windows[id], meter[id]))
  }

  lemma SettlementSettles(terms: Terms, s: System, trigger: Trigger, ids: seq<Id>)
    requires Core(terms, s) && Lists(s.disk.windows, ids) && Watched(s.disk, Readied(s, trigger).meter, ids)
    ensures Settles(s, trigger, SettledBy(s, trigger, ids).disk.windows, SettledBy(s, trigger, ids).meter)
  {
    hide Core, SettledBy, Freeze, Meant, Worn, SameWindow;
    var u := SettledBy(s, trigger, ids);
    forall id
      ensures id in u.disk.windows <==>
                id in s.disk.windows && id in s.meter && !Meant(s.disk, trigger, s.disk.windows[id]) && !Worn(s.disk, s.disk.windows[id], s.meter[id], s.now)
      ensures id in u.disk.windows ==> id in u.meter && SameWindow(s.disk.windows[id], s.meter[id], u.disk.windows[id], u.meter[id])
    {
      SettledIff(terms, s, trigger, ids, id);
    }
  }

  lemma SurvivorConfirmed(terms: Terms, s: System, trigger: Trigger, ids: seq<Id>, id: Id)
    requires Core(terms, s) && Lists(s.disk.windows, ids) && Watched(s.disk, Readied(s, trigger).meter, ids)
    requires id in s.disk.windows && id in s.meter && id in SettledBy(s, trigger, ids).disk.windows && id in SettledBy(s, trigger, ids).meter
    requires Core(terms, SettledBy(s, trigger, ids)) && Kept(s.meter[id], SettledBy(s, trigger, ids).meter[id])
    ensures var u := SettledBy(s, trigger, ids); SameWindow(s.disk.windows[id], s.meter[id], u.disk.windows[id], u.meter[id])
  {
    hide Core, Closes, PostAll, Freeze, Settlement, Staged, CreditBatch;
    var t := Readied(s, trigger);
    var events := Settlement(s.disk, t.meter, trigger, s.now, ids);
    SettlementIsStaged(terms, s, trigger, ids);
    SettlementIsExact(terms, s, trigger, ids);
    SettlementIsCreditBatch(terms, s, trigger, ids);
    BatchIsDistinct(s.disk.windows, events);
    OpenWindow(terms, s, id);
    OpenWindow(terms, SettledBy(s, trigger, ids), id);
    if exists e :: e in events && e.window.id == id {
      ProgressLands(terms, t, events, id);
    } else {
      UntouchedStays(terms, t, events, id);
    }
  }

  // ----- Exactly what a settlement reports -----

  /** How many windows stay open and have something to report. */
  ghost function Pressing(disk: Disk, meter: map<Id, Live>, trigger: Trigger, now: int, ids: seq<Id>): nat
    requires Watched(disk, meter, ids)
  {
    if ids == [] then 0
    else
      var w, c := disk.windows[ids[0]], meter[ids[0]];
      (if !Meant(disk, trigger, w) && !Worn(disk, w, c, now) && c.used != w.confirmed then 1 else 0) + Pressing(disk, meter, trigger, now, ids[1..])
  }

  lemma WatchedPrefix(disk: Disk, meter: map<Id, Live>, ids: seq<Id>, k: nat)
    requires Watched(disk, meter, ids) && k <= |ids|
    ensures Watched(disk, meter, ids[..k])
  {
  }

  /**
   * A window gets an event if and only if it closes, or has something to report and fewer windows that stay open and have
   * something to report come before it than there is room for. Closing takes no room.
   */
  lemma {:induction false} ReportedIff(disk: Disk, meter: map<Id, Live>, trigger: Trigger, now: int, ids: seq<Id>, room: int, k: nat)
    requires Watched(disk, meter, ids) && (forall x :: x in ids ==> disk.windows[x].id == x) && k < |ids|
    ensures Watched(disk, meter, ids[..k])
    ensures (exists e :: e in ProgressEvents(disk, meter, trigger, now, ids, room) && e.Progress? && e.window.id == ids[k]) <==>
              var w, c := disk.windows[ids[k]], meter[ids[k]];
              || Meant(disk, trigger, w) || Worn(disk, w, c, now)
              || (c.used != w.confirmed && Pressing(disk, meter, trigger, now, ids[..k]) < room)
    decreases |ids|
  {
    WatchedPrefix(disk, meter, ids, k);
    WatchedTail(disk, meter, ids);
    hide Meant, Worn, Closes, Watched;
    var w, c := disk.windows[ids[0]], meter[ids[0]];
    var close := Closes(disk, trigger, w, c, now);
    ClosesIs(disk, trigger, w, c, now);
    var skip := !close && (c.used == w.confirmed || room <= 0);
    var left := if close || skip then room else room - 1;
    var all, rest := ProgressEvents(disk, meter, trigger, now, ids, room), ProgressEvents(disk, meter, trigger, now, ids[1..], left);
    assert all == if skip then rest else [SettleEvent(disk, w, c, close)] + rest;
    ProgressTargets(disk, meter, trigger, now, ids[1..], left);
    if k == 0 {
      assert ids[..0] == [];
      if !skip {
        assert SettleEvent(disk, w, c, close) in all;
      }
    } else {
      ReportedIff(disk, meter, trigger, now, ids[1..], left, k - 1);
      assert ids[..k][1..] == ids[1..][..k - 1] && ids[..k][0] == ids[0] && ids[k] == ids[1..][k - 1];
      SamePressing(disk, meter, trigger, now, ids, k);
      forall e ensures (e in all && e.Progress? && e.window.id == ids[k]) <==> (e in rest && e.Progress? && e.window.id == ids[k]) {
        if e in all && e !in rest {
          assert e == SettleEvent(disk, w, c, close);
        }
      }
    }
  }

  lemma SamePressing(disk: Disk, meter: map<Id, Live>, trigger: Trigger, now: int, ids: seq<Id>, k: nat)
    requires Watched(disk, meter, ids) && 0 < k < |ids| && Watched(disk, meter, ids[..k]) && Watched(disk, meter, ids[1..]) && Watched(disk, meter, ids[1..][..k - 1])
    ensures Pressing(disk, meter, trigger, now, ids[..k])
         == (if !Meant(disk, trigger, disk.windows[ids[0]]) && !Worn(disk, disk.windows[ids[0]], meter[ids[0]], now) && meter[ids[0]].used != disk.windows[ids[0]].confirmed then 1 else 0)
            + Pressing(disk, meter, trigger, now, ids[1..][..k - 1])
  {
    hide Meant, Worn;
    assert ids[..k][1..] == ids[1..][..k - 1] && ids[..k][0] == ids[0];
  }

  // ----- Between batches -----

  ghost predicate Unfrozen(meter: map<Id, Live>) {
    forall id :: id in meter ==> !meter[id].closed
  }

  /** Windows of the size that a planner gives out while TCP growth is paused. */
  ghost predicate SmallWindows(windows: map<Id, Window>) {
    forall id :: id in windows ==> windows[id].capacity <= WINDOW_SIZE
  }

  /** No window is frozen, and while growth is paused none is large. */
  ghost predicate Tame(paused: bool, s: System) {
    Unfrozen(s.meter) && (paused ==> SmallWindows(s.disk.windows))
  }

  /** Events that open windows of the right size, or none. */
  ghost predicate TameTail(paused: bool, tail: seq<Event>) {
    forall e :: e in tail ==> !e.Progress? && (paused && e.Reserve? ==> e.window.capacity <= WINDOW_SIZE)
  }

  lemma {:induction false} TailKeepsTame(s: System, tail: seq<Event>, paused: bool)
    requires Tame(paused, s) && TameTail(paused, tail)
    ensures Tame(paused, PostAll(s, tail))
    decreases |tail|
  {
    hide Register, Stop, LeasesOf, Unacknowledged, HistoryAfter, AdmittedAfter;
    if tail != [] {
      assert tail[0] in tail;
      TailKeepsTame(Post(s, tail[0]), tail[1..], paused);
    }
  }

  lemma {:induction false} PostAllSnoc(s: System, events: seq<Event>, e: Event)
    ensures PostAll(s, events + [e]) == Post(PostAll(s, events), e)
    decreases |events|
  {
    hide Post;
    if events == [] {
      assert events + [e] == [e] && [e][1..] == [];
    } else {
      assert (events + [e])[1..] == events[1..] + [e];
      PostAllSnoc(Post(s, events[0]), events[1..], e);
    }
  }

  lemma {:induction false} PostAllAppend(s: System, a: seq<Event>, b: seq<Event>)
    ensures PostAll(s, a + b) == PostAll(PostAll(s, a), b)
    decreases |a|
  {
    hide Post;
    if a == [] {
      assert a + b == b;
    } else {
      assert (a + b)[1..] == a[1..] + b;
      PostAllAppend(Post(s, a[0]), a[1..], b);
    }
  }

  lemma SettledIsTame(terms: Terms, s: System, trigger: Trigger, ids: seq<Id>, paused: bool)
    requires Core(terms, s) && Lists(s.disk.windows, ids) && Watched(s.disk, Readied(s, trigger).meter, ids) && Tame(paused, s)
    ensures Tame(paused, SettledBy(s, trigger, ids))
  {
    hide Core, Closes, SettledBy, Freeze;
    SettledIsSurviving(terms, s, trigger, ids);
    var u := SettledBy(s, trigger, ids);
    forall id | id in u.disk.windows ensures paused ==> u.disk.windows[id].capacity <= WINDOW_SIZE {
      OpenWindow(terms, u, id);
      assert id in Surviving(s, trigger) && Kept(s.meter[id], u.meter[id]);
      OpenWindow(terms, s, id);
    }
  }

  /** A settlement followed by anything but progress leaves nothing frozen and nothing large. */
  lemma BatchIsTame(terms: Terms, s: System, trigger: Trigger, ids: seq<Id>, tail: seq<Event>, paused: bool)
    requires Core(terms, s) && Lists(s.disk.windows, ids) && Watched(s.disk, Readied(s, trigger).meter, ids)
    requires Tame(paused, s) && TameTail(paused, tail)
    ensures Tame(paused, PostAll(Readied(s, trigger), Settlement(s.disk, Readied(s, trigger).meter, trigger, s.now, ids) + tail))
  {
    hide Core, PostAll, Settlement, Freeze, Tame, TameTail;
    SettledIsTame(terms, s, trigger, ids, paused);
    PostAllAppend(Readied(s, trigger), Settlement(s.disk, Readied(s, trigger).meter, trigger, s.now, ids), tail);
    TailKeepsTame(SettledBy(s, trigger, ids), tail, paused);
  }

  /** Reservations only add windows to a batch, of the size that the planner may give out. */
  lemma {:induction false} ReservationsAreTame(disk: Disk, staged: seq<Event>, requests: seq<Request>, paused: bool, now: int, ids: seq<Id>)
    requires |requests| <= |ids| && 0 < now
    ensures var all := Reservations(disk, staged, requests, paused, now, ids);
            staged <= all && TameTail(paused, all[|staged|..])
    decreases |requests|
  {
    hide Decide;
    if requests != [] {
      var d := Decide(disk, staged, requests[0], paused, now, ids[0]);
      var more := if d.Granted? then staged + [d.event] else staged;
      ReservationsAreTame(disk, more, requests[1..], paused, now, ids[1..]);
      if d.Granted? {
        GrantIsModest(disk, staged, requests[0], paused, now, ids[0]);
        var all := Reservations(disk, staged, requests, paused, now, ids);
        assert all[|staged|..] == [d.event] + all[|more|..];
      }
    }
  }

  lemma {:induction false} SpendingIsTame(s: System, debits: seq<Debit>, paused: bool)
    requires CanSpendAll(s, debits) && Tame(paused, s)
    ensures Tame(paused, SpendAll(s, debits))
    decreases |debits|
  {
    if debits != [] {
      SpendingIsTame(Spend(s, debits[0].window, debits[0].n), debits[1..], paused);
    }
  }
}
