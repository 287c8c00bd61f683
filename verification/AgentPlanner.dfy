/**
 * The writer's planner. It stages progress reports and reservations against the state before the batch, without
 * applying them; the log validates them one by one afterwards.
 */
module AgentPlanner {
  import opened AgentTypes
  import opened AgentState
  import opened AgentSystem
  import opened AgentRuns

  // ----- Progress -----

  /** Why the writer looks at its windows. */
  datatype Trigger = Flush | CloseAll | Rebalance(rule: Id) | Retiring(lease: Id) | Configuring(config: Config)

  function KeptRules(current: seq<Rule>, rules: seq<Rule>): seq<Rule> {
    if rules == [] then []
    else
      (if rules[0].enabled && rules[0].UsesCredit() && rules[0].lease.Some?
          && exists o :: o in current && o.id == rules[0].id && o.SameForwarding(rules[0])
       then [rules[0]] else [])
      + KeptRules(current, rules[1..])
  }

  predicate Idle(disk: Disk, w: Window, c: Live, now: int) {
    (exists r :: r in disk.config.rules && r.tcp && r.id == w.rule) && now - c.last >= IDLE_TIMEOUT
  }

  predicate Closes(disk: Disk, trigger: Trigger, w: Window, c: Live, now: int) {
    || Idle(disk, w, c, now)
    || trigger.CloseAll?
    || (trigger.Rebalance? && trigger.rule == w.rule)
    || c.used == w.capacity
    || now >= w.until
    || (trigger.Retiring? && trigger.lease == w.lease)
    || (trigger.Configuring? && w.lease !in Ids(LeasesOf(KeptRules(disk.config.rules, trigger.config.rules))))
  }

  function ReportOf(disk: Disk, w: Window, n: int, recovery: bool, ended: int): Usage
    requires w.lease in disk.leases
  {
    Usage(Report(w.id, w.sequence), disk.node, w.rule, w.lease, disk.leases[w.lease].entitlement,
          w.startedAt, ended, if w.upload then n else 0, if w.upload then 0 else n, recovery)
  }

  /** Settle a window up to what the fast path has spent from it. */
  function SettleEvent(disk: Disk, w: Window, c: Live, close: bool): Event
    requires w.lease in disk.leases
  {
    var next := w.(confirmed := c.used, sequence := w.sequence + 1, closed := close);
    Progress(next, if c.used > w.confirmed
                   then Some(ReportOf(disk, next, c.used - w.confirmed, false, Min(c.last, w.until)))
                   else None)
  }

  ghost predicate Watched(disk: Disk, meter: map<Id, Live>, ids: seq<Id>) {
    && (forall i, j :: 0 <= i < j < |ids| ==> ids[i] != ids[j])
    && (forall id :: id in ids ==> id in disk.windows && id in meter && disk.windows[id].lease in disk.leases)
  }

  /** The progress events for the windows `ids`, taken in that order; `room` spare slots may stay open. */
  function ProgressEvents(disk: Disk, meter: map<Id, Live>, trigger: Trigger, now: int, ids: seq<Id>, room: int): seq<Event>
    requires Watched(disk, meter, ids)
  {
    if ids == [] then []
    else
      var w, c := disk.windows[ids[0]], meter[ids[0]];
      var close := Closes(disk, trigger, w, c, now);
      if !close && (c.used == w.confirmed || room <= 0) then ProgressEvents(disk, meter, trigger, now, ids[1..], room)
      else [SettleEvent(disk, w, c, close)]
           + ProgressEvents(disk, meter, trigger, now, ids[1..], if close then room else room - 1)
  }

  /** `s` still shows the windows `ids` as the planner saw them. */
  ghost predicate SeenAs(s: System, disk: Disk, meter: map<Id, Live>, ids: seq<Id>) {
    && s.disk.leases == disk.leases && s.disk.node == disk.node
    && forall id :: id in ids ==>
         && id in s.disk.windows && id in disk.windows && s.disk.windows[id] == disk.windows[id]
         && id in s.meter && id in meter && s.meter[id] == meter[id]
  }

  /** Windows that are about to close have been frozen. */
  ghost predicate Frozen(disk: Disk, meter: map<Id, Live>, trigger: Trigger, now: int, ids: seq<Id>)
    requires Watched(disk, meter, ids)
  {
    forall id :: id in ids && Closes(disk, trigger, disk.windows[id], meter[id], now) ==> meter[id].closed
  }

  /** What is known about one open window of a consistent system. */
  lemma OpenWindow(terms: Terms, s: System, id: Id)
    requires Core(terms, s) && id in s.disk.windows
    ensures id in s.meter && s.meter[id].window == s.disk.windows[id]
    ensures var w, c := s.disk.windows[id], s.meter[id];
            && w.id == id && !w.closed && WindowShape(w) && w.lease in s.disk.leases && w.lease !in s.disk.retired
            && w.confirmed <= c.used <= w.capacity
            && w.startedAt <= c.last && w.startedAt <= s.now
            && |s.disk.pending| < MAX_PENDING
  {
    hide PendingOk, BudgetsOk, Capped, LeasesOk, IssuedOk, HistoryOk, BilledOk, ForgottenOk, AdmittedOk, ConfigOk;
    assert WindowOk(s.disk.leases, s.disk.retired.Keys, id, s.disk.windows[id]);
    assert |s.disk.windows| > 0;
  }

  lemma SettleIsReady(terms: Terms, s: System, disk: Disk, w: Window, c: Live, close: bool)
    requires Core(terms, s) && w.id in s.disk.windows && s.disk.windows[w.id] == w
    requires w.id in s.meter && s.meter[w.id] == c
    requires w.lease in disk.leases && s.disk.leases == disk.leases && s.disk.node == disk.node
    requires close ==> c.closed
    requires !close ==> w.confirmed < c.used && s.disk.Slots() < MAX_PENDING
    ensures Ready(terms, s, SettleEvent(disk, w, c, close))
  {
    hide Core;
    OpenWindow(terms, s, w.id);
  }

  lemma SettleMoves(s: System, disk: Disk, w: Window, c: Live, close: bool)
    requires w.id in s.disk.windows && s.disk.windows[w.id] == w
    requires w.id in s.meter && s.meter[w.id] == c && w.lease in disk.leases
    ensures var t := Post(s, SettleEvent(disk, w, c, close));
            && t.disk.leases == s.disk.leases && t.disk.node == s.disk.node
            && t.disk.Slots() <= (if close then s.disk.Slots() else s.disk.Slots() + 1)
            && (forall id :: id in s.disk.windows && id != w.id ==> id in t.disk.windows && t.disk.windows[id] == s.disk.windows[id])
            && (forall id :: id in s.meter && id != w.id ==> id in t.meter && t.meter[id] == s.meter[id])
  {
    MovedSize(s.disk.windows, SettleEvent(disk, w, c, close).window);
  }

  lemma WatchedTail(disk: Disk, meter: map<Id, Live>, ids: seq<Id>)
    requires Watched(disk, meter, ids) && ids != []
    ensures Watched(disk, meter, ids[1..])
    ensures forall id :: id in ids[1..] ==> id in ids && id != ids[0]
  {
  }

  /** The planner's view of its first window and of the others. */
  lemma FirstOf(s: System, disk: Disk, meter: map<Id, Live>, trigger: Trigger, now: int, ids: seq<Id>, room: int)
    requires Watched(disk, meter, ids) && SeenAs(s, disk, meter, ids) && Frozen(disk, meter, trigger, now, ids) && ids != []
    ensures ids[0] in disk.windows && ids[0] in meter && disk.windows[ids[0]].lease in disk.leases
    ensures ids[0] in s.disk.windows && ids[0] in s.meter
    ensures Watched(disk, meter, ids[1..]) && SeenAs(s, disk, meter, ids[1..])
    ensures Frozen(disk, meter, trigger, now, ids[1..])
    ensures var w, c := disk.windows[ids[0]], meter[ids[0]];
            var close := Closes(disk, trigger, w, c, now);
            && w == s.disk.windows[ids[0]] && c == s.meter[ids[0]]
            && (close ==> c.closed)
            && ProgressEvents(disk, meter, trigger, now, ids, room)
               == if !close && (c.used == w.confirmed || room <= 0)
                  then ProgressEvents(disk, meter, trigger, now, ids[1..], room)
                  else [SettleEvent(disk, w, c, close)]
                       + ProgressEvents(disk, meter, trigger, now, ids[1..], if close then room else room - 1)
  {
    hide Closes, SettleEvent;
    WatchedTail(disk, meter, ids);
  }

  lemma StagedCons(terms: Terms, s: System, e: Event, rest: seq<Event>)
    requires Ready(terms, s, e) && Staged(terms, Post(s, e), rest)
    ensures Staged(terms, s, [e] + rest)
  {
    hide Ready, Post;
    assert ([e] + rest)[1..] == rest;
  }

  /** Settling one window leaves the others as the planner saw them. */
  lemma SettleOne(terms: Terms, s: System, disk: Disk, meter: map<Id, Live>, ids: seq<Id>, close: bool)
    requires Core(terms, s) && Watched(disk, meter, ids) && SeenAs(s, disk, meter, ids) && ids != []
    requires close ==> meter[ids[0]].closed
    requires !close ==> disk.windows[ids[0]].confirmed < meter[ids[0]].used && s.disk.Slots() < MAX_PENDING
    ensures var e := SettleEvent(disk, disk.windows[ids[0]], meter[ids[0]], close);
            && Ready(terms, s, e) && Core(terms, Post(s, e)) && SeenAs(Post(s, e), disk, meter, ids[1..])
            && Post(s, e).disk.Slots() <= (if close then s.disk.Slots() else s.disk.Slots() + 1)
  {
    hide Core, Ready, Post, SettleEvent;
    var w, c := disk.windows[ids[0]], meter[ids[0]];
    OpenWindow(terms, s, ids[0]);
    SettleIsReady(terms, s, disk, w, c, close);
    SettleMoves(s, disk, w, c, close);
    PostKeepsCore(terms, s, SettleEvent(disk, w, c, close));
    WatchedTail(disk, meter, ids);
  }

  lemma NothingStaged(terms: Terms, s: System, disk: Disk, meter: map<Id, Live>, trigger: Trigger, now: int, room: int)
    ensures Watched(disk, meter, []) && Staged(terms, s, ProgressEvents(disk, meter, trigger, now, [], room))
  {
  }

  /** Every progress batch applies, whatever the trigger, the order of the windows and the room left. */
  lemma {:induction false} ProgressIsStaged(terms: Terms, s: System, disk: Disk, meter: map<Id, Live>, trigger: Trigger, now: int,
                                            ids: seq<Id>, room: int)
    requires Core(terms, s) && Watched(disk, meter, ids) && SeenAs(s, disk, meter, ids)
    requires Frozen(disk, meter, trigger, now, ids) && room <= MAX_PENDING - s.disk.Slots()
    ensures Staged(terms, s, ProgressEvents(disk, meter, trigger, now, ids, room))
    decreases |ids|
  {
    hide *;
    if ids == [] {
      NothingStaged(terms, s, disk, meter, trigger, now, room);
    } else {
      FirstOf(s, disk, meter, trigger, now, ids, room);
      var w, c := disk.windows[ids[0]], meter[ids[0]];
      var close := Closes(disk, trigger, w, c, now);
      OpenWindow(terms, s, ids[0]);
      if !close && (c.used == w.confirmed || room <= 0) {
        ProgressIsStaged(terms, s, disk, meter, trigger, now, ids[1..], room);
      } else {
        var e := SettleEvent(disk, w, c, close);
        var left := if close then room else room - 1;
        SettleOne(terms, s, disk, meter, ids, close);
        ProgressIsStaged(terms, Post(s, e), disk, meter, trigger, now, ids[1..], left);
        StagedCons(terms, s, e, ProgressEvents(disk, meter, trigger, now, ids[1..], left));
      }
    }
  }

  // ----- Reservation -----

  /** A request for credit in one direction of a rule. */
  datatype Request = Request(rule: Rule, until: int, upload: bool, n: nat, prime: bool, size: int)

  datatype Refusal = Unavailable | LeaseChanged | SpoolFull

  /** `Enough` means that the direction already has its two windows. */
  datatype Decision = Refused(reason: Refusal) | Enough | Granted(event: Event)

  /** Whether `n` more bytes of a lease could be spent now. */
  ghost function Available(disk: Disk, lease: Option<Lease>, until: int, n: int, now: int): Option<Refusal> {
    if now >= until || lease.None? || now >= lease.value.expiresAt then Some(Unavailable)
    else
      var l := lease.value;
      if l.id in disk.retired then Some(Unavailable)
      else if l.id in disk.leases && disk.leases[l.id] != l then Some(LeaseChanged)
      else if !LeaseCapacity(disk, [l]) then Some(SpoolFull)
      else if l.bytes <= 0 || n > l.bytes - disk.Used(l.id) - disk.Liability(l.id) || disk.Used(l.id) >= l.bytes
      then Some(Unavailable)
      else if disk.Slots() >= MAX_PENDING then Some(SpoolFull)
      else None
  }

  /** The configured rule that a request still refers to. */
  function Current(rules: seq<Rule>, r: Rule): Option<Rule> {
    if rules == [] then None
    else if rules[0].id == r.id && rules[0].enabled && rules[0].UsesCredit() && rules[0].SameForwarding(r) then Some(rules[0])
    else Current(rules[1..], r)
  }

  function ReservedFor(staged: seq<Event>, lease: Id): int {
    if staged == [] then 0
    else (if staged[0].Reserve? && staged[0].window.lease == lease then staged[0].window.capacity else 0)
         + ReservedFor(staged[1..], lease)
  }

  function Grants(staged: seq<Event>): seq<Lease> {
    if staged == [] then []
    else (if staged[0].Reserve? then [staged[0].grant] else []) + Grants(staged[1..])
  }

  /** The first lease that can fund the request, or the primary one. */
  ghost function Funding(disk: Disk, primary: Option<Lease>, leases: seq<Lease>, until: int, staged: seq<Event>, n: int, now: int)
    : Option<Lease>
  {
    if leases == [] then primary
    else if Available(disk, Some(leases[0]), until, ReservedFor(staged, leases[0].id) + Max(1, n), now).None?
    then Some(leases[0])
    else Funding(disk, primary, leases[1..], until, staged, n, now)
  }

  /** How a staged event will move a measure, judged from the windows before the batch. */
  function Shift(windows: map<Id, Window>, e: Event, q: Measure): int {
    match e
    case Reserve(w, _) => Weight(q, w)
    case Progress(w, _) =>
      if w.id in windows then (if w.closed then 0 else Weight(q, w)) - Weight(q, windows[w.id]) else 0
    case _ => 0
  }

  function Shifts(windows: map<Id, Window>, staged: seq<Event>, q: Measure): int {
    if staged == [] then 0 else Shift(windows, staged[0], q) + Shifts(windows, staged[1..], q)
  }

  /** The measure as it will be once the staged batch has been applied. */
  ghost function Foreseen(windows: map<Id, Window>, staged: seq<Event>, q: Measure): int {
    Held(windows, q) + Shifts(windows, staged, q)
  }

  function WindowCap(tcp: bool, paused: bool, size: int, bytes: int): int {
    if tcp && !paused then Min(TCP_WINDOW, Min(Max(WINDOW_SIZE, size), Max(WINDOW_SIZE, bytes / 16))) else WINDOW_SIZE
  }

  function RuleCap(tcp: bool, paused: bool): int {
    if tcp && !paused then TCP_RULE_CREDITS else RULE_CREDITS
  }

  /** An even share of what is left, the odd byte going to uploads. */
  function Half(remaining: int, upload: bool): int {
    remaining / 2 + (if upload then remaining % 2 else 0)
  }

  /** The size of the window that a request gets, or a number that is not positive. */
  ghost function Grantable(disk: Disk, staged: seq<Event>, r: Request, rule: Rule, l: Lease, paused: bool): int {
    var room := Min(RuleCap(rule.tcp, paused) - Foreseen(disk.windows, staged, OfRule(rule.id)),
                    Min(ACCOUNT_CREDITS - Foreseen(disk.windows, staged, OfOwner(rule.Owner())),
                        l.bytes - disk.Used(l.id) - disk.Liability(l.id) - ReservedFor(staged, l.id)));
    var capacity := Min(WindowCap(rule.tcp, paused, r.size, l.bytes), Min(Max(r.n, (l.bytes - 1) / 4 + 1), room));
    if r.prime
    then Min(capacity, Half(l.bytes - disk.Used(l.id), r.upload)
                       - Foreseen(disk.windows, staged, Lane(rule.id, r.upload, l.id)))
    else capacity
  }

  /** The rule and the deadline that a request is judged by. */
  function Resolved(disk: Disk, r: Request): Option<(Rule, int)> {
    if !disk.config.present then Some((r.rule, r.until))
    else
      var rule := Current(disk.config.rules, r.rule);
      if rule.Some? then Some((rule.value, Min(r.until, disk.config.validUntil))) else None
  }

  ghost function Decide(disk: Disk, staged: seq<Event>, r: Request, paused: bool, now: int, id: Id): Decision {
    var current := Resolved(disk, r);
    if current.None? then Refused(Unavailable) else
    var (rule, until) := current.value;
    var lease := Funding(disk, rule.lease, rule.Leases(), until, staged, r.n, now);
    var blocked := Available(disk, lease, until, 0, now);
    if blocked.Some? then Refused(blocked.value) else
    var l := lease.value;
    if !LeaseCapacity(disk, [l] + Grants(staged)) || disk.Slots() + |staged| >= MAX_PENDING then Refused(SpoolFull)
    else if Foreseen(disk.windows, staged, InPool(rule.id, r.upload)) >= 2 then Enough
    else
      var capacity := Grantable(disk, staged, r, rule, l, paused);
      if capacity <= 0 || (r.n > 0 && capacity < r.n) then Refused(Unavailable)
      else Granted(Reserve(Window(id, rule.Owner(), rule.id, l.id, r.upload, capacity, 0, 0, now,
                                  Min(until, l.expiresAt), false, rule.tcp), l))
  }

  // ----- The planner foresees what the validator will find -----

  /** A credit batch: progress on distinct open windows and reservations of new ones. */
  ghost predicate CreditBatch(windows: map<Id, Window>, events: seq<Event>) {
    && (forall e :: e in events ==>
          || (e.Progress? && e.window.id in windows)
          || (e.Reserve? && e.window.id !in windows && e.window.lease == e.grant.id))
    && (forall i, j :: 0 <= i < j < |events| ==> events[i].window.id != events[j].window.id)
  }

  function WindowsAfter(windows: map<Id, Window>, e: Event): map<Id, Window> {
    match e
    case Reserve(w, _) => windows[w.id := w]
    case Progress(w, _) => Moved(windows, w)
    case _ => windows
  }

  lemma PostWindows(s: System, e: Event)
    ensures Post(s, e).disk.windows == WindowsAfter(s.disk.windows, e)
  {
  }

  lemma ShiftOne(windows: map<Id, Window>, e: Event, q: Measure)
    requires CreditBatch(windows, [e])
    ensures Held(WindowsAfter(windows, e), q) == Held(windows, q) + Shift(windows, e, q)
  {
    assert e in [e];
    if e.Reserve? {
      HeldPut(windows, q, e.window.id, e.window);
    } else {
      MovedHeld(windows, e.window, q);
    }
  }

  lemma {:induction false} ShiftsAgree(a: map<Id, Window>, b: map<Id, Window>, events: seq<Event>, q: Measure)
    requires forall e :: e in events && e.Progress? ==>
               e.window.id in a && e.window.id in b && a[e.window.id] == b[e.window.id]
    ensures Shifts(a, events, q) == Shifts(b, events, q)
  {
    if events != [] {
      assert events[0] in events;
      ShiftsAgree(a, b, events[1..], q);
    }
  }

  lemma {:induction false} ShiftsSnoc(windows: map<Id, Window>, events: seq<Event>, e: Event, q: Measure)
    ensures Shifts(windows, events + [e], q) == Shifts(windows, events, q) + Shift(windows, e, q)
  {
    if events == [] {
      assert events + [e] == [e];
    } else {
      assert (events + [e])[1..] == events[1..] + [e];
      ShiftsSnoc(windows, events[1..], e, q);
    }
  }

  lemma {:induction false} ReservedSnoc(events: seq<Event>, e: Event, l: Id)
    ensures ReservedFor(events + [e], l) == ReservedFor(events, l) + ReservedFor([e], l)
  {
    if events == [] {
      assert events + [e] == [e];
    } else {
      assert (events + [e])[1..] == events[1..] + [e];
      ReservedSnoc(events[1..], e, l);
    }
  }

  lemma BatchTail(windows: map<Id, Window>, events: seq<Event>)
    requires CreditBatch(windows, events) && events != []
    ensures CreditBatch(windows, [events[0]]) && CreditBatch(WindowsAfter(windows, events[0]), events[1..])
    ensures forall e :: e in events[1..] && e.Progress? ==>
              && e.window.id in windows && e.window.id in WindowsAfter(windows, events[0])
              && WindowsAfter(windows, events[0])[e.window.id] == windows[e.window.id]
  {
    var after := WindowsAfter(windows, events[0]);
    assert events[0] in events;
    forall e | e in events[1..]
      ensures e in events && e.window.id != events[0].window.id
    {
      var j :| 0 <= j < |events[1..]| && events[1..][j] == e;
      assert events[j + 1] == e;
    }
    forall e | e in events[1..]
      ensures (e.Progress? && e.window.id in after) || (e.Reserve? && e.window.id !in after && e.window.lease == e.grant.id)
    {
    }
  }

  /** The planner's totals are the validator's totals. */
  lemma {:induction false} ForeseenIsHeld(s: System, events: seq<Event>, q: Measure)
    requires CreditBatch(s.disk.windows, events)
    ensures Held(PostAll(s, events).disk.windows, q) == Foreseen(s.disk.windows, events, q)
    decreases |events|
  {
    if events != [] {
      hide CreditBatch, Post, WindowsAfter, Shift, Held;
      var windows, e := s.disk.windows, events[0];
      BatchTail(windows, events);
      PostWindows(s, e);
      ShiftOne(windows, e, q);
      ForeseenIsHeld(Post(s, e), events[1..], q);
      ShiftsAgree(windows, WindowsAfter(windows, e), events[1..], q);
    }
  }

  /** What a credit batch may cost a lease before it is settled. */
  lemma PostCommitment(terms: Terms, s: System, e: Event, l: Id)
    requires Ready(terms, s, e) && CreditBatch(s.disk.windows, [e])
    ensures var t := Post(s, e);
            t.disk.Used(l) + t.disk.Liability(l) <= s.disk.Used(l) + s.disk.Liability(l) + ReservedFor([e], l)
  {
    assert e in [e];
    ShiftOne(s.disk.windows, e, OfLease(l));
    PostWindows(s, e);
    hide Held;
  }

  lemma PostSlots(s: System, e: Event)
    requires CreditBatch(s.disk.windows, [e])
    ensures Post(s, e).disk.Slots() <= s.disk.Slots() + 1
  {
    assert e in [e];
    if e.Progress? {
      ProgressSize(s.disk, e.window, e.usage);
    } else {
      assert |s.disk.windows[e.window.id := e.window]| <= |s.disk.windows| + 1;
    }
  }

  lemma ProgressSize(disk: Disk, w: Window, u: Option<Usage>)
    requires w.id in disk.windows
    ensures Apply(disk, Progress(w, u)).Slots() <= disk.Slots() + 1
  {
    MovedSize(disk.windows, w);
  }

  /** What a credit batch leaves alone. */
  ghost predicate SameSurroundings(s: System, t: System, grants: seq<Lease>) {
    && t.disk.retired == s.disk.retired && t.disk.config == s.disk.config
    && t.disk.leases.Keys == s.disk.leases.Keys + Ids(grants)
    && t.forgotten == s.forgotten && t.now == s.now && t.running == s.running
  }

  lemma PostSurroundings(s: System, e: Event)
    requires e.Reserve? || e.Progress?
    ensures SameSurroundings(s, Post(s, e), Grants([e]))
  {
    if e.Reserve? {
      assert Grants([e]) == [e.grant] && e.grant in [e.grant];
    }
  }

  /** Everything the planner counts on about the state its batch will leave. */
  lemma {:induction false} BatchOutcome(terms: Terms, s: System, events: seq<Event>, l: Id)
    requires Core(terms, s) && Staged(terms, s, events) && CreditBatch(s.disk.windows, events)
    ensures var t := PostAll(s, events);
            && Core(terms, t) && SameSurroundings(s, t, Grants(events))
            && t.disk.Slots() <= s.disk.Slots() + |events|
            && t.disk.Used(l) + t.disk.Liability(l) <= s.disk.Used(l) + s.disk.Liability(l) + ReservedFor(events, l)
    decreases |events|
  {
    hide Core, Ready, Post, CreditBatch, Held, Staged, PostAll, SameSurroundings, Grants;
    if events == [] {
      NoSurroundings(s);
    } else {
      var e, rest := events[0], events[1..];
      StagedTail(terms, s, events);
      BatchTail(s.disk.windows, events);
      PostWindows(s, e);
      PostKeepsCore(terms, s, e);
      PostSlots(s, e);
      CreditKind(s.disk.windows, e);
      PostSurroundings(s, e);
      PostCommitment(terms, s, e, l);
      BatchOutcome(terms, Post(s, e), rest, l);
      assert [e] + rest == events;
      SurroundingsCompose(s, Post(s, e), PostAll(s, events), e, rest);
      assert ReservedFor([e], l) + ReservedFor(rest, l) == ReservedFor(events, l);
    }
  }

  lemma NoSurroundings(s: System)
    ensures SameSurroundings(s, s, Grants([])) && PostAll(s, []) == s
  {
    assert Ids([]) == {};
  }

  lemma CreditKind(windows: map<Id, Window>, e: Event)
    requires CreditBatch(windows, [e])
    ensures e.Reserve? || e.Progress?
  {
    assert e in [e];
  }

  lemma SurroundingsCompose(s: System, m: System, t: System, e: Event, rest: seq<Event>)
    requires SameSurroundings(s, m, Grants([e])) && SameSurroundings(m, t, Grants(rest))
    ensures SameSurroundings(s, t, Grants([e] + rest))
  {
    assert ([e] + rest)[1..] == rest;
    assert Grants([e] + rest) == Grants([e]) + Grants(rest);
    assert Ids(Grants([e]) + Grants(rest)) == Ids(Grants([e])) + Ids(Grants(rest));
  }

  // ----- A granted reservation is accepted -----

  lemma {:induction false} FundingIsOffered(disk: Disk, primary: Option<Lease>, leases: seq<Lease>, until: int, staged: seq<Event>, n: int, now: int)
    ensures var l := Funding(disk, primary, leases, until, staged, n, now);
            l == primary || (l.Some? && l.value in leases)
  {
    if leases != [] {
      FundingIsOffered(disk, primary, leases[1..], until, staged, n, now);
    }
  }

  lemma {:induction false} CurrentIsConfigured(rules: seq<Rule>, r: Rule)
    ensures var c := Current(rules, r);
            c.Some? ==> c.value in rules && forall l :: l in c.value.Leases() ==> l in LeasesOf(rules)
  {
    if rules != [] {
      CurrentIsConfigured(rules[1..], r);
    }
  }

  /** The lease behind a granted window is the one that the panel named. */
  lemma GrantIsHonest(terms: Terms, disk: Disk, staged: seq<Event>, r: Request, paused: bool, now: int, id: Id)
    requires ConfigOk(terms, disk.config) && (forall l :: l in r.rule.Leases() ==> l == terms(l.id))
    requires Decide(disk, staged, r, paused, now, id).Granted?
    ensures var l := Decide(disk, staged, r, paused, now, id).event.grant; l == terms(l.id)
  {
    hide LeaseCapacity, Foreseen, Grantable, Held;
    CurrentIsConfigured(disk.config.rules, r.rule);
    var (rule, until) := Resolved(disk, r).value;
    FundingIsOffered(disk, rule.lease, rule.Leases(), until, staged, r.n, now);
    assert rule.lease.Some? ==> rule.Leases()[0] == rule.lease.value;
  }

  /** What a granted reservation is made of. */
  lemma GrantIsMade(disk: Disk, staged: seq<Event>, r: Request, paused: bool, now: int, id: Id)
    requires Decide(disk, staged, r, paused, now, id).Granted?
    ensures Resolved(disk, r).Some?
    ensures var (rule, until) := Resolved(disk, r).value;
            var e := Decide(disk, staged, r, paused, now, id).event;
            && e.Reserve?
            && var w, l := e.window, e.grant;
               && w == Window(id, rule.Owner(), rule.id, l.id, r.upload, w.capacity, 0, 0, now, Min(until, l.expiresAt), false, rule.tcp)
               && Available(disk, Some(l), until, 0, now).None?
               && LeaseCapacity(disk, [l] + Grants(staged)) && disk.Slots() + |staged| < MAX_PENDING
               && Foreseen(disk.windows, staged, InPool(w.rule, w.upload)) < 2
               && w.capacity == Grantable(disk, staged, r, rule, l, paused) && 0 < w.capacity && (r.n > 0 ==> r.n <= w.capacity)
  {
    hide LeaseCapacity, Foreseen, Funding, Held, Available, Grantable, Min, Current;
    var (rule, until) := Resolved(disk, r).value;
    var lease := Funding(disk, rule.lease, rule.Leases(), until, staged, r.n, now);
    AvailableNeedsLease(disk, lease, until, 0, now);
  }

  lemma AvailableNeedsLease(disk: Disk, lease: Option<Lease>, until: int, n: int, now: int)
    requires Available(disk, lease, until, n, now).None?
    ensures lease.Some? && lease.value.id !in disk.retired && now < until && now < lease.value.expiresAt
  {
    hide Held, LeaseCapacity;
  }

  lemma GrantableIsBounded(disk: Disk, staged: seq<Event>, r: Request, rule: Rule, l: Lease, paused: bool)
    ensures var n := Grantable(disk, staged, r, rule, l, paused);
            && n <= WindowCap(rule.tcp, paused, r.size, l.bytes)
            && n <= RuleCap(rule.tcp, paused) - Foreseen(disk.windows, staged, OfRule(rule.id))
            && n <= ACCOUNT_CREDITS - Foreseen(disk.windows, staged, OfOwner(rule.Owner()))
            && n <= l.bytes - disk.Used(l.id) - disk.Liability(l.id) - ReservedFor(staged, l.id)
            && n <= Max(r.n, (l.bytes - 1) / 4 + 1)
            && (r.prime ==> n <= Half(l.bytes - disk.Used(l.id), r.upload) - Foreseen(disk.windows, staged, Lane(rule.id, r.upload, l.id)))
  {
    hide Foreseen, Held, ReservedFor, WindowCap, RuleCap, Half, Max;
  }

  lemma CapsFit(tcp: bool, paused: bool, size: int, bytes: int)
    ensures WindowCap(tcp, paused, size, bytes) <= (if tcp then TCP_WINDOW else WINDOW_SIZE)
    ensures RuleCap(tcp, paused) <= (if tcp then TCP_RULE_CREDITS else RULE_CREDITS)
    ensures paused || !tcp ==> WindowCap(tcp, paused, size, bytes) == WINDOW_SIZE
  {
  }

  /** The bounds that a granted window was sized by. */
  lemma GrantIsSized(disk: Disk, staged: seq<Event>, r: Request, paused: bool, now: int, id: Id)
    requires Decide(disk, staged, r, paused, now, id).Granted? && 0 < now
    ensures var e := Decide(disk, staged, r, paused, now, id).event;
            && e.Reserve?
            && var w, l := e.window, e.grant;
               && w.id == id && w.startedAt == now
               && WindowShape(w) && w.confirmed == 0 && w.sequence == 0 && !w.closed && w.lease == l.id
               && l.id !in disk.retired && w.until <= l.expiresAt && now < l.expiresAt
               && LeaseCapacity(disk, [l] + Grants(staged)) && disk.Slots() + |staged| < MAX_PENDING
               && Foreseen(disk.windows, staged, InPool(w.rule, w.upload)) < 2
               && w.capacity <= w.RuleLimit() - Foreseen(disk.windows, staged, OfRule(w.rule))
               && w.capacity <= ACCOUNT_CREDITS - Foreseen(disk.windows, staged, OfOwner(w.owner))
               && w.capacity <= l.bytes - disk.Used(l.id) - disk.Liability(l.id) - ReservedFor(staged, l.id)
               && (r.n > 0 ==> r.n <= w.capacity)
  {
    hide LeaseCapacity, Foreseen, Held, Available, Grantable, Decide, Resolved, WindowCap, RuleCap;
    GrantIsMade(disk, staged, r, paused, now, id);
    var (rule, until) := Resolved(disk, r).value;
    var l := Decide(disk, staged, r, paused, now, id).event.grant;
    AvailableNeedsLease(disk, Some(l), until, 0, now);
    GrantableIsBounded(disk, staged, r, rule, l, paused);
    CapsFit(rule.tcp, paused, r.size, l.bytes);
  }

  /** The two directions of a primed rule share what is left of the lease, to the byte. */
  lemma PrimeSharesEvenly(disk: Disk, staged: seq<Event>, r: Request, paused: bool, now: int, id: Id)
    requires Decide(disk, staged, r, paused, now, id).Granted? && r.prime && 0 < now
    ensures var e := Decide(disk, staged, r, paused, now, id).event;
            && e.Reserve?
            && var left := e.grant.bytes - disk.Used(e.grant.id);
               && Foreseen(disk.windows, staged + [e], Lane(e.window.rule, e.window.upload, e.grant.id)) <= Half(left, e.window.upload)
               && Half(left, true) + Half(left, false) == left && 0 <= Half(left, true) - Half(left, false) <= 1
  {
    hide LeaseCapacity, Foreseen, Held, Available, Grantable, Decide, Resolved, WindowCap, RuleCap;
    var e := Decide(disk, staged, r, paused, now, id).event;
    GrantIsMade(disk, staged, r, paused, now, id);
    GrantableIsBounded(disk, staged, r, Resolved(disk, r).value.0, e.grant, paused);
    ForeseenSnoc(disk.windows, staged, e, Lane(e.window.rule, e.window.upload, e.grant.id));
  }

  lemma ForeseenSnoc(windows: map<Id, Window>, staged: seq<Event>, e: Event, q: Measure)
    ensures Foreseen(windows, staged + [e], q) == Foreseen(windows, staged, q) + Shift(windows, e, q)
  {
    hide Held, Shift;
    ShiftsSnoc(windows, staged, e, q);
  }

  /** A window is at most a quarter of its lease, rounded up, unless one request needs more. */
  lemma GrantIsModest(disk: Disk, staged: seq<Event>, r: Request, paused: bool, now: int, id: Id)
    requires Decide(disk, staged, r, paused, now, id).Granted? && 0 < now
    ensures var e := Decide(disk, staged, r, paused, now, id).event;
            && e.Reserve? && 0 < e.window.capacity
            && (4 * e.window.capacity < e.grant.bytes + 4 || e.window.capacity <= r.n)
            && (paused || !e.window.tcp ==> e.window.capacity <= WINDOW_SIZE)
  {
    hide LeaseCapacity, Foreseen, Held, Available, Grantable, Decide, Resolved, WindowCap, RuleCap;
    var e := Decide(disk, staged, r, paused, now, id).event;
    GrantIsMade(disk, staged, r, paused, now, id);
    GrantableIsBounded(disk, staged, r, Resolved(disk, r).value.0, e.grant, paused);
    CapsFit(e.window.tcp, paused, r.size, e.grant.bytes);
  }

  lemma CapacityCarries(s: System, t: System, events: seq<Event>, l: Lease)
    requires SameSurroundings(s, t, Grants(events)) && LeaseCapacity(s.disk, [l] + Grants(events))
    ensures LeaseCapacity(t.disk, [l])
  {
    assert s.disk.leases.Keys + Ids([l] + Grants(events)) == t.disk.leases.Keys + Ids([l]);
  }

  lemma IdIsFresh(terms: Terms, s: System, id: Id)
    requires Core(terms, s) && id !in s.issued
    ensures id !in s.disk.windows
  {
    hide Inv, MeterOk, HistoryOk, BilledOk, ForgottenOk, AdmittedOk;
  }

  lemma ConfigIsOk(terms: Terms, s: System)
    requires Core(terms, s)
    ensures ConfigOk(terms, s.disk.config)
  {
    hide MeterOk, IssuedOk, HistoryOk, BilledOk, ForgottenOk, AdmittedOk, PendingOk, BudgetsOk, Capped, LeasesOk;
  }

  lemma RegistryAgrees(terms: Terms, s: System, l: Lease)
    requires Core(terms, s) && l == terms(l.id)
    ensures l.id in s.disk.leases ==> s.disk.leases[l.id] == l
    ensures s.now < l.expiresAt ==> l.id !in s.forgotten
  {
    hide PendingOk, BudgetsOk, Capped, LeasesOk, IssuedOk, HistoryOk, BilledOk, MeterOk, AdmittedOk, ConfigOk, WindowsOk;
  }

  /**
   * The planner refines the validator: a reservation decided against the state before the batch is accepted
   * after the whole batch has been applied.
   */
  lemma DecisionIsReady(terms: Terms, s: System, events: seq<Event>, r: Request, paused: bool, id: Id)
    requires Core(terms, s) && Staged(terms, s, events) && CreditBatch(s.disk.windows, events)
    requires 0 < s.now && id !in PostAll(s, events).issued
    requires forall l :: l in r.rule.Leases() ==> l == terms(l.id)
    requires Decide(s.disk, events, r, paused, s.now, id).Granted?
    ensures Ready(terms, PostAll(s, events), Decide(s.disk, events, r, paused, s.now, id).event)
  {
    hide Core, Staged, CreditBatch, LeaseCapacity, Decide, Held, PostAll, Foreseen, ReservedFor, Grants, ConfigOk;
    var t := PostAll(s, events);
    var e := Decide(s.disk, events, r, paused, s.now, id).event;
    ConfigIsOk(terms, s);
    GrantIsHonest(terms, s.disk, events, r, paused, s.now, id);
    GrantIsSized(s.disk, events, r, paused, s.now, id);
    var w, l := e.window, e.grant;
    BatchOutcome(terms, s, events, l.id);
    ForeseenIsHeld(s, events, InPool(w.rule, w.upload));
    ForeseenIsHeld(s, events, OfRule(w.rule));
    ForeseenIsHeld(s, events, OfOwner(w.owner));
    CapacityCarries(s, t, events, l);
    IdIsFresh(terms, t, w.id);
    RegistryAgrees(terms, t, l);
  }

  // ----- Whole batches -----

  lemma {:induction false} StagedSnoc(terms: Terms, s: System, events: seq<Event>, e: Event)
    requires Staged(terms, s, events) && Ready(terms, PostAll(s, events), e)
    ensures Staged(terms, s, events + [e])
    ensures PostAll(s, events + [e]) == Post(PostAll(s, events), e)
    decreases |events|
  {
    hide Ready, Post;
    if events == [] {
      assert events + [e] == [e] && [e][1..] == [];
      assert Staged(terms, Post(s, e), []);
    } else {
      assert (events + [e])[1..] == events[1..] + [e];
      StagedSnoc(terms, Post(s, events[0]), events[1..], e);
    }
  }

  lemma {:induction false} IssuedAfter(s: System, events: seq<Event>)
    ensures forall id :: id in PostAll(s, events).issued ==>
              id in s.issued || exists e :: e in events && e.Reserve? && e.window.id == id
    decreases |events|
  {
    hide Apply, MeterAfter, HistoryAfter, AdmittedAfter;
    if events != [] {
      IssuedAfter(Post(s, events[0]), events[1..]);
    }
  }

  /** Serve the requests in order, each seeing what the earlier ones staged. */
  ghost function Reservations(disk: Disk, staged: seq<Event>, requests: seq<Request>, paused: bool, now: int, ids: seq<Id>): seq<Event>
    requires |requests| <= |ids|
    decreases |requests|
  {
    if requests == [] then staged
    else
      var d := Decide(disk, staged, requests[0], paused, now, ids[0]);
      Reservations(disk, if d.Granted? then staged + [d.event] else staged, requests[1..], paused, now, ids[1..])
  }

  /** The identifiers drawn for a batch were never used before. */
  ghost predicate Unused(s: System, events: seq<Event>, ids: seq<Id>) {
    && (forall i, j :: 0 <= i < j < |ids| ==> ids[i] != ids[j])
    && (forall id :: id in ids ==> id !in s.issued && forall e :: e in events && e.Reserve? ==> e.window.id != id)
  }

  ghost predicate HonestRequests(terms: Terms, requests: seq<Request>) {
    forall r :: r in requests ==> forall l :: l in r.rule.Leases() ==> l == terms(l.id)
  }

  lemma FirstUnused(s: System, events: seq<Event>, ids: seq<Id>)
    requires Unused(s, events, ids) && ids != []
    ensures ids[0] !in PostAll(s, events).issued && ids[0] !in s.issued
    ensures forall e :: e in events && e.Reserve? ==> e.window.id != ids[0]
    ensures forall e: Event :: e.Reserve? && e.window.id == ids[0] ==> Unused(s, events + [e], ids[1..])
  {
    IssuedAfter(s, events);
    hide PostAll;
    assert ids[0] in ids;
    forall e: Event | e.Reserve? && e.window.id == ids[0] ensures Unused(s, events + [e], ids[1..]) {
      assert forall id :: id in ids[1..] ==> id in ids && id != ids[0];
    }
  }

  lemma GrantExtendsBatch(terms: Terms, s: System, events: seq<Event>, r: Request, paused: bool, ids: seq<Id>)
    requires Core(terms, s) && Staged(terms, s, events) && CreditBatch(s.disk.windows, events) && 0 < s.now
    requires ids != [] && Unused(s, events, ids)
    requires forall l :: l in r.rule.Leases() ==> l == terms(l.id)
    requires Decide(s.disk, events, r, paused, s.now, ids[0]).Granted?
    ensures var more := events + [Decide(s.disk, events, r, paused, s.now, ids[0]).event];
            Staged(terms, s, more) && CreditBatch(s.disk.windows, more) && Unused(s, more, ids[1..])
  {
    hide Core, Decide, Ready, Staged, CreditBatch, Unused, PostAll, Foreseen, LeaseCapacity;
    var e := Decide(s.disk, events, r, paused, s.now, ids[0]).event;
    FirstUnused(s, events, ids);
    GrantIsSized(s.disk, events, r, paused, s.now, ids[0]);
    IdIsFresh(terms, s, ids[0]);
    DecisionIsReady(terms, s, events, r, paused, ids[0]);
    StagedSnoc(terms, s, events, e);
    BatchSnoc(s.disk.windows, events, e);
  }

  lemma BatchSnoc(windows: map<Id, Window>, events: seq<Event>, e: Event)
    requires CreditBatch(windows, events) && e.Reserve? && e.window.id !in windows && e.window.lease == e.grant.id
    requires forall x :: x in events && x.Reserve? ==> x.window.id != e.window.id
    ensures CreditBatch(windows, events + [e])
  {
    forall i | 0 <= i < |events| ensures events[i].window.id != e.window.id {
      assert events[i] in events;
    }
  }

  lemma {:induction false} ReservationsAreStaged(terms: Terms, s: System, events: seq<Event>, requests: seq<Request>, paused: bool, ids: seq<Id>)
    requires Core(terms, s) && Staged(terms, s, events) && CreditBatch(s.disk.windows, events) && 0 < s.now
    requires |requests| <= |ids| && Unused(s, events, ids) && HonestRequests(terms, requests)
    ensures Staged(terms, s, Reservations(s.disk, events, requests, paused, s.now, ids))
    decreases |requests|
  {
    hide *;
    ReservationsUnfold(s.disk, events, requests, paused, s.now, ids);
    if requests != [] {
      var d := Decide(s.disk, events, requests[0], paused, s.now, ids[0]);
      var more := if d.Granted? then events + [d.event] else events;
      FirstRequest(terms, s, events, requests, ids);
      if d.Granted? {
        GrantExtendsBatch(terms, s, events, requests[0], paused, ids);
      }
      ReservationsAreStaged(terms, s, more, requests[1..], paused, ids[1..]);
    }
  }

  lemma ReservationsUnfold(disk: Disk, staged: seq<Event>, requests: seq<Request>, paused: bool, now: int, ids: seq<Id>)
    requires |requests| <= |ids|
    ensures Reservations(disk, staged, requests, paused, now, ids)
         == if requests == [] then staged
            else var d := Decide(disk, staged, requests[0], paused, now, ids[0]);
                 Reservations(disk, if d.Granted? then staged + [d.event] else staged, requests[1..], paused, now, ids[1..])
  {
    hide Decide;
  }

  lemma FirstRequest(terms: Terms, s: System, events: seq<Event>, requests: seq<Request>, ids: seq<Id>)
    requires requests != [] && |requests| <= |ids| && Unused(s, events, ids) && HonestRequests(terms, requests)
    ensures forall l :: l in requests[0].rule.Leases() ==> l == terms(l.id)
    ensures HonestRequests(terms, requests[1..]) && Unused(s, events, ids[1..])
  {
    assert requests[0] in requests;
    assert forall id :: id in ids[1..] ==> id in ids;
  }
}
