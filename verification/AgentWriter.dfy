/** The writer's computations, window by window and event by event, proved against the planner and the validator. */
module AgentWriter {
  import opened AgentTypes
  import opened AgentState
  import opened AgentSystem
  import opened AgentPlanner
  import Sums

  // ----- Totals over the open windows, read one window at a time -----

  lemma OneMoreWindow(windows: map<Id, Window>, todo: set<Id>, id: Id, q: Measure)
    requires id in todo && todo <= windows.Keys
    ensures Held(windows - (todo - {id}), q) == Held(windows - todo, q) + Weight(q, windows[id])
  {
    assert windows - (todo - {id}) == (windows - todo)[id := windows[id]];
    HeldPut(windows - todo, q, id, windows[id]);
  }

  lemma NothingLeft(windows: map<Id, Window>, q: Measure)
    ensures Held(windows - windows.Keys, q) == 0 && Held(windows - {}, q) == Held(windows, q)
  {
    assert windows - windows.Keys == map[];
    Sums.SumUnfolds(windows - windows.Keys, By(q));
    assert windows - {} == windows;
  }

  method SumLiability(windows: map<Id, Window>, lease: Id) returns (n: int)
    ensures n == Held(windows, OfLease(lease))
  {
    hide Held;
    n := 0;
    var todo := windows.Keys;
    NothingLeft(windows, OfLease(lease));
    while todo != {}
      invariant todo <= windows.Keys
      invariant n == Held(windows - todo, OfLease(lease))
      decreases |todo|
    {
      var id :| id in todo;
      OneMoreWindow(windows, todo, id, OfLease(lease));
      if windows[id].lease == lease {
        n := n + windows[id].Left();
      }
      todo := todo - {id};
    }
  }

  datatype Tally = Tally(rule: int, owner: int, lane: int, count: int)

  /** The four totals that bound a new window, in one pass over the open windows. */
  method TallyWindows(windows: map<Id, Window>, rule: Id, owner: Owner, up: bool, lease: Id) returns (t: Tally)
    ensures t == Tally(Held(windows, OfRule(rule)), Held(windows, OfOwner(owner)),
                       Held(windows, Lane(rule, up, lease)), Held(windows, InPool(rule, up)))
  {
    hide Held;
    t := Tally(0, 0, 0, 0);
    var todo := windows.Keys;
    NothingLeft(windows, OfRule(rule));
    NothingLeft(windows, OfOwner(owner));
    NothingLeft(windows, Lane(rule, up, lease));
    NothingLeft(windows, InPool(rule, up));
    while todo != {}
      invariant todo <= windows.Keys
      invariant t == Tally(Held(windows - todo, OfRule(rule)), Held(windows - todo, OfOwner(owner)),
                           Held(windows - todo, Lane(rule, up, lease)), Held(windows - todo, InPool(rule, up)))
      decreases |todo|
    {
      var id :| id in todo;
      var w := windows[id];
      OneMoreWindow(windows, todo, id, OfRule(rule));
      OneMoreWindow(windows, todo, id, OfOwner(owner));
      OneMoreWindow(windows, todo, id, Lane(rule, up, lease));
      OneMoreWindow(windows, todo, id, InPool(rule, up));
      if w.rule == rule {
        t := t.(rule := t.rule + w.Left());
        if w.upload == up {
          t := t.(count := t.count + 1);
          if w.lease == lease {
            t := t.(lane := t.lane + w.Left());
          }
        }
      }
      if w.owner == owner {
        t := t.(owner := t.owner + w.Left());
      }
      todo := todo - {id};
    }
  }

  /** Staged progress continues its window, and staged reservations are unspent. */
  ghost predicate Plausible(windows: map<Id, Window>, staged: seq<Event>) {
    forall e :: e in staged ==>
      && (e.Progress? && e.window.id in windows ==> Continues(windows[e.window.id], e.window))
      && (e.Reserve? ==> e.window.confirmed == 0)
  }

  /** The same totals once the staged events have been applied, and what they reserve from one lease. */
  method TallyStaged(windows: map<Id, Window>, staged: seq<Event>, rule: Id, owner: Owner, up: bool, lease: Id)
    returns (t: Tally, reserved: int)
    requires Plausible(windows, staged)
    ensures t == Tally(Foreseen(windows, staged, OfRule(rule)), Foreseen(windows, staged, OfOwner(owner)),
                       Foreseen(windows, staged, Lane(rule, up, lease)), Foreseen(windows, staged, InPool(rule, up)))
    ensures reserved == ReservedFor(staged, lease)
  {
    t := TallyWindows(windows, rule, owner, up, lease);
    hide Held;
    reserved := 0;
    var i := 0;
    while i < |staged|
      invariant 0 <= i <= |staged|
      invariant t == Tally(Foreseen(windows, staged[..i], OfRule(rule)), Foreseen(windows, staged[..i], OfOwner(owner)),
                           Foreseen(windows, staged[..i], Lane(rule, up, lease)), Foreseen(windows, staged[..i], InPool(rule, up)))
      invariant reserved == ReservedFor(staged[..i], lease)
    {
      var e := staged[i];
      assert staged[..i + 1] == staged[..i] + [e] && e in staged;
      ShiftsSnoc(windows, staged[..i], e, OfRule(rule));
      ShiftsSnoc(windows, staged[..i], e, OfOwner(owner));
      ShiftsSnoc(windows, staged[..i], e, Lane(rule, up, lease));
      ShiftsSnoc(windows, staged[..i], e, InPool(rule, up));
      ReservedSnoc(staged[..i], e, lease);
      if e.Progress? && e.window.id in windows {
        var w, before := e.window, windows[e.window.id];
        var released := if w.closed then before.Left() else w.confirmed - before.confirmed;
        if w.rule == rule {
          t := t.(rule := t.rule - released);
          if w.upload == up {
            if w.closed {
              t := t.(count := t.count - 1);
            }
            if w.lease == lease {
              t := t.(lane := t.lane - released);
            }
          }
        }
        if w.owner == owner {
          t := t.(owner := t.owner - released);
        }
      } else if e.Reserve? {
        var w := e.window;
        if w.rule == rule {
          t := t.(rule := t.rule + w.capacity);
          if w.upload == up {
            t := t.(count := t.count + 1);
            if w.lease == lease {
              t := t.(lane := t.lane + w.capacity);
            }
          }
        }
        if w.owner == owner {
          t := t.(owner := t.owner + w.capacity);
        }
        if w.lease == lease {
          reserved := reserved + w.capacity;
        }
      }
      i := i + 1;
    }
    assert staged[..i] == staged;
  }

  // ----- The validator -----

  /** Whether the log accepts a reservation. */
  method ValidateReserve(s: Disk, w: Window, l: Lease) returns (ok: bool)
    ensures ok == ValidReserve(s, w, l)
  {
    hide Held;
    var t := TallyWindows(s.windows, w.rule, w.owner, w.upload, w.lease);
    var liability := SumLiability(s.windows, l.id);
    ok := && WindowShape(w)
          && w.id !in s.windows && w.confirmed == 0 && w.sequence == 0 && !w.closed && w.lease == l.id
          && (l.id in s.leases ==> s.leases[l.id] == l)
          && l.id !in s.retired
          && LeaseCapacity(s, [l])
          && t.count < 2 && w.capacity <= w.RuleLimit() - t.rule && w.capacity <= ACCOUNT_CREDITS - t.owner
          && w.capacity <= l.bytes - s.Used(l.id) - liability
          && w.until <= l.expiresAt
          && s.Slots() < MAX_PENDING;
  }

  method ValidateCharge(s: Disk, u: Usage, l: Option<Lease>) returns (ok: bool)
    ensures ok == ValidCharge(s, u, l)
  {
    hide Held;
    if u.up < 0 || u.down < 0 || u.lease in s.retired { return false; }
    if u.lease !in s.leases && (l.None? || l.value.id != u.lease) { return false; }
    var lease := if u.lease in s.leases then s.leases[u.lease] else l.value;
    var liability := SumLiability(s.windows, u.lease);
    ok := u.Bytes() <= lease.bytes - s.Used(u.lease) - liability && u.node == s.node && u.entitlement == lease.entitlement
          && s.Slots() < MAX_PENDING;
  }

  method ValidateEvent(s: Disk, e: Event) returns (ok: bool)
    ensures ok == Valid(s, e)
  {
    hide ValidReserve, ValidCharge;
    match e
    case Reserve(w, l) => ok := ValidateReserve(s, w, l);
    case Progress(w, u) => ok := ValidProgress(s, w, u);
    case SetConfig(c) => ok := ValidConfig(s, c);
    case Charge(u, l) => ok := ValidateCharge(s, u, l);
    case Ack(_) => ok := true;
    case Retire(l) => ok := l in s.leases;
    case RetireAck(l) => ok := l in s.retired && forall u :: u in s.pending ==> u.lease != l;
  }

  // ----- The effect of an event -----

  method DropAcknowledged(pending: seq<Usage>, ids: set<UsageId>) returns (rest: seq<Usage>)
    ensures rest == Unacknowledged(pending, ids)
  {
    rest := [];
    var i := 0;
    while i < |pending|
      invariant 0 <= i <= |pending| && rest == Unacknowledged(pending[..i], ids)
    {
      assert pending[..i + 1][..i] == pending[..i];
      if pending[i].id !in ids {
        rest := rest + [pending[i]];
      }
      i := i + 1;
    }
    assert pending[..i] == pending;
  }

  method RegisterAll(leases: map<Id, Lease>, incoming: seq<Lease>) returns (known: map<Id, Lease>)
    ensures known == Register(leases, incoming)
  {
    known := leases;
    var i := 0;
    while i < |incoming|
      invariant 0 <= i <= |incoming| && Register(known, incoming[i..]) == Register(leases, incoming)
    {
      known := known[incoming[i].id := incoming[i]];
      assert incoming[i..][1..] == incoming[i + 1..];
      i := i + 1;
    }
  }

  lemma OneMoreStop(retired: map<Id, bool>, leases: seq<Lease>, i: nat, active: set<Id>)
    requires i < |leases|
    ensures var l, before := leases[i], Stop(retired, Ids(leases[..i]) - active);
            Stop(retired, Ids(leases[..i + 1]) - active)
            == if l.id in active || l.id in before then before else before[l.id := false]
  {
    var l := leases[i];
    assert leases[..i + 1] == leases[..i] + [l];
    assert Ids(leases[..i + 1]) == Ids(leases[..i]) + {l.id};
    hide Ids;
  }

  lemma NoStop(retired: map<Id, bool>, leases: seq<Lease>, active: set<Id>)
    ensures Stop(retired, Ids(leases[..0]) - active) == retired
  {
    assert Ids(leases[..0]) == {};
  }

  method StopInactive(retired: map<Id, bool>, leases: seq<Lease>, active: set<Id>) returns (stopped: map<Id, bool>)
    ensures stopped == Stop(retired, Ids(leases) - active)
  {
    hide Stop, Ids;
    stopped := retired;
    var i := 0;
    NoStop(retired, leases, active);
    while i < |leases|
      invariant 0 <= i <= |leases| && stopped == Stop(retired, Ids(leases[..i]) - active)
    {
      var l := leases[i];
      OneMoreStop(retired, leases, i, active);
      if l.id !in active && l.id !in stopped {
        stopped := stopped[l.id := false];
      }
      i := i + 1;
    }
    assert leases[..i] == leases;
  }

  method ApplyTo(s: Disk, e: Event) returns (t: Disk)
    ensures t == Apply(s, e)
  {
    hide Register, Stop, Ids, LeasesOf, EnabledRules, Unacknowledged;
    t := s;
    match e
    case Reserve(w, l) => t := t.(leases := t.leases[l.id := l], windows := t.windows[w.id := w]);
    case Progress(w, usage) =>
      if usage.Some? {
        t := t.(used := Billed(t.used, usage.value.lease, usage.value.Bytes()), pending := t.pending + [usage.value]);
      }
      t := t.(windows := if w.closed then t.windows - {w.id} else t.windows[w.id := w]);
    case SetConfig(c) =>
      var leases := RegisterAll(s.leases, LeasesOf(EnabledRules(c.rules)));
      var retired := StopInactive(s.retired, LeasesOf(s.config.rules), Active(c));
      t := t.(leases := leases, retired := retired, config := c);
    case Charge(u, l) =>
      if u.lease !in t.leases && l.Some? {
        t := t.(leases := t.leases[u.lease := l.value]);
      }
      t := t.(used := Billed(t.used, u.lease, u.Bytes()), pending := t.pending + [u]);
    case Ack(ids) =>
      var pending := DropAcknowledged(s.pending, ids);
      t := t.(pending := pending);
    case Retire(l) => t := t.(retired := Stop(t.retired, {l}));
    case RetireAck(l) => t := t.(retired := t.retired[l := true]);
  }

  // ----- The planner -----

  method CheckAvailable(disk: Disk, lease: Option<Lease>, until: int, n: int, now: int) returns (refusal: Option<Refusal>)
    ensures refusal == Available(disk, lease, until, n, now)
  {
    hide Held;
    if now >= until || lease.None? || now >= lease.value.expiresAt { return Some(Unavailable); }
    var l := lease.value;
    if l.id in disk.retired { return Some(Unavailable); }
    if l.id in disk.leases && disk.leases[l.id] != l { return Some(LeaseChanged); }
    if !LeaseCapacity(disk, [l]) { return Some(SpoolFull); }
    var liability := SumLiability(disk.windows, l.id);
    if l.bytes <= 0 || n > l.bytes - disk.Used(l.id) - liability || disk.Used(l.id) >= l.bytes { return Some(Unavailable); }
    if disk.Slots() >= MAX_PENDING { return Some(SpoolFull); }
    refusal := None;
  }

  method SumReserved(staged: seq<Event>, lease: Id) returns (n: int)
    ensures n == ReservedFor(staged, lease)
  {
    n := 0;
    var i := 0;
    while i < |staged|
      invariant 0 <= i <= |staged| && n == ReservedFor(staged[..i], lease)
    {
      assert staged[..i + 1] == staged[..i] + [staged[i]];
      ReservedSnoc(staged[..i], staged[i], lease);
      if staged[i].Reserve? && staged[i].window.lease == lease {
        n := n + staged[i].window.capacity;
      }
      i := i + 1;
    }
    assert staged[..i] == staged;
  }

  /** The first lease that can fund the request, or the primary one. */
  method ChooseFunding(disk: Disk, rule: Rule, until: int, staged: seq<Event>, n: int, now: int) returns (lease: Option<Lease>)
    ensures lease == Funding(disk, rule.lease, rule.Leases(), until, staged, n, now)
  {
    hide Available, ReservedFor;
    var leases := rule.Leases();
    var i := 0;
    while i < |leases|
      invariant 0 <= i <= |leases|
      invariant Funding(disk, rule.lease, leases, until, staged, n, now) == Funding(disk, rule.lease, leases[i..], until, staged, n, now)
    {
      var extra := SumReserved(staged, leases[i].id);
      var refusal := CheckAvailable(disk, Some(leases[i]), until, extra + Max(1, n), now);
      if refusal.None? { return Some(leases[i]); }
      i := i + 1;
    }
    lease := rule.lease;
  }

  method CurrentRule(rules: seq<Rule>, r: Rule) returns (rule: Option<Rule>)
    ensures rule == Current(rules, r)
  {
    var i := 0;
    while i < |rules|
      invariant 0 <= i <= |rules| && Current(rules, r) == Current(rules[i..], r)
    {
      if rules[i].id == r.id && rules[i].enabled && rules[i].UsesCredit() && rules[i].SameForwarding(r) { return Some(rules[i]); }
      i := i + 1;
    }
    rule := None;
  }

  /** How many windows the direction will have, and the size that its next one could have. */
  method SizeWindow(disk: Disk, staged: seq<Event>, r: Request, rule: Rule, l: Lease, paused: bool) returns (count: int, capacity: int)
    requires Plausible(disk.windows, staged)
    ensures count == Foreseen(disk.windows, staged, InPool(rule.id, r.upload))
    ensures capacity == Grantable(disk, staged, r, rule, l, paused)
  {
    hide Held, Foreseen, ReservedFor, Plausible, Min, Max, WindowCap, RuleCap, Half;
    var t, reserved := TallyStaged(disk.windows, staged, rule.id, rule.Owner(), r.upload, l.id);
    var liability := SumLiability(disk.windows, l.id);
    var room := Min(RuleCap(rule.tcp, paused) - t.rule,
                    Min(ACCOUNT_CREDITS - t.owner, l.bytes - disk.Used(l.id) - liability - reserved));
    count := t.count;
    capacity := Min(WindowCap(rule.tcp, paused, r.size, l.bytes), Min(Max(r.n, (l.bytes - 1) / 4 + 1), room));
    if r.prime {
      capacity := Min(capacity, Half(l.bytes - disk.Used(l.id), r.upload) - t.lane);
    }
  }

  /** Plan one reservation against the state before the batch and the events staged so far. */
  method ReserveCredit(disk: Disk, staged: seq<Event>, r: Request, paused: bool, now: int, id: Id) returns (d: Decision)
    requires Plausible(disk.windows, staged)
    ensures d == Decide(disk, staged, r, paused, now, id)
  {
    hide Held, Available, Foreseen, Funding, ReservedFor, Plausible, LeaseCapacity, Current, Grants, Grantable, Min;
    var rule, until := r.rule, r.until;
    if disk.config.present {
      var current := CurrentRule(disk.config.rules, r.rule);
      if current.None? { return Refused(Unavailable); }
      rule, until := current.value, Min(r.until, disk.config.validUntil);
    }
    var lease := ChooseFunding(disk, rule, until, staged, r.n, now);
    var blocked := CheckAvailable(disk, lease, until, 0, now);
    if blocked.Some? { return Refused(blocked.value); }
    AvailableNeedsLease(disk, lease, until, 0, now);
    var l := lease.value;
    if !LeaseCapacity(disk, [l] + Grants(staged)) || disk.Slots() + |staged| >= MAX_PENDING { return Refused(SpoolFull); }
    var count, capacity := SizeWindow(disk, staged, r, rule, l, paused);
    if count >= 2 { return Enough; }
    if capacity <= 0 || (r.n > 0 && capacity < r.n) { return Refused(Unavailable); }
    d := Granted(Reserve(Window(id, rule.Owner(), rule.id, l.id, r.upload, capacity, 0, 0, now,
                                Min(until, l.expiresAt), false, rule.tcp), l));
  }
}
