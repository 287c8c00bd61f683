/** How large a granted window is, which lease pays for it, and which configured rule it is for. */
module AgentSizing {
  import opened AgentTypes
  import opened AgentState
  import opened AgentSystem
  import opened AgentPlanner

  // ----- The rule -----

  /** The rule that a request still refers to: same name, enabled, metered by windows, same forwarding. */
  predicate Serves(o: Rule, r: Rule) {
    && o.id == r.id && o.enabled && (o.tcp || o.udpCredit)
    && (if o.lease.None? || r.lease.None? then o == r else o.(lease := None, standby := None) == r.(lease := None, standby := None))
  }

  /** A request is judged by the first configured rule that serves it, and refused if there is none. */
  lemma {:induction false} CurrentIsFirst(rules: seq<Rule>, r: Rule)
    ensures Current(rules, r).None? <==> forall o :: o in rules ==> !Serves(o, r)
    ensures Current(rules, r).Some? ==>
              exists k :: 0 <= k < |rules| && rules[k] == Current(rules, r).value && Serves(rules[k], r)
                          && forall j :: 0 <= j < k ==> !Serves(rules[j], r)
    decreases |rules|
  {
    if rules != [] {
      assert rules[0] in rules;
      if !Serves(rules[0], r) {
        var rest := rules[1..];
        CurrentIsFirst(rest, r);
        if Current(rules, r).Some? {
          var k :| 0 <= k < |rest| && rest[k] == Current(rest, r).value && Serves(rest[k], r) && forall j :: 0 <= j < k ==> !Serves(rest[j], r);
          assert rules[k + 1] == Current(rules, r).value;
          assert forall j :: 0 <= j < k + 1 ==> rules[j] == if j == 0 then rules[0] else rest[j - 1];
        }
      }
    }
  }

  // ----- The lease -----

  /** `n` bytes of the lease can be promised now. */
  ghost predicate CanPay(disk: Disk, l: Lease, until: int, n: int, now: int) {
    && now < until && now < l.expiresAt && l.id !in disk.retired && (l.id in disk.leases ==> disk.leases[l.id] == l)
    && |disk.leases.Keys + {l.id}| <= 16_384 && |disk.pending| + |disk.windows| < 4096
    && 0 < l.bytes && disk.Used(l.id) < l.bytes && disk.Used(l.id) + disk.Liability(l.id) + n <= l.bytes
  }

  lemma AvailableIsPayable(disk: Disk, l: Lease, until: int, n: int, now: int)
    ensures Available(disk, Some(l), until, n, now).None? <==> CanPay(disk, l, until, n, now)
    ensures Available(disk, Some(l), until, n, now) == Some(LeaseChanged) <==>
              now < until && now < l.expiresAt && l.id !in disk.retired && l.id in disk.leases && disk.leases[l.id] != l
    ensures Available(disk, Some(l), until, n, now) == Some(SpoolFull) <==>
              && now < until && now < l.expiresAt && l.id !in disk.retired && (l.id in disk.leases ==> disk.leases[l.id] == l)
              && (|disk.leases.Keys + {l.id}| > 16_384
                  || (0 < l.bytes && disk.Used(l.id) < l.bytes && disk.Used(l.id) + disk.Liability(l.id) + n <= l.bytes
                      && |disk.pending| + |disk.windows| >= 4096))
  {
    hide Held;
    assert Ids([l]) == {l.id};
  }

  /** The first lease of the rule that can pay for the request beside what the batch already took, else the primary one. */
  lemma {:induction false} FundingIsFirst(disk: Disk, primary: Option<Lease>, leases: seq<Lease>, until: int, staged: seq<Event>, n: int, now: int)
    ensures var f := Funding(disk, primary, leases, until, staged, n, now);
            || (&& f == primary
                && forall l :: l in leases ==> !CanPay(disk, l, until, ReservedFor(staged, l.id) + Max(1, n), now))
            || (&& f.Some? && exists k :: && 0 <= k < |leases| && leases[k] == f.value
                                          && CanPay(disk, leases[k], until, ReservedFor(staged, leases[k].id) + Max(1, n), now)
                                          && forall j :: 0 <= j < k ==>
                                               !CanPay(disk, leases[j], until, ReservedFor(staged, leases[j].id) + Max(1, n), now))
    decreases |leases|
  {
    hide Available, CanPay, ReservedFor, Max;
    if leases != [] {
      AvailableIsPayable(disk, leases[0], until, ReservedFor(staged, leases[0].id) + Max(1, n), now);
      if CanPay(disk, leases[0], until, ReservedFor(staged, leases[0].id) + Max(1, n), now) {
        assert leases[0] == leases[0];
      } else {
        var rest := leases[1..];
        FundingIsFirst(disk, primary, rest, until, staged, n, now);
        if k :| && 0 <= k < |rest| && Funding(disk, primary, rest, until, staged, n, now) == Some(rest[k])
                && CanPay(disk, rest[k], until, ReservedFor(staged, rest[k].id) + Max(1, n), now)
                && forall j :: 0 <= j < k ==> !CanPay(disk, rest[j], until, ReservedFor(staged, rest[j].id) + Max(1, n), now)
        {
          assert leases[k + 1] == rest[k];
          assert forall j :: 0 <= j < k + 1 ==> leases[j] == if j == 0 then leases[0] else rest[j - 1];
        }
      }
    }
  }

  /** What the batch already took from a lease is what its new windows will hold of it. */
  lemma {:induction false} ReservedIsHeld(s: System, events: seq<Event>, l: Id)
    requires CreditBatch(s.disk.windows, events) && forall e :: e in events ==> e.Reserve? && e.window.confirmed == 0
    ensures Held(PostAll(s, events).disk.windows, OfLease(l)) == Held(s.disk.windows, OfLease(l)) + ReservedFor(events, l)
    decreases |events|
  {
    if events != [] {
      hide CreditBatch, Post, WindowsAfter, Held;
      var e := events[0];
      BatchTail(s.disk.windows, events);
      PostWindows(s, e);
      assert e in events;
      ShiftOne(s.disk.windows, e, OfLease(l));
      ReservedIsHeld(Post(s, e), events[1..], l);
    }
  }

  /** Progress takes nothing. */
  lemma ProgressReservesNothing(events: seq<Event>, e: Event, l: Id)
    requires !e.Reserve?
    ensures ReservedFor(events + [e], l) == ReservedFor(events, l)
  {
    ReservedSnoc(events, e, l);
    assert [e][1..] == [];
  }

  // ----- The size -----

  /**
   * A window of `n` bytes respects every limit. A small lease keeps small windows, a direction gets at most a quarter of
   * the lease at a time unless one request needs more, and primed windows split what is left evenly.
   */
  ghost predicate Fits(disk: Disk, staged: seq<Event>, r: Request, rule: Rule, l: Lease, paused: bool, n: int) {
    && (if rule.tcp && !paused then n <= 2_097_152 && (n <= 262_144 || (n <= r.size && 16 * n <= l.bytes)) else n <= 262_144)
    && (n <= r.n || 4 * (n - 1) < l.bytes)
    && Foreseen(disk.windows, staged, OfRule(rule.id)) + n <= (if rule.tcp && !paused then 4_194_304 else 1_048_576)
    && Foreseen(disk.windows, staged, OfOwner(rule.Owner())) + n <= 8_388_608
    && disk.Used(l.id) + disk.Liability(l.id) + ReservedFor(staged, l.id) + n <= l.bytes
    && (r.prime ==> 2 * (Foreseen(disk.windows, staged, Lane(rule.id, r.upload, l.id)) + n)
                    <= l.bytes - disk.Used(l.id) + (if r.upload then 1 else 0))
  }

  lemma QuarterIsCeiling(n: int, bytes: int)
    ensures n <= (bytes - 1) / 4 + 1 <==> 4 * (n - 1) < bytes
    ensures n <= bytes / 16 <==> 16 * n <= bytes
  {
  }

  lemma HalfIsEven(left: int, up: bool, n: int)
    ensures n <= Half(left, up) <==> 2 * n <= left + (if up then 1 else 0)
  {
  }

  lemma CapIsLimit(rule: Rule, paused: bool, size: int, bytes: int, n: int)
    ensures n <= WindowCap(rule.tcp, paused, size, bytes)
       <==> if rule.tcp && !paused then n <= 2_097_152 && (n <= 262_144 || (n <= size && 16 * n <= bytes)) else n <= 262_144
    ensures RuleCap(rule.tcp, paused) == if rule.tcp && !paused then 4_194_304 else 1_048_576
  {
    QuarterIsCeiling(n, bytes);
  }

  /** The planned size is the largest that fits. */
  lemma GrantableIsLargest(disk: Disk, staged: seq<Event>, r: Request, rule: Rule, l: Lease, paused: bool, n: int)
    ensures n <= Grantable(disk, staged, r, rule, l, paused) <==> Fits(disk, staged, r, rule, l, paused, n)
  {
    hide Foreseen, Held, ReservedFor, WindowCap, RuleCap, Half;
    QuarterIsCeiling(n, l.bytes);
    CapIsLimit(rule, paused, r.size, l.bytes, n);
    HalfIsEven(l.bytes - disk.Used(l.id), r.upload, n + Foreseen(disk.windows, staged, Lane(rule.id, r.upload, l.id)));
  }

  /** A granted window is the largest that fits: one more byte would break a limit. */
  lemma GrantIsLargest(disk: Disk, staged: seq<Event>, r: Request, paused: bool, now: int, id: Id)
    requires Decide(disk, staged, r, paused, now, id).Granted?
    ensures Resolved(disk, r).Some?
    ensures var rule := Resolved(disk, r).value.0;
            var e := Decide(disk, staged, r, paused, now, id).event;
            && e.Reserve? && Fits(disk, staged, r, rule, e.grant, paused, e.window.capacity)
            && forall n :: e.window.capacity < n ==> !Fits(disk, staged, r, rule, e.grant, paused, n)
  {
    hide Foreseen, Held, ReservedFor, Grantable, Decide, Fits, LeaseCapacity, Available;
    GrantIsMade(disk, staged, r, paused, now, id);
    var rule := Resolved(disk, r).value.0;
    var e := Decide(disk, staged, r, paused, now, id).event;
    forall n ensures n <= e.window.capacity <==> Fits(disk, staged, r, rule, e.grant, paused, n) {
      GrantableIsLargest(disk, staged, r, rule, e.grant, paused, n);
    }
  }

  // ----- The decision -----

  /** The rule and the deadline by which a request is judged. */
  ghost predicate JudgedBy(disk: Disk, r: Request, rule: Rule, until: int) {
    if !disk.config.present then rule == r.rule && until == r.until
    else
      && until == Min(r.until, disk.config.validUntil)
      && exists k :: && 0 <= k < |disk.config.rules| && disk.config.rules[k] == rule && Serves(rule, r.rule)
                     && forall j :: 0 <= j < k ==> !Serves(disk.config.rules[j], r.rule)
  }

  lemma ResolvedIsJudged(disk: Disk, r: Request)
    ensures Resolved(disk, r).None? <==> disk.config.present && forall o :: o in disk.config.rules ==> !Serves(o, r.rule)
    ensures Resolved(disk, r).Some? ==> JudgedBy(disk, r, Resolved(disk, r).value.0, Resolved(disk, r).value.1)
  {
    hide Current, Serves;
    CurrentIsFirst(disk.config.rules, r.rule);
  }

  /**
   * The whole decision. A request that no configured rule serves is refused. Otherwise the paying lease is chosen, and a
   * window is granted if and only if that lease is usable, the registry and the spool have room for the batch, the
   * direction has fewer than two windows, and a window that covers the request fits; it then has the largest size that
   * fits and ends with the first of the three deadlines.
   */
  lemma DecisionIsDue(disk: Disk, staged: seq<Event>, r: Request, paused: bool, now: int, id: Id)
    ensures var d := Decide(disk, staged, r, paused, now, id);
            if Resolved(disk, r).None? then d == Refused(Unavailable) else
            var (rule, until) := Resolved(disk, r).value;
            var lease := Funding(disk, rule.lease, rule.Leases(), until, staged, r.n, now);
            var usable := lease.Some? && CanPay(disk, lease.value, until, 0, now);
            var room := usable && |disk.leases.Keys + Ids([lease.value] + Grants(staged))| <= 16_384
                        && |disk.pending| + |disk.windows| + |staged| < 4096;
            var pool := Foreseen(disk.windows, staged, InPool(rule.id, r.upload));
            && (d.Granted? <==> room && pool < 2 && Fits(disk, staged, r, rule, lease.value, paused, Max(1, r.n)))
            && (d == Enough <==> room && pool >= 2)
            && (usable && !room ==> d == Refused(SpoolFull))
            && (room && pool < 2 && !d.Granted? ==> d == Refused(Unavailable))
            && (d.Granted? ==> d.event.grant == lease.value && d.event.window.until == Min(until, lease.value.expiresAt))
  {
    hide Foreseen, Held, ReservedFor, Grantable, Fits, Available, CanPay, Funding, Grants, Ids, Current;
    if Resolved(disk, r).Some? {
      var (rule, until) := Resolved(disk, r).value;
      var lease := Funding(disk, rule.lease, rule.Leases(), until, staged, r.n, now);
      NoLeaseIsUnavailable(disk, until, now);
      if lease.Some? {
        AvailableIsPayable(disk, lease.value, until, 0, now);
        GrantableIsLargest(disk, staged, r, rule, lease.value, paused, Max(1, r.n));
      }
    }
  }

  lemma NoLeaseIsUnavailable(disk: Disk, until: int, now: int)
    ensures Available(disk, None, until, 0, now) == Some(Unavailable)
  {
  }
}
