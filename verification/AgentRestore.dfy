/**
 * The check made on a restart is enough: whatever passes it, the writer's own state or any other, can be recovered, at a
 * bounded price, and is then in order.
 */
module AgentRestore {
  import opened AgentTypes
  import opened AgentState
  import opened AgentPlanner
  import opened AgentBatches
  import opened AgentRecovery
  import opened Sums

  /** The part of the check that recovery relies on. */
  ghost predicate Loose(d: Disk) {
    && d.Slots() <= MAX_PENDING && LeasesOk(d.leases, d.used) && d.retired.Keys <= d.leases.Keys
    && PendingOk(d.node, d.leases, d.used, d.pending)
    && WindowsOk(d.leases, d.retired.Keys, d.windows) && BudgetsOk(d.leases, d.used, d.windows)
  }

  /** Reports are numbered: none that waits has a number that its window has not reached. */
  ghost predicate Numbered(d: Disk) {
    forall u :: u in d.pending && u.id.Report? && u.id.window in d.windows ==> u.id.sequence <= d.windows[u.id.window].sequence
  }

  /** Close the windows one by one, billing each in full. */
  ghost function Restored(d: Disk, ids: seq<Id>, now: int): Disk
    decreases |ids|
  {
    if ids == [] || ids[0] !in d.windows || d.windows[ids[0]].lease !in d.leases then d
    else Restored(Apply(d, RecoveryEvent(d, d.windows[ids[0]], now)), ids[1..], now)
  }

  /** Every event of the recovery is accepted in its turn. */
  ghost predicate Restorable(d: Disk, ids: seq<Id>, now: int)
    decreases |ids|
  {
    ids == [] ||
    (&& ids[0] in d.windows && d.windows[ids[0]].lease in d.leases
     && var e := RecoveryEvent(d, d.windows[ids[0]], now);
        Valid(d, e) && Restorable(Apply(d, e), ids[1..], now))
  }

  lemma ClosingIsValid(d: Disk, id: Id, now: int)
    requires Loose(d) && id in d.windows && d.windows[id].startedAt <= now
    ensures d.windows[id].lease in d.leases && d.windows[id].id == id && WindowShape(d.windows[id])
    ensures Valid(d, RecoveryEvent(d, d.windows[id], now))
    ensures Apply(d, RecoveryEvent(d, d.windows[id], now)).windows == d.windows - {id}
  {
    hide LeasesOk, PendingOk, BudgetsOk;
    assert WindowOk(d.leases, d.retired.Keys, id, d.windows[id]);
    assert |d.windows| > 0;
  }

  lemma ClosingKeepsLoose(d: Disk, id: Id, now: int)
    requires Loose(d) && Numbered(d) && id in d.windows && d.windows[id].startedAt <= now
    requires d.windows[id].lease in d.leases
    ensures Loose(Apply(d, RecoveryEvent(d, d.windows[id], now)))
  {
    hide LeasesOk, PendingOk, Held, BudgetsOk, WindowsOk;
    ClosingIsValid(d, id, now);
    var v := d.windows[id];
    var e := RecoveryEvent(d, v, now);
    MovedSize(d.windows, e.window);
    MovedWindowsOk(d.leases, d.retired.Keys, d.windows, e.window);
    MovedKeepsBudgets(d.leases, d.used, d.windows, e.window);
    ShapesHold(d.leases, d.retired.Keys, Moved(d.windows, e.window));
    if e.usage.Some? {
      BillKeepsLeases(d.leases, d.used, Moved(d.windows, e.window), v.lease, e.usage.value.Bytes());
      WindowEndsInTime(d.leases, d.retired.Keys, d.windows, id);
      assert NewId(d.pending, e.usage.value.id);
      BillKeepsPending(d.node, d.leases, d.used, d.pending, e.usage.value);
    } else {
      BudgetsIgnore(d.leases, d.used, Billed(d.used, v.lease, 0), d.windows - {id});
    }
  }

  lemma ShapesHold(leases: map<Id, Lease>, stopped: set<Id>, windows: map<Id, Window>)
    requires WindowsOk(leases, stopped, windows)
    ensures forall id :: id in windows ==> WindowShape(windows[id])
  {
    forall id | id in windows ensures WindowShape(windows[id]) { assert WindowOk(leases, stopped, id, windows[id]); }
  }

  lemma WindowEndsInTime(leases: map<Id, Lease>, stopped: set<Id>, windows: map<Id, Window>, id: Id)
    requires WindowsOk(leases, stopped, windows) && id in windows
    ensures windows[id].lease in leases && windows[id].until <= leases[windows[id].lease].expiresAt && windows[id].id == id
  {
    assert WindowOk(leases, stopped, id, windows[id]);
  }

  lemma BudgetsIgnore(leases: map<Id, Lease>, used: map<Id, int>, same: map<Id, int>, windows: map<Id, Window>)
    requires BudgetsOk(leases, same, windows) && forall l :: Spent(same, l) == Spent(used, l)
    ensures BudgetsOk(leases, used, windows)
  {
    hide Held;
  }

  lemma ClosingFrame(d: Disk, id: Id, now: int, l: Id)
    requires Loose(d) && Numbered(d) && id in d.windows && d.windows[id].startedAt <= now && d.windows[id].lease in d.leases
    ensures var t := Apply(d, RecoveryEvent(d, d.windows[id], now));
            && t.leases == d.leases && t.retired == d.retired && t.config == d.config && t.windows == d.windows - {id} && Numbered(t)
            && t.Used(l) + t.Liability(l) == d.Used(l) + d.Liability(l)
  {
    ClosingIsValid(d, id, now);
    HeldDrop(d.windows, OfLease(l), id);
    hide LeasesOk, PendingOk, Held, BudgetsOk, WindowsOk;
  }

  lemma {:induction false} LooseRestores(d: Disk, ids: seq<Id>, now: int, l: Id)
    requires Loose(d) && Numbered(d) && Lists(d.windows, ids) && forall id :: id in d.windows ==> d.windows[id].startedAt <= now
    ensures Restorable(d, ids, now)
    ensures var t := Restored(d, ids, now);
            && Loose(t) && t.windows == map[] && t.leases == d.leases && t.retired == d.retired && t.config == d.config
            && t.Used(l) == d.Used(l) + d.Liability(l)
    decreases |ids|
  {
    hide Loose, Numbered, Lists, Valid, Apply, RecoveryEvent, Held;
    if ids == [] {
      NothingListed(d.windows, l);
    } else {
      FirstListed(d.windows, ids);
      ClosingIsValid(d, ids[0], now);
      ClosingKeepsLoose(d, ids[0], now);
      ClosingFrame(d, ids[0], now, l);
      ListsTail(d.windows, ids);
      LooseRestores(Apply(d, RecoveryEvent(d, d.windows[ids[0]], now)), ids[1..], now, l);
    }
  }

  /**
   * Whatever passes the check on a restart can be recovered: every event of the recovery is accepted, every window is
   * closed, each lease is billed what its windows could have spent and no more than it holds, and the result satisfies
   * the writer's invariant.
   */
  lemma SnapshotIsEnough(terms: Terms, d: Disk, ids: seq<Id>, now: int, l: Id)
    requires Snapshot(d) && Numbered(d) && Lists(d.windows, ids) && forall id :: id in d.windows ==> d.windows[id].startedAt <= now
    requires Agrees(terms, d.leases) && ConfigOk(terms, d.config) && Ids(LeasesOf(d.config.rules)) <= d.leases.Keys
    ensures Restorable(d, ids, now)
    ensures var t := Restored(d, ids, now);
            && Inv(terms, t) && t.windows == map[] && t.Used(l) == d.Used(l) + d.Liability(l)
            && (l in d.leases ==> 0 <= t.Used(l) <= d.leases[l].bytes)
  {
    assert Loose(d);
    LooseRestores(d, ids, now, l);
    hide Snapshot, Restorable, Restored, Numbered, ConfigOk, LeasesOf;
    EmptyIsCapped();
    assert |d.leases| <= MAX_LEASES by { SnapshotIsSmall(d); }
  }

  lemma SnapshotIsSmall(d: Disk)
    requires Snapshot(d)
    ensures |d.leases| <= MAX_LEASES && |d.used| <= MAX_LEASES && |d.retired| <= MAX_LEASES && |d.pending| + |d.windows| <= MAX_PENDING
  {
    hide LeasesOk, PendingOk, WindowsOk, BudgetsOk, Held;
  }

  lemma EmptyIsCapped()
    ensures Capped(map[])
  {
    forall q: Measure ensures Held(map[], q) == 0 { SumUnfolds<Id, Window>(map[], By(q)); }
    hide Held;
  }

  /** And the price is bounded: 8 MiB per owner, and per rule 4 MiB, or 1 MiB if it has no TCP window; never a third window. */
  lemma SnapshotIsBounded(d: Disk, o: Owner, r: Id, up: bool)
    requires Snapshot(d)
    ensures Held(d.windows, OfOwner(o)) <= 8_388_608 && Held(d.windows, InPool(r, up)) <= 2
    ensures Held(d.windows, OfRule(r)) <= 4_194_304
    ensures (forall id :: id in d.windows && d.windows[id].rule == r ==> !d.windows[id].tcp) ==> Held(d.windows, OfRule(r)) <= 1_048_576
  {
    hide LeasesOk, PendingOk, WindowsOk, BudgetsOk, Held;
    assert Held(d.windows, OfRule(r)) <= RuleBound(d.windows, r);
  }

  // ----- The check and its totals, field by field -----

  lemma SameSum(windows: map<Id, Window>, q: Measure, f: Window -> int)
    requires forall w: Window :: f(w) == Weight(q, w)
    ensures Held(windows, q) == Sum(windows, f)
  {
    SumMonotone(windows, By(q), windows, f);
    SumMonotone(windows, f, windows, By(q));
  }

  /** What the totals add up: the unconfirmed bytes of the windows of a lease, a rule, an owner, a direction. */
  lemma HeldMeans(windows: map<Id, Window>, l: Id, r: Id, o: Owner, up: bool)
    ensures Held(windows, OfLease(l)) == Sum(windows, (w: Window) => if w.lease == l then w.capacity - w.confirmed else 0)
    ensures Held(windows, OfRule(r)) == Sum(windows, (w: Window) => if w.rule == r then w.capacity - w.confirmed else 0)
    ensures Held(windows, OfOwner(o)) == Sum(windows, (w: Window) => if w.owner == o then w.capacity - w.confirmed else 0)
    ensures Held(windows, Datagram(r)) == Sum(windows, (w: Window) => if w.rule == r && !w.tcp then w.capacity - w.confirmed else 0)
    ensures Held(windows, Way(r, up)) == Sum(windows, (w: Window) => if w.rule == r && w.upload == up then w.capacity - w.confirmed else 0)
    ensures Held(windows, Lane(r, up, l)) ==
              Sum(windows, (w: Window) => if w.rule == r && w.upload == up && w.lease == l then w.capacity - w.confirmed else 0)
  {
    hide Held;
    SameSum(windows, OfLease(l), (w: Window) => if w.lease == l then w.capacity - w.confirmed else 0);
    SameSum(windows, OfRule(r), (w: Window) => if w.rule == r then w.capacity - w.confirmed else 0);
    SameSum(windows, OfOwner(o), (w: Window) => if w.owner == o then w.capacity - w.confirmed else 0);
    SameSum(windows, Datagram(r), (w: Window) => if w.rule == r && !w.tcp then w.capacity - w.confirmed else 0);
    SameSum(windows, Way(r, up), (w: Window) => if w.rule == r && w.upload == up then w.capacity - w.confirmed else 0);
    SameSum(windows, Lane(r, up, l), (w: Window) => if w.rule == r && w.upload == up && w.lease == l then w.capacity - w.confirmed else 0);
  }

  /** The windows of a rule in one direction. */
  ghost function Mine(windows: map<Id, Window>, r: Id, up: bool): set<Id> {
    set id | id in windows && windows[id].rule == r && windows[id].upload == up
  }

  lemma MineWithout(windows: map<Id, Window>, id: Id, r: Id, up: bool)
    requires id in windows
    ensures |Mine(windows, r, up)| == |Mine(windows - {id}, r, up)| + (if windows[id].rule == r && windows[id].upload == up then 1 else 0)
  {
    var all, rest := Mine(windows, r, up), Mine(windows - {id}, r, up);
    assert all == if windows[id].rule == r && windows[id].upload == up then rest + {id} else rest;
    assert id !in rest;
  }

  /** A direction's windows are counted one by one. */
  lemma {:induction false} PoolCounts(windows: map<Id, Window>, r: Id, up: bool)
    ensures Held(windows, InPool(r, up)) == |Mine(windows, r, up)|
    decreases |windows|
  {
    if windows == map[] {
      SumUnfolds(windows, By(InPool(r, up)));
      assert Mine(windows, r, up) == {};
    } else {
      hide Held, Mine;
      var id :| id in windows;
      PoolCounts(windows - {id}, r, up);
      HeldDrop(windows, InPool(r, up), id);
      MineWithout(windows, id, r, up);
    }
  }

  /** In every consistent state a rule has at most two open windows in each direction. */
  lemma TwoWindows(terms: Terms, d: Disk, r: Id, up: bool)
    requires Inv(terms, d)
    ensures |Mine(d.windows, r, up)| <= 2
  {
    hide LeasesOk, PendingOk, WindowsOk, BudgetsOk, ConfigOk, Held;
    PoolCounts(d.windows, r, up);
    assert Held(d.windows, InPool(r, up)) <= Cap(InPool(r, up));
  }

  /** What the check on a restart demands of every lease, record and window. */
  lemma SnapshotMeans(d: Disk)
    requires Snapshot(d)
    ensures |d.pending| + |d.windows| <= 4096 && |d.leases| <= 16_384 && |d.used| <= 16_384 && |d.retired| <= 16_384
    ensures d.used.Keys <= d.leases.Keys && d.retired.Keys <= d.leases.Keys
    ensures forall l :: l in d.leases ==> d.leases[l].id == l && 0 < d.leases[l].bytes && 0 < d.leases[l].expiresAt && 0 <= d.Used(l) <= d.leases[l].bytes
    ensures forall i, j :: 0 <= i < j < |d.pending| ==> d.pending[i].id != d.pending[j].id
    ensures forall u :: u in d.pending ==>
              && u.lease in d.leases && u.node == d.node && u.entitlement == d.leases[u.lease].entitlement && 0 <= u.up && 0 <= u.down
              && u.up + u.down <= d.leases[u.lease].bytes && u.startedAt <= u.endedAt <= d.leases[u.lease].expiresAt
    ensures forall l :: l in d.leases ==> PendingBytes(d.pending, l) <= d.Used(l) && d.Used(l) + d.Liability(l) <= d.leases[l].bytes
    ensures forall id :: id in d.windows ==>
              var w := d.windows[id];
              && w.id == id && !w.closed && 0 < w.capacity <= (if w.tcp then 2_097_152 else 262_144) && 0 <= w.confirmed <= w.capacity
              && (w.confirmed > 0 ==> w.sequence > 0) && 0 < w.startedAt < w.until
              && w.lease in d.leases && w.lease !in d.retired && w.until <= d.leases[w.lease].expiresAt
  {
    hide Held, PendingBytes;
    forall id | id in d.windows
      ensures var w := d.windows[id];
              && w.id == id && !w.closed && 0 < w.capacity <= (if w.tcp then 2_097_152 else 262_144) && 0 <= w.confirmed <= w.capacity
              && (w.confirmed > 0 ==> w.sequence > 0) && 0 < w.startedAt < w.until
              && w.lease in d.leases && w.lease !in d.retired && w.until <= d.leases[w.lease].expiresAt
    {
      assert WindowOk(d.leases, d.retired.Keys, id, d.windows[id]);
    }
    forall u | u in d.pending
      ensures && u.lease in d.leases && u.node == d.node && u.entitlement == d.leases[u.lease].entitlement && 0 <= u.up && 0 <= u.down
              && u.up + u.down <= d.leases[u.lease].bytes && u.startedAt <= u.endedAt <= d.leases[u.lease].expiresAt
    {
      assert UsageOk(d.node, d.leases, u);
    }
  }
}
