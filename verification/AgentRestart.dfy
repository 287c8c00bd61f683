/** The checks that a restart makes on the stored state and the pruning of old history, record by record. */
module AgentRestart {
  import opened AgentTypes
  import opened AgentState
  import opened AgentWriter
  import opened Sums

  // ----- Pending usage -----

  lemma {:induction false} PrefixBytes(pending: seq<Usage>, k: int, l: Id)
    requires 0 <= k <= |pending| && forall u :: u in pending ==> 0 <= u.Bytes()
    ensures PendingBytes(pending[..k], l) <= PendingBytes(pending, l)
    decreases |pending|
  {
    if k < |pending| {
      var front := pending[..|pending| - 1];
      assert front[..k] == pending[..k];
      PrefixBytes(front, k, l);
    } else {
      assert pending[..k] == pending;
    }
  }

  lemma PrefixOk(node: Id, leases: map<Id, Lease>, used: map<Id, int>, pending: seq<Usage>, k: int)
    requires PendingOk(node, leases, used, pending) && 0 <= k <= |pending|
    ensures PendingOk(node, leases, used, pending[..k])
  {
    forall u | u in pending ensures 0 <= u.Bytes() {
      assert UsageOk(node, leases, u);
    }
    forall l | l in leases ensures PendingBytes(pending[..k], l) <= Spent(used, l) {
      PrefixBytes(pending, k, l);
    }
  }

  ghost predicate Tracks(seen: set<UsageId>, bytes: map<Id, int>, pending: seq<Usage>) {
    && (forall id :: id in seen <==> exists u :: u in pending && u.id == id)
    && (forall l :: Spent(bytes, l) == PendingBytes(pending, l))
  }

  lemma TracksOneMore(seen: set<UsageId>, bytes: map<Id, int>, pending: seq<Usage>, u: Usage)
    requires Tracks(seen, bytes, pending)
    ensures Tracks(seen + {u.id}, Billed(bytes, u.lease, u.Bytes()), pending + [u])
  {
    forall l ensures Spent(Billed(bytes, u.lease, u.Bytes()), l) == PendingBytes(pending + [u], l) {
      PendingAppend(pending, u, l);
    }
    forall id ensures id in seen + {u.id} <==> exists v :: v in pending + [u] && v.id == id {
      if id == u.id {
        assert u in pending + [u];
      } else if id in seen {
        var v :| v in pending && v.id == id;
        assert v in pending + [u];
      }
    }
  }

  /** One more record is in order exactly when it is valid, new and within what its lease has spent. */
  lemma OneMoreRecord(node: Id, leases: map<Id, Lease>, used: map<Id, int>, pending: seq<Usage>, u: Usage,
                      seen: set<UsageId>, bytes: map<Id, int>)
    requires PendingOk(node, leases, used, pending) && Tracks(seen, bytes, pending)
    ensures PendingOk(node, leases, used, pending + [u])
        <==> UsageOk(node, leases, u) && u.id !in seen && u.Bytes() <= Spent(used, u.lease) - Spent(bytes, u.lease)
  {
    var more := pending + [u];
    forall l ensures PendingBytes(more, l) == PendingBytes(pending, l) + (if u.lease == l then u.Bytes() else 0) {
      PendingAppend(pending, u, l);
    }
    assert u in more && more[|pending|] == u;
    if u.id in seen {
      var v :| v in pending && v.id == u.id;
      var i :| 0 <= i < |pending| && pending[i] == v;
      assert more[i].id == more[|pending|].id;
    }
  }

  /** Pending records are valid, distinct and within what their leases have spent. */
  method CheckPending(s: Disk) returns (ok: bool)
    requires LeasesOk(s.leases, s.used)
    ensures ok == PendingOk(s.node, s.leases, s.used, s.pending)
  {
    var seen: set<UsageId>, bytes: map<Id, int> := {}, map[];
    var i := 0;
    assert s.pending[..0] == [];
    assert PendingOk(s.node, s.leases, s.used, []) && Tracks({}, map[], []);
    hide PendingOk, UsageOk, Tracks, LeasesOk;
    while i < |s.pending|
      invariant 0 <= i <= |s.pending|
      invariant PendingOk(s.node, s.leases, s.used, s.pending[..i]) && Tracks(seen, bytes, s.pending[..i])
    {
      var u := s.pending[i];
      assert s.pending[..i + 1] == s.pending[..i] + [u];
      OneMoreRecord(s.node, s.leases, s.used, s.pending[..i], u, seen, bytes);
      TracksOneMore(seen, bytes, s.pending[..i], u);
      if !UsageOk(s.node, s.leases, u) || u.id in seen || u.Bytes() > Spent(s.used, u.lease) - Spent(bytes, u.lease) {
        if PendingOk(s.node, s.leases, s.used, s.pending) {
          PrefixOk(s.node, s.leases, s.used, s.pending, i + 1);
          assert false;
        }
        return false;
      }
      seen, bytes := seen + {u.id}, Billed(bytes, u.lease, u.Bytes());
      i := i + 1;
    }
    assert s.pending[..i] == s.pending;
    ok := true;
  }

  // ----- Open windows -----

  /** What one pass over the windows can tell. */
  ghost predicate WindowsAccepted(s: Disk, windows: map<Id, Window>) {
    && WindowsOk(s.leases, s.retired.Keys, windows)
    && BudgetsOk(s.leases, s.used, windows)
    && (forall o :: Held(windows, OfOwner(o)) <= ACCOUNT_CREDITS)
    && (forall r, up :: Held(windows, InPool(r, up)) <= 2)
  }

  lemma {:induction false} PartIsSmaller(windows: map<Id, Window>, todo: set<Id>, q: Measure)
    requires forall id :: id in windows ==> WindowShape(windows[id])
    ensures Held(windows - todo, q) <= Held(windows, q)
    decreases |todo|
  {
    if todo == {} {
      assert windows - todo == windows;
    } else {
      var id :| id in todo;
      PartIsSmaller(windows, todo - {id}, q);
      var most := windows - (todo - {id});
      if id in windows {
        assert most - {id} == windows - todo;
        HeldDrop(most, q, id);
      } else {
        assert most == windows - todo;
      }
    }
  }

  lemma PartIsAccepted(s: Disk, windows: map<Id, Window>, todo: set<Id>)
    requires WindowsAccepted(s, windows)
    ensures WindowsAccepted(s, windows - todo)
  {
    hide Held;
    WindowsAreShaped(s.leases, s.retired.Keys, windows);
    forall q ensures Held(windows - todo, q) <= Held(windows, q) {
      PartIsSmaller(windows, todo, q);
    }
    forall id | id in windows - todo ensures WindowOk(s.leases, s.retired.Keys, id, (windows - todo)[id]) {
      assert WindowOk(s.leases, s.retired.Keys, id, windows[id]);
    }
    assert BudgetsOk(s.leases, s.used, windows - todo);
  }

  function Count<K>(m: map<K, int>, k: K): int {
    if k in m then m[k] else 0
  }

  /** The running totals of the pass. */
  datatype Totals = Totals(liability: map<Id, int>, owners: map<Owner, int>, pools: map<(Id, bool), int>,
                           rules: map<Id, int>, limits: map<Id, int>)

  function Add(t: Totals, w: Window): Totals {
    var limit := Max(Count(t.limits, w.rule), w.RuleLimit());
    Totals(t.liability[w.lease := Count(t.liability, w.lease) + w.Left()],
           t.owners[w.owner := Count(t.owners, w.owner) + w.Left()],
           t.pools[(w.rule, w.upload) := Count(t.pools, (w.rule, w.upload)) + 1],
           t.rules[w.rule := Count(t.rules, w.rule) + w.Left()],
           t.limits[w.rule := limit])
  }

  ghost predicate Totalled(t: Totals, windows: map<Id, Window>) {
    && (forall l :: Count(t.liability, l) == Held(windows, OfLease(l)))
    && (forall o :: Count(t.owners, o) == Held(windows, OfOwner(o)))
    && (forall r, up :: Count(t.pools, (r, up)) == Held(windows, InPool(r, up)))
    && (forall r :: Count(t.rules, r) == Held(windows, OfRule(r)))
  }

  ghost predicate Limited(t: Totals, windows: map<Id, Window>) {
    && t.limits.Keys == t.rules.Keys
    && (forall id :: id in windows ==> windows[id].rule in t.limits)
    && (forall r :: r in t.limits ==> t.limits[r] == RuleBound(windows, r))
  }

  lemma AddTotals(t: Totals, windows: map<Id, Window>, id: Id, w: Window)
    requires Totalled(t, windows) && id !in windows
    ensures Totalled(Add(t, w), windows[id := w])
  {
    hide Held;
    forall q ensures Held(windows[id := w], q) == Held(windows, q) + Weight(q, w) {
      HeldPut(windows, q, id, w);
    }
  }

  lemma AddLimits(t: Totals, windows: map<Id, Window>, id: Id, w: Window)
    requires Limited(t, windows) && id !in windows
    ensures Limited(Add(t, w), windows[id := w])
  {
    var more := windows[id := w];
    forall r | r in Add(t, w).limits ensures Add(t, w).limits[r] == RuleBound(more, r) {
      if exists i :: i in windows && windows[i].rule == r && windows[i].tcp {
        var i :| i in windows && windows[i].rule == r && windows[i].tcp;
        assert more[i].rule == r && more[i].tcp;
      }
      if r == w.rule && w.tcp {
        assert more[id].rule == r && more[id].tcp;
      }
      if r !in t.limits {
        assert forall i :: i in windows ==> windows[i].rule != r;
      }
    }
  }

  /** The tests made on one window against the totals so far. */
  predicate Admissible(s: Disk, t: Totals, id: Id, w: Window) {
    && WindowOk(s.leases, s.retired.Keys, id, w)
    && w.Left() <= s.leases[w.lease].bytes - s.Used(w.lease) - Count(t.liability, w.lease)
    && Count(t.owners, w.owner) + w.Left() <= ACCOUNT_CREDITS
    && Count(t.pools, (w.rule, w.upload)) + 1 <= 2
  }

  /** Adding a window to an accepted part is accepted exactly when the source's incremental tests pass. */
  lemma OneMoreAccepted(s: Disk, windows: map<Id, Window>, t: Totals, id: Id, w: Window)
    requires WindowsAccepted(s, windows) && Totalled(t, windows) && id !in windows
    ensures WindowsAccepted(s, windows[id := w]) <==> Admissible(s, t, id, w)
  {
    hide Held, WindowOk;
    var more := windows[id := w];
    forall q ensures Held(more, q) == Held(windows, q) + Weight(q, w) {
      HeldPut(windows, q, id, w);
    }
    if WindowsAccepted(s, more) {
      assert WindowOk(s.leases, s.retired.Keys, id, more[id]);
      OkNamesLease(s, id, w);
    }
    if WindowOk(s.leases, s.retired.Keys, id, w) {
      OkNamesLease(s, id, w);
      assert WindowsOk(s.leases, s.retired.Keys, more);
    }
    assert Held(more, OfOwner(w.owner)) == Count(t.owners, w.owner) + w.Left();
    assert Held(more, InPool(w.rule, w.upload)) == Count(t.pools, (w.rule, w.upload)) + 1;
    assert Held(more, OfLease(w.lease)) == Count(t.liability, w.lease) + w.Left();
  }

  lemma OkNamesLease(s: Disk, id: Id, w: Window)
    requires WindowOk(s.leases, s.retired.Keys, id, w)
    ensures w.lease in s.leases && w.id == id
  {
  }

  lemma EmptyIsAccepted(s: Disk)
    requires LeasesOk(s.leases, s.used)
    ensures WindowsAccepted(s, map[])
    ensures Totalled(Totals(map[], map[], map[], map[], map[]), map[]) && Limited(Totals(map[], map[], map[], map[], map[]), map[])
  {
    forall q: Measure ensures Held(map[], q) == 0 {
      SumUnfolds<Id, Window>(map[], By(q));
    }
    hide Held;
  }

  lemma PartGrows(windows: map<Id, Window>, todo: set<Id>, id: Id)
    requires id in todo && todo <= windows.Keys
    ensures id !in windows - todo && windows - (todo - {id}) == (windows - todo)[id := windows[id]]
  {
  }

  lemma WholeAndNone(windows: map<Id, Window>)
    ensures windows - {} == windows && windows - windows.Keys == map[]
  {
  }

  /** One pass over the windows: every bound is tested as soon as its total moves. */
  method CheckWindows(s: Disk) returns (ok: bool, t: Totals)
    requires LeasesOk(s.leases, s.used)
    ensures ok == WindowsAccepted(s, s.windows)
    ensures ok ==> Totalled(t, s.windows) && Limited(t, s.windows)
  {
    t := Totals(map[], map[], map[], map[], map[]);
    var todo := s.windows.Keys;
    EmptyIsAccepted(s);
    WholeAndNone(s.windows);
    hide *;
    while todo != {}
      invariant todo <= s.windows.Keys
      invariant WindowsAccepted(s, s.windows - todo) && Totalled(t, s.windows - todo) && Limited(t, s.windows - todo)
      decreases |todo|
    {
      var id :| id in todo;
      var w, done := s.windows[id], s.windows - todo;
      PartGrows(s.windows, todo, id);
      OneMoreAccepted(s, done, t, id, w);
      if !Admissible(s, t, id, w) {
        Rejected(s, todo - {id});
        return false, t;
      }
      AddTotals(t, done, id, w);
      AddLimits(t, done, id, w);
      t := Add(t, w);
      todo := todo - {id};
    }
    ok := true;
  }

  lemma Rejected(s: Disk, todo: set<Id>)
    requires !WindowsAccepted(s, s.windows - todo)
    ensures !WindowsAccepted(s, s.windows)
  {
    if WindowsAccepted(s, s.windows) {
      PartIsAccepted(s, s.windows, todo);
    }
  }

  lemma RuleBoundsHold(t: Totals, windows: map<Id, Window>)
    requires Totalled(t, windows) && Limited(t, windows)
    ensures (forall r :: r in t.rules ==> t.rules[r] <= t.limits[r])
        <==> (forall r :: Held(windows, OfRule(r)) <= RuleBound(windows, r))
  {
    hide Held;
    forall r | r in t.rules ensures t.rules[r] == Held(windows, OfRule(r)) && t.limits[r] == RuleBound(windows, r) {
      assert Count(t.rules, r) == Held(windows, OfRule(r));
    }
    forall r | r !in t.rules ensures Held(windows, OfRule(r)) == 0 {
      assert Count(t.rules, r) == Held(windows, OfRule(r));
    }
  }

  method CheckLeases(s: Disk) returns (ok: bool)
    ensures ok == (LeasesOk(s.leases, s.used) && s.retired.Keys <= s.leases.Keys)
  {
    ok := && (forall id :: id in s.leases ==> s.leases[id].id == id && 0 < s.leases[id].bytes && 0 < s.leases[id].expiresAt
                                              && 0 <= s.Used(id) <= s.leases[id].bytes)
          && s.used.Keys <= s.leases.Keys && s.retired.Keys <= s.leases.Keys;
  }

  /** The restart check as it runs: bounded passes with running totals decide the whole snapshot condition. */
  method ValidateSnapshot(s: Disk) returns (ok: bool)
    ensures ok == Snapshot(s)
  {
    hide Held, LeasesOk, PendingOk, RuleBound, Totalled, Limited;
    if s.Slots() > MAX_PENDING || |s.leases| > MAX_LEASES || |s.used| > MAX_LEASES || |s.retired| > MAX_LEASES { return false; }
    ok := CheckLeases(s);
    if !ok { return; }
    ok := CheckPending(s);
    if !ok { return; }
    var t;
    ok, t := CheckWindows(s);
    if !ok { return; }
    RuleBoundsHold(t, s.windows);
    LimitsCover(t, s.windows);
    ok := forall r :: r in t.rules ==> t.rules[r] <= t.limits[r];
  }

  lemma LimitsCover(t: Totals, windows: map<Id, Window>)
    requires Limited(t, windows)
    ensures t.limits.Keys == t.rules.Keys
  {
  }

  // ----- Forgetting -----

  function Referenced(s: Disk): set<Id> {
    Ids(LeasesOf(s.config.rules)) + (set u | u in s.pending :: u.lease) + (set id | id in s.windows :: s.windows[id].lease)
  }

  lemma PrunableIsUnreferencedHistory(s: Disk, now: int)
    ensures forall id :: id in Prunable(s, now) <==> id in s.leases && Forgettable(s, Referenced(s), id, now)
  {
    hide LeasesOf, Ids;
  }

  predicate Forgettable(s: Disk, referenced: set<Id>, id: Id, now: int) {
    id in s.leases && id in s.retired && s.retired[id] && id !in referenced && s.leases[id].expiresAt <= now
  }

  method CollectPrunable(s: Disk, now: int) returns (gone: set<Id>)
    ensures gone == Prunable(s, now)
  {
    var referenced := Referenced(s);
    PrunableIsUnreferencedHistory(s, now);
    hide *;
    var todo := s.leases.Keys;
    gone := {};
    while todo != {}
      invariant todo <= s.leases.Keys
      invariant forall id :: id in gone <==> id in s.leases && id !in todo && Forgettable(s, referenced, id, now)
      decreases |todo|
    {
      var id :| id in todo;
      if Forgettable(s, referenced, id, now) {
        gone := gone + {id};
      }
      todo := todo - {id};
    }
  }

  /** Forget every lease that is confirmed as retired, expired and no longer referenced. */
  method PruneLeaseHistory(s: Disk, now: int) returns (t: Disk, n: nat)
    ensures t == Prune(s, now) && n == |Prunable(s, now)|
  {
    var gone := CollectPrunable(s, now);
    hide Prunable;
    t := s.(leases := s.leases - gone, used := s.used - gone, retired := s.retired - gone);
    n := |gone|;
  }
}
