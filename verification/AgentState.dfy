/** The Agent's durable state: which events the log accepts, what they do, and what a restart checks. */
module AgentState {
  import opened AgentTypes
  import opened Sums

  datatype Disk = Disk(node: Id, config: Config, used: map<Id, int>, pending: seq<Usage>,
                       retired: map<Id, bool>, leases: map<Id, Lease>, windows: map<Id, Window>)
  {
    function Used(lease: Id): int {
      Spent(used, lease)
    }

    /** Bytes of a lease that open windows may still spend. */
    ghost function Liability(lease: Id): int {
      Held(windows, OfLease(lease))
    }

    function Slots(): int {
      |pending| + |windows|
    }
  }

  function Spent(used: map<Id, int>, lease: Id): int {
    if lease in used then used[lease] else 0
  }

  // ----- Measures of open windows -----

  /**
   * What a set of windows is measured by. `Datagram` is the part of a rule's liability under the smaller limits;
   * `Way` is what a rule holds in one direction and `Lane` the part of it that comes from one lease.
   */
  datatype Measure = OfLease(lease: Id) | OfRule(rule: Id) | OfOwner(owner: Owner) | Datagram(rule: Id)
                   | InPool(rule: Id, upload: bool) | Way(rule: Id, upload: bool) | Lane(rule: Id, upload: bool, lease: Id)
  {
    predicate Bounded() {
      !OfLease? && !Way? && !Lane?
    }
  }

  function Weight(q: Measure, w: Window): int {
    match q
    case OfLease(l) => if w.lease == l then w.Left() else 0
    case OfRule(r) => if w.rule == r then w.Left() else 0
    case OfOwner(o) => if w.owner == o then w.Left() else 0
    case Datagram(r) => if w.rule == r && !w.tcp then w.Left() else 0
    case InPool(r, up) => if w.rule == r && w.upload == up then 1 else 0
    case Way(r, up) => if w.rule == r && w.upload == up then w.Left() else 0
    case Lane(r, up, l) => if w.rule == r && w.upload == up && w.lease == l then w.Left() else 0
  }

  ghost function By(q: Measure): Window -> int {
    (w: Window) => Weight(q, w)
  }

  ghost function Held(windows: map<Id, Window>, q: Measure): int {
    Sum(windows, By(q))
  }

  lemma HeldPut(windows: map<Id, Window>, q: Measure, id: Id, w: Window)
    ensures Held(windows[id := w], q)
         == Held(windows, q) + Weight(q, w) - (if id in windows then Weight(q, windows[id]) else 0)
  {
    SumPut(windows, By(q), id, w);
  }

  lemma HeldDrop(windows: map<Id, Window>, q: Measure, id: Id)
    requires id in windows
    ensures Held(windows - {id}, q) == Held(windows, q) - Weight(q, windows[id])
  {
    SumRemove(windows, By(q), id);
  }

  function PendingBytes(pending: seq<Usage>, lease: Id): int {
    if pending == [] then 0
    else PendingBytes(pending[..|pending| - 1], lease) +
         (if pending[|pending| - 1].lease == lease then pending[|pending| - 1].Bytes() else 0)
  }

  // ----- Leases named by a configuration -----

  function LeasesOf(rules: seq<Rule>): seq<Lease> {
    if rules == [] then [] else rules[0].Leases() + LeasesOf(rules[1..])
  }

  function EnabledRules(rules: seq<Rule>): seq<Rule> {
    if rules == [] then []
    else (if rules[0].enabled then [rules[0]] else []) + EnabledRules(rules[1..])
  }

  function FundedRules(rules: seq<Rule>): seq<Rule> {
    if rules == [] then []
    else (if rules[0].enabled && rules[0].lease.Some? then [rules[0]] else []) + FundedRules(rules[1..])
  }

  function Ids(leases: seq<Lease>): set<Id> {
    set l | l in leases :: l.id
  }

  function Active(c: Config): set<Id> {
    Ids(LeasesOf(EnabledRules(c.rules)))
  }

  // ----- The validator -----

  /** The registry keeps a bounded number of leases. */
  predicate LeaseCapacity(s: Disk, incoming: seq<Lease>) {
    |s.leases.Keys + Ids(incoming)| <= MAX_LEASES
  }

  predicate WindowShape(w: Window) {
    && 0 < w.capacity <= w.WindowLimit()
    && 0 <= w.confirmed <= w.capacity
    && 0 < w.startedAt < w.until
  }

  ghost predicate ValidReserve(s: Disk, w: Window, l: Lease) {
    && WindowShape(w)
    && w.id !in s.windows && w.confirmed == 0 && w.sequence == 0 && !w.closed && w.lease == l.id
    && (l.id in s.leases ==> s.leases[l.id] == l)
    && l.id !in s.retired
    && LeaseCapacity(s, [l])
    && Held(s.windows, InPool(w.rule, w.upload)) < 2
    && w.capacity <= w.RuleLimit() - Held(s.windows, OfRule(w.rule))
    && w.capacity <= ACCOUNT_CREDITS - Held(s.windows, OfOwner(w.owner))
    && w.capacity <= l.bytes - s.Used(l.id) - s.Liability(l.id)
    && w.until <= l.expiresAt
    && s.Slots() < MAX_PENDING
  }

  /** `w` continues `prev`: only the progress fields moved. */
  predicate Continues(prev: Window, w: Window) {
    && w == prev.(confirmed := w.confirmed, sequence := prev.sequence + 1, closed := w.closed)
    && prev.confirmed <= w.confirmed
  }

  predicate ValidReport(s: Disk, w: Window, delta: int, u: Usage)
    requires w.lease in s.leases
  {
    && u.id == Report(w.id, w.sequence)
    && u.rule == w.rule && u.lease == w.lease && u.node == s.node
    && u.entitlement == s.leases[w.lease].entitlement
    && 0 <= u.up && 0 <= u.down && u.Bytes() == delta
    && (if w.upload then u.down == 0 else u.up == 0)
    && u.startedAt == w.startedAt && w.startedAt <= u.endedAt <= w.until
    && (u.recovery ==> w.closed && w.confirmed == w.capacity)
    && |s.pending| < MAX_PENDING
  }

  predicate ValidProgress(s: Disk, w: Window, usage: Option<Usage>) {
    && WindowShape(w)
    && w.id in s.windows && Continues(s.windows[w.id], w)
    && var delta := w.confirmed - s.windows[w.id].confirmed;
       if delta > 0 then usage.Some? && w.lease in s.leases && ValidReport(s, w, delta, usage.value)
       else usage.None?
  }

  predicate ValidConfig(s: Disk, c: Config) {
    var incoming := LeasesOf(FundedRules(c.rules));
    && (forall l :: l in incoming && l.id in s.leases ==> s.leases[l.id] == l)
    && LeaseCapacity(s, incoming)
  }

  ghost predicate ValidCharge(s: Disk, u: Usage, l: Option<Lease>) {
    && 0 <= u.up && 0 <= u.down
    && u.lease !in s.retired
    && (u.lease in s.leases || (l.Some? && l.value.id == u.lease))
    && var lease := if u.lease in s.leases then s.leases[u.lease] else l.value;
       && u.Bytes() <= lease.bytes - s.Used(u.lease) - s.Liability(u.lease)
       && u.node == s.node && u.entitlement == lease.entitlement
       && s.Slots() < MAX_PENDING
  }

  /** Exactly the events that the log accepts in state `s`. */
  ghost predicate Valid(s: Disk, e: Event) {
    match e
    case Reserve(w, l) => ValidReserve(s, w, l)
    case Progress(w, u) => ValidProgress(s, w, u)
    case SetConfig(c) => ValidConfig(s, c)
    case Charge(u, l) => ValidCharge(s, u, l)
    case Ack(_) => true
    case Retire(l) => l in s.leases
    case RetireAck(l) => l in s.retired && forall u :: u in s.pending ==> u.lease != l
  }

  // ----- The effect of an accepted event -----

  function Unacknowledged(pending: seq<Usage>, ids: set<UsageId>): seq<Usage> {
    if pending == [] then []
    else
      var last := pending[|pending| - 1];
      Unacknowledged(pending[..|pending| - 1], ids) + (if last.id in ids then [] else [last])
  }

  function Register(leases: map<Id, Lease>, incoming: seq<Lease>): map<Id, Lease>
    decreases |incoming|
  {
    if incoming == [] then leases else Register(leases[incoming[0].id := incoming[0]], incoming[1..])
  }

  /** Stopping a lease never undoes a confirmed stop. */
  function Stop(retired: map<Id, bool>, ids: set<Id>): map<Id, bool> {
    map id | id in retired.Keys + ids :: id in retired && retired[id]
  }

  function Billed(used: map<Id, int>, lease: Id, n: int): map<Id, int> {
    used[lease := Spent(used, lease) + n]
  }

  function Bill(s: Disk, u: Usage): Disk {
    s.(used := Billed(s.used, u.lease, u.Bytes()), pending := s.pending + [u])
  }

  function Apply(s: Disk, e: Event): Disk {
    match e
    case Reserve(w, l) => s.(leases := s.leases[l.id := l], windows := s.windows[w.id := w])
    case Progress(w, usage) =>
      var billed := if usage.Some? then Bill(s, usage.value) else s;
      billed.(windows := if w.closed then s.windows - {w.id} else s.windows[w.id := w])
    case SetConfig(c) =>
      s.(leases := Register(s.leases, LeasesOf(EnabledRules(c.rules))),
         retired := Stop(s.retired, Ids(LeasesOf(s.config.rules)) - Active(c)),
         config := c)
    case Charge(u, l) =>
      Bill(if u.lease !in s.leases && l.Some? then s.(leases := s.leases[u.lease := l.value]) else s, u)
    case Ack(ids) => s.(pending := Unacknowledged(s.pending, ids))
    case Retire(l) => s.(retired := Stop(s.retired, {l}))
    case RetireAck(l) => s.(retired := s.retired[l := true])
  }

  // ----- Batches -----

  ghost function ApplyAll(disk: Disk, events: seq<Event>): Disk
    decreases |events|
  {
    if events == [] then disk else ApplyAll(Apply(disk, events[0]), events[1..])
  }

  /** Every event passes the validator when its turn comes. */
  ghost predicate AllValid(disk: Disk, events: seq<Event>)
    decreases |events|
  {
    events == [] || (Valid(disk, events[0]) && AllValid(Apply(disk, events[0]), events[1..]))
  }

  lemma {:induction false} PrefixIsValid(disk: Disk, events: seq<Event>, m: nat)
    requires AllValid(disk, events) && m <= |events|
    ensures AllValid(disk, events[..m])
    decreases |events|
  {
    hide Apply, Valid;
    if m > 0 {
      assert events[..m][1..] == events[1..][..m - 1];
      PrefixIsValid(Apply(disk, events[0]), events[1..], m - 1);
    }
  }

  // ----- The check made on every restart -----

  ghost predicate LeasesOk(leases: map<Id, Lease>, used: map<Id, int>) {
    && used.Keys <= leases.Keys
    && forall id :: id in leases ==>
         && leases[id].id == id && 0 < leases[id].bytes && 0 < leases[id].expiresAt
         && 0 <= Spent(used, id) <= leases[id].bytes
  }

  predicate UsageOk(node: Id, leases: map<Id, Lease>, u: Usage) {
    && u.lease in leases && u.node == node
    && var l := leases[u.lease];
       && u.entitlement == l.entitlement
       && 0 <= u.up && 0 <= u.down && u.Bytes() <= l.bytes
       && u.startedAt <= u.endedAt <= l.expiresAt
  }

  ghost predicate DistinctIds(pending: seq<Usage>) {
    forall i, j :: 0 <= i < j < |pending| ==> pending[i].id != pending[j].id
  }

  ghost predicate PendingOk(node: Id, leases: map<Id, Lease>, used: map<Id, int>, pending: seq<Usage>) {
    && DistinctIds(pending)
    && (forall u :: u in pending ==> UsageOk(node, leases, u))
    && (forall l :: l in leases ==> PendingBytes(pending, l) <= Spent(used, l))
  }

  predicate WindowOk(leases: map<Id, Lease>, stopped: set<Id>, id: Id, w: Window) {
    && w.id == id && !w.closed && WindowShape(w)
    && (w.confirmed > 0 ==> w.sequence > 0)
    && w.lease in leases && w.lease !in stopped && w.until <= leases[w.lease].expiresAt
  }

  ghost predicate WindowsOk(leases: map<Id, Lease>, stopped: set<Id>, windows: map<Id, Window>) {
    forall id :: id in windows ==> WindowOk(leases, stopped, id, windows[id])
  }

  /** Billed bytes and open windows together stay within every lease. */
  ghost predicate BudgetsOk(leases: map<Id, Lease>, used: map<Id, int>, windows: map<Id, Window>) {
    forall l :: l in leases ==> Held(windows, OfLease(l)) <= leases[l].bytes - Spent(used, l)
  }

  /** The bound that a rule's open windows are held to: the largest limit among them. */
  ghost function RuleBound(windows: map<Id, Window>, rule: Id): int {
    if exists id :: id in windows && windows[id].rule == rule && windows[id].tcp then TCP_RULE_CREDITS
    else RULE_CREDITS
  }

  /** What a restart demands before it trusts the stored state. */
  ghost predicate Snapshot(s: Disk) {
    && s.Slots() <= MAX_PENDING
    && |s.leases| <= MAX_LEASES && |s.used| <= MAX_LEASES && |s.retired| <= MAX_LEASES
    && LeasesOk(s.leases, s.used) && s.retired.Keys <= s.leases.Keys
    && PendingOk(s.node, s.leases, s.used, s.pending)
    && WindowsOk(s.leases, s.retired.Keys, s.windows)
    && BudgetsOk(s.leases, s.used, s.windows)
    && (forall o :: Held(s.windows, OfOwner(o)) <= ACCOUNT_CREDITS)
    && (forall r, up :: Held(s.windows, InPool(r, up)) <= 2)
    && (forall r :: Held(s.windows, OfRule(r)) <= RuleBound(s.windows, r))
  }

  // ----- The inductive strengthening -----

  /** Bounds that hold for every rule, owner and pool; `Datagram` is the one a restart does not check. */
  function Cap(q: Measure): int
    requires q.Bounded()
  {
    match q
    case OfRule(_) => TCP_RULE_CREDITS
    case OfOwner(_) => ACCOUNT_CREDITS
    case Datagram(_) => RULE_CREDITS
    case InPool(_, _) => 2
  }

  ghost predicate Capped(windows: map<Id, Window>) {
    forall q: Measure :: q.Bounded() ==> Held(windows, q) <= Cap(q)
  }

  /** The panel never reuses a lease identifier for other terms. */
  type Terms = Id -> Lease

  ghost predicate Honest(terms: Terms, leases: seq<Lease>) {
    forall l :: l in leases ==> l == terms(l.id) && 0 < l.bytes && 0 < l.expiresAt
  }

  /** What the panel promises of a configuration: leases as granted, and no enabled rule with a standby alone. */
  ghost predicate ConfigOk(terms: Terms, c: Config) {
    Honest(terms, LeasesOf(c.rules)) && LeasesOf(EnabledRules(c.rules)) == LeasesOf(FundedRules(c.rules))
  }

  /** Every lease that the configuration names, even under a disabled rule, is known already or becomes known. */
  predicate Familiar(leases: map<Id, Lease>, c: Config) {
    Ids(LeasesOf(c.rules)) <= leases.Keys + Active(c)
  }

  ghost predicate Agrees(terms: Terms, leases: map<Id, Lease>) {
    forall id :: id in leases ==> leases[id] == terms(id)
  }

  ghost predicate Inv(terms: Terms, s: Disk) {
    && s.Slots() <= MAX_PENDING && |s.leases| <= MAX_LEASES
    && LeasesOk(s.leases, s.used) && s.retired.Keys <= s.leases.Keys
    && PendingOk(s.node, s.leases, s.used, s.pending)
    && WindowsOk(s.leases, s.retired.Keys, s.windows)
    && BudgetsOk(s.leases, s.used, s.windows)
    && Capped(s.windows)
    && Agrees(terms, s.leases)
    && ConfigOk(terms, s.config)
    && Ids(LeasesOf(s.config.rules)) <= s.leases.Keys
  }

  ghost predicate NewId(pending: seq<Usage>, id: UsageId) {
    forall p :: p in pending ==> p.id != id
  }

  ghost predicate NoWindowOn(windows: map<Id, Window>, l: Id) {
    forall id :: id in windows ==> windows[id].lease != l
  }

  /** What the planner owes beyond the validator's own checks. */
  ghost predicate Careful(terms: Terms, s: Disk, e: Event) {
    match e
    case Reserve(w, l) => l == terms(l.id)
    case Progress(w, u) => u.Some? ==> NewId(s.pending, u.value.id) && (w.closed || s.Slots() < MAX_PENDING)
    case SetConfig(c) =>
      ConfigOk(terms, c) && Familiar(s.leases, c) && forall id :: id in s.windows ==> s.windows[id].lease in Active(c)
    case Charge(u, l) =>
      && NewId(s.pending, u.id)
      && 0 < u.startedAt <= u.endedAt <= terms(u.lease).expiresAt
      && (l.Some? ==> l.value == terms(l.value.id) && 0 < l.value.bytes && LeaseCapacity(s, [l.value]))
    case Ack(_) => true
    case Retire(l) => NoWindowOn(s.windows, l)
    case RetireAck(_) => true
  }

  // ----- Facts about sums of windows -----

  lemma HeldNonNegative(windows: map<Id, Window>, q: Measure)
    requires forall id :: id in windows ==> WindowShape(windows[id])
    ensures 0 <= Held(windows, q)
  {
    SumNonNegative(windows, By(q));
  }

  lemma DatagramShare(windows: map<Id, Window>, r: Id)
    requires forall id :: id in windows ==> WindowShape(windows[id])
    ensures Held(windows, Datagram(r)) <= Held(windows, OfRule(r))
    ensures (forall id :: id in windows && windows[id].rule == r ==> !windows[id].tcp)
        ==> Held(windows, OfRule(r)) <= Held(windows, Datagram(r))
  {
    SumMonotone(windows, By(Datagram(r)), windows, By(OfRule(r)));
    if forall id :: id in windows && windows[id].rule == r ==> !windows[id].tcp {
      SumMonotone(windows, By(OfRule(r)), windows, By(Datagram(r)));
    }
  }

  lemma NoneHeld(windows: map<Id, Window>, l: Id)
    requires NoWindowOn(windows, l)
    ensures Held(windows, OfLease(l)) == 0
  {
    SumZero(windows, By(OfLease(l)));
  }

  lemma RuleBoundHolds(windows: map<Id, Window>, r: Id)
    requires forall id :: id in windows ==> WindowShape(windows[id])
    requires Held(windows, OfRule(r)) <= TCP_RULE_CREDITS
    requires Held(windows, Datagram(r)) <= RULE_CREDITS
    ensures Held(windows, OfRule(r)) <= RuleBound(windows, r)
  {
    DatagramShare(windows, r);
  }

  lemma SubsetSize<T>(a: set<T>, b: set<T>)
    requires a <= b
    ensures |a| <= |b|
  {
    assert b == a + (b - a);
  }

  /** A state kept by the writer is always accepted on the next start. */
  lemma InvIsAccepted(terms: Terms, s: Disk)
    requires Inv(terms, s)
    ensures Snapshot(s)
  {
    forall r ensures Held(s.windows, OfRule(r)) <= RuleBound(s.windows, r) {
      assert Held(s.windows, OfRule(r)) <= Cap(OfRule(r));
      assert Held(s.windows, Datagram(r)) <= Cap(Datagram(r));
      RuleBoundHolds(s.windows, r);
    }
    forall o ensures Held(s.windows, OfOwner(o)) <= ACCOUNT_CREDITS {
      assert Held(s.windows, OfOwner(o)) <= Cap(OfOwner(o));
    }
    forall r, up ensures Held(s.windows, InPool(r, up)) <= 2 {
      assert Held(s.windows, InPool(r, up)) <= Cap(InPool(r, up));
    }
    SubsetSize(s.used.Keys, s.leases.Keys);
    SubsetSize(s.retired.Keys, s.leases.Keys);
  }

  // ----- Reservation -----

  /** The validator's window bounds are what the caps need. */
  ghost predicate Fits(windows: map<Id, Window>, w: Window) {
    && WindowShape(w) && w.id !in windows && w.confirmed == 0
    && Held(windows, InPool(w.rule, w.upload)) < 2
    && w.capacity <= w.RuleLimit() - Held(windows, OfRule(w.rule))
    && w.capacity <= ACCOUNT_CREDITS - Held(windows, OfOwner(w.owner))
  }

  lemma FitsUnderCap(windows: map<Id, Window>, w: Window, q: Measure)
    requires forall id :: id in windows ==> WindowShape(windows[id])
    requires Fits(windows, w) && q.Bounded() && Held(windows, q) <= Cap(q)
    ensures Held(windows[w.id := w], q) <= Cap(q)
  {
    HeldPut(windows, q, w.id, w);
    DatagramShare(windows, w.rule);
  }

  lemma ReserveKeepsCaps(windows: map<Id, Window>, w: Window)
    requires forall id :: id in windows ==> WindowShape(windows[id])
    requires Fits(windows, w) && Capped(windows)
    ensures Capped(windows[w.id := w])
  {
    forall q: Measure | q.Bounded() ensures Held(windows[w.id := w], q) <= Cap(q) {
      FitsUnderCap(windows, w, q);
    }
  }

  lemma ReserveKeepsBudgets(leases: map<Id, Lease>, used: map<Id, int>, windows: map<Id, Window>, w: Window, l: Lease)
    requires BudgetsOk(leases, used, windows)
    requires w.id !in windows && w.confirmed == 0 && w.lease == l.id && (l.id in leases ==> leases[l.id] == l)
    requires w.capacity <= l.bytes - Spent(used, l.id) - Held(windows, OfLease(l.id))
    ensures BudgetsOk(leases[l.id := l], used, windows[w.id := w])
  {
    forall id | id in leases[l.id := l]
      ensures Held(windows[w.id := w], OfLease(id)) <= leases[l.id := l][id].bytes - Spent(used, id)
    {
      HeldPut(windows, OfLease(id), w.id, w);
    }
  }

  lemma {:induction false} NoPendingBytes(pending: seq<Usage>, l: Id)
    requires forall u :: u in pending ==> u.lease != l
    ensures PendingBytes(pending, l) == 0
  {
    if pending != [] {
      NoPendingBytes(pending[..|pending| - 1], l);
    }
  }

  ghost predicate Extends(leases: map<Id, Lease>, more: map<Id, Lease>) {
    && (forall id :: id in leases ==> id in more && more[id] == leases[id])
    && (forall id :: id in more ==> more[id].id == id && 0 < more[id].bytes && 0 < more[id].expiresAt)
  }

  /** Registering leases that agree with the ones already known. */
  lemma RegistryGrows(node: Id, leases: map<Id, Lease>, more: map<Id, Lease>, used: map<Id, int>, pending: seq<Usage>)
    requires LeasesOk(leases, used) && PendingOk(node, leases, used, pending) && Extends(leases, more)
    ensures LeasesOk(more, used) && PendingOk(node, more, used, pending)
  {
    forall l | l in more ensures PendingBytes(pending, l) <= Spent(used, l) {
      if l !in leases {
        NoPendingBytes(pending, l);
      }
    }
    forall u | u in pending ensures UsageOk(node, more, u) {
      assert UsageOk(node, leases, u);
    }
  }

  lemma WindowsSurvive(leases: map<Id, Lease>, more: map<Id, Lease>, stopped: set<Id>, also: set<Id>, windows: map<Id, Window>)
    requires WindowsOk(leases, stopped, windows) && Extends(leases, more)
    requires forall id :: id in windows ==> windows[id].lease in stopped || windows[id].lease !in also
    ensures WindowsOk(more, also, windows)
  {
    forall id | id in windows ensures WindowOk(more, also, id, windows[id]) {
      assert WindowOk(leases, stopped, id, windows[id]);
    }
  }

  lemma WindowsAreShaped(leases: map<Id, Lease>, stopped: set<Id>, windows: map<Id, Window>)
    requires WindowsOk(leases, stopped, windows)
    ensures forall id :: id in windows ==> WindowShape(windows[id])
    ensures forall id :: id in windows ==> windows[id].lease in leases && windows[id].lease !in stopped
  {
  }

  lemma RegistrySize(s: Disk, l: Lease)
    requires LeaseCapacity(s, [l])
    ensures |s.leases[l.id := l]| <= MAX_LEASES
  {
    assert s.leases[l.id := l].Keys == s.leases.Keys + Ids([l]) by { assert l in [l]; }
  }

  lemma OneMore(terms: Terms, leases: map<Id, Lease>, used: map<Id, int>, l: Lease)
    requires LeasesOk(leases, used) && Agrees(terms, leases) && l == terms(l.id)
    requires 0 < l.bytes && 0 < l.expiresAt
    ensures Extends(leases, leases[l.id := l]) && Agrees(terms, leases[l.id := l])
  {
  }

  lemma GrantIsPositive(s: Disk, w: Window, l: Lease)
    requires LeasesOk(s.leases, s.used) && WindowsOk(s.leases, s.retired.Keys, s.windows) && ValidReserve(s, w, l)
    ensures 0 < l.bytes && 0 < l.expiresAt
  {
    HeldNonNegative(s.windows, OfLease(l.id));
  }

  lemma NewWindowOk(leases: map<Id, Lease>, stopped: set<Id>, windows: map<Id, Window>, w: Window)
    requires WindowsOk(leases, stopped, windows) && WindowOk(leases, stopped, w.id, w)
    ensures WindowsOk(leases, stopped, windows[w.id := w])
  {
  }

  lemma ReserveKeepsInv(terms: Terms, s: Disk, w: Window, l: Lease)
    requires Inv(terms, s) && ValidReserve(s, w, l) && l == terms(l.id)
    ensures Inv(terms, Apply(s, Reserve(w, l)))
  {
    hide PendingOk, BudgetsOk, Capped, LeaseCapacity, ConfigOk, Ids, LeasesOf, Held, LeasesOk, Agrees, WindowsOk, Extends;
    var more := s.leases[l.id := l];
    GrantIsPositive(s, w, l);
    OneMore(terms, s.leases, s.used, l);
    RegistrySize(s, l);
    RegistryGrows(s.node, s.leases, more, s.used, s.pending);
    WindowsAreShaped(s.leases, s.retired.Keys, s.windows);
    ReserveKeepsCaps(s.windows, w);
    ReserveKeepsBudgets(s.leases, s.used, s.windows, w, l);
    WindowsSurvive(s.leases, more, s.retired.Keys, s.retired.Keys, s.windows);
    NewWindowOk(more, s.retired.Keys, s.windows, w);
  }

  // ----- Progress -----

  /** The windows after a progress event. */
  function Moved(windows: map<Id, Window>, w: Window): map<Id, Window> {
    if w.closed then windows - {w.id} else windows[w.id := w]
  }

  lemma MovedHeld(windows: map<Id, Window>, w: Window, q: Measure)
    requires w.id in windows
    ensures Held(Moved(windows, w), q)
         == Held(windows, q) - Weight(q, windows[w.id]) + (if w.closed then 0 else Weight(q, w))
  {
    HeldPut(windows, q, w.id, w);
    HeldDrop(windows, q, w.id);
  }

  lemma MovedKeepsCaps(windows: map<Id, Window>, w: Window)
    requires w.id in windows && Continues(windows[w.id], w) && WindowShape(w) && Capped(windows)
    ensures Capped(Moved(windows, w))
  {
    forall q: Measure | q.Bounded() ensures Held(Moved(windows, w), q) <= Cap(q) {
      MovedHeld(windows, w, q);
    }
  }

  lemma MovedWindowsOk(leases: map<Id, Lease>, stopped: set<Id>, windows: map<Id, Window>, w: Window)
    requires WindowsOk(leases, stopped, windows)
    requires w.id in windows && Continues(windows[w.id], w) && WindowShape(w)
    ensures WindowsOk(leases, stopped, Moved(windows, w))
  {
    forall id | id in Moved(windows, w) ensures WindowOk(leases, stopped, id, Moved(windows, w)[id]) {
      assert WindowOk(leases, stopped, id, windows[id]);
    }
  }

  lemma MovedKeepsBudgets(leases: map<Id, Lease>, used: map<Id, int>, windows: map<Id, Window>, w: Window)
    requires w.id in windows && Continues(windows[w.id], w) && WindowShape(w)
    requires BudgetsOk(leases, used, windows)
    ensures BudgetsOk(leases, Billed(used, w.lease, w.confirmed - windows[w.id].confirmed), Moved(windows, w))
  {
    var after := Billed(used, w.lease, w.confirmed - windows[w.id].confirmed);
    forall l | l in leases ensures Held(Moved(windows, w), OfLease(l)) <= leases[l].bytes - Spent(after, l) {
      MovedHeld(windows, w, OfLease(l));
    }
  }

  lemma PendingAppend(pending: seq<Usage>, u: Usage, l: Id)
    ensures PendingBytes(pending + [u], l) == PendingBytes(pending, l) + (if u.lease == l then u.Bytes() else 0)
  {
    assert (pending + [u])[..|pending|] == pending;
  }

  lemma BillKeepsPending(node: Id, leases: map<Id, Lease>, used: map<Id, int>, pending: seq<Usage>, u: Usage)
    requires PendingOk(node, leases, used, pending) && UsageOk(node, leases, u) && NewId(pending, u.id)
    ensures PendingOk(node, leases, Billed(used, u.lease, u.Bytes()), pending + [u])
  {
    forall l | l in leases ensures PendingBytes(pending + [u], l) <= Spent(Billed(used, u.lease, u.Bytes()), l) {
      PendingAppend(pending, u, l);
    }
  }

  /** A billed lease stays inside its bytes because its remaining liability is never negative. */
  lemma BillKeepsLeases(leases: map<Id, Lease>, used: map<Id, int>, windows: map<Id, Window>, l: Id, n: int)
    requires LeasesOk(leases, used) && l in leases && 0 <= n
    requires BudgetsOk(leases, Billed(used, l, n), windows)
    requires forall id :: id in windows ==> WindowShape(windows[id])
    ensures LeasesOk(leases, Billed(used, l, n))
    ensures n <= leases[l].bytes
  {
    HeldNonNegative(windows, OfLease(l));
    assert Held(windows, OfLease(l)) <= leases[l].bytes - Spent(Billed(used, l, n), l);
  }

  lemma MovedSize(windows: map<Id, Window>, w: Window)
    requires w.id in windows
    ensures |Moved(windows, w)| == |windows| - (if w.closed then 1 else 0)
  {
    assert (windows - {w.id}).Keys == windows.Keys - {w.id};
    assert windows[w.id := w].Keys == windows.Keys;
  }

  lemma ProgressKeepsInv(terms: Terms, s: Disk, w: Window, u: Option<Usage>)
    requires Inv(terms, s) && ValidProgress(s, w, u) && Careful(terms, s, Progress(w, u))
    ensures Inv(terms, Apply(s, Progress(w, u)))
  {
    hide LeasesOk, PendingOk, Capped, Held, ConfigOk, Ids, LeasesOf, Agrees;
    MovedSize(s.windows, w);
    MovedKeepsCaps(s.windows, w);
    MovedWindowsOk(s.leases, s.retired.Keys, s.windows, w);
    MovedKeepsBudgets(s.leases, s.used, s.windows, w);
    if u.Some? {
      assert WindowOk(s.leases, s.retired.Keys, w.id, s.windows[w.id]);
      BillKeepsLeases(s.leases, s.used, Moved(s.windows, w), w.lease, u.value.Bytes());
      BillKeepsPending(s.node, s.leases, s.used, s.pending, u.value);
    } else {
      assert forall l :: Spent(Billed(s.used, w.lease, 0), l) == Spent(s.used, l);
    }
  }

  // ----- Direct charges -----

  lemma ChargeKeepsBudgets(s: Disk, known: map<Id, Lease>, u: Usage)
    requires BudgetsOk(s.leases, s.used, s.windows) && u.lease in known
    requires u.Bytes() <= known[u.lease].bytes - s.Used(u.lease) - s.Liability(u.lease)
    requires forall id :: id in known && id != u.lease ==> id in s.leases && s.leases[id] == known[id]
    ensures BudgetsOk(known, Billed(s.used, u.lease, u.Bytes()), s.windows)
  {
  }

  lemma ChargeKnowsLease(terms: Terms, s: Disk, u: Usage, l: Option<Lease>) returns (known: map<Id, Lease>)
    requires Inv(terms, s) && ValidCharge(s, u, l) && Careful(terms, s, Charge(u, l))
    ensures known == Apply(s, Charge(u, l)).leases
    ensures Extends(s.leases, known) && Agrees(terms, known) && |known| <= MAX_LEASES
    ensures UsageOk(s.node, known, u) || known[u.lease].bytes < u.Bytes()
    ensures BudgetsOk(known, Billed(s.used, u.lease, u.Bytes()), s.windows)
  {
    hide PendingOk, Capped, LeaseCapacity, ConfigOk, Ids, LeasesOf, Held, WindowsOk, BudgetsOk;
    known := Apply(s, Charge(u, l)).leases;
    var grant := if u.lease in s.leases then s.leases[u.lease] else l.value;
    OneMore(terms, s.leases, s.used, grant);
    assert known == s.leases[grant.id := grant];
    if u.lease !in s.leases {
      RegistrySize(s, l.value);
    }
    ChargeKeepsBudgets(s, known, u);
  }

  lemma ChargeKeepsInv(terms: Terms, s: Disk, u: Usage, l: Option<Lease>)
    requires Inv(terms, s) && ValidCharge(s, u, l) && Careful(terms, s, Charge(u, l))
    ensures Inv(terms, Apply(s, Charge(u, l)))
  {
    hide PendingOk, Capped, LeaseCapacity, ConfigOk, Ids, LeasesOf, Held, WindowsOk, BudgetsOk, LeasesOk, Agrees, Extends, NewId, UsageOk;
    var known := ChargeKnowsLease(terms, s, u, l);
    RegistryGrows(s.node, s.leases, known, s.used, s.pending);
    WindowsSurvive(s.leases, known, s.retired.Keys, s.retired.Keys, s.windows);
    WindowsAreShaped(s.leases, s.retired.Keys, s.windows);
    BillKeepsLeases(known, s.used, s.windows, u.lease, u.Bytes());
    BillKeepsPending(s.node, known, s.used, s.pending, u);
  }

  // ----- Configuration -----

  lemma {:induction false} Registered(leases: map<Id, Lease>, incoming: seq<Lease>, terms: Terms)
    requires Honest(terms, incoming) && Agrees(terms, leases)
    ensures Register(leases, incoming).Keys == leases.Keys + Ids(incoming)
    ensures Agrees(terms, Register(leases, incoming))
    decreases |incoming|
  {
    if incoming != [] {
      var l := incoming[0];
      Registered(leases[l.id := l], incoming[1..], terms);
      assert incoming == [l] + incoming[1..];
      assert Ids(incoming) == {l.id} + Ids(incoming[1..]);
    }
  }

  lemma LeasesCons(r: Rule, rules: seq<Rule>)
    ensures LeasesOf([r] + rules) == r.Leases() + LeasesOf(rules)
  {
    assert ([r] + rules)[1..] == rules;
  }

  lemma {:induction false} EnabledAreNamed(rules: seq<Rule>, l: Lease)
    requires l in LeasesOf(EnabledRules(rules))
    ensures l in LeasesOf(rules)
  {
    if rules != [] {
      var r, rest := rules[0], EnabledRules(rules[1..]);
      LeasesCons(r, rest);
      assert [] + rest == rest;
      if l in LeasesOf(rest) {
        EnabledAreNamed(rules[1..], l);
      }
    }
  }

  /** The leases of the enabled rules are honest too. */
  lemma EnabledIsHonest(terms: Terms, c: Config)
    requires ConfigOk(terms, c)
    ensures Honest(terms, LeasesOf(EnabledRules(c.rules)))
  {
    hide LeasesOf, EnabledRules, FundedRules;
    forall l | l in LeasesOf(EnabledRules(c.rules)) ensures l in LeasesOf(c.rules) { EnabledAreNamed(c.rules, l); }
  }

  lemma ConfigExtends(terms: Terms, leases: map<Id, Lease>, used: map<Id, int>, incoming: seq<Lease>)
    requires Honest(terms, incoming) && Agrees(terms, leases) && LeasesOk(leases, used)
    ensures Extends(leases, Register(leases, incoming))
  {
    var more := Register(leases, incoming);
    Registered(leases, incoming, terms);
    forall id | id in more ensures more[id].id == id && 0 < more[id].bytes && 0 < more[id].expiresAt {
      if id !in leases {
        var l :| l in incoming && l.id == id;
      }
    }
  }

  lemma NewLeasesUnheld(leases: map<Id, Lease>, more: map<Id, Lease>, used: map<Id, int>, stopped: set<Id>, windows: map<Id, Window>)
    requires BudgetsOk(leases, used, windows) && WindowsOk(leases, stopped, windows) && Extends(leases, more)
    requires used.Keys <= leases.Keys
    ensures BudgetsOk(more, used, windows)
  {
    forall l | l in more ensures Held(windows, OfLease(l)) <= more[l].bytes - Spent(used, l) {
      if l !in leases {
        NoneHeld(windows, l);
      }
    }
  }

  /** The leases stopped by a configuration carry no open window. */
  lemma ConfigStops(s: Disk, c: Config, stopped: set<Id>)
    requires stopped == Stop(s.retired, Ids(LeasesOf(s.config.rules)) - Active(c)).Keys
    requires Ids(LeasesOf(s.config.rules)) <= s.leases.Keys && s.retired.Keys <= s.leases.Keys
    requires forall id :: id in s.windows ==> s.windows[id].lease in Active(c)
    ensures stopped <= s.leases.Keys
    ensures forall id :: id in s.windows ==> s.windows[id].lease in s.retired || s.windows[id].lease !in stopped
  {
  }

  lemma ConfigSize(terms: Terms, s: Disk, c: Config)
    requires ConfigOk(terms, c) && ValidConfig(s, c) && Agrees(terms, s.leases)
    ensures |Register(s.leases, LeasesOf(EnabledRules(c.rules)))| <= MAX_LEASES
  {
    hide LeasesOf, EnabledRules, FundedRules;
    EnabledIsHonest(terms, c);
    Registered(s.leases, LeasesOf(EnabledRules(c.rules)), terms);
  }

  lemma ConfigKeepsInv(terms: Terms, s: Disk, c: Config)
    requires Inv(terms, s) && ValidConfig(s, c) && Careful(terms, s, SetConfig(c))
    ensures Inv(terms, Apply(s, SetConfig(c)))
  {
    hide PendingOk, BudgetsOk, Capped, LeasesOk, WindowsOk, Held, Register, LeasesOf, EnabledRules, Ids, Agrees, Extends, Stop, ValidConfig, ConfigOk;
    var incoming := LeasesOf(EnabledRules(c.rules));
    EnabledIsHonest(terms, c);
    var more := Register(s.leases, incoming);
    var stopped := Stop(s.retired, Ids(LeasesOf(s.config.rules)) - Active(c)).Keys;
    ConfigStops(s, c, stopped);
    ConfigSize(terms, s, c);
    Registered(s.leases, incoming, terms);
    ConfigExtends(terms, s.leases, s.used, incoming);
    RegistryGrows(s.node, s.leases, more, s.used, s.pending);
    WindowsSurvive(s.leases, more, s.retired.Keys, stopped, s.windows);
    UsedIsRegistered(s.leases, s.used);
    NewLeasesUnheld(s.leases, more, s.used, s.retired.Keys, s.windows);
  }

  lemma UsedIsRegistered(leases: map<Id, Lease>, used: map<Id, int>)
    requires LeasesOk(leases, used)
    ensures used.Keys <= leases.Keys
  {
  }

  // ----- Acknowledgement and retirement -----

  lemma {:induction false} AckPrunes(pending: seq<Usage>, ids: set<UsageId>, l: Id)
    requires forall u :: u in pending ==> 0 <= u.Bytes()
    ensures |Unacknowledged(pending, ids)| <= |pending|
    ensures PendingBytes(Unacknowledged(pending, ids), l) <= PendingBytes(pending, l)
  {
    if pending != [] {
      var front, last := pending[..|pending| - 1], pending[|pending| - 1];
      var rest := Unacknowledged(front, ids);
      AckPrunes(front, ids, l);
      PendingAppend(rest, last, l);
      assert rest + [] == rest && last in pending;
    }
  }

  lemma {:induction false} AckKeepsMembers(pending: seq<Usage>, ids: set<UsageId>)
    ensures forall u :: u in Unacknowledged(pending, ids) <==> u in pending && u.id !in ids
  {
    if pending != [] {
      var front, last := pending[..|pending| - 1], pending[|pending| - 1];
      AckKeepsMembers(front, ids);
      assert pending == front + [last];
    }
  }

  lemma {:induction false} AckKeepsDistinct(pending: seq<Usage>, ids: set<UsageId>)
    requires DistinctIds(pending)
    ensures DistinctIds(Unacknowledged(pending, ids))
  {
    if pending != [] {
      var front, last := pending[..|pending| - 1], pending[|pending| - 1];
      var rest := Unacknowledged(front, ids);
      AckKeepsDistinct(front, ids);
      AckKeepsMembers(front, ids);
      forall i | 0 <= i < |rest| ensures rest[i].id != last.id {
        assert rest[i] in rest;
      }
    }
  }

  lemma AckKeepsPending(node: Id, leases: map<Id, Lease>, used: map<Id, int>, pending: seq<Usage>, ids: set<UsageId>)
    requires PendingOk(node, leases, used, pending)
    ensures PendingOk(node, leases, used, Unacknowledged(pending, ids)) && |Unacknowledged(pending, ids)| <= |pending|
  {
    hide Unacknowledged, PendingBytes;
    forall u | u in pending ensures 0 <= u.Bytes() { assert UsageOk(node, leases, u); }
    hide UsageOk;
    AckKeepsMembers(pending, ids);
    AckKeepsDistinct(pending, ids);
    hide DistinctIds;
    AckPrunes(pending, ids, node);
    forall l | l in leases ensures PendingBytes(Unacknowledged(pending, ids), l) <= Spent(used, l) {
      AckPrunes(pending, ids, l);
    }
  }

  lemma AckKeepsInv(terms: Terms, s: Disk, ids: set<UsageId>)
    requires Inv(terms, s)
    ensures Inv(terms, Apply(s, Ack(ids)))
  {
    hide LeasesOk, PendingOk, BudgetsOk, Capped, WindowsOk, Agrees, ConfigOk, LeasesOf, Ids, Unacknowledged;
    AckKeepsPending(s.node, s.leases, s.used, s.pending, ids);
  }

  lemma StopKeepsInv(terms: Terms, s: Disk, retired: map<Id, bool>)
    requires Inv(terms, s) && retired.Keys <= s.leases.Keys
    requires forall id :: id in s.windows ==> s.windows[id].lease in s.retired || s.windows[id].lease !in retired
    ensures Inv(terms, s.(retired := retired))
  {
    assert Extends(s.leases, s.leases);
    WindowsSurvive(s.leases, s.leases, s.retired.Keys, retired.Keys, s.windows);
    hide LeasesOk, PendingOk, BudgetsOk, Capped, WindowsOk;
  }

  /** Every event that the planner is careful about and the log accepts keeps the durable invariant. */
  lemma EventKeepsInv(terms: Terms, s: Disk, e: Event)
    requires Inv(terms, s) && Valid(s, e) && Careful(terms, s, e)
    ensures Inv(terms, Apply(s, e))
  {
    match e
    case Reserve(w, l) => ReserveKeepsInv(terms, s, w, l);
    case Progress(w, u) => ProgressKeepsInv(terms, s, w, u);
    case SetConfig(c) => ConfigKeepsInv(terms, s, c);
    case Charge(u, l) => ChargeKeepsInv(terms, s, u, l);
    case Ack(ids) => AckKeepsInv(terms, s, ids);
    case Retire(l) => StopKeepsInv(terms, s, Stop(s.retired, {l}));
    case RetireAck(l) => StopKeepsInv(terms, s, s.retired[l := true]);
  }

  // ----- What the validator does not check -----

  lemma RulesCons(r: Rule, rules: seq<Rule>)
    ensures EnabledRules([r] + rules) == (if r.enabled then [r] else []) + EnabledRules(rules)
    ensures FundedRules([r] + rules) == (if r.enabled && r.lease.Some? then [r] else []) + FundedRules(rules)
  {
    assert ([r] + rules)[1..] == rules;
  }

  lemma {:induction false} EnabledTwice(rules: seq<Rule>)
    ensures EnabledRules(EnabledRules(rules)) == EnabledRules(rules)
    ensures FundedRules(EnabledRules(rules)) == FundedRules(rules)
  {
    if rules != [] {
      var r, rest := rules[0], EnabledRules(rules[1..]);
      EnabledTwice(rules[1..]);
      RulesCons(r, rest);
      assert [] + rest == rest;
    }
  }

  /** The part of a configuration that takes effect. */
  function Effective(c: Config): Config {
    c.(rules := EnabledRules(c.rules))
  }

  lemma EffectiveIsOk(terms: Terms, leases: map<Id, Lease>, c: Config)
    requires ConfigOk(terms, c)
    ensures ConfigOk(terms, Effective(c)) && Familiar(leases, Effective(c)) && Active(Effective(c)) == Active(c)
  {
    EnabledTwice(c.rules);
    EnabledIsHonest(terms, c);
    hide LeasesOf, EnabledRules, FundedRules;
  }

  /**
   * A configuration may name leases under disabled rules, which are not registered. The next configuration stops them, and
   * its result restarts exactly if every lease that the old one named is registered by then.
   */
  lemma ConfigRestarts(terms: Terms, s: Disk, c: Config)
    requires Inv(terms, s.(config := Config(false, [], 0))) && ValidConfig(s, c) && ConfigOk(terms, c)
    requires forall id :: id in s.windows ==> s.windows[id].lease in Active(c)
    ensures Snapshot(Apply(s, SetConfig(c))) <==> Ids(LeasesOf(s.config.rules)) <= s.leases.Keys + Active(c)
  {
    AgreesNow(terms, s.(config := Config(false, [], 0)));
    hide Inv, Snapshot, LeasesOf, Active, ValidConfig, ConfigOk;
    if Ids(LeasesOf(s.config.rules)) <= s.leases.Keys + Active(c) {
      FamiliarRestarts(terms, s, c);
    } else {
      StrangerBreaks(terms, s, c);
    }
  }

  lemma StrangerBreaks(terms: Terms, s: Disk, c: Config)
    requires ConfigOk(terms, c) && Agrees(terms, s.leases) && !(Ids(LeasesOf(s.config.rules)) <= s.leases.Keys + Active(c))
    ensures !Snapshot(Apply(s, SetConfig(c)))
  {
    EnabledIsHonest(terms, c);
    Registered(s.leases, LeasesOf(EnabledRules(c.rules)), terms);
    hide LeasesOf, EnabledRules, FundedRules, Register, PendingOk, WindowsOk, BudgetsOk, ConfigOk;
    var t := Apply(s, SetConfig(c));
    var l :| l in Ids(LeasesOf(s.config.rules)) && l !in s.leases.Keys + Active(c);
    assert l in t.retired && l !in t.leases;
  }

  lemma EffectiveIsValid(s: Disk, c: Config)
    requires ValidConfig(s, c)
    ensures ValidConfig(s.(config := Config(false, [], 0)), Effective(c))
  {
    EnabledTwice(c.rules);
    hide LeasesOf, EnabledRules, FundedRules, Ids;
  }

  lemma FamiliarRestarts(terms: Terms, s: Disk, c: Config)
    requires Inv(terms, s.(config := Config(false, [], 0))) && ValidConfig(s, c) && ConfigOk(terms, c)
    requires forall id :: id in s.windows ==> s.windows[id].lease in Active(c)
    requires Ids(LeasesOf(s.config.rules)) <= s.leases.Keys + Active(c)
    ensures Snapshot(Apply(s, SetConfig(c)))
  {
    hide Inv, Snapshot, LeasesOf, EnabledRules, FundedRules, ConfigOk, Ids, Register, Stop, Active, Honest, ValidConfig;
    var blank, e := s.(config := Config(false, [], 0)), Effective(c);
    var t, u := Apply(s, SetConfig(c)), Apply(blank, SetConfig(e));
    EnabledTwice(c.rules);
    EffectiveIsOk(terms, s.leases, c);
    EffectiveIsValid(s, c);
    ConfigKeepsInv(terms, blank, e);
    AgreesNow(terms, blank);
    EnabledIsHonest(terms, c);
    Registered(s.leases, LeasesOf(EnabledRules(c.rules)), terms);
    StoppedByConfig(s, c);
    StopKeepsInv(terms, u, t.retired);
    InvIsAccepted(terms, u.(retired := t.retired));
    SnapshotIgnoresConfig(u.(retired := t.retired), t);
  }

  lemma StoppedByConfig(s: Disk, c: Config)
    ensures Active(c) == Ids(LeasesOf(EnabledRules(c.rules)))
    ensures forall id :: id in Stop(s.retired, Ids(LeasesOf(s.config.rules)) - Active(c)) <==>
              id in s.retired || (id in Ids(LeasesOf(s.config.rules)) && id !in Active(c))
    ensures Stop(s.retired, Ids(LeasesOf([])) - Active(Effective(c))) == s.retired
  {
    assert Ids([]) == {};
  }

  lemma AgreesNow(terms: Terms, s: Disk)
    requires Inv(terms, s)
    ensures Agrees(terms, s.leases) && s.retired.Keys <= s.leases.Keys
  {
  }

  lemma SnapshotIgnoresConfig(s: Disk, t: Disk)
    requires t == s.(config := t.config)
    ensures Snapshot(s) <==> Snapshot(t)
  {
  }

  /**
   * The log accepts a direct charge on a usable lease exactly when the state that it leaves would restart: it neither
   * overspends the lease or the spool nor refuses a byte that fits.
   */
  lemma ChargeIsExact(terms: Terms, s: Disk, u: Usage)
    requires Inv(terms, s) && u.lease in s.leases && u.lease !in s.retired && 0 <= u.up && 0 <= u.down
    requires u.node == s.node && u.entitlement == s.leases[u.lease].entitlement && NewId(s.pending, u.id)
    requires 0 < u.startedAt <= u.endedAt <= terms(u.lease).expiresAt
    ensures ValidCharge(s, u, None) <==> Snapshot(Apply(s, Charge(u, None)))
  {
    if ValidCharge(s, u, None) {
      ChargeKeepsInv(terms, s, u, None);
      InvIsAccepted(terms, Apply(s, Charge(u, None)));
    } else {
      hide LeasesOk, PendingOk, WindowsOk, Capped, ConfigOk, LeasesOf, Held;
      OverchargeBreaks(s, u);
    }
  }

  lemma OverchargeBreaks(s: Disk, u: Usage)
    requires u.lease in s.leases && (s.Used(u.lease) + s.Liability(u.lease) + u.Bytes() > s.leases[u.lease].bytes || s.Slots() >= MAX_PENDING)
    ensures !Snapshot(Apply(s, Charge(u, None)))
  {
    hide LeasesOk, PendingOk, WindowsOk, Held;
    var t := Apply(s, Charge(u, None));
    assert t.windows == s.windows && t.leases == s.leases && t.Used(u.lease) == s.Used(u.lease) + u.Bytes();
  }

  /** A report that the log accepts is determined by its window, but for its end and for whether it is a recovery. */
  lemma ReportIsDetermined(s: Disk, w: Window, delta: int, u: Usage)
    requires w.lease in s.leases && 0 <= delta
    ensures ValidReport(s, w, delta, u) <==>
              && u == Usage(Report(w.id, w.sequence), s.node, w.rule, w.lease, s.leases[w.lease].entitlement, w.startedAt, u.endedAt,
                            if w.upload then delta else 0, if w.upload then 0 else delta, u.recovery)
              && w.startedAt <= u.endedAt <= w.until && (u.recovery ==> w.closed && w.confirmed == w.capacity) && |s.pending| < MAX_PENDING
  {
  }

  /** The log accepts stopping any known lease, but the result restarts exactly if the lease has no open window. */
  lemma StopRestarts(terms: Terms, s: Disk, l: Id)
    requires Inv(terms, s) && Valid(s, Retire(l))
    ensures Snapshot(Apply(s, Retire(l))) <==> l in s.retired || NoWindowOn(s.windows, l)
  {
    var t := Apply(s, Retire(l));
    if l in s.retired || NoWindowOn(s.windows, l) {
      StopKeepsInv(terms, s, Stop(s.retired, {l}));
      InvIsAccepted(terms, t);
    } else {
      var id :| id in s.windows && s.windows[id].lease == l;
      assert l in t.retired && !WindowOk(t.leases, t.retired.Keys, id, t.windows[id]);
    }
  }

  /** The log accepts a new report while any record slot is free, but the result restarts only with a spare spool slot. */
  lemma ReportRestarts(terms: Terms, s: Disk, w: Window, u: Usage)
    requires Inv(terms, s) && Valid(s, Progress(w, Some(u))) && NewId(s.pending, u.id)
    ensures Snapshot(Apply(s, Progress(w, Some(u)))) <==> w.closed || s.Slots() < MAX_PENDING
  {
    hide Inv, Snapshot;
    MovedSize(s.windows, w);
    if w.closed || s.Slots() < MAX_PENDING {
      ProgressKeepsInv(terms, s, w, Some(u));
      InvIsAccepted(terms, Apply(s, Progress(w, Some(u))));
    } else {
      FullIsRefused(Apply(s, Progress(w, Some(u))));
      FullSpool(terms, s);
    }
  }

  lemma FullSpool(terms: Terms, s: Disk)
    requires Inv(terms, s)
    ensures s.Slots() <= MAX_PENDING
  {
  }

  lemma FullIsRefused(s: Disk)
    ensures s.Slots() > MAX_PENDING ==> !Snapshot(s)
  {
  }

  // ----- Forgetting confirmed history -----

  /** Leases that a checkpoint may forget: confirmed as retired, expired and no longer referenced. */
  ghost function Prunable(s: Disk, now: int): set<Id> {
    set id | id in s.leases && id in s.retired && s.retired[id] && s.leases[id].expiresAt <= now
             && id !in Ids(LeasesOf(s.config.rules))
             && (forall u :: u in s.pending ==> u.lease != id)
             && NoWindowOn(s.windows, id)
  }

  ghost function Prune(s: Disk, now: int): Disk {
    var gone := Prunable(s, now);
    s.(leases := s.leases - gone, used := s.used - gone, retired := s.retired - gone)
  }

  lemma PruneKeepsPending(node: Id, leases: map<Id, Lease>, used: map<Id, int>, pending: seq<Usage>, gone: set<Id>)
    requires PendingOk(node, leases, used, pending) && LeasesOk(leases, used)
    requires forall u :: u in pending ==> u.lease !in gone
    ensures PendingOk(node, leases - gone, used - gone, pending) && LeasesOk(leases - gone, used - gone)
  {
    forall u | u in pending ensures UsageOk(node, leases - gone, u) {
      assert UsageOk(node, leases, u);
    }
  }

  lemma PruneKeepsWindows(leases: map<Id, Lease>, used: map<Id, int>, stopped: set<Id>, windows: map<Id, Window>, gone: set<Id>)
    requires WindowsOk(leases, stopped, windows) && BudgetsOk(leases, used, windows)
    requires forall id :: id in windows ==> windows[id].lease !in gone
    ensures WindowsOk(leases - gone, stopped - gone, windows) && BudgetsOk(leases - gone, used - gone, windows)
  {
    forall id | id in windows ensures WindowOk(leases - gone, stopped - gone, id, windows[id]) {
      assert WindowOk(leases, stopped, id, windows[id]);
    }
  }

  lemma PrunableIsUnreferenced(s: Disk, now: int)
    ensures var gone := Prunable(s, now);
            && (forall u :: u in s.pending ==> u.lease !in gone)
            && (forall id :: id in s.windows ==> s.windows[id].lease !in gone)
            && Ids(LeasesOf(s.config.rules)) !! gone
  {
  }

  lemma PruneKeepsRegistry(terms: Terms, leases: map<Id, Lease>, retired: map<Id, bool>, gone: set<Id>)
    requires Agrees(terms, leases) && retired.Keys <= leases.Keys
    ensures Agrees(terms, leases - gone) && (retired - gone).Keys <= (leases - gone).Keys
    ensures (retired - gone).Keys == retired.Keys - gone && |leases - gone| <= |leases|
  {
    SubsetSize((leases - gone).Keys, leases.Keys);
  }

  lemma PruneKeepsInv(terms: Terms, s: Disk, now: int)
    requires Inv(terms, s)
    ensures Inv(terms, Prune(s, now))
  {
    hide LeasesOk, PendingOk, BudgetsOk, Capped, WindowsOk, Agrees, ConfigOk, Prunable, LeasesOf, Ids;
    var gone := Prunable(s, now);
    PrunableIsUnreferenced(s, now);
    PruneKeepsPending(s.node, s.leases, s.used, s.pending, gone);
    PruneKeepsWindows(s.leases, s.used, s.retired.Keys, s.windows, gone);
    PruneKeepsRegistry(terms, s.leases, s.retired, gone);
  }
}
