/** The Agent's store as it runs: one writer over the durable state and a fast path over the open windows. */
module AgentStore {
  import opened AgentTypes
  import opened AgentState
  import opened AgentSystem
  import opened AgentRuns
  import opened AgentPlanner
  import opened AgentBatches
  import opened AgentRecovery
  import opened AgentFastPath
  import opened AgentWriter
  import opened AgentReach
  import opened AgentSettling
  import opened AgentOrder
  import opened AgentOutcomes
  import opened AgentRestart

  // ----- Batches as the log sees them -----

  lemma EventTarget(s: Disk, e: Event)
    requires Valid(s, e)
    ensures e.Reserve? ==> e.window.id !in s.windows
    ensures e.Progress? ==> e.window.id in s.windows
  {
    hide Held;
  }

  /** A staged batch that is applied to the end is a run of the system. */
  lemma BatchIsRun(terms: Terms, s: System, t: System, events: seq<Event>)
    requires Core(terms, s) && s.inflight == [] && t.inflight == [] && Stages(terms, s, t.(inflight := events))
    ensures Core(terms, PostAll(t, events)) && Reaches(terms, s, PostAll(t, events)) && AllValid(t.disk, events)
  {
    hide Core, Staged, Reaches, AllValid, Froze, PostAll;
    BatchReaches(terms, s, t, events);
    FreezeKeepsCore(terms, s, t);
    StagedIgnoresBatch(terms, t.(inflight := events), [], events);
    assert t.(inflight := events).(inflight := []) == t;
    PostAllKeepsCore(terms, t, events, |events|);
    assert events[..|events|] == events;
    StagedIsValid(terms, t, events);
  }

  // ----- Settling in place -----

  /** The first `k` listed windows have been visited. */
  ghost predicate PartlyFrozen(before: map<Id, Live>, credits: map<Id, Live>, frozen: map<Id, Live>, ids: seq<Id>, k: int) {
    && credits.Keys == before.Keys && frozen.Keys == before.Keys && 0 <= k <= |ids|
    && (forall id :: id in before && id in ids[..k] ==> credits[id] == frozen[id])
    && (forall id :: id in before && id !in ids[..k] ==> credits[id] == before[id])
  }

  lemma FrozenOneMore(before: map<Id, Live>, credits: map<Id, Live>, frozen: map<Id, Live>, ids: seq<Id>, k: int)
    requires PartlyFrozen(before, credits, frozen, ids, k) && k < |ids| && Distinct(ids) && ids[k] in before
    ensures ids[k] in credits && ids[k] in frozen && credits[ids[k]] == before[ids[k]]
    ensures credits[ids[k]] == frozen[ids[k]] ==> PartlyFrozen(before, credits, frozen, ids, k + 1)
    ensures PartlyFrozen(before, credits[ids[k] := frozen[ids[k]]], frozen, ids, k + 1)
  {
    assert ids[..k + 1] == ids[..k] + [ids[k]];
  }

  lemma ProgressStep(disk: Disk, before: map<Id, Live>, trigger: Trigger, now: int, ids: seq<Id>, k: int, room: int)
    requires Watched(disk, before, ids) && Watched(disk, Freeze(disk, before, trigger, now), ids) && 0 <= k < |ids|
    ensures ids[k] in disk.windows && ids[k] in before && disk.windows[ids[k]].lease in disk.leases
    ensures Watched(disk, Freeze(disk, before, trigger, now), ids[k..]) && Watched(disk, Freeze(disk, before, trigger, now), ids[k + 1..])
    ensures var frozen := Freeze(disk, before, trigger, now);
            var w, c := disk.windows[ids[k]], before[ids[k]];
            var close := Closes(disk, trigger, w, c, now);
            && frozen[ids[k]] == (if close then c.(closed := true) else c)
            && ProgressEvents(disk, frozen, trigger, now, ids[k..], room)
               == if !close && (c.used == w.confirmed || room <= 0)
                  then ProgressEvents(disk, frozen, trigger, now, ids[k + 1..], room)
                  else [SettleEvent(disk, w, c, close)]
                       + ProgressEvents(disk, frozen, trigger, now, ids[k + 1..], if close then room else room - 1)
  {
    var frozen := Freeze(disk, before, trigger, now);
    assert ids[k] in ids && ids[k..][1..] == ids[k + 1..];
    assert Watched(disk, frozen, ids[k..]) && Watched(disk, frozen, ids[k + 1..]);
    var w, c := disk.windows[ids[k]], before[ids[k]];
    assert Closes(disk, trigger, w, frozen[ids[k]], now) == Closes(disk, trigger, w, c, now);
    hide Closes;
  }

  /** The state of a pass that has visited the first `k` windows. */
  ghost predicate Planning(disk: Disk, before: map<Id, Live>, credits: map<Id, Live>, trigger: Trigger, now: int,
                           ids: seq<Id>, k: int, room: int, events: seq<Event>)
  {
    var frozen := Freeze(disk, before, trigger, now);
    && Distinct(ids) && PartlyFrozen(before, credits, frozen, ids, k)
    && Watched(disk, before, ids) && Watched(disk, frozen, ids) && 0 <= k <= |ids| && Watched(disk, frozen, ids[k..])
    && Settlement(disk, frozen, trigger, now, ids) == events + ProgressEvents(disk, frozen, trigger, now, ids[k..], room)
  }

  lemma StartOfProgress(disk: Disk, before: map<Id, Live>, trigger: Trigger, now: int, ids: seq<Id>)
    requires Watched(disk, before, ids) && Watched(disk, Freeze(disk, before, trigger, now), ids)
    ensures Planning(disk, before, before, trigger, now, ids, 0, MAX_PENDING - disk.Slots(), [])
  {
    hide Closes;
    assert ids[0..] == ids;
  }

  lemma EndOfProgress(disk: Disk, before: map<Id, Live>, credits: map<Id, Live>, trigger: Trigger, now: int, ids: seq<Id>,
                      room: int, events: seq<Event>)
    requires Planning(disk, before, credits, trigger, now, ids, |ids|, room, events) && Lists(disk.windows, ids)
    ensures credits == Freeze(disk, before, trigger, now)
    ensures Watched(disk, credits, ids) && events == Settlement(disk, credits, trigger, now, ids)
  {
    hide Closes, Settlement;
    assert ids[..|ids|] == ids;
  }

  lemma FlushIsStaged(terms: Terms, s: System, trigger: Trigger, ids: seq<Id>)
    requires Core(terms, s) && s.inflight == [] && Lists(s.disk.windows, ids)
    requires Watched(s.disk, Readied(s, trigger).meter, ids)
    ensures var t := Readied(s, trigger); var events := Settlement(s.disk, t.meter, trigger, s.now, ids);
            Stages(terms, s, t.(inflight := events + []))
  {
    hide Core, Staged, Settlement;
    var t := Readied(s, trigger);
    var events := Settlement(s.disk, t.meter, trigger, s.now, ids);
    SettlementIsStaged(terms, s, trigger, ids);
    assert events + [] == events;
    StagedIgnoresBatch(terms, t, events, events);
  }

  lemma {:induction false} ProgressIsPlausible(disk: Disk, meter: map<Id, Live>, trigger: Trigger, now: int, ids: seq<Id>, room: int)
    requires Watched(disk, meter, ids)
    requires forall id :: id in ids ==> disk.windows[id].id == id && disk.windows[id].confirmed <= meter[id].used
    ensures Plausible(disk.windows, ProgressEvents(disk, meter, trigger, now, ids, room))
    decreases |ids|
  {
    if ids != [] {
      WatchedTail(disk, meter, ids);
      hide Closes, Watched;
      var w, c := disk.windows[ids[0]], meter[ids[0]];
      var close := Closes(disk, trigger, w, c, now);
      ProgressIsPlausible(disk, meter, trigger, now, ids[1..],
                          if close || c.used == w.confirmed || room <= 0 then room else room - 1);
    }
  }

  lemma SettlementIsPlausible(terms: Terms, s: System, trigger: Trigger, ids: seq<Id>)
    requires Core(terms, s) && Lists(s.disk.windows, ids) && Watched(s.disk, Readied(s, trigger).meter, ids)
    ensures Plausible(s.disk.windows, Settlement(s.disk, Readied(s, trigger).meter, trigger, s.now, ids))
  {
    hide Core, Closes;
    var meter := Readied(s, trigger).meter;
    forall id | id in ids ensures s.disk.windows[id].id == id && s.disk.windows[id].confirmed <= meter[id].used {
      OpenWindow(terms, s, id);
    }
    ProgressIsPlausible(s.disk, meter, trigger, s.now, ids, MAX_PENDING - s.disk.Slots());
  }

  /** A settlement draws no new identifiers. */
  lemma SettlingKeepsUnused(terms: Terms, s: System, trigger: Trigger, ids: seq<Id>, drawn: seq<Id>)
    requires Core(terms, s) && Lists(s.disk.windows, ids) && Watched(s.disk, Readied(s, trigger).meter, ids) && Unused(s, [], drawn)
    ensures Unused(SettledBy(s, trigger, ids), [], drawn)
  {
    hide Core, PostAll, Settlement, CreditBatch, Freeze;
    SettlementIsCreditBatch(terms, s, trigger, ids);
    IssuedAfter(Readied(s, trigger), Settlement(s.disk, Readied(s, trigger).meter, trigger, s.now, ids));
  }

  lemma ConfigOutcome(terms: Terms, s: System, ids: seq<Id>, c: Config)
    requires Core(terms, s) && Lists(s.disk.windows, ids) && Watched(s.disk, Readied(s, Configuring(c)).meter, ids)
    ensures var t := Readied(s, Configuring(c));
            var d := PostAll(t, Settlement(s.disk, t.meter, Configuring(c), s.now, ids) + [SetConfig(c)]).disk;
            d.config == c && forall id :: id in d.windows ==> d.windows[id].lease in Active(c)
  {
    hide Core, Settlement, Freeze, Closes, PostAll, Active;
    var t := Readied(s, Configuring(c));
    SettlementOutcome(terms, s, Configuring(c), ids);
    PostAllSnoc(t, Settlement(s.disk, t.meter, Configuring(c), s.now, ids), SetConfig(c));
    SurvivorsAreActive(s, PostAll(t, Settlement(s.disk, t.meter, Configuring(c), s.now, ids)), c);
  }

  lemma FlushIsFlushed(terms: Terms, s: System, trigger: Trigger, ids: seq<Id>)
    requires Core(terms, s) && Lists(s.disk.windows, ids) && Watched(s.disk, Readied(s, trigger).meter, ids)
    ensures Flushed(s, SettledBy(s, trigger, ids), trigger)
  {
    hide Core, SettledBy, Freeze, Accounted, Records, Settles;
    SettlementAccounts(terms, s, trigger, ids);
  }

  lemma GrantIsPlausible(disk: Disk, staged: seq<Event>, r: Request, paused: bool, now: int, id: Id)
    requires Plausible(disk.windows, staged) && 0 < now && Decide(disk, staged, r, paused, now, id).Granted?
    ensures Plausible(disk.windows, staged + [Decide(disk, staged, r, paused, now, id).event])
  {
    hide Decide, Foreseen, LeaseCapacity, Held;
    GrantIsSized(disk, staged, r, paused, now, id);
  }

  lemma PassIsTame(terms: Terms, s: System, ids: seq<Id>, requests: seq<Request>, paused: bool, drawn: seq<Id>)
    requires Core(terms, s) && Lists(s.disk.windows, ids) && Watched(s.disk, Readied(s, Flush).meter, ids) && Tame(paused, s)
    requires |requests| <= |drawn| && 0 < s.now
    ensures Tame(paused, PostAll(Readied(s, Flush),
              Reservations(s.disk, Settlement(s.disk, Readied(s, Flush).meter, Flush, s.now, ids), requests, paused, s.now, drawn)))
  {
    hide Core, PostAll, Settlement, Freeze, Tame, TameTail, Reservations;
    var progress := Settlement(s.disk, Readied(s, Flush).meter, Flush, s.now, ids);
    var all := Reservations(s.disk, progress, requests, paused, s.now, drawn);
    ReservationsAreTame(s.disk, progress, requests, paused, s.now, drawn);
    assert all == progress + all[|progress|..];
    BatchIsTame(terms, s, Flush, ids, all[|progress|..], paused);
  }

  // ----- Rebalancing -----

  function PoolSize(credits: map<Id, Live>, order: seq<Id>, rule: Id, up: bool): int {
    if order == [] then 0
    else
      var id := order[|order| - 1];
      PoolSize(credits, order[..|order| - 1], rule, up)
      + (if id in credits && credits[id].window.rule == rule && credits[id].window.upload == up then 1 else 0)
  }

  /** Unspent bytes of the windows of one rule and direction that are not frozen. */
  function PoolSpare(credits: map<Id, Live>, order: seq<Id>, rule: Id, up: bool): int {
    if order == [] then 0
    else
      var id := order[|order| - 1];
      PoolSpare(credits, order[..|order| - 1], rule, up)
      + (if id in credits && credits[id].window.rule == rule && credits[id].window.upload == up && !credits[id].closed
         then credits[id].window.capacity - credits[id].used else 0)
  }

  /** Whether the missing directional window can be filled without taking the other direction's credit. */
  ghost predicate Roomy(disk: Disk, size: int, r: Request, now: int) {
    && size < 2
    && r.n <= (if r.rule.tcp then TCP_RULE_CREDITS else RULE_CREDITS) - Held(disk.windows, OfRule(r.rule.id))
    && r.n <= ACCOUNT_CREDITS - Held(disk.windows, OfOwner(r.rule.Owner()))
    && exists l :: l in r.rule.Leases() && Available(disk, Some(l), r.until, r.n, now).None?
  }

  /** Whether a request first takes back all of its rule's unspent credit. */
  ghost predicate Unbalanced(disk: Disk, credits: map<Id, Live>, order: seq<Id>, r: Request, now: int) {
    var size, other := PoolSize(credits, order, r.rule.id, r.upload), PoolSize(credits, order, r.rule.id, !r.upload);
    var spare, across := PoolSpare(credits, order, r.rule.id, r.upload), PoolSpare(credits, order, r.rule.id, !r.upload);
    && r.n > 0 && (size > 0 || other > 0) && spare < r.n && spare + across != 0
    && !Roomy(disk, size, r, now)
  }

  /** The state that the plan is made against. */
  ghost function Rebalanced(s: System, order: seq<Id>, r: Request): System
    requires Watched(s.disk, Readied(s, Rebalance(r.rule.id)).meter, order)
  {
    if Unbalanced(s.disk, s.meter, order, r, s.now) then SettledBy(s, Rebalance(r.rule.id), order) else s
  }

  /** A request's turn to rebalance, with the order of the windows that stay. */
  ghost function RebalanceOne(s: System, order: seq<Id>, r: Request): (System, seq<Id>) {
    if Watched(s.disk, Readied(s, Rebalance(r.rule.id)).meter, order) && Unbalanced(s.disk, s.meter, order, r, s.now)
    then (SettledBy(s, Rebalance(r.rule.id), order),
          OrderAll(order, Settlement(s.disk, Readied(s, Rebalance(r.rule.id)).meter, Rebalance(r.rule.id), s.now, order)))
    else (s, order)
  }

  /** Every request of a batch has its turn before the plan is made. */
  ghost function RebalanceEach(s: System, order: seq<Id>, requests: seq<Request>): (System, seq<Id>) {
    if requests == [] then (s, order)
    else
      var (t, ids) := RebalanceEach(s, order, requests[..|requests| - 1]);
      RebalanceOne(t, ids, requests[|requests| - 1])
  }

  lemma RebalanceSingle(s: System, order: seq<Id>, r: Request)
    ensures RebalanceEach(s, order, [r]) == RebalanceOne(s, order, r)
  {
    hide RebalanceOne;
    assert [r][..0] == [];
    assert RebalanceEach(s, order, []) == (s, order);
  }

  lemma RebalancingKeepsUnused(terms: Terms, s: System, order: seq<Id>, r: Request, drawn: seq<Id>)
    requires Core(terms, s) && Lists(s.disk.windows, order) && Watched(s.disk, Readied(s, Rebalance(r.rule.id)).meter, order)
    requires Unused(s, [], drawn)
    ensures Unused(Rebalanced(s, order, r), [], drawn)
  {
    hide Core, SettledBy, Unbalanced, Unused, Freeze;
    SettlingKeepsUnused(terms, s, Rebalance(r.rule.id), order, drawn);
  }

  method AnyAvailable(disk: Disk, leases: seq<Lease>, until: int, n: int, now: int) returns (found: bool)
    ensures found == exists l :: l in leases && Available(disk, Some(l), until, n, now).None?
  {
    hide Available;
    var i := 0;
    while i < |leases|
      invariant 0 <= i <= |leases|
      invariant forall j :: 0 <= j < i ==> Available(disk, Some(leases[j]), until, n, now).Some?
    {
      var refusal := CheckAvailable(disk, Some(leases[i]), until, n, now);
      if refusal.None? {
        assert leases[i] in leases;
        return true;
      }
      i := i + 1;
    }
    found := false;
  }

  method CheckRoomy(disk: Disk, size: int, r: Request, now: int) returns (roomy: bool)
    ensures roomy == Roomy(disk, size, r, now)
  {
    hide Available, Held;
    if size >= 2 { return false; }
    var t := TallyWindows(disk.windows, r.rule.id, r.rule.Owner(), r.upload, r.rule.id);
    var limit := if r.rule.tcp then TCP_RULE_CREDITS else RULE_CREDITS;
    if r.n > limit - t.rule || r.n > ACCOUNT_CREDITS - t.owner { return false; }
    roomy := AnyAvailable(disk, r.rule.Leases(), r.until, r.n, now);
  }

  // ----- Recovery -----

  lemma OneRecovery(terms: Terms, s: System, ids: seq<Id>)
    requires Core(terms, s) && !s.running && s.inflight == [] && Lists(s.disk.windows, ids) && ids != []
    ensures ids[0] in s.disk.windows && s.disk.windows[ids[0]].lease in s.disk.leases
    ensures var e := RecoveryEvent(s.disk, s.disk.windows[ids[0]], s.now);
            var t := Post(s, e);
            && Valid(s.disk, e) && Core(terms, t) && !t.running && t.inflight == [] && t.now == s.now
            && Lists(t.disk.windows, ids[1..]) && Reaches(terms, s, t)
            && Recovered(s, ids) == Recovered(t, ids[1..])
  {
    hide Core, Lists, Post, Reaches, Valid, RecoveryEvent;
    var id := ids[0];
    FirstListed(s.disk.windows, ids);
    OpenWindow(terms, s, id);
    RecoveryIsReady(terms, s, id);
    RecoveryMoves(s, id, id);
    var e := RecoveryEvent(s.disk, s.disk.windows[id], s.now);
    PostKeepsCore(terms, s, e);
    ListsTail(s.disk.windows, ids);
    ReadyIsStaged(terms, s, e);
    BatchReaches(terms, s, s, [e]);
    PostAllKeepsBatch(s, [e]);
  }

  lemma ReadyIsStaged(terms: Terms, s: System, e: Event)
    requires s.inflight == [] && Ready(terms, s, e)
    ensures Stages(terms, s, s.(inflight := [e])) && PostAll(s, [e]) == Post(s, e)
  {
    hide Ready, Post;
    assert [e][1..] == [];
    assert Staged(terms, Post(s, e), []);
    assert Staged(terms, s, [e]);
    StagedIgnoresBatch(terms, s, [e], [e]);
  }

  /**
   * The restart after a crash: no live credit survived, so every open window is billed in full and closed, one
   * logged event at a time. `s` is the crashed system; its true meter is not read.
   */
  method RecoverCredits(d: Disk, ids: seq<Id>, now: int, ghost terms: Terms, ghost s: System)
    returns (ok: bool, after: Disk, ghost t: System)
    requires Core(terms, s) && !s.running && s.inflight == [] && s.disk == d && s.now == now && Lists(d.windows, ids)
    ensures ok && t == Recovered(s, ids) && after == t.disk && Core(terms, t) && Reaches(terms, s, t)
    ensures after.windows == map[] && forall l :: after.Used(l) == d.Used(l) + d.Liability(l)
  {
    ok, after, t := true, d, s;
    forall l ensures Recovered(s, ids).disk.Used(l) == d.Used(l) + d.Liability(l) && Recovered(s, ids).disk.windows == map[] {
      RecoverySettles(terms, s, ids, l);
    }
    RecoverySettles(terms, s, ids, d.node);
    ReachesSelf(terms, s);
    hide Core, Lists, Post, Reaches, Valid, RecoveryEvent, Recovered;
    var i := 0;
    while ok && i < |ids|
      invariant 0 <= i <= |ids| && ok && after == t.disk && Core(terms, t) && Reaches(terms, s, t)
      invariant !t.running && t.inflight == [] && t.now == now && Lists(t.disk.windows, ids[i..])
      invariant Recovered(s, ids) == Recovered(t, ids[i..])
    {
      OneRecovery(terms, t, ids[i..]);
      assert ids[i..][1..] == ids[i + 1..];
      var e := RecoveryEvent(after, after.windows[ids[i]], now);
      ok := ValidateEvent(after, e);
      if ok {
        after := ApplyTo(after, e);
      }
      ReachesTrans(terms, s, t, Post(t, e));
      PostDisk(t, e);
      t := Post(t, e);
      i := i + 1;
    }
    NothingRecovered(t);
  }

  lemma NoMeterWithoutWindows(terms: Terms, s: System)
    requires Core(terms, s) && s.disk.windows == map[]
    ensures s.meter == map[]
  {
    hide Inv, IssuedOk, HistoryOk, BilledOk, ForgottenOk, AdmittedOk;
  }

  lemma PostDisk(s: System, e: Event)
    ensures Post(s, e).disk == Apply(s.disk, e)
  {
  }

  lemma NothingRecovered(s: System)
    ensures Recovered(s, []) == s
  {
  }

  // ----- What is asked of the writer -----

  datatype Job =
    | Credit(requests: seq<Request>, drawn: seq<Id>)
    | FlushAll
    | Shut
    | Configure(config: Config)
    | Halt(lease: Id)
    | Drop(ids: set<UsageId>)
    | Done(retired: Id)

  /** What the panel and the generator of identifiers owe. */
  ghost predicate Proper(terms: Terms, s: System, job: Job, due: bool) {
    match job
    case Credit(requests, drawn) => |requests| <= |drawn| && Unused(s, [], drawn) && HonestRequests(terms, requests)
    case Configure(c) => ConfigOk(terms, c) && Familiar(if due then Prune(s.disk, s.now).leases else s.disk.leases, c)
    case _ => true
  }

  /** The directions that the requests were for may ask again. */
  ghost predicate Cleared(busy: set<(Id, bool)>, after: set<(Id, bool)>, requests: seq<Request>) {
    forall k :: k in after <==> k in busy && forall r :: r in requests ==> k != (r.rule.id, r.upload)
  }

  /** What a job does and answers, from the state `s` in which its turn began. */
  ghost predicate Outcome(job: Job, ok: bool, s: System, order: seq<Id>, u: System, paused: bool) {
    match job
    case Credit(requests, drawn) =>
      && ok && |requests| <= |drawn|
      && var (plan, ids) := RebalanceEach(s, order, requests);
         && Watched(plan.disk, Readied(plan, Flush).meter, ids)
         && u == PostAll(Readied(plan, Flush),
                         Reservations(plan.disk, Settlement(plan.disk, Readied(plan, Flush).meter, Flush, s.now, ids), requests, paused, s.now, drawn))
    case FlushAll => ok && Flushed(s, u, Flush)
    case Shut => ok && Flushed(s, u, CloseAll) && u.disk.windows == map[]
    case Configure(c) => ok == ValidConfig(s.disk, c) && if ok then Adopted(s, u, c) else u == s
    case Halt(l) => ok == (l in s.disk.leases) && if ok then Halted(s, u, l) else u == s
    case Drop(ids) => ok && Dropped(s, u, ids)
    case Done(l) => ok == (l in s.disk.retired && forall x :: x in s.disk.pending ==> x.lease != l) && if ok then Confirmed(s, u, l) else u == s
  }

  lemma ShutClosesAll(s: System, u: System)
    requires Flushed(s, u, CloseAll)
    ensures u.disk.windows == map[]
  {
    hide Accounted, Records;
  }

  lemma UnusedStays(s: System, t: System, job: Job)
    requires s.issued == t.issued
    ensures job.Credit? && Unused(s, [], job.drawn) ==> Unused(t, [], job.drawn)
  {
  }

  lemma WaitingReaches(terms: Terms, s: System, t: System)
    requires s.now <= t.now && t == s.(now := t.now)
    ensures Reaches(terms, s, t)
  {
    hide Reaches, Stages, AppliesOne, Crashes, Restarts, Forgets, CanSpend;
    ReachesSelf(terms, s);
    ReachesNext(terms, s, s, t);
  }

  lemma ForgettingReaches(terms: Terms, s: System, t: System)
    requires Forgets(s, t)
    ensures Reaches(terms, s, t)
  {
    hide Reaches, Forgets;
    ReachesSelf(terms, s);
    ReachesNext(terms, s, s, t);
  }

  // ----- The store -----

  lemma EligibleAreOpen(terms: Terms, s: System, order: seq<Id>, r: Rule, up: bool)
    requires Core(terms, s) && Lists(s.disk.windows, order)
    ensures var ids := Eligible(s.meter, order, r, up, s.now); Distinct(ids) && AllOpen(s.meter, ids, s.now)
  {
    hide Core, Eligible;
    var ids := Eligible(s.meter, order, r, up, s.now);
    EligibleAreSpendable(s.meter, order, r, up, s.now);
    forall id | id in ids ensures SpareOf(s.meter, id) >= 0 { OpenWindow(terms, s, id); }
  }

  lemma ListedMeter(terms: Terms, s: System, order: seq<Id>)
    requires Core(terms, s) && Lists(s.disk.windows, order)
    ensures Distinct(order) && (forall id :: id in order <==> id in s.meter) && s.meter.Keys == s.disk.windows.Keys
    ensures forall id :: id in s.meter ==> s.meter[id].window == s.disk.windows[id]
  {
    hide Core;
    KeysAgree(terms, s);
    forall id | id in s.meter ensures s.meter[id].window == s.disk.windows[id] { OpenWindow(terms, s, id); }
  }

  /**
   * What an admitted charge does: it takes exactly its bytes from the rule's own open windows in its direction, older
   * windows before newer ones, marks them as used now, and leaves every other window as it was.
   */
  ghost predicate Spends(before: map<Id, Live>, after: map<Id, Live>, r: Rule, up: bool, n: int, now: int) {
    && after.Keys == before.Keys && Purse(after, r, up, now) == Purse(before, r, up, now) - n
    && (forall id :: id in before ==>
          && before[id].used <= after[id].used
          && after[id] == before[id].(used := after[id].used, last := if after[id].used == before[id].used then before[id].last else now))
    && (forall id :: id in before && after[id] != before[id] ==> PurseHolds(before[id], r, up, now) && after[id].used <= before[id].window.capacity)
    && (forall x, y :: (x in before && y in before && PurseHolds(before[x], r, up, now) && after[y] != before[y]
                        && before[x].window.startedAt < before[y].window.startedAt) ==> after[x].used == after[x].window.capacity)
  }

  lemma NoDebits(s: System)
    ensures CanSpendAll(s, []) && SpendAll(s, []) == s
  {
  }

  /** Windows are asked for between the smallest and the largest size. */
  ghost predicate AimsOk(aims: map<(Id, bool), Aimed>) {
    forall k :: k in aims ==> WINDOW_SIZE <= aims[k].size <= TCP_WINDOW
  }

  /**
   * When more is asked for: after a refusal, or when fewer than two windows hold something, if what is left is below the
   * aim and no request is under way. The aim is remembered when it was met by traffic.
   */
  ghost predicate Demands(aims: map<(Id, bool), Aimed>, busy: set<(Id, bool)>, after: map<(Id, bool), Aimed>, busier: set<(Id, bool)>,
                          credits: map<Id, Live>, order: seq<Id>, r: Rule, until: int, up: bool, n: int, now: int, adaptive: bool,
                          result: ChargeResult, refill: Option<Request>, accepts: bool)
  {
    var k, ids := (r.id, up), Eligible(credits, order, r, up, now);
    var target := Aim(credits, ids, if k in aims then Some(aims[k]) else None, adaptive, now);
    if result != Admitted && result != CreditUnavailable then refill.None? && after == aims && busier == busy
    else
      && after == (if adaptive && result == Admitted && n > 0 then aims[k := Aimed(target, now)] else aims)
      && (refill.Some? <==> (result == CreditUnavailable || Unspent(credits, ids) < 2) && SpareIn(credits, ids) < target && k !in busy)
      && (refill.Some? ==> 0 <= n && refill.value == Request(r, until, up, n, false, target))
      && busier == (if refill.Some? && accepts then busy + {k} else busy)
  }

  lemma NothingDemanded(aims: map<(Id, bool), Aimed>, busy: set<(Id, bool)>, credits: map<Id, Live>, order: seq<Id>,
                        r: Rule, until: int, up: bool, n: int, now: int, adaptive: bool, accepts: bool)
    ensures forall v: ChargeResult :: v != Admitted && v != CreditUnavailable ==>
              Demands(aims, busy, aims, busy, credits, order, r, until, up, n, now, adaptive, v, None, accepts)
  {
  }

  lemma SameEligible(before: map<Id, Live>, after: map<Id, Live>, order: seq<Id>, r: Rule, up: bool, n: int, now: int)
    requires Spends(before, after, r, up, n, now)
    ensures Eligible(after, order, r, up, now) == Eligible(before, order, r, up, now)
  {
    hide PurseHolds, Purse;
    forall id | id in before ensures before[id].window == after[id].window && before[id].closed == after[id].closed { }
    EligibleSame(before, after, order, r, up, now);
  }

  lemma AimIsBounded(terms: Terms, s: System, order: seq<Id>, r: Rule, up: bool, before: Option<Aimed>, adaptive: bool)
    requires Core(terms, s) && Lists(s.disk.windows, order) && (before.Some? ==> before.value.size <= TCP_WINDOW)
    ensures WINDOW_SIZE <= Aim(s.meter, Eligible(s.meter, order, r, up, s.now), before, adaptive, s.now) <= TCP_WINDOW
  {
    hide Core, Eligible, Aim, PurseHolds;
    forall id | id in order && id in s.meter ensures s.meter[id].window.capacity <= TCP_WINDOW { OpenWindow(terms, s, id); }
    AimMeans(s.meter, order, r, up, before, adaptive, s.now, TCP_WINDOW);
    AimMeans(s.meter, order, r, up, before, adaptive, s.now, WINDOW_SIZE - 1);
  }

  /**
   * No charge of up to 256 KiB is refused in silence: the request for a window that covers it is under way afterwards, if
   * the writer's queue has room.
   */
  lemma RefusalIsHeard(aims: map<(Id, bool), Aimed>, busy: set<(Id, bool)>, after: map<(Id, bool), Aimed>, busier: set<(Id, bool)>,
                       credits: map<Id, Live>, order: seq<Id>, failed: bool, r: Rule, until: int, up: bool, n: int, now: int, adaptive: bool,
                       refill: Option<Request>)
    requires Verdict(credits, order, failed, r, until, up, n, now) == CreditUnavailable && n <= 262_144
    requires Demands(aims, busy, after, busier, credits, order, r, until, up, n, now, adaptive, CreditUnavailable, refill, true)
    ensures (r.id, up) in busier
    ensures (r.id, up) !in busy ==> refill.Some? && refill.value.rule == r && refill.value.upload == up && refill.value.n == n
  {
    var ids := Eligible(credits, order, r, up, now);
    AimMeans(credits, order, r, up, if (r.id, up) in aims then Some(aims[(r.id, up)]) else None, adaptive, now, 262_143);
    assert ids == [] ==> SpareIn(credits, ids) == 0;
    hide Eligible, Aim, SpareIn, Unspent;
  }

  lemma ChargeSpends(terms: Terms, s: System, after: map<Id, Live>, order: seq<Id>, r: Rule, up: bool, n: int)
    requires Core(terms, s) && Lists(s.disk.windows, order) && Aged(s.disk.windows, order)
    requires Drained(s.meter, after, Eligible(s.meter, order, r, up, s.now), n, s.now)
    ensures Spends(s.meter, after, r, up, n, s.now)
  {
    hide Core, Drained, Eligible, Purse, Lists, Aged, PurseHolds;
    ListedMeter(terms, s, order);
    DrainMeans(s.meter, after, order, r, up, n, s.now);
    forall x, y | x in s.meter && y in s.meter && PurseHolds(s.meter[x], r, up, s.now) && after[y] != s.meter[y]
        && s.meter[x].window.startedAt < s.meter[y].window.startedAt
      ensures after[x].used == after[x].window.capacity
    {
      EligibleMeans(s.meter, order, r, up, s.now, x);
      OldestServesFirst(s.meter, after, s.disk.windows, order, r, up, n, s.now, x, y);
    }
  }

  class Store {
    var disk: Disk
    var credits: map<Id, Live>
    /** Open windows in the order in which they were published. */
    var order: seq<Id>
    var paused: bool
    var failed: bool
    /** Per rule and direction: the window size that it is worth, and whether a request for more is under way. */
    var aims: map<(Id, bool), Aimed>
    var refilling: set<(Id, bool)>

    ghost const terms: Terms
    ghost var clock: int
    ghost var admitted: map<Id, int>
    ghost var issued: set<Id>
    ghost var history: map<UsageId, Usage>
    ghost var forgotten: set<Id>

    ghost function View(): System
      reads this
    {
      System(disk, credits, true, [], clock, admitted, issued, history, forgotten)
    }

    ghost predicate Consistent()
      reads this
    {
      && Core(terms, View()) && Lists(disk.windows, order) && Aged(disk.windows, order) && Tame(paused, View())
      && AimsOk(aims)
    }

    /** `pause` holds TCP growth back from the start on, while an upgrade is on trial. */
    constructor (node: Id, pause: bool, ghost terms: Terms, ghost now: int)
      ensures Consistent() && Init(View()) && disk.node == node && this.terms == terms && clock == now
      ensures order == [] && !failed && paused == pause
    {
      this.terms := terms;
      disk := Disk(node, Config(false, [], 0), map[], [], map[], map[], map[]);
      credits, order, paused, failed := map[], [], pause, false;
      aims, refilling := map[], {};
      clock, admitted, issued, history, forgotten := now, map[], {}, map[], {};
      new;
      InitIsSafe(terms, View());
      hide Core;
    }

    /** Open the store over a recovered state. */
    constructor Reopen(d: Disk, pause: bool, ghost terms: Terms, ghost s: System)
      requires Core(terms, s) && !s.running && s.inflight == [] && s.disk == d && d.windows == map[]
      ensures Consistent() && !failed && paused == pause && this.terms == terms && View() == s.(running := true) && Restarts(s, View())
    {
      this.terms := terms;
      disk, credits, order, paused, failed := d, map[], [], pause, false;
      aims, refilling := map[], {};
      clock, admitted, issued, history, forgotten := s.now, s.admitted, s.issued, s.history, s.forgotten;
      new;
      NoMeterWithoutWindows(terms, s);
      CoreIgnores(terms, s, View());
      hide Core;
    }

    /** Growth resumes once the upgrade is settled; nothing pauses it again before the next start. */
    method Resume()
      requires Consistent()
      modifies this`paused
      ensures Consistent() && !paused && View() == old(View())
    {
      hide Core, Lists;
      paused := false;
    }

    /** Time passes. */
    ghost method Tick(now: int)
      requires Consistent() && clock <= now
      modifies this`clock
      ensures Consistent() && View() == old(View()).(now := now) && Reaches(terms, old(View()), View())
    {
      hide Core, Reaches, Lists;
      TimeKeepsCore(terms, View(), now);
      WaitingReaches(terms, View(), View().(now := now));
      clock := now;
    }

    // ----- The fast path -----

    method FindEligible(r: Rule, up: bool, now: int) returns (ids: seq<Id>, remaining: int)
      ensures ids == Eligible(credits, order, r, up, now) && remaining == SpareIn(credits, ids)
    {
      ids, remaining := [], 0;
      var i := 0;
      while i < |order|
        invariant 0 <= i <= |order|
        invariant ids == Eligible(credits, order[..i], r, up, now)
        invariant remaining == SpareIn(credits, ids)
      {
        var id := order[i];
        assert order[..i + 1][..i] == order[..i];
        if id in credits && Spendable(credits[id], r, up, now) {
          assert (ids + [id])[..|ids|] == ids;
          ids, remaining := ids + [id], remaining + (credits[id].window.capacity - credits[id].used);
        }
        i := i + 1;
      }
      assert order[..i] == order;
    }

    method LargestOf(leases: seq<Lease>) returns (n: int)
      ensures n == LargestLease(leases)
    {
      n := 0;
      var i := 0;
      while i < |leases|
        invariant 0 <= i <= |leases| && n == LargestLease(leases[..i])
      {
        assert leases[..i + 1][..i] == leases[..i];
        n := Max(n, leases[i].bytes);
        i := i + 1;
      }
      assert leases[..i] == leases;
    }

    /** What the windows that serve a direction ask for. */
    method MeasureDemand(ids: seq<Id>, before: Option<Aimed>, adaptive: bool, now: int) returns (target: int, unspent: int)
      ensures target == Aim(credits, ids, before, adaptive, now) && unspent == Unspent(credits, ids)
    {
      target, unspent := WINDOW_SIZE, 0;
      if adaptive && before.Some? && now - before.value.last < IDLE_TIMEOUT {
        target := Max(target, before.value.size);
      }
      var i := 0;
      ghost var least := target;
      while i < |ids|
        invariant 0 <= i <= |ids| && unspent == Unspent(credits, ids[..i])
        invariant target == if adaptive then Largest(credits, ids[..i], least, now) else WINDOW_SIZE
      {
        assert ids[..i + 1][..i] == ids[..i];
        if ids[i] in credits {
          if adaptive {
            target := Max(target, Wanted(credits[ids[i]], now));
          }
          if credits[ids[i]].window.capacity - credits[ids[i]].used > 0 {
            unspent := unspent + 1;
          }
        }
        i := i + 1;
      }
      assert ids[..i] == ids;
    }

    /**
     * Spend `n` bytes from open windows without touching the durable state. Either all of them are served, oldest
     * window first, or nothing changes. When the direction runs low a request for a new window is put to the writer,
     * unless one is under way; `accepts` tells whether the writer's queue has room.
     */
    method TryCreditCharge(r: Rule, until: int, up: bool, n: int, now: int, accepts: bool)
      returns (result: ChargeResult, refill: Option<Request>, ghost debits: seq<Debit>)
      requires Consistent() && now == clock
      modifies this`credits, this`admitted, this`aims, this`refilling
      ensures Consistent()
      ensures result == Verdict(old(credits), order, failed, r, until, up, n, now)
      ensures CanSpendAll(old(View()), debits) && View() == SpendAll(old(View()), debits)
      ensures Reaches(terms, old(View()), View())
      ensures result == Admitted <==>
                && 0 <= n <= Purse(old(credits), r, up, now) && !failed && r.lease.Some? && !Oversized(r, n) && now < until
                && exists id :: id in old(credits) && PurseHolds(old(credits)[id], r, up, now)
      ensures if result == Admitted then Spends(old(credits), credits, r, up, n, now) else View() == old(View())
      ensures Demands(old(aims), old(refilling), aims, refilling, credits, order, r, until, up, n, now, !paused && r.tcp, result, refill, accepts)
    {
      debits, refill := [], None;
      hide Core, Reaches, Lists, Eligible, Drained, LargestLease, SpareIn, Tame, Aged, AimsOk, Purse, Spends, Oversized, CanSpendAll, SpendAll, PurseHolds, Demands;
      ReachesSelf(terms, View());
      NoDebits(View());
      ListedMeter(terms, View(), order);
      VerdictMeans(credits, order, failed, r, until, up, n, now);
      NothingDemanded(aims, refilling, credits, order, r, until, up, n, now, !paused && r.tcp, accepts);
      if n < 0 { return NegativeCharge, refill, debits; }
      if failed { return StorageFailed, refill, debits; }
      if r.lease.None? { return LeaseUnavailable, refill, debits; }
      if r.tcp {
        var largest := LargestOf(r.Leases());
        if n > largest { return TooLarge, refill, debits; }
      }
      if now >= until { return LeaseUnavailable, refill, debits; }
      result, refill, debits := ChargeWindows(r, until, up, n, now, accepts);
    }

    /** The part of a charge that looks at the windows. */
    method ChargeWindows(r: Rule, until: int, up: bool, n: int, now: int, accepts: bool)
      returns (result: ChargeResult, refill: Option<Request>, ghost debits: seq<Debit>)
      requires Consistent() && now == clock && 0 <= n
      modifies this`credits, this`admitted, this`aims, this`refilling
      ensures Consistent()
      ensures var ids := Eligible(old(credits), order, r, up, now);
              result == if ids != [] && n <= SpareIn(old(credits), ids) then Admitted else CreditUnavailable
      ensures CanSpendAll(old(View()), debits) && View() == SpendAll(old(View()), debits)
      ensures Reaches(terms, old(View()), View())
      ensures if result == Admitted then Spends(old(credits), credits, r, up, n, now) else View() == old(View())
      ensures Demands(old(aims), old(refilling), aims, refilling, credits, order, r, until, up, n, now, !paused && r.tcp, result, refill, accepts)
    {
      debits := [];
      hide Core, Reaches, Lists, Eligible, Drained, SpareIn, Tame, Aged, AimsOk, Spends, CanSpendAll, SpendAll, Demands;
      ReachesSelf(terms, View());
      NoDebits(View());
      var ids, remaining := FindEligible(r, up, now);
      if ids == [] || n > remaining {
        refill := SignalRefill(r, until, up, n, now, ids, false, accepts);
        return CreditUnavailable, refill, debits;
      }
      debits := Serve(r, up, ids, n, now);
      SpendAllKeepsCore(terms, old(View()), debits);
      SpendingReaches(terms, old(View()), debits);
      SpendingIsTame(old(View()), debits, paused);
      ChargeSpends(terms, old(View()), credits, order, r, up, n);
      SameEligible(old(credits), credits, order, r, up, n, now);
      refill := SignalRefill(r, until, up, n, now, ids, true, accepts);
      result := Admitted;
    }

    /** Remember the demand and ask the writer for more if the direction runs low. */
    method SignalRefill(r: Rule, until: int, up: bool, n: int, now: int, ids: seq<Id>, served: bool, accepts: bool) returns (refill: Option<Request>)
      requires Core(terms, View()) && Lists(disk.windows, order) && ids == Eligible(credits, order, r, up, now) && 0 <= n && now == clock
      requires AimsOk(aims)
      modifies this`aims, this`refilling
      ensures AimsOk(aims)
      ensures Demands(old(aims), old(refilling), aims, refilling, credits, order, r, until, up, n, now, !paused && r.tcp,
                      if served then Admitted else CreditUnavailable, refill, accepts)
    {
      hide Core, Lists, Eligible, Aim, Unspent, SpareIn;
      var k, adaptive := (r.id, up), !paused && r.tcp;
      var target, unspent := MeasureDemand(ids, if k in aims then Some(aims[k]) else None, adaptive, now);
      var remaining := SumSpare(ids);
      AimIsBounded(terms, View(), order, r, up, if k in aims then Some(aims[k]) else None, adaptive);
      refill := None;
      if adaptive && served && n > 0 {
        aims := aims[k := Aimed(target, now)];
      }
      if (!served || unspent < 2) && remaining < target && k !in refilling {
        refill := Some(Request(r, until, up, n, false, target));
        if accepts {
          refilling := refilling + {k};
        }
      }
    }

    method SumSpare(ids: seq<Id>) returns (n: int)
      ensures n == SpareIn(credits, ids)
    {
      n := 0;
      var i := 0;
      while i < |ids|
        invariant 0 <= i <= |ids| && n == SpareIn(credits, ids[..i])
      {
        assert ids[..i + 1][..i] == ids[..i];
        if ids[i] in credits {
          n := n + (credits[ids[i]].window.capacity - credits[ids[i]].used);
        }
        i := i + 1;
      }
      assert ids[..i] == ids;
    }

    method Serve(r: Rule, up: bool, ids: seq<Id>, n: int, now: int) returns (ghost debits: seq<Debit>)
      requires Consistent() && now == clock && 0 <= n <= SpareIn(credits, ids)
      requires ids == Eligible(credits, order, r, up, now)
      modifies this`credits, this`admitted
      ensures CanSpendAll(old(View()), debits) && View() == SpendAll(old(View()), debits)
      ensures Drained(old(credits), credits, ids, n, now)
    {
      debits := [];
      hide Core, Eligible, Drained, Serving, SpareIn, AllOpen, Distinct;
      assert CanSpendAll(View(), debits) && SpendAll(View(), debits) == View();
      EligibleAreOpen(terms, View(), order, r, up);
      DrainedNothing(credits, ids, now);
      hide *;
      var needed, i := n, 0;
      while i < |ids| && needed > 0
        invariant 0 <= i <= |ids| && 0 <= needed <= n
        invariant CanSpendAll(old(View()), debits) && View() == SpendAll(old(View()), debits)
        invariant Drained(old(credits), credits, ids, n - needed, now)
        invariant needed > 0 ==> Serving(old(credits), credits, ids, i)
      {
        var debit;
        debit, debits := ServeOne(ids, i, needed, now, old(credits), n - needed, debits, old(View()));
        needed := needed - debit;
        i := i + 1;
      }
      if needed > 0 {
        DrainedAll(old(credits), credits, ids, n - needed, now);
        assert false;
      }
    }

    /** Take what is needed, or what there is, from the next window. */
    method ServeOne(ids: seq<Id>, i: int, needed: int, now: int,
                    ghost before: map<Id, Live>, ghost served: int, ghost debits: seq<Debit>, ghost start: System)
      returns (debit: int, ghost more: seq<Debit>)
      requires 0 <= i < |ids| && 0 < needed && now == clock && Distinct(ids) && AllOpen(before, ids, now)
      requires Drained(before, credits, ids, served, now) && Serving(before, credits, ids, i)
      requires CanSpendAll(start, debits) && View() == SpendAll(start, debits)
      modifies this`credits, this`admitted
      ensures 0 <= debit <= needed && Drained(before, credits, ids, served + debit, now)
      ensures debit < needed ==> Serving(before, credits, ids, i + 1)
      ensures CanSpendAll(start, more) && View() == SpendAll(start, more)
    {
      hide Drained, CanSpendAll, SpendAll, SpareIn;
      assert ids[i] in ids && credits[ids[i]] == before[ids[i]];
      debit := Min(needed, credits[ids[i]].window.capacity - credits[ids[i]].used);
      more := debits;
      if debit > 0 {
        DrainStep(before, credits, ids, i, served, debit, now);
        more := Take(ids[i], debit, now, debits, start);
      }
    }

    /** One debit. */
    method Take(id: Id, n: int, now: int, ghost debits: seq<Debit>, ghost start: System) returns (ghost more: seq<Debit>)
      requires CanSpend(View(), id, n) && now == clock
      requires CanSpendAll(start, debits) && View() == SpendAll(start, debits)
      modifies this`credits, this`admitted
      ensures credits == old(credits)[id := old(credits)[id].(used := old(credits)[id].used + n, last := now)]
      ensures CanSpendAll(start, more) && View() == SpendAll(start, more)
    {
      SpendAllSnoc(start, debits, Debit(id, n));
      more := debits + [Debit(id, n)];
      admitted := Billed(admitted, credits[id].window.lease, n);
      credits := credits[id := credits[id].(used := credits[id].used + n, last := now)];
    }

    // ----- The writer -----

    /** Validate and apply one logged event. */
    method ApplyEvent(e: Event) returns (ok: bool)
      requires Lists(disk.windows, order)
      modifies this`disk, this`credits, this`order, this`admitted, this`issued, this`history
      ensures ok == Valid(old(disk), e)
      ensures View() == if ok then Post(old(View()), e) else old(View())
      ensures order == if ok then OrderAfter(old(order), e) else old(order)
      ensures Lists(disk.windows, order)
    {
      hide Valid;
      ok := ValidateEvent(disk, e);
      if !ok { return; }
      EventTarget(disk, e);
      OrderLists(disk.windows, order, e);
      hide Lists, Apply, HistoryAfter, AdmittedAfter;
      PostWindows(View(), e);
      admitted, history := AdmittedAfter(admitted, e), HistoryAfter(history, e);
      disk := ApplyTo(disk, e);
      match e
      case Reserve(w, _) =>
        credits := credits[w.id := Live(w, 0, w.startedAt, false)];
        order := order + [w.id];
        issued := issued + {w.id};
      case Progress(w, _) =>
        if w.closed {
          credits := credits - {w.id};
          order := RemoveFrom(order, w.id);
        } else if w.id in credits {
          credits := credits[w.id := credits[w.id].(window := w)];
        }
      case _ =>
    }

    /** Apply a logged batch in order; the store fails for good if the log holds an event that does not validate. */
    method Commit(events: seq<Event>)
      requires Lists(disk.windows, order) && !failed
      modifies this`disk, this`credits, this`order, this`admitted, this`issued, this`history, this`failed
      ensures !failed <==> AllValid(old(disk), events)
      ensures !failed ==> View() == PostAll(old(View()), events) && order == OrderAll(old(order), events)
      ensures Lists(disk.windows, order)
    {
      hide Lists, Valid, Apply, MeterAfter, HistoryAfter, AdmittedAfter, OrderAfter;
      var i := 0;
      while i < |events|
        invariant 0 <= i <= |events| && Lists(disk.windows, order) && !failed
        invariant AllValid(old(disk), events) <==> AllValid(disk, events[i..])
        invariant PostAll(View(), events[i..]) == PostAll(old(View()), events)
        invariant OrderAll(order, events[i..]) == OrderAll(old(order), events)
      {
        assert events[i..][1..] == events[i + 1..];
        var ok := ApplyEvent(events[i]);
        if !ok {
          failed := true;
          return;
        }
        i := i + 1;
      }
    }

    /**
     * Plan the progress of every window: freeze what the trigger closes and report what was spent since the last
     * report. The freeze is in place and at once; the events only take effect when they are logged.
     */
    method CreditProgress(trigger: Trigger, now: int) returns (events: seq<Event>)
      requires Consistent() && now == clock
      modifies this`credits
      ensures View() == Readied(old(View()), trigger)
      ensures Watched(disk, credits, order) && events == Settlement(disk, credits, trigger, now, order)
    {
      hide Core, Freeze, Closes, Settlement, ProgressEvents, Planning, Watched;
      AllAreWatched(terms, View(), order);
      FreezeIsFrozen(disk, credits, trigger, now, order);
      StartOfProgress(disk, credits, trigger, now, order);
      events := [];
      var room, i := MAX_PENDING - disk.Slots(), 0;
      while i < |order|
        invariant 0 <= i <= |order|
        invariant Planning(disk, old(credits), credits, trigger, now, order, i, room, events)
      {
        events, room := VisitWindow(trigger, now, i, room, events, old(credits));
        i := i + 1;
      }
      EndOfProgress(disk, old(credits), credits, trigger, now, order, room, events);
    }

    /** Freeze, report or skip the next window. */
    method VisitWindow(trigger: Trigger, now: int, i: int, room: int, events: seq<Event>, ghost before: map<Id, Live>)
      returns (more: seq<Event>, left: int)
      requires 0 <= i < |order| && Planning(disk, before, credits, trigger, now, order, i, room, events)
      modifies this`credits
      ensures Planning(disk, before, credits, trigger, now, order, i + 1, left, more)
    {
      hide Freeze, Closes, Settlement, ProgressEvents, SettleEvent, PartlyFrozen, Watched;
      ProgressStep(disk, before, trigger, now, order, i, room);
      FrozenOneMore(before, credits, Freeze(disk, before, trigger, now), order, i);
      more, left := events, room;
      var id := order[i];
      var w, c := disk.windows[id], credits[id];
      var close := Closes(disk, trigger, w, c, now);
      if !close && (c.used == w.confirmed || room <= 0) { return; }
      if close {
        credits := credits[id := c.(closed := true)];
      } else {
        left := room - 1;
      }
      more := events + [SettleEvent(disk, w, c, close)];
    }

    /** Settle for a trigger, append `tail`, log and apply the batch. */
    method RunBatch(trigger: Trigger, now: int, tail: seq<Event>)
      requires Consistent() && !failed && now == clock
      requires Watched(disk, Readied(View(), trigger).meter, order) && TameTail(paused, tail) && Dated(tail, now)
      requires Stages(terms, View(), Readied(View(), trigger).(
                 inflight := Settlement(disk, Readied(View(), trigger).meter, trigger, now, order) + tail))
      modifies this`disk, this`credits, this`order, this`admitted, this`issued, this`history, this`failed
      ensures Consistent() && !failed && Reaches(terms, old(View()), View())
      ensures View() == PostAll(old(Readied(View(), trigger)), old(Settlement(disk, Readied(View(), trigger).meter, trigger, now, order) + tail))
      ensures order == OrderAll(old(order), old(Settlement(disk, Readied(View(), trigger).meter, trigger, now, order) + tail))
    {
      hide Core, Stages, Settlement, Freeze, PostAll, Reaches, AllValid, Lists, Watched, Tame, TameTail, Aged, AimsOk;
      ghost var start := View();
      BatchIsTame(terms, start, trigger, order, tail, paused);
      SettlementIsCreditBatch(terms, start, trigger, order);
      var events := CreditProgress(trigger, now);
      BatchIsAged(terms, start, View(), events + tail, order);
      BatchIsRun(terms, start, View(), events + tail);
      Commit(events + tail);
    }

    /** Settle real consumption: report progress and close what the trigger closes. */
    method Settle(trigger: Trigger, now: int)
      requires Consistent() && !failed && now == clock
      modifies this`disk, this`credits, this`order, this`admitted, this`issued, this`history, this`failed
      ensures Consistent() && !failed && Reaches(terms, old(View()), View())
      ensures Watched(old(disk), Readied(old(View()), trigger).meter, old(order))
      ensures View() == SettledBy(old(View()), trigger, old(order)) && Flushed(old(View()), View(), trigger)
      ensures order == OrderAll(old(order), Settlement(old(disk), Readied(old(View()), trigger).meter, trigger, now, old(order)))
    {
      hide Core, Stages, Settlement, Freeze, PostAll, Reaches, Lists, Watched, Tame, Aged, AimsOk, Flushed;
      ReadiedKeepsCore(terms, View(), trigger, order);
      FlushIsStaged(terms, View(), trigger, order);
      FlushIsFlushed(terms, View(), trigger, order);
      RunBatch(trigger, now, []);
      assert old(Settlement(disk, Readied(View(), trigger).meter, trigger, now, order)) + []
          == old(Settlement(disk, Readied(View(), trigger).meter, trigger, now, order));
    }

    /** Adopt a configuration, closing first every window that it revokes. */
    method SetConfig(c: Config, now: int) returns (ok: bool)
      requires Consistent() && !failed && now == clock && ConfigOk(terms, c) && Familiar(disk.leases, c)
      modifies this`disk, this`credits, this`order, this`admitted, this`issued, this`history, this`failed
      ensures ok == ValidConfig(old(disk), c)
      ensures Consistent() && !failed && Reaches(terms, old(View()), View())
      ensures if ok then Adopted(old(View()), View(), c) && (forall id :: id in disk.windows ==> disk.windows[id].lease in Active(c))
              else View() == old(View())
    {
      hide Core, Stages, Settlement, Freeze, PostAll, Reaches, Lists, Watched, Tame, ConfigOk, ValidConfig, Active, Familiar, Aged, AimsOk, Adopted;
      ReachesSelf(terms, View());
      ok := ValidConfig(disk, c);
      if !ok { return; }
      ReadiedKeepsCore(terms, View(), Configuring(c), order);
      ConfigBatchIsStaged(terms, View(), order, c);
      ConfigOutcome(terms, View(), order, c);
      ConfigIsAdopted(terms, View(), order, c);
      RunBatch(Configuring(c), now, [AgentTypes.SetConfig(c)]);
    }

    /** Close and settle every window of a lease, then stop it for good. */
    method Retire(l: Id, now: int) returns (ok: bool)
      requires Consistent() && !failed && now == clock
      modifies this`disk, this`credits, this`order, this`admitted, this`issued, this`history, this`failed
      ensures ok == (l in old(disk).leases)
      ensures Consistent() && !failed && Reaches(terms, old(View()), View())
      ensures if ok then Halted(old(View()), View(), l) else View() == old(View())
    {
      hide Core, Stages, Settlement, Freeze, PostAll, Reaches, Lists, Watched, Tame, Aged, AimsOk, Halted;
      ReachesSelf(terms, View());
      ok := l in disk.leases;
      if !ok { return; }
      ReadiedKeepsCore(terms, View(), Retiring(l), order);
      RetireBatchIsStaged(terms, View(), order, l);
      HaltIsHalted(terms, View(), order, l);
      RunBatch(Retiring(l), now, [AgentTypes.Retire(l)]);
    }

    /** Log and apply one event that needs no planning. */
    method CommitOne(e: Event) returns (ok: bool)
      requires Consistent() && !failed && (e.Ack? || e.RetireAck?)
      modifies this`disk, this`credits, this`order, this`admitted, this`issued, this`history, this`failed
      ensures ok == Valid(old(disk), e)
      ensures Consistent() && !failed && Reaches(terms, old(View()), View())
      ensures View() == if ok then Post(old(View()), e) else old(View())
    {
      hide Core, PostAll, Reaches, Lists, Valid, Staged, AllValid, Post, Tame, Aged, AimsOk;
      ReachesSelf(terms, View());
      ok := ValidateEvent(disk, e);
      if !ok { return; }
      ghost var start := View();
      assert Ready(terms, start, e);
      ReadyIsStaged(terms, start, e);
      BatchIsRun(terms, start, start, [e]);
      TailKeepsTame(start, [e], paused);
      BatchIsAged(terms, start, start, [e], order);
      Commit([e]);
    }

    method Confirm(ids: set<UsageId>)
      requires Consistent() && !failed
      modifies this`disk, this`credits, this`order, this`admitted, this`issued, this`history, this`failed
      ensures Consistent() && !failed && Reaches(terms, old(View()), View())
      ensures Dropped(old(View()), View(), ids)
    {
      hide Core, Reaches, Lists, Dropped, Post;
      DropIsDropped(View(), ids);
      var ok := CommitOne(Ack(ids));
    }

    method ConfirmRetired(l: Id) returns (ok: bool)
      requires Consistent() && !failed
      modifies this`disk, this`credits, this`order, this`admitted, this`issued, this`history, this`failed
      ensures ok == (l in old(disk).retired && forall u :: u in old(disk).pending ==> u.lease != l)
      ensures Consistent() && !failed && Reaches(terms, old(View()), View())
      ensures if ok then Confirmed(old(View()), View(), l) else View() == old(View())
    {
      hide Core, Reaches, Lists;
      ok := CommitOne(RetireAck(l));
    }

    method MeasurePool(rule: Id, up: bool) returns (size: int, spare: int)
      ensures 0 <= size == PoolSize(credits, order, rule, up) && spare == PoolSpare(credits, order, rule, up)
    {
      size, spare := 0, 0;
      var i := 0;
      while i < |order|
        invariant 0 <= i <= |order| && 0 <= size
        invariant size == PoolSize(credits, order[..i], rule, up) && spare == PoolSpare(credits, order[..i], rule, up)
      {
        assert order[..i + 1][..i] == order[..i];
        var id := order[i];
        if id in credits && credits[id].window.rule == rule && credits[id].window.upload == up {
          size := size + 1;
          if !credits[id].closed {
            spare := spare + (credits[id].window.capacity - credits[id].used);
          }
        }
        i := i + 1;
      }
      assert order[..i] == order;
    }

    /** Take back a rule's unspent credit when a request cannot be met otherwise. */
    method RebalanceCredits(r: Request, now: int)
      requires Consistent() && !failed && now == clock
      modifies this`disk, this`credits, this`order, this`admitted, this`issued, this`history, this`failed
      ensures Consistent() && !failed && Reaches(terms, old(View()), View())
      ensures Watched(old(disk), Readied(old(View()), Rebalance(r.rule.id)).meter, old(order))
      ensures View() == Rebalanced(old(View()), old(order), r) && (View(), order) == RebalanceOne(old(View()), old(order), r)
    {
      hide Core, Reaches, Lists, Roomy, SettledBy, Watched, Freeze, Aged, AimsOk, Tame, Flushed, Settlement, OrderAll;
      ReachesSelf(terms, View());
      ReadiedKeepsCore(terms, View(), Rebalance(r.rule.id), order);
      if r.n <= 0 { return; }
      var size, spare := MeasurePool(r.rule.id, r.upload);
      var other, across := MeasurePool(r.rule.id, !r.upload);
      if (size == 0 && other == 0) || spare >= r.n || spare + across == 0 { return; }
      var roomy := CheckRoomy(disk, size, r, now);
      if roomy { return; }
      Settle(Rebalance(r.rule.id), now);
    }

    /** Plan the requests in order, each against what the earlier ones staged. */
    method PlanReservations(staged: seq<Event>, requests: seq<Request>, now: int, drawn: seq<Id>) returns (events: seq<Event>)
      requires Plausible(disk.windows, staged) && |requests| <= |drawn| && 0 < now
      ensures events == Reservations(disk, staged, requests, paused, now, drawn)
    {
      hide Decide, Plausible;
      events := staged;
      var i := 0;
      while i < |requests|
        invariant 0 <= i <= |requests| && Plausible(disk.windows, events)
        invariant Reservations(disk, staged, requests, paused, now, drawn)
               == Reservations(disk, events, requests[i..], paused, now, drawn[i..])
      {
        assert requests[i..][1..] == requests[i + 1..] && drawn[i..][1..] == drawn[i + 1..];
        var d := ReserveCredit(disk, events, requests[i], paused, now, drawn[i]);
        if d.Granted? {
          GrantIsPlausible(disk, events, requests[i], paused, now, drawn[i]);
          events := events + [d.event];
        }
        i := i + 1;
      }
    }

    /**
     * One pass of the writer over a batch of credit requests: rebalance, settle, reserve, log, apply. It never
     * fails, and `mid` is the state its plan was made against.
     */
    method ProcessCreditBatch(requests: seq<Request>, now: int, drawn: seq<Id>) returns (ghost mid: System, ghost ids: seq<Id>)
      requires Consistent() && !failed && now == clock && 0 < now
      requires |requests| <= |drawn| && Unused(View(), [], drawn) && HonestRequests(terms, requests)
      modifies this`disk, this`credits, this`order, this`admitted, this`issued, this`history, this`failed, this`refilling
      ensures Consistent() && !failed && Reaches(terms, old(View()), View()) && Reaches(terms, old(View()), mid)
      ensures Core(terms, mid) && Lists(mid.disk.windows, ids) && Watched(mid.disk, Readied(mid, Flush).meter, ids)
      ensures (mid, ids) == RebalanceEach(old(View()), old(order), requests)
      ensures |requests| == 1 ==>
                && Watched(old(disk), Readied(old(View()), Rebalance(requests[0].rule.id)).meter, old(order))
                && mid == Rebalanced(old(View()), old(order), requests[0])
      ensures View() == PostAll(Readied(mid, Flush),
                                Reservations(mid.disk, Settlement(mid.disk, Readied(mid, Flush).meter, Flush, now, ids),
                                             requests, paused, now, drawn))
      ensures Cleared(old(refilling), refilling, requests)
    {
      hide Core, Reaches, Lists, Unused, HonestRequests, Rebalanced, Freeze, Watched, Settlement, Reservations, PostAll, Stages, AllValid, Plausible, Tame, Aged, AimsOk, RebalanceOne, Cleared;
      var i := 0;
      ReachesSelf(terms, View());
      while i < |requests|
        invariant 0 <= i <= |requests| && Consistent() && !failed && now == clock
        invariant Unused(View(), [], drawn) && Reaches(terms, old(View()), View()) && refilling == old(refilling)
        invariant (View(), order) == RebalanceEach(old(View()), old(order), requests[..i])
        invariant i == 0 ==> View() == old(View()) && order == old(order)
        invariant i == 1 ==> Watched(old(disk), Readied(old(View()), Rebalance(requests[0].rule.id)).meter, old(order))
                             && View() == Rebalanced(old(View()), old(order), requests[0])
      {
        ghost var before, listed := View(), order;
        assert requests[..i + 1][..i] == requests[..i];
        RebalanceCredits(requests[i], now);
        ReachesTrans(terms, old(View()), before, View());
        RebalancingKeepsUnused(terms, before, listed, requests[i], drawn);
        i := i + 1;
      }
      mid, ids := View(), order;
      assert requests[..i] == requests;
      ReadiedKeepsCore(terms, mid, Flush, ids);
      var events := CreditProgress(Flush, now);
      SettlementIsPlausible(terms, mid, Flush, ids);
      PassIsTame(terms, mid, ids, requests, paused, drawn);
      SettlementIsCreditBatch(terms, mid, Flush, ids);
      ReservationsAreDated(disk, events, requests, paused, now, drawn);
      events := PlanReservations(events, requests, now, drawn);
      CreditBatchIsStaged(terms, mid, ids, requests, paused, drawn);
      BatchIsRun(terms, mid, View(), events);
      BatchIsAged(terms, mid, View(), events, order);
      Commit(events);
      ReachesTrans(terms, old(View()), mid, View());
      ClearRefilling(requests);
    }

    /** The requests have been dealt with; the next shortage may ask again. */
    method ClearRefilling(requests: seq<Request>)
      modifies this`refilling
      ensures Cleared(old(refilling), refilling, requests)
    {
      var i := 0;
      while i < |requests|
        invariant 0 <= i <= |requests|
        invariant forall k :: k in refilling <==> k in old(refilling) && forall j :: 0 <= j < i ==> k != (requests[j].rule.id, requests[j].upload)
      {
        refilling := refilling - {(requests[i].rule.id, requests[i].upload)};
        i := i + 1;
      }
    }

    /** Forget confirmed history; the next checkpoint makes it durable. */
    method Forget(now: int)
      requires Consistent() && !failed && now == clock
      modifies this`disk, this`forgotten
      ensures Consistent() && !failed && Reaches(terms, old(View()), View())
      ensures disk == Prune(old(disk), now) && forgotten == old(forgotten) + Prunable(old(disk), now)
      ensures Pruned(old(View()), View())
    {
      hide Core, Reaches, Prunable, Pruned;
      ghost var start := View();
      ForgetKeepsCore(terms, start);
      var n;
      forgotten := forgotten + Prunable(disk, now);
      disk, n := PruneLeaseHistory(disk, now);
      ForgettingReaches(terms, start, View());
      PruneIsPruned(start, View());
    }

    /**
     * The writer's turn: a store that has failed refuses everything, and one that has not never does fail. `begun` is the
     * state after the pruning that may be due; what the job does and answers is told from there.
     */
    method Process(job: Job, now: int, due: bool) returns (ok: bool, ghost begun: System)
      requires !failed ==> Consistent() && now == clock && 0 < now && Proper(terms, View(), job, due)
      modifies this`disk, this`credits, this`order, this`admitted, this`issued, this`history, this`forgotten, this`failed, this`refilling
      ensures old(failed) ==> !ok && failed && View() == old(View())
      ensures !old(failed) ==> Consistent() && !failed && Reaches(terms, old(View()), View())
      ensures !old(failed) ==> if due then Pruned(old(View()), begun) else begun == old(View())
      ensures !old(failed) ==> Outcome(job, ok, begun, old(order), View(), paused)
    {
      hide Core, Reaches, Lists, ConfigOk, Unused, HonestRequests, Prune, Prunable, Familiar, Tame, SettledBy, Watched, Rebalanced, ValidConfig,
        Aged, AimsOk, Flushed, Adopted, Halted, Dropped, Confirmed, Pruned, Settlement, PostAll, Reservations, RebalanceEach, OrderAll;
      begun := View();
      if failed { return false, begun; }
      ghost var start := View();
      ReachesSelf(terms, start);
      if due {
        Forget(now);
        UnusedStays(start, View(), job);
      }
      begun := View();
      match job {
        case Credit(requests, drawn) =>
          ghost var plan, ids := ProcessCreditBatch(requests, now, drawn);
          ok := true;
        case FlushAll =>
          Settle(Flush, now);
          ok := true;
        case Shut =>
          Settle(CloseAll, now);
          ShutClosesAll(begun, View());
          ok := true;
        case Configure(c) => ok := SetConfig(c, now);
        case Halt(l) => ok := Retire(l, now);
        case Drop(ids) =>
          Confirm(ids);
          ok := true;
        case Done(l) => ok := ConfirmRetired(l);
      }
      ReachesTrans(terms, start, begun, View());
    }
  }
}
