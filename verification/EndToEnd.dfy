/**
 * Many Agents and one panel over a network that may lose, delay, reorder and repeat messages. Messages are only
 * ever added to `net`; any of them may be delivered at any time, any number of times, or never.
 */
module EndToEnd {
  import opened AgentTypes
  import opened AgentState
  import opened AgentSystem
  import opened AgentRuns
  import opened AgentRecovery
  import opened Sums
  import opened Rates
  import opened PanelBooks
  import opened PanelOps
  import opened PanelSettlement

  datatype Message =
    | Reported(node: Id, records: seq<Usage>)
    | Acknowledged(node: Id, ids: set<UsageId>)
    | Retirement(node: Id, lease: Id, used: int)
    | Released(node: Id, lease: Id)

  datatype World = World(nodes: map<Id, System>, books: Books, net: set<Message>)

  // ----- Steps -----

  predicate GrantedTo(rows: map<Id, Row>, n: Id, l: Id) {
    l in rows && rows[l].node == n
  }

  predicate GrantedFor(rows: map<Id, Row>, n: Id, r: Id, l: Id) {
    GrantedTo(rows, n, l) && rows[l].rule == r
  }

  ghost predicate Acked(net: set<Message>, n: Id, k: UsageId) {
    exists ids :: Acknowledged(n, ids) in net && k in ids
  }

  /** An Agent only spends leases that were granted to it, each for its own rule, and only drops what the panel confirmed. */
  ghost predicate Authorised(rows: map<Id, Row>, net: set<Message>, n: Id, e: Event) {
    match e
    case Reserve(v, l) => GrantedFor(rows, n, v.rule, l.id)
    case Progress(_, _) => true
    case SetConfig(c) => forall l :: l in LeasesOf(c.rules) ==> GrantedTo(rows, n, l.id)
    case Charge(u, _) => GrantedFor(rows, n, u.rule, u.lease)
    case Ack(ids) => forall k :: k in ids ==> Acked(net, n, k)
    case Retire(_) => true
    case RetireAck(l) => Released(n, l) in net
  }

  ghost predicate AllAuthorised(rows: map<Id, Row>, net: set<Message>, n: Id, events: seq<Event>) {
    forall e :: e in events ==> Authorised(rows, net, n, e)
  }

  ghost predicate AgentMoves(terms: Terms, w: World, x: World, n: Id) {
    && n in w.nodes && n in x.nodes && x == w.(nodes := w.nodes[n := x.nodes[n]])
    && Next(terms, w.nodes[n], x.nodes[n])
    && (w.nodes[n].inflight == [] ==> AllAuthorised(w.books.rows, w.net, n, x.nodes[n].inflight))
  }

  ghost predicate AgentJoins(w: World, x: World, n: Id) {
    n !in w.nodes && n in x.nodes && Init(x.nodes[n]) && x.nodes[n].disk.node == n && x == w.(nodes := w.nodes[n := x.nodes[n]])
  }

  /** Any part of the pending records is sent. */
  ghost predicate SendsUsage(w: World, x: World, n: Id, records: seq<Usage>) {
    && n in w.nodes && (forall u :: u in records ==> u in w.nodes[n].disk.pending)
    && x == w.(net := w.net + {Reported(n, records)})
  }

  function IdsOf(records: seq<Usage>): set<UsageId> {
    set u | u in records :: u.id
  }

  ghost predicate PanelSettles(w: World, x: World, n: Id, records: seq<Usage>) {
    && Reported(n, records) in w.net && SettleAll(w.books, records).Some?
    && x == w.(books := SettleAll(w.books, records).value, net := w.net + {Acknowledged(n, IdsOf(records))})
  }

  /** A stopped lease is reported with its total, even if some of its records are still on their way. */
  ghost predicate SendsRetirement(w: World, x: World, n: Id, l: Id) {
    && n in w.nodes && l in w.nodes[n].disk.retired
    && x == w.(net := w.net + {Retirement(n, l, w.nodes[n].disk.Used(l))})
  }

  ghost predicate PanelRetires(w: World, x: World, n: Id, l: Id, used: int) {
    && Retirement(n, l, used) in w.net && RetireLease(w.books, n, l, used).Some?
    && x == w.(books := RetireLease(w.books, n, l, used).value, net := w.net + {Released(n, l)})
  }

  /** Lease identifiers are drawn fresh, and `terms` records what each of them will ever name. */
  ghost predicate PanelGrants(terms: Terms, w: World, x: World, e: Id, a: Ask, now: int, l: Id) {
    && e in w.books.ents && l !in w.books.rows && a.node in w.nodes
    && Offer(w.books, e, a, now).Some?
    && var r := Offer(w.books, e, a, now).value;
       && terms(l) == Lease(l, e, r.bytes, r.expiresAt)
       && x == w.(books := Granted(w.books, l, r))
  }

  ghost predicate QuotaChanges(w: World, x: World) {
    || (exists e, q :: e in w.books.ents && 0 <= q && x == w.(books := Extended(w.books, e, q)))
    || (exists e, q :: e in w.books.ents && 0 <= q && Reduced(w.books, e, q).Some? && x == w.(books := Reduced(w.books, e, q).value))
    || (exists e, user, version, q, until :: e !in w.books.ents && 0 <= q
          && x == w.(books := Purchased(w.books, e, user, version, q, until)))
  }

  ghost predicate Steps(terms: Terms, w: World, x: World) {
    || (exists n :: AgentMoves(terms, w, x, n))
    || (exists n :: AgentJoins(w, x, n))
    || (exists n, records :: SendsUsage(w, x, n, records))
    || (exists n, records :: PanelSettles(w, x, n, records))
    || (exists n, l :: SendsRetirement(w, x, n, l))
    || (exists n, l, used :: PanelRetires(w, x, n, l, used))
    || (exists e, a, now, l :: PanelGrants(terms, w, x, e, a, now, l))
    || QuotaChanges(w, x)
  }

  ghost predicate Start(w: World) {
    w == World(map[], Books(map[], map[], map[]), {})
  }

  // ----- The invariant -----

  /** What one Agent's ledger has to do with the panel's tables. */
  ghost predicate Known(rows: map<Id, Row>, n: Id, s: System) {
    forall l :: l in s.disk.leases || l in s.forgotten ==> GrantedTo(rows, n, l)
  }

  /** No record is lost: it is still pending here or settled there. */
  ghost predicate Kept(usage: map<UsageId, Usage>, s: System) {
    forall k :: k in s.history ==> s.history[k] in s.disk.pending || (k in usage && usage[k] == s.history[k])
  }

  /** Records carry the name of the Agent that made them. */
  ghost predicate Signed(n: Id, s: System) {
    s.disk.node == n && forall k :: k in s.history ==> s.history[k].node == n
  }

  ghost predicate Finished(rows: map<Id, Row>, s: System) {
    && (forall l :: l in s.disk.retired && s.disk.retired[l] ==> l in rows && rows[l].closed)
    && (forall l :: l in s.forgotten ==> l in rows && rows[l].closed)
  }

  /** The record names a lease of this Agent as it was granted, and lies within its time. */
  ghost predicate Proper(terms: Terms, rows: map<Id, Row>, n: Id, u: Usage) {
    GrantedFor(rows, n, u.rule, u.lease) && WellFormed(u) && u.entitlement == terms(u.lease).entitlement && u.endedAt <= terms(u.lease).expiresAt
  }

  ghost predicate Filed(terms: Terms, rows: map<Id, Row>, n: Id, windows: map<Id, Window>, history: map<UsageId, Usage>) {
    && (forall id :: id in windows ==> GrantedFor(rows, n, windows[id].rule, windows[id].lease))
    && (forall k :: k in history ==> Proper(terms, rows, n, history[k]))
  }

  ghost predicate Local(terms: Terms, b: Books, n: Id, s: System) {
    && Signed(n, s) && Known(b.rows, n, s) && Kept(b.usage, s) && Finished(b.rows, s)
    && Filed(terms, b.rows, n, s.disk.windows, s.history)
  }

  ghost predicate Node(terms: Terms, b: Books, net: set<Message>, n: Id, s: System) {
    && Safe(terms, s) && Local(terms, b, n, s) && AllAuthorised(b.rows, net, n, s.inflight)
  }

  /** Settled records are the Agents' own. */
  ghost predicate Genuine(nodes: map<Id, System>, usage: map<UsageId, Usage>) {
    forall k :: k in usage ==> usage[k].node in nodes && k in nodes[usage[k].node].history
                               && nodes[usage[k].node].history[k] == usage[k]
  }

  ghost predicate RowsNamed(terms: Terms, nodes: map<Id, System>, rows: map<Id, Row>) {
    forall l :: l in rows ==> 0 < rows[l].bytes && terms(l) == Lease(l, rows[l].ent, rows[l].bytes, rows[l].expiresAt) && rows[l].node in nodes
  }

  /** A closed lease is stopped for good and every one of its bytes is settled. */
  ghost predicate ClosedIsFinal(nodes: map<Id, System>, rows: map<Id, Row>) {
    forall l :: l in rows && rows[l].closed ==>
      rows[l].node in nodes && Stopped(nodes[rows[l].node], l) && rows[l].used == Recorded(nodes[rows[l].node].history, l)
  }

  ghost predicate Truthful(nodes: map<Id, System>, b: Books, m: Message) {
    m.node in nodes &&
    match m
    case Reported(n, records) => forall u :: u in records ==> u.id in nodes[n].history && nodes[n].history[u.id] == u
    case Acknowledged(n, ids) => forall k :: k in ids ==> k in nodes[n].history && k in b.usage && b.usage[k] == nodes[n].history[k]
    case Retirement(n, l, used) => GrantedTo(b.rows, n, l) && Stopped(nodes[n], l)
                                   && (used == Recorded(nodes[n].history, l) || b.rows[l].closed)
    case Released(n, l) => GrantedTo(b.rows, n, l) && b.rows[l].closed
  }

  ghost predicate WorldInv(terms: Terms, w: World) {
    && (forall n :: n in w.nodes ==> Node(terms, w.books, w.net, n, w.nodes[n]))
    && Balanced(w.books)
    && Genuine(w.nodes, w.books.usage)
    && RowsNamed(terms, w.nodes, w.books.rows)
    && ClosedIsFinal(w.nodes, w.books.rows)
    && (forall m :: m in w.net ==> Truthful(w.nodes, w.books, m))
  }

  // ----- One Agent -----

  /** Records are never changed or forgotten by the ledger that made them. */
  ghost predicate Grows(s: System, t: System) {
    forall k :: k in s.history ==> k in t.history && t.history[k] == s.history[k]
  }

  /** What the panel's replies say is true. */
  ghost predicate Replies(b: Books, net: set<Message>, n: Id, s: System) {
    && (forall k :: Acked(net, n, k) ==> k in s.history && k in b.usage && b.usage[k] == s.history[k])
    && (forall l :: Released(n, l) in net ==> l in b.rows && b.rows[l].closed)
  }

  lemma PostGrows(terms: Terms, s: System, e: Event)
    requires Core(terms, s) && Ready(terms, s, e)
    ensures Grows(s, Post(s, e))
  {
    hide Inv, BilledOk, ForgottenOk, AdmittedOk, MeterOk;
    if e.Progress? && e.usage.Some? {
      ReportIsNew(s.disk.pending, s.disk.windows, s.history, s.issued, e.window);
    }
  }

  lemma PostKeepsSigned(terms: Terms, n: Id, s: System, e: Event)
    requires Signed(n, s) && Ready(terms, s, e)
    ensures Signed(n, Post(s, e))
  {
    hide LeaseCapacity, Held;
  }

  lemma ConfigLeases(terms: Terms, s: System, c: Config)
    requires Core(terms, s) && ConfigOk(terms, c)
    ensures Post(s, SetConfig(c)).disk.leases.Keys <= s.disk.leases.Keys + Ids(LeasesOf(c.rules))
  {
    hide MeterOk, IssuedOk, HistoryOk, BilledOk, ForgottenOk, AdmittedOk, PendingOk, BudgetsOk, Capped, LeasesOk, WindowsOk, LeasesOf,
      EnabledRules, FundedRules, Stop, Active;
    EnabledIsHonest(terms, c);
    Registered(s.disk.leases, LeasesOf(EnabledRules(c.rules)), terms);
    forall l | l in LeasesOf(EnabledRules(c.rules)) ensures l in LeasesOf(c.rules) { EnabledAreNamed(c.rules, l); }
  }

  lemma PostKeepsKnown(terms: Terms, rows: map<Id, Row>, net: set<Message>, n: Id, s: System, e: Event)
    requires Core(terms, s) && Ready(terms, s, e) && Known(rows, n, s) && Authorised(rows, net, n, e)
    ensures Known(rows, n, Post(s, e))
  {
    hide Core, ValidReserve, ValidProgress, ValidConfig, LeasesOf, EnabledRules, GrantedTo, Register, Acked, Active, NoWindowOn, Held;
    if e.SetConfig? {
      ConfigLeases(terms, s, e.config);
    }
  }

  lemma PostKeepsKept(b: Books, net: set<Message>, n: Id, s: System, e: Event)
    requires Kept(b.usage, s) && Replies(b, net, n, s) && Authorised(b.rows, net, n, e)
    requires forall k :: k in s.history ==> s.history[k].id == k
    ensures Kept(b.usage, Post(s, e))
  {
    hide Acked;
    if e.Ack? {
      AckKeepsMembers(s.disk.pending, e.ids);
    }
  }

  lemma PostKeepsFiled(terms: Terms, rows: map<Id, Row>, net: set<Message>, n: Id, s: System, e: Event)
    requires Core(terms, s) && Ready(terms, s, e) && Known(rows, n, s) && Authorised(rows, net, n, e)
    requires Filed(terms, rows, n, s.disk.windows, s.history)
    ensures Filed(terms, rows, n, Post(s, e).disk.windows, Post(s, e).history)
  {
    hide Core, ValidReserve, ValidProgress, ValidConfig, ValidCharge, Proper, Known, GrantedFor, Acked, LeasesOf, EnabledRules, Active, Register,
      NoWindowOn, Held;
    if e.Progress? {
      ProgressIsProper(terms, rows, n, s, e.window, e.usage);
    } else if e.Charge? {
      ChargeIsProper(terms, rows, n, s, e.charge, e.newLease);
    } else if e.Reserve? {
      ReserveNamesGrant(s.disk, e.window, e.grant);
    }
  }

  lemma ReserveNamesGrant(disk: Disk, v: Window, l: Lease)
    requires ValidReserve(disk, v, l)
    ensures v.lease == l.id
  {
    hide Held;
  }

  lemma ProgressIsProper(terms: Terms, rows: map<Id, Row>, n: Id, s: System, v: Window, u: Option<Usage>)
    requires Core(terms, s) && ValidProgress(s.disk, v, u) && Known(rows, n, s)
    requires Filed(terms, rows, n, s.disk.windows, s.history)
    ensures GrantedFor(rows, n, v.rule, v.lease) && (u.Some? ==> Proper(terms, rows, n, u.value))
  {
    hide MeterOk, IssuedOk, HistoryOk, BilledOk, ForgottenOk, AdmittedOk, PendingOk, BudgetsOk, Capped, ConfigOk, GrantedFor;
    assert v.id in s.disk.windows && WindowOk(s.disk.leases, s.disk.retired.Keys, v.id, s.disk.windows[v.id]);
  }

  lemma ChargeIsProper(terms: Terms, rows: map<Id, Row>, n: Id, s: System, u: Usage, l: Option<Lease>)
    requires Core(terms, s) && Ready(terms, s, Charge(u, l)) && GrantedFor(rows, n, u.rule, u.lease)
    ensures Proper(terms, rows, n, u)
  {
    hide MeterOk, IssuedOk, HistoryOk, BilledOk, ForgottenOk, AdmittedOk, PendingOk, BudgetsOk, Capped, ConfigOk, Held, GrantedFor, WindowsOk;
  }

  lemma PostKeepsFinished(b: Books, net: set<Message>, n: Id, s: System, e: Event)
    requires Finished(b.rows, s) && Replies(b, net, n, s) && Authorised(b.rows, net, n, e)
    ensures Finished(b.rows, Post(s, e))
  {
    hide Acked, LeasesOf, Active;
  }

  lemma HistoryIsKeyed(terms: Terms, s: System)
    requires Core(terms, s)
    ensures forall k :: k in s.history ==> s.history[k].id == k
  {
    hide Inv, BilledOk, ForgottenOk, AdmittedOk, MeterOk, IssuedOk;
  }

  lemma PostKeepsLocal(terms: Terms, b: Books, net: set<Message>, n: Id, s: System, e: Event)
    requires Core(terms, s) && Ready(terms, s, e) && Local(terms, b, n, s) && Replies(b, net, n, s) && Authorised(b.rows, net, n, e)
    ensures Local(terms, b, n, Post(s, e)) && Grows(s, Post(s, e)) && Replies(b, net, n, Post(s, e))
  {
    hide Core, Ready, Signed, Known, Kept, Finished, Filed, Authorised, Post, Acked;
    HistoryIsKeyed(terms, s);
    PostKeepsFiled(terms, b.rows, net, n, s, e);
    PostGrows(terms, s, e);
    PostKeepsSigned(terms, n, s, e);
    PostKeepsKnown(terms, b.rows, net, n, s, e);
    PostKeepsKept(b, net, n, s, e);
    PostKeepsFinished(b, net, n, s, e);
  }

  lemma {:induction false} PostAllKeepsLocal(terms: Terms, b: Books, net: set<Message>, n: Id, s: System, events: seq<Event>, k: int)
    requires Core(terms, s) && Staged(terms, s, events) && 0 <= k <= |events|
    requires Local(terms, b, n, s) && Replies(b, net, n, s) && AllAuthorised(b.rows, net, n, events)
    ensures Local(terms, b, n, PostAll(s, events[..k])) && Grows(s, PostAll(s, events[..k]))
    decreases |events|
  {
    hide Core, Ready, Local, Replies, Authorised, Post;
    if k > 0 {
      var e := events[0];
      assert e in events;
      PostKeepsCore(terms, s, e);
      PostKeepsLocal(terms, b, net, n, s, e);
      PostAllKeepsLocal(terms, b, net, n, Post(s, e), events[1..], k - 1);
      assert events[..k][1..] == events[1..][..k - 1];
    }
  }

  lemma ForgetKeepsLocal(terms: Terms, b: Books, n: Id, s: System, t: System)
    requires Local(terms, b, n, s) && Forgets(s, t)
    ensures Local(terms, b, n, t)
  {
    hide GrantedTo, NoWindowOn, Ids, LeasesOf;
  }

  lemma LocalIgnores(terms: Terms, b: Books, n: Id, s: System, t: System)
    requires Local(terms, b, n, s) && t.disk == s.disk && t.history == s.history && t.forgotten == s.forgotten
    ensures Local(terms, b, n, t) && Grows(s, t)
  {
    hide GrantedTo;
  }

  /** Every step of an Agent, including a crash, keeps its ledger in agreement with the panel. */
  lemma NextKeepsLocal(terms: Terms, b: Books, net: set<Message>, n: Id, s: System, t: System)
    requires Safe(terms, s) && Next(terms, s, t) && Local(terms, b, n, s) && Replies(b, net, n, s)
    requires AllAuthorised(b.rows, net, n, s.inflight)
    requires s.inflight == [] ==> AllAuthorised(b.rows, net, n, t.inflight)
    ensures Local(terms, b, n, t) && Grows(s, t) && AllAuthorised(b.rows, net, n, t.inflight)
  {
    hide Core, Ready, Local, Replies, Authorised, Post, PostAll, Froze, Prune, Prunable, Staged, Grows;
    if AppliesOne(s, t) {
      assert s.inflight[0] in s.inflight;
      StagedHead(terms, s);
      PostKeepsLocal(terms, b, net, n, s, s.inflight[0]);
      LocalIgnores(terms, b, n, Post(s, s.inflight[0]), t);
      GrowsOn(s, Post(s, s.inflight[0]), t);
    } else if Crashes(s, t) {
      var k :| 0 <= k <= |s.inflight| && t == PostAll(s, s.inflight[..k]).(inflight := [], running := false);
      PostAllKeepsLocal(terms, b, net, n, s, s.inflight, k);
      LocalIgnores(terms, b, n, PostAll(s, s.inflight[..k]), t);
      GrowsOn(s, PostAll(s, s.inflight[..k]), t);
    } else if Forgets(s, t) {
      ForgetKeepsLocal(terms, b, n, s, t);
      GrowsOn(s, s, t);
    } else {
      LocalIgnores(terms, b, n, s, t);
    }
  }

  lemma StagedHead(terms: Terms, s: System)
    requires Safe(terms, s) && s.inflight != []
    ensures Core(terms, s) && Ready(terms, s, s.inflight[0])
  {
    hide Core, Ready;
  }

  lemma GrowsOn(s: System, t: System, u: System)
    requires (s == t || Grows(s, t)) && u.history == t.history
    ensures Grows(s, u)
  {
  }

  // ----- The panel's side of a step -----

  /** The tables only ever gain rows and records; a row keeps its terms, and a closed row does not move. */
  ghost predicate BooksGrow(a: Books, b: Books) {
    && (forall l :: l in a.rows ==> l in b.rows && b.rows[l] == a.rows[l].(used := b.rows[l].used, closed := b.rows[l].closed)
                                    && (a.rows[l].closed ==> b.rows[l] == a.rows[l]))
    && (forall k :: k in a.usage ==> k in b.usage && b.usage[k] == a.usage[k])
  }

  lemma AuthorisedStays(rows: map<Id, Row>, more: map<Id, Row>, net: set<Message>, also: set<Message>, n: Id, e: Event)
    requires Authorised(rows, net, n, e) && net <= also
    requires forall l :: l in rows ==> l in more && more[l].node == rows[l].node && more[l].rule == rows[l].rule
    ensures Authorised(more, also, n, e)
  {
    if e.Ack? {
      forall k | k in e.ids ensures Acked(also, n, k) {
        var ids :| Acknowledged(n, ids) in net && k in ids;
        assert Acknowledged(n, ids) in also;
      }
    }
    hide LeasesOf;
  }

  lemma NodeStays(terms: Terms, a: Books, b: Books, net: set<Message>, also: set<Message>, n: Id, s: System)
    requires Node(terms, a, net, n, s) && BooksGrow(a, b) && net <= also
    ensures Node(terms, b, also, n, s)
  {
    hide Safe, Authorised;
    forall e | e in s.inflight ensures Authorised(b.rows, also, n, e) {
      AuthorisedStays(a.rows, b.rows, net, also, n, e);
    }
  }

  lemma TruthfulStays(nodes: map<Id, System>, a: Books, b: Books, m: Message)
    requires Truthful(nodes, a, m) && BooksGrow(a, b)
    ensures Truthful(nodes, b, m)
  {
    hide Recorded, Stopped;
  }

  /** A panel step keeps the invariant if the books grow, stay genuine, and its reply is true. */
  lemma PanelKeepsInv(terms: Terms, w: World, b: Books, reply: set<Message>)
    requires WorldInv(terms, w) && BooksGrow(w.books, b) && Balanced(b)
    requires Genuine(w.nodes, b.usage) && RowsNamed(terms, w.nodes, b.rows) && ClosedIsFinal(w.nodes, b.rows)
    requires forall m :: m in reply ==> Truthful(w.nodes, b, m)
    ensures WorldInv(terms, w.(books := b, net := w.net + reply))
  {
    hide Node, Balanced, Genuine, RowsNamed, ClosedIsFinal, Truthful, BooksGrow;
    forall n | n in w.nodes ensures Node(terms, b, w.net + reply, n, w.nodes[n]) {
      NodeStays(terms, w.books, b, w.net, w.net + reply, n, w.nodes[n]);
    }
    forall m | m in w.net + reply ensures Truthful(w.nodes, b, m) {
      if m in w.net {
        TruthfulStays(w.nodes, w.books, b, m);
      }
    }
  }

  // ----- Settling -----

  lemma {:induction false} SettlementGrows(b: Books, records: seq<Usage>)
    requires SettleAll(b, records).Some?
    ensures BooksGrow(b, SettleAll(b, records).value)
    ensures SettleAll(b, records).value.rows.Keys == b.rows.Keys
    ensures forall u :: u in records ==> u.id in SettleAll(b, records).value.usage && SettleAll(b, records).value.usage[u.id] == u
    ensures forall k :: k in SettleAll(b, records).value.usage ==>
              (k in b.usage && b.usage[k] == SettleAll(b, records).value.usage[k]) || SettleAll(b, records).value.usage[k] in records
    decreases |records|
  {
    hide Priced, Adjusted;
    if records != [] {
      var next := SettleOne(b, records[0]).value;
      SettlementGrows(next, records[1..]);
      assert forall u :: u in records <==> u == records[0] || u in records[1..];
    }
  }

  lemma {:induction false} SettlementKeepsClosed(b: Books, records: seq<Usage>, l: Id)
    requires SettleAll(b, records).Some? && l in b.rows
    ensures l in SettleAll(b, records).value.rows && SettleAll(b, records).value.rows[l].closed == b.rows[l].closed
    decreases |records|
  {
    hide Priced, Adjusted;
    if records != [] {
      SettlementKeepsClosed(SettleOne(b, records[0]).value, records[1..], l);
    }
  }

  lemma SettlementStaysGenuine(w: World, n: Id, records: seq<Usage>)
    requires SettleAll(w.books, records).Some? && Genuine(w.nodes, w.books.usage)
    requires forall k :: k in w.books.usage ==> w.books.usage[k].id == k
    requires n in w.nodes && Signed(n, w.nodes[n]) && Truthful(w.nodes, w.books, Reported(n, records))
    ensures Genuine(w.nodes, SettleAll(w.books, records).value.usage)
    ensures Truthful(w.nodes, SettleAll(w.books, records).value, Acknowledged(n, IdsOf(records)))
  {
    SettlementGrows(w.books, records);
    hide SettleAll, BooksGrow;
    var b := SettleAll(w.books, records).value;
    forall k | k in b.usage
      ensures b.usage[k].node in w.nodes && k in w.nodes[b.usage[k].node].history && w.nodes[b.usage[k].node].history[k] == b.usage[k]
    {
      if b.usage[k] in records {
        assert b.usage[k].id == k by { SettlementIsKeyed(w.books, records, k); }
      }
    }
  }

  lemma {:induction false} SettlementIsKeyed(b: Books, records: seq<Usage>, k: UsageId)
    requires SettleAll(b, records).Some? && k in SettleAll(b, records).value.usage
    requires forall j :: j in b.usage ==> b.usage[j].id == j
    ensures SettleAll(b, records).value.usage[k].id == k
    decreases |records|
  {
    hide Priced, Adjusted;
    if records != [] {
      SettlementIsKeyed(SettleOne(b, records[0]).value, records[1..], k);
    }
  }

  lemma SettlementKeepsRows(terms: Terms, w: World, records: seq<Usage>)
    requires SettleAll(w.books, records).Some? && RowsNamed(terms, w.nodes, w.books.rows) && ClosedIsFinal(w.nodes, w.books.rows)
    ensures RowsNamed(terms, w.nodes, SettleAll(w.books, records).value.rows)
    ensures ClosedIsFinal(w.nodes, SettleAll(w.books, records).value.rows)
  {
    SettlementGrows(w.books, records);
    forall l | l in w.books.rows ensures SettleAll(w.books, records).value.rows[l].closed == w.books.rows[l].closed {
      SettlementKeepsClosed(w.books, records, l);
    }
    hide SettleAll, Recorded, Stopped;
  }

  lemma ReporterIsSigned(terms: Terms, w: World, n: Id, records: seq<Usage>)
    requires WorldInv(terms, w) && Reported(n, records) in w.net
    ensures n in w.nodes && Signed(n, w.nodes[n]) && Truthful(w.nodes, w.books, Reported(n, records))
    ensures forall k :: k in w.books.usage ==> w.books.usage[k].id == k
  {
    hide Safe, Signed, Known, Kept, Finished, AllAuthorised, Genuine, RowsNamed, ClosedIsFinal, Conserved, RowsOk, WithinQuota, WithinOutstanding, Recorded;
    assert Truthful(w.nodes, w.books, Reported(n, records));
    assert Node(terms, w.books, w.net, n, w.nodes[n]);
  }

  lemma SettlesKeepsInv(terms: Terms, w: World, x: World, n: Id, records: seq<Usage>)
    requires WorldInv(terms, w) && PanelSettles(w, x, n, records)
    ensures WorldInv(terms, x)
  {
    hide Node, Balanced, Genuine, RowsNamed, ClosedIsFinal, SettleAll, Signed, Truthful, BooksGrow;
    var b := SettleAll(w.books, records).value;
    ReporterIsSigned(terms, w, n, records);
    SettleAllKeepsBalance(w.books, records);
    SettlementGrows(w.books, records);
    SettlementStaysGenuine(w, n, records);
    SettlementKeepsRows(terms, w, records);
    PanelKeepsInv(terms, w, b, {Acknowledged(n, IdsOf(records))});
  }

  // ----- Closing -----

  lemma RetirementGrows(b: Books, n: Id, l: Id, used: int)
    requires RetireLease(b, n, l, used).Some?
    ensures var c := RetireLease(b, n, l, used).value;
            && l in b.rows && BooksGrow(b, c) && c.usage == b.usage && c.rows.Keys == b.rows.Keys && l in c.rows && c.rows[l].closed
            && c.rows[l].used == used && c.rows[l].node == n && c.rows[l] == b.rows[l].(closed := true)
            && forall o :: o in b.rows && o != l ==> c.rows[o] == b.rows[o]
  {
    hide Priced, Adjusted;
  }

  lemma RetirementKeepsRows(terms: Terms, nodes: map<Id, System>, rows: map<Id, Row>, after: map<Id, Row>, l: Id)
    requires RowsNamed(terms, nodes, rows) && ClosedIsFinal(nodes, rows)
    requires after.Keys == rows.Keys && l in rows && after[l] == rows[l].(used := after[l].used, closed := after[l].closed)
    requires rows[l].node in nodes && Stopped(nodes[rows[l].node], l) && after[l].used == Recorded(nodes[rows[l].node].history, l)
    requires forall o :: o in rows && o != l ==> after[o] == rows[o]
    ensures RowsNamed(terms, nodes, after) && ClosedIsFinal(nodes, after)
  {
    hide Recorded, Stopped;
  }

  lemma RetiresKeepsInv(terms: Terms, w: World, x: World, n: Id, l: Id, used: int)
    requires WorldInv(terms, w) && PanelRetires(w, x, n, l, used)
    ensures WorldInv(terms, x)
  {
    hide Safe, Balanced, Node, RetireLease, Recorded, Stopped, Genuine, RowsNamed, ClosedIsFinal, BooksGrow;
    var b := RetireLease(w.books, n, l, used).value;
    RetirementIsFinal(terms, w, n, l, used);
    RetirementGrows(w.books, n, l, used);
    RetireKeepsBalance(w.books, n, l, used);
    RetirementKeepsRows(terms, w.nodes, w.books.rows, b.rows, l);
    PanelKeepsInv(terms, w, b, {Released(n, l)});
  }

  /** The panel accepts a retirement only when it has settled every byte of a lease that will never move again. */
  lemma RetirementIsFinal(terms: Terms, w: World, n: Id, l: Id, used: int)
    requires WorldInv(terms, w) && Retirement(n, l, used) in w.net && RetireLease(w.books, n, l, used).Some?
    ensures GrantedTo(w.books.rows, n, l) && n in w.nodes && Stopped(w.nodes[n], l)
    ensures w.books.rows[l].used == used == Recorded(w.nodes[n].history, l)
  {
    hide Safe, Balanced, Node, Recorded, Stopped, Genuine, RowsNamed, Priced, Adjusted;
    assert Truthful(w.nodes, w.books, Retirement(n, l, used));
  }

  // ----- Granting and quotas -----

  lemma GrantKeepsRowsNamed(terms: Terms, nodes: map<Id, System>, rows: map<Id, Row>, l: Id, r: Row)
    requires RowsNamed(terms, nodes, rows) && ClosedIsFinal(nodes, rows) && l !in rows
    requires 0 < r.bytes && terms(l) == Lease(l, r.ent, r.bytes, r.expiresAt) && r.node in nodes && !r.closed
    ensures RowsNamed(terms, nodes, rows[l := r]) && ClosedIsFinal(nodes, rows[l := r])
  {
    hide Recorded, Stopped;
  }

  lemma GrantGrows(b: Books, l: Id, r: Row)
    requires l !in b.rows && r.ent in b.ents
    ensures BooksGrow(b, Granted(b, l, r)) && Granted(b, l, r).usage == b.usage && Granted(b, l, r).rows == b.rows[l := r]
  {
    hide Adjusted;
  }

  lemma GrantsKeepsInv(terms: Terms, w: World, x: World, e: Id, a: Ask, now: int, l: Id)
    requires WorldInv(terms, w) && PanelGrants(terms, w, x, e, a, now, l)
    ensures WorldInv(terms, x)
  {
    hide Safe, Balanced, Node, Genuine, RowsNamed, ClosedIsFinal, BooksGrow, Truthful, Raw, Outstanding, Granted;
    var r := Offer(w.books, e, a, now).value;
    GrantKeepsBalance(w.books, e, a, now, l);
    GrantKeepsRowsNamed(terms, w.nodes, w.books.rows, l, r);
    GrantGrows(w.books, l, r);
    PanelKeepsInv(terms, w, Granted(w.books, l, r), {});
    assert w.net + {} == w.net;
  }

  lemma QuotaKeepsInv(terms: Terms, w: World, x: World)
    requires WorldInv(terms, w) && QuotaChanges(w, x)
    ensures WorldInv(terms, x)
  {
    hide Safe, Balanced, Node, Recorded, Stopped, Truthful, RowsNamed, ClosedIsFinal, Genuine;
    assert w.net + {} == w.net;
    if e, q :| e in w.books.ents && 0 <= q && x == w.(books := Extended(w.books, e, q)) {
      QuotaKeepsBalance(w.books, e, q);
      PanelKeepsInv(terms, w, x.books, {});
    } else if e, q :| e in w.books.ents && 0 <= q && Reduced(w.books, e, q).Some? && x == w.(books := Reduced(w.books, e, q).value) {
      QuotaKeepsBalance(w.books, e, q);
      PanelKeepsInv(terms, w, x.books, {});
    } else {
      var e, user, version, q, until :| e !in w.books.ents && 0 <= q
        && x == w.(books := Purchased(w.books, e, user, version, q, until));
      PurchaseKeepsBalance(w.books, e, user, version, q, until);
      PanelKeepsInv(terms, w, x.books, {});
    }
  }

  // ----- The Agents' side of a step -----

  lemma RepliesAreTrue(terms: Terms, w: World, n: Id)
    requires WorldInv(terms, w) && n in w.nodes
    ensures Replies(w.books, w.net, n, w.nodes[n])
  {
    hide Node, Balanced, Genuine, RowsNamed, ClosedIsFinal, Recorded, Stopped;
    forall k | Acked(w.net, n, k)
      ensures k in w.nodes[n].history && k in w.books.usage && w.books.usage[k] == w.nodes[n].history[k]
    {
      var ids :| Acknowledged(n, ids) in w.net && k in ids;
      assert Truthful(w.nodes, w.books, Acknowledged(n, ids));
    }
    forall l | Released(n, l) in w.net ensures l in w.books.rows && w.books.rows[l].closed {
      assert Truthful(w.nodes, w.books, Released(n, l));
    }
  }

  /** What an Agent's step leaves true about its stopped leases. */
  ghost predicate StoppedStays(s: System, t: System) {
    forall l :: Stopped(s, l) ==> Stopped(t, l) && Recorded(t.history, l) == Recorded(s.history, l)
  }

  lemma NextKeepsStopped(terms: Terms, s: System, t: System)
    requires Safe(terms, s) && Next(terms, s, t)
    ensures StoppedStays(s, t)
  {
    hide Safe, Next, Stopped, Recorded;
    forall l | Stopped(s, l) ensures Stopped(t, l) && Recorded(t.history, l) == Recorded(s.history, l) {
      StoppedIsFinal(terms, s, t, l);
    }
  }

  lemma MoveKeepsTruth(nodes: map<Id, System>, b: Books, n: Id, t: System, m: Message)
    requires n in nodes && Truthful(nodes, b, m) && Grows(nodes[n], t) && StoppedStays(nodes[n], t)
    ensures Truthful(nodes[n := t], b, m)
  {
    hide Recorded, Stopped;
  }

  lemma MoveKeepsTables(terms: Terms, nodes: map<Id, System>, b: Books, n: Id, t: System)
    requires n in nodes && Grows(nodes[n], t) && StoppedStays(nodes[n], t)
    requires Genuine(nodes, b.usage) && RowsNamed(terms, nodes, b.rows) && ClosedIsFinal(nodes, b.rows)
    ensures Genuine(nodes[n := t], b.usage) && RowsNamed(terms, nodes[n := t], b.rows) && ClosedIsFinal(nodes[n := t], b.rows)
  {
    hide Recorded, Stopped;
  }

  lemma MovesKeepsInv(terms: Terms, w: World, x: World, n: Id)
    requires WorldInv(terms, w) && AgentMoves(terms, w, x, n)
    ensures WorldInv(terms, x)
  {
    hide Safe, Next, Balanced, Genuine, RowsNamed, ClosedIsFinal, Truthful, Local, AllAuthorised, Grows, StoppedStays, Replies;
    var s, t := w.nodes[n], x.nodes[n];
    RepliesAreTrue(terms, w, n);
    assert Node(terms, w.books, w.net, n, s);
    NextKeepsSafe(terms, s, t);
    NextKeepsLocal(terms, w.books, w.net, n, s, t);
    NextKeepsStopped(terms, s, t);
    assert Node(terms, w.books, w.net, n, t);
    hide Node;
    MoveKeepsTables(terms, w.nodes, w.books, n, t);
    forall m | m in w.net ensures Truthful(x.nodes, w.books, m) {
      MoveKeepsTruth(w.nodes, w.books, n, t, m);
    }
  }

  lemma NewNode(terms: Terms, b: Books, net: set<Message>, n: Id, t: System)
    requires Init(t) && t.disk.node == n
    ensures Node(terms, b, net, n, t)
  {
    InitIsSafe(terms, t);
    hide Safe;
  }

  lemma JoinKeepsTables(terms: Terms, nodes: map<Id, System>, b: Books, n: Id, t: System)
    requires n !in nodes && Genuine(nodes, b.usage) && RowsNamed(terms, nodes, b.rows) && ClosedIsFinal(nodes, b.rows)
    ensures Genuine(nodes[n := t], b.usage) && RowsNamed(terms, nodes[n := t], b.rows) && ClosedIsFinal(nodes[n := t], b.rows)
  {
    hide Recorded, Stopped;
  }

  lemma JoinKeepsTruth(nodes: map<Id, System>, b: Books, n: Id, t: System, m: Message)
    requires n !in nodes && Truthful(nodes, b, m)
    ensures Truthful(nodes[n := t], b, m)
  {
    hide Recorded, Stopped;
  }

  lemma JoinsKeepsInv(terms: Terms, w: World, x: World, n: Id)
    requires WorldInv(terms, w) && AgentJoins(w, x, n)
    ensures WorldInv(terms, x)
  {
    hide Node, Balanced, Init, Genuine, RowsNamed, ClosedIsFinal, Truthful;
    NewNode(terms, w.books, w.net, n, x.nodes[n]);
    JoinKeepsTables(terms, w.nodes, w.books, n, x.nodes[n]);
    forall m | m in w.net ensures Truthful(x.nodes, w.books, m) {
      JoinKeepsTruth(w.nodes, w.books, n, x.nodes[n], m);
    }
  }

  /** Sending a message that is true. */
  lemma SendKeepsInv(terms: Terms, w: World, m: Message)
    requires WorldInv(terms, w) && Truthful(w.nodes, w.books, m)
    ensures WorldInv(terms, w.(net := w.net + {m}))
  {
    hide Node, Balanced, Genuine, RowsNamed, ClosedIsFinal, Truthful;
    assert BooksGrow(w.books, w.books);
    PanelKeepsInv(terms, w, w.books, {m});
  }

  lemma PendingIsHistory(terms: Terms, w: World, n: Id, u: Usage)
    requires WorldInv(terms, w) && n in w.nodes && u in w.nodes[n].disk.pending
    ensures u.id in w.nodes[n].history && w.nodes[n].history[u.id] == u
  {
    assert Node(terms, w.books, w.net, n, w.nodes[n]);
    hide Inv, BilledOk, ForgottenOk, AdmittedOk, MeterOk, IssuedOk, Staged, Local, AllAuthorised, Balanced, Genuine, RowsNamed, ClosedIsFinal, Truthful;
  }

  lemma RetirementIsTrue(terms: Terms, w: World, n: Id, l: Id)
    requires WorldInv(terms, w) && n in w.nodes && l in w.nodes[n].disk.retired
    ensures Truthful(w.nodes, w.books, Retirement(n, l, w.nodes[n].disk.Used(l)))
  {
    hide Balanced, Genuine, RowsNamed, ClosedIsFinal, AllAuthorised, Staged, PendingOk, LeasesOk, WindowsOk, BudgetsOk, Capped, ConfigOk,
      MeterOk, IssuedOk, HistoryOk, ForgottenOk, AdmittedOk, Kept, Signed, Agrees;
    var s := w.nodes[n];
    assert Node(terms, w.books, w.net, n, s);
    hide Node, Recorded;
    assert l in s.disk.leases;
    assert l !in s.forgotten ==> s.disk.Used(l) == Recorded(s.history, l);
  }

  // ----- Every step, every run -----

  lemma StepKeepsInv(terms: Terms, w: World, x: World)
    requires WorldInv(terms, w) && Steps(terms, w, x)
    ensures WorldInv(terms, x)
  {
    hide WorldInv, AgentMoves, AgentJoins, PanelSettles, PanelRetires, PanelGrants, QuotaChanges, Truthful;
    if n :| AgentMoves(terms, w, x, n) {
      MovesKeepsInv(terms, w, x, n);
    } else if n :| AgentJoins(w, x, n) {
      JoinsKeepsInv(terms, w, x, n);
    } else if n, records :| SendsUsage(w, x, n, records) {
      UsageIsTrue(terms, w, n, records);
      SendKeepsInv(terms, w, Reported(n, records));
    } else if n, records :| PanelSettles(w, x, n, records) {
      SettlesKeepsInv(terms, w, x, n, records);
    } else if n, l :| SendsRetirement(w, x, n, l) {
      RetirementIsTrue(terms, w, n, l);
      SendKeepsInv(terms, w, Retirement(n, l, w.nodes[n].disk.Used(l)));
    } else if n, l, used :| PanelRetires(w, x, n, l, used) {
      RetiresKeepsInv(terms, w, x, n, l, used);
    } else if e, a, now, l :| PanelGrants(terms, w, x, e, a, now, l) {
      GrantsKeepsInv(terms, w, x, e, a, now, l);
    } else {
      QuotaKeepsInv(terms, w, x);
    }
  }

  lemma UsageIsTrue(terms: Terms, w: World, n: Id, records: seq<Usage>)
    requires WorldInv(terms, w) && n in w.nodes && forall u :: u in records ==> u in w.nodes[n].disk.pending
    ensures Truthful(w.nodes, w.books, Reported(n, records))
  {
    hide WorldInv;
    forall u | u in records ensures u.id in w.nodes[n].history && w.nodes[n].history[u.id] == u {
      PendingIsHistory(terms, w, n, u);
    }
  }

  ghost predicate Run(terms: Terms, trace: seq<World>) {
    trace != [] && Start(trace[0]) && forall i :: 0 <= i < |trace| - 1 ==> Steps(terms, trace[i], trace[i + 1])
  }

  lemma StartIsInv(terms: Terms, w: World)
    requires Start(w)
    ensures WorldInv(terms, w)
  {
    hide Node;
    forall user ensures Outstanding(w.books.rows, user) == 0 { SumUnfolds(w.books.rows, OpenOf(user)); }
    hide Outstanding;
  }

  lemma {:induction false} RunKeepsInv(terms: Terms, trace: seq<World>)
    requires Run(terms, trace)
    ensures WorldInv(terms, trace[|trace| - 1])
    decreases |trace|
  {
    hide WorldInv, Steps, Start;
    var last := |trace| - 1;
    if last == 0 {
      StartIsInv(terms, trace[0]);
    } else {
      var before := trace[..last];
      forall i | 0 <= i < |before| - 1 ensures Steps(terms, before[i], before[i + 1]) {
        assert before[i] == trace[i] && before[i + 1] == trace[i + 1];
      }
      RunKeepsInv(terms, before);
      StepKeepsInv(terms, trace[last - 1], trace[last]);
    }
  }

  // ----- What a subscriber and an operator may rely on -----

  /** Bytes that an Agent let through on a lease. */
  function Admitted(w: World, n: Id, l: Id): int
    requires n in w.nodes
  {
    Spent(w.nodes[n].admitted, l)
  }

  lemma NodeIsCore(terms: Terms, w: World, n: Id)
    requires WorldInv(terms, w) && n in w.nodes
    ensures Core(terms, w.nodes[n]) && Local(terms, w.books, n, w.nodes[n])
  {
    hide Core, Staged, Local, AllAuthorised, Balanced, Genuine, RowsNamed, ClosedIsFinal, Truthful;
    assert Node(terms, w.books, w.net, n, w.nodes[n]);
  }

  lemma StoppedIsUnspent(terms: Terms, s: System, l: Id)
    requires Core(terms, s) && (Stopped(s, l) || (l !in s.disk.leases && l !in s.forgotten))
    ensures Unsettled(s.meter, l) == 0 && Spent(s.admitted, l) <= Recorded(s.history, l)
    ensures l !in s.disk.leases && l !in s.forgotten ==> Recorded(s.history, l) == 0
  {
    hide PendingOk, LeasesOk, BudgetsOk, Capped, ConfigOk, HistoryOk, IssuedOk;
    UnsettledBounded(s.disk.windows, s.meter, s.now, l);
    NoneHeld(s.disk.windows, l);
    assert Spent(s.admitted, l) <= Recorded(s.history, l) + Unsettled(s.meter, l);
    if l !in s.disk.leases && l !in s.forgotten {
      UsedIsRegistered(s.disk.leases, s.disk.used);
    }
  }

  /** An Agent admits nothing on a lease that was not granted to it. */
  lemma OnlyTheHolderSpends(terms: Terms, w: World, n: Id, l: Id)
    requires WorldInv(terms, w) && n in w.nodes && !GrantedTo(w.books.rows, n, l)
    ensures Admitted(w, n, l) <= 0
  {
    hide WorldInv, Core;
    NodeIsCore(terms, w, n);
    StoppedIsUnspent(terms, w.nodes[n], l);
  }

  /** What was admitted on a lease costs at most what the panel holds reserved for it. */
  lemma LeaseIsReserved(terms: Terms, w: World, l: Id)
    requires WorldInv(terms, w) && l in w.books.rows
    ensures w.books.rows[l].node in w.nodes
    ensures w.books.rows[l].Cost(Admitted(w, w.books.rows[l].node, l)) <= w.books.rows[l].Reserved()
  {
    var r := w.books.rows[l];
    assert RowOk(r) && r.node in w.nodes && 0 < r.bytes == terms(l).bytes;
    assert r.closed ==> Stopped(w.nodes[r.node], l) && r.used == Recorded(w.nodes[r.node].history, l);
    hide WorldInv, Core, Priced, Recorded, Stopped, Local;
    NodeIsCore(terms, w, r.node);
    if r.closed {
      StoppedIsUnspent(terms, w.nodes[r.node], l);
      ChargeIsMonotone(Admitted(w, r.node, l), r.used, r.num, r.den);
    } else {
      LeaseIsCovered(terms, w.nodes[r.node], l);
      ChargeIsMonotone(Admitted(w, r.node, l), r.bytes, r.num, r.den);
    }
  }

  /** Each lease with the bytes that its holder let through. */
  ghost function Spending(w: World): map<Id, (Row, int)>
    requires forall l :: l in w.books.rows ==> w.books.rows[l].node in w.nodes
  {
    map l | l in w.books.rows :: (w.books.rows[l], Admitted(w, w.books.rows[l].node, l))
  }

  ghost function CostOf(e: Id): ((Row, int)) -> int {
    (p: (Row, int)) => if p.0.ent == e then p.0.Cost(p.1) else 0
  }

  /**
   * The quota holds end to end. In every run, whatever is lost, repeated, delayed or crashed, the charge for all
   * bytes that all Agents let through on an entitlement's leases is within what the panel has allocated, and that
   * is within the quota.
   */
  lemma QuotaHolds(terms: Terms, trace: seq<World>, e: Id)
    requires Run(terms, trace)
    requires e in trace[|trace| - 1].books.ents
    ensures var w := trace[|trace| - 1];
            && (forall l :: l in w.books.rows ==> w.books.rows[l].node in w.nodes)
            && Sum(Spending(w), CostOf(e)) <= w.books.ents[e].allotted
            && (w.books.ents[e].quota != 0 ==> w.books.ents[e].allotted <= w.books.ents[e].quota)
            && 0 <= w.books.ents[e].used <= w.books.ents[e].allotted
            && (forall n, l :: n in w.nodes && !GrantedTo(w.books.rows, n, l) ==> Admitted(w, n, l) <= 0)
  {
    var w := trace[|trace| - 1];
    RunKeepsInv(terms, trace);
    assert Balanced(w.books);
    UseIsAllocated(w.books, e);
    assert Sum(w.books.rows, ReservedOf(e)) == w.books.ents[e].allotted;
    hide WorldInv, Run, Balanced, Priced, Admitted;
    forall l | l in w.books.rows
      ensures w.books.rows[l].node in w.nodes
      ensures w.books.rows[l].Cost(Admitted(w, w.books.rows[l].node, l)) <= w.books.rows[l].Reserved()
    {
      LeaseIsReserved(terms, w, l);
    }
    SumMonotone(Spending(w), CostOf(e), w.books.rows, ReservedOf(e));
    forall n, l | n in w.nodes && !GrantedTo(w.books.rows, n, l) ensures Admitted(w, n, l) <= 0 {
      OnlyTheHolderSpends(terms, w, n, l);
    }
  }

  // ----- Closed leases -----

  lemma {:induction false} PartOfRecords(a: map<UsageId, Usage>, b: map<UsageId, Usage>, l: Id)
    requires forall k :: k in a && a[k].lease == l ==> k in b && b[k] == a[k]
    requires forall k :: k in b ==> 0 <= b[k].Bytes()
    ensures Recorded(a, l) <= Recorded(b, l)
    decreases |a|
  {
    if a == map[] {
      SumUnfolds(a, OfRecords(l));
      SumNonNegative(b, OfRecords(l));
    } else {
      var k :| k in a;
      SumRemove(a, OfRecords(l), k);
      if a[k].lease == l {
        SumRemove(b, OfRecords(l), k);
        PartOfRecords(a - {k}, b - {k}, l);
      } else {
        PartOfRecords(a - {k}, b, l);
      }
    }
  }

  /** Once a lease is closed every record that its holder ever made for it is settled. */
  lemma ClosedIsSettled(terms: Terms, w: World, l: Id, k: UsageId)
    requires WorldInv(terms, w) && l in w.books.rows && w.books.rows[l].closed && w.books.rows[l].node in w.nodes
    requires k in w.nodes[w.books.rows[l].node].history && w.nodes[w.books.rows[l].node].history[k].lease == l
    ensures k in w.books.usage && w.books.usage[k] == w.nodes[w.books.rows[l].node].history[k]
  {
    hide WorldInv, Recorded;
    var n := w.books.rows[l].node;
    ClosedTotals(terms, w, l);
    HistoryIsPositive(terms, w, n);
    EqualTotals(w.books.usage, w.nodes[n].history, l, k);
  }

  lemma ClosedTotals(terms: Terms, w: World, l: Id)
    requires WorldInv(terms, w) && l in w.books.rows && w.books.rows[l].closed && w.books.rows[l].node in w.nodes
    ensures var n := w.books.rows[l].node;
            && Recorded(w.books.usage, l) == Recorded(w.nodes[n].history, l)
            && forall j :: j in w.books.usage && w.books.usage[j].lease == l ==>
                 j in w.nodes[n].history && w.nodes[n].history[j] == w.books.usage[j]
  {
    hide Node, Truthful, RowsNamed, Conserved, RowsOk, WithinQuota, WithinOutstanding, Recorded, Stopped;
  }

  /** A part with the same total is the whole. */
  lemma EqualTotals(settled: map<UsageId, Usage>, made: map<UsageId, Usage>, l: Id, k: UsageId)
    requires Recorded(settled, l) == Recorded(made, l) && k in made && made[k].lease == l
    requires forall j :: j in settled && settled[j].lease == l ==> j in made && made[j] == settled[j]
    requires forall j :: j in made ==> 0 < made[j].Bytes() && made[j].id == j
    ensures k in settled && settled[k] == made[k]
  {
    if !(k in settled && settled[k].lease == l) {
      PartOfRecords(settled, made - {k}, l);
      SumRemove(made, OfRecords(l), k);
    }
  }

  lemma HistoryIsPositive(terms: Terms, w: World, n: Id)
    requires WorldInv(terms, w) && n in w.nodes
    ensures forall k :: k in w.nodes[n].history ==> 0 < w.nodes[n].history[k].Bytes() && w.nodes[n].history[k].id == k
  {
    NodeIsCore(terms, w, n);
    hide WorldInv, Inv, BilledOk, ForgottenOk, AdmittedOk, MeterOk, IssuedOk, Local;
  }

  /** A late delivery for a closed lease carries nothing new and moves nothing. */
  lemma LateDeliveryIsDuplicate(terms: Terms, w: World, n: Id, records: seq<Usage>, u: Usage)
    requires WorldInv(terms, w) && Reported(n, records) in w.net && u in records
    requires GrantedTo(w.books.rows, n, u.lease) && w.books.rows[u.lease].closed
    ensures u.id in w.books.usage && w.books.usage[u.id] == u
    ensures SettleAll(w.books, records).Some? ==>
              u.lease in SettleAll(w.books, records).value.rows
              && SettleAll(w.books, records).value.rows[u.lease] == w.books.rows[u.lease]
  {
    assert Truthful(w.nodes, w.books, Reported(n, records)) && n in w.nodes;
    hide Node, Balanced, Genuine, RowsNamed, ClosedIsFinal, SettleAll;
    ClosedIsSettled(terms, w, u.lease, u.id);
    if SettleAll(w.books, records).Some? {
      SettlementGrows(w.books, records);
    }
  }
}
