/**
 * The Agent as a system that can crash: the durable state, the windows that the fast path spends from memory,
 * a batch on its way through the log, and, for the statements only, what was really admitted.
 */
module AgentSystem {
  import opened AgentTypes
  import opened AgentState
  import opened Sums

  /**
   * `meter` holds the true use of every open window, even after a crash has lost it from memory; only a running
   * Agent may read or advance it. `inflight` holds events that are being logged or are not yet applied. The last
   * four fields are bookkeeping: bytes admitted, window identifiers ever used, every usage record ever made and
   * the leases that were forgotten.
   */
  datatype System = System(disk: Disk, meter: map<Id, Live>, running: bool, inflight: seq<Event>, now: int,
                           admitted: map<Id, int>, issued: set<Id>, history: map<UsageId, Usage>, forgotten: set<Id>)

  // ----- Totals -----

  ghost function OnLease(l: Id): Live -> int {
    (c: Live) => if c.window.lease == l then c.Unconfirmed() else 0
  }

  /** Bytes spent from a lease's open windows and not billed yet. */
  ghost function Unsettled(meter: map<Id, Live>, l: Id): int {
    Sum(meter, OnLease(l))
  }

  ghost function OfRecords(l: Id): Usage -> int {
    (u: Usage) => if u.lease == l then u.Bytes() else 0
  }

  /** All bytes ever billed to a lease. */
  ghost function Recorded(history: map<UsageId, Usage>, l: Id): int {
    Sum(history, OfRecords(l))
  }

  // ----- Events acting on the whole system -----

  function MeterAfter(meter: map<Id, Live>, e: Event): map<Id, Live> {
    match e
    case Reserve(w, _) => meter[w.id := Live(w, 0, w.startedAt, false)]
    case Progress(w, _) =>
      if w.closed then meter - {w.id}
      else if w.id in meter then meter[w.id := meter[w.id].(window := w)]
      else meter
    case _ => meter
  }

  function HistoryAfter(history: map<UsageId, Usage>, e: Event): map<UsageId, Usage> {
    match e
    case Progress(_, u) => if u.Some? then history[u.value.id := u.value] else history
    case Charge(u, _) => history[u.id := u]
    case _ => history
  }

  /** A direct charge admits its bytes as it is billed. */
  function AdmittedAfter(admitted: map<Id, int>, e: Event): map<Id, int> {
    match e
    case Charge(u, _) => Billed(admitted, u.lease, u.Bytes())
    case _ => admitted
  }

  function Post(s: System, e: Event): System {
    s.(disk := Apply(s.disk, e),
       meter := MeterAfter(s.meter, e),
       history := HistoryAfter(s.history, e),
       admitted := AdmittedAfter(s.admitted, e),
       issued := if e.Reserve? then s.issued + {e.window.id} else s.issued)
  }

  function PostAll(s: System, events: seq<Event>): System
    decreases |events|
  {
    if events == [] then s else PostAll(Post(s, events[0]), events[1..])
  }

  // ----- Invariants -----

  ghost predicate MeterOk(windows: map<Id, Window>, meter: map<Id, Live>, now: int) {
    && meter.Keys == windows.Keys
    && forall id :: id in meter ==>
         && meter[id].window == windows[id]
         && windows[id].confirmed <= meter[id].used <= windows[id].capacity
         && windows[id].startedAt <= meter[id].last
         && windows[id].startedAt <= now
  }

  ghost predicate IssuedOk(windows: map<Id, Window>, history: map<UsageId, Usage>, issued: set<Id>) {
    && windows.Keys <= issued
    && forall k :: k in history && k.Report? ==>
         && k.window in issued
         && (k.window in windows ==> k.sequence <= windows[k.window].sequence)
  }

  ghost predicate HistoryOk(pending: seq<Usage>, history: map<UsageId, Usage>) {
    && (forall u :: u in pending ==> u.id in history && history[u.id] == u)
    && (forall k :: k in history ==> history[k].id == k && 0 < history[k].Bytes())
  }

  ghost predicate BilledOk(terms: Terms, used: map<Id, int>, history: map<UsageId, Usage>, forgotten: set<Id>) {
    && (forall l :: l !in forgotten ==> Spent(used, l) == Recorded(history, l))
    && (forall l :: l in forgotten ==> Recorded(history, l) <= terms(l).bytes)
  }

  ghost predicate ForgottenOk(terms: Terms, windows: map<Id, Window>, forgotten: set<Id>, now: int) {
    && (forall l :: l in forgotten ==> terms(l).expiresAt <= now)
    && (forall id :: id in windows ==> windows[id].lease !in forgotten)
  }

  ghost predicate AdmittedOk(admitted: map<Id, int>, history: map<UsageId, Usage>, meter: map<Id, Live>) {
    forall l :: Spent(admitted, l) <= Recorded(history, l) + Unsettled(meter, l)
  }

  ghost predicate Core(terms: Terms, s: System) {
    && Inv(terms, s.disk)
    && MeterOk(s.disk.windows, s.meter, s.now)
    && IssuedOk(s.disk.windows, s.history, s.issued)
    && HistoryOk(s.disk.pending, s.history)
    && BilledOk(terms, s.disk.used, s.history, s.forgotten)
    && ForgottenOk(terms, s.disk.windows, s.forgotten, s.now)
    && AdmittedOk(s.admitted, s.history, s.meter)
  }

  /** What staging an event promises about the system around the durable state. */
  ghost predicate Side(terms: Terms, s: System, e: Event) {
    match e
    case Reserve(w, l) => l == terms(l.id) && l.id !in s.forgotten && w.id !in s.issued && w.startedAt <= s.now
    case Progress(w, u) =>
      && w.id in s.meter
      && (if w.closed then (s.running ==> s.meter[w.id].closed) && s.meter[w.id].used <= w.confirmed
          else w.confirmed <= s.meter[w.id].used)
      && (u.Some? && !w.closed ==> s.disk.Slots() < MAX_PENDING)
    case SetConfig(c) => Careful(terms, s.disk, e)
    case Charge(u, l) =>
      && u.id.Direct? && u.id !in s.history && u.lease !in s.forgotten && 0 < u.Bytes()
      && 0 < u.startedAt <= u.endedAt <= terms(u.lease).expiresAt
      && (l.Some? ==> l.value == terms(l.value.id) && 0 < l.value.bytes && LeaseCapacity(s.disk, [l.value]))
    case Ack(_) => true
    case Retire(l) => NoWindowOn(s.disk.windows, l)
    case RetireAck(_) => true
  }

  ghost predicate Ready(terms: Terms, s: System, e: Event) {
    Valid(s.disk, e) && Side(terms, s, e)
  }

  /** Every event of the batch is accepted when its turn comes. */
  ghost predicate Staged(terms: Terms, s: System, events: seq<Event>)
    decreases |events|
  {
    events == [] || (Ready(terms, s, events[0]) && Staged(terms, Post(s, events[0]), events[1..]))
  }

  lemma StagedTail(terms: Terms, s: System, events: seq<Event>)
    requires Staged(terms, s, events) && events != []
    ensures Ready(terms, s, events[0]) && Staged(terms, Post(s, events[0]), events[1..])
    ensures PostAll(s, events) == PostAll(Post(s, events[0]), events[1..])
  {
    hide Ready, Post;
  }

  lemma {:induction false} StagedIsValid(terms: Terms, s: System, events: seq<Event>)
    requires Staged(terms, s, events)
    ensures AllValid(s.disk, events)
    decreases |events|
  {
    hide Valid, Side, Apply;
    if events != [] {
      StagedIsValid(terms, Post(s, events[0]), events[1..]);
    }
  }

  lemma {:induction false} PostAllDisk(s: System, events: seq<Event>)
    ensures PostAll(s, events).disk == ApplyAll(s.disk, events)
    decreases |events|
  {
    hide Apply;
    if events != [] {
      PostAllDisk(Post(s, events[0]), events[1..]);
    }
  }

  ghost predicate Safe(terms: Terms, s: System) {
    Core(terms, s) && Staged(terms, s, s.inflight)
  }

  // ----- Events keep the invariant -----

  lemma ReportIsNew(pending: seq<Usage>, windows: map<Id, Window>, history: map<UsageId, Usage>, issued: set<Id>, w: Window)
    requires IssuedOk(windows, history, issued) && HistoryOk(pending, history)
    requires w.id in windows && windows[w.id].sequence < w.sequence
    ensures Report(w.id, w.sequence) !in history && NewId(pending, Report(w.id, w.sequence))
  {
  }

  lemma SideIsCareful(terms: Terms, s: System, e: Event)
    requires Core(terms, s) && Ready(terms, s, e)
    ensures Careful(terms, s.disk, e)
  {
    hide Inv, BilledOk, AdmittedOk, MeterOk;
    if e.Progress? && e.usage.Some? {
      ReportIsNew(s.disk.pending, s.disk.windows, s.history, s.issued, e.window);
    }
  }

  lemma {:induction false} RecordedPut(history: map<UsageId, Usage>, u: Usage, l: Id)
    requires u.id !in history
    ensures Recorded(history[u.id := u], l) == Recorded(history, l) + (if u.lease == l then u.Bytes() else 0)
  {
    SumPut(history, OfRecords(l), u.id, u);
  }

  lemma UnsettledPut(meter: map<Id, Live>, id: Id, c: Live, l: Id)
    ensures Unsettled(meter[id := c], l)
         == Unsettled(meter, l) + OnLease(l)(c) - (if id in meter then OnLease(l)(meter[id]) else 0)
  {
    SumPut(meter, OnLease(l), id, c);
  }

  lemma UnsettledDrop(meter: map<Id, Live>, id: Id, l: Id)
    requires id in meter
    ensures Unsettled(meter - {id}, l) == Unsettled(meter, l) - OnLease(l)(meter[id])
  {
    SumRemove(meter, OnLease(l), id);
  }

  // Opening a window.

  lemma OpenMeter(windows: map<Id, Window>, meter: map<Id, Live>, now: int, w: Window)
    requires MeterOk(windows, meter, now) && w.confirmed == 0 && 0 < w.capacity && w.startedAt <= now
    ensures MeterOk(windows[w.id := w], meter[w.id := Live(w, 0, w.startedAt, false)], now)
  {
  }

  lemma OpenIssued(windows: map<Id, Window>, history: map<UsageId, Usage>, issued: set<Id>, w: Window)
    requires IssuedOk(windows, history, issued) && w.id !in issued
    ensures IssuedOk(windows[w.id := w], history, issued + {w.id})
  {
  }

  lemma OpenAdmitted(admitted: map<Id, int>, history: map<UsageId, Usage>, windows: map<Id, Window>, meter: map<Id, Live>, now: int, w: Window)
    requires AdmittedOk(admitted, history, meter) && MeterOk(windows, meter, now)
    requires w.id !in windows && w.confirmed == 0
    ensures AdmittedOk(admitted, history, meter[w.id := Live(w, 0, w.startedAt, false)])
  {
    var c := Live(w, 0, w.startedAt, false);
    forall l ensures Spent(admitted, l) <= Recorded(history, l) + Unsettled(meter[w.id := c], l) {
      UnsettledPut(meter, w.id, c, l);
    }
  }

  lemma ReserveKeepsCore(terms: Terms, s: System, w: Window, l: Lease)
    requires Core(terms, s) && Ready(terms, s, Reserve(w, l))
    ensures Core(terms, Post(s, Reserve(w, l)))
  {
    hide Inv, BilledOk, HistoryOk, MeterOk, IssuedOk, AdmittedOk;
    SideIsCareful(terms, s, Reserve(w, l));
    EventKeepsInv(terms, s.disk, Reserve(w, l));
    OpenMeter(s.disk.windows, s.meter, s.now, w);
    OpenIssued(s.disk.windows, s.history, s.issued, w);
    OpenAdmitted(s.admitted, s.history, s.disk.windows, s.meter, s.now, w);
  }

  // Moving or closing a window.

  lemma MoveMeter(windows: map<Id, Window>, meter: map<Id, Live>, now: int, w: Window, u: Option<Usage>)
    requires MeterOk(windows, meter, now) && w.id in windows && Continues(windows[w.id], w)
    requires !w.closed ==> w.confirmed <= meter[w.id].used
    ensures MeterOk(Moved(windows, w), MeterAfter(meter, Progress(w, u)), now)
  {
  }

  lemma MoveIssued(windows: map<Id, Window>, history: map<UsageId, Usage>, issued: set<Id>, w: Window, u: Option<Usage>)
    requires IssuedOk(windows, history, issued) && w.id in windows && Continues(windows[w.id], w)
    requires u.Some? ==> u.value.id == Report(w.id, w.sequence)
    ensures IssuedOk(Moved(windows, w), HistoryAfter(history, Progress(w, u)), issued)
  {
  }

  lemma RecordHistory(pending: seq<Usage>, history: map<UsageId, Usage>, u: Usage)
    requires HistoryOk(pending, history) && u.id !in history && 0 < u.Bytes()
    ensures HistoryOk(pending + [u], history[u.id := u])
  {
  }

  lemma RecordBilled(terms: Terms, used: map<Id, int>, history: map<UsageId, Usage>, forgotten: set<Id>, u: Usage)
    requires BilledOk(terms, used, history, forgotten) && u.id !in history && u.lease !in forgotten
    ensures BilledOk(terms, Billed(used, u.lease, u.Bytes()), history[u.id := u], forgotten)
  {
    forall l
      ensures l !in forgotten ==> Spent(Billed(used, u.lease, u.Bytes()), l) == Recorded(history[u.id := u], l)
      ensures l in forgotten ==> Recorded(history[u.id := u], l) <= terms(l).bytes
    {
      RecordedPut(history, u, l);
    }
  }

  /** The bytes that leave the meter enter the record. */
  lemma MoveAdmitted(admitted: map<Id, int>, history: map<UsageId, Usage>, windows: map<Id, Window>, meter: map<Id, Live>, now: int,
                     w: Window, u: Option<Usage>)
    requires AdmittedOk(admitted, history, meter) && MeterOk(windows, meter, now)
    requires w.id in windows && Continues(windows[w.id], w)
    requires w.closed ==> meter[w.id].used <= w.confirmed
    requires if w.confirmed > windows[w.id].confirmed
             then u.Some? && u.value.id !in history && u.value.lease == w.lease
                  && u.value.Bytes() == w.confirmed - windows[w.id].confirmed
             else u.None?
    ensures AdmittedOk(admitted, HistoryAfter(history, Progress(w, u)), MeterAfter(meter, Progress(w, u)))
  {
    var c := meter[w.id].(window := w);
    forall l
      ensures Spent(admitted, l)
           <= Recorded(HistoryAfter(history, Progress(w, u)), l) + Unsettled(MeterAfter(meter, Progress(w, u)), l)
    {
      if u.Some? {
        RecordedPut(history, u.value, l);
      }
      UnsettledPut(meter, w.id, c, l);
      UnsettledDrop(meter, w.id, l);
    }
  }

  lemma MoveForgotten(terms: Terms, windows: map<Id, Window>, forgotten: set<Id>, now: int, w: Window)
    requires ForgottenOk(terms, windows, forgotten, now) && w.id in windows && Continues(windows[w.id], w)
    ensures ForgottenOk(terms, Moved(windows, w), forgotten, now) && w.lease !in forgotten
  {
  }

  lemma ProgressKeepsCore(terms: Terms, s: System, w: Window, u: Option<Usage>)
    requires Core(terms, s) && Ready(terms, s, Progress(w, u))
    ensures Core(terms, Post(s, Progress(w, u)))
  {
    hide Inv, BilledOk, HistoryOk, MeterOk, IssuedOk, AdmittedOk, ForgottenOk, MeterAfter;
    SideIsCareful(terms, s, Progress(w, u));
    EventKeepsInv(terms, s.disk, Progress(w, u));
    MoveMeter(s.disk.windows, s.meter, s.now, w, u);
    MoveIssued(s.disk.windows, s.history, s.issued, w, u);
    MoveForgotten(terms, s.disk.windows, s.forgotten, s.now, w);
    if u.Some? {
      ReportIsNew(s.disk.pending, s.disk.windows, s.history, s.issued, w);
      RecordHistory(s.disk.pending, s.history, u.value);
      RecordBilled(terms, s.disk.used, s.history, s.forgotten, u.value);
    }
    MoveAdmitted(s.admitted, s.history, s.disk.windows, s.meter, s.now, w, u);
  }

  // Direct charges.

  lemma ChargeAdmitted(admitted: map<Id, int>, history: map<UsageId, Usage>, meter: map<Id, Live>, u: Usage)
    requires AdmittedOk(admitted, history, meter) && u.id !in history
    ensures AdmittedOk(Billed(admitted, u.lease, u.Bytes()), history[u.id := u], meter)
  {
    forall l
      ensures Spent(Billed(admitted, u.lease, u.Bytes()), l) <= Recorded(history[u.id := u], l) + Unsettled(meter, l)
    {
      RecordedPut(history, u, l);
    }
  }

  lemma ChargeIssued(windows: map<Id, Window>, history: map<UsageId, Usage>, issued: set<Id>, u: Usage)
    requires IssuedOk(windows, history, issued) && u.id.Direct?
    ensures IssuedOk(windows, history[u.id := u], issued)
  {
  }

  lemma ChargeKeepsCore(terms: Terms, s: System, u: Usage, l: Option<Lease>)
    requires Core(terms, s) && Ready(terms, s, Charge(u, l))
    ensures Core(terms, Post(s, Charge(u, l)))
  {
    hide Inv, BilledOk, MeterOk, IssuedOk, AdmittedOk, ForgottenOk, ValidCharge, HistoryOk;
    ChargeIsNew(s.disk.pending, s.history, u.id);
    EventKeepsInv(terms, s.disk, Charge(u, l));
    ChargeIssued(s.disk.windows, s.history, s.issued, u);
    RecordHistory(s.disk.pending, s.history, u);
    RecordBilled(terms, s.disk.used, s.history, s.forgotten, u);
    ChargeAdmitted(s.admitted, s.history, s.meter, u);
  }

  lemma ChargeIsNew(pending: seq<Usage>, history: map<UsageId, Usage>, id: UsageId)
    requires HistoryOk(pending, history) && id !in history
    ensures NewId(pending, id)
  {
  }

  // Everything else.

  lemma OtherKeepsCore(terms: Terms, s: System, e: Event)
    requires Core(terms, s) && Ready(terms, s, e) && (e.SetConfig? || e.Ack? || e.Retire? || e.RetireAck?)
    ensures Core(terms, Post(s, e))
  {
    hide Inv, BilledOk, MeterOk, IssuedOk, AdmittedOk, ForgottenOk, Register, Stop, LeasesOf, Active, ValidConfig;
    SideIsCareful(terms, s, e);
    EventKeepsInv(terms, s.disk, e);
    if e.Ack? {
      AckKeepsMembers(s.disk.pending, e.ids);
    }
  }

  /** Every accepted and carefully staged event keeps the whole ledger consistent. */
  lemma PostKeepsCore(terms: Terms, s: System, e: Event)
    requires Core(terms, s) && Ready(terms, s, e)
    ensures Core(terms, Post(s, e))
  {
    hide Core, Ready;
    match e
    case Reserve(w, l) => ReserveKeepsCore(terms, s, w, l);
    case Progress(w, u) => ProgressKeepsCore(terms, s, w, u);
    case Charge(u, l) => ChargeKeepsCore(terms, s, u, l);
    case SetConfig(_) => OtherKeepsCore(terms, s, e);
    case Ack(_) => OtherKeepsCore(terms, s, e);
    case Retire(_) => OtherKeepsCore(terms, s, e);
    case RetireAck(_) => OtherKeepsCore(terms, s, e);
  }
}
