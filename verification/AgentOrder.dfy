/** The order in which open windows were published: the fast path drains the oldest first. */
module AgentOrder {
  import opened AgentTypes
  import opened AgentState
  import opened AgentSystem
  import opened AgentRuns
  import opened AgentPlanner
  import opened AgentBatches
  import opened AgentFastPath

  function Without(order: seq<Id>, id: Id): seq<Id> {
    if order == [] then []
    else Without(order[..|order| - 1], id) + (if order[|order| - 1] == id then [] else [order[|order| - 1]])
  }

  function OrderAfter(order: seq<Id>, e: Event): seq<Id> {
    match e
    case Reserve(w, _) => order + [w.id]
    case Progress(w, _) => if w.closed then Without(order, w.id) else order
    case _ => order
  }

  lemma {:induction false} WithoutRemoves(order: seq<Id>, id: Id)
    requires Distinct(order)
    ensures Distinct(Without(order, id)) && forall x :: x in Without(order, id) <==> x in order && x != id
  {
    if order != [] {
      var front, last := order[..|order| - 1], order[|order| - 1];
      WithoutRemoves(front, id);
      assert order == front + [last] && last !in front;
    }
  }

  lemma OrderLists(windows: map<Id, Window>, order: seq<Id>, e: Event)
    requires Lists(windows, order)
    requires e.Reserve? ==> e.window.id !in windows
    requires e.Progress? ==> e.window.id in windows
    ensures Lists(WindowsAfter(windows, e), OrderAfter(order, e))
  {
    if e.Progress? {
      WithoutRemoves(order, e.window.id);
    }
  }

  method RemoveFrom(order: seq<Id>, id: Id) returns (rest: seq<Id>)
    ensures rest == Without(order, id)
  {
    rest := [];
    var i := 0;
    while i < |order|
      invariant 0 <= i <= |order| && rest == Without(order[..i], id)
    {
      assert order[..i + 1][..i] == order[..i];
      if order[i] != id {
        rest := rest + [order[i]];
      }
      i := i + 1;
    }
    assert order[..i] == order;
  }

  // ----- Batches -----

  function OrderAll(order: seq<Id>, events: seq<Event>): seq<Id>
    decreases |events|
  {
    if events == [] then order else OrderAll(OrderAfter(order, events[0]), events[1..])
  }

  /** Windows are listed by age. */
  ghost predicate Aged(windows: map<Id, Window>, order: seq<Id>) {
    forall i, j :: 0 <= i < j < |order| && order[i] in windows && order[j] in windows ==>
      windows[order[i]].startedAt <= windows[order[j]].startedAt
  }

  /** New windows start now. */
  ghost predicate Dated(events: seq<Event>, now: int) {
    forall e :: e in events && e.Reserve? ==> e.window.startedAt == now
  }

  lemma {:induction false} WithoutIsAged(windows: map<Id, Window>, order: seq<Id>, id: Id)
    requires Aged(windows, order)
    ensures Aged(windows, Without(order, id)) && forall x :: x in Without(order, id) ==> x in order
  {
    if order != [] {
      var front, last := order[..|order| - 1], order[|order| - 1];
      WithoutIsAged(windows, front, id);
      var rest := Without(front, id);
      forall i | 0 <= i < |rest| && rest[i] in windows && last in windows ensures windows[rest[i]].startedAt <= windows[last].startedAt {
        assert rest[i] in rest;
        var k :| 0 <= k < |front| && front[k] == rest[i];
        assert order[k] == rest[i] && order[|order| - 1] == last;
      }
    }
  }

  lemma AgedIsKept(before: map<Id, Window>, after: map<Id, Window>, order: seq<Id>)
    requires Aged(before, order) && forall id :: id in after ==> id in before && after[id].startedAt == before[id].startedAt
    ensures Aged(after, order)
  {
  }

  lemma AgedStep(windows: map<Id, Window>, order: seq<Id>, e: Event, now: int)
    requires Lists(windows, order) && Aged(windows, order) && (forall id :: id in windows ==> windows[id].startedAt <= now)
    requires e.Reserve? ==> e.window.startedAt == now && e.window.id !in windows
    requires e.Progress? ==> e.window.id in windows && e.window.startedAt == windows[e.window.id].startedAt
    ensures Aged(WindowsAfter(windows, e), OrderAfter(order, e))
    ensures forall id :: id in WindowsAfter(windows, e) ==> WindowsAfter(windows, e)[id].startedAt <= now
  {
    if e.Progress? {
      WithoutIsAged(windows, order, e.window.id);
      AgedIsKept(windows, WindowsAfter(windows, e), OrderAfter(order, e));
    }
  }

  lemma StepIsDated(terms: Terms, s: System, e: Event)
    requires Core(terms, s) && Ready(terms, s, e)
    ensures forall id :: id in s.disk.windows ==> s.disk.windows[id].startedAt <= s.now
    ensures e.Reserve? ==> e.window.id !in s.disk.windows
    ensures e.Progress? ==> e.window.id in s.disk.windows && e.window.startedAt == s.disk.windows[e.window.id].startedAt
  {
    hide Core, Held;
    forall id | id in s.disk.windows ensures s.disk.windows[id].startedAt <= s.now { OpenWindow(terms, s, id); }
  }

  /** A batch keeps the windows listed by age. */
  lemma {:induction false} BatchKeepsAged(terms: Terms, s: System, events: seq<Event>, order: seq<Id>)
    requires Core(terms, s) && Staged(terms, s, events) && Lists(s.disk.windows, order) && Aged(s.disk.windows, order) && Dated(events, s.now)
    ensures Lists(PostAll(s, events).disk.windows, OrderAll(order, events)) && Aged(PostAll(s, events).disk.windows, OrderAll(order, events))
    decreases |events|
  {
    hide Core, Staged, Ready, Post, Lists, Aged, PostAll, WindowsAfter, OrderAfter;
    if events == [] {
      NoSurroundings(s);
    } else {
      var e := events[0];
      StagedTail(terms, s, events);
      assert e in events;
      StepIsDated(terms, s, e);
      PostWindows(s, e);
      OrderLists(s.disk.windows, order, e);
      AgedStep(s.disk.windows, order, e, s.now);
      PostKeepsCore(terms, s, e);
      SameTime(s, e);
      BatchKeepsAged(terms, Post(s, e), events[1..], OrderAfter(order, e));
    }
  }

  lemma BatchIsAged(terms: Terms, s: System, t: System, events: seq<Event>, order: seq<Id>)
    requires Core(terms, s) && s.inflight == [] && t.inflight == [] && Stages(terms, s, t.(inflight := events))
    requires Lists(t.disk.windows, order) && Aged(t.disk.windows, order) && Dated(events, t.now)
    ensures Aged(PostAll(t, events).disk.windows, OrderAll(order, events))
  {
    hide Core, Staged, Froze, PostAll, Lists, Aged;
    FreezeKeepsCore(terms, s, t);
    StagedIgnoresBatch(terms, t.(inflight := events), [], events);
    assert t.(inflight := events).(inflight := []) == t;
    BatchKeepsAged(terms, t, events, order);
  }

  /** A charge touches a window only when every older window of the rule in that direction is used up. */
  lemma OldestServesFirst(before: map<Id, Live>, after: map<Id, Live>, windows: map<Id, Window>, order: seq<Id>,
                          r: Rule, up: bool, n: int, now: int, x: Id, y: Id)
    requires Lists(windows, order) && Aged(windows, order) && before.Keys == windows.Keys
    requires (forall id :: id in before ==> before[id].window == windows[id]) && Drained(before, after, Eligible(before, order, r, up, now), n, now)
    requires x in before && y in before && x in after && y in after && after[y] != before[y]
    requires x in Eligible(before, order, r, up, now) && before[x].window.startedAt < before[y].window.startedAt
    ensures after[x].used == after[x].window.capacity
  {
    hide Eligible, Drained;
    DrainMeans(before, after, order, r, up, n, now);
    var i :| 0 <= i < |order| && order[i] == x;
    var j :| 0 <= j < |order| && order[j] == y;
  }

  lemma SameTime(s: System, e: Event)
    ensures Post(s, e).now == s.now
  {
    hide Apply;
  }

  lemma {:induction false} ReservationsAreDated(disk: Disk, staged: seq<Event>, requests: seq<Request>, paused: bool, now: int, ids: seq<Id>)
    requires |requests| <= |ids| && 0 < now && Dated(staged, now)
    ensures Dated(Reservations(disk, staged, requests, paused, now, ids), now)
    decreases |requests|
  {
    hide Decide;
    if requests != [] {
      var d := Decide(disk, staged, requests[0], paused, now, ids[0]);
      if d.Granted? {
        GrantIsMade(disk, staged, requests[0], paused, now, ids[0]);
      }
      ReservationsAreDated(disk, if d.Granted? then staged + [d.event] else staged, requests[1..], paused, now, ids[1..]);
    }
  }
}
