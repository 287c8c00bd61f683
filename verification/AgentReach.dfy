/** Reachability: a handful of operations of the running store amount to steps of the abstract system. */
module AgentReach {
  import opened AgentTypes
  import opened AgentState
  import opened AgentSystem
  import opened AgentRuns
  import opened AgentFastPath

  /** `t` follows from `s` by finitely many steps. */
  ghost predicate Reaches(terms: Terms, s: System, t: System) {
    exists trace :: Steps(terms, trace) && trace[0] == s && trace[|trace| - 1] == t
  }

  lemma ReachesSelf(terms: Terms, s: System)
    ensures Reaches(terms, s, s)
  {
    assert Steps(terms, [s]);
  }

  lemma ReachesNext(terms: Terms, s: System, t: System, u: System)
    requires Reaches(terms, s, t) && Next(terms, t, u)
    ensures Reaches(terms, s, u)
  {
    hide Next;
    var trace :| Steps(terms, trace) && trace[0] == s && trace[|trace| - 1] == t;
    assert Steps(terms, trace + [u]);
    assert (trace + [u])[0] == s;
  }

  lemma ReachesTrans(terms: Terms, s: System, t: System, u: System)
    requires Reaches(terms, s, t) && Reaches(terms, t, u)
    ensures Reaches(terms, s, u)
  {
    hide Next;
    var a :| Steps(terms, a) && a[0] == s && a[|a| - 1] == t;
    var b :| Steps(terms, b) && b[0] == t && b[|b| - 1] == u;
    var c := a + b[1..];
    forall i | 0 <= i < |c| - 1 ensures Next(terms, c[i], c[i + 1]) {
      if i == |a| - 1 {
        assert c[i] == b[0] && c[i + 1] == b[1];
      } else if i >= |a| {
        assert c[i] == b[i - |a| + 1] && c[i + 1] == b[i - |a| + 2];
      }
    }
    assert Steps(terms, c);
  }

  /** The batch on its way through the log is applied event by event. */
  lemma {:induction false} BatchApplies(terms: Terms, s: System, events: seq<Event>)
    ensures Reaches(terms, s.(inflight := events), PostAll(s, events).(inflight := []))
    decreases |events|
  {
    hide Post, Reaches;
    if events == [] {
      ReachesSelf(terms, s.(inflight := []));
    } else {
      var now, next := s.(inflight := events), Post(s, events[0]).(inflight := events[1..]);
      PostIgnoresBatch(s, events, events[0]);
      assert AppliesOne(now, next);
      ReachesSelf(terms, now);
      ReachesNext(terms, now, now, next);
      BatchApplies(terms, Post(s, events[0]), events[1..]);
      ReachesTrans(terms, now, next, PostAll(s, events).(inflight := []));
    }
  }

  lemma PostIgnoresBatch(s: System, batch: seq<Event>, e: Event)
    ensures Post(s.(inflight := batch), e) == Post(s, e).(inflight := batch)
  {
  }

  lemma {:induction false} PostAllKeepsBatch(s: System, events: seq<Event>)
    ensures PostAll(s, events).inflight == s.inflight && PostAll(s, events).running == s.running && PostAll(s, events).now == s.now
    decreases |events|
  {
    hide Apply, MeterAfter, HistoryAfter, AdmittedAfter;
    if events != [] {
      PostAllKeepsBatch(Post(s, events[0]), events[1..]);
    }
  }

  /** Staging a batch and applying all of it. */
  lemma BatchReaches(terms: Terms, s: System, t: System, events: seq<Event>)
    requires s.inflight == [] && t.inflight == [] && Stages(terms, s, t.(inflight := events))
    ensures Reaches(terms, s, PostAll(t, events))
  {
    hide Reaches, Stages, PostAll, AppliesOne;
    ReachesSelf(terms, s);
    ReachesNext(terms, s, s, t.(inflight := events));
    BatchApplies(terms, t, events);
    ReachesTrans(terms, s, t.(inflight := events), PostAll(t, events).(inflight := []));
    PostAllKeepsBatch(t, events);
  }

  /** A charge of the fast path is a run of single debits. */
  lemma {:induction false} SpendingReaches(terms: Terms, s: System, debits: seq<Debit>)
    requires CanSpendAll(s, debits)
    ensures Reaches(terms, s, SpendAll(s, debits))
    decreases |debits|
  {
    hide Reaches, Spend;
    ReachesSelf(terms, s);
    if debits != [] {
      var t := Spend(s, debits[0].window, debits[0].n);
      ReachesNext(terms, s, s, t);
      SpendingReaches(terms, t, debits[1..]);
      ReachesTrans(terms, s, t, SpendAll(t, debits[1..]));
    }
  }

  /** Whatever is reached from a safe system is safe. */
  lemma ReachesSafe(terms: Terms, s: System, t: System)
    requires Safe(terms, s) && Reaches(terms, s, t)
    ensures Safe(terms, t)
  {
    hide Safe, Next;
    var trace :| Steps(terms, trace) && trace[0] == s && trace[|trace| - 1] == t;
    StepsAreSafe(terms, trace);
  }
}
