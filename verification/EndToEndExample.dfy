/** A whole run of the world that spends an entitlement to its last byte: the bound on admitted bytes is tight. */
module EndToEndExample {
  import opened AgentTypes
  import opened AgentState
  import opened AgentSystem
  import AgentRuns
  import opened AgentRecovery
  import opened AgentExamples
  import opened Sums
  import opened Rates
  import opened PanelBooks
  import opened PanelOps
  import opened EndToEnd

  ghost predicate Reachable(terms: Terms, w: World) {
    exists trace :: Run(terms, trace) && trace[|trace| - 1] == w
  }

  lemma ReachableStep(terms: Terms, w: World, x: World)
    requires Reachable(terms, w) && Steps(terms, w, x)
    ensures Reachable(terms, x)
  {
    hide Steps, Start;
    var trace :| Run(terms, trace) && trace[|trace| - 1] == w;
    var longer := trace + [x];
    forall i | 0 <= i < |longer| - 1 ensures Steps(terms, longer[i], longer[i + 1]) {
      assert longer[i] == trace[i];
      if i < |trace| - 1 {
        assert longer[i + 1] == trace[i + 1];
      }
    }
    assert Run(terms, longer);
  }

  lemma MoveReaches(terms: Terms, w: World, n: Id, t: System)
    requires Reachable(terms, w) && n in w.nodes && AgentRuns.Next(terms, w.nodes[n], t)
    requires w.nodes[n].inflight == [] ==> AllAuthorised(w.books.rows, w.net, n, t.inflight)
    ensures Reachable(terms, w.(nodes := w.nodes[n := t]))
  {
    hide AgentRuns.Next, AllAuthorised, Reachable;
    var x := w.(nodes := w.nodes[n := t]);
    assert AgentMoves(terms, w, x, n);
    hide AgentMoves;
    ReachableStep(terms, w, x);
  }

  /** Staging one event and applying it. */
  lemma EventMoves(terms: Terms, w: World, n: Id, e: Event)
    requires Reachable(terms, w) && n in w.nodes && w.nodes[n].inflight == []
    requires Ready(terms, w.nodes[n], e) && Authorised(w.books.rows, w.net, n, e)
    ensures Reachable(terms, w.(nodes := w.nodes[n := Post(w.nodes[n], e)]))
  {
    hide Ready, Authorised, Reachable, Post;
    var s := w.nodes[n];
    var t := s.(inflight := [e]);
    StagedAlone(terms, s, e);
    MoveReaches(terms, w, n, t);
    var x := w.(nodes := w.nodes[n := t]);
    assert t.inflight[1..] == [];
    PostDropsBatch(s, e);
    assert AgentRuns.AppliesOne(t, Post(s, e));
    MoveReaches(terms, x, n, Post(s, e));
    assert x.nodes[n := Post(s, e)] == w.nodes[n := Post(s, e)];
  }

  lemma StagedAlone(terms: Terms, s: System, e: Event)
    requires s.inflight == [] && Ready(terms, s, e)
    ensures AgentRuns.Next(terms, s, s.(inflight := [e]))
  {
    hide Ready, Post;
    var t := s.(inflight := [e]);
    ReadyIgnoresBatch(terms, s, e);
    assert [e][1..] == [] && [e][0] == e;
    assert Staged(terms, Post(t, e), []);
    assert Staged(terms, t, [e]);
    assert AgentRuns.Stages(terms, s, t);
  }

  lemma ReadyIgnoresBatch(terms: Terms, s: System, e: Event)
    requires Ready(terms, s, e)
    ensures Ready(terms, s.(inflight := [e]), e)
  {
    hide Valid;
  }

  lemma PostDropsBatch(s: System, e: Event)
    requires s.inflight == []
    ensures Post(s.(inflight := [e]), e).(inflight := []) == Post(s, e)
  {
    hide Apply;
  }

  // ----- The run -----

  /** A user buys `q` bytes and spends them through one window of one rule. */
  datatype Story = Story(user: Id, x: Sample)
  {
    predicate Sane() {
      x.Sane() && x.bytes == x.capacity && x.upload && x.now == 1 && x.expires <= LEASE_TIME
    }

    function Row(used: int): Row {
      PanelBooks.Row(user, x.node, x.rule, x.ent, x.bytes, x.expires, used, 1, 1, x.bytes, false)
    }

    function Bought(allotted: int, used: int): map<Id, Entitlement> {
      map[x.ent := Entitlement(user, 1, x.bytes, x.expires, allotted, used)]
    }

    function Ask(): Ask {
      PanelOps.Ask(user, x.rule, x.node, 1, 1, x.bytes)
    }

    function Granted(): Books {
      Books(Bought(x.bytes, 0), map[x.lease := Row(0)], map[])
    }

    function Record(): Usage {
      Usage(Report(x.window, 1), x.node, x.rule, x.lease, x.ent, 1, 1, x.bytes, 0, false)
    }

    function Billed(): Window {
      x.Window().(confirmed := x.bytes, sequence := 1)
    }

    ghost function Spent(): System {
      x.Opened().(meter := map[x.window := x.Live().(used := x.bytes)], admitted := map[x.lease := x.bytes])
    }

    ghost function Reported(): System {
      Post(Spent(), Progress(Billed(), Some(Record())))
    }

    ghost function World(s: System, b: Books, net: set<Message>): World {
      EndToEnd.World(map[x.node := s], b, net)
    }
  }

  /** A purchase, an Agent that joins, and a grant. */
  lemma GrantIsReached(y: Story)
    requires y.Sane()
    ensures Reachable(y.x.Terms(), y.World(y.x.Blank(), y.Granted(), {}))
  {
    var terms, x := y.x.Terms(), y.x;
    var none := Books(map[], map[], map[]);
    var w0 := World(map[], none, {});
    assert Run(terms, [w0]);
    assert Reachable(terms, w0);
    hide Reachable, Run;
    var bought := Books(y.Bought(0, 0), map[], map[]);
    var w1 := w0.(books := bought);
    PurchaseSteps(terms, w0, w1, y);
    ReachableStep(terms, w0, w1);
    var w2 := y.World(x.Blank(), bought, {});
    assert AgentJoins(w1, w2, x.node) by { assert w1.nodes[x.node := x.Blank()] == w2.nodes; }
    ReachableStep(terms, w1, w2);
    GrantSteps(terms, w2, y);
    ReachableStep(terms, w2, y.World(x.Blank(), y.Granted(), {}));
  }

  lemma PurchaseSteps(terms: Terms, w: World, v: World, y: Story)
    requires y.Sane() && w == World(map[], Books(map[], map[], map[]), {}) && v == w.(books := Books(y.Bought(0, 0), map[], map[]))
    ensures Steps(terms, w, v)
  {
    var x := y.x;
    assert map[][x.ent := Entitlement(y.user, 1, x.bytes, x.expires, 0, 0)] == y.Bought(0, 0);
    assert v == w.(books := Purchased(w.books, x.ent, y.user, 1, x.bytes, x.expires));
    assert QuotaChanges(w, v);
  }

  lemma GrantSteps(terms: Terms, w: World, y: Story)
    requires y.Sane() && terms == y.x.Terms() && w == y.World(y.x.Blank(), Books(y.Bought(0, 0), map[], map[]), {})
    ensures Steps(terms, w, y.World(y.x.Blank(), y.Granted(), {}))
  {
    var x := y.x;
    assert Outstanding(w.books.rows, y.user) == 0 by { SumUnfolds(w.books.rows, OpenOf(y.user)); }
    assert Raw(x.bytes, 1, 1) == x.bytes;
    hide Outstanding, Raw;
    assert Offer(w.books, x.ent, y.Ask(), 1) == Some(y.Row(0));
    assert w.books.rows[x.lease := y.Row(0)] == y.Granted().rows;
    assert Adjusted(w.books.ents, x.ent, x.bytes, 0) == y.Granted().ents;
    assert PanelGrants(terms, w, y.World(x.Blank(), y.Granted(), {}), x.ent, y.Ask(), 1, x.lease);
  }

  lemma WorldMoves(y: Story, s: System, t: System, b: Books, net: set<Message>)
    ensures y.World(s, b, net).(nodes := y.World(s, b, net).nodes[y.x.node := t]) == y.World(t, b, net)
  {
  }

  /** Configure, reserve, spend every byte and bill it. */
  lemma SpendingIsReached(y: Story)
    requires y.Sane()
    ensures Reachable(y.x.Terms(), y.World(y.Reported(), y.Granted(), {}))
  {
    var terms, x, b := y.x.Terms(), y.x, y.Granted();
    GrantIsReached(y);
    ConfigureIsReady(x);
    OpenIsReady(x);
    SpendIsAllowed(y);
    BillIsReady(y);
    Authority(y);
    hide Reachable, Ready, Post, Authorised, AgentRuns.Next, AllAuthorised;
    WorldMoves(y, x.Blank(), x.Configured(), b, {});
    EventMoves(terms, y.World(x.Blank(), b, {}), x.node, SetConfig(x.Config()));
    WorldMoves(y, x.Configured(), x.Opened(), b, {});
    EventMoves(terms, y.World(x.Configured(), b, {}), x.node, Reserve(x.Window(), x.Grant()));
    WorldMoves(y, x.Opened(), y.Spent(), b, {});
    MoveReaches(terms, y.World(x.Opened(), b, {}), x.node, y.Spent());
    WorldMoves(y, y.Spent(), y.Reported(), b, {});
    EventMoves(terms, y.World(y.Spent(), b, {}), x.node, Progress(y.Billed(), Some(y.Record())));
  }

  lemma Authority(y: Story)
    ensures var x, rows := y.x, y.Granted().rows;
            && Authorised(rows, {}, x.node, SetConfig(x.Config()))
            && Authorised(rows, {}, x.node, Reserve(x.Window(), x.Grant()))
            && Authorised(rows, {}, x.node, Progress(y.Billed(), Some(y.Record())))
            && AllAuthorised(rows, {}, x.node, [])
  {
    SampleLeases(y.x);
    hide LeasesOf;
  }

  lemma SpendIsAllowed(y: Story)
    requires y.Sane()
    ensures AgentRuns.Next(y.x.Terms(), y.x.Opened(), y.Spent()) && y.Spent().inflight == []
  {
    var s, x := y.x.Opened(), y.x;
    assert AgentRuns.CanSpend(s, x.window, x.bytes);
    assert s.meter[x.window := x.Live().(used := x.bytes)] == y.Spent().meter;
    assert AgentState.Billed(s.admitted, x.lease, x.bytes) == y.Spent().admitted;
    assert y.Spent() == AgentRuns.Spend(s, x.window, x.bytes);
  }

  lemma BillIsReady(y: Story)
    requires y.Sane()
    ensures Ready(y.x.Terms(), y.Spent(), Progress(y.Billed(), Some(y.Record())))
  {
    assert |y.Spent().disk.windows| == 1;
  }

  /** What the bill leaves behind. */
  lemma ReportedHas(y: Story)
    requires y.Sane()
    ensures y.Reported().disk.pending == [y.Record()] && y.Reported().admitted == map[y.x.lease := y.x.bytes]
  {
    hide Billed;
  }

  lemma BillSettles(y: Story)
    requires y.Sane()
    ensures SettleAll(y.Granted(), [y.Record()]) == Some(Books(y.Bought(y.x.bytes, y.x.bytes), map[y.x.lease := y.Row(y.x.bytes)], map[y.Record().id := y.Record()]))
  {
    var b, u, x := y.Granted(), y.Record(), y.x;
    assert Priced(0, 1, 1) == 0 && Priced(x.bytes, 1, 1) == x.bytes;
    hide Priced;
    var c := Books(y.Bought(x.bytes, x.bytes), map[x.lease := y.Row(x.bytes)], map[u.id := u]);
    assert Adjusted(b.ents, x.ent, 0, x.bytes) == c.ents;
    assert b.rows[x.lease := y.Row(x.bytes)] == c.rows;
    assert b.usage[u.id := u] == c.usage;
    assert SettleOne(b, u) == Some(c);
    assert [u][1..] == [];
  }

  /**
   * For every purchase of up to a window's size there is a run in which the Agent lets through exactly the quota,
   * and the panel has settled all of it.
   */
  lemma QuotaIsReached(user: Id, node: Id, rule: Id, lease: Id, window: Id, e: Id, q: int)
    requires 0 < q <= TCP_WINDOW
    ensures exists terms: Terms, trace: seq<World> ::
              && Run(terms, trace)
              && var w := trace[|trace| - 1];
                 && node in w.nodes && e in w.books.ents && GrantedTo(w.books.rows, node, lease)
                 && Admitted(w, node, lease) == w.books.ents[e].used == w.books.ents[e].quota == q
  {
    var y := Story(user, Sample(node, rule, lease, window, e, q, q, true, 1, LEASE_TIME));
    var terms, s, b := y.x.Terms(), y.Reported(), y.Granted();
    var sent := Message.Reported(node, [y.Record()]);
    SpendingIsReached(y);
    ReportedHas(y);
    BillSettles(y);
    hide Reachable, SettleAll;
    var w := y.World(s, b, {});
    var x := w.(net := w.net + {sent});
    assert SendsUsage(w, x, node, [y.Record()]);
    ReachableStep(terms, w, x);
    var z := x.(books := SettleAll(b, [y.Record()]).value, net := x.net + {Acknowledged(node, IdsOf([y.Record()]))});
    assert PanelSettles(x, z, node, [y.Record()]);
    ReachableStep(terms, x, z);
    EndsRun(terms, z, node, lease, e, q);
  }

  lemma EndsRun(terms: Terms, w: World, node: Id, lease: Id, e: Id, q: int)
    requires Reachable(terms, w) && node in w.nodes && e in w.books.ents && GrantedTo(w.books.rows, node, lease)
    requires Admitted(w, node, lease) == w.books.ents[e].used == w.books.ents[e].quota == q
    ensures exists terms: Terms, trace: seq<World> ::
              && Run(terms, trace)
              && var w := trace[|trace| - 1];
                 && node in w.nodes && e in w.books.ents && GrantedTo(w.books.rows, node, lease)
                 && Admitted(w, node, lease) == w.books.ents[e].used == w.books.ents[e].quota == q
  {
    hide Steps;
    var trace :| Run(terms, trace) && trace[|trace| - 1] == w;
  }
}
