/** Choosing a route candidate: weighted rotation over the candidates that are neither cooling down nor being probed. */
module Failover {
  import opened AgentTypes
  import opened Sums
  import opened Rotation

  datatype Candidate = Candidate(id: Id, weight: int)
  {
    function Share(): int {
      Max(1, weight)
    }
  }

  const SECOND: int := 1_000_000_000

  /** `until` is absent unless failures have started a cooldown. */
  datatype Backend = Backend(current: int, failures: int, until: Option<int>, probing: bool)

  function StateOf(backends: map<Id, Backend>, id: Id): Backend {
    if id in backends then backends[id] else Backend(0, 0, None, false)
  }

  predicate Ready(b: Backend, now: int) {
    !(b.until.Some? && now < b.until.value) && !b.probing
  }

  predicate Eligible(backends: map<Id, Backend>, tried: set<Id>, now: int, c: Candidate) {
    c.id !in tried && Ready(StateOf(backends, c.id), now)
  }

  ghost function Current(): Backend -> int {
    (b: Backend) => b.current
  }

  lemma CurrentMoves(backends: map<Id, Backend>, id: Id, b: Backend)
    ensures Sum(backends[id := b], Current()) == Sum(backends, Current()) + b.current - StateOf(backends, id).current
  {
    SumPut(backends, Current(), id, b);
  }

  // ----- A fixed set of candidates, all of them available -----

  function Shares(cs: seq<Candidate>): (w: seq<int>)
    ensures |w| == |cs| && forall i :: 0 <= i < |cs| ==> w[i] == cs[i].Share()
  {
    seq(|cs|, i requires 0 <= i < |cs| => cs[i].Share())
  }

  function Values(backends: map<Id, Backend>, cs: seq<Candidate>): (v: seq<int>)
    ensures |v| == |cs| && forall i :: 0 <= i < |cs| ==> v[i] == StateOf(backends, cs[i].id).current
  {
    seq(|cs|, i requires 0 <= i < |cs| => StateOf(backends, cs[i].id).current)
  }

  ghost predicate Distinct(cs: seq<Candidate>) {
    forall i, j :: 0 <= i < j < |cs| ==> cs[i].id != cs[j].id
  }

  /** The candidates that a choice is between, in their order. */
  function Usable(backends: map<Id, Backend>, tried: set<Id>, now: int, cs: seq<Candidate>): seq<Candidate> {
    if cs == [] then []
    else
      var front, c := Usable(backends, tried, now, cs[..|cs| - 1]), cs[|cs| - 1];
      if Eligible(backends, tried, now, c) then front + [c] else front
  }

  /** A candidate takes part if and only if it has not been tried, is not cooling down and is not being probed. */
  lemma {:induction false} UsableMeans(backends: map<Id, Backend>, tried: set<Id>, now: int, cs: seq<Candidate>, c: Candidate)
    ensures c in Usable(backends, tried, now, cs) <==>
              && c in cs && c.id !in tried
              && (c.id in backends ==> !backends[c.id].probing && (backends[c.id].until.Some? ==> backends[c.id].until.value <= now))
    ensures Distinct(cs) ==> Distinct(Usable(backends, tried, now, cs))
  {
    if cs != [] {
      var front, last := cs[..|cs| - 1], cs[|cs| - 1];
      UsableMeans(backends, tried, now, front, c);
      assert c in cs <==> c in front || c == last;
      if Distinct(cs) {
        var sub := Usable(backends, tried, now, front);
        forall i | 0 <= i < |sub| ensures sub[i].id != last.id {
          assert sub[i] in sub;
          UsableAreListed(backends, tried, now, front, sub[i]);
        }
      }
    }
  }

  lemma {:induction false} UsableAreListed(backends: map<Id, Backend>, tried: set<Id>, now: int, cs: seq<Candidate>, c: Candidate)
    requires c in Usable(backends, tried, now, cs)
    ensures exists k :: 0 <= k < |cs| && cs[k] == c
  {
    if cs != [] && c in Usable(backends, tried, now, cs[..|cs| - 1]) {
      UsableAreListed(backends, tried, now, cs[..|cs| - 1], c);
    }
  }

  /** Only the values in the rotation have moved. */
  ghost predicate SameHealth(before: map<Id, Backend>, after: map<Id, Backend>) {
    forall id :: StateOf(after, id) == StateOf(before, id).(current := StateOf(after, id).current)
  }

  /** The pass so far over the candidates `sub` that take part: each has its share, and `best` leads. */
  ghost predicate Passing(before: map<Id, Backend>, after: map<Id, Backend>, sub: seq<Candidate>, total: int, best: Option<Candidate>) {
    && Distinct(sub) && total == Total(Shares(sub))
    && Values(after, sub) == Gain(Values(before, sub), Shares(sub))
    && (forall id :: (forall c :: c in sub ==> c.id != id) ==> StateOf(after, id).current == StateOf(before, id).current)
    && best == if sub == [] then None else Some(sub[Leader(Values(after, sub))])
  }

  lemma NewcomerGains(before: map<Id, Backend>, after: map<Id, Backend>, sub: seq<Candidate>, c: Candidate, next: Backend)
    requires Distinct(sub + [c]) && Values(after, sub) == Gain(Values(before, sub), Shares(sub))
    requires next.current == StateOf(before, c.id).current + c.Share()
    ensures var more := sub + [c];
            && Values(after[c.id := next], more) == Gain(Values(before, more), Shares(more))
            && Values(after[c.id := next], more) == Values(after, sub) + [next.current]
            && Shares(more) == Shares(sub) + [c.Share()]
  {
    var more, n := sub + [c], |sub|;
    forall i | 0 <= i < n ensures more[i].id != c.id { assert more[n] == c && more[i] == sub[i]; }
    forall i | 0 <= i <= n
      ensures Values(after[c.id := next], more)[i] == Gain(Values(before, more), Shares(more))[i]
      ensures Values(after[c.id := next], more)[i] == (Values(after, sub) + [next.current])[i]
    {
      if i < n {
        assert more[i] == sub[i] && Values(after, sub)[i] == Gain(Values(before, sub), Shares(sub))[i];
      }
    }
  }

  lemma NewcomerIsNew(sub: seq<Candidate>, c: Candidate)
    requires Distinct(sub + [c])
    ensures forall x :: x in sub ==> x.id != c.id
  {
    forall x | x in sub ensures x.id != c.id {
      var i :| 0 <= i < |sub| && sub[i] == x;
      assert (sub + [c])[i] == x && (sub + [c])[|sub|] == c;
    }
  }

  lemma NewLeader(v: seq<int>, x: int)
    ensures Leader(v + [x]) == if v == [] || x > v[Leader(v)] then |v| else Leader(v)
  {
    var w, n := v + [x], |v|;
    assert w[..n] == v && w[..n + 1] == w;
    if n > 0 {
      LeaderSnoc(w, n);
    } else {
      LeaderOfOne(w);
    }
  }

  lemma PassStep(before: map<Id, Backend>, after: map<Id, Backend>, sub: seq<Candidate>, c: Candidate, total: int, best: Option<Candidate>)
    requires Passing(before, after, sub, total, best) && Distinct(sub + [c])
    ensures forall x :: x in sub ==> x.id != c.id
    ensures best.Some? ==> best.value in sub
    ensures var b := StateOf(after, c.id);
            var next := b.(current := b.current + c.Share());
            Passing(before, after[c.id := next], sub + [c], total + c.Share(),
                    if best.None? || next.current > StateOf(after, best.value.id).current then Some(c) else best)
  {
    hide Leader, Eligible, Values, Gain, Shares, Distinct, Total;
    var more := sub + [c];
    NewcomerIsNew(sub, c);
    var b := StateOf(after, c.id);
    var next := b.(current := b.current + c.Share());
    NewcomerGains(before, after, sub, c, next);
    NewLeader(Values(after, sub), next.current);
    TotalSnoc(Shares(sub), c.Share());
    forall id | forall x :: x in more ==> x.id != id ensures StateOf(after[c.id := next], id).current == StateOf(before, id).current {
      assert c in more && forall x :: x in sub ==> x in more;
    }
  }

  lemma TotalSnoc(x: seq<int>, n: int)
    ensures Total(x + [n]) == Total(x) + n
  {
    assert (x + [n])[..|x|] == x;
  }

  lemma LeaderSnoc(x: seq<int>, i: nat)
    requires 0 < i < |x|
    ensures Leader(x[..i + 1]) == if x[i] > x[Leader(x[..i])] then i else Leader(x[..i])
  {
    assert x[..i + 1][..i] == x[..i];
  }

  lemma LeaderOfOne(x: seq<int>)
    requires x != []
    ensures Leader(x[..1]) == 0
  {
  }

  lemma PassEnd(before: map<Id, Backend>, after: map<Id, Backend>, sub: seq<Candidate>, total: int, best: Candidate, paid: Backend)
    requires Passing(before, after, sub, total, Some(best)) && paid.current == StateOf(after, best.id).current - total
    ensures sub != [] && best == sub[Pick(Values(before, sub), Shares(sub))]
    ensures Values(after[best.id := paid], sub) == Turn(Values(before, sub), Shares(sub))
    ensures forall id :: (forall c :: c in sub ==> c.id != id) ==> StateOf(after[best.id := paid], id).current == StateOf(before, id).current
  {
    hide Leader, Total, Gain;
    var k := Pick(Values(before, sub), Shares(sub));
    assert sub[k] in sub;
  }

  /**
   * What a choice does: it picks an eligible candidate if there is one, changes nobody's health except that a
   * candidate with failures is marked as being probed, and keeps the sum of the values. It is one turn of the weighted
   * rotation among the candidates that take part, and the others keep their values.
   */
  ghost predicate Selects(before: map<Id, Backend>, after: map<Id, Backend>, cs: seq<Candidate>, tried: set<Id>, now: int, best: int) {
    && Sum(after, Current()) == Sum(before, Current())
    && (best == -1 <==> forall c :: c in cs ==> !Eligible(before, tried, now, c))
    && (best == -1 ==> forall id :: StateOf(after, id) == StateOf(before, id))
    && (best != -1 ==> 0 <= best < |cs| && Eligible(before, tried, now, cs[best]) && Probed(before, after, cs[best].id))
    && (Distinct(cs) && best != -1 ==> Turns(before, after, Usable(before, tried, now, cs), cs[best]))
  }

  /** One turn of the rotation among `sub`, which chose `chosen`. */
  ghost predicate Turns(before: map<Id, Backend>, after: map<Id, Backend>, sub: seq<Candidate>, chosen: Candidate) {
    && sub != [] && chosen == sub[Pick(Values(before, sub), Shares(sub))]
    && Values(after, sub) == Turn(Values(before, sub), Shares(sub))
    && (forall id :: (forall c :: c in sub ==> c.id != id) ==> StateOf(after, id).current == StateOf(before, id).current)
  }

  /** Only values have moved, and the chosen candidate counts as being probed if failures had put it on hold. */
  ghost predicate Probed(before: map<Id, Backend>, after: map<Id, Backend>, chosen: Id) {
    forall id :: StateOf(after, id) ==
                 var b := StateOf(before, id);
                 b.(current := StateOf(after, id).current, probing := b.probing || (id == chosen && b.failures > 0 && b.until.Some?))
  }

  // ----- The binding -----

  class Binding {
    var backends: map<Id, Backend>

    constructor ()
      ensures backends == map[]
    {
      backends := map[];
    }

    /**
     * Pick the next candidate that has not been tried and is available, by weighted rotation.
     */
    method SelectCandidate(cs: seq<Candidate>, tried: set<Id>, now: int) returns (best: int)
      modifies this
      ensures Selects(old(backends), backends, cs, tried, now, best)
    {
      hide Leader, Total, Gain, Values, Shares, Turn, Pick, Distinct, Usable, Passing, Turns;
      ghost var before := backends;
      ghost var all := Distinct(cs);
      best := -1;
      var total, i := 0, 0;
      StartOfPass(backends, tried, now, cs);
      while i < |cs|
        invariant 0 <= i <= |cs| && -1 <= best < i
        invariant Sum(backends, Current()) == Sum(before, Current()) + total
        invariant SameHealth(before, backends)
        invariant best == -1 ==> backends == before && total == 0 && forall j :: 0 <= j < i ==> !Eligible(before, tried, now, cs[j])
        invariant best != -1 ==> Eligible(before, tried, now, cs[best])
        invariant all ==> Passing(before, backends, Usable(before, tried, now, cs[..i]), total, if best == -1 then None else Some(cs[best]))
      {
        var c := cs[i];
        var b := StateOf(backends, c.id);
        SameReady(before, backends, c.id, now);
        UsableGrows(before, tried, now, cs, i);
        if c.id !in tried && Ready(b, now) {
          var next := b.(current := b.current + c.Share());
          var lead := best == -1 || next.current > (if cs[best].id == c.id then next.current else StateOf(backends, cs[best].id).current);
          if all { PassStep(before, backends, Usable(before, tried, now, cs[..i]), c, total, if best == -1 then None else Some(cs[best])); }
          CurrentMoves(backends, c.id, next);
          backends := backends[c.id := next];
          total := total + c.Share();
          if lead {
            best := i;
          }
        } else {
          assert c in cs;
        }
        i := i + 1;
      }
      assert cs[..i] == cs;
      if best == -1 { return; }
      var b := StateOf(backends, cs[best].id);
      var paid := b.(current := b.current - total, probing := b.probing || (b.failures > 0 && b.until.Some?));
      if all {
        PassEnd(before, backends, Usable(before, tried, now, cs), total, cs[best], paid);
        TurnsIs(before, backends[cs[best].id := paid], Usable(before, tried, now, cs), cs[best]);
      }
      CurrentMoves(backends, cs[best].id, paid);
      backends := backends[cs[best].id := paid];
    }

    /** Record the outcome of an attempt. */
    method MarkCandidate(id: Id, failed: bool, maxFail: int, cooldown: int, now: int)
      modifies this
      ensures Sum(backends, Current()) == Sum(old(backends), Current())
      ensures forall x :: x != id ==> StateOf(backends, x) == StateOf(old(backends), x)
      ensures id !in old(backends) ==> backends == old(backends)
      ensures id in old(backends) ==>
                var a, b := StateOf(old(backends), id), StateOf(backends, id);
                && b.current == a.current && !b.probing && b.failures == (if failed then a.failures + 1 else 0)
                && b.until == if !failed then None
                              else if b.failures >= Max(1, maxFail) then Some(now + Max(1, cooldown) * SECOND) else a.until
      ensures id in old(backends) ==>
                (Ready(StateOf(backends, id), now) <==>
                 !failed || (StateOf(old(backends), id).failures + 1 < Max(1, maxFail)
                             && Ready(StateOf(old(backends), id).(probing := false), now)))
    {
      if id !in backends { return; }
      var b := backends[id].(probing := false);
      if !failed {
        b := b.(failures := 0, until := None);
      } else {
        b := b.(failures := b.failures + 1);
        if b.failures >= Max(1, maxFail) {
          b := b.(until := Some(now + Max(1, cooldown) * SECOND));
        }
      }
      CurrentMoves(backends, id, b);
      backends := backends[id := b];
    }
  }

  lemma TurnsIs(before: map<Id, Backend>, after: map<Id, Backend>, sub: seq<Candidate>, chosen: Candidate)
    requires sub != [] && chosen == sub[Pick(Values(before, sub), Shares(sub))]
    requires Values(after, sub) == Turn(Values(before, sub), Shares(sub))
    requires forall id :: (forall c :: c in sub ==> c.id != id) ==> StateOf(after, id).current == StateOf(before, id).current
    ensures Turns(before, after, sub, chosen)
  {
    hide Values, Shares, Turn, Pick;
  }

  lemma UsableGrows(backends: map<Id, Backend>, tried: set<Id>, now: int, cs: seq<Candidate>, i: nat)
    requires i < |cs|
    ensures var sub := Usable(backends, tried, now, cs[..i]);
            && Usable(backends, tried, now, cs[..i + 1]) == (if Eligible(backends, tried, now, cs[i]) then sub + [cs[i]] else sub)
            && (Distinct(cs) && Eligible(backends, tried, now, cs[i]) ==> Distinct(sub + [cs[i]]))
  {
    hide Eligible;
    assert cs[..i + 1][..i] == cs[..i];
    if Distinct(cs) {
      UsableMeans(backends, tried, now, cs[..i + 1], cs[i]);
    }
  }

  lemma StartOfPass(backends: map<Id, Backend>, tried: set<Id>, now: int, cs: seq<Candidate>)
    ensures Passing(backends, backends, Usable(backends, tried, now, cs[..0]), 0, None)
  {
    assert cs[..0] == [];
  }

  lemma SameReady(before: map<Id, Backend>, after: map<Id, Backend>, id: Id, now: int)
    requires SameHealth(before, after)
    ensures Ready(StateOf(after, id), now) == Ready(StateOf(before, id), now)
  {
  }

  // ----- A long run of choices -----

  lemma SharesAreWeights(cs: seq<Candidate>)
    requires cs != []
    ensures Weights(Shares(cs))
  {
  }

  /** Choices made one after the other: `states[k]` is the binding before choice `k`, and `sub` take part each time. */
  ghost predicate Choices(cs: seq<Candidate>, sub: seq<Candidate>, states: seq<map<Id, Backend>>, picks: seq<int>, tried: seq<set<Id>>, times: seq<int>) {
    && |states| == |picks| + 1 && |times| == |tried| == |picks|
    && forall k :: 0 <= k < |picks| ==>
         Selects(states[k], states[k + 1], cs, tried[k], times[k], picks[k]) && Usable(states[k], tried[k], times[k], cs) == sub
  }

  /** How often a candidate was chosen. */
  function Count(cs: seq<Candidate>, picks: seq<int>, c: Candidate): nat {
    if picks == [] then 0
    else
      var k := picks[|picks| - 1];
      Count(cs, picks[..|picks| - 1], c) + (if 0 <= k < |cs| && cs[k] == c then 1 else 0)
  }

  lemma ChoiceTurns(cs: seq<Candidate>, sub: seq<Candidate>, before: map<Id, Backend>, after: map<Id, Backend>, tried: set<Id>, now: int, best: int)
    requires Distinct(cs) && sub != [] && Usable(before, tried, now, cs) == sub && Selects(before, after, cs, tried, now, best)
    ensures 0 <= best < |cs| && Turns(before, after, sub, cs[best])
  {
    hide Turns, Distinct, Eligible, Usable;
    UsableMeans(before, tried, now, cs, sub[0]);
    EligibleIs(before, tried, now, sub[0]);
  }

  lemma EligibleIs(backends: map<Id, Backend>, tried: set<Id>, now: int, c: Candidate)
    ensures Eligible(backends, tried, now, c) <==>
              && c.id !in tried
              && (c.id in backends ==> !backends[c.id].probing && (backends[c.id].until.Some? ==> backends[c.id].until.value <= now))
  {
  }

  lemma SamePick(sub: seq<Candidate>, k: int, i: int)
    requires Distinct(sub) && 0 <= k < |sub| && 0 <= i < |sub|
    ensures sub[k] == sub[i] <==> k == i
  {
  }

  /** Any run of choices between the same candidates follows the rotation among them, whenever the choices are made. */
  lemma {:induction false} ChoicesRotate(cs: seq<Candidate>, sub: seq<Candidate>, states: seq<map<Id, Backend>>, picks: seq<int>,
                                         tried: seq<set<Id>>, times: seq<int>, i: nat)
    requires Distinct(cs) && Distinct(sub) && Choices(cs, sub, states, picks, tried, times) && i < |sub|
    ensures var c, n := Values(states[0], sub), |picks|;
            Values(states[n], sub) == After(c, Shares(sub), n) && Count(cs, picks, sub[i]) == Picks(c, Shares(sub), n, i)
    decreases |picks|
  {
    hide Selects, Values, Shares, Turn, Pick, Distinct, Usable;
    var n := |picks|;
    if n > 0 {
      ChoicesRotate(cs, sub, states[..n], picks[..n - 1], tried[..n - 1], times[..n - 1], i);
      ChoiceTurns(cs, sub, states[n - 1], states[n], tried[n - 1], times[n - 1], picks[n - 1]);
      SamePick(sub, Pick(Values(states[n - 1], sub), Shares(sub)), i);
    }
  }

  /** No candidate is chosen ahead of its share, whatever others are out. */
  lemma ChoicesAreFair(cs: seq<Candidate>, sub: seq<Candidate>, states: seq<map<Id, Backend>>, picks: seq<int>, tried: seq<set<Id>>, times: seq<int>, i: nat)
    requires Distinct(cs) && Distinct(sub) && Choices(cs, sub, states, picks, tried, times) && i < |sub|
    requires Settled(Values(states[0], sub), Shares(sub))
    ensures Count(cs, picks, sub[i]) * Total(Shares(sub)) < Values(states[0], sub)[i] + |picks| * sub[i].Share() + Total(Shares(sub))
    ensures Settled(Values(states[|picks|], sub), Shares(sub))
  {
    var c, w, n := Values(states[0], sub), Shares(sub), |picks|;
    ChoicesRotate(cs, sub, states, picks, tried, times, i);
    SharesAreWeights(sub);
    AfterIsSettled(c, w, n);
    AfterCounts(c, w, n, i);
    hide Total, After, Picks, Selects, Count;
  }

  /** No candidate was ever marked as failed. */
  ghost predicate Healthy(backends: map<Id, Backend>, cs: seq<Candidate>) {
    forall c :: c in cs ==> StateOf(backends, c.id) == Backend(StateOf(backends, c.id).current, 0, None, false)
  }

  lemma {:induction false} HealthyIsUsable(backends: map<Id, Backend>, cs: seq<Candidate>, now: int)
    requires Healthy(backends, cs)
    ensures Usable(backends, {}, now, cs) == cs
  {
    if cs != [] {
      var front, last := cs[..|cs| - 1], cs[|cs| - 1];
      assert last in cs && forall c :: c in front ==> c in cs;
      HealthyIsUsable(backends, front, now);
    }
  }

  lemma ChoiceKeepsHealthy(before: map<Id, Backend>, after: map<Id, Backend>, cs: seq<Candidate>, now: int, best: int)
    requires Healthy(before, cs) && Selects(before, after, cs, {}, now, best)
    ensures Healthy(after, cs)
  {
    hide Eligible, Turns, Distinct, Usable;
  }

  /** Choices from a new binding, nobody tried before: `states[k]` is the binding before choice `k`. */
  ghost predicate FreshChoices(cs: seq<Candidate>, states: seq<map<Id, Backend>>, picks: seq<int>, times: seq<int>) {
    && |states| == |picks| + 1 && |times| == |picks| && states[0] == map[]
    && forall k :: 0 <= k < |picks| ==> Selects(states[k], states[k + 1], cs, {}, times[k], picks[k])
  }

  lemma {:induction false} FreshIsHealthy(cs: seq<Candidate>, states: seq<map<Id, Backend>>, picks: seq<int>, times: seq<int>, k: nat)
    requires FreshChoices(cs, states, picks, times) && k <= |picks|
    ensures Healthy(states[k], cs)
  {
    hide Selects;
    if k > 0 {
      FreshIsHealthy(cs, states, picks, times, k - 1);
      ChoiceKeepsHealthy(states[k - 1], states[k], cs, times[k - 1], picks[k - 1]);
    }
  }

  /** From a new binding, any window of as many choices as the weights add up to picks each candidate by its weight. */
  lemma EveryWindowIsFair(cs: seq<Candidate>, states: seq<map<Id, Backend>>, picks: seq<int>, times: seq<int>, m: nat, i: nat)
    requires Distinct(cs) && FreshChoices(cs, states, picks, times) && i < |cs|
    requires m <= |picks| && |picks| - m == Total(Shares(cs))
    ensures Count(cs, picks[m..], cs[i]) == if cs[i].weight < 1 then 1 else cs[i].weight
  {
    hide Selects, Values, Shares, Healthy, Total, Count, After, Picks, Distinct, Usable;
    var tried: seq<set<Id>> := seq(|picks|, _ => {});
    forall k | 0 <= k < |picks| ensures Usable(states[k], tried[k], times[k], cs) == cs && tried[k] == {} {
      FreshIsHealthy(cs, states, picks, times, k);
      HealthyIsUsable(states[k], cs, times[k]);
    }
    var w, z := Shares(cs), Zeros(|cs|);
    assert |w| == |cs| && Values(states[0], cs) == z by { NewValues(cs); }
    assert Choices(cs, cs, states[..m + 1], picks[..m], tried[..m], times[..m]);
    assert Choices(cs, cs, states[m..], picks[m..], tried[m..], times[m..]);
    ChoicesRotate(cs, cs, states[..m + 1], picks[..m], tried[..m], times[..m], i);
    ChoicesRotate(cs, cs, states[m..], picks[m..], tried[m..], times[m..], i);
    assert states[..m + 1][0] == states[0] && states[..m + 1][m] == states[m] && states[m..][0] == states[m];
    EveryCycleIsFair(cs, m, i);
  }

  lemma NewValues(cs: seq<Candidate>)
    ensures Values(map[], cs) == Zeros(|cs|) && |Shares(cs)| == |cs|
  {
  }

  /** Over `Total(Shares(cs))` choices with everything available every candidate is chosen exactly by its weight. */
  lemma EveryCycleIsFair(cs: seq<Candidate>, m: nat, i: nat)
    requires i < |cs|
    ensures var w := Shares(cs);
            && 0 <= Total(w) && w != []
            && var c := After(Zeros(|cs|), w, m); After(c, w, Total(w)) == c && Picks(c, w, Total(w), i) == cs[i].Share()
  {
    SharesAreWeights(cs);
    TotalIsPositive(Shares(cs));
    hide After, Picks, Total;
    AnyCycle(Shares(cs), m, i);
  }
}
