/** Smooth weighted round robin on values: everybody gains its weight, the leader pays the total. */
module Rotation {
  import opened Rates

  function Total(x: seq<int>): int {
    if x == [] then 0 else Total(x[..|x| - 1]) + x[|x| - 1]
  }

  function Gain(c: seq<int>, w: seq<int>): (r: seq<int>)
    requires |c| == |w|
    ensures |r| == |c|
  {
    seq(|c|, i requires 0 <= i < |c| => c[i] + w[i])
  }

  /** The first position of the largest value. */
  function Leader(x: seq<int>): (k: nat)
    requires x != []
    ensures k < |x|
  {
    if |x| == 1 then 0
    else
      var k := Leader(x[..|x| - 1]);
      if x[|x| - 1] > x[k] then |x| - 1 else k
  }

  function Pick(c: seq<int>, w: seq<int>): (k: nat)
    requires |c| == |w| && c != []
    ensures k < |c|
  {
    Leader(Gain(c, w))
  }

  function Turn(c: seq<int>, w: seq<int>): (r: seq<int>)
    requires |c| == |w| && c != []
    ensures |r| == |c|
  {
    var g, k := Gain(c, w), Pick(c, w);
    g[k := g[k] - Total(w)]
  }

  /** The values after `n` turns. */
  function After(c: seq<int>, w: seq<int>, n: nat): (r: seq<int>)
    requires |c| == |w| && c != []
    ensures |r| == |c|
  {
    if n == 0 then c else Turn(After(c, w, n - 1), w)
  }

  /** How often position `i` was chosen in `n` turns. */
  function Picks(c: seq<int>, w: seq<int>, n: nat, i: nat): nat
    requires |c| == |w| && c != []
  {
    if n == 0 then 0 else Picks(c, w, n - 1, i) + (if Pick(After(c, w, n - 1), w) == i then 1 else 0)
  }

  // ----- Sums -----

  lemma {:induction false} LeaderIsLargest(x: seq<int>, i: nat)
    requires i < |x|
    ensures x[i] <= x[Leader(x)] && (i < Leader(x) ==> x[i] < x[Leader(x)])
  {
    if |x| > 1 {
      var front := x[..|x| - 1];
      LeaderIsLargest(front, if i < |x| - 1 then i else Leader(front));
    }
  }

  lemma {:induction false} TotalGain(c: seq<int>, w: seq<int>)
    requires |c| == |w|
    ensures Total(Gain(c, w)) == Total(c) + Total(w)
  {
    if c != [] {
      var n := |c| - 1;
      TotalGain(c[..n], w[..n]);
      assert Gain(c, w)[..n] == Gain(c[..n], w[..n]);
    }
  }

  lemma {:induction false} TotalPut(x: seq<int>, k: nat, v: int)
    requires k < |x|
    ensures Total(x[k := v]) == Total(x) - x[k] + v
  {
    var n := |x| - 1;
    if k == n {
      assert x[k := v][..n] == x[..n];
    } else {
      assert x[k := v][..n] == x[..n][k := v];
      TotalPut(x[..n], k, v);
    }
  }

  lemma {:induction false} TotalBounded(x: seq<int>, m: int)
    requires forall i :: 0 <= i < |x| ==> x[i] <= m
    ensures Total(x) <= m * |x|
  {
    if x != [] {
      TotalBounded(x[..|x| - 1], m);
    }
  }

  /** Whatever is chosen, the values keep their sum. */
  lemma TurnKeepsTotal(c: seq<int>, w: seq<int>)
    requires |c| == |w| && c != []
    ensures Total(Turn(c, w)) == Total(c)
  {
    hide Total, Leader, Gain;
    TotalGain(c, w);
    TotalPut(Gain(c, w), Pick(c, w), Gain(c, w)[Pick(c, w)] - Total(w));
  }

  // ----- The bound -----

  ghost predicate Weights(w: seq<int>) {
    w != [] && forall i :: 0 <= i < |w| ==> 1 <= w[i]
  }

  ghost predicate Settled(c: seq<int>, w: seq<int>) {
    |c| == |w| && Total(c) == 0 && forall i :: 0 <= i < |c| ==> -Total(w) < c[i]
  }

  lemma {:induction false} TotalIsPositive(w: seq<int>)
    requires Weights(w)
    ensures |w| <= Total(w)
  {
    if |w| > 1 {
      TotalIsPositive(w[..|w| - 1]);
    }
  }

  /** The leader is above zero, so paying the total leaves it above the floor. */
  lemma TurnStaysSettled(c: seq<int>, w: seq<int>)
    requires Weights(w) && Settled(c, w)
    ensures Settled(Turn(c, w), w)
  {
    var g := Gain(c, w);
    TurnKeepsTotal(c, w);
    TotalGain(c, w);
    TotalIsPositive(w);
    forall i | 0 <= i < |g| ensures g[i] <= g[Leader(g)] { LeaderIsLargest(g, i); }
    if g[Leader(g)] <= 0 {
      TotalBounded(g, 0);
    }
    hide Leader, Total;
  }

  lemma {:induction false} AfterIsSettled(c: seq<int>, w: seq<int>, n: nat)
    requires Weights(w) && Settled(c, w)
    ensures Settled(After(c, w, n), w)
  {
    hide Settled, Turn, Weights;
    assert |c| == |w| && w != [] by { SettledSize(c, w); }
    if n > 0 {
      AfterIsSettled(c, w, n - 1);
      TurnStaysSettled(After(c, w, n - 1), w);
    }
  }

  lemma SettledSize(c: seq<int>, w: seq<int>)
    requires Weights(w) && Settled(c, w)
    ensures |c| == |w| && w != []
  {
  }

  lemma {:induction false} AfterCounts(c: seq<int>, w: seq<int>, n: nat, i: nat)
    requires |c| == |w| && i < |c|
    ensures After(c, w, n)[i] == c[i] + n * w[i] - Picks(c, w, n, i) * Total(w)
  {
    if n > 0 {
      hide Pick, Total;
      AfterCounts(c, w, n - 1, i);
      assert n * w[i] == (n - 1) * w[i] + w[i];
      var p := Picks(c, w, n - 1, i);
      assert (p + 1) * Total(w) == p * Total(w) + Total(w);
    }
  }

  /** How often each position was chosen. */
  function Tally(c: seq<int>, w: seq<int>, n: nat): (t: seq<int>)
    requires |c| == |w| && c != []
    ensures |t| == |c| && forall i :: 0 <= i < |c| ==> t[i] == Picks(c, w, n, i)
  {
    seq(|c|, i requires 0 <= i < |c| => Picks(c, w, n, i))
  }

  lemma TallyStep(c: seq<int>, w: seq<int>, n: nat)
    requires |c| == |w| && c != [] && n > 0
    ensures var t, k := Tally(c, w, n - 1), Pick(After(c, w, n - 1), w);
            Tally(c, w, n) == t[k := t[k] + 1]
  {
  }

  lemma {:induction false} PicksAddUp(c: seq<int>, w: seq<int>, n: nat)
    requires |c| == |w| && c != []
    ensures Total(Tally(c, w, n)) == n
    decreases n
  {
    if n == 0 {
      AllZero(Tally(c, w, n));
    } else {
      hide Picks, After, Total;
      PicksAddUp(c, w, n - 1);
      TallyStep(c, w, n);
      var t, k := Tally(c, w, n - 1), Pick(After(c, w, n - 1), w);
      TotalPut(t, k, t[k] + 1);
    }
  }

  lemma {:induction false} AllZero(x: seq<int>)
    requires forall i :: 0 <= i < |x| ==> x[i] == 0
    ensures Total(x) == 0
  {
    if x != [] {
      AllZero(x[..|x| - 1]);
    }
  }

  // ----- Fairness -----

  function Zeros(n: nat): (z: seq<int>)
    ensures |z| == n
  {
    seq(n, _ => 0)
  }

  lemma ZerosAreSettled(w: seq<int>)
    requires Weights(w)
    ensures Settled(Zeros(|w|), w)
  {
    AllZero(Zeros(|w|));
    TotalIsPositive(w);
  }

  /** In any number of turns nobody is chosen more than its share, rounded up. */
  lemma FairShare(w: seq<int>, n: nat, i: nat)
    requires Weights(w) && i < |w|
    ensures Picks(Zeros(|w|), w, n, i) <= Priced(n, w[i], Total(w))
  {
    var z := Zeros(|w|);
    ZerosAreSettled(w);
    AfterIsSettled(z, w, n);
    AfterCounts(z, w, n, i);
    TotalIsPositive(w);
    ChargeIsCeiling(n, w[i], Total(w));
    hide Total, Picks, After;
    MulLess(Picks(z, w, n, i), Priced(n, w[i], Total(w)), Total(w));
  }

  lemma {:induction false} EqualTotals(a: seq<int>, b: seq<int>)
    requires |a| == |b| && Total(a) == Total(b) && forall i :: 0 <= i < |a| ==> a[i] <= b[i]
    ensures a == b
  {
    if a != [] {
      var n := |a| - 1;
      TotalMonotone(a[..n], b[..n]);
      EqualTotals(a[..n], b[..n]);
      assert a == a[..n] + [a[n]] && b == b[..n] + [b[n]];
    }
  }

  lemma {:induction false} TotalMonotone(a: seq<int>, b: seq<int>)
    requires |a| == |b| && forall i :: 0 <= i < |a| ==> a[i] <= b[i]
    ensures Total(a) <= Total(b)
  {
    if a != [] {
      TotalMonotone(a[..|a| - 1], b[..|a| - 1]);
    }
  }

  /** A full cycle from the start chooses everybody exactly by weight. */
  lemma FullCycle(w: seq<int>, i: nat)
    requires Weights(w) && i < |w|
    ensures Total(w) >= 0
    ensures Picks(Zeros(|w|), w, Total(w), i) == w[i]
    ensures After(Zeros(|w|), w, Total(w)) == Zeros(|w|)
  {
    hide Picks, After, Total, Priced;
    TotalIsPositive(w);
    CycleTally(w);
    var z, n := Zeros(|w|), Total(w);
    forall j | 0 <= j < |w| ensures After(z, w, n)[j] == z[j] {
      AfterCounts(z, w, n, j);
      assert Tally(z, w, n)[j] == w[j];
    }
  }

  lemma CycleTally(w: seq<int>)
    requires Weights(w) && 0 <= Total(w)
    ensures Tally(Zeros(|w|), w, Total(w)) == w
  {
    hide Picks, After, Total, Priced;
    var z, n := Zeros(|w|), Total(w);
    var t := Tally(z, w, n);
    TotalIsPositive(w);
    forall j | 0 <= j < |w| ensures t[j] <= w[j] {
      FairShare(w, n, j);
      ExactShare(w[j], n);
    }
    PicksAddUp(z, w, n);
    EqualTotals(t, w);
  }

  lemma ExactShare(v: int, n: int)
    requires n > 0
    ensures Priced(n, v, n) == v
  {
    ChargeIsCeiling(n, v, n);
    MulLess(v, Priced(n, v, n), n);
    MulLess(Priced(n, v, n), v, n);
  }

  lemma {:induction false} AfterAdds(c: seq<int>, w: seq<int>, m: nat, n: nat)
    requires |c| == |w| && c != []
    ensures After(After(c, w, m), w, n) == After(c, w, m + n)
    decreases n
  {
    hide Turn;
    if n > 0 {
      AfterAdds(c, w, m, n - 1);
    }
  }

  /** Any window of that many turns, wherever it starts, chooses everybody exactly by weight and comes back. */
  lemma AnyCycle(w: seq<int>, m: nat, i: nat)
    requires Weights(w) && i < |w| && Total(w) >= 0
    ensures var c := After(Zeros(|w|), w, m);
            After(c, w, Total(w)) == c && Picks(c, w, Total(w), i) == w[i]
  {
    var z, n := Zeros(|w|), Total(w);
    var c := After(z, w, m);
    TotalIsPositive(w);
    FullCycle(w, i);
    AfterAdds(z, w, m, n);
    AfterAdds(z, w, n, m);
    AfterCounts(c, w, n, i);
    var p := Picks(c, w, n, i);
    hide Picks, After, Total;
    assert n * w[i] == p * n;
    MulLess(w[i], p, n);
    MulLess(p, w[i], n);
  }
}
