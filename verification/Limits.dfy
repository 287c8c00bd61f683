/** Per-account limits on one Agent: a token bucket for bytes and slots for connections and addresses. */
module Limits {
  import opened AgentTypes
  import opened Sums

  // ----- The bucket -----

  /** A tenth of a second's worth, within bounds. */
  function Burst(rate: int): real {
    if rate == 0 then 0.0
    else
      var most := Max(rate / 10, 65535);
      (if most < 1_048_576 then most else 1_048_576) as real
  }

  /** `updated` is absent until the bucket is first used; times are in seconds. */
  datatype Bucket = Bucket(tokens: real, updated: Option<real>)

  function MinReal(a: real, b: real): real {
    if a < b then a else b
  }

  /** What a rate earns in some time. */
  function Earned(time: real, rate: int): real {
    time * rate as real
  }

  lemma EarnedAdds(a: real, b: real, rate: int)
    ensures Earned(a + b, rate) == Earned(a, rate) + Earned(b, rate)
  {
  }

  lemma EarnedIsNatural(a: real, rate: int)
    requires 0.0 <= a && 0 <= rate
    ensures 0.0 <= Earned(a, rate)
  {
  }

  function Refill(b: Bucket, rate: int, now: real): Bucket {
    if b.updated.None? then Bucket(Burst(rate), Some(now))
    else
      var elapsed := if now > b.updated.value then now - b.updated.value else 0.0;
      Bucket(MinReal(Burst(rate), b.tokens + Earned(elapsed, rate)), Some(now))
  }

  /** A bucket with the rate in force; a rate of zero grants everything without counting it. */
  datatype Meter = Meter(bucket: Bucket, rate: nat)

  /** A request for bytes, or a change of the rate. */
  datatype Act = Ask(bytes: nat) | Limit(rate: nat)
  datatype Timed = Timed(at: real, act: Act)

  /** One request: refill, then grant it if the tokens suffice. */
  function Take(m: Meter, n: nat, now: real): (Meter, bool) {
    if m.rate == 0 then (m, true)
    else
      var b := Refill(m.bucket, m.rate, now);
      if b.tokens >= n as real then (m.(bucket := b.(tokens := b.tokens - n as real)), true) else (m.(bucket := b), false)
  }

  /** A new rate settles the tokens at the old one first. */
  function Relimit(m: Meter, rate: nat, now: real): Meter {
    var b := if m.bucket.updated.Some? then Refill(m.bucket, m.rate, now) else m.bucket;
    Meter(Refill(b, rate, now), rate)
  }

  function Step(m: Meter, t: Timed): Meter {
    match t.act
    case Ask(n) => Take(m, n, t.at).0
    case Limit(rate) => Relimit(m, rate, t.at)
  }

  /** The bytes that a step grants under a limit. */
  function Grant(m: Meter, t: Timed): real {
    if t.act.Ask? && m.rate != 0 && Take(m, t.act.bytes, t.at).1 then t.act.bytes as real else 0.0
  }

  function Run(m: Meter, acts: seq<Timed>): Meter {
    if acts == [] then m else Step(Run(m, acts[..|acts| - 1]), acts[|acts| - 1])
  }

  /** Bytes granted under a limit in a run. */
  function GrantedIn(m: Meter, acts: seq<Timed>): real {
    if acts == [] then 0.0
    else GrantedIn(m, acts[..|acts| - 1]) + Grant(Run(m, acts[..|acts| - 1]), acts[|acts| - 1])
  }

  function LastTime(from: real, acts: seq<Timed>): real {
    if acts == [] then from else acts[|acts| - 1].at
  }

  /** What the rates in force earn in a run, each for as long as it holds. */
  function EarnedIn(m: Meter, from: real, acts: seq<Timed>): real {
    if acts == [] then 0.0
    else
      var front := acts[..|acts| - 1];
      EarnedIn(m, from, front) + Earned(acts[|acts| - 1].at - LastTime(from, front), Run(m, front).rate)
  }

  ghost predicate Monotone(from: real, acts: seq<Timed>) {
    && (forall i :: 0 <= i < |acts| ==> from <= acts[i].at)
    && (forall i, j :: 0 <= i < j < |acts| ==> acts[i].at <= acts[j].at)
  }

  /** The tokens never exceed the burst of the rate in force and are never negative. */
  ghost predicate Filled(m: Meter) {
    m.bucket.updated.Some? ==> 0.0 <= m.bucket.tokens <= Burst(m.rate)
  }

  lemma RefillIsBounded(b: Bucket, rate: nat, now: real)
    requires b.updated.Some? ==> 0.0 <= b.tokens
    ensures var r := Refill(b, rate, now); r.updated == Some(now) && 0.0 <= r.tokens <= Burst(rate)
    ensures b.updated.Some? && b.updated.value <= now ==> Refill(b, rate, now).tokens <= b.tokens + Earned(now - b.updated.value, rate)
  {
    if b.updated.Some? && b.updated.value <= now {
      EarnedIsNatural(now - b.updated.value, rate);
    }
    EarnedIsNatural(0.0, rate);
    hide Earned;
  }

  /** No step, whatever the clock does, overfills the bucket or empties it below zero. */
  lemma StepKeepsFilled(m: Meter, t: Timed)
    requires Filled(m)
    ensures Filled(Step(m, t)) && (m.bucket.updated.Some? ==> Step(m, t).bucket.updated.Some?)
  {
    hide Burst, Refill, Earned;
    RefillIsBounded(m.bucket, m.rate, t.at);
    if t.act.Limit? {
      RefillIsBounded(if m.bucket.updated.Some? then Refill(m.bucket, m.rate, t.at) else m.bucket, t.act.rate, t.at);
    }
  }

  /** The bucket was last brought up to date at some time before, unless nothing is counted. */
  ghost predicate Current(m: Meter, at: real) {
    Filled(m) && m.bucket.updated.Some? && m.bucket.updated.value <= at && (m.rate != 0 ==> m.bucket.updated.value == at)
  }

  lemma SameInstant(b: Bucket, rate: nat, now: real)
    requires b.updated == Some(now) && 0.0 <= b.tokens
    ensures Refill(b, rate, now).tokens <= b.tokens
  {
    assert Earned(0.0, rate) == 0.0;
  }

  /** The burst is a tenth of a second's worth, at least one packet and at most 1 MiB; no rate has no burst. */
  lemma BurstIs(rate: nat)
    ensures rate == 0 ==> Burst(rate) == 0.0
    ensures 0 < rate < 655_360 ==> Burst(rate) == 65_535.0
    ensures 655_360 <= rate < 10_485_760 ==> Burst(rate) == (rate / 10) as real
    ensures 10_485_760 <= rate ==> Burst(rate) == 1_048_576.0
  {
  }

  /**
   * A change of limits keeps what was earned at the old rate, up to the old burst, and cuts it to the new one; it neither
   * adds tokens nor drops more than that.
   */
  lemma RelimitIs(m: Meter, rate: nat, now: real)
    ensures var before, after := m.bucket, Relimit(m, rate, now).bucket;
            && Relimit(m, rate, now).rate == rate && after.updated == Some(now)
            && (before.updated.None? ==> after.tokens == Burst(rate))
            && (before.updated.Some? ==>
                  var earned := before.tokens + (if before.updated.value < now then (now - before.updated.value) * m.rate as real else 0.0);
                  var kept := if Burst(m.rate) < earned then Burst(m.rate) else earned;
                  after.tokens == if Burst(rate) < kept then Burst(rate) else kept)
  {
    hide Burst, Refill;
    if m.bucket.updated.Some? {
      RefillIs(m.bucket, m.rate, now);
      RefillIs(Refill(m.bucket, m.rate, now), rate, now);
    } else {
      FirstRefill(m.bucket, rate, now);
    }
  }

  lemma FirstRefill(b: Bucket, rate: nat, now: real)
    requires b.updated.None?
    ensures Refill(b, rate, now) == Bucket(Burst(rate), Some(now))
  {
  }

  lemma RefillIs(b: Bucket, rate: nat, now: real)
    requires b.updated.Some?
    ensures Refill(b, rate, now).updated == Some(now)
    ensures var earned := b.tokens + (if b.updated.value < now then (now - b.updated.value) * rate as real else 0.0);
            Refill(b, rate, now).tokens == if Burst(rate) < earned then Burst(rate) else earned
  {
    hide Burst;
    assert Earned(0.0, rate) == 0.0;
    assert b.updated.value < now ==> Earned(now - b.updated.value, rate) == (now - b.updated.value) * rate as real;
    hide Earned;
  }

  /** A step grants and keeps no more than the tokens before it and what was earned meanwhile. */
  lemma StepIsCovered(m: Meter, from: real, t: Timed)
    requires Current(m, from) && from <= t.at
    ensures Current(Step(m, t), t.at)
    ensures Grant(m, t) + Step(m, t).bucket.tokens <= m.bucket.tokens + Earned(t.at - from, m.rate)
  {
    EarnedIsNatural(t.at - from, m.rate);
    NothingIsFree(t.at - m.bucket.updated.value);
    hide Burst, Refill, Earned;
    RefillIsBounded(m.bucket, m.rate, t.at);
    if t.act.Limit? {
      var b := Refill(m.bucket, m.rate, t.at);
      RefillIsBounded(b, t.act.rate, t.at);
      SameInstant(b, t.act.rate, t.at);
    }
  }

  lemma NothingIsFree(time: real)
    ensures Earned(time, 0) == 0.0
  {
  }

  /** Tokens and grants together never outrun the rates, however often the limit changes. */
  lemma {:induction false} BucketIsConserved(m: Meter, from: real, acts: seq<Timed>)
    requires Current(m, from) && Monotone(from, acts)
    ensures var end := Run(m, acts);
            && Current(end, LastTime(from, acts)) && 0.0 <= end.bucket.tokens <= Burst(end.rate)
            && GrantedIn(m, acts) + end.bucket.tokens <= m.bucket.tokens + EarnedIn(m, from, acts)
  {
    hide Burst, Step, Grant, Earned;
    if acts != [] {
      var front, last := acts[..|acts| - 1], acts[|acts| - 1];
      BucketIsConserved(m, from, front);
      StepIsCovered(Run(m, front), LastTime(from, front), last);
    }
  }

  // ----- A bound by the highest rate -----

  ghost predicate Within(m: Meter, acts: seq<Timed>, rate: nat) {
    m.rate <= rate && forall t :: t in acts && t.act.Limit? ==> t.act.rate <= rate
  }

  lemma {:induction false} RatesStayWithin(m: Meter, acts: seq<Timed>, rate: nat)
    requires Within(m, acts, rate)
    ensures Run(m, acts).rate <= rate
  {
    hide Refill;
    if acts != [] {
      RatesStayWithin(m, acts[..|acts| - 1], rate);
    }
  }

  lemma EarnedIsMonotone(a: real, low: nat, high: nat)
    requires 0.0 <= a && low <= high
    ensures Earned(a, low) <= Earned(a, high)
  {
    assert a * (high as real - low as real) >= 0.0;
  }

  lemma {:induction false} EarnedIsWithin(m: Meter, from: real, acts: seq<Timed>, rate: nat)
    requires Monotone(from, acts) && Within(m, acts, rate)
    ensures EarnedIn(m, from, acts) <= Earned(LastTime(from, acts) - from, rate)
  {
    if acts == [] {
      EarnedIsNatural(0.0, rate);
    } else {
      hide Earned, Run;
      var front, last := acts[..|acts| - 1], acts[|acts| - 1];
      var before := LastTime(from, front);
      EarnedIsWithin(m, from, front, rate);
      RatesStayWithin(m, front, rate);
      EarnedIsMonotone(last.at - before, Run(m, front).rate, rate);
      EarnedAdds(before - from, last.at - before, rate);
      assert before - from + (last.at - before) == last.at - from;
    }
  }

  lemma BurstIsMonotone(low: nat, high: nat)
    requires low <= high
    ensures Burst(low) <= Burst(high)
  {
  }

  /** The first step of a stretch finds no more than a burst, however long the bucket has rested. */
  lemma FirstStep(m: Meter, t: Timed)
    requires Filled(m) && (m.bucket.updated.None? ==> m.rate != 0) && (m.bucket.updated.Some? ==> m.bucket.updated.value <= t.at)
    ensures Current(Step(m, t), t.at) && Grant(m, t) + Step(m, t).bucket.tokens <= Burst(Max(m.rate, Step(m, t).rate))
  {
    BurstIsMonotone(m.rate, Max(m.rate, Step(m, t).rate));
    BurstIsMonotone(Step(m, t).rate, Max(m.rate, Step(m, t).rate));
    hide Burst, Refill, Earned;
    RefillIsBounded(m.bucket, m.rate, t.at);
    if t.act.Limit? {
      RefillIsBounded(if m.bucket.updated.Some? then Refill(m.bucket, m.rate, t.at) else m.bucket, t.act.rate, t.at);
    }
  }

  lemma {:induction false} AfterFirst(m: Meter, acts: seq<Timed>)
    requires acts != []
    ensures Run(m, acts) == Run(Step(m, acts[0]), acts[1..])
    ensures GrantedIn(m, acts) == Grant(m, acts[0]) + GrantedIn(Step(m, acts[0]), acts[1..])
    decreases |acts|
  {
    hide Step, Grant;
    var front := acts[..|acts| - 1];
    if front == [] {
      assert acts[1..] == [];
    } else {
      AfterFirst(m, front);
      assert acts[1..][..|acts| - 2] == front[1..];
    }
  }

  /**
   * In any stretch of a run, requests and changes of the limit mixed, at most the burst plus the elapsed time at the
   * highest rate is granted under a limit.
   */
  lemma GrantsAreBounded(m: Meter, acts: seq<Timed>, rate: nat)
    requires Filled(m) && (m.bucket.updated.None? ==> m.rate != 0) && acts != []
    requires m.bucket.updated.Some? ==> m.bucket.updated.value <= acts[0].at
    requires Monotone(acts[0].at, acts) && Within(m, acts, rate)
    ensures GrantedIn(m, acts) <= Burst(rate) + Earned(acts[|acts| - 1].at - acts[0].at, rate)
  {
    hide Burst, Earned, GrantedIn, Run, EarnedIn, Grant, Current;
    var next, from := Step(m, acts[0]), acts[0].at;
    FirstStep(m, acts[0]);
    AfterFirst(m, acts);
    assert acts[0] in acts && next.rate <= rate;
    BurstIsMonotone(Max(m.rate, next.rate), rate);
    BucketIsConserved(next, from, acts[1..]);
    EarnedIsWithin(next, from, acts[1..], rate);
    assert LastTime(from, acts[1..]) == acts[|acts| - 1].at;
  }

  /** A request that fits the burst is granted once the suggested delay has passed. */
  lemma DelaySuffices(m: Meter, n: nat, now: real, later: real)
    requires m.rate != 0 && n as real <= Burst(m.rate) && !Take(m, n, now).1
    requires now + Shortfall(m, n, now) <= later
    ensures now <= later && Take(Take(m, n, now).0, n, later).1
  {
    var b := Refill(m.bucket, m.rate, now);
    var missing := n as real - b.tokens;
    assert Earned(missing / m.rate as real, m.rate) == missing;
    assert 0.0 <= missing / m.rate as real;
    EarnedAdds(Shortfall(m, n, now), later - now - Shortfall(m, n, now), m.rate);
    EarnedIsNatural(later - now - Shortfall(m, n, now), m.rate);
    hide Earned, Burst;
  }

  /** Waiting helps a refused request if and only if it fits the burst, and every packet does. */
  lemma WaitingHelps(m: Meter, n: nat, now: real)
    requires m.rate != 0 && !Take(m, n, now).1
    ensures (exists later :: now <= later && Take(Take(m, n, now).0, n, later).1) <==> n as real <= Burst(m.rate)
    ensures n <= 65535 ==> n as real <= Burst(m.rate)
  {
    if n as real <= Burst(m.rate) {
      var later := now + Shortfall(m, n, now);
      DelaySuffices(m, n, now, later);
      assert Take(Take(m, n, now).0, n, later).1;
    }
  }

  /** The time in which the missing tokens are earned. */
  function Shortfall(m: Meter, n: nat, now: real): real
    requires m.rate != 0
  {
    (n as real - Refill(m.bucket, m.rate, now).tokens) / m.rate as real
  }

  // ----- Slots -----

  datatype Caps = Caps(connections: int, addresses: int, rate: nat)

  ghost function At(ip: Id): Id -> int {
    (x: Id) => if x == ip then 1 else 0
  }

  ghost function Whole(): int -> int {
    (n: int) => n
  }

  /** Every open connection is counted at its address, and no address is kept without one. */
  ghost predicate Slots(open: map<Id, Id>, ips: map<Id, int>) {
    && |open| == Sum(ips, Whole())
    && (forall ip :: ip in ips ==> 0 < ips[ip])
    && (forall ip :: (if ip in ips then ips[ip] else 0) == Sum(open, At(ip)))
  }

  lemma AcquireKeepsSlots(open: map<Id, Id>, ips: map<Id, int>, handle: Id, ip: Id)
    requires Slots(open, ips) && handle !in open
    ensures Slots(open[handle := ip], ips[ip := (if ip in ips then ips[ip] else 0) + 1])
  {
    forall x ensures Sum(open[handle := ip], At(x)) == Sum(open, At(x)) + (if x == ip then 1 else 0) {
      SumPut(open, At(x), handle, ip);
    }
    SumPut(ips, Whole(), ip, (if ip in ips then ips[ip] else 0) + 1);
  }

  lemma CountDown(ips: map<Id, int>, ip: Id)
    requires ip in ips
    ensures Sum(ips[ip := ips[ip] - 1], Whole()) == Sum(ips, Whole()) - 1
    ensures Sum(ips - {ip}, Whole()) == Sum(ips, Whole()) - ips[ip]
  {
    SumPut(ips, Whole(), ip, ips[ip] - 1);
    SumRemove(ips, Whole(), ip);
  }

  lemma ReleaseKeepsSlots(open: map<Id, Id>, ips: map<Id, int>, handle: Id)
    requires Slots(open, ips) && handle in open
    ensures open[handle] in ips && 0 < ips[open[handle]]
    ensures |open - {handle}| == |open| - 1
    ensures var ip := open[handle];
            Slots(open - {handle}, if ips[ip] == 1 then ips - {ip} else ips[ip := ips[ip] - 1])
  {
    var ip, less := open[handle], open - {handle};
    forall x ensures Sum(less, At(x)) == Sum(open, At(x)) - (if x == ip then 1 else 0) {
      SumRemove(open, At(x), handle);
    }
    OneIsOpen(open, handle);
    assert less.Keys == open.Keys - {handle};
    assert ip in ips;
    CountDown(ips, ip);
  }

  class Pool {
    var caps: Caps
    var connections: int
    var ips: map<Id, int>
    var bucket: Bucket
    /** Connections that hold a slot, by handle. */
    var open: map<Id, Id>

    ghost predicate Valid()
      reads this
    {
      connections == |open| && Slots(open, ips) && Filled(Bytes())
    }

    function Bytes(): Meter
      reads this
    {
      Meter(bucket, caps.rate)
    }

    constructor (caps: Caps)
      ensures Valid() && this.caps == caps && open == map[] && connections == 0
    {
      this.caps, connections, ips, open, bucket := caps, 0, map[], map[], Bucket(0.0, None);
      new;
      SumUnfolds(ips, Whole());
      forall ip ensures Sum(open, At(ip)) == 0 { SumUnfolds(open, At(ip)); }
    }

    /** Take a slot if the account's limits on connections and addresses allow one more. */
    method Acquire(handle: Id, ip: Id) returns (ok: bool)
      requires Valid() && handle !in open
      modifies this`connections, this`ips, this`open
      ensures Valid()
      ensures ok <==> !(0 < caps.connections <= |old(open)|)
                      && !(0 < caps.addresses <= |old(ips)| && Sum(old(open), At(ip)) == 0)
      ensures open == if ok then old(open)[handle := ip] else old(open)
    {
      if 0 < caps.connections <= connections { return false; }
      if 0 < caps.addresses <= |ips| && ip !in ips {
        return false;
      }
      AcquireKeepsSlots(open, ips, handle, ip);
      var n := if ip in ips then ips[ip] else 0;
      connections := connections + 1;
      ips := ips[ip := n + 1];
      open := open[handle := ip];
      ok := true;
    }

    /** Give a slot back; doing so again changes nothing. */
    method Release(handle: Id)
      requires Valid()
      modifies this`connections, this`ips, this`open
      ensures Valid() && open == old(open) - {handle}
    {
      hide Slots;
      if handle !in open {
        NothingToRemove(open, handle);
        return;
      }
      ReleaseKeepsSlots(open, ips, handle);
      var ip := open[handle];
      connections := connections - 1;
      ips := if ips[ip] == 1 then ips - {ip} else ips[ip := ips[ip] - 1];
      open := open - {handle};
    }

    /** Pay for bytes from the bucket, or say how long to wait. */
    method TakeBytes(n: nat, now: real) returns (ok: bool, delay: real)
      requires Valid()
      modifies this`bucket
      ensures Valid() && Bytes() == Step(old(Bytes()), Timed(now, Ask(n))) && ok == Take(old(Bytes()), n, now).1
      ensures !ok ==> caps.rate != 0 && delay == (if Shortfall(old(Bytes()), n, now) < 0.001 then 0.001 else Shortfall(old(Bytes()), n, now))
    {
      hide Slots, Burst, Earned;
      StepKeepsFilled(Bytes(), Timed(now, Ask(n)));
      ok, delay := true, 0.0;
      if caps.rate == 0 { return; }
      bucket := Refill(bucket, caps.rate, now);
      if bucket.tokens >= n as real {
        bucket := bucket.(tokens := bucket.tokens - n as real);
      } else {
        ok, delay := false, (n as real - bucket.tokens) / caps.rate as real;
        delay := if delay < 0.001 then 0.001 else delay;
      }
    }

    /** New limits settle the tokens at the old rate first and do not refill the burst; the first limits do. */
    method Configure(next: Caps, now: real)
      requires Valid()
      modifies this`caps, this`bucket
      ensures Valid() && caps == next && Bytes() == Step(old(Bytes()), Timed(now, Limit(next.rate)))
      ensures old(bucket).updated.None? ==> bucket.tokens == Burst(next.rate)
      ensures old(bucket).updated.Some? ==>
                var earned := old(bucket).tokens + (if old(bucket).updated.value < now then (now - old(bucket).updated.value) * old(caps).rate as real else 0.0);
                var kept := if Burst(old(caps).rate) < earned then Burst(old(caps).rate) else earned;
                bucket.tokens == if Burst(next.rate) < kept then Burst(next.rate) else kept
    {
      hide Slots, Burst;
      StepKeepsFilled(Bytes(), Timed(now, Limit(next.rate)));
      RelimitIs(Bytes(), next.rate, now);
      if bucket.updated.Some? {
        bucket := Refill(bucket, caps.rate, now);
      }
      caps := next;
      bucket := Refill(bucket, caps.rate, now);
    }
  }

  lemma NothingToRemove(open: map<Id, Id>, handle: Id)
    requires handle !in open
    ensures open - {handle} == open
  {
  }

  lemma OneIsOpen(open: map<Id, Id>, handle: Id)
    requires handle in open
    ensures 1 <= Sum(open, At(open[handle]))
  {
    SumRemove(open, At(open[handle]), handle);
    SumNonNegative(open - {handle}, At(open[handle]));
  }
}
