/** Where the money in a wallet came from and where it went: funding sources, drawn oldest first and restorable. */
module WalletFunds {
  import opened AgentTypes
  import opened Sums

  /** What a ledger entry refers to. */
  datatype Reference = Payment(order: Id) | Purchase(id: Id) | Hold(refund: Id) | Entry(id: Id)

  /** A source is named after the entry that credited it; older balances and releases get names of their own. */
  datatype SourceId = Credit(reference: Reference) | Legacy | Release(reference: Reference)

  datatype Source = Source(order: Option<Id>, amount: int, remaining: int)

  datatype Allocation = Allocation(reference: Reference, source: SourceId, amount: int, restored: int)
  {
    function Open(): int {
      amount - restored
    }
  }

  /** The sources of one user in the order of their creation, and what was drawn from them. */
  datatype Funds = Funds(sources: map<SourceId, Source>, order: seq<SourceId>, drawn: map<(Reference, SourceId), Allocation>)

  // ----- Totals -----

  /** A refund of a known order may only draw on that order's own money. */
  predicate Fits(only: Option<Id>, s: Source) {
    only.None? || s.order == only
  }

  ghost function LeftIn(only: Option<Id>): Source -> int {
    (s: Source) => if Fits(only, s) then s.remaining else 0
  }

  ghost function Available(sources: map<SourceId, Source>, only: Option<Id>): int {
    Sum(sources, LeftIn(only))
  }

  ghost function OwedTo(id: SourceId): Allocation -> int {
    (a: Allocation) => if a.source == id then a.Open() else 0
  }

  ghost function Owed(drawn: map<(Reference, SourceId), Allocation>, id: SourceId): int {
    Sum(drawn, OwedTo(id))
  }

  ghost function OpenFor(r: Reference): Allocation -> int {
    (a: Allocation) => if a.reference == r then a.Open() else 0
  }

  ghost function Restorable(drawn: map<(Reference, SourceId), Allocation>, r: Reference): int {
    Sum(drawn, OpenFor(r))
  }

  // ----- The invariant -----

  ghost predicate Listed(f: Funds) {
    && (forall i, j :: 0 <= i < j < |f.order| ==> f.order[i] != f.order[j])
    && (forall id :: id in f.order <==> id in f.sources)
  }

  ghost predicate SourcesOk(sources: map<SourceId, Source>, drawn: map<(Reference, SourceId), Allocation>) {
    forall id :: id in sources ==> 0 <= sources[id].remaining && sources[id].amount == sources[id].remaining + Owed(drawn, id)
  }

  ghost predicate DrawnOk(sources: map<SourceId, Source>, drawn: map<(Reference, SourceId), Allocation>) {
    forall k :: k in drawn ==>
      drawn[k].reference == k.0 && drawn[k].source == k.1 && k.1 in sources && 0 <= drawn[k].restored <= drawn[k].amount
  }

  ghost predicate FundsOk(f: Funds) {
    Listed(f) && SourcesOk(f.sources, f.drawn) && DrawnOk(f.sources, f.drawn)
  }

  lemma AvailableMoves(sources: map<SourceId, Source>, id: SourceId, s: Source, only: Option<Id>)
    ensures Available(sources[id := s], only)
         == Available(sources, only) + LeftIn(only)(s) - (if id in sources then LeftIn(only)(sources[id]) else 0)
  {
    SumPut(sources, LeftIn(only), id, s);
  }

  lemma OwedMoves(drawn: map<(Reference, SourceId), Allocation>, k: (Reference, SourceId), a: Allocation, id: SourceId)
    ensures Owed(drawn[k := a], id) == Owed(drawn, id) + OwedTo(id)(a) - (if k in drawn then OwedTo(id)(drawn[k]) else 0)
  {
    SumPut(drawn, OwedTo(id), k, a);
  }

  lemma RestorableMoves(drawn: map<(Reference, SourceId), Allocation>, k: (Reference, SourceId), a: Allocation, r: Reference)
    ensures Restorable(drawn[k := a], r) == Restorable(drawn, r) + OpenFor(r)(a) - (if k in drawn then OpenFor(r)(drawn[k]) else 0)
  {
    SumPut(drawn, OpenFor(r), k, a);
  }

  lemma NothingOwed(drawn: map<(Reference, SourceId), Allocation>, id: SourceId)
    requires forall k :: k in drawn ==> drawn[k].source != id
    ensures Owed(drawn, id) == 0
  {
    SumZero(drawn, OwedTo(id));
  }

  // ----- Adding a source -----

  function AddSource(f: Funds, id: SourceId, s: Source): Funds {
    f.(sources := f.sources[id := s], order := f.order + [id])
  }

  lemma AddKeepsOk(f: Funds, id: SourceId, s: Source)
    requires FundsOk(f) && id !in f.sources && 0 <= s.remaining == s.amount
    ensures FundsOk(AddSource(f, id, s))
    ensures Available(AddSource(f, id, s).sources, None) == Available(f.sources, None) + s.amount
  {
    NothingOwed(f.drawn, id);
    AvailableMoves(f.sources, id, s, None);
    hide Owed, Available;
  }

  // ----- Moving money between a source and an allocation -----

  /** `n` bytes of a source pass into an allocation; a negative `n` restores. */
  function Moved(f: Funds, id: SourceId, a: Allocation, n: int): Funds
    requires id in f.sources
  {
    f.(sources := f.sources[id := f.sources[id].(remaining := f.sources[id].remaining - n)],
       drawn := f.drawn[(a.reference, id) := a])
  }

  function OpenAt(f: Funds, r: Reference, id: SourceId): int {
    if (r, id) in f.drawn then f.drawn[(r, id)].Open() else 0
  }

  lemma MoveKeepsSources(f: Funds, id: SourceId, a: Allocation, n: int)
    requires SourcesOk(f.sources, f.drawn) && DrawnOk(f.sources, f.drawn) && id in f.sources && a.source == id
    requires n <= f.sources[id].remaining && a.Open() == OpenAt(f, a.reference, id) + n
    ensures SourcesOk(Moved(f, id, a, n).sources, Moved(f, id, a, n).drawn)
  {
    forall x ensures Owed(Moved(f, id, a, n).drawn, x) == Owed(f.drawn, x) + (if x == id then n else 0) {
      OwedMoves(f.drawn, (a.reference, id), a, x);
    }
    hide Owed;
  }

  /** Money that leaves a source enters an allocation, and back. */
  lemma MoveKeepsOk(f: Funds, id: SourceId, a: Allocation, n: int, only: Option<Id>)
    requires FundsOk(f) && id in f.sources && a.source == id && 0 <= a.restored <= a.amount
    requires n <= f.sources[id].remaining && a.Open() == OpenAt(f, a.reference, id) + n
    ensures FundsOk(Moved(f, id, a, n))
    ensures Fits(only, f.sources[id]) ==> Available(Moved(f, id, a, n).sources, only) == Available(f.sources, only) - n
    ensures Restorable(Moved(f, id, a, n).drawn, a.reference) == Restorable(f.drawn, a.reference) + n
  {
    MoveKeepsSources(f, id, a, n);
    AvailableMoves(f.sources, id, f.sources[id].(remaining := f.sources[id].remaining - n), only);
    RestorableMoves(f.drawn, (a.reference, id), a, a.reference);
    hide Owed, Available, Restorable, SourcesOk;
  }

  // ----- Drawing -----

  /** `g` keeps everything in `f` except what a movement touches. */
  ghost predicate SameShape(f: Funds, g: Funds, r: Reference) {
    && g.order == f.order && g.sources.Keys == f.sources.Keys
    && (forall id :: id in f.sources ==> g.sources[id] == f.sources[id].(remaining := g.sources[id].remaining))
    && (forall k :: k in f.drawn && k.0 != r ==> k in g.drawn && g.drawn[k] == f.drawn[k])
    && (forall k :: k in g.drawn && k.0 != r ==> k in f.drawn)
  }

  /** Older money goes first, and only money that fits is touched. */
  ghost predicate OldestFirst(f: Funds, g: Funds, only: Option<Id>) {
    && (forall id :: id in f.sources && id in g.sources && !Fits(only, f.sources[id]) ==> g.sources[id] == f.sources[id])
    && (forall i, j :: 0 <= i < j < |f.order| && f.order[i] in f.sources && f.order[j] in f.sources
          && f.order[i] in g.sources && f.order[j] in g.sources
          && Fits(only, f.sources[f.order[i]]) && g.sources[f.order[j]] != f.sources[f.order[j]]
          ==> g.sources[f.order[i]].remaining == 0)
  }

  /** The first `i` sources have been visited. */
  ghost predicate Visited(f: Funds, g: Funds, only: Option<Id>, r: Reference, i: int) {
    && 0 <= i <= |f.order|
    && (forall j :: i <= j < |f.order| ==> f.order[j] in f.sources && f.order[j] in g.sources
                                           && g.sources[f.order[j]] == f.sources[f.order[j]] && (r, f.order[j]) !in g.drawn)
  }

  /** While money is still missing, every fitting source visited so far is empty. */
  ghost predicate Exhausted(f: Funds, g: Funds, only: Option<Id>, i: int) {
    0 <= i <= |f.order| &&
    forall j :: 0 <= j < i ==> f.order[j] in f.sources && f.order[j] in g.sources
                               && (Fits(only, f.sources[f.order[j]]) ==> g.sources[f.order[j]].remaining == 0)
  }

  ghost predicate Totals(f: Funds, g: Funds, only: Option<Id>, r: Reference, taken: int) {
    && Available(g.sources, only) == Available(f.sources, only) - taken
    && Available(g.sources, None) == Available(f.sources, None) - taken
    && Restorable(g.drawn, r) == taken
  }

  ghost predicate Drawing(f: Funds, g: Funds, only: Option<Id>, r: Reference, i: int, taken: int) {
    FundsOk(g) && SameShape(f, g, r) && OldestFirst(f, g, only) && Visited(f, g, only, r, i) && Totals(f, g, only, r, taken)
  }

  lemma DrawKeepsShape(f: Funds, g: Funds, only: Option<Id>, r: Reference, i: int, n: int)
    requires Listed(f) && SameShape(f, g, r) && Visited(f, g, only, r, i) && i < |f.order|
    ensures f.order[i] in f.sources && f.order[i] in g.sources
    ensures var h := Moved(g, f.order[i], Allocation(r, f.order[i], n, 0), n);
            SameShape(f, h, r) && Visited(f, h, only, r, i + 1)
  {
  }

  lemma DrawKeepsOrder(f: Funds, g: Funds, only: Option<Id>, r: Reference, i: int, n: int)
    requires Listed(f) && OldestFirst(f, g, only) && Visited(f, g, only, r, i) && Exhausted(f, g, only, i) && i < |f.order|
    requires f.order[i] in f.sources && f.order[i] in g.sources && Fits(only, f.sources[f.order[i]])
    ensures var h := Moved(g, f.order[i], Allocation(r, f.order[i], n, 0), n);
            OldestFirst(f, h, only) && (n == g.sources[f.order[i]].remaining ==> Exhausted(f, h, only, i + 1))
  {
  }

  lemma DrawStep(f: Funds, g: Funds, only: Option<Id>, r: Reference, i: int, taken: int, n: int)
    requires Listed(f) && Drawing(f, g, only, r, i, taken) && Exhausted(f, g, only, i) && i < |f.order|
    requires f.order[i] in f.sources && f.order[i] in g.sources && Fits(only, g.sources[f.order[i]])
    requires 0 < n <= g.sources[f.order[i]].remaining
    ensures var id := f.order[i];
            var h := Moved(g, id, Allocation(r, id, n, 0), n);
            Drawing(f, h, only, r, i + 1, taken + n) && (n == g.sources[id].remaining ==> Exhausted(f, h, only, i + 1))
  {
    hide FundsOk, OldestFirst, Exhausted, Available, Restorable, SameShape, Moved, Listed;
    var id := f.order[i];
    DrawKeepsShape(f, g, only, r, i, n);
    DrawKeepsOrder(f, g, only, r, i, n);
    MoveKeepsOk(g, id, Allocation(r, id, n, 0), n, only);
    MoveKeepsOk(g, id, Allocation(r, id, n, 0), n, None);
  }

  lemma SkipStep(f: Funds, g: Funds, only: Option<Id>, r: Reference, i: int, taken: int)
    requires Drawing(f, g, only, r, i, taken) && Exhausted(f, g, only, i) && i < |f.order|
    requires f.order[i] in f.sources && f.order[i] in g.sources
    requires !Fits(only, f.sources[f.order[i]]) || g.sources[f.order[i]].remaining == 0
    ensures Drawing(f, g, only, r, i + 1, taken) && Exhausted(f, g, only, i + 1)
  {
    hide FundsOk, OldestFirst, SameShape, Totals;
  }

  lemma DrawStart(f: Funds, only: Option<Id>, r: Reference)
    requires FundsOk(f) && forall k :: k in f.drawn ==> k.0 != r
    ensures Drawing(f, f, only, r, 0, 0) && Exhausted(f, f, only, 0)
  {
    SumZero(f.drawn, OpenFor(r));
    hide Available;
  }

  lemma NothingLeft(f: Funds, g: Funds, only: Option<Id>)
    requires Listed(f) && g.sources.Keys == f.sources.Keys && Exhausted(f, g, only, |f.order|)
    requires forall id :: id in f.sources ==> g.sources[id].order == f.sources[id].order
    ensures Available(g.sources, only) == 0
  {
    forall id | id in g.sources ensures LeftIn(only)(g.sources[id]) == 0 {
      assert id in f.order;
    }
    SumZero(g.sources, LeftIn(only));
  }

  lemma NeverNegative(f: Funds, only: Option<Id>)
    requires FundsOk(f)
    ensures 0 <= Available(f.sources, only)
  {
    SumNonNegative(f.sources, LeftIn(only));
  }

  /** Take what is needed, or what there is, from the next source. */
  method DrawOne(f: Funds, g: Funds, only: Option<Id>, r: Reference, i: int, left: int, ghost n: int) returns (h: Funds, rest: int)
    requires FundsOk(f) && Drawing(f, g, only, r, i, n - left) && Exhausted(f, g, only, i) && 0 <= i < |f.order| && 0 < left
    ensures 0 <= rest <= left && Drawing(f, h, only, r, i + 1, n - rest) && (rest > 0 ==> Exhausted(f, h, only, i + 1))
  {
    hide *;
    NextSource(f, g, only, r, i, n - left);
    var id := f.order[i];
    var s := g.sources[id];
    var amount := if left < s.remaining then left else s.remaining;
    if Fits(only, s) && amount > 0 {
      DrawStep(f, g, only, r, i, n - left, amount);
      h, rest := Moved(g, id, Allocation(r, id, amount, 0), amount), left - amount;
    } else {
      SkipStep(f, g, only, r, i, n - left);
      h, rest := g, left;
    }
  }

  /** Draw `n` from the fitting sources, oldest first; it succeeds exactly when they hold that much. */
  method Draw(f: Funds, only: Option<Id>, r: Reference, n: int) returns (ok: bool, g: Funds)
    requires FundsOk(f) && 0 < n && forall k :: k in f.drawn ==> k.0 != r
    ensures ok <==> n <= Available(f.sources, only)
    ensures ok ==> FundsOk(g) && SameShape(f, g, r) && OldestFirst(f, g, only)
    ensures ok ==> Available(g.sources, None) == Available(f.sources, None) - n && Restorable(g.drawn, r) == n
  {
    hide *;
    g := f;
    var left, i := n, 0;
    DrawStart(f, only, r);
    while i < |f.order| && left > 0
      invariant 0 <= i <= |f.order| && 0 <= left <= n && Drawing(f, g, only, r, i, n - left)
      invariant left > 0 ==> Exhausted(f, g, only, i)
    {
      g, left := DrawOne(f, g, only, r, i, left, n);
      i := i + 1;
    }
    ok := left == 0;
    DrawEnd(f, g, only, r, i, n - left);
  }

  lemma NextSource(f: Funds, g: Funds, only: Option<Id>, r: Reference, i: int, taken: int)
    requires FundsOk(f) && Drawing(f, g, only, r, i, taken) && i < |f.order|
    ensures Listed(f) && f.order[i] in f.sources && f.order[i] in g.sources
    ensures g.sources[f.order[i]] == f.sources[f.order[i]] && 0 <= g.sources[f.order[i]].remaining
  {
    hide Owed, OldestFirst, Totals;
  }

  lemma DrawEnd(f: Funds, g: Funds, only: Option<Id>, r: Reference, i: int, taken: int)
    requires FundsOk(f) && Drawing(f, g, only, r, i, taken)
    ensures FundsOk(g) && SameShape(f, g, r) && OldestFirst(f, g, only)
    ensures Available(g.sources, None) == Available(f.sources, None) - taken && Restorable(g.drawn, r) == taken
    ensures taken <= Available(f.sources, only)
    ensures i == |f.order| && Exhausted(f, g, only, i) ==> taken == Available(f.sources, only)
  {
    hide Available, Restorable, SourcesOk, DrawnOk, OldestFirst, Exhausted;
    NeverNegative(g, only);
    if i == |f.order| && Exhausted(f, g, only, i) {
      NothingLeft(f, g, only);
    }
  }

  // ----- Restoring -----

  /** Restoring only moves what an allocation has given back. */
  ghost predicate SameAllocations(f: Funds, g: Funds, r: Reference) {
    && g.drawn.Keys == f.drawn.Keys
    && (forall k :: k in f.drawn ==> g.drawn[k] == f.drawn[k].(restored := g.drawn[k].restored))
  }

  ghost predicate GivenBack(f: Funds, g: Funds, r: Reference, given: int) {
    Available(g.sources, None) == Available(f.sources, None) + given && Restorable(g.drawn, r) == Restorable(f.drawn, r) - given
  }

  ghost predicate Restoring(f: Funds, g: Funds, r: Reference, given: int) {
    FundsOk(g) && SameShape(f, g, r) && SameAllocations(f, g, r) && GivenBack(f, g, r, given)
  }

  /** The first `i` sources have nothing more to get back. */
  ghost predicate Repaid(g: Funds, r: Reference, i: int) {
    0 <= i <= |g.order| && forall j :: 0 <= j < i ==> OpenAt(g, r, g.order[j]) == 0
  }

  lemma RestoreKeepsShape(f: Funds, g: Funds, r: Reference, id: SourceId, n: int)
    requires SameShape(f, g, r) && SameAllocations(f, g, r) && (r, id) in g.drawn && id in g.sources && g.drawn[(r, id)].reference == r
    ensures var a := g.drawn[(r, id)];
            var h := Moved(g, id, a.(restored := a.restored + n), -n);
            SameShape(f, h, r) && SameAllocations(f, h, r)
  {
  }

  lemma AllocationFacts(g: Funds, r: Reference, id: SourceId)
    requires FundsOk(g) && (r, id) in g.drawn
    ensures var a := g.drawn[(r, id)];
            a.reference == r && a.source == id && 0 <= a.restored <= a.amount && id in g.sources && 0 <= g.sources[id].remaining
  {
    hide Owed, Listed;
  }

  lemma RestoreStep(f: Funds, g: Funds, r: Reference, given: int, id: SourceId, n: int)
    requires Restoring(f, g, r, given) && (r, id) in g.drawn && id in g.sources && 0 < n <= OpenAt(g, r, id)
    ensures var a := g.drawn[(r, id)];
            a.reference == r && Restoring(f, Moved(g, id, a.(restored := a.restored + n), -n), r, given + n)
  {
    hide FundsOk, Available, Restorable, SameShape, SameAllocations, Moved;
    var a := g.drawn[(r, id)];
    AllocationFacts(g, r, id);
    RestoreKeepsShape(f, g, r, id, n);
    MoveKeepsOk(g, id, a.(restored := a.restored + n), -n, None);
  }

  lemma RepaidStep(g: Funds, r: Reference, i: int, a: Allocation, n: int)
    requires Listed(g) && Repaid(g, r, i) && i < |g.order| && g.order[i] in g.sources && a.reference == r && a.Open() == 0
    ensures Repaid(Moved(g, g.order[i], a, n), r, i + 1)
  {
  }

  lemma RestoreStart(f: Funds, r: Reference)
    requires FundsOk(f)
    ensures Restoring(f, f, r, 0) && Repaid(f, r, 0)
  {
    hide SourcesOk, DrawnOk, Listed;
  }

  lemma RestoreEnd(f: Funds, g: Funds, r: Reference, i: int, given: int)
    requires Restoring(f, g, r, given)
    ensures FundsOk(g) && SameShape(f, g, r) && SameAllocations(f, g, r) && GivenBack(f, g, r, given)
    ensures given <= Restorable(f.drawn, r)
    ensures i == |g.order| && Repaid(g, r, i) ==> given == Restorable(f.drawn, r)
  {
    forall k | k in g.drawn ensures 0 <= OpenFor(r)(g.drawn[k]) {
      assert 0 <= g.drawn[k].restored <= g.drawn[k].amount;
    }
    SumNonNegative(g.drawn, OpenFor(r));
    if i == |g.order| && Repaid(g, r, i) {
      forall k | k in g.drawn ensures OpenFor(r)(g.drawn[k]) == 0 {
        assert k == (k.0, k.1) && k.1 in g.order;
      }
      SumZero(g.drawn, OpenFor(r));
    }
    hide FundsOk, SameShape, SameAllocations, Available;
  }

  lemma NextAllocation(f: Funds, g: Funds, r: Reference, i: int, given: int)
    requires FundsOk(f) && Restoring(f, g, r, given) && 0 <= i < |f.order|
    ensures Listed(g) && g.order == f.order && f.order[i] in g.sources && 0 <= OpenAt(g, r, f.order[i])
    ensures (r, f.order[i]) in g.drawn ==> g.drawn[(r, f.order[i])].reference == r
  {
    hide SourcesOk, GivenBack, SameAllocations;
  }

  lemma SkipRepaid(g: Funds, r: Reference, i: int)
    requires Repaid(g, r, i) && i < |g.order| && OpenAt(g, r, g.order[i]) == 0
    ensures Repaid(g, r, i + 1)
  {
  }

  method RestoreOne(f: Funds, g: Funds, r: Reference, i: int, left: int, ghost n: int) returns (h: Funds, rest: int)
    requires FundsOk(f) && Restoring(f, g, r, n - left) && Repaid(g, r, i) && 0 <= i < |f.order| && 0 < left
    ensures 0 <= rest <= left && Restoring(f, h, r, n - rest) && (rest > 0 ==> Repaid(h, r, i + 1))
  {
    hide FundsOk, SameShape, Repaid, Restoring, Moved, Listed, SourcesOk, DrawnOk;
    NextAllocation(f, g, r, i, n - left);
    var id := f.order[i];
    var open := OpenAt(g, r, id);
    var amount := if left < open then left else open;
    if amount == 0 {
      SkipRepaid(g, r, i);
      return g, left;
    }
    var a := g.drawn[(r, id)];
    RestoreStep(f, g, r, n - left, id, amount);
    if amount == open {
      RepaidStep(g, r, i, a.(restored := a.restored + amount), -amount);
    }
    h, rest := Moved(g, id, a.(restored := a.restored + amount), -amount), left - amount;
  }

  /** Give `n` back to the sources that an earlier debit drew on; it succeeds exactly when that much is still open. */
  method Restore(f: Funds, r: Reference, n: int) returns (ok: bool, g: Funds)
    requires FundsOk(f) && 0 < n
    ensures ok <==> n <= Restorable(f.drawn, r)
    ensures ok ==> FundsOk(g) && SameShape(f, g, r) && SameAllocations(f, g, r) && GivenBack(f, g, r, n)
  {
    hide *;
    g := f;
    var left, i := n, 0;
    RestoreStart(f, r);
    while i < |f.order| && left > 0
      invariant 0 <= i <= |f.order| && 0 <= left <= n && Restoring(f, g, r, n - left)
      invariant left > 0 ==> Repaid(g, r, i)
    {
      g, left := RestoreOne(f, g, r, i, left, n);
      i := i + 1;
    }
    ok := left == 0;
    RestoreEnd(f, g, r, i, n - left);
    SameOrder(f, g, r, n - left);
  }

  lemma SameOrder(f: Funds, g: Funds, r: Reference, given: int)
    requires Restoring(f, g, r, given)
    ensures g.order == f.order
  {
  }
}
