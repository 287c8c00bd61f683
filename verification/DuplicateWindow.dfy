/** Telling duplicates from new packets with a fixed array instead of an unbounded set. */
module DuplicateWindow {

  const WINDOW: nat := 65536
  /** The largest 64-bit number, which also marks an empty slot. */
  const EMPTY: nat := 0xFFFF_FFFF_FFFF_FFFF

  datatype Verdict = Late | Duplicate | Received

  /** A packet so far behind the highest one that its slot may have been reused. */
  predicate IsLate(highest: nat, n: nat) {
    n < highest && highest - n >= WINDOW
  }

  /** What a receiver with an unbounded set would say. */
  function Reference(received: set<nat>, highest: nat, n: nat): Verdict {
    if IsLate(highest, n) then Late else if n in received then Duplicate else Received
  }

  /** The array remembers every received packet that is not late. */
  ghost predicate Remembers(seen: seq<nat>, highest: nat, received: set<nat>) {
    && |seen| == WINDOW
    && (forall r :: r in received ==> r <= highest && (seen[r % WINDOW] == r || IsLate(highest, r)))
    && (forall r :: r in received && seen[r % WINDOW] == EMPTY ==> EMPTY in received)
    && (forall i :: 0 <= i < WINDOW && seen[i] != EMPTY ==> seen[i] in received && seen[i] % WINDOW == i)
  }

  function Highest(highest: nat, n: nat): nat {
    if n < highest then highest else n
  }

  lemma StoringRemembers(seen: seq<nat>, highest: nat, received: set<nat>, n: nat)
    requires Remembers(seen, highest, received) && n <= EMPTY && !IsLate(highest, n)
    ensures Remembers(seen[n % WINDOW := n], Highest(highest, n), received + {n})
  {
    var after, top := seen[n % WINDOW := n], Highest(highest, n);
    forall r | r in received ensures after[r % WINDOW] == r || IsLate(top, r) {
      if !IsLate(highest, r) && r != n && r % WINDOW == n % WINDOW {
        SameSlotIsFar(r, n);
      }
    }
  }

  /** Two different numbers that share a slot are a whole window apart. */
  lemma SameSlotIsFar(a: nat, b: nat)
    requires a % WINDOW == b % WINDOW && a != b
    ensures a + WINDOW <= b || b + WINDOW <= a
  {
  }

  /** The bounded receiver's verdict. */
  function Verdicts(seen: seq<nat>, highest: nat, n: nat): Verdict
    requires |seen| == WINDOW
  {
    if IsLate(highest, n) then Late else if seen[n % WINDOW] == n then Duplicate else Received
  }

  /** Nothing was ever received in the slot of the number that marks empty slots. */
  ghost predicate MarkIsFree(received: set<nat>) {
    forall r :: r in received ==> r % WINDOW != EMPTY % WINDOW
  }

  /** The array answers as the set would, except that the empty mark itself is taken for a duplicate in a free slot. */
  lemma AnswersLikeASet(seen: seq<nat>, highest: nat, received: set<nat>, n: nat)
    requires Remembers(seen, highest, received) && n <= EMPTY && highest <= EMPTY
    ensures Verdicts(seen, highest, n) == Reference(received, highest, n) <==> !(n == EMPTY && MarkIsFree(received))
    ensures Verdicts(seen, highest, n) == Received ==> n !in received
  {
    if n == EMPTY {
      var slot := EMPTY % WINDOW;
      if seen[slot] != EMPTY {
        assert seen[slot] in received && seen[slot] % WINDOW == slot;
      }
      if EMPTY in received {
        assert EMPTY % WINDOW == slot;
      }
    }
  }

  /** A fresh receiver takes the largest number for a duplicate, although it was never received. */
  lemma LargestNumberIsRefused()
    ensures var seen := seq(WINDOW, _ => EMPTY);
            && Remembers(seen, 0, {}) && Verdicts(seen, 0, EMPTY) == Duplicate && Reference({}, 0, EMPTY) == Received
  {
  }

  class Receiver {
    const seen: array<nat>
    var highest: nat
    var late: nat
    var duplicates: nat
    var reordered: nat
    var count: nat
    ghost var received: set<nat>

    ghost predicate Valid()
      reads this, seen
    {
      seen.Length == WINDOW && Remembers(seen[..], highest, received) && count == |received| && highest <= EMPTY
    }

    constructor ()
      ensures Valid() && received == {} && highest == 0 && fresh(seen)
      ensures late == duplicates == reordered == count == 0
    {
      seen := new nat[WINDOW](_ => EMPTY);
      highest, late, duplicates, reordered, count := 0, 0, 0, 0, 0;
      received := {};
    }

    /** One packet of the receive loop. A number is counted as received at most once, whatever the order. */
    method Receive(n: nat) returns (verdict: Verdict)
      requires Valid() && n <= EMPTY
      modifies this, seen
      ensures Valid()
      ensures verdict == if n == EMPTY && MarkIsFree(old(received)) then Duplicate else Reference(old(received), old(highest), n)
      ensures received == if verdict == Received then old(received) + {n} else old(received)
      ensures verdict == Received ==> n !in old(received) && highest == Highest(old(highest), n)
                                      && reordered == old(reordered) + (if n < old(highest) then 1 else 0)
      ensures verdict != Received ==> highest == old(highest) && reordered == old(reordered)
      ensures late == old(late) + (if verdict == Late then 1 else 0)
      ensures duplicates == old(duplicates) + (if verdict == Duplicate then 1 else 0)
      ensures count == old(count) + (if verdict == Received then 1 else 0)
    {
      AnswersLikeASet(seen[..], highest, received, n);
      if n < highest && highest - n >= WINDOW {
        late := late + 1;
        return Late;
      }
      if seen[n % WINDOW] == n {
        duplicates := duplicates + 1;
        return Duplicate;
      }
      StoringRemembers(seen[..], highest, received, n);
      ghost var before := seen[..];
      seen[n % WINDOW] := n;
      assert seen[..] == before[n % WINDOW := n];
      if n < highest {
        reordered := reordered + 1;
      } else {
        highest := n;
      }
      count := count + 1;
      received := received + {n};
      verdict := Received;
    }
  }
}
