/** One user's wallet: every credit and debit is tied to where the money came from. */
module Wallet {
  import opened AgentTypes
  import opened Sums
  import opened WalletFunds

  /** Why a wallet moves. */
  datatype Cause =
    | Recharged(order: Id)
    | Credited(entry: Id)
    | Freed(refund: Id)
    | Reimbursed(purchase: Id)
    | Bought(purchase: Id)
    | Debited(entry: Id)
    | Reserved(refund: Id, order: Id)

  function Ref(c: Cause): Reference {
    match c
    case Recharged(o) => Payment(o)
    case Credited(e) => Entry(e)
    case Freed(r) => Hold(r)
    case Reimbursed(p) => Purchase(p)
    case Bought(p) => Purchase(p)
    case Debited(e) => Entry(e)
    case Reserved(r, _) => Hold(r)
  }

  ghost predicate NeverDrawn(drawn: map<(Reference, SourceId), Allocation>, r: Reference) {
    forall k :: k in drawn ==> k.0 != r
  }

  predicate HasOrder(sources: map<SourceId, Source>, order: Id) {
    exists id :: id in sources && sources[id].order == Some(order)
  }

  /** A refund of an order with known money is limited to that money. */
  function Limit(sources: map<SourceId, Source>, c: Cause): Option<Id> {
    if c.Reserved? && HasOrder(sources, c.order) then Some(c.order) else None
  }

  /** The sources once the account is tracked: what it held before has no recorded origin. */
  function Opening(tracked: bool, balance: int, f: Funds): Funds {
    if !tracked && balance > 0 then AddSource(f, Legacy, Source(None, balance, balance)) else f
  }

  ghost predicate AccountOk(tracked: bool, balance: int, f: Funds) {
    && 0 <= balance
    && (tracked ==> FundsOk(f) && Available(f.sources, None) == balance)
    && (!tracked ==> f == Funds(map[], [], map[]))
  }

  lemma OpeningIsOk(tracked: bool, balance: int, f: Funds)
    requires AccountOk(tracked, balance, f)
    ensures FundsOk(Opening(tracked, balance, f)) && Available(Opening(tracked, balance, f).sources, None) == balance
    ensures Opening(tracked, balance, f).drawn == f.drawn && 0 <= balance
  {
    if !tracked {
      SumUnfolds(f.sources, LeftIn(None));
      assert FundsOk(f);
      if balance > 0 {
        AddKeepsOk(f, Legacy, Source(None, balance, balance));
      }
    }
  }

  /** Whether a credit can be booked, and a debit be drawn. */
  ghost predicate Bookable(f: Funds, c: Cause, delta: int) {
    if delta == 0 then true
    else if delta < 0 then -delta <= Available(f.sources, Limit(f.sources, c))
    else match c
      case Freed(_) => if NeverDrawn(f.drawn, Ref(c)) then Release(Ref(c)) !in f.sources else delta <= Restorable(f.drawn, Ref(c))
      case Reimbursed(_) => delta <= Restorable(f.drawn, Ref(c))
      case _ => Credit(Ref(c)) !in f.sources
  }

  ghost predicate OthersSame(a: map<(Reference, SourceId), Allocation>, b: map<(Reference, SourceId), Allocation>, r: Reference) {
    && (forall k :: k in a && k.0 != r ==> k in b && b[k] == a[k])
    && (forall k :: k in b && k.0 != r ==> k in a)
  }

  /** Whether a credit goes back to where an earlier debit took the money; otherwise it becomes a source. */
  ghost predicate Restores(drawn: map<(Reference, SourceId), Allocation>, c: Cause) {
    c.Reimbursed? || (c.Freed? && !NeverDrawn(drawn, Ref(c)))
  }

  function SourceName(c: Cause): SourceId {
    if c.Freed? then Release(Ref(c)) else Credit(Ref(c))
  }

  function NewSource(c: Cause, delta: int): Source {
    Source(if c.Recharged? then Some(c.order) else None, delta, delta)
  }

  /** What booking does to the sources and to the entry's own allocations, and that it leaves all others alone. */
  ghost predicate Booked(f: Funds, g: Funds, c: Cause, delta: int) {
    && FundsOk(g) && Available(g.sources, None) == Available(f.sources, None) + delta
    && OthersSame(f.drawn, g.drawn, Ref(c))
    && (delta == 0 ==> g == f)
    && (delta < 0 ==> Restorable(g.drawn, Ref(c)) == -delta && SameShape(f, g, Ref(c)) && OldestFirst(f, g, Limit(f.sources, c)))
    && (delta > 0 && !Restores(f.drawn, c) ==> g == AddSource(f, SourceName(c), NewSource(c, delta)))
    && (delta > 0 && Restores(f.drawn, c) ==>
          Restorable(g.drawn, Ref(c)) == Restorable(f.drawn, Ref(c)) - delta && SameShape(f, g, Ref(c)) && SameAllocations(f, g, Ref(c)))
  }

  method HasAllocation(f: Funds, r: Reference) returns (found: bool)
    ensures found == !NeverDrawn(f.drawn, r)
  {
    found := exists k :: k in f.drawn && k.0 == r;
  }

  /** Book a movement against the sources. */
  method TrackFunds(f: Funds, c: Cause, delta: int) returns (ok: bool, g: Funds)
    requires FundsOk(f) && (delta < 0 ==> NeverDrawn(f.drawn, Ref(c)))
    ensures ok == Bookable(f, c, delta)
    ensures ok ==> Booked(f, g, c, delta)
  {
    hide FundsOk, Available, Restorable, SameAllocations, OldestFirst;
    ok, g := true, f;
    if delta < 0 {
      ok, g := Draw(f, Limit(f.sources, c), Ref(c), -delta);
    } else if delta > 0 {
      var restores := c.Reimbursed?;
      if c.Freed? {
        restores := HasAllocation(f, Ref(c));
      }
      if restores {
        ok, g := Restore(f, Ref(c), delta);
      } else {
        ok := SourceName(c) !in f.sources;
        if ok {
          AddKeepsOk(f, SourceName(c), NewSource(c, delta));
          g := AddSource(f, SourceName(c), NewSource(c, delta));
        }
      }
    }
  }

  // ----- Other entries are untouched -----

  ghost function Only(drawn: map<(Reference, SourceId), Allocation>, r: Reference): map<(Reference, SourceId), Allocation> {
    map k | k in drawn && k.0 == r :: drawn[k]
  }

  lemma {:induction false} OnlyCounts(drawn: map<(Reference, SourceId), Allocation>, r: Reference)
    requires forall k :: k in drawn ==> drawn[k].reference == k.0
    ensures Restorable(drawn, r) == Restorable(Only(drawn, r), r)
    decreases |drawn|
  {
    if k :| k in drawn && k.0 != r {
      OnlyWithout(drawn, r, k);
      SumRemove(drawn, OpenFor(r), k);
      hide Only;
      OnlyCounts(drawn - {k}, r);
    } else {
      assert Only(drawn, r) == drawn;
    }
  }

  lemma OnlyWithout(drawn: map<(Reference, SourceId), Allocation>, r: Reference, k: (Reference, SourceId))
    requires k in drawn && k.0 != r
    ensures Only(drawn - {k}, r) == Only(drawn, r)
  {
  }

  lemma OnlySame(a: map<(Reference, SourceId), Allocation>, b: map<(Reference, SourceId), Allocation>, r: Reference, other: Reference)
    requires OthersSame(a, b, r) && other != r
    ensures Only(a, other) == Only(b, other)
  {
  }

  lemma DrawnIsKeyed(f: Funds)
    requires FundsOk(f)
    ensures forall k :: k in f.drawn ==> f.drawn[k].reference == k.0
  {
    hide Listed, SourcesOk;
  }

  lemma OthersKeepTheirs(f: Funds, g: Funds, c: Cause, delta: int, r: Reference)
    requires FundsOk(f) && Booked(f, g, c, delta) && r != Ref(c)
    ensures Restorable(g.drawn, r) == Restorable(f.drawn, r)
  {
    hide FundsOk, Restorable, Only, OthersSame, Available;
    BookedLeavesOthers(f, g, c, delta);
    OnlySame(f.drawn, g.drawn, Ref(c), r);
    DrawnIsKeyed(f);
    DrawnIsKeyed(g);
    OnlyCounts(f.drawn, r);
    OnlyCounts(g.drawn, r);
  }

  // ----- Orders, refunds and purchases -----

  datatype OrderStatus = Unpaid | Paid | PartlyRefunded | FullyRefunded
  datatype Order = Order(paid: int, status: OrderStatus)

  datatype RefundStatus = Pending | Completed | Canceled
  datatype Refund = Refund(order: Id, key: Id, amount: int, reason: Id, status: RefundStatus, evidence: Option<Id>)

  /** A purchase and how much of its price went back. */
  datatype Sale = Sale(price: int, refunded: int)

  ghost function HeldBy(o: Id): Refund -> int {
    (r: Refund) => if r.order == o && r.status != Canceled then r.amount else 0
  }

  ghost function SettledBy(o: Id): Refund -> int {
    (r: Refund) => if r.order == o && r.status == Completed then r.amount else 0
  }

  /** Money held or paid out for refunds stays within what the order paid. */
  ghost predicate RefundsFit(orders: map<Id, Order>, refunds: map<Id, Refund>) {
    && (forall id :: id in refunds ==> 0 < refunds[id].amount && refunds[id].order in orders)
    && (forall o :: o in orders ==> Sum(refunds, HeldBy(o)) <= orders[o].paid)
  }

  /** An order is partly or fully refunded according to what was confirmed as paid out. */
  ghost predicate StatusesOk(orders: map<Id, Order>, refunds: map<Id, Refund>) {
    forall o :: o in orders ==>
      var out := Sum(refunds, SettledBy(o));
      && 0 < orders[o].paid && 0 <= out <= orders[o].paid
      && orders[o].status == (if out == 0 then Paid else if out == orders[o].paid then FullyRefunded else PartlyRefunded)
  }

  /** A refund that is not cancelled still holds exactly its amount, and a purchase exactly what was not refunded. */
  ghost predicate Held(drawn: map<(Reference, SourceId), Allocation>, refunds: map<Id, Refund>, sales: map<Id, Sale>) {
    && (forall id :: id in refunds ==> Restorable(drawn, Hold(id)) == (if refunds[id].status == Canceled then 0 else refunds[id].amount))
    && (forall p :: p in sales ==> 0 <= sales[p].refunded <= sales[p].price && Restorable(drawn, Purchase(p)) == sales[p].price - sales[p].refunded)
    && (forall k :: k in drawn && k.0.Hold? ==> k.0.refund in refunds)
    && (forall k :: k in drawn && k.0.Purchase? ==> k.0.id in sales)
  }

  lemma FreshIsNeverDrawn(drawn: map<(Reference, SourceId), Allocation>, refunds: map<Id, Refund>, sales: map<Id, Sale>, id: Id)
    requires Held(drawn, refunds, sales)
    ensures id !in refunds ==> NeverDrawn(drawn, Hold(id))
    ensures id !in sales ==> NeverDrawn(drawn, Purchase(id))
  {
    hide Restorable;
  }

  lemma HeldIsDrawn(drawn: map<(Reference, SourceId), Allocation>, r: Reference)
    requires NeverDrawn(drawn, r) && forall k :: k in drawn ==> drawn[k].reference == k.0
    ensures Restorable(drawn, r) == 0
  {
    SumZero(drawn, OpenFor(r));
  }

  /** A booking for one entry leaves the holds of all the others as they were. */
  lemma BookingKeepsHeld(f: Funds, g: Funds, c: Cause, delta: int, refunds: map<Id, Refund>, sales: map<Id, Sale>,
                         refunds': map<Id, Refund>, sales': map<Id, Sale>)
    requires FundsOk(f) && Booked(f, g, c, delta) && Held(f.drawn, refunds, sales)
    requires refunds.Keys <= refunds'.Keys && sales.Keys <= sales'.Keys
    requires forall id :: id in refunds' && Ref(c) != Hold(id) ==> id in refunds && refunds'[id] == refunds[id]
    requires forall id :: id in refunds' && Ref(c) == Hold(id) ==>
               Restorable(g.drawn, Hold(id)) == (if refunds'[id].status == Canceled then 0 else refunds'[id].amount)
    requires forall p :: p in sales' && Ref(c) != Purchase(p) ==> p in sales && sales'[p] == sales[p]
    requires forall p :: p in sales' && Ref(c) == Purchase(p) ==>
               0 <= sales'[p].refunded <= sales'[p].price && Restorable(g.drawn, Purchase(p)) == sales'[p].price - sales'[p].refunded
    requires Ref(c).Hold? ==> Ref(c).refund in refunds'
    requires Ref(c).Purchase? ==> Ref(c).id in sales'
    ensures Held(g.drawn, refunds', sales')
  {
    hide Restorable, FundsOk, Booked, OthersSame;
    forall r | r != Ref(c) ensures Restorable(g.drawn, r) == Restorable(f.drawn, r) {
      OthersKeepTheirs(f, g, c, delta, r);
    }
    BookedLeavesOthers(f, g, c, delta);
    OthersStayNamed(f.drawn, g.drawn, Ref(c), refunds', sales');
  }

  lemma BookedLeavesOthers(f: Funds, g: Funds, c: Cause, delta: int)
    requires Booked(f, g, c, delta)
    ensures OthersSame(f.drawn, g.drawn, Ref(c))
    ensures delta < 0 ==> OldestFirst(f, g, Limit(f.sources, c))
  {
    hide FundsOk, Available, Restorable, OldestFirst, SameShape, SameAllocations, OthersSame;
  }

  lemma OthersStayNamed(a: map<(Reference, SourceId), Allocation>, b: map<(Reference, SourceId), Allocation>, r: Reference,
                        refunds: map<Id, Refund>, sales: map<Id, Sale>)
    requires OthersSame(a, b, r)
    requires (forall k :: k in a && k.0.Hold? ==> k.0.refund in refunds) && (r.Hold? ==> r.refund in refunds)
    requires (forall k :: k in a && k.0.Purchase? ==> k.0.id in sales) && (r.Purchase? ==> r.id in sales)
    ensures forall k :: k in b && k.0.Hold? ==> k.0.refund in refunds
    ensures forall k :: k in b && k.0.Purchase? ==> k.0.id in sales
  {
  }

  // ----- Names -----

  /** Payments and entries that left a trace in the sources are on record, so that a new one finds its name unused. */
  ghost predicate Recorded(f: Funds, orders: set<Id>, entries: set<Id>) {
    && (forall o :: Credit(Payment(o)) in f.sources ==> o in orders)
    && (forall e :: Credit(Entry(e)) in f.sources ==> e in entries)
    && (forall k :: k in f.drawn && k.0.Entry? ==> k.0.id in entries)
  }

  lemma OpeningIsRecorded(tracked: bool, balance: int, f: Funds, orders: set<Id>, entries: set<Id>)
    requires Recorded(f, orders, entries)
    ensures Recorded(Opening(tracked, balance, f), orders, entries)
  {
  }

  lemma BookedSources(f: Funds, g: Funds, c: Cause, delta: int)
    requires Booked(f, g, c, delta)
    ensures forall id :: id in g.sources ==> id in f.sources || id == SourceName(c)
  {
    hide FundsOk, Available, Restorable, OldestFirst, SameAllocations, NeverDrawn, OthersSame;
  }

  lemma BookingIsRecorded(f: Funds, g: Funds, c: Cause, delta: int, orders: set<Id>, entries: set<Id>, orders': set<Id>, entries': set<Id>)
    requires Booked(f, g, c, delta) && Recorded(f, orders, entries) && orders <= orders' && entries <= entries'
    requires (Ref(c).Payment? ==> Ref(c).order in orders') && (Ref(c).Entry? ==> Ref(c).id in entries')
    ensures Recorded(g, orders', entries')
  {
    hide Booked;
    BookedSources(f, g, c, delta);
    BookedLeavesOthers(f, g, c, delta);
  }

  lemma HoldsMove(orders: map<Id, Order>, refunds: map<Id, Refund>, id: Id, r: Refund)
    requires RefundsFit(orders, refunds) && 0 < r.amount && r.order in orders
    requires (if id in refunds then refunds[id].order == r.order && HeldBy(r.order)(r) <= HeldBy(r.order)(refunds[id])
              else Sum(refunds, HeldBy(r.order)) + r.amount <= orders[r.order].paid)
    ensures RefundsFit(orders, refunds[id := r])
  {
    forall o | o in orders ensures Sum(refunds[id := r], HeldBy(o)) <= orders[o].paid {
      SumPut(refunds, HeldBy(o), id, r);
    }
  }

  method SumHeld(refunds: map<Id, Refund>, o: Id, completed: bool) returns (n: int)
    ensures n == Sum(refunds, if completed then SettledBy(o) else HeldBy(o))
  {
    ghost var f := if completed then SettledBy(o) else HeldBy(o);
    n := 0;
    var todo := refunds.Keys;
    assert refunds - todo == map[];
    SumUnfolds(refunds - todo, f);
    while todo != {}
      invariant todo <= refunds.Keys && n == Sum(refunds - todo, f)
      decreases |todo|
    {
      var id :| id in todo;
      var r := refunds[id];
      assert refunds - (todo - {id}) == (refunds - todo)[id := r];
      SumPut(refunds - todo, f, id, r);
      if r.order == o && (if completed then r.status == Completed else r.status != Canceled) {
        n := n + r.amount;
      }
      todo := todo - {id};
    }
    assert refunds - todo == refunds;
  }

  // ----- The account -----

  class Account {
    var balance: int
    var tracked: bool
    var funds: Funds
    var orders: map<Id, Order>
    var refunds: map<Id, Refund>
    var sales: map<Id, Sale>
    /** The names of the ordinary ledger entries; no name is used twice. */
    var entries: set<Id>

    ghost predicate Valid()
      reads this
    {
      && AccountOk(tracked, balance, funds) && RefundsFit(orders, refunds) && Held(funds.drawn, refunds, sales)
      && Recorded(funds, orders.Keys, entries) && StatusesOk(orders, refunds)
    }

    /** A wallet as it was before its money was tracked. */
    constructor (held: nat)
      ensures Valid() && balance == held && !tracked && orders == map[] && refunds == map[] && sales == map[] && entries == {}
    {
      balance, tracked, funds := held, false, Funds(map[], [], map[]);
      orders, refunds, sales, entries := map[], map[], map[], {};
    }

    /** A paid order becomes a source of its own, once; a repeated confirmation changes nothing. */
    method Recharge(order: Id, amount: int) returns (ok: bool)
      requires Valid() && 0 < amount
      modifies this
      ensures Valid() && refunds == old(refunds) && sales == old(sales) && entries == old(entries)
      ensures ok == (order !in old(orders))
      ensures if ok then
                && balance == old(balance) + amount && orders == old(orders)[order := Order(amount, Paid)]
                && funds == AddSource(Opening(old(tracked), old(balance), old(funds)), Credit(Payment(order)), Source(Some(order), amount, amount))
              else balance == old(balance) && orders == old(orders) && funds == old(funds) && tracked == old(tracked)
    {
      hide RefundsFit, Held, AccountOk, Booked, Opening, Bookable, Recorded, NeverDrawn, StatusesOk;
      ok := order !in orders;
      if !ok { return; }
      ghost var start := Opening(tracked, balance, funds);
      OpeningIsOk(tracked, balance, funds);
      OpeningIsRecorded(tracked, balance, funds, orders.Keys, entries);
      NewCreditIsBookable(start, Recharged(order), amount, orders.Keys, entries);
      ok := Post(Recharged(order), amount);
      CreditIsSource(start, funds, Recharged(order), amount);
      CreditIsHeld(start, funds, Recharged(order), amount, refunds, sales);
      NewOrderFits(orders, refunds, order, amount);
      NewOrderIsPaid(orders, refunds, order, amount);
      BookingIsRecorded(start, funds, Recharged(order), amount, orders.Keys, entries, orders.Keys + {order}, entries);
      assert orders[order := Order(amount, Paid)].Keys == orders.Keys + {order};
      orders := orders[order := Order(amount, Paid)];
    }

    /** An ordinary entry, such as an adjustment or a commission: a credit always succeeds, a debit if it is covered. */
    method PostEntry(entry: Id, delta: int) returns (ok: bool)
      requires Valid()
      modifies this
      ensures Valid() && orders == old(orders) && refunds == old(refunds) && sales == old(sales)
      ensures ok == (entry !in old(entries) && 0 <= old(balance) + delta)
      ensures entry !in old(entries) && 0 <= delta ==> ok
      ensures if ok then balance == old(balance) + delta && entries == old(entries) + {entry}
              else balance == old(balance) && entries == old(entries) && funds == old(funds) && tracked == old(tracked)
      ensures ok && delta > 0 ==>
                funds == AddSource(Opening(old(tracked), old(balance), old(funds)), Credit(Entry(entry)), Source(None, delta, delta))
    {
      hide RefundsFit, Held, AccountOk, Booked, Opening, Bookable, Recorded, NeverDrawn, StatusesOk;
      ok := entry !in entries;
      if !ok { return; }
      var c := if delta < 0 then Debited(entry) else Credited(entry);
      ghost var start := Opening(tracked, balance, funds);
      OpeningIsOk(tracked, balance, funds);
      OpeningIsRecorded(tracked, balance, funds, orders.Keys, entries);
      NewCreditIsBookable(start, c, delta, orders.Keys, entries);
      EntryIsNeverDrawn(funds, orders.Keys, entries, entry);
      ok := Post(c, delta);
      if ok {
        CreditIsSource(start, funds, c, delta);
        CreditIsHeld(start, funds, c, delta, refunds, sales);
        BookingIsRecorded(start, funds, c, delta, orders.Keys, entries, orders.Keys, entries + {entry});
        entries := entries + {entry};
      }
    }

    /**
     * Move the balance and book the movement. An ordinary debit within the balance always finds its sources; a
     * refund of an order with known money succeeds only from that money.
     */
    method Post(c: Cause, delta: int) returns (ok: bool)
      requires AccountOk(tracked, balance, funds) && (delta < 0 ==> NeverDrawn(funds.drawn, Ref(c)))
      modifies this`balance, this`tracked, this`funds
      ensures AccountOk(tracked, balance, funds)
      ensures ok == (old(balance) + delta >= 0 && Bookable(Opening(old(tracked), old(balance), old(funds)), c, delta))
      ensures delta < 0 && !c.Reserved? ==> ok == (-delta <= old(balance))
      ensures if ok then tracked && balance == old(balance) + delta && Booked(Opening(old(tracked), old(balance), old(funds)), funds, c, delta)
              else balance == old(balance) && tracked == old(tracked) && funds == old(funds)
    {
      OpeningIsOk(tracked, balance, funds);
      hide FundsOk, Available, Restorable, SameAllocations, OldestFirst, SameShape, Opening;
      if delta < 0 && balance < -delta { return false; }
      var start := Opening(tracked, balance, funds);
      var booked;
      ok, booked := TrackFunds(start, c, delta);
      if ok {
        tracked, funds, balance := true, booked, balance + delta;
      }
    }

    /** Pay for a purchase. */
    method Buy(purchase: Id, price: int) returns (ok: bool)
      requires Valid() && purchase !in sales && 0 <= price
      modifies this
      ensures Valid() && orders == old(orders) && refunds == old(refunds) && entries == old(entries)
      ensures ok == (price <= old(balance))
      ensures if ok then balance == old(balance) - price && sales == old(sales)[purchase := Sale(price, 0)]
              else balance == old(balance) && sales == old(sales)
    {
      hide RefundsFit, Held, AccountOk, Booked, NeverDrawn, Opening, Bookable, Recorded, StatusesOk;
      ghost var start := Opening(tracked, balance, funds);
      FreshIsNeverDrawn(funds.drawn, refunds, sales, purchase);
      OpeningIsOk(tracked, balance, funds);
      OpeningIsRecorded(tracked, balance, funds, orders.Keys, entries);
      FreeIsAlwaysBookable(start, Bought(purchase));
      ok := Post(Bought(purchase), -price);
      if ok {
        SaleIsHeld(start, funds, purchase, price, refunds, sales);
        BookingIsRecorded(start, funds, Bought(purchase), -price, orders.Keys, entries, orders.Keys, entries);
        sales := sales[purchase := Sale(price, 0)];
      }
    }

    /** Pay part of a purchase back to the sources that it was paid from; never more than its price in total. */
    method RefundPurchase(purchase: Id, amount: int) returns (ok: bool)
      requires Valid()
      modifies this
      ensures Valid() && orders == old(orders) && refunds == old(refunds) && entries == old(entries)
      ensures ok == (0 < amount && purchase in old(sales) && amount <= old(sales)[purchase].price - old(sales)[purchase].refunded)
      ensures if ok then balance == old(balance) + amount
                         && sales == old(sales)[purchase := old(sales)[purchase].(refunded := old(sales)[purchase].refunded + amount)]
              else balance == old(balance) && sales == old(sales)
    {
      hide RefundsFit, Held, AccountOk, Booked, Opening, Bookable, Recorded, StatusesOk;
      if amount <= 0 || purchase !in sales { return false; }
      var sale := sales[purchase];
      ok := amount <= sale.price - sale.refunded;
      if !ok { return; }
      ghost var start := Opening(tracked, balance, funds);
      OpeningIsOk(tracked, balance, funds);
      OpeningIsRecorded(tracked, balance, funds, orders.Keys, entries);
      SaleIsRefundable(start, purchase, amount, refunds, sales);
      ok := Post(Reimbursed(purchase), amount);
      var next := sale.(refunded := sale.refunded + amount);
      SaleIsRefunded(start, funds, purchase, amount, refunds, sales);
      BookingIsRecorded(start, funds, Reimbursed(purchase), amount, orders.Keys, entries, orders.Keys, entries);
      sales := sales[purchase := next];
    }

    method FindRefund(order: Id, key: Id) returns (id: Option<Id>)
      ensures id.Some? ==> id.value in refunds && refunds[id.value].order == order && refunds[id.value].key == key
      ensures id.None? ==> forall x :: x in refunds ==> refunds[x].order != order || refunds[x].key != key
    {
      id := None;
      var todo := refunds.Keys;
      while todo != {}
        invariant todo <= refunds.Keys
        invariant forall x :: x in refunds && x !in todo ==> refunds[x].order != order || refunds[x].key != key
        decreases |todo|
      {
        var x :| x in todo;
        if refunds[x].order == order && refunds[x].key == key { return Some(x); }
        todo := todo - {x};
      }
    }

    /**
     * Set money aside for an external refund of an order. A repeated request changes nothing; the reservation comes
     * from the order's own money when that is known.
     */
    method RequestRefund(id: Id, order: Id, key: Id, reason: Id, amount: int) returns (ok: bool, refund: Option<Id>)
      requires Valid() && id !in refunds
      modifies this
      ensures Valid() && orders == old(orders) && sales == old(sales) && entries == old(entries)
      ensures ok ==> 0 < amount && refund.Some? && refund.value in refunds && refunds[refund.value].order == order
                     && refunds[refund.value].key == key && refunds[refund.value].amount == amount && refunds[refund.value].reason == reason
      ensures ok && refund == Some(id) <==>
                && 0 < amount && order in old(orders) && (forall x :: x in old(refunds) ==> old(refunds)[x].order != order || old(refunds)[x].key != key)
                && (old(orders)[order].status == Paid || old(orders)[order].status == PartlyRefunded)
                && amount <= old(orders)[order].paid - Sum(old(refunds), HeldBy(order)) && amount <= old(balance)
                && Bookable(Opening(old(tracked), old(balance), old(funds)), Reserved(id, order), -amount)
      ensures ok && refund == Some(id) ==>
                && refunds == old(refunds)[id := Refund(order, key, amount, reason, Pending, None)]
                && balance == old(balance) - amount
                && OldestFirst(Opening(old(tracked), old(balance), old(funds)), funds,
                               Limit(Opening(old(tracked), old(balance), old(funds)).sources, Reserved(id, order)))
      ensures ok && refund == Some(id) ==>
                var start := Opening(old(tracked), old(balance), old(funds));
                (exists x :: x in start.sources && start.sources[x].order == Some(order)) ==>
                  && amount <= Sum(start.sources, (s: Source) => if s.order == Some(order) then s.remaining else 0)
                  && forall x :: x in start.sources && x in funds.sources && start.sources[x].order != Some(order) ==> funds.sources[x] == start.sources[x]
      ensures !ok || refund != Some(id) ==> refunds == old(refunds) && balance == old(balance) && funds == old(funds)
    {
      hide Held, AccountOk, Booked, NeverDrawn, Opening, Bookable, Limit, OldestFirst, Recorded, StatusesOk;
      ok, refund := false, None;
      if amount <= 0 || order !in orders { return; }
      var found := FindRefund(order, key);
      if found.Some? {
        if refunds[found.value].amount != amount || refunds[found.value].reason != reason { return; }
        return true, found;
      }
      if orders[order].status != Paid && orders[order].status != PartlyRefunded { return; }
      var reserved := SumHeld(refunds, order, false);
      if amount > orders[order].paid - reserved { return; }
      ghost var start := Opening(tracked, balance, funds);
      FreshIsNeverDrawn(funds.drawn, refunds, sales, id);
      OpeningIsOk(tracked, balance, funds);
      OpeningIsRecorded(tracked, balance, funds, orders.Keys, entries);
      ok := Post(Reserved(id, order), -amount);
      if ok {
        var r := Refund(order, key, amount, reason, Pending, None);
        HoldsMove(orders, refunds, id, r);
        StatusesStay(orders, refunds, id, r);
        RefundIsHeld(start, funds, id, r, refunds, sales);
        BookedLeavesOthers(start, funds, Reserved(id, order), -amount);
        ReserveIsLimited(start, funds, id, order, amount);
        BookingIsRecorded(start, funds, Reserved(id, order), -amount, orders.Keys, entries, orders.Keys, entries);
        refunds := refunds[id := r];
        refund := Some(id);
      }
    }

    /** Confirm the external transfer, or give the reserved money back to where it came from, which never fails. */
    method ResolveRefund(id: Id, evidence: Id, completed: bool) returns (ok: bool)
      requires Valid()
      modifies this
      ensures Valid() && sales == old(sales) && entries == old(entries)
      ensures ok ==> id in old(refunds)
      ensures id in old(refunds) ==>
                var r, target := old(refunds)[id], if completed then Completed else Canceled;
                ok == (r.status == Pending || (r.status == target && r.evidence == Some(evidence)))
      ensures if ok && old(refunds)[id].status == Pending
              then var r := old(refunds)[id];
                   && refunds == old(refunds)[id := r.(status := if completed then Completed else Canceled, evidence := Some(evidence))]
                   && balance == old(balance) + (if completed then 0 else r.amount)
              else refunds == old(refunds) && balance == old(balance) && orders == old(orders)
      ensures ok && old(refunds)[id].status == Pending ==>
                var o := old(refunds)[id].order;
                && o in old(orders)
                && orders == if !completed then old(orders)
                             else old(orders)[o := old(orders)[o].(status := if Sum(refunds, SettledBy(o)) == old(orders)[o].paid then FullyRefunded
                                                                            else PartlyRefunded)]
    {
      hide Held, AccountOk, Booked, NeverDrawn, Opening, Bookable, Recorded, StatusesOk;
      if id !in refunds { return false; }
      var r := refunds[id];
      var target := if completed then Completed else Canceled;
      if r.status != Pending {
        return r.status == target && r.evidence == Some(evidence);
      }
      var next := r.(status := target, evidence := Some(evidence));
      HoldsMove(orders, refunds, id, next);
      ok := true;
      if completed {
        RefundIsConfirmed(funds.drawn, id, next, refunds, sales);
        refunds := refunds[id := next];
        var total := SumHeld(refunds, r.order, true);
        var status := if total == orders[r.order].paid then FullyRefunded else PartlyRefunded;
        OrderKeepsFit(orders, refunds, r.order, status);
        ConfirmedStatus(orders, old(refunds), id, next);
        assert orders[r.order := orders[r.order].(status := status)].Keys == orders.Keys;
        orders := orders[r.order := orders[r.order].(status := status)];
      } else {
        ghost var start := Opening(tracked, balance, funds);
        OpeningIsOk(tracked, balance, funds);
        OpeningIsRecorded(tracked, balance, funds, orders.Keys, entries);
        HoldIsReleasable(start, id, refunds, sales);
        ok := Post(Freed(id), r.amount);
        RefundIsFreed(start, funds, id, next, refunds, sales);
        StatusesStay(orders, refunds, id, next);
        BookingIsRecorded(start, funds, Freed(id), r.amount, orders.Keys, entries, orders.Keys, entries);
        refunds := refunds[id := next];
      }
    }
  }

  /** A refund of an order with known money is paid from that money and leaves all other sources alone. */
  lemma ReserveIsLimited(f: Funds, g: Funds, id: Id, order: Id, amount: int)
    requires 0 < amount && Bookable(f, Reserved(id, order), -amount) && OldestFirst(f, g, Limit(f.sources, Reserved(id, order)))
    ensures (exists x :: x in f.sources && f.sources[x].order == Some(order)) ==>
              && amount <= Sum(f.sources, (s: Source) => if s.order == Some(order) then s.remaining else 0)
              && forall x :: x in f.sources && x in g.sources && f.sources[x].order != Some(order) ==> g.sources[x] == f.sources[x]
  {
    var only := (s: Source) => if s.order == Some(order) then s.remaining else 0;
    SumMonotone(f.sources, LeftIn(Some(order)), f.sources, only);
  }

  lemma FreeIsAlwaysBookable(f: Funds, c: Cause)
    ensures Bookable(f, c, 0)
  {
  }

  lemma FreshSale(f: Funds, g: Funds, p: Id, price: int)
    requires FundsOk(f) && Booked(f, g, Bought(p), -price) && NeverDrawn(f.drawn, Purchase(p)) && 0 <= price
    ensures Restorable(g.drawn, Purchase(p)) == price
  {
    HeldIsDrawn(f.drawn, Purchase(p));
    hide Restorable, FundsOk, Available;
  }

  lemma NewCreditIsBookable(f: Funds, c: Cause, delta: int, orders: set<Id>, entries: set<Id>)
    requires Recorded(f, orders, entries) && (c.Recharged? || c.Credited? || c.Debited?)
    requires (c.Recharged? ==> c.order !in orders) && (c.Credited? ==> c.entry !in entries)
    ensures (0 <= delta && !c.Debited?) ==> Bookable(f, c, delta)
  {
  }

  lemma EntryIsNeverDrawn(f: Funds, orders: set<Id>, entries: set<Id>, e: Id)
    requires Recorded(f, orders, entries) && e !in entries
    ensures NeverDrawn(f.drawn, Entry(e))
  {
  }

  lemma CreditIsSource(f: Funds, g: Funds, c: Cause, delta: int)
    requires Booked(f, g, c, delta) && (c.Recharged? || c.Credited? || c.Debited?)
    ensures delta > 0 ==> g == AddSource(f, Credit(Ref(c)), NewSource(c, delta))
  {
    hide FundsOk, Available, Restorable, OldestFirst, SameShape, SameAllocations, NeverDrawn, OthersSame;
  }

  lemma CreditIsHeld(f: Funds, g: Funds, c: Cause, delta: int, refunds: map<Id, Refund>, sales: map<Id, Sale>)
    requires FundsOk(f) && Booked(f, g, c, delta) && Held(f.drawn, refunds, sales) && (c.Recharged? || c.Credited? || c.Debited?)
    ensures Held(g.drawn, refunds, sales)
  {
    hide FundsOk, Booked, Restorable;
    BookingKeepsHeld(f, g, c, delta, refunds, sales, refunds, sales);
  }

  lemma NewOrderFits(orders: map<Id, Order>, refunds: map<Id, Refund>, o: Id, amount: int)
    requires RefundsFit(orders, refunds) && o !in orders && 0 < amount
    ensures RefundsFit(orders[o := Order(amount, Paid)], refunds)
  {
    SumZero(refunds, HeldBy(o));
  }

  lemma SaleIsHeld(f: Funds, g: Funds, p: Id, price: int, refunds: map<Id, Refund>, sales: map<Id, Sale>)
    requires FundsOk(f) && Booked(f, g, Bought(p), -price) && Held(f.drawn, refunds, sales) && p !in sales && 0 <= price
    ensures Held(g.drawn, refunds, sales[p := Sale(price, 0)])
  {
    hide FundsOk, Booked, Held, Restorable, NeverDrawn;
    FreshIsNeverDrawn(f.drawn, refunds, sales, p);
    FreshSale(f, g, p, price);
    BookingKeepsHeld(f, g, Bought(p), -price, refunds, sales, refunds, sales[p := Sale(price, 0)]);
  }

  lemma SaleIsRefundable(f: Funds, p: Id, amount: int, refunds: map<Id, Refund>, sales: map<Id, Sale>)
    requires Held(f.drawn, refunds, sales) && p in sales && 0 < amount <= sales[p].price - sales[p].refunded
    ensures Bookable(f, Reimbursed(p), amount)
  {
    hide Restorable;
  }

  lemma SaleIsRefunded(f: Funds, g: Funds, p: Id, amount: int, refunds: map<Id, Refund>, sales: map<Id, Sale>)
    requires FundsOk(f) && Booked(f, g, Reimbursed(p), amount) && Held(f.drawn, refunds, sales) && p in sales
    requires 0 < amount <= sales[p].price - sales[p].refunded
    ensures Held(g.drawn, refunds, sales[p := sales[p].(refunded := sales[p].refunded + amount)])
  {
    assert Restorable(g.drawn, Purchase(p)) == sales[p].price - sales[p].refunded - amount && 0 <= sales[p].refunded;
    hide FundsOk, Booked, Held, Restorable;
    BookingKeepsHeld(f, g, Reimbursed(p), amount, refunds, sales, refunds, sales[p := sales[p].(refunded := sales[p].refunded + amount)]);
  }

  lemma RefundIsHeld(f: Funds, g: Funds, id: Id, r: Refund, refunds: map<Id, Refund>, sales: map<Id, Sale>)
    requires FundsOk(f) && Held(f.drawn, refunds, sales) && id !in refunds && 0 < r.amount && r.status == Pending
    requires Booked(f, g, Reserved(id, r.order), -r.amount)
    ensures Held(g.drawn, refunds[id := r], sales)
  {
    assert Restorable(g.drawn, Hold(id)) == r.amount;
    hide FundsOk, Booked, Held, Restorable;
    BookingKeepsHeld(f, g, Reserved(id, r.order), -r.amount, refunds, sales, refunds[id := r], sales);
  }

  lemma RefundIsConfirmed(drawn: map<(Reference, SourceId), Allocation>, id: Id, r: Refund, refunds: map<Id, Refund>, sales: map<Id, Sale>)
    requires Held(drawn, refunds, sales) && id in refunds && refunds[id].status != Canceled
    requires r.amount == refunds[id].amount && r.status != Canceled
    ensures Held(drawn, refunds[id := r], sales)
  {
    hide Restorable;
  }

  lemma HoldIsReleasable(f: Funds, id: Id, refunds: map<Id, Refund>, sales: map<Id, Sale>)
    requires FundsOk(f) && Held(f.drawn, refunds, sales) && id in refunds && refunds[id].status == Pending && 0 < refunds[id].amount
    ensures Bookable(f, Freed(id), refunds[id].amount) && !NeverDrawn(f.drawn, Hold(id))
  {
    hide Restorable, FundsOk;
    HoldIsDrawn(f, id, refunds[id].amount);
  }

  lemma RefundIsFreed(f: Funds, g: Funds, id: Id, r: Refund, refunds: map<Id, Refund>, sales: map<Id, Sale>)
    requires FundsOk(f) && Held(f.drawn, refunds, sales) && id in refunds && refunds[id].status == Pending && 0 < refunds[id].amount
    requires r.status == Canceled && Booked(f, g, Freed(id), refunds[id].amount) && !NeverDrawn(f.drawn, Hold(id))
    ensures Held(g.drawn, refunds[id := r], sales)
  {
    hide FundsOk, Booked, Held, Restorable, NeverDrawn;
    FreedIsGone(f, g, id, refunds[id].amount, refunds, sales);
    BookingKeepsHeld(f, g, Freed(id), refunds[id].amount, refunds, sales, refunds[id := r], sales);
  }

  lemma FreedIsGone(f: Funds, g: Funds, id: Id, amount: int, refunds: map<Id, Refund>, sales: map<Id, Sale>)
    requires Held(f.drawn, refunds, sales) && id in refunds && refunds[id].status == Pending && 0 < amount == refunds[id].amount
    requires Booked(f, g, Freed(id), amount) && !NeverDrawn(f.drawn, Hold(id))
    ensures Restorable(g.drawn, Hold(id)) == 0
  {
    hide FundsOk, Restorable, NeverDrawn, Available, SameShape, SameAllocations, OthersSame, OldestFirst;
  }

  lemma HoldIsDrawn(f: Funds, id: Id, amount: int)
    requires FundsOk(f) && Restorable(f.drawn, Hold(id)) == amount && 0 < amount
    ensures !NeverDrawn(f.drawn, Hold(id))
  {
    if NeverDrawn(f.drawn, Hold(id)) {
      HeldIsDrawn(f.drawn, Hold(id));
    }
  }

  lemma NewOrderIsPaid(orders: map<Id, Order>, refunds: map<Id, Refund>, o: Id, amount: int)
    requires StatusesOk(orders, refunds) && RefundsFit(orders, refunds) && o !in orders && 0 < amount
    ensures StatusesOk(orders[o := Order(amount, Paid)], refunds)
  {
    SumZero(refunds, SettledBy(o));
  }

  /** A refund that is not confirmed leaves the orders as they are. */
  lemma StatusesStay(orders: map<Id, Order>, refunds: map<Id, Refund>, id: Id, r: Refund)
    requires StatusesOk(orders, refunds) && r.status != Completed && (id in refunds ==> refunds[id].status != Completed)
    ensures StatusesOk(orders, refunds[id := r])
  {
    forall o ensures Sum(refunds[id := r], SettledBy(o)) == Sum(refunds, SettledBy(o)) { SumPut(refunds, SettledBy(o), id, r); }
  }

  lemma ConfirmedStatus(orders: map<Id, Order>, refunds: map<Id, Refund>, id: Id, r: Refund)
    requires StatusesOk(orders, refunds) && RefundsFit(orders, refunds[id := r]) && r.order in orders
    requires id in refunds && refunds[id].status == Pending && r == refunds[id].(status := Completed, evidence := r.evidence) && 0 < r.amount
    ensures var o := r.order;
            StatusesOk(orders[o := orders[o].(status := if Sum(refunds[id := r], SettledBy(o)) == orders[o].paid then FullyRefunded else PartlyRefunded)],
                       refunds[id := r])
  {
    var after := refunds[id := r];
    forall o ensures Sum(after, SettledBy(o)) == Sum(refunds, SettledBy(o)) + (if o == r.order then r.amount else 0) {
      SumPut(refunds, SettledBy(o), id, r);
    }
    SumMonotone(after, SettledBy(r.order), after, HeldBy(r.order));
  }

  lemma OrderKeepsFit(orders: map<Id, Order>, refunds: map<Id, Refund>, o: Id, status: OrderStatus)
    requires RefundsFit(orders, refunds) && o in orders
    ensures RefundsFit(orders[o := orders[o].(status := status)], refunds)
  {
  }
}
