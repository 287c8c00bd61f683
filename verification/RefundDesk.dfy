/** Refunds and commissions as they happen: one transaction over two wallets, an entitlement and a purchase. */
module RefundDesk {
  import opened AgentTypes
  import opened PanelBooks
  import opened PanelOps
  import opened PanelService
  import opened Refunds
  import opened Sums
  import opened Wallet

  /** A refund that was granted under an idempotency key. */
  datatype Receipt = Receipt(reason: Id, amount: int)

  ghost function Repaid(): Receipt -> int {
    (r: Receipt) => r.amount
  }

  class Desk {
    const buyer: Account
    const inviter: Account
    const panel: Service
    const bought: Purchase
    /** The names of the purchase in the buyer's wallet and of the entitlement that it opened or extended. */
    const purchase: Id
    const ent: Id
    /** The refunds of the purchase by their idempotency keys. */
    var receipts: map<Id, Receipt>

    /** The wallet, the purchase and the receipts agree on the price and on what was paid back. */
    ghost predicate Valid()
      reads this, buyer, inviter, panel, bought
    {
      && buyer != inviter && buyer.Valid() && inviter.Valid() && Balanced(panel.Tables()) && bought.Valid()
      && ent in panel.ents && purchase in buyer.sales && buyer.sales[purchase] == Sale(bought.price, bought.refunded)
      && bought.refunded == Sum(receipts, Repaid())
    }

    constructor (buyer: Account, inviter: Account, panel: Service, bought: Purchase, purchase: Id, ent: Id)
      requires buyer != inviter && buyer.Valid() && inviter.Valid() && Balanced(panel.Tables()) && bought.Valid()
      requires ent in panel.ents && purchase in buyer.sales && buyer.sales[purchase] == Sale(bought.price, bought.refunded)
      requires bought.refunded == 0
      ensures Valid() && this.buyer == buyer && this.inviter == inviter && this.panel == panel && this.bought == bought
      ensures this.purchase == purchase && this.ent == ent && receipts == map[]
    {
      this.buyer, this.inviter, this.panel, this.bought, this.purchase, this.ent := buyer, inviter, panel, bought, purchase, ent;
      receipts := map[];
      SumUnfolds<Id, Receipt>(map[], Repaid());
    }

    /** What the purchase still gives and what its refunds have taken, for each of the three parties. */
    function BuyerSide(): int reads this, buyer, bought { buyer.balance - bought.refunded }
    function InviterSide(): int reads this, inviter, bought { inviter.balance - bought.commission.net }
    function QuotaSide(): int reads this, panel, bought requires ent in panel.ents { panel.ents[ent].quota + bought.removed }

    ghost predicate Allowed(amount: int)
      reads this, inviter, panel, bought
      requires ent in panel.ents
    {
      var share := Fraction(bought.quota, bought.refunded + amount, bought.price) - bought.removed;
      var taken := Fraction(bought.commission.amount, bought.refunded + amount, bought.price) - bought.commission.reversed;
      && 0 < amount <= bought.price - bought.refunded
      && (share == 0 || panel.ents[ent].allotted + share <= panel.ents[ent].quota)
      && (bought.commission.status == Refunds.Paid ==> taken == 0 || taken <= inviter.balance)
    }

    /**
     * Refund part of the price. Money, quota and commission move together or not at all: the buyer gets the amount
     * back on the sources it was paid from, the entitlement loses the share of its quota, and the inviter's wallet
     * the share of a paid commission. A repeated request with the same key changes nothing. `entry` names the
     * inviter's ledger entry.
     */
    method Refund(key: Id, reason: Id, amount: int, entry: Id) returns (ok: bool)
      requires Valid() && entry !in inviter.entries
      modifies this, buyer, inviter, panel, bought
      ensures Valid() && ok == if key in old(receipts) then old(receipts)[key] == Receipt(reason, amount) else old(Allowed(amount))
      ensures BuyerSide() == old(BuyerSide()) && InviterSide() == old(InviterSide()) && QuotaSide() == old(QuotaSide())
      ensures receipts == if ok then old(receipts)[key := Receipt(reason, amount)] else old(receipts)
      ensures if ok && key !in old(receipts) then
                && bought.refunded == old(bought.refunded) + amount
                && bought.removed == Fraction(bought.quota, bought.refunded, bought.price)
                && (old(bought.commission.status) == Refunds.Paid ==>
                      bought.commission.net == bought.commission.amount - Fraction(bought.commission.amount, bought.refunded, bought.price))
                && panel.Tables() == old(panel.Tables()).(ents := old(panel.ents)[ent := panel.ents[ent]])
                && panel.ents[ent] == old(panel.ents[ent]).(quota := panel.ents[ent].quota)
                && buyer.orders == old(buyer.orders) && buyer.refunds == old(buyer.refunds)
                && buyer.sales == old(buyer.sales)[purchase := Sale(bought.price, bought.refunded)]
                && inviter.orders == old(inviter.orders) && inviter.refunds == old(inviter.refunds) && inviter.sales == old(inviter.sales)
              else
                && bought.refunded == old(bought.refunded) && bought.removed == old(bought.removed) && bought.commission == old(bought.commission)
                && panel.Tables() == old(panel.Tables())
                && buyer.balance == old(buyer.balance) && buyer.sales == old(buyer.sales) && buyer.funds == old(buyer.funds)
                && inviter.balance == old(inviter.balance) && inviter.funds == old(inviter.funds) && inviter.entries == old(inviter.entries)
    {
      hide Balanced, Wallet.Account.Valid;
      if key in receipts {
        ok := receipts[key] == Receipt(reason, amount);
        assert ok ==> receipts[key := Receipt(reason, amount)] == receipts;
        return;
      }
      var share, net := bought.removed, bought.commission.net;
      ok := bought.RefundPart(amount, panel.ents[ent].quota - panel.ents[ent].allotted, inviter.balance);
      if !ok { return; }
      share, net := bought.removed - share, net - bought.commission.net;
      FractionIsMonotone(bought.quota, old(bought.refunded), bought.refunded, bought.price);
      var reduced := panel.ReduceQuota(ent, share);
      if net != 0 {
        var posted := inviter.PostEntry(entry, -net);
      }
      var paid := buyer.RefundPurchase(purchase, amount);
      SumPut(receipts, Repaid(), key, Receipt(reason, amount));
      receipts := receipts[key := Receipt(reason, amount)];
    }

    /** Pay out what refunds have left of the commission, once. */
    method PayCommission(entry: Id) returns (ok: bool)
      requires Valid() && entry !in inviter.entries
      modifies inviter, bought
      ensures Valid() && ok == (0 < old(bought.commission.amount) && old(bought.commission.status) != Reversed)
      ensures InviterSide() == old(InviterSide()) && receipts == old(receipts) && bought.refunded == old(bought.refunded) && bought.removed == old(bought.removed)
      ensures ok ==> bought.commission.status == Refunds.Paid
                     && bought.commission.net == bought.commission.amount - Fraction(bought.commission.amount, bought.refunded, bought.price)
      ensures !ok ==> bought.commission == old(bought.commission) && inviter.balance == old(inviter.balance) && inviter.funds == old(inviter.funds)
    {
      hide Balanced, Wallet.Account.Valid;
      var net := bought.commission.net;
      ok := bought.SettleCommission();
      if ok && bought.commission.net != net {
        var posted := inviter.PostEntry(entry, bought.commission.net - net);
      }
    }

    /** Take the commission back; the inviter ends with exactly what they had before it. */
    method TakeBackCommission(entry: Id) returns (ok: bool)
      requires Valid() && entry !in inviter.entries
      modifies inviter, bought
      ensures Valid() && ok == (0 < old(bought.commission.amount) && (old(bought.commission.status) != Refunds.Paid || old(bought.commission.net) <= old(inviter.balance)))
      ensures InviterSide() == old(InviterSide()) && receipts == old(receipts) && bought.refunded == old(bought.refunded) && bought.removed == old(bought.removed)
      ensures ok ==> bought.commission.status == Reversed && bought.commission.net == 0
      ensures !ok ==> bought.commission == old(bought.commission) && inviter.balance == old(inviter.balance) && inviter.funds == old(inviter.funds)
    {
      hide Balanced, Wallet.Account.Valid;
      var net := bought.commission.net;
      ok := bought.ReverseCommission(inviter.balance);
      if ok && net != 0 {
        var posted := inviter.PostEntry(entry, -net);
      }
    }
  }
}
