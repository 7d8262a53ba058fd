/**
 * Concrete runs of the balance-payment endpoint: two payments that together
 * exceed a balance, a payment naming both a sale and a purchase, and a
 * negative amount.
 */
module BalancePaymentScenarios {
  import opened Options
  import opened BalancePayment

  /** A cash payment of `amount` by `customer` against the sale with invoice number `invoice`. */
  function CashPayment(customer: Id, invoice: Id, amount: int): Request {
    Request(Some(customer), None, Some(invoice), None, Some(amount), Some("cash"), None, None)
  }

  /** What an accepted POST leaves in the owner and ledger tables, stated without the inserted record. */
  lemma AcceptedLedgerEffect(db: Db, req: Request, now: nat)
    requires Check(db, req) == Accept
    ensures Record(db, req, now).response.Created?
    ensures Record(db, req, now).db.customers == db.customers
    ensures Record(db, req, now).db.sales == Charge(db.sales, req.saleId, Amount(req))
    ensures Record(db, req, now).db.purchases == Charge(db.purchases, req.purchaseId, Amount(req))
  {
  }

  /** With 100 outstanding, a payment of 60 is accepted and leaves the sale at (40, 60). */
  lemma FirstSixtyAccepted(db: Db, customer: Id, invoice: Id, now: nat)
    requires customer != "" && invoice != ""
    requires Active(db.customers, customer)
    requires invoice in db.sales && db.sales[invoice] == Ledger(100, 0, false)
    ensures Check(db, CashPayment(customer, invoice, 60)) == Accept
    ensures var after := Record(db, CashPayment(customer, invoice, 60), now).db;
      && after.customers == db.customers
      && invoice in after.sales && after.sales[invoice] == Ledger(40, 60, false)
  {
    var req := CashPayment(customer, invoice, 60);
    assert Given(req.customerId) && Given(req.saleId) && Given(req.paymentMethod);
    assert Check(db, req) == Accept;
    AcceptedLedgerEffect(db, req, now);
    assert Record(db, req, now).db.sales[invoice] == Settle(db.sales[invoice], 60);
  }

  /** With 40 outstanding, a further payment of 60 is refused and nothing changes. */
  lemma SecondSixtyRejected(db: Db, customer: Id, invoice: Id, now: nat)
    requires customer != "" && invoice != ""
    requires Active(db.customers, customer)
    requires invoice in db.sales && db.sales[invoice] == Ledger(40, 60, false)
    ensures Check(db, CashPayment(customer, invoice, 60)) == Reject(SaleCovered)
    ensures Record(db, CashPayment(customer, invoice, 60), now) == Transition(db, Rejected(SaleCovered))
  {
  }

  /** Two payments of 60 handled in turn against a sale whose balance is 100: the second is refused. */
  lemma SecondOverdraftIsRejected(db: Db, customer: Id, invoice: Id, now1: nat, now2: nat)
    requires customer != "" && invoice != ""
    requires Active(db.customers, customer)
    requires invoice in db.sales && db.sales[invoice] == Ledger(100, 0, false)
    ensures var req := CashPayment(customer, invoice, 60);
      var first := Record(db, req, now1);
      var second := Record(first.db, req, now2);
      && first.response.Created?
      && invoice in first.db.sales && first.db.sales[invoice] == Ledger(40, 60, false)
      && second.response == Rejected(SaleCovered)
      && second.db == first.db
  {
    var req := CashPayment(customer, invoice, 60);
    FirstSixtyAccepted(db, customer, invoice, now1);
    var first := Record(db, req, now1);
    SecondSixtyRejected(first.db, customer, invoice, now2);
  }

  /** The chain does not keep a payment from naming both a sale and a purchase: both rows are charged. */
  lemma SaleAndPurchaseBothCharged(db: Db, supplier: Id, invoice: Id, reference: Id, now: nat)
    requires supplier != "" && invoice != "" && reference != ""
    requires Active(db.suppliers, supplier)
    requires invoice in db.sales && db.sales[invoice] == Ledger(100, 0, false)
    requires reference in db.purchases && db.purchases[reference] == Ledger(80, 20, false)
    ensures var req := Request(None, Some(supplier), Some(invoice), Some(reference), Some(30), Some("card"), None, None);
      var t := Record(db, req, now);
      && t.response.Created?
      && t.db.sales[invoice] == Ledger(70, 30, false)
      && t.db.purchases[reference] == Ledger(50, 50, false)
  {
    var req := Request(None, Some(supplier), Some(invoice), Some(reference), Some(30), Some("card"), None, None);
    assert Given(req.supplierId) && Given(req.saleId) && Given(req.purchaseId) && Given(req.paymentMethod);
    assert Check(db, req) == Accept;
    AcceptedLedgerEffect(db, req, now);
    var t := Record(db, req, now);
    assert t.db.sales[invoice] == Settle(db.sales[invoice], 30);
    assert t.db.purchases[reference] == Settle(db.purchases[reference], 30);
  }

  /** A negative amount is truthy and never exceeds a balance, so it passes and raises the balance. */
  lemma NegativeAmountRaisesBalance(db: Db, customer: Id, invoice: Id, now: nat)
    requires customer != "" && invoice != ""
    requires Active(db.customers, customer)
    requires invoice in db.sales && db.sales[invoice] == Ledger(100, 0, false)
    ensures var req := Request(Some(customer), None, Some(invoice), None, Some(-50), Some("cash"), None, None);
      var t := Record(db, req, now);
      && t.response.Created?
      && t.db.sales[invoice] == Ledger(150, -50, false)
  {
    var req := Request(Some(customer), None, Some(invoice), None, Some(-50), Some("cash"), None, None);
    assert Given(req.customerId) && Given(req.saleId) && Given(req.paymentMethod);
    assert Check(db, req) == Accept;
    AcceptedLedgerEffect(db, req, now);
    assert Record(db, req, now).db.sales[invoice] == Settle(db.sales[invoice], -50);
  }
}
