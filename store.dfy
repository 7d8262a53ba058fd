/**
 * The endpoint as it runs: the five tables are fields that POST updates in
 * place. Each method is tied to the value-level definition in
 * balance_payment.dfy, whose properties are proved in
 * balance_payment_proofs.dfy.
 */
module PaymentStore {
  import opened BalancePayment
  import Receipt

  class Store {
    var customers: map<Id, bool>
    var suppliers: map<Id, bool>
    var sales: map<Id, Ledger>
    var purchases: map<Id, Ledger>
    var payments: seq<Payment>

    /** The tables as one value. */
    function Tables(): Db
      reads this
    {
      Db(customers, suppliers, sales, purchases, payments)
    }

    constructor (db: Db)
      ensures Tables() == db
    {
      customers, suppliers, sales, purchases, payments :=
        db.customers, db.suppliers, db.sales, db.purchases, db.payments;
    }

    /**
     * POST /balance-payment at time `now`: run the guard chain, then insert the
     * payment and update the referenced sale and purchase rows.
     */
    method Post(req: Request, now: nat) returns (res: Response)
      modifies this
      ensures Transition(Tables(), res) == Record(old(Tables()), req, now)
      ensures res.Rejected? ==> unchanged(this)
      ensures res.Created? ==> payments == old(payments) + [res.payment]
      ensures customers == old(customers) && suppliers == old(suppliers)
      ensures forall k | k in sales :: Total(sales[k]) == Total(old(sales)[k])
      ensures forall k | k in purchases :: Total(purchases[k]) == Total(old(purchases)[k])
    {
      var verdict := Check(Tables(), req);
      if verdict.Reject? {
        return Rejected(verdict.rule);
      }
      var receiptNo := Receipt.ReceiptNo(now);
      var payment := Payment(
        customerId := OrNull(req.customerId),
        supplierId := OrNull(req.supplierId),
        saleId := OrNull(req.saleId),
        purchaseId := OrNull(req.purchaseId),
        amount := req.amount.value,
        paymentMethod := req.paymentMethod.value,
        receiptNo := receiptNo,
        notes := OrNull(req.notes),
        warehousesId := OrNull(req.warehousesId),
        createdAt := now,
        isDeleted := false);
      assert payment == NewPayment(req, now);
      payments := payments + [payment];

      var amount := req.amount.value;
      if Given(req.saleId) {
        var sale := sales[req.saleId.value];
        var newBalance := sale.balance - amount;
        var newPaidAmount := sale.paidAmount + amount;
        assert sale.(balance := newBalance, paidAmount := newPaidAmount) == Settle(sale, amount);
        sales := sales[req.saleId.value := sale.(balance := newBalance, paidAmount := newPaidAmount)];
      }
      assert sales == Charge(old(sales), req.saleId, amount);
      if Given(req.purchaseId) {
        var purchase := purchases[req.purchaseId.value];
        var newBalance := purchase.balance - amount;
        var newPaidAmount := purchase.paidAmount + amount;
        assert purchase.(balance := newBalance, paidAmount := newPaidAmount) == Settle(purchase, amount);
        purchases := purchases[req.purchaseId.value := purchase.(balance := newBalance, paidAmount := newPaidAmount)];
      }
      assert purchases == Charge(old(purchases), req.purchaseId, amount);
      res := Created(payment);
    }

    /** GET /balance-payment: reads the payment table and changes nothing. */
    method Get(q: Query) returns (r: Listing)
      ensures r == ListPayments(payments, q)
      ensures r.Listed? ==> NewestFirst(r.payments)
      ensures r.Listed? ==> forall p :: p in r.payments ==> p in payments && Belongs(OwnerOf(q).value, p)
    {
      r := ListPayments(payments, q);
      if r.Listed? {
        forall p | p in r.payments
          ensures p in payments && Belongs(OwnerOf(q).value, p)
        {
          assert multiset(r.payments)[p] > 0;
        }
      }
    }
  }

  /** Two GETs with no write between them return the same list. */
  method GetTwice(store: Store, q: Query) returns (first: Listing, second: Listing)
    ensures first == second
  {
    first := store.Get(q);
    second := store.Get(q);
  }
}
