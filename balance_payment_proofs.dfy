/**
 * Properties of the balance-payment endpoint: the order of its rules, what an
 * accepted or rejected POST does to the tables, what holds across any run of
 * POSTs, and how POST and GET relate.
 */
module BalancePaymentProofs {
  import opened Options
  import opened BalancePayment
  import Receipt

  // ---------------------------------------------------------------------------
  // Validation
  // ---------------------------------------------------------------------------

  /** A rejection names a rule the request breaks, and every rule before it holds. */
  lemma RejectedRuleIsFirst(db: Db, req: Request)
    requires Check(db, req).Reject?
    ensures !Holds(Check(db, req).rule, db, req)
    ensures forall j | 0 <= j < Position(Check(db, req).rule) :: Holds(Rules[j], db, req)
  {
  }

  /** The guard chain reports exactly the first rule, in `Rules` order, that the request breaks. */
  lemma CheckIsFirstViolation(db: Db, req: Request)
    ensures Check(db, req) == match FirstViolated(Rules, db, req)
                              case None => Accept
                              case Some(k) => Reject(Rules[k])
  {
    var first := FirstViolated(Rules, db, req);
    var v := Check(db, req);
    if v.Accept? {
      AcceptedRequestIsSound(db, req);
    } else {
      RejectedRuleIsFirst(db, req);
      var k := Position(v.rule);
      assert first == Some(k);
    }
  }

  /** A request with no owner, a falsy amount or no payment method is turned away whatever the tables hold. */
  lemma MissingFieldsBeforeLookup(db: Db, req: Request)
    requires (!Given(req.customerId) && !Given(req.supplierId)) || !AmountGiven(req) || !Given(req.paymentMethod)
    ensures Check(db, req) == Reject(FieldsRequired) && Status(FieldsRequired) == 400
  {
  }

  /** An amount of 0 counts as missing. */
  lemma ZeroAmountIsMissing(db: Db, req: Request)
    requires req.amount == Some(0)
    ensures Check(db, req) == Reject(FieldsRequired)
  {
  }

  /** Naming both a customer and a supplier is refused, again before any lookup. */
  lemma BothOwnersRejected(db: Db, req: Request)
    requires Holds(FieldsRequired, db, req)
    requires Given(req.customerId) && Given(req.supplierId)
    ensures Check(db, req) == Reject(OwnersExclusive) && Status(OwnersExclusive) == 400
  {
  }

  /** The two request-shape rules never look at the tables. */
  lemma ShapeRulesIgnoreTables(db1: Db, db2: Db, req: Request)
    requires Check(db1, req) == Reject(FieldsRequired) || Check(db1, req) == Reject(OwnersExclusive)
    ensures Check(db2, req) == Check(db1, req)
  {
  }

  /** A request the chain accepts names a live customer or supplier, never both, and covers every referenced row. */
  lemma AcceptedRequestIsSound(db: Db, req: Request)
    requires Check(db, req) == Accept
    ensures forall k | 0 <= k < |Rules| :: Holds(Rules[k], db, req)
  {
  }

  // ---------------------------------------------------------------------------
  // One POST
  // ---------------------------------------------------------------------------

  /** Every rejection returns before the insert and the ledger updates. */
  lemma RejectionChangesNothing(db: Db, req: Request, now: nat)
    requires Check(db, req).Reject?
    ensures Record(db, req, now) == Transition(db, Rejected(Check(db, req).rule))
  {
  }

  /** The original total of every sale and purchase row. */
  function Totals(rows: map<Id, Ledger>): (t: map<Id, int>)
    ensures t.Keys == rows.Keys
    ensures forall k | k in rows :: t[k] == rows[k].balance + rows[k].paidAmount
  {
    map k | k in rows :: Total(rows[k])
  }

  /** `balance + paidAmount` of every row is the same after a POST as before. */
  lemma RecordConservesTotals(db: Db, req: Request, now: nat)
    ensures Totals(Record(db, req, now).db.sales) == Totals(db.sales)
    ensures Totals(Record(db, req, now).db.purchases) == Totals(db.purchases)
  {
  }

  /**
   * An accepted POST appends exactly one payment, for exactly one owner, with
   * the "BP-" receipt number of its instant, and moves `amount` from balance
   * to paidAmount on the referenced sale and purchase rows only.
   */
  lemma AcceptedRecordEffect(db: Db, req: Request, now: nat)
    requires Check(db, req) == Accept
    ensures var after := Record(db, req, now).db;
      && after.customers == db.customers && after.suppliers == db.suppliers
      && |after.payments| == |db.payments| + 1
      && after.payments[..|db.payments|] == db.payments
      && Record(db, req, now).response == Created(after.payments[|db.payments|])
  {
    var after := Record(db, req, now).db;
    assert after.payments == db.payments + [NewPayment(req, now)];
  }

  /**
   * The record inserted for an accepted request: the request's owner and
   * references with falsy ones stored as null (so exactly one owner), the
   * nonzero amount, the payment method, the receipt number "BP-" + `now`,
   * the notes and warehouse, created at `now` and not deleted.
   */
  lemma CreatedPaymentFields(db: Db, req: Request, now: nat)
    requires Check(db, req) == Accept
    ensures var p := Record(db, req, now).response.payment;
      && p.customerId == OrNull(req.customerId) && p.supplierId == OrNull(req.supplierId)
      && (p.customerId.Some? != p.supplierId.Some?)
      && p.saleId == OrNull(req.saleId) && p.purchaseId == OrNull(req.purchaseId)
      && p.amount == req.amount.value && p.amount != 0
      && p.paymentMethod == req.paymentMethod.value
      && p.receiptNo == Receipt.ReceiptNo(now) && Receipt.ReceiptTime(p.receiptNo) == Some(now)
      && p.notes == OrNull(req.notes) && p.warehousesId == OrNull(req.warehousesId)
      && p.createdAt == now && !p.isDeleted
  {
    Receipt.ReceiptRoundTrip(now);
  }

  /** Only the sale row keyed by saleId and the purchase row keyed by referenceNo change, and by exactly the amount. */
  lemma AcceptedRecordTouchesOnlyReferencedRows(db: Db, req: Request, now: nat)
    requires Check(db, req) == Accept
    ensures var after := Record(db, req, now).db;
      && after.sales.Keys == db.sales.Keys
      && after.purchases.Keys == db.purchases.Keys
      && (forall k | k in db.sales && !(Given(req.saleId) && k == req.saleId.value) :: after.sales[k] == db.sales[k])
      && (forall k | k in db.purchases && !(Given(req.purchaseId) && k == req.purchaseId.value) ::
            after.purchases[k] == db.purchases[k])
      && (Given(req.saleId) ==>
            after.sales[req.saleId.value].balance == db.sales[req.saleId.value].balance - req.amount.value
            && after.sales[req.saleId.value].paidAmount == db.sales[req.saleId.value].paidAmount + req.amount.value)
      && (Given(req.purchaseId) ==>
            after.purchases[req.purchaseId.value].balance == db.purchases[req.purchaseId.value].balance - req.amount.value
            && after.purchases[req.purchaseId.value].paidAmount == db.purchases[req.purchaseId.value].paidAmount + req.amount.value)
  {
  }

  // ---------------------------------------------------------------------------
  // Runs of POSTs
  // ---------------------------------------------------------------------------

  /** No sale or purchase row is overdrawn. */
  ghost predicate NoOverdraft(db: Db) {
    && (forall k | k in db.sales :: db.sales[k].balance >= 0)
    && (forall k | k in db.purchases :: db.purchases[k].balance >= 0)
  }

  lemma RecordKeepsNoOverdraft(db: Db, req: Request, now: nat)
    requires NoOverdraft(db)
    ensures NoOverdraft(Record(db, req, now).db)
  {
  }

  /** Handled one after another, no run of POSTs drives a balance below zero. */
  lemma {:induction false} ReplayKeepsNoOverdraft(db: Db, calls: seq<Call>)
    requires NoOverdraft(db)
    ensures NoOverdraft(Replay(db, calls))
    decreases |calls|
  {
    if calls != [] {
      RecordKeepsNoOverdraft(db, calls[0].req, calls[0].now);
      ReplayKeepsNoOverdraft(Record(db, calls[0].req, calls[0].now).db, calls[1..]);
    }
  }

  /** `balance + paidAmount` is the original total of every row at all times. */
  lemma {:induction false} ReplayConservesTotals(db: Db, calls: seq<Call>)
    ensures Totals(Replay(db, calls).sales) == Totals(db.sales)
    ensures Totals(Replay(db, calls).purchases) == Totals(db.purchases)
    decreases |calls|
  {
    if calls != [] {
      RecordConservesTotals(db, calls[0].req, calls[0].now);
      ReplayConservesTotals(Record(db, calls[0].req, calls[0].now).db, calls[1..]);
    }
  }

  /** Payments are never removed or rewritten: a run only appends to the payment table. */
  lemma {:induction false} ReplayOnlyAppendsPayments(db: Db, calls: seq<Call>)
    ensures |db.payments| <= |Replay(db, calls).payments|
    ensures Replay(db, calls).payments[..|db.payments|] == db.payments
    decreases |calls|
  {
    if calls != [] {
      var next := Record(db, calls[0].req, calls[0].now).db;
      assert next.payments[..|db.payments|] == db.payments;
      ReplayOnlyAppendsPayments(next, calls[1..]);
      assert Replay(db, calls).payments[..|next.payments|] == next.payments;
      assert Replay(db, calls).payments[..|db.payments|] == next.payments[..|db.payments|];
    }
  }

  // ---------------------------------------------------------------------------
  // POST and GET together
  // ---------------------------------------------------------------------------

  lemma {:induction false} SelectAppend(owner: Owner, ps: seq<Payment>, p: Payment)
    ensures Select(owner, ps + [p]) == Select(owner, ps) + (if Belongs(owner, p) then [p] else [])
    decreases |ps|
  {
    var tail := if Belongs(owner, p) then [p] else [];
    if ps == [] {
      assert ps + [p] == [p];
      assert Select(owner, [p]) == tail + Select(owner, []);
    } else {
      var head := if Belongs(owner, ps[0]) then [ps[0]] else [];
      assert (ps + [p])[0] == ps[0];
      assert (ps + [p])[1..] == ps[1..] + [p];
      calc {
        Select(owner, ps + [p]);
        head + Select(owner, ps[1..] + [p]);
        { SelectAppend(owner, ps[1..], p); }
        head + (Select(owner, ps[1..]) + tail);
        (head + Select(owner, ps[1..])) + tail;
        Select(owner, ps) + tail;
      }
    }
  }

  /**
   * After an accepted POST, the history of the payment's owner gains exactly
   * the new record and every other history (or refusal) is what it was.
   */
  lemma AcceptedRecordExtendsOwnHistoryOnly(db: Db, req: Request, now: nat, q: Query)
    requires Check(db, req) == Accept
    ensures var p := Record(db, req, now).response.payment;
      var before := ListPayments(db.payments, q);
      var after := ListPayments(Record(db, req, now).db.payments, q);
      && before.Refused? == after.Refused?
      && (before.Refused? ==> after == before)
      && (before.Listed? && !Belongs(OwnerOf(q).value, p) ==> after == before)
      && (before.Listed? && Belongs(OwnerOf(q).value, p) ==>
            multiset(after.payments) == multiset(before.payments) + multiset{p})
  {
    var p := NewPayment(req, now);
    var ps := db.payments;
    assert Record(db, req, now).db.payments == ps + [p];
    var owner := OwnerOf(q);
    if owner.Some? {
      var o := owner.value;
      SelectAppend(o, ps, p);
      var before := SortNewestFirst(Select(o, ps));
      var after := SortNewestFirst(Select(o, ps + [p]));
      assert ListPayments(ps, q) == Listed(before);
      assert ListPayments(ps + [p], q) == Listed(after);
      if Belongs(o, p) {
        calc {
          multiset(after);
          multiset(Select(o, ps) + [p]);
          multiset(Select(o, ps)) + multiset{p};
          multiset(before) + multiset{p};
        }
      } else {
        assert Select(o, ps) + [] == Select(o, ps);
        assert after == before;
      }
    }
  }

  /** A GET with the owner parameters of an accepted POST lists the payment that POST recorded. */
  lemma AcceptedPaymentIsListedForItsOwner(db: Db, req: Request, now: nat)
    requires Check(db, req) == Accept
    ensures var t := Record(db, req, now);
      var listing := ListPayments(t.db.payments, Query(req.customerId, req.supplierId));
      && listing.Listed?
      && t.response.payment in listing.payments
  {
    var t := Record(db, req, now);
    var p := NewPayment(req, now);
    var q := Query(req.customerId, req.supplierId);
    assert t.db.payments == db.payments + [p];
    assert Belongs(OwnerOf(q).value, p);
    ListedIffBelongs(t.db.payments, q, p);
  }

  /** A rejected POST between two GETs leaves every history as it was. */
  lemma RejectedRecordKeepsHistory(db: Db, req: Request, now: nat, q: Query)
    requires Check(db, req).Reject?
    ensures ListPayments(Record(db, req, now).db.payments, q) == ListPayments(db.payments, q)
  {
  }

  /** Every listed payment belongs to the queried owner and is not soft-deleted; every such payment is listed. */
  lemma ListedIffBelongs(payments: seq<Payment>, q: Query, p: Payment)
    requires ListPayments(payments, q).Listed?
    ensures p in ListPayments(payments, q).payments <==> p in payments && Belongs(OwnerOf(q).value, p)
  {
    var r := ListPayments(payments, q).payments;
    assert p in r <==> multiset(r)[p] > 0;
    assert p in payments <==> multiset(payments)[p] > 0;
  }
}
