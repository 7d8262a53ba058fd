/**
 * The balance-payment endpoint of the warehouse application
 * (app/api/balance-payment/route.ts), with its database tables abstracted
 * as values:
 *   - customers and suppliers: id -> isDeleted
 *   - sales: invoiceNo -> ledger row; purchases: referenceNo -> ledger row
 *   - balance payments: the table's rows in insertion order
 * Amounts are integers (for example cents).
 *
 * POST is a guard chain (`Check`) followed by one insert and up to two ledger
 * updates (`Record`); GET is a filter plus a newest-first order
 * (`ListPayments`). The class in store.dfy performs the same steps in place.
 */
module BalancePayment {
  import opened Options
  import Receipt

  type Id = string

  /** A request field is "given" exactly when JavaScript treats it as truthy. */
  predicate Given(o: Option<string>) {
    o.Some? && o.value != ""
  }

  /** `x || null`: a falsy field is stored as null. */
  function OrNull(o: Option<string>): (r: Option<string>)
    ensures r.Some? <==> Given(o)
    ensures r.Some? ==> r == o
  {
    if Given(o) then o else None
  }

  /** A sale or purchase row, as far as this endpoint reads and writes it. */
  datatype Ledger = Ledger(balance: int, paidAmount: int, isDeleted: bool)

  /** What the row's original total was: the quantity a payment moves but never changes. */
  function Total(row: Ledger): int {
    row.balance + row.paidAmount
  }

  datatype Payment = Payment(
    customerId: Option<Id>,
    supplierId: Option<Id>,
    saleId: Option<Id>,
    purchaseId: Option<Id>,
    amount: int,
    paymentMethod: string,
    receiptNo: string,
    notes: Option<string>,
    warehousesId: Option<Id>,
    createdAt: nat,
    isDeleted: bool)

  datatype Db = Db(
    customers: map<Id, bool>,
    suppliers: map<Id, bool>,
    sales: map<Id, Ledger>,
    purchases: map<Id, Ledger>,
    payments: seq<Payment>)

  /** The JSON body of a POST. `amount` is None when absent or null. */
  datatype Request = Request(
    customerId: Option<Id>,
    supplierId: Option<Id>,
    saleId: Option<Id>,
    purchaseId: Option<Id>,
    amount: Option<int>,
    paymentMethod: Option<string>,
    notes: Option<string>,
    warehousesId: Option<Id>)

  /** `!amount` is false: the amount is present and not zero. */
  predicate AmountGiven(req: Request) {
    req.amount.Some? && req.amount.value != 0
  }

  function Amount(req: Request): int {
    if req.amount.Some? then req.amount.value else 0
  }

  /** `findUnique({ where: { id, isDeleted: false } })` finds a row. */
  predicate Active(people: map<Id, bool>, id: Id) {
    id in people && !people[id]
  }

  /** The same lookup on the sale or purchase table. */
  predicate Live(rows: map<Id, Ledger>, id: Id) {
    id in rows && !rows[id].isDeleted
  }

  // ---------------------------------------------------------------------------
  // Validation of a POST
  // ---------------------------------------------------------------------------

  /** The validation rules, named after what each one demands. */
  datatype Rule =
    | FieldsRequired
    | OwnersExclusive
    | CustomerExists
    | SupplierExists
    | SaleExists
    | SaleHasBalance
    | SaleCovered
    | PurchaseExists
    | PurchaseHasBalance
    | PurchaseCovered

  /** The order in which the endpoint tries the rules. */
  const Rules: seq<Rule> := [
    FieldsRequired, OwnersExclusive, CustomerExists, SupplierExists,
    SaleExists, SaleHasBalance, SaleCovered,
    PurchaseExists, PurchaseHasBalance, PurchaseCovered]

  /** Where a rule stands in `Rules`. */
  function Position(rule: Rule): (k: nat)
    ensures k < |Rules| && Rules[k] == rule
  {
    match rule
    case FieldsRequired => 0
    case OwnersExclusive => 1
    case CustomerExists => 2
    case SupplierExists => 3
    case SaleExists => 4
    case SaleHasBalance => 5
    case SaleCovered => 6
    case PurchaseExists => 7
    case PurchaseHasBalance => 8
    case PurchaseCovered => 9
  }

  /**
   * Each rule on its own. A rule about a customer, supplier, sale or purchase
   * holds trivially when the request does not name one; the balance rules
   * speak only of a row that is there (the existence rule comes first).
   */
  predicate Holds(rule: Rule, db: Db, req: Request) {
    match rule
    case FieldsRequired =>
      (Given(req.customerId) || Given(req.supplierId)) && AmountGiven(req) && Given(req.paymentMethod)
    case OwnersExclusive =>
      !(Given(req.customerId) && Given(req.supplierId))
    case CustomerExists =>
      Given(req.customerId) ==> Active(db.customers, req.customerId.value)
    case SupplierExists =>
      Given(req.supplierId) ==> Active(db.suppliers, req.supplierId.value)
    case SaleExists =>
      Given(req.saleId) ==> Live(db.sales, req.saleId.value)
    case SaleHasBalance =>
      Given(req.saleId) && Live(db.sales, req.saleId.value) ==> db.sales[req.saleId.value].balance > 0
    case SaleCovered =>
      Given(req.saleId) && Live(db.sales, req.saleId.value) ==> Amount(req) <= db.sales[req.saleId.value].balance
    case PurchaseExists =>
      Given(req.purchaseId) ==> Live(db.purchases, req.purchaseId.value)
    case PurchaseHasBalance =>
      Given(req.purchaseId) && Live(db.purchases, req.purchaseId.value) ==> db.purchases[req.purchaseId.value].balance > 0
    case PurchaseCovered =>
      Given(req.purchaseId) && Live(db.purchases, req.purchaseId.value) ==> Amount(req) <= db.purchases[req.purchaseId.value].balance
  }

  /**
   * "Fail fast": the position of the first rule of `rules` that does not
   * hold, or None when all of them hold.
   */
  function FirstViolated(rules: seq<Rule>, db: Db, req: Request): (r: Option<nat>)
    ensures r.None? <==> forall k | 0 <= k < |rules| :: Holds(rules[k], db, req)
    ensures r.Some? ==> r.value < |rules| && !Holds(rules[r.value], db, req)
    ensures r.Some? ==> forall j | 0 <= j < r.value :: Holds(rules[j], db, req)
  {
    if rules == [] then None
    else if !Holds(rules[0], db, req) then Some(0)
    else match FirstViolated(rules[1..], db, req)
      case None => None
      case Some(k) => Some(k + 1)
  }

  datatype Verdict = Accept | Reject(rule: Rule)

  /**
   * The guard chain of POST, in the order and with the conditions the
   * endpoint tests them.
   */
  function Check(db: Db, req: Request): (v: Verdict)
    ensures v.Accept? ==> Given(req.customerId) != Given(req.supplierId)
    ensures v.Accept? ==> AmountGiven(req) && Given(req.paymentMethod)
    ensures v.Accept? && Given(req.customerId) ==> Active(db.customers, req.customerId.value)
    ensures v.Accept? && Given(req.supplierId) ==> Active(db.suppliers, req.supplierId.value)
    ensures v.Accept? && Given(req.saleId) ==>
      Live(db.sales, req.saleId.value) && 0 < db.sales[req.saleId.value].balance && Amount(req) <= db.sales[req.saleId.value].balance
    ensures v.Accept? && Given(req.purchaseId) ==>
      Live(db.purchases, req.purchaseId.value) && 0 < db.purchases[req.purchaseId.value].balance
      && Amount(req) <= db.purchases[req.purchaseId.value].balance
  {
    var customerId, supplierId, saleId, purchaseId := req.customerId, req.supplierId, req.saleId, req.purchaseId;
    if (!Given(customerId) && !Given(supplierId)) || !AmountGiven(req) || !Given(req.paymentMethod) then Reject(FieldsRequired)
    else if Given(customerId) && Given(supplierId) then Reject(OwnersExclusive)
    else if Given(customerId) && !Active(db.customers, customerId.value) then Reject(CustomerExists)
    else if Given(supplierId) && !Active(db.suppliers, supplierId.value) then Reject(SupplierExists)
    else if Given(saleId) && !Live(db.sales, saleId.value) then Reject(SaleExists)
    else if Given(saleId) && db.sales[saleId.value].balance <= 0 then Reject(SaleHasBalance)
    else if Given(saleId) && Amount(req) > db.sales[saleId.value].balance then Reject(SaleCovered)
    else if Given(purchaseId) && !Live(db.purchases, purchaseId.value) then Reject(PurchaseExists)
    else if Given(purchaseId) && db.purchases[purchaseId.value].balance <= 0 then Reject(PurchaseHasBalance)
    else if Given(purchaseId) && Amount(req) > db.purchases[purchaseId.value].balance then Reject(PurchaseCovered)
    else Accept
  }

  /** The error taxonomy of the service, and the HTTP status the code sends for each rule. */
  datatype ErrorKind = InvalidRequest | NotFound | InvalidState

  function Kind(rule: Rule): ErrorKind {
    match rule
    case CustomerExists | SupplierExists | SaleExists | PurchaseExists => NotFound
    case SaleHasBalance | PurchaseHasBalance => InvalidState
    case _ => InvalidRequest
  }

  /** "No outstanding balance" is sent with 400, like a malformed request. */
  function Status(rule: Rule): (code: int)
    ensures code == 400 || code == 404
    ensures code == 404 <==> Kind(rule) == NotFound
  {
    match rule
    case CustomerExists | SupplierExists | SaleExists | PurchaseExists => 404
    case _ => 400
  }

  /** The texts of the rejections that are not a missing row. */
  const FieldsRequiredText: string := "Customer ID or Supplier ID, amount, and payment method are required"
  const OwnersExclusiveText: string := "Cannot provide both customer ID and supplier ID"
  const SaleHasBalanceText: string := "Sale has no outstanding balance"
  const PurchaseHasBalanceText: string := "Purchase has no outstanding balance"
  const CoveredText: string := "Payment amount cannot exceed outstanding balance"
  const NotFoundText: string := " not found"

  /** "<subject> not found". */
  function NotFoundMessage(subject: string): (m: string)
    requires subject != ""
    ensures |m| == |subject| + |NotFoundText| > |NotFoundText|
    ensures m[..|subject|] == subject && m[|subject|..] == NotFoundText
  {
    subject + NotFoundText
  }

  /**
   * The error text of each rule. Every not-found rule ends in " not found";
   * the two balance-exceeding rules share one text, as in the endpoint.
   */
  function Message(rule: Rule): (m: string)
    ensures Kind(rule) == NotFound ==> |m| > |NotFoundText| && m[|m| - |NotFoundText|..] == NotFoundText
  {
    match rule
    case FieldsRequired => FieldsRequiredText
    case OwnersExclusive => OwnersExclusiveText
    case CustomerExists => NotFoundMessage("Customer")
    case SupplierExists => NotFoundMessage("Supplier")
    case SaleExists => NotFoundMessage("Sale")
    case SaleHasBalance => SaleHasBalanceText
    case PurchaseExists => NotFoundMessage("Purchase")
    case PurchaseHasBalance => PurchaseHasBalanceText
    case SaleCovered | PurchaseCovered => CoveredText
  }

  // ---------------------------------------------------------------------------
  // The effect of an accepted POST
  // ---------------------------------------------------------------------------

  /** The row a payment of `amount` is applied to. */
  function Settle(row: Ledger, amount: int): (r: Ledger)
    ensures Total(r) == Total(row)
    ensures r.paidAmount - row.paidAmount == row.balance - r.balance == amount
    ensures r.isDeleted == row.isDeleted
    ensures row.balance >= amount ==> r.balance >= 0
  {
    Ledger(row.balance - amount, row.paidAmount + amount, row.isDeleted)
  }

  /** Applies the payment to the row keyed by `ref` when one is given; no other row changes. */
  function Charge(rows: map<Id, Ledger>, ref: Option<Id>, amount: int): (r: map<Id, Ledger>)
    ensures r.Keys == rows.Keys
    ensures forall k | k in rows && !(Given(ref) && k == ref.value) :: r[k] == rows[k]
    ensures Given(ref) && ref.value in rows ==> r[ref.value] == Settle(rows[ref.value], amount)
  {
    if Given(ref) && ref.value in rows then rows[ref.value := Settle(rows[ref.value], amount)] else rows
  }

  /** The payment record an accepted request inserts at time `now`. */
  function NewPayment(req: Request, now: nat): (p: Payment)
    ensures p.customerId == OrNull(req.customerId) && p.supplierId == OrNull(req.supplierId)
    ensures p.saleId == OrNull(req.saleId) && p.purchaseId == OrNull(req.purchaseId)
    ensures p.amount == Amount(req)
    ensures req.paymentMethod.Some? ==> p.paymentMethod == req.paymentMethod.value
    ensures p.receiptNo == Receipt.ReceiptNo(now)
    ensures p.notes == OrNull(req.notes) && p.warehousesId == OrNull(req.warehousesId)
    ensures p.createdAt == now && !p.isDeleted
  {
    Payment(
      customerId := OrNull(req.customerId),
      supplierId := OrNull(req.supplierId),
      saleId := OrNull(req.saleId),
      purchaseId := OrNull(req.purchaseId),
      amount := Amount(req),
      paymentMethod := if req.paymentMethod.Some? then req.paymentMethod.value else "",
      receiptNo := Receipt.ReceiptNo(now),
      notes := OrNull(req.notes),
      warehousesId := OrNull(req.warehousesId),
      createdAt := now,
      isDeleted := false)
  }

  datatype Response = Created(payment: Payment) | Rejected(rule: Rule)

  datatype Transition = Transition(db: Db, response: Response)

  /** One POST: either a rejection that leaves every table as it was, or an insert plus the ledger updates. */
  function Record(db: Db, req: Request, now: nat): (t: Transition)
    ensures t.response.Rejected? <==> Check(db, req).Reject?
  {
    match Check(db, req)
    case Reject(rule) => Transition(db, Rejected(rule))
    case Accept =>
      var payment := NewPayment(req, now);
      var amount := Amount(req);
      Transition(
        db.(payments := db.payments + [payment],
            sales := Charge(db.sales, req.saleId, amount),
            purchases := Charge(db.purchases, req.purchaseId, amount)),
        Created(payment))
  }

  /** A run of POSTs, each with the instant at which it is handled. */
  datatype Call = Call(req: Request, now: nat)

  function Replay(db: Db, calls: seq<Call>): Db
    decreases |calls|
  {
    if calls == [] then db
    else Replay(Record(db, calls[0].req, calls[0].now).db, calls[1..])
  }

  // ---------------------------------------------------------------------------
  // GET: the payment history of one customer or supplier
  // ---------------------------------------------------------------------------

  /** The query string of a GET; a parameter is None when absent. */
  datatype Query = Query(customerId: Option<Id>, supplierId: Option<Id>)

  datatype Owner = Customer(id: Id) | Supplier(id: Id)

  datatype ListError = OwnerRequired | OwnersBoth

  datatype Listing = Listed(payments: seq<Payment>) | Refused(error: ListError)

  /** The `where` clause: the owner matches and the payment is not soft-deleted. */
  predicate Belongs(owner: Owner, p: Payment): (b: bool)
    ensures b ==> !p.isDeleted
    ensures b && owner.Customer? ==> p.customerId == Some(owner.id)
    ensures b && owner.Supplier? ==> p.supplierId == Some(owner.id)
    ensures !p.isDeleted && owner.Customer? && p.customerId == Some(owner.id) ==> b
    ensures !p.isDeleted && owner.Supplier? && p.supplierId == Some(owner.id) ==> b
  {
    !p.isDeleted &&
    match owner
    case Customer(id) => p.customerId == Some(id)
    case Supplier(id) => p.supplierId == Some(id)
  }

  /** The rows of `ps` the `where` clause selects, in table order. */
  function Select(owner: Owner, ps: seq<Payment>): (r: seq<Payment>)
    ensures |r| <= |ps|
    ensures forall i | 0 <= i < |r| :: r[i] in ps && Belongs(owner, r[i])
  {
    if ps == [] then []
    else (if Belongs(owner, ps[0]) then [ps[0]] else []) + Select(owner, ps[1..])
  }

  /** Select keeps each selected row with its multiplicity and drops every other row. */
  lemma {:induction false} SelectCounts(owner: Owner, ps: seq<Payment>)
    ensures forall p :: multiset(Select(owner, ps))[p] == if Belongs(owner, p) then multiset(ps)[p] else 0
    decreases |ps|
  {
    if ps != [] {
      assert ps == [ps[0]] + ps[1..];
      SelectCounts(owner, ps[1..]);
    }
  }

  ghost predicate NewestFirst(ps: seq<Payment>) {
    forall i, j | 0 <= i < j < |ps| :: ps[i].createdAt >= ps[j].createdAt
  }

  /** Prepending a row no older than the head keeps a list newest first. */
  lemma ConsNewestFirst(q: Payment, ps: seq<Payment>)
    requires NewestFirst(ps)
    requires ps != [] ==> q.createdAt >= ps[0].createdAt
    ensures NewestFirst([q] + ps)
  {
    var r := [q] + ps;
    forall i, j | 0 <= i < j < |r|
      ensures r[i].createdAt >= r[j].createdAt
    {
      if i == 0 {
        assert r[j] == ps[j - 1];
        assert ps[0].createdAt >= ps[j - 1].createdAt;
      } else {
        assert r[i] == ps[i - 1] && r[j] == ps[j - 1];
      }
    }
  }

  /** Places p before the first row that is not newer than it. */
  function Insert(p: Payment, ps: seq<Payment>): (r: seq<Payment>)
    requires NewestFirst(ps)
    ensures NewestFirst(r)
    ensures |r| == |ps| + 1 && (r[0] == p || (ps != [] && r[0] == ps[0]))
  {
    if ps == [] || p.createdAt >= ps[0].createdAt then
      ConsNewestFirst(p, ps);
      [p] + ps
    else
      var rest := Insert(p, ps[1..]);
      assert rest[0].createdAt <= ps[0].createdAt by {
        if rest[0] != p {
          assert rest[0] == ps[1];
        }
      }
      ConsNewestFirst(ps[0], rest);
      [ps[0]] + rest
  }

  /** Insert adds exactly the one record and keeps every other. */
  lemma {:induction false} InsertCounts(p: Payment, ps: seq<Payment>)
    requires NewestFirst(ps)
    ensures multiset(Insert(p, ps)) == multiset(ps) + multiset{p}
  {
    if ps != [] && p.createdAt < ps[0].createdAt {
      InsertCounts(p, ps[1..]);
      assert ps == [ps[0]] + ps[1..];
    }
  }

  /** `orderBy: { createdAt: 'desc' }`. */
  function SortNewestFirst(ps: seq<Payment>): (r: seq<Payment>)
    ensures NewestFirst(r)
    ensures multiset(r) == multiset(ps)
  {
    if ps == [] then []
    else
      assert ps == [ps[0]] + ps[1..];
      InsertCounts(ps[0], SortNewestFirst(ps[1..]));
      Insert(ps[0], SortNewestFirst(ps[1..]))
  }

  function OwnerOf(q: Query): (r: Option<Owner>)
    ensures r.Some? <==> Given(q.customerId) != Given(q.supplierId)
    ensures r == Some(Customer(q.customerId.value)) <== Given(q.customerId) && !Given(q.supplierId)
    ensures r == Some(Supplier(q.supplierId.value)) <== Given(q.supplierId) && !Given(q.customerId)
  {
    if Given(q.customerId) && !Given(q.supplierId) then Some(Customer(q.customerId.value))
    else if Given(q.supplierId) && !Given(q.customerId) then Some(Supplier(q.supplierId.value))
    else None
  }

  /** GET: the owner's non-deleted payments, newest first, or the 400 the endpoint sends. */
  function ListPayments(payments: seq<Payment>, q: Query): (r: Listing)
    ensures r == Refused(OwnerRequired) <==> !Given(q.customerId) && !Given(q.supplierId)
    ensures r == Refused(OwnersBoth) <==> Given(q.customerId) && Given(q.supplierId)
    ensures r.Listed? ==> NewestFirst(r.payments)
    ensures r.Listed? ==> forall p :: multiset(r.payments)[p] ==
                                      (if Belongs(OwnerOf(q).value, p) then multiset(payments)[p] else 0)
  {
    if !Given(q.customerId) && !Given(q.supplierId) then Refused(OwnerRequired)
    else if Given(q.customerId) && Given(q.supplierId) then Refused(OwnersBoth)
    else
      var owner := if Given(q.customerId) then Customer(q.customerId.value) else Supplier(q.supplierId.value);
      SelectCounts(owner, payments);
      Listed(SortNewestFirst(Select(owner, payments)))
  }
}
