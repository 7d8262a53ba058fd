# Balance payments of the warehouse application

This project models the balance-payment endpoint of a warehouse and retail
management application (`app/api/balance-payment/route.ts`).

- **POST** records a payment by a customer or a supplier against an outstanding
  balance. A fixed chain of fail-fast rules runs first:
  1. an owner, an amount and a payment method are required;
  2. the customer and the supplier are mutually exclusive;
  3. the customer must exist and not be soft-deleted;
  4. the same for the supplier;
  5. a referenced sale (looked up by invoice number) must exist, not be
     soft-deleted, have a positive balance, and the amount must not exceed it;
  6. the same for a referenced purchase (looked up by reference number).

  After that, one payment row is inserted with the receipt number
  `BP-<timestamp>`. Each referenced sale or purchase row then has `amount`
  moved from `balance` to `paidAmount`.
- **GET** lists the non-deleted payments of exactly one customer or supplier,
  newest first.

The database tables are values:
- customers and suppliers: id ↦ isDeleted;
- sales and purchases: key ↦ (balance, paidAmount, isDeleted);
- payments: a sequence of records in insertion order.

Amounts are integers (for example cents).

Files:
- `options.dfy`: the `Option` type. A JSON field that is absent or null is `None`.
- `receipt.dfy`: receipt numbers. It holds the decimal rendering of the timestamp and its inverse.
- `balance_payment.dfy`: the model as values.
  - `Check` is the guard chain.
  - `Record` is one POST as a transition of the tables.
  - `ListPayments` is GET.
  - `Holds` states each rule on its own, and `FirstViolated` defines fail-fast order independently of the chain.
- `balance_payment_proofs.dfy`: the properties. They cover rule precedence, no change on rejection, conservation of `balance + paidAmount`, the frame of an accepted POST, no overdraft across any run of POSTs, and how POST affects GET.
- `scenarios.dfy`: concrete runs. They cover two payments that together exceed a balance, a payment naming both a sale and a purchase, and a negative amount.
- `store.dfy`: class `Store`. The five tables are fields. `Post` updates them in place and is proved to agree with `Record`. `Get` reads them and is proved to agree with `ListPayments`.

JavaScript truthiness is modelled explicitly. An id, payment method or note counts as given only when it is present and not `""`. An amount counts as given only when it is present and not `0`, so an amount of 0 is rejected as missing.

Behaviour of the code as written, which the model keeps:
- "No outstanding balance" is answered with status 400, the same as a malformed request. In the service's error taxonomy `Kind` classes it as `InvalidState`, and `Status` maps it to 400.
- Nothing rejects a request that names both a sale and a purchase. Both rows are charged, as `SaleAndPurchaseBothCharged` shows.
- A negative amount is truthy and never exceeds a balance, so it passes every rule. It raises the balance and lowers `paidAmount`, as `NegativeAmountRaisesBalance` shows. The conservation and no-overdraft properties still hold for it.

## Model

| member | source | states |
|---|---|---|
| `BalancePayment.Check` | app/api/balance-payment/route.ts:11-113 | On acceptance: exactly one of customer/supplier is given; the amount and payment method are present; the named customer/supplier is active; every referenced sale/purchase is live with `0 < balance` and `amount <= balance` |
| `BalancePayment.FirstViolated` | app/api/balance-payment/route.ts:11-113 | Fail-fast semantics: None iff every rule holds; otherwise the position of a violated rule, with every earlier rule holding |
| `BalancePaymentProofs.CheckIsFirstViolation` | app/api/balance-payment/route.ts:11-113 | The guard chain returns exactly the first rule, in the order required fields, exclusivity, customer, supplier, sale, purchase, that the request breaks, and accepts iff none is broken |
| `BalancePaymentProofs.RejectedRuleIsFirst` | app/api/balance-payment/route.ts:11-113 | A rejection names a rule the request breaks, and every rule the chain tries before it holds |
| `BalancePaymentProofs.AcceptedRequestIsSound` | app/api/balance-payment/route.ts:30-113 | An accepted request satisfies every rule |
| `BalancePaymentProofs.MissingFieldsBeforeLookup` | app/api/balance-payment/route.ts:11-16 | No owner, a falsy amount or no payment method is rejected with 400 whatever the tables hold |
| `BalancePaymentProofs.ZeroAmountIsMissing` | app/api/balance-payment/route.ts:11 | An amount of 0 is rejected as a missing field |
| `BalancePaymentProofs.BothOwnersRejected` | app/api/balance-payment/route.ts:19-24 | Once the required fields are present, naming both customer and supplier is rejected with 400 |
| `BalancePaymentProofs.ShapeRulesIgnoreTables` | app/api/balance-payment/route.ts:11-24 | The two request-shape rejections do not depend on any table: both come before every lookup |
| `BalancePayment.Status` | app/api/balance-payment/route.ts:12-111 | Every rejection is 400 or 404, and 404 exactly for the not-found rules |
| `BalancePayment.Message` | app/api/balance-payment/route.ts:13-109 | The error text of every not-found rejection ends in " not found" |
| `BalancePayment.OrNull` | app/api/balance-payment/route.ts:122-130 | the `or null` default keeps a given field and stores null for a falsy one |
| `BalancePayment.Settle` | app/api/balance-payment/route.ts:141-151 | A payment moves exactly `amount` from balance to paidAmount, keeps `balance + paidAmount`, and leaves balance ≥ 0 when `amount <= balance` |
| `BalancePayment.Charge` | app/api/balance-payment/route.ts:140-166 | Only the row keyed by the given reference is settled; the keys and every other row are unchanged |
| `BalancePayment.NewPayment` | app/api/balance-payment/route.ts:115-131 | The inserted record keeps each given customer, supplier, sale, purchase, note and warehouse and stores null for a falsy one. It carries the request's amount and payment method, the receipt number of `now`, and `createdAt = now`, and is not deleted |
| `BalancePayment.Record` | app/api/balance-payment/route.ts:11-172 | A POST is rejected exactly when the guard chain rejects |
| `BalancePaymentProofs.RejectionChangesNothing` | app/api/balance-payment/route.ts:11-113 | A rejected POST returns the rule it broke and leaves every table unchanged |
| `BalancePaymentProofs.AcceptedRecordEffect` | app/api/balance-payment/route.ts:119-138 | An accepted POST appends exactly one payment, keeps all earlier payments and the customer/supplier tables, and responds with the appended record |
| `BalancePaymentProofs.CreatedPaymentFields` | app/api/balance-payment/route.ts:115-131 | The record an accepted POST inserts has customerId and supplierId as sent (a falsy one null), exactly one of them set, and the request's sale, purchase, notes and warehouse (falsy ones null). It has the nonzero amount, the payment method as sent and the receipt number "BP-" + `now`, which reads back as `now`. It is created at `now` and not deleted |
| `BalancePaymentProofs.AcceptedRecordTouchesOnlyReferencedRows` | app/api/balance-payment/route.ts:140-166 | Only the sale keyed by saleId and the purchase keyed by purchaseId change: balance decreases by amount, paidAmount increases by amount |
| `BalancePaymentProofs.RecordConservesTotals` | app/api/balance-payment/route.ts:141-166 | `balance + paidAmount` of every sale and purchase row is the same after any POST |
| `BalancePaymentProofs.RecordKeepsNoOverdraft` | app/api/balance-payment/route.ts:71-166 | If no balance is negative before a POST, none is after it |
| `BalancePaymentProofs.ReplayKeepsNoOverdraft` | app/api/balance-payment/route.ts:57-166 | Under any sequence of POSTs handled one after another, no balance goes below zero |
| `BalancePaymentProofs.ReplayConservesTotals` | app/api/balance-payment/route.ts:140-166 | Under any sequence of POSTs, every row keeps its original total `balance + paidAmount` |
| `BalancePaymentProofs.ReplayOnlyAppendsPayments` | app/api/balance-payment/route.ts:119-138 | Under any sequence of POSTs, the payment table is only ever extended |
| `BalancePaymentScenarios.FirstSixtyAccepted` | app/api/balance-payment/route.ts:57-151 | With an active customer and a sale at balance 100, paid 0, a payment of 60 is accepted and leaves the sale at (40, 60) and the customers unchanged |
| `BalancePaymentScenarios.SecondSixtyRejected` | app/api/balance-payment/route.ts:78-83 | With the sale at (40, 60), a payment of 60 is rejected for exceeding the balance and every table is unchanged |
| `BalancePaymentScenarios.SecondOverdraftIsRejected` | app/api/balance-payment/route.ts:78-151 | Two payments of 60 against a sale whose balance is 100, handled in turn: the first is accepted and leaves (40, 60), the second is rejected and changes nothing |
| `BalancePaymentScenarios.SaleAndPurchaseBothCharged` | app/api/balance-payment/route.ts:57-166 | A request naming both a sale and a purchase is accepted, and both rows are charged |
| `BalancePaymentScenarios.NegativeAmountRaisesBalance` | app/api/balance-payment/route.ts:11-83 | A negative amount passes every rule and raises the sale's balance |
| `Receipt.Decimal` | app/api/balance-payment/route.ts:117 | The timestamp is rendered as non-empty decimal digits with no leading zero |
| `Receipt.DecimalRoundTrip` | app/api/balance-payment/route.ts:117 | Reading the decimal rendering back gives the timestamp |
| `Receipt.ReceiptNo` | app/api/balance-payment/route.ts:116-117 | A receipt number is "BP-" followed by at least one character |
| `Receipt.ReceiptTime` | app/api/balance-payment/route.ts:116-117 | Only text starting with "BP-" reads back as a timestamp |
| `Receipt.ReceiptRoundTrip` | app/api/balance-payment/route.ts:116-117 | The receipt number of instant `now` reads back as `now` |
| `Receipt.ReceiptNoInjective` | app/api/balance-payment/route.ts:115-117 | Payments created at different instants get different receipt numbers |
| `BalancePayment.OwnerOf` | app/api/balance-payment/route.ts:192-208 | A query has an owner iff exactly one of customerId/supplierId is given, and it is that one |
| `BalancePayment.Belongs` | app/api/balance-payment/route.ts:206-211 | A payment is selected iff it is not deleted and, for a customer owner, its `customerId` is that customer, or, for a supplier owner, its `supplierId` is that supplier |
| `BalancePayment.Select` | app/api/balance-payment/route.ts:206-211 | The `where` clause returns at most the rows of the table, each one a table row that belongs to the owner |
| `BalancePayment.SelectCounts` | app/api/balance-payment/route.ts:206-210 | The `where` clause keeps each payment of the owner that is not deleted, with its multiplicity, and drops every other payment |
| `BalancePayment.Insert` | app/api/balance-payment/route.ts:218-220 | Inserting into a newest-first list keeps it newest first and makes it one longer |
| `BalancePayment.InsertCounts` | app/api/balance-payment/route.ts:218-220 | Inserting adds exactly the one record and keeps every other one with its multiplicity |
| `BalancePayment.SortNewestFirst` | app/api/balance-payment/route.ts:218-220 | The result is ordered by createdAt descending and is a permutation of the input |
| `BalancePayment.ListPayments` | app/api/balance-payment/route.ts:192-221 | Refused with "required" iff no owner is given, and with "both" iff both are given. Otherwise the list is newest first and holds exactly the owner's non-deleted payments, each as often as in the table |
| `BalancePaymentProofs.ListedIffBelongs` | app/api/balance-payment/route.ts:206-221 | A payment is listed iff it is in the table, belongs to the queried owner and is not soft-deleted |
| `BalancePaymentProofs.SelectAppend` | app/api/balance-payment/route.ts:206-210 | Selecting from the table with one row appended adds that row at the end iff it belongs to the owner |
| `BalancePaymentProofs.AcceptedRecordExtendsOwnHistoryOnly` | app/api/balance-payment/route.ts:119-221 | After an accepted POST, the history of the payment's owner gains exactly the new record, and every other history and refusal is unchanged |
| `BalancePaymentProofs.AcceptedPaymentIsListedForItsOwner` | app/api/balance-payment/route.ts:119-221 | A GET with the owner parameters of an accepted POST is answered with a list that holds the recorded payment |
| `BalancePaymentProofs.RejectedRecordKeepsHistory` | app/api/balance-payment/route.ts:11-221 | A rejected POST between two GETs leaves every listing unchanged |
| `PaymentStore.Store.Post` | app/api/balance-payment/route.ts:5-172 | The in-place update yields the tables and response of `Record`. On rejection nothing changes. On success exactly one payment is appended, the customer/supplier tables are kept and every row keeps `balance + paidAmount` |
| `PaymentStore.Store.Get` | app/api/balance-payment/route.ts:186-226 | Reading the tables returns `ListPayments` of the payment table: newest first, only the owner's non-deleted payments |
| `PaymentStore.GetTwice` | app/api/balance-payment/route.ts:210-221 | Two GETs with no write between them return the same list. This rests on the model's fixed order among equal `createdAt` (see Left out); the database may order ties differently on each read |

## Left out

- The Next.js request and response plumbing is not modelled: `req.json()`, URL parsing, building the response objects, and mapping thrown errors to 500. Outcomes are the `Response`, `Rule` and `Listing` datatypes. `Status` and `Message` give the HTTP status and text of each rejection.
- The ORM client is replaced by the in-memory tables. This covers `findUnique`, `create`, `update`, `findMany` and `$disconnect`. The `include` of associated customer, supplier, sale and purchase rows is not modelled, so a created or listed payment carries only its own fields.
- Persistence failures are not modelled. In the code the insert and the two updates are separate writes, so a failure between them would leave a partial write. Every modelled POST completes whole.
- Floating-point amounts, `parseFloat` and JavaScript's string-to-number coercion in `amount > balance` are not modelled. Amounts and balances are integers.
- `Date.now()` is the parameter `now`. The database's default `createdAt` is taken to be the same instant. The generated payment `id` is not modelled.
- Concurrent requests are not modelled. The check-then-update race between two requests on the same row is out of scope; only sequential runs are (`Replay`).
- `BalancePayment.SortNewestFirst`: payments with equal `createdAt` keep their table order. The database promises no order among ties, so this is one admissible order, not the only one.
- `PaymentStore.GetTwice`: two reads return the same list only because the model fixes the order among equal `createdAt`. For the real database, only the set of rows and their newest-first order are the same.
- The supplier balance-payment receipt component is presentation only (layout and locale date and currency formatting) and is not part of this model.
