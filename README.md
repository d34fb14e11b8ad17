# Payment dispatch and credit management, modelled in Dafny

This project models the two components of the billing service that make real
decisions:

- **The payment processor** (`payment_processor.py`). `process_payment`
  validates a request and routes it to a handler. It checks that the amount is
  positive. It accepts three methods: `credit_card`, `bank_transfer` and
  `paypal`. It checks the metadata each method needs. Card payments are
  sorted into three amount tiers: below 100, from 100 up to 1000, and from
  1000 on. Each handler writes one payment row with a fixed status and redacted
  identifiers. The large card tier also alerts the fraud team, and the medium
  tier sends a confirmation from a background task.
- **The customer servlet** (`customer_servlet.py`). It keeps a table of
  customers keyed by id and offers these operations: create, update email,
  phone and credit limit, get, the five-rule credit-increase approval, account
  closure, the available-credit calculation and a field validator.

Module `PaymentProcessing` (payment_processor.dfy) holds the routing as a pure
function (`RoutePayment`) that returns either a rejection reason or the handler
to run. `ProcessOutcome` gives the full effect of one request: the boolean
result, the rows written and the notices sent. The class `PaymentProcessor`
keeps the rows in a `ledger: seq<Payment>` and the notifier events in
`notices: seq<Notice>`. Its methods mirror `process_payment` and the five
`_process_*` handlers. `ProcessPayment`'s `ensures` ties the new ledger and log
to `ProcessOutcome`; each handler's `ensures` gives the row and notice it
appends, and ties them to `HandlerEffect`, the effect `ProcessOutcome` uses
for that handler. The class invariant `Valid()` says that every stored row
is well formed and that the log never holds more notices than the ledger
holds rows. A well-formed row
has a positive amount, a four-character card suffix (never the full 16-digit
number) and the status that belongs to its path.

Module `CustomerService` (customer_servlet.dfy) holds the class
`CustomerServlet` with `customers: map<string, Customer>`. Its invariant says
that each customer is filed under its own id and has a close reason exactly
when it is closed. The invoice store is represented by a `seq<Invoice>`
parameter: the rows the store returns for that customer. The three
accumulator loops of the source are `while` loops whose invariants tie them to
the recursive function `LateCount` and the sum `SumWhere`. `SumWhere` is a
per-invoice `Total` of the selected amounts, and `LateCount` equals the `Total`
of one mark per late invoice; the append and reordering lemmas of `Total` are
proved once.

The storage back end is represented by a `Storage(available, withinWait)`
parameter. `available` says whether the insert succeeds; when it is false, the
handler's exception path applies. `withinWait` says whether the medium tier's
background store finishes before the caller's five-second wait ends.

Amounts are `real`: the source only compares and sums them.

### Behaviour of the code worth knowing (the model follows the code)

- The code never enforces `credit_limit >= 0`. `create_customer` accepts any
  limit. `approve_credit_increase` accepts a negative increase, which lowers
  the limit.
- An account can go from closed back to active: `create_customer` with an
  existing id overwrites the entry with a fresh active customer. `close_account` on an already closed account succeeds again and
  replaces the reason.
- A medium-tier timeout can turn a stored payment into a reported failure. The
  row is stored inside the background thread, and the caller
  returns `success[0]` when `join(timeout=5)` ends. If the store has not finished
  by then, the call returns False, yet the row is still written later
  (`MediumTierTimeoutStillWrites`).
- The card number is not checked to be numeric. The code checks only the length
  (16) and the first character (`4` or `5`).
- The code returns only a boolean. The rejection reasons in the model
  (`Rejection`, `CreditRejection`) name the branch taken, so that each branch
  can be stated; the callers see only the boolean.
- The authorization-code length check runs in `_process_large_payment`, after
  routing. Storage is still untouched when it fails.
- `account_num[-4:]` keeps a short account number (four characters or fewer)
  whole. `LastFour` models this exactly.

## Model

| member | source | states |
|---|---|---|
| `PaymentProcessing.LastFour` | payment_processor.py:103 | the stored fragment is the last four characters of the identifier, or all of it when it is shorter (Python's `[-4:]`) |
| `PaymentProcessing.TierOf` | payment_processor.py:49-53 | the tiers are half-open: small below 100, medium from 100 up to 1000, large from 1000 on, each stated as an if-and-only-if |
| `PaymentProcessing.RoutePayment` | payment_processor.py:39-94 | a request reaches a handler exactly when it is valid (positive amount, known method, required metadata, a 16-character card starting with 4 or 5, an auth code for large card payments); the handler chosen fits the method, the tier and the metadata |
| `PaymentProcessing.ProcessOutcome` | payment_processor.py:39-192 | one request writes at most one row and sends at most one notice, so never both a confirmation and a fraud alert; a notice only comes with a row; success means exactly one row; an invalid request or a failed store writes and sends nothing; every row written is well formed and belongs to the caller's customer and amount |
| `PaymentProcessing.RejectionReasons` | payment_processor.py:42-94 | each failed check (amount, method, card number present, its length, its network, auth code, account number, routing number, PayPal email) yields its own rejection in the source's order, and no rejected request writes or sends anything |
| `PaymentProcessing.TierBoundaries` | payment_processor.py:49-53 | with a valid card, 99.99 takes the small path, 100 the medium path, 999.99 the medium path and 1000 the large path (or the missing-auth-code rejection) |
| `PaymentProcessing.CardBelowLargeTier` | payment_processor.py:49-52 | a valid card payment below 1000 writes exactly one `completed` row whose card field is the last four digits and differs from the full number; the small tier sends nothing, the medium tier one confirmation |
| `PaymentProcessing.MediumTierTimeoutStillWrites` | payment_processor.py:114-132 | when the background store outlasts the bounded wait, the call reports failure although one completed row is written |
| `PaymentProcessing.LargeCardPayment` | payment_processor.py:53-60 | a card payment of 1000 or more with no auth code, or one whose length is not 6, writes and sends nothing; with a valid code it writes one `pending_review` row carrying the code and sends exactly one fraud alert |
| `PaymentProcessing.BankTransferPayment` | payment_processor.py:70-82 | a bank transfer missing the account or routing number writes nothing; otherwise one `processing` row with the account's last four characters and the routing number, and no notice |
| `PaymentProcessing.PayPalPayment` | payment_processor.py:83-88 | a PayPal payment without an email writes nothing; otherwise one `completed` row holding that email, and no notice |
| `PaymentProcessing.PaymentProcessor.constructor` | payment_processor.py:33-36 | a new processor has an empty ledger and sent no notice |
| `PaymentProcessing.PaymentProcessor.ProcessPayment` | payment_processor.py:39-94 | the result, the rows appended to the ledger and the notices appended to the log are exactly those of `ProcessOutcome`; nothing stored before is changed; the ledger invariant is kept |
| `PaymentProcessing.PaymentProcessor.ProcessSmallPayment` | payment_processor.py:97-111 | succeeds exactly when the store does, then appends one `completed` row with the card's last four digits; sends nothing; the same as `HandlerEffect` for its handler |
| `PaymentProcessing.PaymentProcessor.ProcessMediumPayment` | payment_processor.py:114-132 | a successful store appends one `completed` row and then one confirmation; the caller's result is true only if the store succeeded inside the bounded wait; the same as `HandlerEffect` for its handler |
| `PaymentProcessing.PaymentProcessor.ProcessLargePayment` | payment_processor.py:134-157 | an auth code whose length is not 6 fails with no change; otherwise a successful store appends one `pending_review` row with the code and one fraud alert; the same as `HandlerEffect` for its handler |
| `PaymentProcessing.PaymentProcessor.ProcessBankTransfer` | payment_processor.py:159-175 | a successful store appends one `processing` row with the account's last four characters and the routing number; the same as `HandlerEffect` for its handler |
| `PaymentProcessing.PaymentProcessor.ProcessPayPal` | payment_processor.py:177-192 | a successful store appends one `completed` row with the PayPal email; the same as `HandlerEffect` for its handler |
| `CustomerService.TotalAppend` | customer_servlet.py:94-100 | any per-invoice total over two runs of invoices is the sum of their totals |
| `CustomerService.TotalOrderIndependent` | customer_servlet.py:94-100 | any per-invoice total does not depend on the order in which the store returns the invoices |
| `CustomerService.LateCountIsTotal` | customer_servlet.py:94-100 | the late-payment count equals the total of one mark per late invoice |
| `CustomerService.LateCountAppend` | customer_servlet.py:95-98 | the late-payment count over two runs of invoices is the sum of their counts |
| `CustomerService.LateCountOrderIndependent` | customer_servlet.py:94-100 | the late-payment count, and so the late-payment rule, does not depend on the order in which the store returns the invoices |
| `CustomerService.SumWhereOrderIndependent` | customer_servlet.py:170-177 | the invoice sums do not depend on the order in which the store returns the invoices |
| `CustomerService.SumWhereMonotone` | customer_servlet.py:130-133 | with non-negative amounts, summing a narrower selection of invoices gives no more |
| `CustomerService.SumWherePositiveIff` | customer_servlet.py:130-135 | with positive amounts, a sum is never negative and is positive exactly when some invoice is selected |
| `CustomerService.ClosingBlockedIffOutstandingInvoice` | customer_servlet.py:126-137 | with positive amounts, closing is blocked exactly when a pending or late invoice exists, and the blocking balance never exceeds the credit in use |
| `CustomerService.AvailableCreditExample` | customer_servlet.py:163-178 | a limit of 1000 with invoices of 400 pending, 200 paid and 100 late leaves 500 available |
| `CustomerService.DecideCreditIncrease` | customer_servlet.py:73-106 | an increase is approved exactly when the customer exists, is at least 18, asks for at most 5000, stays within a 10000 total and has at most 2 late invoices; an approved limit is the old limit plus the increase and at most 10000 |
| `CustomerService.CreditRulesInOrder` | customer_servlet.py:74-102 | when several rules fail, the denial names the first in the source's order: unknown customer, minor, single-increase ceiling, total ceiling, late payments |
| `CustomerService.JointIncreasesNotBothApproved` | customer_servlet.py:85-105 | two increases that each pass alone but together exceed 10000 cannot both be approved one after the other: the second is denied for the total ceiling |
| `CustomerService.ValidateCustomerData` | customer_servlet.py:147-160 | the data are valid exactly when name, email and phone are non-empty and the age is between 0 and 150 |
| `CustomerService.CustomerServlet.constructor` | customer_servlet.py:34-36 | a new servlet holds no customers |
| `CustomerService.CustomerServlet.CreateCustomer` | customer_servlet.py:39-54 | always succeeds and files an active customer with the given fields under its id, replacing any previous entry; every other id is unchanged |
| `CustomerService.CustomerServlet.UpdateEmail` | customer_servlet.py:57-61 | fails with no change for an unknown id; otherwise changes only that customer's email |
| `CustomerService.CustomerServlet.UpdateCreditLimit` | customer_servlet.py:64-70 | succeeds exactly when the customer exists and the new limit is positive, then changes only that limit; on failure nothing changes |
| `CustomerService.CustomerServlet.ApproveCreditIncrease` | customer_servlet.py:73-106 | succeeds exactly when `DecideCreditIncrease` approves, counting late invoices in a loop; on success only that customer's limit grows, by exactly the increase; on failure nothing changes |
| `CustomerService.CustomerServlet.UpdatePhone` | customer_servlet.py:109-113 | fails with no change for an unknown id; otherwise changes only that customer's phone |
| `CustomerService.CustomerServlet.GetCustomer` | customer_servlet.py:116-117 | returns the customer filed under the id, which carries that id, or nothing for an unknown id |
| `CustomerService.CustomerServlet.CloseAccount` | customer_servlet.py:120-144 | fails with no change for an unknown id or when the pending and late invoices sum to more than 0; otherwise marks only that customer closed with the given reason |
| `CustomerService.CustomerServlet.CalculateAvailableCredit` | customer_servlet.py:163-178 | 0 for an unknown id; otherwise the limit minus the sum of the invoices that are neither paid nor cancelled |

## Left out

- SQL and sqlite plumbing in every handler: the model treats a successful insert as an append of exactly one row to the ledger. The exception path ("storage failed, return False") is the `Storage.available` flag.
- SQL injection: the handlers paste `customer_id`, the card's last four digits (`card_num[-4:]`), the auth code, the account's last four characters (`account_num[-4:]`), the routing number and the PayPal email unescaped into their INSERT statements (payment_processor.py:103, 147, 167, 184). The model assumes none of these contains a `'`. With one, the source's insert either fails (covered by `Storage.available`) or stores something other than the value: an auth code `x'||'y` is stored as `xy`, a card number `400000000000'||'` is stored with an empty `card_last4`, and a crafted value can write several rows or arbitrary column contents. The ledger cannot represent that, so "at most one row per request", "every row is well formed" (including its four-character card suffix and six-character auth code) and "the row carries the code" of `LargeCardPayment` and `ProcessLargePayment` hold for the model only under this assumption.
- CustomerService.CustomerServlet.GetCustomer: the model returns a snapshot of the stored customer. The source returns the live dictionary in the table (customer_servlet.py:117). Through it a caller sees later updates, and can also write any field (the credit limit, the id) without passing any rule, which can break the invariant that each customer is filed under its own id.
- Threads and timing in `_process_medium_payment`: `threading.Thread`, the sleeps of 0.1 s and 30 s, `join(timeout=5)` and the `self.threads` list. The confirmation is appended to the notice log at the call, although the source sends it about 30 seconds later, after the caller has returned. Likewise the `completed` row is appended at the call even when the wait runs out, although the source's background thread may write it after the call has returned, possibly after rows from later calls (payment_processor.py:117-120, 130-132); no contract depends on the order of the ledger. Whether the store beats the wait is the `Storage.withinWait` flag.
- Interleaving of concurrent calls: the model is sequential. `JointIncreasesNotBothApproved` states the ceiling for two approvals run one after the other, not for two racing read-then-write calls.
- Logging through `print` and the notifier stubs `_send_confirmation_email` and `_notify_fraud_team`: the stubs are the `Confirmation` and `FraudAlert` events; the log messages are not modelled.
- Timestamps: `created_date` and `closed_date` come from the clock and are not stored in `Customer`.
- invoice_dao.py is not part of this model. Its `get_invoices_by_customer` is the invoice sequence passed to the servlet's operations. The exception it raises on a database error, which the servlet does not catch, is not modelled.
- Floating-point behaviour of amounts: NaN, infinities and rounding. Amounts are exact reals.
- Python's dynamic typing: `None` in place of a string (which `validate_customer_data` also rejects through `not name`) and customer dictionaries with extra or missing keys.
- scripts/update_metrics.py and scripts/update-metrics.py: dashboard tooling made of subprocess calls, file I/O and HTML rewriting.
