/**
 * The customer service layer: an in-memory table of customers keyed by id, the
 * operations that create and update them, the credit-increase rules, account
 * closure and the available-credit calculation. The invoice store is an
 * external collaborator; an operation that consults it receives the invoices
 * the store returns for the customer as a parameter.
 */
module CustomerService {
  import opened Wrappers

  const MinimumAge: int := 18
  const MaximumAge: int := 150
  const MaxSingleIncrease: real := 5000.0
  const MaxCreditLimit: real := 10000.0
  const MaxLatePayments: nat := 2

  // Invoice statuses the rules look at.
  const Pending: string := "pending"
  const Late: string := "late"
  const Paid: string := "paid"
  const Cancelled: string := "cancelled"

  datatype AccountStatus = Active | Closed

  datatype Customer = Customer(
    customerId: string,
    name: string,
    email: string,
    phone: string,
    age: int,
    creditLimit: real,
    status: AccountStatus,
    closeReason: Option<string>)

  /** An invoice row as the invoice store returns it. */
  datatype Invoice = Invoice(invoiceId: string, customerId: string, amount: real, status: string)

  /** The total of `weight` over the invoices, in the store's order. */
  function Total(invoices: seq<Invoice>, weight: Invoice -> real): real {
    if invoices == [] then 0.0
    else Total(invoices[..|invoices| - 1], weight) + weight(invoices[|invoices| - 1])
  }

  /** Totals are taken piecewise: the total over two runs of rows is the sum of their totals. */
  lemma {:induction false} TotalAppend(a: seq<Invoice>, b: seq<Invoice>, weight: Invoice -> real)
    ensures Total(a + b, weight) == Total(a, weight) + Total(b, weight)
    decreases |b|
  {
    if b == [] {
      assert a + b == a;
    } else {
      var front := b[..|b| - 1];
      assert (a + b)[..|a + b| - 1] == a + front;
      assert (a + b)[|a + b| - 1] == b[|b| - 1];
      TotalAppend(a, front, weight);
    }
  }

  /** A total does not depend on the order in which the store returns the invoices. */
  lemma {:induction false} TotalOrderIndependent(a: seq<Invoice>, b: seq<Invoice>, weight: Invoice -> real)
    requires multiset(a) == multiset(b)
    ensures Total(a, weight) == Total(b, weight)
    decreases |a|
  {
    if a == [] {
      assert |b| == |multiset(b)| == 0;
    } else {
      var x := a[|a| - 1];
      var front := a[..|a| - 1];
      assert a == front + [x];
      assert x in multiset(b);
      var j :| 0 <= j < |b| && b[j] == x;
      var rest := b[..j] + b[j + 1..];
      assert b == b[..j] + [x] + b[j + 1..];
      assert multiset(b) == multiset(b[..j]) + multiset{x} + multiset(b[j + 1..]);
      assert multiset(a) == multiset(front) + multiset{x};
      assert multiset(rest) == multiset(b[..j]) + multiset(b[j + 1..]);
      assert multiset(front) == multiset(a) - multiset{x};
      assert multiset(rest) == multiset(b) - multiset{x};
      assert multiset(rest) == multiset(front);
      TotalOrderIndependent(front, rest, weight);
      TotalAppend(b[..j] + [x], b[j + 1..], weight);
      TotalAppend(b[..j], [x], weight);
      TotalAppend(b[..j], b[j + 1..], weight);
      assert Total([x], weight) == weight(x) by {
        assert [x][..0] == [];
      }
    }
  }

  /** The number of invoices whose status is "late". */
  function LateCount(invoices: seq<Invoice>): nat {
    if invoices == [] then 0
    else LateCount(invoices[..|invoices| - 1]) + if invoices[|invoices| - 1].status == Late then 1 else 0
  }

  /** One for a late invoice, nothing for any other. */
  function LateMark(invoice: Invoice): real {
    if invoice.status == Late then 1.0 else 0.0
  }

  /** The late-payment count is the total of the late marks. */
  lemma {:induction false} LateCountIsTotal(invoices: seq<Invoice>)
    ensures LateCount(invoices) as real == Total(invoices, LateMark)
    decreases |invoices|
  {
    if invoices != [] {
      LateCountIsTotal(invoices[..|invoices| - 1]);
    }
  }

  /** Late invoices are counted piecewise: the count over two runs of rows is the sum of their counts. */
  lemma LateCountAppend(a: seq<Invoice>, b: seq<Invoice>)
    ensures LateCount(a + b) == LateCount(a) + LateCount(b)
  {
    LateCountIsTotal(a);
    LateCountIsTotal(b);
    LateCountIsTotal(a + b);
    TotalAppend(a, b, LateMark);
  }

  /** The late-payment count does not depend on the order in which the store returns the invoices. */
  lemma LateCountOrderIndependent(a: seq<Invoice>, b: seq<Invoice>)
    requires multiset(a) == multiset(b)
    ensures LateCount(a) == LateCount(b)
  {
    LateCountIsTotal(a);
    LateCountIsTotal(b);
    TotalOrderIndependent(a, b, LateMark);
  }

  /** What one invoice adds to a sum that selects invoices by `counted`. */
  function Weight(invoice: Invoice, counted: Invoice -> bool): real {
    if counted(invoice) then invoice.amount else 0.0
  }

  /** The sum of the amounts of the invoices that `counted` selects, in the store's order. */
  function SumWhere(invoices: seq<Invoice>, counted: Invoice -> bool): real {
    Total(invoices, inv => Weight(inv, counted))
  }

  /** The invoices close_account treats as an outstanding balance. */
  predicate IsOutstanding(invoice: Invoice) {
    invoice.status == Pending || invoice.status == Late
  }

  /** The invoices calculate_available_credit counts against the limit: all but paid and cancelled ones. */
  predicate UsesCredit(invoice: Invoice) {
    invoice.status != Paid && invoice.status != Cancelled
  }

  /** The sums do not depend on the order in which the store returns the invoices. */
  lemma SumWhereOrderIndependent(a: seq<Invoice>, b: seq<Invoice>, counted: Invoice -> bool)
    requires multiset(a) == multiset(b)
    ensures SumWhere(a, counted) == SumWhere(b, counted)
  {
    TotalOrderIndependent(a, b, inv => Weight(inv, counted));
  }

  /** With non-negative amounts, a sum over a narrower selection is no larger. */
  lemma {:induction false} SumWhereMonotone(invoices: seq<Invoice>, narrow: Invoice -> bool, wide: Invoice -> bool)
    requires forall i :: 0 <= i < |invoices| ==> invoices[i].amount >= 0.0
    requires forall i :: 0 <= i < |invoices| ==> narrow(invoices[i]) ==> wide(invoices[i])
    ensures SumWhere(invoices, narrow) <= SumWhere(invoices, wide)
    decreases |invoices|
  {
    if invoices != [] {
      SumWhereMonotone(invoices[..|invoices| - 1], narrow, wide);
    }
  }

  /** With positive amounts, a sum is positive exactly when it selects some invoice. */
  lemma {:induction false} SumWherePositiveIff(invoices: seq<Invoice>, counted: Invoice -> bool)
    requires forall i :: 0 <= i < |invoices| ==> invoices[i].amount > 0.0
    ensures SumWhere(invoices, counted) >= 0.0
    ensures SumWhere(invoices, counted) > 0.0 <==> exists i :: 0 <= i < |invoices| && counted(invoices[i])
    decreases |invoices|
  {
    if invoices != [] {
      var front := invoices[..|invoices| - 1];
      SumWherePositiveIff(front, counted);
      if exists i :: 0 <= i < |front| && counted(front[i]) {
        var i :| 0 <= i < |front| && counted(front[i]);
        assert counted(invoices[i]);
      }
      if exists i :: 0 <= i < |invoices| && counted(invoices[i]) {
        var i :| 0 <= i < |invoices| && counted(invoices[i]);
        if i < |front| {
          assert counted(front[i]);
        }
      }
    }
  }

  /** With positive invoice amounts, close_account's outstanding balance is positive
      exactly when a pending or late invoice exists, and it never exceeds the credit in use. */
  lemma ClosingBlockedIffOutstandingInvoice(invoices: seq<Invoice>)
    requires forall i :: 0 <= i < |invoices| ==> invoices[i].amount > 0.0
    ensures SumWhere(invoices, IsOutstanding) > 0.0 <==> exists i :: 0 <= i < |invoices| && IsOutstanding(invoices[i])
    ensures SumWhere(invoices, IsOutstanding) <= SumWhere(invoices, UsesCredit)
  {
    SumWherePositiveIff(invoices, IsOutstanding);
    SumWhereMonotone(invoices, IsOutstanding, UsesCredit);
  }

  /** The worked example: limit 1000 with invoices of 400 pending, 200 paid and 100 late leaves 500. */
  lemma AvailableCreditExample()
    ensures var invoices := [Invoice("i1", "c", 400.0, Pending), Invoice("i2", "c", 200.0, Paid),
                             Invoice("i3", "c", 100.0, Late)];
            1000.0 - SumWhere(invoices, UsesCredit) == 500.0
  {
    var invoices := [Invoice("i1", "c", 400.0, Pending), Invoice("i2", "c", 200.0, Paid),
                     Invoice("i3", "c", 100.0, Late)];
    assert invoices[..2][..1][..0] == [];
    assert invoices[..2][..1] == [invoices[0]];
    assert invoices[..2] == [invoices[0], invoices[1]];
    assert SumWhere(invoices[..2][..1][..0], UsesCredit) == 0.0;
    assert SumWhere(invoices[..2][..1], UsesCredit) == 400.0;
    assert SumWhere(invoices[..2], UsesCredit) == 400.0;
    assert SumWhere(invoices, UsesCredit) == 500.0;
  }

  datatype CreditRejection =
    | CustomerNotFound
    | MinorIneligible
    | ExceedsSingleIncreaseLimit
    | ExceedsTotalLimit
    | TooManyLatePayments

  datatype CreditDecision = Approved(newLimit: real) | Denied(reason: CreditRejection)

  /** The rules of approve_credit_increase, in the source's order; the first that fails names the denial. */
  function DecideCreditIncrease(customers: map<string, Customer>, customerId: string, requestedIncrease: real,
                                invoices: seq<Invoice>): (d: CreditDecision)
    ensures d.Approved? <==>
              && customerId in customers
              && customers[customerId].age >= MinimumAge
              && requestedIncrease <= MaxSingleIncrease
              && customers[customerId].creditLimit + requestedIncrease <= MaxCreditLimit
              && LateCount(invoices) <= MaxLatePayments
    ensures d.Approved? ==> d.newLimit == customers[customerId].creditLimit + requestedIncrease <= MaxCreditLimit
  {
    if customerId !in customers then Denied(CustomerNotFound)
    else
      var customer := customers[customerId];
      if customer.age < MinimumAge then Denied(MinorIneligible)
      else if requestedIncrease > MaxSingleIncrease then Denied(ExceedsSingleIncreaseLimit)
      else if customer.creditLimit + requestedIncrease > MaxCreditLimit then Denied(ExceedsTotalLimit)
      else if LateCount(invoices) > MaxLatePayments then Denied(TooManyLatePayments)
      else Approved(customer.creditLimit + requestedIncrease)
  }

  /** Which rule denies a request when several fail: the earliest in the source's order. */
  lemma CreditRulesInOrder(customers: map<string, Customer>, customerId: string, requestedIncrease: real,
                           invoices: seq<Invoice>)
    ensures customerId !in customers ==>
              DecideCreditIncrease(customers, customerId, requestedIncrease, invoices) == Denied(CustomerNotFound)
    ensures customerId in customers && customers[customerId].age < MinimumAge ==>
              DecideCreditIncrease(customers, customerId, requestedIncrease, invoices) == Denied(MinorIneligible)
    ensures (&& customerId in customers
             && customers[customerId].age >= MinimumAge
             && requestedIncrease > MaxSingleIncrease) ==>
              DecideCreditIncrease(customers, customerId, requestedIncrease, invoices) == Denied(ExceedsSingleIncreaseLimit)
    ensures (&& customerId in customers
             && customers[customerId].age >= MinimumAge
             && requestedIncrease <= MaxSingleIncrease
             && customers[customerId].creditLimit + requestedIncrease > MaxCreditLimit) ==>
              DecideCreditIncrease(customers, customerId, requestedIncrease, invoices) == Denied(ExceedsTotalLimit)
    ensures (&& customerId in customers
             && customers[customerId].age >= MinimumAge
             && requestedIncrease <= MaxSingleIncrease
             && customers[customerId].creditLimit + requestedIncrease <= MaxCreditLimit
             && LateCount(invoices) > MaxLatePayments) ==>
              DecideCreditIncrease(customers, customerId, requestedIncrease, invoices) == Denied(TooManyLatePayments)
  {
  }

  /** Two increases that each pass on their own but together break the ceiling
      cannot both be approved one after the other: the second sees the first's limit. */
  lemma JointIncreasesNotBothApproved(customers: map<string, Customer>, customerId: string,
                                      first: real, second: real, invoices: seq<Invoice>)
    requires DecideCreditIncrease(customers, customerId, first, invoices).Approved?
    requires DecideCreditIncrease(customers, customerId, second, invoices).Approved?
    requires customerId in customers && customers[customerId].creditLimit + first + second > MaxCreditLimit
    ensures var c := customers[customerId];
            var after := customers[customerId := c.(creditLimit := c.creditLimit + first)];
            DecideCreditIncrease(after, customerId, second, invoices) == Denied(ExceedsTotalLimit)
  {
  }

  /** validate_customer_data: name, email and phone present, age between 0 and 150. */
  function ValidateCustomerData(name: string, email: string, phone: string, age: int): (valid: bool)
    ensures valid <==> name != [] && email != [] && phone != [] && 0 <= age <= MaximumAge
  {
    if |name| == 0 then false
    else if |email| == 0 then false
    else if |phone| == 0 then false
    else if age < 0 || age > MaximumAge then false
    else true
  }

  /** The servlet: the customers it holds, keyed by customer id. */
  class CustomerServlet {
    var customers: map<string, Customer>

    /** Each customer is filed under its own id, and has a close reason exactly when it is closed. */
    ghost predicate Valid()
      reads this
    {
      forall id :: id in customers ==>
        && customers[id].customerId == id
        && (customers[id].status == Closed <==> customers[id].closeReason.Some?)
    }

    constructor ()
      ensures Valid() && customers == map[]
    {
      customers := map[];
    }

    /** create_customer: file a new active customer, replacing any customer with that id. */
    method CreateCustomer(customerId: string, name: string, email: string, phone: string, age: int,
                          creditLimit: real) returns (ok: bool)
      requires Valid()
      modifies this
      ensures Valid() && ok
      ensures customers == old(customers)[customerId := Customer(customerId, name, email, phone, age, creditLimit,
                                                                  Active, None)]
    {
      var customer := Customer(customerId, name, email, phone, age, creditLimit, Active, None);
      customers := customers[customerId := customer];
      ok := true;
    }

    /** update_email: change one known customer's email. */
    method UpdateEmail(customerId: string, newEmail: string) returns (ok: bool)
      requires Valid()
      modifies this
      ensures Valid()
      ensures ok == (customerId in old(customers))
      ensures customers == if ok then old(customers)[customerId := old(customers)[customerId].(email := newEmail)]
                           else old(customers)
    {
      if customerId in customers {
        customers := customers[customerId := customers[customerId].(email := newEmail)];
        return true;
      }
      return false;
    }

    /** update_credit_limit: set a known customer's limit to a positive value. */
    method UpdateCreditLimit(customerId: string, newLimit: real) returns (ok: bool)
      requires Valid()
      modifies this
      ensures Valid()
      ensures ok == (customerId in old(customers) && newLimit > 0.0)
      ensures customers == if ok then old(customers)[customerId := old(customers)[customerId].(creditLimit := newLimit)]
                           else old(customers)
    {
      if customerId in customers {
        if newLimit > 0.0 {
          customers := customers[customerId := customers[customerId].(creditLimit := newLimit)];
          return true;
        }
      }
      return false;
    }

    /** approve_credit_increase: check the rules, counting late invoices, then raise the limit. */
    method ApproveCreditIncrease(customerId: string, requestedIncrease: real, invoices: seq<Invoice>)
      returns (ok: bool)
      requires Valid()
      modifies this
      ensures Valid()
      ensures ok == DecideCreditIncrease(old(customers), customerId, requestedIncrease, invoices).Approved?
      ensures customers ==
                if ok
                then old(customers)[customerId := old(customers)[customerId].(
                       creditLimit := old(customers)[customerId].creditLimit + requestedIncrease)]
                else old(customers)
    {
      if customerId !in customers {
        return false;
      }
      var customer := customers[customerId];
      var currentLimit := customer.creditLimit;
      if customer.age < MinimumAge {
        return false;
      }
      if requestedIncrease > MaxSingleIncrease {
        return false;
      }
      if currentLimit + requestedIncrease > MaxCreditLimit {
        return false;
      }
      var latePayments := 0;
      var i := 0;
      while i < |invoices|
        invariant 0 <= i <= |invoices|
        invariant latePayments == LateCount(invoices[..i])
      {
        assert invoices[..i + 1][..i] == invoices[..i];
        if invoices[i].status == Late {
          latePayments := latePayments + 1;
        }
        i := i + 1;
      }
      assert invoices[..i] == invoices;
      if latePayments > MaxLatePayments {
        return false;
      }
      customers := customers[customerId := customer.(creditLimit := currentLimit + requestedIncrease)];
      ok := true;
    }

    /** update_phone: change one known customer's phone. */
    method UpdatePhone(customerId: string, newPhone: string) returns (ok: bool)
      requires Valid()
      modifies this
      ensures Valid()
      ensures ok == (customerId in old(customers))
      ensures customers == if ok then old(customers)[customerId := old(customers)[customerId].(phone := newPhone)]
                           else old(customers)
    {
      if customerId in customers {
        customers := customers[customerId := customers[customerId].(phone := newPhone)];
        return true;
      }
      return false;
    }

    /** get_customer: the customer filed under the id, if any. */
    function GetCustomer(customerId: string): (r: Option<Customer>)
      reads this
      ensures r.Some? <==> customerId in customers
      ensures r.Some? ==> r.value == customers[customerId]
      ensures Valid() && r.Some? ==> r.value.customerId == customerId
    {
      if customerId in customers then Some(customers[customerId]) else None
    }

    /** close_account: close a known customer whose pending and late invoices sum to nothing. */
    method CloseAccount(customerId: string, reason: string, invoices: seq<Invoice>) returns (ok: bool)
      requires Valid()
      modifies this
      ensures Valid()
      ensures ok == (customerId in old(customers) && SumWhere(invoices, IsOutstanding) <= 0.0)
      ensures customers ==
                if ok
                then old(customers)[customerId := old(customers)[customerId].(status := Closed,
                                                                              closeReason := Some(reason))]
                else old(customers)
    {
      if customerId !in customers {
        return false;
      }
      var customer := customers[customerId];
      var totalOutstanding := 0.0;
      var i := 0;
      while i < |invoices|
        invariant 0 <= i <= |invoices|
        invariant totalOutstanding == SumWhere(invoices[..i], IsOutstanding)
      {
        assert invoices[..i + 1][..i] == invoices[..i];
        var status := invoices[i].status;
        if status == Pending || status == Late {
          totalOutstanding := totalOutstanding + invoices[i].amount;
        }
        i := i + 1;
      }
      assert invoices[..i] == invoices;
      if totalOutstanding > 0.0 {
        return false;
      }
      customers := customers[customerId := customer.(status := Closed, closeReason := Some(reason))];
      ok := true;
    }

    /** calculate_available_credit: the limit less what open invoices use; 0 for an unknown id. */
    method CalculateAvailableCredit(customerId: string, invoices: seq<Invoice>) returns (available: real)
      ensures available == if customerId in customers
                           then customers[customerId].creditLimit - SumWhere(invoices, UsesCredit)
                           else 0.0
    {
      if customerId !in customers {
        return 0.0;
      }
      var creditLimit := customers[customerId].creditLimit;
      var totalUsed := 0.0;
      var i := 0;
      while i < |invoices|
        invariant 0 <= i <= |invoices|
        invariant totalUsed == SumWhere(invoices[..i], UsesCredit)
      {
        assert invoices[..i + 1][..i] == invoices[..i];
        var status := invoices[i].status;
        if status != Paid && status != Cancelled {
          totalUsed := totalUsed + invoices[i].amount;
        }
        i := i + 1;
      }
      assert invoices[..i] == invoices;
      available := creditLimit - totalUsed;
    }
  }
}
