/**
 * The payment processor: validates a payment request, routes it by method and,
 * for cards, by amount tier, and records each accepted payment as one row of a
 * ledger. Storage and notification delivery are external collaborators; the
 * ledger and the notice log stand for what they receive.
 */
module PaymentProcessing {
  import opened Wrappers

  // Payment methods the processor accepts.
  const CreditCard: string := "credit_card"
  const BankTransfer: string := "bank_transfer"
  const PayPal: string := "paypal"

  // Metadata keys the methods read.
  const CardNumberKey: string := "card_number"
  const AuthCodeKey: string := "authorization_code"
  const AccountNumberKey: string := "account_number"
  const RoutingNumberKey: string := "routing_number"
  const EmailKey: string := "email"

  // Card tiers are half-open: below 100, from 100 up to 1000, from 1000 on.
  const MediumTierStart: real := 100.0
  const LargeTierStart: real := 1000.0
  const CardNumberLength: nat := 16
  const AuthCodeLength: nat := 6

  datatype Status = Completed | PendingReview | Processing

  /** The method-specific columns of a stored payment; identifiers are redacted. */
  datatype Details =
    | CardDetails(cardLast4: string, authCode: Option<string>)
    | BankDetails(accountLast4: string, routing: string)
    | PayPalDetails(email: string)

  datatype Payment = Payment(customerId: string, amount: real, details: Details, status: Status)

  /** Events handed to the notifier. */
  datatype Notice =
    | Confirmation(customerId: string, amount: real)
    | FraudAlert(customerId: string, amount: real)

  /** Why a request is refused before it reaches a handler. */
  datatype Rejection =
    | InvalidAmount
    | UnknownMethod
    | NoCardNumber
    | InvalidCardLength
    | UnsupportedCardType
    | MissingAuthCode
    | NoAccountNumber
    | NoRoutingNumber
    | NoPayPalEmail

  datatype Tier = Small | Medium | Large

  /** The handler a valid request is passed to, with the metadata it receives. */
  datatype Handler =
    | SmallCard(cardNumber: string)
    | MediumCard(cardNumber: string)
    | LargeCard(cardNumber: string, authCode: string)
    | BankHandler(accountNumber: string, routingNumber: string)
    | PayPalHandler(email: string)

  datatype Decision = Reject(reason: Rejection) | Dispatch(handler: Handler)

  /** How the store answers one insert: whether it succeeds, and, for the
      medium tier, whether it finishes before the caller stops waiting. */
  datatype Storage = Storage(available: bool, withinWait: bool)

  /** What one request leads to: the result, the rows written, the notices sent. */
  datatype Effect = Effect(accepted: bool, written: seq<Payment>, sent: seq<Notice>)

  const NoEffect := Effect(false, [], [])

  /** Python's `s[-4:]`: the last four characters, or all of `s` when it is shorter. */
  function LastFour(s: string): (r: string)
    ensures |r| == if |s| < 4 then |s| else 4
    ensures r == s[|s| - |r|..]
  {
    if |s| <= 4 then s else s[|s| - 4..]
  }

  /** The amount tier of a card payment. */
  function TierOf(amount: real): (t: Tier)
    ensures t == Small <==> amount < MediumTierStart
    ensures t == Medium <==> MediumTierStart <= amount < LargeTierStart
    ensures t == Large <==> LargeTierStart <= amount
  {
    if amount < MediumTierStart then Small
    else if amount < LargeTierStart then Medium
    else Large
  }

  /** Sixteen characters, the first naming one of the two accepted card networks. */
  predicate SupportedCardNumber(s: string) {
    |s| == CardNumberLength && (s[0] == '4' || s[0] == '5')
  }

  /** The requests that reach a handler, stated flat, method by method. */
  predicate ValidRequest(amount: real, kind: string, metadata: map<string, string>) {
    && amount > 0.0
    && (|| (&& kind == CreditCard
            && CardNumberKey in metadata
            && SupportedCardNumber(metadata[CardNumberKey])
            && (TierOf(amount) == Large ==> AuthCodeKey in metadata))
        || (kind == BankTransfer && AccountNumberKey in metadata && RoutingNumberKey in metadata)
        || (kind == PayPal && EmailKey in metadata))
  }

  /** A handler fits a request when its kind follows the method and the tier and
      its arguments are the request's metadata. */
  predicate HandlerFits(h: Handler, amount: real, kind: string, metadata: map<string, string>) {
    match h
    case SmallCard(n) =>
      kind == CreditCard && TierOf(amount) == Small && CardNumberKey in metadata && metadata[CardNumberKey] == n
    case MediumCard(n) =>
      kind == CreditCard && TierOf(amount) == Medium && CardNumberKey in metadata && metadata[CardNumberKey] == n
    case LargeCard(n, code) =>
      && kind == CreditCard && TierOf(amount) == Large
      && CardNumberKey in metadata && metadata[CardNumberKey] == n
      && AuthCodeKey in metadata && metadata[AuthCodeKey] == code
    case BankHandler(account, routing) =>
      && kind == BankTransfer
      && AccountNumberKey in metadata && metadata[AccountNumberKey] == account
      && RoutingNumberKey in metadata && metadata[RoutingNumberKey] == routing
    case PayPalHandler(email) =>
      kind == PayPal && EmailKey in metadata && metadata[EmailKey] == email
  }

  /** The validation and routing of process_payment, check by check in the source's order. */
  function RoutePayment(amount: real, kind: string, metadata: map<string, string>): (d: Decision)
    ensures d.Dispatch? <==> ValidRequest(amount, kind, metadata)
    ensures d.Dispatch? ==> HandlerFits(d.handler, amount, kind, metadata)
  {
    if amount > 0.0 then
      if kind == CreditCard then
        if CardNumberKey in metadata then
          var cardNumber := metadata[CardNumberKey];
          if |cardNumber| == CardNumberLength then
            if cardNumber[0] == '4' || cardNumber[0] == '5' then
              if amount < MediumTierStart then Dispatch(SmallCard(cardNumber))
              else if amount < LargeTierStart then Dispatch(MediumCard(cardNumber))
              else if AuthCodeKey in metadata then Dispatch(LargeCard(cardNumber, metadata[AuthCodeKey]))
              else Reject(MissingAuthCode)
            else Reject(UnsupportedCardType)
          else Reject(InvalidCardLength)
        else Reject(NoCardNumber)
      else if kind == BankTransfer then
        if AccountNumberKey in metadata then
          if RoutingNumberKey in metadata then
            Dispatch(BankHandler(metadata[AccountNumberKey], metadata[RoutingNumberKey]))
          else Reject(NoRoutingNumber)
        else Reject(NoAccountNumber)
      else if kind == PayPal then
        if EmailKey in metadata then Dispatch(PayPalHandler(metadata[EmailKey]))
        else Reject(NoPayPalEmail)
      else Reject(UnknownMethod)
    else Reject(InvalidAmount)
  }

  /** What each handler writes and sends. */
  function HandlerEffect(customerId: string, amount: real, h: Handler, storage: Storage): Effect {
    match h
    case SmallCard(n) =>
      if storage.available
      then Effect(true, [Payment(customerId, amount, CardDetails(LastFour(n), None), Completed)], [])
      else NoEffect
    case MediumCard(n) =>
      // the row is stored by a background task; the caller sees success only if
      // the store finishes inside its bounded wait, the confirmation follows later
      if storage.available
      then Effect(storage.withinWait,
                  [Payment(customerId, amount, CardDetails(LastFour(n), None), Completed)],
                  [Confirmation(customerId, amount)])
      else NoEffect
    case LargeCard(n, code) =>
      if |code| != AuthCodeLength then NoEffect
      else if storage.available
      then Effect(true, [Payment(customerId, amount, CardDetails(LastFour(n), Some(code)), PendingReview)],
                  [FraudAlert(customerId, amount)])
      else NoEffect
    case BankHandler(account, routing) =>
      if storage.available
      then Effect(true, [Payment(customerId, amount, BankDetails(LastFour(account), routing), Processing)], [])
      else NoEffect
    case PayPalHandler(email) =>
      if storage.available
      then Effect(true, [Payment(customerId, amount, PayPalDetails(email), Completed)], [])
      else NoEffect
  }

  /** A stored row as the handlers write it: a positive amount, redacted
      identifiers, and the status that belongs to its path. */
  predicate WellFormed(p: Payment) {
    && p.amount > 0.0
    && match p.details
       case CardDetails(last4, None) =>
         |last4| == 4 && p.status == Completed && p.amount < LargeTierStart
       case CardDetails(last4, Some(code)) =>
         |last4| == 4 && |code| == AuthCodeLength && p.status == PendingReview && LargeTierStart <= p.amount
       case BankDetails(last4, _) =>
         |last4| <= 4 && p.status == Processing
       case PayPalDetails(_) =>
         p.status == Completed
  }

  /** The whole effect of process_payment on one request. */
  function ProcessOutcome(customerId: string, amount: real, kind: string, metadata: map<string, string>,
                          storage: Storage): (e: Effect)
    ensures |e.written| <= 1 && |e.sent| <= 1
    ensures |e.sent| == 1 ==> |e.written| == 1
    ensures e.accepted ==> |e.written| == 1
    ensures !ValidRequest(amount, kind, metadata) ==> e == NoEffect
    ensures !storage.available ==> e == NoEffect
    ensures forall p :: p in e.written ==> WellFormed(p) && p.customerId == customerId && p.amount == amount
    ensures forall n :: n in e.sent ==> n.customerId == customerId && n.amount == amount
  {
    match RoutePayment(amount, kind, metadata)
    case Reject(_) => NoEffect
    case Dispatch(h) => HandlerEffect(customerId, amount, h, storage)
  }

  /** Each refusal of process_payment, with the first check that fails; none writes or sends anything. */
  lemma RejectionReasons(customerId: string, amount: real, kind: string, metadata: map<string, string>,
                         storage: Storage)
    ensures amount <= 0.0 ==> RoutePayment(amount, kind, metadata) == Reject(InvalidAmount)
    ensures amount > 0.0 && kind != CreditCard && kind != BankTransfer && kind != PayPal ==>
              RoutePayment(amount, kind, metadata) == Reject(UnknownMethod)
    ensures amount > 0.0 && kind == CreditCard && CardNumberKey !in metadata ==>
              RoutePayment(amount, kind, metadata) == Reject(NoCardNumber)
    ensures amount > 0.0 && kind == CreditCard && CardNumberKey in metadata
              && |metadata[CardNumberKey]| != CardNumberLength ==>
              RoutePayment(amount, kind, metadata) == Reject(InvalidCardLength)
    ensures amount > 0.0 && kind == CreditCard && CardNumberKey in metadata
              && |metadata[CardNumberKey]| == CardNumberLength && !SupportedCardNumber(metadata[CardNumberKey]) ==>
              RoutePayment(amount, kind, metadata) == Reject(UnsupportedCardType)
    ensures amount >= LargeTierStart && kind == CreditCard && CardNumberKey in metadata
              && SupportedCardNumber(metadata[CardNumberKey]) && AuthCodeKey !in metadata ==>
              RoutePayment(amount, kind, metadata) == Reject(MissingAuthCode)
    ensures amount > 0.0 && kind == BankTransfer && AccountNumberKey !in metadata ==>
              RoutePayment(amount, kind, metadata) == Reject(NoAccountNumber)
    ensures amount > 0.0 && kind == BankTransfer && AccountNumberKey in metadata && RoutingNumberKey !in metadata ==>
              RoutePayment(amount, kind, metadata) == Reject(NoRoutingNumber)
    ensures amount > 0.0 && kind == PayPal && EmailKey !in metadata ==>
              RoutePayment(amount, kind, metadata) == Reject(NoPayPalEmail)
    ensures RoutePayment(amount, kind, metadata).Reject? ==>
              ProcessOutcome(customerId, amount, kind, metadata, storage) == NoEffect
  {
  }

  /** The tier boundaries are half-open: 100 is already medium, 1000 already large. */
  lemma TierBoundaries(metadata: map<string, string>)
    requires CardNumberKey in metadata && SupportedCardNumber(metadata[CardNumberKey])
    ensures RoutePayment(99.99, CreditCard, metadata) == Dispatch(SmallCard(metadata[CardNumberKey]))
    ensures RoutePayment(100.0, CreditCard, metadata) == Dispatch(MediumCard(metadata[CardNumberKey]))
    ensures RoutePayment(999.99, CreditCard, metadata) == Dispatch(MediumCard(metadata[CardNumberKey]))
    ensures RoutePayment(1000.0, CreditCard, metadata) ==
              if AuthCodeKey in metadata then Dispatch(LargeCard(metadata[CardNumberKey], metadata[AuthCodeKey]))
              else Reject(MissingAuthCode)
  {
  }

  /** A valid card payment below 1000 stores one completed row holding only the
      last four digits; the small tier sends nothing, the medium tier one confirmation. */
  lemma CardBelowLargeTier(customerId: string, amount: real, metadata: map<string, string>, storage: Storage)
    requires 0.0 < amount < LargeTierStart && storage.available
    requires CardNumberKey in metadata && SupportedCardNumber(metadata[CardNumberKey])
    ensures var n := metadata[CardNumberKey];
            var e := ProcessOutcome(customerId, amount, CreditCard, metadata, storage);
            && e.written == [Payment(customerId, amount, CardDetails(LastFour(n), None), Completed)]
            && LastFour(n) == n[12..] && LastFour(n) != n
            && e.accepted == (amount < MediumTierStart || storage.withinWait)
            && e.sent == if amount < MediumTierStart then [] else [Confirmation(customerId, amount)]
  {
  }

  /** The medium tier can report failure although its row is written: the row is
      stored by the background task after the caller's bounded wait has ended. */
  lemma MediumTierTimeoutStillWrites(customerId: string, amount: real, metadata: map<string, string>)
    requires MediumTierStart <= amount < LargeTierStart
    requires CardNumberKey in metadata && SupportedCardNumber(metadata[CardNumberKey])
    ensures var e := ProcessOutcome(customerId, amount, CreditCard, metadata, Storage(true, false));
            !e.accepted && |e.written| == 1 && e.written[0].status == Completed
  {
  }

  /** A card payment of 1000 or more needs a six-character authorization code; with
      one it stores a row for review carrying the code and alerts the fraud team once. */
  lemma LargeCardPayment(customerId: string, amount: real, metadata: map<string, string>, storage: Storage)
    requires LargeTierStart <= amount
    requires CardNumberKey in metadata && SupportedCardNumber(metadata[CardNumberKey])
    ensures var e := ProcessOutcome(customerId, amount, CreditCard, metadata, storage);
            (AuthCodeKey !in metadata || |metadata[AuthCodeKey]| != AuthCodeLength) ==> e == NoEffect
    ensures var n := metadata[CardNumberKey];
            var e := ProcessOutcome(customerId, amount, CreditCard, metadata, storage);
            AuthCodeKey in metadata && |metadata[AuthCodeKey]| == AuthCodeLength && storage.available ==>
              && e.accepted
              && e.written == [Payment(customerId, amount, CardDetails(LastFour(n), Some(metadata[AuthCodeKey])),
                                       PendingReview)]
              && LastFour(n) != n
              && e.sent == [FraudAlert(customerId, amount)]
  {
  }

  /** A bank transfer needs both an account and a routing number; it stores one
      processing row with the account's last four characters and the routing number. */
  lemma BankTransferPayment(customerId: string, amount: real, metadata: map<string, string>, storage: Storage)
    requires amount > 0.0
    ensures var e := ProcessOutcome(customerId, amount, BankTransfer, metadata, storage);
            (AccountNumberKey !in metadata || RoutingNumberKey !in metadata) ==> e == NoEffect
    ensures var e := ProcessOutcome(customerId, amount, BankTransfer, metadata, storage);
            AccountNumberKey in metadata && RoutingNumberKey in metadata && storage.available ==>
              e == Effect(true, [Payment(customerId, amount,
                                         BankDetails(LastFour(metadata[AccountNumberKey]), metadata[RoutingNumberKey]),
                                         Processing)], [])
  {
  }

  /** A PayPal payment needs an email; it stores one completed row holding it and sends nothing. */
  lemma PayPalPayment(customerId: string, amount: real, metadata: map<string, string>, storage: Storage)
    requires amount > 0.0
    ensures EmailKey !in metadata ==> ProcessOutcome(customerId, amount, PayPal, metadata, storage) == NoEffect
    ensures EmailKey in metadata && storage.available ==>
              ProcessOutcome(customerId, amount, PayPal, metadata, storage) ==
              Effect(true, [Payment(customerId, amount, PayPalDetails(metadata[EmailKey]), Completed)], [])
  {
  }

  /** The processor: every row it stores and every notice it sends, in order. */
  class PaymentProcessor {
    var ledger: seq<Payment>
    var notices: seq<Notice>

    /** Every stored row is well formed, and there are never more notices than rows. */
    ghost predicate Valid()
      reads this
    {
      && (forall p :: p in ledger ==> WellFormed(p))
      && |notices| <= |ledger|
    }

    constructor ()
      ensures Valid() && ledger == [] && notices == []
    {
      ledger := [];
      notices := [];
    }

    /** process_payment: route the request, then run the handler it selects. */
    method ProcessPayment(customerId: string, amount: real, kind: string, metadata: map<string, string>,
                          storage: Storage) returns (ok: bool)
      requires Valid()
      modifies this
      ensures Valid()
      ensures var e := ProcessOutcome(customerId, amount, kind, metadata, storage);
              && ok == e.accepted
              && ledger == old(ledger) + e.written
              && notices == old(notices) + e.sent
    {
      match RoutePayment(amount, kind, metadata)
      case Reject(_) =>
        ok := false;
      case Dispatch(h) =>
        match h
        case SmallCard(n) =>
          ok := ProcessSmallPayment(customerId, amount, n, storage.available);
        case MediumCard(n) =>
          ok := ProcessMediumPayment(customerId, amount, n, storage);
        case LargeCard(n, code) =>
          ok := ProcessLargePayment(customerId, amount, n, code, storage.available);
        case BankHandler(account, routing) =>
          ok := ProcessBankTransfer(customerId, amount, account, routing, storage.available);
        case PayPalHandler(email) =>
          ok := ProcessPayPal(customerId, amount, email, storage.available);
    }

    /** Store a completed card row; the full card number is reduced to its last four digits. */
    method ProcessSmallPayment(customerId: string, amount: real, cardNumber: string, storeAvailable: bool)
      returns (ok: bool)
      requires Valid()
      requires 0.0 < amount < LargeTierStart && SupportedCardNumber(cardNumber)
      modifies this
      ensures Valid()
      ensures ok == storeAvailable
      ensures ledger == old(ledger) + if ok then [Payment(customerId, amount, CardDetails(LastFour(cardNumber), None), Completed)] else []
      ensures notices == old(notices)
      ensures var e := HandlerEffect(customerId, amount, SmallCard(cardNumber), Storage(storeAvailable, true));
              ok == e.accepted && ledger == old(ledger) + e.written && notices == old(notices) + e.sent
    {
      ok := storeAvailable;
      if ok {
        ledger := ledger + [Payment(customerId, amount, CardDetails(LastFour(cardNumber), None), Completed)];
      }
    }

    /** Store a completed card row from a background task, then send one confirmation.
        The caller's result is the task's flag when its bounded wait ends. */
    method ProcessMediumPayment(customerId: string, amount: real, cardNumber: string, storage: Storage)
      returns (ok: bool)
      requires Valid()
      requires MediumTierStart <= amount < LargeTierStart && SupportedCardNumber(cardNumber)
      modifies this
      ensures Valid()
      ensures ok == (storage.available && storage.withinWait)
      ensures ledger == old(ledger) + if storage.available then [Payment(customerId, amount, CardDetails(LastFour(cardNumber), None), Completed)] else []
      ensures notices == old(notices) + if storage.available then [Confirmation(customerId, amount)] else []
      ensures var e := HandlerEffect(customerId, amount, MediumCard(cardNumber), storage);
              ok == e.accepted && ledger == old(ledger) + e.written && notices == old(notices) + e.sent
    {
      var stored := ProcessSmallPayment(customerId, amount, cardNumber, storage.available);
      if stored {
        notices := notices + [Confirmation(customerId, amount)];
      }
      ok := stored && storage.withinWait;
    }

    /** Check the authorization code's length, store a row for review and alert the fraud team. */
    method ProcessLargePayment(customerId: string, amount: real, cardNumber: string, authCode: string,
                               storeAvailable: bool) returns (ok: bool)
      requires Valid()
      requires LargeTierStart <= amount && SupportedCardNumber(cardNumber)
      modifies this
      ensures Valid()
      ensures ok == (|authCode| == AuthCodeLength && storeAvailable)
      ensures ledger == old(ledger) + if ok then [Payment(customerId, amount, CardDetails(LastFour(cardNumber), Some(authCode)), PendingReview)] else []
      ensures notices == old(notices) + if ok then [FraudAlert(customerId, amount)] else []
      ensures var e := HandlerEffect(customerId, amount, LargeCard(cardNumber, authCode), Storage(storeAvailable, true));
              ok == e.accepted && ledger == old(ledger) + e.written && notices == old(notices) + e.sent
    {
      if |authCode| != AuthCodeLength {
        return false;
      }
      ok := storeAvailable;
      if ok {
        ledger := ledger + [Payment(customerId, amount, CardDetails(LastFour(cardNumber), Some(authCode)), PendingReview)];
        notices := notices + [FraudAlert(customerId, amount)];
      }
    }

    /** Store a processing row with the account's last four characters and the routing number. */
    method ProcessBankTransfer(customerId: string, amount: real, accountNumber: string, routingNumber: string,
                               storeAvailable: bool) returns (ok: bool)
      requires Valid()
      requires amount > 0.0
      modifies this
      ensures Valid()
      ensures ok == storeAvailable
      ensures ledger == old(ledger) + if ok then [Payment(customerId, amount, BankDetails(LastFour(accountNumber), routingNumber), Processing)] else []
      ensures notices == old(notices)
      ensures var e := HandlerEffect(customerId, amount, BankHandler(accountNumber, routingNumber), Storage(storeAvailable, true));
              ok == e.accepted && ledger == old(ledger) + e.written && notices == old(notices) + e.sent
    {
      ok := storeAvailable;
      if ok {
        ledger := ledger + [Payment(customerId, amount, BankDetails(LastFour(accountNumber), routingNumber), Processing)];
      }
    }

    /** Store a completed row holding the PayPal email. */
    method ProcessPayPal(customerId: string, amount: real, email: string, storeAvailable: bool) returns (ok: bool)
      requires Valid()
      requires amount > 0.0
      modifies this
      ensures Valid()
      ensures ok == storeAvailable
      ensures ledger == old(ledger) + if ok then [Payment(customerId, amount, PayPalDetails(email), Completed)] else []
      ensures notices == old(notices)
      ensures var e := HandlerEffect(customerId, amount, PayPalHandler(email), Storage(storeAvailable, true));
              ok == e.accepted && ledger == old(ledger) + e.written && notices == old(notices) + e.sent
    {
      ok := storeAvailable;
      if ok {
        ledger := ledger + [Payment(customerId, amount, PayPalDetails(email), Completed)];
      }
    }
  }
}
