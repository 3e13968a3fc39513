/** The per-event handlers that map a processor notification onto the ledger,
    and the dispatch on the event type. Each handler returns the new tables
    and `Done`, or the tables it was given and the rejection. Every handler
    that resolves a payment account by customer or connected-account identity
    needs exactly one match. A rejection with status 418 asks the processor to
    redeliver the event; a thrown plain error carries no status. */
module Reconciler {
  import opened Common
  import opened Status
  import opened LedgerState

  datatype HandlerOutcome = Done | Rejected(error: Error)

  /** The payment-intent object of a notification. */
  datatype PaymentIntent = PaymentIntent(
    id: IntentId,
    customer: CustomerId,
    status: string,
    amount: int,
    amountCapturable: int,
    gigPurchase: bool,                // metadata marks it as this platform's purchase
    isApplication: bool,              // metadata marks it as a direct charge of the platform
    destination: Option<ConnectId>,   // transfer destination; absent on direct charges
    lastErrorMessage: Option<string>)

  datatype PaymentMethodObject = PaymentMethodObject(id: string, customer: CustomerId, fingerprint: string)

  datatype ConnectAccount = ConnectAccount(
    id: ConnectId,
    chargesEnabled: bool,
    payoutsEnabled: bool,
    currentlyDue: Option<seq<string>>)

  datatype ExternalAccount = ExternalAccount(id: ExternalAccountId, kind: string, status: string)

  datatype Payout = Payout(
    id: PayoutId,
    amount: int,
    currency: Currency,
    destination: ExternalAccountId,
    description: string,
    failureMessage: Option<string>)

  datatype Balance = Balance(available: seq<BalanceBucket>, pending: seq<BalanceBucket>)

  /** The object a notification carries. */
  datatype EventObject =
    | IntentObject(intent: PaymentIntent)
    | MethodObject(paymentMethod: PaymentMethodObject)
    | BalanceObject(balance: Balance)
    | AccountObject(account: ConnectAccount)
    | ExternalAccountObject(external: ExternalAccount)
    | DeauthorizationObject(deauthorized: Option<ConnectId>)
    | PayoutObject(payout: Payout)

  datatype Event = Event(
    eventType: string,
    id: EventId,
    livemode: bool,
    account: Option<ConnectId>,   // the connected account the event belongs to
    payload: EventObject)

  /** Outcomes of collaborators a handler calls: whether the invoice document
      rendered, the processor balance a payout refresh reads (`None` when it
      could not be retrieved), and the id a new payment-method record
      receives. */
  datatype Collaborators = Collaborators(invoiceRendered: bool, liveBalance: Option<seq<BalanceBucket>>, newMethodId: MethodId)

  function Retry(t: Tables, r: Reason): (Tables, HandlerOutcome)
  {
    (t, Rejected(Error(Some(RetryWebhookStatusCode), r)))
  }

  function Fail(t: Tables, r: Reason): (Tables, HandlerOutcome)
  {
    (t, Rejected(Error(None, r)))
  }

  /** The description a failed intent leaves on its transaction. */
  function FailureDescription(message: Option<string>): (d: string)
    ensures message.Some? && message.value != "" ==> d == message.value
    ensures !(message.Some? && message.value != "") ==> d == "Payment Failed"
  {
    if message.Some? && message.value != "" then message.value else "Payment Failed"
  }

  function SetTxnStatus(t: Tables, id: nat, s: TransactionStatus): Tables
    requires id < |t.txns|
  {
    t.(txns := t.txns[id := t.txns[id].(status := s)])
  }

  // --------------------------------------------------------- payment intents

  /** `handlePayment`: a succeeded intent settles its transaction (`SUCCESS`)
      and finalizes its invoice with the settled amount; any failure asks for
      redelivery. */
  function HandlePayment(t: Tables, info: PaymentIntent, env: Collaborators): (res: (Tables, HandlerOutcome))
    ensures res.1.Rejected? ==> res.0 == t && res.1.error.status == Some(RetryWebhookStatusCode)
    ensures res.0 == t.(txns := res.0.txns, invoices := res.0.invoices)
  {
    match Sole(CustomerMatches(t.accounts, info.customer))
    case None => Retry(t, DuplicateOrMissingAccount)
    case Some(u) =>
      match FindTxn(t, info.id, u)
      case None => Retry(t, TransactionMissing)
      case Some(id) =>
        if info.status != "succeeded" then (t, Done)
        else if !RecipientExists(t, info.destination) then Retry(t, RecipientMissing)
        else
          var txn := t.txns[id];
          if info.isApplication then
            if id in t.invoices && !env.invoiceRendered then Retry(t, RenderFailure)
            else
              var invoices := if id in t.invoices then
                t.invoices[id := t.invoices[id].(amount := info.amount - txn.tax, tax := txn.tax, total := info.amount,
                                                 jobStatus := InvoiceComplete, description := txn.description)]
                else t.invoices;
              (SetTxnStatus(t.(invoices := invoices), id, Success), Done)
          else
            match FirstIndex(t.jobPayments, (x: JobPayment) => x.paymentId == id)
            case None => Retry(t, JobPaymentMissing)
            case Some(ji) =>
              if id in t.invoices && !env.invoiceRendered then Retry(t, RenderFailure)
              else
                var charge := t.jobPayments[ji].deployerCharge;
                var invoices := if id in t.invoices then
                  t.invoices[id := t.invoices[id].(amount := info.amount - charge - txn.tax, tax := txn.tax,
                                                   total := info.amount, jobStatus := InvoiceComplete,
                                                   description := txn.description)]
                  else t.invoices;
                (SetTxnStatus(t.(invoices := invoices), id, Success), Done)
  }

  /** `authorizedPayment`: a hold became capturable; a job transaction is
      (re)marked `UNCAPTURED` with the capturable amount. */
  function AuthorizedPayment(t: Tables, info: PaymentIntent): (res: (Tables, HandlerOutcome))
    ensures res.1.Rejected? ==> res.0 == t && res.1.error.status.None?
    ensures res.0 == t.(txns := res.0.txns)
  {
    match Sole(CustomerMatches(t.accounts, info.customer))
    case None => Fail(t, DuplicateOrMissingAccount)
    case Some(u) =>
      match FindTxn(t, info.id, u)
      case None => Fail(t, TransactionMissing)
      case Some(id) =>
        if info.isApplication then (t, Done)
        else if !RecipientExists(t, info.destination) then Fail(t, RecipientMissing)
        else (t.(txns := t.txns[id := t.txns[id].(status := Uncaptured, amount := info.amountCapturable)]), Done)
  }

  /** `handleFailedPayment`: the transaction is `FAILED` with the processor's
      error message; a job transaction also loses its invoice. */
  function HandleFailedPayment(t: Tables, info: PaymentIntent): (res: (Tables, HandlerOutcome))
    ensures res.1.Rejected? ==> res.0 == t && res.1.error.status == Some(RetryWebhookStatusCode)
    ensures res.0 == t.(txns := res.0.txns, invoices := res.0.invoices)
  {
    match Sole(CustomerMatches(t.accounts, info.customer))
    case None => Retry(t, DuplicateOrMissingAccount)
    case Some(u) =>
      match FindTxn(t, info.id, u)
      case None => Retry(t, TransactionMissing)
      case Some(id) =>
        var d := FailureDescription(info.lastErrorMessage);
        if info.isApplication then
          (t.(txns := t.txns[id := t.txns[id].(status := Failed, description := d)]), Done)
        else if !RecipientExists(t, info.destination) then Retry(t, RecipientMissing)
        else
          (t.(invoices := t.invoices - {id}, txns := t.txns[id := t.txns[id].(status := Failed, description := d)]), Done)
  }

  /** `handleFailedPayment` as the source has it: after its updates it logs
      a name that is not declared in that scope, so every run that got that
      far is rejected for redelivery, with its updates already applied. */
  function HandleFailedPaymentAsWritten(t: Tables, info: PaymentIntent): (res: (Tables, HandlerOutcome))
    ensures res.1.Rejected? && res.1.error.status == Some(RetryWebhookStatusCode)
    ensures res.0 == HandleFailedPayment(t, info).0
  {
    var (t', outcome) := HandleFailedPayment(t, info);
    if outcome.Done? then (t', Rejected(Error(Some(RetryWebhookStatusCode), UndeclaredName))) else (t', outcome)
  }

  /** `handleCancelledPayment`: like a failure, except that a direct charge
      reads its message from a nested path the processor never fills, so it
      always gets the default description. */
  function HandleCancelledPayment(t: Tables, info: PaymentIntent): (res: (Tables, HandlerOutcome))
    ensures res.1.Rejected? ==> res.0 == t && res.1.error.status == Some(RetryWebhookStatusCode)
    ensures res.0 == t.(txns := res.0.txns, invoices := res.0.invoices)
  {
    match Sole(CustomerMatches(t.accounts, info.customer))
    case None => Retry(t, DuplicateOrMissingAccount)
    case Some(u) =>
      match FindTxn(t, info.id, u)
      case None => Retry(t, TransactionMissing)
      case Some(id) =>
        if info.isApplication then
          (t.(txns := t.txns[id := t.txns[id].(status := Failed, description := FailureDescription(None))]), Done)
        else if !RecipientExists(t, info.destination) then Retry(t, RecipientMissing)
        else
          var d := FailureDescription(info.lastErrorMessage);
          (t.(invoices := t.invoices - {id}, txns := t.txns[id := t.txns[id].(status := Failed, description := d)]), Done)
  }

  // --------------------------------------------------------- payment methods

  /** `setupPaymentMethod`: upsert of the customer's method with that card
      fingerprint. */
  function SetupPaymentMethod(t: Tables, m: PaymentMethodObject, newId: MethodId): (res: (Tables, HandlerOutcome))
    ensures res.1.Rejected? ==> res.0 == t && res.1.error.status.None?
    ensures res.0 == t.(methods := res.0.methods)
  {
    match Sole(CustomerMatches(t.accounts, m.customer))
    case None => Fail(t, DuplicateOrMissingAccount)
    case Some(u) =>
      match FirstIndex(t.methods, (x: PaymentMethod) => x.user == u && x.fingerprint == m.fingerprint)
      case Some(i) => (t.(methods := t.methods[i := t.methods[i].(processorMethodId := m.id)]), Done)
      case None => (t.(methods := t.methods + [PaymentMethod(newId, u, m.fingerprint, m.id, false)]), Done)
  }

  /** `removePaymentMethod`: the first method with that processor id is deleted, if any. */
  function RemovePaymentMethod(t: Tables, m: PaymentMethodObject): (res: (Tables, HandlerOutcome))
    ensures res.1 == Done && res.0 == t.(methods := res.0.methods)
    ensures |t.methods| - 1 <= |res.0.methods| <= |t.methods|
  {
    match FirstIndex(t.methods, (x: PaymentMethod) => x.processorMethodId == m.id)
    case None => (t, Done)
    case Some(i) => (t.(methods := t.methods[..i] + t.methods[i + 1..]), Done)
  }

  // --------------------------------------------------- connected accounts

  /** Onboarding is complete when charges and payouts are enabled and nothing
      is currently due. */
  predicate ReadyForPayouts(a: ConnectAccount)
  {
    a.chargesEnabled && (a.currentlyDue.None? || |a.currentlyDue.value| < 1) && a.payoutsEnabled
  }

  /** `activateAccount`. */
  function ActivateAccount(t: Tables, a: ConnectAccount): (res: (Tables, HandlerOutcome))
    ensures res.1.Rejected? ==> res.0 == t && res.1.error.status.None?
    ensures res.0 == t.(accounts := res.0.accounts) && res.0.accounts.Keys == t.accounts.Keys
  {
    match Sole(ConnectMatches(t.accounts, Some(a.id)))
    case None => Fail(t, DuplicateOrMissingAccount)
    case Some(u) =>
      var ready := ReadyForPayouts(a);
      (t.(accounts := t.accounts[u := t.accounts[u].(isOnboarded := ready, payoutEnabled := ready)]), Done)
  }

  /** `removeExternalAccountUser`: every payout account of the user goes, and
      the payment account loses its connected-account link. */
  function RemoveExternalAccountUser(t: Tables, u: UserId): Tables
    requires u in t.accounts
  {
    t.(payoutAccounts := map k | k in t.payoutAccounts && k.0 != u :: t.payoutAccounts[k],
       accounts := t.accounts[u := t.accounts[u].(connectId := None, isOnboarded := false)])
  }

  /** `deauthorizeAccount`. */
  function DeauthorizeAccount(t: Tables, account: Option<ConnectId>): (res: (Tables, HandlerOutcome))
    ensures res.1.Rejected? ==> res.0 == t && res.1.error.status.None?
    ensures res.0 == t.(accounts := res.0.accounts, payoutAccounts := res.0.payoutAccounts)
  {
    match Sole(ConnectMatches(t.accounts, account))
    case None => Fail(t, DuplicateOrMissingAccount)
    case Some(u) => (RemoveExternalAccountUser(t, u), Done)
  }

  function IsBank(x: ExternalAccount): bool { x.kind != "card" }

  /** A new destination is active when it is a card, or a bank account in
      status `new`. */
  function InitiallyActive(x: ExternalAccount): bool
  {
    if x.kind == "bank_account" then x.status == "new" else true
  }

  /** `configureExternalAccount`: upsert of the payout destination. */
  function ConfigureExternalAccount(t: Tables, account: Option<ConnectId>, x: ExternalAccount): (res: (Tables, HandlerOutcome))
    ensures res.1.Rejected? ==> res.0 == t && res.1.error.status.None?
    ensures res.0 == t.(payoutAccounts := res.0.payoutAccounts)
  {
    match Sole(ConnectMatches(t.accounts, account))
    case None => Fail(t, DuplicateOrMissingAccount)
    case Some(u) =>
      (t.(payoutAccounts := t.payoutAccounts[(u, x.id) := PayoutAccount(IsBank(x), InitiallyActive(x))]), Done)
  }

  /** `updateExternalAccount`: updates a known destination only (never
      inserts); only a bank account's update changes its active flag. */
  function UpdateExternalAccount(t: Tables, account: Option<ConnectId>, x: ExternalAccount): (res: (Tables, HandlerOutcome))
    ensures res.1.Rejected? ==> res.0 == t && res.1.error.status.None?
    ensures res.0 == t.(payoutAccounts := res.0.payoutAccounts)
  {
    match Sole(ConnectMatches(t.accounts, account))
    case None => Fail(t, DuplicateOrMissingAccount)
    case Some(u) =>
      var k := (u, x.id);
      if k !in t.payoutAccounts then (t, Done)
      else
        var prev := t.payoutAccounts[k];
        var active := if x.kind == "bank_account" then x.status == "new" else prev.active;
        (t.(payoutAccounts := t.payoutAccounts[k := PayoutAccount(IsBank(x), active)]), Done)
  }

  /** `removeExternalAccount`. */
  function RemoveExternalAccount(t: Tables, account: Option<ConnectId>, x: ExternalAccount): (res: (Tables, HandlerOutcome))
    ensures res.1.Rejected? ==> res.0 == t && res.1.error.status.None?
    ensures res.0 == t.(payoutAccounts := res.0.payoutAccounts)
  {
    match Sole(ConnectMatches(t.accounts, account))
    case None => Fail(t, DuplicateOrMissingAccount)
    case Some(u) => (t.(payoutAccounts := t.payoutAccounts - {(u, x.id)}), Done)
  }

  // ------------------------------------------------------------ payouts

  /** The checks the three payout handlers share: exactly one account, and a
      known destination. The rejections of a missing destination carry the
      retry code in a field the gate does not read, so they carry no status. */
  function PayoutOwner(t: Tables, account: Option<ConnectId>, p: Payout): (r: Result<UserId>)
    ensures r.Ok? ==> ConnectMatches(t.accounts, account) == {r.value} && (r.value, p.destination) in t.payoutAccounts
  {
    match Sole(ConnectMatches(t.accounts, account))
    case None => Err(Error(None, DuplicateOrMissingAccount))
    case Some(u) =>
      if (u, p.destination) !in t.payoutAccounts then Err(Error(None, ExternalAccountUnknown))
      else Ok(u)
  }

  function PayoutKey(u: UserId, p: Payout): PayoutTxnKey
  {
    (u, p.id, (u, p.currency))
  }

  /** `payoutCreated` (also `payout.updated`): the payout is upserted
      `PENDING` and its amount added to the wallet's pending payouts. */
  function PayoutCreated(t: Tables, account: Option<ConnectId>, p: Payout): (res: (Tables, HandlerOutcome))
    ensures res.1.Rejected? ==> res.0 == t && res.1.error.status.None?
    ensures res.0 == t.(wallets := res.0.wallets, payoutTxns := res.0.payoutTxns)
  {
    match PayoutOwner(t, account, p)
    case Err(e) => (t, Rejected(e))
    case Ok(u) =>
      var wk := (u, p.currency);
      var ws := EnsureWallet(t.wallets, wk);
      var key := PayoutKey(u, p);
      var w := ws[wk];
      (t.(payoutTxns := t.payoutTxns[key := PayoutTransaction(Pending, p.amount, p.description)],
          wallets := ws[wk := w.(lastPayoutTransaction := Some(key), pendingPayout := w.pendingPayout + p.amount)]),
       Done)
  }

  /** `payoutSuccess`: the payout is `SUCCESS`, its amount leaves the pending
      payouts, and the wallet value is overwritten by the processor's
      available balance in that currency. The wallet's get-or-create runs
      before the transaction that holds the other writes, so when the
      balance cannot be retrieved the wallet stays created and the rest is
      rolled back. */
  function PayoutSuccess(t: Tables, account: Option<ConnectId>, p: Payout, liveBalance: Option<seq<BalanceBucket>>)
    : (res: (Tables, HandlerOutcome))
    ensures res.1.Rejected? ==> res.1.error.status.None? && res.0 == t.(wallets := res.0.wallets)
    ensures res.1.Rejected? && liveBalance.Some? ==> res.0 == t
    ensures liveBalance.None? ==> res.1.Rejected?
    ensures res.0 == t.(wallets := res.0.wallets, payoutTxns := res.0.payoutTxns)
  {
    match PayoutOwner(t, account, p)
    case Err(e) => (t, Rejected(e))
    case Ok(u) =>
      var wk := (u, p.currency);
      var ws := EnsureWallet(t.wallets, wk);
      if liveBalance.None? then (t.(wallets := ws), Rejected(Error(None, ProcessorFailure)))
      else
        var key := PayoutKey(u, p);
        var w := ws[wk];
        (t.(payoutTxns := t.payoutTxns[key := PayoutTransaction(Success, p.amount, p.description)],
            wallets := ws[wk := w.(lastPayoutTransaction := Some(key), pendingPayout := w.pendingPayout - p.amount,
                                   value := SumAvailable(liveBalance.value, p.currency))]),
         Done)
  }

  /** `payoutFailed` (also `payout.canceled`): the destination is marked
      inactive, the payout `FAILED`, and its amount leaves the pending payouts. */
  function PayoutFailed(t: Tables, account: Option<ConnectId>, p: Payout): (res: (Tables, HandlerOutcome))
    ensures res.1.Rejected? ==> res.0 == t && res.1.error.status.None?
    ensures res.0 == t.(wallets := res.0.wallets, payoutTxns := res.0.payoutTxns, payoutAccounts := res.0.payoutAccounts)
  {
    match PayoutOwner(t, account, p)
    case Err(e) => (t, Rejected(e))
    case Ok(u) =>
      var wk := (u, p.currency);
      var ws := EnsureWallet(t.wallets, wk);
      var key := PayoutKey(u, p);
      var w := ws[wk];
      var dk := (u, p.destination);
      var d := if p.failureMessage.Some? && p.failureMessage.value != "" then p.failureMessage.value else p.description;
      (t.(payoutAccounts := t.payoutAccounts[dk := t.payoutAccounts[dk].(active := false)],
          payoutTxns := t.payoutTxns[key := PayoutTransaction(Failed, p.amount, d)],
          wallets := ws[wk := w.(lastPayoutTransaction := Some(key), pendingPayout := w.pendingPayout - p.amount)]),
       Done)
  }

  // ------------------------------------------------------------ balances

  /** A wallet after one bucket's upsert: the available amount sets its
      value, a pending amount its pending value. */
  function Touch(w: Wallet, amount: int, available: bool): Wallet
  {
    if available then w.(value := amount) else w.(pendingValue := amount)
  }

  /** The upserts of one list of balance buckets, in order: each sets the
      value (`available`) or the pending value of the user's wallet in the
      bucket's currency. */
  function ApplyBuckets(ws: map<WalletKey, Wallet>, u: UserId, buckets: seq<BalanceBucket>, available: bool)
    : (r: map<WalletKey, Wallet>)
    decreases |buckets|
  {
    if |buckets| == 0 then ws
    else
      var b := buckets[0];
      var w := EnsureWallet(ws, (u, b.currency))[(u, b.currency)];
      ApplyBuckets(ws[(u, b.currency) := Touch(w, b.amount, available)], u, buckets[1..], available)
  }

  /** `availableBalance`: the snapshot overwrites the user's wallets. */
  function AvailableBalance(t: Tables, account: ConnectId, b: Balance): (res: (Tables, HandlerOutcome))
    ensures res.1.Rejected? ==> res.0 == t && res.1.error.status == Some(RetryWebhookStatusCode)
    ensures res.0 == t.(wallets := res.0.wallets)
  {
    match Sole(ConnectMatches(t.accounts, Some(account)))
    case None => Retry(t, DuplicateOrMissingAccount)
    case Some(u) =>
      (t.(wallets := ApplyBuckets(ApplyBuckets(t.wallets, u, b.available, true), u, b.pending, false)), Done)
  }

  /** `availableBalance` as the source has it: its error path refers to a
      session declared inside the `try` block, so the rejection it means to
      give (status 418) is replaced by an error without a status. */
  function AvailableBalanceAsWritten(t: Tables, account: ConnectId, b: Balance): (res: (Tables, HandlerOutcome))
    ensures res.1.Rejected? ==> res.1.error.status.None?
    ensures res.0 == AvailableBalance(t, account, b).0 && (res.1.Done? <==> AvailableBalance(t, account, b).1.Done?)
  {
    var (t', outcome) := AvailableBalance(t, account, b);
    if outcome.Rejected? then (t', Rejected(Error(None, UndeclaredName))) else (t', outcome)
  }

  // ------------------------------------------------------------ dispatch

  /** The handler an event type is routed to. */
  datatype Route =
    | SaveMethod | DetachMethod | BalanceRefresh
    | IntentSucceeded | IntentCapturable | IntentFailed | IntentCanceled
    | AccountUpdated | DestinationCreated | DestinationUpdated | DestinationDeleted | Deauthorized
    | PayoutFailure | PayoutPaid | PayoutPending
    | NoRoute

  /** The cases of the dispatch switch. */
  function RouteOf(ty: string): (r: Route)
    ensures ty == "charge.expired" ==> r == NoRoute
  {
    if ty == "payment_method.updated" || ty == "payment_method.automatically_updated" || ty == "payment_method.attached" then SaveMethod
    else if ty == "payment_method.detached" then DetachMethod
    else if ty == "balance.available" then BalanceRefresh
    else if ty == "payment_intent.succeeded" then IntentSucceeded
    else if ty == "payment_intent.amount_capturable_updated" then IntentCapturable
    else if ty == "payment_intent.requires_action" || ty == "payment_intent.payment_failed" then IntentFailed
    else if ty == "payment_intent.canceled" then IntentCanceled
    else if ty == "account.updated" then AccountUpdated
    else if ty == "account.external_account.created" then DestinationCreated
    else if ty == "account.external_account.updated" then DestinationUpdated
    else if ty == "account.external_account.deleted" then DestinationDeleted
    else if ty == "account.application.deauthorized" then Deauthorized
    else if ty == "payout.failed" || ty == "payout.canceled" then PayoutFailure
    else if ty == "payout.paid" then PayoutPaid
    else if ty == "payout.created" || ty == "payout.updated" then PayoutPending
    else NoRoute
  }

  /** Whether a notification carries the object its route reads. */
  predicate PayloadFits(r: Route, p: EventObject)
  {
    match r
    case SaveMethod | DetachMethod => p.MethodObject?
    case BalanceRefresh => p.BalanceObject?
    case IntentSucceeded | IntentCapturable | IntentFailed | IntentCanceled => p.IntentObject?
    case AccountUpdated => p.AccountObject?
    case DestinationCreated | DestinationUpdated | DestinationDeleted => p.ExternalAccountObject?
    case Deauthorized => p.DeauthorizationObject?
    case PayoutFailure | PayoutPaid | PayoutPending => p.PayoutObject?
    case NoRoute => true
  }

  /** The intent handlers only act on this platform's purchases. */
  function ForPurchase(t: Tables, e: Event, h: PaymentIntent -> (Tables, HandlerOutcome)): (Tables, HandlerOutcome)
  {
    if !e.payload.IntentObject? then Fail(t, MalformedPayload)
    else if e.payload.intent.gigPurchase then h(e.payload.intent)
    else (t, Done)
  }

  /** `Webhook.handle`: the handler for each event type. Intent handlers only
      run for this platform's purchases; a balance snapshot only for an event
      of a connected account. A type without a case is an error. This is the
      dispatch with the two handlers of the source that cannot behave as
      their authors meant (`handleFailedPayment`, `availableBalance`)
      corrected; `HandleAsWritten` is the dispatch as written. */
  function Handle(t: Tables, e: Event, env: Collaborators): (res: (Tables, HandlerOutcome))
    ensures !PayloadFits(RouteOf(e.eventType), e.payload) ==> res == (t, Rejected(Error(None, MalformedPayload)))
    ensures RouteOf(e.eventType) == NoRoute ==> res == (t, Rejected(Error(None, UnhandledEventType)))
  {
    HandleRoute(t, e, env, RouteOf(e.eventType))
  }

  /** The case of the dispatch for route `r`. */
  function HandleRoute(t: Tables, e: Event, env: Collaborators, r: Route): (res: (Tables, HandlerOutcome))
    ensures !PayloadFits(r, e.payload) ==> res == (t, Rejected(Error(None, MalformedPayload)))
    ensures r == NoRoute ==> res == (t, Rejected(Error(None, UnhandledEventType)))
  {
    match r
    case SaveMethod =>
      if e.payload.MethodObject? then SetupPaymentMethod(t, e.payload.paymentMethod, env.newMethodId) else Fail(t, MalformedPayload)
    case DetachMethod =>
      if e.payload.MethodObject? then RemovePaymentMethod(t, e.payload.paymentMethod) else Fail(t, MalformedPayload)
    case BalanceRefresh =>
      if !e.payload.BalanceObject? then Fail(t, MalformedPayload)
      else if e.account.Some? then AvailableBalance(t, e.account.value, e.payload.balance)
      else (t, Done)
    case IntentSucceeded => ForPurchase(t, e, info => HandlePayment(t, info, env))
    case IntentCapturable => ForPurchase(t, e, info => AuthorizedPayment(t, info))
    case IntentFailed => ForPurchase(t, e, info => HandleFailedPayment(t, info))
    case IntentCanceled => ForPurchase(t, e, info => HandleCancelledPayment(t, info))
    case AccountUpdated =>
      if e.payload.AccountObject? then ActivateAccount(t, e.payload.account) else Fail(t, MalformedPayload)
    case DestinationCreated =>
      if e.payload.ExternalAccountObject? then ConfigureExternalAccount(t, e.account, e.payload.external)
      else Fail(t, MalformedPayload)
    case DestinationUpdated =>
      if e.payload.ExternalAccountObject? then UpdateExternalAccount(t, e.account, e.payload.external)
      else Fail(t, MalformedPayload)
    case DestinationDeleted =>
      if e.payload.ExternalAccountObject? then RemoveExternalAccount(t, e.account, e.payload.external)
      else Fail(t, MalformedPayload)
    case Deauthorized =>
      if e.payload.DeauthorizationObject? then DeauthorizeAccount(t, e.payload.deauthorized) else Fail(t, MalformedPayload)
    case PayoutFailure =>
      if e.payload.PayoutObject? then PayoutFailed(t, e.account, e.payload.payout) else Fail(t, MalformedPayload)
    case PayoutPaid =>
      if e.payload.PayoutObject? then PayoutSuccess(t, e.account, e.payload.payout, env.liveBalance)
      else Fail(t, MalformedPayload)
    case PayoutPending =>
      if e.payload.PayoutObject? then PayoutCreated(t, e.account, e.payload.payout) else Fail(t, MalformedPayload)
    case NoRoute => Fail(t, UnhandledEventType)
  }

  /** `Webhook.handle` as the source has it: a failed intent goes to the
      handler that always asks for redelivery, and a balance snapshot to the
      handler whose rejection loses its status. Every other route is the
      corrected dispatch's, and the tables are always those of the corrected
      dispatch. */
  function HandleAsWritten(t: Tables, e: Event, env: Collaborators): (res: (Tables, HandlerOutcome))
    ensures RouteOf(e.eventType) != IntentFailed && RouteOf(e.eventType) != BalanceRefresh ==> res == Handle(t, e, env)
    ensures res.0 == Handle(t, e, env).0
  {
    HandleRouteAsWritten(t, e, env, RouteOf(e.eventType))
  }

  function HandleRouteAsWritten(t: Tables, e: Event, env: Collaborators, r: Route): (res: (Tables, HandlerOutcome))
    ensures r != IntentFailed && r != BalanceRefresh ==> res == HandleRoute(t, e, env, r)
    ensures res.0 == HandleRoute(t, e, env, r).0
  {
    match r
    case IntentFailed => ForPurchase(t, e, info => HandleFailedPaymentAsWritten(t, info))
    case BalanceRefresh =>
      if !e.payload.BalanceObject? then Fail(t, MalformedPayload)
      else if e.account.Some? then AvailableBalanceAsWritten(t, e.account.value, e.payload.balance)
      else (t, Done)
    case _ => HandleRoute(t, e, env, r)
  }
}
