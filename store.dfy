/** The ledger as the running service keeps it: one object whose tables the
    webhook handlers and the caller operations update in place. Every method
    is proved to leave the object in exactly the state, and to return exactly
    the outcome, of the corresponding operation on values; what those
    operations guarantee is proved about them. */
module Store {
  import opened Common
  import opened Status
  import opened Fees
  import opened LedgerState
  import opened Escrow
  import opened PayoutGuard
  import opened Reconciler
  import opened Gate

  /** The accumulator fold of a payout refresh: the available amounts of the
      buckets in `currency`, added up in order. */
  method AvailableIn(buckets: seq<BalanceBucket>, currency: Currency) returns (total: int)
    ensures total == SumAvailable(buckets, currency)
  {
    total := 0;
    var i := 0;
    while i < |buckets|
      invariant 0 <= i <= |buckets|
      invariant total == SumAvailable(buckets[..i], currency)
    {
      assert buckets[..i + 1][..i] == buckets[..i];
      if buckets[i].currency == currency {
        total := total + buckets[i].amount;
      }
      i := i + 1;
    }
    assert buckets[..|buckets|] == buckets;
  }

  /** The accumulator fold of a payout request: the bank (or card) source
      parts of the buckets in `currency`, added up in order. */
  method SourceTypeIn(buckets: seq<BalanceBucket>, currency: Currency, isBank: bool) returns (total: int)
    ensures total == SumSourceType(buckets, currency, isBank)
  {
    total := 0;
    var i := 0;
    while i < |buckets|
      invariant 0 <= i <= |buckets|
      invariant total == SumSourceType(buckets[..i], currency, isBank)
    {
      assert buckets[..i + 1][..i] == buckets[..i];
      if buckets[i].currency == currency {
        total := total + (if isBank then buckets[i].bank else buckets[i].card);
      }
      i := i + 1;
    }
    assert buckets[..|buckets|] == buckets;
  }

  class Ledger {
    var accounts: map<UserId, PaymentAccount>
    var txns: seq<PaymentTransaction>
    var jobPayments: seq<JobPayment>
    var invoices: map<nat, Invoice>
    var wallets: map<WalletKey, Wallet>
    var payoutAccounts: map<PayoutAccountKey, PayoutAccount>
    var payoutTxns: map<PayoutTxnKey, PayoutTransaction>
    var methods: seq<PaymentMethod>
    var eventLog: set<LogKey>

    /** The tables as a value. */
    function State(): Tables
      reads this
    {
      Tables(accounts, txns, jobPayments, invoices, wallets, payoutAccounts, payoutTxns, methods)
    }

    constructor ()
      ensures State() == Tables(map[], [], [], map[], map[], map[], map[], [])
      ensures eventLog == {}
    {
      accounts, txns, jobPayments, invoices := map[], [], [], map[];
      wallets, payoutAccounts, payoutTxns, methods := map[], map[], map[], [];
      eventLog := {};
    }

    // ------------------------------------------------------ payment intents

    method HandlePayment(info: PaymentIntent, env: Collaborators) returns (o: HandlerOutcome)
      modifies this
      ensures (State(), o) == Reconciler.HandlePayment(old(State()), info, env)
      ensures eventLog == old(eventLog)
    {
      var owner := Sole(CustomerMatches(accounts, info.customer));
      if owner.None? { return Rejected(Error(Some(RetryWebhookStatusCode), DuplicateOrMissingAccount)); }
      var found := FindTxn(State(), info.id, owner.value);
      if found.None? { return Rejected(Error(Some(RetryWebhookStatusCode), TransactionMissing)); }
      var id := found.value;
      if info.status != "succeeded" { return Done; }
      if !RecipientExists(State(), info.destination) { return Rejected(Error(Some(RetryWebhookStatusCode), RecipientMissing)); }
      var txn := txns[id];
      var fees := 0;
      if !info.isApplication {
        var job := FirstIndex(jobPayments, (x: JobPayment) => x.paymentId == id);
        if job.None? { return Rejected(Error(Some(RetryWebhookStatusCode), JobPaymentMissing)); }
        fees := jobPayments[job.value].deployerCharge;
      }
      if id in invoices {
        if !env.invoiceRendered { return Rejected(Error(Some(RetryWebhookStatusCode), RenderFailure)); }
        invoices := invoices[id := invoices[id].(amount := info.amount - fees - txn.tax, tax := txn.tax,
                                                 total := info.amount, jobStatus := InvoiceComplete,
                                                 description := txn.description)];
      }
      txns := txns[id := txn.(status := Success)];
      o := Done;
    }

    method AuthorizedPayment(info: PaymentIntent) returns (o: HandlerOutcome)
      modifies this
      ensures (State(), o) == Reconciler.AuthorizedPayment(old(State()), info)
      ensures eventLog == old(eventLog)
    {
      var owner := Sole(CustomerMatches(accounts, info.customer));
      if owner.None? { return Rejected(Error(None, DuplicateOrMissingAccount)); }
      var found := FindTxn(State(), info.id, owner.value);
      if found.None? { return Rejected(Error(None, TransactionMissing)); }
      if !info.isApplication {
        if !RecipientExists(State(), info.destination) { return Rejected(Error(None, RecipientMissing)); }
        var id := found.value;
        txns := txns[id := txns[id].(status := Uncaptured, amount := info.amountCapturable)];
      }
      o := Done;
    }

    /** The failure and cancellation handlers differ only in where the
        description comes from. */
    method MarkFailed(info: PaymentIntent, directDescription: string) returns (o: HandlerOutcome)
      modifies this
      ensures var t := old(State());
              match Sole(CustomerMatches(t.accounts, info.customer))
              case None => State() == t && o == Rejected(Error(Some(418), DuplicateOrMissingAccount))
              case Some(u) =>
                match FindTxn(t, info.id, u)
                case None => State() == t && o == Rejected(Error(Some(418), TransactionMissing))
                case Some(id) =>
                  if info.isApplication then
                    State() == t.(txns := t.txns[id := t.txns[id].(status := Failed, description := directDescription)])
                    && o == Done
                  else if !RecipientExists(t, info.destination) then
                    State() == t && o == Rejected(Error(Some(418), RecipientMissing))
                  else
                    var d := FailureDescription(info.lastErrorMessage);
                    State() == t.(invoices := t.invoices - {id}, txns := t.txns[id := t.txns[id].(status := Failed, description := d)])
                    && o == Done
      ensures eventLog == old(eventLog)
    {
      var owner := Sole(CustomerMatches(accounts, info.customer));
      if owner.None? { return Rejected(Error(Some(RetryWebhookStatusCode), DuplicateOrMissingAccount)); }
      var found := FindTxn(State(), info.id, owner.value);
      if found.None? { return Rejected(Error(Some(RetryWebhookStatusCode), TransactionMissing)); }
      var id := found.value;
      if info.isApplication {
        txns := txns[id := txns[id].(status := Failed, description := directDescription)];
      } else {
        if !RecipientExists(State(), info.destination) { return Rejected(Error(Some(RetryWebhookStatusCode), RecipientMissing)); }
        invoices := invoices - {id};
        txns := txns[id := txns[id].(status := Failed, description := FailureDescription(info.lastErrorMessage))];
      }
      o := Done;
    }

    method HandleFailedPayment(info: PaymentIntent) returns (o: HandlerOutcome)
      modifies this
      ensures (State(), o) == Reconciler.HandleFailedPayment(old(State()), info)
      ensures eventLog == old(eventLog)
    {
      o := MarkFailed(info, FailureDescription(info.lastErrorMessage));
    }

    method HandleCancelledPayment(info: PaymentIntent) returns (o: HandlerOutcome)
      modifies this
      ensures (State(), o) == Reconciler.HandleCancelledPayment(old(State()), info)
      ensures eventLog == old(eventLog)
    {
      o := MarkFailed(info, FailureDescription(None));
    }

    // ------------------------------------------------------ payment methods

    method SetupPaymentMethod(m: PaymentMethodObject, newId: MethodId) returns (o: HandlerOutcome)
      modifies this
      ensures (State(), o) == Reconciler.SetupPaymentMethod(old(State()), m, newId)
      ensures eventLog == old(eventLog)
    {
      var owner := Sole(CustomerMatches(accounts, m.customer));
      if owner.None? { return Rejected(Error(None, DuplicateOrMissingAccount)); }
      var u := owner.value;
      var i := FirstIndex(methods, (x: PaymentMethod) => x.user == u && x.fingerprint == m.fingerprint);
      if i.Some? {
        methods := methods[i.value := methods[i.value].(processorMethodId := m.id)];
      } else {
        methods := methods + [PaymentMethod(newId, u, m.fingerprint, m.id, false)];
      }
      o := Done;
    }

    method RemovePaymentMethod(m: PaymentMethodObject) returns (o: HandlerOutcome)
      modifies this
      ensures (State(), o) == Reconciler.RemovePaymentMethod(old(State()), m)
      ensures eventLog == old(eventLog)
    {
      var i := FirstIndex(methods, (x: PaymentMethod) => x.processorMethodId == m.id);
      if i.Some? {
        methods := methods[..i.value] + methods[i.value + 1..];
      }
      o := Done;
    }

    // --------------------------------------------------- connected accounts

    method ActivateAccount(a: ConnectAccount) returns (o: HandlerOutcome)
      modifies this
      ensures (State(), o) == Reconciler.ActivateAccount(old(State()), a)
      ensures eventLog == old(eventLog)
    {
      var owner := Sole(ConnectMatches(accounts, Some(a.id)));
      if owner.None? { return Rejected(Error(None, DuplicateOrMissingAccount)); }
      var u := owner.value;
      var ready := ReadyForPayouts(a);
      accounts := accounts[u := accounts[u].(isOnboarded := ready, payoutEnabled := ready)];
      o := Done;
    }

    /** `PayoutAccount.deleteMany` on the user: each stored destination is
        visited once and dropped when it is the user's. */
    method DeletePayoutAccountsOf(u: UserId)
      modifies this`payoutAccounts
      ensures payoutAccounts == map k | k in old(payoutAccounts) && k.0 != u :: old(payoutAccounts)[k]
    {
      ghost var original := payoutAccounts;
      var pending := payoutAccounts.Keys;
      while pending != {}
        invariant pending <= original.Keys
        invariant payoutAccounts == map k | k in original && (k.0 != u || k in pending) :: original[k]
        decreases |pending|
      {
        var k :| k in pending;
        if k.0 == u {
          payoutAccounts := payoutAccounts - {k};
        }
        pending := pending - {k};
        assert payoutAccounts == map j | j in original && (j.0 != u || j in pending) :: original[j];
      }
    }

    method DeauthorizeAccount(account: Option<ConnectId>) returns (o: HandlerOutcome)
      modifies this
      ensures (State(), o) == Reconciler.DeauthorizeAccount(old(State()), account)
      ensures eventLog == old(eventLog)
    {
      var owner := Sole(ConnectMatches(accounts, account));
      if owner.None? { return Rejected(Error(None, DuplicateOrMissingAccount)); }
      var u := owner.value;
      DeletePayoutAccountsOf(u);
      accounts := accounts[u := accounts[u].(connectId := None, isOnboarded := false)];
      o := Done;
    }

    method ConfigureExternalAccount(account: Option<ConnectId>, x: ExternalAccount) returns (o: HandlerOutcome)
      modifies this
      ensures (State(), o) == Reconciler.ConfigureExternalAccount(old(State()), account, x)
      ensures eventLog == old(eventLog)
    {
      var owner := Sole(ConnectMatches(accounts, account));
      if owner.None? { return Rejected(Error(None, DuplicateOrMissingAccount)); }
      payoutAccounts := payoutAccounts[(owner.value, x.id) := PayoutAccount(IsBank(x), InitiallyActive(x))];
      o := Done;
    }

    method UpdateExternalAccount(account: Option<ConnectId>, x: ExternalAccount) returns (o: HandlerOutcome)
      modifies this
      ensures (State(), o) == Reconciler.UpdateExternalAccount(old(State()), account, x)
      ensures eventLog == old(eventLog)
    {
      var owner := Sole(ConnectMatches(accounts, account));
      if owner.None? { return Rejected(Error(None, DuplicateOrMissingAccount)); }
      var k := (owner.value, x.id);
      if k in payoutAccounts {
        var active := payoutAccounts[k].active;
        if x.kind == "bank_account" {
          active := x.status == "new";
        }
        payoutAccounts := payoutAccounts[k := PayoutAccount(IsBank(x), active)];
      }
      o := Done;
    }

    method RemoveExternalAccount(account: Option<ConnectId>, x: ExternalAccount) returns (o: HandlerOutcome)
      modifies this
      ensures (State(), o) == Reconciler.RemoveExternalAccount(old(State()), account, x)
      ensures eventLog == old(eventLog)
    {
      var owner := Sole(ConnectMatches(accounts, account));
      if owner.None? { return Rejected(Error(None, DuplicateOrMissingAccount)); }
      payoutAccounts := payoutAccounts - {(owner.value, x.id)};
      o := Done;
    }

    // ------------------------------------------------------------ payouts

    method PayoutCreated(account: Option<ConnectId>, p: Payout) returns (o: HandlerOutcome)
      modifies this
      ensures (State(), o) == Reconciler.PayoutCreated(old(State()), account, p)
      ensures eventLog == old(eventLog)
    {
      var owner := PayoutOwner(State(), account, p);
      if owner.Err? { return Rejected(owner.error); }
      var u := owner.value;
      var wk := (u, p.currency);
      wallets := EnsureWallet(wallets, wk);
      var key := PayoutKey(u, p);
      payoutTxns := payoutTxns[key := PayoutTransaction(Pending, p.amount, p.description)];
      var w := wallets[wk];
      wallets := wallets[wk := w.(lastPayoutTransaction := Some(key), pendingPayout := w.pendingPayout + p.amount)];
      o := Done;
    }

    method PayoutSuccess(account: Option<ConnectId>, p: Payout, liveBalance: Option<seq<BalanceBucket>>) returns (o: HandlerOutcome)
      modifies this
      ensures (State(), o) == Reconciler.PayoutSuccess(old(State()), account, p, liveBalance)
      ensures eventLog == old(eventLog)
    {
      var owner := PayoutOwner(State(), account, p);
      if owner.Err? { return Rejected(owner.error); }
      var u := owner.value;
      var wk := (u, p.currency);
      wallets := EnsureWallet(wallets, wk);
      if liveBalance.None? { return Rejected(Error(None, ProcessorFailure)); }
      var key := PayoutKey(u, p);
      payoutTxns := payoutTxns[key := PayoutTransaction(Success, p.amount, p.description)];
      var available := AvailableIn(liveBalance.value, p.currency);
      var w := wallets[wk];
      wallets := wallets[wk := w.(lastPayoutTransaction := Some(key), pendingPayout := w.pendingPayout - p.amount,
                                  value := available)];
      o := Done;
    }

    method PayoutFailed(account: Option<ConnectId>, p: Payout) returns (o: HandlerOutcome)
      modifies this
      ensures (State(), o) == Reconciler.PayoutFailed(old(State()), account, p)
      ensures eventLog == old(eventLog)
    {
      var owner := PayoutOwner(State(), account, p);
      if owner.Err? { return Rejected(owner.error); }
      var u := owner.value;
      var wk := (u, p.currency);
      wallets := EnsureWallet(wallets, wk);
      var dk := (u, p.destination);
      payoutAccounts := payoutAccounts[dk := payoutAccounts[dk].(active := false)];
      var key := PayoutKey(u, p);
      var d := if p.failureMessage.Some? && p.failureMessage.value != "" then p.failureMessage.value else p.description;
      payoutTxns := payoutTxns[key := PayoutTransaction(Failed, p.amount, d)];
      var w := wallets[wk];
      wallets := wallets[wk := w.(lastPayoutTransaction := Some(key), pendingPayout := w.pendingPayout - p.amount)];
      o := Done;
    }

    // ------------------------------------------------------------ balances

    /** One wallet upsert per bucket, in order. */
    method UpsertBuckets(u: UserId, buckets: seq<BalanceBucket>, available: bool)
      modifies this`wallets
      ensures wallets == ApplyBuckets(old(wallets), u, buckets, available)
    {
      var i := 0;
      while i < |buckets|
        invariant 0 <= i <= |buckets|
        invariant ApplyBuckets(wallets, u, buckets[i..], available) == ApplyBuckets(old(wallets), u, buckets, available)
      {
        var b := buckets[i];
        var k := (u, b.currency);
        assert buckets[i..][1..] == buckets[i + 1..];
        wallets := wallets[k := Touch(EnsureWallet(wallets, k)[k], b.amount, available)];
        i := i + 1;
      }
    }

    method AvailableBalance(account: ConnectId, b: Balance) returns (o: HandlerOutcome)
      modifies this
      ensures (State(), o) == Reconciler.AvailableBalance(old(State()), account, b)
      ensures eventLog == old(eventLog)
    {
      var owner := Sole(ConnectMatches(accounts, Some(account)));
      if owner.None? { return Rejected(Error(Some(RetryWebhookStatusCode), DuplicateOrMissingAccount)); }
      UpsertBuckets(owner.value, b.available, true);
      UpsertBuckets(owner.value, b.pending, false);
      o := Done;
    }

    // ------------------------------------------------------------ dispatch

    method PurchaseIntent(e: Event, env: Collaborators) returns (o: HandlerOutcome)
      requires RouteOf(e.eventType) in {IntentSucceeded, IntentCapturable, IntentFailed, IntentCanceled}
      modifies this
      ensures (State(), o) == Handle(old(State()), e, env)
      ensures eventLog == old(eventLog)
    {
      if !e.payload.IntentObject? { return Rejected(Error(None, MalformedPayload)); }
      var info := e.payload.intent;
      if !info.gigPurchase { return Done; }
      match RouteOf(e.eventType)
      case IntentSucceeded => o := HandlePayment(info, env);
      case IntentCapturable => o := AuthorizedPayment(info);
      case IntentFailed => o := HandleFailedPayment(info);
      case IntentCanceled => o := HandleCancelledPayment(info);
    }

    /** `Webhook.handle`. */
    method Dispatch(e: Event, env: Collaborators) returns (o: HandlerOutcome)
      modifies this
      ensures (State(), o) == Handle(old(State()), e, env)
      ensures eventLog == old(eventLog)
    {
      var p := e.payload;
      match RouteOf(e.eventType)
      case SaveMethod =>
        if p.MethodObject? { o := SetupPaymentMethod(p.paymentMethod, env.newMethodId); }
        else { o := Rejected(Error(None, MalformedPayload)); }
      case DetachMethod =>
        if p.MethodObject? { o := RemovePaymentMethod(p.paymentMethod); }
        else { o := Rejected(Error(None, MalformedPayload)); }
      case BalanceRefresh =>
        if !p.BalanceObject? { o := Rejected(Error(None, MalformedPayload)); }
        else if e.account.Some? { o := AvailableBalance(e.account.value, p.balance); }
        else { o := Done; }
      case IntentSucceeded => o := PurchaseIntent(e, env);
      case IntentCapturable => o := PurchaseIntent(e, env);
      case IntentFailed => o := PurchaseIntent(e, env);
      case IntentCanceled => o := PurchaseIntent(e, env);
      case AccountUpdated =>
        if p.AccountObject? { o := ActivateAccount(p.account); }
        else { o := Rejected(Error(None, MalformedPayload)); }
      case DestinationCreated =>
        if p.ExternalAccountObject? { o := ConfigureExternalAccount(e.account, p.external); }
        else { o := Rejected(Error(None, MalformedPayload)); }
      case DestinationUpdated =>
        if p.ExternalAccountObject? { o := UpdateExternalAccount(e.account, p.external); }
        else { o := Rejected(Error(None, MalformedPayload)); }
      case DestinationDeleted =>
        if p.ExternalAccountObject? { o := RemoveExternalAccount(e.account, p.external); }
        else { o := Rejected(Error(None, MalformedPayload)); }
      case Deauthorized =>
        if p.DeauthorizationObject? { o := DeauthorizeAccount(p.deauthorized); }
        else { o := Rejected(Error(None, MalformedPayload)); }
      case PayoutFailure =>
        if p.PayoutObject? { o := PayoutFailed(e.account, p.payout); }
        else { o := Rejected(Error(None, MalformedPayload)); }
      case PayoutPaid =>
        if p.PayoutObject? { o := PayoutSuccess(e.account, p.payout, env.liveBalance); }
        else { o := Rejected(Error(None, MalformedPayload)); }
      case PayoutPending =>
        if p.PayoutObject? { o := PayoutCreated(e.account, p.payout); }
        else { o := Rejected(Error(None, MalformedPayload)); }
      case NoRoute => o := Rejected(Error(None, UnhandledEventType));
    }

    /** `handleEvent`: the log entry is upserted before the handler runs and
        removed again when the handler asks for redelivery. */
    method HandleEvent(e: Event, d: Deployment, env: Collaborators) returns (o: HandlerOutcome)
      modifies this
      ensures Delivery(State(), eventLog, o) == Gate.HandleEvent(old(State()), old(eventLog), e, d, env)
    {
      if e.eventType !in AcceptedEvents {
        return Rejected(Error(Some(AcknowledgeStatusCode), UnsupportedEventType));
      }
      if RefusesTestEvents(d) && !e.livemode && e.account.Some? {
        return Rejected(Error(Some(AcknowledgeStatusCode), CrossEnvironment));
      }
      eventLog := eventLog + {KeyOf(e)};
      o := Dispatch(e, env);
      if o.Rejected? && o.error.status == Some(RetryWebhookStatusCode) {
        eventLog := eventLog - {KeyOf(e)};
      }
    }

    // ------------------------------------------------------ caller operations

    method Authorize(r: JobRequest, tax: int, hold: Option<IntentId>, invoiceRendered: bool) returns (o: ChargeOutcome)
      modifies this
      ensures (State(), o) == Escrow.Authorize(old(State()), r, tax, hold, invoiceRendered)
      ensures eventLog == old(eventLog)
    {
      if r.amount == 0 || r.recipient == "" || r.description == "" || r.jobId == "" {
        return Refused(Error(None, MissingDetails), None);
      }
      var f := ComputeJobFees(r.amount, tax);
      var mi := FirstIndex(methods, (m: PaymentMethod) => m.user == r.sender && m.isDefault);
      if mi.None? { return Refused(Error(None, MethodMissing), None); }
      if !(r.sender in accounts && accounts[r.sender].customerId.Some?) {
        return Refused(Error(None, DuplicateOrMissingAccount), None);
      }
      if !(r.recipient in accounts && accounts[r.recipient].connectId.Some?) {
        return Refused(Error(None, RecipientMissing), None);
      }
      if hold.None? { return Refused(Error(None, ProcessorFailure), None); }
      // from here on a failure releases the hold
      if !invoiceRendered { return Refused(Error(None, RenderFailure), hold); }
      var id := |txns|;
      txns := txns + [PaymentTransaction(r.sender, r.recipient, Uncaptured, f.holdAmount, tax, f.deployeeRevenue,
                                         f.percentageFee, f.mobilizationFee, r.description, hold.value,
                                         methods[mi.value].fingerprint)];
      jobPayments := UpsertJobPayment(jobPayments, JobPayment(r.jobId, id, r.amount, tax, f.deployerFee,
                                                              f.applicationFee, r.description));
      invoices := invoices[id := Invoice(r.sender, InvoicePending, r.description, tax, r.amount - tax - f.deployerFee,
                                         f.deployerFee, f.holdAmount)];
      o := Recorded(id, f);
    }

    method PayForJob(r: JobRequest, methodId: MethodId, tax: int, charge: Option<IntentId>) returns (o: ChargeOutcome)
      modifies this
      ensures (State(), o) == Escrow.PayForJob(old(State()), r, methodId, tax, charge)
      ensures eventLog == old(eventLog)
    {
      if r.amount == 0 || r.description == "" || r.jobId == "" || methodId == "" {
        return Refused(Error(None, MissingDetails), None);
      }
      var f := ComputeJobFees(r.amount, tax);
      var mi := FirstIndex(methods, (m: PaymentMethod) => m.id == methodId);
      if mi.None? || methods[mi.value].user != r.sender { return Refused(Error(None, MethodMissing), None); }
      if !(r.sender in accounts && accounts[r.sender].customerId.Some?) {
        return Refused(Error(None, DuplicateOrMissingAccount), None);
      }
      if !(r.recipient in accounts && accounts[r.recipient].connectId.Some?) {
        return Refused(Error(None, RecipientMissing), None);
      }
      if charge.None? { return Refused(Error(None, ProcessorFailure), None); }
      var id := |txns|;
      txns := txns + [PaymentTransaction(r.sender, r.recipient, Pending, f.holdAmount, tax, f.deployeeRevenue,
                                         f.percentageFee, f.mobilizationFee, r.description, charge.value,
                                         methods[mi.value].fingerprint)];
      jobPayments := jobPayments + [JobPayment(r.jobId, id, r.amount, tax, f.deployerFee, f.applicationFee, r.description)];
      o := Recorded(id, f);
    }

    method Capture(r: CaptureRequest, newTax: int, captured: bool) returns (res: Result<CaptureFigures>)
      modifies this
      ensures (State(), res) == Escrow.Capture(old(State()), r, newTax, captured)
      ensures eventLog == old(eventLog)
    {
      if r.jobId == "" || r.txnId.None? { return Err(Error(None, MissingDetails)); }
      var id := r.txnId.value;
      if !OpenHoldOf(State(), id, r.sender) { return Err(Error(None, TransactionMissing)); }
      var txn := txns[id];
      var ji := FirstIndex(jobPayments, (x: JobPayment) => HoldPaymentOf(x, r.jobId, id));
      if ji.None? { return Err(Error(None, JobPaymentMissing)); }
      var jp := jobPayments[ji.value];
      var c := RecomputeAtCapture(txn.amount, txn.tax, jp.applicationFee, jp.deployerCharge, r.amount, newTax);
      if !captured { return Err(Error(None, ProcessorFailure)); }
      var description := txn.description;
      if r.cancelled {
        description := "CANCELLED - " + description;
      }
      txns := txns[id := txn.(amount := c.amount, description := description, tax := c.tax,
                              deployeeRevenue := c.deployeeRevenue, status := Pending)];
      res := Ok(c);
    }

    method Cancel(sender: UserId, txnId: Option<nat>, released: bool) returns (res: Result<nat>)
      modifies this
      ensures (State(), res) == Escrow.Cancel(old(State()), sender, txnId, released)
      ensures eventLog == old(eventLog)
    {
      if txnId.None? { return Err(Error(None, MissingDetails)); }
      var id := txnId.value;
      if !OpenHoldOf(State(), id, sender) { return Err(Error(None, TransactionMissing)); }
      if !released { return Err(Error(None, ProcessorFailure)); }
      txns := txns[id := txns[id].(status := Declined)];
      res := Ok(id);
    }

    method DeleteMethod(user: UserId, methodId: MethodId, detached: bool) returns (res: Result<MethodId>)
      modifies this
      ensures (State(), res) == Escrow.DeleteMethod(old(State()), user, methodId, detached)
      ensures eventLog == old(eventLog)
    {
      var i := FirstIndex(methods, (m: PaymentMethod) => m.id == methodId && m.user == user);
      if i.None? { return Err(Error(None, MethodMissing)); }
      var fp := methods[i.value].fingerprint;
      var holds := FirstIndex(txns, (x: PaymentTransaction) => x.fingerprint == fp && x.status == Uncaptured);
      if holds.Some? { return Err(Error(None, MethodInUse)); }
      if !detached { return Err(Error(None, ProcessorFailure)); }
      methods := methods[..i.value] + methods[i.value + 1..];
      res := Ok(methodId);
    }

    /** The default flag is set on the chosen method, then `updateMany`
        clears it on every other method of the user. */
    method SetDefault(user: UserId, methodId: MethodId, processorOk: bool) returns (res: Result<MethodId>)
      modifies this
      ensures (State(), res) == Escrow.SetDefault(old(State()), user, methodId, processorOk)
      ensures eventLog == old(eventLog)
    {
      if user !in accounts { return Err(Error(None, DuplicateOrMissingAccount)); }
      var found := FirstIndex(methods, (m: PaymentMethod) => m.id == methodId && m.user == user);
      if found.None? { return Err(Error(None, MethodMissing)); }
      if !processorOk { return Err(Error(None, ProcessorFailure)); }
      var i := found.value;
      ghost var before := methods;
      methods := methods[i := methods[i].(isDefault := true)];
      var k := 0;
      while k < |methods|
        invariant 0 <= k <= |methods| == |before|
        invariant forall j :: 0 <= j < k ==> methods[j] == MarkDefault(before, i, user, methodId)[j]
        invariant forall j :: k <= j < |before| && j != i ==> methods[j] == before[j]
        invariant k <= i ==> methods[i] == before[i].(isDefault := true)
        invariant State() == old(State()).(methods := methods) && eventLog == old(eventLog)
      {
        if methods[k].user == user && methods[k].id != methodId {
          methods := methods[k := methods[k].(isDefault := false)];
        }
        k := k + 1;
      }
      assert methods == MarkDefault(before, i, user, methodId);
      res := Ok(methodId);
    }

    /** `Payment.payout`: the wallet is upserted, the checks run in order, then
        the fee is charged and the rest paid out. */
    method Payout(r: PayoutRequest, walletActive: bool, liveBalance: Option<seq<BalanceBucket>>, processorOk: bool)
      returns (res: Result<PayoutSplit>)
      modifies this
      ensures (State(), res) == PayoutGuard.Payout(old(State()), r, walletActive, liveBalance, processorOk)
      ensures eventLog == old(eventLog)
    {
      if r.amount <= MinimumPayout { return Err(Error(None, BelowMinimum)); }
      var currency := CurrencyOf(r);
      var k := (r.user, currency);
      wallets := EnsureWallet(wallets, k);
      if !walletActive { return Err(Error(None, WalletInactive)); }
      var w := wallets[k];
      if w.value - w.pendingPayout < r.amount { return Err(Error(None, InsufficientFunds)); }
      if liveBalance.None? { return Err(Error(None, ProcessorFailure)); }
      var balanceAmount := SourceTypeIn(liveBalance.value, currency, r.isBank);
      if balanceAmount < r.amount { return Err(Error(None, InsufficientFunds)); }
      var fee := Ceil8(r.amount);
      if !processorOk { return Err(Error(None, ProcessorFailure)); }
      res := Ok(PayoutSplit(fee, r.amount - fee));
    }
  }
}
