/** What the webhook handlers guarantee: rejections change nothing, the
    exactly-one-account rule, each handler's effect on the ledger, the
    payout bookkeeping and the balance snapshot's last-write-wins rule. */
module ReconcilerProperties {
  import opened Common
  import opened Status
  import opened LedgerState
  import opened Reconciler

  // -------------------------------------------------------- every handler

  /** A rejected notification leaves every table as it was: each handler
      checks before it writes, or writes inside a transaction that aborts.
      The one exception is a paid payout whose balance cannot be retrieved:
      the wallet's get-or-create ran before the transaction, so that wallet
      (and nothing else) stays created. */
  lemma RejectionKeepsTables(t: Tables, e: Event, env: Collaborators)
    ensures var (t', outcome) := Handle(t, e, env);
            outcome.Rejected? ==>
              t' == t
              || (&& RouteOf(e.eventType) == PayoutPaid && e.payload.PayoutObject? && env.liveBalance.None?
                  && PayoutOwner(t, e.account, e.payload.payout).Ok?
                  && t' == t.(wallets := EnsureWallet(t.wallets, (PayoutOwner(t, e.account, e.payload.payout).value,
                                                                 e.payload.payout.currency))))
    ensures Handle(t, e, env).1.Rejected? && env.liveBalance.Some? ==> Handle(t, e, env).0 == t
  {
    RouteRejectionKeepsTables(t, e, env, RouteOf(e.eventType));
  }

  lemma RouteRejectionKeepsTables(t: Tables, e: Event, env: Collaborators, r: Route)
    ensures var (t', outcome) := HandleRoute(t, e, env, r);
            outcome.Rejected? ==>
              t' == t
              || (&& r == PayoutPaid && e.payload.PayoutObject? && env.liveBalance.None?
                  && PayoutOwner(t, e.account, e.payload.payout).Ok?
                  && t' == t.(wallets := EnsureWallet(t.wallets, (PayoutOwner(t, e.account, e.payload.payout).value,
                                                                 e.payload.payout.currency))))
    ensures HandleRoute(t, e, env, r).1.Rejected? && env.liveBalance.Some? ==> HandleRoute(t, e, env, r).0 == t
  {
    match r
    case PayoutPaid =>
    case _ =>
  }

  /** Two account tables that agree on who exists and on every processor
      identity. */
  predicate SameIdentities(a: map<UserId, PaymentAccount>, a': map<UserId, PaymentAccount>)
  {
    a'.Keys == a.Keys
    && forall u :: u in a ==> a'[u].customerId == a[u].customerId && a'[u].connectId == a[u].connectId
  }

  lemma {:induction false} SameIdentitiesSameMatches(a: map<UserId, PaymentAccount>, a': map<UserId, PaymentAccount>)
    requires SameIdentities(a, a')
    ensures forall c :: CustomerMatches(a', c) == CustomerMatches(a, c)
    ensures forall x :: ConnectMatches(a', x) == ConnectMatches(a, x)
  {
    forall c ensures CustomerMatches(a', c) == CustomerMatches(a, c) {
      assert forall u :: u in CustomerMatches(a', c) <==> u in CustomerMatches(a, c);
    }
    forall x ensures ConnectMatches(a', x) == ConnectMatches(a, x) {
      assert forall u :: u in ConnectMatches(a', x) <==> u in ConnectMatches(a, x);
    }
  }

  /** Only a deauthorization changes which account a processor identity
      resolves to: every other notification keeps each customer match and
      each connected-account match, so the exactly-one-account rule sees the
      same accounts before and after it. */
  lemma IdentitiesChangeOnlyOnDeauthorization(t: Tables, e: Event, env: Collaborators)
    requires !RouteOf(e.eventType).Deauthorized?
    ensures forall c :: CustomerMatches(Handle(t, e, env).0.accounts, c) == CustomerMatches(t.accounts, c)
    ensures forall x :: ConnectMatches(Handle(t, e, env).0.accounts, x) == ConnectMatches(t.accounts, x)
  {
    var r := RouteOf(e.eventType);
    if r.AccountUpdated? {
      if e.payload.AccountObject? { var _ := ActivateAccount(t, e.payload.account); }
    } else if r.IntentSucceeded? || r.IntentCapturable? || r.IntentFailed? || r.IntentCanceled? {
      IntentRoutesKeepAccounts(t, e, env, r);
    } else {
      LedgerRoutesKeepAccounts(t, e, env, r);
    }
    SameIdentitiesSameMatches(t.accounts, HandleRoute(t, e, env, r).0.accounts);
  }

  lemma IntentRoutesKeepAccounts(t: Tables, e: Event, env: Collaborators, r: Route)
    requires r.IntentSucceeded? || r.IntentCapturable? || r.IntentFailed? || r.IntentCanceled?
    ensures HandleRoute(t, e, env, r).0.accounts == t.accounts
  {
    var p := e.payload;
    match r
    case IntentSucceeded => if p.IntentObject? && p.intent.gigPurchase { var _ := HandlePayment(t, p.intent, env); }
    case IntentCapturable => if p.IntentObject? && p.intent.gigPurchase { var _ := AuthorizedPayment(t, p.intent); }
    case IntentFailed => if p.IntentObject? && p.intent.gigPurchase { var _ := HandleFailedPayment(t, p.intent); }
    case IntentCanceled => if p.IntentObject? && p.intent.gigPurchase { var _ := HandleCancelledPayment(t, p.intent); }
  }

  lemma LedgerRoutesKeepAccounts(t: Tables, e: Event, env: Collaborators, r: Route)
    requires !r.IntentSucceeded? && !r.IntentCapturable? && !r.IntentFailed? && !r.IntentCanceled?
    requires !r.AccountUpdated? && !r.Deauthorized?
    ensures HandleRoute(t, e, env, r).0.accounts == t.accounts
  {
    var p := e.payload;
    match r
    case SaveMethod => if p.MethodObject? { var _ := SetupPaymentMethod(t, p.paymentMethod, env.newMethodId); }
    case DetachMethod => if p.MethodObject? { var _ := RemovePaymentMethod(t, p.paymentMethod); }
    case BalanceRefresh => if p.BalanceObject? && e.account.Some? { var _ := AvailableBalance(t, e.account.value, p.balance); }
    case DestinationCreated => if p.ExternalAccountObject? { var _ := ConfigureExternalAccount(t, e.account, p.external); }
    case DestinationUpdated => if p.ExternalAccountObject? { var _ := UpdateExternalAccount(t, e.account, p.external); }
    case DestinationDeleted => if p.ExternalAccountObject? { var _ := RemoveExternalAccount(t, e.account, p.external); }
    case PayoutFailure => if p.PayoutObject? { var _ := PayoutFailed(t, e.account, p.payout); }
    case PayoutPaid => if p.PayoutObject? { var _ := PayoutSuccess(t, e.account, p.payout, env.liveBalance); }
    case PayoutPending => if p.PayoutObject? { var _ := PayoutCreated(t, e.account, p.payout); }
    case NoRoute =>
  }

  /** The dispatch as written differs from the corrected one only on failed
      intents and balance snapshots, and never in the tables: a failed
      purchase intent is always answered with a redelivery request (the
      undeclared name when the corrected handler succeeds), and a balance
      snapshot's rejection loses its status. */
  lemma HandleAsWrittenDiffers(t: Tables, e: Event, env: Collaborators)
    ensures var (t1, o1) := Handle(t, e, env);
            var (t2, o2) := HandleAsWritten(t, e, env);
            && t2 == t1
            && (RouteOf(e.eventType) == IntentFailed && e.payload.IntentObject? && e.payload.intent.gigPurchase ==>
                  o2.Rejected? && o2.error.status == Some(RetryWebhookStatusCode)
                  && (o1.Done? ==> o2.error.reason == UndeclaredName)
                  && (o1.Rejected? ==> o2 == o1))
            && (RouteOf(e.eventType) == BalanceRefresh ==>
                  (o2.Done? <==> o1.Done?) && (o2.Rejected? ==> o2.error.status.None?))
            && (RouteOf(e.eventType) != IntentFailed && RouteOf(e.eventType) != BalanceRefresh ==> o2 == o1)
  {
    var r := RouteOf(e.eventType);
    match r
    case IntentFailed =>
    case BalanceRefresh =>
    case _ =>
  }

  /** A handler keeps every transaction, and any status it changes it sets
      to one of the statuses the webhook writes. */
  predicate WebhookStatusStep(t: Tables, t': Tables)
  {
    |t'.txns| == |t.txns|
    && forall i :: 0 <= i < |t.txns| && t'.txns[i].status != t.txns[i].status ==> WebhookWritten(t'.txns[i].status)
  }

  /** The status machine's webhook side: no notification removes or adds a
      transaction, and each moves transactions only into `SUCCESS`, `FAILED`
      or `UNCAPTURED`. */
  lemma HandleWritesWebhookStatuses(t: Tables, e: Event, env: Collaborators)
    ensures WebhookStatusStep(t, Handle(t, e, env).0)
  {
    var p := e.payload;
    var r := RouteOf(e.eventType);
    match r
    case IntentSucceeded => if p.IntentObject? { SettlementStatusWrites(t, p.intent, env); }
    case IntentCapturable => if p.IntentObject? { HoldStatusWrites(t, p.intent); }
    case IntentFailed => if p.IntentObject? { FailureStatusWrites(t, p.intent); }
    case IntentCanceled => if p.IntentObject? { CancellationStatusWrites(t, p.intent); }
    case _ => OtherRoutesKeepTxns(t, e, env, r);
  }

  /** Only the intent handlers ever touch a payment transaction. */
  lemma OtherRoutesKeepTxns(t: Tables, e: Event, env: Collaborators, r: Route)
    requires !r.IntentSucceeded? && !r.IntentCapturable? && !r.IntentFailed? && !r.IntentCanceled?
    ensures HandleRoute(t, e, env, r).0.txns == t.txns
  {
    var p := e.payload;
    match r
    case SaveMethod => if p.MethodObject? { var _ := SetupPaymentMethod(t, p.paymentMethod, env.newMethodId); }
    case DetachMethod => if p.MethodObject? { var _ := RemovePaymentMethod(t, p.paymentMethod); }
    case BalanceRefresh => if p.BalanceObject? && e.account.Some? { var _ := AvailableBalance(t, e.account.value, p.balance); }
    case AccountUpdated => if p.AccountObject? { var _ := ActivateAccount(t, p.account); }
    case Deauthorized => if p.DeauthorizationObject? { var _ := DeauthorizeAccount(t, p.deauthorized); }
    case DestinationCreated => if p.ExternalAccountObject? { var _ := ConfigureExternalAccount(t, e.account, p.external); }
    case DestinationUpdated => if p.ExternalAccountObject? { var _ := UpdateExternalAccount(t, e.account, p.external); }
    case DestinationDeleted => if p.ExternalAccountObject? { var _ := RemoveExternalAccount(t, e.account, p.external); }
    case PayoutFailure => if p.PayoutObject? { var _ := PayoutFailed(t, e.account, p.payout); }
    case PayoutPaid => if p.PayoutObject? { var _ := PayoutSuccess(t, e.account, p.payout, env.liveBalance); }
    case PayoutPending => if p.PayoutObject? { var _ := PayoutCreated(t, e.account, p.payout); }
    case NoRoute =>
  }

  /** One transaction rewritten, into a status the webhook writes. */
  lemma OneStatusWrite(t: Tables, t': Tables, id: nat)
    requires |t'.txns| == |t.txns| && id < |t.txns|
    requires forall i :: 0 <= i < |t.txns| && i != id ==> t'.txns[i] == t.txns[i]
    requires WebhookWritten(t'.txns[id].status)
    ensures WebhookStatusStep(t, t')
  {
  }

  lemma SettlementStatusWrites(t: Tables, info: PaymentIntent, env: Collaborators)
    ensures WebhookStatusStep(t, HandlePayment(t, info, env).0)
  {
    match Sole(CustomerMatches(t.accounts, info.customer))
    case None =>
    case Some(u) =>
      match FindTxn(t, info.id, u)
      case None =>
      case Some(id) =>
        HandlePaymentSettles(t, info, env, u, id);
        if HandlePayment(t, info, env).1.Done? && info.status == "succeeded" {
          OneStatusWrite(t, HandlePayment(t, info, env).0, id);
        }
  }

  lemma HoldStatusWrites(t: Tables, info: PaymentIntent)
    ensures WebhookStatusStep(t, AuthorizedPayment(t, info).0)
  {
    match Sole(CustomerMatches(t.accounts, info.customer))
    case None =>
    case Some(u) =>
      match FindTxn(t, info.id, u)
      case None =>
      case Some(id) =>
        AuthorizedPaymentMarksHold(t, info, u, id);
        if AuthorizedPayment(t, info).1.Done? && !info.isApplication {
          OneStatusWrite(t, AuthorizedPayment(t, info).0, id);
        }
  }

  lemma FailureStatusWrites(t: Tables, info: PaymentIntent)
    ensures WebhookStatusStep(t, HandleFailedPayment(t, info).0)
  {
    match Sole(CustomerMatches(t.accounts, info.customer))
    case None =>
    case Some(u) =>
      match FindTxn(t, info.id, u)
      case None =>
      case Some(id) =>
        FailedPaymentMarksFailed(t, info, u, id);
        if HandleFailedPayment(t, info).1.Done? {
          OneStatusWrite(t, HandleFailedPayment(t, info).0, id);
        }
  }

  lemma CancellationStatusWrites(t: Tables, info: PaymentIntent)
    ensures WebhookStatusStep(t, HandleCancelledPayment(t, info).0)
  {
    match Sole(CustomerMatches(t.accounts, info.customer))
    case None =>
    case Some(u) =>
      match FindTxn(t, info.id, u)
      case None =>
      case Some(id) =>
        var t' := HandleCancelledPayment(t, info).0;
        if HandleCancelledPayment(t, info).1.Done? {
          assert t'.txns == t.txns[id := t'.txns[id]];
          OneStatusWrite(t, t', id);
        }
  }

  /** A balance snapshot that belongs to no connected account is
      acknowledged and ignored. */
  lemma BalanceNeedsAccount(t: Tables, e: Event, env: Collaborators)
    requires RouteOf(e.eventType) == BalanceRefresh && e.payload.BalanceObject? && e.account.None?
    ensures Handle(t, e, env) == (t, Done)
  {
  }

  /** Intent notifications for anything but this platform's purchases are
      acknowledged and ignored. */
  lemma OtherIntentsIgnored(t: Tables, e: Event, env: Collaborators)
    requires RouteOf(e.eventType) in {IntentSucceeded, IntentCapturable, IntentFailed, IntentCanceled}
    requires e.payload.IntentObject? && !e.payload.intent.gigPurchase
    ensures Handle(t, e, env) == (t, Done)
  {
  }

  /** Handlers that resolve the payer by customer identity reject unless
      exactly one account carries it: the settlement, failure and
      cancellation handlers for redelivery, the others with a plain error. */
  lemma CustomerHandlersNeedOneAccount(t: Tables, info: PaymentIntent, m: PaymentMethodObject, env: Collaborators)
    ensures |CustomerMatches(t.accounts, info.customer)| != 1 ==>
              && HandlePayment(t, info, env) == (t, Rejected(Error(Some(418), DuplicateOrMissingAccount)))
              && HandleFailedPayment(t, info) == (t, Rejected(Error(Some(418), DuplicateOrMissingAccount)))
              && HandleCancelledPayment(t, info) == (t, Rejected(Error(Some(418), DuplicateOrMissingAccount)))
              && AuthorizedPayment(t, info) == (t, Rejected(Error(None, DuplicateOrMissingAccount)))
    ensures |CustomerMatches(t.accounts, m.customer)| != 1 ==>
              SetupPaymentMethod(t, m, env.newMethodId) == (t, Rejected(Error(None, DuplicateOrMissingAccount)))
  {
  }

  /** Handlers that resolve the payee by connected-account identity reject
      unless exactly one account carries it. */
  lemma ConnectHandlersNeedOneAccount(t: Tables, account: Option<ConnectId>, a: ConnectAccount,
                                      x: ExternalAccount, p: Payout, b: Balance, live: Option<seq<BalanceBucket>>)
    ensures |ConnectMatches(t.accounts, Some(a.id))| != 1 ==>
              ActivateAccount(t, a) == (t, Rejected(Error(None, DuplicateOrMissingAccount)))
    ensures |ConnectMatches(t.accounts, account)| != 1 ==>
              && DeauthorizeAccount(t, account) == (t, Rejected(Error(None, DuplicateOrMissingAccount)))
              && ConfigureExternalAccount(t, account, x) == (t, Rejected(Error(None, DuplicateOrMissingAccount)))
              && UpdateExternalAccount(t, account, x) == (t, Rejected(Error(None, DuplicateOrMissingAccount)))
              && RemoveExternalAccount(t, account, x) == (t, Rejected(Error(None, DuplicateOrMissingAccount)))
              && PayoutCreated(t, account, p) == (t, Rejected(Error(None, DuplicateOrMissingAccount)))
              && PayoutSuccess(t, account, p, live) == (t, Rejected(Error(None, DuplicateOrMissingAccount)))
              && PayoutFailed(t, account, p) == (t, Rejected(Error(None, DuplicateOrMissingAccount)))
    ensures account.Some? && |ConnectMatches(t.accounts, account)| != 1 ==>
              AvailableBalance(t, account.value, b) == (t, Rejected(Error(Some(418), DuplicateOrMissingAccount)))
  {
  }

  // -------------------------------------------------------- payment intents

  /** Settlement: once the payer's transaction for the intent is found, a
      succeeded intent settles it exactly when the payee exists, a job's
      escrow record exists and its invoice (if any) renders. The transaction
      becomes `SUCCESS` and its invoice complete, for the settled total,
      with the platform's fees taken out of the invoiced amount; nothing
      else changes. Any other intent status is ignored. */
  lemma HandlePaymentSettles(t: Tables, info: PaymentIntent, env: Collaborators, u: UserId, id: nat)
    requires Sole(CustomerMatches(t.accounts, info.customer)) == Some(u)
    requires FindTxn(t, info.id, u) == Some(id)
    ensures info.status != "succeeded" ==> HandlePayment(t, info, env) == (t, Done)
    ensures var (t', outcome) := HandlePayment(t, info, env);
            var job := FirstIndex(t.jobPayments, (x: JobPayment) => x.paymentId == id);
            && (outcome.Rejected? ==> outcome.error.status == Some(418) && t' == t)
            && (info.status == "succeeded" ==>
                  && (outcome.Done? <==>
                        RecipientExists(t, info.destination) && (info.isApplication || job.Some?)
                        && (id in t.invoices ==> env.invoiceRendered))
                  && (outcome.Done? ==>
                        && t'.txns == t.txns[id := t.txns[id].(status := Success)]
                        && t'.invoices.Keys == t.invoices.Keys
                        && (forall j :: j in t.invoices && j != id ==> t'.invoices[j] == t.invoices[j])
                        && (id in t.invoices ==>
                              var inv := t'.invoices[id];
                              var fees := if info.isApplication then 0 else t.jobPayments[job.value].deployerCharge;
                              && inv.jobStatus == InvoiceComplete
                              && inv.total == info.amount
                              && inv.amount + inv.tax + fees == info.amount
                              && inv.tax == t.txns[id].tax
                              && inv.description == t.txns[id].description
                              && inv == t.invoices[id].(amount := inv.amount, tax := inv.tax, total := inv.total,
                                                        jobStatus := inv.jobStatus, description := inv.description))
                        && t' == t.(txns := t'.txns, invoices := t'.invoices)))
  {
  }

  /** A capturable hold: a job transaction is (re)marked uncaptured with the
      amount that can be captured; a direct charge changes nothing. */
  lemma AuthorizedPaymentMarksHold(t: Tables, info: PaymentIntent, u: UserId, id: nat)
    requires Sole(CustomerMatches(t.accounts, info.customer)) == Some(u)
    requires FindTxn(t, info.id, u) == Some(id)
    ensures var (t', outcome) := AuthorizedPayment(t, info);
            && (outcome.Done? <==> info.isApplication || RecipientExists(t, info.destination))
            && (outcome.Rejected? ==> outcome.error == Error(None, RecipientMissing) && t' == t)
            && (outcome.Done? && !info.isApplication ==>
                  && t'.txns[id].status == Uncaptured && t'.txns[id].amount == info.amountCapturable
                  && t'.txns[id].intentId == info.id && t'.txns[id].sender == u
                  && t' == t.(txns := t'.txns) && |t'.txns| == |t.txns|
                  && (forall j :: 0 <= j < |t.txns| && j != id ==> t'.txns[j] == t.txns[j]))
            && (info.isApplication ==> t' == t)
  {
  }

  /** A failed intent marks its transaction `FAILED` with the processor's
      error message (or the default); a job transaction's invoice is
      removed. */
  lemma FailedPaymentMarksFailed(t: Tables, info: PaymentIntent, u: UserId, id: nat)
    requires Sole(CustomerMatches(t.accounts, info.customer)) == Some(u)
    requires FindTxn(t, info.id, u) == Some(id)
    ensures var (t', outcome) := HandleFailedPayment(t, info);
            && (outcome.Done? <==> info.isApplication || RecipientExists(t, info.destination))
            && (outcome.Done? ==>
                  && t'.txns == t.txns[id := t.txns[id].(status := Failed,
                                                          description := FailureDescription(info.lastErrorMessage))]
                  && t'.invoices == (if info.isApplication then t.invoices else t.invoices - {id})
                  && t' == t.(txns := t'.txns, invoices := t'.invoices))
            && (outcome.Rejected? ==> t' == t && outcome.error.status == Some(418))
  {
  }

  /** A cancelled intent is recorded as a failure too. For a direct charge
      the message is read from a nested path the processor never fills, so
      its description is always the default one, whatever the processor
      said; a job transaction keeps the processor's message. */
  lemma CancelledPaymentMarksFailed(t: Tables, info: PaymentIntent, u: UserId, id: nat)
    requires Sole(CustomerMatches(t.accounts, info.customer)) == Some(u)
    requires FindTxn(t, info.id, u) == Some(id)
    ensures var (t', outcome) := HandleCancelledPayment(t, info);
            && (outcome.Done? <==> info.isApplication || RecipientExists(t, info.destination))
            && (outcome.Done? ==> t'.txns[id].status == Failed && |t'.txns| == |t.txns|)
            && (outcome.Done? && info.isApplication ==>
                  t'.txns[id].description == "Payment Failed" && t'.invoices == t.invoices)
            && (outcome.Done? && !info.isApplication ==>
                  t'.txns[id].description == FailureDescription(info.lastErrorMessage) && id !in t'.invoices)
            && (outcome.Done? ==>
                  && t'.txns == t.txns[id := t.txns[id].(status := Failed, description := t'.txns[id].description)]
                  && t'.invoices == (if info.isApplication then t.invoices else t.invoices - {id})
                  && t' == t.(txns := t'.txns, invoices := t'.invoices))
            && (outcome.Rejected? ==> t' == t && outcome.error.status == Some(418))
  {
  }

  /** The failure handler as the source has it never acknowledges a failure
      it recorded: it asks for redelivery with the ledger already updated,
      where the handler the code evidently intends acknowledges it. */
  lemma FailedPaymentAsWrittenAlwaysRetries(t: Tables, info: PaymentIntent)
    ensures var (t1, o1) := HandleFailedPaymentAsWritten(t, info);
            var (t2, o2) := HandleFailedPayment(t, info);
            && t1 == t2
            && o1.Rejected? && o1.error.status == Some(RetryWebhookStatusCode)
            && (o2.Done? ==> o1.error.reason == UndeclaredName)
  {
  }

  /** The intended failure handler acknowledges every failure of a known
      transaction of a direct charge. */
  lemma FailedPaymentAcknowledged(t: Tables, info: PaymentIntent, u: UserId, id: nat)
    requires Sole(CustomerMatches(t.accounts, info.customer)) == Some(u)
    requires FindTxn(t, info.id, u) == Some(id)
    requires info.isApplication
    ensures HandleFailedPayment(t, info).1 == Done
    ensures HandleFailedPaymentAsWritten(t, info).1 == Rejected(Error(Some(418), UndeclaredName))
  {
  }

  // -------------------------------------------------------- payment methods

  /** Saving a method keeps one record per (user, card fingerprint): the
      first existing record takes the new processor id and nothing else
      changes, otherwise one is added. */
  lemma SetupPaymentMethodUpserts(t: Tables, m: PaymentMethodObject, newId: MethodId, u: UserId)
    requires Sole(CustomerMatches(t.accounts, m.customer)) == Some(u)
    ensures var (t', outcome) := SetupPaymentMethod(t, m, newId);
            var found := exists i :: 0 <= i < |t.methods| && t.methods[i].user == u && t.methods[i].fingerprint == m.fingerprint;
            && outcome == Done
            && (found ==> |t'.methods| == |t.methods|)
            && (forall i :: 0 <= i < |t.methods| && t.methods[i].user == u && t.methods[i].fingerprint == m.fingerprint
                            && (forall j :: 0 <= j < i ==> !(t.methods[j].user == u && t.methods[j].fingerprint == m.fingerprint))
                            ==> t'.methods == t.methods[i := t.methods[i].(processorMethodId := m.id)])
            && (!found ==> t'.methods == t.methods + [PaymentMethod(newId, u, m.fingerprint, m.id, false)])
            && (exists i :: 0 <= i < |t'.methods| && t'.methods[i].user == u && t'.methods[i].fingerprint == m.fingerprint
                             && t'.methods[i].processorMethodId == m.id)
            && t' == t.(methods := t'.methods)
  {
    var (t', _) := SetupPaymentMethod(t, m, newId);
    match FirstIndex(t.methods, (x: PaymentMethod) => x.user == u && x.fingerprint == m.fingerprint)
    case Some(i) =>
      assert t'.methods[i].processorMethodId == m.id;
    case None =>
      assert t'.methods[|t.methods|].processorMethodId == m.id;
  }

  /** Detaching removes exactly the first record with that processor id;
      an unknown id is acknowledged without change. */
  lemma RemovePaymentMethodRemovesFirst(t: Tables, m: PaymentMethodObject)
    ensures var (t', outcome) := RemovePaymentMethod(t, m);
            && outcome == Done
            && t' == t.(methods := t'.methods)
            && ((forall i :: 0 <= i < |t.methods| ==> t.methods[i].processorMethodId != m.id) ==> t' == t)
            && ((exists i :: 0 <= i < |t.methods| && t.methods[i].processorMethodId == m.id) ==>
                  |t'.methods| == |t.methods| - 1)
            && (forall i :: 0 <= i < |t.methods| && t.methods[i].processorMethodId == m.id
                            && (forall j :: 0 <= j < i ==> t.methods[j].processorMethodId != m.id)
                            ==> t'.methods == t.methods[..i] + t.methods[i + 1..])
  {
  }

  // --------------------------------------------------- connected accounts

  /** Onboarding status: the matched account is onboarded and payout-enabled
      exactly when the processor reports charges and payouts enabled and
      nothing currently due; no other account changes. */
  lemma ActivateAccountSetsReadiness(t: Tables, a: ConnectAccount, u: UserId)
    requires Sole(ConnectMatches(t.accounts, Some(a.id))) == Some(u)
    ensures var (t', outcome) := ActivateAccount(t, a);
            var ready := a.chargesEnabled && a.payoutsEnabled && (a.currentlyDue.None? || a.currentlyDue.value == []);
            && outcome == Done
            && t'.accounts.Keys == t.accounts.Keys
            && t'.accounts[u].isOnboarded == ready && t'.accounts[u].payoutEnabled == ready
            && t'.accounts[u].connectId == Some(a.id) && t'.accounts[u].customerId == t.accounts[u].customerId
            && (forall v :: v in t.accounts && v != u ==> t'.accounts[v] == t.accounts[v])
            && t' == t.(accounts := t'.accounts)
  {
  }

  /** Deauthorization: the user keeps no payout destination, the account
      loses its connected-account link and its onboarding; every other
      user's destinations are kept. */
  lemma DeauthorizeRemovesDestinations(t: Tables, account: Option<ConnectId>, u: UserId)
    requires Sole(ConnectMatches(t.accounts, account)) == Some(u)
    ensures var (t', outcome) := DeauthorizeAccount(t, account);
            && outcome == Done
            && (forall k :: k in t'.payoutAccounts ==> k.0 != u)
            && (forall k :: k in t.payoutAccounts && k.0 != u ==> k in t'.payoutAccounts && t'.payoutAccounts[k] == t.payoutAccounts[k])
            && (forall k :: k in t'.payoutAccounts ==> k in t.payoutAccounts)
            && t'.accounts == t.accounts[u := t.accounts[u].(connectId := None, isOnboarded := false)]
            && (account.Some? ==> |ConnectMatches(t'.accounts, account)| == 0)
            && ConnectMatches(t'.accounts, None) == ConnectMatches(t.accounts, None) + {u}
            && (forall c :: CustomerMatches(t'.accounts, c) == CustomerMatches(t.accounts, c))
            && t' == t.(payoutAccounts := t'.payoutAccounts, accounts := t'.accounts)
  {
    var (t', _) := DeauthorizeAccount(t, account);
    forall v | v in t'.accounts && v != u && account.Some?
      ensures t'.accounts[v].connectId != account
    {
      assert v !in ConnectMatches(t.accounts, account);
    }
    assert forall v :: v in ConnectMatches(t'.accounts, None) <==> v in ConnectMatches(t.accounts, None) + {u};
    forall c ensures CustomerMatches(t'.accounts, c) == CustomerMatches(t.accounts, c) {
      assert forall v :: v in CustomerMatches(t'.accounts, c) <==> v in CustomerMatches(t.accounts, c);
    }
  }

  /** A new destination: a bank account unless it is a card, and active
      unless it is a bank account in a status other than `new`. */
  lemma ConfigureExternalAccountRules(t: Tables, account: Option<ConnectId>, x: ExternalAccount, u: UserId)
    requires Sole(ConnectMatches(t.accounts, account)) == Some(u)
    ensures var (t', outcome) := ConfigureExternalAccount(t, account, x);
            && outcome == Done
            && (u, x.id) in t'.payoutAccounts
            && (t'.payoutAccounts[(u, x.id)].isBank <==> x.kind != "card")
            && (t'.payoutAccounts[(u, x.id)].active <==> x.kind != "bank_account" || x.status == "new")
            && t'.payoutAccounts.Keys == t.payoutAccounts.Keys + {(u, x.id)}
            && (forall j :: j in t.payoutAccounts && j != (u, x.id) ==> t'.payoutAccounts[j] == t.payoutAccounts[j])
            && t' == t.(payoutAccounts := t'.payoutAccounts)
  {
  }

  /** An update never creates a destination, and a card's update never
      changes whether it is active. */
  lemma UpdateExternalAccountRules(t: Tables, account: Option<ConnectId>, x: ExternalAccount, u: UserId)
    requires Sole(ConnectMatches(t.accounts, account)) == Some(u)
    ensures var (t', outcome) := UpdateExternalAccount(t, account, x);
            var k := (u, x.id);
            && outcome == Done
            && t'.payoutAccounts.Keys == t.payoutAccounts.Keys
            && (k in t.payoutAccounts ==>
                  && (t'.payoutAccounts[k].isBank <==> x.kind != "card")
                  && (x.kind != "bank_account" ==> t'.payoutAccounts[k].active == t.payoutAccounts[k].active)
                  && (x.kind == "bank_account" ==> (t'.payoutAccounts[k].active <==> x.status == "new")))
            && (forall j :: j in t.payoutAccounts && j != k ==> t'.payoutAccounts[j] == t.payoutAccounts[j])
            && t' == t.(payoutAccounts := t'.payoutAccounts)
  {
  }

  /** Adding a destination and then removing it leaves exactly the
      destinations there were, when it was not known before. */
  lemma ConfigureThenRemove(t: Tables, account: Option<ConnectId>, x: ExternalAccount, u: UserId)
    requires Sole(ConnectMatches(t.accounts, account)) == Some(u)
    requires (u, x.id) !in t.payoutAccounts
    ensures RemoveExternalAccount(ConfigureExternalAccount(t, account, x).0, account, x) == (t, Done)
  {
    var t1 := ConfigureExternalAccount(t, account, x).0;
    assert t1.accounts == t.accounts;
    assert t1.payoutAccounts - {(u, x.id)} == t.payoutAccounts;
  }

  /** A removal deletes the user's destination with that id, if there is
      one, and keeps every other destination as it was. */
  lemma RemoveExternalAccountDeletes(t: Tables, account: Option<ConnectId>, x: ExternalAccount, u: UserId)
    requires Sole(ConnectMatches(t.accounts, account)) == Some(u)
    ensures var (t', outcome) := RemoveExternalAccount(t, account, x);
            && outcome == Done
            && t'.payoutAccounts.Keys == t.payoutAccounts.Keys - {(u, x.id)}
            && (forall j :: j in t'.payoutAccounts ==> t'.payoutAccounts[j] == t.payoutAccounts[j])
            && ((u, x.id) !in t.payoutAccounts ==> t' == t)
            && t' == t.(payoutAccounts := t'.payoutAccounts)
  {
    var t' := RemoveExternalAccount(t, account, x).0;
    if (u, x.id) !in t.payoutAccounts {
      assert t'.payoutAccounts == t.payoutAccounts;
    }
  }

  // ------------------------------------------------------------ payouts

  /** The pending-payout bookkeeping of the payout handlers: a created (or
      updated) payout is recorded pending and its amount added to the pending
      payouts of the wallet in its currency, made if need be. */
  lemma PayoutCreatedBookkeeping(t: Tables, account: Option<ConnectId>, p: Payout, u: UserId)
    requires PayoutOwner(t, account, p) == Ok(u)
    ensures var (t', outcome) := PayoutCreated(t, account, p);
            var k := (u, p.currency);
            var before := EnsureWallet(t.wallets, k)[k];
            var key := (u, p.id, k);
            && outcome == Done && t'.wallets.Keys == t.wallets.Keys + {k}
            && t'.wallets[k] == before.(pendingPayout := before.pendingPayout + p.amount, lastPayoutTransaction := Some(key))
            && t'.payoutTxns == t.payoutTxns[key := PayoutTransaction(Pending, p.amount, p.description)]
            && (forall j :: j in t.wallets && j != k ==> t'.wallets[j] == t.wallets[j])
            && t' == t.(wallets := t'.wallets, payoutTxns := t'.payoutTxns)
  {
  }

  /** A paid payout leaves the pending payouts and the wallet value is
      refreshed from the processor's available balance in that currency. */
  lemma PayoutSuccessBookkeeping(t: Tables, account: Option<ConnectId>, p: Payout, live: seq<BalanceBucket>, u: UserId)
    requires PayoutOwner(t, account, p) == Ok(u)
    ensures var (t', outcome) := PayoutSuccess(t, account, p, Some(live));
            var k := (u, p.currency);
            var before := EnsureWallet(t.wallets, k)[k];
            var key := (u, p.id, k);
            && outcome == Done && t'.wallets.Keys == t.wallets.Keys + {k}
            && t'.wallets[k] == Wallet(SumAvailable(live, p.currency), before.pendingValue,
                                       before.pendingPayout - p.amount, Some(key))
            && t'.payoutTxns == t.payoutTxns[key := PayoutTransaction(Success, p.amount, p.description)]
            && (forall j :: j in t.wallets && j != k ==> t'.wallets[j] == t.wallets[j])
            && t' == t.(wallets := t'.wallets, payoutTxns := t'.payoutTxns)
  {
  }

  /** A paid payout whose balance cannot be retrieved is rejected without a
      status; the wallet's get-or-create has happened, nothing else has. */
  lemma PayoutSuccessBalanceUnavailable(t: Tables, account: Option<ConnectId>, p: Payout, u: UserId)
    requires PayoutOwner(t, account, p) == Ok(u)
    ensures PayoutSuccess(t, account, p, None)
            == (t.(wallets := EnsureWallet(t.wallets, (u, p.currency))), Rejected(Error(None, ProcessorFailure)))
  {
  }

  /** A failed (or cancelled) payout leaves the pending payouts, is recorded
      with the failure message when there is one, and deactivates its
      destination. */
  lemma PayoutFailedBookkeeping(t: Tables, account: Option<ConnectId>, p: Payout, u: UserId)
    requires PayoutOwner(t, account, p) == Ok(u)
    ensures var (t', outcome) := PayoutFailed(t, account, p);
            var k := (u, p.currency);
            var before := EnsureWallet(t.wallets, k)[k];
            var key := (u, p.id, k);
            var d := (u, p.destination);
            && outcome == Done && t'.wallets.Keys == t.wallets.Keys + {k}
            && t'.wallets[k] == before.(pendingPayout := before.pendingPayout - p.amount, lastPayoutTransaction := Some(key))
            && t'.payoutTxns == t.payoutTxns[key := PayoutTransaction(Failed, p.amount,
                                 if p.failureMessage.Some? && p.failureMessage.value != "" then p.failureMessage.value
                                 else p.description)]
            && (forall j :: j in t.wallets && j != k ==> t'.wallets[j] == t.wallets[j])
            && t'.payoutAccounts == t.payoutAccounts[d := t.payoutAccounts[d].(active := false)]
            && t' == t.(wallets := t'.wallets, payoutTxns := t'.payoutTxns, payoutAccounts := t'.payoutAccounts)
  {
  }

  /** A payout created and then failed leaves the wallet's pending payouts
      where they were (the failure also records the payout and deactivates
      its destination). */
  lemma {:induction false} PayoutCreatedThenFailedRestores(t: Tables, account: Option<ConnectId>, p: Payout, u: UserId)
    requires PayoutOwner(t, account, p) == Ok(u)
    ensures var t1 := PayoutCreated(t, account, p).0;
            var k := (u, p.currency);
            && PayoutOwner(t1, account, p) == Ok(u)
            && PayoutFailed(t1, account, p).1 == Done
            && PayoutFailed(t1, account, p).0.wallets[k].pendingPayout == EnsureWallet(t.wallets, k)[k].pendingPayout
            && PayoutFailed(t1, account, p).0.wallets[k].value == EnsureWallet(t.wallets, k)[k].value
  {
    var t1 := PayoutCreated(t, account, p).0;
    assert t1.accounts == t.accounts && t1.payoutAccounts == t.payoutAccounts;
    PayoutCreatedBookkeeping(t, account, p, u);
    PayoutFailedBookkeeping(t1, account, p, u);
  }

  /** A payout to a destination the ledger does not know is rejected without
      a status, before any wallet is created. */
  lemma PayoutUnknownDestination(t: Tables, account: Option<ConnectId>, p: Payout, u: UserId,
                                  live: Option<seq<BalanceBucket>>)
    requires Sole(ConnectMatches(t.accounts, account)) == Some(u)
    requires (u, p.destination) !in t.payoutAccounts
    ensures PayoutCreated(t, account, p) == (t, Rejected(Error(None, ExternalAccountUnknown)))
    ensures PayoutSuccess(t, account, p, live) == (t, Rejected(Error(None, ExternalAccountUnknown)))
    ensures PayoutFailed(t, account, p) == (t, Rejected(Error(None, ExternalAccountUnknown)))
  {
  }

  // ------------------------------------------------------------ balances

  /** The amount of the last bucket in `currency`, if any. */
  function LastAmount(buckets: seq<BalanceBucket>, currency: Currency): (r: Option<int>)
    ensures r.None? <==> forall i :: 0 <= i < |buckets| ==> buckets[i].currency != currency
    ensures r.Some? ==> exists i :: 0 <= i < |buckets| && buckets[i].currency == currency && buckets[i].amount == r.value
                                    && forall j :: i < j < |buckets| ==> buckets[j].currency != currency
  {
    if |buckets| == 0 then None
    else match LastAmount(buckets[1..], currency)
      case Some(a) =>
        ghost var i :| 0 <= i < |buckets[1..]| && buckets[1..][i].currency == currency && buckets[1..][i].amount == a
                       && forall j :: i < j < |buckets[1..]| ==> buckets[1..][j].currency != currency;
        assert buckets[i + 1] == buckets[1..][i];
        assert forall j :: i + 1 < j < |buckets| ==> buckets[j] == buckets[1..][j - 1];
        Some(a)
      case None =>
        assert forall i :: 1 <= i < |buckets| ==> buckets[i] == buckets[1..][i - 1];
        if buckets[0].currency == currency then Some(buckets[0].amount) else None
  }

  /** One pass of balance upserts over a user's wallet in `currency`: the last
      bucket in that currency wins; without one the wallet is untouched. */
  lemma {:induction false} ApplyBucketsAt(ws: map<WalletKey, Wallet>, u: UserId, buckets: seq<BalanceBucket>,
                                          available: bool, c: Currency)
    ensures var r := ApplyBuckets(ws, u, buckets, available);
            var k := (u, c);
            match LastAmount(buckets, c)
            case None => (k in r <==> k in ws) && (k in ws ==> r[k] == ws[k])
            case Some(a) => k in r && r[k] == Touch(EnsureWallet(ws, k)[k], a, available)
    decreases |buckets|
  {
    if |buckets| > 0 {
      var b := buckets[0];
      var bk := (u, b.currency);
      var ws' := ws[bk := Touch(EnsureWallet(ws, bk)[bk], b.amount, available)];
      ApplyBucketsAt(ws', u, buckets[1..], available, c);
    }
  }

  /** A balance pass never touches another user's wallets. */
  lemma {:induction false} ApplyBucketsOtherUsers(ws: map<WalletKey, Wallet>, u: UserId, buckets: seq<BalanceBucket>,
                                                  available: bool, k: WalletKey)
    requires k.0 != u
    ensures var r := ApplyBuckets(ws, u, buckets, available);
            (k in r <==> k in ws) && (k in ws ==> r[k] == ws[k])
    decreases |buckets|
  {
    if |buckets| > 0 {
      var b := buckets[0];
      var bk := (u, b.currency);
      ApplyBucketsOtherUsers(ws[bk := Touch(EnsureWallet(ws, bk)[bk], b.amount, available)], u, buckets[1..], available, k);
    }
  }

  /** The balance snapshot: each wallet of the user takes the last available
      amount of its currency as its value and the last pending amount as its
      pending value; what the snapshot does not mention, and every other
      user's wallet, is left alone. */
  lemma AvailableBalanceOverwrites(t: Tables, account: ConnectId, b: Balance, u: UserId, c: Currency)
    requires Sole(ConnectMatches(t.accounts, Some(account))) == Some(u)
    ensures var (t', outcome) := AvailableBalance(t, account, b);
            var k := (u, c);
            && outcome == Done
            && (LastAmount(b.available, c).Some? ==> k in t'.wallets && t'.wallets[k].value == LastAmount(b.available, c).value)
            && (LastAmount(b.pending, c).Some? ==> k in t'.wallets && t'.wallets[k].pendingValue == LastAmount(b.pending, c).value)
            && (LastAmount(b.available, c).None? && LastAmount(b.pending, c).None? ==>
                  (k in t'.wallets <==> k in t.wallets) && (k in t.wallets ==> t'.wallets[k] == t.wallets[k]))
            && (k in t.wallets ==> k in t'.wallets && t'.wallets[k].pendingPayout == t.wallets[k].pendingPayout)
            && (forall j :: j in t.wallets && j.0 != u ==> j in t'.wallets && t'.wallets[j] == t.wallets[j])
            && t' == t.(wallets := t'.wallets)
  {
    var w1 := ApplyBuckets(t.wallets, u, b.available, true);
    ApplyBucketsAt(t.wallets, u, b.available, true, c);
    ApplyBucketsAt(w1, u, b.pending, false, c);
    forall j | j in t.wallets && j.0 != u
      ensures j in ApplyBuckets(w1, u, b.pending, false) && ApplyBuckets(w1, u, b.pending, false)[j] == t.wallets[j]
    {
      ApplyBucketsOtherUsers(t.wallets, u, b.available, true, j);
      ApplyBucketsOtherUsers(w1, u, b.pending, false, j);
    }
  }

  /** The balance handler as the source has it loses the redelivery status
      of its rejection, which the intended handler carries. */
  lemma AvailableBalanceAsWrittenLosesStatus(t: Tables, account: ConnectId, b: Balance)
    requires |ConnectMatches(t.accounts, Some(account))| != 1
    ensures AvailableBalanceAsWritten(t, account, b) == (t, Rejected(Error(None, UndeclaredName)))
    ensures AvailableBalance(t, account, b) == (t, Rejected(Error(Some(RetryWebhookStatusCode), DuplicateOrMissingAccount)))
  {
  }
}
