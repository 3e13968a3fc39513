/** The webhook entry point: which events are processed at all, the event
    log kept around each delivery, and when a log entry is dropped so that a
    redelivered event is seen as new. */
module Gate {
  import opened Common
  import opened Status
  import opened LedgerState
  import opened Reconciler
  import ReconcilerProperties

  /** An event log entry is identified by the event's type and id. */
  type LogKey = (string, EventId)

  function KeyOf(e: Event): LogKey { (e.eventType, e.id) }

  /** The event types the application subscribes to. */
  const AcceptedEvents: seq<string> := [
    "payment_intent.succeeded",
    "payment_intent.amount_capturable_updated",
    "payment_intent.requires_action",
    "payment_intent.payment_failed",
    "payment_method.attached",
    "payment_method.detached",
    "payment_method.updated",
    "payment_method.automatically_updated",
    "account.updated",
    "account.external_account.created",
    "account.external_account.deleted",
    "account.external_account.updated",
    "account.application.deauthorized",
    "balance.available",
    "payout.paid",
    "payout.failed",
    "payout.canceled",
    "payout.created",
    "payout.updated",
    "charge.expired"
  ]

  /** Status of a rejection that the processor must treat as delivered. */
  const AcknowledgeStatusCode: int := 200

  /** The deployment settings the gate reads. */
  datatype Deployment = Deployment(nodeEnv: string, allowTestMode: string)

  /** Outside development, with test mode not allowed, test-mode events of
      connected accounts are refused. */
  predicate RefusesTestEvents(d: Deployment)
  {
    d.nodeEnv != "development" && d.allowTestMode == "no"
  }

  datatype Delivery = Delivery(tables: Tables, log: set<LogKey>, outcome: HandlerOutcome)

  predicate Admitted(e: Event, d: Deployment)
  {
    e.eventType in AcceptedEvents && !(RefusesTestEvents(d) && !e.livemode && e.account.Some?)
  }

  /** The gate around a handler's result `handled`: refuse unsupported and
      cross-environment events (with a status that stops redelivery) before
      anything is written; otherwise log the event, take the handler's
      effect, and drop the log entry again when the handler asks for
      redelivery. */
  function Deliver(t: Tables, log: set<LogKey>, e: Event, d: Deployment, handled: (Tables, HandlerOutcome)): (r: Delivery)
    ensures !Admitted(e, d) ==> r.tables == t && r.log == log
    ensures Admitted(e, d) ==> (r.tables, r.outcome) == handled
    ensures forall k :: k != KeyOf(e) ==> (k in r.log <==> k in log)
  {
    if e.eventType !in AcceptedEvents then
      Delivery(t, log, Rejected(Error(Some(AcknowledgeStatusCode), UnsupportedEventType)))
    else if RefusesTestEvents(d) && !e.livemode && e.account.Some? then
      Delivery(t, log, Rejected(Error(Some(AcknowledgeStatusCode), CrossEnvironment)))
    else
      var logged := log + {KeyOf(e)};
      var (t', outcome) := handled;
      if outcome.Rejected? && outcome.error.status == Some(RetryWebhookStatusCode) then
        Delivery(t', logged - {KeyOf(e)}, outcome)
      else Delivery(t', logged, outcome)
  }

  /** `handleEvent` over the corrected dispatch. A log entry from an earlier
      delivery is looked up but does not change what happens. */
  function HandleEvent(t: Tables, log: set<LogKey>, e: Event, d: Deployment, env: Collaborators): (r: Delivery)
    ensures !Admitted(e, d) ==> r.tables == t && r.log == log && r.outcome.Rejected?
                                && r.outcome.error.status == Some(AcknowledgeStatusCode)
    ensures Admitted(e, d) ==> (r.tables, r.outcome) == Handle(t, e, env)
  {
    Deliver(t, log, e, d, Handle(t, e, env))
  }

  /** `handleEvent` over the dispatch as written. */
  function HandleEventAsWritten(t: Tables, log: set<LogKey>, e: Event, d: Deployment, env: Collaborators): (r: Delivery)
    ensures r.tables == HandleEvent(t, log, e, d, env).tables
    ensures Admitted(e, d) ==> (r.tables, r.outcome) == HandleAsWritten(t, e, env)
  {
    Deliver(t, log, e, d, HandleAsWritten(t, e, env))
  }

  /** The gate in full: a refused event changes neither the ledger nor the
      log; an admitted one has exactly its handler's effect, and its log
      entry survives exactly when the handler did not ask for redelivery.
      No other entry of the log changes. */
  lemma GateOutcome(t: Tables, log: set<LogKey>, e: Event, d: Deployment, env: Collaborators)
    ensures var r := HandleEvent(t, log, e, d, env);
            && (!Admitted(e, d) ==> r.tables == t && r.log == log && r.outcome.Rejected?
                                    && r.outcome.error.status == Some(AcknowledgeStatusCode))
            && (Admitted(e, d) ==>
                  && (r.tables, r.outcome) == Handle(t, e, env)
                  && (KeyOf(e) in r.log <==> !(r.outcome.Rejected? && r.outcome.error.status == Some(418))))
            && (forall k :: k != KeyOf(e) ==> (k in r.log <==> k in log))
  {
  }

  /** Cancelled intents are not subscribed to: their handler is never
      reached, and the event is acknowledged without effect. */
  lemma CancelledIntentsDropped(t: Tables, log: set<LogKey>, e: Event, d: Deployment, env: Collaborators)
    requires e.eventType == "payment_intent.canceled"
    ensures HandleEvent(t, log, e, d, env) == Delivery(t, log, Rejected(Error(Some(200), UnsupportedEventType)))
  {
    assert forall i :: 0 <= i < |AcceptedEvents| ==> AcceptedEvents[i] != e.eventType;
  }

  /** Expired charges are subscribed to but have no handler: the delivery
      fails without a status, so the log entry stays and nothing changes. */
  lemma ExpiredChargesUnhandled(t: Tables, log: set<LogKey>, e: Event, d: Deployment, env: Collaborators)
    requires e.eventType == "charge.expired"
    requires !(RefusesTestEvents(d) && !e.livemode && e.account.Some?)
    ensures HandleEvent(t, log, e, d, env) == Delivery(t, log + {KeyOf(e)}, Rejected(Error(None, UnhandledEventType)))
  {
    assert AcceptedEvents[19] == e.eventType;
  }

  /** Whether the event was logged before does not change the delivery: the
      duplicate lookup has no effect. */
  lemma LogPresenceIrrelevant(t: Tables, log: set<LogKey>, e: Event, d: Deployment, env: Collaborators)
    ensures HandleEvent(t, log + {KeyOf(e)}, e, d, env).tables == HandleEvent(t, log - {KeyOf(e)}, e, d, env).tables
    ensures HandleEvent(t, log + {KeyOf(e)}, e, d, env).outcome == HandleEvent(t, log - {KeyOf(e)}, e, d, env).outcome
    ensures Admitted(e, d) ==>
              HandleEvent(t, log + {KeyOf(e)}, e, d, env).log == HandleEvent(t, log - {KeyOf(e)}, e, d, env).log
  {
    if Admitted(e, d) {
      assert (log + {KeyOf(e)}) + {KeyOf(e)} == (log - {KeyOf(e)}) + {KeyOf(e)};
    }
  }

  /** A redelivered payout notification is applied again: two deliveries of
      the same `payout.created` event add its amount to the pending payouts
      twice. */
  lemma {:induction false} PayoutCreatedRedeliveryCountsTwice(t: Tables, log: set<LogKey>, e: Event, d: Deployment,
                                                               env: Collaborators, u: UserId)
    requires e.eventType == "payout.created" && e.payload.PayoutObject?
    requires !(RefusesTestEvents(d) && !e.livemode && e.account.Some?)
    requires PayoutOwner(t, e.account, e.payload.payout) == Ok(u)
    ensures var p := e.payload.payout;
            var k := (u, p.currency);
            var r1 := HandleEvent(t, log, e, d, env);
            var r2 := HandleEvent(r1.tables, r1.log, e, d, env);
            && r1.outcome == Done && r2.outcome == Done
            && r2.tables.wallets[k].pendingPayout == EnsureWallet(t.wallets, k)[k].pendingPayout + 2 * p.amount
  {
    var p := e.payload.payout;
    assert AcceptedEvents[17] == e.eventType;
    var r1 := HandleEvent(t, log, e, d, env);
    assert (r1.tables, r1.outcome) == PayoutCreated(t, e.account, p);
    ReconcilerProperties.PayoutCreatedBookkeeping(t, e.account, p, u);
    var t1 := r1.tables;
    assert t1.accounts == t.accounts && t1.payoutAccounts == t.payoutAccounts;
    assert (HandleEvent(t1, r1.log, e, d, env).tables, HandleEvent(t1, r1.log, e, d, env).outcome) == PayoutCreated(t1, e.account, p);
    ReconcilerProperties.PayoutCreatedBookkeeping(t1, e.account, p, u);
  }

  /** As written, a failed purchase intent is never acknowledged: its writes
      are applied, the rejection asks for redelivery and the log entry is
      dropped on every delivery, while the corrected gate keeps the entry
      once the failure is recorded. */
  lemma FailedPaymentAsWrittenRedelivered(t: Tables, log: set<LogKey>, e: Event, d: Deployment, env: Collaborators)
    requires e.eventType == "payment_intent.payment_failed" && e.payload.IntentObject? && e.payload.intent.gigPurchase
    requires !(RefusesTestEvents(d) && !e.livemode && e.account.Some?)
    ensures var r := HandleEventAsWritten(t, log, e, d, env);
            var c := HandleEvent(t, log, e, d, env);
            && r.tables == c.tables
            && r.outcome.Rejected? && r.outcome.error.status == Some(RetryWebhookStatusCode)
            && KeyOf(e) !in r.log
            && (c.outcome.Done? ==> KeyOf(e) in c.log)
  {
    assert AcceptedEvents[3] == e.eventType;
    ReconcilerProperties.HandleAsWrittenDiffers(t, e, env);
  }
}
