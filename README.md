# Escrow payment ledger

This project models the ledger core of a marketplace's payment service. A
deployer (the payer) pays a deployee (the payee) for a job through a card
processor. The money is first held (authorized), then captured or
cancelled. The platform keeps fees from both sides. Payees withdraw their
wallet funds through payouts. Processor notifications (webhook events) keep
the local records in step with the processor.

The model covers:

- the fee arithmetic (`Fees`), in integer cents;
- the transaction status codes and their transitions (`Status`);
- the ledger tables and the exactly-one-account rule (`LedgerState`);
- the caller operations authorize, capture, cancel, pay-for-job, delete
  method, set default and transaction history (`Escrow`), with their
  properties (`EscrowProperties`);
- the payout guard (`PayoutGuard`);
- the per-event handlers and the dispatch on the event type (`Reconciler`),
  with their properties (`ReconcilerProperties`);
- the entry point that filters events and keeps the event log (`Gate`);
- the database itself as a mutable object (`Store.Ledger`). Each of its
  methods changes its tables step by step, as the source's queries do, and
  is proved to leave exactly the state the matching function describes.

Records live in tables. The transactions, job payments and payment methods
are sequences in insertion order, and a transaction's id is its index.
Every other table is a map keyed by the key its upserts use. Processor calls
appear only as their outcomes, passed in as parameters:

- the id of the hold or charge created, `None` when the call failed;
- flags for capture, release, detach and the processor accepting a default
  method or a payout;
- the processor's live balance.

A handler's rejection carries an optional HTTP status. Status 418 asks the
processor to redeliver the event. A plain thrown error has no status.

Two handlers cannot behave as their authors meant (see "## Findings"). The
dispatch `Reconciler.Handle`, the gate `Gate.HandleEvent` and the store's
`Store.Ledger.Dispatch` and `Store.Ledger.HandleEvent` use the corrected
handlers `Reconciler.HandleFailedPayment` and `Reconciler.AvailableBalance`.
`Reconciler.HandleAsWritten` and `Gate.HandleEventAsWritten` use the handlers
as written, and `ReconcilerProperties.HandleAsWrittenDiffers` states how the
two dispatches differ.

## Model

| member | source | states |
|---|---|---|
| Common.Sole | payment/stripe/webhook.js:185 | the only element exactly when the set has one, which is the set's single member; none otherwise |
| Status.Code | payment/stripe/payments.js:18-24 | each transaction status has its numeric code, between 0 and 4 |
| Status.FromCode | payment/stripe/payments.js:18-24 | exactly the codes 0..4 name a status |
| Status.CodeRoundTrip | payment/stripe/payments.js:18-24 | decoding a status's code gives the status back |
| Status.FromCodeRoundTrip | payment/stripe/payments.js:18-24 | every valid code decodes to a status whose code it is |
| Status.CodesDistinct | payment/stripe/payments.js:18-24 | no two statuses share a code |
| Fees.MobilizationFee | payment/stripe/stripe.js:102-110 | the flat fee is one of the two band values |
| Fees.Ceil8 | payment/stripe/stripe.js:656-663 | `Math.ceil(x * 0.125)`: the result r satisfies 8r-8 < x <= 8r |
| Fees.ComputeJobFees | payment/stripe/stripe.js:656-663 | each party's fee is the mobilization fee plus 12.5% rounded up; the application fee is both fees plus tax; the hold is amount + payer fee + tax; the payee revenue is amount - payee fee; hold = application fee + revenue |
| Fees.RecomputeAtCapture | payment/stripe/stripe.js:831-847 | an absent amount, or one equal to the held total, keeps the held figures; another amount takes the new tax, moves only the tax part of the application fee, and charges amount + payer fee + new tax; revenue is always amount - application fee |
| Fees.SplitPayout | payment/stripe/payments.js:319-333 | the payout fee is 12.5% rounded up, and fee + sent = amount |
| Fees.MobilizationFeeBands | payment/stripe/stripe.js:102-110 | below 5000 cents the fee is 250, otherwise 450, both as iff |
| Fees.MobilizationFeeMonotone | payment/stripe/stripe.js:102-110 | the mobilization fee never decreases with the amount |
| Fees.Ceil8IsLeast | payment/stripe/stripe.js:656-663 | Ceil8 is the least k with x <= 8k |
| Fees.Ceil8Monotone | payment/stripe/stripe.js:656-663 | the percentage fee is monotone in the amount |
| Fees.PercentageFeeBounds | payment/stripe/stripe.js:656-663 | for amounts above one cent the percentage fee is positive and below the amount |
| Fees.PayoutSplitPositive | payment/stripe/payments.js:275-277 | above the $10 minimum both the fee and the amount sent are positive and below the request |
| Fees.CaptureUnchangedKeepsRevenue | payment/stripe/stripe.js:831-847 | capturing after authorization without a new amount keeps the hold, the payee's revenue and the application fee |
| Fees.CaptureChangedAmount | payment/stripe/stripe.js:831-847 | a changed amount is charged as amount + payer fee + new tax; the payee gets amount - payee fee |
| Fees.CaptureComparesWithTotal | payment/stripe/stripe.js:831-847 | for every job, requesting a base amount equal to the held total keeps the held figures, while one cent less is charged that amount plus the payer fee and the new tax (a $10 job holds 1375) |
| Fees.HundredDollarJob | payment/stripe/stripe.js:656-663 | a $100 job: $4.50 band, $12.50 percentage, $17 per party, revenue $83 |
| LedgerState.FindTxn | payment/stripe/webhook.js:190-194 | finds a transaction with that intent and sender, or reports that none exists |
| LedgerState.EnsureWallet | payment/stripe/payments.js:279-290 | the wallet get-or-create adds the key with a new wallet and keeps every existing wallet |
| LedgerState.SumAvailableOtherCurrencies | payment/stripe/webhook.js:807-815 | buckets in other currencies add nothing to the balance in that currency |
| LedgerState.SumAvailableAppend | payment/stripe/webhook.js:807-815 | the balance fold distributes over concatenation |
| Escrow.UpsertJobPayment | payment/stripe/stripe.js:725-738 | a job without a record gets the record appended; otherwise exactly the job's first record is replaced and everything else is kept |
| Escrow.VisibleBelow | payment/stripe/stripe.js:306-327 | exactly the visible transactions, newest first |
| Escrow.Window | payment/stripe/stripe.js:322-328 | at most `limit` consecutive rows from `skip`, a full page when enough rows exist |
| Escrow.WithJobPayment | payment/stripe/stripe.js:330-360 | exactly the listed ids that have a job payment |
| Escrow.WithJobPaymentNewestFirst | payment/stripe/stripe.js:330-360 | dropping rows without a job payment keeps a newest-first page newest first |
| Escrow.HistoryGuard | payment/stripe/stripe.js:294-302 | a request passes exactly when the caller is no contractor and page and limit are both at least 1 |
| Escrow.History | payment/stripe/stripe.js:289-367 | rejects exactly what the guard rejects; a page holds at most `limit` rows, all visible to the caller, newest first |
| Escrow.HistoryAsWritten | payment/stripe/stripe.js:289-367 | as written: rejects exactly what the guard rejects; a page holds at most `limit` rows, newest first (its skip is stated by EscrowProperties.HistoryAsWrittenSkipsRows) |
| Escrow.Authorize | payment/stripe/stripe.js:632-799 | a refusal writes nothing and releases only the hold it was given; a recording needs the hold and the rendered invoice and appends one transaction (in full: EscrowProperties.AuthorizeOutcome, AuthorizeRecordsHold) |
| Escrow.PayForJob | payment/stripe/stripe.js:489-589 | a refusal writes nothing and releases no hold; a recording needs the charge and appends one transaction and one job payment (in full: EscrowProperties.PayForJobRecords) |
| Escrow.Capture | payment/stripe/stripe.js:801-868 | a refusal writes nothing; a capture needs the processor's capture and an open hold of the sender, which becomes PENDING (in full, with the recomputed figures: EscrowProperties.CaptureTransition) |
| Escrow.Cancel | payment/stripe/stripe.js:591-630 | a refusal writes nothing; a cancellation needs the release and an open hold of the sender, which becomes DECLINED (in full: EscrowProperties.CancelTransition) |
| Escrow.DeleteMethod | payment/stripe/stripe.js:410-434 | a refusal writes nothing; a deletion needs the detach and removes one method (in full: EscrowProperties.DeleteMethodGuard) |
| Escrow.SetDefault | payment/stripe/stripe.js:911-944 | a refusal writes nothing; success needs the user's account and the processor's acceptance and keeps the method count (in full: EscrowProperties.SetDefaultExclusive) |
| Escrow.MarkDefault | payment/stripe/stripe.js:927-930 | the chosen method becomes the default; each other method of the user with another id stops being one; no other field and no other record changes |
| Escrow.WithJobPaymentShorter | payment/stripe/stripe.js:330-360 | keeping only job-payment rows never lengthens the page |
| EscrowProperties.AuthorizeOutcome | payment/stripe/stripe.js:632-799 | recorded iff the request is complete, both accounts and a default method exist, the hold was placed and the invoice rendered; a refusal writes nothing and releases exactly the hold that was placed |
| EscrowProperties.AuthorizeRecordsHold | payment/stripe/stripe.js:697-761 | one new UNCAPTURED transaction holding amount + payer fee + tax with revenue amount - payee fee, the job payment table upserted on the job id, and a pending invoice; other tables unchanged |
| EscrowProperties.ReauthorizeOrphansEarlierHold | payment/stripe/stripe.js:725-738 | authorizing a job again points its first job payment at the new hold, so an earlier open hold of that job with no other record can no longer be captured (job payment missing) |
| EscrowProperties.PayForJobRecords | payment/stripe/stripe.js:489-589 | a one-shot payment appends one PENDING transaction and its job payment with the same fees; a refusal writes nothing |
| EscrowProperties.CaptureTransition | payment/stripe/stripe.js:801-868 | a capture succeeds iff a job is named, the transaction is an open hold of the sender that has a job payment of that job, and the processor captures; then the figures are RecomputeAtCapture of the hold's amount and tax and the first such job payment's fees, the transaction stores that amount, tax and revenue (amount - application fee), becomes PENDING and gets the cancellation prefix when asked; the other transactions and all other tables are unchanged; a refusal writes nothing |
| EscrowProperties.CancelTransition | payment/stripe/stripe.js:591-630 | succeeds iff the id names an open hold of the sender and the processor released it; only that transaction changes, to DECLINED |
| EscrowProperties.AuthorizeThenCaptureUnchanged | payment/stripe/stripe.js:632-868 | authorize then capture with no amount settles the hold in full with the authorized revenue and application fee |
| EscrowProperties.DeleteMethodGuard | payment/stripe/stripe.js:410-434 | a deleted method is the user's, is removed alone, and no UNCAPTURED transaction uses its fingerprint; a refusal writes nothing |
| EscrowProperties.SetDefaultExclusive | payment/stripe/stripe.js:911-944 | the chosen method becomes default, the user's other methods stop being default, other users' methods are untouched |
| EscrowProperties.HistoryAsWrittenSkipsRows | payment/stripe/stripe.js:326 | with a page size below 30, the row after the first page appears on no page |
| EscrowProperties.HistoryCoversEveryRow | payment/stripe/stripe.js:289-367 | with pages of `limit` rows, every visible row with a job payment is on page j / limit + 1 |
| PayoutGuard.CurrencyOf | payment/stripe/payments.js:271 | a request without a currency pays out in usd |
| PayoutGuard.Payout | payment/stripe/payments.js:271-334 | at most the minimum is refused before anything is written; the only possible write is the wallet get-or-create; a payout needs the live balance and the processor, and fee + sent = amount (in full: PayoutOutcome, PayoutCheckOrder) |
| PayoutGuard.PayoutOutcome | payment/stripe/payments.js:271-334 | a payout goes through iff it is above 1000 cents, the wallet is active, local funds cover it, the live balance was retrieved and covers it, and the processor accepts; then fee + sent = amount; the only possible write is the wallet get-or-create, not done below the minimum |
| PayoutGuard.PayoutCheckOrder | payment/stripe/payments.js:271-334 | each refusal reason holds exactly when its check is the first to fail, a failed balance retrieval counting as a processor failure after the local funds check |
| PayoutGuard.PayoutNeverOverdraws | payment/stripe/payments.js:295-298 | a request above value - pendingPayout is refused |
| Reconciler.FailureDescription | payment/stripe/webhook.js:345 | the processor's non-empty error message, else "Payment Failed" |
| Reconciler.PayoutOwner | payment/stripe/webhook.js:635-649 | a resolved owner is the only account with that connected-account id, and the destination is one of its payout accounts |
| Reconciler.HandlePayment | payment/stripe/webhook.js:178-276 | a rejection writes nothing and asks for redelivery; only transactions and invoices change (in full: ReconcilerProperties.HandlePaymentSettles) |
| Reconciler.AuthorizedPayment | payment/stripe/webhook.js:278-324 | a rejection writes nothing and carries no status; only transactions change (in full: ReconcilerProperties.AuthorizedPaymentMarksHold) |
| Reconciler.HandleFailedPayment | payment/stripe/webhook.js:326-376 | corrected: a rejection writes nothing and asks for redelivery; only transactions and invoices change (in full: ReconcilerProperties.FailedPaymentMarksFailed, FailedPaymentAcknowledged) |
| Reconciler.HandleFailedPaymentAsWritten | payment/stripe/webhook.js:326-376 | as written: always rejected with 418, with the corrected handler's writes applied |
| Reconciler.HandleCancelledPayment | payment/stripe/webhook.js:378-432 | a rejection writes nothing and asks for redelivery; only transactions and invoices change (in full: ReconcilerProperties.CancelledPaymentMarksFailed) |
| Reconciler.SetupPaymentMethod | payment/stripe/webhook.js:434-468 | a rejection writes nothing and carries no status; only payment methods change (in full: ReconcilerProperties.SetupPaymentMethodUpserts) |
| Reconciler.RemovePaymentMethod | payment/stripe/webhook.js:470-481 | never rejects; removes at most one payment method and changes nothing else (in full: ReconcilerProperties.RemovePaymentMethodRemovesFirst) |
| Reconciler.ActivateAccount | payment/stripe/webhook.js:483-501 | a rejection writes nothing; only payment accounts change, and no account is added or removed (in full: ReconcilerProperties.ActivateAccountSetsReadiness) |
| Reconciler.DeauthorizeAccount | payment/stripe/webhook.js:503-525 | a rejection writes nothing; only payment accounts and payout destinations change (in full: ReconcilerProperties.DeauthorizeRemovesDestinations) |
| Reconciler.ConfigureExternalAccount | payment/stripe/webhook.js:527-566 | a rejection writes nothing; only payout destinations change (in full: ReconcilerProperties.ConfigureExternalAccountRules) |
| Reconciler.UpdateExternalAccount | payment/stripe/webhook.js:568-611 | a rejection writes nothing; only payout destinations change (in full: ReconcilerProperties.UpdateExternalAccountRules) |
| Reconciler.RemoveExternalAccount | payment/stripe/webhook.js:613-628 | a rejection writes nothing; only payout destinations change (in full: ReconcilerProperties.RemoveExternalAccountDeletes) |
| Reconciler.PayoutCreated | payment/stripe/webhook.js:630-730 | a rejection writes nothing and carries no status; only wallets and payout transactions change (in full: ReconcilerProperties.PayoutCreatedBookkeeping) |
| Reconciler.PayoutSuccess | payment/stripe/webhook.js:732-832 | a rejection carries no status and can leave only a created wallet, and leaves nothing when the balance was retrieved; without the balance the payout is rejected; only wallets and payout transactions change (in full: PayoutSuccessBookkeeping, PayoutSuccessBalanceUnavailable) |
| Reconciler.PayoutFailed | payment/stripe/webhook.js:834-928 | a rejection writes nothing and carries no status; only wallets, payout transactions and payout destinations change (in full: ReconcilerProperties.PayoutFailedBookkeeping) |
| Reconciler.AvailableBalance | payment/stripe/webhook.js:930-1001 | corrected: a rejection writes nothing and asks for redelivery; only wallets change (in full: ReconcilerProperties.AvailableBalanceOverwrites) |
| Reconciler.AvailableBalanceAsWritten | payment/stripe/webhook.js:930-1001 | as written: the corrected handler's tables and success, but a rejection carries no status |
| Reconciler.Handle | payment/stripe/webhook.js:60-170 | the corrected dispatch: a payload of the wrong kind for its route is a plain rejection with no write, and a type without a case is rejected as unhandled |
| Reconciler.HandleRoute | payment/stripe/webhook.js:60-170 | the same two rules for the case of a given route |
| Reconciler.HandleAsWritten | payment/stripe/webhook.js:60-170 | the dispatch as written: the corrected dispatch's tables always, and its outcome on every route but failed intents and balance snapshots |
| Reconciler.HandleRouteAsWritten | payment/stripe/webhook.js:60-170 | the same for the case of a given route |
| Reconciler.RouteOf | payment/stripe/webhook.js:60-170 | `charge.expired` has no case in the dispatch |
| ReconcilerProperties.RejectionKeepsTables | payment/stripe/webhook.js:60-170 | in the corrected dispatch a rejected event leaves every table as it was, except that a paid payout whose balance cannot be retrieved leaves its wallet created |
| ReconcilerProperties.RouteRejectionKeepsTables | payment/stripe/webhook.js:60-170 | the same, for the case of any route |
| ReconcilerProperties.SameIdentitiesSameMatches | payment/stripe/webhook.js:180-188 | account tables agreeing on users and processor identities give the same customer and connected-account matches |
| ReconcilerProperties.IdentitiesChangeOnlyOnDeauthorization | payment/stripe/webhook.js:178-1001 | every event but a deauthorization keeps each customer match and each connected-account match |
| ReconcilerProperties.IntentRoutesKeepAccounts | payment/stripe/webhook.js:178-432 | the intent handlers never change a payment account |
| ReconcilerProperties.LedgerRoutesKeepAccounts | payment/stripe/webhook.js:434-1001 | the method, destination, payout and balance handlers never change a payment account |
| ReconcilerProperties.HandleAsWrittenDiffers | payment/stripe/webhook.js:60-170 | the dispatch as written has the corrected tables; a failed purchase intent is always rejected with 418 (the undeclared name when the corrected handler succeeds); a balance rejection loses its status; every other outcome is the corrected one |
| ReconcilerProperties.HandleWritesWebhookStatuses | payment/stripe/webhook.js:60-170 | no event adds or removes a transaction, and any status it changes becomes SUCCESS, FAILED or UNCAPTURED |
| ReconcilerProperties.OtherRoutesKeepTxns | payment/stripe/webhook.js:434-1001 | only the intent handlers touch payment transactions |
| ReconcilerProperties.SettlementStatusWrites | payment/stripe/webhook.js:178-276 | settlement writes SUCCESS to at most one transaction |
| ReconcilerProperties.HoldStatusWrites | payment/stripe/webhook.js:278-324 | a capturable hold writes UNCAPTURED to at most one transaction |
| ReconcilerProperties.FailureStatusWrites | payment/stripe/webhook.js:326-376 | a failure writes FAILED to at most one transaction |
| ReconcilerProperties.CancellationStatusWrites | payment/stripe/webhook.js:378-432 | a cancellation writes FAILED to at most one transaction |
| ReconcilerProperties.BalanceNeedsAccount | payment/stripe/webhook.js:80-86 | a balance event without a connected account changes nothing |
| ReconcilerProperties.OtherIntentsIgnored | payment/stripe/webhook.js:90-132 | intent events not marked as this platform's purchase change nothing |
| ReconcilerProperties.CustomerHandlersNeedOneAccount | payment/stripe/webhook.js:178-481 | handlers resolving the payer by customer id reject unless exactly one account matches: settlement, failure and cancellation with 418; the hold handler and the method-saving handler with a plain error |
| ReconcilerProperties.ConnectHandlersNeedOneAccount | payment/stripe/webhook.js:483-1001 | handlers resolving the payee by connected-account id reject unless exactly one account matches |
| ReconcilerProperties.HandlePaymentSettles | payment/stripe/webhook.js:178-276 | a succeeded intent settles iff the payee exists, a job payment exists (unless a direct charge) and the invoice, if any, renders; then the transaction is SUCCESS and the invoice complete for the settled total, with the transaction's tax and description and amount = total - payer fee - tax, its other fields kept; nothing else changes; rejections carry 418 and write nothing; any other intent status is ignored |
| ReconcilerProperties.AuthorizedPaymentMarksHold | payment/stripe/webhook.js:278-324 | a job transaction becomes UNCAPTURED with the capturable amount; a direct charge changes nothing |
| ReconcilerProperties.FailedPaymentMarksFailed | payment/stripe/webhook.js:326-376 | a failed intent marks its transaction FAILED with the processor's message and removes its invoice |
| ReconcilerProperties.CancelledPaymentMarksFailed | payment/stripe/webhook.js:378-432 | a cancelled intent is recorded iff it is a direct charge or the payee exists; then only its transaction changes, to FAILED (a direct charge with "Payment Failed", a job transaction with the processor's message), and a job transaction's invoice alone is removed; rejections carry 418 and write nothing |
| ReconcilerProperties.FailedPaymentAsWrittenAlwaysRetries | payment/stripe/webhook.js:326-376 | as written, every processed failure of a known transaction is rejected with 418 after its writes |
| ReconcilerProperties.FailedPaymentAcknowledged | payment/stripe/webhook.js:326-376 | the intended handler acknowledges such a failure |
| ReconcilerProperties.SetupPaymentMethodUpserts | payment/stripe/webhook.js:434-468 | one method record per user and fingerprint: the first such record takes the new processor id and nothing else changes, else one is appended |
| ReconcilerProperties.RemovePaymentMethodRemovesFirst | payment/stripe/webhook.js:470-481 | detaching removes exactly the first record with that processor id, keeping the others in order; an unknown id changes nothing |
| ReconcilerProperties.ActivateAccountSetsReadiness | payment/stripe/webhook.js:483-501 | the matched account becomes onboarded, payout-enabled iff charges and payouts are enabled with nothing due; no other account changes |
| ReconcilerProperties.DeauthorizeRemovesDestinations | payment/stripe/webhook.js:503-525 | the deauthorized user keeps no payout destination and loses the link, so the id matches no one and the user joins the accounts without one; other users' destinations and all customer matches are kept |
| ReconcilerProperties.ConfigureExternalAccountRules | payment/stripe/webhook.js:527-566 | the destination is upserted: a bank account unless it is a card, and active unless a bank account's status is not `new`; every other destination keeps its value |
| ReconcilerProperties.UpdateExternalAccountRules | payment/stripe/webhook.js:568-611 | an update creates no destination and never changes a card's active flag |
| ReconcilerProperties.ConfigureThenRemove | payment/stripe/webhook.js:527-628 | adding an unknown destination and then removing it restores the destinations |
| ReconcilerProperties.RemoveExternalAccountDeletes | payment/stripe/webhook.js:613-628 | removal deletes exactly the user's destination with that id, keeps every other destination as it was, and changes nothing when there is none |
| ReconcilerProperties.PayoutCreatedBookkeeping | payment/stripe/webhook.js:630-730 | a created payout records a payout transaction and adds its amount to the wallet's pending payouts |
| ReconcilerProperties.PayoutSuccessBookkeeping | payment/stripe/webhook.js:732-832 | a paid payout leaves the pending payouts, and the wallet value becomes the live available balance in that currency |
| ReconcilerProperties.PayoutSuccessBalanceUnavailable | payment/stripe/webhook.js:754-818 | without the live balance a paid payout is rejected without a status, and its only write is the wallet get-or-create |
| ReconcilerProperties.PayoutFailedBookkeeping | payment/stripe/webhook.js:834-928 | a failed payout leaves the pending payouts of its wallet, is recorded FAILED with the failure message or else the payout's description, and deactivates its destination; other wallets, payout transactions and destinations are unchanged |
| ReconcilerProperties.PayoutCreatedThenFailedRestores | payment/stripe/webhook.js:630-928 | created then failed leaves the pending payouts as they were |
| ReconcilerProperties.PayoutUnknownDestination | payment/stripe/webhook.js:635-665 | a created or paid payout to an unknown destination is rejected without a status before any wallet is made |
| ReconcilerProperties.LastAmount | payment/stripe/webhook.js:947-989 | the amount of the last bucket in that currency, or none |
| ReconcilerProperties.ApplyBucketsAt | payment/stripe/webhook.js:947-989 | after the upserts, the user's wallet in a currency holds the last bucket's amount, untouched without one |
| ReconcilerProperties.ApplyBucketsOtherUsers | payment/stripe/webhook.js:947-989 | the upserts never touch another user's wallet |
| ReconcilerProperties.AvailableBalanceOverwrites | payment/stripe/webhook.js:930-1001 | each of the user's wallets takes the last available amount in its currency; other wallets are left alone |
| ReconcilerProperties.AvailableBalanceAsWrittenLosesStatus | payment/stripe/webhook.js:996-999 | as written, a rejection of the balance handler carries no status, while the intended one carries 418 |
| Gate.GateOutcome | payment/stripe/stripe.js:983-1043 | a refused event (unsupported type or cross-environment test event) changes nothing and is acknowledged with 200; an admitted one has exactly its corrected handler's effect and stays logged iff it was not sent back with 418; no other log entry changes |
| Gate.Deliver | payment/stripe/stripe.js:983-1043 | a refused event changes neither ledger nor log; an admitted one takes the handler's effect; no other log entry changes |
| Gate.HandleEvent | payment/stripe/stripe.js:983-1043 | over the corrected dispatch: a refused event is acknowledged with 200 and changes nothing; an admitted one has the handler's effect (in full: Gate.GateOutcome) |
| Gate.HandleEventAsWritten | payment/stripe/stripe.js:983-1043 | over the dispatch as written: the corrected gate's ledger, and the as-written handler's outcome |
| Gate.CancelledIntentsDropped | payment/stripe/webhook.js:17-47 | `payment_intent.canceled` is not subscribed, so it is acknowledged without effect |
| Gate.ExpiredChargesUnhandled | payment/stripe/webhook.js:17-47 | `charge.expired` is subscribed but has no handler: plain failure, logged, nothing written |
| Gate.LogPresenceIrrelevant | payment/stripe/stripe.js:998-1026 | a previous log entry does not change what a delivery does |
| Gate.PayoutCreatedRedeliveryCountsTwice | payment/stripe/stripe.js:983-1043 | delivering the same `payout.created` twice adds its amount to the pending payouts twice |
| Gate.FailedPaymentAsWrittenRedelivered | payment/stripe/stripe.js:983-1043 | as written, an admitted failed purchase intent is written, rejected with 418 and dropped from the log every time; the corrected gate keeps it logged once recorded |
| Store.AvailableIn | payment/stripe/webhook.js:807-815 | the balance fold equals the sum of the available buckets in that currency |
| Store.SourceTypeIn | payment/stripe/payments.js:301-315 | the fold equals the sum of the bank or card source amounts in that currency |
| Store.Ledger.HandlePayment | payment/stripe/webhook.js:178-276 | leaves the state and outcome that Reconciler.HandlePayment describes; the log is unchanged |
| Store.Ledger.AuthorizedPayment | payment/stripe/webhook.js:278-324 | the state and outcome of Reconciler.AuthorizedPayment |
| Store.Ledger.MarkFailed | payment/stripe/webhook.js:326-432 | the shared failure write: FAILED with its description, invoice removed, after the same lookups |
| Store.Ledger.HandleFailedPayment | payment/stripe/webhook.js:326-376 | the state and outcome of Reconciler.HandleFailedPayment |
| Store.Ledger.HandleCancelledPayment | payment/stripe/webhook.js:378-432 | the state and outcome of Reconciler.HandleCancelledPayment |
| Store.Ledger.SetupPaymentMethod | payment/stripe/webhook.js:434-468 | the state and outcome of Reconciler.SetupPaymentMethod |
| Store.Ledger.RemovePaymentMethod | payment/stripe/webhook.js:470-481 | the state and outcome of Reconciler.RemovePaymentMethod |
| Store.Ledger.ActivateAccount | payment/stripe/webhook.js:483-501 | the state and outcome of Reconciler.ActivateAccount |
| Store.Ledger.DeletePayoutAccountsOf | payment/stripe/webhook.js:518-525 | deletes exactly the user's payout destinations |
| Store.Ledger.DeauthorizeAccount | payment/stripe/webhook.js:503-513 | the state and outcome of Reconciler.DeauthorizeAccount |
| Store.Ledger.ConfigureExternalAccount | payment/stripe/webhook.js:527-566 | the state and outcome of Reconciler.ConfigureExternalAccount |
| Store.Ledger.UpdateExternalAccount | payment/stripe/webhook.js:568-611 | the state and outcome of Reconciler.UpdateExternalAccount |
| Store.Ledger.RemoveExternalAccount | payment/stripe/webhook.js:613-628 | the state and outcome of Reconciler.RemoveExternalAccount |
| Store.Ledger.PayoutCreated | payment/stripe/webhook.js:630-730 | the state and outcome of Reconciler.PayoutCreated |
| Store.Ledger.PayoutSuccess | payment/stripe/webhook.js:732-832 | the state and outcome of Reconciler.PayoutSuccess |
| Store.Ledger.PayoutFailed | payment/stripe/webhook.js:834-928 | the state and outcome of Reconciler.PayoutFailed |
| Store.Ledger.UpsertBuckets | payment/stripe/webhook.js:947-989 | the bucket upserts leave the wallets that ApplyBuckets describes |
| Store.Ledger.AvailableBalance | payment/stripe/webhook.js:930-1001 | the state and outcome of Reconciler.AvailableBalance |
| Store.Ledger.PurchaseIntent | payment/stripe/webhook.js:90-132 | an intent event has the effect Reconciler.Handle describes |
| Store.Ledger.Dispatch | payment/stripe/webhook.js:60-170 | every event has the effect Reconciler.Handle (the corrected dispatch) describes |
| Store.Ledger.HandleEvent | payment/stripe/stripe.js:983-1043 | ledger, log and outcome are those of Gate.HandleEvent |
| Store.Ledger.Authorize | payment/stripe/stripe.js:632-799 | the state and outcome of Escrow.Authorize |
| Store.Ledger.PayForJob | payment/stripe/stripe.js:489-589 | the state and outcome of Escrow.PayForJob |
| Store.Ledger.Capture | payment/stripe/stripe.js:801-868 | the state and outcome of Escrow.Capture |
| Store.Ledger.Cancel | payment/stripe/stripe.js:591-630 | the state and outcome of Escrow.Cancel |
| Store.Ledger.DeleteMethod | payment/stripe/stripe.js:410-434 | the state and outcome of Escrow.DeleteMethod |
| Store.Ledger.SetDefault | payment/stripe/stripe.js:911-944 | the update-many loop leaves the state of Escrow.SetDefault |
| Store.Ledger.Payout | payment/stripe/payments.js:271-334 | the state and outcome of PayoutGuard.Payout |

## Left out

- Processor calls (holds, charges, captures, releases, detaches, balance retrieval, payouts) are not modelled. Each is a parameter that carries its outcome. A balance retrieval is `None` when it failed.
- Database sessions are not modelled. A handler applies the writes inside its session all at once or not at all, as the transaction handling in the source intends. The wallet get-or-create that `payoutSuccess` runs before its session is kept when the session fails.
- ReconcilerProperties.RejectionKeepsTables: holds for the corrected dispatch only. Under the dispatch as written, every processed failure of a purchase intent is rejected after its writes. HandleAsWrittenDiffers and FailedPaymentAsWrittenAlwaysRetries state that case.
- ReconcilerProperties.RouteRejectionKeepsTables: holds, like ReconcilerProperties.RejectionKeepsTables, for the corrected dispatch only.
- Store.Ledger.Dispatch: runs the corrected dispatch. The store has no as-written dispatch. The two dispatches leave the same tables and differ only in the outcome, as HandleAsWrittenDiffers states.
- Concurrency is not modelled. The parallel (`Promise.all`) balance upserts are applied in list order, so the last bucket of a currency wins.
- Notifications and console logging are not modelled. They do not affect the ledger.
- Invoice rendering is reduced to a flag saying whether the document rendered.
- The tax table (`calculateTax`) is an input, the tax amount.
- The wallet-activity rule (`isActiveWallet`) is an input, `walletActive`.
- User lookups by id are not modelled. Parties are identified by their user id.
- `getInfo`, `webGetInvoices`, the setup-intent, account-onboarding and login-link endpoints, and the background-check fee charge are not modelled. They are outside the ledger core.
- Webhook signature checking is not modelled. `handleEvent` takes an already-parsed event.
- The compensating payout cancel in `payoutCreated` is a processor call. Only its local effect, no wallet change on rejection, is modelled.
- Display-only fields of records (brand, last digits, expiry and the like) are left out.
- A new wallet starts with value 0 and pending payouts 0. The wallet schema is not part of this model.
- The wallet reassignment in `payoutFailed` at webhook.js:871 would throw on a `const`. It is behind a branch the preceding upsert makes unreachable, so it is left out.
- The deauthorization payload is modelled as carrying the connected-account id, or none.
- Payment accounts are a map keyed by user, so two payment-account records of one user cannot be represented. The exactly-one-account checks count the users whose account carries the customer or connected-account id.
- Reconciler.HandlePayment: the invoice update is issued without `await`, so it could race the response. The model applies it as part of the handler.
- The HTTP response layer (status codes and JSON bodies of the caller endpoints) is left out. Outcomes are `Result` values.
- Escrow.History returns transaction ids in page order. The joins with user profiles and job documents are not modelled. History is a function, not a `Store.Ledger` method, because it writes nothing.

## Findings

| source | as written | input that shows it | evidently intended | confidence | as-written member | corrected member |
|---|---|---|---|---|---|---|
| payment/stripe/stripe.js:326 | history skips `(page - 1) * 30` rows whatever the requested page size | limit 10, page 2, with at least 11 visible rows: rows 10..29 are on no page | skip `(page - 1) * limit` rows | high (not executed) | EscrowProperties.HistoryAsWrittenSkipsRows | EscrowProperties.HistoryCoversEveryRow |
| payment/stripe/webhook.js:359 | after marking the transaction FAILED, the handler logs the undeclared name `e` (and later reads the undeclared `recipient`), so the `ReferenceError` lands in its own catch and every processed failure is answered with 418 | any `payment_intent.payment_failed` of this platform's purchase, direct charge, with a known transaction: the writes are applied and the event is redelivered forever | acknowledge the failure once it is recorded | high (not executed) | ReconcilerProperties.FailedPaymentAsWrittenAlwaysRetries | ReconcilerProperties.FailedPaymentAcknowledged |
| payment/stripe/webhook.js:997-998 | the balance handler's catch calls `session.endSession()` on a `session` declared inside the `try`, so the catch throws a `ReferenceError` and the 418 redelivery status is lost | a `balance.available` event whose account id is carried by zero or by two accounts | reject with 418 so that the processor redelivers | high (not executed) | ReconcilerProperties.AvailableBalanceAsWrittenLosesStatus | ReconcilerProperties.ConnectHandlersNeedOneAccount |
