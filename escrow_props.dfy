/** What the escrow operations promise: which requests are recorded, what a
    recorded hold looks like, that a rejection leaves the ledger alone, the
    state machine's caller transitions, and the paging rule of history. */
module EscrowProperties {
  import opened Common
  import opened Status
  import opened Fees
  import opened LedgerState
  import opened Escrow

  /** Everything an authorization checks before it calls the processor. */
  predicate AuthorizeAdmissible(t: Tables, r: JobRequest)
  {
    && r.amount != 0 && r.recipient != "" && r.description != "" && r.jobId != ""
    && (exists k :: 0 <= k < |t.methods| && t.methods[k].user == r.sender && t.methods[k].isDefault)
    && r.sender in t.accounts && t.accounts[r.sender].customerId.Some?
    && r.recipient in t.accounts && t.accounts[r.recipient].connectId.Some?
  }

  /** Tables other than transactions, job payments and invoices are equal. */
  predicate SameParties(t: Tables, t': Tables)
  {
    t'.accounts == t.accounts && t'.wallets == t.wallets && t'.payoutAccounts == t.payoutAccounts
    && t'.payoutTxns == t.payoutTxns && t'.methods == t.methods
  }

  /** An authorization is recorded exactly when the request is admissible, the
      hold was placed and the invoice was rendered; a refusal writes nothing
      and releases the hold precisely when one had been placed. */
  lemma AuthorizeOutcome(t: Tables, r: JobRequest, tax: int, hold: Option<IntentId>, rendered: bool)
    ensures var res := Authorize(t, r, tax, hold, rendered);
            && (res.1.Recorded? <==> AuthorizeAdmissible(t, r) && hold.Some? && rendered)
            && (res.1.Refused? ==> res.0 == t)
            && (res.1.Refused? ==> (res.1.releasedHold.Some? <==> AuthorizeAdmissible(t, r) && hold.Some?))
            && (res.1.Refused? && res.1.releasedHold.Some? ==> res.1.releasedHold == hold)
  {
    var pred := (m: PaymentMethod) => m.user == r.sender && m.isDefault;
    var fi := FirstIndex(t.methods, pred);
    if fi.None? {
      assert forall k :: 0 <= k < |t.methods| ==> !pred(t.methods[k]);
    }
  }

  /** A recorded authorization appends one `UNCAPTURED` transaction holding
      `amount + deployerFee + tax`, with the payee's revenue `amount -
      deployeeFee`, records its job payment and its pending invoice, and
      changes no other table. */
  lemma AuthorizeRecordsHold(t: Tables, r: JobRequest, tax: int, hold: Option<IntentId>, rendered: bool)
    requires Authorize(t, r, tax, hold, rendered).1.Recorded?
    ensures var res := Authorize(t, r, tax, hold, rendered);
            var t', id, f := res.0, res.1.txnId, res.1.fees;
            && f == ComputeJobFees(r.amount, tax)
            && f.applicationFee == f.deployerFee + f.deployeeFee + tax
            && id == |t.txns| && t'.txns[..id] == t.txns && |t'.txns| == id + 1
            && t'.txns[id].status == Uncaptured
            && t'.txns[id].sender == r.sender && t'.txns[id].recipient == r.recipient
            && t'.txns[id].intentId == hold.value
            && t'.txns[id].amount == r.amount + f.deployerFee + tax
            && t'.txns[id].deployeeRevenue == r.amount - f.deployeeFee
            && t'.txns[id].tax == tax
            && t'.invoices == t.invoices[id := Invoice(r.sender, InvoicePending, r.description, tax,
                                                        r.amount - tax - f.deployerFee, f.deployerFee,
                                                        t'.txns[id].amount)]
            && t'.jobPayments == UpsertJobPayment(t.jobPayments, JobPayment(r.jobId, id, r.amount, tax, f.deployerFee,
                                                                            f.applicationFee, r.description))
            && SameParties(t, t')
  {
  }

  /** Authorizing a job again redirects the job's first job payment to the new
      hold: an earlier hold that had only that record can no longer be
      captured, and fails for a missing job payment. */
  lemma ReauthorizeOrphansEarlierHold(t: Tables, r: JobRequest, tax: int, hold: Option<IntentId>, rendered: bool,
                                      i: nat, newTax: int)
    requires Authorize(t, r, tax, hold, rendered).1.Recorded?
    requires i < |t.jobPayments| && t.jobPayments[i].jobId == r.jobId
    requires forall j :: 0 <= j < i ==> t.jobPayments[j].jobId != r.jobId
    requires t.jobPayments[i].paymentId < |t.txns|
    requires forall j :: 0 <= j < |t.jobPayments| && j != i ==> t.jobPayments[j].paymentId != t.jobPayments[i].paymentId
    requires OpenHoldOf(t, t.jobPayments[i].paymentId, r.sender)
    ensures var t' := Authorize(t, r, tax, hold, rendered).0;
            var earlier := t.jobPayments[i].paymentId;
            && t'.jobPayments[i].paymentId == |t.txns|
            && OpenHoldOf(t', earlier, r.sender)
            && Capture(t', CaptureRequest(r.sender, r.jobId, Some(earlier), 0, false), newTax, true)
               == (t', Err(Error(None, JobPaymentMissing)))
  {
    var t' := Authorize(t, r, tax, hold, rendered).0;
    var earlier := t.jobPayments[i].paymentId;
    assert t'.txns[..|t.txns|] == t.txns;
    assert t'.txns[earlier] == t.txns[earlier];
    assert forall j :: 0 <= j < |t'.jobPayments| ==> t'.jobPayments[j].paymentId != earlier;
  }

  /** A one-shot job payment is recorded `PENDING` with the same fee split. */
  lemma PayForJobRecords(t: Tables, r: JobRequest, methodId: MethodId, tax: int, charge: Option<IntentId>)
    ensures var res := PayForJob(t, r, methodId, tax, charge);
            && (res.1.Refused? ==> res.0 == t && res.1.releasedHold.None?)
            && (res.1.Recorded? ==>
                  var t', id, f := res.0, res.1.txnId, res.1.fees;
                  && charge.Some?
                  && id == |t.txns| && t'.txns == t.txns + [t'.txns[id]]
                  && t'.txns[id].status == Pending
                  && t'.txns[id].amount == r.amount + f.deployerFee + tax
                  && t'.txns[id].deployeeRevenue == r.amount - f.deployeeFee
                  && f.applicationFee == f.deployerFee + f.deployeeFee + tax
                  && t'.jobPayments == t.jobPayments + [JobPayment(r.jobId, id, r.amount, tax, f.deployerFee,
                                                                   f.applicationFee, r.description)]
                  && t'.invoices == t.invoices && SameParties(t, t'))
  {
  }

  /** Capture succeeds only on an open hold of the sender, moves it to
      `PENDING`, keeps `deployeeRevenue = amount - applicationFee`, and
      touches no other transaction; a refusal writes nothing. */
  lemma CaptureTransition(t: Tables, r: CaptureRequest, newTax: int, captured: bool)
    ensures var res := Capture(t, r, newTax, captured);
            && (res.1.Ok? <==>
                  && r.jobId != "" && r.txnId.Some? && OpenHoldOf(t, r.txnId.value, r.sender)
                  && (exists ji :: 0 <= ji < |t.jobPayments| && HoldPaymentOf(t.jobPayments[ji], r.jobId, r.txnId.value))
                  && captured)
            && (res.1.Err? ==> res.0 == t)
            && (res.1.Ok? ==>
                  var id := r.txnId.value;
                  var txn := t.txns[id];
                  && captured && r.txnId.Some?
                  && OpenHoldOf(t, id, r.sender)
                  && (exists ji :: 0 <= ji < |t.jobPayments| && HoldPaymentOf(t.jobPayments[ji], r.jobId, id)
                        && (forall k :: 0 <= k < ji ==> !HoldPaymentOf(t.jobPayments[k], r.jobId, id))
                        && res.1.value == RecomputeAtCapture(txn.amount, txn.tax, t.jobPayments[ji].applicationFee,
                                                             t.jobPayments[ji].deployerCharge, r.amount, newTax))
                  && CallerTransition(t.txns[id].status, res.0.txns[id].status)
                  && res.0.txns[id].status == Pending
                  && res.0.txns[id].amount == res.1.value.amount
                  && res.0.txns[id].tax == res.1.value.tax
                  && res.0.txns[id].deployeeRevenue == res.1.value.amount - res.1.value.applicationFee
                  && res.0.txns[id] == txn.(amount := res.1.value.amount, tax := res.1.value.tax,
                                            deployeeRevenue := res.1.value.deployeeRevenue, status := Pending,
                                            description := if r.cancelled then "CANCELLED - " + txn.description
                                                           else txn.description)
                  && |res.0.txns| == |t.txns|
                  && (forall j :: 0 <= j < |t.txns| && j != id ==> res.0.txns[j] == t.txns[j])
                  && res.0.jobPayments == t.jobPayments && res.0.invoices == t.invoices
                  && SameParties(t, res.0))
  {
    if r.jobId != "" && r.txnId.Some? && OpenHoldOf(t, r.txnId.value, r.sender) {
      var id := r.txnId.value;
      match FirstIndex(t.jobPayments, (x: JobPayment) => HoldPaymentOf(x, r.jobId, id))
      case None =>
      case Some(ji) =>
        assert HoldPaymentOf(t.jobPayments[ji], r.jobId, id);
    }
  }

  /** Cancel succeeds only on an open hold of the sender and declines it. */
  lemma CancelTransition(t: Tables, sender: UserId, txnId: Option<nat>, released: bool)
    ensures var res := Cancel(t, sender, txnId, released);
            && (res.1.Ok? <==> txnId.Some? && OpenHoldOf(t, txnId.value, sender) && released)
            && (res.1.Err? ==> res.0 == t)
            && (res.1.Ok? ==>
                  && CallerTransition(t.txns[txnId.value].status, res.0.txns[txnId.value].status)
                  && res.0.txns == t.txns[txnId.value := t.txns[txnId.value].(status := Declined)]
                  && res.0.jobPayments == t.jobPayments && res.0.invoices == t.invoices
                  && SameParties(t, res.0))
  {
  }

  /** Authorize, then capture without naming an amount: the hold is captured
      in full, the transaction is `PENDING`, the payee's revenue is still
      `amount - deployeeFee` and the application fee is still
      `deployerFee + deployeeFee + tax`. */
  lemma {:induction false} AuthorizeThenCaptureUnchanged(t: Tables, r: JobRequest, tax: int, hold: IntentId, newTax: int)
    requires AuthorizeAdmissible(t, r)
    ensures var a := Authorize(t, r, tax, Some(hold), true);
            a.1.Recorded? &&
            var c := Capture(a.0, CaptureRequest(r.sender, r.jobId, Some(a.1.txnId), 0, false), newTax, true);
            var f := a.1.fees;
            && c.1.Ok?
            && c.0.txns[a.1.txnId].status == Pending
            && c.0.txns[a.1.txnId].amount == r.amount + f.deployerFee + tax
            && c.0.txns[a.1.txnId].deployeeRevenue == r.amount - f.deployeeFee
            && c.1.value.applicationFee == f.deployerFee + f.deployeeFee + tax
  {
    AuthorizeOutcome(t, r, tax, Some(hold), true);
    var a := Authorize(t, r, tax, Some(hold), true);
    AuthorizeRecordsHold(t, r, tax, Some(hold), true);
    var id := a.1.txnId;
    var f := a.1.fees;
    var jp := JobPayment(r.jobId, id, r.amount, tax, f.deployerFee, f.applicationFee, r.description);
    var p := (x: JobPayment) => HoldPaymentOf(x, r.jobId, id);
    // the upsert leaves that job's record first among the records of that job
    var ji := FirstIndex(t.jobPayments, (x: JobPayment) => x.jobId == r.jobId);
    assert FirstIndex(a.0.jobPayments, p).Some? && a.0.jobPayments[FirstIndex(a.0.jobPayments, p).value] == jp by {
      var q := FirstIndex(a.0.jobPayments, p);
      if ji.None? {
        assert a.0.jobPayments == t.jobPayments + [jp];
        assert p(a.0.jobPayments[|t.jobPayments|]);
        assert forall j :: 0 <= j < |t.jobPayments| ==> !p(a.0.jobPayments[j]);
      } else {
        assert a.0.jobPayments == t.jobPayments[ji.value := jp];
        assert p(a.0.jobPayments[ji.value]);
        assert forall j :: 0 <= j < ji.value ==> !p(a.0.jobPayments[j]);
      }
    }
    assert OpenHoldOf(a.0, id, r.sender);
  }

  /** A method is deleted only when no open hold uses its card: after a
      successful delete, no `UNCAPTURED` transaction carries its fingerprint. */
  lemma DeleteMethodGuard(t: Tables, user: UserId, methodId: MethodId, detached: bool)
    ensures var res := DeleteMethod(t, user, methodId, detached);
            && (res.1.Err? ==> res.0 == t)
            && (res.1.Ok? ==>
                  exists i :: 0 <= i < |t.methods| && t.methods[i].id == methodId && t.methods[i].user == user
                    && res.0.methods == t.methods[..i] + t.methods[i + 1..]
                    && (forall j :: 0 <= j < |t.txns| ==>
                          !(t.txns[j].fingerprint == t.methods[i].fingerprint && t.txns[j].status == Uncaptured)))
            && (res.1.Ok? ==> res.0.txns == t.txns && res.0.accounts == t.accounts)
  {
  }

  /** After `setDefault` the chosen method is the user's default, no other
      method of the user is, and other users' methods are untouched. */
  lemma SetDefaultExclusive(t: Tables, user: UserId, methodId: MethodId, processorOk: bool)
    ensures var res := SetDefault(t, user, methodId, processorOk);
            && (res.1.Err? ==> res.0 == t)
            && (res.1.Ok? ==>
                  && user in t.accounts && processorOk
                  && |res.0.methods| == |t.methods|
                  && (exists i :: 0 <= i < |t.methods| && t.methods[i].id == methodId && t.methods[i].user == user
                        && res.0.methods[i] == t.methods[i].(isDefault := true))
                  && (forall k :: 0 <= k < |t.methods| && t.methods[k].user == user && t.methods[k].id != methodId ==>
                        res.0.methods[k] == t.methods[k].(isDefault := false))
                  && (forall k :: 0 <= k < |t.methods| && t.methods[k].user != user ==>
                        res.0.methods[k] == t.methods[k])
                  && res.0.txns == t.txns)
  {
  }

  // ---------------------------------------------------------------- history

  /** Transactions each page may show. */
  function AllVisible(t: Tables, user: UserId, role: Role): seq<nat>
  {
    VisibleBelow(t, user, role, |t.txns|)
  }

  lemma {:induction false} WindowMember<T>(xs: seq<T>, skip: nat, limit: nat, j: nat)
    requires skip <= j < skip + limit && j < |xs|
    ensures xs[j] in Window(xs, skip, limit)
  {
    var w := Window(xs, skip, limit);
    var hi := if skip + limit <= |xs| then skip + limit else |xs|;
    assert w == xs[skip..hi];
    assert w[j - skip] == xs[j];
  }

  /** As written, with a page size below 30 the row right after the first page
      (the `limit`-th newest visible transaction) is on no page at all. */
  lemma {:induction false} HistoryAsWrittenSkipsRows(t: Tables, user: UserId, role: Role, limit: nat, page: nat)
    requires 1 <= limit < 30 && page >= 1 && role != Contractor
    requires limit < |AllVisible(t, user, role)|
    ensures var h := HistoryAsWritten(t, user, role, Some(page), Some(limit));
            h.Ok? && AllVisible(t, user, role)[limit] !in h.value
  {
    var all := AllVisible(t, user, role);
    var skip := (page - 1) * 30;
    var w := Window(all, skip, limit);
    forall k | 0 <= k < |w| ensures w[k] != all[limit] {
      assert w[k] == all[skip + k];
      if skip + k < limit {
        assert all[skip + k] > all[limit];
      } else {
        assert page >= 2;
        assert all[limit] > all[skip + k];
      }
    }
  }

  /** With pages of `limit` rows every visible transaction that has a job
      payment is shown on page `j / limit + 1`. */
  lemma {:induction false} HistoryCoversEveryRow(t: Tables, user: UserId, role: Role, limit: nat, j: nat)
    requires limit >= 1 && role != Contractor
    requires j < |AllVisible(t, user, role)|
    requires exists q :: 0 <= q < |t.jobPayments| && t.jobPayments[q].paymentId == AllVisible(t, user, role)[j]
    ensures var h := History(t, user, role, Some(j / limit + 1), Some(limit));
            h.Ok? && AllVisible(t, user, role)[j] in h.value
  {
    var all := AllVisible(t, user, role);
    var page := j / limit + 1;
    var skip := PageOf(j, limit);
    var w := Window(all, skip, limit);
    WindowMember(all, skip, limit, j);
    assert HistoryGuard(role, Some(page), Some(limit)).None?;
    assert History(t, user, role, Some(page), Some(limit)) == Ok(WithJobPayment(t, w));
  }

  /** The rows skipped before the page that holds row j. */
  lemma PageOf(j: nat, limit: nat) returns (skip: nat)
    requires limit >= 1
    ensures skip == (j / limit + 1 - 1) * limit
    ensures skip <= j < skip + limit
  {
    assert j == (j / limit) * limit + j % limit;
    skip := (j / limit) * limit;
  }
}
