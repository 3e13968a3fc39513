/** The caller-facing escrow operations: authorize a hold for a job, capture
    or cancel it, pay a job immediately, remove or choose a payment method,
    and list transaction history. Each returns the new tables and an outcome;
    a rejected request returns the tables it was given.
    Processor calls appear as their outcomes: the identity of a hold or charge
    that was created (`None` when the call failed) or a success flag. Tax
    amounts come from the tax table, which is not part of this model. */
module Escrow {
  import opened Common
  import opened Status
  import opened Fees
  import opened LedgerState

  datatype JobRequest = JobRequest(
    sender: UserId,
    recipient: UserId,
    amount: int,
    description: string,
    jobId: JobId)

  /** Result of authorizing or paying: the new transaction's id and its fees,
      or the rejection and the hold released to compensate (if one was placed). */
  datatype ChargeOutcome =
    | Recorded(txnId: nat, fees: JobFees)
    | Refused(error: Error, releasedHold: Option<IntentId>)

  function Reject(t: Tables, r: Reason): (Tables, ChargeOutcome)
  {
    (t, Refused(Error(None, r), None))
  }

  /** Upsert of a job payment on its job id: the first record of that job is
      replaced (any later record of the job stays as it was), or, when the
      job has no record, the record is appended. */
  function UpsertJobPayment(jps: seq<JobPayment>, jp: JobPayment): (r: seq<JobPayment>)
    ensures (forall i :: 0 <= i < |jps| ==> jps[i].jobId != jp.jobId) ==> r == jps + [jp]
    ensures forall i :: 0 <= i < |jps| && jps[i].jobId == jp.jobId && (forall j :: 0 <= j < i ==> jps[j].jobId != jp.jobId)
                        ==> r == jps[i := jp]
  {
    match FirstIndex(jps, (x: JobPayment) => x.jobId == jp.jobId)
    case None => jps + [jp]
    case Some(i) =>
      var r := jps[i := jp];
      assert r[i] == jp;
      r
  }

  /** `authorizePaymentForJob`: validates the request and both parties'
      accounts, computes the fees, places a manual-capture hold, and records
      the transaction, its job payment and its pending invoice together. A
      failure after the hold was placed releases it and records nothing. */
  function Authorize(t: Tables, r: JobRequest, tax: int, hold: Option<IntentId>, invoiceRendered: bool)
    : (res: (Tables, ChargeOutcome))
    ensures res.1.Refused? ==> res.0 == t && (res.1.releasedHold.Some? ==> res.1.releasedHold == hold)
    ensures res.1.Recorded? ==> hold.Some? && invoiceRendered && res.1.txnId == |t.txns| && |res.0.txns| == |t.txns| + 1
  {
    if r.amount == 0 || r.recipient == "" || r.description == "" || r.jobId == "" then Reject(t, MissingDetails)
    else
      var f := ComputeJobFees(r.amount, tax);
      match FirstIndex(t.methods, (m: PaymentMethod) => m.user == r.sender && m.isDefault)
      case None => Reject(t, MethodMissing)
      case Some(mi) =>
        if !(r.sender in t.accounts && t.accounts[r.sender].customerId.Some?) then Reject(t, DuplicateOrMissingAccount)
        else if !(r.recipient in t.accounts && t.accounts[r.recipient].connectId.Some?) then Reject(t, RecipientMissing)
        else if hold.None? then Reject(t, ProcessorFailure)
        else if !invoiceRendered then (t, Refused(Error(None, RenderFailure), hold))
        else
          var id := |t.txns|;
          var txn := PaymentTransaction(r.sender, r.recipient, Uncaptured, f.holdAmount, tax, f.deployeeRevenue,
                                        f.percentageFee, f.mobilizationFee, r.description, hold.value,
                                        t.methods[mi].fingerprint);
          var jp := JobPayment(r.jobId, id, r.amount, tax, f.deployerFee, f.applicationFee, r.description);
          var inv := Invoice(r.sender, InvoicePending, r.description, tax, r.amount - tax - f.deployerFee,
                             f.deployerFee, f.holdAmount);
          (t.(txns := t.txns + [txn], jobPayments := UpsertJobPayment(t.jobPayments, jp),
              invoices := t.invoices[id := inv]),
           Recorded(id, f))
  }

  /** `makePaymentForJob`: a one-shot payment with automatic capture, recorded
      as a `PENDING` transaction with its job payment; no invoice is written. */
  function PayForJob(t: Tables, r: JobRequest, methodId: MethodId, tax: int, charge: Option<IntentId>)
    : (res: (Tables, ChargeOutcome))
    ensures res.1.Refused? ==> res.0 == t && res.1.releasedHold.None?
    ensures res.1.Recorded? ==> charge.Some? && res.1.txnId == |t.txns| && |res.0.txns| == |t.txns| + 1
                                && |res.0.jobPayments| == |t.jobPayments| + 1
  {
    if r.amount == 0 || r.description == "" || r.jobId == "" || methodId == "" then Reject(t, MissingDetails)
    else
      var f := ComputeJobFees(r.amount, tax);
      match FirstIndex(t.methods, (m: PaymentMethod) => m.id == methodId)
      case None => Reject(t, MethodMissing)
      case Some(mi) =>
        if t.methods[mi].user != r.sender then Reject(t, MethodMissing)
        else if !(r.sender in t.accounts && t.accounts[r.sender].customerId.Some?) then Reject(t, DuplicateOrMissingAccount)
        else if !(r.recipient in t.accounts && t.accounts[r.recipient].connectId.Some?) then Reject(t, RecipientMissing)
        else if charge.None? then Reject(t, ProcessorFailure)
        else
          var id := |t.txns|;
          var txn := PaymentTransaction(r.sender, r.recipient, Pending, f.holdAmount, tax, f.deployeeRevenue,
                                        f.percentageFee, f.mobilizationFee, r.description, charge.value,
                                        t.methods[mi].fingerprint);
          var jp := JobPayment(r.jobId, id, r.amount, tax, f.deployerFee, f.applicationFee, r.description);
          (t.(txns := t.txns + [txn], jobPayments := t.jobPayments + [jp]), Recorded(id, f))
  }

  datatype CaptureRequest = CaptureRequest(
    sender: UserId,
    jobId: JobId,
    txnId: Option<nat>,
    amount: int,          // 0 when the request names no amount
    cancelled: bool)

  /** The open hold `id` of `sender`, if there is one. */
  predicate OpenHoldOf(t: Tables, id: nat, sender: UserId)
  {
    id < |t.txns| && t.txns[id].sender == sender && t.txns[id].status == Uncaptured
  }

  /** A job payment recording the hold `id` of that job. */
  predicate HoldPaymentOf(jp: JobPayment, jobId: string, id: nat)
  {
    jp.jobId == jobId && jp.paymentId == id
  }

  /** `capturePaymentForJob`: only an open hold of the sender with its job
      payment can be captured; the figures are recomputed when the requested
      amount differs, the transaction moves to `PENDING`, and the processor
      capture must succeed for anything to be written. */
  function Capture(t: Tables, r: CaptureRequest, newTax: int, captured: bool): (res: (Tables, Result<CaptureFigures>))
    ensures res.1.Err? ==> res.0 == t
    ensures res.1.Ok? ==> captured && r.txnId.Some? && OpenHoldOf(t, r.txnId.value, r.sender)
                          && |res.0.txns| == |t.txns| && res.0.txns[r.txnId.value].status == Pending
  {
    if r.jobId == "" || r.txnId.None? then (t, Err(Error(None, MissingDetails)))
    else if !OpenHoldOf(t, r.txnId.value, r.sender) then (t, Err(Error(None, TransactionMissing)))
    else
      var id := r.txnId.value;
      var txn := t.txns[id];
      match FirstIndex(t.jobPayments, (x: JobPayment) => HoldPaymentOf(x, r.jobId, id))
      case None => (t, Err(Error(None, JobPaymentMissing)))
      case Some(ji) =>
        var jp := t.jobPayments[ji];
        var c := RecomputeAtCapture(txn.amount, txn.tax, jp.applicationFee, jp.deployerCharge, r.amount, newTax);
        if !captured then (t, Err(Error(None, ProcessorFailure)))
        else
          var description := if r.cancelled then "CANCELLED - " + txn.description else txn.description;
          var txn' := txn.(amount := c.amount, description := description, tax := c.tax,
                           deployeeRevenue := c.deployeeRevenue, status := Pending);
          (t.(txns := t.txns[id := txn']), Ok(c))
  }

  /** `cancelAuthorizedPayment`: only an open hold of the sender can be
      cancelled; once the processor releases it the transaction is `DECLINED`. */
  function Cancel(t: Tables, sender: UserId, txnId: Option<nat>, released: bool): (res: (Tables, Result<nat>))
    ensures res.1.Err? ==> res.0 == t
    ensures res.1.Ok? ==> released && txnId == Some(res.1.value) && OpenHoldOf(t, res.1.value, sender)
                          && |res.0.txns| == |t.txns| && res.0.txns[res.1.value].status == Declined
  {
    if txnId.None? then (t, Err(Error(None, MissingDetails)))
    else if !OpenHoldOf(t, txnId.value, sender) then (t, Err(Error(None, TransactionMissing)))
    else if !released then (t, Err(Error(None, ProcessorFailure)))
    else
      var id := txnId.value;
      (t.(txns := t.txns[id := t.txns[id].(status := Declined)]), Ok(id))
  }

  /** `deleteMethod`: a user's method is removed unless an open hold anywhere
      still uses its card fingerprint. */
  function DeleteMethod(t: Tables, user: UserId, methodId: MethodId, detached: bool): (res: (Tables, Result<MethodId>))
    ensures res.1.Err? ==> res.0 == t
    ensures res.1.Ok? ==> detached && res.1.value == methodId && |res.0.methods| == |t.methods| - 1
  {
    match FirstIndex(t.methods, (m: PaymentMethod) => m.id == methodId && m.user == user)
    case None => (t, Err(Error(None, MethodMissing)))
    case Some(i) =>
      var fp := t.methods[i].fingerprint;
      if exists j :: 0 <= j < |t.txns| && t.txns[j].fingerprint == fp && t.txns[j].status == Uncaptured then
        (t, Err(Error(None, MethodInUse)))
      else if !detached then (t, Err(Error(None, ProcessorFailure)))
      else (t.(methods := t.methods[..i] + t.methods[i + 1..]), Ok(methodId))
  }

  /** The method list after making the method at `i` the user's default. */
  function MarkDefault(ms: seq<PaymentMethod>, i: nat, user: UserId, methodId: MethodId): (r: seq<PaymentMethod>)
    requires i < |ms|
    ensures |r| == |ms|
    ensures r[i] == ms[i].(isDefault := true)
    ensures forall k :: 0 <= k < |ms| ==> r[k] == ms[k].(isDefault := r[k].isDefault)
    ensures forall k :: 0 <= k < |ms| && k != i ==>
              r[k].isDefault == (ms[k].isDefault && !(ms[k].user == user && ms[k].id != methodId))
  {
    seq(|ms|, k requires 0 <= k < |ms| =>
      if k == i then ms[k].(isDefault := true)
      else if ms[k].user == user && ms[k].id != methodId then ms[k].(isDefault := false)
      else ms[k])
  }

  /** `setDefault`: the user's account and method must exist; once the
      processor records the choice, the method becomes the default and every
      other method of the user stops being one. */
  function SetDefault(t: Tables, user: UserId, methodId: MethodId, processorOk: bool): (res: (Tables, Result<MethodId>))
    ensures res.1.Err? ==> res.0 == t
    ensures res.1.Ok? ==> processorOk && user in t.accounts && res.1.value == methodId && |res.0.methods| == |t.methods|
  {
    if user !in t.accounts then (t, Err(Error(None, DuplicateOrMissingAccount)))
    else match FirstIndex(t.methods, (m: PaymentMethod) => m.id == methodId && m.user == user)
    case None => (t, Err(Error(None, MethodMissing)))
    case Some(i) =>
      if !processorOk then (t, Err(Error(None, ProcessorFailure)))
      else (t.(methods := MarkDefault(t.methods, i, user, methodId)), Ok(methodId))
  }

  // ------------------------------------------------------ transaction history

  datatype Role = Admin | Contractor | Member

  /** Which transactions a user may see in history. */
  predicate Visible(x: PaymentTransaction, user: UserId, role: Role)
  {
    if role == Admin then Listed(x.status)
    else (x.sender == user && Listed(x.status)) || (x.recipient == user && x.status == Success)
  }

  /** Ids below `n` of visible transactions, newest first. */
  function VisibleBelow(t: Tables, user: UserId, role: Role, n: nat): (r: seq<nat>)
    requires n <= |t.txns|
    ensures forall k :: 0 <= k < |r| ==> r[k] < n && Visible(t.txns[r[k]], user, role)
    ensures forall j :: 0 <= j < n && Visible(t.txns[j], user, role) ==> j in r
    ensures forall a, b :: 0 <= a < b < |r| ==> r[a] > r[b]
  {
    if n == 0 then []
    else (if Visible(t.txns[n - 1], user, role) then [n - 1] else []) + VisibleBelow(t, user, role, n - 1)
  }

  /** Elements `skip .. skip + limit` of `xs`, clipped to its length. */
  function Window<T>(xs: seq<T>, skip: nat, limit: nat): (r: seq<T>)
    ensures |r| <= limit
    ensures forall k :: 0 <= k < |r| ==> skip + k < |xs| && r[k] == xs[skip + k]
    ensures skip + limit <= |xs| ==> |r| == limit
  {
    var lo := if skip <= |xs| then skip else |xs|;
    var hi := if skip + limit <= |xs| then skip + limit else |xs|;
    xs[lo..hi]
  }

  /** Newest first: ids strictly decreasing. */
  predicate NewestFirst(ids: seq<nat>)
  {
    forall a, b :: 0 <= a < b < |ids| ==> ids[a] > ids[b]
  }

  /** Keeps the ids that have a job payment, in their order; the others are
      dropped from the page. */
  function WithJobPayment(t: Tables, ids: seq<nat>): (r: seq<nat>)
    ensures forall k :: 0 <= k < |r| ==> r[k] in ids
    ensures forall k :: 0 <= k < |r| ==> exists j :: 0 <= j < |t.jobPayments| && t.jobPayments[j].paymentId == r[k]
    ensures forall x :: x in ids && (exists j :: 0 <= j < |t.jobPayments| && t.jobPayments[j].paymentId == x) ==> x in r
  {
    if |ids| == 0 then []
    else
      var rest := WithJobPayment(t, ids[1..]);
      assert forall x :: x in ids[1..] ==> x in ids;
      if exists j :: 0 <= j < |t.jobPayments| && t.jobPayments[j].paymentId == ids[0] then
        var r := [ids[0]] + rest;
        assert forall k :: 1 <= k < |r| ==> r[k] == rest[k - 1];
        r
      else rest
  }

  /** Filtering keeps the order: a newest-first page stays newest first. */
  lemma {:induction false} WithJobPaymentNewestFirst(t: Tables, ids: seq<nat>)
    requires NewestFirst(ids)
    ensures NewestFirst(WithJobPayment(t, ids))
  {
    if |ids| > 0 {
      var rest := WithJobPayment(t, ids[1..]);
      WithJobPaymentNewestFirst(t, ids[1..]);
      forall k | 0 <= k < |rest|
        ensures rest[k] < ids[0]
      {
        var j :| 0 <= j < |ids[1..]| && ids[1..][j] == rest[k];
        assert ids[j + 1] == rest[k];
      }
    }
  }

  /** Page size argument checks: contractors are refused, then page and limit
      must both parse as integers of at least 1. */
  function HistoryGuard(role: Role, page: Option<int>, limit: Option<int>): (r: Option<Error>)
    ensures r.None? <==> role != Contractor && page.Some? && page.value >= 1 && limit.Some? && limit.value >= 1
  {
    if role == Contractor then Some(Error(Some(401), PermissionDenied))
    else if page.None? || page.value < 1 || limit.None? || limit.value < 1 then Some(Error(None, InvalidRange))
    else None
  }

  /** `webGetTransactionHistory` as written: the rows skipped before a page
      are `(page - 1) * 30`, whatever the page size. */
  function HistoryAsWritten(t: Tables, user: UserId, role: Role, page: Option<int>, limit: Option<int>)
    : (r: Result<seq<nat>>)
    ensures r.Err? <==> HistoryGuard(role, page, limit).Some?
    ensures r.Ok? ==> |r.value| <= limit.value && NewestFirst(r.value)
  {
    match HistoryGuard(role, page, limit)
    case Some(e) => Err(e)
    case None =>
      var all := VisibleBelow(t, user, role, |t.txns|);
      var w := Window(all, (page.value - 1) * 30, limit.value);
      var r := WithJobPayment(t, w);
      assert |r| <= |w| by { WithJobPaymentShorter(t, w); }
      assert NewestFirst(r) by { assert NewestFirst(w); WithJobPaymentNewestFirst(t, w); }
      Ok(r)
  }

  /** Transaction history with pages of `limit` rows, rows skipped
      `(page - 1) * limit`. */
  function History(t: Tables, user: UserId, role: Role, page: Option<int>, limit: Option<int>)
    : (r: Result<seq<nat>>)
    ensures r.Err? <==> HistoryGuard(role, page, limit).Some?
    ensures r.Ok? ==> |r.value| <= limit.value
    ensures r.Ok? ==> forall k :: 0 <= k < |r.value| ==>
              r.value[k] < |t.txns| && Visible(t.txns[r.value[k]], user, role)
    ensures r.Ok? ==> NewestFirst(r.value)
  {
    match HistoryGuard(role, page, limit)
    case Some(e) => Err(e)
    case None =>
      var all := VisibleBelow(t, user, role, |t.txns|);
      var w := Window(all, (page.value - 1) * limit.value, limit.value);
      var r := WithJobPayment(t, w);
      assert |r| <= |w| by { WithJobPaymentShorter(t, w); }
      assert NewestFirst(r) by { assert NewestFirst(w); WithJobPaymentNewestFirst(t, w); }
      Ok(r)
  }

  lemma {:induction false} WithJobPaymentShorter(t: Tables, ids: seq<nat>)
    ensures |WithJobPayment(t, ids)| <= |ids|
  {
    if |ids| > 0 { WithJobPaymentShorter(t, ids[1..]); }
  }
}
