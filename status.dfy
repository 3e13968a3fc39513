/** The payment-transaction status codes and the retry signal a webhook
    handler raises to ask the processor for redelivery. */
module Status {
  import opened Common

  datatype TransactionStatus = Pending | Success | Failed | Declined | Uncaptured

  /** The numeric code each status is stored as. */
  function Code(s: TransactionStatus): (c: int)
    ensures 0 <= c <= 4
  {
    match s
    case Pending => 0
    case Success => 1
    case Failed => 2
    case Declined => 3
    case Uncaptured => 4
  }

  /** Reads a stored code back; codes outside 0..4 name no status. */
  function FromCode(c: int): (r: Option<TransactionStatus>)
    ensures r.Some? <==> 0 <= c <= 4
  {
    if c == 0 then Some(Pending)
    else if c == 1 then Some(Success)
    else if c == 2 then Some(Failed)
    else if c == 3 then Some(Declined)
    else if c == 4 then Some(Uncaptured)
    else None
  }

  /** The status a handler error carries to have its event log entry deleted. */
  const RetryWebhookStatusCode: int := 418

  lemma CodeRoundTrip(s: TransactionStatus)
    ensures FromCode(Code(s)) == Some(s)
  {
  }

  lemma FromCodeRoundTrip(c: int)
    requires 0 <= c <= 4
    ensures FromCode(c).Some? && Code(FromCode(c).value) == c
  {
  }

  /** The five codes are distinct. */
  lemma CodesDistinct(a: TransactionStatus, b: TransactionStatus)
    requires Code(a) == Code(b)
    ensures a == b
  {
    CodeRoundTrip(a);
    CodeRoundTrip(b);
  }

  /** Transitions the caller-facing operations may make: capture and cancel
      both start from an open hold. */
  predicate CallerTransition(from: TransactionStatus, to: TransactionStatus)
  {
    from == Uncaptured && (to == Pending || to == Declined)
  }

  /** Statuses the webhook handlers write. */
  predicate WebhookWritten(to: TransactionStatus)
  {
    to == Success || to == Failed || to == Uncaptured
  }

  /** Statuses shown in transaction history to a sender or an administrator. */
  predicate Listed(s: TransactionStatus)
  {
    s == Pending || s == Uncaptured || s == Success
  }
}
