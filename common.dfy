/** Shared vocabulary of the payment ledger: identifiers, optional values,
    the error shape every operation rejects with, and the two lookup rules
    the storage layer uses (first match in insertion order, exactly one match). */
module Common {

  datatype Option<+T> = None | Some(value: T)

  type UserId = string
  type CustomerId = string      // processor customer identity of a payer
  type ConnectId = string       // processor connected-account identity of a payee
  type IntentId = string        // processor payment-intent (hold / charge) identity
  type ExternalAccountId = string
  type PayoutId = string
  type Currency = string
  type EventId = string
  type JobId = string
  type MethodId = string

  /** Why an operation was rejected. */
  datatype Reason =
    | MissingDetails            // a required request field is absent
    | DuplicateOrMissingAccount // the exactly-one-account rule failed
    | RecipientMissing
    | TransactionMissing
    | JobPaymentMissing
    | MethodMissing
    | MethodInUse               // an uncaptured hold still uses the card
    | ExternalAccountUnknown
    | InvalidRange              // page / limit of a history query
    | PermissionDenied
    | BelowMinimum
    | WalletInactive
    | InsufficientFunds
    | ProcessorFailure          // a processor call failed
    | RenderFailure             // invoice rendering failed
    | UnsupportedEventType
    | CrossEnvironment
    | UnhandledEventType
    | MalformedPayload          // event body does not carry the object its type names
    | UndeclaredName            // a handler referenced a name that is not in scope

  /** A rejection: the status code the error carries (a thrown plain `Error`
      carries none) and its reason. */
  datatype Error = Error(status: Option<int>, reason: Reason)

  /** A value, or the rejection that replaced it. */
  datatype Result<+T> = Ok(value: T) | Err(error: Error)

  /** The index of the first element satisfying `p`: the storage layer's
      `findOne` over a table kept in insertion order. */
  function FirstIndex<T>(s: seq<T>, p: T -> bool): (r: Option<nat>)
    ensures r.Some? ==> r.value < |s| && p(s[r.value])
    ensures r.Some? ==> forall j :: 0 <= j < r.value ==> !p(s[j])
    ensures r.None? <==> forall j :: 0 <= j < |s| ==> !p(s[j])
  {
    if |s| == 0 then None
    else if p(s[0]) then Some(0)
    else match FirstIndex(s[1..], p)
      case None => None
      case Some(k) => Some(k + 1)
  }

  lemma SingletonElements<T>(s: set<T>, x: T)
    requires |s| == 1 && x in s
    ensures s == {x}
  {
    assert |s - {x}| == 0;
  }

  /** The only element of a set, when it has exactly one. */
  function Sole<T(==)>(s: set<T>): (r: Option<T>)
    ensures r.Some? <==> |s| == 1
    ensures r.Some? ==> s == {r.value}
  {
    if |s| == 1 then
      assert forall a, b :: a in s && b in s ==> a == b by {
        forall a, b | a in s && b in s ensures a == b {
          SingletonElements(s, a);
        }
      }
      var x :| x in s;
      SingletonElements(s, x);
      Some(x)
    else None
  }
}
