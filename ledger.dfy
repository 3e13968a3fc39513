/** The ledger's entities and the tables that hold them.
    Transactions, job payments and payment methods are kept in insertion
    order (a transaction's id is its position; transactions are never
    deleted); the other tables are keyed the way the storage layer upserts
    them. */
module LedgerState {
  import opened Common
  import opened Status

  datatype PaymentAccount = PaymentAccount(
    customerId: Option<CustomerId>,
    connectId: Option<ConnectId>,
    isOnboarded: bool,
    payoutEnabled: bool)

  datatype PaymentTransaction = PaymentTransaction(
    sender: UserId,
    recipient: UserId,
    status: TransactionStatus,
    amount: int,
    tax: int,
    deployeeRevenue: int,
    serviceCharge: int,
    mobilizationFee: int,
    description: string,
    intentId: IntentId,
    fingerprint: string)

  /** Escrow metadata of a job: the pre-fee amount and the fee parts needed to
      recompute the charge at capture time. */
  datatype JobPayment = JobPayment(
    jobId: JobId,
    paymentId: nat,
    amount: int,
    tax: int,
    deployerCharge: int,
    applicationFee: int,
    description: string)

  datatype InvoiceJobStatus = InvoicePending | InvoiceComplete

  /** The ledger facts an invoice records (its rendered document is not modelled). */
  datatype Invoice = Invoice(
    user: UserId,
    jobStatus: InvoiceJobStatus,
    description: string,
    tax: int,
    amount: int,
    fees: int,
    total: int)

  type WalletKey = (UserId, Currency)
  type PayoutAccountKey = (UserId, ExternalAccountId)
  type PayoutTxnKey = (UserId, PayoutId, WalletKey)

  datatype Wallet = Wallet(
    value: int,
    pendingValue: int,
    pendingPayout: int,
    lastPayoutTransaction: Option<PayoutTxnKey>)

  /** A wallet as the get-or-create upsert makes it. */
  const NewWallet: Wallet := Wallet(0, 0, 0, None)

  datatype PayoutAccount = PayoutAccount(isBank: bool, active: bool)

  datatype PayoutTransaction = PayoutTransaction(status: TransactionStatus, amount: int, description: string)

  datatype PaymentMethod = PaymentMethod(
    id: MethodId,
    user: UserId,
    fingerprint: string,
    processorMethodId: string,
    isDefault: bool)

  /** Every table of the ledger except the webhook event log. */
  datatype Tables = Tables(
    accounts: map<UserId, PaymentAccount>,
    txns: seq<PaymentTransaction>,
    jobPayments: seq<JobPayment>,
    invoices: map<nat, Invoice>,
    wallets: map<WalletKey, Wallet>,
    payoutAccounts: map<PayoutAccountKey, PayoutAccount>,
    payoutTxns: map<PayoutTxnKey, PayoutTransaction>,
    methods: seq<PaymentMethod>)

  /** One processor balance bucket: its currency, its amount, and the part of
      it attributed to bank and to card sources. */
  datatype BalanceBucket = BalanceBucket(currency: Currency, amount: int, bank: int, card: int)

  // ------------------------------------------------------------ lookups

  /** Users whose account carries the processor customer identity `c`. */
  function CustomerMatches(accounts: map<UserId, PaymentAccount>, c: CustomerId): set<UserId>
  {
    set u | u in accounts && accounts[u].customerId == Some(c)
  }

  /** Users whose account carries the connected-account identity `a`; an
      absent identity matches accounts that have none, as a null filter does. */
  function ConnectMatches(accounts: map<UserId, PaymentAccount>, a: Option<ConnectId>): set<UserId>
  {
    set u | u in accounts && accounts[u].connectId == a
  }

  /** A transfer destination names an existing payee account. */
  predicate RecipientExists(t: Tables, destination: Option<ConnectId>)
  {
    destination.Some? && exists u :: u in t.accounts && t.accounts[u].connectId == destination
  }

  /** The first transaction of `sender` for processor intent `intent`. */
  function FindTxn(t: Tables, intent: IntentId, sender: UserId): (r: Option<nat>)
    ensures r.Some? ==> r.value < |t.txns| && t.txns[r.value].intentId == intent && t.txns[r.value].sender == sender
    ensures r.None? ==> forall j :: 0 <= j < |t.txns| ==> !(t.txns[j].intentId == intent && t.txns[j].sender == sender)
  {
    FirstIndex(t.txns, (x: PaymentTransaction) => x.intentId == intent && x.sender == sender)
  }

  /** The get-or-create upsert of the wallet for (user, currency). */
  function EnsureWallet(wallets: map<WalletKey, Wallet>, k: WalletKey): (r: map<WalletKey, Wallet>)
    ensures r.Keys == wallets.Keys + {k}
    ensures forall j :: j in wallets ==> r[j] == wallets[j]
    ensures k !in wallets ==> r[k] == NewWallet
  {
    if k in wallets then wallets else wallets[k := NewWallet]
  }

  /** Sum of the amounts of the buckets in `currency`, in bucket order. */
  function SumAvailable(buckets: seq<BalanceBucket>, currency: Currency): int
  {
    if |buckets| == 0 then 0
    else SumAvailable(buckets[..|buckets| - 1], currency)
         + (if buckets[|buckets| - 1].currency == currency then buckets[|buckets| - 1].amount else 0)
  }

  /** Sum of the bank (or card) source parts of the buckets in `currency`. */
  function SumSourceType(buckets: seq<BalanceBucket>, currency: Currency, isBank: bool): int
  {
    if |buckets| == 0 then 0
    else SumSourceType(buckets[..|buckets| - 1], currency, isBank)
         + (var b := buckets[|buckets| - 1];
            if b.currency == currency then (if isBank then b.bank else b.card) else 0)
  }

  /** The sums only see buckets of the requested currency. */
  lemma {:induction false} SumAvailableOtherCurrencies(buckets: seq<BalanceBucket>, currency: Currency)
    requires forall i :: 0 <= i < |buckets| ==> buckets[i].currency != currency
    ensures SumAvailable(buckets, currency) == 0 && SumSourceType(buckets, currency, true) == 0
            && SumSourceType(buckets, currency, false) == 0
  {
    if |buckets| > 0 {
      SumAvailableOtherCurrencies(buckets[..|buckets| - 1], currency);
    }
  }

  /** Summing is additive over concatenated balance lists. */
  lemma {:induction false} SumAvailableAppend(a: seq<BalanceBucket>, b: seq<BalanceBucket>, currency: Currency)
    ensures SumAvailable(a + b, currency) == SumAvailable(a, currency) + SumAvailable(b, currency)
  {
    if |b| == 0 {
      assert a + b == a;
    } else {
      assert (a + b)[..|a + b| - 1] == a + b[..|b| - 1];
      SumAvailableAppend(a, b[..|b| - 1], currency);
    }
  }
}
