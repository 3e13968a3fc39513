/** Payout initiation: the checks a payout request must pass, in order,
    before the service fee is charged and the remainder paid out. */
module PayoutGuard {
  import opened Common
  import opened Fees
  import opened LedgerState

  /** Payouts of at most this many cents are refused. */
  const MinimumPayout: int := 1000

  /** The currency of a request that names none. */
  const DefaultCurrency: Currency := "usd"

  datatype PayoutRequest = PayoutRequest(user: UserId, currency: Option<Currency>, amount: int, isBank: bool)

  function CurrencyOf(r: PayoutRequest): (c: Currency)
    ensures r.currency.None? ==> c == DefaultCurrency
    ensures r.currency.Some? ==> c == r.currency.value
  {
    if r.currency.Some? then r.currency.value else DefaultCurrency
  }

  /** `Payment.payout`. `walletActive` is the verdict of the wallet-activity
      rule on the upserted wallet (that rule is not part of this model),
      `liveBalance` the processor's available balance (`None` when the
      balance could not be retrieved), and `processorOk` whether the fee
      charge and the payout call both went through. The wallet row is
      created (get-or-create) before the activity check, so a request refused
      after the minimum check may still have created it. */
  function Payout(t: Tables, r: PayoutRequest, walletActive: bool, liveBalance: Option<seq<BalanceBucket>>, processorOk: bool)
    : (res: (Tables, Result<PayoutSplit>))
    ensures r.amount <= MinimumPayout ==> res == (t, Err(Error(None, BelowMinimum)))
    ensures res.0 == t || res.0 == t.(wallets := EnsureWallet(t.wallets, (r.user, CurrencyOf(r))))
    ensures res.1.Ok? ==> res.1.value.fee + res.1.value.sent == r.amount && liveBalance.Some? && processorOk
  {
    if r.amount <= MinimumPayout then (t, Err(Error(None, BelowMinimum)))
    else
      var k := (r.user, CurrencyOf(r));
      var t1 := t.(wallets := EnsureWallet(t.wallets, k));
      var w := t1.wallets[k];
      if !walletActive then (t1, Err(Error(None, WalletInactive)))
      else if w.value - w.pendingPayout < r.amount then (t1, Err(Error(None, InsufficientFunds)))
      else if liveBalance.None? then (t1, Err(Error(None, ProcessorFailure)))
      else if SumSourceType(liveBalance.value, CurrencyOf(r), r.isBank) < r.amount then (t1, Err(Error(None, InsufficientFunds)))
      else if !processorOk then (t1, Err(Error(None, ProcessorFailure)))
      else (t1, Ok(SplitPayout(r.amount)))
  }

  /** The local funds a payout may draw on. */
  function Spendable(t: Tables, k: WalletKey): int
  {
    var w := EnsureWallet(t.wallets, k)[k];
    w.value - w.pendingPayout
  }

  /** The guard, in full: a payout goes through exactly when it is above the
      minimum, the wallet is active, local and live funds both cover it and
      the processor accepts it; then fee + payout = amount. Whatever the
      outcome, the only possible change is the get-or-create of the wallet. */
  lemma PayoutOutcome(t: Tables, r: PayoutRequest, walletActive: bool, liveBalance: Option<seq<BalanceBucket>>, processorOk: bool)
    ensures var res := Payout(t, r, walletActive, liveBalance, processorOk);
            && (res.1.Ok? <==>
                  r.amount > MinimumPayout && walletActive
                  && Spendable(t, (r.user, CurrencyOf(r))) >= r.amount
                  && liveBalance.Some? && SumSourceType(liveBalance.value, CurrencyOf(r), r.isBank) >= r.amount
                  && processorOk)
            && (res.1.Ok? ==> res.1.value.fee + res.1.value.sent == r.amount
                              && 0 < res.1.value.sent < r.amount
                              && res.1.value.fee == Ceil8(r.amount))
            && (res.0 == t || res.0 == t.(wallets := EnsureWallet(t.wallets, (r.user, CurrencyOf(r)))))
            && (r.amount <= MinimumPayout ==> res.0 == t)
  {
    if r.amount > MinimumPayout { PayoutSplitPositive(r.amount); }
  }

  /** Each refusal names the first check that failed; the processor is only
      reached (and can only fail) once the local checks have passed: first
      the balance retrieval, then, after the live funds check, the fee charge
      and the payout. */
  lemma PayoutCheckOrder(t: Tables, r: PayoutRequest, walletActive: bool, liveBalance: Option<seq<BalanceBucket>>, processorOk: bool)
    ensures var res := Payout(t, r, walletActive, liveBalance, processorOk);
            var k := (r.user, CurrencyOf(r));
            && (res.1 == Err(Error(None, BelowMinimum)) <==> r.amount <= MinimumPayout)
            && (res.1 == Err(Error(None, WalletInactive)) <==> r.amount > MinimumPayout && !walletActive)
            && (res.1 == Err(Error(None, InsufficientFunds)) <==>
                  r.amount > MinimumPayout && walletActive
                  && (Spendable(t, k) < r.amount
                      || (liveBalance.Some? && SumSourceType(liveBalance.value, CurrencyOf(r), r.isBank) < r.amount)))
            && (res.1 == Err(Error(None, ProcessorFailure)) <==>
                  r.amount > MinimumPayout && walletActive && Spendable(t, k) >= r.amount
                  && (liveBalance.None?
                      || (SumSourceType(liveBalance.value, CurrencyOf(r), r.isBank) >= r.amount && !processorOk)))
  {
  }

  /** Local funds: whenever the request exceeds `value - pendingPayout`, the
      payout is refused for insufficient funds (or an earlier check). */
  lemma PayoutNeverOverdraws(t: Tables, r: PayoutRequest, walletActive: bool, liveBalance: Option<seq<BalanceBucket>>, processorOk: bool)
    requires r.amount > Spendable(t, (r.user, CurrencyOf(r)))
    ensures Payout(t, r, walletActive, liveBalance, processorOk).1.Err?
  {
  }
}
