/** The fee arithmetic of job payments and payouts, in integer minor units
    (cents). `Math.ceil(x * 0.125)` of the source is `Ceil8(x)`: the product
    is exact in double precision for the amounts involved, so the model needs
    no floating point. */
module Fees {

  /** Jobs below this amount carry the small mobilization fee. */
  const SmallJobThreshold: int := 5000
  const SmallMobilizationFee: int := 250
  const LargeMobilizationFee: int := 450

  /** `calculateStripeFee`: the flat mobilization fee of a job amount. */
  function MobilizationFee(amount: int): (fee: int)
    ensures fee == SmallMobilizationFee || fee == LargeMobilizationFee
  {
    if amount < SmallJobThreshold then SmallMobilizationFee else LargeMobilizationFee
  }

  /** `Math.ceil(x * 0.125)`: the least integer whose eighth-multiple reaches x. */
  function Ceil8(x: int): (r: int)
    ensures 8 * r - 8 < x <= 8 * r
  {
    (x + 7) / 8
  }

  /** The fee breakdown of a job paid by a deployer (payer) to a deployee (payee). */
  datatype JobFees = JobFees(
    mobilizationFee: int,
    percentageFee: int,
    deployerFee: int,
    deployeeFee: int,
    tax: int,
    applicationFee: int,
    holdAmount: int,       // what the payer is charged
    deployeeRevenue: int)  // what reaches the payee

  /** Fees of a job of base `amount` with `tax` (from the tax table, which is
      not part of this model). */
  function ComputeJobFees(amount: int, tax: int): (f: JobFees)
    ensures f.mobilizationFee == MobilizationFee(amount)
    ensures 8 * f.percentageFee - 8 < amount <= 8 * f.percentageFee
    ensures f.deployerFee == f.deployeeFee == f.mobilizationFee + f.percentageFee
    ensures f.tax == tax
    ensures f.applicationFee == f.deployerFee + f.deployeeFee + f.tax
    ensures f.holdAmount == amount + f.deployerFee + f.tax
    ensures f.deployeeRevenue == amount - f.deployeeFee
    // money is conserved: the hold splits into the platform's fee and the payee's revenue
    ensures f.holdAmount == f.applicationFee + f.deployeeRevenue
  {
    var mob := MobilizationFee(amount);
    var pct := Ceil8(amount);
    var deployerFee := mob + pct;
    var deployeeFee := mob + pct;
    JobFees(mob, pct, deployerFee, deployeeFee, tax,
            deployerFee + deployeeFee + tax, amount + deployerFee + tax, amount - deployeeFee)
  }

  /** The figures written at capture time. */
  datatype CaptureFigures = CaptureFigures(amount: int, tax: int, applicationFee: int, deployeeRevenue: int)

  /** Capture-time recomputation. `requested` is the amount in the request
      (0 when absent); it is compared with the held total `heldAmount`. When it
      differs, tax is recomputed (`newTax`) and only the tax part of the
      application fee moves; otherwise the held figures stand. */
  function RecomputeAtCapture(heldAmount: int, heldTax: int, applicationFee: int,
                              deployerCharge: int, requested: int, newTax: int): (c: CaptureFigures)
    ensures requested != 0 && requested != heldAmount ==>
      c.tax == newTax && c.applicationFee == applicationFee - heldTax + newTax
      && c.amount == requested + deployerCharge + newTax
    ensures !(requested != 0 && requested != heldAmount) ==>
      c == CaptureFigures(heldAmount, heldTax, applicationFee, heldAmount - applicationFee)
    ensures c.deployeeRevenue == c.amount - c.applicationFee
  {
    if requested != 0 && requested != heldAmount then
      var fee := applicationFee - heldTax + newTax;
      var total := requested + deployerCharge + newTax;
      CaptureFigures(total, newTax, fee, total - fee)
    else
      CaptureFigures(heldAmount, heldTax, applicationFee, heldAmount - applicationFee)
  }

  /** The payout service fee and the amount actually paid out. */
  datatype PayoutSplit = PayoutSplit(fee: int, sent: int)

  function SplitPayout(amount: int): (p: PayoutSplit)
    ensures p.fee + p.sent == amount
    ensures 8 * p.fee - 8 < amount <= 8 * p.fee
  {
    var fee := Ceil8(amount);
    PayoutSplit(fee, amount - fee)
  }

  // ---------------------------------------------------------------- lemmas

  /** The two bands of `calculateStripeFee`, with the boundary in the upper band. */
  lemma MobilizationFeeBands(amount: int)
    ensures amount < 5000 <==> MobilizationFee(amount) == 250
    ensures amount >= 5000 <==> MobilizationFee(amount) == 450
  {
  }

  lemma MobilizationFeeMonotone(a: int, b: int)
    requires a <= b
    ensures MobilizationFee(a) <= MobilizationFee(b)
  {
  }

  /** `Ceil8` is exactly the ceiling of x/8: any integer whose eighth-multiple
      reaches x is at least `Ceil8(x)`. */
  lemma Ceil8IsLeast(x: int, k: int)
    requires x <= 8 * k
    ensures Ceil8(x) <= k
  {
  }

  lemma Ceil8Monotone(x: int, y: int)
    requires x <= y
    ensures Ceil8(x) <= Ceil8(y)
  {
    Ceil8IsLeast(x, Ceil8(y));
  }

  /** On positive amounts the percentage fee is positive and below the amount
      (for amounts above one cent), hence so is each party's fee part. */
  lemma PercentageFeeBounds(amount: int)
    requires amount > 1
    ensures 0 < Ceil8(amount) < amount
  {
  }

  /** A payout above the minimum sends a positive amount smaller than requested. */
  lemma PayoutSplitPositive(amount: int)
    requires amount > 1000
    ensures 0 < SplitPayout(amount).fee < amount
    ensures 0 < SplitPayout(amount).sent < amount
  {
  }

  /** Capturing the unchanged amount keeps the revenue fixed at authorization. */
  lemma {:induction false} CaptureUnchangedKeepsRevenue(amount: int, tax: int, newTax: int)
    ensures var f := ComputeJobFees(amount, tax);
            var c := RecomputeAtCapture(f.holdAmount, f.tax, f.applicationFee, f.deployerFee, 0, newTax);
            c.amount == f.holdAmount && c.deployeeRevenue == amount - f.deployeeFee
            && c.applicationFee == f.deployerFee + f.deployeeFee + f.tax
  {
  }

  /** Capturing a different base amount: fixed fees do not rescale, so the payee
      receives the new base amount minus the fee fixed at authorization, and the
      payer pays the new base amount, the payer's fee and the new tax. */
  lemma CaptureChangedAmount(amount: int, tax: int, requested: int, newTax: int)
    requires requested != 0
    requires requested != ComputeJobFees(amount, tax).holdAmount
    ensures var f := ComputeJobFees(amount, tax);
            var c := RecomputeAtCapture(f.holdAmount, f.tax, f.applicationFee, f.deployerFee, requested, newTax);
            c.deployeeRevenue == requested - f.deployeeFee
            && c.applicationFee == f.deployerFee + f.deployeeFee + newTax
            && c.amount == requested + f.deployerFee + newTax
  {
  }

  /** The capture compares the requested BASE amount with the held TOTAL: for
      every job, a request whose base amount equals the held total keeps the
      held figures (no fee or tax is added on top of it), while a request one
      cent lower is charged that amount plus the payer's fee and the new tax.
      For a $10 job without tax: 1375 captures 1375, 1374 captures 1749. */
  lemma CaptureComparesWithTotal(amount: int, tax: int, newTax: int)
    ensures var f := ComputeJobFees(amount, tax);
            RecomputeAtCapture(f.holdAmount, f.tax, f.applicationFee, f.deployerFee, f.holdAmount, newTax)
            == CaptureFigures(f.holdAmount, tax, f.applicationFee, f.deployeeRevenue)
    ensures var f := ComputeJobFees(amount, tax);
            f.holdAmount != 1 ==>
              RecomputeAtCapture(f.holdAmount, f.tax, f.applicationFee, f.deployerFee, f.holdAmount - 1, newTax).amount
              == f.holdAmount - 1 + f.deployerFee + newTax
    ensures ComputeJobFees(1000, 0).holdAmount == 1375
  {
  }

  /** The worked example: a $100 job carries the $4.50 band and a $12.50
      percentage fee, so each party's fee is $17.00. */
  lemma HundredDollarJob(tax: int)
    ensures var f := ComputeJobFees(10000, tax);
            f.mobilizationFee == 450 && f.percentageFee == 1250
            && f.deployerFee == 1700 && f.deployeeFee == 1700
            && f.holdAmount == 11700 + tax && f.deployeeRevenue == 8300
  {
  }
}
