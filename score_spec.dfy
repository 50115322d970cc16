/** The opportunity-scoring rules of the product controller, as pure functions.

    A scoring request carries the user's cost price and the catalogue figures
    (selling price, best-seller rank, FBA seller count, unit weight).  The
    handler rejects a missing or non-positive cost price; otherwise it
    estimates marketplace fees, derives net profit and ROI, and adds four
    banded components to a baseline of 50, clamping the total to 1..100.

    Money, ROI and weight are exact reals; the rank and the seller count are
    integers that have already been parsed.  A rank, seller count or weight
    that was missing or not a number is `None`; a cost price that is `None`
    was undefined or null. */
module ScoreSpec {
  import opened Wrappers

  /** The fields of the request body the handler reads. */
  datatype ProductInput = ProductInput(
    costPrice: Option<real>,
    sellingPrice: real,
    bsr: Option<int>,
    fbaSellers: Option<int>,
    weight: Option<real>)

  /** The handler's answer: a 400 rejection, or a score with the figures behind it. */
  datatype ScoreOutcome =
    | Rejected
    | Scored(score: int, fees: real, netProfit: real, roi: real)

  const ReferralFeeRate: real := 0.15
  const FbaFee: real := 5.0
  const BaseScore: int := 50
  const MinScore: int := 1
  const MaxScore: int := 100

  /** The validation guard: the cost price is present and strictly positive.
      A request fails it exactly when the cost price is missing or at most 0. */
  function ValidCostPrice(costPrice: Option<real>): (ok: bool)
    ensures !ok <==> costPrice == None || costPrice.value <= 0.0
  {
    costPrice.Some? && costPrice.value > 0.0
  }

  // ---------------------------------------------------------------------
  // Fees and profitability
  // ---------------------------------------------------------------------

  /** Fee estimate: a 15% referral fee plus a flat fulfilment fee.  The
      selling price can be recovered from the fee, and a non-negative price
      never costs less than the flat fee. */
  function EstimatedFees(sellingPrice: real): (fees: real)
    ensures sellingPrice == (fees - FbaFee) / ReferralFeeRate
    ensures sellingPrice >= 0.0 ==> FbaFee <= fees <= FbaFee + sellingPrice
  {
    sellingPrice * ReferralFeeRate + FbaFee
  }

  /** Net profit per unit: what is left of the selling price after fees and cost. */
  function NetProfit(sellingPrice: real, costPrice: real): (profit: real)
    ensures profit + EstimatedFees(sellingPrice) + costPrice == sellingPrice
  {
    sellingPrice - EstimatedFees(sellingPrice) - costPrice
  }

  /** ROI in percent of the cost price; 0 when the cost price is not
      positive (a branch the validation guard makes unreachable). */
  function Roi(netProfit: real, costPrice: real): (roi: real)
    ensures costPrice > 0.0 ==> roi * costPrice == netProfit * 100.0
    ensures costPrice > 0.0 ==> (roi < 0.0 <==> netProfit < 0.0)
    ensures costPrice <= 0.0 ==> roi == 0.0
  {
    if costPrice > 0.0 then netProfit / costPrice * 100.0 else 0.0
  }

  // ---------------------------------------------------------------------
  // The four banded components
  // ---------------------------------------------------------------------

  /** ROI component: higher ROI is better, lower bounds inclusive. */
  function RoiPoints(roi: real): (points: int)
    ensures points in {0, 5, 15, 25, 30}
    ensures roi < 0.0 ==> points == 0
  {
    if roi >= 100.0 then 30
    else if roi >= 50.0 then 25
    else if roi >= 30.0 then 15
    else if roi >= 15.0 then 5
    else 0
  }

  /** Sales-rank component: a lower rank is better, upper bounds inclusive;
      a missing or non-positive rank earns nothing. */
  function BsrPoints(bsr: Option<int>): (points: int)
    ensures points in {0, 5, 10, 20, 25, 30}
    ensures (bsr.None? || bsr.value <= 0) ==> points == 0
  {
    match bsr
    case None => 0
    case Some(rank) =>
      if rank > 0 then
        if rank <= 1000 then 30
        else if rank <= 10000 then 25
        else if rank <= 50000 then 20
        else if rank <= 100000 then 10
        else if rank <= 250000 then 5
        else 0
      else 0
  }

  /** Competition component: fewer FBA sellers is better, upper bounds
      inclusive; a missing or negative count earns a neutral 5. */
  function CompetitionPoints(fbaSellers: Option<int>): (points: int)
    ensures points in {0, 5, 10, 15, 20}
    ensures (fbaSellers.None? || fbaSellers.value < 0) ==> points == 5
  {
    match fbaSellers
    case None => 5
    case Some(count) =>
      if count >= 0 then
        if count <= 1 then 20
        else if count <= 3 then 15
        else if count <= 7 then 10
        else if count <= 15 then 5
        else 0
      else 5
  }

  /** Weight component: lighter is better, upper bounds inclusive; a missing
      or non-positive weight earns 3, a value no real weight earns. */
  function WeightPoints(weight: Option<real>): (points: int)
    ensures points in {1, 3, 4, 7, 10}
    ensures points == 3 <==> (weight.None? || weight.value <= 0.0)
  {
    match weight
    case None => 3
    case Some(w) =>
      if w > 0.0 then
        if w <= 1.0 then 10
        else if w <= 3.0 then 7
        else if w <= 5.0 then 4
        else 1
      else 3
  }

  // ---------------------------------------------------------------------
  // The final score
  // ---------------------------------------------------------------------

  /** `Math.max(1, Math.min(100, x))`; rounding is the identity because
      every component is a whole number. */
  function ClampScore(x: int): (score: int)
    ensures MinScore <= score <= MaxScore
    ensures MinScore <= x <= MaxScore ==> score == x
    ensures x > MaxScore ==> score == MaxScore
    ensures x < MinScore ==> score == MinScore
  {
    if x > MaxScore then MaxScore else if x < MinScore then MinScore else x
  }

  /** The baseline plus the four components, before clamping.  Every
      component is at least 0 and the weight component at least 1, so the
      sum never falls below 51; the maxima 30 + 30 + 20 + 10 bound it by 140. */
  function RawScore(input: ProductInput, roi: real): (sum: int)
    ensures BaseScore + 1 <= sum <= BaseScore + 90
  {
    BaseScore + RoiPoints(roi) + BsrPoints(input.bsr)
      + CompetitionPoints(input.fbaSellers) + WeightPoints(input.weight)
  }

  /** The whole handler: reject an invalid cost price, otherwise score. */
  function Evaluate(input: ProductInput): (outcome: ScoreOutcome)
    ensures outcome.Rejected? <==> !ValidCostPrice(input.costPrice)
    ensures outcome.Scored? ==> MinScore <= outcome.score <= MaxScore
    ensures outcome.Scored? ==>
      outcome.netProfit + outcome.fees + input.costPrice.value == input.sellingPrice
  {
    if !ValidCostPrice(input.costPrice) then Rejected
    else
      var costPrice := input.costPrice.value;
      var fees := EstimatedFees(input.sellingPrice);
      var profit := NetProfit(input.sellingPrice, costPrice);
      var roi := Roi(profit, costPrice);
      Scored(ClampScore(RawScore(input, roi)), fees, profit, roi)
  }
}
