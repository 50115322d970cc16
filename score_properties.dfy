/** What the scoring rules promise: the band tables with their inclusive
    bounds, monotonicity of every component, the ROI ladder restated as
    break-even selling prices, the exact form and range of the final score,
    and two worked requests. */
module ScoreProperties {
  import opened Wrappers
  import opened ScoreSpec

  // ---------------------------------------------------------------------
  // ROI component
  // ---------------------------------------------------------------------

  /** The ROI bands with inclusive lower bounds: 100% earns 30, 15% earns 5,
      anything below 15% (every loss included) earns nothing. */
  lemma RoiPointsTable(roi: real)
    ensures RoiPoints(roi) == 30 <==> roi >= 100.0
    ensures RoiPoints(roi) == 25 <==> 50.0 <= roi < 100.0
    ensures RoiPoints(roi) == 15 <==> 30.0 <= roi < 50.0
    ensures RoiPoints(roi) == 5 <==> 15.0 <= roi < 30.0
    ensures RoiPoints(roi) == 0 <==> roi < 15.0
  {
  }

  /** A higher ROI never earns fewer points. */
  lemma RoiPointsMonotone(a: real, b: real)
    requires a <= b
    ensures RoiPoints(a) <= RoiPoints(b)
  {
  }

  /** The selling price at which a product bought at `costPrice` returns
      exactly `roiPercent`: the cost grown by the ROI plus the flat fee,
      grossed up for the referral fee. */
  function PriceForRoi(costPrice: real, roiPercent: real): (price: real)
    ensures costPrice > 0.0 ==> Roi(NetProfit(price, costPrice), costPrice) == roiPercent
  {
    var target := FbaFee + costPrice * (1.0 + roiPercent / 100.0);
    var price := target / (1.0 - ReferralFeeRate);
    assert NetProfit(price, costPrice) == costPrice * roiPercent / 100.0;
    price
  }

  /** The ROI reaches a threshold exactly when the selling price reaches the
      matching break-even price. */
  lemma RoiAtLeast(sellingPrice: real, costPrice: real, threshold: real)
    requires costPrice > 0.0
    ensures Roi(NetProfit(sellingPrice, costPrice), costPrice) >= threshold
            <==> sellingPrice >= PriceForRoi(costPrice, threshold)
  {
  }

  /** Reference definition of the ROI component in terms of the selling
      price: the band is the highest one whose break-even price is met. */
  function RoiPointsByPrice(sellingPrice: real, costPrice: real): int {
    if sellingPrice >= PriceForRoi(costPrice, 100.0) then 30
    else if sellingPrice >= PriceForRoi(costPrice, 50.0) then 25
    else if sellingPrice >= PriceForRoi(costPrice, 30.0) then 15
    else if sellingPrice >= PriceForRoi(costPrice, 15.0) then 5
    else 0
  }

  /** The ROI component of the handler equals the break-even reference. */
  lemma RoiPointsAgree(sellingPrice: real, costPrice: real)
    requires costPrice > 0.0
    ensures RoiPoints(Roi(NetProfit(sellingPrice, costPrice), costPrice))
            == RoiPointsByPrice(sellingPrice, costPrice)
  {
    RoiAtLeast(sellingPrice, costPrice, 100.0);
    RoiAtLeast(sellingPrice, costPrice, 50.0);
    RoiAtLeast(sellingPrice, costPrice, 30.0);
    RoiAtLeast(sellingPrice, costPrice, 15.0);
  }

  /** Holding the cost fixed, raising the selling price never lowers the
      ROI, nor the ROI component. */
  lemma RoiMonotoneInPrice(costPrice: real, low: real, high: real)
    requires costPrice > 0.0 && low <= high
    ensures Roi(NetProfit(low, costPrice), costPrice) <= Roi(NetProfit(high, costPrice), costPrice)
    ensures RoiPoints(Roi(NetProfit(low, costPrice), costPrice))
            <= RoiPoints(Roi(NetProfit(high, costPrice), costPrice))
  {
    RoiAtLeast(high, costPrice, Roi(NetProfit(low, costPrice), costPrice));
    RoiAtLeast(low, costPrice, Roi(NetProfit(low, costPrice), costPrice));
    RoiPointsAgree(low, costPrice);
    RoiPointsAgree(high, costPrice);
  }

  /** A sale below the break-even price is a loss, and a loss earns no ROI points. */
  lemma LossBelowBreakEven(sellingPrice: real, costPrice: real)
    requires costPrice > 0.0
    ensures NetProfit(sellingPrice, costPrice) < 0.0 <==> sellingPrice < PriceForRoi(costPrice, 0.0)
    ensures NetProfit(sellingPrice, costPrice) < 0.0 ==>
      RoiPoints(Roi(NetProfit(sellingPrice, costPrice), costPrice)) == 0
  {
    RoiAtLeast(sellingPrice, costPrice, 0.0);
  }

  // ---------------------------------------------------------------------
  // Sales-rank component
  // ---------------------------------------------------------------------

  /** The rank bands with inclusive upper bounds; a missing, zero or
      negative rank scores like a rank beyond 250000. */
  lemma BsrPointsTable(rank: int)
    ensures BsrPoints(None) == 0
    ensures BsrPoints(Some(rank)) == 30 <==> 0 < rank <= 1000
    ensures BsrPoints(Some(rank)) == 25 <==> 1000 < rank <= 10000
    ensures BsrPoints(Some(rank)) == 20 <==> 10000 < rank <= 50000
    ensures BsrPoints(Some(rank)) == 10 <==> 50000 < rank <= 100000
    ensures BsrPoints(Some(rank)) == 5 <==> 100000 < rank <= 250000
    ensures BsrPoints(Some(rank)) == 0 <==> rank <= 0 || rank > 250000
  {
  }

  /** Among positive ranks, a better (lower) rank never earns fewer points. */
  lemma BsrPointsMonotone(better: int, worse: int)
    requires 0 < better <= worse
    ensures BsrPoints(Some(worse)) <= BsrPoints(Some(better))
  {
  }

  // ---------------------------------------------------------------------
  // Competition component
  // ---------------------------------------------------------------------

  /** The seller-count bands with inclusive upper bounds; a missing or
      negative count scores exactly 5. */
  lemma CompetitionPointsTable(count: int)
    ensures CompetitionPoints(None) == 5
    ensures CompetitionPoints(Some(count)) == 20 <==> 0 <= count <= 1
    ensures CompetitionPoints(Some(count)) == 15 <==> 1 < count <= 3
    ensures CompetitionPoints(Some(count)) == 10 <==> 3 < count <= 7
    ensures CompetitionPoints(Some(count)) == 5 <==> count < 0 || 7 < count <= 15
    ensures CompetitionPoints(Some(count)) == 0 <==> count > 15
  {
  }

  /** Among non-negative counts, fewer sellers never earn fewer points. */
  lemma CompetitionPointsMonotone(fewer: int, more: int)
    requires 0 <= fewer <= more
    ensures CompetitionPoints(Some(more)) <= CompetitionPoints(Some(fewer))
  {
  }

  // ---------------------------------------------------------------------
  // Weight component
  // ---------------------------------------------------------------------

  /** The weight bands with inclusive upper bounds; a missing, zero or
      negative weight scores exactly 3. */
  lemma WeightPointsTable(w: real)
    ensures WeightPoints(None) == 3
    ensures WeightPoints(Some(w)) == 10 <==> 0.0 < w <= 1.0
    ensures WeightPoints(Some(w)) == 7 <==> 1.0 < w <= 3.0
    ensures WeightPoints(Some(w)) == 4 <==> 3.0 < w <= 5.0
    ensures WeightPoints(Some(w)) == 1 <==> w > 5.0
    ensures WeightPoints(Some(w)) == 3 <==> w <= 0.0
  {
  }

  /** Among positive weights, a lighter unit never earns fewer points. */
  lemma WeightPointsMonotone(lighter: real, heavier: real)
    requires 0.0 < lighter <= heavier
    ensures WeightPoints(Some(heavier)) <= WeightPoints(Some(lighter))
  {
  }

  // ---------------------------------------------------------------------
  // The final score
  // ---------------------------------------------------------------------

  function Min(a: int, b: int): int {
    if a <= b then a else b
  }

  /** The sum before clamping lies in 51..140, so the clamp to 1 never acts:
      the score is exactly the smaller of 100 and the sum, and at least 51. */
  lemma FinalScoreExact(input: ProductInput)
    requires ValidCostPrice(input.costPrice)
    ensures Evaluate(input).Scored?
    ensures 51 <= RawScore(input, Evaluate(input).roi) <= 140
    ensures Evaluate(input).score == Min(MaxScore, RawScore(input, Evaluate(input).roi))
    ensures 51 <= Evaluate(input).score <= 100
  {
  }

  /** The three profitability figures of a scored request. */
  lemma ScoredFigures(input: ProductInput)
    requires ValidCostPrice(input.costPrice)
    ensures Evaluate(input).fees == input.sellingPrice * 0.15 + 5.0
    ensures Evaluate(input).netProfit == input.sellingPrice - Evaluate(input).fees - input.costPrice.value
    ensures Evaluate(input).roi * input.costPrice.value == Evaluate(input).netProfit * 100.0
  {
  }

  /** Holding everything else fixed, a higher selling price never lowers the score. */
  lemma ScoreMonotoneInPrice(input: ProductInput, higherPrice: real)
    requires ValidCostPrice(input.costPrice)
    requires input.sellingPrice <= higherPrice
    ensures Evaluate(input).score <= Evaluate(input.(sellingPrice := higherPrice)).score
  {
    RoiMonotoneInPrice(input.costPrice.value, input.sellingPrice, higherPrice);
  }

  /** Holding everything else fixed, a positive rank at least as good as the
      request's own never lowers the score; against a missing or
      non-positive rank every positive rank is at least as good. */
  lemma ScoreMonotoneInRank(input: ProductInput, better: int)
    requires ValidCostPrice(input.costPrice)
    requires 0 < better
    requires input.bsr.None? || input.bsr.value <= 0 || better <= input.bsr.value
    ensures Evaluate(input).score <= Evaluate(input.(bsr := Some(better))).score
  {
    if input.bsr.Some? && input.bsr.value > 0 {
      BsrPointsMonotone(better, input.bsr.value);
    }
  }

  /** Holding everything else fixed, fewer sellers (both counts
      non-negative) never lower the score. */
  lemma ScoreMonotoneInSellers(input: ProductInput, fewer: int)
    requires ValidCostPrice(input.costPrice)
    requires input.fbaSellers.Some? && 0 <= fewer <= input.fbaSellers.value
    ensures Evaluate(input).score <= Evaluate(input.(fbaSellers := Some(fewer))).score
  {
    CompetitionPointsMonotone(fewer, input.fbaSellers.value);
  }

  /** Holding everything else fixed, a lighter unit (both weights positive)
      never lowers the score. */
  lemma ScoreMonotoneInWeight(input: ProductInput, lighter: real)
    requires ValidCostPrice(input.costPrice)
    requires input.weight.Some? && 0.0 < lighter <= input.weight.value
    ensures Evaluate(input).score <= Evaluate(input.(weight := Some(lighter))).score
  {
    WeightPointsMonotone(lighter, input.weight.value);
  }

  // ---------------------------------------------------------------------
  // Worked requests
  // ---------------------------------------------------------------------

  /** The catalogue's sample product (price 49.99, rank 1500, 5 sellers,
      0.75 lb) bought at 15.00: ROI about 150%, components 30 + 25 + 10 + 10,
      so the sum 125 is clamped to 100. */
  lemma SampleProductScore()
    ensures Evaluate(ProductInput(Some(15.0), 49.99, Some(1500), Some(5), Some(0.75)))
            == Scored(100, 12.4985, 22.4915, 22.4915 / 15.0 * 100.0)
  {
  }

  /** A loss is not a deal-breaker: the same product bought at 48.00 loses
      money, earns no ROI points, and still scores 50 + 0 + 25 + 10 + 10 = 95. */
  lemma LossStillScoresHigh()
    ensures Evaluate(ProductInput(Some(48.0), 49.99, Some(1500), Some(5), Some(0.75))).netProfit < 0.0
    ensures Evaluate(ProductInput(Some(48.0), 49.99, Some(1500), Some(5), Some(0.75))).score == 95
  {
  }
}
