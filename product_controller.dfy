/** The scoring handler as the controller runs it: validation, then local
    variables that are assigned step by step, each component chosen by an
    if/else ladder and added to a running score that starts at the baseline,
    and finally the clamp.  Its postcondition ties the outcome to the pure
    rules in ScoreSpec, about which ScoreProperties proves the promises. */
module ProductController {
  import opened Wrappers
  import opened ScoreSpec

  method CalculateScore(input: ProductInput) returns (outcome: ScoreOutcome)
    ensures outcome == Evaluate(input)
    ensures outcome.Rejected? <==> !ValidCostPrice(input.costPrice)
    ensures outcome.Rejected? <==> input.costPrice.None? || input.costPrice.value <= 0.0
  {
    // Basic validation
    if input.costPrice.None? || input.costPrice.value <= 0.0 {
      return Rejected;
    }
    var costPrice := input.costPrice.value;
    var sellingPrice := input.sellingPrice;

    // Fee estimate
    var estimatedFees := sellingPrice * ReferralFeeRate + FbaFee;

    // Profitability
    var netProfit := sellingPrice - estimatedFees - costPrice;
    var roi := if costPrice > 0.0 then netProfit / costPrice * 100.0 else 0.0;

    assert roi == Roi(NetProfit(sellingPrice, costPrice), costPrice);
    var score := BaseScore;

    // 1. ROI component
    var roiScore := 0;
    if roi >= 100.0 { roiScore := 30; }
    else if roi >= 50.0 { roiScore := 25; }
    else if roi >= 30.0 { roiScore := 15; }
    else if roi >= 15.0 { roiScore := 5; }
    else { roiScore := 0; }
    assert roiScore == RoiPoints(roi);
    score := score + roiScore;

    // 2. Sales-rank component
    var bsrScore := 0;
    if input.bsr.Some? && input.bsr.value > 0 {
      var bsrNum := input.bsr.value;
      if bsrNum <= 1000 { bsrScore := 30; }
      else if bsrNum <= 10000 { bsrScore := 25; }
      else if bsrNum <= 50000 { bsrScore := 20; }
      else if bsrNum <= 100000 { bsrScore := 10; }
      else if bsrNum <= 250000 { bsrScore := 5; }
      else { bsrScore := 0; }
    } else {
      bsrScore := 0;
    }
    assert bsrScore == BsrPoints(input.bsr);
    score := score + bsrScore;

    // 3. Competition component
    var competitionScore := 0;
    if input.fbaSellers.Some? && input.fbaSellers.value >= 0 {
      var fbaSellersNum := input.fbaSellers.value;
      if fbaSellersNum <= 1 { competitionScore := 20; }
      else if fbaSellersNum <= 3 { competitionScore := 15; }
      else if fbaSellersNum <= 7 { competitionScore := 10; }
      else if fbaSellersNum <= 15 { competitionScore := 5; }
      else { competitionScore := 0; }
    } else {
      competitionScore := 5;
    }
    assert competitionScore == CompetitionPoints(input.fbaSellers);
    score := score + competitionScore;

    // 4. Weight component
    var weightScore := 0;
    if input.weight.Some? && input.weight.value > 0.0 {
      var weightNum := input.weight.value;
      if weightNum <= 1.0 { weightScore := 10; }
      else if weightNum <= 3.0 { weightScore := 7; }
      else if weightNum <= 5.0 { weightScore := 4; }
      else { weightScore := 1; }
    } else {
      weightScore := 3;
    }
    assert weightScore == WeightPoints(input.weight);
    score := score + weightScore;

    // Keep the score within 1..100
    score := if score > MaxScore then MaxScore else score;
    score := if score < MinScore then MinScore else score;

    outcome := Scored(score, estimatedFees, netProfit, roi);
  }

  /** Determinism: the handler reads no clock, randomness or state, so two
      calls on the same request agree on the score and every figure. */
  method ScoreTwice(input: ProductInput) returns (first: ScoreOutcome, second: ScoreOutcome)
    ensures first == second
  {
    first := CalculateScore(input);
    second := CalculateScore(input);
  }
}
