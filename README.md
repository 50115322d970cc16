# Opportunity score for an arbitrage product — Dafny model

This project models the scoring handler `calculateScore` of the Online
Arbitrage Scoring Tool's product controller, and proves what it promises.
The handler takes a product's catalogue figures and the user's cost price.
It works as follows:

- It rejects a missing or non-positive cost price.
- It estimates marketplace fees: a 15% referral fee plus a flat $5.00
  fulfilment fee.
- It derives net profit and ROI.
- It starts from a baseline score of 50 and adds four banded components:
  ROI, best-seller rank (BSR), FBA seller count and unit weight. A missing
  or invalid input gets a fixed fallback value.
- It clamps the total to 1..100.

Layout:

- `wrappers.dfy` (module `Wrappers`): the `Option` type. A rank, seller
  count or weight that was absent or not a number is `None`; a cost price
  that is `None` was undefined or null.
- `score_spec.dfy` (module `ScoreSpec`): the request (`ProductInput`), the
  outcome (`Rejected | Scored(score, fees, netProfit, roi)`), and the rules
  as pure functions. `Evaluate` is the whole handler.
- `product_controller.dfy` (module `ProductController`): the handler as the
  source runs it. Local variables are assigned step by step. Each component
  comes from an if/else ladder and is added to a running `score`, which is
  then clamped. The method's postcondition equates its outcome with
  `Evaluate`.
- `score_properties.dfy` (module `ScoreProperties`): lemmas. They cover:
  - the band tables and their inclusive bounds;
  - monotonicity of each component;
  - the ROI ladder restated as break-even selling prices (`PriceForRoi`,
    `RoiPointsByPrice`), and a proof that both forms agree;
  - the exact form and range of the final score;
  - two worked requests.

Money, ROI and weight are exact `real`s. The rank and seller count are
`int`s that have already been parsed. JavaScript's `Math.round` at
productController.js:175 is the identity here, because every component is
a whole number. So the score is an `int`.

The handler has no override for a loss. A negative ROI earns 0 ROI points
and changes nothing else; `LossStillScoresHigh` shows a loss-making request
that scores 95. Fees are one flat estimate: there are no size tiers and no
per-category referral rates.

## Model

| member | source | states |
|---|---|---|
| ScoreSpec.ValidCostPrice | server/src/controllers/productController.js:82-84 | the guard fails, and the request is rejected, exactly when the cost price is missing (undefined or null) or at most 0 |
| ScoreSpec.EstimatedFees | server/src/controllers/productController.js:98-100 | the fee is 15% of the selling price plus the flat $5 fee; the price is recoverable from the fee; for a non-negative price the fee lies between $5 and $5 plus the price |
| ScoreSpec.NetProfit | server/src/controllers/productController.js:105 | net profit, fees and cost add up to the selling price |
| ScoreSpec.Roi | server/src/controllers/productController.js:106 | for a positive cost, ROI times cost equals 100 times the net profit, and ROI is negative exactly when the sale loses money; otherwise the defensive branch gives 0 |
| ScoreSpec.RoiPoints | server/src/controllers/productController.js:114-121 | the ROI component is one of 0, 5, 15, 25, 30, and a negative ROI earns 0 |
| ScoreSpec.BsrPoints | server/src/controllers/productController.js:125-139 | the rank component is one of 0, 5, 10, 20, 25, 30, and a missing or non-positive rank earns 0 |
| ScoreSpec.CompetitionPoints | server/src/controllers/productController.js:142-155 | the competition component is one of 0, 5, 10, 15, 20, and a missing or negative seller count earns exactly 5 |
| ScoreSpec.WeightPoints | server/src/controllers/productController.js:159-171 | the weight component is one of 1, 3, 4, 7, 10, and it is 3 exactly when the weight is missing or non-positive |
| ScoreSpec.ClampScore | server/src/controllers/productController.js:174-175 | the result lies in 1..100, leaves values already in range unchanged, and maps values above or below to the nearest bound |
| ScoreSpec.RawScore | server/src/controllers/productController.js:112-171 | the baseline 50 plus the four components accumulated before the clamp lies in 51..140, since every component is at least 0 and the weight component at least 1 |
| ScoreSpec.Evaluate | server/src/controllers/productController.js:81-177 | a request is rejected exactly when its cost price is absent or not positive; a scored request has a score in 1..100 and profit plus fees plus cost equal to the selling price |
| ProductController.CalculateScore | server/src/controllers/productController.js:75-177 | the imperative handler (guard, fee and ROI locals, four if/else ladders accumulated into `score`, clamp) produces exactly `Evaluate`'s outcome, and rejects exactly the invalid cost prices |
| ProductController.ScoreTwice | server/src/controllers/productController.js:75-177 | determinism: two calls on the same request return identical outcomes (no clock, randomness or state is read) |
| ScoreProperties.RoiPointsTable | server/src/controllers/productController.js:115-120 | the ROI bands with inclusive lower bounds, each as an if-and-only-if: at least 100% gives 30, 50% up to 100% gives 25, 30% up to 50% gives 15, 15% up to 30% gives 5, below 15% gives 0 |
| ScoreProperties.RoiPointsMonotone | server/src/controllers/productController.js:115-120 | a higher ROI never earns fewer points |
| ScoreProperties.PriceForRoi | server/src/controllers/productController.js:98-106 | selling at this price, for a positive cost, yields exactly the requested ROI |
| ScoreProperties.RoiAtLeast | server/src/controllers/productController.js:98-106 | for a positive cost, ROI reaches a threshold if and only if the selling price reaches that threshold's break-even price |
| ScoreProperties.RoiPointsAgree | server/src/controllers/productController.js:98-120 | the ROI component equals the reference ladder stated on selling-price thresholds |
| ScoreProperties.RoiMonotoneInPrice | server/src/controllers/productController.js:100-120 | holding the cost fixed, raising the selling price never lowers the ROI or the ROI component |
| ScoreProperties.LossBelowBreakEven | server/src/controllers/productController.js:105-120 | a sale loses money if and only if its price is below the zero-ROI break-even price, and a loss earns no ROI points |
| ScoreProperties.BsrPointsTable | server/src/controllers/productController.js:126-138 | the rank bands 30/25/20/10/5 with inclusive upper bounds 1000/10000/50000/100000/250000; 0 for larger, missing or non-positive ranks |
| ScoreProperties.BsrPointsMonotone | server/src/controllers/productController.js:128-134 | among positive ranks, a lower rank never earns fewer points |
| ScoreProperties.CompetitionPointsTable | server/src/controllers/productController.js:143-154 | the seller bands 20/15/10/5 with inclusive upper bounds 1/3/7/15, 0 above 15; a missing or negative count gives exactly 5 |
| ScoreProperties.CompetitionPointsMonotone | server/src/controllers/productController.js:145-150 | among non-negative counts, fewer sellers never earn fewer points |
| ScoreProperties.WeightPointsTable | server/src/controllers/productController.js:160-170 | the weight bands 10/7/4 with inclusive upper bounds 1/3/5 lb, 1 above 5 lb; a missing or non-positive weight gives exactly 3 |
| ScoreProperties.WeightPointsMonotone | server/src/controllers/productController.js:162-166 | among positive weights, a lighter unit never earns fewer points |
| ScoreProperties.FinalScoreExact | server/src/controllers/productController.js:112-175 | the sum before clamping lies in 51..140; the score is exactly min(100, sum), so it is at least 51 and the lower clamp never acts |
| ScoreProperties.ScoredFigures | server/src/controllers/productController.js:98-106 | a scored request reports fees = price × 0.15 + 5, net profit = price − fees − cost, and ROI × cost = 100 × net profit |
| ScoreProperties.ScoreMonotoneInPrice | server/src/controllers/productController.js:98-175 | holding everything else fixed, a higher selling price never lowers the final score |
| ScoreProperties.ScoreMonotoneInRank | server/src/controllers/productController.js:126-139 | holding everything else fixed, replacing the rank by a positive rank at least as good never lowers the score; any positive rank is at least as good as a missing or non-positive one |
| ScoreProperties.ScoreMonotoneInSellers | server/src/controllers/productController.js:143-155 | holding everything else fixed, a smaller non-negative seller count never lowers the score |
| ScoreProperties.ScoreMonotoneInWeight | server/src/controllers/productController.js:160-171 | holding everything else fixed, a lighter positive weight never lowers the score |
| ScoreProperties.SampleProductScore | server/src/controllers/productController.js:98-175 | price 49.99, cost 15.00, rank 1500, 5 sellers, 0.75 lb: fees 12.4985, net profit 22.4915, ROI about 150%, score 100 (sum 125 clamped) |
| ScoreProperties.LossStillScoresHigh | server/src/controllers/productController.js:105-175 | the same product at cost 48.00 loses money, yet scores 95: a loss is not a deal-breaker in this handler |

## Left out

- `lookupProduct` (productController.js:29-71) is left out. It returns hard-coded placeholder data instead of calling the catalogue API. `SampleProductScore` reuses its sample figures as a worked request.
- The PA-API and OpenAI clients (productController.js:3-26) are commented out. They are foreign network services.
- Logging is left out. This includes the BSR check at productController.js:86-90, which only logs and changes nothing.
- The explanation string (productController.js:182) and its `toFixed` formatting are left out, along with the Express `res.status().json()` plumbing. A rejection is the `Rejected` outcome. `Scored` carries the score together with the handler's local fee, net profit and ROI values; the source's 200 response body (productController.js:185-193) holds only the score and the explanation, where those figures appear only as rounded text, and its metric fields are commented out.
- JavaScript's `parseInt`/`parseFloat` coercion is not modelled. The rank, seller count and weight arrive already parsed, and a value that is absent or not a number is `None`.
- Requests on which the handler throws are not modelled. When the selling price is absent, `null` or not a JavaScript number, or the cost price is a non-number that JavaScript's `<=` does not convert to a value at most 0 (`"15"`, `"abc"`, `true`, `{}` pass the guard at productController.js:82), the call `toFixed(2)` on it at productController.js:182 throws before the response at productController.js:185, so no score is sent. A non-number cost price that converts to a value at most 0 (`false`, `""`, `"0"`, `"-3"`) is rejected at productController.js:82-83 like a non-positive number. The model rules the throwing requests out by typing the selling price as `real` and the cost price as `Option<real>`.
- Floating point is not modelled. Money and ROI are exact reals, so an IEEE-754 rounding that lands an ROI just below a band threshold (for example 99.999…% instead of 100%) is not captured.
- The model covers only the controller. The persistence controller, authentication, Mongoose models, React client and server wiring are all outside it.
