# Delivery fee rule

A model of the parcel delivery fee rule `calculateDeliveryFee(distanceKm, weightKg)`
and of the three single-defect copies of it that the repository keeps for mutation
testing. Everything is pure and is modelled as functions over exact `real` numbers.
A rejected call (`IllegalArgumentException`) is the result `FeeResult.Invalid`.

- `TierTable` (`tier_table.dfy`) is a reference definition of a step table as data.
  Each row covers the values up to its bound that no earlier row claimed, and values
  above every bound fall into an open-ended last tier. The model proves generic facts
  about it: the chosen row is the first one that covers the value, and a larger value never falls into an
  earlier tier.
- `DeliveryService` (`delivery_service.dfy`) is the reference rule. It has the class's
  constants, the distance chain `DistanceFee`, the weight chain `WeightFee` and
  `CalculateDeliveryFee`. It also builds the two tariff tables from the same constants
  and proves that the if/else chains charge exactly what the tables assign. It then
  proves monotonicity, the boundary values and the decision table.
- `DeliveryServiceMutantSurvived`, `DeliveryServiceMutantKilled` and
  `DeliveryServiceMutantEquivalent` are full copies, as in the source. Each has its own
  guard, distance chain and weight chain. The lemmas in each one state where the copy
  agrees with the original and where it does not.
- `Mutation` (`mutation.dfy`) says that an input kills a mutant when the two outcomes
  differ. It names the inputs that kill each mutant and proves the verdicts: the
  equivalent mutant is equivalent, and each of the other two is killed by some input.

The mutant classes declare their own copies of the constants, all with the original's
values. The model shares the constants of module `DeliveryService` instead.

## Model

| member | source | states |
|---|---|---|
| TierTable.Index | src/main/java/ro/tss/delivery/DeliveryService.java:54-72 | the chosen tier is the first whose bound covers the value (every earlier bound lies below it), or the open-ended tier when none does |
| TierTable.Lookup | src/main/java/ro/tss/delivery/DeliveryService.java:54-72 | a looked-up amount is always one of the table's amounts or the open-ended tier's |
| TierTable.IndexMonotone | src/main/java/ro/tss/delivery/DeliveryService.java:54-72 | a larger value never falls into an earlier tier |
| TierTable.LookupMonotone | src/main/java/ro/tss/delivery/DeliveryService.java:64-72 | with non-decreasing amounts per tier, the looked-up amount is non-decreasing in the value |
| DeliveryService.DistanceFee | src/main/java/ro/tss/delivery/DeliveryService.java:52-60 | for a non-negative distance the distance fee lies between 0.30·d and 0.50·d |
| DeliveryService.WeightFee | src/main/java/ro/tss/delivery/DeliveryService.java:62-72 | the surcharge is always one of 0.00, 4.50, 8.00, 15.00 |
| DeliveryService.CalculateDeliveryFee | src/main/java/ro/tss/delivery/DeliveryService.java:45-76 | the call is rejected if and only if distance ≤ 0 or weight ≤ 0; an accepted call costs strictly more than the 5.00 base |
| DeliveryService.DistanceFeeFollowsRateTable | src/main/java/ro/tss/delivery/DeliveryService.java:17-60 | the distance chain charges distance × the rate the table gives (0.50 up to 10 km inclusive, 0.40 up to 50 km inclusive, 0.30 beyond) |
| DeliveryService.WeightFeeFollowsSurchargeTable | src/main/java/ro/tss/delivery/DeliveryService.java:26-72 | the weight chain charges the table's surcharge (thresholds 2, 5, 15, each inclusive on the lower tier) |
| DeliveryService.FeeFollowsTariffTables | src/main/java/ro/tss/delivery/DeliveryService.java:45-75 | an accepted call costs 5.00 plus the distance table's charge plus the surcharge table's charge |
| DeliveryService.ComponentsIndependent | src/main/java/ro/tss/delivery/DeliveryService.java:52-75 | a change of weight moves the fee by the same amount at every distance (the components are independent) |
| DeliveryService.WeightFeeNonDecreasing | src/main/java/ro/tss/delivery/DeliveryService.java:62-72 | the surcharge never decreases as the weight grows |
| DeliveryService.DistanceFeeIncreasingWithinTier | src/main/java/ro/tss/delivery/DeliveryService.java:52-60 | within one distance tier the distance fee strictly increases with distance |
| DeliveryService.DistanceFeeDropsPastThresholds | src/main/java/ro/tss/delivery/DeliveryService.java:54-60 | just past 10 km (below 12.5) and just past 50 km (below 200/3) the fee is lower than at the threshold itself |
| DeliveryService.DistanceFeeNotMonotone | src/main/java/ro/tss/delivery/DeliveryService.java:54-60 | some longer trip costs less than a shorter one |
| DeliveryService.BoundaryValues | src/test/java/ro/tss/delivery/BoundaryValueAnalysisTest.java:76-278 | the boundary-value cases: ±0.01 around 0, 10 and 50 km; 2, 5 and 15 kg fall into the lower tier; zero and negative inputs are rejected |
| DeliveryService.DecisionTable | src/test/java/ro/tss/delivery/CauseEffectGraphingTest.java:252-271 | the twelve decision-table fees, from (5,1)→7.50 to (75,20)→42.50 |
| DeliveryServiceMutantSurvived.DistanceFee | src/main/java/ro/tss/delivery/DeliveryServiceMutantSurvived.java:89-96 | the mutant's distance chain equals the original's |
| DeliveryServiceMutantSurvived.WeightFee | src/main/java/ro/tss/delivery/DeliveryServiceMutantSurvived.java:98-107 | the mutant's weight chain equals the original's |
| DeliveryServiceMutantSurvived.CalculateDeliveryFee | src/main/java/ro/tss/delivery/DeliveryServiceMutantSurvived.java:80-110 | rejected if and only if distance < 0 or weight ≤ 0; an accepted call costs at least the base |
| DeliveryServiceMutantSurvived.AgreesAwayFromZeroDistance | src/main/java/ro/tss/delivery/DeliveryServiceMutantSurvived.java:84-109 | for every non-zero distance and every weight, the outcome (rejection included) is the original's |
| DeliveryServiceMutantSurvived.ZeroDistanceCharged | src/main/java/ro/tss/delivery/DeliveryServiceMutantSurvived.java:29-31 | at zero distance with a valid weight the mutant charges 5.00 + surcharge where the original rejects |
| DeliveryServiceMutantSurvived.DiffersExactlyAtZeroDistance | src/main/java/ro/tss/delivery/DeliveryServiceMutantSurvived.java:21-28 | the mutant differs from the original exactly at distance 0 with weight > 0 |
| DeliveryServiceMutantSurvived.Examples | src/test/java/ro/tss/delivery/MutantTest.java:144-188 | (5,1)→7.50 as the original, (0,1)→5.00, −0.01 km still rejected |
| DeliveryServiceMutantKilled.DistanceFee | src/main/java/ro/tss/delivery/DeliveryServiceMutantKilled.java:61-72 | the mutated distance chain differs from the original's at exactly 10 km |
| DeliveryServiceMutantKilled.WeightFee | src/main/java/ro/tss/delivery/DeliveryServiceMutantKilled.java:74-83 | the mutant's weight chain equals the original's |
| DeliveryServiceMutantKilled.CalculateDeliveryFee | src/main/java/ro/tss/delivery/DeliveryServiceMutantKilled.java:56-86 | the guard is the original's: rejected if and only if distance ≤ 0 or weight ≤ 0; an accepted call costs more than the base |
| DeliveryServiceMutantKilled.AgreesAwayFromTen | src/main/java/ro/tss/delivery/DeliveryServiceMutantKilled.java:21-27 | for every distance other than 10 km the outcome is the original's |
| DeliveryServiceMutantKilled.UnderchargesAtTen | src/main/java/ro/tss/delivery/DeliveryServiceMutantKilled.java:29-38 | at 10 km with any valid weight the original charges exactly 1.00 more than the mutant |
| DeliveryServiceMutantKilled.DiffersExactlyAtTen | src/main/java/ro/tss/delivery/DeliveryServiceMutantKilled.java:19-27 | the mutant differs from the original exactly at 10 km with weight > 0 |
| DeliveryServiceMutantKilled.Examples | src/test/java/ro/tss/delivery/MutantTest.java:87-135 | (10,1)→9.00 against the original's 10.00; equal at 9.99 and 10.01 |
| DeliveryServiceMutantEquivalent.DistanceFee | src/main/java/ro/tss/delivery/DeliveryServiceMutantEquivalent.java:55-62 | the mutant's distance chain equals the original's |
| DeliveryServiceMutantEquivalent.WeightFee | src/main/java/ro/tss/delivery/DeliveryServiceMutantEquivalent.java:64-78 | the light-tier charge 0.0·w is zero, and the whole chain equals the original's |
| DeliveryServiceMutantEquivalent.CalculateDeliveryFee | src/main/java/ro/tss/delivery/DeliveryServiceMutantEquivalent.java:50-53 | the guard is the original's: rejected if and only if distance ≤ 0 or weight ≤ 0 |
| DeliveryServiceMutantEquivalent.AgreesEverywhere | src/main/java/ro/tss/delivery/DeliveryServiceMutantEquivalent.java:18-26 | on every input, valid or not, the outcome is the original's |
| Mutation.KillingInputs | src/test/java/ro/tss/delivery/MutantTest.java:42-188 | no input kills the equivalent mutant; exactly (10, w>0) kills the killed one; exactly (0, w>0) kills the survived one |
| Mutation.Verdicts | src/test/java/ro/tss/delivery/MutantTest.java:10-17 | the equivalent mutant is equivalent to the original; the killed and survived mutants are not |
| Mutation.ComparisonTables | src/test/java/ro/tss/delivery/MutantTest.java:221-262 | (5,1) kills no version; (10,1) kills only the killed mutant |

## Left out

- IEEE-754 `double` arithmetic is not modelled. Fees are exact reals, so the 0.001 test tolerance is not needed. The model also does not capture rounding, for example 10.01 × 0.40 not being exactly 4.004 as a double.
- NaN inputs are not modelled. In the source, a NaN distance or weight passes the guard, because every comparison with NaN is false. This is a floating-point artefact.
- Negative zero is not modelled. `-0.0` passes the survived mutant's `< 0` guard in the source. Over the reals it is simply 0, so the model accepts it in the same way.
- The exception class and its message text are not modelled. A rejection is the single result `Invalid`.
- The JUnit test classes are not modelled as code. This includes the console output of the comparison tests. Their expected values appear only as the example lemmas above.
- The currency unit (RON) is left out. It appears only in comments.
