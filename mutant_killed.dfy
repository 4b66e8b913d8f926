/** The "killed" mutant: a copy of the fee rule whose first distance test is
    changed from `distanceKm <= 10` to `distanceKm < 10`. Its guard, weight
    chain and constants are the original's. */
module DeliveryServiceMutantKilled {
  import O = DeliveryService

  /** The mutated distance chain: exactly 10 km falls into the medium tier. It
      differs from the original's at 10 km and nowhere else. */
  function DistanceFee(distanceKm: real): (fee: real)
    ensures fee != O.DistanceFee(distanceKm) <==> distanceKm == O.DISTANCE_THRESHOLD_SHORT
  {
    if distanceKm < O.DISTANCE_THRESHOLD_SHORT then distanceKm * O.RATE_SHORT_DISTANCE
    else if distanceKm <= O.DISTANCE_THRESHOLD_MEDIUM then distanceKm * O.RATE_MEDIUM_DISTANCE
    else distanceKm * O.RATE_LONG_DISTANCE
  }

  /** The mutant's weight chain (unchanged). */
  function WeightFee(weightKg: real): (fee: real)
    ensures fee == O.WeightFee(weightKg)
  {
    if weightKg <= O.WEIGHT_THRESHOLD_LIGHT then O.WEIGHT_FEE_LIGHT
    else if weightKg <= O.WEIGHT_THRESHOLD_MEDIUM then O.WEIGHT_FEE_MEDIUM
    else if weightKg <= O.WEIGHT_THRESHOLD_HEAVY then O.WEIGHT_FEE_HEAVY
    else O.WEIGHT_FEE_VERY_HEAVY
  }

  /** The mutated rule; its guard is the original's. */
  function CalculateDeliveryFee(distanceKm: real, weightKg: real): (r: O.FeeResult)
    ensures r.Invalid? <==> distanceKm <= 0.0 || weightKg <= 0.0
    ensures r.Fee? ==> r.amount > O.BASE_FEE
  {
    if distanceKm <= 0.0 || weightKg <= 0.0 then O.Invalid
    else O.Fee(O.BASE_FEE + DistanceFee(distanceKm) + WeightFee(weightKg))
  }

  /** Away from 10 km the mutant behaves exactly as the original. */
  lemma AgreesAwayFromTen(distanceKm: real, weightKg: real)
    requires distanceKm != O.DISTANCE_THRESHOLD_SHORT
    ensures CalculateDeliveryFee(distanceKm, weightKg) == O.CalculateDeliveryFee(distanceKm, weightKg)
  {
  }

  /** At 10 km with a valid weight the mutant charges the medium rate: exactly
      1.00 less than the original (10 * 0.50 - 10 * 0.40). */
  lemma UnderchargesAtTen(weightKg: real)
    requires 0.0 < weightKg
    ensures O.CalculateDeliveryFee(10.0, weightKg).amount - CalculateDeliveryFee(10.0, weightKg).amount == 1.00
  {
  }

  /** The mutant and the original disagree exactly at 10 km with a valid weight. */
  lemma DiffersExactlyAtTen(distanceKm: real, weightKg: real)
    ensures CalculateDeliveryFee(distanceKm, weightKg) != O.CalculateDeliveryFee(distanceKm, weightKg)
        <==> distanceKm == O.DISTANCE_THRESHOLD_SHORT && 0.0 < weightKg
  {
  }

  /** The inputs the mutation-testing comparison uses. */
  lemma Examples()
    ensures CalculateDeliveryFee(10.0, 1.0) == O.Fee(9.00)
    ensures O.CalculateDeliveryFee(10.0, 1.0) == O.Fee(10.00)
    ensures CalculateDeliveryFee(9.99, 1.0) == O.CalculateDeliveryFee(9.99, 1.0)
    ensures CalculateDeliveryFee(10.01, 1.0) == O.CalculateDeliveryFee(10.01, 1.0)
    ensures CalculateDeliveryFee(5.0, 1.0) == O.Fee(7.50)
  {
  }
}
