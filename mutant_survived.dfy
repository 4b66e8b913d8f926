/** The "survived" mutant: a copy of the fee rule whose distance guard is
    weakened from `distanceKm <= 0` to `distanceKm < 0`. Its tier chains and
    constants are the original's. */
module DeliveryServiceMutantSurvived {
  import O = DeliveryService

  /** The mutant's distance chain (unchanged). */
  function DistanceFee(distanceKm: real): (fee: real)
    ensures fee == O.DistanceFee(distanceKm)
  {
    if distanceKm <= O.DISTANCE_THRESHOLD_SHORT then distanceKm * O.RATE_SHORT_DISTANCE
    else if distanceKm <= O.DISTANCE_THRESHOLD_MEDIUM then distanceKm * O.RATE_MEDIUM_DISTANCE
    else distanceKm * O.RATE_LONG_DISTANCE
  }

  /** The mutant's weight chain (unchanged). */
  function WeightFee(weightKg: real): (fee: real)
    ensures fee == O.WeightFee(weightKg)
  {
    if weightKg <= O.WEIGHT_THRESHOLD_LIGHT then O.WEIGHT_FEE_LIGHT
    else if weightKg <= O.WEIGHT_THRESHOLD_MEDIUM then O.WEIGHT_FEE_MEDIUM
    else if weightKg <= O.WEIGHT_THRESHOLD_HEAVY then O.WEIGHT_FEE_HEAVY
    else O.WEIGHT_FEE_VERY_HEAVY
  }

  /** The mutated rule: only a negative distance or a non-positive weight is
      rejected, so a zero distance is charged; every accepted call costs at
      least the base fee. */
  function CalculateDeliveryFee(distanceKm: real, weightKg: real): (r: O.FeeResult)
    ensures r.Invalid? <==> distanceKm < 0.0 || weightKg <= 0.0
    ensures r.Fee? ==> r.amount >= O.BASE_FEE
  {
    if distanceKm < 0.0 || weightKg <= 0.0 then O.Invalid
    else O.Fee(O.BASE_FEE + DistanceFee(distanceKm) + WeightFee(weightKg))
  }

  /** Away from zero distance the mutant behaves exactly as the original,
      rejecting a non-positive weight and a negative distance alike. */
  lemma AgreesAwayFromZeroDistance(distanceKm: real, weightKg: real)
    requires distanceKm != 0.0
    ensures CalculateDeliveryFee(distanceKm, weightKg) == O.CalculateDeliveryFee(distanceKm, weightKg)
  {
  }

  /** At zero distance with a valid weight the mutant charges only the base fee
      and the surcharge, where the original rejects the call. */
  lemma ZeroDistanceCharged(weightKg: real)
    requires 0.0 < weightKg
    ensures CalculateDeliveryFee(0.0, weightKg) == O.Fee(O.BASE_FEE + O.WeightFee(weightKg))
    ensures O.CalculateDeliveryFee(0.0, weightKg) == O.Invalid
  {
  }

  /** The mutant and the original disagree exactly on zero distance with a
      valid weight. */
  lemma DiffersExactlyAtZeroDistance(distanceKm: real, weightKg: real)
    ensures CalculateDeliveryFee(distanceKm, weightKg) != O.CalculateDeliveryFee(distanceKm, weightKg)
        <==> distanceKm == 0.0 && 0.0 < weightKg
  {
  }

  /** The inputs the mutation-testing comparison uses. */
  lemma Examples()
    ensures CalculateDeliveryFee(5.0, 1.0) == O.Fee(7.50)
    ensures CalculateDeliveryFee(0.0, 1.0) == O.Fee(5.00)
    ensures CalculateDeliveryFee(-0.01, 1.0) == O.Invalid
    ensures CalculateDeliveryFee(0.01, 1.0) == O.CalculateDeliveryFee(0.01, 1.0)
  {
  }
}
