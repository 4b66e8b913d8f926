/** The "equivalent" mutant: a copy of the fee rule whose light-weight
    surcharge is written `0.0 * weightKg` instead of `0.0`. Its guard, distance
    chain and constants are the original's. */
module DeliveryServiceMutantEquivalent {
  import O = DeliveryService

  /** The mutant's distance chain (unchanged). */
  function DistanceFee(distanceKm: real): (fee: real)
    ensures fee == O.DistanceFee(distanceKm)
  {
    if distanceKm <= O.DISTANCE_THRESHOLD_SHORT then distanceKm * O.RATE_SHORT_DISTANCE
    else if distanceKm <= O.DISTANCE_THRESHOLD_MEDIUM then distanceKm * O.RATE_MEDIUM_DISTANCE
    else distanceKm * O.RATE_LONG_DISTANCE
  }

  /** The mutated weight chain: the light tier multiplies zero by the weight,
      which is still zero, so the chain agrees with the original's everywhere. */
  function WeightFee(weightKg: real): (fee: real)
    ensures weightKg <= O.WEIGHT_THRESHOLD_LIGHT ==> fee == 0.0
    ensures fee == O.WeightFee(weightKg)
  {
    if weightKg <= O.WEIGHT_THRESHOLD_LIGHT then 0.0 * weightKg
    else if weightKg <= O.WEIGHT_THRESHOLD_MEDIUM then O.WEIGHT_FEE_MEDIUM
    else if weightKg <= O.WEIGHT_THRESHOLD_HEAVY then O.WEIGHT_FEE_HEAVY
    else O.WEIGHT_FEE_VERY_HEAVY
  }

  /** The mutated rule; its guard is the original's. */
  function CalculateDeliveryFee(distanceKm: real, weightKg: real): (r: O.FeeResult)
    ensures r.Invalid? <==> distanceKm <= 0.0 || weightKg <= 0.0
  {
    if distanceKm <= 0.0 || weightKg <= 0.0 then O.Invalid
    else O.Fee(O.BASE_FEE + DistanceFee(distanceKm) + WeightFee(weightKg))
  }

  /** On every input, valid or not, the mutant's outcome is the original's. */
  lemma AgreesEverywhere(distanceKm: real, weightKg: real)
    ensures CalculateDeliveryFee(distanceKm, weightKg) == O.CalculateDeliveryFee(distanceKm, weightKg)
  {
  }
}
