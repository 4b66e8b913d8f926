/** Mutation analysis of the fee rule: an input kills a mutant when the mutant's
    outcome there differs from the original's; a mutant no input kills is
    equivalent to the original. */
module Mutation {
  import O = DeliveryService
  import Survived = DeliveryServiceMutantSurvived
  import Killed = DeliveryServiceMutantKilled
  import Equivalent = DeliveryServiceMutantEquivalent

  datatype Version = Original | MutantEquivalent | MutantKilled | MutantSurvived

  /** The fee rule as each version computes it. */
  function Calculate(v: Version, distanceKm: real, weightKg: real): O.FeeResult
  {
    match v
    case Original => O.CalculateDeliveryFee(distanceKm, weightKg)
    case MutantEquivalent => Equivalent.CalculateDeliveryFee(distanceKm, weightKg)
    case MutantKilled => Killed.CalculateDeliveryFee(distanceKm, weightKg)
    case MutantSurvived => Survived.CalculateDeliveryFee(distanceKm, weightKg)
  }

  /** The input (distanceKm, weightKg) tells version v apart from the original. */
  predicate Kills(v: Version, distanceKm: real, weightKg: real)
  {
    Calculate(v, distanceKm, weightKg) != Calculate(Original, distanceKm, weightKg)
  }

  ghost predicate EquivalentToOriginal(v: Version)
  {
    forall d, w :: !Kills(v, d, w)
  }

  /** Exactly the inputs that kill each mutant. */
  lemma KillingInputs(distanceKm: real, weightKg: real)
    ensures !Kills(MutantEquivalent, distanceKm, weightKg)
    ensures Kills(MutantKilled, distanceKm, weightKg) <==> distanceKm == 10.0 && 0.0 < weightKg
    ensures Kills(MutantSurvived, distanceKm, weightKg) <==> distanceKm == 0.0 && 0.0 < weightKg
  {
    Equivalent.AgreesEverywhere(distanceKm, weightKg);
    Killed.DiffersExactlyAtTen(distanceKm, weightKg);
    Survived.DiffersExactlyAtZeroDistance(distanceKm, weightKg);
  }

  /** The equivalent mutant is equivalent; the other two are not, since some
      input kills each of them. */
  lemma Verdicts()
    ensures EquivalentToOriginal(MutantEquivalent)
    ensures !EquivalentToOriginal(MutantKilled)
    ensures !EquivalentToOriginal(MutantSurvived)
  {
    forall d, w ensures !Kills(MutantEquivalent, d, w) {
      KillingInputs(d, w);
    }
    KillingInputs(10.0, 1.0);
    KillingInputs(0.0, 1.0);
  }

  /** The comparison tables: (5, 1) kills no mutant, so a suite made of it lets
      both non-equivalent mutants survive; (10, 1) kills only the killed mutant. */
  lemma ComparisonTables()
    ensures forall v :: !Kills(v, 5.0, 1.0)
    ensures forall v :: Kills(v, 10.0, 1.0) <==> v == MutantKilled
  {
    forall v ensures !Kills(v, 5.0, 1.0) && (Kills(v, 10.0, 1.0) <==> v == MutantKilled) {
      KillingInputs(5.0, 1.0);
      KillingInputs(10.0, 1.0);
    }
  }
}
