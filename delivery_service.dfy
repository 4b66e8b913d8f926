/** The reference delivery fee rule: a guard that rejects non-positive inputs,
    a three-tier per-kilometre distance fee, a four-tier flat weight surcharge,
    and a fixed base fee. Money and measures are exact reals. */
module DeliveryService {
  import opened TierTable

  const BASE_FEE: real := 5.00

  const RATE_SHORT_DISTANCE: real := 0.50
  const RATE_MEDIUM_DISTANCE: real := 0.40
  const RATE_LONG_DISTANCE: real := 0.30

  const DISTANCE_THRESHOLD_SHORT: real := 10.0
  const DISTANCE_THRESHOLD_MEDIUM: real := 50.0

  const WEIGHT_FEE_LIGHT: real := 0.00
  const WEIGHT_FEE_MEDIUM: real := 4.50
  const WEIGHT_FEE_HEAVY: real := 8.00
  const WEIGHT_FEE_VERY_HEAVY: real := 15.00

  const WEIGHT_THRESHOLD_LIGHT: real := 2.0
  const WEIGHT_THRESHOLD_MEDIUM: real := 5.0
  const WEIGHT_THRESHOLD_HEAVY: real := 15.0

  /** Outcome of one fee calculation; Invalid stands for the rejected call. */
  datatype FeeResult = Fee(amount: real) | Invalid

  /** The per-kilometre rate table: each threshold belongs to the cheaper-per-km
      lower tier; beyond the last bound the long-distance rate applies. */
  const DISTANCE_RATES: seq<Tier> :=
    [Tier(DISTANCE_THRESHOLD_SHORT, RATE_SHORT_DISTANCE),
     Tier(DISTANCE_THRESHOLD_MEDIUM, RATE_MEDIUM_DISTANCE)]

  /** The flat surcharge table: each threshold belongs to the lower tier;
      beyond the last bound the very-heavy surcharge applies. */
  const WEIGHT_SURCHARGES: seq<Tier> :=
    [Tier(WEIGHT_THRESHOLD_LIGHT, WEIGHT_FEE_LIGHT),
     Tier(WEIGHT_THRESHOLD_MEDIUM, WEIGHT_FEE_MEDIUM),
     Tier(WEIGHT_THRESHOLD_HEAVY, WEIGHT_FEE_HEAVY)]

  /** The distance component: the distance times the rate of its tier. For a
      non-negative distance it lies between the long and the short rate. */
  function DistanceFee(distanceKm: real): (fee: real)
    ensures 0.0 <= distanceKm ==>
              RATE_LONG_DISTANCE * distanceKm <= fee <= RATE_SHORT_DISTANCE * distanceKm
  {
    if distanceKm <= DISTANCE_THRESHOLD_SHORT then distanceKm * RATE_SHORT_DISTANCE
    else if distanceKm <= DISTANCE_THRESHOLD_MEDIUM then distanceKm * RATE_MEDIUM_DISTANCE
    else distanceKm * RATE_LONG_DISTANCE
  }

  /** The weight component: always one of the four flat surcharges. */
  function WeightFee(weightKg: real): (fee: real)
    ensures fee in {WEIGHT_FEE_LIGHT, WEIGHT_FEE_MEDIUM, WEIGHT_FEE_HEAVY, WEIGHT_FEE_VERY_HEAVY}
  {
    if weightKg <= WEIGHT_THRESHOLD_LIGHT then WEIGHT_FEE_LIGHT
    else if weightKg <= WEIGHT_THRESHOLD_MEDIUM then WEIGHT_FEE_MEDIUM
    else if weightKg <= WEIGHT_THRESHOLD_HEAVY then WEIGHT_FEE_HEAVY
    else WEIGHT_FEE_VERY_HEAVY
  }

  /** The fee rule. The call is rejected exactly when either input is not
      positive, before any tier is chosen; an accepted call always costs more
      than the base fee. */
  function CalculateDeliveryFee(distanceKm: real, weightKg: real): (r: FeeResult)
    ensures r.Invalid? <==> distanceKm <= 0.0 || weightKg <= 0.0
    ensures r.Fee? ==> r.amount > BASE_FEE
  {
    if distanceKm <= 0.0 || weightKg <= 0.0 then Invalid
    else Fee(BASE_FEE + DistanceFee(distanceKm) + WeightFee(weightKg))
  }

  /** The distance chain charges the rate that the rate table assigns. */
  lemma DistanceFeeFollowsRateTable(distanceKm: real)
    ensures DistanceFee(distanceKm) == distanceKm * Lookup(DISTANCE_RATES, RATE_LONG_DISTANCE, distanceKm)
  {
    var rest := DISTANCE_RATES[1..];
    assert rest == [Tier(DISTANCE_THRESHOLD_MEDIUM, RATE_MEDIUM_DISTANCE)];
    if distanceKm <= DISTANCE_THRESHOLD_SHORT {
      assert Index(DISTANCE_RATES, distanceKm) == 0;
    } else if distanceKm <= DISTANCE_THRESHOLD_MEDIUM {
      assert Index(DISTANCE_RATES, distanceKm) == 1 + Index(rest, distanceKm) == 1;
    } else {
      assert rest[1..] == [];
      assert Index(DISTANCE_RATES, distanceKm) == 2 + Index(rest[1..], distanceKm) == 2;
    }
  }

  /** The weight chain charges the surcharge that the surcharge table assigns. */
  lemma WeightFeeFollowsSurchargeTable(weightKg: real)
    ensures WeightFee(weightKg) == Lookup(WEIGHT_SURCHARGES, WEIGHT_FEE_VERY_HEAVY, weightKg)
  {
    var rest := WEIGHT_SURCHARGES[1..];
    assert rest == [Tier(WEIGHT_THRESHOLD_MEDIUM, WEIGHT_FEE_MEDIUM), Tier(WEIGHT_THRESHOLD_HEAVY, WEIGHT_FEE_HEAVY)];
    var last := rest[1..];
    assert last == [Tier(WEIGHT_THRESHOLD_HEAVY, WEIGHT_FEE_HEAVY)];
    if weightKg <= WEIGHT_THRESHOLD_LIGHT {
      assert Index(WEIGHT_SURCHARGES, weightKg) == 0;
    } else if weightKg <= WEIGHT_THRESHOLD_MEDIUM {
      assert Index(WEIGHT_SURCHARGES, weightKg) == 1 + Index(rest, weightKg) == 1;
    } else if weightKg <= WEIGHT_THRESHOLD_HEAVY {
      assert Index(rest, weightKg) == 1 + Index(last, weightKg) == 1;
      assert Index(WEIGHT_SURCHARGES, weightKg) == 2;
    } else {
      assert last[1..] == [];
      assert Index(last, weightKg) == 1 + Index(last[1..], weightKg) == 1;
      assert Index(rest, weightKg) == 2;
      assert Index(WEIGHT_SURCHARGES, weightKg) == 3;
    }
  }

  /** An accepted call costs the base fee plus what the two tables charge. */
  lemma FeeFollowsTariffTables(distanceKm: real, weightKg: real)
    requires 0.0 < distanceKm && 0.0 < weightKg
    ensures CalculateDeliveryFee(distanceKm, weightKg)
         == Fee(BASE_FEE
                + distanceKm * Lookup(DISTANCE_RATES, RATE_LONG_DISTANCE, distanceKm)
                + Lookup(WEIGHT_SURCHARGES, WEIGHT_FEE_VERY_HEAVY, weightKg))
  {
    DistanceFeeFollowsRateTable(distanceKm);
    WeightFeeFollowsSurchargeTable(weightKg);
  }

  /** The two components are independent: changing the weight moves the fee by
      the same amount at every distance. */
  lemma ComponentsIndependent(d1: real, d2: real, w1: real, w2: real)
    requires 0.0 < d1 && 0.0 < d2 && 0.0 < w1 && 0.0 < w2
    ensures CalculateDeliveryFee(d1, w1).amount - CalculateDeliveryFee(d1, w2).amount
         == CalculateDeliveryFee(d2, w1).amount - CalculateDeliveryFee(d2, w2).amount
  {
  }

  /** The surcharge never decreases as the parcel gets heavier. */
  lemma WeightFeeNonDecreasing(w1: real, w2: real)
    requires w1 <= w2
    ensures WeightFee(w1) <= WeightFee(w2)
  {
    WeightFeeFollowsSurchargeTable(w1);
    WeightFeeFollowsSurchargeTable(w2);
    LookupMonotone(WEIGHT_SURCHARGES, WEIGHT_FEE_VERY_HEAVY, w1, w2);
  }

  /** Within one distance tier the distance fee strictly increases. */
  lemma DistanceFeeIncreasingWithinTier(d1: real, d2: real)
    requires 0.0 < d1 < d2
    requires Index(DISTANCE_RATES, d1) == Index(DISTANCE_RATES, d2)
    ensures DistanceFee(d1) < DistanceFee(d2)
  {
    DistanceFeeFollowsRateTable(d1);
    DistanceFeeFollowsRateTable(d2);
    var rate := Lookup(DISTANCE_RATES, RATE_LONG_DISTANCE, d1);
    assert rate == Lookup(DISTANCE_RATES, RATE_LONG_DISTANCE, d2);
    assert 0.0 < rate;
  }

  /** Across each distance threshold the fee drops: just past 10 km (below
      12.5 km) and just past 50 km (below 200/3 km) a longer trip is cheaper
      than the trip to the threshold itself. */
  lemma DistanceFeeDropsPastThresholds(distanceKm: real)
    ensures DISTANCE_THRESHOLD_SHORT < distanceKm < 12.5 ==>
              DistanceFee(distanceKm) < DistanceFee(DISTANCE_THRESHOLD_SHORT)
    ensures DISTANCE_THRESHOLD_MEDIUM < distanceKm < 200.0 / 3.0 ==>
              DistanceFee(distanceKm) < DistanceFee(DISTANCE_THRESHOLD_MEDIUM)
  {
  }

  /** Hence the distance fee is not monotone over all distances. */
  lemma DistanceFeeNotMonotone()
    ensures exists d1, d2 :: 0.0 < d1 < d2 && DistanceFee(d2) < DistanceFee(d1)
  {
    DistanceFeeDropsPastThresholds(10.01);
    assert DistanceFee(10.01) < DistanceFee(10.0);
  }

  /** Boundary values: every threshold belongs to its lower tier. */
  lemma BoundaryValues()
    ensures CalculateDeliveryFee(-0.01, 1.0) == Invalid
    ensures CalculateDeliveryFee(0.0, 1.0) == Invalid
    ensures CalculateDeliveryFee(0.01, 1.0) == Fee(5.005)
    ensures CalculateDeliveryFee(9.99, 1.0) == Fee(9.995)
    ensures CalculateDeliveryFee(10.0, 1.0) == Fee(10.00)
    ensures CalculateDeliveryFee(10.01, 1.0) == Fee(9.004)
    ensures CalculateDeliveryFee(49.99, 1.0) == Fee(24.996)
    ensures CalculateDeliveryFee(50.0, 1.0) == Fee(25.00)
    ensures CalculateDeliveryFee(50.01, 1.0) == Fee(20.003)
    ensures CalculateDeliveryFee(5.0, -0.01) == Invalid
    ensures CalculateDeliveryFee(5.0, 0.0) == Invalid
    ensures CalculateDeliveryFee(5.0, 0.01) == Fee(7.50)
    ensures WeightFee(2.0) == 0.00 && WeightFee(2.01) == 4.50
    ensures WeightFee(5.0) == 4.50 && WeightFee(5.01) == 8.00
    ensures WeightFee(15.0) == 8.00 && WeightFee(15.01) == 15.00
  {
  }

  /** The decision table of every valid combination of distance and weight tier. */
  lemma DecisionTable()
    ensures CalculateDeliveryFee(5.0, 1.0) == Fee(7.50)
    ensures CalculateDeliveryFee(5.0, 3.0) == Fee(12.00)
    ensures CalculateDeliveryFee(5.0, 10.0) == Fee(15.50)
    ensures CalculateDeliveryFee(5.0, 20.0) == Fee(22.50)
    ensures CalculateDeliveryFee(25.0, 1.0) == Fee(15.00)
    ensures CalculateDeliveryFee(25.0, 3.0) == Fee(19.50)
    ensures CalculateDeliveryFee(25.0, 10.0) == Fee(23.00)
    ensures CalculateDeliveryFee(25.0, 20.0) == Fee(30.00)
    ensures CalculateDeliveryFee(75.0, 1.0) == Fee(27.50)
    ensures CalculateDeliveryFee(75.0, 3.0) == Fee(32.00)
    ensures CalculateDeliveryFee(75.0, 10.0) == Fee(35.50)
    ensures CalculateDeliveryFee(75.0, 20.0) == Fee(42.50)
  {
  }
}
