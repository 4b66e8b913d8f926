/** A step table as data: the tier rows that the fee rule's two if/else chains
    encode, written as an independent reference against which the chains are
    checked. A row applies to every value up to and including its bound that no
    earlier row has claimed; values above every bound fall into the open-ended
    last tier. */
module TierTable {

  /** One closed-above tier: it covers x when x <= upTo and no earlier row does. */
  datatype Tier = Tier(upTo: real, amount: real)

  /** The position of the first row whose bound covers x, or |rows| when x lies
      above every bound (the open-ended last tier). */
  function Index(rows: seq<Tier>, x: real): (i: nat)
    ensures i <= |rows|
    ensures i < |rows| ==> x <= rows[i].upTo
    ensures forall j :: 0 <= j < i ==> rows[j].upTo < x
  {
    if rows == [] then 0
    else if x <= rows[0].upTo then 0
    else 1 + Index(rows[1..], x)
  }

  /** The amount of the tier that x falls into; `last` is the open-ended tier's. */
  function Lookup(rows: seq<Tier>, last: real, x: real): (r: real)
    ensures r == last || exists j :: 0 <= j < |rows| && rows[j].amount == r
  {
    var i := Index(rows, x);
    if i == |rows| then last else rows[i].amount
  }

  /** Amounts never decrease from one tier to the next, the open-ended one included. */
  predicate NonDecreasing(rows: seq<Tier>, last: real)
  {
    && (forall i, j :: 0 <= i < j < |rows| ==> rows[i].amount <= rows[j].amount)
    && (forall i :: 0 <= i < |rows| ==> rows[i].amount <= last)
  }

  /** A larger value never falls into an earlier tier, whatever the bounds. */
  lemma IndexMonotone(rows: seq<Tier>, x: real, y: real)
    requires x <= y
    ensures Index(rows, x) <= Index(rows, y)
  {
    var j := Index(rows, y);
    if j < |rows| {
      // row j covers y, so it covers x too: x cannot have passed it
      assert x <= y <= rows[j].upTo;
    }
  }

  /** With non-decreasing amounts, the looked-up amount is non-decreasing in x. */
  lemma LookupMonotone(rows: seq<Tier>, last: real, x: real, y: real)
    requires NonDecreasing(rows, last)
    requires x <= y
    ensures Lookup(rows, last, x) <= Lookup(rows, last, y)
  {
    IndexMonotone(rows, x, y);
  }
}
