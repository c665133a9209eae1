/**
 * One resource card (components/dashboard/ResourceCard.tsx): a local allocation counter,
 * seeded from its props, moved by the minus and plus buttons within 0..totalCapacity, and a
 * colour for the availability percentage.
 */
module ResourceCard {

  /** `Math.max(0, Math.min(totalCapacity, allocation + amount))`. */
  function Clamp(allocation: int, amount: int, totalCapacity: int): (n: int)
    ensures n >= 0
    ensures totalCapacity >= 0 ==> n <= totalCapacity
    ensures 0 <= allocation + amount <= totalCapacity ==> n == allocation + amount
    ensures 0 <= totalCapacity < allocation + amount ==> n == totalCapacity
    ensures allocation + amount < 0 || totalCapacity < 0 ==> n == 0
  {
    var upper := if totalCapacity < allocation + amount then totalCapacity else allocation + amount;
    if upper < 0 then 0 else upper
  }

  /** The minus button is disabled at or below zero. */
  predicate MinusDisabled(allocation: int) {
    allocation <= 0
  }

  /** The plus button is disabled at or above the capacity. */
  predicate PlusDisabled(allocation: int, totalCapacity: int) {
    allocation >= totalCapacity
  }

  /** Below capacity, plus raises the allocation by exactly one. */
  lemma PlusBelowCapacity(allocation: int, totalCapacity: int)
    requires 0 <= allocation < totalCapacity
    ensures !PlusDisabled(allocation, totalCapacity)
    ensures Clamp(allocation, 1, totalCapacity) == allocation + 1
  {
  }

  /** Above zero and within capacity, minus lowers the allocation by exactly one. */
  lemma MinusAboveZero(allocation: int, totalCapacity: int)
    requires 0 < allocation <= totalCapacity
    ensures !MinusDisabled(allocation)
    ensures Clamp(allocation, -1, totalCapacity) == allocation - 1
  {
  }

  /** At the two ends the press would change nothing, and its button is disabled there. */
  lemma EndsAreFixed(totalCapacity: int)
    requires totalCapacity >= 0
    ensures PlusDisabled(totalCapacity, totalCapacity) && Clamp(totalCapacity, 1, totalCapacity) == totalCapacity
    ensures MinusDisabled(0) && Clamp(0, -1, totalCapacity) == 0
  {
  }

  /**
   * A card seeded above its capacity: plus is disabled, and the first minus snaps the
   * allocation down to the capacity rather than by one.
   */
  lemma MinusOverCapacity(allocation: int, totalCapacity: int)
    requires 0 <= totalCapacity && totalCapacity + 1 < allocation
    ensures PlusDisabled(allocation, totalCapacity)
    ensures Clamp(allocation, -1, totalCapacity) == totalCapacity
  {
  }

  /** The dot colour of `getAvailabilityColor`. */
  datatype Availability = Green | Yellow | Red

  function AvailabilityColor(percentage: real): (c: Availability)
    ensures c == Green <==> percentage >= 70.0
    ensures c == Yellow <==> 40.0 <= percentage < 70.0
    ensures c == Red <==> percentage < 40.0
  {
    if percentage >= 70.0 then Green
    else if percentage >= 40.0 then Yellow
    else Red
  }

  /** The rank of a colour, red lowest. */
  function Rank(c: Availability): nat {
    match c
    case Red => 0
    case Yellow => 1
    case Green => 2
  }

  /** More availability never gives a worse colour. */
  lemma AvailabilityMonotone(p: real, q: real)
    requires p <= q
    ensures Rank(AvailabilityColor(p)) <= Rank(AvailabilityColor(q))
  {
  }

  /** The props a card is drawn with when none are given. */
  const DefaultAllocation: int := 24
  const DefaultCapacity: int := 30
  const DefaultAvailability: real := 80.0

  /** The component: the props it was drawn with and its `allocation` state. */
  class Card {
    const totalCapacity: int
    const availabilityPercentage: real
    var allocation: int

    /** `useState(currentAllocation)`: the first value only; later props do not reseed it. */
    constructor (currentAllocation: int, totalCapacity: int, availabilityPercentage: real)
      ensures allocation == currentAllocation
      ensures this.totalCapacity == totalCapacity
      ensures this.availabilityPercentage == availabilityPercentage
    {
      allocation := currentAllocation;
      this.totalCapacity := totalCapacity;
      this.availabilityPercentage := availabilityPercentage;
    }

    /** The dot beside the percentage. */
    function Color(): Availability
      reads this
    {
      AvailabilityColor(availabilityPercentage)
    }

    /**
     * `handleAdjust(amount)`: store the clamped value, then hand exactly that value to
     * `onAdjust`. Afterwards the allocation lies within 0..totalCapacity whatever it was.
     */
    method HandleAdjust(amount: int) returns (emitted: int)
      modifies this`allocation
      ensures allocation == Clamp(old(allocation), amount, totalCapacity)
      ensures emitted == allocation
      ensures totalCapacity >= 0 ==> 0 <= allocation <= totalCapacity
    {
      allocation := Clamp(allocation, amount, totalCapacity);
      emitted := allocation;
    }
  }
}
