/**
 * The hospital overview tiles (components/dashboard/StatsSummary.tsx): the occupancy rate,
 * its colour band, and the alert block that lists at most two situations.
 */
module StatsSummary {
  import opened Numbers

  /**
   * `Math.round((occupiedBeds / totalBeds) * 100)`, with the quotient taken exactly. With
   * `0 <= occupied <= total` the rate is a percentage.
   */
  function OccupancyRate(occupied: int, total: int): (rate: int)
    requires total > 0
    ensures 200 * occupied - total < 2 * total * rate <= 200 * occupied + total
    ensures 0 <= occupied <= total ==> 0 <= rate <= 100
  {
    assert 0 <= occupied <= total ==> 0 <= RoundDiv(100 * occupied, total) <= 100 by {
      if 0 <= occupied <= total {
        RoundDivBounds(100 * occupied, total, 0, 100);
      }
    }
    RoundDiv(100 * occupied, total)
  }

  /** The default figures, 87 of 120 beds, show 73 (72.5 rounded up). */
  lemma DefaultOccupancy()
    ensures OccupancyRate(87, 120) == 73
  {
  }

  /** The colours of `getOccupancyColor`, from least to most severe. */
  datatype Band = Green | Yellow | Orange | Red {
    function Severity(): nat {
      match this
      case Green => 0
      case Yellow => 1
      case Orange => 2
      case Red => 3
    }
  }

  /** `getOccupancyColor`: the first inclusive threshold the rate reaches, 90, 75, then 50. */
  function OccupancyBand(rate: int): (b: Band)
    ensures b == Red <==> rate >= 90
    ensures b == Orange <==> 75 <= rate < 90
    ensures b == Yellow <==> 50 <= rate < 75
    ensures b == Green <==> rate < 50
  {
    if rate >= 90 then Red
    else if rate >= 75 then Orange
    else if rate >= 50 then Yellow
    else Green
  }

  /** A higher rate is never shown in a less severe colour. */
  lemma BandMonotone(r1: int, r2: int)
    requires r1 <= r2
    ensures OccupancyBand(r1).Severity() <= OccupancyBand(r2).Severity()
  {
  }

  /** What the alert tile shows under the count. */
  datatype AlertBlock = NoActiveAlerts | Cards(count: nat)

  /** No alerts: the all-clear note; one: the first card; more: both cards. */
  function AlertBlockFor(activeAlerts: int): (b: AlertBlock)
    ensures b == NoActiveAlerts <==> activeAlerts <= 0
    ensures b.Cards? ==> 1 <= b.count <= 2
    ensures b.Cards? ==> (b.count == 2 <==> activeAlerts > 1)
  {
    if activeAlerts > 0 then Cards(if activeAlerts > 1 then 2 else 1) else NoActiveAlerts
  }

  /** More alerts never show fewer cards. */
  lemma AlertBlockMonotone(a1: int, a2: int)
    requires a1 <= a2
    ensures |CardsShown(AlertBlockFor(a1))| <= |CardsShown(AlertBlockFor(a2))|
  {
  }

  /** The situations listed, in order. */
  function CardsShown(b: AlertBlock): (s: seq<string>)
    ensures b.NoActiveAlerts? ==> s == []
    ensures b.Cards? && b.count >= 1 ==> |s| >= 1 && s[0] == "Code Blue - ICU Room 302"
    ensures b.Cards? && b.count >= 2 ==> |s| == 2 && s[1] == "Staff Shortage - ER"
  {
    match b
    case NoActiveAlerts => []
    case Cards(n) =>
      if n >= 2 then ["Code Blue - ICU Room 302", "Staff Shortage - ER"]
      else ["Code Blue - ICU Room 302"]
  }
}
