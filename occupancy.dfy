/**
 * Occupancy figures as the reports table and the property card show them:
 * unit counts by status and the occupied share as a whole percentage,
 * rounded half up (`Math.round`), computed here in exact integer arithmetic.
 */
module OccupancyUi {
  import opened Common
  import opened Seqs
  import opened Store

  function HasStatus(s: UnitStatus): Unit -> bool {
    (u: Unit) => u.status == s
  }

  /** Multiplying by a positive number keeps the order. */
  lemma MulMonotone(b: int, x: int, y: int)
    requires b > 0 && x >= y
    ensures b * x >= b * y
  {
    var d := x - y;
    assert b * x == b * y + b * d;
  }

  /** `a / b` is at least `k` exactly when `a` is at least `k` times `b`. */
  lemma DivAtLeast(a: int, b: int, k: int)
    requires b > 0
    ensures a / b >= k <==> a >= k * b
  {
    var q := a / b;
    assert a == b * q + a % b && 0 <= a % b < b;
    if q >= k {
      MulMonotone(b, q, k);
    } else {
      MulMonotone(b, k, q + 1);
      assert b * (q + 1) == b * q + b;
    }
  }

  /**
   * `total > 0 ? Math.round((part / total) * 100) : 0`: the nearest whole
   * percentage, a half rounding up.
   */
  function RatePercent(part: nat, total: nat): (r: int)
    ensures total == 0 ==> r == 0
    ensures total > 0 ==> -(total as int) <= 200 * part - 2 * r * total < total
  {
    if total == 0 then 0
    else
      var r := (200 * part + total) / (2 * total);
      assert 2 * total * r <= 200 * part + total < 2 * total * r + 2 * total;
      r
  }

  /** With at most `total` parts, the percentage lies in 0..100. */
  lemma RateInRange(part: nat, total: nat)
    requires part <= total
    ensures 0 <= RatePercent(part, total) <= 100
  {
    if total > 0 {
      DivAtLeast(200 * part + total, 2 * total, 0);
      DivAtLeast(200 * part + total, 2 * total, 101);
    }
  }

  /** The rate reaches `k` exactly when `200 * part >= (2k - 1) * total`. */
  lemma RateAtLeast(part: nat, total: nat, k: int)
    requires total > 0
    ensures RatePercent(part, total) >= k <==> 200 * part >= (2 * k - 1) * total
  {
    DivAtLeast(200 * part + total, 2 * total, k);
  }

  // ---------------------------------------------------------------------------
  // The occupancy report's row
  // ---------------------------------------------------------------------------

  datatype OccupancyRow = OccupancyRow(total: nat, occupied: nat, vacant: nat, rate: int)

  /** A unit is never both occupied and vacant, so the two counts together are at most the total. */
  lemma {:induction false} OccupiedPlusVacant(us: seq<Unit>)
    ensures CountWhere(us, HasStatus(Occupied)) + CountWhere(us, HasStatus(Vacant)) <= |us|
  {
    if |us| > 0 {
      OccupiedPlusVacant(us[1..]);
      assert Filter(us, HasStatus(Occupied)) ==
        (if us[0].status == Occupied then [us[0]] else []) + Filter(us[1..], HasStatus(Occupied));
      assert Filter(us, HasStatus(Vacant)) ==
        (if us[0].status == Vacant then [us[0]] else []) + Filter(us[1..], HasStatus(Vacant));
    }
  }

  /** One property's row of the occupancy report. */
  function ReportRow(us: seq<Unit>): (r: OccupancyRow)
    ensures r.total == |us| && r.occupied + r.vacant <= r.total
    ensures r.occupied == CountWhere(us, HasStatus(Occupied)) && r.vacant == CountWhere(us, HasStatus(Vacant))
    ensures r.rate == RatePercent(r.occupied, r.total) && 0 <= r.rate <= 100
  {
    var occupied := CountWhere(us, HasStatus(Occupied));
    var vacant := CountWhere(us, HasStatus(Vacant));
    OccupiedPlusVacant(us);
    RateInRange(occupied, |us|);
    OccupancyRow(|us|, occupied, vacant, RatePercent(occupied, |us|))
  }

  /**
   * 100% is shown exactly when at least 199 units in 200 are occupied: a
   * fully let property shows 100%, but so does one with a vacancy among
   * enough units.
   */
  lemma FullRateIff(us: seq<Unit>)
    ensures ReportRow(us).rate == 100 <==> |us| > 0 && 200 * ReportRow(us).occupied >= 199 * |us|
    ensures |us| > 0 && ReportRow(us).occupied == |us| ==> ReportRow(us).rate == 100
  {
    if |us| > 0 {
      RateAtLeast(ReportRow(us).occupied, |us|, 100);
      RateInRange(ReportRow(us).occupied, |us|);
    }
  }

  /** 199 occupied units of 200 already round to 100%. */
  lemma NearlyFullShowsHundred()
    ensures RatePercent(199, 200) == 100
  {
  }

  // ---------------------------------------------------------------------------
  // The property card
  // ---------------------------------------------------------------------------

  datatype CardFigures = CardFigures(unitCount: nat, occupancyRate: int, highlighted: bool)

  /** `unitCount`, `occupancyRate` and the highlight of the card; the unit list may be absent. */
  function Card(units: Option<seq<Unit>>): (c: CardFigures)
    ensures units.None? ==> c.unitCount == 0 && c.occupancyRate == 0 && !c.highlighted
    ensures units.Some? ==> c.unitCount == |units.value|
    ensures units.Some? ==> c.occupancyRate == RatePercent(CountWhere(units.value, HasStatus(Occupied)), |units.value|)
    ensures 0 <= c.occupancyRate <= 100
    ensures c.highlighted <==> c.occupancyRate >= 90
  {
    var us := if units.Some? then units.value else [];
    var occupied := CountWhere(us, HasStatus(Occupied));
    assert occupied <= |us|;
    RateInRange(occupied, |us|);
    var rate := RatePercent(occupied, |us|);
    CardFigures(|us|, rate, rate >= 90)
  }

  /** The card and the report agree on the units they share. */
  lemma CardAgreesWithReport(us: seq<Unit>)
    ensures Card(Some(us)).unitCount == ReportRow(us).total
    ensures Card(Some(us)).occupancyRate == ReportRow(us).rate
  {
  }

  /** The card is highlighted exactly when at least 179 units in 200 are occupied. */
  lemma HighlightIff(us: seq<Unit>)
    ensures Card(Some(us)).highlighted <==> |us| > 0 && 200 * ReportRow(us).occupied >= 179 * |us|
  {
    if |us| > 0 {
      RateAtLeast(ReportRow(us).occupied, |us|, 90);
    }
  }
}
