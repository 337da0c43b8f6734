/**
 * The post-save handler of watersupply/signals.py: saving a City recomputes the yearly
 * consumption of every ConsumptionCapita row of that city. The table is a sequence of rows the
 * handler rewrites in place; the population and the clock are parameters.
 */
module WaterSupplySignals {
  import opened Wrappers
  import WaterSupplyModels

  const LitresPerCubicMetre: real := 1000.0

  /** A ConsumptionCapita row: per-capita use in litres per day, yearly total in m3. */
  datatype ConsumptionRow = ConsumptionRow(id: nat, city: nat, year: int, litresPerDay: real,
                                           totalM3Yr: Option<real>, lastUpdated: int)

  /** Yearly consumption in m3 of a population using `litresPerDay` litres each per day. */
  function AnnualConsumptionM3(litresPerDay: real, population: int): (m3: real)
    ensures m3 * LitresPerCubicMetre == litresPerDay * population as real * 365.0
  {
    litresPerDay / LitresPerCubicMetre * population as real * 365.0
  }

  /** What the update makes of one row. */
  function Recalculated(row: ConsumptionRow, cityId: nat, population: int, now: int): ConsumptionRow
  {
    if row.city == cityId then
      row.(totalM3Yr := Some(AnnualConsumptionM3(row.litresPerDay, population)), lastUpdated := now)
    else row
  }

  /** Rows of the saved city get the new total and timestamp and keep everything else; other rows are untouched. */
  lemma RecalculatedChangesOnlyTheCity(row: ConsumptionRow, cityId: nat, population: int, now: int)
    ensures var r := Recalculated(row, cityId, population, now);
            && r.id == row.id && r.city == row.city && r.year == row.year && r.litresPerDay == row.litresPerDay
            && (row.city != cityId ==> r == row)
            && (row.city == cityId ==> r.lastUpdated == now && r.totalM3Yr.Some? &&
                                       r.totalM3Yr.value * LitresPerCubicMetre == row.litresPerDay * population as real * 365.0)
  {
  }

  /** Recomputing with the same population and time changes nothing more. */
  lemma RecalculatedIdempotent(row: ConsumptionRow, cityId: nat, population: int, now: int)
    ensures Recalculated(Recalculated(row, cityId, population, now), cityId, population, now) ==
            Recalculated(row, cityId, population, now)
  {
  }

  class ConsumptionTable {
    var rows: seq<ConsumptionRow>

    constructor (rows: seq<ConsumptionRow>)
      ensures this.rows == rows
    {
      this.rows := rows;
    }

    /** `update_consumption_on_population_change` for the saved city `cityId` of `population` people. */
    method OnCitySaved(cityId: nat, population: int, now: int)
      modifies this
      ensures |rows| == |old(rows)|
      ensures forall k :: 0 <= k < |rows| ==> rows[k] == Recalculated(old(rows)[k], cityId, population, now)
    {
      var k := 0;
      while k < |rows|
        invariant 0 <= k <= |rows| == |old(rows)|
        invariant forall m :: 0 <= m < k ==> rows[m] == Recalculated(old(rows)[m], cityId, population, now)
        invariant forall m :: k <= m < |rows| ==> rows[m] == old(rows)[m]
      {
        if rows[k].city == cityId {
          var row := rows[k];
          rows := rows[k := row.(totalM3Yr := Some(AnnualConsumptionM3(row.litresPerDay, population)), lastUpdated := now)];
        }
        k := k + 1;
      }
    }
  }

  /**
   * The save method and this handler disagree by a factor of a million: the save multiplies the
   * litres by 1000 where converting them to m3 divides by 1000. 100 L a day for one person is
   * booked at 36 500 000 by the save and at 36.5 m3 by the handler.
   */
  lemma SaveOverstatesByAMillion(litresPerDay: real, population: int)
    ensures WaterSupplyModels.TotalConsumptionAsWritten(litresPerDay, population) ==
            1000000.0 * AnnualConsumptionM3(litresPerDay, population)
    ensures WaterSupplyModels.TotalConsumptionAsWritten(100.0, 1) == 36500000.0
    ensures AnnualConsumptionM3(100.0, 1) == 36.5
  {
  }
}
