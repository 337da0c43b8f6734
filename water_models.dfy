/**
 * The derived-quantity rules of watersupply/models.py: the `save()` methods of ConsumptionCapita,
 * TotalWaterDemand, ExtractionWater and TotalWaterProduction, and `NonRevenueWater.clean`.
 * Float fields are reals; a nullable field is an Option. The rows an ORM lookup would fetch are
 * parameters of the method that reads them.
 */
module WaterSupplyModels {
  import opened Wrappers

  const DaysPerYear: real := 365.0
  const SecondsPerDay: real := 86400.0
  const SecondsPerHour: real := 3600.0
  const CubicMetresPerMillion: real := 1000000.0

  /** The electricity price used when no cost record is found, in EUR per kWh. */
  const DefaultElectricityCost: real := 0.15

  datatype ValidationError =
    | NegativeConsumption          // "Consumption Capita cannot be negative"
    | SourceNotFound               // no AvailableFreshWater contains the well's centroid
    | InvalidLossSpecification     // "Invalid loss specification for this loss type."

  // ---- ConsumptionCapita ----

  /** `total_consumption_m3_yr` as `ConsumptionCapita.save` computes it: L/person/day x 365 x 1000 x population. */
  function TotalConsumptionAsWritten(litresPerDay: real, population: int): real
  {
    litresPerDay * DaysPerYear * 1000.0 * population as real
  }

  class ConsumptionCapita {
    var year: int
    var consumptionCapitaLD: real
    var totalConsumptionM3Yr: Option<real>

    constructor (year: int, consumptionCapitaLD: real)
      ensures this.year == year && this.consumptionCapitaLD == consumptionCapitaLD
      ensures totalConsumptionM3Yr.None?
    {
      this.year := year;
      this.consumptionCapitaLD := consumptionCapitaLD;
      totalConsumptionM3Yr := None;
    }

    /** Refuses a negative per-capita figure before computing anything; otherwise derives the yearly total. */
    method Save(cityPopulation: int) returns (r: Outcome<ValidationError>)
      modifies this
      ensures old(consumptionCapitaLD) < 0.0 ==> r == Fail(NegativeConsumption) && unchanged(this)
      ensures old(consumptionCapitaLD) >= 0.0 ==>
                && r == Pass
                && totalConsumptionM3Yr == Some(TotalConsumptionAsWritten(consumptionCapitaLD, cityPopulation))
                && consumptionCapitaLD == old(consumptionCapitaLD) && year == old(year)
    {
      if consumptionCapitaLD < 0.0 {
        return Fail(NegativeConsumption);
      }
      totalConsumptionM3Yr := Some(TotalConsumptionAsWritten(consumptionCapitaLD, cityPopulation));
      r := Pass;
    }
  }

  /** A saved total is never negative, since the per-capita figure was checked and populations are counts. */
  lemma SavedTotalNonNegative(litresPerDay: real, population: nat)
    requires litresPerDay >= 0.0
    ensures TotalConsumptionAsWritten(litresPerDay, population) >= 0.0
  {
    assert litresPerDay * DaysPerYear * 1000.0 >= 0.0;
  }

  // ---- TotalWaterDemand ----

  class TotalWaterDemand {
    var year: int
    var demandDay: real
    var demandYR: Option<real>

    constructor (year: int, demandDay: real)
      ensures this.year == year && this.demandDay == demandDay && demandYR.None?
    {
      this.year := year;
      this.demandDay := demandDay;
      demandYR := None;
    }

    /** The yearly demand is 365 daily demands. */
    method Save()
      modifies this
      ensures demandYR == Some(old(demandDay) * DaysPerYear)
      ensures demandDay == old(demandDay) && year == old(year)
    {
      demandYR := Some(demandDay * DaysPerYear);
    }
  }

  // ---- ExtractionWater ----

  /** The three derived emission fields: hourly rate, daily and yearly emission, in kg CO2. */
  datatype Emissions = Emissions(rateKgH: Option<real>, dayKg: Option<real>, yearKg: Option<real>)

  /** The emission chain of `ExtractionWater.save`: all three derived, or all three cleared. */
  function PumpEmissions(energyRateKWhH: Option<real>, factorKgKWh: Option<real>, operationHDay: real): (e: Emissions)
    ensures e.rateKgH.Some? <==> energyRateKWhH.Some? && factorKgKWh.Some?
    ensures e.rateKgH.Some? <==> e.dayKg.Some?
    ensures e.dayKg.Some? <==> e.yearKg.Some?
  {
    if energyRateKWhH.Some? && factorKgKWh.Some? then
      var rate := energyRateKWhH.value * factorKgKWh.value;
      var day := rate * operationHDay;
      Emissions(Some(rate), Some(day), Some(day * DaysPerYear))
    else Emissions(None, None, None)
  }

  /** Yearly emission = energy rate x emission factor x operating hours per day x 365. */
  lemma YearlyEmissionChain(energy: real, factor: real, hours: real)
    ensures PumpEmissions(Some(energy), Some(factor), hours).yearKg == Some(energy * factor * hours * 365.0)
    ensures PumpEmissions(Some(energy), Some(factor), hours).yearKg.value ==
            PumpEmissions(Some(energy), Some(factor), hours).rateKgH.value * hours * 365.0
  {
  }

  class ExtractionWater {
    var source: Option<nat>
    var pumpflowM3S: real
    var operationTimeHDay: real
    var pumpEnergyRateKWhH: Option<real>
    var pumpEmissionFactorKgCO2KWh: Option<real>
    var emissions: Emissions

    constructor (pumpflowM3S: real, operationTimeHDay: real, energy: Option<real>, factor: Option<real>)
      ensures this.pumpflowM3S == pumpflowM3S && this.operationTimeHDay == operationTimeHDay
      ensures pumpEnergyRateKWhH == energy && pumpEmissionFactorKgCO2KWh == factor
      ensures source.None? && emissions == Emissions(None, None, None)
    {
      this.pumpflowM3S := pumpflowM3S;
      this.operationTimeHDay := operationTimeHDay;
      pumpEnergyRateKWhH := energy;
      pumpEmissionFactorKgCO2KWh := factor;
      source := None;
      emissions := Emissions(None, None, None);
    }

    /**
     * Assigns the source that contains the well (the lookup fails when there is none), then
     * derives or clears the emission fields. `containingSource` is the lookup's result.
     */
    method Save(containingSource: Option<nat>) returns (r: Outcome<ValidationError>)
      modifies this
      ensures containingSource.None? ==> r == Fail(SourceNotFound) && unchanged(this)
      ensures containingSource.Some? ==>
                && r == Pass
                && source == containingSource
                && emissions == PumpEmissions(old(pumpEnergyRateKWhH), old(pumpEmissionFactorKgCO2KWh), old(operationTimeHDay))
                && pumpflowM3S == old(pumpflowM3S) && operationTimeHDay == old(operationTimeHDay)
                && pumpEnergyRateKWhH == old(pumpEnergyRateKWhH)
                && pumpEmissionFactorKgCO2KWh == old(pumpEmissionFactorKgCO2KWh)
    {
      if containingSource.None? {
        return Fail(SourceNotFound);
      }
      source := containingSource;
      emissions := PumpEmissions(pumpEnergyRateKWhH, pumpEmissionFactorKgCO2KWh, operationTimeHDay);
      r := Pass;
    }
  }

  // ---- NonRevenueWater ----

  /** The specific losses each loss type admits: Apparent ('A') and Real ('R'); other types are not checked. */
  function AllowedLosses(lossType: string): Option<seq<string>>
  {
    if lossType == "A" then Some(["CM", "UA", "DE", "OT"])
    else if lossType == "R" then Some(["LP", "LS", "LM", "OT"])
    else None
  }

  /** `NonRevenueWater.clean`. */
  function CleanLoss(lossType: string, specificLoss: string): Outcome<ValidationError>
  {
    var allowed := AllowedLosses(lossType);
    if allowed.Some? && specificLoss !in allowed.value then Fail(InvalidLossSpecification) else Pass
  }

  /**
   * Apparent losses are meter inaccuracy, unauthorised use, data-handling errors or other; real
   * losses are leakage on mains, at storage, at meter connections, or other; a type outside the
   * table is not checked.
   */
  lemma LossTable(lossType: string, specificLoss: string)
    ensures lossType == "A" ==> (CleanLoss(lossType, specificLoss) == Pass <==> specificLoss in {"CM", "UA", "DE", "OT"})
    ensures lossType == "R" ==> (CleanLoss(lossType, specificLoss) == Pass <==> specificLoss in {"LP", "LS", "LM", "OT"})
    ensures lossType != "A" && lossType != "R" ==> CleanLoss(lossType, specificLoss) == Pass
  {
  }

  /** 'OT' is the one specific loss valid for both types. */
  lemma OtherIsTheOnlySharedLoss(specificLoss: string)
    ensures CleanLoss("A", specificLoss) == Pass && CleanLoss("R", specificLoss) == Pass <==> specificLoss == "OT"
  {
    LossTable("A", specificLoss);
    LossTable("R", specificLoss);
  }

  // ---- TotalWaterProduction ----

  /** The columns of an extraction well that the production and cost sums read. */
  datatype Well = Well(pumpflowM3S: real, operationTimeHDay: real, pumpEnergyRateKWhH: real)

  /** The daily production of one well as the aggregate writes it: m3/s x h/day x 86400 / 1e6. */
  function WellProductionAsWritten(w: Well): real
  {
    w.pumpflowM3S * w.operationTimeHDay * SecondsPerDay / CubicMetresPerMillion
  }

  /** `productionDay`: the sum over the source's wells, or 0.0 when it has none. */
  function ProductionDay(wells: seq<Well>): real
  {
    if wells == [] then 0.0 else WellProductionAsWritten(wells[0]) + ProductionDay(wells[1..])
  }

  /** `costDay`: the sum over the wells of energy rate x operating hours x electricity price, or 0.0. */
  function CostDay(wells: seq<Well>, elecCost: real): real
  {
    if wells == [] then 0.0
    else wells[0].pumpEnergyRateKWhH * wells[0].operationTimeHDay * elecCost + CostDay(wells[1..], elecCost)
  }

  /** The daily pumping energy of the wells, in kWh. */
  function EnergyDay(wells: seq<Well>): real
  {
    if wells == [] then 0.0 else wells[0].pumpEnergyRateKWhH * wells[0].operationTimeHDay + EnergyDay(wells[1..])
  }

  /** The daily cost is the daily pumping energy priced at the electricity rate. */
  lemma {:induction false} CostIsPricedEnergy(wells: seq<Well>, elecCost: real)
    ensures CostDay(wells, elecCost) == EnergyDay(wells) * elecCost
  {
    if wells != [] {
      CostIsPricedEnergy(wells[1..], elecCost);
    }
  }

  /** Production sums over wells: the wells of two groups together produce what the groups produce apart. */
  lemma {:induction false} ProductionAdditive(a: seq<Well>, b: seq<Well>)
    ensures ProductionDay(a + b) == ProductionDay(a) + ProductionDay(b)
  {
    if a == [] {
      assert a + b == b;
    } else {
      assert (a + b)[0] == a[0] && (a + b)[1..] == a[1..] + b;
      ProductionAdditive(a[1..], b);
    }
  }

  predicate NonNegativeWells(wells: seq<Well>)
  {
    forall k :: 0 <= k < |wells| ==> wells[k].pumpflowM3S >= 0.0 && wells[k].operationTimeHDay >= 0.0
  }

  lemma {:induction false} ProductionNonNegative(wells: seq<Well>)
    requires NonNegativeWells(wells)
    ensures ProductionDay(wells) >= 0.0
  {
    if wells != [] {
      assert wells[0].pumpflowM3S * wells[0].operationTimeHDay >= 0.0;
      ProductionNonNegative(wells[1..]);
    }
  }

  /**
   * The volume a well pumps per day in million m3: m3/s x 3600 s/h x operating hours per day / 1e6.
   * This is the conversion `productionDay` evidently means; the source multiplies by 86400 instead.
   */
  function PumpedVolumeMm3Day(w: Well): (v: real)
    ensures v * CubicMetresPerMillion == w.pumpflowM3S * (w.operationTimeHDay * SecondsPerHour)
  {
    w.pumpflowM3S * w.operationTimeHDay * SecondsPerHour / CubicMetresPerMillion
  }

  /** A pump running 24 hours a day delivers its flow for all 86400 seconds of the day. */
  lemma PumpedVolumeAllDay(flow: real, energy: real)
    ensures PumpedVolumeMm3Day(Well(flow, 24.0, energy)) * CubicMetresPerMillion == flow * SecondsPerDay
  {
  }

  /**
   * As written, the production of a well is 24 times the volume it pumps: a 1 m3/s pump running
   * one hour a day is booked at 0.0864 Mm3 per day where it pumps 0.0036 Mm3.
   */
  lemma ProductionOverstatesVolume(w: Well)
    ensures WellProductionAsWritten(w) == 24.0 * PumpedVolumeMm3Day(w)
    ensures WellProductionAsWritten(Well(1.0, 1.0, 0.0)) == 0.0864
    ensures PumpedVolumeMm3Day(Well(1.0, 1.0, 0.0)) == 0.0036
  {
  }

  class TotalWaterProduction {
    var year: int
    var productionDay: real
    var productionYR: Option<real>
    var costDay: Option<real>
    var costYR: Option<real>

    constructor (year: int)
      ensures this.year == year && productionDay == 0.0
      ensures productionYR.None? && costDay.None? && costYR.None?
    {
      this.year := year;
      productionDay := 0.0;
      productionYR, costDay, costYR := None, None, None;
    }

    /**
     * Derives production and cost from the wells of the source. Only the 0.15 EUR/kWh fallback
     * price is modelled.
     */
    method Save(wells: seq<Well>)
      modifies this
      ensures productionDay == ProductionDay(wells)
      ensures productionYR == Some(productionDay * DaysPerYear)
      ensures costDay == Some(CostDay(wells, DefaultElectricityCost))
      ensures costYR == Some(costDay.value * DaysPerYear)
      ensures year == old(year)
    {
      productionDay := ProductionDay(wells);
      productionYR := Some(productionDay * DaysPerYear);
      var elecCost := DefaultElectricityCost;
      costDay := Some(CostDay(wells, elecCost));
      costYR := Some(costDay.value * DaysPerYear);
    }
  }
}
