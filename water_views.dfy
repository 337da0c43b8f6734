/**
 * The indicator arithmetic of watersupply/views.py: the daily production total, supply versus
 * demand with its guarded security percentage, the demo fallback taken when any lookup fails,
 * and the region list of the selector page. Query results are parameters.
 */
module WaterSupplyViews {
  import opened Wrappers

  const SecondsPerDay: real := 86400.0

  /** The figures substituted when a lookup fails. */
  const DemoRegionName: string := "Demo Region (No Data)"
  const DemoPopulation: int := 1500000
  const DemoSupplyM3Day: real := 119120.0
  const DemoConsumptionPerPerson: real := 0.120

  /** A Django Sum over rows: absent (None) when there are no rows. */
  function Aggregate(xs: seq<real>): Option<real>
  {
    if xs == [] then None else Some(SumOf(xs))
  }

  function SumOf(xs: seq<real>): real
  {
    if xs == [] then 0.0 else xs[0] + SumOf(xs[1..])
  }

  lemma {:induction false} SumOfAppend(a: seq<real>, b: seq<real>)
    ensures SumOf(a + b) == SumOf(a) + SumOf(b)
  {
    if a == [] {
      assert a + b == b;
    } else {
      assert (a + b)[0] == a[0] && (a + b)[1..] == a[1..] + b;
      SumOfAppend(a[1..], b);
    }
  }

  /**
   * `_calculate_total_production_day`: the extracted flows (m3/s) over a day plus the imported
   * quantities (m3/day). An empty aggregate is None, and None * 86400 raises, so the total exists
   * only when there are both wells and imports.
   */
  function TotalProductionDay(flowsM3S: seq<real>, importsM3Day: seq<real>): (r: Option<real>)
    ensures r.Some? <==> flowsM3S != [] && importsM3Day != []
  {
    var extracted := Aggregate(flowsM3S);
    var imported := Aggregate(importsM3Day);
    if extracted.Some? && imported.Some? then Some(extracted.value * SecondsPerDay + imported.value) else None
  }

  /**
   * Adding a well adds its flow over a whole day to the total, and adding an import adds its
   * quantity: the total is linear in its rows.
   */
  lemma ProductionDayGrows(flows: seq<real>, imports: seq<real>, flow: real, imported: real)
    requires flows != [] && imports != []
    ensures TotalProductionDay(flows + [flow], imports).value == TotalProductionDay(flows, imports).value + flow * SecondsPerDay
    ensures TotalProductionDay(flows, imports + [imported]).value == TotalProductionDay(flows, imports).value + imported
  {
    SumOfAppend(flows, [flow]);
    SumOfAppend(imports, [imported]);
    assert SumOf([flow]) == flow && SumOf([imported]) == imported;
  }

  datatype Indicators = Indicators(totalSupply: real, totalDemand: real, difference: real, supplySecurity: real)

  datatype RegionSummary = RegionSummary(pk: int, name: string, population: int)

  datatype IndicatorsPage = IndicatorsPage(region: RegionSummary, year: int, indicators: Indicators)

  /** supply / demand x 100, or 0 when there is no positive demand. */
  function SupplySecurity(supply: real, demand: real): real
  {
    if demand > 0.0 then supply / demand * 100.0 else 0.0
  }

  function ComputeIndicators(supply: real, perPerson: real, population: int): Indicators
  {
    var demand := perPerson * population as real;
    Indicators(supply, demand, supply - demand, SupplySecurity(supply, demand))
  }

  /** With a positive demand, the security reaches 100 % exactly when supply covers demand. */
  lemma SecurityMatchesDifference(supply: real, perPerson: real, population: int)
    requires perPerson * population as real > 0.0
    ensures var ind := ComputeIndicators(supply, perPerson, population);
            && (ind.supplySecurity >= 100.0 <==> ind.difference >= 0.0)
            && (ind.supplySecurity == 100.0 <==> ind.difference == 0.0)
            && ind.supplySecurity * ind.totalDemand == 100.0 * ind.totalSupply
  {
    var demand := perPerson * population as real;
    var q := supply / demand;
    assert (q - 1.0) * demand == supply - demand;
    SignOfProduct(q - 1.0, demand);
  }

  /** A positive factor keeps the sign of the other. */
  lemma SignOfProduct(x: real, d: real)
    requires d > 0.0
    ensures x * d >= 0.0 <==> x >= 0.0
    ensures x * d == 0.0 <==> x == 0.0
  {
  }

  /** Without a positive demand the security is 0 whatever the supply. */
  lemma SecurityWithoutDemand(supply: real, perPerson: real, population: int)
    requires perPerson * population as real <= 0.0
    ensures ComputeIndicators(supply, perPerson, population).supplySecurity == 0.0
  {
  }

  /** What the three lookups of a region yield; None where a lookup raises. */
  datatype Lookups = Lookups(region: Option<RegionSummary>, supply: Option<real>, perPerson: Option<real>)

  /**
   * `water_indicators`: the indicators from the looked-up region, or, when any lookup failed,
   * from the demo region that keeps the requested id.
   */
  function WaterIndicators(regionId: int, year: int, found: Lookups): (page: IndicatorsPage)
    ensures page.year == year
    ensures found.region.Some? && found.supply.Some? && found.perPerson.Some? ==> page.region == found.region.value
    ensures !(found.region.Some? && found.supply.Some? && found.perPerson.Some?) ==>
              page.region == RegionSummary(regionId, DemoRegionName, DemoPopulation)
  {
    if found.region.Some? && found.supply.Some? && found.perPerson.Some? then
      IndicatorsPage(found.region.value, year,
                     ComputeIndicators(found.supply.value, found.perPerson.value, found.region.value.population))
    else
      IndicatorsPage(RegionSummary(regionId, DemoRegionName, DemoPopulation), year,
                     ComputeIndicators(DemoSupplyM3Day, DemoConsumptionPerPerson, DemoPopulation))
  }

  /**
   * The demo page: 1 500 000 people at 0.120 m3 a day need 180 000 m3 against a supply of
   * 119 120 m3, a shortfall of 60 880 m3 and a security of 2978/45 %, about 66.2 %.
   */
  lemma DemoIndicators(regionId: int, year: int, found: Lookups)
    requires found.region.None? || found.supply.None? || found.perPerson.None?
    ensures var ind := WaterIndicators(regionId, year, found).indicators;
            && ind.totalDemand == 180000.0
            && ind.difference == -60880.0
            && ind.supplySecurity == 2978.0 / 45.0
            && ind.supplySecurity < 100.0
  {
  }

  datatype RegionChoice = RegionChoice(id: int, regionName: string)

  const DemoRegions: seq<RegionChoice> :=
    [RegionChoice(1, "Amsterdam Metropolitan Area"), RegionChoice(2, "Rotterdam Region"), RegionChoice(3, "Utrecht Province")]

  /** `water_indicators_main`: the stored regions, or the three demo regions when there are none. */
  function SelectorRegions(stored: seq<RegionChoice>): (regions: seq<RegionChoice>)
    ensures regions != []
    ensures stored != [] ==> regions == stored
    ensures stored == [] ==> |regions| == 3 && forall k :: 0 <= k < 3 ==> regions[k].id == k + 1
  {
    if stored != [] then stored else DemoRegions
  }
}
