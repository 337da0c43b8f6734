/**
 * The population roll-up of common/models.py: `City.save` totals its neighbourhoods and `Region.save`
 * totals its cities, each then deriving a density guarded by a positive area and stamping the time.
 * The populations the aggregate query would read and the clock are parameters.
 */
module CommonModels {
  import opened Wrappers

  /** `Sum('currentPopulation') or 0`: the total of the populations, 0 when there are none. */
  function TotalPopulation(populations: seq<int>): int
  {
    if populations == [] then 0 else populations[0] + TotalPopulation(populations[1..])
  }

  /** People per km2, or None when the area is not positive. */
  function Density(population: int, areaKm2: real): (d: Option<real>)
    ensures d.Some? <==> areaKm2 > 0.0
    ensures d.Some? ==> d.value * areaKm2 == population as real
  {
    if areaKm2 > 0.0 then Some(population as real / areaKm2) else None
  }

  lemma {:induction false} TotalPopulationAppend(a: seq<int>, b: seq<int>)
    ensures TotalPopulation(a + b) == TotalPopulation(a) + TotalPopulation(b)
  {
    if a == [] {
      assert a + b == b;
    } else {
      assert (a + b)[0] == a[0] && (a + b)[1..] == a[1..] + b;
      TotalPopulationAppend(a[1..], b);
    }
  }

  lemma {:induction false} TotalPopulationNonNegative(populations: seq<int>)
    requires forall k :: 0 <= k < |populations| ==> populations[k] >= 0
    ensures TotalPopulation(populations) >= 0
  {
    if populations != [] {
      TotalPopulationNonNegative(populations[1..]);
    }
  }

  function Concat(groups: seq<seq<int>>): seq<int>
  {
    if groups == [] then [] else groups[0] + Concat(groups[1..])
  }

  function Totals(groups: seq<seq<int>>): (t: seq<int>)
    ensures |t| == |groups|
  {
    if groups == [] then [] else [TotalPopulation(groups[0])] + Totals(groups[1..])
  }

  /**
   * The two levels of the roll-up compose: a region whose cities each hold the total of their
   * neighbourhoods holds the total of all those neighbourhoods.
   */
  lemma {:induction false} RollUpComposes(neighbourhoodsByCity: seq<seq<int>>)
    ensures TotalPopulation(Totals(neighbourhoodsByCity)) == TotalPopulation(Concat(neighbourhoodsByCity))
  {
    if neighbourhoodsByCity != [] {
      RollUpComposes(neighbourhoodsByCity[1..]);
      TotalPopulationAppend(neighbourhoodsByCity[0], Concat(neighbourhoodsByCity[1..]));
    }
  }

  class City {
    var id: nat
    var regionId: nat
    var cityName: string
    var currentPopulation: int
    var areaKm2: real
    var populationDensity: Option<real>
    var lastUpdated: int

    constructor (id: nat, regionId: nat, cityName: string, areaKm2: real, now: int)
      ensures this.id == id && this.regionId == regionId && this.cityName == cityName && this.areaKm2 == areaKm2
      ensures currentPopulation == 0 && populationDensity.None? && lastUpdated == now
    {
      this.id, this.regionId, this.cityName, this.areaKm2 := id, regionId, cityName, areaKm2;
      currentPopulation, populationDensity, lastUpdated := 0, None, now;
    }

    /** `City.save` given the populations of the city's neighbourhoods. */
    method Save(neighbourhoodPopulations: seq<int>, now: int)
      modifies this
      ensures currentPopulation == TotalPopulation(neighbourhoodPopulations)
      ensures populationDensity == Density(currentPopulation, areaKm2)
      ensures lastUpdated == now
      ensures id == old(id) && regionId == old(regionId) && cityName == old(cityName) && areaKm2 == old(areaKm2)
    {
      currentPopulation := TotalPopulation(neighbourhoodPopulations);
      if areaKm2 > 0.0 {
        populationDensity := Some(currentPopulation as real / areaKm2);
      } else {
        populationDensity := None;
      }
      lastUpdated := now;
    }
  }

  class Region {
    var id: nat
    var regionName: string
    var currentPopulation: int
    var areaKm2: real
    var populationDensity: Option<real>
    var lastUpdated: int

    constructor (id: nat, regionName: string, areaKm2: real, now: int)
      ensures this.id == id && this.regionName == regionName && this.areaKm2 == areaKm2
      ensures currentPopulation == 0 && populationDensity.None? && lastUpdated == now
    {
      this.id, this.regionName, this.areaKm2 := id, regionName, areaKm2;
      currentPopulation, populationDensity, lastUpdated := 0, None, now;
    }

    /** `Region.save` given the populations of the region's cities. */
    method Save(cityPopulations: seq<int>, now: int)
      modifies this
      ensures currentPopulation == TotalPopulation(cityPopulations)
      ensures populationDensity == Density(currentPopulation, areaKm2)
      ensures lastUpdated == now
      ensures id == old(id) && regionName == old(regionName) && areaKm2 == old(areaKm2)
    {
      currentPopulation := TotalPopulation(cityPopulations);
      if areaKm2 > 0.0 {
        populationDensity := Some(currentPopulation as real / areaKm2);
      } else {
        populationDensity := None;
      }
      lastUpdated := now;
    }
  }
}
