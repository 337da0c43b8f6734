# CrossTwin core in Dafny

CrossTwin is a GeoDjango digital twin of a metropolitan region. This project models the parts of it
that compute something, and proves properties of them:

- **Raster interpolation** (`core/rasterOperations.py`, `weather/rasterOperations.py`).
  - The grid is sized by `numpy.arange` over the bounds.
  - The inverse-distance-weighted (IDW) fill writes every cell of a two-dimensional array in place.
  - Methods are dispatched as linear, IDW or kriging.
  - The raster is north-up: origin at (min_x, max_y), scale (res, -res), no-data -9999.
  - The RasterField lookup and the path rule of the Cloud-Optimized GeoTIFF (COG) export are also modelled.
- **Weather** (`weather/models.py`):
  - the simplified mean radiant temperature (Tmrt) formula;
  - the selection of measurements within one hour;
  - the bookkeeping of `TmrtRaster.generate_from_measurements`.
- **Derived quantities saved with a row**:
  - water consumption, demand, pump emissions and well production (`watersupply/models.py`);
  - population sums and densities of cities and regions (`common/models.py`);
  - rent and affordability ratios (`Housing/models.py`);
  - the validation of thermal stress categories (`urbanHeat/models.py`).
- **Roll-up signals** (`watersupply/signals.py`, `common/signals.py`):
  - a city's consumption rows are recomputed after the city is saved;
  - a neighbourhood change is rolled up into its city and then its region.
- **Water supply indicators** (`watersupply/views.py`): production totals, supply security and the demo fallbacks.
- **The importer** (`importer/forms.py`, `importer/utils.py`, `importer/views.py`):
  - upload validation and the dispatch on file extension;
  - the search for the first shapefile in an unpacked archive;
  - the conversion to a MultiPolygon and the per-row tallies of `_import_cities`.

Model layout:

- One module per source file.
- Shared helpers:
  - `Wrappers`: `Option`, `Result` and a pass/fail `Outcome`;
  - `Text`: ASCII lower-casing, `endswith`, `split`/`join` on one character, `str(int)` and `os.path.join`;
  - `Idw`: the inverse-distance weighting as pure functions on sequences.
- How the source is represented:
  - **Classes:** Django models whose `save()` assigns fields become classes whose `Save` methods modify those fields.
  - **Parameters:** database tables read by a query become sequences passed in.
  - **Fields:** tables a signal rewrites become sequence fields of a class.
  - **Reals:** floating-point numbers become `real`.
  - **Function parameters:** foreign numerical code, namely the KD-tree distance and the `Rbf` interpolant, is given as function parameters.

## Model

| member | source | states |
|---|---|---|
| Text.Lower | importer/utils.py:9 | lower-casing keeps the length and maps every character on its own |
| Text.LowerIsIdempotent | importer/forms.py:62 | a lower-cased name has no upper-case letter left and lower-casing it again changes nothing |
| Text.SplitCount | core/rasterOperations.py:138 | `split('.')` yields one part more than the key has dots |
| Text.SplitJoin | core/rasterOperations.py:138 | joining the parts of a split with the separator gives back the key |
| Text.SplitPartsFree | core/rasterOperations.py:138 | no part of a split contains the separator |
| Text.DecimalRoundTrip | urbanHeat/models.py:14 | `str(id)` loses nothing: reading its digits back gives the id |
| Text.JoinPathEndsWith | core/rasterOperations.py:139-142 | `os.path.join(a, b)` always ends with `b` |
| Idw.InverseWeights | core/rasterOperations.py:72 | every weight is positive and is the reciprocal of its distance plus 1e-10 |
| Idw.Normalize | core/rasterOperations.py:73 | normalised weights are positive and sum to exactly one |
| Idw.IdwBetween | core/rasterOperations.py:68-76 | with all sample values in [lo, hi] the IDW cell value is in [lo, hi] (a convex combination) |
| Idw.IdwWithinSampleRange | core/rasterOperations.py:68-76 | every IDW cell value lies between the smallest and largest sample value |
| Idw.IdwOfConstantSamples | core/rasterOperations.py:68-76 | samples that all agree give every cell exactly that value |
| Idw.NearerWeighsMore | core/rasterOperations.py:71-73 | a nearer sample gets a strictly larger normalised weight |
| Idw.DotBetween | core/rasterOperations.py:74 | a non-negatively weighted sum of values in [lo, hi] lies between lo and hi times the weight total |
| RasterCore.Arange | core/rasterOperations.py:56-58 | the coordinate list has `ArangeLength` = ceil((stop - start) / step) entries, 0 when negative |
| RasterCore.ArangeLengthCounts | core/rasterOperations.py:56-58 | with a positive step, index k exists exactly when start + k step is still below stop |
| RasterCore.ArangeLengthCountsDown | weather/rasterOperations.py:29-31 | with a negative step (no check in the weather copy), index k exists exactly when start + k step is still above stop |
| RasterCore.FillIdw | core/rasterOperations.py:68-76 | after the nested loop every (i, j) cell of the grid holds the normalised IDW average of all samples at mesh point (xs[j], ys[i]) |
| RasterCore.BandOf | core/rasterOperations.py:95 | the band written to GDAL has the grid's shape and its values cell by cell |
| RasterCore.BuildRaster | core/rasterOperations.py:56-98 | a missing value key or unknown method yields no raster; 'linear' and 'kriging' fail exactly when the samples are fewer than two or two share a location; otherwise the raster has arange width and height, origin (min_x, max_y), scale (res, -res), no-data -9999 and the band of the chosen method |
| RasterCore.InterpolateRaster | core/rasterOperations.py:36-103 | a resolution <= 0 is refused first; an unknown method never yields a raster; 'linear' and 'kriging' yield one exactly when an `Rbf` can be built over the samples; a result is a '.tif' path and a well-formed raster whose IDW cells are the IDW averages and whose linear/kriging band is the RBF interpolant |
| RasterCore.IdwRasterWithinSampleRange | core/rasterOperations.py:68-76 | every cell of an IDW raster lies between the smallest and largest sample value |
| RasterCore.RowsSampledUpsideDown | core/rasterOperations.py:57-58 | row 0 is sampled at min_y, outside the top row it is written to and inside the bottom row's footprint |
| RasterCore.NorthUpSample | core/rasterOperations.py:92-93 | the top-left corner (min_x + j res, max_y - i res) lies in the footprint of cell (i, j) |
| RasterCore.ColumnsSampledInPlace | core/rasterOperations.py:56-58 | columns are sampled at the left edge of the column they are written to |
| RasterCore.GetRasterFieldName | core/rasterOperations.py:28-33 | returns the name of the first RasterField, and fails with the model's name exactly when there is none |
| RasterCore.CogPathDefined | core/rasterOperations.py:138-142 | a model key gives a path exactly when it holds one dot, and the path then ends in '.tif' |
| RasterCore.CogPathLabelsRoundTrip | core/rasterOperations.py:138 | the app label and model name joined by the dot give back the model key |
| RasterCore.CogPathLayout | core/rasterOperations.py:139-142 | the path is COG_DIRECTORY/app_label/model_name/id_name.tif |
| RasterCore.ExportRasterToCog | core/rasterOperations.py:106-142 | no RasterField, no row or a NULL raster are errors; it succeeds exactly when all are present and the key holds one dot, with the COG path as result |
| WeatherRaster.InterpolateRaster | weather/rasterOperations.py:11-76 | a zero step fails; no value key or unknown method yields no raster; 'linear' and 'kriging' yield one exactly when an `Rbf` can be built over the samples; otherwise the same well-formed raster as the core copy, for either sign of the step |
| WeatherRaster.InterpolateWithDefaults | weather/rasterOperations.py:11 | leaving out resolution and method interpolates linearly: a raster at scale (10, -10) exactly when there are two or more samples at distinct locations, otherwise the `Rbf` failure |
| WeatherModels.CalculateTmrt | weather/models.py:248-259 | Tmrt is missing exactly when the temperature is, and equals it when any input is missing |
| WeatherModels.TmrtAgainstAirTemperature | weather/models.py:259 | Tmrt equals the air temperature exactly when S = 50 W and exceeds it exactly when S > 50 W |
| WeatherModels.TmrtMonotone | weather/models.py:259 | more sun never lowers Tmrt and more wind never raises it |
| WeatherModels.SelectMeasurements | weather/models.py:172-178 | a measurement is selected exactly when its station is active and it lies within one hour either side |
| WeatherModels.SelectedAreNearAndActive | weather/models.py:172-178 | every selected measurement is from an active station and within [t - 1 h, t + 1 h] |
| WeatherModels.SelectIdempotent | weather/models.py:172-178 | selecting again changes nothing |
| WeatherModels.SelectAppend | weather/models.py:172-178 | selection distributes over concatenation, so the order of the rows is kept |
| WeatherModels.StationIds | weather/models.py:203 | the recorded station ids are exactly those of the selected measurements |
| WeatherModels.CollectStationData | weather/models.py:187-203 | one station-data entry and one station per measurement, in order, with the entry's Tmrt |
| WeatherModels.TmrtRaster.GenerateFromMeasurements | weather/models.py:157-244 | the time defaults to the raster's own; an empty window is an error that changes nothing; otherwise the bounds priority, raster, resolution, method, metadata count and source stations are recorded, and only the hull case overwrites `bounds` |
| WaterSupplyModels.ConsumptionCapita.Save | watersupply/models.py:36-40 | a negative per-capita consumption is refused and changes nothing; otherwise the yearly total is consumption x 365 x 1000 x population |
| WaterSupplyModels.SavedTotalNonNegative | watersupply/models.py:37-39 | an accepted consumption gives a non-negative total |
| WaterSupplyModels.TotalWaterDemand.Save | watersupply/models.py:60-62 | the yearly demand is the daily demand x 365 |
| WaterSupplyModels.PumpEmissions | watersupply/models.py:182-189 | the three emission fields are present together, exactly when energy rate and emission factor are both given |
| WaterSupplyModels.YearlyEmissionChain | watersupply/models.py:183-185 | yearly emissions are energy x factor x hours x 365 |
| WaterSupplyModels.ExtractionWater.Save | watersupply/models.py:176-191 | with no containing source the save fails and changes nothing; otherwise the source is recorded and the emissions are computed |
| WaterSupplyModels.LossTable | watersupply/models.py:274-283 | Apparent allows CM, UA, DE, OT; Real allows LP, LS, LM, OT; any other type accepts every loss |
| WaterSupplyModels.OtherIsTheOnlySharedLoss | watersupply/models.py:275-279 | OT is the only loss valid for both types |
| WaterSupplyModels.CostIsPricedEnergy | watersupply/models.py:380-394 | the daily cost is the wells' daily energy times the electricity price |
| WaterSupplyModels.ProductionAdditive | watersupply/models.py:363-370 | production over two sets of wells is the sum of their productions |
| WaterSupplyModels.ProductionNonNegative | watersupply/models.py:363-370 | wells with non-negative flows and hours produce a non-negative amount |
| WaterSupplyModels.PumpedVolumeMm3Day | watersupply/models.py:365 | the volume in Mm3 times 1e6 is flow (m3/s) times the hours in seconds |
| WaterSupplyModels.PumpedVolumeAllDay | watersupply/models.py:365 | over 24 hours the corrected volume is flow x 86400 m3 |
| WaterSupplyModels.ProductionOverstatesVolume | watersupply/models.py:365 | the production as written is 24 times the pumped volume |
| WaterSupplyModels.TotalWaterProduction.Save | watersupply/models.py:354-396 | production per day is the sum over the wells, per year x 365; cost per day is the priced energy at 0.15, per year x 365 |
| WaterSupplyViews.TotalProductionDay | watersupply/views.py:12-17 | the total exists exactly when there are both wells and imports |
| WaterSupplyViews.ProductionDayGrows | watersupply/views.py:12-17 | a further well adds its flow x 86400; a further import adds its quantity |
| WaterSupplyViews.SecurityMatchesDifference | watersupply/views.py:46-47 | with positive demand, security >= 100 exactly when the difference >= 0, = 100 exactly when it is 0, and security x demand = 100 x supply |
| WaterSupplyViews.SecurityWithoutDemand | watersupply/views.py:47 | without positive demand the security is 0 |
| WaterSupplyViews.WaterIndicators | watersupply/views.py:26-60 | the page shows the looked-up region when every lookup succeeds, otherwise the demo region with the requested id |
| WaterSupplyViews.DemoIndicators | watersupply/views.py:34-47 | the demo figures give demand 180000, difference -60880 and security 2978/45 < 100 |
| WaterSupplyViews.SelectorRegions | watersupply/views.py:62-76 | the stored regions, or the three demo regions with ids 1-3 when there are none |
| WaterSupplySignals.AnnualConsumptionM3 | watersupply/signals.py:16-19 | the yearly total in m3 times 1000 is litres per day x population x 365 |
| WaterSupplySignals.RecalculatedChangesOnlyTheCity | watersupply/signals.py:15-22 | a row of another city is unchanged; a row of the city gets the new total and time and keeps its other fields |
| WaterSupplySignals.RecalculatedIdempotent | watersupply/signals.py:15-22 | running the update twice is the same as once |
| WaterSupplySignals.ConsumptionTable.OnCitySaved | watersupply/signals.py:9-22 | every row is replaced by its recalculation, in place, and the table keeps its length |
| WaterSupplySignals.SaveOverstatesByAMillion | watersupply/models.py:39 | the save's total is 1e6 times the signal's (100 L/d for one person: 36500000 against 36.5) |
| CommonModels.Density | common/models.py:58-61 | a density exists exactly when the area is positive, and then density x area = population |
| CommonModels.TotalPopulationAppend | common/models.py:53-56 | the population sum is additive over concatenation |
| CommonModels.TotalPopulationNonNegative | common/models.py:53-56 | non-negative populations sum to a non-negative total |
| CommonModels.RollUpComposes | common/models.py:20-23 | summing the cities' totals gives the same as summing all their neighbourhoods |
| CommonModels.City.Save | common/models.py:52-63 | population is the neighbourhoods' sum (0 if none), density is guarded by area, the time is refreshed, nothing else changes |
| CommonModels.Region.Save | common/models.py:19-30 | population is the cities' sum (0 if none), density is guarded by area, the time is refreshed, nothing else changes |
| CommonSignals.SafeDivide | common/signals.py:8-18 | the division is null exactly when the area is not positive, and agrees with the models' density |
| CommonSignals.RegionOf | common/signals.py:44 | a region is found exactly when a city row with that id exists |
| CommonSignals.RecountCities | common/signals.py:37-41 | every city row is recounted in place and the table keeps its length |
| CommonSignals.RecountRegions | common/signals.py:46-54 | every region row is recounted in place and the table keeps its length |
| CommonSignals.RecountShiftsRegionTotal | common/signals.py:44-51 | the region total read after the city update differs from before by exactly the city's change |
| CommonSignals.RegionOfUnique | common/signals.py:44-45 | with unique ids the region looked up is the city's own |
| CommonSignals.Database.OnNeighbourhoodChanged | common/signals.py:20-54 | no city id changes nothing; otherwise the city row gets its neighbourhoods' total and guarded density, then its region row gets the total of its cities read after that update; no other row changes |
| CommonSignals.HandlerRollsUp | common/signals.py:33-51 | after the handler the city holds its neighbourhoods' sum and the region holds the sum of its cities including that new value |
| Housing.GuardedRatio | Housing/models.py:90 | ratio x divisor = numerator when the divisor is not 0, else 0 |
| Housing.Rental.Save | Housing/models.py:88-91 | annual rent is monthly x 12 and the price-to-rent ratio is the guarded ratio of price to annual rent |
| Housing.PriceIsRatioYearsOfRent | Housing/models.py:89-90 | with a non-zero rent the price is the ratio times the annual rent; with a zero rent the ratio is 0 |
| Housing.HousingAffordability.Save | Housing/models.py:131-134 | the index is the guarded ratio of price to income and disposable income plus expenditure is income |
| Housing.AffordabilityMonotone | Housing/models.py:132 | with a positive income a higher price never gives a lower index |
| UrbanHeat.Clean | urbanHeat/models.py:20-26 | passes exactly when both name and description are given; a missing name is reported first, and a named category without a description gets the description error |
| UrbanHeat.SaveStoresOnlyValid | urbanHeat/models.py:28-30 | a category is stored exactly when it has a name of at most 50 characters and a description; a missing name is the only error then |
| UrbanHeat.Str | urbanHeat/models.py:13-14 | the label is the name whenever there is one |
| UrbanHeat.StrNamesTheCategory | urbanHeat/models.py:13-14 | the label is never empty, and an unnamed category's label is "StressCategory " followed by digits that read back as its id |
| ImporterForms.FileTooLargeMessage | importer/forms.py:76 | the size error names the 100 MB limit |
| ImporterForms.CleanFileRules | importer/forms.py:59-78 | a file is accepted exactly when its lower-cased name has an accepted extension and it is at most 100 MiB, and is returned unchanged; the extension is checked first |
| ImporterForms.SizeLimitBoundary | importer/forms.py:72-76 | exactly 104857600 bytes passes and one byte more fails |
| ImporterForms.ExtensionCaseInsensitive | importer/forms.py:62-69 | the extension test ignores case |
| ImporterForms.CleanSourceCrs | importer/forms.py:80-92 | None passes; a code passes exactly when it is in 1000..100000, and is returned unchanged |
| ImporterForms.EpsgBoundaries | importer/forms.py:86-92 | 1000 and 100000 pass, 999 and 100001 fail |
| ImporterUtils.FirstShapefileFrom | importer/utils.py:30-33 | the index found ends in '.shp' and no earlier file does; none found means no file does |
| ImporterUtils.FirstShapefileFound | importer/utils.py:30-35 | the walk yields a path exactly when it holds a '.shp' file, and that path ends in '.shp' |
| ImporterUtils.FindShapefile | importer/utils.py:30-33 | the nested loop returns the first '.shp' met while walking, or none |
| ImporterUtils.GpdReadAny | importer/utils.py:8-41 | the lower-cased name dispatches to GeoJSON, to the first shapefile of a zip (or "No .shp found inside ZIP."), refuses a bare '.shp' and refuses any other format |
| ImporterUtils.AcceptedUploadsAreSupported | importer/utils.py:13-41 | a file the upload form accepts never reaches "Unsupported file format." |
| ImporterViews.ToMultiPolygon | importer/views.py:169-175 | a Polygon or MultiPolygon becomes a MultiPolygon with the same polygons; anything else becomes None |
| ImporterViews.ToMultiPolygonIdempotent | importer/views.py:169-175 | converting a converted geometry changes nothing |
| ImporterViews.SkippedRows | importer/views.py:193-205 | a row is skipped exactly when it has no usable polygonal geometry; created or updated rows have one |
| ImporterViews.MissingColumn | importer/views.py:179-181 | a required column is missing exactly when `cityName` or `geom` is unmapped |
| ImporterViews.ImportCities | importer/views.py:177-248 | an unmapped required column fails before any row; otherwise the report holds the counters of the row loop as written |
| ImporterViews.SampleErrorsAreTheFirst | importer/views.py:232-235 | sample_errors are the first at most 10 error messages |
| ImporterViews.OutcomesPartition | importer/views.py:187-235 | every row is counted exactly once as skipped, created, updated or failed, and each failure leaves one message |
| ImporterViews.TalliedReportCountsEveryRow | importer/views.py:219-220 | with `created += 1` the counters add up to the number of rows |
| ImporterViews.CreatedCounterSticksAtOne | importer/views.py:220 | as written, two new rows report created = 1 |

## Left out

- Database and file I/O are not modelled. This covers PostGIS queries, `GDALRaster`, temporary files, `cog_translate`, directory creation and file reads. Query results enter as parameters, and the raster read back from disk is an input to `GenerateFromMeasurements`.
- scipy's `Rbf` ('linear' and, under the name 'kriging', 'gaussian') is a function parameter. The model states which kernel is used and where it is evaluated, not what it computes. scipy's source is not part of this model; the failure of its constructor is modelled as `UnsolvableRbf` for fewer than two samples or two samples at one location.
- RasterCore.BuildRaster: an `Rbf` system that is ill-conditioned but not exactly singular counts as solvable; the model does not say what scipy then returns.
- The KD-tree query and Euclidean distance are a function parameter assumed non-negative. The order of the distances it returns is not modelled.
- Floating-point numbers are `real`: no rounding, no overflow, no NaN.
- `str.lower()` is modelled for ASCII letters only.
- Several `save()` methods cannot run as written, and each is modelled as the field assignments it evidently intends:
  - `super().save(**args, **kwargs)` is a TypeError in `ConsumptionCapita`, `TotalWaterDemand` and `ExtractionWater` (watersupply/models.py:40, 62, 191).
  - `super.save` is an AttributeError in `Region` and `City` (common/models.py:30, 63).
  - `Region.save` filters cities by a `city` field they do not have (common/models.py:20). The model sums the region's cities.
- `NonRevenueWater.clean` reads `self.type.Apparent` on a string field (watersupply/models.py:276). `CleanLoss` models the table the code spells out.
- RasterCore.InterpolateRaster and WeatherRaster.InterpolateRaster return the path and the raster the function has built when it reaches `driver.name = temp_path` (core/rasterOperations.py:101, weather/rasterOperations.py:74). In Django's `GDALRaster`, `name` is a read-only property, so as written that assignment raises AttributeError, nothing is returned and the temporary file stays empty. The model states the evidently intended return; Django's source is not part of this model.
- Housing.Rental.Save: `self.property.price` (Housing/models.py:90) names no field of `builtup.Property` (builtup/models.py:100-114), which has `listingPrice_EUR`, `salePrice_EUR` and `unitaryPrice_EUR_per_sqm`. So as written every save with a non-zero rent raises AttributeError; a zero rent gives ratio 0 without reading the price, as modelled. The parameter `propertyPrice` stands for the price the ratio evidently means, the listing price.
- WaterSupplyModels.TotalWaterProduction.Save models only the 0.15 EUR/kWh fallback. The cost lookup calls `.cost_EUR_kWh` on a queryset (watersupply/models.py:381-384), which raises AttributeError rather than DoesNotExist. `source` is many-to-many, so the wells enter as a sequence.
- WaterSupplyModels.ExtractionWater.Save: the spatial `get` of the containing source is a parameter. A missing source is modelled; several containing sources are not.
- WaterSupplyViews.WaterIndicators takes the three lookups as options. As written, each lookup raises: `ExtractionWater` and `ConsumptionCapita` have no `region` field, and an empty `Sum` is None. So the page always shows the demo fallback. The model states both branches.
- WaterSupplySignals.ConsumptionTable.OnCitySaved takes the population as a parameter. It stands for the `F("city__population")` expression (watersupply/signals.py:17), which names a field that does not exist.
- WeatherModels.TmrtRaster.GenerateFromMeasurements is not chained to the interpolation. Its call to `interpolate_raster` omits `values` and passes x/y keys where the callee expects `geom` (weather/models.py:221-226). The interpolated GeoTIFF is therefore an input.
- WeatherModels.TmrtRaster.GenerateFromMeasurements takes geometries by their extent. The 1 km-buffered hull of the active stations is an input.
- ImporterViews.ImportCities takes each row's outcome as input: name fault, shape, conversion fault and whether `update_or_create` inserted. These come from the database and from `str(row[...].strip)`, which formats a bound method. The transaction and its rollback under `dry_run` are not modelled; the report is returned in both cases.
- ImporterViews.ImportCities: as written the upsert cannot succeed. `update_or_create(city_name=...)` (importer/views.py:215-218) names no City field (the field is `cityName`, common/models.py:43), so every row that reaches it raises FieldError and is counted as an error, and `created` and `updated` stay 0. Once that is fixed, `'PopYR2020'` (importer/views.py:208) against the field `popYR2020` and `City.save`'s `super.save` fail next. The model's insert and update outcomes are the ones the loop is evidently written for.
- The session-based upload views of the importer, model registries, tile serving, admin, URL routing and all JavaScript are not part of this model.
- UrbanHeat.Save: of `full_clean`'s field checks only the 50-character limit of the name is modelled. Uniqueness and the other column checks are left out.
- RasterCore.InterpolateRaster: when 'idw' is asked for with no samples, the KD-tree query fails. The model reports this as `NoSamples` only when the grid is non-empty.
- CommonSignals.Database.OnNeighbourhoodChanged runs after a neighbourhood save or delete. The trigger itself is not modelled; the handler is called with the affected city id.

## Findings

| source | as written | input that shows it | evidently intended | confidence | as-written member | corrected member |
|---|---|---|---|---|---|---|
| watersupply/models.py:39 | total_consumption_m3_yr = L/d x 365 x 1000 x population | 100 L/d for one person gives 36500000 m3 a year | litres / 1000 x 365 x population, as the signal at watersupply/signals.py:16-19 computes: 36.5 m3 | not executed | WaterSupplySignals.SaveOverstatesByAMillion | WaterSupplySignals.AnnualConsumptionM3 |
| watersupply/models.py:365 | pumpflow (m3/s) x OperationTime (h/day) x 86400 / 1e6 | 1 m3/s for 1 h/day gives 0.0864 Mm3 | hours x 3600 seconds: 0.0036 Mm3, 24 times less | not executed | WaterSupplyModels.ProductionOverstatesVolume | WaterSupplyModels.PumpedVolumeMm3Day |
| core/rasterOperations.py:57-58 | grid rows counted up from min_y while the raster origin is (min_x, max_y) with scale -res (also weather/rasterOperations.py:30-31, 65-66) | bounds (0, 0, 10, 20), res 10: row 0 is sampled at y = 0 but placed over y in [10, 20] | row i sampled at max_y - i res, inside the row it is written to | not executed | RasterCore.RowsSampledUpsideDown | RasterCore.NorthUpSample |
| importer/views.py:220 | `created =+1` assigns +1; latent, reachable only once the upsert's field name at importer/views.py:216 is fixed | two rows that are both inserted report created = 1 | `created += 1`, so the counters add up to the rows | not executed | ImporterViews.CreatedCounterSticksAtOne | ImporterViews.TalliedReportCountsEveryRow |
