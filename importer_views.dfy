/**
 * The city import of importer/views.py: `_to_multipolygon`, and the row loop of `_import_cities`
 * that tallies created, updated, skipped and failed rows into a report. What the GeoDataFrame row,
 * the GEOS conversion and the upsert yield for each row is part of the input.
 */
module ImporterViews {
  import opened Wrappers
  import opened Text

  datatype Coord = Coord(x: real, y: real)

  /** A polygon: its outer ring and its holes. */
  datatype PolygonShape = PolygonShape(shell: seq<Coord>, holes: seq<seq<Coord>>)

  datatype Geometry =
    | Polygon(polygon: PolygonShape)
    | MultiPolygon(polygons: seq<PolygonShape>)
    | Other(geomType: string)

  /** The polygons a geometry covers; none for a non-polygonal one. */
  function Polygons(g: Geometry): seq<PolygonShape>
  {
    match g
    case Polygon(p) => [p]
    case MultiPolygon(ps) => ps
    case Other(_) => []
  }

  /** `_to_multipolygon`. */
  function ToMultiPolygon(g: Geometry): (r: Option<Geometry>)
    ensures r.Some? <==> !g.Other?
    ensures r.Some? ==> r.value.MultiPolygon? && Polygons(r.value) == Polygons(g)
  {
    match g
    case Polygon(p) => Some(MultiPolygon([p]))
    case MultiPolygon(_) => Some(g)
    case Other(_) => None
  }

  /** Converting twice is converting once. */
  lemma ToMultiPolygonIdempotent(g: Geometry)
    requires ToMultiPolygon(g).Some?
    ensures ToMultiPolygon(ToMultiPolygon(g).value) == ToMultiPolygon(g)
  {
  }

  // ---- _import_cities ----

  const RequiredColumns: seq<string> := ["cityName", "geom"]
  const SampleLimit: nat := 10
  const ImportTarget: string := "City"

  /** What `update_or_create` did with a row. */
  datatype Upsert = Inserted | Updated | UpsertFailed(message: string)

  /**
   * One row of the GeoDataFrame as the loop meets it: a failure reading its name column, its
   * geometry (None when missing or empty), a failure building the GEOS geometry, and the upsert.
   */
  datatype SourceRow = SourceRow(index: nat, nameFault: Option<string>, shape: Option<Geometry>,
                                 conversionFault: Option<string>, upsert: Upsert)

  datatype RowOutcome = Skipped | Created | Changed | Failed(message: string)

  /** The path a row takes through the loop body, in the body's order of steps. */
  function Classify(row: SourceRow): RowOutcome
  {
    if row.nameFault.Some? then Failed(row.nameFault.value)
    else if row.shape.None? then Skipped
    else if row.conversionFault.Some? then Failed(row.conversionFault.value)
    else if ToMultiPolygon(row.shape.value).None? then Skipped
    else match row.upsert
      case Inserted => Created
      case Updated => Changed
      case UpsertFailed(m) => Failed(m)
  }

  /** A row is skipped exactly when it gets that far without a usable polygonal geometry, and is then never upserted. */
  lemma SkippedRows(row: SourceRow)
    ensures Classify(row) == Skipped <==>
              row.nameFault.None? &&
              (row.shape.None? || (row.conversionFault.None? && ToMultiPolygon(row.shape.value).None?))
    ensures Classify(row).Created? || Classify(row).Changed? ==> row.shape.Some? && ToMultiPolygon(row.shape.value).Some?
  {
  }

  function Skips(rows: seq<SourceRow>): nat
  {
    if rows == [] then 0 else Skips(rows[..|rows| - 1]) + (if Classify(rows[|rows| - 1]).Skipped? then 1 else 0)
  }

  function Creations(rows: seq<SourceRow>): nat
  {
    if rows == [] then 0 else Creations(rows[..|rows| - 1]) + (if Classify(rows[|rows| - 1]).Created? then 1 else 0)
  }

  function Updates(rows: seq<SourceRow>): nat
  {
    if rows == [] then 0 else Updates(rows[..|rows| - 1]) + (if Classify(rows[|rows| - 1]).Changed? then 1 else 0)
  }

  /** `f"Row {i}: {e}"` for every failed row, in order. */
  function ErrorLines(rows: seq<SourceRow>): (lines: seq<string>)
  {
    if rows == [] then []
    else
      var last := rows[|rows| - 1];
      ErrorLines(rows[..|rows| - 1]) +
      (match Classify(last) case Failed(m) => ["Row " + Decimal(last.index) + ": " + m] case _ => [])
  }

  function Min(a: nat, b: nat): nat
  {
    if a <= b then a else b
  }

  datatype Report = Report(target: string, created: nat, updated: nat, skipped: nat, errors: nat,
                           sampleErrors: seq<string>, rolledBack: bool)

  datatype ImportError = MissingRequiredColumn(column: string)

  /** The report `_import_cities` returns; `created =+1` sets the counter to 1 rather than adding 1. */
  function ReportAsWritten(rows: seq<SourceRow>, dryRun: bool): Report
  {
    var lines := ErrorLines(rows);
    Report(ImportTarget, if Creations(rows) > 0 then 1 else 0, Updates(rows), Skips(rows), |lines|,
           lines[..Min(|lines|, SampleLimit)], dryRun)
  }

  /** The report with every created row counted, as the counter evidently means. */
  function TalliedReport(rows: seq<SourceRow>, dryRun: bool): Report
  {
    ReportAsWritten(rows, dryRun).(created := Creations(rows))
  }

  /** `assert colmap[r]`: the first required column the mapping lacks or leaves empty. */
  function MissingColumn(colmap: map<string, string>): (r: Option<string>)
    ensures r.None? <==> forall c :: c in RequiredColumns ==> c in colmap && colmap[c] != ""
  {
    if !("cityName" in colmap && colmap["cityName"] != "") then Some("cityName")
    else if !("geom" in colmap && colmap["geom"] != "") then Some("geom")
    else None
  }

  /** `_import_cities` over the rows of the frame. */
  method ImportCities(rows: seq<SourceRow>, colmap: map<string, string>, dryRun: bool)
    returns (r: Result<Report, ImportError>)
    ensures MissingColumn(colmap).Some? ==> r.Err? && r.error == MissingRequiredColumn(MissingColumn(colmap).value)
    ensures MissingColumn(colmap).None? ==> r == Ok(ReportAsWritten(rows, dryRun))
  {
    for c := 0 to |RequiredColumns|
      invariant forall m :: 0 <= m < c ==> RequiredColumns[m] in colmap && colmap[RequiredColumns[m]] != ""
    {
      var column := RequiredColumns[c];
      assert column == (if c == 0 then "cityName" else "geom");
      if !(column in colmap && colmap[column] != "") {
        assert c == 1 ==> RequiredColumns[0] == "cityName" && "cityName" in colmap && colmap["cityName"] != "";
        assert MissingColumn(colmap) == Some(column);
        return Err(MissingRequiredColumn(column));
      }
    }
    var created, updated, skipped, errors := 0, 0, 0, 0;
    var sampleErrors: seq<string> := [];
    for i := 0 to |rows|
      invariant created == (if Creations(rows[..i]) > 0 then 1 else 0)
      invariant updated == Updates(rows[..i]) && skipped == Skips(rows[..i])
      invariant errors == |ErrorLines(rows[..i])|
      invariant sampleErrors == ErrorLines(rows[..i])[..Min(errors, SampleLimit)]
    {
      assert rows[..i + 1][..i] == rows[..i];
      var row := rows[i];
      match Classify(row) {
        case Skipped =>
          skipped := skipped + 1;
        case Created =>
          created := 1;
        case Changed =>
          updated := updated + 1;
        case Failed(message) =>
          errors := errors + 1;
          if |sampleErrors| < SampleLimit {
            sampleErrors := sampleErrors + ["Row " + Decimal(row.index) + ": " + message];
          }
      }
    }
    assert rows[..|rows|] == rows;
    return Ok(Report(ImportTarget, created, updated, skipped, errors, sampleErrors, dryRun));
  }

  /** At most ten sample errors are kept: the first ones, and all of them when there are ten or fewer. */
  lemma SampleErrorsAreTheFirst(rows: seq<SourceRow>, dryRun: bool)
    ensures var report := ReportAsWritten(rows, dryRun);
            && |report.sampleErrors| <= SampleLimit
            && report.sampleErrors <= ErrorLines(rows)
            && (report.errors <= SampleLimit ==> report.sampleErrors == ErrorLines(rows))
            && report.target == "City" && report.rolledBack == dryRun
  {
  }

  function Failures(rows: seq<SourceRow>): nat
  {
    if rows == [] then 0 else Failures(rows[..|rows| - 1]) + (if Classify(rows[|rows| - 1]).Failed? then 1 else 0)
  }

  /** Every row is counted once: skipped, created, updated or failed. */
  lemma {:induction false} OutcomesPartition(rows: seq<SourceRow>)
    ensures Skips(rows) + Creations(rows) + Updates(rows) + Failures(rows) == |rows|
    ensures |ErrorLines(rows)| == Failures(rows)
  {
    if rows != [] {
      OutcomesPartition(rows[..|rows| - 1]);
    }
  }

  /** With every creation counted, the four counters account for every row of the frame. */
  lemma TalliedReportCountsEveryRow(rows: seq<SourceRow>, dryRun: bool)
    ensures var report := TalliedReport(rows, dryRun);
            report.created + report.updated + report.skipped + report.errors == |rows|
  {
    OutcomesPartition(rows);
  }

  /** As written, two new cities are reported as one created, so the counters miss a row. */
  lemma CreatedCounterSticksAtOne(shape: PolygonShape)
    ensures var row := SourceRow(0, None, Some(Polygon(shape)), None, Inserted);
            var report := ReportAsWritten([row, row], false);
            && report.created == 1
            && report.created + report.updated + report.skipped + report.errors == 1
            && TalliedReport([row, row], false).created == 2
  {
    var row := SourceRow(0, None, Some(Polygon(shape)), None, Inserted);
    var rows := [row, row];
    assert Classify(row) == Created;
    assert rows[..1] == [row] && [row][..0] == [];
    assert Creations([row]) == 1 && Skips([row]) == 0 && Updates([row]) == 0 && ErrorLines([row]) == [];
    assert Creations(rows) == 2 && Skips(rows) == 0 && Updates(rows) == 0 && ErrorLines(rows) == [];
  }
}
