/**
 * The reader dispatch of `gpd_read_any` in importer/utils.py. The upload's lower-cased name picks
 * the branch; for a ZIP archive the extracted tree is walked and the first shapefile met is read.
 * The walk of the extracted archive is a parameter, one entry per directory as `os.walk` yields it.
 */
module ImporterUtils {
  import opened Wrappers
  import opened Text
  import ImporterForms

  const ShapefileSuffix: string := ".shp"

  /** One step of `os.walk`: a directory and the names of the files directly in it. */
  datatype WalkEntry = WalkEntry(root: string, files: seq<string>)

  /** What is handed to the GeoDataFrame reader. */
  datatype Reader = GeoJson | Shapefile(path: string)

  datatype ReadError = NoShapefileInZip | ShapefileNotZipped | UnsupportedFormat

  function Message(e: ReadError): string
  {
    match e
    case NoShapefileInZip => "No .shp found inside ZIP."
    case ShapefileNotZipped => "Shapefile must be uploaded as a ZIP."
    case UnsupportedFormat => "Unsupported file format."
  }

  /** The index of the first name from `j` on that ends with ".shp" (case-sensitive). */
  function FirstShapefileFrom(files: seq<string>, j: nat): (r: Option<nat>)
    requires j <= |files|
    ensures r.Some? ==> j <= r.value < |files| && EndsWith(files[r.value], ShapefileSuffix)
    ensures r.Some? ==> forall m :: j <= m < r.value ==> !EndsWith(files[m], ShapefileSuffix)
    ensures r.None? ==> forall m :: j <= m < |files| ==> !EndsWith(files[m], ShapefileSuffix)
    decreases |files| - j
  {
    if j == |files| then None
    else if EndsWith(files[j], ShapefileSuffix) then Some(j)
    else FirstShapefileFrom(files, j + 1)
  }

  /** The path of the first shapefile met walking the entries from `i` on. */
  function FirstShapefileIn(walk: seq<WalkEntry>, i: nat): Option<string>
    requires i <= |walk|
    decreases |walk| - i
  {
    if i == |walk| then None
    else
      var j := FirstShapefileFrom(walk[i].files, 0);
      if j.Some? then Some(JoinPath(walk[i].root, walk[i].files[j.value])) else FirstShapefileIn(walk, i + 1)
  }

  ghost predicate HasShapefile(walk: seq<WalkEntry>, i: nat)
    requires i <= |walk|
  {
    exists k, m :: i <= k < |walk| && 0 <= m < |walk[k].files| && EndsWith(walk[k].files[m], ShapefileSuffix)
  }

  /**
   * The search finds a path exactly when some walked file ends with ".shp", and the path it
   * returns joins that directory and file name, so it ends with ".shp" too.
   */
  lemma {:induction false} FirstShapefileFound(walk: seq<WalkEntry>, i: nat)
    requires i <= |walk|
    ensures FirstShapefileIn(walk, i).Some? <==> HasShapefile(walk, i)
    ensures FirstShapefileIn(walk, i).Some? ==> EndsWith(FirstShapefileIn(walk, i).value, ShapefileSuffix)
    decreases |walk| - i
  {
    if i < |walk| {
      var j := FirstShapefileFrom(walk[i].files, 0);
      if j.Some? {
        var file := walk[i].files[j.value];
        JoinPathEndsWith(walk[i].root, file);
        EndsWithTrans(JoinPath(walk[i].root, file), file, ShapefileSuffix);
      } else {
        FirstShapefileFound(walk, i + 1);
        if HasShapefile(walk, i) {
          var k, m :| i <= k < |walk| && 0 <= m < |walk[k].files| && EndsWith(walk[k].files[m], ShapefileSuffix);
          assert k != i;
          assert HasShapefile(walk, i + 1);
        }
      }
    }
  }

  /** The walk of the extracted archive, stopping at the first shapefile. */
  method FindShapefile(walk: seq<WalkEntry>) returns (path: Option<string>)
    ensures path == FirstShapefileIn(walk, 0)
  {
    for i := 0 to |walk|
      invariant FirstShapefileIn(walk, 0) == FirstShapefileIn(walk, i)
    {
      var files := walk[i].files;
      for j := 0 to |files|
        invariant FirstShapefileFrom(files, 0) == FirstShapefileFrom(files, j)
      {
        if EndsWith(files[j], ShapefileSuffix) {
          return Some(JoinPath(walk[i].root, files[j]));
        }
      }
    }
    return None;
  }

  /** The branch `gpd_read_any` takes for an upload named `name`. */
  function ReadAny(name: string, walk: seq<WalkEntry>): Result<Reader, ReadError>
  {
    var lower := Lower(name);
    if EndsWithAny(lower, [".geojson", ".json"]) then Ok(GeoJson)
    else if EndsWith(lower, ".zip") then
      var shp := FirstShapefileIn(walk, 0);
      if shp.Some? then Ok(Shapefile(shp.value)) else Err(NoShapefileInZip)
    else if EndsWith(lower, ShapefileSuffix) then Err(ShapefileNotZipped)
    else Err(UnsupportedFormat)
  }

  /** `gpd_read_any`, up to handing the chosen file to the reader. */
  method GpdReadAny(name: string, walk: seq<WalkEntry>) returns (r: Result<Reader, ReadError>)
    ensures r == ReadAny(name, walk)
  {
    var lower := Lower(name);
    if EndsWithAny(lower, [".geojson", ".json"]) {
      return Ok(GeoJson);
    }
    if EndsWith(lower, ".zip") {
      var shp := FindShapefile(walk);
      if shp.Some? {
        return Ok(Shapefile(shp.value));
      }
      return Err(NoShapefileInZip);
    }
    if EndsWith(lower, ShapefileSuffix) {
      return Err(ShapefileNotZipped);
    }
    return Err(UnsupportedFormat);
  }

  /**
   * Every upload the form accepts reaches a reader branch: it is never refused as an
   * unsupported format. A ZIP is read when its tree holds a shapefile, and the path read is
   * a shapefile's.
   */
  lemma AcceptedUploadsAreSupported(file: ImporterForms.UploadedFile, walk: seq<WalkEntry>)
    requires ImporterForms.CleanFile(file).Ok?
    ensures ReadAny(file.name, walk) != Err(UnsupportedFormat)
    ensures EndsWith(Lower(file.name), ".zip") ==>
              (ReadAny(file.name, walk).Ok? <==> HasShapefile(walk, 0))
    ensures ReadAny(file.name, walk).Ok? && ReadAny(file.name, walk).value.Shapefile? ==>
              EndsWith(ReadAny(file.name, walk).value.path, ShapefileSuffix)
  {
    AcceptedNameHasBranch(Lower(file.name));
    ZipIsNotGeoJson(Lower(file.name));
    FirstShapefileFound(walk, 0);
  }

  /** A name with an accepted extension ends with one of the dispatch's suffixes. */
  lemma AcceptedNameHasBranch(lower: string)
    requires EndsWithAny(lower, ImporterForms.AcceptedExtensions)
    ensures EndsWithAny(lower, [".geojson", ".json"]) || EndsWith(lower, ".zip") || EndsWith(lower, ShapefileSuffix)
  {
    var k :| 0 <= k < |ImporterForms.AcceptedExtensions| && EndsWith(lower, ImporterForms.AcceptedExtensions[k]);
    if k < 2 {
      assert EndsWith(lower, [".geojson", ".json"][k]);
    }
  }

  /** A name ending in ".zip" does not end in ".geojson" or ".json". */
  lemma ZipIsNotGeoJson(lower: string)
    ensures EndsWith(lower, ".zip") ==> !EndsWithAny(lower, [".geojson", ".json"])
  {
    forall m | 0 <= m < 2 ensures !(EndsWith(lower, ".zip") && EndsWith(lower, [".geojson", ".json"][m])) {
      var suffix := [".geojson", ".json"][m];
      assert suffix[|suffix| - 1] == 'n';
      EndsWithLast(lower, suffix);
      EndsWithLast(lower, ".zip");
    }
  }
}
