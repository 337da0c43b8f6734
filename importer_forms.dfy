/**
 * The upload form validators of importer/forms.py: `clean_file` (extension, then size) and
 * `clean_source_crs` (an optional EPSG code in a fixed range).
 */
module ImporterForms {
  import opened Wrappers
  import opened Text

  const AcceptedExtensions: seq<string> := [".geojson", ".json", ".zip", ".shp"]
  const BytesPerMegabyte: nat := 1024 * 1024
  /** 100 MB. */
  const MaxUploadBytes: nat := 100 * BytesPerMegabyte
  const MinEpsg: int := 1000
  const MaxEpsg: int := 100000

  datatype UploadedFile = UploadedFile(name: string, size: nat)

  datatype FormError = UnsupportedExtension | FileTooLarge | EpsgOutOfRange

  /** The text the form shows for each error. */
  function Message(e: FormError): string
  {
    match e
    case UnsupportedExtension => "Please upload a GeoJSON (.geojson, .json) or Shapefile (.zip or .shp)."
    case FileTooLarge => "File size exceeds maximum allowed (" + Decimal(MaxUploadBytes / BytesPerMegabyte) + " MB)."
    case EpsgOutOfRange =>
      "EPSG code should be between 1000 and 100000. Common codes: 4326 (WGS84), 28992 (RD New), 3857 (Web Mercator)."
  }

  /** The size limit the message reports is the one the check applies. */
  lemma FileTooLargeMessage()
    ensures Message(FileTooLarge) == "File size exceeds maximum allowed (100 MB)."
  {
    assert Decimal(100) == "100" by {
      assert Decimal(10) == "10";
    }
  }

  /** `clean_file`: the file itself when it passes, the first failed check otherwise. */
  function CleanFile(file: UploadedFile): Result<UploadedFile, FormError>
  {
    if !EndsWithAny(Lower(file.name), AcceptedExtensions) then Err(UnsupportedExtension)
    else if file.size > MaxUploadBytes then Err(FileTooLarge)
    else Ok(file)
  }

  /**
   * A file passes exactly when its lower-cased name has an accepted extension and it is at most
   * 100 MB, and it is then returned unchanged; a file failing both checks is reported for its
   * extension.
   */
  lemma CleanFileRules(file: UploadedFile)
    ensures CleanFile(file).Ok? <==> EndsWithAny(Lower(file.name), AcceptedExtensions) && file.size <= MaxUploadBytes
    ensures CleanFile(file).Ok? ==> CleanFile(file).value == file
    ensures !EndsWithAny(Lower(file.name), AcceptedExtensions) ==> CleanFile(file) == Err(UnsupportedExtension)
  {
  }

  /** The limit is inclusive: exactly 104 857 600 bytes pass, one more byte fails. */
  lemma SizeLimitBoundary(name: string)
    requires EndsWithAny(Lower(name), AcceptedExtensions)
    ensures CleanFile(UploadedFile(name, 104857600)).Ok?
    ensures CleanFile(UploadedFile(name, 104857601)) == Err(FileTooLarge)
  {
  }

  /** The extension is matched whatever its case. */
  lemma ExtensionCaseInsensitive(name: string)
    ensures EndsWithAny(Lower(Lower(name)), AcceptedExtensions) == EndsWithAny(Lower(name), AcceptedExtensions)
    ensures EndsWithAny(Lower(name + ".GeoJSON"), AcceptedExtensions)
  {
    LowerIsIdempotent(name);
    var l := Lower(name + ".GeoJSON");
    assert l[|l| - 8..] == ".geojson";
    assert EndsWith(l, AcceptedExtensions[0]);
  }

  /** `clean_source_crs`: no code passes; a code passes unchanged when it lies in 1000..100000. */
  function CleanSourceCrs(crs: Option<int>): (r: Result<Option<int>, FormError>)
    ensures r.Ok? <==> crs.None? || MinEpsg <= crs.value <= MaxEpsg
    ensures r.Ok? ==> r.value == crs
    ensures r.Err? ==> r.error == EpsgOutOfRange
  {
    if crs.Some? && (crs.value < MinEpsg || crs.value > MaxEpsg) then Err(EpsgOutOfRange) else Ok(crs)
  }

  /** Both ends of the range are accepted, their neighbours outside are not; 4326 and 28992 pass. */
  lemma EpsgBoundaries()
    ensures CleanSourceCrs(Some(1000)).Ok? && CleanSourceCrs(Some(100000)).Ok?
    ensures CleanSourceCrs(Some(999)).Err? && CleanSourceCrs(Some(100001)).Err?
    ensures CleanSourceCrs(Some(4326)).Ok? && CleanSourceCrs(Some(28992)).Ok?
  {
  }
}
