/**
 * The validation of `StressCategory` in urbanHeat/models.py: `clean` demands a name and then a
 * description, `save` runs full validation (field checks, then `clean`) before storing, and
 * `__str__` falls back to the id when there is no name.
 */
module UrbanHeat {
  import opened Wrappers
  import Text

  /** `max_length` of the category column. */
  const CategoryMaxLength: nat := 50

  datatype StressCategory = StressCategory(id: Option<nat>, category: Option<string>, description: Option<string>)

  datatype CategoryError =
    | MissingName              // "Stress category must have a name."
    | MissingDescription       // "Stress category must have a description."
    | NameTooLong              // the column's max_length check

  /** Python truth of an optional string: present and non-empty. */
  predicate Given(s: Option<string>)
  {
    s.Some? && s.value != []
  }

  /** `StressCategory.clean`: the name is checked first, so a category missing both reports the name. */
  function Clean(c: StressCategory): (r: Outcome<CategoryError>)
    ensures r == Pass <==> Given(c.category) && Given(c.description)
    ensures !Given(c.category) ==> r == Fail(MissingName)
    ensures Given(c.category) && !Given(c.description) ==> r == Fail(MissingDescription)
  {
    if !Given(c.category) then Fail(MissingName)
    else if !Given(c.description) then Fail(MissingDescription)
    else Pass
  }

  /**
   * `full_clean`: the field checks (only the category's length can fail, since blank values are
   * allowed) and then `clean`, which runs whatever the field checks found; all errors are reported.
   */
  function FullClean(c: StressCategory): seq<CategoryError>
  {
    (if c.category.Some? && |c.category.value| > CategoryMaxLength then [NameTooLong] else [])
    + (match Clean(c) case Pass => [] case Fail(e) => [e])
  }

  /** `save`: the category is stored only when full validation finds nothing. */
  function Save(stored: seq<StressCategory>, c: StressCategory): Result<seq<StressCategory>, seq<CategoryError>>
  {
    var errors := FullClean(c);
    if errors == [] then Ok(stored + [c]) else Err(errors)
  }

  /** Every stored category has a name of at most 50 characters and a description. */
  lemma SaveStoresOnlyValid(stored: seq<StressCategory>, c: StressCategory)
    ensures Save(stored, c).Ok? <==>
              Given(c.category) && |c.category.value| <= CategoryMaxLength && Given(c.description)
    ensures Save(stored, c).Ok? ==> Save(stored, c).value == stored + [c]
    ensures !Given(c.category) ==> Save(stored, c).Err? && Save(stored, c).error == [MissingName]
  {
    if !Given(c.category) {
      assert FullClean(c) == [] + [MissingName];
    }
  }

  /** `__str__`: the name when there is one, else "StressCategory " and the id ("None" before the first save). */
  function Str(c: StressCategory): (s: string)
    ensures Given(c.category) ==> s == c.category.value
  {
    if Given(c.category) then c.category.value
    else "StressCategory " + (if c.id.Some? then Text.Decimal(c.id.value) else "None")
  }

  /** The label is never empty, and an unnamed category's label gives back its id. */
  lemma StrNamesTheCategory(c: StressCategory)
    ensures Str(c) != []
    ensures !Given(c.category) && c.id.Some? ==>
              |Str(c)| > 15 && Str(c)[..15] == "StressCategory " && Text.ParseDecimal(Str(c)[15..]) == c.id.value
  {
    if !Given(c.category) && c.id.Some? {
      var digits := Text.Decimal(c.id.value);
      assert Str(c) == "StressCategory " + digits;
      assert Str(c)[15..] == digits;
      Text.DecimalRoundTrip(c.id.value);
    }
  }
}
