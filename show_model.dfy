/** The `Show` document: field constraints, the trimmed title and the default flags. */
module ShowModel {
  import opened Common
  import opened Text

  /** A document as handed to the schema: any field may be missing. `year` is a
      JavaScript number, so it may have a fraction (NaN is not modelled). */
  datatype ShowDoc = ShowDoc(
    title: Option<string>,
    thumbnail: Option<string>,
    year: Option<real>,
    category: Option<string>,
    rating: Option<string>,
    isTrending: Option<bool>,
    isBookmarked: Option<bool>)

  /** A document that passed validation, as stored. */
  datatype Show = Show(
    title: string,
    thumbnail: string,
    year: real,
    category: string,
    rating: string,
    isTrending: bool,
    isBookmarked: bool)

  const CATEGORIES: seq<string> := ["Movie", "TV Series"]

  /** `title`: required, trimmed when set, then 1 to 255 characters. */
  predicate TitleOk(title: Option<string>) {
    title.Some? && 1 <= JsLength(Trim(title.value)) <= 255
  }

  /** `thumbnail`: required, 1 to 255 characters. */
  predicate ThumbnailOk(thumbnail: Option<string>) {
    thumbnail.Some? && 1 <= JsLength(thumbnail.value) <= 255
  }

  /** `year`: required, from 1900 to the year in which the schema was built. */
  predicate YearOk(year: Option<real>, schemaYear: int) {
    year.Some? && 1900.0 <= year.value <= schemaYear as real
  }

  /** `category`: required, one of the two values. */
  predicate CategoryOk(category: Option<string>) {
    category.Some? && category.value in CATEGORIES
  }

  /** `rating`: required; a required string may not be empty. */
  predicate RatingOk(rating: Option<string>) {
    rating.Some? && rating.value != ""
  }

  /** The schema's paths that validation can fail on. */
  datatype Path = TitlePath | ThumbnailPath | YearPath | CategoryPath | RatingPath

  /** The failure report of one path: the path itself when its check fails, nothing otherwise. */
  function Report(ok: bool, path: Path): (r: seq<Path>)
    ensures forall q :: q in r <==> !ok && q == path
  {
    if ok then [] else [path]
  }

  /** The paths that fail validation, in schema order. */
  function ShowErrors(doc: ShowDoc, schemaYear: int): (errs: seq<Path>)
    ensures TitlePath in errs <==> !TitleOk(doc.title)
    ensures ThumbnailPath in errs <==> !ThumbnailOk(doc.thumbnail)
    ensures YearPath in errs <==> !YearOk(doc.year, schemaYear)
    ensures CategoryPath in errs <==> !CategoryOk(doc.category)
    ensures RatingPath in errs <==> !RatingOk(doc.rating)
  {
    var title, thumbnail := Report(TitleOk(doc.title), TitlePath), Report(ThumbnailOk(doc.thumbnail), ThumbnailPath);
    var year := Report(YearOk(doc.year, schemaYear), YearPath);
    var category, rating := Report(CategoryOk(doc.category), CategoryPath), Report(RatingOk(doc.rating), RatingPath);
    title + thumbnail + year + category + rating
  }

  /** Validating and casting a document: the stored show, or the failing paths. */
  datatype Validated = Stored(show: Show) | Invalid(paths: seq<Path>)

  function ValidateShow(doc: ShowDoc, schemaYear: int): (r: Validated)
    ensures r.Stored? <==>
      TitleOk(doc.title) && ThumbnailOk(doc.thumbnail) && YearOk(doc.year, schemaYear)
      && CategoryOk(doc.category) && RatingOk(doc.rating)
    ensures r.Invalid? ==> r.paths != [] && r.paths == ShowErrors(doc, schemaYear)
    ensures r.Stored? ==>
      && r.show.title == Trim(doc.title.value)
      && r.show.thumbnail == doc.thumbnail.value
      && r.show.year == doc.year.value
      && r.show.category == doc.category.value
      && r.show.rating == doc.rating.value
      && r.show.isTrending == (doc.isTrending == Some(true))
      && r.show.isBookmarked == (doc.isBookmarked == Some(true))
  {
    var errs := ShowErrors(doc, schemaYear);
    if errs != [] then Invalid(errs)
    else
      assert TitlePath !in errs && ThumbnailPath !in errs && YearPath !in errs;
      assert CategoryPath !in errs && RatingPath !in errs;
      Stored(Show(
        Trim(doc.title.value), doc.thumbnail.value, doc.year.value, doc.category.value,
        doc.rating.value, doc.isTrending.GetOr(false), doc.isBookmarked.GetOr(false)))
  }

  /** A stored show as a document again. */
  function DocOf(s: Show): ShowDoc {
    ShowDoc(Some(s.title), Some(s.thumbnail), Some(s.year), Some(s.category), Some(s.rating),
      Some(s.isTrending), Some(s.isBookmarked))
  }

  /** Saving a stored show again keeps it as it is: the title is already trimmed and the
      flags already set. */
  lemma StoredShowIsStable(doc: ShowDoc, schemaYear: int)
    requires ValidateShow(doc, schemaYear).Stored?
    ensures var s := ValidateShow(doc, schemaYear).show;
      ValidateShow(DocOf(s), schemaYear) == Stored(s)
  {
    var s := ValidateShow(doc, schemaYear).show;
    var d := DocOf(s);
    TrimmedTitleStable(doc.title.value);
    assert TitleOk(d.title) && ThumbnailOk(d.thumbnail) && YearOk(d.year, schemaYear);
    assert CategoryOk(d.category) && RatingOk(d.rating);
    RevalidateTrimmed(s, schemaYear);
  }

  lemma RevalidateTrimmed(s: Show, schemaYear: int)
    requires Trim(s.title) == s.title
    requires TitleOk(Some(s.title)) && ThumbnailOk(Some(s.thumbnail)) && YearOk(Some(s.year), schemaYear)
    requires CategoryOk(Some(s.category)) && RatingOk(Some(s.rating))
    ensures ValidateShow(DocOf(s), schemaYear) == Stored(s)
  {
    assert ValidateShow(DocOf(s), schemaYear).Stored?;
  }

  lemma TrimmedTitleStable(t: string)
    requires TitleOk(Some(t))
    ensures TitleOk(Some(Trim(t))) && Trim(Trim(t)) == Trim(t)
  {
    TrimIdempotent(t);
  }

  /** A title of white space only is rejected, although it is present. */
  lemma BlankTitleRejected(doc: ShowDoc, schemaYear: int)
    requires doc.title.Some? && forall i :: 0 <= i < |doc.title.value| ==> IsJsWhitespace(doc.title.value[i])
    ensures ValidateShow(doc, schemaYear).Invalid?
  {
  }
}
