/** The update handler's shallow merge (controllers/meal.js, `update`). */
module Update {
  import opened Meal

  /** The outcome of parsing the multipart form: a parse error, or its fields. */
  datatype FormParse = ParseFailed | Parsed(fields: Document)

  const ImageNotUploaded := "Image could not be uploaded"

  /** `_.extend(meal, fields)`: every submitted field overwrites the meal's
      attribute of that name; every other attribute is kept. */
  function Merge(existing: Document, fields: Document): (r: Document)
    ensures r.Keys == existing.Keys + fields.Keys
    ensures forall k :: k in fields ==> r[k] == fields[k]
    ensures forall k :: k in existing && k !in fields ==> r[k] == existing[k]
  {
    existing + fields
  }

  /** Decides an update request: a form that failed to parse is rejected and
      nothing is saved; otherwise the merged meal is saved. */
  function UpdateMeal(existing: Document, form: FormParse): (r: WriteOutcome)
    ensures r.Reject? <==> form.ParseFailed?
    ensures r.Reject? ==> r.error == ImageNotUploaded
    ensures form.Parsed? ==> r.Save? && r.doc.Keys == existing.Keys + form.fields.Keys
    ensures form.Parsed? ==> forall k :: k in form.fields ==> r.doc[k] == form.fields[k]
    ensures form.Parsed? ==> forall k :: k in existing && k !in form.fields ==> r.doc[k] == existing[k]
  {
    match form
    case ParseFailed => Reject(ImageNotUploaded)
    case Parsed(fields) => Save(Merge(existing, fields))
  }

  /** Submitting the same form twice leaves the meal as one submission did. */
  lemma MergeIdempotent(existing: Document, fields: Document)
    ensures Merge(Merge(existing, fields), fields) == Merge(existing, fields)
  {
  }

  /** An empty form changes nothing. */
  lemma MergeEmpty(existing: Document)
    ensures Merge(existing, map[]) == existing
  {
  }

  /** Two updates in a row equal one update with the later form laid over the
      earlier one. */
  lemma MergeSequential(existing: Document, first: Document, second: Document)
    ensures Merge(Merge(existing, first), second) == Merge(existing, Merge(first, second))
  {
  }
}
