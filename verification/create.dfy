/** The create handler's required-field check (controllers/meal.js, `create`). */
module Create {
  import opened Wrappers
  import opened Params
  import opened Meal

  /** The four form fields a new meal must carry. */
  const RequiredFields: seq<string> := ["name", "description", "price", "category"]

  const AllFieldsRequired := "All fields are required"

  /** The required fields that are absent or empty in a submitted form. */
  function MissingFields(fields: Document): set<string> {
    set k | k in RequiredFields && !Truthy(Field(fields, k))
  }

  /** Decides a create request from its parsed form fields: rejected with
      "All fields are required" when any required field is absent or empty,
      otherwise the whole form is saved as the new meal. */
  function CreateMeal(fields: Document): (r: WriteOutcome)
    ensures r.Reject? <==> MissingFields(fields) != {}
    ensures r.Reject? ==> r.error == AllFieldsRequired
    ensures r.Save? ==> r.doc == fields
  {
    if !Truthy(Field(fields, "name")) || !Truthy(Field(fields, "description"))
       || !Truthy(Field(fields, "price")) || !Truthy(Field(fields, "category"))
    then
      assert !Truthy(Field(fields, "name")) ==> "name" in MissingFields(fields);
      assert !Truthy(Field(fields, "description")) ==> "description" in MissingFields(fields);
      assert !Truthy(Field(fields, "price")) ==> "price" in MissingFields(fields);
      assert !Truthy(Field(fields, "category")) ==> "category" in MissingFields(fields);
      Reject(AllFieldsRequired)
    else
      Save(fields)
  }

  /** Removing or blanking any one required field makes the request fail,
      whatever else the form holds. */
  lemma CreateNeedsEachField(fields: Document, k: string)
    requires k in RequiredFields
    ensures CreateMeal(fields - {k}) == Reject(AllFieldsRequired)
    ensures CreateMeal(fields[k := ""]) == Reject(AllFieldsRequired)
  {
  }

  /** Fields other than the four required ones never decide acceptance. */
  lemma CreateIgnoresOtherFields(fields: Document, k: string, v: string)
    requires k !in RequiredFields
    ensures CreateMeal(fields[k := v]).Save? <==> CreateMeal(fields).Save?
    ensures CreateMeal(fields - {k}).Save? <==> CreateMeal(fields).Save?
  {
  }
}
