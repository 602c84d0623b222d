/** The meal entity as the controller handles it. */
module Meal {
  import opened Wrappers

  /** A document id (`_id`), also used for category references. */
  type Id = string

  /** A meal document as a form submits it or the store holds it: attribute
      name to attribute value. The controller never looks inside the values;
      the store's schema casting is outside the model. */
  type Document = map<string, string>

  /** The value of one attribute, `undefined` when the document lacks it. */
  function Field(doc: Document, key: string): (r: Option<string>)
    ensures r.Some? <==> key in doc
    ensures key in doc ==> r.value == doc[key]
  {
    if key in doc then Some(doc[key]) else None
  }

  /** A meal resolved from the `:mealId` path parameter, as far as the related
      listing uses it: its own id and its category reference. */
  datatype MealRef = MealRef(id: Id, category: Id)

  /** What a create or update handler decides: answer with a 400 error and save
      nothing, or save the given document. */
  datatype WriteOutcome = Reject(error: string) | Save(doc: Document)
}
