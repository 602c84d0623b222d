/** The plain and related listings (controllers/meal.js, `list` and
    `listRelated`): what they ask of the store, given the request. */
module Listing {
  import opened Wrappers
  import opened Params
  import opened Meal

  /** `.sort([[field, order]])`. */
  datatype SortSpec = SortSpec(field: string, order: string)

  /** `.select('-photo')` or no selection. */
  datatype Projection = WithoutPhoto | AllAttributes

  /** `.populate('category')`, `.populate('category', '_id name')`, or none. */
  datatype Populate = FullCategory | CategoryIdAndName | NoPopulate

  const IdField := "_id"

  /** The query string of `GET /meals`; `limit` is already parsed, None when
      absent or empty. */
  datatype ListParams = ListParams(order: Option<string>, sortBy: Option<string>, limit: Option<int>)

  /** What `list` asks of the store. There is no limit: the handler computes
      one and never applies it. */
  datatype ListPlan = ListPlan(sort: SortSpec, projection: Projection, populate: Populate)

  function PlanList(p: ListParams): (r: ListPlan)
    ensures Truthy(p.sortBy) ==> r.sort.field == p.sortBy.value
    ensures !Truthy(p.sortBy) ==> r.sort.field == IdField
    ensures Truthy(p.order) ==> r.sort.order == p.order.value
    ensures !Truthy(p.order) ==> r.sort.order == "asc"
    ensures r.projection == WithoutPhoto && r.populate == FullCategory
  {
    ListPlan(SortSpec(OrDefault(p.sortBy, IdField), OrDefault(p.order, "asc")),
             WithoutPhoto, FullCategory)
  }

  /** The `limit` parameter of `list` is dead: any two requests that differ
      only in it are planned alike. */
  lemma ListIgnoresLimit(p: ListParams, limit: Option<int>)
    ensures PlanList(p.(limit := limit)) == PlanList(p)
  {
  }

  /** What `listRelated` asks of the store: meals other than `excludeId` in
      `category`, at most `limit` of them. */
  datatype RelatedPlan = RelatedPlan(excludeId: Id, category: Id, limit: int,
                                     projection: Projection, populate: Populate)

  const DefaultRelatedLimit := 6

  /** `limit` is the parsed query-string value, None when absent or empty; a
      given query-string value is a non-empty string and so always truthy. */
  function PlanRelated(meal: MealRef, limit: Option<int>): (r: RelatedPlan)
    ensures r.excludeId == meal.id && r.category == meal.category
    ensures limit.Some? ==> r.limit == limit.value
    ensures limit.None? ==> r.limit == DefaultRelatedLimit
    ensures r.projection == AllAttributes && r.populate == CategoryIdAndName
  {
    RelatedPlan(meal.id, meal.category, limit.ValueOr(DefaultRelatedLimit),
                AllAttributes, CategoryIdAndName)
  }
}
