/** The filtered, paginated listing and the text search
    (controllers/meal.js, `listBySearch` and `listSearch`). */
module Search {
  import opened Wrappers
  import opened Params
  import opened Filters
  import opened Listing

  /** The JSON body of `POST /meals/by/search`. `limit` and `skip` are JSON
      numbers, None when absent. */
  datatype PageRequest = PageRequest(order: Option<string>, sortBy: Option<string>,
                                     limit: Option<int>, skip: Option<int>,
                                     filters: FilterMap)

  /** What `listBySearch` asks of the store. */
  datatype PagePlan = PagePlan(args: FindArgs, sort: SortSpec, skip: Option<int>, limit: int,
                               projection: Projection, populate: Populate)

  const DefaultPageLimit := 100

  method PlanBySearch(req: PageRequest) returns (plan: PagePlan)
    ensures IsFindArgsFor(req.filters, plan.args)
    ensures Truthy(req.sortBy) ==> plan.sort.field == req.sortBy.value
    ensures !Truthy(req.sortBy) ==> plan.sort.field == IdField
    ensures Truthy(req.order) ==> plan.sort.order == req.order.value
    ensures !Truthy(req.order) ==> plan.sort.order == "desc"
    ensures NumTruthy(req.limit) ==> plan.limit == req.limit.value
    ensures !NumTruthy(req.limit) ==> plan.limit == DefaultPageLimit
    ensures plan.skip == req.skip
    ensures plan.projection == WithoutPhoto && plan.populate == FullCategory
  {
    var order := OrDefault(req.order, "desc");
    var sortBy := OrDefault(req.sortBy, IdField);
    var limit := if NumTruthy(req.limit) then req.limit.value else DefaultPageLimit;
    var args := BuildFindArgs(req.filters);
    plan := PagePlan(args, SortSpec(sortBy, order), req.skip, limit, WithoutPhoto, FullCategory);
  }

  /** `{ $regex: pattern, $options: options }` on the meal's name. */
  datatype NameMatch = NameMatch(pattern: string, options: string)

  /** The query of `GET /meals/search`: a name match, a category when one
      narrows it, and the `.select('-photo')` projection. */
  datatype TextQuery = TextQuery(name: NameMatch, category: Option<string>, projection: Projection)

  /** The category value that means "no category filter". */
  const AllCategories := "All"

  /** `search` and `category` are the query-string parameters. With no search
      term no query is built (and the handler sends no response at all). */
  function PlanTextSearch(search: Option<string>, category: Option<string>): (r: Option<TextQuery>)
    ensures r.Some? <==> Truthy(search)
    ensures r.Some? ==> r.value.name == NameMatch(search.value, "i")
    ensures r.Some? ==> (r.value.category.Some? <==> Truthy(category) && category.value != AllCategories)
    ensures r.Some? && r.value.category.Some? ==> r.value.category == category
    ensures r.Some? ==> r.value.projection == WithoutPhoto
  {
    if !Truthy(search) then None
    else
      var narrowed := if Truthy(category) && category.value != AllCategories then category else None;
      Some(TextQuery(NameMatch(search.value, "i"), narrowed, WithoutPhoto))
  }

  /** Asking for category "All" is the same as giving no category. */
  lemma AllCategoriesIsNoCategory(search: Option<string>)
    ensures PlanTextSearch(search, Some(AllCategories)) == PlanTextSearch(search, None)
  {
  }

  /** The category never changes the name condition, nor whether a query is
      built. */
  lemma CategoryOnlyNarrows(search: Option<string>, c1: Option<string>, c2: Option<string>)
    ensures PlanTextSearch(search, c1).Some? == PlanTextSearch(search, c2).Some?
    ensures PlanTextSearch(search, c1).Some? ==>
              PlanTextSearch(search, c1).value.name == PlanTextSearch(search, c2).value.name
  {
  }
}
