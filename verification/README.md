# Meal controller rules, modelled in Dafny

This project models the pure decision rules of the meal endpoints of a
food-ordering REST API (`controllers/meal.js`). These are the rules that turn a
request into a decision, or into a description of a store query or update:

- **create** accepts a form only when `name`, `description`, `price` and
  `category` are all present and non-empty. Otherwise it answers
  "All fields are required" and saves nothing (module `Create`).
- **update** lays the submitted form fields over the stored meal, a shallow
  `_.extend` (module `Update`).
- **listBySearch** turns the `filters` of the request body into a store
  query. A `price` filter becomes a closed range. Every other non-empty filter
  is passed through as an exact match. Empty filters are dropped. The handler
  also defaults sort, order and limit (modules `Filters` and `Search`).
- **listSearch** builds a case-insensitive name match. It adds a category
  condition unless the category is missing, empty or `"All"` (module `Search`).
- **list** and **listRelated** default their sort, order and limit
  parameters (module `Listing`).
- **decreaseQuantity** maps an order's line items to one `updateOne` per
  item: `quantity -= count`, `sold += count`. An abstract `ApplyOps` gives
  the effect of those operations on the stored inventory (module `Inventory`).

JavaScript truthiness is modelled explicitly (module `Params`). A string
parameter is falsy when absent or empty, so a price of `"0"` passes the create
check. A JSON number in a body is falsy when absent or zero, so `limit: 0`
in the filtered listing falls back to 100. A filter array read past its end
(`v[1]` of a one-element array) gives `undefined`, modelled as `None`.

Behaviour of the handlers a reader might not expect:
- `create` and `update` never read the parsed files, so no photo is stored by
  either.
- `list` computes a `limit` but never applies it. The model keeps this
  behaviour and proves that the limit changes nothing (`ListIgnoresLimit`).
- `listRelated` selects all attributes, photo included. Only `list`,
  `listBySearch` and `listSearch` exclude the photo.
- `listSearch` with no search term builds no query and sends no response.
  The model returns `None` and does not choose a fix.
- `create` never looks at the form parser's error: a failed parse still
  reaches the required-field check with whatever fields arrived. Only
  `update` rejects a failed parse ("Image could not be uploaded").
  `CreateMeal` therefore takes any fields and has no parse-error case.

## Model

| member | source | states |
|---|---|---|
| Create.CreateMeal | controllers/meal.js:31-38 | rejected with "All fields are required" exactly when some required field is absent or empty; otherwise the submitted form itself is the document handed to the store |
| Create.CreateNeedsEachField | controllers/meal.js:31-37 | dropping or blanking any one of the four required fields makes create fail, whatever the rest of the form holds |
| Create.CreateIgnoresOtherFields | controllers/meal.js:31-37 | adding, changing or removing a field outside the four required ones never changes whether create is accepted |
| Update.Merge | controllers/meal.js:76 | the document handed to the store has the union of attributes; submitted keys take the submitted values; all other attributes keep their previous values |
| Update.UpdateMeal | controllers/meal.js:68-78 | a form parse error is rejected with "Image could not be uploaded" and nothing is saved; otherwise the merged meal is saved |
| Update.MergeIdempotent | controllers/meal.js:76 | submitting the same form twice gives the same meal as submitting it once |
| Update.MergeEmpty | controllers/meal.js:76 | an empty form leaves the meal unchanged |
| Update.MergeSequential | controllers/meal.js:76 | two updates in a row equal one update whose form is the second laid over the first |
| Filters.BuildFindArgs | controllers/meal.js:147-160 | a key is in the query iff its filter array is non-empty; `price` becomes the range from the array's first to its second element; other keys are copied unchanged |
| Filters.FindArgsDetermined | controllers/meal.js:147-160 | the filters determine the query uniquely, so the order in which the loop visits keys does not matter |
| Filters.EmptyFilterIgnored | controllers/meal.js:147-148 | an empty filter array adds no condition: the query equals the one built without that key |
| Filters.PriceFilterInclusive | controllers/meal.js:149-155 | a numeric price filter `[lo, hi, ...]`, fractional values included, admits exactly the prices p with lo <= p <= hi, inclusive on both ends |
| Search.PlanBySearch | controllers/meal.js:137-167 | the query is the filter translation; sort defaults to `_id` descending; limit defaults to 100 when absent or zero; skip is passed through; photo is excluded |
| Search.PlanTextSearch | controllers/meal.js:189-207 | a query exists iff a search term is given; it always holds the case-insensitive name match; it has a category condition iff a non-empty category other than "All" is given, and that condition is the given category; the photo is excluded |
| Search.AllCategoriesIsNoCategory | controllers/meal.js:196-198 | asking for category "All" gives the same query as giving no category |
| Search.CategoryOnlyNarrows | controllers/meal.js:193-198 | the category never decides whether a query is built, nor what its name condition is |
| Listing.PlanList | controllers/meal.js:89-97 | sort defaults to `_id` ascending when sortBy or order is absent or empty, and given values are used otherwise; photo is excluded |
| Listing.ListIgnoresLimit | controllers/meal.js:92-98 | two list requests that differ only in `limit` are planned identically |
| Listing.PlanRelated | controllers/meal.js:110-115 | related meals exclude the meal itself and share its category; the limit is the given one, else 6 |
| Inventory.BulkOps | controllers/meal.js:212-219 | exactly one update per ordered meal, in order; each targets that meal's id with quantity increment -count and sold increment +count |
| Inventory.ApplyOp | controllers/meal.js:214-216 | an update changes only the meal it targets, incrementing both counters with no lower bound; an id matching no meal changes nothing |
| Inventory.ApplyOps | controllers/meal.js:221 | applying a batch of updates neither adds nor removes meals |
| Inventory.DecreaseQuantity | controllers/meal.js:211-228 | a failed bulk write answers "Could not update meal"; otherwise the same meals remain, and each one's quantity is lower and its sold total higher by the total count ordered of it |
| Inventory.DecreaseEffect | controllers/meal.js:212-216 | after an order, each stored meal's quantity is lower by the total count ordered of it, and its sold total is higher by the same amount |
| Inventory.StockTotalPreserved | controllers/meal.js:216 | `quantity + sold` of every stored meal is unchanged by an order |
| Inventory.UnorderedUntouched | controllers/meal.js:212-216 | a meal the order does not name keeps its stock |
| Inventory.OrdersCommute | controllers/meal.js:212-216 | two orders leave the same inventory whichever is applied first |
| Inventory.QuantityMayGoNegative | controllers/meal.js:216 | there is no lower bound: one meal in stock and two ordered leaves quantity -1 and sold 2 |

## Left out

- Form parsing with `formidable`: multipart bodies and file uploads are foreign library I/O. The model starts from the parsed fields; for `update` it also starts from the fact that parsing failed.
- Store execution: `find`, `populate`, `sort`, `skip`, `limit`, `distinct`, `save` and `remove` are external. Only the descriptions of the queries and updates are modelled. `ApplyOps` is an abstract store that applies the decrement.
- `mealById`, `read`, `remove`, `photo` and `listCategories`: each is one store call or a direct response (`read` blanks the photo before answering; `photo` sends the stored photo when it has data and otherwise passes on), with no rule this model covers.
- Schema casting in `create` and `update`: the store builds the record from the document handed to it (`new Meal(fields)`, or `_.extend` onto a stored document). It adds a generated `_id` and schema defaults, drops keys outside the schema and casts values. The model promises only what is handed to the store.
- Save failures in `create` and `update`, and the `errorHandler` messages: the helper that maps store errors to messages is not part of this model.
- JSON/HTTP responses (`res.status(...).json`), including the `{size, data}` body of the filtered listing.
- `parseInt`: limits and skips are treated as already-parsed integers. A missing `skip` (which becomes NaN in the source) appears as `None` and is passed through.
- PlanBySearch: a body `limit` sent as a string rather than a number is not modelled. A string "0" would be truthy there, but the model reads 0 as falsy.
- Filters.PriceSatisfies gives meaning only to ranges with two numeric bounds. The matching meaning of exact-match conditions on array values is not modelled.
- Search.PlanTextSearch: the search term becomes a regular expression without escaping, and regular-expression matching is not modelled. Query parameters repeated into arrays are not modelled either.
- Filters.BuildFindArgs: every filter value is assumed to be an array. In the source the loop reads `.length` of whatever JSON value arrives. A `null` value throws a TypeError and the handler answers nothing. A string is taken by its character length, so `{price: "5-10"}` becomes `{$gte: "5", $lte: "-"}`. A number or boolean is skipped silently.
- Inventory.BulkOps: every line item is assumed to carry an integer `count` and the order to carry a `meals` array. In the source `-item.count` and `+item.count` turn a numeric string into a number and a missing count into NaN. A missing `order.meals` throws before any update is built.
- Listing.PlanList and Listing.PlanRelated: each query-string parameter is assumed to be a single string. A repeated parameter such as `?order=a&order=b` arrives as an array, is truthy, and is passed on to the store as that array; this is not modelled.
- DecreaseQuantity: a failed bulk write is modelled as one failure. Which updates an ordered bulk write applied before the failure is not modelled.
- Atomicity and concurrency of `bulkWrite`: each request is modelled as one sequential application of its updates.
- `routes/meal.js`: route wiring and the authentication and user middleware, which live in files not part of this model.
