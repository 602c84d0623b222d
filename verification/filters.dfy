/** The filter-to-query translation of the filtered listing
    (controllers/meal.js, `listBySearch`). */
module Filters {
  import opened Wrappers

  /** A scalar in a filter array of the JSON request body. JSON numbers may
      be fractional, so a number is a real. */
  datatype Value = Num(n: real) | Str(s: string)

  /** One condition of the store query.
      Range is `{ $gte: gte, $lte: lte }`; a bound is None when the filter
      array is too short to hold it (JavaScript `undefined`).
      Exact is the filter array passed through unchanged. */
  datatype Condition =
    | Range(gte: Option<Value>, lte: Option<Value>)
    | Exact(values: seq<Value>)

  /** `req.body.filters`: attribute name to the array of wanted values. */
  type FilterMap = map<string, seq<Value>>

  /** `findArgs`: attribute name to condition. */
  type FindArgs = map<string, Condition>

  const PriceKey := "price"

  /** JavaScript `v[i]`: `undefined` past the end of the array. */
  function At(v: seq<Value>, i: nat): (r: Option<Value>)
    ensures r.Some? <==> i < |v|
    ensures i < |v| ==> r.value == v[i]
  {
    if i < |v| then Some(v[i]) else None
  }

  /** `args` is the query built from the filter entries whose keys are in
      `done`: exactly the keys among them with a non-empty array appear;
      `price` is the closed range from the array's first to its second
      element; every other key holds its array unchanged. */
  ghost predicate Translates(filters: FilterMap, done: set<string>, args: FindArgs) {
    && (forall k :: k in args <==> k in done && k in filters && |filters[k]| > 0)
    && (PriceKey in args ==> args[PriceKey] == Range(At(filters[PriceKey], 0), At(filters[PriceKey], 1)))
    && (forall k :: k in args && k != PriceKey ==> args[k] == Exact(filters[k]))
  }

  /** `args` is the query built from every entry of `filters`. */
  ghost predicate IsFindArgsFor(filters: FilterMap, args: FindArgs) {
    Translates(filters, filters.Keys, args)
  }

  /** The `for (let key in req.body.filters)` loop, visiting keys in an
      unspecified order. */
  method BuildFindArgs(filters: FilterMap) returns (args: FindArgs)
    ensures IsFindArgsFor(filters, args)
  {
    args := map[];
    var pending := filters.Keys;
    while pending != {}
      invariant pending <= filters.Keys
      invariant Translates(filters, filters.Keys - pending, args)
      decreases pending
    {
      var key :| key in pending;
      var values := filters[key];
      if |values| > 0 {
        if key == PriceKey {
          args := args[key := Range(At(values, 0), At(values, 1))];
        } else {
          args := args[key := Exact(values)];
        }
      }
      pending := pending - {key};
    }
  }

  /** The filters determine the query: whatever order the keys are visited
      in, the same query results. */
  lemma FindArgsDetermined(filters: FilterMap, a: FindArgs, b: FindArgs)
    requires IsFindArgsFor(filters, a) && IsFindArgsFor(filters, b)
    ensures a == b
  {
  }

  /** An empty filter array contributes nothing: the query is the one built
      without that key, and the key does not appear in it. */
  lemma EmptyFilterIgnored(filters: FilterMap, args: FindArgs, k: string)
    requires IsFindArgsFor(filters, args)
    requires k in filters && filters[k] == []
    ensures k !in args
    ensures IsFindArgsFor(filters - {k}, args)
  {
  }

  /** Whether a numeric price meets a condition, under an uncast MongoDB
      comparison restricted to numbers: a range holds a price when both of
      its bounds are numbers and the price lies between them, ends included.
      Every other condition (a missing bound, a string bound the store's
      schema might cast, an exact match) is treated as matching no price; no
      lemma relies on that case. */
  predicate PriceSatisfies(price: real, c: Condition) {
    match c
    case Range(Some(Num(lo)), Some(Num(hi))) => lo <= price <= hi
    case _ => false
  }

  /** A price filter `[lo, hi, ...]` admits exactly the prices in the closed
      interval [lo, hi]; elements after the second are ignored. */
  lemma PriceFilterInclusive(filters: FilterMap, args: FindArgs, lo: real, hi: real, price: real)
    requires IsFindArgsFor(filters, args)
    requires PriceKey in filters && |filters[PriceKey]| >= 2
    requires filters[PriceKey][0] == Num(lo) && filters[PriceKey][1] == Num(hi)
    ensures PriceKey in args
    ensures PriceSatisfies(price, args[PriceKey]) <==> lo <= price <= hi
  {
  }
}
