/** Request parameters as the meal controller reads them, and JavaScript's
    `p ? p : fallback` idiom that gives a missing parameter its default. */
module Params {
  import opened Wrappers

  /** A string parameter (query string, form field, JSON body string) is
      truthy exactly when it is present and not the empty string. A non-empty
      string such as "0" is truthy. */
  predicate Truthy(p: Option<string>) {
    p.Some? && p.value != ""
  }

  /** A JSON number in a request body is truthy exactly when it is present and
      not zero (NaN and fractions are outside the model). */
  predicate NumTruthy(p: Option<int>) {
    p.Some? && p.value != 0
  }

  /** `p ? p : fallback` on a string parameter: the submitted value when it is
      truthy, the fallback otherwise. */
  function OrDefault(p: Option<string>, fallback: string): (r: string)
    ensures Truthy(p) ==> r == p.value
    ensures !Truthy(p) ==> r == fallback
    ensures fallback != "" ==> r != ""
  {
    if Truthy(p) then p.value else fallback
  }
}
