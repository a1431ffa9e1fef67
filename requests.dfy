/**
 * What the route handlers share: query-string date ranges, the
 * `x ? parse(x) : null` normalisation of body fields, and the check that a
 * parsed body can be destructured.
 */
module Requests {
  import opened Js

  /**
   * `{ gte: new Date(startDate), lte: new Date(endDate) }`, kept as the two
   * query strings; how `new Date(text)` reads a string is the parameter
   * `dateOf` wherever a range is applied.
   */
  datatype DateRange = DateRange(gte: string, lte: string)

  /** `if (startDate && endDate)`: a range only when both parameters are present and non-empty. */
  function RangeOf(startDate: Option<string>, endDate: Option<string>): (r: Option<DateRange>)
    ensures r.Some? <==> TruthyText(startDate) && TruthyText(endDate)
    ensures r.Some? ==> r.value == DateRange(startDate.value, endDate.value)
  {
    if TruthyText(startDate) && TruthyText(endDate) then Some(DateRange(startDate.value, endDate.value)) else None
  }

  /** A timestamp passes a date filter when there is none, or when it lies between both ends inclusive. */
  predicate InRange(range: Option<DateRange>, dateOf: string -> int, t: int) {
    range.None? || dateOf(range.value.gte) <= t <= dateOf(range.value.lte)
  }

  /** `const { … } = await request.json()` succeeds: the body parsed and is neither null nor undefined. */
  predicate Destructurable(body: Option<Value>) {
    body.Some? && !Nullish(body.value)
  }

  /** `x ? parseFloat(x) : null`. */
  function FloatOrNull(x: Value): (r: Value)
    ensures r.Null? <==> !Truthy(x)
    ensures !r.Null? ==> r == ParseFloat(x)
  {
    if Truthy(x) then ParseFloat(x) else Null
  }

  /** `x ? parseInt(x) : null`. */
  function IntOrNull(x: Value): (r: Value)
    ensures r.Null? <==> !Truthy(x)
    ensures !r.Null? ==> r == ParseInt(x)
  {
    if Truthy(x) then ParseInt(x) else Null
  }

  /** The number 0 and the empty string are stored as null, but the string "0" is stored as 0. */
  lemma ZeroBecomesNull()
    ensures FloatOrNull(Num(0.0)) == Null && FloatOrNull(Str("")) == Null && IntOrNull(Num(0.0)) == Null
    ensures FloatOrNull(Str("0")) == Num(0.0)
  {
    ParseFloatDigits("0");
  }

  /** The value a nullable number column receives: the number, or null. */
  function Column(v: Value): (r: Option<real>)
    ensures r.Some? <==> v.Num?
  {
    if v.Num? then Some(v.n) else None
  }
}
