/**
 * What the input forms see of a text field: the text as typed, and what
 * `parseFloat` / `parseInt` made of it, None standing for NaN. A range
 * guard written as `x < lo || x > hi` or `x <= 0` is false for NaN, so an
 * unparseable number passes it.
 */
module Forms {
  import opened Series

  datatype NumberField = NumberField(text: string, parsed: Option<real>)
  datatype IntField = IntField(text: string, parsed: Option<int>)

  /** `!value` on a form string: only the empty string is missing. */
  predicate Missing(text: string)
  {
    text == ""
  }

  /** `isNaN(x) || x <= 0`: not a positive number. */
  predicate NotPositive(x: Option<real>)
  {
    x.None? || x.value <= 0.0
  }

  predicate NotPositiveInt(x: Option<int>)
  {
    x.None? || x.value <= 0
  }

  /** `x <= 0` alone: NaN is not caught. */
  predicate NonPositiveNumber(x: Option<real>)
  {
    x.Some? && x.value <= 0.0
  }

  /** `x < lo || x > hi` alone: NaN is not caught. */
  predicate OutOfRangeNumber(x: Option<real>, lo: real, hi: real)
  {
    x.Some? && (x.value < lo || x.value > hi)
  }

  /** `isNaN(x) || x < lo || x > hi`. */
  predicate OutOfRange(x: Option<real>, lo: real, hi: real)
  {
    x.None? || x.value < lo || x.value > hi
  }

  /** `value || null` on a form string: the empty string becomes null. */
  function NullIfEmpty(text: string): (r: Option<string>)
    ensures r.None? <==> text == ""
    ensures r.Some? ==> r.value == text
  {
    if text == "" then None else Some(text)
  }

  /** `parseInt(text) || 0`. */
  function IntOrZero(x: Option<int>): (r: int)
    ensures x.None? ==> r == 0
    ensures x.Some? ==> r == x.value
  {
    if x.Some? then x.value else 0
  }
}
