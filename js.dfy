/**
 * The JavaScript value semantics the console's code leans on: a field that
 * may be `undefined`, `null` or a value, the nullish-coalescing operator
 * `??`, string truthiness, and `Number()` applied to a string.
 */
module Js {
  import opened Text

  /** A JSON field as the backend may send it: absent, `null`, or a value. */
  datatype Nullable<T> = Undefined | Null | Val(value: T)

  /** An optional field of a normalised record: `undefined` or a value. */
  datatype Option<T> = None | Some(value: T)

  /** `a ?? b`: the left operand unless it is `null` or `undefined`. */
  function Coalesce<T>(a: Nullable<T>, b: Nullable<T>): Nullable<T> {
    if a.Val? then a else b
  }

  /** `x ?? fallback` for a plain fallback value. */
  function OrElse<T>(a: Nullable<T>, fallback: T): T {
    if a.Val? then a.value else fallback
  }

  /** `o ?? fallback` on an optional value. */
  function OptionOr<T>(o: Option<T>, fallback: T): T {
    if o.Some? then o.value else fallback
  }

  /** A string that may be missing is truthy when present and non-empty. */
  predicate Truthy(s: Option<string>) {
    s.Some? && s.value != ""
  }

  /** `a || b` on strings: `""` is the only falsy string. */
  function OrString(a: string, b: string): string {
    if a != "" then a else b
  }

  /** A JavaScript number restricted to what the model needs: an integer or NaN. */
  datatype Num = Finite(value: int) | NaN

  /**
   * `Number(s)` for strings made of optional surrounding whitespace and
   * decimal digits: blank gives 0, a numeral gives its value, anything
   * else is NaN in this model.
   */
  function ToNumber(s: string): (n: Num)
    ensures AllSpace(s) ==> n == Finite(0)
    ensures n.Finite? ==> n.value >= 0
  {
    var t := Trim(s);
    TrimBlank(s);
    if t == [] then Finite(0)
    else if AllDigits(t) then Finite(DigitsValue(t))
    else NaN
  }
}
