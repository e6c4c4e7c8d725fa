/** Small helpers shared by the modules: an Option type and the JavaScript
    "falsy value falls back to a default" idiom (`x || 0`, `s || 'USD'`). */
module Common {

  datatype Option<+T> = None | Some(value: T)

  /** JavaScript's `parseFloat`, taken as a parameter: `None` stands for NaN
      (nothing parseable), `Some(v)` for the number it reads. */
  type FloatParser = string -> Option<real>

  /** JavaScript's `parseInt`, taken as a parameter in the same way. */
  type IntParser = string -> Option<int>

  /** `n || 0` for a number that may be NaN: NaN and 0 are both falsy. */
  function OrZero(n: Option<real>): (r: real)
    ensures n.None? ==> r == 0.0
    ensures n.Some? ==> r == n.value
  {
    match n
    case None => 0.0
    case Some(v) => v
  }

  /** `n || 0` for an integer that may be NaN. */
  function IntOrZero(n: Option<int>): (r: int)
    ensures n.None? ==> r == 0
    ensures n.Some? ==> r == n.value
  {
    match n
    case None => 0
    case Some(v) => v
  }

  /** `s || d` for an optional string: undefined and "" are both falsy. */
  function OrDefault(s: Option<string>, d: string): (r: string)
    ensures s.Some? && s.value != "" ==> r == s.value
    ensures s.None? || s.value == "" ==> r == d
  {
    if s.Some? && s.value != "" then s.value else d
  }

  function Max(a: real, b: real): real { if a >= b then a else b }

  function Min(a: real, b: real): real { if a <= b then a else b }
}
