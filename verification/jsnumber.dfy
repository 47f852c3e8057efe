/** JavaScript numbers as the APR display computes with them, over exact
    reals: a number is `NaN` or a finite real. Rounding to binary64 is not
    modelled; the arithmetic is the exact rational arithmetic the floating
    point approximates. */
module JsNumber {
  import opened Outcome
  import opened Decimal
  import JsString

  datatype Num = NaN | Fin(r: real)

  /** `NaN` and `0` are the falsy numbers. */
  predicate NumTruthy(a: Num) {
    a.Fin? && a.r != 0.0
  }

  /** `a || b` on numbers. */
  function NumOr(a: Num, b: Num): (r: Num)
    ensures NumTruthy(a) ==> r == a
    ensures !NumTruthy(a) ==> r == b
  {
    if NumTruthy(a) then a else b
  }

  function Add(a: Num, b: Num): Num {
    if a.Fin? && b.Fin? then Fin(a.r + b.r) else NaN
  }

  function Sub(a: Num, b: Num): Num {
    if a.Fin? && b.Fin? then Fin(a.r - b.r) else NaN
  }

  function Mul(a: Num, b: Num): Num {
    if a.Fin? && b.Fin? then Fin(a.r * b.r) else NaN
  }

  /** Division by a divisor the caller has guarded away from zero. */
  function Div(a: Num, b: Num): Num
    requires b != Fin(0.0)
  {
    if a.Fin? && b.Fin? then Fin(a.r / b.r) else NaN
  }

  /** `a < b`: every comparison with `NaN` is false. */
  predicate Less(a: Num, b: Num) {
    a.Fin? && b.Fin? && a.r < b.r
  }

  function Power(x: real, n: nat): real {
    if n == 0 then 1.0 else x * Power(x, n - 1)
  }

  /** `Math.pow(a, n)` for a natural exponent; `Math.pow(NaN, 0)` is 1. */
  function MathPow(a: Num, n: nat): Num {
    if n == 0 then Fin(1.0)
    else if a.NaN? then NaN
    else Fin(Power(a.r, n))
  }

  /** `Number(s)` for the strings the chain reports: surrounding whitespace
      is ignored, the empty string reads as 0, a digit string as its value;
      every other string is read as `NaN`. */
  function ToNumber(s: string): (r: Num)
    ensures JsString.Trim(s) == "" ==> r == Fin(0.0)
    ensures IsDigits(s) && s != "" ==> r == Fin(ParseDigits(s) as real)
  {
    var t := JsString.Trim(s);
    assert IsDigits(s) && s != "" ==> t == s by {
      if IsDigits(s) && s != "" { DigitsUntrimmed(s); }
    }
    if t == "" then Fin(0.0)
    else if IsDigits(t) then Fin(ParseDigits(t) as real)
    else NaN
  }

  lemma DigitsUntrimmed(s: string)
    requires IsDigits(s)
    ensures JsString.Trim(s) == s
  {
    assert |s| > 0 ==> !JsString.IsWhitespace(s[0]);
    assert JsString.TrimStart(s) == s;
    assert |s| > 0 ==> !JsString.IsWhitespace(s[|s| - 1]);
  }

  /** `Number(s || "0")` for an optional string field. */
  function ReadNumber(field: Option<string>): Num {
    ToNumber(if field.None? || field.value == "" then "0" else field.value)
  }

  /** An absent field and an empty one both read as 0, and a digit string
      reads as its value. */
  lemma ReadNumberDefaults(s: string)
    ensures ReadNumber(None) == Fin(0.0) && ReadNumber(Some("")) == Fin(0.0)
    ensures IsDigits(s) && s != "" ==> ReadNumber(Some(s)) == Fin(ParseDigits(s) as real)
  {
    assert ParseDigits("0") == 0 by {
      assert "0"[..0] == "";
    }
  }
}
