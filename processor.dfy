/**
 * The value steps the parameter chains use: reading a field of the query or
 * body, `processor.int` and Python's built-in `int`. The library that
 * implements them is not part of this model; these are the conversions as
 * the call sites use them, with a failure reported against the field.
 */
module Processor {
  import opened Values
  import opened Errors

  /** The value a validator reads: an absent field fails for that field. */
  function Field(d: Dict, field: string): (r: Result<Value>)
    ensures r.Ok? <==> field in KeyList(d)
    ensures r.Ok? ==> Get(d, field) == Some(r.value)
    ensures !r.Ok? ==> r == Err(Raise(MalformedField(field)))
  {
    match Get(d, field)
    case None => Err(Raise(MalformedField(field)))
    case Some(v) => Ok(v)
  }

  /** A decimal integer literal: digits, optionally after a minus sign. */
  function ParseInt(s: string): (r: Option<int>)
    ensures r.Some? <==> IsDigits(s) || (|s| >= 2 && s[0] == '-' && IsDigits(s[1..]))
    ensures IsDigits(s) ==> r == Some(DigitsValue(s))
    ensures !IsDigits(s) && r.Some? ==> r == Some(-(DigitsValue(s[1..]) as int))
  {
    if IsDigits(s) then Some(DigitsValue(s))
    else if |s| >= 2 && s[0] == '-' && IsDigits(s[1..]) then Some(-(DigitsValue(s[1..]) as int))
    else None
  }

  /** `str(n)`. */
  function IntToString(n: int): string
  {
    if n < 0 then "-" + NatToString(-n) else NatToString(n)
  }

  /** Parsing reads back what `str` writes. */
  lemma ParseIntToString(n: int)
    ensures ParseInt(IntToString(n)) == Some(n)
  {
    if n < 0 {
      var s := IntToString(n);
      assert s[1..] == NatToString(-n);
      assert !IsDigits(s) by { assert !IsDigit(s[0]); }
    }
  }

  /** `processor.int`: an int passes, a decimal string is parsed, anything else fails for the field. */
  function ToInt(field: string, v: Value): (r: Result<int>)
    ensures v.VInt? ==> r == Ok(v.i)
    ensures v.VStr? && ParseInt(v.s).Some? ==> r == Ok(ParseInt(v.s).value)
    ensures !v.VInt? && !(v.VStr? && ParseInt(v.s).Some?) ==> r == Err(Raise(MalformedField(field)))
  {
    match v
    case VInt(i) => Ok(i)
    case VStr(s) => if ParseInt(s).Some? then Ok(ParseInt(s).value) else Err(Raise(MalformedField(field)))
    case _ => Err(Raise(MalformedField(field)))
  }

  /** A query string carries numbers as text: `processor.int` reads back the written number. */
  lemma ToIntOfText(field: string, n: int)
    ensures ToInt(field, VStr(IntToString(n))) == Ok(n)
  {
    ParseIntToString(n);
  }

  /** Python's `int(x)` of a float: truncation toward zero. */
  function Truncate(x: real): (n: int)
    ensures x >= 0.0 ==> n as real <= x < n as real + 1.0
    ensures x < 0.0 ==> n as real - 1.0 < x <= n as real
  {
    if x >= 0.0 then x.Floor else -((-x).Floor)
  }

  /**
   * The built-in `int`: besides what `processor.int` takes, a bool counts as
   * 0 or 1 and a float is truncated toward zero.
   */
  function BuiltinInt(field: string, v: Value): (r: Result<int>)
    ensures v.VBool? ==> r == Ok(if v.b then 1 else 0)
    ensures v.VFloat? ==> r == Ok(Truncate(v.r))
    ensures !v.VBool? && !v.VFloat? ==> r == ToInt(field, v)
  {
    match v
    case VBool(b) => Ok(if b then 1 else 0)
    case VFloat(x) => Ok(Truncate(x))
    case _ => ToInt(field, v)
  }
}
