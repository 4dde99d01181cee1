/** Declarative field constraints as pydantic evaluates them (`...` for a
    required field, `ge`/`le`, `min_length`/`max_length`), the error each one
    reports, and how a field's `@validator` runs after them. A model reports
    the errors of all its fields together, in field order. */
module Constraints {
  import opened Wrappers

  datatype ErrorKind =
    | Missing
    | GreaterThanEqual(lower: real)
    | LessThanEqual(upper: real)
    | StringTooShort(minLength: nat)
    | StringTooLong(maxLength: nat)
    | ValueError(message: string)

  /** One entry of a validation error: where (`loc`) and what went wrong. */
  datatype FieldError = FieldError(loc: seq<string>, kind: ErrorKind)

  type Checked<T> = Result<T, seq<FieldError>>

  /** The errors a checked field contributes to its model's error list. */
  function ErrorsOf<T>(c: Checked<T>): (errs: seq<FieldError>)
    ensures errs == [] <==> c.Ok? || c.error == []
    ensures c.Err? ==> errs == c.error
  {
    if c.Ok? then [] else c.error
  }

  /** A value that must be supplied (`Field(...)`). */
  function Required<T>(loc: seq<string>, v: Option<T>): (c: Checked<T>)
    ensures c.Ok? <==> v.Some?
    ensures c.Ok? ==> c.value == v.value
    ensures c.Err? ==> c.error == [FieldError(loc, Missing)]
  {
    if v.Some? then Ok(v.value) else Err([FieldError(loc, Missing)])
  }

  /** `ge=lower, le=upper` on a number. */
  function InRange(loc: seq<string>, x: real, lower: real, upper: real): (c: Checked<real>)
    requires lower <= upper
    ensures c.Ok? <==> lower <= x <= upper
    ensures c.Ok? ==> c.value == x
    ensures c.Err? ==> |c.error| == 1 && c.error[0].loc == loc
  {
    if x > upper then Err([FieldError(loc, LessThanEqual(upper))])
    else if x < lower then Err([FieldError(loc, GreaterThanEqual(lower))])
    else Ok(x)
  }

  /** `ge=lower, le=upper` on an integer. */
  function IntInRange(loc: seq<string>, x: int, lower: int, upper: int): (c: Checked<int>)
    requires lower <= upper
    ensures c.Ok? <==> lower <= x <= upper
    ensures c.Ok? ==> c.value == x
    ensures c.Err? ==> |c.error| == 1 && c.error[0].loc == loc
  {
    if x > upper then Err([FieldError(loc, LessThanEqual(upper as real))])
    else if x < lower then Err([FieldError(loc, GreaterThanEqual(lower as real))])
    else Ok(x)
  }

  /** `min_length=lo, max_length=hi` on a string, counted in characters. */
  function LengthInRange(loc: seq<string>, s: string, lo: nat, hi: nat): (c: Checked<string>)
    requires lo <= hi
    ensures c.Ok? <==> lo <= |s| <= hi
    ensures c.Ok? ==> c.value == s
    ensures c.Err? ==> |c.error| == 1 && c.error[0].loc == loc
  {
    if |s| < lo then Err([FieldError(loc, StringTooShort(lo))])
    else if |s| > hi then Err([FieldError(loc, StringTooLong(hi))])
    else Ok(s)
  }

  /** A field's `@validator`: it runs only on a value that passed the field's
      own constraints, and its `ValueError` becomes that field's error. */
  function ThenValidate<T>(loc: seq<string>, c: Checked<T>, validator: T -> Result<T, string>): (d: Checked<T>)
    ensures d.Ok? <==> c.Ok? && validator(c.value).Ok?
    ensures d.Ok? ==> d.value == validator(c.value).value
    ensures c.Err? ==> d == c
    ensures c.Ok? && d.Err? ==> d.error == [FieldError(loc, ValueError(validator(c.value).error))]
  {
    if c.Err? then c
    else match validator(c.value)
      case Ok(v) => Ok(v)
      case Err(m) => Err([FieldError(loc, ValueError(m))])
  }

  /** Whether some error lies at `loc` or inside it (a nested model's field). */
  predicate ReportsUnder(errs: seq<FieldError>, loc: seq<string>)
  {
    exists k | 0 <= k < |errs| :: loc <= errs[k].loc
  }

  /** Whether every error lies at `loc` or inside it. */
  predicate AllUnder(errs: seq<FieldError>, loc: seq<string>)
  {
    forall k | 0 <= k < |errs| :: loc <= errs[k].loc
  }

  lemma {:induction false} ReportsUnderConcat(a: seq<FieldError>, b: seq<FieldError>, loc: seq<string>)
    ensures ReportsUnder(a + b, loc) <==> ReportsUnder(a, loc) || ReportsUnder(b, loc)
  {
    if ReportsUnder(a + b, loc) {
      var k :| 0 <= k < |a + b| && loc <= (a + b)[k].loc;
      if k < |a| { assert a[k] == (a + b)[k]; }
      else { assert b[k - |a|] == (a + b)[k]; }
    }
    if ReportsUnder(a, loc) {
      var k :| 0 <= k < |a| && loc <= a[k].loc;
      assert (a + b)[k] == a[k];
    }
    if ReportsUnder(b, loc) {
      var k :| 0 <= k < |b| && loc <= b[k].loc;
      assert (a + b)[|a| + k] == b[k];
    }
  }

  /** Errors that all lie under one field name are never under another. */
  lemma AllUnderExcludes(errs: seq<FieldError>, field: string, other: string)
    requires AllUnder(errs, [field]) && field != other
    ensures !ReportsUnder(errs, [other])
  {
    forall k | 0 <= k < |errs|
      ensures !([other] <= errs[k].loc)
    {
      assert [field] <= errs[k].loc;
      assert errs[k].loc[0] == field;
    }
  }
}
