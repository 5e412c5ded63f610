/** The values that flow through the request pipeline and their Python str() forms. */
module Values {
  import opened Text

  /** A request-data value, or a key or value of the configured remapping table. */
  datatype Scalar = Bool(b: bool) | Int(i: int) | Str(s: string)

  /** Python's str(): "True"/"False" for booleans, decimal for ints, the text itself for strings. */
  function ScalarToString(v: Scalar): (r: string)
    ensures v.Str? ==> r == v.s
    ensures v.Bool? ==> r == if v.b then "True" else "False"
    ensures v.Int? ==> r == IntToString(v.i)
    ensures v.Int? ==> |r| > 0 && (v.i >= 0 ==> Canonical(r) && DecimalValue(r) == v.i)
    ensures v.Int? && v.i < 0 ==> r[0] == '-' && Canonical(r[1..]) && DecimalValue(r[1..]) == -v.i
  {
    match v
    case Bool(b) => if b then "True" else "False"
    case Int(i) =>
      if i >= 0 then
        NonNegativeIntToString(i);
        IntToString(i)
      else
        NegativeIntToString(i);
        IntToString(i)
    case Str(s) => s
  }
}
