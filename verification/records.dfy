/**
  The tenant record as the create and delete handlers see it: every field is
  fetched with `Record.Get` and arrives as a dynamically typed value.
 */
module Records {
  import opened Decimal

  /** A Go `interface{}` value, as far as the handlers distinguish it. */
  datatype Value =
    | IntValue(i: Int64)
    | FloatValue(f: real)    // a float64, taken as the exact number it denotes
    | StringValue(s: string)
    | OtherValue             // nil (missing field), bool, slices and any other type

  datatype Record = Record(id: Value, name: Value, icon: Value, port: Value)

  /**
    Go's comma-ok assertion `v.(string)`: the string, or the zero value ""
    when `v` holds something else.
   */
  function AsString(v: Value): (s: string)
    ensures v.StringValue? ==> s == v.s
    ensures !v.StringValue? ==> s == ""
  {
    if v.StringValue? then v.s else ""
  }
}
