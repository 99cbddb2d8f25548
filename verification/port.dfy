/** Normalisation of the record's `port` field in the create handler. */
module Port {
  import opened Results
  import opened Decimal
  import opened Records

  datatype PortError =
    | FractionalFloat         // a float64 with a decimal part
    | UnsupportedType         // neither int, float64 nor string
    | NotAnInteger(cause: NumError)   // a string Atoi refuses

  predicate IsWhole(f: real) { f.Floor as real == f }

  /**
    Tries an int, then a float64 (accepted only when it equals its floor), then
    a string (accepted exactly when Atoi parses it). There is no range or
    positivity check: "0" and "-1" are accepted ports.
   */
  function DecodePort(v: Value): (r: Result<int, PortError>)
    ensures v.IntValue? ==> r == Ok(v.i as int)
    ensures v.FloatValue? ==> (r.Ok? <==> IsWhole(v.f))
    ensures v.FloatValue? && r.Ok? ==> r.value as real == v.f
    ensures v.FloatValue? && r.Err? ==> r.error == FractionalFloat
    ensures v.StringValue? ==> (r.Ok? <==> WellFormed(v.s) && MinInt64 <= SignedValue(v.s) <= MaxInt64)
    ensures v.StringValue? && r.Ok? ==> r.value == SignedValue(v.s)
    ensures v.StringValue? && r.Err? ==> r.error == NotAnInteger(Atoi(v.s).error)
    ensures v.OtherValue? ==> r == Err(UnsupportedType)
  {
    match v
    case IntValue(i) => Ok(i)
    case FloatValue(f) =>
      if f != f.Floor as real then Err(FractionalFloat) else Ok(f.Floor)
    case StringValue(s) =>
      (match Atoi(s)
       case Ok(n) => Ok(n)
       case Err(e) => Err(NotAnInteger(e)))
    case OtherValue => Err(UnsupportedType)
  }

  /** The three encodings of one whole number decode to the same port. */
  lemma {:induction false} EncodingsAgree(n: Int64)
    ensures DecodePort(IntValue(n)) == Ok(n as int)
    ensures DecodePort(FloatValue(n as real)) == Ok(n as int)
    ensures DecodePort(StringValue(FormatInt(n))) == Ok(n as int)
  {
    AtoiInvertsFormatInt(n);
  }

  /** The examples the handler is meant for: 8080, 8080.0 and "8080" agree, 8080.5 is refused. */
  lemma PortExamples()
    ensures DecodePort(IntValue(8080)) == Ok(8080)
    ensures DecodePort(FloatValue(8080.0)) == Ok(8080)
    ensures DecodePort(StringValue("8080")) == Ok(8080)
    ensures DecodePort(FloatValue(8080.5)) == Err(FractionalFloat)
    ensures DecodePort(StringValue("8080.0")).Err?
    ensures DecodePort(StringValue("abc")).Err?
    ensures DecodePort(StringValue("")) == Err(NotAnInteger(ErrSyntax))
    ensures DecodePort(StringValue("0")) == Ok(0)
    ensures DecodePort(StringValue("-1")) == Ok(-1)
  {
    assert Unsigned("8080") == "8080";
    assert ValueOf("8080") == 8080 by {
      assert "8080"[..3] == "808";
      assert "808"[..2] == "80";
      assert "80"[..1] == "8";
      assert "8"[..0] == "";
    }
    assert !IsDigit("8080.0"[4]);
    assert !IsDigit("abc"[0]);
    assert Unsigned("0") == "0" && "0"[..0] == "";
    assert Unsigned("-1") == "1" && "1"[..0] == "";
  }
}
