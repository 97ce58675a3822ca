/** The date conversions of the data layer and the handlers. The calendar
    arithmetic itself (`datetime.strptime(...).timestamp()` and
    `datetime.fromtimestamp(...).strftime('%Y-%m-%d')`, both in the local
    timezone) is left uninterpreted: a `DateCodec` carries the two conversions
    as functions, `None` standing for the exception either one raises. What
    is modelled is how the code reaches them: which values it hands over and
    which Python errors come first. */
module Dates {
  import opened Values

  datatype DateCodec = DateCodec(
    /** `Decimal(datetime.strptime(s, '%Y-%m-%d').timestamp())`. */
    parse: string -> Option<Value>,
    /** `datetime.fromtimestamp(x).strftime('%Y-%m-%d')`. */
    format: real -> Option<string>)

  /** `float(v)`. Strings are read as integer literals only. */
  function ToFloat(v: Value): Result<real>
  {
    match v
    case Null => Raise(TypeError)
    case Bool(b) => Ok(if b then 1.0 else 0.0)
    case Int(i) => Ok(i as real)
    case Num(x) => Ok(x)
    case Str(s) => if ParseInt(s).Some? then Ok(ParseInt(s).value as real) else Raise(ValueError)
  }

  /** `__convert_decimal_from_string_to_input_dynamodb(v)`: a date string to the
      stored timestamp. `strptime` refuses a non-string with `TypeError`. */
  function EncodeDate(codec: DateCodec, v: Value): (r: Result<Value>)
    ensures !v.Str? ==> r == Raise(TypeError)
    ensures v.Str? ==> (r.Ok? <==> codec.parse(v.s).Some?)
  {
    if !v.Str? then Raise(TypeError)
    else match codec.parse(v.s)
      case None => Raise(ValueError)
      case Some(t) => Ok(t)
  }

  /** `convert_datetime_from_decimal(v)`: a stored timestamp to its date string. */
  function DecodeDate(codec: DateCodec, v: Value): (r: Result<string>)
    ensures r.Ok? <==> ToFloat(v).Ok? && codec.format(ToFloat(v).value).Some?
  {
    match ToFloat(v)
    case Raise(e) => Raise(e)
    case Ok(x) =>
      match codec.format(x)
      case None => Raise(ValueError)
      case Some(s) => Ok(s)
  }
}
