/** Small value types shared by the storage and middleware models. */
module Common {

  /** Python's `X | None`. */
  datatype Option<+T> = None | Some(value: T) {
    function GetOr(default: T): T {
      match this
      case Some(v) => v
      case None => default
    }
  }

  /** A return value or the exception the operation raises instead. */
  datatype Result<+T, +E> = Success(value: T) | Failure(error: E)

  /**
   * One value of a dictionary produced by a `to_dict` serialiser.
   * `Time(t)` stands for the ISO-8601 rendering of the timestamp `t`.
   */
  datatype Value = Null | Str(s: string) | Int(i: int) | Time(t: int)

  /** An optional string as a dictionary value: `None` becomes `null`. */
  function OptionalStr(o: Option<string>): (v: Value)
    ensures v.Null? <==> o.None?
  {
    if o.Some? then Str(o.value) else Null
  }

  /** Reads an optional string back; anything that is neither a string nor null is malformed. */
  function AsOptionalStr(v: Value): (o: Option<Option<string>>)
    ensures o == Some(None) <==> v.Null?
  {
    match v
    case Null => Some(None)
    case Str(s) => Some(Some(s))
    case _ => None
  }

  /** Python truthiness of an optional string: neither `None` nor `""`. */
  predicate Truthy(o: Option<string>) {
    o.Some? && o.value != ""
  }
}
