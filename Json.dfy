/** JSON values as Python's `json.loads` returns them (RFC 8259, plus the
    NaN and Infinity literals Python accepts). */
module Json {
  import opened Dicts

  /** The three non-finite floats `json.loads` accepts as bare words. */
  datatype NonFinite = NaN | PosInfinity | NegInfinity

  datatype Json =
    | JNull
    | JBool(b: bool)
      /** A number written without fraction or exponent: a Python `int`. */
    | JInt(i: int)
      /** Any other number: a Python `float`, kept exactly as
          `mantissa * 10^exponent`. */
    | JDecimal(mantissa: int, exponent: int)
    | JNonFinite(nf: NonFinite)
    | JString(s: string)
    | JArray(items: seq<Json>)
      /** A Python `dict`: entries in insertion order. */
    | JObject(members: Entries<Json>)

  /** Every object in `j` is a dictionary (its keys are distinct), as
      every value the decoder produces is. */
  predicate Valid(j: Json) {
    match j
    case JArray(items) => forall i :: 0 <= i < |items| ==> Valid(items[i])
    case JObject(ms) => DistinctKeys(ms) && forall i :: 0 <= i < |ms| ==> Valid(ms[i].1)
    case _ => true
  }
}
