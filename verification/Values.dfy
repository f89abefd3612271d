/**
 Decoded JSON documents, read the way the billing code reads them: every accessor is total, and a
 value of the wrong type reads as absent or as zero.
 */
module Values {
  import opened Wrappers

  datatype Value =
    | Null
    | Bool(flag: bool)
      /** A finite float, or an integer that a float can represent in range. */
    | Number(value: real)
      /** An integer outside the range of a float: `float()` raises OverflowError on it. */
    | HugeInt(digits: int)
      /** NaN or an infinity: `int()` raises on it. */
    | NonFinite
      /** A string, with what `float()`, `int()` and `.strip().lower()` make of it. */
    | Text(text: string, floatReading: Option<real>, intReading: Option<int>, folded: string)
    | List(items: seq<Value>)
    | Dict(entries: map<string, Value>)
  {
    /** Python truthiness, which decides every `value or default`. */
    predicate Truthy() {
      match this
      case Null => false
      case Bool(b) => b
      case Number(v) => v != 0.0
      case HugeInt(_) => true
      case NonFinite => true
      case Text(t, _, _, _) => t != ""
      case List(items) => items != []
      case Dict(entries) => entries != map[]
    }

    function Or(other: Value): Value { if Truthy() then this else other }

    /** `float(value or 0.0)`; None stands for an exception or a result that is not finite. */
    function AsFloat(): Option<real> {
      if !Truthy() then Some(0.0) else
      match this
      case Bool(_) => Some(1.0)
      case Number(v) => Some(v)
      case Text(_, reading, _, _) => reading
      case _ => None
    }

    /** `int(value or 0)`, truncating a float toward zero; None stands for an exception. */
    function AsInt(): Option<int> {
      if !Truthy() then Some(0) else
      match this
      case Bool(_) => Some(1)
      case Number(v) => Some(if v >= 0.0 then v.Floor else -((-v).Floor))
      case HugeInt(v) => Some(v)
      case Text(_, _, reading, _) => reading
      case _ => None
    }

    /** `str(value or "").strip().lower()`, with "" for any value that is not a string. */
    function Label(): string { if Text? then folded else "" }

    function EntriesOrEmpty(): map<string, Value> { if Dict? then entries else map[] }

    function ItemsOrEmpty(): seq<Value> { if List? then items else [] }
  }

  /** `entries.get(key)`. */
  function Get(entries: map<string, Value>, key: string): Value {
    if key in entries then entries[key] else Null
  }

  /** A label drawn from a closed vocabulary, as the checkpoint stores it. */
  function Word(word: string): Value { Text(word, None, None, word) }
}
