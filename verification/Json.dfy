/** JSON values and the typed, optional field reads of Go's encoding/json. */
module Json {
  import opened Wrappers
  import opened Domain
  import Decimal

  /** A JSON value. Number is an integer literal, Fraction any other number literal. */
  datatype Value =
    | Null
    | Bool(b: bool)
    | Number(n: int)
    | Fraction
    | String(s: string)
    | Array(items: seq<Value>)
    | Object(fields: map<string, Value>)

  /** The bytes of a message or a response body: JSON text or something else. */
  datatype Text = NotJson | IsJson(value: Value)

  /** The read found a value of the wrong type. */
  datatype TypeError = TypeError

  /** A pointer field: nil when the key is absent or null. */
  type Field<T> = Result<Option<T>, TypeError>

  function Lookup(fields: map<string, Value>, key: string): Value {
    if key in fields then fields[key] else Null
  }

  function StringField(fields: map<string, Value>, key: string): Field<string> {
    match Lookup(fields, key)
    case Null => Ok(None)
    case String(s) => Ok(Some(s))
    case _ => Err(TypeError)
  }

  function Int32Field(fields: map<string, Value>, key: string): Field<int32> {
    match Lookup(fields, key)
    case Null => Ok(None)
    case Number(n) => if -0x8000_0000 <= n < 0x8000_0000 then Ok(Some(n)) else Err(TypeError)
    case _ => Err(TypeError)
  }

  function Int64Field(fields: map<string, Value>, key: string): Field<int64> {
    match Lookup(fields, key)
    case Null => Ok(None)
    case Number(n) => if -INT64_LIMIT <= n < INT64_LIMIT then Ok(Some(n)) else Err(TypeError)
    case _ => Err(TypeError)
  }

  predicate HasString(o: map<string, Value>, key: string, s: string) {
    key in o && o[key] == String(s)
  }

  predicate HasNumber(o: map<string, Value>, key: string, n: int) {
    key in o && o[key] == Number(n)
  }

  /** Instants are written as a decimal count followed by Z; those before the origin have no text. */
  function PrintInstant(t: int): Option<string> {
    if t < 0 then None else Some(Decimal.Print(t) + "Z")
  }

  function ReadInstant(s: string): Option<int> {
    if |s| > 1 && s[|s| - 1] == 'Z' && Decimal.AllDigits(s[..|s| - 1])
    then Some(Decimal.Read(s[..|s| - 1]))
    else None
  }

  lemma ReadPrintInstant(t: int)
    requires t >= 0
    ensures ReadInstant(PrintInstant(t).value) == Some(t)
  {
    var s := PrintInstant(t).value;
    assert s[..|s| - 1] == Decimal.Print(t);
    Decimal.ReadPrint(t);
  }

  function InstantField(fields: map<string, Value>, key: string): Field<int> {
    match Lookup(fields, key)
    case Null => Ok(None)
    case String(s) => if ReadInstant(s).Some? then Ok(ReadInstant(s)) else Err(TypeError)
    case _ => Err(TypeError)
  }
}
