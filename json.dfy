/**
 * JSON text, as far as this system reads and writes it. A text is modelled by
 * the value it parses to, or as malformed; so `Loads` is a partial decoder
 * and `Dumps` followed by `Loads` gives the value back.
 */
module Json {
  import opened Results

  /** A parsed JSON value: an object with string members, or anything that is not an object. */
  datatype JsonValue = Object(members: map<string, string>) | NotAnObject

  datatype JsonText = Text(denotes: JsonValue) | Malformed

  datatype DecodeError = JSONDecodeError

  /** `json.loads`. */
  function Loads(t: JsonText): (r: Result<JsonValue, DecodeError>)
    ensures r.Err? <==> t.Malformed?
  {
    match t
    case Text(v) => Ok(v)
    case Malformed => Err(JSONDecodeError)
  }

  /** `json.dumps`. */
  function Dumps(v: JsonValue): JsonText
  {
    Text(v)
  }

  lemma LoadsDumps(v: JsonValue)
    ensures Loads(Dumps(v)) == Ok(v)
  {
  }
}
