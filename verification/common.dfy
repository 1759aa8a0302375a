/** Shared value types of the farm back end: optional and fallible results,
    the structured (JSON) payloads that travel over the broker and the client
    sockets, and the outcome of one publish to the broker. */
module Common {

  datatype Option<T> = None | Some(value: T)

  datatype Result<T, E> = Ok(value: T) | Err(error: E)

  /** A parsed JSON value. Numbers are integers here; arrays do not occur
      in the payloads this model follows. */
  datatype JsonValue =
    | JNull
    | JBool(b: bool)
    | JNum(n: int)
    | JStr(s: string)
    | JObj(fields: map<string, JsonValue>)

  /** A JSON object: field name to value. `{...a, ...b}` is `a + b`
      (later fields win), exactly as the object spread does. */
  type Json = map<string, JsonValue>

  /** The claims a verified JSON Web Token carries: the user id and, when
      present, the token version it was minted for. */
  datatype Claims = Claims(id: string, tokenVersion: Option<int>)

  /** What the broker answered to one publish at QoS 1. */
  datatype PublishOutcome = Published | PublishFailed(message: string)

  /** JavaScript truthiness of an optional string: absent, null and "" are falsy. */
  predicate Truthy(s: Option<string>) {
    s.Some? && s.value != ""
  }

  /** `a || b` on optional strings. */
  function OrElse(a: Option<string>, b: Option<string>): Option<string> {
    if Truthy(a) then a else b
  }

  /** The spread `{...v}` of a payload: an object contributes its fields,
      null and scalars contribute nothing. */
  function Spread(v: JsonValue): Json {
    if v.JObj? then v.fields else map[]
  }
}
