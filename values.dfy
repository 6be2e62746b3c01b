/** Python values as they travel through the client: JSON documents read from
    the token endpoint and the cache file, arguments of `send`, and the
    exceptions the client raises. */
module Values {

  /** A JSON value (arrays and floats never matter to the client, so they are
      not modelled). */
  datatype Json =
    | JNull
    | JBool(boolean: bool)
    | JInt(number: int)
    | JStr(str: string)
    | JObj(fields: map<string, Json>)

  /** Python truthiness of a JSON value: `None`, `False`, `0`, `""` and `{}`
      are falsy, everything else is truthy. */
  predicate Truthy(v: Json)
  {
    match v
    case JNull => false
    case JBool(b) => b
    case JInt(n) => n != 0
    case JStr(s) => s != ""
    case JObj(m) => m != map[]
  }

  /** The exceptions the client lets escape to its caller. */
  datatype Error =
    | MissingMsgType                // `send` with a falsy msg_type
    | InvalidMessage(msgType: Json) // unknown kind, or a media kind without media_id
    | SendRejected(errmsg: string)  // remote errcode != 0
    | ConnectionFailed              // the POST itself raised
    | KeyError(key: string)         // a missing dictionary key
    | TypeError                     // a `str` operation given a non-string (log concatenation, `strptime`)
    | ValueError                    // a cache date strptime cannot parse
    | FileNotFound                  // opening a cache file that does not exist

  /** A value, or the exception raised instead of returning it. */
  datatype Result<+T> = Success(value: T) | Failure(error: Error)

  datatype Option<+T> = None | Some(value: T)
}
