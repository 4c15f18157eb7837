/**
 * Decoded JSON values, the remote responses the library reads, and the
 * exceptions its functions raise.  Every response is an input of the model:
 * nothing here performs a request.
 */
module Remote {
  import opened Wrappers

  /** A decoded JSON document.  Numbers are integers; see README for floats. */
  datatype Json =
    | JNull
    | JBool(b: bool)
    | JNum(n: int)
    | JStr(s: string)
    | JArr(items: seq<Json>)
    | JObj(fields: map<string, Json>)

  /** An HTTP response: its status code and its decoded body. */
  datatype Response = Response(status: int, body: Json)

  /** The exceptions the library lets escape, by Python exception class. */
  datatype ApiError =
    | InvalidParameter(message: string)   // AssertionError from argument validation
    | MissingKey(key: string)             // KeyError on a response or token dict
    | WrongType(message: string)          // TypeError / AttributeError on an unexpected shape
    | BadNumber(text: string)             // ValueError from float() on a quote amount
    | NotSerializable                     // json.dumps meets the Exception returned by get_slip44
    | Unrendered                          // a cursor whose Python str() the model does not render
    | PagesExhausted                      // the scripted server has no response left for a request

  /** Python truthiness of a decoded value, as `if x:` and `not x` read it. */
  predicate Truthy(v: Json) {
    match v
    case JNull => false
    case JBool(b) => b
    case JNum(n) => n != 0
    case JStr(s) => s != ""
    case JArr(items) => items != []
    case JObj(fields) => fields != map[]
  }

  /** `d.get(key, default)` on a dict. */
  function GetOr(fields: map<string, Json>, key: string, default: Json): (r: Json)
    ensures key in fields ==> r == fields[key]
    ensures key !in fields ==> r == default
  {
    if key in fields then fields[key] else default
  }

  /**
   * The soft-failure listing shape shared by the GET endpoints: a non-200
   * status gives `[]`; otherwise `response.json().get(key, [])`, which raises
   * when the body is not a JSON object.
   */
  function SoftListing(resp: Response, key: string): (r: Result<Json, ApiError>)
    ensures resp.status != 200 ==> r == Ok(JArr([]))
    ensures resp.status == 200 ==> (r.Ok? <==> resp.body.JObj?)
    ensures r.Ok? && resp.status == 200 && key in resp.body.fields ==> r.value == resp.body.fields[key]
    ensures r.Ok? && resp.status == 200 && key !in resp.body.fields ==> r.value == JArr([])
  {
    if resp.status != 200 then Ok(JArr([]))
    else if !resp.body.JObj? then Err(WrongType("response body is not a JSON object"))
    else Ok(GetOr(resp.body.fields, key, JArr([])))
  }
}
