/** The CyberController REST client seen from the modules: every `_get`, `_post`, `_put` or
    `_delete` call is one request whose outcome comes from an oracle.  The k-th request of a
    module run receives `net(k)`: either a reply (status, content type, text and the parsed JSON
    body, if the text is JSON) or a raised exception with its message. */
module Http {
  import opened Py

  datatype Verb = GET | POST | PUT | DELETE

  /** A request as the module issues it: verb, path below the CyberController host, JSON body. */
  datatype Request = Request(verb: Verb, path: string, body: Option<Value>)

  datatype Reply = Reply(status: int, contentType: string, text: string, json: Option<Value>)

  datatype Outcome = Returned(reply: Reply) | Raised(msg: string)

  /** The TypeError Python raises when a call names a keyword argument twice, once directly and
      once through `**` unpacking (newer interpreters put the function's qualified name in front
      of the call). */
  function DuplicateKeyword(fn: string, key: string): string
  {
    fn + "() got multiple values for keyword argument '" + key + "'"
  }

  /** What `fail_json(msg=str(e), debug_info=debug_info, **result)` raises when `result` already
      holds `debug_info`. */
  const DebugInfoTwice := DuplicateKeyword("fail_json", "debug_info")

  type Net = nat -> Outcome

  /** `/mgmt/device/byip/{dp_ip}/config/{table}` */
  function ConfigPath(dp: string, table: string): string
  {
    "/mgmt/device/byip/" + dp + "/config/" + table
  }

  /** `resp.raise_for_status()`: a 4xx or 5xx reply raises `HTTPError` (its message also names
      the reason phrase and the URL, which the model leaves out). */
  function StatusError(r: Reply): Option<string>
  {
    if 400 <= r.status < 500 then Some(IntToString(r.status) + " Client Error")
    else if 500 <= r.status < 600 then Some(IntToString(r.status) + " Server Error")
    else None
  }

  /** `resp.json()`: the parsed body, or the `ValueError` a non-JSON body raises. */
  function JsonOf(r: Reply): Option<Value>
  {
    r.json
  }

  /** `resp.json()` right after the call: the parsed reply, or the exception raised by the call
      or by the parsing. */
  function Answer(o: Outcome): Result<Value>
  {
    match o
    case Raised(e) => Err(e)
    case Returned(r) =>
      match JsonOf(r)
      case None => Err(JsonDecodeError)
      case Some(data) => Ok(data)
  }

  /** `resp.json().get(table, [])`: the table a reply holds (`[]` when it holds none), or the
      exception raised on the way. */
  function TableOf(o: Outcome, table: string): Result<Value>
  {
    match o
    case Raised(m) => Err(m)
    case Returned(reply) =>
      match reply.json
      case None => Err(JsonDecodeError)
      case Some(data) => if data.VDict? then Ok(FieldOr(data, table, VList([]))) else Err(NoGet)
  }

  /** `resp.json().get(table, [])` followed by `len(...)`: the rows of one table (a dict yields its
      keys, a string its characters), or the exception raised on the way. */
  function TableRows(o: Outcome, table: string): Result<seq<Value>>
  {
    match TableOf(o, table)
    case Err(m) => Err(m)
    case Ok(raw) => if Len(raw).None? then Err(NoLen) else Ok(Iter(raw).value)
  }

  /** `{"raw": resp.text}`, the stand-in several modules use for a non-JSON body. */
  function RawBody(r: Reply): Value
  {
    VDict([("raw", VStr(r.text))])
  }

  /** `resp.json()` when the content type is exactly `application/json`, else `{"raw": text}`;
      a JSON content type with an unparsable body raises. */
  function BodyByContentType(r: Reply): Option<Value>
  {
    if r.contentType == "application/json" then r.json else Some(RawBody(r))
  }
}
