/**
 * The HTTP exchange every operation of the core performs, with the network and the
 * JSON codec taken as inputs: a request value, the outcome the network gives for it,
 * and the struct `json.Unmarshal` fills from a response body.
 */
module Http {
  import opened Wrappers

  /** A `*http.Client`; the model tells clients apart by identity only. */
  datatype HttpClient = HttpClient(name: string)

  /** The package-level `Client` of https_client.go, shared by every sub-package. */
  const SharedClient := HttpClient("gorackspace.Client")

  datatype Method = Get | Post

  /**
   * A JSON value as `json.Marshal` builds it from a Go value, before it is rendered as
   * text; an object maps member names to values.
   */
  datatype Json =
    | JNull
    | JBool(b: bool)
    | JNumber(n: int)
    | JString(s: string)
    | JArray(items: seq<Json>)
    | JObject(members: map<string, Json>)

  /** An outgoing request: its method, URL, the header map `Header.Set` filled, and the marshalled body. */
  datatype Request = Request(verb: Method, url: string, header: map<string, string>, body: Option<Json>)

  /** What `client.Do(req)` gives back: a transport error, or a status code and the body read in full. */
  datatype HttpOutcome = NoResponse(cause: string) | Response(statusCode: int, body: string)

  /** The network at one moment: the outcome of sending a request through a client. */
  type Network = (HttpClient, Request) -> HttpOutcome

  /**
   * `json.Unmarshal(body, &v)`: the value `v` holds afterwards, and the error it returned.
   * On a syntax error nothing is written; on a type mismatch the members decoded
   * before and after the bad one are still written.
   */
  datatype Unmarshal<T> = Unmarshal(written: T, err: Option<string>)

  /** The Go `error` values the core returns. */
  datatype Error =
    | TransportError(cause: string)          // from client.Do, returned unchanged
    | TextError(text: string)                // errors.New(...)
    | JsonError(cause: string)               // from json.Unmarshal
    | AuthFaultError(code: int, response: string)

  datatype Verdict = Proceed | Reject

  /**
   * The status-code `switch` every operation uses: `default: fallthrough` into a case
   * listing failure codes that returns an error, and an empty case listing success codes
   * after which the function goes on to decode the body.
   */
  function StatusSwitch(code: int, failureCases: set<int>, successCases: set<int>): (v: Verdict)
    ensures v == Proceed <==> code in successCases && code !in failureCases
  {
    if code in failureCases then Reject
    else if code in successCases then Proceed
    else Reject
  }

  /**
   * What every request-and-decode operation does with the outcome of its request: a
   * transport error is returned unchanged; a code the switch rejects becomes
   * `reject(code, body)`; otherwise the body is unmarshalled into a fresh value and a
   * decode error is returned, or the part `project` picks out of the decoded value.
   */
  function Exchange<T, R>(out: HttpOutcome, failureCases: set<int>, successCases: set<int>,
                          reject: (int, string) -> Error, decode: string -> Unmarshal<T>, project: T -> R): Result<R, Error>
  {
    match out
    case NoResponse(cause) => Err(TransportError(cause))
    case Response(code, body) =>
      if StatusSwitch(code, failureCases, successCases) == Reject then Err(reject(code, body))
      else
        var u := decode(body);
        if u.err.Some? then Err(JsonError(u.err.value)) else Ok(project(u.written))
  }

  /** Decoding a JSON string member into a Go `string`: absent or null leaves the zero value. */
  function StringMember(m: map<string, Json>, key: string): Option<string> {
    if key !in m then Some("")
    else match m[key]
      case JString(s) => Some(s)
      case JNull => Some("")
      case _ => None
  }

  /** Decoding a JSON number member into a Go `int`: absent or null leaves the zero value. */
  function IntMember(m: map<string, Json>, key: string): Option<int> {
    if key !in m then Some(0)
    else match m[key]
      case JNumber(n) => Some(n)
      case JNull => Some(0)
      case _ => None
  }
}
