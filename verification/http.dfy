/** Shared vocabulary of the client: optional values, errors, JSON values,
    the requests an operation issues and the outcomes the transport hands back.
    The HTTP transport itself is not modelled: every operation takes the
    outcome of its request as a parameter and returns the request it sends. */
module Http {

  datatype Option<+T> = None | Some(value: T)

  /** The errors the modelled code produces or passes on. */
  datatype Error =
    | Text(text: string)        // an error built from a message (errors.New, fmt.Errorf)
    | NotFound                  // the resource client's typed not-found error
    | External(detail: string)  // a transport or decoding error, passed through unchanged

  datatype Result<+T> = Ok(value: T) | Err(error: Error)

  /** A JSON value, as produced by the encoder or read by the decoder. */
  datatype Json =
    | JNull
    | JBool(b: bool)
    | JNumber(n: int)
    | JString(s: string)
    | JArray(items: seq<Json>)
    | JObject(fields: map<string, Json>)

  /** A JSON object body: a sparse map, so an absent key and a key bound to
      null are different payloads. */
  type Payload = map<string, Json>

  datatype Method = GET | POST | PUT | PATCH | DELETE

  /** Where a request goes: a path under the client's base URL, or a URL
      taken verbatim from a record. */
  datatype Target = BasePath(path: string) | Absolute(url: string)

  datatype Request =
      /** a call through the resource client (Get, Post, Patch, Delete) */
    | Api(verb: Method, target: Target, query: map<string, string>, body: Option<Payload>)
      /** a request built directly, with its own headers */
    | Raw(verb: Method, target: Target, headers: map<string, string>)
      /** a form POST to the identity service */
    | Form(url: string, fields: map<string, string>)

  /** The decoded body of a response, or the decoder's error. */
  datatype Decoded<+P> = Payload(value: P) | Malformed(err: Error)

  /** The outcome of a request sent straight to the transport. */
  datatype Reply<+P> =
    | TransportFailure(err: Error)
    | Replied(status: int, statusText: string, body: Decoded<P>)

  /** The outcome of a call through the resource client: its error, or the
      status code and the value it decoded. */
  datatype Fetched<+T> = Failed(err: Error) | Got(status: int, value: T)

  /** What an operation did: the request it sent, if any, and what it returned. */
  datatype Exchange<+T> = Exchange(sent: Option<Request>, result: Result<T>)

  /** The result of a call whose only outcome is the resource client's error. */
  function Outcome(clientErr: Option<Error>): (r: Result<()>)
    ensures r.Err? <==> clientErr.Some?
    ensures r.Err? ==> r.error == clientErr.value
  {
    match clientErr
    case None => Ok(())
    case Some(e) => Err(e)
  }

  /** A pointer to a record the caller owns and an operation updates in place. */
  class Ref<T> {
    var value: T

    constructor (v: T)
      ensures value == v
    {
      value := v;
    }
  }
}
