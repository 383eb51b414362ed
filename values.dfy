/**
 * Values that cross module boundaries: decoded JSON, query dictionaries,
 * the exceptions the C# client code throws, and the request a client
 * method hands to the transport.
 */
module Values {
  import opened Wrappers
  import opened Text

  /** A decoded JSON value; numbers are integers in this model. */
  datatype Json =
    | JNull
    | JBool(b: bool)
    | JNumber(n: int)
    | JString(s: string)
    | JArray(items: seq<Json>)
    | JObject(fields: map<string, Json>)

  /** A string array as JSON. */
  function JStrings(s: seq<string>): (r: seq<Json>)
    ensures |r| == |s| && forall i :: 0 <= i < |s| ==> r[i] == JString(s[i])
  {
    seq(|s|, i requires 0 <= i < |s| => JString(s[i]))
  }

  /** A value held by a query dictionary (`IDictionary<string, object?>`). */
  datatype QueryValue = QNull | QString(s: string) | QInt(i: int) | QBool(b: bool)

  type Query = map<string, QueryValue>

  datatype HttpMethod = Get | Post | Patch | Delete

  /** The exceptions the client code throws, with the message or parameter name it gives them. */
  datatype Exn =
    | ArgumentNull(paramName: string)
    | Argument(message: string, paramName: string)
    | InvalidOperation(message: string)
    | FileNotFound(message: string)
    | NotSupported(message: string)
    | PlatformNotSupported
      /** A member read through a null reference. */
    | NullReference
      /** `NotImplementedException`. */
    | NotImplemented

  /** `ArgumentException.ThrowIfNullOrWhiteSpace`: a null argument and a blank one are reported differently. */
  function ThrowIfNullOrWhiteSpace(s: Option<string>, paramName: string): (r: Option<Exn>)
    ensures r.None? <==> !IsNullOrWhiteSpace(s)
    ensures s.None? ==> r == Some(ArgumentNull(paramName))
  {
    if s.None? then Some(ArgumentNull(paramName))
    else if IsBlank(s.value) then Some(Argument(BlankValueMessage, paramName))
    else None
  }

  /**
   * Two required string arguments, checked in order: a blank first argument
   * throws with the first message, then a blank second one with the second.
   */
  function RequiredPair(a: Option<string>, aMessage: string, aName: string,
                        b: Option<string>, bMessage: string, bName: string): (r: Option<Exn>)
    ensures IsNullOrWhiteSpace(a) ==> r == Some(Argument(aMessage, aName))
    ensures !IsNullOrWhiteSpace(a) && IsNullOrWhiteSpace(b) ==> r == Some(Argument(bMessage, bName))
    ensures r.None? <==> !IsNullOrWhiteSpace(a) && !IsNullOrWhiteSpace(b)
  {
    if IsNullOrWhiteSpace(a) then Some(Argument(aMessage, aName))
    else if IsNullOrWhiteSpace(b) then Some(Argument(bMessage, bName))
    else None
  }

  /** The message .NET gives the `ArgumentException` for a blank value. */
  const BlankValueMessage := "The value cannot be an empty string or composed entirely of whitespace."

  /** A request body as the client code hands it over, before the transport serialises it. */
  datatype Body =
      /** An `IDictionary<string, object?>`. */
    | DictionaryBody(entries: map<string, Json>)
      /** Any other object, by the values of its readable properties. */
    | ObjectBody(properties: map<string, Json>)
      /**
       * An `HttpContent` built by the caller, which the transport attaches as
       * it is; `headers` is the value of its one readable property, `Headers`.
       */
    | ContentBody(content: nat, headers: Json)

  /** A request handed to the transport: HTTP method, path below the base address, optional body and query. */
  datatype Request = Request(verb: HttpMethod, path: string, body: Option<Body>, query: Option<Query>)

  /** One error of a failed result, with the HTTP status it carries when it has one. */
  datatype ApiError = ApiError(message: string, status: Option<int>)

  /** The result the transport returns: a value, or the errors of a failed request. */
  datatype Response<T> = Ok(value: T) | Fail(errors: seq<ApiError>)

  /**
   * What a client method does before the transport answers: it throws,
   * returns a result without contacting the server, or sends exactly one request.
   */
  datatype Call<T> = Throws(error: Exn) | Returns(result: Response<T>) | Sends(request: Request)
}
