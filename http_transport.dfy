/**
 * `HttpTransport`: turns a client's request into an HTTP request (url,
 * query string, content), keeps the Authorization header in step with the
 * store's token, splits responses by status, and disposes the HttpClient
 * it created.
 */
module HttpTransport {
  import opened Wrappers
  import opened Values
  import opened Text
  import PocketBaseStore
  import MultipartFile

  /** A default request header: name and value. */
  type Header = (string, string)

  /** The content of an HTTP request. */
  datatype Content =
    | NoContent
      /** An `HttpContent` the caller built, attached unchanged. */
    | Attached(content: nat)
      /** UTF-8 JSON with media type application/json. */
    | JsonContent(json: string)
      /** multipart/form-data with one stream part. */
    | FormData(name: string, fileName: string, contentType: string, stream: MultipartFile.Stream)

  datatype HttpRequest = HttpRequest(verb: HttpMethod, url: string, content: Content)

  /** A response: its status code, its body read as text and the same body read as bytes. */
  datatype HttpResponse = HttpResponse(status: int, text: string, bytes: seq<bv8>)

  /** An HttpClient handed to the constructor: its base address and its default headers. */
  datatype ClientState = ClientState(baseAddress: Option<string>, headers: seq<Header>)

  // ----- urls -----

  /** The base address without its trailing '/' characters, "" without a base address. */
  function TrimmedBase(baseAddress: Option<string>): (r: string)
    ensures baseAddress.None? ==> r == ""
    ensures baseAddress.Some? ==> |r| <= |baseAddress.value| && r == baseAddress.value[..|r|]
    ensures |r| > 0 ==> r[|r| - 1] != '/'
  {
    if baseAddress.Some? then TrimEndChar(baseAddress.value, '/') else ""
  }

  /** `BuildUrl`: the trimmed base, one '/', and the endpoint without its leading '/' characters. */
  function BuildUrl(baseAddress: Option<string>, endpoint: string): string {
    TrimmedBase(baseAddress) + "/" + TrimStartChar(endpoint, '/')
  }

  /**
   * The join of `BuildUrl` holds exactly one '/': the base part does not end
   * with one and the endpoint part does not start with one; the base part is
   * a prefix of the base address and the endpoint part a suffix of the endpoint.
   */
  lemma BuildUrlJoin(baseAddress: Option<string>, endpoint: string)
    ensures var b := TrimmedBase(baseAddress); var e := TrimStartChar(endpoint, '/'); var r := BuildUrl(baseAddress, endpoint);
      |r| == |b| + 1 + |e| && r[..|b|] == b && r[|b|] == '/' && r[|b| + 1..] == e
      && (|b| > 0 ==> r[|b| - 1] != '/') && (|e| > 0 ==> r[|b| + 1] != '/')
      && e == endpoint[|endpoint| - |e|..]
  {
  }

  /** Without a base address the url is "/" and the trimmed endpoint. */
  lemma BuildUrlWithoutBase(endpoint: string)
    ensures BuildUrl(None, endpoint) == "/" + TrimStartChar(endpoint, '/')
  {
  }

  /** Leading '/' characters of the endpoint do not matter. */
  lemma BuildUrlLeadingSlash(baseAddress: Option<string>, endpoint: string)
    ensures BuildUrl(baseAddress, "/" + endpoint) == BuildUrl(baseAddress, endpoint)
  {
    assert ("/" + endpoint)[1..] == endpoint;
  }

  // ----- query strings -----

  /** `kv.Value?.ToString() ?? ""`: null is "", booleans print as "True" and "False". */
  function ValueText(v: QueryValue): (r: string)
    ensures v.QNull? ==> r == ""
    ensures v.QString? ==> r == v.s
  {
    match v
    case QNull => ""
    case QString(s) => s
    case QInt(i) => IntToString(i)
    case QBool(b) => if b then "True" else "False"
  }

  /** One "key=value" pair: the key as it is, the value escaped. */
  function QueryPair(key: string, v: QueryValue, escape: string -> string): string {
    key + "=" + escape(ValueText(v))
  }

  /** A key without '=' and an escape that gives none are read back from their pair. */
  lemma QueryPairRoundTrip(key: string, v: QueryValue, escape: string -> string)
    requires '=' !in key && '=' !in escape(ValueText(v))
    ensures Split(QueryPair(key, v, escape), '=') == [key, escape(ValueText(v))]
  {
    SplitAtFirst(key, escape(ValueText(v)), '=');
    SplitNoSeparator(escape(ValueText(v)), '=');
  }

  /** `order` is an order in which a dictionary enumerates `q`: every key of `q` once, and nothing else. */
  predicate Enumerates(q: Query, order: seq<string>) {
    (forall i, j :: 0 <= i < j < |order| ==> order[i] != order[j])
    && (forall k :: k in q ==> k in order)
    && (forall i :: 0 <= i < |order| ==> order[i] in q)
  }

  /** The elements of a sequence without repetitions are as many as its length. */
  lemma {:induction false} DistinctCardinality(s: seq<string>)
    requires forall i, j :: 0 <= i < j < |s| ==> s[i] != s[j]
    ensures |set k | k in s| == |s|
    decreases |s|
  {
    if |s| > 0 {
      var rest := s[..|s| - 1];
      DistinctCardinality(rest);
      assert (set k | k in s) == (set k | k in rest) + {s[|s| - 1]};
      assert s[|s| - 1] !in (set k | k in rest);
    }
  }

  /** An enumeration of a query is as long as the query has keys. */
  lemma EnumerationLength(q: Query, order: seq<string>)
    requires Enumerates(q, order)
    ensures |order| == |q|
  {
    DistinctCardinality(order);
    assert q.Keys == (set k | k in order);
  }

  /** The pairs of a query, in the dictionary's enumeration order `order`. */
  function QueryPairs(q: Query, order: seq<string>, escape: string -> string): (r: seq<string>)
    requires Enumerates(q, order)
    ensures |r| == |order|
    ensures forall i :: 0 <= i < |order| ==> r[i] == QueryPair(order[i], q[order[i]], escape)
  {
    seq(|order|, i requires 0 <= i < |order| => QueryPair(order[i], q[order[i]], escape))
  }

  /** Every entry of the query gives exactly one pair, at the place its key is enumerated. */
  lemma QueryPairsEveryEntryOnce(q: Query, order: seq<string>, escape: string -> string, k: string)
    requires Enumerates(q, order) && k in q
    ensures |QueryPairs(q, order, escape)| == |q|
    ensures exists i :: 0 <= i < |order| && order[i] == k && QueryPairs(q, order, escape)[i] == QueryPair(k, q[k], escape)
    ensures forall i, j :: 0 <= i < |order| && 0 <= j < |order| && order[i] == k && order[j] == k ==> i == j
  {
    EnumerationLength(q, order);
    var i :| 0 <= i < |order| && order[i] == k;
  }

  /** The pairs joined with '&'. */
  function QueryString(q: Query, order: seq<string>, escape: string -> string): string
    requires Enumerates(q, order)
  {
    Join(QueryPairs(q, order, escape), "&")
  }

  /** With keys and escaped values free of '&', the query string of a non-empty query splits back into its pairs, in order. */
  lemma QueryStringRoundTrip(q: Query, order: seq<string>, escape: string -> string)
    requires Enumerates(q, order) && |q| >= 1
    requires forall k :: k in q ==> '&' !in k
    requires forall s :: '&' !in escape(s)
    ensures Split(QueryString(q, order, escape), '&') == QueryPairs(q, order, escape)
  {
    EnumerationLength(q, order);
    var pairs := QueryPairs(q, order, escape);
    forall i | 0 <= i < |pairs| ensures '&' !in pairs[i] {
      assert pairs[i] == order[i] + "=" + escape(ValueText(q[order[i]]));
    }
    SplitJoin(pairs, '&');
  }

  /** The url of a request: "?" and the query string follow when a query is given, even an empty one. */
  function RequestUrl(baseAddress: Option<string>, path: string, query: Option<Query>, order: seq<string>, escape: string -> string): (r: string)
    requires query.Some? ==> Enumerates(query.value, order)
    ensures query.None? ==> r == BuildUrl(baseAddress, path)
    ensures query.Some? ==> r == BuildUrl(baseAddress, path) + "?" + QueryString(query.value, order, escape)
    ensures query == Some(map[]) ==> r == BuildUrl(baseAddress, path) + "?"
  {
    if query.None? then BuildUrl(baseAddress, path)
    else BuildUrl(baseAddress, path) + "?" + QueryString(query.value, order, escape)
  }

  // ----- content -----

  /** The content of a request: an `HttpContent` unchanged, any other body as JSON, and none without a body. */
  function BodyContent(body: Option<Body>, serialize: Body -> string): (r: Content)
    ensures body.None? <==> r == NoContent
    ensures body.Some? && body.value.ContentBody? ==> r == Attached(body.value.content)
    ensures body.Some? && !body.value.ContentBody? ==> r == JsonContent(serialize(body.value))
  {
    if body.None? then NoContent
    else if body.value.ContentBody? then Attached(body.value.content)
    else JsonContent(serialize(body.value))
  }

  /** `BuildRequest` for a body. */
  function BuildRequest(baseAddress: Option<string>, request: Request, order: seq<string>,
                        escape: string -> string, serialize: Body -> string): (r: HttpRequest)
    requires request.query.Some? ==> Enumerates(request.query.value, order)
    ensures r.verb == request.verb && r.url == RequestUrl(baseAddress, request.path, request.query, order, escape)
    ensures r.content == BodyContent(request.body, serialize)
  {
    HttpRequest(request.verb, RequestUrl(baseAddress, request.path, request.query, order, escape), BodyContent(request.body, serialize))
  }

  /** `BuildRequest` for a file: one form part under the file's form name, with its file name, type and stream. */
  function BuildFileRequest(baseAddress: Option<string>, verb: HttpMethod, path: string, file: MultipartFile.File,
                            query: Option<Query>, order: seq<string>, escape: string -> string): (r: HttpRequest)
    requires query.Some? ==> Enumerates(query.value, order)
    ensures r.verb == verb && r.url == RequestUrl(baseAddress, path, query, order, escape)
    ensures r.content == FormData(file.name, file.fileName, file.contentType, file.content)
  {
    HttpRequest(verb, RequestUrl(baseAddress, path, query, order, escape), FormData(file.name, file.fileName, file.contentType, file.content))
  }

  // ----- responses -----

  /** `IsSuccessStatusCode`. */
  predicate IsSuccessStatus(status: int) {
    200 <= status <= 299
  }

  /**
   * The untyped `HandleResponse` (and the stream and bytes sends): a
   * non-success status fails with the exception's message reported twice,
   * a success status gives `value`.
   */
  function StatusResult<T>(response: HttpResponse, value: T, message: (int, string) -> string): (r: Response<T>)
    ensures IsSuccessStatus(response.status) <==> r == Ok(value)
    ensures !IsSuccessStatus(response.status) ==>
      r == Fail([ApiError(message(response.status, response.text), None), ApiError(message(response.status, response.text), None)])
  {
    if IsSuccessStatus(response.status) then Ok(value)
    else Fail([ApiError(message(response.status, response.text), None), ApiError(message(response.status, response.text), None)])
  }

  const NullValueMessage := "Deserialized value is null"

  /**
   * The typed `HandleResponse`: a non-success status fails with one error
   * that carries the status; otherwise the body is decoded, and a null
   * value fails too.
   */
  function TypedResult<T>(response: HttpResponse, decode: string -> Option<T>, message: (int, string) -> string): (r: Response<T>)
    ensures !IsSuccessStatus(response.status) ==> r == Fail([ApiError(message(response.status, response.text), Some(response.status))])
    ensures IsSuccessStatus(response.status) && decode(response.text).None? ==> r == Fail([ApiError(NullValueMessage, None)])
    ensures r.Ok? <==> IsSuccessStatus(response.status) && decode(response.text).Some?
    ensures r.Ok? ==> r.value == decode(response.text).value
  {
    if !IsSuccessStatus(response.status) then Fail([ApiError(message(response.status, response.text), Some(response.status))])
    else if decode(response.text).None? then Fail([ApiError(NullValueMessage, None)])
    else Ok(decode(response.text).value)
  }

  // ----- headers -----

  /** The headers without those named `name`, in order. */
  function WithoutHeader(headers: seq<Header>, name: string): (r: seq<Header>)
    ensures forall i :: 0 <= i < |r| ==> r[i].0 != name && r[i] in headers
    ensures forall h :: h in headers && h.0 != name ==> h in r
    decreases |headers|
  {
    if |headers| == 0 then []
    else
      var last := headers[|headers| - 1];
      WithoutHeader(headers[..|headers| - 1], name) + (if last.0 == name then [] else [last])
  }

  lemma {:induction false} WithoutHeaderTwice(headers: seq<Header>, name: string)
    ensures WithoutHeader(WithoutHeader(headers, name), name) == WithoutHeader(headers, name)
    decreases |headers|
  {
    if |headers| > 0 {
      var init := headers[..|headers| - 1];
      WithoutHeaderTwice(init, name);
      var w := WithoutHeader(init, name);
      var last := if headers[|headers| - 1].0 == name then [] else [headers[|headers| - 1]];
      WithoutHeaderAppend(w, last, name);
      assert WithoutHeader(last, name) == last by {
        if last != [] {
          assert last[..0] == [];
        }
      }
    }
  }

  lemma {:induction false} WithoutHeaderAppend(a: seq<Header>, b: seq<Header>, name: string)
    ensures WithoutHeader(a + b, name) == WithoutHeader(a, name) + WithoutHeader(b, name)
    decreases |b|
  {
    if |b| == 0 {
      assert a + b == a;
    } else {
      assert (a + b)[..|a + b| - 1] == a + b[..|b| - 1];
      WithoutHeaderAppend(a, b[..|b| - 1], name);
    }
  }

  const Authorization := "Authorization"

  /** The headers `UpdateAuthorizationHeader` leaves: with a token, every Authorization header replaced by one holding it. */
  function WithAuthorization(headers: seq<Header>, token: Option<string>): (r: seq<Header>)
    ensures IsNullOrEmpty(token) ==> r == headers
    ensures !IsNullOrEmpty(token) ==> r == WithoutHeader(headers, Authorization) + [(Authorization, token.value)]
  {
    if IsNullOrEmpty(token) then headers else WithoutHeader(headers, Authorization) + [(Authorization, token.value)]
  }

  /**
   * With a token there is one Authorization header afterwards, the last
   * one, holding the token, and the other headers are kept in order; without
   * a token the headers are untouched; updating twice with one token is
   * updating once.
   */
  lemma AuthorizationReplaced(headers: seq<Header>, token: Option<string>)
    ensures !IsNullOrEmpty(token) ==>
      var r := WithAuthorization(headers, token);
      r[|r| - 1] == (Authorization, token.value)
      && (forall i :: 0 <= i < |r| - 1 ==> r[i].0 != Authorization)
      && WithoutHeader(r, Authorization) == WithoutHeader(headers, Authorization)
    ensures WithAuthorization(WithAuthorization(headers, token), token) == WithAuthorization(headers, token)
  {
    if !IsNullOrEmpty(token) {
      var w := WithoutHeader(headers, Authorization);
      var last: seq<Header> := [(Authorization, token.value)];
      WithoutHeaderAppend(w, last, Authorization);
      WithoutHeaderTwice(headers, Authorization);
      assert WithoutHeader(last, Authorization) == [] by {
        assert last[..0] == [];
      }
      assert w + [] == w;
    }
  }

  // ----- the transport -----

  const UserAgent: Header := ("User-Agent", "PocketBase.Blazor")
  const AcceptJson: Header := ("Accept", "application/json")

  class Transport {
    /** Whether the transport created its HttpClient. */
    const ownsClient: bool
    /** The HttpClient's `BaseAddress`. */
    const baseAddress: Option<string>
    /** The HttpClient's default request headers. */
    var headers: seq<Header>
    var store: PocketBaseStore.Store?
    var disposed: bool
    /** How often the HttpClient was disposed by this transport. */
    var clientDisposals: nat
    /** The requests sent, in order. */
    var sent: seq<HttpRequest>

    /** The HttpClient is disposed once exactly when the transport owns it and was disposed. */
    predicate Valid()
      reads this
    {
      clientDisposals == if disposed && ownsClient then 1 else 0
    }

    /**
     * The constructor once the base address is parsed: without an HttpClient
     * one is created over `address`, the text of the parsed `Uri`, and owned;
     * the Accept header is added, and the User-Agent header unless the
     * platform (a browser) refuses it.
     */
    constructor(address: string, client: Option<ClientState>, userAgentAllowed: bool)
      ensures ownsClient <==> client.None?
      ensures baseAddress == if client.None? then Some(address) else client.value.baseAddress
      ensures headers == (if client.None? then [] else client.value.headers) + [AcceptJson] + (if userAgentAllowed then [UserAgent] else [])
      ensures store == null && !disposed && sent == []
      ensures Valid()
    {
      if client.None? {
        baseAddress := Some(address);
        ownsClient := true;
        headers := [AcceptJson];
      } else {
        baseAddress := client.value.baseAddress;
        ownsClient := false;
        headers := client.value.headers + [AcceptJson];
      }
      if userAgentAllowed {
        headers := headers + [UserAgent];
      }
      store := null;
      disposed := false;
      clientDisposals := 0;
      sent := [];
    }

    /**
     * `new HttpTransport(baseUrl, httpClient)`: without an HttpClient the
     * base address is parsed by `uri` (`new Uri(baseUrl)`, which normalises
     * the text and throws `UriFormatException` on a malformed one); with an
     * HttpClient `baseUrl` is not read.
     */
    static method New(baseUrl: string, client: Option<ClientState>, userAgentAllowed: bool, uri: string -> Result<string, Exn>)
      returns (r: Result<Transport, Exn>)
      ensures client.None? && uri(baseUrl).Failure? ==> r == Failure(uri(baseUrl).error)
      ensures r.Success? <==> client.Some? || uri(baseUrl).Success?
      ensures r.Success? ==>
        fresh(r.value) && r.value.Valid()
        && (r.value.ownsClient <==> client.None?)
        && r.value.baseAddress == (if client.None? then Some(uri(baseUrl).value) else client.value.baseAddress)
        && r.value.headers == (if client.None? then [] else client.value.headers) + [AcceptJson] + (if userAgentAllowed then [UserAgent] else [])
        && r.value.store == null && !r.value.disposed && r.value.sent == []
    {
      if client.None? {
        var parsed := uri(baseUrl);
        if parsed.Failure? {
          return Failure(parsed.error);
        }
        var t := new Transport(parsed.value, client, userAgentAllowed);
        return Success(t);
      }
      var t := new Transport(baseUrl, client, userAgentAllowed);
      r := Success(t);
    }

    /** `BaseUrl`: the base address, "" without one. */
    function BaseUrl(): (r: string)
      ensures baseAddress.Some? ==> r == baseAddress.value
      ensures baseAddress.None? ==> r == ""
    {
      OrEmpty(baseAddress)
    }

    /** `_store?.Token`. */
    function StoreToken(): Option<string>
      reads this, store
    {
      if store == null then None else store.Token()
    }

    method SetStore(store: PocketBaseStore.Store)
      modifies this
      ensures this.store == store
      ensures headers == old(headers) && disposed == old(disposed) && clientDisposals == old(clientDisposals) && sent == old(sent)
    {
      this.store := store;
    }

    method UpdateAuthorizationHeader()
      modifies this
      ensures headers == WithAuthorization(old(headers), old(StoreToken()))
      ensures store == old(store) && disposed == old(disposed) && clientDisposals == old(clientDisposals) && sent == old(sent)
    {
      var token := StoreToken();
      if !IsNullOrEmpty(token) {
        headers := WithoutHeader(headers, Authorization) + [(Authorization, token.value)];
      }
    }

    /** `SendAsync<T>`: the header update, the request, and the typed response. */
    method Send<T>(request: Request, order: seq<string>, escape: string -> string, serialize: Body -> string,
                   exchange: HttpRequest -> HttpResponse, decode: string -> Option<T>, message: (int, string) -> string)
      returns (r: Response<T>)
      requires request.query.Some? ==> Enumerates(request.query.value, order)
      modifies this
      ensures headers == WithAuthorization(old(headers), old(StoreToken()))
      ensures sent == old(sent) + [BuildRequest(baseAddress, request, order, escape, serialize)]
      ensures r == TypedResult(exchange(BuildRequest(baseAddress, request, order, escape, serialize)), decode, message)
      ensures store == old(store) && disposed == old(disposed) && clientDisposals == old(clientDisposals)
    {
      UpdateAuthorizationHeader();
      var built := BuildRequest(baseAddress, request, order, escape, serialize);
      sent := sent + [built];
      r := TypedResult(exchange(built), decode, message);
    }

    /** `SendAsync` without a result value. */
    method SendNoValue(request: Request, order: seq<string>, escape: string -> string, serialize: Body -> string,
                       exchange: HttpRequest -> HttpResponse, message: (int, string) -> string) returns (r: Response<()>)
      requires request.query.Some? ==> Enumerates(request.query.value, order)
      modifies this
      ensures headers == WithAuthorization(old(headers), old(StoreToken()))
      ensures sent == old(sent) + [BuildRequest(baseAddress, request, order, escape, serialize)]
      ensures r == StatusResult(exchange(BuildRequest(baseAddress, request, order, escape, serialize)), (), message)
      ensures store == old(store) && disposed == old(disposed) && clientDisposals == old(clientDisposals)
    {
      UpdateAuthorizationHeader();
      var built := BuildRequest(baseAddress, request, order, escape, serialize);
      sent := sent + [built];
      r := StatusResult(exchange(built), (), message);
    }

    /** `SendAsync` with a `MultipartFile`. */
    method SendFile(verb: HttpMethod, path: string, file: MultipartFile.File, query: Option<Query>, order: seq<string>,
                    escape: string -> string, exchange: HttpRequest -> HttpResponse, message: (int, string) -> string)
      returns (r: Response<()>)
      requires query.Some? ==> Enumerates(query.value, order)
      modifies this
      ensures headers == WithAuthorization(old(headers), old(StoreToken()))
      ensures sent == old(sent) + [BuildFileRequest(baseAddress, verb, path, file, query, order, escape)]
      ensures r == StatusResult(exchange(BuildFileRequest(baseAddress, verb, path, file, query, order, escape)), (), message)
      ensures store == old(store) && disposed == old(disposed) && clientDisposals == old(clientDisposals)
    {
      UpdateAuthorizationHeader();
      var built := BuildFileRequest(baseAddress, verb, path, file, query, order, escape);
      sent := sent + [built];
      r := StatusResult(exchange(built), (), message);
    }

    /** `SendForBytesAsync`: the body's bytes on success. */
    method SendForBytes(request: Request, order: seq<string>, escape: string -> string, serialize: Body -> string,
                        exchange: HttpRequest -> HttpResponse, message: (int, string) -> string) returns (r: Response<seq<bv8>>)
      requires request.query.Some? ==> Enumerates(request.query.value, order)
      modifies this
      ensures headers == WithAuthorization(old(headers), old(StoreToken()))
      ensures sent == old(sent) + [BuildRequest(baseAddress, request, order, escape, serialize)]
      ensures var response := exchange(BuildRequest(baseAddress, request, order, escape, serialize));
        r == StatusResult(response, response.bytes, message)
      ensures store == old(store) && disposed == old(disposed) && clientDisposals == old(clientDisposals)
    {
      UpdateAuthorizationHeader();
      var built := BuildRequest(baseAddress, request, order, escape, serialize);
      sent := sent + [built];
      var response := exchange(built);
      r := StatusResult(response, response.bytes, message);
    }

    /** `Dispose`: only the first call does anything, and it disposes the HttpClient only when the transport owns it. */
    method Dispose()
      requires Valid()
      modifies this
      ensures Valid() && disposed
      ensures clientDisposals == old(clientDisposals) + (if !old(disposed) && ownsClient then 1 else 0)
      ensures old(disposed) ==> clientDisposals == old(clientDisposals)
      ensures headers == old(headers) && store == old(store) && sent == old(sent)
    {
      if disposed {
        return;
      }
      disposed := true;
      if ownsClient {
        clientDisposals := clientDisposals + 1;
      }
    }
  }

  /** Disposing twice disposes the owned HttpClient once, and a borrowed one never. */
  method DisposeTwice(t: Transport)
    requires t.Valid() && !t.disposed
    modifies t
    ensures t.clientDisposals == if t.ownsClient then 1 else 0
  {
    t.Dispose();
    t.Dispose();
  }
}
