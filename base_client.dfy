/**
 * `BaseClient`: the record-style operations every collection client
 * inherits: list, full list, get one, create, update and delete, with their
 * id checks, the merge of a call's body with the options' body, and the
 * loop that reads every page of a list.
 */
module BaseClient {
  import opened Wrappers
  import opened Values
  import opened Text
  import Options

  const MissingIdMessage := "Missing required item id."
  const MissingCollectionMessage := "Collection id or name is required."

  /** The page size of the full-list loop when no batch is given. */
  const DefaultBatch := 500

  /** The failed result `GetOneAsync` and `DeleteAsync` return for a blank id, without a request. */
  function MissingId<T>(): (r: Response<T>)
    ensures r.Fail? && |r.errors| == 1 && r.errors[0].status == Some(404)
  {
    Fail([ApiError(MissingIdMessage, Some(404))])
  }

  /** The path of one item: the base path, '/', and the url-encoded id. */
  function ItemPath(basePath: string, id: string, urlEncode: string -> string): (r: string)
    ensures |r| == |basePath| + 1 + |urlEncode(id)|
    ensures r[..|basePath|] == basePath && r[|basePath|] == '/' && r[|basePath| + 1..] == urlEncode(id)
  {
    basePath + "/" + urlEncode(id)
  }

  // ----- bodies -----

  /** `options?.Body as Dictionary<string, object?>`: the options' body when it is a dictionary. */
  function OptionsBody(options: Options.SendOptions?): (r: Option<map<string, Json>>)
    reads options
    ensures r.Some? <==> options != null && options.body.Some? && options.body.value.DictionaryBody?
  {
    if options != null && options.body.Some? && options.body.value.DictionaryBody? then Some(options.body.value.entries) else None
  }

  /** `options?.Query`. */
  function QueryOf(options: Options.SendOptions?): (r: Option<Query>)
    reads options, if options != null && options.query != null then {options.query} else {}
    ensures r.Some? <==> options != null && options.query != null
  {
    if options != null && options.query != null then Some(options.query.entries) else None
  }

  /**
   * The entries of a body seen as a dictionary: its own entries, or, through
   * the reflection of `ToDictionary`, its readable properties, which for an
   * `HttpContent` are its `Headers` alone.
   */
  function Entries(b: Body): map<string, Json> {
    match b
    case DictionaryBody(entries) => entries
    case ObjectBody(properties) => properties
    case ContentBody(_, headers) => map["Headers" := headers]
  }

  /**
   * What `MergeBodies` returns: the options' body when there is no main
   * body; the main body itself when there is no options' body and the main
   * body is not a dictionary; otherwise a fresh dictionary of the options'
   * entries overwritten by the main body's.
   */
  function Merged(body: Option<Body>, optionsBody: Option<map<string, Json>>): Option<Body> {
    if body.None? then (if optionsBody.Some? then Some(DictionaryBody(optionsBody.value)) else None)
    else if optionsBody.None? && !body.value.DictionaryBody? then body
    else Some(DictionaryBody(optionsBody.GetOr(map[]) + Entries(body.value)))
  }

  /**
   * The merged dictionary has the keys of both; the main body wins where
   * both have a key, and a key only the options' body has keeps its value.
   */
  lemma MergedEntries(body: Body, optionsBody: Option<map<string, Json>>)
    requires optionsBody.Some? || body.DictionaryBody?
    ensures Merged(Some(body), optionsBody).Some? && Merged(Some(body), optionsBody).value.DictionaryBody?
    ensures var m := Merged(Some(body), optionsBody).value.entries;
      m.Keys == optionsBody.GetOr(map[]).Keys + Entries(body).Keys
      && (forall k :: k in Entries(body) ==> m[k] == Entries(body)[k])
      && (forall k :: k in optionsBody.GetOr(map[]) && k !in Entries(body) ==> m[k] == optionsBody.GetOr(map[])[k])
  {
  }

  /**
   * An `HttpContent` main body merged with an options' body gives a
   * dictionary: the options' entries with "Headers" set to the content's
   * headers.
   */
  lemma ContentBodyMergesHeaders(content: nat, headers: Json, optionsBody: map<string, Json>)
    ensures Merged(Some(ContentBody(content, headers)), Some(optionsBody)) == Some(DictionaryBody(optionsBody["Headers" := headers]))
  {
    assert Entries(ContentBody(content, headers)) == map["Headers" := headers];
    assert optionsBody + map["Headers" := headers] == optionsBody["Headers" := headers];
  }

  /** `MergeBodies`: the loop that copies the main body's entries over a copy of the options' body. */
  method MergeBodies(body: Option<Body>, optionsBody: Option<map<string, Json>>) returns (r: Option<Body>)
    ensures r == Merged(body, optionsBody)
  {
    if body.None? {
      if optionsBody.Some? {
        return Some(DictionaryBody(optionsBody.value));
      }
      return None;
    }
    if optionsBody.None? && !body.value.DictionaryBody? {
      return body;
    }
    var mainDict := Entries(body.value);
    var start := optionsBody.GetOr(map[]);
    var result := start;
    var keys := mainDict.Keys;
    while keys != {}
      invariant keys <= mainDict.Keys
      invariant result == start + map k | k in mainDict && k !in keys :: mainDict[k]
      decreases keys
    {
      var k :| k in keys;
      result := result[k := mainDict[k]];
      keys := keys - {k};
    }
    assert (map k | k in mainDict && k !in keys :: mainDict[k]) == mainDict;
    return Some(DictionaryBody(result));
  }

  // ----- single-item operations -----

  /**
   * `options ??= new ...Options(); options.Query = options.BuildQuery(page, perPage)`:
   * the options used, whose query now holds what their `BuildQuery` wrote
   * into the caller's query, or into a fresh page/perPage dictionary.
   */
  method PrepareQuery(page: int, perPage: int, options: Options.SendOptions?) returns (used: Options.SendOptions)
    modifies options, if options != null && options.query != null then {options.query} else {}
    ensures options != null ==> used == options && used.Values() == old(options.Values()) && used.body == old(options.body)
    ensures options == null ==>
      fresh(used) && used.kind == Options.CommonKind && used.body == None
      && used.Values() == Options.OptionValues(None, None, None, None, None)
    ensures used.query != null
    ensures options != null && old(options.query) != null ==> used.query == old(options.query)
    ensures options == null || old(options.query) == null ==> fresh(used.query)
    ensures used.query.entries == Options.Extend(used.kind, used.Values(),
      if options != null && old(options.query) != null then old(options.query.entries) else Options.DefaultQuery(page, perPage))
  {
    if options == null {
      used := new Options.SendOptions(Options.CommonKind);
    } else {
      used := options;
    }
    var query := used.BuildQuery(page, perPage);
    used.query := query;
  }

  /** `GetListAsync`: the list path requested with the prepared query. */
  method GetList(page: int, perPage: int, options: Options.SendOptions?, basePath: string) returns (request: Request, used: Options.SendOptions)
    modifies options, if options != null && options.query != null then {options.query} else {}
    ensures options != null ==> used == options && used.Values() == old(options.Values()) && used.body == old(options.body)
    ensures options == null ==> fresh(used) && used.kind == Options.CommonKind && used.Values() == Options.OptionValues(None, None, None, None, None)
    ensures used.query != null
    ensures options != null && old(options.query) != null ==> used.query == old(options.query)
    ensures options == null || old(options.query) == null ==> fresh(used.query)
    ensures used.query.entries == Options.Extend(used.kind, used.Values(),
      if options != null && old(options.query) != null then old(options.query.entries) else Options.DefaultQuery(page, perPage))
    ensures request == Request(Get, basePath, None, Some(used.query.entries))
  {
    used := PrepareQuery(page, perPage, options);
    request := Request(Get, basePath, None, Some(used.query.entries));
  }

  /**
   * `GetOneAsync`: a blank id fails with status 404 and changes nothing;
   * otherwise the options (a fresh `CommonOptions` when none is given) get
   * `BuildQuery()` as query, so page 1 and 30 per page are sent along with
   * the item path.
   */
  method GetOne(id: Option<string>, options: Options.SendOptions?, basePath: string, urlEncode: string -> string) returns (r: Call<()>)
    modifies options, if options != null && options.query != null then {options.query} else {}
    ensures IsNullOrWhiteSpace(id) ==> r == Returns(MissingId())
    ensures IsNullOrWhiteSpace(id) && options != null ==> options.query == old(options.query)
    ensures IsNullOrWhiteSpace(id) && options != null && options.query != null ==> options.query.entries == old(options.query.entries)
    ensures !IsNullOrWhiteSpace(id) && options == null ==>
      r == Sends(Request(Get, ItemPath(basePath, id.value, urlEncode), None, Some(Options.DefaultQuery(Options.DefaultPage, Options.DefaultPerPage))))
    ensures !IsNullOrWhiteSpace(id) && options != null ==>
      options.query != null
      && options.query.entries == Options.Extend(options.kind, old(options.Values()),
           if old(options.query) != null then old(options.query.entries) else Options.DefaultQuery(Options.DefaultPage, Options.DefaultPerPage))
      && r == Sends(Request(Get, ItemPath(basePath, id.value, urlEncode), None, Some(options.query.entries)))
  {
    if IsNullOrWhiteSpace(id) {
      return Returns(MissingId());
    }
    var used := PrepareQuery(Options.DefaultPage, Options.DefaultPerPage, options);
    r := Sends(Request(Get, ItemPath(basePath, id.value, urlEncode), None, Some(used.query.entries)));
  }

  /** `CreateAsync`: POSTs the merged body to the base path with the options' query. */
  method Create(body: Option<Body>, options: Options.SendOptions?, basePath: string) returns (r: Call<()>)
    ensures r == Sends(Request(Post, basePath, Merged(body, OptionsBody(options)), QueryOf(options)))
  {
    var mergedBody := MergeBodies(body, OptionsBody(options));
    r := Sends(Request(Post, basePath, mergedBody, QueryOf(options)));
  }

  /** `UpdateAsync`: a blank id throws; otherwise the merged body is PATCHed to the item path. */
  method Update(id: Option<string>, body: Option<Body>, options: Options.SendOptions?, basePath: string, urlEncode: string -> string)
    returns (r: Call<()>)
    ensures IsNullOrWhiteSpace(id) <==> r.Throws?
    ensures r.Throws? ==> r.error == Argument(MissingCollectionMessage, "id")
    ensures !r.Throws? ==> r == Sends(Request(Patch, ItemPath(basePath, id.value, urlEncode), Merged(body, OptionsBody(options)), QueryOf(options)))
  {
    if IsNullOrWhiteSpace(id) {
      return Throws(Argument(MissingCollectionMessage, "id"));
    }
    var mergedBody := MergeBodies(body, OptionsBody(options));
    r := Sends(Request(Patch, ItemPath(basePath, id.value, urlEncode), mergedBody, QueryOf(options)));
  }

  /** `DeleteAsync`: a blank id gives the same failure as `GetOneAsync`; otherwise a DELETE of the item path, without body or query. */
  function DeleteOne(id: Option<string>, basePath: string, urlEncode: string -> string): (r: Call<()>)
    ensures IsNullOrWhiteSpace(id) <==> r.Returns?
    ensures r.Returns? ==> r.result == MissingId()
    ensures r.Sends? ==> r.request == Request(HttpMethod.Delete, ItemPath(basePath, id.value, urlEncode), None, None)
    ensures !r.Throws?
  {
    if IsNullOrWhiteSpace(id) then Returns(MissingId())
    else Sends(Request(HttpMethod.Delete, ItemPath(basePath, id.value, urlEncode), None, None))
  }

  // ----- the full list -----

  /** The part of a list result the loop reads. */
  datatype ListPage = ListPage(items: seq<Json>, totalPages: int)

  /**
   * How the page requests of the loop get their query: the same query for
   * every page, or the page number and page size written over a base query.
   */
  datatype Paging = KeepQuery(query: Query) | PerPage(base: Query, batch: int)

  function PageQuery(paging: Paging, page: int): (r: Query)
    ensures paging.PerPage? ==> "page" in r && "perPage" in r && r["page"] == QInt(page) && r["perPage"] == QInt(paging.batch)
  {
    match paging
    case KeepQuery(q) => q
    case PerPage(base, batch) => base + Options.DefaultQuery(page, batch)
  }

  function PageRequest(basePath: string, paging: Paging, page: int): Request {
    Request(Get, basePath, None, Some(PageQuery(paging, page)))
  }

  /** Items read so far in front of what the rest of the loop gives; a failure or a loop that does not end stays as it is. */
  function Prepend(items: seq<Json>, r: Option<Response<seq<Json>>>): Option<Response<seq<Json>>> {
    if r.Some? && r.value.Ok? then Some(Ok(items + r.value.value)) else r
  }

  lemma PrependNothing(r: Option<Response<seq<Json>>>)
    ensures Prepend([], r) == r
  {
    if r.Some? && r.value.Ok? {
      assert [] + r.value.value == r.value.value;
    }
  }

  lemma PrependTwice(a: seq<Json>, b: seq<Json>, r: Option<Response<seq<Json>>>)
    ensures Prepend(a, Prepend(b, r)) == Prepend(a + b, r)
  {
    if r.Some? && r.value.Ok? {
      assert a + (b + r.value.value) == (a + b) + r.value.value;
    }
  }

  /**
   * What `GetFullListInternalAsync` returns when the server answers each
   * request with `server`, starting at `page`: pages are requested in turn,
   * their items appended in page order, until the first page whose number
   * reaches the total page count; a failed page ends the loop with its
   * errors and drops the items read so far. None when `fuel` pages do not
   * reach the end.
   */
  function FullList(basePath: string, paging: Paging, server: Request -> Response<ListPage>, page: int, fuel: nat): (r: Option<Response<seq<Json>>>)
    ensures fuel == 0 ==> r == None
    ensures fuel > 0 && server(PageRequest(basePath, paging, page)).Fail? ==> r == Some(Fail(server(PageRequest(basePath, paging, page)).errors))
    decreases fuel
  {
    if fuel == 0 then None
    else
      var response := server(PageRequest(basePath, paging, page));
      if response.Fail? then Some(Fail(response.errors))
      else if page >= response.value.totalPages then Some(Ok(response.value.items))
      else Prepend(response.value.items, FullList(basePath, paging, server, page + 1, fuel - 1))
  }

  /**
   * The query the loop sends, as it is written: without options each page
   * gets a fresh `ListOptions` and so its own page number; with options the
   * first `GetListAsync` stores its query in them and every later call
   * returns that stored query unchanged.
   */
  function AsWrittenPaging(batch: int, options: Options.SendOptions?): Paging
    reads options, if options != null && options.query != null then {options.query} else {}
  {
    if options == null then PerPage(map[], batch)
    else KeepQuery(Options.Extend(options.kind, options.Values(),
      if options.query != null then options.query.entries else Options.DefaultQuery(1, batch)))
  }

  /** The query the options would give page `page`, as a `Paging` of the loop. */
  function OptionsPaging(options: Options.SendOptions, page: int, batch: int): Paging
    reads options, if options.query != null then {options.query} else {}
  {
    KeepQuery(Options.Extend(options.kind, options.Values(),
      if options.query != null then options.query.entries else Options.DefaultQuery(page, batch)))
  }

  /** One `GetListAsync` call of the loop: it asks for `PageRequest(paging, page)` and leaves the options giving the same query. */
  method RequestPage(page: int, batch: int, options: Options.SendOptions?, basePath: string, ghost paging: Paging) returns (request: Request)
    requires options == null ==> paging == PerPage(map[], batch)
    requires options != null ==> paging == OptionsPaging(options, page, batch)
    modifies options, if options != null && options.query != null then {options.query} else {}
    ensures request == PageRequest(basePath, paging, page)
    ensures options != null ==> options.Values() == old(options.Values()) && options.query != null
    ensures options != null ==> options.query == old(options.query) || fresh(options.query)
    ensures options != null ==> paging == OptionsPaging(options, page + 1, batch)
  {
    if options == null {
      request := RequestFreshPage(page, batch, basePath);
    } else {
      request := RequestStoredPage(page, batch, options, basePath, paging);
    }
  }

  /** `RequestPage` without options: a fresh `ListOptions` asks for page `page`. */
  method RequestFreshPage(page: int, batch: int, basePath: string) returns (request: Request)
    ensures request == PageRequest(basePath, PerPage(map[], batch), page)
  {
    var used;
    request, used := GetList(page, batch, null, basePath);
    assert PageQuery(PerPage(map[], batch), page) == Options.DefaultQuery(page, batch);
  }

  /** `RequestPage` with options: their query is built and stored, and building it again gives the same. */
  method RequestStoredPage(page: int, batch: int, options: Options.SendOptions, basePath: string, ghost paging: Paging) returns (request: Request)
    requires paging == OptionsPaging(options, page, batch)
    modifies options, if options.query != null then {options.query} else {}
    ensures request == PageRequest(basePath, paging, page)
    ensures options.Values() == old(options.Values()) && options.query != null
    ensures options.query == old(options.query) || fresh(options.query)
    ensures paging == OptionsPaging(options, page + 1, batch)
  {
    var used;
    request, used := GetList(page, batch, options, basePath);
    ghost var q := options.query.entries;
    assert q == paging.query;
    Options.ExtendIdempotent(options.kind, options.Values(), q);
    assert OptionsPaging(options, page + 1, batch) == KeepQuery(Options.Extend(options.kind, options.Values(), q));
  }

  /** `GetFullListInternalAsync`: the page loop, bounded by `fuel` pages. */
  method GetFullListInternal(batch: int, options: Options.SendOptions?, basePath: string,
                             server: Request -> Response<ListPage>, fuel: nat) returns (r: Option<Response<seq<Json>>>)
    modifies options, if options != null && options.query != null then {options.query} else {}
    ensures r == FullList(basePath, old(AsWrittenPaging(batch, options)), server, 1, fuel)
  {
    ghost var paging := AsWrittenPaging(batch, options);
    var result: seq<Json> := [];
    var page := 1;
    var left := fuel;
    PrependNothing(FullList(basePath, paging, server, 1, fuel));
    while left > 0
      invariant FullList(basePath, paging, server, 1, fuel) == Prepend(result, FullList(basePath, paging, server, page, left))
      invariant options == null ==> paging == PerPage(map[], batch)
      invariant options != null ==> paging == OptionsPaging(options, page, batch)
      invariant options != null && options.query != null ==> options.query == old(options.query) || fresh(options.query)
      decreases left
    {
      var request := RequestPage(page, batch, options, basePath, paging);
      var response := server(request);
      if response.Fail? {
        return Some(Fail(response.errors));
      }
      PrependTwice(result, response.value.items, FullList(basePath, paging, server, page + 1, left - 1));
      result := result + response.value.items;
      if page >= response.value.totalPages {
        return Some(Ok(result));
      }
      page := page + 1;
      left := left - 1;
    }
    return None;
  }

  /** `GetFullListAsync()` and `GetFullListAsync(batch)`: no options, 500 per page unless a batch is given. */
  method GetFullList(batch: Option<int>, basePath: string, server: Request -> Response<ListPage>, fuel: nat)
    returns (r: Option<Response<seq<Json>>>)
    ensures r == FullList(basePath, PerPage(map[], batch.GetOr(DefaultBatch)), server, 1, fuel)
  {
    r := GetFullListInternal(batch.GetOr(DefaultBatch), null, basePath, server, fuel);
  }

  /** `GetFullListAsync(FullListOptions)`: the options' batch, 500 when it is null, and the options themselves. */
  method GetFullListWithOptions(options: Options.SendOptions, batch: Option<int>, basePath: string,
                                server: Request -> Response<ListPage>, fuel: nat) returns (r: Option<Response<seq<Json>>>)
    modifies options, if options.query != null then {options.query} else {}
    ensures r == FullList(basePath, old(OptionsPaging(options, 1, batch.GetOr(DefaultBatch))), server, 1, fuel)
  {
    r := GetFullListInternal(batch.GetOr(DefaultBatch), options, basePath, server, fuel);
  }

  // ----- paging with and without options -----

  /** The page a request asks for: its "page" value, page 1 when it has none. */
  function RequestedPage(request: Request): int {
    if request.query.Some? && "page" in request.query.value && request.query.value["page"].QInt? then request.query.value["page"].i
    else 1
  }

  /** A server holding `pages`: each request gets the page it asks for (nothing when out of range) and the page count. */
  function PagedServer(pages: seq<seq<Json>>): Request -> Response<ListPage> {
    request => Ok(ListPage(if 1 <= RequestedPage(request) <= |pages| then pages[RequestedPage(request) - 1] else [], |pages|))
  }

  function Flatten(pages: seq<seq<Json>>): seq<Json>
    decreases |pages|
  {
    if |pages| == 0 then [] else pages[0] + Flatten(pages[1..])
  }

  function Repeat(items: seq<Json>, n: nat): (r: seq<Json>)
    ensures |r| == n * |items|
  {
    if n == 0 then [] else items + Repeat(items, n - 1)
  }

  /** With a page number written into each request, the loop returns every page from `page` on, in page order. */
  lemma {:induction false} PerPageCollectsAllPages(basePath: string, base: Query, batch: int, pages: seq<seq<Json>>, page: int, fuel: nat)
    requires 1 <= page <= |pages|
    requires fuel > |pages| - page
    ensures FullList(basePath, PerPage(base, batch), PagedServer(pages), page, fuel) == Some(Ok(Flatten(pages[page - 1..])))
    decreases |pages| - page
  {
    var request := PageRequest(basePath, PerPage(base, batch), page);
    assert RequestedPage(request) == page;
    assert PagedServer(pages)(request) == Ok(ListPage(pages[page - 1], |pages|));
    assert pages[page - 1..][0] == pages[page - 1];
    assert pages[page - 1..][1..] == pages[page..];
    if page < |pages| {
      PerPageCollectsAllPages(basePath, base, batch, pages, page + 1, fuel - 1);
    } else {
      assert pages[page..] == [];
      assert pages[page - 1] + [] == pages[page - 1];
    }
  }

  /** With one stored query that asks for page 1, every request of the loop gets the first page again. */
  lemma {:induction false} KeepQueryRepeatsFirstPage(basePath: string, query: Query, pages: seq<seq<Json>>, page: int, fuel: nat)
    requires "page" in query && query["page"] == QInt(1)
    requires 1 <= page <= |pages|
    requires fuel > |pages| - page
    ensures FullList(basePath, KeepQuery(query), PagedServer(pages), page, fuel) == Some(Ok(Repeat(pages[0], |pages| - page + 1)))
    decreases |pages| - page
  {
    var request := PageRequest(basePath, KeepQuery(query), page);
    assert RequestedPage(request) == 1;
    assert PagedServer(pages)(request) == Ok(ListPage(pages[0], |pages|));
    if page < |pages| {
      KeepQueryRepeatsFirstPage(basePath, query, pages, page + 1, fuel - 1);
    } else {
      assert FullList(basePath, KeepQuery(query), PagedServer(pages), page, fuel) == Some(Ok(pages[0]));
      assert Repeat(pages[0], |pages| - page + 1) == pages[0] + [] == pages[0];
    }
  }

  /**
   * `GetFullListAsync(FullListOptions)` as written: options without a query
   * of their own read the first page once per page; two pages [1] and [2]
   * come back as [1, 1], where the loop without options gives [1, 2].
   */
  lemma AsWrittenOptionsRepeatFirstPage(options: Options.SendOptions, basePath: string)
    requires options.query == null && options.kind == Options.CommonKind
    ensures var pages := [[JNumber(1)], [JNumber(2)]];
      FullList(basePath, OptionsPaging(options, 1, DefaultBatch), PagedServer(pages), 1, 2) == Some(Ok([JNumber(1), JNumber(1)]))
      && FullList(basePath, PerPage(map[], DefaultBatch), PagedServer(pages), 1, 2) == Some(Ok([JNumber(1), JNumber(2)]))
  {
    var pages := [[JNumber(1)], [JNumber(2)]];
    Options.ExtendKeepsBase(options.kind, options.Values(), Options.DefaultQuery(1, DefaultBatch));
    KeepQueryRepeatsFirstPage(basePath, OptionsPaging(options, 1, DefaultBatch).query, pages, 1, 2);
    assert Repeat(pages[0], 2) == pages[0] + (pages[0] + []) == [JNumber(1), JNumber(1)];
    PerPageCollectsAllPages(basePath, map[], DefaultBatch, pages, 1, 2);
    assert pages[0..] == pages;
    assert pages[1..][1..] == [];
    assert Flatten(pages) == pages[0] + (pages[1] + []) == [JNumber(1), JNumber(2)];
  }

  /**
   * The evident intent: the options' query (what `BuildQuery` adds to the
   * caller's query, or to nothing) with this page's number and the batch
   * size written over it for every request.
   */
  function CorrectedPaging(options: Options.SendOptions, batch: int): (r: Paging)
    reads options, if options.query != null then {options.query} else {}
    ensures r.PerPage? && r.batch == batch
  {
    PerPage(Options.Extend(options.kind, options.Values(), if options.query != null then options.query.entries else map[]), batch)
  }

  /** With the corrected paging, options or none, the full list is every page in order. */
  lemma CorrectedCollectsAllPages(options: Options.SendOptions, batch: int, basePath: string, pages: seq<seq<Json>>, fuel: nat)
    requires |pages| > 0 && fuel >= |pages|
    ensures FullList(basePath, CorrectedPaging(options, batch), PagedServer(pages), 1, fuel) == Some(Ok(Flatten(pages)))
  {
    PerPageCollectsAllPages(basePath, CorrectedPaging(options, batch).base, batch, pages, 1, fuel);
    assert pages[0..] == pages;
  }
}
