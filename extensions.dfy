/**
 * The two extension methods that turn options into a fresh query
 * dictionary: `CommonOptions.ToDictionary` and
 * `QueryOptionsRequest.ToQueryDictionary`. Neither changes its argument.
 */
module Extensions {
  import opened Wrappers
  import opened Values
  import opened Text
  import Options

  /**
   * `ToDictionary` from what it reads: a copy of the options' query (empty
   * for null options or a null query), then "fields" set when Fields is not
   * null or white space.
   */
  function CommonToDictionary(query: Option<Query>, fields: Option<string>): (r: Query)
    ensures !IsNullOrWhiteSpace(fields) ==> r == query.GetOr(map[])["fields" := QString(fields.value)]
    ensures IsNullOrWhiteSpace(fields) ==> r == query.GetOr(map[])
  {
    var dict := if query.Some? then query.value else map[];
    if !IsNullOrWhiteSpace(fields) then dict["fields" := QString(fields.value)] else dict
  }

  /** `options.ToDictionary()` on an options object or null. */
  function ToDictionary(options: Options.SendOptions?): (r: Query)
    reads options, if options != null && options.query != null then {options.query} else {}
  {
    if options == null then CommonToDictionary(None, None)
    else CommonToDictionary(if options.query != null then Some(options.query.entries) else None, options.fields)
  }

  /** `options?.ToDictionary()`: no query at all for null options. */
  function OptionalDictionary(options: Options.SendOptions?): (r: Option<Query>)
    reads options, if options != null && options.query != null then {options.query} else {}
    ensures options == null <==> r.None?
    ensures options != null ==> r == Some(ToDictionary(options))
  {
    if options == null then None else Some(ToDictionary(options))
  }

  /**
   * The copy keeps every key of the query; "fields" is the only key that may
   * be added or overwritten, and it is present with Fields exactly when Fields
   * is not null or white space (otherwise as the query had it).
   */
  lemma ToDictionaryKeys(query: Option<Query>, fields: Option<string>)
    ensures var r := CommonToDictionary(query, fields);
      && r.Keys == query.GetOr(map[]).Keys + (if IsNullOrWhiteSpace(fields) then {} else {"fields"})
      && (forall k :: k in query.GetOr(map[]) && k != "fields" ==> r[k] == query.GetOr(map[])[k])
      && (!IsNullOrWhiteSpace(fields) ==> r["fields"] == QString(fields.value))
  {
  }

  /** A `QueryOptionsRequest`: filter, sort and expand texts and an optional page and page size. */
  datatype QueryOptionsRequest = QueryOptionsRequest(
    filter: Option<string>,
    sort: Option<string>,
    expand: Option<string>,
    page: Option<int>,
    perPage: Option<int>)

  /** `ToQueryDictionary`: an empty dictionary for null options, else each present value under its own key. */
  function ToQueryDictionary(options: Option<QueryOptionsRequest>): (r: Query)
    ensures options.None? ==> r == map[]
    ensures r.Keys <= {"filter", "sort", "expand", "page", "perPage"}
  {
    if options.None? then map[]
    else
      var o := options.value;
      var d0: Query := map[];
      var d1 := if !IsNullOrWhiteSpace(o.filter) then d0["filter" := QString(o.filter.value)] else d0;
      var d2 := if !IsNullOrWhiteSpace(o.sort) then d1["sort" := QString(o.sort.value)] else d1;
      var d3 := if !IsNullOrWhiteSpace(o.expand) then d2["expand" := QString(o.expand.value)] else d2;
      var d4 := if o.page.Some? then d3["page" := QInt(o.page.value)] else d3;
      if o.perPage.Some? then d4["perPage" := QInt(o.perPage.value)] else d4
  }

  /**
   * For non-null options, filter, sort and expand are present exactly when
   * not null or white space, page and perPage exactly when they have values,
   * each with that value.
   */
  lemma ToQueryDictionaryEntries(o: QueryOptionsRequest)
    ensures var r := ToQueryDictionary(Some(o));
      && ("filter" in r <==> !IsNullOrWhiteSpace(o.filter)) && ("filter" in r ==> r["filter"] == QString(o.filter.value))
      && ("sort" in r <==> !IsNullOrWhiteSpace(o.sort)) && ("sort" in r ==> r["sort"] == QString(o.sort.value))
      && ("expand" in r <==> !IsNullOrWhiteSpace(o.expand)) && ("expand" in r ==> r["expand"] == QString(o.expand.value))
      && ("page" in r <==> o.page.Some?) && ("page" in r ==> r["page"] == QInt(o.page.value))
      && ("perPage" in r <==> o.perPage.Some?) && ("perPage" in r ==> r["perPage"] == QInt(o.perPage.value))
  {
  }
}
