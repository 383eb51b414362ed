/**
 * The request options classes and their `BuildQuery` overrides. An options
 * object holds a reference to a query dictionary that callers may share,
 * and `BuildQuery` of `CommonOptions`, `FileOptions` and `RecordOptions`
 * writes its keys into that very dictionary when one is set. `ListOptions`
 * inherits `CommonOptions.BuildQuery` unchanged.
 */
module Options {
  import opened Wrappers
  import opened Values
  import opened Text

  /** A `Dictionary<string, object?>` that several owners may hold. */
  class Dictionary {
    var entries: Query

    constructor(entries: Query)
      ensures this.entries == entries
    {
      this.entries := entries;
    }

    /** The indexer `d[key] = value`: adds or overwrites. */
    method Set(key: string, value: QueryValue)
      modifies this
      ensures entries == old(entries)[key := value]
    {
      entries := entries[key := value];
    }

    /** `Remove(key)`: whether the key was there, and it is not afterwards. */
    method Remove(key: string) returns (removed: bool)
      modifies this
      ensures entries == old(entries) - {key}
      ensures removed <==> key in old(entries)
    {
      removed := key in entries;
      entries := entries - {key};
    }
  }

  /** Which `BuildQuery` override an options object runs. */
  datatype OptionsKind =
    | CommonKind   // CommonOptions and ListOptions
    | FileKind     // FileOptions
    | RecordKind   // RecordOptions

  /** The option values `BuildQuery` reads, besides the query reference. */
  datatype OptionValues = OptionValues(
    fields: Option<string>,
    thumb: Option<string>,
    token: Option<string>,
    download: Option<string>,
    expand: Option<string>)

  /** What `SendOptions.BuildQuery` builds when no query is set: page 1 and 30 per page unless given. */
  function DefaultQuery(page: int, perPage: int): (r: Query)
    ensures r.Keys == {"page", "perPage"}
    ensures r["page"] == QInt(page) && r["perPage"] == QInt(perPage)
  {
    map["page" := QInt(page), "perPage" := QInt(perPage)]
  }

  const DefaultPage := 1
  const DefaultPerPage := 30

  /** `CommonOptions.BuildQuery` on top of the base dictionary: "fields" is written when Fields is not null or empty. */
  function CommonEntries(v: OptionValues, base: Query): (r: Query)
    ensures !IsNullOrEmpty(v.fields) ==> r == base["fields" := QString(v.fields.value)]
    ensures IsNullOrEmpty(v.fields) ==> r == base
  {
    if !IsNullOrEmpty(v.fields) then base["fields" := QString(v.fields.value)] else base
  }

  /** Writes `key` when `value` is not null or white space. */
  function PutIfNotBlank(q: Query, key: string, value: Option<string>): (r: Query)
    ensures !IsNullOrWhiteSpace(value) ==> r == q[key := QString(value.value)]
    ensures IsNullOrWhiteSpace(value) ==> r == q
  {
    if !IsNullOrWhiteSpace(value) then q[key := QString(value.value)] else q
  }

  /** The entries `BuildQuery` leaves in the dictionary it starts from. */
  function Extend(kind: OptionsKind, v: OptionValues, base: Query): Query {
    var common := CommonEntries(v, base);
    match kind
    case CommonKind => common
    case FileKind => PutIfNotBlank(PutIfNotBlank(PutIfNotBlank(common, "thumb", v.thumb), "token", v.token), "download", v.download)
    case RecordKind => if !IsNullOrEmpty(v.expand) then common["expand" := QString(v.expand.value)] else common
  }

  /** The keys each override may write. */
  function AddedKeys(kind: OptionsKind): set<string> {
    match kind
    case CommonKind => {"fields"}
    case FileKind => {"fields", "thumb", "token", "download"}
    case RecordKind => {"fields", "expand"}
  }

  /**
   * `BuildQuery` only adds keys: every key of the base is kept, and keeps its
   * value unless the override writes that key; no key outside the override's
   * own is added.
   */
  lemma ExtendKeepsBase(kind: OptionsKind, v: OptionValues, base: Query)
    ensures base.Keys <= Extend(kind, v, base).Keys <= base.Keys + AddedKeys(kind)
    ensures forall k :: k in base && k !in AddedKeys(kind) ==> Extend(kind, v, base)[k] == base[k]
  {
  }

  /**
   * "fields" holds Fields exactly when it is not null or empty, so a value of
   * white space only is still written; otherwise the key keeps what the base had.
   */
  lemma ExtendFields(kind: OptionsKind, v: OptionValues, base: Query)
    ensures !IsNullOrEmpty(v.fields) ==> Extend(kind, v, base)["fields"] == QString(v.fields.value)
    ensures IsNullOrEmpty(v.fields) ==> ("fields" in Extend(kind, v, base) <==> "fields" in base)
    ensures IsNullOrEmpty(v.fields) && "fields" in base ==> Extend(kind, v, base)["fields"] == base["fields"]
  {
  }

  /** `FileOptions`: each of thumb, token and download is written exactly when it is not null or white space. */
  lemma FileKeys(v: OptionValues, base: Query, key: string, value: Option<string>)
    requires (key, value) in {("thumb", v.thumb), ("token", v.token), ("download", v.download)}
    ensures !IsNullOrWhiteSpace(value) ==> Extend(FileKind, v, base)[key] == QString(value.value)
    ensures IsNullOrWhiteSpace(value) ==> (key in Extend(FileKind, v, base) <==> key in base)
  {
  }

  /** `RecordOptions`: "expand" is written exactly when Expand is not null or empty, white space included. */
  lemma RecordExpand(v: OptionValues, base: Query)
    ensures !IsNullOrEmpty(v.expand) ==> Extend(RecordKind, v, base)["expand"] == QString(v.expand.value)
    ensures IsNullOrEmpty(v.expand) ==> Extend(RecordKind, v, base) == Extend(CommonKind, v, base)
  {
  }

  /** Building twice on the dictionary the first call filled changes nothing more. */
  lemma ExtendIdempotent(kind: OptionsKind, v: OptionValues, base: Query)
    ensures Extend(kind, v, Extend(kind, v, base)) == Extend(kind, v, base)
  {
  }

  /** An options object: `SendOptions` with the fields of its subclasses. */
  class SendOptions {
    const kind: OptionsKind
    /** `Query`, a reference that may be shared with the caller. */
    var query: Dictionary?
    /** `Body`. */
    var body: Option<Body>
    var fields: Option<string>
    /** `FileOptions.Thumb`, `Token` and `Download` are init-only. */
    const thumb: Option<string>
    const token: Option<string>
    const download: Option<string>
    var expand: Option<string>

    /** A fresh options object of `kind` with every property null. */
    constructor(kind: OptionsKind)
      ensures this.kind == kind && query == null && body == None
      ensures fields == None && thumb == None && token == None && download == None && expand == None
    {
      this.kind := kind;
      query := null;
      body := None;
      fields := None;
      thumb := None;
      token := None;
      download := None;
      expand := None;
    }

    /** A `FileOptions` with its init-only properties. */
    constructor File(thumb: Option<string>, token: Option<string>, download: Option<string>)
      ensures kind == FileKind && query == null && body == None && fields == None && expand == None
      ensures this.thumb == thumb && this.token == token && this.download == download
    {
      kind := FileKind;
      query := null;
      body := None;
      fields := None;
      this.thumb := thumb;
      this.token := token;
      this.download := download;
      expand := None;
    }

    function Values(): OptionValues
      reads this
    {
      OptionValues(fields, thumb, token, download, expand)
    }

    /** `SendOptions.BuildQuery`: the query set on the options, else a fresh page/perPage dictionary. */
    method SendBuildQuery(page: int, perPage: int) returns (d: Dictionary)
      ensures query != null ==> d == query
      ensures query == null ==> fresh(d) && d.entries == DefaultQuery(page, perPage)
    {
      var built := new Dictionary(map["page" := QInt(page), "perPage" := QInt(perPage)]);
      if query != null {
        d := query;
      } else {
        d := built;
      }
    }

    /** `CommonOptions.BuildQuery`. */
    method CommonBuildQuery(page: int, perPage: int) returns (d: Dictionary)
      modifies if query != null then {query} else {}
      ensures query != null ==> d == query && d.entries == CommonEntries(Values(), old(query.entries))
      ensures query == null ==> fresh(d) && d.entries == CommonEntries(Values(), DefaultQuery(page, perPage))
    {
      if !IsNullOrEmpty(fields) {
        d := SendBuildQuery(page, perPage);
        d.Set("fields", QString(fields.value));
        return;
      }
      d := SendBuildQuery(page, perPage);
    }

    /** `BuildQuery(page, perPage)` of the options' own class. */
    method BuildQuery(page: int, perPage: int) returns (d: Dictionary)
      modifies if query != null then {query} else {}
      ensures query != null ==> d == query && d.entries == Extend(kind, Values(), old(query.entries))
      ensures query == null ==> fresh(d) && d.entries == Extend(kind, Values(), DefaultQuery(page, perPage))
    {
      d := CommonBuildQuery(page, perPage);
      match kind
      case CommonKind =>
      case FileKind =>
        if !IsNullOrWhiteSpace(thumb) {
          d.Set("thumb", QString(thumb.value));
        }
        if !IsNullOrWhiteSpace(token) {
          d.Set("token", QString(token.value));
        }
        if !IsNullOrWhiteSpace(download) {
          d.Set("download", QString(download.value));
        }
      case RecordKind =>
        if !IsNullOrEmpty(expand) {
          d.Set("expand", QString(expand.value));
        }
    }
  }
}
