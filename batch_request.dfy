/**
 * `BatchRequest`: one entry of a batch, with the HTTP method and the url its
 * batch method maps to, the body, and the files attached to it.
 */
module BatchRequest {
  import opened Wrappers
  import opened Values
  import opened Text
  import MultipartFile

  /** `BatchMethod`; an enum value outside the four names is `Undefined`. */
  datatype BatchMethod = Create | Update | Delete | Upsert | Undefined(code: int)

  /** `BatchFile`: the record field the file goes to, its content, name and type. */
  datatype BatchFile = BatchFile(field: string, content: MultipartFile.Stream, fileName: string, contentType: string)

  /** The exception a method outside the four names gets: its message is the parameter's name and it names no parameter. */
  const UnknownMethod := Argument("method", "")

  /** The HTTP method of a batch method. */
  function MethodName(m: BatchMethod): (r: Result<string, Exn>)
    ensures (m == Create || m == Upsert) <==> r == Success("POST")
    ensures m == Update <==> r == Success("PATCH")
    ensures m == BatchMethod.Delete <==> r == Success("DELETE")
    ensures m.Undefined? <==> r == Failure(UnknownMethod)
  {
    match m
    case Create => Success("POST")
    case Upsert => Success("POST")
    case Update => Success("PATCH")
    case Delete => Success("DELETE")
    case Undefined(_) => Failure(UnknownMethod)
  }

  /** The records url of a collection; a null name is interpolated as "". */
  function CollectionUrl(collectionName: Option<string>): (r: string)
    ensures r == "/api/collections/" + OrEmpty(collectionName) + "/records"
  {
    "/api/collections/" + OrEmpty(collectionName) + "/records"
  }

  /**
   * The url of a batch method: the records url for Create and Upsert, whatever
   * the id; the record's url for Update and Delete, which need an id.
   */
  function RequestUrl(collectionName: Option<string>, m: BatchMethod, id: Option<string>): (r: Result<string, Exn>)
    ensures (m == Create || m == Upsert) ==> r == Success(CollectionUrl(collectionName))
    ensures (m == Update || m == BatchMethod.Delete) && id.Some? ==> r == Success(CollectionUrl(collectionName) + "/" + id.value)
    ensures (m == Update || m == BatchMethod.Delete) && id.None? ==> r == Failure(ArgumentNull("id"))
    ensures m.Undefined? ==> r == Failure(UnknownMethod)
  {
    match m
    case Create => Success(CollectionUrl(collectionName))
    case Upsert => Success(CollectionUrl(collectionName))
    case Update => if id.Some? then Success(CollectionUrl(collectionName) + "/" + id.value) else Failure(ArgumentNull("id"))
    case Delete => if id.Some? then Success(CollectionUrl(collectionName) + "/" + id.value) else Failure(ArgumentNull("id"))
    case Undefined(_) => Failure(UnknownMethod)
  }

  /** The id is read back from an Update or Delete url, and a url with an id is never a Create or Upsert url. */
  lemma RecordUrlCarriesId(collectionName: Option<string>, m: BatchMethod, id: string)
    requires m == Update || m == BatchMethod.Delete
    ensures var url := RequestUrl(collectionName, m, Some(id)).value; var base := CollectionUrl(collectionName);
      url[..|base|] == base && url[|base|] == '/' && url[|base| + 1..] == id
      && url != RequestUrl(collectionName, Create, Some(id)).value
  {
    var base := CollectionUrl(collectionName);
    assert RequestUrl(collectionName, m, Some(id)).value == base + "/" + id;
  }

  class BatchRequest {
    const verb: string
    const url: string
    /** `Body`: present exactly when a body was given. */
    const body: Option<Body>
    var files: Option<seq<BatchFile>>

    constructor(verb: string, url: string, body: Option<Body>, files: Option<seq<BatchFile>>)
      ensures this.verb == verb && this.url == url && this.body == body && this.files == files
    {
      this.verb := verb;
      this.url := url;
      this.body := body;
      this.files := files;
    }

    /**
     * `Attach`: starts the file list when there is none and appends the file
     * under `field`, with its own stream, name and type; returns this request.
     */
    method Attach(field: string, file: BatchFile) returns (r: BatchRequest)
      modifies this
      ensures r == this
      ensures files == Some(old(files).GetOr([]) + [BatchFile(field, file.content, file.fileName, file.contentType)])
    {
      if files.None? {
        files := Some([]);
      }
      files := Some(files.value + [BatchFile(field, file.content, file.fileName, file.contentType)]);
      r := this;
    }
  }

  /** The constructor: the method is mapped first, then the url; either may throw, and nothing is built then. */
  method New(collectionName: Option<string>, m: BatchMethod, body: Option<Body>, id: Option<string>, files: Option<seq<BatchFile>>)
    returns (r: Result<BatchRequest, Exn>)
    ensures m.Undefined? ==> r == Failure(UnknownMethod)
    ensures !m.Undefined? && RequestUrl(collectionName, m, id).Failure? ==> r == Failure(ArgumentNull("id"))
    ensures r.Success? <==> MethodName(m).Success? && RequestUrl(collectionName, m, id).Success?
    ensures r.Success? ==>
      fresh(r.value) && r.value.verb == MethodName(m).value && r.value.url == RequestUrl(collectionName, m, id).value
      && r.value.body == body && r.value.files == files
  {
    var verb := MethodName(m);
    if verb.Failure? {
      return Failure(verb.error);
    }
    var url := RequestUrl(collectionName, m, id);
    if url.Failure? {
      return Failure(url.error);
    }
    var request := new BatchRequest(verb.value, url.value, body, files);
    return Success(request);
  }
}
