/**
 * `FilesClient`: fetching a record's file and asking for a file token.
 */
module FilesClient {
  import opened Wrappers
  import opened Values
  import opened Text
  import Options
  import BaseClient

  /** The path of a record's file: "api/files/", then the escaped collection id, record id and file name, joined by '/'. */
  function FilePath(collectionId: string, recordId: string, fileName: string, escape: string -> string): (r: string)
    ensures r == "api/files/" + escape(collectionId) + "/" + escape(recordId) + "/" + escape(fileName)
  {
    var parts := ["api", "files", escape(collectionId), escape(recordId), escape(fileName)];
    assert Join(parts[3..], "/") == escape(recordId) + "/" + escape(fileName) by {
      assert parts[3..][1..] == [escape(fileName)];
    }
    assert Join(parts[1..], "/") == "files/" + escape(collectionId) + "/" + escape(recordId) + "/" + escape(fileName) by {
      assert parts[1..][1..] == parts[2..];
      assert parts[2..][1..] == parts[3..];
    }
    Join(parts, "/")
  }

  /** With an escape that never yields '/', the path splits back into its five segments. */
  lemma FilePathSegments(collectionId: string, recordId: string, fileName: string, escape: string -> string)
    requires forall s :: '/' !in escape(s)
    ensures Split(FilePath(collectionId, recordId, fileName, escape), '/')
      == ["api", "files", escape(collectionId), escape(recordId), escape(fileName)]
  {
    var parts := ["api", "files", escape(collectionId), escape(recordId), escape(fileName)];
    assert forall i :: 0 <= i < |parts| ==> '/' !in parts[i];
    SplitJoin(parts, '/');
  }

  /** Whether the query's "download" value is the string "false" (`download?.Equals("false")`). */
  predicate DownloadIsFalse(q: Query) {
    "download" in q && q["download"] == QString("false")
  }

  /** The query after the normalisation: "download" removed exactly when it is "false"; every other key untouched. */
  function NormalisedQuery(q: Query): (r: Query)
    ensures DownloadIsFalse(q) ==> r.Keys == q.Keys - {"download"}
    ensures !DownloadIsFalse(q) ==> r == q
    ensures forall k :: k in r ==> k in q && r[k] == q[k]
    ensures forall k :: k in q && k != "download" ==> k in r
  {
    if DownloadIsFalse(q) then q - {"download"} else q
  }

  /** Normalising twice is normalising once. */
  lemma NormaliseIdempotent(q: Query)
    ensures NormalisedQuery(NormalisedQuery(q)) == NormalisedQuery(q)
  {
  }

  /**
   * `GetUrl`: a blank file name or record id gives an empty byte array and
   * no request; a null collection id makes the escape throw; otherwise the
   * caller's query is normalised in place and sent with a GET of the file
   * path, and a null query stays null.
   */
  method GetUrl(collectionId: Option<string>, recordId: Option<string>, fileName: Option<string>,
                query: Options.Dictionary?, escape: string -> string) returns (r: Call<seq<bv8>>)
    modifies query
    ensures IsNullOrWhiteSpace(fileName) || IsNullOrWhiteSpace(recordId) ==>
      r == Returns(Ok([])) && (query != null ==> query.entries == old(query.entries))
    ensures !IsNullOrWhiteSpace(fileName) && !IsNullOrWhiteSpace(recordId) && collectionId.None? ==>
      r == Throws(ArgumentNull("stringToEscape")) && (query != null ==> query.entries == old(query.entries))
    ensures !IsNullOrWhiteSpace(fileName) && !IsNullOrWhiteSpace(recordId) && collectionId.Some? ==>
      (query != null ==> query.entries == NormalisedQuery(old(query.entries)))
      && r == Sends(Request(Get, FilePath(collectionId.value, recordId.value, fileName.value, escape), None,
                            if query == null then None else Some(query.entries)))
  {
    if IsNullOrWhiteSpace(fileName) || IsNullOrWhiteSpace(recordId) {
      return Returns(Ok([]));
    }
    if collectionId.None? {
      return Throws(ArgumentNull("stringToEscape"));
    }
    var path := FilePath(collectionId.value, recordId.value, fileName.value, escape);
    if query != null && DownloadIsFalse(query.entries) {
      var removed := query.Remove("download");
    }
    r := Sends(Request(Get, path, None, if query == null then None else Some(query.entries)));
  }

  /** `GetTokenAsync`'s request: a POST with the options' body and query, both null with the fresh `CommonOptions` used when none is given. */
  function GetToken(options: Options.SendOptions?): (r: Call<string>)
    reads options, if options != null && options.query != null then {options.query} else {}
    ensures options == null ==> r == Sends(Request(Post, "api/files/token", None, None))
    ensures options != null ==> r == Sends(Request(Post, "api/files/token", options.body, BaseClient.QueryOf(options)))
  {
    Sends(Request(Post, "api/files/token", if options == null then None else options.body, BaseClient.QueryOf(options)))
  }

  /** The message `Result.Value` throws with when the result failed (without the reasons it lists). */
  const FailedValueMessage := "Result is in status failed. Value is not set."

  /**
   * `GetTokenAsync`'s answer: the token, "" when the response holds a null
   * token, and a failed response is not returned as a failure: reading its
   * value throws.
   */
  function TokenOutcome(response: Response<Option<string>>): (r: Result<Response<string>, Exn>)
    ensures response.Fail? <==> r == Failure(InvalidOperation(FailedValueMessage))
    ensures response.Ok? ==> r == Success(Ok(response.value.GetOr("")))
  {
    if response.Fail? then Failure(InvalidOperation(FailedValueMessage))
    else Success(Ok(response.value.GetOr("")))
  }
}
