/**
 * `MultipartFile`: a file sent as multipart/form-data, with its form field
 * name, the file name the server sees, the content stream and the content
 * type, and its two factories.
 */
module MultipartFile {
  import opened Wrappers
  import opened Values
  import opened Text
  import Paths

  /** Where the content of a file comes from. */
  datatype Stream =
    | MemoryStream(bytes: seq<bv8>)
      /** A stream `File.OpenRead(path)` opened. */
    | FileStream(path: string)
      /** A stream the caller opened. */
    | CallerStream(id: nat)

  /** The properties of a `MultipartFile`, none of which changes after construction. */
  datatype File = File(name: string, fileName: string, content: Stream, contentType: string)

  const DefaultContentType := "application/octet-stream"
  const DefaultName := "file"

  /**
   * The constructor: a null stream, then a blank file name, is rejected; the
   * content type is kept as given and a blank form name becomes "file".
   */
  function New(content: Option<Stream>, fileName: Option<string>, contentType: string, name: Option<string>): (r: Result<File, Exn>)
    ensures content.None? ==> r == Failure(ArgumentNull("content"))
    ensures content.Some? && IsNullOrWhiteSpace(fileName) ==> r == Failure(Argument("File name is required.", "fileName"))
    ensures r.Success? <==> content.Some? && !IsNullOrWhiteSpace(fileName)
    ensures r.Success? ==>
      r.value.content == content.value && r.value.fileName == fileName.value && r.value.contentType == contentType
      && r.value.name == (if IsNullOrWhiteSpace(name) then DefaultName else name.value)
  {
    if content.None? then Failure(ArgumentNull("content"))
    else if IsNullOrWhiteSpace(fileName) then Failure(Argument("File name is required.", "fileName"))
    else Success(File(if IsNullOrWhiteSpace(name) then DefaultName else name.value, fileName.value, content.value, contentType))
  }

  /** The form name of every file built is not blank. */
  lemma NameNeverBlank(content: Option<Stream>, fileName: Option<string>, contentType: string, name: Option<string>)
    requires New(content, fileName, contentType, name).Success?
    ensures !IsBlank(New(content, fileName, contentType, name).value.name)
    ensures !IsBlank(New(content, fileName, contentType, name).value.fileName)
  {
    assert DefaultName[0] == 'f';
  }

  /** `FromBytes`: null bytes are rejected; otherwise a memory stream over the bytes. */
  function FromBytes(bytes: Option<seq<bv8>>, fileName: Option<string>, contentType: string, name: Option<string>): (r: Result<File, Exn>)
    ensures bytes.None? ==> r == Failure(ArgumentNull("bytes"))
    ensures bytes.Some? ==> r == New(Some(MemoryStream(bytes.value)), fileName, contentType, name)
    ensures r.Success? ==> r.value.content == MemoryStream(bytes.value)
  {
    if bytes.None? then Failure(ArgumentNull("bytes"))
    else New(Some(MemoryStream(bytes.value)), fileName, contentType, name)
  }

  /**
   * `FromFile`: a blank path is rejected; otherwise `open` (`File.OpenRead`)
   * runs first, and its exception (a missing file, a directory, a denied
   * read) is thrown before anything else. An opened file is sent under the
   * last segment of the path as its file name, so a path ending with '/'
   * gives a blank file name and is rejected by the constructor.
   */
  function FromFile(path: Option<string>, contentType: string, name: Option<string>, open: string -> Result<Stream, Exn>): (r: Result<File, Exn>)
    ensures IsNullOrWhiteSpace(path) ==> r == Failure(Argument("File path is required.", "path"))
    ensures !IsNullOrWhiteSpace(path) && open(path.value).Failure? ==> r == Failure(open(path.value).error)
    ensures !IsNullOrWhiteSpace(path) && open(path.value).Success? ==>
      r == New(Some(open(path.value).value), Some(Paths.FileName(path.value)), contentType, name)
    ensures r.Success? ==> r.value.content == open(path.value).value && '/' !in r.value.fileName
  {
    if IsNullOrWhiteSpace(path) then Failure(Argument("File path is required.", "path"))
    else match open(path.value)
      case Failure(e) => Failure(e)
      case Success(stream) => New(Some(stream), Some(Paths.FileName(path.value)), contentType, name)
  }

  /**
   * A path that ends with the separator never gives a file: the open of the
   * directory throws its own exception, and should it succeed the blank file
   * name is rejected.
   */
  lemma DirectoryPathRejected(path: string, contentType: string, name: Option<string>, open: string -> Result<Stream, Exn>)
    requires !IsBlank(path) && path[|path| - 1] == '/'
    ensures FromFile(Some(path), contentType, name, open).Failure?
    ensures open(path).Failure? ==> FromFile(Some(path), contentType, name, open).error == open(path).error
    ensures open(path).Success? ==> FromFile(Some(path), contentType, name, open).error == Argument("File name is required.", "fileName")
  {
    assert Paths.FileName(path) == "";
  }
}
