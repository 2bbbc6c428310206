/** The object listing route (`GET /api/aws/s3/list-s3-files`): one entry
    per stored object, named after the last `/` segment of its key. The
    storage call and the URL signer are parameters. */
module S3Listing {
  import opened Wrappers
  import opened Text

  /** An object as the storage listing reports it; every field may be absent. */
  datatype S3Object = S3Object(key: Option<string>, size: Option<nat>, lastModified: Option<string>)

  /** An entry of the route's `files` array. */
  datatype FileEntry = FileEntry(name: string, key: Option<string>, url: string, size: Option<nat>, lastModified: string)

  datatype ListResponse =
    | Listing(filesFound: bool, message: string, files: seq<FileEntry>)
    | ListFailure(status: int, error: string)

  const NoFilesMessage := "No files found in the bucket."
  const FoundMessage := "Files retrieved successfully."
  const ErrorPrefix := "Error listing files: "

  /** The display name of an object: the text after the last `/` of its
      key. It is all of the key when the key has no `/`, and it is empty
      when the key ends in `/`. */
  function FileName(key: string): (name: string)
    ensures |name| <= |key| && key[|key| - |name|..] == name && '/' !in name
    ensures |name| < |key| ==> key[|key| - |name| - 1] == '/'
  {
    var parts := Split(key, '/');
    LastSegment(key, '/');
    parts[|parts| - 1]
  }

  lemma FileNameWithoutSlash(key: string)
    requires '/' !in key
    ensures FileName(key) == key
  {
  }

  lemma FileNameOfDirectoryKey(key: string)
    requires |key| > 0 && key[|key| - 1] == '/'
    ensures FileName(key) == ""
  {
  }

  /** The name after a `/` is recovered whole, whatever precedes it. */
  lemma FileNameAfterSlash(prefix: string, name: string)
    requires '/' !in name
    ensures FileName(prefix + "/" + name) == name
  {
    var key := prefix + "/" + name;
    var n := FileName(key);
    assert key[|key| - |name|..] == name;
    assert key[|key| - |name| - 1] == '/';

  }

  /** The entry for one object: its name, its key and size as listed, the
      signed URL and the modification time, or "" when there is none. */
  function ToEntry(obj: S3Object, url: string): (e: FileEntry)
    ensures e.key == obj.key && e.url == url && e.size == obj.size
    ensures obj.lastModified.Some? ==> e.lastModified == obj.lastModified.value
    ensures obj.lastModified.None? ==> e.lastModified == ""
    ensures obj.key.None? ==> e.name == ""
    ensures obj.key.Some? ==> var key := obj.key.value;
      && |e.name| <= |key| && key[|key| - |e.name|..] == e.name && '/' !in e.name
      && (|e.name| < |key| ==> key[|key| - |e.name| - 1] == '/')
  {
    FileEntry(FileName(obj.key.GetOr("")), obj.key, url, obj.size, obj.lastModified.GetOr(""))
  }

  /** `Contents.map(...)`: one entry per object, in listing order. */
  function Entries(objects: seq<S3Object>, sign: Option<string> -> string): (files: seq<FileEntry>)
    ensures |files| == |objects|
    ensures forall i :: 0 <= i < |objects| ==> files[i] == ToEntry(objects[i], sign(objects[i].key))
  {
    if |objects| == 0 then []
    else
      var rest := Entries(objects[1..], sign);
      assert forall i :: 1 <= i < |objects| ==> objects[1..][i - 1] == objects[i];
      [ToEntry(objects[0], sign(objects[0].key))] + rest
  }

  /** The route. `listing` is what the storage call produced (`Contents`,
      possibly absent) or the message of whatever failed; `sign` gives the
      signed URL for a key. */
  function ListFiles(listing: Result<Option<seq<S3Object>>, string>, sign: Option<string> -> string): (r: ListResponse)
    ensures listing.Err? ==> r == ListFailure(500, ErrorPrefix + listing.error)
    ensures listing.Ok? && (listing.value.None? || listing.value.value == []) ==>
      r == Listing(false, NoFilesMessage, [])
    ensures listing.Ok? && listing.value.Some? && listing.value.value != [] ==>
      && r.Listing? && r.filesFound && r.message == FoundMessage
      && r.files == Entries(listing.value.value, sign)
      && |r.files| == |listing.value.value|
      && forall i :: 0 <= i < |r.files| ==>
           var obj := listing.value.value[i];
           && r.files[i].key == obj.key && r.files[i].size == obj.size
           && r.files[i].name == FileName(obj.key.GetOr(""))
           && r.files[i].lastModified == obj.lastModified.GetOr("")
  {
    match listing
    case Err(message) => ListFailure(500, ErrorPrefix + message)
    case Ok(contents) =>
      if contents.None? || contents.value == [] then Listing(false, NoFilesMessage, [])
      else Listing(true, FoundMessage, Entries(contents.value, sign))
  }
}
