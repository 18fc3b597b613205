/** The two shapes of a Drive v2 `files.list` reply, and their
    normalisation into one non-empty list of files. */
module DriveResponse {
  import opened Wrappers

  /** The two fields of a file object the plugin reads; None is a field the
      object does not have (undefined). */
  datatype DriveFile = DriveFile(title: Option<string>, alternateLink: Option<string>)

  /** A reply object: its `kind` discriminant, the reply itself read as a
      file (what is kept when the reply is a single `drive#file`), and its
      `items` array (None when absent or null). */
  datatype ListResponse = ListResponse(kind: Option<string>, asFile: DriveFile, items: Option<seq<DriveFile>>)

  const FileKind := "drive#file"
  const FileListKind := "drive#fileList"
  const NoResultsMessage := "Drive Search Error: " + "failed to get a list of files for given parameters"

  /** A single file becomes a one-element list, a file list its items; any
      other kind, or a missing or empty list, is the no-results error. */
  function NormaliseResponse(resp: ListResponse): (r: Result<seq<DriveFile>, string>)
    ensures r.Success? ==> |r.value| > 0
    ensures r.Failure? ==> r.error == NoResultsMessage
    ensures resp.kind == Some(FileKind) ==> r == Success([resp.asFile])
    ensures resp.kind == Some(FileListKind) ==>
      (r.Success? <==> resp.items.Some? && |resp.items.value| > 0)
    ensures resp.kind == Some(FileListKind) && r.Success? ==> r.value == resp.items.value
    ensures resp.kind != Some(FileKind) && resp.kind != Some(FileListKind) ==> r.Failure?
  {
    var files :=
      if resp.kind == Some(FileKind) then Some([resp.asFile])
      else if resp.kind == Some(FileListKind) then resp.items
      else None;
    if files.None? || !(|files.value| > 0) then Failure(NoResultsMessage)
    else Success(files.value)
  }
}
