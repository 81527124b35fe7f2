/** The argument handling of `upload_file`, before any request is made:
    the precondition on in-memory content, the file name and the MIME type. */
module Upload {
  import opened Wrappers
  import opened Http
  import opened Errors
  import PyText

  const MissingFilenameMessage := "filename must be provided if file_content is specified."
  const DefaultMimeType := "application/octet-stream"
  /** The multipart field the file travels under. */
  const FileField := "file"

  /** `filename if filename else file_path.split('/')[-1]`: an empty name
      counts as no name, and then the upload name is the base name of the
      path, the text after its last `/`, which holds no `/`. */
  function UploadName(filePath: string, filename: Option<string>): (name: string)
    ensures filename.Some? && filename.value != "" ==> name == filename.value
    ensures filename.None? || filename.value == "" ==>
      && '/' !in name
      && |name| <= |filePath|
      && name == filePath[|filePath| - |name|..]
      && (|name| == |filePath| || filePath[|filePath| - |name| - 1] == '/')
  {
    if filename.Some? && filename.value != "" then filename.value
    else
      PyText.LastSegmentIsTail(filePath, '/');
      PyText.LastSegment(filePath, '/')
  }

  /** The multipart entry `upload_file` sends, or the `ValueError` it raises
      when content is given without a name. `guessType` stands for
      `mimetypes.guess_type(...)[0]`; it is asked about the path when the
      bytes come from disk and about the upload name otherwise, and when it
      has no answer the generic binary type is used. */
  function PlanUpload(filePath: string, content: Option<seq<byte>>, filename: Option<string>,
                      guessType: string -> Option<string>): (r: Result<FilePart, ClientError>)
    ensures r.Failure? <==> content.Some? && filename.None?
    ensures r.Failure? ==> r.error == ValueError(MissingFilenameMessage)
    ensures r.Success? ==> r.value.filename == UploadName(filePath, filename)
    ensures r.Success? && content.Some? ==> r.value.source == InMemory(content.value)
    ensures r.Success? && content.None? ==> r.value.source == OnDisk(filePath)
    ensures r.Success? ==>
      var asked := if content.None? then filePath else r.value.filename;
      r.value.mimeType == (if guessType(asked).Some? then guessType(asked).value else DefaultMimeType)
  {
    if content.Some? && filename.None? then
      Failure(ValueError(MissingFilenameMessage))
    else
      var name := UploadName(filePath, filename);
      var guessed := guessType(if content.None? then filePath else name);
      var mimeType := if guessed.None? then DefaultMimeType else guessed.value;
      var source := if content.Some? then InMemory(content.value) else OnDisk(filePath);
      Success(FilePart(name, source, mimeType))
  }
}
