/** Small shared vocabulary: optional values, the status banner every page
    shows after an action, uploaded files, and the shapes in which documents
    come back from (and go to) the hosted document store. */
module Common {

  datatype Option<T> = None | Some(value: T)

  /** The `{ type, text }` message a page shows after an action. */
  datatype NoticeKind = Blank | Success | Failure
  datatype Notice = Notice(kind: NoticeKind, text: string)

  const NoNotice := Notice(Blank, "")

  /** The message an action leaves: its success text or its failure text. */
  function Report(ok: bool, success: string, failure: string): (n: Notice)
    ensures n.kind == (if ok then Success else Failure)
    ensures n.text == (if ok then success else failure)
  {
    if ok then Notice(Success, success) else Notice(Failure, failure)
  }

  /** A file picked in a browser file input: its name and MIME type. */
  datatype File = File(name: string, mimeType: string)

  /** A document as listed by a query: `{ id: doc.id, ...doc.data() }`. */
  datatype Entry<T> = Entry(id: string, data: T)

  /** A document as written: the record plus the server timestamp
      (`createdAt` or `updatedAt`) that the write adds. */
  datatype Stored<T> = Stored(data: T, stamp: int)

  /** The URL an optional upload yields: `''` when no file was chosen,
      otherwise whatever the object store answered (`None` when the upload
      threw, which aborts the surrounding action). */
  function UploadedUrl(file: Option<File>, upload: Option<string>): (r: Option<string>)
    ensures file.None? ==> r == Some("")
    ensures file.Some? ==> r == upload
  {
    if file.None? then Some("") else upload
  }

  /** A list after a reload: the new answer, or the old list when the query
      failed (the failure is only logged). */
  function Reloaded<T>(current: seq<T>, answer: Option<seq<T>>): (r: seq<T>)
    ensures answer.Some? ==> r == answer.value
    ensures answer.None? ==> r == current
  {
    if answer.Some? then answer.value else current
  }
}
