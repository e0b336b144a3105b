/** Replies as the handlers send them: a status code and a JSON or binary body. */
module Http {
  import opened Values
  import opened ObjectIds
  import opened Stores

  datatype Body =
    | ErrorJson(error: string)
      /** A document's fields; a `None` local path is a field left out. */
    | FileJson(file: FileDoc)
    | FileListJson(files: seq<FileDoc>)
      /** The reply to an upload: `userId` as the session holds it, `parentId` as the request gave it. */
    | CreatedJson(id: Oid, userId: string, name: string, fileType: FileType, isPublic: bool, parentId: ParentArg)
    | UserJson(id: Oid, email: string)
    | TokenJson(token: string)
    | Content(mimeType: string, bytes: Bytes)
    | NoContent

  /**
   * `Answered` is a reply sent; `Unanswered` is a handler that threw outside
   * any `try`, so the request gets no reply at all.
   */
  datatype Response =
    | Answered(status: nat, body: Body)
    | Unanswered(reason: string)

  const Unauthorized := Answered(401, ErrorJson("Unauthorized"))
  const NotFound := Answered(404, ErrorJson("Not found"))
  const ServerError := Answered(500, ErrorJson("Internal Server Error"))

  function BadRequest(message: string): Response {
    Answered(400, ErrorJson(message))
  }

  /** What `ObjectId(text)` throws on text that is not an ObjectId. */
  const InvalidOid := "Argument passed in must be a single String of 12 bytes or a string of 24 hex characters"
}
