/** The editor's view of the REST server: the requests it issues, the replies
    it can receive and the alerts it raises. Replies are inputs, so the
    environment may answer any request with any outcome. */
module Gateway {

  datatype Request =
    | ListRequest(token: string)                                    // GET /screenplays
    | UpdateRequest(token: string, id: int, title: string, content: string)  // PUT /screenplays/:id
    | CreateRequest(token: string, title: string, content: string)  // POST /screenplays
    | DeleteRequest(token: string, id: int)                         // DELETE /screenplays/:id
    | PdfRequest(token: string, id: int)                            // GET /screenplays/:id/pdf
    | AuthRequest(register: bool, username: string, password: string) // POST /auth/register or /auth/login

  /** How an awaited call ends: a 2xx reply with its body, a non-2xx reply
      (axios rejects; `error.response` is set), or no reply at all. */
  datatype Reply<T> = Success(status: int, data: T) | HttpError(status: int) | NoResponse

  /** The body of a successful login or registration. */
  datatype Credentials = Credentials(token: string, username: string, message: string)

  /** `error.response && (status === 401 || status === 403)`: the server
      rejected the token (missing or invalid). */
  predicate IsAuthFailure<T>(reply: Reply<T>): (b: bool)
    ensures b ==> reply.HttpError?
    ensures reply.HttpError? && (reply.status == 401 || reply.status == 403) ==> b
  {
    reply.HttpError? && (reply.status == 401 || reply.status == 403)
  }

  /** What the user is told by `alert`; the wording is left out. */
  datatype Notice =
    | NoSelectionToSave | MustLogInToSave | SaveFailed
    | FetchFailed | SessionExpired
    | MustLogInToCreate | CreateFailed
    | MustLogInToDelete | Deleted | DeleteFailed
    | NoSelectionForPdf | MustLogInForPdf | PdfStarted | PdfFailed
    | ServerMessage(text: string) | AuthFailed

  /** The title and content every create sends. */
  const NewTitle := "New Screenplay"
  const NewContent := ""
}
