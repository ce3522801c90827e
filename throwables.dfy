/**
 * The errors the handlers raise (throwables) and the controller advice that
 * turns four of them into a status and a one-field JSON error body (Advice.java).
 */
module Throwables {
  import opened Wrappers

  /**
   * The throwables of the read path. DownloadFailed carries the throwable it
   * wraps; IoError and NullPointer stand for the I/O and null-pointer failures
   * that can arise while the download handler builds its response.
   */
  datatype ApiError =
    | ProjectNotFound
    | VersionNotFound
    | BuildNotFound
    | GroupNotFound
    | DownloadNotFound
    | IoError
    | NullPointer
    | DownloadFailed(cause: ApiError)

  /** The JSON object `{ "error": <message> }`: one field and nothing else. */
  datatype ErrorBody = ErrorBody(error: string)

  datatype ErrorResponse = ErrorResponse(status: int, body: ErrorBody)

  const NotFound: int := 404
  const InternalServerError: int := 500

  const DownloadFailedMessage: string := "An internal error occurred while serving your download."
  const DownloadNotFoundMessage: string := "Download not found."
  const ProjectNotFoundMessage: string := "Project not found."
  const VersionNotFoundMessage: string := "Version not found."

  /** The advice's `error(status, message)`. */
  function Error(status: int, message: string): ErrorResponse {
    ErrorResponse(status, ErrorBody(message))
  }

  /**
   * The exception handlers of the advice. Only DownloadFailed, DownloadNotFound,
   * ProjectNotFound and VersionNotFound have one; any other error is `None`,
   * left to the framework's default handling.
   */
  function Advise(e: ApiError): (r: Option<ErrorResponse>)
    ensures r.Some? <==> e.DownloadFailed? || e in {DownloadNotFound, ProjectNotFound, VersionNotFound}
    ensures r.Some? ==> (r.value.status == InternalServerError <==> e.DownloadFailed?)
    ensures r.Some? ==> r.value.status in {NotFound, InternalServerError}
    ensures e.DownloadFailed? ==> r == Some(Error(InternalServerError, DownloadFailedMessage))
    ensures e == DownloadNotFound ==> r == Some(Error(NotFound, DownloadNotFoundMessage))
    ensures e == ProjectNotFound ==> r == Some(Error(NotFound, ProjectNotFoundMessage))
    ensures e == VersionNotFound ==> r == Some(Error(NotFound, VersionNotFoundMessage))
  {
    match e
    case DownloadFailed(_) => Some(Error(InternalServerError, DownloadFailedMessage))
    case DownloadNotFound => Some(Error(NotFound, DownloadNotFoundMessage))
    case ProjectNotFound => Some(Error(NotFound, ProjectNotFoundMessage))
    case VersionNotFound => Some(Error(NotFound, VersionNotFoundMessage))
    case _ => None
  }

  /** The four handled kinds get four different messages. */
  lemma AdviceMessagesDistinct(e1: ApiError, e2: ApiError)
    requires Advise(e1).Some? && Advise(e2).Some?
    requires Advise(e1) == Advise(e2)
    ensures e1 == e2 || (e1.DownloadFailed? && e2.DownloadFailed?)
  {
  }

  /** What a download failure wrapped never reaches the body. */
  lemma AdviceHidesCause(c1: ApiError, c2: ApiError)
    ensures Advise(DownloadFailed(c1)) == Advise(DownloadFailed(c2))
  {
  }
}
