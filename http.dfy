/**
 * What the HTTP layer hands back for one `session.get`, and the requests the
 * downloader sends. The network itself is not modelled: each reply is an input.
 */
module Http {
  import opened FileSystem

  /**
   * The ways one GET can fail. All but `Truncated` are raised before any of
   * the body is read, so the file the body would go to is never opened.
   */
  datatype Failure =
    | ConnectionLost                 // requests.exceptions.ConnectionError
    | TimedOut                       // requests.exceptions.Timeout
    | RequestError                   // any other RequestException from `session.get`, e.g. ChunkedEncodingError
    | Truncated(partial: seq<Bytes>) // ChunkedEncodingError after these chunks of the body
    | HttpStatus(code: int)          // raise_for_status raised HTTPError with this status

  /** One GET: the whole body, in the chunks `iter_content` yields, or a failure. */
  datatype Reply = Delivered(chunks: seq<Bytes>) | Failed(failure: Failure)

  /**
   * The replies of successive GETs, as a mock session's `side_effect` list
   * gives them; every GET past the list gets `otherwise` (a `return_value`,
   * or a `side_effect` that is a single exception).
   */
  datatype Script = Script(scripted: seq<Reply>, otherwise: Reply) {
    function At(i: nat): Reply {
      if i < |scripted| then scripted[i] else otherwise
    }
  }

  /** One `session.get(url, headers=...)`. */
  datatype Request = Get(url: string, headers: map<string, string>)
}
