/**
 * The decision `_handle_download_errors` makes about an exception: which of
 * its branches handles it and which hint the HTTP branch adds. The panels it
 * prints are not modelled.
 */
module Errors {
  import opened Wrappers
  import opened Http

  /**
   * An exception, described by the classes the handler tests it against:
   * the status when it is an `HTTPError`, and whether it is a `Timeout`, a
   * `ConnectionError`, a `RequestException` or an `OSError`.
   */
  datatype Raised = Raised(httpStatus: Option<int>, timeout: bool, connection: bool, request: bool, os: bool) {

    /**
     * The class hierarchy of `requests`: HTTP, timeout and connection errors
     * are request exceptions, and `RequestException` derives from `IOError`.
     */
    predicate WellFormed() {
      && ((httpStatus.Some? || timeout || connection) ==> request)
      && (request ==> os)
    }
  }

  /** The handler's branches, in the order it tries them. */
  datatype Category =
    | HttpFailure(status: int)
    | TimeoutFailure
    | ConnectionFailure
    | RequestFailure
    | FileFailure
    | UnexpectedFailure

  /** The remediation text the HTTP branch appends. */
  datatype Hint = NotFoundHint | AuthHint | NoHint

  datatype Report = Report(category: Category, hint: Hint)

  /** Position of a branch in the handler's if/elif chain. */
  function Rank(c: Category): nat {
    match c
    case HttpFailure(_) => 0
    case TimeoutFailure => 1
    case ConnectionFailure => 2
    case RequestFailure => 3
    case FileFailure => 4
    case UnexpectedFailure => 5
  }

  /** The `isinstance` test guarding each branch; the last branch takes anything. */
  predicate Guards(c: Category, e: Raised) {
    match c
    case HttpFailure(s) => e.httpStatus == Some(s)
    case TimeoutFailure => e.timeout
    case ConnectionFailure => e.connection
    case RequestFailure => e.request
    case FileFailure => e.os
    case UnexpectedFailure => true
  }

  /** 404 asks the user to check the path; 401 and 403 point at the token's scope. */
  function HintFor(status: int): (h: Hint)
    ensures h == NotFoundHint <==> status == 404
    ensures h == AuthHint <==> status == 401 || status == 403
  {
    if status == 404 then NotFoundHint
    else if status == 401 || status == 403 then AuthHint
    else NoHint
  }

  /**
   * `_handle_download_errors`: the first branch whose guard the exception
   * passes handles it, and only the HTTP branch adds a hint.
   */
  function Classify(e: Raised): (r: Report)
    ensures Guards(r.category, e)
    ensures forall c :: Rank(c) < Rank(r.category) ==> !Guards(c, e)
    ensures r.hint == if r.category.HttpFailure? then HintFor(r.category.status) else NoHint
  {
    if e.httpStatus.Some? then Report(HttpFailure(e.httpStatus.value), HintFor(e.httpStatus.value))
    else if e.timeout then Report(TimeoutFailure, NoHint)
    else if e.connection then Report(ConnectionFailure, NoHint)
    else if e.request then Report(RequestFailure, NoHint)
    else if e.os then Report(FileFailure, NoHint)
    else Report(UnexpectedFailure, NoHint)
  }

  /** The exception each way a GET can fail raises. */
  function RaisedBy(f: Failure): (e: Raised)
    ensures e.WellFormed() && e.request
  {
    match f
    case ConnectionLost => Raised(None, false, true, true, true)
    case TimedOut => Raised(None, true, false, true, true)
    case RequestError => Raised(None, false, false, true, true)
    case Truncated(_) => Raised(None, false, false, true, true) // ChunkedEncodingError
    case HttpStatus(code) => Raised(Some(code), false, false, true, true)
  }

  /** A plain `OSError` from the local filesystem. */
  const DiskError := Raised(None, false, false, false, true)

  /** Every failure of a GET is reported by a request branch, never as a file error. */
  lemma RequestFailuresNeverReachFileBranch(f: Failure)
    ensures Rank(Classify(RaisedBy(f)).category) <= Rank(RequestFailure)
    ensures f.HttpStatus? ==> Classify(RaisedBy(f)) == Report(HttpFailure(f.code), HintFor(f.code))
    ensures f.TimedOut? ==> Classify(RaisedBy(f)).category == TimeoutFailure
    ensures f.ConnectionLost? ==> Classify(RaisedBy(f)).category == ConnectionFailure
    ensures f.Truncated? || f.RequestError? ==> Classify(RaisedBy(f)).category == RequestFailure
  {
  }

  /**
   * `ConnectTimeout` is both a `ConnectionError` and a `Timeout`; the order of
   * the chain sends it to the timeout branch.
   */
  lemma ConnectTimeoutIsReportedAsTimeout()
    ensures Classify(Raised(None, true, true, true, true)).category == TimeoutFailure
  {
  }

  /** A local `OSError` reaches the file branch, and only it does. */
  lemma DiskErrorIsReportedAsFileFailure(e: Raised)
    requires e.WellFormed()
    ensures Classify(e).category == FileFailure <==> e.os && !e.request
  {
  }
}
