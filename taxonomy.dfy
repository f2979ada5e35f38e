/**
 * The exception taxonomy of the retry wrapper: what one call of the caller's
 * download() can raise, the terminal errors the wrapper raises in turn, and the
 * fixed table that routes the former to the latter.
 */
module Taxonomy {

  datatype Option<+T> = None | Some(value: T)

  /** A redirect target, kept opaque: the wrapper never parses or follows it. */
  type Url = string

  /**
   * What one call of download() can raise, as a flat enumeration.  The source
   * tells them apart by a chain of catch clauses; their Java subclass relations
   * play no part in the model.
   */
  datatype Fault =
    | ProxyAuth                  // the proxy demands credentials (status 407)
    | Moved(location: Url)       // DownloadMoved: a redirect the caller must confirm
    | RetryRequest               // a DownloadRetry raised by download() itself
    | Socket                     // SocketException
    | Protocol                   // ProtocolException
    | HttpRetry                  // HttpRetryException
    | InterruptedIO              // InterruptedIOException
    | UnknownHost                // UnknownHostException
    | FileNotFound               // FileNotFoundException
    | OtherRuntime(name: string) // any other unchecked exception
    | OtherIO(name: string)      // any other IOException

  /** The result of one call of download(): a value or a raised fault. */
  datatype Attempt<T> = Ok(value: T) | Raise(fault: Fault)

  /** Why a run ended with DownloadInterruptedError. */
  datatype Interruption =
    | StopFlag                   // the caller's stop flag was seen set
    | ThreadFlag                 // the thread's interrupt status was seen set
    | DuringSleep                // the one-second back-off sleep was interrupted
    | DuringIO(cause: Fault)     // an IOException arrived while the thread was interrupted

  /** The terminal errors a run raises. */
  datatype Failure =
    | DownloadInterrupted(reason: Interruption)
    | DownloadError(cause: Fault)      // a fatal fault, wrapped
    | RetryDeclined(cause: Fault)      // a DownloadError wrapping the DownloadRetry the caller declined
    | DownloadIOError(cause: Fault)    // an unclassified IOException, wrapped
    | Propagated(cause: Fault)         // an unchecked exception rethrown unchanged

  /**
   * How a run ends.  OutOfScript is the model's own: the scripted environment
   * had no answer left for the next question the run asked it.
   */
  datatype Outcome<T> = Returned(value: T) | Raised(failure: Failure) | OutOfScript

  /** Where the handlers after a download send a fault. */
  datatype Route =
    | Backoff                    // DownloadRetry: report, count down, try again
    | Redirect(location: Url)    // DownloadMoved: ask the caller, try again
    | Abort(failure: Failure)    // end the run with this error
    | IOFailure                  // ask the thread whether it was interrupted, then end the run

  /** The faults the source enumerates as worth another attempt. */
  predicate Transient(f: Fault) {
    f.Socket? || f.Protocol? || f.HttpRetry? || f.InterruptedIO? || f.UnknownHost? || f.RetryRequest?
  }

  /**
   * The catch chain that follows a download which did not end in a first proxy
   * challenge: a proxy challenge here (it can only be the second one) and a missing
   * resource are fatal, the five transport faults are retried, any other unchecked
   * exception passes through (a DownloadMoved or DownloadRetry among them reaches
   * the outer handlers), and any other IOException depends on the thread.
   */
  function Classify(f: Fault): (r: Route)
    ensures r.Backoff? <==> Transient(f)
    ensures r.Redirect? <==> f.Moved?
    ensures r.Redirect? ==> r.location == f.location
    ensures r.IOFailure? <==> f.OtherIO?
    ensures r.Abort? <==> f.ProxyAuth? || f.FileNotFound? || f.OtherRuntime?
    ensures r.Abort? ==> r.failure == (if f.OtherRuntime? then Propagated(f) else DownloadError(f))
  {
    match f
    case ProxyAuth => Abort(DownloadError(f))
    case Socket => Backoff
    case Protocol => Backoff
    case HttpRetry => Backoff
    case InterruptedIO => Backoff
    case UnknownHost => Backoff
    case FileNotFound => Abort(DownloadError(f))
    case OtherRuntime(_) => Abort(Propagated(f))
    case Moved(u) => Redirect(u)
    case RetryRequest => Backoff
    case OtherIO(_) => IOFailure
  }
}
