/**
 * The response-code check a download runs on each HTTP response before it reads
 * the body.  It takes the status code directly; the connection it comes from is
 * not part of the model.
 */
module StatusCheck {

  const HttpOk := 200
  const HttpPartial := 206
  const HttpMovedPerm := 301
  const HttpMovedTemp := 302
  const HttpForbidden := 403
  const HttpProxyAuth := 407
  /** Requested Range Not Satisfiable. */
  const HttpRangeNotSatisfiable := 416

  /** What the check does with a code: return, or raise one of three exceptions. */
  datatype Verdict =
    | Proceed                    // returns normally
    | RaiseMoved                 // DownloadMoved: never followed without the caller
    | RaiseProxyAuth             // ProxyAuth
    | RaiseCodeError(code: int)  // DownloadIOCodeError carrying the code

  /** The codes on which the check raises. */
  predicate Raising(code: int) {
    code == HttpMovedPerm || code == HttpMovedTemp || code == HttpForbidden
    || code == HttpProxyAuth || code == HttpRangeNotSatisfiable
  }

  /**
   * A switch without a default: 200 and 206 return, the two redirects, the proxy
   * challenge, 403 and 416 raise, and every other code returns as well.
   */
  function Check(code: int): (r: Verdict)
    ensures r.Proceed? <==> !Raising(code)
    ensures r.RaiseMoved? <==> code == HttpMovedPerm || code == HttpMovedTemp
    ensures r.RaiseProxyAuth? <==> code == HttpProxyAuth
    ensures r.RaiseCodeError? <==> code == HttpForbidden || code == HttpRangeNotSatisfiable
    ensures r.RaiseCodeError? ==> r.code == code
  {
    if code == HttpOk || code == HttpPartial then Proceed
    else if code == HttpMovedTemp || code == HttpMovedPerm then RaiseMoved
    else if code == HttpProxyAuth then RaiseProxyAuth
    else if code == HttpForbidden then RaiseCodeError(code)
    else if code == HttpRangeNotSatisfiable then RaiseCodeError(416)
    else Proceed
  }

  /** Full and partial content both let the download go on. */
  lemma SuccessCodesProceed()
    ensures Check(HttpOk) == Proceed && Check(HttpPartial) == Proceed
  {
  }

  /**
   * The check only ever raises on redirection (3xx) and client-error (4xx) codes:
   * every informational, success and server-error code passes.
   */
  lemma RaisesOnlyOnRedirectOrClientError(code: int)
    requires !Check(code).Proceed?
    ensures 300 <= code < 500
    ensures Check(code).RaiseMoved? ==> code < 400
    ensures !Check(code).RaiseMoved? ==> 400 <= code
  {
  }
}
