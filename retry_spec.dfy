/**
 * The wrapper's decision procedure as pure functions over the scripted
 * environment: each function takes the world before a step and returns what the
 * step decided together with the world after it.  The methods in RetryWrap are
 * proved to compute exactly these functions.
 */
module RetrySpec {
  import opened Taxonomy
  import opened Environment

  /** What a check of the two cancellation signals found. */
  datatype Signal = Clear | Cancel(reason: Interruption) | Dry

  /** How one step left the run: go round the loop again, or end with an outcome. */
  datatype Pass<T> = Again | Halt(outcome: Outcome<T>)

  /** The outcome of a check point that did not find both signals clear. */
  function Halted<T>(s: Signal): (o: Outcome<T>)
    requires s != Clear
    ensures s.Dry? <==> o.OutOfScript?
    ensures s.Cancel? ==> o == Raised(DownloadInterrupted(s.reason))
  {
    match s
    case Cancel(r) => Raised(DownloadInterrupted(r))
    case Dry => OutOfScript
  }

  /**
   * The check point the source repeats before every download, after every
   * successful one, before the redirect callback and after every retry answer:
   * the stop flag first, and the thread's flag only when the stop flag is clear.
   */
  function Poll<T>(w: World<T>): (r: (Signal, World<T>))
    ensures r.0 == Cancel(StopFlag) <==> w.stops != [] && w.stops[0]
    ensures r.0 == Cancel(ThreadFlag) <==> w.stops != [] && !w.stops[0] && w.interrupts != [] && w.interrupts[0]
    ensures r.0 == Clear <==> w.stops != [] && !w.stops[0] && w.interrupts != [] && !w.interrupts[0]
    ensures r.0.Cancel? ==> r.0.reason == StopFlag || r.0.reason == ThreadFlag
    ensures r.1.downloads == w.downloads && r.1.answers == w.answers && r.1.sleeps == w.sleeps
    ensures r.0 == Clear ==> r.1.log == w.log + [StopRead(false), InterruptRead(false)]
    ensures r.0 == Cancel(StopFlag) ==> r.1.log == w.log + [StopRead(true)]
    ensures r.0 == Cancel(ThreadFlag) ==> r.1.log == w.log + [StopRead(false), InterruptRead(true)]
    ensures r.0 == Dry ==> r.1.log == w.log || r.1.log == w.log + [StopRead(false)]
    ensures r.0 == Dry ==> Exhausted(r.1)
  {
    var (stop, w1) := TakeStop(w);
    if stop.None? then (Dry, w1)
    else if stop.value then (Cancel(StopFlag), w1)
    else
      var (interrupted, w2) := TakeInterrupt(w1);
      if interrupted.None? then (Dry, w2)
      else if interrupted.value then (Cancel(ThreadFlag), w2)
      else (Clear, w2)
  }

  /**
   * The back-off countdown from step i down to 0: ask the caller whether to go
   * on, check both signals, sleep one tick, and continue with i - 1.  A refusal
   * ends the run with the declined cause; a signal or an interrupted sleep ends
   * it as interrupted; a countdown that reaches below 0 hands control back.
   */
  function Countdown<T>(i: int, e: Fault, w: World<T>): (r: (Pass<T>, World<T>))
    ensures w.log <= r.1.log
    ensures r.1.downloads == w.downloads
    ensures r.0.Halt? ==> || r.0.outcome == OutOfScript
                          || r.0.outcome == Raised(RetryDeclined(e))
                          || r.0.outcome == Raised(DownloadInterrupted(StopFlag))
                          || r.0.outcome == Raised(DownloadInterrupted(ThreadFlag))
                          || r.0.outcome == Raised(DownloadInterrupted(DuringSleep))
    ensures r.0.Halt? && r.0.outcome.OutOfScript? ==> Exhausted(r.1)
    ensures i < 0 ==> r == (Again, w)
    decreases i + 1
  {
    if i < 0 then (Again, w)
    else
      var (granted, w1) := TakeAnswer(i, e, w);
      if granted.None? then (Halt(OutOfScript), w1)
      else if !granted.value then (Halt(Raised(RetryDeclined(e))), w1)
      else
        var (s, w2) := Poll(w1);
        if s != Clear then (Halt(Halted(s)), w2)
        else
          var (slept, w3) := TakeSleep(w2);
          if slept.None? then (Halt(OutOfScript), w3)
          else if slept.value then (Halt(Raised(DownloadInterrupted(DuringSleep))), w3)
          else Countdown(i - 1, e, w3)
  }

  /** The retry path: report the cause once, then count down from the configured delay. */
  function Retrying<T>(delay: int, e: Fault, w: World<T>): (r: (Pass<T>, World<T>))
    ensures w.log + [ErrorCalled(e)] <= r.1.log
    ensures r.1.downloads == w.downloads
  {
    Countdown(delay, e, Notify(w, ErrorCalled(e)))
  }

  /**
   * The redirect path: check both signals, then tell the caller where the
   * resource moved, and go round the loop again.  The new location is never
   * fetched here.
   */
  function Relocate<T>(u: Url, w: World<T>): (r: (Pass<T>, World<T>))
    ensures r.0.Again? <==> Poll(w).0 == Clear
    ensures r.0.Again? ==> r.1.log == w.log + [StopRead(false), InterruptRead(false), MovedCalled(u)]
    ensures r.0.Halt? ==> r.0.outcome == Halted(Poll(w).0) && r.1 == Poll(w).1
    ensures r.1.downloads == w.downloads
  {
    var (s, w1) := Poll(w);
    if s != Clear then (Halt(Halted(s)), w1)
    else (Again, Notify(w1, MovedCalled(u)))
  }

  /**
   * The handlers for a fault raised by a download that did not end in a first
   * proxy challenge, in the order the source tries them.
   */
  function Dispatch<T>(delay: int, f: Fault, w: World<T>): (r: (Pass<T>, World<T>))
    ensures w.log <= r.1.log
    ensures r.1.downloads == w.downloads
    ensures r.0.Again? ==> Transient(f) || f.Moved?
    ensures f.ProxyAuth? || f.FileNotFound? ==> r == (Halt(Raised(DownloadError(f))), w)
    ensures f.OtherRuntime? ==> r == (Halt(Raised(Propagated(f))), w)
  {
    match Classify(f)
    case Backoff => Retrying(delay, f, w)
    case Redirect(u) => Relocate(u, w)
    case Abort(x) => (Halt(Raised(x)), w)
    case IOFailure =>
      var (interrupted, w1) := TakeInterrupt(w);
      if interrupted.None? then (Halt(OutOfScript), w1)
      else if interrupted.value then (Halt(Raised(DownloadInterrupted(DuringIO(f)))), w1)
      else (Halt(Raised(DownloadIOError(f))), w1)
  }

  /** What follows a download that produced a value or raised a fault handled by Dispatch. */
  function Settle<T>(delay: int, a: Attempt<T>, w: World<T>): (r: (Pass<T>, World<T>))
    ensures w.log <= r.1.log
    ensures r.1.downloads == w.downloads
    ensures a.Ok? ==> r.0 == Halt(if Poll(w).0 == Clear then Returned(a.value) else Halted(Poll(w).0))
  {
    match a
    case Ok(v) =>
      var (s, w1) := Poll(w);
      (Halt(if s == Clear then Returned(v) else Halted(s)), w1)
    case Raise(f) => Dispatch(delay, f, w)
  }

  /**
   * The proxy path, after a first proxy challenge: call proxy() once and
   * download exactly once more.  What that download produces is settled like
   * any other attempt, so a second challenge is fatal rather than retried.
   */
  function ProxyRetry<T>(delay: int, w: World<T>): (r: (Pass<T>, World<T>))
    ensures w.log + [ProxyCalled] <= r.1.log
    ensures w.downloads != [] ==> r.1.downloads == w.downloads[1..]
    ensures w.downloads == [] ==> r == (Halt(OutOfScript), Notify(w, ProxyCalled))
  {
    var (b, w1) := TakeDownload(Notify(w, ProxyCalled));
    if b.None? then (Halt(OutOfScript), w1)
    else Settle(delay, b.value, w1)
  }

  /**
   * One pass of the source's endless loop: a check point; a download; on a
   * first proxy challenge, the proxy callback and exactly one more download;
   * then the handling of what the last download produced.
   */
  function Iteration<T>(delay: int, w: World<T>): (r: (Pass<T>, World<T>))
    ensures w.log <= r.1.log
    ensures |r.1.downloads| <= |w.downloads|
    ensures r.0.Again? ==> |r.1.downloads| < |w.downloads|
    ensures Poll(w).0 != Clear ==> r == (Halt(Halted(Poll(w).0)), Poll(w).1)
  {
    var (s, w1) := Poll(w);
    if s != Clear then (Halt(Halted(s)), w1)
    else
      var (a, w2) := TakeDownload(w1);
      if a.None? then (Halt(OutOfScript), w2)
      else if a.value.Raise? && a.value.fault.ProxyAuth? then ProxyRetry(delay, w2)
      else Settle(delay, a.value, w2)
  }

  /** The whole run: passes of the loop until one of them ends it. */
  function RunSpec<T>(delay: int, w: World<T>): (r: (Outcome<T>, World<T>))
    ensures w.log <= r.1.log
    ensures |r.1.downloads| <= |w.downloads|
    decreases |w.downloads|
  {
    var (p, w1) := Iteration(delay, w);
    if p.Again? then RunSpec(delay, w1) else (p.outcome, w1)
  }
}
