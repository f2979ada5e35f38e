/**
 * The retry wrapper itself: the loop that calls the caller's download, sorts
 * what it raises, and either returns, goes through a callback and tries again,
 * or ends the run with a terminal error.  Raising an exception is modelled as
 * returning a Raised outcome; each method is proved to compute the matching
 * function of RetrySpec.
 */
module RetryWrap {
  import opened Taxonomy
  import opened Environment
  import opened RetrySpec

  /** The stop flag, then the thread's interrupt status. */
  method CheckPoint<T>(env: Env<T>) returns (s: Signal)
    modifies env
    ensures (s, env.State()) == Poll(old(env.State()))
  {
    var stop := env.StopGet();
    if stop.None? {
      return Dry;
    }
    if stop.value {
      return Cancel(StopFlag);
    }
    var interrupted := env.IsInterrupted();
    if interrupted.None? {
      return Dry;
    }
    if interrupted.value {
      return Cancel(ThreadFlag);
    }
    return Clear;
  }

  /** The redirect handler: a check point, then the caller's moved(url). */
  method HandleMoved<T>(u: Url, env: Env<T>) returns (p: Pass<T>)
    modifies env
    ensures (p, env.State()) == Relocate(u, old(env.State()))
  {
    var s := CheckPoint(env);
    if s != Clear {
      return Halt(Halted(s));
    }
    env.Moved(u);
    return Again;
  }

  /**
   * The retry handler: error(e) once, then for i from the delay down to 0 ask
   * retry(i, e), check both signals and sleep one tick.
   */
  method RetryBackoff<T>(delay: int, e: Fault, env: Env<T>) returns (p: Pass<T>)
    modifies env
    ensures (p, env.State()) == Retrying(delay, e, old(env.State()))
  {
    env.Error(e);
    var i := delay;
    while i >= 0
      invariant i >= -1 || i == delay
      invariant Countdown(i, e, env.State()) == Retrying(delay, e, old(env.State()))
      decreases i + 1
    {
      var granted := env.Retry(i, e);
      if granted.None? {
        return Halt(OutOfScript);
      }
      if !granted.value {
        return Halt(Raised(RetryDeclined(e)));
      }
      var s := CheckPoint(env);
      if s != Clear {
        return Halt(Halted(s));
      }
      var slept := env.Sleep();
      if slept.None? {
        return Halt(OutOfScript);
      }
      if slept.value {
        return Halt(Raised(DownloadInterrupted(DuringSleep)));
      }
      i := i - 1;
    }
    return Again;
  }

  /**
   * The run: an endless loop, left only by returning a value or raising.  The
   * two catch levels of the source become the branches after the download; the
   * script running out is the only other way out.
   */
  method Run<T>(delay: int, env: Env<T>) returns (o: Outcome<T>)
    modifies env
    ensures (o, env.State()) == RunSpec(delay, old(env.State()))
  {
    while true
      invariant RunSpec(delay, env.State()) == RunSpec(delay, old(env.State()))
      decreases |env.downloads|
    {
      ghost var start := env.State();
      var s := CheckPoint(env);
      if s != Clear {
        return Halted(s);
      }
      var first := env.Download();
      if first.None? {
        return OutOfScript;
      }
      var attempt := first.value;
      if attempt.Raise? && attempt.fault.ProxyAuth? {
        // retry once with the proxy set; a second challenge is not retried
        env.Proxy();
        var second := env.Download();
        if second.None? {
          return OutOfScript;
        }
        attempt := second.value;
      }
      ghost var settling := env.State();
      assert Iteration(delay, start) == Settle(delay, attempt, settling);
      if attempt.Ok? {
        // a download interrupted by the thread may still have returned normally
        s := CheckPoint(env);
        return if s == Clear then Returned(attempt.value) else Halted(s);
      }
      var f := attempt.fault;
      match Classify(f)
      case Abort(x) =>
        return Raised(x);
      case IOFailure =>
        var interrupted := env.IsInterrupted();
        if interrupted.None? {
          return OutOfScript;
        }
        return Raised(if interrupted.value then DownloadInterrupted(DuringIO(f)) else DownloadIOError(f));
      case Redirect(u) =>
        var p := HandleMoved(u, env);
        if p.Halt? {
          return p.outcome;
        }
      case Backoff =>
        var p := RetryBackoff(delay, f, env);
        if p.Halt? {
          return p.outcome;
        }
    }
  }

  /**
   * The adapter for a download that produces no value: every callback is passed
   * through, and a normal return carries nothing.
   */
  method Wrap<T>(delay: int, env: Env<T>) returns (o: Outcome<()>)
    modifies env
    ensures env.State() == RunSpec(delay, old(env.State())).1
    ensures o == match RunSpec(delay, old(env.State())).0
                 case Returned(_) => Returned(())
                 case Raised(x) => Raised(x)
                 case OutOfScript => OutOfScript
  {
    var r := Run(delay, env);
    o := match r
         case Returned(_) => Returned(())
         case Raised(x) => Raised(x)
         case OutOfScript => OutOfScript;
  }
}
