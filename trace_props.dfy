/**
 * What the log of a run shows.  Disciplined says that every logged event is
 * admitted by the few events right before it, which is how the source orders
 * its calls; Conclusion reads the outcome of a run off the end of its log.  The
 * lemmas prove that every run keeps the discipline and ends with the outcome
 * its log concludes, and that nothing is logged after a concluding event.
 */
module TraceProperties {
  import opened Taxonomy
  import opened Environment
  import opened RetrySpec

  /** A download that returned a value. */
  predicate IsSuccess<T>(ev: Event<T>) {
    ev.Downloaded? && ev.attempt.Ok?
  }

  /** A download that raised a fault. */
  predicate IsFault<T>(ev: Event<T>) {
    ev.Downloaded? && ev.attempt.Raise?
  }

  /**
   * Position j of the log begins a pass of the loop: the run began there, or
   * the event before it ends a pass that goes round again (the redirect
   * callback, the uninterrupted sleep after retry(0, e), or error(e) when the
   * delay leaves nothing to count down).
   */
  ghost predicate PassBoundary<T>(before: seq<Event<T>>, from: nat, delay: int, j: nat)
    requires j <= |before|
  {
    || j == from
    || (from < j && (|| before[j - 1].MovedCalled?
                     || (from + 4 <= j && before[j - 4].RetryCalled? && before[j - 4].step == 0
                         && before[j - 1] == Slept(false))
                     || (before[j - 1].ErrorCalled? && delay < 0)))
  }

  /**
   * Whether `ev` may be logged right after `before`, looking back no further
   * than position `from`, where the run under study began.
   */
  ghost predicate Admits<T>(before: seq<Event<T>>, from: nat, delay: int, ev: Event<T>) {
    var n := |before|;
    match ev
    // a check point: at the start of a pass, after a returned value, after a
    // granted retry, or after a redirect
    case StopRead(_) =>
      || PassBoundary(before, from, delay, n)
      || (from < n && (|| IsSuccess(before[n - 1])
                       || (before[n - 1].RetryCalled? && before[n - 1].answer)
                       || (IsFault(before[n - 1]) && before[n - 1].attempt.fault.Moved?)))
    // the thread's flag: after a clear stop flag, or after an unclassified IOException
    case InterruptRead(_) =>
      from < n
      && (|| before[n - 1] == StopRead(false)
          || (IsFault(before[n - 1]) && before[n - 1].attempt.fault.OtherIO?))
    // a download: after the clear check that starts a pass, or after the proxy callback
    case Downloaded(_) =>
      || (from + 2 <= n && PassBoundary(before, from, delay, n - 2)
          && before[n - 2] == StopRead(false) && before[n - 1] == InterruptRead(false))
      || (from < n && before[n - 1] == ProxyCalled)
    // proxy(): only after the first download of a pass raised ProxyAuth
    case ProxyCalled =>
      from + 2 <= n && before[n - 2] == InterruptRead(false) && before[n - 1] == Downloaded(Raise(ProxyAuth))
    // moved(u): only after a download raised Moved(u), and a clear check
    case MovedCalled(u) =>
      from + 3 <= n && before[n - 3] == Downloaded(Raise(Moved(u)))
      && before[n - 2] == StopRead(false) && before[n - 1] == InterruptRead(false)
    // error(e): only right after a download raised the transient fault e
    case ErrorCalled(e) =>
      from < n && Transient(e) && before[n - 1] == Downloaded(Raise(e))
    // retry(i, e): first with the configured delay right after error(e), then
    // one less after a granted answer, a clear check and an uninterrupted sleep
    case RetryCalled(i, e, _) =>
      0 <= i
      && (|| (from < n && i == delay && before[n - 1] == ErrorCalled(e))
          || (from + 4 <= n && before[n - 4] == RetryCalled(i + 1, e, true)
              && before[n - 3] == StopRead(false) && before[n - 2] == InterruptRead(false)
              && before[n - 1] == Slept(false)))
    // a sleep: only after a granted answer and a clear check
    case Slept(_) =>
      from + 3 <= n && before[n - 3].RetryCalled? && before[n - 3].answer
      && before[n - 2] == StopRead(false) && before[n - 1] == InterruptRead(false)
  }

  /** The event at position k is admitted by the events before it. */
  ghost predicate AdmittedAt<T>(log: seq<Event<T>>, from: nat, delay: int, k: nat) {
    k < |log| && Admits(log[..k], from, delay, log[k])
  }

  /** Every event logged from position `from` on is admitted by the events before it. */
  ghost predicate Disciplined<T>(log: seq<Event<T>>, from: nat, delay: int) {
    from <= |log| && forall k | from <= k < |log| :: AdmittedAt(log, from, delay, k)
  }

  /**
   * The outcome the end of a log concludes, counting only events from position
   * `from` on; OutOfScript when the last event ends nothing.
   */
  function Conclusion<T>(log: seq<Event<T>>, from: nat): Outcome<T> {
    var n := |log|;
    if n <= from then OutOfScript
    else
      match log[n - 1]
      case StopRead(isSet) =>
        if isSet then Raised(DownloadInterrupted(StopFlag)) else OutOfScript
      case InterruptRead(isSet) =>
        if from + 2 <= n && IsFault(log[n - 2]) && log[n - 2].attempt.fault.OtherIO? then
          var f := log[n - 2].attempt.fault;
          Raised(if isSet then DownloadInterrupted(DuringIO(f)) else DownloadIOError(f))
        else if isSet then Raised(DownloadInterrupted(ThreadFlag))
        else if from + 3 <= n && IsSuccess(log[n - 3]) && log[n - 2] == StopRead(false) then
          Returned(log[n - 3].attempt.value)
        else OutOfScript
      case Slept(interrupted) =>
        if interrupted then Raised(DownloadInterrupted(DuringSleep)) else OutOfScript
      case RetryCalled(_, e, granted) =>
        if granted then OutOfScript else Raised(RetryDeclined(e))
      case Downloaded(a) =>
        if a.Ok? then OutOfScript
        else if a.fault.FileNotFound? then Raised(DownloadError(a.fault))
        else if a.fault.OtherRuntime? then Raised(Propagated(a.fault))
        else if a.fault.ProxyAuth? && from + 2 <= n && log[n - 2].ProxyCalled? then Raised(DownloadError(a.fault))
        else OutOfScript
      case ProxyCalled => OutOfScript
      case ErrorCalled(_) => OutOfScript
      case MovedCalled(_) => OutOfScript
  }

  /**
   * The script the next call reads, once the events from position `from` on
   * are in the log: a check point reads the stop flag at the start of a pass,
   * after a value, after a granted retry and after a redirect; the thread's
   * flag after a clear stop flag or an unclassified IOException; a download
   * after the clear check of a pass or after proxy(); a retry answer after
   * error(e) or after a sleep that leaves steps to count; a sleep after the
   * clear check that follows a granted retry.
   */
  ghost function NextScript<T>(log: seq<Event<T>>, from: nat, delay: int): Script {
    var n := |log|;
    if n <= from || PassBoundary(log, from, delay, n) then Stops
    else
      match log[n - 1]
      case StopRead(_) => Interrupts
      case InterruptRead(_) => if from + 3 <= n && log[n - 3].RetryCalled? then Sleeps else Downloads
      case ProxyCalled => Downloads
      case ErrorCalled(_) => Answers
      case Slept(_) => Answers
      case Downloaded(a) => if a.Raise? && a.fault.OtherIO? then Interrupts else Stops
      case RetryCalled(_, _, _) => Stops
      case MovedCalled(_) => Stops
  }

  /**
   * How a step of the run left the log: disciplined, and either at the start
   * of a new pass or concluding the outcome the step ended with; a step that
   * ran out of script ran out of the very script its next call reads.
   */
  ghost predicate StepDone<T>(r: (Pass<T>, World<T>), from: nat, delay: int) {
    && Disciplined(r.1.log, from, delay)
    && match r.0
       case Again => PassBoundary(r.1.log, from, delay, |r.1.log|)
       case Halt(o) =>
         && o == Conclusion(r.1.log, from)
         && (o.OutOfScript? ==> RanOut(r.1, NextScript(r.1.log, from, delay)))
  }

  /** Extending a disciplined log by admitted events keeps it disciplined. */
  lemma Grow<T>(log: seq<Event<T>>, longer: seq<Event<T>>, from: nat, delay: int)
    requires Disciplined(log, from, delay)
    requires log <= longer
    requires forall k | |log| <= k < |longer| :: AdmittedAt(longer, from, delay, k)
    ensures Disciplined(longer, from, delay)
  {
    forall k | from <= k < |longer|
      ensures AdmittedAt(longer, from, delay, k)
    {
      if k < |log| {
        assert AdmittedAt(log, from, delay, k);
        assert longer[..k] == log[..k];
      }
    }
  }

  /** Appending one admitted event. */
  lemma Snoc<T>(log: seq<Event<T>>, ev: Event<T>, from: nat, delay: int)
    requires Disciplined(log, from, delay)
    requires Admits(log, from, delay, ev)
    ensures Disciplined(log + [ev], from, delay)
  {
    assert (log + [ev])[..|log|] == log;
    assert AdmittedAt(log + [ev], from, delay, |log|);
    Grow(log, log + [ev], from, delay);
  }

  /** A check point wherever one may stand keeps the discipline, and a failed one concludes its outcome. */
  lemma PollDone<T>(w: World<T>, from: nat, delay: int)
    requires Disciplined(w.log, from, delay)
    requires Admits(w.log, from, delay, StopRead(false))
    requires Conclusion(w.log, from).OutOfScript?
    ensures Disciplined(Poll(w).1.log, from, delay)
    ensures Poll(w).0 != Clear ==> Halted(Poll(w).0) == Conclusion(Poll(w).1.log, from)
    ensures Poll(w).0 == Dry ==> RanOut(Poll(w).1, NextScript(Poll(w).1.log, from, delay))
  {
    var (s, w') := Poll(w);
    if w.stops != [] {
      var w1 := TakeStop(w).1;
      Snoc(w.log, StopRead(w.stops[0]), from, delay);
      if !w.stops[0] && w.interrupts != [] {
        Snoc(w1.log, InterruptRead(w.interrupts[0]), from, delay);
      }
    }
  }

  lemma {:induction false} CountdownDone<T>(delay: int, i: int, e: Fault, w: World<T>, from: nat)
    requires Disciplined(w.log, from, delay)
    requires i >= 0 ==> Admits(w.log, from, delay, RetryCalled(i, e, true))
    requires i < 0 ==> PassBoundary(w.log, from, delay, |w.log|)
    ensures StepDone(Countdown(i, e, w), from, delay)
    decreases i + 1, 1
  {
    if i >= 0 {
      var (granted, w1) := TakeAnswer(i, e, w);
      if granted.Some? {
        Snoc(w.log, RetryCalled(i, e, granted.value), from, delay);
        if granted.value {
          GrantedDone(delay, i, e, w, from);
        }
      }
    }
  }

  /** The rest of one countdown step, once the caller has granted it. */
  lemma {:induction false} GrantedDone<T>(delay: int, i: int, e: Fault, w: World<T>, from: nat)
    requires i >= 0 && w.answers != [] && w.answers[0] && from <= |w.log|
    requires Disciplined(w.log + [RetryCalled(i, e, true)], from, delay)
    ensures StepDone(Countdown(i, e, w), from, delay)
    decreases i + 1, 0
  {
    var w1 := TakeAnswer(i, e, w).1;
    var (s, w2) := Poll(w1);
    if s == Clear && TakeSleep(w2).0 == Some(false) {
      PollDone(w1, from, delay);
      SleepDone(delay, i, e, w1, from);
      GrantedStep(i, e, w);
      CountdownDone(delay, i - 1, e, TakeSleep(w2).1, from);
    } else {
      GrantedStopsDone(delay, i, e, w, from);
    }
  }

  /** A granted countdown step that ends the run: at its check point or at its sleep. */
  lemma GrantedStopsDone<T>(delay: int, i: int, e: Fault, w: World<T>, from: nat)
    requires i >= 0 && w.answers != [] && w.answers[0] && from <= |w.log|
    requires Disciplined(w.log + [RetryCalled(i, e, true)], from, delay)
    requires var w2 := Poll(TakeAnswer(i, e, w).1);
             !(w2.0 == Clear && TakeSleep(w2.1).0 == Some(false))
    ensures StepDone(Countdown(i, e, w), from, delay)
  {
    var w1 := TakeAnswer(i, e, w).1;
    var (s, w2) := Poll(w1);
    PollDone(w1, from, delay);
    GrantedStep(i, e, w);
    if s != Clear {
      assert StepDone((Halt(Halted(s)), w2), from, delay);
    } else if w2.sleeps == [] {
      assert w2.log == w1.log + [StopRead(false), InterruptRead(false)];
      assert NextScript(w2.log, from, delay) == Sleeps;
      assert StepDone((Halt(OutOfScript), w2), from, delay);
    } else {
      SleepDone(delay, i, e, w1, from);
    }
  }

  /** Where a granted countdown step leads, one case per check point and sleep. */
  lemma GrantedStep<T>(i: int, e: Fault, w: World<T>)
    requires i >= 0 && w.answers != [] && w.answers[0]
    ensures var w2 := Poll(TakeAnswer(i, e, w).1);
            && (w2.0 != Clear ==> Countdown(i, e, w) == (Halt(Halted(w2.0)), w2.1))
            && (w2.0 == Clear && w2.1.sleeps == [] ==> Countdown(i, e, w) == (Halt(OutOfScript), w2.1))
            && (w2.0 == Clear && TakeSleep(w2.1).0 == Some(true) ==>
                  Countdown(i, e, w) == (Halt(Raised(DownloadInterrupted(DuringSleep))), TakeSleep(w2.1).1))
            && (w2.0 == Clear && TakeSleep(w2.1).0 == Some(false) ==>
                  Countdown(i, e, w) == Countdown(i - 1, e, TakeSleep(w2.1).1))
  {
  }

  /** The sleep of a granted countdown step, and what it leaves for the next step. */
  lemma SleepDone<T>(delay: int, i: int, e: Fault, w1: World<T>, from: nat)
    requires Poll(w1).0 == Clear && Poll(w1).1.sleeps != []
    requires from < |w1.log| && w1.log[|w1.log| - 1] == RetryCalled(i, e, true)
    requires Disciplined(Poll(w1).1.log, from, delay)
    ensures Disciplined(TakeSleep(Poll(w1).1).1.log, from, delay)
    ensures var log := TakeSleep(Poll(w1).1).1.log;
            |log| == |w1.log| + 3 && log[|log| - 1] == Slept(Poll(w1).1.sleeps[0])
    ensures !TakeSleep(Poll(w1).1).0.value && i - 1 >= 0 ==>
              Admits(TakeSleep(Poll(w1).1).1.log, from, delay, RetryCalled(i - 1, e, true))
    ensures TakeSleep(Poll(w1).1).0.value ==>
              Conclusion(TakeSleep(Poll(w1).1).1.log, from) == Raised(DownloadInterrupted(DuringSleep))
  {
    var w2 := Poll(w1).1;
    assert w2.log == w1.log + [StopRead(false), InterruptRead(false)];
    Snoc(w2.log, Slept(w2.sleeps[0]), from, delay);
  }

  /** The retry path: error(e) right after the fault, then the countdown from the delay. */
  lemma RetryingDone<T>(delay: int, e: Fault, w: World<T>, from: nat)
    requires Disciplined(w.log, from, delay)
    requires Transient(e) && from < |w.log| && w.log[|w.log| - 1] == Downloaded(Raise(e))
    ensures StepDone(Retrying(delay, e, w), from, delay)
  {
    Snoc(w.log, ErrorCalled(e), from, delay);
    CountdownDone(delay, delay, e, Notify(w, ErrorCalled(e)), from);
  }

  /** The handlers after a download; `f` is what that download raised. */
  lemma DispatchDone<T>(delay: int, f: Fault, w: World<T>, from: nat)
    requires Disciplined(w.log, from, delay)
    requires from < |w.log| && w.log[|w.log| - 1] == Downloaded(Raise(f))
    requires f.ProxyAuth? ==> from + 2 <= |w.log| && w.log[|w.log| - 2] == ProxyCalled
    ensures StepDone(Dispatch(delay, f, w), from, delay)
  {
    match Classify(f)
    case Backoff =>
      RetryingDone(delay, f, w, from);
    case Redirect(u) =>
      PollDone(w, from, delay);
      var (s, w1) := Poll(w);
      if s == Clear {
        Snoc(w1.log, MovedCalled(u), from, delay);
      }
    case Abort(_) =>
    case IOFailure =>
      var (interrupted, w1) := TakeInterrupt(w);
      if interrupted.Some? {
        Snoc(w.log, InterruptRead(interrupted.value), from, delay);
      }
  }

  lemma SettleDone<T>(delay: int, a: Attempt<T>, w: World<T>, from: nat)
    requires Disciplined(w.log, from, delay)
    requires from < |w.log| && w.log[|w.log| - 1] == Downloaded(a)
    requires a.Raise? && a.fault.ProxyAuth? ==> from + 2 <= |w.log| && w.log[|w.log| - 2] == ProxyCalled
    ensures StepDone(Settle(delay, a, w), from, delay)
  {
    match a
    case Ok(_) =>
      PollDone(w, from, delay);
    case Raise(f) =>
      DispatchDone(delay, f, w, from);
  }

  /** The proxy path, entered right after the first download of a pass raised ProxyAuth. */
  lemma ProxyRetryDone<T>(delay: int, w: World<T>, from: nat)
    requires Disciplined(w.log, from, delay)
    requires from + 2 <= |w.log|
    requires w.log[|w.log| - 2] == InterruptRead(false) && w.log[|w.log| - 1] == Downloaded(Raise(ProxyAuth))
    ensures StepDone(ProxyRetry(delay, w), from, delay)
  {
    var w1 := Notify(w, ProxyCalled);
    Snoc(w.log, ProxyCalled, from, delay);
    var (b, w2) := TakeDownload(w1);
    if b.Some? {
      Snoc(w1.log, Downloaded(b.value), from, delay);
      SettleDone(delay, b.value, w2, from);
    }
  }

  /** One pass of the loop, begun at a pass boundary. */
  lemma IterationDone<T>(delay: int, w: World<T>, from: nat)
    requires Disciplined(w.log, from, delay)
    requires PassBoundary(w.log, from, delay, |w.log|)
    ensures StepDone(Iteration(delay, w), from, delay)
  {
    PollDone(w, from, delay);
    var (s, w1) := Poll(w);
    if s == Clear {
      var (a, w2) := TakeDownload(w1);
      assert w1.log == w.log + [StopRead(false), InterruptRead(false)];
      if a.None? {
        assert NextScript(w1.log, from, delay) == Downloads;
      } else {
        Snoc(w1.log, Downloaded(a.value), from, delay);
        if a.value.Raise? && a.value.fault.ProxyAuth? {
          ProxyRetryDone(delay, w2, from);
        } else {
          SettleDone(delay, a.value, w2, from);
        }
      }
    }
  }

  lemma {:induction false} RunDone<T>(delay: int, w: World<T>, from: nat)
    requires Disciplined(w.log, from, delay)
    requires PassBoundary(w.log, from, delay, |w.log|)
    ensures Disciplined(RunSpec(delay, w).1.log, from, delay)
    ensures RunSpec(delay, w).0 == Conclusion(RunSpec(delay, w).1.log, from)
    ensures RunSpec(delay, w).0.OutOfScript? ==>
              RanOut(RunSpec(delay, w).1, NextScript(RunSpec(delay, w).1.log, from, delay))
    decreases |w.downloads|
  {
    IterationDone(delay, w, from);
    var (p, w1) := Iteration(delay, w);
    if p.Again? {
      RunDone(delay, w1, from);
    }
  }

  /**
   * Every call a run makes waits for what the source makes it wait for: a
   * download only after the clear check that starts a pass or right after the
   * proxy callback, at most one proxy callback per pass, moved(u) only after a
   * clear check that followed the redirect to u, error(e) only right after the
   * transient fault e, retry(i, e) with i running from the delay down by one,
   * and a sleep only after a granted retry and a clear check.
   */
  lemma RunDisciplined<T>(delay: int, w: World<T>)
    ensures Disciplined(RunSpec(delay, w).1.log, |w.log|, delay)
  {
    RunDone(delay, w, |w.log|);
  }

  /**
   * The outcome of a run is the one its log concludes: a value only after it
   * was downloaded and both signals were then seen clear, each terminal error
   * right after the event that causes it, and OutOfScript only when the
   * script the next call would read has no answer left.
   */
  lemma RunConcludes<T>(delay: int, w: World<T>)
    ensures RunSpec(delay, w).0 == Conclusion(RunSpec(delay, w).1.log, |w.log|)
    ensures RunSpec(delay, w).0.OutOfScript? ==>
              RanOut(RunSpec(delay, w).1, NextScript(RunSpec(delay, w).1.log, |w.log|, delay))
  {
    RunDone(delay, w, |w.log|);
  }

  /** The log up to and including position k concludes nothing yet. */
  ghost predicate PendingAt<T>(log: seq<Event<T>>, from: nat, k: nat) {
    k < |log| && Conclusion(log[..k + 1], from).OutOfScript?
  }

  /** An event that is admitted after a log never follows one that concludes an outcome. */
  lemma AdmittedMeansPending<T>(before: seq<Event<T>>, from: nat, delay: int, ev: Event<T>)
    requires Admits(before, from, delay, ev)
    ensures Conclusion(before, from).OutOfScript?
  {
  }

  /**
   * Nothing is asked after an event that ends the run: after a set stop flag,
   * a set interrupt, an interrupted sleep, a refused retry, a fatal download,
   * or the clear check that lets a value be returned, the log stops.
   */
  lemma ConcludingEventIsLast<T>(log: seq<Event<T>>, from: nat, delay: int)
    requires Disciplined(log, from, delay)
    ensures forall k | from <= k < |log| - 1 :: PendingAt(log, from, k)
  {
    forall k | from <= k < |log| - 1
      ensures PendingAt(log, from, k)
    {
      assert AdmittedAt(log, from, delay, k + 1);
      assert log[..k + 1] == log[..k + 1][..k + 1];
      AdmittedMeansPending(log[..k + 1], from, delay, log[k + 1]);
    }
  }

  /** A run's log goes on past no concluding event. */
  lemma RunStopsAtConclusion<T>(delay: int, w: World<T>)
    ensures forall k | |w.log| <= k < |RunSpec(delay, w).1.log| - 1 :: PendingAt(RunSpec(delay, w).1.log, |w.log|, k)
  {
    RunDone(delay, w, |w.log|);
    ConcludingEventIsLast(RunSpec(delay, w).1.log, |w.log|, delay);
  }

  /** The log ends with the download of v and a clear check after it, all after position `from`. */
  ghost predicate EndsInClearReturn<T>(log: seq<Event<T>>, from: nat, v: T) {
    from + 3 <= |log| && log[|log| - 3..] == [Downloaded(Ok(v)), StopRead(false), InterruptRead(false)]
  }

  /** The only log that concludes a returned value. */
  lemma ConcludedReturn<T>(log: seq<Event<T>>, from: nat)
    requires Conclusion(log, from).Returned?
    ensures EndsInClearReturn(log, from, Conclusion(log, from).value)
  {
    var n := |log|;
    assert log[n - 3..] == [log[n - 3], log[n - 2], log[n - 1]];
  }

  /**
   * A value is returned only when the download that produced it was followed
   * by a stop flag and an interrupt status both seen clear, and nothing else.
   */
  lemma ReturnsOnlyAfterClearCheck<T>(delay: int, w: World<T>)
    ensures RunSpec(delay, w).0.Returned? ==>
              EndsInClearReturn(RunSpec(delay, w).1.log, |w.log|, RunSpec(delay, w).0.value)
  {
    RunDone(delay, w, |w.log|);
    if RunSpec(delay, w).0.Returned? {
      ConcludedReturn(RunSpec(delay, w).1.log, |w.log|);
    }
  }
}
