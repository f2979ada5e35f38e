/**
 * Everything outside the wrapper that a run talks to: the caller's callback
 * object (download, proxy, error, retry, moved), the caller's stop flag and the
 * current thread (its interrupt status and its sleep).  Their answers come from
 * scripts, read front to back, and every question the wrapper asks is recorded
 * in a log, so that the order of calls can be stated and proved.
 */
module Environment {
  import opened Taxonomy

  /** One interaction of the wrapper with its environment, with the answer it got. */
  datatype Event<T> =
    | Downloaded(attempt: Attempt<T>)                       // download() and its result
    | StopRead(isSet: bool)                                 // stop.get()
    | InterruptRead(isSet: bool)                            // Thread.currentThread().isInterrupted()
    | ProxyCalled                                           // proxy()
    | ErrorCalled(cause: Fault)                             // error(e)
    | RetryCalled(step: int, cause: Fault, answer: bool)    // retry(step, e) and its answer
    | MovedCalled(location: Url)                            // moved(url)
    | Slept(interrupted: bool)                              // Thread.sleep(1000), interrupted or not

  /**
   * The environment as a value: what each source of answers will still say, and
   * the log of what was asked so far.
   */
  datatype World<T> = World(
    downloads: seq<Attempt<T>>,
    stops: seq<bool>,
    interrupts: seq<bool>,
    answers: seq<bool>,
    sleeps: seq<bool>,
    log: seq<Event<T>>)

  /** The five scripts the environment answers from. */
  datatype Script = Downloads | Stops | Interrupts | Answers | Sleeps

  /** Script s of the world has no answer left. */
  predicate RanOut<T>(w: World<T>, s: Script) {
    match s
    case Downloads => w.downloads == []
    case Stops => w.stops == []
    case Interrupts => w.interrupts == []
    case Answers => w.answers == []
    case Sleeps => w.sleeps == []
  }

  /** Some source of answers is exhausted. */
  predicate Exhausted<T>(w: World<T>) {
    w.downloads == [] || w.stops == [] || w.interrupts == [] || w.answers == [] || w.sleeps == []
  }

  function TakeDownload<T>(w: World<T>): (Option<Attempt<T>>, World<T>) {
    if w.downloads == [] then (None, w)
    else (Some(w.downloads[0]), w.(downloads := w.downloads[1..], log := w.log + [Downloaded(w.downloads[0])]))
  }

  function TakeStop<T>(w: World<T>): (Option<bool>, World<T>) {
    if w.stops == [] then (None, w)
    else (Some(w.stops[0]), w.(stops := w.stops[1..], log := w.log + [StopRead(w.stops[0])]))
  }

  function TakeInterrupt<T>(w: World<T>): (Option<bool>, World<T>) {
    if w.interrupts == [] then (None, w)
    else (Some(w.interrupts[0]), w.(interrupts := w.interrupts[1..], log := w.log + [InterruptRead(w.interrupts[0])]))
  }

  function TakeAnswer<T>(delay: int, e: Fault, w: World<T>): (Option<bool>, World<T>) {
    if w.answers == [] then (None, w)
    else (Some(w.answers[0]), w.(answers := w.answers[1..], log := w.log + [RetryCalled(delay, e, w.answers[0])]))
  }

  function TakeSleep<T>(w: World<T>): (Option<bool>, World<T>) {
    if w.sleeps == [] then (None, w)
    else (Some(w.sleeps[0]), w.(sleeps := w.sleeps[1..], log := w.log + [Slept(w.sleeps[0])]))
  }

  /** A callback that answers nothing: it is only recorded. */
  function Notify<T>(w: World<T>, ev: Event<T>): World<T> {
    w.(log := w.log + [ev])
  }

  /**
   * The environment as the object a run changes.  Each method is one call the
   * source makes and is logged; a call that gets an answer reads the head of
   * its own script, and gets None when that script is exhausted.
   */
  class Env<T> {
    var downloads: seq<Attempt<T>>
    var stops: seq<bool>
    var interrupts: seq<bool>
    var answers: seq<bool>
    var sleeps: seq<bool>
    var log: seq<Event<T>>

    function State(): World<T>
      reads this
    {
      World(downloads, stops, interrupts, answers, sleeps, log)
    }

    constructor (w: World<T>)
      ensures State() == w
    {
      downloads, stops, interrupts, answers, sleeps, log :=
        w.downloads, w.stops, w.interrupts, w.answers, w.sleeps, w.log;
    }

    method Download() returns (a: Option<Attempt<T>>)
      modifies this
      ensures (a, State()) == TakeDownload(old(State()))
    {
      if downloads == [] {
        a := None;
      } else {
        a := Some(downloads[0]);
        downloads := downloads[1..];
        log := log + [Downloaded(a.value)];
      }
    }

    method StopGet() returns (b: Option<bool>)
      modifies this
      ensures (b, State()) == TakeStop(old(State()))
    {
      if stops == [] {
        b := None;
      } else {
        b := Some(stops[0]);
        stops := stops[1..];
        log := log + [StopRead(b.value)];
      }
    }

    method IsInterrupted() returns (b: Option<bool>)
      modifies this
      ensures (b, State()) == TakeInterrupt(old(State()))
    {
      if interrupts == [] {
        b := None;
      } else {
        b := Some(interrupts[0]);
        interrupts := interrupts[1..];
        log := log + [InterruptRead(b.value)];
      }
    }

    method Retry(delay: int, e: Fault) returns (b: Option<bool>)
      modifies this
      ensures (b, State()) == TakeAnswer(delay, e, old(State()))
    {
      if answers == [] {
        b := None;
      } else {
        b := Some(answers[0]);
        answers := answers[1..];
        log := log + [RetryCalled(delay, e, b.value)];
      }
    }

    /** Thread.sleep(1000): Some(true) when the sleep was interrupted. */
    method Sleep() returns (b: Option<bool>)
      modifies this
      ensures (b, State()) == TakeSleep(old(State()))
    {
      if sleeps == [] {
        b := None;
      } else {
        b := Some(sleeps[0]);
        sleeps := sleeps[1..];
        log := log + [Slept(b.value)];
      }
    }

    method Proxy()
      modifies this
      ensures State() == Notify(old(State()), ProxyCalled)
    {
      log := log + [ProxyCalled];
    }

    method Error(e: Fault)
      modifies this
      ensures State() == Notify(old(State()), ErrorCalled(e))
    {
      log := log + [ErrorCalled(e)];
    }

    method Moved(u: Url)
      modifies this
      ensures State() == Notify(old(State()), MovedCalled(u))
    {
      log := log + [MovedCalled(u)];
    }
  }
}
