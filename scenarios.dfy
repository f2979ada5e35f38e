/**
 * Whole runs against small scripted environments, worked out to the end.
 */
module Scenarios {
  import opened Taxonomy
  import opened Environment
  import opened RetrySpec
  import opened RetryPolicy
  import opened TraceProperties

  /** A stop flag set before the first attempt ends the run at once, before any download. */
  lemma StoppedBeforeFirstAttempt()
    ensures RunSpec(DefaultRetryDelay, World([Ok(7)], [true], [], [], [], [])) ==
              (Raised(DownloadInterrupted(StopFlag)), World([Ok(7)], [], [], [], [], [StopRead(true)]))
  {
    var w0: World<int> := World([Ok(7)], [true], [], [], [], []);
    assert w0.stops[1..] == [];
    assert w0.log + [StopRead(true)] == [StopRead(true)];
    assert Poll(w0) == (Cancel(StopFlag), World([Ok(7)], [], [], [], [], [StopRead(true)]));
  }

  /** A missing file is fatal on the first download: no callback is called. */
  lemma MissingFileIsFatal()
    ensures RunSpec(DefaultRetryDelay, World([Raise(FileNotFound), Ok(7)], [false], [false], [], [], [])) ==
              (Raised(DownloadError(FileNotFound)),
               World([Ok(7)], [], [], [], [], [StopRead(false), InterruptRead(false), Downloaded(Raise(FileNotFound))]))
  {
    var w0: World<int> := World([Raise(FileNotFound), Ok(7)], [false], [false], [], [], []);
    assert w0.stops[1..] == [] && w0.interrupts[1..] == [];
    assert w0.log + [StopRead(false)] + [InterruptRead(false)] == [StopRead(false), InterruptRead(false)];
    var w1: World<int> := World([Raise(FileNotFound), Ok(7)], [], [], [], [], [StopRead(false), InterruptRead(false)]);
    assert Poll(w0) == (Clear, w1);
    assert w1.downloads[1..] == [Ok(7)];
    assert w1.log + [Downloaded(Raise(FileNotFound))] ==
             [StopRead(false), InterruptRead(false), Downloaded(Raise(FileNotFound))];
  }

  /**
   * A refused retry ends the run with the refused cause: with a delay of 2 the
   * caller is asked retry(2) and then, after a tick, retry(1), which it refuses.
   */
  lemma RefusedRetryEndsRun()
    ensures RunSpec(2, World([Raise(HttpRetry), Ok(7)], [false, false], [false, false], [true, false], [false], [])) ==
              (Raised(RetryDeclined(HttpRetry)),
               World([Ok(7)], [], [], [], [],
                     [StopRead(false), InterruptRead(false), Downloaded(Raise(HttpRetry)), ErrorCalled(HttpRetry),
                      RetryCalled(2, HttpRetry, true), StopRead(false), InterruptRead(false), Slept(false),
                      RetryCalled(1, HttpRetry, false)]))
  {
    var w0: World<int> := World([Raise(HttpRetry), Ok(7)], [false, false], [false, false], [true, false], [false], []);
    var l1: seq<Event<int>> := [StopRead(false), InterruptRead(false)];
    var l2 := l1 + [Downloaded(Raise(HttpRetry)), ErrorCalled(HttpRetry)];
    var l3 := l2 + [RetryCalled(2, HttpRetry, true)];
    var l4 := l3 + [StopRead(false), InterruptRead(false)];
    var l5 := l4 + [Slept(false)];
    var l6 := l5 + [RetryCalled(1, HttpRetry, false)];
    assert w0.stops[1..] == [false] && w0.interrupts[1..] == [false];
    assert w0.log + [StopRead(false)] + [InterruptRead(false)] == l1;
    var w1 := World([Raise(HttpRetry), Ok(7)], [false], [false], [true, false], [false], l1);
    assert Poll(w0) == (Clear, w1);
    assert w1.downloads[1..] == [Ok(7)];
    assert w1.log + [Downloaded(Raise(HttpRetry))] + [ErrorCalled(HttpRetry)] == l2;
    var w2 := World([Ok(7)], [false], [false], [true, false], [false], l2);
    assert Iteration(2, w0) == Retrying(2, HttpRetry, TakeDownload(w1).1);
    assert Notify(TakeDownload(w1).1, ErrorCalled(HttpRetry)) == w2;
    assert w2.answers[1..] == [false];
    var w3 := World([Ok(7)], [false], [false], [false], [false], l3);
    assert TakeAnswer(2, HttpRetry, w2) == (Some(true), w3);
    assert w3.stops[1..] == [] && w3.interrupts[1..] == [];
    assert w3.log + [StopRead(false)] + [InterruptRead(false)] == l4;
    var w4 := World([Ok(7)], [], [], [false], [false], l4);
    assert Poll(w3) == (Clear, w4);
    assert w4.sleeps[1..] == [];
    var w5 := World([Ok(7)], [], [], [false], [], l5);
    assert TakeSleep(w4) == (Some(false), w5);
    assert Countdown(2, HttpRetry, w2) == Countdown(1, HttpRetry, w5);
    assert w5.answers[1..] == [];
    assert TakeAnswer(1, HttpRetry, w5) == (Some(false), World([Ok(7)], [], [], [], [], l6));
    assert Iteration(2, w0) == (Halt(Raised(RetryDeclined(HttpRetry))), World([Ok(7)], [], [], [], [], l6));
    assert l6 == [StopRead(false), InterruptRead(false), Downloaded(Raise(HttpRetry)), ErrorCalled(HttpRetry),
                  RetryCalled(2, HttpRetry, true), StopRead(false), InterruptRead(false), Slept(false),
                  RetryCalled(1, HttpRetry, false)];
  }

  /** The redirect scenario: a redirect to "b", then a value, with every flag clear. */
  const RedirectStart: World<int> :=
    World([Raise(Moved("b")), Ok(7)], [false, false, false, false], [false, false, false, false], [], [], [])
  /** ... after the first pass, which reported the redirect. */
  const RedirectReported: World<int> :=
    World([Ok(7)], [false, false], [false, false], [], [],
          [StopRead(false), InterruptRead(false), Downloaded(Raise(Moved("b"))),
           StopRead(false), InterruptRead(false), MovedCalled("b")])

  /** The first pass reports the redirect through moved("b") and goes round again. */
  lemma RedirectFirstPass()
    ensures Iteration(1, RedirectStart) == (Again, RedirectReported)
  {
    var w0 := RedirectStart;
    var l1: seq<Event<int>> := [StopRead(false), InterruptRead(false)];
    var l2 := l1 + [Downloaded(Raise(Moved("b")))];
    var l3 := l2 + [StopRead(false), InterruptRead(false)];
    assert w0.stops[1..] == [false, false, false] && w0.interrupts[1..] == [false, false, false];
    assert w0.log + [StopRead(false)] + [InterruptRead(false)] == l1;
    var w1 := World([Raise(Moved("b")), Ok(7)], [false, false, false], [false, false, false], [], [], l1);
    assert Poll(w0) == (Clear, w1);
    assert w1.downloads[1..] == [Ok(7)];
    var w2 := World([Ok(7)], [false, false, false], [false, false, false], [], [], l2);
    assert TakeDownload(w1) == (Some(Raise(Moved("b"))), w2);
    assert w2.stops[1..] == [false, false] && w2.interrupts[1..] == [false, false];
    assert w2.log + [StopRead(false)] + [InterruptRead(false)] == l3;
    var w3 := World([Ok(7)], [false, false], [false, false], [], [], l3);
    assert Poll(w2) == (Clear, w3);
    assert l3 + [MovedCalled("b")] == RedirectReported.log;
  }

  /** The second pass downloads the value at the old location and returns it. */
  lemma RedirectSecondPass()
    ensures Iteration(1, RedirectReported) ==
              (Halt(Returned(7)), World([], [], [], [], [], RedirectReported.log +
                 [StopRead(false), InterruptRead(false), Downloaded(Ok(7)), StopRead(false), InterruptRead(false)]))
  {
    var w4 := RedirectReported;
    var l5 := w4.log + [StopRead(false), InterruptRead(false)];
    var l6 := l5 + [Downloaded(Ok(7))];
    var l7 := l6 + [StopRead(false), InterruptRead(false)];
    assert w4.stops[1..] == [false] && w4.interrupts[1..] == [false];
    var w5 := World([Ok(7)], [false], [false], [], [], l5);
    assert Poll(w4) == (Clear, w5);
    assert w5.downloads[1..] == [];
    var w6 := World([], [false], [false], [], [], l6);
    assert TakeDownload(w5) == (Some(Ok(7)), w6);
    assert w6.stops[1..] == [] && w6.interrupts[1..] == [];
    var w7 := World([], [], [], [], [], l7);
    assert Poll(w6) == (Clear, w7);
    assert l7 == w4.log + [StopRead(false), InterruptRead(false), Downloaded(Ok(7)), StopRead(false), InterruptRead(false)];
  }

  /**
   * A redirect is reported through moved(u) and the loop downloads again
   * without following it: the value is returned after two passes.
   */
  lemma RedirectIsReportedNotFollowed()
    ensures RunSpec(1, RedirectStart) ==
              (Returned(7),
               World([], [], [], [], [],
                     [StopRead(false), InterruptRead(false), Downloaded(Raise(Moved("b"))),
                      StopRead(false), InterruptRead(false), MovedCalled("b"),
                      StopRead(false), InterruptRead(false), Downloaded(Ok(7)),
                      StopRead(false), InterruptRead(false)]))
  {
    RedirectFirstPass();
    RedirectSecondPass();
    var last := RedirectReported.log +
                  [StopRead(false), InterruptRead(false), Downloaded(Ok(7)), StopRead(false), InterruptRead(false)];
    assert RunSpec(1, RedirectReported) == (Returned(7), World([], [], [], [], [], last));
    assert RunSpec(1, RedirectStart) == RunSpec(1, RedirectReported);
    assert last == [StopRead(false), InterruptRead(false), Downloaded(Raise(Moved("b"))),
                    StopRead(false), InterruptRead(false), MovedCalled("b"),
                    StopRead(false), InterruptRead(false), Downloaded(Ok(7)),
                    StopRead(false), InterruptRead(false)];
  }

  /**
   * With no back-off delay, a pass whose download raises a transient fault and
   * whose caller grants the single retry(0) reports the fault, sleeps one tick
   * and goes round again, having used one download, two check points, one
   * answer and one sleep.
   */
  lemma QuietRetryPass<T>(f: Fault, w: World<T>)
    requires Transient(f)
    requires |w.downloads| >= 1 && w.downloads[0] == Raise(f)
    requires |w.stops| >= 2 && !w.stops[0] && !w.stops[1]
    requires |w.interrupts| >= 2 && !w.interrupts[0] && !w.interrupts[1]
    requires |w.answers| >= 1 && w.answers[0]
    requires |w.sleeps| >= 1 && !w.sleeps[0]
    ensures Iteration(0, w) ==
              (Again, World(w.downloads[1..], w.stops[2..], w.interrupts[2..], w.answers[1..], w.sleeps[1..],
                            w.log + [StopRead(false), InterruptRead(false), Downloaded(Raise(f)), ErrorCalled(f),
                                     RetryCalled(0, f, true), StopRead(false), InterruptRead(false), Slept(false)]))
  {
    var w1 := Poll(w).1;
    var w2 := Notify(TakeDownload(w1).1, ErrorCalled(f));
    assert w2 == w.(downloads := w.downloads[1..], stops := w.stops[1..], interrupts := w.interrupts[1..],
                    log := w.log + [StopRead(false), InterruptRead(false), Downloaded(Raise(f)), ErrorCalled(f)]);
    var w3 := TakeAnswer(0, f, w2).1;
    var w4 := Poll(w3).1;
    assert w4.stops == w.stops[2..] && w4.interrupts == w.interrupts[2..];
    var w5 := TakeSleep(w4).1;
    assert Iteration(0, w) == Countdown(0, f, w2);
    assert Countdown(0, f, w2) == Countdown(-1, f, w5);
    assert w5.log == w.log + [StopRead(false), InterruptRead(false), Downloaded(Raise(f)), ErrorCalled(f),
                              RetryCalled(0, f, true), StopRead(false), InterruptRead(false), Slept(false)];
    assert w5 == World(w.downloads[1..], w.stops[2..], w.interrupts[2..], w.answers[1..], w.sleeps[1..], w5.log);
  }

  /** The transient-fault scenario: two socket faults, then a value, with every flag clear and every retry granted. */
  const SocketStart: World<int> :=
    World([Raise(Socket), Raise(Socket), Ok(7)], [false, false, false, false, false, false],
          [false, false, false, false, false, false], [true, true], [false, false], [])

  /** The calls of one pass that retries a socket fault with no delay. */
  const SocketPass: seq<Event<int>> :=
    [StopRead(false), InterruptRead(false), Downloaded(Raise(Socket)), ErrorCalled(Socket),
     RetryCalled(0, Socket, true), StopRead(false), InterruptRead(false), Slept(false)]

  /** ... after the first pass. */
  const SocketAfterOne: World<int> :=
    World([Raise(Socket), Ok(7)], [false, false, false, false], [false, false, false, false], [true], [false], SocketPass)

  /** ... after the second pass. */
  const SocketAfterTwo: World<int> :=
    World([Ok(7)], [false, false], [false, false], [], [], SocketPass + SocketPass)

  lemma SocketFirstPass()
    ensures Iteration(0, SocketStart) == (Again, SocketAfterOne)
  {
    var w0 := SocketStart;
    QuietRetryPass(Socket, w0);
    assert w0.downloads[1..] == SocketAfterOne.downloads && w0.stops[2..] == SocketAfterOne.stops;
    assert w0.answers[1..] == SocketAfterOne.answers && w0.sleeps[1..] == SocketAfterOne.sleeps;
    assert w0.log + SocketPass == SocketPass;
  }

  lemma SocketSecondPass()
    ensures Iteration(0, SocketAfterOne) == (Again, SocketAfterTwo)
  {
    var w1 := SocketAfterOne;
    QuietRetryPass(Socket, w1);
    assert w1.downloads[1..] == SocketAfterTwo.downloads && w1.stops[2..] == SocketAfterTwo.stops;
    assert w1.answers[1..] == SocketAfterTwo.answers && w1.sleeps[1..] == SocketAfterTwo.sleeps;
  }

  lemma SocketLastPass()
    ensures Iteration(0, SocketAfterTwo) ==
              (Halt(Returned(7)), World([], [], [], [], [], SocketPass + SocketPass +
                 [StopRead(false), InterruptRead(false), Downloaded(Ok(7)), StopRead(false), InterruptRead(false)]))
  {
    var w2 := SocketAfterTwo;
    var w3 := Poll(w2).1;
    assert w3 == w2.(stops := [false], interrupts := [false], log := w2.log + [StopRead(false), InterruptRead(false)]);
    var w4 := TakeDownload(w3).1;
    assert w4.downloads == [];
    var w5 := Poll(w4).1;
    assert w5.log == w2.log + [StopRead(false), InterruptRead(false), Downloaded(Ok(7)), StopRead(false), InterruptRead(false)];
  }

  /**
   * Two socket faults with no back-off delay, then a value: the value is
   * returned after exactly three downloads, with error(e) called twice, each
   * time followed by one granted retry(0) and one tick of sleep.
   */
  lemma TwoSocketFaultsThenValue()
    ensures RunSpec(0, SocketStart) ==
              (Returned(7), World([], [], [], [], [], SocketPass + SocketPass +
                 [StopRead(false), InterruptRead(false), Downloaded(Ok(7)), StopRead(false), InterruptRead(false)]))
  {
    SocketFirstPass();
    SocketSecondPass();
    SocketLastPass();
    assert RunSpec(0, SocketStart) == RunSpec(0, SocketAfterOne);
    assert RunSpec(0, SocketAfterOne) == RunSpec(0, SocketAfterTwo);
  }

  /**
   * A log in which a download follows the sleep after retry(3, e), skipping
   * retry(2, e) .. retry(0, e), is not one a run can make: with a delay of 3,
   * only the sleep after retry(0, e) ends a pass.
   */
  lemma DownloadMidCountdownIsRejected()
    ensures !Disciplined([StopRead(false), InterruptRead(false), Downloaded(Raise(Socket)), ErrorCalled(Socket),
                          RetryCalled(3, Socket, true), StopRead(false), InterruptRead(false), Slept(false),
                          StopRead(false), InterruptRead(false), Downloaded(Ok(1)),
                          StopRead(false), InterruptRead(false)], 0, DefaultRetryDelay)
  {
    var log: seq<Event<int>> :=
      [StopRead(false), InterruptRead(false), Downloaded(Raise(Socket)), ErrorCalled(Socket),
       RetryCalled(3, Socket, true), StopRead(false), InterruptRead(false), Slept(false),
       StopRead(false), InterruptRead(false), Downloaded(Ok(1)),
       StopRead(false), InterruptRead(false)];
    var before := log[..8];
    assert before[4] == RetryCalled(3, Socket, true) && before[7] == Slept(false);
    assert !Admits(before, 0, DefaultRetryDelay, log[8]);
    assert !AdmittedAt(log, 0, DefaultRetryDelay, 8);
  }
}
