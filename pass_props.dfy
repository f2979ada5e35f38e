/**
 * Properties of one pass of the loop and of its retry countdown, stated over
 * the scripted answers the pass consumes.
 */
module PassProperties {
  import opened Taxonomy
  import opened Environment
  import opened RetrySpec

  /** The first n answers of a script are all `yes`. */
  ghost predicate AllSay(s: seq<bool>, n: nat, yes: bool) {
    n <= |s| && forall j | 0 <= j < n :: s[j] == yes
  }

  /**
   * The calls a countdown from step i down to 0 makes when every retry is
   * granted and nothing interrupts it.
   */
  function GrantedSteps<T>(i: int, e: Fault): (steps: seq<Event<T>>)
    ensures |steps| == if i < 0 then 0 else 4 * (i + 1)
    decreases i + 1
  {
    if i < 0 then []
    else [RetryCalled(i, e, true), StopRead(false), InterruptRead(false), Slept(false)] + GrantedSteps(i - 1, e)
  }

  /** One granted and uninterrupted countdown step, as the pieces of the world it consumes. */
  lemma CountdownStep<T>(i: int, e: Fault, w: World<T>)
    requires i >= 0 && w.answers != [] && w.stops != [] && w.interrupts != [] && w.sleeps != []
    requires w.answers[0] && !w.stops[0] && !w.interrupts[0] && !w.sleeps[0]
    ensures Countdown(i, e, w) == Countdown(i - 1, e, World(w.downloads, w.stops[1..], w.interrupts[1..],
              w.answers[1..], w.sleeps[1..], w.log + GrantedSteps(i, e)[..4]))
  {
    var w1 := TakeAnswer(i, e, w).1;
    var w2 := Poll(w1).1;
    var w3 := TakeSleep(w2).1;
    assert w3.log == w.log + [RetryCalled(i, e, true), StopRead(false), InterruptRead(false), Slept(false)];
    assert GrantedSteps<T>(i, e)[..4] == [RetryCalled(i, e, true), StopRead(false), InterruptRead(false), Slept(false)];
  }

  /**
   * A countdown from step i hands control back to the loop exactly when the
   * caller grants each of the i + 1 retries and every check point and sleep
   * after them is clear.
   */
  lemma {:induction false} CountdownCompletesIff<T>(i: int, e: Fault, w: World<T>)
    ensures Countdown(i, e, w).0.Again? <==>
              i < 0 || (AllSay(w.answers, i + 1, true) && AllSay(w.stops, i + 1, false)
                        && AllSay(w.interrupts, i + 1, false) && AllSay(w.sleeps, i + 1, false))
    decreases i + 1
  {
    if i >= 0 {
      AllSayHead(w.answers, i + 1, true);
      AllSayHead(w.stops, i + 1, false);
      AllSayHead(w.interrupts, i + 1, false);
      AllSayHead(w.sleeps, i + 1, false);
      CountdownNeedsClearHeads(i, e, w);
      if w.answers != [] && w.stops != [] && w.interrupts != [] && w.sleeps != []
         && w.answers[0] && !w.stops[0] && !w.interrupts[0] && !w.sleeps[0]
      {
        var w' := World(w.downloads, w.stops[1..], w.interrupts[1..], w.answers[1..], w.sleeps[1..],
                        w.log + GrantedSteps(i, e)[..4]);
        CountdownStep(i, e, w);
        CountdownCompletesIff(i - 1, e, w');
        AllSayTail(w.answers, i + 1, true);
        AllSayTail(w.stops, i + 1, false);
        AllSayTail(w.interrupts, i + 1, false);
        AllSayTail(w.sleeps, i + 1, false);
      }
    }
  }

  /** A countdown step that is refused, interrupted or out of script ends the run. */
  lemma CountdownNeedsClearHeads<T>(i: int, e: Fault, w: World<T>)
    requires i >= 0
    ensures Countdown(i, e, w).0.Again? ==>
              && w.answers != [] && w.stops != [] && w.interrupts != [] && w.sleeps != []
              && w.answers[0] && !w.stops[0] && !w.interrupts[0] && !w.sleeps[0]
  {
  }

  lemma AllSayHead(s: seq<bool>, n: nat, yes: bool)
    ensures n >= 1 && AllSay(s, n, yes) ==> s != [] && s[0] == yes
  {
  }

  lemma AllSayTail(s: seq<bool>, n: nat, yes: bool)
    requires n >= 1 && s != []
    ensures AllSay(s, n, yes) <==> s[0] == yes && AllSay(s[1..], n - 1, yes)
  {
    if s[0] == yes && AllSay(s[1..], n - 1, yes) {
      forall j | 0 <= j < n
        ensures s[j] == yes
      {
        if j > 0 {
          assert s[j] == s[1..][j - 1];
        }
      }
    }
  }

  /**
   * A countdown that hands control back logged exactly the granted steps from
   * i down to 0.
   */
  lemma {:induction false} CountdownLog<T>(i: int, e: Fault, w: World<T>)
    requires Countdown(i, e, w).0.Again?
    ensures Countdown(i, e, w).1.log == w.log + GrantedSteps(i, e)
    decreases i + 1
  {
    if i >= 0 {
      CountdownNeedsClearHeads(i, e, w);
      var w' := World(w.downloads, w.stops[1..], w.interrupts[1..], w.answers[1..], w.sleeps[1..],
                      w.log + GrantedSteps(i, e)[..4]);
      CountdownStep(i, e, w);
      CountdownLog(i - 1, e, w');
      assert GrantedSteps<T>(i, e) == GrantedSteps(i, e)[..4] + GrantedSteps(i - 1, e);
    }
  }

  /**
   * A countdown from step i that hands control back consumed exactly one
   * answer and one sleep per step.
   */
  lemma {:induction false} CountdownConsumes<T>(i: int, e: Fault, w: World<T>)
    requires i >= 0 && Countdown(i, e, w).0.Again?
    ensures i + 1 <= |w.answers| && Countdown(i, e, w).1.answers == w.answers[i + 1..]
    ensures i + 1 <= |w.sleeps| && Countdown(i, e, w).1.sleeps == w.sleeps[i + 1..]
    decreases i
  {
    CountdownNeedsClearHeads(i, e, w);
    var w' := World(w.downloads, w.stops[1..], w.interrupts[1..], w.answers[1..], w.sleeps[1..],
                    w.log + GrantedSteps(i, e)[..4]);
    CountdownStep(i, e, w);
    if i > 0 {
      CountdownConsumes(i - 1, e, w');
      assert w'.answers[i..] == w.answers[i + 1..];
      assert w'.sleeps[i..] == w.sleeps[i + 1..];
    }
  }

  /**
   * The retry path that goes round again reported the cause once, then asked
   * retry(i, e) for i from the delay down to 0, each followed by a clear check
   * and an uninterrupted sleep; with a negative delay it asks nothing.
   */
  lemma RetryingLog<T>(delay: int, e: Fault, w: World<T>)
    requires Retrying(delay, e, w).0.Again?
    ensures Retrying(delay, e, w).1.log == w.log + [ErrorCalled(e)] + GrantedSteps(delay, e)
  {
    CountdownLog(delay, e, Notify(w, ErrorCalled(e)));
  }

  /**
   * One pass uses at most two downloads, and uses them from the front of the
   * script: one, or a second one only after a first proxy challenge.
   */
  lemma PassUsesAtMostTwoDownloads<T>(delay: int, w: World<T>)
    ensures var d := Iteration(delay, w).1.downloads;
            |w.downloads| <= |d| + 2 && d == w.downloads[|w.downloads| - |d|..]
    ensures |Iteration(delay, w).1.downloads| + 2 == |w.downloads| ==>
              w.downloads[0] == Raise(ProxyAuth)
  {
    var (s, w1) := Poll(w);
    var r := Iteration(delay, w);
    if s != Clear {
      assert r.1 == w1;
    } else if w1.downloads == [] {
      assert r.1 == w1;
    } else {
      var (a, w2) := TakeDownload(w1);
      assert w2.downloads == w.downloads[1..];
      if a.value.Raise? && a.value.fault.ProxyAuth? {
        var (b, w3) := TakeDownload(Notify(w2, ProxyCalled));
        if b.None? {
          assert r.1.downloads == w.downloads[1..];
        } else {
          assert r == Settle(delay, b.value, w3);
          assert w3.downloads == w.downloads[2..];
        }
      } else {
        assert r == Settle(delay, a.value, w2);
      }
    }
  }

  /** A pass whose first check point is not clear ends there and downloads nothing. */
  lemma CancelledPassDownloadsNothing<T>(delay: int, w: World<T>)
    requires Poll(w).0.Cancel?
    ensures Iteration(delay, w).0 == Halt(Raised(DownloadInterrupted(Poll(w).0.reason)))
    ensures Iteration(delay, w).1.downloads == w.downloads
    ensures forall ev <- Iteration(delay, w).1.log[|w.log|..] :: !ev.Downloaded?
  {
    var log := Iteration(delay, w).1.log;
    assert log[|w.log|..] == [StopRead(true)] || log[|w.log|..] == [StopRead(false), InterruptRead(true)];
  }

  /**
   * A first proxy challenge gets exactly one proxy() callback and one more
   * download; a second challenge from that download is fatal.
   */
  lemma SecondProxyChallengeIsFatal<T>(delay: int, w: World<T>)
    requires Poll(w).0 == Clear
    requires |w.downloads| >= 2 && w.downloads[0] == Raise(ProxyAuth) && w.downloads[1] == Raise(ProxyAuth)
    ensures Iteration(delay, w).0 == Halt(Raised(DownloadError(ProxyAuth)))
    ensures Iteration(delay, w).1.log ==
              Poll(w).1.log + [Downloaded(Raise(ProxyAuth)), ProxyCalled, Downloaded(Raise(ProxyAuth))]
    ensures Iteration(delay, w).1.downloads == w.downloads[2..]
  {
    assert w.downloads[1..][1..] == w.downloads[2..];
  }

  /**
   * After a first proxy challenge the pass calls proxy() once and downloads
   * once more; a value from that download is returned exactly when the check
   * point after it is clear.
   */
  lemma ProxyRetryReturnsValue<T>(delay: int, w: World<T>, v: T)
    requires Poll(w).0 == Clear
    requires |w.downloads| >= 2 && w.downloads[0] == Raise(ProxyAuth) && w.downloads[1] == Ok(v)
    ensures var after := Poll(w).1.(downloads := w.downloads[2..],
                                    log := Poll(w).1.log + [Downloaded(Raise(ProxyAuth)), ProxyCalled, Downloaded(Ok(v))]);
            Iteration(delay, w) ==
              (Halt(if Poll(after).0 == Clear then Returned(v) else Halted(Poll(after).0)), Poll(after).1)
  {
    var w1 := Poll(w).1;
    var w3 := TakeDownload(Notify(TakeDownload(w1).1, ProxyCalled)).1;
    assert w3.log == w1.log + [Downloaded(Raise(ProxyAuth)), ProxyCalled, Downloaded(Ok(v))];
    assert w3.downloads == w.downloads[2..];
    assert Iteration(delay, w) == Settle(delay, Ok(v), w3);
  }
}
