# RetryWrap: the retry-and-redirect arbiter of the wget download engine

`RetryWrap` is the loop every download in the engine runs through. It calls the
caller's `download()`, sorts what that call raises, and does one of three things:

- returns the value;
- goes through one of the caller's callbacks and tries again:
  - a proxy challenge gets a single extra attempt;
  - a redirect is reported through `moved(url)`;
  - a transient transport fault is reported through `error(e)`, then a
    `retry(i, e)` countdown with one-second sleeps;
- ends the run with a terminal error.

A shared stop flag and the thread's interrupt status are sampled at fixed check
points. Beside the loop sit two pure helpers: the HTTP status check and the
retry-count bound.

The model has four layers.

- **`Taxonomy`** defines the values the loop works with:
  - what a download can raise (`Fault`);
  - how the catch chain sorts each fault (`Classify`);
  - the terminal errors (`Failure`);
  - a run's result (`Outcome`).
- **`StatusCheck`** and **`RetryPolicy`** are `check` and `retry(int)` as
  functions.
- **`Environment`** is everything the loop talks to. This covers the caller's
  callback object, the stop flag and the thread, as a class `Env` that answers
  from scripts. Every call is recorded in a log, in order. The calls that get
  an answer (`download`, `retry`, the stop flag, the interrupt status and the
  sleep) read the head of their own script; `proxy`, `error` and `moved` read
  no script. `RetrySpec` gives the loop's decisions as pure functions of that
  environment. `RetryWrap` is the imperative loop itself (`Run`,
  `RetryBackoff`, `HandleMoved`, `Wrap`), and each of its methods is proved to
  compute the matching `RetrySpec` function.
- **`TraceProperties`**, **`PassProperties`** and **`Scenarios`** state what
  the source promises about the calls a run makes and the outcome it ends
  with:
  - every logged call is preceded by the calls the source makes it wait for (`Disciplined`);
  - the outcome is the one the end of the log concludes (`Conclusion`), and nothing is logged after a concluding event;
  - exact statements about the proxy path and the retry countdown;
  - whole runs worked out for small scripts.

A script that runs out ends the run with `OutOfScript`. This outcome is not in
the source. It stands for "the run goes on beyond what the script says":
`TraceProperties.RunConcludes` proves that the script that ran out is the one
the next call would read (`NextScript`). It is also why the loop terminates:
each pass uses at least one download from the script.

Two details of the code that the model keeps as written:

- The code checks the stop flag and the interrupt status only before each
  one-second back-off sleep, not after it. During the sleep, only an
  `InterruptedException` ends the run. After the last sleep, the next check is
  the one at the top of the loop. `Countdown` and the `Admits` discipline
  follow this.
- `check` raises `DownloadIOCodeError` for 403 and 416. How `run` treats that
  class depends on its superclass, which is not part of this model (see
  "Left out").

## Model

| member | source | states |
|---|---|---|
| StatusCheck.Check | src/main/java/com/github/axet/wget/RetryWrap.java:185-202 | 200 and 206 pass. 301 and 302 raise Moved. 407 raises ProxyAuth. 403 and 416 raise a code error carrying that code. Every other code passes, since the switch has no default. Each verdict is stated as an if-and-only-if over the code. |
| StatusCheck.SuccessCodesProceed | src/main/java/com/github/axet/wget/RetryWrap.java:188-190 | Full content (200) and partial content (206) let the download go on. |
| StatusCheck.RaisesOnlyOnRedirectOrClientError | src/main/java/com/github/axet/wget/RetryWrap.java:191-201 | The check raises only on 3xx and 4xx codes. A Moved verdict is below 400; the other raises are 400 or above. |
| RetryPolicy.MayRetry | src/main/java/com/github/axet/wget/RetryWrap.java:205-211 | Retry number r is refused exactly when the count is non-negative and r exceeds it. |
| RetryPolicy.UnboundedAlwaysRetries | src/main/java/com/github/axet/wget/RetryWrap.java:206 | A negative count allows every retry. |
| RetryPolicy.RefusalIsFinal | src/main/java/com/github/axet/wget/RetryWrap.java:205-211 | Once retry r is refused, every later retry is refused too. |
| RetryPolicy.BoundedAllowsExactlyUpToCount | src/main/java/com/github/axet/wget/RetryWrap.java:206-210 | Under a non-negative count, exactly the retries up to the count are allowed. |
| RetryPolicy.DefaultBoundAllowsUpToFive | src/main/java/com/github/axet/wget/RetryWrap.java:24 | With the default count of 5, exactly retries up to 5 are allowed. |
| Taxonomy.Classify | src/main/java/com/github/axet/wget/RetryWrap.java:108-140 | Classification is total and deterministic, as if-and-only-if statements per route. The back-off path takes Socket, Protocol, HttpRetry, InterruptedIO, UnknownHost and a DownloadRetry raised by the download. Moved is reported. FileNotFound and a proxy challenge fail with DownloadError. Any other RuntimeException propagates unchanged. Any other IOException goes to the interrupt test. |
| Environment.Env.Download | src/main/java/com/github/axet/wget/RetryWrap.java:37 | `download()` returns the head of the download script, consumes it and logs it. Nothing else changes. |
| Environment.Env.StopGet | src/main/java/com/github/axet/wget/RetryWrap.java:55 | `stop.get()` reads the next stop-flag answer and logs it. |
| Environment.Env.IsInterrupted | src/main/java/com/github/axet/wget/RetryWrap.java:57 | `isInterrupted()` reads the next interrupt-status answer and logs it. |
| Environment.Env.Retry | src/main/java/com/github/axet/wget/RetryWrap.java:33 | `retry(delay, e)` logs the call with its arguments and the caller's answer. |
| Environment.Env.Sleep | src/main/java/com/github/axet/wget/RetryWrap.java:71-75 | `Thread.sleep(1000)` is one tick whose scripted answer says whether it was interrupted. |
| Environment.Env.Proxy | src/main/java/com/github/axet/wget/RetryWrap.java:27 | `proxy()` is logged and changes nothing else. |
| Environment.Env.Error | src/main/java/com/github/axet/wget/RetryWrap.java:31 | `error(e)` is logged with its cause and changes nothing else. |
| Environment.Env.Moved | src/main/java/com/github/axet/wget/RetryWrap.java:35 | `moved(url)` is logged with its location and changes nothing else. |
| RetrySpec.Halted | src/main/java/com/github/axet/wget/RetryWrap.java:81-84 | A cancelled check point ends the run as interrupted, with the signal that was set. A check point whose script ran out ends the run as out of script. |
| RetrySpec.Poll | src/main/java/com/github/axet/wget/RetryWrap.java:81-84 | The stop flag is read first. The thread's flag is read only when the stop flag is clear. The result is clear exactly when both reads are false. The exact log is given for each case, and no other script is touched. |
| RetrySpec.Countdown | src/main/java/com/github/axet/wget/RetryWrap.java:64-76 | The countdown keeps the log's prefix and never downloads. It ends only as out of script, declined with e, or interrupted by stop, thread or sleep. Below 0 it hands control back unchanged. |
| RetrySpec.Retrying | src/main/java/com/github/axet/wget/RetryWrap.java:62-77 | The retry path logs `error(e)` first and never downloads. |
| RetrySpec.Relocate | src/main/java/com/github/axet/wget/RetryWrap.java:54-60 | The redirect path goes round again exactly when the check point is clear. It then logs exactly the check and `moved(u)`. Otherwise it ends with the check's outcome. |
| RetrySpec.Dispatch | src/main/java/com/github/axet/wget/RetryWrap.java:108-140 | Only transient faults and redirects go round again. A second proxy challenge and FileNotFound end with DownloadError without any further call. Other runtime faults propagate without any further call. |
| RetrySpec.Settle | src/main/java/com/github/axet/wget/RetryWrap.java:88-94 | A returned value is kept exactly when the check point after it is clear. Otherwise the run ends with that check's outcome. |
| RetrySpec.ProxyRetry | src/main/java/com/github/axet/wget/RetryWrap.java:95-107 | After a first proxy challenge, `proxy()` is logged and exactly one more download is used from the front of the script. |
| RetrySpec.Iteration | src/main/java/com/github/axet/wget/RetryWrap.java:80-140 | A pass that goes round again has used at least one download. A pass whose first check is not clear ends there with that outcome. |
| RetrySpec.RunSpec | src/main/java/com/github/axet/wget/RetryWrap.java:79-142 | The whole run only extends the log and never returns downloads to the script. |
| RetryWrap.CheckPoint | src/main/java/com/github/axet/wget/RetryWrap.java:81-84 | The two reads of a check point compute `Poll` on the environment's state. |
| RetryWrap.HandleMoved | src/main/java/com/github/axet/wget/RetryWrap.java:54-60 | `moved(stop, r, e)` computes `Relocate`. |
| RetryWrap.RetryBackoff | src/main/java/com/github/axet/wget/RetryWrap.java:62-77 | `retry(stop, r, e)`: the `for` loop from the delay down to 0 computes `Retrying`. The loop invariant ties what is left of the countdown to the whole. |
| RetryWrap.Run | src/main/java/com/github/axet/wget/RetryWrap.java:79-146 | `run`, and `wrap(stop, WrapReturn)`, which only calls it: the `while (true)` loop computes `RunSpec`. |
| RetryWrap.Wrap | src/main/java/com/github/axet/wget/RetryWrap.java:148-183 | `wrap(stop, Wrap)` passes every callback through and discards the value. |
| TraceProperties.RunDisciplined | src/main/java/com/github/axet/wget/RetryWrap.java:54-142 | Each logged call waits for what the source makes it wait for. A download follows only the clear check that starts a pass, or the proxy callback. A pass starts only at the beginning of the run, after `moved(u)`, after the sleep that follows retry(0, e), or after `error(e)` when the delay is negative. `proxy()` comes only after a first challenge. `moved(u)` comes only after a clear check that followed the redirect to u. `error(e)` comes only right after the transient fault e. `retry(i, e)` counts from the delay down by one. A sleep comes only after a granted retry and a clear check. |
| TraceProperties.RunConcludes | src/main/java/com/github/axet/wget/RetryWrap.java:79-142 | A run's outcome is the one the end of its log concludes: each terminal error comes right after the event that causes it. The run is out of script only when the script its next call would read, as the end of the log determines (`NextScript`), has no answer left. |
| TraceProperties.ConcludingEventIsLast | src/main/java/com/github/axet/wget/RetryWrap.java:79-142 | In a disciplined log, no event follows one that concludes an outcome. |
| TraceProperties.RunStopsAtConclusion | src/main/java/com/github/axet/wget/RetryWrap.java:79-142 | Nothing is retried or called after cancellation, a refusal or a fatal fault. A run logs nothing after a set flag, an interrupted sleep, a refused retry or a fatal download. |
| TraceProperties.ReturnsOnlyAfterClearCheck | src/main/java/com/github/axet/wget/RetryWrap.java:88-106 | A value is returned only when its download was followed by a stop flag and an interrupt status both seen clear. This holds on the normal path and on the proxy path. |
| TraceProperties.AdmittedMeansPending | src/main/java/com/github/axet/wget/RetryWrap.java:79-142 | An event that may follow a log never follows a concluding one. |
| PassProperties.CountdownCompletesIff | src/main/java/com/github/axet/wget/RetryWrap.java:64-76 | A countdown from i hands control back exactly when all i + 1 retries are granted and every check point and sleep after them is clear. |
| PassProperties.CountdownLog | src/main/java/com/github/axet/wget/RetryWrap.java:64-76 | A completed countdown logged exactly retry(i, e) … retry(0, e), each granted and each followed by a clear check and a sleep. |
| PassProperties.CountdownConsumes | src/main/java/com/github/axet/wget/RetryWrap.java:64-76 | A completed countdown from i used exactly i + 1 answers and i + 1 sleeps. |
| PassProperties.RetryingLog | src/main/java/com/github/axet/wget/RetryWrap.java:62-77 | On the retry path that goes round again, `error(e)` was called exactly once, then the full granted countdown from the delay. |
| PassProperties.PassUsesAtMostTwoDownloads | src/main/java/com/github/axet/wget/RetryWrap.java:88-107 | A pass uses at most two downloads, from the front of the script. It uses two only after a first proxy challenge. |
| PassProperties.CancelledPassDownloadsNothing | src/main/java/com/github/axet/wget/RetryWrap.java:80-84 | When stop or interrupt is set at the top of a pass, the run ends as interrupted and nothing is downloaded. |
| PassProperties.SecondProxyChallengeIsFatal | src/main/java/com/github/axet/wget/RetryWrap.java:95-109 | Two proxy challenges in a row cause exactly one `proxy()` and end with DownloadError, never a further retry. |
| PassProperties.ProxyRetryReturnsValue | src/main/java/com/github/axet/wget/RetryWrap.java:95-106 | A value from the download after `proxy()` is returned exactly when the check after it is clear. |
| Scenarios.StoppedBeforeFirstAttempt | src/main/java/com/github/axet/wget/RetryWrap.java:81-82 | A stop flag set at the start ends the run after one read of the flag, before any download. |
| Scenarios.MissingFileIsFatal | src/main/java/com/github/axet/wget/RetryWrap.java:125-126 | FileNotFound ends the run with DownloadError after one download, and no callback is called. |
| Scenarios.RefusedRetryEndsRun | src/main/java/com/github/axet/wget/RetryWrap.java:62-68 | With delay 2, a refused retry(1) ends the run with the declined cause. The whole log is given. |
| Scenarios.RedirectIsReportedNotFollowed | src/main/java/com/github/axet/wget/RetryWrap.java:136-137 | A redirect is reported through `moved(u)`, and the next pass downloads again without following it. |
| Scenarios.QuietRetryPass | src/main/java/com/github/axet/wget/RetryWrap.java:110-112 | With delay 0, a pass with a transient fault and a granted retry(0) goes round again. It uses exactly one download, two checks, one answer and one sleep. |
| Scenarios.TwoSocketFaultsThenValue | src/main/java/com/github/axet/wget/RetryWrap.java:79-142 | With delay 0, two socket faults and then a value: the value is returned after three downloads and two `error(e)` calls. |
| Scenarios.DownloadMidCountdownIsRejected | src/main/java/com/github/axet/wget/RetryWrap.java:64-76 | With the default delay of 3, a log in which a check and a download follow the sleep after retry(3, e) is not disciplined. A pass ends only after the sleep that follows retry(0, e). |

## Left out

- Threads and timing are not modelled: the `AtomicBoolean` stop flag, the
  thread's interrupt status and `Thread.sleep(1000)`. Each read is a scripted
  boolean, and the one-second sleep is a tick that may report an interruption.
- `HttpURLConnection` and the network. `check` takes the response code
  directly.
- The exception classes of the engine (`DownloadError`, `DownloadIOError`,
  `DownloadIOCodeError`, `DownloadInterruptedError`, `DownloadMoved`,
  `DownloadRetry`, `ProxyAuth`) are not part of this model, nor is their
  subclass structure. Faults are a flat enumeration in the order of the catch
  chain. A `DownloadIOCodeError` raised by `check` is therefore not fed into
  `run`'s classification: whether it is an `IOException` or a
  `RuntimeException` decides which branch takes it, and that is not known
  here.
- The message strings of `DownloadInterruptedError`, including the "interrrupted" spelling in the helpers. The interruption's reason is a constructor instead.
- `DownloadError(DownloadRetry(e))`, raised when a retry is refused, is modelled as `RetryDeclined(e)`. It is kept apart from a `DownloadError` that wraps the fault directly.
- The callbacks `error` and `retry` receive the `DownloadRetry` that wraps the fault (RetryWrap.java:112, 138-139, 63 and 65). The log records the bare fault instead (`ErrorCalled(e)`, `RetryCalled(i, e, _)`). The wrapper adds nothing but the cause.
- The `resume()` callback is declared but never called by the loop, so it is not modelled.
- Callbacks that raise exceptions themselves are not modelled: `proxy`, `error`, `retry` and `moved` only return.
- `RETRY_DELAY` and `RETRY_COUNT` are mutable statics in the source; here they are parameters, with the defaults as constants. `run` never consults the retry-count bound, and neither does the model.
- Runs longer than their scripts: a run whose script runs out ends with `OutOfScript`, which is not an outcome of the source. It stands for a run that continues past what the script describes, for example a loop that never ends.
