/**
 * The features downloader: one OpenStreetMap features query around a fixed
 * point, retried a bounded number of times when the server call raises.
 * The server is an oracle that tells, for a query and an attempt number,
 * whether that attempt returns a table or raises; waiting between attempts
 * is counted, not performed. `time.sleep` refuses a negative duration and
 * one too large for CPython's time type by raising, and that exception
 * leaves the retry loop at once.
 */
module Download {
  import opened Features

  /** What one call of the features service does: it returns a table, or it raises. */
  datatype Attempt<T> = Ok(value: T) | Fail

  /** The arguments of one features call: the point, the tag filter and the search distance. */
  datatype Query = Query(latitude: real, longitude: real, tag: Tag, dist: int)

  /** The features service: the outcome of the attempt with the given number (0-based). */
  type Provider = (Query, nat) -> Attempt<seq<Feature>>

  /**
   * The outcome of a download: the table, the terminal "Failed to download"
   * exception, or the exception `time.sleep` raises for a sleep time it refuses.
   */
  datatype DownloadResult = Downloaded(features: seq<Feature>) | DownloadFailure | SleepRejected

  /** A whole retrying download: its outcome, the number of service calls and the number of sleeps. */
  datatype RetryRun = RetryRun(result: DownloadResult, calls: nat, sleeps: nat)

  /**
   * The longest sleep, in seconds, that `time.sleep` accepts: CPython
   * converts the duration to a signed 64-bit count of nanoseconds, rounding
   * up, so 2^63 - 1 nanoseconds is the limit.
   */
  const MaxSleepSeconds: real := 9223372036.854775807

  /** `time.sleep(seconds)` raises instead of sleeping. */
  predicate SleepRefused(seconds: real)
  {
    seconds < 0.0 || seconds > MaxSleepSeconds
  }

  /** The number of iterations of `range(maxRetries)`. */
  function Budget(maxRetries: int): nat
  {
    if maxRetries > 0 then maxRetries else 0
  }

  /**
   * The retry loop continued from attempt number `attempt`, every earlier
   * attempt having raised and been followed by a sleep.
   */
  function RunFrom(q: Query, provider: Provider, attempt: nat, maxRetries: int, sleepTime: real): (run: RetryRun)
    ensures attempt <= run.sleeps <= run.calls <= (if attempt < maxRetries then maxRetries else attempt)
    decreases maxRetries - attempt
  {
    if attempt >= maxRetries then RetryRun(DownloadFailure, attempt, attempt)
    else match provider(q, attempt)
      case Ok(v) => RetryRun(Downloaded(v), attempt + 1, attempt)
      case Fail =>
        if SleepRefused(sleepTime) then RetryRun(SleepRejected, attempt + 1, attempt)
        else RunFrom(q, provider, attempt + 1, maxRetries, sleepTime)
  }

  /**
   * The whole retry loop, from the first attempt: at most `maxRetries`
   * calls, none at all when `maxRetries <= 0`, and never more sleeps than calls.
   */
  function Run(q: Query, provider: Provider, maxRetries: int, sleepTime: real): (run: RetryRun)
    ensures run.sleeps <= run.calls <= Budget(maxRetries)
    ensures maxRetries <= 0 ==> run == RetryRun(DownloadFailure, 0, 0)
  {
    RunFrom(q, provider, 0, maxRetries, sleepTime)
  }

  /**
   * A successful download returns the table of the first attempt that did
   * not raise, within the budget; every earlier attempt raised and was
   * followed by a sleep, and the successful one was not.
   */
  lemma {:induction false} RunFromSuccess(q: Query, provider: Provider, attempt: nat, maxRetries: int, sleepTime: real)
    requires RunFrom(q, provider, attempt, maxRetries, sleepTime).result.Downloaded?
    ensures var run := RunFrom(q, provider, attempt, maxRetries, sleepTime);
      && attempt < run.calls <= maxRetries
      && provider(q, run.calls - 1) == Ok(run.result.features)
      && (forall i :: attempt <= i < run.calls - 1 ==> provider(q, i).Fail?)
      && run.sleeps == run.calls - 1
    decreases maxRetries - attempt
  {
    if provider(q, attempt).Fail? {
      RunFromSuccess(q, provider, attempt + 1, maxRetries, sleepTime);
    }
  }

  /**
   * A "Failed to download" exception means the whole budget was used up:
   * every attempt raised and each was followed by a sleep, the last one
   * included, which needs a sleep time `time.sleep` accepts.
   */
  lemma {:induction false} RunFromFailure(q: Query, provider: Provider, attempt: nat, maxRetries: int, sleepTime: real)
    requires RunFrom(q, provider, attempt, maxRetries, sleepTime).result == DownloadFailure
    ensures var run := RunFrom(q, provider, attempt, maxRetries, sleepTime);
      && run.calls == run.sleeps == (if attempt < maxRetries then maxRetries else attempt)
      && (forall i :: attempt <= i < maxRetries ==> provider(q, i).Fail?)
      && (attempt < maxRetries ==> !SleepRefused(sleepTime))
    decreases maxRetries - attempt
  {
    if attempt < maxRetries {
      RunFromFailure(q, provider, attempt + 1, maxRetries, sleepTime);
    }
  }

  /**
   * The sleep exception is raised by the first attempt that fails when the
   * sleep time is refused: the loop stops after that call, which is not
   * followed by a sleep.
   */
  lemma {:induction false} RunFromSleepRejected(q: Query, provider: Provider, attempt: nat, maxRetries: int, sleepTime: real)
    requires RunFrom(q, provider, attempt, maxRetries, sleepTime).result == SleepRejected
    ensures var run := RunFrom(q, provider, attempt, maxRetries, sleepTime);
      && SleepRefused(sleepTime) && attempt < maxRetries
      && provider(q, attempt).Fail?
      && run.calls == attempt + 1 && run.sleeps == attempt
  {
    RunFromNoRejection(q, provider, attempt, maxRetries, sleepTime);
  }

  /** A sleep time `time.sleep` accepts is never rejected. */
  lemma {:induction false} RunFromNoRejection(q: Query, provider: Provider, attempt: nat, maxRetries: int, sleepTime: real)
    ensures !SleepRefused(sleepTime) ==> RunFrom(q, provider, attempt, maxRetries, sleepTime).result != SleepRejected
    decreases maxRetries - attempt
  {
    if attempt < maxRetries && !SleepRefused(sleepTime) {
      RunFromNoRejection(q, provider, attempt + 1, maxRetries, sleepTime);
    }
  }

  /** Conversely, the first attempt that does not raise decides the download. */
  lemma {:induction false} RunFromFirstOk(q: Query, provider: Provider, attempt: nat, maxRetries: int, sleepTime: real, k: nat)
    requires attempt <= k < maxRetries && provider(q, k).Ok?
    requires forall i :: attempt <= i < k ==> provider(q, i).Fail?
    requires k == attempt || !SleepRefused(sleepTime)
    ensures RunFrom(q, provider, attempt, maxRetries, sleepTime) == RetryRun(Downloaded(provider(q, k).value), k + 1, k)
    decreases k - attempt
  {
    if attempt < k {
      RunFromFirstOk(q, provider, attempt + 1, maxRetries, sleepTime, k);
    }
  }

  /**
   * Conversely, when every remaining attempt raises, the download fails
   * after using up the budget, or after the first call when the sleep time
   * is refused.
   */
  lemma {:induction false} RunFromAllFail(q: Query, provider: Provider, attempt: nat, maxRetries: int, sleepTime: real)
    requires forall i :: attempt <= i < maxRetries ==> provider(q, i).Fail?
    ensures var n := if attempt < maxRetries then maxRetries else attempt;
      RunFrom(q, provider, attempt, maxRetries, sleepTime)
        == if attempt < maxRetries && SleepRefused(sleepTime) then RetryRun(SleepRejected, attempt + 1, attempt)
           else RetryRun(DownloadFailure, n, n)
    decreases maxRetries - attempt
  {
    if attempt < maxRetries && !SleepRefused(sleepTime) {
      RunFromAllFail(q, provider, attempt + 1, maxRetries, sleepTime);
    }
  }

  /**
   * With a sleep time `time.sleep` accepts the download succeeds exactly
   * when some attempt within the budget does not raise; with a refused
   * one, exactly when the first attempt does not raise.
   */
  lemma RunSucceedsIff(q: Query, provider: Provider, maxRetries: int, sleepTime: real)
    ensures !SleepRefused(sleepTime) ==>
      (Run(q, provider, maxRetries, sleepTime).result.Downloaded? <==>
       exists i :: 0 <= i < maxRetries && provider(q, i).Ok?)
    ensures SleepRefused(sleepTime) ==>
      (Run(q, provider, maxRetries, sleepTime).result.Downloaded? <==> 0 < maxRetries && provider(q, 0).Ok?)
  {
    var run := Run(q, provider, maxRetries, sleepTime);
    if run.result.Downloaded? {
      RunFromSuccess(q, provider, 0, maxRetries, sleepTime);
      assert provider(q, run.calls - 1).Ok?;
    } else if run.result.DownloadFailure? {
      RunFromFailure(q, provider, 0, maxRetries, sleepTime);
    } else {
      RunFromSleepRejected(q, provider, 0, maxRetries, sleepTime);
    }
  }

  /**
   * Every call that raised was followed by a sleep, except a call whose
   * sleep was rejected; the successful call is not followed by one.
   */
  lemma RunSleepsCountFailures(q: Query, provider: Provider, maxRetries: int, sleepTime: real)
    ensures var run := Run(q, provider, maxRetries, sleepTime);
      run.sleeps == run.calls - (if run.result.DownloadFailure? then 0 else 1)
  {
    var run := Run(q, provider, maxRetries, sleepTime);
    if run.result.Downloaded? {
      RunFromSuccess(q, provider, 0, maxRetries, sleepTime);
    } else if run.result.DownloadFailure? {
      RunFromFailure(q, provider, 0, maxRetries, sleepTime);
    } else {
      RunFromSleepRejected(q, provider, 0, maxRetries, sleepTime);
    }
  }

  /**
   * A service that raises twice and then answers, with five attempts
   * allowed, is answered on the third call when `time.sleep` accepts the
   * sleep time; otherwise the first sleep raises.
   */
  lemma RecoversAfterTwoFailures(q: Query, provider: Provider, table: seq<Feature>, sleepTime: real)
    requires provider(q, 0) == Fail && provider(q, 1) == Fail && provider(q, 2) == Ok(table)
    ensures Run(q, provider, 5, sleepTime)
      == if SleepRefused(sleepTime) then RetryRun(SleepRejected, 1, 0) else RetryRun(Downloaded(table), 3, 2)
  {
    if !SleepRefused(sleepTime) {
      RunFromFirstOk(q, provider, 0, 5, sleepTime, 2);
    }
  }

  /**
   * A service that always raises, with three attempts allowed, fails after
   * exactly three calls when `time.sleep` accepts the sleep time; otherwise
   * the first sleep raises.
   */
  lemma FailsAfterThreeFailures(q: Query, provider: Provider, sleepTime: real)
    requires forall i :: provider(q, i) == Fail
    ensures Run(q, provider, 3, sleepTime)
      == if SleepRefused(sleepTime) then RetryRun(SleepRejected, 1, 0) else RetryRun(DownloadFailure, 3, 3)
  {
    RunFromAllFail(q, provider, 0, 3, sleepTime);
  }

  /** `DataDownloader`: the point, the search distance and the retry settings of one location. */
  class DataDownloader {
    const latitude: real
    const longitude: real
    const dist: int
    const maxRetries: int
    const sleepTime: real

    constructor (latitude: real, longitude: real, dist: int := 1000, maxRetries: int := 5, sleepTime: real := 5.0)
      ensures this.latitude == latitude && this.longitude == longitude
      ensures this.dist == dist && this.maxRetries == maxRetries && this.sleepTime == sleepTime
    {
      this.latitude := latitude;
      this.longitude := longitude;
      this.dist := dist;
      this.maxRetries := maxRetries;
      this.sleepTime := sleepTime;
    }

    /** The query sent for a tag filter: this downloader's point and distance. */
    function QueryFor(tag: Tag): Query
    {
      Query(latitude, longitude, tag, dist)
    }

    /** The retrying download of one tag filter, as a value. */
    function Retrieve(tag: Tag, provider: Provider): RetryRun
    {
      Run(QueryFor(tag), provider, maxRetries, sleepTime)
    }

    /**
     * `download_with_retry`: call the service up to `maxRetries` times,
     * return the first table it answers with, sleep `sleepTime` seconds
     * after every attempt that raises, and raise once the attempts are
     * used up; a refused sleep time makes the first sleep raise instead.
     * `calls`, `sleeps` and `waited` (seconds slept) are ghost counters.
     */
    method DownloadWithRetry(tag: Tag, provider: Provider)
      returns (r: DownloadResult, ghost calls: nat, ghost sleeps: nat, ghost waited: real)
      ensures r == Retrieve(tag, provider).result
      ensures calls == Retrieve(tag, provider).calls && sleeps == Retrieve(tag, provider).sleeps
      ensures waited == sleeps as real * sleepTime
    {
      var q := QueryFor(tag);
      calls, sleeps, waited := 0, 0, 0.0;
      var attempt: nat := 0;
      while attempt < maxRetries
        invariant calls == attempt && sleeps == attempt && waited == sleeps as real * sleepTime
        invariant RunFrom(q, provider, attempt, maxRetries, sleepTime) == Run(q, provider, maxRetries, sleepTime)
        decreases maxRetries - attempt
      {
        calls := calls + 1;
        var outcome := provider(q, attempt);
        if outcome.Ok? {
          return Downloaded(outcome.value), calls, sleeps, waited;
        }
        if SleepRefused(sleepTime) {
          return SleepRejected, calls, sleeps, waited;
        }
        sleeps := sleeps + 1;
        waited := waited + sleepTime;
        attempt := attempt + 1;
      }
      r := DownloadFailure;
    }
  }
}
