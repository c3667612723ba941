/** Whole runs of the dispatcher: a request whose every attempt fails, a retry
    that waits for the network, and the interplay of invalidation with retries. */
module RetryLoop {
  import opened Optionals
  import opened UrlErrors
  import opened AutoRetry
  import opened Requests
  import opened Dispatching

  /** Every failure of request `id` with `err` is retryable except for its count:
      the network is up, the request can be sent, `err` is no cancellation and no
      handler vetoes it, and the app state allows retrying. */
  ghost predicate RetryFriendly(d: Dispatcher, id: RequestId, err: Error, backgrounded: bool)
  {
    && id in d.requests
    && d.networkStatus != NotReachable
    && d.requests[id].component.Some?
    && !IsCancelled(err)
    && !(d.requests[id].autoRetryConfiguration.failOnErrorHandler.Some? &&
         d.requests[id].autoRetryConfiguration.failOnErrorHandler.value(err))
    && (!backgrounded || d.requests[id].autoRetryConfiguration.enableBackgroundRetry)
  }

  /** The transport failing with `err` and no response object. */
  function FailedWith(err: Error): TransportOutcome
  {
    TransportOutcome(false, Some(err))
  }

  /** The run in which task `task` and every later attempt of its request fail with
      `err`, each scheduled retry timer firing in turn, until no retry is asked for. */
  function FailEveryAttempt(d: Dispatcher, task: TaskId, err: Error, backgrounded: bool): (s: Step)
    requires Valid(d) && task in d.inFlight
    requires RetryFriendly(d, d.inFlight[task].request, err, backgrounded)
    requires d.requests[d.inFlight[task].request].retryCount
             <= d.requests[d.inFlight[task].request].autoRetryConfiguration.maxRetryCount + 1
    ensures Valid(s.state) && s.state.requests.Keys == d.requests.Keys
    decreases d.requests[d.inFlight[task].request].autoRetryConfiguration.maxRetryCount + 1
              - d.requests[d.inFlight[task].request].retryCount
  {
    var id := d.inFlight[task].request;
    var s1 := TaskCompleted(d, task, FailedWith(err), backgrounded);
    if Classify(d.requests[id], Some(err), backgrounded).RetryAfter? then
      var s2 := RetryRequest(s1.state, id);
      var s3 := FailEveryAttempt(s2.state, s1.state.nextTask, err, backgrounded);
      Step(s3.state, s1.effects + s2.effects + s3.effects)
    else
      s1
  }

  /** Trace `es` holds, about request `id`, exactly this many submissions, retry
      requests, failure reports and completions. */
  ghost predicate Tallies(es: seq<Effect>, id: RequestId, submits: int, retries: int, failures: int, completions: int)
  {
    && Count(es, id, SubmitKind) == submits
    && Count(es, id, RetryKind) == retries
    && Count(es, id, FailureKind) == failures
    && Count(es, id, CompletionKind) == completions
  }

  lemma TalliesAppend(a: seq<Effect>, b: seq<Effect>, id: RequestId,
                      s: int, r: int, f: int, c: int, s': int, r': int, f': int, c': int)
    requires Tallies(a, id, s, r, f, c) && Tallies(b, id, s', r', f', c')
    ensures Tallies(a + b, id, s + s', r + r', f + f', c + c')
  {
    CountAppend(a, b, id, SubmitKind);
    CountAppend(a, b, id, RetryKind);
    CountAppend(a, b, id, FailureKind);
    CountAppend(a, b, id, CompletionKind);
  }

  /** 1 when the handler is installed, else 0. */
  function Once(h: Option<Closure>): nat
  {
    if h.Some? then 1 else 0
  }

  lemma TalliesOfCalls(id: RequestId, r: Request, error: Option<Error>)
    ensures Tallies(FailureCall(id, r, error), id, 0, 0, Once(r.failureHandler), 0)
    ensures Tallies(CentralProcessCompletion(id, r), id, 0, 0, 0, Once(r.completionHandler))
  {
    var f := FailureCall(id, r, error);
    var c := CentralProcessCompletion(id, r);
    if f != [] {
      CountSingle(f[0]);
    }
    if c != [] {
      CountSingle(c[0]);
    }
  }

  /** A retryable failure: one retry request and one completion (if installed);
      the request keeps its count and everything that makes it retry-friendly. */
  lemma RetryableFailure(d: Dispatcher, task: TaskId, err: Error, backgrounded: bool)
    requires Valid(d) && task in d.inFlight
    requires RetryFriendly(d, d.inFlight[task].request, err, backgrounded)
    requires Retryable(d.requests[d.inFlight[task].request], Some(err), backgrounded)
    ensures var id := d.inFlight[task].request;
            var r := d.requests[id];
            var s1 := TaskCompleted(d, task, FailedWith(err), backgrounded);
            && s1.state.requests.Keys == d.requests.Keys
            && RetryFriendly(s1.state, id, err, backgrounded)
            && s1.state.requests[id].retryCount == r.retryCount
            && s1.state.requests[id].SameDescription(r)
            && Tallies(s1.effects, id, 0, 1, 0, Once(r.completionHandler))
  {
    var id := d.inFlight[task].request;
    var r := d.requests[id];
    var s1 := TaskCompleted(d, task, FailedWith(err), backgrounded);
    var retry := [ScheduleRetry(id, r.autoRetryConfiguration.breakTime)];
    var completion := CentralProcessCompletion(id, r);
    assert s1.effects == retry + completion;
    CountSingle(retry[0]);
    TalliesOfCalls(id, r, None);
    TalliesAppend(retry, completion, id, 0, 1, 0, 0, 0, 0, 0, Once(r.completionHandler));
  }

  /** A retry timer firing while the network is up: one new submission, under the
      next task identifier, and the count up by one. */
  lemma TimerFiresOnline(d: Dispatcher, id: RequestId, err: Error, backgrounded: bool)
    requires Valid(d) && RetryFriendly(d, id, err, backgrounded)
    ensures var s2 := RetryRequest(d, id);
            && Valid(s2.state)
            && d.nextTask in s2.state.inFlight
            && s2.state.inFlight[d.nextTask].request == id
            && s2.state.requests.Keys == d.requests.Keys
            && RetryFriendly(s2.state, id, err, backgrounded)
            && s2.state.requests[id].retryCount == d.requests[id].retryCount + 1
            && s2.state.requests[id].SameDescription(d.requests[id])
            && Tallies(s2.effects, id, 1, 0, 0, 0)
  {
    CountSingle(RetryRequest(d, id).effects[0]);
  }

  /** One retryable failure, then its timer firing: one retry request, one
      completion (if installed), one new submission, count up by one. */
  lemma FailedAttemptRetried(d: Dispatcher, task: TaskId, err: Error, backgrounded: bool)
    requires Valid(d) && task in d.inFlight
    requires RetryFriendly(d, d.inFlight[task].request, err, backgrounded)
    requires Retryable(d.requests[d.inFlight[task].request], Some(err), backgrounded)
    ensures var id := d.inFlight[task].request;
            var r := d.requests[id];
            var s1 := TaskCompleted(d, task, FailedWith(err), backgrounded);
            var s2 := RetryRequest(s1.state, id);
            && Valid(s2.state)
            && s1.state.nextTask in s2.state.inFlight
            && s2.state.inFlight[s1.state.nextTask].request == id
            && s2.state.requests.Keys == d.requests.Keys
            && RetryFriendly(s2.state, id, err, backgrounded)
            && s2.state.requests[id].retryCount == r.retryCount + 1
            && s2.state.requests[id].SameDescription(r)
            && Tallies(s1.effects + s2.effects, id, 1, 1, 0, Once(r.completionHandler))
  {
    var id := d.inFlight[task].request;
    var r := d.requests[id];
    var s1 := TaskCompleted(d, task, FailedWith(err), backgrounded);
    RetryableFailure(d, task, err, backgrounded);
    TimerFiresOnline(s1.state, id, err, backgrounded);
    TalliesAppend(s1.effects, RetryRequest(s1.state, id).effects, id,
                  0, 1, 0, Once(r.completionHandler), 1, 0, 0, 0);
  }

  /** The failure that is not retried: one report and one completion (if
      installed), and the request ends untracked and failed. */
  lemma FailedAttemptFinal(d: Dispatcher, task: TaskId, err: Error, backgrounded: bool)
    requires Valid(d) && task in d.inFlight
    requires !Retryable(d.requests[d.inFlight[task].request], Some(err), backgrounded)
    ensures var id := d.inFlight[task].request;
            var r := d.requests[id];
            var s1 := TaskCompleted(d, task, FailedWith(err), backgrounded);
            && id !in s1.state.runningRequests
            && s1.state.requests[id].status == Failure
            && s1.state.requests[id].retryCount == r.retryCount
            && Tallies(s1.effects, id, 0, 0, Once(r.failureHandler), Once(r.completionHandler))
  {
    var id := d.inFlight[task].request;
    var r := d.requests[id];
    TalliesOfCalls(id, r, Some(err));
    TalliesAppend(FailureCall(id, r, Some(err)), CentralProcessCompletion(id, r), id,
                  0, 0, Once(r.failureHandler), 0, 0, 0, 0, Once(r.completionHandler));
  }

  /** How a run that started at request record `r` ended: request `id` untracked,
      failed, its count one past the maximum, after `maxRetryCount + 1 - k`
      submissions and retry requests (`k` the starting count), one failure report
      and a completion per attempt. */
  ghost predicate EndsFailed(s: Step, id: RequestId, r: Request)
  {
    var max := r.autoRetryConfiguration.maxRetryCount;
    && id in s.state.requests
    && id !in s.state.runningRequests
    && s.state.requests[id].status == Failure
    && s.state.requests[id].retryCount == max + 1
    && Tallies(s.effects, id, max + 1 - r.retryCount, max + 1 - r.retryCount, Once(r.failureHandler),
               if r.completionHandler.Some? then max + 2 - r.retryCount else 0)
  }

  /** One more retried attempt in front of a run that ends failed. */
  lemma PrependRetriedAttempt(prefix: seq<Effect>, rest: Step, id: RequestId, r: Request, r2: Request)
    requires Tallies(prefix, id, 1, 1, 0, Once(r.completionHandler))
    requires EndsFailed(rest, id, r2)
    requires r2.retryCount == r.retryCount + 1 && r2.SameDescription(r)
    ensures EndsFailed(Step(rest.state, prefix + rest.effects), id, r)
  {
    var max := r.autoRetryConfiguration.maxRetryCount;
    TalliesAppend(prefix, rest.effects, id, 1, 1, 0, Once(r.completionHandler),
                  max - r.retryCount, max - r.retryCount, Once(r.failureHandler),
                  if r.completionHandler.Some? then max + 1 - r.retryCount else 0);
  }

  /** Starting from an attempt numbered `k` (its retry count), a run of failures
      asks for a retry and resubmits exactly `maxRetryCount + 1 - k` times, then
      reports the failure once and stops: the request ends untracked and failed
      with count `maxRetryCount + 1`. The completion handler runs after every
      attempt, retried or not. */
  lemma {:induction false} FailEveryAttemptCounts(d: Dispatcher, task: TaskId, err: Error, backgrounded: bool)
    requires Valid(d) && task in d.inFlight
    requires RetryFriendly(d, d.inFlight[task].request, err, backgrounded)
    requires d.requests[d.inFlight[task].request].retryCount
             <= d.requests[d.inFlight[task].request].autoRetryConfiguration.maxRetryCount + 1
    ensures EndsFailed(FailEveryAttempt(d, task, err, backgrounded),
                       d.inFlight[task].request, d.requests[d.inFlight[task].request])
    decreases d.requests[d.inFlight[task].request].autoRetryConfiguration.maxRetryCount + 1
              - d.requests[d.inFlight[task].request].retryCount
  {
    var id := d.inFlight[task].request;
    var r := d.requests[id];
    ClassifyRetriesExactlyRetryable(r, Some(err), backgrounded);
    var s1 := TaskCompleted(d, task, FailedWith(err), backgrounded);
    if Retryable(r, Some(err), backgrounded) {
      FailedAttemptRetried(d, task, err, backgrounded);
      var s2 := RetryRequest(s1.state, id);
      var s3 := FailEveryAttempt(s2.state, s1.state.nextTask, err, backgrounded);
      assert FailEveryAttempt(d, task, err, backgrounded) == Step(s3.state, s1.effects + s2.effects + s3.effects);
      FailEveryAttemptCounts(s2.state, s1.state.nextTask, err, backgrounded);
      PrependRetriedAttempt(s1.effects + s2.effects, s3, id, r, s2.state.requests[id]);
    } else {
      FailedAttemptFinal(d, task, err, backgrounded);
    }
  }

  /** The retry ceiling end to end: a fresh request with `maxRetryCount >= 0`,
      dispatched while the network is up and failing every time with a retryable
      error, is submitted `maxRetryCount + 2` times in all (first attempt plus
      `maxRetryCount + 1` retries) before its single failure report, and its
      completion handler runs once per submission. */
  lemma DispatchFailingEveryTime(d: Dispatcher, id: RequestId, err: Error, backgrounded: bool)
    requires Valid(d) && RetryFriendly(d, id, err, backgrounded)
    requires d.requests[id].retryCount == 0 && d.requests[id].autoRetryConfiguration.maxRetryCount >= 0
    ensures var r := d.requests[id];
            var max := r.autoRetryConfiguration.maxRetryCount;
            var s1 := Dispatch(d, id);
            var s2 := FailEveryAttempt(s1.state, d.nextTask, err, backgrounded);
            && Tallies(s1.effects + s2.effects, id, max + 2, max + 1, Once(r.failureHandler),
                       if r.completionHandler.Some? then max + 2 else 0)
            && s2.state.requests[id].status == Failure
            && s2.state.requests[id].retryCount == max + 1
            && id !in s2.state.runningRequests
  {
    var r := d.requests[id];
    var s1 := Dispatch(d, id);
    DispatchedOnce(d, id);
    FailEveryAttemptCounts(s1.state, d.nextTask, err, backgrounded);
    AfterFirstSubmission(s1.effects, FailEveryAttempt(s1.state, d.nextTask, err, backgrounded), id, r,
                         s1.state.requests[id]);
  }

  /** Dispatching a retry-friendly request sends it once, under the next task
      identifier, and keeps it retry-friendly. */
  lemma DispatchedOnce(d: Dispatcher, id: RequestId)
    requires Valid(d) && id in d.requests && d.networkStatus != NotReachable
    requires d.requests[id].component.Some?
    ensures var s1 := Dispatch(d, id);
            && Tallies(s1.effects, id, 1, 0, 0, 0)
            && d.nextTask in s1.state.inFlight && s1.state.inFlight[d.nextTask].request == id
            && s1.state.requests[id].SameDescription(d.requests[id])
            && s1.state.requests[id].retryCount == d.requests[id].retryCount
            && s1.state.networkStatus == d.networkStatus
  {
    CountSingle(Dispatch(d, id).effects[0]);
  }

  /** The first submission in front of a run that ends failed. */
  lemma AfterFirstSubmission(first: seq<Effect>, rest: Step, id: RequestId, r: Request, r1: Request)
    requires Tallies(first, id, 1, 0, 0, 0)
    requires EndsFailed(rest, id, r1)
    requires r1.retryCount == r.retryCount == 0 && r1.SameDescription(r)
    ensures var max := r.autoRetryConfiguration.maxRetryCount;
            && Tallies(first + rest.effects, id, max + 2, max + 1, Once(r.failureHandler),
                       if r.completionHandler.Some? then max + 2 else 0)
            && rest.state.requests[id].status == Failure
            && rest.state.requests[id].retryCount == max + 1
            && id !in rest.state.runningRequests
  {
    var max := r.autoRetryConfiguration.maxRetryCount;
    TalliesAppend(first, rest.effects, id, 1, 0, 0, 0, max + 1, max + 1, Once(r.failureHandler),
                  if r.completionHandler.Some? then max + 2 else 0);
  }

  /** A failure handler that vetoes the error ends the request at its first
      failure, whatever its count: no retry is asked for. */
  lemma VetoFailsAtOnce(d: Dispatcher, task: TaskId, err: Error, backgrounded: bool)
    requires Valid(d) && task in d.inFlight
    requires var cfg := d.requests[d.inFlight[task].request].autoRetryConfiguration;
             cfg.failOnErrorHandler.Some? && cfg.failOnErrorHandler.value(err)
    ensures var id := d.inFlight[task].request;
            var r := d.requests[id];
            var s := TaskCompleted(d, task, FailedWith(err), backgrounded);
            && Count(s.effects, id, RetryKind) == 0
            && Count(s.effects, id, FailureKind) == (if r.failureHandler.Some? then 1 else 0)
            && s.state.requests[id].status == Failure
  {
    var id := d.inFlight[task].request;
    var r := d.requests[id];
    var report := FailureCall(id, r, Some(err));
    var completion := CentralProcessCompletion(id, r);
    if report != [] {
      CountSingle(report[0]);
    }
    if completion != [] {
      CountSingle(completion[0]);
    }
    CountAppendAll(report, completion);
  }

  /** A retry timer firing while offline parks the request; the network coming back
      then retries it exactly once, raising its count by one. */
  lemma OfflineRetryResumesOnReconnect(d: Dispatcher, id: RequestId, raw: int, order: seq<RequestId>)
    requires Valid(d) && id in d.requests && d.networkStatus == NotReachable
    requires raw == 1 || raw == 2
    requires IsEnumeration(order, RetryRequest(d, id).state.runningRequests)
    ensures var parked := RetryRequest(d, id);
            var woken := ReachabilityChanged(parked.state, raw, order);
            && parked.effects == []
            && parked.state.requests[id].retryCount == d.requests[id].retryCount
            && woken.state.requests[id].retryCount == d.requests[id].retryCount + 1
            && Count(woken.effects, id, SubmitKind) == (if d.requests[id].component.Some? then 1 else 0)
  {
    var parked := RetryRequest(d, id);
    ReachableWakesPending(parked.state, raw, order, id);
  }

  /** Invalidation sets the count to the maximum, but the ceiling check is "count
      exceeds the maximum", and the transport task is not cancelled: when it later
      fails with a retryable error, one more retry is still asked for. */
  lemma InvalidatedRequestStillRetries(d: Dispatcher, order: seq<RequestId>, task: TaskId, err: Error)
    requires Valid(d) && IsEnumeration(order, d.runningRequests) && task in d.inFlight
    requires d.inFlight[task].request in d.runningRequests
    requires !IsCancelled(err)
    requires var cfg := d.requests[d.inFlight[task].request].autoRetryConfiguration;
             !(cfg.failOnErrorHandler.Some? && cfg.failOnErrorHandler.value(err))
    ensures var id := d.inFlight[task].request;
            var invalidated := InvalidateAllRunningRequests(d, order);
            var s := TaskCompleted(invalidated.state, task, FailedWith(err), false);
            && invalidated.state.requests[id].status == Failure
            && invalidated.state.requests[id].retryCount
               == d.requests[id].autoRetryConfiguration.maxRetryCount
            && Count(s.effects, id, RetryKind) == 1
  {
    var id := d.inFlight[task].request;
    InvalidateAllFor(d, order, id);
    var invalidated := InvalidateAllRunningRequests(d, order);
    var r := invalidated.state.requests[id];
    var retry := [ScheduleRetry(id, r.autoRetryConfiguration.breakTime)];
    var completion := CentralProcessCompletion(id, r);
    CountSingle(retry[0]);
    if completion != [] {
      CountSingle(completion[0]);
    }
    CountAppendAll(retry, completion);
  }
}
