# RequestKit auto-retry dispatcher, modelled in Dafny

RequestKit is an iOS request layer over an HTTP transport. This project models its
`Dispatcher` as a functional state machine, together with the value types it runs on:
`Request`, `AutoRetryConfiguration` and `RequestData`. The `Dispatcher` decides when a
request is submitted, retried, parked until the network returns, or failed.

The model works as follows:

- The dispatcher state is a datatype holding:
  - the network status;
  - the set of tracked requests (`runningRequests`);
  - the request records, keyed by a request identity;
  - the data- and upload-task progress maps;
  - the transport tasks in flight.
- Each event is a pure function. It returns the new state plus the sequence of effects the
  Swift code would perform. The events are:
  - `dispatch`;
  - a transport task finishing;
  - a retry timer firing (`retryRequest`);
  - a reachability change (`changedReachabilityStatus`, `retryRequests`);
  - bulk teardown (`invalidateAllRunningRequests`).
- The effects are:
  - a submission to the transport;
  - a retry timer scheduled after `breakTime`;
  - a call of the failure handler;
  - a call of the completion handler.
- A handler effect is emitted only when that handler is installed, as with Swift's
  `handler?()`.
- Two inputs from the operating system are explicit arguments:
  - whether the app is in the background;
  - the order in which an `NSMutableSet` is enumerated.

Modules:

- `Optionals`: `Option`.
- `UrlErrors`: an `NSError`: its domain, its code, and an opaque `userInfo` standing for the
  rest of the error. The veto handler sees all three, and so does the failure handler's
  effect. An error counts as cancelled exactly when the domain is `NSURLErrorDomain` and the
  code is -999.
- `AutoRetry`: the retry policy record and its defaulted initialiser.
- `Parameters`: `UploadData`, `Parameter` and the keyed `RequestData` dictionary.
- `Requests`: the `Request` record, its enums, fluent setters and lifecycle updates.
- `Dispatching`: the dispatcher state, its events and the failure classification. It also
  holds the per-request facts about the loops over the tracked set.
- `RetryLoop`: whole runs of events. These cover:
  - a request failing on every attempt until the retry ceiling stops it;
  - a retry parked offline and resumed on reconnection;
  - a veto by the error handler;
  - invalidation followed by a late transport failure.

Some behaviours a reader might expect are not what the code does; the model follows the
code:

- The completion handler runs after every transport outcome, including one that schedules
  a retry. It does not run only once per terminal outcome.
- The success handler is never called.
- The retry ceiling test is `retryCount > maxRetryCount`. A request that fails on every
  attempt is therefore submitted `maxRetryCount + 2` times, not `maxRetryCount + 1`.
- `invalidateAllRunningRequests` reports the failure with no error. It cancels no transport
  task and no timer. It sets the count to `maxRetryCount`, which the `>` test still lets
  through once more.
- The failure checks run in the code's order:
  1. the error handler's veto;
  2. the count ceiling or a cancellation;
  3. the background state.

  This order never changes the verdict: `Dispatching.ClassifyRetriesExactlyRetryable`
  shows the chain retries exactly when every check passes.
- In the retry path, reachability is looked at only when the retry timer fires. It is not
  looked at when a failure is classified. (`dispatch` itself also reads it, for
  `failWhenNotReachable`.)

## Model

| member | source | states |
|---|---|---|
| `AutoRetry.Init` | RequestKit/Source/AutoRetryConfiguration.swift:19-30 | every argument is stored unchanged in the field of the same name |
| `AutoRetry.DefaultConfiguration` | RequestKit/Source/AutoRetryConfiguration.swift:19-23 | the defaults are a 5 s break, 5 retries, background retry on, no failing when unreachable, no veto handler |
| `Parameters.LiteralInitialisersAgree` | RequestKit/Source/RequestData.swift:19-32 | the string, unicode-scalar and grapheme-cluster literal initialisers all build the same `Text` parameter holding the literal |
| `Parameters.EmptyHasNoKeys` | RequestKit/Source/RequestData.swift:40 | a new `RequestData` holds no parameter under any key |
| `Parameters.SetThenGet` | RequestKit/Source/RequestData.swift:42-50 | after storing a parameter, reading its key returns it; assigning nil removes the key; every other key reads as before |
| `Parameters.FromStringLiteral` | RequestKit/Source/RequestData.swift:19-22 | a string literal becomes a text parameter holding that string |
| `Parameters.FromUnicodeScalarLiteral` | RequestKit/Source/RequestData.swift:24-27 | a unicode-scalar literal becomes a text parameter holding that string |
| `Parameters.FromExtendedGraphemeClusterLiteral` | RequestKit/Source/RequestData.swift:29-32 | a grapheme-cluster literal becomes a text parameter holding that string |
| `Parameters.RequestData.Get` | RequestKit/Source/RequestData.swift:43-46 | the getter finds a parameter exactly for the keys present, and it is the one stored there |
| `Parameters.RequestData.Set` | RequestKit/Source/RequestData.swift:47-50 | after the setter the key reads as the new value (nil removes it); every other key reads as before; the key set gains or loses exactly that key |
| `Requests.Init` | RequestKit/Source/Request.swift:41-65 | a new request is waiting, has count 0, a data task type, the default session, no task and no handlers, and keeps its path, data, method, component and policy |
| `Requests.InitDefaults` | RequestKit/Source/Request.swift:41 | omitted arguments give a POST with a 5 s break and 5 retries |
| `Requests.Request.Progress` | RequestKit/Source/Request.swift:72-76 | installs the progress handler; every other field (other handlers, what to send, retry policy, lifecycle) is unchanged |
| `Requests.Request.OnSuccess` | RequestKit/Source/Request.swift:78-82 | installs the success handler; every other field (other handlers, what to send, retry policy, lifecycle) is unchanged |
| `Requests.Request.OnFailure` | RequestKit/Source/Request.swift:84-88 | installs the failure handler; every other field (other handlers, what to send, retry policy, lifecycle) is unchanged |
| `Requests.Request.OnCompletion` | RequestKit/Source/Request.swift:90-94 | installs the completion handler; every other field (other handlers, what to send, retry policy, lifecycle) is unchanged |
| `Requests.Request.AppendDefaultParameters` | RequestKit/Source/Request.swift:97-100 | the base request hands its parameters back unchanged |
| `Requests.Request.SetSessionTask` | RequestKit/Source/Request.swift:107-110 | stores the task; the status, count and request description are unchanged |
| `Requests.Request.UpdateStatus` | RequestKit/Source/Request.swift:117-120 | sets the status; the task, count and request description are unchanged |
| `Requests.Request.UpdateRetryCount` | RequestKit/Source/Request.swift:127-130 | sets the count; the status, task and request description are unchanged |
| `Dispatching.StatusFromRaw` | RequestKit/Source/Dispatcher.swift:22-27 | raw values -1, 0, 1 and 2 decode to the status with that raw value; every other value decodes to `Unknown` |
| `Dispatching.Init` | RequestKit/Source/Dispatcher.swift:33-34 | a new dispatcher has an unknown network status, tracks nothing, has no task in flight and no progress entry, and is well formed |
| `Dispatching.StatusRawRoundTrip` | RequestKit/Source/Dispatcher.swift:22-27 | decoding a status's raw value gives the status back |
| `Dispatching.FailureCall` | RequestKit/Source/Dispatcher.swift:157 | the failure handler is called once, with the error, exactly when one is installed; otherwise nothing is emitted |
| `Dispatching.CentralProcessCompletion` | RequestKit/Source/Dispatcher.swift:190-193 | the completion handler is called once exactly when one is installed; otherwise nothing is emitted |
| `Dispatching.DispatchForTask` | RequestKit/Source/Dispatcher.swift:358-401 | one submission under a fresh task identifier, recorded as in flight and stored in the request; a progress entry exists for the new task exactly when a progress handler is installed, in the map of the task's kind, holding that handler; every other progress entry and every other request is unchanged |
| `Dispatching.Dispatch` | RequestKit/Source/Dispatcher.swift:212-266 | failing fast when unreachable changes no state and reports failure (no error), then completion; otherwise the request is tracked and either submitted once as running (with a component) or marked failed with nothing sent (without one); its count is never touched |
| `Dispatching.ClassifyRetriesExactlyRetryable` | RequestKit/Source/Dispatcher.swift:155-179 | the ordered check chain asks for a retry exactly when there is no veto, attempts are left, the error is no cancellation and the app state allows it; a retry waits the configured break time |
| `Dispatching.Classify` | RequestKit/Source/Dispatcher.swift:155-179 | a veto, a count past the maximum, a cancellation, or backgrounding with background retry off each fail the request now; a retry always waits the configured break time |
| `Dispatching.CentralProcessSuccess` | RequestKit/Source/Dispatcher.swift:120-128 | the request is untracked and succeeded; its count and description are unchanged; no other request changes |
| `Dispatching.CentralProcessFailure` | RequestKit/Source/Dispatcher.swift:138-180 | the request is untracked and failed; exactly one retry timer is scheduled when the failure is retryable, otherwise the failure handler is told the error |
| `Dispatching.TaskCompleted` | RequestKit/Source/Dispatcher.swift:369-385 | a finished task leaves the in-flight map and its progress entry is removed, every other entry kept; success or failure is decided from the error and the response object; the completion handler runs after either path |
| `Dispatching.RetryRequest` | RequestKit/Source/Dispatcher.swift:321-333 | offline, the request is tracked as pending with its count and task unchanged and nothing is sent; online, its count goes up by exactly one and it is dispatched again |
| `Dispatching.RetryRequests` | RequestKit/Source/Dispatcher.swift:335-342 | the loop keeps the dispatcher well formed, its network status and its set of known request identities, and emits only submissions: no handler is called and no timer set |
| `Dispatching.RetryRequestsFor` | RequestKit/Source/Dispatcher.swift:335-342 | only tracked requests pending a retry are retried, each exactly once; every other request is left as it was and not submitted |
| `Dispatching.ChangedReachabilityStatus` | RequestKit/Source/Dispatcher.swift:97-110 | `Unknown` and `NotReachable` change nothing and emit nothing |
| `Dispatching.ReachabilityChanged` | RequestKit/Source/Dispatcher.swift:50-53 | the decoded status is recorded; a raw value other than 1 or 2 causes nothing else |
| `Dispatching.ReachableWakesPending` | RequestKit/Source/Dispatcher.swift:97-110 | WWAN or WiFi coming back retries every tracked pending request once (count plus one, one submission) and leaves every other request alone |
| `Dispatching.InvalidateAllRunningRequests` | RequestKit/Source/Dispatcher.swift:195-205 | nothing is tracked afterwards; the transport tasks in flight are left as they were |
| `Dispatching.InvalidateAllFor` | RequestKit/Source/Dispatcher.swift:195-205 | each tracked request ends failed with its count at the maximum and one failure report with no error; untracked requests are untouched; only nil-error failure reports are emitted |
| `RetryLoop.FailedAttemptRetried` | RequestKit/Source/Dispatcher.swift:321-333 | a retryable failure followed by its timer gives one retry request, one completion, one new submission and a count one higher |
| `RetryLoop.FailedAttemptFinal` | RequestKit/Source/Dispatcher.swift:155-173 | a failure that is not retried ends the request untracked and failed, with one failure report and one completion |
| `RetryLoop.FailEveryAttemptCounts` | RequestKit/Source/Dispatcher.swift:161 | from count `k`, failing on every attempt gives `maxRetryCount + 1 - k` retries and submissions, then one failure report; the request ends failed at count `maxRetryCount + 1`, with a completion after every attempt |
| `RetryLoop.DispatchFailingEveryTime` | RequestKit/Source/Dispatcher.swift:212-333 | a new request failing on every attempt is submitted `maxRetryCount + 2` times and retried `maxRetryCount + 1` times before its single failure report, and completes once per submission |
| `RetryLoop.VetoFailsAtOnce` | RequestKit/Source/Dispatcher.swift:155-159 | an error the veto handler accepts fails the request at once whatever its count: no retry, one failure report |
| `RetryLoop.OfflineRetryResumesOnReconnect` | RequestKit/Source/Dispatcher.swift:323-327 | a timer firing offline parks the request without touching its count; the network coming back retries it once, raising the count by one |
| `RetryLoop.InvalidatedRequestStillRetries` | RequestKit/Source/Dispatcher.swift:199 | after invalidation the count equals the maximum, and a later retryable transport failure of the still-running task asks for one more retry |

## Left out

- Building the URL request, the multipart upload body and task `resume` are left out. They
  are AFNetworking and Foundation calls, so a submission is an effect carrying the request,
  task identifier, session kind and task kind.
- The `Default`/`Background` session-manager choice and the background-task
  begin/end around it are left out. Both session managers are taken to exist, and the
  transport always creates a task. So the `sessionManager == nil` and `task == nil` branches
  are not modelled.
- `Dispatching.DispatchForTask`: task identifiers come from one counter shared by both
  sessions, so every new task gets a fresh progress-map key. Real sessions number their tasks
  independently. A default-session and a background-session data task can then share a number,
  and so share one key of `dataTaskProgressDictionary`. The second insert overwrites the first
  task's progress handler. The model does not show this collision.
- `Dispatching.TaskCompleted`: for the same reason, the model's "every other progress entry is
  kept" relies on unique task identifiers. In the code, one task completing removes the entry
  of a task in the other session that has the same number.
- `Dispatching.RetryRequest`: `retryCount` and `maxRetryCount` are unbounded integers. Swift's
  `retryCount + 1` traps at `Int.max`. With `maxRetryCount == Int.max` the code never passes the
  `>` ceiling, and it crashes at the increment instead. The overflow trap is not modelled.
- `RetryLoop.FailEveryAttemptCounts`: for the same reason, it ends the request failed at count
  `maxRetryCount + 1` even when that is `Int.max + 1`, where the code would trap.
- `RetryLoop.DispatchFailingEveryTime`: the same overflow caveat applies when `maxRetryCount` is
  `Int.max`.
- `Parameters.SetThenGet`: keys are compared as sequences of characters. Swift `String` keys
  compare by canonical equivalence: `"caf\u{E9}"` and `"cafe\u{301}"` are one key in Swift and
  two here. So "every other key reads as before" holds in Swift only for keys that are not
  canonically equivalent to the one set.
- `Parameters.RequestData.Set`: the same key-equality caveat as `Parameters.SetThenGet`.
- `dispathForDownloadTask` is left out. It is transport I/O outside the retry state machine.
- `UIApplication` lifecycle and `handleEventsForBackgroundURLSession` are left out. The
  application state becomes the `backgrounded` argument of a transport outcome.
- `dispatch_after` timing and the conversion of `breakTime` to nanoseconds are left out. A
  retry timer is a `ScheduleRetry` effect, and its firing is a later call of `RetryRequest`.
- Float progress fractions and the progress callbacks themselves are left out, because they
  are floating point and driven by the transport. Only the progress maps are modelled.
- `absoluteUrlString` and the `NSURL` UTI/MIME extension are left out. They are
  CoreServices and Foundation calls.
- The reachability manager is left out. Its callback is the `ReachabilityChanged` event.
- Enumerating an `NSMutableSet` while it is mutated is modelled as iterating over a
  snapshot, in a given order.
- Logging (`RKLog`, `JELogAlert`) and the debug-only response-code log are left out.
- A missing component fails a debug `assert`. The release behaviour is modelled instead: the
  request is marked failed, stays tracked, and nothing is sent.
- The response object, HTTP response and error payload given to the failure handler are
  reduced to the request identity, the handler and the error.
