/** The dispatcher: a state machine over tracked requests, driven by dispatch,
    transport outcomes, retry timers, reachability changes and bulk invalidation.
    Every event is a pure function from the dispatcher state to the next state
    plus the effects it emits, in order. */
module Dispatching {
  import opened Optionals
  import opened UrlErrors
  import opened AutoRetry
  import opened Requests

  /** Reachability as reported by the monitor; raw values are the monitor's. */
  datatype NetworkStatus = Unknown | NotReachable | ViaWWAN | ViaWiFi
  {
    function RawValue(): int
    {
      match this
      case Unknown => -1
      case NotReachable => 0
      case ViaWWAN => 1
      case ViaWiFi => 2
    }
  }

  /** `NetworkStatus(rawValue: raw) ?? .Unknown`. */
  function StatusFromRaw(raw: int): (s: NetworkStatus)
    ensures raw in {-1, 0, 1, 2} ==> s.RawValue() == raw
    ensures raw !in {-1, 0, 1, 2} ==> s == Unknown
  {
    if raw == 0 then NotReachable
    else if raw == 1 then ViaWWAN
    else if raw == 2 then ViaWiFi
    else Unknown
  }

  /** Every status survives the trip through its raw value. */
  lemma StatusRawRoundTrip(s: NetworkStatus)
    ensures StatusFromRaw(s.RawValue()) == s
  {
  }

  /** Identity of a request object. */
  type RequestId = nat

  /** Which of the two submission paths created a transport task. */
  datatype TaskKind = DataTask | UploadTask

  function KindOf(t: TaskType): TaskKind
  {
    match t
    case Data => DataTask
    case Upload(_) => UploadTask
  }

  /** A transport task still owing its completion callback: whose it is, and which
      submission path (and so which progress map) it belongs to. */
  datatype Submission = Submission(request: RequestId, kind: TaskKind)

  /** What a transport task delivers: whether a response object arrived, and the error. */
  datatype TransportOutcome = TransportOutcome(hasObject: bool, error: Option<Error>)
  {
    /** The success path is taken only with no error and a response object. */
    predicate Succeeded()
    {
      error.None? && hasObject
    }
  }

  /** What the dispatcher does to the outside world. */
  datatype Effect =
    | Submit(request: RequestId, task: TaskId, session: SessionType, kind: TaskKind)
    | ScheduleRetry(request: RequestId, breakTime: real)
    | FailureCalled(request: RequestId, handler: Closure, error: Option<Error>)
    | CompletionCalled(request: RequestId, handler: Closure)

  datatype Dispatcher = Dispatcher(
    networkStatus: NetworkStatus,
    runningRequests: set<RequestId>,
    /** The request objects, by identity. */
    requests: map<RequestId, Request>,
    dataTaskProgress: map<TaskId, Closure>,
    uploadTaskProgress: map<TaskId, Closure>,
    /** Completion callbacks the transport still holds. */
    inFlight: map<TaskId, Submission>,
    /** The next task identifier the transport hands out. */
    nextTask: TaskId)

  /** A freshly initialised dispatcher that can see the given request objects. */
  function Init(requests: map<RequestId, Request>): (d: Dispatcher)
    ensures Valid(d)
    ensures d.networkStatus == Unknown && d.runningRequests == {}
    ensures d.requests == requests
    ensures d.inFlight == map[] && d.dataTaskProgress == map[] && d.uploadTaskProgress == map[]
  {
    Dispatcher(Unknown, {}, requests, map[], map[], map[], 0)
  }

  /** The state an event leaves behind and what it emitted. */
  datatype Step = Step(state: Dispatcher, effects: seq<Effect>)

  /** Well-formedness: no dangling identities, fresh task identifiers, and every
      progress entry belongs to a task whose completion is still pending, in the
      map of its own submission path. */
  ghost predicate Valid(d: Dispatcher)
  {
    && d.runningRequests <= d.requests.Keys
    && (forall t :: t in d.inFlight ==> d.inFlight[t].request in d.requests && t < d.nextTask)
    && (forall t :: t in d.dataTaskProgress ==> t in d.inFlight && d.inFlight[t].kind == DataTask)
    && (forall t :: t in d.uploadTaskProgress ==> t in d.inFlight && d.inFlight[t].kind == UploadTask)
  }

  /** `e` differs from `d` at most in request `id` (and in the transport bookkeeping). */
  ghost predicate OnlyTouches(d: Dispatcher, e: Dispatcher, id: RequestId)
  {
    && e.requests.Keys == d.requests.Keys
    && e.networkStatus == d.networkStatus
    && e.runningRequests - {id} == d.runningRequests - {id}
    && (forall o :: o in d.requests && o != id ==> e.requests[o] == d.requests[o])
  }

  /** `request.failureHandler?(...)`: emitted only when a handler is installed. */
  function FailureCall(id: RequestId, r: Request, error: Option<Error>): (es: seq<Effect>)
    ensures r.failureHandler.None? <==> es == []
    ensures r.failureHandler.Some? ==> es == [FailureCalled(id, r.failureHandler.value, error)]
  {
    match r.failureHandler
    case None => []
    case Some(h) => [FailureCalled(id, h, error)]
  }

  /** `centralProcessCompletion`: `request.completionHandler?()`. */
  function CentralProcessCompletion(id: RequestId, r: Request): (es: seq<Effect>)
    ensures r.completionHandler.None? <==> es == []
    ensures r.completionHandler.Some? ==> es == [CompletionCalled(id, r.completionHandler.value)]
  {
    match r.completionHandler
    case None => []
    case Some(h) => [CompletionCalled(id, h)]
  }

  /** The request must fail without being sent: it asks for that, and the network is down. */
  predicate FailsFast(d: Dispatcher, r: Request)
  {
    r.autoRetryConfiguration.failWhenNotReachable && d.networkStatus == NotReachable
  }

  /** `dispatchForDataTask` / `dispatchForUploadTask`: create a task, register its
      completion callback, record the progress handler under the task's identifier,
      store the task in the request and start it. The two paths differ only in the
      progress map they use. */
  function DispatchForTask(d: Dispatcher, id: RequestId, kind: TaskKind): (s: Step)
    requires Valid(d) && id in d.requests
    ensures Valid(s.state) && OnlyTouches(d, s.state, id)
    ensures s.state.runningRequests == d.runningRequests
    ensures s.effects == [Submit(id, d.nextTask, d.requests[id].sessionType, kind)]
    ensures d.nextTask !in d.inFlight
    ensures s.state.inFlight == d.inFlight[d.nextTask := Submission(id, kind)]
    ensures s.state.nextTask == d.nextTask + 1
    ensures s.state.requests[id].task == Some(d.nextTask)
    ensures s.state.requests[id].status == d.requests[id].status
    ensures s.state.requests[id].retryCount == d.requests[id].retryCount
    ensures s.state.requests[id].SameDescription(d.requests[id])
    ensures (d.nextTask in s.state.dataTaskProgress || d.nextTask in s.state.uploadTaskProgress)
            <==> d.requests[id].progressHandler.Some?
    ensures d.nextTask in s.state.dataTaskProgress ==>
              Some(s.state.dataTaskProgress[d.nextTask]) == d.requests[id].progressHandler
    ensures d.nextTask in s.state.uploadTaskProgress ==>
              Some(s.state.uploadTaskProgress[d.nextTask]) == d.requests[id].progressHandler
    ensures s.state.dataTaskProgress ==
              if kind.DataTask? && d.requests[id].progressHandler.Some?
              then d.dataTaskProgress[d.nextTask := d.requests[id].progressHandler.value]
              else d.dataTaskProgress
    ensures s.state.uploadTaskProgress ==
              if kind.UploadTask? && d.requests[id].progressHandler.Some?
              then d.uploadTaskProgress[d.nextTask := d.requests[id].progressHandler.value]
              else d.uploadTaskProgress
  {
    var r := d.requests[id];
    var t := d.nextTask;
    var dataProgress :=
      if kind.DataTask? && r.progressHandler.Some? then d.dataTaskProgress[t := r.progressHandler.value]
      else d.dataTaskProgress;
    var uploadProgress :=
      if kind.UploadTask? && r.progressHandler.Some? then d.uploadTaskProgress[t := r.progressHandler.value]
      else d.uploadTaskProgress;
    assert t !in d.dataTaskProgress && t !in d.uploadTaskProgress;
    Step(d.(requests := d.requests[id := r.SetSessionTask(Some(t))],
            dataTaskProgress := dataProgress,
            uploadTaskProgress := uploadProgress,
            inFlight := d.inFlight[t := Submission(id, kind)],
            nextTask := t + 1),
         [Submit(id, t, r.sessionType, kind)])
  }

  /** `dispatch`. When the request fails fast it reports failure (with no error)
      and completion and changes nothing; otherwise it is tracked, marked running
      and, when it has a component, submitted. A missing component trips a debug
      assertion; the release behaviour is kept: the request is marked failed, stays
      tracked, and nothing is sent. */
  function Dispatch(d: Dispatcher, id: RequestId): (s: Step)
    requires Valid(d) && id in d.requests
    ensures Valid(s.state) && OnlyTouches(d, s.state, id)
    ensures s.state.requests[id].retryCount == d.requests[id].retryCount
    ensures s.state.requests[id].SameDescription(d.requests[id])
    ensures FailsFast(d, d.requests[id]) ==>
              && s.state == d
              && s.effects == FailureCall(id, d.requests[id], None)
                              + CentralProcessCompletion(id, d.requests[id])
    ensures !FailsFast(d, d.requests[id]) ==>
              s.state.runningRequests == d.runningRequests + {id}
    ensures !FailsFast(d, d.requests[id]) && d.requests[id].component.None? ==>
              && s.state.requests[id].status == Failure
              && s.state.inFlight == d.inFlight
              && s.effects == []
    ensures !FailsFast(d, d.requests[id]) && d.requests[id].component.Some? ==>
              && s.state.requests[id].status == Running
              && s.state.requests[id].task == Some(d.nextTask)
              && s.state.inFlight ==
                 d.inFlight[d.nextTask := Submission(id, KindOf(d.requests[id].component.value.taskType))]
              && s.effects == [Submit(id, d.nextTask, d.requests[id].sessionType,
                                      KindOf(d.requests[id].component.value.taskType))]
  {
    var r := d.requests[id];
    if FailsFast(d, r) then
      Step(d, FailureCall(id, r, None) + CentralProcessCompletion(id, r))
    else
      var running := r.UpdateStatus(Running);
      var d1 := d.(runningRequests := d.runningRequests + {id}, requests := d.requests[id := running]);
      match running.component
      case None =>
        Step(d1.(requests := d1.requests[id := running.UpdateStatus(Failure)]), [])
      case Some(c) =>
        var c1 := c.(parameters := running.AppendDefaultParameters(c.parameters));
        var d2 := d1.(requests := d1.requests[id := running.(component := Some(c1))]);
        DispatchForTask(d2, id, KindOf(c1.taskType))
  }

  /** The outcome of classifying a failure. */
  datatype Decision = FailNow | RetryAfter(breakTime: real)

  /** The ordered failure checks of `centralProcessFailure`. */
  function Classify(r: Request, error: Option<Error>, backgrounded: bool): (v: Decision)
    ensures (error.Some? && r.autoRetryConfiguration.failOnErrorHandler.Some? &&
             r.autoRetryConfiguration.failOnErrorHandler.value(error.value)) ==> v.FailNow?
    ensures r.retryCount > r.autoRetryConfiguration.maxRetryCount ==> v.FailNow?
    ensures error.Some? && IsCancelled(error.value) ==> v.FailNow?
    ensures backgrounded && !r.autoRetryConfiguration.enableBackgroundRetry ==> v.FailNow?
    ensures v.RetryAfter? ==> v.breakTime == r.autoRetryConfiguration.breakTime
  {
    var cfg := r.autoRetryConfiguration;
    if error.Some? && cfg.failOnErrorHandler.Some? && cfg.failOnErrorHandler.value(error.value) then
      FailNow
    else if r.retryCount > cfg.maxRetryCount || (error.Some? && IsCancelled(error.value)) then
      FailNow
    else if backgrounded && !cfg.enableBackgroundRetry then
      FailNow
    else
      RetryAfter(cfg.breakTime)
  }

  /** A failure is worth another attempt: no veto from the error handler, attempts
      left, not a cancellation, and retrying is allowed in the current app state. */
  ghost predicate Retryable(r: Request, error: Option<Error>, backgrounded: bool)
  {
    var cfg := r.autoRetryConfiguration;
    && !(error.Some? && cfg.failOnErrorHandler.Some? && cfg.failOnErrorHandler.value(error.value))
    && r.retryCount <= cfg.maxRetryCount
    && !(error.Some? && IsCancelled(error.value))
    && (!backgrounded || cfg.enableBackgroundRetry)
  }

  /** The check chain retries exactly the retryable failures, always after the
      configured break time; its order does not change the verdict. */
  lemma ClassifyRetriesExactlyRetryable(r: Request, error: Option<Error>, backgrounded: bool)
    ensures Classify(r, error, backgrounded).RetryAfter? <==> Retryable(r, error, backgrounded)
    ensures Classify(r, error, backgrounded).RetryAfter? ==>
              Classify(r, error, backgrounded).breakTime == r.autoRetryConfiguration.breakTime
  {
  }

  /** `centralProcessSuccess`: untrack and mark succeeded. The success handler is
      not called. */
  function CentralProcessSuccess(d: Dispatcher, id: RequestId): (e: Dispatcher)
    requires id in d.requests
    ensures OnlyTouches(d, e, id) && e.inFlight == d.inFlight
    ensures e.dataTaskProgress == d.dataTaskProgress && e.uploadTaskProgress == d.uploadTaskProgress
    ensures e.nextTask == d.nextTask
    ensures id !in e.runningRequests
    ensures e.requests[id].status == Success
    ensures e.requests[id].retryCount == d.requests[id].retryCount
    ensures e.requests[id].SameDescription(d.requests[id])
  {
    d.(runningRequests := d.runningRequests - {id},
       requests := d.requests[id := d.requests[id].UpdateStatus(Success)])
  }

  /** `centralProcessFailure`: untrack, mark failed, then either report the failure
      or ask for one retry after the break time. */
  function CentralProcessFailure(d: Dispatcher, id: RequestId, error: Option<Error>, backgrounded: bool): (s: Step)
    requires id in d.requests
    ensures OnlyTouches(d, s.state, id) && s.state.inFlight == d.inFlight
    ensures s.state.dataTaskProgress == d.dataTaskProgress
    ensures s.state.uploadTaskProgress == d.uploadTaskProgress
    ensures s.state.nextTask == d.nextTask
    ensures id !in s.state.runningRequests
    ensures s.state.requests[id].status == Failure
    ensures s.state.requests[id].retryCount == d.requests[id].retryCount
    ensures s.state.requests[id].SameDescription(d.requests[id])
    ensures Retryable(d.requests[id], error, backgrounded) ==>
              s.effects == [ScheduleRetry(id, d.requests[id].autoRetryConfiguration.breakTime)]
    ensures !Retryable(d.requests[id], error, backgrounded) ==>
              s.effects == FailureCall(id, d.requests[id], error)
  {
    var r := d.requests[id].UpdateStatus(Failure);
    var e := d.(runningRequests := d.runningRequests - {id}, requests := d.requests[id := r]);
    ClassifyRetriesExactlyRetryable(r, error, backgrounded);
    match Classify(r, error, backgrounded)
    case FailNow => Step(e, FailureCall(id, r, error))
    case RetryAfter(t) => Step(e, [ScheduleRetry(id, t)])
  }

  /** The transport finishing task `task`: the completion callback registered at
      submission runs the success or failure path, drops the task's progress entry
      and then calls the completion handler, whatever the path decided. */
  function TaskCompleted(d: Dispatcher, task: TaskId, outcome: TransportOutcome, backgrounded: bool): (s: Step)
    requires Valid(d) && task in d.inFlight
    ensures Valid(s.state)
    ensures OnlyTouches(d, s.state, d.inFlight[task].request)
    ensures s.state.inFlight == d.inFlight - {task}
    ensures task !in s.state.dataTaskProgress && task !in s.state.uploadTaskProgress
    ensures s.state.dataTaskProgress == d.dataTaskProgress - {task}
    ensures s.state.uploadTaskProgress == d.uploadTaskProgress - {task}
    ensures s.state.nextTask == d.nextTask
    ensures var id := d.inFlight[task].request;
            && id !in s.state.runningRequests
            && s.state.requests[id].retryCount == d.requests[id].retryCount
            && s.state.requests[id].SameDescription(d.requests[id])
            && s.state.requests[id].task == d.requests[id].task
    ensures var id := d.inFlight[task].request;
            var r := d.requests[id];
            outcome.Succeeded() ==>
              && s.state.requests[id].status == Success
              && s.effects == CentralProcessCompletion(id, r)
    ensures var id := d.inFlight[task].request;
            var r := d.requests[id];
            !outcome.Succeeded() ==>
              && s.state.requests[id].status == Failure
              && s.effects ==
                 (if Retryable(r, outcome.error, backgrounded)
                  then [ScheduleRetry(id, r.autoRetryConfiguration.breakTime)]
                  else FailureCall(id, r, outcome.error))
                 + CentralProcessCompletion(id, r)
  {
    var sub := d.inFlight[task];
    var id := sub.request;
    assert sub.kind.UploadTask? ==> d.dataTaskProgress - {task} == d.dataTaskProgress;
    assert sub.kind.DataTask? ==> d.uploadTaskProgress - {task} == d.uploadTaskProgress;
    var d0 := d.(inFlight := d.inFlight - {task});
    var s1 :=
      if outcome.Succeeded() then Step(CentralProcessSuccess(d0, id), [])
      else CentralProcessFailure(d0, id, outcome.error, backgrounded);
    var d2 :=
      match sub.kind
      case DataTask => s1.state.(dataTaskProgress := s1.state.dataTaskProgress - {task})
      case UploadTask => s1.state.(uploadTaskProgress := s1.state.uploadTaskProgress - {task});
    Step(d2, s1.effects + CentralProcessCompletion(id, d2.requests[id]))
  }

  /** `retryRequest`, run when a retry timer fires. Offline, the request waits for
      the network: it is marked pending and tracked, its count untouched. Otherwise
      its count goes up by one and it is dispatched again. */
  function RetryRequest(d: Dispatcher, id: RequestId): (s: Step)
    requires Valid(d) && id in d.requests
    ensures Valid(s.state) && OnlyTouches(d, s.state, id)
    ensures s.state.requests[id].SameDescription(d.requests[id])
    ensures d.networkStatus == NotReachable ==>
              && s.state.requests[id].status == PendingRetry
              && s.state.requests[id].retryCount == d.requests[id].retryCount
              && s.state.requests[id].task == d.requests[id].task
              && s.state.runningRequests == d.runningRequests + {id}
              && s.state.inFlight == d.inFlight
              && s.effects == []
    ensures d.networkStatus != NotReachable ==>
              && s.state.requests[id].retryCount == d.requests[id].retryCount + 1
              && s.state.runningRequests == d.runningRequests + {id}
    ensures d.networkStatus != NotReachable && d.requests[id].component.Some? ==>
              && s.state.requests[id].status == Running
              && s.state.inFlight ==
                 d.inFlight[d.nextTask := Submission(id, KindOf(d.requests[id].component.value.taskType))]
              && s.effects == [Submit(id, d.nextTask, d.requests[id].sessionType,
                                      KindOf(d.requests[id].component.value.taskType))]
    ensures d.networkStatus != NotReachable && d.requests[id].component.None? ==>
              && s.state.requests[id].status == Failure
              && s.effects == []
  {
    var r := d.requests[id];
    if d.networkStatus == NotReachable then
      Step(d.(requests := d.requests[id := r.UpdateStatus(PendingRetry)],
              runningRequests := d.runningRequests + {id}), [])
    else
      Dispatch(d.(requests := d.requests[id := r.UpdateRetryCount(r.retryCount + 1)]), id)
  }

  /** `order` lists every member of `s` exactly once: one enumeration of a set. */
  predicate IsEnumeration(order: seq<RequestId>, s: set<RequestId>)
  {
    && (forall i :: 0 <= i < |order| ==> order[i] in s)
    && (forall x :: x in s ==> x in order)
    && (forall i, j :: 0 <= i < j < |order| ==> order[i] != order[j])
  }

  /** The kinds of effect, for counting. */
  datatype EffectKind = SubmitKind | RetryKind | FailureKind | CompletionKind

  function KindOfEffect(e: Effect): EffectKind
  {
    match e
    case Submit(_, _, _, _) => SubmitKind
    case ScheduleRetry(_, _) => RetryKind
    case FailureCalled(_, _, _) => FailureKind
    case CompletionCalled(_, _) => CompletionKind
  }

  /** How many effects of kind `k` about request `id` the trace `es` holds. */
  function Count(es: seq<Effect>, id: RequestId, k: EffectKind): nat
  {
    if es == [] then 0
    else (if es[0].request == id && KindOfEffect(es[0]) == k then 1 else 0) + Count(es[1..], id, k)
  }

  /** Counting distributes over concatenating traces. */
  lemma {:induction false} CountAppend(a: seq<Effect>, b: seq<Effect>, id: RequestId, k: EffectKind)
    ensures Count(a + b, id, k) == Count(a, id, k) + Count(b, id, k)
  {
    if a == [] {
      assert a + b == b;
    } else {
      assert (a + b)[1..] == a[1..] + b;
      CountAppend(a[1..], b, id, k);
    }
  }

  lemma CountAppendAll(a: seq<Effect>, b: seq<Effect>)
    ensures forall id, k :: Count(a + b, id, k) == Count(a, id, k) + Count(b, id, k)
  {
    forall id, k ensures Count(a + b, id, k) == Count(a, id, k) + Count(b, id, k) {
      CountAppend(a, b, id, k);
    }
  }

  /** A single effect about `id` counts once under its own kind and nowhere else. */
  lemma CountSingle(e: Effect)
    ensures forall id, k :: Count([e], id, k) == (if e.request == id && KindOfEffect(e) == k then 1 else 0)
  {
    forall id, k ensures Count([e], id, k) == (if e.request == id && KindOfEffect(e) == k then 1 else 0) {
      assert [e][1..] == [];
    }
  }

  /** Every effect of `es` is a submission: no handler is called, no timer set. */
  predicate OnlySubmits(es: seq<Effect>)
  {
    forall i :: 0 <= i < |es| ==> es[i].Submit?
  }

  /** `order` lists distinct requests the dispatcher knows. */
  ghost predicate DistinctKnown(d: Dispatcher, ids: seq<RequestId>)
  {
    && (forall i :: 0 <= i < |ids| ==> ids[i] in d.requests)
    && (forall i, j :: 0 <= i < j < |ids| ==> ids[i] != ids[j])
  }

  /** The loop of `retryRequests` over the requests `ids`, in that order: those
      pending a retry get `retryRequest`, the others are skipped. */
  function RetryEach(d: Dispatcher, ids: seq<RequestId>): (s: Step)
    requires Valid(d) && DistinctKnown(d, ids)
    ensures Valid(s.state)
    ensures s.state.requests.Keys == d.requests.Keys && s.state.networkStatus == d.networkStatus
    ensures OnlySubmits(s.effects)
    decreases |ids|
  {
    if ids == [] then Step(d, [])
    else
      var s1 := RetryStep(d, ids[0]);
      var s2 := RetryEach(s1.state, ids[1..]);
      Step(s2.state, s1.effects + s2.effects)
  }

  /** One pass of the `retryRequests` loop body, for request `id`. */
  function RetryStep(d: Dispatcher, id: RequestId): (s: Step)
    requires Valid(d) && id in d.requests
    ensures Valid(s.state) && OnlyTouches(d, s.state, id)
    ensures OnlySubmits(s.effects)
  {
    if d.requests[id].status == PendingRetry then RetryRequest(d, id) else Step(d, [])
  }

  /** The loop leaves alone every request it does not retry. */
  lemma {:induction false} RetryEachSkips(d: Dispatcher, ids: seq<RequestId>, o: RequestId)
    requires Valid(d) && DistinctKnown(d, ids) && o in d.requests
    requires o !in ids || d.requests[o].status != PendingRetry
    ensures var s := RetryEach(d, ids);
            && s.state.requests[o] == d.requests[o]
            && (o in s.state.runningRequests <==> o in d.runningRequests)
            && Count(s.effects, o, SubmitKind) == 0
    decreases |ids|
  {
    if ids != [] {
      var id := ids[0];
      var rest := ids[1..];
      assert forall i :: 0 <= i < |rest| ==> rest[i] == ids[i + 1];
      var s1 := RetryStep(d, id);
      var s2 := RetryEach(s1.state, rest);
      assert RetryEach(d, ids) == Step(s2.state, s1.effects + s2.effects);
      CountAppend(s1.effects, s2.effects, o, SubmitKind);
      if o == id {
        assert s1 == Step(d, []);
        assert o !in rest;
      } else {
        assert s1.state.requests[o] == d.requests[o];
        if s1.effects != [] {
          CountSingle(s1.effects[0]);
        }
      }
      RetryEachSkips(s1.state, rest, o);
    }
  }

  /** The loop retries every listed pending request exactly once. */
  lemma {:induction false} RetryEachRetries(d: Dispatcher, ids: seq<RequestId>, o: RequestId)
    requires Valid(d) && DistinctKnown(d, ids) && o in d.requests
    requires o in ids && d.requests[o].status == PendingRetry
    ensures var s := RetryEach(d, ids);
            && o in s.state.runningRequests
            && s.state.requests[o].SameDescription(d.requests[o])
            && (d.networkStatus == NotReachable ==>
                  && s.state.requests[o].status == PendingRetry
                  && s.state.requests[o].retryCount == d.requests[o].retryCount
                  && Count(s.effects, o, SubmitKind) == 0)
            && (d.networkStatus != NotReachable ==>
                  && s.state.requests[o].retryCount == d.requests[o].retryCount + 1
                  && s.state.requests[o].status == (if d.requests[o].component.Some? then Running else Failure)
                  && Count(s.effects, o, SubmitKind) == (if d.requests[o].component.Some? then 1 else 0))
    decreases |ids|
  {
    var id := ids[0];
    var rest := ids[1..];
    assert forall i :: 0 <= i < |rest| ==> rest[i] == ids[i + 1];
    var s1 := RetryStep(d, id);
    var s2 := RetryEach(s1.state, rest);
    assert RetryEach(d, ids) == Step(s2.state, s1.effects + s2.effects);
    CountAppend(s1.effects, s2.effects, o, SubmitKind);
    if o == id {
      assert o !in rest;
      RetryEachSkips(s1.state, rest, o);
      if s1.effects != [] {
        CountSingle(s1.effects[0]);
      }
    } else {
      assert o in rest;
      assert s1.state.requests[o] == d.requests[o];
      if s1.effects != [] {
        CountSingle(s1.effects[0]);
      }
      RetryEachRetries(s1.state, rest, o);
    }
  }

  /** `retryRequests`: walk a snapshot of the tracked set, in whatever order
      `order` lists it, retrying each request pending a retry. */
  function RetryRequests(d: Dispatcher, order: seq<RequestId>): (s: Step)
    requires Valid(d) && IsEnumeration(order, d.runningRequests)
    ensures Valid(s.state) && s.state.networkStatus == d.networkStatus
    ensures s.state.requests.Keys == d.requests.Keys
    ensures OnlySubmits(s.effects)
  {
    RetryEach(d, order)
  }

  /** One request under `retryRequests`: left alone unless tracked and pending; a
      pending one is, while offline, left pending with its count, and otherwise
      retried exactly once: its count goes up by one and it is sent once. */
  lemma RetryRequestsFor(d: Dispatcher, order: seq<RequestId>, o: RequestId)
    requires Valid(d) && IsEnumeration(order, d.runningRequests) && o in d.requests
    ensures var s := RetryRequests(d, order);
            !(o in d.runningRequests && d.requests[o].status == PendingRetry) ==>
              && s.state.requests[o] == d.requests[o]
              && (o in s.state.runningRequests <==> o in d.runningRequests)
              && Count(s.effects, o, SubmitKind) == 0
    ensures var s := RetryRequests(d, order);
            o in d.runningRequests && d.requests[o].status == PendingRetry ==>
              && o in s.state.runningRequests
              && (d.networkStatus == NotReachable ==>
                    && s.state.requests[o].status == PendingRetry
                    && s.state.requests[o].retryCount == d.requests[o].retryCount
                    && Count(s.effects, o, SubmitKind) == 0)
              && (d.networkStatus != NotReachable ==>
                    && s.state.requests[o].retryCount == d.requests[o].retryCount + 1
                    && s.state.requests[o].status == (if d.requests[o].component.Some? then Running else Failure)
                    && Count(s.effects, o, SubmitKind) == (if d.requests[o].component.Some? then 1 else 0))
  {
    if o in d.runningRequests && d.requests[o].status == PendingRetry {
      RetryEachRetries(d, order, o);
    } else {
      RetryEachSkips(d, order, o);
    }
  }

  /** `changedReachabilityStatus`: only the two reachable statuses wake pending requests. */
  function ChangedReachabilityStatus(d: Dispatcher, status: NetworkStatus, order: seq<RequestId>): (s: Step)
    requires Valid(d) && IsEnumeration(order, d.runningRequests)
    ensures Valid(s.state) && s.state.networkStatus == d.networkStatus
    ensures (status == Unknown || status == NotReachable) ==> s.state == d && s.effects == []
    ensures OnlySubmits(s.effects)
  {
    match status
    case Unknown => Step(d, [])
    case NotReachable => Step(d, [])
    case ViaWWAN => RetryRequests(d, order)
    case ViaWiFi => RetryRequests(d, order)
  }

  /** The reachability monitor's callback: record the new status, then react to it. */
  function ReachabilityChanged(d: Dispatcher, raw: int, order: seq<RequestId>): (s: Step)
    requires Valid(d) && IsEnumeration(order, d.runningRequests)
    ensures Valid(s.state) && s.state.networkStatus == StatusFromRaw(raw)
    ensures raw != 1 && raw != 2 ==>
              s.state == d.(networkStatus := StatusFromRaw(raw)) && s.effects == []
    ensures OnlySubmits(s.effects)
  {
    var status := StatusFromRaw(raw);
    ChangedReachabilityStatus(d.(networkStatus := status), status, order)
  }

  /** The network coming back (WWAN or WiFi) retries every tracked request that
      waits for it exactly once, and touches no other request. */
  lemma ReachableWakesPending(d: Dispatcher, raw: int, order: seq<RequestId>, o: RequestId)
    requires Valid(d) && IsEnumeration(order, d.runningRequests) && o in d.requests
    requires raw == 1 || raw == 2
    ensures var s := ReachabilityChanged(d, raw, order);
            o in d.runningRequests && d.requests[o].status == PendingRetry ==>
              && s.state.requests[o].retryCount == d.requests[o].retryCount + 1
              && Count(s.effects, o, SubmitKind) == (if d.requests[o].component.Some? then 1 else 0)
    ensures var s := ReachabilityChanged(d, raw, order);
            !(o in d.runningRequests && d.requests[o].status == PendingRetry) ==>
              && s.state.requests[o] == d.requests[o]
              && Count(s.effects, o, SubmitKind) == 0
  {
    var d1 := d.(networkStatus := StatusFromRaw(raw));
    RetryRequestsFor(d1, order, o);
  }

  /** The loop of `invalidateAllRunningRequests` over `ids`: exhaust each request's
      retry budget, mark it failed and report the failure with no error. */
  function InvalidateEach(d: Dispatcher, ids: seq<RequestId>): (s: Step)
    requires Valid(d) && DistinctKnown(d, ids)
    ensures Valid(s.state)
    ensures s.state.requests.Keys == d.requests.Keys
    ensures s.state.networkStatus == d.networkStatus && s.state.runningRequests == d.runningRequests
    ensures s.state.inFlight == d.inFlight && s.state.nextTask == d.nextTask
    decreases |ids|
  {
    if ids == [] then Step(d, [])
    else
      var id := ids[0];
      var r := d.requests[id];
      var r1 := r.UpdateRetryCount(r.autoRetryConfiguration.maxRetryCount).UpdateStatus(Failure);
      var s2 := InvalidateEach(d.(requests := d.requests[id := r1]), ids[1..]);
      Step(s2.state, FailureCall(id, r1, None) + s2.effects)
  }

  /** What invalidation does to one request `o`: if listed, its count becomes the
      maximum, it is marked failed, and its failure handler is told once with no
      error; if not, nothing. Nothing else is ever emitted. */
  lemma {:induction false} InvalidateEachFor(d: Dispatcher, ids: seq<RequestId>, o: RequestId)
    requires Valid(d) && DistinctKnown(d, ids) && o in d.requests
    ensures var s := InvalidateEach(d, ids);
            o !in ids ==>
              && s.state.requests[o] == d.requests[o]
              && Count(s.effects, o, FailureKind) == 0
    ensures var s := InvalidateEach(d, ids);
            var r := d.requests[o];
            o in ids ==>
              && s.state.requests[o].retryCount == r.autoRetryConfiguration.maxRetryCount
              && s.state.requests[o].status == Failure
              && s.state.requests[o].task == r.task
              && s.state.requests[o].SameDescription(r)
              && Count(s.effects, o, FailureKind) == (if r.failureHandler.Some? then 1 else 0)
    ensures var s := InvalidateEach(d, ids);
            forall i :: 0 <= i < |s.effects| ==> s.effects[i].FailureCalled? && s.effects[i].error.None?
    decreases |ids|
  {
    if ids != [] {
      var id := ids[0];
      var rest := ids[1..];
      assert forall i :: 0 <= i < |rest| ==> rest[i] == ids[i + 1];
      var r := d.requests[id];
      var r1 := r.UpdateRetryCount(r.autoRetryConfiguration.maxRetryCount).UpdateStatus(Failure);
      var d1 := d.(requests := d.requests[id := r1]);
      var head := FailureCall(id, r1, None);
      var s2 := InvalidateEach(d1, rest);
      assert InvalidateEach(d, ids) == Step(s2.state, head + s2.effects);
      CountAppend(head, s2.effects, o, FailureKind);
      InvalidateEachFor(d1, rest, o);
      if head != [] {
        CountSingle(head[0]);
      }
      if o == id {
        assert o !in rest;
      } else {
        assert o in ids <==> o in rest;
      }
    }
  }

  /** `invalidateAllRunningRequests`: every tracked request is exhausted, failed and
      reported; then nothing is tracked. Transport tasks are not cancelled. */
  function InvalidateAllRunningRequests(d: Dispatcher, order: seq<RequestId>): (s: Step)
    requires Valid(d) && IsEnumeration(order, d.runningRequests)
    ensures Valid(s.state)
    ensures s.state.runningRequests == {}
    ensures s.state.requests.Keys == d.requests.Keys && s.state.networkStatus == d.networkStatus
    ensures s.state.inFlight == d.inFlight
  {
    var s := InvalidateEach(d, order);
    Step(s.state.(runningRequests := {}), s.effects)
  }

  /** One request under invalidation: a tracked one ends failed with its count at
      the maximum and one failure report (no error); an untracked one is untouched.
      Only nil-error failure reports are emitted. */
  lemma InvalidateAllFor(d: Dispatcher, order: seq<RequestId>, o: RequestId)
    requires Valid(d) && IsEnumeration(order, d.runningRequests) && o in d.requests
    ensures var s := InvalidateAllRunningRequests(d, order);
            o !in d.runningRequests ==>
              && s.state.requests[o] == d.requests[o]
              && Count(s.effects, o, FailureKind) == 0
    ensures var s := InvalidateAllRunningRequests(d, order);
            var r := d.requests[o];
            o in d.runningRequests ==>
              && s.state.requests[o].retryCount == r.autoRetryConfiguration.maxRetryCount
              && s.state.requests[o].status == Failure
              && s.state.requests[o].SameDescription(r)
              && Count(s.effects, o, FailureKind) == (if r.failureHandler.Some? then 1 else 0)
    ensures var s := InvalidateAllRunningRequests(d, order);
            forall i :: 0 <= i < |s.effects| ==> s.effects[i].FailureCalled? && s.effects[i].error.None?
  {
    InvalidateEachFor(d, order, o);
  }
}
