/** `Request`: one unit of work, its retry policy, its lifecycle fields and its handlers. */
module Requests {
  import opened Optionals
  import opened AutoRetry
  import opened Parameters

  datatype RequestStatus = Waiting | Running | Success | PendingRetry | Failure

  datatype SessionType = Default | Background

  datatype Method = GET | POST

  datatype TaskType = Data | Upload(uploadData: seq<UploadData>)

  /** A caller-supplied closure, known here only by identity. */
  datatype Closure = Closure(tag: nat)

  /** Identifier of a transport task (`NSURLSessionTask.taskIdentifier`). */
  type TaskId = nat

  /** What the dispatcher reads as `request.component`: the part that says what to send. */
  datatype Component = Component(
    httpMethod: Method,
    path: string,
    parameters: Option<RequestData>,
    taskType: TaskType)

  datatype Request = Request(
    httpMethod: Method,
    path: string,
    requestData: RequestData,
    taskType: TaskType,
    component: Option<Component>,
    progressHandler: Option<Closure>,
    successHandler: Option<Closure>,
    failureHandler: Option<Closure>,
    completionHandler: Option<Closure>,
    sessionType: SessionType,
    autoRetryConfiguration: AutoRetryConfiguration,
    status: RequestStatus,
    task: Option<TaskId>,
    retryCount: int)
  {
    /** What to send and how to retry agree: every field but the handlers and the
        lifecycle fields (`status`, `task`, `retryCount`). */
    ghost predicate SameTarget(other: Request)
    {
      && httpMethod == other.httpMethod && path == other.path
      && requestData == other.requestData && taskType == other.taskType
      && component == other.component && sessionType == other.sessionType
      && autoRetryConfiguration == other.autoRetryConfiguration
    }

    /** Everything but the lifecycle fields agrees: what to send, how to retry and
        whom to tell. */
    ghost predicate SameDescription(other: Request)
    {
      && SameTarget(other)
      && progressHandler == other.progressHandler && successHandler == other.successHandler
      && failureHandler == other.failureHandler && completionHandler == other.completionHandler
    }

    /** `progress(_:)`: install the progress handler; the chain goes on with this request. */
    function Progress(h: Closure): (r: Request)
      ensures r.progressHandler == Some(h)
      ensures r.successHandler == successHandler && r.failureHandler == failureHandler
      ensures r.completionHandler == completionHandler
      ensures r.status == status && r.retryCount == retryCount && r.task == task
      ensures r.SameTarget(this)
    {
      this.(progressHandler := Some(h))
    }

    /** `success(_:)`. */
    function OnSuccess(h: Closure): (r: Request)
      ensures r.successHandler == Some(h)
      ensures r.progressHandler == progressHandler && r.failureHandler == failureHandler
      ensures r.completionHandler == completionHandler
      ensures r.status == status && r.retryCount == retryCount && r.task == task
      ensures r.SameTarget(this)
    {
      this.(successHandler := Some(h))
    }

    /** `failure(_:)`. */
    function OnFailure(h: Closure): (r: Request)
      ensures r.failureHandler == Some(h)
      ensures r.progressHandler == progressHandler && r.successHandler == successHandler
      ensures r.completionHandler == completionHandler
      ensures r.status == status && r.retryCount == retryCount && r.task == task
      ensures r.SameTarget(this)
    {
      this.(failureHandler := Some(h))
    }

    /** `completion(_:)`. */
    function OnCompletion(h: Closure): (r: Request)
      ensures r.completionHandler == Some(h)
      ensures r.progressHandler == progressHandler && r.successHandler == successHandler
      ensures r.failureHandler == failureHandler
      ensures r.status == status && r.retryCount == retryCount && r.task == task
      ensures r.SameTarget(this)
    {
      this.(completionHandler := Some(h))
    }

    /** `appendDefaultParameters`: the base request adds nothing. */
    function AppendDefaultParameters(parameters: Option<RequestData>): (p: Option<RequestData>)
      ensures p == parameters
    {
      parameters
    }

    /** `setSessionTask`. */
    function SetSessionTask(t: Option<TaskId>): (r: Request)
      ensures r.task == t
      ensures r.status == status && r.retryCount == retryCount && r.SameDescription(this)
    {
      this.(task := t)
    }

    /** `updateStatus`. */
    function UpdateStatus(s: RequestStatus): (r: Request)
      ensures r.status == s
      ensures r.task == task && r.retryCount == retryCount && r.SameDescription(this)
    {
      this.(status := s)
    }

    /** `updateRetryCount`. */
    function UpdateRetryCount(n: int): (r: Request)
      ensures r.retryCount == n
      ensures r.status == status && r.task == task && r.SameDescription(this)
    {
      this.(retryCount := n)
    }
  }

  /** The required initialiser. Where `component` comes from is not shown by the
      base class, so it is an argument here. */
  function Init(
    path: string,
    requestData: RequestData,
    component: Option<Component>,
    httpMethod: Method := POST,
    autoRetryConfiguration: AutoRetryConfiguration := AutoRetry.Init(breakTime := 5.0)): (r: Request)
    ensures r.status == Waiting && r.retryCount == 0 && r.task.None?
    ensures r.taskType == TaskType.Data && r.sessionType == Default
    ensures r.progressHandler.None? && r.successHandler.None?
    ensures r.failureHandler.None? && r.completionHandler.None?
    ensures r.path == path && r.requestData == requestData && r.httpMethod == httpMethod
    ensures r.component == component && r.autoRetryConfiguration == autoRetryConfiguration
  {
    Request(httpMethod, path, requestData, TaskType.Data, component, None, None, None, None,
            Default, autoRetryConfiguration, Waiting, None, 0)
  }

  /** Default arguments: a POST whose policy waits 5 s between attempts. */
  lemma InitDefaults(path: string, requestData: RequestData, component: Option<Component>)
    ensures Init(path, requestData, component).httpMethod == POST
    ensures Init(path, requestData, component).autoRetryConfiguration.breakTime == 5.0
    ensures Init(path, requestData, component).autoRetryConfiguration.maxRetryCount == 5
  {
  }
}
