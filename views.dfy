/**
 * The two HTTP views of population/views.py: polling a task by id and
 * submitting a report request. The task queue is outside this model: the
 * poll view takes what `AsyncResult` reports about the task, and the submit
 * view takes the id and status that `.delay` returns and reports the keyword
 * arguments it enqueued.
 */
module Views {
  import opened Wrappers
  import opened Values
  import opened RequestIds
  import opened Payloads
  import opened Serializers
  import opened Tasks

  const HTTP_200_OK: int := 200
  const HTTP_202_ACCEPTED: int := 202
  const HTTP_400_BAD_REQUEST: int := 400

  datatype Response = Response(status: int, data: Value)

  /** What `AsyncResult(task_id)` reports: whether it is ready, its status, and its stored result. */
  datatype TaskState = TaskState(ready: bool, status: string, result: Value)

  /** The handle `.delay(...)` returns for the task it enqueued. */
  datatype Enqueued = Enqueued(id: string, status: string)

  /** The response of a submission, and the keyword arguments of the task it enqueued, if any. */
  datatype Submission = Submission(response: Response, enqueued: Option<map<string, real>>)

  /** `{'id': id, 'status': status}` */
  function TaskSummary(id: string, status: string): (v: Value)
    ensures Get(v, "id") == Some(PyStr(id)) && Get(v, "status") == Some(PyStr(status))
    ensures v.PyDict? && v.entries.Keys == {"id", "status"}
  {
    PyDict(map["id" := PyStr(id), "status" := PyStr(status)])
  }

  /**
   * `RetrievePopulationReportView.get`: a task that is not ready is reported
   * as 202 with status "PROGRESS" and no result, whatever its real state; a
   * ready task as 200 with its own status and its stored result. The id is
   * always the one in the path.
   */
  function RetrievePopulationReport(taskId: string, task: TaskState): (resp: Response)
    ensures resp.status == (if task.ready then HTTP_200_OK else HTTP_202_ACCEPTED)
    ensures GetPath(resp.data, "task", "id") == Some(PyStr(taskId))
    ensures GetPath(resp.data, "task", "status")
         == Some(PyStr(if task.ready then task.status else "PROGRESS"))
    ensures Get(resp.data, "result") == (if task.ready then Some(task.result) else None)
    ensures resp.data.PyDict? && resp.data.entries.Keys <= {"task", "result"}
    ensures "task" in resp.data.entries && resp.data.entries["task"].PyDict?
    ensures resp.data.entries["task"].entries.Keys == {"id", "status"}
  {
    if !task.ready then
      Response(HTTP_202_ACCEPTED, PyDict(map["task" := TaskSummary(taskId, "PROGRESS")]))
    else
      Response(HTTP_200_OK, PyDict(map["task" := TaskSummary(taskId, task.status), "result" := task.result]))
  }

  /** Message of a field error, as the serializer framework words it. */
  function FieldErrorMessage(e: FieldError): string {
    match e
    case Required => "This field is required."
    case BelowMinimum(_) => "Ensure this value is greater than or equal to 0.1."
  }

  /** The body of a 400 response: each failing field, or `non_field_errors`, with its messages. */
  function ErrorBody(e: ValidationError): (v: Value)
    ensures v.PyDict?
    ensures e.FieldErrors? ==> v.entries.Keys == e.errors.Keys
    ensures e.FieldErrors? ==> forall f :: f in e.errors ==>
      v.entries[f] == PyList([PyStr(FieldErrorMessage(e.errors[f]))])
    ensures e.NonFieldError? ==> v.entries.Keys == {"non_field_errors"}
    ensures e.NonFieldError? ==> Get(v, "non_field_errors") == Some(PyList([PyStr(e.message)]))
  {
    match e
    case FieldErrors(errors) =>
      PyDict(map f | f in errors :: PyList([PyStr(FieldErrorMessage(errors[f]))]))
    case NonFieldError(message) => PyDict(map["non_field_errors" := PyList([PyStr(message)])])
  }

  /**
   * `InitiatePopulationResultView.post`: a request that fails validation is
   * answered 400 and enqueues nothing; an accepted one enqueues the task with
   * the serializer's data as keyword arguments (the raw longitude, not the
   * normalised one) and is answered 202 with the task's id and status.
   */
  function InitiatePopulationResult(data: RequestData, handle: Enqueued): (s: Submission)
    ensures s.enqueued.Some? <==> Acceptable(data)
    ensures s.enqueued.None? ==> s.response == Response(HTTP_400_BAD_REQUEST, ErrorBody(IsValid(data).error))
    ensures s.enqueued.Some? ==>
      && s.enqueued.value.Keys == {"radius", "longitude", "latitude"}
      && s.enqueued.value["radius"] == data["radius"]
      && s.enqueued.value["longitude"] == data["longitude"]
      && s.enqueued.value["latitude"] == data["latitude"]
      && s.response.status == HTTP_202_ACCEPTED
      && GetPath(s.response.data, "task", "id") == Some(PyStr(handle.id))
      && GetPath(s.response.data, "task", "status") == Some(PyStr(handle.status))
      && s.response.data.PyDict? && s.response.data.entries.Keys == {"task"}
      && s.response.data.entries["task"].PyDict?
      && s.response.data.entries["task"].entries.Keys == {"id", "status"}
  {
    match IsValid(data)
    case Err(e) => Submission(Response(HTTP_400_BAD_REQUEST, ErrorBody(e)), None)
    case Ok(attrs) =>
      Submission(
        Response(HTTP_202_ACCEPTED, PyDict(map["task" := TaskSummary(handle.id, handle.status)])),
        Some(ValidatedData(attrs)))
  }

  /**
   * As written, every task the submit view enqueues raises TypeError before
   * any payload is built: the view passes `longitude` and `latitude`, which
   * name no parameter of the payload builder.
   */
  lemma SubmittedTaskRaisesTypeError(data: RequestData, handle: Enqueued, buffer: GeodesicBuffer,
                                     clockMs: nat, draws: seq<nat>, post: PostOutcome)
    requires ValidDraws(draws)
    requires InitiatePopulationResult(data, handle).enqueued.Some?
    ensures var kwargs := InitiatePopulationResult(data, handle).enqueued.value;
      GeneratePopulationReport(kwargs, buffer, clockMs, draws, post)
        == TaskRun(None, Raised(TypeError(UnexpectedKeywords({"longitude", "latitude"}))))
  {
    var kwargs := InitiatePopulationResult(data, handle).enqueued.value;
    assert "longitude" in kwargs.Keys - ParameterNames;
    assert kwargs.Keys - ParameterNames == {"longitude", "latitude"};
  }

  /** The keyword arguments the payload builder expects, taken from the validated attributes. */
  function PayloadKwargs(attrs: ReportAttrs): (kwargs: map<string, real>)
    ensures BindPayloadArgs(kwargs) == Ok(PayloadArgs(attrs.latitude, attrs.longitude, attrs.radius))
  {
    var kwargs := map["lat" := attrs.latitude, "lon" := attrs.longitude, "radius" := attrs.radius];
    assert kwargs.Keys == ParameterNames;
    kwargs
  }

  /** The submit view with the task's keyword arguments named as the payload builder expects. */
  function InitiatePopulationResultIntended(data: RequestData, handle: Enqueued): (s: Submission)
    ensures s.enqueued.Some? <==> Acceptable(data)
    ensures s.response == InitiatePopulationResult(data, handle).response
    ensures s.enqueued.Some? ==>
      BindPayloadArgs(s.enqueued.value) == Ok(PayloadArgs(data["latitude"], data["longitude"], data["radius"]))
  {
    match IsValid(data)
    case Err(e) => Submission(Response(HTTP_400_BAD_REQUEST, ErrorBody(e)), None)
    case Ok(attrs) =>
      Submission(
        Response(HTTP_202_ACCEPTED, PyDict(map["task" := TaskSummary(handle.id, handle.status)])),
        Some(PayloadKwargs(attrs)))
  }

  /**
   * With the keyword arguments named as intended, an accepted submission's
   * task raises no TypeError, posts exactly when the buffer around the
   * submitted point can be computed, and then posts that buffer's ring.
   */
  lemma IntendedSubmissionReachesService(data: RequestData, handle: Enqueued, buffer: GeodesicBuffer,
                                         clockMs: nat, draws: seq<nat>, post: PostOutcome)
    requires ValidDraws(draws)
    requires Acceptable(data)
    ensures var kwargs := InitiatePopulationResultIntended(data, handle).enqueued.value;
      var run := GeneratePopulationReport(kwargs, buffer, clockMs, draws, post);
      var ring := buffer(data["latitude"], data["longitude"], data["radius"]);
      && (run.posted.Some? <==> ring.Some?)
      && (run.posted.Some? ==> RingOfPolygon(run.posted.value.inputData.polygon) == ring)
      && (run.outcome.Raised? ==> run.outcome.exception.Uncaught?)
  {
  }
}
