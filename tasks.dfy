/**
 * The background task `generate_population_report` (population/tasks.py):
 * build the payload from the task's keyword arguments, POST it once, and
 * reduce what the transport reports to the task's return value. The HTTP
 * session is abstracted to the outcome of that single POST.
 */
module Tasks {
  import opened Wrappers
  import opened Values
  import opened RequestIds
  import opened Payloads

  /** What `session.post(...)` does: a response, a `RequestException`, or another exception. */
  datatype PostOutcome =
    | Received(content: seq<bv8>)
    | RequestError(message: string)
    | OtherError(kind: string, message: string)

  /** An exception that leaves the task. */
  datatype Exception =
    | TypeError(error: CallError)
    | Uncaught(kind: string, message: string)

  datatype TaskOutcome = Returned(value: Value) | Raised(exception: Exception)

  /** One execution: the payload it passed as `data=` to its one POST, if it posted, and how it ended. */
  datatype TaskRun = TaskRun(posted: Option<Payload>, outcome: TaskOutcome)

  /** `{'message': 'error', 'fallback_message': str(exc)}` */
  function ErrorRecord(message: string): (v: Value)
    ensures Get(v, "message") == Some(PyStr("error"))
    ensures Get(v, "fallback_message") == Some(PyStr(message))
    ensures v.PyDict? && v.entries.Keys == {"message", "fallback_message"}
  {
    PyDict(map["message" := PyStr("error"), "fallback_message" := PyStr(message)])
  }

  /**
   * `generate_population_report(**kwargs)`. The keyword arguments go to the
   * payload builder unchanged, outside the exception handler, so a binding
   * TypeError leaves the task. Without a payload the task returns None and
   * posts nothing. Otherwise exactly one POST is issued with the payload as
   * its `data=` argument (how the HTTP library encodes it is not modelled): a
   * RequestException becomes an error record, any response becomes its raw
   * content whatever its status, and any other exception leaves the task.
   */
  function GeneratePopulationReport(kwargs: map<string, real>, buffer: GeodesicBuffer,
                                    clockMs: nat, draws: seq<nat>, post: PostOutcome): (run: TaskRun)
    requires ValidDraws(draws)
    ensures BindPayloadArgs(kwargs).Err? ==>
      run == TaskRun(None, Raised(TypeError(BindPayloadArgs(kwargs).error)))
    ensures BindPayloadArgs(kwargs).Ok? ==>
      var args := BindPayloadArgs(kwargs).value;
      run.posted == GeneratePayload(args.lat, args.lon, args.radius, buffer, clockMs, draws)
    ensures run.posted.None? && run.outcome.Returned? ==> run.outcome.value == PyNone
    ensures BindPayloadArgs(kwargs).Ok? && run.posted.None? ==> run.outcome == Returned(PyNone)
    ensures run.posted.Some? ==> run.outcome == match post
      case Received(content) => Returned(PyBytes(content))
      case RequestError(message) => Returned(ErrorRecord(message))
      case OtherError(kind, message) => Raised(Uncaught(kind, message))
  {
    match BindPayloadArgs(kwargs)
    case Err(e) => TaskRun(None, Raised(TypeError(e)))
    case Ok(args) =>
      var payload := GeneratePayload(args.lat, args.lon, args.radius, buffer, clockMs, draws);
      if payload.None? then TaskRun(None, Returned(PyNone))
      else match post
        case Received(content) => TaskRun(payload, Returned(PyBytes(content)))
        case RequestError(message) => TaskRun(payload, Returned(ErrorRecord(message)))
        case OtherError(kind, message) => TaskRun(payload, Raised(Uncaught(kind, message)))
  }

  /**
   * With well-formed arguments the task posts exactly when the buffer can be
   * computed, and then the posted payload's polygon is the ring for those arguments.
   */
  lemma PostsIffBufferSucceeds(lat: real, lon: real, radius: real, buffer: GeodesicBuffer,
                               clockMs: nat, draws: seq<nat>, post: PostOutcome)
    requires ValidDraws(draws)
    ensures var run := GeneratePopulationReport(
              map["lat" := lat, "lon" := lon, "radius" := radius], buffer, clockMs, draws, post);
      && (run.posted.Some? <==> buffer(lat, lon, radius).Some?)
      && (run.posted.None? ==> run.outcome == Returned(PyNone))
      && (run.posted.Some? ==> RingOfPolygon(run.posted.value.inputData.polygon) == buffer(lat, lon, radius))
  {
  }
}
