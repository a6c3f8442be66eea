# Population report service: a verified model of its core

This project models, in Dafny, the request path of a small web service that
reports population statistics around a point. A caller submits a centre point
(longitude, latitude) and a radius in kilometres. The service validates the
submission and enqueues a background task. That task builds a request body for
an external statistics service from a geodesic circle around the point, posts
it once and keeps what comes back. The caller then polls the task by id.

Modules, one per part of the source:

- `Coordinates` (coordinates.dfy) — the coordinate point of `population/utils.py`. A class whose constructor reduces the longitude into [-180, 180) in place, Python's float `%` written with `Floor`. Also the closed WGS84 rectangle test.
- `RequestIds` (request_id.dfy) — the payload's `requestId`: the decimal millisecond clock followed by eight symbols from `A-Z0-9a-z`. The clock and the eight random draws are parameters.
- `Payloads` (payload.dfy) — assembling the `Input_Data` body, and how Python binds keyword arguments to the builder's parameters `(lat, lon, radius)`.
- `Serializers` (serializers.dfy) — the report serializer: field presence, the inclusive radius minimum, and the object-level coordinate check.
- `Tasks` (tasks.dfy) — the task's three outcomes: no payload, a transport error, or a response.
- `Views` (views.dfy) — the poll and submit views, as maps from their inputs to a status code and a body.
- `Values`, `Wrappers` — Python values in bodies and results; `Option` and `Result`.

Three behaviours of the code worth stating:

- Polling an id that is not ready always answers 202 with status "PROGRESS", whatever the task's real state, including an id no task has.
- When no payload can be built, the task returns `None` and posts nothing.
- The task receives the serializer's field names `radius`, `longitude` and `latitude`. The payload builder's parameters are `lat`, `lon` and `radius`. See Findings.

## Model

| member | source | states |
|---|---|---|
| `Coordinates.Mod360` | population/utils.py:110 | `x % 360` lies in [0, 360) and differs from `x` by `360 * floor(x / 360)` |
| `Coordinates.NormalizeLongitude` | population/utils.py:109-112 | the stored longitude lies in [-180, 180) and differs from the input by a whole number of turns |
| `Coordinates.CoordinatePoint.constructor` | population/utils.py:98-112 | after construction the longitude is the normalised input, in [-180, 180) and on the same meridian; latitude and units are stored as given, units defaulting to "degrees" |
| `Coordinates.CoordinatePoint.IsValid` | population/utils.py:124-132 | a point is valid iff -180 <= lon <= 180 and -90 <= lat <= 90, boundary included (the rectangle of lines 18-20) |
| `Coordinates.NormalizeLongitudeUnique` | population/utils.py:109-112 | the normalised longitude is the only value in [-180, 180) a whole number of turns away from the input |
| `Coordinates.NormalizeLongitudeKeepsInRange` | population/utils.py:109-112 | a longitude already in [-180, 180) is left unchanged |
| `Coordinates.NormalizeLongitudeIdempotent` | population/utils.py:109-112 | normalising twice is the same as normalising once |
| `Coordinates.ValidAfterNormalization` | population/utils.py:109-132 | after normalisation a point is valid iff -90 <= lat <= 90, whatever the longitude |
| `RequestIds.AlphabetSymbols` | population/utils.py:33 | the alphabet has 62 symbols: upper-case letters, then digits, then lower-case letters |
| `RequestIds.Decimal` | population/utils.py:37 | `str` of the millisecond clock is a non-empty string of digits, with no leading zero (the clock 0 is exactly "0"), that parses back to the clock |
| `RequestIds.RandomSuffix` | population/utils.py:31-35 | one alphanumeric symbol per draw, the alphabet's symbol at that draw's index |
| `RequestIds.RequestId` | population/utils.py:23-39 | the id has (number of clock digits + 8) characters; its prefix is all digits and parses to the clock; its last 8 are alphanumeric and are the random suffix |
| `RequestIds.RequestIdInjective` | population/utils.py:31-39 | two ids are equal only when both the clock readings and all eight draws are equal |
| `Payloads.CoordinateLists` | population/utils.py:73 | the polygon has the ring's length and order; entry i is the list [lon, lat] of tuple i |
| `Payloads.RingOfCoordinateLists` | population/utils.py:70-73 | reading the polygon back as tuples gives exactly the buffer's ring |
| `Payloads.GeneratePayload` | population/utils.py:42-95 | no payload iff the buffer computation fails. Otherwise the polygon carries the ring, `variables` is the fixed 10-entry list in source order, `statistics` is ["SUM","MEAN"], and the request id starts with the clock |
| `Payloads.BindPayloadArgs` | population/utils.py:42 | keyword arguments bind iff their names are exactly lat, lon and radius. Otherwise a TypeError names the unexpected keywords, or else the missing parameters |
| `Serializers.FieldErrorsOf` | population/serializers.py:10-12 | every missing field is reported as required, and the radius is reported, as below the minimum 0.1, iff it is below 0.1; present longitude and latitude are never reported |
| `Serializers.Validate` | population/serializers.py:14-26 | accepts iff -90 <= latitude <= 90. On acceptance it returns the attributes unchanged, longitude not normalised; otherwise "Provided coordinates are not correct." |
| `Serializers.IsValid` | population/serializers.py:9-26 | accepts iff all three fields are present, radius >= 0.1 and -90 <= latitude <= 90. It yields the raw field values. Field errors come before the coordinate check; when the fields pass, the only rejection is the coordinate error |
| `Serializers.ValidatedData` | population/serializers.py:9-12 | the serializer's data holds exactly the three fields with their validated values |
| `Serializers.RadiusMinimumInclusive` | population/serializers.py:10 | radius 0.1 is accepted; a smaller radius is rejected with a radius error only |
| `Serializers.LatitudePastPoleRejected` | population/serializers.py:21-24 | latitude 91 or -91 is rejected with the coordinate error, whatever the longitude |
| `Serializers.MissingFieldRejected` | population/serializers.py:10-12 | a missing field is a rejection naming that field as required |
| `Tasks.ErrorRecord` | population/tasks.py:23-26 | the error result is the dict {'message': 'error', 'fallback_message': message} |
| `Tasks.GeneratePopulationReport` | population/tasks.py:11-28 | a kwargs binding error leaves the task as TypeError with no POST. Without a payload: None, no POST. With one: exactly one POST of that payload. Then a RequestException gives the error record, a response its raw content, and any other exception propagates |
| `Tasks.PostsIffBufferSucceeds` | population/tasks.py:14-20 | with kwargs lat/lon/radius the task posts iff the buffer succeeds, posting that ring; otherwise it returns None |
| `Views.RetrievePopulationReport` | population/views.py:19-44 | a task that is not ready gives 202 with status "PROGRESS" and no `result` key. A ready task gives 200 with its own status and its stored result. The body's `task` holds exactly `id` and `status`, and the id is always the path's |
| `Views.ErrorBody` | population/views.py:56-57 | a rejected submission's body maps each failing field to the list of its one message, or holds only `non_field_errors` with the coordinate message |
| `Views.InitiatePopulationResult` | population/views.py:55-69 | a task is enqueued iff the request is acceptable. Rejection gives 400 with the serializer's errors as body; acceptance gives 202 with a body of exactly `{task: {id, status}}` from the handle. The kwargs are exactly radius, longitude and latitude, with the raw submitted values |
| `Views.SubmittedTaskRaisesTypeError` | population/views.py:59 | every task the submit view enqueues raises TypeError for the unexpected keywords longitude and latitude, and posts nothing |
| `Views.PayloadKwargs` | population/utils.py:42 | the validated attributes named lat, lon and radius bind to the payload builder's parameters |
| `Views.InitiatePopulationResultIntended` | population/views.py:55-69 | same response and acceptance as the submit view, but the enqueued kwargs bind to (latitude, longitude, radius) |
| `Views.IntendedSubmissionReachesService` | population/tasks.py:14-28 | with the intended kwargs, an accepted submission's task posts iff the buffer around the submitted point succeeds, posts that ring, and raises no TypeError |

## Findings

| source | as written | input that shows it | evidently intended | confidence | as-written member | corrected member |
|---|---|---|---|---|---|---|
| population/views.py:59 | the task is enqueued with the serializer's keys `radius`, `longitude`, `latitude`, which the task forwards unchanged, outside its exception handler, to a builder whose parameters are `lat`, `lon`, `radius` (population/tasks.py:14, population/utils.py:42) | any accepted submission, e.g. `{radius: 5, longitude: 200, latitude: 40}`: the task raises TypeError for the unexpected keyword `longitude` and never posts | pass `lat=latitude`, `lon=longitude`, `radius=radius` to the builder | high; not executed | `Views.SubmittedTaskRaisesTypeError` | `Views.InitiatePopulationResultIntended` (with `Views.IntendedSubmissionReachesService`) |

A consequence for polling: every task the submit view enqueues ends in the queue's FAILURE state with that TypeError. Once such a task is ready, `task.get()` (population/views.py:33) re-raises the TypeError, so the poll answers with a server error instead of 200. The model's poll view takes the stored result as an input and does not show this (see `Views.RetrievePopulationReport` under Left out).

## Left out

- The geodesic buffer is left out: the azimuthal-equidistant projection, shapely's `buffer` and the pyproj transform (population/utils.py:57-70). It is floating-point work in foreign libraries. The model takes it as a parameter from (lat, lon, radius) to the ring, or None when it raises ValueError or TypeError. Its ring shape and area are not modelled.
- Floating point is not modelled: coordinates and radii are mathematical reals. NaN, infinities, and rounding such as a tiny negative `% 360` giving 360.0 are out of scope.
- The clock is a parameter: milliseconds as a natural number. The conversion `int(time.time() * 1000)` from a float is not modelled.
- `random.choice` is a parameter: eight indices into the alphabet.
- The HTTP transport is a parameter: the single POST's outcome. This covers `requests.Session` and its closing.
- Tasks.GeneratePopulationReport: `posted` is the payload passed as `data=`, not the bytes sent. The HTTP library form-encodes a nested dict; for the inner `Input_Data` dict this most likely sends only its key names (`polygon`, `variables`, ...), not the polygon itself. That encoding belongs to the library and is not modelled.
- The task queue is outside the model: the Celery broker, the result backend, worker scheduling and the PENDING/PROGRESS/SUCCESS/FAILURE states. The views take what `AsyncResult` and `.delay` report as inputs.
- Views.RetrievePopulationReport: takes the stored result as given. The queue library's `get()` re-raising a failed task's exception is not modelled.
- Payloads.BindPayloadArgs: reports every unexpected keyword, not only the first one Python names in its message. The message text is not modelled.
- Serializers.IsValid: takes the request body already parsed into floats. Parsing text and rejecting non-finite values are part of the framework's float field, not this model.
- Views.FieldErrorMessage: the framework's message for a field error is written out as a constant, not derived from the framework.
- The dataclass extras of the coordinate point are not modelled: ordering (`order=True`), JSON support, and the `point` property. The property is folded into `IsValid`.
- `map(list, buffer)` is lazy in Python 3; the polygon is modelled as the materialised list.
- URL routing and the unused `SimpleTaskSerializer` are configuration only.
