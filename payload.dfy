/**
 * The request body `generate_pes_v3_request_payload` (population/utils.py)
 * builds for the population-statistics service, and how Python binds the
 * keyword arguments of a call to that function's parameters.
 *
 * The geodesic buffer itself (an azimuthal equidistant projection centred on
 * the point, a planar disc of `radius * 1000` metres and the inverse
 * transform) is floating-point work in foreign libraries; here it is a
 * parameter that maps (lat, lon, radius) to the exterior ring, or to None
 * when the computation raises ValueError or TypeError.
 */
module Payloads {
  import opened Wrappers
  import opened RequestIds

  /** A ring of (longitude, latitude) pairs, as `exterior.coords[:]` returns it. */
  type Ring = seq<(real, real)>

  /** The geodesic buffer computation for (lat, lon, radius); None when it raises. */
  type GeodesicBuffer = (real, real, real) -> Option<Ring>

  /** The body's `Input_Data` object. */
  datatype InputData = InputData(
    polygon: seq<seq<real>>,
    variables: seq<string>,
    statistics: seq<string>,
    requestId: string)

  /** `{"Input_Data": ...}` */
  datatype Payload = Payload(inputData: InputData)

  /** The variable catalog, in the order the body lists it. */
  const Variables: seq<string> := [
    "gpw-v4-population-count-rev10_2000",
    "gpw-v4-population-count-rev10_2005",
    "gpw-v4-basic-demographic-characteristics-rev10_atotpopbt-count",
    "gpw-v4-population-count-rev10_2015",
    "gpw-v4-population-count-rev10_2020",
    "gpw-v4-basic-demographic-characteristics-rev10_a000-014bt-count",
    "gpw-v4-basic-demographic-characteristics-rev10_a015-064bt-count",
    "gpw-v4-basic-demographic-characteristics-rev10_a065plusbt-count",
    "gpw-v4-data-quality-indicators-rev10_mean-adminunitarea",
    "gpw-v4-land-water-area-rev10_landareakm"
  ]

  const Statistics: seq<string> := ["SUM", "MEAN"]

  /** `map(list, buffer)`, materialised: every coordinate tuple becomes a two-element list. */
  function CoordinateLists(ring: Ring): (polygon: seq<seq<real>>)
    ensures |polygon| == |ring|
    ensures forall i :: 0 <= i < |ring| ==> polygon[i] == [ring[i].0, ring[i].1]
  {
    if ring == [] then [] else [[ring[0].0, ring[0].1]] + CoordinateLists(ring[1..])
  }

  /** Reads a polygon of two-element lists back as a ring; None if an entry is not a pair. */
  function RingOfPolygon(polygon: seq<seq<real>>): Option<Ring> {
    if polygon == [] then Some([])
    else if |polygon[0]| != 2 then None
    else match RingOfPolygon(polygon[1..])
      case None => None
      case Some(rest) => Some([(polygon[0][0], polygon[0][1])] + rest)
  }

  /** The polygon of the body carries the ring exactly: same points, same order. */
  lemma {:induction false} RingOfCoordinateLists(ring: Ring)
    ensures RingOfPolygon(CoordinateLists(ring)) == Some(ring)
  {
    if ring != [] {
      RingOfCoordinateLists(ring[1..]);
      assert [(ring[0].0, ring[0].1)] + ring[1..] == ring;
    }
  }

  /**
   * `generate_pes_v3_request_payload(lat, lon, radius)` with the clock
   * reading and the random draws of its request id as parameters.
   */
  function GeneratePayload(lat: real, lon: real, radius: real, buffer: GeodesicBuffer,
                           clockMs: nat, draws: seq<nat>): (p: Option<Payload>)
    requires ValidDraws(draws)
    ensures p.None? <==> buffer(lat, lon, radius).None?
    ensures p.Some? ==>
      && RingOfPolygon(p.value.inputData.polygon) == buffer(lat, lon, radius)
      && p.value.inputData.variables == Variables
      && p.value.inputData.statistics == Statistics
      && p.value.inputData.requestId == RequestId(clockMs, draws)
      && ClockOfRequestId(p.value.inputData.requestId) == Some(clockMs)
  {
    match buffer(lat, lon, radius)
    case None => None
    case Some(ring) =>
      RingOfCoordinateLists(ring);
      Some(Payload(InputData(CoordinateLists(ring), Variables, Statistics, RequestId(clockMs, draws))))
  }

  /** The parameter names of `generate_pes_v3_request_payload`. */
  const ParameterNames: set<string> := {"lat", "lon", "radius"}

  /** The arguments once bound to the parameters. */
  datatype PayloadArgs = PayloadArgs(lat: real, lon: real, radius: real)

  /** The TypeError Python raises when keyword arguments do not fit the parameters. */
  datatype CallError =
    | UnexpectedKeywords(names: set<string>)
    | MissingArguments(names: set<string>)

  /**
   * Binding `**kwargs` to `(lat, lon, radius)`: a keyword that names no
   * parameter is reported first, then any parameter left without a value.
   */
  function BindPayloadArgs(kwargs: map<string, real>): (r: Result<PayloadArgs, CallError>)
    ensures r.Ok? <==> kwargs.Keys == ParameterNames
    ensures r.Ok? ==> r.value == PayloadArgs(kwargs["lat"], kwargs["lon"], kwargs["radius"])
    ensures r.Err? && !(kwargs.Keys <= ParameterNames) ==>
      r.error == UnexpectedKeywords(kwargs.Keys - ParameterNames)
    ensures r.Err? && kwargs.Keys <= ParameterNames ==>
      r.error == MissingArguments(ParameterNames - kwargs.Keys)
  {
    if kwargs.Keys - ParameterNames != {} then
      Err(UnexpectedKeywords(kwargs.Keys - ParameterNames))
    else if ParameterNames - kwargs.Keys != {} then
      Err(MissingArguments(ParameterNames - kwargs.Keys))
    else
      Ok(PayloadArgs(kwargs["lat"], kwargs["lon"], kwargs["radius"]))
  }
}
