/**
 * `PopulationReportSerializer` (population/serializers.py): the three float
 * fields of a report request, the inclusive minimum on the radius, and the
 * object-level check that builds a coordinate point and asks whether it is
 * valid. The parsed request body is a map from field name to float; parsing
 * of non-numeric text is not part of this model.
 */
module Serializers {
  import opened Wrappers
  import opened Coordinates

  /** The parsed request body. */
  type RequestData = map<string, real>

  /** The validated attributes handed to `validate` and returned by it. */
  datatype ReportAttrs = ReportAttrs(radius: real, longitude: real, latitude: real)

  /** Why a single field was rejected. */
  datatype FieldError = Required | BelowMinimum(minimum: real)

  datatype ValidationError =
    | FieldErrors(errors: map<string, FieldError>)
    | NonFieldError(message: string)

  /** `min_value` of the radius field; the bound itself is accepted. */
  const MinRadius: real := 0.1

  const Fields: set<string> := {"radius", "longitude", "latitude"}

  const InvalidCoordinatesMessage: string := "Provided coordinates are not correct."

  /** Field-level errors: every missing field, and a radius below the minimum. */
  function FieldErrorsOf(data: RequestData): (errors: map<string, FieldError>)
    ensures errors.Keys <= Fields
    ensures forall f :: f in Fields && f !in data ==> f in errors && errors[f] == Required
    ensures "radius" in data ==> ("radius" in errors <==> data["radius"] < MinRadius)
    ensures "radius" in data && "radius" in errors ==> errors["radius"] == BelowMinimum(MinRadius)
    ensures "longitude" in data ==> "longitude" !in errors
    ensures "latitude" in data ==> "latitude" !in errors
  {
    map f | f in Fields && (f !in data || (f == "radius" && data[f] < MinRadius))
      :: if f !in data then Required else BelowMinimum(MinRadius)
  }

  /**
   * `validate(attrs)`: build the coordinate point (which normalises its
   * longitude) and reject it when it falls outside the WGS84 rectangle;
   * otherwise return the attributes unchanged. Since the longitude is
   * normalised first, only the latitude can cause a rejection.
   */
  function Validate(attrs: ReportAttrs): (r: Result<ReportAttrs, ValidationError>)
    ensures r.Ok? <==> -90.0 <= attrs.latitude <= 90.0
    ensures r.Ok? ==> r.value == attrs
    ensures r.Err? ==> r.error == NonFieldError(InvalidCoordinatesMessage)
  {
    ValidAfterNormalization(attrs.longitude, attrs.latitude);
    if PointValid(NormalizeLongitude(attrs.longitude), attrs.latitude) then Ok(attrs)
    else Err(NonFieldError(InvalidCoordinatesMessage))
  }

  /** What a request must satisfy to be accepted. */
  predicate Acceptable(data: RequestData) {
    && Fields <= data.Keys
    && data["radius"] >= MinRadius
    && -90.0 <= data["latitude"] <= 90.0
  }

  /**
   * `serializer.is_valid()`: the field checks first; only when every field
   * passes, the object-level `validate`. Keys other than the three fields are
   * dropped.
   */
  function IsValid(data: RequestData): (r: Result<ReportAttrs, ValidationError>)
    ensures r.Ok? <==> Acceptable(data)
    ensures r.Ok? ==> r.value == ReportAttrs(data["radius"], data["longitude"], data["latitude"])
    ensures r.Err? && !(Fields <= data.Keys && data["radius"] >= MinRadius) ==>
      r.error == FieldErrors(FieldErrorsOf(data))
    ensures r.Err? && Fields <= data.Keys && data["radius"] >= MinRadius ==>
      r.error == NonFieldError(InvalidCoordinatesMessage)
  {
    var errors := FieldErrorsOf(data);
    if errors != map[] then Err(FieldErrors(errors))
    else
      Validate(ReportAttrs(data["radius"], data["longitude"], data["latitude"]))
  }

  /** `serializer.data` after a successful `is_valid()`: the three fields, as validated. */
  function ValidatedData(attrs: ReportAttrs): (d: map<string, real>)
    ensures d.Keys == Fields
    ensures d["radius"] == attrs.radius && d["longitude"] == attrs.longitude
    ensures d["latitude"] == attrs.latitude
  {
    map["radius" := attrs.radius, "longitude" := attrs.longitude, "latitude" := attrs.latitude]
  }

  /** A radius of exactly 0.1 passes the field check; anything smaller does not. */
  lemma RadiusMinimumInclusive(data: RequestData)
    requires Fields <= data.Keys && -90.0 <= data["latitude"] <= 90.0
    ensures data["radius"] == 0.1 ==> IsValid(data).Ok?
    ensures data["radius"] < 0.1 ==> IsValid(data) == Err(FieldErrors(map["radius" := BelowMinimum(0.1)]))
  {
    if data["radius"] < 0.1 {
      assert FieldErrorsOf(data) == map["radius" := BelowMinimum(0.1)];
    }
  }

  /** A latitude one degree past a pole is rejected whatever the longitude. */
  lemma LatitudePastPoleRejected(radius: real, longitude: real, latitude: real)
    requires radius >= MinRadius
    requires latitude == 91.0 || latitude == -91.0
    ensures IsValid(map["radius" := radius, "longitude" := longitude, "latitude" := latitude])
         == Err(NonFieldError(InvalidCoordinatesMessage))
  {
  }

  /** Leaving out any one field is a rejection that names that field. */
  lemma MissingFieldRejected(data: RequestData, field: string)
    requires field in Fields && field !in data
    ensures IsValid(data).Err? && IsValid(data).error.FieldErrors?
    ensures field in IsValid(data).error.errors && IsValid(data).error.errors[field] == Required
  {
  }
}
