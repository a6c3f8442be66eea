/**
 * The coordinate point of population/utils.py: a longitude/latitude pair in
 * WGS84 degrees whose longitude is reduced into [-180, 180) when the point is
 * built, and the test that it lies in the WGS84 longitude/latitude rectangle.
 * Longitudes and latitudes are mathematical reals (no NaN, no infinities, no
 * rounding).
 */
module Coordinates {

  /** The number of whole turns Python's `x % 360` takes off `x`: floor(x / 360). */
  function Turns(x: real): int {
    (x / 360.0).Floor
  }

  /** Python's `x % 360` on a float: the remainder of floored division. */
  function Mod360(x: real): (r: real)
    ensures 0.0 <= r < 360.0
    ensures r == x - 360.0 * Turns(x) as real
  {
    x - 360.0 * Turns(x) as real
  }

  /** The whole turns normalisation takes off a longitude. */
  function NormalizeTurns(longitude: real): int {
    if Mod360(longitude) >= 180.0 then Turns(longitude) + 1 else Turns(longitude)
  }

  /**
   * The longitude a point stores after construction: reduced modulo 360 and,
   * when the remainder is 180 or more, moved down by one turn. The result lies
   * in [-180, 180) and names the same meridian as the input.
   */
  function NormalizeLongitude(longitude: real): (r: real)
    ensures -180.0 <= r < 180.0
    ensures r == longitude - 360.0 * NormalizeTurns(longitude) as real
  {
    var m := Mod360(longitude);
    if m >= 180.0 then m - 360.0 else m
  }

  /** An axis-aligned rectangle, as shapely's `Polygon.from_bounds` builds it. */
  datatype Bounds = Bounds(xmin: real, ymin: real, xmax: real, ymax: real)

  /** The WGS84 longitude/latitude domain. */
  const LonLatBounds: Bounds := Bounds(-180.0, -90.0, 180.0, 90.0)

  /** A point intersects a filled rectangle when it lies inside it or on its edge. */
  predicate Intersects(b: Bounds, x: real, y: real) {
    b.xmin <= x <= b.xmax && b.ymin <= y <= b.ymax
  }

  /** `is_valid` of a point stored with these coordinates. */
  predicate PointValid(longitude: real, latitude: real) {
    Intersects(LonLatBounds, longitude, latitude)
  }

  class CoordinatePoint {
    var longitude: real
    var latitude: real
    var units: string

    /** The dataclass initialiser followed by `__post_init__`. */
    constructor (longitude: real, latitude: real, units: string := "degrees")
      ensures this.longitude == NormalizeLongitude(longitude)
      ensures -180.0 <= this.longitude < 180.0
      ensures this.longitude == longitude - 360.0 * NormalizeTurns(longitude) as real
      ensures this.latitude == latitude && this.units == units
    {
      this.longitude := longitude;
      this.latitude := latitude;
      this.units := units;
      new;
      this.longitude := Mod360(this.longitude);
      if this.longitude >= 180.0 {
        this.longitude := this.longitude - 360.0;
      }
    }

    /** Whether the point lies in the closed rectangle [-180,180] x [-90,90]. */
    predicate IsValid()
      reads this
      ensures IsValid() <==> -180.0 <= longitude <= 180.0 && -90.0 <= latitude <= 90.0
    {
      PointValid(longitude, latitude)
    }
  }

  /**
   * The normalised longitude is the only value of [-180, 180) a whole number
   * of turns away from the input.
   */
  lemma NormalizeLongitudeUnique(longitude: real, y: real, k: int)
    requires -180.0 <= y < 180.0
    requires y == longitude + 360.0 * k as real
    ensures NormalizeLongitude(longitude) == y
  {
    var d := k + NormalizeTurns(longitude);
    assert y - NormalizeLongitude(longitude) == 360.0 * d as real;
    assert -1 < d < 1;
  }

  /** A longitude already in [-180, 180) is left as it is. */
  lemma NormalizeLongitudeKeepsInRange(longitude: real)
    requires -180.0 <= longitude < 180.0
    ensures NormalizeLongitude(longitude) == longitude
  {
  }

  /** Normalising twice is normalising once. */
  lemma NormalizeLongitudeIdempotent(longitude: real)
    ensures NormalizeLongitude(NormalizeLongitude(longitude)) == NormalizeLongitude(longitude)
  {
  }

  /**
   * After normalisation only the latitude can make a point invalid: the
   * closed rectangle test reduces to -90 <= latitude <= 90.
   */
  lemma ValidAfterNormalization(longitude: real, latitude: real)
    ensures PointValid(NormalizeLongitude(longitude), latitude) <==> -90.0 <= latitude <= 90.0
  {
  }
}
