/**
 * The viewing geometry of `MapboxlProvider.get_target_image`
 * (src/sim/ImagingProviders/mapbox_provider.py): from a satellite's and a
 * target's longitude, latitude and altitude it computes the camera's zoom,
 * elevation, pitch and bearing, and refuses targets seen lower than 30
 * degrees above the horizon. Trigonometry, square root and logarithm are
 * parameters, constrained only by the laws in `Lawful`; arithmetic is exact.
 */
module Viewing {
  import opened Prelude

  const EarthRadiusKm: real := 6371.0
  /** The lowest elevation, in degrees, at which a target is imaged. */
  const MinElevationDeg: real := 30.0
  /** The empirical zoom offset, and the distance in km at which the logarithm vanishes. */
  const ZoomOffset: real := 13.92
  const ZoomDistanceKm: real := 560.0

  datatype Vec = Vec(x: real, y: real, z: real)

  function Add(a: Vec, b: Vec): Vec { Vec(a.x + b.x, a.y + b.y, a.z + b.z) }
  function Sub(a: Vec, b: Vec): Vec { Vec(a.x - b.x, a.y - b.y, a.z - b.z) }
  function Scale(k: real, a: Vec): Vec { Vec(k * a.x, k * a.y, k * a.z) }
  function Dot(a: Vec, b: Vec): real { a.x * b.x + a.y * b.y + a.z * b.z }
  function Cross(a: Vec, b: Vec): Vec {
    Vec(a.y * b.z - a.z * b.y, a.z * b.x - a.x * b.z, a.x * b.y - a.y * b.x)
  }

  /**
   * The library functions the geometry calls: `sin(radians(a))`,
   * `cos(radians(a))`, `sqrt`, `degrees(acos(x))` and `log2`.
   */
  datatype Maths = Maths(
    sinDeg: real -> real, cosDeg: real -> real, sqrt: real -> real,
    acosDeg: real -> real, log2: real -> real)

  /** The laws the geometry relies on; nothing else is known of the library functions. */
  ghost predicate Lawful(m: Maths) {
    && (forall a :: m.sinDeg(a) * m.sinDeg(a) + m.cosDeg(a) * m.cosDeg(a) == 1.0)
    && (forall x :: 0.0 <= x ==> 0.0 <= m.sqrt(x) && m.sqrt(x) * m.sqrt(x) == x)
    && (forall x :: -1.0 <= x <= 1.0 ==> 0.0 <= m.acosDeg(x) <= 180.0)
    && (forall x :: -1.0 <= x <= 1.0 ==> (m.acosDeg(x) == 0.0 <==> x == 1.0))
  }

  /** `_spherical_to_cartesian`: longitude and latitude in degrees, radius in km. */
  function ToCartesian(m: Maths, lon: real, lat: real, radius: real): Vec {
    Vec(radius * m.cosDeg(lat) * m.cosDeg(lon),
        radius * m.cosDeg(lat) * m.sinDeg(lon),
        radius * m.sinDeg(lat))
  }

  /** `v / np.linalg.norm(v)`; None where the norm is zero and numpy would give NaN. */
  function Unit(m: Maths, v: Vec): Option<Vec> {
    var n := m.sqrt(Dot(v, v));
    if n == 0.0 then None else Some(Scale(1.0 / n, v))
  }

  /** `v - np.dot(v, u) * u`: the component of `v` in the plane normal to `u`. */
  function Tangent(v: Vec, u: Vec): Vec {
    Sub(v, Scale(Dot(v, u), u))
  }

  /** `np.clip(x, -1.0, 1.0)`. */
  function Clip(x: real): (r: real)
    ensures -1.0 <= r <= 1.0
    ensures -1.0 <= x <= 1.0 ==> r == x
    ensures x > 1.0 ==> r == 1.0
    ensures x < -1.0 ==> r == -1.0
  {
    if x < -1.0 then -1.0 else if x > 1.0 then 1.0 else x
  }

  /** The reference direction the bearing is measured from: the z axis, towards the North Pole. */
  const Reference: Vec := Vec(0.0, 0.0, 1.0)

  /**
   * The bearing computation of `get_target_image`: the compass bearing, at the target whose outward unit
   * normal is `up`, of the direction `toSat` towards the satellite. None
   * where a tangent projection vanishes and numpy would give NaN.
   */
  function Bearing(m: Maths, up: Vec, toSat: Vec): (r: Option<real>)
    ensures Lawful(m) && r.Some? ==> 0.0 <= r.value < 360.0
  {
    match (Unit(m, Tangent(toSat, up)), Unit(m, Tangent(Reference, up)))
    case (Some(s), Some(n)) =>
      var unsigned := 180.0 - m.acosDeg(Clip(Dot(n, s)));
      var signed := if Dot(Cross(n, s), up) < 0.0 then -unsigned else unsigned;
      Some(if signed < 0.0 then signed + 360.0 else signed)
    case _ => None
  }

  /** The camera the satellite would have on the target. */
  datatype Sight = Sight(zoom: real, elevation: real, pitch: real, bearing: Option<real>)

  /** The outcome of `get_target_image` up to the image request. */
  datatype View =
    /** The satellite coincides with the target: numpy's norms give NaN throughout. */
    | Undefined
    /** The elevation `acos` got an argument outside [-1, 1] and raised ValueError. */
    | AcosDomainError
    /** The ValueError raised by the visibility check: the target is seen too low. */
    | NotVisible(elevation: real)
    /** The parameters of the Mapbox static-image URL. */
    | ImageRequest(targetLon: real, targetLat: real, zoom: real, bearing: Option<real>, pitch: real)

  /** The satellite's position: the Earth's radius plus its altitude. */
  function SatellitePoint(m: Maths, lon: real, lat: real, alt: real): Vec {
    ToCartesian(m, lon, lat, EarthRadiusKm + alt)
  }

  /** The target's position, on the surface. */
  function TargetPoint(m: Maths, lon: real, lat: real): Vec {
    ToCartesian(m, lon, lat, EarthRadiusKm)
  }

  datatype Result<T> = Ok(value: T) | Fail(view: View)

  /** `get_target_image` up to the bearing: the camera on the target, unless a norm vanishes or `acos` raises. */
  function Observe(m: Maths, satLon: real, satLat: real, satAlt: real, targetLon: real, targetLat: real): (r: Result<Sight>)
    ensures r.Ok? ==> r.value.pitch + r.value.elevation == 90.0
  {
    var sat := SatellitePoint(m, satLon, satLat, satAlt);
    var target := TargetPoint(m, targetLon, targetLat);
    var d := Sub(sat, target);
    var distance := m.sqrt(Dot(d, d));
    if distance == 0.0 then Fail(Undefined)
    else
      var zoom := ZoomOffset + m.log2(ZoomDistanceKm / distance);
      var toSat := Scale(1.0 / distance, d);
      match Unit(m, target)
      case None => Fail(Undefined)
      case Some(up) =>
        var cosine := Dot(up, toSat);
        if !(-1.0 <= cosine <= 1.0) then Fail(AcosDomainError)
        else
          var theta := m.acosDeg(cosine);
          Ok(Sight(zoom, 90.0 - theta, theta, Bearing(m, up, toSat)))
  }

  /** `get_target_image` up to the request: refuse a low target, else the image to request. */
  function TargetView(m: Maths, satLon: real, satLat: real, satAlt: real, targetLon: real, targetLat: real): (v: View)
    ensures v.ImageRequest? ==> v.targetLon == targetLon && v.targetLat == targetLat
    ensures v.NotVisible? ==> v.elevation < MinElevationDeg
    ensures v.ImageRequest? ==> MinElevationDeg <= 90.0 - v.pitch
  {
    match Observe(m, satLon, satLat, satAlt, targetLon, targetLat)
    case Fail(v) => v
    case Ok(s) =>
      if s.elevation < MinElevationDeg then NotVisible(s.elevation)
      else ImageRequest(targetLon, targetLat, s.zoom, s.bearing, s.pitch)
  }

  /** A point given by longitude, latitude and radius lies at that distance from the Earth's centre. */
  lemma SphericalRadius(m: Maths, lon: real, lat: real, radius: real)
    requires Lawful(m)
    ensures Dot(ToCartesian(m, lon, lat, radius), ToCartesian(m, lon, lat, radius)) == radius * radius
  {
    var c, s := m.cosDeg(lat), m.sinDeg(lat);
    var co, so := m.cosDeg(lon), m.sinDeg(lon);
    assert c * c + s * s == 1.0;
    assert co * co + so * so == 1.0;
    calc {
      Dot(ToCartesian(m, lon, lat, radius), ToCartesian(m, lon, lat, radius));
      (radius * c * co) * (radius * c * co) + (radius * c * so) * (radius * c * so) + (radius * s) * (radius * s);
      radius * radius * (c * c) * (co * co + so * so) + radius * radius * (s * s);
      radius * radius * (c * c + s * s);
      radius * radius;
    }
  }

  lemma SquareNonNegative(x: real)
    ensures 0.0 <= x * x
    ensures x != 0.0 ==> 0.0 < x * x
  {
    if x < 0.0 {
      assert 0.0 < x * x;
    } else if x > 0.0 {
      assert 0.0 < x * x;
    }
  }

  lemma DotSelf(v: Vec)
    ensures 0.0 <= Dot(v, v)
  {
    SquareNonNegative(v.x);
    SquareNonNegative(v.y);
    SquareNonNegative(v.z);
  }

  lemma DiffNorm(a: Vec, b: Vec)
    ensures Dot(Sub(a, b), Sub(a, b)) == Dot(a, a) - 2.0 * Dot(a, b) + Dot(b, b)
  {
  }

  lemma SumNorm(a: Vec, b: Vec)
    ensures Dot(Add(a, b), Add(a, b)) == Dot(a, a) + 2.0 * Dot(a, b) + Dot(b, b)
  {
  }

  /** Normalising gives a unit vector, and fails exactly for the zero vector. */
  lemma UnitIsUnit(m: Maths, v: Vec)
    requires Lawful(m)
    ensures Unit(m, v).Some? <==> Dot(v, v) != 0.0
    ensures Unit(m, v).Some? ==> Dot(Unit(m, v).value, Unit(m, v).value) == 1.0
  {
    var d := Dot(v, v);
    DotSelf(v);
    var n := m.sqrt(d);
    assert n * n == d;
    SquareNonNegative(n);
    if n != 0.0 {
      var k := 1.0 / n;
      assert k * n == 1.0;
      calc {
        Dot(Scale(k, v), Scale(k, v));
        (k * v.x) * (k * v.x) + (k * v.y) * (k * v.y) + (k * v.z) * (k * v.z);
        (k * k) * d;
        (k * k) * (n * n);
        (k * n) * (k * n);
        1.0;
      }
    }
  }

  /** The tangent-plane projection is orthogonal to the unit normal it removes. */
  lemma TangentOrthogonal(v: Vec, u: Vec)
    requires Dot(u, u) == 1.0
    ensures Dot(Tangent(v, u), u) == 0.0
  {
    var k := Dot(v, u);
    calc {
      Dot(Tangent(v, u), u);
      (v.x - k * u.x) * u.x + (v.y - k * u.y) * u.y + (v.z - k * u.z) * u.z;
      (v.x * u.x + v.y * u.y + v.z * u.z) - k * (u.x * u.x + u.y * u.y + u.z * u.z);
      { assert Dot(v, u) == v.x * u.x + v.y * u.y + v.z * u.z; }
      k - k * (u.x * u.x + u.y * u.y + u.z * u.z);
      { assert Dot(u, u) == u.x * u.x + u.y * u.y + u.z * u.z; }
      k - k * Dot(u, u);
      0.0;
    }
  }

  /** Two unit vectors have a cosine in [-1, 1]: the unclipped elevation `acos` never leaves its domain. */
  lemma UnitCosine(a: Vec, b: Vec)
    requires Dot(a, a) == 1.0 && Dot(b, b) == 1.0
    ensures -1.0 <= Dot(a, b) <= 1.0
  {
    DiffNorm(a, b);
    SumNorm(a, b);
    DotSelf(Sub(a, b));
    DotSelf(Add(a, b));
  }

  /** A unit vector with cosine 1 to the unit normal has no component in the tangent plane. */
  lemma AlignedHasNoTangent(v: Vec, u: Vec)
    requires Dot(u, u) == 1.0 && Dot(v, v) == 1.0 && Dot(v, u) == 1.0
    ensures Dot(Tangent(v, u), Tangent(v, u)) == 0.0
  {
    assert Tangent(v, u) == Sub(v, u);
    DiffNorm(v, u);
  }

  /** The satellite is `EarthRadiusKm + alt` from the Earth's centre and the target `EarthRadiusKm`. */
  lemma PointRadii(m: Maths, satLon: real, satLat: real, satAlt: real, targetLon: real, targetLat: real)
    requires Lawful(m)
    ensures Dot(SatellitePoint(m, satLon, satLat, satAlt), SatellitePoint(m, satLon, satLat, satAlt))
      == (EarthRadiusKm + satAlt) * (EarthRadiusKm + satAlt)
    ensures Dot(TargetPoint(m, targetLon, targetLat), TargetPoint(m, targetLon, targetLat))
      == EarthRadiusKm * EarthRadiusKm
  {
    SphericalRadius(m, satLon, satLat, EarthRadiusKm + satAlt);
    SphericalRadius(m, targetLon, targetLat, EarthRadiusKm);
  }

  /**
   * With lawful library functions the geometry is defined exactly when the
   * satellite is not at the target, and the elevation `acos` never raises.
   */
  lemma ObserveDefined(m: Maths, satLon: real, satLat: real, satAlt: real, targetLon: real, targetLat: real)
    requires Lawful(m)
    ensures var d := Sub(SatellitePoint(m, satLon, satLat, satAlt), TargetPoint(m, targetLon, targetLat));
      Observe(m, satLon, satLat, satAlt, targetLon, targetLat).Ok? <==> Dot(d, d) != 0.0
    ensures Observe(m, satLon, satLat, satAlt, targetLon, targetLat) != Fail(AcosDomainError)
  {
    var target := TargetPoint(m, targetLon, targetLat);
    var d := Sub(SatellitePoint(m, satLon, satLat, satAlt), target);
    PointRadii(m, satLon, satLat, satAlt, targetLon, targetLat);
    UnitIsUnit(m, target);
    UnitIsUnit(m, d);
    var distance := m.sqrt(Dot(d, d));
    if distance != 0.0 {
      var toSat := Scale(1.0 / distance, d);
      assert Unit(m, d) == Some(toSat);
      UnitCosine(Unit(m, target).value, toSat);
    }
  }

  /** The bearing is defined when both tangent projections are nonzero, and then lies in [0, 360). */
  lemma BearingRange(m: Maths, up: Vec, toSat: Vec)
    requires Lawful(m)
    ensures Bearing(m, up, toSat).Some? <==>
      Dot(Tangent(toSat, up), Tangent(toSat, up)) != 0.0 && Dot(Tangent(Reference, up), Tangent(Reference, up)) != 0.0
    ensures Bearing(m, up, toSat).Some? ==> 0.0 <= Bearing(m, up, toSat).value < 360.0
  {
    UnitIsUnit(m, Tangent(toSat, up));
    UnitIsUnit(m, Tangent(Reference, up));
  }

  /** The angle, in degrees, between north and the satellite's ground direction at the target. */
  function Turn(m: Maths, up: Vec, toSat: Vec): real
    requires Unit(m, Tangent(toSat, up)).Some? && Unit(m, Tangent(Reference, up)).Some?
  {
    m.acosDeg(Clip(Dot(Unit(m, Tangent(Reference, up)).value, Unit(m, Tangent(toSat, up)).value)))
  }

  /** The sign test on the cross product: the turn from north to the satellite's ground direction is against `up`. */
  predicate Clockwise(m: Maths, up: Vec, toSat: Vec)
    requires Unit(m, Tangent(toSat, up)).Some? && Unit(m, Tangent(Reference, up)).Some?
  {
    Dot(Cross(Unit(m, Tangent(Reference, up)).value, Unit(m, Tangent(toSat, up)).value), up) < 0.0
  }

  /**
   * The sign test and the +360 correction of the bearing give 180 + turn exactly when
   * the satellite's ground direction lies clockwise of north (seen from
   * above the target) by strictly between 0 and 180 degrees, and 180 - turn
   * otherwise; `turn` is the angle between north and that direction.
   */
  lemma BearingSide(m: Maths, up: Vec, toSat: Vec)
    requires Lawful(m)
    requires Unit(m, Tangent(toSat, up)).Some? && Unit(m, Tangent(Reference, up)).Some?
    ensures 180.0 < Bearing(m, up, toSat).value <==> Clockwise(m, up, toSat) && 0.0 < Turn(m, up, toSat) < 180.0
    ensures Bearing(m, up, toSat).value <= 180.0 ==> Bearing(m, up, toSat).value == 180.0 - Turn(m, up, toSat)
    ensures 180.0 < Bearing(m, up, toSat).value ==> Bearing(m, up, toSat).value == 180.0 + Turn(m, up, toSat)
  {
    var s := Unit(m, Tangent(toSat, up)).value;
    var n := Unit(m, Tangent(Reference, up)).value;
    var c := Clip(Dot(n, s));
    assert 0.0 <= m.acosDeg(c) <= 180.0;
    assert Turn(m, up, toSat) == m.acosDeg(c);
    var unsigned := 180.0 - m.acosDeg(c);
    var signed := if Clockwise(m, up, toSat) then -unsigned else unsigned;
    assert Bearing(m, up, toSat) == Some(if signed < 0.0 then signed + 360.0 else signed);

  }

  /** Seen straight overhead (elevation 90) the bearing is undefined: numpy gives NaN. */
  lemma OverheadHasNoBearing(m: Maths, satLon: real, satLat: real, satAlt: real, targetLon: real, targetLat: real)
    requires Lawful(m)
    requires Observe(m, satLon, satLat, satAlt, targetLon, targetLat).Ok?
    requires Observe(m, satLon, satLat, satAlt, targetLon, targetLat).value.elevation == 90.0
    ensures Observe(m, satLon, satLat, satAlt, targetLon, targetLat).value.bearing == None
  {
    var target := TargetPoint(m, targetLon, targetLat);
    var d := Sub(SatellitePoint(m, satLon, satLat, satAlt), target);
    var distance := m.sqrt(Dot(d, d));
    var toSat := Scale(1.0 / distance, d);
    var up := Unit(m, target).value;
    PointRadii(m, satLon, satLat, satAlt, targetLon, targetLat);
    UnitIsUnit(m, target);
    UnitIsUnit(m, d);
    assert Unit(m, d) == Some(toSat);
    assert Dot(up, toSat) == 1.0;
    assert Dot(toSat, up) == 1.0;
    AlignedHasNoTangent(toSat, up);
    UnitIsUnit(m, Tangent(toSat, up));
  }

  /** The 30-degree gate: a target is refused exactly when it is seen lower than 30 degrees. */
  lemma VisibilityGate(m: Maths, satLon: real, satLat: real, satAlt: real, targetLon: real, targetLat: real)
    ensures var o := Observe(m, satLon, satLat, satAlt, targetLon, targetLat);
      TargetView(m, satLon, satLat, satAlt, targetLon, targetLat).NotVisible? <==> o.Ok? && o.value.elevation < MinElevationDeg
    ensures var o := Observe(m, satLon, satLat, satAlt, targetLon, targetLat);
      TargetView(m, satLon, satLat, satAlt, targetLon, targetLat).ImageRequest? <==> o.Ok? && MinElevationDeg <= o.value.elevation
  {
  }

  /** Every image requested has an elevation in [30, 90] and a pitch in [0, 60]. */
  lemma RequestedPitch(m: Maths, satLon: real, satLat: real, satAlt: real, targetLon: real, targetLat: real)
    requires Lawful(m)
    requires TargetView(m, satLon, satLat, satAlt, targetLon, targetLat).ImageRequest?
    ensures var o := Observe(m, satLon, satLat, satAlt, targetLon, targetLat);
      var v := TargetView(m, satLon, satLat, satAlt, targetLon, targetLat);
      && MinElevationDeg <= o.value.elevation <= 90.0
      && 0.0 <= v.pitch <= 90.0 - MinElevationDeg
      && v.pitch == 90.0 - o.value.elevation
  {
  }
}
