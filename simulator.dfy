/**
 * The magnitude "prediction" of js/model.js: form validation, the feature scaler, and the
 * randomised formula gated on three seismic-zone rectangles. Each Math.random() draw is a
 * parameter in [0, 1).
 */
module Simulator {
  import opened Wrappers
  import opened Severity

  // ---------------------------------------------------------------- input guard

  /** A form field after parseFloat: a number, or NaN when the text does not parse. */
  datatype Reading = Number(value: real) | NaN

  /** A location the guard has accepted. */
  datatype Location = Location(latitude: real, longitude: real, depth: real)

  /** The four rejections of the guard, in the order the guard tests them. */
  datatype InputError = NotANumber | LatitudeOutOfRange | LongitudeOutOfRange | NegativeDepth

  predicate InRange(lat: real, lng: real, depth: real)
  {
    -90.0 <= lat <= 90.0 && -180.0 <= lng <= 180.0 && 0.0 <= depth
  }

  predicate AllNumbers(lat: Reading, lng: Reading, depth: Reading)
  {
    lat.Number? && lng.Number? && depth.Number?
  }

  /** The guard run before any computation: NaN first, then latitude, longitude, depth. */
  function Validate(lat: Reading, lng: Reading, depth: Reading): (r: Result<Location, InputError>)
    ensures r.Success? <==> AllNumbers(lat, lng, depth) && InRange(lat.value, lng.value, depth.value)
    ensures r.Success? ==> r.value == Location(lat.value, lng.value, depth.value)
    ensures r == Failure(NotANumber) <==> !AllNumbers(lat, lng, depth)
    ensures r == Failure(LatitudeOutOfRange) <==>
      AllNumbers(lat, lng, depth) && (lat.value < -90.0 || 90.0 < lat.value)
    ensures r == Failure(LongitudeOutOfRange) <==>
      AllNumbers(lat, lng, depth) && -90.0 <= lat.value <= 90.0 && (lng.value < -180.0 || 180.0 < lng.value)
    ensures r == Failure(NegativeDepth) <==>
      AllNumbers(lat, lng, depth) && -90.0 <= lat.value <= 90.0 && -180.0 <= lng.value <= 180.0 && depth.value < 0.0
  {
    if lat.NaN? || lng.NaN? || depth.NaN? then Failure(NotANumber)
    else if lat.value < -90.0 || lat.value > 90.0 then Failure(LatitudeOutOfRange)
    else if lng.value < -180.0 || lng.value > 180.0 then Failure(LongitudeOutOfRange)
    else if depth.value < 0.0 then Failure(NegativeDepth)
    else Success(Location(lat.value, lng.value, depth.value))
  }

  /** The closed bounds are accepted: the poles, the antimeridian and the surface. */
  lemma ValidateAcceptsBoundaries(lat: real, lng: real)
    requires lat == -90.0 || lat == 90.0
    requires lng == -180.0 || lng == 180.0
    ensures Validate(Number(lat), Number(lng), Number(0.0)) == Success(Location(lat, lng, 0.0))
  {
  }

  // ---------------------------------------------------------------- feature scaler

  /** One value per model input, in the order latitude, longitude, depth. */
  datatype Features = Features(latitude: real, longitude: real, depth: real)

  /** Per-feature lower and upper bounds of the min-max scaler. */
  datatype Scaler = Scaler(min: Features, max: Features)

  /** The bounds loadModel installs: [-90, -180, 0] to [90, 180, 700]. */
  const StandardScaler := Scaler(Features(-90.0, -180.0, 0.0), Features(90.0, 180.0, 700.0))

  predicate Nondegenerate(s: Scaler)
  {
    s.min.latitude < s.max.latitude && s.min.longitude < s.max.longitude && s.min.depth < s.max.depth
  }

  /** Maps normalised values back into the scaler's coordinates. */
  function Denormalize(s: Scaler, f: Features): Features
  {
    Features(s.min.latitude + f.latitude * (s.max.latitude - s.min.latitude),
             s.min.longitude + f.longitude * (s.max.longitude - s.min.longitude),
             s.min.depth + f.depth * (s.max.depth - s.min.depth))
  }

  /** (value - min) / (max - min) per feature, without clamping. */
  function NormalizeFeatures(s: Scaler, lat: real, lng: real, depth: real): (f: Features)
    requires Nondegenerate(s)
    ensures Denormalize(s, f) == Features(lat, lng, depth)
    ensures s.min.latitude <= lat <= s.max.latitude ==> 0.0 <= f.latitude <= 1.0
    ensures s.min.longitude <= lng <= s.max.longitude ==> 0.0 <= f.longitude <= 1.0
    ensures s.min.depth <= depth <= s.max.depth ==> 0.0 <= f.depth <= 1.0
    ensures depth > s.max.depth ==> f.depth > 1.0
  {
    UnitRatio(lat, s.min.latitude, s.max.latitude);
    UnitRatio(lng, s.min.longitude, s.max.longitude);
    UnitRatio(depth, s.min.depth, s.max.depth);
    Features((lat - s.min.latitude) / (s.max.latitude - s.min.latitude),
             (lng - s.min.longitude) / (s.max.longitude - s.min.longitude),
             (depth - s.min.depth) / (s.max.depth - s.min.depth))
  }

  /** (x - lo) / (hi - lo) scales back to x, is in [0, 1] on [lo, hi] and above 1 past hi. */
  lemma UnitRatio(x: real, lo: real, hi: real)
    requires lo < hi
    ensures (x - lo) / (hi - lo) * (hi - lo) == x - lo
    ensures lo <= x <= hi ==> 0.0 <= (x - lo) / (hi - lo) <= 1.0
    ensures hi < x ==> 1.0 < (x - lo) / (hi - lo)
  {
    var q, d := (x - lo) / (hi - lo), hi - lo;
    assert q * d == x - lo;
    if q < 0.0 {
      ScaleStrict(d, q, 0.0);
    }
    if q > 1.0 {
      ScaleStrict(d, 1.0, q);
      assert d < x - lo;
    } else {
      ScaleWeak(d, q, 1.0);
      assert x - lo <= d;
    }
  }

  lemma ScaleStrict(k: real, x: real, y: real)
    requires 0.0 < k && x < y
    ensures x * k < y * k
  {
  }

  lemma ScaleWeak(k: real, x: real, y: real)
    requires 0.0 < k && x <= y
    ensures x * k <= y * k
  {
  }

  /** Normalisation preserves the order of each feature. */
  lemma NormalizeMonotone(s: Scaler, lat1: real, lng1: real, depth1: real, lat2: real, lng2: real, depth2: real)
    requires Nondegenerate(s)
    requires lat1 <= lat2 && lng1 <= lng2 && depth1 <= depth2
    ensures NormalizeFeatures(s, lat1, lng1, depth1).latitude <= NormalizeFeatures(s, lat2, lng2, depth2).latitude
    ensures NormalizeFeatures(s, lat1, lng1, depth1).longitude <= NormalizeFeatures(s, lat2, lng2, depth2).longitude
    ensures NormalizeFeatures(s, lat1, lng1, depth1).depth <= NormalizeFeatures(s, lat2, lng2, depth2).depth
  {
    RatioMonotone(lat1, lat2, s.min.latitude, s.max.latitude);
    RatioMonotone(lng1, lng2, s.min.longitude, s.max.longitude);
    RatioMonotone(depth1, depth2, s.min.depth, s.max.depth);
  }

  lemma RatioMonotone(x1: real, x2: real, lo: real, hi: real)
    requires lo < hi && x1 <= x2
    ensures (x1 - lo) / (hi - lo) <= (x2 - lo) / (hi - lo)
  {
    var q1, q2, d := (x1 - lo) / (hi - lo), (x2 - lo) / (hi - lo), hi - lo;
    UnitRatio(x1, lo, hi);
    UnitRatio(x2, lo, hi);
    if q1 > q2 { ScaleStrict(d, q2, q1); }
  }

  /** The installed scaler maps the valid latitude and longitude ranges into [0, 1];
      depths beyond 700 km leave the unit interval. */
  lemma StandardScalerRanges(loc: Location)
    requires InRange(loc.latitude, loc.longitude, loc.depth)
    ensures Nondegenerate(StandardScaler)
    ensures var f := NormalizeFeatures(StandardScaler, loc.latitude, loc.longitude, loc.depth);
      0.0 <= f.latitude <= 1.0 && 0.0 <= f.longitude <= 1.0 && 0.0 <= f.depth &&
      (loc.depth > 700.0 ==> f.depth > 1.0)
  {
  }

  // ---------------------------------------------------------------- the formula

  /** min(1, depth / 100) * 2: rises linearly to 2 and saturates at 100 km. */
  function DepthFactor(depth: real): (df: real)
    ensures 0.0 <= depth ==> 0.0 <= df <= 2.0
    ensures 100.0 <= depth ==> df == 2.0
    ensures depth <= 100.0 ==> df * 50.0 == depth
  {
    (if 1.0 < depth / 100.0 then 1.0 else depth / 100.0) * 2.0
  }

  /** An axis-aligned rectangle, open on every side. */
  datatype Box = Box(west: real, east: real, south: real, north: real)

  predicate InOpenBox(b: Box, lat: real, lng: real)
  {
    b.west < lng < b.east && b.south < lat < b.north
  }

  /** Pacific Ring of Fire, Alpide belt, Mid-Atlantic ridge. */
  const ZoneA := Box(-180.0, -65.0, -60.0, 70.0)
  const ZoneB := Box(-10.0, 150.0, 20.0, 45.0)
  const ZoneC := Box(-45.0, -25.0, -60.0, 70.0)

  /** The union of the three rectangles. */
  function InSeismicZone(lat: real, lng: real): (z: bool)
    ensures -180.0 < lng < -65.0 && -60.0 < lat < 70.0 ==> z
    ensures -10.0 < lng < 150.0 && 20.0 < lat < 45.0 ==> z
    ensures -45.0 < lng < -25.0 && -60.0 < lat < 70.0 ==> z
    ensures z ==> -180.0 < lng < 150.0 && -60.0 < lat < 70.0
    ensures z ==> lng < -25.0 || (-10.0 < lng && 20.0 < lat < 45.0)
  {
    InOpenBox(ZoneA, lat, lng) || InOpenBox(ZoneB, lat, lng) || InOpenBox(ZoneC, lat, lng)
  }

  /** The gaps between the rectangles: nothing at or north of 70 degrees, at or south of
      -60, or at or east of 150 is in zone; neither is the strip from -65 to -45 between the
      Americas and the ridge, nor anything from -25 eastward outside the Alpide latitudes. */
  lemma OutsideAllZones(lat: real, lng: real)
    requires || 70.0 <= lat || lat <= -60.0 || 150.0 <= lng
             || -65.0 <= lng <= -45.0
             || (-25.0 <= lng && (lat <= 20.0 || 45.0 <= lat))
             || -25.0 <= lng <= -10.0
    ensures !InSeismicZone(lat, lng)
  {
  }

  /** The magnitude before jitter: 4 + 2.5u + df in zone, 3 + 1.5u + df/2 outside. */
  function BaseMagnitude(inZone: bool, df: real, u: real): (m: real)
    ensures 0.0 <= u < 1.0 && inZone ==> 4.0 + df <= m < 6.5 + df
    ensures 0.0 <= u < 1.0 && !inZone ==> 3.0 + df * 0.5 <= m < 4.5 + df * 0.5
  {
    if inZone then 4.0 + u * 2.5 + df else 3.0 + u * 1.5 + df * 0.5
  }

  /** (u - 0.5) * 0.8: symmetric jitter. */
  function Jitter(u: real): (j: real)
    ensures 0.0 <= u < 1.0 ==> -0.4 <= j < 0.4
    ensures u == 0.5 ==> j == 0.0
  {
    (u - 0.5) * 0.8
  }

  /** max(4, min(9, x)). */
  function Clamp(x: real): (r: real)
    ensures 4.0 <= r <= 9.0
    ensures 4.0 <= x <= 9.0 ==> r == x
    ensures x < 4.0 ==> r == 4.0
    ensures 9.0 < x ==> r == 9.0
  {
    var upper := if 9.0 < x then 9.0 else x;
    if upper < 4.0 then 4.0 else upper
  }

  /** The formula end to end, for a validated location and two draws: the shown magnitude
      never reaches 8.9, and outside the zones it stays below 5.9. */
  function SimulatedMagnitude(loc: Location, spread: real, jitter: real): (m: real)
    ensures 0.0 <= loc.depth && 0.0 <= spread < 1.0 && 0.0 <= jitter < 1.0 ==>
      4.0 <= m < 8.9 && (!InSeismicZone(loc.latitude, loc.longitude) ==> m < 5.9)
  {
    Clamp(BaseMagnitude(InSeismicZone(loc.latitude, loc.longitude), DepthFactor(loc.depth), spread) + Jitter(jitter))
  }

  /** Before the clamp the value lies in [2.6, 8.9): the lower clamp can apply, the upper one
      never does, and outside the zones the value stays below 5.9. */
  lemma PreClampRange(loc: Location, spread: real, jitter: real)
    requires 0.0 <= loc.depth
    requires 0.0 <= spread < 1.0 && 0.0 <= jitter < 1.0
    ensures var inZone := InSeismicZone(loc.latitude, loc.longitude);
      var x := BaseMagnitude(inZone, DepthFactor(loc.depth), spread) + Jitter(jitter);
      2.6 <= x < 8.9 && (!inZone ==> x < 5.9)
  {
    var df := DepthFactor(loc.depth);
    assert 0.0 <= df <= 2.0;
  }

  /** Outside the zones the interpretation is Light or Moderate, whatever the draws. */
  lemma OutOfZoneAtMostModerate(loc: Location, spread: real, jitter: real)
    requires 0.0 <= loc.depth
    requires 0.0 <= spread < 1.0 && 0.0 <= jitter < 1.0
    requires !InSeismicZone(loc.latitude, loc.longitude)
    ensures var m := SimulatedMagnitude(loc, spread, jitter);
      InBand(m, Light) || InBand(m, Moderate)
  {
    PreClampRange(loc, spread, jitter);
  }

  /** Latitude 35, longitude 139, depth 10: in zone, depth factor 0.2, base in [4.2, 6.7). */
  lemma TokyoScenario(spread: real)
    requires 0.0 <= spread < 1.0
    ensures InSeismicZone(35.0, 139.0)
    ensures DepthFactor(10.0) == 0.2
    ensures 4.2 <= BaseMagnitude(true, DepthFactor(10.0), spread) < 6.7
  {
  }

  // ---------------------------------------------------------------- the panel

  /** What the result box shows: the magnitude, its text and the circle's colour. */
  datatype Prediction = Prediction(magnitude: real, interpretation: string, colour: Colour)

  datatype PredictError = Invalid(reason: InputError) | PredictionFailed

  /** The module-level state of js/model.js that the simulation depends on. */
  class MagnitudeModel {
    /** The installed scaler; None until loadModel has built the network. */
    var scaler: Option<Scaler>

    /** An installed scaler has a positive span for every feature. */
    predicate Valid()
      reads this
    {
      scaler.Some? ==> Nondegenerate(scaler.value)
    }

    constructor ()
      ensures Valid()
      ensures scaler == None
    {
      scaler := None;
    }

    /** Builds the network and installs the scaler; a failure in the network library is
        caught and leaves the scaler as it was. */
    method LoadModel(networkBuilt: bool)
      requires Valid()
      modifies this
      ensures Valid()
      ensures scaler == if networkBuilt then Some(StandardScaler) else old(scaler)
    {
      if networkBuilt {
        scaler := Some(StandardScaler);
      }
    }

    /** The guard, then the formula step by step. Normalising without a scaler throws, which
        the handler reports as a failed prediction. */
    method PredictMagnitude(lat: Reading, lng: Reading, depth: Reading, spread: real, jitter: real)
      returns (r: Result<Prediction, PredictError>)
      requires 0.0 <= spread < 1.0 && 0.0 <= jitter < 1.0
      requires Valid()
      ensures Validate(lat, lng, depth).Failure? ==> r == Failure(Invalid(Validate(lat, lng, depth).error))
      ensures Validate(lat, lng, depth).Success? && scaler.None? ==> r == Failure(PredictionFailed)
      ensures Validate(lat, lng, depth).Success? && scaler.Some? ==>
        r.Success? && r.value.magnitude == SimulatedMagnitude(Validate(lat, lng, depth).value, spread, jitter)
      ensures r.Success? ==> 4.0 <= r.value.magnitude < 8.9
      ensures r.Success? ==> r.value.interpretation == Interpretation(r.value.magnitude)
      ensures r.Success? ==> r.value.colour == ColourOf(r.value.magnitude)
    {
      var checked := Validate(lat, lng, depth);
      if checked.Failure? {
        return Failure(Invalid(checked.error));
      }
      var loc := checked.value;
      if scaler.None? {
        return Failure(PredictionFailed);
      }
      var features := NormalizeFeatures(scaler.value, loc.latitude, loc.longitude, loc.depth);

      var depthFactor := DepthFactor(loc.depth);
      var inZone := InSeismicZone(loc.latitude, loc.longitude);
      var magnitude: real;
      if inZone {
        magnitude := 4.0 + spread * 2.5 + depthFactor;
      } else {
        magnitude := 3.0 + spread * 1.5 + depthFactor * 0.5;
      }
      magnitude := magnitude + (jitter - 0.5) * 0.8;
      magnitude := Clamp(magnitude);
      PreClampRange(loc, spread, jitter);
      r := Success(Prediction(magnitude, Interpretation(magnitude), ColourOf(magnitude)));
    }
  }
}
