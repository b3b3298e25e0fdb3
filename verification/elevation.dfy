/** The fixed search policy of the sight-line walk and the two pure helpers it
    relies on: the sight-line estimate and the sample-count guard of a path
    request to the elevation service. */
module Elevation {
  import opened Wrappers

  /** A sample counts as terrain when the sight line's altitude minus its
      elevation is below this (negative) tolerance, that is, when it rises more
      than 10 m above the sight line. */
  const HeightTolerance: real := -10.0
  /** The walk stops issuing requests once the far edge reaches this distance (metres). */
  const MaxDistance: real := 50000.0
  /** The first request starts this far from the observer (metres). */
  const MinDistance: real := 20.0
  /** Spacing of the samples of a path request (metres). */
  const DistanceStep: real := 10.0
  /** How much steeper than the pitch the local terrain slope must be. */
  const SlopeFactor: real := 0.02
  /** The elevation service answers at most this many samples per path request. */
  const MaxPathSamples: int := 512

  /** One location returned by a path request: its distance from the observer,
      its ground elevation, and an identifier standing for its coordinate. */
  datatype Sample = Sample(distance: real, elevation: real, id: nat)

  /** What the elevation service answers to one path request. A reply whose
      status is neither OK nor a rate limit is a `Received` with no samples. */
  datatype Response = TransportFailed | NoDataReceived | Received(samples: seq<Sample>)

  /** Why a path request yields no samples. */
  datatype PathError = TooFarApart | TransportError | NoData

  /** Swift's `Int(x)`: conversion that truncates toward zero. */
  function TruncateToInt(x: real): (r: int)
    ensures x >= 0.0 ==> 0 <= r && r as real <= x < r as real + 1.0
    ensures x < 0.0 ==> r <= 0 && r as real - 1.0 < x <= r as real
  {
    if x >= 0.0 then x.Floor else -((-x).Floor)
  }

  /** The number of samples requested for a path of length `dist`. */
  function SampleCount(dist: real): (n: int)
    ensures dist >= 0.0 ==> 0 <= n && n as real * DistanceStep <= dist < (n + 1) as real * DistanceStep
  {
    TruncateToInt(dist / DistanceStep)
  }

  /** The outcome of a path request over a path of length `dist` whose reply
      from the service would be `response`: the guard refuses more than
      `MaxPathSamples` samples before anything is sent. */
  function GetElevationPath(dist: real, response: Response): (r: Result<seq<Sample>, PathError>)
    ensures r == Failure(TooFarApart) <==> SampleCount(dist) > MaxPathSamples
    ensures dist >= 0.0 ==>
      (r == Failure(TooFarApart) <==> dist >= (MaxPathSamples + 1) as real * DistanceStep)
    ensures r.Success? <==> SampleCount(dist) <= MaxPathSamples && response.Received?
    ensures r.Success? ==> r.value == response.samples
  {
    if SampleCount(dist) > MaxPathSamples then Failure(TooFarApart)
    else
      match response
      case TransportFailed => Failure(TransportError)
      case NoDataReceived => Failure(NoData)
      case Received(samples) => Success(samples)
  }

  /** The altitude of the sight line `distance` metres out, for a line that
      starts at `startAltitude` with vertical angle `pitch`; `tan` is the
      tangent, left uninterpreted. */
  function EstimateElevation(distance: real, startAltitude: real, pitch: real, tan: real -> real): (r: real)
    ensures tan(pitch) == 0.0 ==> r == startAltitude
    ensures distance >= 0.0 && tan(pitch) >= 0.0 ==> r >= startAltitude
    ensures distance >= 0.0 && tan(pitch) <= 0.0 ==> r <= startAltitude
  {
    startAltitude + distance * tan(pitch)
  }

  /** The observer's altitude raised by the magnitude of its vertical accuracy. */
  function AdjustedAltitude(altitude: real, verticalAccuracy: real): (r: real)
    ensures r >= altitude
    ensures verticalAccuracy >= 0.0 ==> r == altitude + verticalAccuracy
    ensures verticalAccuracy < 0.0 ==> r == altitude - verticalAccuracy
  {
    altitude + (if verticalAccuracy < 0.0 then -verticalAccuracy else verticalAccuracy)
  }

  /** Along one sight line, the estimate grows by `tan(pitch)` per metre. */
  lemma {:induction false} EstimateIsLinear(d1: real, d2: real, startAltitude: real, pitch: real, tan: real -> real)
    ensures EstimateElevation(d2, startAltitude, pitch, tan) - EstimateElevation(d1, startAltitude, pitch, tan)
            == (d2 - d1) * tan(pitch)
    ensures d1 <= d2 && tan(pitch) >= 0.0 ==>
      EstimateElevation(d1, startAltitude, pitch, tan) <= EstimateElevation(d2, startAltitude, pitch, tan)
  {
    var t := tan(pitch);
    assert (d2 - d1) * t == d2 * t - d1 * t;
    if d1 <= d2 && t >= 0.0 {
      assert (d2 - d1) * t >= 0.0;
    }
  }
}
