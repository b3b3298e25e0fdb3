/** The walk written as `walkOutFrom` writes it: a while loop over the far-edge
    distance with an inner loop over the chunk's samples and early returns. */
module WalkLoop {
  import opened Wrappers
  import opened Elevation
  import opened Walker
  import opened Schedule

  /** The inner loop over one chunk's samples, from the state the earlier
      chunks left: stops on the first intersecting sample, otherwise updates the
      last elevation and the running minimum; agrees with `Scan`. */
  method ScanSamples(obs: Observer, tan: real -> real, adjAlt: real, pathLocs: seq<Sample>, entry: ScanState)
    returns (r: ScanResult)
    requires adjAlt == AdjustedAltitude(obs.altitude, obs.verticalAccuracy)
    ensures r == Scan(obs, tan, pathLocs, entry)
  {
    var lastElev, minDiff, minLoc := entry.lastElev, entry.minDiff, entry.minLoc;
    var i := 0;
    while i < |pathLocs|
      invariant 0 <= i <= |pathLocs|
      invariant Scan(obs, tan, pathLocs, entry)
                == Scan(obs, tan, pathLocs[i..], ScanState(lastElev, minDiff, minLoc))
    {
      var sample := pathLocs[i];
      var estimate := EstimateElevation(sample.distance, adjAlt, obs.pitch, tan);
      var actual := sample.elevation;
      var diff := estimate - actual;
      var slopeAngle := tan((actual - lastElev) / DistanceStep);
      assert pathLocs[i..][0] == sample && pathLocs[i..][1..] == pathLocs[i + 1..];
      if actual >= 0.0 && diff < HeightTolerance
         && (slopeAngle - obs.pitch > SlopeFactor || diff < 4.0 * HeightTolerance)
      {
        return Found(sample);
      }
      lastElev := actual;
      if minDiff.None? || minDiff.value > diff {
        minDiff := Some(diff);
        minLoc := SamplePoint(sample);
      }
      i := i + 1;
    }
    return Continue(ScanState(lastElev, minDiff, minLoc));
  }

  /** Returns the (location, error) pair of the walk, the same pair the
      recursive `Walk` reports. */
  method WalkOutFrom(obs: Observer, tan: real -> real, fetch: nat -> Response, cancelled: nat -> bool)
    returns (loc: Option<Place>, err: Option<WalkError>)
    ensures (loc, err) == Report(Walk(obs, tan, fetch, cancelled))
    ensures err == None ==> loc.Some? && loc.value.SamplePoint?
    ensures loc == None ==> err == Some(ElevationUnavailable) || err == Some(Cancelled)
  {
    var distance := DistanceStep * MaxPathSamples as real;
    var from := MinDistance;
    var adjAlt := AdjustedAltitude(obs.altitude, obs.verticalAccuracy);
    var st := Initial(obs);
    var k: nat := 0;
    ChunkSchedule(0);
    while distance < MaxDistance
      invariant distance == FarEdge(k) && from == NearEdge(k)
      invariant Walk(obs, tan, fetch, cancelled) == WalkFrom(obs, tan, fetch, cancelled, k, st)
      decreases ChunkCount - k
    {
      ChunkSchedule(k);
      var to := distance;
      var path := GetElevationPath(to - from, fetch(k));
      if path.Failure? {
        return None, Some(ElevationUnavailable);
      }
      if cancelled(k) {
        return None, Some(Cancelled);
      }
      var r := ScanSamples(obs, tan, adjAlt, path.value, st);
      if r.Found? {
        return Some(SamplePoint(r.hit)), None;
      }
      st := r.state;
      distance := distance + DistanceStep * MaxPathSamples as real;
      from := to;
      k := k + 1;
    }
    return Some(st.minLoc), Some(FallingBack);
  }
}
