/** The sight-line walk: chunk by chunk outward from the observer, each
    chunk's samples compared against the projected sight line, returning the
    first sample that passes the intersection test, or a fallback. */
module Walker {
  import opened Wrappers
  import opened Elevation

  /** What the walk reads from the starting location and the viewing angle. */
  datatype Observer = Observer(altitude: real, verticalAccuracy: real, pitch: real)

  /** A location the walk can return: the starting location itself, or a sample. */
  datatype Place = StartPoint | SamplePoint(sample: Sample)

  /** What the walk carries from one sample to the next: the previous sample's
      elevation, the least signed difference seen (`None` is the initial
      infinity) and where it was seen. */
  datatype ScanState = ScanState(lastElev: real, minDiff: Option<real>, minLoc: Place)

  /** A chunk scan either stops on an intersecting sample or hands on its state. */
  datatype ScanResult = Found(hit: Sample) | Continue(state: ScanState)

  /** The errors the walk attaches to its answer. */
  datatype WalkError = ElevationUnavailable | Cancelled | FallingBack {
    /** The NSError code of each error. */
    function Code(): int {
      match this
      case ElevationUnavailable => 2
      case Cancelled => 0
      case FallingBack => 0
    }
  }

  /** The four ways a walk ends. */
  datatype Outcome = Hit(at: Sample) | Fallback(place: Place) | FetchFailed | WalkCancelled

  /** The number of chunks the walk's loop condition admits. */
  const ChunkCount: nat := 9

  /** Length of one full chunk: `MaxPathSamples` steps. */
  const ChunkSpan: real := DistanceStep * MaxPathSamples as real

  /** The far edge of chunk `k`, distance from the observer: one chunk span at
      first, one more span per iteration. */
  function FarEdge(k: nat): real
  {
    ChunkSpan * (k + 1) as real
  }

  /** The near edge of chunk `k`: `MinDistance` for the first chunk, the
      previous chunk's far edge afterwards. */
  function NearEdge(k: nat): real
  {
    if k == 0 then MinDistance else FarEdge(k - 1)
  }

  /** The length of the path requested for chunk `k` (exact arithmetic). */
  function ChunkLength(k: nat): real
  {
    FarEdge(k) - NearEdge(k)
  }

  /** The observer's sight-line altitude minus the sample's elevation. */
  function Diff(obs: Observer, tan: real -> real, s: Sample): real
  {
    EstimateElevation(s.distance, AdjustedAltitude(obs.altitude, obs.verticalAccuracy), obs.pitch, tan)
      - s.elevation
  }

  /** The local slope proxy between the previously processed elevation and this sample. */
  function SlopeAngle(tan: real -> real, lastElev: real, s: Sample): real
  {
    tan((s.elevation - lastElev) / DistanceStep)
  }

  /** The compound intersection test: the sample is at or above elevation 0,
      more than 10 m above the sight line, and either steeper than the pitch or
      more than 40 m above the sight line. */
  predicate IsIntersection(obs: Observer, tan: real -> real, lastElev: real, s: Sample)
  {
    && s.elevation >= 0.0
    && Diff(obs, tan, s) < HeightTolerance
    && (SlopeAngle(tan, lastElev, s) - obs.pitch > SlopeFactor
        || Diff(obs, tan, s) < 4.0 * HeightTolerance)
  }

  /** An intersecting sample rises more than 10 m above the sight line, so a
      sample at or below the sight line never intersects. */
  lemma IntersectionIsAboveSightLine(obs: Observer, tan: real -> real, lastElev: real, s: Sample)
    ensures IsIntersection(obs, tan, lastElev, s) ==>
      s.elevation > EstimateElevation(s.distance, AdjustedAltitude(obs.altitude, obs.verticalAccuracy), obs.pitch, tan) - HeightTolerance
    ensures s.elevation <= EstimateElevation(s.distance, AdjustedAltitude(obs.altitude, obs.verticalAccuracy), obs.pitch, tan) ==>
      !IsIntersection(obs, tan, lastElev, s)
  {
  }

  /** The state before any sample: the start altitude, infinity, the start point. */
  function Initial(obs: Observer): ScanState
  {
    ScanState(obs.altitude, None, StartPoint)
  }

  /** Whether `d` is strictly below the least difference recorded so far. */
  predicate Improves(minDiff: Option<real>, d: real)
  {
    minDiff.None? || minDiff.value > d
  }

  /** The state after a sample that did not intersect. */
  function Record(obs: Observer, tan: real -> real, st: ScanState, s: Sample): (r: ScanState)
    ensures r.lastElev == s.elevation
    ensures r.minDiff.Some?
    ensures r.minDiff.value <= Diff(obs, tan, s)
    ensures st.minDiff.Some? ==> r.minDiff.value <= st.minDiff.value
    ensures r.minLoc == st.minLoc || r.minLoc == SamplePoint(s)
  {
    var d := Diff(obs, tan, s);
    if Improves(st.minDiff, d) then ScanState(s.elevation, Some(d), SamplePoint(s))
    else ScanState(s.elevation, st.minDiff, st.minLoc)
  }

  /** Process one chunk's samples in order from state `st`. */
  function Scan(obs: Observer, tan: real -> real, xs: seq<Sample>, st: ScanState): (r: ScanResult)
    ensures r.Found? ==> r.hit in xs
    ensures r.Found? ==> r.hit.elevation >= 0.0 && Diff(obs, tan, r.hit) < HeightTolerance
    ensures r.Continue? && |xs| > 0 ==> r.state.lastElev == xs[|xs| - 1].elevation
    ensures r.Continue? && st.minDiff.Some? ==>
      r.state.minDiff.Some? && r.state.minDiff.value <= st.minDiff.value
    ensures r.Continue? ==>
      r.state.minLoc == st.minLoc || (r.state.minLoc.SamplePoint? && r.state.minLoc.sample in xs)
    decreases |xs|
  {
    if |xs| == 0 then Continue(st)
    else if IsIntersection(obs, tan, st.lastElev, xs[0]) then Found(xs[0])
    else Scan(obs, tan, xs[1..], Record(obs, tan, st, xs[0]))
  }

  /** The walk from chunk `k` on, with state `st` carried from the earlier chunks. */
  function WalkFrom(obs: Observer, tan: real -> real, fetch: nat -> Response, cancelled: nat -> bool,
                    k: nat, st: ScanState): (r: Outcome)
    ensures r.Hit? ==> r.at.elevation >= 0.0 && Diff(obs, tan, r.at) < HeightTolerance
    decreases ChunkCount - k
  {
    if FarEdge(k) >= MaxDistance then Fallback(st.minLoc)
    else
      match GetElevationPath(ChunkLength(k), fetch(k))
      case Failure(_) => FetchFailed
      case Success(samples) =>
        if cancelled(k) then WalkCancelled
        else
          match Scan(obs, tan, samples, st)
          case Found(s) => Hit(s)
          case Continue(st') => WalkFrom(obs, tan, fetch, cancelled, k + 1, st')
  }

  /** The whole walk: `fetch(k)` is the service's reply for chunk `k`, and
      `cancelled(k)` whether the operation is cancelled when that reply arrives. */
  function Walk(obs: Observer, tan: real -> real, fetch: nat -> Response, cancelled: nat -> bool): (r: Outcome)
    ensures r.Hit? ==> r.at.elevation >= 0.0 && Diff(obs, tan, r.at) < HeightTolerance
  {
    WalkFrom(obs, tan, fetch, cancelled, 0, Initial(obs))
  }

  /** The (location, error) pair `walkOutFrom` returns for each outcome. */
  function Report(o: Outcome): (r: (Option<Place>, Option<WalkError>))
    ensures r.1.None? <==> o.Hit?
    ensures r.1.Some? ==> r.1.value.Code() == (if o.FetchFailed? then 2 else 0)
    ensures r.0.None? <==> r.1 == Some(ElevationUnavailable) || r.1 == Some(Cancelled)
  {
    match o
    case Hit(s) => (Some(SamplePoint(s)), None)
    case Fallback(p) => (Some(p), Some(FallingBack))
    case FetchFailed => (None, Some(ElevationUnavailable))
    case WalkCancelled => (None, Some(Cancelled))
  }
}
