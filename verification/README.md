# SeeThere sight-line walk in Dafny

SeeThere estimates where an observer's line of sight meets the terrain. From
the observer's location, altitude and viewing angle, `walkOutFrom` walks
outward along the bearing in chunks. For each chunk it asks the elevation
service for a path of samples, ten metres apart. It compares each sample's
ground elevation with the altitude of the projected sight line at that
distance. It returns the first sample that passes a compound intersection
test. When no sample passes, it returns the sample with the least signed
difference as a fallback, together with an error. A failed request or a
cancelled operation ends the walk with an error and no location.

This project models that walk and its two pure helpers:

- `estimateElevation`, the sight-line altitude at a distance;
- the sample-count guard at the top of `getElevationPath`, which refuses a
  request for more than 512 samples.

Geometry and the network are abstracted away:

- The elevation service is a function `fetch` from chunk index to a
  `Response`: a transport failure, "no data", or the received samples.
- A sample carries its distance from the observer, its elevation and an
  identifier standing for its coordinate.
- Cancellation is a predicate `cancelled` on chunk indices. It is read at the
  point where `walkOutFrom` reads `operation.cancelled`.
- `tan` is a parameter of type `real -> real`, left uninterpreted.
- All arithmetic is exact (`real`).

Modules:

- `Wrappers`: `Option` and `Result`.
- `Elevation`: the policy constants (tolerance -10 m, range 50 000 m, first
  near edge 20 m, step 10 m, slope factor 0.02, 512 samples per request),
  Swift's truncating `Int(...)`, the sample-count guard, the sight-line
  estimate and the adjusted altitude.
- `Walker`: the chunk schedule, the intersection test, the per-sample state
  (last elevation, running minimum of the signed difference), the chunk scan
  `Scan` and the walk `Walk` as a recursive fold over chunk indices, and the
  `(location, error)` pair `walkOutFrom` returns (`Report`).
- `Schedule`: the chunk schedule, and the proof that the guard never fires
  for a chunk of the walk.
- `WalkerProofs`: a declarative account of the walk's answer. It is stated
  over the stream of samples the walk processes, which is every chunk before
  the first chunk whose request fails or that is found cancelled. The section
  also proves the ordering of the error and cancellation checks, and that no
  chunk beyond the ninth is consulted.
- `WalkLoop`: the walk written as `walkOutFrom` writes it. A `while` loop runs
  over the far-edge distance, an inner loop runs over the samples, and both
  return early. It is proved to return the same pair as `Walk`.
- `Scenarios`: a level sight line over flat terrain at sea level.

Facts about `walkOutFrom` that the model keeps:

- Cancellation is read only after a successful request, so a request error
  wins over it.
- The fallback keeps the least signed difference, and a strict `>` keeps the
  earliest of equal ones.
- The fallback is returned together with an error of code 0, the same code as
  cancellation. A fetch failure has code 2.
- The first far edge is at `DISTANCE_STEP * 512` = 5 120 m, while the first
  near edge is at 20 m.
- A reply whose status is neither OK nor a rate limit gives no samples and no
  error, so a chunk can contribute no samples at all.

## Model

| member | source | states |
|---|---|---|
| Elevation.TruncateToInt | SeeThere/LocationUtils.swift:64 | `Int(x)` truncates toward zero: for x >= 0 the result is the largest integer not above x; for x < 0 it is the smallest integer not below x |
| Elevation.SampleCount | SeeThere/LocationUtils.swift:62-64 | the requested sample count n for a path of length d >= 0 satisfies 10n <= d < 10(n+1) |
| Elevation.GetElevationPath | SeeThere/LocationUtils.swift:59-100 | the request is refused as too far apart exactly when more than 512 samples would be asked for, which for d >= 0 is exactly d >= 5130 m; otherwise it succeeds exactly when the service delivers samples, and then yields those samples |
| Elevation.EstimateElevation | SeeThere/LocationUtils.swift:103-106 | when tan(pitch) is 0 the estimate equals the start altitude at every distance; at nonnegative distance it is at or above the start altitude when tan(pitch) >= 0 and at or below it when tan(pitch) <= 0 |
| Elevation.EstimateIsLinear | SeeThere/LocationUtils.swift:103-106 | the estimate changes by tan(pitch) per metre, and it does not decrease with distance when tan(pitch) >= 0 |
| Elevation.AdjustedAltitude | SeeThere/LocationUtils.swift:130 | the adjusted altitude is never below the altitude; the vertical accuracy is added as a magnitude, and a negative sign is corrected |
| Walker.Record | SeeThere/LocationUtils.swift:174-179 | after a sample that does not intersect, the last elevation becomes that sample's elevation; the recorded minimum is at most that sample's difference and never rises; the fallback location is either unchanged or becomes that sample |
| Walker.Scan | SeeThere/LocationUtils.swift:150-180 | a chunk scan stops only on a sample of the chunk; when it runs through, the last elevation is the chunk's last sample's elevation, the minimum never rises, and the fallback is the earlier one or a sample of the chunk |
| Walker.IsIntersection | SeeThere/LocationUtils.swift:167-169 | the compound intersection test; it has no contract of its own and is characterized by `WalkerProofs.ScanCharacterization` and `WalkerProofs.WalkOutcome`, which state that the walk stops exactly on the earliest sample passing it |
| Walker.IntersectionIsAboveSightLine | SeeThere/LocationUtils.swift:153-169 | since the difference is the sight-line estimate minus the elevation, a sample passing the test rises more than 10 m above the sight line, and a sample at or below the sight line never passes |
| Walker.WalkFrom | SeeThere/LocationUtils.swift:137-184 | the recursive form of the `while` loop; its own contract says only that a returned hit is at or above elevation 0 and more than 10 m above the sight line; it is characterized by `WalkerProofs.WalkOutcome` and proved equal to the loop by `WalkLoop.WalkOutFrom` |
| Walker.Walk | SeeThere/LocationUtils.swift:126-189 | the whole walk from chunk 0 with the initial state; its own contract says only that a returned hit is at or above elevation 0 and more than 10 m above the sight line; it is characterized by `WalkerProofs.WalkOutcome` and `WalkLoop.WalkOutFrom` |
| Walker.Report | SeeThere/LocationUtils.swift:142-186 | the error is absent exactly for an intersection; the location is absent exactly when the error is the fetch failure or the cancellation; the error code is 2 for the fetch failure and 0 for the cancellation and for the fallback |
| Schedule.ChunkSchedule | SeeThere/LocationUtils.swift:127-183 | the first near edge is 20 m and the first far edge 5120 m; each chunk starts at the previous far edge, and the far edge grows by 5120 m; the loop condition holds exactly for the first 9 chunks |
| Schedule.ChunkLengthBound | SeeThere/LocationUtils.swift:127-183 | every requested path is longer than 0 m and at most 5120 m: the first is 5100 m and every later one 5120 m |
| Schedule.GuardNeverFires | SeeThere/LocationUtils.swift:62-67 | for every chunk of the walk the guard asks for 510 samples (first chunk) or 512 samples (the rest), never refuses, and the request succeeds exactly when the service delivers |
| WalkerProofs.HorizonFrom | SeeThere/LocationUtils.swift:137-148 | the first chunk from k on whose request fails or that is found cancelled (the walk ends there unless a hit ends it sooner), or 9 when there is none |
| WalkerProofs.ScanAppend | SeeThere/LocationUtils.swift:137-184 | scanning two consecutive chunks with the state carried across equals scanning their concatenation, so the slope state runs across chunk boundaries |
| WalkerProofs.ScanCharacterization | SeeThere/LocationUtils.swift:150-180 | from the initial state, a scan stops on the earliest sample that passes the test, with each sample's slope measured from the sample just before it (the start altitude for the first); when nothing passes, the last elevation is the last sample's and the fallback is the earliest sample of least signed difference, or the start point if there were no samples |
| WalkerProofs.WalkOutcome | SeeThere/LocationUtils.swift:126-189 | the walk returns a sample with no error iff some processed sample passes the test, and then the earliest such sample; otherwise it returns the fallback after all 9 chunks, the fetch error, or the cancellation at the stopping chunk |
| WalkerProofs.FetchErrorPrecedesCancel | SeeThere/LocationUtils.swift:141-148 | a failed request at chunk k, after clean earlier chunks without a hit, ends the walk with the fetch error, whatever the cancellation flag and the later chunks say |
| WalkerProofs.CancelAfterFetch | SeeThere/LocationUtils.swift:146-148 | cancellation found after a successful request ends the walk with no location and error code 0, without scanning that chunk and discarding the fallback |
| WalkerProofs.WalkFromFrame | SeeThere/LocationUtils.swift:137-184 | the walk from chunk k reads no reply and no cancellation flag of a chunk at or beyond the 9th |
| WalkerProofs.AtMostChunkCountFetches | SeeThere/LocationUtils.swift:137-184 | two worlds that agree on the first 9 chunks give the same walk, so at most 9 requests are issued |
| WalkLoop.ScanSamples | SeeThere/LocationUtils.swift:150-180 | the inner sample loop, with its early return on an intersection, computes the same result as the chunk scan `Scan` |
| WalkLoop.WalkOutFrom | SeeThere/LocationUtils.swift:126-189 | the while loop over the far edge returns the same (location, error) pair as the recursive walk; no error implies a sample location, and no location implies the fetch failure or the cancellation |
| Scenarios.FlatTerrainFallsBack | SeeThere/LocationUtils.swift:126-189 | a level observer 100 m up over terrain at elevation 0, with no failure and no cancellation, gets no intersection and falls back to the first processed sample, or to the start point if no samples came back |

## Left out

- `getElevationAt` is not modelled. It is a single-point HTTP lookup, and the walk does not call it.
- HTTP requests, URL construction and JSON decoding in `getElevationPath` are replaced by the `fetch` input.
- The recursive retry on `OVER_QUERY_LIMIT` is left out. It depends on the service becoming available and has no termination argument.
- `newLocation`, `radians` and `degrees` are left out because they are floating-point great-circle trigonometry. A chunk's path length is taken as the far edge minus the near edge, in exact arithmetic.
- `CLLocation.distanceFromLocation` is a foreign library call. Each sample carries its distance from the observer as an input.
- `NSOperation` cancellation plumbing is replaced by the `cancelled` predicate.
- `println` logging and the `NSLocalizedString` error texts are left out. Errors are an enumeration that carries the codes 0 and 2.
- `Double` rounding, infinities and NaN are not modelled. The initial `Double.infinity` minimum is `None`.
- Schedule.GuardNeverFires: holds in exact arithmetic on the walk's own distances only. `getElevationPath` measures the chunk with CoreLocation's `distanceFromLocation` between two points that `newLocation` computed on a sphere of radius 6 367 444.7 m. CoreLocation need not use that sphere, and floating-point error is not modelled either. The guard fires at 5 130 m, only 10 m above a full chunk, so a different Earth model could change the count.
