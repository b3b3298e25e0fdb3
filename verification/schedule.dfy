/** Facts about the chunk schedule of the walk and the sample-count guard it
    must respect. */
module Schedule {
  import opened Wrappers
  import opened Elevation
  import opened Walker

  /** The first chunk runs from `MinDistance` to one full span; each later
      chunk starts where the previous ended and reaches one span further; the
      loop condition admits exactly `ChunkCount` chunks. */
  lemma {:induction false} ChunkSchedule(k: nat)
    ensures NearEdge(0) == MinDistance && FarEdge(0) == DistanceStep * MaxPathSamples as real
    ensures NearEdge(k + 1) == FarEdge(k)
    ensures FarEdge(k + 1) == FarEdge(k) + DistanceStep * MaxPathSamples as real
    ensures FarEdge(k) < MaxDistance <==> k < ChunkCount
    ensures ChunkCount as real * DistanceStep * MaxPathSamples as real < MaxDistance
  {
    assert FarEdge(k) == 5120.0 * (k + 1) as real;
    assert FarEdge(k + 1) == 5120.0 * (k + 2) as real;
  }

  /** Every chunk is at most one full span long; only the first is shorter. */
  lemma {:induction false} ChunkLengthBound(k: nat)
    ensures 0.0 < ChunkLength(k) <= DistanceStep * MaxPathSamples as real
    ensures k == 0 ==> ChunkLength(k) == DistanceStep * MaxPathSamples as real - MinDistance
    ensures k > 0 ==> ChunkLength(k) == DistanceStep * MaxPathSamples as real
  {
    if k > 0 {
      assert FarEdge(k) == 5120.0 * (k + 1) as real;
      assert FarEdge(k - 1) == 5120.0 * k as real;
    }
  }

  /** The guard of the path request never fires for a chunk of the walk: the
      first chunk asks for 510 samples, every later one for exactly 512. */
  lemma {:induction false} GuardNeverFires(k: nat, response: Response)
    ensures SampleCount(ChunkLength(k)) == (if k == 0 then 510 else MaxPathSamples)
    ensures GetElevationPath(ChunkLength(k), response) != Failure(TooFarApart)
    ensures GetElevationPath(ChunkLength(k), response).Success? <==> response.Received?
  {
    ChunkLengthBound(k);
    var n := SampleCount(ChunkLength(k));
    if k == 0 {
      assert n as real * 10.0 <= 5100.0 < (n + 1) as real * 10.0;
      assert n == 510;
    } else {
      assert n as real * 10.0 <= 5120.0 < (n + 1) as real * 10.0;
      assert n == 512;
    }
  }
}
