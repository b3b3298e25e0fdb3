/** A worked scenario: a level sight line over flat terrain at sea level. */
module Scenarios {
  import opened Elevation
  import opened Walker
  import opened WalkerProofs

  /** Observer 100 m up, no vertical uncertainty, looking level. */
  function LevelObserver(): Observer
  {
    Observer(100.0, 0.0, 0.0)
  }

  /** Over flat terrain at elevation 0, with every request answered and no
      cancellation, the sight line stays 100 m above every sample, nothing
      intersects, and the walk falls back to the first processed sample
      (all differences tie, and ties keep the earliest), or to the start point
      when the service returned no samples at all. */
  lemma {:induction false} FlatTerrainFallsBack(tan: real -> real, fetch: nat -> Response, cancelled: nat -> bool)
    requires tan(0.0) == 0.0
    requires forall j :: 0 <= j < ChunkCount ==> fetch(j).Received? && !cancelled(j)
    requires forall i :: 0 <= i < |Processed(fetch, ChunkCount)| ==> Processed(fetch, ChunkCount)[i].elevation == 0.0
    ensures var P := Processed(fetch, ChunkCount);
      Walk(LevelObserver(), tan, fetch, cancelled)
      == (if |P| == 0 then Fallback(StartPoint) else Fallback(SamplePoint(P[0])))
  {
    var obs := LevelObserver();
    var P := Processed(fetch, ChunkCount);
    var h := Horizon(fetch, cancelled);
    assert h == ChunkCount;
    assert forall i :: 0 <= i < |P| ==> Diff(obs, tan, P[i]) == 100.0;
    assert NoHit(obs, tan, P);
    WalkOutcome(obs, tan, fetch, cancelled);
    var r := Walk(obs, tan, fetch, cancelled);
    if |P| > 0 {
      var m :| 0 <= m < |P| && IsFirstMin(obs, tan, P, m) && r.place == SamplePoint(P[m]);
      if m > 0 {
        assert Diff(obs, tan, P[m]) < Diff(obs, tan, P[0]);
      }
    }
  }
}
