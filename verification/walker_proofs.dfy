/** A declarative account of what the walk returns, stated over the stream of
    samples it processes, and the proofs that the recursive walk meets it. */
module WalkerProofs {
  import opened Wrappers
  import opened Elevation
  import opened Walker
  import opened Schedule

  /** The elevation the slope of sample `i` of a processed stream is measured
      from: the start altitude for the first sample, the previous sample's
      elevation otherwise. */
  ghost function PrevElev(obs: Observer, xs: seq<Sample>, i: nat): real
    requires i <= |xs|
  {
    if i == 0 then obs.altitude else xs[i - 1].elevation
  }

  /** Sample `i` of the stream passes the intersection test. */
  ghost predicate PassesAt(obs: Observer, tan: real -> real, xs: seq<Sample>, i: nat)
    requires i < |xs|
  {
    IsIntersection(obs, tan, PrevElev(obs, xs, i), xs[i])
  }

  /** No sample of the stream passes the intersection test. */
  ghost predicate NoHit(obs: Observer, tan: real -> real, xs: seq<Sample>)
  {
    forall i :: 0 <= i < |xs| ==> !PassesAt(obs, tan, xs, i)
  }

  /** Sample `i` passes the test and no earlier sample does. */
  ghost predicate FirstHit(obs: Observer, tan: real -> real, xs: seq<Sample>, i: nat)
  {
    && i < |xs|
    && PassesAt(obs, tan, xs, i)
    && forall j :: 0 <= j < i ==> !PassesAt(obs, tan, xs, j)
  }

  /** Sample `m` has the least signed difference of the stream, and every
      earlier sample's difference is strictly greater. */
  ghost predicate IsFirstMin(obs: Observer, tan: real -> real, xs: seq<Sample>, m: nat)
  {
    && m < |xs|
    && (forall j :: 0 <= j < |xs| ==> Diff(obs, tan, xs[m]) <= Diff(obs, tan, xs[j]))
    && (forall j :: 0 <= j < m ==> Diff(obs, tan, xs[m]) < Diff(obs, tan, xs[j]))
  }

  /** `p` is the fallback location for stream `xs`: the start point when
      nothing was processed, otherwise the earliest sample of least difference. */
  ghost predicate IsFallbackFor(obs: Observer, tan: real -> real, xs: seq<Sample>, p: Place)
  {
    if |xs| == 0 then p == StartPoint
    else exists m :: 0 <= m < |xs| && IsFirstMin(obs, tan, xs, m) && p == SamplePoint(xs[m])
  }

  /** The state after processing stream `xs` without a hit: the last elevation
      seen and the running minimum of the signed difference. */
  ghost predicate StateAfter(obs: Observer, tan: real -> real, xs: seq<Sample>, st: ScanState)
  {
    && st.lastElev == PrevElev(obs, xs, |xs|)
    && (if |xs| == 0 then st.minDiff == None && st.minLoc == StartPoint
        else exists m :: && 0 <= m < |xs|
                         && IsFirstMin(obs, tan, xs, m)
                         && st.minDiff == Some(Diff(obs, tan, xs[m]))
                         && st.minLoc == SamplePoint(xs[m]))
  }

  /** Scanning a concatenation is scanning the first part, then the second. */
  lemma {:induction false} ScanAppend(obs: Observer, tan: real -> real, a: seq<Sample>, b: seq<Sample>, st: ScanState)
    ensures Scan(obs, tan, a + b, st) ==
      match Scan(obs, tan, a, st)
      case Found(s) => Found(s)
      case Continue(st') => Scan(obs, tan, b, st')
    decreases |a|
  {
    if |a| == 0 {
      assert a + b == b;
    } else {
      assert (a + b)[0] == a[0];
      assert (a + b)[1..] == a[1..] + b;
      if !IsIntersection(obs, tan, st.lastElev, a[0]) {
        ScanAppend(obs, tan, a[1..], b, Record(obs, tan, st, a[0]));
      }
    }
  }

  /** Scanning one sample. */
  lemma ScanOne(obs: Observer, tan: real -> real, x: Sample, st: ScanState)
    ensures Scan(obs, tan, [x], st) ==
      if IsIntersection(obs, tan, st.lastElev, x) then Found(x) else Continue(Record(obs, tan, st, x))
  {
    assert [x][1..] == [];
  }

  /** Appending a sample leaves the earlier samples' tests unchanged and
      measures the new sample's slope from the last one. */
  lemma Extend(obs: Observer, tan: real -> real, ys: seq<Sample>, x: Sample)
    ensures forall j :: 0 <= j < |ys| ==> (ys + [x])[j] == ys[j]
    ensures forall j :: 0 <= j < |ys| ==> PassesAt(obs, tan, ys + [x], j) == PassesAt(obs, tan, ys, j)
    ensures PrevElev(obs, ys + [x], |ys|) == PrevElev(obs, ys, |ys|)
    ensures PassesAt(obs, tan, ys + [x], |ys|) == IsIntersection(obs, tan, PrevElev(obs, ys, |ys|), x)
  {
    var xs := ys + [x];
    assert forall j :: 0 <= j <= |ys| ==> PrevElev(obs, xs, j) == PrevElev(obs, ys, j);
  }

  /** Recording a non-intersecting sample keeps the running minimum right. */
  lemma {:induction false} RecordKeepsState(obs: Observer, tan: real -> real, ys: seq<Sample>, x: Sample, st: ScanState)
    requires StateAfter(obs, tan, ys, st)
    ensures StateAfter(obs, tan, ys + [x], Record(obs, tan, st, x))
  {
    var xs := ys + [x];
    var n := |ys|;
    Extend(obs, tan, ys, x);
    var d := Diff(obs, tan, x);
    if n == 0 {
      assert IsFirstMin(obs, tan, xs, 0);
    } else {
      var m :| && 0 <= m < n
               && IsFirstMin(obs, tan, ys, m)
               && st.minDiff == Some(Diff(obs, tan, ys[m]))
               && st.minLoc == SamplePoint(ys[m]);
      if Improves(st.minDiff, d) {
        assert IsFirstMin(obs, tan, xs, n);
      } else {
        assert IsFirstMin(obs, tan, xs, m);
      }
    }
  }

  /** A first hit of a stream stays the first hit when a sample is appended. */
  lemma FirstHitExtends(obs: Observer, tan: real -> real, ys: seq<Sample>, x: Sample, s: Sample)
    requires exists i: nat :: FirstHit(obs, tan, ys, i) && s == ys[i]
    ensures exists i: nat :: FirstHit(obs, tan, ys + [x], i) && s == (ys + [x])[i]
  {
    Extend(obs, tan, ys, x);
    var i: nat :| FirstHit(obs, tan, ys, i) && s == ys[i];
    assert FirstHit(obs, tan, ys + [x], i);
  }

  /** After a stream without a hit, the appended sample is the first hit if it
      intersects, and otherwise is recorded. */
  lemma NoHitExtends(obs: Observer, tan: real -> real, ys: seq<Sample>, x: Sample, st: ScanState)
    requires NoHit(obs, tan, ys) && StateAfter(obs, tan, ys, st)
    ensures IsIntersection(obs, tan, st.lastElev, x) ==> FirstHit(obs, tan, ys + [x], |ys|)
    ensures !IsIntersection(obs, tan, st.lastElev, x) ==>
      NoHit(obs, tan, ys + [x]) && StateAfter(obs, tan, ys + [x], Record(obs, tan, st, x))
  {
    Extend(obs, tan, ys, x);
    if !IsIntersection(obs, tan, st.lastElev, x) {
      RecordKeepsState(obs, tan, ys, x, st);
    }
  }

  /** Scanning a stream from the initial state finds exactly its first hit;
      without a hit it keeps the last elevation and the earliest least difference. */
  lemma {:induction false} ScanCharacterization(obs: Observer, tan: real -> real, xs: seq<Sample>)
    ensures Scan(obs, tan, xs, Initial(obs)).Found? ==>
      exists i: nat :: FirstHit(obs, tan, xs, i) && Scan(obs, tan, xs, Initial(obs)).hit == xs[i]
    ensures Scan(obs, tan, xs, Initial(obs)).Continue? ==>
      NoHit(obs, tan, xs) && StateAfter(obs, tan, xs, Scan(obs, tan, xs, Initial(obs)).state)
    decreases |xs|
  {
    if |xs| == 0 {
      return;
    }
    var n := |xs| - 1;
    var ys, x := xs[..n], xs[n];
    assert xs == ys + [x];
    Extend(obs, tan, ys, x);
    ScanCharacterization(obs, tan, ys);
    ScanAppend(obs, tan, ys, [x], Initial(obs));
    match Scan(obs, tan, ys, Initial(obs))
    case Found(s) =>
      FirstHitExtends(obs, tan, ys, x, s);
    case Continue(st) =>
      ScanOne(obs, tan, x, st);
      NoHitExtends(obs, tan, ys, x, st);
  }

  /** The samples of chunk `k` when the service delivered them, none otherwise. */
  ghost function ChunkSamples(fetch: nat -> Response, k: nat): seq<Sample>
  {
    if fetch(k).Received? then fetch(k).samples else []
  }

  /** The samples of chunks `0` to `k - 1`, in walk order. */
  ghost function Processed(fetch: nat -> Response, k: nat): seq<Sample>
    decreases k
  {
    if k == 0 then [] else Processed(fetch, k - 1) + ChunkSamples(fetch, k - 1)
  }

  /** Chunk `k` stops the walk before its samples are scanned: its request
      failed, or the operation was cancelled when the reply arrived. */
  ghost predicate Blocks(fetch: nat -> Response, cancelled: nat -> bool, k: nat)
  {
    !fetch(k).Received? || cancelled(k)
  }

  /** The first chunk from `k` on that stops the walk, or `ChunkCount` when none does. */
  ghost function HorizonFrom(fetch: nat -> Response, cancelled: nat -> bool, k: nat): (h: nat)
    requires k <= ChunkCount
    ensures k <= h <= ChunkCount
    ensures forall j :: k <= j < h ==> !Blocks(fetch, cancelled, j)
    ensures h < ChunkCount ==> Blocks(fetch, cancelled, h)
    decreases ChunkCount - k
  {
    if k == ChunkCount || Blocks(fetch, cancelled, k) then k
    else HorizonFrom(fetch, cancelled, k + 1)
  }

  /** The first chunk whose request fails or that is found cancelled (the walk
      ends there unless a hit ends it sooner), or `ChunkCount` when there is none. */
  ghost function Horizon(fetch: nat -> Response, cancelled: nat -> bool): nat
  {
    HorizonFrom(fetch, cancelled, 0)
  }

  /** Earlier chunks' samples are a prefix of later chunks' samples. */
  lemma {:induction false} ProcessedPrefix(fetch: nat -> Response, k: nat, h: nat)
    requires k <= h
    ensures Processed(fetch, k) <= Processed(fetch, h)
    decreases h - k
  {
    if k < h {
      ProcessedPrefix(fetch, k, h - 1);
    }
  }

  /** How the walk ends once the processed stream has been scanned to `r`. */
  ghost function Settle(r: ScanResult, fetch: nat -> Response, h: nat): Outcome
  {
    match r
    case Found(s) => Hit(s)
    case Continue(st) =>
      if h >= ChunkCount then Fallback(st.minLoc)
      else if !fetch(h).Received? then FetchFailed
      else WalkCancelled
  }

  /** Once a scan of a prefix stops on a sample, the scan of the whole stream stops there too. */
  lemma FoundPersists(obs: Observer, tan: real -> real, a: seq<Sample>, xs: seq<Sample>, s: Sample)
    requires a <= xs
    requires Scan(obs, tan, a, Initial(obs)) == Found(s)
    ensures Scan(obs, tan, xs, Initial(obs)) == Found(s)
  {
    assert xs == a + xs[|a|..];
    ScanAppend(obs, tan, a, xs[|a|..], Initial(obs));
  }

  /** At the horizon the walk ends with the fallback, the fetch error or the cancellation. */
  lemma WalkFromAtHorizon(obs: Observer, tan: real -> real, fetch: nat -> Response,
                          cancelled: nat -> bool, st: ScanState)
    ensures var h := Horizon(fetch, cancelled);
      WalkFrom(obs, tan, fetch, cancelled, h, st) == Settle(Continue(st), fetch, h)
  {
    var h := Horizon(fetch, cancelled);
    ChunkSchedule(h);
    GuardNeverFires(h, fetch(h));
  }

  /** Before the horizon a chunk is fetched, not cancelled, and scanned. */
  lemma WalkFromBeforeHorizon(obs: Observer, tan: real -> real, fetch: nat -> Response,
                              cancelled: nat -> bool, k: nat, st: ScanState)
    requires k < Horizon(fetch, cancelled)
    ensures fetch(k).Received?
    ensures WalkFrom(obs, tan, fetch, cancelled, k, st) ==
      match Scan(obs, tan, fetch(k).samples, st)
      case Found(s) => Hit(s)
      case Continue(st') => WalkFrom(obs, tan, fetch, cancelled, k + 1, st')
  {
    assert !Blocks(fetch, cancelled, k);
    ChunkSchedule(k);
    GuardNeverFires(k, fetch(k));
  }

  /** From any chunk up to the horizon, the recursive walk ends as the scan of
      the whole stream up to the horizon dictates. */
  lemma {:induction false} WalkFromSettles(obs: Observer, tan: real -> real, fetch: nat -> Response,
                                           cancelled: nat -> bool, k: nat, st: ScanState)
    requires k <= Horizon(fetch, cancelled)
    requires Scan(obs, tan, Processed(fetch, k), Initial(obs)) == Continue(st)
    ensures WalkFrom(obs, tan, fetch, cancelled, k, st) ==
      Settle(Scan(obs, tan, Processed(fetch, Horizon(fetch, cancelled)), Initial(obs)), fetch,
             Horizon(fetch, cancelled))
    decreases ChunkCount - k
  {
    var h := Horizon(fetch, cancelled);
    if k == h {
      WalkFromAtHorizon(obs, tan, fetch, cancelled, st);
      return;
    }
    WalkFromBeforeHorizon(obs, tan, fetch, cancelled, k, st);
    var samples := fetch(k).samples;
    var a := Processed(fetch, k + 1);
    assert a == Processed(fetch, k) + samples;
    ScanAppend(obs, tan, Processed(fetch, k), samples, Initial(obs));
    ProcessedPrefix(fetch, k + 1, h);
    match Scan(obs, tan, samples, st)
    case Found(s) =>
      FoundPersists(obs, tan, a, Processed(fetch, h), s);
    case Continue(st') =>
      WalkFromSettles(obs, tan, fetch, cancelled, k + 1, st');
  }

  /** What the walk returns, in terms of the stream `P` of samples it processes
      (all chunks before the horizon `h`): the first sample of `P` passing the
      test, where each sample's slope is measured from the sample just before it
      in `P`; otherwise the fallback after all chunks, the fetch error, or the
      cancellation at chunk `h`, in that order of precedence. */
  lemma WalkOutcome(obs: Observer, tan: real -> real, fetch: nat -> Response, cancelled: nat -> bool)
    ensures var h := Horizon(fetch, cancelled);
      var P := Processed(fetch, h);
      var r := Walk(obs, tan, fetch, cancelled);
      && (r.Hit? <==> !NoHit(obs, tan, P))
      && (r.Hit? ==> exists i: nat :: FirstHit(obs, tan, P, i) && r.at == P[i])
      && (NoHit(obs, tan, P) && h == ChunkCount ==>
            r.Fallback? && IsFallbackFor(obs, tan, P, r.place))
      && (NoHit(obs, tan, P) && h < ChunkCount && !fetch(h).Received? ==> r == FetchFailed)
      && (NoHit(obs, tan, P) && h < ChunkCount && fetch(h).Received? ==>
            cancelled(h) && r == WalkCancelled)
  {
    var h := Horizon(fetch, cancelled);
    var P := Processed(fetch, h);
    assert Processed(fetch, 0) == [];
    WalkFromSettles(obs, tan, fetch, cancelled, 0, Initial(obs));
    ScanCharacterization(obs, tan, P);
    match Scan(obs, tan, P, Initial(obs))
    case Found(s) =>
      var i: nat :| FirstHit(obs, tan, P, i) && s == P[i];
    case Continue(st) =>
  }

  /** The horizon is the first blocking chunk. */
  lemma HorizonIsFirstBlock(fetch: nat -> Response, cancelled: nat -> bool, k: nat)
    requires k < ChunkCount
    requires forall j :: 0 <= j < k ==> !Blocks(fetch, cancelled, j)
    requires Blocks(fetch, cancelled, k)
    ensures Horizon(fetch, cancelled) == k
  {
  }

  /** A failed request ends the walk with the fetch error, whatever the
      cancellation flag says for that chunk and whatever later chunks hold:
      the error check comes before the cancellation check. */
  lemma FetchErrorPrecedesCancel(obs: Observer, tan: real -> real, fetch: nat -> Response,
                                 cancelled: nat -> bool, k: nat)
    requires k < ChunkCount
    requires forall j :: 0 <= j < k ==> fetch(j).Received? && !cancelled(j)
    requires NoHit(obs, tan, Processed(fetch, k))
    requires !fetch(k).Received?
    ensures Walk(obs, tan, fetch, cancelled) == FetchFailed
  {
    HorizonIsFirstBlock(fetch, cancelled, k);
    WalkOutcome(obs, tan, fetch, cancelled);
  }

  /** Cancellation observed after a successful request ends the walk as
      cancelled, before that chunk's samples are looked at and without the
      fallback candidate. */
  lemma CancelAfterFetch(obs: Observer, tan: real -> real, fetch: nat -> Response,
                         cancelled: nat -> bool, k: nat)
    requires k < ChunkCount
    requires forall j :: 0 <= j < k ==> fetch(j).Received? && !cancelled(j)
    requires NoHit(obs, tan, Processed(fetch, k))
    requires fetch(k).Received? && cancelled(k)
    ensures Walk(obs, tan, fetch, cancelled) == WalkCancelled
    ensures Report(Walk(obs, tan, fetch, cancelled)) == (None, Some(Cancelled))
  {
    HorizonIsFirstBlock(fetch, cancelled, k);
    WalkOutcome(obs, tan, fetch, cancelled);
  }

  /** The walk from chunk `k` reads no reply and no cancellation flag of a
      chunk at or beyond `ChunkCount`. */
  lemma {:induction false} WalkFromFrame(obs: Observer, tan: real -> real,
                                         fetch: nat -> Response, cancelled: nat -> bool,
                                         fetch': nat -> Response, cancelled': nat -> bool,
                                         k: nat, st: ScanState)
    requires forall j :: k <= j < ChunkCount ==> fetch(j) == fetch'(j) && cancelled(j) == cancelled'(j)
    ensures WalkFrom(obs, tan, fetch, cancelled, k, st) == WalkFrom(obs, tan, fetch', cancelled', k, st)
    decreases ChunkCount - k
  {
    ChunkSchedule(k);
    if k < ChunkCount {
      match GetElevationPath(ChunkLength(k), fetch(k))
      case Failure(_) =>
      case Success(samples) =>
        match Scan(obs, tan, samples, st)
        case Found(_) =>
        case Continue(st') =>
          WalkFromFrame(obs, tan, fetch, cancelled, fetch', cancelled', k + 1, st');
    }
  }

  /** At most `ChunkCount` requests matter: two worlds that agree on the
      first `ChunkCount` chunks give the same walk. */
  lemma AtMostChunkCountFetches(obs: Observer, tan: real -> real,
                                fetch: nat -> Response, cancelled: nat -> bool,
                                fetch': nat -> Response, cancelled': nat -> bool)
    requires forall j :: 0 <= j < ChunkCount ==> fetch(j) == fetch'(j) && cancelled(j) == cancelled'(j)
    ensures Walk(obs, tan, fetch, cancelled) == Walk(obs, tan, fetch', cancelled')
  {
    WalkFromFrame(obs, tan, fetch, cancelled, fetch', cancelled', 0, Initial(obs));
  }
}
