/**
 * The two selection loops that the demos repeat.
 *
 * The nearest raycast hit: the demos walk their shapes in order, keep a
 * running nearest hit, and let a hit replace it when nothing was hit before
 * or when the new hit is strictly nearer. The 3D demo runs that walk over
 * several containers one after another, carrying the running state along.
 *
 * The closest candidate point: the demos walk candidate points with a running
 * closest distance that starts at the sentinel 99999 and a running point
 * that starts as the zero vector; a strictly smaller distance replaces both.
 */
module Selection {

  /** RaycastResult2D / RaycastResult3D, reduced to what the selection reads. */
  datatype RaycastResult<P> = RaycastResult(didImpact: bool, impactDist: real, impactPos: P)

  ghost predicate AnyHit<P>(hits: seq<RaycastResult<P>>)
  {
    exists j :: 0 <= j < |hits| && hits[j].didImpact
  }

  /** Hit i is strictly nearer than every hit before it. */
  ghost predicate IsRecord<P>(hits: seq<RaycastResult<P>>, i: int)
  {
    0 <= i < |hits| && hits[i].didImpact &&
    forall j :: 0 <= j < i && hits[j].didImpact ==> hits[i].impactDist < hits[j].impactDist
  }

  /** Index k is the lowest index among the hits of minimal impact distance. */
  ghost predicate IsNearest<P>(hits: seq<RaycastResult<P>>, k: int)
  {
    0 <= k < |hits| && hits[k].didImpact &&
    (forall j :: 0 <= j < |hits| && hits[j].didImpact ==> hits[k].impactDist <= hits[j].impactDist) &&
    (forall j :: 0 <= j < k && hits[j].didImpact ==> hits[k].impactDist < hits[j].impactDist)
  }

  /**
   * The running state of a scan: whether anything was hit, the nearest hit
   * so far, and the index (within its own container) of that hit.
   */
  datatype Running<P> = Running(didHit: bool, nearestImpact: RaycastResult<P>, nearestIndex: int)

  /** The running state is the right summary of the hits seen so far. */
  ghost predicate Summarises<P>(seen: seq<RaycastResult<P>>, run: Running<P>)
  {
    (run.didHit <==> AnyHit(seen)) &&
    (run.didHit ==> exists g :: IsNearest(seen, g) && seen[g] == run.nearestImpact)
  }

  /** Hit i of a container walked after the hits `seen` is a record of the whole walk. */
  ghost predicate IsRecordInBlock<P>(seen: seq<RaycastResult<P>>, hits: seq<RaycastResult<P>>, i: int)
  {
    IsRecord(seen + hits, |seen| + i)
  }

  /** Some hit of a container walked after the hits `seen` is a record of the whole walk. */
  ghost predicate HasRecord<P>(seen: seq<RaycastResult<P>>, hits: seq<RaycastResult<P>>)
  {
    exists i :: 0 <= i < |hits| && IsRecordInBlock(seen, hits, i)
  }

  /** The condition under which the scan lets hit h replace the running state. */
  predicate Replaces<P>(run: Running<P>, h: RaycastResult<P>)
  {
    h.didImpact && (!run.didHit || h.impactDist < run.nearestImpact.impactDist)
  }

  lemma ReplacingHitIsNearest<P>(seen: seq<RaycastResult<P>>, run: Running<P>, h: RaycastResult<P>)
    requires Summarises(seen, run)
    requires Replaces(run, h)
    ensures IsNearest(seen + [h], |seen|) && IsRecord(seen + [h], |seen|)
  {
    var s := seen + [h];
    if run.didHit {
      var g :| IsNearest(seen, g) && seen[g] == run.nearestImpact;
      forall j | 0 <= j < |seen| && s[j].didImpact
        ensures h.impactDist < s[j].impactDist
      {
        assert s[j] == seen[j];
      }
    } else {
      forall j | 0 <= j < |seen|
        ensures !s[j].didImpact
      {
        assert s[j] == seen[j];
      }
    }
  }

  lemma KeptStateStillSummarises<P>(seen: seq<RaycastResult<P>>, run: Running<P>, h: RaycastResult<P>)
    requires Summarises(seen, run)
    requires !Replaces(run, h)
    ensures Summarises(seen + [h], run)
    ensures !IsRecord(seen + [h], |seen|)
  {
    var s := seen + [h];
    forall j | 0 <= j < |seen|
      ensures s[j] == seen[j]
    {
    }
    if run.didHit {
      var g :| IsNearest(seen, g) && seen[g] == run.nearestImpact;
      assert IsNearest(s, g);
    } else {
      assert !h.didImpact;
      assert !AnyHit(s);
    }
  }

  lemma RecordDependsOnPrefix<P>(a: seq<RaycastResult<P>>, m: int, p: int)
    requires 0 <= p < m <= |a|
    ensures IsRecord(a, p) <==> IsRecord(a[..m], p)
  {
    assert forall j :: 0 <= j <= p ==> a[..m][j] == a[j];
  }

  /** What the scan loop keeps true after walking the first i hits of `hits`. */
  ghost predicate ScanInvariant<P>(seen: seq<RaycastResult<P>>, hits: seq<RaycastResult<P>>, i: int,
                                   run: Running<P>, next: Running<P>, replaced: bool)
  {
    0 <= i <= |hits| &&
    Summarises(seen + hits[..i], next) &&
    (replaced <==> exists j :: 0 <= j < i && IsRecordInBlock(seen, hits, j)) &&
    (replaced ==> 0 <= next.nearestIndex < i && next.didHit
                  && IsNearest(seen + hits[..i], |seen| + next.nearestIndex)
                  && next.nearestImpact == hits[next.nearestIndex]) &&
    (!replaced ==> next == run)
  }

  lemma ScanStep<P>(seen: seq<RaycastResult<P>>, hits: seq<RaycastResult<P>>, i: int,
                    run: Running<P>, next: Running<P>, replaced: bool)
    requires i < |hits| && ScanInvariant(seen, hits, i, run, next, replaced)
    ensures Replaces(next, hits[i]) ==> ScanInvariant(seen, hits, i + 1, run, Running(true, hits[i], i), true)
    ensures !Replaces(next, hits[i]) ==> ScanInvariant(seen, hits, i + 1, run, next, replaced)
  {
    var h := hits[i];
    var before := seen + hits[..i];
    assert before + [h] == seen + hits[..i + 1];
    assert (seen + hits)[..|seen| + i + 1] == seen + hits[..i + 1];
    RecordDependsOnPrefix(seen + hits, |seen| + i + 1, |seen| + i);
    if Replaces(next, h) {
      ReplacingHitIsNearest(before, next, h);
      assert IsRecordInBlock(seen, hits, i);
    } else {
      KeptStateStillSummarises(before, next, h);
      assert !IsRecordInBlock(seen, hits, i);
      if replaced {
        assert IsNearest(before + [h], |seen| + next.nearestIndex);
      }
    }
  }

  lemma ScanStart<P>(seen: seq<RaycastResult<P>>, hits: seq<RaycastResult<P>>, run: Running<P>)
    requires Summarises(seen, run)
    ensures ScanInvariant(seen, hits, 0, run, run, false)
  {
    assert seen + hits[..0] == seen;
  }

  lemma ScanDone<P>(seen: seq<RaycastResult<P>>, hits: seq<RaycastResult<P>>, i: int,
                    run: Running<P>, next: Running<P>, replaced: bool)
    requires i >= |hits| && ScanInvariant(seen, hits, i, run, next, replaced)
    ensures Summarises(seen + hits, next)
    ensures replaced <==> exists i :: 0 <= i < |hits| && IsRecordInBlock(seen, hits, i)
    ensures replaced ==> 0 <= next.nearestIndex < |hits| && next.didHit
                         && IsNearest(seen + hits, |seen| + next.nearestIndex)
                         && next.nearestImpact == hits[next.nearestIndex]
    ensures !replaced ==> next == run
  {
    assert i == |hits| && hits[..i] == hits;
  }

  /**
   * Continues a scan over one more container: `seen` are the hits of the
   * containers already walked, summarised by `run`. Afterwards the state
   * summarises `seen + hits`; `replaced` says whether some hit of this
   * container replaced the running nearest, in which case the reported index
   * is that hit's index within `hits`; otherwise the state is unchanged.
   */
  method ScanForNearest<P>(run: Running<P>, hits: seq<RaycastResult<P>>, ghost seen: seq<RaycastResult<P>>)
    returns (next: Running<P>, replaced: bool)
    requires Summarises(seen, run)
    ensures Summarises(seen + hits, next)
    ensures replaced <==> exists i :: 0 <= i < |hits| && IsRecordInBlock(seen, hits, i)
    ensures replaced ==> 0 <= next.nearestIndex < |hits| && next.didHit
                         && IsNearest(seen + hits, |seen| + next.nearestIndex)
                         && next.nearestImpact == hits[next.nearestIndex]
    ensures !replaced ==> next == run
  {
    ghost var i;
    next, replaced, i := ScanLoop(run, hits, seen);
    ScanDone(seen, hits, i, run, next, replaced);
  }

  /** The loop of ScanForNearest; `walked` is how many hits it has walked. */
  method ScanLoop<P>(run: Running<P>, hits: seq<RaycastResult<P>>, ghost seen: seq<RaycastResult<P>>)
    returns (next: Running<P>, replaced: bool, ghost walked: int)
    requires Summarises(seen, run)
    ensures walked >= |hits| && ScanInvariant(seen, hits, walked, run, next, replaced)
  {
    next, replaced := run, false;
    ScanStart(seen, hits, run);
    for i := 0 to |hits|
      invariant ScanInvariant(seen, hits, i, run, next, replaced)
    {
      next, replaced := ScanOne(seen, hits, i, run, next, replaced);
    }
    walked := |hits|;
  }

  /** One iteration: hit i replaces the running nearest when it is a hit and nothing nearer was seen. */
  method ScanOne<P>(ghost seen: seq<RaycastResult<P>>, hits: seq<RaycastResult<P>>, i: int,
                    ghost run: Running<P>, next: Running<P>, replaced: bool)
    returns (next': Running<P>, replaced': bool)
    requires 0 <= i < |hits| && ScanInvariant(seen, hits, i, run, next, replaced)
    ensures ScanInvariant(seen, hits, i + 1, run, next', replaced')
  {
    ScanStep(seen, hits, i, run, next, replaced);
    next', replaced' := next, replaced;
    if Replaces(next, hits[i]) {
      next', replaced' := Running(true, hits[i], i), true;
    }
  }

  /**
   * The running nearest, when there is one, is hit `nearestIndex` of the
   * container of `len` hits that starts at position `start` of the walk.
   */
  ghost predicate Located<P>(all: seq<RaycastResult<P>>, run: Running<P>, start: int, len: int)
  {
    run.didHit ==>
      0 <= run.nearestIndex < len && IsNearest(all, start + run.nearestIndex) &&
      all[start + run.nearestIndex] == run.nearestImpact
  }

  /**
   * ScanForNearest, carrying where the running nearest lies: in this
   * container when one of its hits replaced it, where it was otherwise.
   */
  method ScanNext<P>(run: Running<P>, hits: seq<RaycastResult<P>>, ghost seen: seq<RaycastResult<P>>,
                     ghost start: int, ghost len: int)
    returns (next: Running<P>, replaced: bool)
    requires Summarises(seen, run) && Located(seen, run, start, len)
    ensures Summarises(seen + hits, next)
    ensures replaced <==> HasRecord(seen, hits)
    ensures replaced ==> next.didHit && Located(seen + hits, next, |seen|, |hits|)
    ensures !replaced ==> next == run && Located(seen + hits, next, start, len)
  {
    next, replaced := ScanForNearest(run, hits, seen);
    if replaced {
      assert (seen + hits)[|seen| + next.nearestIndex] == hits[next.nearestIndex];
    } else {
      KeptLocated(seen, hits, next, start, len);
    }
  }

  /**
   * A running nearest that survives a container stays where it was: the
   * nearest hit of the containers already walked is the nearest of the
   * longer walk when the running state still holds it afterwards.
   */
  lemma KeptLocated<P>(seen: seq<RaycastResult<P>>, hits: seq<RaycastResult<P>>, run: Running<P>,
                       start: int, len: int)
    requires Summarises(seen + hits, run) && Located(seen, run, start, len)
    ensures Located(seen + hits, run, start, len)
  {
    if run.didHit {
      var all := seen + hits;
      var k := start + run.nearestIndex;
      assert all[k] == seen[k];
      var g :| IsNearest(all, g) && all[g] == run.nearestImpact;
      forall j | 0 <= j < |all| && all[j].didImpact
        ensures all[k].impactDist <= all[j].impactDist
      {
        if j < |seen| {
          assert all[j] == seen[j];
        }
      }
      forall j | 0 <= j < k && all[j].didImpact
        ensures all[k].impactDist < all[j].impactDist
      {
        assert all[j] == seen[j];
      }
    }
  }

  /** The state of a scan that has seen nothing yet. */
  function Fresh<P>(blank: RaycastResult<P>, initialIndex: int): (run: Running<P>)
    ensures !run.didHit && run.nearestIndex == initialIndex
  {
    Running(false, blank, initialIndex)
  }

  /**
   * The whole scan over one container: a hit is reported exactly when
   * something was hit, and the reported index is the lowest one among the
   * hits of minimal distance; with no hit the index keeps its initial value.
   */
  method NearestHit<P>(hits: seq<RaycastResult<P>>, blank: RaycastResult<P>, initialIndex: int)
    returns (didHit: bool, nearest: int, nearestImpact: RaycastResult<P>)
    ensures didHit <==> AnyHit(hits)
    ensures didHit ==> IsNearest(hits, nearest) && nearestImpact == hits[nearest]
    ensures !didHit ==> nearest == initialIndex && nearestImpact == blank
  {
    assert [] + hits == hits;
    var next, replaced := ScanForNearest(Fresh(blank, initialIndex), hits, []);
    didHit, nearest, nearestImpact := next.didHit, next.nearestIndex, next.nearestImpact;
  }

  /** At most one index is the nearest hit, so the selection is determined by the hits. */
  lemma NearestIsUnique<P>(hits: seq<RaycastResult<P>>, k1: int, k2: int)
    requires IsNearest(hits, k1) && IsNearest(hits, k2)
    ensures k1 == k2
  {
  }

  /** Whenever something is hit, some index is the nearest hit. */
  lemma {:induction false} NearestExists<P>(hits: seq<RaycastResult<P>>)
    requires AnyHit(hits)
    ensures exists k :: IsNearest(hits, k)
  {
    var n := |hits| - 1;
    var init := hits[..n];
    assert hits == init + [hits[n]];
    if !AnyHit(init) {
      assert IsNearest(hits, n);
    } else {
      NearestExists(init);
      var k :| IsNearest(init, k);
      if hits[n].didImpact && hits[n].impactDist < hits[k].impactDist {
        assert IsNearest(hits, n);
      } else {
        assert IsNearest(hits, k);
      }
    }
  }

  // ---------------------------------------------------------------------
  // Closest candidate point against the 99999 sentinel.

  const Sentinel: real := 99999.0

  /**
   * Index k holds the first candidate of minimal distance, and that distance
   * is below the sentinel.
   */
  ghost predicate IsClosest<P>(candidates: seq<P>, dist: P -> real, k: int)
  {
    0 <= k < |candidates| && dist(candidates[k]) < Sentinel &&
    (forall j :: 0 <= j < |candidates| ==> dist(candidates[k]) <= dist(candidates[j])) &&
    (forall j :: 0 <= j < k ==> dist(candidates[k]) < dist(candidates[j]))
  }

  ghost predicate AnyBelowSentinel<P>(candidates: seq<P>, dist: P -> real)
  {
    exists j :: 0 <= j < |candidates| && dist(candidates[j]) < Sentinel
  }

  /**
   * The running-minimum loop: the result is the first candidate of minimal
   * distance when some candidate is nearer than the sentinel, and the
   * starting point otherwise.
   */
  method ClosestCandidate<P>(candidates: seq<P>, dist: P -> real, start: P) returns (closest: P)
    ensures AnyBelowSentinel(candidates, dist) ==>
              exists k :: IsClosest(candidates, dist, k) && closest == candidates[k]
    ensures !AnyBelowSentinel(candidates, dist) ==> closest == start
  {
    var closestDistance := Sentinel;
    closest := start;
    ghost var k := -1;
    for i := 0 to |candidates|
      invariant -1 <= k < i
      invariant k == -1 ==> closestDistance == Sentinel && closest == start
      invariant k == -1 ==> forall j :: 0 <= j < i ==> dist(candidates[j]) >= Sentinel
      invariant k >= 0 ==> closest == candidates[k] && closestDistance == dist(candidates[k])
                           && closestDistance < Sentinel
      invariant k >= 0 ==> forall j :: 0 <= j < i ==> closestDistance <= dist(candidates[j])
      invariant k >= 0 ==> forall j :: 0 <= j < k ==> closestDistance < dist(candidates[j])
    {
      var d := dist(candidates[i]);
      if d < closestDistance {
        closestDistance := d;
        closest := candidates[i];
        k := i;
      }
    }
    if k >= 0 {
      assert IsClosest(candidates, dist, k);
    }
  }
}
