/**
 * The Separating Axis Theorem test of pyrate/engine/game.py: `collide`, which
 * decides whether two convex hitboxes overlap, and `sat_mtv`, which also computes
 * the minimum translation vector.
 */
module Sat {
  import opened Numeric
  import opened Geometry

  /** The scalar product of the axis (ax, ay) and the vertex p. */
  function Dot(ax: real, ay: real, p: Point): real {
    ax * p.x + ay * p.y
  }

  /** The projections of every vertex of `poly` onto the axis (ax, ay). */
  function Project(ax: real, ay: real, poly: Polygon): (r: seq<real>)
    ensures |r| == |poly|
  {
    if poly == [] then [] else [Dot(ax, ay, poly[0])] + Project(ax, ay, poly[1..])
  }

  /** Python's `min` of a non-empty list. */
  function SeqMin(s: seq<real>): real
    requires |s| > 0
  {
    if |s| == 1 then s[0] else Min(s[0], SeqMin(s[1..]))
  }

  /** Python's `max` of a non-empty list. */
  function SeqMax(s: seq<real>): real
    requires |s| > 0
  {
    if |s| == 1 then s[0] else Max(s[0], SeqMax(s[1..]))
  }

  /** `SeqMin` is an element of the list and no element is smaller. */
  lemma {:induction false} SeqMinIsMinimum(s: seq<real>)
    requires |s| > 0
    ensures SeqMin(s) in s
    ensures forall k :: 0 <= k < |s| ==> SeqMin(s) <= s[k]
  {
    if |s| > 1 {
      SeqMinIsMinimum(s[1..]);
      forall k | 1 <= k < |s| ensures SeqMin(s) <= s[k] {
        assert s[k] == s[1..][k - 1];
      }
    }
  }

  /** `SeqMax` is an element of the list and no element is larger. */
  lemma {:induction false} SeqMaxIsMaximum(s: seq<real>)
    requires |s| > 0
    ensures SeqMax(s) in s
    ensures forall k :: 0 <= k < |s| ==> s[k] <= SeqMax(s)
  {
    if |s| > 1 {
      SeqMaxIsMaximum(s[1..]);
      forall k | 1 <= k < |s| ensures s[k] <= SeqMax(s) {
        assert s[k] == s[1..][k - 1];
      }
    }
  }

  /** Projection lists have the value the source computes at each vertex. */
  lemma {:induction false} ProjectAt(ax: real, ay: real, poly: Polygon, k: nat)
    requires k < |poly|
    ensures Project(ax, ay, poly)[k] == Dot(ax, ay, poly[k])
  {
    if k > 0 {
      ProjectAt(ax, ay, poly[1..], k - 1);
    }
  }

  /** `(k + 1) % n`: the index of the vertex after vertex k. */
  function NextIndex(k: nat, n: nat): (r: nat)
    requires k < n
    ensures r < n
    ensures r == 0 <==> k == n - 1
  {
    if k + 1 == n then 0 else k + 1
  }

  /** The axis perpendicular to the edge from vertex k to vertex k+1 (wrapping round). */
  function EdgeAxis(points: Polygon, k: nat): (real, real)
    requires k < |points|
  {
    var p, q := points[k], points[NextIndex(k, |points|)];
    (-(q.y - p.y), q.x - p.x)
  }

  /** The test `max(proj1) < min(proj2) or max(proj2) < min(proj1)` of `collide`:
      the projections of the two polygons onto the axis are disjoint intervals. */
  predicate SeparatesOn(axis: (real, real), p1: Polygon, p2: Polygon)
    requires |p1| > 0 && |p2| > 0
  {
    var a, b := Project(axis.0, axis.1, p1), Project(axis.0, axis.1, p2);
    SeqMax(a) < SeqMin(b) || SeqMax(b) < SeqMin(a)
  }

  /** The inner loop of `collide` from edge k on: no edge of `points` from k on
      yields a separating axis. */
  predicate NoSeparatingEdgeFrom(points: Polygon, k: nat, p1: Polygon, p2: Polygon)
    requires |p1| > 0 && |p2| > 0
    decreases |points| - k
  {
    k >= |points| || (!SeparatesOn(EdgeAxis(points, k), p1, p2) && NoSeparatingEdgeFrom(points, k + 1, p1, p2))
  }

  /** `collide`: the hitboxes overlap unless an edge normal of either one separates
      them.  Intervals that only touch do not separate. */
  predicate Collide(p1: Polygon, p2: Polygon)
    requires |p1| > 0 && |p2| > 0
  {
    NoSeparatingEdgeFrom(p1, 0, p1, p2) && NoSeparatingEdgeFrom(p2, 0, p1, p2)
  }

  /** The loop of `collide` agrees with the statement of the theorem: no edge normal
      of either polygon is a separating axis. */
  lemma {:induction false} NoSeparatingEdgeFromMeans(points: Polygon, k: nat, p1: Polygon, p2: Polygon)
    requires |p1| > 0 && |p2| > 0
    ensures NoSeparatingEdgeFrom(points, k, p1, p2) <==>
            forall j :: k <= j < |points| ==> !SeparatesOn(EdgeAxis(points, j), p1, p2)
    decreases |points| - k
  {
    if k < |points| {
      NoSeparatingEdgeFromMeans(points, k + 1, p1, p2);
      if NoSeparatingEdgeFrom(points, k, p1, p2) {
        forall j | k <= j < |points|
          ensures !SeparatesOn(EdgeAxis(points, j), p1, p2)
        {
          if j > k {}
        }
      } else {
        if SeparatesOn(EdgeAxis(points, k), p1, p2) {
        } else {
          var j :| k + 1 <= j < |points| && SeparatesOn(EdgeAxis(points, j), p1, p2);
        }
      }
    }
  }

  lemma CollideMeans(p1: Polygon, p2: Polygon)
    requires |p1| > 0 && |p2| > 0
    ensures Collide(p1, p2) <==>
            (forall j :: 0 <= j < |p1| ==> !SeparatesOn(EdgeAxis(p1, j), p1, p2)) &&
            (forall j :: 0 <= j < |p2| ==> !SeparatesOn(EdgeAxis(p2, j), p1, p2))
  {
    NoSeparatingEdgeFromMeans(p1, 0, p1, p2);
    NoSeparatingEdgeFromMeans(p2, 0, p1, p2);
  }

  lemma {:induction false} NoSeparatingEdgeFromSymmetric(points: Polygon, k: nat, p1: Polygon, p2: Polygon)
    requires |p1| > 0 && |p2| > 0
    ensures NoSeparatingEdgeFrom(points, k, p1, p2) == NoSeparatingEdgeFrom(points, k, p2, p1)
    decreases |points| - k
  {
    if k < |points| {
      NoSeparatingEdgeFromSymmetric(points, k + 1, p1, p2);
    }
  }

  /** `collide(a, b) == collide(b, a)`: both polygons' edges are tried and the
      interval test is symmetric. */
  lemma CollideSymmetric(p1: Polygon, p2: Polygon)
    requires |p1| > 0 && |p2| > 0
    ensures Collide(p1, p2) == Collide(p2, p1)
  {
    NoSeparatingEdgeFromSymmetric(p1, 0, p1, p2);
    NoSeparatingEdgeFromSymmetric(p2, 0, p1, p2);
  }

  lemma {:induction false} NoSeparatingEdgeFromSelf(points: Polygon, k: nat, p: Polygon)
    requires |p| > 0
    ensures NoSeparatingEdgeFrom(points, k, p, p)
    decreases |points| - k
  {
    if k < |points| {
      var axis := EdgeAxis(points, k);
      var a := Project(axis.0, axis.1, p);
      SeqMinIsMinimum(a);
      SeqMaxIsMaximum(a);
      NoSeparatingEdgeFromSelf(points, k + 1, p);
    }
  }

  /** Touching intervals count as overlapping, so a hitbox always collides with itself
      (two ships at the same place and heading always collide). */
  lemma CollideSelf(p: Polygon)
    requires |p| > 0
    ensures Collide(p, p)
  {
    NoSeparatingEdgeFromSelf(p, 0, p);
  }

  // ---------------------------------------------------------------------------
  // sat_mtv

  /** The result of `sat_mtv`: `None` when some axis separates the polygons, the
      push-out vector otherwise.  When every edge of both polygons has length zero
      no axis is tried and the source returns `(0 * inf, 0 * inf)`, a pair of NaNs;
      `NoAxis` stands for that result. */
  datatype MtvResult = Separated | Push(axis: (real, real), depth: real) | NoAxis
  {
    /** The vector `(mtv_axis[0] * min_overlap, mtv_axis[1] * min_overlap)` that the
        source returns for a push. */
    function Vector(): (real, real)
      requires Push?
    {
      (axis.0 * depth, axis.1 * depth)
    }
  }

  /** The unit axis of edge k, or nothing when the edge has length zero
      (`math.hypot` of the axis is 0). */
  function UnitEdgeAxis(t: Trig, points: Polygon, k: nat): (r: seq<(real, real)>)
    requires k < |points|
    ensures |r| <= 1
  {
    var axis := EdgeAxis(points, k);
    var length := t.Hypot(axis.0, axis.1);
    if length == 0.0 then [] else [(axis.0 / length, axis.1 / length)]
  }

  /** With sound math functions, an edge yields an axis exactly when it has non-zero
      length, and that axis is a unit vector. */
  lemma UnitEdgeAxisMeans(t: Trig, points: Polygon, k: nat)
    requires t.Sound()
    requires k < |points|
    ensures var r := UnitEdgeAxis(t, points, k);
      && (|r| == 0 <==> EdgeAxis(points, k) == (0.0, 0.0))
      && (|r| == 1 ==> IsUnit(r[0]))
  {
    var axis := EdgeAxis(points, k);
    if t.Hypot(axis.0, axis.1) != 0.0 {
      UnitDirection(t, axis.0, axis.1);
    }
  }

  /** With sound math functions, every axis `sat_mtv` tries is a unit vector. */
  lemma {:induction false} UnitAxesFromAreUnit(t: Trig, points: Polygon, k: nat)
    requires t.Sound()
    requires k <= |points|
    ensures forall j :: 0 <= j < |UnitAxesFrom(t, points, k)| ==> IsUnit(UnitAxesFrom(t, points, k)[j])
    decreases |points| - k
  {
    if k < |points| {
      UnitEdgeAxisMeans(t, points, k);
      UnitAxesFromAreUnit(t, points, k + 1);
      var e, rest := UnitEdgeAxis(t, points, k), UnitAxesFrom(t, points, k + 1);
      var all: seq<(real, real)> := e + rest;
      assert UnitAxesFrom(t, points, k) == all;
      forall j | 0 <= j < |all|
        ensures IsUnit(all[j])
      {
        if j >= |e| {
          assert all[j] == rest[j - |e|];
        } else {
          assert all[j] == e[0];
        }
      }
    }
  }

  /** The normalised axes `sat_mtv` tries for the edges of `points` from edge k on, in order. */
  function UnitAxesFrom(t: Trig, points: Polygon, k: nat): (r: seq<(real, real)>)
    requires k <= |points|
    ensures |r| <= |points| - k
    decreases |points| - k
  {
    if k == |points| then [] else UnitEdgeAxis(t, points, k) + UnitAxesFrom(t, points, k + 1)
  }

  /** Every axis `sat_mtv` tries: those of the edges of p1, then those of p2. */
  function AllUnitAxes(t: Trig, p1: Polygon, p2: Polygon): seq<(real, real)> {
    UnitAxesFrom(t, p1, 0) + UnitAxesFrom(t, p2, 0)
  }

  /** `min(max1, max2) - max(min1, min2)`: how far the two projections overlap. */
  function Overlap(axis: (real, real), p1: Polygon, p2: Polygon): real
    requires |p1| > 0 && |p2| > 0
  {
    var a, b := Project(axis.0, axis.1, p1), Project(axis.0, axis.1, p2);
    Min(SeqMax(a), SeqMax(b)) - Max(SeqMin(a), SeqMin(b))
  }

  /** The overlap on each of the given axes. */
  function Overlaps(axes: seq<(real, real)>, p1: Polygon, p2: Polygon): (r: seq<real>)
    requires |p1| > 0 && |p2| > 0
    ensures |r| == |axes|
  {
    if axes == [] then [] else [Overlap(axes[0], p1, p2)] + Overlaps(axes[1..], p1, p2)
  }

  lemma {:induction false} OverlapsAt(axes: seq<(real, real)>, p1: Polygon, p2: Polygon, k: nat)
    requires |p1| > 0 && |p2| > 0
    requires k < |axes|
    ensures Overlaps(axes, p1, p2)[k] == Overlap(axes[k], p1, p2)
  {
    if k > 0 {
      OverlapsAt(axes[1..], p1, p2, k - 1);
    }
  }

  /** The smallest overlap seen so far and its axis; `NoCandidate` while
      `min_overlap` is still infinity. */
  datatype Candidate = NoCandidate | Candidate(axis: (real, real), overlap: real)

  /** The scan of `sat_mtv` over the remaining axes, whose overlaps are `ovs`,
      starting from the best candidate found so far. */
  function MtvScan(axes: seq<(real, real)>, ovs: seq<real>, best: Candidate): MtvResult
    requires |ovs| == |axes|
  {
    if axes == [] then
      if best.NoCandidate? then NoAxis
      else Push(best.axis, best.overlap)
    else if ovs[0] <= 0.0 then Separated
    else MtvScan(axes[1..], ovs[1..],
                 if best.NoCandidate? || ovs[0] < best.overlap then Candidate(axes[0], ovs[0]) else best)
  }

  /** What `sat_mtv(poly1, poly2)` returns. */
  function Mtv(t: Trig, p1: Polygon, p2: Polygon): MtvResult
    requires |p1| > 0 && |p2| > 0
  {
    var axes := AllUnitAxes(t, p1, p2);
    MtvScan(axes, Overlaps(axes, p1, p2), NoCandidate)
  }

  /** The scan stops with `Separated` exactly when some remaining axis has no positive overlap. */
  lemma {:induction false} MtvScanSeparated(axes: seq<(real, real)>, ovs: seq<real>, best: Candidate)
    requires |ovs| == |axes|
    ensures MtvScan(axes, ovs, best) == Separated <==> exists j :: 0 <= j < |ovs| && ovs[j] <= 0.0
  {
    if axes != [] && 0.0 < ovs[0] {
      var next := if best.NoCandidate? || ovs[0] < best.overlap then Candidate(axes[0], ovs[0]) else best;
      MtvScanSeparated(axes[1..], ovs[1..], next);
      if exists j :: 0 <= j < |ovs| && ovs[j] <= 0.0 {
        var j :| 0 <= j < |ovs| && ovs[j] <= 0.0;
        assert ovs[1..][j - 1] == ovs[j];
      }
    }
  }

  /** The scan ends in `NoAxis` exactly when there is nothing to scan and no candidate yet. */
  lemma {:induction false} MtvScanNoAxis(axes: seq<(real, real)>, ovs: seq<real>, best: Candidate)
    requires |ovs| == |axes|
    ensures MtvScan(axes, ovs, best) == NoAxis <==> axes == [] && best.NoCandidate?
  {
    if axes != [] && 0.0 < ovs[0] {
      MtvScanNoAxis(axes[1..], ovs[1..], Candidate(axes[0], ovs[0]));
      MtvScanNoAxis(axes[1..], ovs[1..], best);
    }
  }

  /** When the scan pushes, the push is the smallest overlap (counting the
      candidate carried in) along the axis where it first occurs, and it is positive. */
  lemma {:induction false} MtvScanPush(axes: seq<(real, real)>, ovs: seq<real>, best: Candidate)
    requires |ovs| == |axes|
    requires best.Candidate? ==> 0.0 < best.overlap
    ensures var r := MtvScan(axes, ovs, best);
      r.Push? ==>
        || (&& best.Candidate?
            && r == Push(best.axis, best.overlap)
            && (forall i :: 0 <= i < |ovs| ==> best.overlap <= ovs[i]))
        || (exists j :: 0 <= j < |ovs| && (
             && 0.0 < ovs[j]
             && r == Push(axes[j], ovs[j])
             && (best.Candidate? ==> ovs[j] < best.overlap)
             && (forall i :: 0 <= i < |ovs| ==> ovs[j] <= ovs[i])
             && (forall i :: 0 <= i < j ==> ovs[j] < ovs[i])))
  {
    var r := MtvScan(axes, ovs, best);
    if axes != [] && 0.0 < ovs[0] && r.Push? {
      var o := ovs[0];
      var rest, restOvs := axes[1..], ovs[1..];
      var next := if best.NoCandidate? || o < best.overlap then Candidate(axes[0], o) else best;
      MtvScanPush(rest, restOvs, next);
      assert r == MtvScan(rest, restOvs, next);
      if next.Candidate? && r == Push(next.axis, next.overlap)
         && (forall i :: 0 <= i < |restOvs| ==> next.overlap <= restOvs[i]) {
        forall i | 0 <= i < |ovs| ensures next.overlap <= ovs[i] {
          if i > 0 { assert ovs[i] == restOvs[i - 1]; }
        }
        if next != best {
          assert 0.0 < ovs[0] && r == Push(axes[0], ovs[0]);
        }
      } else {
        var j :| 0 <= j < |restOvs| && (
          && 0.0 < restOvs[j]
          && r == Push(rest[j], restOvs[j])
          && (next.Candidate? ==> restOvs[j] < next.overlap)
          && (forall i :: 0 <= i < |restOvs| ==> restOvs[j] <= restOvs[i])
          && (forall i :: 0 <= i < j ==> restOvs[j] < restOvs[i]));
        assert axes[j + 1] == rest[j] && ovs[j + 1] == restOvs[j];
        forall i | 0 <= i < |ovs| ensures ovs[j + 1] <= ovs[i] {
          if i > 0 { assert ovs[i] == restOvs[i - 1]; }
        }
        forall i | 0 <= i < j + 1 ensures ovs[j + 1] < ovs[i] {
          if i > 0 { assert ovs[i] == restOvs[i - 1]; }
        }
      }
    }
  }

  /** Axis j has the smallest overlap of all the axes, and every earlier axis has a
      strictly larger one. */
  predicate FirstSmallestOverlap(axes: seq<(real, real)>, p1: Polygon, p2: Polygon, j: nat)
    requires |p1| > 0 && |p2| > 0
    requires j < |axes|
  {
    && (forall i :: 0 <= i < |axes| ==> Overlap(axes[j], p1, p2) <= Overlap(axes[i], p1, p2))
    && (forall i :: 0 <= i < j ==> Overlap(axes[j], p1, p2) < Overlap(axes[i], p1, p2))
  }

  /** The overlaps `sat_mtv` computes, axis by axis. */
  lemma OverlapsMean(axes: seq<(real, real)>, p1: Polygon, p2: Polygon)
    requires |p1| > 0 && |p2| > 0
    ensures forall k :: 0 <= k < |axes| ==> Overlaps(axes, p1, p2)[k] == Overlap(axes[k], p1, p2)
  {
    forall k | 0 <= k < |axes| ensures Overlaps(axes, p1, p2)[k] == Overlap(axes[k], p1, p2) {
      OverlapsAt(axes, p1, p2, k);
    }
  }

  /** `sat_mtv` returns `None` exactly when some tried axis has no positive overlap. */
  lemma MtvSeparated(t: Trig, p1: Polygon, p2: Polygon)
    requires |p1| > 0 && |p2| > 0
    ensures Mtv(t, p1, p2) == Separated <==>
      exists j :: 0 <= j < |AllUnitAxes(t, p1, p2)| && Overlap(AllUnitAxes(t, p1, p2)[j], p1, p2) <= 0.0
  {
    var axes := AllUnitAxes(t, p1, p2);
    var ovs := Overlaps(axes, p1, p2);
    OverlapsMean(axes, p1, p2);
    MtvScanSeparated(axes, ovs, NoCandidate);
    if Mtv(t, p1, p2) == Separated {
      var j :| 0 <= j < |ovs| && ovs[j] <= 0.0;
      assert Overlap(axes[j], p1, p2) <= 0.0;
    }
  }

  /** `sat_mtv` returns the NaN vector exactly when every edge of both polygons has
      length zero, so that no axis is tried. */
  lemma MtvNoAxis(t: Trig, p1: Polygon, p2: Polygon)
    requires |p1| > 0 && |p2| > 0
    ensures Mtv(t, p1, p2) == NoAxis <==> AllUnitAxes(t, p1, p2) == []
  {
    var axes := AllUnitAxes(t, p1, p2);
    MtvScanNoAxis(axes, Overlaps(axes, p1, p2), NoCandidate);
  }

  /** When `sat_mtv` pushes, it pushes along the first tried axis of smallest
      overlap, by that overlap, which is positive. */
  lemma MtvPush(t: Trig, p1: Polygon, p2: Polygon)
    requires |p1| > 0 && |p2| > 0
    ensures Mtv(t, p1, p2).Push? ==>
      exists j ::
        && 0 <= j < |AllUnitAxes(t, p1, p2)|
        && 0.0 < Overlap(AllUnitAxes(t, p1, p2)[j], p1, p2)
        && Mtv(t, p1, p2) == Push(AllUnitAxes(t, p1, p2)[j], Overlap(AllUnitAxes(t, p1, p2)[j], p1, p2))
        && FirstSmallestOverlap(AllUnitAxes(t, p1, p2), p1, p2, j)
  {
    var axes := AllUnitAxes(t, p1, p2);
    var ovs := Overlaps(axes, p1, p2);
    MtvScanPush(axes, ovs, NoCandidate);
    var r := Mtv(t, p1, p2);
    if r.Push? {
      var j :| 0 <= j < |ovs| && 0.0 < ovs[j] && r == Push(axes[j], ovs[j])
               && (forall i :: 0 <= i < |ovs| ==> ovs[j] <= ovs[i])
               && (forall i :: 0 <= i < j ==> ovs[j] < ovs[i]);
      OverlapsMean(axes, p1, p2);
      assert ovs[j] == Overlap(axes[j], p1, p2);
      assert FirstSmallestOverlap(axes, p1, p2, j);
      assert r == Push(axes[j], Overlap(axes[j], p1, p2));
    }
  }

  /** The axes from edge i on are those of edge i followed by those from edge i + 1 on. */
  lemma UnitAxesFromStep(t: Trig, points: Polygon, i: nat, later: seq<(real, real)>)
    requires i < |points|
    ensures var e, rest := UnitEdgeAxis(t, points, i), UnitAxesFrom(t, points, i + 1) + later;
      && (e == [] ==> UnitAxesFrom(t, points, i) + later == rest)
      && (e != [] ==> UnitAxesFrom(t, points, i) + later == [e[0]] + rest)
  {
    var e, rest := UnitEdgeAxis(t, points, i), UnitAxesFrom(t, points, i + 1) + later;
    assert UnitAxesFrom(t, points, i) + later == e + rest;
    if e == [] {
      assert e + rest == rest;
    } else {
      assert e == [e[0]];
    }
  }

  /** One step of the scan: the first axis either separates or updates the candidate. */
  lemma MtvScanStep(axis: (real, real), rest: seq<(real, real)>, p1: Polygon, p2: Polygon, best: Candidate)
    requires |p1| > 0 && |p2| > 0
    ensures var o := Overlap(axis, p1, p2);
      MtvScan([axis] + rest, Overlaps([axis] + rest, p1, p2), best) ==
      if o <= 0.0 then Separated
      else MtvScan(rest, Overlaps(rest, p1, p2),
                   if best.NoCandidate? || o < best.overlap then Candidate(axis, o) else best)
  {
    assert ([axis] + rest)[1..] == rest;
  }

  /** The inner loop of `sat_mtv` over the edges of one polygon, carrying the best
      candidate (`min_overlap`, `mtv_axis`) along; `separated` reports the early
      `return None`.  `later` stands for the axes that the outer loop still tries
      after this polygon. */
  method ScanEdges(t: Trig, points: Polygon, p1: Polygon, p2: Polygon, best0: Candidate,
                   ghost later: seq<(real, real)>)
    returns (separated: bool, best: Candidate)
    requires |p1| > 0 && |p2| > 0
    ensures var axes := UnitAxesFrom(t, points, 0) + later;
      MtvScan(axes, Overlaps(axes, p1, p2), best0) ==
      if separated then Separated else MtvScan(later, Overlaps(later, p1, p2), best)
  {
    best := best0;
    for i := 0 to |points|
      invariant var rest := UnitAxesFrom(t, points, i) + later;
        var axes := UnitAxesFrom(t, points, 0) + later;
        MtvScan(axes, Overlaps(axes, p1, p2), best0) == MtvScan(rest, Overlaps(rest, p1, p2), best)
    {
      ghost var rest := UnitAxesFrom(t, points, i + 1) + later;
      UnitAxesFromStep(t, points, i, later);
      var edgeAxis := EdgeAxis(points, i);
      var length := t.Hypot(edgeAxis.0, edgeAxis.1);
      if length == 0.0 {
        continue;
      }
      var axis := (edgeAxis.0 / length, edgeAxis.1 / length);
      var overlap := Overlap(axis, p1, p2);
      MtvScanStep(axis, rest, p1, p2, best);
      if overlap <= 0.0 {
        return true, best;
      }
      if best.NoCandidate? || overlap < best.overlap {
        best := Candidate(axis, overlap);
      }
    }
    assert UnitAxesFrom(t, points, |points|) + later == later;
    separated := false;
  }

  /** `sat_mtv(poly1, poly2)`: the edges of poly1, then those of poly2. */
  method SatMtv(t: Trig, p1: Polygon, p2: Polygon) returns (r: MtvResult)
    requires |p1| > 0 && |p2| > 0
    ensures r == Mtv(t, p1, p2)
  {
    var separated, best := ScanEdges(t, p1, p1, p2, NoCandidate, UnitAxesFrom(t, p2, 0));
    if separated {
      return Separated;
    }
    separated, best := ScanEdges(t, p2, p1, p2, best, []);
    assert UnitAxesFrom(t, p2, 0) + [] == UnitAxesFrom(t, p2, 0);
    if separated {
      return Separated;
    }
    if best.NoCandidate? {
      return NoAxis;
    }
    r := Push(best.axis, best.overlap);
  }
}
