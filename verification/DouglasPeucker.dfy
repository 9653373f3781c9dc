/** Recursive path simplification: keep the point farthest from the chord if it is too far, and both
    halves.  The chord distance is a parameter; the daemon's is the perpendicular distance, whose
    comparisons are exact on integers: all points of a slice share one chord and one denominator. */
module DouglasPeucker {
  import opened Points

  /** A distance of a point from the chord between two others, and when it is more than the tolerance. */
  datatype Metric = Metric(distance: (Point, Point, Point) -> real, tooFar: (real, Point, Point) -> bool) {
    /** Only a positive distance is too far: the tolerance is not negative. */
    ghost predicate Sound() {
      forall d, a, b :: tooFar(d, a, b) ==> d > 0.0
    }
  }

  /** The largest distance so far and the first index that has it, over indices below `upTo`. */
  datatype Farthest = Farthest(distance: real, index: nat)

  function FarthestOf(m: Metric, points: seq<Point>, upTo: nat): Farthest
    requires 1 <= upTo < |points|
  {
    if upTo == 1 then Farthest(0.0, 0)
    else
      var before := FarthestOf(m, points, upTo - 1);
      var d := m.distance(points[upTo - 1], points[0], points[|points| - 1]);
      if d > before.distance then Farthest(d, upTo - 1) else before
  }

  /** It is a maximum, of zero if no distance is positive, and the first of its kind. */
  lemma {:induction false} FarthestIsFirstMaximum(m: Metric, points: seq<Point>, upTo: nat)
    requires 1 <= upTo < |points|
    ensures var f := FarthestOf(m, points, upTo);
            && 0.0 <= f.distance && (f.distance > 0.0 ==> 1 <= f.index < upTo)
            && (f.distance == 0.0 ==> f.index == 0)
            && (forall i :: 1 <= i < upTo ==> m.distance(points[i], points[0], points[|points| - 1]) <= f.distance)
            && (f.distance > 0.0 ==> m.distance(points[f.index], points[0], points[|points| - 1]) == f.distance)
            && (forall i :: 1 <= i < f.index ==> m.distance(points[i], points[0], points[|points| - 1]) < f.distance)
  {
    if upTo > 1 {
      FarthestIsFirstMaximum(m, points, upTo - 1);
    }
  }

  /** And nothing else is. */
  lemma {:induction false} FirstMaximumIsFarthest(m: Metric, points: seq<Point>, upTo: nat, at: nat)
    requires 1 <= at < upTo < |points|
    requires m.distance(points[at], points[0], points[|points| - 1]) > 0.0
    requires forall i :: 1 <= i < at ==>
               m.distance(points[i], points[0], points[|points| - 1])
               < m.distance(points[at], points[0], points[|points| - 1])
    requires forall i :: at < i < upTo ==>
               m.distance(points[i], points[0], points[|points| - 1])
               <= m.distance(points[at], points[0], points[|points| - 1])
    ensures FarthestOf(m, points, upTo) == Farthest(m.distance(points[at], points[0], points[|points| - 1]), at)
  {
    FarthestIsFirstMaximum(m, points, upTo - 1);
    if at < upTo - 1 {
      FirstMaximumIsFarthest(m, points, upTo - 1, at);
    }
  }

  function Split(m: Metric, points: seq<Point>): (at: nat)
    requires |points| > 2 && m.Sound()
    ensures at > 0 ==> at < |points| - 1
  {
    var f := FarthestOf(m, points, |points| - 1);
    FarthestIsFirstMaximum(m, points, |points| - 1);
    if m.tooFar(f.distance, points[0], points[|points| - 1]) then f.index else 0
  }

  lemma {:induction false} SplitComputed(m: Metric, points: seq<Point>, f: Farthest)
    requires |points| > 2 && m.Sound() && f == FarthestOf(m, points, |points| - 1)
    ensures Split(m, points) == if m.tooFar(f.distance, points[0], points[|points| - 1]) then f.index else 0
    ensures m.tooFar(f.distance, points[0], points[|points| - 1]) ==> 0 < f.index < |points| - 1
  {
    FarthestIsFirstMaximum(m, points, |points| - 1);
  }

  /** Two halves that share a point, joined. */
  function Join<T>(left: seq<T>, right: seq<T>): seq<T> {
    (if left == [] then [] else left[..|left| - 1]) + right
  }

  /** The simplified path. */
  function Simplified(m: Metric, points: seq<Point>): seq<Point>
    requires m.Sound()
    decreases |points|
  {
    if |points| <= 2 then points
    else
      var at := Split(m, points);
      if at == 0 then [points[0], points[|points| - 1]]
      else Join(Simplified(m, points[..at + 1]), Simplified(m, points[at..]))
  }

  method FindFarthest(m: Metric, points: seq<Point>) returns (largest: real, index: nat)
    requires |points| > 2
    ensures Farthest(largest, index) == FarthestOf(m, points, |points| - 1)
  {
    largest, index := 0.0, 0;
    for i := 1 to |points| - 1
      invariant Farthest(largest, index) == FarthestOf(m, points, i)
    {
      var d := m.distance(points[i], points[0], points[|points| - 1]);
      if d > largest {
        largest, index := d, i;
      }
    }
  }

  method Simplify(m: Metric, points: seq<Point>) returns (path: seq<Point>)
    requires m.Sound()
    ensures path == Simplified(m, points)
    decreases |points|
  {
    if |points| <= 2 {
      return points;
    }
    var largest, index := FindFarthest(m, points);
    SplitComputed(m, points, Farthest(largest, index));
    if m.tooFar(largest, points[0], points[|points| - 1]) {
      var left := Simplify(m, points[..index + 1]);
      var right := Simplify(m, points[index..]);
      path := Join(left, right);
    } else {
      path := [points[0], points[|points| - 1]];
    }
  }

  // ---------- Which points are kept ----------

  function Shifted(kept: seq<nat>, offset: nat): (s: seq<nat>)
    ensures |s| == |kept|
  {
    seq(|kept|, i requires 0 <= i < |kept| => kept[i] + offset)
  }

  /** The indices of the points kept. */
  function Kept(m: Metric, points: seq<Point>): seq<nat>
    requires m.Sound()
    decreases |points|
  {
    if |points| <= 2 then seq(|points|, i => i)
    else
      var at := Split(m, points);
      if at == 0 then [0, |points| - 1]
      else Join(Kept(m, points[..at + 1]), Shifted(Kept(m, points[at..]), at))
  }

  /** An increasing selection of indices with both ends. */
  predicate Selects(kept: seq<nat>, n: nat) {
    && (n == 0 <==> kept == []) && |kept| <= n
    && (n > 0 ==> kept[0] == 0 && kept[|kept| - 1] == n - 1)
    && (n > 1 ==> |kept| > 1)
    && (forall i, j :: 0 <= i < j < |kept| ==> kept[i] < kept[j])
    && forall i :: 0 <= i < |kept| ==> kept[i] < n
  }

  lemma {:induction false} JoinSelects(left: seq<nat>, right: seq<nat>, at: nat, n: nat)
    requires 0 < at < n - 1 && Selects(left, at + 1) && Selects(right, n - at)
    ensures Selects(left[..|left| - 1] + Shifted(right, at), n)
  {
    var all := left[..|left| - 1] + Shifted(right, at);
    forall i, j | 0 <= i < j < |all|
      ensures all[i] < all[j]
    {
    }
  }

  predicate PathAt(path: seq<Point>, points: seq<Point>, kept: seq<nat>) {
    |path| == |kept| && forall k :: 0 <= k < |kept| ==> kept[k] < |points| && path[k] == points[kept[k]]
  }

  /** A path with its selection of indices, for a slice of points. */
  ghost predicate Half(path: seq<Point>, kept: seq<nat>, slice: seq<Point>) {
    Selects(kept, |slice|) && PathAt(path, slice, kept)
  }

  lemma {:induction false} JoinHalves(points: seq<Point>, at: nat, left: seq<Point>, kl: seq<nat>, right: seq<Point>,
                                      kr: seq<nat>, path: seq<Point>, kept: seq<nat>)
    requires 0 < at < |points| - 1 && Half(left, kl, points[..at + 1]) && Half(right, kr, points[at..])
    requires path == Join(left, right) && kept == Join(kl, Shifted(kr, at))
    ensures Half(path, kept, points) && 0 < |kl| - 1 < |path| - 1 && kept[|kl| - 1] == at
  {
    JoinSelects(kl, kr, at, |points|);
  }

  lemma {:induction false} JoinedAtSplit(m: Metric, points: seq<Point>)
    requires m.Sound() && |points| > 2 && Split(m, points) > 0
    ensures var at := Split(m, points);
            && Simplified(m, points) == Join(Simplified(m, points[..at + 1]), Simplified(m, points[at..]))
            && Kept(m, points) == Join(Kept(m, points[..at + 1]), Shifted(Kept(m, points[at..]), at))
  {
  }

  lemma {:induction false} NotSplit(m: Metric, points: seq<Point>)
    requires m.Sound() && (|points| <= 2 || Split(m, points) == 0)
    ensures Half(Simplified(m, points), Kept(m, points), points)
  {
  }

  /** The result is the path at an increasing selection of indices that has both ends. */
  lemma {:induction false} KeepsASelection(m: Metric, points: seq<Point>)
    requires m.Sound()
    ensures Half(Simplified(m, points), Kept(m, points), points)
    decreases |points|
  {
    if |points| > 2 && Split(m, points) > 0 {
      var at := Split(m, points);
      var front, back := points[..at + 1], points[at..];
      KeepsASelection(m, front);
      KeepsASelection(m, back);
      JoinedAtSplit(m, points);
      JoinHalves(points, at, Simplified(m, front), Kept(m, front), Simplified(m, back), Kept(m, back),
                 Simplified(m, points), Kept(m, points));
    } else {
      NotSplit(m, points);
    }
  }

  /** Point `j` is not too far from the chord between `p` and `q`. */
  predicate Near(m: Metric, points: seq<Point>, p: nat, j: nat, q: nat)
    requires p < |points| && j < |points| && q < |points|
  {
    !m.tooFar(m.distance(points[j], points[p], points[q]), points[p], points[q])
  }

  /** Being too far is monotone in the distance. */
  ghost predicate Monotone(m: Metric) {
    forall d, d', a, b :: m.tooFar(d, a, b) && d <= d' ==> m.tooFar(d', a, b)
  }

  /** Every point dropped is near the chord between the two kept points around it. */
  predicate DroppedNear(m: Metric, points: seq<Point>, kept: seq<nat>)
    requires Selects(kept, |points|)
  {
    forall k :: 0 <= k < |kept| - 1 ==> GapNear(m, points, kept[k], kept[k + 1])
  }

  predicate GapNear(m: Metric, points: seq<Point>, p: nat, q: nat)
    requires p < |points| && q < |points|
  {
    forall j :: p < j < q ==> Near(m, points, p, j, q)
  }

  lemma {:induction false} JoinNear(m: Metric, points: seq<Point>, at: nat, kl: seq<nat>, kr: seq<nat>, kept: seq<nat>)
    requires 0 < at < |points| - 1 && Selects(kl, at + 1) && Selects(kr, |points| - at) && Selects(kept, |points|)
    requires kept == kl[..|kl| - 1] + Shifted(kr, at)
    requires DroppedNear(m, points[..at + 1], kl) && DroppedNear(m, points[at..], kr)
    ensures DroppedNear(m, points, kept)
  {
    var p, shifted := |kl| - 1, Shifted(kr, at);
    assert kept[p] == shifted[0] == at == kl[p];
    forall k | 0 <= k < |kept| - 1
      ensures GapNear(m, points, kept[k], kept[k + 1])
    {
      if k < p {
        assert kept[k] == kl[k] && kept[k + 1] == kl[k + 1];
        NearInSlice(m, points, 0, at + 1, kl[k], kl[k + 1]);
      } else {
        assert kept[k] == kr[k - p] + at && kept[k + 1] == kr[k - p + 1] + at;
        assert points[at..|points|] == points[at..];
        NearInSlice(m, points, at, |points|, kr[k - p], kr[k - p + 1]);
      }
    }
  }

  lemma {:induction false} NearInSlice(m: Metric, points: seq<Point>, from: nat, to: nat, p: nat, q: nat)
    requires from <= to <= |points| && p < to - from && q < to - from && GapNear(m, points[from..to], p, q)
    ensures GapNear(m, points, from + p, from + q)
  {
    var a, b := from + p, from + q;
    forall j | a < j < b
      ensures Near(m, points, a, j, b)
    {
      assert Near(m, points[from..to], p, j - from, q);
    }
  }

  lemma {:induction false} DroppedPointsAreNear(m: Metric, points: seq<Point>)
    requires m.Sound() && Monotone(m)
    ensures Selects(Kept(m, points), |points|) && DroppedNear(m, points, Kept(m, points))
    decreases |points|
  {
    KeepsASelection(m, points);
    if |points| > 2 {
      var at := Split(m, points);
      if at == 0 {
        FarthestIsFirstMaximum(m, points, |points| - 1);
      } else {
        var front, back := points[..at + 1], points[at..];
        DroppedPointsAreNear(m, front);
        DroppedPointsAreNear(m, back);
        JoinNear(m, points, at, Kept(m, front), Kept(m, back), Kept(m, points));
      }
    }
  }

  // ---------- No point is kept in vain ----------

  /** Point `i` is too far from the chord between `p` and `q`, and no point between these is farther. */
  predicate Farthermost(m: Metric, points: seq<Point>, p: nat, i: nat, q: nat) {
    && p < i < q < |points| && !Near(m, points, p, i, q)
    && forall j :: p < j < q ==>
         m.distance(points[j], points[p], points[q]) <= m.distance(points[i], points[p], points[q])
  }

  /** The point is farthest, and too far, from a chord between two kept points. */
  predicate Needed(m: Metric, points: seq<Point>, kept: seq<nat>, i: nat) {
    exists p, q :: 0 <= p < |kept| && 0 <= q < |kept| && Farthermost(m, points, kept[p], i, kept[q])
  }

  predicate AllNeeded(m: Metric, points: seq<Point>, kept: seq<nat>) {
    forall k :: 0 < k < |kept| - 1 ==> Needed(m, points, kept, kept[k])
  }

  lemma {:induction false} FarthermostInSlice(m: Metric, points: seq<Point>, from: nat, to: nat, p: nat, i: nat, q: nat)
    requires from <= to <= |points| && Farthermost(m, points[from..to], p, i, q)
    ensures Farthermost(m, points, from + p, from + i, from + q)
  {
    forall j | from + p < j < from + q
      ensures m.distance(points[j], points[from + p], points[from + q])
              <= m.distance(points[from + i], points[from + p], points[from + q])
    {
      assert points[from..to][j - from] == points[j];
    }
  }

  /** What a slice needs, the whole path needs, if the slice's selection is part of the whole one. */
  lemma {:induction false} NeededInSlice(m: Metric, points: seq<Point>, from: nat, to: nat, part: seq<nat>,
                                         kept: seq<nat>, offset: nat, i: nat)
    requires from <= to <= |points| && Needed(m, points[from..to], part, i)
    requires offset + |part| <= |kept| && forall x :: 0 <= x < |part| ==> kept[offset + x] == from + part[x]
    ensures Needed(m, points, kept, from + i)
  {
    var p, q :| 0 <= p < |part| && 0 <= q < |part| && Farthermost(m, points[from..to], part[p], i, part[q]);
    FarthermostInSlice(m, points, from, to, part[p], i, part[q]);
    assert Farthermost(m, points, kept[offset + p], from + i, kept[offset + q]);
  }

  lemma {:induction false} JoinedIndices(points: seq<Point>, at: nat, kl: seq<nat>, kr: seq<nat>, kept: seq<nat>)
    requires 0 < at < |points| - 1 && Selects(kl, at + 1) && Selects(kr, |points| - at)
    requires kept == kl[..|kl| - 1] + Shifted(kr, at)
    ensures |kl| > 1 && |kr| > 1 && |kept| == |kl| - 1 + |kr| && kept[|kl| - 1] == at
    ensures forall x :: 0 <= x < |kl| ==> kept[0 + x] == 0 + kl[x]
    ensures forall x :: 0 <= x < |kr| ==> kept[|kl| - 1 + x] == at + kr[x]
  {
    var shifted := Shifted(kr, at);
    assert kept[|kl| - 1] == shifted[0] == at == kl[|kl| - 1];
    forall x | 0 <= x < |kr|
      ensures kept[|kl| - 1 + x] == at + kr[x]
    {
      assert kept[|kl| - 1 + x] == shifted[x];
    }
  }

  lemma {:induction false} JoinNeeded(m: Metric, points: seq<Point>, at: nat, kl: seq<nat>, kr: seq<nat>,
                                      kept: seq<nat>)
    requires 0 < at < |points| - 1 && Selects(kl, at + 1) && Selects(kr, |points| - at) && Selects(kept, |points|)
    requires kept == kl[..|kl| - 1] + Shifted(kr, at)
    requires AllNeeded(m, points[..at + 1], kl) && AllNeeded(m, points[at..], kr)
    requires Farthermost(m, points, 0, at, |points| - 1)
    ensures AllNeeded(m, points, kept)
  {
    hide Needed, Farthermost, Selects, Shifted;
    JoinedIndices(points, at, kl, kr, kept);
    var n := |kl| - 1;
    assert points[at..|points|] == points[at..] && points[0..at + 1] == points[..at + 1];
    forall k | 0 < k < |kept| - 1
      ensures Needed(m, points, kept, kept[k])
    {
      if k < n {
        assert Needed(m, points[0..at + 1], kl, kl[k]);
        NeededInSlice(m, points, 0, at + 1, kl, kept, 0, kl[k]);
      } else if k == n {
        NeededBetween(m, points, kept, at);
      } else {
        assert Needed(m, points[at..|points|], kr, kr[k - n]);
        NeededInSlice(m, points, at, |points|, kr, kept, n, kr[k - n]);
      }
    }
  }

  lemma {:induction false} NeededBetween(m: Metric, points: seq<Point>, kept: seq<nat>, i: nat)
    requires Selects(kept, |points|) && kept != [] && Farthermost(m, points, 0, i, |points| - 1)
    ensures Needed(m, points, kept, i)
  {
    assert Farthermost(m, points, kept[0], i, kept[|kept| - 1]);
  }

  /** Every inner point kept is needed: it is farthest, and too far, from a chord between two kept points. */
  lemma {:induction false} KeptPointsAreNeeded(m: Metric, points: seq<Point>)
    requires m.Sound()
    ensures AllNeeded(m, points, Kept(m, points))
    decreases |points|
  {
    hide Needed, GapNear;
    if |points| > 2 {
      var at := Split(m, points);
      if at > 0 {
        var front, back := points[..at + 1], points[at..];
        KeptPointsAreNeeded(m, front);
        KeptPointsAreNeeded(m, back);
        KeepsASelection(m, front);
        KeepsASelection(m, back);
        KeepsASelection(m, points);
        FarthestIsFirstMaximum(m, points, |points| - 1);
        JoinNeeded(m, points, at, Kept(m, front), Kept(m, back), Kept(m, points));
      }
    }
  }

  lemma {:induction false} NearIsNotSplit(m: Metric, points: seq<Point>)
    requires m.Sound() && |points| > 2 && GapNear(m, points, 0, |points| - 1)
    ensures Split(m, points) == 0
  {
    FarthestIsFirstMaximum(m, points, |points| - 1);
    var f := FarthestOf(m, points, |points| - 1);
    if f.distance > 0.0 {
      assert Near(m, points, 0, f.index, |points| - 1);
    }
  }

  /** So a path is reduced to its two ends exactly if none of its points is too far from their chord. */
  lemma {:induction false} CollapsesIff(m: Metric, points: seq<Point>)
    requires m.Sound() && Monotone(m) && |points| > 2
    ensures |Simplified(m, points)| == 2 <==> GapNear(m, points, 0, |points| - 1)
  {
    KeepsASelection(m, points);
    DroppedPointsAreNear(m, points);
    var kept := Kept(m, points);
    if |kept| == 2 {
      assert GapNear(m, points, kept[0], kept[1]);
    }
    if GapNear(m, points, 0, |points| - 1) {
      NearIsNotSplit(m, points);
    }
  }

  // ---------- Simplifying twice ----------

  /** A selection that has the ends and the first farthest point has the same first farthest point. */
  lemma {:induction false} FarthestOfSelection(m: Metric, points: seq<Point>, path: seq<Point>, kept: seq<nat>, p: nat)
    requires |points| > 2 && Half(path, kept, points) && 0 < p < |path| - 1
    requires FarthestOf(m, points, |points| - 1).distance > 0.0 && kept[p] == FarthestOf(m, points, |points| - 1).index
    ensures FarthestOf(m, path, |path| - 1) == Farthest(FarthestOf(m, points, |points| - 1).distance, p)
  {
    FarthestIsFirstMaximum(m, points, |points| - 1);
    forall i | 1 <= i < |path| - 1
      ensures 1 <= kept[i] < |points| - 1 && path[i] == points[kept[i]]
    {
      assert kept[0] < kept[i] < kept[|kept| - 1];
    }
    FirstMaximumIsFarthest(m, path, |path| - 1, p);
  }

  lemma {:induction false} SplitIsFarthest(m: Metric, points: seq<Point>)
    requires m.Sound() && |points| > 2 && Split(m, points) > 0
    ensures var f := FarthestOf(m, points, |points| - 1);
            f.distance > 0.0 && f.index == Split(m, points) && m.tooFar(f.distance, points[0], points[|points| - 1])
  {
    FarthestIsFirstMaximum(m, points, |points| - 1);
  }

  lemma {:induction false} SplitOfSelection(m: Metric, points: seq<Point>, path: seq<Point>, kept: seq<nat>, p: nat)
    requires m.Sound() && |points| > 2 && Split(m, points) > 0
    requires Half(path, kept, points) && 0 < p < |path| - 1 && kept[p] == Split(m, points)
    ensures Split(m, path) == p
  {
    SplitIsFarthest(m, points);
    FarthestOfSelection(m, points, path, kept, p);
  }

  /** The simplified path is split again at the same point. */
  lemma {:induction false} SplitOfSimplified(m: Metric, points: seq<Point>)
    requires m.Sound() && |points| > 2 && Split(m, points) > 0
    ensures var path, left := Simplified(m, points), Simplified(m, points[..Split(m, points) + 1]);
            |path| > 2 && left != [] && Split(m, path) == |left| - 1
  {
    var at := Split(m, points);
    var front, back := points[..at + 1], points[at..];
    KeepsASelection(m, front);
    KeepsASelection(m, back);
    JoinHalves(points, at, Simplified(m, front), Kept(m, front), Simplified(m, back), Kept(m, back),
               Simplified(m, points), Kept(m, points));
    SplitOfSelection(m, points, Simplified(m, points), Kept(m, points), |Kept(m, front)| - 1);
  }

  /** The two halves of the simplified path. */
  lemma {:induction false} HalvesOfSimplified(m: Metric, points: seq<Point>)
    requires m.Sound() && |points| > 2 && Split(m, points) > 0
    ensures var path, left, right := Simplified(m, points), Simplified(m, points[..Split(m, points) + 1]),
            Simplified(m, points[Split(m, points)..]);
            0 < |left| <= |path| && path[..|left|] == left && path[|left| - 1..] == right
  {
    var at := Split(m, points);
    var front, back := points[..at + 1], points[at..];
    KeepsASelection(m, front);
    KeepsASelection(m, back);
    JoinedAtSplit(m, points);
    JoinOverlap(points, at, Simplified(m, front), Kept(m, front), Simplified(m, back), Kept(m, back));
  }

  lemma {:induction false} JoinOverlap(points: seq<Point>, at: nat, left: seq<Point>, kl: seq<nat>, right: seq<Point>,
                                       kr: seq<nat>)
    requires 0 < at < |points| - 1 && Half(left, kl, points[..at + 1]) && Half(right, kr, points[at..])
    ensures var path := Join(left, right);
            0 < |left| <= |path| && path[..|left|] == left && path[|left| - 1..] == right
  {
    assert left[|left| - 1] == points[at] == right[0];
  }

  /** Simplifying twice is simplifying once. */
  lemma {:induction false} SimplifyingTwice(m: Metric, points: seq<Point>)
    requires m.Sound()
    ensures Simplified(m, Simplified(m, points)) == Simplified(m, points)
    decreases |points|
  {
    if |points| > 2 && Split(m, points) > 0 {
      var at := Split(m, points);
      var left, right, path := Simplified(m, points[..at + 1]), Simplified(m, points[at..]), Simplified(m, points);
      SplitOfSimplified(m, points);
      HalvesOfSimplified(m, points);
      SimplifyingTwice(m, points[..at + 1]);
      SimplifyingTwice(m, points[at..]);
      assert path == Join(left, right);
    }
  }

  // ---------- The perpendicular distance ----------

  function Numerator(p: Point, a: Point, b: Point): int {
    (b.y - a.y) * p.x + (a.x - b.x) * p.y + (b.x * a.y - a.x * b.y)
  }

  /** The square of the denominator: the chord's length squared. */
  function Length2(a: Point, b: Point): int {
    (b.y - a.y) * (b.y - a.y) + (a.x - b.x) * (a.x - b.x)
  }

  /** The distance times the chord's length; zero for a chord without length. */
  function Scaled(p: Point, a: Point, b: Point): int {
    if Length2(a, b) == 0 then 0 else if Numerator(p, a, b) < 0 then -Numerator(p, a, b) else Numerator(p, a, b)
  }

  /** Compared for one chord, distances are compared by numerators, and with epsilon by squares. */
  function Perpendicular(epsilon: real): Metric {
    Metric((p, a, b) => Scaled(p, a, b) as real,
           (d, a, b) => d > 0.0 && d * d > epsilon * epsilon * (Length2(a, b) as real))
  }

  lemma {:induction false} PerpendicularIsSound(epsilon: real)
    ensures Perpendicular(epsilon).Sound() && Monotone(Perpendicular(epsilon))
  {
    var m := Perpendicular(epsilon);
    forall d, d', a, b | m.tooFar(d, a, b) && d <= d'
      ensures m.tooFar(d', a, b)
    {
      SquareMonotone(d, d');
    }
  }

  lemma {:induction false} SquareMonotone(d: real, d': real)
    requires 0.0 <= d <= d'
    ensures d * d <= d' * d'
  {
  }

  /** The squared distance from `p` to the point `a + t (b - a)` of the line. */
  function Distance2(p: Point, a: Point, b: Point, t: real): real {
    var x, y := p.x as real - a.x as real - t * (b.x as real - a.x as real),
        p.y as real - a.y as real - t * (b.y as real - a.y as real);
    x * x + y * y
  }

  function Dot(p: Point, a: Point, b: Point): int {
    (p.x - a.x) * (b.x - a.x) + (p.y - a.y) * (b.y - a.y)
  }

  lemma {:induction false} Lagrange(vx: real, vy: real, x: real, y: real)
    ensures (vx * vx + vy * vy) * (x * x + y * y) == (vx * y - vy * x) * (vx * y - vy * x)
            + (vx * x + vy * y) * (vx * x + vy * y)
  {
    var a, b, c, d := vx * x, vx * y, vy * x, vy * y;
    assert (vx * vx + vy * vy) * (x * x + y * y) == a * a + b * b + c * c + d * d;
    assert (b - c) * (b - c) == b * b - 2.0 * (b * c) + c * c;
    assert (a + d) * (a + d) == a * a + 2.0 * (a * d) + d * d;
    assert b * c == a * d;
  }

  /** The numerator is the cross product with the chord. */
  lemma {:induction false} NumeratorIsCross(p: Point, a: Point, b: Point)
    ensures Numerator(p, a, b) == (b.y - a.y) * (p.x - a.x) - (b.x - a.x) * (p.y - a.y)
  {
  }

  lemma {:induction false} Along(vx: real, vy: real, wx: real, wy: real, t: real)
    ensures vx * (wy - t * vy) - vy * (wx - t * vx) == vx * wy - vy * wx
    ensures vx * (wx - t * vx) + vy * (wy - t * vy) == (vx * wx + vy * wy) - t * (vx * vx + vy * vy)
  {
    assert vx * (t * vy) == vy * (t * vx);
  }

  /** Pythagoras along the line: the chord's length times the distance to any of its points. */
  lemma {:induction false} DistanceAlongLine(p: Point, a: Point, b: Point, t: real)
    ensures var n, l, d := Numerator(p, a, b) as real, Length2(a, b) as real, Dot(p, a, b) as real;
            l * Distance2(p, a, b, t) == n * n + (d - t * l) * (d - t * l)
  {
    var vx, vy, wx, wy := b.x as real - a.x as real, b.y as real - a.y as real, p.x as real - a.x as real,
        p.y as real - a.y as real;
    NumeratorIsCross(p, a, b);
    RealParts(p, a, b);
    Lagrange(vx, vy, wx - t * vx, wy - t * vy);
    Along(vx, vy, wx, wy, t);
  }

  lemma {:induction false} RealParts(p: Point, a: Point, b: Point)
    ensures var vx, vy, wx, wy := b.x as real - a.x as real, b.y as real - a.y as real, p.x as real - a.x as real,
            p.y as real - a.y as real;
            && Numerator(p, a, b) as real == -(vx * wy - vy * wx)
            && Length2(a, b) as real == vx * vx + vy * vy && Dot(p, a, b) as real == vx * wx + vy * wy
  {
    NumeratorIsCross(p, a, b);
    ProductReal(b.y - a.y, p.x - a.x);
    ProductReal(b.x - a.x, p.y - a.y);
    ProductReal(b.y - a.y, b.y - a.y);
    ProductReal(a.x - b.x, a.x - b.x);
    ProductReal(p.x - a.x, b.x - a.x);
    ProductReal(p.y - a.y, b.y - a.y);
  }

  lemma {:induction false} ProductReal(a: int, b: int)
    ensures (a * b) as real == a as real * b as real
  {
  }

  /** The quantities of a point and a line: numerator, length squared, and squared distances. */
  ghost predicate Measures(p: Point, a: Point, b: Point, f: real -> real, n: real, l: real) {
    f == SquaredDistances(p, a, b) && n == Numerator(p, a, b) as real && l == Length2(a, b) as real
  }

  lemma {:induction false} NowhereNearer(p: Point, a: Point, b: Point, f: real -> real, n: real, l: real, t: real)
    requires Measures(p, a, b, f, n, l)
    ensures n * n <= l * f(t)
  {
    DistanceAlongLine(p, a, b, t);
    SquareNotNegative(Dot(p, a, b) as real - t * l);
  }

  lemma {:induction false} FootOf(p: Point, a: Point, b: Point, f: real -> real, n: real, l: real) returns (foot: real)
    requires a != b && Measures(p, a, b, f, n, l)
    ensures l > 0.0 && l * f(foot) == n * n
  {
    PositiveLength(a, b);
    foot := Dot(p, a, b) as real / l;
    DistanceAlongLine(p, a, b, foot);
    assert foot * l == Dot(p, a, b) as real;
  }

  lemma {:induction false} ScaledSquare(p: Point, a: Point, b: Point)
    requires a != b
    ensures Scaled(p, a, b) >= 0 && Length2(a, b) > 0
    ensures Scaled(p, a, b) as real * Scaled(p, a, b) as real == Numerator(p, a, b) as real * Numerator(p, a, b) as real
  {
    PositiveLength(a, b);
  }

  /** The squared distances to all points of the line. */
  function SquaredDistances(p: Point, a: Point, b: Point): real -> real {
    t => Distance2(p, a, b, t)
  }

  ghost predicate AllAbove(f: real -> real, e: real) {
    forall t: real :: f(t) > e
  }

  lemma {:induction false} AllAboveIff(f: real -> real, n: real, l: real, e: real, foot: real)
    requires l > 0.0 && (forall t: real :: n * n <= l * f(t)) && l * f(foot) == n * n
    ensures n * n > e * l <==> AllAbove(f, e)
  {
    if n * n > e * l {
      forall t: real
        ensures f(t) > e
      {
        Cancel(l, f(t), e);
      }
    } else if f(foot) > e {
      Scale(l, f(foot), e);
    }
  }

  lemma {:induction false} LineIff(p: Point, a: Point, b: Point, f: real -> real, n: real, l: real, e: real)
    requires a != b && Measures(p, a, b, f, n, l)
    ensures n * n > e * l <==> AllAbove(f, e)
  {
    var foot := FootOf(p, a, b, f, n, l);
    forall t: real
      ensures n * n <= l * f(t)
    {
      NowhereNearer(p, a, b, f, n, l, t);
    }
    AllAboveIff(f, n, l, e, foot);
  }

  lemma {:induction false} TooFarIff(d: real, n: real, l: real, e: real)
    requires d >= 0.0 && d * d == n * n && l > 0.0 && e >= 0.0
    ensures d > 0.0 && d * d > e * l <==> n * n > e * l
  {
    NotNegative(e, l);
    if d == 0.0 {
      assert d * d == 0.0;
    }
  }

  /** For a chord with length, being too far is exactly that every point of the line is farther
      than epsilon away. */
  lemma {:induction false} TooFarIsTrueDistance(p: Point, a: Point, b: Point, epsilon: real)
    requires a != b && epsilon >= 0.0
    ensures Perpendicular(epsilon).tooFar(Scaled(p, a, b) as real, a, b)
            <==> AllAbove(SquaredDistances(p, a, b), epsilon * epsilon)
  {
    var d, n, l, e := Scaled(p, a, b) as real, Numerator(p, a, b) as real, Length2(a, b) as real, epsilon * epsilon;
    var f := SquaredDistances(p, a, b);
    ScaledSquare(p, a, b);
    SquareNotNegative(epsilon);
    TooFarIff(d, n, l, e);
    LineIff(p, a, b, f, n, l, e);
  }

  lemma {:induction false} NotNegative(x: real, y: real)
    requires x >= 0.0 && y >= 0.0
    ensures x * y >= 0.0
  {
  }

  lemma {:induction false} PositiveLength(a: Point, b: Point)
    requires a != b
    ensures Length2(a, b) > 0
  {
    SquareSign(b.y - a.y);
    SquareSign(a.x - b.x);
  }

  lemma {:induction false} SquareSign(x: int)
    ensures x * x >= 0 && (x != 0 ==> x * x > 0)
  {
  }

  lemma {:induction false} SquareNotNegative(x: real)
    ensures x * x >= 0.0
  {
  }

  lemma {:induction false} Cancel(l: real, x: real, y: real)
    requires l > 0.0 && l * x > y * l
    ensures x > y
  {
  }

  lemma {:induction false} Scale(l: real, x: real, y: real)
    requires l > 0.0 && x > y
    ensures l * x > y * l
  {
  }

  /** A chord without length is never too far from anything: a path that returns to its first point
      is reduced to its ends, however far it went. */
  lemma {:induction false} ClosedPathCollapses(points: seq<Point>, epsilon: real)
    requires epsilon >= 0.0 && |points| > 2 && points[0] == points[|points| - 1]
    ensures Perpendicular(epsilon).Sound()
    ensures Simplified(Perpendicular(epsilon), points) == [points[0], points[|points| - 1]]
    ensures Kept(Perpendicular(epsilon), points) == [0, |points| - 1]
  {
    PerpendicularIsSound(epsilon);
    FarthestIsFirstMaximum(Perpendicular(epsilon), points, |points| - 1);
  }

  /** The indices of the points that the daemon keeps. */
  function KeptByDaemon(points: seq<Point>, epsilon: real): (kept: seq<nat>)
    requires epsilon >= 0.0
    ensures Selects(kept, |points|)
  {
    PerpendicularIsSound(epsilon);
    KeepsASelection(Perpendicular(epsilon), points);
    Kept(Perpendicular(epsilon), points)
  }

  /** Some point of the line through `a` and `b`, or of the one point they are, is within epsilon of `p`. */
  ghost predicate Within(p: Point, a: Point, b: Point, epsilon: real) {
    var distances := SquaredDistances(p, a, b);
    exists t: real :: distances(t) <= epsilon * epsilon
  }

  /** The squared distance between two points. */
  function Apart2(p: Point, q: Point): int {
    (p.x - q.x) * (p.x - q.x) + (p.y - q.y) * (p.y - q.y)
  }

  lemma {:induction false} LineOfPoint(p: Point, a: Point, t: real)
    ensures Distance2(p, a, a, t) == Apart2(p, a) as real
  {
    var x, y := p.x - a.x, p.y - a.y;
    assert t * 0.0 == 0.0;
    assert Distance2(p, a, a, t) == (x as real) * (x as real) + (y as real) * (y as real);
    ProductReal(x, x);
    ProductReal(y, y);
  }

  lemma {:induction false} WithinOfPoint(p: Point, a: Point, epsilon: real)
    ensures Within(p, a, a, epsilon) <==> Apart2(p, a) as real <= epsilon * epsilon
  {
    forall t: real
      ensures SquaredDistances(p, a, a)(t) == Apart2(p, a) as real
    {
      LineOfPoint(p, a, t);
    }
    if Apart2(p, a) as real <= epsilon * epsilon {
      assert SquaredDistances(p, a, a)(0.0) <= epsilon * epsilon;
    }
  }

  /** When is a dropped point within epsilon of the line through its kept neighbours?  Exactly if these
      differ, or if it is within epsilon of the one point they are. */
  lemma {:induction false} DroppedWithinEpsilonIff(points: seq<Point>, epsilon: real, kept: seq<nat>, k: nat, j: nat)
    requires epsilon >= 0.0 && kept == KeptByDaemon(points, epsilon)
    requires k + 1 < |kept| && kept[k] < j < kept[k + 1]
    ensures var a, b := points[kept[k]], points[kept[k + 1]];
            Within(points[j], a, b, epsilon) <==> a != b || Apart2(points[j], a) as real <= epsilon * epsilon
  {
    var a, b := points[kept[k]], points[kept[k + 1]];
    if a == b {
      WithinOfPoint(points[j], a, epsilon);
    } else {
      var m := Perpendicular(epsilon);
      PerpendicularIsSound(epsilon);
      DroppedPointsAreNear(m, points);
      assert GapNear(m, points, kept[k], kept[k + 1]) && Near(m, points, kept[k], j, kept[k + 1]);
      TooFarIsTrueDistance(points[j], a, b, epsilon);
      var t: real :| !(SquaredDistances(points[j], a, b)(t) > epsilon * epsilon);
    }
  }

  /** Seen from the input: of a path that returns to its start only the ends are kept, and an inner point is
      within epsilon of them exactly if it lies within that circle around the start. */
  lemma {:induction false} FarPointOfClosedPathIsLost(points: seq<Point>, epsilon: real, j: nat)
    requires epsilon >= 0.0 && |points| > 2 && points[0] == points[|points| - 1] && 0 < j < |points| - 1
    ensures KeptByDaemon(points, epsilon) == [0, |points| - 1]
    ensures Within(points[j], points[0], points[|points| - 1], epsilon)
            <==> Apart2(points[j], points[0]) as real <= epsilon * epsilon
  {
    ClosedPathCollapses(points, epsilon);
    DroppedWithinEpsilonIff(points, epsilon, KeptByDaemon(points, epsilon), 0, j);
  }

  /** It does happen: a hundred pixels to the right and back again. */
  lemma {:induction false} ThereAndBack(points: seq<Point>, epsilon: real)
    requires points == [Point(0, 0), Point(100, 0), Point(0, 0)] && epsilon == 2.0
    ensures KeptByDaemon(points, epsilon) == [0, 2] && !Within(points[1], points[0], points[2], epsilon)
  {
    HundredPixels(points[1], points[0]);
    FourPixels(epsilon);
    FarPointOfClosedPathIsLost(points, epsilon, 1);
  }

  lemma {:induction false} HundredPixels(p: Point, q: Point)
    requires p == Point(100, 0) && q == Point(0, 0)
    ensures Apart2(p, q) == 10000
  {
  }

  lemma {:induction false} FourPixels(epsilon: real)
    requires epsilon == 2.0
    ensures epsilon * epsilon == 4.0
  {
  }

  // ---------- The distance from the segment ----------

  /** The benchmark's variant takes any distance and compares it with the tolerance itself. */
  function Segment(distance: (Point, Point, Point) -> real, param: real): Metric {
    Metric(distance, (d, a, b) => d > if param < 0.0 then 0.0 else param)
  }

  /** All of the above holds for it too. */
  lemma {:induction false} SegmentIsSound(distance: (Point, Point, Point) -> real, param: real, points: seq<Point>)
    ensures Segment(distance, param).Sound() && Monotone(Segment(distance, param))
    ensures var m := Segment(distance, param);
            && Selects(Kept(m, points), |points|) && DroppedNear(m, points, Kept(m, points))
            && PathAt(Simplified(m, points), points, Kept(m, points))
            && Simplified(m, Simplified(m, points)) == Simplified(m, points)
  {
    var m := Segment(distance, param);
    KeepsASelection(m, points);
    DroppedPointsAreNear(m, points);
    SimplifyingTwice(m, points);
  }
}
