/** Bottom-up path simplification: points are eliminated one by one, cheapest first, on an
    array-linked list with a heap whose entries may be out of date.  Distances are real numbers from
    any function; entries with equal errors may be popped in any order. */
module BottomUp {
  import opened Points

  /** The distance of a point from the segment between two others. */
  type Distance = (Point, Point, Point) -> real

  datatype Node = Node(idx: nat, err: real)

  const TOLERANCE: real := 0.000001

  // ---------- The linked list of live points ----------

  /** `j` is the next live point after the live point `i`. */
  predicate IsNext(n: nat, removed: seq<bool>, i: nat, j: nat)
    requires |removed| == n
  {
    i < j < n && !removed[i] && !removed[j] && forall k :: i < k < j ==> removed[k]
  }

  predicate LinkAt(n: nat, removed: seq<bool>, left: seq<nat>, right: seq<nat>, i: nat)
    requires |removed| == |left| == |right| == n && i < n
  {
    !removed[i] ==>
      && (i < n - 1 ==> IsNext(n, removed, i, right[i]))
      && (i > 0 ==> left[i] < i && IsNext(n, removed, left[i], i))
  }

  /** `left` and `right` link exactly the points not removed, and both ends are among them. */
  predicate Linked(n: nat, removed: seq<bool>, left: seq<nat>, right: seq<nat>) {
    && n > 2 && |removed| == |left| == |right| == n && !removed[0] && !removed[n - 1]
    && forall i :: 0 <= i < n ==> LinkAt(n, removed, left, right, i)
  }

  lemma {:induction false} NextIsUnique(n: nat, removed: seq<bool>, i: nat, j: nat, i': nat, j': nat)
    requires |removed| == n && IsNext(n, removed, i, j) && IsNext(n, removed, i', j')
    ensures i == i' <==> j == j'
  {
  }

  predicate Interior(n: nat, removed: seq<bool>, i: nat)
    requires |removed| == n
  {
    0 < i < n - 1 && !removed[i]
  }

  /** Taking out an interior point and linking its neighbours. */
  lemma {:induction false} RemoveKeepsLinks(n: nat, removed: seq<bool>, left: seq<nat>, right: seq<nat>, idx: nat)
    requires Linked(n, removed, left, right) && Interior(n, removed, idx)
    ensures left[idx] < idx < right[idx] < n && IsNext(n, removed, left[idx], idx)
            && IsNext(n, removed, idx, right[idx])
    ensures Linked(n, removed[idx := true], left[right[idx] := left[idx]], right[left[idx] := right[idx]])
  {
    assert LinkAt(n, removed, left, right, idx);
    var li, ri := left[idx], right[idx];
    var removed', left', right' := removed[idx := true], left[ri := li], right[li := ri];
    forall i | 0 <= i < n
      ensures LinkAt(n, removed', left', right', i)
    {
      assert LinkAt(n, removed, left, right, i);
      if !removed'[i] {
        if i < n - 1 {
          NextIsUnique(n, removed, i, right[i], li, idx);
        }
        if i > 0 {
          NextIsUnique(n, removed, left[i], i, idx, ri);
        }
      }
    }
  }

  // ---------- The heap ----------

  /** The error of a point against its present neighbours. */
  function Current(pts: seq<Point>, dist: Distance, left: seq<nat>, right: seq<nat>, i: nat): real {
    if i < |pts| && i < |left| && i < |right| && left[i] < |pts|
       && right[i] < |pts| then dist(pts[i], pts[left[i]], pts[right[i]]) else 0.0
  }

  function Abs(x: real): real { if x < 0.0 then -x else x }

  /** Every live interior point has an entry with its present error. */
  ghost predicate UpToDate(pts: seq<Point>, dist: Distance, removed: seq<bool>, left: seq<nat>, right: seq<nat>,
                           heap: seq<Node>)
    requires |removed| == |pts|
  {
    && (forall k :: 0 <= k < |heap| ==> 0 < heap[k].idx < |pts| - 1)
    && forall i :: Interior(|pts|, removed, i) ==> Node(i, Current(pts, dist, left, right, i)) in heap
  }

  /** An entry of a live point that will be pushed again, with another error. */
  predicate Stale(pts: seq<Point>, dist: Distance, removed: seq<bool>, left: seq<nat>, right: seq<nat>, e: Node) {
    e.idx < |removed| && !removed[e.idx] && Abs(Current(pts, dist, left, right, e.idx) - e.err) > TOLERANCE
  }

  function StaleCount(pts: seq<Point>, dist: Distance, removed: seq<bool>, left: seq<nat>, right: seq<nat>,
                      heap: seq<Node>): nat {
    if heap == [] then 0
    else StaleCount(pts, dist, removed, left, right, heap[..|heap| - 1])
         + if Stale(pts, dist, removed, left, right, heap[|heap| - 1]) then 1 else 0
  }

  function Without(heap: seq<Node>, k: nat): seq<Node>
    requires k < |heap|
  {
    heap[..k] + heap[k + 1..]
  }

  lemma {:induction false} StalePopped(pts: seq<Point>, dist: Distance, removed: seq<bool>, left: seq<nat>,
                                       right: seq<nat>, heap: seq<Node>, k: nat)
    requires k < |heap|
    ensures StaleCount(pts, dist, removed, left, right, heap)
         == StaleCount(pts, dist, removed, left, right, Without(heap, k))
             + if Stale(pts, dist, removed, left, right, heap[k]) then 1 else 0
    decreases |heap|
  {
    var n := |heap| - 1;
    if k == n {
      assert Without(heap, k) == heap[..n];
    } else {
      StalePopped(pts, dist, removed, left, right, heap[..n], k);
      assert Without(heap, k)[..n - 1] == Without(heap[..n], k);
    }
  }

  function LiveCount(removed: seq<bool>): nat {
    if removed == [] then 0 else LiveCount(removed[..|removed| - 1]) + if removed[|removed| - 1] then 0 else 1
  }

  lemma {:induction false} FewerLive(removed: seq<bool>, i: nat)
    requires i < |removed| && !removed[i]
    ensures LiveCount(removed[i := true]) == LiveCount(removed) - 1
  {
    var n := |removed| - 1;
    if i < n {
      FewerLive(removed[..n], i);
      assert removed[i := true][..n] == removed[..n][i := true];
    } else {
      assert removed[i := true][..n] == removed[..n];
    }
  }

  predicate IsLeast(heap: seq<Node>, k: nat) {
    k < |heap| && forall j :: 0 <= j < |heap| ==> heap[k].err <= heap[j].err
  }

  lemma {:induction false} LeastExists(heap: seq<Node>) returns (k: nat)
    requires heap != []
    ensures IsLeast(heap, k)
  {
    var n := |heap| - 1;
    if n == 0 {
      k := 0;
    } else {
      k := LeastExists(heap[..n]);
      assert forall j :: 0 <= j < n ==> heap[..n][j] == heap[j];
      if heap[n].err < heap[k].err {
        k := n;
      }
    }
  }

  // ---------- What is left ----------

  /** Every point still in the list, other than the two ends, has an error of more than eps - TOLERANCE. */
  ghost predicate AllFar(pts: seq<Point>, dist: Distance, removed: seq<bool>, left: seq<nat>, right: seq<nat>,
                         eps: real)
    requires |removed| == |pts|
  {
    forall i :: Interior(|pts|, removed, i) ==> Current(pts, dist, left, right, i) > eps - TOLERANCE
  }

  /** Stopping at a least entry that is present and too large leaves no small error behind. */
  lemma {:induction false} StopIsFar(pts: seq<Point>, dist: Distance, removed: seq<bool>, left: seq<nat>,
                                     right: seq<nat>, heap: seq<Node>, k: nat, eps: real)
    requires |removed| == |pts| && UpToDate(pts, dist, removed, left, right, heap) && IsLeast(heap, k)
    requires Abs(Current(pts, dist, left, right, heap[k].idx) - heap[k].err) <= TOLERANCE
             && Current(pts, dist, left, right, heap[k].idx) > eps
    ensures AllFar(pts, dist, removed, left, right, eps)
  {
    forall i | Interior(|pts|, removed, i)
      ensures Current(pts, dist, left, right, i) > eps - TOLERANCE
    {
      var j :| 0 <= j < |heap| && heap[j] == Node(i, Current(pts, dist, left, right, i));
      assert heap[k].err <= heap[j].err;
    }
  }

  /** With the heap empty there are no inner points left. */
  lemma {:induction false} NothingLeftIsFar(pts: seq<Point>, dist: Distance, removed: seq<bool>, left: seq<nat>,
                                            right: seq<nat>, eps: real)
    requires |removed| == |pts| && UpToDate(pts, dist, removed, left, right, [])
    ensures AllFar(pts, dist, removed, left, right, eps)
  {
  }

  // ---------- What may be taken out ----------

  /** `d` is the error of point `i` against its neighbours among the points not removed. */
  ghost predicate HasError(pts: seq<Point>, dist: Distance, removed: seq<bool>, i: nat, d: real)
    requires |removed| == |pts|
  {
    exists l: nat, r: nat :: IsNext(|pts|, removed, l, i) && IsNext(|pts|, removed, i, r)
                             && d == dist(pts[i], pts[l], pts[r])
  }

  lemma {:induction false} ErrorIsCurrent(pts: seq<Point>, dist: Distance, removed: seq<bool>, left: seq<nat>,
                                          right: seq<nat>, i: nat)
    requires Linked(|pts|, removed, left, right) && Interior(|pts|, removed, i)
    ensures HasError(pts, dist, removed, i, Current(pts, dist, left, right, i))
    ensures forall d :: HasError(pts, dist, removed, i, d) ==> d == Current(pts, dist, left, right, i)
  {
    assert LinkAt(|pts|, removed, left, right, i);
    assert IsNext(|pts|, removed, left[i], i) && IsNext(|pts|, removed, i, right[i]);
    forall d | HasError(pts, dist, removed, i, d)
      ensures d == Current(pts, dist, left, right, i)
    {
      var l: nat, r: nat :| IsNext(|pts|, removed, l, i) && IsNext(|pts|, removed, i, r)
                            && d == dist(pts[i], pts[l], pts[r]);
      NextIsUnique(|pts|, removed, l, i, left[i], i);
      NextIsUnique(|pts|, removed, i, r, i, right[i]);
    }
  }

  /** The point is within eps of its neighbours' segment, and up to the tolerance no other is nearer to its. */
  ghost predicate Cheapest(pts: seq<Point>, dist: Distance, eps: real, removed: seq<bool>, i: nat) {
    && |removed| == |pts| && Interior(|pts|, removed, i)
    && exists d :: HasError(pts, dist, removed, i, d) && d <= eps
                   && forall j: nat, e :: HasError(pts, dist, removed, j, e) ==> d - TOLERANCE <= e
  }

  /** A least entry that is present and small enough belongs to such a point. */
  lemma {:induction false} LeastIsCheapest(pts: seq<Point>, dist: Distance, eps: real, removed: seq<bool>,
                                           left: seq<nat>, right: seq<nat>, heap: seq<Node>, k: nat)
    requires Good(pts, dist, removed, left, right, heap) && IsLeast(heap, k) && !removed[heap[k].idx]
    requires Abs(Current(pts, dist, left, right, heap[k].idx) - heap[k].err) <= TOLERANCE
             && Current(pts, dist, left, right, heap[k].idx) <= eps
    ensures Cheapest(pts, dist, eps, removed, heap[k].idx)
  {
    var d := Current(pts, dist, left, right, heap[k].idx);
    ErrorIsCurrent(pts, dist, removed, left, right, heap[k].idx);
    forall j: nat, e | HasError(pts, dist, removed, j, e)
      ensures d - TOLERANCE <= e
    {
      ErrorIsCurrent(pts, dist, removed, left, right, j);
      var i :| 0 <= i < |heap| && heap[i] == Node(j, e);
      assert heap[k].err <= heap[i].err;
    }
  }

  /** Which points are gone after some have been taken out. */
  function Gone(n: nat, order: seq<nat>): (removed: seq<bool>)
    ensures |removed| == n
  {
    seq(n, i requires 0 <= i < n => i in order)
  }

  /** One after the other, each of these points could be taken out when its turn came. */
  ghost predicate Eliminated(pts: seq<Point>, dist: Distance, eps: real, order: seq<nat>) {
    order == []
    || (var init := order[..|order| - 1];
        Eliminated(pts, dist, eps, init) && Cheapest(pts, dist, eps, Gone(|pts|, init), order[|order| - 1]))
  }

  lemma {:induction false} EliminatedMore(pts: seq<Point>, dist: Distance, eps: real, order: seq<nat>, i: nat)
    requires Eliminated(pts, dist, eps, order) && Cheapest(pts, dist, eps, Gone(|pts|, order), i)
    ensures Eliminated(pts, dist, eps, order + [i])
    ensures Gone(|pts|, order + [i]) == Gone(|pts|, order)[i := true]
  {
    assert (order + [i])[..|order|] == order;
  }

  lemma {:induction false} FirstEliminated(pts: seq<Point>, dist: Distance, eps: real, order: seq<nat>)
    requires Eliminated(pts, dist, eps, order) && order != []
    ensures Cheapest(pts, dist, eps, Gone(|pts|, []), order[0])
  {
    if |order| == 1 {
      assert order[..0] == [];
    } else {
      FirstEliminated(pts, dist, eps, order[..|order| - 1]);
    }
  }

  lemma {:induction false} ErrorOnFullPath(pts: seq<Point>, dist: Distance, i: nat, d: real)
    requires HasError(pts, dist, Gone(|pts|, []), i, d)
    ensures 0 < i < |pts| - 1 && d == dist(pts[i], pts[i - 1], pts[i + 1])
  {
    var none := Gone(|pts|, []);
    var l: nat, r: nat :| IsNext(|pts|, none, l, i) && IsNext(|pts|, none, i, r) && d == dist(pts[i], pts[l], pts[r]);
    assert IsNext(|pts|, none, i - 1, i) && IsNext(|pts|, none, i, i + 1);
    NextIsUnique(|pts|, none, l, i, i - 1, i);
    NextIsUnique(|pts|, none, i, r, i, i + 1);
  }

  lemma {:induction false} NothingEliminated(pts: seq<Point>, dist: Distance, eps: real, removed: seq<bool>)
    requires |removed| == |pts| && forall i :: 0 <= i < |pts| ==> !removed[i]
    ensures Eliminated(pts, dist, eps, []) && removed == Gone(|pts|, [])
  {
  }

  /** A path whose points are all farther than eps from their neighbours' segments stays as it is. */
  lemma {:induction false} FarPointsStay(pts: seq<Point>, dist: Distance, eps: real, order: seq<nat>)
    requires Eliminated(pts, dist, eps, order)
    requires forall i :: 0 < i < |pts| - 1 ==> dist(pts[i], pts[i - 1], pts[i + 1]) > eps
    ensures order == []
  {
    hide HasError;
    if order != [] {
      FirstEliminated(pts, dist, eps, order);
      var d :| HasError(pts, dist, Gone(|pts|, []), order[0], d) && d <= eps;
      ErrorOnFullPath(pts, dist, order[0], d);
      assert false;
    }
  }

  // ---------- One turn of the loop ----------

  lemma {:induction false} PoppedUpToDate(pts: seq<Point>, dist: Distance, removed: seq<bool>, left: seq<nat>,
                                          right: seq<nat>, heap: seq<Node>, k: nat)
    requires |removed| == |pts| && UpToDate(pts, dist, removed, left, right, heap) && k < |heap|
    ensures removed[heap[k].idx] ==> UpToDate(pts, dist, removed, left, right, Without(heap, k))
    ensures !removed[heap[k].idx] ==>
              UpToDate(pts, dist, removed, left, right, Without(heap, k)
                       + [Node(heap[k].idx, Current(pts, dist, left, right, heap[k].idx))])
  {
    var rest := Without(heap, k);
    forall e | e in heap && e != heap[k]
      ensures e in rest
    {
      var j :| 0 <= j < |heap| && heap[j] == e;
      assert rest[if j < k then j else j - 1] == e;
    }
    forall i | Interior(|pts|, removed, i) && i != heap[k].idx
      ensures Node(i, Current(pts, dist, left, right, i)) in rest
    {
    }
  }

  /** The new entries for the neighbours of a point that was taken out. */
  function NeighbourEntries(pts: seq<Point>, dist: Distance, left: seq<nat>, right: seq<nat>, li: nat,
                            ri: nat): seq<Node> {
    (if li > 0 then [Node(li, Current(pts, dist, left, right, li))] else [])
    + if ri < |pts| - 1 then [Node(ri, Current(pts, dist, left, right, ri))] else []
  }

  lemma {:induction false} RemovedUpToDate(pts: seq<Point>, dist: Distance, removed: seq<bool>, left: seq<nat>,
                                           right: seq<nat>, heap: seq<Node>, k: nat)
    requires Linked(|pts|, removed, left, right) && UpToDate(pts, dist, removed, left, right, heap) && k < |heap|
             && !removed[heap[k].idx]
    ensures var idx := heap[k].idx;
            var li, ri := left[idx], right[idx];
            && li < idx < ri < |pts|
            && var left', right' := left[ri := li], right[li := ri];
               UpToDate(pts, dist, removed[idx := true], left', right',
                        Without(heap, k) + NeighbourEntries(pts, dist, left', right', li, ri))
  {
    var idx := heap[k].idx;
    var li, ri := left[idx], right[idx];
    RemoveKeepsLinks(|pts|, removed, left, right, idx);
    var left', right' := left[ri := li], right[li := ri];
    PoppedUpToDate(pts, dist, removed, left, right, heap, k);
    var more := NeighbourEntries(pts, dist, left', right', li, ri);
    forall i | Interior(|pts|, removed[idx := true], i)
      ensures Node(i, Current(pts, dist, left', right', i)) in Without(heap, k) + more
    {
      if i == li {
        assert more[0] == Node(i, Current(pts, dist, left', right', i));
      } else if i == ri {
        assert more[|more| - 1] == Node(i, Current(pts, dist, left', right', i));
      } else {
        assert Current(pts, dist, left', right', i) == Current(pts, dist, left, right, i);
        assert Node(i, Current(pts, dist, left, right, i)) in Without(heap, k)
               + [Node(idx, Current(pts, dist, left, right, idx))];
      }
    }
  }

  ghost predicate Good(pts: seq<Point>, dist: Distance, removed: seq<bool>, left: seq<nat>, right: seq<nat>,
                       heap: seq<Node>) {
    Linked(|pts|, removed, left, right) && UpToDate(pts, dist, removed, left, right, heap)
  }

  /** A point is taken out, and its neighbours get entries with their new errors. */
  method RemovePoint(pts: seq<Point>, dist: Distance, removed: array<bool>, left: array<nat>, right: array<nat>,
                     ghost popped: seq<Node>, ghost k: nat, idx: nat, rest: seq<Node>)
    returns (heap: seq<Node>)
    requires removed.Length == left.Length == right.Length == |pts| && left != right
    requires Good(pts, dist, removed[..], left[..], right[..], popped)
    requires k < |popped| && popped[k].idx == idx < |pts| && !removed[idx] && rest == Without(popped, k)
    modifies removed, left, right
    ensures Good(pts, dist, removed[..], left[..], right[..], heap)
    ensures removed[..] == old(removed[..])[idx := true] && LiveCount(removed[..]) == LiveCount(old(removed[..])) - 1
  {
    ghost var removed0: seq<bool>, left0: seq<nat>, right0: seq<nat> := removed[..], left[..], right[..];
    RemoveKeepsLinks(|pts|, removed0, left0, right0, idx);
    RemovedUpToDate(pts, dist, removed0, left0, right0, popped, k);
    FewerLive(removed0, idx);
    var li: nat, ri: nat := left[idx], right[idx];
    removed[idx] := true;
    right[li] := ri;
    left[ri] := li;
    assert removed[..] == removed0[idx := true] && left[..] == left0[ri := li] && right[..] == right0[li := ri];
    heap := rest;
    assert LinkAt(|pts|, removed[..], left[..], right[..], li) && LinkAt(|pts|, removed[..], left[..], right[..], ri);
    if li > 0 {
      heap := heap + [Node(li, dist(pts[li], pts[left[li]], pts[ri]))];
    }
    if ri < |pts| - 1 {
      heap := heap + [Node(ri, dist(pts[ri], pts[li], pts[right[ri]]))];
    }
    assert heap == rest + NeighbourEntries(pts, dist, left[..], right[..], li, ri);
  }

  /** One turn: stops, or takes out a point that is near enough and cheapest, or only tidies the heap; and
      unless it stops, it lowers (live points, stale entries, heap size). */
  method Visit(pts: seq<Point>, dist: Distance, eps: real, removed: array<bool>, left: array<nat>, right: array<nat>,
               heap: seq<Node>)
    returns (heap': seq<Node>, stop: bool, ghost taken: seq<nat>)
    requires removed.Length == left.Length == right.Length == |pts| && left != right && heap != []
    requires Good(pts, dist, removed[..], left[..], right[..], heap)
    modifies removed, left, right
    ensures Linked(|pts|, removed[..], left[..], right[..])
    ensures taken == [] ==> removed[..] == old(removed[..])
    ensures taken != [] ==> |taken| == 1 && Cheapest(pts, dist, eps, old(removed[..]), taken[0])
                            && removed[..] == old(removed[..])[taken[0] := true]
    ensures stop ==> AllFar(pts, dist, removed[..], left[..], right[..], eps)
    ensures !stop ==> Good(pts, dist, removed[..], left[..], right[..], heap')
    ensures !stop ==>
              var live, live' := LiveCount(old(removed[..])), LiveCount(removed[..]);
              var stale := StaleCount(pts, dist, old(removed[..]), old(left[..]), old(right[..]), heap);
              var stale' := StaleCount(pts, dist, removed[..], left[..], right[..], heap');
              live' < live || (live' == live && (stale' < stale || (stale' == stale && |heap'| < |heap|)))
  {
    hide AllFar, Cheapest, HasError;
    ghost var least := LeastExists(heap);
    var k :| 0 <= k < |heap| && IsLeast(heap, k);
    var idx, err := heap[k].idx, heap[k].err;
    ghost var removed0: seq<bool>, left0: seq<nat>, right0: seq<nat> := removed[..], left[..], right[..];
    heap', stop, taken := Without(heap, k), false, [];
    PoppedUpToDate(pts, dist, removed0, left0, right0, heap, k);
    StalePopped(pts, dist, removed0, left0, right0, heap, k);
    if removed[idx] {
      return;
    }
    RemoveKeepsLinks(|pts|, removed0, left0, right0, idx);
    var curr := dist(pts[idx], pts[left[idx]], pts[right[idx]]);
    if Abs(curr - err) > TOLERANCE {
      heap' := heap' + [Node(idx, curr)];
      assert heap'[..|heap'| - 1] == Without(heap, k);
      return;
    }
    if curr > eps {
      StopIsFar(pts, dist, removed0, left0, right0, heap, k, eps);
      stop := true;
      return;
    }
    LeastIsCheapest(pts, dist, eps, removed0, left0, right0, heap, k);
    taken := [idx];
    heap' := RemovePoint(pts, dist, removed, left, right, heap, k, idx, heap');
  }

  // ---------- The whole algorithm ----------

  method Links(pts: seq<Point>) returns (left: array<nat>, right: array<nat>, removed: array<bool>)
    requires |pts| > 2
    ensures fresh(left) && fresh(right) && fresh(removed) && left != right
    ensures left.Length == right.Length == removed.Length == |pts|
    ensures Linked(|pts|, removed[..], left[..], right[..])
    ensures forall i :: 0 <= i < |pts| ==>
              && !removed[i] && left[i] == (if i == 0 then 0 else i - 1)
              && right[i] == (if i + 1 < |pts| then i + 1 else |pts| - 1)
  {
    var n := |pts|;
    left := new nat[n](i => if i > 0 then i - 1 else 0);
    right := new nat[n](i requires 0 <= i => if i + 1 < n then i + 1 else n - 1);
    removed := new bool[n](_ => false);
    forall i | 0 <= i < n
      ensures LinkAt(n, removed[..], left[..], right[..], i)
    {
      assert i < n - 1 ==> IsNext(n, removed[..], i, i + 1);
    }
  }

  method FirstErrors(pts: seq<Point>, dist: Distance, removed: array<bool>, left: array<nat>, right: array<nat>)
    returns (heap: seq<Node>)
    requires |pts| > 2 && left.Length == right.Length == removed.Length == |pts|
    requires forall i :: 0 <= i < |pts| ==>
               && !removed[i] && left[i] == (if i == 0 then 0 else i - 1)
               && right[i] == (if i + 1 < |pts| then i + 1 else |pts| - 1)
    ensures UpToDate(pts, dist, removed[..], left[..], right[..], heap)
  {
    heap := [];
    for i := 1 to |pts| - 1
      invariant |heap| == i - 1
      invariant forall k :: 0 <= k < |heap| ==> heap[k].idx == k + 1
      invariant forall k :: 0 <= k < |heap| ==> heap[k].err == dist(pts[k + 1], pts[k], pts[k + 2])
    {
      heap := heap + [Node(i, dist(pts[i], pts[i - 1], pts[i + 1]))];
    }
    forall i | Interior(|pts|, removed[..], i)
      ensures Node(i, Current(pts, dist, left[..], right[..], i)) in heap
    {
      assert heap[i - 1] == Node(i, Current(pts, dist, left[..], right[..], i));
    }
  }

  /** The live points in order, and their indices. */
  ghost predicate Collected(pts: seq<Point>, removed: seq<bool>, upTo: nat, out: seq<Point>, live: seq<nat>) {
    && upTo <= |removed| == |pts| && |out| == |live|
    && (forall k :: 0 <= k < |live| ==> live[k] < upTo && !removed[live[k]] && out[k] == pts[live[k]])
    && (forall j, k :: 0 <= j < k < |live| ==> live[j] < live[k])
    && (forall i :: 0 <= i < upTo && !removed[i] ==> i in live)
  }

  method Collect(pts: seq<Point>, removed: array<bool>) returns (out: seq<Point>, ghost live: seq<nat>)
    requires removed.Length == |pts|
    ensures Collected(pts, removed[..], |pts|, out, live)
  {
    out, live := [], [];
    for i := 0 to |pts|
      invariant Collected(pts, removed[..], i, out, live)
    {
      if !removed[i] {
        out, live := out + [pts[i]], live + [i];
        assert live[|live| - 1] == i;
      }
    }
  }

  /** What remains is locally optimal: an increasing selection with both ends, in which every inner
      point is more than eps - TOLERANCE away from the segment between its neighbours. */
  ghost predicate LocallyOptimal(pts: seq<Point>, dist: Distance, eps: real, out: seq<Point>, live: seq<nat>) {
    && |out| == |live| >= 2 && live[0] == 0 && live[|live| - 1] == |pts| - 1
    && (forall k :: 0 <= k < |live| ==> live[k] < |pts| && out[k] == pts[live[k]])
    && (forall j, k :: 0 <= j < k < |live| ==> live[j] < live[k])
    && forall k :: 0 < k < |out| - 1 ==> dist(out[k], out[k - 1], out[k + 1]) > eps - TOLERANCE
  }

  lemma {:induction false} NotBetween(live: seq<nat>, k: nat, i: nat)
    requires forall j, k :: 0 <= j < k < |live| ==> live[j] < live[k]
    requires k + 1 < |live| && live[k] < i < live[k + 1]
    ensures i !in live
  {
    forall j | 0 <= j < |live|
      ensures live[j] != i
    {
      assert j <= k ==> live[j] <= live[k];
      assert j > k ==> live[k + 1] <= live[j];
    }
  }

  lemma {:induction false} FarIsOptimal(pts: seq<Point>, dist: Distance, eps: real, removed: seq<bool>, left: seq<nat>,
                                        right: seq<nat>, out: seq<Point>, live: seq<nat>)
    requires Linked(|pts|, removed, left, right) && AllFar(pts, dist, removed, left, right, eps)
    requires Collected(pts, removed, |pts|, out, live)
    ensures LocallyOptimal(pts, dist, eps, out, live)
  {
    assert 0 in live && |pts| - 1 in live;
    forall k | 0 <= k < |live| - 1
      ensures IsNext(|pts|, removed, live[k], live[k + 1])
    {
      forall i | live[k] < i < live[k + 1]
        ensures removed[i]
      {
        NotBetween(live, k, i);
      }
    }
    forall k | 0 < k < |out| - 1
      ensures dist(out[k], out[k - 1], out[k + 1]) > eps - TOLERANCE
    {
      assert IsNext(|pts|, removed, live[k - 1], live[k]) && IsNext(|pts|, removed, live[k], live[k + 1]);
      assert LinkAt(|pts|, removed, left, right, live[k]);
      NextIsUnique(|pts|, removed, live[k - 1], live[k], left[live[k]], live[k]);
      NextIsUnique(|pts|, removed, live[k], live[k + 1], live[k], right[live[k]]);
      assert Interior(|pts|, removed, live[k]);
    }
  }

  lemma {:induction false} AtLeast(live: seq<nat>, i: nat)
    requires i < |live| && forall i, j :: 0 <= i < j < |live| ==> live[i] < live[j]
    ensures live[i] >= i
  {
    if i > 0 {
      AtLeast(live, i - 1);
    }
  }

  lemma {:induction false} LiveUpTo(live: seq<nat>, k: nat, n: nat)
    requires k <= n && forall i :: 0 <= i < n ==> i in live
    requires forall i, j :: 0 <= i < j < |live| ==> live[i] < live[j]
    ensures k <= |live| && forall i :: 0 <= i < k ==> live[i] == i
  {
    if k > 0 {
      LiveUpTo(live, k - 1, n);
      assert k - 1 in live;
      var j :| 0 <= j < |live| && live[j] == k - 1;
      AtLeast(live, j);
    }
  }

  lemma {:induction false} AllCollected(pts: seq<Point>, out: seq<Point>, live: seq<nat>)
    requires Collected(pts, Gone(|pts|, []), |pts|, out, live)
    ensures out == pts
  {
    var none := Gone(|pts|, []);
    assert forall i :: 0 <= i < |pts| ==> !none[i];
    LiveUpTo(live, |pts|, |pts|);
    if live != [] {
      AtLeast(live, |live| - 1);
    }
    assert forall k :: 0 <= k < |pts| ==> out[k] == pts[live[k]] == pts[k];
  }

  /** The points left are those not taken out, in order; the ones taken out could be, in their order; and
      what is left is locally optimal.  So a path with no point to take out is returned as it is. */
  method Simplify(pts: seq<Point>, dist: Distance, param: real)
    returns (out: seq<Point>, ghost live: seq<nat>, ghost order: seq<nat>)
    ensures |pts| <= 2 ==> out == pts
    ensures var eps := if param < 0.0 then 0.0 else param;
            |pts| > 2 ==>
              && LocallyOptimal(pts, dist, eps, out, live)
              && Eliminated(pts, dist, eps, order) && Collected(pts, Gone(|pts|, order), |pts|, out, live)
              && ((forall i :: 0 < i < |pts| - 1 ==> dist(pts[i], pts[i - 1], pts[i + 1]) > eps) ==> out == pts)
  {
    hide Eliminated, Cheapest, HasError, AllFar, UpToDate, LinkAt, LocallyOptimal, Collected;
    if |pts| <= 2 {
      return pts, [], [];
    }
    var eps := if param < 0.0 then 0.0 else param;
    var left, right, removed := Links(pts);
    var heap := FirstErrors(pts, dist, removed, left, right);
    var stop := false;
    order := [];
    NothingEliminated(pts, dist, eps, removed[..]);
    while !stop && heap != []
      invariant Eliminated(pts, dist, eps, order) && removed[..] == Gone(|pts|, order)
      invariant Linked(|pts|, removed[..], left[..], right[..])
      invariant if stop then AllFar(pts, dist, removed[..], left[..], right[..], eps)
                else Good(pts, dist, removed[..], left[..], right[..], heap)
      decreases !stop, LiveCount(removed[..]), StaleCount(pts, dist, removed[..], left[..], right[..], heap), |heap|
    {
      ghost var taken: seq<nat>;
      heap, stop, taken := Visit(pts, dist, eps, removed, left, right, heap);
      if taken == [] {
        assert order + taken == order;
      } else {
        EliminatedMore(pts, dist, eps, order, taken[0]);
        assert taken == [taken[0]];
      }
      order := order + taken;
    }
    if !stop {
      NothingLeftIsFar(pts, dist, removed[..], left[..], right[..], eps);
    }
    out, live := Collect(pts, removed);
    FarIsOptimal(pts, dist, eps, removed[..], left[..], right[..], out, live);
    if forall i :: 0 < i < |pts| - 1 ==> dist(pts[i], pts[i - 1], pts[i + 1]) > eps {
      FarPointsStay(pts, dist, eps, order);
      AllCollected(pts, out, live);
    }
  }
}
