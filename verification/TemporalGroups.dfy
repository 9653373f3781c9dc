/** The third pass of aggregation: windows with the same title that were last seen at about the same
    time.  A descending sort and one scan find exactly the connected components. */
module TemporalGroups {
  import opened Wrappers
  import opened Events
  import opened Accumulation
  import opened SetSums
  import opened WindowGroups

  datatype TemporalGroup = TemporalGroup(titleKey: string, ids: set<nat>, count: nat, total: nat, longest: nat,
                                         firstSeen: Time, lastSeen: Time, anchor: Time)

  const HOUR: int := 3600 * NANOS_PER_SECOND

  // ---------- The definition ----------

  /** Last seen at most an hour apart. */
  predicate Linked(ws: Windows, a: nat, b: nat)
    requires a in ws && b in ws
  {
    -HOUR <= ws[a].lastSeen - ws[b].lastSeen <= HOUR
  }

  /** No window of `all` outside `part` is linked to one inside. */
  predicate LinkClosed(ws: Windows, all: set<nat>, part: set<nat>)
    requires all <= ws.Keys && part <= all
  {
    forall a, b :: a in part && b in all && Linked(ws, a, b) ==> b in part
  }

  /** A connected component of the link graph: closed, not empty, and with no smaller closed part. */
  ghost predicate IsComponent(ws: Windows, all: set<nat>, part: set<nat>)
    requires all <= ws.Keys
  {
    && part <= all && part != {} && LinkClosed(ws, all, part)
    && forall smaller :: smaller <= part && smaller != {} && LinkClosed(ws, all, smaller) ==> smaller == part
  }

  lemma {:induction false} ComponentsMeet(ws: Windows, all: set<nat>, part: set<nat>, part': set<nat>, x: nat)
    requires all <= ws.Keys && IsComponent(ws, all, part) && IsComponent(ws, all, part') && x in part && x in part'
    ensures part == part'
  {
    assert LinkClosed(ws, all, part * part') && x in part * part';
    assert part * part' <= part && part * part' <= part';
  }

  // ---------- Runs of a sorted sequence ----------

  function Ids(items: seq<nat>): set<nat> {
    set id | id in items
  }

  predicate Distinct(items: seq<nat>) {
    forall i, j :: 0 <= i < j < |items| ==> items[i] != items[j]
  }

  predicate Known(ws: Windows, items: seq<nat>) {
    forall i :: 0 <= i < |items| ==> items[i] in ws
  }

  predicate Descending(ws: Windows, items: seq<nat>)
    requires Known(ws, items)
  {
    forall i, j :: 0 <= i < j < |items| ==> ws[items[j]].lastSeen <= ws[items[i]].lastSeen
  }

  /** More than an hour lies between this item and the one before it. */
  predicate Gap(ws: Windows, items: seq<nat>, j: int)
    requires Known(ws, items)
  {
    0 < j < |items| && ws[items[j - 1]].lastSeen - ws[items[j]].lastSeen > HOUR
  }

  /** A longest stretch without a gap. */
  predicate IsRun(ws: Windows, items: seq<nat>, a: int, b: int)
    requires Known(ws, items)
  {
    && 0 <= a < b <= |items|
    && (a == 0 || Gap(ws, items, a)) && (b == |items| || Gap(ws, items, b))
    && forall j :: a < j < b ==> !Gap(ws, items, j)
  }

  lemma {:induction false} RunStart(ws: Windows, items: seq<nat>, p: nat) returns (a: nat)
    requires Known(ws, items) && p < |items|
    ensures a <= p && (a == 0 || Gap(ws, items, a)) && forall j :: a < j <= p ==> !Gap(ws, items, j)
  {
    if p == 0 || Gap(ws, items, p) {
      a := p;
    } else {
      a := RunStart(ws, items, p - 1);
    }
  }

  lemma {:induction false} RunEnd(ws: Windows, items: seq<nat>, p: nat) returns (b: nat)
    requires Known(ws, items) && p < |items|
    ensures p < b <= |items| && (b == |items| || Gap(ws, items, b)) && forall j :: p < j < b ==> !Gap(ws, items, j)
    decreases |items| - p
  {
    if p + 1 == |items| || Gap(ws, items, p + 1) {
      b := p + 1;
    } else {
      b := RunEnd(ws, items, p + 1);
    }
  }

  /** Across a gap nothing is linked. */
  lemma {:induction false} NotLinkedAcross(ws: Windows, items: seq<nat>, i: nat, g: nat, j: nat)
    requires Known(ws, items) && Descending(ws, items) && i < g <= j < |items| && Gap(ws, items, g)
    ensures !Linked(ws, items[i], items[j]) && !Linked(ws, items[j], items[i])
  {
    assert ws[items[g - 1]].lastSeen <= ws[items[i]].lastSeen || i == g - 1;
    assert ws[items[j]].lastSeen <= ws[items[g]].lastSeen || j == g;
  }

  lemma {:induction false} RunIsClosed(ws: Windows, items: seq<nat>, a: nat, b: nat)
    requires Known(ws, items) && Descending(ws, items) && IsRun(ws, items, a, b)
    ensures Ids(items[a..b]) <= Ids(items) <= ws.Keys && LinkClosed(ws, Ids(items), Ids(items[a..b]))
  {
    forall x, y | x in Ids(items[a..b]) && y in Ids(items) && Linked(ws, x, y)
      ensures y in Ids(items[a..b])
    {
      var i :| a <= i < b && items[i] == x;
      var j :| 0 <= j < |items| && items[j] == y;
      if j < a {
        NotLinkedAcross(ws, items, j, a, i);
      } else if j >= b {
        NotLinkedAcross(ws, items, i, b, j);
      } else {
        assert items[a..b][j - a] == y;
      }
    }
  }

  /** From any item of a run, links lead to all others. */
  lemma {:induction false} RunSpreads(ws: Windows, items: seq<nat>, a: nat, b: nat, part: set<nat>, p: nat, q: nat)
    requires Known(ws, items) && Descending(ws, items) && IsRun(ws, items, a, b)
    requires part <= Ids(items) <= ws.Keys && LinkClosed(ws, Ids(items), part) && a <= p < b && a <= q < b
             && items[p] in part
    ensures items[q] in part
    decreases if p < q then q - p else p - q
  {
    if p < q {
      assert !Gap(ws, items, p + 1);
      assert Linked(ws, items[p], items[p + 1]);
      RunSpreads(ws, items, a, b, part, p + 1, q);
    } else if q < p {
      assert !Gap(ws, items, p);
      assert Linked(ws, items[p], items[p - 1]);
      RunSpreads(ws, items, a, b, part, p - 1, q);
    }
  }

  lemma {:induction false} RunIsComponent(ws: Windows, items: seq<nat>, a: nat, b: nat)
    requires Known(ws, items) && Descending(ws, items) && IsRun(ws, items, a, b)
    ensures Ids(items) <= ws.Keys && IsComponent(ws, Ids(items), Ids(items[a..b]))
  {
    RunIsClosed(ws, items, a, b);
    assert items[a..b][0] == items[a];
    assert items[a] in Ids(items[a..b]);
    var run := Ids(items[a..b]);
    forall smaller | smaller <= run && smaller != {} && LinkClosed(ws, Ids(items), smaller)
      ensures smaller == run
    {
      var x :| x in smaller;
      var p :| a <= p < b && items[p] == x;
      forall y | y in run
        ensures y in smaller
      {
        var q :| a <= q < b && items[q] == y;
        RunSpreads(ws, items, a, b, smaller, p, q);
      }
    }
  }

  lemma {:induction false} ComponentIsRun(ws: Windows, items: seq<nat>, part: set<nat>) returns (a: nat, b: nat)
    requires Known(ws, items) && Descending(ws, items)
    requires Ids(items) <= ws.Keys && IsComponent(ws, Ids(items), part)
    ensures IsRun(ws, items, a, b) && Ids(items[a..b]) == part
  {
    var x :| x in part;
    var p :| 0 <= p < |items| && items[p] == x;
    a := RunStart(ws, items, p);
    b := RunEnd(ws, items, p);
    RunIsComponent(ws, items, a, b);
    assert items[a..b][p - a] == x;
    ComponentsMeet(ws, Ids(items), part, Ids(items[a..b]), x);
  }

  lemma {:induction false} IdsSize(items: seq<nat>)
    requires Distinct(items)
    ensures |Ids(items)| == |items|
  {
    if items != [] {
      var n := |items| - 1;
      IdsSize(items[..n]);
      assert Ids(items) == Ids(items[..n]) + {items[n]};
    }
  }

  // ---------- The scan ----------

  ghost predicate DescribesTemporal(g: TemporalGroup, ws: Windows, key: string, ids: set<nat>)
    requires ids <= ws.Keys
  {
    && g.titleKey == key && g.ids == ids && g.count == |ids| && g.total == Saturate(SumOver(ids, DurationOf(ws)))
    && FirstAndLast(ws, ids, g.firstSeen, g.lastSeen) && g.anchor == g.lastSeen
    && IsLongest(ws, ids, g.longest)
  }

  predicate IsLongest(ws: Windows, ids: set<nat>, longest: nat)
    requires ids <= ws.Keys
  {
    (forall id :: id in ids ==> ws[id].duration <= longest) && (exists id :: id in ids && ws[id].duration == longest)
  }

  lemma {:induction false} LongestMore(ws: Windows, ids: set<nat>, longest: nat, id: nat)
    requires ids <= ws.Keys && id in ws && if ids == {} then longest == 0 else IsLongest(ws, ids, longest)
    ensures IsLongest(ws, ids + {id}, Max(longest, ws[id].duration))
  {
    assert id in ids + {id};
    if x :| x in ids && ws[x].duration == longest {
      assert x in ids + {id};
    }
  }

  function Extend(g: TemporalGroup, id: nat, w: WindowActivity): TemporalGroup {
    var last := if w.lastSeen > g.lastSeen then w.lastSeen else g.lastSeen;
    TemporalGroup(g.titleKey, g.ids + {id}, |g.ids + {id}|, Saturate(g.total + w.duration), Max(g.longest, w.duration),
                  if w.firstSeen < g.firstSeen then w.firstSeen else g.firstSeen, last, last)
  }

  lemma {:induction false} ExtendDescribes(g: TemporalGroup, ws: Windows, key: string, ids: set<nat>, id: nat)
    requires id in ws && ids <= ws.Keys && id !in ids
    requires if ids == {} then g == TemporalGroup(key, {}, 0, 0, 0, ws[id].firstSeen, ws[id].lastSeen, ws[id].lastSeen)
             else DescribesTemporal(g, ws, key, ids)
    ensures DescribesTemporal(Extend(g, id, ws[id]), ws, key, ids + {id})
  {
    hide FirstAndLast, IsLongest;
    SumAdd(ids, DurationOf(ws), id);
    FirstAndLastMore(ws, ids, g.firstSeen, g.lastSeen, id);
    LongestMore(ws, ids, g.longest, id);
  }

  function EmptyGroup(key: string, first: WindowActivity): TemporalGroup {
    TemporalGroup(key, {}, 0, 0, 0, first.firstSeen, first.lastSeen, first.lastSeen)
  }

  function Extended(g: TemporalGroup, ws: Windows, items: seq<nat>): TemporalGroup
    requires Known(ws, items)
  {
    if items == [] then g
    else Extend(Extended(g, ws, items[..|items| - 1]), items[|items| - 1], ws[items[|items| - 1]])
  }

  lemma {:induction false} ExtendedDescribes(ws: Windows, key: string, items: seq<nat>)
    requires items != [] && Known(ws, items) && Distinct(items)
    ensures Ids(items) <= ws.Keys
            && DescribesTemporal(Extended(EmptyGroup(key, ws[items[0]]), ws, items), ws, key, Ids(items))
  {
    var n := |items| - 1;
    var g := EmptyGroup(key, ws[items[0]]);
    NextId(items, n);
    assert items[..n + 1] == items;
    if n == 0 {
      assert items[..n] == [] && Ids([]) == {};
    } else {
      ExtendedDescribes(ws, key, items[..n]);
    }
    ExtendDescribes(Extended(g, ws, items[..n]), ws, key, Ids(items[..n]), items[n]);
  }

  method BuildTemporalGroup(ws: Windows, key: string, items: seq<nat>) returns (g: TemporalGroup)
    requires items != [] && Known(ws, items) && Distinct(items)
    ensures Ids(items) <= ws.Keys && DescribesTemporal(g, ws, key, Ids(items))
  {
    g := EmptyGroup(key, ws[items[0]]);
    for i := 0 to |items|
      invariant g == Extended(EmptyGroup(key, ws[items[0]]), ws, items[..i])
    {
      assert items[..i + 1][..i] == items[..i];
      g := Extend(g, items[i], ws[items[i]]);
    }
    assert items[..|items|] == items;
    ExtendedDescribes(ws, key, items);
  }

  lemma {:induction false} NextId(items: seq<nat>, i: nat)
    requires Distinct(items) && i < |items|
    ensures Ids(items[..i + 1]) == Ids(items[..i]) + {items[i]} && items[i] !in Ids(items[..i])
    ensures Ids(items[..i]) == {} <==> i == 0
  {
    if i > 0 {
      assert items[..i][0] in Ids(items[..i]);
    }
  }

  /** A group has been made of a run. */
  ghost predicate GroupOfRun(ws: Windows, key: string, items: seq<nat>, g: TemporalGroup, a: int, b: int)
    requires Known(ws, items)
  {
    && IsRun(ws, items, a, b) && b - a >= 2 && Ids(items[a..b]) <= ws.Keys
    && DescribesTemporal(g, ws, key, Ids(items[a..b]))
  }

  datatype Bounds = Bounds(from: int, to: int)

  /** Each group has been made of the run with its bounds. */
  ghost predicate Grouped(ws: Windows, key: string, items: seq<nat>, groups: seq<TemporalGroup>, runs: seq<Bounds>)
    requires Known(ws, items)
  {
    |runs| == |groups| && forall k :: 0 <= k < |groups|
                                      ==> GroupOfRun(ws, key, items, groups[k], runs[k].from, runs[k].to)
  }

  /** One run after the other, the last one over by `upTo`. */
  predicate InOrder(runs: seq<Bounds>, upTo: int) {
    && (forall j, k :: 0 <= j < k < |runs| ==> runs[j].to <= runs[k].from)
    && (forall k :: 0 <= k < |runs| ==> runs[k].to <= upTo)
  }

  /** Each group has been made of a run, and each run of at least two windows that ends by `upTo` has a group. */
  ghost predicate ScannedRuns(ws: Windows, key: string, items: seq<nat>, groups: seq<TemporalGroup>, runs: seq<Bounds>,
                              upTo: int)
    requires Known(ws, items)
  {
    && Grouped(ws, key, items, groups, runs) && InOrder(runs, upTo)
    && (forall a, b :: IsRun(ws, items, a, b) && b <= upTo && b - a >= 2 ==> Bounds(a, b) in runs)
  }

  lemma {:induction false} SameRun(ws: Windows, items: seq<nat>, a: int, b: int, a': int, b': int)
    requires Known(ws, items) && IsRun(ws, items, a, b) && IsRun(ws, items, a', b') && a' < b <= b'
    ensures a == a' && b == b'
  {
  }

  lemma {:induction false} CloseRun(ws: Windows, key: string, items: seq<nat>, groups: seq<TemporalGroup>,
                                    runs: seq<Bounds>, from: int, i: int, more: seq<TemporalGroup>)
    requires Known(ws, items) && IsRun(ws, items, from, i) && ScannedRuns(ws, key, items, groups, runs, from)
    requires if i - from >= 2 then |more| == 1 && GroupOfRun(ws, key, items, more[0], from, i) else more == []
    ensures ScannedRuns(ws, key, items, groups + more, runs + (if i - from >= 2 then [Bounds(from, i)] else []), i)
  {
    hide GroupOfRun;
    var runs' := runs + if i - from >= 2 then [Bounds(from, i)] else [];
    assert Grouped(ws, key, items, groups + more, runs') && InOrder(runs', i);
    forall a, b | IsRun(ws, items, a, b) && b <= i && b - a >= 2
      ensures Bounds(a, b) in runs'
    {
      if b > from {
        SameRun(ws, items, a, b, from, i);
        assert runs'[|runs|] == Bounds(a, b);
      }
    }
  }

  /** The stretch from `from` to `i` has no gap, and one before it. */
  predicate OpenRun(ws: Windows, items: seq<nat>, from: int, i: int)
    requires Known(ws, items)
  {
    && 0 <= from <= i <= |items| && (from == i ==> i == 0)
    && (from == 0 || Gap(ws, items, from)) && forall j :: from < j < i ==> !Gap(ws, items, j)
  }

  lemma {:induction false} OpenRunMore(ws: Windows, items: seq<nat>, from: int, i: int)
    requires Known(ws, items) && OpenRun(ws, items, from, i) && i < |items|
    ensures i == 0 || !Gap(ws, items, i) ==>
              OpenRun(ws, items, from, i + 1) && items[from..i + 1] == items[from..i] + [items[i]]
    ensures Gap(ws, items, i) ==> IsRun(ws, items, from, i) && OpenRun(ws, items, i, i + 1)
                                  && items[i..i + 1] == [items[i]]
    ensures i + 1 == |items| && (i == 0 || !Gap(ws, items, i)) ==> IsRun(ws, items, from, i + 1)
  {
  }

  /** A cluster of one window makes no group. */
  method CloseCluster(ws: Windows, key: string, items: seq<nat>, current: seq<nat>, groups: seq<TemporalGroup>,
                      ghost runs: seq<Bounds>, ghost from: int, ghost i: int)
    returns (groups': seq<TemporalGroup>, ghost runs': seq<Bounds>)
    requires Known(ws, items) && Distinct(items) && IsRun(ws, items, from, i) && current == items[from..i]
    requires ScannedRuns(ws, key, items, groups, runs, from)
    ensures ScannedRuns(ws, key, items, groups', runs', i)
  {
    var more := [];
    if |current| >= 2 {
      var g := BuildTemporalGroup(ws, key, current);
      more := [g];
    }
    CloseRun(ws, key, items, groups, runs, from, i, more);
    groups', runs' := groups + more, runs + if i - from >= 2 then [Bounds(from, i)] else [];
  }

  /** The cluster being collected, when its last window was last seen, and the groups made so far. */
  datatype Scan = Scan(current: seq<nat>, previous: Option<Time>, groups: seq<TemporalGroup>)

  ghost predicate Scanning(ws: Windows, key: string, items: seq<nat>, scan: Scan, runs: seq<Bounds>, from: int, i: int)
    requires Known(ws, items)
  {
    && OpenRun(ws, items, from, i) && scan.current == items[from..i]
    && (i > 0 ==> scan.previous == Some(ws[items[i - 1]].lastSeen))
    && ScannedRuns(ws, key, items, scan.groups, runs, from)
  }

  method VisitItem(ws: Windows, key: string, items: seq<nat>, i: nat, scan: Scan, ghost runs: seq<Bounds>,
                   ghost from: int)
    returns (scan': Scan, ghost runs': seq<Bounds>, ghost from': int)
    requires Known(ws, items) && Distinct(items) && i < |items| && Scanning(ws, key, items, scan, runs, from, i)
    ensures Scanning(ws, key, items, scan', runs', from', i + 1)
  {
    var id := items[i];
    var w := ws[id];
    OpenRunMore(ws, items, from, i);
    if scan.current == [] || scan.previous.value - w.lastSeen <= HOUR {
      scan' := Scan(scan.current + [id], Some(w.lastSeen), scan.groups);
      runs', from' := runs, from;
    } else {
      var groups;
      groups, runs' := CloseCluster(ws, key, items, scan.current, scan.groups, runs, from, i);
      scan', from' := Scan([id], Some(w.lastSeen), groups), i;
    }
  }

  method FinishScan(ws: Windows, key: string, items: seq<nat>, scan: Scan, ghost runs: seq<Bounds>, ghost from: int)
    returns (groups: seq<TemporalGroup>, ghost runs': seq<Bounds>)
    requires Known(ws, items) && Distinct(items) && Scanning(ws, key, items, scan, runs, from, |items|)
    ensures ScannedRuns(ws, key, items, groups, runs', |items|)
  {
    if items == [] {
      return scan.groups, runs;
    }
    groups, runs' := CloseCluster(ws, key, items, scan.current, scan.groups, runs, from, |items|);
  }

  /** The scan makes a group of each run of at least two windows, and no other. */
  method ScanTitle(ws: Windows, key: string, items: seq<nat>) returns (groups: seq<TemporalGroup>)
    requires Known(ws, items) && Distinct(items)
    ensures exists runs: seq<Bounds> :: ScannedRuns(ws, key, items, groups, runs, |items|)
  {
    var scan := Scan([], None, []);
    ghost var runs: seq<Bounds>, from := [], 0;
    for i := 0 to |items|
      invariant Scanning(ws, key, items, scan, runs, from, i)
    {
      scan, runs, from := VisitItem(ws, key, items, i, scan, runs, from);
    }
    groups, runs := FinishScan(ws, key, items, scan, runs, from);
  }
}
