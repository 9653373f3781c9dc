/** All passes of aggregation together, and what they keep. */
module Aggregation {
  import opened SetSums
  import opened WindowGroups
  import opened TemporalGroups

  // ---------- Sorting by the time last seen, latest first ----------

  predicate IsLatest(ws: Windows, ids: set<nat>, id: nat)
    requires ids <= ws.Keys
  {
    id in ids && forall x :: x in ids ==> ws[x].lastSeen <= ws[id].lastSeen
  }

  lemma {:induction false} LatestExists(ws: Windows, ids: set<nat>) returns (id: nat)
    requires ids != {} && ids <= ws.Keys
    ensures IsLatest(ws, ids, id)
    decreases |ids|
  {
    id :| id in ids;
    if x :| x in ids && x != id {
      var rest := LatestExists(ws, ids - {id});
      if ws[id].lastSeen < ws[rest].lastSeen {
        id := rest;
      }
    } else {
      assert ids == {id};
    }
  }

  /** A sorted part of `ids`, latest first, none of it earlier than what is left. */
  ghost predicate PartSorted(ws: Windows, ids: set<nat>, items: seq<nat>, left: set<nat>)
    requires ids <= ws.Keys
  {
    && left <= ids && Ids(items) == ids - left && |items| == |ids| - |left|
    && Known(ws, items) && Distinct(items) && Descending(ws, items)
    && forall i :: 0 <= i < |items| ==> NoneLater(ws, left, items[i])
  }

  predicate NoneLater(ws: Windows, left: set<nat>, id: nat)
    requires left <= ws.Keys && id in ws
  {
    forall x :: x in left ==> ws[x].lastSeen <= ws[id].lastSeen
  }

  lemma {:induction false} SortStep(ws: Windows, ids: set<nat>, items: seq<nat>, left: set<nat>, id: nat)
    requires ids <= ws.Keys && PartSorted(ws, ids, items, left) && IsLatest(ws, left, id)
    ensures PartSorted(ws, ids, items + [id], left - {id})
  {
    var more := items + [id];
    assert Ids(more) == Ids(items) + {id};
    forall i | 0 <= i < |more|
      ensures more[i] in ws && NoneLater(ws, left - {id}, more[i])
    {
      if i < |items| {
        assert NoneLater(ws, left, items[i]);
      }
    }
    forall i | 0 <= i < |items|
      ensures items[i] != id && ws[id].lastSeen <= ws[items[i]].lastSeen
    {
      assert items[i] in Ids(items) && NoneLater(ws, left, items[i]);
    }
  }

  /** Ties may end up in any order. */
  method SortByLastSeen(ws: Windows, ids: set<nat>) returns (items: seq<nat>)
    requires ids <= ws.Keys
    ensures Known(ws, items) && Distinct(items) && Descending(ws, items) && Ids(items) == ids && |items| == |ids|
  {
    items := [];
    var left := ids;
    while left != {}
      invariant left <= ids && PartSorted(ws, ids, items, left)
      decreases |left|
    {
      ghost var some := LatestExists(ws, left);
      var id :| id in left && IsLatest(ws, left, id);
      SortStep(ws, ids, items, left, id);
      left, items := left - {id}, items + [id];
    }
  }

  /** Keeps the `most` windows that were seen last, if there are more. */
  lemma {:induction false} NothingTrimmed(ws: Windows, most: nat)
    requires most == 0 || |ws| <= most
    ensures Trimmed(ws, most, ws)
  {
  }

  method Trim(ws: Windows, most: nat) returns (kept: Windows)
    ensures Trimmed(ws, most, kept)
  {
    hide Trimmed, Descending, Distinct;
    if most == 0 || |ws| <= most {
      NothingTrimmed(ws, most);
      return ws;
    }
    assert |ws.Keys| == |ws|;
    var items := SortByLastSeen(ws, ws.Keys);
    kept := map[];
    for i := 0 to most
      invariant kept == map id | id in Ids(items[..i]) :: ws[id]
    {
      assert Ids(items[..i + 1]) == Ids(items[..i]) + {items[i]};
      kept := kept[items[i] := ws[items[i]]];
    }
    TrimmedFront(ws, items, most, kept);
  }

  ghost predicate Trimmed(ws: Windows, most: nat, kept: Windows) {
    if most == 0 || |ws| <= most then kept == ws
    else
      && |kept| == most && (forall id :: id in kept ==> id in ws && kept[id] == ws[id])
      && forall a, b :: a in kept && b in ws && b !in kept ==> ws[b].lastSeen <= ws[a].lastSeen
  }

  lemma {:induction false} TrimmedFront(ws: Windows, items: seq<nat>, most: nat, kept: Windows)
    requires Known(ws, items) && Distinct(items) && Descending(ws, items) && Ids(items) == ws.Keys && 0 < most < |ws|
    requires most <= |items| && kept == map id | id in Ids(items[..most]) :: ws[id]
    ensures Trimmed(ws, most, kept)
  {
    assert kept.Keys == Ids(items[..most]) && |kept.Keys| == |kept|;
    SliceDistinct(items, 0, most);
    IdsSize(items[..most]);
    forall a, b | a in kept && b in ws && b !in kept
      ensures ws[b].lastSeen <= ws[a].lastSeen
    {
      FrontIsLater(ws, items, most, a, b);
    }
  }

  lemma {:induction false} FrontIsLater(ws: Windows, items: seq<nat>, most: nat, a: nat, b: nat)
    requires Known(ws, items) && Descending(ws, items) && most <= |items|
    requires a in Ids(items[..most]) && b in Ids(items) && b !in Ids(items[..most])
    ensures a in ws && b in ws && ws[b].lastSeen <= ws[a].lastSeen
  {
    var i :| 0 <= i < most && items[i] == a;
    var j :| 0 <= j < |items| && items[j] == b;
    assert forall n :: 0 <= n < most ==> items[..most][n] == items[n];
  }

  // ---------- Temporal groups of all titles ----------

  function TitleClass(ws: Windows, normalize: string -> string, key: string): (ids: set<nat>)
    ensures ids <= ws.Keys
  {
    set id | id in ws && normalize(ws[id].title) == key
  }

  /** The groups of one title are its connected components of at least two windows. */
  ghost predicate FindsComponents(ws: Windows, key: string, all: set<nat>, groups: seq<TemporalGroup>)
    requires all <= ws.Keys
  {
    && (forall k :: 0 <= k < |groups| ==>
          IsComponent(ws, all, groups[k].ids) && |groups[k].ids| >= 2
              && DescribesTemporal(groups[k], ws, key, groups[k].ids))
    && (forall part :: IsComponent(ws, all, part) && |part| >= 2 ==>
          exists k :: 0 <= k < |groups| && groups[k].ids == part)
    && Apart(groups)
  }

  /** No window is in two groups. */
  predicate Apart(groups: seq<TemporalGroup>) {
    forall j, k :: 0 <= j < k < |groups| ==> groups[j].ids !! groups[k].ids
  }

  lemma {:induction false} GroupIsComponent(ws: Windows, key: string, items: seq<nat>, g: TemporalGroup, a: int, b: int)
    requires Known(ws, items) && Distinct(items) && Descending(ws, items) && Ids(items) <= ws.Keys
    requires GroupOfRun(ws, key, items, g, a, b)
    ensures IsComponent(ws, Ids(items), g.ids) && |g.ids| >= 2 && DescribesTemporal(g, ws, key, g.ids)
  {
    RunIsComponent(ws, items, a, b);
    SliceDistinct(items, a, b);
    IdsSize(items[a..b]);
  }

  lemma {:induction false} SliceDistinct(items: seq<nat>, a: int, b: int)
    requires Distinct(items) && 0 <= a <= b <= |items|
    ensures Distinct(items[a..b])
  {
  }

  lemma {:induction false} ComponentHasGroup(ws: Windows, key: string, items: seq<nat>, groups: seq<TemporalGroup>,
                                             runs: seq<Bounds>, part: set<nat>)
    requires Known(ws, items) && Distinct(items) && Descending(ws, items) && Ids(items) <= ws.Keys
    requires ScannedRuns(ws, key, items, groups, runs, |items|) && IsComponent(ws, Ids(items), part) && |part| >= 2
    ensures exists k :: 0 <= k < |groups| && groups[k].ids == part
  {
    var a, b := ComponentIsRun(ws, items, part);
    IdsSize(items[a..b]);
    assert Bounds(a, b) in runs;
    var k :| 0 <= k < |runs| && runs[k] == Bounds(a, b);
    assert GroupOfRun(ws, key, items, groups[k], a, b);
  }

  lemma {:induction false} GroupsApart(ws: Windows, key: string, items: seq<nat>, groups: seq<TemporalGroup>,
                                       runs: seq<Bounds>)
    requires Known(ws, items) && Distinct(items) && Grouped(ws, key, items, groups, runs) && InOrder(runs, |items|)
    ensures Apart(groups)
  {
    forall j, k | 0 <= j < k < |groups|
      ensures groups[j].ids !! groups[k].ids
    {
      assert GroupOfRun(ws, key, items, groups[j], runs[j].from, runs[j].to);
      assert GroupOfRun(ws, key, items, groups[k], runs[k].from, runs[k].to);
      SlicesApart(items, runs[j].from, runs[j].to, runs[k].from, runs[k].to);
    }
  }

  lemma {:induction false} SlicesApart(items: seq<nat>, a: int, b: int, c: int, d: int)
    requires Distinct(items) && 0 <= a <= b <= c <= d <= |items|
    ensures Ids(items[a..b]) !! Ids(items[c..d])
  {
  }

  /** The scan of the sorted windows of a title finds exactly its connected components. */
  lemma {:induction false} ScanFindsComponents(ws: Windows, key: string, items: seq<nat>, groups: seq<TemporalGroup>,
                                               runs: seq<Bounds>)
    requires Known(ws, items) && Distinct(items) && Descending(ws, items) && Ids(items) <= ws.Keys
    requires ScannedRuns(ws, key, items, groups, runs, |items|)
    ensures FindsComponents(ws, key, Ids(items), groups)
  {
    forall k | 0 <= k < |groups|
      ensures IsComponent(ws, Ids(items), groups[k].ids) && |groups[k].ids| >= 2
              && DescribesTemporal(groups[k], ws, key, groups[k].ids)
    {
      GroupIsComponent(ws, key, items, groups[k], runs[k].from, runs[k].to);
    }
    forall part | IsComponent(ws, Ids(items), part) && |part| >= 2
      ensures exists k :: 0 <= k < |groups| && groups[k].ids == part
    {
      ComponentHasGroup(ws, key, items, groups, runs, part);
    }
    GroupsApart(ws, key, items, groups, runs);
  }

  method GroupTitle(ws: Windows, key: string, ids: set<nat>) returns (groups: seq<TemporalGroup>)
    requires ids <= ws.Keys
    ensures FindsComponents(ws, key, ids, groups)
  {
    if |ids| < 2 {
      SmallHasNone(ws, ids);
      return [];
    }
    var items := SortByLastSeen(ws, ids);
    groups := ScanTitle(ws, key, items);
    ghost var runs: seq<Bounds> :| ScannedRuns(ws, key, items, groups, runs, |items|);
    ScanFindsComponents(ws, key, items, groups, runs);
  }

  lemma {:induction false} SmallHasNone(ws: Windows, ids: set<nat>)
    requires ids <= ws.Keys && |ids| < 2
    ensures forall part :: IsComponent(ws, ids, part) ==> |part| < 2
  {
    forall part | IsComponent(ws, ids, part)
      ensures |part| < 2
    {
      SubsetSize(part, ids);
    }
  }

  /** The windows visited so far, by title. */
  ghost predicate ByTitle(byTitle: map<string, set<nat>>, ws: Windows, normalize: string -> string, visited: set<nat>) {
    forall key :: HasTitle(byTitle, key, TitleClass(ws, normalize, key) * visited)
  }

  predicate HasTitle(byTitle: map<string, set<nat>>, key: string, ids: set<nat>) {
    (key in byTitle <==> ids != {}) && (key in byTitle ==> byTitle[key] == ids)
  }

  lemma {:induction false} TitleMore(byTitle: map<string, set<nat>>, ws: Windows, normalize: string -> string,
                                     visited: set<nat>, id: nat, own: string)
    requires ByTitle(byTitle, ws, normalize, visited) && id in ws && own == normalize(ws[id].title)
    ensures ByTitle(byTitle[own := (if own in byTitle then byTitle[own] else {}) + {id}], ws, normalize, visited + {id})
  {
    var more := byTitle[own := (if own in byTitle then byTitle[own] else {}) + {id}];
    forall key
      ensures HasTitle(more, key, TitleClass(ws, normalize, key) * (visited + {id}))
    {
      assert HasTitle(byTitle, key, TitleClass(ws, normalize, key) * visited);
      if key == own {
        assert TitleClass(ws, normalize, key) * (visited + {id}) == TitleClass(ws, normalize, key) * visited + {id};
      } else {
        assert TitleClass(ws, normalize, key) * (visited + {id}) == TitleClass(ws, normalize, key) * visited;
      }
    }
  }

  method SplitByTitle(ws: Windows, normalize: string -> string) returns (byTitle: map<string, set<nat>>)
    ensures forall key :: HasTitle(byTitle, key, TitleClass(ws, normalize, key))
  {
    byTitle := map[];
    var left := ws.Keys;
    while left != {}
      invariant left <= ws.Keys && ByTitle(byTitle, ws, normalize, ws.Keys - left)
      decreases |left|
    {
      var id :| id in left;
      var key := normalize(ws[id].title);
      TitleMore(byTitle, ws, normalize, ws.Keys - left, id, key);
      byTitle := byTitle[key := (if key in byTitle then byTitle[key] else {}) + {id}];
      assert ws.Keys - left + {id} == ws.Keys - (left - {id});
      left := left - {id};
    }
    forall key
      ensures HasTitle(byTitle, key, TitleClass(ws, normalize, key))
    {
      assert TitleClass(ws, normalize, key) * (ws.Keys - {}) == TitleClass(ws, normalize, key);
    }
  }

  // ---------- All titles ----------

  /** A group is a connected component of at least two windows of its title. */
  ghost predicate IsTemporalGroup(ws: Windows, normalize: string -> string, g: TemporalGroup) {
    var all := TitleClass(ws, normalize, g.titleKey);
    IsComponent(ws, all, g.ids) && |g.ids| >= 2 && DescribesTemporal(g, ws, g.titleKey, g.ids)
  }

  predicate HasGroup(groups: seq<TemporalGroup>, key: string, part: set<nat>) {
    exists k :: 0 <= k < |groups| && groups[k].titleKey == key && groups[k].ids == part
  }

  /** The groups are, each once, the connected components of at least two windows of these titles. */
  ghost predicate TemporalLanes(ws: Windows, normalize: string -> string, keys: set<string>,
                                groups: seq<TemporalGroup>) {
    && (forall k :: 0 <= k < |groups| ==> IsTemporalGroup(ws, normalize, groups[k]) && groups[k].titleKey in keys)
    && (forall key, part :: key in keys && IsComponent(ws, TitleClass(ws, normalize, key), part) && |part| >= 2
                            ==> HasGroup(groups, key, part))
    && Apart(groups)
  }

  lemma {:induction false} LanesMore(ws: Windows, normalize: string -> string, keys: set<string>,
                                     groups: seq<TemporalGroup>, key: string, more: seq<TemporalGroup>)
    requires TemporalLanes(ws, normalize, keys, groups) && key !in keys
    requires FindsComponents(ws, key, TitleClass(ws, normalize, key), more)
    ensures TemporalLanes(ws, normalize, keys + {key}, groups + more)
  {
    var all := groups + more;
    forall k | 0 <= k < |all|
      ensures IsTemporalGroup(ws, normalize, all[k]) && all[k].titleKey in keys + {key}
    {
      assert all[k] == if k < |groups| then groups[k] else more[k - |groups|];
    }
    forall key', part | key' in keys + {key} && IsComponent(ws, TitleClass(ws, normalize, key'), part) && |part| >= 2
      ensures HasGroup(all, key', part)
    {
      if key' == key {
        var k :| 0 <= k < |more| && more[k].ids == part;
        assert all[|groups| + k] == more[k];
      } else {
        assert HasGroup(groups, key', part);
        var k :| 0 <= k < |groups| && groups[k].titleKey == key' && groups[k].ids == part;
        assert all[k] == groups[k];
      }
    }
    forall j, k | 0 <= j < k < |all|
      ensures all[j].ids !! all[k].ids
    {
      if k < |groups| {
        assert all[j] == groups[j] && all[k] == groups[k];
      } else if j < |groups| {
        assert IsTemporalGroup(ws, normalize, groups[j]);
        assert IsComponent(ws, TitleClass(ws, normalize, key), more[k - |groups|].ids);
      } else {
        assert more[j - |groups|].ids !! more[k - |groups|].ids;
      }
    }
  }

  /** The groups are, each once, the connected components of at least two windows of any title. */
  ghost predicate AllTemporal(ws: Windows, normalize: string -> string, groups: seq<TemporalGroup>) {
    && (forall k :: 0 <= k < |groups| ==> IsTemporalGroup(ws, normalize, groups[k]))
    && (forall key, part :: IsComponent(ws, TitleClass(ws, normalize, key), part) && |part| >= 2
                            ==> HasGroup(groups, key, part))
    && Apart(groups)
  }

  function Outside(ws: Windows, groups: seq<TemporalGroup>): Windows {
    map id | id in ws && forall k :: 0 <= k < |groups| ==> id !in groups[k].ids :: ws[id]
  }

  lemma {:induction false} NoLanes(ws: Windows, normalize: string -> string, keys: set<string>)
    requires keys == {}
    ensures TemporalLanes(ws, normalize, keys, [])
  {
  }

  /** Every title has been visited that any window has. */
  lemma {:induction false} AllLanes(ws: Windows, normalize: string -> string, byTitle: map<string, set<nat>>,
                                    groups: seq<TemporalGroup>)
    requires forall key :: HasTitle(byTitle, key, TitleClass(ws, normalize, key))
    requires TemporalLanes(ws, normalize, byTitle.Keys, groups)
    ensures AllTemporal(ws, normalize, groups)
  {
    hide HasGroup;
    forall key, part | IsComponent(ws, TitleClass(ws, normalize, key), part) && |part| >= 2
      ensures HasGroup(groups, key, part)
    {
      assert HasTitle(byTitle, key, TitleClass(ws, normalize, key)) && part <= TitleClass(ws, normalize, key);
    }
  }

  method GroupTemporal(ws: Windows, normalize: string -> string) returns (groups: seq<TemporalGroup>, rest: Windows)
    ensures AllTemporal(ws, normalize, groups) && rest == Outside(ws, groups)
  {
    hide TemporalLanes, AllTemporal, FindsComponents, IsComponent;
    var byTitle := SplitByTitle(ws, normalize);
    groups := [];
    var left := byTitle.Keys;
    NoLanes(ws, normalize, byTitle.Keys - left);
    while left != {}
      invariant left <= byTitle.Keys && TemporalLanes(ws, normalize, byTitle.Keys - left, groups)
      decreases |left|
    {
      var key :| key in left;
      assert HasTitle(byTitle, key, TitleClass(ws, normalize, key));
      var more := GroupTitle(ws, key, byTitle[key]);
      LanesMore(ws, normalize, byTitle.Keys - left, groups, key, more);
      assert byTitle.Keys - left + {key} == byTitle.Keys - (left - {key});
      groups, left := groups + more, left - {key};
    }
    rest := Outside(ws, groups);
    assert byTitle.Keys - left == byTitle.Keys;
    AllLanes(ws, normalize, byTitle, groups);
  }
}
