/** The second pass of aggregation over one app's windows: short-lived windows with the same title
    form a group.  Hash maps are visited in any order. */
module WindowGroups {
  import opened Events
  import opened Accumulation
  import opened SetSums

  type Windows = map<nat, WindowActivity>

  datatype EphemeralGroup = EphemeralGroup(titleKey: string, ids: set<nat>, count: nat, total: nat, firstSeen: Time,
                                           lastSeen: Time)

  predicate FirstAndLast(ws: Windows, ids: set<nat>, first: Time, last: Time)
    requires ids <= ws.Keys
  {
    && (forall id :: id in ids ==> first <= ws[id].firstSeen && ws[id].lastSeen <= last)
    && (exists id :: id in ids && ws[id].firstSeen == first)
    && (exists id :: id in ids && ws[id].lastSeen == last)
  }

  lemma {:induction false} FirstAndLastMore(ws: Windows, ids: set<nat>, first: Time, last: Time, id: nat)
    requires ids <= ws.Keys && id in ws && (ids == {} || FirstAndLast(ws, ids, first, last))
    ensures ids == {} ==> FirstAndLast(ws, ids + {id}, ws[id].firstSeen, ws[id].lastSeen)
    ensures ids != {} ==> FirstAndLast(ws, ids + {id}, Min(first, ws[id].firstSeen), Max(last, ws[id].lastSeen))
  {
  }

  // ---------- Short-lived windows ----------

  /** The short-lived windows with a title. */
  function ShortClass(ws: Windows, normalize: string -> string, threshold: nat, key: string): set<nat> {
    set id | id in ws && ws[id].duration < threshold && normalize(ws[id].title) == key
  }

  ghost predicate Describes(g: EphemeralGroup, ws: Windows, key: string, ids: set<nat>)
    requires ids <= ws.Keys
  {
    && g.titleKey == key && g.ids == ids && g.count == |ids| && g.total == SumOver(ids, DurationOf(ws))
    && FirstAndLast(ws, ids, g.firstSeen, g.lastSeen)
  }

  function Join(g: EphemeralGroup, id: nat, w: WindowActivity): EphemeralGroup {
    EphemeralGroup(g.titleKey, g.ids + {id}, g.count + 1, g.total + w.duration, Min(g.firstSeen, w.firstSeen),
                   Max(g.lastSeen, w.lastSeen))
  }

  lemma {:induction false} JoinDescribes(g: EphemeralGroup, ws: Windows, key: string, ids: set<nat>, id: nat)
    requires id in ws && ids <= ws.Keys && id !in ids
    requires if ids == {} then g == EphemeralGroup(key, {}, 0, 0, ws[id].firstSeen, ws[id].lastSeen)
             else Describes(g, ws, key, ids)
    ensures Describes(Join(g, id, ws[id]), ws, key, ids + {id})
  {
    SumAdd(ids, DurationOf(ws), id);
    FirstAndLastMore(ws, ids, g.firstSeen, g.lastSeen, id);
  }

  /** What is staged under a title after some of the windows have been visited. */
  ghost predicate StagedKey(staged: map<string, EphemeralGroup>, ws: Windows, key: string, ids: set<nat>)
    requires ids <= ws.Keys
  {
    (key in staged <==> ids != {}) && (key in staged ==> Describes(staged[key], ws, key, ids))
  }

  ghost predicate Staged(staged: map<string, EphemeralGroup>, ws: Windows, normalize: string -> string, threshold: nat,
                         visited: set<nat>) {
    forall key :: StagedKey(staged, ws, key, ShortClass(ws, normalize, threshold, key) * visited)
  }

  function Stage(staged: map<string, EphemeralGroup>, key: string, id: nat, w: WindowActivity)
    : map<string, EphemeralGroup> {
    var group := if key in staged then staged[key] else EphemeralGroup(key, {}, 0, 0, w.firstSeen, w.lastSeen);
    staged[key := Join(group, id, w)]
  }

  lemma {:induction false} ClassMore(ws: Windows, normalize: string -> string, threshold: nat, key: string,
                                     visited: set<nat>, id: nat)
    requires id in ws
    ensures ShortClass(ws, normalize, threshold, key) * (visited + {id})
         == ShortClass(ws, normalize, threshold, key) * visited
            + if ws[id].duration < threshold && normalize(ws[id].title) == key then {id} else {}
  {
  }

  lemma {:induction false} StagedMore(staged: map<string, EphemeralGroup>, ws: Windows, normalize: string -> string,
                                      threshold: nat, visited: set<nat>, id: nat, own: string)
    requires id in ws && id !in visited && Staged(staged, ws, normalize, threshold, visited)
    requires ws[id].duration < threshold && own == normalize(ws[id].title)
    ensures Staged(Stage(staged, own, id, ws[id]), ws, normalize, threshold, visited + {id})
  {
    var after := Stage(staged, own, id, ws[id]);
    forall key
      ensures StagedKey(after, ws, key, ShortClass(ws, normalize, threshold, key) * (visited + {id}))
    {
      var before := ShortClass(ws, normalize, threshold, key) * visited;
      assert StagedKey(staged, ws, key, before);
      ClassMore(ws, normalize, threshold, key, visited, id);
      if key == own {
        StageJoins(staged, ws, key, before, id);
      } else {
        assert before + {} == before;
      }
    }
  }

  lemma {:induction false} StagedSame(staged: map<string, EphemeralGroup>, ws: Windows, normalize: string -> string,
                                      threshold: nat, visited: set<nat>, id: nat)
    requires id in ws && Staged(staged, ws, normalize, threshold, visited) && ws[id].duration >= threshold
    ensures Staged(staged, ws, normalize, threshold, visited + {id})
  {
    forall key
      ensures StagedKey(staged, ws, key, ShortClass(ws, normalize, threshold, key) * (visited + {id}))
    {
      ClassMore(ws, normalize, threshold, key, visited, id);
      assert StagedKey(staged, ws, key, ShortClass(ws, normalize, threshold, key) * visited);
      assert ShortClass(ws, normalize, threshold, key) * visited
             + {} == ShortClass(ws, normalize, threshold, key) * visited;
    }
  }

  lemma {:induction false} StageJoins(staged: map<string, EphemeralGroup>, ws: Windows, key: string, before: set<nat>,
                                      id: nat)
    requires id in ws && before <= ws.Keys && id !in before && StagedKey(staged, ws, key, before)
    ensures StagedKey(Stage(staged, key, id, ws[id]), ws, key, before + {id})
  {
    var w := ws[id];
    var group := if key in staged then staged[key] else EphemeralGroup(key, {}, 0, 0, w.firstSeen, w.lastSeen);
    JoinDescribes(group, ws, key, before, id);
  }

  lemma {:induction false} StagedNone(ws: Windows, normalize: string -> string, threshold: nat)
    ensures Staged(map[], ws, normalize, threshold, {})
  {
    assert forall key :: ShortClass(ws, normalize, threshold, key) * {} == {};
  }

  method StageEphemeral(ws: Windows, normalize: string -> string, threshold: nat)
    returns (staged: map<string, EphemeralGroup>)
    ensures Staged(staged, ws, normalize, threshold, ws.Keys)
  {
    hide Staged;
    staged := map[];
    var left := ws.Keys;
    StagedNone(ws, normalize, threshold);
    assert ws.Keys - left == {};
    while left != {}
      invariant left <= ws.Keys && Staged(staged, ws, normalize, threshold, ws.Keys - left)
      decreases |left|
    {
      var id :| id in left;
      var w := ws[id];
      ghost var visited := ws.Keys - left;
      left := left - {id};
      assert visited + {id} == ws.Keys - left;
      if w.duration < threshold {
        StagedMore(staged, ws, normalize, threshold, visited, id, normalize(w.title));
        staged := Stage(staged, normalize(w.title), id, w);
      } else {
        StagedSame(staged, ws, normalize, threshold, visited, id);
      }
    }
    assert ws.Keys - left == ws.Keys;
  }

  /** Windows that belong to no kept group. */
  ghost predicate Ungrouped(rest: Windows, ws: Windows, groups: map<string, EphemeralGroup>) {
    forall id :: (id in rest <==> id in ws && forall key :: key in groups ==> id !in groups[key].ids)
                                                                              && (id in rest ==> rest[id] == ws[id])
  }

  ghost predicate EphemeralLanes(ws: Windows, normalize: string -> string, threshold: nat, minIds: nat,
                                 groups: map<string, EphemeralGroup>) {
    && (forall key :: key in groups <==> ShortClass(ws, normalize, threshold, key) != {}
                                         && |ShortClass(ws, normalize, threshold, key)| >= minIds)
    && (forall key :: key in groups ==> Describes(groups[key], ws, key, ShortClass(ws, normalize, threshold, key)))
  }

  /** The groups kept are the classes of at least `minIds` short-lived windows, if not empty; their
      members leave the normal lane. */
  method GroupEphemeral(ws: Windows, normalize: string -> string, threshold: nat, minIds: nat)
    returns (groups: map<string, EphemeralGroup>, rest: Windows)
    ensures EphemeralLanes(ws, normalize, threshold, minIds, groups) && Ungrouped(rest, ws, groups)
  {
    var staged := StageEphemeral(ws, normalize, threshold);
    assert forall key :: StagedKey(staged, ws, key, ShortClass(ws, normalize, threshold, key)) by {
      assert forall key :: ShortClass(ws, normalize, threshold, key) * ws.Keys
                           == ShortClass(ws, normalize, threshold, key);
    }
    groups, rest := KeepLarge(staged, ws, minIds);
  }

  method KeepLarge(staged: map<string, EphemeralGroup>, ws: Windows, minIds: nat)
    returns (groups: map<string, EphemeralGroup>, rest: Windows)
    ensures forall key :: (key in groups <==> key in staged && |staged[key].ids| >= minIds)
                                              && (key in groups ==> groups[key] == staged[key])
    ensures Ungrouped(rest, ws, groups)
  {
    groups, rest := map[], ws;
    var left := staged.Keys;
    while left != {}
      invariant left <= staged.Keys
      invariant forall key :: key in groups <==> key in staged && key !in left && |staged[key].ids| >= minIds
      invariant forall key :: key in groups ==> groups[key] == staged[key]
      invariant Ungrouped(rest, ws, groups)
      decreases |left|
    {
      var key :| key in left;
      left := left - {key};
      if |staged[key].ids| >= minIds {
        UngroupedMore(rest, ws, groups, key, staged[key]);
        groups := groups[key := staged[key]];
        rest := rest - staged[key].ids;
      }
    }
  }

  lemma {:induction false} UngroupedMore(rest: Windows, ws: Windows, groups: map<string, EphemeralGroup>, key: string,
                                         g: EphemeralGroup)
    requires Ungrouped(rest, ws, groups) && key !in groups
    ensures Ungrouped(rest - g.ids, ws, groups[key := g])
  {
    var more := groups[key := g];
    forall id
      ensures (id in rest - g.ids <==> id in ws && forall k :: k in more ==> id !in more[k].ids)
    {
      if id in ws && (forall k :: k in more ==> id !in more[k].ids) {
        assert key in more;
        forall k | k in groups
          ensures id !in groups[k].ids
        {
          assert k in more;
        }
      }
    }
  }
}
