/** The whole aggregation: what a summary of an app contains, and what is conserved. */
module AppSummaries {
  import opened Events
  import opened RecordBuilder
  import opened Accumulation
  import opened SetSums
  import opened WindowGroups
  import opened TemporalGroups
  import opened Aggregation

  datatype Limits = Limits(shortThreshold: nat, minIds: nat, mostWindows: nat)

  datatype AppSummary = AppSummary(appName: string, pid: int, processStart: nat, windows: Windows,
                                   ephemeral: map<string, EphemeralGroup>, temporal: seq<TemporalGroup>,
                                   total: nat, firstSeen: Time, lastSeen: Time)

  /** The windows of an app go to three lanes: groups of short-lived ones, of what remains groups of
      those seen at about the same time, and the rest. */
  ghost predicate Lanes(ws: Windows, normalize: string -> string, limits: Limits,
                        ephemeral: map<string, EphemeralGroup>, longer: Windows, temporal: seq<TemporalGroup>,
                        rest: Windows)
  {
    && EphemeralLanes(ws, normalize, limits.shortThreshold, limits.minIds, ephemeral)
    && Ungrouped(longer, ws, ephemeral)
    && AllTemporal(longer, normalize, temporal) && rest == Outside(longer, temporal)
  }

  // ---------- Disjoint lanes ----------

  predicate InEphemeral(ephemeral: map<string, EphemeralGroup>, id: nat) {
    exists key :: key in ephemeral && id in ephemeral[key].ids
  }

  predicate InTemporal(temporal: seq<TemporalGroup>, id: nat) {
    exists k :: 0 <= k < |temporal| && id in temporal[k].ids
  }

  /** Every window is in exactly one lane, and in at most one group of it. */
  lemma {:induction false} LanesPartition(ws: Windows, normalize: string -> string, limits: Limits,
                                          ephemeral: map<string, EphemeralGroup>, longer: Windows,
                                          temporal: seq<TemporalGroup>, rest: Windows, id: nat)
    requires Lanes(ws, normalize, limits, ephemeral, longer, temporal, rest)
    ensures id in ws <==> id in rest || InEphemeral(ephemeral, id) || InTemporal(temporal, id)
    ensures !(id in rest && InEphemeral(ephemeral, id)) && !(id in rest && InTemporal(temporal, id))
    ensures !(InEphemeral(ephemeral, id) && InTemporal(temporal, id))
    ensures forall key, key' :: key in ephemeral && key' in ephemeral && id in ephemeral[key].ids
                                && id in ephemeral[key'].ids
                                ==> key == key'
    ensures forall j, k :: 0 <= j < |temporal| && 0 <= k < |temporal| && id in temporal[j].ids && id in temporal[k].ids
                           ==> j == k
    ensures id in rest ==> rest[id] == ws[id]
    ensures InTemporal(temporal, id) ==> id in longer && longer[id] == ws[id]
  {
    forall key | key in ephemeral && id in ephemeral[key].ids
      ensures id in ws && id !in longer && normalize(ws[id].title) == key
    {
      assert Describes(ephemeral[key], ws, key, ShortClass(ws, normalize, limits.shortThreshold, key));
    }
    forall k | 0 <= k < |temporal| && id in temporal[k].ids
      ensures id in longer
    {
      assert IsTemporalGroup(longer, normalize, temporal[k]);
    }
  }

  // ---------- Isolated windows ----------

  /** In a finite graph every window has a component. */
  lemma {:induction false} ComponentWithin(ws: Windows, all: set<nat>, part: set<nat>, id: nat)
    returns (component: set<nat>)
    requires all <= ws.Keys && part <= all && id in part && LinkClosed(ws, all, part)
    ensures component <= part && id in component && IsComponent(ws, all, component)
    decreases |part|
  {
    if smaller :| smaller <= part && smaller != {} && smaller != part && LinkClosed(ws, all, smaller) {
      if id in smaller {
        SubsetSize(smaller, part);
        component := ComponentWithin(ws, all, smaller, id);
      } else {
        assert LinkClosed(ws, all, part - smaller);
        SubsetSize(part - smaller, part);
        component := ComponentWithin(ws, all, part - smaller, id);
      }
    } else {
      component := part;
    }
  }

  /** A window that is a component of its own is not linked to any other of its class. */
  lemma {:induction false} AloneIsUnlinked(ws: Windows, all: set<nat>, id: nat, other: nat)
    requires all <= ws.Keys && id in all && other in all && other != id
    requires forall part :: IsComponent(ws, all, part) && id in part ==> |part| < 2
    ensures !Linked(ws, id, other)
  {
    var component := ComponentWithin(ws, all, all, id);
    if Linked(ws, id, other) {
      assert other in component;
      assert {id, other} <= component;
      SubsetSize({id, other}, component);
    }
  }

  /** Every window of a component of two or more has been grouped. */
  lemma {:induction false} LargePartIsGrouped(longer: Windows, normalize: string -> string,
                                              temporal: seq<TemporalGroup>, key: string, part: set<nat>, id: nat)
    requires AllTemporal(longer, normalize, temporal)
    requires IsComponent(longer, TitleClass(longer, normalize, key), part) && id in part && |part| >= 2
    ensures InTemporal(temporal, id)
  {
    assert HasGroup(temporal, key, part);
  }

  /** A window left in the normal lane was last seen more than an hour apart from every other of its title
      that is in no ephemeral group. */
  lemma {:induction false} RestIsIsolated(ws: Windows, normalize: string -> string, limits: Limits,
                                          ephemeral: map<string, EphemeralGroup>, longer: Windows,
                                          temporal: seq<TemporalGroup>, rest: Windows, id: nat, other: nat)
    requires Lanes(ws, normalize, limits, ephemeral, longer, temporal, rest)
    requires id in rest && id in ws && other in ws && other != id
             && normalize(ws[id].title) == normalize(ws[other].title)
    ensures Linked(ws, id, other) ==> InEphemeral(ephemeral, other)
  {
    LanesPartition(ws, normalize, limits, ephemeral, longer, temporal, rest, id);
    if !InEphemeral(ephemeral, other) {
      var key := normalize(longer[id].title);
      forall part | IsComponent(longer, TitleClass(longer, normalize, key), part) && id in part
        ensures |part| < 2
      {
        if |part| >= 2 {
          LargePartIsGrouped(longer, normalize, temporal, key, part, id);
        }
      }
      AloneIsUnlinked(longer, TitleClass(longer, normalize, key), id, other);
    }
  }

  // ---------- Conservation ----------

  function TotalOf(groups: map<string, EphemeralGroup>): string -> nat {
    key => if key in groups then groups[key].total else 0
  }

  function EphemeralIds(groups: map<string, EphemeralGroup>, keys: set<string>): set<nat> {
    set key, id | key in keys && key in groups && id in groups[key].ids :: id
  }

  /** Each group has the time of its members, and no two share a member. */
  ghost predicate TimedApart(groups: map<string, EphemeralGroup>, f: nat -> nat) {
    && (forall key :: key in groups ==> groups[key].total == SumOver(groups[key].ids, f))
    && (forall key, key' :: key in groups && key' in groups && key != key' ==> groups[key].ids !! groups[key'].ids)
  }

  lemma {:induction false} EphemeralApart(ws: Windows, normalize: string -> string, limits: Limits,
                                          groups: map<string, EphemeralGroup>)
    requires EphemeralLanes(ws, normalize, limits.shortThreshold, limits.minIds, groups)
    ensures TimedApart(groups, DurationOf(ws))
  {
    forall key | key in groups
      ensures groups[key].ids == ShortClass(ws, normalize, limits.shortThreshold, key)
      ensures groups[key].total == SumOver(groups[key].ids, DurationOf(ws))
    {
      assert Describes(groups[key], ws, key, ShortClass(ws, normalize, limits.shortThreshold, key));
    }
  }

  lemma {:induction false} OneMoreTitle(groups: map<string, EphemeralGroup>, keys: set<string>, key: string)
    requires key in keys && key in groups
    ensures EphemeralIds(groups, keys) == EphemeralIds(groups, keys - {key}) + groups[key].ids
  {
  }

  lemma {:induction false} EphemeralTime(groups: map<string, EphemeralGroup>, keys: set<string>, f: nat -> nat)
    requires TimedApart(groups, f) && keys <= groups.Keys
    ensures SumOver(EphemeralIds(groups, keys), f) == SumOver(keys, TotalOf(groups))
    decreases |keys|
  {
    if key :| key in keys {
      EphemeralTime(groups, keys - {key}, f);
      OneMoreTitle(groups, keys, key);
      SumSplit(EphemeralIds(groups, keys - {key}), groups[key].ids, f);
      SumPick(keys, TotalOf(groups), key);
    } else {
      assert EphemeralIds(groups, keys) == {};
    }
  }

  function TemporalIds(groups: seq<TemporalGroup>): set<nat> {
    if groups == [] then {} else TemporalIds(groups[..|groups| - 1]) + groups[|groups| - 1].ids
  }

  /** The time of temporal groups; their own totals agree unless they exceed 64 bits. */
  ghost function TemporalTime(ws: Windows, groups: seq<TemporalGroup>): nat {
    if groups == [] then 0
    else TemporalTime(ws, groups[..|groups| - 1]) + SumOver(groups[|groups| - 1].ids, DurationOf(ws))
  }

  lemma {:induction false} LastGroupApart(groups: seq<TemporalGroup>, init: seq<TemporalGroup>, last: TemporalGroup)
    requires Apart(groups) && groups == init + [last]
    requires forall id :: id in TemporalIds(init) <==> InTemporal(init, id)
    ensures TemporalIds(init) !! last.ids
    ensures forall id :: id in TemporalIds(init) + last.ids <==> InTemporal(groups, id)
  {
    assert groups[|init|] == last;
    forall id | id in TemporalIds(init)
      ensures id !in last.ids && InTemporal(groups, id)
    {
      assert InTemporal(init, id);
      var k :| 0 <= k < |init| && id in init[k].ids;
      assert groups[k] == init[k] && id in groups[k].ids && groups[k].ids !! last.ids;
    }
    forall id | InTemporal(groups, id) && id !in last.ids
      ensures id in TemporalIds(init)
    {
      var k :| 0 <= k < |groups| && id in groups[k].ids;
      assert k < |init| && init[k] == groups[k] && InTemporal(init, id);
    }
  }

  lemma {:induction false} TemporalAddsUp(ws: Windows, normalize: string -> string, groups: seq<TemporalGroup>)
    requires Apart(groups)
    ensures SumOver(TemporalIds(groups), DurationOf(ws)) == TemporalTime(ws, groups)
    ensures forall id :: id in TemporalIds(groups) <==> InTemporal(groups, id)
  {
    if groups != [] {
      var init, last := groups[..|groups| - 1], groups[|groups| - 1];
      TemporalAddsUp(ws, normalize, init);
      LastGroupApart(groups, init, last);
      SumSplit(TemporalIds(init), last.ids, DurationOf(ws));
    }
  }

  predicate LaneOf(ws: Windows, rest: Windows, short: set<nat>, longer: Windows, grouped: set<nat>, id: nat) {
    && (id in ws <==> id in rest || id in short || id in grouped)
    && !(id in rest && id in short) && !(id in rest && id in grouped) && !(id in short && id in grouped)
    && (id in rest ==> rest[id] == ws[id]) && (id in grouped ==> id in longer && longer[id] == ws[id])
  }

  lemma {:induction false} EachLane(ws: Windows, normalize: string -> string, limits: Limits,
                                    ephemeral: map<string, EphemeralGroup>, longer: Windows,
                                    temporal: seq<TemporalGroup>, rest: Windows, id: nat)
    requires Lanes(ws, normalize, limits, ephemeral, longer, temporal, rest)
    ensures LaneOf(ws, rest, EphemeralIds(ephemeral, ephemeral.Keys), longer, TemporalIds(temporal), id)
  {
    TemporalAddsUp(longer, normalize, temporal);
    LanesPartition(ws, normalize, limits, ephemeral, longer, temporal, rest, id);
    assert id in EphemeralIds(ephemeral, ephemeral.Keys) <==> InEphemeral(ephemeral, id);
  }

  lemma {:induction false} LaneSets(ws: Windows, rest: Windows, short: set<nat>, longer: Windows, grouped: set<nat>)
    requires forall id :: LaneOf(ws, rest, short, longer, grouped, id)
    ensures ws.Keys == (rest.Keys + short) + grouped
    ensures rest.Keys !! short && rest.Keys + short !! grouped
    ensures forall id :: id in rest.Keys ==> DurationOf(ws)(id) == DurationOf(rest)(id)
    ensures forall id :: id in grouped ==> DurationOf(ws)(id) == DurationOf(longer)(id)
  {
    forall id
      ensures id in ws.Keys <==> id in rest.Keys || id in short || id in grouped
      ensures !(id in rest.Keys && id in short) && !(id in rest.Keys && id in grouped)
              && !(id in short && id in grouped)
    {
      assert LaneOf(ws, rest, short, longer, grouped, id);
    }
    forall id | id in rest.Keys || id in grouped
      ensures id in rest.Keys ==> DurationOf(ws)(id) == DurationOf(rest)(id)
      ensures id in grouped ==> DurationOf(ws)(id) == DurationOf(longer)(id)
    {
      assert LaneOf(ws, rest, short, longer, grouped, id);
    }
  }

  lemma {:induction false} LaneTimes(ws: Windows, rest: Windows, short: set<nat>, longer: Windows, grouped: set<nat>)
    requires ws.Keys == (rest.Keys + short) + grouped && rest.Keys !! short && rest.Keys + short !! grouped
    requires forall id :: id in rest.Keys ==> DurationOf(ws)(id) == DurationOf(rest)(id)
    requires forall id :: id in grouped ==> DurationOf(ws)(id) == DurationOf(longer)(id)
    ensures SumOver(ws.Keys, DurationOf(ws)) == SumOver(rest.Keys, DurationOf(rest)) + SumOver(short, DurationOf(ws))
            + SumOver(grouped, DurationOf(longer))
  {
    SumSplit(rest.Keys + short, grouped, DurationOf(ws));
    SumSplit(rest.Keys, short, DurationOf(ws));
    SumSame(rest.Keys, DurationOf(ws), DurationOf(rest));
    SumSame(grouped, DurationOf(ws), DurationOf(longer));
  }

  /** Grouping loses no time: the lanes together have the time of the app's windows. */
  lemma {:induction false} LanesConserveTime(ws: Windows, normalize: string -> string, limits: Limits,
                                             ephemeral: map<string, EphemeralGroup>, longer: Windows,
                                             temporal: seq<TemporalGroup>, rest: Windows)
    requires Lanes(ws, normalize, limits, ephemeral, longer, temporal, rest)
    ensures SumOver(ws.Keys, DurationOf(ws))
         == SumOver(rest.Keys, DurationOf(rest)) + SumOver(ephemeral.Keys, TotalOf(ephemeral))
             + TemporalTime(longer, temporal)
  {
    EphemeralApart(ws, normalize, limits, ephemeral);
    EphemeralTime(ephemeral, ephemeral.Keys, DurationOf(ws));
    TemporalAddsUp(longer, normalize, temporal);
    forall id
      ensures LaneOf(ws, rest, EphemeralIds(ephemeral, ephemeral.Keys), longer, TemporalIds(temporal), id)
    {
      EachLane(ws, normalize, limits, ephemeral, longer, temporal, rest, id);
    }
    LaneSets(ws, rest, EphemeralIds(ephemeral, ephemeral.Keys), longer, TemporalIds(temporal));
    LaneTimes(ws, rest, EphemeralIds(ephemeral, ephemeral.Keys), longer, TemporalIds(temporal));
  }

  /** From records to lanes: an app's lanes have the time of its titled records, at most its total. */
  lemma {:induction false} LanesHoldTitledTime(records: seq<Record>, since: Time, now: Time, key: AppKey,
                                               normalize: string -> string, limits: Limits,
                                               ephemeral: map<string, EphemeralGroup>, longer: Windows,
                                               temporal: seq<TemporalGroup>, rest: Windows)
    requires key in Accumulated(records, since, now)
    requires Lanes(Accumulated(records, since, now)[key].windows, normalize, limits, ephemeral, longer, temporal, rest)
    ensures SumOver(rest.Keys, DurationOf(rest)) + SumOver(ephemeral.Keys, TotalOf(ephemeral))
            + TemporalTime(longer, temporal)
         == TitledTotalFor(records, key, since, now)
         <= Accumulated(records, since, now)[key].total == TotalFor(records, key, since, now)
  {
    LanesConserveTime(Accumulated(records, since, now)[key].windows, normalize, limits, ephemeral, longer, temporal,
                      rest);
    WindowsAddUp(records, since, now, key);
    TotalsAreExact(records, since, now, key);
  }

  // ---------- All apps ----------

  /** What the aggregation makes of one app, up to the order in which maps are visited. */
  ghost predicate Summarizes(s: AppSummary, a: AppActivity, normalize: string -> string, limits: Limits) {
    && s.appName == a.appName && s.pid == a.pid && s.processStart == a.processStart
    && s.total == a.total && s.firstSeen == a.firstSeen && s.lastSeen == a.lastSeen
    && exists longer, rest :: Lanes(a.windows, normalize, limits, s.ephemeral, longer, s.temporal, rest)
                              && Trimmed(rest, limits.mostWindows, s.windows)
  }

  method Summarize(a: AppActivity, normalize: string -> string, limits: Limits) returns (s: AppSummary)
    ensures Summarizes(s, a, normalize, limits)
  {
    var ephemeral, longer := GroupEphemeral(a.windows, normalize, limits.shortThreshold, limits.minIds);
    var temporal, rest := GroupTemporal(longer, normalize);
    var windows := Trim(rest, limits.mostWindows);
    s := AppSummary(a.appName, a.pid, a.processStart, windows, ephemeral, temporal, a.total, a.firstSeen, a.lastSeen);
    assert Lanes(a.windows, normalize, limits, s.ephemeral, longer, s.temporal, rest);
  }

  predicate LatestFirst(apps: seq<AppSummary>) {
    forall i, j :: 0 <= i < j < |apps| ==> apps[j].lastSeen <= apps[i].lastSeen
  }

  /** Puts a summary before all that were seen earlier; ties stay in order. */
  method InsertByLastSeen(apps: seq<AppSummary>, ghost keys: seq<AppKey>, s: AppSummary, ghost key: AppKey)
    returns (more: seq<AppSummary>, ghost moreKeys: seq<AppKey>, ghost at: nat)
    requires LatestFirst(apps) && |keys| == |apps|
    ensures LatestFirst(more) && at <= |apps|
    ensures more == apps[..at] + [s] + apps[at..] && moreKeys == keys[..at] + [key] + keys[at..]
  {
    var i := 0;
    while i < |apps| && s.lastSeen <= apps[i].lastSeen
      invariant 0 <= i <= |apps| && forall j :: 0 <= j < i ==> s.lastSeen <= apps[j].lastSeen
    {
      i := i + 1;
    }
    more, moreKeys, at := apps[..i] + [s] + apps[i..], keys[..i] + [key] + keys[i..], i;
  }

  ghost predicate SummaryOf(s: AppSummary, all: Apps, key: AppKey, normalize: string -> string, limits: Limits) {
    key in all && Summarizes(s, all[key], normalize, limits)
  }

  /** Each summary is right for the key beside it, and no key appears twice. */
  ghost predicate Paired(apps: seq<AppSummary>, keys: seq<AppKey>, right: (AppSummary, AppKey) -> bool) {
    && |keys| == |apps|
    && (forall i :: 0 <= i < |keys| ==> right(apps[i], keys[i]))
    && (forall i, j :: 0 <= i < j < |keys| ==> keys[i] != keys[j])
  }

  /** `apps[i]` summarizes the app with key `keys[i]`. */
  ghost predicate AllSummarized(apps: seq<AppSummary>, keys: seq<AppKey>, all: Apps, normalize: string -> string,
                                limits: Limits) {
    Paired(apps, keys, (s, key) => SummaryOf(s, all, key, normalize, limits))
  }

  /** One summary for every app that counts, latest first. */
  method AggregateActivitiesSince(records: seq<Record>, since: Time, now: Time, normalize: string -> string,
                                  limits: Limits)
    returns (apps: seq<AppSummary>, ghost keys: seq<AppKey>)
    ensures LatestFirst(apps)
    ensures AllSummarized(apps, keys, Accumulated(records, since, now), normalize, limits)
    ensures forall key :: key in keys <==> key in Accumulated(records, since, now)
  {
    var all := Accumulate(records, since, now);
    apps, keys := [], [];
    var left := all.Keys;
    while left != {}
      invariant left <= all.Keys && LatestFirst(apps) && AllSummarized(apps, keys, all, normalize, limits)
      invariant forall key :: key in keys <==> key in all && key !in left
      decreases |left|
    {
      var key :| key in left;
      var s := Summarize(all[key], normalize, limits);
      assert SummaryOf(s, all, key, normalize, limits);
      ghost var apps0, keys0 := apps, keys;
      ghost var at;
      apps, keys, at := InsertByLastSeen(apps, keys, s, key);
      InsertedPaired(apps0, keys0, (s, key) => SummaryOf(s, all, key, normalize, limits), s, key, at);
      left := left - {key};
    }
  }

  lemma {:induction false} InsertedPaired(apps: seq<AppSummary>, keys: seq<AppKey>, right: (AppSummary, AppKey) -> bool,
                                          s: AppSummary, key: AppKey, at: nat)
    requires Paired(apps, keys, right) && at <= |apps| && key !in keys && right(s, key)
    ensures Paired(apps[..at] + [s] + apps[at..], keys[..at] + [key] + keys[at..], right)
    ensures forall k :: k in keys[..at] + [key] + keys[at..] <==> k in keys || k == key
  {
    var keys' := keys[..at] + [key] + keys[at..];
    assert keys == keys[..at] + keys[at..];
    assert keys'[at] == key;
  }
}
