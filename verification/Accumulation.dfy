/** The first pass of aggregation: records, clipped to a period, add up per app and per window. */
module Accumulation {
  import opened Wrappers
  import opened Events
  import opened Mealy
  import opened RecordBuilder
  import opened SetSums

  datatype WindowActivity = WindowActivity(windowId: nat, title: string, duration: nat, firstSeen: Time, lastSeen: Time,
                                           records: nat)

  datatype AppActivity = AppActivity(appName: string, pid: int, processStart: nat, windows: map<nat, WindowActivity>,
                                     total: nat, firstSeen: Time, lastSeen: Time)

  /** The process id as an unsigned 32-bit number, and the start time. */
  datatype AppKey = AppKey(pid: nat, processStart: nat)

  type Apps = map<AppKey, AppActivity>

  function KeyOf(f: Focus): AppKey {
    AppKey(f.pid % 0x1_0000_0000, f.processStartTime)
  }

  function Max(a: int, b: int): int { if a < b then b else a }

  function Min(a: int, b: int): int { if b < a then b else a }

  /** The part of a record within the period, if it lasts at least a second. */
  datatype Clip = Clip(start: Time, end: Time, duration: nat)

  function ClipOf(r: Record, since: Time, now: Time): Option<Clip> {
    var start := Max(r.startTime, since);
    var end := if r.endTime.Some? then r.endTime.value else now;
    if r.focusInfo.None? || end <= since || NumSeconds(end - start) <= 0 then None
    else Some(Clip(start, end, NumSeconds(end - start)))
  }

  predicate Titled(f: Focus) {
    f.windowTitle != "" && f.windowId > 0
  }

  function AddToWindows(windows: map<nat, WindowActivity>, f: Focus, c: Clip): map<nat, WindowActivity> {
    if !Titled(f) then windows
    else
      var w := if f.windowId in windows then windows[f.windowId]
               else WindowActivity(f.windowId, f.windowTitle, 0, c.start, c.end, 0);
      windows[f.windowId := WindowActivity(f.windowId, f.windowTitle, w.duration + c.duration,
                                           Min(w.firstSeen, c.start), Max(w.lastSeen, c.end), w.records + 1)]
  }

  function AddToApps(apps: Apps, f: Focus, c: Clip): Apps {
    var a := if KeyOf(f) in apps then apps[KeyOf(f)]
             else AppActivity(f.appName, f.pid, f.processStartTime, map[], 0, c.start, c.end);
    apps[KeyOf(f) := a.(total := a.total + c.duration, firstSeen := Min(a.firstSeen, c.start),
                        lastSeen := Max(a.lastSeen, c.end),
                        windows := AddToWindows(a.windows, f, c))]
  }

  function AddedRecord(apps: Apps, r: Record, since: Time, now: Time): Apps {
    if ClipOf(r, since, now).None? then apps else AddToApps(apps, r.focusInfo.value, ClipOf(r, since, now).value)
  }

  function Accumulated(records: seq<Record>, since: Time, now: Time): Apps {
    if records == [] then map[]
    else AddedRecord(Accumulated(records[..|records| - 1], since, now), records[|records| - 1], since, now)
  }

  /** The window's entry, made at its first clip. */
  method AddToWindow(windows: map<nat, WindowActivity>, focus: Focus, c: Clip) returns (more: map<nat, WindowActivity>)
    ensures more == AddToWindows(windows, focus, c)
  {
    more := windows;
    if focus.windowTitle != "" && focus.windowId > 0 {
      var window := if focus.windowId in windows then windows[focus.windowId]
                    else WindowActivity(focus.windowId, focus.windowTitle, 0, c.start, c.end, 0);
      window := window.(title := focus.windowTitle, duration := window.duration + c.duration);
      window := window.(firstSeen := Min(window.firstSeen, c.start), lastSeen := Max(window.lastSeen, c.end));
      window := window.(records := window.records + 1, windowId := focus.windowId);
      more := windows[focus.windowId := window];
    }
  }

  method AddRecord(apps: Apps, record: Record, since: Time, now: Time) returns (more: Apps)
    ensures more == AddedRecord(apps, record, since, now)
  {
    more := apps;
    if record.focusInfo.Some? {
      var focus := record.focusInfo.value;
      var start := Max(record.startTime, since);
      var end := if record.endTime.Some? then record.endTime.value else now;
      if end <= since {
        return;
      }
      var duration := NumSeconds(end - start);
      if duration <= 0 {
        return;
      }
      var app := if KeyOf(focus) in apps then apps[KeyOf(focus)]
                 else AppActivity(focus.appName, focus.pid, focus.processStartTime, map[], 0, start, end);
      app := app.(total := app.total + duration);
      app := app.(firstSeen := Min(app.firstSeen, start), lastSeen := Max(app.lastSeen, end));
      var windows := AddToWindow(app.windows, focus, Clip(start, end, duration));
      more := apps[KeyOf(focus) := app.(windows := windows)];
    }
  }

  method Accumulate(records: seq<Record>, since: Time, now: Time) returns (apps: Apps)
    ensures apps == Accumulated(records, since, now)
  {
    apps := map[];
    for i := 0 to |records|
      invariant apps == Accumulated(records[..i], since, now)
    {
      assert records[..i + 1][..i] == records[..i];
      apps := AddRecord(apps, records[i], since, now);
    }
    assert records[..|records|] == records;
  }

  // ---------- What the numbers are ----------

  /** What a record counts for an app, and for one of its windows. */
  function CountsFor(r: Record, key: AppKey, since: Time, now: Time): nat {
    var c := ClipOf(r, since, now);
    if c.Some? && KeyOf(r.focusInfo.value) == key then c.value.duration else 0
  }

  function CountsForWindow(r: Record, key: AppKey, id: nat, since: Time, now: Time): nat {
    if r.focusInfo.Some? && Titled(r.focusInfo.value)
       && r.focusInfo.value.windowId == id then CountsFor(r, key, since, now) else 0
  }

  function TotalFor(records: seq<Record>, key: AppKey, since: Time, now: Time): nat {
    if records == [] then 0
    else TotalFor(records[..|records| - 1], key, since, now) + CountsFor(records[|records| - 1], key, since, now)
  }

  function TotalForWindow(records: seq<Record>, key: AppKey, id: nat, since: Time, now: Time): nat {
    if records == [] then 0
    else TotalForWindow(records[..|records| - 1], key, id, since, now)
         + CountsForWindow(records[|records| - 1], key, id, since, now)
  }

  function DurationOf(windows: map<nat, WindowActivity>): nat -> nat {
    id => if id in windows then windows[id].duration else 0
  }

  function TitledTotalFor(records: seq<Record>, key: AppKey, since: Time, now: Time): nat {
    if records == [] then 0
    else
      var r := records[|records| - 1];
      TitledTotalFor(records[..|records| - 1], key, since, now)
      + if r.focusInfo.Some? && Titled(r.focusInfo.value) then CountsFor(r, key, since, now) else 0
  }

  function AppTotal(apps: Apps): AppKey -> nat {
    key => if key in apps then apps[key].total else 0
  }

  lemma {:induction false} WindowTotal(records: seq<Record>, since: Time, now: Time, key: AppKey, id: nat)
    ensures var apps := Accumulated(records, since, now);
            && (key in apps ==> DurationOf(apps[key].windows)(id) == TotalForWindow(records, key, id, since, now))
            && (key in apps ==> (id in apps[key].windows <==> TotalForWindow(records, key, id, since, now) > 0))
            && (key !in apps ==> TotalForWindow(records, key, id, since, now) == 0)
  {
    if records != [] {
      WindowTotal(records[..|records| - 1], since, now, key, id);
    }
  }

  /** Every app has the total of its records, every window that of the titled records about it; an
      app or window without such records does not appear. */
  lemma {:induction false} TotalsAreExact(records: seq<Record>, since: Time, now: Time, key: AppKey)
    ensures var apps := Accumulated(records, since, now);
            && AppTotal(apps)(key) == TotalFor(records, key, since, now)
            && (key in apps <==> TotalFor(records, key, since, now) > 0)
            && (key in apps ==> forall id :: DurationOf(apps[key].windows)(id)
                                             == TotalForWindow(records, key, id, since, now))
            && (key in apps ==> forall id :: id in apps[key].windows
                                             <==> TotalForWindow(records, key, id, since, now) > 0)
            && (key !in apps ==> forall id :: TotalForWindow(records, key, id, since, now) == 0)
  {
    AppsTotal(records, since, now, key);
    forall id
      ensures var apps := Accumulated(records, since, now);
              && (key in apps ==> DurationOf(apps[key].windows)(id) == TotalForWindow(records, key, id, since, now))
              && (key in apps ==> (id in apps[key].windows <==> TotalForWindow(records, key, id, since, now) > 0))
              && (key !in apps ==> TotalForWindow(records, key, id, since, now) == 0)
    {
      WindowTotal(records, since, now, key, id);
    }
  }

  lemma {:induction false} AppsTotal(records: seq<Record>, since: Time, now: Time, key: AppKey)
    ensures var apps := Accumulated(records, since, now);
            AppTotal(apps)(key) == TotalFor(records, key, since, now)
                && (key in apps <==> TotalFor(records, key, since, now) > 0)
  {
    if records != [] {
      AppsTotal(records[..|records| - 1], since, now, key);
    }
  }

  /** How long a record about an app, still running at `now` if it is open, lasted within the period. */
  function Overlap(r: Record, key: AppKey, since: Time, now: Time): nat {
    var end := if r.endTime.Some? then r.endTime.value else now;
    var start := if r.startTime < since then since else r.startTime;
    if r.focusInfo.Some? && r.focusInfo.value.pid % 0x1_0000_0000 == key.pid
       && r.focusInfo.value.processStartTime == key.processStart && start < end
    then end - start else 0
  }

  /** A record counts the whole seconds of that, so less than one is lost; and its clip is that stretch. */
  lemma {:induction false} CountsWholeSeconds(r: Record, key: AppKey, since: Time, now: Time)
    ensures var counts, overlap, c := CountsFor(r, key, since, now), Overlap(r, key, since, now), ClipOf(r, since, now);
            && counts * NANOS_PER_SECOND <= overlap < (counts + 1) * NANOS_PER_SECOND
            && (counts > 0 ==>
                  && c.Some? && since <= c.value.start && r.startTime <= c.value.start
                  && c.value.start in {since, r.startTime} && c.value.end - c.value.start == overlap
                  && c.value.end == if r.endTime.Some? then r.endTime.value else now)
  {
  }

  function OverlapFor(records: seq<Record>, key: AppKey, since: Time, now: Time): nat {
    if records == [] then 0
    else OverlapFor(records[..|records| - 1], key, since, now) + Overlap(records[|records| - 1], key, since, now)
  }

  /** An app's total is the time its records lasted within the period, less than a second short per record. */
  lemma {:induction false} TotalsAreTheTime(records: seq<Record>, since: Time, now: Time, key: AppKey)
    ensures var total := AppTotal(Accumulated(records, since, now))(key);
            var time := OverlapFor(records, key, since, now);
            total * NANOS_PER_SECOND <= time <= (total + |records|) * NANOS_PER_SECOND
            && (records != [] ==> time < (total + |records|) * NANOS_PER_SECOND)
  {
    AppsTotal(records, since, now, key);
    TimeOf(records, since, now, key);
  }

  lemma {:induction false} TimeOf(records: seq<Record>, since: Time, now: Time, key: AppKey)
    ensures var total, time := TotalFor(records, key, since, now), OverlapFor(records, key, since, now);
            total * NANOS_PER_SECOND <= time <= (total + |records|) * NANOS_PER_SECOND
            && (records != [] ==> time < (total + |records|) * NANOS_PER_SECOND)
  {
    if records != [] {
      TimeOf(records[..|records| - 1], since, now, key);
      CountsWholeSeconds(records[|records| - 1], key, since, now);
    }
  }

  lemma {:induction false} WindowAdds(windows: map<nat, WindowActivity>, f: Focus, c: Clip)
    ensures var after := AddToWindows(windows, f, c);
            SumOver(after.Keys, DurationOf(after)) == SumOver(windows.Keys, DurationOf(windows))
                + if Titled(f) then c.duration else 0
  {
    if Titled(f) {
      var after, id := AddToWindows(windows, f, c), f.windowId;
      assert after.Keys == windows.Keys + {id};
      SumUpdate(windows.Keys, DurationOf(windows), DurationOf(after), id);
    }
  }

  /** Conservation within an app: its windows add up to its titled time, which is at most its total. */
  lemma {:induction false} WindowsAddUp(records: seq<Record>, since: Time, now: Time, key: AppKey)
    ensures var apps := Accumulated(records, since, now);
            && (key in apps ==> SumOver(apps[key].windows.Keys, DurationOf(apps[key].windows))
                                == TitledTotalFor(records, key, since, now))
            && (key !in apps ==> TitledTotalFor(records, key, since, now) == 0)
            && TitledTotalFor(records, key, since, now) <= TotalFor(records, key, since, now)
  {
    if records != [] {
      var init, r := records[..|records| - 1], records[|records| - 1];
      WindowsAddUp(init, since, now, key);
      var apps, c := Accumulated(init, since, now), ClipOf(r, since, now);
      if c.Some? && KeyOf(r.focusInfo.value) == key {
        WindowAdds(if key in apps then apps[key].windows else map[], r.focusInfo.value, c.value);
      }
    }
  }

  /** Nothing is missing when every record of the app has a title and a window. */
  lemma {:induction false} TitledRecordsLoseNothing(records: seq<Record>, since: Time, now: Time, key: AppKey)
    requires forall i :: 0 <= i < |records| && records[i].focusInfo.Some? && KeyOf(records[i].focusInfo.value) == key
                         ==> Titled(records[i].focusInfo.value)
    ensures TitledTotalFor(records, key, since, now) == TotalFor(records, key, since, now)
  {
    if records != [] {
      TitledRecordsLoseNothing(records[..|records| - 1], since, now, key);
    }
  }

  datatype Seen = Seen(first: Time, last: Time)

  /** The first and last moments of some clips. */
  predicate Spans(first: Time, last: Time, clips: seq<Clip>) {
    && (forall i :: 0 <= i < |clips| ==> first <= clips[i].start && clips[i].end <= last)
    && (exists i :: 0 <= i < |clips| && clips[i].start == first)
    && (exists i :: 0 <= i < |clips| && clips[i].end == last)
  }

  lemma {:induction false} SpansMore(first: Time, last: Time, clips: seq<Clip>, c: Clip)
    requires clips == [] || Spans(first, last, clips)
    ensures clips == [] ==> Spans(c.start, c.end, clips + [c])
    ensures clips != [] ==> Spans(Min(first, c.start), Max(last, c.end), clips + [c])
  {
    var more, n := clips + [c], |clips|;
    assert more[n] == c;
    if clips != [] {
      var i :| 0 <= i < n && clips[i].start == first;
      var j :| 0 <= j < n && clips[j].end == last;
      assert more[i] == clips[i] && more[j] == clips[j];
    }
  }

  /** The clips of an app, or of one of its windows if `id` is given. */
  function ClipsFor(records: seq<Record>, key: AppKey, id: Option<nat>, since: Time, now: Time): seq<Clip> {
    if records == [] then []
    else
      var r, clips := records[|records| - 1], ClipsFor(records[..|records| - 1], key, id, since, now);
      var c := ClipOf(r, since, now);
      if c.Some? && KeyOf(r.focusInfo.value) == key
         && (id.Some? ==> Titled(r.focusInfo.value) && r.focusInfo.value.windowId == id.value)
      then clips + [c.value] else clips
  }

  /** An app is seen from its first clip to its last, and so is each of its windows, which counts them. */
  lemma {:induction false} SeenIsExact(records: seq<Record>, since: Time, now: Time, key: AppKey, id: nat)
    ensures var apps := Accumulated(records, since, now);
            var clips, own := ClipsFor(records, key, None, since, now), ClipsFor(records, key, Some(id), since, now);
            && (key in apps <==> clips != [])
            && (key in apps ==> Spans(apps[key].firstSeen, apps[key].lastSeen, clips))
            && (key in apps && id in apps[key].windows <==> own != [])
            && (own != [] ==> var w := apps[key].windows[id]; Spans(w.firstSeen, w.lastSeen, own) && w.records == |own|)
  {
    if records != [] {
      var init, r := records[..|records| - 1], records[|records| - 1];
      SeenIsExact(init, since, now, key, id);
      var apps, c := Accumulated(init, since, now), ClipOf(r, since, now);
      if c.Some? && KeyOf(r.focusInfo.value) == key {
        var clips, own := ClipsFor(init, key, None, since, now), ClipsFor(init, key, Some(id), since, now);
        var seen := if key in apps then Seen(apps[key].firstSeen, apps[key].lastSeen) else Seen(0, 0);
        SpansMore(seen.first, seen.last, clips, c.value);
        var window := if key in apps && id in apps[key].windows
                      then Seen(apps[key].windows[id].firstSeen, apps[key].windows[id].lastSeen)
                      else Seen(0, 0);
        SpansMore(window.first, window.last, own, c.value);
      }
    }
  }

  /** Record `i` is the last that counts for the window. */
  predicate CountsLast(records: seq<Record>, i: nat, key: AppKey, id: nat, since: Time, now: Time) {
    && i < |records| && CountsForWindow(records[i], key, id, since, now) > 0
    && forall j :: i < j < |records| ==> CountsForWindow(records[j], key, id, since, now) == 0
  }

  /** A window has the title it had in the last record that counts for it, whatever it was called before: that
      is the title its group is chosen by. */
  lemma {:induction false} TitleIsTheLast(records: seq<Record>, i: nat, since: Time, now: Time, key: AppKey, id: nat)
    requires CountsLast(records, i, key, id, since, now)
    ensures var apps := Accumulated(records, since, now);
            && key in apps && id in apps[key].windows && apps[key].windows[id].windowId == id
            && records[i].focusInfo.Some? && apps[key].windows[id].title == records[i].focusInfo.value.windowTitle
    decreases |records|
  {
    var init, n := records[..|records| - 1], |records| - 1;
    if i < n {
      assert forall j :: 0 <= j < n ==> init[j] == records[j];
      TitleIsTheLast(init, i, since, now, key, id);
      assert CountsForWindow(records[n], key, id, since, now) == 0;
    }
  }

  /** Record `i` is the first that counts for the app. */
  predicate CountsFirst(records: seq<Record>, i: nat, key: AppKey, since: Time, now: Time) {
    && i < |records| && CountsFor(records[i], key, since, now) > 0
    && forall j :: 0 <= j < i ==> CountsFor(records[j], key, since, now) == 0
  }

  /** An app has the name and process of the first record that counts for it, whatever the later ones say. */
  lemma {:induction false} AppIsTheFirst(records: seq<Record>, i: nat, since: Time, now: Time, key: AppKey)
    requires CountsFirst(records, i, key, since, now)
    ensures var apps := Accumulated(records, since, now);
            && key in apps && records[i].focusInfo.Some?
            && var f, app := records[i].focusInfo.value, apps[key];
            && app.appName == f.appName && app.pid == f.pid && app.processStart == f.processStartTime
    decreases |records|
  {
    var init, n := records[..|records| - 1], |records| - 1;
    if i < n {
      assert forall j :: 0 <= j < n ==> init[j] == records[j];
      AppIsTheFirst(init, i, since, now, key);
    } else {
      assert forall j :: 0 <= j < n ==> init[j] == records[j];
      NotCountedYet(init, since, now, key);
    }
  }

  lemma {:induction false} NotCountedYet(records: seq<Record>, since: Time, now: Time, key: AppKey)
    requires forall j :: 0 <= j < |records| ==> CountsFor(records[j], key, since, now) == 0
    ensures key !in Accumulated(records, since, now)
  {
    if records != [] {
      NotCountedYet(records[..|records| - 1], since, now, key);
    }
  }

  // ---------- All apps together ----------

  /** All time that counts for any app. */
  function Counted(records: seq<Record>, since: Time, now: Time): nat {
    if records == [] then 0
    else
      var c := ClipOf(records[|records| - 1], since, now);
      Counted(records[..|records| - 1], since, now) + if c.Some? then c.value.duration else 0
  }

  lemma {:induction false} AppsAddUp(records: seq<Record>, since: Time, now: Time)
    ensures var apps := Accumulated(records, since, now);
            SumOver(apps.Keys, AppTotal(apps)) == Counted(records, since, now)
  {
    if records != [] {
      var init, r := records[..|records| - 1], records[|records| - 1];
      AppsAddUp(init, since, now);
      var before, c := Accumulated(init, since, now), ClipOf(r, since, now);
      if c.Some? {
        var after, key := AddToApps(before, r.focusInfo.value, c.value), KeyOf(r.focusInfo.value);
        assert after.Keys == before.Keys + {key};
        SumUpdate(before.Keys, AppTotal(before), AppTotal(after), key);
      }
    }
  }

  lemma {:induction false} SecondsAdd(a: int, b: int)
    requires a >= 0 && b >= 0
    ensures NumSeconds(a) + NumSeconds(b) <= NumSeconds(a + b)
  {
  }

  lemma {:induction false} ConsecutiveTime(records: seq<Record>, lo: Time, hi: Time, since: Time, now: Time)
    requires Consecutive(records, lo, hi)
    ensures Counted(records, since, now) <= if since <= hi then NumSeconds(hi - since) else 0
  {
    if records != [] {
      var init, r := records[..|records| - 1], records[|records| - 1];
      ConsecutiveTime(init, lo, r.startTime, since, now);
      if ClipOf(r, since, now).Some? {
        if since <= r.startTime {
          SecondsAdd(r.startTime - since, r.endTime.value - r.startTime);
          SecondsAdd(r.endTime.value - since, hi - r.endTime.value);
        } else {
          SecondsAdd(r.endTime.value - since, hi - r.endTime.value);
        }
      } else if since <= r.startTime {
        SecondsAdd(r.startTime - since, hi - r.startTime);
      }
    }
  }

  lemma {:induction false} FlushedAreConsecutive(b: Builder, hints: seq<TimedHint>, t0: Time, flushAt: Time)
    requires b.record == None && ClockOrder(t0, hints) && LastReading(t0, hints) <= flushAt
    ensures var (b', records) := Run(HintStep, b, hints);
            Consecutive(records + Closed(b', flushAt), t0, flushAt)
  {
    RecordsAreConsecutive(b, hints, t0);
    var (b', records) := Run(HintStep, b, hints);
    if b'.record.Some? {
      assert (records + Closed(b', flushAt))[..|records|] == records;
    } else {
      assert records + Closed(b', flushAt) == records;
      ConsecutiveWiden(records, t0, LastReading(t0, hints), flushAt);
    }
  }

  /** Across modules: the records that the builder makes of a stream of hints on a clock that does not run
      backwards, with the one flushed at the end, count for all apps together at most the seconds of
      the period. */
  lemma {:induction false} NoSecondCountsTwice(b: Builder, hints: seq<TimedHint>, t0: Time, flushAt: Time, since: Time,
                                               now: Time)
    requires b.record == None && ClockOrder(t0, hints) && LastReading(t0, hints) <= flushAt <= now && since <= now
    ensures var (b', records) := Run(HintStep, b, hints);
            var apps := Accumulated(records + Closed(b', flushAt), since, now);
            SumOver(apps.Keys, AppTotal(apps)) <= NumSeconds(now - since)
  {
    var (b', records) := Run(HintStep, b, hints);
    var all := records + Closed(b', flushAt);
    AppsAddUp(all, since, now);
    FlushedAreConsecutive(b, hints, t0, flushAt);
    ConsecutiveWiden(all, t0, flushAt, now);
    ConsecutiveTime(all, t0, now, since, now);
  }
}
