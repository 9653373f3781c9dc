/** The focus worker: reconciles racing app, window and poll events into reported focus changes. */
module FocusWorker {
  import opened Wrappers
  import opened Events
  import opened LruCache
  import opened FocusTitles

  const LOGINWINDOW_WINDOW_ID: nat := 0xFFFF_FFFF
  const LOGIN_SETTLE: nat := 50 * NANOS_PER_MILLI
  const APP_SETTLE: nat := 150 * NANOS_PER_MILLI
  const WINDOW_SETTLE: nat := 100 * NANOS_PER_MILLI

  /** A monotonic clock: every reading is at least the one before. */
  class Clock {
    var last: Time

    constructor (start: Time)
      ensures last == start
    {
      last := start;
    }

    method Now() returns (t: Time)
      modifies this
      ensures t == last && old(last) <= t
    {
      t :| last <= t by { assert last <= last; }
      last := t;
    }
  }

  /** What the system says about the active window. */
  datatype WindowInfo = WindowInfo(appName: string, title: string, pid: int, windowId: nat)

  /** What the worker's loop may get in one turn: a message, or the outcome of a poll. */
  datatype Input =
    | AppChange(pid: int, appName: string)
    | WindowChange(title: string)
    | AppChangeInfo(info: WindowInfo)
    | WindowChangeInfo(info: WindowInfo)
    | Polled(info: WindowInfo)
    | PollFailed(lockError: bool)
    | PollSuspended
    | Stop

  /** What the loop remembers besides the state it reports and its caches. */
  datatype Mode = Mode(pollLockActive: bool, coalesceUntil: Option<Time>, pendingTitle: Option<string>,
                       previousApp: Option<string>, awaitingPoll: bool, reconcileActive: bool,
                       scheduledEmitAt: Option<Time>)

  function LoginWindowId(app: string, id: nat): nat {
    if IsLoginWindow(app) && id == 0 then LOGINWINDOW_WINDOW_ID else id
  }

  /** What is reported of the current app when it is left: its pending title, if any, reconciled. */
  function Leaving(f: Focus, pending: Option<string>, previous: Option<string>, strong: map<string, string>,
                   weak: Entries, r: Readings): Focus {
    f.(windowTitle := if pending.None? then f.windowTitle
                      else Reconciled(f.appName, pending.value, previous, strong, weak, r).value,
       windowId := LoginWindowId(f.appName, f.windowId))
  }

  predicate Reportable(f: Focus, allowZeroWindowId: bool) {
    && f.appName != "" && f.windowTitle != "" && f.pid > 0 && f.processStartTime > 0
    && (allowZeroWindowId || f.windowId > 0)
  }

  /** The report that an app change still makes about the app that is left, if a deadline was armed. */
  function Flushed(f: Focus, armed: bool, pending: Option<string>, previous: Option<string>,
                   strong: map<string, string>, weak: Entries, r: Readings, allowZeroWindowId: bool): seq<Emission>
  {
    var leaving := Leaving(f, pending, previous, strong, weak, r);
    if armed && (pending.Some? || f.windowTitle != "") && Reportable(leaving, allowZeroWindowId)
    then [Emission(leaving, false)] else []
  }

  /** When an app with a title held back for it is left, the title is reported exactly if it survives, and the
      placeholder otherwise. */
  lemma {:induction false} FlushedExactly(f: Focus, pending: string, strong: map<string, string>, weak: Entries,
                                          r: Readings, allowZeroWindowId: bool)
    requires Keeps(weak, f.appName, pending) && !IsPlaceholder(pending)
    requires Reportable(f.(windowTitle := pending, windowId := LoginWindowId(f.appName, f.windowId)), allowZeroWindowId)
    ensures Flushed(f, true, Some(pending), Some(f.appName), strong, weak, r, allowZeroWindowId)
         == [Emission(f.(windowTitle := if Survives(f.appName, pending, strong, weak, r) then pending
                                        else UNKNOWN_WINDOW_TITLE,
                         windowId := LoginWindowId(f.appName, f.windowId)), false)]
  {
    HeldTitleIsFlushed(f.appName, pending, strong, weak, r);
  }

  /** The editor's first title, held back and flushed within the two seconds, with nothing else remembered. */
  lemma {:induction false} HeldTitleIsLost(held: Time, flushed: Time)
    requires held <= flushed <= held + WEAK_TTL
    ensures var f := Focus(7, 1, "editor", "", 0, held);
            var weak := map["editor" := Stamped(WindowTitle("doc", 0), held)];
            && JustRecorded("editor", "doc", 0, 8, weak, held)
            && Flushed(f, true, Some("doc"), Some("editor"), map[], weak, Readings(flushed, flushed, flushed), true)
               == [Emission(f.(windowTitle := UNKNOWN_WINDOW_TITLE), false)]
  {
    var weak := map["editor" := Stamped(WindowTitle("doc", 0), held)];
    var none: Entries := map[];
    assert none["editor" := Stamped(WindowTitle("doc", 0), held)] == weak;
    assert Recorded(none, "editor", "doc", 0, held, 8, weak);
    var f := Focus(7, 1, "editor", "", 0, held);
    FlushedExactly(f, "doc", map[], weak, Readings(flushed, flushed, flushed), true);
  }

  /** Every report of the worker's state is about an app with a name, a title, a process and a window. */
  predicate Complete(log: seq<Emission>, allowZeroWindowId: bool) {
    forall i :: 0 <= i < |log| && !log[i].synthesized ==>
      && log[i].focus.appName != "" && log[i].focus.windowTitle != ""
      && log[i].focus.pid > 0 && log[i].focus.processStartTime > 0
      && (log[i].focus.windowId > 0 || allowZeroWindowId)
  }

  lemma {:induction false} FlushedComplete(log: seq<Emission>, f: Focus, armed: bool, pending: Option<string>,
                                           previous: Option<string>, strong: map<string, string>, weak: Entries,
                                           r: Readings, allowZeroWindowId: bool)
    requires Complete(log, allowZeroWindowId)
    ensures Complete(log + Flushed(f, armed, pending, previous, strong, weak, r, allowZeroWindowId), allowZeroWindowId)
  {
    hide Leaving;
  }

  /** While reconciling, news about another app than the current one is ignored. */
  predicate Ignores(f: Focus, m: Mode, info: WindowInfo) {
    m.reconcileActive && !EqIgnoreAsciiCase(f.appName, info.appName) && f.appName != ""
  }

  /** News of a window that no app change, no lock and no poll awaited has announced. */
  predicate Unsolicited(input: Input, m: Mode) {
    input.WindowChange? || input.AppChangeInfo? || input.WindowChangeInfo?
    || (input.Polled? && !m.pollLockActive && !m.awaitingPoll)
  }

  /** At time `t` the window was remembered with another title than the polled one. */
  predicate PolledOtherwise(titles: map<nat, Stamped<string>>, ttl: Option<nat>, info: WindowInfo, t: Time) {
    Live(titles, ttl, info.windowId, t) && titles[info.windowId].value != info.title
  }

  /** After a lookup at time `t`, the polled title was remembered for the window at `at`. */
  ghost predicate Remembered(titles: map<nat, Stamped<string>>, ttl: Option<nat>, capacity: nat, info: WindowInfo,
                             t: Time, at: Time, after: map<nat, Stamped<string>>)
  {
    Evicted(AfterLookup(titles, ttl, info.windowId, t)[info.windowId := Stamped(info.title, at)], capacity, after)
  }

  /** The first `taken` inputs, none of them a stop, have been added to those handled before. */
  predicate Took(before: seq<Input>, inputs: seq<Input>, taken: nat, handled: seq<Input>) {
    && taken <= |inputs| && handled == before + inputs[..taken]
    && forall i :: 0 <= i < taken ==> !inputs[i].Stop?
  }

  lemma {:induction false} TookMore(before: seq<Input>, inputs: seq<Input>, taken: nat, handled: seq<Input>)
    requires Took(before, inputs, taken, handled) && taken < |inputs| && !inputs[taken].Stop?
    ensures Took(before, inputs, taken + 1, handled + [inputs[taken]])
  {
    assert inputs[..taken + 1] == inputs[..taken] + [inputs[taken]];
  }

  class FocusWorker {
    const coalesceMs: nat
    const allowZeroWindowId: bool
    const clock: Clock
    const strong: LruCache<string, WindowTitle>
    const weak: LruCache<string, WindowTitle>
    const lastTitles: LruCache<nat, string>
    const pids: LruCache<int, nat>
    var state: Focus
    var mode: Mode
    var emitted: seq<Emission>
    ghost var audit: seq<map<string, string>>
    /** The inputs taken so far. */
    ghost var handled: seq<Input>
    /** A polled title has been taken over since a title was held back. */
    ghost var overtaken: bool

    // ---------- Invariants ----------

    ghost predicate Caches()
      reads strong, weak, lastTitles, pids
    {
      && strong.Valid() && strong.ttl == None && strong != weak
      && weak.Valid() && weak.ttl == Some(WEAK_TTL)
      && lastTitles.Valid() && pids.Valid() && pids.ttl == None
    }

    ghost predicate Attributed()
      reads this, strong
    {
      Attribution(state.appName, state.windowTitle, emitted, audit, TitlesOf(strong.entries), strong.capacity)
    }

    ghost predicate Valid()
      reads this, strong, weak, lastTitles, pids
    {
      Caches() && Attributed() && (mode.pendingTitle.Some? ==> mode.coalesceUntil.Some?)
    }

    /** At the head of the loop an armed deadline means that the worker is reconciling. */
    ghost predicate AtHead()
      reads this, strong, weak, lastTitles, pids
    {
      Valid() && (mode.coalesceUntil.Some? ==> mode.reconcileActive)
    }

    /** After a message this may fail, but only for a deadline that has passed already. */
    ghost predicate Handled()
      reads this, strong, weak, lastTitles, pids, clock
    {
      Valid() && (mode.coalesceUntil.Some? ==> mode.reconcileActive || mode.coalesceUntil.value <= clock.last)
    }

    /** While a title is held back, the weak cache has it for the current app, or nothing. */
    ghost predicate HoldsPending()
      reads this, weak
    {
      mode.pendingTitle.Some? && !overtaken ==> Keeps(weak.entries, state.appName, mode.pendingTitle.value)
    }

    /** After a message this may fail, but only for a deadline that has passed already. */
    ghost predicate HeldUntilDeadline()
      reads this, weak, clock
    {
      mode.coalesceUntil.Some? && clock.last < mode.coalesceUntil.value ==> HoldsPending()
    }

    constructor (capacity: nat, pidCapacity: nat, titleTtl: nat, coalesceMs: nat, allowZeroWindowId: bool, start: Time)
      ensures AtHead() && HoldsPending() && emitted == [] && handled == []
      ensures state.appName == "" && state.windowTitle == ""
      ensures fresh(clock) && fresh(strong) && fresh(weak) && fresh(lastTitles) && fresh(pids)
      ensures this.coalesceMs == coalesceMs && this.allowZeroWindowId == allowZeroWindowId
      ensures strong.capacity == if capacity == 0 then 1 else capacity
    {
      this.coalesceMs, this.allowZeroWindowId := coalesceMs, allowZeroWindowId;
      clock := new Clock(start);
      strong := new LruCache(capacity, None);
      weak := new LruCache(capacity, Some(WEAK_TTL));
      lastTitles := new LruCache(capacity, if titleTtl > 0 then Some(titleTtl * NANOS_PER_SECOND) else None);
      pids := new LruCache(pidCapacity, None);
      var wall: Time := *;
      state := Focus(0, 0, "", "", 0, wall);
      mode := Mode(false, None, None, None, false, false, None);
      emitted, audit, handled, overtaken := [], [], [], false;
    }

    // ---------- Title caches ----------

    method StrongMatchesApp(app: string, title: string) returns (found: bool)
      requires Caches()
      modifies strong, clock
      ensures Caches() && old(clock.last) <= clock.last
      ensures TitlesOf(strong.entries) == old(TitlesOf(strong.entries))
      ensures found <==> Knows(TitlesOf(strong.entries), app, title)
    {
      var now := clock.Now();
      var hit := strong.GetCloned(app, now);
      found := hit.Some? && hit.value.text == title;
    }

    method StrongMatchesOtherApp(title: string) returns (found: bool)
      requires Caches()
      modifies strong, clock
      ensures Caches() && old(clock.last) <= clock.last
      ensures TitlesOf(strong.entries) == old(TitlesOf(strong.entries))
      ensures found <==> KnowsElsewhere(TitlesOf(strong.entries), state.appName, title)
    {
      var now := clock.Now();
      var app := state.appName;
      ghost var before := strong.entries;
      found := strong.AnyEntryMatches((key: string, cached: WindowTitle) => key != app && cached.text == title, now);
      if found {
        ghost var k :| Live(before, strong.ttl, k, now) && k != app && before[k].value.text == title;
        assert Knows(TitlesOf(before), k, title);
      } else {
        assert forall k :: k in before ==> Live(before, strong.ttl, k, now);
      }
    }

    method WeakMatchesApp(app: string, title: string) returns (found: bool, ghost t: Time)
      requires Caches()
      modifies weak, clock
      ensures Caches() && old(clock.last) <= t == clock.last
      ensures found <==> Names(old(weak.entries), app, title, t)
      ensures weak.entries == AfterLookup(old(weak.entries), weak.ttl, app, t)
    {
      var now := clock.Now();
      t := now;
      var hit := weak.GetCloned(app, now);
      found := hit.Some? && hit.value.text == title;
    }

    method WeakMatchesOtherApp(title: string) returns (found: bool, ghost t: Time)
      requires Caches()
      modifies weak, clock
      ensures Caches() && old(clock.last) <= t == clock.last
      ensures found <==> NamesElsewhere(old(weak.entries), state.appName, title, t)
      ensures found ==> weak.entries == old(weak.entries)
      ensures !found ==> weak.entries == Purged(old(weak.entries), t)
    {
      var now := clock.Now();
      t := now;
      var app := state.appName;
      ghost var before := weak.entries;
      found := weak.AnyEntryMatches((key: string, cached: WindowTitle) => key != app && cached.text == title, now);
      if found {
        ghost var k :| Live(before, weak.ttl, k, now) && k != app && before[k].value.text == title;
        assert Names(before, k, title, now);
      } else {
        assert forall k :: Live(before, weak.ttl, k, now) ==> !(k != app && before[k].value.text == title);
      }
    }

    method RecordWeakTitle(title: string, id: nat)
      requires Caches()
      modifies weak, clock
      ensures Caches() && old(clock.last) <= clock.last
      ensures if state.appName != "" && !IsPlaceholder(title)
              then Evicted(old(weak.entries)[state.appName := Stamped(WindowTitle(title, id), clock.last)],
                           weak.capacity, weak.entries)
              else weak.entries == old(weak.entries)
    {
      if state.appName != "" && title != "" && title != UNKNOWN_WINDOW_TITLE {
        var now := clock.Now();
        weak.Put(state.appName, WindowTitle(title, id), now);
      }
    }

    method ValidateTitleWithWeak(title: string) returns (validated: string, ghost t: Time)
      requires Caches()
      modifies strong, weak, clock
      ensures Caches() && old(clock.last) <= t <= clock.last
      ensures TitlesOf(strong.entries) == old(TitlesOf(strong.entries))
      ensures validated == Validated(state.appName, title, TitlesOf(strong.entries), old(weak.entries), t)
      ensures Unclaimed(state.appName, title, TitlesOf(strong.entries), old(weak.entries), t) ==>
                NoOtherHas(weak.entries, state.appName, title)
    {
      hide LruCache.Valid;
      t := clock.last;
      if title == "" || title == UNKNOWN_WINDOW_TITLE {
        return title, t;
      }
      var known := StrongMatchesApp(state.appName, title);
      if known {
        return title, t;
      }
      var taken := StrongMatchesOtherApp(title);
      if taken {
        return UNKNOWN_WINDOW_TITLE, t;
      }
      ghost var before := weak.entries;
      var takenWeakly, t' := WeakMatchesOtherApp(title);
      t := t';
      if takenWeakly {
        return UNKNOWN_WINDOW_TITLE, t;
      }
      PurgedNamesNoOther(before, state.appName, title, t);
      var _, _ := WeakMatchesApp(state.appName, title);
      return title, t;
    }

    /** Whether the previous app is known by the pending title. */
    method MatchesPreviousApp(pending: string) returns (found: bool, ghost t: Time)
      requires Caches()
      modifies strong, weak, clock
      ensures Caches() && old(clock.last) <= t <= clock.last
      ensures TitlesOf(strong.entries) == old(TitlesOf(strong.entries))
      ensures found <==> && mode.previousApp.Some?
                         && (|| Knows(TitlesOf(strong.entries), mode.previousApp.value, pending)
                             || Names(old(weak.entries), mode.previousApp.value, pending, t))
      ensures !found ==> forall app, later :: clock.last <= later ==>
                           (Names(weak.entries, app, pending, later) <==> Names(old(weak.entries), app, pending, later))
    {
      found, t := false, clock.last;
      if mode.previousApp.Some? {
        found := StrongMatchesApp(mode.previousApp.value, pending);
        if !found {
          ghost var before := weak.entries;
          found, t := WeakMatchesApp(mode.previousApp.value, pending);
          if !found {
            forall later | t <= later { LookupInVain(before, mode.previousApp.value, pending, t, later); }
          }
        }
      }
    }

    method ReconcileWindowTitle(pending: string) returns (decision: Decision, ghost r: Readings)
      requires Caches()
      modifies strong, weak, clock
      ensures Caches() && old(clock.last) <= r.previous <= r.others <= r.own <= clock.last
      ensures TitlesOf(strong.entries) == old(TitlesOf(strong.entries))
      ensures decision == Reconciled(state.appName, pending, mode.previousApp, TitlesOf(strong.entries),
                                     old(weak.entries), r)
      ensures decision.Hold? ==> NoOtherHas(weak.entries, state.appName, pending)
    {
      r := Readings(clock.last, clock.last, clock.last);
      if IsLoginWindow(state.appName) && pending == LOGIN_TITLE {
        return Accept(pending, Pending), r;
      }
      var previous, t := MatchesPreviousApp(pending);
      r := Readings(t, clock.last, clock.last);
      if previous {
        return Accept(UNKNOWN_WINDOW_TITLE, Cached), r;
      }
      var d, others, own := ReconcileWithApps(pending);
      r := Readings(t, others, own);
      return d, r;
    }

    /** The part of the decision that does not depend on the previous app. */
    method ReconcileWithApps(pending: string) returns (decision: Decision, ghost others: Time, ghost own: Time)
      requires Caches() && !(IsLoginWindow(state.appName) && pending == LOGIN_TITLE)
      modifies strong, weak, clock
      ensures Caches() && old(clock.last) <= others <= own <= clock.last
      ensures TitlesOf(strong.entries) == old(TitlesOf(strong.entries))
      ensures decision == Reconciled(state.appName, pending, None, TitlesOf(strong.entries), old(weak.entries),
                                     Readings(others, others, own))
      ensures decision.Hold? ==> NoOtherHas(weak.entries, state.appName, pending)
    {
      hide LruCache.Valid;
      others, own := clock.last, clock.last;
      var known := StrongMatchesApp(state.appName, pending);
      if known {
        return Accept(pending, Pending), others, own;
      }
      var taken := StrongMatchesOtherApp(pending);
      if taken {
        return Accept(UNKNOWN_WINDOW_TITLE, Cached), others, own;
      }
      ghost var before := weak.entries;
      var takenWeakly, t := WeakMatchesOtherApp(pending);
      others, own := t, t;
      if takenWeakly {
        return Accept(UNKNOWN_WINDOW_TITLE, Cached), others, own;
      }
      var knownWeakly, t' := WeakMatchesApp(state.appName, pending);
      own := t';
      PurgedNames(before, pending, others, own);
      PurgedNamesNoOther(before, state.appName, pending, others);
      return if knownWeakly then Accept(pending, Pending) else Hold(pending), others, own;
    }

    // ---------- Reporting ----------

    /** The start time of a process, as remembered or as the system tells, or 0. */
    method GetProcessStartTime(p: int) returns (start: nat)
      requires pids.Valid() && pids.ttl == None
      modifies pids, clock
      ensures pids.Valid() && old(clock.last) <= clock.last
      ensures p in old(pids.entries) ==> start == old(pids.entries)[p].value
    {
      var now := clock.Now();
      var cached := pids.GetCloned(p, now);
      if cached.Some? {
        return cached.value;
      }
      var running: Option<nat> := *;
      if running.Some? {
        now := clock.Now();
        pids.Put(p, running.value, now);
        return running.value;
      }
      return 0;
    }

    /** The same, but the wall clock stands in for an unknown start time. */
    method FindProcessStart(p: int) returns (start: nat)
      requires pids.Valid() && pids.ttl == None
      modifies pids, clock
      ensures pids.Valid() && old(clock.last) <= clock.last
      ensures p in old(pids.entries) && old(pids.entries)[p].value != 0 ==> start == old(pids.entries)[p].value
    {
      start := GetProcessStartTime(p);
      if start == 0 {
        var wall: Time := *;
        start := UnixMillis(wall);
      }
    }

    method RecordLastAppWindow()
      requires Caches()
      modifies strong, clock
      ensures Caches() && old(clock.last) <= clock.last
      ensures if state.appName != "" && !IsPlaceholder(state.windowTitle)
              then Evicted(old(strong.entries)[state.appName := Stamped(WindowTitle(state.windowTitle, state.windowId),
                                                                        clock.last)], strong.capacity, strong.entries)
              else strong.entries == old(strong.entries)
    {
      if state.appName != "" && state.windowTitle != "" && state.windowTitle != UNKNOWN_WINDOW_TITLE {
        var now := clock.Now();
        strong.Put(state.appName, WindowTitle(state.windowTitle, state.windowId), now);
      }
    }

    /** Reports the current state, and remembers its title. */
    method Emit()
      requires Caches() && Attributed() && Reportable(state, allowZeroWindowId)
      modifies this`emitted, this`audit, strong, clock
      ensures Caches() && Attributed() && old(clock.last) <= clock.last
      ensures emitted == old(emitted) + [Emission(state, false)]
      ensures if state.windowTitle == UNKNOWN_WINDOW_TITLE then strong.entries == old(strong.entries)
              else Evicted(old(strong.entries)[state.appName := Stamped(WindowTitle(state.windowTitle, state.windowId),
                                                                        clock.last)], strong.capacity, strong.entries)
    {
      ghost var before := strong.entries;
      emitted := emitted + [Emission(state, false)];
      audit := audit + [TitlesOf(before)];
      RecordLastAppWindow();
      ReportKept(Emission(state, false), old(emitted), old(audit), before, strong.capacity,
                 Stamped(WindowTitle(state.windowTitle, state.windowId), clock.last), strong.entries);
    }

    /** Takes a title over from the system: remembered weakly, then checked against both caches. */
    method AdoptTitle(title: string, id: nat) returns (adopted: string, ghost t: Time)
      requires Caches() && Unshared(TitlesOf(strong.entries))
      modifies strong, weak, clock
      ensures Caches() && old(clock.last) <= t <= clock.last
      ensures TitlesOf(strong.entries) == old(TitlesOf(strong.entries))
      ensures Vetted(state.appName, title, id, adopted, TitlesOf(strong.entries), old(weak.entries), weak.capacity, t)
      ensures adopted in {title, UNKNOWN_WINDOW_TITLE}
      ensures Justified(state.appName, title, adopted, TitlesOf(strong.entries), old(weak.entries), weak.entries, t)
      ensures Owns(state.appName, adopted, TitlesOf(strong.entries))
    {
      hide Justified, Unclaimed, LruCache.Valid, Unshared, Owns;
      RecordWeakTitle(title, id);
      ghost var at, recorded := clock.last, weak.entries;
      assert Recorded(old(weak.entries), state.appName, title, id, at, weak.capacity, recorded);
      adopted, t := ValidateTitleWithWeak(title);
      ValidatedIsOwned(state.appName, title, TitlesOf(strong.entries), recorded, t);
      ValidatedIsJustified(state.appName, title, id, TitlesOf(strong.entries), old(weak.entries), recorded,
                           weak.capacity, at, weak.entries, t);
    }

    // ---------- Messages ----------

    /** The title to report when the current app is left. */
    method LeavingTitle() returns (title: string, ghost r: Readings)
      requires Valid()
      modifies strong, weak, clock
      ensures Valid() && old(clock.last) <= r.previous <= r.others <= r.own <= clock.last
      ensures title == Leaving(state, mode.pendingTitle, mode.previousApp, TitlesOf(strong.entries), old(weak.entries),
                               r).windowTitle
      ensures TitlesOf(strong.entries) == old(TitlesOf(strong.entries))
              && Owns(state.appName, title, TitlesOf(strong.entries))
    {
      r := Readings(clock.last, clock.last, clock.last);
      title := state.windowTitle;
      if mode.pendingTitle.Some? {
        var decision, r' := ReconcileWindowTitle(mode.pendingTitle.value);
        r := r';
        title := decision.value;
        ReconciledIsOwned(state.appName, mode.pendingTitle.value, mode.previousApp, TitlesOf(strong.entries),
                          old(weak.entries), r);
      }
    }

    method FlushBeforeAppChange() returns (ghost r: Readings)
      requires Valid() && mode.coalesceUntil.Some?
      modifies this`state, this`mode, this`emitted, this`audit, strong, weak, clock
      ensures Valid() && old(clock.last) <= clock.last && mode == old(mode).(pendingTitle := None)
      ensures old(clock.last) <= r.previous <= r.others <= r.own <= clock.last
      ensures emitted == old(emitted)
                         + Flushed(old(state), true, old(mode).pendingTitle, old(mode).previousApp,
                                   old(TitlesOf(strong.entries)), old(weak.entries), r, allowZeroWindowId)
    {
      if mode.pendingTitle.Some? || state.windowTitle != "" {
        var title, r' := LeavingTitle();
        r := r';
        mode := mode.(pendingTitle := None);
        state := state.(windowTitle := title, windowId := LoginWindowId(state.appName, state.windowId));
        if Reportable(state, allowZeroWindowId) {
          Emit();
        }
      } else {
        r := Readings(clock.last, clock.last, clock.last);
      }
    }

    /** Starts afresh with the new app, and waits for news about its window. */
    method EnterApp(newPid: int, newApp: string) returns (ghost t0: Time, ghost t: Time)
      requires pids.Valid() && pids.ttl == None
      modifies this`state, this`mode, pids, clock
      ensures pids.Valid() && old(clock.last) <= t0 <= t == clock.last
      ensures state == Focus(newPid, state.processStartTime, newApp, "", LoginWindowId(newApp, 0), state.instanceStart)
      ensures mode == Mode(old(mode).pollLockActive && IsLoginWindow(newApp),
                           if coalesceMs > 0 then Some(t0 + coalesceMs * NANOS_PER_MILLI) else None,
                           None, old(mode).previousApp, true, true,
                           Some(t + if IsLoginWindow(newApp) then LOGIN_SETTLE else APP_SETTLE))
    {
      var isLogin, m := IsLoginWindow(newApp), mode;
      if !isLogin {
        m := m.(pollLockActive := false);
      }
      var now := clock.Now();
      t0 := now;
      m := m.(coalesceUntil := if coalesceMs > 0 then Some(now + coalesceMs * NANOS_PER_MILLI) else None);
      m := m.(pendingTitle := None, reconcileActive := true);
      var start := FindProcessStart(newPid);
      var wall: Time := *;
      state := Focus(newPid, start, newApp, "", if isLogin then LOGINWINDOW_WINDOW_ID else 0, wall);
      now := clock.Now();
      t := now;
      mode := m.(awaitingPoll := true, scheduledEmitAt := Some(now + if isLogin then LOGIN_SETTLE else APP_SETTLE));
    }

    /** The app being left becomes the previous one, and is reported once more if a deadline was armed. */
    method LeaveApp() returns (ghost r: Readings)
      requires AtHead()
      modifies this`state, this`mode, this`emitted, this`audit, strong, weak, clock
      ensures Valid() && old(clock.last) <= clock.last
      ensures var previous := if old(state).appName == "" then None else Some(old(state).appName);
              && emitted == old(emitted)
                 + Flushed(old(state), old(mode).coalesceUntil.Some?, old(mode).pendingTitle, previous,
                           old(TitlesOf(strong.entries)), old(weak.entries), r, allowZeroWindowId)
              && mode == old(mode).(previousApp := previous, pendingTitle := None)
    {
      r := Readings(clock.last, clock.last, clock.last);
      mode := mode.(previousApp := if state.appName != "" then Some(state.appName) else None);
      if mode.coalesceUntil.Some? {
        r := FlushBeforeAppChange();
      }
    }

    method ChangeApp(newPid: int, newApp: string) returns (ghost r: Readings, ghost t0: Time, ghost t: Time)
      requires AtHead()
      modifies this`state, this`mode, this`emitted, this`audit, strong, weak, pids, clock
      ensures AtHead() && old(clock.last) <= t0 <= t <= clock.last
      ensures var previous := if old(state).appName == "" then None else Some(old(state).appName);
              && emitted == old(emitted)
                 + Flushed(old(state), old(mode).coalesceUntil.Some?, old(mode).pendingTitle, previous,
                           old(TitlesOf(strong.entries)), old(weak.entries), r, allowZeroWindowId)
              && state == Focus(newPid, state.processStartTime, newApp, "", LoginWindowId(newApp, 0),
                                state.instanceStart)
              && mode == Mode(old(mode).pollLockActive && IsLoginWindow(newApp),
                              if coalesceMs > 0 then Some(t0 + coalesceMs * NANOS_PER_MILLI) else None,
                              None, previous, true, true,
                              Some(t + if IsLoginWindow(newApp) then LOGIN_SETTLE else APP_SETTLE))
    {
      r := LeaveApp();
      t0, t := EnterApp(newPid, newApp);
    }

    /** Nothing happens if the app is the current one already. */
    method HandleAppChange(newPid: int, newApp: string)
      requires AtHead()
      modifies this`state, this`mode, this`emitted, this`audit, strong, weak, pids, clock
      ensures AtHead() && old(clock.last) <= clock.last
      ensures old(state).appName == newApp && old(state).pid == newPid ==>
                && state == old(state) && mode == old(mode) && emitted == old(emitted)
                && strong.entries == old(strong.entries) && weak.entries == old(weak.entries)
      ensures !(old(state).appName == newApp && old(state).pid == newPid) ==>
                && state == Focus(newPid, state.processStartTime, newApp, "", LoginWindowId(newApp, 0),
                                  state.instanceStart)
                && mode == Mode(old(mode).pollLockActive && IsLoginWindow(newApp), mode.coalesceUntil, None,
                                if old(state).appName == "" then None else Some(old(state).appName), true, true,
                                mode.scheduledEmitAt)
                && (mode.coalesceUntil.Some? <==> coalesceMs > 0) && mode.scheduledEmitAt.Some?
      ensures old(emitted) <= emitted && |emitted| <= |old(emitted)| + 1
      ensures old(Complete(emitted, allowZeroWindowId)) ==> Complete(emitted, allowZeroWindowId)
    {
      if state.appName == newApp && state.pid == newPid {
        return;
      }
      ghost var f, armed, strong0, weak0 := state, mode.coalesceUntil.Some?, TitlesOf(strong.entries), weak.entries;
      ghost var log, pending, previous := emitted, mode.pendingTitle, if state.appName == "" then None
                                                                      else Some(state.appName);
      ghost var r, _, _ := ChangeApp(newPid, newApp);
      if Complete(log, allowZeroWindowId) {
        FlushedComplete(log, f, armed, pending, previous, strong0, weak0, r, allowZeroWindowId);
      }
    }

    predicate IsComplete(f: Focus) {
      f.appName != "" && f.windowTitle != "" && f.pid > 0 && f.windowId > 0 && f.processStartTime > 0
    }

    /** Sets the title, and reports it after `delay` if the state is complete. */
    method ApplyTitle(title: string, id: nat, delay: nat)
      modifies this`state, this`mode, clock
      ensures old(clock.last) <= clock.last
      ensures state == old(state).(windowTitle := title, windowId := LoginWindowId(old(state).appName, id))
      ensures mode == if IsComplete(state) then old(mode).(scheduledEmitAt := Some(clock.last + delay)) else old(mode)
    {
      state := state.(windowTitle := title, windowId := LoginWindowId(state.appName, id));
      if IsComplete(state) {
        var now := clock.Now();
        mode := mode.(scheduledEmitAt := Some(now + delay));
      }
    }

    /** A new title while no app change is being reconciled. */
    method SettledWindowChange(title: string) returns (ghost t: Time)
      requires AtHead() && !mode.reconcileActive && title != "" && title != state.windowTitle
      modifies this`state, this`mode, strong, weak, clock
      ensures AtHead() && old(clock.last) <= t <= clock.last
      ensures Vetted(old(state).appName, title, old(state).windowId, state.windowTitle, TitlesOf(strong.entries),
                     old(weak.entries), weak.capacity, t)
      ensures Fair(old(state).appName, title, state.windowTitle, TitlesOf(strong.entries),
                   old(weak.entries), weak.entries, old(clock.last), clock.last)
      ensures state.windowTitle in {title, UNKNOWN_WINDOW_TITLE}
      ensures state == old(state).(windowTitle := state.windowTitle,
                                   windowId := LoginWindowId(old(state).appName, old(state).windowId))
      ensures mode == if IsComplete(state) then old(mode).(scheduledEmitAt := Some(clock.last + WINDOW_SETTLE))
                      else old(mode)
    {
      var adopted, t' := AdoptTitle(title, state.windowId);
      t := t';
      ApplyTitle(adopted, state.windowId, WINDOW_SETTLE);
    }

    /** The title to show for `title`: the one reconciling decided on, but not yet if that is open and
        there is a deadline to wait for. */
    method DecideTitle(title: string, mayWait: bool)
      returns (value: Option<string>, ghost decision: Decision, ghost r: Readings)
      requires Caches() && Unshared(TitlesOf(strong.entries))
      modifies strong, weak, clock
      ensures Caches() && TitlesOf(strong.entries) == old(TitlesOf(strong.entries))
      ensures old(clock.last) <= r.previous <= r.others <= r.own <= clock.last
      ensures value.Some? ==> Owns(state.appName, value.value, TitlesOf(strong.entries))
      ensures decision == Reconciled(state.appName, title, mode.previousApp, TitlesOf(strong.entries),
                                     old(weak.entries), r)
      ensures value == if decision.Hold? && mayWait then None else Some(decision.value)
      ensures value == None && state.appName != "" && !IsPlaceholder(title) ==>
                JustRecorded(state.appName, title, state.windowId, weak.capacity, weak.entries, clock.last)
    {
      var d, r' := ReconcileWindowTitle(title);
      decision, r := d, r';
      ReconciledIsOwned(state.appName, title, mode.previousApp, TitlesOf(strong.entries), old(weak.entries), r);
      if d.Hold? && !mayWait {
        ghost var held := weak.entries;
        var adopted, t := AdoptTitle(d.value, state.windowId);
        HeldIsKept(state.appName, title, state.windowId, adopted, TitlesOf(strong.entries), held, weak.capacity, t);
        value := Some(adopted);
      } else {
        ghost var before := weak.entries;
        RecordWeakTitle(d.value, state.windowId);
        assert Recorded(before, state.appName, d.value, state.windowId, clock.last, weak.capacity, weak.entries);
        value := if d.Accept? then Some(d.value) else None;
      }
    }

    /** Shows a title that reconciling has decided on. */
    method ShowReconciled(title: string)
      requires Valid() && Owns(state.appName, title, TitlesOf(strong.entries))
      requires mode.coalesceUntil.Some? ==> mode.coalesceUntil.value <= clock.last
      modifies this`state, this`mode, clock
      ensures Handled() && old(clock.last) <= clock.last
      ensures state == old(state).(windowTitle := title,
                                   windowId := LoginWindowId(old(state).appName, old(state).windowId))
      ensures mode == old(mode).(reconcileActive := false,
                                 scheduledEmitAt := if IsComplete(state) then Some(clock.last + WINDOW_SETTLE)
                                                    else old(mode).scheduledEmitAt)
    {
      mode := mode.(reconcileActive := false);
      ApplyTitle(title, state.windowId, WINDOW_SETTLE);
    }

    /** A new title while an app change is being reconciled, but with no deadline left to wait for. */
    method ReconciledWindowChange(title: string) returns (held: bool, ghost decision: Decision, ghost r: Readings)
      requires AtHead() && mode.reconcileActive && (mode.coalesceUntil.Some? ==> mode.coalesceUntil.value <= clock.last)
      modifies this`state, this`mode, strong, weak, clock
      ensures Handled() && old(clock.last) <= r.previous <= r.others <= r.own <= clock.last
      ensures decision == Reconciled(old(state).appName, title, old(mode).previousApp, old(TitlesOf(strong.entries)),
                                     old(weak.entries), r)
      ensures held == (decision.Hold? && old(mode).coalesceUntil.Some?)
      ensures held ==> state == old(state) && mode == old(mode).(pendingTitle := Some(title))
      ensures held && state.appName != "" && !IsPlaceholder(title) ==>
                JustRecorded(state.appName, title, state.windowId, weak.capacity, weak.entries, clock.last)
      ensures !held ==> mode == old(mode).(reconcileActive := false, scheduledEmitAt := mode.scheduledEmitAt)
      ensures !held ==> mode.scheduledEmitAt == if IsComplete(state) then Some(clock.last + WINDOW_SETTLE)
                                                else old(mode).scheduledEmitAt
      ensures !held ==> state
                        == old(state).(windowTitle := state.windowTitle,
                                       windowId := LoginWindowId(old(state).appName, old(state).windowId))
      ensures !held ==> state.windowTitle == decision.value
    {
      hide Vetted, JustRecorded, LruCache.Valid, Faithful, SafeLog;
      var value, d, r' := DecideTitle(title, mode.coalesceUntil.Some?);
      decision, r := d, r';
      held := value.None?;
      if held {
        mode := mode.(pendingTitle := Some(title));
      } else {
        ShowReconciled(value.value);
      }
    }

    /** A title that comes before the deadline is held back until then. */
    method HoldBack(title: string)
      requires AtHead() && mode.coalesceUntil.Some?
      modifies this`mode, this`overtaken, weak, clock
      ensures AtHead() && old(clock.last) <= clock.last
      ensures mode == old(mode).(pendingTitle := Some(title)) && !overtaken
      ensures state.appName != "" && !IsPlaceholder(title) ==>
                JustRecorded(state.appName, title, state.windowId, weak.capacity, weak.entries, clock.last)
    {
      RecordWeakTitle(title, state.windowId);
      assert Recorded(old(weak.entries), state.appName, title, state.windowId, clock.last, weak.capacity, weak.entries);
      mode := mode.(pendingTitle := Some(title));
      overtaken := false;
    }

    /** Held back, a title waits for the deadline; otherwise it is shown, or the placeholder for it. */
    method HandleWindowChange(title: string) returns (held: bool)
      requires AtHead()
      modifies this`state, this`mode, this`overtaken, strong, weak, clock
      ensures Handled() && old(clock.last) <= clock.last && (held ==> AtHead())
      ensures held ==> state == old(state) && mode == old(mode).(pendingTitle := Some(title))
                       && mode.coalesceUntil.Some?
      ensures held && state.appName != "" && !IsPlaceholder(title) ==>
                JustRecorded(state.appName, title, state.windowId, weak.capacity, weak.entries, clock.last)
      ensures overtaken == (!held && old(overtaken))
      ensures title == "" || title == old(state).windowTitle ==>
                !held && state == old(state) && mode == old(mode) && weak.entries == old(weak.entries)
      ensures title != "" && mode.coalesceUntil.Some? && clock.last < mode.coalesceUntil.value
              ==> held || title == old(state).windowTitle
      ensures !held && title != "" && title != old(state).windowTitle ==>
                && state == old(state).(windowTitle := state.windowTitle,
                                        windowId := LoginWindowId(old(state).appName, old(state).windowId))
                && state.windowTitle in {title, UNKNOWN_WINDOW_TITLE}
                && mode == old(mode).(reconcileActive := false,
                                      scheduledEmitAt := if IsComplete(state) then Some(clock.last + WINDOW_SETTLE)
                                                         else old(mode).scheduledEmitAt)
    {
      hide JustRecorded, Vetted, Attribution, Caches;
      held := false;
      if title == "" || title == state.windowTitle {
        return;
      }
      if mode.reconcileActive {
        if mode.coalesceUntil.Some? {
          var now := clock.Now();
          if now < mode.coalesceUntil.value {
            HoldBack(title);
            return true;
          }
        }
        ghost var decision: Decision, r: Readings;
        held, decision, r := ReconciledWindowChange(title);
        overtaken := !held && overtaken;
      } else {
        var _ := SettledWindowChange(title);
      }
    }

    method HandleAppChangeInfo(info: WindowInfo) returns (ignored: bool, ghost t: Time)
      requires AtHead()
      modifies this`state, this`mode, strong, weak, pids, clock
      ensures AtHead() && old(clock.last) <= t <= clock.last
      ensures ignored == Ignores(old(state), old(mode), info)
      ensures ignored ==> state == old(state) && mode == old(mode) && weak.entries == old(weak.entries)
      ensures !ignored ==>
                && Vetted(info.appName, info.title, info.windowId, state.windowTitle, TitlesOf(strong.entries),
                          old(weak.entries), weak.capacity, t)
                && Fair(info.appName, info.title, state.windowTitle, TitlesOf(strong.entries),
                        old(weak.entries), weak.entries, old(clock.last), clock.last)
                && state.windowTitle in {info.title, UNKNOWN_WINDOW_TITLE}
                && state == Focus(info.pid, state.processStartTime, info.appName, state.windowTitle,
                                  LoginWindowId(info.appName, info.windowId), state.instanceStart)
                && mode == Mode(old(mode).pollLockActive && IsLoginWindow(info.appName),
                                None, None, old(mode).previousApp, false, false,
                                if IsComplete(state) then Some(clock.last) else old(mode).scheduledEmitAt)
    {
      hide Vetted, Unshared, Owns, Faithful, SafeLog, LruCache.Valid, Justified;
      t := clock.last;
      ignored := Ignores(state, mode, info);
      if ignored {
        return;
      }
      mode := mode.(coalesceUntil := None, pendingTitle := None,
                    pollLockActive := mode.pollLockActive && IsLoginWindow(info.appName));
      var start := FindProcessStart(info.pid);
      var wall: Time := *;
      state := state.(appName := info.appName, pid := info.pid, processStartTime := start, instanceStart := wall);
      var adopted, t' := AdoptTitle(info.title, info.windowId);
      t := t';
      mode := mode.(awaitingPoll := false, reconcileActive := false);
      ApplyTitle(adopted, info.windowId, 0);
    }

    /** The process is looked up again, and the app replaced, only if the process is another one. */
    method FollowProcess(info: WindowInfo)
      requires pids.Valid() && pids.ttl == None
      modifies this`state, this`mode, pids, clock
      ensures pids.Valid() && old(clock.last) <= clock.last
      ensures state == if old(state).pid == info.pid then old(state)
                       else old(state).(appName := info.appName, pid := info.pid,
                                        processStartTime := state.processStartTime)
      ensures mode == if old(state).pid != info.pid && !IsLoginWindow(info.appName)
                      then old(mode).(pollLockActive := false) else old(mode)
    {
      if state.pid != info.pid {
        var start := FindProcessStart(info.pid);
        state := state.(appName := info.appName, pid := info.pid, processStartTime := start);
        if !IsLoginWindow(info.appName) {
          mode := mode.(pollLockActive := false);
        }
      }
    }

    method HandleWindowChangeInfo(info: WindowInfo) returns (ignored: bool, ghost t: Time)
      requires AtHead()
      modifies this`state, this`mode, strong, weak, pids, clock
      ensures AtHead() && old(clock.last) <= t <= clock.last
      ensures ignored == Ignores(old(state), old(mode), info)
      ensures ignored ==> state == old(state) && mode == old(mode) && weak.entries == old(weak.entries)
      ensures var app := if old(state).pid == info.pid then old(state).appName else info.appName;
              !ignored ==>
                && Vetted(app, info.title, info.windowId, state.windowTitle, TitlesOf(strong.entries),
                          old(weak.entries), weak.capacity, t)
                && Fair(app, info.title, state.windowTitle, TitlesOf(strong.entries), old(weak.entries), weak.entries,
                        old(clock.last), clock.last)
                && state.windowTitle in {info.title, UNKNOWN_WINDOW_TITLE}
                && state == Focus(info.pid, state.processStartTime, app, state.windowTitle,
                                  LoginWindowId(app, info.windowId), old(state).instanceStart)
                && mode == Mode(old(mode).pollLockActive && (old(state).pid == info.pid || IsLoginWindow(info.appName)),
                                None, None, old(mode).previousApp, false, false,
                                if IsComplete(state) then Some(clock.last) else old(mode).scheduledEmitAt)
                && (old(state).pid == info.pid ==> state.processStartTime == old(state).processStartTime)
    {
      hide Vetted, Unshared, Owns, Faithful, SafeLog, LruCache.Valid, Justified;
      t := clock.last;
      ignored := Ignores(state, mode, info);
      if ignored {
        return;
      }
      mode := mode.(coalesceUntil := None, pendingTitle := None);
      FollowProcess(info);
      var adopted, t' := AdoptTitle(info.title, info.windowId);
      t := t';
      mode := mode.(awaitingPoll := false, reconcileActive := false);
      ApplyTitle(adopted, info.windowId, 0);
    }

    // ---------- Polling ----------

    /** Takes the polled window for the current one, and reports it at once. */
    method TakeOver(info: WindowInfo, id: nat) returns (ghost t: Time)
      requires Caches() && Unshared(TitlesOf(strong.entries))
      modifies this`state, this`mode, strong, weak, pids, clock
      ensures Caches() && TitlesOf(strong.entries) == old(TitlesOf(strong.entries))
              && old(clock.last) <= t <= clock.last
      ensures Vetted(info.appName, info.title, info.windowId, state.windowTitle, TitlesOf(strong.entries),
                     old(weak.entries), weak.capacity, t)
      ensures Fair(info.appName, info.title, state.windowTitle, TitlesOf(strong.entries),
                   old(weak.entries), weak.entries, old(clock.last), clock.last)
      ensures state.windowTitle in {info.title, UNKNOWN_WINDOW_TITLE}
      ensures Owns(info.appName, state.windowTitle, TitlesOf(strong.entries))
      ensures state == Focus(info.pid, state.processStartTime, info.appName, state.windowTitle, id, state.instanceStart)
      ensures mode == Mode(false, None, None, old(mode).previousApp, false, false, Some(clock.last))
    {
      hide Vetted, Unshared, Owns, LruCache.Valid, Justified;
      var start := FindProcessStart(info.pid);
      var wall: Time := *;
      state := state.(appName := info.appName, pid := info.pid, processStartTime := start, windowId := id,
                      instanceStart := wall);
      var adopted, t' := AdoptTitle(info.title, info.windowId);
      t := t';
      state := state.(windowTitle := adopted);
      var now := clock.Now();
      mode := Mode(false, None, None, mode.previousApp, false, false, Some(now));
    }

    /** The process and app of a window, when the process is another one than before. */
    method FollowPolledProcess(info: WindowInfo)
      requires pids.Valid() && pids.ttl == None
      modifies this`state, pids, clock
      ensures pids.Valid() && old(clock.last) <= clock.last
      ensures state == Focus(info.pid, state.processStartTime,
                             if old(state).pid == info.pid then old(state).appName else info.appName,
                             old(state).windowTitle, old(state).windowId, old(state).instanceStart)
      ensures old(state).pid == info.pid ==> state == old(state)
    {
      if state.pid != info.pid {
        var start := GetProcessStartTime(info.pid);
        state := state.(pid := info.pid, appName := info.appName, processStartTime := start);
      }
    }

    /** A polled title other than the one last polled for the window. */
    method NoticeTitleChange(info: WindowInfo) returns (ghost t: Time)
      requires AtHead()
      modifies this`state, this`mode, strong, weak, pids, clock
      ensures AtHead() && old(clock.last) <= t <= clock.last
      ensures TitlesOf(strong.entries) == old(TitlesOf(strong.entries))
      ensures var app := if old(state).pid == info.pid then old(state).appName else info.appName;
              && Vetted(app, info.title, info.windowId, state.windowTitle, TitlesOf(strong.entries), old(weak.entries),
                        weak.capacity, t)
              && Fair(app, info.title, state.windowTitle, TitlesOf(strong.entries), old(weak.entries), weak.entries,
                      old(clock.last), clock.last)
              && state.windowTitle in {info.title, UNKNOWN_WINDOW_TITLE}
              && state == Focus(info.pid, state.processStartTime, app, state.windowTitle, info.windowId,
                                old(state).instanceStart)
              && (old(state).pid == info.pid ==> state.processStartTime == old(state).processStartTime)
      ensures mode == old(mode).(scheduledEmitAt := if IsComplete(state) then Some(clock.last)
                                                    else old(mode).scheduledEmitAt)
    {
      hide Vetted, Unshared, Owns, Faithful, SafeLog, LruCache.Valid, Justified;
      FollowPolledProcess(info);
      var adopted, t' := AdoptTitle(info.title, info.windowId);
      t := t';
      state := state.(windowTitle := adopted, windowId := info.windowId);
      if IsComplete(state) {
        var now := clock.Now();
        mode := mode.(scheduledEmitAt := Some(now));
      }
    }

    /** A poll ends a lock, and confirms an app change. */
    method Resync(info: WindowInfo)
      requires AtHead()
      modifies this`state, this`mode, strong, weak, pids, clock
      ensures AtHead() && old(clock.last) <= clock.last
      ensures var recovered := old(mode).pollLockActive;
              var confirmed := !recovered && old(mode).awaitingPoll && old(state).appName == info.appName;
              if recovered || confirmed
              then && mode == Mode(false, None, None, old(mode).previousApp, false, false, mode.scheduledEmitAt)
                   && state.appName == info.appName && state.pid == info.pid
                   && state.windowId == (if confirmed then LoginWindowId(info.appName, info.windowId)
                                         else info.windowId)
                   && state.windowTitle in {info.title, UNKNOWN_WINDOW_TITLE}
                   && Fair(info.appName, info.title, state.windowTitle, TitlesOf(strong.entries),
                           old(weak.entries), weak.entries, old(clock.last), clock.last)
              else state == old(state) && mode == old(mode) && weak.entries == old(weak.entries)
    {
      if mode.pollLockActive {
        var _ := TakeOver(info, info.windowId);
      }
      if mode.awaitingPoll && state.appName == info.appName {
        var _ := TakeOver(info, LoginWindowId(info.appName, info.windowId));
      }
    }

    /** Compares the polled title with the one last polled for the window, and remembers it. */
    method WatchTitle(info: WindowInfo) returns (ghost changed: bool, ghost t: Time)
      requires AtHead()
      modifies this`state, this`mode, this`overtaken, strong, weak, lastTitles, pids, clock
      ensures AtHead() && old(clock.last) <= t <= clock.last
      ensures TitlesOf(strong.entries) == old(TitlesOf(strong.entries))
      ensures changed <==> PolledOtherwise(old(lastTitles.entries), lastTitles.ttl, info, t)
      ensures Remembered(old(lastTitles.entries), lastTitles.ttl, lastTitles.capacity, info, t, clock.last,
                         lastTitles.entries)
      ensures overtaken == (changed || old(overtaken))
      ensures !changed ==> state == old(state) && mode == old(mode) && weak.entries == old(weak.entries)
      ensures changed && info.windowId == 0 ==> mode == old(mode)
      ensures changed ==>
                && mode == old(mode).(scheduledEmitAt := mode.scheduledEmitAt)
                && state.pid == info.pid && state.windowId == info.windowId
                && state.windowTitle in {info.title, UNKNOWN_WINDOW_TITLE}
                && Fair(state.appName, info.title, state.windowTitle, TitlesOf(strong.entries),
                        old(weak.entries), weak.entries, old(clock.last), clock.last)
                && state.appName == if old(state).pid == info.pid then old(state).appName else info.appName
    {
      hide Vetted, Attribution, Evicted, AfterLookup, Live, TitlesOf, LruCache.Valid, Justified;
      changed := false;
      var now := clock.Now();
      t := now;
      var last := lastTitles.GetCloned(info.windowId, now);
      if last.Some? && last.value != info.title {
        changed, overtaken := true, true;
        var _ := NoticeTitleChange(info);
      }
      now := clock.Now();
      lastTitles.Put(info.windowId, info.title, now);
    }

    method HandlePolled(info: WindowInfo) returns (ignored: bool, ghost changed: bool, ghost t: Time)
      requires AtHead()
      modifies this`state, this`mode, this`overtaken, strong, weak, lastTitles, pids, clock
      ensures AtHead() && old(clock.last) <= t <= clock.last
      ensures ignored == Ignores(old(state), old(mode), info)
      ensures ignored ==> state == old(state) && mode == old(mode) && lastTitles.entries == old(lastTitles.entries)
                          && weak.entries == old(weak.entries)
      ensures overtaken == (changed || old(overtaken))
      ensures changed <==> !ignored && PolledOtherwise(old(lastTitles.entries), lastTitles.ttl, info, t)
      ensures !ignored ==> Remembered(old(lastTitles.entries), lastTitles.ttl, lastTitles.capacity, info, t, clock.last,
                                      lastTitles.entries)
      ensures var recovered := old(mode).pollLockActive;
              var confirmed := !recovered && old(mode).awaitingPoll && old(state).appName == info.appName;
              !ignored ==>
                && (recovered || confirmed
                    ==> mode == Mode(false, None, None, old(mode).previousApp, false, false, mode.scheduledEmitAt))
                && (!recovered && !confirmed ==> mode == old(mode).(scheduledEmitAt := mode.scheduledEmitAt))
                && (!recovered && !confirmed && !changed
                    ==> state == old(state) && mode == old(mode) && weak.entries == old(weak.entries))
                && (recovered || confirmed || changed ==>
                      && state.pid == info.pid && state.windowTitle in {info.title, UNKNOWN_WINDOW_TITLE}
                      && state.windowId == (if confirmed && !changed then LoginWindowId(info.appName, info.windowId)
                                            else info.windowId))
                && state.appName == (if recovered || (!confirmed && changed && old(state).pid != info.pid)
                                     then info.appName else old(state).appName)
      ensures !old(mode).pollLockActive && !old(mode).awaitingPoll && state.windowId == 0 ==> mode == old(mode)
      ensures !ignored && (old(mode).pollLockActive || changed
                           || (old(mode).awaitingPoll && old(state).appName == info.appName)) ==>
                NobodyElses(state.appName, state.windowTitle, TitlesOf(strong.entries), weak.entries)
    {
      hide Vetted, Attribution, Remembered, LruCache.Valid;
      changed, t := false, clock.last;
      ignored := Ignores(state, mode, info);
      if ignored {
        return;
      }
      Resync(info);
      changed, t := WatchTitle(info);
    }

    method SynthesizeLogin()
      requires Attributed()
      modifies this`emitted, this`audit
      ensures Attributed()
      ensures old(Complete(emitted, allowZeroWindowId)) ==> Complete(emitted, allowZeroWindowId)
      ensures |emitted| == |old(emitted)| + 1 && emitted[..|old(emitted)|] == old(emitted)
      ensures var e := emitted[|old(emitted)|];
              e.synthesized && e.focus
                  == Focus(0, UnixMillis(e.focus.instanceStart), LOGINWINDOW_APP, LOGIN_TITLE, LOGINWINDOW_WINDOW_ID,
                           e.focus.instanceStart)
    {
      var wall: Time := *;
      var e := Emission(Focus(0, UnixMillis(wall), LOGINWINDOW_APP, LOGIN_TITLE, LOGINWINDOW_WINDOW_ID, wall), true);
      ghost var titles := TitlesOf(strong.entries);
      SafeLogAppend(emitted, audit, strong.capacity, e, titles);
      LogAppend(emitted, e);
      emitted := emitted + [e];
      audit := audit + [titles];
    }

    /** The lock screen hides all windows; the first failed poll reports it if it is the current app. */
    method HandlePollFailed(lockError: bool)
      requires AtHead()
      modifies this`mode, this`emitted, this`audit
      ensures AtHead()
      ensures old(Complete(emitted, allowZeroWindowId)) ==> Complete(emitted, allowZeroWindowId)
      ensures mode == old(mode).(pollLockActive := old(mode).pollLockActive || lockError)
      ensures var synthesizes := lockError && !old(mode).pollLockActive && IsLoginWindow(state.appName);
              && (!synthesizes ==> emitted == old(emitted))
              && (synthesizes ==>
                    && |emitted| == |old(emitted)| + 1 && emitted[..|old(emitted)|] == old(emitted)
                    && emitted[|old(emitted)|].synthesized
                    && emitted[|old(emitted)|].focus.appName == LOGINWINDOW_APP
                    && emitted[|old(emitted)|].focus.windowTitle == LOGIN_TITLE)
    {
      hide Complete;
      if lockError && !mode.pollLockActive {
        mode := mode.(pollLockActive := true);
        if IsLoginWindow(state.appName) {
          SynthesizeLogin();
        }
      }
    }

    // ---------- Deadlines ----------

    /** When the deadline has passed, the pending title is decided, and reconciling ends. */
    method SettleCoalesce() returns (ghost settled: bool, ghost decision: Decision, ghost r: Readings)
      requires Handled()
      modifies this`state, this`mode, strong, weak, clock
      ensures AtHead() && old(clock.last) <= clock.last
      ensures !settled ==> state == old(state) && mode == old(mode) && weak.entries == old(weak.entries)
                           && (mode.coalesceUntil.Some? ==> clock.last < mode.coalesceUntil.value)
      ensures settled ==>
                && old(mode).coalesceUntil.Some? && old(mode).coalesceUntil.value <= clock.last
                && mode == old(mode).(coalesceUntil := None, pendingTitle := None, reconcileActive := false,
                                      awaitingPoll := old(mode).awaitingPoll || old(mode).pendingTitle.Some?,
                                      scheduledEmitAt := if Reportable(state, allowZeroWindowId) then Some(clock.last)
                                                         else old(mode).scheduledEmitAt)
                && (old(mode).pendingTitle.None? ==> state == old(state))
                && (old(mode).pendingTitle.Some? ==>
                      && decision == Reconciled(old(state).appName, old(mode).pendingTitle.value, old(mode).previousApp,
                                                old(TitlesOf(strong.entries)), old(weak.entries), r)
                      && state == old(state).(windowTitle := decision.value,
                                              windowId := LoginWindowId(old(state).appName, old(state).windowId)))
    {
      hide Vetted, Attribution, LruCache.Valid;
      settled, decision, r := false, Hold(""), Readings(clock.last, clock.last, clock.last);
      if mode.coalesceUntil.Some? {
        var now := clock.Now();
        if now >= mode.coalesceUntil.value {
          settled := true;
          decision, r := DecidePending();
          mode := mode.(coalesceUntil := None, reconcileActive := false);
          if Reportable(state, allowZeroWindowId) {
            now := clock.Now();
            mode := mode.(scheduledEmitAt := Some(now));
          }
        }
      }
    }

    method DecidePending() returns (ghost decision: Decision, ghost r: Readings)
      requires Valid()
      modifies this`state, this`mode, strong, weak, clock
      ensures Valid() && old(clock.last) <= clock.last
      ensures old(mode).pendingTitle.None? ==> state == old(state) && mode == old(mode)
      ensures old(mode).pendingTitle.Some? ==>
                && mode == old(mode).(pendingTitle := None, awaitingPoll := true)
                && decision == Reconciled(old(state).appName, old(mode).pendingTitle.value, old(mode).previousApp,
                                          old(TitlesOf(strong.entries)), old(weak.entries), r)
                && state == old(state).(windowTitle := decision.value,
                                        windowId := LoginWindowId(old(state).appName, old(state).windowId))
    {
      decision, r := Hold(""), Readings(clock.last, clock.last, clock.last);
      if mode.pendingTitle.Some? {
        var value;
        value, decision, r := DecideTitle(mode.pendingTitle.value, false);
        state := state.(windowTitle := value.value, windowId := LoginWindowId(state.appName, state.windowId));
        mode := mode.(pendingTitle := None, awaitingPoll := true);
      }
    }

    /** A report that is due is made once, as soon as the state allows it. */
    method EmitIfDue()
      requires AtHead()
      modifies this`mode, this`emitted, this`audit, strong, clock
      ensures AtHead() && old(clock.last) <= clock.last
      ensures emitted == old(emitted) || emitted == old(emitted) + [Emission(state, false)]
      ensures old(Complete(emitted, allowZeroWindowId)) ==> Complete(emitted, allowZeroWindowId)
      ensures if emitted == old(emitted)
              then mode == old(mode)
                   && (mode.scheduledEmitAt.Some? && Reportable(state, allowZeroWindowId)
                       ==> clock.last < mode.scheduledEmitAt.value)
              else mode == old(mode).(scheduledEmitAt := None) && old(mode).scheduledEmitAt.Some?
                   && old(mode).scheduledEmitAt.value <= clock.last
    {
      hide Attribution, Caches, Evicted;
      if mode.scheduledEmitAt.Some? {
        var now := clock.Now();
        if now >= mode.scheduledEmitAt.value && Reportable(state, allowZeroWindowId) {
          Emit();
          mode := mode.(scheduledEmitAt := None);
        }
      }
    }

    // ---------- The loop ----------

    /** Some messages are dropped or held back, and end the turn at once. */
    method Dispatch(input: Input) returns (skip: bool)
      requires AtHead() && HoldsPending() && !input.Stop?
      modifies this`state, this`mode, this`emitted, this`audit, this`overtaken, strong, weak, lastTitles, pids, clock
      ensures HeldUntilDeadline() && (skip ==> HoldsPending())
      ensures old(Complete(emitted, allowZeroWindowId)) ==> Complete(emitted, allowZeroWindowId)
      ensures old(mode).reconcileActive && old(state).appName != "" && !input.AppChange? ==>
                EqIgnoreAsciiCase(old(state).appName, state.appName)
      ensures input.AppChangeInfo? || input.WindowChangeInfo? || input.Polled? ==>
                (skip <==> old(mode).reconcileActive && old(state).appName != ""
                           && !EqIgnoreAsciiCase(old(state).appName, input.info.appName))
      ensures Handled() && (skip ==> AtHead()) && old(emitted) <= emitted && old(clock.last) <= clock.last
      ensures !skip && (input.AppChangeInfo? || input.WindowChangeInfo?
                        || (input.WindowChange? && input.title != "" && input.title != old(state).windowTitle)) ==>
                mode.scheduledEmitAt
                == if state.appName != "" && state.windowTitle != "" && state.pid > 0 && state.processStartTime > 0
                      && state.windowId > 0
                   then Some(clock.last + if input.WindowChange? then WINDOW_SETTLE else 0)
                   else old(mode).scheduledEmitAt
      ensures state.windowId == 0 && Unsolicited(input, old(mode)) ==>
                emitted == old(emitted) && mode.scheduledEmitAt == old(mode).scheduledEmitAt
      ensures Unsolicited(input, old(mode)) && old(mode).coalesceUntil.None? ==> mode.coalesceUntil.None?
      ensures match input
              case AppChange(pid, appName) => !skip && state.pid == pid && state.appName == appName
              case WindowChange(title) =>
                && state.pid == old(state).pid && state.appName == old(state).appName
                && (skip ==> state == old(state) && mode.pendingTitle == Some(title))
                && (!skip ==> state.windowTitle in {old(state).windowTitle, title, UNKNOWN_WINDOW_TITLE}
                              && mode.pendingTitle == old(mode).pendingTitle)
              case AppChangeInfo(info) =>
                && skip == Ignores(old(state), old(mode), info)
                && (!skip ==> state.pid == info.pid && state.appName == info.appName && mode.coalesceUntil == None
                              && mode.pendingTitle == None)
              case WindowChangeInfo(info) =>
                && skip == Ignores(old(state), old(mode), info)
                && (!skip ==> state.pid == info.pid && mode.coalesceUntil == None && mode.pendingTitle == None
                              && state.appName == if old(state).pid == info.pid then old(state).appName
                                                  else info.appName)
              case Polled(info) => skip == Ignores(old(state), old(mode), info)
                                   && mode.pollLockActive == (skip && old(mode).pollLockActive)
              case PollFailed(lockError) => !skip && state == old(state)
                                            && mode.pollLockActive == (old(mode).pollLockActive || lockError)
              case PollSuspended => skip && state == old(state) && mode == old(mode) && emitted == old(emitted)
              case Stop => true
    {
      hide JustRecorded, Vetted, Attribution, Caches, Complete, Fair, NobodyElses, EqIgnoreAsciiCase, Remembered;
      skip := false;
      SameName(state.appName);
      ghost var t: Time, changed: bool;
      match input {
        case AppChange(pid, appName) => HandleAppChange(pid, appName);
        case WindowChange(title) =>
          skip := HandleWindowChange(title);
          if skip && state.appName != "" && !IsPlaceholder(title) {
            JustRecordedIsKept(state.appName, title, state.windowId, weak.capacity, weak.entries, clock.last);
          }
        case AppChangeInfo(info) => skip, t := HandleAppChangeInfo(info);
        case WindowChangeInfo(info) => skip, t := HandleWindowChangeInfo(info);
        case Polled(info) => skip, changed, t := HandlePolled(info);
        case PollFailed(lockError) => HandlePollFailed(lockError);
        case PollSuspended => skip := true;
      }
    }

    /** Afterwards nothing is left undone that is due and possible: no deadline that had passed at
        `settledAt` is still armed, and no complete state waits for a report that is due. */
    method FinishTurn() returns (ghost settledAt: Time)
      requires Handled() && HeldUntilDeadline()
      modifies this`state, this`mode, this`emitted, this`audit, strong, weak, clock
      ensures HoldsPending() && state.appName == old(state).appName
      ensures old(Complete(emitted, allowZeroWindowId)) ==> Complete(emitted, allowZeroWindowId)
      ensures AtHead() && old(emitted) <= emitted && old(clock.last) <= settledAt <= clock.last
      ensures mode.coalesceUntil.Some? ==> settledAt < mode.coalesceUntil.value
      ensures mode.scheduledEmitAt.Some? && Reportable(state, allowZeroWindowId)
              ==> clock.last < mode.scheduledEmitAt.value
      ensures old(mode).coalesceUntil.None? ==>
                && state == old(state)
                && (old(mode).scheduledEmitAt.None? ==> mode == old(mode) && emitted == old(emitted))
    {
      hide Complete, LruCache.Valid;
      var settled, decision, r := SettleCoalesce();
      settledAt := clock.last;
      EmitIfDue();
    }

    /** What a turn does with any input but a stop. */
    method Act(input: Input) returns (skip: bool, ghost settledAt: Time)
      requires AtHead() && HoldsPending() && !input.Stop?
      modifies this`state, this`mode, this`emitted, this`audit, this`overtaken, strong, weak, lastTitles, pids, clock
      ensures AtHead() && HoldsPending() && old(emitted) <= emitted
      ensures old(Complete(emitted, allowZeroWindowId)) ==> Complete(emitted, allowZeroWindowId)
      ensures old(mode).reconcileActive && old(state).appName != "" && !input.AppChange? ==>
                EqIgnoreAsciiCase(old(state).appName, state.appName)
      ensures !skip ==>
                && old(clock.last) <= settledAt <= clock.last
                && (mode.coalesceUntil.Some? ==> settledAt < mode.coalesceUntil.value)
                && (mode.scheduledEmitAt.Some? && Reportable(state, allowZeroWindowId)
                    ==> clock.last < mode.scheduledEmitAt.value)
      ensures state.windowId == 0 && Unsolicited(input, old(mode)) && old(mode).scheduledEmitAt.None?
              && old(mode).coalesceUntil.None? ==>
                emitted == old(emitted) && mode.scheduledEmitAt.None?
      ensures skip ==> input.WindowChange? || input.AppChangeInfo? || input.WindowChangeInfo? || input.Polled?
                       || input.PollSuspended?
    {
      hide AtHead, HoldsPending, Handled, HeldUntilDeadline, Complete, EqIgnoreAsciiCase, Reportable, Ignores;
      settledAt := clock.last;
      skip := Dispatch(input);
      if !skip {
        settledAt := FinishTurn();
      }
    }

    /** One turn of the loop.  A stop changes nothing.  Unsolicited news of a window without an identifier is never
        reported by itself, even where such windows may be: nothing is scheduled for it. */
    method Turn(input: Input) returns (stop: bool, ghost skip: bool, ghost settledAt: Time)
      requires AtHead() && HoldsPending()
      modifies this, strong, weak, lastTitles, pids, clock
      ensures AtHead() && HoldsPending() && old(emitted) <= emitted && stop == input.Stop?
      ensures old(Complete(emitted, allowZeroWindowId)) ==> Complete(emitted, allowZeroWindowId)
      ensures old(mode).reconcileActive && old(state).appName != "" && !input.AppChange? && !stop ==>
                EqIgnoreAsciiCase(old(state).appName, state.appName)
      ensures handled == old(handled) + if stop then [] else [input]
      ensures stop ==> state == old(state) && mode == old(mode) && emitted == old(emitted)
      ensures !stop && !skip ==>
                && old(clock.last) <= settledAt <= clock.last
                && (mode.coalesceUntil.Some? ==> settledAt < mode.coalesceUntil.value)
                && (mode.scheduledEmitAt.Some? && state.appName != "" && state.windowTitle != "" && state.pid > 0
                    && state.processStartTime > 0 && (state.windowId > 0 || allowZeroWindowId)
                    ==> clock.last < mode.scheduledEmitAt.value)
      ensures state.windowId == 0 && Unsolicited(input, old(mode)) && old(mode).scheduledEmitAt.None?
              && old(mode).coalesceUntil.None? ==>
                emitted == old(emitted) && mode.scheduledEmitAt.None?
      ensures skip ==> input.WindowChange? || input.AppChangeInfo? || input.WindowChangeInfo? || input.Polled?
                       || input.PollSuspended?
    {
      hide Complete, EqIgnoreAsciiCase;
      stop, skip, settledAt := input.Stop?, false, clock.last;
      if !stop {
        handled := handled + [input];
        var done;
        done, settledAt := Act(input);
        skip := done;
      }
    }

    /** The whole run: every input up to the first stop is taken, in order.  Whatever arrives, and
        however late, every report was about an app that owned its title. */
    method Run(inputs: seq<Input>) returns (taken: nat)
      requires AtHead() && HoldsPending() && Complete(emitted, allowZeroWindowId)
      modifies this, strong, weak, lastTitles, pids, clock
      ensures AtHead() && HoldsPending() && old(emitted) <= emitted
      ensures Took(old(handled), inputs, taken, handled) && (taken < |inputs| ==> inputs[taken].Stop?)
      ensures SafeLog(emitted, audit, strong.capacity) && Complete(emitted, allowZeroWindowId)
    {
      taken := 0;
      while taken < |inputs|
        invariant AtHead() && HoldsPending() && Complete(emitted, allowZeroWindowId) && old(emitted) <= emitted
        invariant Took(old(handled), inputs, taken, handled)
      {
        ghost var before := handled;
        var stop, _, _ := Turn(inputs[taken]);
        if stop {
          break;
        }
        TookMore(old(handled), inputs, taken, before);
        taken := taken + 1;
      }
    }
  }
}
